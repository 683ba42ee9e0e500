/** The parts of the Terraform plugin framework the two providers' code
    touches: attribute values, diagnostics, provider data, and what a
    resource method leaves in its response. */
module Framework {
  import opened Common
  import GearClient
  import LabClient

  /** types.String, types.Int64, types.Float64: null, unknown until apply, or
      a known value. */
  datatype Value<+T> = Null | Unknown | Known(value: T)

  /** ValueString, ValueInt64, ValueFloat64: the Go zero value unless the
      value is known. */
  function ValueOr<T>(x: Value<T>, zero: T): T {
    if x.Known? then x.value else zero
  }

  /** AddError or AddAttributeError: every diagnostic written here is an
      error; the detail text is not modelled. */
  datatype Diagnostic = Diagnostic(summary: string, attribute: Option<string>)

  function Error(summary: string): Diagnostic {
    Diagnostic(summary, None)
  }

  /** What a provider's Configure hands to resources and data sources: nil,
      one of the two client types, or a value of some other type. The
      lab_gear provider's client and its apiclient client are one type here. */
  datatype ProviderData =
    | NoProviderData
    | GearData(gear: GearClient.Client)
    | LabData(lab: LabClient.Client)
    | OtherData

  datatype ConfigureResponse = ConfigureResponse(resourceData: ProviderData, dataSourceData: ProviderData, diags: seq<Diagnostic>)

  /** The factories a provider registers. */
  datatype Factory = MachineResourceFactory | MachinesDataSourceFactory

  /** What a resource method does to its response state: nothing,
      resp.State.Set, or resp.State.RemoveResource. */
  datatype StateWrite<+M> = Untouched | SetState(model: M) | RemoveState

  /** One resource method call: the API request it sent, if any, its state
      write, and its diagnostics. */
  datatype Step<+C, +M> = Step(call: Option<C>, write: StateWrite<M>, diags: seq<Diagnostic>)

  /** The tracked state after Create, Read, Update or ImportState. The
      framework starts Create and import from no state and Read and Update
      from the prior one. */
  function Applied<M>(prior: Option<M>, w: StateWrite<M>): Option<M> {
    match w
    case Untouched => prior
    case SetState(m) => Some(m)
    case RemoveState => None
  }

  /** The tracked state after Delete: the framework drops it when the method
      reports no error. */
  function AfterDelete<M>(prior: Option<M>, diags: seq<Diagnostic>): (r: Option<M>)
    ensures r.None? <==> diags == [] || prior.None?
  {
    if diags == [] then None else prior
  }
}
