/** The lab_gear_machines data source
    (terraform-provider-lab_gear/internal/datasources/machines.go): a list
    projection of what ListMachines returns. ListMachines itself is not part
    of this model, so its outcome is a parameter. */
module GearDataSource {
  import opened Common
  import GearClient
  import opened Framework
  import opened GearResource

  /** machinesDataSourceModel. Each item has the same 11 attributes as the
      resource's model, so it is the same datatype here. */
  datatype MachinesModel = MachinesModel(kind: Value<string>, machines: seq<MachineModel>)

  class MachinesDataSource {
    var client: Option<GearClient.Client>

    constructor ()
      ensures client.None?
    {
      client := None;
    }

    /** Configure: nil provider data leaves the data source as it is; a
        client is stored; anything else is an error. */
    method Configure(data: ProviderData) returns (diags: seq<Diagnostic>)
      modifies this
      ensures data.NoProviderData? ==> client == old(client) && diags == []
      ensures data.GearData? ==> client == Some(data.gear) && diags == []
      ensures !data.NoProviderData? && !data.GearData? ==>
                client == old(client) && diags == [Error("Unexpected provider data type")]
    {
      diags := [];
      match data {
        case NoProviderData =>
        case GearData(c) => client := Some(c);
        case _ => diags := [Error("Unexpected provider data type")];
      }
    }

    /** Read: asks for the configured kind ("" when null, which is no
        filter), and on success writes one item per listed record, in the
        same order, each holding every field of the record at its index; the
        kind attribute is written back unchanged. An error writes no state. */
    method Read(kind: Value<string>, listed: Result<seq<GearClient.Machine>, GearClient.ClientError>)
      returns (askedKind: string, state: Option<MachinesModel>, diags: seq<Diagnostic>)
      requires client.Some?
      ensures askedKind == ValueOr(kind, "")
      ensures listed.Err? ==> state.None? && diags == [Error("Error listing lab_gear machines")]
      ensures listed.Ok? ==> diags == [] && state.Some? && state.value.kind == kind
      ensures listed.Ok? ==> |state.value.machines| == |listed.value|
      ensures listed.Ok? ==> forall i :: 0 <= i < |listed.value| ==>
                AsMachine(state.value.machines[i]) == Some(listed.value[i])
    {
      askedKind := ValueOr(kind, "");
      if listed.Err? {
        return askedKind, None, [Error("Error listing lab_gear machines")];
      }
      var ms := listed.value;
      var items := new MachineModel[|ms|](_ => NullModel);
      for i := 0 to |ms|
        invariant forall j :: 0 <= j < i ==> AsMachine(items[j]) == Some(ms[j])
      {
        items[i] := MachineToState(ms[i], NullModel);
      }
      state := Some(MachinesModel(kind, items[..]));
      diags := [];
    }
  }
}
