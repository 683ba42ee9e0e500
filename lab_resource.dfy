/** The lab_machine resource
    (terraform-provider-lab/internal/resources/machine.go). Optional
    attributes are null when the record lacks them, created_at and
    updated_at are tracked, a 404 is handled here by looking inside the
    client's APIError, and import passes the id through without a remote
    call. */
module LabResource {
  import opened Common
  import Models
  import Http
  import LabClient
  import opened Framework

  /** MachineResourceModel: the 13 schema attributes. */
  datatype MachineModel = MachineModel(
    id: Value<string>,
    name: Value<string>,
    kind: Value<string>,
    make: Value<string>,
    model: Value<string>,
    cpu: Value<string>,
    ramGb: Value<int>,
    storageTb: Value<Models.Float64>,
    location: Value<string>,
    serial: Value<string>,
    notes: Value<string>,
    createdAt: Value<string>,
    updatedAt: Value<string>)

  const NullModel: MachineModel :=
    MachineModel(Null, Null, Null, Null, Null, Null, Null, Null, Null, Null, Null, Null, Null)

  /** An optional attribute as machineFromModel sends it: set only when it
      is neither null nor unknown. */
  function Sent<T>(v: Value<T>): Option<T> {
    if !v.Null? && !v.Unknown? then Some(v.value) else None
  }

  /** An optional field as modelFromMachine keeps it: a nil pointer is null. */
  function Held<T>(o: Option<T>): Value<T> {
    if o.Some? then Known(o.value) else Null
  }

  /** machineFromModel. The id, created_at and updated_at are left empty,
      which `omitempty` leaves out of the JSON. */
  function MachineFromModel(m: MachineModel): LabClient.Machine {
    LabClient.Machine("", ValueOr(m.name, ""), ValueOr(m.kind, ""), ValueOr(m.make, ""), ValueOr(m.model, ""),
                      Sent(m.cpu), Sent(m.ramGb), Sent(m.storageTb), Sent(m.location), Sent(m.serial), Sent(m.notes),
                      "", "")
  }

  /** modelFromMachine. */
  function ModelFromMachine(r: LabClient.Machine): MachineModel {
    MachineModel(Known(r.id), Known(r.name), Known(r.kind), Known(r.make), Known(r.model),
                 Held(r.cpu), Held(r.ramGb), Held(r.storageTb), Held(r.location), Held(r.serial), Held(r.notes),
                 Known(r.createdAt), Known(r.updatedAt))
  }

  /** No optional attribute is waiting for a value. */
  predicate NoUnknownOptional(m: MachineModel) {
    !m.cpu.Unknown? && !m.ramGb.Unknown? && !m.storageTb.Unknown?
    && !m.location.Unknown? && !m.serial.Unknown? && !m.notes.Unknown?
  }

  /** The two conversions are inverse on everything the client sends: a
      record survives the trip through state apart from the three fields
      that are never sent, and a model with known required attributes and no
      unknown optional one survives the trip through a record, absent
      optionals staying null. */
  lemma ConversionsRoundTrip(r: LabClient.Machine, m: MachineModel)
    ensures MachineFromModel(ModelFromMachine(r)) == r.(id := "", createdAt := "", updatedAt := "")
    ensures m.name.Known? && m.kind.Known? && m.make.Known? && m.model.Known? && NoUnknownOptional(m) ==>
              ModelFromMachine(MachineFromModel(m)) == m.(id := Known(""), createdAt := Known(""), updatedAt := Known(""))
  {
  }

  /** What is sent never depends on id, created_at or updated_at; in state
      those three come only from the server's record. */
  lemma ServerFieldsAreNeverSent(m: MachineModel, id: Value<string>, createdAt: Value<string>, updatedAt: Value<string>, r: LabClient.Machine)
    ensures MachineFromModel(m.(id := id, createdAt := createdAt, updatedAt := updatedAt)) == MachineFromModel(m)
    ensures var s := ModelFromMachine(r); s.id == Known(r.id) && s.createdAt == Known(r.createdAt) && s.updatedAt == Known(r.updatedAt)
  {
  }

  /** An unknown optional attribute is sent as absent, exactly like a null. */
  lemma UnknownIsSentAsAbsent(m: MachineModel)
    ensures MachineFromModel(m.(cpu := Unknown, notes := Unknown)) == MachineFromModel(m.(cpu := Null, notes := Null))
    ensures MachineFromModel(m.(cpu := Unknown)).cpu.None?
  {
  }

  type Call = LabClient.Request

  /** An APIError with status 404, the only error the resource handles
      itself. */
  predicate IsNotFound(e: LabClient.LabError) {
    e.ApiError? && e.statusCode == Http.StatusNotFound
  }

  const NotConfigured: Diagnostic := Error("Provider not configured")

  class MachineResource {
    var client: Option<LabClient.Client>

    constructor ()
      ensures client.None?
    {
      client := None;
    }

    /** Configure: nil provider data leaves the resource as it is; a client
        is stored; anything else is an error. */
    method Configure(data: ProviderData) returns (diags: seq<Diagnostic>)
      modifies this
      ensures data.NoProviderData? ==> client == old(client) && diags == []
      ensures data.LabData? ==> client == Some(data.lab) && diags == []
      ensures !data.NoProviderData? && !data.LabData? ==>
                client == old(client) && diags == [Error("Unexpected provider data type")]
    {
      diags := [];
      match data {
        case NoProviderData =>
        case LabData(c) => client := Some(c);
        case _ => diags := [Error("Unexpected provider data type")];
      }
    }

    /** Create: unconfigured, it fails without a request; otherwise the plan
        is sent and the state becomes the returned record. */
    function Create(plan: MachineModel, reply: LabClient.Reply): (s: Step<Call, MachineModel>)
      reads this
      ensures client.None? ==> s == Step(None, Untouched, [NotConfigured])
      ensures client.Some? ==> s.call == Some(LabClient.CreateRequest(client.value, MachineFromModel(plan)))
      ensures client.Some? ==> (s.write.SetState? <==> LabClient.CreateMachine(reply).Ok?)
      ensures s.write.SetState? ==> s.write.model == ModelFromMachine(LabClient.CreateMachine(reply).value) && s.diags == []
      ensures client.Some? && !s.write.SetState? ==> s.write.Untouched? && s.diags == [Error("Error creating machine")]
    {
      if client.None? then Step(None, Untouched, [NotConfigured])
      else
        var call := Some(LabClient.CreateRequest(client.value, MachineFromModel(plan)));
        match LabClient.CreateMachine(reply)
        case Err(_) => Step(call, Untouched, [Error("Error creating machine")])
        case Ok(created) => Step(call, SetState(ModelFromMachine(created)), [])
    }

    /** Read: an APIError with status 404 removes the state without error;
        any other error is a diagnostic; otherwise the state becomes the
        returned record. */
    function Read(state: MachineModel, reply: LabClient.Reply): (s: Step<Call, MachineModel>)
      reads this
      ensures client.None? ==> s == Step(None, Untouched, [NotConfigured])
      ensures client.Some? ==> s.call == Some(LabClient.GetRequest(client.value, ValueOr(state.id, "")))
      ensures client.Some? ==> (s.write.RemoveState? <==> LabClient.GetMachine(reply).Err? && IsNotFound(LabClient.GetMachine(reply).error))
      ensures s.write.RemoveState? ==> s.diags == []
      ensures client.Some? ==> (s.write.SetState? <==> LabClient.GetMachine(reply).Ok?)
      ensures s.write.SetState? ==> s.write.model == ModelFromMachine(LabClient.GetMachine(reply).value) && s.diags == []
      ensures client.Some? && s.write.Untouched? ==> s.diags == [Error("Error reading machine")]
    {
      if client.None? then Step(None, Untouched, [NotConfigured])
      else
        var call := Some(LabClient.GetRequest(client.value, ValueOr(state.id, "")));
        match LabClient.GetMachine(reply)
        case Err(e) =>
          if IsNotFound(e) then Step(call, RemoveState, [])
          else Step(call, Untouched, [Error("Error reading machine")])
        case Ok(m) => Step(call, SetState(ModelFromMachine(m)), [])
    }

    /** Update: the request addresses the plan's id, which the id
        attribute's UseStateForUnknown plan modifier carries over from prior
        state; the new state is the returned record. */
    function Update(plan: MachineModel, reply: LabClient.Reply): (s: Step<Call, MachineModel>)
      reads this
      ensures client.None? ==> s == Step(None, Untouched, [NotConfigured])
      ensures client.Some? ==> s.call == Some(LabClient.UpdateRequest(client.value, ValueOr(plan.id, ""), MachineFromModel(plan)))
      ensures client.Some? ==> (s.write.SetState? <==> LabClient.UpdateMachine(reply).Ok?)
      ensures s.write.SetState? ==> s.write.model == ModelFromMachine(LabClient.UpdateMachine(reply).value) && s.diags == []
      ensures client.Some? && !s.write.SetState? ==> s.write.Untouched? && s.diags == [Error("Error updating machine")]
    {
      if client.None? then Step(None, Untouched, [NotConfigured])
      else
        var call := Some(LabClient.UpdateRequest(client.value, ValueOr(plan.id, ""), MachineFromModel(plan)));
        match LabClient.UpdateMachine(reply)
        case Err(_) => Step(call, Untouched, [Error("Error updating machine")])
        case Ok(updated) => Step(call, SetState(ModelFromMachine(updated)), [])
    }

    /** Delete: an APIError with status 404 counts as success; any other
        error is a diagnostic. */
    function Delete(state: MachineModel, reply: LabClient.Reply): (s: Step<Call, MachineModel>)
      reads this
      ensures client.None? ==> s == Step(None, Untouched, [NotConfigured])
      ensures client.Some? ==> s.call == Some(LabClient.DeleteRequest(client.value, ValueOr(state.id, "")))
      ensures s.write.Untouched?
      ensures client.Some? ==> (s.diags == [] <==> LabClient.DeleteMachine(reply).None? || IsNotFound(LabClient.DeleteMachine(reply).value))
      ensures client.Some? && s.diags != [] ==> s.diags == [Error("Error deleting machine")]
    {
      if client.None? then Step(None, Untouched, [NotConfigured])
      else
        var call := Some(LabClient.DeleteRequest(client.value, ValueOr(state.id, "")));
        match LabClient.DeleteMachine(reply)
        case None => Step(call, Untouched, [])
        case Some(e) =>
          if IsNotFound(e) then Step(call, Untouched, [])
          else Step(call, Untouched, [Error("Error deleting machine")])
    }

    /** ImportState: ImportStatePassthroughID, which writes the given id
        into the id attribute and makes no remote call; the next Read fills
        in the rest. */
    function ImportState(id: string): (s: Step<Call, MachineModel>)
      reads this
      ensures s.call.None? && s.diags == []
      ensures s.write.SetState? && s.write.model == NullModel.(id := Known(id))
    {
      Step(None, SetState(NullModel.(id := Known(id))), [])
    }
  }

  /** Read and Delete agree on a record that is gone: the state is dropped
      and no error is reported, whatever the body of the 404 says. */
  lemma NotFoundMeansGone(r: MachineResource, state: MachineModel, payload: string, parsed: Json<LabClient.Machine>)
    requires r.client.Some?
    ensures Applied(Some(state), r.Read(state, LabClient.Reply(404, payload, parsed)).write).None?
    ensures r.Read(state, LabClient.Reply(404, payload, parsed)).diags == []
    ensures AfterDelete(Some(state), r.Delete(state, LabClient.Reply(404, payload, parsed)).diags).None?
  {
  }
}
