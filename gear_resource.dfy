/** The lab_gear_machine resource
    (terraform-provider-lab_gear/internal/resources/machine.go). Every
    attribute is copied from the server's record into state, and import
    reads the record remotely. */
module GearResource {
  import opened Common
  import Models
  import GearClient
  import opened Framework

  /** machineModel: the 11 schema attributes. */
  datatype MachineModel = MachineModel(
    id: Value<string>,
    name: Value<string>,
    kind: Value<string>,
    make: Value<string>,
    model: Value<string>,
    cpu: Value<string>,
    ramGb: Value<int>,
    storageTb: Value<Models.Float64>,
    location: Value<string>,
    serial: Value<string>,
    notes: Value<string>)

  /** A zero machineModel: every attribute null. */
  const NullModel: MachineModel := MachineModel(Null, Null, Null, Null, Null, Null, Null, Null, Null, Null, Null)

  /** The record a model holds when every attribute is known. */
  function AsMachine(s: MachineModel): Option<GearClient.Machine> {
    if s.id.Known? && s.name.Known? && s.kind.Known? && s.make.Known? && s.model.Known?
       && s.cpu.Known? && s.ramGb.Known? && s.storageTb.Known? && s.location.Known?
       && s.serial.Known? && s.notes.Known?
    then Some(GearClient.Machine(s.id.value, s.name.value, s.kind.value, s.make.value, s.model.value,
                                 s.cpu.value, s.ramGb.value, s.storageTb.value, s.location.value,
                                 s.serial.value, s.notes.value))
    else None
  }

  /** machineToState: every attribute of `s`, id included, is overwritten
      with the record's value, so nothing of `s` survives. */
  function MachineToState(m: GearClient.Machine, s: MachineModel): (r: MachineModel)
    ensures AsMachine(r) == Some(m)
  {
    MachineModel(Known(m.id), Known(m.name), Known(m.kind), Known(m.make), Known(m.model),
                 Known(m.cpu), Known(m.ramGb), Known(m.storageTb), Known(m.location),
                 Known(m.serial), Known(m.notes))
  }

  /** The record Create and Update send: each attribute's ValueString,
      ValueInt64 or ValueFloat64, under the given id. */
  function PlannedMachine(plan: MachineModel, id: string): GearClient.Machine {
    GearClient.Machine(id, ValueOr(plan.name, ""), ValueOr(plan.kind, ""), ValueOr(plan.make, ""),
                       ValueOr(plan.model, ""), ValueOr(plan.cpu, ""), ValueOr(plan.ramGb, 0),
                       ValueOr(plan.storageTb, Models.ZeroFloat), ValueOr(plan.location, ""),
                       ValueOr(plan.serial, ""), ValueOr(plan.notes, ""))
  }

  /** The state written from a record gives that record back, whatever the
      prior model was: state and record are inverse views of each other. */
  lemma StateRoundTrip(m: GearClient.Machine, s: MachineModel, plan: MachineModel)
    ensures PlannedMachine(MachineToState(m, s), m.id) == m
    ensures AsMachine(plan).Some? ==> MachineToState(PlannedMachine(plan, plan.id.value), NullModel) == plan
    ensures MachineToState(m, s) == MachineToState(m, NullModel)
  {
  }

  type Call = GearClient.Request

  class MachineResource {
    var client: Option<GearClient.Client>

    constructor ()
      ensures client.None?
    {
      client := None;
    }

    /** Configure: nil provider data leaves the resource as it is; a client
        is stored; anything else is an error. */
    method Configure(data: ProviderData) returns (diags: seq<Diagnostic>)
      modifies this
      ensures data.NoProviderData? ==> client == old(client) && diags == []
      ensures data.GearData? ==> client == Some(data.gear) && diags == []
      ensures !data.NoProviderData? && !data.GearData? ==>
                client == old(client) && diags == [Error("Unexpected provider data type")]
    {
      diags := [];
      match data {
        case NoProviderData =>
        case GearData(c) => client := Some(c);
        case _ => diags := [Error("Unexpected provider data type")];
      }
    }

    /** Create: the planned record goes out without an id; on success the
        state becomes the server's record, its id included. */
    function Create(plan: MachineModel, reply: GearClient.Reply): (s: Step<Call, MachineModel>)
      requires client.Some?
      reads this
      ensures s.call == Some(GearClient.CreateRequest(client.value, PlannedMachine(plan, "")))
      ensures s.write.SetState? <==> GearClient.CreateMachine(reply).Ok?
      ensures s.write.SetState? ==> AsMachine(s.write.model) == Some(GearClient.CreateMachine(reply).value) && s.diags == []
      ensures !s.write.SetState? ==> s.write.Untouched? && s.diags == [Error("Error creating lab_gear_machine")]
    {
      var call := Some(GearClient.CreateRequest(client.value, PlannedMachine(plan, "")));
      match GearClient.CreateMachine(reply)
      case Err(_) => Step(call, Untouched, [Error("Error creating lab_gear_machine")])
      case Ok(created) => Step(call, SetState(MachineToState(created, plan)), [])
    }

    /** Read: a record the server no longer has is removed from state
        without error; one it has replaces all 11 attributes. */
    function Read(state: MachineModel, reply: GearClient.Reply): (s: Step<Call, MachineModel>)
      requires client.Some?
      reads this
      ensures s.call == Some(GearClient.GetRequest(client.value, ValueOr(state.id, "")))
      ensures s.write.RemoveState? <==> GearClient.GetMachine(reply) == Ok(None)
      ensures s.write.SetState? <==> GearClient.GetMachine(reply).Ok? && GearClient.GetMachine(reply).value.Some?
      ensures s.write.SetState? ==> AsMachine(s.write.model) == Some(GearClient.GetMachine(reply).value.value)
      ensures s.diags != [] <==> GearClient.GetMachine(reply).Err?
      ensures s.diags != [] ==> s.write.Untouched? && s.diags == [Error("Error reading lab_gear_machine")]
    {
      var call := Some(GearClient.GetRequest(client.value, ValueOr(state.id, "")));
      match GearClient.GetMachine(reply)
      case Err(_) => Step(call, Untouched, [Error("Error reading lab_gear_machine")])
      case Ok(None) => Step(call, RemoveState, [])
      case Ok(Some(m)) => Step(call, SetState(MachineToState(m, state)), [])
    }

    /** Update: the request addresses the id held in prior state, whatever
        the plan says; the new state is the server's record, whose id
        replaces the one copied from prior state. */
    function Update(plan: MachineModel, state: MachineModel, reply: GearClient.Reply): (s: Step<Call, MachineModel>)
      requires client.Some?
      reads this
      ensures s.call == Some(GearClient.UpdateRequest(client.value, PlannedMachine(plan, ValueOr(state.id, ""))))
      ensures s.write.SetState? <==> GearClient.UpdateMachine(reply).Ok?
      ensures s.write.SetState? ==> AsMachine(s.write.model) == Some(GearClient.UpdateMachine(reply).value) && s.diags == []
      ensures !s.write.SetState? ==> s.write.Untouched? && s.diags == [Error("Error updating lab_gear_machine")]
    {
      var call := Some(GearClient.UpdateRequest(client.value, PlannedMachine(plan, ValueOr(state.id, ""))));
      match GearClient.UpdateMachine(reply)
      case Err(_) => Step(call, Untouched, [Error("Error updating lab_gear_machine")])
      case Ok(updated) => Step(call, SetState(MachineToState(updated, plan.(id := state.id))), [])
    }

    /** Delete: any client error is a diagnostic; a 404 is not one, because
        the client has already turned it into success. */
    function Delete(state: MachineModel, reply: GearClient.Reply): (s: Step<Call, MachineModel>)
      requires client.Some?
      reads this
      ensures s.call == Some(GearClient.DeleteRequest(client.value, ValueOr(state.id, "")))
      ensures s.write.Untouched?
      ensures s.diags == [] <==> GearClient.DeleteMachine(reply).None?
      ensures s.diags != [] ==> s.diags == [Error("Error deleting lab_gear_machine")]
    {
      var call := Some(GearClient.DeleteRequest(client.value, ValueOr(state.id, "")));
      if GearClient.DeleteMachine(reply).Some? then Step(call, Untouched, [Error("Error deleting lab_gear_machine")])
      else Step(call, Untouched, [])
    }

    /** ImportState: the given id is read remotely; a record the server does
        not have is an error, and one it has seeds the whole state. */
    function ImportState(id: string, reply: GearClient.Reply): (s: Step<Call, MachineModel>)
      requires client.Some?
      reads this
      ensures s.call == Some(GearClient.GetRequest(client.value, id))
      ensures s.write.SetState? <==> GearClient.GetMachine(reply).Ok? && GearClient.GetMachine(reply).value.Some?
      ensures s.write.SetState? ==> AsMachine(s.write.model) == Some(GearClient.GetMachine(reply).value.value) && s.diags == []
      ensures GearClient.GetMachine(reply) == Ok(None) ==> s.diags == [Error("Machine not found")] && s.write.Untouched?
      ensures GearClient.GetMachine(reply).Err? ==> s.diags == [Error("Error importing lab_gear_machine")] && s.write.Untouched?
    {
      var call := Some(GearClient.GetRequest(client.value, id));
      match GearClient.GetMachine(reply)
      case Err(_) => Step(call, Untouched, [Error("Error importing lab_gear_machine")])
      case Ok(None) => Step(call, Untouched, [Error("Machine not found")])
      case Ok(Some(m)) => Step(call, SetState(MachineToState(m, NullModel.(id := Known(m.id)))), [])
    }
  }

  /** Read as a transition on the tracked state: a 404 forgets the record
      without error, any other status than 200 keeps the prior state and
      reports an error. */
  lemma ReadTransitions(r: MachineResource, prior: MachineModel, body: Json<GearClient.Machine>, status: int)
    requires r.client.Some?
    ensures Applied(Some(prior), r.Read(prior, GearClient.Reply(404, body)).write).None?
    ensures r.Read(prior, GearClient.Reply(404, body)).diags == []
    ensures status != 404 && status != 200 ==>
              Applied(Some(prior), r.Read(prior, GearClient.Reply(status, body)).write) == Some(prior)
              && r.Read(prior, GearClient.Reply(status, body)).diags != []
  {
  }

  /** A failed Create leaves nothing tracked. */
  lemma FailedCreateTracksNothing(r: MachineResource, plan: MachineModel, reply: GearClient.Reply)
    requires r.client.Some? && GearClient.CreateMachine(reply).Err?
    ensures Applied(None, r.Create(plan, reply).write).None?
    ensures r.Create(plan, reply).diags != []
  {
  }
}
