/** The two providers against the inventory server: what each client makes
    of the server's responses, and the state each controller is left with.
    JSON decoding is not modelled; the bridges below state what Go's decoder
    yields for each kind of body the server writes. */
module EndToEnd {
  import opened Common
  import Models
  import opened Http
  import Store
  import opened Handlers
  import Auth
  import ServerConfig
  import GearClient
  import LabClient
  import opened Framework
  import GearResource
  import LabResource

  /** The part of a server record the lab_gear client decodes; the
      timestamps are unknown fields to it and are dropped. */
  function ToGear(m: Models.Machine): GearClient.Machine {
    GearClient.Machine(m.id, m.name, m.kind, m.make, m.model, m.cpu, m.ramGb, m.storageTb, m.location, m.serial, m.notes)
  }

  /** The server's view of a record the lab_gear client sends: every field
      is present in the JSON; the server sets the timestamps itself. */
  function FromGear(g: GearClient.Machine): Models.Machine {
    Models.Machine(g.id, g.name, g.kind, g.make, g.model, g.cpu, g.ramGb, g.storageTb, g.location, g.serial, g.notes, 0, 0)
  }

  /** A server response as the lab_gear client receives it. An error object
      and `null` decode into the zero Machine without error; an absent body
      (end of input) and an array are decoding errors. */
  function GearReply(resp: Response): GearClient.Reply {
    GearClient.Reply(resp.status,
      match resp.body
      case Record(m) => Decoded(ToGear(m))
      case ErrorBody(_) => Decoded(GearClient.ZeroMachine)
      case JsonNull => Decoded(GearClient.ZeroMachine)
      case NoBody => Malformed
      case Records(_) => Malformed)
  }

  /** The server's view of a record the lab client sends: absent optional
      fields decode to their zero values. */
  function FromLab(l: LabClient.Machine): Models.Machine {
    Models.Machine(l.id, l.name, l.kind, l.make, l.model,
                   if l.cpu.Some? then l.cpu.value else "",
                   if l.ramGb.Some? then l.ramGb.value else 0,
                   if l.storageTb.Some? then l.storageTb.value else Models.ZeroFloat,
                   if l.location.Some? then l.location.value else "",
                   if l.serial.Some? then l.serial.value else "",
                   if l.notes.Some? then l.notes.value else "",
                   0, 0)
  }

  /** A server record as the lab client decodes it: the server writes every
      field, so every optional pointer is set. RFC 3339 formatting of the
      timestamps is a parameter. */
  function ToLab(m: Models.Machine, format: Models.Timestamp -> string): LabClient.Machine {
    LabClient.Machine(m.id, m.name, m.kind, m.make, m.model, Some(m.cpu), Some(m.ramGb), Some(m.storageTb),
                      Some(m.location), Some(m.serial), Some(m.notes), format(m.createdAt), format(m.updatedAt))
  }

  /** A server response as the lab client receives it; `payload` is the raw
      body, empty exactly when the server wrote none. */
  function LabReply(resp: Response, payload: string, format: Models.Timestamp -> string): LabClient.Reply {
    LabClient.Reply(resp.status, payload,
      match resp.body
      case Record(m) => Decoded(ToLab(m, format))
      case ErrorBody(_) => Decoded(LabClient.ZeroMachine)
      case JsonNull => Decoded(LabClient.ZeroMachine)
      case NoBody => Malformed
      case Records(_) => Malformed)
  }

  /** A lab_gear create against the server: the server mints the id, and the
      tracked state becomes the stored record, field for field, under that
      id. */
  lemma GearCreateAdoptsServerRecord(r: GearResource.MachineResource, plan: GearResource.MachineModel,
                                     rows: Store.Rows, newId: string, now: Models.Timestamp)
    requires r.client.Some? && newId !in rows
    requires Acceptable(FromGear(GearResource.PlannedMachine(plan, "")))
    ensures var sent := GearResource.PlannedMachine(plan, "");
            var o := CreateSpec(rows, Parsed(FromGear(sent)), newId, now);
            var s := r.Create(plan, GearReply(o.response));
            && o.response.status == StatusCreated
            && newId in o.rows && ToGear(o.rows[newId]) == sent.(id := newId)
            && s.diags == []
            && Applied(None, s.write).Some?
            && GearResource.AsMachine(Applied(None, s.write).value) == Some(sent.(id := newId))
  {
  }

  /** A record deleted outside Terraform: the server answers 404 and the
      lab_gear Read drops the tracked state without an error. */
  lemma GearReadAfterOutOfBandDelete(r: GearResource.MachineResource, prior: GearResource.MachineModel, rows: Store.Rows)
    requires r.client.Some? && prior.id.Known?
    ensures var o := DeleteSpec(rows, prior.id.value);
            var s := r.Read(prior, GearReply(GetSpec(o.rows, prior.id.value)));
            Applied(Some(prior), s.write).None? && s.diags == []
  {
  }

  /** A lab_gear update addresses the id in prior state, and because the
      server answers with the record under the path's id, the tracked id is
      unchanged even though machineToState overwrites it. */
  lemma GearUpdateKeepsId(r: GearResource.MachineResource, plan: GearResource.MachineModel, prior: GearResource.MachineModel,
                          rows: Store.Rows, now: Models.Timestamp)
    requires r.client.Some? && prior.id.Known? && prior.id.value in rows && Store.KeyedById(rows)
    requires Acceptable(FromGear(GearResource.PlannedMachine(plan, prior.id.value)))
    ensures var sent := GearResource.PlannedMachine(plan, prior.id.value);
            var o := UpdateSpec(rows, prior.id.value, Parsed(FromGear(sent)), now);
            var s := r.Update(plan, prior, GearReply(o.response));
            && o.response.status == StatusOK
            && s.write.SetState? && s.write.model.id == prior.id
            && GearResource.AsMachine(s.write.model) == Some(sent)
  {
  }

  /** Deleting a record the server does not have: both providers report
      success and stop tracking it, the lab_gear one inside its client and
      the lab one in the resource. */
  lemma DeleteOfAbsentSucceeds(g: GearResource.MachineResource, gs: GearResource.MachineModel,
                               l: LabResource.MachineResource, ls: LabResource.MachineModel,
                               rows: Store.Rows, payload: string, format: Models.Timestamp -> string)
    requires g.client.Some? && gs.id.Known? && gs.id.value !in rows
    requires l.client.Some? && ls.id.Known? && ls.id.value !in rows
    ensures var o := DeleteSpec(rows, gs.id.value);
            var s := g.Delete(gs, GearReply(o.response));
            s.diags == [] && AfterDelete(Some(gs), s.diags).None?
    ensures var o := DeleteSpec(rows, ls.id.value);
            var s := l.Delete(ls, LabReply(o.response, payload, format));
            s.diags == [] && AfterDelete(Some(ls), s.diags).None?
  {
  }

  /** A lab Read of a record the server does not have removes it without an
      error, through the APIError the client reports for the 404. */
  lemma LabReadOfAbsentRemoves(l: LabResource.MachineResource, ls: LabResource.MachineModel,
                               rows: Store.Rows, payload: string, format: Models.Timestamp -> string)
    requires l.client.Some? && ls.id.Known? && ls.id.value !in rows
    ensures var s := l.Read(ls, LabReply(GetSpec(rows, ls.id.value), payload, format));
            Applied(Some(ls), s.write).None? && s.diags == []
  {
  }

  /** The lab provider sends an unset optional attribute as absent, the
      server stores its zero value, and the record it returns carries that
      value, so the state holds Known("") where the plan had null. The
      response has a body, so the payload is not empty. */
  lemma LabCreateTurnsNullIntoEmpty(l: LabResource.MachineResource, plan: LabResource.MachineModel,
                                    rows: Store.Rows, newId: string, now: Models.Timestamp,
                                    payload: string, format: Models.Timestamp -> string)
    requires l.client.Some? && newId !in rows && plan.cpu.Null? && payload != ""
    requires Acceptable(FromLab(LabResource.MachineFromModel(plan)))
    ensures var o := CreateSpec(rows, Parsed(FromLab(LabResource.MachineFromModel(plan))), newId, now);
            var s := l.Create(plan, LabReply(o.response, payload, format));
            s.write.SetState? && s.write.model.cpu == Known("") && s.write.model.id == Known(newId)
  {
  }

  /** The server refuses to start without a token, so the bare "Bearer "
      header is never accepted by a running server. */
  lemma RunningServerRefusesBareBearer(apiToken: string, dbPath: string, port: string)
    requires ServerConfig.LoadConfig(apiToken, dbPath, port).err.None?
    ensures Auth.Gate(ServerConfig.LoadConfig(apiToken, dbPath, port).token, "Bearer ").Reject?
  {
    var token := ServerConfig.LoadConfig(apiToken, dbPath, port).token;
    Auth.GateIsExactMatch(token, "Bearer ");
    assert |Auth.BearerPrefix + token| > |"Bearer "|;
  }
}
