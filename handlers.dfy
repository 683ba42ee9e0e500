/** The inventory API (internal/handlers): each handler turns a decoded
    request into calls on the store and one response. The body decoder, the
    UUID generator and the clock are inputs: `body` is what the size-bounded
    JSON decoder produced, `newId` the minted UUID and `now` the current
    time. Each handler method is specified by a pure function of the table,
    and the properties are proved about those functions. */
module Handlers {
  import opened Common
  import opened Models
  import opened Http
  import opened Store

  /** The outcome of decoding a request body read through MaxBytesReader,
      whose bound is 64 KiB (65536 bytes); the byte count is not modelled,
      only whether the bound was passed. */
  datatype Decoded =
    | Parsed(req: Machine)   // a JSON object decoded into a zero-valued Machine
    | InvalidJson            // any other decoding error, including an empty body
    | TooLarge               // the decoder read past the 64 KiB bound

  /** The state a handler leaves and the response it writes. */
  datatype Outcome = Outcome(response: Response, rows: Rows)

  /** A record every entry point may store: the four required fields are
      non-empty and the kind is one of the valid kinds. */
  predicate Acceptable(m: Machine) {
    m.name != "" && m.kind != "" && m.make != "" && m.model != "" && IsValidKind(m.kind)
  }

  /** The checks shared by create and update, in the order the code makes
      them; None when the request may be stored. */
  function Validate(req: Machine): (err: Option<string>)
    ensures err.None? <==> Acceptable(req)
    ensures err.Some? ==> err.value != ""
  {
    if req.name == "" || req.kind == "" || req.make == "" || req.model == "" then
      Some("name, kind, make, and model are required")
    else if !IsValidKind(req.kind) then
      Some("invalid kind")
    else
      None
  }

  /** The response to a body that did not decode; None when it did. */
  function DecodeFailure(body: Decoded): Option<Response> {
    match body
    case TooLarge => Some(WriteError(StatusContentTooLarge, "request body too large"))
    case InvalidJson => Some(WriteError(StatusBadRequest, "invalid JSON"))
    case Parsed(_) => None
  }

  /** The record create stores: the body with a server-minted id and both
      timestamps set to now. */
  function StampCreate(req: Machine, newId: string, now: Timestamp): Machine {
    req.(id := newId, createdAt := now, updatedAt := now)
  }

  /** The record update writes: the body with the id of the path, the
      created_at of the existing record and updated_at set to now. */
  function StampUpdate(req: Machine, id: string, existing: Machine, now: Timestamp): Machine {
    req.(id := id, createdAt := existing.createdAt, updatedAt := now)
  }

  /** POST /api/v1/machines */
  function CreateSpec(rows: Rows, body: Decoded, newId: string, now: Timestamp): Outcome {
    if DecodeFailure(body).Some? then Outcome(DecodeFailure(body).value, rows)
    else if Validate(body.req).Some? then Outcome(WriteError(StatusBadRequest, Validate(body.req).value), rows)
    else
      var m := StampCreate(body.req, newId, now);
      match Insert(rows, m)
      case Err(_) => Outcome(WriteError(StatusInternalServerError, "failed to create machine"), rows)
      case Ok(r) => Outcome(WriteJson(StatusCreated, Record(m)), r)
  }

  /** What encoding/json writes for a slice of machines. */
  function EncodeSlice(s: Slice<Machine>): Body {
    match s
    case Nil => JsonNull
    case Elems(e) => Records(e)
  }

  /** GET /api/v1/machines?kind=: a 400 for a non-empty kind that is not
      valid, otherwise 200 with a listing of the matching rows. */
  ghost predicate IsListResponse(rows: Rows, kind: string, resp: Response) {
    if kind != "" && !IsValidKind(kind) then
      resp == WriteError(StatusBadRequest, "invalid kind")
    else
      && resp.status == StatusOK
      && resp.contentType == Some(ApplicationJson)
      && resp.body.Records?
      && IsListing(rows, kind, resp.body.machines)
  }

  /** GET /api/v1/machines/{id} */
  function GetSpec(rows: Rows, id: string): Response {
    match Lookup(rows, id)
    case Err(_) => WriteError(StatusNotFound, "machine not found")
    case Ok(m) => WriteJson(StatusOK, Record(m))
  }

  /** PUT /api/v1/machines/{id}: the existence check comes before the body
      is decoded. */
  function UpdateSpec(rows: Rows, id: string, body: Decoded, now: Timestamp): Outcome {
    match Lookup(rows, id)
    case Err(_) => Outcome(WriteError(StatusNotFound, "machine not found"), rows)
    case Ok(existing) =>
      if DecodeFailure(body).Some? then Outcome(DecodeFailure(body).value, rows)
      else if Validate(body.req).Some? then Outcome(WriteError(StatusBadRequest, Validate(body.req).value), rows)
      else
        var m := StampUpdate(body.req, id, existing, now);
        match Overwrite(rows, m)
        case Err(_) => Outcome(WriteError(StatusInternalServerError, "failed to update machine"), rows)
        case Ok(r) => Outcome(WriteJson(StatusOK, Record(m)), r)
  }

  /** DELETE /api/v1/machines/{id}: 204 carries no body and no Content-Type. */
  function DeleteSpec(rows: Rows, id: string): Outcome {
    match Erase(rows, id)
    case Err(_) => Outcome(WriteError(StatusNotFound, "machine not found"), rows)
    case Ok(r) => Outcome(Response(StatusNoContent, None, NoBody), r)
  }

  /** handlers.Handler: the shared store. */
  class Handler {
    const db: MachineStore

    constructor (db: MachineStore)
      ensures this.db == db
    {
      this.db := db;
    }

    method CreateMachine(body: Decoded, newId: string, now: Timestamp) returns (resp: Response)
      requires db.Valid()
      modifies db
      ensures db.Valid()
      ensures Outcome(resp, db.rows) == CreateSpec(old(db.rows), body, newId, now)
    {
      match body {
        case TooLarge =>
          resp := WriteError(StatusContentTooLarge, "request body too large");
          return;
        case InvalidJson =>
          resp := WriteError(StatusBadRequest, "invalid JSON");
          return;
        case Parsed(req) =>
          if req.name == "" || req.kind == "" || req.make == "" || req.model == "" {
            resp := WriteError(StatusBadRequest, "name, kind, make, and model are required");
            return;
          }
          if !IsValidKind(req.kind) {
            resp := WriteError(StatusBadRequest, "invalid kind");
            return;
          }
          var m := req.(id := newId, createdAt := now, updatedAt := now);
          var err := db.Create(m);
          if err.Some? {
            resp := WriteError(StatusInternalServerError, "failed to create machine");
            return;
          }
          resp := WriteJson(StatusCreated, Record(m));
      }
    }

    method ListMachines(kind: string) returns (resp: Response)
      requires db.Valid()
      ensures IsListResponse(db.rows, kind, resp)
      ensures resp.body != JsonNull
    {
      if kind != "" && !IsValidKind(kind) {
        resp := WriteError(StatusBadRequest, "invalid kind");
        return;
      }
      var machines := db.List(kind);
      if machines == Nil {
        machines := Elems([]);
      }
      resp := WriteJson(StatusOK, EncodeSlice(machines));
    }

    method GetMachine(id: string) returns (resp: Response)
      requires db.Valid()
      ensures resp == GetSpec(db.rows, id)
    {
      var r := db.GetByID(id);
      match r {
        case Err(_) =>
          resp := WriteError(StatusNotFound, "machine not found");
        case Ok(m) =>
          resp := WriteJson(StatusOK, Record(m));
      }
    }

    method UpdateMachine(id: string, body: Decoded, now: Timestamp) returns (resp: Response)
      requires db.Valid()
      modifies db
      ensures db.Valid()
      ensures Outcome(resp, db.rows) == UpdateSpec(old(db.rows), id, body, now)
    {
      var found := db.GetByID(id);
      if found.Err? {
        resp := WriteError(StatusNotFound, "machine not found");
        return;
      }
      var existing := found.value;
      match body {
        case TooLarge =>
          resp := WriteError(StatusContentTooLarge, "request body too large");
          return;
        case InvalidJson =>
          resp := WriteError(StatusBadRequest, "invalid JSON");
          return;
        case Parsed(req) =>
          if req.name == "" || req.kind == "" || req.make == "" || req.model == "" {
            resp := WriteError(StatusBadRequest, "name, kind, make, and model are required");
            return;
          }
          if !IsValidKind(req.kind) {
            resp := WriteError(StatusBadRequest, "invalid kind");
            return;
          }
          var m := req.(id := id, createdAt := existing.createdAt, updatedAt := now);
          var err := db.Update(m);
          if err.Some? {
            resp := WriteError(StatusInternalServerError, "failed to update machine");
            return;
          }
          resp := WriteJson(StatusOK, Record(m));
      }
    }

    method DeleteMachine(id: string) returns (resp: Response)
      requires db.Valid()
      modifies db
      ensures db.Valid()
      ensures Outcome(resp, db.rows) == DeleteSpec(old(db.rows), id)
    {
      var err := db.Delete(id);
      if err.Some? {
        resp := WriteError(StatusNotFound, "machine not found");
        return;
      }
      resp := Response(StatusNoContent, None, NoBody);
    }
  }

  // ---------------------------------------------------------------------
  // Properties of the handlers

  /** Every stored record is acceptable: the invariant that create and
      update keep by validating before they write. */
  ghost predicate AllAcceptable(rows: Rows) {
    forall id :: id in rows ==> Acceptable(rows[id])
  }

  /** Create stores a record exactly when the body decoded, passed
      validation and the minted id is new; every other path leaves the table
      as it was. Validation failures are 400 with an error message, an
      oversized body 413, any other undecodable body 400. */
  lemma CreateOutcomes(rows: Rows, body: Decoded, newId: string, now: Timestamp)
    ensures var o := CreateSpec(rows, body, newId, now);
      && (o.response.status == StatusCreated <==> body.Parsed? && Acceptable(body.req) && newId !in rows)
      && (o.response.status != StatusCreated ==> o.rows == rows && o.response.body.ErrorBody? && o.response.body.error != "")
      && (body == TooLarge ==> o.response.status == StatusContentTooLarge)
      && (body == InvalidJson ==> o.response.status == StatusBadRequest)
      && (body.Parsed? && !Acceptable(body.req) ==> o.response.status == StatusBadRequest)
  {
  }

  /** A successful create answers 201 with the stored record: the minted id,
      created_at equal to updated_at equal to now, and every other field as
      sent. A later get returns it with timestamps cut to the second. */
  lemma CreateSuccess(rows: Rows, req: Machine, newId: string, now: Timestamp)
    requires Acceptable(req) && newId !in rows && newId != ""
    ensures var o := CreateSpec(rows, Parsed(req), newId, now);
      && o.response.status == StatusCreated
      && o.response.body.Record?
      && var m := o.response.body.machine;
      && m.id == newId && m.id != ""
      && m.createdAt == m.updatedAt == now
      && m == req.(id := newId, createdAt := now, updatedAt := now)
      && o.rows == rows[newId := Persisted(m)]
      && GetSpec(o.rows, newId) == WriteJson(StatusOK, Record(Persisted(m)))
  {
  }

  /** On an existing record, update fails on the body exactly as create
      does: 413 for an oversized body, 400 for undecodable JSON or a refused
      record, each with an error message and the table unchanged; otherwise
      it answers 200. */
  lemma UpdateOutcomes(rows: Rows, id: string, body: Decoded, now: Timestamp)
    requires id in rows
    ensures var o := UpdateSpec(rows, id, body, now);
      && (o.response.status == StatusOK <==> body.Parsed? && Acceptable(body.req))
      && (o.response.status != StatusOK ==> o.rows == rows && o.response.body.ErrorBody? && o.response.body.error != "")
      && (body == TooLarge ==> o.response.status == StatusContentTooLarge)
      && (body == InvalidJson ==> o.response.status == StatusBadRequest)
      && (body.Parsed? && !Acceptable(body.req) ==> o.response.status == StatusBadRequest)
  {
  }

  /** A kind outside the valid set is a 400, never a 500 nor an empty list,
      on create, on update of an existing record, and as a list filter. */
  lemma InvalidKindIsBadRequest(rows: Rows, req: Machine, id: string, newId: string, now: Timestamp, listed: Response)
    requires !IsValidKind(req.kind)
    requires id in rows
    requires req.kind != "" ==> IsListResponse(rows, req.kind, listed)
    ensures CreateSpec(rows, Parsed(req), newId, now).response.status == StatusBadRequest
    ensures UpdateSpec(rows, id, Parsed(req), now).response.status == StatusBadRequest
    ensures req.kind != "" ==> listed.status == StatusBadRequest
  {
  }

  /** The list never answers null: an empty table yields 200 with an empty
      array. */
  lemma EmptyListIsEmptyArray(rows: Rows, kind: string, resp: Response)
    requires IsListResponse(rows, kind, resp)
    ensures resp.body != JsonNull
    ensures rows == map[] && (kind == "" || IsValidKind(kind)) ==> resp == WriteJson(StatusOK, Records([]))
  {
    if kind == "" || IsValidKind(kind) {
      ListingOfNothing(rows, kind, resp.body.machines);
    }
  }

  /** Get and delete of an absent id are 404 with an error message, and
      change nothing. */
  lemma AbsentIsNotFound(rows: Rows, id: string)
    requires id !in rows
    ensures GetSpec(rows, id) == WriteError(StatusNotFound, "machine not found")
    ensures DeleteSpec(rows, id) == Outcome(WriteError(StatusNotFound, "machine not found"), rows)
  {
  }

  /** Update checks that the record exists before it looks at the body: an
      absent id is a 404 whatever the body is. */
  lemma UpdateAbsentIsNotFound(rows: Rows, id: string, body: Decoded, now: Timestamp)
    requires id !in rows
    ensures UpdateSpec(rows, id, body, now) == Outcome(WriteError(StatusNotFound, "machine not found"), rows)
  {
  }

  /** A successful update takes the id from the path and created_at from the
      existing record, whatever the body says, sets updated_at to now, and
      leaves every other record as it was. Update of an existing record
      cannot reach the 500 path. */
  lemma UpdateKeepsIdentity(rows: Rows, id: string, req: Machine, now: Timestamp)
    requires KeyedById(rows)
    requires id in rows && Acceptable(req)
    ensures var o := UpdateSpec(rows, id, Parsed(req), now);
      && o.response == WriteJson(StatusOK, Record(req.(id := id, createdAt := rows[id].createdAt, updatedAt := now)))
      && o.rows.Keys == rows.Keys
      && o.rows[id].id == id
      && o.rows[id].createdAt == rows[id].createdAt
      && o.rows[id].updatedAt == ToSecond(now)
      && o.rows[id] == Persisted(req.(updatedAt := now)).(id := id, createdAt := rows[id].createdAt)
      && (forall other :: other in rows && other != id ==> o.rows[other] == rows[other])
  {
  }

  /** A successful delete is 204 with no body, and a later get is 404. */
  lemma DeleteThenGetIsNotFound(rows: Rows, id: string)
    requires id in rows
    ensures var o := DeleteSpec(rows, id);
      && o.response == Response(StatusNoContent, None, NoBody)
      && GetSpec(o.rows, id) == WriteError(StatusNotFound, "machine not found")
  {
  }

  /** No handler ever stores a record that validation would refuse, and the
      table stays keyed by id. */
  lemma HandlersKeepInvariant(rows: Rows, body: Decoded, id: string, newId: string, now: Timestamp)
    requires AllAcceptable(rows) && KeyedById(rows)
    ensures var o := CreateSpec(rows, body, newId, now); AllAcceptable(o.rows) && KeyedById(o.rows)
    ensures var o := UpdateSpec(rows, id, body, now); AllAcceptable(o.rows) && KeyedById(o.rows)
    ensures var o := DeleteSpec(rows, id); AllAcceptable(o.rows) && KeyedById(o.rows)
  {
    CreateKeepsInvariant(rows, body, newId, now);
    UpdateKeepsInvariant(rows, body, id, now);
  }

  lemma CreateKeepsInvariant(rows: Rows, body: Decoded, newId: string, now: Timestamp)
    requires AllAcceptable(rows) && KeyedById(rows)
    ensures var o := CreateSpec(rows, body, newId, now); AllAcceptable(o.rows) && KeyedById(o.rows)
  {
  }

  lemma UpdateKeepsInvariant(rows: Rows, body: Decoded, id: string, now: Timestamp)
    requires AllAcceptable(rows) && KeyedById(rows)
    ensures var o := UpdateSpec(rows, id, body, now); AllAcceptable(o.rows) && KeyedById(o.rows)
  {
  }

  /** The walk-through of the inventory API: create pve2, read it back,
      rename it to a nas, delete it, and read it again. */
  lemma Walkthrough(rows: Rows, newId: string, t0: Timestamp, t1: Timestamp)
    requires KeyedById(rows) && newId !in rows && newId != ""
    requires t0 % NanosPerSecond == 0
    ensures
      var req := ZeroMachine.(name := "pve2", kind := "proxmox", make := "Dell", model := "OptiPlex7050");
      var c := CreateSpec(rows, Parsed(req), newId, t0);
      var created := c.response.body.machine;
      var g := GetSpec(c.rows, newId);
      var u := UpdateSpec(c.rows, newId, Parsed(req.(kind := "nas", name := "renamed")), t1);
      var d := DeleteSpec(u.rows, newId);
      && c.response.status == StatusCreated && created.id == newId
      && g == WriteJson(StatusOK, Record(created))
      && u.response.status == StatusOK
      && u.response.body.machine.id == newId
      && u.response.body.machine.createdAt == created.createdAt
      && u.response.body.machine.kind == "nas"
      && d.response.status == StatusNoContent
      && GetSpec(d.rows, newId).status == StatusNotFound
      && GetSpec(d.rows, newId).body == ErrorBody("machine not found")
  {
    var req := ZeroMachine.(name := "pve2", kind := "proxmox", make := "Dell", model := "OptiPlex7050");
    assert Acceptable(req);
    assert Acceptable(req.(kind := "nas", name := "renamed"));
  }
}
