/** The record store (internal/db): one table of machines keyed by the
    PRIMARY KEY column `id`. The SQL engine is replaced by a map from id to
    row; each method is specified by a pure function of the table. */
module Store {
  import opened Common
  import opened Models

  type Rows = map<string, Machine>

  /** The two failures callers tell apart: sql.ErrNoRows (nothing matched the
      id) and the PRIMARY KEY constraint on insert. */
  datatype StoreError = NotFound | Duplicate

  /** A Go slice, which may be nil: `List` returns nil when no row matched. */
  datatype Slice<T> = Nil | Elems(elems: seq<T>)

  function Elements<T>(s: Slice<T>): seq<T> {
    match s
    case Nil => []
    case Elems(e) => e
  }

  /** Every row is stored under its own id. */
  ghost predicate KeyedById(rows: Rows) {
    forall id :: id in rows ==> rows[id].id == id
  }

  /** The instant that an RFC 3339 timestamp without fractional seconds keeps. */
  function ToSecond(t: Timestamp): (r: Timestamp)
    ensures r <= t < r + NanosPerSecond && r % NanosPerSecond == 0
  {
    t - t % NanosPerSecond
  }

  /** The row that is read back for `m`: timestamps are written as RFC 3339
      text to the second. */
  function Persisted(m: Machine): Machine {
    m.(createdAt := ToSecond(m.createdAt), updatedAt := ToSecond(m.updatedAt))
  }

  predicate WholeSeconds(m: Machine) {
    m.createdAt % NanosPerSecond == 0 && m.updatedAt % NanosPerSecond == 0
  }

  /** INSERT of all thirteen columns; fails on an id that is already present. */
  function Insert(rows: Rows, m: Machine): Result<Rows, StoreError> {
    if m.id in rows then Err(Duplicate) else Ok(rows[m.id := Persisted(m)])
  }

  /** SELECT ... WHERE id = ? */
  function Lookup(rows: Rows, id: string): Result<Machine, StoreError> {
    if id in rows then Ok(rows[id]) else Err(NotFound)
  }

  /** The WHERE clause of List: the empty kind means no filter. */
  predicate Matches(m: Machine, kind: string) {
    kind == "" || m.kind == kind
  }

  /** `out` lists every matching row exactly once, in some order. */
  ghost predicate IsListing(rows: Rows, kind: string, out: seq<Machine>) {
    && (forall i :: 0 <= i < |out| ==> out[i].id in rows && rows[out[i].id] == out[i] && Matches(out[i], kind))
    && (forall i, j :: 0 <= i < j < |out| ==> out[i].id != out[j].id)
    && (forall id :: id in rows && Matches(rows[id], kind) ==> rows[id] in out)
  }

  /** UPDATE ... SET: the ten mutable columns and updated_at; id and
      created_at keep their stored values. */
  function UpdatedRow(row: Machine, m: Machine): Machine {
    row.(name := m.name, kind := m.kind, make := m.make, model := m.model, cpu := m.cpu,
         ramGb := m.ramGb, storageTb := m.storageTb, location := m.location,
         serial := m.serial, notes := m.notes, updatedAt := ToSecond(m.updatedAt))
  }

  /** UPDATE ... WHERE id = ?; no row affected is NotFound. */
  function Overwrite(rows: Rows, m: Machine): Result<Rows, StoreError> {
    if m.id in rows then Ok(rows[m.id := UpdatedRow(rows[m.id], m)]) else Err(NotFound)
  }

  /** DELETE ... WHERE id = ?; no row affected is NotFound. */
  function Erase(rows: Rows, id: string): Result<Rows, StoreError> {
    if id in rows then Ok(rows - {id}) else Err(NotFound)
  }

  /** The table behind *db.DB. */
  class MachineStore {
    var rows: Rows

    ghost predicate Valid()
      reads this
    {
      KeyedById(rows)
    }

    /** A freshly migrated, empty table. */
    constructor ()
      ensures Valid() && rows == map[]
    {
      rows := map[];
    }

    method Create(m: Machine) returns (err: Option<StoreError>)
      requires Valid()
      modifies this
      ensures Valid()
      ensures match Insert(old(rows), m)
              case Ok(r) => err == None && rows == r
              case Err(e) => err == Some(e) && rows == old(rows)
    {
      if m.id in rows {
        err := Some(Duplicate);
      } else {
        rows := rows[m.id := Persisted(m)];
        err := None;
      }
    }

    method GetByID(id: string) returns (r: Result<Machine, StoreError>)
      requires Valid()
      ensures r == Lookup(rows, id)
      ensures r.Ok? ==> r.value.id == id
    {
      if id in rows {
        r := Ok(rows[id]);
      } else {
        r := Err(NotFound);
      }
    }

    /** Reads the matching rows one by one, appending each to a slice that
        starts out nil. */
    method List(kind: string) returns (machines: Slice<Machine>)
      requires Valid()
      ensures machines.Nil? <==> Elements(machines) == []
      ensures IsListing(rows, kind, Elements(machines))
    {
      machines := Nil;
      var out: seq<Machine> := [];
      var pending := rows.Keys;
      while pending != {}
        invariant pending <= rows.Keys
        invariant machines == if out == [] then Nil else Elems(out)
        invariant forall i :: 0 <= i < |out| ==>
          out[i].id in rows && out[i].id !in pending && rows[out[i].id] == out[i] && Matches(out[i], kind)
        invariant forall i, j :: 0 <= i < j < |out| ==> out[i].id != out[j].id
        invariant forall id :: id in rows && id !in pending && Matches(rows[id], kind) ==> rows[id] in out
        decreases pending
      {
        var id :| id in pending;
        pending := pending - {id};
        var m := rows[id];
        if Matches(m, kind) {
          out := out + [m];
          machines := Elems(out);
        }
      }
    }

    method Update(m: Machine) returns (err: Option<StoreError>)
      requires Valid()
      modifies this
      ensures Valid()
      ensures match Overwrite(old(rows), m)
              case Ok(r) => err == None && rows == r
              case Err(e) => err == Some(e) && rows == old(rows)
    {
      if m.id in rows {
        rows := rows[m.id := UpdatedRow(rows[m.id], m)];
        err := None;
      } else {
        err := Some(NotFound);
      }
    }

    method Delete(id: string) returns (err: Option<StoreError>)
      requires Valid()
      modifies this
      ensures Valid()
      ensures match Erase(old(rows), id)
              case Ok(r) => err == None && rows == r
              case Err(e) => err == Some(e) && rows == old(rows)
    {
      if id in rows {
        rows := rows - {id};
        err := None;
      } else {
        err := Some(NotFound);
      }
    }
  }

  // ---------------------------------------------------------------------
  // Properties of the table operations

  /** Create then GetByID returns the created record, with its timestamps
      cut to the second; a record already on whole seconds comes back equal
      in every field. A second Create with the same id is refused. */
  lemma CreateThenGet(rows: Rows, m: Machine)
    requires m.id !in rows
    ensures Insert(rows, m).Ok?
    ensures Lookup(Insert(rows, m).value, m.id) == Ok(Persisted(m))
    ensures WholeSeconds(m) ==> Lookup(Insert(rows, m).value, m.id) == Ok(m)
    ensures Insert(Insert(rows, m).value, m) == Err(Duplicate)
  {
  }

  /** Update replaces the ten mutable fields and updated_at of the row with
      m's id, keeps its id and created_at, and touches no other row; on an
      absent id nothing is inserted. */
  lemma UpdateSemantics(rows: Rows, m: Machine)
    requires KeyedById(rows)
    ensures m.id !in rows ==> Overwrite(rows, m) == Err(NotFound)
    ensures m.id in rows ==>
      var r := Overwrite(rows, m).value;
      && r.Keys == rows.Keys
      && r[m.id].id == m.id && r[m.id].createdAt == rows[m.id].createdAt
      && r[m.id] == Persisted(m).(createdAt := rows[m.id].createdAt)
      && (forall id :: id in rows && id != m.id ==> r[id] == rows[id])
  {
  }

  /** After a Delete, GetByID reports NotFound; other rows are untouched, and
      deleting an absent id is NotFound. */
  lemma DeleteThenGet(rows: Rows, id: string)
    ensures id !in rows ==> Erase(rows, id) == Err(NotFound)
    ensures id in rows ==>
      && Lookup(Erase(rows, id).value, id) == Err(NotFound)
      && (forall other :: other in rows && other != id ==> Lookup(Erase(rows, id).value, other) == Lookup(rows, other))
  {
  }

  function IdsOf(s: seq<Machine>): set<string> {
    if s == [] then {} else {s[0].id} + IdsOf(s[1..])
  }

  lemma {:induction false} IdsOfMember(s: seq<Machine>, id: string)
    ensures id in IdsOf(s) <==> exists i :: 0 <= i < |s| && s[i].id == id
  {
    if s != [] {
      IdsOfMember(s[1..], id);
      if id in IdsOf(s[1..]) {
        var i :| 0 <= i < |s[1..]| && s[1..][i].id == id;
        assert s[i + 1].id == id;
      }
      if exists i :: 0 <= i < |s| && s[i].id == id {
        var i :| 0 <= i < |s| && s[i].id == id;
        if i > 0 { assert s[1..][i - 1].id == id; }
      }
    }
  }

  ghost predicate DistinctIds(s: seq<Machine>) {
    forall i, j :: 0 <= i < j < |s| ==> s[i].id != s[j].id
  }

  lemma {:induction false} DistinctIdsCount(s: seq<Machine>)
    requires DistinctIds(s)
    ensures |IdsOf(s)| == |s|
  {
    if s != [] {
      assert DistinctIds(s[1..]) by {
        forall i, j | 0 <= i < j < |s[1..]| ensures s[1..][i].id != s[1..][j].id {
          assert s[1..][i] == s[i + 1] && s[1..][j] == s[j + 1];
        }
      }
      DistinctIdsCount(s[1..]);
      IdsOfMember(s[1..], s[0].id);
      forall i | 0 <= i < |s[1..]| ensures s[1..][i].id != s[0].id {
        assert s[1..][i] == s[i + 1];
      }
    }
  }

  /** An unfiltered listing has exactly one entry per stored row. */
  lemma ListAllHasEveryRow(rows: Rows, out: seq<Machine>)
    requires KeyedById(rows)
    requires IsListing(rows, "", out)
    ensures |out| == |rows|
  {
    assert IdsOf(out) == rows.Keys by {
      forall id ensures id in IdsOf(out) <==> id in rows {
        IdsOfMember(out, id);
        if id in rows {
          assert rows[id] in out;
          var i :| 0 <= i < |out| && out[i] == rows[id];
          assert out[i].id == id;
        }
      }
    }
    DistinctIdsCount(out);
  }

  lemma {:induction false} DistinctMultiplicity(s: seq<Machine>, x: Machine)
    requires DistinctIds(s)
    ensures multiset(s)[x] == if x in s then 1 else 0
  {
    if s != [] {
      assert s == [s[0]] + s[1..];
      assert DistinctIds(s[1..]) by {
        forall i, j | 0 <= i < j < |s[1..]| ensures s[1..][i].id != s[1..][j].id {
          assert s[1..][i] == s[i + 1] && s[1..][j] == s[j + 1];
        }
      }
      DistinctMultiplicity(s[1..], x);
      forall j | 0 <= j < |s[1..]| ensures s[1..][j].id != s[0].id {
        assert s[1..][j] == s[j + 1];
      }
    }
  }

  /** Two listings of the same table and filter hold the same records: the
      order is the only freedom the store has. */
  lemma ListingsArePermutations(rows: Rows, kind: string, a: seq<Machine>, b: seq<Machine>)
    requires IsListing(rows, kind, a) && IsListing(rows, kind, b)
    ensures multiset(a) == multiset(b)
  {
    forall x ensures multiset(a)[x] == multiset(b)[x] {
      DistinctMultiplicity(a, x);
      DistinctMultiplicity(b, x);
      if x in a {
        var i :| 0 <= i < |a| && a[i] == x;
        assert rows[x.id] == x;
      }
      if x in b {
        var i :| 0 <= i < |b| && b[i] == x;
        assert rows[x.id] == x;
      }
    }
  }

  /** A listing of an empty table, or of a filter nothing matches, is empty. */
  lemma ListingOfNothing(rows: Rows, kind: string, out: seq<Machine>)
    requires IsListing(rows, kind, out)
    ensures (forall id :: id in rows ==> !Matches(rows[id], kind)) ==> out == []
  {
    if out != [] {
      var id := out[0].id;
      assert id in rows && Matches(rows[id], kind);
    }
  }
}
