/** The manifest: one row per registered file, and the statements that change the rows. */
module Catalog {
  import opened Base

  datatype Path = Local(service: string, bucket: string, uuid: nat)
                | Object(service: string, bucket: string, uuid: nat)

  /** Where tiering puts the file that lives at the local path p. */
  function ColdUri(p: Path): Path {
    Object(p.service, p.bucket, p.uuid)
  }

  datatype Meta = Meta(
    path: Path, service: string, bucket: string,
    minTs: i64, maxTs: i64, sizeBytes: int, count: int, minOffset: i64, maxOffset: i64)

  /** What files are grouped under: a service and the label of an hour. */
  datatype Bucket = Bucket(service: string, hour: string)

  datatype Tier = Hot | Cold
  datatype RowState = Active | Superseded

  datatype Row = Row(meta: Meta, tier: Tier, state: RowState, supersededAt: int)

  datatype Table = Table(rows: map<int, Row>, nextId: int)

  const EMPTY_TABLE := Table(map[], 1)

  // ----- Statements, as functions on the table; None is a UNIQUE violation -----

  ghost predicate PathTaken(rows: map<int, Row>, path: Path) {
    exists id :: id in rows && rows[id].meta.path == path
  }

  function NewRow(m: Meta): Row {
    Row(m, Hot, Active, 0)
  }

  ghost function Insert(t: Table, m: Meta): Option<Table> {
    if PathTaken(t.rows, m.path) then None
    else Some(Table(t.rows[t.nextId := NewRow(m)], t.nextId + 1))
  }

  ghost function InsertAll(t: Table, ms: seq<Meta>): Option<Table> {
    if ms == [] then Some(t)
    else
      match InsertAll(t, ms[..|ms| - 1])
      case None => None
      case Some(u) => Insert(u, ms[|ms| - 1])
  }

  function MarkSuperseded(rows: map<int, Row>, ids: set<int>, now: int): map<int, Row> {
    map id | id in rows ::
      if id in ids then rows[id].(state := Superseded, supersededAt := now) else rows[id]
  }

  ghost function Swap(t: Table, ids: set<int>, ms: seq<Meta>, now: int): Option<Table> {
    match InsertAll(t, ms)
    case None => None
    case Some(u) => Some(u.(rows := MarkSuperseded(u.rows, ids, now)))
  }

  ghost function SetCold(t: Table, id: int, uri: Path): Option<Table> {
    if id !in t.rows then Some(t)
    else if exists other :: other in t.rows && other != id && t.rows[other].meta.path == uri then None
    else Some(t.(rows := t.rows[id := t.rows[id].(tier := Cold, meta := t.rows[id].meta.(path := uri))]))
  }

  function Delete(t: Table, id: int): Table {
    t.(rows := t.rows - {id})
  }

  function IdSet(ids: seq<int>): set<int> {
    set id | id in ids
  }

  // ----- Listings -----

  predicate IsActiveHot(r: Row) {
    r.state == Active && r.tier == Hot
  }

  predicate InBucket(r: Row, service: string, bucket: string) {
    IsActiveHot(r) && r.meta.service == service && r.meta.bucket == bucket
  }

  predicate Filed(m: Meta, b: Bucket) {
    m.service == b.service && m.bucket == b.hour
  }

  predicate ToTier(r: Row, tierCutoff: int) {
    IsActiveHot(r) && r.meta.maxTs < tierCutoff
  }

  predicate IsExpired(r: Row, hotCutoff: int, coldCutoff: int) {
    r.state == Active && r.meta.maxTs < (if r.tier == Hot then hotCutoff else coldCutoff)
  }

  predicate PastGrace(r: Row, graceCutoff: int) {
    r.state == Superseded && 0 < r.supersededAt < graceCutoff
  }

  // ----- Facts about the statements -----

  /** Row ids come from AUTOINCREMENT: every id in the table was handed out earlier. */
  ghost predicate ValidTable(t: Table) {
    && 0 < t.nextId
    && (forall id :: id in t.rows ==> 0 < id < t.nextId)
    && (forall i, j :: i in t.rows && j in t.rows && i != j ==> t.rows[i].meta.path != t.rows[j].meta.path)
  }

  ghost predicate NewPaths(t: Table, ms: seq<Meta>) {
    && (forall i :: 0 <= i < |ms| ==> !PathTaken(t.rows, ms[i].path))
    && (forall i, j :: 0 <= i < j < |ms| ==> ms[i].path != ms[j].path)
  }

  /** u is t with one new active row per file, under consecutive fresh ids. */
  ghost predicate Appends(t: Table, ms: seq<Meta>, u: Table) {
    && u.nextId == t.nextId + |ms|
    && (forall id :: id in u.rows <==> id in t.rows || t.nextId <= id < u.nextId)
    && (forall id :: id in t.rows && id < t.nextId ==> u.rows[id] == t.rows[id])
    && (forall id :: t.nextId <= id < u.nextId ==> u.rows[id] == NewRow(ms[id - t.nextId]))
  }

  lemma PathTakenAfter(t: Table, ms: seq<Meta>, u: Table, path: Path)
    requires ValidTable(t) && Appends(t, ms, u)
    ensures PathTaken(u.rows, path) <==> PathTaken(t.rows, path) || exists i :: 0 <= i < |ms| && ms[i].path == path
  {
    if i :| 0 <= i < |ms| && ms[i].path == path {
      assert u.rows[t.nextId + i] == NewRow(ms[i]);
    }
    if id :| id in t.rows && t.rows[id].meta.path == path {
      assert u.rows[id] == t.rows[id];
    }
    if id :| id in u.rows && u.rows[id].meta.path == path && t.nextId <= id {
      assert u.rows[id] == NewRow(ms[id - t.nextId]);
    }
  }

  lemma NewPathsSnoc(t: Table, init: seq<Meta>, m: Meta)
    ensures NewPaths(t, init + [m]) <==>
              && NewPaths(t, init) && !PathTaken(t.rows, m.path)
              && !(exists i :: 0 <= i < |init| && init[i].path == m.path)
  {
    var ms := init + [m];
    assert ms[|init|] == m;
    if NewPaths(t, ms) {
      assert forall i :: 0 <= i < |init| ==> init[i] == ms[i];
    }
  }

  lemma InsertOneMore(t: Table, init: seq<Meta>, u: Table, m: Meta)
    requires ValidTable(t) && ValidTable(u) && Appends(t, init, u) && !PathTaken(u.rows, m.path)
    ensures ValidTable(Insert(u, m).value) && Appends(t, init + [m], Insert(u, m).value)
  {
    var v := Insert(u, m).value;
    forall i, j | i in v.rows && j in v.rows && i != j
      ensures v.rows[i].meta.path != v.rows[j].meta.path
    {
      assert i in u.rows || j in u.rows;
    }
  }

  /** A batch insert succeeds exactly when its paths are new and distinct. */
  lemma {:induction false} InsertAllAdds(t: Table, ms: seq<Meta>)
    requires ValidTable(t)
    ensures InsertAll(t, ms).Some? <==> NewPaths(t, ms)
    ensures InsertAll(t, ms).Some? ==>
              ValidTable(InsertAll(t, ms).value) && Appends(t, ms, InsertAll(t, ms).value)
  {
    if ms != [] {
      var init, m := ms[..|ms| - 1], ms[|ms| - 1];
      assert ms == init + [m];
      InsertAllAdds(t, init);
      NewPathsSnoc(t, init, m);
      if InsertAll(t, init).Some? {
        var u := InsertAll(t, init).value;
        PathTakenAfter(t, init, u, m.path);
        if !PathTaken(u.rows, m.path) {
          InsertOneMore(t, init, u, m);
        }
      }
    }
  }

  /** u is t with an active row for every new file, the rows in ids superseded, every other
      row untouched, and no row removed. */
  ghost predicate SwapResult(t: Table, ids: set<int>, ms: seq<Meta>, now: int, u: Table) {
    && u.nextId == t.nextId + |ms|
    && (forall id :: id in u.rows <==> id in t.rows || t.nextId <= id < u.nextId)
    && (forall id :: id in t.rows && id !in ids ==> u.rows[id] == t.rows[id])
    && (forall id :: id in t.rows && id in ids ==>
          u.rows[id] == t.rows[id].(state := Superseded, supersededAt := now))
    && (forall id :: t.nextId <= id < u.nextId ==> u.rows[id] == NewRow(ms[id - t.nextId]))
  }

  /** The swap is all or nothing: it goes through exactly when the new paths are free. */
  lemma SwapExact(t: Table, ids: set<int>, ms: seq<Meta>, now: int)
    requires ValidTable(t)
    requires forall id :: id in ids ==> id < t.nextId
    ensures Swap(t, ids, ms, now).Some? <==> NewPaths(t, ms)
    ensures Swap(t, ids, ms, now).Some? ==>
              && ValidTable(Swap(t, ids, ms, now).value)
              && SwapResult(t, ids, ms, now, Swap(t, ids, ms, now).value)
  {
    InsertAllAdds(t, ms);
  }

  /** The manifest object. Each method runs one statement or transaction. */
  class Manifest {
    var rows: map<int, Row>
    var nextId: int

    ghost function Contents(): Table
      reads this
    {
      Table(rows, nextId)
    }

    constructor ()
      ensures Contents() == EMPTY_TABLE
    {
      rows, nextId := map[], 1;
    }

    method CommitFlush(m: Meta) returns (id: Option<int>)
      modifies this
      ensures id.Some? <==> Insert(old(Contents()), m).Some?
      ensures id.Some? ==> Insert(old(Contents()), m) == Some(Contents()) && id.value == old(nextId)
      ensures id.None? ==> Contents() == old(Contents())
      ensures id.None? <==> exists other :: other in old(rows) && old(rows)[other].meta.path == m.path
      ensures id.Some? ==> rows == old(rows)[old(nextId) := Row(m, Hot, Active, 0)] && nextId == old(nextId) + 1
    {
      if exists other :: other in rows && rows[other].meta.path == m.path {
        return None;
      }
      rows := rows[nextId := NewRow(m)];
      id, nextId := Some(nextId), nextId + 1;
    }

    method PromoteToCold(id: int, uri: Path) returns (ok: bool)
      modifies this
      ensures ok <==> SetCold(old(Contents()), id, uri).Some?
      ensures ok ==> SetCold(old(Contents()), id, uri) == Some(Contents())
      ensures !ok ==> Contents() == old(Contents())
      ensures !ok <==> id in old(rows) && exists other :: other in old(rows) && other != id
                                                          && old(rows)[other].meta.path == uri
      ensures ok && id !in old(rows) ==> rows == old(rows)
      ensures ok && id in old(rows) ==>
                var r := old(rows)[id];
                rows == old(rows)[id := Row(r.meta.(path := uri), Cold, r.state, r.supersededAt)]
    {
      if id !in rows {
        return true;
      }
      if exists other :: other in rows && other != id && rows[other].meta.path == uri {
        return false;
      }
      rows := rows[id := rows[id].(tier := Cold, meta := rows[id].meta.(path := uri))];
      ok := true;
    }

    /** One transaction: working copies are stored only when every statement succeeded. */
    method SwapCompacted(oldIds: seq<int>, newFiles: seq<Meta>, now: int) returns (ok: bool)
      modifies this
      ensures var swapped := Swap(old(Contents()), IdSet(oldIds), newFiles, now);
              && (ok <==> swapped.Some?)
              && (ok ==> swapped == Some(Contents()))
              && (!ok ==> Contents() == old(Contents()))
    {
      var tx, next := rows, nextId;
      for i := 0 to |newFiles|
        invariant InsertAll(Contents(), newFiles[..i]) == Some(Table(tx, next))
      {
        assert newFiles[..i + 1][..i] == newFiles[..i];
        if exists other :: other in tx && tx[other].meta.path == newFiles[i].path {
          InsertAllFailsEarly(Contents(), newFiles, i + 1);
          return false;
        }
        tx, next := tx[next := NewRow(newFiles[i])], next + 1;
      }
      assert newFiles[..|newFiles|] == newFiles;
      ghost var inserted := tx;
      for i := 0 to |oldIds|
        invariant tx == MarkSuperseded(inserted, IdSet(oldIds[..i]), now)
      {
        if oldIds[i] in tx {
          tx := tx[oldIds[i] := tx[oldIds[i]].(state := Superseded, supersededAt := now)];
        }
      }
      assert oldIds[..|oldIds|] == oldIds;
      rows, nextId, ok := tx, next, true;
    }

    method DeleteFile(id: int)
      modifies this
      ensures Contents() == Delete(old(Contents()), id)
      ensures rows == old(rows) - {id} && nextId == old(nextId)
    {
      rows := rows - {id};
    }
  }

  lemma {:induction false} InsertAllFailsEarly(t: Table, ms: seq<Meta>, n: nat)
    requires n <= |ms| && InsertAll(t, ms[..n]).None?
    ensures InsertAll(t, ms).None?
    decreases |ms| - n
  {
    if n < |ms| {
      assert ms[..n + 1][..n] == ms[..n];
      InsertAllFailsEarly(t, ms, n + 1);
    } else {
      assert ms[..n] == ms;
    }
  }
}
