/** What the storage protocol guarantees after every schedule of its steps. */
module LifecycleTheorems {
  import opened Base
  import opened Dedup
  import opened Catalog
  import opened Compaction
  import opened Query
  import opened Lifecycle
  import opened LifecycleSafety

  /** e was registered in some file, at some time. */
  ghost predicate Flushed(st: Store, e: Event) {
    exists id :: id in st.origin && e in st.origin[id].rows
  }

  /** e is in a file that is active now. */
  ghost predicate Held(st: Store, e: Event) {
    exists id :: id in st.origin && Live(st, id) && e in st.origin[id].rows
  }

  ghost predicate HeldNoLater(st: Store, e: Event) {
    exists f :: Held(st, f) && f.key == e.key && f.timestamp <= e.timestamp
  }

  /** File id holds a copy of the key. */
  ghost predicate HasKey(st: Store, id: int, key: Key) {
    id in st.origin && exists f :: f in st.origin[id].rows && f.key == key
  }

  /** No file with a copy of e's key was ever listed as expired. */
  ghost predicate Retained(st: Store, e: Event) {
    Flushed(st, e) && forall id :: Old(st, id) ==> !HasKey(st, id, e.key)
  }

  /** No file was listed as expired under a cutoff later than ts. */
  ghost predicate Recent(st: Store, ts: int) {
    forall id :: id in st.expired ==> ts >= st.expired[id]
  }

  ghost predicate NoLoss(st: Store) {
    forall e :: Retained(st, e) ==> HeldNoLater(st, e)
  }

  ghost predicate ReplayConsistent(st: Store) {
    forall e, f :: Flushed(st, e) && Flushed(st, f) && e.key == f.key ==> e == f
  }

  // ----- No event is lost early -----

  lemma WasRetained(st: Store, st': Store, e: Event)
    requires Evolves(st, st') && Flushed(st, e) && Retained(st', e)
    ensures Retained(st, e)
  {
    forall id | Old(st, id) ensures !HasKey(st, id, e.key) {
      assert Old(st', id) && !HasKey(st', id, e.key);
    }
  }

  /** A key none of whose copies is older than a cutoff in use is retained. */
  lemma RecentIsRetained(st: Store, e: Event)
    requires OriginOk(st) && Flushed(st, e)
    requires forall f :: Flushed(st, f) && f.key == e.key ==> Recent(st, f.timestamp)
    ensures Retained(st, e)
  {
    hide MetaSound;
    forall id | Old(st, id) ensures !HasKey(st, id, e.key) {
      forall f | f in st.origin[id].rows ensures f.key != e.key {
        WithinRange(st, id, f);
        assert Flushed(st, f);
      }
    }
  }

  /** Statements that neither register nor delete rows cannot lose anything. */
  lemma SameRowsNoLoss(st: Store, st': Store)
    requires NoLoss(st) && Evolves(st, st') && st'.origin == st.origin
    requires forall id :: id in st.origin && Live(st, id) ==> Live(st', id)
    ensures NoLoss(st')
  {
    forall e | Retained(st', e) ensures HeldNoLater(st', e) {
      WasRetained(st, st', e);
      var f :| Held(st, f) && f.key == e.key && f.timestamp <= e.timestamp;
      assert Held(st', f);
    }
  }

  lemma DeleteNoLoss(st: Store, id: int)
    requires StoreOk(st) && NoLoss(st) && id in st.origin && (Old(st, id) || !Live(st, id))
    ensures NoLoss(DeleteRow(st, id))
  {
    var st' := DeleteRow(st, id);
    DeleteRowKeepsStore(st, id);
    forall e | Retained(st', e) ensures HeldNoLater(st', e) {
      assert Flushed(st, e);
      WasRetained(st, st', e);
      var f :| Held(st, f) && f.key == e.key && f.timestamp <= e.timestamp;
      StillHeld(st, id, e, f);
    }
  }

  lemma StillHeld(st: Store, id: int, e: Event, f: Event)
    requires OriginOk(st) && id in st.origin && (Old(st, id) || !Live(st, id))
    requires Retained(st, e) && Held(st, f) && f.key == e.key
    ensures Held(DeleteRow(st, id), f)
  {
    var i :| i in st.origin && Live(st, i) && f in st.origin[i].rows;
    assert HasKey(st, i, e.key);
    DeleteKeepsOthers(st, id, i);
  }

  lemma DeleteKeepsOthers(st: Store, id: int, i: int)
    requires i != id
    ensures Live(DeleteRow(st, id), i) <==> Live(st, i)
  {
  }

  lemma WithinRange(st: Store, id: int, e: Event)
    requires OriginOk(st) && id in st.origin && e in st.origin[id].rows
    ensures st.origin[id].meta.minTs <= e.timestamp <= st.origin[id].meta.maxTs
  {
    assert FileNamed(st, st.origin[id].meta, st.origin[id].rows);
    assert st.origin[id].meta.minTs <= Cell(e, Timestamp) <= st.origin[id].meta.maxTs;
  }

  /** Superseding rows loses nothing when the new files hold, for every row superseded, one of
      its key that is no later. */
  lemma SwapNoLoss(st: Store, ids: set<int>, metas: seq<Meta>, chunks: seq<File>, st': Store)
    requires StoreOk(st) && NoLoss(st) && Registrable(st, ids, metas, chunks)
    requires Swapped(st, ids, metas, chunks, st')
    requires forall id, e :: id in ids && e in st.origin[id].rows ==> HasNoLater(Flatten(chunks), e)
    ensures NoLoss(st')
  {
    SwapKeepsStore(st, ids, metas, chunks, st');
    hide Registrable, Swapped, Held, Evolves, HasNoLater;
    forall e | Retained(st', e) ensures HeldNoLater(st', e) {
      if Flushed(st, e) {
        WasRetained(st, st', e);
        var f :| Held(st, f) && f.key == e.key && f.timestamp <= e.timestamp;
        SwapHolds(st, ids, metas, chunks, st', f);
        var g :| Held(st', g) && g.key == f.key && g.timestamp <= f.timestamp;
      } else {
        NewIsHeld(st, ids, metas, chunks, st', e);
      }
    }
  }

  lemma NewIsHeld(st: Store, ids: set<int>, metas: seq<Meta>, chunks: seq<File>, st': Store, e: Event)
    requires |metas| == |chunks| && Swapped(st, ids, metas, chunks, st')
    requires Flushed(st', e) && !Flushed(st, e)
    ensures Held(st', e)
  {
    var id :| id in st'.origin && e in st'.origin[id].rows;
    assert id !in st.origin;
  }

  lemma SwapHolds(st: Store, ids: set<int>, metas: seq<Meta>, chunks: seq<File>, st': Store, e: Event)
    requires Registrable(st, ids, metas, chunks) && Swapped(st, ids, metas, chunks, st')
    requires forall id, e :: id in ids && e in st.origin[id].rows ==> HasNoLater(Flatten(chunks), e)
    requires Held(st, e)
    ensures HeldNoLater(st', e)
  {
    var id :| id in st.origin && Live(st, id) && e in st.origin[id].rows;
    if id in ids {
      assert HasNoLater(Flatten(chunks), e);
      var f :| f in Flatten(chunks) && f.key == e.key && f.timestamp <= e.timestamp;
      ChunkRowsHeld(st, ids, metas, chunks, st', f);
    } else {
      assert Held(st', e);
    }
  }

  lemma ChunkRowsHeld(st: Store, ids: set<int>, metas: seq<Meta>, chunks: seq<File>, st': Store, e: Event)
    requires |metas| == |chunks| && Swapped(st, ids, metas, chunks, st') && e in Flatten(chunks)
    ensures Held(st', e)
  {
    FlattenMember(chunks, e);
    var i :| 0 <= i < |chunks| && e in chunks[i];
    var id := st.table.nextId + i;
    assert st'.origin[id] == Origin(metas[i], chunks[i]);
  }

  /** What compaction read is what was registered. */
  lemma ReadRows(st: Store, files: seq<Listed>, contents: seq<File>, e: Event)
    requires ReadOk(st, files, contents) && |contents| == |files|
    ensures e in Flatten(contents) <==> exists id :: id in Ids(files) && e in st.origin[id].rows
  {
    FlattenMember(contents, e);
    if i :| 0 <= i < |contents| && e in contents[i] {
      assert files[i].id in Ids(files);
    }
    if id :| id in Ids(files) && e in st.origin[id].rows {
      var f :| f in files && f.id == id;
      var i :| 0 <= i < |files| && files[i] == f;
      assert e in contents[i];
    }
  }

  lemma CompactSwapNoLoss(s: Sys, t: nat, now: int)
    requires Good(s) && NoLoss(s.store) && Enabled(s, CompactSwap(t, now))
    ensures NoLoss(Effect(s, CompactSwap(t, now)).store)
  {
    var Compacting(b, files, contents, metas, chunks) := s.tasks[t];
    assert TaskOk(s.store, s.tasks[t]);
    SwapTask(s, t, b, files, contents, metas, chunks, now);
    forall id, e | id in Ids(files) && e in s.store.origin[id].rows ensures HasNoLater(Flatten(chunks), e) {
      ReadRows(s.store, files, contents, e);
    }
    SwapNoLoss(s.store, Ids(files), metas, chunks, SwapFiles(s.store, Ids(files), metas, chunks, now).value);
  }

  lemma FlushInsertNoLoss(s: Sys, t: nat)
    requires Good(s) && NoLoss(s.store) && Enabled(s, FlushInsert(t))
    ensures NoLoss(Effect(s, FlushInsert(t)).store)
  {
    var Flushing(m, events) := s.tasks[t];
    assert TaskOk(s.store, s.tasks[t]);
    InsertSucceeds(s.store, m, events);
    SwapNoLoss(s.store, {}, [m], [events], InsertFile(s.store, m, events).value);
  }

  predicate ChangesRows(a: Action) {
    a.FlushInsert? || a.CompactSwap? || a.SweepDelete? || a.DiscardDelete?
  }

  lemma OtherStepsKeepRows(s: Sys, a: Action)
    requires Enabled(s, a) && !ChangesRows(a)
    ensures Effect(s, a).store.origin == s.store.origin
    ensures forall id :: Live(s.store, id) ==> Live(Effect(s, a).store, id)
  {
  }

  lemma StepKeepsNoLoss(s: Sys, a: Action)
    requires Good(s) && NoLoss(s.store)
    ensures NoLoss(Apply(s, a).store)
  {
    if Enabled(s, a) {
      if a.FlushInsert? {
        FlushInsertNoLoss(s, a.t);
      } else if a.CompactSwap? {
        CompactSwapNoLoss(s, a.t, a.now);
      } else if a.SweepDelete? || a.DiscardDelete? {
        assert TaskOk(s.store, s.tasks[a.t]);
        DeleteNoLoss(s.store, s.tasks[a.t].file.id);
      } else {
        StepKeepsGood(s, a);
        OtherStepsKeepRows(s, a);
        SameRowsNoLoss(s.store, Apply(s, a).store);
      }
    }
  }

  lemma {:induction false} EveryRunKeepsAll(schedule: seq<Action>)
    ensures Good(Run(INIT, schedule)) && NoLoss(Run(INIT, schedule).store)
  {
    if schedule != [] {
      EveryRunKeepsAll(schedule[..|schedule| - 1]);
      StepKeepsGood(Run(INIT, schedule[..|schedule| - 1]), Last(schedule));
      StepKeepsNoLoss(Run(INIT, schedule[..|schedule| - 1]), Last(schedule));
    }
  }

  // ----- The guarantees -----

  /** A live row that was not itself listed as expired, under the cutoff of its own tier, points to
      an existing file, on disk or in the object store, that holds exactly what was registered; and
      a listed one holds only events older than that cutoff. */
  lemma {:induction false} NoDanglingLiveRow(schedule: seq<Action>, id: int)
    requires Live(Run(INIT, schedule).store, id)
    ensures var st := Run(INIT, schedule).store;
            && id in st.origin && MetaSound(st.table.rows[id].meta, st.origin[id].rows)
            && (id in st.expired ==> st.table.rows[id].meta.maxTs < st.expired[id])
            && (id !in st.expired ==>
                  ReadPath(st, st.table.rows[id].meta.path) == Some(st.origin[id].rows))
  {
    EveryRunIsGood(schedule);
    var st := Run(INIT, schedule).store;
    assert RowMatches(st.table.rows[id], st.origin[id]);
    assert FileNamed(st, st.origin[id].meta, st.origin[id].rows);
    assert Old(st, id) || Present(st, id);
  }

  /** A key is lost only if a file holding it was listed as expired, under the cutoff of its own
      tier: any other flushed event keeps, after every schedule, an active copy of its key that is
      no later, in a file that can be read. Under replay consistency the copy is the event itself. */
  lemma {:induction false} NoEarlyLoss(schedule: seq<Action>, e: Event) returns (id: int, f: Event)
    requires Retained(Run(INIT, schedule).store, e)
    ensures var st := Run(INIT, schedule).store;
            && Live(st, id) && id in st.origin && f in st.origin[id].rows
            && f.key == e.key && f.timestamp <= e.timestamp
            && ReadPath(st, st.table.rows[id].meta.path) == Some(st.origin[id].rows)
            && (ReplayConsistent(st) ==> f == e)
  {
    EveryRunKeepsAll(schedule);
    var st := Run(INIT, schedule).store;
    assert HeldNoLater(st, e);
    f :| Held(st, f) && f.key == e.key && f.timestamp <= e.timestamp;
    id :| id in st.origin && Live(st, id) && f in st.origin[id].rows;
    assert Flushed(st, f) && HasKey(st, id, e.key);
    NoDanglingLiveRow(schedule, id);
  }

  /** rows lists what the active files hold, in any order and multiplicity. */
  ghost predicate LiveRows(st: Store, rows: seq<Event>) {
    forall e :: e in rows <==> Held(st, e)
  }

  /** The view does not depend on the order in which the files are listed and united, but for the
      choice among simultaneous copies; under replay consistency it is fully determined. */
  lemma ViewIsDetermined(st: Store, rows: seq<Event>, other: seq<Event>, v: seq<Event>, w: seq<Event>)
    requires LiveRows(st, rows) && LiveRows(st, other) && IsDedup(rows, v) && IsDedup(other, w)
    ensures Covers(v, w) && Covers(w, v)
    ensures ReplayConsistent(st) ==> forall e :: e in v <==> e in w
  {
    hide IsDedup;
    DedupOfSameRows(other, rows, w);
    ViewsAgree(rows, v, w);
    if ReplayConsistent(st) {
      forall e, f | e in rows && f in rows && e.key == f.key ensures e == f {
        assert Held(st, e) && Held(st, f);
        assert Flushed(st, e) && Flushed(st, f);
      }
    }
  }

  /** Whatever the background tasks did, the view shows a retained key exactly once, with the
      earliest timestamp ever flushed for it. */
  lemma {:induction false} ViewKeepsEarliest(schedule: seq<Action>, rows: seq<Event>, view: seq<Event>, e: Event)
    requires LiveRows(Run(INIT, schedule).store, rows) && IsDedup(rows, view)
    requires Retained(Run(INIT, schedule).store, e)
    ensures exists i :: 0 <= i < |view| && IsTheRowOf(Run(INIT, schedule).store, view, i, e.key)
  {
    EveryRunKeepsAll(schedule);
    hide Run, Good;
    EarliestInView(Run(INIT, schedule).store, rows, view, e);
  }

  lemma EarliestInView(st: Store, rows: seq<Event>, view: seq<Event>, e: Event)
    requires NoLoss(st) && LiveRows(st, rows) && IsDedup(rows, view) && Retained(st, e)
    ensures exists i :: 0 <= i < |view| && IsTheRowOf(st, view, i, e.key)
  {
    hide Live;
    var f :| Held(st, f) && f.key == e.key && f.timestamp <= e.timestamp;
    assert HasNoLater(view, f);
    var g :| g in view && g.key == f.key && g.timestamp <= f.timestamp;
    var i :| 0 <= i < |view| && view[i] == g;
    forall h | Flushed(st, h) && h.key == e.key ensures g.timestamp <= h.timestamp {
      assert Retained(st, h);
      var k :| Held(st, k) && k.key == h.key && k.timestamp <= h.timestamp;
      EarliestOfAll(rows, view, g, k);
    }
    assert IsTheRowOf(st, view, i, e.key);
  }

  ghost predicate IsTheRowOf(st: Store, view: seq<Event>, i: nat, key: Key)
    requires i < |view|
  {
    && view[i].key == key
    && (forall j :: 0 <= j < |view| && view[j].key == key ==> j == i)
    && (forall h :: Flushed(st, h) && h.key == key ==> view[i].timestamp <= h.timestamp)
  }

  // ----- The swap, seen through the view -----

  /** What compaction read at list time still has a copy in service that is no later. */
  ghost predicate StillCovered(rows: seq<Event>, read: seq<Event>) {
    forall e :: e in read ==> HasNoLater(rows, e)
  }

  lemma RowsAfterSwap(
    st: Store, ids: set<int>, metas: seq<Meta>, chunks: seq<File>, st': Store, read: seq<Event>,
    rows: seq<Event>, rows': seq<Event>)
    requires OriginOk(st) && |metas| == |chunks| && Swapped(st, ids, metas, chunks, st')
    requires forall id :: id in ids ==> id in st.origin
    requires forall e :: e in read <==> exists id :: id in ids && e in st.origin[id].rows
    requires IsDedup(read, Flatten(chunks)) && LiveRows(st, rows) && LiveRows(st', rows')
    ensures Exchanged(rows, rows', read, Flatten(chunks))
  {
    hide OriginOk, IsDedup;
    forall e | e in rows' ensures e in rows || e in read {
      NewRowsWereRead(st, ids, metas, chunks, st', e);
      assert e in Flatten(chunks) ==> e in read by {
        DedupIsSubset(read, Flatten(chunks), e);
      }
    }
    forall e | e in rows ensures e in rows' || e in read {
      OldRowsStay(st, ids, metas, chunks, st', e);
    }
    forall e | e in Flatten(chunks) ensures e in rows' {
      ChunkRowsHeld(st, ids, metas, chunks, st', e);
    }
  }

  lemma DedupIsSubset(rows: seq<Event>, out: seq<Event>, e: Event)
    requires IsDedup(rows, out)
    ensures e in out ==> e in rows
  {
  }

  lemma NewRowsWereRead(st: Store, ids: set<int>, metas: seq<Meta>, chunks: seq<File>, st': Store, e: Event)
    requires OriginOk(st) && |metas| == |chunks| && Swapped(st, ids, metas, chunks, st') && Held(st', e)
    ensures Held(st, e) || e in Flatten(chunks)
  {
    hide MetaSound;
    var id :| id in st'.origin && Live(st', id) && e in st'.origin[id].rows;
    if id in st.origin {
      assert id in st.table.rows;
    } else {
      assert e in chunks[id - st.table.nextId];
      FlattenMember(chunks, e);
    }
  }

  lemma OldRowsStay(st: Store, ids: set<int>, metas: seq<Meta>, chunks: seq<File>, st': Store, e: Event)
    requires |metas| == |chunks| && Swapped(st, ids, metas, chunks, st') && Held(st, e)
    ensures Held(st', e) || exists id :: id in ids && id in st.origin && e in st.origin[id].rows
  {
    var id :| id in st.origin && Live(st, id) && e in st.origin[id].rows;
    if id !in ids {
      assert Live(st', id);
    }
  }

  /** The rows before the swap are kept or were read; the rows after it are old or come from
      what was read; and the new files are among them. */
  ghost predicate Exchanged(rows: seq<Event>, rows': seq<Event>, read: seq<Event>, out: seq<Event>) {
    && IsDedup(read, out)
    && (forall e :: e in rows' ==> e in rows || e in read)
    && (forall e :: e in rows ==> e in rows' || e in read)
    && (forall e :: e in out ==> e in rows')
  }

  lemma ViewAfterSwap(
    rows: seq<Event>, rows': seq<Event>, read: seq<Event>, out: seq<Event>, w: seq<Event>)
    requires Exchanged(rows, rows', read, out) && IsDedup(rows', w)
    ensures IsDedup(rows + read, w)
  {
    forall e | e in rows + read ensures HasNoLater(w, e) {
      if e !in rows' {
        assert e in read;
        assert HasNoLater(out, e);
        var f :| f in out && f.key == e.key && f.timestamp <= e.timestamp;
        NoLaterTrans(w, e, f);
      }
    }
    assert forall e :: e in w ==> e in rows + read;
  }

  lemma CoveredViewIsSame(rows: seq<Event>, read: seq<Event>, v: seq<Event>, w: seq<Event>)
    requires IsDedup(rows, v) && IsDedup(rows + read, w) && StillCovered(rows, read)
    ensures Covers(v, w) && Covers(w, v)
    ensures Consistent(rows + read) ==> forall e :: e in v <==> e in w
  {
    forall e | e in rows + read ensures HasNoLater(v, e) {
      if e !in rows {
        assert e in read;
        var f :| f in rows && f.key == e.key && f.timestamp <= e.timestamp;
        NoLaterTrans(v, e, f);
      }
    }
    assert forall e :: e in v ==> e in rows + read;
    ViewsAgree(rows + read, v, w);
  }

  lemma SameViewIsCovered(rows: seq<Event>, read: seq<Event>, v: seq<Event>, w: seq<Event>)
    requires IsDedup(rows, v) && IsDedup(rows + read, w) && Covers(v, w)
    ensures StillCovered(rows, read)
  {
    forall e | e in read ensures HasNoLater(rows, e) {
      assert e in rows + read && HasNoLater(w, e);
      var f :| f in w && f.key == e.key && f.timestamp <= e.timestamp;
      assert HasSame(v, f);
      var g :| g in v && g.key == f.key && g.timestamp == f.timestamp;
    }
  }

  lemma RetainedIsCovered(st: Store, rows: seq<Event>, e: Event)
    requires NoLoss(st) && LiveRows(st, rows) && Retained(st, e)
    ensures HasNoLater(rows, e)
  {
    hide Live;
    var f :| Held(st, f) && f.key == e.key && f.timestamp <= e.timestamp;
    assert f in rows;
  }

  /** What was read and is no longer covered had a copy in a file listed as expired. */
  lemma UncoveredWasExpired(st: Store, rows: seq<Event>, e: Event)
    requires NoLoss(st) && LiveRows(st, rows) && Flushed(st, e) && !HasNoLater(rows, e)
    ensures exists id :: Old(st, id) && HasKey(st, id, e.key)
  {
    hide NoLoss, LiveRows, HasNoLater;
    if Retained(st, e) {
      RetainedIsCovered(st, rows, e);
    }
  }

  lemma ReadIsFlushed(st: Store, files: seq<Listed>, read: seq<Event>, e: Event)
    requires forall e :: e in read <==> exists id :: id in Ids(files) && id in st.origin && e in st.origin[id].rows
    requires e in read
    ensures Flushed(st, e)
  {
  }

  /** No cutoff in use has passed the earliest event of a listed file. */
  ghost predicate NoneExpired(st: Store, files: seq<Listed>) {
    forall f :: f in files ==> f.id in st.origin && Recent(st, st.origin[f.id].meta.minTs)
  }

  lemma UnexpiredIsCovered(st: Store, files: seq<Listed>, read: seq<Event>, rows: seq<Event>)
    requires NoLoss(st) && OriginOk(st) && ReplayConsistent(st) && LiveRows(st, rows) && NoneExpired(st, files)
    requires forall e :: e in read <==> exists id :: id in Ids(files) && id in st.origin && e in st.origin[id].rows
    ensures StillCovered(rows, read)
  {
    hide NoLoss, LiveRows, OriginOk, MetaSound;
    forall e | e in read ensures HasNoLater(rows, e) {
      ReadIsFlushed(st, files, read, e);
      var id :| id in Ids(files) && id in st.origin && e in st.origin[id].rows;
      var f :| f in files && f.id == id;
      WithinRange(st, id, e);
      RecentIsRetained(st, e);
      RetainedIsCovered(st, rows, e);
    }
  }

  /** The swap in any reachable state, between whatever happened to the listed files since they
      were read: the view afterwards is the view of the rows before together with the rows that
      were read. It is the same view exactly when those rows are still covered, and they are
      whenever all listed rows are still active, even if they moved to the object store. */
  lemma {:induction false} SwapPreservesView(
    schedule: seq<Action>, t: nat, now: int, rows: seq<Event>, rows': seq<Event>, v: seq<Event>, w: seq<Event>)
    requires var s := Run(INIT, schedule);
             && Enabled(s, CompactSwap(t, now))
             && LiveRows(s.store, rows) && LiveRows(Apply(s, CompactSwap(t, now)).store, rows')
    requires IsDedup(rows, v) && IsDedup(rows', w)
    ensures var s := Run(INIT, schedule);
            var read := Flatten(s.tasks[t].contents);
            && IsDedup(rows + read, w)
            && (Covers(v, w) && Covers(w, v) <==> StillCovered(rows, read))
            && ((forall f :: f in s.tasks[t].files ==> Live(s.store, f.id)) ==> StillCovered(rows, read))
            && (Consistent(rows + read) && StillCovered(rows, read) ==> forall e :: e in v <==> e in w)
  {
    EveryRunIsGood(schedule);
    var s := Run(INIT, schedule);
    var st := s.store;
    var Compacting(b, files, contents, metas, chunks) := s.tasks[t];
    var read := Flatten(contents);
    assert TaskOk(st, s.tasks[t]);
    SwapTask(s, t, b, files, contents, metas, chunks, now);
    var st' := SwapFiles(st, Ids(files), metas, chunks, now).value;
    forall e ensures e in read <==> exists id :: id in Ids(files) && e in st.origin[id].rows {
      ReadRows(st, files, contents, e);
    }
    RowsAfterSwap(st, Ids(files), metas, chunks, st', read, rows, rows');
    ViewAfterSwap(rows, rows', read, Flatten(chunks), w);
    if StillCovered(rows, read) {
      CoveredViewIsSame(rows, read, v, w);
    }
    if Covers(v, w) {
      SameViewIsCovered(rows, read, v, w);
    }
    if forall f :: f in files ==> Live(st, f.id) {
      LiveListingCovers(st, files, read, rows);
    }
  }

  /** Which rows a swap can bring back, in any reachable state: a row that was read and is no longer
      covered has a copy in a file that was listed as expired. So under replay consistency, a swap whose
      listed files hold nothing older than the cutoffs used so far leaves the view as it was. */
  lemma {:induction false} OnlyExpiredRowsComeBack(schedule: seq<Action>, t: nat, now: int, rows: seq<Event>)
    requires var s := Run(INIT, schedule); Enabled(s, CompactSwap(t, now)) && LiveRows(s.store, rows)
    ensures var st := Run(INIT, schedule).store;
            var read := Flatten(Run(INIT, schedule).tasks[t].contents);
            && (forall e :: e in read && !HasNoLater(rows, e) ==>
                  exists id :: Old(st, id) && HasKey(st, id, e.key))
            && (ReplayConsistent(st) && NoneExpired(st, Run(INIT, schedule).tasks[t].files) ==>
                 StillCovered(rows, read))
  {
    EveryRunKeepsAll(schedule);
    var s := Run(INIT, schedule);
    hide Run, NoLoss, LiveRows, HasNoLater, StillCovered, ReplayConsistent, NoneExpired, MetaSound, ReadyToSwap;
    assert TaskOk(s.store, s.tasks[t]);
    var read := ReadByTask(s, t, now);
    forall e | e in read && !HasNoLater(rows, e)
      ensures exists id :: Old(s.store, id) && HasKey(s.store, id, e.key)
    {
      ReadIsFlushed(s.store, s.tasks[t].files, read, e);
      UncoveredWasExpired(s.store, rows, e);
    }
    if ReplayConsistent(s.store) && NoneExpired(s.store, s.tasks[t].files) {
      UnexpiredIsCovered(s.store, s.tasks[t].files, read, rows);
    }
  }

  lemma ReadByTask(s: Sys, t: nat, now: int) returns (read: seq<Event>)
    requires Good(s) && Enabled(s, CompactSwap(t, now))
    ensures s.tasks[t].Compacting? && read == Flatten(s.tasks[t].contents)
    ensures forall e :: e in read <==>
              exists id :: id in Ids(s.tasks[t].files) && id in s.store.origin && e in s.store.origin[id].rows
  {
    hide MetaSound;
    assert TaskOk(s.store, s.tasks[t]);
    var task := s.tasks[t];
    read := Flatten(task.contents);
    forall e ensures e in read <==>
      exists id :: id in Ids(task.files) && id in s.store.origin && e in s.store.origin[id].rows
    {
      ReadRows(s.store, task.files, task.contents, e);
    }
  }

  lemma LiveListingCovers(st: Store, files: seq<Listed>, read: seq<Event>, rows: seq<Event>)
    requires forall f :: f in files ==> f.id in st.origin && Live(st, f.id)
    requires forall e :: e in read <==> exists id :: id in Ids(files) && e in st.origin[id].rows
    requires LiveRows(st, rows)
    ensures StillCovered(rows, read)
  {
    forall e | e in read ensures HasNoLater(rows, e) {
      var id :| id in Ids(files) && e in st.origin[id].rows;
      var f :| f in files && f.id == id;
      assert Held(st, e);
    }
  }

  // ----- Queries over a changing store -----

  /** e is in a file that is active and meets the window. */
  ghost predicate HeldInWindowFile(st: Store, e: Event, timeFrom: int, timeTo: int) {
    exists id :: id in st.origin && Live(st, id) && e in st.origin[id].rows
      && Meets(st.origin[id].rows, timeFrom, timeTo)
  }

  lemma {:induction false} RunEvolves(s: Sys, schedule: seq<Action>)
    requires Good(s)
    ensures Good(Run(s, schedule))
    ensures forall id :: id in s.store.origin ==>
              id in Run(s, schedule).store.origin && Run(s, schedule).store.origin[id] == s.store.origin[id]
  {
    if schedule != [] {
      RunEvolves(s, schedule[..|schedule| - 1]);
      StepKeepsGood(Run(s, schedule[..|schedule| - 1]), Last(schedule));
    }
  }

  lemma ListedRows(st: Store, files: seq<Listed>, timeFrom: int, timeTo: int, e: Event)
    requires StoreOk(st) && ListingOf(st, files, r => ToScan(r, timeFrom, timeTo))
    ensures HeldInWindowFile(st, e, timeFrom, timeTo) <==>
            exists id :: id in Ids(files) && id in st.origin && e in st.origin[id].rows
  {
    hide OriginOk, FilesOk, LiveOk, ValidTable, Meets, Pruned;
    if id :| id in st.origin && Live(st, id) && e in st.origin[id].rows && Meets(st.origin[id].rows, timeFrom, timeTo) {
      ScannedIff(st, id, timeFrom, timeTo);
      assert Listed(id, st.table.rows[id].meta.path) in files;
    }
    if id :| id in Ids(files) && id in st.origin && e in st.origin[id].rows {
      var f :| f in files && f.id == id;
      ScannedIff(st, id, timeFrom, timeTo);
    }
  }

  /** A query lists an active file that has rows if and only if it meets the window. */
  lemma ScannedIff(st: Store, id: int, timeFrom: int, timeTo: int)
    requires StoreOk(st) && id in st.table.rows && st.origin[id].rows != []
    ensures ToScan(st.table.rows[id], timeFrom, timeTo) <==>
            Live(st, id) && Meets(st.origin[id].rows, timeFrom, timeTo)
  {
    hide FilesOk, LiveOk, ValidTable, Meets, MetaSound;
    assert RowMatches(st.table.rows[id], st.origin[id]);
    PrunedIff(st.origin[id].meta, st.origin[id].rows, timeFrom, timeTo);
  }

  lemma SnapshotRows(
    st: Store, st': Store, files: seq<Listed>, timeFrom: int, timeTo: int, contents: seq<File>, e: Event)
    requires StoreOk(st) && ListingOf(st, files, r => ToScan(r, timeFrom, timeTo))
    requires ReadOk(st', files, contents) && |contents| == |files|
    requires forall id :: id in st.origin ==> id in st'.origin && st'.origin[id] == st.origin[id]
    ensures e in Flatten(contents) <==> HeldInWindowFile(st, e, timeFrom, timeTo)
  {
    ReadRows(st', files, contents, e);
    ListedRows(st, files, timeFrom, timeTo, e);
    forall id | id in Ids(files) ensures id in st.origin {
      var f :| f in files && f.id == id;
    }
  }

  lemma WindowFilesKeepWindow(st: Store, all: seq<Event>, some: seq<Event>, timeFrom: int, timeTo: int)
    requires OriginOk(st) && LiveRows(st, all)
    requires forall e :: e in some <==> HeldInWindowFile(st, e, timeFrom, timeTo)
    ensures KeepsWindow(all, some, timeFrom, timeTo)
  {
    forall e | e in some ensures e in all {
      assert HeldInWindowFile(st, e, timeFrom, timeTo);
      assert Held(st, e);
    }
    forall e | e in all && InWindow(e, timeFrom, timeTo) ensures e in some {
      var id :| id in st.origin && Live(st, id) && e in st.origin[id].rows;
      assert Meets(st.origin[id].rows, timeFrom, timeTo);
    }
  }

  /** A query that reads all its files has read exactly what those files held that were active when
      it listed them and met the window, although compaction, tiering and sweeping ran in between; so
      nothing of a file wholly before or after the window, and its view, within the window, is that of
      the full scan at listing time (see Query.Refines). */
  lemma {:induction false} QueryReadsSnapshot(
    before: seq<Action>, t: nat, files: seq<Listed>, timeFrom: int, timeTo: int, after: seq<Action>,
    contents: seq<File>, all: seq<Event>, v: seq<Event>, w: seq<Event>)
    requires var s := Run(INIT, before);
             && Enabled(s, QueryList(t, files, timeFrom, timeTo))
             && LiveRows(s.store, all)
             && var s' := Run(Apply(s, QueryList(t, files, timeFrom, timeTo)), after);
                t in s'.tasks && s'.tasks[t] == Querying(files, contents) && |contents| == |files|
    requires IsDedup(Flatten(contents), v) && IsDedup(all, w)
    ensures forall e :: e in Flatten(contents) <==> HeldInWindowFile(Run(INIT, before).store, e, timeFrom, timeTo)
    ensures Refines(all, v, w, timeFrom, timeTo)
  {
    hide Run, StoreOk, IsDedup, Refines, HeldInWindowFile, LiveRows;
    var s := Run(INIT, before);
    EveryRunIsGood(before);
    var listed := Apply(s, QueryList(t, files, timeFrom, timeTo));
    StepKeepsGood(s, QueryList(t, files, timeFrom, timeTo));
    RunEvolves(listed, after);
    var s' := Run(listed, after);
    assert TaskOk(s'.store, s'.tasks[t]);
    assert listed.store == s.store;
    SnapshotView(s.store, s'.store, files, timeFrom, timeTo, contents, all, v, w);
  }

  lemma SnapshotView(
    st: Store, st': Store, files: seq<Listed>, timeFrom: int, timeTo: int, contents: seq<File>,
    all: seq<Event>, v: seq<Event>, w: seq<Event>)
    requires StoreOk(st) && ListingOf(st, files, r => ToScan(r, timeFrom, timeTo)) && LiveRows(st, all)
    requires ReadOk(st', files, contents) && |contents| == |files|
    requires forall id :: id in st.origin ==> id in st'.origin && st'.origin[id] == st.origin[id]
    requires IsDedup(Flatten(contents), v) && IsDedup(all, w)
    ensures forall e :: e in Flatten(contents) <==> HeldInWindowFile(st, e, timeFrom, timeTo)
    ensures Refines(all, v, w, timeFrom, timeTo)
  {
    hide OriginOk, FilesOk, LiveOk, TableOk, IsDedup, Refines, Flatten, ReadOk, HeldInWindowFile, ListingOf;
    forall e {
      SnapshotRows(st, st', files, timeFrom, timeTo, contents, e);
    }
    WindowFilesKeepWindow(st, all, Flatten(contents), timeFrom, timeTo);
    WindowRefines(all, Flatten(contents), timeFrom, timeTo, v, w);
  }
}
