/** What the steps of the storage protocol do to files and rows in any reachable state: which files
    may be listed, by their events; which files and rows come, change and go. */
module LifecycleEffects {
  import opened Base
  import opened Dedup
  import opened Catalog
  import opened Compaction
  import opened Query
  import opened Lifecycle
  import opened LifecycleSafety
  import opened LifecycleTheorems

  // ----- What may be listed -----

  lemma RowOfOrigin(st: Store, id: int)
    requires StoreOk(st) && id in st.table.rows
    ensures id in st.origin && MetaSound(st.origin[id].meta, st.origin[id].rows)
    ensures st.table.rows[id].meta.maxTs == st.origin[id].meta.maxTs
    ensures forall b :: Filed(st.table.rows[id].meta, b) <==> Filed(st.origin[id].meta, b)
  {
    hide MetaSound;
    assert RowMatches(st.table.rows[id], st.origin[id]);
    assert FileNamed(st, st.origin[id].meta, st.origin[id].rows);
  }

  predicate TierOf(st: Store, id: int, tier: Tier) {
    id in st.table.rows && st.table.rows[id].tier == tier
  }

  /** Tiering lists a file if and only if it is active and hot and all events registered in it are
      earlier than the cutoff. */
  lemma {:induction false} TieredIff(schedule: seq<Action>, t: nat, id: int, cutoff: int)
    requires var s := Run(INIT, schedule);
             t !in s.tasks && id in s.store.table.rows && id in s.store.origin && s.store.origin[id].rows != []
    ensures var s := Run(INIT, schedule);
            Enabled(s, TierList(t, id, cutoff)) <==>
            Live(s.store, id) && TierOf(s.store, id, Hot) && AllBefore(s.store.origin[id].rows, cutoff)
  {
    EveryRunIsGood(schedule);
    var st := Run(INIT, schedule).store;
    hide Run, StoreOk, MetaSound, AllBefore;
    RowOfOrigin(st, id);
    MaxIsBefore(st.origin[id].meta, st.origin[id].rows, cutoff);
  }

  /** The sweeper lists a file if and only if it is active and all events registered in it are earlier
      than the cutoff of the tier it is in. */
  lemma {:induction false} SweptIff(schedule: seq<Action>, t: nat, id: int, hot: int, cold: int)
    requires var s := Run(INIT, schedule);
             t !in s.tasks && id in s.store.table.rows && id in s.store.origin && s.store.origin[id].rows != []
    ensures var s := Run(INIT, schedule);
            Enabled(s, SweepList(t, id, hot, cold)) <==>
            && Live(s.store, id)
            && (TierOf(s.store, id, Hot) ==> AllBefore(s.store.origin[id].rows, hot))
            && (TierOf(s.store, id, Cold) ==> AllBefore(s.store.origin[id].rows, cold))
  {
    EveryRunIsGood(schedule);
    var st := Run(INIT, schedule).store;
    hide Run, StoreOk, MetaSound, AllBefore;
    RowOfOrigin(st, id);
    MaxIsBefore(st.origin[id].meta, st.origin[id].rows, hot);
    MaxIsBefore(st.origin[id].meta, st.origin[id].rows, cold);
  }

  /** The sweeper lists a superseded row if and only if the time of its swap was recorded and is before
      the grace cutoff (RowsAfterStep says that the swap records it). */
  lemma {:induction false} DiscardedIff(schedule: seq<Action>, t: nat, id: int, grace: int)
    requires var s := Run(INIT, schedule); t !in s.tasks && id in s.store.table.rows
    ensures var s := Run(INIT, schedule);
            Enabled(s, DiscardList(t, id, grace)) <==>
            !Live(s.store, id) && 0 < s.store.table.rows[id].supersededAt < grace
  {
    hide Run;
  }

  /** A compaction lists at least two files: all that are active and hot and were registered under
      the bucket's labels, and no others. */
  lemma {:induction false} CompactedAre(
    schedule: seq<Action>, t: nat, service: string, bucket: string, files: seq<Listed>, id: int)
    requires Enabled(Run(INIT, schedule), CompactList(t, service, bucket, files))
    ensures var st := Run(INIT, schedule).store;
            && |files| >= 2
            && (id in Ids(files) <==>
                  && Live(st, id) && TierOf(st, id, Hot)
                  && id in st.origin && Filed(st.origin[id].meta, Bucket(service, bucket)))
  {
    EveryRunIsGood(schedule);
    var st := Run(INIT, schedule).store;
    hide Run, StoreOk, MetaSound;
    var b := Bucket(service, bucket);
    if id in st.table.rows {
      RowOfOrigin(st, id);
      assert Filed(st.table.rows[id].meta, b) <==> Filed(st.origin[id].meta, b);
      if InBucket(st.table.rows[id], service, bucket) {
        assert Listed(id, st.table.rows[id].meta.path) in files;
      }
    }
    if id in Ids(files) {
      var f :| f in files && f.id == id;
      assert InBucket(st.table.rows[id], service, bucket);
    }
  }

  // ----- Compaction stays in its bucket -----

  /** The rows a swap inserts are in the bucket that was listed, which is the one every listed file
      was registered under, whatever happened since the listing. */
  lemma {:induction false} SwapStaysInBucket(schedule: seq<Action>, t: nat, now: int, id: int)
    requires Enabled(Run(INIT, schedule), CompactSwap(t, now))
    ensures var s := Run(INIT, schedule);
            var st' := Apply(s, CompactSwap(t, now)).store;
            var b := s.tasks[t].bucket;
            && (forall f :: f in s.tasks[t].files ==> f.id in s.store.origin && Filed(s.store.origin[f.id].meta, b))
            && (id in st'.table.rows && id !in s.store.table.rows ==>
                  InBucket(st'.table.rows[id], b.service, b.hour))
  {
    hide Run, StoreOk, TaskOk, MetaSound, SwapFiles, IsCompaction, Registrable, Swapped;
    EveryRunIsGood(schedule);
    var s := Run(INIT, schedule);
    var Compacting(b, files, contents, metas, chunks) := s.tasks[t];
    CompactionIsFiled(s.store, s.tasks[t]);
    SwapTask(s, t, b, files, contents, metas, chunks, now);
    SwapStore(s, t, now);
    NewRowsFiled(s.store, Ids(files), metas, chunks, SwapFiles(s.store, Ids(files), metas, chunks, now).value, b, id);
  }

  lemma CompactionIsFiled(st: Store, task: Task)
    requires task.Compacting? && TaskOk(st, task)
    ensures forall f :: f in task.files ==> f.id in st.origin && Filed(st.origin[f.id].meta, task.bucket)
    ensures forall i :: 0 <= i < |task.metas| ==> Filed(task.metas[i], task.bucket)
  {
    hide AllWrittenOk, ReadOk;
  }

  lemma NewRowsFiled(
    st: Store, ids: set<int>, metas: seq<Meta>, chunks: seq<File>, st': Store, b: Bucket, id: int)
    requires |metas| == |chunks| && Swapped(st, ids, metas, chunks, st')
    requires forall i :: 0 <= i < |metas| ==> Filed(metas[i], b)
    ensures id in st'.table.rows && id !in st.table.rows ==> InBucket(st'.table.rows[id], b.service, b.hour)
  {
    hide ValidTable;
    if id in st'.table.rows && id !in st.table.rows {
      assert st'.table.rows[id] == NewRow(metas[id - st.table.nextId]);
    }
  }

  lemma SwapStore(s: Sys, t: nat, now: int)
    requires Enabled(s, CompactSwap(t, now))
    ensures var Compacting(b, files, contents, metas, chunks) := s.tasks[t];
            SwapFiles(s.store, Ids(files), metas, chunks, now).Some? ==>
              Apply(s, CompactSwap(t, now)).store == SwapFiles(s.store, Ids(files), metas, chunks, now).value
  {
  }

  // ----- Files come and go -----

  /** The file that a step deletes: one that the task listed or has promoted, if the deletion
      succeeds; an object if it was listed in the object store, and a local file otherwise. */
  function Deletes(s: Sys, a: Action): Option<Path> {
    match a
    case CompactUnlink(t, ok) =>
      if ok && t in s.tasks && s.tasks[t].Unlinking? && s.tasks[t].files != [] then Some(s.tasks[t].files[0].path)
      else None
    case TierUnlink(t) => if t in s.tasks && s.tasks[t].TierRecorded? then Some(s.tasks[t].file.path) else None
    case SweepUnlink(t) => if t in s.tasks && s.tasks[t].Expiring? then Some(s.tasks[t].file.path) else None
    case DiscardUnlink(t, ok) =>
      if ok && t in s.tasks && s.tasks[t].Discarding? && s.tasks[t].file.path.Local? then Some(s.tasks[t].file.path)
      else None
    case _ => None
  }

  /** The file that a step writes, and what it writes. */
  ghost function Writes(s: Sys, a: Action): Option<(Path, File)> {
    match a
    case FlushWrite(t, m, events) => if Enabled(s, a) then Some((m.path, events)) else None
    case CompactWrite(t, m, chunk) => if Enabled(s, a) then Some((m.path, chunk)) else None
    case TierUpload(t) =>
      if Enabled(s, a) then
        var path := s.tasks[t].file.path;
        Some((Object(path.service, path.bucket, path.uuid), s.tasks[t].bytes))
      else None
    case _ => None
  }

  /** What is readable at the path after a step. */
  ghost function FileAfter(s: Sys, a: Action, path: Path): Option<File> {
    if Deletes(s, a) == Some(path) then None
    else if Writes(s, a).Some? && Writes(s, a).value.0 == path then Some(Writes(s, a).value.1)
    else ReadPath(s.store, path)
  }

  lemma TaskPaths(s: Sys, t: nat)
    requires Good(s) && t in s.tasks
    ensures s.tasks[t].Unlinking? && s.tasks[t].files != [] ==> s.tasks[t].files[0].path.Local?
    ensures s.tasks[t].TierRecorded? ==> s.tasks[t].file.path.Local?
    ensures s.tasks[t].Expiring? ==> (s.tasks[t].file.path.Local? <==> s.tasks[t].tier == Hot)
  {
    hide MetaSound, FilesOk, LiveOk, TableOk;
    assert TaskOk(s.store, s.tasks[t]);
    forall id | id in s.store.origin ensures Home(s.store, id).Local? {
      assert FileNamed(s.store, s.store.origin[id].meta, s.store.origin[id].rows);
    }
  }

  lemma DeletionOnFiles(s: Sys, a: Action, path: Path)
    requires Good(s) && (a.CompactUnlink? || a.TierUnlink? || a.SweepUnlink? || a.DiscardUnlink?)
    ensures ReadPath(Apply(s, a).store, path) == FileAfter(s, a, path)
  {
    hide Good;
    if a.t in s.tasks {
      TaskPaths(s, a.t);
    }
  }

  lemma WriteOnFiles(s: Sys, a: Action, path: Path)
    requires a.FlushWrite? || a.CompactWrite? || a.TierUpload?
    ensures ReadPath(Apply(s, a).store, path) == FileAfter(s, a, path)
  {
    hide FreshFile;
    FreshIsLocal(s);
  }

  predicate OnFiles(a: Action) {
    a.CompactUnlink? || a.TierUnlink? || a.SweepUnlink? || a.DiscardUnlink?
    || a.FlushWrite? || a.CompactWrite? || a.TierUpload?
  }

  lemma OthersOnFiles(s: Sys, a: Action)
    requires !OnFiles(a)
    ensures Apply(s, a).store.local == s.store.local && Apply(s, a).store.cold == s.store.cold
  {
    hide ListingOf, ReadyToSwap, IsExpired, PastGrace, ToTier;
  }

  lemma StepOnFiles(s: Sys, a: Action, path: Path)
    requires Good(s)
    ensures ReadPath(Apply(s, a).store, path) == FileAfter(s, a, path)
  {
    hide Good, Apply, Enabled;
    if !OnFiles(a) {
      OthersOnFiles(s, a);
    } else if a.FlushWrite? || a.CompactWrite? || a.TierUpload? {
      WriteOnFiles(s, a, path);
    } else {
      DeletionOnFiles(s, a, path);
    }
  }

  lemma FreshIsLocal(s: Sys)
    ensures forall m, rows :: FreshFile(s.store, m, rows) ==> m.path.Local?
  {
  }

  /** Every local file has a name that was handed out. */
  ghost predicate Named(st: Store) {
    forall p: Path :: p.Local? && ReadPath(st, p).Some? ==> p.uuid in st.uuids
  }

  lemma StepKeepsNamed(s: Sys, a: Action)
    requires Good(s) && Named(s.store)
    ensures Named(Apply(s, a).store)
  {
    StepKeepsGood(s, a);
    var st' := Apply(s, a).store;
    hide Good, Apply, FreshFile, ReadPath, Deletes;
    forall p: Path | p.Local? && ReadPath(st', p).Some? ensures p.uuid in st'.uuids {
      StepOnFiles(s, a, p);
      if Writes(s, a).Some? && Writes(s, a).value.0 == p {
        WrittenIsNamed(s, a);
      }
    }
  }

  lemma WrittenIsNamed(s: Sys, a: Action)
    requires Writes(s, a).Some? && Writes(s, a).value.0.Local?
    ensures Writes(s, a).value.0.uuid !in s.store.uuids
    ensures Writes(s, a).value.0.uuid in Apply(s, a).store.uuids
  {
    hide ListingOf, ReadyToSwap, MetaSound;
  }

  lemma {:induction false} EveryRunNamed(schedule: seq<Action>)
    ensures Named(Run(INIT, schedule).store)
  {
    if schedule != [] {
      hide Named, Good, Apply;
      var before := schedule[..|schedule| - 1];
      EveryRunIsGood(before);
      EveryRunNamed(before);
      StepKeepsNamed(Run(INIT, before), Last(schedule));
    } else {
      assert Run(INIT, schedule) == INIT;
    }
  }

  /** What is uploaded again is what was there. */
  lemma UploadedAgain(s: Sys, t: nat)
    requires Good(s) && Enabled(s, TierUpload(t))
    ensures var path := s.tasks[t].file.path;
            var uri := Object(path.service, path.bucket, path.uuid);
            ReadPath(s.store, uri).Some? ==> ReadPath(s.store, uri) == Some(s.tasks[t].bytes)
  {
    hide MetaSound, LiveOk, TableOk;
    assert TaskOk(s.store, s.tasks[t]);
  }

  /** In any reachable state, a step deletes the one file it is to delete, writes the one it is to
      write, and leaves every other path as it was; and it never changes what a path holds. */
  lemma {:induction false} FilesAfterStep(schedule: seq<Action>, a: Action, path: Path)
    ensures var s := Run(INIT, schedule);
            && ReadPath(Apply(s, a).store, path) == FileAfter(s, a, path)
            && (ReadPath(s.store, path).Some? && FileAfter(s, a, path).Some? ==>
                  FileAfter(s, a, path) == ReadPath(s.store, path))
  {
    EveryRunIsGood(schedule);
    EveryRunNamed(schedule);
    var s := Run(INIT, schedule);
    hide Run, Good, Apply, FreshFile, ReadPath, Deletes, ListingOf, ReadyToSwap;
    StepOnFiles(s, a, path);
    if Writes(s, a).Some? {
      if a.TierUpload? {
        UploadedAgain(s, a.t);
      } else {
        WriteIsLocal(s, a);
        WrittenIsNamed(s, a);
      }
    }
  }

  lemma WriteIsLocal(s: Sys, a: Action)
    requires Writes(s, a).Some? && !a.TierUpload?
    ensures Writes(s, a).value.0.Local?
  {
    FreshIsLocal(s);
    hide FreshFile, ListingOf, ReadyToSwap;
  }

  // ----- Rows come, change and go -----

  function RowIn(st: Store, id: int): Option<Row> {
    if id in st.table.rows then Some(st.table.rows[id]) else None
  }

  /** The row under id after a step that can be taken: inserting, deleting, promoting and superseding
      rows are the only changes. */
  ghost function RowAfter(s: Sys, a: Action, id: int): Option<Row>
    requires Enabled(s, a)
  {
    var r := RowIn(s.store, id);
    var first := s.store.table.nextId;
    match a
    case FlushInsert(t) => if id == first then Some(Row(s.tasks[t].meta, Hot, Active, 0)) else r
    case SweepDelete(t) => if id == s.tasks[t].file.id then None else r
    case DiscardDelete(t) => if id == s.tasks[t].file.id then None else r
    case TierSetCold(t) => if r.Some? && id == s.tasks[t].file.id then Some(Promoted(r.value, s.tasks[t].file)) else r
    case CompactSwap(t, now) =>
      if first <= id < first + |s.tasks[t].metas| then Some(Row(s.tasks[t].metas[id - first], Hot, Active, 0))
      else if r.Some? && exists f :: f in s.tasks[t].files && f.id == id
      then Some(Row(r.value.meta, r.value.tier, Superseded, now)) else r
    case _ => r
  }

  /** In the object store, under the row's service and hour and the name of the listed file, and in
      service or not as before. */
  function Promoted(r: Row, f: Listed): Row {
    Row(r.meta.(path := Object(r.meta.service, r.meta.bucket, f.path.uuid)), Cold, r.state, r.supersededAt)
  }

  predicate ChangesTable(a: Action) {
    a.FlushInsert? || a.CompactSwap? || a.SweepDelete? || a.DiscardDelete? || a.TierSetCold?
  }

  lemma OtherRowsStay(s: Sys, a: Action, id: int)
    requires Enabled(s, a) && !ChangesTable(a)
    ensures RowIn(Effect(s, a).store, id) == RowAfter(s, a, id)
  {
    hide FreshFile, ListingOf, ReadyToSwap, IsExpired, PastGrace, ToTier;
  }

  lemma DeletedRows(s: Sys, a: Action, id: int)
    requires Enabled(s, a) && (a.SweepDelete? || a.DiscardDelete?)
    ensures RowIn(Effect(s, a).store, id) == RowAfter(s, a, id)
  {
  }

  lemma InsertedRow(s: Sys, t: nat, id: int)
    requires Good(s) && Enabled(s, FlushInsert(t))
    ensures RowIn(Effect(s, FlushInsert(t)).store, id) == RowAfter(s, FlushInsert(t), id)
  {
    var Flushing(m, events) := s.tasks[t];
    assert TaskOk(s.store, s.tasks[t]);
    InsertSucceeds(s.store, m, events);
    hide Good, MetaSound, StoreOk, WrittenOk;
  }

  lemma PromotedRow(s: Sys, t: nat, id: int)
    requires Good(s) && Enabled(s, TierSetCold(t))
    ensures RowIn(Effect(s, TierSetCold(t)).store, id) == RowAfter(s, TierSetCold(t), id)
  {
    hide StoreOk, MetaSound, Quiet, RecordCold;
    var f := s.tasks[t].file;
    assert TaskOk(s.store, s.tasks[t]);
    RecordColdSucceeds(s.store, f);
    LabelsOfListed(s.store, f);
    RecordedRow(s.store, f, id);
  }

  lemma LabelsOfListed(st: Store, f: Listed)
    requires StoreOk(st) && HomeListing(st, f)
    ensures f.id in st.table.rows ==>
              var m := st.table.rows[f.id].meta; m.service == f.path.service && m.bucket == f.path.bucket
  {
    hide MetaSound;
    if f.id in st.table.rows {
      assert RowMatches(st.table.rows[f.id], st.origin[f.id]);
      assert FileNamed(st, st.origin[f.id].meta, st.origin[f.id].rows);
    }
  }

  lemma RecordedRow(st: Store, f: Listed, id: int)
    requires RecordCold(st, f).Some?
    requires f.id in st.table.rows ==>
               var m := st.table.rows[f.id].meta; m.service == f.path.service && m.bucket == f.path.bucket
    ensures var r := RowIn(st, id);
            RowIn(RecordCold(st, f).value, id) ==
            if r.Some? && id == f.id then Some(Promoted(r.value, f)) else r
  {
  }

  lemma SwappedRows(s: Sys, t: nat, now: int, id: int)
    requires Good(s) && Enabled(s, CompactSwap(t, now))
    ensures RowIn(Effect(s, CompactSwap(t, now)).store, id) == RowAfter(s, CompactSwap(t, now), id)
  {
    hide StoreOk, TaskOk, MetaSound, IsCompaction, SwapFiles, SwapResult, Registrable, Swapped, ValidTable;
    var Compacting(b, files, contents, metas, chunks) := s.tasks[t];
    SwapTask(s, t, b, files, contents, metas, chunks, now);
    SwapStore(s, t, now);
    SwapRows(s.store, Ids(files), metas, chunks, now);
    ListedIds(files, id);
    SwapResultRow(s.store.table, Ids(files), metas, now, Effect(s, CompactSwap(t, now)).store.table, id);
  }

  lemma SwapResultRow(t: Table, ids: set<int>, metas: seq<Meta>, now: int, u: Table, id: int)
    requires ValidTable(t) && SwapResult(t, ids, metas, now, u)
    ensures (id in u.rows <==> t.nextId <= id < t.nextId + |metas| || id in t.rows)
    ensures id in u.rows ==>
              u.rows[id] == if t.nextId <= id < t.nextId + |metas| then Row(metas[id - t.nextId], Hot, Active, 0)
                            else if id in ids then Row(t.rows[id].meta, t.rows[id].tier, Superseded, now)
                            else t.rows[id]
  {
  }

  lemma ListedIds(files: seq<Listed>, id: int)
    ensures id in Ids(files) <==> exists f :: f in files && f.id == id
  {
  }

  lemma SwapRows(st: Store, ids: set<int>, metas: seq<Meta>, chunks: seq<File>, now: int)
    requires Registrable(st, ids, metas, chunks) && SwapFiles(st, ids, metas, chunks, now).Some?
    ensures SwapResult(st.table, ids, metas, now, SwapFiles(st, ids, metas, chunks, now).value.table)
    ensures ValidTable(st.table)
  {
    SwapExact(st.table, ids, metas, now);
  }

  /** In any reachable state, a step that can be taken changes the manifest in exactly this way. */
  lemma {:induction false} RowsAfterStep(schedule: seq<Action>, a: Action, id: int)
    requires Enabled(Run(INIT, schedule), a)
    ensures RowIn(Apply(Run(INIT, schedule), a).store, id) == RowAfter(Run(INIT, schedule), a, id)
  {
    EveryRunIsGood(schedule);
    var s := Run(INIT, schedule);
    hide Run, Good, Enabled, Effect, RowAfter;
    if a.FlushInsert? {
      InsertedRow(s, a.t, id);
    } else if a.CompactSwap? {
      SwappedRows(s, a.t, a.now, id);
    } else if a.TierSetCold? {
      PromotedRow(s, a.t, id);
    } else if a.SweepDelete? || a.DiscardDelete? {
      DeletedRows(s, a, id);
    } else {
      OtherRowsStay(s, a, id);
    }
  }
}
