/** The storage protocol: flush, compaction, tiering, sweeping and queries interleave in steps
    over one manifest, the local disk and the object store. Every task works from what it read
    when it last held the manifest lock, so its lists may be stale by the time it uses them. */
module Lifecycle {
  import opened Base
  import opened Dedup
  import opened Catalog
  import opened Compaction
  import opened Query

  /** A row of a listing: the id, and the path the row had when it was listed. */
  datatype Listed = Listed(id: int, path: Path)

  /** Where a background task stands. */
  datatype Task =
    | Flushing(meta: Meta, events: File)
    | Compacting(bucket: Bucket, files: seq<Listed>, contents: seq<File>, metas: seq<Meta>, chunks: seq<File>)
    | Unlinking(files: seq<Listed>)
    | TierListed(file: Listed)
    | TierRead(file: Listed, bytes: File)
    | TierUploaded(file: Listed)
    | TierRecorded(file: Listed)
    | Expiring(file: Listed, tier: Tier)
    | Expired(file: Listed)
    | Discarding(file: Listed)
    | Discarded(file: Listed)
    | Querying(files: seq<Listed>, contents: seq<File>)

  /** What was registered under an id, for good: kept for the statements, not by the program. */
  datatype Origin = Origin(meta: Meta, rows: File)

  /** `origin`, `uuids` and `expired` record history: the registrations so far, the UUIDs handed
      out, and the files listed for deletion, with the cutoff of their tier at that time. */
  datatype Store = Store(
    table: Table, local: map<Path, File>, cold: map<Path, File>,
    origin: map<int, Origin>, uuids: set<nat>, expired: map<int, int>)

  datatype Sys = Sys(store: Store, tasks: map<nat, Task>)

  const INIT := Sys(Store(EMPTY_TABLE, map[], map[], map[], {}, map[]), map[])

  datatype Action =
    | FlushWrite(t: nat, meta: Meta, events: File)
    | FlushInsert(t: nat)
    | CompactList(t: nat, service: string, bucket: string, files: seq<Listed>)
    | CompactRead(t: nat)
    | CompactWrite(t: nat, meta: Meta, chunk: File)
    | CompactSwap(t: nat, now: int)
    | CompactUnlink(t: nat, ok: bool)
    | TierList(t: nat, id: int, tierCutoff: int)
    | TierReadFile(t: nat)
    | TierUpload(t: nat)
    | TierSetCold(t: nat)
    | TierUnlink(t: nat)
    | SweepList(t: nat, id: int, hotCutoff: int, coldCutoff: int)
    | SweepUnlink(t: nat)
    | SweepDelete(t: nat)
    | DiscardList(t: nat, id: int, graceCutoff: int)
    | DiscardUnlink(t: nat, ok: bool)
    | DiscardDelete(t: nat)
    | QueryList(t: nat, files: seq<Listed>, timeFrom: int, timeTo: int)
    | QueryRead(t: nat)
    | Abort(t: nat)

  // ----- What a step does to the store -----

  /** A file about to be written: a fresh local path in its service and bucket directory,
      and metadata computed from its rows. */
  ghost predicate FreshFile(st: Store, m: Meta, rows: File) {
    && m.path.Local? && m.path.uuid !in st.uuids
    && m.service == m.path.service && m.bucket == m.path.bucket
    && MetaSound(m, rows)
  }

  function WriteLocal(st: Store, m: Meta, rows: File): Store {
    st.(local := st.local[m.path := rows], uuids := st.uuids + {m.path.uuid})
  }

  function RemoveLocal(st: Store, path: Path): Store {
    st.(local := st.local - {path})
  }

  function ReadPath(st: Store, path: Path): Option<File> {
    if path.Local? then (if path in st.local then Some(st.local[path]) else None)
    else if path in st.cold then Some(st.cold[path]) else None
  }

  ghost predicate ListingOf(st: Store, files: seq<Listed>, p: Row -> bool) {
    && (forall i, j :: 0 <= i < j < |files| ==> files[i].id != files[j].id)
    && (forall f :: f in files ==>
          f.id in st.table.rows && p(st.table.rows[f.id]) && f.path == st.table.rows[f.id].meta.path)
    && (forall id :: id in st.table.rows && p(st.table.rows[id]) ==> Listed(id, st.table.rows[id].meta.path) in files)
  }

  function Ids(files: seq<Listed>): set<int> {
    set f | f in files :: f.id
  }

  /** The history after the files in metas were registered under the ids from first on. */
  function Register(origin: map<int, Origin>, first: int, metas: seq<Meta>, chunks: seq<File>): map<int, Origin>
    requires |metas| == |chunks|
  {
    origin + map id | id in IdRange(first, |metas|) :: Origin(metas[id - first], chunks[id - first])
  }

  function IdRange(first: int, n: nat): (r: set<int>)
    ensures forall id :: id in r <==> first <= id < first + n
  {
    if n == 0 then {} else IdRange(first, n - 1) + {first + n - 1}
  }

  /** One transaction: register the new files, supersede the rows in ids. */
  ghost function SwapFiles(st: Store, ids: set<int>, metas: seq<Meta>, chunks: seq<File>, now: int): Option<Store>
    requires |metas| == |chunks|
  {
    match Swap(st.table, ids, metas, now)
    case None => None
    case Some(u) => Some(st.(table := u, origin := Register(st.origin, st.table.nextId, metas, chunks)))
  }

  ghost function InsertFile(st: Store, m: Meta, events: File): Option<Store> {
    match Insert(st.table, m)
    case None => None
    case Some(u) => Some(st.(table := u, origin := Register(st.origin, st.table.nextId, [m], [events])))
  }

  ghost function RecordCold(st: Store, f: Listed): Option<Store> {
    match SetCold(st.table, f.id, ColdUri(f.path))
    case None => None
    case Some(u) => Some(st.(table := u))
  }

  function Upload(st: Store, f: Listed, bytes: File): Store {
    st.(cold := st.cold[ColdUri(f.path) := bytes])
  }

  function RemoveExpired(st: Store, f: Listed, tier: Tier): Store {
    if tier == Cold then st.(cold := st.cold - {f.path}) else RemoveLocal(st, f.path)
  }

  function DeleteRow(st: Store, id: int): Store {
    st.(table := Delete(st.table, id))
  }

  // ----- Steps -----

  function Goto(s: Sys, t: nat, st: Store, task: Task): Sys {
    Sys(st, s.tasks[t := task])
  }

  function End(s: Sys, t: nat, st: Store): Sys {
    Sys(st, s.tasks - {t})
  }

  /** A statement that may be refused: on failure the task gives up. */
  function GotoIf(s: Sys, t: nat, result: Option<Store>, task: Task): Sys {
    match result
    case None => End(s, t, s.store)
    case Some(st) => Goto(s, t, st, task)
  }

  predicate AllRead(task: Task) {
    task.Compacting? && |task.contents| == |task.files| && |task.metas| == |task.chunks|
  }

  predicate MoreToRead(task: Task) {
    (task.Compacting? || task.Querying?) && |task.contents| < |task.files|
  }

  ghost predicate ReadyToSwap(task: Task) {
    AllRead(task) && Flatten(task.contents) != [] && IsCompaction(Flatten(task.contents), Flatten(task.chunks))
  }

  /** May the step a be taken in s? */
  ghost predicate Enabled(s: Sys, a: Action) {
    var st := s.store;
    var rows := st.table.rows;
    match a
    case FlushWrite(t, m, events) => 
      t !in s.tasks && events != [] && m.service == events[0].service && FreshFile(st, m, events)
    case FlushInsert(t) => t in s.tasks && s.tasks[t].Flushing?
    case CompactList(t, service, bucket, files) =>
      t !in s.tasks && |files| >= 2 && ListingOf(st, files, r => InBucket(r, service, bucket))
    case CompactRead(t) => t in s.tasks && s.tasks[t].Compacting? && MoreToRead(s.tasks[t])
    case CompactWrite(t, m, chunk) =>
      t in s.tasks && AllRead(s.tasks[t]) && Filed(m, s.tasks[t].bucket) && FreshFile(st, m, chunk)
    case CompactSwap(t, now) => t in s.tasks && ReadyToSwap(s.tasks[t])
    case CompactUnlink(t, ok) => t in s.tasks && s.tasks[t].Unlinking? && s.tasks[t].files != []
    case TierList(t, id, cut) => t !in s.tasks && id in rows && ToTier(rows[id], cut)
    case TierReadFile(t) => t in s.tasks && s.tasks[t].TierListed?
    case TierUpload(t) => t in s.tasks && s.tasks[t].TierRead?
    case TierSetCold(t) => t in s.tasks && s.tasks[t].TierUploaded?
    case TierUnlink(t) => t in s.tasks && s.tasks[t].TierRecorded?
    case SweepList(t, id, hot, cold) => t !in s.tasks && id in rows && IsExpired(rows[id], hot, cold)
    case SweepUnlink(t) => t in s.tasks && s.tasks[t].Expiring?
    case SweepDelete(t) => t in s.tasks && s.tasks[t].Expired?
    case DiscardList(t, id, grace) => t !in s.tasks && id in rows && PastGrace(rows[id], grace)
    case DiscardUnlink(t, ok) => t in s.tasks && s.tasks[t].Discarding?
    case DiscardDelete(t) => t in s.tasks && s.tasks[t].Discarded?
    case QueryList(t, files, timeFrom, timeTo) =>
      t !in s.tasks && ListingOf(st, files, r => ToScan(r, timeFrom, timeTo))
    case QueryRead(t) => t in s.tasks && s.tasks[t].Querying? && MoreToRead(s.tasks[t])
    case Abort(t) => t in s.tasks
  }

  /** The active rows a query reads after pruning. */
  predicate ToScan(r: Row, timeFrom: int, timeTo: int) {
    r.state == Active && !Pruned(r.meta, timeFrom, timeTo)
  }

  ghost function Effect(s: Sys, a: Action): Sys
    requires Enabled(s, a)
  {
    var st := s.store;
    var rows := st.table.rows;
    match a
    case FlushWrite(t, m, events) => Goto(s, t, WriteLocal(st, m, events), Flushing(m, events))
    case FlushInsert(t) =>
      (match InsertFile(st, s.tasks[t].meta, s.tasks[t].events)
       case None => End(s, t, st)
       case Some(st') => End(s, t, st'))
    case CompactList(t, service, bucket, files) =>
      Goto(s, t, st, Compacting(Bucket(service, bucket), files, [], [], []))
    case CompactRead(t) =>
      var Compacting(b, files, contents, metas, chunks) := s.tasks[t];
      (match ReadPath(st, files[|contents|].path)
       case None => End(s, t, st)
       case Some(r) => Goto(s, t, st, Compacting(b, files, contents + [r], metas, chunks)))
    case CompactWrite(t, m, chunk) =>
      var Compacting(b, files, contents, metas, chunks) := s.tasks[t];
      Goto(s, t, WriteLocal(st, m, chunk), Compacting(b, files, contents, metas + [m], chunks + [chunk]))
    case CompactSwap(t, now) =>
      var Compacting(b, files, contents, metas, chunks) := s.tasks[t];
      GotoIf(s, t, SwapFiles(st, Ids(files), metas, chunks, now), Unlinking(files))
    case CompactUnlink(t, ok) =>
      var files := s.tasks[t].files;
      Goto(s, t, if ok then RemoveLocal(st, files[0].path) else st, Unlinking(files[1..]))
    case TierList(t, id, cut) => Goto(s, t, st, TierListed(Listed(id, rows[id].meta.path)))
    case TierReadFile(t) =>
      var f := s.tasks[t].file;
      (match ReadPath(st, f.path)
       case None => End(s, t, st)
       case Some(bytes) => Goto(s, t, st, TierRead(f, bytes)))
    case TierUpload(t) =>
      var TierRead(f, bytes) := s.tasks[t];
      Goto(s, t, Upload(st, f, bytes), TierUploaded(f))
    case TierSetCold(t) => GotoIf(s, t, RecordCold(st, s.tasks[t].file), TierRecorded(s.tasks[t].file))
    case TierUnlink(t) => End(s, t, RemoveLocal(st, s.tasks[t].file.path))
    case SweepList(t, id, hot, cold) =>
      var r := rows[id];
      Goto(s, t, st.(expired := st.expired[id := if r.tier == Hot then hot else cold]),
           Expiring(Listed(id, r.meta.path), r.tier))
    case SweepUnlink(t) =>
      var Expiring(f, tier) := s.tasks[t];
      Goto(s, t, RemoveExpired(st, f, tier), Expired(f))
    case SweepDelete(t) => End(s, t, DeleteRow(st, s.tasks[t].file.id))
    case DiscardList(t, id, grace) => Goto(s, t, st, Discarding(Listed(id, rows[id].meta.path)))
    case DiscardUnlink(t, ok) =>
      var f := s.tasks[t].file;
      Goto(s, t, if ok then RemoveLocal(st, f.path) else st, Discarded(f))
    case DiscardDelete(t) => End(s, t, DeleteRow(st, s.tasks[t].file.id))
    case QueryList(t, files, timeFrom, timeTo) => Goto(s, t, st, Querying(files, []))
    case QueryRead(t) =>
      var Querying(files, contents) := s.tasks[t];
      (match ReadPath(st, files[|contents|].path)
       case None => End(s, t, st)
       case Some(r) => Goto(s, t, st, Querying(files, contents + [r])))
    case Abort(t) => End(s, t, st)
  }

  ghost function Apply(s: Sys, a: Action): Sys {
    if Enabled(s, a) then Effect(s, a) else s
  }

  /** The state after any schedule of steps; a step that is not enabled does nothing. */
  ghost function Run(s: Sys, schedule: seq<Action>): Sys {
    if schedule == [] then s else Apply(Run(s, schedule[..|schedule| - 1]), Last(schedule))
  }
}
