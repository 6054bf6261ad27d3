/** Invariants of the storage protocol, kept by every step of every interleaving. */
module LifecycleSafety {
  import opened Base
  import opened Dedup
  import opened Catalog
  import opened Compaction
  import opened Query
  import opened Lifecycle

  // ----- The store -----

  predicate Live(st: Store, id: int) {
    id in st.table.rows && st.table.rows[id].state == Active
  }

  function Home(st: Store, id: int): Path
    requires id in st.origin
  {
    st.origin[id].meta.path
  }

  /** The file was listed as expired under the retention cutoff of its tier. */
  predicate Old(st: Store, id: int) {
    id in st.expired
  }

  /** A row keeps the metadata it was registered with; only its path and tier move. */
  ghost predicate RowMatches(r: Row, o: Origin) {
    && r.meta == o.meta.(path := r.meta.path)
    && r.meta.path == (if r.tier == Hot then o.meta.path else ColdUri(o.meta.path))
  }

  ghost predicate TableOk(st: Store) {
    && ValidTable(st.table)
    && (forall id :: id in st.table.rows ==> id in st.origin && RowMatches(st.table.rows[id], st.origin[id]))
  }

  ghost predicate FileNamed(st: Store, m: Meta, rows: File) {
    && m.path.Local? && m.path.uuid in st.uuids
    && m.service == m.path.service && m.bucket == m.path.bucket
    && MetaSound(m, rows)
  }

  ghost predicate OriginOk(st: Store) {
    && (forall id :: id in st.origin ==> id < st.table.nextId && FileNamed(st, st.origin[id].meta, st.origin[id].rows))
    && (forall i, j :: i in st.origin && j in st.origin && i != j ==> Home(st, i) != Home(st, j))
    && (forall id :: id in st.expired ==> id in st.origin && st.origin[id].meta.maxTs < st.expired[id])
  }

  /** Whatever is stored under a registered path is the registered file, and the object store
      holds nothing else. */
  ghost predicate FilesOk(st: Store) {
    && (forall id :: id in st.origin && Home(st, id) in st.local ==> st.local[Home(st, id)] == st.origin[id].rows)
    && (forall id :: id in st.origin && ColdUri(Home(st, id)) in st.cold ==>
          st.cold[ColdUri(Home(st, id))] == st.origin[id].rows)
    && (forall p :: p in st.cold ==> IsColdHome(st, p))
    && (forall p :: p in st.local ==> p.Local?)
  }

  ghost predicate IsHome(st: Store, p: Path) {
    exists id :: id in st.origin && Home(st, id) == p
  }

  ghost predicate IsColdHome(st: Store, p: Path) {
    exists id :: id in st.origin && ColdUri(Home(st, id)) == p
  }

  predicate Present(st: Store, id: int)
    requires id in st.table.rows
  {
    var r := st.table.rows[id];
    if r.tier == Hot then r.meta.path in st.local else r.meta.path in st.cold
  }

  /** A live row points at nothing only if it was listed as expired. */
  ghost predicate LiveOk(st: Store) {
    forall id :: id in st.origin && Live(st, id) ==> Old(st, id) || Present(st, id)
  }

  ghost predicate StoreOk(st: Store) {
    TableOk(st) && OriginOk(st) && FilesOk(st) && LiveOk(st)
  }

  // ----- The tasks -----

  ghost predicate HomeListing(st: Store, f: Listed) {
    f.id in st.origin && f.path == Home(st, f.id)
  }

  ghost predicate KnownPath(st: Store, f: Listed) {
    f.id in st.origin && (f.path == Home(st, f.id) || f.path == ColdUri(Home(st, f.id)))
  }

  ghost predicate ReadOk(st: Store, files: seq<Listed>, contents: seq<File>) {
    && |contents| <= |files|
    && (forall i :: 0 <= i < |files| ==> KnownPath(st, files[i]))
    && (forall i :: 0 <= i < |contents| ==> contents[i] == st.origin[files[i].id].rows)
  }

  ghost predicate WrittenOk(st: Store, m: Meta, rows: File) {
    FileNamed(st, m, rows) && m.path in st.local && st.local[m.path] == rows
  }

  ghost predicate AllWrittenOk(st: Store, metas: seq<Meta>, chunks: seq<File>) {
    && |metas| == |chunks|
    && (forall i :: 0 <= i < |metas| ==> WrittenOk(st, metas[i], chunks[i]))
    && (forall i, j :: 0 <= i < j < |metas| ==> metas[i].path != metas[j].path)
  }

  /** What a task may still rely on about data that can be stale. */
  ghost predicate TaskOk(st: Store, task: Task) {
    match task
    case Flushing(m, events) => WrittenOk(st, m, events)
    case Compacting(b, files, contents, metas, chunks) =>
      && ReadOk(st, files, contents) && AllWrittenOk(st, metas, chunks)
      && (forall i :: 0 <= i < |files| ==> HomeListing(st, files[i]) && Filed(st.origin[files[i].id].meta, b))
      && (forall i :: 0 <= i < |metas| ==> Filed(metas[i], b))
    case Unlinking(files) => forall i :: 0 <= i < |files| ==> HomeListing(st, files[i]) && !Live(st, files[i].id)
    case TierListed(f) => HomeListing(st, f)
    case TierRead(f, bytes) => HomeListing(st, f) && bytes == st.origin[f.id].rows
    case TierUploaded(f) => HomeListing(st, f) && (ColdUri(f.path) in st.cold || Old(st, f.id))
    case TierRecorded(f) => HomeListing(st, f) && (Live(st, f.id) ==> st.table.rows[f.id].tier == Cold)
    case Expiring(f, tier) =>
      f.id in st.origin && Old(st, f.id) && f.path == (if tier == Hot then Home(st, f.id) else ColdUri(Home(st, f.id)))
    case Expired(f) => f.id in st.origin && Old(st, f.id)
    case Discarding(f) => KnownPath(st, f) && !Live(st, f.id)
    case Discarded(f) => f.id in st.origin && !Live(st, f.id)
    case Querying(files, contents) => ReadOk(st, files, contents)
  }

  /** The local files a task has written and not yet registered. */
  function Owned(task: Task): set<Path> {
    match task
    case Flushing(m, events) => {m.path}
    case Compacting(b, files, contents, metas, chunks) => set m | m in metas :: m.path
    case _ => {}
  }

  function OwnedBy(s: Sys, t: nat): set<Path> {
    if t in s.tasks then Owned(s.tasks[t]) else {}
  }

  ghost predicate NoHomeIn(st: Store, paths: set<Path>) {
    forall id :: id in st.origin ==> Home(st, id) !in paths
  }

  ghost predicate TasksOk(s: Sys) {
    && (forall t :: t in s.tasks ==> TaskOk(s.store, s.tasks[t]) && NoHomeIn(s.store, Owned(s.tasks[t])))
    && (forall t, u :: t in s.tasks && u in s.tasks && t != u ==> Owned(s.tasks[t]) !! Owned(s.tasks[u]))
  }

  ghost predicate Good(s: Sys) {
    StoreOk(s.store) && TasksOk(s)
  }

  // ----- What the other tasks see of a step -----

  /** Rows only ever leave service, rows in the object store stay there, history grows, and an
      object disappears only when its row has expired. */
  ghost predicate Evolves(st: Store, st': Store) {
    && st.uuids <= st'.uuids && (forall id :: Old(st, id) ==> Old(st', id))
    && (forall id :: id in st.origin ==> id in st'.origin && st'.origin[id] == st.origin[id])
    && (forall id :: id in st.origin && Live(st', id) ==>
          Live(st, id) && (st.table.rows[id].tier == Cold ==> st'.table.rows[id].tier == Cold))
    && (forall id :: id in st.origin && ColdUri(Home(st, id)) in st.cold ==>
          ColdUri(Home(st, id)) in st'.cold || Old(st', id))
  }

  ghost predicate Keeps(st: Store, st': Store, paths: set<Path>) {
    forall p :: p in paths && p in st.local ==> p in st'.local && st'.local[p] == st.local[p]
  }

  lemma Frame(st: Store, st': Store, task: Task)
    requires TaskOk(st, task) && Evolves(st, st') && Keeps(st, st', Owned(task))
    ensures TaskOk(st', task)
  {
    hide MetaSound;
    if task.Compacting? {
      forall i | 0 <= i < |task.metas| ensures WrittenOk(st', task.metas[i], task.chunks[i]) {
        assert WrittenOk(st, task.metas[i], task.chunks[i]);
        assert task.metas[i].path in Owned(task);
      }
    }
  }

  /** A step of task t keeps the invariant if the store stays in order and evolves as the other
      tasks expect, leaving their unregistered files alone. */
  lemma StepOfTask(s: Sys, s': Sys, t: nat)
    requires TasksOk(s) && StoreOk(s'.store) && Evolves(s.store, s'.store)
    requires forall u :: u in s'.tasks && u != t ==> u in s.tasks && s'.tasks[u] == s.tasks[u]
    requires forall u :: u in s.tasks && u != t ==>
               Keeps(s.store, s'.store, Owned(s.tasks[u])) && NoHomeIn(s'.store, Owned(s.tasks[u]))
    requires t in s'.tasks ==> TaskOk(s'.store, s'.tasks[t]) && NoHomeIn(s'.store, Owned(s'.tasks[t]))
    requires t in s'.tasks ==>
               forall u :: u in s.tasks && u != t ==> Owned(s'.tasks[t]) !! Owned(s.tasks[u])
    ensures Good(s')
  {
    hide MetaSound;
    forall u | u in s'.tasks && u != t ensures TaskOk(s'.store, s'.tasks[u]) {
      Frame(s.store, s'.store, s.tasks[u]);
    }
  }

  /** The step registers nothing and touches local files only by removing registered ones. */
  ghost predicate Quiet(st: Store, st': Store) {
    && Evolves(st, st') && StoreOk(st') && st'.origin == st.origin
    && (forall p :: p in st'.local && p in st.local ==> st'.local[p] == st.local[p])
    && (forall p :: p in st.local && p !in st'.local ==> IsHome(st, p))
  }

  lemma QuietKeeps(st: Store, st': Store, paths: set<Path>)
    requires Quiet(st, st') && NoHomeIn(st, paths)
    ensures Keeps(st, st', paths) && NoHomeIn(st', paths)
  {
  }

  lemma QuietGoto(s: Sys, t: nat, st': Store, task: Task)
    requires Good(s) && Quiet(s.store, st')
    requires TaskOk(st', task) && Owned(task) == OwnedBy(s, t)
    ensures Good(Goto(s, t, st', task))
  {
    hide StoreOk, Evolves, TaskOk, Owned;
    forall u | u in s.tasks {
      QuietKeeps(s.store, st', Owned(s.tasks[u]));
    }
    StepOfTask(s, Goto(s, t, st', task), t);
  }

  lemma QuietEnd(s: Sys, t: nat, st': Store)
    requires Good(s) && Quiet(s.store, st')
    ensures Good(End(s, t, st'))
  {
    forall u | u in s.tasks {
      QuietKeeps(s.store, st', Owned(s.tasks[u]));
    }
    StepOfTask(s, End(s, t, st'), t);
  }

  lemma SameStoreIsQuiet(st: Store)
    requires StoreOk(st)
    ensures Quiet(st, st)
  {
  }

  // ----- Store operations -----

  lemma WriteKeepsStore(st: Store, m: Meta, rows: File)
    requires StoreOk(st) && FreshFile(st, m, rows)
    ensures var w := WriteLocal(st, m, rows);
            StoreOk(w) && Evolves(st, w) && WrittenOk(w, m, rows) && NoHomeIn(w, {m.path})
  {
    hide MetaSound;
  }

  /** Files that were written under fresh names can always be registered: the UNIQUE
      constraint on paths never refuses them. */
  lemma FreshPathsAreNew(st: Store, metas: seq<Meta>, chunks: seq<File>)
    requires StoreOk(st) && AllWrittenOk(st, metas, chunks)
    requires forall i :: 0 <= i < |metas| ==> NoHomeIn(st, {metas[i].path})
    ensures NewPaths(st.table, metas)
  {
    forall i | 0 <= i < |metas| ensures !PathTaken(st.table.rows, metas[i].path) {
      assert WrittenOk(st, metas[i], chunks[i]);
    }
  }

  lemma OriginAfter(origin: map<int, Origin>, first: int, metas: seq<Meta>, chunks: seq<File>)
    requires |metas| == |chunks| && forall id :: id in origin ==> id < first
    ensures var after := Register(origin, first, metas, chunks);
            && (forall id :: id in after <==> id in origin || first <= id < first + |metas|)
            && (forall id :: id in origin ==> after[id] == origin[id])
            && (forall id :: first <= id < first + |metas| ==>
                 after[id] == Origin(metas[id - first], chunks[id - first]))
  {
  }

  /** The store after a swap, described row by row. */
  ghost predicate Swapped(st: Store, ids: set<int>, metas: seq<Meta>, chunks: seq<File>, st': Store)
    requires |metas| == |chunks|
  {
    var first := st.table.nextId;
    && st' == st.(table := st'.table, origin := st'.origin)
    && ValidTable(st'.table) && st'.table.nextId == first + |metas|
    && (forall id :: id in st'.table.rows <==> id in st.table.rows || first <= id < first + |metas|)
    && (forall id :: id in st.table.rows && id !in ids ==> st'.table.rows[id] == st.table.rows[id])
    && (forall id :: id in st.table.rows && id in ids ==>
          && st'.table.rows[id].state == Superseded
          && st'.table.rows[id].meta == st.table.rows[id].meta && st'.table.rows[id].tier == st.table.rows[id].tier)
    && (forall id :: first <= id < first + |metas| ==> st'.table.rows[id] == NewRow(metas[id - first]))
    && (forall id :: id in st'.origin <==> id in st.origin || first <= id < first + |metas|)
    && (forall id :: id in st.origin ==> st'.origin[id] == st.origin[id])
    && (forall id :: first <= id < first + |metas| ==> st'.origin[id] == Origin(metas[id - first], chunks[id - first]))
  }

  ghost predicate Registrable(st: Store, ids: set<int>, metas: seq<Meta>, chunks: seq<File>) {
    && StoreOk(st) && AllWrittenOk(st, metas, chunks)
    && (forall i :: 0 <= i < |metas| ==> NoHomeIn(st, {metas[i].path}))
    && (forall id :: id in ids ==> id in st.origin)
  }

  /** Of the store, a swap changes the table and the history. */
  lemma SwappedFrom(st: Store, ids: set<int>, metas: seq<Meta>, chunks: seq<File>, now: int, u: Table)
    requires |metas| == |chunks| && ValidTable(u) && SwapResult(st.table, ids, metas, now, u)
    requires forall id :: id in st.origin ==> id < st.table.nextId
    ensures Swapped(st, ids, metas, chunks,
                    st.(table := u, origin := Register(st.origin, st.table.nextId, metas, chunks)))
  {
    hide ValidTable, Register;
    OriginAfter(st.origin, st.table.nextId, metas, chunks);
  }

  lemma SwapSucceeds(st: Store, ids: set<int>, metas: seq<Meta>, chunks: seq<File>, now: int)
    requires Registrable(st, ids, metas, chunks)
    ensures SwapFiles(st, ids, metas, chunks, now).Some?
    ensures Swapped(st, ids, metas, chunks, SwapFiles(st, ids, metas, chunks, now).value)
  {
    FreshPathsAreNew(st, metas, chunks);
    SwapExact(st.table, ids, metas, now);
    var swapped := Swap(st.table, ids, metas, now);
    SwappedFrom(st, ids, metas, chunks, now, swapped.value);
  }

  lemma SwappedNames(st: Store, ids: set<int>, metas: seq<Meta>, chunks: seq<File>, st': Store)
    requires Registrable(st, ids, metas, chunks) && Swapped(st, ids, metas, chunks, st')
    ensures TableOk(st') && OriginOk(st')
  {
    hide MetaSound;
    var first := st.table.nextId;
    forall id | id in st'.origin ensures FileNamed(st', st'.origin[id].meta, st'.origin[id].rows) {
      if id !in st.origin {
        assert WrittenOk(st, metas[id - first], chunks[id - first]);
      }
    }
    forall i, j | i in st'.origin && j in st'.origin && i != j ensures Home(st', i) != Home(st', j) {
      if i !in st.origin {
        assert NoHomeIn(st, {metas[i - first].path});
      }
      if j !in st.origin {
        assert NoHomeIn(st, {metas[j - first].path});
      }
    }
  }

  lemma SwappedFiles(st: Store, ids: set<int>, metas: seq<Meta>, chunks: seq<File>, st': Store)
    requires Registrable(st, ids, metas, chunks) && Swapped(st, ids, metas, chunks, st')
    ensures FilesOk(st') && LiveOk(st')
  {
    hide MetaSound;
    var first := st.table.nextId;
    forall id | id in st'.origin && id !in st.origin
      ensures Home(st', id) in st'.local && st'.local[Home(st', id)] == st'.origin[id].rows
      ensures ColdUri(Home(st', id)) !in st'.cold
    {
      assert WrittenOk(st, metas[id - first], chunks[id - first]);
      assert NoHomeIn(st, {metas[id - first].path});
    }
    forall p | p in st'.cold ensures IsColdHome(st', p) {
      var id :| id in st.origin && ColdUri(Home(st, id)) == p;
      assert id in st'.origin;
    }
  }

  lemma SwapEvolves(st: Store, ids: set<int>, metas: seq<Meta>, chunks: seq<File>, st': Store)
    requires OriginOk(st) && |metas| == |chunks| && Swapped(st, ids, metas, chunks, st')
    requires forall id :: id in ids ==> id in st.origin
    ensures Evolves(st, st')
    ensures forall id :: id in ids ==> !Live(st', id)
  {
    hide MetaSound, ValidTable;
  }

  lemma SwapKeepsStore(st: Store, ids: set<int>, metas: seq<Meta>, chunks: seq<File>, st': Store)
    requires Registrable(st, ids, metas, chunks) && Swapped(st, ids, metas, chunks, st')
    ensures StoreOk(st') && Evolves(st, st')
    ensures forall id :: id in ids ==> !Live(st', id)
    ensures forall p :: IsHome(st', p) ==> IsHome(st, p) || exists m :: m in metas && m.path == p
  {
    hide TableOk, OriginOk, FilesOk, LiveOk, Evolves, FileNamed, WrittenOk;
    SwapEvolves(st, ids, metas, chunks, st');
    SwappedNames(st, ids, metas, chunks, st');
    SwappedFiles(st, ids, metas, chunks, st');
    forall p | IsHome(st', p) ensures IsHome(st, p) || exists m :: m in metas && m.path == p {
      var id :| id in st'.origin && Home(st', id) == p;
      if id !in st.origin {
        assert metas[id - st.table.nextId] in metas;
      }
    }
  }

  lemma InsertSucceeds(st: Store, m: Meta, events: File)
    requires StoreOk(st) && WrittenOk(st, m, events) && NoHomeIn(st, {m.path})
    ensures Registrable(st, {}, [m], [events])
    ensures InsertFile(st, m, events).Some?
    ensures Swapped(st, {}, [m], [events], InsertFile(st, m, events).value)
  {
    FreshPathsAreNew(st, [m], [events]);
    assert !PathTaken(st.table.rows, [m][0].path);
    OriginAfter(st.origin, st.table.nextId, [m], [events]);
    InsertOneMore(st.table, [], st.table, m);
  }

  lemma ColdHomesKept(st: Store, st': Store)
    requires StoreOk(st) && st'.origin == st.origin && forall p :: p in st'.cold ==> p in st.cold
    ensures forall p :: p in st'.cold ==> IsColdHome(st', p)
  {
    forall p | p in st'.cold ensures IsColdHome(st', p) {
      var i :| i in st.origin && ColdUri(Home(st, i)) == p;
      assert i in st'.origin && ColdUri(Home(st', i)) == p;
    }
  }

  /** No other row can own the object that tiering names, so set_cold is never refused. */
  lemma UriIsFree(st: Store, f: Listed)
    requires StoreOk(st) && HomeListing(st, f)
    ensures forall id :: id in st.table.rows && id != f.id ==> st.table.rows[id].meta.path != ColdUri(f.path)
  {
    hide MetaSound;
    forall id | id in st.table.rows && id != f.id ensures st.table.rows[id].meta.path != ColdUri(f.path) {
      assert RowMatches(st.table.rows[id], st.origin[id]);
      assert Home(st, id) != Home(st, f.id);
      assert FileNamed(st, st.origin[id].meta, st.origin[id].rows);
      assert FileNamed(st, st.origin[f.id].meta, st.origin[f.id].rows);
    }
  }

  lemma RecordColdSucceeds(st: Store, f: Listed)
    requires StoreOk(st) && HomeListing(st, f) && (ColdUri(f.path) in st.cold || Old(st, f.id))
    ensures RecordCold(st, f).Some?
    ensures var st' := RecordCold(st, f).value;
            Quiet(st, st') && (Live(st', f.id) ==> st'.table.rows[f.id].tier == Cold)
  {
    UriIsFree(st, f);
    if f.id in st.table.rows {
      ColdRowIsValid(st.table, f.id, ColdUri(f.path));
      ColdRowKeepsStore(st, f, SetCold(st.table, f.id, ColdUri(f.path)).value);
    } else {
      assert RecordCold(st, f) == Some(st);
    }
  }

  function ColdRow(r: Row, uri: Path): Row {
    r.(tier := Cold, meta := r.meta.(path := uri))
  }

  lemma ColdRowKeepsStore(st: Store, f: Listed, u: Table)
    requires StoreOk(st) && HomeListing(st, f) && (ColdUri(f.path) in st.cold || Old(st, f.id))
    requires f.id in st.table.rows && ValidTable(u)
    requires u == st.table.(rows := st.table.rows[f.id := ColdRow(st.table.rows[f.id], ColdUri(f.path))])
    ensures Quiet(st, st.(table := u)) && u.rows[f.id].tier == Cold
  {
    var st' := st.(table := u);
    ColdRowTableOk(st, f, st');
    ColdRowFilesOk(st, f, st');
    ColdRowEvolves(st, f, st');
  }

  lemma ColdRowEvolves(st: Store, f: Listed, st': Store)
    requires f.id in st.table.rows && st' == st.(table := st'.table)
    requires st'.table.rows == st.table.rows[f.id := ColdRow(st.table.rows[f.id], ColdUri(f.path))]
    ensures Evolves(st, st')
  {
  }

  lemma ColdRowFilesOk(st: Store, f: Listed, st': Store)
    requires StoreOk(st) && HomeListing(st, f) && (ColdUri(f.path) in st.cold || Old(st, f.id))
    requires f.id in st.table.rows && st' == st.(table := st'.table) && st'.table.nextId == st.table.nextId
    requires st'.table.rows == st.table.rows[f.id := ColdRow(st.table.rows[f.id], ColdUri(f.path))]
    ensures OriginOk(st') && FilesOk(st') && LiveOk(st')
  {
    hide MetaSound;
    ColdHomesKept(st, st');
  }

  lemma ColdRowTableOk(st: Store, f: Listed, st': Store)
    requires TableOk(st) && HomeListing(st, f) && f.id in st.table.rows && ValidTable(st'.table)
    requires st' == st.(table := st'.table)
    requires st'.table.rows == st.table.rows[f.id := ColdRow(st.table.rows[f.id], ColdUri(f.path))]
    ensures TableOk(st')
  {
    hide MetaSound;
    forall id | id in st'.table.rows ensures id in st'.origin && RowMatches(st'.table.rows[id], st'.origin[id]) {
      assert RowMatches(st.table.rows[id], st.origin[id]);
    }
  }

  lemma ColdRowIsValid(t: Table, id: int, uri: Path)
    requires ValidTable(t) && id in t.rows
    requires forall i :: i in t.rows && i != id ==> t.rows[i].meta.path != uri
    ensures SetCold(t, id, uri).Some? && ValidTable(SetCold(t, id, uri).value)
  {
  }

  /** Different registered files go to different objects. */
  lemma UrisDiffer(st: Store, i: int, j: int)
    requires OriginOk(st) && i in st.origin && j in st.origin && i != j
    ensures ColdUri(Home(st, i)) != ColdUri(Home(st, j))
  {
    hide MetaSound;
    assert Home(st, i) != Home(st, j);
    assert FileNamed(st, st.origin[i].meta, st.origin[i].rows);
    assert FileNamed(st, st.origin[j].meta, st.origin[j].rows);
  }

  lemma UploadFilesOk(st: Store, f: Listed, bytes: File)
    requires FilesOk(st) && OriginOk(st) && HomeListing(st, f) && bytes == st.origin[f.id].rows
    ensures FilesOk(Upload(st, f, bytes))
  {
    hide OriginOk;
    var st' := Upload(st, f, bytes);
    forall p | p in st'.cold ensures IsColdHome(st', p) {
      if p != ColdUri(f.path) {
        var id :| id in st.origin && ColdUri(Home(st, id)) == p;
        assert id in st'.origin && ColdUri(Home(st', id)) == p;
      } else {
        assert f.id in st'.origin && ColdUri(Home(st', f.id)) == p;
      }
    }
    forall id | id in st.origin && id != f.id ensures ColdUri(Home(st, id)) != ColdUri(f.path) {
      UrisDiffer(st, id, f.id);
    }
  }

  lemma UploadKeepsStore(st: Store, f: Listed, bytes: File)
    requires StoreOk(st) && HomeListing(st, f) && bytes == st.origin[f.id].rows
    ensures Quiet(st, Upload(st, f, bytes)) && ColdUri(f.path) in Upload(st, f, bytes).cold
  {
    hide MetaSound, FilesOk;
    UploadFilesOk(st, f, bytes);
  }

  /** A local file may go once its row has left service, moved to the object store, or expired. */
  lemma RemoveLocalKeepsStore(st: Store, id: int, path: Path)
    requires StoreOk(st) && id in st.origin && (path == Home(st, id) || path == ColdUri(Home(st, id)))
    requires Live(st, id) && st.table.rows[id].tier == Hot ==> Old(st, id)
    ensures Quiet(st, RemoveLocal(st, path))
  {
    hide MetaSound;
    RemoveLocalFilesOk(st, path);
    RemoveLocalLiveOk(st, id, path);
    assert path in st.local ==> IsHome(st, path);
    hide FilesOk, LiveOk;
  }

  lemma RemoveLocalFilesOk(st: Store, path: Path)
    requires StoreOk(st)
    ensures FilesOk(RemoveLocal(st, path))
  {
    hide TableOk, OriginOk, LiveOk;
    ColdHomesKept(st, RemoveLocal(st, path));
  }

  lemma RemoveLocalLiveOk(st: Store, id: int, path: Path)
    requires StoreOk(st) && id in st.origin && (path == Home(st, id) || path == ColdUri(Home(st, id)))
    requires Live(st, id) && st.table.rows[id].tier == Hot ==> Old(st, id)
    ensures LiveOk(RemoveLocal(st, path))
  {
    hide MetaSound, FilesOk;
    var st' := RemoveLocal(st, path);
    forall i | i in st'.origin && Live(st', i) ensures Old(st', i) || Present(st', i) {
      assert Old(st, i) || Present(st, i);
      assert RowMatches(st.table.rows[i], st.origin[i]);
      assert i != id ==> Home(st, i) != Home(st, id);
      assert FileNamed(st, st.origin[i].meta, st.origin[i].rows);
    }
  }

  lemma RemoveObjectKeepsStore(st: Store, id: int, path: Path)
    requires StoreOk(st) && id in st.origin && path == ColdUri(Home(st, id)) && Old(st, id)
    ensures Quiet(st, st.(cold := st.cold - {path}))
  {
    hide MetaSound, FilesOk, LiveOk;
    RemoveObjectFilesOk(st, path);
    RemoveObjectLiveOk(st, id, path);
    forall i | i in st.origin && i != id ensures ColdUri(Home(st, i)) != path {
      UrisDiffer(st, i, id);
    }
  }

  lemma RemoveObjectFilesOk(st: Store, path: Path)
    requires StoreOk(st)
    ensures FilesOk(st.(cold := st.cold - {path}))
  {
    hide TableOk, OriginOk, LiveOk;
    ColdHomesKept(st, st.(cold := st.cold - {path}));
  }

  lemma RemoveObjectLiveOk(st: Store, id: int, path: Path)
    requires StoreOk(st) && id in st.origin && path == ColdUri(Home(st, id)) && Old(st, id)
    ensures LiveOk(st.(cold := st.cold - {path}))
  {
    hide MetaSound, FilesOk, OriginOk;
    var st' := st.(cold := st.cold - {path});
    forall i | i in st'.origin && Live(st', i) ensures Old(st', i) || Present(st', i) {
      assert Old(st, i) || Present(st, i);
      assert RowMatches(st.table.rows[i], st.origin[i]);
      if i != id {
        UrisDiffer(st, i, id);
      }
    }
  }

  lemma DeleteRowKeepsStore(st: Store, id: int)
    requires StoreOk(st)
    ensures Quiet(st, DeleteRow(st, id))
  {
    hide MetaSound, FilesOk, OriginOk;
    var st' := DeleteRow(st, id);
    SameFilesOk(st, st');
    DeletedTableOk(st, id);
  }

  /** Files and history are as they were. */
  lemma SameFilesOk(st: Store, st': Store)
    requires OriginOk(st) && FilesOk(st)
    requires st'.origin == st.origin && st'.local == st.local && st'.cold == st.cold && st'.uuids == st.uuids
    requires st'.table.nextId == st.table.nextId && st'.expired == st.expired
    ensures OriginOk(st') && FilesOk(st')
  {
    hide MetaSound;
    forall p | p in st'.cold ensures IsColdHome(st', p) {
      var i :| i in st.origin && ColdUri(Home(st, i)) == p;
      assert i in st'.origin && ColdUri(Home(st', i)) == p;
    }
    forall i | i in st'.origin ensures FileNamed(st', st'.origin[i].meta, st'.origin[i].rows) {
      assert FileNamed(st, st.origin[i].meta, st.origin[i].rows);
    }
  }

  lemma DeletedTableOk(st: Store, id: int)
    requires TableOk(st) && LiveOk(st)
    ensures TableOk(DeleteRow(st, id)) && LiveOk(DeleteRow(st, id))
  {
  }

  lemma ExpireKeepsStore(st: Store, id: int, c: int)
    requires StoreOk(st) && id in st.origin && st.origin[id].meta.maxTs < c
    ensures Quiet(st, st.(expired := st.expired[id := c]))
  {
    hide MetaSound;
    var st' := st.(expired := st.expired[id := c]);
    ColdHomesKept(st, st');
  }

  // ----- The steps -----

  /** The step goes through as intended, and keeps the invariant. */
  ghost predicate GoesThrough(s: Sys, a: Action) {
    Enabled(s, a) ==> Good(Effect(s, a)) && Evolves(s.store, Effect(s, a).store)
  }

  lemma OwnedAreWritten(s: Sys, t: nat)
    requires TasksOk(s) && t in s.tasks
    ensures forall p :: p in Owned(s.tasks[t]) ==> p.Local? && p.uuid in s.store.uuids
  {
    var task := s.tasks[t];
    assert TaskOk(s.store, task);
    if task.Compacting? {
      forall p | p in Owned(task) ensures p.Local? && p.uuid in s.store.uuids {
        var i :| 0 <= i < |task.metas| && task.metas[i].path == p;
        assert WrittenOk(s.store, task.metas[i], task.chunks[i]);
      }
    }
  }

  /** Task t writes a fresh file and remembers to register it. */
  lemma WriteStep(s: Sys, t: nat, m: Meta, rows: File, task: Task)
    requires Good(s) && FreshFile(s.store, m, rows)
    requires TaskOk(WriteLocal(s.store, m, rows), task) && Owned(task) == OwnedBy(s, t) + {m.path}
    ensures Good(Goto(s, t, WriteLocal(s.store, m, rows), task))
  {
    hide StoreOk, Evolves, MetaSound;
    WriteKeepsStore(s.store, m, rows);
    forall u | u in s.tasks {
      OwnedAreWritten(s, u);
    }
    StepOfTask(s, Goto(s, t, WriteLocal(s.store, m, rows), task), t);
  }

  lemma FlushWriteKeeps(s: Sys, t: nat, m: Meta, events: File)
    requires Good(s)
    ensures GoesThrough(s, FlushWrite(t, m, events))
  {
    hide StoreOk, Evolves, MetaSound;
    if Enabled(s, FlushWrite(t, m, events)) {
      WriteKeepsStore(s.store, m, events);
      WriteStep(s, t, m, events, Flushing(m, events));
    }
  }

  lemma CompactWriteKeeps(s: Sys, t: nat, m: Meta, chunk: File)
    requires Good(s)
    ensures GoesThrough(s, CompactWrite(t, m, chunk))
  {
    hide StoreOk, Evolves, MetaSound;
    if Enabled(s, CompactWrite(t, m, chunk)) {
      var Compacting(b, files, contents, metas, chunks) := s.tasks[t];
      var task := Compacting(b, files, contents, metas + [m], chunks + [chunk]);
      WriteKeepsStore(s.store, m, chunk);
      OwnedAreWritten(s, t);
      Frame(s.store, WriteLocal(s.store, m, chunk), s.tasks[t]);
      WrittenSnoc(WriteLocal(s.store, m, chunk), metas, chunks, m, chunk);
      assert Owned(task) == Owned(s.tasks[t]) + {m.path} by {
        assert forall x :: x in metas + [m] <==> x in metas || x == m;
      }
      WriteStep(s, t, m, chunk, task);
    }
  }

  lemma WrittenSnoc(st: Store, metas: seq<Meta>, chunks: seq<File>, m: Meta, chunk: File)
    requires AllWrittenOk(st, metas, chunks) && WrittenOk(st, m, chunk)
    requires forall x :: x in metas ==> x.path != m.path
    ensures AllWrittenOk(st, metas + [m], chunks + [chunk])
  {
  }

  /** A transaction that registers the files task t has written. */
  lemma RegisterStep(s: Sys, t: nat, ids: set<int>, metas: seq<Meta>, chunks: seq<File>, st': Store)
    requires Good(s) && t in s.tasks && Owned(s.tasks[t]) == set m | m in metas :: m.path
    requires Registrable(s.store, ids, metas, chunks) && Swapped(s.store, ids, metas, chunks, st')
    ensures Good(End(s, t, st'))
    ensures forall task :: TaskOk(st', task) && Owned(task) == {} ==> Good(Goto(s, t, st', task))
  {
    hide StoreOk, Evolves, MetaSound;
    SwapKeepsStore(s.store, ids, metas, chunks, st');
    forall u | u in s.tasks && u != t ensures NoHomeIn(st', Owned(s.tasks[u])) {
      forall id | id in st'.origin ensures Home(st', id) !in Owned(s.tasks[u]) {
        assert IsHome(st', Home(st', id));
        if m :| m in metas && m.path == Home(st', id) {
          assert Home(st', id) in Owned(s.tasks[t]);
        }
      }
    }
    StepOfTask(s, End(s, t, st'), t);
    forall task | TaskOk(st', task) && Owned(task) == {} ensures Good(Goto(s, t, st', task)) {
      StepOfTask(s, Goto(s, t, st', task), t);
    }
  }

  lemma FlushInsertKeeps(s: Sys, t: nat)
    requires Good(s)
    ensures GoesThrough(s, FlushInsert(t))
  {
    hide StoreOk, Evolves, MetaSound;
    if Enabled(s, FlushInsert(t)) {
      var Flushing(m, events) := s.tasks[t];
      InsertSucceeds(s.store, m, events);
      var st' := InsertFile(s.store, m, events).value;
      SwapKeepsStore(s.store, {}, [m], [events], st');
      RegisterStep(s, t, {}, [m], [events], st');
    }
  }

  lemma SwapTask(
    s: Sys, t: nat, b: Bucket, files: seq<Listed>, contents: seq<File>, metas: seq<Meta>, chunks: seq<File>, now: int)
    requires Good(s) && t in s.tasks && s.tasks[t] == Compacting(b, files, contents, metas, chunks)
    ensures |metas| == |chunks| && SwapFiles(s.store, Ids(files), metas, chunks, now).Some?
    ensures var st' := SwapFiles(s.store, Ids(files), metas, chunks, now).value;
            Good(Goto(s, t, st', Unlinking(files))) && Evolves(s.store, st')
            && Registrable(s.store, Ids(files), metas, chunks) && Swapped(s.store, Ids(files), metas, chunks, st')
  {
    hide StoreOk, Evolves, MetaSound;
    assert TaskOk(s.store, s.tasks[t]);
    assert forall i :: 0 <= i < |metas| ==> metas[i].path in Owned(s.tasks[t]);
    SwapSucceeds(s.store, Ids(files), metas, chunks, now);
    var st' := SwapFiles(s.store, Ids(files), metas, chunks, now).value;
    SwapKeepsStore(s.store, Ids(files), metas, chunks, st');
    UnlinkingOk(s.store, st', files);
    RegisterStep(s, t, Ids(files), metas, chunks, st');
  }

  lemma UnlinkingOk(st: Store, st': Store, files: seq<Listed>)
    requires Evolves(st, st') && forall i :: 0 <= i < |files| ==> HomeListing(st, files[i])
    requires forall id :: id in Ids(files) ==> !Live(st', id)
    ensures TaskOk(st', Unlinking(files))
  {
    forall i | 0 <= i < |files| ensures HomeListing(st', files[i]) && !Live(st', files[i].id) {
      assert files[i].id in Ids(files);
    }
  }

  lemma CompactSwapKeeps(s: Sys, t: nat, now: int)
    requires Good(s)
    ensures GoesThrough(s, CompactSwap(t, now))
  {
    hide StoreOk, Evolves, MetaSound;
    if Enabled(s, CompactSwap(t, now)) {
      var Compacting(b, files, contents, metas, chunks) := s.tasks[t];
      SwapTask(s, t, b, files, contents, metas, chunks, now);
    }
  }

  // Listings: a row in the table names its file.

  lemma RowIsListed(st: Store, id: int)
    requires StoreOk(st) && id in st.table.rows
    ensures var f := Listed(id, st.table.rows[id].meta.path);
            KnownPath(st, f) && (st.table.rows[id].tier == Hot ==> HomeListing(st, f))
    ensures forall b :: Filed(st.table.rows[id].meta, b) <==> Filed(st.origin[id].meta, b)
  {
    assert RowMatches(st.table.rows[id], st.origin[id]);
  }

  lemma ReadsTheFile(st: Store, f: Listed)
    requires StoreOk(st) && KnownPath(st, f) && ReadPath(st, f.path).Some?
    ensures ReadPath(st, f.path).value == st.origin[f.id].rows
  {
    hide MetaSound;
    assert FileNamed(st, st.origin[f.id].meta, st.origin[f.id].rows);
  }

  lemma CompactListKeeps(s: Sys, t: nat, service: string, bucket: string, files: seq<Listed>)
    requires Good(s)
    ensures GoesThrough(s, CompactList(t, service, bucket, files))
  {
    hide StoreOk, Evolves, MetaSound;
    if Enabled(s, CompactList(t, service, bucket, files)) {
      var b := Bucket(service, bucket);
      forall i | 0 <= i < |files|
        ensures HomeListing(s.store, files[i]) && Filed(s.store.origin[files[i].id].meta, b)
      {
        assert files[i] in files;
        RowIsListed(s.store, files[i].id);
        assert Filed(s.store.table.rows[files[i].id].meta, b);
      }
      SameStoreIsQuiet(s.store);
      QuietGoto(s, t, s.store, Compacting(b, files, [], [], []));
    }
  }

  lemma QueryListKeeps(s: Sys, t: nat, files: seq<Listed>, timeFrom: int, timeTo: int)
    requires Good(s)
    ensures GoesThrough(s, QueryList(t, files, timeFrom, timeTo))
  {
    hide StoreOk, Evolves, MetaSound;
    if Enabled(s, QueryList(t, files, timeFrom, timeTo)) {
      forall i | 0 <= i < |files| ensures KnownPath(s.store, files[i]) {
        assert files[i] in files;
        RowIsListed(s.store, files[i].id);
      }
      SameStoreIsQuiet(s.store);
      QuietGoto(s, t, s.store, Querying(files, []));
    }
  }

  lemma NextRead(st: Store, files: seq<Listed>, contents: seq<File>)
    requires StoreOk(st) && ReadOk(st, files, contents) && |contents| < |files|
    ensures var r := ReadPath(st, files[|contents|].path);
            r.Some? ==> ReadOk(st, files, contents + [r.value])
  {
    hide MetaSound;
    if ReadPath(st, files[|contents|].path).Some? {
      ReadsTheFile(st, files[|contents|]);
    }
  }

  lemma CompactReadKeeps(s: Sys, t: nat)
    requires Good(s)
    ensures GoesThrough(s, CompactRead(t))
  {
    hide StoreOk, Evolves, MetaSound;
    if Enabled(s, CompactRead(t)) {
      var Compacting(b, files, contents, metas, chunks) := s.tasks[t];
      assert TaskOk(s.store, s.tasks[t]);
      SameStoreIsQuiet(s.store);
      NextRead(s.store, files, contents);
      var r := ReadPath(s.store, files[|contents|].path);
      if r.Some? {
        QuietGoto(s, t, s.store, Compacting(b, files, contents + [r.value], metas, chunks));
      } else {
        QuietEnd(s, t, s.store);
      }
    }
  }

  lemma QueryingOk(st: Store, files: seq<Listed>, contents: seq<File>)
    ensures TaskOk(st, Querying(files, contents)) <==> ReadOk(st, files, contents)
  {
  }

  lemma QueryReadKeeps(s: Sys, t: nat)
    requires Good(s)
    ensures GoesThrough(s, QueryRead(t))
  {
    hide StoreOk, Evolves, MetaSound, TaskOk, ReadOk;
    if Enabled(s, QueryRead(t)) {
      var Querying(files, contents) := s.tasks[t];
      QueryingOk(s.store, files, contents);
      SameStoreIsQuiet(s.store);
      NextRead(s.store, files, contents);
      var r := ReadPath(s.store, files[|contents|].path);
      if r.Some? {
        QueryingOk(s.store, files, contents + [r.value]);
        QuietGoto(s, t, s.store, Querying(files, contents + [r.value]));
      } else {
        QuietEnd(s, t, s.store);
      }
    }
  }

  lemma TierReadKeeps(s: Sys, t: nat)
    requires Good(s)
    ensures GoesThrough(s, TierReadFile(t))
  {
    hide StoreOk, Evolves, MetaSound;
    if Enabled(s, TierReadFile(t)) {
      var f := s.tasks[t].file;
      assert TaskOk(s.store, s.tasks[t]);
      SameStoreIsQuiet(s.store);
      if ReadPath(s.store, f.path).Some? {
        ReadsTheFile(s.store, f);
        QuietGoto(s, t, s.store, TierRead(f, ReadPath(s.store, f.path).value));
      } else {
        QuietEnd(s, t, s.store);
      }
    }
  }

  lemma AbortKeeps(s: Sys, t: nat)
    requires Good(s)
    ensures GoesThrough(s, Abort(t))
  {
    SameStoreIsQuiet(s.store);
    QuietEnd(s, t, s.store);
  }

  // Tiering

  lemma TierListKeeps(s: Sys, t: nat, id: int, cut: int)
    requires Good(s)
    ensures GoesThrough(s, TierList(t, id, cut))
  {
    hide StoreOk, Evolves, MetaSound;
    if Enabled(s, TierList(t, id, cut)) {
      RowIsListed(s.store, id);
      SameStoreIsQuiet(s.store);
      QuietGoto(s, t, s.store, TierListed(Listed(id, s.store.table.rows[id].meta.path)));
    }
  }

  lemma TierUploadKeeps(s: Sys, t: nat)
    requires Good(s)
    ensures GoesThrough(s, TierUpload(t))
  {
    hide StoreOk, Evolves, MetaSound;
    if Enabled(s, TierUpload(t)) {
      var TierRead(f, bytes) := s.tasks[t];
      UploadKeepsStore(s.store, f, bytes);
      QuietGoto(s, t, Upload(s.store, f, bytes), TierUploaded(f));
    }
  }

  lemma TierSetColdKeeps(s: Sys, t: nat)
    requires Good(s)
    ensures GoesThrough(s, TierSetCold(t))
  {
    hide StoreOk, Evolves, MetaSound;
    if Enabled(s, TierSetCold(t)) {
      var f := s.tasks[t].file;
      assert TaskOk(s.store, s.tasks[t]);
      RecordColdSucceeds(s.store, f);
      QuietGoto(s, t, RecordCold(s.store, f).value, TierRecorded(f));
    }
  }

  lemma TierUnlinkKeeps(s: Sys, t: nat)
    requires Good(s)
    ensures GoesThrough(s, TierUnlink(t))
  {
    hide StoreOk, Evolves, MetaSound;
    if Enabled(s, TierUnlink(t)) {
      var f := s.tasks[t].file;
      assert TaskOk(s.store, s.tasks[t]);
      RemoveLocalKeepsStore(s.store, f.id, f.path);
      QuietEnd(s, t, RemoveLocal(s.store, f.path));
    }
  }

  lemma CompactUnlinkKeeps(s: Sys, t: nat, ok: bool)
    requires Good(s)
    ensures GoesThrough(s, CompactUnlink(t, ok))
  {
    hide StoreOk, Evolves, MetaSound, TaskOk;
    if Enabled(s, CompactUnlink(t, ok)) {
      var files := s.tasks[t].files;
      FirstToUnlink(s.store, files);
      RemoveLocalKeepsStore(s.store, files[0].id, files[0].path);
      SameStoreIsQuiet(s.store);
      var st' := if ok then RemoveLocal(s.store, files[0].path) else s.store;
      Frame(s.store, st', Unlinking(files[1..]));
      QuietGoto(s, t, st', Unlinking(files[1..]));
    }
  }

  lemma FirstToUnlink(st: Store, files: seq<Listed>)
    requires TaskOk(st, Unlinking(files)) && files != []
    ensures HomeListing(st, files[0]) && !Live(st, files[0].id) && TaskOk(st, Unlinking(files[1..]))
  {
  }

  // Sweeping

  lemma RowIsExpiring(st: Store, id: int)
    requires StoreOk(st) && id in st.table.rows
    ensures id in st.origin && st.table.rows[id].meta.maxTs == st.origin[id].meta.maxTs
    ensures st.table.rows[id].meta.path ==
            if st.table.rows[id].tier == Hot then Home(st, id) else ColdUri(Home(st, id))
  {
    hide MetaSound;
    assert RowMatches(st.table.rows[id], st.origin[id]);
  }

  lemma SweepListKeeps(s: Sys, t: nat, id: int, hot: int, cold: int)
    requires Good(s)
    ensures GoesThrough(s, SweepList(t, id, hot, cold))
  {
    hide StoreOk, Evolves, MetaSound;
    if Enabled(s, SweepList(t, id, hot, cold)) {
      var r := s.store.table.rows[id];
      var c := if r.tier == Hot then hot else cold;
      RowIsExpiring(s.store, id);
      ExpireKeepsStore(s.store, id, c);
      QuietGoto(s, t, s.store.(expired := s.store.expired[id := c]), Expiring(Listed(id, r.meta.path), r.tier));
    }
  }

  lemma SweepUnlinkKeeps(s: Sys, t: nat)
    requires Good(s)
    ensures GoesThrough(s, SweepUnlink(t))
  {
    hide StoreOk, Evolves, MetaSound;
    if Enabled(s, SweepUnlink(t)) {
      var Expiring(f, tier) := s.tasks[t];
      assert TaskOk(s.store, s.tasks[t]);
      if tier == Cold {
        RemoveObjectKeepsStore(s.store, f.id, f.path);
      } else {
        RemoveLocalKeepsStore(s.store, f.id, f.path);
      }
      QuietGoto(s, t, RemoveExpired(s.store, f, tier), Expired(f));
    }
  }

  lemma RowGoes(s: Sys, t: nat, id: int)
    requires Good(s)
    ensures Good(End(s, t, DeleteRow(s.store, id))) && Evolves(s.store, DeleteRow(s.store, id))
  {
    hide StoreOk, Evolves, TasksOk;
    DeleteRowKeepsStore(s.store, id);
    QuietEnd(s, t, DeleteRow(s.store, id));
  }

  lemma DeleteKeeps(s: Sys, t: nat)
    requires Good(s)
    ensures GoesThrough(s, SweepDelete(t)) && GoesThrough(s, DiscardDelete(t))
  {
    hide Good, Evolves, DeleteRow;
    if t in s.tasks && (s.tasks[t].Expired? || s.tasks[t].Discarded?) {
      RowGoes(s, t, s.tasks[t].file.id);
    }
  }

  lemma DiscardListKeeps(s: Sys, t: nat, id: int, grace: int)
    requires Good(s)
    ensures GoesThrough(s, DiscardList(t, id, grace))
  {
    hide StoreOk, Evolves, MetaSound;
    if Enabled(s, DiscardList(t, id, grace)) {
      RowIsListed(s.store, id);
      SameStoreIsQuiet(s.store);
      QuietGoto(s, t, s.store, Discarding(Listed(id, s.store.table.rows[id].meta.path)));
    }
  }

  lemma DiscardingOk(st: Store, f: Listed)
    ensures TaskOk(st, Discarding(f)) <==> KnownPath(st, f) && !Live(st, f.id)
    ensures TaskOk(st, Discarding(f)) ==> TaskOk(st, Discarded(f))
  {
  }

  lemma DiscardUnlinkKeeps(s: Sys, t: nat, ok: bool)
    requires Good(s)
    ensures GoesThrough(s, DiscardUnlink(t, ok))
  {
    hide StoreOk, Evolves, MetaSound, TaskOk;
    if Enabled(s, DiscardUnlink(t, ok)) {
      var f := s.tasks[t].file;
      DiscardingOk(s.store, f);
      RemoveLocalKeepsStore(s.store, f.id, f.path);
      SameStoreIsQuiet(s.store);
      var st' := if ok then RemoveLocal(s.store, f.path) else s.store;
      DiscardingOk(st', f);
      Frame(s.store, st', Discarding(f));
      QuietGoto(s, t, st', Discarded(f));
    }
  }

  /** Every step of every task keeps the invariant, whatever the others are doing. */
  lemma StepKeepsGood(s: Sys, a: Action)
    requires Good(s)
    ensures Good(Apply(s, a)) && Evolves(s.store, Apply(s, a).store)
  {
    match a
    case FlushWrite(t, m, events) => FlushWriteKeeps(s, t, m, events);
    case FlushInsert(t) => FlushInsertKeeps(s, t);
    case CompactList(t, service, bucket, files) => CompactListKeeps(s, t, service, bucket, files);
    case CompactRead(t) => CompactReadKeeps(s, t);
    case CompactWrite(t, m, chunk) => CompactWriteKeeps(s, t, m, chunk);
    case CompactSwap(t, now) => CompactSwapKeeps(s, t, now);
    case CompactUnlink(t, ok) => CompactUnlinkKeeps(s, t, ok);
    case TierList(t, id, cut) => TierListKeeps(s, t, id, cut);
    case TierReadFile(t) => TierReadKeeps(s, t);
    case TierUpload(t) => TierUploadKeeps(s, t);
    case TierSetCold(t) => TierSetColdKeeps(s, t);
    case TierUnlink(t) => TierUnlinkKeeps(s, t);
    case SweepList(t, id, hot, cold) => SweepListKeeps(s, t, id, hot, cold);
    case SweepUnlink(t) => SweepUnlinkKeeps(s, t);
    case SweepDelete(t) => DeleteKeeps(s, t);
    case DiscardList(t, id, grace) => DiscardListKeeps(s, t, id, grace);
    case DiscardUnlink(t, ok) => DiscardUnlinkKeeps(s, t, ok);
    case DiscardDelete(t) => DeleteKeeps(s, t);
    case QueryList(t, files, timeFrom, timeTo) => QueryListKeeps(s, t, files, timeFrom, timeTo);
    case QueryRead(t) => QueryReadKeeps(s, t);
    case Abort(t) => AbortKeeps(s, t);
  }

  lemma {:induction false} EveryRunIsGood(schedule: seq<Action>)
    ensures Good(Run(INIT, schedule))
  {
    if schedule != [] {
      EveryRunIsGood(schedule[..|schedule| - 1]);
      StepKeepsGood(Run(INIT, schedule[..|schedule| - 1]), Last(schedule));
    }
  }
}
