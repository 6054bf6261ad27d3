/** A compaction that read a file before it was swept brings its rows back. */
module SweptRows {
  import opened Base
  import opened Dedup
  import opened Catalog
  import opened Compaction
  import opened Lifecycle
  import opened LifecycleSafety
  import opened LifecycleTheorems
  import N = Node

  // Two flushed files with one event each are listed and read by a compaction; the first, older
  // one expires and is swept; then the compaction writes its file and swaps.

  function PathOf(b: Bucket, uuid: nat): Path {
    Local(b.service, b.hour, uuid)
  }

  function MetaOf(b: Bucket, e: Event, uuid: nat): Meta {
    OneRow(PathOf(b, uuid), e)
  }

  function PairMeta(b: Bucket, e: Event, f: Event): Meta {
    Meta(PathOf(b, 2), b.service, b.hour, e.timestamp, f.timestamp, 0, 2,
         Min(e.key.offset, f.key.offset), Max(e.key.offset, f.key.offset))
  }

  function BothListed(b: Bucket): seq<Listed> {
    [Listed(1, PathOf(b, 0)), Listed(2, PathOf(b, 1))]
  }

  lemma PairMetaIsSound(b: Bucket, e: Event, f: Event)
    requires e.timestamp < f.timestamp
    ensures MetaSound(PairMeta(b, e, f), [e, f])
  {
    assert e in [e, f] && f in [e, f];
    assert Attains([e, f], Timestamp, Cell(e, Timestamp)) && Attains([e, f], Timestamp, Cell(f, Timestamp));
    assert Attains([e, f], KafkaOffset, Cell(e, KafkaOffset)) && Attains([e, f], KafkaOffset, Cell(f, KafkaOffset));
  }

  // ----- The states of the run -----

  function Rows1(b: Bucket, e: Event): map<int, Row> {
    map[1 := NewRow(MetaOf(b, e, 0))]
  }

  function Rows2(b: Bucket, e: Event, f: Event): map<int, Row> {
    Rows1(b, e)[2 := NewRow(MetaOf(b, f, 1))]
  }

  function Origins(b: Bucket, e: Event, f: Event): map<int, Origin> {
    map[1 := Origin(MetaOf(b, e, 0), [e]), 2 := Origin(MetaOf(b, f, 1), [f])]
  }

  /** Both files are flushed. */
  function Flushed2(b: Bucket, e: Event, f: Event): Store {
    Store(Table(Rows2(b, e, f), 3), map[PathOf(b, 0) := [e], PathOf(b, 1) := [f]], map[],
          Origins(b, e, f), {0, 1}, map[])
  }

  /** The first file and its row are gone. */
  function Swept(b: Bucket, e: Event, f: Event): Store {
    Store(Table(map[2 := NewRow(MetaOf(b, f, 1))], 3), map[PathOf(b, 1) := [f]], map[], Origins(b, e, f), {0, 1},
          map[1 := e.timestamp + 1])
  }

  /** The compaction, still holding what it read, has written its file. */
  function Written(b: Bucket, e: Event, f: Event): Sys {
    Sys(Swept(b, e, f).(local := map[PathOf(b, 1) := [f], PathOf(b, 2) := [e, f]], uuids := {0, 1, 2}),
        map[1 := Compacting(b, BothListed(b), [[e], [f]], [PairMeta(b, e, f)], [[e, f]])])
  }

  lemma RegisterOne(origin: map<int, Origin>, first: int, m: Meta, rows: File)
    ensures Register(origin, first, [m], [rows]) == origin[first := Origin(m, rows)]
  {
  }

  lemma WriteAndInsert(s: Sys, m: Meta, e: Event)
    requires 0 !in s.tasks && m.service == e.service && FreshFile(s.store, m, [e])
    requires !PathTaken(s.store.table.rows, m.path)
    ensures Apply(Apply(s, FlushWrite(0, m, [e])), FlushInsert(0)) ==
            Sys(s.store.(
                  table := Table(s.store.table.rows[s.store.table.nextId := NewRow(m)], s.store.table.nextId + 1),
                  local := s.store.local[m.path := [e]], uuids := s.store.uuids + {m.path.uuid},
                  origin := s.store.origin[s.store.table.nextId := Origin(m, [e])]), s.tasks)
  {
    hide MetaSound;
    var u := Apply(s, FlushWrite(0, m, [e]));
    assert u == Goto(s, 0, WriteLocal(s.store, m, [e]), Flushing(m, [e]));
    RegisterOne(s.store.origin, s.store.table.nextId, m, [e]);
    assert u.tasks - {0} == s.tasks;
  }

  lemma BothFlushed(b: Bucket, e: Event, f: Event) returns (schedule: seq<Action>)
    requires b.service == e.service == f.service
    ensures Run(INIT, schedule) == Sys(Flushed2(b, e, f), map[])
    ensures forall a :: a in schedule && a.FlushWrite? ==>
              (a.events == [e] || a.events == [f]) && a.meta == MetaOf(b, a.events[0], a.meta.path.uuid)
  {
    hide Run, Apply, MetaSound;
    OneRowIsSound(PathOf(b, 0), e);
    OneRowIsSound(PathOf(b, 1), f);
    var a := [FlushWrite(0, MetaOf(b, e, 0), [e]), FlushInsert(0)];
    var c := [FlushWrite(0, MetaOf(b, f, 1), [f]), FlushInsert(0)];
    WriteAndInsert(INIT, MetaOf(b, e, 0), e);
    var s := Apply(Apply(INIT, a[0]), a[1]);
    assert s.store.table == Table(Rows1(b, e), 2);
    WriteAndInsert(s, MetaOf(b, f, 1), f);
    RunsOn(INIT, [], a[0], a[1]);
    RunsOn(INIT, [] + [a[0]] + [a[1]], c[0], c[1]);
    schedule := [] + [a[0]] + [a[1]] + [c[0]] + [c[1]];
    assert Run(INIT, []) == INIT by {
      RunOfNothing(INIT);
    }
    var t := Apply(Apply(s, c[0]), c[1]);
    assert t.store.table.rows == Rows2(b, e, f);
    assert t.store.origin == Origins(b, e, f);
    assert t == Sys(Flushed2(b, e, f), map[]);
  }

  lemma RunOfNothing(s: Sys)
    ensures Run(s, []) == s
  {
  }

  lemma RunsOn(s: Sys, schedule: seq<Action>, a: Action, b: Action)
    ensures Run(s, schedule + [a] + [b]) == Apply(Apply(Run(s, schedule), a), b)
  {
    hide Apply;
    assert (schedule + [a] + [b])[..|schedule| + 1] == schedule + [a];
    assert (schedule + [a])[..|schedule|] == schedule;
  }

  /** The compaction lists both files and reads them. */
  lemma ListAndRead(b: Bucket, e: Event, f: Event)
    ensures var s := Sys(Flushed2(b, e, f), map[]);
            Apply(Apply(Apply(s, CompactList(1, b.service, b.hour, BothListed(b))), CompactRead(1)), CompactRead(1)) ==
            Sys(Flushed2(b, e, f), map[1 := Compacting(b, BothListed(b), [[e], [f]], [], [])])
  {
    var s := Sys(Flushed2(b, e, f), map[]);
    var files := BothListed(b);
    forall id | id in s.store.table.rows ensures Listed(id, s.store.table.rows[id].meta.path) in files {
      assert id == 1 || id == 2;
      assert files[0] in files && files[1] in files;
    }
    assert ListingOf(s.store, files, r => InBucket(r, b.service, b.hour));
    N.ListStep(s, 1, b.service, b.hour, files);
    ReadBoth(b, e, f, Goto(s, 1, s.store, Compacting(b, files, [], [], [])));
  }

  lemma ReadBoth(b: Bucket, e: Event, f: Event, u: Sys)
    requires u == Sys(Flushed2(b, e, f), map[1 := Compacting(b, BothListed(b), [], [], [])])
    ensures Apply(Apply(u, CompactRead(1)), CompactRead(1)) ==
            Sys(Flushed2(b, e, f), map[1 := Compacting(b, BothListed(b), [[e], [f]], [], [])])
  {
    hide Apply;
    var files := BothListed(b);
    N.ReadStep(u, 1, b, files, [], [e]);
    assert [] + [[e]] == [[e]];
    var v := Apply(u, CompactRead(1));
    N.ReadStep(v, 1, b, files, [[e]], [f]);
    assert [[e]] + [[f]] == [[e], [f]];
  }

  /** The first file is old, and swept. */
  lemma SweepFirst(b: Bucket, e: Event, f: Event, tasks: map<nat, Task>)
    requires 2 !in tasks
    ensures var s := Sys(Flushed2(b, e, f), tasks);
            Apply(Apply(Apply(s, SweepList(2, 1, e.timestamp + 1, I64_MIN)), SweepUnlink(2)), SweepDelete(2)) ==
            Sys(Swept(b, e, f), tasks)
  {
    hide Apply, Flushed2, Swept, RemoveExpired, DeleteRow, PathOf;
    var s := Sys(Flushed2(b, e, f), tasks);
    SweepListStep(b, e, f, tasks);
    var file := Listed(1, PathOf(b, 0));
    var u := Apply(s, SweepList(2, 1, e.timestamp + 1, I64_MIN));
    N.SweepSteps(u, 2, file, Hot, true);
    N.SweepSteps(Apply(u, SweepUnlink(2)), 2, file, Hot, true);
    SweptStore(b, e, f);
    assert (tasks[2 := Expiring(file, Hot)])[2 := Expired(file)] - {2} == tasks;
  }

  lemma SweptStore(b: Bucket, e: Event, f: Event)
    ensures var st := Flushed2(b, e, f).(expired := map[1 := e.timestamp + 1]);
            DeleteRow(RemoveExpired(st, Listed(1, PathOf(b, 0)), Hot), 1) == Swept(b, e, f)
  {
    assert Flushed2(b, e, f).local - {PathOf(b, 0)} == map[PathOf(b, 1) := [f]];
    assert Rows2(b, e, f) - {1} == map[2 := NewRow(MetaOf(b, f, 1))];
  }

  lemma SweepListStep(b: Bucket, e: Event, f: Event, tasks: map<nat, Task>)
    requires 2 !in tasks
    ensures var s := Sys(Flushed2(b, e, f), tasks);
            Apply(s, SweepList(2, 1, e.timestamp + 1, I64_MIN)) ==
            Goto(s, 2, s.store.(expired := map[1 := e.timestamp + 1]), Expiring(Listed(1, PathOf(b, 0)), Hot))
  {
  }

  lemma WriteChunk(b: Bucket, e: Event, f: Event)
    requires e.timestamp < f.timestamp
    ensures Apply(Sys(Swept(b, e, f), map[1 := Compacting(b, BothListed(b), [[e], [f]], [], [])]),
                  CompactWrite(1, PairMeta(b, e, f), [e, f])) == Written(b, e, f)
  {
    hide MetaSound;
    PairMetaIsSound(b, e, f);
    var s := Sys(Swept(b, e, f), map[1 := Compacting(b, BothListed(b), [[e], [f]], [], [])]);
    assert FreshFile(s.store, PairMeta(b, e, f), [e, f]);
    assert Apply(s, CompactWrite(1, PairMeta(b, e, f), [e, f])) ==
      Goto(s, 1, WriteLocal(s.store, PairMeta(b, e, f), [e, f]),
           Compacting(b, BothListed(b), [[e], [f]], [] + [PairMeta(b, e, f)], [] + [[e, f]]));
    assert [] + [PairMeta(b, e, f)] == [PairMeta(b, e, f)] && [] + [[e, f]] == [[e, f]];
    assert WriteLocal(s.store, PairMeta(b, e, f), [e, f]) == Written(b, e, f).store;
  }

  lemma CanSwap(b: Bucket, e: Event, f: Event)
    requires e.key != f.key && e.timestamp < f.timestamp
    ensures Enabled(Written(b, e, f), CompactSwap(1, 0))
  {
    assert Flatten([[e], [f]]) == [e, f] by {
      FlattenSnoc([[e]], [f]);
      FlattenSnoc([], [e]);
      assert [[e]] + [[f]] == [[e], [f]] && [] + [[e]] == [[e]] && [e] + [f] == [e, f];
    }
    assert Flatten([[e, f]]) == [e, f] by {
      assert [[e, f]][1..] == [];
    }
    PairIsCompacted(e, f);
  }

  lemma PairIsCompacted(e: Event, f: Event)
    requires e.key != f.key && e.timestamp < f.timestamp
    ensures IsCompaction([e, f], [e, f])
  {
    forall x | x in [e, f] ensures HasNoLater([e, f], x) {
    }
  }

  /** The store after the swap. */
  function Swapped3(b: Bucket, e: Event, f: Event): Store {
    Written(b, e, f).store.(
      table := Table(map[2 := NewRow(MetaOf(b, f, 1)).(state := Superseded), 3 := NewRow(PairMeta(b, e, f))], 4),
      origin := Origins(b, e, f)[3 := Origin(PairMeta(b, e, f), [e, f])])
  }

  lemma SwapStore(b: Bucket, e: Event, f: Event)
    ensures SwapFiles(Written(b, e, f).store, Ids(BothListed(b)), [PairMeta(b, e, f)], [[e, f]], 0)
         == Some(Swapped3(b, e, f))
  {
    var st := Written(b, e, f).store;
    var m := PairMeta(b, e, f);
    assert [m][..0] == [] && !PathTaken(st.table.rows, m.path);
    RegisterOne(st.origin, 3, m, [e, f]);
    var rows := st.table.rows[3 := NewRow(m)];
    assert InsertAll(st.table, [m]) == Some(Table(rows, 4));
    assert Ids(BothListed(b)) == {1, 2} by {
      assert BothListed(b)[0].id == 1 && BothListed(b)[1].id == 2;
    }
    assert MarkSuperseded(rows, {1, 2}, 0) == Swapped3(b, e, f).table.rows;
  }

  lemma AfterSwap(b: Bucket, e: Event, f: Event)
    requires e.key != f.key && e.timestamp < f.timestamp
    ensures LiveRows(Written(b, e, f).store, [f])
    ensures LiveRows(Apply(Written(b, e, f), CompactSwap(1, 0)).store, [e, f])
  {
    hide SwapFiles, ReadyToSwap;
    var s := Written(b, e, f);
    CanSwap(b, e, f);
    SwapStore(b, e, f);
    N.SwapStep(s, 1, 0);
    OnlyLive(s.store, 2, [f]);
    OnlyLive(Swapped3(b, e, f), 3, [e, f]);
  }

  lemma OnlyLive(st: Store, id: int, rows: File)
    requires id in st.origin && Live(st, id) && st.origin[id].rows == rows
    requires forall other :: Live(st, other) ==> other == id
    ensures LiveRows(st, rows)
  {
    forall x ensures x in rows <==> Held(st, x) {
    }
  }

  /** Every file is labelled with the service of its first event and the hour of its earliest. */
  predicate Labelled(schedule: seq<Action>, hour: int -> string) {
    forall a :: a in schedule && a.FlushWrite? ==>
      a.events != [] && a.meta.service == a.events[0].service && a.meta.bucket == hour(a.meta.minTs)
  }

  /** The view shows a row again that the sweeper had removed: for any two events of one service
      and hour there is a run after whose swap e is back, while the view before had nothing of its
      key. */
  lemma SweptRowComesBack(e: Event, f: Event, hour: int -> string) returns (schedule: seq<Action>)
    requires e.key != f.key && e.timestamp < f.timestamp
    requires e.service == f.service && hour(e.timestamp) == hour(f.timestamp)
    ensures Labelled(schedule, hour)
    ensures var s := Run(INIT, schedule);
            && Enabled(s, CompactSwap(1, 0))
            && LiveRows(s.store, [f]) && LiveRows(Apply(s, CompactSwap(1, 0)).store, [e, f])
    ensures IsDedup([f], [f]) && IsDedup([e, f], [e, f]) && !Covers([f], [e, f])
  {
    hide Run, Apply, LiveRows, Enabled;
    var b := Bucket(e.service, hour(e.timestamp));
    schedule := BothFlushed(b, e, f);
    ListAndRead(b, e, f);
    RunsOn(INIT, schedule, CompactList(1, b.service, b.hour, BothListed(b)), CompactRead(1));
    schedule := schedule + [CompactList(1, b.service, b.hour, BothListed(b))] + [CompactRead(1)];
    SweepFirst(b, e, f, map[1 := Compacting(b, BothListed(b), [[e], [f]], [], [])]);
    RunsOn(INIT, schedule, CompactRead(1), SweepList(2, 1, e.timestamp + 1, I64_MIN));
    schedule := schedule + [CompactRead(1)] + [SweepList(2, 1, e.timestamp + 1, I64_MIN)];
    RunsOn(INIT, schedule, SweepUnlink(2), SweepDelete(2));
    schedule := schedule + [SweepUnlink(2)] + [SweepDelete(2)];
    WriteChunk(b, e, f);
    N.RunSnoc(INIT, schedule, CompactWrite(1, PairMeta(b, e, f), [e, f]));
    schedule := schedule + [CompactWrite(1, PairMeta(b, e, f), [e, f])];
    CanSwap(b, e, f);
    AfterSwap(b, e, f);
    PairViews(e, f);
  }

  lemma PairViews(e: Event, f: Event)
    requires e.key != f.key && e.timestamp < f.timestamp
    ensures IsDedup([f], [f]) && IsDedup([e, f], [e, f]) && !Covers([f], [e, f])
  {
    PairIsCompacted(e, f);
    assert f in [f] && HasNoLater([f], f);
    assert e in [e, f];
    assert !HasSame([f], e);
  }
}
