/** What the trigger statistic says of a bucket in a reachable state, and that a compaction
    silences it. */
module Retrigger {
  import opened Base
  import opened Dedup
  import opened Catalog
  import opened Compaction
  import opened Buckets
  import opened Lifecycle
  import opened LifecycleSafety

  // ----- The statistic of a bucket in a reachable state -----

  function FilesOf(st: Store, ids: seq<int>): seq<File>
    requires forall i :: 0 <= i < |ids| ==> ids[i] in st.origin
  {
    seq(|ids|, i requires 0 <= i < |ids| => st.origin[ids[i]].rows)
  }

  lemma RowIsSound(st: Store, id: int)
    requires TableOk(st) && OriginOk(st) && id in st.table.rows
    ensures id in st.origin && MetaSound(st.table.rows[id].meta, st.origin[id].rows)
  {
    assert RowMatches(st.table.rows[id], st.origin[id]);
    assert FileNamed(st, st.origin[id].meta, st.origin[id].rows);
  }

  /** In every reachable state, the statistic of a bucket fed by one partition never exceeds the
      true share of duplicates in the bucket's active hot files. */
  lemma {:induction false} StatIsSound(schedule: seq<Action>, s: BucketStats, ids: seq<int>, p: int)
    requires var st := Run(INIT, schedule).store;
             IsStatOf(st.table.rows, s, ids) && OnePartition(st, ids, p)
    ensures var st := Run(INIT, schedule).store;
            && (forall i :: 0 <= i < |ids| ==> ids[i] in st.origin)
            && 0.0 <= s.density <= 1.0 && s.density <= DuplicateFraction(Flatten(FilesOf(st, ids)))
  {
    EveryRunIsGood(schedule);
    var st := Run(INIT, schedule).store;
    hide Run, TasksOk, FilesOk, LiveOk, MetaSound, TableOk, OriginOk, Lists, DuplicateFraction, Density, Estimates;
    StatParts(st.table.rows, s, ids);
    forall i | 0 <= i < |ids|
      ensures ids[i] in st.origin && MetaSound(st.table.rows[ids[i]].meta, st.origin[ids[i]].rows)
    {
      RowIsSound(st, ids[i]);
    }
    var metas, files := MetasOf(st.table.rows, ids), FilesOf(st, ids);
    AllOfPartition(st, ids, p);
    DensityIsSound(metas, files, p);
    EstimatesIff(s.density, s.totalRecords, Span(metas));
  }

  ghost predicate OnePartition(st: Store, ids: seq<int>, p: int) {
    forall i, e :: 0 <= i < |ids| && ids[i] in st.origin && e in st.origin[ids[i]].rows ==> e.key.partition == p
  }

  lemma AllOfPartition(st: Store, ids: seq<int>, p: int)
    requires OnePartition(st, ids, p) && forall i :: 0 <= i < |ids| ==> ids[i] in st.origin
    ensures forall e :: e in Flatten(FilesOf(st, ids)) ==> e.key.partition == p
  {
    var files := FilesOf(st, ids);
    forall e: Event | e in Flatten(files) ensures e.key.partition == p {
      FlattenMember(files, e);
      var i :| 0 <= i < |files| && e in files[i];
    }
  }

  // ----- Files picked from a deduplicated whole -----

  lemma FlattenParts(a: seq<File>, m: File, b: seq<File>)
    ensures Flatten(a + [m] + b) == Flatten(a) + m + Flatten(b)
  {
    hide Flatten;
    FlattenSnoc(a, m);
    FlattenConcat(a + [m], b);
  }

  lemma SplitAt(chunks: seq<File>, k: nat)
    requires k < |chunks|
    ensures Flatten(chunks) == Flatten(chunks[..k]) + chunks[k] + Flatten(chunks[k + 1..])
  {
    hide Flatten;
    var a, b := chunks[..k], chunks[k + 1..];
    FlattenParts(a, chunks[k], b);
    Rejoin(chunks, k, a, b);
  }

  lemma Rejoin(chunks: seq<File>, k: nat, a: seq<File>, b: seq<File>)
    requires k < |chunks| && a == chunks[..k] && b == chunks[k + 1..]
    ensures a + [chunks[k]] + b == chunks
  {
  }

  lemma PartsHaveDistinctKeys(a: seq<Event>, b: seq<Event>, c: seq<Event>)
    requires DistinctKeys(a + b + c)
    ensures DistinctKeys(b) && forall e, f :: e in a && f in b ==> e.key != f.key
  {
    var whole := a + b + c;
    forall i, j | 0 <= i < j < |b| ensures b[i].key != b[j].key {
      assert whole[|a| + i] == b[i] && whole[|a| + j] == b[j];
    }
    forall e: Event, f: Event | e in a && f in b ensures e.key != f.key {
      var i :| 0 <= i < |a| && a[i] == e;
      var j :| 0 <= j < |b| && b[j] == f;
      assert whole[i] == e && whole[|a| + j] == f;
    }
  }

  lemma DifferentChunksDifferentKeys(chunks: seq<File>, i: nat, j: nat, e: Event, f: Event)
    requires DistinctKeys(Flatten(chunks)) && i < j < |chunks| && e in chunks[i] && f in chunks[j]
    ensures e.key != f.key
  {
    hide DistinctKeys, Flatten;
    SplitAt(chunks, j);
    PartsHaveDistinctKeys(Flatten(chunks[..j]), chunks[j], Flatten(chunks[j + 1..]));
    assert chunks[..j][i] == chunks[i];
    FlattenMember(chunks[..j], e);
  }

  lemma ChunkHasDistinctKeys(chunks: seq<File>, k: nat)
    requires DistinctKeys(Flatten(chunks)) && k < |chunks|
    ensures DistinctKeys(chunks[k])
  {
    hide DistinctKeys, Flatten;
    SplitAt(chunks, k);
    PartsHaveDistinctKeys(Flatten(chunks[..k]), chunks[k], Flatten(chunks[k + 1..]));
  }

  function Pick(chunks: seq<File>, ks: seq<nat>): seq<File>
    requires forall i :: 0 <= i < |ks| ==> ks[i] < |chunks|
  {
    seq(|ks|, i requires 0 <= i < |ks| => chunks[ks[i]])
  }

  lemma {:induction false} PickedKeysDiffer(chunks: seq<File>, ks: seq<nat>)
    requires DistinctKeys(Flatten(chunks)) && forall i :: 0 <= i < |ks| ==> ks[i] < |chunks|
    requires forall i, j :: 0 <= i < j < |ks| ==> ks[i] != ks[j]
    ensures DistinctKeys(Flatten(Pick(chunks, ks)))
  {
    if ks != [] {
      var n := |ks| - 1;
      var init, last := Pick(chunks, ks[..n]), chunks[ks[n]];
      PickedKeysDiffer(chunks, ks[..n]);
      ChunkHasDistinctKeys(chunks, ks[n]);
      forall e: Event, f: Event | e in Flatten(init) && f in last ensures e.key != f.key {
        FlattenMember(init, e);
        var i :| 0 <= i < n && e in init[i];
        if ks[i] < ks[n] {
          DifferentChunksDifferentKeys(chunks, ks[i], ks[n], e, f);
        } else {
          DifferentChunksDifferentKeys(chunks, ks[n], ks[i], f, e);
        }
      }
      assert Pick(chunks, ks) == init + [last];
      FlattenSnoc(init, last);
    }
  }

  // ----- The bucket after the swap -----

  /** What is active and hot in the bucket after the swap was written by the compaction, if
      nothing but the files it listed was in the bucket before. */
  lemma OnlyNewFiles(
    st: Store, files: seq<Listed>, metas: seq<Meta>, chunks: seq<File>, st': Store,
    service: string, bucket: string, id: int)
    requires |metas| == |chunks| && Swapped(st, Ids(files), metas, chunks, st')
    requires forall i :: i in st.table.rows && InBucket(st.table.rows[i], service, bucket) ==> i in Ids(files)
    requires id in st'.table.rows && InBucket(st'.table.rows[id], service, bucket)
    ensures st.table.nextId <= id < st.table.nextId + |metas|
    ensures st'.table.rows[id].meta == metas[id - st.table.nextId]
    ensures id in st'.origin && st'.origin[id].rows == chunks[id - st.table.nextId]
  {
    hide ValidTable;
  }

  /** In a bucket of one partition, with nothing flushed into it since the listing, the duplicate
      density is zero right after the swap: no positive ratio triggers on it. */
  lemma {:induction false} CompactionSilencesTrigger(
    schedule: seq<Action>, t: nat, now: int, s: BucketStats, p: int)
    requires var sys := Run(INIT, schedule);
             && Enabled(sys, CompactSwap(t, now))
             && (forall i :: i in sys.store.table.rows && InBucket(sys.store.table.rows[i], s.service, s.bucket) ==>
                   i in Ids(sys.tasks[t].files))
             && (forall e :: e in Flatten(sys.tasks[t].contents) ==> e.key.partition == p)
    requires IsStat(Apply(Run(INIT, schedule), CompactSwap(t, now)).store.table.rows, s)
    ensures s.density == 0.0
  {
    EveryRunIsGood(schedule);
    var sys := Run(INIT, schedule);
    hide Run;
    assert TaskOk(sys.store, sys.tasks[t]);
    var Compacting(b, files, contents, metas, chunks) := sys.tasks[t];
    SwapTask(sys, t, b, files, contents, metas, chunks, now);
    var st' := SwapFiles(sys.store, Ids(files), metas, chunks, now).value;
    hide Good, SwapFiles, IsStatOf;
    var ids :| IsStatOf(st'.table.rows, s, ids);
    SwappedDensity(sys.store, files, metas, chunks, st', s, ids, Flatten(contents), p);
  }

  lemma SwappedDensity(
    st: Store, files: seq<Listed>, metas: seq<Meta>, chunks: seq<File>, st': Store,
    s: BucketStats, ids: seq<int>, read: seq<Event>, p: int)
    requires |metas| == |chunks| && AllWrittenOk(st, metas, chunks) && Swapped(st, Ids(files), metas, chunks, st')
    requires forall i :: i in st.table.rows && InBucket(st.table.rows[i], s.service, s.bucket) ==> i in Ids(files)
    requires IsStatOf(st'.table.rows, s, ids)
    requires IsDedup(read, Flatten(chunks)) && forall e :: e in read ==> e.key.partition == p
    ensures s.density == 0.0
  {
    hide Swapped, AllWrittenOk, MetaSound, InBucket, IsStatOf, DistinctKeys, IsDedup, Flatten;
    var first := st.table.nextId;
    StatParts(st'.table.rows, s, ids);
    forall i | 0 <= i < |ids|
      ensures first <= ids[i] < first + |metas| && st'.table.rows[ids[i]].meta == metas[ids[i] - first]
      ensures MetaSound(metas[ids[i] - first], chunks[ids[i] - first])
    {
      OnlyNewFiles(st, files, metas, chunks, st', s.service, s.bucket, ids[i]);
      WrittenIsSound(st, metas, chunks, ids[i] - first);
    }
    var ks := seq(|ids|, i requires 0 <= i < |ids| => (ids[i] - first) as nat);
    DedupParts(read, Flatten(chunks));
    PickedKeysDiffer(chunks, ks);
    var picked := Pick(chunks, ks);
    forall e: Event | e in Flatten(picked) ensures e.key.partition == p {
      FlattenMember(picked, e);
      var i :| 0 <= i < |picked| && e in picked[i];
      FlattenMember(chunks, e);
    }
    NoDensity(s, MetasOf(st'.table.rows, ids), picked, p);
  }

  lemma StatParts(rows: map<int, Row>, s: BucketStats, ids: seq<int>)
    requires IsStatOf(rows, s, ids)
    ensures ids != [] && forall i, j :: 0 <= i < j < |ids| ==> ids[i] != ids[j]
    ensures forall i :: 0 <= i < |ids| ==> ids[i] in rows && InBucket(rows[ids[i]], s.service, s.bucket)
    ensures s.totalRecords == TotalCount(MetasOf(rows, ids))
    ensures Estimates(s.density, s.totalRecords, Span(MetasOf(rows, ids)))
  {
  }

  lemma WrittenIsSound(st: Store, metas: seq<Meta>, chunks: seq<File>, i: nat)
    requires AllWrittenOk(st, metas, chunks) && i < |metas|
    ensures MetaSound(metas[i], chunks[i])
  {
    hide MetaSound;
    assert WrittenOk(st, metas[i], chunks[i]);
  }

  lemma DedupParts(rows: seq<Event>, out: seq<Event>)
    requires IsDedup(rows, out)
    ensures DistinctKeys(out) && forall e :: e in out ==> e in rows
  {
  }

  lemma NoDensity(s: BucketStats, metas: seq<Meta>, files: seq<File>, p: int)
    requires AllSound(metas, files) && metas != [] && DistinctKeys(Flatten(files))
    requires forall e :: e in Flatten(files) ==> e.key.partition == p
    requires Estimates(s.density, TotalCount(metas), Span(metas))
    ensures s.density == 0.0
  {
    DensityIsSound(metas, files, p);
    EstimatesIff(s.density, TotalCount(metas), Span(metas));
  }
}
