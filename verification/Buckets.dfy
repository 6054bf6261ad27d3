/** The duplicate-density statistic that triggers compaction of a bucket. */
module Buckets {
  import opened Base
  import opened Dedup
  import opened Catalog
  import opened Compaction

  datatype BucketStats = BucketStats(service: string, bucket: string, fileCount: nat, totalRecords: int, density: real)

  /** One group of the GROUP BY: the ids of the active hot rows of a bucket. */
  datatype Group = Group(service: string, bucket: string, ids: seq<int>)

  function MinOffset(metas: seq<Meta>): int
    requires metas != []
  {
    if |metas| == 1 then metas[0].minOffset else Min(metas[0].minOffset, MinOffset(metas[1..]))
  }

  function MaxOffset(metas: seq<Meta>): int
    requires metas != []
  {
    if |metas| == 1 then metas[0].maxOffset else Max(metas[0].maxOffset, MaxOffset(metas[1..]))
  }

  function Span(metas: seq<Meta>): int
    requires metas != []
  {
    MaxOffset(metas) - MinOffset(metas) + 1
  }

  function Density(total: int, span: int): real {
    if total > 0 && span > 0 then Max(total - span, 0) as real / total as real else 0.0
  }

  /** What the estimate is for: the share of the records above the offset span among all records;
      zero when there is nothing to divide. */
  predicate Estimates(density: real, total: int, span: int) {
    if total > 0 && span > 0 then 0.0 <= density <= 1.0 && density * total as real == Max(total - span, 0) as real
    else density == 0.0
  }

  lemma EstimatesIff(density: real, total: int, span: int)
    ensures Estimates(density, total, span) <==> density == Density(total, span)
  {
    if total > 0 && span > 0 {
      var surplus := Max(total - span, 0);
      QuotientTimes(surplus, total);
      UnitQuotients(total);
      DivideBoth(0, surplus, total);
      DivideBoth(surplus, total, total);
      SameProduct(density, surplus as real / total as real, total as real);
    }
  }

  lemma SameProduct(u: real, v: real, m: real)
    requires m > 0.0
    ensures u == v <==> u * m == v * m
  {
    Scale(u, v, m);
    Scale(v, u, m);
  }

  function MetasOf(rows: map<int, Row>, ids: seq<int>): seq<Meta>
    requires forall i :: 0 <= i < |ids| ==> ids[i] in rows
  {
    seq(|ids|, i requires 0 <= i < |ids| => rows[ids[i]].meta)
  }

  /** ids lists the active hot rows of the bucket, each once, among the ids seen so far. */
  ghost predicate Lists(rows: map<int, Row>, seen: set<int>, ids: seq<int>, service: string, bucket: string) {
    && (forall i, j :: 0 <= i < j < |ids| ==> ids[i] != ids[j])
    && (forall i :: 0 <= i < |ids| ==> ids[i] in seen && ids[i] in rows && InBucket(rows[ids[i]], service, bucket))
    && (forall id :: id in seen && id in rows && InBucket(rows[id], service, bucket) ==> id in ids)
  }

  ghost predicate ListsBucket(rows: map<int, Row>, ids: seq<int>, service: string, bucket: string) {
    Lists(rows, rows.Keys, ids, service, bucket)
  }

  predicate Names(g: Group, r: Row) {
    g.service == r.meta.service && g.bucket == r.meta.bucket
  }

  /** Every bucket with an active hot row is there once, with all its rows. */
  ghost predicate IsGrouping(rows: map<int, Row>, seen: set<int>, groups: seq<Group>) {
    && (forall i, j :: 0 <= i < j < |groups| ==>
          (groups[i].service, groups[i].bucket) != (groups[j].service, groups[j].bucket))
    && (forall i :: 0 <= i < |groups| ==>
          groups[i].ids != [] && Lists(rows, seen, groups[i].ids, groups[i].service, groups[i].bucket))
    && (forall id :: id in seen && id in rows && IsActiveHot(rows[id]) ==> HasGroup(groups, rows[id]))
  }

  ghost predicate HasGroup(groups: seq<Group>, r: Row) {
    exists i :: 0 <= i < |groups| && Names(groups[i], r)
  }

  function FindGroup(groups: seq<Group>, r: Row): (found: Option<nat>)
    ensures found.Some? ==> found.value < |groups| && Names(groups[found.value], r)
    ensures found.None? ==> !HasGroup(groups, r)
  {
    if groups == [] then None
    else if Names(groups[0], r) then Some(0)
    else match FindGroup(groups[1..], r)
         case None => None
         case Some(i) => Some(i + 1)
  }

  lemma ListsMore(rows: map<int, Row>, seen: set<int>, ids: seq<int>, service: string, bucket: string, id: int)
    requires Lists(rows, seen, ids, service, bucket) && id in rows && id !in seen
    ensures InBucket(rows[id], service, bucket) ==> Lists(rows, seen + {id}, ids + [id], service, bucket)
    ensures !InBucket(rows[id], service, bucket) ==> Lists(rows, seen + {id}, ids, service, bucket)
  {
  }

  lemma NothingSeen(rows: map<int, Row>, seen: set<int>, service: string, bucket: string, id: int)
    requires id in rows && InBucket(rows[id], service, bucket)
    requires forall other :: other in seen && other in rows && IsActiveHot(rows[other]) ==>
               rows[other].meta.service != service || rows[other].meta.bucket != bucket
    ensures Lists(rows, seen + {id}, [id], service, bucket)
  {
  }

  /** The row of id joins its group. */
  lemma JoinGroup(rows: map<int, Row>, seen: set<int>, groups: seq<Group>, id: int, g: nat)
    requires IsGrouping(rows, seen, groups) && id in rows && id !in seen && IsActiveHot(rows[id])
    requires g < |groups| && Names(groups[g], rows[id])
    ensures IsGrouping(rows, seen + {id}, groups[g := groups[g].(ids := groups[g].ids + [id])])
  {
    hide Lists;
    var more := groups[g := groups[g].(ids := groups[g].ids + [id])];
    forall i | 0 <= i < |more|
      ensures more[i].ids != [] && Lists(rows, seen + {id}, more[i].ids, more[i].service, more[i].bucket)
    {
      ListsMore(rows, seen, groups[i].ids, groups[i].service, groups[i].bucket, id);
    }
    forall k | k in seen + {id} && k in rows && IsActiveHot(rows[k]) ensures HasGroup(more, rows[k]) {
      if k == id {
        assert Names(more[g], rows[k]);
      } else {
        var i :| 0 <= i < |groups| && Names(groups[i], rows[k]);
        assert Names(more[i], rows[k]);
      }
    }
  }

  /** The row of id is the first of its bucket. */
  lemma NewGroup(rows: map<int, Row>, seen: set<int>, groups: seq<Group>, id: int)
    requires IsGrouping(rows, seen, groups) && id in rows && id !in seen && IsActiveHot(rows[id])
    requires !HasGroup(groups, rows[id])
    ensures IsGrouping(rows, seen + {id}, groups + [Group(rows[id].meta.service, rows[id].meta.bucket, [id])])
  {
    hide Lists;
    var g := Group(rows[id].meta.service, rows[id].meta.bucket, [id]);
    var more := groups + [g];
    forall i | 0 <= i < |groups|
      ensures Lists(rows, seen + {id}, groups[i].ids, groups[i].service, groups[i].bucket)
      ensures (groups[i].service, groups[i].bucket) != (g.service, g.bucket)
    {
      assert !Names(groups[i], rows[id]);
      ListsMore(rows, seen, groups[i].ids, groups[i].service, groups[i].bucket, id);
    }
    forall k | k in seen && k in rows && IsActiveHot(rows[k])
      ensures HasGroup(more, rows[k]) && (rows[k].meta.service != g.service || rows[k].meta.bucket != g.bucket)
    {
      var i :| 0 <= i < |groups| && Names(groups[i], rows[k]);
      assert Names(more[i], rows[k]) && !Names(groups[i], rows[id]);
    }
    NothingSeen(rows, seen, g.service, g.bucket, id);
    assert Names(more[|groups|], rows[id]);
  }

  lemma SkipRow(rows: map<int, Row>, seen: set<int>, groups: seq<Group>, id: int)
    requires IsGrouping(rows, seen, groups) && id in rows && id !in seen && !IsActiveHot(rows[id])
    ensures IsGrouping(rows, seen + {id}, groups)
  {
    hide Lists, HasGroup;
    forall i | 0 <= i < |groups|
      ensures Lists(rows, seen + {id}, groups[i].ids, groups[i].service, groups[i].bucket)
    {
      ListsMore(rows, seen, groups[i].ids, groups[i].service, groups[i].bucket, id);
    }
  }

  /** SELECT ... WHERE state = 'active' AND tier = 'hot' GROUP BY service, time_bucket. */
  method GroupByBucket(rows: map<int, Row>) returns (groups: seq<Group>)
    ensures IsGrouping(rows, rows.Keys, groups)
  {
    groups := [];
    var rest := rows.Keys;
    ghost var seen: set<int> := {};
    NothingGrouped(rows);
    while rest != {}
      invariant rest <= rows.Keys && seen == rows.Keys - rest
      invariant IsGrouping(rows, seen, groups)
    {
      var id := AnyOf(rest);
      if IsActiveHot(rows[id]) {
        var g := FindGroup(groups, rows[id]);
        if g.Some? {
          JoinGroup(rows, seen, groups, id, g.value);
          groups := groups[g.value := groups[g.value].(ids := groups[g.value].ids + [id])];
        } else {
          NewGroup(rows, seen, groups, id);
          groups := groups + [Group(rows[id].meta.service, rows[id].meta.bucket, [id])];
        }
      } else {
        SkipRow(rows, seen, groups, id);
      }
      rest, seen := rest - {id}, seen + {id};
    }
    assert seen == rows.Keys;
  }

  lemma NothingGrouped(rows: map<int, Row>)
    ensures IsGrouping(rows, {}, [])
  {
  }

  /** The statistic of a bucket counts its active hot files and their records, and estimates their
      duplicate density from the span of their offsets. */
  ghost predicate IsStatOf(rows: map<int, Row>, s: BucketStats, ids: seq<int>) {
    && ListsBucket(rows, ids, s.service, s.bucket) && ids != []
    && s.fileCount == |ids| && s.totalRecords == TotalCount(MetasOf(rows, ids))
    && Estimates(s.density, s.totalRecords, Span(MetasOf(rows, ids)))
  }

  ghost predicate IsStat(rows: map<int, Row>, s: BucketStats) {
    exists ids :: IsStatOf(rows, s, ids)
  }

  /** Every bucket with an active hot row has one statistic, and no other bucket has one. */
  method HotBucketStats(rows: map<int, Row>) returns (result: seq<BucketStats>)
    ensures forall i :: 0 <= i < |result| ==> IsStat(rows, result[i])
    ensures forall i, j :: 0 <= i < j < |result| ==>
              (result[i].service, result[i].bucket) != (result[j].service, result[j].bucket)
    ensures forall id :: id in rows && IsActiveHot(rows[id]) ==> HasBucket(result, rows[id])
  {
    hide Estimates, Lists, IsStat, IsGrouping, HasBucket;
    var groups := GroupByBucket(rows);
    result := [];
    for i := 0 to |groups|
      invariant |result| == i
      invariant forall k :: 0 <= k < i ==>
        IsStat(rows, result[k]) && (result[k].service, result[k].bucket) == (groups[k].service, groups[k].bucket)
    {
      ListedAreRows(rows, groups[i]);
      var metas := MetasOf(rows, groups[i].ids);
      var total, span := TotalCount(metas), Span(metas);
      var density := 0.0;
      if total > 0 && span > 0 {
        density := Max(total - span, 0) as real / total as real;
      }
      EstimatesIff(density, total, span);
      var s := BucketStats(groups[i].service, groups[i].bucket, |groups[i].ids|, total, density);
      HasStat(rows, s, groups[i].ids);
      result := result + [s];
    }
    EachBucketOnce(rows, groups, result);
  }

  /** There is a statistic for every group, and a group for every bucket. */
  lemma EachBucketOnce(rows: map<int, Row>, groups: seq<Group>, result: seq<BucketStats>)
    requires IsGrouping(rows, rows.Keys, groups) && |result| == |groups|
    requires forall i :: 0 <= i < |result| ==>
               (result[i].service, result[i].bucket) == (groups[i].service, groups[i].bucket)
    ensures forall i, j :: 0 <= i < j < |result| ==>
              (result[i].service, result[i].bucket) != (result[j].service, result[j].bucket)
    ensures forall id :: id in rows && IsActiveHot(rows[id]) ==> HasBucket(result, rows[id])
  {
    hide Lists;
    forall id | id in rows && IsActiveHot(rows[id]) ensures HasBucket(result, rows[id]) {
      assert HasGroup(groups, rows[id]);
      var i :| 0 <= i < |groups| && Names(groups[i], rows[id]);
      assert InBucket(rows[id], result[i].service, result[i].bucket);
    }
  }

  ghost predicate HasBucket(result: seq<BucketStats>, r: Row) {
    exists i :: 0 <= i < |result| && InBucket(r, result[i].service, result[i].bucket)
  }

  lemma HasStat(rows: map<int, Row>, s: BucketStats, ids: seq<int>)
    requires IsStatOf(rows, s, ids)
    ensures IsStat(rows, s)
  {
    hide IsStatOf;
  }

  lemma ListedAreRows(rows: map<int, Row>, g: Group)
    requires Lists(rows, rows.Keys, g.ids, g.service, g.bucket)
    ensures forall i :: 0 <= i < |g.ids| ==> g.ids[i] in rows
  {
  }

  predicate Triggers(s: BucketStats, smallFileThreshold: nat, maxDuplicateRatio: real) {
    s.fileCount >= smallFileThreshold || s.density >= maxDuplicateRatio
  }

  /** The active hot files of a bucket. */
  function FilesOf(rows: map<int, Row>, service: string, bucket: string): set<int> {
    set id | id in rows && InBucket(rows[id], service, bucket)
  }

  lemma {:induction false} DifferentIds(ids: seq<int>)
    requires forall i, j :: 0 <= i < j < |ids| ==> ids[i] != ids[j]
    ensures |IdSet(ids)| == |ids|
  {
    if ids != [] {
      var init := ids[..|ids| - 1];
      DifferentIds(init);
      assert ids == init + [Last(ids)];
      assert IdSet(ids) == IdSet(init) + {Last(ids)};
    }
  }

  lemma FileCountIs(rows: map<int, Row>, s: BucketStats)
    requires IsStat(rows, s)
    ensures s.fileCount == |FilesOf(rows, s.service, s.bucket)|
  {
    hide Estimates;
    var ids :| IsStatOf(rows, s, ids);
    DifferentIds(ids);
    forall id ensures id in IdSet(ids) <==> id in FilesOf(rows, s.service, s.bucket) {
      assert id in rows ==> id in rows.Keys;
    }
    assert IdSet(ids) == FilesOf(rows, s.service, s.bucket);
  }

  /** The bucket has many small files, or a large share of duplicates by its statistic. */
  ghost predicate ToCompact(rows: map<int, Row>, s: BucketStats, smallFileThreshold: nat, maxDuplicateRatio: real) {
    |FilesOf(rows, s.service, s.bucket)| >= smallFileThreshold || s.density >= maxDuplicateRatio
  }

  lemma NewLabel(stats: seq<BucketStats>, n: nat)
    requires n < |stats|
    requires forall i, j :: 0 <= i < j < |stats| ==>
               (stats[i].service, stats[i].bucket) != (stats[j].service, stats[j].bucket)
    ensures forall i :: 0 <= i < n ==>
              Bucket(stats[i].service, stats[i].bucket) != Bucket(stats[n].service, stats[n].bucket)
  {
    forall i | 0 <= i < n
      ensures Bucket(stats[i].service, stats[i].bucket) != Bucket(stats[n].service, stats[n].bucket)
    {
      assert (stats[i].service, stats[i].bucket) != (stats[n].service, stats[n].bucket);
    }
  }

  /** The threshold check of the compaction loop: of the buckets with an active hot row, exactly those
      that have enough files or whose statistic reaches the ratio, each once. */
  method BucketsToCompact(rows: map<int, Row>, smallFileThreshold: nat, maxDuplicateRatio: real)
    returns (buckets: seq<Bucket>, stats: seq<BucketStats>)
    ensures forall i :: 0 <= i < |stats| ==> IsStat(rows, stats[i])
    ensures forall id :: id in rows && IsActiveHot(rows[id]) ==> HasBucket(stats, rows[id])
    ensures forall b :: b in buckets <==>
              exists i :: 0 <= i < |stats| && Bucket(stats[i].service, stats[i].bucket) == b
                && ToCompact(rows, stats[i], smallFileThreshold, maxDuplicateRatio)
    ensures forall i, j :: 0 <= i < j < |buckets| ==> buckets[i] != buckets[j]
  {
    hide IsStat, HasBucket, FilesOf;
    stats := HotBucketStats(rows);
    buckets := [];
    for n := 0 to |stats|
      invariant forall b :: b in buckets <==>
        exists i :: 0 <= i < n && Bucket(stats[i].service, stats[i].bucket) == b
          && ToCompact(rows, stats[i], smallFileThreshold, maxDuplicateRatio)
      invariant forall i, j :: 0 <= i < j < |buckets| ==> buckets[i] != buckets[j]
    {
      FileCountIs(rows, stats[n]);
      if Triggers(stats[n], smallFileThreshold, maxDuplicateRatio) {
        var b := Bucket(stats[n].service, stats[n].bucket);
        NewLabel(stats, n);
        assert b !in buckets;
        buckets := buckets + [b];
      }
    }
  }

  /** The share of rows that are copies of another row's key. */
  function DuplicateFraction(rows: seq<Event>): real {
    if rows == [] then 0.0 else (|rows| - |KeySet(rows)|) as real / |rows| as real
  }

  // ----- Counting keys -----

  lemma {:induction false} KeysInRange(s: set<Key>, p: int, lo: int, hi: int)
    requires forall k :: k in s ==> k.partition == p && lo <= k.offset <= hi
    ensures |s| <= Max(hi - lo + 1, 0)
    decreases hi - lo
  {
    if hi < lo {
      assert s == {};
    } else if I64_MIN <= hi <= I64_MAX {
      KeysInRange(s - {Key(p, hi)}, p, lo, hi - 1);
    } else {
      KeysInRange(s, p, lo, hi - 1);
    }
  }

  ghost predicate KeysWithin(s: set<Key>, ps: set<int>, lo: int, hi: int) {
    forall k :: k in s ==> k.partition in ps && lo <= k.offset <= hi
  }

  /** The keys of one partition, and the others. */
  lemma SplitKeys(s: set<Key>, ps: set<int>, lo: int, hi: int, p: int) returns (here: set<Key>)
    requires lo <= hi && KeysWithin(s, ps, lo, hi)
    ensures here <= s && KeysWithin(s - here, ps - {p}, lo, hi)
    ensures |s| == |here| + |s - here| && |here| <= hi - lo + 1
  {
    here := set k | k in s && k.partition == p;
    KeysInRange(here, p, lo, hi);
    assert s == here + (s - here);
  }

  /** Pigeonhole over several partitions. */
  lemma {:induction false} KeysInPartitions(s: set<Key>, ps: set<int>, lo: int, hi: int)
    requires lo <= hi && KeysWithin(s, ps, lo, hi)
    ensures |s| <= |ps| * (hi - lo + 1)
    decreases ps
  {
    if p :| p in ps {
      var here := SplitKeys(s, ps, lo, hi, p);
      KeysInPartitions(s - here, ps - {p}, lo, hi);
      Distribute(|ps| - 1, hi - lo + 1);
    } else {
      assert s == {};
    }
  }

  lemma {:induction false} OffsetsWithin(metas: seq<Meta>, files: seq<File>, e: Event)
    requires AllSound(metas, files) && e in Flatten(files)
    ensures MinOffset(metas) <= e.key.offset <= MaxOffset(metas)
  {
    if e in files[0] {
      assert metas[0].minOffset <= Cell(e, KafkaOffset) <= metas[0].maxOffset;
    } else {
      OffsetsWithin(metas[1..], files[1..], e);
    }
  }

  /** The estimate never exceeds the true fraction unless there are more keys than offsets:
      an exact condition, which one partition always meets (see DensityIsSound). */
  lemma DensityExact(metas: seq<Meta>, files: seq<File>)
    requires AllSound(metas, files) && metas != []
    ensures var d := Density(TotalCount(metas), Span(metas));
            && 0.0 <= d <= 1.0
            && (d > 0.0 ==> (d <= DuplicateFraction(Flatten(files)) <==> |KeySet(Flatten(files))| <= Span(metas)))
  {
    TotalIsRowCount(metas, files);
    var n, span := TotalCount(metas), Span(metas);
    if n > 0 && n > span > 0 {
      var keys := |KeySet(Flatten(files))|;
      UnitQuotients(n);
      DivideBoth(n - span, n - keys, n);
      DivideBoth(0, n - span, n);
      DivideBoth(n - span, n, n);
    }
  }

  lemma QuotientTimes(a: int, n: int)
    requires n > 0
    ensures (a as real / n as real) * n as real == a as real
  {
  }

  lemma DivideBoth(a: int, b: int, n: int)
    requires n > 0
    ensures a <= b <==> a as real / n as real <= b as real / n as real
  {
    QuotientTimes(a, n);
    QuotientTimes(b, n);
    Scale(a as real / n as real, b as real / n as real, n as real);
  }

  lemma UnitQuotients(n: int)
    requires n > 0
    ensures 0 as real / n as real == 0.0 && n as real / n as real == 1.0
  {
  }

  lemma Scale(u: real, v: real, m: real)
    requires m > 0.0
    ensures u <= v <==> u * m <= v * m
  {
    if u <= v {
      assert (v - u) * m >= 0.0;
    } else {
      assert (u - v) * m > 0.0;
    }
  }

  /** In a bucket fed by one partition the estimate never exceeds the true duplicate fraction,
      and it is exactly zero on compacted files, so a positive ratio cannot fire again. */
  lemma DensityIsSound(metas: seq<Meta>, files: seq<File>, p: int)
    requires AllSound(metas, files) && metas != []
    requires forall e :: e in Flatten(files) ==> e.key.partition == p
    ensures var d := Density(TotalCount(metas), Span(metas));
            && 0.0 <= d <= 1.0
            && d <= DuplicateFraction(Flatten(files))
            && (DistinctKeys(Flatten(files)) ==> d == 0.0)
  {
    var rows := Flatten(files);
    DensityExact(metas, files);
    TotalIsRowCount(metas, files);
    forall e | e in rows ensures MinOffset(metas) <= e.key.offset <= MaxOffset(metas) {
      OffsetsWithin(metas, files, e);
    }
    KeysInRange(KeySet(rows), p, MinOffset(metas), MaxOffset(metas));
    KeysAtMostRows(rows);
    if rows != [] {
      UnitQuotients(|rows|);
      DivideBoth(0, |rows| - |KeySet(rows)|, |rows|);
    }
    if DistinctKeys(rows) {
      DistinctKeysCount(rows);
    }
  }

  /** In a bucket of one partition the estimate is exact if and only if there are no duplicates or
      every offset of the span occurs; gaps in the offsets are all it can miss. */
  lemma DensityEqualsIff(metas: seq<Meta>, files: seq<File>, p: int)
    requires AllSound(metas, files) && metas != [] && Flatten(files) != []
    requires forall e :: e in Flatten(files) ==> e.key.partition == p
    ensures var rows := Flatten(files);
            Density(TotalCount(metas), Span(metas)) == DuplicateFraction(rows)
            <==> |KeySet(rows)| == |rows| || |KeySet(rows)| == Span(metas)
  {
    var rows := Flatten(files);
    var n, span, keys := |rows|, Span(metas), |KeySet(rows)|;
    TotalIsRowCount(metas, files);
    forall e | e in rows ensures MinOffset(metas) <= e.key.offset <= MaxOffset(metas) {
      OffsetsWithin(metas, files, e);
    }
    KeysInRange(KeySet(rows), p, MinOffset(metas), MaxOffset(metas));
    KeysAtMostRows(rows);
    assert rows[0].key in KeySet(rows);
    UnitQuotients(n);
    DivideBoth(Max(n - span, 0), n - keys, n);
    DivideBoth(n - keys, Max(n - span, 0), n);
  }

  lemma {:induction false} KeysAtMostRows(rows: seq<Event>)
    ensures |KeySet(rows)| <= |rows|
  {
    if rows != [] {
      var init, e := rows[..|rows| - 1], rows[|rows| - 1];
      assert rows == init + [e];
      KeysAtMostRows(init);
      assert KeySet(rows) == KeySet(init) + {e.key};
    }
  }

  // ----- Several partitions -----

  lemma {:induction false} SpanIsRange(metas: seq<Meta>, files: seq<File>)
    requires AllSound(metas, files) && metas != []
    ensures I64_MIN <= MinOffset(metas) <= I64_MAX && I64_MIN <= MaxOffset(metas) <= I64_MAX
    ensures IsRange(Flatten(files), KafkaOffset, MinOffset(metas), MaxOffset(metas))
  {
    if |metas| == 1 {
      assert files[1..] == [] && Flatten(files) == files[0] + [];
    } else {
      SpanIsRange(metas[1..], files[1..]);
      RangeConcat(files[0], Flatten(files[1..]), KafkaOffset,
                  metas[0].minOffset, metas[0].maxOffset, MinOffset(metas[1..]), MaxOffset(metas[1..]));
    }
  }

  lemma SameKeysSameRange(a: seq<Event>, b: seq<Event>, lo: i64, hi: i64, lo': i64, hi': i64)
    requires IsRange(a, KafkaOffset, lo, hi) && IsRange(b, KafkaOffset, lo', hi') && a != [] && b != []
    requires KeySet(a) == KeySet(b)
    ensures lo == lo' && hi == hi'
  {
    WithinOther(a, b, lo, hi, lo', hi');
    WithinOther(b, a, lo', hi', lo, hi);
  }

  lemma WithinOther(a: seq<Event>, b: seq<Event>, lo: i64, hi: i64, lo': i64, hi': i64)
    requires IsRange(a, KafkaOffset, lo, hi) && IsRange(b, KafkaOffset, lo', hi') && a != []
    requires KeySet(a) <= KeySet(b)
    ensures lo' <= lo && hi <= hi'
  {
    var e :| e in a && Cell(e, KafkaOffset) == lo;
    var f :| f in a && Cell(f, KafkaOffset) == hi;
    assert e.key in KeySet(b) && f.key in KeySet(b);
    var g :| g in b && g.key == e.key;
    var h :| h in b && h.key == f.key;
    assert Cell(g, KafkaOffset) == lo && Cell(h, KafkaOffset) == hi;
  }

  /** Compaction keeps the span and leaves one record per key: the estimate afterwards is positive
      again if and only if there are more keys than offsets, whatever duplicates there were. So where
      it reaches the ratio then, it does so after every further compaction. */
  lemma DensityAfterCompaction(metas: seq<Meta>, files: seq<File>, metas': seq<Meta>, files': seq<File>)
    requires AllSound(metas, files) && AllSound(metas', files') && metas != [] && metas' != []
    requires Flatten(files) != [] && IsCompaction(Flatten(files), Flatten(files'))
    ensures Span(metas') == Span(metas) && TotalCount(metas') == |KeySet(Flatten(files))|
    ensures Density(TotalCount(metas'), Span(metas')) > 0.0 <==> |KeySet(Flatten(files))| > Span(metas)
  {
    hide IsCompaction, IsRange, KeySet, AllSound;
    var rows, out := Flatten(files), Flatten(files');
    SpanIsRange(metas, files);
    SpanIsRange(metas', files');
    CompactedFilesMetadata(rows, files', metas');
    CompactionKeepsKeys(rows, out);
    SameKeysSameRange(rows, out, MinOffset(metas), MaxOffset(metas), MinOffset(metas'), MaxOffset(metas'));
    SpanIsPositive(rows, MinOffset(metas), MaxOffset(metas));
    SurplusIff(TotalCount(metas'), Span(metas'));
  }

  lemma CompactionKeepsKeys(rows: seq<Event>, out: seq<Event>)
    requires IsCompaction(rows, out) && rows != []
    ensures KeySet(out) == KeySet(rows) && out != [] && |KeySet(rows)| > 0
  {
    SameKeys(rows, out);
    assert rows[0].key in KeySet(rows);
    assert rows[0].key in KeySet(out);
  }

  lemma SpanIsPositive(rows: seq<Event>, lo: i64, hi: i64)
    requires IsRange(rows, KafkaOffset, lo, hi) && rows != []
    ensures lo <= hi
  {
    assert rows[0] in rows;
  }

  lemma SurplusIff(n: int, span: int)
    requires n > 0 && span > 0
    ensures Density(n, span) > 0.0 <==> n > span
  {
    UnitQuotients(n);
    DivideBoth(Max(n - span, 0), 0, n);
  }

  /** With several partitions the estimate over compacted files can be positive, but with P of them
      it is at most 1 - 1/P, so a greater ratio is silenced by a compaction. */
  lemma CompactedDensityBound(metas: seq<Meta>, files: seq<File>, ps: set<int>)
    requires AllSound(metas, files) && metas != [] && Flatten(files) != [] && DistinctKeys(Flatten(files))
    requires forall e :: e in Flatten(files) ==> e.key.partition in ps
    ensures Density(TotalCount(metas), Span(metas)) * |ps| as real <= |ps| as real - 1.0
  {
    hide Density, Flatten, DistinctKeys, KeySet, AllSound, IsRange;
    var rows := Flatten(files);
    TotalIsRowCount(metas, files);
    DistinctKeysCount(rows);
    SpanIsRange(metas, files);
    SpanIsPositive(rows, MinOffset(metas), MaxOffset(metas));
    KeysFillSpan(rows, ps, MinOffset(metas), MaxOffset(metas));
    ShareBound(|rows|, Span(metas), |ps|);
  }

  lemma KeysFillSpan(rows: seq<Event>, ps: set<int>, lo: i64, hi: i64)
    requires IsRange(rows, KafkaOffset, lo, hi) && lo <= hi && rows != []
    requires forall e :: e in rows ==> e.key.partition in ps
    ensures |KeySet(rows)| <= |ps| * (hi - lo + 1) && |ps| > 0
  {
    assert rows[0] in rows && rows[0].key.partition in ps;
    forall k | k in KeySet(rows) ensures k.partition in ps && lo <= k.offset <= hi {
      var e :| e in rows && e.key == k;
      assert lo <= Cell(e, KafkaOffset) <= hi;
    }
    KeysInPartitions(KeySet(rows), ps, lo, hi);
  }

  lemma ShareBound(n: int, span: int, m: int)
    requires n > 0 && span > 0 && m > 0 && n <= m * span
    ensures Density(n, span) * m as real <= m as real - 1.0
  {
    var x := Max(n - span, 0);
    QuotientTimes(x, n);
    SurplusBound(n, span, m);
    RealTimes(x, m);
    RealTimes(m - 1, n);
    ShareOf(Density(n, span), x as real, m as real, n as real);
  }

  lemma RealTimes(a: int, b: int)
    ensures (a * b) as real == a as real * b as real
  {
  }

  lemma ShareOf(d: real, x: real, m: real, n: real)
    requires n > 0.0 && d * n == x && x * m <= (m - 1.0) * n
    ensures d * m <= m - 1.0
  {
    assert (d * m) * n == (d * n) * m;
    Scale(d * m, m - 1.0, n);
  }

  lemma SurplusBound(n: int, span: int, m: int)
    requires n > 0 && span > 0 && m > 0 && n <= m * span
    ensures Max(n - span, 0) * m <= (m - 1) * n
  {
    if n <= span {
      assert (m - 1) * n >= 0;
    } else {
      assert (n - span) * m == n * m - span * m;
      assert (m - 1) * n == m * n - n;
    }
  }

  /** The code's comment says several partitions make the estimate too low. They can make it
      too high: two partitions with one event each at the same offset hold no duplicate, yet
      the estimate is 1/2 and reaches the default ratio. */
  lemma TwoPartitionsOverestimate(a: Event, b: Event, m: Meta)
    requires a.key == Key(0, 7) && b.key == Key(1, 7) && a.timestamp <= b.timestamp
    requires MetaSound(m, [a, b])
    ensures DuplicateFraction([a, b]) == 0.0 && IsCompaction([a, b], [a, b])
    ensures Density(TotalCount([m]), Span([m])) == 0.5
    ensures forall s: BucketStats :: s.density == Density(TotalCount([m]), Span([m])) ==> Triggers(s, 10, 0.5)
  {
    TwoRowsDistinct(a, b);
    TwoRowsMeta(a, b, m);
    assert TotalCount([m]) == m.count + TotalCount([]);
  }

  lemma TwoRowsDistinct(a: Event, b: Event)
    requires a.key != b.key && a.timestamp <= b.timestamp
    ensures DuplicateFraction([a, b]) == 0.0 && IsCompaction([a, b], [a, b])
  {
    var rows := [a, b];
    DistinctKeysCount(rows);
    forall e | e in rows ensures HasNoLater(rows, e) {
    }
  }

  lemma TwoRowsMeta(a: Event, b: Event, m: Meta)
    requires a.key.offset == b.key.offset == 7 && MetaSound(m, [a, b])
    ensures m.count == 2 && m.minOffset == 7 && m.maxOffset == 7
  {
    var rows := [a, b];
    assert a in rows;
    assert m.minOffset <= Cell(a, KafkaOffset) <= m.maxOffset;
  }
}
