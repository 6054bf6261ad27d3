/** Splitting the compacted rows into files, and the metadata of each file. */
module Compaction {
  import opened Base
  import opened Dedup
  import opened Catalog

  // ----- Greedy split by size -----

  datatype RecordBatch = RecordBatch(rows: seq<Event>, ipcSize: nat)

  type Chunk = seq<RecordBatch>

  function Size(c: Chunk): nat {
    if c == [] then 0 else c[0].ipcSize + Size(c[1..])
  }

  /** A chunk may be written to one file: it stays under the target, or it is a single batch. */
  predicate Fits(c: Chunk, target: nat) {
    c != [] && (Size(c) <= target || |c| == 1)
  }

  ghost predicate AllFit(chunks: seq<Chunk>, target: nat) {
    forall i :: 0 <= i < |chunks| ==> Fits(chunks[i], target)
  }

  ghost predicate IsSplit(chunks: seq<Chunk>, batches: Chunk, target: nat) {
    Flatten(chunks) == batches && AllFit(chunks, target)
  }

  /** No chunk could have taken the batch that follows it. */
  ghost predicate Maximal(chunks: seq<Chunk>, target: nat)
    requires AllFit(chunks, target)
  {
    forall i :: 0 <= i < |chunks| - 1 ==> Size(chunks[i]) + chunks[i + 1][0].ipcSize > target
  }

  /** Sizes add up, and that of a single batch is its own. */
  lemma {:induction false} SizeConcat(a: Chunk, b: Chunk)
    ensures Size(a + b) == Size(a) + Size(b)
    ensures |a| <= 1 ==> Size(a) == if a == [] then 0 else a[0].ipcSize
  {
    if a == [] {
      assert a + b == b;
    } else {
      assert (a + b)[1..] == a[1..] + b;
      SizeConcat(a[1..], b);
    }
  }

  method SplitByIpcSize(batches: Chunk, target: nat) returns (chunks: seq<Chunk>)
    ensures IsSplit(chunks, batches, target) && Maximal(chunks, target)
    ensures forall other :: IsSplit(other, batches, target) ==> |chunks| <= |other|
  {
    if batches == [] {
      return [];
    }
    chunks := [];
    var current, currentBytes := [], 0;
    for i := 0 to |batches|
      invariant Packed(chunks, current, batches[..i], target)
      invariant currentBytes == Size(current)
    {
      var batch := batches[i];
      var size := batch.ipcSize;
      assert batches[..i + 1] == batches[..i] + [batch];
      SizeConcat(current, [batch]);
      if currentBytes + size > target && current != [] {
        CloseChunk(chunks, current, batches[..i], batch, target);
        chunks := chunks + [current];
        current, currentBytes := [], 0;
      } else {
        GrowChunk(chunks, current, batches[..i], batch, target);
      }
      currentBytes := currentBytes + size;
      current := current + [batch];
    }
    assert batches[..|batches|] == batches;
    PackedIsSplit(chunks, current, batches, target);
    chunks := chunks + [current];
    forall other | IsSplit(other, batches, target) ensures |chunks| <= |other| {
      GreedyIsMinimal(chunks, other, target);
    }
  }

  /** The loop's state after the batches in done: closed chunks and the one being filled. */
  ghost predicate Packed(chunks: seq<Chunk>, current: Chunk, done: Chunk, target: nat) {
    && Flatten(chunks) + current == done
    && AllFit(chunks, target) && Maximal(chunks, target)
    && (current == [] ==> chunks == [])
    && (current != [] ==> Fits(current, target) && Overflows(chunks, current[0], target))
  }

  /** The batch b does not fit into the chunk closed last. */
  ghost predicate Overflows(chunks: seq<Chunk>, b: RecordBatch, target: nat) {
    chunks != [] ==> Size(Last(chunks)) + b.ipcSize > target
  }

  lemma GrowChunk(chunks: seq<Chunk>, current: Chunk, done: Chunk, b: RecordBatch, target: nat)
    requires Packed(chunks, current, done, target)
    requires current == [] || Size(current) + b.ipcSize <= target
    ensures Packed(chunks, current + [b], done + [b], target)
  {
    SizeConcat(current, [b]);
    assert Flatten(chunks) + (current + [b]) == done + [b];
  }

  lemma CloseChunk(chunks: seq<Chunk>, current: Chunk, done: Chunk, b: RecordBatch, target: nat)
    requires Packed(chunks, current, done, target)
    requires current != [] && Size(current) + b.ipcSize > target
    ensures Packed(chunks + [current], [b], done + [b], target)
    ensures [] + [b] == [b]
  {
    PackedIsSplit(chunks, current, done, target);
  }

  lemma PackedIsSplit(chunks: seq<Chunk>, current: Chunk, done: Chunk, target: nat)
    requires Packed(chunks, current, done, target) && current != []
    ensures IsSplit(chunks + [current], done, target) && Maximal(chunks + [current], target)
  {
    FlattenSnoc(chunks, current);
  }

  /** A split with its first k batches taken away. */
  ghost function Trim(chunks: seq<Chunk>, k: nat): seq<Chunk>
    requires k <= |Flatten(chunks)|
  {
    if k == 0 then chunks
    else if k >= |chunks[0]| then Trim(chunks[1..], k - |chunks[0]|)
    else [chunks[0][k..]] + chunks[1..]
  }

  lemma {:induction false} TrimIsSplit(chunks: seq<Chunk>, k: nat, target: nat)
    requires AllFit(chunks, target) && k <= |Flatten(chunks)|
    ensures IsSplit(Trim(chunks, k), Flatten(chunks)[k..], target)
    ensures |Trim(chunks, k)| <= |chunks|
  {
    if k > 0 {
      if k >= |chunks[0]| {
        TrimIsSplit(chunks[1..], k - |chunks[0]|, target);
      } else {
        SizeConcat(chunks[0][..k], chunks[0][k..]);
        assert chunks[0][..k] + chunks[0][k..] == chunks[0];
        assert Trim(chunks, k)[1..] == chunks[1..];
      }
    }
  }

  lemma PrefixIsSmaller(c: Chunk, k: nat)
    requires k <= |c|
    ensures Size(c[..k]) <= Size(c)
  {
    SizeConcat(c[..k], c[k..]);
    assert c[..k] + c[k..] == c;
  }

  lemma GreedyTakesMost(greedy: seq<Chunk>, other: seq<Chunk>, target: nat)
    requires AllFit(greedy, target) && AllFit(other, target) && Maximal(greedy, target)
    requires Flatten(greedy) == Flatten(other) && greedy != [] && other != []
    ensures |other[0]| <= |greedy[0]|
  {
    if |other[0]| > |greedy[0]| {
      var g, o := greedy[0], other[0];
      assert Flatten(greedy)[..|g|] == g;
      assert Flatten(other)[..|o|] == o;
      assert |greedy| > 1 by {
        assert greedy[1..] == [] ==> Flatten(greedy) == g;
      }
      assert Flatten(greedy[1..])[0] == greedy[1][0];
      assert o[..|g| + 1] == g + [greedy[1][0]];
      SizeConcat(g, [greedy[1][0]]);
      PrefixIsSmaller(o, |g| + 1);
    }
  }

  /** No way of cutting the same batches into admissible chunks uses fewer of them. */
  lemma {:induction false} GreedyIsMinimal(greedy: seq<Chunk>, other: seq<Chunk>, target: nat)
    requires AllFit(greedy, target) && AllFit(other, target) && Maximal(greedy, target)
    requires Flatten(greedy) == Flatten(other)
    ensures |greedy| <= |other|
    decreases |greedy|
  {
    if greedy != [] {
      assert greedy[0] != [];
      GreedyTakesMost(greedy, other, target);
      var k := |greedy[0]| - |other[0]|;
      assert Flatten(greedy[1..]) == Flatten(greedy)[|greedy[0]|..];
      assert Flatten(other[1..]) == Flatten(other)[|other[0]|..];
      assert Flatten(greedy[1..]) == Flatten(other[1..])[k..];
      TrimIsSplit(other[1..], k, target);
      GreedyIsMinimal(greedy[1..], Trim(other[1..], k), target);
    }
  }

  /** Any two adjacent chunks together exceed the target, so the total size bounds their number. */
  lemma {:induction false} ChunkCountBound(chunks: seq<Chunk>, target: nat)
    requires AllFit(chunks, target) && Maximal(chunks, target)
    ensures |chunks| / 2 * (target + 1) <= Size(Flatten(chunks))
    decreases |chunks|
  {
    if |chunks| >= 2 {
      var rest := chunks[2..];
      PairExceeds(chunks, target);
      ChunkCountBound(rest, target);
      assert |chunks| / 2 == |rest| / 2 + 1;
      Distribute(|rest| / 2, target + 1);
    }
  }

  lemma Distribute(n: nat, k: nat)
    ensures (n + 1) * k == n * k + k
  {
  }

  lemma PairExceeds(chunks: seq<Chunk>, target: nat)
    requires AllFit(chunks, target) && Maximal(chunks, target) && |chunks| >= 2
    ensures AllFit(chunks[2..], target) && Maximal(chunks[2..], target)
    ensures Size(Flatten(chunks)) > target + Size(Flatten(chunks[2..]))
  {
    var rest := chunks[2..];
    assert chunks[1..][1..] == rest;
    SizeConcat(chunks[0], Flatten(chunks[1..]));
    SizeConcat(chunks[1], Flatten(rest));
    forall i | 0 <= i < |rest| - 1 ensures Size(rest[i]) + rest[i + 1][0].ipcSize > target {
      assert rest[i] == chunks[i + 2];
    }
  }

  // ----- File metadata -----

  datatype Column = Timestamp | KafkaOffset

  function Cell(e: Event, c: Column): i64 {
    if c == Timestamp then e.timestamp else e.key.offset
  }

  /** (lo, hi) is the exact range of the column; with no rows it is the empty range. */
  ghost predicate IsRange(rows: seq<Event>, c: Column, lo: i64, hi: i64) {
    && (forall e :: e in rows ==> lo <= Cell(e, c) <= hi)
    && (rows == [] ==> lo == I64_MAX && hi == I64_MIN)
    && (rows != [] ==> Attains(rows, c, lo) && Attains(rows, c, hi))
  }

  ghost predicate Attains(rows: seq<Event>, c: Column, x: i64) {
    exists e :: e in rows && Cell(e, c) == x
  }

  /** What a manifest row says about the file it registers. */
  ghost predicate MetaSound(m: Meta, rows: File) {
    && m.count == |rows|
    && IsRange(rows, Timestamp, m.minTs, m.maxTs)
    && IsRange(rows, KafkaOffset, m.minOffset, m.maxOffset)
  }

  /** All events of the file are earlier. */
  ghost predicate AllBefore(rows: File, cutoff: int) {
    forall e :: e in rows ==> e.timestamp < cutoff
  }

  lemma MaxIsBefore(m: Meta, rows: File, cutoff: int)
    requires MetaSound(m, rows) && rows != []
    ensures m.maxTs < cutoff <==> AllBefore(rows, cutoff)
  {
    assert Attains(rows, Timestamp, m.maxTs);
    var last :| last in rows && Cell(last, Timestamp) == m.maxTs;
    assert forall e :: e in rows ==> Cell(e, Timestamp) <= m.maxTs;
  }

  /** The metadata of the file at path that holds just e. */
  function OneRow(path: Path, e: Event): Meta {
    Meta(path, path.service, path.bucket, e.timestamp, e.timestamp, 0, 1, e.key.offset, e.key.offset)
  }

  lemma OneRowIsSound(path: Path, e: Event)
    ensures MetaSound(OneRow(path, e), [e])
  {
    assert e in [e];
    assert Attains([e], Timestamp, Cell(e, Timestamp)) && Attains([e], KafkaOffset, Cell(e, KafkaOffset));
  }

  function Rows(c: Chunk): seq<Event> {
    if c == [] then [] else c[0].rows + Rows(c[1..])
  }

  lemma {:induction false} RowsConcat(a: Chunk, b: Chunk)
    ensures Rows(a + b) == Rows(a) + Rows(b)
  {
    if a == [] {
      assert a + b == b;
    } else {
      assert (a + b)[1..] == a[1..] + b;
      RowsConcat(a[1..], b);
    }
  }

  lemma RangeConcat(a: seq<Event>, b: seq<Event>, c: Column, lo: i64, hi: i64, lo': i64, hi': i64)
    requires IsRange(a, c, lo, hi) && IsRange(b, c, lo', hi')
    ensures IsRange(a + b, c, Min(lo, lo'), Max(hi, hi'))
  {
    forall x | Attains(a, c, x) || Attains(b, c, x) ensures Attains(a + b, c, x) {
      var e :| e in a + b && Cell(e, c) == x;
    }
  }

  /** Minimum and maximum of one column of one batch; None when it has no rows. */
  method BatchMinMax(rows: seq<Event>, c: Column) returns (r: Option<(i64, i64)>)
    ensures r.None? <==> rows == []
    ensures r.Some? ==> IsRange(rows, c, r.value.0, r.value.1)
  {
    r := None;
    for i := 0 to |rows|
      invariant r.None? <==> i == 0
      invariant r.Some? ==> IsRange(rows[..i], c, r.value.0, r.value.1)
    {
      var x := Cell(rows[i], c);
      assert rows[..i + 1] == rows[..i] + [rows[i]];
      assert IsRange([rows[i]], c, x, x) by {
        assert rows[i] in [rows[i]];
      }
      if r.Some? {
        RangeConcat(rows[..i], [rows[i]], c, r.value.0, r.value.1, x, x);
        r := Some((if x < r.value.0 then x else r.value.0, if r.value.1 < x then x else r.value.1));
      } else {
        assert rows[..i + 1] == [rows[i]];
        r := Some((x, x));
      }
    }
    assert rows[..|rows|] == rows;
  }

  lemma RowsOneMore(batches: Chunk, i: nat)
    requires i < |batches|
    ensures Rows(batches[..i + 1]) == Rows(batches[..i]) + batches[i].rows
  {
    assert batches[..i + 1] == batches[..i] + [batches[i]];
    RowsConcat(batches[..i], [batches[i]]);
    assert Rows([batches[i]]) == batches[i].rows + Rows([]);
  }

  lemma NothingHasEmptyRange(batches: Chunk, c: Column)
    requires batches == []
    ensures IsRange(Rows(batches), c, I64_MAX, I64_MIN)
  {
  }

  method ColMinMax(batches: Chunk, c: Column) returns (lo: i64, hi: i64)
    ensures IsRange(Rows(batches), c, lo, hi)
  {
    hide IsRange, Rows;
    lo, hi := I64_MAX, I64_MIN;
    NothingHasEmptyRange(batches[..0], c);
    for i := 0 to |batches|
      invariant IsRange(Rows(batches[..i]), c, lo, hi)
    {
      RowsOneMore(batches, i);
      var r := BatchMinMax(batches[i].rows, c);
      if r.Some? {
        RangeConcat(Rows(batches[..i]), batches[i].rows, c, lo, hi, r.value.0, r.value.1);
        lo := if r.value.0 < lo then r.value.0 else lo;
        hi := if hi < r.value.1 then r.value.1 else hi;
      } else {
        assert Rows(batches[..i + 1]) == Rows(batches[..i]);
      }
    }
    assert batches[..|batches|] == batches;
  }

  /** Metadata of one written chunk; the path and the file size come from the file system. */
  method WriteChunk(chunk: Chunk, path: Path, sizeBytes: int) returns (m: Meta)
    ensures MetaSound(m, Rows(chunk))
    ensures m.path == path && m.service == path.service && m.bucket == path.bucket && m.sizeBytes == sizeBytes
  {
    var count := 0;
    for i := 0 to |chunk|
      invariant count == |Rows(chunk[..i])|
    {
      RowsOneMore(chunk, i);
      count := count + |chunk[i].rows|;
    }
    assert chunk[..|chunk|] == chunk;
    var minTs, maxTs := ColMinMax(chunk, Timestamp);
    var minOffset, maxOffset := ColMinMax(chunk, KafkaOffset);
    m := Meta(path, path.service, path.bucket, minTs, maxTs, sizeBytes, count, minOffset, maxOffset);
  }

  // ----- What the compacted files say together -----

  ghost predicate AllSound(metas: seq<Meta>, files: seq<File>) {
    |metas| == |files| && forall i :: 0 <= i < |files| ==> MetaSound(metas[i], files[i])
  }

  function TotalCount(metas: seq<Meta>): int {
    if metas == [] then 0 else metas[0].count + TotalCount(metas[1..])
  }

  function KeySet(rows: seq<Event>): set<Key> {
    set e | e in rows :: e.key
  }

  lemma {:induction false} TotalIsRowCount(metas: seq<Meta>, files: seq<File>)
    requires AllSound(metas, files)
    ensures TotalCount(metas) == |Flatten(files)|
  {
    if files != [] {
      TotalIsRowCount(metas[1..], files[1..]);
    }
  }

  lemma {:induction false} DistinctKeysCount(rows: seq<Event>)
    requires DistinctKeys(rows)
    ensures |KeySet(rows)| == |rows|
  {
    if rows != [] {
      var init, e := rows[..|rows| - 1], rows[|rows| - 1];
      assert rows == init + [e];
      DistinctKeysCount(init);
      assert KeySet(rows) == KeySet(init) + {e.key};
      assert e.key !in KeySet(init);
    }
  }

  lemma SameKeys(rows: seq<Event>, out: seq<Event>)
    requires IsDedup(rows, out)
    ensures KeySet(out) == KeySet(rows)
  {
    forall k | k in KeySet(rows) ensures k in KeySet(out) {
      var e :| e in rows && e.key == k;
      assert HasNoLater(out, e);
    }
  }

  lemma {:induction false} FlattenAt(files: seq<File>, i: nat, e: Event) returns (p: nat)
    requires i < |files| && e in files[i]
    ensures |Flatten(files[..i])| <= p < |Flatten(files[..i + 1])| <= |Flatten(files)| && Flatten(files)[p] == e
  {
    var k: nat :| k < |files[i]| && files[i][k] == e;
    p := |Flatten(files[..i])| + k;
    assert files == files[..i + 1] + files[i + 1..];
    FlattenConcat(files[..i + 1], files[i + 1..]);
    assert files[..i + 1] == files[..i] + [files[i]];
    FlattenSnoc(files[..i], files[i]);
  }

  lemma EarlierFileEarlierRow(files: seq<File>, i: nat, j: nat, e: Event, f: Event)
    requires i < j < |files| && e in files[i] && f in files[j] && Sorted(Flatten(files))
    ensures e.timestamp <= f.timestamp
  {
    var p := FlattenAt(files, i, e);
    var q := FlattenAt(files, j, f);
    assert files[..j] == files[..i + 1] + files[i + 1..j];
    FlattenConcat(files[..i + 1], files[i + 1..j]);
  }

  /** The files a compaction writes cover consecutive time ranges, and their record counts
      add up to the number of distinct keys among the rows that were compacted. */
  lemma CompactedFilesMetadata(rows: seq<Event>, files: seq<File>, metas: seq<Meta>)
    requires IsCompaction(rows, Flatten(files)) && AllSound(metas, files)
    ensures forall i, j :: 0 <= i < j < |metas| ==> metas[i].maxTs <= metas[j].minTs
    ensures TotalCount(metas) == |KeySet(rows)|
  {
    forall i, j | 0 <= i < j < |metas| ensures metas[i].maxTs <= metas[j].minTs {
      if files[i] != [] && files[j] != [] {
        var e :| e in files[i] && Cell(e, Timestamp) == metas[i].maxTs;
        var f :| f in files[j] && Cell(f, Timestamp) == metas[j].minTs;
        EarlierFileEarlierRow(files, i, j, e, f);
      }
    }
    TotalIsRowCount(metas, files);
    SameKeys(rows, Flatten(files));
    DistinctKeysCount(Flatten(files));
  }
}
