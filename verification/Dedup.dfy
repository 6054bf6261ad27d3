/** The deduplicating window query of the `logs` view and of compaction, and time pruning. */
module Dedup {
  import opened Base

  // ----- ROW_NUMBER() OVER (PARTITION BY key ORDER BY timestamp) -----

  /** A physical order of the rows, which settles the ties that ORDER BY timestamp leaves open. */
  ghost predicate IsTieBreak(rows: seq<Event>, rank: seq<int>) {
    |rank| == |rows| && forall i, j :: 0 <= i < j < |rank| ==> rank[i] != rank[j]
  }

  predicate Precedes(rows: seq<Event>, rank: seq<int>, j: nat, i: nat)
    requires |rank| == |rows| && i < |rows| && j < |rows|
  {
    && rows[j].key == rows[i].key
    && (rows[j].timestamp < rows[i].timestamp
        || (rows[j].timestamp == rows[i].timestamp && rank[j] < rank[i]))
  }

  function Before(rows: seq<Event>, rank: seq<int>, i: nat): set<nat>
    requires |rank| == |rows| && i < |rows|
  {
    set j: nat | j < |rows| && Precedes(rows, rank, j, i)
  }

  function RowNumber(rows: seq<Event>, rank: seq<int>, i: nat): nat
    requires |rank| == |rows| && i < |rows|
  {
    1 + |Before(rows, rank, i)|
  }

  /** WHERE _rn = 1, over the first n rows. */
  function FirstRows(rows: seq<Event>, rank: seq<int>, n: nat): seq<Event>
    requires |rank| == |rows| && n <= |rows|
  {
    if n == 0 then []
    else FirstRows(rows, rank, n - 1) + (if RowNumber(rows, rank, n - 1) == 1 then [rows[n - 1]] else [])
  }

  /** What the query promises: one row of each key, and none of that key is earlier. */
  ghost predicate IsDedup(rows: seq<Event>, out: seq<Event>) {
    && (forall e :: e in out ==> e in rows)
    && DistinctKeys(out)
    && (forall e :: e in rows ==> HasNoLater(out, e))
  }

  ghost predicate DistinctKeys(rows: seq<Event>) {
    forall i, j :: 0 <= i < j < |rows| ==> rows[i].key != rows[j].key
  }

  ghost predicate HasNoLater(out: seq<Event>, e: Event) {
    exists f :: f in out && f.key == e.key && f.timestamp <= e.timestamp
  }

  ghost predicate Kept(rows: seq<Event>, rank: seq<int>, i: nat)
    requires |rank| == |rows|
  {
    i < |rows| && RowNumber(rows, rank, i) == 1
  }

  lemma {:induction false} FirstRowsAre(rows: seq<Event>, rank: seq<int>, n: nat, e: Event)
    requires |rank| == |rows| && n <= |rows|
    ensures e in FirstRows(rows, rank, n) <==> exists i :: 0 <= i < n && Kept(rows, rank, i) && rows[i] == e
  {
    if n > 0 {
      FirstRowsAre(rows, rank, n - 1, e);
      if i :| 0 <= i < n && Kept(rows, rank, i) && rows[i] == e {
        assert i < n - 1 || e in FirstRows(rows, rank, n);
      }
      if e in FirstRows(rows, rank, n) && e !in FirstRows(rows, rank, n - 1) {
        assert Kept(rows, rank, n - 1);
      }
    }
  }

  lemma KeptIsMinimal(rows: seq<Event>, rank: seq<int>, i: nat, j: nat)
    requires |rank| == |rows| && Kept(rows, rank, i) && j < |rows|
    ensures !Precedes(rows, rank, j, i)
  {
    assert Before(rows, rank, i) == {};
    assert j !in Before(rows, rank, i);
  }

  lemma TwoKeptDiffer(rows: seq<Event>, rank: seq<int>, i: nat, j: nat)
    requires IsTieBreak(rows, rank) && i < j && Kept(rows, rank, i) && Kept(rows, rank, j)
    ensures rows[i].key != rows[j].key
  {
    KeptIsMinimal(rows, rank, i, j);
    KeptIsMinimal(rows, rank, j, i);
    assert rank[i] != rank[j];
  }

  lemma {:induction false} KeptKeysDiffer(rows: seq<Event>, rank: seq<int>, n: nat)
    requires IsTieBreak(rows, rank) && n <= |rows|
    ensures DistinctKeys(FirstRows(rows, rank, n))
  {
    if n > 0 {
      KeptKeysDiffer(rows, rank, n - 1);
      var prev := FirstRows(rows, rank, n - 1);
      if Kept(rows, rank, n - 1) {
        assert FirstRows(rows, rank, n) == prev + [rows[n - 1]];
        forall i | 0 <= i < |prev| ensures prev[i].key != rows[n - 1].key {
          FirstRowsAre(rows, rank, n - 1, prev[i]);
          var k: nat :| 0 <= k < n - 1 && Kept(rows, rank, k) && rows[k] == prev[i];
          TwoKeptDiffer(rows, rank, k, n - 1);
        }
      }
    }
  }

  /** Every row has a kept row of its key that is no later. */
  lemma {:induction false} Leader(rows: seq<Event>, rank: seq<int>, i: nat) returns (k: nat)
    requires IsTieBreak(rows, rank) && i < |rows|
    ensures Kept(rows, rank, k)
    ensures rows[k].key == rows[i].key && rows[k].timestamp <= rows[i].timestamp
    decreases Before(rows, rank, i)
  {
    if Before(rows, rank, i) == {} {
      k := i;
    } else {
      var j :| j in Before(rows, rank, i);
      assert j !in Before(rows, rank, j);
      assert Before(rows, rank, j) <= Before(rows, rank, i);
      k := Leader(rows, rank, j);
    }
  }

  /** The SQL keeps exactly one row per key, a minimal one, however ties are broken. */
  lemma RowNumberOneIsDedup(rows: seq<Event>, rank: seq<int>)
    requires IsTieBreak(rows, rank)
    ensures IsDedup(rows, FirstRows(rows, rank, |rows|))
  {
    var out := FirstRows(rows, rank, |rows|);
    forall e | e in out ensures e in rows {
      FirstRowsAre(rows, rank, |rows|, e);
    }
    KeptKeysDiffer(rows, rank, |rows|);
    forall e | e in rows ensures HasNoLater(out, e) {
      var i: nat :| i < |rows| && rows[i] == e;
      var k := Leader(rows, rank, i);
      FirstRowsAre(rows, rank, |rows|, rows[k]);
      assert rows[k] in out;
    }
  }

  /** Conversely, every result the relation allows is one the SQL can produce. */
  lemma EveryDedupIsARowNumbering(rows: seq<Event>, out: seq<Event>) returns (rank: seq<int>)
    requires IsDedup(rows, out)
    ensures IsTieBreak(rows, rank)
    ensures forall e :: e in FirstRows(rows, rank, |rows|) <==> e in out
  {
    rank := seq(|rows|, i requires 0 <= i < |rows| => if rows[i] in out then i else |rows| + i);
    var kept := FirstRows(rows, rank, |rows|);
    forall e | e in kept ensures e in out {
      FirstRowsAre(rows, rank, |rows|, e);
      var i :| 0 <= i < |rows| && Kept(rows, rank, i) && rows[i] == e;
      assert HasNoLater(out, e);
      var f :| f in out && f.key == e.key && f.timestamp <= e.timestamp;
      var j: nat :| j < |rows| && rows[j] == f;
      KeptIsMinimal(rows, rank, i, j);
    }
    RowNumberOneIsDedup(rows, rank);
    forall e | e in out ensures e in kept {
      assert HasNoLater(kept, e);
      var f :| f in kept && f.key == e.key && f.timestamp <= e.timestamp;
      SameKeySameRow(rows, out, e, f);
    }
  }

  lemma SameKeySameRow(rows: seq<Event>, out: seq<Event>, e: Event, f: Event)
    requires IsDedup(rows, out) && e in out && f in out && e.key == f.key
    ensures e == f
  {
    var i :| 0 <= i < |out| && out[i] == e;
    var j :| 0 <= j < |out| && out[j] == f;
    assert i == j;
  }

  // ----- Views and compaction -----

  /** The rows of w all have a row of v with their key and timestamp. */
  ghost predicate Covers(v: seq<Event>, w: seq<Event>) {
    forall e :: e in w ==> HasSame(v, e)
  }

  ghost predicate HasSame(v: seq<Event>, e: Event) {
    exists f :: f in v && f.key == e.key && f.timestamp == e.timestamp
  }

  /** Two runs of the query over the same rows can differ only in which of several
      simultaneous copies they pick; under replay consistency they do not differ at all. */
  lemma ViewsAgree(rows: seq<Event>, v: seq<Event>, w: seq<Event>)
    requires IsDedup(rows, v) && IsDedup(rows, w)
    ensures Covers(v, w) && Covers(w, v)
    ensures Consistent(rows) ==> forall e :: e in v <==> e in w
  {
    ViewCovers(rows, v, w);
    ViewCovers(rows, w, v);
  }

  lemma ViewCovers(rows: seq<Event>, v: seq<Event>, w: seq<Event>)
    requires IsDedup(rows, v) && IsDedup(rows, w)
    ensures Covers(v, w)
    ensures Consistent(rows) ==> forall e :: e in w ==> e in v
  {
    forall e | e in w ensures HasSame(v, e) && (Consistent(rows) ==> e in v) {
      assert HasNoLater(v, e);
      var f :| f in v && f.key == e.key && f.timestamp <= e.timestamp;
      assert HasNoLater(w, f);
      var g :| g in w && g.key == f.key && g.timestamp <= f.timestamp;
      SameKeySameRow(rows, w, e, g);
    }
  }

  lemma NoLaterTrans(v: seq<Event>, e: Event, f: Event)
    requires f.key == e.key && f.timestamp <= e.timestamp && HasNoLater(v, f)
    ensures HasNoLater(v, e)
  {
    var g :| g in v && g.key == f.key && g.timestamp <= f.timestamp;
  }

  lemma AnswersSurviveCompaction(a: seq<Event>, d: seq<Event>, b: seq<Event>, v: seq<Event>)
    requires IsDedup(a, d) && IsDedup(d + b, v)
    ensures IsDedup(a + b, v)
  {
    forall e | e in a + b ensures HasNoLater(v, e) {
      if e in b {
        assert e in d + b;
      } else {
        assert HasNoLater(d, e);
        var f :| f in d && f.key == e.key && f.timestamp <= e.timestamp;
        assert f in d + b;
        NoLaterTrans(v, e, f);
      }
    }
    forall e | e in v ensures e in a + b {
      assert e in d + b;
    }
  }

  /** Replacing the rows a by their dedup leaves the view as it was: every answer over the
      compacted rows is an answer over the original ones, and any two answers agree. */
  lemma CompactionPreservesView(a: seq<Event>, d: seq<Event>, b: seq<Event>, v: seq<Event>, w: seq<Event>)
    requires IsDedup(a, d)
    requires IsDedup(d + b, v) && IsDedup(a + b, w)
    ensures IsDedup(a + b, v)
    ensures Covers(v, w) && Covers(w, v)
    ensures Consistent(a + b) ==> forall e :: e in v <==> e in w
  {
    AnswersSurviveCompaction(a, d, b, v);
    ViewsAgree(a + b, v, w);
  }

  /** A view depends on which rows there are, not on their order or multiplicity. */
  lemma DedupOfSameRows(a: seq<Event>, b: seq<Event>, v: seq<Event>)
    requires forall e :: e in a <==> e in b
    requires IsDedup(a, v)
    ensures IsDedup(b, v)
  {
  }

  ghost predicate Sorted(rows: seq<Event>) {
    forall i, j :: 0 <= i < j < |rows| ==> rows[i].timestamp <= rows[j].timestamp
  }

  /** What the compaction query returns: deduplicated, and in timestamp order. */
  ghost predicate IsCompaction(rows: seq<Event>, out: seq<Event>) {
    IsDedup(rows, out) && Sorted(out)
  }
}
