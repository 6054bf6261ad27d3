/** Time pruning in front of the deduplicated `logs` view. */
module Query {
  import opened Base
  import opened Dedup
  import opened Catalog
  import opened Compaction

  predicate Pruned(m: Meta, timeFrom: int, timeTo: int) {
    m.maxTs < timeFrom || m.minTs > timeTo
  }

  /** The files the query reads. */
  function Scan(metas: seq<Meta>, files: seq<File>, timeFrom: int, timeTo: int): seq<File>
    requires |metas| == |files|
  {
    if files == [] then []
    else (if Pruned(metas[0], timeFrom, timeTo) then [] else [files[0]])
         + Scan(metas[1..], files[1..], timeFrom, timeTo)
  }

  /** The file has a row that is not before the window and one that is not after it. */
  ghost predicate Meets(rows: File, timeFrom: int, timeTo: int) {
    && (exists e :: e in rows && timeFrom <= e.timestamp)
    && (exists e :: e in rows && e.timestamp <= timeTo)
  }

  /** Exact metadata prune a file that has rows if and only if all of them are before the window or
      all of them are after it. */
  lemma PrunedIff(m: Meta, rows: File, timeFrom: int, timeTo: int)
    requires MetaSound(m, rows) && rows != []
    ensures Pruned(m, timeFrom, timeTo) <==> !Meets(rows, timeFrom, timeTo)
  {
    assert Attains(rows, Timestamp, m.minTs) && Attains(rows, Timestamp, m.maxTs);
    var first :| first in rows && Cell(first, Timestamp) == m.minTs;
    var last :| last in rows && Cell(last, Timestamp) == m.maxTs;
    assert forall e :: e in rows ==> m.minTs <= Cell(e, Timestamp) <= m.maxTs;
  }

  /** e is in a file that meets the window. */
  ghost predicate InFileOfWindow(files: seq<File>, timeFrom: int, timeTo: int, e: Event) {
    exists i :: 0 <= i < |files| && e in files[i] && Meets(files[i], timeFrom, timeTo)
  }

  lemma FirstOrLater(files: seq<File>, timeFrom: int, timeTo: int, e: Event)
    requires files != []
    ensures InFileOfWindow(files, timeFrom, timeTo, e) <==>
            (e in files[0] && Meets(files[0], timeFrom, timeTo)) || InFileOfWindow(files[1..], timeFrom, timeTo, e)
  {
    hide Meets;
    if i :| 0 <= i < |files[1..]| && e in files[1..][i] && Meets(files[1..][i], timeFrom, timeTo) {
      assert files[i + 1] == files[1..][i];
    }
    if i :| 0 <= i < |files| && e in files[i] && Meets(files[i], timeFrom, timeTo) {
      assert i == 0 || files[1..][i - 1] == files[i];
    }
  }

  lemma ScanFirst(metas: seq<Meta>, files: seq<File>, timeFrom: int, timeTo: int)
    requires |metas| == |files| && files != []
    ensures Flatten(Scan(metas, files, timeFrom, timeTo)) ==
            (if Pruned(metas[0], timeFrom, timeTo) then [] else files[0])
            + Flatten(Scan(metas[1..], files[1..], timeFrom, timeTo))
  {
    hide Pruned;
    var rest := Scan(metas[1..], files[1..], timeFrom, timeTo);
    assert ([files[0]] + rest)[1..] == rest && [] + rest == rest;
  }

  /** What a query reads: the rows of exactly the files that meet the window, and so nothing of a
      file that lies wholly before or after it. */
  lemma {:induction false} ScanIs(metas: seq<Meta>, files: seq<File>, timeFrom: int, timeTo: int, e: Event)
    requires AllSound(metas, files)
    ensures e in Flatten(Scan(metas, files, timeFrom, timeTo)) <==> InFileOfWindow(files, timeFrom, timeTo, e)
  {
    hide Pruned, Meets, MetaSound, InFileOfWindow, Scan, Flatten;
    if files == [] {
      NothingScanned(metas, files, timeFrom, timeTo, e);
    } else {
      ScanIs(metas[1..], files[1..], timeFrom, timeTo, e);
      ScanFirst(metas, files, timeFrom, timeTo);
      FirstOrLater(files, timeFrom, timeTo, e);
      if files[0] != [] {
        PrunedIff(metas[0], files[0], timeFrom, timeTo);
      }
    }
  }

  lemma NothingScanned(metas: seq<Meta>, files: seq<File>, timeFrom: int, timeTo: int, e: Event)
    requires |metas| == |files| && files == []
    ensures e !in Flatten(Scan(metas, files, timeFrom, timeTo)) && !InFileOfWindow(files, timeFrom, timeTo, e)
  {
  }

  predicate InWindow(e: Event, timeFrom: int, timeTo: int) {
    timeFrom <= e.timestamp <= timeTo
  }

  /** Pruning drops no row of the window, and invents none. */
  lemma {:induction false} ScanKeepsWindow(metas: seq<Meta>, files: seq<File>, timeFrom: int, timeTo: int, e: Event)
    requires AllSound(metas, files)
    ensures e in Flatten(Scan(metas, files, timeFrom, timeTo)) ==> e in Flatten(files)
    ensures e in Flatten(files) && InWindow(e, timeFrom, timeTo) ==> e in Flatten(Scan(metas, files, timeFrom, timeTo))
  {
    if files != [] {
      ScanKeepsWindow(metas[1..], files[1..], timeFrom, timeTo, e);
      var rest := Scan(metas[1..], files[1..], timeFrom, timeTo);
      if Pruned(metas[0], timeFrom, timeTo) {
        assert Scan(metas, files, timeFrom, timeTo) == rest;
        if e in files[0] {
          assert metas[0].minTs <= Cell(e, Timestamp) <= metas[0].maxTs;
        }
      } else {
        assert Scan(metas, files, timeFrom, timeTo) == [files[0]] + rest;
        assert ([files[0]] + rest)[1..] == rest;
      }
    }
  }

  /** The rows in some are among all rows and include all rows of the window. */
  ghost predicate KeepsWindow(all: seq<Event>, some: seq<Event>, timeFrom: int, timeTo: int) {
    && (forall e :: e in some ==> e in all)
    && (forall e :: e in all && InWindow(e, timeFrom, timeTo) ==> e in some)
  }

  /** Restricted to the window, the pruned view v always holds every row of the full view w;
      it holds no other row exactly when no key of the window has an earlier copy before it,
      and under replay consistency the two are the same. */
  ghost predicate Refines(all: seq<Event>, v: seq<Event>, w: seq<Event>, timeFrom: int, timeTo: int) {
    && (forall e :: e in w && InWindow(e, timeFrom, timeTo) ==> HasSame(v, e))
    && ((forall e :: e in v && InWindow(e, timeFrom, timeTo) ==> HasSame(w, e)) <==>
        NoHiddenEarlierCopy(all, v, timeFrom, timeTo))
    && (Consistent(all) ==> forall e :: InWindow(e, timeFrom, timeTo) ==> (e in v <==> e in w))
  }

  lemma PruningRefinesFullScan(
    metas: seq<Meta>, files: seq<File>, timeFrom: int, timeTo: int, v: seq<Event>, w: seq<Event>)
    requires AllSound(metas, files)
    requires IsDedup(Flatten(Scan(metas, files, timeFrom, timeTo)), v)
    requires IsDedup(Flatten(files), w)
    ensures Refines(Flatten(files), v, w, timeFrom, timeTo)
  {
    var all, some := Flatten(files), Flatten(Scan(metas, files, timeFrom, timeTo));
    forall e ensures (e in some ==> e in all) && (e in all && InWindow(e, timeFrom, timeTo) ==> e in some) {
      ScanKeepsWindow(metas, files, timeFrom, timeTo, e);
    }
    WindowRefines(all, some, timeFrom, timeTo, v, w);
  }

  lemma WindowRefines(all: seq<Event>, some: seq<Event>, timeFrom: int, timeTo: int, v: seq<Event>, w: seq<Event>)
    requires KeepsWindow(all, some, timeFrom, timeTo) && IsDedup(some, v) && IsDedup(all, w)
    ensures Refines(all, v, w, timeFrom, timeTo)
  {
    forall e | e in w && InWindow(e, timeFrom, timeTo)
      ensures HasSame(v, e) && (Consistent(all) ==> e in v)
    {
      assert HasNoLater(v, e);
      var f :| f in v && f.key == e.key && f.timestamp <= e.timestamp;
      EarliestOfAll(all, w, e, f);
    }
    forall e | e in v && InWindow(e, timeFrom, timeTo)
      ensures HasSame(w, e) <==> !HiddenEarlierCopy(all, e, timeFrom)
      ensures Consistent(all) ==> e in w
    {
      SpuriousRow(all, some, timeFrom, timeTo, v, w, e);
    }
  }

  lemma SpuriousRow(
    all: seq<Event>, some: seq<Event>, timeFrom: int, timeTo: int, v: seq<Event>, w: seq<Event>, e: Event)
    requires KeepsWindow(all, some, timeFrom, timeTo) && IsDedup(some, v) && IsDedup(all, w)
    requires e in v && InWindow(e, timeFrom, timeTo)
    ensures HasSame(w, e) <==> !HiddenEarlierCopy(all, e, timeFrom)
    ensures Consistent(all) ==> e in w
  {
    assert HasNoLater(w, e);
    var f :| f in w && f.key == e.key && f.timestamp <= e.timestamp;
    if timeFrom <= f.timestamp {
      EarliestOfAll(some, v, e, f);
    }
    if HiddenEarlierCopy(all, e, timeFrom) {
      var g :| g in all && g.key == e.key && g.timestamp < timeFrom;
      if h :| h in w && h.key == e.key && h.timestamp == e.timestamp {
        EarliestOfAll(all, w, h, g);
      }
    }
  }

  lemma EarliestOfAll(rows: seq<Event>, w: seq<Event>, e: Event, f: Event)
    requires IsDedup(rows, w) && e in w && f in rows && f.key == e.key
    ensures e.timestamp <= f.timestamp
  {
    assert HasNoLater(w, f);
    var g :| g in w && g.key == f.key && g.timestamp <= f.timestamp;
    SameKeySameRow(rows, w, e, g);
  }

  ghost predicate HiddenEarlierCopy(all: seq<Event>, e: Event, timeFrom: int) {
    exists f :: f in all && f.key == e.key && f.timestamp < timeFrom
  }

  ghost predicate NoHiddenEarlierCopy(all: seq<Event>, v: seq<Event>, timeFrom: int, timeTo: int) {
    forall e :: e in v && InWindow(e, timeFrom, timeTo) ==> !HiddenEarlierCopy(all, e, timeFrom)
  }
}
