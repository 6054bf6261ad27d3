/** A query fetches all its cold files through the cache first and reads them only afterwards. */
module ColdQueries {
  import opened Base
  import opened ColdCaching

  function Plains(uris: seq<string>): seq<Request> {
    seq(|uris|, i requires 0 <= i < |uris| => Plain(uris[i]))
  }

  ghost predicate AllFetchable(g: Config, uris: seq<string>) {
    forall i :: 0 <= i < |uris| ==> Fetch(g, uris[i]).Some?
  }

  ghost predicate NamesDiffer(uris: seq<string>) {
    forall i, j :: 0 <= i < j < |uris| ==> CacheName(uris[i]) != CacheName(uris[j])
  }

  /** The index entry of a file fetched from u. */
  function Made(g: Config, u: string): Entry
    requires Fetch(g, u).Some?
  {
    Entry(u, CacheName(u), |Fetch(g, u).value|)
  }

  function AllMade(g: Config, uris: seq<string>): seq<Entry>
    requires AllFetchable(g, uris)
  {
    seq(|uris|, i requires 0 <= i < |uris| => Made(g, uris[i]))
  }

  /** The bytes of all files of the query. */
  function Total(g: Config, uris: seq<string>): nat
    requires AllFetchable(g, uris)
  {
    Sum(AllMade(g, uris))
  }

  /** The files of the query are where it was told, with their own bytes. */
  ghost predicate AllThere(g: Config, c: Cache, uris: seq<string>)
    requires AllFetchable(g, uris)
  {
    forall i :: 0 <= i < |uris| ==>
      CacheName(uris[i]) in c.disk && c.disk[CacheName(uris[i])] == Fetch(g, uris[i]).value
  }

  ghost predicate Ok(g: Config, uris: set<string>, s: State) {
    Agrees(g, uris, s.cache) && ByUse(s.cache.entries, s.uses) && CountsOk(g, s)
  }

  lemma {:induction false} RunIsOk(g: Config, uris: set<string>, s: State, requests: seq<Request>)
    requires Compatible(g, uris) && OnlyRequests(requests, uris) && Ok(g, uris, s)
    ensures Ok(g, uris, Run(g, s, requests))
  {
    hide Compatible, Step, CountsOk, ByUse, Agrees;
    if requests != [] {
      var before := requests[..|requests| - 1];
      RunIsOk(g, uris, s, before);
      StepKeepsAgreement(g, uris, Run(g, s, before), Last(requests));
      StepKeepsOrder(g, Run(g, s, before), Last(requests));
      StepKeepsCounts(g, Run(g, s, before), Last(requests));
    }
  }

  lemma StartIsOk(g: Config, uris: set<string>, disk: map<string, Bytes>)
    ensures Ok(g, uris, Start(disk))
  {
  }

  // ----- Served files in order of last use -----

  function Position(us: seq<string>, v: string): (r: Option<nat>)
    ensures r.Some? ==> r.value < |us| && us[r.value] == v && v !in us[..r.value]
    ensures r.None? ==> v !in us
  {
    if us == [] then None
    else if us[0] == v then Some(0)
    else match Position(us[1..], v) case None => None case Some(i) => Some(i + 1)
  }

  /** v was served after the others. */
  function Moved(us: seq<string>, v: string): seq<string> {
    match Position(us, v)
    case None => us + [v]
    case Some(i) => us[..i] + us[i + 1..] + [v]
  }

  /** The different URIs among those served, in order of last use. */
  function LastUses(uses: seq<string>): seq<string> {
    if uses == [] then [] else Moved(LastUses(uses[..|uses| - 1]), Last(uses))
  }

  predicate Different(us: seq<string>) {
    forall i, j :: 0 <= i < j < |us| ==> us[i] != us[j]
  }

  lemma MovedIs(us: seq<string>, v: string)
    requires Different(us)
    ensures Different(Moved(us, v)) && (forall x :: x in Moved(us, v) <==> x in us || x == v)
    ensures |us| <= |Moved(us, v)| <= |us| + 1
    ensures us != [] && us[0] != v ==> Moved(us, v)[0] == us[0]
  {
    var i := Position(us, v);
    if i.Some? {
      assert us == us[..i.value] + [v] + us[i.value + 1..];
    }
  }

  /** LastUses lists exactly the URIs served, each once. */
  lemma {:induction false} LastUsesAre(uses: seq<string>)
    ensures Different(LastUses(uses)) && forall x :: x in LastUses(uses) <==> x in uses
  {
    if uses != [] {
      var before := uses[..|uses| - 1];
      LastUsesAre(before);
      MovedIs(LastUses(before), Last(uses));
      assert uses == before + [Last(uses)];
    }
  }

  lemma LastUsesSnoc(uses: seq<string>, v: string)
    ensures LastUses(uses + [v]) == Moved(LastUses(uses), v)
  {
    assert (uses + [v])[..|uses|] == uses;
  }

  // ----- One fetch after the other -----

  /** The files served lately, in order of last use, are the most recent entries of the index. */
  ghost predicate Whole(g: Config, c: Cache, us: seq<string>)
    requires AllFetchable(g, us)
  {
    |us| <= |c.entries| && c.entries[|c.entries| - |us|..] == AllMade(g, us)
  }

  /** The first file is gone, because the files served since do not fit together with it. */
  ghost predicate FirstIsGone(g: Config, s: State, us: seq<string>)
    requires AllFetchable(g, us)
  {
    |us| > 1 && CacheName(us[0]) !in s.cache.disk && Total(g, us) + s.dropped > g.maxBytes
  }

  ghost predicate Tracks(g: Config, s: State, us: seq<string>) {
    us != [] && AllFetchable(g, us) && (Whole(g, s.cache, us) || FirstIsGone(g, s, us))
  }

  /** A request that leaves the first file alone. */
  predicate Spares(r: Request, u: string) {
    r.write == Written && CacheName(r.uri) != CacheName(u) && CacheName(u) !in r.stuck
  }

  lemma TotalMore(g: Config, us: seq<string>, u: string)
    requires AllFetchable(g, us) && Fetch(g, u).Some?
    ensures AllFetchable(g, us + [u]) && AllMade(g, us + [u]) == AllMade(g, us) + [Made(g, u)]
    ensures Total(g, us + [u]) == Total(g, us) + |Fetch(g, u).value|
  {
    hide Fetch;
    SumConcat(AllMade(g, us), [Made(g, u)]);
    assert AllMade(g, us + [u]) == AllMade(g, us) + [Made(g, u)];
  }

  lemma SuffixSum(entries: seq<Entry>, k: nat)
    requires k <= |entries|
    ensures Sum(entries[k..]) <= Sum(entries)
  {
    SumConcat(entries[..k], entries[k..]);
    assert entries == entries[..k] + entries[k..];
  }

  lemma MovedFetchable(g: Config, us: seq<string>, v: string)
    requires AllFetchable(g, us) && Fetch(g, v).Some?
    ensures AllFetchable(g, Moved(us, v))
    ensures Position(us, v).None? ==> AllMade(g, Moved(us, v)) == AllMade(g, us) + [Made(g, v)]
    ensures Position(us, v).Some? ==> AllMade(g, Moved(us, v)) == Promote(AllMade(g, us), Position(us, v).value)
  {
    hide Fetch, CacheName;
    if Position(us, v).None? {
      TotalMore(g, us, v);
    } else {
      var i := Position(us, v).value;
      assert forall k :: 0 <= k < |us| - 1 ==> Moved(us, v)[k] == us[if k < i then k else k + 1];
      assert Last(Moved(us, v)) == v == us[i];
      assert AllMade(g, Moved(us, v)) == Promote(AllMade(g, us), i);
    }
  }

  lemma MovedTotal(g: Config, us: seq<string>, v: string)
    requires AllFetchable(g, us) && Fetch(g, v).Some?
    ensures AllFetchable(g, Moved(us, v)) && Total(g, us) <= Total(g, Moved(us, v))
    ensures Position(us, v).None? ==> Total(g, Moved(us, v)) == Total(g, us) + |Fetch(g, v).value|
  {
    hide Fetch, CacheName, Sum;
    MovedFetchable(g, us, v);
    if Position(us, v).None? {
      TotalMore(g, us, v);
    } else {
      SumPromote(AllMade(g, us), Position(us, v).value);
    }
  }

  /** A file that was in the cache already becomes the most recent entry. */
  lemma HitStep(g: Config, uris: set<string>, s: State, us: seq<string>, r: Request)
    requires Ok(g, uris, s) && AllFetchable(g, us) && Whole(g, s.cache, us) && IsHit(s.cache, r)
    ensures Fetch(g, r.uri).Some? && AllFetchable(g, Moved(us, r.uri))
    ensures Whole(g, Step(g, s, r).cache, Moved(us, r.uri))
  {
    hide CacheName, Fetch, Ok, Serve, Promote, AllFetchable, Moved;
    Cases(g, s.cache, r);
    var entries := s.cache.entries;
    var h := IndexOf(entries, r.uri).value;
    var m := |entries| - |us|;
    EntryIsMade(g, uris, s, h);
    MovedFetchable(g, us, r.uri);
    HitPosition(g, s.cache, us, r.uri, h);
    PromoteSuffix(entries, h, m);
    MovedLength(us, r.uri);
  }

  lemma EntryIsMade(g: Config, uris: set<string>, s: State, h: nat)
    requires Ok(g, uris, s) && h < |s.cache.entries|
    ensures var e := s.cache.entries[h]; Fetch(g, e.uri).Some? && e == Made(g, e.uri)
    ensures forall i, j :: 0 <= i < j < |s.cache.entries| ==> s.cache.entries[i].uri != s.cache.entries[j].uri
  {
    hide CacheName, Fetch, CountsOk, UsedLater;
    assert EntryAgrees(g, s.cache, s.cache.entries[h]);
  }

  lemma MovedLength(us: seq<string>, v: string)
    ensures |Moved(us, v)| == |us| + if Position(us, v).Some? then 0 else 1
  {
  }

  lemma HitPosition(g: Config, c: Cache, us: seq<string>, v: string, h: nat)
    requires AllFetchable(g, us) && Whole(g, c, us) && h < |c.entries| && c.entries[h].uri == v
    requires forall i, j :: 0 <= i < j < |c.entries| ==> c.entries[i].uri != c.entries[j].uri
    ensures Position(us, v) == if h < |c.entries| - |us| then None else Some(h - (|c.entries| - |us|))
  {
    hide CacheName, Fetch;
    var m := |c.entries| - |us|;
    forall i | 0 <= i < |us| ensures us[i] == v <==> m + i == h {
      assert c.entries[m + i] == c.entries[m..][i] == Made(g, us[i]);
    }
  }

  lemma PromoteSuffix(entries: seq<Entry>, h: nat, m: nat)
    requires h < |entries| && m <= |entries|
    ensures |Promote(entries, h)| == |entries|
    ensures h < m ==> Promote(entries, h)[m - 1..] == entries[m..] + [entries[h]]
    ensures h >= m ==> Promote(entries, h)[m..] == Promote(entries[m..], h - m)
  {
  }

  /** A file that is fetched displaces only older files, or the files do not fit together. */
  lemma MissStep(g: Config, uris: set<string>, s: State, us: seq<string>, r: Request)
    requires Ok(g, uris, s) && AllFetchable(g, us) && us != [] && Whole(g, s.cache, us) && |us| < MAX_ENTRIES
    requires Fetches(g, s.cache, r) && Spares(r, us[0])
    ensures AllFetchable(g, us + [r.uri])
    ensures var t := Step(g, s, r); Whole(g, t.cache, us + [r.uri]) || FirstIsGone(g, t, us + [r.uri])
  {
    hide CacheName, Fetch, ByUse, Agrees, Serve, MakeRoom, Sum, Whole;
    Cases(g, s.cache, r);
    TotalMore(g, us, r.uri);
    var size := |Fetch(g, r.uri).value|;
    var k := RoomIsMade(s.cache, size, g.maxBytes, r.stuck, s.dropped);
    var roomy := Roomier(g, s.cache, r);
    StepKeepsCounts(g, s, r);
    WholeParts(g, s.cache, us);
    if k <= |s.cache.entries| - |us| {
      KeptWhole(g, s.cache, roomy, us, r.uri, k);
    } else {
      FirstDropped(g, s, roomy, us, r.uri, k, r.stuck);
      assert (us + [r.uri])[0] == us[0];
    }
  }

  lemma WholeParts(g: Config, c: Cache, us: seq<string>)
    requires AllFetchable(g, us) && Whole(g, c, us)
    ensures |us| <= |c.entries|
  {
  }

  lemma KeptWhole(g: Config, c: Cache, d: Cache, us: seq<string>, u: string, k: nat)
    requires AllFetchable(g, us) && AllFetchable(g, us + [u]) && Fetch(g, u).Some? && Whole(g, c, us)
    requires k <= |c.entries| - |us| && d.entries == c.entries[k..] && |us| < MAX_ENTRIES
    requires AllMade(g, us + [u]) == AllMade(g, us) + [Made(g, u)]
    ensures Whole(g, Store(d, u, Fetch(g, u).value), us + [u])
  {
    hide CacheName, Fetch;
    var m := |d.entries| - |us|;
    assert d.entries[m..] == AllMade(g, us);
    var e := Made(g, u);
    PutKeepsRecent(d.entries, m, e);
  }

  lemma PutKeepsRecent(entries: seq<Entry>, m: nat, e: Entry)
    requires m <= |entries| && |entries| - m < MAX_ENTRIES
    ensures var put := Put(entries, e);
            |put| > |entries| - m && put[|put| - (|entries| - m) - 1..] == entries[m..] + [e]
  {
  }

  lemma FirstDropped(g: Config, s: State, d: Cache, us: seq<string>, u: string, k: nat, stuck: set<string>)
    requires AllFetchable(g, us) && Fetch(g, u).Some? && Whole(g, s.cache, us)
    requires us != [] && |s.cache.entries| - |us| < k && CacheName(us[0]) !in stuck
    requires Roomy(s.cache, d, k, |Fetch(g, u).value|, g.maxBytes, stuck, s.dropped)
    ensures us != [] && CacheName(us[0]) !in d.disk
    ensures Total(g, us) + |Fetch(g, u).value| + s.dropped > g.maxBytes
  {
    hide CacheName, Fetch, Sum;
    var m := |s.cache.entries| - |us|;
    var recent := s.cache.entries[m..];
    assert s.cache.entries[m] == recent[0] == Made(g, us[0]);
    assert s.cache.entries[..k][m] == Made(g, us[0]);
    assert s.cache.entries[k - 1..] == recent[k - 1 - m..];
    SuffixSum(recent, k - 1 - m);
  }

  /** A file that is gone stays away while other files are served. */
  lemma GoneStaysGone(g: Config, s: State, us: seq<string>, r: Request)
    requires CountsOk(g, s) && AllFetchable(g, us) && FirstIsGone(g, s, us) && Spares(r, us[0])
    ensures CacheName(us[0]) !in Step(g, s, r).cache.disk && s.dropped <= Step(g, s, r).dropped
  {
    hide CacheName, Fetch, Serve, MakeRoom, Sum;
    Cases(g, s.cache, r);
    StepKeepsCounts(g, s, r);
    if Fetches(g, s.cache, r) {
      var k := RoomIsMade(s.cache, |Fetch(g, r.uri).value|, g.maxBytes, r.stuck, s.dropped);
    }
  }

  lemma ServedIsFetchable(g: Config, uris: set<string>, s: State, r: Request)
    requires Ok(g, uris, s) && r.write == Written
    ensures Serve(g, s.cache, r).1.Path? <==> IsHit(s.cache, r) || Fetches(g, s.cache, r)
    ensures Serve(g, s.cache, r).1.Path? ==> Fetch(g, r.uri).Some?
    ensures !Serve(g, s.cache, r).1.Path? ==> Step(g, s, r) == s
  {
    hide CacheName, Fetch, Serve, MakeRoom, CountsOk, ByUse;
    Cases(g, s.cache, r);
    if IsHit(s.cache, r) {
      assert EntryAgrees(g, s.cache, s.cache.entries[IndexOf(s.cache.entries, r.uri).value]);
    }
  }

  /** One request of this query or another: the files served are tracked in order of last use. */
  lemma TrackStep(g: Config, uris: set<string>, s: State, us: seq<string>, r: Request)
    requires Ok(g, uris, s) && Tracks(g, s, us) && Spares(r, us[0])
    requires Serve(g, s.cache, r).1.Path? ==> |Moved(us, r.uri)| <= MAX_ENTRIES
    ensures Tracks(g, Step(g, s, r), if Serve(g, s.cache, r).1.Path? then Moved(us, r.uri) else us)
  {
    hide Step, Serve, CacheName, Fetch, Whole, AllFetchable, Agrees, ByUse, CountsOk, Total;
    ServedIsFetchable(g, uris, s, r);
    if Serve(g, s.cache, r).1.Path? {
      MovedTotal(g, us, r.uri);
      MovedFirst(us, r.uri);
      if FirstIsGone(g, s, us) {
        GoneStaysGone(g, s, us, r);
      } else if IsHit(s.cache, r) {
        HitStep(g, uris, s, us, r);
      } else {
        NotInSuffix(g, s.cache, us, r.uri);
        MissStep(g, uris, s, us, r);
      }
    }
  }

  lemma MovedFirst(us: seq<string>, v: string)
    requires us != [] && us[0] != v
    ensures |us| <= |Moved(us, v)| && Moved(us, v)[0] == us[0]
    ensures Position(us, v).None? ==> |Moved(us, v)| == |us| + 1
  {
  }

  lemma NotInSuffix(g: Config, c: Cache, us: seq<string>, v: string)
    requires AllFetchable(g, us) && Whole(g, c, us) && IndexOf(c.entries, v).None?
    ensures Position(us, v).None? && Moved(us, v) == us + [v]
  {
    hide CacheName, Fetch;
    var m := |c.entries| - |us|;
    forall i | 0 <= i < |us| ensures us[i] != v {
      assert c.entries[m + i] == c.entries[m..][i] == Made(g, us[i]);
    }
  }

  /** What was just served is the most recent entry. */
  lemma ServedIsLast(g: Config, uris: set<string>, s: State, r: Request)
    requires Compatible(g, uris) && Ok(g, uris, s) && r.uri in uris && Serve(g, s.cache, r).1.Path?
    ensures Tracks(g, Step(g, s, r), [r.uri])
  {
    hide CacheName, Fetch, Serve, MakeRoom, Compatible, UsedLater, CountsOk;
    var t := Step(g, s, r);
    Cases(g, s.cache, r);
    StepKeepsAgreement(g, uris, s, r);
    if !IsHit(s.cache, r) {
      var n := MissDropsOldest(g, s, r);
    }
    assert Last(t.cache.entries).uri == r.uri;
    assert EntryAgrees(g, t.cache, Last(t.cache.entries));
    assert t.cache.entries[|t.cache.entries| - 1..] == [Last(t.cache.entries)];
    assert AllMade(g, [r.uri]) == [Made(g, r.uri)];
  }

  lemma PlainsMore(us: seq<string>, n: nat)
    requires n < |us|
    ensures us[..n + 1] == us[..n] + [us[n]] && Plains(us[..n + 1]) == Plains(us[..n]) + [Plain(us[n])]
  {
  }

  lemma RunSnoc(g: Config, s: State, requests: seq<Request>, r: Request)
    ensures Run(g, s, requests + [r]) == Step(g, Run(g, s, requests), r)
  {
    hide Step;
    assert (requests + [r])[..|requests|] == requests;
  }

  // ----- When a served file is still there -----

  predicate AllSpare(requests: seq<Request>, u: string) {
    forall i :: 0 <= i < |requests| ==> Spares(requests[i], u)
  }

  /** The URIs served by the requests, in order. */
  function Served(g: Config, s: State, requests: seq<Request>): seq<string> {
    if requests == [] then []
    else
      var before, r := requests[..|requests| - 1], Last(requests);
      Served(g, s, before) + if Serve(g, Run(g, s, before).cache, r).1.Path? then [r.uri] else []
  }

  lemma {:induction false} RunTracks(g: Config, uris: set<string>, s: State, u: string, more: seq<Request>)
    requires Compatible(g, uris) && OnlyRequests(more, uris) && Ok(g, uris, s)
    requires Tracks(g, s, [u]) && AllSpare(more, u) && |LastUses([u] + Served(g, s, more))| <= MAX_ENTRIES
    ensures var us := LastUses([u] + Served(g, s, more));
            us != [] && us[0] == u && Tracks(g, Run(g, s, more), us)
  {
    hide Serve, Tracks, Ok, Compatible, Spares, Moved;
    if more == [] {
      assert [u] + [] == [] + [u];
      LastUsesSnoc([], u);
      NothingBefore(u);
    } else {
      var before, r := more[..|more| - 1], Last(more);
      var t := Run(g, s, before);
      var since := [u] + Served(g, s, before);
      RunIsOk(g, uris, s, before);
      LastUsesAre(since);
      assert Spares(r, u);
      SparesOther(r, u);
      if Serve(g, t.cache, r).1.Path? {
        assert [u] + Served(g, s, more) == since + [r.uri];
        LastUsesSnoc(since, r.uri);
      } else {
        assert [u] + Served(g, s, more) == since;
      }
      MovedIs(LastUses(since), r.uri);
      RunTracks(g, uris, s, u, before);
      TrackStep(g, uris, t, LastUses(since), r);
    }
  }

  lemma SparesOther(r: Request, u: string)
    requires Spares(r, u)
    ensures r.uri != u
  {
  }

  lemma NothingBefore(u: string)
    ensures Moved([], u) == [u]
  {
  }

  /** The file is where the query was told, with its own bytes. */
  predicate There(g: Config, c: Cache, u: string)
    requires Fetch(g, u).Some?
  {
    CacheName(u) in c.disk && c.disk[CacheName(u)] == Fetch(g, u).value
  }

  /** From any reachable cache: a file is served, and then any queries fetch other files, in any
      order and interleaved in any way, some of which may fail to be fetched. The file is still there,
      with its own bytes, if and only if no other was served since, or it and all the files served
      since, each counted once, fit into the limit less what the count cap has dropped, as long as
      they are no more than the index holds. */
  lemma {:induction false} FileStaysIff(
    g: Config, uris: set<string>, disk: map<string, Bytes>, before: seq<Request>, r: Request, more: seq<Request>)
    requires Compatible(g, uris) && OnlyRequests(before, uris) && r.uri in uris && OnlyRequests(more, uris)
    requires Serve(g, Run(g, Start(disk), before).cache, r).1.Path? && AllSpare(more, r.uri)
    requires var s := Step(g, Run(g, Start(disk), before), r);
             |LastUses([r.uri] + Served(g, s, more))| <= MAX_ENTRIES
    ensures var s := Step(g, Run(g, Start(disk), before), r);
            var t := Run(g, s, more);
            var us := LastUses([r.uri] + Served(g, s, more));
            && us != [] && us[0] == r.uri && AllFetchable(g, us)
            && (There(g, t.cache, r.uri) <==> |us| == 1 || Total(g, us) + t.dropped <= g.maxBytes)
  {
    hide Run, Step, Serve, Compatible, Ok, AllSpare, Fetch, CacheName, Tracks, LastUses;
    StartIsOk(g, uris, disk);
    RunIsOk(g, uris, Start(disk), before);
    var s0 := Run(g, Start(disk), before);
    ServedIsLast(g, uris, s0, r);
    var s := Step(g, s0, r);
    StepIsOk(g, uris, s0, r);
    RunIsOk(g, uris, s, more);
    RunTracks(g, uris, s, r.uri, more);
    FirstThereIff(g, uris, Run(g, s, more), LastUses([r.uri] + Served(g, s, more)));
  }

  lemma StepIsOk(g: Config, uris: set<string>, s: State, r: Request)
    requires Compatible(g, uris) && r.uri in uris && Ok(g, uris, s)
    ensures Ok(g, uris, Step(g, s, r))
  {
    hide Step, Compatible, Agrees, ByUse, CountsOk;
    StepKeepsAgreement(g, uris, s, r);
    StepKeepsOrder(g, s, r);
    StepKeepsCounts(g, s, r);
  }

  /** Of the files tracked, all are there or the first is not. */
  lemma FirstThereIff(g: Config, uris: set<string>, t: State, us: seq<string>)
    requires Ok(g, uris, t) && Tracks(g, t, us)
    ensures us != [] && AllFetchable(g, us)
    ensures There(g, t.cache, us[0]) <==> |us| == 1 || Total(g, us) + t.dropped <= g.maxBytes
    ensures There(g, t.cache, us[0]) ==> AllThere(g, t.cache, us)
  {
    hide CacheName, Fetch, Ok, Whole, Total;
    if Whole(g, t.cache, us) {
      WholeIsThere(g, uris, t, us);
    }
  }

  lemma WholeIsThere(g: Config, uris: set<string>, t: State, us: seq<string>)
    requires Ok(g, uris, t) && AllFetchable(g, us) && Whole(g, t.cache, us)
    ensures AllThere(g, t.cache, us) && (|us| <= 1 || Total(g, us) + t.dropped <= g.maxBytes)
  {
    hide CacheName, Fetch, ByUse, Sum;
    var m := |t.cache.entries| - |us|;
    forall i | 0 <= i < |us|
      ensures CacheName(us[i]) in t.cache.disk && t.cache.disk[CacheName(us[i])] == Fetch(g, us[i]).value
    {
      assert t.cache.entries[m + i] == t.cache.entries[m..][i] == Made(g, us[i]);
      assert EntryAgrees(g, t.cache, t.cache.entries[m + i]);
    }
    SuffixSum(t.cache.entries, m);
  }

  // ----- When a query can read what it fetched -----

  lemma RoomForOne(g: Config, s: State, r: Request)
    requires CountsOk(g, s) && |s.cache.entries| < MAX_ENTRIES
    ensures Step(g, s, r).dropped == s.dropped && |Step(g, s, r).cache.entries| <= |s.cache.entries| + 1
  {
    hide CacheName, Fetch, MakeRoom, Serve, Sum;
    Cases(g, s.cache, r);
    if Fetches(g, s.cache, r) {
      var k := KeptEntries(g, s, r);
    }
  }

  /** While there is room in the index, the count cap drops nothing. */
  lemma {:induction false} NothingCapped(g: Config, uris: set<string>, s: State, us: seq<string>, n: nat)
    requires Compatible(g, uris) && Ok(g, uris, s) && (forall i :: 0 <= i < |us| ==> us[i] in uris)
    requires n <= |us| && |s.cache.entries| + |us| <= MAX_ENTRIES
    ensures var t := Run(g, s, Plains(us[..n]));
            CountsOk(g, t) && t.dropped == s.dropped && |t.cache.entries| <= |s.cache.entries| + n
  {
    hide Run, Step, CountsOk;
    if n == 0 {
      NothingFetched(g, us, s);
    } else {
      NothingCapped(g, uris, s, us, n - 1);
      PlainsMore(us, n - 1);
      var t := Run(g, s, Plains(us[..n - 1]));
      RunSnoc(g, s, Plains(us[..n - 1]), Plain(us[n - 1]));
      RoomForOne(g, t, Plain(us[n - 1]));
      StepKeepsCounts(g, t, Plain(us[n - 1]));
    }
  }

  lemma NothingFetched(g: Config, us: seq<string>, s: State)
    ensures Run(g, s, Plains(us[..0])) == s
  {
    assert Plains(us[..0]) == [];
  }

  lemma {:induction false} QueryTracks(g: Config, uris: set<string>, s: State, us: seq<string>, n: nat)
    requires Compatible(g, uris) && Ok(g, uris, s) && (forall i :: 0 <= i < |us| ==> us[i] in uris)
    requires AllFetchable(g, us) && NamesDiffer(us) && 0 < n <= |us| <= MAX_ENTRIES
    ensures Ok(g, uris, Run(g, s, Plains(us[..n]))) && Tracks(g, Run(g, s, Plains(us[..n])), us[..n])
  {
    hide Run, Step, Serve, Ok, Tracks, CacheName, Fetch, Compatible;
    var t := Run(g, s, Plains(us[..n - 1]));
    PlainsMore(us, n - 1);
    RunSnoc(g, s, Plains(us[..n - 1]), Plain(us[n - 1]));
    RunIsOk(g, uris, s, Plains(us[..n - 1]));
    StepIsOk(g, uris, t, Plain(us[n - 1]));
    ServedIsFetchable(g, uris, t, Plain(us[n - 1]));
    PlainIsServed(g, t, us[n - 1]);
    if n == 1 {
      NothingFetched(g, us, s);
      ServedIsLast(g, uris, t, Plain(us[0]));
      assert us[..1] == [us[0]];
    } else {
      QueryTracks(g, uris, s, us, n - 1);
      NewInQuery(us, n - 1);
      TrackStep(g, uris, t, us[..n - 1], Plain(us[n - 1]));
    }
  }

  lemma PlainIsServed(g: Config, s: State, u: string)
    requires Fetch(g, u).Some?
    ensures IsHit(s.cache, Plain(u)) || Fetches(g, s.cache, Plain(u))
  {
  }

  lemma NewInQuery(us: seq<string>, n: nat)
    requires NamesDiffer(us) && 0 < n < |us|
    ensures Moved(us[..n], us[n]) == us[..n + 1] && Spares(Plain(us[n]), us[0])
  {
    hide CacheName;
    assert forall i :: 0 <= i < n ==> us[i] != us[n];
  }

  /** From any reachable cache, a query that fetches its cold files one after the other finds all
      of them in place afterwards if and only if there is at most one, or they fit into the limit
      together, less what the count cap has dropped; and the latter does not change when the index
      has entries to spare. */
  lemma {:induction false} QueryFilesStayIff(
    g: Config, uris: set<string>, disk: map<string, Bytes>, before: seq<Request>, us: seq<string>)
    requires Compatible(g, uris) && OnlyRequests(before, uris) && (forall i :: 0 <= i < |us| ==> us[i] in uris)
    requires AllFetchable(g, us) && NamesDiffer(us) && |us| <= MAX_ENTRIES
    ensures var s := Run(g, Start(disk), before);
            var t := Run(g, s, Plains(us));
            && (AllThere(g, t.cache, us) <==> |us| <= 1 || Total(g, us) + t.dropped <= g.maxBytes)
            && (|s.cache.entries| + |us| <= MAX_ENTRIES ==> t.dropped == s.dropped)
  {
    hide Run, Compatible, Ok, NamesDiffer, Tracks, Total, Fetch, CacheName;
    StartIsOk(g, uris, disk);
    RunIsOk(g, uris, Start(disk), before);
    var s := Run(g, Start(disk), before);
    assert us[..|us|] == us;
    if |s.cache.entries| + |us| <= MAX_ENTRIES {
      NothingCapped(g, uris, s, us, |us|);
    }
    if us != [] {
      QueryTracks(g, uris, s, us, |us|);
      FirstThereIff(g, uris, Run(g, s, Plains(us)), us);
    }
  }

  /** For tiered files of services free of '/' that is so without further conditions. */
  lemma {:induction false} TieredQueryFilesStayIff(
    g: Config, uris: set<string>, disk: map<string, Bytes>, before: seq<Request>, us: seq<string>)
    requires (forall u :: u in uris ==> Tiered(g.bucket, u)) && OnlyRequests(before, uris)
    requires (forall i :: 0 <= i < |us| ==> us[i] in uris) && Different(us)
    requires AllFetchable(g, us) && |us| <= MAX_ENTRIES
    ensures var t := Run(g, Run(g, Start(disk), before), Plains(us));
            AllThere(g, t.cache, us) <==> |us| <= 1 || Total(g, us) + t.dropped <= g.maxBytes
  {
    hide Run, Compatible, Total, Fetch, CacheName, Tiered, AllThere;
    TieredCompatible(g, uris);
    forall i, j | 0 <= i < j < |us| ensures CacheName(us[i]) != CacheName(us[j]) {
      TieredNamesDiffer(g.bucket, us[i], us[j]);
    }
    QueryFilesStayIff(g, uris, disk, before, us);
  }

  // ----- Runs -----

  /** Two files that do not fit together: fetching the second deletes the first. */
  lemma SecondFetchDeletesFirst(g: Config, u: string, v: string)
    requires Fetch(g, u).Some? && Fetch(g, v).Some? && CacheName(u) != CacheName(v)
    requires |Fetch(g, u).value| + |Fetch(g, v).value| > g.maxBytes
    ensures var t := Run(g, Start(map[]), Plains([u, v]));
            CacheName(u) !in t.cache.disk && CacheName(v) in t.cache.disk
  {
    hide CacheName, Fetch, MakeRoom, Serve;
    var s := Start(map[]);
    var s1 := Step(g, s, Plain(u));
    assert Plains([u, v]) == [] + [Plain(u)] + [Plain(v)];
    RunSnoc(g, s, [], Plain(u));
    RunSnoc(g, s, [] + [Plain(u)], Plain(v));
    Cases(g, s.cache, Plain(u));
    assert Roomier(g, s.cache, Plain(u)) == s.cache by {
      EmptyHasRoom(s.cache, |Fetch(g, u).value|, g.maxBytes);
    }
    assert s1.cache.entries == [Made(g, u)] && s1.dropped == 0;
    assert IndexOf(s1.cache.entries, v).None?;
    Cases(g, s1.cache, Plain(v));
    assert CountsOk(g, s1) by {
      StepKeepsCounts(g, s, Plain(u));
    }
    AllMustGo(g, s1, Plain(v));
  }

  lemma EmptyHasRoom(c: Cache, size: nat, maxBytes: nat)
    requires c.entries == []
    ensures MakeRoom(c, size, maxBytes, {}) == c
  {
  }

  /** The file served last must go for the next one, and can be deleted. */
  lemma AllMustGo(g: Config, s: State, r: Request)
    requires CountsOk(g, s) && s.cache.entries != [] && Fetches(g, s.cache, r)
    requires Last(s.cache.entries).path !in r.stuck
    requires s.dropped + Last(s.cache.entries).size + |Fetch(g, r.uri).value| > g.maxBytes
    ensures Last(s.cache.entries).path !in Roomier(g, s.cache, r).disk
  {
    hide Fetch, MakeRoom;
    var size := |Fetch(g, r.uri).value|;
    var k := RoomIsMade(s.cache, size, g.maxBytes, r.stuck, s.dropped);
    LastOfKept(s.cache.entries, k);
    assert s.cache.entries[..k] == s.cache.entries;
    assert Last(s.cache.entries) in s.cache.entries;
  }

  lemma LastOfKept(entries: seq<Entry>, k: nat)
    requires entries != [] && k <= |entries|
    ensures k < |entries| ==> Last(entries).size <= Sum(entries[k..])
  {
    if k < |entries| {
      OneOf(entries[k..], |entries| - 1 - k);
    }
  }

  /** Whatever the cache did before: the file it served last survives the fetch of another one, with
      its own bytes, if and only if the two fit together, less what the count cap has dropped. */
  lemma {:induction false} NextFetchKeepsIff(
    g: Config, uris: set<string>, disk: map<string, Bytes>, requests: seq<Request>, r: Request)
    requires Compatible(g, uris) && OnlyRequests(requests, uris)
    requires var s := Run(g, Start(disk), requests);
             && s.cache.entries != [] && Fetches(g, s.cache, r)
             && Last(s.cache.entries).path !in r.stuck && Last(s.cache.entries).path != CacheName(r.uri)
    ensures var s := Run(g, Start(disk), requests);
            var last, d := Last(s.cache.entries), Serve(g, s.cache, r).0;
            && Fetch(g, last.uri).Some?
            && (last.path in d.disk && d.disk[last.path] == Fetch(g, last.uri).value
                <==> s.dropped + last.size + |Fetch(g, r.uri).value| <= g.maxBytes)
  {
    StartIsOk(g, uris, disk);
    RunIsOk(g, uris, Start(disk), requests);
    var s := Run(g, Start(disk), requests);
    hide Run, Compatible, OnlyRequests, Fetch, CacheName, Serve, MakeRoom, Ok, Agrees, CountsOk, ByUse;
    LastAgrees(g, uris, s);
    Cases(g, s.cache, r);
    if s.dropped + Last(s.cache.entries).size + |Fetch(g, r.uri).value| <= g.maxBytes {
      LastStays(g, uris, s, r);
    } else {
      OkCounts(g, uris, s);
      AllMustGo(g, s, r);
    }
  }

  lemma OkCounts(g: Config, uris: set<string>, s: State)
    requires Ok(g, uris, s)
    ensures CountsOk(g, s)
  {
  }

  lemma LastAgrees(g: Config, uris: set<string>, s: State)
    requires Ok(g, uris, s) && s.cache.entries != []
    ensures EntryAgrees(g, s.cache, Last(s.cache.entries))
  {
    hide EntryAgrees;
  }

  lemma LastStays(g: Config, uris: set<string>, s: State, r: Request)
    requires Compatible(g, uris) && Ok(g, uris, s) && s.cache.entries != [] && Fetches(g, s.cache, r)
    requires s.dropped + Last(s.cache.entries).size + |Fetch(g, r.uri).value| <= g.maxBytes
    ensures var path := Last(s.cache.entries).path;
            path in s.cache.disk && path in Roomier(g, s.cache, r).disk
            && Roomier(g, s.cache, r).disk[path] == s.cache.disk[path]
  {
    hide Compatible, Fetch, CacheName, MakeRoom, ByUse, Agrees, CountsOk;
    var size := |Fetch(g, r.uri).value|;
    OkCounts(g, uris, s);
    var k := CountedRoom(g, s, r);
    var last := |s.cache.entries| - 1;
    LastAgrees(g, uris, s);
    LastIsKept(s.cache.entries, k, s.dropped, size, g.maxBytes);
    NotAmongFirst(g, uris, s, k, last);
  }

  lemma CountedRoom(g: Config, s: State, r: Request) returns (k: nat)
    requires CountsOk(g, s) && Fetches(g, s.cache, r)
    ensures Roomy(s.cache, Roomier(g, s.cache, r), k, |Fetch(g, r.uri).value|, g.maxBytes, r.stuck, s.dropped)
  {
    k := RoomIsMade(s.cache, |Fetch(g, r.uri).value|, g.maxBytes, r.stuck, s.dropped);
  }

  lemma LastIsKept(entries: seq<Entry>, k: nat, dropped: nat, size: nat, maxBytes: nat)
    requires entries != [] && k <= |entries| && dropped + Last(entries).size + size <= maxBytes
    requires k > 0 ==> Sum(entries[k - 1..]) + dropped + size > maxBytes
    ensures k < |entries|
  {
    assert entries[|entries| - 1..] == [Last(entries)];
  }

  // ----- The count cap -----

  /** A new file for which there is room. */
  lemma FetchFits(g: Config, s: State, u: string)
    requires !IsHit(s.cache, Plain(u)) && Fetch(g, u).Some?
    requires s.cache.current + |Fetch(g, u).value| <= g.maxBytes
    ensures var t := Step(g, s, Plain(u));
            && t.cache == Store(s.cache, u, Fetch(g, u).value)
            && t.dropped == s.dropped + if |s.cache.entries| >= MAX_ENTRIES then s.cache.entries[0].size else 0
  {
    hide Fetch, CacheName, Serve, Put;
    Cases(g, s.cache, Plain(u));
  }

  lemma PrefixFits(g: Config, us: seq<string>, n: nat)
    requires AllFetchable(g, us) && n <= |us|
    ensures AllFetchable(g, us[..n]) && Total(g, us[..n]) <= Total(g, us)
  {
    hide Fetch;
    var made := AllMade(g, us);
    assert made == made[..n] + made[n..];
    SumConcat(made[..n], made[n..]);
    assert AllMade(g, us[..n]) == made[..n];
  }

  lemma NotYetIndexed(g: Config, us: seq<string>, n: nat, c: Cache)
    requires AllFetchable(g, us) && NamesDiffer(us) && n < |us|
    requires AllFetchable(g, us[..n]) && c.entries == AllMade(g, us[..n])
    ensures !IsHit(c, Plain(us[n]))
  {
    hide Fetch, CacheName;
    assert forall i :: 0 <= i < n ==> c.entries[i].uri == us[i];
    assert forall i :: 0 <= i < n ==> us[i] != us[n];
  }

  /** Up to the count cap, files that fit are all indexed. */
  lemma {:induction false} FillIndex(g: Config, us: seq<string>, n: nat)
    requires AllFetchable(g, us) && NamesDiffer(us) && n <= |us| && n <= MAX_ENTRIES && Total(g, us) <= g.maxBytes
    ensures var t := Run(g, Start(map[]), Plains(us[..n]));
            && CountsOk(g, t) && t.dropped == 0
            && AllFetchable(g, us[..n]) && t.cache.entries == AllMade(g, us[..n])
            && (n > 0 ==> CacheName(us[0]) in t.cache.disk)
  {
    hide Run, Step, Fetch, CacheName, NamesDiffer, Total, Sum;
    if n == 0 {
      NothingFetched(g, us, Start(map[]));
      EveryRunCounts(g, map[], Plains(us[..0]));
    } else {
      FillIndex(g, us, n - 1);
      PlainsMore(us, n - 1);
      var s := Run(g, Start(map[]), Plains(us[..n - 1]));
      FillOne(g, us, n - 1, s);
      RunSnoc(g, Start(map[]), Plains(us[..n - 1]), Plain(us[n - 1]));
    }
  }

  lemma FillOne(g: Config, us: seq<string>, n: nat, s: State)
    requires AllFetchable(g, us) && NamesDiffer(us) && n < |us| && n < MAX_ENTRIES && Total(g, us) <= g.maxBytes
    requires CountsOk(g, s) && s.dropped == 0 && AllFetchable(g, us[..n]) && s.cache.entries == AllMade(g, us[..n])
    requires n > 0 ==> CacheName(us[0]) in s.cache.disk
    ensures var t := Step(g, s, Plain(us[n]));
            && CountsOk(g, t) && t.dropped == 0
            && AllFetchable(g, us[..n + 1]) && t.cache.entries == AllMade(g, us[..n + 1])
            && CacheName(us[0]) in t.cache.disk
  {
    hide Step, Fetch, CacheName, NamesDiffer, Sum;
    PlainsMore(us, n);
    NotYetIndexed(g, us, n, s.cache);
    PrefixFits(g, us, n + 1);
    TotalMore(g, us[..n], us[n]);
    FetchFits(g, s, us[n]);
    StepKeepsCounts(g, s, Plain(us[n]));
  }

  /** One file more than the index holds, all of them fitting into the limit: the first one's bytes
      stay counted, and its file stays on disk, although its entry is gone. */
  lemma {:induction false} CapDropsFirst(g: Config, us: seq<string>)
    requires |us| == MAX_ENTRIES + 1 && AllFetchable(g, us) && NamesDiffer(us) && Total(g, us) <= g.maxBytes
    ensures var t := Run(g, Start(map[]), Plains(us));
            && t.dropped == |Fetch(g, us[0]).value| && !Indexed(t.cache, us[0])
            && CacheName(us[0]) in t.cache.disk
  {
    hide Run, Step, Fetch, CacheName, NamesDiffer, Total, Sum;
    FillIndex(g, us, MAX_ENTRIES);
    PlainsMore(us, MAX_ENTRIES);
    assert us[..MAX_ENTRIES + 1] == us;
    var s := Run(g, Start(map[]), Plains(us[..MAX_ENTRIES]));
    RunSnoc(g, Start(map[]), Plains(us[..MAX_ENTRIES]), Plain(us[MAX_ENTRIES]));
    OneTooMany(g, us, MAX_ENTRIES, s);
  }

  lemma OneTooMany(g: Config, us: seq<string>, n: nat, s: State)
    requires AllFetchable(g, us) && NamesDiffer(us) && |us| == n + 1 && n == MAX_ENTRIES && Total(g, us) <= g.maxBytes
    requires CountsOk(g, s) && s.dropped == 0 && AllFetchable(g, us[..n]) && s.cache.entries == AllMade(g, us[..n])
    requires CacheName(us[0]) in s.cache.disk
    ensures var t := Step(g, s, Plain(us[n]));
            && t.dropped == |Fetch(g, us[0]).value| && !Indexed(t.cache, us[0])
            && CacheName(us[0]) in t.cache.disk
  {
    hide Step, Fetch, CacheName, Sum;
    NotYetIndexed(g, us, n, s.cache);
    PrefixFits(g, us, n + 1);
    assert us[..n + 1] == us == us[..n] + [us[n]];
    TotalMore(g, us[..n], us[n]);
    FetchFits(g, s, us[n]);
    var entries := Step(g, s, Plain(us[n])).cache.entries;
    assert entries == AllMade(g, us)[1..];
    forall i | 0 <= i < |entries| ensures entries[i].uri != us[0] {
      assert entries[i] == Made(g, us[i + 1]);
    }
  }

  /** The i-th of a family of tiered files, told apart by the lengths of their names. */
  function LetterKey(i: nat): string {
    "svc/2024-01-01-00/" + seq(i + 1, _ => 'a')
  }

  function LetterUri(i: nat): string {
    SCHEME + "logs" + "/" + LetterKey(i)
  }

  /** n objects of one byte. */
  function Letters(n: nat): map<string, Bytes> {
    if n == 0 then map[] else Letters(n - 1)[LetterKey(n - 1) := [0]]
  }

  lemma {:induction false} LettersAre(n: nat, i: nat)
    requires i < n
    ensures LetterKey(i) in Letters(n) && Letters(n)[LetterKey(i)] == [0]
  {
    if i < n - 1 {
      LettersAre(n - 1, i);
      assert |LetterKey(i)| != |LetterKey(n - 1)|;
    }
  }

  lemma LetterIsTiered(i: nat)
    ensures Tiered("logs", LetterUri(i))
  {
    hide CacheName;
    var filename := seq(i + 1, _ => 'a');
    assert LetterKey(i) == "svc" + "/" + "2024-01-01-00" + "/" + filename;
    assert LetterUri(i) == TierUri("logs", "svc", "2024-01-01-00", filename);
    assert Safe("2024-01-01-00") && Safe(filename) && '/' !in "svc";
  }

  lemma LetterIsThere(g: Config, i: nat)
    requires g.bucket == "logs" && LetterKey(i) in g.objects && g.objects[LetterKey(i)] == [0]
    ensures Fetch(g, LetterUri(i)) == Some([0]) && |CacheName(LetterUri(i))| == 24 + i
  {
    var u, key := LetterUri(i), LetterKey(i);
    assert u == (SCHEME + "logs" + "/") + key;
    assert u[|SCHEME + "logs" + "/"|..] == key;
    assert u == SCHEME + ("logs" + "/" + key);
    assert u[|SCHEME|..] == "logs" + "/" + key;
  }

  lemma {:induction false} OnesSum(entries: seq<Entry>)
    requires forall i :: 0 <= i < |entries| ==> entries[i].size == 1
    ensures Sum(entries) == |entries|
  {
    if entries != [] {
      OnesSum(entries[1..]);
    }
  }

  /** The count cap does drop bytes: n tiered objects of one byte, one more than the index holds, and
      a limit that all of them fit into. */
  lemma CapDropsBytes(n: nat) returns (g: Config, us: seq<string>)
    requires n == 65_536 + 1
    ensures forall i :: 0 <= i < |us| ==> Tiered(g.bucket, us[i])
    ensures g.maxBytes == n && Run(g, Start(map[]), Plains(us)).dropped == 1
  {
    g := Config("logs", n, Letters(n));
    us := seq(n, i requires 0 <= i < n => LetterUri(i));
    forall i | 0 <= i < n
      ensures Fetch(g, us[i]) == Some([0]) && |CacheName(us[i])| == 24 + i && Tiered("logs", us[i])
    {
      LettersAre(n, i);
      LetterIsThere(g, i);
      LetterIsTiered(i);
    }
    hide Fetch, CacheName, LetterUri, Letters, Tiered;
    OnesSum(AllMade(g, us));
    CapDropsFirst(g, us);
  }

  /** Two tiered objects of one byte each, and a limit of one byte: the second fetch of a query
      deletes the file that the first one returned. */
  lemma QueryLosesItsFile() returns (g: Config, u: string, v: string)
    ensures Tiered(g.bucket, u) && Tiered(g.bucket, v) && Fetch(g, u) == Some([0]) && Fetch(g, v) == Some([0])
    ensures CacheName(u) !in Run(g, Start(map[]), Plains([u, v])).cache.disk
  {
    g := Config("logs", 1, Letters(2));
    u, v := LetterUri(0), LetterUri(1);
    LettersAre(2, 0);
    LettersAre(2, 1);
    LetterIsThere(g, 0);
    LetterIsThere(g, 1);
    LetterIsTiered(0);
    LetterIsTiered(1);
    hide Fetch, CacheName, Run, Tiered;
    SecondFetchDeletesFirst(g, u, v);
  }
}
