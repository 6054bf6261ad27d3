/** The on-disk LRU cache in front of the object store. */
module ColdCaching {
  import opened Base

  type Bytes = seq<bv8>

  datatype Entry = Entry(uri: string, path: string, size: nat)

  /** The index in order of use, least recent first; the byte count; the cache directory. */
  datatype Cache = Cache(entries: seq<Entry>, current: nat, disk: map<string, Bytes>)

  /** The object store by key; objects do not change once uploaded. */
  datatype Config = Config(bucket: string, maxBytes: nat, objects: map<string, Bytes>)

  /** What the disk did with a write: a failed one leaves the file as it was, or truncated and with
      the first `left` bytes of what was to be written. */
  datatype WriteResult = Written | NotWritten(left: Option<nat>)

  /** `reachable`: the object store answers. `stuck`: files that cannot be deleted. */
  datatype Request = Request(uri: string, reachable: bool, stuck: set<string>, write: WriteResult)

  datatype Outcome = Path(path: string) | InvalidUri | FetchFailed | WriteFailed

  const MAX_ENTRIES: nat := 65_536

  // ----- Names -----

  const SCHEME := "s3://"

  function StripPrefix(s: string, prefix: string): Option<string> {
    if prefix <= s then Some(s[|prefix|..]) else None
  }

  function Flat(s: string): string {
    seq(|s|, i requires 0 <= i < |s| => if s[i] == '/' then '_' else s[i])
  }

  function CacheName(uri: string): string {
    match StripPrefix(uri, SCHEME)
    case None => Flat(uri)
    case Some(rest) => Flat(rest)
  }

  function KeyOf(bucket: string, uri: string): Option<string> {
    StripPrefix(uri, SCHEME + bucket + "/")
  }

  /** The bytes the object store has for the URI. */
  function Fetch(g: Config, uri: string): Option<Bytes> {
    match KeyOf(g.bucket, uri)
    case None => None
    case Some(key) => if key in g.objects then Some(g.objects[key]) else None
  }

  /** What is on disk after a failed write. */
  function PartWritten(disk: map<string, Bytes>, path: string, bytes: Bytes, left: Option<nat>): map<string, Bytes> {
    match left
    case None => disk
    case Some(n) => disk[path := bytes[..Min(n, |bytes|)]]
  }

  // ----- One request, as a function -----

  function IndexOf(entries: seq<Entry>, uri: string): (r: Option<nat>)
    ensures r.Some? ==> r.value < |entries| && entries[r.value].uri == uri
    ensures r.None? ==> forall i :: 0 <= i < |entries| ==> entries[i].uri != uri
  {
    if entries == [] then None
    else if entries[0].uri == uri then Some(0)
    else match IndexOf(entries[1..], uri) case None => None case Some(i) => Some(i + 1)
  }

  function Promote(entries: seq<Entry>, i: nat): seq<Entry>
    requires i < |entries|
  {
    entries[..i] + entries[i + 1..] + [entries[i]]
  }

  /** Drops the least recently used entry and its file; the subtraction saturates. */
  function PopLru(c: Cache, stuck: set<string>): Cache
    requires c.entries != []
  {
    var e := c.entries[0];
    Cache(c.entries[1..], Max(c.current - e.size, 0), if e.path in stuck then c.disk else c.disk - {e.path})
  }

  function MakeRoom(c: Cache, size: nat, maxBytes: nat, stuck: set<string>): Cache
    decreases |c.entries|
  {
    if c.current + size <= maxBytes || c.entries == [] then c
    else MakeRoom(PopLru(c, stuck), size, maxBytes, stuck)
  }

  /** At the count cap the index silently drops its oldest entry, but neither the file nor its
      bytes from the count. */
  function Put(entries: seq<Entry>, e: Entry): seq<Entry> {
    if |entries| >= MAX_ENTRIES then entries[1..] + [e] else entries + [e]
  }

  function Store(c: Cache, uri: string, bytes: Bytes): Cache {
    Cache(Put(c.entries, Entry(uri, CacheName(uri), |bytes|)), c.current + |bytes|, c.disk[CacheName(uri) := bytes])
  }

  function Serve(g: Config, c: Cache, r: Request): (Cache, Outcome) {
    match IndexOf(c.entries, r.uri)
    case Some(i) => (c.(entries := Promote(c.entries, i)), Path(c.entries[i].path))
    case None =>
      if KeyOf(g.bucket, r.uri).None? then (c, InvalidUri)
      else
        match (if r.reachable then Fetch(g, r.uri) else None)
        case None => (c, FetchFailed)
        case Some(bytes) =>
          var roomy := MakeRoom(c, |bytes|, g.maxBytes, r.stuck);
          match r.write
          case Written => (Store(roomy, r.uri, bytes), Path(CacheName(r.uri)))
          case NotWritten(left) =>
            (roomy.(disk := PartWritten(roomy.disk, CacheName(r.uri), bytes, left)), WriteFailed)
  }

  // ----- The cache as a program -----

  class ColdCache {
    const config: Config
    var entries: seq<Entry>
    var currentBytes: nat
    var disk: map<string, Bytes>

    function Contents(): Cache
      reads this
    {
      Cache(entries, currentBytes, disk)
    }

    /** Files may have survived an earlier process; the index starts empty. */
    constructor (config: Config, disk: map<string, Bytes>)
      ensures this.config == config && Contents() == Cache([], 0, disk)
    {
      this.config := config;
      entries, currentBytes, this.disk := [], 0, disk;
    }

    method GetOrFetch(r: Request) returns (outcome: Outcome)
      modifies this
      ensures (Contents(), outcome) == Serve(config, old(Contents()), r)
    {
      var found := IndexOf(entries, r.uri);
      if found.Some? {
        outcome := Path(entries[found.value].path);
        entries := Promote(entries, found.value);
        return;
      }
      if KeyOf(config.bucket, r.uri).None? {
        return InvalidUri;
      }
      var answer := if r.reachable then Fetch(config, r.uri) else None;
      if answer.None? {
        return FetchFailed;
      }
      var bytes := answer.value;
      while currentBytes + |bytes| > config.maxBytes
        invariant MakeRoom(Contents(), |bytes|, config.maxBytes, r.stuck)
               == MakeRoom(old(Contents()), |bytes|, config.maxBytes, r.stuck)
        decreases |entries|
      {
        if entries == [] {
          break;
        }
        var lru := entries[0];
        entries := entries[1..];
        if lru.path !in r.stuck {
          disk := disk - {lru.path};
        }
        currentBytes := if currentBytes >= lru.size then currentBytes - lru.size else 0;
      }
      var path := CacheName(r.uri);
      match r.write
      case NotWritten(left) =>
        disk := PartWritten(disk, path, bytes, left);
        outcome := WriteFailed;
      case Written =>
        disk := disk[path := bytes];
        currentBytes := currentBytes + |bytes|;
        entries := Put(entries, Entry(r.uri, path, |bytes|));
        outcome := Path(path);
    }
  }

  // ----- Runs -----

  /** `uses` are the URIs served so far; `dropped` the bytes of entries lost to the count cap. */
  datatype State = State(cache: Cache, uses: seq<string>, dropped: nat)

  function Start(disk: map<string, Bytes>): State {
    State(Cache([], 0, disk), [], 0)
  }

  function IsHit(c: Cache, r: Request): bool {
    IndexOf(c.entries, r.uri).Some?
  }

  /** The bytes the count cap drops when the request is served. */
  function DroppedBy(g: Config, c: Cache, r: Request): nat {
    if IsHit(c, r) || !Serve(g, c, r).1.Path? then 0
    else
      var kept := MakeRoom(c, |Fetch(g, r.uri).value|, g.maxBytes, r.stuck).entries;
      if |kept| >= MAX_ENTRIES then kept[0].size else 0
  }

  function Step(g: Config, s: State, r: Request): State {
    var (c, outcome) := Serve(g, s.cache, r);
    State(c, if outcome.Path? then s.uses + [r.uri] else s.uses, s.dropped + DroppedBy(g, s.cache, r))
  }

  function Run(g: Config, s: State, requests: seq<Request>): State {
    if requests == [] then s else Step(g, Run(g, s, requests[..|requests| - 1]), Last(requests))
  }

  // ----- Bytes -----

  function Sum(entries: seq<Entry>): nat {
    if entries == [] then 0 else entries[0].size + Sum(entries[1..])
  }

  lemma {:induction false} SumConcat(a: seq<Entry>, b: seq<Entry>)
    ensures Sum(a + b) == Sum(a) + Sum(b)
  {
    if a == [] {
      assert a + b == b;
    } else {
      assert (a + b)[1..] == a[1..] + b;
      SumConcat(a[1..], b);
    }
  }

  lemma SumMoved(a: seq<Entry>, e: Entry, b: seq<Entry>)
    ensures Sum(a + b + [e]) == Sum(a + [e] + b)
  {
    SumConcat(a + b, [e]);
    SumConcat(a, b);
    SumConcat(a + [e], b);
    SumConcat(a, [e]);
  }

  lemma SumPromote(entries: seq<Entry>, i: nat)
    requires i < |entries|
    ensures Sum(Promote(entries, i)) == Sum(entries)
  {
    hide Sum;
    SumMoved(entries[..i], entries[i], entries[i + 1..]);
    assert entries == entries[..i] + [entries[i]] + entries[i + 1..];
  }

  ghost predicate HasPath(entries: seq<Entry>, p: string) {
    exists e :: e in entries && e.path == p
  }

  /** Making room drops the oldest entries, as few as needed, with their files, and subtracts
      exactly their bytes. */
  ghost predicate Roomy(c: Cache, d: Cache, k: nat, size: nat, maxBytes: nat, stuck: set<string>, dropped: nat) {
    && k <= |c.entries| && d.entries == c.entries[k..] && d.current == Sum(d.entries) + dropped
    && (d.current + size <= maxBytes || d.entries == [])
    && (k > 0 ==> Sum(c.entries[k - 1..]) + dropped + size > maxBytes)
    && (forall p :: p in d.disk <==> p in c.disk && (p in stuck || !HasPath(c.entries[..k], p)))
    && (forall p :: p in d.disk ==> d.disk[p] == c.disk[p])
  }

  lemma {:induction false} RoomIsMade(
    c: Cache, size: nat, maxBytes: nat, stuck: set<string>, dropped: nat) returns (k: nat)
    requires c.current == Sum(c.entries) + dropped
    ensures Roomy(c, MakeRoom(c, size, maxBytes, stuck), k, size, maxBytes, stuck, dropped)
    decreases |c.entries|
  {
    if c.current + size <= maxBytes || c.entries == [] {
      k := 0;
    } else {
      var b := PopLru(c, stuck);
      var n := RoomIsMade(b, size, maxBytes, stuck, dropped);
      k := n + 1;
      OneMoreDropped(c, b, MakeRoom(b, size, maxBytes, stuck), n, size, maxBytes, stuck, dropped);
    }
  }

  lemma OneMoreDropped(c: Cache, b: Cache, d: Cache, n: nat, size: nat, maxBytes: nat, stuck: set<string>, dropped: nat)
    requires c.entries != [] && b == PopLru(c, stuck) && Roomy(b, d, n, size, maxBytes, stuck, dropped)
    requires c.current == Sum(c.entries) + dropped && c.current + size > maxBytes
    ensures Roomy(c, d, n + 1, size, maxBytes, stuck, dropped)
  {
    assert c.entries[n..] == if n > 0 then b.entries[n - 1..] else c.entries;
    assert c.entries[..n + 1] == [c.entries[0]] + b.entries[..n];
    forall p ensures HasPath(c.entries[..n + 1], p) <==> p == c.entries[0].path || HasPath(b.entries[..n], p) {
      assert c.entries[0] in c.entries[..n + 1];
    }
  }

  /** The byte count is what is indexed and what the count cap dropped; both keep to the limit,
      unless a single file exceeds it. */
  ghost predicate CountsOk(g: Config, s: State) {
    && s.cache.current == Sum(s.cache.entries) + s.dropped
    && s.dropped <= g.maxBytes
    && (s.cache.current <= g.maxBytes || |s.cache.entries| <= 1)
  }

  /** The request misses, and the object store answers. */
  predicate Fetches(g: Config, c: Cache, r: Request) {
    !IsHit(c, r) && r.reachable && Fetch(g, r.uri).Some?
  }

  function Roomier(g: Config, c: Cache, r: Request): Cache
    requires Fetches(g, c, r)
  {
    MakeRoom(c, |Fetch(g, r.uri).value|, g.maxBytes, r.stuck)
  }

  /** The three ways a request can go. */
  lemma Cases(g: Config, c: Cache, r: Request)
    ensures IsHit(c, r) ==>
              var i := IndexOf(c.entries, r.uri).value;
              Serve(g, c, r) == (c.(entries := Promote(c.entries, i)), Path(c.entries[i].path))
    ensures Fetches(g, c, r) && r.write == Written ==>
              Serve(g, c, r) == (Store(Roomier(g, c, r), r.uri, Fetch(g, r.uri).value), Path(CacheName(r.uri)))
    ensures Fetches(g, c, r) && r.write != Written ==>
              var (d, outcome) := Serve(g, c, r);
              && outcome == WriteFailed && d.entries == Roomier(g, c, r).entries
              && d.current == Roomier(g, c, r).current
              && forall p :: p != CacheName(r.uri) ==>
                   (p in d.disk <==> p in Roomier(g, c, r).disk)
                   && (p in d.disk ==> d.disk[p] == Roomier(g, c, r).disk[p])
    ensures !IsHit(c, r) && !Fetches(g, c, r) ==> Serve(g, c, r).0 == c && !Serve(g, c, r).1.Path?
  {
  }

  /** When a request answers what; when it touches nothing but the order of the index; and that a
      failed write leaves the index as room was made, and at most a part of the file. */
  lemma OutcomeIff(g: Config, c: Cache, r: Request)
    ensures var (d, outcome) := Serve(g, c, r);
            var hit := exists i :: 0 <= i < |c.entries| && c.entries[i].uri == r.uri;
            var prefix := "s3://" + g.bucket + "/";
            var there := prefix <= r.uri && r.uri[|prefix|..] in g.objects;
            && (outcome == InvalidUri <==> !hit && !(prefix <= r.uri))
            && (outcome == FetchFailed <==> !hit && prefix <= r.uri && !(r.reachable && there))
            && (outcome == WriteFailed <==> !hit && r.reachable && there && r.write != Written)
            && (outcome.Path? <==> hit || (r.reachable && there && r.write == Written))
            && (hit || outcome == InvalidUri || outcome == FetchFailed ==>
                  d.disk == c.disk && d.current == c.current && forall e :: e in d.entries <==> e in c.entries)
            && (outcome == WriteFailed ==>
                  var bytes, path := g.objects[r.uri[|prefix|..]], CacheName(r.uri);
                  var roomy := MakeRoom(c, |bytes|, g.maxBytes, r.stuck);
                  && d.entries == roomy.entries && d.current == roomy.current
                  && (r.write.left.None? ==> d.disk == roomy.disk)
                  && (r.write.left.Some? ==>
                        d.disk == roomy.disk[path := bytes[..Min(r.write.left.value, |bytes|)]]))
  {
    hide MakeRoom, CacheName, Store;
    var prefix := SCHEME + g.bucket + "/";
    if IndexOf(c.entries, r.uri).Some? {
      var i := IndexOf(c.entries, r.uri).value;
      forall e ensures e in Promote(c.entries, i) <==> e in c.entries {
        PromoteKeeps(c.entries, i, e);
      }
    }
  }

  lemma SumPut(entries: seq<Entry>, e: Entry)
    ensures Sum(Put(entries, e)) == Sum(entries) + e.size - (if |entries| >= MAX_ENTRIES then entries[0].size else 0)
  {
    SumConcat(entries, [e]);
    if |entries| >= MAX_ENTRIES {
      SumConcat(entries[1..], [e]);
    }
  }

  /** What the count cap drops had fitted together with the new file. */
  lemma PutCounts(g: Config, d: Cache, e: Entry, dropped: nat)
    requires d.current == Sum(d.entries) + dropped && dropped <= g.maxBytes
    requires d.current + e.size <= g.maxBytes || d.entries == []
    ensures var capped := if |d.entries| >= MAX_ENTRIES then d.entries[0].size else 0;
            && d.current + e.size == Sum(Put(d.entries, e)) + dropped + capped
            && dropped + capped <= g.maxBytes
            && (d.current + e.size <= g.maxBytes || |Put(d.entries, e)| == 1)
  {
    SumPut(d.entries, e);
  }

  lemma StepKeepsCounts(g: Config, s: State, r: Request)
    requires CountsOk(g, s)
    ensures CountsOk(g, Step(g, s, r)) && s.dropped <= Step(g, s, r).dropped
  {
    hide Serve, Sum, Roomy, Fetch, MakeRoom, CacheName, Put;
    Cases(g, s.cache, r);
    if IsHit(s.cache, r) {
      SumPromote(s.cache.entries, IndexOf(s.cache.entries, r.uri).value);
    } else if Fetches(g, s.cache, r) {
      var bytes := Fetch(g, r.uri).value;
      var k := RoomIsMade(s.cache, |bytes|, g.maxBytes, r.stuck, s.dropped);
      var roomy := Roomier(g, s.cache, r);
      RoomyCounts(s.cache, roomy, k, |bytes|, g.maxBytes, r.stuck, s.dropped);
      PutCounts(g, roomy, Entry(r.uri, CacheName(r.uri), |bytes|), s.dropped);
    }
  }

  lemma RoomyCounts(c: Cache, d: Cache, k: nat, size: nat, maxBytes: nat, stuck: set<string>, dropped: nat)
    requires Roomy(c, d, k, size, maxBytes, stuck, dropped)
    ensures d.current == Sum(d.entries) + dropped
    ensures d.current + size <= maxBytes || d.entries == []
    ensures k <= |c.entries| && d.entries == c.entries[k..]
  {
  }

  lemma {:induction false} RunCounts(g: Config, s: State, requests: seq<Request>)
    requires CountsOk(g, s)
    ensures CountsOk(g, Run(g, s, requests)) && s.dropped <= Run(g, s, requests).dropped
  {
    hide Step, CountsOk;
    if requests != [] {
      RunCounts(g, s, requests[..|requests| - 1]);
      StepKeepsCounts(g, Run(g, s, requests[..|requests| - 1]), Last(requests));
    }
  }

  lemma {:induction false} EveryRunCounts(g: Config, disk: map<string, Bytes>, requests: seq<Request>)
    ensures CountsOk(g, Run(g, Start(disk), requests))
  {
    RunCounts(g, Start(disk), requests);
  }

  /** After any requests: the indexed bytes are the byte count less what the count cap dropped, so
      they never exceed it and an eviction never subtracts more than there is; and they leave room
      for the dropped bytes within the limit, unless there is a single entry. */
  lemma {:induction false} ByteBound(g: Config, disk: map<string, Bytes>, requests: seq<Request>)
    ensures var s := Run(g, Start(disk), requests);
            && s.cache.current == Sum(s.cache.entries) + s.dropped
            && (s.cache.entries != [] ==> s.cache.entries[0].size <= s.cache.current)
            && (Sum(s.cache.entries) <= g.maxBytes - s.dropped || |s.cache.entries| == 1)
  {
    EveryRunCounts(g, disk, requests);
    hide Run;
  }

  /** The bytes that the count cap drops are never given back, and the capacity shrinks by them for
      good; but they never exceed the limit, whatever follows. */
  lemma {:induction false} DroppedBytesStay(
    g: Config, disk: map<string, Bytes>, requests: seq<Request>, more: seq<Request>)
    ensures var s := Run(g, Start(disk), requests);
            var t := Run(g, s, more);
            && s.dropped <= t.dropped <= g.maxBytes
            && (Sum(t.cache.entries) <= g.maxBytes - s.dropped || |t.cache.entries| == 1)
  {
    EveryRunCounts(g, disk, requests);
    RunCounts(g, Run(g, Start(disk), requests), more);
    hide Run;
  }

  // ----- Least recently used -----

  /** v was served after u was for the last time. */
  ghost predicate UsedLater(uses: seq<string>, u: string, v: string) {
    exists j :: 0 <= j < |uses| && uses[j] == v && forall k :: j <= k < |uses| ==> uses[k] != u
  }

  /** The index is ordered by last use. */
  ghost predicate ByUse(entries: seq<Entry>, uses: seq<string>) {
    && (forall i, j :: 0 <= i < j < |entries| ==>
          entries[i].uri != entries[j].uri && UsedLater(uses, entries[i].uri, entries[j].uri))
  }

  lemma UsedLaterMore(uses: seq<string>, u: string, v: string, w: string)
    requires UsedLater(uses, u, v) && w != u
    ensures UsedLater(uses + [w], u, v)
  {
    var j :| 0 <= j < |uses| && uses[j] == v && forall k :: j <= k < |uses| ==> uses[k] != u;
    assert (uses + [w])[j] == v;
  }

  lemma UsedNow(uses: seq<string>, u: string, v: string)
    requires u != v
    ensures UsedLater(uses + [v], u, v)
  {
    assert (uses + [v])[|uses|] == v;
  }

  lemma AppendByUse(entries: seq<Entry>, uses: seq<string>, e: Entry)
    requires ByUse(entries, uses) && forall i :: 0 <= i < |entries| ==> entries[i].uri != e.uri
    ensures ByUse(entries + [e], uses + [e.uri])
  {
    var more := entries + [e];
    hide UsedLater;
    forall i, j | 0 <= i < j < |more| ensures UsedLater(uses + [e.uri], more[i].uri, more[j].uri) {
      if j < |entries| {
        UsedLaterMore(uses, more[i].uri, more[j].uri, e.uri);
      } else {
        UsedNow(uses, more[i].uri, e.uri);
      }
    }
  }

  lemma PromoteKeeps(entries: seq<Entry>, i: nat, e: Entry)
    requires i < |entries|
    ensures e in Promote(entries, i) <==> e in entries
  {
    assert entries == entries[..i] + [entries[i]] + entries[i + 1..];
  }

  lemma PromoteByUse(entries: seq<Entry>, uses: seq<string>, i: nat)
    requires ByUse(entries, uses) && i < |entries|
    ensures ByUse(Promote(entries, i), uses + [entries[i].uri])
  {
    hide UsedLater;
    var others := entries[..i] + entries[i + 1..];
    assert forall k :: 0 <= k < |others| ==> others[k] == entries[if k < i then k else k + 1];
    AppendByUse(others, uses, entries[i]);
  }

  /** A miss removes a prefix of the index, for bytes and for the count cap, and a written file
      enters at its end. */
  lemma MissDropsOldest(g: Config, s: State, r: Request) returns (n: nat)
    requires CountsOk(g, s) && !IsHit(s.cache, r)
    ensures n <= |s.cache.entries| && (Serve(g, s.cache, r).1.Path? ==> Fetches(g, s.cache, r))
    ensures forall i :: 0 <= i < |s.cache.entries| ==> s.cache.entries[i].uri != r.uri
    ensures var t := Step(g, s, r);
            if Serve(g, s.cache, r).1.Path?
            then t.uses == s.uses + [r.uri] && t.cache.entries ==
                 s.cache.entries[n..] + [Entry(r.uri, CacheName(r.uri), |Fetch(g, r.uri).value|)]
            else t.uses == s.uses && t.cache.entries == s.cache.entries[n..]
  {
    hide Serve, Roomy, Fetch, MakeRoom, CacheName, CountsOk;
    Cases(g, s.cache, r);
    n := 0;
    if Fetches(g, s.cache, r) {
      n := KeptEntries(g, s, r);
      if r.write == Written && |s.cache.entries| - n >= MAX_ENTRIES {
        n := n + 1;
      }
    }
  }

  /** Before the new entry is put, the index is what it was without its oldest entries. */
  lemma KeptEntries(g: Config, s: State, r: Request) returns (k: nat)
    requires CountsOk(g, s) && Fetches(g, s.cache, r)
    ensures k <= |s.cache.entries| && Roomier(g, s.cache, r).entries == s.cache.entries[k..]
  {
    var bytes := Fetch(g, r.uri).value;
    k := RoomIsMade(s.cache, |bytes|, g.maxBytes, r.stuck, s.dropped);
    hide Fetch, MakeRoom;
  }

  lemma StepKeepsOrder(g: Config, s: State, r: Request)
    requires CountsOk(g, s) && ByUse(s.cache.entries, s.uses)
    ensures ByUse(Step(g, s, r).cache.entries, Step(g, s, r).uses)
  {
    hide Serve, Fetch, CacheName, UsedLater, Promote, CountsOk;
    if IsHit(s.cache, r) {
      Cases(g, s.cache, r);
      PromoteByUse(s.cache.entries, s.uses, IndexOf(s.cache.entries, r.uri).value);
    } else {
      var n := MissDropsOldest(g, s, r);
      assert ByUse(s.cache.entries[n..], s.uses);
      if Serve(g, s.cache, r).1.Path? {
        AppendByUse(s.cache.entries[n..], s.uses, Last(Step(g, s, r).cache.entries));
      }
    }
  }

  lemma {:induction false} EveryRunByUse(g: Config, disk: map<string, Bytes>, requests: seq<Request>)
    ensures ByUse(Run(g, Start(disk), requests).cache.entries, Run(g, Start(disk), requests).uses)
  {
    hide Step, CountsOk;
    if requests != [] {
      EveryRunByUse(g, disk, requests[..|requests| - 1]);
      EveryRunCounts(g, disk, requests[..|requests| - 1]);
      StepKeepsOrder(g, Run(g, Start(disk), requests[..|requests| - 1]), Last(requests));
    }
  }

  ghost predicate Indexed(c: Cache, uri: string) {
    exists i :: 0 <= i < |c.entries| && c.entries[i].uri == uri
  }

  /** Whatever leaves the index, for bytes or for the count cap, was used less recently than
      everything that stays. */
  lemma {:induction false} EvictsLeastRecentlyUsed(
    g: Config, disk: map<string, Bytes>, requests: seq<Request>, r: Request, gone: string, stays: string)
    requires var s := Run(g, Start(disk), requests);
             && Indexed(s.cache, gone) && Indexed(s.cache, stays)
             && !Indexed(Step(g, s, r).cache, gone) && Indexed(Step(g, s, r).cache, stays)
    ensures UsedLater(Run(g, Start(disk), requests).uses, gone, stays)
  {
    EveryRunCounts(g, disk, requests);
    EveryRunByUse(g, disk, requests);
    var s := Run(g, Start(disk), requests);
    hide Run, UsedLater, CountsOk;
    GoneIsBefore(g, s, r, gone, stays);
  }

  lemma GoneIsBefore(g: Config, s: State, r: Request, gone: string, stays: string)
    requires CountsOk(g, s) && ByUse(s.cache.entries, s.uses)
    requires Indexed(s.cache, gone) && Indexed(s.cache, stays)
    requires !Indexed(Step(g, s, r).cache, gone) && Indexed(Step(g, s, r).cache, stays)
    ensures UsedLater(s.uses, gone, stays)
  {
    hide Serve, Fetch, CacheName, UsedLater, CountsOk;
    var i :| 0 <= i < |s.cache.entries| && s.cache.entries[i].uri == gone;
    var j :| 0 <= j < |s.cache.entries| && s.cache.entries[j].uri == stays;
    if IsHit(s.cache, r) {
      HitKeepsIndex(g, s, r, i);
    } else {
      var n := MissDropsOldest(g, s, r);
      var t := Step(g, s, r);
      if i >= n {
        KeptIsIndexed(s.cache, t.cache, n, i);
      }
      StayerWasKept(s.cache, t.cache, n, r.uri, j);
    }
  }

  /** The URIs of the index are different, so the entry that stays is one that was kept. */
  lemma StayerWasKept(c: Cache, d: Cache, n: nat, uri: string, j: nat)
    requires n <= |c.entries| && j < |c.entries| && c.entries[j].uri != uri
    requires forall i, k :: 0 <= i < k < |c.entries| ==> c.entries[i].uri != c.entries[k].uri
    requires forall m :: 0 <= m < |d.entries| ==>
               d.entries[m].uri == uri || (n + m < |c.entries| && d.entries[m] == c.entries[n + m])
    requires Indexed(d, c.entries[j].uri)
    ensures j >= n
  {
    var m :| 0 <= m < |d.entries| && d.entries[m].uri == c.entries[j].uri;
    assert c.entries[n + m].uri == c.entries[j].uri;
  }

  lemma KeptIsIndexed(c: Cache, d: Cache, n: nat, i: nat)
    requires n <= i < |c.entries| && c.entries[n..] <= d.entries
    ensures Indexed(d, c.entries[i].uri)
  {
    assert d.entries[i - n] == c.entries[n..][i - n];
  }

  lemma HitKeepsIndex(g: Config, s: State, r: Request, i: nat)
    requires IsHit(s.cache, r) && i < |s.cache.entries|
    ensures Indexed(Step(g, s, r).cache, s.cache.entries[i].uri)
  {
    var h := IndexOf(s.cache.entries, r.uri).value;
    var entries := s.cache.entries;
    assert entries == entries[..h] + [entries[h]] + entries[h + 1..];
    assert entries[i] in Promote(entries, h);
    var k :| 0 <= k < |entries| && Promote(entries, h)[k] == entries[i];
    assert Step(g, s, r).cache.entries[k].uri == entries[i].uri;
  }

  // ----- Agreement with the object store -----

  /** No two different objects that share a file name fit into the cache together. */
  ghost predicate Compatible(g: Config, uris: set<string>) {
    forall u, v :: u in uris && v in uris && u != v ==> !Clash(g, u, v)
  }

  predicate Clash(g: Config, u: string, v: string) {
    && CacheName(u) == CacheName(v) && Fetch(g, u).Some? && Fetch(g, v).Some?
    && |Fetch(g, u).value| + |Fetch(g, v).value| <= g.maxBytes
  }

  /** The file of an indexed entry is there and holds the bytes of its own object. */
  ghost predicate EntryAgrees(g: Config, c: Cache, e: Entry) {
    && e.path == CacheName(e.uri) && Fetch(g, e.uri).Some?
    && e.path in c.disk && c.disk[e.path] == Fetch(g, e.uri).value && e.size == |Fetch(g, e.uri).value|
  }

  ghost predicate Agrees(g: Config, uris: set<string>, c: Cache) {
    forall i :: 0 <= i < |c.entries| ==> c.entries[i].uri in uris && EntryAgrees(g, c, c.entries[i])
  }

  /** An entry whose file is not touched still agrees. */
  lemma Untouched(g: Config, c: Cache, d: Cache, e: Entry)
    requires EntryAgrees(g, c, e) && e.path in d.disk && d.disk[e.path] == c.disk[e.path]
    ensures EntryAgrees(g, d, e)
  {
  }

  lemma {:induction false} OneOf(entries: seq<Entry>, i: nat)
    requires i < |entries|
    ensures entries[i].size <= Sum(entries)
  {
    if i > 0 {
      OneOf(entries[1..], i - 1);
    }
  }

  lemma {:induction false} TwoOf(entries: seq<Entry>, i: nat, j: nat)
    requires i < j < |entries|
    ensures entries[i].size + entries[j].size <= Sum(entries)
  {
    if i == 0 {
      OneOf(entries[1..], j - 1);
    } else {
      TwoOf(entries[1..], i - 1, j - 1);
    }
  }

  /** Entries that are indexed together fit together, so they have different files. */
  lemma PathsDiffer(g: Config, uris: set<string>, s: State, j: nat, i: nat)
    requires Compatible(g, uris) && Agrees(g, uris, s.cache) && ByUse(s.cache.entries, s.uses) && CountsOk(g, s)
    requires j < i < |s.cache.entries|
    ensures s.cache.entries[j].path != s.cache.entries[i].path
  {
    hide Fetch, CacheName, UsedLater, Sum;
    TwoOf(s.cache.entries, j, i);
    assert EntryAgrees(g, s.cache, s.cache.entries[i]) && EntryAgrees(g, s.cache, s.cache.entries[j]);
    assert !Clash(g, s.cache.entries[j].uri, s.cache.entries[i].uri);
  }

  lemma NotAmongFirst(g: Config, uris: set<string>, s: State, k: nat, i: nat)
    requires Compatible(g, uris) && Agrees(g, uris, s.cache) && ByUse(s.cache.entries, s.uses) && CountsOk(g, s)
    requires k <= i < |s.cache.entries|
    ensures !HasPath(s.cache.entries[..k], s.cache.entries[i].path)
  {
    hide Compatible, Agrees, ByUse, CountsOk;
    forall e | e in s.cache.entries[..k] ensures e.path != s.cache.entries[i].path {
      var j :| 0 <= j < k && s.cache.entries[j] == e;
      PathsDiffer(g, uris, s, j, i);
    }
  }

  lemma RoomAgrees(g: Config, uris: set<string>, s: State, r: Request)
    requires Compatible(g, uris) && Agrees(g, uris, s.cache) && ByUse(s.cache.entries, s.uses) && CountsOk(g, s)
    requires Fetches(g, s.cache, r) && r.uri in uris
    ensures Agrees(g, uris, Roomier(g, s.cache, r))
    ensures forall i :: 0 <= i < |Roomier(g, s.cache, r).entries| ==>
              Roomier(g, s.cache, r).entries[i].path != CacheName(r.uri)
  {
    hide CacheName, Compatible, UsedLater, Sum, Fetch, MakeRoom;
    var bytes := Fetch(g, r.uri).value;
    var d := Roomier(g, s.cache, r);
    var k := RoomIsMade(s.cache, |bytes|, g.maxBytes, r.stuck, s.dropped);
    forall i | 0 <= i < |d.entries| ensures d.entries[i].uri in uris && EntryAgrees(g, d, d.entries[i]) {
      assert d.entries[i] == s.cache.entries[k + i];
      NotAmongFirst(g, uris, s, k, k + i);
      Untouched(g, s.cache, d, d.entries[i]);
    }
    forall i | 0 <= i < |d.entries| ensures d.entries[i].path != CacheName(r.uri) {
      assert d.entries[i] == s.cache.entries[k + i];
      NameIsFree(g, uris, d, i, r.uri, s.dropped);
    }
  }

  /** What is kept fits together with the new file, so it has another name. */
  lemma NameIsFree(g: Config, uris: set<string>, d: Cache, i: nat, uri: string, dropped: nat)
    requires Compatible(g, uris) && Agrees(g, uris, d) && i < |d.entries| && d.entries[i].uri != uri
    requires uri in uris && Fetch(g, uri).Some?
    requires d.current == Sum(d.entries) + dropped && d.current + |Fetch(g, uri).value| <= g.maxBytes
    ensures d.entries[i].path != CacheName(uri)
  {
    hide Fetch, CacheName, Sum;
    OneOf(d.entries, i);
    assert EntryAgrees(g, d, d.entries[i]) && !Clash(g, d.entries[i].uri, uri);
  }

  /** The file of a new entry is written under a name that no indexed entry has. */
  lemma WriteAgrees(g: Config, uris: set<string>, c: Cache, uri: string, d: Cache)
    requires Agrees(g, uris, c)
    requires forall i :: 0 <= i < |c.entries| ==> c.entries[i].path != CacheName(uri)
    requires forall p :: p != CacheName(uri) ==>
               (p in d.disk <==> p in c.disk) && (p in d.disk ==> d.disk[p] == c.disk[p])
    ensures forall i :: 0 <= i < |c.entries| ==> EntryAgrees(g, d, c.entries[i])
  {
    hide CacheName, Fetch;
    forall i | 0 <= i < |c.entries| ensures EntryAgrees(g, d, c.entries[i]) {
      Untouched(g, c, d, c.entries[i]);
    }
  }

  lemma StepKeepsAgreement(g: Config, uris: set<string>, s: State, r: Request)
    requires Compatible(g, uris) && r.uri in uris
    requires Agrees(g, uris, s.cache) && ByUse(s.cache.entries, s.uses) && CountsOk(g, s)
    ensures Agrees(g, uris, Step(g, s, r).cache)
    ensures var (d, outcome) := Serve(g, s.cache, r);
            outcome.Path? ==>
              && Fetch(g, r.uri).Some? && outcome.path in d.disk
              && d.disk[outcome.path] == Fetch(g, r.uri).value
  {
    hide CacheName, Compatible, ByUse, CountsOk, Fetch, MakeRoom, Serve;
    Cases(g, s.cache, r);
    var t := Step(g, s, r);
    if IsHit(s.cache, r) {
      var h := IndexOf(s.cache.entries, r.uri).value;
      assert EntryAgrees(g, s.cache, s.cache.entries[h]);
      forall i | 0 <= i < |t.cache.entries|
        ensures t.cache.entries[i].uri in uris && EntryAgrees(g, t.cache, t.cache.entries[i])
      {
        PromoteKeeps(s.cache.entries, h, t.cache.entries[i]);
        var k :| 0 <= k < |s.cache.entries| && s.cache.entries[k] == t.cache.entries[i];
        Untouched(g, s.cache, t.cache, s.cache.entries[k]);
      }
    } else if Fetches(g, s.cache, r) {
      RoomAgrees(g, uris, s, r);
      WriteAgrees(g, uris, Roomier(g, s.cache, r), r.uri, t.cache);
    }
  }

  predicate OnlyRequests(requests: seq<Request>, uris: set<string>) {
    forall i :: 0 <= i < |requests| ==> requests[i].uri in uris
  }

  lemma {:induction false} EveryRunAgrees(
    g: Config, uris: set<string>, disk: map<string, Bytes>, requests: seq<Request>)
    requires Compatible(g, uris) && OnlyRequests(requests, uris)
    ensures Agrees(g, uris, Run(g, Start(disk), requests).cache)
  {
    hide Compatible, Step, CountsOk, ByUse;
    if requests != [] {
      var before := requests[..|requests| - 1];
      EveryRunAgrees(g, uris, disk, before);
      EveryRunCounts(g, disk, before);
      EveryRunByUse(g, disk, before);
      StepKeepsAgreement(g, uris, Run(g, Start(disk), before), Last(requests));
    }
  }

  function Plain(uri: string): Request {
    Request(uri, true, {}, Written)
  }

  /** The request returns a path at which the requested object's bytes are, or no path. */
  ghost predicate Right(g: Config, c: Cache, r: Request) {
    var (d, outcome) := Serve(g, c, r);
    outcome.Path? ==>
      && Fetch(g, r.uri).Some? && outcome.path in d.disk
      && d.disk[outcome.path] == Fetch(g, r.uri).value
  }

  /** When no two objects that share a name fit together: after any hits, misses, evictions,
      failed deletions and failed writes, over any files an earlier process left behind, every
      indexed file holds the bytes of its own object, and so does every path that is returned, at
      the moment it is returned. */
  lemma {:induction false} AgreesWithStore(
    g: Config, uris: set<string>, disk: map<string, Bytes>, requests: seq<Request>, r: Request)
    requires Compatible(g, uris) && OnlyRequests(requests, uris) && r.uri in uris
    ensures var c := Run(g, Start(disk), requests).cache;
            Agrees(g, uris, c) && Right(g, c, r)
  {
    EveryRunAgrees(g, uris, disk, requests);
    EveryRunCounts(g, disk, requests);
    EveryRunByUse(g, disk, requests);
    hide Run, Serve, Compatible, CountsOk, ByUse, Agrees, Fetch;
    StepKeepsAgreement(g, uris, Run(g, Start(disk), requests), r);
  }

  /** No object is empty, as no Parquet file is. */
  ghost predicate NoneEmpty(g: Config, uris: set<string>) {
    forall u :: u in uris && Fetch(g, u).Some? ==> Fetch(g, u).value != []
  }

  /** Agreement over all runs has an exact condition: no two different objects of one name fit
      together. Where two do, a failed write of the one truncates the file that the other's next hit
      returns; and if their contents differ, no failure is needed (see CollisionServesWrongBytes). */
  lemma {:induction false} AgreementIff(g: Config, uris: set<string>)
    requires NoneEmpty(g, uris)
    ensures (forall disk, requests, r: Request :: OnlyRequests(requests, uris) && r.uri in uris ==>
               Right(g, Run(g, Start(disk), requests).cache, r))
            <==> Compatible(g, uris)
  {
    hide Run, Right, Fetch, CacheName;
    if Compatible(g, uris) {
      forall disk, requests, r: Request | OnlyRequests(requests, uris) && r.uri in uris
        ensures Right(g, Run(g, Start(disk), requests).cache, r)
      {
        AgreesWithStore(g, uris, disk, requests, r);
      }
    } else {
      var u, v :| u in uris && v in uris && u != v && Clash(g, u, v);
      var requests := SpoilingRun(g, u, v);
      assert OnlyRequests(requests, uris);
    }
  }

  /** v is served, and then the write of u fails after truncating the file. */
  lemma {:induction false} SpoilingRun(g: Config, u: string, v: string) returns (requests: seq<Request>)
    requires u != v && Clash(g, u, v) && Fetch(g, v).value != []
    ensures forall i :: 0 <= i < |requests| ==> requests[i].uri == u || requests[i].uri == v
    ensures !Right(g, Run(g, Start(map[]), requests).cache, Plain(v))
  {
    hide CacheName, Fetch;
    var a, b := Plain(v), Request(u, true, {}, NotWritten(Some(0)));
    requests := [a, b];
    RunOfTwo(g, Start(map[]), a, b);
    FirstServed(g, map[], v);
    var s1 := Step(g, Start(map[]), a);
    TruncatedWrite(g, s1.cache, u, v);
    hide Run;
    assert Run(g, Start(map[]), requests).cache == Serve(g, s1.cache, b).0;
  }

  lemma RunOfTwo(g: Config, s: State, a: Request, b: Request)
    ensures Run(g, s, [a, b]) == Step(g, Step(g, s, a), b)
  {
    hide Step;
    assert [a, b][..1] == [a] && [a][..0] == [];
    assert Run(g, s, [a]) == Step(g, s, a);
  }

  lemma FirstServed(g: Config, disk: map<string, Bytes>, v: string)
    requires Fetch(g, v).Some?
    ensures Step(g, Start(disk), Plain(v)).cache ==
            Cache([Entry(v, CacheName(v), |Fetch(g, v).value|)], |Fetch(g, v).value|,
                  disk[CacheName(v) := Fetch(g, v).value])
  {
    hide CacheName, Fetch;
    Cases(g, Start(disk).cache, Plain(v));
  }

  lemma TruncatedWrite(g: Config, c: Cache, u: string, v: string)
    requires u != v && Clash(g, u, v) && Fetch(g, v).value != []
    requires c == Cache([Entry(v, CacheName(v), |Fetch(g, v).value|)], |Fetch(g, v).value|,
                        map[CacheName(v) := Fetch(g, v).value])
    ensures !Right(g, Serve(g, c, Request(u, true, {}, NotWritten(Some(0)))).0, Plain(v))
  {
    hide CacheName, Fetch;
    FetchNeedsKey(g, u);
    var d := Serve(g, c, Request(u, true, {}, NotWritten(Some(0)))).0;
    assert d == c.(disk := map[CacheName(v) := []]);
  }

  lemma FetchNeedsKey(g: Config, uri: string)
    requires Fetch(g, uri).Some?
    ensures KeyOf(g.bucket, uri).Some?
  {
  }

  /** What was just served is in the index as the most recently used entry, so asking for it again
      is a hit with the same path, without the object store, and changes nothing on disk. */
  lemma {:induction false} RepeatIsHit(
    g: Config, disk: map<string, Bytes>, requests: seq<Request>, r: Request, again: Request)
    requires var s := Run(g, Start(disk), requests); Serve(g, s.cache, r).1.Path?
    requires again.uri == r.uri
    ensures var s := Run(g, Start(disk), requests);
            var (c, outcome) := Serve(g, s.cache, r);
            && c.entries != [] && Last(c.entries).uri == r.uri
            && Serve(g, c, again) == (c, outcome)
  {
    EveryRunCounts(g, disk, requests);
    EveryRunByUse(g, disk, requests);
    ServedAgain(g, Run(g, Start(disk), requests), r, again);
  }

  lemma ServedAgain(g: Config, s: State, r: Request, again: Request)
    requires CountsOk(g, s) && ByUse(s.cache.entries, s.uses) && Serve(g, s.cache, r).1.Path? && again.uri == r.uri
    ensures var (c, outcome) := Serve(g, s.cache, r);
            && c.entries != [] && Last(c.entries).uri == r.uri
            && Serve(g, c, again) == (c, outcome)
  {
    hide Serve, UsedLater, CountsOk, CacheName, Fetch, MakeRoom, Promote;
    StepKeepsOrder(g, s, r);
    LastServed(g, s, r);
    LastIsHit(g, Step(g, s, r).cache, again);
  }

  lemma LastServed(g: Config, s: State, r: Request)
    requires CountsOk(g, s) && Serve(g, s.cache, r).1.Path?
    ensures var (c, outcome) := Serve(g, s.cache, r);
            c.entries != [] && Last(c.entries).uri == r.uri && outcome == Path(Last(c.entries).path)
  {
    hide Serve, CountsOk, CacheName, Fetch, MakeRoom;
    Cases(g, s.cache, r);
    if !IsHit(s.cache, r) {
      var n := MissDropsOldest(g, s, r);
    }
  }

  lemma LastIsHit(g: Config, c: Cache, r: Request)
    requires c.entries != [] && Last(c.entries).uri == r.uri
    requires forall i, j :: 0 <= i < j < |c.entries| ==> c.entries[i].uri != c.entries[j].uri
    ensures Serve(g, c, r) == (c, Path(Last(c.entries).path))
  {
    hide Serve, CacheName, Fetch, MakeRoom;
    OnlyIndex(c.entries, r.uri, |c.entries| - 1);
    Cases(g, c, r);
    assert Promote(c.entries, |c.entries| - 1) == c.entries;
  }

  lemma {:induction false} OnlyIndex(entries: seq<Entry>, uri: string, i: nat)
    requires i < |entries| && entries[i].uri == uri
    requires forall j :: 0 <= j < |entries| && j != i ==> entries[j].uri != uri
    ensures IndexOf(entries, uri) == Some(i)
  {
  }

  /** Two objects of one name that fit together, fetched one after the other: the first one's
      next hit returns the second one's bytes, which are wrong whenever the two differ. No failure is
      needed for that. */
  lemma CollisionServesWrongBytes(g: Config, disk: map<string, Bytes>, u: string, v: string)
    requires u != v && Clash(g, u, v)
    ensures var s := Run(g, Start(disk), [Plain(u), Plain(v)]);
            && IsHit(s.cache, Plain(u)) && Serve(g, s.cache, Plain(u)).1 == Path(CacheName(u))
            && CacheName(u) in Serve(g, s.cache, Plain(u)).0.disk
            && Serve(g, s.cache, Plain(u)).0.disk[CacheName(u)] == Fetch(g, v).value
            && (Right(g, s.cache, Plain(u)) <==> Fetch(g, u) == Fetch(g, v))
  {
    hide CacheName, Fetch;
    var a, b := Plain(u), Plain(v);
    var s1, s2 := Step(g, Start(disk), a), Step(g, Step(g, Start(disk), a), b);
    RunOfTwo(g, Start(disk), a, b);
    FirstServed(g, disk, u);
    Cases(g, s1.cache, b);
    assert IndexOf(s1.cache.entries, v).None?;
    assert s2.cache.entries == s1.cache.entries + [Entry(v, CacheName(v), |Fetch(g, v).value|)];
  }

  // ----- The names of tiered objects -----

  /** The URI tiering records for a file. */
  function TierUri(bucket: string, service: string, timeBucket: string, filename: string): string {
    SCHEME + bucket + "/" + service + "/" + timeBucket + "/" + filename
  }

  lemma FlatConcat(a: string, b: string)
    ensures Flat(a + b) == Flat(a) + Flat(b)
  {
  }

  lemma FlatOfSafe(s: string)
    requires '/' !in s
    ensures Flat(s) == s
  {
  }

  lemma TierName(bucket: string, service: string, timeBucket: string, filename: string)
    requires '/' !in timeBucket && '/' !in filename
    ensures CacheName(TierUri(bucket, service, timeBucket, filename))
         == ((Flat(bucket) + "_" + Flat(service)) + "_" + timeBucket) + "_" + filename
  {
    var rest := (((((bucket + "/") + service) + "/") + timeBucket) + "/") + filename;
    assert TierUri(bucket, service, timeBucket, filename) == SCHEME + rest;
    assert (SCHEME + rest)[|SCHEME|..] == rest;
    FlatConcat(((((bucket + "/") + service) + "/") + timeBucket) + "/", filename);
    FlatConcat((((bucket + "/") + service) + "/") + timeBucket, "/");
    FlatConcat(((bucket + "/") + service) + "/", timeBucket);
    FlatConcat((bucket + "/") + service, "/");
    FlatConcat(bucket + "/", service);
    FlatConcat(bucket, "/");
    FlatOfSafe(timeBucket);
    FlatOfSafe(filename);
    assert Flat("/") == "_";
    hide Flat;
    assert Flat(rest) == ((((((Flat(bucket) + "_") + Flat(service)) + "_") + timeBucket) + "_") + filename);
  }

  lemma AfterUnderscore(a: string, x: string)
    requires '_' !in x
    ensures var s := a + "_" + x; s[|a|] == '_' && forall k :: |a| < k < |s| ==> s[k] != '_'
  {
    var s := a + "_" + x;
    forall k | |a| < k < |s| ensures s[k] != '_' {
      assert s[k] == x[k - |a| - 1];
    }
  }

  /** A string splits at its last underscore in one way only. */
  lemma LastUnderscore(a: string, x: string, b: string, y: string)
    requires '_' !in x && '_' !in y && a + "_" + x == b + "_" + y
    ensures a == b && x == y
  {
    var s := a + "_" + x;
    AfterUnderscore(a, x);
    AfterUnderscore(b, y);
    assert a == s[..|a|] && b == s[..|b|] && x == s[|a| + 1..] && y == s[|b| + 1..];
  }

  lemma SamePrefix(p: string, a: string, b: string)
    requires p + a == p + b
    ensures a == b
  {
    assert a == (p + a)[|p|..] && b == (p + b)[|p|..];
  }

  /** Two tiered objects share a cache file exactly when their time buckets and file names are the
      same and their services differ at most in '/' against '_'. So with services free of '/' the
      names are different for different URIs. */
  lemma TierNamesCollideIff(
    bucket: string, s1: string, t1: string, f1: string, s2: string, t2: string, f2: string)
    requires '/' !in t1 && '/' !in f1 && '/' !in t2 && '/' !in f2
    requires '_' !in t1 && '_' !in f1 && '_' !in t2 && '_' !in f2
    ensures CacheName(TierUri(bucket, s1, t1, f1)) == CacheName(TierUri(bucket, s2, t2, f2))
            <==> Flat(s1) == Flat(s2) && t1 == t2 && f1 == f2
    ensures '/' !in s1 && '/' !in s2 ==>
              (CacheName(TierUri(bucket, s1, t1, f1)) == CacheName(TierUri(bucket, s2, t2, f2))
               <==> TierUri(bucket, s1, t1, f1) == TierUri(bucket, s2, t2, f2))
  {
    hide CacheName, TierUri;
    TierName(bucket, s1, t1, f1);
    TierName(bucket, s2, t2, f2);
    var n1, n2 := CacheName(TierUri(bucket, s1, t1, f1)), CacheName(TierUri(bucket, s2, t2, f2));
    if '/' !in s1 && '/' !in s2 {
      FlatOfSafe(s1);
      FlatOfSafe(s2);
    }
    hide Flat;
    if n1 == n2 {
      LastUnderscore((Flat(bucket) + "_" + Flat(s1)) + "_" + t1, f1, (Flat(bucket) + "_" + Flat(s2)) + "_" + t2, f2);
      LastUnderscore(Flat(bucket) + "_" + Flat(s1), t1, Flat(bucket) + "_" + Flat(s2), t2);
      SamePrefix(Flat(bucket) + "_", Flat(s1), Flat(s2));
    }
  }

  // ----- Agreement for tiered objects -----

  /** u is what tiering records for a file of a service without '/'; the hour label and the file
      name have neither '/' nor '_'. */
  ghost predicate Tiered(bucket: string, u: string) {
    exists service, timeBucket, filename ::
      u == TierUri(bucket, service, timeBucket, filename)
      && '/' !in service && Safe(timeBucket) && Safe(filename)
  }

  predicate Safe(s: string) {
    '/' !in s && '_' !in s
  }

  lemma TieredNamesDiffer(bucket: string, u: string, v: string)
    requires Tiered(bucket, u) && Tiered(bucket, v) && u != v
    ensures CacheName(u) != CacheName(v)
  {
    hide CacheName, TierUri;
    var s1, t1, f1 :| u == TierUri(bucket, s1, t1, f1) && '/' !in s1 && Safe(t1) && Safe(f1);
    var s2, t2, f2 :| v == TierUri(bucket, s2, t2, f2) && '/' !in s2 && Safe(t2) && Safe(f2);
    TierNamesCollideIff(bucket, s1, t1, f1, s2, t2, f2);
  }

  lemma TieredCompatible(g: Config, uris: set<string>)
    requires forall u :: u in uris ==> Tiered(g.bucket, u)
    ensures Compatible(g, uris)
  {
    hide CacheName, Fetch, Tiered;
    forall u, v | u in uris && v in uris && u != v ensures !Clash(g, u, v) {
      TieredNamesDiffer(g.bucket, u, v);
    }
  }

  /** For the URIs that tiering records, with services free of '/', the cache needs no condition: over
      every run each indexed file holds its own object, and every returned path is right. */
  lemma {:induction false} TieredAgreesWithStore(
    g: Config, uris: set<string>, disk: map<string, Bytes>, requests: seq<Request>, r: Request)
    requires forall u :: u in uris ==> Tiered(g.bucket, u)
    requires OnlyRequests(requests, uris) && r.uri in uris
    ensures Agrees(g, uris, Run(g, Start(disk), requests).cache)
    ensures Right(g, Run(g, Start(disk), requests).cache, r)
  {
    hide Run, Compatible, Agrees, Right, Tiered;
    TieredCompatible(g, uris);
    AgreesWithStore(g, uris, disk, requests, r);
  }
}
