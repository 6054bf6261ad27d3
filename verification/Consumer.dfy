/** The Kafka consumer protocol of one partition: receive, batch, flush concurrently, commit,
    pause and resume, revoke, shut down. */
module Consumer {
  import opened Base
  import opened Batching

  datatype Status = InFlight | Durable | Failed

  /** A batch handed to a flush task. `start` is where its events begin in the received sequence
      and `epoch` the assignment that drained it; `acked` once the main loop has seen its result. */
  datatype Batch = Batch(start: nat, events: seq<Event>, epoch: nat, upTo: int, status: Status, acked: bool)

  datatype Received = Received(event: Event, epoch: nat)

  /** The partition's entries in the four maps of the partition store. */
  datatype Entry = Entry(buf: Option<Buf>, pending: Option<int>, committed: Option<int>, paused: bool)

  /** What happened so far. `commits` are the batches whose offset was submitted since the last
      revocation; `failedSincePause` records a failed flush while paused. */
  datatype History = History(
    received: seq<Received>, batches: seq<Batch>, epoch: nat, commits: seq<nat>, failedSincePause: bool)

  datatype Part = Part(entry: Entry, hist: History)

  const NO_ENTRY := Entry(None, None, None, false)
  const NO_HISTORY := History([], [], 0, [], false)
  const INIT := Part(NO_ENTRY, NO_HISTORY)

  /** `saturated`: no flush permit is available. t0, t1 and now are clock readings. */
  datatype Action =
    | Receive(e: Event, t0: nat, t1: nat, saturated: bool)
    | Tick(now: nat, saturated: bool)
    | Done(k: nat, ok: bool)
    | Ack(k: nat)
    | Revoke
    | ShutdownDrain
    | ShutdownCommit(k: nat)

  function Buffered(p: Part): seq<Event> {
    BufferedIn(p.entry.buf)
  }

  function End(b: Batch): nat {
    b.start + |b.events|
  }

  /** Where the batches handed over so far end in the received sequence. */
  function Handed(batches: seq<Batch>): nat {
    if batches == [] then 0 else End(Last(batches))
  }

  function Spawn(h: History, events: seq<Event>, upTo: int): History {
    h.(batches := h.batches + [Batch(Handed(h.batches), events, h.epoch, upTo, InFlight, false)])
  }

  /** Pausing starts a new count of failed flushes. */
  function MarkPause(h: History, newlyPaused: bool): History {
    if newlyPaused then h.(failedSincePause := false) else h
  }

  /** Kafka delivers a partition's messages in offset order within one assignment. */
  predicate InOrder(h: History, e: Event) {
    forall i :: 0 <= i < |h.received| && h.received[i].epoch == h.epoch ==>
      h.received[i].event.key.offset < e.key.offset
  }

  function ReceiveStep(l: Limits, p: Part, e: Event, t0: nat, t1: nat, saturated: bool): Part {
    var h := p.hist.(received := p.hist.received + [Received(e, p.hist.epoch)]);
    var upTo := e.key.offset + 1;
    var (c, batch) := Push(l, GetOr(p.entry.buf, EMPTY_BUF), e, t0, t1);
    var newlyPaused := !p.entry.paused && (if batch.Some? then saturated else AboveHighWater(l, c));
    Part(p.entry.(buf := Some(c), pending := Some(upTo), paused := p.entry.paused || newlyPaused),
         MarkPause(if batch.Some? then Spawn(h, batch.value, upTo) else h, newlyPaused))
  }

  function TickStep(l: Limits, p: Part, now: nat, saturated: bool): Part {
    if p.entry.buf.None? then p
    else
      var (c, batch) := Poll(l, p.entry.buf.value, now);
      if batch.None? then p
      else
        var newlyPaused := !p.entry.paused && saturated;
        Part(p.entry.(buf := Some(c), paused := p.entry.paused || newlyPaused),
             MarkPause(Spawn(p.hist, batch.value, GetOr(p.entry.pending, 0)), newlyPaused))
  }

  function DoneStep(p: Part, k: nat, ok: bool): Part
    requires k < |p.hist.batches|
  {
    var b := p.hist.batches[k].(status := if ok then Durable else Failed);
    p.(hist := p.hist.(batches := p.hist.batches[k := b],
                       failedSincePause := p.hist.failedSincePause || (!ok && p.entry.paused)))
  }

  /** An offset is submitted only if it is beyond the last one submitted. */
  function CommitRule(p: Part, k: nat): Part
    requires k < |p.hist.batches|
  {
    var upTo := p.hist.batches[k].upTo;
    if upTo > GetOr(p.entry.committed, 0) then
      Part(p.entry.(committed := Some(upTo)), p.hist.(commits := p.hist.commits + [k]))
    else p
  }

  predicate Resumes(l: Limits, p: Part) {
    p.entry.paused && (p.entry.buf.None? || BelowLowWater(l, p.entry.buf.value))
  }

  function AckStep(l: Limits, p: Part, k: nat): Part
    requires k < |p.hist.batches|
  {
    var q := p.(hist := p.hist.(batches := p.hist.batches[k := p.hist.batches[k].(acked := true)]));
    if p.hist.batches[k].status == Durable then
      var c := CommitRule(q, k);
      c.(entry := c.entry.(paused := p.entry.paused && !Resumes(l, p)))
    else q
  }

  function RevokeStep(p: Part): Part {
    var h := if Buffered(p) == [] then p.hist else Spawn(p.hist, Buffered(p), GetOr(p.entry.pending, 0));
    Part(NO_ENTRY, h.(epoch := h.epoch + 1, commits := [], failedSincePause := false))
  }

  function ShutdownDrainStep(p: Part): Part {
    if Buffered(p) == [] then p
    else Part(p.entry.(buf := Some(EMPTY_BUF)), Spawn(p.hist, Buffered(p), GetOr(p.entry.pending, 0)))
  }

  predicate Enabled(p: Part, a: Action) {
    match a
    case Receive(e, t0, t1, saturated) => InOrder(p.hist, e)
    case Done(k, ok) => k < |p.hist.batches| && p.hist.batches[k].status == InFlight
    case Ack(k) => k < |p.hist.batches| && p.hist.batches[k].status != InFlight && !p.hist.batches[k].acked
    case ShutdownCommit(k) => k < |p.hist.batches| && p.hist.batches[k].status == Durable
    case _ => true
  }

  function Effect(l: Limits, p: Part, a: Action): Part
    requires Enabled(p, a)
  {
    match a
    case Receive(e, t0, t1, saturated) => ReceiveStep(l, p, e, t0, t1, saturated)
    case Tick(now, saturated) => TickStep(l, p, now, saturated)
    case Done(k, ok) => DoneStep(p, k, ok)
    case Ack(k) => AckStep(l, p, k)
    case Revoke => RevokeStep(p)
    case ShutdownDrain => ShutdownDrainStep(p)
    case ShutdownCommit(k) => CommitRule(p, k)
  }

  function Apply(l: Limits, p: Part, a: Action): Part {
    if Enabled(p, a) then Effect(l, p, a) else p
  }

  function Run(l: Limits, p: Part, schedule: seq<Action>): Part {
    if schedule == [] then p else Apply(l, Run(l, p, schedule[..|schedule| - 1]), Last(schedule))
  }

  // ----- The invariant -----

  /** The events in s are those received from position start on, in one assignment. */
  ghost predicate Slice(received: seq<Received>, start: nat, s: seq<Event>, epoch: nat) {
    && start + |s| <= |received|
    && forall i :: 0 <= i < |s| ==> received[start + i] == Received(s[i], epoch)
  }

  ghost predicate BatchOk(received: seq<Received>, b: Batch) {
    && b.events != [] && b.upTo == Last(b.events).key.offset + 1
    && Slice(received, b.start, b.events, b.epoch)
    && (b.acked ==> b.status != InFlight)
  }

  /** The batches partition the received sequence up to Handed(batches). */
  ghost predicate BatchesOk(received: seq<Received>, batches: seq<Batch>) {
    && (forall k :: 0 <= k < |batches| ==> BatchOk(received, batches[k]))
    && (batches != [] ==> batches[0].start == 0)
    && (forall i, k :: 0 <= i < k < |batches| ==>
          End(batches[i]) <= batches[k].start && (k == i + 1 ==> End(batches[i]) == batches[k].start))
  }

  function BufferedIn(buf: Option<Buf>): seq<Event> {
    GetOr(buf, EMPTY_BUF).events
  }

  /** The buffer is what was received after the last batch, in the current assignment. */
  ghost predicate BufferOk(
    buf: Option<Buf>, pending: Option<int>, received: seq<Received>, batches: seq<Batch>, epoch: nat)
  {
    var events := BufferedIn(buf);
    && Handed(batches) + |events| == |received|
    && Slice(received, Handed(batches), events, epoch)
    && (buf.Some? ==> ValidBuf(buf.value))
    && (events != [] ==> pending == Some(Last(events).key.offset + 1))
  }

  ghost predicate Ordered(received: seq<Received>, epoch: nat) {
    && (forall i, j :: 0 <= i < j < |received| && received[i].epoch == received[j].epoch ==>
          received[i].event.key.offset < received[j].event.key.offset)
    && (forall i :: 0 <= i < |received| ==> received[i].epoch <= epoch)
  }

  /** Submitted offsets come from durable batches and increase; the last one is remembered. */
  ghost predicate CommitsOk(committed: Option<int>, batches: seq<Batch>, commits: seq<nat>) {
    && (forall i :: 0 <= i < |commits| ==> commits[i] < |batches| && batches[commits[i]].status == Durable)
    && (forall i, j :: 0 <= i < j < |commits| ==> batches[commits[i]].upTo < batches[commits[j]].upTo)
    && committed == (if commits == [] then None else Some(batches[Last(commits)].upTo))
  }

  /** A flush whose result the main loop has yet to see, and may still be good. */
  predicate Awaited(b: Batch) {
    !b.acked && b.status != Failed
  }

  ghost predicate SomeAwaited(batches: seq<Batch>) {
    exists k :: 0 <= k < |batches| && Awaited(batches[k])
  }

  /** A paused partition has something that can wake it. */
  ghost predicate Wakeable(l: Limits, p: Part) {
    p.entry.paused ==>
      Buffered(p) != [] || SomeAwaited(p.hist.batches) || p.hist.failedSincePause || l.maxBytes == 0
  }

  /** Everything but the pause. */
  ghost predicate Core(
    buf: Option<Buf>, pending: Option<int>, committed: Option<int>,
    received: seq<Received>, batches: seq<Batch>, epoch: nat, commits: seq<nat>)
  {
    && BatchesOk(received, batches) && BufferOk(buf, pending, received, batches, epoch)
    && Ordered(received, epoch) && CommitsOk(committed, batches, commits)
  }

  ghost predicate CoreOf(p: Part) {
    Core(p.entry.buf, p.entry.pending, p.entry.committed,
         p.hist.received, p.hist.batches, p.hist.epoch, p.hist.commits)
  }

  ghost predicate Inv(l: Limits, p: Part) {
    CoreOf(p) && Wakeable(l, p)
  }

  lemma BatchesSnoc(received: seq<Received>, batches: seq<Batch>, b: Batch)
    requires BatchesOk(received, batches) && BatchOk(received, b) && b.start == Handed(batches)
    ensures BatchesOk(received, batches + [b])
  {
    forall i | 0 <= i < |batches| ensures End(batches[i]) <= b.start {
      if i < |batches| - 1 {
        assert End(batches[i]) <= batches[|batches| - 1].start;
      }
    }
  }

  /** Handing the whole buffer to a flush task. */
  lemma SpawnKeeps(p: Part, upTo: int, buf: Option<Buf>)
    requires CoreOf(p) && Buffered(p) != [] && Some(upTo) == p.entry.pending
    requires buf.None? || buf == Some(EMPTY_BUF)
    ensures var h := Spawn(p.hist, Buffered(p), upTo);
            && Core(buf, p.entry.pending, p.entry.committed, h.received, h.batches, h.epoch, h.commits)
            && Core(None, None, None, h.received, h.batches, h.epoch + 1, [])
            && SomeAwaited(h.batches)
  {
    var h := Spawn(p.hist, Buffered(p), upTo);
    assert Awaited(h.batches[|p.hist.batches|]);
    BatchesSnoc(h.received, p.hist.batches, Last(h.batches));
    assert Handed(h.batches) == |h.received|;
    assert CommitsOk(p.entry.committed, h.batches, h.commits);
    assert CommitsOk(None, h.batches, []);
    assert Ordered(h.received, h.epoch + 1);
  }

  lemma ReceivedMore(received: seq<Received>, r: Received, batches: seq<Batch>)
    requires BatchesOk(received, batches)
    ensures BatchesOk(received + [r], batches)
  {
    forall k | 0 <= k < |batches| ensures BatchOk(received + [r], batches[k]) {
      assert BatchOk(received, batches[k]);
    }
  }

  lemma OrderedMore(h: History, e: Event)
    requires Ordered(h.received, h.epoch) && InOrder(h, e)
    ensures Ordered(h.received + [Received(e, h.epoch)], h.epoch)
  {
  }

  /** The state between appending an event to the buffer and checking the limits. */
  function Appended(p: Part, e: Event, t0: nat): Part {
    Part(p.entry.(buf := Some(Append(GetOr(p.entry.buf, EMPTY_BUF), e, t0)), pending := Some(e.key.offset + 1)),
         p.hist.(received := p.hist.received + [Received(e, p.hist.epoch)]))
  }

  lemma SliceSnoc(received: seq<Received>, start: nat, s: seq<Event>, epoch: nat, e: Event)
    requires Slice(received, start, s, epoch) && start + |s| == |received|
    ensures Slice(received + [Received(e, epoch)], start, s + [e], epoch)
  {
  }

  lemma AppendedBuffer(p: Part, e: Event, t0: nat)
    requires BufferOk(p.entry.buf, p.entry.pending, p.hist.received, p.hist.batches, p.hist.epoch)
    ensures var q := Appended(p, e, t0);
            BufferOk(q.entry.buf, q.entry.pending, q.hist.received, q.hist.batches, q.hist.epoch)
  {
    var b := GetOr(p.entry.buf, EMPTY_BUF);
    hide Slice;
    SliceSnoc(p.hist.received, Handed(p.hist.batches), b.events, p.hist.epoch, e);
    AppendValid(b, e, t0);
  }

  lemma AppendedKeeps(p: Part, e: Event, t0: nat)
    requires CoreOf(p) && InOrder(p.hist, e)
    ensures CoreOf(Appended(p, e, t0))
  {
    hide BatchesOk, BufferOk, Ordered, CommitsOk, InOrder;
    AppendedBuffer(p, e, t0);
    ReceivedMore(p.hist.received, Received(e, p.hist.epoch), p.hist.batches);
    OrderedMore(p.hist, e);
  }

  lemma ReceiveKeeps(l: Limits, p: Part, e: Event, t0: nat, t1: nat, saturated: bool)
    requires Inv(l, p) && InOrder(p.hist, e)
    ensures Inv(l, ReceiveStep(l, p, e, t0, t1, saturated))
  {
    hide Core, InOrder, SomeAwaited;
    var mid := Appended(p, e, t0);
    AppendedKeeps(p, e, t0);
    if OverAnyLimit(l, mid.entry.buf.value, t1) {
      SpawnKeeps(mid, e.key.offset + 1, Some(EMPTY_BUF));
    }
  }

  lemma TickKeeps(l: Limits, p: Part, now: nat, saturated: bool)
    requires Inv(l, p)
    ensures Inv(l, TickStep(l, p, now, saturated))
  {
    if TickStep(l, p, now, saturated) != p {
      SpawnKeeps(p, p.entry.pending.value, Some(EMPTY_BUF));
    }
  }

  /** Marking a batch changes neither what it holds nor where. */
  lemma MarkKeeps(received: seq<Received>, batches: seq<Batch>, k: nat, b: Batch)
    requires BatchesOk(received, batches) && k < |batches| && (b.acked ==> b.status != InFlight)
    requires b == batches[k].(status := b.status, acked := b.acked)
    ensures BatchesOk(received, batches[k := b]) && Handed(batches[k := b]) == Handed(batches)
  {
    assert BatchOk(received, batches[k]);
    var marked := batches[k := b];
    assert End(b) == End(batches[k]) && b.start == batches[k].start;
    forall i, j | 0 <= i < j < |marked|
      ensures End(marked[i]) <= marked[j].start && (j == i + 1 ==> End(marked[i]) == marked[j].start)
    {
      assert End(batches[i]) <= batches[j].start;
    }
  }

  lemma MarkKeepsCore(p: Part, k: nat, b: Batch)
    requires CoreOf(p) && k < |p.hist.batches| && (b.acked ==> b.status != InFlight)
    requires b == p.hist.batches[k].(status := b.status, acked := b.acked)
    requires p.hist.batches[k].status != Durable || b.status == Durable
    ensures CoreOf(p.(hist := p.hist.(batches := p.hist.batches[k := b])))
  {
    MarkKeeps(p.hist.received, p.hist.batches, k, b);
    MarkKeepsCommits(p.entry.committed, p.hist.batches, p.hist.commits, k, b);
    hide BatchesOk, Ordered, CommitsOk;
  }

  lemma MarkKeepsCommits(committed: Option<int>, batches: seq<Batch>, commits: seq<nat>, k: nat, b: Batch)
    requires CommitsOk(committed, batches, commits) && k < |batches|
    requires b.upTo == batches[k].upTo && (batches[k].status != Durable || b.status == Durable)
    ensures CommitsOk(committed, batches[k := b], commits)
  {
  }

  lemma DoneKeeps(l: Limits, p: Part, k: nat, ok: bool)
    requires Inv(l, p) && Enabled(p, Done(k, ok))
    ensures Inv(l, DoneStep(p, k, ok))
  {
    var q := DoneStep(p, k, ok);
    MarkKeepsCore(p, k, q.hist.batches[k]);
    if i :| 0 <= i < |p.hist.batches| && Awaited(p.hist.batches[i]) {
      assert q.hist.failedSincePause || !p.entry.paused || Awaited(q.hist.batches[i]);
    }
  }

  lemma CommitsSnoc(committed: Option<int>, batches: seq<Batch>, commits: seq<nat>, k: nat)
    requires CommitsOk(committed, batches, commits) && k < |batches| && batches[k].status == Durable
    requires batches[k].upTo > GetOr(committed, 0)
    ensures CommitsOk(Some(batches[k].upTo), batches, commits + [k])
  {
    var more := commits + [k];
    forall i, j | 0 <= i < j < |more| ensures batches[more[i]].upTo < batches[more[j]].upTo {
      if j == |commits| {
        assert i == |commits| - 1 || batches[commits[i]].upTo < batches[commits[|commits| - 1]].upTo;
      }
    }
  }

  lemma CommitKeeps(p: Part, k: nat)
    requires CoreOf(p) && k < |p.hist.batches| && p.hist.batches[k].status == Durable
    ensures CoreOf(CommitRule(p, k))
  {
    hide BatchesOk, BufferOk, Ordered, CommitsOk;
    if p.hist.batches[k].upTo > GetOr(p.entry.committed, 0) {
      CommitsSnoc(p.entry.committed, p.hist.batches, p.hist.commits, k);
    }
  }

  lemma AckKeeps(l: Limits, p: Part, k: nat)
    requires Inv(l, p) && Enabled(p, Ack(k))
    ensures Inv(l, AckStep(l, p, k))
  {
    var b := p.hist.batches[k].(acked := true);
    MarkKeepsCore(p, k, b);
    if b.status == Durable {
      CommitKeeps(p.(hist := p.hist.(batches := p.hist.batches[k := b])), k);
    }
    AckKeepsWakeable(l, p, k);
  }

  /** A good result leaves the partition paused only if its buffer is well filled. */
  lemma AckKeepsWakeable(l: Limits, p: Part, k: nat)
    requires Inv(l, p) && Enabled(p, Ack(k))
    ensures Wakeable(l, AckStep(l, p, k))
  {
    var q := AckStep(l, p, k);
    if i :| 0 <= i < |p.hist.batches| && Awaited(p.hist.batches[i]) {
      if p.hist.batches[k].status == Failed {
        assert Awaited(q.hist.batches[i]);
      }
    }
  }

  lemma RevokeKeeps(l: Limits, p: Part)
    requires Inv(l, p)
    ensures Inv(l, RevokeStep(p))
  {
    if Buffered(p) != [] {
      SpawnKeeps(p, p.entry.pending.value, None);
    }
  }

  lemma ShutdownKeeps(l: Limits, p: Part)
    requires Inv(l, p)
    ensures Inv(l, ShutdownDrainStep(p))
  {
    if Buffered(p) != [] {
      SpawnKeeps(p, p.entry.pending.value, Some(EMPTY_BUF));
    }
  }

  lemma ShutdownCommitKeeps(l: Limits, p: Part, k: nat)
    requires Inv(l, p) && Enabled(p, ShutdownCommit(k))
    ensures Inv(l, CommitRule(p, k))
  {
    CommitKeeps(p, k);
  }

  lemma StepKeepsInv(l: Limits, p: Part, a: Action)
    requires Inv(l, p)
    ensures Inv(l, Apply(l, p, a))
  {
    hide Inv;
    if Enabled(p, a) {
      match a
      case Receive(e, t0, t1, saturated) => ReceiveKeeps(l, p, e, t0, t1, saturated);
      case Tick(now, saturated) => TickKeeps(l, p, now, saturated);
      case Done(k, ok) => DoneKeeps(l, p, k, ok);
      case Ack(k) => AckKeeps(l, p, k);
      case Revoke => RevokeKeeps(l, p);
      case ShutdownDrain => ShutdownKeeps(l, p);
      case ShutdownCommit(k) => ShutdownCommitKeeps(l, p, k);
    }
  }

  lemma {:induction false} EveryRunKeepsInv(l: Limits, schedule: seq<Action>)
    ensures Inv(l, Run(l, INIT, schedule))
  {
    if schedule != [] {
      EveryRunKeepsInv(l, schedule[..|schedule| - 1]);
      StepKeepsInv(l, Run(l, INIT, schedule[..|schedule| - 1]), Last(schedule));
    }
  }
}
