/** What each step of a partition decides in any reachable state, told by the events that are
    buffered: when a batch is handed over, when the partition pauses and resumes, and when an offset
    is submitted. */
module ConsumerSteps {
  import opened Base
  import opened Batching
  import opened Consumer
  import opened ConsumerTheorems

  /** How long the buffered events have waited when the clock shows now; t0 is the clock when the
      event that comes with the step starts a batch. */
  function Waited(p: Part, t0: nat, now: nat): nat {
    var started := if p.entry.buf.Some? && p.entry.buf.value.started.Some? then p.entry.buf.value.started.value else t0;
    Max(now - started, 0)
  }

  /** The events that are buffered once the step has brought its own. */
  function Gathered(p: Part, a: Action): seq<Event> {
    if a.Receive? then Buffered(p) + [a.e] else Buffered(p)
  }

  /** A batch is due: by bytes, count or age with a new event, by age at a tick, and in any case when
      the partition is revoked or the process shuts down. */
  predicate Due(l: Limits, p: Part, a: Action) {
    match a
    case Receive(e, t0, t1, _) =>
      || Bytes(Buffered(p) + [e]) >= l.maxBytes || |Buffered(p)| + 1 >= l.maxRecords
      || Waited(p, t0, t1) >= l.maxAgeMs
    case Tick(now, _) => Buffered(p) != [] && Waited(p, now, now) >= l.maxAgeMs
    case Revoke => Buffered(p) != []
    case ShutdownDrain => Buffered(p) != []
    case _ => false
  }

  lemma BufferIsValid(l: Limits, p: Part)
    requires Inv(l, p)
    ensures p.entry.buf.Some? ==> ValidBuf(p.entry.buf.value)
    ensures Buffered(p) != [] ==>
              p.entry.buf.Some? && p.entry.pending == Some(Last(Buffered(p)).key.offset + 1)
  {
  }

  lemma ReceiveHandsOver(l: Limits, p: Part, a: Action)
    requires Inv(l, p) && Enabled(p, a) && a.Receive?
    ensures HandsOver(l, p, a)
  {
    hide Inv, InOrder, Bytes, Push, AboveHighWater, Handed;
    BufferIsValid(l, p);
    NoBytes();
    PushConserves(l, GetOr(p.entry.buf, EMPTY_BUF), a.e, a.t0, a.t1);
    ReceivedBatches(l, p, a);
    WaitedIs(p, a.t0, a.t1);
    var (c, batch) := Push(l, GetOr(p.entry.buf, EMPTY_BUF), a.e, a.t0, a.t1);
    if batch.Some? {
      assert batch.value + [] == batch.value == Gathered(p, a);
      assert Last(batch.value) == a.e;
    } else {
      assert [] + c.events == c.events;
    }
  }

  lemma NoBytes()
    ensures Bytes([]) == 0
  {
  }

  ghost predicate HandsOver(l: Limits, p: Part, a: Action) {
    var q := Apply(l, p, a);
    if Due(l, p, a) then
      && |q.hist.batches| == |p.hist.batches| + 1 && q.hist.batches[..|p.hist.batches|] == p.hist.batches
      && Buffered(q) == []
      && var b := Last(q.hist.batches);
         && b.events == Gathered(p, a) && b.epoch == p.hist.epoch && b.upTo == Last(b.events).key.offset + 1
         && b.status == InFlight && !b.acked
    else
      && |q.hist.batches| == |p.hist.batches| && Buffered(q) == Gathered(p, a)
      && forall i :: 0 <= i < |p.hist.batches| ==> q.hist.batches[i] == Marked(p.hist.batches[i], a, i)
  }

  /** Batches change only by their flush finishing and by their result being handled. */
  function Marked(b: Batch, a: Action, i: nat): Batch {
    b.(status := if a.Done? && a.k == i then (if a.ok then Durable else Failed) else b.status,
       acked := b.acked || a == Ack(i))
  }

  lemma WaitedIs(p: Part, t0: nat, now: nat)
    requires p.entry.buf.Some? ==> ValidBuf(p.entry.buf.value)
    ensures var b := GetOr(p.entry.buf, EMPTY_BUF);
            Waited(p, t0, now) == Max(now - (if b.events == [] then t0 else b.started.value), 0)
  {
    hide Bytes;
    NoBytes();
  }

  lemma ReceivedBatches(l: Limits, p: Part, a: Action)
    requires Enabled(p, a) && a.Receive?
    ensures var q := Apply(l, p, a);
            var (c, batch) := Push(l, GetOr(p.entry.buf, EMPTY_BUF), a.e, a.t0, a.t1);
            && q.entry.buf == Some(c)
            && q.hist.batches ==
               if batch.Some? then p.hist.batches + [NewBatch(p, batch.value, a.e.key.offset + 1)] else p.hist.batches
  {
    hide InOrder, Push, AboveHighWater, Handed;
  }

  /** A batch just handed over. */
  function NewBatch(p: Part, events: seq<Event>, upTo: int): Batch {
    Batch(Handed(p.hist.batches), events, p.hist.epoch, upTo, InFlight, false)
  }

  lemma TickHandsOver(l: Limits, p: Part, a: Action)
    requires Inv(l, p) && Enabled(p, a) && a.Tick?
    ensures HandsOver(l, p, a)
  {
    hide Inv, Bytes, Handed, Poll;
    BufferIsValid(l, p);
    NoBytes();
    WaitedAtTick(p, a.now);
    if p.entry.buf.Some? {
      PollConserves(l, p.entry.buf.value, a.now);
      var (c, batch) := Poll(l, p.entry.buf.value, a.now);
      assert batch.Some? <==> Due(l, p, a);
      assert batch.None? ==> Apply(l, p, a) == p;
    }
  }

  lemma WaitedAtTick(p: Part, now: nat)
    requires p.entry.buf.Some? ==> ValidBuf(p.entry.buf.value)
    ensures Buffered(p) != [] ==>
              p.entry.buf.value.started.Some? && Waited(p, now, now) == Max(now - p.entry.buf.value.started.value, 0)
  {
    hide Bytes;
  }

  lemma DrainHandsOver(l: Limits, p: Part, a: Action)
    requires Inv(l, p) && Enabled(p, a) && (a.Revoke? || a.ShutdownDrain?)
    ensures HandsOver(l, p, a)
  {
    hide Inv, Bytes, Handed, ValidBuf;
    BufferIsValid(l, p);
  }

  lemma ResultMarks(l: Limits, p: Part, a: Action)
    requires Enabled(p, a) && (a.Done? || a.Ack? || a.ShutdownCommit?)
    ensures HandsOver(l, p, a)
  {
    hide Bytes, Handed;
  }

  lemma StepHandsOver(l: Limits, p: Part, a: Action)
    requires Inv(l, p) && Enabled(p, a)
    ensures HandsOver(l, p, a)
  {
    hide HandsOver, Inv, Enabled;
    match a
    case Receive(_, _, _, _) => ReceiveHandsOver(l, p, a);
    case Tick(_, _) => TickHandsOver(l, p, a);
    case Revoke => DrainHandsOver(l, p, a);
    case ShutdownDrain => DrainHandsOver(l, p, a);
    case _ => ResultMarks(l, p, a);
  }

  /** In any reachable state a step hands a batch over if and only if one is due; then the batch is
      everything that was gathered, in order, under the offset after its last event, and nothing stays
      buffered; otherwise all of it stays. Batches handed over before keep their events. */
  lemma {:induction false} HandsOverIff(l: Limits, before: seq<Action>, a: Action)
    requires Enabled(Run(l, INIT, before), a)
    ensures HandsOver(l, Run(l, INIT, before), a)
  {
    EveryRunKeepsInv(l, before);
    hide Run, Inv, HandsOver, Enabled;
    StepHandsOver(l, Run(l, INIT, before), a);
  }

  /** Is the partition paused after the step? A message pauses it when it fills a batch while no permit
      is free, or fills the buffer above four fifths; a tick when it hands over while no permit is free;
      a good result resumes it when the buffer is below two fifths. */
  predicate PausedAfter(l: Limits, p: Part, a: Action)
    requires Enabled(p, a)
  {
    match a
    case Receive(e, t0, t1, saturated) =>
      p.entry.paused || (if Due(l, p, a) then saturated
                         else l.maxBytes == 0 || 5 * Bytes(Buffered(p) + [e]) > 4 * l.maxBytes)
    case Tick(now, saturated) => p.entry.paused || (Due(l, p, a) && saturated)
    case Ack(k) =>
      p.entry.paused
      && !(p.hist.batches[k].status == Durable && l.maxBytes > 0 && 5 * Bytes(Buffered(p)) < 2 * l.maxBytes)
    case Revoke => false
    case _ => p.entry.paused
  }

  /** Has a flush failed since the partition was paused? */
  predicate FailedAfter(l: Limits, p: Part, a: Action)
    requires Enabled(p, a)
  {
    if a.Revoke? || (PausedAfter(l, p, a) && !p.entry.paused) then false
    else p.hist.failedSincePause || (a.Done? && !a.ok && p.entry.paused)
  }

  lemma StepFails(l: Limits, p: Part, a: Action)
    requires Enabled(p, a) && (Apply(l, p, a).entry.paused <==> PausedAfter(l, p, a))
    ensures Apply(l, p, a).hist.failedSincePause <==> FailedAfter(l, p, a)
  {
    hide PausedAfter, InOrder, Push, Poll, AboveHighWater, Resumes;
  }

  lemma ReceivePauses(l: Limits, p: Part, a: Action)
    requires Inv(l, p) && Enabled(p, a) && a.Receive?
    ensures Apply(l, p, a).entry.paused <==> PausedAfter(l, p, a)
  {
    hide Inv, InOrder, Bytes;
    BufferIsValid(l, p);
    NoBytes();
    var b := GetOr(p.entry.buf, EMPTY_BUF);
    PushConserves(l, b, a.e, a.t0, a.t1);
    AppendValid(b, a.e, a.t0);
    WaitedIs(p, a.t0, a.t1);
  }

  lemma TickPauses(l: Limits, p: Part, a: Action)
    requires Inv(l, p) && Enabled(p, a) && a.Tick?
    ensures Apply(l, p, a).entry.paused <==> PausedAfter(l, p, a)
  {
    hide Inv, Poll, Bytes;
    BufferIsValid(l, p);
    WaitedAtTick(p, a.now);
    if p.entry.buf.Some? {
      PollConserves(l, p.entry.buf.value, a.now);
      var (c, batch) := Poll(l, p.entry.buf.value, a.now);
      assert batch.Some? <==> Due(l, p, a);
    }
  }

  lemma AckPauses(l: Limits, p: Part, a: Action)
    requires Inv(l, p) && Enabled(p, a) && a.Ack? && (p.entry.paused ==> p.entry.buf.Some?)
    ensures Apply(l, p, a).entry.paused <==> PausedAfter(l, p, a)
  {
    hide Inv, Bytes;
    BufferIsValid(l, p);
  }

  lemma OthersPause(l: Limits, p: Part, a: Action)
    requires Enabled(p, a) && !a.Receive? && !a.Tick? && !a.Ack?
    ensures Apply(l, p, a).entry.paused <==> PausedAfter(l, p, a)
  {
  }

  lemma StepPauses(l: Limits, p: Part, a: Action)
    requires Inv(l, p) && Enabled(p, a) && (p.entry.paused ==> p.entry.buf.Some?)
    ensures Apply(l, p, a).entry.paused <==> PausedAfter(l, p, a)
  {
    hide Inv, InOrder, Poll, Bytes, PausedAfter, Enabled;
    match a
    case Receive(_, _, _, _) => ReceivePauses(l, p, a);
    case Tick(_, _) => TickPauses(l, p, a);
    case Ack(_) => AckPauses(l, p, a);
    case _ => OthersPause(l, p, a);
  }

  /** The pause and resume decisions of every step, in any reachable state, and whether a flush has
      failed since the pause. */
  lemma {:induction false} PausesIff(l: Limits, before: seq<Action>, a: Action)
    requires Enabled(Run(l, INIT, before), a)
    ensures var p := Run(l, INIT, before); Apply(l, p, a).entry.paused <==> PausedAfter(l, p, a)
    ensures var p := Run(l, INIT, before); Apply(l, p, a).hist.failedSincePause <==> FailedAfter(l, p, a)
  {
    EveryRunKeepsInv(l, before);
    PausedHasBuffer(l, before);
    hide Run, Inv, Apply, Enabled, PausedAfter, FailedAfter;
    StepPauses(l, Run(l, INIT, before), a);
    StepFails(l, Run(l, INIT, before), a);
  }

  /** The offset of the last batch submitted since the last revocation, or zero. */
  function LastSubmitted(p: Part): int {
    if p.hist.commits != [] && Last(p.hist.commits) < |p.hist.batches|
    then p.hist.batches[Last(p.hist.commits)].upTo else 0
  }

  /** Offsets submitted since the last revocation, after the step: a good result, or a good flush at
      shutdown, submits its offset exactly when that is beyond the last one. */
  function CommitsAfter(p: Part, a: Action): seq<nat>
    requires Enabled(p, a)
  {
    if a.Revoke? then []
    else if (a.Ack? || a.ShutdownCommit?) && p.hist.batches[a.k].status == Durable
            && p.hist.batches[a.k].upTo > LastSubmitted(p)
    then p.hist.commits + [a.k]
    else p.hist.commits
  }

  lemma StepSubmits(l: Limits, p: Part, a: Action)
    requires Inv(l, p) && Enabled(p, a)
    ensures Apply(l, p, a).hist.commits == CommitsAfter(p, a)
  {
    hide BatchesOk, BufferOk, Ordered, Wakeable, InOrder, Push, Poll;
  }

  /** In any reachable state a step submits an offset if and only if it says so. */
  lemma {:induction false} SubmitsIff(l: Limits, before: seq<Action>, a: Action)
    requires Enabled(Run(l, INIT, before), a)
    ensures var p := Run(l, INIT, before); Apply(l, p, a).hist.commits == CommitsAfter(p, a)
  {
    EveryRunKeepsInv(l, before);
    hide Run, Inv, Apply, Enabled, CommitsAfter;
    StepSubmits(l, Run(l, INIT, before), a);
  }
}
