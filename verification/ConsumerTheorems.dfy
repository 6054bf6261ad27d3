/** What the consumer protocol guarantees after every schedule of its steps. */
module ConsumerTheorems {
  import opened Base
  import opened Batching
  import opened Consumer

  // ----- Conservation -----

  function EventsOf(batches: seq<Batch>): seq<Event> {
    if batches == [] then [] else EventsOf(batches[..|batches| - 1]) + Last(batches).events
  }

  function ReceivedEvents(received: seq<Received>): seq<Event> {
    seq(|received|, i requires 0 <= i < |received| => received[i].event)
  }

  lemma LastBatch(received: seq<Received>, batches: seq<Batch>)
    requires BatchesOk(received, batches) && batches != []
    ensures var init, b := batches[..|batches| - 1], Last(batches);
            BatchesOk(received, init) && BatchOk(received, b) && b.start == Handed(init)
  {
    var n := |batches| - 1;
    if n > 0 {
      assert End(batches[n - 1]) == batches[n].start;
    }
  }

  lemma SliceEvents(received: seq<Received>, b: Batch)
    requires BatchOk(received, b)
    ensures End(b) <= |received|
    ensures ReceivedEvents(received[..End(b)]) == ReceivedEvents(received[..b.start]) + b.events
  {
    assert forall i :: 0 <= i < |b.events| ==> received[b.start + i].event == b.events[i];
  }

  lemma {:induction false} HandedOver(received: seq<Received>, batches: seq<Batch>)
    requires BatchesOk(received, batches)
    ensures Handed(batches) <= |received|
    ensures EventsOf(batches) == ReceivedEvents(received[..Handed(batches)])
  {
    hide BatchesOk, BatchOk, ReceivedEvents;
    if batches != [] {
      LastBatch(received, batches);
      HandedOver(received, batches[..|batches| - 1]);
      SliceEvents(received, Last(batches));
    } else {
      assert ReceivedEvents(received[..0]) == [] by {
        NothingReceived(received[..0]);
      }
    }
  }

  lemma NothingReceived(received: seq<Received>)
    requires received == []
    ensures ReceivedEvents(received) == []
  {
  }

  lemma InvParts(l: Limits, p: Part)
    requires Inv(l, p)
    ensures BatchesOk(p.hist.received, p.hist.batches) && Handed(p.hist.batches) <= |p.hist.received|
    ensures ReceivedEvents(p.hist.received) == ReceivedEvents(p.hist.received[..Handed(p.hist.batches)]) + Buffered(p)
  {
    TailEvents(p.hist.received, Handed(p.hist.batches), Buffered(p), p.hist.epoch);
    hide BatchesOk, Slice, ReceivedEvents;
  }

  lemma TailEvents(received: seq<Received>, start: nat, s: seq<Event>, epoch: nat)
    requires Slice(received, start, s, epoch) && start + |s| == |received|
    ensures ReceivedEvents(received) == ReceivedEvents(received[..start]) + s
  {
    assert forall i :: 0 <= i < |s| ==> received[start + i].event == s[i];
  }

  /** Across pushes, polls, revocations and shutdown, the batches in hand-over order followed by
      the buffer are the received events, in order; each batch carries the offset to resume at. */
  lemma {:induction false} FifoConservation(l: Limits, schedule: seq<Action>)
    ensures var p := Run(l, INIT, schedule);
            && EventsOf(p.hist.batches) + Buffered(p) == ReceivedEvents(p.hist.received)
            && (forall k :: 0 <= k < |p.hist.batches| ==>
                  && p.hist.batches[k].events != []
                  && p.hist.batches[k].upTo == Last(p.hist.batches[k].events).key.offset + 1)
  {
    EveryRunKeepsInv(l, schedule);
    var p := Run(l, INIT, schedule);
    InvParts(l, p);
    hide Inv, Run;
    HandedOver(p.hist.received, p.hist.batches);
    forall k | 0 <= k < |p.hist.batches|
      ensures p.hist.batches[k].events != []
      ensures p.hist.batches[k].upTo == Last(p.hist.batches[k].events).key.offset + 1
    {
      assert BatchOk(p.hist.received, p.hist.batches[k]);
    }
  }

  // ----- The commit frontier -----

  /** Position j was received in the assignment of batch k, below the offset k commits. */
  predicate Below(h: History, k: nat, j: nat)
    requires k < |h.batches|
  {
    j < |h.received| && h.received[j].epoch == h.batches[k].epoch && h.received[j].event.key.offset < h.batches[k].upTo
  }

  predicate InBatch(h: History, i: nat, j: nat) {
    i < |h.batches| && h.batches[i].start <= j < End(h.batches[i])
  }

  lemma {:induction false} CoveredByBatches(h: History, k: nat, j: nat)
    requires BatchesOk(h.received, h.batches) && k < |h.batches| && j < End(h.batches[k])
    ensures exists i: nat :: i <= k && InBatch(h, i, j)
  {
    if j < h.batches[k].start {
      assert k > 0;
      assert End(h.batches[k - 1]) == h.batches[k].start;
      CoveredByBatches(h, k - 1, j);
      var i: nat :| i <= k - 1 && InBatch(h, i, j);
      assert i <= k;
    } else {
      assert InBatch(h, k, j);
    }
  }

  lemma LastPosition(h: History, k: nat)
    requires BatchesOk(h.received, h.batches) && k < |h.batches|
    ensures var b := h.batches[k];
            b.start < End(b) <= |h.received| && h.received[End(b) - 1].epoch == b.epoch
            && h.received[End(b) - 1].event.key.offset == b.upTo - 1
  {
    assert BatchOk(h.received, h.batches[k]);
    var b := h.batches[k];
    assert h.received[b.start + (|b.events| - 1)] == Received(b.events[|b.events| - 1], b.epoch);
  }

  lemma BelowIsHandedOver(p: Part, k: nat, j: nat)
    requires CoreOf(p) && k < |p.hist.batches| && Below(p.hist, k, j)
    ensures exists i: nat :: i <= k && InBatch(p.hist, i, j)
  {
    LastPosition(p.hist, k);
    assert j < End(p.hist.batches[k]);
    CoveredByBatches(p.hist, k, j);
  }

  /** The frontier: every committed offset is that of a durable batch, and every event received
      below it in that batch's assignment was handed over in that batch or an earlier one, so it
      is durable, in a flush still running, or in a flush that failed: never in the buffer, never
      in a later batch. */
  lemma {:induction false} CommitFrontier(l: Limits, schedule: seq<Action>, c: nat, j: nat)
    requires c < |Run(l, INIT, schedule).hist.commits|
    ensures var h := Run(l, INIT, schedule).hist;
            && h.commits[c] < |h.batches| && h.batches[h.commits[c]].status == Durable
            && (Below(h, h.commits[c], j) ==> exists i: nat :: i <= h.commits[c] && InBatch(h, i, j))
  {
    EveryRunKeepsInv(l, schedule);
    var p := Run(l, INIT, schedule);
    if Below(p.hist, p.hist.commits[c], j) {
      BelowIsHandedOver(p, p.hist.commits[c], j);
    }
  }

  /** The event at position j was flushed durably in its own assignment. */
  ghost predicate DurableHere(h: History, j: nat)
    requires j < |h.received|
  {
    exists i: nat :: i < |h.batches| && h.batches[i].status == Durable && h.batches[i].epoch == h.received[j].epoch
      && h.received[j].event in h.batches[i].events
  }

  /** No earlier hand-over of this assignment is still running or has failed. */
  ghost predicate EarlierAllDurable(h: History, k: nat)
    requires k < |h.batches|
  {
    forall i :: 0 <= i <= k && h.batches[i].epoch == h.batches[k].epoch ==> h.batches[i].status == Durable
  }

  /** "Committed only after a successful flush" protects the events below the offset exactly when
      every batch handed over earlier in the assignment is durable too; the commit test alone,
      which only looks for a larger offset, does not ensure that. */
  lemma {:induction false} CommitSafeIff(l: Limits, schedule: seq<Action>, k: nat)
    requires k < |Run(l, INIT, schedule).hist.batches|
    ensures var h := Run(l, INIT, schedule).hist;
            (forall j: nat :: Below(h, k, j) ==> DurableHere(h, j)) <==> EarlierAllDurable(h, k)
  {
    EveryRunKeepsInv(l, schedule);
    var p := Run(l, INIT, schedule);
    var h := p.hist;
    hide Run;
    if EarlierAllDurable(h, k) {
      forall j: nat | Below(h, k, j) ensures DurableHere(h, j) {
        DurableBelow(p, k, j);
      }
    }
    if forall j: nat :: Below(h, k, j) ==> DurableHere(h, j) {
      forall i | 0 <= i <= k && h.batches[i].epoch == h.batches[k].epoch ensures h.batches[i].status == Durable {
        FirstEventBelow(p, i, k);
        OnlyItsBatch(p, i, h.batches[i].start);
      }
    }
  }

  lemma DurableBelow(p: Part, k: nat, j: nat)
    requires CoreOf(p) && k < |p.hist.batches| && Below(p.hist, k, j) && EarlierAllDurable(p.hist, k)
    ensures DurableHere(p.hist, j)
  {
    BelowIsHandedOver(p, k, j);
    var i: nat :| i <= k && InBatch(p.hist, i, j);
    BatchHolds(p.hist, i, j);
  }

  /** With no failed flush, acknowledging an assignment's results in hand-over order makes every commit safe. */
  lemma InOrderAcksAreSafe(p: Part, k: nat)
    requires CoreOf(p) && k < |p.hist.batches| && p.hist.batches[k].status == Durable
    requires forall i :: 0 <= i < |p.hist.batches| ==> p.hist.batches[i].status != Failed
    requires forall i :: 0 <= i < k && p.hist.batches[i].epoch == p.hist.batches[k].epoch ==> p.hist.batches[i].acked
    ensures EarlierAllDurable(p.hist, k)
  {
    forall i | 0 <= i < k && p.hist.batches[i].epoch == p.hist.batches[k].epoch
      ensures p.hist.batches[i].status == Durable
    {
      assert BatchOk(p.hist.received, p.hist.batches[i]);
    }
  }

  lemma BatchHolds(h: History, i: nat, j: nat)
    requires BatchesOk(h.received, h.batches) && InBatch(h, i, j)
    ensures j < |h.received| && h.received[j].epoch == h.batches[i].epoch && h.received[j].event in h.batches[i].events
  {
    assert BatchOk(h.received, h.batches[i]);
    var b := h.batches[i];
    assert h.received[b.start + (j - b.start)] == Received(b.events[j - b.start], b.epoch);
  }

  lemma FirstEventBelow(p: Part, i: nat, k: nat)
    requires CoreOf(p) && i <= k < |p.hist.batches| && p.hist.batches[i].epoch == p.hist.batches[k].epoch
    ensures Below(p.hist, k, p.hist.batches[i].start) && InBatch(p.hist, i, p.hist.batches[i].start)
  {
    LastPosition(p.hist, i);
    LastPosition(p.hist, k);
    BatchHolds(p.hist, i, p.hist.batches[i].start);
    if i < k {
      assert End(p.hist.batches[i]) <= p.hist.batches[k].start;
    }
  }

  lemma OnlyItsBatch(p: Part, i: nat, j: nat)
    requires CoreOf(p) && InBatch(p.hist, i, j) && j < |p.hist.received| && DurableHere(p.hist, j)
    ensures p.hist.batches[i].status == Durable
  {
    var h := p.hist;
    var m: nat :| m < |h.batches| && h.batches[m].status == Durable && h.batches[m].epoch == h.received[j].epoch
      && h.received[j].event in h.batches[m].events;
    var n: nat :| n < |h.batches[m].events| && h.batches[m].events[n] == h.received[j].event;
    hide BufferOk, CommitsOk, DurableHere;
    assert BatchOk(h.received, h.batches[m]);
    var pos := h.batches[m].start + n;
    assert h.received[pos] == Received(h.batches[m].events[n], h.batches[m].epoch);
    SamePosition(h.received, h.epoch, pos, j);
    SameBatch(h, m, i, j);
  }

  lemma SamePosition(received: seq<Received>, epoch: nat, i: nat, j: nat)
    requires Ordered(received, epoch) && i < |received| && j < |received| && received[i] == received[j]
    ensures i == j
  {
  }

  lemma SameBatch(h: History, m: nat, i: nat, j: nat)
    requires BatchesOk(h.received, h.batches) && InBatch(h, m, j) && InBatch(h, i, j)
    ensures m == i
  {
  }

  /** Between two revocations the offsets submitted for commit strictly increase, whatever order
      the flushes finish in, and including the shutdown path. */
  lemma {:induction false} CommitsAdvance(l: Limits, schedule: seq<Action>)
    ensures var p := Run(l, INIT, schedule);
            && (forall i, j :: 0 <= i < j < |p.hist.commits| ==>
                  p.hist.commits[i] < |p.hist.batches| && p.hist.commits[j] < |p.hist.batches|
                  && p.hist.batches[p.hist.commits[i]].upTo < p.hist.batches[p.hist.commits[j]].upTo)
            && (p.hist.commits != [] ==>
                  Last(p.hist.commits) < |p.hist.batches|
                  && GetOr(p.entry.committed, 0) == p.hist.batches[Last(p.hist.commits)].upTo)
  {
    EveryRunKeepsInv(l, schedule);
  }

  // ----- Pausing -----

  /** A paused partition always has buffered events, a flush result still to come, or a failed
      flush since the pause, provided the byte limit is positive. */
  lemma {:induction false} NoLostWakeup(l: Limits, schedule: seq<Action>)
    requires l.maxBytes > 0
    ensures var p := Run(l, INIT, schedule);
            p.entry.paused ==> Buffered(p) != [] || SomeAwaited(p.hist.batches) || p.hist.failedSincePause
  {
    EveryRunKeepsInv(l, schedule);
  }

  predicate OnlyFlushing(schedule: seq<Action>) {
    forall i :: 0 <= i < |schedule| ==> schedule[i].Ack? || (schedule[i].Done? && schedule[i].ok)
  }

  lemma {:induction false} FlushingKeeps(l: Limits, p: Part, schedule: seq<Action>)
    requires Inv(l, p) && OnlyFlushing(schedule)
    ensures var q := Run(l, p, schedule);
            Inv(l, q) && q.entry.buf == p.entry.buf && q.hist.failedSincePause == p.hist.failedSincePause
  {
    hide Inv;
    if schedule != [] {
      FlushingKeeps(l, p, schedule[..|schedule| - 1]);
      StepKeepsInv(l, Run(l, p, schedule[..|schedule| - 1]), Last(schedule));
    }
  }

  /** Without failures or new messages, an age-triggered poll and the completion of all flushes,
      in any order, always resume the partition. */
  lemma {:induction false} AgePollResumes(
    l: Limits, before: seq<Action>, now: nat, saturated: bool, flushing: seq<Action>)
    requires l.maxBytes > 0 && OnlyFlushing(flushing)
    requires var p := Run(l, INIT, before);
             && !p.hist.failedSincePause
             && (Buffered(p) != [] ==> AgeExceeded(l, p.entry.buf.value, now))
    requires var q := Run(l, Apply(l, Run(l, INIT, before), Tick(now, saturated)), flushing);
             forall k :: 0 <= k < |q.hist.batches| ==> q.hist.batches[k].acked
    ensures !Run(l, Apply(l, Run(l, INIT, before), Tick(now, saturated)), flushing).entry.paused
  {
    EveryRunKeepsInv(l, before);
    var p := Run(l, INIT, before);
    var polled := Apply(l, p, Tick(now, saturated));
    hide Inv, Run, OnlyFlushing;
    StepKeepsInv(l, p, Tick(now, saturated));
    FlushingKeeps(l, polled, flushing);
    NothingPausesForever(l, Run(l, polled, flushing));
  }

  lemma NothingPausesForever(l: Limits, p: Part)
    requires Inv(l, p) && l.maxBytes > 0 && Buffered(p) == [] && !p.hist.failedSincePause
    requires forall k :: 0 <= k < |p.hist.batches| ==> p.hist.batches[k].acked
    ensures !p.entry.paused
  {
  }

  /** What is buffered is below the size limits, and at most four fifths full unless paused. */
  predicate Bounded(l: Limits, p: Part) {
    p.entry.buf.Some? ==>
      var b := p.entry.buf.value;
      && (b.events != [] ==> b.bytes < l.maxBytes && |b.events| < l.maxRecords)
      && (l.maxBytes > 0 && !p.entry.paused ==> 5 * b.bytes <= 4 * l.maxBytes)
  }

  lemma StepKeepsBounded(l: Limits, p: Part, a: Action)
    requires Inv(l, p) && Bounded(l, p)
    ensures Bounded(l, Apply(l, p, a))
  {
    hide BatchesOk, BufferOk, Ordered, CommitsOk, Wakeable, InOrder, AgeExceeded;
  }

  /** Backpressure: in every run the buffer of a partition stays below the byte and record limits,
      and an unpaused partition buffers at most 80 percent of the byte limit. */
  lemma {:induction false} BackpressureBound(l: Limits, schedule: seq<Action>)
    ensures Inv(l, Run(l, INIT, schedule)) && Bounded(l, Run(l, INIT, schedule))
  {
    hide Inv, Bounded, Apply;
    if schedule == [] {
      EveryRunKeepsInv(l, []);
      NothingBuffered(l);
    } else {
      BackpressureBound(l, schedule[..|schedule| - 1]);
      StepKeepsInv(l, Run(l, INIT, schedule[..|schedule| - 1]), Last(schedule));
      StepKeepsBounded(l, Run(l, INIT, schedule[..|schedule| - 1]), Last(schedule));
    }
  }

  lemma NothingBuffered(l: Limits)
    ensures Bounded(l, INIT)
  {
  }

  // ----- Partitions that never resume -----

  predicate WithoutRevoke(schedule: seq<Action>) {
    forall i :: 0 <= i < |schedule| ==> !schedule[i].Revoke?
  }

  /** No new message and no revocation. A paused partition delivers no messages. */
  predicate OnlyInternal(schedule: seq<Action>) {
    forall i :: 0 <= i < |schedule| ==> !schedule[i].Revoke? && !schedule[i].Receive?
  }

  lemma {:induction false} RunJoins(l: Limits, p: Part, a: seq<Action>, b: seq<Action>)
    ensures Run(l, p, a + b) == Run(l, Run(l, p, a), b)
  {
    hide Apply;
    if b == [] {
      assert a + b == a;
    } else {
      RunJoins(l, p, a, b[..|b| - 1]);
      assert (a + b)[..|a + b| - 1] == a + b[..|b| - 1];
    }
  }

  lemma {:induction false} InvStays(l: Limits, p: Part, schedule: seq<Action>)
    requires Inv(l, p)
    ensures Inv(l, Run(l, p, schedule))
  {
    hide Inv, Apply;
    if schedule != [] {
      InvStays(l, p, schedule[..|schedule| - 1]);
      StepKeepsInv(l, Run(l, p, schedule[..|schedule| - 1]), Last(schedule));
    }
  }

  /** A pause outlives everything but a revocation and a good flush result; with a byte limit of
      zero it outlives the latter too, because the occupancy of any buffer counts as full. */
  lemma PauseEnds(l: Limits, p: Part, a: Action)
    requires p.entry.paused && p.entry.buf.Some?
    ensures var q := Apply(l, p, a);
            && (!a.Revoke? ==> q.entry.buf.Some?)
            && (!q.entry.paused ==> a.Revoke? || (a.Ack? && l.maxBytes > 0))
            && (a.Revoke? ==> !q.entry.paused)
  {
    hide InOrder, AgeExceeded;
  }

  lemma BufferComes(l: Limits, p: Part, a: Action)
    requires p.entry.paused ==> p.entry.buf.Some?
    ensures Apply(l, p, a).entry.paused ==> Apply(l, p, a).entry.buf.Some?
  {
    hide InOrder, AgeExceeded;
  }

  lemma {:induction false} PausedHasBuffer(l: Limits, schedule: seq<Action>)
    ensures Run(l, INIT, schedule).entry.paused ==> Run(l, INIT, schedule).entry.buf.Some?
  {
    hide Apply;
    if schedule != [] {
      PausedHasBuffer(l, schedule[..|schedule| - 1]);
      BufferComes(l, Run(l, INIT, schedule[..|schedule| - 1]), Last(schedule));
    }
  }

  lemma {:induction false} ZeroStaysPaused(l: Limits, p: Part, schedule: seq<Action>)
    requires l.maxBytes == 0 && p.entry.paused && p.entry.buf.Some? && WithoutRevoke(schedule)
    ensures Run(l, p, schedule).entry.paused && Run(l, p, schedule).entry.buf.Some?
  {
    hide Apply;
    if schedule != [] {
      ZeroStaysPaused(l, p, schedule[..|schedule| - 1]);
      PauseEnds(l, Run(l, p, schedule[..|schedule| - 1]), Last(schedule));
    }
  }

  /** With a byte limit of zero a pause lasts until the partition is revoked: from any reachable
      paused state, every schedule without a revocation leaves it paused, whatever flushes
      succeed; and a revocation ends it. One message suffices to pause. */
  lemma {:induction false} ZeroByteLimitNeverResumes(
    l: Limits, before: seq<Action>, after: seq<Action>, e: Event, t0: nat, t1: nat)
    requires l.maxBytes == 0
    ensures var p := Run(l, INIT, before);
            p.entry.paused ==>
              && (WithoutRevoke(after) ==> Run(l, p, after).entry.paused)
              && !Apply(l, p, Revoke).entry.paused
    ensures Run(l, INIT, [Receive(e, t0, t1, true)]).entry.paused
  {
    var p := Run(l, INIT, before);
    PausedHasBuffer(l, before);
    assert [Receive(e, t0, t1, true)][..0] == [];
    assert Run(l, INIT, [Receive(e, t0, t1, true)]) == ReceiveStep(l, INIT, e, t0, t1, true);
    hide Run, Apply;
    if p.entry.paused {
      PauseEnds(l, p, Revoke);
      if WithoutRevoke(after) {
        ZeroStaysPaused(l, p, after);
      }
    }
  }

  /** Paused for good: neither the clock nor any flush result can resume it. */
  ghost predicate Dead(l: Limits, p: Part) {
    p.entry.paused && (l.maxBytes == 0 || (Buffered(p) == [] && !SomeAwaited(p.hist.batches)))
  }

  lemma NothingToDo(l: Limits, p: Part, a: Action)
    requires Inv(l, p) && p.entry.paused && Buffered(p) == [] && !SomeAwaited(p.hist.batches)
    requires !a.Receive? && !a.Revoke?
    ensures var q := Apply(l, p, a);
            q.entry.paused && Buffered(q) == [] && !SomeAwaited(q.hist.batches)
  {
    hide BufferOk, Ordered, CommitsOk, Wakeable, Slice;
    if a.Ack? && Enabled(p, a) {
      assert !Awaited(p.hist.batches[a.k]);
      AckedStaysQuiet(p.hist.batches, a.k);
    }
    NoneInFlight(p);
  }

  lemma NoneInFlight(p: Part)
    requires CoreOf(p) && !SomeAwaited(p.hist.batches)
    ensures forall k :: 0 <= k < |p.hist.batches| ==> p.hist.batches[k].status != InFlight
  {
    hide BufferOk, Ordered, CommitsOk, Slice;
    forall k | 0 <= k < |p.hist.batches| ensures p.hist.batches[k].status != InFlight {
      assert BatchOk(p.hist.received, p.hist.batches[k]) && !Awaited(p.hist.batches[k]);
    }
  }

  lemma AckedStaysQuiet(batches: seq<Batch>, k: nat)
    requires k < |batches| && !SomeAwaited(batches)
    ensures !SomeAwaited(batches[k := batches[k].(acked := true)])
  {
    var marked := batches[k := batches[k].(acked := true)];
    forall i | 0 <= i < |marked| ensures !Awaited(marked[i]) {
      assert !Awaited(batches[i]);
    }
  }

  lemma {:induction false} DeadStaysPaused(l: Limits, p: Part, schedule: seq<Action>)
    requires Inv(l, p) && Dead(l, p) && (p.entry.paused ==> p.entry.buf.Some?) && OnlyInternal(schedule)
    ensures Run(l, p, schedule).entry.paused && Dead(l, Run(l, p, schedule))
  {
    hide Apply, Inv, SomeAwaited;
    if l.maxBytes == 0 {
      ZeroStaysPaused(l, p, schedule);
    } else if schedule != [] {
      DeadStaysPaused(l, p, schedule[..|schedule| - 1]);
      InvStays(l, p, schedule[..|schedule| - 1]);
      NothingToDo(l, Run(l, p, schedule[..|schedule| - 1]), Last(schedule));
    }
  }

  /** A good result of batch k resumes a partition whose buffer is empty. */
  lemma GoodResultResumes(l: Limits, p: Part, k: nat) returns (schedule: seq<Action>)
    requires Inv(l, p) && l.maxBytes > 0 && Buffered(p) == [] && k < |p.hist.batches| && Awaited(p.hist.batches[k])
    ensures OnlyInternal(schedule) && !Run(l, p, schedule).entry.paused
  {
    hide BatchesOk, Ordered, CommitsOk, Wakeable, Slice;
    assert p.entry.buf.Some? ==> p.entry.buf.value.bytes == 0;
    if p.hist.batches[k].status == InFlight {
      schedule := [Done(k, true), Ack(k)];
      assert schedule[..1] == [Done(k, true)] && [Done(k, true)][..0] == [];
      assert Run(l, p, [Done(k, true)]) == DoneStep(p, k, true);
    } else {
      schedule := [Ack(k)];
      assert schedule[..0] == [];
    }
  }

  /** What is buffered is handed over once it is old enough. */
  lemma AgeHandsOver(l: Limits, p: Part) returns (tick: Action)
    requires Inv(l, p) && Buffered(p) != []
    ensures tick.Tick?
    ensures var q := Apply(l, p, tick);
            Buffered(q) == [] && q.hist.batches != [] && Awaited(Last(q.hist.batches))
  {
    hide BatchesOk, Ordered, CommitsOk, Wakeable, Slice;
    tick := Tick(p.entry.buf.value.started.value + l.maxAgeMs, false);
  }

  /** Exactly when a paused partition is stuck, in any reachable state: no schedule of clock ticks,
      flush completions and results resumes it if and only if the byte limit is zero, or nothing is
      buffered and no flush result that may be good is still to come. */
  lemma {:induction false} StuckIff(l: Limits, before: seq<Action>)
    requires Run(l, INIT, before).entry.paused
    ensures var p := Run(l, INIT, before);
            (forall after :: OnlyInternal(after) ==> Run(l, p, after).entry.paused) <==> Dead(l, p)
  {
    EveryRunKeepsInv(l, before);
    PausedHasBuffer(l, before);
    var p := Run(l, INIT, before);
    hide Run, Apply, Inv, Awaited, OnlyInternal;
    if Dead(l, p) {
      forall after | OnlyInternal(after) ensures Run(l, p, after).entry.paused {
        DeadStaysPaused(l, p, after);
      }
    } else if Buffered(p) != [] {
      var tick := AgeHandsOver(l, p);
      var q := Apply(l, p, tick);
      StepKeepsInv(l, p, tick);
      var rest := GoodResultResumes(l, q, |q.hist.batches| - 1);
      TickFirst(l, p, tick, rest);
    } else {
      var k :| 0 <= k < |p.hist.batches| && Awaited(p.hist.batches[k]);
      var after := GoodResultResumes(l, p, k);
    }
  }

  lemma {:induction false} TickFirst(l: Limits, p: Part, tick: Action, rest: seq<Action>)
    requires tick.Tick? && OnlyInternal(rest)
    ensures OnlyInternal([tick] + rest) && Run(l, p, [tick] + rest) == Run(l, Apply(l, p, tick), rest)
  {
    RunJoins(l, p, [tick], rest);
    hide Apply;
    assert [tick][..0] == [];
  }

  /** One message and one failed flush get there, under any limits: the message is handed over when
      no permit is free, which pauses the partition, and then its flush fails. */
  lemma {:induction false} OneFailureSticks(l: Limits, e: Event)
    ensures Dead(l, Run(l, INIT, [Receive(e, 0, 0, true), Tick(l.maxAgeMs, true), Done(0, false), Ack(0)]))
  {
    var s1 := [Receive(e, 0, 0, true)];
    var s2 := s1 + [Tick(l.maxAgeMs, true)];
    var s3 := s2 + [Done(0, false)];
    var s4 := s3 + [Ack(0)];
    assert s4 == [Receive(e, 0, 0, true), Tick(l.maxAgeMs, true), Done(0, false), Ack(0)];
    assert s1[..0] == [] && s2[..1] == s1 && s3[..2] == s2 && s4[..3] == s3;
    assert Run(l, INIT, s1) == ReceiveStep(l, INIT, e, 0, 0, true);
    var p := Run(l, INIT, s2);
    assert p == TickStep(l, Run(l, INIT, s1), l.maxAgeMs, true);
    assert p.entry.paused && |p.hist.batches| == 1 && p.hist.batches[0].status == InFlight && Buffered(p) == [];
    assert Run(l, INIT, s3) == DoneStep(p, 0, false);
    assert Run(l, INIT, s4) == AckStep(l, Run(l, INIT, s3), 0);
  }
}
