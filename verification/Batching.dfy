/** The in-memory batch buffer of one Kafka partition. */
module Batching {
  import opened Base

  datatype Limits = Limits(maxBytes: nat, maxRecords: nat, maxAgeMs: nat)

  datatype Buf = Buf(events: seq<Event>, bytes: nat, started: Option<nat>)

  const EMPTY_BUF := Buf([], 0, None)

  function Bytes(events: seq<Event>): nat {
    if events == [] then 0 else Bytes(events[..|events| - 1]) + Last(events).size
  }

  /** The byte count is exact, and the age runs exactly while something is buffered. */
  predicate ValidBuf(b: Buf) {
    b.bytes == Bytes(b.events) && (b.started.Some? <==> b.events != [])
  }

  /** Age in milliseconds with the clock's saturating subtraction. */
  predicate AgeExceeded(l: Limits, b: Buf, now: nat) {
    b.started.Some? && Max(now - b.started.value, 0) >= l.maxAgeMs
  }

  predicate OverAnyLimit(l: Limits, b: Buf, now: nat) {
    b.bytes >= l.maxBytes || |b.events| >= l.maxRecords || AgeExceeded(l, b, now)
  }

  /** The buffer with e appended; t0 is the clock when the batch starts. */
  function Append(b: Buf, e: Event, t0: nat): Buf {
    Buf(b.events + [e], b.bytes + e.size, if b.started.None? then Some(t0) else b.started)
  }

  /** Push: the buffer afterwards, and the batch if the event made it full. */
  function Push(l: Limits, b: Buf, e: Event, t0: nat, t1: nat): (Buf, Option<seq<Event>>) {
    var c := Append(b, e, t0);
    if OverAnyLimit(l, c, t1) then (EMPTY_BUF, Some(c.events)) else (c, None)
  }

  function Poll(l: Limits, b: Buf, now: nat): (Buf, Option<seq<Event>>) {
    if b.events != [] && AgeExceeded(l, b, now) then (EMPTY_BUF, Some(b.events)) else (b, None)
  }

  // Occupancy is bytes over maxBytes clamped to one. With maxBytes = 0 the quotient is NaN or
  // infinite, and the clamp turns both into one.

  predicate AboveHighWater(l: Limits, b: Buf) {
    l.maxBytes == 0 || 5 * b.bytes > 4 * l.maxBytes
  }

  predicate BelowLowWater(l: Limits, b: Buf) {
    l.maxBytes > 0 && 5 * b.bytes < 2 * l.maxBytes
  }

  lemma AppendValid(b: Buf, e: Event, t0: nat)
    requires ValidBuf(b)
    ensures ValidBuf(Append(b, e, t0))
  {
    assert (b.events + [e])[..|b.events|] == b.events;
  }

  /** Nothing is dropped or reordered: a push either keeps all events or hands them all over, the
      latter exactly when a limit is reached, and what stays buffered is below every size limit. */
  lemma PushConserves(l: Limits, b: Buf, e: Event, t0: nat, t1: nat)
    requires ValidBuf(b)
    ensures var (c, batch) := Push(l, b, e, t0, t1);
            && ValidBuf(c)
            && (if batch.Some? then batch.value else []) + c.events == b.events + [e]
            && (batch.Some? ==> c.events == [])
            && (batch.Some? <==>
                  || Bytes(b.events + [e]) >= l.maxBytes || |b.events| + 1 >= l.maxRecords
                  || Max(t1 - (if b.events == [] then t0 else b.started.value), 0) >= l.maxAgeMs)
            && (c.events != [] ==> c.bytes < l.maxBytes && |c.events| < l.maxRecords && Last(c.events) == e)
            && (c.events != [] ==> c.started == if b.events == [] then Some(t0) else b.started)
  {
    AppendValid(b, e, t0);
  }

  /** A poll hands over everything that is buffered, in order, if and only if there is something and
      the batch started at least maxAgeMs ago; otherwise the buffer is as it was. */
  lemma PollConserves(l: Limits, b: Buf, now: nat)
    requires ValidBuf(b)
    ensures var (c, batch) := Poll(l, b, now);
            && (batch.Some? <==> b.events != [] && Max(now - b.started.value, 0) >= l.maxAgeMs)
            && (if batch.Some? then batch.value == b.events && c == EMPTY_BUF else c == b)
  {
  }

  class BatchBuffer {
    const limits: Limits
    var events: seq<Event>
    var currentBytes: nat
    var batchStartedMs: Option<nat>

    function Contents(): Buf
      reads this
    {
      Buf(events, currentBytes, batchStartedMs)
    }

    constructor (limits: Limits)
      ensures this.limits == limits && Contents() == EMPTY_BUF
    {
      this.limits := limits;
      events, currentBytes, batchStartedMs := [], 0, None;
    }

    method PushEvent(e: Event, t0: nat, t1: nat) returns (batch: Option<seq<Event>>)
      modifies this
      ensures (Contents(), batch) == Push(limits, old(Contents()), e, t0, t1)
    {
      if batchStartedMs.None? {
        batchStartedMs := Some(t0);
      }
      currentBytes := currentBytes + e.size;
      events := events + [e];
      if OverAnyLimit(limits, Contents(), t1) {
        var drained := Drain();
        batch := Some(drained);
      } else {
        batch := None;
      }
    }

    method PollAge(now: nat) returns (batch: Option<seq<Event>>)
      modifies this
      ensures (Contents(), batch) == Poll(limits, old(Contents()), now)
      ensures batch.Some? <==> old(events) != [] && old(batchStartedMs).Some?
                               && Max(now - old(batchStartedMs).value, 0) >= limits.maxAgeMs
      ensures if batch.Some? then batch.value == old(events) && events == [] else Contents() == old(Contents())
    {
      if events != [] && AgeExceeded(limits, Contents(), now) {
        var drained := Drain();
        batch := Some(drained);
      } else {
        batch := None;
      }
    }

    method Drain() returns (drained: seq<Event>)
      modifies this
      ensures drained == old(events) && Contents() == EMPTY_BUF
    {
      currentBytes, batchStartedMs := 0, None;
      drained, events := events, [];
    }
  }
}
