/** The consumer loop's shared state: four maps indexed by partition, and the handlers of the loop
    and of the rebalance callback. Every handler does to a partition what the matching action of
    the consumer protocol does, and nothing to the others. */
module PartitionStore {
  import opened Base
  import opened Batching
  import Consumer

  type History = Consumer.History

  function Lookup<T>(m: map<int, T>, p: int): Option<T> {
    if p in m then Some(m[p]) else None
  }

  /** A drained batch on its way to a flush task, with the offset to commit after it. */
  datatype Flush = Flush(partition: int, events: seq<Event>, upTo: int)

  ghost predicate IsLastBatch(h: History, p: int, flush: Flush) {
    h.batches != [] && flush == Flush(p, Last(h.batches).events, Last(h.batches).upTo)
  }

  /** The receive step, as far as the handler shows it. */
  lemma ReceiveIs(l: Limits, p: Consumer.Part, e: Event, t0: nat, t1: nat, saturated: bool)
    requires Consumer.InOrder(p.hist, e)
    ensures var q := Consumer.Apply(l, p, Consumer.Receive(e, t0, t1, saturated));
            var (c, batch) := Push(l, GetOr(p.entry.buf, EMPTY_BUF), e, t0, t1);
            var pauses := if batch.Some? then saturated else AboveHighWater(l, c);
            && q.entry == Consumer.Entry(Some(c), Some(e.key.offset + 1), p.entry.committed, p.entry.paused || pauses)
            && (batch.Some? <==> q.hist.batches != p.hist.batches)
            && (batch.Some? ==> q.hist.batches != [] && Last(q.hist.batches).events == batch.value
                                && Last(q.hist.batches).upTo == e.key.offset + 1)
  {
    hide Consumer.InOrder;
  }

  class Store {
    const limits: Limits
    var buffers: map<int, BatchBuffer>
    var pending: map<int, int>
    var committed: map<int, int>
    var paused: set<int>
    ghost var history: map<int, History>

    ghost predicate Valid()
      reads this, buffers.Values
    {
      && (forall p :: p in buffers ==> buffers[p].limits == limits)
      && (forall p, q :: p in buffers && q in buffers && p != q ==> buffers[p] != buffers[q])
    }

    /** What the maps hold for partition p. */
    ghost function EntryOf(p: int): Consumer.Entry
      reads this, buffers.Values
    {
      Consumer.Entry(if p in buffers then Some(buffers[p].Contents()) else None,
                     Lookup(pending, p), Lookup(committed, p), p in paused)
    }

    ghost function PartOf(p: int): Consumer.Part
      reads this, buffers.Values
    {
      Consumer.Part(EntryOf(p), GetOr(Lookup(history, p), Consumer.NO_HISTORY))
    }

    constructor (limits: Limits)
      ensures Valid() && this.limits == limits && buffers == map[]
      ensures forall p :: PartOf(p) == Consumer.INIT
    {
      this.limits := limits;
      buffers, pending, committed, paused, history := map[], map[], map[], {}, map[];
    }

    ghost method Record(p: int, part: Consumer.Part)
      modifies this`history
      ensures history == old(history)[p := part.hist]
    {
      history := history[p := part.hist];
    }

    /** The partition's buffer, created on its first message. */
    method BufferFor(p: int) returns (b: BatchBuffer)
      requires Valid()
      modifies this`buffers
      ensures Valid() && p in buffers && buffers[p] == b
      ensures p in old(buffers) ==> buffers == old(buffers)
      ensures p !in old(buffers) ==> fresh(b) && b.Contents() == EMPTY_BUF && buffers == old(buffers)[p := b]
    {
      if p in buffers {
        return buffers[p];
      }
      b := new BatchBuffer(limits);
      buffers := buffers[p := b];
    }

    /** Adds an event to the partition's buffer. */
    method AddEvent(p: int, e: Event, t0: nat, t1: nat) returns (batch: Option<seq<Event>>)
      requires Valid()
      modifies this`buffers, this`pending, buffers.Values
      ensures Valid() && fresh(buffers.Values - old(buffers.Values)) && p in buffers
      ensures (buffers[p].Contents(), batch) ==
              Push(limits, GetOr(old(EntryOf(p)).buf, EMPTY_BUF), e, t0, t1)
      ensures EntryOf(p) == old(EntryOf(p)).(buf := Some(buffers[p].Contents()), pending := Some(e.key.offset + 1))
      ensures forall q :: q != p ==> EntryOf(q) == old(EntryOf(q))
    {
      hide Push;
      pending := pending[p := e.key.offset + 1];
      var buf := BufferFor(p);
      batch := buf.PushEvent(e, t0, t1);
    }

    /** A decoded message. Returns whether to pause the partition and the batch to flush. */
    method OnMessage(p: int, e: Event, t0: nat, t1: nat, saturated: bool)
      returns (pause: bool, flush: Option<Flush>)
      requires Valid() && Consumer.InOrder(PartOf(p).hist, e)
      modifies this, buffers.Values
      ensures Valid() && fresh(buffers.Values - old(buffers.Values))
      ensures PartOf(p) == Consumer.Apply(limits, old(PartOf(p)), Consumer.Receive(e, t0, t1, saturated))
      ensures forall q :: q != p ==> PartOf(q) == old(PartOf(q))
      ensures pause <==> p in paused && p !in old(paused)
      ensures flush.Some? <==> PartOf(p).hist.batches != old(PartOf(p).hist.batches)
      ensures flush.Some? ==> IsLastBatch(PartOf(p).hist, p, flush.value)
    {
      hide Consumer.InOrder, Consumer.Apply, Push, OverAnyLimit, AboveHighWater;
      ReceiveIs(limits, PartOf(p), e, t0, t1, saturated);
      ghost var after := Consumer.Apply(limits, PartOf(p), Consumer.Receive(e, t0, t1, saturated));
      var batch := AddEvent(p, e, t0, t1);
      pause := p !in paused && (if batch.Some? then saturated else AboveHighWater(limits, buffers[p].Contents()));
      if pause {
        paused := paused + {p};
      }
      flush := if batch.Some? then Some(Flush(p, batch.value, pending[p])) else None;
      Record(p, after);
    }

    /** The result of flushing batch k of partition p. Returns the offset to submit for commit
        and whether to resume the partition. */
    method OnFlushResult(p: int, upTo: int, success: bool, ghost k: nat)
      returns (commit: Option<int>, resume: bool)
      requires Valid() && Consumer.Enabled(PartOf(p), Consumer.Ack(k))
      requires upTo == PartOf(p).hist.batches[k].upTo
      requires success <==> PartOf(p).hist.batches[k].status == Consumer.Durable
      modifies this
      ensures Valid() && buffers == old(buffers)
      ensures PartOf(p) == Consumer.Apply(limits, old(PartOf(p)), Consumer.Ack(k))
      ensures forall q :: q != p ==> PartOf(q) == old(PartOf(q))
      ensures commit == (if |PartOf(p).hist.commits| > |old(PartOf(p).hist.commits)| then Some(upTo) else None)
      ensures resume <==> p in old(paused) && p !in paused
    {
      ghost var after := Consumer.Apply(limits, PartOf(p), Consumer.Ack(k));
      commit, resume := None, false;
      if success {
        var last := GetOr(Lookup(committed, p), 0);
        var low := if p in buffers then BelowLowWater(limits, buffers[p].Contents()) else true;
        resume := p in paused && low;
        if upTo > last {
          commit := Some(upTo);
          committed := committed[p := upTo];
        }
        if resume {
          paused := paused - {p};
        }
      }
      Record(p, after);
    }

    /** The age trigger of one partition. */
    method PollPartition(p: int, now: nat, saturated: bool) returns (pause: bool, flush: Option<Flush>)
      requires Valid()
      modifies this, buffers.Values
      ensures Valid() && buffers == old(buffers)
      ensures PartOf(p) == Consumer.Apply(limits, old(PartOf(p)), Consumer.Tick(now, saturated))
      ensures forall q :: q != p ==> PartOf(q) == old(PartOf(q))
      ensures pause <==> p in paused && p !in old(paused)
      ensures flush.Some? <==> PartOf(p).hist.batches != old(PartOf(p).hist.batches)
      ensures flush.Some? ==> IsLastBatch(PartOf(p).hist, p, flush.value)
      ensures flush.Some? <==>
                && p in buffers && old(buffers[p].events) != [] && old(buffers[p].batchStartedMs).Some?
                && Max(now - old(buffers[p].batchStartedMs).value, 0) >= limits.maxAgeMs
      ensures flush.Some? ==> flush == old(Unflushed(p)) && buffers[p].events == []
      ensures pause <==> flush.Some? && saturated && p !in old(paused)
    {
      ghost var after := Consumer.Apply(limits, PartOf(p), Consumer.Tick(now, saturated));
      pause, flush := false, None;
      if p in buffers {
        var batch := buffers[p].PollAge(now);
        if batch.Some? {
          flush := Some(Flush(p, batch.value, GetOr(Lookup(pending, p), 0)));
          pause := saturated && p !in paused;
          if pause {
            paused := paused + {p};
          }
        }
      }
      Record(p, after);
    }

    /** What is buffered for partition p, as a batch to flush. */
    ghost function Unflushed(p: int): Option<Flush>
      reads this, buffers.Values
    {
      if Consumer.Buffered(PartOf(p)) == [] then None
      else Some(Flush(p, Consumer.Buffered(PartOf(p)), GetOr(PartOf(p).entry.pending, 0)))
    }

    ghost function AllUnflushed(partitions: seq<int>): seq<Flush>
      reads this, buffers.Values
    {
      if partitions == [] then []
      else AllUnflushed(partitions[..|partitions| - 1])
           + (match Unflushed(Last(partitions)) case None => [] case Some(f) => [f])
    }

    /** One batch for each listed partition with something buffered, in the order of the list. */
    lemma AllUnflushedAre(partitions: seq<int>, n: nat)
      requires n <= |partitions|
      ensures forall f :: f in AllUnflushed(partitions) <==> exists p :: p in partitions && Unflushed(p) == Some(f)
      ensures AllUnflushed(partitions[..n]) <= AllUnflushed(partitions)
    {
      if partitions != [] {
        var init, p := partitions[..|partitions| - 1], Last(partitions);
        assert partitions == init + [p];
        AllUnflushedAre(init, Min(n, |init|));
        if n < |partitions| {
          assert partitions[..n] == init[..n];
        } else {
          assert partitions[..n] == partitions;
        }
      }
    }

    /** The rebalance callback for one revoked partition: its state goes, its events are flushed. */
    method RevokePartition(p: int) returns (flush: Option<Flush>)
      requires Valid()
      modifies this, buffers.Values
      ensures Valid() && buffers == old(buffers) - {p}
      ensures PartOf(p) == Consumer.Apply(limits, old(PartOf(p)), Consumer.Revoke)
      ensures forall q :: q != p ==> PartOf(q) == old(PartOf(q))
      ensures flush == old(Unflushed(p))
      ensures pending == old(pending) - {p} && committed == old(committed) - {p} && paused == old(paused) - {p}
    {
      ghost var after := Consumer.Apply(limits, PartOf(p), Consumer.Revoke);
      var batch := [];
      if p in buffers {
        batch := buffers[p].Drain();
      }
      var upTo := GetOr(Lookup(pending, p), 0);
      buffers, pending, committed, paused := buffers - {p}, pending - {p}, committed - {p}, paused - {p};
      flush := if batch != [] then Some(Flush(p, batch, upTo)) else None;
      Record(p, after);
    }

    /** The rebalance callback: every revoked partition, in the order of the list. */
    method Revoke(partitions: seq<int>) returns (flushes: seq<Flush>)
      requires Valid() && forall i, j :: 0 <= i < j < |partitions| ==> partitions[i] != partitions[j]
      modifies this, buffers.Values
      ensures Valid()
      ensures forall p :: p in partitions ==> PartOf(p) == Consumer.Apply(limits, old(PartOf(p)), Consumer.Revoke)
      ensures forall p :: p !in partitions ==> PartOf(p) == old(PartOf(p))
      ensures flushes == old(AllUnflushed(partitions))
    {
      flushes := [];
      for i := 0 to |partitions|
        invariant Valid() && buffers.Values <= old(buffers.Values)
        invariant forall p :: p in partitions[..i] ==>
            PartOf(p) == Consumer.Apply(limits, old(PartOf(p)), Consumer.Revoke)
        invariant forall p :: p !in partitions[..i] ==> PartOf(p) == old(PartOf(p))
        invariant flushes == old(AllUnflushed(partitions[..i]))
      {
        var flush := RevokePartition(partitions[i]);
        assert partitions[..i + 1] == partitions[..i] + [partitions[i]];
        assert partitions[..i + 1][..i] == partitions[..i];
        if flush.Some? {
          flushes := flushes + [flush.value];
        }
      }
      assert partitions[..|partitions|] == partitions;
    }

    /** Shutdown: hand over what is still buffered for one partition. */
    method DrainPartition(p: int) returns (flush: Option<Flush>)
      requires Valid()
      modifies this, buffers.Values
      ensures Valid() && buffers == old(buffers)
      ensures PartOf(p) == Consumer.Apply(limits, old(PartOf(p)), Consumer.ShutdownDrain)
      ensures forall q :: q != p ==> PartOf(q) == old(PartOf(q))
      ensures flush.Some? <==> PartOf(p).hist.batches != old(PartOf(p).hist.batches)
      ensures flush.Some? ==> IsLastBatch(PartOf(p).hist, p, flush.value)
      ensures flush == old(Unflushed(p)) && (p in buffers ==> buffers[p].events == [])
    {
      ghost var after := Consumer.Apply(limits, PartOf(p), Consumer.ShutdownDrain);
      flush := None;
      if p in buffers && buffers[p].events != [] {
        var batch := buffers[p].Drain();
        flush := Some(Flush(p, batch, GetOr(Lookup(pending, p), 0)));
      }
      Record(p, after);
    }

    /** Shutdown: after the inline flush of batch k succeeded. */
    method CommitDrained(p: int, upTo: int, ghost k: nat) returns (commit: Option<int>)
      requires Valid() && Consumer.Enabled(PartOf(p), Consumer.ShutdownCommit(k))
      requires upTo == PartOf(p).hist.batches[k].upTo
      modifies this
      ensures Valid() && buffers == old(buffers)
      ensures PartOf(p) == Consumer.Apply(limits, old(PartOf(p)), Consumer.ShutdownCommit(k))
      ensures forall q :: q != p ==> PartOf(q) == old(PartOf(q))
      ensures commit == (if |PartOf(p).hist.commits| > |old(PartOf(p).hist.commits)| then Some(upTo) else None)
    {
      ghost var after := Consumer.Apply(limits, PartOf(p), Consumer.ShutdownCommit(k));
      commit := None;
      if upTo > GetOr(Lookup(committed, p), 0) {
        commit := Some(upTo);
        committed := committed[p := upTo];
      }
      Record(p, after);
    }
  }
}
