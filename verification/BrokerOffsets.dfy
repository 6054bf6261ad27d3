/** When the offset that the broker remembers goes backward. */
module BrokerOffsets {
  import opened Base
  import opened Batching
  import opened Catalog
  import opened Compaction
  import opened Delivery
  import opened DeliveryTheorems
  import C = Consumer
  import CT = ConsumerTheorems
  import L = Lifecycle
  import S = LifecycleSafety
  import T = LifecycleTheorems

  /** While a partition is assigned, the broker is at most where the assignment began or where the
      consumer has committed since it last forgot. */
  predicate AheadOk(f: Feed) {
    f.pos.Some? && f.part.hist.epoch in f.starts ==>
      f.broker <= Max(GetOr(f.part.entry.committed, 0), f.starts[f.part.hist.epoch])
  }

  lemma CommittedStays(l: Limits, p: C.Part, a: C.Action)
    requires !a.Ack? && !a.ShutdownCommit? && !a.Revoke?
    ensures var q := C.Apply(l, p, a);
            && q.entry.committed == p.entry.committed && q.hist.epoch == p.hist.epoch
            && q.hist.commits == p.hist.commits
  {
    hide C.InOrder, AgeExceeded;
  }

  /** A result submits its batch's offset, and only if that is larger than the last one. */
  lemma CommitEffect(l: Limits, p: C.Part, a: C.Action, k: nat)
    requires (a == C.Ack(k) || a == C.ShutdownCommit(k)) && k < |p.hist.batches|
    ensures var q := C.Apply(l, p, a);
            && q.hist.epoch == p.hist.epoch
            && if |q.hist.commits| > |p.hist.commits|
               then q.entry.committed == Some(p.hist.batches[k].upTo)
                 && p.hist.batches[k].upTo > GetOr(p.entry.committed, 0)
               else q.entry.committed == p.entry.committed
  {
  }

  lemma FeedStepAhead(log: Log, l: Limits, p: int, f: Feed, a: FeedAction)
    requires AheadOk(f) && FeedEnabled(log, p, f, a)
    ensures AheadOk(FeedStep(log, l, p, f, a))
  {
    hide C.Apply;
    forall c: C.Action | !c.Ack? && !c.ShutdownCommit? && !c.Revoke? {
      CommittedStays(l, f.part, c);
    }
    if a.Ack? {
      CommitEffect(l, f.part, C.Ack(a.k), a.k);
    } else if a.ShutdownCommit? {
      CommitEffect(l, f.part, C.ShutdownCommit(a.k), a.k);
    }
  }

  ghost predicate AllAhead(w: World) {
    forall p :: p in w.feeds ==> AheadOk(w.feeds[p])
  }

  lemma StepAhead(log: Log, l: Limits, w: World, a: Action)
    requires AllAhead(w)
    ensures AllAhead(Apply(log, l, w, a))
  {
    hide C.Apply, L.Apply, FeedStep, FeedEnabled;
    if Enabled(log, w, a) {
      match a
      case On(p, step) => FeedStepAhead(log, l, p, w.feeds[p], step);
      case FlushFinish(t) => FinishAhead(l, w, t, true);
      case FlushAbort(t) => FinishAhead(l, w, t, false);
      case _ =>
    }
  }

  lemma FinishAhead(l: Limits, w: World, t: nat, ok: bool)
    requires t in w.flushing && AllAhead(w)
    ensures forall sys, good :: AllAhead(Finish(l, w, t, sys, good))
  {
    hide C.Apply;
    var (p, k) := w.flushing[t];
    if p in w.feeds {
      CommittedStays(l, w.feeds[p].part, C.Done(k, true));
      CommittedStays(l, w.feeds[p].part, C.Done(k, false));
    }
  }

  lemma {:induction false} EveryRunAhead(log: Log, l: Limits, schedule: seq<Action>)
    ensures AllAhead(Run(log, l, Init(log), schedule))
  {
    hide Apply;
    if schedule != [] {
      EveryRunAhead(log, l, schedule[..|schedule| - 1]);
      StepAhead(log, l, Run(log, l, Init(log), schedule[..|schedule| - 1]), Last(schedule));
    }
  }

  /** A batch of the current assignment ends beyond where the assignment began. */
  lemma CurrentBatchIsAhead(log: Log, l: Limits, st: L.Store, p: int, f: Feed, k: nat)
    requires FeedSound(log, l, st, p, f) && k < |f.part.hist.batches|
    requires f.part.hist.batches[k].epoch == f.part.hist.epoch
    ensures f.pos.Some? && f.part.hist.epoch in f.starts
    ensures f.part.hist.batches[k].upTo > f.starts[f.part.hist.epoch]
  {
    hide IsMessage, Got, DurableFlushed, C.BufferOk, C.CommitsOk, C.Ordered, C.Wakeable;
    CT.LastPosition(f.part.hist, k);
    var last := C.End(f.part.hist.batches[k]) - 1;
    assert f.part.hist.received[last].epoch == f.part.hist.epoch;
  }

  lemma EpochsAreOld(log: Log, l: Limits, st: L.Store, p: int, f: Feed, k: nat)
    requires FeedSound(log, l, st, p, f) && k < |f.part.hist.batches|
    ensures f.part.hist.batches[k].epoch <= f.part.hist.epoch && f.part.hist.batches[k].upTo > 0
  {
    hide Got, Message, PositionOk, DurableFlushed, C.BufferOk, C.CommitsOk, C.Wakeable;
    CT.LastPosition(f.part.hist, k);
  }

  /** The result of a flush that an earlier assignment handed over, with an offset below the
      broker's but above what the consumer has committed since the revocation. */
  predicate LateCommit(l: Limits, f: Feed, a: FeedAction) {
    && (a.Ack? || a.ShutdownCommit?) && a.brokerOk && a.k < |f.part.hist.batches|
    && f.part.hist.batches[a.k].status == C.Durable && (a.Ack? ==> !f.part.hist.batches[a.k].acked)
    && f.part.hist.batches[a.k].epoch < f.part.hist.epoch
    && GetOr(f.part.entry.committed, 0) < f.part.hist.batches[a.k].upTo < f.broker
  }

  lemma SubmitsIff(l: Limits, f: Feed, a: C.Action, k: nat)
    requires (a == C.Ack(k) || a == C.ShutdownCommit(k)) && k < |f.part.hist.batches|
    ensures Submits(l, f, a) <==>
              && f.part.hist.batches[k].status == C.Durable && (a.Ack? ==> !f.part.hist.batches[k].acked)
              && GetOr(f.part.entry.committed, 0) < f.part.hist.batches[k].upTo
  {
  }

  lemma FeedGoesBackIff(log: Log, l: Limits, st: L.Store, p: int, f: Feed, a: FeedAction)
    requires FeedSound(log, l, st, p, f) && AheadOk(f) && FeedEnabled(log, p, f, a)
    ensures FeedStep(log, l, p, f, a).broker < f.broker <==> LateCommit(l, f, a)
  {
    hide FeedSound, C.Apply, Submits;
    if a.Ack? || a.ShutdownCommit? {
      SubmitsIff(l, f, if a.Ack? then C.Ack(a.k) else C.ShutdownCommit(a.k), a.k);
      EpochsAreOld(log, l, st, p, f, a.k);
      if f.part.hist.batches[a.k].epoch == f.part.hist.epoch {
        CurrentBatchIsAhead(log, l, st, p, f, a.k);
      }
    }
  }

  /** In any reachable world, a step moves the offset that the broker remembers for a partition
      backward if and only if it handles the late result of an earlier assignment. The commit test
      guards only against the results of the current one, because a revocation forgets the last
      committed offset. */
  lemma {:induction false} GoesBackIff(log: Log, l: Limits, schedule: seq<Action>, a: Action, p: int)
    requires p in Run(log, l, Init(log), schedule).feeds
    ensures var w := Run(log, l, Init(log), schedule);
            var v := Apply(log, l, w, a);
            && p in v.feeds
            && (v.feeds[p].broker < w.feeds[p].broker <==>
                  a.On? && a.p == p && Enabled(log, w, a) && LateCommit(l, w.feeds[p], a.step))
  {
    EveryRunSound(log, l, schedule);
    EveryRunAhead(log, l, schedule);
    var w := Run(log, l, Init(log), schedule);
    hide Run, FeedSound, S.Good, L.Apply, C.Apply, FeedStep, FeedEnabled, LateCommit, AheadOk, FlushingOk;
    if a.On? && Enabled(log, w, a) && a.p == p {
      FeedGoesBackIff(log, l, w.sys.store, p, w.feeds[p], a.step);
    }
  }

  // ----- A run -----

  /** A flush task writes batch k, which holds one event, and registers it. */
  lemma FlushBatch(log: Log, l: Limits, w: World, p: int, k: nat, uuid: nat) returns (v: World)
    requires Sound(log, l, w) && HasBatch(w, p, k) && w.sys.tasks == map[] && w.flushing == map[]
    requires |w.feeds[p].part.hist.batches[k].events| == 1 && w.feeds[p].part.hist.batches[k].status == C.InFlight
    requires uuid !in w.sys.store.uuids
    ensures var e := w.feeds[p].part.hist.batches[k].events[0];
            v == Apply(log, l, Apply(log, l, w, FlushWrite(p, k, 0, MetaAt(e, uuid))), FlushFinish(0))
    ensures v.sys.tasks == map[] && v.flushing == map[] && v.sys.store.uuids == w.sys.store.uuids + {uuid}
    ensures p in v.feeds && Sound(log, l, v)
    ensures var f := w.feeds[p];
            v.feeds[p] == f.(part := f.part.(hist := f.part.hist.(
              batches := f.part.hist.batches[k := f.part.hist.batches[k].(status := C.Durable)])))
  {
    hide S.Good, FeedSound, T.NoLoss, Faithful, MetaSound;
    var f := w.feeds[p];
    var e := f.part.hist.batches[k].events[0];
    assert f.part.hist.batches[k].events == [e];
    OneRowIsSound(Local(e.service, "", uuid), e);
    var write := FlushWrite(p, k, 0, MetaAt(e, uuid));
    assert L.FreshFile(w.sys.store, MetaAt(e, uuid), [e]);
    var u := Apply(log, l, w, write);
    StepSound(log, l, w, write);
    InsertRegisters(u.sys, 0);
    InsertKeepsUuids(u.sys, 0);
    v := Apply(log, l, u, FlushFinish(0));
    StepSound(log, l, u, FlushFinish(0));
  }

  lemma InsertKeepsUuids(s: L.Sys, t: nat)
    requires L.Enabled(s, L.FlushInsert(t))
    ensures L.Apply(s, L.FlushInsert(t)).store.uuids == s.store.uuids
  {
  }

  /** Two batches are flushed, the later one is committed, the partition is revoked; then the
      result of the earlier one is handled, and the broker goes from 2 back to 1. */
  lemma {:induction false} LateResultGoesBack(log: Log, l: Limits, p: int) returns (schedule: seq<Action>, late: Action)
    requires Decodable(log, p, 0) && Decodable(log, p, 1)
    ensures var w := Run(log, l, Init(log), schedule);
            && p in w.feeds && w.feeds[p].broker == 2
            && p in Apply(log, l, w, late).feeds && Apply(log, l, w, late).feeds[p].broker == 1
  {
    hide Run, Sound, Apply, TwoHandedOver;
    schedule := HandOverTwo(log, l, p);
    EveryRunSound(log, l, schedule);
    var w0 := Run(log, l, Init(log), schedule);
    BothInFlight(log, w0, p);
    var w1 := FlushBatch(log, l, w0, p, 1, 0);
    var w2 := FlushBatch(log, l, w1, p, 0, 1);
    var a := FlushWrite(p, 1, 0, MetaAt(Message(log, p, 1), 0));
    var b := FlushWrite(p, 0, 0, MetaAt(Message(log, p, 0), 1));
    RunFour(log, l, Init(log), schedule, a, FlushFinish(0), b, FlushFinish(0));
    schedule := schedule + [a] + [FlushFinish(0)] + [b] + [FlushFinish(0)];
    RunSnoc(log, l, Init(log), schedule, On(p, Ack(1, true)));
    RunSnoc(log, l, Init(log), schedule + [On(p, Ack(1, true))], On(p, Revoke));
    schedule := schedule + [On(p, Ack(1, true))] + [On(p, Revoke)];
    late := On(p, Ack(0, true));
    AckRevokeAck(log, l, w2, p);
  }

  lemma BothInFlight(log: Log, w: World, p: int)
    requires Decodable(log, p, 0) && Decodable(log, p, 1) && TwoHandedOver(log, w, p)
    ensures w.sys.tasks == map[] && w.flushing == map[] && w.sys.store.uuids == {} && p in w.feeds
    ensures w.feeds[p].part.entry.committed == None
    ensures w.feeds[p].part.hist.batches == [
              C.Batch(0, [Message(log, p, 0)], 0, 1, C.InFlight, false),
              C.Batch(1, [Message(log, p, 1)], 0, 2, C.InFlight, false)]
  {
  }

  lemma AckRevokeAck(log: Log, l: Limits, w: World, p: int)
    requires Decodable(log, p, 0) && Decodable(log, p, 1) && p in w.feeds
    requires w.feeds[p].part.entry.committed == None
    requires w.feeds[p].part.hist.batches == [
               C.Batch(0, [Message(log, p, 0)], 0, 1, C.Durable, false),
               C.Batch(1, [Message(log, p, 1)], 0, 2, C.Durable, false)]
    ensures var v := Apply(log, l, Apply(log, l, w, On(p, Ack(1, true))), On(p, Revoke));
            && p in v.feeds && v.feeds[p].broker == 2
            && p in Apply(log, l, v, On(p, Ack(0, true))).feeds
            && Apply(log, l, v, On(p, Ack(0, true))).feeds[p].broker == 1
  {
    var f := w.feeds[p];
    var g := FeedStep(log, l, p, f, Ack(1, true));
    SubmitsIff(l, f, C.Ack(1), 1);
    assert g.broker == 2;
    var h := FeedStep(log, l, p, g, Revoke);
    assert h.part.entry.committed == None && h.broker == 2;
    assert h.part.hist.batches[0] == f.part.hist.batches[0];
    SubmitsIff(l, h, C.Ack(0), 0);
  }
}
