/** What each step does to the fetch position, to the messages received and to the offset the broker
    remembers, in any reachable world. */
module DeliverySteps {
  import opened Base
  import opened Batching
  import opened Delivery
  import C = Consumer
  import CS = ConsumerSteps
  import L = Lifecycle
  import S = LifecycleSafety

  /** Where the partition is fetched next: an assignment resumes at the broker's offset, and every
      message is passed, whether it decodes or not. */
  function PosAfter(f: Feed, a: FeedAction): Option<nat> {
    match a
    case Assign => Some(f.broker)
    case Fetch(_, _, _) => if f.pos.Some? then Some(f.pos.value + 1) else None
    case Revoke => None
    case _ => f.pos
  }

  /** A decodable message at the position is received, with the key of where it is stored. */
  function ReceivedAfter(log: Log, p: int, f: Feed, a: FeedAction): seq<C.Received> {
    if a.Fetch? && f.pos.Some? && p in log && f.pos.value < |log[p]| && f.pos.value <= I64_MAX
       && log[p][f.pos.value].Some?
    then f.part.hist.received + [C.Received(log[p][f.pos.value].value.(key := Key(p, f.pos.value)), f.part.hist.epoch)]
    else f.part.hist.received
  }

  /** What the broker remembers: the offset of a batch whose good result, or good flush at shutdown, is
      handled, if it is beyond the last one submitted and the call reaches the broker. */
  function BrokerAfter(f: Feed, a: FeedAction): nat {
    if (a.Ack? || a.ShutdownCommit?) && a.brokerOk && a.k < |f.part.hist.batches|
       && f.part.hist.batches[a.k].status == C.Durable && (a.Ack? ==> !f.part.hist.batches[a.k].acked)
       && f.part.hist.batches[a.k].upTo > CS.LastSubmitted(f.part)
    then Max(f.part.hist.batches[a.k].upTo, 0)
    else f.broker
  }

  /** Within an assignment positions only grow, so a fetched message is beyond all received before. */
  lemma FetchIsInOrder(log: Log, l: Limits, st: L.Store, p: int, f: Feed)
    requires FeedSound(log, l, st, p, f) && f.pos.Some? && Decodable(log, p, f.pos.value)
    ensures C.InOrder(f.part.hist, Message(log, p, f.pos.value))
  {
    hide C.Inv, NoGaps, DurableFlushed;
  }

  lemma ReceiveAppends(l: Limits, p: C.Part, e: Event, t0: nat, t1: nat, saturated: bool)
    requires C.InOrder(p.hist, e)
    ensures var q := C.Apply(l, p, C.Receive(e, t0, t1, saturated));
            q.hist.received == p.hist.received + [C.Received(e, p.hist.epoch)]
  {
    hide C.InOrder;
  }

  lemma OthersReceiveNothing(l: Limits, p: C.Part, a: C.Action)
    requires !a.Receive?
    ensures C.Apply(l, p, a).hist.received == p.hist.received
  {
  }

  lemma StepReceives(log: Log, l: Limits, st: L.Store, p: int, f: Feed, a: FeedAction)
    requires FeedSound(log, l, st, p, f) && FeedEnabled(log, p, f, a)
    ensures FeedStep(log, l, p, f, a).part.hist.received == ReceivedAfter(log, p, f, a)
    ensures FeedStep(log, l, p, f, a).pos == PosAfter(f, a)
  {
    hide FeedSound, C.Apply, C.InOrder, Submits;
    forall c: C.Action | !c.Receive? {
      OthersReceiveNothing(l, f.part, c);
    }
    if a.Fetch? && Decodable(log, p, f.pos.value) {
      FetchIsInOrder(log, l, st, p, f);
      ReceiveAppends(l, f.part, Message(log, p, f.pos.value), a.t0, a.t1, a.saturated);
    }
  }

  lemma SubmittingStep(log: Log, l: Limits, st: L.Store, p: int, f: Feed, a: C.Action)
    requires FeedSound(log, l, st, p, f) && (a.Ack? || a.ShutdownCommit?)
    ensures Submits(l, f, a) <==> C.Enabled(f.part, a) && CS.CommitsAfter(f.part, a) != f.part.hist.commits
  {
    hide C.Inv, NoGaps, PositionOk, DurableFlushed, C.Effect, CS.LastSubmitted;
    if C.Enabled(f.part, a) {
      CS.StepSubmits(l, f.part, a);
    }
  }

  lemma StepOnBroker(log: Log, l: Limits, st: L.Store, p: int, f: Feed, a: FeedAction)
    requires FeedSound(log, l, st, p, f) && FeedEnabled(log, p, f, a)
    ensures FeedStep(log, l, p, f, a).broker == BrokerAfter(f, a)
  {
    hide FeedSound, C.Apply, Submits, CS.LastSubmitted;
    if a.Ack? || a.ShutdownCommit? {
      SubmittingStep(log, l, st, p, f, if a.Ack? then C.Ack(a.k) else C.ShutdownCommit(a.k));
    }
  }

  /** In any reachable world: what a step of a partition does to its position, to what was received
      and to the broker's offset, and that it does nothing to other partitions; and that a crash loses
      the position and the received messages but not the offset. */
  lemma {:induction false} FeedAfterStep(log: Log, l: Limits, schedule: seq<Action>, p: int, a: FeedAction)
    requires Enabled(log, Run(log, l, Init(log), schedule), On(p, a))
    ensures var w := Run(log, l, Init(log), schedule);
            var v := Apply(log, l, w, On(p, a));
            && p in w.feeds && p in v.feeds
            && v.feeds[p].pos == PosAfter(w.feeds[p], a)
            && v.feeds[p].part.hist.received == ReceivedAfter(log, p, w.feeds[p], a)
            && v.feeds[p].broker == BrokerAfter(w.feeds[p], a)
            && v.feeds - {p} == w.feeds - {p} && v.sys == w.sys
    ensures var w := Run(log, l, Init(log), schedule);
            var v := Apply(log, l, w, Crash);
            && v.sys.store == w.sys.store && v.sys.tasks == map[] && v.feeds.Keys == w.feeds.Keys
            && forall q :: q in w.feeds ==>
                 v.feeds[q].broker == w.feeds[q].broker && v.feeds[q].pos == None && v.feeds[q].part == C.INIT
  {
    EveryRunSound(log, l, schedule);
    var w := Run(log, l, Init(log), schedule);
    hide Run, FeedSound, FeedStep, FeedEnabled, FlushingOk, S.Good, BrokerAfter, ReceivedAfter, PosAfter;
    StepReceives(log, l, w.sys.store, p, w.feeds[p], a);
    StepOnBroker(log, l, w.sys.store, p, w.feeds[p], a);
  }
}
