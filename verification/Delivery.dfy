/** End to end: Kafka's logs, the consumer of every partition, concurrent flushes, the storage
    protocol, crashes and restarts. */
module Delivery {
  import opened Base
  import opened Batching
  import opened Catalog
  import C = Consumer
  import CT = ConsumerTheorems
  import L = Lifecycle
  import S = LifecycleSafety
  import T = LifecycleTheorems

  /** The broker's log per partition; None is a message that does not decode. */
  type Log = map<int, seq<Option<Event>>>

  /** Message o exists (Kafka offsets are 64-bit) and decodes. */
  predicate Decodable(log: Log, p: int, o: nat) {
    p in log && o < |log[p]| && o <= I64_MAX && log[p][o].Some?
  }

  /** The event made of message o: its key is where Kafka stored it, whatever the payload says. */
  function Message(log: Log, p: int, o: nat): Event
    requires Decodable(log, p, o)
  {
    log[p][o].value.(key := Key(p, o))
  }

  /** One partition: the consumer's state, the fetch position while assigned, the offset the
      broker remembers, and where each assignment since the last start began. */
  datatype Feed = Feed(part: C.Part, pos: Option<nat>, broker: nat, starts: map<nat, nat>)

  /** What happens to one partition. `brokerOk`: the commit call, if any, reaches the broker. */
  datatype FeedAction =
    | Assign
    | Fetch(t0: nat, t1: nat, saturated: bool)
    | PollAge(now: nat, saturated: bool)
    | FlushFails(k: nat)
    | Ack(k: nat, brokerOk: bool)
    | Revoke
    | ShutdownDrain
    | ShutdownCommit(k: nat, brokerOk: bool)

  /** `flushing` says which batch of which partition a flush task works on. */
  datatype World = World(sys: L.Sys, feeds: map<int, Feed>, flushing: map<nat, (int, nat)>)

  datatype Action =
    | On(p: int, step: FeedAction)
    | FlushWrite(p: int, k: nat, t: nat, m: Meta)
    | FlushFinish(t: nat)
    | FlushAbort(t: nat)
    | Background(a: L.Action)
    | Crash

  const FRESH := Feed(C.INIT, None, 0, map[])

  function Init(log: Log): World {
    World(L.INIT, map p | p in log :: FRESH, map[])
  }

  // ----- Steps of one partition -----

  function Step(l: Limits, f: Feed, a: C.Action): Feed {
    f.(part := C.Apply(l, f.part, a))
  }

  /** Does the step submit an offset for commit? */
  predicate Submits(l: Limits, f: Feed, a: C.Action) {
    |C.Apply(l, f.part, a).hist.commits| > |f.part.hist.commits|
  }

  /** Handling a flush result or a shutdown flush; a submitted offset reaches the broker unless
      the commit call fails, which the program only logs. */
  function Commit(l: Limits, f: Feed, a: C.Action, k: nat, brokerOk: bool): Feed
    requires k < |f.part.hist.batches|
  {
    if brokerOk && Submits(l, f, a)
    then Step(l, f, a).(broker := Max(f.part.hist.batches[k].upTo, 0)) else Step(l, f, a)
  }

  /** The next message is consumed; one that does not decode is only skipped. */
  function FetchStep(log: Log, l: Limits, p: int, f: Feed, t0: nat, t1: nat, saturated: bool): Feed
    requires f.pos.Some?
  {
    var o := f.pos.value;
    var g := if !Decodable(log, p, o) then f else Step(l, f, C.Receive(Message(log, p, o), t0, t1, saturated));
    g.(pos := Some(o + 1))
  }

  /** An assignment resumes at the offset the broker remembers. */
  function AssignStep(f: Feed): Feed {
    f.(pos := Some(f.broker), starts := f.starts[f.part.hist.epoch := f.broker])
  }

  predicate FeedEnabled(log: Log, p: int, f: Feed, a: FeedAction) {
    match a
    case Assign => f.pos.None?
    case Fetch(t0, t1, saturated) => p in log && f.pos.Some? && f.pos.value < |log[p]|
    case Ack(k, brokerOk) => k < |f.part.hist.batches|
    case ShutdownCommit(k, brokerOk) => k < |f.part.hist.batches|
    case _ => true
  }

  function FeedStep(log: Log, l: Limits, p: int, f: Feed, a: FeedAction): Feed
    requires FeedEnabled(log, p, f, a)
  {
    match a
    case Assign => AssignStep(f)
    case Fetch(t0, t1, saturated) => FetchStep(log, l, p, f, t0, t1, saturated)
    case PollAge(now, saturated) => Step(l, f, C.Tick(now, saturated))
    case FlushFails(k) => Step(l, f, C.Done(k, false))
    case Ack(k, brokerOk) => Commit(l, f, C.Ack(k), k, brokerOk)
    case Revoke => Step(l, f, C.Revoke).(pos := None)
    case ShutdownDrain => Step(l, f, C.ShutdownDrain)
    case ShutdownCommit(k, brokerOk) => Commit(l, f, C.ShutdownCommit(k), k, brokerOk)
  }

  // ----- Steps of the whole -----

  predicate HasBatch(w: World, p: int, k: nat) {
    p in w.feeds && k < |w.feeds[p].part.hist.batches|
  }

  predicate Unclaimed(w: World, p: int, k: nat) {
    forall u :: u in w.flushing ==> w.flushing[u] != (p, k)
  }

  ghost predicate Enabled(log: Log, w: World, a: Action) {
    match a
    case On(p, step) =>
      p in w.feeds && FeedEnabled(log, p, w.feeds[p], step) && (step.FlushFails? ==> Unclaimed(w, p, step.k))
    case FlushWrite(p, k, t, m) =>
      && HasBatch(w, p, k) && w.feeds[p].part.hist.batches[k].status == C.InFlight && Unclaimed(w, p, k)
      && L.Enabled(w.sys, L.FlushWrite(t, m, w.feeds[p].part.hist.batches[k].events))
    case FlushFinish(t) => t in w.flushing && L.Enabled(w.sys, L.FlushInsert(t))
    case FlushAbort(t) => t in w.flushing
    case Background(a) => !a.FlushWrite? && !a.FlushInsert? && a.t !in w.flushing
    case Crash => true
  }

  function Put(w: World, p: int, f: Feed): World {
    w.(feeds := w.feeds[p := f])
  }

  /** Flush task t ends with the given result. */
  function Finish(l: Limits, w: World, t: nat, sys: L.Sys, ok: bool): World
    requires t in w.flushing
  {
    var (p, k) := w.flushing[t];
    var v := World(sys, w.feeds, w.flushing - {t});
    if p in w.feeds then Put(v, p, Step(l, w.feeds[p], C.Done(k, ok))) else v
  }

  ghost function Effect(log: Log, l: Limits, w: World, a: Action): World
    requires Enabled(log, w, a)
  {
    match a
    case On(p, step) => Put(w, p, FeedStep(log, l, p, w.feeds[p], step))
    case FlushWrite(p, k, t, m) =>
      w.(sys := L.Apply(w.sys, L.FlushWrite(t, m, w.feeds[p].part.hist.batches[k].events)),
         flushing := w.flushing[t := (p, k)])
    case FlushFinish(t) =>
      var task := w.sys.tasks[t];
      Finish(l, w, t, L.Apply(w.sys, L.FlushInsert(t)), L.InsertFile(w.sys.store, task.meta, task.events).Some?)
    case FlushAbort(t) => Finish(l, w, t, L.Apply(w.sys, L.Abort(t)), false)
    case Background(a) => w.(sys := L.Apply(w.sys, a))
    case Crash =>
      World(w.sys.(tasks := map[]), map p | p in w.feeds :: FRESH.(broker := w.feeds[p].broker), map[])
  }

  ghost function Apply(log: Log, l: Limits, w: World, a: Action): World {
    if Enabled(log, w, a) then Effect(log, l, w, a) else w
  }

  ghost function Run(log: Log, l: Limits, w: World, schedule: seq<Action>): World {
    if schedule == [] then w
    else Apply(log, l, Run(log, l, w, schedule[..|schedule| - 1]), Last(schedule))
  }

  // ----- The invariant of every run -----

  ghost predicate IsMessage(log: Log, e: Event) {
    e.key.offset >= 0 && Decodable(log, e.key.partition, e.key.offset)
      && e == Message(log, e.key.partition, e.key.offset)
  }

  /** Event e was received in assignment n. */
  ghost predicate Got(received: seq<C.Received>, n: nat, e: Event) {
    exists j :: 0 <= j < |received| && received[j] == C.Received(e, n)
  }

  /** Within each assignment the messages from its start on were received without a gap. */
  ghost predicate NoGaps(log: Log, p: int, received: seq<C.Received>, starts: map<nat, nat>) {
    && (forall j :: 0 <= j < |received| ==>
          && received[j].epoch in starts && IsMessage(log, received[j].event)
          && received[j].event.key.partition == p && starts[received[j].epoch] <= received[j].event.key.offset)
    && (forall j, o: nat ::
          (&& 0 <= j < |received| && received[j].epoch in starts
           && starts[received[j].epoch] <= o < received[j].event.key.offset && Decodable(log, p, o)) ==>
            Got(received, received[j].epoch, Message(log, p, o)))
  }

  ghost predicate PositionOk(log: Log, p: int, f: Feed) {
    var h := f.part.hist;
    match f.pos
    case None => forall j :: 0 <= j < |h.received| ==> h.received[j].epoch != h.epoch
    case Some(q) =>
      && h.epoch in f.starts && f.starts[h.epoch] <= q
      && (forall o: nat :: f.starts[h.epoch] <= o < q && Decodable(log, p, o) ==>
            Got(h.received, h.epoch, Message(log, p, o)))
      && (forall j :: 0 <= j < |h.received| && h.received[j].epoch == h.epoch ==> h.received[j].event.key.offset < q)
  }

  ghost predicate DurableFlushed(st: L.Store, batches: seq<C.Batch>) {
    forall k, e :: 0 <= k < |batches| && batches[k].status == C.Durable && e in batches[k].events ==> T.Flushed(st, e)
  }

  ghost predicate FeedSound(log: Log, l: Limits, st: L.Store, p: int, f: Feed) {
    && C.Inv(l, f.part)
    && NoGaps(log, p, f.part.hist.received, f.starts)
    && PositionOk(log, p, f)
    && DurableFlushed(st, f.part.hist.batches)
  }

  ghost predicate FlushingOk(w: World) {
    forall t :: t in w.flushing ==>
      && HasBatch(w, w.flushing[t].0, w.flushing[t].1)
      && (t in w.sys.tasks && w.sys.tasks[t].Flushing? ==>
            w.sys.tasks[t].events == w.feeds[w.flushing[t].0].part.hist.batches[w.flushing[t].1].events)
  }

  /** Nothing is in the manifest's files but messages of the log. */
  ghost predicate Faithful(log: Log, st: L.Store) {
    forall e :: T.Flushed(st, e) ==> IsMessage(log, e)
  }

  ghost predicate Sound(log: Log, l: Limits, w: World) {
    && S.Good(w.sys) && T.NoLoss(w.sys.store) && Faithful(log, w.sys.store) && FlushingOk(w)
    && (forall p :: p in w.feeds ==> FeedSound(log, l, w.sys.store, p, w.feeds[p]))
  }

  // ----- The invariant of careful runs -----

  ghost predicate AllFlushed(log: Log, st: L.Store, p: int, below: nat) {
    forall o: nat :: o < below && Decodable(log, p, o) ==> T.Flushed(st, Message(log, p, o))
  }

  ghost predicate FeedSafe(log: Log, st: L.Store, p: int, f: Feed) {
    AllFlushed(log, st, p, f.broker) && forall n :: n in f.starts ==> AllFlushed(log, st, p, f.starts[n])
  }

  /** Everything below an offset the broker remembers has been flushed. */
  ghost predicate Safe(log: Log, w: World) {
    forall p :: p in w.feeds ==> FeedSafe(log, w.sys.store, p, w.feeds[p])
  }

  /** An offset is submitted only when the batches handed over earlier in its assignment are durable. */
  ghost predicate CarefulStep(l: Limits, f: Feed, a: FeedAction) {
    && (a.Ack? && Submits(l, f, C.Ack(a.k)) && a.k < |f.part.hist.batches| ==>
          CT.EarlierAllDurable(f.part.hist, a.k))
    && (a.ShutdownCommit? && Submits(l, f, C.ShutdownCommit(a.k)) && a.k < |f.part.hist.batches| ==>
          CT.EarlierAllDurable(f.part.hist, a.k))
  }

  ghost predicate Careful(l: Limits, w: World, a: Action) {
    a.On? && a.p in w.feeds ==> CarefulStep(l, w.feeds[a.p], a.step)
  }

  ghost predicate CarefulRun(log: Log, l: Limits, schedule: seq<Action>) {
    forall i :: 0 <= i < |schedule| ==> Careful(l, Run(log, l, Init(log), schedule[..i]), schedule[i])
  }

  // ----- One partition -----

  ghost predicate FlushedGrows(st: L.Store, st': L.Store) {
    forall e :: T.Flushed(st, e) ==> T.Flushed(st', e)
  }

  lemma FeedKept(log: Log, l: Limits, st: L.Store, st': L.Store, p: int, f: Feed)
    requires FlushedGrows(st, st')
    ensures FeedSound(log, l, st, p, f) ==> FeedSound(log, l, st', p, f)
    ensures FeedSafe(log, st, p, f) ==> FeedSafe(log, st', p, f)
  {
    hide C.Inv, NoGaps, PositionOk, T.Flushed;
  }

  lemma GotMore(received: seq<C.Received>, r: C.Received, n: nat, e: Event)
    requires Got(received, n, e)
    ensures Got(received + [r], n, e)
  {
    var j :| 0 <= j < |received| && received[j] == C.Received(e, n);
    assert (received + [r])[j] == C.Received(e, n);
  }

  /** Receiving the message at the fetch position leaves no gap behind. */
  lemma FetchNoGaps(log: Log, p: int, f: Feed)
    requires f.pos.Some? && Decodable(log, p, f.pos.value)
    requires NoGaps(log, p, f.part.hist.received, f.starts) && PositionOk(log, p, f)
    ensures var h := f.part.hist;
            var r := C.Received(Message(log, p, f.pos.value), h.epoch);
            NoGaps(log, p, h.received + [r], f.starts)
  {
    var h := f.part.hist;
    var r := C.Received(Message(log, p, f.pos.value), h.epoch);
    var more := h.received + [r];
    forall j, o: nat |
      0 <= j < |more| && more[j].epoch in f.starts && f.starts[more[j].epoch] <= o < more[j].event.key.offset
      && Decodable(log, p, o)
      ensures Got(more, more[j].epoch, Message(log, p, o))
    {
      GotMore(h.received, r, more[j].epoch, Message(log, p, o));
    }
  }

  lemma FetchPosition(log: Log, p: int, f: Feed)
    requires f.pos.Some? && Decodable(log, p, f.pos.value) && PositionOk(log, p, f)
    ensures var h := f.part.hist;
            var more := h.received + [C.Received(Message(log, p, f.pos.value), h.epoch)];
            PositionOk(log, p, f.(pos := Some(f.pos.value + 1), part := f.part.(hist := h.(received := more))))
  {
    var h := f.part.hist;
    var r := C.Received(Message(log, p, f.pos.value), h.epoch);
    var more := h.received + [r];
    forall o: nat | f.starts[h.epoch] <= o <= f.pos.value && Decodable(log, p, o)
      ensures Got(more, h.epoch, Message(log, p, o))
    {
      if o < f.pos.value {
        GotMore(h.received, r, h.epoch, Message(log, p, o));
      } else {
        assert more[|h.received|] == C.Received(Message(log, p, o), h.epoch);
      }
    }
  }

  /** A fetch position depends on the history only through what was received. */
  lemma PositionFrame(log: Log, p: int, f: Feed, g: Feed)
    requires PositionOk(log, p, f) && g.pos == f.pos && g.starts == f.starts
    requires g.part.hist.received == f.part.hist.received && g.part.hist.epoch == f.part.hist.epoch
    ensures PositionOk(log, p, g)
  {
  }

  /** New hand-overs are not yet durable. */
  ghost predicate SameDurable(batches: seq<C.Batch>, batches': seq<C.Batch>) {
    forall k :: 0 <= k < |batches'| && batches'[k].status == C.Durable ==>
      k < |batches| && batches[k].status == C.Durable && batches[k].events == batches'[k].events
  }

  lemma DurableKept(st: L.Store, batches: seq<C.Batch>, batches': seq<C.Batch>)
    requires DurableFlushed(st, batches) && SameDurable(batches, batches')
    ensures DurableFlushed(st, batches')
  {
  }

  lemma NextInOrder(log: Log, p: int, f: Feed)
    requires f.pos.Some? && Decodable(log, p, f.pos.value) && PositionOk(log, p, f)
    ensures C.InOrder(f.part.hist, Message(log, p, f.pos.value))
  {
  }

  lemma ReceiveShape(l: Limits, p: C.Part, e: Event, t0: nat, t1: nat, saturated: bool)
    requires C.InOrder(p.hist, e)
    ensures var q := C.Apply(l, p, C.Receive(e, t0, t1, saturated));
            && q.hist.received == p.hist.received + [C.Received(e, p.hist.epoch)] && q.hist.epoch == p.hist.epoch
            && SameDurable(p.hist.batches, q.hist.batches)
  {
    hide C.InOrder;
  }

  lemma ReceivedSound(log: Log, l: Limits, st: L.Store, p: int, f: Feed, t0: nat, t1: nat, saturated: bool)
    requires FeedSound(log, l, st, p, f) && f.pos.Some? && Decodable(log, p, f.pos.value)
    ensures FeedSound(log, l, st, p, FetchStep(log, l, p, f, t0, t1, saturated))
  {
    hide C.Inv, PositionOk, NoGaps, C.InOrder, C.Apply, DurableFlushed, SameDurable;
    var o := f.pos.value;
    var e := Message(log, p, o);
    var g := FetchStep(log, l, p, f, t0, t1, saturated);
    NextInOrder(log, p, f);
    C.StepKeepsInv(l, f.part, C.Receive(e, t0, t1, saturated));
    ReceiveShape(l, f.part, e, t0, t1, saturated);
    FetchNoGaps(log, p, f);
    FetchPosition(log, p, f);
    var h := f.part.hist;
    var more := h.received + [C.Received(e, h.epoch)];
    PositionFrame(log, p, f.(pos := Some(o + 1), part := f.part.(hist := h.(received := more))), g);
    DurableKept(st, f.part.hist.batches, g.part.hist.batches);
  }

  lemma SkipPosition(log: Log, p: int, f: Feed)
    requires f.pos.Some? && !Decodable(log, p, f.pos.value) && PositionOk(log, p, f)
    ensures PositionOk(log, p, f.(pos := Some(f.pos.value + 1)))
  {
  }

  lemma FetchSound(log: Log, l: Limits, st: L.Store, p: int, f: Feed, t0: nat, t1: nat, saturated: bool)
    requires FeedSound(log, l, st, p, f) && f.pos.Some?
    ensures FeedSound(log, l, st, p, FetchStep(log, l, p, f, t0, t1, saturated))
  {
    hide C.Inv, PositionOk, NoGaps, C.Apply, DurableFlushed;
    if Decodable(log, p, f.pos.value) {
      ReceivedSound(log, l, st, p, f, t0, t1, saturated);
    } else {
      SkipPosition(log, p, f);
    }
  }

  /** The steps that neither receive nor change the assignment nor make a batch durable. */
  predicate IsPlain(a: C.Action) {
    !a.Receive? && !a.Revoke? && !(a.Done? && a.ok)
  }

  lemma PlainShape(l: Limits, p: C.Part, a: C.Action)
    requires IsPlain(a)
    ensures var q := C.Apply(l, p, a);
            && q.hist.received == p.hist.received && q.hist.epoch == p.hist.epoch
            && SameDurable(p.hist.batches, q.hist.batches)
  {
  }

  lemma PlainSound(log: Log, l: Limits, st: L.Store, p: int, f: Feed, a: C.Action)
    requires FeedSound(log, l, st, p, f) && IsPlain(a)
    ensures FeedSound(log, l, st, p, Step(l, f, a))
  {
    hide C.Inv, NoGaps, C.Apply, PositionOk, DurableFlushed, SameDurable;
    var g := Step(l, f, a);
    C.StepKeepsInv(l, f.part, a);
    PlainShape(l, f.part, a);
    PositionFrame(log, p, f, g);
    DurableKept(st, f.part.hist.batches, g.part.hist.batches);
  }

  lemma RevokeShape(l: Limits, p: C.Part)
    ensures var q := C.Apply(l, p, C.Revoke);
            && q.hist.received == p.hist.received && q.hist.epoch == p.hist.epoch + 1
            && SameDurable(p.hist.batches, q.hist.batches)
  {
  }

  lemma NothingInNextEpoch(l: Limits, p: C.Part)
    requires C.Inv(l, p)
    ensures forall j :: 0 <= j < |p.hist.received| ==> p.hist.received[j].epoch != p.hist.epoch + 1
  {
    hide C.BatchesOk, C.BufferOk, C.CommitsOk, C.Wakeable;
  }

  lemma RevokeSound(log: Log, l: Limits, st: L.Store, p: int, f: Feed)
    requires FeedSound(log, l, st, p, f)
    ensures FeedSound(log, l, st, p, Step(l, f, C.Revoke).(pos := None))
  {
    hide C.Inv, NoGaps, C.Apply, DurableFlushed, SameDurable;
    C.StepKeepsInv(l, f.part, C.Revoke);
    RevokeShape(l, f.part);
    NothingInNextEpoch(l, f.part);
    DurableKept(st, f.part.hist.batches, C.Apply(l, f.part, C.Revoke).hist.batches);
  }

  lemma AssignSound(log: Log, l: Limits, st: L.Store, p: int, f: Feed)
    requires FeedSound(log, l, st, p, f) && f.pos.None?
    ensures FeedSound(log, l, st, p, AssignStep(f))
  {
    hide C.Inv, DurableFlushed, Got;
  }

  /** Batch k became durable: its events are in the manifest. */
  lemma DoneSound(log: Log, l: Limits, st: L.Store, p: int, f: Feed, k: nat)
    requires FeedSound(log, l, st, p, f) && k < |f.part.hist.batches|
    requires forall e :: e in f.part.hist.batches[k].events ==> T.Flushed(st, e)
    ensures FeedSound(log, l, st, p, Step(l, f, C.Done(k, true)))
  {
    hide C.Inv, NoGaps, PositionOk, T.Flushed;
    C.StepKeepsInv(l, f.part, C.Done(k, true));
    PositionFrame(log, p, f, Step(l, f, C.Done(k, true)));
  }

  /** What the broker remembers does not matter to the consumer's own state. */
  lemma BrokerSound(log: Log, l: Limits, st: L.Store, p: int, f: Feed, broker: nat)
    requires FeedSound(log, l, st, p, f)
    ensures FeedSound(log, l, st, p, f.(broker := broker))
  {
    hide C.Inv, NoGaps, PositionOk, DurableFlushed;
    PositionFrame(log, p, f, f.(broker := broker));
  }

  lemma CommitSound(log: Log, l: Limits, st: L.Store, p: int, f: Feed, a: C.Action, k: nat, brokerOk: bool)
    requires FeedSound(log, l, st, p, f) && k < |f.part.hist.batches| && IsPlain(a)
    ensures FeedSound(log, l, st, p, Commit(l, f, a, k, brokerOk))
  {
    hide FeedSound, C.Apply;
    PlainSound(log, l, st, p, f, a);
    BrokerSound(log, l, st, p, Step(l, f, a), Max(f.part.hist.batches[k].upTo, 0));
  }

  lemma FeedStepSound(log: Log, l: Limits, st: L.Store, p: int, f: Feed, a: FeedAction)
    requires FeedSound(log, l, st, p, f) && FeedEnabled(log, p, f, a)
    ensures FeedSound(log, l, st, p, FeedStep(log, l, p, f, a))
  {
    hide FeedSound, C.Apply, Commit;
    match a
    case Assign => AssignSound(log, l, st, p, f);
    case Fetch(t0, t1, saturated) => FetchSound(log, l, st, p, f, t0, t1, saturated);
    case PollAge(now, saturated) => PlainSound(log, l, st, p, f, C.Tick(now, saturated));
    case FlushFails(k) => PlainSound(log, l, st, p, f, C.Done(k, false));
    case Ack(k, brokerOk) => CommitSound(log, l, st, p, f, C.Ack(k), k, brokerOk);
    case Revoke => RevokeSound(log, l, st, p, f);
    case ShutdownDrain => PlainSound(log, l, st, p, f, C.ShutdownDrain);
    case ShutdownCommit(k, brokerOk) => CommitSound(log, l, st, p, f, C.ShutdownCommit(k), k, brokerOk);
  }

  lemma RestartSound(log: Log, l: Limits, st: L.Store, p: int, broker: nat)
    ensures FeedSound(log, l, st, p, FRESH.(broker := broker))
  {
    hide C.Inv;
    C.EveryRunKeepsInv(l, []);
  }

  // ----- Commits of one partition -----

  /** Committing after batch k is safe when the earlier hand-overs of its assignment are durable. */
  lemma BelowCommitFlushed(log: Log, l: Limits, st: L.Store, p: int, f: Feed, k: nat)
    requires FeedSound(log, l, st, p, f) && FeedSafe(log, st, p, f)
    requires k < |f.part.hist.batches| && CT.EarlierAllDurable(f.part.hist, k)
    ensures AllFlushed(log, st, p, Max(f.part.hist.batches[k].upTo, 0))
  {
    var h := f.part.hist;
    var upTo := h.batches[k].upTo;
    CT.LastPosition(h, k);
    var last := C.End(h.batches[k]) - 1;
    forall o: nat | o < Max(upTo, 0) && Decodable(log, p, o) ensures T.Flushed(st, Message(log, p, o)) {
      if o >= f.starts[h.batches[k].epoch] {
        ReceivedUpTo(log, p, h.received, f.starts, last, o);
        var j: nat :| 0 <= j < |h.received| && h.received[j] == C.Received(Message(log, p, o), h.batches[k].epoch);
        DurableIsFlushed(st, f, k, j);
      }
    }
  }

  lemma ReceivedUpTo(log: Log, p: int, received: seq<C.Received>, starts: map<nat, nat>, last: nat, o: nat)
    requires NoGaps(log, p, received, starts) && last < |received|
    requires received[last].epoch in starts && starts[received[last].epoch] <= o <= received[last].event.key.offset
    requires Decodable(log, p, o)
    ensures Got(received, received[last].epoch, Message(log, p, o))
  {
    if o == received[last].event.key.offset {
      assert received[last] == C.Received(Message(log, p, o), received[last].epoch);
    }
  }

  lemma DurableIsFlushed(st: L.Store, f: Feed, k: nat, j: nat)
    requires C.CoreOf(f.part) && DurableFlushed(st, f.part.hist.batches)
    requires k < |f.part.hist.batches| && CT.Below(f.part.hist, k, j) && CT.EarlierAllDurable(f.part.hist, k)
    ensures T.Flushed(st, f.part.hist.received[j].event)
  {
    hide C.CoreOf;
    CT.DurableBelow(f.part, k, j);
  }

  lemma FeedStepSafe(log: Log, l: Limits, st: L.Store, p: int, f: Feed, a: FeedAction)
    requires FeedSound(log, l, st, p, f) && FeedSafe(log, st, p, f)
    requires FeedEnabled(log, p, f, a) && CarefulStep(l, f, a)
    ensures FeedSafe(log, st, p, FeedStep(log, l, p, f, a))
  {
    hide FeedSound, AllFlushed, C.Apply, CT.EarlierAllDurable;
    if (a.Ack? && Submits(l, f, C.Ack(a.k))) || (a.ShutdownCommit? && Submits(l, f, C.ShutdownCommit(a.k))) {
      BelowCommitFlushed(log, l, st, p, f, a.k);
    }
  }

  // ----- All partitions -----

  /** Batches are only added and marked. */
  ghost predicate SameEvents(batches: seq<C.Batch>, batches': seq<C.Batch>) {
    |batches| <= |batches'| && forall k :: 0 <= k < |batches| ==> batches'[k].events == batches[k].events
  }

  lemma BatchesStay(l: Limits, p: C.Part, a: C.Action)
    ensures SameEvents(p.hist.batches, C.Apply(l, p, a).hist.batches)
  {
    hide C.InOrder;
  }

  lemma FeedBatchesStay(log: Log, l: Limits, p: int, f: Feed, a: FeedAction)
    requires FeedEnabled(log, p, f, a)
    ensures SameEvents(f.part.hist.batches, FeedStep(log, l, p, f, a).part.hist.batches)
  {
    hide C.Apply;
    forall c {
      BatchesStay(l, f.part, c);
    }
  }

  lemma PutSound(log: Log, l: Limits, w: World, p: int, f: Feed)
    requires Sound(log, l, w) && p in w.feeds && FeedSound(log, l, w.sys.store, p, f)
    requires SameEvents(w.feeds[p].part.hist.batches, f.part.hist.batches)
    ensures Sound(log, l, Put(w, p, f))
  {
    hide S.Good, T.NoLoss, Faithful, FeedSound;
  }

  lemma OnSound(log: Log, l: Limits, w: World, p: int, a: FeedAction)
    requires Sound(log, l, w) && p in w.feeds && FeedEnabled(log, p, w.feeds[p], a)
    ensures Sound(log, l, Put(w, p, FeedStep(log, l, p, w.feeds[p], a)))
  {
    hide S.Good, T.NoLoss, Faithful, FeedSound, FlushingOk, FeedStep, FeedEnabled;
    FeedStepSound(log, l, w.sys.store, p, w.feeds[p], a);
    FeedBatchesStay(log, l, p, w.feeds[p], a);
    PutSound(log, l, w, p, FeedStep(log, l, p, w.feeds[p], a));
  }

  /** A change of the storage system that the consumers do not notice. */
  lemma SysSound(log: Log, l: Limits, w: World, sys: L.Sys, flushing: map<nat, (int, nat)>)
    requires Sound(log, l, w) && S.Good(sys) && T.NoLoss(sys.store) && Faithful(log, sys.store)
    requires FlushedGrows(w.sys.store, sys.store) && FlushingOk(World(sys, w.feeds, flushing))
    ensures Sound(log, l, World(sys, w.feeds, flushing))
  {
    hide S.Good, T.NoLoss, Faithful, FeedSound, FlushingOk, FlushedGrows;
    forall p | p in w.feeds ensures FeedSound(log, l, sys.store, p, w.feeds[p]) {
      FeedKept(log, l, w.sys.store, sys.store, p, w.feeds[p]);
    }
  }

  lemma SameOriginSameFlushed(log: Log, st: L.Store, st': L.Store)
    requires st'.origin == st.origin
    ensures FlushedGrows(st, st') && (Faithful(log, st) ==> Faithful(log, st'))
  {
    hide IsMessage;
    assert forall e :: T.Flushed(st, e) <==> T.Flushed(st', e);
  }

  lemma FlushWriteSound(log: Log, l: Limits, w: World, p: int, k: nat, t: nat, m: Meta)
    requires Sound(log, l, w) && Enabled(log, w, FlushWrite(p, k, t, m))
    ensures Sound(log, l, Effect(log, l, w, FlushWrite(p, k, t, m)))
  {
    hide S.Good, T.NoLoss, Faithful, FeedSound, L.FreshFile, FlushedGrows;
    var step := L.FlushWrite(t, m, w.feeds[p].part.hist.batches[k].events);
    var sys := L.Apply(w.sys, step);
    S.StepKeepsGood(w.sys, step);
    T.StepKeepsNoLoss(w.sys, step);
    SameOriginSameFlushed(log, w.sys.store, sys.store);
    SysSound(log, l, w, sys, w.flushing[t := (p, k)]);
  }

  lemma RestartedSound(log: Log, l: Limits, w: World)
    requires Sound(log, l, w)
    ensures Sound(log, l, Effect(log, l, w, Crash))
  {
    hide T.NoLoss, Faithful, FeedSound, S.StoreOk;
    var v := Effect(log, l, w, Crash);
    forall p | p in v.feeds ensures FeedSound(log, l, v.sys.store, p, v.feeds[p]) {
      RestartSound(log, l, v.sys.store, p, w.feeds[p].broker);
    }
  }

  // ----- Flush results -----

  /** The insert goes through, and registers exactly the events of the batch. */
  lemma InsertRegisters(s: L.Sys, t: nat)
    requires S.Good(s) && L.Enabled(s, L.FlushInsert(t))
    ensures var task := s.tasks[t];
            && L.InsertFile(s.store, task.meta, task.events).Some?
            && L.Apply(s, L.FlushInsert(t)).tasks == s.tasks - {t}
            && forall e :: T.Flushed(L.Apply(s, L.FlushInsert(t)).store, e) <==>
                 T.Flushed(s.store, e) || e in task.events
  {
    var m, events := s.tasks[t].meta, s.tasks[t].events;
    assert S.TaskOk(s.store, s.tasks[t]);
    S.InsertSucceeds(s.store, m, events);
    RegisteredRows(s.store, {}, [m], [events], L.InsertFile(s.store, m, events).value);
    FlattenOne(events);
  }

  lemma FlattenOne(events: File)
    ensures Flatten([events]) == events
  {
    assert [events][1..] == [];
  }

  /** A transaction adds the rows of its files to what has been flushed. */
  lemma RegisteredRows(st: L.Store, ids: set<int>, metas: seq<Meta>, chunks: seq<File>, st': L.Store)
    requires |metas| == |chunks| && S.Swapped(st, ids, metas, chunks, st')
    requires forall id :: id in st.origin ==> id < st.table.nextId
    ensures forall e :: T.Flushed(st', e) <==> T.Flushed(st, e) || e in Flatten(chunks)
  {
    hide ValidTable;
    forall e ensures T.Flushed(st', e) <==> T.Flushed(st, e) || e in Flatten(chunks) {
      FlattenMember(chunks, e);
      if id :| id in st'.origin && e in st'.origin[id].rows {
        assert id in st.origin || e in chunks[id - st.table.nextId];
      }
      if i :| 0 <= i < |chunks| && e in chunks[i] {
        assert e in st'.origin[st.table.nextId + i].rows;
      }
    }
  }

  /** Batches consist of messages of the log. */
  lemma BatchesAreMessages(log: Log, l: Limits, st: L.Store, p: int, f: Feed, k: nat, e: Event)
    requires FeedSound(log, l, st, p, f) && k < |f.part.hist.batches| && e in f.part.hist.batches[k].events
    ensures exists j :: 0 <= j < |f.part.hist.received| && f.part.hist.received[j].event == e
    ensures IsMessage(log, e)
  {
    hide IsMessage, PositionOk, DurableFlushed, C.BufferOk, C.CommitsOk, C.Wakeable;
    var b := f.part.hist.batches[k];
    assert C.BatchOk(f.part.hist.received, b);
    var i :| 0 <= i < |b.events| && b.events[i] == e;
    assert f.part.hist.received[b.start + i] == C.Received(b.events[i], b.epoch);
  }

  lemma FlushFinishSound(log: Log, l: Limits, w: World, t: nat)
    requires Sound(log, l, w) && Enabled(log, w, FlushFinish(t))
    ensures Sound(log, l, Effect(log, l, w, FlushFinish(t)))
  {
    hide S.Good, T.NoLoss, FeedSound, T.Flushed, IsMessage;
    var (p, k) := w.flushing[t];
    var f := w.feeds[p];
    var sys := L.Apply(w.sys, L.FlushInsert(t));
    S.StepKeepsGood(w.sys, L.FlushInsert(t));
    T.StepKeepsNoLoss(w.sys, L.FlushInsert(t));
    InsertRegisters(w.sys, t);
    forall e | e in f.part.hist.batches[k].events ensures IsMessage(log, e) {
      BatchesAreMessages(log, l, w.sys.store, p, f, k, e);
    }
    var v := World(sys, w.feeds, w.flushing - {t});
    SysSound(log, l, w, sys, w.flushing - {t});
    DoneSound(log, l, sys.store, p, f, k);
    BatchesStay(l, f.part, C.Done(k, true));
    PutSound(log, l, v, p, Step(l, f, C.Done(k, true)));
  }

  lemma FlushAbortSound(log: Log, l: Limits, w: World, t: nat)
    requires Sound(log, l, w) && Enabled(log, w, FlushAbort(t))
    ensures Sound(log, l, Effect(log, l, w, FlushAbort(t)))
  {
    hide S.Good, T.NoLoss, FeedSound, Faithful, FlushedGrows, C.Apply;
    var (p, k) := w.flushing[t];
    var f := w.feeds[p];
    var sys := L.Apply(w.sys, L.Abort(t));
    S.StepKeepsGood(w.sys, L.Abort(t));
    T.StepKeepsNoLoss(w.sys, L.Abort(t));
    SameOriginSameFlushed(log, w.sys.store, sys.store);
    var v := World(sys, w.feeds, w.flushing - {t});
    SysSound(log, l, w, sys, w.flushing - {t});
    PlainSound(log, l, sys.store, p, f, C.Done(k, false));
    BatchesStay(l, f.part, C.Done(k, false));
    PutSound(log, l, v, p, Step(l, f, C.Done(k, false)));
  }

  // ----- Background steps -----

  ghost predicate OnlyTask(tasks: map<nat, L.Task>, tasks': map<nat, L.Task>, t: nat) {
    forall u :: u != t ==> (u in tasks' <==> u in tasks) && (u in tasks ==> tasks'[u] == tasks[u])
  }

  lemma OtherTasksKept(s: L.Sys, a: L.Action)
    requires L.Enabled(s, a)
    ensures OnlyTask(s.tasks, L.Effect(s, a).tasks, a.t)
  {
    hide OnlyTask, L.Goto, L.End, L.ListingOf, L.FreshFile, L.ReadyToSwap;
    hide L.ReadPath, L.SwapFiles, L.InsertFile, L.RecordCold;
    hide L.WriteLocal, L.RemoveLocal, L.Upload, L.RemoveExpired, L.DeleteRow;
    forall st, task ensures OnlyTask(s.tasks, L.Goto(s, a.t, st, task).tasks, a.t) {
      MovesOne(s, a.t, st, task);
    }
    forall st ensures OnlyTask(s.tasks, L.End(s, a.t, st).tasks, a.t) {
      MovesOne(s, a.t, st, L.Unlinking([]));
    }
    if a.FlushInsert? || a.CompactSwap? || a.TierSetCold? {
      StatementMoves(s, a);
    }
  }

  lemma StatementMoves(s: L.Sys, a: L.Action)
    requires L.Enabled(s, a) && (a.FlushInsert? || a.CompactSwap? || a.TierSetCold?)
    ensures OnlyTask(s.tasks, L.Effect(s, a).tasks, a.t)
  {
    hide L.SwapFiles, L.InsertFile, L.RecordCold;
  }

  lemma MovesOne(s: L.Sys, t: nat, st: L.Store, task: L.Task)
    ensures OnlyTask(s.tasks, L.Goto(s, t, st, task).tasks, t)
    ensures OnlyTask(s.tasks, L.End(s, t, st).tasks, t)
  {
  }

  lemma StepKeepsTasks(s: L.Sys, a: L.Action)
    ensures OnlyTask(s.tasks, L.Apply(s, a).tasks, a.t)
  {
    hide L.Enabled, L.Effect;
    if L.Enabled(s, a) {
      OtherTasksKept(s, a);
    }
  }

  /** Compaction only rewrites what was registered before. */
  lemma SwapAddsNothing(s: L.Sys, t: nat, now: int)
    requires S.Good(s) && L.Enabled(s, L.CompactSwap(t, now))
    ensures forall e :: T.Flushed(L.Apply(s, L.CompactSwap(t, now)).store, e) <==> T.Flushed(s.store, e)
  {
    var task := s.tasks[t];
    var files, contents, metas, chunks := task.files, task.contents, task.metas, task.chunks;
    assert S.TaskOk(s.store, s.tasks[t]);
    S.SwapTask(s, t, task.bucket, files, contents, metas, chunks, now);
    var st' := L.SwapFiles(s.store, L.Ids(files), metas, chunks, now).value;
    RegisteredRows(s.store, L.Ids(files), metas, chunks, st');
    forall e | e in Flatten(chunks) ensures T.Flushed(s.store, e) {
      T.DedupIsSubset(Flatten(contents), Flatten(chunks), e);
      T.ReadRows(s.store, files, contents, e);
      var id :| id in L.Ids(files) && e in s.store.origin[id].rows;
    }
  }

  lemma BackgroundAddsNothing(s: L.Sys, a: L.Action)
    requires S.Good(s) && !a.FlushInsert?
    ensures forall e :: T.Flushed(L.Apply(s, a).store, e) <==> T.Flushed(s.store, e)
  {
    if L.Enabled(s, a) {
      if a.CompactSwap? {
        SwapAddsNothing(s, a.t, a.now);
      } else {
        OriginKept(s, a);
      }
    }
  }

  lemma OriginKept(s: L.Sys, a: L.Action)
    requires L.Enabled(s, a) && !a.FlushInsert? && !a.CompactSwap?
    ensures L.Effect(s, a).store.origin == s.store.origin
  {
    hide L.Enabled;
  }

  lemma BackgroundSound(log: Log, l: Limits, w: World, a: L.Action)
    requires Sound(log, l, w) && Enabled(log, w, Background(a))
    ensures Sound(log, l, Effect(log, l, w, Background(a)))
  {
    hide S.Good, T.NoLoss, FeedSound, T.Flushed, L.Apply, IsMessage;
    var sys := L.Apply(w.sys, a);
    S.StepKeepsGood(w.sys, a);
    T.StepKeepsNoLoss(w.sys, a);
    BackgroundAddsNothing(w.sys, a);
    StepKeepsTasks(w.sys, a);
    SysSound(log, l, w, sys, w.flushing);
  }

  lemma StepSound(log: Log, l: Limits, w: World, a: Action)
    requires Sound(log, l, w)
    ensures Sound(log, l, Apply(log, l, w, a))
  {
    hide Sound, Enabled;
    if Enabled(log, w, a) {
      match a
      case On(p, step) => OnStepSound(log, l, w, p, step);
      case FlushWrite(p, k, t, m) => FlushWriteSound(log, l, w, p, k, t, m);
      case FlushFinish(t) => FlushFinishSound(log, l, w, t);
      case FlushAbort(t) => FlushAbortSound(log, l, w, t);
      case Background(b) => BackgroundSound(log, l, w, b);
      case Crash => RestartedSound(log, l, w);
    }
  }

  lemma OnStepSound(log: Log, l: Limits, w: World, p: int, a: FeedAction)
    requires Sound(log, l, w) && Enabled(log, w, On(p, a))
    ensures Sound(log, l, Effect(log, l, w, On(p, a)))
  {
    hide Sound, FeedEnabled, FeedStep;
    OnSound(log, l, w, p, a);
  }

  lemma InitSound(log: Log, l: Limits)
    ensures Sound(log, l, Init(log))
  {
    T.EveryRunKeepsAll([]);
    hide C.Inv, S.Good;
    assert L.Run(L.INIT, []) == L.INIT;
    forall p | p in log {
      RestartSound(log, l, L.INIT.store, p, 0);
    }
  }

  lemma {:induction false} EveryRunSound(log: Log, l: Limits, schedule: seq<Action>)
    ensures Sound(log, l, Run(log, l, Init(log), schedule))
  {
    hide Sound, Apply;
    if schedule == [] {
      InitSound(log, l);
    } else {
      EveryRunSound(log, l, schedule[..|schedule| - 1]);
      StepSound(log, l, Run(log, l, Init(log), schedule[..|schedule| - 1]), Last(schedule));
    }
  }
}
