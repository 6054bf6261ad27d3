/** What the system promises about the messages of a topic, across crashes and restarts. */
module DeliveryTheorems {
  import opened Base
  import opened Dedup
  import opened Batching
  import opened Catalog
  import opened Compaction
  import opened Delivery
  import C = Consumer
  import CT = ConsumerTheorems
  import L = Lifecycle
  import S = LifecycleSafety
  import T = LifecycleTheorems

  // ----- Everything below the broker's offset has been flushed -----

  lemma SameFeedsSafe(log: Log, l: Limits, w: World, sys: L.Sys)
    requires Safe(log, w) && FlushedGrows(w.sys.store, sys.store)
    ensures forall p :: p in w.feeds ==> FeedSafe(log, sys.store, p, w.feeds[p])
  {
    hide FeedSafe, FlushedGrows;
    forall p | p in w.feeds ensures FeedSafe(log, sys.store, p, w.feeds[p]) {
      FeedKept(log, l, w.sys.store, sys.store, p, w.feeds[p]);
    }
  }

  /** A flush result changes neither the broker's offset nor where assignments began. */
  lemma FinishSafe(log: Log, l: Limits, w: World, t: nat, sys: L.Sys, ok: bool)
    requires Safe(log, w) && FlushedGrows(w.sys.store, sys.store) && t in w.flushing
    ensures Safe(log, Finish(l, w, t, sys, ok))
  {
    hide FlushedGrows, C.Apply, AllFlushed;
    SameFeedsSafe(log, l, w, sys);
  }

  lemma OnSafe(log: Log, l: Limits, w: World, p: int, a: FeedAction)
    requires Sound(log, l, w) && Safe(log, w) && Enabled(log, w, On(p, a)) && Careful(l, w, On(p, a))
    ensures Safe(log, Effect(log, l, w, On(p, a)))
  {
    hide FeedSound, FeedSafe, CarefulStep, FeedEnabled, FeedStep, S.Good, FlushingOk;
    FeedStepSafe(log, l, w.sys.store, p, w.feeds[p], a);
  }

  lemma SysStepGrows(s: L.Sys, a: L.Action)
    requires S.Good(s)
    ensures FlushedGrows(s.store, L.Apply(s, a).store)
  {
    hide S.Good, L.Apply;
    if a.FlushInsert? && L.Enabled(s, a) {
      InsertRegisters(s, a.t);
    } else if !a.FlushInsert? {
      BackgroundAddsNothing(s, a);
    } else {
      assert L.Apply(s, a) == s by {
        DisabledStays(s, a);
      }
    }
  }

  lemma DisabledStays(s: L.Sys, a: L.Action)
    requires !L.Enabled(s, a)
    ensures L.Apply(s, a) == s
  {
    hide L.Enabled;
  }

  lemma CrashSafe(log: Log, l: Limits, w: World)
    requires Safe(log, w)
    ensures Safe(log, Effect(log, l, w, Crash))
  {
    hide AllFlushed;
  }

  lemma StepSafe(log: Log, l: Limits, w: World, a: Action)
    requires Sound(log, l, w) && Safe(log, w) && Careful(l, w, a)
    ensures Safe(log, Apply(log, l, w, a))
  {
    hide Safe, FlushedGrows, Careful, L.Apply, S.Good, FeedSound, FlushingOk;
    if Enabled(log, w, a) {
      match a
      case On(p, step) => OnSafe(log, l, w, p, step);
      case FlushWrite(p, k, t, m) =>
        SystemSafe(log, l, w, L.FlushWrite(t, m, w.feeds[p].part.hist.batches[k].events), w.flushing[t := (p, k)]);
      case FlushFinish(t) =>
        InsertRegisters(w.sys, t);
        SysStepGrows(w.sys, L.FlushInsert(t));
        FinishSafe(log, l, w, t, L.Apply(w.sys, L.FlushInsert(t)), true);
      case FlushAbort(t) =>
        SysStepGrows(w.sys, L.Abort(t));
        FinishSafe(log, l, w, t, L.Apply(w.sys, L.Abort(t)), false);
      case Background(b) => SystemSafe(log, l, w, b, w.flushing);
      case Crash => CrashSafe(log, l, w);
    }
  }

  lemma SystemSafe(log: Log, l: Limits, w: World, a: L.Action, flushing: map<nat, (int, nat)>)
    requires S.Good(w.sys) && Safe(log, w)
    ensures Safe(log, World(L.Apply(w.sys, a), w.feeds, flushing))
  {
    hide S.Good, FlushedGrows, FeedSafe, L.Apply;
    SysStepGrows(w.sys, a);
    SameFeedsSafe(log, l, w, L.Apply(w.sys, a));
  }

  lemma {:induction false} CarefulRunIsSafe(log: Log, l: Limits, schedule: seq<Action>)
    requires CarefulRun(log, l, schedule)
    ensures Safe(log, Run(log, l, Init(log), schedule))
  {
    hide Sound, Apply, Careful;
    if schedule != [] {
      var n := |schedule| - 1;
      CarefulPrefix(log, l, schedule, n);
      CarefulRunIsSafe(log, l, schedule[..n]);
      EveryRunSound(log, l, schedule[..n]);
      StepSafe(log, l, Run(log, l, Init(log), schedule[..n]), schedule[n]);
    }
  }

  lemma {:induction false} CarefulPrefix(log: Log, l: Limits, schedule: seq<Action>, n: nat)
    requires CarefulRun(log, l, schedule) && n <= |schedule|
    ensures CarefulRun(log, l, schedule[..n])
  {
    hide Careful, Run;
    forall i | 0 <= i < n ensures Careful(l, Run(log, l, Init(log), schedule[..n][..i]), schedule[..n][i]) {
      assert schedule[..n][..i] == schedule[..i];
    }
  }

  // ----- Exactly once -----

  /** Position i, and no other, holds the key of e, and the row there is e. */
  ghost predicate OnlyRow(view: seq<Event>, i: nat, e: Event) {
    i < |view| && view[i] == e && forall j :: 0 <= j < |view| && view[j].key == e.key ==> j == i
  }

  /** No file that holds e was ever listed as expired. */
  ghost predicate Spared(st: L.Store, e: Event) {
    forall id :: id in st.expired && id in st.origin ==> e !in st.origin[id].rows
  }

  lemma SparedIsRetained(log: Log, st: L.Store, e: Event)
    requires Faithful(log, st) && T.Flushed(st, e) && Spared(st, e)
    ensures T.Retained(st, e)
  {
    hide IsMessage;
    ReplaysAgree(log, st);
    forall id | S.Old(st, id) ensures !T.HasKey(st, id, e.key) {
      forall f | id in st.origin && f in st.origin[id].rows ensures f.key != e.key {
        assert T.Flushed(st, f);
      }
    }
  }

  /** An event that no cutoff in use has passed is spared. */
  lemma RecentIsSpared(st: L.Store, e: Event)
    requires S.OriginOk(st) && T.Recent(st, e.timestamp)
    ensures Spared(st, e)
  {
    hide MetaSound;
    forall id | id in st.expired && id in st.origin ensures e !in st.origin[id].rows {
      if e in st.origin[id].rows {
        T.WithinRange(st, id, e);
      }
    }
  }

  /** In any schedule of fetches, flushes, acknowledgements, rebalances, shutdowns, crashes, and
      steps of compaction, tiering, sweeping and queries, in which an offset is submitted only
      when the batches handed over earlier in its assignment are durable: every decodable message
      below the offset the broker remembers, unless a file holding it was listed as expired, is in
      the deduplicated view of the active files exactly once, however often it was replayed; and
      the view holds nothing but messages of the log. */
  lemma {:induction false} ExactlyOnce(
    log: Log, l: Limits, schedule: seq<Action>, p: int, o: nat, rows: seq<Event>, view: seq<Event>)
    requires CarefulRun(log, l, schedule)
    requires var w := Run(log, l, Init(log), schedule);
             && p in w.feeds && o < w.feeds[p].broker && Decodable(log, p, o)
             && Spared(w.sys.store, Message(log, p, o))
             && T.LiveRows(w.sys.store, rows)
    requires IsDedup(rows, view)
    ensures exists i :: OnlyRow(view, i, log[p][o].value.(key := Key(p, o)))
    ensures forall e :: e in view ==> IsMessage(log, e)
  {
    EveryRunSound(log, l, schedule);
    CarefulRunIsSafe(log, l, schedule);
    hide Run, CarefulRun, S.Good, FlushingOk, FeedSound;
    var w := Run(log, l, Init(log), schedule);
    ViewHoldsMessage(log, w.sys.store, p, o, rows, view);
    ViewIsFaithful(log, w.sys.store, rows, view);
  }

  lemma ViewIsFaithful(log: Log, st: L.Store, rows: seq<Event>, view: seq<Event>)
    requires Faithful(log, st) && T.LiveRows(st, rows) && IsDedup(rows, view)
    ensures forall e :: e in view ==> T.Flushed(st, e) && IsMessage(log, e)
  {
    hide IsMessage;
    forall e | e in view ensures T.Flushed(st, e) {
      T.DedupIsSubset(rows, view, e);
      assert T.Held(st, e);
      var id :| id in st.origin && S.Live(st, id) && e in st.origin[id].rows;
    }
  }

  /** The log itself makes replays consistent: two flushed rows of one key are the same message. */
  lemma ReplaysAgree(log: Log, st: L.Store)
    requires Faithful(log, st)
    ensures T.ReplayConsistent(st)
  {
    hide T.Flushed;
  }

  lemma ViewHoldsMessage(log: Log, st: L.Store, p: int, o: nat, rows: seq<Event>, view: seq<Event>)
    requires Faithful(log, st) && T.NoLoss(st) && T.LiveRows(st, rows) && IsDedup(rows, view)
    requires Decodable(log, p, o) && T.Flushed(st, Message(log, p, o)) && Spared(st, Message(log, p, o))
    ensures exists i :: OnlyRow(view, i, Message(log, p, o))
  {
    hide T.NoLoss, T.LiveRows, T.Flushed, T.Retained, Spared, IsMessage, IsDedup;
    var e := Message(log, p, o);
    ReplaysAgree(log, st);
    SparedIsRetained(log, st, e);
    T.EarliestInView(st, rows, view, e);
    var i :| 0 <= i < |view| && T.IsTheRowOf(st, view, i, e.key);
    ViewIsFaithful(log, st, rows, view);
    assert view[i] in view;
    assert OnlyRow(view, i, e);
  }

  // ----- When results are handled in hand-over order -----

  predicate NoFailure(schedule: seq<Action>) {
    forall a :: a in schedule ==> !a.FlushAbort? && (a.On? ==> !a.step.FlushFails?)
  }

  /** No flush fails, and a result is handled only after those of all earlier hand-overs of its
      assignment. */
  ghost predicate OrderlyStep(w: World, a: Action) {
    && NoFailure([a])
    && (a.On? && (a.step.Ack? || a.step.ShutdownCommit?) && HasBatch(w, a.p, a.step.k) ==>
          EarlierAcked(w.feeds[a.p].part.hist.batches, a.step.k))
  }

  ghost predicate EarlierAcked(batches: seq<C.Batch>, k: nat)
    requires k < |batches|
  {
    forall i :: 0 <= i < k && batches[i].epoch == batches[k].epoch ==> batches[i].acked
  }

  ghost predicate OrderlyRun(log: Log, l: Limits, schedule: seq<Action>) {
    forall i :: 0 <= i < |schedule| ==> OrderlyStep(Run(log, l, Init(log), schedule[..i]), schedule[i])
  }

  ghost predicate NoneFailed(batches: seq<C.Batch>) {
    forall k :: 0 <= k < |batches| ==> batches[k].status != C.Failed
  }

  ghost predicate NeverFailed(w: World) {
    forall p :: p in w.feeds ==> NoneFailed(w.feeds[p].part.hist.batches)
  }

  lemma StepNeverFails(l: Limits, p: C.Part, a: C.Action)
    requires NoneFailed(p.hist.batches) && !(a.Done? && !a.ok)
    ensures NoneFailed(C.Apply(l, p, a).hist.batches)
  {
    hide C.InOrder;
  }

  lemma FeedStepNeverFails(log: Log, l: Limits, p: int, f: Feed, a: FeedAction)
    requires NoneFailed(f.part.hist.batches) && FeedEnabled(log, p, f, a) && !a.FlushFails?
    ensures NoneFailed(FeedStep(log, l, p, f, a).part.hist.batches)
  {
    hide C.Apply, NoneFailed;
    forall c: C.Action | !(c.Done? && !c.ok) {
      StepNeverFails(l, f.part, c);
    }
  }

  lemma OrderlyNeverFails(log: Log, l: Limits, w: World, a: Action)
    requires Sound(log, l, w) && NeverFailed(w) && OrderlyStep(w, a)
    ensures NeverFailed(Apply(log, l, w, a))
  {
    hide C.Apply, NoneFailed, FeedStep, FeedEnabled, FeedSound, S.Good, L.Apply, FlushingOk;
    assert a in [a];
    if Enabled(log, w, a) {
      if a.On? {
        FeedStepNeverFails(log, l, a.p, w.feeds[a.p], a.step);
      } else if a.FlushFinish? {
        InsertRegisters(w.sys, a.t);
        var (p, k) := w.flushing[a.t];
        if p in w.feeds {
          StepNeverFails(l, w.feeds[p].part, C.Done(k, true));
        }
      } else if a.Crash? {
        NothingFailed([]);
      }
    }
  }

  lemma NothingFailed(batches: seq<C.Batch>)
    requires batches == []
    ensures NoneFailed(batches)
  {
  }

  /** Only the batch itself being durable can make it submit. */
  lemma SubmitsDurable(l: Limits, f: Feed, a: C.Action, k: nat)
    requires (a == C.Ack(k) || a == C.ShutdownCommit(k)) && Submits(l, f, a)
    ensures k < |f.part.hist.batches| && f.part.hist.batches[k].status == C.Durable
  {
  }

  lemma AckedMeansDurable(l: Limits, p: C.Part, k: nat)
    requires C.Inv(l, p) && k < |p.hist.batches| && p.hist.batches[k].status == C.Durable
    requires NoneFailed(p.hist.batches) && EarlierAcked(p.hist.batches, k)
    ensures CT.EarlierAllDurable(p.hist, k)
  {
    hide C.BufferOk, C.CommitsOk, C.Wakeable, C.Ordered;
    CT.InOrderAcksAreSafe(p, k);
  }

  lemma OrderlyIsCareful(log: Log, l: Limits, w: World, a: Action)
    requires Sound(log, l, w) && NeverFailed(w) && OrderlyStep(w, a)
    ensures Careful(l, w, a)
  {
    hide C.Inv, C.Apply, NoGaps, PositionOk, DurableFlushed, S.Good, FlushingOk;
    hide NoneFailed, CT.EarlierAllDurable, EarlierAcked, Submits;
    if a.On? && a.p in w.feeds && (a.step.Ack? || a.step.ShutdownCommit?) {
      var f := w.feeds[a.p];
      var c := if a.step.Ack? then C.Ack(a.step.k) else C.ShutdownCommit(a.step.k);
      if Submits(l, f, c) {
        SubmitsDurable(l, f, c, a.step.k);
        AckedMeansDurable(l, f.part, a.step.k);
      }
    }
  }

  lemma {:induction false} OrderlyRunsAreCareful(log: Log, l: Limits, schedule: seq<Action>)
    requires OrderlyRun(log, l, schedule)
    ensures CarefulRun(log, l, schedule)
    ensures NeverFailed(Run(log, l, Init(log), schedule))
  {
    hide Sound, Apply, Careful, OrderlyStep, NoneFailed;
    if schedule == [] {
      NothingFailed([]);
    } else {
      var n := |schedule| - 1;
      var w := Run(log, l, Init(log), schedule[..n]);
      OrderlyPrefix(log, l, schedule, n);
      OrderlyRunsAreCareful(log, l, schedule[..n]);
      EveryRunSound(log, l, schedule[..n]);
      OrderlyNeverFails(log, l, w, schedule[n]);
      OrderlyIsCareful(log, l, w, schedule[n]);
      CarefulSnoc(log, l, schedule, n);
    }
  }

  lemma {:induction false} OrderlyPrefix(log: Log, l: Limits, schedule: seq<Action>, n: nat)
    requires OrderlyRun(log, l, schedule) && n <= |schedule|
    ensures OrderlyRun(log, l, schedule[..n])
  {
    hide OrderlyStep, Run;
    forall i | 0 <= i < n ensures OrderlyStep(Run(log, l, Init(log), schedule[..n][..i]), schedule[..n][i]) {
      assert schedule[..n][..i] == schedule[..i];
    }
  }

  lemma {:induction false} CarefulSnoc(log: Log, l: Limits, schedule: seq<Action>, n: nat)
    requires |schedule| == n + 1 && CarefulRun(log, l, schedule[..n])
    requires Careful(l, Run(log, l, Init(log), schedule[..n]), schedule[n])
    ensures CarefulRun(log, l, schedule)
  {
    hide Careful, Run;
    forall i | 0 <= i < n ensures Careful(l, Run(log, l, Init(log), schedule[..i]), schedule[i]) {
      assert schedule[..n][..i] == schedule[..i];
      assert schedule[..n][i] == schedule[i];
    }
  }

  /** With no failing flush and results handled in hand-over order, delivery is exactly once. */
  lemma {:induction false} OrderlyExactlyOnce(
    log: Log, l: Limits, schedule: seq<Action>, p: int, o: nat, rows: seq<Event>, view: seq<Event>)
    requires OrderlyRun(log, l, schedule)
    requires var w := Run(log, l, Init(log), schedule);
             && p in w.feeds && o < w.feeds[p].broker && Decodable(log, p, o)
             && Spared(w.sys.store, Message(log, p, o))
             && T.LiveRows(w.sys.store, rows)
    requires IsDedup(rows, view)
    ensures exists i :: OnlyRow(view, i, log[p][o].value.(key := Key(p, o)))
    ensures forall e :: e in view ==> IsMessage(log, e)
  {
    hide Run, OrderlyRun, CarefulRun;
    OrderlyRunsAreCareful(log, l, schedule);
    ExactlyOnce(log, l, schedule, p, o, rows, view);
  }

  // ----- When they are not: loss -----

  /** Message o of partition p is below the broker's offset, was not flushed, and nothing on its
      way to a flush carries it. */
  ghost predicate Gone(log: Log, w: World, p: int, o: nat) {
    && p in w.feeds && Decodable(log, p, o) && !T.Flushed(w.sys.store, Message(log, p, o))
    && PassedBy(w.feeds[p], o)
  }

  predicate PassedBy(f: Feed, o: nat) {
    && f.broker > o && (f.pos.Some? ==> f.pos.value > o)
    && forall j :: 0 <= j < |f.part.hist.received| ==> f.part.hist.received[j].event.key.offset > o
  }

  lemma ReceivedStays(l: Limits, p: C.Part, a: C.Action)
    requires !a.Receive?
    ensures C.Apply(l, p, a).hist.received == p.hist.received
  {
  }

  lemma BatchesPassedBy(l: Limits, f: Feed, k: nat, o: nat)
    requires C.Inv(l, f.part) && PassedBy(f, o) && k < |f.part.hist.batches|
    ensures f.part.hist.batches[k].upTo > o
  {
    CT.LastPosition(f.part.hist, k);
  }

  lemma PassedByStays(log: Log, l: Limits, st: L.Store, p: int, f: Feed, a: FeedAction, o: nat)
    requires FeedSound(log, l, st, p, f) && PassedBy(f, o) && FeedEnabled(log, p, f, a)
    ensures PassedBy(FeedStep(log, l, p, f, a), o)
  {
    hide C.Inv, C.Apply, NoGaps, PositionOk, DurableFlushed;
    forall c: C.Action | !c.Receive? {
      ReceivedStays(l, f.part, c);
    }
    match a
    case Fetch(t0, t1, saturated) =>
      if Decodable(log, p, f.pos.value) {
        NextInOrder(log, p, f);
        ReceiveShape(l, f.part, Message(log, p, f.pos.value), t0, t1, saturated);
      }
    case Ack(k, brokerOk) => BatchesPassedBy(l, f, k, o);
    case ShutdownCommit(k, brokerOk) => BatchesPassedBy(l, f, k, o);
    case _ =>
  }

  /** No batch of any partition holds a message that was passed by. */
  lemma NotInBatch(log: Log, l: Limits, w: World, p: int, o: nat, q: int, k: nat)
    requires Sound(log, l, w) && Gone(log, w, p, o) && q in w.feeds && k < |w.feeds[q].part.hist.batches|
    ensures Message(log, p, o) !in w.feeds[q].part.hist.batches[k].events
  {
    hide C.Inv, PositionOk, DurableFlushed, S.Good, FlushingOk, IsMessage, T.Flushed;
    var f := w.feeds[q];
    if Message(log, p, o) in f.part.hist.batches[k].events {
      BatchesAreMessages(log, l, w.sys.store, q, f, k, Message(log, p, o));
    }
  }

  lemma StepStaysGone(log: Log, l: Limits, w: World, a: Action, p: int, o: nat)
    requires Sound(log, l, w) && Gone(log, w, p, o)
    ensures Gone(log, Apply(log, l, w, a), p, o)
  {
    hide FeedSound, S.Good, C.Apply, L.Apply, T.Flushed, FeedStep, FeedEnabled, PassedBy;
    if Enabled(log, w, a) {
      match a
      case On(q, step) =>
        if q == p {
          PassedByStays(log, l, w.sys.store, p, w.feeds[p], step, o);
        }
      case FlushWrite(q, k, t, m) =>
        BackgroundAddsNothing(w.sys, L.FlushWrite(t, m, w.feeds[q].part.hist.batches[k].events));
      case FlushFinish(t) =>
        InsertRegisters(w.sys, t);
        var (q, k) := w.flushing[t];
        NotInBatch(log, l, w, p, o, q, k);
        FinishPassesBy(l, w, t, L.Apply(w.sys, L.FlushInsert(t)), true, p, o);
      case FlushAbort(t) =>
        BackgroundAddsNothing(w.sys, L.Abort(t));
        FinishPassesBy(l, w, t, L.Apply(w.sys, L.Abort(t)), false, p, o);
      case Background(b) => BackgroundAddsNothing(w.sys, b);
      case Crash => CrashPassesBy(log, l, w, p, o);
    }
  }

  lemma FinishPassesBy(l: Limits, w: World, t: nat, sys: L.Sys, ok: bool, p: int, o: nat)
    requires t in w.flushing && p in w.feeds && PassedBy(w.feeds[p], o)
    ensures var v := Finish(l, w, t, sys, ok); v.sys == sys && p in v.feeds && PassedBy(v.feeds[p], o)
  {
    hide C.Apply;
    ReceivedStays(l, w.feeds[p].part, C.Done(w.flushing[t].1, ok));
  }

  lemma CrashPassesBy(log: Log, l: Limits, w: World, p: int, o: nat)
    requires Gone(log, w, p, o)
    ensures Gone(log, Effect(log, l, w, Crash), p, o)
  {
  }

  lemma {:induction false} LostForever(log: Log, l: Limits, w: World, schedule: seq<Action>, p: int, o: nat)
    requires Sound(log, l, w) && Gone(log, w, p, o)
    ensures Sound(log, l, Run(log, l, w, schedule)) && Gone(log, Run(log, l, w, schedule), p, o)
  {
    hide Sound, Gone, Apply;
    if schedule != [] {
      LostForever(log, l, w, schedule[..|schedule| - 1], p, o);
      StepSound(log, l, Run(log, l, w, schedule[..|schedule| - 1]), Last(schedule));
      StepStaysGone(log, l, Run(log, l, w, schedule[..|schedule| - 1]), Last(schedule), p, o);
    }
  }

  /** The converse of exactly-once delivery, in any reachable world: a message below the broker's
      offset is lost for good by a crash now if and only if it has not been flushed. */
  lemma {:induction false} CrashLosesIff(log: Log, l: Limits, schedule: seq<Action>, p: int, o: nat)
    requires var w := Run(log, l, Init(log), schedule);
             p in w.feeds && o < w.feeds[p].broker && Decodable(log, p, o)
    ensures var w := Run(log, l, Init(log), schedule);
            (forall more ::
               !T.Flushed(Run(log, l, Apply(log, l, w, Crash), more).sys.store, Message(log, p, o)))
            <==> !T.Flushed(w.sys.store, Message(log, p, o))
  {
    EveryRunSound(log, l, schedule);
    var w := Run(log, l, Init(log), schedule);
    var crashed := Apply(log, l, w, Crash);
    StepSound(log, l, w, Crash);
    hide Sound, T.Flushed, Apply, Run, Gone;
    CrashKeepsFiles(log, l, w, Message(log, p, o));
    if T.Flushed(w.sys.store, Message(log, p, o)) {
      NothingMore(log, l, crashed);
    } else {
      CrashedIsGone(log, l, w, p, o);
      forall more ensures !T.Flushed(Run(log, l, crashed, more).sys.store, Message(log, p, o)) {
        LostForever(log, l, crashed, more, p, o);
        GoneIsNotFlushed(log, Run(log, l, crashed, more), p, o);
      }
    }
  }

  lemma NothingMore(log: Log, l: Limits, w: World)
    ensures Run(log, l, w, []) == w
  {
  }

  lemma GoneIsNotFlushed(log: Log, w: World, p: int, o: nat)
    requires Gone(log, w, p, o)
    ensures !T.Flushed(w.sys.store, Message(log, p, o))
  {
    hide T.Flushed;
  }

  lemma CrashKeepsFiles(log: Log, l: Limits, w: World, e: Event)
    ensures T.Flushed(Apply(log, l, w, Crash).sys.store, e) <==> T.Flushed(w.sys.store, e)
  {
  }

  lemma CrashedIsGone(log: Log, l: Limits, w: World, p: int, o: nat)
    requires p in w.feeds && o < w.feeds[p].broker && Decodable(log, p, o)
    requires !T.Flushed(w.sys.store, Message(log, p, o))
    ensures Gone(log, Apply(log, l, w, Crash), p, o)
  {
    CrashKeepsFiles(log, l, w, Message(log, p, o));
    hide T.Flushed;
  }

  lemma {:induction false} RunSnoc(log: Log, l: Limits, w: World, schedule: seq<Action>, a: Action)
    ensures Run(log, l, w, schedule + [a]) == Apply(log, l, Run(log, l, w, schedule), a)
  {
    hide Apply;
    assert (schedule + [a])[..|schedule|] == schedule;
  }

  /** One message fetched and then handed over: at once if it fills the batch, by age otherwise. */
  lemma FetchAndPoll(log: Log, l: Limits, p: int, f: Feed) returns (g: Feed)
    requires f.pos.Some? && Decodable(log, p, f.pos.value) && C.Buffered(f.part) == []
    requires C.InOrder(f.part.hist, Message(log, p, f.pos.value))
    requires f.part.entry.buf.None? || f.part.entry.buf == Some(EMPTY_BUF)
    ensures g == FeedStep(log, l, p, FeedStep(log, l, p, f, Fetch(0, 0, false)), PollAge(l.maxAgeMs, false))
    ensures g.pos == Some(f.pos.value + 1) && g.broker == f.broker && g.part.entry.buf == Some(EMPTY_BUF)
    ensures g.part.entry.committed == f.part.entry.committed && g.part.hist.commits == f.part.hist.commits
    ensures g.part.hist.epoch == f.part.hist.epoch
    ensures var e := Message(log, p, f.pos.value);
            && g.part.hist.received == f.part.hist.received + [C.Received(e, f.part.hist.epoch)]
            && g.part.hist.batches == C.Spawn(f.part.hist, [e], f.pos.value + 1).batches
  {
    hide C.InOrder;
    var o := f.pos.value;
    var e := Message(log, p, o);
    var mid := FeedStep(log, l, p, f, Fetch(0, 0, false));
    g := FeedStep(log, l, p, mid, PollAge(l.maxAgeMs, false));
    assert C.Enabled(f.part, C.Receive(e, 0, 0, false));
    assert [] + [e] == [e];
  }

  /** Messages 0 and 1 are handed over to two flush tasks. */
  ghost predicate TwoHandedOver(log: Log, w: World, p: int)
    requires Decodable(log, p, 0) && Decodable(log, p, 1)
  {
    && w.sys == L.INIT && w.flushing == map[] && p in w.feeds
    && var f := w.feeds[p];
       && f.broker == 0 && f.part.entry.committed == None && f.part.hist.commits == [] && f.part.hist.epoch == 0
       && f.part.hist.batches == [
            C.Batch(0, [Message(log, p, 0)], 0, 1, C.InFlight, false),
            C.Batch(1, [Message(log, p, 1)], 0, 2, C.InFlight, false)]
  }

  lemma HandOverTwo(log: Log, l: Limits, p: int) returns (schedule: seq<Action>)
    requires Decodable(log, p, 0) && Decodable(log, p, 1)
    ensures NoFailure(schedule)
    ensures TwoHandedOver(log, Run(log, l, Init(log), schedule), p)
  {
    hide FeedStep, C.InOrder, Run;
    var f := AssignStep(FRESH);
    NothingYet(log, p, f);
    var g := FetchAndPoll(log, l, p, f);
    OneYet(log, p, g);
    var h := FetchAndPoll(log, l, p, g);
    schedule := [On(p, Assign)];
    assert Run(log, l, Init(log), schedule) == Put(Init(log), p, f) by {
      StartAssigns(log, l, p);
    }
    schedule := FetchesAndPolls(log, l, schedule, p, f);
    schedule := FetchesAndPolls(log, l, schedule, p, g);
  }

  lemma NothingYet(log: Log, p: int, f: Feed)
    requires Decodable(log, p, 0) && f.part.hist.received == []
    ensures C.InOrder(f.part.hist, Message(log, p, 0))
  {
  }

  lemma OneYet(log: Log, p: int, f: Feed)
    requires Decodable(log, p, 0) && Decodable(log, p, 1)
    requires f.part.hist.received == [C.Received(Message(log, p, 0), 0)]
    ensures C.InOrder(f.part.hist, Message(log, p, 1))
  {
  }

  lemma StartAssigns(log: Log, l: Limits, p: int)
    requires p in log
    ensures Run(log, l, Init(log), [On(p, Assign)]) == Put(Init(log), p, AssignStep(FRESH))
  {
    RunSnoc(log, l, Init(log), [], On(p, Assign));
    assert [] + [On(p, Assign)] == [On(p, Assign)];
  }

  lemma {:induction false} FetchesAndPolls(
    log: Log, l: Limits, schedule: seq<Action>, p: int, f: Feed) returns (more: seq<Action>)
    requires var w := Run(log, l, Init(log), schedule); p in w.feeds && w.feeds[p] == f
    requires f.pos.Some? && Decodable(log, p, f.pos.value)
    ensures NoFailure(schedule) ==> NoFailure(more)
    ensures var w := Run(log, l, Init(log), schedule);
            Run(log, l, Init(log), more)
            == Put(w, p, FeedStep(log, l, p, FeedStep(log, l, p, f, Fetch(0, 0, false)), PollAge(l.maxAgeMs, false)))
  {
    hide FeedStep, Run;
    var fetch, poll := On(p, Fetch(0, 0, false)), On(p, PollAge(l.maxAgeMs, false));
    RunSnoc(log, l, Init(log), schedule, fetch);
    RunSnoc(log, l, Init(log), schedule + [fetch], poll);
    more := schedule + [fetch] + [poll];
  }

  /** The metadata of the flushed file that holds just e; its hour label plays no part here. */
  function MetaAt(e: Event, uuid: nat): Meta {
    OneRow(Local(e.service, "", uuid), e)
  }

  /** The second flush task finishes first. */
  lemma FlushSecond(log: Log, l: Limits, w: World, p: int) returns (v: World)
    requires Sound(log, l, w) && Decodable(log, p, 0) && Decodable(log, p, 1) && TwoHandedOver(log, w, p)
    ensures v == Apply(log, l, Apply(log, l, w, FlushWrite(p, 1, 0, MetaAt(Message(log, p, 1), 0))), FlushFinish(0))
    ensures p in v.feeds && forall e :: T.Flushed(v.sys.store, e) <==> e == Message(log, p, 1)
    ensures var f := w.feeds[p];
            v.feeds[p] == f.(part := f.part.(hist := f.part.hist.(
              batches := f.part.hist.batches[1 := f.part.hist.batches[1].(status := C.Durable)])))
  {
    hide S.Good, FeedSound, T.NoLoss, Faithful, MetaSound;
    var e, f := Message(log, p, 1), w.feeds[p];
    OneRowIsSound(Local(e.service, "", 0), e);
    var write := FlushWrite(p, 1, 0, MetaAt(e, 0));
    assert L.FreshFile(w.sys.store, MetaAt(e, 0), [e]);
    assert Enabled(log, w, write);
    var u := Apply(log, l, w, write);
    assert u.sys.store.origin == map[] && u.flushing == map[0 := (p, 1)];
    StepSound(log, l, w, write);
    InsertRegisters(u.sys, 0);
    v := Apply(log, l, u, FlushFinish(0));
  }

  lemma {:induction false} RunFour(
    log: Log, l: Limits, w: World, schedule: seq<Action>, a: Action, b: Action, c: Action, d: Action)
    ensures Run(log, l, w, schedule + [a] + [b] + [c] + [d]) ==
            Apply(log, l, Apply(log, l, Apply(log, l, Apply(log, l, Run(log, l, w, schedule), a), b), c), d)
  {
    hide Run, Apply;
    RunSnoc(log, l, w, schedule, a);
    RunSnoc(log, l, w, schedule + [a], b);
    RunSnoc(log, l, w, schedule + [a] + [b], c);
    RunSnoc(log, l, w, schedule + [a] + [b] + [c], d);
  }

  /** The schedule of the loss, and the state it leads to. */
  lemma LoseFirst(log: Log, l: Limits, p: int) returns (schedule: seq<Action>)
    requires Decodable(log, p, 0) && Decodable(log, p, 1)
    ensures NoFailure(schedule) && Gone(log, Run(log, l, Init(log), schedule), p, 0)
  {
    hide Run, Sound, Apply, Gone, TwoHandedOver;
    schedule := HandOverTwo(log, l, p);
    EveryRunSound(log, l, schedule);
    var w := Run(log, l, Init(log), schedule);
    TwoBatches(log, w, p);
    var v := FlushSecond(log, l, w, p);
    AckThenCrash(log, l, v, p);
    var write, finish, ack := FlushWrite(p, 1, 0, MetaAt(Message(log, p, 1), 0)), FlushFinish(0), On(p, Ack(1, true));
    RunFour(log, l, Init(log), schedule, write, finish, ack, Crash);
    schedule := schedule + [write] + [finish] + [ack] + [Crash];
  }

  lemma TwoBatches(log: Log, w: World, p: int)
    requires Decodable(log, p, 0) && Decodable(log, p, 1) && TwoHandedOver(log, w, p)
    ensures p in w.feeds && w.feeds[p].broker == 0 && w.feeds[p].part.entry.committed == None
    ensures var b := w.feeds[p].part.hist.batches;
            |b| == 2 && b[1] == C.Batch(1, [Message(log, p, 1)], 0, 2, C.InFlight, false)
  {
  }

  /** Two flushes of one partition run at once and the later one finishes first: its result
      commits past the message of the earlier one, and if the process stops then, that message is
      never flushed, whatever happens afterwards, although it is below the committed offset. This
      happens under any limits, and although no flush fails. */
  lemma OutOfOrderCommitLoses(log: Log, l: Limits, p: int) returns (schedule: seq<Action>)
    requires Decodable(log, p, 0) && Decodable(log, p, 1)
    ensures NoFailure(schedule)
    ensures forall more: seq<Action> ::
              var w := Run(log, l, Run(log, l, Init(log), schedule), more);
              p in w.feeds && w.feeds[p].broker > 0 && !T.Flushed(w.sys.store, Message(log, p, 0))
  {
    hide Run, Sound;
    schedule := LoseFirst(log, l, p);
    EveryRunSound(log, l, schedule);
    forall more: seq<Action>
      ensures var u := Run(log, l, Run(log, l, Init(log), schedule), more);
              p in u.feeds && u.feeds[p].broker > 0 && !T.Flushed(u.sys.store, Message(log, p, 0))
    {
      LostForever(log, l, Run(log, l, Init(log), schedule), more, p, 0);
    }
  }

  lemma AckThenCrash(log: Log, l: Limits, w: World, p: int)
    requires Decodable(log, p, 0) && Decodable(log, p, 1) && p in w.feeds
    requires forall e :: T.Flushed(w.sys.store, e) <==> e == Message(log, p, 1)
    requires var f := w.feeds[p];
             && f.broker == 0 && f.part.entry.committed == None && |f.part.hist.batches| == 2
             && f.part.hist.batches[1] == C.Batch(1, [Message(log, p, 1)], 0, 2, C.Durable, false)
    ensures Gone(log, Apply(log, l, Apply(log, l, w, On(p, Ack(1, true))), Crash), p, 0)
  {
    hide T.Flushed;
    var f := w.feeds[p];
    var g := FeedStep(log, l, p, f, Ack(1, true));
    assert Submits(l, f, C.Ack(1));
    assert g.broker == 2;
  }
}
