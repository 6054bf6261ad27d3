/** A flush result handled in separate critical sections, with a revocation free to come between:
    when that is still the one-step acknowledgement of the consumer protocol, and when it is not. */
module SplitResult {
  import opened Base
  import opened Batching
  import C = Consumer
  import CT = ConsumerTheorems

  /** Where the main loop stands with the result of batch k. `commit` and `resume` are what it read
      from the store when it checked. */
  datatype Phase =
    | Idle
    | Checked(k: nat, commit: bool, resume: bool)
    | Submitted(k: nat, resume: bool)
    | Recorded(k: nat, resume: bool)

  /** `missed`: the last revocation came between the submission of an offset and its record. */
  datatype State = State(part: C.Part, phase: Phase, missed: bool)

  const INIT := State(C.INIT, Idle, false)

  datatype Action = Other(a: C.Action) | Check(k: nat) | Submit | Record | Resume

  /** While the main loop handles a result, only flushes finish and the callback revokes. */
  predicate Enabled(s: State, a: Action) {
    match a
    case Other(b) => !b.Ack? && C.Enabled(s.part, b) && (b.Done? || b.Revoke? || s.phase.Idle?)
    case Check(k) => s.phase.Idle? && C.Enabled(s.part, C.Ack(k))
    case Submit => s.phase.Checked?
    case Record => s.phase.Submitted?
    case Resume => s.phase.Recorded?
  }

  /** The result has been taken from the channel. */
  function Taken(p: C.Part, k: nat): C.Part
    requires k < |p.hist.batches|
  {
    p.(hist := p.hist.(batches := p.hist.batches[k := p.hist.batches[k].(acked := true)]))
  }

  function UpTo(p: C.Part, k: nat): int
    requires k < |p.hist.batches|
  {
    p.hist.batches[k].upTo
  }

  function SubmitTo(p: C.Part, k: nat): C.Part {
    p.(hist := p.hist.(commits := p.hist.commits + [k]))
  }

  function RecordIn(p: C.Part, upTo: int): C.Part {
    p.(entry := p.entry.(committed := Some(upTo)))
  }

  function ResumeIf(p: C.Part, resume: bool): C.Part {
    p.(entry := p.entry.(paused := p.entry.paused && !resume))
  }

  function Effect(l: Limits, s: State, a: Action): State
    requires Enabled(s, a)
  {
    match a
    case Other(b) =>
      State(C.Apply(l, s.part, b), s.phase, if b.Revoke? then s.phase.Submitted? else s.missed)
    case Check(k) =>
      if s.part.hist.batches[k].status != C.Durable then s.(part := Taken(s.part, k))
      else
        State(Taken(s.part, k),
              Checked(k, UpTo(s.part, k) > GetOr(s.part.entry.committed, 0), C.Resumes(l, s.part)), s.missed)
    case Submit =>
      if s.phase.commit then State(SubmitTo(s.part, s.phase.k), Submitted(s.phase.k, s.phase.resume), s.missed)
      else s.(phase := Recorded(s.phase.k, s.phase.resume))
    case Record =>
      var k := s.phase.k;
      State(if k < |s.part.hist.batches| then RecordIn(s.part, UpTo(s.part, k)) else s.part,
            Recorded(k, s.phase.resume), s.missed)
    case Resume => State(ResumeIf(s.part, s.phase.resume), Idle, s.missed)
  }

  function Apply(l: Limits, s: State, a: Action): State {
    if Enabled(s, a) then Effect(l, s, a) else s
  }

  function Run(l: Limits, s: State, schedule: seq<Action>): State {
    if schedule == [] then s else Apply(l, Run(l, s, schedule[..|schedule| - 1]), Last(schedule))
  }

  // ----- The protocol without the record of commits -----

  /** All of the partition but which offsets were submitted and recorded. */
  function Bare(p: C.Part): C.Part {
    C.Part(p.entry.(committed := None), p.hist.(commits := []))
  }

  /** Recorded offsets are positive. */
  predicate Positive(p: C.Part) {
    p.entry.committed.Some? ==> p.entry.committed.value > 0
  }

  /** What the partition looks like when the result of k is handled up to the phase, and q is the
      partition without that. */
  function Partial(q: C.Part, phase: Phase): C.Part
    requires !phase.Idle? && phase.k < |q.hist.batches|
  {
    var p := Taken(q, phase.k);
    if phase.Checked? then p
    else if phase.Submitted? then SubmitTo(p, phase.k)
    else C.CommitRule(p, phase.k)
  }

  /** The acknowledgement is still to be made in q. */
  ghost predicate Pending(l: Limits, s: State, q: C.Part) {
    && !s.phase.Idle? && C.Enabled(q, C.Ack(s.phase.k)) && q.hist.batches[s.phase.k].status == C.Durable
    && Bare(s.part) == Bare(Taken(q, s.phase.k))
    && (q.entry.paused ==> (s.phase.resume <==> C.Resumes(l, q)))
    && (!s.missed ==> s.part == Partial(q, s.phase) && CommitsAs(s.phase, q))
  }

  predicate CommitsAs(phase: Phase, q: C.Part)
    requires !phase.Idle? && phase.k < |q.hist.batches|
  {
    match phase
    case Checked(k, commit, resume) => commit <==> UpTo(q, k) > GetOr(q.entry.committed, 0)
    case Submitted(k, resume) => UpTo(q, k) > GetOr(q.entry.committed, 0)
    case Recorded(k, resume) => true
  }

  /** The acknowledgement has been made in q; what is left of the handling changes nothing. */
  ghost predicate Over(s: State, q: C.Part) {
    && Bare(s.part) == Bare(q) && (s.phase.Idle? || !q.entry.paused)
    && (s.phase.Checked? ==> !s.phase.commit) && (!s.missed ==> s.part == q && !s.phase.Submitted?)
  }

  /** An offset on its way to the record is positive. */
  predicate PositiveNext(s: State) {
    s.phase.Submitted? || (s.phase.Checked? && s.phase.commit) ==>
      s.phase.k < |s.part.hist.batches| && UpTo(s.part, s.phase.k) > 0
  }

  ghost predicate Related(l: Limits, s: State, q: C.Part) {
    && Positive(s.part) && PositiveNext(s)
    && (Over(s, q) || Pending(l, s, q))
  }

  // ----- Every step is none, one or two steps of the consumer protocol -----

  lemma StaysPositive(l: Limits, p: C.Part, a: C.Action)
    requires Positive(p)
    ensures Positive(C.Apply(l, p, a))
  {
    hide C.InOrder;
  }

  lemma HandedTaken(batches: seq<C.Batch>, k: nat)
    requires k < |batches|
    ensures C.Handed(batches[k := batches[k].(acked := true)]) == C.Handed(batches)
  {
  }

  /** A step that neither reads nor writes the record of commits. */
  lemma BareStep(l: Limits, p: C.Part, q: C.Part, a: C.Action)
    requires Bare(p) == Bare(q) && !a.Ack?
    ensures C.Enabled(p, a) <==> C.Enabled(q, a)
    ensures Bare(C.Apply(l, p, a)) == Bare(C.Apply(l, q, a))
    ensures a.Revoke? ==> C.Apply(l, p, a) == C.Apply(l, q, a)
  {
    hide C.InOrder, Push, Poll, AboveHighWater;
    assert p.hist.received == q.hist.received && p.hist.epoch == q.hist.epoch;
    assert a.Receive? ==> (C.InOrder(p.hist, a.e) <==> C.InOrder(q.hist, a.e)) by {
      SameOrder(p.hist, q.hist);
    }
  }

  lemma SameOrder(h: C.History, k: C.History)
    requires h.received == k.received && h.epoch == k.epoch
    ensures forall e :: C.InOrder(h, e) <==> C.InOrder(k, e)
  {
  }

  lemma BatchesStay(l: Limits, p: C.Part, a: C.Action, k: nat)
    requires k < |p.hist.batches|
    ensures var q := C.Apply(l, p, a); k < |q.hist.batches| && UpTo(q, k) == UpTo(p, k)
  {
    hide C.InOrder;
  }

  lemma OtherKeepsPositive(l: Limits, s: State, a: Action)
    requires Positive(s.part) && PositiveNext(s) && Enabled(s, a) && a.Other?
    ensures Positive(Apply(l, s, a).part) && PositiveNext(Apply(l, s, a))
  {
    hide C.Apply, C.Enabled;
    StaysPositive(l, s.part, a.a);
    if s.phase.Submitted? || (s.phase.Checked? && s.phase.commit) {
      BatchesStay(l, s.part, a.a, s.phase.k);
    }
  }

  lemma MainKeepsPositive(l: Limits, s: State, a: Action)
    requires Positive(s.part) && PositiveNext(s) && Enabled(s, a) && !a.Other?
    ensures Positive(Apply(l, s, a).part) && PositiveNext(Apply(l, s, a))
  {
  }

  lemma NoneOf(l: Limits, q: C.Part)
    ensures C.Run(l, q, []) == q
  {
  }

  lemma OneOf(l: Limits, q: C.Part, a: C.Action)
    ensures C.Run(l, q, [a]) == C.Apply(l, q, a)
  {
    hide C.Apply;
    assert [a][..0] == [];
  }

  lemma TwoOf(l: Limits, q: C.Part, a: C.Action, b: C.Action)
    ensures C.Run(l, q, [a, b]) == C.Apply(l, C.Apply(l, q, a), b)
  {
    hide C.Apply;
    OneOf(l, q, a);
    assert [a, b][..1] == [a];
  }

  lemma CheckSim(l: Limits, s: State, q: C.Part, k: nat) returns (more: seq<C.Action>)
    requires Related(l, s, q) && Enabled(s, Check(k))
    ensures Related(l, Apply(l, s, Check(k)), C.Run(l, q, more))
  {
    hide C.Run;
    MainKeepsPositive(l, s, Check(k));
    NoneOf(l, q);
    OneOf(l, q, C.Ack(k));
    more := if s.part.hist.batches[k].status == C.Durable then [] else [C.Ack(k)];
  }

  lemma SubmitSim(l: Limits, s: State, q: C.Part)
    requires Related(l, s, q) && Enabled(s, Submit)
    ensures Related(l, Apply(l, s, Submit), q)
  {
    MainKeepsPositive(l, s, Submit);
  }

  lemma RecordSim(l: Limits, s: State, q: C.Part)
    requires Related(l, s, q) && Enabled(s, Record)
    ensures Related(l, Apply(l, s, Record), q)
  {
    MainKeepsPositive(l, s, Record);
  }

  lemma ResumeSim(l: Limits, s: State, q: C.Part) returns (more: seq<C.Action>)
    requires Related(l, s, q) && Enabled(s, Resume)
    ensures Related(l, Apply(l, s, Resume), C.Run(l, q, more))
  {
    hide C.Run;
    MainKeepsPositive(l, s, Resume);
    NoneOf(l, q);
    OneOf(l, q, C.Ack(s.phase.k));
    more := if Over(s, q) then [] else [C.Ack(s.phase.k)];
  }

  /** A flush that finishes while the result of another is handled. */
  lemma DoneSim(l: Limits, s: State, q: C.Part, j: nat, ok: bool)
    requires Pending(l, s, q) && C.Enabled(s.part, C.Done(j, ok))
    ensures Pending(l, s.(part := C.Apply(l, s.part, C.Done(j, ok))), C.Apply(l, q, C.Done(j, ok)))
  {
    var k := s.phase.k;
    assert C.Enabled(q, C.Done(j, ok)) && j != k;
    var r := C.DoneStep(q, j, ok);
    assert Taken(r, k).hist.batches == C.DoneStep(Taken(q, k), j, ok).hist.batches;
    assert Bare(C.DoneStep(s.part, j, ok)) == Bare(Taken(r, k));
    if !s.missed {
      assert C.DoneStep(Partial(q, s.phase), j, ok) == Partial(r, s.phase);
    }
  }

  lemma RevokeForgets(l: Limits, p: C.Part, q: C.Part)
    requires p.entry.buf == q.entry.buf && p.entry.pending == q.entry.pending
    requires p.hist.(commits := q.hist.commits, failedSincePause := q.hist.failedSincePause) == q.hist
    ensures C.Apply(l, p, C.Revoke) == C.Apply(l, q, C.Revoke)
    ensures !C.Apply(l, p, C.Revoke).entry.paused
  {
  }

  lemma TakenRevoked(q: C.Part, k: nat)
    requires k < |q.hist.batches|
    ensures k < |C.RevokeStep(q).hist.batches|
    ensures C.RevokeStep(q).hist.batches[k] == q.hist.batches[k]
    ensures C.RevokeStep(Taken(q, k)) == Taken(C.RevokeStep(q), k)
  {
    HandedTaken(q.hist.batches, k);
  }

  /** A revocation comes in before, or after, the result that is being handled. */
  lemma RevokeSim(l: Limits, s: State, q: C.Part) returns (more: seq<C.Action>)
    requires Related(l, s, q)
    ensures Related(l, Apply(l, s, Other(C.Revoke)), C.Run(l, q, more))
  {
    hide C.Run;
    OtherKeepsPositive(l, s, Other(C.Revoke));
    OneOf(l, q, C.Revoke);
    if Over(s, q) {
      RevokeForgets(l, s.part, q);
      more := [C.Revoke];
    } else {
      var k := s.phase.k;
      TwoOf(l, q, C.Ack(k), C.Revoke);
      RevokeForgets(l, s.part, Taken(q, k));
      if s.phase.Checked? && s.phase.commit {
        TakenRevoked(q, k);
        more := [C.Revoke];
      } else {
        RevokeForgets(l, s.part, C.Apply(l, q, C.Ack(k)));
        more := [C.Ack(k), C.Revoke];
      }
    }
  }

  lemma OtherSim(l: Limits, s: State, q: C.Part, a: C.Action) returns (more: seq<C.Action>)
    requires Related(l, s, q) && Enabled(s, Other(a))
    ensures Related(l, Apply(l, s, Other(a)), C.Run(l, q, more))
  {
    if a.Revoke? {
      more := RevokeSim(l, s, q);
    } else {
      hide C.Run;
      OtherKeepsPositive(l, s, Other(a));
      OneOf(l, q, a);
      more := [a];
      if Over(s, q) {
        BareStep(l, s.part, q, a);
        if a.Done? {
          DoneKeepsPause(l, q, a);
        }
      } else {
        DoneSim(l, s, q, a.k, a.ok);
      }
    }
  }

  lemma DoneKeepsPause(l: Limits, q: C.Part, a: C.Action)
    requires a.Done?
    ensures C.Apply(l, q, a).entry == q.entry
  {
  }

  lemma StepSim(l: Limits, s: State, q: C.Part, a: Action) returns (more: seq<C.Action>)
    requires Related(l, s, q)
    ensures Related(l, Apply(l, s, a), C.Run(l, q, more))
  {
    hide Related, C.Run;
    NoneOf(l, q);
    more := [];
    if Enabled(s, a) {
      match a
      case Other(b) => more := OtherSim(l, s, q, b);
      case Check(k) => more := CheckSim(l, s, q, k);
      case Submit => SubmitSim(l, s, q);
      case Record => RecordSim(l, s, q);
      case Resume => more := ResumeSim(l, s, q);
    }
  }

  lemma {:induction false} EveryRunSim(l: Limits, schedule: seq<Action>) returns (atomic: seq<C.Action>)
    ensures Related(l, Run(l, INIT, schedule), C.Run(l, C.INIT, atomic))
  {
    hide Related, C.Run, Apply;
    if schedule == [] {
      atomic := [];
      NoneOf(l, C.INIT);
      StartsRelated(l);
    } else {
      var s := Run(l, INIT, schedule[..|schedule| - 1]);
      atomic := EveryRunSim(l, schedule[..|schedule| - 1]);
      var more := StepSim(l, s, C.Run(l, C.INIT, atomic), Last(schedule));
      CT.RunJoins(l, C.INIT, atomic, more);
      atomic := atomic + more;
    }
  }

  lemma StartsRelated(l: Limits)
    ensures Related(l, INIT, C.INIT)
  {
  }

  // ----- What holds, and what does not -----

  /** Between results, every run of the separate sections is a run of the one-step protocol in all
      but the record of commits; and in that too, unless the last revocation came between the
      submission of an offset and its record. */
  lemma {:induction false} SplitIsAtomic(l: Limits, schedule: seq<Action>) returns (atomic: seq<C.Action>)
    requires Run(l, INIT, schedule).phase.Idle?
    ensures var s := Run(l, INIT, schedule);
            && Bare(s.part) == Bare(C.Run(l, C.INIT, atomic))
            && (!s.missed ==> s.part == C.Run(l, C.INIT, atomic))
  {
    hide Run, C.Run, Bare;
    atomic := EveryRunSim(l, schedule);
  }

  /** In that one case it is not: from any reachable state after a submission, a revocation and the
      rest of the handling lead to a partition that no run of the one-step protocol has. It is the
      partition as revoked, but for an offset that is recorded although nothing was submitted since. */
  lemma {:induction false} MissedIsNotAtomic(l: Limits, schedule: seq<Action>, atomic: seq<C.Action>)
    requires Run(l, INIT, schedule).phase.Submitted?
    ensures var s := Run(l, INIT, schedule);
            var t := Run(l, s, [Other(C.Revoke), Record, Resume]);
            && t.phase.Idle? && t.missed && s.phase.k < |s.part.hist.batches|
            && t.part == RecordIn(C.RevokeStep(s.part), UpTo(s.part, s.phase.k))
            && t.part != C.Run(l, C.INIT, atomic)
  {
    var q := EveryRunSim(l, schedule);
    C.EveryRunKeepsInv(l, atomic);
    hide Run, C.Run;
    var s := Run(l, INIT, schedule);
    ThreeSteps(l, s, Other(C.Revoke), Record, Resume);
    MissedState(l, s);
    RecordedIsSubmitted(l, C.Run(l, C.INIT, atomic));
  }

  lemma RecordedIsSubmitted(l: Limits, p: C.Part)
    requires C.Inv(l, p)
    ensures p.hist.commits == [] ==> p.entry.committed == None
  {
  }

  lemma MissedState(l: Limits, s: State)
    requires s.phase.Submitted? && PositiveNext(s)
    ensures var t := Apply(l, Apply(l, Apply(l, s, Other(C.Revoke)), Record), Resume);
            t == State(RecordIn(C.RevokeStep(s.part), UpTo(s.part, s.phase.k)), Idle, true)
    ensures C.RevokeStep(s.part).hist.commits == []
  {
    hide C.RevokeStep;
    BatchesStay(l, s.part, C.Revoke, s.phase.k);
    RevokedEntry(s.part);
    var u := Apply(l, s, Other(C.Revoke));
    assert u == State(C.RevokeStep(s.part), s.phase, true);
  }

  lemma RevokedEntry(p: C.Part)
    ensures C.RevokeStep(p).entry == C.NO_ENTRY && C.RevokeStep(p).hist.commits == []
  {
  }

  lemma OneStep(l: Limits, s: State, a: Action)
    ensures Run(l, s, [a]) == Apply(l, s, a)
  {
    hide Apply;
    assert [a][..0] == [];
  }

  lemma TwoSteps(l: Limits, s: State, a: Action, b: Action)
    ensures Run(l, s, [a, b]) == Apply(l, Apply(l, s, a), b)
  {
    OneStep(l, s, a);
    hide Apply;
    assert [a, b][..1] == [a];
  }

  lemma ThreeSteps(l: Limits, s: State, a: Action, b: Action, c: Action)
    ensures Run(l, s, [a, b, c]) == Apply(l, Apply(l, Apply(l, s, a), b), c)
  {
    TwoSteps(l, s, a, b);
    hide Apply;
    assert [a, b, c][..2] == [a, b];
  }

  lemma FourSteps(l: Limits, s: State, a: Action, b: Action, c: Action, d: Action)
    ensures Run(l, s, [a, b, c, d]) == Apply(l, Apply(l, Apply(l, Apply(l, s, a), b), c), d)
  {
    ThreeSteps(l, s, a, b, c);
    hide Apply;
    assert [a, b, c, d][..3] == [a, b, c];
  }

  /** Left alone, the sections make up the acknowledgement, from any state between results. */
  lemma {:induction false} UndisturbedIsAck(l: Limits, s: State, k: nat)
    requires s.phase.Idle? && C.Enabled(s.part, C.Ack(k))
    ensures Run(l, s, [Check(k), Submit, Record, Resume]) == s.(part := C.AckStep(l, s.part, k))
  {
    hide Run;
    FourSteps(l, s, Check(k), Submit, Record, Resume);
  }

  // The record of commits

  /** Offsets beyond floor, submitted in increasing order, none of them beyond top. */
  ghost predicate Rising(p: C.Part, floor: int, top: int) {
    && (forall i :: 0 <= i < |p.hist.commits| ==>
          p.hist.commits[i] < |p.hist.batches| && floor < UpTo(p, p.hist.commits[i]) <= top)
    && (forall i, j :: 0 <= i < j < |p.hist.commits| ==> UpTo(p, p.hist.commits[i]) < UpTo(p, p.hist.commits[j]))
  }

  /** The largest offset submitted or recorded since the last revocation, at least. */
  function Top(s: State): int {
    if s.phase.Submitted? && s.phase.k < |s.part.hist.batches| then UpTo(s.part, s.phase.k)
    else GetOr(s.part.entry.committed, 0)
  }

  /** Offsets are submitted in increasing order, and beyond floor; so will the next one. */
  ghost predicate Advancing(s: State, floor: int) {
    && Rising(s.part, floor, Top(s)) && floor <= Top(s)
    && (!s.phase.Idle? ==> s.phase.k < |s.part.hist.batches|)
    && (s.phase.Checked? && s.phase.commit ==> Top(s) < UpTo(s.part, s.phase.k))
  }

  /** What a step of the consumer protocol other than an acknowledgement does to the record. */
  lemma RecordStep(l: Limits, p: C.Part, a: C.Action)
    requires !a.Ack?
    ensures var q := C.Apply(l, p, a);
            && |p.hist.batches| <= |q.hist.batches|
            && (forall k :: 0 <= k < |p.hist.batches| ==> UpTo(q, k) == UpTo(p, k))
            && (if a.Revoke? then q.hist.commits == [] && q.entry.committed == None
                else if a.ShutdownCommit? && C.Enabled(p, a) && UpTo(p, a.k) > GetOr(p.entry.committed, 0)
                then q.hist.commits == p.hist.commits + [a.k] && q.entry.committed == Some(UpTo(p, a.k))
                else q.hist.commits == p.hist.commits && q.entry.committed == p.entry.committed)
  {
    hide C.InOrder;
  }

  lemma RisingMore(p: C.Part, q: C.Part, floor: int, top: int)
    requires Rising(p, floor, top) && |p.hist.batches| <= |q.hist.batches|
    requires forall k :: 0 <= k < |p.hist.batches| ==> UpTo(q, k) == UpTo(p, k)
    ensures q.hist.commits == p.hist.commits ==> forall higher :: top <= higher ==> Rising(q, floor, higher)
    ensures q.hist.commits == [] ==> forall other, higher :: Rising(q, other, higher)
    ensures forall k :: (0 <= k < |p.hist.batches| && q.hist.commits == p.hist.commits + [k]
                         && top < UpTo(p, k) && floor < UpTo(p, k)) ==> Rising(q, floor, UpTo(p, k))
  {
  }

  lemma OtherAdvances(l: Limits, s: State, a: C.Action, floor: int)
    requires Advancing(s, floor) && Enabled(s, Other(a)) && !a.Revoke?
    ensures Advancing(Apply(l, s, Other(a)), floor)
  {
    hide C.Apply, C.InOrder, Rising;
    RecordStep(l, s.part, a);
    RisingMore(s.part, C.Apply(l, s.part, a), floor, Top(s));
  }

  /** A revocation forgets what was recorded, but not what is about to be. */
  lemma RevokeAdvances(l: Limits, s: State, floor: int)
    requires Advancing(s, floor) && PositiveNext(s)
    ensures Advancing(Apply(l, s, Other(C.Revoke)), 0)
  {
    hide C.Apply, Rising;
    RecordStep(l, s.part, C.Revoke);
    RisingMore(s.part, C.Apply(l, s.part, C.Revoke), floor, Top(s));
  }

  lemma MainAdvances(l: Limits, s: State, a: Action, floor: int)
    requires Advancing(s, floor) && Enabled(s, a) && !a.Other?
    ensures Advancing(Apply(l, s, a), floor)
  {
    hide Rising;
    RisingMore(s.part, Apply(l, s, a).part, floor, Top(s));
  }

  lemma StepAdvances(l: Limits, s: State, a: Action, floor: int)
    requires Advancing(s, floor) && PositiveNext(s) && (a == Other(C.Revoke) ==> floor == 0)
    ensures Advancing(Apply(l, s, a), floor)
  {
    hide Advancing, C.Enabled, Effect;
    if Enabled(s, a) {
      if a == Other(C.Revoke) {
        RevokeAdvances(l, s, floor);
      } else if a.Other? {
        OtherAdvances(l, s, a.a, floor);
      } else {
        MainAdvances(l, s, a, floor);
      }
    }
  }

  lemma {:induction false} RunAdvances(l: Limits, s: State, more: seq<Action>, floor: int)
    requires Advancing(s, floor) && PositiveNext(s) && Positive(s.part)
    requires floor == 0 || Other(C.Revoke) !in more
    ensures var t := Run(l, s, more); Advancing(t, floor) && PositiveNext(t) && Positive(t.part)
  {
    hide Advancing, PositiveNext, Positive, Effect, Enabled;
    if more != [] {
      var t := Run(l, s, more[..|more| - 1]);
      assert Last(more) in more;
      RunAdvances(l, s, more[..|more| - 1], floor);
      StepAdvances(l, t, Last(more), floor);
      if Enabled(t, Last(more)) {
        if Last(more).Other? {
          OtherKeepsPositive(l, t, Last(more));
        } else {
          MainKeepsPositive(l, t, Last(more));
        }
      }
    }
  }

  /** Whatever comes between the sections: between two revocations, the offsets submitted strictly
      increase. */
  lemma {:induction false} SplitCommitsAdvance(l: Limits, schedule: seq<Action>)
    ensures var p := Run(l, INIT, schedule).part;
            forall i, j :: 0 <= i < j < |p.hist.commits| ==>
              && p.hist.commits[i] < |p.hist.batches| && p.hist.commits[j] < |p.hist.batches|
              && UpTo(p, p.hist.commits[i]) < UpTo(p, p.hist.commits[j])
  {
    RunAdvances(l, INIT, schedule, 0);
    hide Run;
  }

  /** The offset that a missed revocation leaves on record holds results back: until the next
      revocation nothing up to it is submitted, whatever is flushed and acknowledged. The one-step
      protocol, where a revocation forgets the record, would submit any positive offset. */
  lemma {:induction false} MissedHoldsBack(l: Limits, schedule: seq<Action>, more: seq<Action>)
    requires Run(l, INIT, schedule).phase.Submitted? && Other(C.Revoke) !in more
    ensures var s := Run(l, INIT, schedule);
            var t := Run(l, Run(l, s, [Other(C.Revoke), Record, Resume]), more);
            && s.phase.k < |s.part.hist.batches|
            && forall i :: 0 <= i < |t.part.hist.commits| ==>
                 && t.part.hist.commits[i] < |t.part.hist.batches|
                 && UpTo(t.part, t.part.hist.commits[i]) > UpTo(s.part, s.phase.k)
  {
    RunAdvances(l, INIT, schedule, 0);
    var s := Run(l, INIT, schedule);
    hide Run;
    ThreeSteps(l, s, Other(C.Revoke), Record, Resume);
    MissedState(l, s);
    BatchesStay(l, s.part, C.Revoke, s.phase.k);
    hide C.RevokeStep;
    RunAdvances(l, Run(l, s, [Other(C.Revoke), Record, Resume]), more, UpTo(s.part, s.phase.k));
  }

  // Pausing

  /** The main loop is about to resume the partition. */
  predicate AboutToResume(s: State) {
    !s.phase.Idle? && s.phase.resume
  }

  /** Whatever comes between the sections: a paused partition has buffered events, a result to come, a
      failed flush since the pause, or the main loop is about to resume it. */
  lemma {:induction false} SplitNoLostWakeup(l: Limits, schedule: seq<Action>)
    requires l.maxBytes > 0
    ensures var s := Run(l, INIT, schedule);
            s.part.entry.paused ==>
              || C.Buffered(s.part) != [] || C.SomeAwaited(s.part.hist.batches) || s.part.hist.failedSincePause
              || AboutToResume(s)
  {
    var atomic := EveryRunSim(l, schedule);
    C.EveryRunKeepsInv(l, atomic);
    var s, q := Run(l, INIT, schedule), C.Run(l, C.INIT, atomic);
    hide Run, C.Run, C.CoreOf, Over, Pending, C.Apply, C.SomeAwaited;
    if s.part.entry.paused && !AboutToResume(s) {
      if Over(s, q) {
        OverWakes(l, s, q);
      } else {
        PendingWakes(l, s, q);
      }
    }
  }

  lemma OverWakes(l: Limits, s: State, q: C.Part)
    requires Over(s, q) && C.Wakeable(l, q) && s.part.entry.paused && l.maxBytes > 0
    ensures C.Buffered(s.part) != [] || C.SomeAwaited(s.part.hist.batches) || s.part.hist.failedSincePause
  {
    hide C.SomeAwaited;
  }

  lemma PendingWakes(l: Limits, s: State, q: C.Part)
    requires Pending(l, s, q) && s.part.entry.paused && !AboutToResume(s) && l.maxBytes > 0
    requires C.Inv(l, q)
    ensures C.Buffered(s.part) != [] || C.SomeAwaited(s.part.hist.batches) || s.part.hist.failedSincePause
  {
    hide C.SomeAwaited, C.CoreOf;
    C.StepKeepsInv(l, q, C.Ack(s.phase.k));
  }

  // ----- A run -----

  lemma {:induction false} RunJoins(l: Limits, s: State, a: seq<Action>, b: seq<Action>)
    ensures Run(l, s, a + b) == Run(l, Run(l, s, a), b)
  {
    hide Apply;
    if b == [] {
      assert a + b == a;
    } else {
      RunJoins(l, s, a, b[..|b| - 1]);
      assert (a + b)[..|a + b| - 1] == a + b[..|b| - 1];
    }
  }

  /** e is received, handed over, flushed, and its result checked. */
  function OneDelivery(l: Limits, e: Event, k: nat): seq<Action> {
    [Other(C.Receive(e, 0, 0, false)), Other(C.Tick(l.maxAgeMs, false)), Other(C.Done(k, true)), Check(k)]
  }

  lemma Delivered(l: Limits, s: State, e: Event)
    requires s.phase.Idle? && C.InOrder(s.part.hist, e)
    requires s.part.entry.buf.None? || s.part.entry.buf == Some(EMPTY_BUF)
    ensures var t := Run(l, s, OneDelivery(l, e, |s.part.hist.batches|));
            && t.part.hist == s.part.hist.(
                 received := s.part.hist.received + [C.Received(e, s.part.hist.epoch)],
                 batches := t.part.hist.batches, failedSincePause := t.part.hist.failedSincePause)
            && t.part.entry.buf == Some(EMPTY_BUF) && t.part.entry.committed == s.part.entry.committed
            && t.part.hist.batches == s.part.hist.batches +
                 [C.Batch(C.Handed(s.part.hist.batches), [e], s.part.hist.epoch, e.key.offset + 1, C.Durable, true)]
            && t.phase.Checked? && t.phase.k == |s.part.hist.batches|
            && (t.phase.commit <==> e.key.offset + 1 > GetOr(s.part.entry.committed, 0))
  {
    var k := |s.part.hist.batches|;
    var receive, tick := Other(C.Receive(e, 0, 0, false)), Other(C.Tick(l.maxAgeMs, false));
    FourSteps(l, s, receive, tick, Other(C.Done(k, true)), Check(k));
    hide Run, C.InOrder, C.Handed;
    var u := Apply(l, Apply(l, s, receive), tick);
    assert [] + [e] == [e];
    assert u.part.hist.batches == s.part.hist.batches +
      [C.Batch(C.Handed(s.part.hist.batches), [e], s.part.hist.epoch, e.key.offset + 1, C.InFlight, false)];
    assert u.part.entry.buf == Some(EMPTY_BUF) && u.phase.Idle?;
  }

  /** The offset of a message is submitted, the partition is revoked, and then the offset is recorded.
      When the message is delivered again, flushed and acknowledged, nothing is submitted. */
  lemma RedeliveryIsNotCommitted(l: Limits, e: Event) returns (schedule: seq<Action>)
    requires e.key.offset >= 0
    ensures var p := Run(l, INIT, schedule).part;
            && |p.hist.batches| == 2 && p.hist.batches[1].epoch == p.hist.epoch
            && p.hist.batches[1].events == [e] && p.hist.batches[1].status == C.Durable && p.hist.batches[1].acked
            && p.hist.commits == []
    ensures Run(l, INIT, schedule).phase.Idle?
  {
    Delivered(l, INIT, e);
    var s1 := Run(l, INIT, OneDelivery(l, e, 0));
    var missed := [Submit] + [Other(C.Revoke), Record, Resume];
    RunJoins(l, s1, [Submit], [Other(C.Revoke), Record, Resume]);
    OneStep(l, s1, Submit);
    var s2 := Apply(l, s1, Submit);
    ThreeSteps(l, s2, Other(C.Revoke), Record, Resume);
    MissedState(l, s2);
    var s3 := Run(l, s1, missed);
    Delivered(l, s3, e);
    var s4 := Run(l, s3, OneDelivery(l, e, 1));
    TwoSteps(l, s4, Submit, Resume);
    RunJoins(l, INIT, OneDelivery(l, e, 0), missed);
    RunJoins(l, INIT, OneDelivery(l, e, 0) + missed, OneDelivery(l, e, 1));
    schedule := OneDelivery(l, e, 0) + missed + OneDelivery(l, e, 1);
    RunJoins(l, INIT, schedule, [Submit, Resume]);
    schedule := schedule + [Submit, Resume];
  }
}
