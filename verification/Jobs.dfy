/** The async query jobs: submission under a per-client cap, workers under a semaphore, DELETE. */
module Jobs {
  import opened Base

  datatype JobState = Queued | Running | Complete(resultCount: nat) | Failed(error: string) | Cancelled

  /** `cancel` says whether the job's cancellation token is set. */
  datatype Job = Job(state: JobState, cancel: bool, client: int)

  datatype Answer = NoContent | Conflict | NotFound

  // ----- What the handlers do to the job store under its lock -----

  function QueuedOf(entries: map<nat, Job>, client: int): set<nat> {
    set id | id in entries && entries[id].state == Queued && entries[id].client == client
  }

  function Enqueue(entries: map<nat, Job>, id: nat, client: int): map<nat, Job> {
    entries[id := Job(Queued, false, client)]
  }

  function MarkRunning(entries: map<nat, Job>, id: nat): map<nat, Job> {
    if id in entries then entries[id := entries[id].(state := Running)] else entries
  }

  function StoreResult(entries: map<nat, Job>, id: nat, result: JobState): map<nat, Job> {
    if id in entries && entries[id].state != Cancelled
    then entries[id := entries[id].(state := result)] else entries
  }

  function DeleteAnswer(entries: map<nat, Job>, id: nat): Answer {
    if id !in entries then NotFound
    else if entries[id].state == Queued || entries[id].state == Running then NoContent
    else Conflict
  }

  function Cancel(entries: map<nat, Job>, id: nat): map<nat, Job> {
    if DeleteAnswer(entries, id) == NoContent
    then entries[id := entries[id].(state := Cancelled, cancel := true)] else entries
  }

  /** No entry but that of id differs. */
  predicate OnlyAt(before: map<nat, Job>, after: map<nat, Job>, id: nat) {
    after - {id} == before - {id}
  }

  class JobStore {
    var entries: map<nat, Job>

    constructor ()
      ensures entries == map[]
    {
      entries := map[];
    }

    /** How many jobs of the client are queued. */
    method CountQueued(client: int) returns (n: nat)
      ensures n == |QueuedOf(entries, client)|
    {
      n := 0;
      var rest := entries.Keys;
      ghost var counted: set<nat> := {};
      while rest != {}
        invariant rest <= entries.Keys && n == |counted|
        invariant counted == set id | id in QueuedOf(entries, client) && id !in rest
      {
        var id :| id in rest;
        if entries[id].state == Queued && entries[id].client == client {
          n, counted := n + 1, counted + {id};
        }
        rest := rest - {id};
      }
      assert counted == QueuedOf(entries, client);
    }

    method AdmitSubmission(client: int, cap: nat) returns (ok: bool)
      ensures ok <==> |QueuedOf(entries, client)| < cap
    {
      var queued := CountQueued(client);
      ok := queued < cap;
    }

    method InsertJob(id: nat, client: int)
      modifies this
      ensures entries == Enqueue(old(entries), id, client)
      ensures OnlyAt(old(entries), entries, id) && id in entries && entries[id] == Job(Queued, false, client)
    {
      entries := entries[id := Job(Queued, false, client)];
    }

    /** The submission handler when no other request comes between its two critical sections. */
    method Submit(id: nat, client: int, cap: nat) returns (ok: bool)
      modifies this
      ensures ok <==> |QueuedOf(old(entries), client)| < cap
      ensures entries == if ok then Enqueue(old(entries), id, client) else old(entries)
    {
      ok := AdmitSubmission(client, cap);
      if ok {
        InsertJob(id, client);
      }
    }

    method SetRunning(id: nat)
      modifies this
      ensures entries == MarkRunning(old(entries), id)
      ensures OnlyAt(old(entries), entries, id) && (id in entries <==> id in old(entries))
      ensures id in entries ==> entries[id] == Job(Running, old(entries)[id].cancel, old(entries)[id].client)
    {
      if id in entries {
        entries := entries[id := entries[id].(state := Running)];
      }
    }

    /** The result goes into the entry as it is, unless DELETE came first. */
    method WriteBack(id: nat, result: JobState)
      modifies this
      ensures entries == StoreResult(old(entries), id, result)
      ensures OnlyAt(old(entries), entries, id) && (id in entries <==> id in old(entries))
      ensures id in entries ==>
                var was := old(entries)[id];
                entries[id] == Job(if was.state == Cancelled then Cancelled else result, was.cancel, was.client)
    {
      if id in entries {
        if entries[id].state != Cancelled {
          entries := entries[id := entries[id].(state := result)];
        }
      }
    }

    method DeleteJob(id: nat) returns (answer: Answer)
      modifies this
      ensures answer == DeleteAnswer(old(entries), id)
      ensures entries == Cancel(old(entries), id)
      ensures OnlyAt(old(entries), entries, id) && (answer != NoContent ==> entries == old(entries))
      ensures answer == NotFound <==> id !in old(entries)
      ensures answer == NoContent <==> id in old(entries) && old(entries)[id].state in {Queued, Running}
      ensures answer == NoContent ==> id in entries && entries[id] == Job(Cancelled, true, old(entries)[id].client)
    {
      if id !in entries {
        return NotFound;
      }
      match entries[id].state
      case Queued =>
        entries := entries[id := entries[id].(cancel := true, state := Cancelled)];
        answer := NoContent;
      case Running =>
        entries := entries[id := entries[id].(cancel := true, state := Cancelled)];
        answer := NoContent;
      case Complete(_) => answer := Conflict;
      case Failed(_) => answer := Conflict;
      case Cancelled => answer := Conflict;
    }
  }

  // ----- The state machine -----

  /** Where a job's worker stands. Both selects are biased: they look at the token first and at
      the permit, or the query, only when the token was not set at that moment. */
  datatype Worker =
    | Waiting
    | AskingPermit
    | Admitted
    | Selecting
    | PollingQuery
    | Finishing(result: JobState)
    | Releasing
    | Done

  /** `passed` holds the submissions between check and insert, with their clients; `answered` the
      jobs whose DELETE was answered 204; `returned` what the queries of the jobs have returned. */
  datatype Server = Server(
    jobs: map<nat, Job>, workers: map<nat, Worker>, available: nat, passed: map<nat, int>, answered: set<nat>,
    returned: map<nat, JobState>)

  /** Limits, and how many submissions of one client may be under way at once. */
  datatype Config = Config(permits: nat, cap: nat, concurrency: nat)

  datatype Action =
    | SubmitCheck(r: nat, client: int)
    | SubmitInsert(r: nat, id: nat)
    | LookAtToken(id: nat)
    | AskPermit(id: nat)
    | SetRunning(id: nat)
    | PollQuery(id: nat, outcome: Option<JobState>)
    | WriteBack(id: nat)
    | Release(id: nat)
    | Delete(id: nat)

  function Start(c: Config): Server {
    Server(map[], map[], c.permits, map[], {}, map[])
  }

  function PassedOf(s: Server, client: int): set<nat> {
    set r | r in s.passed && s.passed[r] == client
  }

  predicate At(s: Server, id: nat, w: Worker) {
    id in s.workers && s.workers[id] == w
  }

  /** A finished query, a failed one, or a timeout. */
  predicate IsOutcome(result: JobState) {
    result.Complete? || result.Failed?
  }

  predicate Enabled(c: Config, s: Server, a: Action) {
    match a
    case SubmitCheck(r, client) => r !in s.passed && |PassedOf(s, client)| < c.concurrency
    case SubmitInsert(r, id) => r in s.passed && id !in s.jobs
    case LookAtToken(id) => (At(s, id, Waiting) || At(s, id, Selecting)) && id in s.jobs
    case AskPermit(id) => At(s, id, AskingPermit)
    case SetRunning(id) => At(s, id, Admitted)
    case PollQuery(id, outcome) => At(s, id, PollingQuery) && (outcome.Some? ==> IsOutcome(outcome.value))
    case WriteBack(id) => id in s.workers && s.workers[id].Finishing?
    case Release(id) => At(s, id, Releasing)
    case Delete(id) => true
  }

  function MoveTo(s: Server, id: nat, w: Worker): Server {
    s.(workers := s.workers[id := w])
  }

  function Effect(c: Config, s: Server, a: Action): Server
    requires Enabled(c, s, a)
  {
    match a
    case SubmitCheck(r, client) =>
      if |QueuedOf(s.jobs, client)| < c.cap then s.(passed := s.passed[r := client]) else s
    case SubmitInsert(r, id) =>
      MoveTo(s.(jobs := Enqueue(s.jobs, id, s.passed[r]), passed := s.passed - {r}), id, Waiting)
    case LookAtToken(id) =>
      if s.workers[id] == Waiting then MoveTo(s, id, if s.jobs[id].cancel then Done else AskingPermit)
      else MoveTo(s, id, if s.jobs[id].cancel then Finishing(Cancelled) else PollingQuery)
    case AskPermit(id) =>
      if s.available > 0 then MoveTo(s.(available := s.available - 1), id, Admitted) else MoveTo(s, id, Waiting)
    case SetRunning(id) => MoveTo(s.(jobs := MarkRunning(s.jobs, id)), id, Selecting)
    case PollQuery(id, outcome) =>
      (match outcome
       case None => MoveTo(s, id, Selecting)
       case Some(result) => MoveTo(s.(returned := s.returned[id := result]), id, Finishing(result)))
    case WriteBack(id) => MoveTo(s.(jobs := StoreResult(s.jobs, id, s.workers[id].result)), id, Releasing)
    case Release(id) => MoveTo(s.(available := s.available + 1), id, Done)
    case Delete(id) =>
      s.(jobs := Cancel(s.jobs, id),
         answered := if DeleteAnswer(s.jobs, id) == NoContent then s.answered + {id} else s.answered)
  }

  function Apply(c: Config, s: Server, a: Action): Server {
    if Enabled(c, s, a) then Effect(c, s, a) else s
  }

  function Run(c: Config, s: Server, schedule: seq<Action>): Server {
    if schedule == [] then s else Apply(c, Run(c, s, schedule[..|schedule| - 1]), Last(schedule))
  }

  // ----- Cancellation -----

  /** How a job's state, token and worker fit together. Without a cancellation the worker alone
      decides; with one, the state is Cancelled except between the worker's overwrite by Running
      and its own writing of Cancelled, and in that interval it does not look at the query. */
  predicate JobOk(j: Job, w: Worker) {
    if j.cancel then
      && (j.state == Cancelled || (j.state == Running && (w == Selecting || w == Finishing(Cancelled))))
      && (w.Finishing? ==> IsOutcome(w.result) || w.result == Cancelled)
    else
      match w
      case Waiting => j.state == Queued
      case AskingPermit => j.state == Queued
      case Admitted => j.state == Queued
      case Selecting => j.state == Running
      case PollingQuery => j.state == Running
      case Finishing(result) => j.state == Running && IsOutcome(result)
      case Releasing => IsOutcome(j.state)
      case Done => IsOutcome(j.state)
  }

  predicate EntryOk(s: Server, id: nat) {
    && (id in s.jobs <==> id in s.workers)
    && (id in s.answered ==> id in s.jobs)
    && (id in s.jobs ==> JobOk(s.jobs[id], s.workers[id]) && (id in s.answered <==> s.jobs[id].cancel))
  }

  ghost predicate JobsOk(s: Server) {
    forall id :: EntryOk(s, id)
  }

  predicate WorkerStep(a: Action, id: nat) {
    (a.LookAtToken? || a.AskPermit? || a.SetRunning? || a.PollQuery? || a.WriteBack? || a.Release?) && a.id == id
  }

  lemma OthersUntouched(c: Config, s: Server, a: Action, id: nat)
    requires Enabled(c, s, a) && (a.SubmitCheck? || a.id != id) && EntryOk(s, id)
    ensures EntryOk(Effect(c, s, a), id)
  {
    hide JobOk, Enabled, QueuedOf;
  }

  lemma WorkerStepOk(c: Config, s: Server, a: Action, id: nat)
    requires Enabled(c, s, a) && WorkerStep(a, id) && EntryOk(s, id)
    ensures EntryOk(Effect(c, s, a), id)
  {
  }

  lemma RequestOk(c: Config, s: Server, a: Action, id: nat)
    requires Enabled(c, s, a) && (a.SubmitInsert? || a.Delete?) && a.id == id && EntryOk(s, id)
    ensures EntryOk(Effect(c, s, a), id)
  {
  }

  lemma StepKeepsJobs(c: Config, s: Server, a: Action)
    requires JobsOk(s)
    ensures JobsOk(Apply(c, s, a))
  {
    hide EntryOk, Enabled, Effect;
    if Enabled(c, s, a) {
      forall id ensures EntryOk(Effect(c, s, a), id) {
        if a.SubmitCheck? || a.id != id {
          OthersUntouched(c, s, a, id);
        } else if WorkerStep(a, id) {
          WorkerStepOk(c, s, a, id);
        } else {
          RequestOk(c, s, a, id);
        }
      }
    }
  }

  lemma {:induction false} EveryRunKeepsJobs(c: Config, schedule: seq<Action>)
    ensures JobsOk(Run(c, Start(c), schedule))
  {
    hide Apply;
    if schedule != [] {
      EveryRunKeepsJobs(c, schedule[..|schedule| - 1]);
      StepKeepsJobs(c, Run(c, Start(c), schedule[..|schedule| - 1]), Last(schedule));
    }
  }

  /** Once a DELETE was answered 204 the job is never Complete or Failed, whatever its query
      does, and it is Cancelled for good when its worker is done with it; and no job is ever
      Cancelled without such a DELETE. */
  lemma {:induction false} CancellationIsFinal(c: Config, schedule: seq<Action>, id: nat)
    ensures var s := Run(c, Start(c), schedule);
            && (id in s.answered ==>
                  && id in s.jobs && id in s.workers && !IsOutcome(s.jobs[id].state)
                  && (s.workers[id] == Releasing || s.workers[id] == Done ==> s.jobs[id].state == Cancelled))
            && (id in s.jobs && s.jobs[id].state == Cancelled ==> id in s.answered)
  {
    EveryRunKeepsJobs(c, schedule);
    assert EntryOk(Run(c, Start(c), schedule), id);
  }

  /** Complete and Failed are final: later steps, DELETE included, do not change them. */
  lemma {:induction false} OutcomesAreFinal(c: Config, s: Server, more: seq<Action>, id: nat)
    requires JobsOk(s) && id in s.jobs && IsOutcome(s.jobs[id].state)
    ensures var t := Run(c, s, more); JobsOk(t) && id in t.jobs && t.jobs[id] == s.jobs[id]
  {
    hide Apply, JobsOk;
    if more != [] {
      OutcomesAreFinal(c, s, more[..|more| - 1], id);
      var t := Run(c, s, more[..|more| - 1]);
      StepKeepsJobs(c, t, Last(more));
      OutcomeStays(c, t, Last(more), id);
    }
  }

  lemma OutcomeStays(c: Config, s: Server, a: Action, id: nat)
    requires JobsOk(s) && id in s.jobs && IsOutcome(s.jobs[id].state)
    ensures id in Apply(c, s, a).jobs && Apply(c, s, a).jobs[id] == s.jobs[id]
  {
    hide QueuedOf;
    assert EntryOk(s, id);
  }

  /** A query returns once, and what it returned is what the worker brings back. */
  predicate ResultOk(s: Server, id: nat) {
    && (id in s.returned ==>
          && id in s.workers && IsOutcome(s.returned[id])
          && (s.workers[id].Finishing? || s.workers[id] == Releasing || s.workers[id] == Done))
    && (id in s.workers && s.workers[id].Finishing? && s.workers[id].result != Cancelled ==>
          id in s.returned && s.returned[id] == s.workers[id].result)
    && (id in s.workers && s.workers[id].Finishing? && s.workers[id].result == Cancelled ==> id !in s.returned)
    && (id in s.jobs && IsOutcome(s.jobs[id].state) ==> id in s.returned && s.returned[id] == s.jobs[id].state)
  }

  lemma StepKeepsResult(c: Config, s: Server, a: Action, id: nat)
    requires EntryOk(s, id) && ResultOk(s, id)
    ensures ResultOk(Apply(c, s, a), id)
  {
    hide QueuedOf;
  }

  lemma {:induction false} EveryRunKeepsResult(c: Config, schedule: seq<Action>, id: nat)
    ensures EntryOk(Run(c, Start(c), schedule), id) && ResultOk(Run(c, Start(c), schedule), id)
  {
    hide Apply, EntryOk, ResultOk;
    EveryRunKeepsJobs(c, schedule);
    if schedule != [] {
      EveryRunKeepsResult(c, schedule[..|schedule| - 1], id);
      StepKeepsResult(c, Run(c, Start(c), schedule[..|schedule| - 1]), Last(schedule), id);
    } else {
      NothingReturned(c, id);
    }
  }

  lemma NothingReturned(c: Config, id: nat)
    ensures ResultOk(Start(c), id)
  {
  }

  /** Over every run: a job that no DELETE cancelled ends with exactly what its query returned, a row
      count or an error; and no job shows an outcome that its query did not return. */
  lemma {:induction false} OutcomeIsReturned(c: Config, schedule: seq<Action>, id: nat)
    ensures var s := Run(c, Start(c), schedule);
            && (id in s.jobs && id !in s.answered && (At(s, id, Releasing) || At(s, id, Done)) ==>
                  id in s.returned && s.jobs[id].state == s.returned[id])
            && (id in s.jobs && IsOutcome(s.jobs[id].state) ==>
                  id in s.returned && s.jobs[id].state == s.returned[id])
  {
    EveryRunKeepsResult(c, schedule, id);
    hide Run;
  }

  /** What a query has returned is not replaced: it returns once. */
  lemma {:induction false} QueryReturnsOnce(c: Config, schedule: seq<Action>, a: Action, id: nat)
    requires id in Run(c, Start(c), schedule).returned
    ensures var s := Run(c, Start(c), schedule);
            id in Apply(c, s, a).returned && Apply(c, s, a).returned[id] == s.returned[id]
  {
    EveryRunKeepsResult(c, schedule, id);
    hide Run, QueuedOf;
  }

  /** What a step makes of a job's entry in any reachable state: the client stays, the token is only
      set, by the DELETE that cancels, and the state moves only by the worker of the job and that
      DELETE. A new entry is queued, with its token unset, for the client whose check passed. */
  lemma {:induction false} JobAfterStep(c: Config, schedule: seq<Action>, a: Action, id: nat)
    requires Enabled(c, Run(c, Start(c), schedule), a)
    ensures var s := Run(c, Start(c), schedule);
            var t := Apply(c, s, a);
            if id in s.jobs then
              && id in t.jobs && t.jobs[id].client == s.jobs[id].client
              && (t.jobs[id].cancel <==>
                    s.jobs[id].cancel || (a == Delete(id) && s.jobs[id].state in {Queued, Running}))
              && t.jobs[id].state == StateAfter(s, a, id)
            else if a.SubmitInsert? && a.id == id then
              id in t.jobs && t.jobs[id] == Job(Queued, false, s.passed[a.r])
            else id !in t.jobs
  {
    EveryRunKeepsJobs(c, schedule);
    var s := Run(c, Start(c), schedule);
    assert EntryOk(s, id);
    hide Run, JobsOk, QueuedOf;
  }

  function StateAfter(s: Server, a: Action, id: nat): JobState
    requires id in s.jobs
  {
    var state := s.jobs[id].state;
    if a == SetRunning(id) then Running
    else if a == WriteBack(id) && state == Running && id in s.workers && s.workers[id].Finishing?
    then s.workers[id].result
    else if a == Delete(id) && state in {Queued, Running} then Cancelled
    else state
  }

  /** The answers of DELETE, by what happens to the job later: 204 exactly when the job existed and
      had not ended or been cancelled. */
  lemma {:induction false} DeleteAnswers(c: Config, schedule: seq<Action>, id: nat)
    ensures var s := Run(c, Start(c), schedule);
            && (DeleteAnswer(s.jobs, id) == NotFound <==> id !in s.workers)
            && (DeleteAnswer(s.jobs, id) == Conflict ==> Apply(c, s, Delete(id)) == s)
            && (DeleteAnswer(s.jobs, id) == Conflict && id !in s.answered ==> IsOutcome(s.jobs[id].state))
            && (DeleteAnswer(s.jobs, id) == NoContent ==> Apply(c, s, Delete(id)).jobs[id].state == Cancelled)
  {
    EveryRunKeepsJobs(c, schedule);
    assert EntryOk(Run(c, Start(c), schedule), id);
  }

  /** How many steps a worker with a set token has left at most. */
  function StepsLeft(w: Worker): nat {
    match w
    case Done => 0
    case Releasing => 1
    case Waiting => 1
    case Finishing(_) => 2
    case Selecting => 3
    case PollingQuery => 4
    case Admitted => 4
    case AskingPermit => 5
  }

  /** A cancelled job's worker cannot linger: each of its steps brings it closer to its end, no
      other step moves it, and until it has ended one of its steps can be taken. */
  lemma CancelledWorkerEnds(c: Config, s: Server, a: Action, id: nat)
    requires JobsOk(s) && id in s.answered
    ensures id in s.workers
    ensures Enabled(c, s, a) && WorkerStep(a, id) ==>
              StepsLeft(Apply(c, s, a).workers[id]) < StepsLeft(s.workers[id])
    ensures !WorkerStep(a, id) ==> id in Apply(c, s, a).workers && Apply(c, s, a).workers[id] == s.workers[id]
    ensures s.workers[id] != Done ==> exists b :: WorkerStep(b, id) && Enabled(c, s, b)
  {
    hide QueuedOf, PassedOf;
    assert EntryOk(s, id);
    if s.workers[id] != Done {
      var step := NextStep(c, s, id);
    }
  }

  /** Until a worker has ended, it can take a step. */
  lemma NextStep(c: Config, s: Server, id: nat) returns (step: Action)
    requires EntryOk(s, id) && id in s.workers && s.workers[id] != Done
    ensures WorkerStep(step, id) && Enabled(c, s, step)
  {
    hide JobOk, QueuedOf, PassedOf;
    step :=
      match s.workers[id]
      case Waiting => LookAtToken(id)
      case AskingPermit => AskPermit(id)
      case Admitted => SetRunning(id)
      case Selecting => LookAtToken(id)
      case PollingQuery => PollQuery(id, None)
      case Finishing(_) => WriteBack(id)
      case _ => Release(id);
  }

  lemma {:induction false} RunSnoc(c: Config, s: Server, schedule: seq<Action>, a: Action)
    ensures Run(c, s, schedule + [a]) == Apply(c, Run(c, s, schedule), a)
  {
    hide Apply;
    assert (schedule + [a])[..|schedule|] == schedule;
  }

  /** A job whose worker has its permit when DELETE comes. */
  function CancelledInTime(c: Config): Server
    requires c.permits > 0
  {
    Server(map[0 := Job(Cancelled, true, 0)], map[0 := Admitted], c.permits - 1, map[], {0}, map[])
  }

  lemma ReachCancelledInTime(c: Config) returns (schedule: seq<Action>)
    requires c.permits > 0 && c.cap > 0 && c.concurrency > 0
    ensures Run(c, Start(c), schedule) == CancelledInTime(c)
  {
    var s0 := Start(c);
    assert PassedOf(s0, 0) == {} && QueuedOf(s0.jobs, 0) == {};
    var s1 := Apply(c, s0, SubmitCheck(0, 0));
    var s2 := Apply(c, s1, SubmitInsert(0, 0));
    var s3 := Apply(c, s2, LookAtToken(0));
    var s4 := Apply(c, s3, AskPermit(0));
    assert Apply(c, s4, Delete(0)) == CancelledInTime(c);
    hide Apply;
    RunSnoc(c, s0, [], SubmitCheck(0, 0));
    RunSnoc(c, s0, [] + [SubmitCheck(0, 0)], SubmitInsert(0, 0));
    schedule := [] + [SubmitCheck(0, 0)] + [SubmitInsert(0, 0)];
    RunSnoc(c, s0, schedule, LookAtToken(0));
    RunSnoc(c, s0, schedule + [LookAtToken(0)], AskPermit(0));
    RunSnoc(c, s0, schedule + [LookAtToken(0)] + [AskPermit(0)], Delete(0));
    schedule := schedule + [LookAtToken(0)] + [AskPermit(0)] + [Delete(0)];
  }

  /** Cancelled is not final step by step: the worker overwrites it once, and then restores it. */
  lemma CancelledIsOverwrittenOnce(c: Config) returns (schedule: seq<Action>)
    requires c.permits > 0 && c.cap > 0 && c.concurrency > 0
    ensures Run(c, Start(c), schedule).jobs == map[0 := Job(Cancelled, true, 0)]
    ensures Run(c, Start(c), schedule + [SetRunning(0)]).jobs == map[0 := Job(Running, true, 0)]
    ensures Run(c, Start(c), schedule + [SetRunning(0)] + [LookAtToken(0)] + [WriteBack(0)]).jobs ==
            map[0 := Job(Cancelled, true, 0)]
  {
    hide Run;
    schedule := ReachCancelledInTime(c);
    RunSnoc(c, Start(c), schedule, SetRunning(0));
    RunSnoc(c, Start(c), schedule + [SetRunning(0)], LookAtToken(0));
    RunSnoc(c, Start(c), schedule + [SetRunning(0)] + [LookAtToken(0)], WriteBack(0));
  }

  // ----- Admission -----

  predicate HoldsPermit(w: Worker) {
    w == Admitted || w == Selecting || w == PollingQuery || w.Finishing? || w == Releasing
  }

  function Holders(s: Server): set<nat> {
    set id | id in s.workers && HoldsPermit(s.workers[id])
  }

  function RunningJobs(s: Server): set<nat> {
    set id | id in s.jobs && s.jobs[id].state == Running
  }

  predicate PermitsOk(c: Config, s: Server) {
    |Holders(s)| + s.available == c.permits
  }

  lemma HoldersMove(s: Server, t: Server, id: nat, w: Worker)
    requires t.workers == s.workers[id := w]
    ensures |Holders(t)| == |Holders(s)| + (if HoldsPermit(w) then 1 else 0)
                            - (if id in s.workers && HoldsPermit(s.workers[id]) then 1 else 0)
  {
    assert Holders(t) == if HoldsPermit(w) then Holders(s) + {id} else Holders(s) - {id};
  }

  lemma StepKeepsPermits(c: Config, s: Server, a: Action)
    requires JobsOk(s) && PermitsOk(c, s)
    ensures PermitsOk(c, Apply(c, s, a))
  {
    hide JobOk, Holders, QueuedOf;
    if Enabled(c, s, a) && !a.SubmitCheck? && !a.Delete? {
      var t := Effect(c, s, a);
      assert EntryOk(s, a.id);
      HoldersMove(s, t, a.id, t.workers[a.id]);
    } else {
      assert Holders(Apply(c, s, a)) == Holders(s) by {
        SameHolders(s, Apply(c, s, a));
      }
    }
  }

  lemma SameHolders(s: Server, t: Server)
    requires s.workers == t.workers
    ensures Holders(s) == Holders(t)
  {
  }

  lemma {:induction false} SubsetSize(a: set<nat>, b: set<nat>)
    requires a <= b
    ensures |a| <= |b|
  {
    if a != {} {
      var x :| x in a;
      SubsetSize(a - {x}, b - {x});
    }
  }

  lemma {:induction false} EveryRunKeepsPermits(c: Config, schedule: seq<Action>)
    ensures JobsOk(Run(c, Start(c), schedule)) && PermitsOk(c, Run(c, Start(c), schedule))
  {
    hide Apply, JobsOk;
    EveryRunKeepsJobs(c, schedule);
    if schedule == [] {
      assert Holders(Start(c)) == {};
    } else {
      EveryRunKeepsPermits(c, schedule[..|schedule| - 1]);
      StepKeepsPermits(c, Run(c, Start(c), schedule[..|schedule| - 1]), Last(schedule));
    }
  }

  /** Permits are conserved, every running job holds one, and so at most `permits` jobs run. */
  lemma {:induction false} RunningJobsHoldPermits(c: Config, schedule: seq<Action>)
    ensures var s := Run(c, Start(c), schedule);
            && |Holders(s)| + s.available == c.permits
            && RunningJobs(s) <= Holders(s) && |RunningJobs(s)| <= c.permits
  {
    EveryRunKeepsPermits(c, schedule);
    var s := Run(c, Start(c), schedule);
    hide Run;
    forall id | id in RunningJobs(s) ensures id in Holders(s) {
      assert EntryOk(s, id);
    }
    SubsetSize(RunningJobs(s), Holders(s));
  }

  /** Queued jobs of the client and its submissions past the check. */
  function Load(s: Server, client: int): nat {
    |QueuedOf(s.jobs, client)| + |PassedOf(s, client)|
  }

  /** The most a client can have queued or past the check. */
  function Bound(c: Config): nat {
    if c.cap == 0 then 0 else c.cap - 1 + c.concurrency
  }

  predicate LoadOk(c: Config, s: Server, client: int) {
    Load(s, client) <= Bound(c) && |PassedOf(s, client)| <= c.concurrency
  }

  lemma PassedMore(s: Server, t: Server, r: nat, who: int, client: int)
    requires r !in s.passed && t.passed == s.passed[r := who]
    ensures |PassedOf(t, client)| == |PassedOf(s, client)| + if who == client then 1 else 0
  {
    assert PassedOf(t, client) == if who == client then PassedOf(s, client) + {r} else PassedOf(s, client);
  }

  lemma CheckKeepsLoad(c: Config, s: Server, r: nat, who: int, client: int)
    requires LoadOk(c, s, client) && Enabled(c, s, SubmitCheck(r, who))
    ensures LoadOk(c, Effect(c, s, SubmitCheck(r, who)), client)
  {
    hide QueuedOf, PassedOf;
    if |QueuedOf(s.jobs, who)| < c.cap {
      PassedMore(s, Effect(c, s, SubmitCheck(r, who)), r, who, client);
    }
  }

  lemma InsertKeepsLoad(c: Config, s: Server, r: nat, id: nat, client: int)
    requires LoadOk(c, s, client) && Enabled(c, s, SubmitInsert(r, id))
    ensures LoadOk(c, Effect(c, s, SubmitInsert(r, id)), client)
  {
    var t := Effect(c, s, SubmitInsert(r, id));
    var mine := s.passed[r] == client;
    assert PassedOf(t, client) == PassedOf(s, client) - {r};
    assert QueuedOf(t.jobs, client) == if mine then QueuedOf(s.jobs, client) + {id} else QueuedOf(s.jobs, client);
    assert mine <==> r in PassedOf(s, client);
  }

  lemma NoMoreQueued(entries: map<nat, Job>, id: nat, j: Job, client: int)
    requires j.state != Queued
    ensures |QueuedOf(entries[id := j], client)| <= |QueuedOf(entries, client)|
  {
    SubsetSize(QueuedOf(entries[id := j], client), QueuedOf(entries, client));
  }

  lemma ChangeKeepsLoad(c: Config, s: Server, a: Action, client: int)
    requires LoadOk(c, s, client) && JobsOk(s)
    requires Enabled(c, s, a) && (a.SetRunning? || a.WriteBack? || a.Delete?)
    ensures LoadOk(c, Effect(c, s, a), client)
  {
    hide QueuedOf;
    var t := Effect(c, s, a);
    assert EntryOk(s, a.id);
    assert PassedOf(t, client) == PassedOf(s, client);
    if t.jobs != s.jobs {
      NoMoreQueued(s.jobs, a.id, t.jobs[a.id], client);
    }
  }

  lemma StepKeepsLoad(c: Config, s: Server, a: Action, client: int)
    requires JobsOk(s) && LoadOk(c, s, client)
    ensures LoadOk(c, Apply(c, s, a), client)
  {
    hide JobsOk, QueuedOf, PassedOf;
    if Enabled(c, s, a) {
      match a
      case SubmitCheck(r, who) => CheckKeepsLoad(c, s, r, who, client);
      case SubmitInsert(r, id) => InsertKeepsLoad(c, s, r, id, client);
      case SetRunning(_) => ChangeKeepsLoad(c, s, a, client);
      case WriteBack(_) => ChangeKeepsLoad(c, s, a, client);
      case Delete(_) => ChangeKeepsLoad(c, s, a, client);
      case _ => SamePassed(s, Effect(c, s, a), client);
    }
  }

  lemma SamePassed(s: Server, t: Server, client: int)
    requires s.passed == t.passed
    ensures PassedOf(s, client) == PassedOf(t, client)
  {
  }

  /** The check and the insert take the lock separately, so the cap alone does not bound the
      queue; the cap together with the client's concurrent submissions does. */
  lemma {:induction false} QueueBound(c: Config, schedule: seq<Action>, client: int)
    ensures LoadOk(c, Run(c, Start(c), schedule), client)
  {
    hide Apply, JobsOk;
    if schedule == [] {
      assert QueuedOf(Start(c).jobs, client) == {} && PassedOf(Start(c), client) == {};
    } else {
      EveryRunKeepsJobs(c, schedule[..|schedule| - 1]);
      QueueBound(c, schedule[..|schedule| - 1], client);
      StepKeepsLoad(c, Run(c, Start(c), schedule[..|schedule| - 1]), Last(schedule), client);
    }
  }

  // ----- The bound is reached -----

  function Below(n: nat): (r: set<nat>)
    ensures |r| == n && forall x: nat :: x in r <==> x < n
  {
    if n == 0 then {} else Below(n - 1) + {n - 1}
  }

  function QueuedJobs(q: nat): map<nat, Job> {
    map id | id in Below(q) :: Job(Queued, false, 0)
  }

  function PassedChecks(p: nat): map<nat, int> {
    map r | r in Below(p) :: 0
  }

  /** Client 0 has q jobs queued and p submissions past the check, and nothing else happened. */
  ghost predicate Piled(s: Server, q: nat, p: nat) {
    s.jobs == QueuedJobs(q) && s.passed == PassedChecks(p)
  }

  lemma PiledCounts(s: Server, q: nat, p: nat)
    requires Piled(s, q, p)
    ensures |QueuedOf(s.jobs, 0)| == q && |PassedOf(s, 0)| == p
  {
    assert QueuedOf(s.jobs, 0) == Below(q);
    assert PassedOf(s, 0) == Below(p);
  }

  lemma OneMoreJob(q: nat)
    ensures q !in QueuedJobs(q) && QueuedJobs(q)[q := Job(Queued, false, 0)] == QueuedJobs(q + 1)
  {
  }

  lemma OneMoreCheck(p: nat)
    ensures p !in PassedChecks(p) && PassedChecks(p)[p := 0] == PassedChecks(p + 1)
    ensures p in PassedChecks(p + 1) && PassedChecks(p + 1)[p] == 0 && PassedChecks(p + 1) - {p} == PassedChecks(p)
  {
  }

  lemma CheckPiles(c: Config, s: Server, q: nat, p: nat)
    requires Piled(s, q, p) && q < c.cap && p < c.concurrency
    ensures Piled(Apply(c, s, SubmitCheck(p, 0)), q, p + 1)
  {
    hide QueuedOf, PassedOf, QueuedJobs, PassedChecks;
    PiledCounts(s, q, p);
    OneMoreCheck(p);
  }

  lemma InsertPiles(c: Config, s: Server, q: nat, p: nat)
    requires Piled(s, q, p + 1)
    ensures Piled(Apply(c, s, SubmitInsert(p, q)), q + 1, p)
  {
    hide QueuedJobs, PassedChecks;
    OneMoreJob(q);
    OneMoreCheck(p);
  }

  /** All checks come before the inserts of the last round, and each of them sees cap - 1 jobs. */
  lemma {:induction false} PileUp(c: Config, q: nat, p: nat) returns (schedule: seq<Action>)
    requires 0 < c.concurrency && 0 < c.cap
    requires if q < c.cap then p <= c.concurrency else q + p == c.cap - 1 + c.concurrency
    ensures Piled(Run(c, Start(c), schedule), q, p)
    decreases q, p
  {
    hide Apply, Run, Piled;
    if q == 0 && p == 0 {
      schedule := [];
      NothingPiled(c);
    } else if p > 0 && q < c.cap {
      var before := PileUp(c, q, p - 1);
      CheckPiles(c, Run(c, Start(c), before), q, p - 1);
      RunSnoc(c, Start(c), before, SubmitCheck(p - 1, 0));
      schedule := before + [SubmitCheck(p - 1, 0)];
    } else {
      var before := PileUp(c, q - 1, p + 1);
      InsertPiles(c, Run(c, Start(c), before), q - 1, p);
      RunSnoc(c, Start(c), before, SubmitInsert(p, q - 1));
      schedule := before + [SubmitInsert(p, q - 1)];
    }
  }

  lemma NothingPiled(c: Config)
    ensures Piled(Run(c, Start(c), []), 0, 0)
  {
  }

  /** The queue cap holds in every run exactly when a client never has two submissions under way
      at once. */
  lemma CapHoldsIff(c: Config)
    requires c.cap > 0 && c.concurrency > 0
    ensures (forall schedule, client :: |QueuedOf(Run(c, Start(c), schedule).jobs, client)| <= c.cap)
            <==> c.concurrency == 1
  {
    hide Run, JobsOk;
    forall schedule, client
      ensures |QueuedOf(Run(c, Start(c), schedule).jobs, client)| <= c.cap - 1 + c.concurrency
    {
      QueueBound(c, schedule, client);
    }
    var schedule := PileUp(c, c.cap - 1 + c.concurrency, 0);
    PiledCounts(Run(c, Start(c), schedule), c.cap - 1 + c.concurrency, 0);
  }
}
