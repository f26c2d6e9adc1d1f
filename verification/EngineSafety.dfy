/** What the durable run engine promises, in every history (workers/run_execution.py,
    application/services/run_execution.py, infrastructure/jobs/postgres.py). */
module EngineSafety {
  import opened Common
  import opened Engine
  import opened EngineInvariant
  import J = Jobs
  import R = Runs

  ghost predicate IsReachable(cfg: J.Config, s: State) {
    exists steps :: Exec(cfg, steps) == s
  }

  /** `t` comes after `s` in some history. */
  ghost predicate LeadsTo(cfg: J.Config, s: State, t: State) {
    exists steps, more :: Exec(cfg, steps) == s && Exec(cfg, steps + more) == t
  }

  lemma ReachableIsGood(cfg: J.Config, s: State)
    requires IsReachable(cfg, s)
    ensures Inv(s)
  {
    var steps :| Exec(cfg, steps) == s;
    Reachable(cfg, steps);
  }

  lemma RunIsGood(cfg: J.Config, s: State, r: nat)
    requires IsReachable(cfg, s) && r < |s.runs|
    ensures RunOk(s, r)
  {
    ReachableIsGood(cfg, s);
  }

  lemma AttemptIsGood(cfg: J.Config, s: State, a: nat)
    requires IsReachable(cfg, s) && a < |s.attempts|
    ensures AttemptOk(s, s.attempts[a])
  {
    ReachableIsGood(cfg, s);
  }

  /** No lost wake-up: a run that still has work to do has a most recent job, and that job has
      not been completed; so it is waiting to be claimed, being worked on, or FAILED. */
  lemma NoLostWakeup(cfg: J.Config, s: State, r: nat)
    requires IsReachable(cfg, s) && r < |s.runs| && !R.Parked(s.runs[r].status)
    ensures LatestJob(s.jobs, r).Some? && !s.jobs[LatestJob(s.jobs, r).value].state.Succeeded?
  {
    RunIsGood(cfg, s, r);
  }

  /** The run row is a projection of the log in every reachable state. */
  lemma StatusIsAlwaysProjection(cfg: J.Config, s: State, r: nat)
    requires IsReachable(cfg, s) && r < |s.runs|
    ensures var run := s.runs[r];
            && !R.PhaseOf(run.log).Illegal?
            && R.ProjectedStatus(run.log) == Some(run.status)
            && R.TerminalEvents(run.log) == (if R.Terminal(run.status) then 1 else 0)
            && (run.finishedAt.Some? <==> R.Terminal(run.status))
            && (run.startedAt.Some? <==> R.Latest(run.log, R.StartedKind).Some?)
            && R.HashesBound(run.log)
  {
    RunIsGood(cfg, s, r);
    R.StatusIsProjection(s.runs[r]);
  }

  lemma PrepareEvolves(s: State, a: nat, now: Time, r: nat)
    requires Inv(s) && r < |s.runs|
    ensures r < |DoPrepare(s, a, now).runs| && R.Evolves(s.runs[r], DoPrepare(s, a, now).runs[r])
  {
    assert RunOk(s, r);
    R.PrepareExecuteKeeps(s.runs[r], now);
    R.PrepareResumeKeeps(s.runs[r]);
  }

  lemma PersistEvolves(s: State, a: nat, now: Time, r: nat)
    requires Inv(s) && r < |s.runs|
    ensures r < |DoPersist(s, a, now).runs| && R.Evolves(s.runs[r], DoPersist(s, a, now).runs[r])
  {
    if At(s, a) && s.attempts[a].pc.Returned? && RunOf(s, a) == Some(r) {
      assert RunOk(s, r) && AttemptOk(s, s.attempts[a]);
      R.PersistOutcomeKeeps(s.runs[r], s.attempts[a].pc.outcome, now);
    }
  }

  lemma FailureEvolves(s: State, a: nat, now: Time, r: nat)
    requires Inv(s) && r < |s.runs|
    ensures r < |DoHandleFailure(s, a, now).runs| && R.Evolves(s.runs[r], DoHandleFailure(s, a, now).runs[r])
  {
    if At(s, a) && s.attempts[a].pc.Raised? && RunOf(s, a) == Some(r) {
      assert RunOk(s, r) && AttemptOk(s, s.attempts[a]);
      R.MarkFinalFailureKeeps(s.runs[r], s.attempts[a].pc.code, now);
    }
  }

  lemma StepEvolves(cfg: J.Config, s: State, step: Step, r: nat)
    requires Inv(s) && r < |s.runs|
    ensures r < |Apply(cfg, s, step).runs| && R.Evolves(s.runs[r], Apply(cfg, s, step).runs[r])
  {
    match step
    case Prepare(a, now) => PrepareEvolves(s, a, now, r);
    case Persist(a, now) => PersistEvolves(s, a, now, r);
    case HandleFailure(a, now) => FailureEvolves(s, a, now, r);
    case _ => OtherEvolves(s, step, r);
  }

  lemma OtherEvolves(s: State, step: Step, r: nat)
    requires Inv(s) && r < |s.runs| && !step.Prepare? && !step.Persist? && !step.HandleFailure?
    ensures r < |Work(s, step).runs| && R.Evolves(s.runs[r], Work(s, step).runs[r])
  {
    if step.ResumeRun? && step.run == r {
      assert RunOk(s, r);
      R.ResumeRunKeeps(s.runs[r], step.user, step.authorized, step.action, step.hash);
    }
  }

  lemma LastStepEvolves(cfg: J.Config, steps: seq<Step>, r: nat)
    requires steps != [] && r < |Exec(cfg, Front(steps)).runs|
    ensures r < |Exec(cfg, steps).runs|
    ensures R.Evolves(Exec(cfg, Front(steps)).runs[r], Exec(cfg, steps).runs[r])
  {
    Reachable(cfg, Front(steps));
    StepEvolves(cfg, Exec(cfg, Front(steps)), Last(steps), r);
  }

  /** Between any two moments the log only grows, a terminal status is never left, and the
      start and finish instants are written once. */
  lemma {:induction false} HistoryIsMonotone(cfg: J.Config, steps: seq<Step>, more: seq<Step>, r: nat)
    requires r < |Exec(cfg, steps).runs|
    ensures r < |Exec(cfg, steps + more).runs|
    ensures R.Evolves(Exec(cfg, steps).runs[r], Exec(cfg, steps + more).runs[r])
  {
    if more == [] {
      assert steps + more == steps;
    } else {
      HistoryIsMonotone(cfg, steps, Front(more), r);
      assert Front(steps + more) == steps + Front(more);
      LastStepEvolves(cfg, steps + more, r);
    }
  }

  lemma {:induction false} AskedPersists(a: seq<R.Event>, b: seq<R.Event>)
    requires a <= b && R.DigestOf(a).asked.Some?
    ensures R.DigestOf(b).asked.Some?
  {
    if a != b {
      AskedPersists(a, Front(b));
    }
  }

  /** Between any two moments, in terms of states. */
  lemma LaterRunEvolves(cfg: J.Config, s: State, t: State, r: nat)
    requires LeadsTo(cfg, s, t) && r < |s.runs|
    ensures IsReachable(cfg, t) && r < |t.runs| && R.Evolves(s.runs[r], t.runs[r])
  {
    var steps, more :| Exec(cfg, steps) == s && Exec(cfg, steps + more) == t;
    HistoryIsMonotone(cfg, steps, more, r);
  }

  /** Once a resume has been queued, no later execute attempt enters the graph. */
  lemma NoExecuteAfterResume(cfg: J.Config, s: State, t: State, r: nat, now: Time)
    requires LeadsTo(cfg, s, t) && r < |s.runs|
    requires R.Latest(s.runs[r].log, R.ResumeQueuedKind).Some?
    ensures r < |t.runs| && R.PrepareExecute(t.runs[r], now) == (t.runs[r], R.Skip)
  {
    LaterRunEvolves(cfg, s, t, r);
    RunIsGood(cfg, t, r);
    R.DigestPosition(s.runs[r].log, R.ResumeQueuedKind);
    AskedPersists(s.runs[r].log, t.runs[r].log);
    R.PrepareExecuteKeeps(t.runs[r], now);
  }

  /** Whatever an attempt is resuming with was durably queued, and answers the question that
      was then the newest one. */
  lemma ResumeInputsAreDurable(cfg: J.Config, s: State, a: nat)
    requires IsReachable(cfg, s) && a < |s.attempts|
    requires s.attempts[a].pc.Invoking? && s.attempts[a].pc.input.Some?
    ensures RunOf(s, a).Some?
    ensures var log := s.runs[RunOf(s, a).value].log;
            var input := s.attempts[a].pc.input.value;
            exists i :: 0 <= i < |log| && log[i] == R.ResumeQueued(input) && R.AskedHash(log[..i]) == Some(input.hash)
  {
    AttemptIsGood(cfg, s, a);
    var r := RunOf(s, a).value;
    RunIsGood(cfg, s, r);
    QueuedInputIsBound(s.runs[r], s.attempts[a].pc.input.value);
  }

  lemma QueuedInputIsBound(run: R.Run, input: R.ResumeInput)
    requires R.RunInv(run) && R.ResumeQueued(input) in run.log
    ensures exists i :: 0 <= i < |run.log| && run.log[i] == R.ResumeQueued(input)
                        && R.AskedHash(run.log[..i]) == Some(input.hash)
  {
    R.DigestPhase(run.log);
    var i :| 0 <= i < |run.log| && run.log[i] == R.ResumeQueued(input);
    R.HashesBoundAt(run.log, i);
  }

  // ------------------------------------------------------- how a job comes to fail

  /** Why a transaction settled a job as FAILED. */
  datatype Cause =
    | Reaped               // the lease ran out
    | FinalGraphFailure    // the graph raised on the last attempt allowed
    | StaleGraphFailure    // it raised on an earlier attempt, whose worker owns the job again
    | PrepareFailure
    | PersistFailure
    | RejectedOutcome      // the graph's outcome broke its contract
    | UnrecordedFailure    // the transaction that records the final failure failed

  function CauseOf(s: State, step: Step): Option<Cause> {
    if step.ReapJob? then Some(Reaped)
    else if step.FailJob? && At(s, step.attempt) && s.attempts[step.attempt].pc.Failing? then
      var at := s.attempts[step.attempt];
      match at.pc.origin
      case InGraph => Some(if at.number >= at.limit then FinalGraphFailure else StaleGraphFailure)
      case InPrepare => Some(PrepareFailure)
      case InPersist => Some(PersistFailure)
      case InOutcome => Some(RejectedOutcome)
      case InFailureRecord => Some(UnrecordedFailure)
    else None
  }

  /** The step settles job `j` as FAILED. */
  predicate FailsJob(cfg: J.Config, s: State, step: Step, j: nat) {
    j < |s.jobs| && s.jobs[j].state.Running? && JobsAfter(cfg, s, step)[j].state.Failed?
  }

  predicate RunIsOver(s: State, j: nat) {
    j < |s.jobs| && s.jobs[j].aggregate < |s.runs| && R.Terminal(s.runs[s.jobs[j].aggregate].status)
  }

  /** Nothing but the causes above ever fails a job. */
  lemma FailuresHaveCauses(cfg: J.Config, s: State, step: Step, j: nat)
    requires FailsJob(cfg, s, step, j)
    ensures CauseOf(s, step).Some?
    ensures step.ReapJob? ==> step.job == j
    ensures step.FailJob? ==> At(s, step.attempt) && s.attempts[step.attempt].job == j
  {
  }

  /** When the graph fails on the last attempt of a job, the run is over once the job is FAILED. */
  lemma FinalGraphFailureEndsRun(cfg: J.Config, s: State, step: Step, j: nat)
    requires IsReachable(cfg, s) && FailsJob(cfg, s, step, j)
    requires CauseOf(s, step) == Some(FinalGraphFailure)
    ensures RunIsOver(Apply(cfg, s, step), j)
  {
    FailuresHaveCauses(cfg, s, step, j);
    AttemptIsGood(cfg, s, step.attempt);
  }

  // -------------------------------------------------------- the queue inside it

  /** The queue operations of a run of the engine, in order. */
  function QueueOps(cfg: J.Config, steps: seq<Step>): seq<J.QueueOp> {
    if steps == [] then []
    else
      var before := QueueOps(cfg, Front(steps));
      match QueueOpOf(Exec(cfg, Front(steps)), Last(steps))
      case None => before
      case Some(op) => before + [op]
  }

  /** The engine's job table is a history of the queue, so everything proved about every
      sequence of queue operations holds of it. */
  lemma {:induction false} JobsAreAQueueHistory(cfg: J.Config, steps: seq<Step>)
    ensures Exec(cfg, steps).jobs == J.Queue(cfg, QueueOps(cfg, steps))
  {
    if steps != [] {
      JobsAreAQueueHistory(cfg, Front(steps));
      var before := QueueOps(cfg, Front(steps));
      match QueueOpOf(Exec(cfg, Front(steps)), Last(steps))
      case None =>
      case Some(op) => assert Front(before + [op]) == before;
    }
  }
}
