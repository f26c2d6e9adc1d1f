/** When a FAILED job means a finished run.  The queue and the handlers settle jobs without looking
    at the run, so a run may be left behind; of the seven ways in which a job comes to fail, exactly
    one rules that out (workers/run_execution.py, workers/main.py, infrastructure/jobs/postgres.py). */
module Stranding {
  import opened Common
  import opened Engine
  import opened EngineInvariant
  import opened EngineSafety
  import J = Jobs
  import R = Runs
  import Text

  // ------------------------------------------------------ a job on its last attempt

  lemma ExecAppend(cfg: J.Config, steps: seq<Step>, step: Step)
    ensures Exec(cfg, steps + [step]) == Apply(cfg, Exec(cfg, steps), step)
  {
    assert Front(steps + [step]) == steps;
  }

  lemma StepIsReachable(cfg: J.Config, s: State, step: Step)
    requires IsReachable(cfg, s)
    ensures IsReachable(cfg, Apply(cfg, s, step))
  {
    var steps :| Exec(cfg, steps) == s;
    ExecAppend(cfg, steps, step);
  }

  /** One run, RUNNING, and its one job. */
  predicate Underway(s: State, attempts: nat) {
    && |s.runs| == 1 && s.runs[0].status.Running?
    && |s.jobs| == 1 && s.jobs[0].aggregate == 0 && s.jobs[0].kind.Execute?
    && s.jobs[0].attempts == attempts && s.jobs[0].maxAttempts == 3
    && s.attempts != [] && s.attempts[0] == Attempt(0, "worker", 1, 3, Invoking(None))
  }

  /** The job waits for its next attempt. */
  predicate Idle(s: State, attempts: nat, t: Time) {
    Underway(s, attempts) && |s.attempts| == attempts && J.Claimable(s.jobs[0], t)
  }

  /** Its third and last attempt has just been claimed, again by the worker of the first. */
  predicate Poised(s: State) {
    && Underway(s, 3) && |s.attempts| == 3
    && J.OwnedBy(s.jobs[0], "worker") && s.jobs[0].leaseExpiresAt.Some?
    && s.attempts[2] == Attempt(0, "worker", 3, 3, Claimed)
  }

  /** The first two steps of any history: a run is created and its job claimed. */
  function Begun(cfg: J.Config): State {
    State([J.ClaimRow(cfg, J.NewRow(0, J.Execute, 0, 3, 0.0), "worker", 0.0)],
          [R.Run(R.Qa, 0, R.Queued, None, None, [R.RunQueued("q")])],
          [Attempt(0, "worker", 1, 3, Claimed)])
  }

  lemma BegunIsReachable(cfg: J.Config)
    ensures IsReachable(cfg, Begun(cfg))
  {
    var create, claim := CreateRun(R.Qa, 0, "q", 0, 0.0), ClaimJob(0, "worker", 0.0, 0.0);
    assert Text.Strip("q") == "q";
    var s := Apply(cfg, INITIAL, create);
    assert s.runs == Begun(cfg).runs && s.jobs == [J.NewRow(0, J.Execute, 0, 3, 0.0)];
    assert Apply(cfg, s, claim) == Begun(cfg);
    assert Exec(cfg, []) == INITIAL;
    StepIsReachable(cfg, INITIAL, create);
    StepIsReachable(cfg, s, claim);
  }

  lemma StartsRunning(cfg: J.Config)
    ensures Underway(DoPrepare(Begun(cfg), 0, 0.0), 1)
    ensures Apply(cfg, Begun(cfg), Prepare(0, 0.0)) == DoPrepare(Begun(cfg), 0, 0.0)
    ensures DoPrepare(Begun(cfg), 0, 0.0).jobs == Begun(cfg).jobs && |DoPrepare(Begun(cfg), 0, 0.0).attempts| == 1
  {
    var s := Begun(cfg);
    var run := s.runs[0];
    assert Front(run.log) == [];
    assert R.PrepareExecute(run, 0.0)
        == (run.(status := R.Running, startedAt := Some(0.0), log := run.log + [R.RunStarted]), R.Invoke);
    assert DoPrepare(s, 0, 0.0).runs == [R.PrepareExecute(run, 0.0).0];
  }

  /** The worker of the first attempt goes silent inside the graph, and its lease is reaped. */
  lemma FirstLeaseLost(cfg: J.Config) returns (s: State)
    ensures IsReachable(cfg, s) && Idle(s, 1, cfg.lease + 1.0)
  {
    var t := DoPrepare(Begun(cfg), 0, 0.0);
    BegunIsReachable(cfg);
    StartsRunning(cfg);
    StepIsReachable(cfg, Begun(cfg), Prepare(0, 0.0));
    StepIsReachable(cfg, t, ReapJob(0, cfg.lease + 1.0));
    s := Apply(cfg, t, ReapJob(0, cfg.lease + 1.0));
  }

  lemma ClaimAgain(cfg: J.Config, s: State, n: nat, t: Time) returns (u: State)
    requires IsReachable(cfg, s) && Idle(s, n, t)
    ensures IsReachable(cfg, u) && Underway(u, n + 1) && |u.attempts| == n + 1
    ensures u.attempts[n] == Attempt(0, "worker", n + 1, 3, Claimed)
    ensures J.OwnedBy(u.jobs[0], "worker") && u.jobs[0].leaseExpiresAt == Some(t + cfg.lease)
  {
    StepIsReachable(cfg, s, ClaimJob(0, "worker", t, t));
    u := Apply(cfg, s, ClaimJob(0, "worker", t, t));
  }

  lemma PoisedIsReachable(cfg: J.Config) returns (s: State)
    ensures IsReachable(cfg, s) && Poised(s)
  {
    var first := FirstLeaseLost(cfg);
    var second := ClaimAgain(cfg, first, 1, cfg.lease + 1.0);
    var now := 2.0 * cfg.lease + 2.0;
    StepIsReachable(cfg, second, ReapJob(0, now));
    var idle := Apply(cfg, second, ReapJob(0, now));
    s := ClaimAgain(cfg, idle, 2, now);
  }

  // ---------------------------------------------------------- one history per cause

  /** In a reachable state, the step fails the job for the given reason and leaves the run unfinished. */
  ghost predicate Strands(cfg: J.Config, s: State, step: Step, c: Cause) {
    && IsReachable(cfg, s) && FailsJob(cfg, s, step, 0) && CauseOf(s, step) == Some(c)
    && !RunIsOver(Apply(cfg, s, step), 0)
  }

  /** The run is RUNNING and its job has no attempt left but the one under way. */
  predicate LastChance(s: State) {
    && |s.runs| == 1 && s.runs[0].status.Running?
    && |s.jobs| == 1 && s.jobs[0].aggregate == 0 && J.OwnedBy(s.jobs[0], "worker")
    && s.jobs[0].attempts == 3 && s.jobs[0].maxAttempts == 3
  }

  /** Whichever attempt of that worker raises next, the job is FAILED and the run is left behind. */
  lemma FailStrands(cfg: J.Config, s: State, a: nat, c: Cause)
    requires IsReachable(cfg, s) && LastChance(s)
    requires a < |s.attempts| && s.attempts[a].job == 0 && s.attempts[a].worker == "worker" && s.attempts[a].pc.Failing?
    requires CauseOf(s, FailJob(a, 0.0)) == Some(c)
    ensures Strands(cfg, s, FailJob(a, 0.0), c)
  {
  }

  lemma ReapStrands(cfg: J.Config, s: State) returns (step: Step)
    requires IsReachable(cfg, s) && Poised(s)
    ensures Strands(cfg, s, step, Reaped)
  {
    step := ReapJob(0, s.jobs[0].leaseExpiresAt.value + 1.0);
  }

  /** The graph of the first attempt raises late, when its worker holds the job once more. */
  lemma StaleGraphStrands(cfg: J.Config, s: State) returns (u: State)
    requires IsReachable(cfg, s) && Poised(s)
    ensures Strands(cfg, u, FailJob(0, 0.0), StaleGraphFailure)
  {
    var t := Apply(cfg, s, GraphRaises(0, "Error"));
    StepIsReachable(cfg, s, GraphRaises(0, "Error"));
    u := Apply(cfg, t, HandleFailure(0, 0.0));
    StepIsReachable(cfg, t, HandleFailure(0, 0.0));
    FailStrands(cfg, u, 0, StaleGraphFailure);
  }

  lemma PrepareStrands(cfg: J.Config, s: State) returns (u: State)
    requires IsReachable(cfg, s) && Poised(s)
    ensures Strands(cfg, u, FailJob(2, 0.0), PrepareFailure)
  {
    u := Apply(cfg, s, TransactionFails(2, "Error"));
    StepIsReachable(cfg, s, TransactionFails(2, "Error"));
    FailStrands(cfg, u, 2, PrepareFailure);
  }

  /** The last attempt stands at `pc`. */
  predicate LastAt(s: State, pc: Pc) {
    LastChance(s) && |s.attempts| == 3 && s.attempts[2] == Attempt(0, "worker", 3, 3, pc)
  }

  lemma EntersGraph(cfg: J.Config, s: State) returns (u: State)
    requires IsReachable(cfg, s) && Poised(s)
    ensures IsReachable(cfg, u) && LastAt(u, Invoking(None))
  {
    RunIsGood(cfg, s, 0);
    R.PrepareExecuteKeeps(s.runs[0], 0.0);
    assert LatestJob(s.jobs, 0) == Some(0);
    u := Apply(cfg, s, Prepare(2, 0.0));
    StepIsReachable(cfg, s, Prepare(2, 0.0));
  }

  lemma GraphAnswers(cfg: J.Config, s: State, outcome: R.Outcome) returns (t: State)
    requires IsReachable(cfg, s) && LastAt(s, Invoking(None))
    ensures IsReachable(cfg, t) && LastAt(t, Returned(outcome))
  {
    t := Apply(cfg, s, GraphReturns(2, outcome));
    StepIsReachable(cfg, s, GraphReturns(2, outcome));
  }

  lemma GraphFails(cfg: J.Config, s: State) returns (t: State)
    requires IsReachable(cfg, s) && LastAt(s, Invoking(None))
    ensures IsReachable(cfg, t) && LastAt(t, Raised("Error"))
  {
    t := Apply(cfg, s, GraphRaises(2, "Error"));
    StepIsReachable(cfg, s, GraphRaises(2, "Error"));
  }

  /** A transaction of the last attempt fails. */
  lemma TransactionStrands(cfg: J.Config, s: State, pc: Pc, c: Cause) returns (u: State)
    requires IsReachable(cfg, s) && LastAt(s, pc)
    requires (pc.Returned? && c.PersistFailure?) || (pc.Raised? && c.UnrecordedFailure?)
    ensures Strands(cfg, u, FailJob(2, 0.0), c)
  {
    u := Apply(cfg, s, TransactionFails(2, "Error"));
    StepIsReachable(cfg, s, TransactionFails(2, "Error"));
    FailStrands(cfg, u, 2, c);
  }

  /** The graph asks for a confirmation without saying of what, and the outcome is rejected. */
  lemma OutcomeIsRejected(cfg: J.Config, s: State) returns (u: State)
    requires IsReachable(cfg, s) && LastAt(s, Returned(R.Interrupted(None)))
    ensures IsReachable(cfg, u) && LastAt(u, Failing("RunExecutionContractError", InOutcome))
  {
    u := Apply(cfg, s, Persist(2, 0.0));
    StepIsReachable(cfg, s, Persist(2, 0.0));
  }

  lemma OutcomeStrands(cfg: J.Config, s: State) returns (u: State)
    requires IsReachable(cfg, s) && LastAt(s, Returned(R.Interrupted(None)))
    ensures Strands(cfg, u, FailJob(2, 0.0), RejectedOutcome)
  {
    u := OutcomeIsRejected(cfg, s);
    FailStrands(cfg, u, 2, RejectedOutcome);
  }

  lemma EveryOtherCauseStrands(cfg: J.Config, c: Cause) returns (s: State, step: Step)
    requires !c.FinalGraphFailure?
    ensures Strands(cfg, s, step, c)
  {
    var poised := PoisedIsReachable(cfg);
    var inside := EntersGraph(cfg, poised);
    var answered := GraphAnswers(cfg, inside, R.Interrupted(None));
    var raised := GraphFails(cfg, inside);
    s, step := poised, FailJob(2, 0.0);
    match c
    case Reaped => step := ReapStrands(cfg, poised);
    case StaleGraphFailure =>
      s := StaleGraphStrands(cfg, poised);
      step := FailJob(0, 0.0);
    case PrepareFailure => s := PrepareStrands(cfg, poised);
    case PersistFailure => s := TransactionStrands(cfg, answered, Returned(R.Interrupted(None)), c);
    case RejectedOutcome => s := OutcomeStrands(cfg, answered);
    case UnrecordedFailure => s := TransactionStrands(cfg, raised, Raised("Error"), c);
  }

  // ------------------------------------------------------------- the exact condition

  /** Whenever a job fails for this reason, its run is over. */
  ghost predicate EndsTheRun(cfg: J.Config, c: Cause) {
    forall s, step, j :: IsReachable(cfg, s) && FailsJob(cfg, s, step, j) && CauseOf(s, step) == Some(c)
                         ==> RunIsOver(Apply(cfg, s, step), j)
  }

  /** A FAILED job means a finished run exactly when the graph raised on the job's last attempt and
      that failure was recorded; each of the other causes leaves runs behind. */
  lemma FailedMeansFinishedExactly(cfg: J.Config, c: Cause)
    ensures EndsTheRun(cfg, c) <==> c.FinalGraphFailure?
  {
    if c.FinalGraphFailure? {
      forall s, step, j | IsReachable(cfg, s) && FailsJob(cfg, s, step, j) && CauseOf(s, step) == Some(c)
        ensures RunIsOver(Apply(cfg, s, step), j)
      {
        FinalGraphFailureEndsRun(cfg, s, step, j);
      }
    } else {
      var s, step := EveryOtherCauseStrands(cfg, c);
      assert FailsJob(cfg, s, step, 0);
    }
  }

  /** ... and that one does happen. */
  lemma FinalGraphFailureHappens(cfg: J.Config) returns (s: State)
    ensures IsReachable(cfg, s) && FailsJob(cfg, s, FailJob(2, 0.0), 0)
    ensures CauseOf(s, FailJob(2, 0.0)) == Some(FinalGraphFailure)
  {
    var poised := PoisedIsReachable(cfg);
    var inside := EntersGraph(cfg, poised);
    var raised := GraphFails(cfg, inside);
    s := Apply(cfg, raised, HandleFailure(2, 0.0));
    StepIsReachable(cfg, raised, HandleFailure(2, 0.0));
  }
}
