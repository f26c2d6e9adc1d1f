/** The invariant of the durable run engine: what every step of every interleaving keeps of jobs,
    runs and attempts (workers/run_execution.py, workers/main.py). */
module EngineInvariant {
  import opened Common
  import opened Engine
  import J = Jobs
  import R = Runs

  // -------------------------------------------------------------- the invariant

  /** The most recently enqueued job of a run. */
  function LatestJob(jobs: seq<J.Job>, r: nat): (j: Option<nat>)
    ensures j.Some? ==> j.value < |jobs| && jobs[j.value].aggregate == r
                        && forall k :: j.value < k < |jobs| ==> jobs[k].aggregate != r
    ensures j.None? ==> forall k :: 0 <= k < |jobs| ==> jobs[k].aggregate != r
  {
    if jobs == [] then None
    else if Last(jobs).aggregate == r then Some(|jobs| - 1)
    else LatestJob(Front(jobs), r)
  }

  predicate JobOk(s: State, j: nat)
    requires j < |s.jobs|
  {
    J.JobInv(s.jobs[j]) && s.jobs[j].aggregate < |s.runs| && (s.jobs[j].kind.Execute? || s.jobs[j].kind.Resume?)
  }

  predicate RunOk(s: State, r: nat)
    requires r < |s.runs|
  {
    var latest := LatestJob(s.jobs, r);
    && R.RunInv(s.runs[r])
    && latest.Some?
    && (s.jobs[latest.value].kind.Resume? <==> R.ResumeAsked(s.runs[r]))
    && (s.jobs[latest.value].state.Succeeded? ==> R.Parked(s.runs[r].status))
  }

  predicate AttemptOk(s: State, at: Attempt) {
    && at.job < |s.jobs|
    && s.jobs[at.job].aggregate < |s.runs|
    && var r := s.jobs[at.job].aggregate;
       var run := s.runs[r];
       && (at.pc.Invoking? || at.pc.Returned? || at.pc.Raised? ==> R.HasStarted(run))
       && (at.pc.Invoking? && at.pc.input.Some? ==> R.ResumeQueued(at.pc.input.value) in run.log)
       && (at.pc.HandlerDone? && LatestJob(s.jobs, r) == Some(at.job) ==> R.Parked(run.status))
       && (at.pc.Failing? && at.pc.origin.InGraph? && at.number >= at.limit ==> R.Terminal(run.status))
  }

  predicate Inv(s: State) {
    && (forall j :: 0 <= j < |s.jobs| ==> JobOk(s, j))
    && (forall r :: 0 <= r < |s.runs| ==> RunOk(s, r))
    && (forall a :: 0 <= a < |s.attempts| ==> AttemptOk(s, s.attempts[a]))
  }

  // ------------------------------------------------ one component changes at a time

  /** A run may change as long as nothing that others rely on is taken back. */
  predicate RunChange(a: R.Run, b: R.Run) {
    && R.RunInv(b) && R.Evolves(a, b)
    && R.ResumeAsked(b) == R.ResumeAsked(a)
    && (R.HasStarted(a) ==> R.HasStarted(b))
    && (R.Parked(a.status) ==> R.Parked(b.status))
  }

  lemma SetRunKeeps(s: State, r: nat, run: R.Run)
    requires Inv(s) && r < |s.runs| && RunChange(s.runs[r], run)
    ensures Inv(SetRun(s, r, run))
  {
    var s' := SetRun(s, r, run);
    forall q | 0 <= q < |s'.runs| ensures RunOk(s', q) {
      assert RunOk(s, q);
    }
    forall a | 0 <= a < |s'.attempts| ensures AttemptOk(s', s'.attempts[a]) {
      assert AttemptOk(s, s.attempts[a]);
    }
    forall j | 0 <= j < |s'.jobs| ensures JobOk(s', j) {
      assert JobOk(s, j);
    }
  }

  lemma SetPcKeeps(s: State, a: nat, pc: Pc)
    requires Inv(s) && a < |s.attempts| && AttemptOk(s, s.attempts[a].(pc := pc))
    ensures Inv(SetPc(s, a, pc))
  {
    var s' := SetPc(s, a, pc);
    forall b | 0 <= b < |s'.attempts| ensures AttemptOk(s', s'.attempts[b]) {
      assert AttemptOk(s, s'.attempts[b]);
    }
    forall q | 0 <= q < |s'.runs| ensures RunOk(s', q) {
      assert RunOk(s, q);
    }
    forall j | 0 <= j < |s'.jobs| ensures JobOk(s', j) {
      assert JobOk(s, j);
    }
  }

  lemma {:induction false} SameOwnersSameLatest(a: seq<J.Job>, b: seq<J.Job>, r: nat)
    requires |a| == |b| && forall i :: 0 <= i < |a| ==> a[i].aggregate == b[i].aggregate
    ensures LatestJob(a, r) == LatestJob(b, r)
  {
    if a != [] {
      SameOwnersSameLatest(Front(a), Front(b), r);
    }
  }

  lemma SetJobKeeps(s: State, j: nat, job: J.Job)
    requires Inv(s) && j < |s.jobs| && J.JobInv(job)
    requires job.aggregate == s.jobs[j].aggregate && job.kind == s.jobs[j].kind
    requires job.state.Succeeded? && LatestJob(s.jobs, job.aggregate) == Some(j) ==>
               job.aggregate < |s.runs| && R.Parked(s.runs[job.aggregate].status)
    ensures Inv(s.(jobs := s.jobs[j := job]))
  {
    var s' := s.(jobs := s.jobs[j := job]);
    forall q ensures LatestJob(s'.jobs, q) == LatestJob(s.jobs, q) {
      SameOwnersSameLatest(s.jobs, s'.jobs, q);
    }
    forall q | 0 <= q < |s'.runs| ensures RunOk(s', q) {
      assert RunOk(s, q);
    }
    forall a | 0 <= a < |s'.attempts| ensures AttemptOk(s', s'.attempts[a]) {
      assert AttemptOk(s, s.attempts[a]);
    }
    forall k | 0 <= k < |s'.jobs| ensures JobOk(s', k) {
      assert JobOk(s, k);
    }
  }

  /** A run gains a new job: a fresh run its first, or a waiting run its next. */
  lemma EnqueueKeeps(s: State, r: nat, runs: seq<R.Run>, job: J.Job)
    requires Inv(s) && J.JobInv(job) && job.state.Pending? && job.aggregate == r
    requires |s.runs| <= |runs| && r < |runs| && |runs| <= |s.runs| + 1 && (r < |s.runs| ==> |runs| == |s.runs|)
    requires forall q :: 0 <= q < |s.runs| && q != r ==> runs[q] == s.runs[q]
    requires |s.runs| < |runs| ==> r == |s.runs|
    requires R.RunInv(runs[r]) && (job.kind.Resume? <==> R.ResumeAsked(runs[r])) && !job.kind.Reconcile?
    requires r < |s.runs| ==> R.Evolves(s.runs[r], runs[r]) && R.HasStarted(runs[r])
    ensures Inv(s.(runs := runs, jobs := s.jobs + [job]))
  {
    var s' := s.(runs := runs, jobs := s.jobs + [job]);
    assert Front(s'.jobs) == s.jobs;
    forall q | 0 <= q < |s'.runs| ensures RunOk(s', q) {
      if q != r {
        assert RunOk(s, q);
      }
    }
    forall a | 0 <= a < |s'.attempts| ensures AttemptOk(s', s'.attempts[a]) {
      assert AttemptOk(s, s.attempts[a]);
    }
    forall k | 0 <= k < |s'.jobs| ensures JobOk(s', k) {
      if k < |s.jobs| {
        assert JobOk(s, k);
      }
    }
  }

  // ------------------------------------------------------ every step keeps it

  lemma ApiKeeps(cfg: J.Config, s: State, step: Step)
    requires Inv(s) && (step.CreateRun? || step.ResumeRun?)
    ensures Inv(Apply(cfg, s, step))
  {
    match step
    case CreateRun(mode, user, query, uuid, now) =>
      var run := R.CreateRun(mode, user, query);
      if run.Ok? {
        EnqueueKeeps(s, |s.runs|, s.runs + [run.value],
                     J.NewRow(uuid, J.Execute, |s.runs|, RUN_JOB_MAX_ATTEMPTS, now));
      }
    case ResumeRun(r, user, authorized, action, hash, uuid, now) =>
      if r < |s.runs| {
        assert RunOk(s, r);
        R.ResumeRunKeeps(s.runs[r], user, authorized, action, hash);
        var run := R.ResumeRun(s.runs[r], user, authorized, action, hash);
        if run.Ok? {
          EnqueueKeeps(s, r, s.runs[r := run.value],
                       J.NewRow(uuid, J.Resume, r, RUN_JOB_MAX_ATTEMPTS, now));
        }
      }
  }

  lemma QueueStepKeeps(cfg: J.Config, s: State, step: Step)
    requires Inv(s)
    requires step.Heartbeat? || step.ReapJob? || step.ClaimJob?
    ensures Inv(Apply(cfg, s, step))
  {
    var s' := Apply(cfg, s, step);
    if s'.jobs != s.jobs {
      assert JobOk(s, step.job);
      SetJobKeeps(s, step.job, s'.jobs[step.job]);
    }
    if step.ClaimJob? && |s'.attempts| > |s.attempts| {
      var mid := s.(jobs := s'.jobs);
      var a := |s.attempts|;
      forall b | 0 <= b < |s'.attempts| ensures AttemptOk(s', s'.attempts[b]) {
        if b < a {
          assert AttemptOk(mid, mid.attempts[b]);
        } else {
          assert JobOk(mid, step.job);
        }
      }
      forall q | 0 <= q < |s'.runs| ensures RunOk(s', q) {
        assert RunOk(mid, q);
      }
      forall k | 0 <= k < |s'.jobs| ensures JobOk(s', k) {
        assert JobOk(mid, k);
      }
    }
  }

  lemma PrepareKeeps(s: State, a: nat, now: Time)
    requires Inv(s)
    ensures Inv(DoPrepare(s, a, now))
  {
    if At(s, a) && s.attempts[a].pc.Claimed? {
      var at := s.attempts[a];
      assert AttemptOk(s, at) && JobOk(s, at.job);
      var r := RunOf(s, a).value;
      assert RunOk(s, r);
      R.PrepareExecuteKeeps(s.runs[r], now);
      R.PrepareResumeKeeps(s.runs[r]);
      var execute := s.jobs[at.job].kind.Execute?;
      var (run, p) := if execute then R.PrepareExecute(s.runs[r], now) else R.PrepareResume(s.runs[r]);
      if !execute && p.InvokeResume? {
        R.ResumePayloadIsNewest(s.runs[r]);
      }
      SetRunKeeps(s, r, run);
      SetPcKeeps(SetRun(s, r, run), a, DoPrepare(s, a, now).attempts[a].pc);
    }
  }

  lemma PersistKeeps(s: State, a: nat, now: Time)
    requires Inv(s)
    ensures Inv(DoPersist(s, a, now))
  {
    if At(s, a) && s.attempts[a].pc.Returned? {
      var at := s.attempts[a];
      assert AttemptOk(s, at);
      var r := RunOf(s, a).value;
      assert RunOk(s, r);
      R.PersistOutcomeKeeps(s.runs[r], at.pc.outcome, now);
      match R.PersistOutcome(s.runs[r], at.pc.outcome, now)
      case Ok(run) =>
        SetRunKeeps(s, r, run);
        SetPcKeeps(SetRun(s, r, run), a, HandlerDone);
      case Err(_) =>
        SetPcKeeps(s, a, Failing("RunExecutionContractError", InOutcome));
    }
  }

  lemma HandleFailureKeeps(s: State, a: nat, now: Time)
    requires Inv(s)
    ensures Inv(DoHandleFailure(s, a, now))
  {
    if At(s, a) && s.attempts[a].pc.Raised? {
      var at := s.attempts[a];
      assert AttemptOk(s, at);
      if at.number < at.limit {
        SetPcKeeps(s, a, Failing(at.pc.code, InGraph));
      } else {
        var r := RunOf(s, a).value;
        assert RunOk(s, r);
        R.MarkFinalFailureKeeps(s.runs[r], at.pc.code, now);
        var run := R.MarkFinalFailure(s.runs[r], at.pc.code, now);
        SetRunKeeps(s, r, run);
        SetPcKeeps(SetRun(s, r, run), a, Failing(at.pc.code, InGraph));
      }
    }
  }

  lemma SettleKeeps(cfg: J.Config, s: State, step: Step)
    requires Inv(s) && (step.CompleteJob? || step.FailJob?)
    ensures Inv(Apply(cfg, s, step))
  {
    var a := step.attempt;
    if At(s, a) {
      var at := s.attempts[a];
      assert AttemptOk(s, at) && JobOk(s, at.job);
      var jobs := JobsAfter(cfg, s, step);
      if jobs != s.jobs {
        SetJobKeeps(s, at.job, jobs[at.job]);
        assert jobs == s.jobs[at.job := jobs[at.job]];
      }
      var mid := s.(jobs := jobs);
      if Apply(cfg, s, step) != mid {
        assert AttemptOk(mid, mid.attempts[a]);
        SetPcKeeps(mid, a, Gone);
      }
    }
  }

  lemma ArtifactKeeps(s: State, a: nat)
    requires Inv(s)
    ensures Inv(Work(s, SaveArtifact(a)))
  {
    if RunOf(s, a).Some? {
      var r := RunOf(s, a).value;
      assert RunOk(s, r);
      R.SaveArtifactKeeps(s.runs[r]);
      SetRunKeeps(s, r, R.SaveArtifact(s.runs[r]));
    }
  }

  predicate Progress(step: Step) {
    step.GraphReturns? || step.GraphRaises? || step.TransactionFails? || step.Crash?
  }

  lemma ProgressKeeps(s: State, step: Step)
    requires Inv(s) && Progress(step)
    ensures Inv(Work(s, step))
  {
    if Work(s, step) != s {
      var a := step.attempt;
      assert AttemptOk(s, s.attempts[a]);
      SetPcKeeps(s, a, Work(s, step).attempts[a].pc);
    }
  }

  lemma StepKeeps(cfg: J.Config, s: State, step: Step)
    requires Inv(s)
    ensures Inv(Apply(cfg, s, step))
  {
    match step
    case CreateRun(_, _, _, _, _) => ApiKeeps(cfg, s, step);
    case ResumeRun(_, _, _, _, _, _, _) => ApiKeeps(cfg, s, step);
    case ClaimJob(_, _, _, _) => QueueStepKeeps(cfg, s, step);
    case Heartbeat(_, _, _) => QueueStepKeeps(cfg, s, step);
    case ReapJob(_, _) => QueueStepKeeps(cfg, s, step);
    case CompleteJob(_, _) => SettleKeeps(cfg, s, step);
    case FailJob(_, _) => SettleKeeps(cfg, s, step);
    case Prepare(a, now) => PrepareKeeps(s, a, now);
    case Persist(a, now) => PersistKeeps(s, a, now);
    case HandleFailure(a, now) => HandleFailureKeeps(s, a, now);
    case SaveArtifact(a) => ArtifactKeeps(s, a);
    case _ => ProgressKeeps(s, step);
  }

  lemma {:induction false} Reachable(cfg: J.Config, steps: seq<Step>)
    ensures Inv(Exec(cfg, steps))
  {
    if steps != [] {
      Reachable(cfg, Front(steps));
      StepKeeps(cfg, Exec(cfg, Front(steps)), Last(steps));
    }
  }
}
