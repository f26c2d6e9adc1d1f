/** The durable run engine: API calls, leased jobs, worker attempts, crashes and the reaper,
    interleaved in every possible way.

    One `Step` is one committed database transaction, one graph result or one crash
    (workers/run_execution.py, workers/main.py).  Whatever is not determined by the code
    (clock readings, graph outcomes, who calls when) is an argument of the step, so a run of
    the system is a sequence of steps and the theorems hold for every such sequence.  A step
    that its code would reject leaves the state unchanged. */
module Engine {
  import opened Common
  import J = Jobs
  import R = Runs

  /** `EnqueueJobRequest.max_attempts` defaults to this for both run jobs. */
  const RUN_JOB_MAX_ATTEMPTS := 3

  /** Where one handler invocation stands between its transactions. */
  datatype Pc =
    | Claimed                                       // about to run its prepare transaction
    | Invoking(input: Option<R.ResumeInput>)        // inside graph.execute or graph.resume
    | Returned(outcome: R.Outcome)                  // about to persist the outcome
    | Raised(code: string)                          // the graph raised; _handle_failure is next
    | HandlerDone                                   // returned normally; queue.complete is next
    | Failing(code: string, origin: Origin)         // raised; queue.fail is next
    | Gone                                          // crashed, or the worker is through with it

  /** What made a handler raise: the graph; one of its transactions; or an outcome that
      `persist_outcome` does not accept. */
  datatype Origin = InGraph | InPrepare | InPersist | InOutcome | InFailureRecord

  /** `number` and `limit` are the job's counters as they were when it was claimed. */
  datatype Attempt = Attempt(job: nat, worker: J.Worker, number: nat, limit: int, pc: Pc)

  datatype State = State(jobs: seq<J.Job>, runs: seq<R.Run>, attempts: seq<Attempt>)

  datatype Step =
    | CreateRun(mode: R.Mode, user: nat, query: string, uuid: nat, now: Time)
    | ResumeRun(run: nat, user: nat, authorized: bool, action: R.Action, hash: string, uuid: nat, now: Time)
    | ClaimJob(job: nat, worker: J.Worker, now: Time, asOf: Time)
    | Heartbeat(job: nat, worker: J.Worker, now: Time)
    | ReapJob(job: nat, now: Time)
    | Prepare(attempt: nat, now: Time)
    | SaveArtifact(attempt: nat)
    | GraphReturns(attempt: nat, outcome: R.Outcome)
    | GraphRaises(attempt: nat, code: string)
    | Persist(attempt: nat, now: Time)
    | HandleFailure(attempt: nat, now: Time)
    | TransactionFails(attempt: nat, code: string)
    | CompleteJob(attempt: nat, now: Time)
    | FailJob(attempt: nat, now: Time)
    | Crash(attempt: nat)

  const INITIAL := State([], [], [])

  /** The run an attempt works for, when its job and that run exist. */
  function RunOf(s: State, a: nat): (r: Option<nat>)
    ensures r.Some? ==> a < |s.attempts| && s.attempts[a].job < |s.jobs| && r.value < |s.runs|
                        && r.value == s.jobs[s.attempts[a].job].aggregate
  {
    if a < |s.attempts| && s.attempts[a].job < |s.jobs| && s.jobs[s.attempts[a].job].aggregate < |s.runs|
    then Some(s.jobs[s.attempts[a].job].aggregate) else None
  }

  function SetPc(s: State, a: nat, pc: Pc): State
    requires a < |s.attempts|
  {
    s.(attempts := s.attempts[a := s.attempts[a].(pc := pc)])
  }

  function SetRun(s: State, r: nat, run: R.Run): State
    requires r < |s.runs|
  {
    s.(runs := s.runs[r := run])
  }

  predicate At(s: State, a: nat) {
    a < |s.attempts|
  }

  /** The queue operation a step performs, if any. */
  function QueueOpOf(s: State, step: Step): Option<J.QueueOp> {
    match step
    case CreateRun(mode, user, query, uuid, now) =>
      if R.CreateRun(mode, user, query).Ok?
      then Some(J.Enqueue(uuid, J.Execute, |s.runs|, RUN_JOB_MAX_ATTEMPTS, now)) else None
    case ResumeRun(r, user, authorized, action, hash, uuid, now) =>
      if r < |s.runs| && R.ResumeRun(s.runs[r], user, authorized, action, hash).Ok?
      then Some(J.Enqueue(uuid, J.Resume, r, RUN_JOB_MAX_ATTEMPTS, now)) else None
    case ClaimJob(j, worker, now, asOf) => Some(J.Claim(j, worker, now, asOf))
    case Heartbeat(j, worker, now) => Some(J.Heartbeat(j, worker, now))
    case ReapJob(j, now) => Some(J.Reap(j, now))
    case CompleteJob(a, now) =>
      if At(s, a) && s.attempts[a].pc.HandlerDone?
      then Some(J.Complete(s.attempts[a].job, s.attempts[a].worker, now)) else None
    case FailJob(a, now) =>
      if At(s, a) && s.attempts[a].pc.Failing?
      then Some(J.Fail(s.attempts[a].job, s.attempts[a].worker, now, s.attempts[a].pc.code)) else None
    case _ => None
  }

  function JobsAfter(cfg: J.Config, s: State, step: Step): seq<J.Job> {
    match QueueOpOf(s, step)
    case None => s.jobs
    case Some(op) => J.Apply(cfg, s.jobs, op)
  }

  function Apply(cfg: J.Config, s: State, step: Step): State {
    Work(s, step).(jobs := JobsAfter(cfg, s, step))
  }

  /** The effect of a step on runs and attempts. */
  function Work(s: State, step: Step): State {
    match step
    case CreateRun(mode, user, query, _, _) =>
      var run := R.CreateRun(mode, user, query);
      if run.Ok? then s.(runs := s.runs + [run.value]) else s
    case ResumeRun(r, user, authorized, action, hash, _, _) =>
      if r >= |s.runs| then s
      else
        var run := R.ResumeRun(s.runs[r], user, authorized, action, hash);
        if run.Ok? then SetRun(s, r, run.value) else s
    case ClaimJob(j, worker, _, asOf) =>
      if j < |s.jobs| && J.Claimable(s.jobs[j], asOf)
      then s.(attempts := s.attempts
                          + [Attempt(j, worker, s.jobs[j].attempts + 1, s.jobs[j].maxAttempts, Claimed)])
      else s
    case Heartbeat(_, _, _) => s
    case ReapJob(_, _) => s
    case Prepare(a, now) => DoPrepare(s, a, now)
    case SaveArtifact(a) =>
      var r := RunOf(s, a);
      if r.Some? && s.attempts[a].pc.Invoking?
      then SetRun(s, r.value, R.SaveArtifact(s.runs[r.value])) else s
    case GraphReturns(a, outcome) =>
      if At(s, a) && s.attempts[a].pc.Invoking? then SetPc(s, a, Returned(outcome)) else s
    case GraphRaises(a, code) =>
      if At(s, a) && s.attempts[a].pc.Invoking? then SetPc(s, a, Raised(code)) else s
    case Persist(a, now) => DoPersist(s, a, now)
    case HandleFailure(a, now) => DoHandleFailure(s, a, now)
    case TransactionFails(a, code) =>
      if At(s, a) && InTransaction(s.attempts[a]) then SetPc(s, a, Failing(code, OriginOf(s.attempts[a].pc))) else s
    case CompleteJob(a, _) =>
      if At(s, a) && s.attempts[a].pc.HandlerDone? then SetPc(s, a, Gone) else s
    case FailJob(a, _) =>
      if At(s, a) && s.attempts[a].pc.Failing? then SetPc(s, a, Gone) else s
    case Crash(a) => if At(s, a) then SetPc(s, a, Gone) else s
  }

  /** The next thing the handler does is a transaction; a failed graph call is only written to the
      run on the job's last attempt. */
  predicate InTransaction(at: Attempt) {
    at.pc.Claimed? || at.pc.Returned? || (at.pc.Raised? && at.number >= at.limit)
  }

  function OriginOf(pc: Pc): Origin {
    if pc.Claimed? then InPrepare else if pc.Returned? then InPersist else InFailureRecord
  }

  function DoPrepare(s: State, a: nat, now: Time): State {
    if !At(s, a) || !s.attempts[a].pc.Claimed? then s
    else
      match RunOf(s, a)
      case None => SetPc(s, a, Failing("LookupError", InPrepare))
      case Some(r) =>
        var (run, p) := if s.jobs[s.attempts[a].job].kind.Execute?
                        then R.PrepareExecute(s.runs[r], now) else R.PrepareResume(s.runs[r]);
        var next := match p
          case Skip => HandlerDone
          case Invoke => Invoking(None)
          case InvokeResume(input) => Invoking(Some(input));
        SetPc(SetRun(s, r, run), a, next)
  }

  function DoPersist(s: State, a: nat, now: Time): State {
    if !At(s, a) || !s.attempts[a].pc.Returned? then s
    else
      match RunOf(s, a)
      case None => SetPc(s, a, Failing("LookupError", InPersist))
      case Some(r) =>
        match R.PersistOutcome(s.runs[r], s.attempts[a].pc.outcome, now)
        case Ok(run) => SetPc(SetRun(s, r, run), a, HandlerDone)
        case Err(_) => SetPc(s, a, Failing("RunExecutionContractError", InOutcome))
  }

  function DoHandleFailure(s: State, a: nat, now: Time): State {
    if !At(s, a) || !s.attempts[a].pc.Raised? then s
    else
      var at := s.attempts[a];
      if at.number < at.limit then SetPc(s, a, Failing(at.pc.code, InGraph))
      else
        match RunOf(s, a)
        case None => SetPc(s, a, Failing("LookupError", InFailureRecord))
        case Some(r) =>
          SetPc(SetRun(s, r, R.MarkFinalFailure(s.runs[r], at.pc.code, now)), a, Failing(at.pc.code, InGraph))
  }

  function Exec(cfg: J.Config, steps: seq<Step>): State {
    if steps == [] then INITIAL else Apply(cfg, Exec(cfg, Front(steps)), Last(steps))
  }
}
