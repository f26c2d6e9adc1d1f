/** The run row and its log, changed in place by one transaction at a time
    (application/services/run_execution.py, application/services/runs.py).  Each method
    performs the repository calls of the service and is proved to have exactly the
    effect that the function of the same name in `Runs` describes. */
module RunRows {
  import opened Common
  import opened Runs

  /** What every transaction owes the run: the invariant, and nothing taken back. */
  predicate Kept(before: Run, after: Run) {
    RunInv(after) && Evolves(before, after)
  }

  class RunRow {
    const mode: Mode
    const user: nat
    var status: Status
    var startedAt: Option<Time>
    var finishedAt: Option<Time>
    var log: seq<Event>

    function Value(): Run
      reads this
    {
      Run(mode, user, status, startedAt, finishedAt, log)
    }

    constructor (run: Run)
      ensures Value() == run
    {
      mode, user := run.mode, run.user;
      status, startedAt, finishedAt, log := run.status, run.startedAt, run.finishedAt, run.log;
    }

    method AppendEvent(e: Event)
      modifies this`log
      ensures log == old(log) + [e]
    {
      log := log + [e];
    }

    method SetLifecycle(status: Status, startedAt: Option<Time>, finishedAt: Option<Time>)
      modifies this`status, this`startedAt, this`finishedAt
      ensures this.status == status && this.startedAt == startedAt && this.finishedAt == finishedAt
    {
      this.status, this.startedAt, this.finishedAt := status, startedAt, finishedAt;
    }

    method LatestEventOfType(k: Kind) returns (r: Option<nat>)
      ensures r == Latest(log, k)
    {
      var n := |log|;
      assert log[..n] == log;
      while n > 0
        invariant 0 <= n <= |log|
        invariant Latest(log, k) == Latest(log[..n], k)
      {
        if KindOf(log[n - 1]) == k {
          return Some(n);
        }
        assert Front(log[..n]) == log[..n - 1];
        n := n - 1;
      }
      return None;
    }

    method PrepareExecute(now: Time) returns (p: Preparation)
      modifies this
      ensures (Value(), p) == Runs.PrepareExecute(old(Value()), now)
      ensures RunInv(old(Value())) ==> Kept(old(Value()), Value())
      ensures RunInv(old(Value())) ==> (p.Invoke? <==> !Parked(old(status)) && !ResumeAsked(old(Value())))
      ensures RunInv(old(Value())) ==>
                Value() == if p.Invoke? && old(status).Queued?
                           then old(Value()).(status := Running, startedAt := Some(now), log := old(log) + [RunStarted])
                           else old(Value())
    {
      if RunInv(Value()) {
        PrepareExecuteKeeps(Value(), now);
      }
      if Parked(status) {
        return Skip;
      }
      var queued := LatestEventOfType(QueuedKind);
      if queued.None? {
        return Skip;
      }
      var asked := LatestEventOfType(ResumeQueuedKind);
      var resumed := LatestEventOfType(ResumedKind);
      if Later(asked, queued.value) || Later(resumed, queued.value) {
        return Skip;
      }
      var started := LatestEventOfType(StartedKind);
      if status.Queued? {
        SetLifecycle(Running, if startedAt.Some? then startedAt else Some(now), None);
        if started.None? || started.value < queued.value {
          AppendEvent(RunStarted);
        }
      } else if !status.Running? {
        return Skip;
      }
      return Invoke;
    }

    method PrepareResume() returns (p: Preparation)
      modifies this
      ensures (Value(), p) == Runs.PrepareResume(old(Value()))
      ensures RunInv(old(Value())) ==> Kept(old(Value()), Value())
      ensures RunInv(old(Value())) ==> (p.InvokeResume? <==> !Parked(old(status)) && ResumeAsked(old(Value())))
      ensures RunInv(old(Value())) ==>
                Value() == if p.InvokeResume? && old(status).Queued?
                           then old(Value()).(status := Running, log := old(log) + [Resumed])
                           else old(Value())
    {
      if RunInv(Value()) {
        PrepareResumeKeeps(Value());
      }
      if Parked(status) {
        return Skip;
      }
      if !status.Queued? && !status.Running? {
        return Skip;
      }
      var asked := LatestEventOfType(ResumeQueuedKind);
      if asked.None? {
        return Skip;
      }
      var started := LatestEventOfType(StartedKind);
      if started.Some? && asked.value <= started.value {
        return Skip;
      }
      var resumed := LatestEventOfType(ResumedKind);
      p := InvokeResume(log[asked.value - 1].input);
      BeginResume(asked.value, resumed);
    }

    method BeginResume(asked: nat, resumed: Option<nat>)
      modifies this
      ensures Value() == Resuming(old(Value()), asked, resumed)
    {
      if status.Queued? {
        SetLifecycle(Running, startedAt, None);
      }
      if resumed.None? || resumed.value < asked {
        AppendEvent(Resumed);
      }
    }

    method PersistOutcome(outcome: Outcome, now: Time) returns (r: Result<(), ExecutionError>)
      modifies this
      ensures r.Ok? ==> Runs.PersistOutcome(old(Value()), outcome, now) == Ok(Value())
      ensures r.Err? ==> Runs.PersistOutcome(old(Value()), outcome, now) == Err(r.error) && Value() == old(Value())
      ensures RunInv(old(Value())) && HasStarted(old(Value())) ==> Kept(old(Value()), Value())
      ensures Parked(old(status)) ==> r.Ok? && Value() == old(Value())
      ensures !Parked(old(status)) ==> (r.Ok? <==> WellFormed(outcome))
      ensures !Parked(old(status)) && r.Ok? ==> Settles(old(Value()), outcome, now, Value())
    {
      if RunInv(Value()) && HasStarted(Value()) {
        PersistOutcomeKeeps(Value(), outcome, now);
      }
      if Parked(status) {
        return Ok(());
      }
      match outcome
      case Interrupted(payload) =>
        if payload.None? || payload.value.hash.None? {
          return Err(ContractError);
        }
        SetLifecycle(WaitingConfirmation, startedAt, None);
        AppendEvent(Waiting(payload.value.hash));
        return Ok(());
      case Finished(kind, ref, summary) =>
        var (status, event) := Ending(kind, ref, summary);
        SetLifecycle(status, startedAt, Some(now));
        AppendEvent(event);
        return Ok(());
    }

    method MarkFinalFailure(code: string, now: Time)
      modifies this
      ensures Value() == Runs.MarkFinalFailure(old(Value()), code, now)
      ensures RunInv(old(Value())) && HasStarted(old(Value())) ==> Kept(old(Value()), Value()) && Terminal(status)
      ensures if Terminal(old(status)) then Value() == old(Value())
              else Logged(old(Value()), Value(), Failed, Some(now), RunFailed(code))
    {
      if RunInv(Value()) && HasStarted(Value()) {
        MarkFinalFailureKeeps(Value(), code, now);
      }
      if Terminal(status) {
        return;
      }
      SetLifecycle(Failed, startedAt, Some(now));
      AppendEvent(RunFailed(code));
    }

    method ResumeRun(actor: nat, authorized: bool, action: Action, hash: string) returns (r: Result<(), ResumeError>)
      modifies this
      ensures r.Ok? ==> Runs.ResumeRun(old(Value()), actor, authorized, action, hash) == Ok(Value())
      ensures r.Err? ==> Runs.ResumeRun(old(Value()), actor, authorized, action, hash) == Err(r.error)
                         && Value() == old(Value())
      ensures RunInv(old(Value())) ==> Kept(old(Value()), Value())
      ensures r.Ok? ==> Logged(old(Value()), Value(), Queued, old(finishedAt),
                               ResumeQueued(ResumeInput(action, hash, actor)))
      ensures RunInv(old(Value())) ==>
                (r.Ok? <==> authorized && actor == user && mode.IssueCreate?
                            && old(status).WaitingConfirmation? && AskedHash(old(log)) == Some(hash))
    {
      if RunInv(Value()) {
        ResumeRunKeeps(Value(), actor, authorized, action, hash);
      }
      if !authorized { return Err(AccessDenied); }
      if actor != user { return Err(ActorMismatch); }
      if !mode.IssueCreate? { return Err(WrongMode); }
      if !status.WaitingConfirmation? { return Err(NotWaiting); }
      var waiting := LatestEventOfType(WaitingKind);
      if waiting.None? { return Err(NoWaitingEvent); }
      var expected := log[waiting.value - 1].hash;
      if expected.None? { return Err(NoHash); }
      if hash != expected.value { return Err(HashMismatch); }
      AppendEvent(ResumeQueued(ResumeInput(action, hash, actor)));
      status := Queued;
      return Ok(());
    }
  }
}
