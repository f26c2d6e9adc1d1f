/** Where everything in a run's log comes from: each event goes back to a call of the API, a prepare
    transaction, or what the graph itself returned or raised for that run
    (application/services/runs.py, application/services/run_execution.py, workers/run_execution.py). */
module EngineProvenance {
  import opened Common
  import opened Engine
  import opened EngineInvariant
  import Text
  import J = Jobs
  import R = Runs

  /** The attempt works for run `r`. */
  predicate Serves(s: State, a: nat, r: nat) {
    RunOf(s, a) == Some(r)
  }

  /** The attempt is about to persist this outcome for run `r`. */
  predicate Persists(s: State, step: Step, r: nat, outcome: R.Outcome) {
    step.Persist? && Serves(s, step.attempt, r) && s.attempts[step.attempt].pc == Returned(outcome)
  }

  /** Why the log of run `r` gains event `e` by this step. */
  predicate Reason(s: State, step: Step, r: nat, e: R.Event) {
    match e
    case RunQueued(text) => step.CreateRun? && r == |s.runs| && text == Text.Strip(step.query)
    case ResumeQueued(input) =>
      && step.ResumeRun? && step.run == r && r < |s.runs| && step.authorized && step.user == s.runs[r].user
      && input == R.ResumeInput(step.action, step.hash, step.user) && R.AskedHash(s.runs[r].log) == Some(step.hash)
    case RunStarted =>
      && step.Prepare? && Serves(s, step.attempt, r) && s.attempts[step.attempt].pc.Claimed?
      && s.jobs[s.attempts[step.attempt].job].kind.Execute?
    case Resumed =>
      && step.Prepare? && Serves(s, step.attempt, r) && s.attempts[step.attempt].pc.Claimed?
      && s.jobs[s.attempts[step.attempt].job].kind.Resume?
    case ArtifactAvailable =>
      step.SaveArtifact? && Serves(s, step.attempt, r) && s.attempts[step.attempt].pc.Invoking?
    case Waiting(hash) => hash.Some? && Persists(s, step, r, R.Interrupted(Some(R.WaitingPayload(hash))))
    case RunSucceeded(ref, summary) => Persists(s, step, r, R.Finished(R.SucceededOutcome, ref, summary))
    case RunRefused(ref, summary) => Persists(s, step, r, R.Finished(R.RefusedOutcome, ref, summary))
    case RunCancelled(ref, summary) => Persists(s, step, r, R.Finished(R.CancelledOutcome, ref, summary))
    case RunFailed(code) =>
      && step.HandleFailure? && Serves(s, step.attempt, r) && s.attempts[step.attempt].pc == Raised(code)
      && s.attempts[step.attempt].number >= s.attempts[step.attempt].limit
    case RunProgress => false
  }

  function LogOf(s: State, r: nat): seq<R.Event> {
    if r < |s.runs| then s.runs[r].log else []
  }

  /** A step leaves the log alone, or adds one event for a reason. */
  predicate AddsForAReason(s: State, step: Step, r: nat, before: seq<R.Event>, after: seq<R.Event>) {
    || after == before
    || (|after| == |before| + 1 && before <= after && Reason(s, step, r, Last(after)))
  }

  lemma PrepareAdds(s: State, a: nat, now: Time, r: nat)
    requires Inv(s)
    ensures AddsForAReason(s, Prepare(a, now), r, LogOf(s, r), LogOf(DoPrepare(s, a, now), r))
  {
    if Serves(s, a, r) {
      assert RunOk(s, r) && JobOk(s, s.attempts[a].job);
      if s.jobs[s.attempts[a].job].kind.Execute? {
        R.PrepareExecuteKeeps(s.runs[r], now);
      } else {
        R.PrepareResumeKeeps(s.runs[r]);
      }
    }
  }

  lemma PersistAdds(s: State, a: nat, now: Time, r: nat)
    requires Inv(s)
    ensures AddsForAReason(s, Persist(a, now), r, LogOf(s, r), LogOf(DoPersist(s, a, now), r))
  {
    if Serves(s, a, r) && s.attempts[a].pc.Returned? {
      var outcome := s.attempts[a].pc.outcome;
      assert RunOk(s, r) && AttemptOk(s, s.attempts[a]);
      R.PersistOutcomeKeeps(s.runs[r], outcome, now);
      var persisted := R.PersistOutcome(s.runs[r], outcome, now);
      if persisted.Ok? && !R.Parked(s.runs[r].status) {
        SettlingAdds(s, Persist(a, now), r, outcome, now, persisted.value);
      }
    }
  }

  lemma SettlingAdds(s: State, step: Step, r: nat, outcome: R.Outcome, now: Time, after: R.Run)
    requires r < |s.runs| && Persists(s, step, r, outcome) && R.Settles(s.runs[r], outcome, now, after)
    ensures AddsForAReason(s, step, r, s.runs[r].log, after.log)
  {
  }

  lemma FailureAdds(s: State, a: nat, now: Time, r: nat)
    requires Inv(s)
    ensures AddsForAReason(s, HandleFailure(a, now), r, LogOf(s, r), LogOf(DoHandleFailure(s, a, now), r))
  {
    if Serves(s, a, r) && s.attempts[a].pc.Raised? {
      assert RunOk(s, r) && AttemptOk(s, s.attempts[a]);
      R.MarkFinalFailureKeeps(s.runs[r], s.attempts[a].pc.code, now);
    }
  }

  lemma ApiAdds(s: State, step: Step, r: nat)
    requires Inv(s) && (step.CreateRun? || step.ResumeRun?)
    ensures AddsForAReason(s, step, r, LogOf(s, r), LogOf(Work(s, step), r))
  {
    if step.CreateRun? {
      R.CreateRunIsEnqueued(step.mode, step.user, step.query);
    } else if step.run == r < |s.runs| {
      assert RunOk(s, r);
      R.ResumeRunKeeps(s.runs[r], step.user, step.authorized, step.action, step.hash);
    }
  }

  lemma StepAdds(cfg: J.Config, s: State, step: Step, r: nat)
    requires Inv(s)
    ensures AddsForAReason(s, step, r, LogOf(s, r), LogOf(Apply(cfg, s, step), r))
  {
    match step
    case CreateRun(_, _, _, _, _) => ApiAdds(s, step, r);
    case ResumeRun(_, _, _, _, _, _, _) => ApiAdds(s, step, r);
    case Prepare(a, now) => PrepareAdds(s, a, now, r);
    case Persist(a, now) => PersistAdds(s, a, now, r);
    case HandleFailure(a, now) => FailureAdds(s, a, now, r);
    case _ =>
  }

  /** Step `n` put event `i` into the log of run `r`. */
  predicate PutAt(cfg: J.Config, steps: seq<Step>, n: nat, r: nat, i: nat, e: R.Event) {
    n < |steps| && Reason(Exec(cfg, steps[..n]), steps[n], r, e) && |LogOf(Exec(cfg, steps[..n]), r)| == i
  }

  lemma PrefixOfFront(steps: seq<Step>, n: nat)
    requires steps != [] && n < |steps|
    ensures n < |Front(steps)| ==> steps[..n] == Front(steps)[..n] && steps[n] == Front(steps)[n]
    ensures n == |Front(steps)| ==> steps[..n] == Front(steps) && steps[n] == Last(steps)
  {
  }

  lemma {:induction false} EventWasPut(cfg: J.Config, steps: seq<Step>, r: nat, i: nat)
    requires i < |LogOf(Exec(cfg, steps), r)|
    ensures exists n: nat :: PutAt(cfg, steps, n, r, i, LogOf(Exec(cfg, steps), r)[i])
  {
    if steps != [] {
      var s := Exec(cfg, Front(steps));
      if i < |LogOf(s, r)| {
        EventWasPut(cfg, Front(steps), r, i);
        var n: nat :| PutAt(cfg, Front(steps), n, r, i, LogOf(s, r)[i]);
        PrefixOfFront(steps, n);
        LastPuts(cfg, steps, r, i);
        assert PutAt(cfg, steps, n, r, i, LogOf(Exec(cfg, steps), r)[i]);
      } else {
        LastPuts(cfg, steps, r, i);
      }
    }
  }

  /** The last step leaves what there was, and puts what there was not. */
  lemma LastPuts(cfg: J.Config, steps: seq<Step>, r: nat, i: nat)
    requires steps != [] && i < |LogOf(Exec(cfg, steps), r)|
    ensures var before, after := LogOf(Exec(cfg, Front(steps)), r), LogOf(Exec(cfg, steps), r);
            if i < |before| then before[i] == after[i] else PutAt(cfg, steps, |steps| - 1, r, i, after[i])
  {
    Reachable(cfg, Front(steps));
    StepAdds(cfg, Exec(cfg, Front(steps)), Last(steps), r);
    PrefixOfFront(steps, |steps| - 1);
  }

  // ----------------------------------------------------- what the graph reported

  /** The graph, while attempt `a` was inside it, returned or raised what `pc` holds. */
  predicate Reports(s: State, step: Step, a: nat, pc: Pc) {
    && At(s, a) && s.attempts[a].pc.Invoking?
    && ((pc.Returned? && step == GraphReturns(a, pc.outcome)) || (pc.Raised? && step == GraphRaises(a, pc.code)))
  }

  predicate ReportedAt(cfg: J.Config, steps: seq<Step>, m: nat, a: nat, pc: Pc) {
    m < |steps| && Reports(Exec(cfg, steps[..m]), steps[m], a, pc)
  }

  lemma StepReports(cfg: J.Config, s: State, step: Step, a: nat)
    requires a < |Apply(cfg, s, step).attempts|
    ensures var pc := Apply(cfg, s, step).attempts[a].pc;
            pc.Returned? || pc.Raised? ==> (At(s, a) && s.attempts[a].pc == pc) || Reports(s, step, a, pc)
  {
  }

  lemma {:induction false} PcWasReported(cfg: J.Config, steps: seq<Step>, a: nat, pc: Pc)
    requires a < |Exec(cfg, steps).attempts| && Exec(cfg, steps).attempts[a].pc == pc && (pc.Returned? || pc.Raised?)
    ensures exists m: nat :: ReportedAt(cfg, steps, m, a, pc)
  {
    if steps != [] {
      var s := Exec(cfg, Front(steps));
      StepReports(cfg, s, Last(steps), a);
      if At(s, a) && s.attempts[a].pc == pc {
        PcWasReported(cfg, Front(steps), a, pc);
        var m: nat :| ReportedAt(cfg, Front(steps), m, a, pc);
        PrefixOfFront(steps, m);
        assert ReportedAt(cfg, steps, m, a, pc);
      } else {
        PrefixOfFront(steps, |steps| - 1);
        assert ReportedAt(cfg, steps, |steps| - 1, a, pc);
      }
    }
  }

  /** An attempt keeps its job, and a job its run and kind. */
  lemma StepKeepsJobs(cfg: J.Config, s: State, step: Step, a: nat)
    requires a < |s.attempts| && s.attempts[a].job < |s.jobs|
    ensures var t, j := Apply(cfg, s, step), s.attempts[a].job;
            && a < |t.attempts| && t.attempts[a].job == j && j < |t.jobs|
            && t.jobs[j].aggregate == s.jobs[j].aggregate && t.jobs[j].kind == s.jobs[j].kind
            && |s.runs| <= |t.runs|
  {
  }

  lemma {:induction false} ServesAlways(cfg: J.Config, steps: seq<Step>, m: nat, a: nat, r: nat)
    requires m <= |steps| && At(Exec(cfg, steps[..m]), a) && Serves(Exec(cfg, steps), a, r)
    ensures Serves(Exec(cfg, steps[..m]), a, r)
  {
    if m < |steps| {
      assert Front(steps)[..m] == steps[..m];
      AttemptsStay(cfg, Front(steps), m, a);
      Reachable(cfg, Front(steps));
      assert AttemptOk(Exec(cfg, Front(steps)), Exec(cfg, Front(steps)).attempts[a]);
      StepKeepsJobs(cfg, Exec(cfg, Front(steps)), Last(steps), a);
      ServesAlways(cfg, Front(steps), m, a, r);
    } else {
      assert steps[..m] == steps;
    }
  }

  lemma {:induction false} AttemptsStay(cfg: J.Config, steps: seq<Step>, m: nat, a: nat)
    requires m <= |steps| && At(Exec(cfg, steps[..m]), a)
    ensures At(Exec(cfg, steps), a)
  {
    if m < |steps| {
      assert Front(steps)[..m] == steps[..m];
      AttemptsStay(cfg, Front(steps), m, a);
    } else {
      assert steps[..m] == steps;
    }
  }

  /** The graph was inside an attempt for run `r`, and this is what came out of it. */
  predicate GraphSaid(s: State, step: Step, r: nat, outcome: R.Outcome) {
    && step.GraphReturns? && step.outcome == outcome
    && Serves(s, step.attempt, r) && s.attempts[step.attempt].pc.Invoking?
  }

  predicate GraphFailed(s: State, step: Step, r: nat, code: string) {
    && step.GraphRaises? && step.code == code
    && Serves(s, step.attempt, r) && s.attempts[step.attempt].pc.Invoking?
  }

  /** The step with which event `e` of run `r` began. */
  predicate Origin(s: State, step: Step, r: nat, e: R.Event) {
    match e
    case RunSucceeded(ref, summary) => GraphSaid(s, step, r, R.Finished(R.SucceededOutcome, ref, summary))
    case RunRefused(ref, summary) => GraphSaid(s, step, r, R.Finished(R.RefusedOutcome, ref, summary))
    case RunCancelled(ref, summary) => GraphSaid(s, step, r, R.Finished(R.CancelledOutcome, ref, summary))
    case Waiting(hash) => GraphSaid(s, step, r, R.Interrupted(Some(R.WaitingPayload(hash))))
    case RunFailed(code) => GraphFailed(s, step, r, code)
    case _ => Reason(s, step, r, e)
  }

  predicate BeganAt(cfg: J.Config, steps: seq<Step>, m: nat, r: nat, e: R.Event) {
    m < |steps| && Origin(Exec(cfg, steps[..m]), steps[m], r, e)
  }

  predicate FromGraph(e: R.Event) {
    R.TerminalEvent(e) || e.Waiting?
  }

  /** What was persisted had been reported. */
  lemma PutWasReported(cfg: J.Config, steps: seq<Step>, n: nat, r: nat, e: R.Event)
    requires n < |steps| && FromGraph(e) && Reason(Exec(cfg, steps[..n]), steps[n], r, e)
    ensures exists m: nat :: m < n && BeganAt(cfg, steps, m, r, e)
  {
    var s, a := Exec(cfg, steps[..n]), steps[n].attempt;
    PcWasReported(cfg, steps[..n], a, s.attempts[a].pc);
    var m: nat :| ReportedAt(cfg, steps[..n], m, a, s.attempts[a].pc);
    assert steps[..n][..m] == steps[..m] && steps[..n][m] == steps[m];
    ServesAlways(cfg, steps[..n], m, a, r);
    assert BeganAt(cfg, steps, m, r, e);
  }

  /** Nothing in a log is made up.  Every terminal event, every question and every failure is what the
      graph returned or raised earlier, inside an attempt for that very run, with that result or
      that code; every resume is what the run's own user asked for; and so on for the other kinds. */
  lemma EventsHaveOrigins(cfg: J.Config, steps: seq<Step>, r: nat, i: nat)
    requires r < |Exec(cfg, steps).runs| && i < |Exec(cfg, steps).runs[r].log|
    ensures exists m: nat :: BeganAt(cfg, steps, m, r, Exec(cfg, steps).runs[r].log[i])
  {
    var e := LogOf(Exec(cfg, steps), r)[i];
    EventWasPut(cfg, steps, r, i);
    var n: nat :| PutAt(cfg, steps, n, r, i, e);
    if FromGraph(e) {
      PutWasReported(cfg, steps, n, r, e);
    } else {
      assert BeganAt(cfg, steps, n, r, e);
    }
  }

  // ------------------------------------------------- what the graph is given

  /** Inside the graph, an attempt of a resume job has an input, and one of an execute job has none. */
  predicate InputFits(s: State, at: Attempt) {
    at.job < |s.jobs| && (at.pc.Invoking? ==> (at.pc.input.Some? <==> s.jobs[at.job].kind.Resume?))
  }

  lemma StepKeepsInputs(cfg: J.Config, s: State, step: Step, a: nat)
    requires Inv(s) && a < |Apply(cfg, s, step).attempts|
    requires a < |s.attempts| ==> InputFits(s, s.attempts[a])
    ensures InputFits(Apply(cfg, s, step), Apply(cfg, s, step).attempts[a])
  {
    if a < |s.attempts| {
      StepKeepsJobs(cfg, s, step, a);
      assert JobOk(s, s.attempts[a].job) && AttemptOk(s, s.attempts[a]);
      if step.Prepare? && step.attempt == a {
        PrepareFits(s, a, step.now);
      }
    }
  }

  lemma PrepareFits(s: State, a: nat, now: Time)
    requires Inv(s) && At(s, a) && InputFits(s, s.attempts[a])
    ensures At(DoPrepare(s, a, now), a) && InputFits(s, DoPrepare(s, a, now).attempts[a])
  {
    if RunOf(s, a).Some? {
      var r := RunOf(s, a).value;
      assert RunOk(s, r) && JobOk(s, s.attempts[a].job);
      R.PrepareExecuteKeeps(s.runs[r], now);
      R.PrepareResumeKeeps(s.runs[r]);
    }
  }

  lemma {:induction false} ResumeGetsItsInput(cfg: J.Config, steps: seq<Step>, a: nat)
    requires a < |Exec(cfg, steps).attempts|
    ensures InputFits(Exec(cfg, steps), Exec(cfg, steps).attempts[a])
  {
    if steps != [] {
      var s := Exec(cfg, Front(steps));
      Reachable(cfg, Front(steps));
      if a < |s.attempts| {
        ResumeGetsItsInput(cfg, Front(steps), a);
      }
      StepKeepsInputs(cfg, s, Last(steps), a);
    }
  }
}
