/** The durable run and its event log (application/services/runs.py and
    application/services/run_execution.py).

    Every operation is one transaction on one run, given as a function of the run;
    `RunRows` holds the step-by-step form.  The lifecycle automaton and the invariant
    every operation keeps follow. */
module Runs {
  import opened Common
  import Text

  datatype Mode = Qa | IssueLookup | IssueCreate

  datatype Status =
    | Queued | Running | WaitingConfirmation
    | Succeeded | Refused | Cancelled | Failed

  datatype Action = Confirm | Cancel

  datatype ResumeInput = ResumeInput(action: Action, hash: string, actor: nat)

  /** `hash` is absent when the stored payload has no string under that key. */
  datatype Event =
    | RunQueued(query: string)
    | RunStarted
    | RunProgress
    | ArtifactAvailable
    | Waiting(hash: Option<string>)
    | ResumeQueued(input: ResumeInput)
    | Resumed
    | RunSucceeded(ref: Option<string>, summary: Option<string>)
    | RunRefused(ref: Option<string>, summary: Option<string>)
    | RunCancelled(ref: Option<string>, summary: Option<string>)
    | RunFailed(code: string)

  datatype Kind = QueuedKind | StartedKind | WaitingKind | ResumeQueuedKind | ResumedKind | OtherKind

  /** An event's sequence number is its position in the log, counted from 1. */
  datatype Run = Run(
    mode: Mode,
    user: nat,
    status: Status,
    startedAt: Option<Time>,
    finishedAt: Option<Time>,
    log: seq<Event>)

  predicate Terminal(s: Status) {
    s.Succeeded? || s.Refused? || s.Cancelled? || s.Failed?
  }

  predicate TerminalEvent(e: Event) {
    e.RunSucceeded? || e.RunRefused? || e.RunCancelled? || e.RunFailed?
  }

  /** Nothing is left for a worker to do. */
  predicate Parked(s: Status) {
    s.WaitingConfirmation? || Terminal(s)
  }

  function KindOf(e: Event): Kind {
    match e
    case RunQueued(_) => QueuedKind
    case RunStarted => StartedKind
    case Waiting(_) => WaitingKind
    case ResumeQueued(_) => ResumeQueuedKind
    case Resumed => ResumedKind
    case _ => OtherKind
  }

  /** `latest_event_of_type`: the sequence number of the newest event of a kind. */
  function Latest(log: seq<Event>, k: Kind): (r: Option<nat>)
    ensures r.Some? ==> 1 <= r.value <= |log| && KindOf(log[r.value - 1]) == k
  {
    if log == [] then None
    else if KindOf(Last(log)) == k then Some(|log|)
    else Latest(Front(log), k)
  }

  /** ... and no event of that kind stands after it. */
  lemma {:induction false} LatestIsNewest(log: seq<Event>, k: Kind)
    ensures var r := Latest(log, k);
            forall i :: (if r.Some? then r.value else 0) <= i < |log| ==> KindOf(log[i]) != k
  {
    if log != [] && KindOf(Last(log)) != k {
      LatestIsNewest(Front(log), k);
      assert forall i :: 0 <= i < |Front(log)| ==> log[i] == Front(log)[i];
    }
  }

  // --------------------------------------------------------------- operations

  datatype Preparation = Skip | Invoke | InvokeResume(input: ResumeInput)

  /** What the graph hands back. */
  datatype Outcome =
    | Finished(kind: TerminalKind, ref: Option<string>, summary: Option<string>)
    | Interrupted(payload: Option<WaitingPayload>)

  datatype TerminalKind = SucceededOutcome | RefusedOutcome | CancelledOutcome

  datatype WaitingPayload = WaitingPayload(hash: Option<string>)

  datatype ExecutionError = ContractError

  datatype ResumeError = AccessDenied | ActorMismatch | WrongMode | NotWaiting | NoWaitingEvent | NoHash | HashMismatch

  function CreateRun(mode: Mode, user: nat, query: string): Result<Run, string> {
    var text := Text.Strip(query);
    if text == "" then Err("query text must not be blank")
    else Ok(Run(mode, user, Queued, None, None, [RunQueued(text)]))
  }

  predicate Later(event: Option<nat>, than: nat) {
    event.Some? && event.value > than
  }

  function PrepareExecute(run: Run, now: Time): (Run, Preparation) {
    if Parked(run.status) then (run, Skip)
    else
      match Latest(run.log, QueuedKind)
      case None => (run, Skip)
      case Some(queued) =>
        if Later(Latest(run.log, ResumeQueuedKind), queued) || Later(Latest(run.log, ResumedKind), queued) then
          (run, Skip)
        else if run.status.Queued? then
          var started := Latest(run.log, StartedKind);
          var running := run.(status := Running,
                              startedAt := if run.startedAt.Some? then run.startedAt else Some(now),
                              finishedAt := None);
          if started.None? || started.value < queued then
            (running.(log := run.log + [RunStarted]), Invoke)
          else
            (running, Invoke)
        else if !run.status.Running? then (run, Skip)
        else (run, Invoke)
  }

  function PrepareResume(run: Run): (Run, Preparation) {
    if Parked(run.status) then (run, Skip)
    else if !run.status.Queued? && !run.status.Running? then (run, Skip)
    else
      match Latest(run.log, ResumeQueuedKind)
      case None => (run, Skip)
      case Some(asked) =>
        var started := Latest(run.log, StartedKind);
        if started.Some? && asked <= started.value then (run, Skip)
        else
          (Resuming(run, asked, Latest(run.log, ResumedKind)), InvokeResume(run.log[asked - 1].input))
  }

  function Resuming(run: Run, asked: nat, resumed: Option<nat>): Run {
    var running := if run.status.Queued? then run.(status := Running, finishedAt := None) else run;
    if resumed.None? || resumed.value < asked then running.(log := run.log + [Resumed]) else running
  }

  function Ending(kind: TerminalKind, ref: Option<string>, summary: Option<string>): (Status, Event) {
    match kind
    case SucceededOutcome => (Succeeded, RunSucceeded(ref, summary))
    case RefusedOutcome => (Refused, RunRefused(ref, summary))
    case CancelledOutcome => (Cancelled, RunCancelled(ref, summary))
  }

  function PersistOutcome(run: Run, outcome: Outcome, now: Time): Result<Run, ExecutionError> {
    if Parked(run.status) then Ok(run)
    else
      match outcome
      case Interrupted(payload) =>
        if payload.None? || payload.value.hash.None? then Err(ContractError)
        else Ok(run.(status := WaitingConfirmation, finishedAt := None,
                     log := run.log + [Waiting(payload.value.hash)]))
      case Finished(kind, ref, summary) =>
        var (status, event) := Ending(kind, ref, summary);
        Ok(run.(status := status, finishedAt := Some(now), log := run.log + [event]))
  }

  function MarkFinalFailure(run: Run, code: string, now: Time): Run {
    if Terminal(run.status) then run
    else run.(status := Failed, finishedAt := Some(now), log := run.log + [RunFailed(code)])
  }

  /** `authorized` is the verdict of the authorization service for the run's project. */
  function ResumeRun(run: Run, user: nat, authorized: bool, action: Action, hash: string): Result<Run, ResumeError> {
    if !authorized then Err(AccessDenied)
    else if user != run.user then Err(ActorMismatch)
    else if !run.mode.IssueCreate? then Err(WrongMode)
    else if !run.status.WaitingConfirmation? then Err(NotWaiting)
    else
      match Latest(run.log, WaitingKind)
      case None => Err(NoWaitingEvent)
      case Some(w) =>
        var expected := run.log[w - 1].hash;
        if expected.None? then Err(NoHash)
        else if hash != expected.value then Err(HashMismatch)
        else Ok(run.(status := Queued, log := run.log + [ResumeQueued(ResumeInput(action, hash, user))]))
  }

  /** A graph node saving an artifact appends to the log and touches nothing else. */
  function SaveArtifact(run: Run): Run {
    run.(log := run.log + [ArtifactAvailable])
  }

  // ---------------------------------------------------- the lifecycle automaton

  datatype Phase =
    | Fresh       // no event yet
    | Enqueued    // RUN_QUEUED, never started
    | Started     // RUN_STARTED, never resumed
    | Waits       // WAITING_CONFIRMATION
    | Requeued    // RUN_RESUME_QUEUED
    | Restarted   // RUN_RESUMED
    | Over(status: Status)
    | Illegal

  /** The status an event stands for (evaluation/collector.py `_event_status`). */
  function EventStatus(e: Event): Option<Status> {
    match e
    case RunQueued(_) => Some(Queued)
    case RunStarted => Some(Running)
    case ResumeQueued(_) => Some(Queued)
    case Resumed => Some(Running)
    case Waiting(_) => Some(WaitingConfirmation)
    case RunSucceeded(_, _) => Some(Succeeded)
    case RunRefused(_, _) => Some(Refused)
    case RunCancelled(_, _) => Some(Cancelled)
    case RunFailed(_) => Some(Failed)
    case RunProgress => None
    case ArtifactAvailable => None
  }

  function Delta(p: Phase, e: Event): Phase {
    if EventStatus(e).None? then
      if p.Fresh? then Illegal else p
    else
      match p
      case Fresh => if e.RunQueued? then Enqueued else Illegal
      case Enqueued => if e.RunStarted? then Started else Illegal
      case Waits =>
        if e.ResumeQueued? then Requeued else if e.RunFailed? then Over(Failed) else Illegal
      case Started =>
        if e.Waiting? then Waits else if TerminalEvent(e) then Over(EventStatus(e).value) else Illegal
      case Restarted =>
        if e.Waiting? then Waits else if TerminalEvent(e) then Over(EventStatus(e).value) else Illegal
      case Requeued =>
        if e.Resumed? then Restarted else if e.Waiting? then Waits
        else if TerminalEvent(e) then Over(EventStatus(e).value) else Illegal
      case Over(_) => Illegal
      case Illegal => Illegal
  }

  function PhaseStatus(p: Phase): Status {
    match p
    case Fresh => Queued
    case Enqueued => Queued
    case Started => Running
    case Waits => WaitingConfirmation
    case Requeued => Queued
    case Restarted => Running
    case Over(s) => s
    case Illegal => Failed
  }

  // ---------------------------------------------- what a log says, read directly

  function PhaseOf(log: seq<Event>): Phase {
    if log == [] then Fresh else Delta(PhaseOf(Front(log)), Last(log))
  }

  /** The status of the last event that stands for one. */
  function ProjectedStatus(log: seq<Event>): Option<Status> {
    if log == [] then None
    else if EventStatus(Last(log)).Some? then EventStatus(Last(log))
    else ProjectedStatus(Front(log))
  }

  function TerminalEvents(log: seq<Event>): nat {
    if log == [] then 0
    else TerminalEvents(Front(log)) + if TerminalEvent(Last(log)) then 1 else 0
  }

  /** The hash the user was last asked to confirm. */
  function AskedHash(log: seq<Event>): Option<string> {
    match Latest(log, WaitingKind)
    case None => None
    case Some(w) => log[w - 1].hash
  }

  /** Every question carries a hash, and every queued resume answers the question asked last. */
  predicate HashesBound(log: seq<Event>) {
    log == []
    || (HashesBound(Front(log))
        && (Last(log).Waiting? ==> Last(log).hash.Some?)
        && (Last(log).ResumeQueued? ==> AskedHash(Front(log)) == Some(Last(log).input.hash)))
  }

  // ------------------------------------------------- the same, in one pass

  /** Everything the invariant needs from a log, folded over it once. */
  datatype Digest = Digest(
    size: nat,
    phase: Phase,
    queued: Option<nat>,
    started: Option<nat>,
    asked: Option<nat>,
    resumed: Option<nat>,
    hash: Option<string>,
    bound: bool)

  function Extend(d: Digest, e: Event): Digest {
    var n := d.size + 1;
    Digest(
      n,
      Delta(d.phase, e),
      if e.RunQueued? then Some(n) else d.queued,
      if e.RunStarted? then Some(n) else d.started,
      if e.ResumeQueued? then Some(n) else d.asked,
      if e.Resumed? then Some(n) else d.resumed,
      if e.Waiting? then e.hash else d.hash,
      d.bound && (e.Waiting? ==> e.hash.Some?) && (e.ResumeQueued? ==> d.hash == Some(e.input.hash)))
  }

  function DigestOf(log: seq<Event>): (d: Digest)
    ensures d.size == |log|
  {
    if log == [] then Digest(0, Fresh, None, None, None, None, None, true)
    else Extend(DigestOf(Front(log)), Last(log))
  }

  /** Where the digest saw the newest event of a kind. */
  function Position(d: Digest, k: Kind): Option<nat> {
    match k
    case QueuedKind => d.queued
    case StartedKind => d.started
    case ResumeQueuedKind => d.asked
    case ResumedKind => d.resumed
    case WaitingKind => None
    case OtherKind => None
  }

  lemma {:induction false} DigestPosition(log: seq<Event>, k: Kind)
    requires !k.WaitingKind? && !k.OtherKind?
    ensures Position(DigestOf(log), k) == Latest(log, k)
  {
    if log != [] {
      DigestPosition(Front(log), k);
    }
  }

  lemma {:induction false} DigestHash(log: seq<Event>)
    ensures DigestOf(log).hash == AskedHash(log)
  {
    if log != [] {
      DigestHash(Front(log));
    }
  }

  /** The one-pass digest agrees with the direct readings. */
  lemma DigestIsFaithful(log: seq<Event>)
    ensures DigestOf(log).queued == Latest(log, QueuedKind)
    ensures DigestOf(log).started == Latest(log, StartedKind)
    ensures DigestOf(log).asked == Latest(log, ResumeQueuedKind)
    ensures DigestOf(log).resumed == Latest(log, ResumedKind)
    ensures DigestOf(log).hash == AskedHash(log)
  {
    DigestPosition(log, QueuedKind);
    DigestPosition(log, StartedKind);
    DigestPosition(log, ResumeQueuedKind);
    DigestPosition(log, ResumedKind);
    DigestHash(log);
  }

  lemma {:induction false} DigestPhase(log: seq<Event>)
    ensures DigestOf(log).phase == PhaseOf(log)
    ensures DigestOf(log).bound == HashesBound(log)
  {
    if log != [] {
      DigestPhase(Front(log));
      DigestHash(Front(log));
    }
  }

  // ------------------------------------------------------------- the invariant

  /** What every reachable run satisfies. */
  predicate RunInv(run: Run) {
    var d := DigestOf(run.log);
    && !d.phase.Fresh? && !d.phase.Illegal?
    && (d.phase.Over? ==> Terminal(d.phase.status))
    && run.status == PhaseStatus(d.phase)
    && (run.startedAt.Some? <==> d.started.Some?)
    && (run.finishedAt.Some? <==> Terminal(run.status))
    && d.queued == Some(1)
    && (d.started.Some? <==> !d.phase.Enqueued?)
    && (d.asked.Some? ==> d.started.Some? && d.started.value < d.asked.value)
    && (d.resumed.Some? ==> d.asked.Some? && d.resumed.value <= d.size)
    && (d.asked.Some? ==> d.asked.value <= d.size)
    && (d.started.Some? ==> 1 <= d.started.value <= d.size)
    && (d.phase.Enqueued? || d.phase.Started? ==> d.asked.None?)
    && (d.phase.Requeued? || d.phase.Restarted? ==> d.asked.Some?)
    && (d.phase.Requeued? ==> d.resumed.None? || d.resumed.value < d.asked.value)
    && (d.phase.Restarted? ==> d.resumed.Some? && d.asked.value < d.resumed.value)
    && (d.phase.Waits? ==> d.hash.Some?)
    && d.bound
  }

  predicate HasStarted(run: Run) {
    DigestOf(run.log).started.Some?
  }

  predicate ResumeAsked(run: Run) {
    DigestOf(run.log).asked.Some?
  }

  /** How a run may change over any stretch of time: the log only grows, a terminal run keeps
      its status and timestamps, and the start instant is written once. */
  predicate Evolves(a: Run, b: Run) {
    && a.log <= b.log
    && a.mode == b.mode && a.user == b.user
    && (a.startedAt.Some? ==> b.startedAt == a.startedAt)
    && (Terminal(a.status) ==> b.status == a.status && b.finishedAt == a.finishedAt
                               && b.startedAt == a.startedAt)
  }

  /** The invariant in the log's own terms: the log is a word of the automaton, the status
      is that of the last event standing for one, a terminal run has exactly one terminal
      event and any other run has none, and every resume is bound to the question it answers. */
  lemma StatusIsProjection(run: Run)
    requires RunInv(run)
    ensures !PhaseOf(run.log).Illegal?
    ensures ProjectedStatus(run.log) == Some(run.status)
    ensures TerminalEvents(run.log) == if Terminal(run.status) then 1 else 0
    ensures run.finishedAt.Some? <==> Terminal(run.status)
    ensures run.startedAt.Some? <==> Latest(run.log, StartedKind).Some?
    ensures HashesBound(run.log)
  {
    DigestPhase(run.log);
    DigestIsFaithful(run.log);
    PhaseProjects(run.log);
  }

  lemma {:induction false} PhaseProjects(log: seq<Event>)
    requires !PhaseOf(log).Illegal?
    ensures PhaseOf(log).Over? ==> Terminal(PhaseOf(log).status)
    ensures log != [] ==> !PhaseOf(log).Fresh? && ProjectedStatus(log) == Some(PhaseStatus(PhaseOf(log)))
    ensures TerminalEvents(log) == if Terminal(PhaseStatus(PhaseOf(log))) then 1 else 0
  {
    if log != [] {
      PhaseProjects(Front(log));
    }
  }

  /** A lawful event, with the columns it calls for, keeps the invariant. */
  lemma LawfulEventKeeps(run: Run, after: Run, e: Event)
    requires RunInv(run) && after.log == run.log + [e]
    requires !Delta(DigestOf(run.log).phase, e).Illegal?
    requires after.status == if EventStatus(e).Some? then EventStatus(e).value else run.status
    requires after.startedAt.Some? == (run.startedAt.Some? || e.RunStarted?)
    requires after.finishedAt.Some? == Terminal(after.status)
    requires e.Waiting? ==> e.hash.Some?
    requires e.ResumeQueued? ==> DigestOf(run.log).hash == Some(e.input.hash)
    ensures RunInv(after)
    ensures ResumeAsked(after) == (ResumeAsked(run) || e.ResumeQueued?)
    ensures HasStarted(after) == (HasStarted(run) || e.RunStarted?)
  {
  }

  /** A run is created exactly from a query that is not blank, and is enqueued with its text. */
  lemma CreateRunIsEnqueued(mode: Mode, user: nat, query: string)
    ensures CreateRun(mode, user, query).Ok? <==> exists i :: 0 <= i < |query| && !Text.IsSpace(query[i])
    ensures CreateRun(mode, user, query).Ok? ==>
              && CreateRun(mode, user, query).value
              == Run(mode, user, Queued, None, None, [RunQueued(Text.Strip(query))])
              && RunInv(CreateRun(mode, user, query).value)
  {
    Text.StripIsBlank(query);
  }

  /** The run as it stands with one more event. */
  predicate Logged(before: Run, after: Run, status: Status, finishedAt: Option<Time>, e: Event) {
    after == before.(status := status, finishedAt := finishedAt, log := before.log + [e])
  }

  /** What the graph's outcome means for a run that is not parked. */
  predicate Settles(before: Run, outcome: Outcome, now: Time, after: Run) {
    match outcome
    case Finished(SucceededOutcome, ref, summary) =>
      Logged(before, after, Succeeded, Some(now), RunSucceeded(ref, summary))
    case Finished(RefusedOutcome, ref, summary) =>
      Logged(before, after, Refused, Some(now), RunRefused(ref, summary))
    case Finished(CancelledOutcome, ref, summary) =>
      Logged(before, after, Cancelled, Some(now), RunCancelled(ref, summary))
    case Interrupted(payload) =>
      && payload.Some? && payload.value.hash.Some? && AskedHash(after.log) == payload.value.hash
      && Logged(before, after, WaitingConfirmation, None, Waiting(payload.value.hash))
  }

  /** The outcome names the hash the user is to confirm, if it asks for a confirmation. */
  predicate WellFormed(outcome: Outcome) {
    outcome.Interrupted? ==> outcome.payload.Some? && outcome.payload.value.hash.Some?
  }

  lemma PrepareExecuteKeeps(run: Run, now: Time)
    requires RunInv(run)
    ensures var (after, p) := PrepareExecute(run, now);
            && RunInv(after) && Evolves(run, after)
            && ResumeAsked(after) == ResumeAsked(run)
            && (p.Skip? ==> after == run && (Parked(run.status) || ResumeAsked(run)))
            && (p.Invoke? <==> !Parked(run.status) && !ResumeAsked(run))
            && (p.Invoke? ==> after.status.Running? && HasStarted(after))
            && (p.Invoke? ==> if run.status.Queued?
                              then after == run.(status := Running, startedAt := Some(now),
                                                 log := run.log + [RunStarted])
                              else after == run)
            && !p.InvokeResume?
  {
    DigestIsFaithful(run.log);
    if run.status.Queued? && !ResumeAsked(run) {
      LawfulEventKeeps(run, PrepareExecute(run, now).0, RunStarted);
    }
  }

  lemma PrepareResumeCases(run: Run)
    requires RunInv(run)
    ensures var d := DigestOf(run.log);
            if Parked(run.status) || d.asked.None? then PrepareResume(run) == (run, Skip)
            else PrepareResume(run).0 == Resuming(run, d.asked.value, d.resumed) && PrepareResume(run).1.InvokeResume?
  {
    DigestPosition(run.log, StartedKind);
    DigestPosition(run.log, ResumeQueuedKind);
    DigestPosition(run.log, ResumedKind);
  }

  lemma ResumingKeeps(run: Run)
    requires RunInv(run) && !Parked(run.status) && ResumeAsked(run)
    ensures var d := DigestOf(run.log);
            var after := Resuming(run, d.asked.value, d.resumed);
            && RunInv(after) && Evolves(run, after) && ResumeAsked(after) && HasStarted(after)
            && after == if run.status.Queued? then run.(status := Running, log := run.log + [Resumed]) else run
  {
    var d := DigestOf(run.log);
    if run.status.Queued? {
      LawfulEventKeeps(run, Resuming(run, d.asked.value, d.resumed), Resumed);
    }
  }

  lemma PrepareResumeKeeps(run: Run)
    requires RunInv(run)
    ensures var (after, p) := PrepareResume(run);
            && RunInv(after) && Evolves(run, after)
            && ResumeAsked(after) == ResumeAsked(run)
            && (p.Skip? ==> after == run && (Parked(run.status) || !ResumeAsked(run)))
            && (p.InvokeResume? <==> !Parked(run.status) && ResumeAsked(run))
            && (p.InvokeResume? ==> after.status.Running? && HasStarted(after))
            && (p.InvokeResume? ==> if run.status.Queued?
                                    then after == run.(status := Running, log := run.log + [Resumed])
                                    else after == run)
            && !p.Invoke?
  {
    PrepareResumeCases(run);
    if !Parked(run.status) && ResumeAsked(run) {
      ResumingKeeps(run);
    }
  }

  /** The payload handed to `graph.resume` is that of the newest RUN_RESUME_QUEUED event, and
      its hash is the one the user was last asked about before that event. */
  lemma ResumePayloadIsNewest(run: Run)
    requires RunInv(run) && PrepareResume(run).1.InvokeResume?
    ensures var n := Latest(run.log, ResumeQueuedKind);
            n.Some? && run.log[n.value - 1] == ResumeQueued(PrepareResume(run).1.input)
            && AskedHash(run.log[..n.value - 1]) == Some(PrepareResume(run).1.input.hash)
  {
    var n := Latest(run.log, ResumeQueuedKind).value;
    DigestPhase(run.log);
    HashesBoundAt(run.log, n - 1);
  }

  lemma {:induction false} HashesBoundAt(log: seq<Event>, i: nat)
    requires HashesBound(log) && i < |log|
    ensures log[i].Waiting? ==> log[i].hash.Some?
    ensures log[i].ResumeQueued? ==> AskedHash(log[..i]) == Some(log[i].input.hash)
  {
    if i == |log| - 1 {
      assert log[..i] == Front(log);
    } else {
      HashesBoundAt(Front(log), i);
      assert Front(log)[..i] == log[..i];
    }
  }

  /** A parked run is left alone.  Any other ends as the graph says: in the status of the outcome, with
      its event, reference and summary, now; or waiting for the hash of the payload.  The one error
      is an interruption without a hash. */
  lemma PersistOutcomeKeeps(run: Run, outcome: Outcome, now: Time)
    requires RunInv(run) && HasStarted(run)
    ensures var r := PersistOutcome(run, outcome, now);
            && (r.Ok? ==> RunInv(r.value) && Evolves(run, r.value) && Parked(r.value.status)
                          && ResumeAsked(r.value) == ResumeAsked(run) && HasStarted(r.value))
            && (Parked(run.status) ==> r == Ok(run))
            && (!Parked(run.status) ==> (r.Ok? <==> WellFormed(outcome))
                                        && (r.Ok? ==> Settles(run, outcome, now, r.value)))
  {
    var r := PersistOutcome(run, outcome, now);
    if !Parked(run.status) && r.Ok? {
      LawfulEventKeeps(run, r.value, Last(r.value.log));
    }
  }

  lemma MarkFinalFailureKeeps(run: Run, code: string, now: Time)
    requires RunInv(run) && HasStarted(run)
    ensures var after := MarkFinalFailure(run, code, now);
            && RunInv(after) && Evolves(run, after) && Terminal(after.status)
            && ResumeAsked(after) == ResumeAsked(run) && HasStarted(after)
            && if Terminal(run.status) then after == run
               else Logged(run, after, Failed, Some(now), RunFailed(code))
  {
    if !Terminal(run.status) {
      LawfulEventKeeps(run, MarkFinalFailure(run, code, now), RunFailed(code));
    }
  }

  /** A resume is accepted exactly from the run's own user, in the waiting state, with the hash
      last asked about, and queues that user's answer; the refusals are told apart by their first
      cause, and the two "no durable event" conflicts cannot occur. */
  lemma ResumeRunKeeps(run: Run, user: nat, authorized: bool, action: Action, hash: string)
    requires RunInv(run)
    ensures var r := ResumeRun(run, user, authorized, action, hash);
            && (r.Ok? ==> RunInv(r.value) && Evolves(run, r.value) && ResumeAsked(r.value) && HasStarted(r.value))
            && (r.Ok? <==> authorized && user == run.user && run.mode.IssueCreate?
                           && run.status.WaitingConfirmation? && AskedHash(run.log) == Some(hash))
            && (r.Ok? ==> Logged(run, r.value, Queued, run.finishedAt, ResumeQueued(ResumeInput(action, hash, user))))
            && (r == Err(AccessDenied) <==> !authorized)
            && (r == Err(ActorMismatch) <==> authorized && user != run.user)
            && (r == Err(WrongMode) <==> authorized && user == run.user && !run.mode.IssueCreate?)
            && (r == Err(NotWaiting) <==> authorized && user == run.user && run.mode.IssueCreate?
                                          && !run.status.WaitingConfirmation?)
            && r != Err(NoWaitingEvent) && r != Err(NoHash)
  {
    DigestHash(run.log);
    var r := ResumeRun(run, user, authorized, action, hash);
    if r.Ok? {
      LawfulEventKeeps(run, r.value, Last(r.value.log));
    }
  }

  lemma SaveArtifactKeeps(run: Run)
    requires RunInv(run)
    ensures RunInv(SaveArtifact(run)) && Evolves(run, SaveArtifact(run))
    ensures ResumeAsked(SaveArtifact(run)) == ResumeAsked(run) && HasStarted(SaveArtifact(run)) == HasStarted(run)
  {
    LawfulEventKeeps(run, SaveArtifact(run), ArtifactAvailable);
  }
}
