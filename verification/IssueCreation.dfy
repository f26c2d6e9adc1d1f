/** Confirmed issue creation: confirmation receipts, the idempotency barrier, a provider with
    request-id uniqueness, and reconciliation (application/services/issue_creation.py,
    issue_confirmation.py, issue_drafts.py, infrastructure/project_tracker/sandbox.py).

    Any number of `execute` and `reconcile` calls run concurrently.  Each has a program counter
    at every `await`; one step takes one call to its next `await`.  Whatever the outside world
    decides (the clock, the actor's roles, generated keys, lost requests, lost responses and
    other failures) comes in through `Env`.  A `create_issue` that returned is durable; one that
    timed out may never have been received, may have taken effect at once, or may still be under
    way and land at any later moment. */
module IssueCreation {
  import opened Common

  // ------------------------------------------------------------------- drafts

  datatype DraftStatus = DraftOpen | DraftConfirmed | DraftCancelled | DraftCreated

  /** `errorCode` is what the identifier extractor finds in the description. */
  datatype Draft = Draft(
    id: nat,
    run: nat,
    project: nat,
    createdBy: nat,
    title: string,
    description: string,
    issueType: string,
    priority: string,
    component: Option<string>,
    environment: Option<string>,
    reproductionSteps: seq<string>,
    expected: Option<string>,
    actual: Option<string>,
    errorCode: Option<string>,
    createdAt: Time,
    status: DraftStatus)

  datatype Request = Request(
    project: nat,
    requestId: nat,
    title: string,
    description: string,
    issueType: string,
    priority: string,
    reporter: nat,
    component: Option<string>,
    errorCode: Option<string>,
    environment: Option<string>)

  /** The payload hash, taken to be injective. */
  datatype Hash = Hash(request: Request)

  function Bullets(steps: seq<string>): string {
    if steps == [] then ""
    else if |steps| == 1 then "- " + steps[0]
    else "- " + steps[0] + "\n" + Bullets(steps[1..])
  }

  function Reproduction(steps: seq<string>): string {
    if steps == [] then "" else "\nReproduction steps:\n" + Bullets(steps)
  }

  function Section(heading: string, text: Option<string>): string {
    if text.Some? && text.value != "" then "\n" + heading + ":\n" + text.value else ""
  }

  function BuildRequest(d: Draft): Request {
    Request(
      d.project, d.id, d.title,
      d.description + Reproduction(d.reproductionSteps)
      + Section("Expected behavior", d.expected) + Section("Actual behavior", d.actual),
      d.issueType, d.priority, d.createdBy, d.component, d.errorCode, d.environment)
  }

  function PayloadHash(r: Request): Hash {
    Hash(r)
  }

  // ------------------------------------------------------------ shared storage

  datatype Receipt = Receipt(run: nat, hash: Hash, confirmed: bool, actor: nat, decidedAt: Time, expiresAt: Time)

  datatype Response = Response(project: nat, requestId: nat, key: string, status: string)

  datatype Record = Record(project: nat, response: Option<Response>) {
    predicate Completed() { response.Some? }
  }

  /** What the provider stores, and the event it writes along with each issue. */
  datatype CreatedEvent = CreatedEvent(project: nat, requestId: nat, reporter: nat)

  /** An issue row is a `Response` together with the request it was written from, kept at the
      same position of `contents`.  `takenBy` is history, not a column: which attempt inserted
      the record. */
  datatype World = World(
    drafts: seq<Draft>,
    receipts: seq<Receipt>,
    records: map<nat, Record>,
    takenBy: map<nat, nat>,
    issues: seq<Response>,
    contents: seq<Request>,
    events: seq<CreatedEvent>,
    reconcileJobs: seq<nat>)

  predicate IsFor(issue: Response, project: nat, requestId: nat) {
    issue.project == project && issue.requestId == requestId
  }

  /** `get_issue_by_request_id`. */
  function Find(issues: seq<Response>, project: nat, requestId: nat): (r: Option<Response>)
    ensures r.Some? ==> r.value in issues && IsFor(r.value, project, requestId)
    ensures r.None? ==> forall i :: 0 <= i < |issues| ==> !IsFor(issues[i], project, requestId)
  {
    if issues == [] then None
    else if IsFor(issues[0], project, requestId) then Some(issues[0])
    else Find(issues[1..], project, requestId)
  }

  predicate KeyTaken(issues: seq<Response>, project: nat, key: string) {
    exists i :: 0 <= i < |issues| && issues[i].project == project && issues[i].key == key
  }

  function SetDraftStatus(w: World, id: nat, status: DraftStatus): World
    requires id < |w.drafts|
  {
    w.(drafts := w.drafts[id := w.drafts[id].(status := status)])
  }

  // ------------------------------------------------------------ confirmations

  /** A decision counts when its draft exists, the deadline has not passed and the hash the user
      saw is that of the draft's payload. */
  predicate Accepted(w: World, id: nat, hash: Hash, now: Time, ttl: Time) {
    id < |w.drafts| && now <= w.drafts[id].createdAt + ttl && hash == PayloadHash(BuildRequest(w.drafts[id]))
  }

  /** `IssueConfirmationService.record_decision`; a rejected decision changes nothing. */
  function RecordDecision(w: World, draft: nat, actor: nat, confirm: bool, hash: Hash, now: Time, ttl: Time): World {
    if draft >= |w.drafts| then w
    else
      var d := w.drafts[draft];
      var expiresAt := d.createdAt + ttl;
      if now > expiresAt then w
      else if hash != PayloadHash(BuildRequest(d)) then w
      else
        var saved := SaveConfirmation(w, Receipt(d.run, hash, confirm, actor, now, expiresAt));
        SetDraftStatus(saved, draft, if confirm then DraftConfirmed else DraftCancelled)
  }

  /** A decision already on file is not stored twice. */
  function SaveConfirmation(w: World, c: Receipt): World {
    if exists i :: 0 <= i < |w.receipts| && w.receipts[i].run == c.run && w.receipts[i].hash == c.hash
                   && w.receipts[i].confirmed == c.confirmed && w.receipts[i].actor == c.actor
    then w else w.(receipts := w.receipts + [c])
  }

  // ----------------------------------------------------------------- attempts

  datatype Status = Created | AlreadyCreated | PendingReconciliation | Reconciled

  datatype Outcome = Outcome(status: Status, requestId: nat, key: Option<string>)

  datatype Denial =
    | NoConfirmation | NotConfirmed | OtherActor | HashMismatch | DraftNotConfirmed
    | NotAuthorized | RoleDenied | ConfirmationExpired | NoBarrier

  datatype Failure =
    | DraftMissing | ReservationVanished | OtherProject | NoReservation | ProjectInactive
    | KeyCollision | ConflictNotReconciled | TimedOut | Other

  datatype Kind = Execute(draft: nat, receipt: nat, actor: nat) | Reconcile(draft: nat)

  datatype Pc =
    | Begin                                                // get_draft
    | HaveDraft(draft: Draft)                              // get_confirmation, or the record lookup
    | Checked(req: Request)                                // authorize_project
    | Authorized(req: Request)                             // idempotency.get
    | LookedUp(req: Request, sawRecord: bool)              // reserve: insert
    | Inserted(req: Request, mine: bool)                   // reserve: read back
    | Barred(req: Request, mine: bool)                     // get_issue_by_request_id
    | Searching(req: Request)                              // reconcile's get_issue_by_request_id
    | Creating(req: Request)                               // create_issue: lookup
    | FindingProject(req: Request)                         // create_issue: active sandbox project
    | Inserting(req: Request)                              // create_issue: insert
    | Conflicted(req: Request)                             // create_issue: lookup after a conflict
    | Enqueuing(req: Request)                              // enqueue the reconciliation job
    | Completing(req: Request, issue: Response, via: Status) // idempotency.complete
    | Finalizing(req: Request, issue: Response, via: Status) // set_draft_status
    | Done(outcome: Outcome)
    | Denied(denial: Denial)
    | Raised(failure: Failure)

  /** `roles` and `checkedAt` remember what the authorization and expiry checks saw. */
  datatype Attempt = Attempt(kind: Kind, pc: Pc, roles: set<string>, checkedAt: Time)

  /** With `Delayed` the caller sees a timeout while the provider keeps working on the request. */
  datatype Fault = NoFault | RequestLost | ResponseLost | Delayed | Broken

  /** `roles` is absent when the actor has no active membership. */
  datatype Env = Env(now: Time, roles: Option<set<string>>, projectActive: bool, key: string, fault: Fault)

  const ALLOWED_ROLES := {"project_manager", "developer", "qa", "implementation", "support"}

  predicate MayCreate(roles: set<string>) {
    ALLOWED_ROLES * roles != {}
  }

  function Replay(record: Record, requestId: nat, status: Status): Pc
    requires record.Completed()
  {
    Done(Outcome(status, requestId, Some(record.response.value.key)))
  }

  /** The checks made once the confirmation has been read. */
  function CheckConfirmation(w: World, at: Attempt, d: Draft): Pc
    requires at.kind.Execute?
  {
    if at.kind.receipt >= |w.receipts| then Denied(NoConfirmation)
    else
      var c := w.receipts[at.kind.receipt];
      var req := BuildRequest(d);
      if !c.confirmed then Denied(NotConfirmed)
      else if c.actor != at.kind.actor then Denied(OtherActor)
      else if PayloadHash(req) != c.hash then Denied(HashMismatch)
      else if !d.status.DraftConfirmed? && !d.status.DraftCreated? then Denied(DraftNotConfirmed)
      else Checked(req)
  }

  /** How the two callers see a timeout out of `create_issue`. */
  function OnTimeout(at: Attempt, req: Request): Pc {
    if at.kind.Execute? then Enqueuing(req) else Raised(TimedOut)
  }

  /** The status each caller reports for an issue `create_issue` returned. */
  function Via(at: Attempt): Status {
    if at.kind.Execute? then Created else Reconciled
  }

  predicate Live(pc: Pc) {
    !pc.Done? && !pc.Denied? && !pc.Raised?
  }

  /** Still ahead of the insert of the reservation. */
  predicate BeforeBarrier(pc: Pc) {
    pc.Begin? || pc.HaveDraft? || pc.Checked? || pc.Authorized?
  }

  predicate AtBarrier(pc: Pc) {
    pc.Inserted? || pc.Barred? || pc.Searching?
  }

  predicate InsideProvider(pc: Pc) {
    pc.Creating? || pc.FindingProject? || pc.Inserting? || pc.Conflicted?
  }

  /** From one `await` to the next. */
  function Advance(w: World, a: nat, at: Attempt, env: Env): (World, Attempt) {
    if !Live(at.pc) then (w, at)
    else if env.fault.Broken? then (w, at.(pc := Raised(Other)))
    else if BeforeBarrier(at.pc) then (w, Check(w, at, env))
    else if at.pc.LookedUp? then Reserve(w, a, at)
    else if AtBarrier(at.pc) then (w, at.(pc := CrossBarrier(w, at.pc)))
    else if InsideProvider(at.pc) then CreateIssue(w, at, env)
    else Settle(w, at)
  }

  function Check(w: World, at: Attempt, env: Env): Attempt
    requires BeforeBarrier(at.pc)
  {
    match at.pc
    case Begin =>
      at.(pc := if at.kind.draft < |w.drafts| then HaveDraft(w.drafts[at.kind.draft]) else Raised(DraftMissing))
    case HaveDraft(d) =>
      at.(pc := if at.kind.Execute? then CheckConfirmation(w, at, d) else CheckRecord(w, BuildRequest(d)))
    case Checked(req) =>
      if env.roles.None? then at.(pc := Denied(NotAuthorized))
      else if !MayCreate(env.roles.value) then at.(pc := Denied(RoleDenied))
      else at.(pc := Authorized(req), roles := env.roles.value)
    case Authorized(req) => LookUpRecord(w, at, req, env.now)
  }

  /** `reconcile` looks for the barrier before anything else. */
  function CheckRecord(w: World, req: Request): Pc {
    if req.requestId !in w.records then Denied(NoBarrier)
    else if w.records[req.requestId].Completed() then Replay(w.records[req.requestId], req.requestId, Reconciled)
    else Searching(req)
  }

  /** `INSERT ... ON CONFLICT DO NOTHING` on the unique (namespace, request id). */
  function Reserve(w: World, a: nat, at: Attempt): (World, Attempt)
    requires at.pc.LookedUp?
  {
    var req := at.pc.req;
    if req.requestId in w.records then (w, at.(pc := Inserted(req, false)))
    else (WithRecord(w, req, a), at.(pc := Inserted(req, true)))
  }

  function CrossBarrier(w: World, pc: Pc): Pc
    requires AtBarrier(pc)
  {
    var found := Find(w.issues, pc.req.project, pc.req.requestId);
    match pc
    case Inserted(req, mine) => ReadBack(w, req, mine)
    case Barred(req, mine) =>
      if found.Some? then Completing(req, found.value, AlreadyCreated)
      else if mine then Creating(req) else Enqueuing(req)
    case Searching(req) =>
      if found.Some? then Completing(req, found.value, Reconciled) else Creating(req)
  }

  function Settle(w: World, at: Attempt): (World, Attempt)
    requires at.pc.Enqueuing? || at.pc.Completing? || at.pc.Finalizing?
  {
    match at.pc
    case Enqueuing(req) =>
      (w.(reconcileJobs := w.reconcileJobs + [req.requestId]),
       at.(pc := Done(Outcome(PendingReconciliation, req.requestId, None))))
    case Completing(req, issue, via) =>
      if req.requestId !in w.records then (w, at.(pc := Raised(NoReservation)))
      else (WithResponse(w, req.requestId, issue),
            at.(pc := Finalizing(req, issue, via)))
    case Finalizing(req, issue, via) =>
      if at.kind.draft >= |w.drafts| then (w, at.(pc := Raised(DraftMissing)))
      else (SetDraftStatus(w, at.kind.draft, DraftCreated),
            at.(pc := Done(Outcome(via, req.requestId, Some(issue.key)))))
  }

  /** The receipt has not expired by `now`. */
  predicate StillValid(w: World, at: Attempt, now: Time) {
    at.kind.Execute? && at.kind.receipt < |w.receipts| && now <= w.receipts[at.kind.receipt].expiresAt
  }

  function LookUpRecord(w: World, at: Attempt, req: Request, now: Time): Attempt {
    var known := req.requestId in w.records;
    if known && w.records[req.requestId].Completed()
    then at.(pc := Replay(w.records[req.requestId], req.requestId, AlreadyCreated))
    else if !known && !StillValid(w, at, now)
    then at.(pc := Denied(ConfirmationExpired))
    else at.(pc := LookedUp(req, known), checkedAt := now)
  }

  function ReadBack(w: World, req: Request, mine: bool): Pc {
    if req.requestId !in w.records then Raised(ReservationVanished)
    else
      var record := w.records[req.requestId];
      if record.project != req.project then Raised(OtherProject)
      else if record.Completed() then Replay(record, req.requestId, AlreadyCreated)
      else Barred(req, mine)
  }

  /** The awaits inside the provider's `create_issue`. */
  function CreateIssue(w: World, at: Attempt, env: Env): (World, Attempt)
    requires InsideProvider(at.pc)
  {
    var req := at.pc.req;
    var found := Find(w.issues, req.project, req.requestId);
    if env.fault.RequestLost? || env.fault.Delayed? || (env.fault.ResponseLost? && !at.pc.Inserting?)
    then (w, at.(pc := OnTimeout(at, req)))
    else
      match at.pc
      case FindingProject(_) => (w, at.(pc := if env.projectActive then Inserting(req) else Raised(ProjectInactive)))
      case Inserting(_) =>
        if found.Some? then (w, at.(pc := if env.fault.ResponseLost? then OnTimeout(at, req) else Conflicted(req)))
        else if KeyTaken(w.issues, req.project, env.key) then (w, at.(pc := Raised(KeyCollision)))
        else
          (WithIssue(w, req, env.key),
           at.(pc := if env.fault.ResponseLost? then OnTimeout(at, req)
                     else Completing(req, NewIssue(req, env.key), Via(at))))
      case _ =>
        if found.Some? then (w, at.(pc := Completing(req, found.value, Via(at))))
        else if at.pc.Creating? then (w, at.(pc := FindingProject(req)))
        else (w, at.(pc := Raised(ConflictNotReconciled)))
  }

  function NewIssue(req: Request, key: string): Response {
    Response(req.project, req.requestId, key, "OPEN")
  }

  /** The issue row and its CREATED event, written together. */
  function WithIssue(w: World, req: Request, key: string): World {
    w.(issues := w.issues + [NewIssue(req, key)],
       contents := w.contents + [req],
       events := w.events + [CreatedEvent(req.project, req.requestId, req.reporter)])
  }

  function WithResponse(w: World, r: nat, issue: Response): World
    requires r in w.records
  {
    w.(records := w.records[r := w.records[r].(response := Some(issue))])
  }

  /** The reservation of request `req`, taken by attempt `a`. */
  function WithRecord(w: World, req: Request, a: nat): World {
    w.(records := w.records[req.requestId := Record(req.project, None)], takenBy := w.takenBy[req.requestId := a])
  }

  // ------------------------------------------------------------------- system

  /** `inFlight` are requests whose callers have given up on them but the provider may not have. */
  datatype State = State(world: World, attempts: seq<Attempt>, inFlight: seq<Request>)

  datatype Step =
    | NewDraft(draft: Draft)
    | Decide(id: nat, actor: nat, confirm: bool, hash: Hash, now: Time, ttl: Time)
    | Start(kind: Kind)
    | Continue(attempt: nat, env: Env)
    | Land(flight: nat, key: string, projectActive: bool)

  const INITIAL := State(World([], [], map[], map[], [], [], [], []), [], [])

  /** The step leaves the attempt's request in flight. */
  predicate LeavesInFlight(at: Attempt, env: Env) {
    InsideProvider(at.pc) && env.fault.Delayed?
  }

  /** What the provider makes of a request nobody waits for any more: the rest of `create_issue`. */
  function Landed(w: World, req: Request, key: string, projectActive: bool): World {
    if Find(w.issues, req.project, req.requestId).Some? || !projectActive || KeyTaken(w.issues, req.project, key) then w
    else WithIssue(w, req, key)
  }

  function Apply(s: State, step: Step): State {
    match step
    case NewDraft(d) =>
      s.(world := s.world.(drafts := s.world.drafts + [d.(id := |s.world.drafts|, status := DraftOpen)]))
    case Decide(d, actor, confirm, hash, now, ttl) =>
      s.(world := RecordDecision(s.world, d, actor, confirm, hash, now, ttl))
    case Start(kind) => s.(attempts := s.attempts + [Attempt(kind, Begin, {}, 0.0)])
    case Continue(a, env) =>
      if a >= |s.attempts| then s
      else
        var (w, at) := Advance(s.world, a, s.attempts[a], env);
        var late := if LeavesInFlight(s.attempts[a], env) then [s.attempts[a].pc.req] else [];
        State(w, s.attempts[a := at], s.inFlight + late)
    case Land(k, key, projectActive) =>
      if k >= |s.inFlight| then s else s.(world := Landed(s.world, s.inFlight[k], key, projectActive))
  }

  function Exec(steps: seq<Step>): State {
    if steps == [] then INITIAL else Apply(Exec(Front(steps)), Last(steps))
  }
}
