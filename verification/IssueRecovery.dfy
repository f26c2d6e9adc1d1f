/** Recovery of an issue creation that was left behind, and the provider's `create_issue` as one
    uninterrupted call (application/services/issue_creation.py,
    infrastructure/project_tracker/sandbox.py). */
module IssueRecovery {
  import opened Common
  import opened IssueCreation
  import opened IssueDecisions
  import opened IssueInvariant
  import opened IssueSafety

  /** An attempt left alone for `n` awaits. */
  function Drive(w: World, a: nat, at: Attempt, env: Env, n: nat): (World, Attempt)
    decreases n
  {
    if n == 0 then (w, at)
    else
      var (v, next) := Advance(w, a, at, env);
      Drive(v, a, next, env, n - 1)
  }

  predicate Undisturbed(env: Env) {
    env.fault.NoFault?
  }

  lemma {:induction false} EndedStays(w: World, a: nat, at: Attempt, env: Env, n: nat)
    requires !Live(at.pc)
    ensures Drive(w, a, at, env, n) == (w, at)
  {
    if n > 0 {
      EndedStays(w, a, at, env, n - 1);
    }
  }

  /** The issue is recorded and reported. */
  predicate Settled(w: World, at: Attempt, r: nat, issue: Response, via: Status) {
    && at.pc == Done(Outcome(via, r, Some(issue.key)))
    && r in w.records && w.records[r].response == Some(issue) && issue in w.issues
  }

  /** The draft says that its issue exists. */
  predicate Marked(w: World, d: nat) {
    d < |w.drafts| && w.drafts[d].status.DraftCreated?
  }

  lemma FromCompleting(w: World, a: nat, at: Attempt, env: Env, n: nat)
    requires Undisturbed(env) && n >= 2 && at.pc.Completing? && at.kind.draft < |w.drafts|
    requires at.pc.req.requestId in w.records && at.pc.issue in w.issues
    ensures var (v, end) := Drive(w, a, at, env, n);
            Settled(v, end, at.pc.req.requestId, at.pc.issue, at.pc.via) && Marked(v, at.kind.draft)
  {
    var (v, next) := Advance(w, a, at, env);
    var (u, end) := Advance(v, a, next, env);
    EndedStays(u, a, end, env, n - 2);
  }

  predicate Creatable(w: World, req: Request, env: Env) {
    env.projectActive && !KeyTaken(w.issues, req.project, env.key)
  }

  lemma FromInserting(w: World, a: nat, at: Attempt, env: Env, n: nat)
    requires Undisturbed(env) && n >= 3 && at.pc.Inserting? && at.kind.draft < |w.drafts|
    requires at.pc.req.requestId in w.records && Find(w.issues, at.pc.req.project, at.pc.req.requestId).None?
    ensures var (v, end) := Drive(w, a, at, env, n);
            if KeyTaken(w.issues, at.pc.req.project, env.key) then v == w && end.pc == Raised(KeyCollision)
            else Settled(v, end, at.pc.req.requestId, NewIssue(at.pc.req, env.key), Via(at)) && Marked(v, at.kind.draft)
  {
    var (v, next) := Advance(w, a, at, env);
    if KeyTaken(w.issues, at.pc.req.project, env.key) {
      EndedStays(v, a, next, env, n - 1);
    } else {
      assert v.issues[|w.issues|] == NewIssue(at.pc.req, env.key);
      FromCompleting(v, a, next, env, n - 1);
    }
  }

  /** The lookup that finds nothing, and the search for the active project. */
  lemma CreatingTakesTwo(w: World, a: nat, at: Attempt, env: Env, n: nat)
    requires Undisturbed(env) && n >= 2 && at.pc.Creating?
    requires Find(w.issues, at.pc.req.project, at.pc.req.requestId).None?
    ensures var next := if env.projectActive then Inserting(at.pc.req) else Raised(ProjectInactive);
            Drive(w, a, at, env, n) == Drive(w, a, at.(pc := next), env, n - 2)
  {
    var middle := at.(pc := FindingProject(at.pc.req));
    assert Advance(w, a, at, env) == (w, middle);
    assert Drive(w, a, at, env, n) == Drive(w, a, middle, env, n - 1);
  }

  lemma FromCreating(w: World, a: nat, at: Attempt, env: Env, n: nat)
    requires Undisturbed(env) && n >= 5 && at.pc.Creating? && at.kind.draft < |w.drafts|
    requires at.pc.req.requestId in w.records && Find(w.issues, at.pc.req.project, at.pc.req.requestId).None?
    ensures var (v, end) := Drive(w, a, at, env, n);
            if Creatable(w, at.pc.req, env)
            then Settled(v, end, at.pc.req.requestId, NewIssue(at.pc.req, env.key), Via(at)) && Marked(v, at.kind.draft)
            else v == w && end.pc.Raised?
  {
    CreatingTakesTwo(w, a, at, env, n);
    var third := at.(pc := if env.projectActive then Inserting(at.pc.req) else Raised(ProjectInactive));
    if env.projectActive {
      FromInserting(w, a, third, env, n - 2);
    } else {
      EndedStays(w, a, third, env, n - 2);
    }
  }

  lemma FromSearching(w: World, a: nat, at: Attempt, env: Env, n: nat)
    requires Undisturbed(env) && n >= 6 && at.pc.Searching? && at.kind.Reconcile? && at.kind.draft < |w.drafts|
    requires at.pc.req.requestId in w.records
    ensures var (v, end) := Drive(w, a, at, env, n);
            var found := Find(w.issues, at.pc.req.project, at.pc.req.requestId);
            if found.Some?
            then Settled(v, end, at.pc.req.requestId, found.value, Reconciled) && Marked(v, at.kind.draft)
            else if Creatable(w, at.pc.req, env)
            then && Settled(v, end, at.pc.req.requestId, NewIssue(at.pc.req, env.key), Reconciled)
                 && Marked(v, at.kind.draft)
            else v == w && end.pc.Raised?
  {
    var (v, next) := Advance(w, a, at, env);
    if next.pc.Completing? {
      FromCompleting(v, a, next, env, n - 1);
    } else {
      FromCreating(v, a, next, env, n - 1);
    }
  }

  function Fresh(r: nat): Attempt {
    Attempt(Reconcile(r), Begin, {}, 0.0)
  }

  lemma ReconcileOpens(w: World, a: nat, r: nat, env: Env)
    requires WorldOk(w) && r in w.records && Undisturbed(env)
    ensures r < |w.drafts|
    ensures Drive(w, a, Fresh(r), env, 8)
         == Drive(w, a, Fresh(r).(pc := if w.records[r].Completed() then Replay(w.records[r], r, Reconciled)
                                        else Searching(BuildRequest(w.drafts[r]))), env, 6)
  {
    assert RecordOk(w, r);
    var (v, next) := Advance(w, a, Fresh(r), env);
  }

  /** A replayed response is an issue the provider holds. */
  lemma ReplaySettles(w: World, a: nat, r: nat, env: Env)
    requires WorldOk(w) && r in w.records && w.records[r].Completed()
    ensures var (v, end) := Drive(w, a, Fresh(r).(pc := Replay(w.records[r], r, Reconciled)), env, 6);
            Settled(v, end, r, w.records[r].response.value, Reconciled)
  {
    assert RecordOk(w, r);
    EndedStays(w, a, Fresh(r).(pc := Replay(w.records[r], r, Reconciled)), env, 6);
  }

  predicate Recoverable(w: World, r: nat, env: Env)
    requires r in w.records && r < |w.drafts|
  {
    var req := BuildRequest(w.drafts[r]);
    w.records[r].Completed() || Find(w.issues, req.project, r).Some? || Creatable(w, req, env)
  }

  /** Recovery: in every reachable state, a reconciliation that nothing disturbs brings a reserved
      request to its end.  It reports the one issue of the request if there is one already, or
      creates it, unless the project has gone inactive or the new key is taken; and unless the
      record was complete before, the draft is marked CREATED. */
  lemma ReconcileRecovers(s: State, r: nat, env: Env)
    requires IsReachable(s) && r in s.world.records && Undisturbed(env)
    ensures r < |s.world.drafts|
    ensures var (v, end) := Drive(s.world, |s.attempts|, Fresh(r), env, 8);
            && ((exists issue :: Settled(v, end, r, issue, Reconciled)) <==> Recoverable(s.world, r, env))
            && (Recoverable(s.world, r, env) && !s.world.records[r].Completed() ==> Marked(v, r))
  {
    ReachableIsGood(s);
    RecoversIn(s.world, |s.attempts|, r, env);
  }

  lemma RecoversIn(w: World, a: nat, r: nat, env: Env)
    requires WorldOk(w) && r in w.records && Undisturbed(env)
    ensures r < |w.drafts|
    ensures var (v, end) := Drive(w, a, Fresh(r), env, 8);
            && ((exists issue :: Settled(v, end, r, issue, Reconciled)) <==> Recoverable(w, r, env))
            && (Recoverable(w, r, env) && !w.records[r].Completed() ==> Marked(v, r))
  {
    assert RecordOk(w, r);
    ReconcileOpens(w, a, r, env);
    if w.records[r].Completed() {
      ReplaySettles(w, a, r, env);
    } else {
      FromSearching(w, a, Fresh(r).(pc := Searching(BuildRequest(w.drafts[r]))), env, 6);
    }
  }

  // ------------------------------------------------------- requests that time out

  predicate TimesOut(pc: Pc, env: Env) {
    InsideProvider(pc) && (env.fault.RequestLost? || env.fault.Delayed? || env.fault.ResponseLost?)
  }

  /** Left for reconciliation: the job is queued, and nothing else is written. */
  predicate Queued(w: World, v: World, end: Attempt, r: nat) {
    && end.pc == Done(Outcome(PendingReconciliation, r, None))
    && v == w.(reconcileJobs := w.reconcileJobs + [r])
  }

  /** A call of `create_issue` that times out leaves an execution PENDING, with the job that reconciles it
      queued, and a reconciliation failed; a request that was lost or is still under way has
      written nothing yet. */
  lemma TimeoutIsPending(w: World, a: nat, at: Attempt, env: Env, quiet: Env)
    requires TimesOut(at.pc, env) && (env.fault.ResponseLost? ==> !at.pc.Inserting?) && Undisturbed(quiet)
    ensures var (v, next) := Advance(w, a, at, env);
            && v == w && LeavesInFlight(at, env) == env.fault.Delayed?
            && if at.kind.Execute?
               then var (u, end) := Advance(v, a, next, quiet); Queued(w, u, end, at.pc.req.requestId)
               else next.pc == Raised(TimedOut)
  {
  }

  /** A write can land late.  An execution whose insert is delayed ends PENDING without an issue, and the
      provider creates the issue afterwards, in every state in which nothing stands in its way. */
  lemma LateWriteLands(s: State, a: nat, env: Env, quiet: Env, key: string)
    requires a < |s.attempts| && s.attempts[a].pc.Inserting? && s.attempts[a].kind.Execute?
    requires env.fault.Delayed? && Undisturbed(quiet) && !KeyTaken(s.world.issues, s.attempts[a].pc.req.project, key)
    requires Find(s.world.issues, s.attempts[a].pc.req.project, s.attempts[a].pc.req.requestId).None?
    ensures var req := s.attempts[a].pc.req;
            var ended := Apply(Apply(s, Continue(a, env)), Continue(a, quiet));
            var later := Apply(ended, Land(|s.inFlight|, key, true));
            && ended.world.issues == s.world.issues && a < |later.attempts|
            && later.attempts[a].pc == Done(Outcome(PendingReconciliation, req.requestId, None))
            && later.world.issues == s.world.issues + [NewIssue(req, key)]
  {
    TimeoutIsPending(s.world, a, s.attempts[a], env, quiet);
  }

  // ------------------------------------------- an execution nothing disturbs

  function Executing(draft: nat, receipt: nat, actor: nat): Attempt {
    Attempt(Execute(draft, receipt, actor), Begin, {}, 0.0)
  }

  /** The user confirmed exactly this draft, and it has not been cancelled since. */
  predicate Confirms(w: World, draft: nat, receipt: nat, actor: nat) {
    && draft < |w.drafts| && receipt < |w.receipts|
    && w.receipts[receipt].confirmed && w.receipts[receipt].actor == actor
    && w.receipts[receipt].hash == PayloadHash(BuildRequest(w.drafts[draft]))
    && !w.drafts[draft].status.DraftOpen? && !w.drafts[draft].status.DraftCancelled?
  }

  predicate HasRole(env: Env) {
    env.roles.Some? && exists role <- env.roles.value ::
      role in ["project_manager", "developer", "qa", "implementation", "support"]
  }

  lemma RolesThatMayCreate(roles: set<string>)
    ensures MayCreate(roles)
       <==> exists role <- roles :: role in ["project_manager", "developer", "qa", "implementation", "support"]
  {
    if MayCreate(roles) {
      var role :| role in ALLOWED_ROLES * roles;
      assert role in ["project_manager", "developer", "qa", "implementation", "support"];
    }
    if role :| role in roles && role in ["project_manager", "developer", "qa", "implementation", "support"] {
      assert role in ALLOWED_ROLES * roles;
    }
  }

  /** The attempt once it has been let through to the record lookup. */
  function LetThrough(w: World, draft: nat, receipt: nat, actor: nat, env: Env): Attempt
    requires draft < |w.drafts| && env.roles.Some?
  {
    Attempt(Execute(draft, receipt, actor), Authorized(BuildRequest(w.drafts[draft])), env.roles.value, 0.0)
  }

  lemma ExecuteOpens(w: World, a: nat, draft: nat, receipt: nat, actor: nat, env: Env)
    requires Undisturbed(env)
    ensures var (v, end) := Drive(w, a, Executing(draft, receipt, actor), env, 12);
            if Confirms(w, draft, receipt, actor) && HasRole(env)
            then (v, end) == Drive(w, a, LetThrough(w, draft, receipt, actor, env), env, 9)
            else v == w && (end.pc.Denied? || end.pc.Raised?)
  {
    var at0 := Executing(draft, receipt, actor);
    var at1 := Advance(w, a, at0, env).1;
    var at2 := Advance(w, a, at1, env).1;
    var at3 := Advance(w, a, at2, env).1;
    assert Drive(w, a, at0, env, 12) == Drive(w, a, at1, env, 11);
    assert Drive(w, a, at1, env, 11) == Drive(w, a, at2, env, 10);
    assert Drive(w, a, at2, env, 10) == Drive(w, a, at3, env, 9);
    if env.roles.Some? {
      RolesThatMayCreate(env.roles.value);
    }
    if !Live(at3.pc) {
      EndedStays(w, a, at3, env, 9);
    }
  }

  /** From the record lookup on. */
  lemma LookUpSettles(w: World, a: nat, draft: nat, receipt: nat, actor: nat, env: Env)
    requires WorldOk(w) && Undisturbed(env) && Confirms(w, draft, receipt, actor) && env.roles.Some?
    ensures var (v, end) := Drive(w, a, LetThrough(w, draft, receipt, actor, env), env, 9);
            Ends(w, v, end, draft, receipt, env)
  {
    var at := LetThrough(w, draft, receipt, actor, env);
    var next := Advance(w, a, at, env).1;
    assert Drive(w, a, at, env, 9) == Drive(w, a, next, env, 8);
    if draft in w.records {
      assert RecordOk(w, draft);
      if w.records[draft].Completed() {
        EndedStays(w, a, next, env, 8);
      } else {
        KnownSettles(w, a, next, env);
      }
    } else if env.now <= w.receipts[receipt].expiresAt {
      NoneFound(w, draft);
      NewSettles(w, a, next, env);
    } else {
      EndedStays(w, a, next, env, 8);
    }
  }

  /** Without a record there is no issue. */
  lemma NoneFound(w: World, r: nat)
    requires WorldOk(w) && r !in w.records && r < |w.drafts|
    ensures Find(w.issues, w.drafts[r].project, r).None?
  {
    forall i | 0 <= i < |w.issues| ensures w.issues[i].requestId != r {
      assert IssueOk(w, i);
    }
  }

  /** Somebody else holds the reservation. */
  lemma KnownSettles(w: World, a: nat, at: Attempt, env: Env)
    requires WorldOk(w) && Undisturbed(env) && at.pc.LookedUp? && at.kind.Execute? && at.kind.draft < |w.drafts|
    requires at.pc.req == BuildRequest(w.drafts[at.kind.draft])
    requires at.kind.draft in w.records && !w.records[at.kind.draft].Completed()
    ensures var (v, end) := Drive(w, a, at, env, 8);
            var found := Find(w.issues, w.drafts[at.kind.draft].project, at.kind.draft);
            if found.Some?
            then Settled(v, end, at.kind.draft, found.value, AlreadyCreated) && Marked(v, at.kind.draft)
            else Queued(w, v, end, at.kind.draft)
  {
    assert RecordOk(w, at.kind.draft) && w.drafts[at.kind.draft].id == at.kind.draft;
    KnownIsBarred(w, a, at, env);
    FromBarred(w, a, at.(pc := Barred(at.pc.req, false)), env);
  }

  lemma KnownIsBarred(w: World, a: nat, at: Attempt, env: Env)
    requires Undisturbed(env) && at.pc.LookedUp? && at.pc.req.requestId in w.records
    requires var record := w.records[at.pc.req.requestId]; !record.Completed() && record.project == at.pc.req.project
    ensures Drive(w, a, at, env, 8) == Drive(w, a, at.(pc := Barred(at.pc.req, false)), env, 6)
  {
    var next := at.(pc := Inserted(at.pc.req, false));
    assert Drive(w, a, at, env, 8) == Drive(w, a, next, env, 7);
  }

  lemma FromBarred(w: World, a: nat, at: Attempt, env: Env)
    requires Undisturbed(env) && at.pc.Barred? && !at.pc.mine && at.kind.draft < |w.drafts|
    requires at.pc.req.requestId in w.records
    ensures var (v, end) := Drive(w, a, at, env, 6);
            var found := Find(w.issues, at.pc.req.project, at.pc.req.requestId);
            if found.Some?
            then Settled(v, end, at.pc.req.requestId, found.value, AlreadyCreated) && Marked(v, at.kind.draft)
            else Queued(w, v, end, at.pc.req.requestId)
  {
    var next := Advance(w, a, at, env).1;
    if next.pc.Completing? {
      FromCompleting(w, a, next, env, 5);
    } else {
      var (u, end) := Advance(w, a, next, env);
      EndedStays(u, a, end, env, 4);
    }
  }

  /** The attempt takes the reservation itself. */
  lemma NewSettles(w: World, a: nat, at: Attempt, env: Env)
    requires WorldOk(w) && Undisturbed(env) && at.pc.LookedUp? && at.kind.Execute? && at.kind.draft < |w.drafts|
    requires at.pc.req == BuildRequest(w.drafts[at.kind.draft]) && at.kind.draft !in w.records
    requires Find(w.issues, at.pc.req.project, at.kind.draft).None?
    ensures var (v, end) := Drive(w, a, at, env, 8);
            if Creatable(w, at.pc.req, env)
            then Settled(v, end, at.kind.draft, NewIssue(at.pc.req, env.key), Created) && Marked(v, at.kind.draft)
            else end.pc.Raised? && v.issues == w.issues
  {
    var req := at.pc.req;
    assert w.drafts[at.kind.draft].id == at.kind.draft;
    var u := WithRecord(w, req, a);
    var at1, at2, at3 := at.(pc := Inserted(req, true)), at.(pc := Barred(req, true)), at.(pc := Creating(req));
    assert Drive(w, a, at, env, 8) == Drive(u, a, at1, env, 7);
    assert Drive(u, a, at1, env, 7) == Drive(u, a, at2, env, 6);
    assert Drive(u, a, at2, env, 6) == Drive(u, a, at3, env, 5);
    FromCreating(u, a, at3, env, 5);
  }

  /** How an execution that was let through ends. */
  ghost predicate Ends(w: World, v: World, end: Attempt, r: nat, receipt: nat, env: Env)
    requires r < |w.drafts| && receipt < |w.receipts|
  {
    var req := BuildRequest(w.drafts[r]);
    var found := Find(w.issues, w.drafts[r].project, r);
    if r !in w.records && env.now > w.receipts[receipt].expiresAt
    then v == w && end.pc == Denied(ConfirmationExpired)
    else if r !in w.records && Creatable(w, req, env)
    then Settled(v, end, r, NewIssue(req, env.key), Created) && Marked(v, r)
    else if r !in w.records
    then end.pc.Raised? && v.issues == w.issues
    else if w.records[r].Completed()
    then Settled(v, end, r, w.records[r].response.value, AlreadyCreated) && v == w
    else if found.Some?
    then Settled(v, end, r, found.value, AlreadyCreated) && Marked(v, r)
    else Queued(w, v, end, r)
  }

  /** An execution nothing disturbs, in every reachable state.  It is let through exactly when its
      actor confirmed this draft, the draft was not cancelled since, and the actor has a role that
      may create issues.  Then it creates the issue unless the confirmation has expired, the project
      is inactive or the key taken; with a reservation on record it reports the issue there is, or
      leaves the request for reconciliation.  Otherwise it is refused and writes nothing. */
  lemma ExecuteSettlesExactly(s: State, draft: nat, receipt: nat, actor: nat, env: Env)
    requires IsReachable(s) && Undisturbed(env)
    ensures var (v, end) := Drive(s.world, |s.attempts|, Executing(draft, receipt, actor), env, 12);
            if Confirms(s.world, draft, receipt, actor) && HasRole(env)
            then Ends(s.world, v, end, draft, receipt, env)
            else v == s.world && (end.pc.Denied? || end.pc.Raised?)
  {
    ReachableIsGood(s);
    ExecuteOpens(s.world, |s.attempts|, draft, receipt, actor, env);
    if Confirms(s.world, draft, receipt, actor) && HasRole(env) {
      LookUpSettles(s.world, |s.attempts|, draft, receipt, actor, env);
    }
  }

  /** A call that starts after its draft was cancelled, and before there is a reservation for it, is
      refused whatever happens between its awaits. */
  lemma CancelledIsRefused(steps: seq<Step>, a: nat, at: Attempt, env: Env, later: World, next: Env)
    requires at.kind.Execute? && at.pc.Begin?
    requires LastDecision(steps, at.kind.draft) == Some(false) && at.kind.draft !in Exec(steps).world.records
    ensures var (v, end) := Advance(later, a, Advance(Exec(steps).world, a, at, env).1, next);
            v == later && (end.pc.Denied? || end.pc.Raised?)
  {
    var w := Exec(steps).world;
    Reachable(steps);
    if at.kind.draft < |w.drafts| {
      StatusIsLastDecision(steps, at.kind.draft);
      assert w.drafts[at.kind.draft].status.DraftCancelled?;
    }
  }

  // ------------------------------------------------------------- the provider

  datatype Tables = Tables(issues: seq<Response>, contents: seq<Request>, events: seq<CreatedEvent>)

  /** `INSERT ... ON CONFLICT DO NOTHING` and the event; a key that is taken makes the statement fail. */
  function WithRow(t: Tables, req: Request, key: string): Tables {
    if Find(t.issues, req.project, req.requestId).Some? || KeyTaken(t.issues, req.project, key) then t
    else Tables(t.issues + [NewIssue(req, key)], t.contents + [req],
                t.events + [CreatedEvent(req.project, req.requestId, req.reporter)])
  }

  function WithRows(t: Tables, others: seq<(Request, string)>): Tables {
    if others == [] then t else WithRow(WithRows(t, Front(others)), Last(others).0, Last(others).1)
  }

  lemma {:induction false} FindNew(issues: seq<Response>, issue: Response)
    requires Find(issues, issue.project, issue.requestId).None?
    ensures Find(issues + [issue], issue.project, issue.requestId) == Some(issue)
  {
    var all := issues + [issue];
    if issues != [] {
      assert all[1..] == issues[1..] + [issue];
      FindNew(issues[1..], issue);
    }
  }

  /** The sandbox tracker's tables. */
  class SandboxTracker {
    var issues: seq<Response>
    var contents: seq<Request>
    var events: seq<CreatedEvent>

    function Value(): Tables reads this {
      Tables(issues, contents, events)
    }

    constructor ()
      ensures Value() == Tables([], [], [])
    {
      issues, contents, events := [], [], [];
    }

    /** `get_issue_by_request_id`. */
    method GetIssueByRequestId(project: nat, requestId: nat) returns (r: Option<Response>)
      ensures r == Find(issues, project, requestId)
    {
      for i := 0 to |issues|
        invariant Find(issues, project, requestId) == Find(issues[i..], project, requestId)
      {
        if issues[i].project == project && issues[i].requestId == requestId {
          return Some(issues[i]);
        }
        assert issues[i..][1..] == issues[i + 1..];
      }
      return None;
    }

    /** The insert: a new row with its event, nothing on a conflict, or a failed statement. */
    method Insert(req: Request, key: string) returns (r: Result<Option<Response>, Failure>)
      modifies this
      ensures Value() == WithRow(old(Value()), req, key)
      ensures r == if old(Find(issues, req.project, req.requestId)).Some? then Ok(None)
                   else if old(KeyTaken(issues, req.project, key)) then Err(KeyCollision)
                   else Ok(Some(NewIssue(req, key)))
    {
      var existing := GetIssueByRequestId(req.project, req.requestId);
      if existing.Some? {
        return Ok(None);
      }
      if KeyTaken(issues, req.project, key) {
        return Err(KeyCollision);
      }
      issues := issues + [NewIssue(req, key)];
      contents := contents + [req];
      events := events + [CreatedEvent(req.project, req.requestId, req.reporter)];
      return Ok(Some(NewIssue(req, key)));
    }

    /** What other sessions commit in the meantime. */
    method LetOthersInsert(others: seq<(Request, string)>)
      modifies this
      ensures Value() == WithRows(old(Value()), others)
    {
      for i := 0 to |others|
        invariant Value() == WithRows(old(Value()), others[..i])
      {
        assert Front(others[..i + 1]) == others[..i];
        var ignored := Insert(others[i].0, others[i].1);
      }
      assert others[..|others|] == others;
    }

    /** `create_issue`, with whatever `others` commit between its lookup and its insert.  Whoever loses
        that race finds the winner's issue in the second lookup, so the conflict is always reconciled
        and what is returned is what the table holds for the request. */
    method CreateIssue(req: Request, key: string, projectActive: bool, others: seq<(Request, string)>)
      returns (r: Result<Response, Failure>)
      modifies this
      ensures r.Ok? ==> Find(issues, req.project, req.requestId) == Some(r.value)
      ensures r != Err(ConflictNotReconciled)
      ensures var before := old(Value());
              var raced := WithRows(before, others);
              if Find(before.issues, req.project, req.requestId).Some? then r.Ok? && Value() == before
              else if !projectActive then r == Err(ProjectInactive) && Value() == before
              else if Find(raced.issues, req.project, req.requestId).Some? then r.Ok? && Value() == raced
              else if KeyTaken(raced.issues, req.project, key) then r == Err(KeyCollision) && Value() == raced
              else r == Ok(NewIssue(req, key)) && Value() == WithRow(raced, req, key)
    {
      var existing := GetIssueByRequestId(req.project, req.requestId);
      if existing.Some? {
        return Ok(existing.value);
      }
      if !projectActive {
        return Err(ProjectInactive);
      }
      LetOthersInsert(others);
      ghost var raced := issues;
      var inserted := Insert(req, key);
      if inserted.Err? {
        return Err(inserted.error);
      }
      if inserted.value.None? {
        var winner := GetIssueByRequestId(req.project, req.requestId);
        if winner.None? {
          return Err(ConflictNotReconciled);
        }
        return Ok(winner.value);
      }
      FindNew(raced, NewIssue(req, key));
      return Ok(inserted.value.value);
    }
  }
}
