/** The invariant of confirmed issue creation: what every `await` of every attempt keeps of drafts,
    receipts, records, issues and attempts (application/services/issue_creation.py). */
module IssueInvariant {
  import opened Common
  import opened IssueCreation

  // -------------------------------------------------------------- the invariant

  predicate SameDraft(a: Draft, b: Draft) {
    a == b.(status := a.status)
  }

  /** At most one issue per request, one event per issue, and only behind a barrier; a completed
      record holds exactly the provider's issue. */
  predicate WorldOk(w: World) {
    && (forall d :: 0 <= d < |w.drafts| ==> w.drafts[d].id == d)
    && w.takenBy.Keys == w.records.Keys
    && |w.events| == |w.issues| == |w.contents|
    && (forall i :: 0 <= i < |w.issues| ==> IssueOk(w, i))
    && (forall i, j :: 0 <= i < j < |w.issues| ==> w.issues[i].requestId != w.issues[j].requestId)
    && (forall r <- w.records :: RecordOk(w, r))
    && (forall d :: 0 <= d < |w.drafts| && w.drafts[d].status.DraftCreated? ==> HasIssue(w, d))
  }

  /** The record of the draft names its issue. */
  predicate HasIssue(w: World, d: nat) {
    d in w.records && w.records[d].Completed()
  }

  predicate IssueOk(w: World, i: nat)
    requires i < |w.issues| && |w.events| == |w.issues| == |w.contents|
  {
    var issue := w.issues[i];
    && issue.requestId in w.records
    && issue.requestId < |w.drafts| && issue.project == w.drafts[issue.requestId].project && issue.status == "OPEN"
    && w.events[i] == CreatedEvent(issue.project, issue.requestId, w.contents[i].reporter)
    && w.contents[i] == BuildRequest(w.drafts[issue.requestId])
  }

  predicate RecordOk(w: World, r: nat)
    requires r in w.records
  {
    && r < |w.drafts| && w.records[r].project == w.drafts[r].project
    && (w.records[r].Completed() ==> w.records[r].response.value in w.issues
                                     && w.records[r].response.value.requestId == r)
  }

  /** The receipt an execute attempt relies on covers exactly this draft's payload. */
  predicate Approved(w: World, at: Attempt) {
    && at.kind.Execute? && at.kind.draft < |w.drafts| && at.kind.receipt < |w.receipts|
    && var c := w.receipts[at.kind.receipt];
       c.confirmed && c.actor == at.kind.actor && c.hash == PayloadHash(BuildRequest(w.drafts[at.kind.draft]))
  }

  predicate Unexpired(w: World, at: Attempt) {
    at.kind.Execute? && at.kind.receipt < |w.receipts| && at.checkedAt <= w.receipts[at.kind.receipt].expiresAt
  }

  /** Past the insert of the reservation. */
  predicate PastBarrier(pc: Pc) {
    !pc.Begin? && !pc.HaveDraft? && !pc.Checked? && !pc.Authorized? && !pc.LookedUp?
  }

  /** What the attempt that took the reservation of request `r` had been shown. */
  predicate Taker(w: World, r: nat, at: Attempt) {
    at.kind.Execute? && at.kind.draft == r && Approved(w, at) && MayCreate(at.roles) && Unexpired(w, at)
    && PastBarrier(at.pc)
  }

  predicate Owns(w: World, r: nat, a: nat) {
    r in w.takenBy && w.takenBy[r] == a
  }

  predicate HoldsIssue(w: World, req: Request, issue: Response) {
    issue in w.issues && issue.requestId == req.requestId && issue.project == req.project
  }

  predicate MyRequest(w: World, at: Attempt, req: Request) {
    at.kind.draft < |w.drafts| && w.drafts[at.kind.draft].id == at.kind.draft
    && req == BuildRequest(w.drafts[at.kind.draft])
  }

  predicate AttemptOk(w: World, a: nat, at: Attempt) {
    match at.pc
    case Begin => true
    case HaveDraft(d) => at.kind.draft < |w.drafts| && SameDraft(d, w.drafts[at.kind.draft]) && d.id == at.kind.draft
    case Checked(req) => MyRequest(w, at, req) && Approved(w, at)
    case Authorized(req) => MyRequest(w, at, req) && Approved(w, at) && MayCreate(at.roles)
    case LookedUp(req, saw) =>
      MyRequest(w, at, req) && Approved(w, at) && MayCreate(at.roles)
      && (if saw then req.requestId in w.records else Unexpired(w, at))
    case Inserted(req, mine) =>
      MyRequest(w, at, req) && at.kind.Execute? && req.requestId in w.records && (mine ==> Owns(w, req.requestId, a))
    case Barred(req, mine) =>
      MyRequest(w, at, req) && at.kind.Execute? && req.requestId in w.records && (mine ==> Owns(w, req.requestId, a))
    case Searching(req) => MyRequest(w, at, req) && at.kind.Reconcile? && req.requestId in w.records
    case Creating(req) => CreatingOk(w, a, at, req)
    case FindingProject(req) => CreatingOk(w, a, at, req)
    case Inserting(req) => CreatingOk(w, a, at, req)
    case Conflicted(req) => CreatingOk(w, a, at, req) && Find(w.issues, req.project, req.requestId).Some?
    case Enqueuing(req) => MyRequest(w, at, req) && req.requestId in w.records
    case Completing(req, issue, via) =>
      MyRequest(w, at, req) && req.requestId in w.records && HoldsIssue(w, req, issue) && !via.PendingReconciliation?
      && (via.Created? ==> Owns(w, req.requestId, a))
    case Finalizing(req, issue, via) =>
      MyRequest(w, at, req) && HasIssue(w, req.requestId) && HoldsIssue(w, req, issue) && !via.PendingReconciliation?
      && (via.Created? ==> Owns(w, req.requestId, a))
    case Done(o) =>
      && Backed(w, o) && (o.status.Created? ==> Owns(w, o.requestId, a))
      && (o.key.None? <==> o.status.PendingReconciliation?)
      && (o.key.None? ==> o.requestId in w.reconcileJobs && o.requestId in w.records)
    case Denied(_) => true
    case Raised(f) =>
      !f.ReservationVanished? && !f.OtherProject? && !f.NoReservation? && !f.ConflictNotReconciled?
  }

  /** The outcome carries the request and the key of the issue. */
  predicate Reports(o: Outcome, issue: Response) {
    o.key == Some(issue.key) && issue.requestId == o.requestId
  }

  /** The provider holds an issue with the key an outcome reports. */
  predicate Backed(w: World, o: Outcome) {
    o.key.Some? ==> exists i :: 0 <= i < |w.issues| && Reports(o, w.issues[i])
  }

  predicate CreatingOk(w: World, a: nat, at: Attempt, req: Request) {
    MyRequest(w, at, req) && req.requestId in w.records && (at.kind.Execute? ==> Owns(w, req.requestId, a))
  }

  /** The request is that of a draft behind its barrier. */
  predicate BehindBarrier(w: World, req: Request) {
    req.requestId in w.records && req.requestId < |w.drafts| && req == BuildRequest(w.drafts[req.requestId])
  }

  predicate Inv(s: State) {
    && WorldOk(s.world)
    && (forall req <- s.inFlight :: BehindBarrier(s.world, req))
    && (forall a :: 0 <= a < |s.attempts| ==> AttemptOk(s.world, a, s.attempts[a]))
    && (forall r <- s.world.takenBy ::
          s.world.takenBy[r] < |s.attempts| && Taker(s.world, r, s.attempts[s.world.takenBy[r]]))
  }

  // ----------------------------------------------------- storage only ever grows

  predicate Grows(w: World, v: World) {
    && |w.drafts| <= |v.drafts|
    && (forall d :: 0 <= d < |w.drafts| ==> SameDraft(w.drafts[d], v.drafts[d]))
    && w.receipts <= v.receipts
    && (forall r <- w.records :: r in v.records && (w.records[r].Completed() ==> v.records[r] == w.records[r]))
    && (forall r <- w.takenBy :: r in v.takenBy && v.takenBy[r] == w.takenBy[r])
    && w.issues <= v.issues
    && w.contents <= v.contents
    && w.reconcileJobs <= v.reconcileJobs
    && w.events <= v.events
  }

  lemma {:induction false} FindStays(a: seq<Response>, b: seq<Response>, project: nat, r: nat)
    requires a <= b && Find(a, project, r).Some?
    ensures Find(b, project, r) == Find(a, project, r)
  {
    if !(a[0].project == project && a[0].requestId == r) {
      FindStays(a[1..], b[1..], project, r);
    }
  }

  lemma AttemptStaysOk(w: World, v: World, a: nat, at: Attempt)
    requires Grows(w, v) && AttemptOk(w, a, at)
    ensures AttemptOk(v, a, at)
  {
    match at.pc
    case Conflicted(req) => FindStays(w.issues, v.issues, req.project, req.requestId);
    case Done(o) =>
      if o.key.Some? {
        var i :| 0 <= i < |w.issues| && Reports(o, w.issues[i]);
        assert v.issues[i] == w.issues[i];
      }
    case _ =>
  }

  lemma TakerStays(w: World, v: World, r: nat, at: Attempt)
    requires Grows(w, v) && Taker(w, r, at)
    ensures Taker(v, r, at)
  {
  }

  // ------------------------------------------------------ every step keeps it

  /** What one `await` owes everyone else. */
  predicate Kept(w: World, a: nat, at: Attempt, w': World, at': Attempt) {
    && WorldOk(w') && Grows(w, w') && AttemptOk(w', a, at')
    && at'.kind == at.kind
    && (PastBarrier(at.pc) ==> at'.roles == at.roles && at'.checkedAt == at.checkedAt && PastBarrier(at'.pc))
    && (forall r <- w'.takenBy :: r !in w.takenBy ==> w'.takenBy[r] == a && Taker(w', r, at'))
  }

  lemma ReplayKeeps(w: World, a: nat, at: Attempt, r: nat, status: Status)
    requires WorldOk(w) && r in w.records && w.records[r].Completed() && (status.AlreadyCreated? || status.Reconciled?)
    ensures AttemptOk(w, a, at.(pc := Replay(w.records[r], r, status)))
  {
    assert RecordOk(w, r);
    var i :| 0 <= i < |w.issues| && w.issues[i] == w.records[r].response.value;
  }

  lemma RecordKeeps(w: World, req: Request, a: nat)
    requires WorldOk(w) && req.requestId !in w.records && req.requestId < |w.drafts|
    requires req.project == w.drafts[req.requestId].project
    ensures WorldOk(WithRecord(w, req, a)) && Grows(w, WithRecord(w, req, a))
  {
    RecordGrows(w, req, a);
    var v := WithRecord(w, req, a);
    forall r | r in v.records ensures RecordOk(v, r) {
      if r in w.records {
        assert RecordOk(w, r);
      }
    }
    forall i | 0 <= i < |v.issues| ensures IssueOk(v, i) {
      assert IssueOk(w, i);
    }
  }

  lemma RecordGrows(w: World, req: Request, a: nat)
    requires req.requestId !in w.records && w.takenBy.Keys == w.records.Keys
    ensures Grows(w, WithRecord(w, req, a))
  {
  }

  lemma ReserveKeeps(w: World, a: nat, at: Attempt)
    requires WorldOk(w) && AttemptOk(w, a, at) && at.pc.LookedUp?
    ensures Kept(w, a, at, Reserve(w, a, at).0, Reserve(w, a, at).1)
  {
    var req := at.pc.req;
    if req.requestId in w.records {
      OnlyReadKeeps(w, a, at, at.(pc := Inserted(req, false)));
    } else {
      RecordKeeps(w, req, a);
      ReservedOk(w, a, at);
    }
  }

  lemma ReservedOk(w: World, a: nat, at: Attempt)
    requires AttemptOk(w, a, at) && at.pc.LookedUp? && at.pc.req.requestId !in w.records
    requires Grows(w, WithRecord(w, at.pc.req, a))
    ensures var v, at' := WithRecord(w, at.pc.req, a), at.(pc := Inserted(at.pc.req, true));
            AttemptOk(v, a, at') && Taker(v, at.pc.req.requestId, at')
  {
  }

  lemma ResponseKeeps(w: World, id: nat, issue: Response)
    requires WorldOk(w) && id in w.records && issue in w.issues && issue.requestId == id
    ensures WorldOk(WithResponse(w, id, issue)) && Grows(w, WithResponse(w, id, issue))
  {
    var v := WithResponse(w, id, issue);
    assert RecordOk(w, id);
    forall r | r in v.records ensures RecordOk(v, r) {
      assert RecordOk(w, r);
    }
    forall i | 0 <= i < |v.issues| ensures IssueOk(v, i) {
      assert IssueOk(w, i);
    }
  }

  lemma CompleteKeeps(w: World, a: nat, at: Attempt)
    requires WorldOk(w) && AttemptOk(w, a, at) && at.pc.Completing?
    ensures Kept(w, a, at, Settle(w, at).0, Settle(w, at).1)
  {
    ResponseKeeps(w, at.pc.req.requestId, at.pc.issue);
  }

  lemma FinalizeKeeps(w: World, a: nat, at: Attempt)
    requires WorldOk(w) && AttemptOk(w, a, at) && at.pc.Finalizing?
    ensures Kept(w, a, at, Settle(w, at).0, Settle(w, at).1)
  {
    StatusKeeps(w, at.kind.draft, DraftCreated);
    FinalizedOk(Settle(w, at).0, w, a, at);
  }

  lemma FinalizedOk(v: World, w: World, a: nat, at: Attempt)
    requires AttemptOk(w, a, at) && at.pc.Finalizing? && v.issues == w.issues && v.takenBy == w.takenBy
    ensures AttemptOk(v, a, at.(pc := Done(Outcome(at.pc.via, at.pc.req.requestId, Some(at.pc.issue.key)))))
  {
    var i :| 0 <= i < |w.issues| && w.issues[i] == at.pc.issue;
    assert v.issues[i].requestId == at.pc.req.requestId;
  }

  lemma StatusKeeps(w: World, d: nat, status: DraftStatus)
    requires WorldOk(w) && d < |w.drafts| && (status.DraftCreated? ==> HasIssue(w, d))
    ensures WorldOk(SetDraftStatus(w, d, status)) && Grows(w, SetDraftStatus(w, d, status))
  {
    var v := SetDraftStatus(w, d, status);
    forall r | r in v.records ensures RecordOk(v, r) {
      assert RecordOk(w, r);
    }
    forall i | 0 <= i < |v.issues| ensures IssueOk(v, i) {
      assert IssueOk(w, i);
    }
  }

  /** A step that only read the storage. */
  lemma OnlyReadKeeps(w: World, a: nat, at: Attempt, at': Attempt)
    requires WorldOk(w) && AttemptOk(w, a, at') && at'.kind == at.kind
    requires PastBarrier(at.pc) ==> at'.roles == at.roles && at'.checkedAt == at.checkedAt && PastBarrier(at'.pc)
    ensures Kept(w, a, at, w, at')
  {
  }

  lemma NewIssueKeeps(w: World, req: Request, key: string)
    requires WorldOk(w) && req.requestId in w.records && req.requestId < |w.drafts|
    requires req == BuildRequest(w.drafts[req.requestId])
    requires Find(w.issues, req.project, req.requestId).None?
    ensures WorldOk(WithIssue(w, req, key)) && Grows(w, WithIssue(w, req, key))
  {
    var v := WithIssue(w, req, key);
    forall i | 0 <= i < |w.issues| ensures w.issues[i].requestId != req.requestId {
      assert IssueOk(w, i);
    }
    forall i | 0 <= i < |v.issues| ensures IssueOk(v, i) {
      if i < |w.issues| {
        assert IssueOk(w, i);
      }
    }
    RecordsStay(w, v);
  }

  lemma RecordsStay(w: World, v: World)
    requires WorldOk(w) && v.records == w.records && v.drafts == w.drafts && w.issues <= v.issues
    ensures forall r <- v.records :: RecordOk(v, r)
  {
    forall r | r in v.records ensures RecordOk(v, r) {
      assert RecordOk(w, r);
    }
  }

  lemma InsertedOk(w: World, a: nat, at: Attempt, key: string)
    requires WorldOk(w) && AttemptOk(w, a, at) && at.pc.Inserting?
    requires Grows(w, WithIssue(w, at.pc.req, key))
    ensures var v, req := WithIssue(w, at.pc.req, key), at.pc.req;
            AttemptOk(v, a, at.(pc := OnTimeout(at, req)))
            && AttemptOk(v, a, at.(pc := Completing(req, NewIssue(req, key), Via(at))))
  {
    var v, req := WithIssue(w, at.pc.req, key), at.pc.req;
    AttemptStaysOk(w, v, a, at);
    assert v.issues[|w.issues|] == NewIssue(req, key);
  }

  /** Either the insert goes through, or nothing is written. */
  lemma InsertCases(w: World, a: nat, at: Attempt, env: Env)
    requires WorldOk(w) && AttemptOk(w, a, at) && at.pc.Inserting?
    ensures var (v, at') := CreateIssue(w, at, env);
            && at' == at.(pc := at'.pc)
            && if Find(w.issues, at.pc.req.project, at.pc.req.requestId).None? && v != w
               then v == WithIssue(w, at.pc.req, env.key)
                    && (at'.pc == OnTimeout(at, at.pc.req)
                        || at'.pc == Completing(at.pc.req, NewIssue(at.pc.req, env.key), Via(at)))
               else v == w && AttemptOk(w, a, at') && PastBarrier(at'.pc)
  {
    if Find(w.issues, at.pc.req.project, at.pc.req.requestId).None? {
      FreeInsertCases(w, at, env);
    }
  }

  /** Nothing stands in the way of the insert but the key. */
  lemma FreeInsertCases(w: World, at: Attempt, env: Env)
    requires at.pc.Inserting? && Find(w.issues, at.pc.req.project, at.pc.req.requestId).None?
    ensures var (v, at') := CreateIssue(w, at, env);
            && at' == at.(pc := at'.pc)
            && (|| (v == w && (at'.pc == OnTimeout(at, at.pc.req) || at'.pc == Raised(KeyCollision)))
                || (v == WithIssue(w, at.pc.req, env.key)
                    && (at'.pc == OnTimeout(at, at.pc.req)
                        || at'.pc == Completing(at.pc.req, NewIssue(at.pc.req, env.key), Via(at)))))
  {
  }

  lemma InsertKeeps(w: World, a: nat, at: Attempt, env: Env)
    requires WorldOk(w) && AttemptOk(w, a, at) && at.pc.Inserting?
    ensures Kept(w, a, at, CreateIssue(w, at, env).0, CreateIssue(w, at, env).1)
  {
    InsertCases(w, a, at, env);
    var (v, at') := CreateIssue(w, at, env);
    if v == w {
      OnlyReadKeeps(w, a, at, at');
    } else {
      InsertedKeeps(w, a, at, env.key, at');
    }
  }

  lemma InsertedKeeps(w: World, a: nat, at: Attempt, key: string, at': Attempt)
    requires WorldOk(w) && AttemptOk(w, a, at) && at.pc.Inserting? && at' == at.(pc := at'.pc)
    requires Find(w.issues, at.pc.req.project, at.pc.req.requestId).None?
    requires at'.pc == OnTimeout(at, at.pc.req) || at'.pc == Completing(at.pc.req, NewIssue(at.pc.req, key), Via(at))
    ensures Kept(w, a, at, WithIssue(w, at.pc.req, key), at')
  {
    assert RecordOk(w, at.pc.req.requestId);
    NewIssueKeeps(w, at.pc.req, key);
    InsertedOk(w, a, at, key);
  }

  lemma CheckKeeps(w: World, a: nat, at: Attempt, env: Env)
    requires WorldOk(w) && AttemptOk(w, a, at) && BeforeBarrier(at.pc)
    ensures AttemptOk(w, a, Check(w, at, env)) && Check(w, at, env).kind == at.kind
  {
    if at.pc.HaveDraft? {
      if at.kind.draft in w.records && w.records[at.kind.draft].Completed() {
        ReplayKeeps(w, a, at, at.kind.draft, Reconciled);
      }
    }
    if at.pc.Authorized? {
      var r := at.pc.req.requestId;
      if r in w.records && w.records[r].Completed() {
        ReplayKeeps(w, a, at, r, AlreadyCreated);
      }
    }
  }

  lemma CrossBarrierKeeps(w: World, a: nat, at: Attempt)
    requires WorldOk(w) && AttemptOk(w, a, at) && AtBarrier(at.pc)
    ensures AttemptOk(w, a, at.(pc := CrossBarrier(w, at.pc))) && PastBarrier(CrossBarrier(w, at.pc))
  {
    var r := at.pc.req.requestId;
    assert RecordOk(w, r);
    if w.records[r].Completed() {
      ReplayKeeps(w, a, at, r, AlreadyCreated);
    }
  }

  lemma ProviderReadKeeps(w: World, a: nat, at: Attempt, env: Env)
    requires WorldOk(w) && AttemptOk(w, a, at) && InsideProvider(at.pc) && !at.pc.Inserting?
    ensures CreateIssue(w, at, env).0 == w && AttemptOk(w, a, CreateIssue(w, at, env).1)
    ensures CreateIssue(w, at, env).1 == at.(pc := CreateIssue(w, at, env).1.pc)
    ensures PastBarrier(CreateIssue(w, at, env).1.pc)
  {
  }

  lemma JobKeeps(w: World, r: nat)
    requires WorldOk(w)
    ensures var v := w.(reconcileJobs := w.reconcileJobs + [r]);
            WorldOk(v) && Grows(w, v)
  {
    var v := w.(reconcileJobs := w.reconcileJobs + [r]);
    forall r | r in v.records ensures RecordOk(v, r) {
      assert RecordOk(w, r);
    }
    forall i | 0 <= i < |v.issues| ensures IssueOk(v, i) {
      assert IssueOk(w, i);
    }
  }

  lemma AdvanceKeeps(w: World, a: nat, at: Attempt, env: Env)
    requires WorldOk(w) && AttemptOk(w, a, at)
    ensures Kept(w, a, at, Advance(w, a, at, env).0, Advance(w, a, at, env).1)
  {
    var at' := Advance(w, a, at, env).1;
    if !Live(at.pc) || env.fault.Broken? {
      OnlyReadKeeps(w, a, at, at');
    } else if BeforeBarrier(at.pc) {
      CheckKeeps(w, a, at, env);
      OnlyReadKeeps(w, a, at, at');
    } else if at.pc.LookedUp? {
      ReserveKeeps(w, a, at);
    } else if AtBarrier(at.pc) {
      CrossBarrierKeeps(w, a, at);
      OnlyReadKeeps(w, a, at, at');
    } else if at.pc.Inserting? {
      InsertKeeps(w, a, at, env);
    } else if InsideProvider(at.pc) {
      ProviderReadKeeps(w, a, at, env);
      OnlyReadKeeps(w, a, at, at');
    } else if at.pc.Enqueuing? {
      JobKeeps(w, at.pc.req.requestId);
    } else if at.pc.Completing? {
      CompleteKeeps(w, a, at);
    } else {
      FinalizeKeeps(w, a, at);
    }
  }

  lemma DecisionKeeps(w: World, d: nat, actor: nat, confirm: bool, hash: Hash, now: Time, ttl: Time)
    requires WorldOk(w)
    ensures var v := RecordDecision(w, d, actor, confirm, hash, now, ttl);
            WorldOk(v) && Grows(w, v) && v.takenBy == w.takenBy
  {
    DecisionCases(w, d, actor, confirm, hash, now, ttl);
    if Accepted(w, d, hash, now, ttl) {
      var c := Receipt(w.drafts[d].run, hash, confirm, actor, now, w.drafts[d].createdAt + ttl);
      SavedDecisionKeeps(w, d, c, if confirm then DraftConfirmed else DraftCancelled);
    } else {
      UnchangedGrows(w);
    }
  }

  lemma DecisionCases(w: World, d: nat, actor: nat, confirm: bool, hash: Hash, now: Time, ttl: Time)
    ensures RecordDecision(w, d, actor, confirm, hash, now, ttl)
         == if !Accepted(w, d, hash, now, ttl) then w
            else SetDraftStatus(
                   SaveConfirmation(w, Receipt(w.drafts[d].run, hash, confirm, actor, now,
                                               w.drafts[d].createdAt + ttl)),
                   d, if confirm then DraftConfirmed else DraftCancelled)
  {
  }

  lemma UnchangedGrows(w: World)
    ensures Grows(w, w)
  {
  }

  lemma SavedDecisionKeeps(w: World, d: nat, c: Receipt, status: DraftStatus)
    requires WorldOk(w) && d < |w.drafts| && !status.DraftCreated?
    ensures var v := SetDraftStatus(SaveConfirmation(w, c), d, status);
            WorldOk(v) && Grows(w, v) && v.takenBy == w.takenBy
  {
    var saved := SaveConfirmation(w, c);
    SaveConfirmationKeeps(w, c);
    StatusKeeps(saved, d, status);
  }

  lemma SaveConfirmationKeeps(w: World, c: Receipt)
    requires WorldOk(w)
    ensures var v := SaveConfirmation(w, c);
            WorldOk(v) && Grows(w, v) && v == w.(receipts := v.receipts)
  {
    var v := SaveConfirmation(w, c);
    forall r | r in v.records ensures RecordOk(v, r) {
      assert RecordOk(w, r);
    }
    forall i | 0 <= i < |v.issues| ensures IssueOk(v, i) {
      assert IssueOk(w, i);
    }
  }

  lemma DraftKeeps(w: World, d: Draft)
    requires WorldOk(w)
    ensures var v := w.(drafts := w.drafts + [d.(id := |w.drafts|, status := DraftOpen)]);
            WorldOk(v) && Grows(w, v)
  {
    var v := w.(drafts := w.drafts + [d.(id := |w.drafts|, status := DraftOpen)]);
    forall r | r in v.records ensures RecordOk(v, r) {
      assert RecordOk(w, r);
    }
    forall i | 0 <= i < |v.issues| ensures IssueOk(v, i) {
      assert IssueOk(w, i);
    }
  }

  /** A change of storage alone leaves every attempt as justified as it was. */
  lemma WorldChangeKeeps(s: State, v: World)
    requires Inv(s) && WorldOk(v) && Grows(s.world, v) && v.takenBy == s.world.takenBy
    ensures Inv(s.(world := v))
  {
    forall a | 0 <= a < |s.attempts| ensures AttemptOk(v, a, s.attempts[a]) {
      AttemptStaysOk(s.world, v, a, s.attempts[a]);
    }
    forall r | r in v.takenBy ensures Taker(v, r, s.attempts[v.takenBy[r]]) {
      TakerStays(s.world, v, r, s.attempts[v.takenBy[r]]);
    }
    FlightsStay(s.world, v, s.inFlight);
  }

  lemma FlightsStay(w: World, v: World, inFlight: seq<Request>)
    requires Grows(w, v) && forall req <- inFlight :: BehindBarrier(w, req)
    ensures forall req <- inFlight :: BehindBarrier(v, req)
  {
    forall req <- inFlight ensures BehindBarrier(v, req) {
      assert BehindBarrier(w, req);
      SameDraftSameRequest(w.drafts[req.requestId], v.drafts[req.requestId]);
    }
  }

  lemma SameDraftSameRequest(a: Draft, b: Draft)
    requires SameDraft(a, b)
    ensures BuildRequest(a) == BuildRequest(b)
  {
  }

  lemma FlightIsBehindBarrier(w: World, a: nat, at: Attempt)
    requires WorldOk(w) && AttemptOk(w, a, at) && InsideProvider(at.pc)
    ensures BehindBarrier(w, at.pc.req)
  {
  }

  /** A write that lands late is one nobody has made in the meantime, or changes nothing. */
  lemma LandingKeeps(w: World, req: Request, key: string, projectActive: bool)
    requires WorldOk(w) && BehindBarrier(w, req)
    ensures var v := Landed(w, req, key, projectActive);
            WorldOk(v) && Grows(w, v) && v.takenBy == w.takenBy
  {
    if Landed(w, req, key, projectActive) != w {
      NewIssueKeeps(w, req, key);
    }
  }

  lemma FlightsAfter(w: World, v: World, a: nat, at: Attempt, env: Env, inFlight: seq<Request>)
    requires WorldOk(w) && AttemptOk(w, a, at) && Grows(w, v)
    requires forall req <- inFlight :: BehindBarrier(w, req)
    ensures forall req <- inFlight + (if LeavesInFlight(at, env) then [at.pc.req] else []) :: BehindBarrier(v, req)
  {
    if LeavesInFlight(at, env) {
      FlightIsBehindBarrier(w, a, at);
      FlightsStay(w, v, [at.pc.req]);
    }
    FlightsStay(w, v, inFlight);
  }

  lemma ContinueKeeps(s: State, a: nat, env: Env)
    requires Inv(s) && a < |s.attempts|
    ensures Inv(Apply(s, Continue(a, env)))
  {
    var w, at := s.world, s.attempts[a];
    AdvanceKeeps(w, a, at, env);
    var (w', at') := Advance(w, a, at, env);
    var s' := Apply(s, Continue(a, env));
    forall b | 0 <= b < |s'.attempts| ensures AttemptOk(w', b, s'.attempts[b]) {
      if b != a {
        AttemptStaysOk(w, w', b, s.attempts[b]);
      }
    }
    FlightsAfter(w, w', a, at, env, s.inFlight);
    forall r | r in w'.takenBy
      ensures w'.takenBy[r] < |s'.attempts| && Taker(w', r, s'.attempts[w'.takenBy[r]])
    {
      if r in w.takenBy {
        TakerStays(w, w', r, s.attempts[w.takenBy[r]]);
      }
    }
  }

  /** The steps that change storage only. */
  lemma WorldStepKeeps(s: State, step: Step)
    requires WorldOk(s.world) && (forall req <- s.inFlight :: BehindBarrier(s.world, req))
    requires step.NewDraft? || step.Decide? || step.Land?
    ensures WorldOk(Apply(s, step).world) && Grows(s.world, Apply(s, step).world)
    ensures Apply(s, step) == s.(world := Apply(s, step).world) && Apply(s, step).world.takenBy == s.world.takenBy
  {
    match step
    case NewDraft(d) => DraftKeeps(s.world, d);
    case Decide(d, actor, confirm, hash, now, ttl) => DecisionKeeps(s.world, d, actor, confirm, hash, now, ttl);
    case Land(k, key, projectActive) =>
      UnchangedGrows(s.world);
      if k < |s.inFlight| {
        LandingKeeps(s.world, s.inFlight[k], key, projectActive);
      }
  }

  lemma StepKeeps(s: State, step: Step)
    requires Inv(s)
    ensures Inv(Apply(s, step)) && Grows(s.world, Apply(s, step).world)
  {
    if step.Start? {
      UnchangedGrows(s.world);
    } else if !step.Continue? {
      WorldStepKeeps(s, step);
      WorldChangeKeeps(s, Apply(s, step).world);
    } else if step.attempt < |s.attempts| {
      AdvanceKeeps(s.world, step.attempt, s.attempts[step.attempt], step.env);
      ContinueKeeps(s, step.attempt, step.env);
    }
  }

  lemma {:induction false} Reachable(steps: seq<Step>)
    ensures Inv(Exec(steps))
  {
    if steps != [] {
      Reachable(Front(steps));
      StepKeeps(Exec(Front(steps)), Last(steps));
    }
  }
}
