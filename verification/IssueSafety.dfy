/** What confirmed issue creation promises, over any number of concurrent attempts
    (application/services/issue_creation.py, infrastructure/project_tracker/sandbox.py). */
module IssueSafety {
  import opened Common
  import opened IssueCreation
  import opened IssueDecisions
  import opened IssueInvariant
  import opened Text

  ghost predicate IsReachable(s: State) {
    exists steps :: Exec(steps) == s
  }

  lemma ReachableIsGood(s: State)
    requires IsReachable(s)
    ensures Inv(s)
  {
    var steps :| Exec(steps) == s;
    Reachable(steps);
  }

  lemma AttemptIsOk(s: State, a: nat)
    requires IsReachable(s) && a < |s.attempts|
    ensures AttemptOk(s.world, a, s.attempts[a])
  {
    ReachableIsGood(s);
  }

  function IssuesFor(issues: seq<Response>, r: nat): nat {
    if issues == [] then 0 else IssuesFor(Front(issues), r) + if Last(issues).requestId == r then 1 else 0
  }

  function EventsFor(events: seq<CreatedEvent>, r: nat): nat {
    if events == [] then 0 else EventsFor(Front(events), r) + if Last(events).requestId == r then 1 else 0
  }

  lemma {:induction false} NoneCounted(issues: seq<Response>, r: nat)
    requires forall i :: 0 <= i < |issues| ==> issues[i].requestId != r
    ensures IssuesFor(issues, r) == 0
  {
    if issues != [] {
      NoneCounted(Front(issues), r);
    }
  }

  lemma {:induction false} CountDistinct(issues: seq<Response>, events: seq<CreatedEvent>, r: nat)
    requires |issues| == |events| && forall i :: 0 <= i < |issues| ==> events[i].requestId == issues[i].requestId
    requires forall i, j :: 0 <= i < j < |issues| ==> issues[i].requestId != issues[j].requestId
    ensures IssuesFor(issues, r) <= 1 && EventsFor(events, r) == IssuesFor(issues, r)
  {
    if issues != [] {
      CountDistinct(Front(issues), Front(events), r);
      if Last(issues).requestId == r {
        NoneCounted(Front(issues), r);
      }
    }
  }

  /** The provider never holds a second issue, or a second CREATED event, for a request. */
  lemma AtMostOneIssue(s: State, r: nat)
    requires IsReachable(s)
    ensures var w := s.world;
            IssuesFor(w.issues, r) <= 1 && EventsFor(w.events, r) == IssuesFor(w.issues, r)
  {
    ReachableIsGood(s);
    var w := s.world;
    forall i | 0 <= i < |w.issues| ensures w.events[i].requestId == w.issues[i].requestId {
      assert IssueOk(w, i);
    }
    CountDistinct(w.issues, w.events, r);
  }

  lemma DoneIsBacked(s: State, a: nat)
    requires IsReachable(s) && a < |s.attempts| && s.attempts[a].pc.Done?
    ensures Backed(s.world, s.attempts[a].pc.outcome)
    ensures s.attempts[a].pc.outcome.status.Created? ==> Owns(s.world, s.attempts[a].pc.outcome.requestId, a)
  {
    AttemptIsOk(s, a);
  }

  lemma RequestsDiffer(s: State, i: nat, j: nat)
    requires IsReachable(s) && i < |s.world.issues| && j < |s.world.issues|
    requires s.world.issues[i].requestId == s.world.issues[j].requestId
    ensures i == j
  {
    ReachableIsGood(s);
  }

  /** What was added, if anything, is an issue under a key that was free in its project. */
  predicate AddsFreeKey(before: seq<Response>, after: seq<Response>) {
    || after == before
    || (|after| == |before| + 1 && before <= after && !KeyTaken(before, Last(after).project, Last(after).key))
  }

  lemma AdvanceAddsFreeKey(w: World, a: nat, at: Attempt, env: Env)
    ensures AddsFreeKey(w.issues, Advance(w, a, at, env).0.issues)
  {
  }

  lemma StepAddsFreeKey(s: State, step: Step)
    ensures AddsFreeKey(s.world.issues, Apply(s, step).world.issues)
  {
    if step.Continue? && step.attempt < |s.attempts| {
      AdvanceAddsFreeKey(s.world, step.attempt, s.attempts[step.attempt], step.env);
    }
  }

  /** No two issues of a project have the same key. */
  lemma {:induction false} KeysAreUnique(steps: seq<Step>, i: nat, j: nat)
    requires i < j < |Exec(steps).world.issues|
    ensures var issues := Exec(steps).world.issues;
            issues[i].project != issues[j].project || issues[i].key != issues[j].key
  {
    if steps != [] {
      var before := Exec(Front(steps)).world.issues;
      StepAddsFreeKey(Exec(Front(steps)), Last(steps));
      if j < |before| {
        KeysAreUnique(Front(steps), i, j);
      } else {
        assert Exec(steps).world.issues[i] == before[i];
      }
    }
  }

  /** Every outcome that carries a key carries the key of the one issue the provider holds. */
  lemma OutcomesAgreeWithProvider(s: State, a: nat, i: nat)
    requires IsReachable(s)
    requires a < |s.attempts| && i < |s.world.issues|
    requires var pc := s.attempts[a].pc;
             pc.Done? && pc.outcome.key.Some? && s.world.issues[i].requestId == pc.outcome.requestId
    ensures s.attempts[a].pc.outcome.key == Some(s.world.issues[i].key)
  {
    DoneIsBacked(s, a);
    var o := s.attempts[a].pc.outcome;
    var j :| 0 <= j < |s.world.issues| && Reports(o, s.world.issues[j]);
    RequestsDiffer(s, i, j);
  }

  /** ... and that issue is really there. */
  lemma OutcomesAreBacked(s: State, a: nat)
    requires IsReachable(s)
    requires a < |s.attempts|
    requires s.attempts[a].pc.Done? && s.attempts[a].pc.outcome.key.Some?
    ensures IssuesFor(s.world.issues, s.attempts[a].pc.outcome.requestId) == 1
  {
    DoneIsBacked(s, a);
    var o := s.attempts[a].pc.outcome;
    var j :| 0 <= j < |s.world.issues| && Reports(o, s.world.issues[j]);
    IssueCounts(s.world.issues, j);
    AtMostOneIssue(s, o.requestId);
  }

  lemma {:induction false} IssueCounts(issues: seq<Response>, j: nat)
    requires j < |issues|
    ensures IssuesFor(issues, issues[j].requestId) >= 1
  {
    if j < |issues| - 1 {
      IssueCounts(Front(issues), j);
    }
  }

  /** An outcome without a key is PENDING_RECONCILIATION and nothing else; the barrier it left
      behind and the job that will reconcile it are on record. */
  lemma PendingIsQueued(s: State, a: nat)
    requires IsReachable(s) && a < |s.attempts| && s.attempts[a].pc.Done?
    ensures var o := s.attempts[a].pc.outcome;
            && (o.key.None? <==> o.status.PendingReconciliation?)
            && (o.key.None? ==> o.requestId in s.world.reconcileJobs && o.requestId in s.world.records)
  {
    AttemptIsOk(s, a);
  }

  /** Of all concurrent attempts for a request, at most one reports CREATED. */
  lemma AtMostOneCreated(s: State, a: nat, b: nat)
    requires IsReachable(s)
    requires a < |s.attempts| && b < |s.attempts|
    requires var x, y := s.attempts[a].pc, s.attempts[b].pc;
             x.Done? && y.Done? && x.outcome.status.Created? && y.outcome.status.Created?
             && x.outcome.requestId == y.outcome.requestId
    ensures a == b
  {
    DoneIsBacked(s, a);
    DoneIsBacked(s, b);
  }

  /** No attempt ever fails because a conflict could not be reconciled, a reservation vanished,
      or a completion found no reservation. */
  lemma ImpossibleFailures(s: State, a: nat)
    requires IsReachable(s)
    requires a < |s.attempts|
    ensures var pc := s.attempts[a].pc;
            pc.Raised? ==> !pc.failure.ConflictNotReconciled? && !pc.failure.ReservationVanished?
                           && !pc.failure.NoReservation? && !pc.failure.OtherProject?
  {
    AttemptIsOk(s, a);
  }

  /** What whoever took the reservation of issue `i` had been shown. */
  lemma TakerOf(s: State, i: nat)
    requires IsReachable(s) && i < |s.world.issues|
    ensures var w, r := s.world, s.world.issues[i].requestId;
            && r in w.takenBy && w.takenBy[r] < |s.attempts| && Taker(w, r, s.attempts[w.takenBy[r]])
            && |w.events| == |w.issues| == |w.contents| && IssueOk(w, i)
  {
    ReachableIsGood(s);
    var w := s.world;
    assert IssueOk(w, i) && w.issues[i].requestId in w.takenBy;
  }

  /** The step is `actor`'s confirmation of exactly `content`: the draft existed, the hash was that of
      this payload, and neither the decision nor the later check of it came too late. */
  predicate Consents(before: World, step: Step, actor: nat, content: Request, checkedAt: Time) {
    && step.Decide? && step.confirm && step.actor == actor
    && step.hash == PayloadHash(content) && step.id == content.requestId
    && step.id < |before.drafts| && content == BuildRequest(before.drafts[step.id])
    && step.now <= before.drafts[step.id].createdAt + step.ttl
    && checkedAt <= before.drafts[step.id].createdAt + step.ttl
  }

  /** Step `n`, which came before issue `i`, is that confirmation. */
  predicate ConsentedAt(steps: seq<Step>, n: nat, i: nat, actor: nat, content: Request, checkedAt: Time) {
    && n < |steps| && |Exec(steps[..n]).world.issues| <= i
    && Consents(Exec(steps[..n]).world, steps[n], actor, content, checkedAt)
  }

  lemma ApprovalIsConsent(before: World, w: World, step: Step, at: Attempt, content: Request)
    requires Grows(before, w) && WorldOk(w) && Counts(before, step)
    requires Approved(w, at) && Unexpired(w, at) && content == BuildRequest(w.drafts[at.kind.draft])
    requires Records(before, step, w.receipts[at.kind.receipt])
    ensures Consents(before, step, at.kind.actor, content, at.checkedAt)
  {
    assert w.drafts[at.kind.draft].id == at.kind.draft;
    SameDraftSameRequest(before.drafts[step.id], w.drafts[step.id]);
    assert w.drafts[step.id].id == step.id;
  }

  /** No unconfirmed side effect: behind every issue of every history stands an earlier step in which
      the very user who executed it confirmed exactly the payload the provider got, in time.  Its
      execution was checked against that deadline and against a role that may create issues. */
  lemma NoUnconfirmedSideEffect(steps: seq<Step>, s: State, i: nat)
    requires Exec(steps) == s && i < |s.world.issues|
    ensures var r := s.world.issues[i].requestId;
            r in s.world.records && r in s.world.takenBy && s.world.takenBy[r] < |s.attempts| && i < |s.world.contents|
            && var at := s.attempts[s.world.takenBy[r]];
               && at.kind.Execute? && at.kind.draft == r && MayCreate(at.roles)
               && s.world.contents[i].requestId == r
               && exists n :: ConsentedAt(steps, n, i, at.kind.actor, s.world.contents[i], at.checkedAt)
  {
    TakerOf(s, i);
    IssueIsTheDraft(s, i);
    var r := s.world.issues[i].requestId;
    var at := s.attempts[s.world.takenBy[r]];
    TakerConsented(steps, s, i, at);
  }

  lemma TakerConsented(steps: seq<Step>, s: State, i: nat, at: Attempt)
    requires Exec(steps) == s && i < |s.world.issues| && i < |s.world.contents| && at.kind.draft < |s.world.drafts|
    requires IsTaker(s, s.world.issues[i].requestId, at) && Taker(s.world, s.world.issues[i].requestId, at)
    requires s.world.contents[i] == BuildRequest(s.world.drafts[at.kind.draft])
    ensures exists n :: ConsentedAt(steps, n, i, at.kind.actor, s.world.contents[i], at.checkedAt)
  {
    ReceiptsAreDecisions(steps, at.kind.receipt);
    var n: nat :| StoredBy(steps, at.kind.receipt, n);
    DecisionPrecedes(steps, i, n, at);
    StoredIsConsent(steps, n, at, s.world.contents[i]);
    assert ConsentedAt(steps, n, i, at.kind.actor, s.world.contents[i], at.checkedAt);
  }

  lemma StoredIsConsent(steps: seq<Step>, n: nat, at: Attempt, content: Request)
    requires Approved(Exec(steps).world, at) && Unexpired(Exec(steps).world, at)
    requires content == BuildRequest(Exec(steps).world.drafts[at.kind.draft]) && StoredBy(steps, at.kind.receipt, n)
    ensures Consents(Exec(steps[..n]).world, steps[n], at.kind.actor, content, at.checkedAt)
  {
    DraftsStay(steps, n);
    Reachable(steps);
    ApprovalIsConsent(Exec(steps[..n]).world, Exec(steps).world, steps[n], at, content);
  }

  /** Attempt `at` took the reservation of request `r`. */
  predicate IsTaker(s: State, r: nat, at: Attempt) {
    r in s.world.takenBy && s.world.takenBy[r] < |s.attempts| && s.attempts[s.world.takenBy[r]] == at
  }

  lemma DraftsStay(steps: seq<Step>, n: nat)
    requires n <= |steps|
    ensures Grows(Exec(steps[..n]).world, Exec(steps).world)
  {
    assert steps == steps[..n] + steps[n..];
    StorageIsDurable(steps[..n], steps[n..]);
  }

  /** An issue that were there before its receipt would have been taken without it. */
  lemma DecisionPrecedes(steps: seq<Step>, i: nat, n: nat, at: Attempt)
    requires i < |Exec(steps).world.issues| && IsTaker(Exec(steps), Exec(steps).world.issues[i].requestId, at)
    requires at.kind.Execute? && StoredBy(steps, at.kind.receipt, n)
    ensures |Exec(steps[..n]).world.issues| <= i
  {
    var before := Exec(steps[..n]);
    if i < |before.world.issues| {
      assert IsReachable(before);
      TakerOf(before, i);
      TakerStaysTaker(steps, n, i);
    }
  }

  lemma TakerStaysTaker(steps: seq<Step>, n: nat, i: nat)
    requires n <= |steps| && i < |Exec(steps[..n]).world.issues|
    requires var s := Exec(steps[..n]);
             s.world.issues[i].requestId in s.world.takenBy
             && s.world.takenBy[s.world.issues[i].requestId] < |s.attempts|
    ensures var s, t := Exec(steps[..n]), Exec(steps);
            var a := s.world.takenBy[s.world.issues[i].requestId];
            && i < |t.world.issues| && t.world.issues[i] == s.world.issues[i]
            && Owns(t.world, t.world.issues[i].requestId, a)
            && a < |t.attempts| && t.attempts[a].kind == s.attempts[a].kind
  {
    DraftsStay(steps, n);
    assert steps == steps[..n] + steps[n..];
    KindsStay(steps[..n], steps[n..], Exec(steps[..n]).world.takenBy[Exec(steps[..n]).world.issues[i].requestId]);
  }

  /** What a call was asked to do never changes. */
  lemma {:induction false} KindsStay(steps: seq<Step>, more: seq<Step>, a: nat)
    requires a < |Exec(steps).attempts|
    ensures a < |Exec(steps + more).attempts| && Exec(steps + more).attempts[a].kind == Exec(steps).attempts[a].kind
  {
    if more == [] {
      assert steps + more == steps;
    } else {
      KindsStay(steps, Front(more), a);
      assert Front(steps + more) == steps + Front(more);
      KindStays(Exec(steps + Front(more)), Last(more), a);
    }
  }

  lemma KindStays(s: State, step: Step, a: nat)
    requires a < |s.attempts|
    ensures a < |Apply(s, step).attempts| && Apply(s, step).attempts[a].kind == s.attempts[a].kind
  {
    if step.Continue? && step.attempt == a {
      AdvanceKeepsKind(s.world, a, s.attempts[a], step.env);
    }
  }

  lemma AdvanceKeepsKind(w: World, a: nat, at: Attempt, env: Env)
    ensures Advance(w, a, at, env).1.kind == at.kind
  {
  }

  /** The issue, its event and its content say what the draft says, field by field. */
  lemma IssueIsTheDraft(s: State, i: nat)
    requires IsReachable(s) && i < |s.world.issues|
    ensures var issue := s.world.issues[i];
            issue.requestId < |s.world.drafts| && i < |s.world.contents| && i < |s.world.events|
            && var d, content, event := s.world.drafts[issue.requestId], s.world.contents[i], s.world.events[i];
               && issue.project == d.project == content.project == event.project
               && issue.requestId == d.id == content.requestId == event.requestId
               && content.reporter == d.createdBy == event.reporter && issue.status == "OPEN"
               && content.title == d.title && content.issueType == d.issueType && content.priority == d.priority
               && content.component == d.component && content.environment == d.environment
               && content.errorCode == d.errorCode && d.description <= content.description
  {
    ReachableIsGood(s);
    assert IssueOk(s.world, i);
    RequestSaysItAll(s.world.drafts[s.world.issues[i].requestId]);
  }

  lemma FirstOfSum(a: string, b: string, c: string, d: string)
    ensures a <= a + b + c + d
  {
  }

  // ------------------------------------------------------- what the issue says

  lemma {:induction false} BulletsMention(steps: seq<string>, k: nat)
    requires k < |steps|
    ensures Mentions(Bullets(steps), "- " + steps[k])
  {
    if k == 0 {
      MentionsMiddle("", "- " + steps[0], if |steps| == 1 then "" else "\n" + Bullets(steps[1..]));
      assert Bullets(steps) == "" + ("- " + steps[0]) + if |steps| == 1 then "" else "\n" + Bullets(steps[1..]);
    } else {
      BulletsMention(steps[1..], k - 1);
      MentionsMore("- " + steps[0] + "\n", Bullets(steps[1..]), "", "- " + steps[k]);
      assert Bullets(steps) == "- " + steps[0] + "\n" + Bullets(steps[1..]) + "";
    }
  }

  predicate Given(text: Option<string>) {
    text.Some? && text.value != ""
  }

  /** The description of the request is that of the draft, and mentions every reproduction step, the
      expected and the actual behaviour, as far as the draft has them. */
  lemma RequestSaysItAll(d: Draft)
    ensures var text := BuildRequest(d).description;
            && d.description <= text
            && (forall k :: 0 <= k < |d.reproductionSteps| ==> Mentions(text, "- " + d.reproductionSteps[k]))
            && (Given(d.expected) ==> Mentions(text, "Expected behavior:\n" + d.expected.value))
            && (Given(d.actual) ==> Mentions(text, "Actual behavior:\n" + d.actual.value))
            && (d.reproductionSteps == [] && !Given(d.expected) && !Given(d.actual) ==> text == d.description)
  {
    var steps := Reproduction(d.reproductionSteps);
    var expected, actual := Section("Expected behavior", d.expected), Section("Actual behavior", d.actual);
    FirstOfSum(d.description, steps, expected, actual);
    forall k | 0 <= k < |d.reproductionSteps|
      ensures Mentions(d.description + steps + expected + actual, "- " + d.reproductionSteps[k])
    {
      ReproductionMentions(d.reproductionSteps, k);
      LaterOfSum(d.description, steps, expected, actual, "- " + d.reproductionSteps[k]);
    }
    if Given(d.expected) {
      SectionMentions("Expected behavior", d.expected, "Expected behavior:\n" + d.expected.value);
      LaterOfSum(d.description, steps, expected, actual, "Expected behavior:\n" + d.expected.value);
    }
    if Given(d.actual) {
      SectionMentions("Actual behavior", d.actual, "Actual behavior:\n" + d.actual.value);
      LaterOfSum(d.description, steps, expected, actual, "Actual behavior:\n" + d.actual.value);
    }
  }

  lemma ReproductionMentions(steps: seq<string>, k: nat)
    requires k < |steps|
    ensures Mentions(Reproduction(steps), "- " + steps[k])
  {
    BulletsMention(steps, k);
    MentionsMore("\nReproduction steps:\n", Bullets(steps), "", "- " + steps[k]);
    assert "\nReproduction steps:\n" + Bullets(steps) + "" == Reproduction(steps);
  }

  lemma LaterOfSum(a: string, b: string, c: string, d: string, t: string)
    requires Mentions(b, t) || Mentions(c, t) || Mentions(d, t)
    ensures Mentions(a + b + c + d, t)
  {
    if Mentions(b, t) {
      MentionsMore(a, b, c + d, t);
      assert a + b + (c + d) == a + b + c + d;
    } else if Mentions(c, t) {
      MentionsMore(a + b, c, d, t);
    } else {
      MentionsMore(a + b + c, d, "", t);
      assert a + b + c + d + "" == a + b + c + d;
    }
  }

  lemma SectionMentions(heading: string, text: Option<string>, line: string)
    requires Given(text) && line == heading + ":\n" + text.value
    ensures Mentions(Section(heading, text), line)
  {
    MentionsMiddle("\n", line, "");
    assert "\n" + line + "" == Section(heading, text);
  }

  /** A draft is CREATED only once its record names its issue. */
  lemma CreatedHasIssue(s: State, d: nat)
    requires IsReachable(s) && d < |s.world.drafts| && s.world.drafts[d].status.DraftCreated?
    ensures IssuesFor(s.world.issues, d) == 1
  {
    ReachableIsGood(s);
    var w := s.world;
    assert HasIssue(w, d) && RecordOk(w, d);
    var j :| 0 <= j < |w.issues| && w.issues[j] == w.records[d].response.value;
    IssueCounts(w.issues, j);
    AtMostOneIssue(s, d);
  }

  /** One receipt lets through at most one draft. */
  lemma ReceiptCoversOneDraft(s: State, q: nat, r: nat)
    requires IsReachable(s)
    requires  q in s.world.takenBy && r in s.world.takenBy
             && s.world.takenBy[q] < |s.attempts| && s.world.takenBy[r] < |s.attempts|
             && var x, y := s.attempts[s.world.takenBy[q]].kind, s.attempts[s.world.takenBy[r]].kind;
                x.Execute? && y.Execute? && x.receipt == y.receipt
    ensures q == r
  {
    ReachableIsGood(s);
    assert Taker(s.world, q, s.attempts[s.world.takenBy[q]]);
    assert Taker(s.world, r, s.attempts[s.world.takenBy[r]]);
    assert s.world.drafts[q].id == q && s.world.drafts[r].id == r;
  }

  /** Reconciliation never acts without the barrier: it is refused, and touches nothing. */
  lemma ReconcileNeedsBarrier(s: State, a: nat, env: Env)
    requires IsReachable(s)
    requires  a < |s.attempts| && s.attempts[a].kind.Reconcile? && s.attempts[a].kind.draft !in s.world.records
    ensures var (w, at) := Advance(s.world, a, s.attempts[a], env);
            w == s.world && (at.pc.Begin? || at.pc.HaveDraft? || !Live(at.pc))
  {
    AttemptIsOk(s, a);
  }

  /** Storage is durable over any stretch of time: issues and receipts stay, a record is never
      withdrawn, and a completed record never changes. */
  lemma {:induction false} StorageIsDurable(steps: seq<Step>, more: seq<Step>)
    ensures Grows(Exec(steps).world, Exec(steps + more).world)
  {
    if more == [] {
      assert steps + more == steps;
    } else {
      StorageIsDurable(steps, Front(more));
      assert Front(steps + more) == steps + Front(more);
      LastStepGrows(steps + more);
    }
  }

  lemma LastStepGrows(steps: seq<Step>)
    requires steps != []
    ensures Grows(Exec(Front(steps)).world, Exec(steps).world)
  {
    Reachable(Front(steps));
    StepKeeps(Exec(Front(steps)), Last(steps));
  }
}
