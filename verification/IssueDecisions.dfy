/** What the receipts and the draft statuses say about the decisions the users made, over every
    history (application/services/issue_confirmation.py, issue_creation.py). */
module IssueDecisions {
  import opened Common
  import opened IssueCreation
  import opened IssueInvariant

  /** The step is a decision that is accepted in `w`. */
  predicate Counts(w: World, step: Step) {
    step.Decide? && Accepted(w, step.id, step.hash, step.now, step.ttl)
  }

  /** Receipt `c` says what the decision said, and when it expires. */
  predicate Records(w: World, step: Step, c: Receipt)
    requires Counts(w, step)
  {
    && c.confirmed == step.confirm && c.actor == step.actor && c.hash == step.hash
    && c.run == w.drafts[step.id].run && c.decidedAt == step.now
    && c.expiresAt == w.drafts[step.id].createdAt + step.ttl
  }

  /** Step `n` is a decision that was accepted when it came. */
  predicate Decides(steps: seq<Step>, n: nat) {
    n < |steps| && Counts(Exec(steps[..n]).world, steps[n])
  }

  /** Receipt `q` was stored by step `n`, which had no receipt `q` before it. */
  predicate StoredBy(steps: seq<Step>, q: nat, n: nat) {
    && q < |Exec(steps).world.receipts|
    && Decides(steps, n) && Records(Exec(steps[..n]).world, steps[n], Exec(steps).world.receipts[q])
    && |Exec(steps[..n]).world.receipts| == q
  }

  /** What a decision changes: nothing if it is not accepted; otherwise its draft's status, and its
      receipt is on file if it was not before. */
  lemma DecisionChanges(w: World, id: nat, actor: nat, confirm: bool, hash: Hash, now: Time, ttl: Time)
    ensures var v := RecordDecision(w, id, actor, confirm, hash, now, ttl);
            if !Accepted(w, id, hash, now, ttl) then v == w
            else && v.drafts == w.drafts[id := w.drafts[id].(
                                           status := if confirm then DraftConfirmed else DraftCancelled)]
                 && v == w.(drafts := v.drafts, receipts := v.receipts)
                 && OnFile(v, w.drafts[id].run, hash, confirm, actor)
                 && (v.receipts == w.receipts
                     || v.receipts == w.receipts + [Receipt(w.drafts[id].run, hash, confirm, actor, now,
                                                            w.drafts[id].createdAt + ttl)])
  {
    if Accepted(w, id, hash, now, ttl) {
      var c := Receipt(w.drafts[id].run, hash, confirm, actor, now, w.drafts[id].createdAt + ttl);
      var saved := SaveConfirmation(w, c);
      assert saved.receipts != w.receipts ==> saved.receipts[|w.receipts|] == c;
    }
  }

  predicate OnFile(w: World, run: nat, hash: Hash, confirmed: bool, actor: nat) {
    exists q :: 0 <= q < |w.receipts| && Says(w.receipts[q], run, hash, confirmed, actor)
  }

  predicate Says(c: Receipt, run: nat, hash: Hash, confirmed: bool, actor: nat) {
    c.run == run && c.hash == hash && c.confirmed == confirmed && c.actor == actor
  }

  /** No other step touches the receipts. */
  lemma OnlyDecisionsStore(s: State, step: Step)
    requires !step.Decide?
    ensures Apply(s, step).world.receipts == s.world.receipts
  {
  }

  lemma EarlierDecides(steps: seq<Step>, n: nat)
    requires steps != [] && n < |Front(steps)|
    ensures steps[..n] == Front(steps)[..n]
    ensures Decides(steps, n) == Decides(Front(steps), n)
  {
    assert steps[..n] == Front(steps)[..n];
  }

  /** Every receipt says what some accepted decision of the history said. */
  lemma {:induction false} ReceiptsAreDecisions(steps: seq<Step>, q: nat)
    requires q < |Exec(steps).world.receipts|
    ensures exists n :: StoredBy(steps, q, n)
  {
    var before := Exec(Front(steps)).world;
    if q < |before.receipts| {
      ReceiptsAreDecisions(Front(steps), q);
      var n :| StoredBy(Front(steps), q, n);
      EarlierDecides(steps, n);
      LastKeepsReceipts(steps);
      assert StoredBy(steps, q, n);
    } else {
      LastStores(steps);
      assert StoredBy(steps, q, |steps| - 1);
    }
  }

  lemma LastKeepsReceipts(steps: seq<Step>)
    requires steps != []
    ensures Exec(Front(steps)).world.receipts <= Exec(steps).world.receipts
  {
    Reachable(Front(steps));
    StepKeeps(Exec(Front(steps)), Last(steps));
  }

  lemma LastStores(steps: seq<Step>)
    requires steps != [] && |Exec(steps).world.receipts| > |Exec(Front(steps)).world.receipts|
    ensures StoredBy(steps, |Exec(Front(steps)).world.receipts|, |steps| - 1)
    ensures |Exec(steps).world.receipts| == |Exec(Front(steps)).world.receipts| + 1
  {
    var w, step := Exec(Front(steps)).world, Last(steps);
    assert steps[..|steps| - 1] == Front(steps);
    if step.Decide? {
      DecisionChanges(w, step.id, step.actor, step.confirm, step.hash, step.now, step.ttl);
    } else {
      OnlyDecisionsStore(Exec(Front(steps)), step);
    }
  }

  // ---------------------------------------------------------- draft statuses

  /** The last decision about draft `d` that was accepted. */
  function LastDecision(steps: seq<Step>, d: nat): Option<bool> {
    if steps == [] then None
    else if Decides(steps, |steps| - 1) && Last(steps).id == d then Some(Last(steps).confirm)
    else LastDecision(Front(steps), d)
  }

  predicate StatusFits(status: DraftStatus, last: Option<bool>) {
    match status
    case DraftOpen => last == None
    case DraftConfirmed => last == Some(true)
    case DraftCancelled => last == Some(false)
    case DraftCreated => true
  }

  /** Attempts change no status except to CREATED. */
  lemma AttemptsOnlyCreate(w: World, a: nat, at: Attempt, env: Env, d: nat)
    requires d < |w.drafts|
    ensures var v := Advance(w, a, at, env).0;
            |v.drafts| == |w.drafts|
            && (v.drafts[d].status == w.drafts[d].status || v.drafts[d].status.DraftCreated?)
  {
  }

  lemma StepKeepsStatuses(s: State, step: Step, d: nat)
    requires !step.Decide? && d < |Apply(s, step).world.drafts|
    ensures if d < |s.world.drafts|
            then || Apply(s, step).world.drafts[d].status == s.world.drafts[d].status
                 || Apply(s, step).world.drafts[d].status.DraftCreated?
            else Apply(s, step).world.drafts[d].status.DraftOpen?
  {
    if step.Continue? && step.attempt < |s.attempts| && d < |s.world.drafts| {
      AttemptsOnlyCreate(s.world, step.attempt, s.attempts[step.attempt], step.env, d);
    }
  }

  /** Nobody decides about a draft that does not exist yet. */
  lemma {:induction false} UndecidedBefore(steps: seq<Step>, d: nat)
    requires d >= |Exec(steps).world.drafts|
    ensures LastDecision(steps, d) == None
  {
    if steps != [] {
      Reachable(Front(steps));
      StepKeeps(Exec(Front(steps)), Last(steps));
      assert steps[..|steps| - 1] == Front(steps);
      UndecidedBefore(Front(steps), d);
    }
  }

  /** A draft that is CONFIRMED is one whose last accepted decision confirmed it, one that is
      CANCELLED had its last accepted decision cancel it, and one still open was never decided. */
  lemma {:induction false} StatusIsLastDecision(steps: seq<Step>, d: nat)
    requires d < |Exec(steps).world.drafts|
    ensures StatusFits(Exec(steps).world.drafts[d].status, LastDecision(steps, d))
  {
    var s, step := Exec(Front(steps)), Last(steps);
    assert steps[..|steps| - 1] == Front(steps);
    if d < |s.world.drafts| {
      StatusIsLastDecision(Front(steps), d);
    } else {
      UndecidedBefore(Front(steps), d);
    }
    if step.Decide? {
      DecisionChanges(s.world, step.id, step.actor, step.confirm, step.hash, step.now, step.ttl);
    } else {
      StepKeepsStatuses(s, step, d);
    }
  }
}
