/** Overlapping queue transactions (infrastructure/jobs/postgres.py).  A transaction reads rows
    FOR UPDATE, works out new values from what it read, writes those values back when it commits
    without looking again, and lets go of the rows when it commits or rolls back.  Claims and the
    reaper skip rows that are locked; the operations of an owner wait for them.  Any number of
    transactions may be open, and their steps interleave freely. */
module QueueLocks {
  import opened Common
  import opened Jobs

  datatype Intent =
    | Claiming(worker: Worker, now: Time, asOf: Time)
    | Reaping(now: Time)
    | Owning(op: QueueOp)

  /** `read` are the rows as they were when the transaction read them. */
  datatype Tx = Tx(intent: Intent, ids: seq<nat>, read: map<nat, Job>)

  /** An attempt of a job, handed to a worker. */
  datatype Handout = Handout(job: nat, attempt: nat)

  /** `committed` and `handouts` are history: the operations in the order of their commits, and what
      committed claims have returned. */
  datatype State = State(rows: seq<Job>, open: map<nat, Tx>, committed: seq<QueueOp>, handouts: seq<Handout>)

  /** Whether reading FOR UPDATE keeps other transactions away. */
  datatype Discipline = RowLocks | NoLocks

  datatype Step =
    | Insert(op: QueueOp)
    | BeginClaim(tx: nat, worker: Worker, limit: nat, now: Time, asOf: Time, ids: seq<nat>)
    | BeginReap(tx: nat, limit: nat, now: Time, ids: seq<nat>)
    | BeginOwner(tx: nat, op: QueueOp)
    | Commit(tx: nat)
    | Abort(tx: nat)

  const INITIAL := State([], map[], [], [])

  predicate IsOwnerOp(op: QueueOp) {
    op.Heartbeat? || op.Complete? || op.Fail?
  }

  /** The rows other transactions may not touch. */
  function Locked(d: Discipline, s: State): set<nat> {
    if d.NoLocks? then {} else set t, id | t in s.open && id in s.open[t].ids :: id
  }

  /** The value a transaction gives a row, worked out from the value it read. */
  function NewValue(cfg: Config, intent: Intent, read: Job): Job {
    match intent
    case Claiming(worker, now, _) => ClaimRow(cfg, read, worker, now)
    case Reaping(now) => ReapRow(read, now)
    case Owning(op) =>
      if op.Heartbeat? then HeartbeatRow(cfg, read, op.now)
      else if op.Complete? then CompleteRow(read)
      else if op.Fail? then FailRow(cfg, read, op.now, op.error)
      else read
  }

  function WriteBack(cfg: Config, rows: seq<Job>, tx: Tx): seq<Job> {
    seq(|rows|, i requires 0 <= i < |rows| =>
          if i in tx.read then NewValue(cfg, tx.intent, tx.read[i]) else rows[i])
  }

  /** The queue operations a transaction stands for. */
  function Operations(tx: Tx): seq<QueueOp> {
    match tx.intent
    case Claiming(worker, now, asOf) => ClaimOps(tx.ids, worker, now, asOf)
    case Reaping(now) => ReapOps(tx.ids, now)
    case Owning(op) => [op]
  }

  function Returned(tx: Tx): seq<Handout> {
    if tx.intent.Claiming?
    then seq(|tx.ids|, i requires 0 <= i < |tx.ids| =>
               Handout(tx.ids[i], if tx.ids[i] in tx.read then tx.read[tx.ids[i]].attempts + 1 else 0))
    else []
  }

  function Begin(s: State, t: nat, intent: Intent, ids: seq<nat>): State {
    s.(open := s.open[t := Tx(intent, ids, map id | id in ids && id < |s.rows| :: s.rows[id])])
  }

  function DoCommit(cfg: Config, s: State, t: nat): State
    requires t in s.open
  {
    var tx := s.open[t];
    State(WriteBack(cfg, s.rows, tx), s.open - {t}, s.committed + Operations(tx), s.handouts + Returned(tx))
  }

  function Apply(cfg: Config, d: Discipline, s: State, step: Step): State {
    match step
    case Insert(op) =>
      if op.Enqueue? then s.(rows := Jobs.Apply(cfg, s.rows, op), committed := s.committed + [op]) else s
    case BeginClaim(t, worker, limit, now, asOf, ids) =>
      if t !in s.open && IsSelection(s.rows, ClaimCandidates(s.rows, asOf, Locked(d, s)), ByAvailability, limit, ids)
      then Begin(s, t, Claiming(worker, now, asOf), ids) else s
    case BeginReap(t, limit, now, ids) =>
      if t !in s.open && IsSelection(s.rows, ReapCandidates(s.rows, now, Locked(d, s)), ByLease, limit, ids)
      then Begin(s, t, Reaping(now), ids) else s
    case BeginOwner(t, op) =>
      if t !in s.open && IsOwnerOp(op) && op.id < |s.rows| && OwnedBy(s.rows[op.id], op.worker)
         && op.id !in Locked(d, s)
      then Begin(s, t, Owning(op), [op.id]) else s
    case Commit(t) => if t in s.open then DoCommit(cfg, s, t) else s
    case Abort(t) => s.(open := s.open - {t})
  }

  function Exec(cfg: Config, d: Discipline, steps: seq<Step>): State {
    if steps == [] then INITIAL else Apply(cfg, d, Exec(cfg, d, Front(steps)), Last(steps))
  }

  // ------------------------------------------------------------- the invariant

  /** The condition under which the transaction took the row. */
  predicate Ready(row: Job, intent: Intent) {
    match intent
    case Claiming(_, _, asOf) => Claimable(row, asOf)
    case Reaping(now) => Expired(row, now)
    case Owning(op) => IsOwnerOp(op) && OwnedBy(row, op.worker)
  }

  /** The transaction's reads are still what the table holds. */
  ghost predicate TxOk(rows: seq<Job>, tx: Tx) {
    && Distinct(tx.ids) && (tx.intent.Owning? ==> IsOwnerOp(tx.intent.op) && tx.ids == [tx.intent.op.id])
    && (forall id :: id in tx.read <==> id in tx.ids)
    && (forall id <- tx.ids :: id < |rows| && rows[id] == tx.read[id] && Ready(rows[id], tx.intent))
  }

  predicate Disjoint(a: Tx, b: Tx) {
    forall id <- a.ids :: id !in b.ids
  }

  ghost predicate OpenOk(s: State) {
    && (forall t <- s.open :: TxOk(s.rows, s.open[t]))
    && (forall a <- s.open, b <- s.open :: a != b ==> Disjoint(s.open[a], s.open[b]))
  }

  predicate HandoutsOk(rows: seq<Job>, handouts: seq<Handout>) {
    && Distinct(handouts)
    && forall h <- handouts :: h.job < |rows| && h.attempt <= rows[h.job].attempts
  }

  ghost predicate Inv(cfg: Config, s: State) {
    OpenOk(s) && HandoutsOk(s.rows, s.handouts) && s.rows == Queue(cfg, s.committed)
  }

  lemma {:induction false} QueueAppend(cfg: Config, ops: seq<QueueOp>, more: seq<QueueOp>)
    ensures Queue(cfg, ops + more) == ApplyAll(cfg, Queue(cfg, ops), more)
  {
    if more == [] {
      assert ops + more == ops;
    } else {
      assert Front(ops + more) == ops + Front(more);
      QueueAppend(cfg, ops, Front(more));
    }
  }

  /** Values worked out from reads that are still current are what the operations would write now. */
  lemma CurrentReadsWriteSerially(cfg: Config, rows: seq<Job>, tx: Tx)
    requires TxOk(rows, tx)
    ensures WriteBack(cfg, rows, tx) == ApplyAll(cfg, rows, Operations(tx))
  {
    match tx.intent
    case Claiming(worker, now, asOf) => ClaimBatch(cfg, rows, tx.ids, worker, now, asOf);
    case Reaping(now) => ReapBatch(cfg, rows, tx.ids, now);
    case Owning(op) =>
      assert Front([op]) == [];
      assert op.id in tx.ids;
  }

  lemma ReturnedIsNew(cfg: Config, rows: seq<Job>, handouts: seq<Handout>, tx: Tx)
    requires TxOk(rows, tx) && HandoutsOk(rows, handouts)
    ensures HandoutsOk(WriteBack(cfg, rows, tx), handouts + Returned(tx))
  {
    var more, after := Returned(tx), WriteBack(cfg, rows, tx);
    var all := handouts + more;
    forall i, j | 0 <= i < j < |all| ensures all[i] != all[j] {
      if i < |handouts| <= j {
        assert all[i] in handouts && more[j - |handouts|] == all[j];
        assert tx.ids[j - |handouts|] in tx.ids;
      }
    }
    forall h <- all ensures h.job < |after| && h.attempt <= after[h.job].attempts {
      if h !in handouts {
        var k :| 0 <= k < |more| && more[k] == h;
        assert tx.ids[k] in tx.ids;
      }
    }
  }

  lemma CommitKeepsOpen(cfg: Config, s: State, t: nat)
    requires OpenOk(s) && t in s.open
    ensures OpenOk(DoCommit(cfg, s, t))
  {
    forall u | u in s.open && u != t ensures TxOk(WriteBack(cfg, s.rows, s.open[t]), s.open[u]) {
      assert TxOk(s.rows, s.open[u]) && TxOk(s.rows, s.open[t]) && Disjoint(s.open[u], s.open[t]);
    }
  }

  lemma CommitKeeps(cfg: Config, s: State, t: nat)
    requires Inv(cfg, s) && t in s.open
    ensures Inv(cfg, DoCommit(cfg, s, t))
  {
    assert TxOk(s.rows, s.open[t]);
    CommitKeepsOpen(cfg, s, t);
    ReturnedIsNew(cfg, s.rows, s.handouts, s.open[t]);
    CurrentReadsWriteSerially(cfg, s.rows, s.open[t]);
    QueueAppend(cfg, s.committed, Operations(s.open[t]));
  }

  lemma BeginKeeps(s: State, t: nat, intent: Intent, ids: seq<nat>)
    requires OpenOk(s) && t !in s.open && Distinct(ids)
    requires intent.Owning? ==> IsOwnerOp(intent.op) && ids == [intent.op.id]
    requires forall id <- ids :: id < |s.rows| && id !in Locked(RowLocks, s) && Ready(s.rows[id], intent)
    ensures OpenOk(Begin(s, t, intent, ids))
  {
    var tx := Begin(s, t, intent, ids).open[t];
    forall u | u in s.open ensures Disjoint(s.open[u], tx) && Disjoint(tx, s.open[u]) {
      forall id <- s.open[u].ids ensures id !in ids {
        assert id in Locked(RowLocks, s);
      }
    }
  }

  lemma InsertKeeps(cfg: Config, s: State, op: QueueOp)
    requires Inv(cfg, s) && op.Enqueue?
    ensures Inv(cfg, Apply(cfg, RowLocks, s, Insert(op)))
  {
    var s' := Apply(cfg, RowLocks, s, Insert(op));
    assert Front(s.committed + [op]) == s.committed;
    forall t | t in s'.open ensures TxOk(s'.rows, s'.open[t]) {
      assert TxOk(s.rows, s.open[t]);
    }
  }

  lemma StepKeeps(cfg: Config, s: State, step: Step)
    requires Inv(cfg, s)
    ensures Inv(cfg, Apply(cfg, RowLocks, s, step))
  {
    var s' := Apply(cfg, RowLocks, s, step);
    match step
    case Insert(op) =>
      if op.Enqueue? {
        InsertKeeps(cfg, s, op);
      }
    case BeginClaim(t, worker, _, now, asOf, ids) =>
      if s' != s {
        BeginKeeps(s, t, Claiming(worker, now, asOf), ids);
      }
    case BeginReap(t, _, now, ids) =>
      if s' != s {
        BeginKeeps(s, t, Reaping(now), ids);
      }
    case BeginOwner(t, op) =>
      if s' != s {
        BeginKeeps(s, t, Owning(op), [op.id]);
      }
    case Commit(t) =>
      if t in s.open {
        CommitKeeps(cfg, s, t);
      }
    case Abort(t) =>
  }

  lemma {:induction false} Reachable(cfg: Config, steps: seq<Step>)
    ensures Inv(cfg, Exec(cfg, RowLocks, steps))
  {
    if steps != [] {
      Reachable(cfg, Front(steps));
      StepKeeps(cfg, Exec(cfg, RowLocks, Front(steps)), Last(steps));
    }
  }

  // ------------------------------------------------------------- the theorems

  ghost predicate IsReachable(cfg: Config, d: Discipline, s: State) {
    exists steps :: Exec(cfg, d, steps) == s
  }

  lemma ReachableIsGood(cfg: Config, s: State)
    requires IsReachable(cfg, RowLocks, s)
    ensures Inv(cfg, s)
  {
    var steps :| Exec(cfg, RowLocks, steps) == s;
    Reachable(cfg, steps);
  }

  /** No two open transactions hold the same row; in particular, overlapping claims have selected
      disjoint sets of jobs. */
  lemma OpenTransactionsAreDisjoint(cfg: Config, s: State, a: nat, b: nat)
    requires IsReachable(cfg, RowLocks, s) && a in s.open && b in s.open && a != b
    ensures forall id <- s.open[a].ids :: id !in s.open[b].ids
  {
    ReachableIsGood(cfg, s);
    assert Disjoint(s.open[a], s.open[b]);
  }

  /** As long as a transaction is open, its rows are as it read them: claimed jobs still PENDING and
      due, reaped leases still expired, the owner still the owner. */
  lemma ReadsStayCurrent(cfg: Config, s: State, t: nat)
    requires IsReachable(cfg, RowLocks, s) && t in s.open
    ensures var tx := s.open[t];
            && (forall id <- tx.ids :: id < |s.rows| && id in tx.read && s.rows[id] == tx.read[id])
            && (forall id <- tx.ids :: Ready(s.rows[id], tx.intent))
  {
    ReachableIsGood(cfg, s);
    assert TxOk(s.rows, s.open[t]);
  }

  /** So writing back what it worked out earlier is running its operations at the moment it commits. */
  lemma CommitIsSerial(cfg: Config, s: State, t: nat)
    requires IsReachable(cfg, RowLocks, s) && t in s.open
    ensures DoCommit(cfg, s, t).rows == ApplyAll(cfg, s.rows, Operations(s.open[t]))
  {
    ReachableIsGood(cfg, s);
    CurrentReadsWriteSerially(cfg, s.rows, s.open[t]);
  }

  /** No attempt of a job is ever handed out twice. */
  lemma EveryAttemptHandedOutOnce(cfg: Config, s: State)
    requires IsReachable(cfg, RowLocks, s)
    ensures Distinct(s.handouts)
    ensures forall h <- s.handouts :: h.job < |s.rows| && h.attempt <= s.rows[h.job].attempts
  {
    ReachableIsGood(cfg, s);
  }

  /** Under row locks, interleaved transactions have the effect of running their operations one after
      another in the order of the commits, so every theorem about histories of the queue holds. */
  lemma LocksSerialize(cfg: Config, s: State)
    requires IsReachable(cfg, RowLocks, s)
    ensures s.rows == Queue(cfg, s.committed)
  {
    ReachableIsGood(cfg, s);
  }

  // ------------------------------------------------------ what happens without locks

  lemma StepIsReachable(cfg: Config, d: Discipline, s: State, step: Step)
    requires IsReachable(cfg, d, s)
    ensures IsReachable(cfg, d, Apply(cfg, d, s, step))
  {
    var steps :| Exec(cfg, d, steps) == s;
    assert Front(steps + [step]) == steps;
    assert Exec(cfg, d, steps + [step]) == Apply(cfg, d, s, step);
  }

  /** One PENDING job. */
  const JOB := NewRow(0, Execute, 0, 3, 0.0)

  const ENQUEUE := QueueOp.Enqueue(0, Execute, 0, 3, 0.0)

  function ClaimBy(t: nat, worker: Worker): Step {
    BeginClaim(t, worker, 1, 0.0, 0.0, [0])
  }

  function Reading(worker: Worker): Tx {
    Tx(Claiming(worker, 0.0, 0.0), [0], map[0 := JOB])
  }

  /** Without locks a claim reads the job whatever else is open. */
  lemma ClaimReads(cfg: Config, s: State, t: nat, worker: Worker)
    requires s.rows == [JOB] && t !in s.open
    ensures Apply(cfg, NoLocks, s, ClaimBy(t, worker)) == s.(open := s.open[t := Reading(worker)])
  {
    var candidates := ClaimCandidates(s.rows, 0.0, {});
    assert candidates == {0};
    assert Locked(NoLocks, s) == {};
    assert IsSelection(s.rows, candidates, ByAvailability, 1, [0]);
    assert (map id | id in [0] && id < |s.rows| :: s.rows[id]) == map[0 := JOB];
  }

  lemma BothRead(cfg: Config) returns (s: State)
    ensures IsReachable(cfg, NoLocks, s)
    ensures s == State([JOB], map[0 := Reading("a"), 1 := Reading("b")], [ENQUEUE], [])
  {
    assert Exec(cfg, NoLocks, []) == INITIAL;
    StepIsReachable(cfg, NoLocks, INITIAL, Insert(ENQUEUE));
    var one := State([JOB], map[], [ENQUEUE], []);
    assert Apply(cfg, NoLocks, INITIAL, Insert(ENQUEUE)) == one;
    ClaimReads(cfg, one, 0, "a");
    StepIsReachable(cfg, NoLocks, one, ClaimBy(0, "a"));
    var two := one.(open := one.open[0 := Reading("a")]);
    ClaimReads(cfg, two, 1, "b");
    StepIsReachable(cfg, NoLocks, two, ClaimBy(1, "b"));
    s := two.(open := two.open[1 := Reading("b")]);
  }

  /** A committed claim overwrites the row with what follows from its read. */
  lemma ClaimWrites(cfg: Config, s: State, t: nat, worker: Worker)
    requires |s.rows| == 1 && t in s.open && s.open[t] == Reading(worker)
    ensures var after := Apply(cfg, NoLocks, s, Commit(t));
            && after.rows == [ClaimRow(cfg, JOB, worker, 0.0)]
            && after.open == s.open - {t}
            && after.committed == s.committed + [QueueOp.Claim(0, worker, 0.0, 0.0)]
            && after.handouts == s.handouts + [Handout(0, 1)]
  {
    assert Operations(Reading(worker)) == [QueueOp.Claim(0, worker, 0.0, 0.0)];
  }

  /** Run one after the other, the second claim finds nothing to take. */
  lemma SerialClaims(cfg: Config)
    ensures Queue(cfg, [ENQUEUE] + [QueueOp.Claim(0, "a", 0.0, 0.0)] + [QueueOp.Claim(0, "b", 0.0, 0.0)])
         == [ClaimRow(cfg, JOB, "a", 0.0)]
  {
    var a, b := QueueOp.Claim(0, "a", 0.0, 0.0), QueueOp.Claim(0, "b", 0.0, 0.0);
    var two := [ENQUEUE] + [a];
    assert Front([ENQUEUE]) == [] && Front(two) == [ENQUEUE] && Front(two + [b]) == two;
    assert Queue(cfg, []) == [] && Jobs.Apply(cfg, [], ENQUEUE) == [JOB];
    assert Last([ENQUEUE]) == ENQUEUE;
    assert Queue(cfg, [ENQUEUE]) == Jobs.Apply(cfg, Queue(cfg, []), ENQUEUE);
    assert Queue(cfg, two) == [ClaimRow(cfg, JOB, "a", 0.0)];
  }

  /** A lost update: without locks two claims read the same job and both commit.  The second write
      wipes out the first, which no serial run does, and one attempt is handed to two workers. */
  lemma LostUpdateWithoutLocks(cfg: Config) returns (s: State)
    ensures IsReachable(cfg, NoLocks, s)
    ensures s.rows != Queue(cfg, s.committed) && !Distinct(s.handouts)
  {
    var both := BothRead(cfg);
    StepIsReachable(cfg, NoLocks, both, Commit(0));
    ClaimWrites(cfg, both, 0, "a");
    var first := Apply(cfg, NoLocks, both, Commit(0));
    StepIsReachable(cfg, NoLocks, first, Commit(1));
    ClaimWrites(cfg, first, 1, "b");
    s := Apply(cfg, NoLocks, first, Commit(1));
    SerialClaims(cfg);
    assert s.rows[0].lockedBy == Some("b") && Queue(cfg, s.committed)[0].lockedBy == Some("a");
    assert s.handouts[0] == s.handouts[1] == Handout(0, 1);
  }
}
