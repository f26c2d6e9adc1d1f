/** The leased job queue (infrastructure/jobs/postgres.py).

    A row is a value; one database transaction is one `QueueOp`.  The class
    `JobQueue` performs the operations in place, as the repository does, and is
    proved to have the effect of the corresponding sequence of operations.  The
    theorems at the end quantify over every sequence of operations. */
module Jobs {
  import opened Common

  type Worker = string

  datatype JobState = Pending | Running | Succeeded | Failed

  datatype JobKind = Execute | Resume | Reconcile

  /** `uuid` is the primary key, used only to break ties; a row is addressed by its
      position, since rows are only ever appended. */
  datatype Job = Job(
    uuid: nat,
    kind: JobKind,
    aggregate: nat,
    state: JobState,
    attempts: nat,
    maxAttempts: int,
    lockedBy: Option<Worker>,
    lockedAt: Option<Time>,
    heartbeatAt: Option<Time>,
    leaseExpiresAt: Option<Time>,
    availableAt: Time,
    createdAt: Time,
    lastError: Option<string>)

  datatype Settings = Settings(lease: Time, retryBase: Time, retryMax: Time)

  /** Settings that the queue's constructor accepts; the witness is its defaults. */
  type Config = s: Settings | s.lease > 0.0 && s.retryBase >= 0.0 && s.retryMax >= 0.0
    witness Settings(60.0, 5.0, 300.0)

  datatype QueueError = NotFound | NotOwner | BadMaxAttempts

  // ---------------------------------------------------------------- back-off

  /** `base * 2 ** n`, written so that each step is a doubling. */
  function Doubled(base: Time, n: nat): (r: Time)
    requires base >= 0.0
    ensures r >= base
  {
    if n == 0 then base else 2.0 * Doubled(base, n - 1)
  }

  function Min(a: real, b: real): real {
    if a <= b then a else b
  }

  function RetryDelay(attempt: int, base: Time, max: Time): (r: Result<Time, string>)
    ensures r.Ok? <==> base >= 0.0 && max >= 0.0
    ensures r.Ok? ==> 0.0 <= r.value <= max
  {
    if base < 0.0 || max < 0.0 then
      Err("retry delays cannot be negative")
    else if base == 0.0 then
      Ok(0.0)
    else
      Ok(Min(Doubled(base, if attempt - 1 > 0 then attempt - 1 else 0), max))
  }

  predicate ShouldRetry(attempts: nat, maxAttempts: int) {
    attempts < maxAttempts
  }

  // --------------------------------------------------------- one row at a time

  function Released(job: Job): Job {
    job.(lockedBy := None, lockedAt := None, heartbeatAt := None, leaseExpiresAt := None)
  }

  predicate Claimable(job: Job, asOf: Time) {
    job.state.Pending? && job.availableAt <= asOf
  }

  predicate Expired(job: Job, now: Time) {
    job.state.Running? && job.leaseExpiresAt.Some? && job.leaseExpiresAt.value < now
  }

  predicate OwnedBy(job: Job, worker: Worker) {
    job.state.Running? && job.lockedBy == Some(worker)
  }

  function ClaimRow(cfg: Config, job: Job, worker: Worker, now: Time): Job {
    job.(state := Running, attempts := job.attempts + 1, lockedBy := Some(worker),
         lockedAt := Some(now), heartbeatAt := Some(now), leaseExpiresAt := Some(now + cfg.lease))
  }

  function HeartbeatRow(cfg: Config, job: Job, now: Time): Job {
    job.(heartbeatAt := Some(now), leaseExpiresAt := Some(now + cfg.lease))
  }

  function CompleteRow(job: Job): Job {
    Released(job).(state := Succeeded)
  }

  function FailRow(cfg: Config, job: Job, now: Time, error: string): Job {
    var freed := Released(job).(lastError := Some(error));
    if !ShouldRetry(job.attempts, job.maxAttempts) then
      freed.(state := Failed)
    else
      var delay := RetryDelay(job.attempts, cfg.retryBase, cfg.retryMax).value;
      freed.(state := Pending, availableAt := now + delay)
  }

  function ReapRow(job: Job, now: Time): Job {
    var freed := Released(job);
    if !ShouldRetry(job.attempts, job.maxAttempts) then
      var kept := job.lastError.Some? && job.lastError.value != "";
      freed.(state := Failed,
             lastError := if kept then job.lastError else Some("LEASE_EXPIRED_MAX_ATTEMPTS"))
    else
      freed.(state := Pending, availableAt := now, lastError := Some("LEASE_EXPIRED"))
  }

  function NewRow(uuid: nat, kind: JobKind, aggregate: nat, maxAttempts: int, now: Time): Job {
    Job(uuid, kind, aggregate, Pending, 0, maxAttempts, None, None, None, None, now, now, None)
  }

  // --------------------------------------------- what each operation does to a row

  /** What no operation changes. */
  predicate SameJob(a: Job, b: Job) {
    && b.uuid == a.uuid && b.kind == a.kind && b.aggregate == a.aggregate
    && b.maxAttempts == a.maxAttempts && b.createdAt == a.createdAt
  }

  predicate Free(b: Job) {
    b.lockedBy.None? && b.lockedAt.None? && b.heartbeatAt.None? && b.leaseExpiresAt.None?
  }

  /** One attempt more, and the worker's until a whole lease from now. */
  predicate IsClaimed(cfg: Config, a: Job, b: Job, worker: Worker, now: Time) {
    && SameJob(a, b) && b.state.Running? && b.attempts == a.attempts + 1
    && b.lockedBy == Some(worker) && b.lockedAt == Some(now) && b.heartbeatAt == Some(now)
    && b.leaseExpiresAt == Some(now + cfg.lease)
    && b.availableAt == a.availableAt && b.lastError == a.lastError
  }

  /** The same attempt of the same worker, until a whole lease from now. */
  predicate IsRenewed(cfg: Config, a: Job, b: Job, now: Time) {
    && SameJob(a, b) && b.state == a.state && b.attempts == a.attempts
    && b.lockedBy == a.lockedBy && b.lockedAt == a.lockedAt && b.heartbeatAt == Some(now)
    && b.leaseExpiresAt == Some(now + cfg.lease)
    && b.availableAt == a.availableAt && b.lastError == a.lastError
  }

  predicate IsCompleted(a: Job, b: Job) {
    && SameJob(a, b) && b.state.Succeeded? && Free(b)
    && b.attempts == a.attempts && b.availableAt == a.availableAt && b.lastError == a.lastError
  }

  /** Free again and due after the back-off while attempts are left, and FAILED otherwise. */
  predicate IsFailed(cfg: Config, a: Job, b: Job, now: Time, error: string) {
    && SameJob(a, b) && Free(b) && b.attempts == a.attempts && b.lastError == Some(error)
    && if a.attempts < a.maxAttempts
       then b.state.Pending? && b.availableAt == now + Delay(cfg, a.attempts)
       else b.state.Failed? && b.availableAt == a.availableAt
  }

  /** Free again and due at once while attempts are left, and FAILED otherwise; an earlier error is
      kept in that case. */
  predicate IsReaped(a: Job, b: Job, now: Time) {
    && SameJob(a, b) && Free(b) && b.attempts == a.attempts
    && if a.attempts < a.maxAttempts
       then b.state.Pending? && b.availableAt == now && b.lastError == Some("LEASE_EXPIRED")
       else && b.state.Failed? && b.availableAt == a.availableAt
            && b.lastError == if a.lastError.None? || a.lastError == Some("")
                              then Some("LEASE_EXPIRED_MAX_ATTEMPTS") else a.lastError
  }

  function Delay(cfg: Config, attempt: nat): (d: Time)
    ensures d >= 0.0
  {
    RetryDelay(attempt, cfg.retryBase, cfg.retryMax).value
  }

  // ------------------------------------------------------------- transactions

  /** One committed transaction.  `now` is read before the transaction starts and
      `asOf` is the instant compared with `availableAt` when rows are selected. */
  datatype QueueOp =
    | Enqueue(uuid: nat, kind: JobKind, aggregate: nat, maxAttempts: int, now: Time)
    | Claim(id: nat, worker: Worker, now: Time, asOf: Time)
    | Heartbeat(id: nat, worker: Worker, now: Time)
    | Complete(id: nat, worker: Worker, now: Time)
    | Fail(id: nat, worker: Worker, now: Time, error: string)
    | Reap(id: nat, now: Time)

  /** A rejected operation rolls back, so it leaves every row as it was. */
  function Apply(cfg: Config, rows: seq<Job>, op: QueueOp): (r: seq<Job>)
    ensures |rows| <= |r|
  {
    if op.Enqueue? then
      if op.maxAttempts < 1 then rows
      else rows + [NewRow(op.uuid, op.kind, op.aggregate, op.maxAttempts, op.now)]
    else if op.id >= |rows| then rows
    else
      var job := rows[op.id];
      match op
      case Claim(id, worker, now, asOf) =>
        if Claimable(job, asOf) then rows[id := ClaimRow(cfg, job, worker, now)] else rows
      case Heartbeat(id, worker, now) =>
        if OwnedBy(job, worker) then rows[id := HeartbeatRow(cfg, job, now)] else rows
      case Complete(id, worker, _) =>
        if OwnedBy(job, worker) then rows[id := CompleteRow(job)] else rows
      case Fail(id, worker, now, error) =>
        if OwnedBy(job, worker) then rows[id := FailRow(cfg, job, now, error)] else rows
      case Reap(id, now) =>
        if Expired(job, now) then rows[id := ReapRow(job, now)] else rows
  }

  function ApplyAll(cfg: Config, rows: seq<Job>, ops: seq<QueueOp>): (r: seq<Job>)
    ensures |rows| <= |r|
  {
    if ops == [] then rows else Apply(cfg, ApplyAll(cfg, rows, Front(ops)), Last(ops))
  }

  // ------------------------------------------------------ in-place operations

  datatype Order = ByAvailability | ByLease

  function LeaseKey(job: Job): Time {
    if job.leaseExpiresAt.Some? then job.leaseExpiresAt.value else 0.0
  }

  /** The two `ORDER BY` clauses. */
  predicate Before(order: Order, a: Job, b: Job) {
    match order
    case ByAvailability =>
      a.availableAt < b.availableAt
      || (a.availableAt == b.availableAt
          && (a.createdAt < b.createdAt || (a.createdAt == b.createdAt && a.uuid < b.uuid)))
    case ByLease =>
      LeaseKey(a) < LeaseKey(b) || (LeaseKey(a) == LeaseKey(b) && a.uuid < b.uuid)
  }

  /** `ids` are the first `limit` candidates in the given order: distinct, as many as there can be,
      oldest first, and none passed over for a later one. */
  predicate IsSelection(rows: seq<Job>, candidates: set<nat>, order: Order, limit: nat, ids: seq<nat>)
    requires forall c <- candidates :: c < |rows|
  {
    && (forall i :: 0 <= i < |ids| ==> ids[i] in candidates)
    && Distinct(ids)
    && |ids| == (if limit <= |candidates| then limit else |candidates|)
    && (forall i, j :: 0 <= i < j < |ids| ==> !Before(order, rows[ids[j]], rows[ids[i]]))
    && (forall c, i :: c in candidates && c !in ids && 0 <= i < |ids| ==> !Before(order, rows[c], rows[ids[i]]))
  }

  /** The rows a claim may take, and those a reaper may free; `FOR UPDATE SKIP LOCKED` passes over
      what other open transactions hold. */
  function ClaimCandidates(rows: seq<Job>, asOf: Time, locked: set<nat>): set<nat> {
    set i | 0 <= i < |rows| && Claimable(rows[i], asOf) && i !in locked
  }

  function ReapCandidates(rows: seq<Job>, now: Time, locked: set<nat>): set<nat> {
    set i | 0 <= i < |rows| && Expired(rows[i], now) && i !in locked
  }

  /** `a` does not come after `b` in the claiming order: by due time, then creation, then id. */
  predicate DueNoLater(a: Job, b: Job) {
    || a.availableAt < b.availableAt
    || (a.availableAt == b.availableAt && a.createdAt < b.createdAt)
    || (a.availableAt == b.availableAt && a.createdAt == b.createdAt && a.uuid <= b.uuid)
  }

  /** A claim takes PENDING rows that are due and that nobody holds, the earliest first, and leaves one
      of those only if it has as many as it may take, none of them later. */
  lemma ClaimTakesEarliest(rows: seq<Job>, asOf: Time, locked: set<nat>, limit: nat, ids: seq<nat>)
    requires IsSelection(rows, ClaimCandidates(rows, asOf, locked), ByAvailability, limit, ids)
    ensures |ids| <= limit
    ensures forall i :: 0 <= i < |ids| ==>
              ids[i] < |rows| && ids[i] !in locked && rows[ids[i]].state.Pending? && rows[ids[i]].availableAt <= asOf
    ensures forall i, j :: 0 <= i < j < |ids| ==> ids[i] != ids[j] && DueNoLater(rows[ids[i]], rows[ids[j]])
    ensures forall c :: 0 <= c < |rows| && rows[c].state.Pending? && rows[c].availableAt <= asOf && c !in locked
                        && c !in ids ==>
              |ids| == limit && forall i :: 0 <= i < |ids| ==> DueNoLater(rows[ids[i]], rows[c])
  {
    var candidates := ClaimCandidates(rows, asOf, locked);
    forall c | 0 <= c < |rows| && rows[c].state.Pending? && rows[c].availableAt <= asOf && c !in locked && c !in ids
      ensures |ids| == limit
    {
      assert c in candidates;
      SomeLeft(candidates, ids, c);
    }
  }

  lemma {:induction false} SomeLeft(candidates: set<nat>, ids: seq<nat>, c: nat)
    requires Distinct(ids) && c in candidates && c !in ids && forall i :: 0 <= i < |ids| ==> ids[i] in candidates
    ensures |ids| < |candidates|
    decreases ids
  {
    if ids != [] {
      assert ids == Front(ids) + [Last(ids)];
      SomeLeft(candidates - {Last(ids)}, Front(ids), c);
    }
  }

  /** A reaper takes RUNNING rows whose lease ran out before `now` and that nobody holds, the earliest
      lease first. */
  lemma ReapTakesEarliest(rows: seq<Job>, now: Time, locked: set<nat>, limit: nat, ids: seq<nat>)
    requires IsSelection(rows, ReapCandidates(rows, now, locked), ByLease, limit, ids)
    ensures |ids| <= limit
    ensures forall i :: 0 <= i < |ids| ==>
              && ids[i] < |rows| && ids[i] !in locked && rows[ids[i]].state.Running?
              && rows[ids[i]].leaseExpiresAt.Some? && rows[ids[i]].leaseExpiresAt.value < now
    ensures forall i, j :: 0 <= i < j < |ids| ==>
              && ids[i] != ids[j]
              && rows[ids[i]].leaseExpiresAt.value <= rows[ids[j]].leaseExpiresAt.value
    ensures forall c :: 0 <= c < |rows| && rows[c].state.Running? && rows[c].leaseExpiresAt.Some?
                        && rows[c].leaseExpiresAt.value < now && c !in locked && c !in ids ==>
              && |ids| == limit
              && forall i :: 0 <= i < |ids| ==> rows[ids[i]].leaseExpiresAt.value <= rows[c].leaseExpiresAt.value
  {
    var candidates := ReapCandidates(rows, now, locked);
    forall c | 0 <= c < |rows| && rows[c].state.Running? && rows[c].leaseExpiresAt.Some?
               && rows[c].leaseExpiresAt.value < now && c !in locked && c !in ids
      ensures |ids| == limit
    {
      assert c in candidates;
      SomeLeft(candidates, ids, c);
    }
  }

  /** `SELECT ... ORDER BY ... LIMIT ...`. */
  method SelectForUpdate(rows: seq<Job>, candidates: set<nat>, order: Order, limit: nat)
    returns (ids: seq<nat>)
    requires forall c <- candidates :: c < |rows|
    ensures IsSelection(rows, candidates, order, limit, ids)
  {
    ids := [];
    var rest := candidates;
    while |ids| < limit && rest != {}
      invariant rest <= candidates
      invariant forall i :: 0 <= i < |ids| ==> ids[i] in candidates && ids[i] !in rest
      invariant forall c :: c in candidates ==> c in rest || c in ids
      invariant |ids| + |rest| == |candidates| && |ids| <= limit
      invariant Distinct(ids)
      invariant forall i, j :: 0 <= i < j < |ids| ==> !Before(order, rows[ids[j]], rows[ids[i]])
      invariant forall c, i :: c in rest && 0 <= i < |ids| ==> !Before(order, rows[c], rows[ids[i]])
      decreases rest
    {
      var best := Oldest(rows, rest, order);
      ids := ids + [best];
      rest := rest - {best};
    }
  }

  method Oldest(rows: seq<Job>, rest: set<nat>, order: Order) returns (best: nat)
    requires rest != {} && forall c <- rest :: c < |rows|
    ensures best in rest
    ensures forall c <- rest :: !Before(order, rows[c], rows[best])
  {
    best :| best in rest;
    var todo := rest - {best};
    while todo != {}
      invariant todo <= rest && best in rest
      invariant forall c :: c in rest && c !in todo ==> !Before(order, rows[c], rows[best])
      decreases todo
    {
      var next :| next in todo;
      if Before(order, rows[next], rows[best]) {
        best := next;
      }
      todo := todo - {next};
    }
  }

  function ClaimOps(ids: seq<nat>, worker: Worker, now: Time, asOf: Time): seq<QueueOp> {
    seq(|ids|, i requires 0 <= i < |ids| => Claim(ids[i], worker, now, asOf))
  }

  function ReapOps(ids: seq<nat>, now: Time): seq<QueueOp> {
    seq(|ids|, i requires 0 <= i < |ids| => Reap(ids[i], now))
  }

  /** Claiming distinct claimable rows one by one is claiming them all at once. */
  lemma {:induction false} ClaimBatch(cfg: Config, rows: seq<Job>, ids: seq<nat>, worker: Worker, now: Time, asOf: Time)
    requires Distinct(ids)
    requires forall id <- ids :: id < |rows| && Claimable(rows[id], asOf)
    ensures var after := ApplyAll(cfg, rows, ClaimOps(ids, worker, now, asOf));
            |after| == |rows|
            && forall i :: 0 <= i < |rows| ==>
                 after[i] == if i in ids then ClaimRow(cfg, rows[i], worker, now) else rows[i]
  {
    if ids != [] {
      var k := |ids| - 1;
      assert Front(ClaimOps(ids, worker, now, asOf)) == ClaimOps(ids[..k], worker, now, asOf);
      forall id <- ids[..k] ensures id in ids {
      }
      ClaimBatch(cfg, rows, ids[..k], worker, now, asOf);
      assert ids == ids[..k] + [ids[k]];
    }
  }

  lemma {:induction false} ReapBatch(cfg: Config, rows: seq<Job>, ids: seq<nat>, now: Time)
    requires Distinct(ids)
    requires forall id <- ids :: id < |rows| && Expired(rows[id], now)
    ensures var after := ApplyAll(cfg, rows, ReapOps(ids, now));
            |after| == |rows|
            && forall i :: 0 <= i < |rows| ==>
                 after[i] == if i in ids then ReapRow(rows[i], now) else rows[i]
  {
    if ids != [] {
      var k := |ids| - 1;
      assert Front(ReapOps(ids, now)) == ReapOps(ids[..k], now);
      forall id <- ids[..k] ensures id in ids {
      }
      ReapBatch(cfg, rows, ids[..k], now);
      assert ids == ids[..k] + [ids[k]];
    }
  }

  /** Only the worker that holds a RUNNING row may do anything to it. */
  function Owned(rows: seq<Job>, id: nat, worker: Worker): Result<(), QueueError> {
    if id >= |rows| then Err(NotFound)
    else if rows[id].state == JobState.Running && rows[id].lockedBy == Some(worker) then Ok(())
    else Err(NotOwner)
  }

  class JobQueue {
    const cfg: Config
    var rows: seq<Job>

    constructor (cfg: Config)
      ensures this.cfg == cfg && rows == []
    {
      this.cfg := cfg;
      rows := [];
    }

    method Enqueue(uuid: nat, kind: JobKind, aggregate: nat, maxAttempts: int, now: Time)
      returns (r: Result<nat, QueueError>)
      modifies this
      ensures rows == Apply(cfg, old(rows), QueueOp.Enqueue(uuid, kind, aggregate, maxAttempts, now))
      ensures r == if maxAttempts < 1 then Err(BadMaxAttempts) else Ok(|old(rows)|)
      ensures rows == if maxAttempts < 1 then old(rows)
                      else old(rows) + [Job(uuid, kind, aggregate, Pending, 0, maxAttempts, None, None, None, None,
                                            now, now, None)]
    {
      if maxAttempts < 1 {
        return Err(BadMaxAttempts);
      }
      rows := rows + [NewRow(uuid, kind, aggregate, maxAttempts, now)];
      return Ok(|rows| - 1);
    }

    /** Claims up to `limit` rows; `locked` are the rows other open transactions hold. */
    method Claim(worker: Worker, limit: int, now: Time, asOf: Time, locked: set<nat>)
      returns (ids: seq<nat>)
      modifies this
      ensures IsSelection(old(rows), ClaimCandidates(old(rows), asOf, locked), ByAvailability,
                          if limit < 1 then 0 else limit, ids)
      ensures rows == ApplyAll(cfg, old(rows), ClaimOps(ids, worker, now, asOf))
      ensures |rows| == |old(rows)|
      ensures forall i :: 0 <= i < |rows| ==>
                            if i in ids then IsClaimed(cfg, old(rows)[i], rows[i], worker, now)
                            else rows[i] == old(rows)[i]
    {
      if limit < 1 {
        return [];
      }
      ids := SelectForUpdate(rows, ClaimCandidates(rows, asOf, locked), ByAvailability, limit);
      var k := 0;
      while k < |ids|
        invariant 0 <= k <= |ids|
        invariant |rows| == |old(rows)|
        invariant forall i :: 0 <= i < |rows| ==>
                    rows[i] == if i in ids[..k] then ClaimRow(cfg, old(rows)[i], worker, now) else old(rows)[i]
      {
        assert ids[..k + 1] == ids[..k] + [ids[k]];
        rows := rows[ids[k] := ClaimRow(cfg, rows[ids[k]], worker, now)];
        k := k + 1;
      }
      assert ids[..k] == ids;
      ClaimBatch(cfg, old(rows), ids, worker, now, asOf);
    }

    method Heartbeat(id: nat, worker: Worker, now: Time) returns (r: Result<(), QueueError>)
      modifies this
      ensures rows == Apply(cfg, old(rows), QueueOp.Heartbeat(id, worker, now))
      ensures r == Owned(old(rows), id, worker)
      ensures r.Err? ==> rows == old(rows)
      ensures r.Ok? ==> |rows| == |old(rows)| && rows == old(rows)[id := rows[id]]
                        && IsRenewed(cfg, old(rows)[id], rows[id], now)
    {
      r := RequireOwned(id, worker);
      if r.Ok? {
        rows := rows[id := HeartbeatRow(cfg, rows[id], now)];
      }
    }

    method Complete(id: nat, worker: Worker, now: Time) returns (r: Result<(), QueueError>)
      modifies this
      ensures rows == Apply(cfg, old(rows), QueueOp.Complete(id, worker, now))
      ensures r == Owned(old(rows), id, worker)
      ensures r.Err? ==> rows == old(rows)
      ensures r.Ok? ==> |rows| == |old(rows)| && rows == old(rows)[id := rows[id]]
                        && IsCompleted(old(rows)[id], rows[id])
    {
      r := RequireOwned(id, worker);
      if r.Ok? {
        rows := rows[id := CompleteRow(rows[id])];
      }
    }

    method Fail(id: nat, worker: Worker, now: Time, error: string) returns (r: Result<(), QueueError>)
      modifies this
      ensures rows == Apply(cfg, old(rows), QueueOp.Fail(id, worker, now, error))
      ensures r == Owned(old(rows), id, worker)
      ensures r.Err? ==> rows == old(rows)
      ensures r.Ok? ==> |rows| == |old(rows)| && rows == old(rows)[id := rows[id]]
                        && IsFailed(cfg, old(rows)[id], rows[id], now, error)
    {
      r := RequireOwned(id, worker);
      if r.Ok? {
        rows := rows[id := FailRow(cfg, rows[id], now, error)];
      }
    }

    /** Frees up to `limit` rows whose lease has run out, earliest lease first. */
    method ReapExpired(limit: nat, now: Time, locked: set<nat>) returns (ids: seq<nat>)
      modifies this
      ensures IsSelection(old(rows), ReapCandidates(old(rows), now, locked), ByLease, limit, ids)
      ensures rows == ApplyAll(cfg, old(rows), ReapOps(ids, now))
      ensures |rows| == |old(rows)|
      ensures forall i :: 0 <= i < |rows| ==>
                            if i in ids then IsReaped(old(rows)[i], rows[i], now) else rows[i] == old(rows)[i]
    {
      ids := SelectForUpdate(rows, ReapCandidates(rows, now, locked), ByLease, limit);
      var k := 0;
      while k < |ids|
        invariant 0 <= k <= |ids|
        invariant |rows| == |old(rows)|
        invariant forall i :: 0 <= i < |rows| ==>
                                rows[i] == if i in ids[..k] then ReapRow(old(rows)[i], now) else old(rows)[i]
      {
        assert ids[..k + 1] == ids[..k] + [ids[k]];
        rows := rows[ids[k] := ReapRow(rows[ids[k]], now)];
        k := k + 1;
      }
      assert ids[..k] == ids;
      ReapBatch(cfg, old(rows), ids, now);
    }

    method RequireOwned(id: nat, worker: Worker) returns (r: Result<(), QueueError>)
      ensures r == Owned(rows, id, worker)
      ensures r.Ok? ==> OwnedBy(rows[id], worker)
      ensures r.Err? ==> id >= |rows| || !OwnedBy(rows[id], worker)
    {
      if id >= |rows| {
        return Err(NotFound);
      }
      if !rows[id].state.Running? || rows[id].lockedBy != Some(worker) {
        return Err(NotOwner);
      }
      return Ok(());
    }
  }

  // ------------------------------------------------------------------- safety

  predicate JobInv(job: Job) {
    && 1 <= job.maxAttempts
    && job.attempts <= job.maxAttempts
    && (job.state.Running? <==> job.lockedBy.Some?)
    && (job.state.Running? <==> job.leaseExpiresAt.Some?)
    && (job.state.Running? <==> job.lockedAt.Some?)
    && (job.state.Running? <==> job.heartbeatAt.Some?)
    && (job.state.Pending? ==> job.attempts < job.maxAttempts)
    && (job.state.Failed? ==> job.attempts == job.maxAttempts)
    && (job.state.Running? || job.state.Succeeded? ==> 1 <= job.attempts)
  }

  predicate Settled(job: Job) {
    job.state.Succeeded? || job.state.Failed?
  }

  /** The queue after `ops`, starting empty. */
  function Queue(cfg: Config, ops: seq<QueueOp>): seq<Job> {
    ApplyAll(cfg, [], ops)
  }

  /** Whether the last of `ops` moved row `j` from state `a` to state `b`. */
  predicate Moved(cfg: Config, ops: seq<QueueOp>, j: nat, a: JobState, b: JobState)
    requires ops != []
  {
    var before := Queue(cfg, Front(ops));
    j < |before| && before[j].state == a && Queue(cfg, ops)[j].state == b
  }

  /** How often row `j` went from `a` to `b`, read off the rows and not off any counter. */
  function Moves(cfg: Config, ops: seq<QueueOp>, j: nat, a: JobState, b: JobState): nat {
    if ops == [] then 0
    else Moves(cfg, Front(ops), j, a, b) + if Moved(cfg, ops, j, a, b) then 1 else 0
  }

  lemma {:induction false} QueueSafety(cfg: Config, ops: seq<QueueOp>, j: nat)
    requires j < |Queue(cfg, ops)|
    ensures JobInv(Queue(cfg, ops)[j])
    ensures Moves(cfg, ops, j, Pending, Running) == Queue(cfg, ops)[j].attempts
    ensures Moves(cfg, ops, j, Pending, Running) <= Queue(cfg, ops)[j].maxAttempts
    ensures Moves(cfg, ops, j, Running, Succeeded) == if Queue(cfg, ops)[j].state.Succeeded? then 1 else 0
  {
    if ops != [] {
      var before := Queue(cfg, Front(ops));
      if j < |before| {
        QueueSafety(cfg, Front(ops), j);
      } else {
        NoMovesBeforeBirth(cfg, Front(ops), j, Pending, Running);
        NoMovesBeforeBirth(cfg, Front(ops), j, Running, Succeeded);
      }
    }
  }

  lemma {:induction false} NoMovesBeforeBirth(cfg: Config, ops: seq<QueueOp>, j: nat, a: JobState, b: JobState)
    requires |Queue(cfg, ops)| <= j
    ensures Moves(cfg, ops, j, a, b) == 0
  {
    if ops != [] {
      NoMovesBeforeBirth(cfg, Front(ops), j, a, b);
    }
  }

  /** A settled row never changes again, whatever happens later. */
  lemma {:induction false} SettledIsAbsorbing(cfg: Config, ops: seq<QueueOp>, more: seq<QueueOp>, j: nat)
    requires j < |Queue(cfg, ops)| && Settled(Queue(cfg, ops)[j])
    ensures j < |Queue(cfg, ops + more)| && Queue(cfg, ops + more)[j] == Queue(cfg, ops)[j]
  {
    if more == [] {
      assert ops + more == ops;
    } else {
      SettledIsAbsorbing(cfg, ops, Front(more), j);
      assert Front(ops + more) == ops + Front(more);
    }
  }

  // -------------------------------------------------------------------- leases

  /** The last of `ops` took row `j`, or its holder sent a heartbeat for it. */
  predicate Renews(cfg: Config, ops: seq<QueueOp>, j: nat)
    requires ops != []
  {
    var before, op := Queue(cfg, Front(ops)), Last(ops);
    && j < |before| && !op.Enqueue? && op.id == j
    && ((op.Claim? && Moved(cfg, ops, j, Pending, Running))
        || (op.Heartbeat? && before[j].state.Running? && before[j].lockedBy == Some(op.worker)))
  }

  /** When row `j` was last taken or renewed. */
  function LastRenewal(cfg: Config, ops: seq<QueueOp>, j: nat): Option<Time> {
    if ops == [] then None
    else if Renews(cfg, ops, j) then Some(Last(ops).now)
    else LastRenewal(cfg, Front(ops), j)
  }

  /** Who last took row `j`. */
  function LastClaimer(cfg: Config, ops: seq<QueueOp>, j: nat): Option<Worker> {
    if ops == [] then None
    else if Last(ops).Claim? && Moved(cfg, ops, j, Pending, Running) then Some(Last(ops).worker)
    else LastClaimer(cfg, Front(ops), j)
  }

  /** A RUNNING row belongs to whoever took it last, until a lease after its last claim or heartbeat. */
  lemma {:induction false} LeaseIsLastRenewal(cfg: Config, ops: seq<QueueOp>, j: nat)
    requires j < |Queue(cfg, ops)| && Queue(cfg, ops)[j].state.Running?
    ensures LastRenewal(cfg, ops, j).Some? && LastClaimer(cfg, ops, j).Some?
    ensures Queue(cfg, ops)[j].leaseExpiresAt == Some(LastRenewal(cfg, ops, j).value + cfg.lease)
    ensures Queue(cfg, ops)[j].heartbeatAt == LastRenewal(cfg, ops, j)
    ensures Queue(cfg, ops)[j].lockedBy == LastClaimer(cfg, ops, j)
  {
    if ops != [] {
      var before := Queue(cfg, Front(ops));
      if j < |before| && before[j].state.Running? {
        LeaseIsLastRenewal(cfg, Front(ops), j);
      }
    }
  }

  /** The reaper moves a row exactly when it is RUNNING and more than a lease has passed since its last
      claim or heartbeat. */
  lemma ReapsExactly(cfg: Config, ops: seq<QueueOp>, j: nat, now: Time)
    requires j < |Queue(cfg, ops)|
    ensures var row, after := Queue(cfg, ops)[j], Queue(cfg, ops + [Reap(j, now)])[j];
            (after != row <==> row.state.Running? && LastRenewal(cfg, ops, j).Some?
                               && now > LastRenewal(cfg, ops, j).value + cfg.lease)
            && (after != row ==> IsReaped(row, after, now))
  {
    assert Front(ops + [Reap(j, now)]) == ops;
    if Queue(cfg, ops)[j].state.Running? {
      LeaseIsLastRenewal(cfg, ops, j);
    }
  }

  predicate InOrder(ops: seq<QueueOp>) {
    forall i, j :: 0 <= i < j < |ops| ==> ops[i].now <= ops[j].now
  }

  lemma {:induction false} RenewalsAdvance(cfg: Config, ops: seq<QueueOp>, more: seq<QueueOp>, j: nat)
    requires ops != [] && InOrder(ops + more) && Renews(cfg, ops, j)
    ensures LastRenewal(cfg, ops + more, j).Some?
    ensures Last(ops).now <= LastRenewal(cfg, ops + more, j).value
  {
    if more == [] {
      assert ops + more == ops;
    } else {
      assert Front(ops + more) == ops + Front(more);
      assert forall i :: 0 <= i < |ops + Front(more)| ==> (ops + Front(more))[i] == (ops + more)[i];
      RenewalsAdvance(cfg, ops, Front(more), j);
      assert (ops + more)[|ops| - 1] == Last(ops) && (ops + more)[|ops + more| - 1] == Last(more);
    }
  }

  /** A worker that has taken a row, or sent a heartbeat for it, at time s keeps it for a whole lease: as
      long as the clock runs forward, no reaper that comes by s + lease moves the row. */
  lemma NeverReapedEarly(cfg: Config, ops: seq<QueueOp>, more: seq<QueueOp>, j: nat, now: Time)
    requires ops != [] && InOrder(ops + more) && Renews(cfg, ops, j)
    requires j < |Queue(cfg, ops + more)| && now <= Last(ops).now + cfg.lease
    ensures Queue(cfg, ops + more + [Reap(j, now)])[j] == Queue(cfg, ops + more)[j]
  {
    RenewalsAdvance(cfg, ops, more, j);
    ReapsExactly(cfg, ops + more, j, now);
  }

  /** A RUNNING row is completed, failed or renewed by the worker that took it last, and by nobody else. */
  lemma OnlyTheHolderSettles(cfg: Config, ops: seq<QueueOp>, j: nat, op: QueueOp)
    requires j < |Queue(cfg, ops)| && (op.Heartbeat? || op.Complete? || op.Fail?)
    requires Queue(cfg, ops + [op])[j] != Queue(cfg, ops)[j]
    ensures op.id == j && Queue(cfg, ops)[j].state.Running? && LastClaimer(cfg, ops, j) == Some(op.worker)
  {
    assert Front(ops + [op]) == ops;
    if Queue(cfg, ops)[j].state.Running? {
      LeaseIsLastRenewal(cfg, ops, j);
    }
  }

  // ----------------------------------------------------------- back-off bounds

  lemma {:induction false} DoubledGrows(base: Time, a: nat, b: nat)
    requires 0.0 <= base && a <= b
    ensures Doubled(base, a) <= Doubled(base, b)
  {
    if a < b {
      DoubledGrows(base, a, b - 1);
    }
  }

  lemma DelayIsMonotone(cfg: Config, a: nat, b: nat)
    requires a <= b
    ensures Delay(cfg, a) <= Delay(cfg, b)
  {
    DoubledGrows(cfg.retryBase, if a >= 1 then a - 1 else 0, if b >= 1 then b - 1 else 0);
  }

  lemma DoublingCapped(x: Time, max: Time)
    requires x >= 0.0 && max >= 0.0
    ensures Min(2.0 * x, max) == Min(2.0 * Min(x, max), max)
  {
  }

  /** The delays are the capped doubling sequence: the first is the base, each next one twice the
      one before, none above the maximum. */
  lemma DelayDoubles(cfg: Config, k: nat)
    ensures Delay(cfg, 0) == Delay(cfg, 1) == Min(cfg.retryBase, cfg.retryMax)
    ensures k >= 1 ==> Delay(cfg, k + 1) == Min(2.0 * Delay(cfg, k), cfg.retryMax)
  {
    if k >= 1 {
      DoublingCapped(Doubled(cfg.retryBase, k - 1), cfg.retryMax);
    }
  }

  function OpTime(op: QueueOp): Time {
    if op.Claim? then op.asOf else op.now
  }

  /** Commits happen in clock order. */
  predicate ClockOrdered(ops: seq<QueueOp>) {
    forall i, j :: 0 <= i < j < |ops| ==> OpTime(ops[i]) <= OpTime(ops[j])
  }

  /** The last operation failed job `j` and put it back for another attempt. */
  predicate Requeued(cfg: Config, ops: seq<QueueOp>, j: nat)
    requires ops != []
  {
    Last(ops).Fail? && Last(ops).id == j && Moved(cfg, ops, j, Running, Pending)
  }

  /** Once a failure at time t on attempt k re-queues a job, no later claim of it is made
      before t + Delay(k), even after further failures and reaped leases. */
  lemma NeverClaimedEarly(cfg: Config, ops: seq<QueueOp>, more: seq<QueueOp>, j: nat)
    requires ops != [] && more != [] && ClockOrdered(ops + more)
    requires Requeued(cfg, ops, j)
    requires Moved(cfg, ops + more, j, Pending, Running)
    ensures Last(more).Claim?
    ensures Last(more).asOf >= Last(ops).now + Delay(cfg, Queue(cfg, ops)[j].attempts)
  {
    assert Front(ops + more) == ops + Front(more);
    HeldBack(cfg, ops, Front(more), j, Last(more));
  }

  /** The invariant behind it: from the failure on, the row is unavailable until the
      bound, or the clock has already passed it. */
  lemma {:induction false} HeldBack(cfg: Config, ops: seq<QueueOp>, more: seq<QueueOp>, j: nat, next: QueueOp)
    requires ops != [] && ClockOrdered(ops + more + [next])
    requires Requeued(cfg, ops, j)
    ensures j < |Queue(cfg, ops + more)|
    ensures var bound := Last(ops).now + Delay(cfg, Queue(cfg, ops)[j].attempts);
            Queue(cfg, ops + more)[j].availableAt >= bound || OpTime(next) >= bound
    ensures var bound := Last(ops).now + Delay(cfg, Queue(cfg, ops)[j].attempts);
            !Queue(cfg, ops + more)[j].state.Pending? ==> OpTime(next) >= bound
    decreases |more|
  {
    var all := ops + more + [next];
    if more == [] {
      assert ops + more == ops;
    } else {
      var rest := ops + Front(more) + [Last(more)];
      assert Front(ops + more) == ops + Front(more);
      assert forall i :: 0 <= i < |rest| ==> rest[i] == all[i];
      HeldBack(cfg, ops, Front(more), j, Last(more));
      assert all[|all| - 2] == Last(more) && all[|all| - 1] == next;
    }
  }

  /** Total waiting imposed on job `j` by its failures so far, read off the rows. */
  function TotalBackoff(cfg: Config, ops: seq<QueueOp>, j: nat): Time {
    if ops == [] then 0.0
    else TotalBackoff(cfg, Front(ops), j)
         + if Requeued(cfg, ops, j) then Queue(cfg, ops)[j].availableAt - Last(ops).now else 0.0
  }

  /** Sum of the delays of attempts 1..n. */
  function DelaySum(cfg: Config, n: nat): Time {
    if n == 0 then 0.0 else DelaySum(cfg, n - 1) + Delay(cfg, n)
  }

  /** Attempts of a job that were over, and followed by another chance. */
  function Ended(job: Job): nat {
    if job.state.Pending? || job.attempts == 0 then job.attempts else job.attempts - 1
  }

  lemma {:induction false} BackoffSoFar(cfg: Config, ops: seq<QueueOp>, j: nat)
    ensures j >= |Queue(cfg, ops)| ==> TotalBackoff(cfg, ops, j) == 0.0
    ensures j < |Queue(cfg, ops)| ==>
              TotalBackoff(cfg, ops, j) <= DelaySum(cfg, Ended(Queue(cfg, ops)[j]))
  {
    if ops != [] {
      BackoffSoFar(cfg, Front(ops), j);
      if j < |Queue(cfg, ops)| {
        QueueSafety(cfg, ops, j);
        if j < |Queue(cfg, Front(ops))| {
          QueueSafety(cfg, Front(ops), j);
        }
      }
    }
  }

  lemma {:induction false} DelaySumGeometric(cfg: Config, n: nat)
    ensures DelaySum(cfg, n) <= Doubled(cfg.retryBase, n) - cfg.retryBase
  {
    if n > 0 {
      DelaySumGeometric(cfg, n - 1);
    }
  }

  /** `n * x`, as a sum. */
  function Times(n: nat, x: Time): Time {
    if n == 0 then 0.0 else Times(n - 1, x) + x
  }

  lemma {:induction false} DelaySumCapped(cfg: Config, n: nat)
    ensures DelaySum(cfg, n) <= Times(n, cfg.retryMax)
  {
    if n > 0 {
      DelaySumCapped(cfg, n - 1);
      assert Delay(cfg, n) <= cfg.retryMax;
    }
  }

  lemma {:induction false} DelaySumGrows(cfg: Config, a: nat, b: nat)
    requires a <= b
    ensures DelaySum(cfg, a) <= DelaySum(cfg, b)
  {
    if a < b {
      DelaySumGrows(cfg, a, b - 1);
    }
  }

  /** Chances left to a job after its first attempt. */
  function Retries(job: Job): nat {
    if job.maxAttempts >= 1 then job.maxAttempts - 1 else 0
  }

  lemma BackoffWithinRetries(cfg: Config, ops: seq<QueueOp>, j: nat)
    requires j < |Queue(cfg, ops)|
    ensures TotalBackoff(cfg, ops, j) <= DelaySum(cfg, Retries(Queue(cfg, ops)[j]))
  {
    QueueSafety(cfg, ops, j);
    BackoffSoFar(cfg, ops, j);
    var job := Queue(cfg, ops)[j];
    DelaySumGrows(cfg, Ended(job), Retries(job));
  }

  /** Over its whole life a job waits at most the geometric sum ... */
  lemma BackoffGeometric(cfg: Config, ops: seq<QueueOp>, j: nat)
    requires j < |Queue(cfg, ops)|
    ensures TotalBackoff(cfg, ops, j)
         <= Doubled(cfg.retryBase, Retries(Queue(cfg, ops)[j])) - cfg.retryBase
  {
    BackoffWithinRetries(cfg, ops, j);
    DelaySumGeometric(cfg, Retries(Queue(cfg, ops)[j]));
  }

  /** ... and at most the cap, once per retry. */
  lemma BackoffCapped(cfg: Config, ops: seq<QueueOp>, j: nat)
    requires j < |Queue(cfg, ops)|
    ensures TotalBackoff(cfg, ops, j) <= Times(Retries(Queue(cfg, ops)[j]), cfg.retryMax)
  {
    BackoffWithinRetries(cfg, ops, j);
    DelaySumCapped(cfg, Retries(Queue(cfg, ops)[j]));
  }
}
