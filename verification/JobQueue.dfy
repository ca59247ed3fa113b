/** The leased job queue: one function per store statement, and a system of any number
    of workers, live or zombie, that act on the claim-time snapshots they hold. */
module JobQueue {
  import opened Orders
  import opened Claiming

  datatype PushJob = PushJob(
    queue: string, payload: string, priority: int, delayMs: int, maxAttempts: nat,
    key: Option<string>, debounceKey: Option<string>,
    throttleKey: Option<string>, throttleSpacingMs: Option<int>)

  /** The persisted state; `nextId` supplies fresh, ordered ids. */
  datatype Store = Store(rows: Table, cursors: map<(string, string), int>, nextId: JobId)

  /** What a worker remembers of a claim. */
  datatype ClaimedJob = ClaimedJob(id: JobId, fence: nat, attempt: nat, maxAttempts: nat)

  // ---- Store statements ----------------------------------------------------------------

  /** The slot a throttled push takes, and the cursor it leaves behind. */
  function ThrottleStart(cursors: map<(string, string), int>, slot: (string, string), now: int): int {
    Max(if slot in cursors then cursors[slot] else now, now)
  }

  predicate Throttled(job: PushJob) { job.throttleKey.Some? && job.throttleSpacingMs.Some? }

  function AvailableAt(s: Store, job: PushJob, now: int): int {
    if Throttled(job) then ThrottleStart(s.cursors, (job.queue, job.throttleKey.value), now)
    else now + Max(job.delayMs, 0)
  }

  function AdvanceCursor(s: Store, job: PushJob, now: int): map<(string, string), int> {
    if Throttled(job) then
      s.cursors[(job.queue, job.throttleKey.value) := AvailableAt(s, job, now) + Max(job.throttleSpacingMs.value, 0)]
    else s.cursors
  }

  function Collapse(t: Table, job: PushJob): Table {
    if job.debounceKey.None? then t
    else map id | id in t &&
           !(t[id].queue == job.queue && t[id].status == Pending && t[id].debounceKey == job.debounceKey) :: t[id]
  }

  function NewRow(s: Store, job: PushJob, now: int): Job {
    Job(job.queue, job.payload, Pending, job.priority, 0, Max(job.maxAttempts, 1),
        AvailableAt(s, job, now), None, 0, job.key, job.debounceKey)
  }

  function Insert(s: Store, job: PushJob, now: int): Store {
    Store(Collapse(s.rows, job)[s.nextId := NewRow(s, job, now)], AdvanceCursor(s, job, now), s.nextId + 1)
  }

  function InsertAll(s: Store, jobs: seq<PushJob>, now: int): Store {
    if jobs == [] then s
    else Insert(InsertAll(s, jobs[..|jobs| - 1], now), jobs[|jobs| - 1], now)
  }

  function ClaimRow(j: Job, leaseUntil: int): Job {
    j.(status := Running, attempt := j.attempt + 1, leaseUntil := Some(leaseUntil), fence := j.fence + 1)
  }

  function ClaimRows(t: Table, ids: set<JobId>, leaseUntil: int): Table {
    map id | id in t :: if id in ids then ClaimRow(t[id], leaseUntil) else t[id]
  }

  function AckRow(t: Table, id: JobId, fence: nat): Table {
    if id in t && t[id].fence == fence then t - {id} else t
  }

  function RetryRow(t: Table, id: JobId, availableAt: int, fence: nat): Table {
    if id in t && t[id].fence == fence then
      t[id := t[id].(status := Pending, availableAt := availableAt, leaseUntil := None)]
    else t
  }

  function KillRow(t: Table, id: JobId, fence: nat): Table {
    if id in t && t[id].fence == fence then t[id := t[id].(status := Dead, leaseUntil := None)] else t
  }

  /** The worker's decision on failure: the budget is judged on the claim-time snapshot. */
  function FailRow(t: Table, c: ClaimedJob, retryAt: int): Table {
    if c.attempt >= c.maxAttempts then KillRow(t, c.id, c.fence) else RetryRow(t, c.id, retryAt, c.fence)
  }

  function RenewRows(t: Table, leases: seq<(JobId, nat)>, leaseUntil: int): Table {
    map id | id in t ::
      if t[id].status == Running && (id, t[id].fence) in leases then t[id].(leaseUntil := Some(leaseUntil)) else t[id]
  }

  predicate Expired(j: Job, now: int) { j.status == Running && j.leaseUntil.Some? && j.leaseUntil.value < now }

  function SweepRow(j: Job, now: int): Job {
    if !Expired(j, now) then j
    else if j.attempt >= j.maxAttempts then j.(status := Dead, leaseUntil := None)
    else j.(status := Pending, leaseUntil := None, availableAt := now)
  }

  function SweepRows(t: Table, now: int): Table { map id | id in t :: SweepRow(t[id], now) }

  function RequeueRows(t: Table, ids: set<JobId>, now: int): Table {
    map id | id in t ::
      if id in ids && t[id].status == Dead then t[id].(status := Pending, attempt := 0, availableAt := now) else t[id]
  }

  function PurgeRows(t: Table, queue: string): Table {
    map id | id in t && !(t[id].queue == queue && t[id].status == Dead) :: t[id]
  }

  // ---- The system of workers ---------------------------------------------------------------

  /** `issued` holds every snapshot ever handed to a worker: a worker may act on it at any
      later time, any number of times. */
  datatype System = System(store: Store, issued: set<ClaimedJob>)

  datatype Op =
    | Push(jobs: seq<PushJob>, now: int)
    | Claim(queue: string, limit: nat, now: int, leaseMs: int, keyLimit: Option<nat>, fair: bool)
    | Ack(c: ClaimedJob)
    | Fail(c: ClaimedJob, retryAt: int)
    | Renew(cs: seq<ClaimedJob>, now: int, leaseMs: int)
    | Sweep(now: int)
    | Requeue(ids: set<JobId>, now: int)
    | PurgeDead(queue: string)

  const Initial := System(Store(map[], map[], 0), {})

  /** Workers present only snapshots they were given. */
  predicate Legal(s: System, op: Op) {
    match op
    case Ack(c) => c in s.issued
    case Fail(c, _) => c in s.issued
    case Renew(cs, _, _) => forall c | c in cs :: c in s.issued
    case _ => true
  }

  function Chosen(s: System, op: Op): set<JobId> {
    if op.Claim? then Select(s.store.rows, op.queue, op.limit, op.now, op.keyLimit, op.fair) else {}
  }

  function Leases(cs: seq<ClaimedJob>): seq<(JobId, nat)> {
    seq(|cs|, i requires 0 <= i < |cs| => (cs[i].id, cs[i].fence))
  }

  function Snapshot(t: Table, id: JobId): ClaimedJob
    requires id in t
  {
    ClaimedJob(id, t[id].fence, t[id].attempt, t[id].maxAttempts)
  }

  function NextRows(s: System, op: Op): Table {
    var t := s.store.rows;
    match op
    case Push(jobs, now) => InsertAll(s.store, jobs, now).rows
    case Claim(_, _, now, leaseMs, _, _) => ClaimRows(t, Chosen(s, op), now + leaseMs)
    case Ack(c) => AckRow(t, c.id, c.fence)
    case Fail(c, retryAt) => FailRow(t, c, retryAt)
    case Renew(cs, now, leaseMs) => RenewRows(t, Leases(cs), now + leaseMs)
    case Sweep(now) => SweepRows(t, now)
    case Requeue(ids, now) => RequeueRows(t, ids, now)
    case PurgeDead(queue) => PurgeRows(t, queue)
  }

  function Step(s: System, op: Op): System {
    var rows := NextRows(s, op);
    var store := if op.Push? then InsertAll(s.store, op.jobs, op.now) else s.store.(rows := rows);
    System(store, s.issued + set id | id in Chosen(s, op) && id in rows :: Snapshot(rows, id))
  }

  /** The state after a sequence of operations. */
  function Exec(ops: seq<Op>): System {
    if ops == [] then Initial else Step(Exec(ops[..|ops| - 1]), ops[|ops| - 1])
  }

  ghost predicate ValidRun(ops: seq<Op>) {
    forall i | 0 <= i < |ops| :: Legal(Exec(ops[..i]), ops[i])
  }

  // ---- The invariant -------------------------------------------------------------------------

  /** The retry budget of a stored row. */
  predicate Budgeted(j: Job) {
    && 1 <= j.maxAttempts
    && j.attempt <= j.maxAttempts
    && (j.status == Pending ==> j.attempt < j.maxAttempts)
    && (j.status == Running ==> 1 <= j.attempt)
    && (j.fence == 0 ==> j.status == Pending && j.attempt == 0)
  }

  /** What a snapshot's fence says about the row it names. */
  predicate Tracks(t: Table, c: ClaimedJob) {
    c.id in t ==>
      var j := t[c.id];
      && c.fence <= j.fence
      && c.maxAttempts == j.maxAttempts
      && (c.fence == j.fence ==>
            && (j.attempt == c.attempt || (j.attempt == 0 && c.attempt >= c.maxAttempts))
            && (j.status == Running ==> j.attempt == c.attempt)
            && (j.status == Dead ==> c.attempt >= c.maxAttempts))
  }

  ghost predicate HasOwner(s: System, id: JobId)
    requires id in s.store.rows
  {
    exists c :: c in s.issued && c.id == id && c.fence == s.store.rows[id].fence
  }

  predicate RowsOk(s: System) {
    forall id | id in s.store.rows :: id < s.store.nextId && Budgeted(s.store.rows[id])
  }

  ghost predicate OwnersOk(s: System) {
    forall id | id in s.store.rows && s.store.rows[id].fence > 0 :: HasOwner(s, id)
  }

  predicate SnapshotsOk(s: System) {
    forall c | c in s.issued :: c.id < s.store.nextId && c.fence > 0 && Tracks(s.store.rows, c)
  }

  predicate SnapshotsUnique(s: System) {
    forall c, d | c in s.issued && d in s.issued && c.id == d.id && c.fence == d.fence :: c == d
  }

  ghost predicate Inv(s: System) { RowsOk(s) && OwnersOk(s) && SnapshotsOk(s) && SnapshotsUnique(s) }

  lemma {:induction false} InsertAllFrame(s: Store, jobs: seq<PushJob>, now: int)
    requires forall id | id in s.rows :: id < s.nextId
    ensures var s' := InsertAll(s, jobs, now);
      && s.nextId <= s'.nextId
      && (forall id | id in s'.rows :: id < s'.nextId)
      && (forall id | id in s'.rows && id < s.nextId :: id in s.rows && s'.rows[id] == s.rows[id])
      && (forall id | id in s'.rows && id >= s.nextId :: s'.rows[id].fence == 0 && s'.rows[id].status == Pending
            && s'.rows[id].attempt == 0 && 1 <= s'.rows[id].maxAttempts)
  {
    if jobs != [] {
      InsertAllFrame(s, jobs[..|jobs| - 1], now);
    }
  }
}
