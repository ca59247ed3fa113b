/** When a job can be claimed: not before its delay, its retry time or its wake-up, and by nobody
    else while its lease lasts; over every run of the queue. */
module DueTimes {
  import opened Orders
  import opened Claiming
  import opened JobQueue
  import opened Fencing

  // ---- Inserted rows -----------------------------------------------------------------------------------

  /** A later job of the batch replaces this one: same queue, same debounce key. */
  predicate Replaced(jobs: seq<PushJob>, x: nat)
    requires x < |jobs|
  {
    jobs[x].debounceKey.Some?
    && exists y :: x < y < |jobs| && jobs[y].queue == jobs[x].queue && jobs[y].debounceKey == jobs[x].debounceKey
  }

  /** The row a pushed job gets: pending, unclaimed, as described by the job; without a throttle it is
      available once its delay is over. */
  predicate RowOfJob(row: Job, job: PushJob, now: int) {
    && row == Job(job.queue, job.payload, Pending, job.priority, 0, Max(job.maxAttempts, 1), row.availableAt, None, 0,
                  job.key, job.debounceKey)
    && (job.throttleKey.None? || job.throttleSpacingMs.None? ==>
          row.availableAt == if job.delayMs > 0 then now + job.delayMs else now)
  }

  /** A pushed job gets the next id in turn and its row, unless a later job of the batch replaces it. */
  lemma {:induction false} InsertedRow(s: Store, jobs: seq<PushJob>, now: int, x: nat)
    requires x < |jobs| && forall id | id in s.rows :: id < s.nextId
    ensures var s' := InsertAll(s, jobs, now);
      && s'.nextId == s.nextId + |jobs|
      && (s.nextId + x in s'.rows <==> !Replaced(jobs, x))
      && (s.nextId + x in s'.rows ==> RowOfJob(s'.rows[s.nextId + x], jobs[x], now))
  {
    var n := |jobs| - 1;
    var before := jobs[..n];
    InsertAllNext(s, before, now);
    if x < n {
      InsertedRow(s, before, now, x);
      assert forall y | x < y < n :: before[y] == jobs[y];
      if Replaced(before, x) {
        var y :| x < y < n && before[y].queue == jobs[x].queue && before[y].debounceKey == jobs[x].debounceKey;
        assert jobs[y] == before[y];
      }
    }
  }

  lemma {:induction false} InsertAllNext(s: Store, jobs: seq<PushJob>, now: int)
    ensures InsertAll(s, jobs, now).nextId == s.nextId + |jobs|
  {
    if jobs != [] {
      InsertAllNext(s, jobs[..|jobs| - 1], now);
    }
  }

  // ---- Pending rows --------------------------------------------------------------------------------------

  /** The operation claims the job, or fails it with the fence its row carries. */
  predicate Touches(s: System, op: Op, id: JobId) {
    id in Chosen(s, op)
    || (op.Fail? && op.c.id == id && id in s.store.rows && s.store.rows[id].fence == op.c.fence)
  }

  /** Nothing else changes a pending row while it is stored. */
  lemma PendingStays(s: System, op: Op, id: JobId)
    requires Inv(s) && Legal(s, op) && id in s.store.rows && s.store.rows[id].status == Pending && !Touches(s, op, id)
    ensures id in Step(s, op).store.rows ==> Step(s, op).store.rows[id] == s.store.rows[id]
  {
    if op.Push? {
      InsertAllFrame(s.store, op.jobs, op.now);
    }
  }

  /** No operation from `i` on and before `k` touches the job. */
  ghost predicate Untouched(ops: seq<Op>, i: nat, k: nat, id: JobId)
    requires k <= |ops|
  {
    forall y | i <= y < k :: !Touches(Exec(ops[..y]), ops[y], id)
  }

  lemma UntouchedBefore(ops: seq<Op>, i: nat, k: nat, id: JobId)
    requires i < k <= |ops| && Untouched(ops, i, k, id)
    ensures Untouched(ops, i, k - 1, id) && !Touches(Exec(ops[..k - 1]), ops[k - 1], id)
  {
    hide Exec, Touches;
  }

  lemma {:induction false} PendingLasts(ops: seq<Op>, i: nat, k: nat, id: JobId)
    requires ValidRun(ops) && i <= k <= |ops|
    requires id in Exec(ops[..i]).store.rows && Exec(ops[..i]).store.rows[id].status == Pending
    requires Untouched(ops, i, k, id)
    ensures Keeps(Exec(ops[..i]), Exec(ops[..k]), id)
    decreases k
  {
    hide *;
    if i == k {
      SameKeeps(Exec(ops[..i]), id);
    } else {
      UntouchedBefore(ops, i, k, id);
      PendingLasts(ops, i, k - 1, id);
      StepOfRun(ops, k - 1);
      NextIdBounds(ops, i, id);
      NextIdGrows(ops, i, k - 1);
      KeepsOn(Exec(ops[..i]), Exec(ops[..k - 1]), ops[k - 1], id);
    }
  }

  /** The row is as it was, if it is still stored. */
  ghost predicate Keeps(s: System, s': System, id: JobId)
    requires id in s.store.rows
  {
    id in s'.store.rows ==> s'.store.rows[id] == s.store.rows[id]
  }

  lemma SameKeeps(s: System, id: JobId)
    requires id in s.store.rows
    ensures Keeps(s, s, id)
  {
  }

  lemma KeepsOn(s: System, s': System, op: Op, id: JobId)
    requires id in s.store.rows && s.store.rows[id].status == Pending && Keeps(s, s', id) && id < s'.store.nextId
    requires Inv(s') && Legal(s', op) && !Touches(s', op, id)
    ensures Keeps(s, Step(s', op), id)
  {
    NoOldId(s', op, id);
    if id in Step(s', op).store.rows {
      hide Inv, Legal, Step, Touches;
      PendingStays(s', op, id);
    }
  }

  lemma ChosenIsDue(s: System, op: Op, id: JobId)
    requires id in Chosen(s, op)
    ensures op.Claim? && id in s.store.rows && s.store.rows[id].availableAt <= op.now
  {
    SelectIsReady(s.store.rows, op.queue, op.limit, op.now, op.keyLimit, op.fair);
  }

  // ---- Delays --------------------------------------------------------------------------------------------

  /** Operation `i` pushes `job` at `now` as the job `id`, and no operation before `k` claims it. */
  ghost predicate PushedAndWaiting(ops: seq<Op>, i: nat, k: nat, x: nat, job: PushJob, now: int, id: JobId) {
    && i < k <= |ops| && ops[i].Push? && ops[i].now == now && x < |ops[i].jobs| && ops[i].jobs[x] == job
    && id == Exec(ops[..i]).store.nextId + x
    && forall y | i < y < k :: id !in Chosen(Exec(ops[..y]), ops[y])
  }

  lemma Unclaimed(s: System, op: Op, id: JobId)
    requires Inv(s) && Legal(s, op) && id !in Chosen(s, op)
    requires id in s.store.rows ==> s.store.rows[id].fence == 0
    ensures !Touches(s, op, id)
  {
  }

  /** Until its first claim, while it is stored, the row is the one pushed. */
  lemma {:induction false} WaitingRow(ops: seq<Op>, i: nat, k: nat, x: nat, job: PushJob, now: int, id: JobId)
    requires ValidRun(ops) && PushedAndWaiting(ops, i, k, x, job, now, id)
    ensures StillRow(Exec(ops[..k]), job, now, id)
    decreases k
  {
    hide *;
    WaitedBefore(ops, i, k, x, job, now, id);
    StepOfRun(ops, k - 1);
    if i + 1 == k {
      PushedRow(Exec(ops[..i]), ops[i], x);
    } else {
      WaitingRow(ops, i, k - 1, x, job, now, id);
      WaitingStep(Exec(ops[..k - 1]), ops[k - 1], job, now, id);
    }
  }

  ghost predicate StillRow(s: System, job: PushJob, now: int, id: JobId) {
    id < s.store.nextId && (id in s.store.rows ==> RowOfJob(s.store.rows[id], job, now))
  }

  lemma WaitedBefore(ops: seq<Op>, i: nat, k: nat, x: nat, job: PushJob, now: int, id: JobId)
    requires PushedAndWaiting(ops, i, k, x, job, now, id)
    ensures i < k <= |ops| && ops[i].Push? && ops[i].now == now && x < |ops[i].jobs| && ops[i].jobs[x] == job
    ensures id == Exec(ops[..i]).store.nextId + x
    ensures i + 1 < k ==>
              PushedAndWaiting(ops, i, k - 1, x, job, now, id) && id !in Chosen(Exec(ops[..k - 1]), ops[k - 1])
  {
    hide Exec, Chosen;
  }

  lemma WaitingStep(s: System, op: Op, job: PushJob, now: int, id: JobId)
    requires Inv(s) && Legal(s, op) && StillRow(s, job, now, id) && id !in Chosen(s, op)
    ensures StillRow(Step(s, op), job, now, id)
  {
    NoOldId(s, op, id);
    if id in Step(s, op).store.rows {
      FreshFence(s.store.rows[id], job, now);
      Unclaimed(s, op, id);
      hide Inv, Legal, Step, Chosen, RowOfJob, Touches;
      PendingStays(s, op, id);
    }
  }

  /** Only a push adds rows, and only under new ids. */
  lemma NoOldId(s: System, op: Op, id: JobId)
    requires Inv(s) && Legal(s, op) && id < s.store.nextId
    ensures s.store.nextId <= Step(s, op).store.nextId && (id in Step(s, op).store.rows ==> id in s.store.rows)
  {
    if op.Push? {
      InsertAllFrame(s.store, op.jobs, op.now);
    }
  }

  lemma FreshFence(row: Job, job: PushJob, now: int)
    requires RowOfJob(row, job, now)
    ensures row.fence == 0 && row.status == Pending && row.queue == job.queue
  {
  }

  lemma PushedRow(s: System, op: Op, x: nat)
    requires Inv(s) && op.Push? && x < |op.jobs|
    ensures StillRow(Step(s, op), op.jobs[x], op.now, s.store.nextId + x)
  {
    InsertedRow(s.store, op.jobs, op.now, x);
    hide RowOfJob;
  }

  predicate Unthrottled(job: PushJob) { job.throttleKey.None? || job.throttleSpacingMs.None? }

  /** The clock has reached the push and its delay. */
  predicate DelayOver(job: PushJob, pushed: int, now: int) { now >= pushed && now >= pushed + job.delayMs }

  /** A job pushed with a delay is claimed first when the delay is over, never before. */
  lemma NotBeforeDelay(ops: seq<Op>, i: nat, k: nat, x: nat, job: PushJob, now: int, id: JobId)
    requires ValidRun(ops) && PushedAndWaiting(ops, i, k, x, job, now, id) && k < |ops| && Unthrottled(job)
    requires id in Chosen(Exec(ops[..k]), ops[k])
    ensures DelayOver(job, now, ops[k].now)
  {
    hide Exec, ValidRun, Chosen, PushedAndWaiting;
    WaitingRow(ops, i, k, x, job, now, id);
    ChosenIsDue(Exec(ops[..k]), ops[k], id);
  }

  /** A plain claim of the queue with room for every stored job takes the waiting job exactly when its
      delay is over. */
  lemma DelayIsExact(ops: seq<Op>, i: nat, k: nat, x: nat, job: PushJob, now: int, id: JobId)
    requires ValidRun(ops) && PushedAndWaiting(ops, i, k, x, job, now, id) && k < |ops| && Unthrottled(job)
    requires id in Exec(ops[..k]).store.rows
    requires ops[k].Claim? && ops[k].queue == job.queue && ops[k].keyLimit.None? && !ops[k].fair
    requires ops[k].limit >= |Exec(ops[..k]).store.rows|
    ensures id in Chosen(Exec(ops[..k]), ops[k]) <==> DelayOver(job, now, ops[k].now)
  {
    hide Exec, ValidRun, Chosen, PushedAndWaiting;
    WaitingRow(ops, i, k, x, job, now, id);
    PlainClaimTakes(Exec(ops[..k]), ops[k], id);
  }

  lemma PlainClaimTakes(s: System, op: Op, id: JobId)
    requires op.Claim? && op.keyLimit.None? && !op.fair && op.limit >= |s.store.rows|
    requires id in s.store.rows && s.store.rows[id].status == Pending && s.store.rows[id].queue == op.queue
    ensures id in Chosen(s, op) <==> s.store.rows[id].availableAt <= op.now
  {
    var t := s.store.rows;
    var cand, less := Candidates(t, op.queue, op.now), (x: nat, y: nat) => Before(t, x, y);
    if id in cand {
      assert Below(cand, less, id) <= t.Keys - {id};
      SubsetSize(Below(cand, less, id), t.Keys - {id});
    }
  }

  // ---- Sleeps and retries --------------------------------------------------------------------------------

  /** The execution job of a run. */
  function ExecutionJob(workflow: string, payload: string, delayMs: int): PushJob {
    PushJob("zenzip.workflow." + workflow, payload, 0, delayMs, 3, None, None, None, None)
  }

  /** The job a sleeping run is put on at `now` to be woken at `wakeAt`. */
  function SleepJob(workflow: string, payload: string, wakeAt: int, now: int): PushJob {
    ExecutionJob(workflow, payload, Max(wakeAt - now, 0))
  }

  /** A sleeping run is not picked up before it is to wake. */
  lemma SleepLasts(ops: seq<Op>, i: nat, k: nat, workflow: string, payload: string, wakeAt: int, now: int, id: JobId)
    requires ValidRun(ops) && PushedAndWaiting(ops, i, k, 0, SleepJob(workflow, payload, wakeAt, now), now, id)
    requires k < |ops| && id in Chosen(Exec(ops[..k]), ops[k])
    ensures ops[k].now >= wakeAt
  {
    NotBeforeDelay(ops, i, k, 0, SleepJob(workflow, payload, wakeAt, now), now, id);
    hide *;
  }

  /** Operation `i` is a failure that counts: the fence still holds and attempts are left. */
  ghost predicate Retries(ops: seq<Op>, i: nat, c: ClaimedJob, retryAt: int) {
    i < |ops| && ops[i] == Fail(c, retryAt) && c.attempt < c.maxAttempts
    && c.id in Exec(ops[..i]).store.rows && Exec(ops[..i]).store.rows[c.id].fence == c.fence
  }

  lemma RetriedRow(s: System, c: ClaimedJob, retryAt: int)
    requires c.id in s.store.rows && s.store.rows[c.id].fence == c.fence && c.attempt < c.maxAttempts
    ensures var t := Step(s, Fail(c, retryAt)).store.rows;
      c.id in t && t[c.id].status == Pending && t[c.id].availableAt == retryAt
  {
  }

  /** A job to be retried is in no claim before its retry time, until another claim, or a failure by
      the same worker again, touches its row. */
  lemma NotBeforeRetry(ops: seq<Op>, i: nat, k: nat, c: ClaimedJob, retryAt: int)
    requires ValidRun(ops) && Retries(ops, i, c, retryAt) && i < k < |ops|
    requires Untouched(ops, i + 1, k, c.id)
    requires c.id in Chosen(Exec(ops[..k]), ops[k])
    ensures ops[k].now >= retryAt
  {
    hide Exec, Step, ValidRun, Chosen, Untouched;
    StepOfRun(ops, i);
    RetriedRow(Exec(ops[..i]), c, retryAt);
    PendingLasts(ops, i + 1, k, c.id);
    ChosenIsDue(Exec(ops[..k]), ops[k], c.id);
  }

  // ---- Leases --------------------------------------------------------------------------------------------

  /** The last lease granted before operation `k` to the claim made at `i`: by the claim itself, or by
      its holder's last renewal. */
  ghost function LeaseOf(ops: seq<Op>, i: nat, k: nat, c: ClaimedJob): int
    requires i < k <= |ops| && ops[i].Claim?
    decreases k
  {
    if k == i + 1 then ops[i].now + ops[i].leaseMs
    else if ops[k - 1].Renew? && c in ops[k - 1].cs then ops[k - 1].now + ops[k - 1].leaseMs
    else LeaseOf(ops, i, k - 1, c)
  }

  predicate Settles(op: Op, c: ClaimedJob) { (op.Ack? || op.Fail?) && op.c == c }

  /** Operation `x` is a sweep whose clock is past the last lease granted. */
  ghost predicate Outruns(ops: seq<Op>, i: nat, x: nat, c: ClaimedJob)
    requires i < x < |ops| && ops[i].Claim?
  {
    ops[x].Sweep? && ops[x].now > LeaseOf(ops, i, x, c)
  }

  /** The row is leased to the claim `c`. */
  predicate LeasedTo(t: Table, c: ClaimedJob, lease: int) {
    c.id in t && t[c.id].status == Running && t[c.id].fence == c.fence && t[c.id].leaseUntil == Some(lease)
  }

  lemma LeaseListed(s: System, cs: seq<ClaimedJob>, c: ClaimedJob)
    requires Inv(s) && c in s.issued && forall d | d in cs :: d in s.issued
    ensures (c.id, c.fence) in Leases(cs) <==> c in cs
  {
    if (c.id, c.fence) in Leases(cs) {
      var k :| 0 <= k < |cs| && Leases(cs)[k] == (c.id, c.fence);
      assert cs[k] in cs;
    }
    if c in cs {
      var k :| 0 <= k < |cs| && cs[k] == c;
      assert Leases(cs)[k] == (c.id, c.fence);
    }
  }

  /** One operation on a leased row: a sweep past the lease takes it away, a renewal by its holder
      moves the lease, and nothing else but a settlement by its holder changes it. */
  lemma LeasedStep(s: System, op: Op, c: ClaimedJob, lease: int)
    requires Inv(s) && Legal(s, op) && c in s.issued && LeasedTo(s.store.rows, c, lease) && !Settles(op, c)
    ensures var t := Step(s, op).store.rows;
      && c.id !in Chosen(s, op)
      && if op.Sweep? && op.now > lease then
           c.id in t && t[c.id].status != Running
           && (t[c.id].status == Pending ==> t[c.id].availableAt == op.now && c.attempt < c.maxAttempts)
         else LeasedTo(t, c, if op.Renew? && c in op.cs then op.now + op.leaseMs else lease)
  {
    hide *;
    NotChosenAgain(s, op, c, lease);
    match op
    case Push(jobs, now) => LeasedPush(s, jobs, now, c, lease);
    case Renew(cs, now, leaseMs) => LeasedRenew(s, cs, now, leaseMs, c, lease);
    case Sweep(now) => LeasedSweep(s, now, c, lease);
    case _ => LeasedOther(s, op, c, lease);
  }

  lemma LeasedPush(s: System, jobs: seq<PushJob>, now: int, c: ClaimedJob, lease: int)
    requires Inv(s) && c in s.issued && LeasedTo(s.store.rows, c, lease)
    ensures LeasedTo(Step(s, Push(jobs, now)).store.rows, c, lease)
  {
    assert c.id < s.store.nextId;
    hide Inv;
    PushKeepsLeased(s.store, jobs, now, c.id);
  }

  lemma LeasedRenew(s: System, cs: seq<ClaimedJob>, now: int, leaseMs: int, c: ClaimedJob, lease: int)
    requires Inv(s) && Legal(s, Renew(cs, now, leaseMs)) && c in s.issued && LeasedTo(s.store.rows, c, lease)
    ensures LeasedTo(Step(s, Renew(cs, now, leaseMs)).store.rows, c, if c in cs then now + leaseMs else lease)
  {
    LeaseListed(s, cs, c);
    hide Inv, Leases;
  }

  lemma LeasedSweep(s: System, now: int, c: ClaimedJob, lease: int)
    requires Inv(s) && c in s.issued && LeasedTo(s.store.rows, c, lease)
    ensures var t := Step(s, Sweep(now)).store.rows;
      if now > lease then
        c.id in t && t[c.id].status != Running
        && (t[c.id].status == Pending ==> t[c.id].availableAt == now && c.attempt < c.maxAttempts)
      else LeasedTo(t, c, lease)
  {
    assert Tracks(s.store.rows, c);
    hide Inv;
  }

  lemma LeasedOther(s: System, op: Op, c: ClaimedJob, lease: int)
    requires Inv(s) && Legal(s, op) && c in s.issued && LeasedTo(s.store.rows, c, lease) && !Settles(op, c)
    requires !op.Push? && !op.Renew? && !op.Sweep? && c.id !in Chosen(s, op)
    ensures LeasedTo(Step(s, op).store.rows, c, lease)
  {
    hide Chosen, Tracks, RowsOk, OwnersOk;
  }

  lemma {:induction false} PushKeepsLeased(s: Store, jobs: seq<PushJob>, now: int, id: JobId)
    requires id in s.rows && s.rows[id].status == Running && id < s.nextId
    ensures id in InsertAll(s, jobs, now).rows && InsertAll(s, jobs, now).rows[id] == s.rows[id]
    ensures id < InsertAll(s, jobs, now).nextId
  {
    if jobs != [] {
      PushKeepsLeased(s, jobs[..|jobs| - 1], now, id);
    }
  }

  lemma ClaimLeases(s: System, op: Op, id: JobId)
    requires op.Claim? && id in Chosen(s, op)
    ensures id in Step(s, op).store.rows
    ensures LeasedTo(Step(s, op).store.rows, Snapshot(Step(s, op).store.rows, id), op.now + op.leaseMs)
    ensures Snapshot(Step(s, op).store.rows, id) in Step(s, op).issued
  {
    ChosenIsDue(s, op, id);
    hide Chosen, InsertAll;
    assert NextRows(s, op) == ClaimRows(s.store.rows, Chosen(s, op), op.now + op.leaseMs);
    hide NextRows;
  }

  /** A claimed job stays its holder's, and is issued to nobody else, until the holder settles it or a
      sweep runs with a clock past the last lease granted to it. */
  lemma {:induction false} LeaseHolds(ops: seq<Op>, i: nat, k: nat, c: ClaimedJob)
    requires ValidRun(ops) && i < k <= |ops| && IssuedAt(ops, i, c) && ops[i].Claim?
    requires forall x | i < x < k :: !Settles(ops[x], c) && !Outruns(ops, i, x, c)
    ensures LeasedTo(Exec(ops[..k]).store.rows, c, LeaseOf(ops, i, k, c)) && c in Exec(ops[..k]).issued
    ensures k < |ops| ==> c.id !in Chosen(Exec(ops[..k]), ops[k])
    decreases k
  {
    hide Exec, Step, Inv, Legal, ValidRun, Chosen, LeasedTo;
    if k == i + 1 {
      StepOfRun(ops, i);
      ClaimLeases(Exec(ops[..i]), ops[i], c.id);
    } else {
      LeaseHolds(ops, i, k - 1, c);
      StepOfRun(ops, k - 1);
      assert !Settles(ops[k - 1], c) && !Outruns(ops, i, k - 1, c);
      LeasedStep(Exec(ops[..k - 1]), ops[k - 1], c, LeaseOf(ops, i, k - 1, c));
    }
    if k < |ops| {
      StepOfRun(ops, k);
      NotChosenAgain(Exec(ops[..k]), ops[k], c, LeaseOf(ops, i, k, c));
    }
  }

  lemma NotChosenAgain(s: System, op: Op, c: ClaimedJob, lease: int)
    requires LeasedTo(s.store.rows, c, lease)
    ensures c.id !in Chosen(s, op)
  {
    if op.Claim? {
      SelectIsReady(s.store.rows, op.queue, op.limit, op.now, op.keyLimit, op.fair);
    }
  }

  /** The first such sweep does end the lease: the job is pending from that clock on, or dead when it
      has no attempt left. */
  lemma SweepEndsLease(ops: seq<Op>, i: nat, x: nat, c: ClaimedJob)
    requires ValidRun(ops) && i < x < |ops| && IssuedAt(ops, i, c) && ops[i].Claim?
    requires forall y | i < y < x :: !Settles(ops[y], c) && !Outruns(ops, i, y, c)
    requires Outruns(ops, i, x, c)
    ensures var t := Exec(ops[..x + 1]).store.rows;
      c.id in t
      && if c.attempt < c.maxAttempts then t[c.id].status == Pending && t[c.id].availableAt == ops[x].now
         else t[c.id].status == Dead
  {
    hide Exec, Step, Legal, ValidRun, Chosen, IssuedAt;
    LeaseHolds(ops, i, x, c);
    StepOfRun(ops, x);
    SweptRow(Exec(ops[..x]), ops[x].now, c, LeaseOf(ops, i, x, c));
  }

  lemma SweptRow(s: System, now: int, c: ClaimedJob, lease: int)
    requires Inv(s) && c in s.issued && LeasedTo(s.store.rows, c, lease) && now > lease
    ensures var t := Step(s, Sweep(now)).store.rows;
      c.id in t
      && if c.attempt < c.maxAttempts then t[c.id].status == Pending && t[c.id].availableAt == now
         else t[c.id].status == Dead
  {
    assert Tracks(s.store.rows, c);
  }
}
