/** The store object: each method updates the tables in place and is proved against the
    statement functions of `JobQueue`. */
module JobStores {
  import opened Orders
  import opened Claiming
  import opened JobQueue

  /** Positions `i < j` hold rows in dispatch order. */
  ghost predicate InDispatchOrder(t: Table, ids: seq<JobId>) {
    forall i, j | 0 <= i < j < |ids| :: Before(t, ids[i], ids[j])
  }

  ghost function Members(ids: seq<JobId>): set<JobId> { set id | id in ids }

  /** Rows a requeue request brings back. */
  function DeadAmong(t: Table, ids: set<JobId>): set<JobId> {
    set id | id in ids && id in t && t[id].status == Dead
  }

  /** The table after a worker settles a whole group of jobs. */
  function SettleGroup(t: Table, group: seq<ClaimedJob>, ok: bool, retryAt: ClaimedJob -> int): Table {
    if group == [] then t
    else
      var n := |group| - 1;
      var before, c := SettleGroup(t, group[..n], ok, retryAt), group[n];
      if ok then AckRow(before, c.id, c.fence) else FailRow(before, c, retryAt(c))
  }

  /** Placing `x` between its predecessors and successors keeps dispatch order. */
  lemma InsertionKeepsOrder(t: Table, sorted: seq<JobId>, p: nat, x: JobId)
    requires InDispatchOrder(t, sorted) && p <= |sorted| && x in t && x !in sorted
    requires forall id | id in sorted :: id in t
    requires forall i | 0 <= i < p :: Before(t, sorted[i], x)
    requires p < |sorted| ==> !Before(t, sorted[p], x)
    ensures InDispatchOrder(t, sorted[..p] + [x] + sorted[p..])
    ensures Members(sorted[..p] + [x] + sorted[p..]) == Members(sorted) + {x}
  {
    var r := sorted[..p] + [x] + sorted[p..];
    forall i | p <= i < |sorted| ensures Before(t, x, sorted[i]) {
      assert sorted[p] in sorted && sorted[i] in sorted;
      SortsAfter(t, x, sorted[p], sorted[i]);
    }
    hide Before;
    forall i, j | 0 <= i < j < |r| ensures Before(t, r[i], r[j]) {
      assert r[i] == if i < p then sorted[i] else if i == p then x else sorted[i - 1];
      assert r[j] == if j < p then sorted[j] else if j == p then x else sorted[j - 1];
    }
    assert sorted == sorted[..p] + sorted[p..];
  }

  lemma SortsAfter(t: Table, x: JobId, a: JobId, b: JobId)
    requires x in t && a in t && a != x && !Before(t, a, x) && (a == b || Before(t, a, b))
    ensures Before(t, x, b)
  {
  }

  /** `RETURNING` loses the query's order: insertion into (priority DESC, id ASC) order restores it. */
  method SortForDispatch(t: Table, ids: set<JobId>) returns (sorted: seq<JobId>)
    requires ids <= t.Keys
    ensures InDispatchOrder(t, sorted) && Members(sorted) == ids && |sorted| == |ids|
  {
    sorted := [];
    var rest := ids;
    while rest != {}
      invariant rest <= ids && Members(sorted) == ids - rest
      invariant InDispatchOrder(t, sorted) && |sorted| == |ids| - |rest|
      decreases |rest|
    {
      var x :| x in rest;
      assert x in t && x !in Members(sorted);
      assert forall id | id in sorted :: id in Members(sorted);
      hide Before, InDispatchOrder;
      var p := 0;
      while p < |sorted| && Before(t, sorted[p], x)
        invariant 0 <= p <= |sorted|
        invariant forall i | 0 <= i < p :: Before(t, sorted[i], x)
      {
        p := p + 1;
      }
      InsertionKeepsOrder(t, sorted, p, x);
      sorted := sorted[..p] + [x] + sorted[p..];
      rest := rest - {x};
    }
  }

  class JobStore {
    var rows: Table
    var cursors: map<(string, string), int>
    var nextId: JobId

    ghost function State(): (s: Store)
      reads this
    {
      Store(rows, cursors, nextId)
    }

    constructor ()
      ensures State() == Initial.store
    {
      rows, cursors, nextId := map[], map[], 0;
    }

    /** Debounce, throttle, then insert one row. */
    method InsertRow(job: PushJob, now: int) returns (id: JobId)
      modifies this
      ensures State() == Insert(old(State()), job, now)
      ensures id == old(nextId)
    {
      if job.debounceKey.Some? {
        rows := map id | id in rows &&
          !(rows[id].queue == job.queue && rows[id].status == Pending && rows[id].debounceKey == job.debounceKey)
          :: rows[id];
      }
      var availableAt := now + Max(job.delayMs, 0);
      if job.throttleKey.Some? && job.throttleSpacingMs.Some? {
        var slot := (job.queue, job.throttleKey.value);
        var start := Max(if slot in cursors then cursors[slot] else now, now);
        availableAt := start;
        cursors := cursors[slot := start + Max(job.throttleSpacingMs.value, 0)];
      }
      id := nextId;
      rows := rows[id := Job(job.queue, job.payload, Pending, job.priority, 0, Max(job.maxAttempts, 1),
                             availableAt, None, 0, job.key, job.debounceKey)];
      nextId := nextId + 1;
    }

    /** One transaction: each job in turn. */
    method Push(jobs: seq<PushJob>, now: int) returns (ids: seq<JobId>)
      modifies this
      ensures State() == InsertAll(old(State()), jobs, now)
      ensures |ids| == |jobs| && forall i | 0 <= i < |ids| :: ids[i] == old(nextId) + i
    {
      ids := [];
      for n := 0 to |jobs|
        invariant State() == InsertAll(old(State()), jobs[..n], now)
        invariant |ids| == n && nextId == old(nextId) + n
        invariant forall i | 0 <= i < n :: ids[i] == old(nextId) + i
      {
        assert jobs[..n + 1][..n] == jobs[..n];
        var id := InsertRow(jobs[n], now);
        ids := ids + [id];
      }
      assert jobs[..|jobs|] == jobs;
    }

    method ClaimJobs(queue: string, limit: nat, now: int, leaseMs: int, keyLimit: Option<nat>, fair: bool)
      returns (jobs: seq<ClaimedJob>)
      modifies this`rows
      ensures rows == ClaimRows(old(rows), Select(old(rows), queue, limit, now, keyLimit, fair), now + leaseMs)
      ensures forall c :: c in jobs <==>
                exists id :: id in Select(old(rows), queue, limit, now, keyLimit, fair) && id in rows
                  && c == Snapshot(rows, id)
      ensures forall i, j | 0 <= i < j < |jobs| :: Before(rows, jobs[i].id, jobs[j].id)
      ensures |jobs| <= limit
    {
      var picked := Select(rows, queue, limit, now, keyLimit, fair);
      SelectIsReady(rows, queue, limit, now, keyLimit, fair);
      ClaimFillsLimit(rows, queue, limit, now, keyLimit, fair);
      rows := map id | id in rows :: if id in picked then ClaimRow(rows[id], now + leaseMs) else rows[id];
      var order := SortForDispatch(rows, picked);
      assert forall i | 0 <= i < |order| :: order[i] in Members(order);
      jobs := seq(|order|, i requires 0 <= i < |order| && order[i] in rows reads this => Snapshot(rows, order[i]));
      forall id | id in picked ensures Snapshot(rows, id) in jobs {
        assert id in Members(order);
        var i :| 0 <= i < |order| && order[i] == id;
        assert jobs[i] == Snapshot(rows, id);
      }
    }

    method Ack(id: JobId, fence: nat)
      modifies this`rows
      ensures rows == AckRow(old(rows), id, fence)
    {
      if id in rows && rows[id].fence == fence {
        rows := rows - {id};
      }
    }

    method FailRetry(id: JobId, availableAt: int, fence: nat)
      modifies this`rows
      ensures rows == RetryRow(old(rows), id, availableAt, fence)
    {
      if id in rows && rows[id].fence == fence {
        rows := rows[id := rows[id].(status := Pending, availableAt := availableAt, leaseUntil := None)];
      }
    }

    method FailDead(id: JobId, fence: nat)
      modifies this`rows
      ensures rows == KillRow(old(rows), id, fence)
    {
      if id in rows && rows[id].fence == fence {
        rows := rows[id := rows[id].(status := Dead, leaseUntil := None)];
      }
    }

    /** A worker settles its group: ack all, or fail each against its own snapshot budget; a retry
        waits for that job's own back-off. */
    method RunGroup(group: seq<ClaimedJob>, ok: bool, retryAt: ClaimedJob -> int)
      modifies this`rows
      ensures rows == SettleGroup(old(rows), group, ok, retryAt)
    {
      for n := 0 to |group|
        invariant rows == SettleGroup(old(rows), group[..n], ok, retryAt)
      {
        var c := group[n];
        assert group[..n + 1][..n] == group[..n];
        if ok {
          Ack(c.id, c.fence);
        } else if c.attempt >= c.maxAttempts {
          FailDead(c.id, c.fence);
        } else {
          FailRetry(c.id, retryAt(c), c.fence);
        }
      }
      assert group[..|group|] == group;
    }

    method RenewLeases(leases: seq<(JobId, nat)>, now: int, leaseMs: int)
      modifies this`rows
      ensures rows == RenewRows(old(rows), leases, now + leaseMs)
    {
      for n := 0 to |leases|
        invariant rows == RenewRows(old(rows), leases[..n], now + leaseMs)
      {
        var (id, fence) := leases[n];
        if id in rows && rows[id].status == Running && rows[id].fence == fence {
          rows := rows[id := rows[id].(leaseUntil := Some(now + leaseMs))];
        }
        assert leases[..n + 1] == leases[..n] + [leases[n]];
      }
      assert leases[..|leases|] == leases;
    }

    /** Two statements: exhausted rows die, then every other expired row is pending again. */
    method SweepExpired(now: int) returns (swept: nat)
      modifies this`rows
      ensures rows == SweepRows(old(rows), now)
      ensures swept == |set id | id in old(rows) && Expired(old(rows)[id], now)|
    {
      var dead := set id | id in rows && Expired(rows[id], now) && rows[id].attempt >= rows[id].maxAttempts;
      rows := map id | id in rows ::
        if Expired(rows[id], now) && rows[id].attempt >= rows[id].maxAttempts
        then rows[id].(status := Dead, leaseUntil := None) else rows[id];
      var retried := set id | id in rows && Expired(rows[id], now);
      assert dead + retried == set id | id in old(rows) && Expired(old(rows)[id], now);
      swept := |dead| + |retried|;
      rows := map id | id in rows ::
        if Expired(rows[id], now) then rows[id].(status := Pending, leaseUntil := None, availableAt := now)
          else rows[id];
    }

    method RequeueDead(ids: seq<JobId>, now: int) returns (changed: nat)
      modifies this`rows
      ensures rows == RequeueRows(old(rows), Members(ids), now)
      ensures changed == |DeadAmong(old(rows), Members(ids))|
    {
      changed := 0;
      assert DeadAmong(rows, Members(ids[..0])) == {};
      for n := 0 to |ids|
        invariant rows == RequeueRows(old(rows), Members(ids[..n]), now)
        invariant changed == |DeadAmong(old(rows), Members(ids[..n]))|
      {
        var id := ids[n];
        assert Members(ids[..n + 1]) == Members(ids[..n]) + {id};
        RequeueOneMore(old(rows), Members(ids[..n]), id, now);
        if id in rows && rows[id].status == Dead {
          rows := rows[id := rows[id].(status := Pending, attempt := 0, availableAt := now)];
          changed := changed + 1;
        }
      }
      assert ids[..|ids|] == ids;
    }

    method PurgeDead(queue: string) returns (purged: nat)
      modifies this`rows
      ensures rows == PurgeRows(old(rows), queue)
      ensures forall id | id in old(rows) ::
        if old(rows)[id].queue == queue && old(rows)[id].status == Dead then id !in rows
        else id in rows && rows[id] == old(rows)[id]
      ensures purged == |old(rows)| - |rows|
    {
      var dead := set id | id in rows && rows[id].queue == queue && rows[id].status == Dead;
      purged := |dead|;
      rows := map id | id in rows && !(rows[id].queue == queue && rows[id].status == Dead) :: rows[id];
      assert old(rows).Keys == rows.Keys + dead && rows.Keys !! dead;
    }
  }

  lemma RequeueOneMore(t: Table, ids: set<JobId>, id: JobId, now: int)
    ensures var u := RequeueRows(t, ids, now);
      var more := RequeueRows(t, ids + {id}, now);
      if id in u && u[id].status == Dead
      then more == u[id := u[id].(status := Pending, attempt := 0, availableAt := now)]
           && |DeadAmong(t, ids + {id})| == |DeadAmong(t, ids)| + 1
      else more == u && DeadAmong(t, ids + {id}) == DeadAmong(t, ids)
  {
    var u := RequeueRows(t, ids, now);
    if id in u && u[id].status == Dead {
      assert DeadAmong(t, ids + {id}) == DeadAmong(t, ids) + {id};
    }
  }

  /** Settling a group: with distinct jobs, a successful group goes away and each job of a failed one
      is pending until its own retry time, or dead when its own claim was the last; a job claimed
      again meanwhile, and every other row, is left alone. */
  lemma {:induction false} GroupIsSettled(t: Table, group: seq<ClaimedJob>, ok: bool, retryAt: ClaimedJob -> int,
                                          id: JobId)
    requires id in t && forall i, j | 0 <= i < j < |group| :: group[i].id != group[j].id
    ensures var t' := SettleGroup(t, group, ok, retryAt);
      if exists i :: 0 <= i < |group| && group[i].id == id && group[i].fence == t[id].fence then
        var i :| 0 <= i < |group| && group[i].id == id && group[i].fence == t[id].fence;
        var c := group[i];
        if ok then id !in t'
        else id in t' && t'[id] == if c.attempt < c.maxAttempts
               then t[id].(status := Pending, availableAt := retryAt(c), leaseUntil := None)
               else t[id].(status := Dead, leaseUntil := None)
      else id in t' && t'[id] == t[id]
  {
    if group != [] {
      var n := |group| - 1;
      GroupIsSettled(t, group[..n], ok, retryAt, id);
      if exists i :: 0 <= i < n && group[..n][i].id == id && group[..n][i].fence == t[id].fence {
        var i :| 0 <= i < n && group[..n][i].id == id && group[..n][i].fence == t[id].fence;
        assert group[i].id == id && group[i].fence == t[id].fence && group[n].id != id;
      }
    }
  }
}
