/** Fencing, retry budget and per-key cap of the job queue, over every run. */
module Fencing {
  import opened Orders
  import opened Claiming
  import opened JobQueue

  // ---- One step keeps the invariant -------------------------------------------------------------

  /** A claim, row by row: chosen rows were pending and move on by one, the others stay. */
  ghost predicate Claims(s: System, s': System, chosen: set<JobId>, leaseUntil: int) {
    var t, t' := s.store.rows, s'.store.rows;
    && t'.Keys == t.Keys && chosen <= t.Keys && s'.store.nextId == s.store.nextId
    && (forall id | id in chosen :: t[id].status == Pending && t'[id] == ClaimRow(t[id], leaseUntil))
    && (forall id | id in t && id !in chosen :: t'[id] == t[id])
    && (forall c :: c in s'.issued <==> c in s.issued || (c.id in chosen && c == Snapshot(t', c.id)))
  }

  lemma ClaimEffect(s: System, op: Op)
    requires op.Claim?
    ensures Claims(s, Step(s, op), Chosen(s, op), op.now + op.leaseMs)
  {
    SelectIsReady(s.store.rows, op.queue, op.limit, op.now, op.keyLimit, op.fair);
    assert Chosen(s, op) <= Candidates(s.store.rows, op.queue, op.now);
    hide Select;
  }

  lemma ClaimOwners(s: System, s': System, chosen: set<JobId>, leaseUntil: int)
    requires OwnersOk(s) && Claims(s, s', chosen, leaseUntil)
    ensures OwnersOk(s')
  {
    forall id | id in s'.store.rows && s'.store.rows[id].fence > 0 ensures HasOwner(s', id) {
      if id in chosen {
        assert Snapshot(s'.store.rows, id) in s'.issued;
      } else {
        assert HasOwner(s, id);
        var c :| c in s.issued && c.id == id && c.fence == s.store.rows[id].fence;
        assert c in s'.issued;
      }
    }
  }

  lemma ClaimSnapshots(s: System, s': System, chosen: set<JobId>, leaseUntil: int)
    requires RowsOk(s) && SnapshotsOk(s) && Claims(s, s', chosen, leaseUntil)
    ensures RowsOk(s') && SnapshotsOk(s')
  {
    forall c | c in s'.issued ensures c.id < s'.store.nextId && c.fence > 0 && Tracks(s'.store.rows, c) {
      if c in s.issued {
        assert Tracks(s.store.rows, c);
      } else {
        assert Budgeted(s.store.rows[c.id]);
      }
    }
  }

  lemma ClaimUnique(s: System, s': System, chosen: set<JobId>, leaseUntil: int)
    requires SnapshotsOk(s) && SnapshotsUnique(s) && Claims(s, s', chosen, leaseUntil)
    ensures SnapshotsUnique(s')
  {
    forall c, d | c in s'.issued && d in s'.issued && c.id == d.id && c.fence == d.fence ensures c == d {
      assert c in s.issued ==> Tracks(s.store.rows, c);
      assert d in s.issued ==> Tracks(s.store.rows, d);
    }
  }

  lemma ClaimKeepsInv(s: System, op: Op)
    requires Inv(s) && op.Claim?
    ensures Inv(Step(s, op))
  {
    hide Step, Chosen, Claims, RowsOk, OwnersOk, SnapshotsOk, SnapshotsUnique;
    ClaimEffect(s, op);
    ClaimOwners(s, Step(s, op), Chosen(s, op), op.now + op.leaseMs);
    ClaimSnapshots(s, Step(s, op), Chosen(s, op), op.now + op.leaseMs);
    ClaimUnique(s, Step(s, op), Chosen(s, op), op.now + op.leaseMs);
  }

  lemma PushKeepsInv(s: System, op: Op)
    requires Inv(s) && op.Push?
    ensures Inv(Step(s, op))
  {
    InsertAllFrame(s.store, op.jobs, op.now);
    var s' := Step(s, op);
    assert s'.issued == s.issued;
    forall id | id in s'.store.rows && s'.store.rows[id].fence > 0 ensures HasOwner(s', id) {
      assert HasOwner(s, id);
    }
  }

  /** A step that hands out no claim keeps the invariant when each surviving row keeps its
      fence and stays within what its owner's snapshot allows. */
  lemma RowwiseKeepsInv(s: System, s': System)
    requires Inv(s)
    requires s'.issued == s.issued && s'.store.nextId == s.store.nextId
    requires s'.store.rows.Keys <= s.store.rows.Keys
    requires forall id | id in s'.store.rows ::
      && s'.store.rows[id].fence == s.store.rows[id].fence
      && s'.store.rows[id].maxAttempts == s.store.rows[id].maxAttempts
      && Budgeted(s'.store.rows[id])
    requires forall c | c in s.issued && c.id in s'.store.rows && c.fence == s'.store.rows[c.id].fence ::
      Tracks(s'.store.rows, c)
    ensures Inv(s')
  {
    forall c | c in s'.issued ensures Tracks(s'.store.rows, c) {
      assert Tracks(s.store.rows, c);
    }
    forall id | id in s'.store.rows && s'.store.rows[id].fence > 0 ensures HasOwner(s', id) {
      assert HasOwner(s, id);
    }
  }

  lemma FailedRow(t: Table, c: ClaimedJob, at: int, id: JobId)
    requires id in t && Budgeted(t[id]) && Tracks(t, c) && c.fence > 0
    ensures var t' := FailRow(t, c, at);
      t'.Keys == t.Keys && t'[id].fence == t[id].fence && t'[id].maxAttempts == t[id].maxAttempts && Budgeted(t'[id])
  {
  }

  lemma FailedTracks(t: Table, c: ClaimedJob, at: int, d: ClaimedJob)
    requires Tracks(t, c) && Tracks(t, d) && (d.id == c.id && d.fence == c.fence ==> d == c)
    ensures Tracks(FailRow(t, c, at), d)
  {
  }

  lemma FailStep(s: System, c: ClaimedJob, at: int)
    ensures Step(s, Fail(c, at)) == s.(store := s.store.(rows := FailRow(s.store.rows, c, at)))
  {
    assert Step(s, Fail(c, at)).issued == s.issued;
    hide FailRow;
  }

  lemma FailKeepsInv(s: System, op: Op)
    requires Inv(s) && Legal(s, op) && op.Fail?
    ensures Inv(Step(s, op))
  {
    hide Step, FailRow, Tracks, Budgeted, OwnersOk;
    var t, t' := s.store.rows, FailRow(s.store.rows, op.c, op.retryAt);
    FailStep(s, op.c, op.retryAt);
    forall id | id in t
      ensures t'.Keys == t.Keys && t'[id].fence == t[id].fence && t'[id].maxAttempts == t[id].maxAttempts
        && Budgeted(t'[id])
    {
      FailedRow(t, op.c, op.retryAt, id);
    }
    forall d | d in s.issued ensures Tracks(t', d) {
      FailedTracks(t, op.c, op.retryAt, d);
    }
    FailedKeys(t, op.c, op.retryAt);
    RowwiseKeepsInv(s, Step(s, op));
  }

  lemma FailedKeys(t: Table, c: ClaimedJob, at: int)
    ensures FailRow(t, c, at).Keys == t.Keys
  {
  }

  lemma DeleteKeepsInv(s: System, op: Op)
    requires Inv(s) && (op.Ack? || op.PurgeDead?)
    ensures Inv(Step(s, op))
  {
    var s' := Step(s, op);
    assert s'.issued == s.issued;
    assert forall id | id in s'.store.rows :: id in s.store.rows && s'.store.rows[id] == s.store.rows[id];
    forall c | c in s.issued && c.id in s'.store.rows ensures Tracks(s'.store.rows, c) {
      assert Tracks(s.store.rows, c);
    }
    hide Step;
    RowwiseKeepsInv(s, s');
  }

  lemma SweepKeepsInv(s: System, op: Op)
    requires Inv(s) && op.Sweep?
    ensures Inv(Step(s, op))
  {
    hide OwnersOk, SnapshotsUnique;
    var s' := Step(s, op);
    assert s'.issued == s.issued;
    forall c | c in s.issued && c.id in s'.store.rows ensures Tracks(s'.store.rows, c) {
      assert Tracks(s.store.rows, c);
    }
    hide SnapshotsOk, Tracks;
    RowwiseKeepsInv(s, s');
  }

  lemma RequeueKeepsInv(s: System, op: Op)
    requires Inv(s) && op.Requeue?
    ensures Inv(Step(s, op))
  {
    hide OwnersOk, SnapshotsUnique;
    var s' := Step(s, op);
    assert s'.issued == s.issued;
    forall c | c in s.issued && c.id in s'.store.rows ensures Tracks(s'.store.rows, c) {
      assert Tracks(s.store.rows, c);
    }
    hide SnapshotsOk, Tracks;
    RowwiseKeepsInv(s, s');
  }

  lemma RenewKeepsInv(s: System, op: Op)
    requires Inv(s) && op.Renew?
    ensures Inv(Step(s, op))
  {
    hide OwnersOk, SnapshotsUnique;
    var s' := Step(s, op);
    assert s'.issued == s.issued;
    forall c | c in s.issued && c.id in s'.store.rows ensures Tracks(s'.store.rows, c) {
      assert Tracks(s.store.rows, c);
    }
    hide SnapshotsOk, Tracks;
    RowwiseKeepsInv(s, s');
  }

  lemma StepKeepsInv(s: System, op: Op)
    requires Inv(s) && Legal(s, op)
    ensures Inv(Step(s, op))
  {
    if op.Claim? {
      ClaimKeepsInv(s, op);
    } else if op.Push? {
      PushKeepsInv(s, op);
    } else if op.Fail? {
      FailKeepsInv(s, op);
    } else if op.Ack? || op.PurgeDead? {
      DeleteKeepsInv(s, op);
    } else if op.Sweep? {
      SweepKeepsInv(s, op);
    } else if op.Requeue? {
      RequeueKeepsInv(s, op);
    } else {
      RenewKeepsInv(s, op);
    }
  }

  lemma ValidPrefix(ops: seq<Op>, n: nat)
    requires ValidRun(ops) && n <= |ops|
    ensures ValidRun(ops[..n])
  {
    forall i | 0 <= i < n ensures Legal(Exec(ops[..n][..i]), ops[..n][i]) {
      assert ops[..n][..i] == ops[..i];
    }
  }

  lemma {:induction false} RunKeepsInv(ops: seq<Op>)
    requires ValidRun(ops)
    ensures Inv(Exec(ops))
  {
    if ops == [] {
      assert Exec([]) == Initial && Inv(Initial);
    } else {
      var n := |ops| - 1;
      assert Legal(Exec(ops[..n]), ops[n]);
      assert Exec(ops) == Step(Exec(ops[..n]), ops[n]);
      ValidPrefix(ops, n);
      RunKeepsInv(ops[..n]);
      StepKeepsInv(Exec(ops[..n]), ops[n]);
    }
    hide *;
  }

  lemma ExecUnfold(ops: seq<Op>, i: nat)
    requires i < |ops|
    ensures Exec(ops[..i + 1]) == Step(Exec(ops[..i]), ops[i])
  {
    assert ops[..i + 1][..i] == ops[..i];
  }

  // ---- Fencing --------------------------------------------------------------------------------------

  /** One step never lowers a fence, never resurrects an id, and never forgets a snapshot. */
  lemma StepIsMonotone(s: System, op: Op)
    requires Inv(s) && Legal(s, op)
    ensures var s' := Step(s, op);
      && s.store.nextId <= s'.store.nextId && s.issued <= s'.issued
      && (forall id | id in s'.store.rows && id < s.store.nextId :: id in s.store.rows)
      && (forall id | id in s.store.rows && id in s'.store.rows ::
            s'.store.rows[id].fence == s.store.rows[id].fence + (if id in Chosen(s, op) then 1 else 0)
            && s'.store.rows[id].maxAttempts == s.store.rows[id].maxAttempts)
  {
    if op.Push? {
      InsertAllFrame(s.store, op.jobs, op.now);
    }
    hide Select, InsertAll, HasOwner, Tracks;
  }

  /** The facts of step `i` of a run, in terms of the states around it. */
  lemma StepOfRun(ops: seq<Op>, i: nat)
    requires ValidRun(ops) && i < |ops|
    ensures var s, s' := Exec(ops[..i]), Exec(ops[..i + 1]);
      && Inv(s) && Inv(s') && Legal(s, ops[i]) && s' == Step(s, ops[i])
      && s.store.nextId <= s'.store.nextId && s.issued <= s'.issued
      && (forall id | id in s'.store.rows && id < s.store.nextId :: id in s.store.rows)
      && (forall id | id in s.store.rows && id in s'.store.rows ::
            s'.store.rows[id].fence == s.store.rows[id].fence + (if id in Chosen(s, ops[i]) then 1 else 0))
  {
    ExecUnfold(ops, i);
    assert Legal(Exec(ops[..i]), ops[i]);
    hide *;
    ValidPrefix(ops, i);
    RunKeepsInv(ops[..i]);
    StepKeepsInv(Exec(ops[..i]), ops[i]);
    StepIsMonotone(Exec(ops[..i]), ops[i]);
  }

  lemma {:induction false} NextIdGrows(ops: seq<Op>, i: nat, j: nat)
    requires ValidRun(ops) && i <= j <= |ops|
    ensures Exec(ops[..i]).store.nextId <= Exec(ops[..j]).store.nextId
    ensures Exec(ops[..i]).issued <= Exec(ops[..j]).issued
    decreases j - i
  {
    hide *;
    if i < j {
      StepOfRun(ops, j - 1);
      NextIdGrows(ops, i, j - 1);
    }
  }

  /** Over any stretch of a run, a job's fence never falls, and rises when the job is claimed. */
  lemma {:induction false} FencesIncrease(ops: seq<Op>, i: nat, j: nat, id: JobId)
    requires ValidRun(ops) && i <= j <= |ops|
    requires id < Exec(ops[..i]).store.nextId && id in Exec(ops[..j]).store.rows
    ensures id in Exec(ops[..i]).store.rows
    ensures Exec(ops[..i]).store.rows[id].fence <= Exec(ops[..j]).store.rows[id].fence
    ensures (exists k :: i <= k < j && id in Chosen(Exec(ops[..k]), ops[k]))
            ==> Exec(ops[..i]).store.rows[id].fence < Exec(ops[..j]).store.rows[id].fence
    decreases j - i
  {
    hide *;
    if i < j {
      NextIdGrows(ops, i, j - 1);
      StepOfRun(ops, j - 1);
      FencesIncrease(ops, i, j - 1, id);
    }
  }

  /** The claim at step `i` handed out the snapshot `c`. */
  ghost predicate IssuedAt(ops: seq<Op>, i: nat, c: ClaimedJob) {
    i < |ops| && c.id in Chosen(Exec(ops[..i]), ops[i]) && c.id in Exec(ops[..i + 1]).store.rows &&
    c == Snapshot(Exec(ops[..i + 1]).store.rows, c.id)
  }

  /** Snapshots carry the fence the claim left in the row. */
  lemma IssuedFence(ops: seq<Op>, i: nat, c: ClaimedJob)
    requires ValidRun(ops) && IssuedAt(ops, i, c)
    ensures c.id in Exec(ops[..i + 1]).store.rows && c.fence == Exec(ops[..i + 1]).store.rows[c.id].fence
    ensures c.id < Exec(ops[..i + 1]).store.nextId
    ensures c.id in Chosen(Exec(ops[..i]), ops[i])
  {
    var s := Exec(ops[..i + 1]);
    assert c == Snapshot(s.store.rows, c.id);
    assert c.id in Chosen(Exec(ops[..i]), ops[i]);
    hide Step;
    StepOfRun(ops, i);
  }

  /** A write carrying this snapshot changes nothing. */
  ghost predicate Harmless(s: System, c: ClaimedJob) {
    && Step(s, Ack(c)) == s
    && (forall at :: Step(s, Fail(c, at)) == s)
    && (forall now, ms :: Step(s, Renew([c], now, ms)) == s)
  }

  lemma MismatchIsHarmless(s: System, c: ClaimedJob)
    requires c.id in s.store.rows ==> s.store.rows[c.id].fence != c.fence
    ensures Harmless(s, c)
  {
    forall now, ms ensures Step(s, Renew([c], now, ms)) == s {
      var op := Renew([c], now, ms);
      assert Leases([c]) == [(c.id, c.fence)];
      assert NextRows(s, op) == s.store.rows;
      assert Step(s, op).issued == s.issued;
    }
    forall at ensures Step(s, Fail(c, at)) == s {
      assert NextRows(s, Fail(c, at)) == s.store.rows;
      assert Step(s, Fail(c, at)).issued == s.issued;
    }
    assert Step(s, Ack(c)).issued == s.issued;
  }

  /** Once a later claim of the same job has happened, the earlier worker's ack, failure or
      renewal is a no-op in every later state. */
  lemma SupersededWritesAreNoOps(ops: seq<Op>, i: nat, k: nat, c: ClaimedJob, d: ClaimedJob)
    requires ValidRun(ops) && i < k < |ops|
    requires IssuedAt(ops, i, c) && IssuedAt(ops, k, d) && c.id == d.id
    ensures c.fence < d.fence
    ensures Harmless(Exec(ops), c)
  {
    hide *;
    IssuedFence(ops, i, c);
    IssuedFence(ops, k, d);
    FencesIncrease(ops, i + 1, k + 1, c.id);
    assert ops[..|ops|] == ops;
    if c.id in Exec(ops).store.rows {
      FencesIncrease(ops, k + 1, |ops|, c.id);
    }
    MismatchIsHarmless(Exec(ops), c);
  }

  /** No later claim of the job was ever issued. */
  ghost predicate Latest(s: System, c: ClaimedJob) { forall d | d in s.issued && d.id == c.id :: d.fence <= c.fence }

  /** The worker's failure, or its renewal, can change the store. */
  ghost predicate FailCounts(s: System, c: ClaimedJob) { exists at :: Step(s, Fail(c, at)) != s }

  ghost predicate RenewCounts(s: System, c: ClaimedJob) { exists now, ms :: Step(s, Renew([c], now, ms)) != s }

  /** Failing for the last time a job that is dead already. */
  predicate AlreadyDead(c: ClaimedJob, j: Job) { c.attempt >= c.maxAttempts && j.status == Dead && j.leaseUntil.None? }

  lemma LatestIffFence(ops: seq<Op>, c: ClaimedJob)
    requires ValidRun(ops) && c in Exec(ops).issued && c.id in Exec(ops).store.rows
    ensures Latest(Exec(ops), c) <==> Exec(ops).store.rows[c.id].fence == c.fence
  {
    RunKeepsInv(ops);
    hide Exec;
    assert HasOwner(Exec(ops), c.id);
  }

  lemma MatchingFail(s: System, c: ClaimedJob)
    requires c.id in s.store.rows && s.store.rows[c.id].fence == c.fence
    ensures FailCounts(s, c) <==> !AlreadyDead(c, s.store.rows[c.id])
  {
    var j := s.store.rows[c.id];
    if AlreadyDead(c, j) {
      forall at ensures Step(s, Fail(c, at)) == s {
        assert NextRows(s, Fail(c, at)) == s.store.rows;
        assert Step(s, Fail(c, at)).issued == s.issued;
      }
    } else {
      var at := j.availableAt + 1;
      assert Step(s, Fail(c, at)).store.rows[c.id] != j;
      assert Step(s, Fail(c, at)) != s;
    }
  }

  lemma MatchingRenew(s: System, c: ClaimedJob)
    requires c.id in s.store.rows && s.store.rows[c.id].fence == c.fence
    ensures RenewCounts(s, c) <==> s.store.rows[c.id].status == Running
  {
    var j := s.store.rows[c.id];
    assert Leases([c]) == [(c.id, c.fence)];
    if j.status == Running {
      var now := if j.leaseUntil.Some? then j.leaseUntil.value + 1 else 0;
      assert Step(s, Renew([c], now, 0)).store.rows[c.id].leaseUntil != j.leaseUntil;
      assert Step(s, Renew([c], now, 0)) != s;
    } else {
      forall now, ms ensures Step(s, Renew([c], now, ms)) == s {
        var op := Renew([c], now, ms);
        assert NextRows(s, op) == s.store.rows;
        assert Step(s, op).issued == s.issued;
      }
    }
  }

  /** Exactly the latest claim of a stored job can still write to it: its acknowledgement always
      counts, its failure unless it would kill a dead job, its renewal while the job runs. */
  lemma WritableIffLatest(ops: seq<Op>, c: ClaimedJob)
    requires ValidRun(ops) && c in Exec(ops).issued && c.id in Exec(ops).store.rows
    ensures var s := Exec(ops); var j := s.store.rows[c.id];
      && (Step(s, Ack(c)) != s <==> Latest(s, c))
      && (FailCounts(s, c) <==> Latest(s, c) && !AlreadyDead(c, j))
      && (RenewCounts(s, c) <==> Latest(s, c) && j.status == Running)
  {
    hide Exec, ValidRun, Latest;
    var s := Exec(ops);
    LatestIffFence(ops, c);
    if s.store.rows[c.id].fence == c.fence {
      MatchingFail(s, c);
      MatchingRenew(s, c);
      AckOne(s, c);
    } else {
      MismatchIsHarmless(s, c);
    }
    hide Step;
  }

  lemma PushOne(job: PushJob)
    requires job.debounceKey.None?
    ensures Step(Initial, Push([job], 0)).store.rows == map[0 := NewRow(Initial.store, job, 0)]
    ensures Step(Initial, Push([job], 0)).issued == {}
  {
    assert [job][..0] == [];
    assert InsertAll(Initial.store, [job][..0], 0) == Initial.store;
    assert InsertAll(Initial.store, [job], 0) == Insert(Initial.store, job, 0);
  }

  lemma ClaimOne(s: System, row: Job, leaseMs: int)
    requires s.store.rows == map[0 := row] && row.status == Pending && row.availableAt <= 0
    ensures var s' := Step(s, Claim(row.queue, 1, 0, leaseMs, None, false));
      s'.store.rows == map[0 := ClaimRow(row, leaseMs)] && Snapshot(s'.store.rows, 0) in s'.issued
  {
    var t, op := s.store.rows, Claim(row.queue, 1, 0, leaseMs, None, false);
    assert Candidates(t, row.queue, 0) == {0};
    assert Below({0}, (x: nat, y: nat) => Before(t, x, y), 0) == {};
    assert Chosen(s, op) == {0};
    assert Step(s, op).store.rows == map[0 := ClaimRow(row, leaseMs)];
  }

  lemma SweepOne(s: System, row: Job, now: int)
    requires s.store.rows == map[0 := row]
    ensures Step(s, Sweep(now)).store.rows == map[0 := SweepRow(row, now)]
    ensures Step(s, Sweep(now)).issued == s.issued
  {
  }

  /** A swept job keeps its fence, so the claim that lost its lease can still delete the
      job while it is pending; only a later claim shuts it out. */
  lemma SweptClaimCanStillAck() returns (ops: seq<Op>, c: ClaimedJob)
    ensures
      && ValidRun(ops) && c in Exec(ops).issued && c.id in Exec(ops).store.rows
      && Exec(ops).store.rows[c.id].status == Pending
      && c.id !in Step(Exec(ops), Ack(c)).store.rows
  {
    var job := PushJob("q", "p", 0, 0, 2, None, None, None, None);
    var row := Job("q", "p", Pending, 0, 0, 2, 0, None, 0, None, None);
    var claimed := row.(status := Running, attempt := 1, leaseUntil := Some(10), fence := 1);
    assert row == NewRow(Initial.store, job, 0) && claimed == ClaimRow(row, 10);
    assert SweepRow(claimed, 11) == claimed.(status := Pending, leaseUntil := None, availableAt := 11);
    ops := [Push([job], 0), Claim("q", 1, 0, 10, None, false), Sweep(11)];
    c := ClaimedJob(0, 1, 1, 2);
    assert ops[..0] == [] && ops[..3] == ops;
    assert Exec([]) == Initial;
    assert c == Snapshot(map[0 := claimed], 0);
    hide *;
    NoWorkerOps(ops);
    ExecUnfold(ops, 0);
    ExecUnfold(ops, 1);
    ExecUnfold(ops, 2);
    PushOne(job);
    ClaimOne(Exec(ops[..1]), row, 10);
    SweepOne(Exec(ops[..2]), claimed, 11);
    AckOne(Exec(ops), c);
  }

  lemma RequeueOne(s: System, row: Job, now: int)
    requires s.store.rows == map[0 := row] && row.status == Dead
    ensures Step(s, Requeue({0}, now)).store.rows == map[0 := row.(status := Pending, attempt := 0, availableAt := now)]
    ensures Step(s, Requeue({0}, now)).issued == s.issued
  {
  }

  lemma FailOne(s: System, c: ClaimedJob, at: int)
    requires c.id in s.store.rows && s.store.rows[c.id].fence == c.fence && c.attempt >= c.maxAttempts
    ensures c.id in Step(s, Fail(c, at)).store.rows && Step(s, Fail(c, at)).store.rows[c.id].status == Dead
  {
  }

  /** A requeue does not raise the fence, so a late failure of the old claim kills the requeued
      job again before anyone has claimed it. */
  lemma LateFailureKillsRequeuedJob(at: int) returns (ops: seq<Op>, c: ClaimedJob)
    ensures
      && ValidRun(ops) && c in Exec(ops).issued && c.id in Exec(ops).store.rows
      && Exec(ops).store.rows[c.id].status == Pending && Exec(ops).store.rows[c.id].attempt == 0
      && c.id in Step(Exec(ops), Fail(c, at)).store.rows
      && Step(Exec(ops), Fail(c, at)).store.rows[c.id].status == Dead
  {
    var job := PushJob("q", "p", 0, 0, 1, None, None, None, None);
    var row := Job("q", "p", Pending, 0, 0, 1, 0, None, 0, None, None);
    var claimed := row.(status := Running, attempt := 1, leaseUntil := Some(10), fence := 1);
    var dead := claimed.(status := Dead, leaseUntil := None);
    assert row == NewRow(Initial.store, job, 0) && claimed == ClaimRow(row, 10) && SweepRow(claimed, 11) == dead;
    ops := [Push([job], 0), Claim("q", 1, 0, 10, None, false), Sweep(11), Requeue({0}, 12)];
    c := ClaimedJob(0, 1, 1, 1);
    assert ops[..0] == [] && ops[..4] == ops;
    assert Exec([]) == Initial;
    assert c == Snapshot(map[0 := claimed], 0);
    hide *;
    NoWorkerOps(ops);
    ExecUnfold(ops, 0);
    ExecUnfold(ops, 1);
    ExecUnfold(ops, 2);
    ExecUnfold(ops, 3);
    PushOne(job);
    ClaimOne(Exec(ops[..1]), row, 10);
    SweepOne(Exec(ops[..2]), claimed, 11);
    RequeueOne(Exec(ops[..3]), dead, 12);
    FailOne(Exec(ops), c, at);
  }

  lemma NoWorkerOps(ops: seq<Op>)
    requires forall op | op in ops :: !op.Ack? && !op.Fail? && !op.Renew?
    ensures ValidRun(ops)
  {
    hide Exec;
  }

  lemma AckOne(s: System, c: ClaimedJob)
    requires c.id in s.store.rows && s.store.rows[c.id].fence == c.fence
    ensures c.id !in Step(s, Ack(c)).store.rows
  {
  }

  // ---- Retry budget ------------------------------------------------------------------------------------

  /** The step requeues the dead job `id`. */
  predicate Resets(s: System, op: Op, id: JobId) {
    op.Requeue? && id in op.ids && id in s.store.rows && s.store.rows[id].status == Dead
  }

  /** Claims of `id` since it was inserted or last requeued. */
  ghost function ClaimsSinceReset(ops: seq<Op>, id: JobId): nat {
    if ops == [] then 0
    else
      var n := |ops| - 1;
      var s, op := Exec(ops[..n]), ops[n];
      var before := ClaimsSinceReset(ops[..n], id);
      if id in Chosen(s, op) then before + 1
      else if Resets(s, op, id) then 0
      else before
  }

  /** How one step moves a row's attempt counter. */
  lemma StepMovesAttempt(s: System, op: Op, id: JobId)
    requires Inv(s) && Legal(s, op)
    ensures var s' := Step(s, op);
      id in s'.store.rows ==>
        if id >= s.store.nextId then s'.store.rows[id].attempt == 0 && id !in Chosen(s, op)
        else
          id in s.store.rows &&
          s'.store.rows[id].attempt ==
            if id in Chosen(s, op) then s.store.rows[id].attempt + 1
            else if Resets(s, op, id) then 0
            else s.store.rows[id].attempt
    ensures id >= s.store.nextId ==> id !in Chosen(s, op) && !Resets(s, op, id)
  {
    if op.Push? {
      InsertAllFrame(s.store, op.jobs, op.now);
    }
  }

  lemma ClaimsUnfold(ops: seq<Op>, n: nat, id: JobId)
    requires n < |ops|
    ensures var s, op, before := Exec(ops[..n]), ops[n], ClaimsSinceReset(ops[..n], id);
      ClaimsSinceReset(ops[..n + 1], id)
      == if id in Chosen(s, op) then before + 1 else if Resets(s, op, id) then 0 else before
  {
    assert ops[..n + 1][..n] == ops[..n];
    hide Exec, Chosen, Resets;
  }

  lemma ClaimsStart(ops: seq<Op>, id: JobId)
    ensures Exec(ops[..0]) == Initial && ClaimsSinceReset(ops[..0], id) == 0
    ensures Exec(ops[..0]).store.rows == map[]
  {
  }

  /** In every reachable state each row is within its budget: a pending row has an attempt
      left, a running row has used between one and all of them. */
  lemma BudgetHolds(ops: seq<Op>, id: JobId)
    requires ValidRun(ops) && id in Exec(ops).store.rows
    ensures Budgeted(Exec(ops).store.rows[id])
    ensures Exec(ops).store.rows[id].attempt <= Exec(ops).store.rows[id].maxAttempts
  {
    RunKeepsInv(ops);
    hide Exec;
  }

  /** The stored attempt counts exactly the claims since insertion or requeue, and never
      passes the budget, with zombies present. */
  lemma {:induction false} AttemptCountsClaims(ops: seq<Op>, n: nat, id: JobId)
    requires ValidRun(ops) && n <= |ops|
    ensures id >= Exec(ops[..n]).store.nextId ==> ClaimsSinceReset(ops[..n], id) == 0
    ensures id in Exec(ops[..n]).store.rows ==>
      ClaimsSinceReset(ops[..n], id)
        == Exec(ops[..n]).store.rows[id].attempt <= Exec(ops[..n]).store.rows[id].maxAttempts
  {
    hide *;
    ClaimsStart(ops, id);
    if n > 0 {
      AttemptCountsClaims(ops, n - 1, id);
      StepOfRun(ops, n - 1);
      StepMovesAttempt(Exec(ops[..n - 1]), ops[n - 1], id);
      ClaimsUnfold(ops, n - 1, id);
      if id in Exec(ops[..n]).store.rows {
        ValidPrefix(ops, n);
        BudgetHolds(ops[..n], id);
      }
    }
  }

  // ---- Dead letters ----------------------------------------------------------------------------------

  /** One step leaves a dead job dead or removes it, unless it is requeued: in particular no
      late failure report of an old worker revives it. */
  lemma StepKeepsDead(s: System, op: Op, id: JobId)
    requires Inv(s) && Legal(s, op)
    requires id in s.store.rows && s.store.rows[id].status == Dead && !Resets(s, op, id)
    ensures var t := Step(s, op).store.rows; id in t ==> t[id].status == Dead
  {
    if op.Push? {
      InsertAllFrame(s.store, op.jobs, op.now);
    } else if op.Fail? {
      assert Tracks(s.store.rows, op.c);
    }
  }

  lemma {:induction false} DeadStaysDead(ops: seq<Op>, i: nat, j: nat, id: JobId)
    requires ValidRun(ops) && i <= j <= |ops|
    requires id in Exec(ops[..i]).store.rows && Exec(ops[..i]).store.rows[id].status == Dead
    requires forall k | i <= k < j :: !Resets(Exec(ops[..k]), ops[k], id)
    ensures id in Exec(ops[..j]).store.rows ==> Exec(ops[..j]).store.rows[id].status == Dead
    decreases j - i
  {
    hide *;
    assert i < j ==> !Resets(Exec(ops[..j - 1]), ops[j - 1], id);
    if i < j {
      DeadStaysDead(ops, i, j - 1, id);
      StepOfRun(ops, i);
      NextIdBounds(ops, i, id);
      NextIdGrows(ops, i, j - 1);
      StepOfRun(ops, j - 1);
      if id in Exec(ops[..j - 1]).store.rows {
        StepKeepsDead(Exec(ops[..j - 1]), ops[j - 1], id);
      }
    }
  }

  lemma NextIdBounds(ops: seq<Op>, i: nat, id: JobId)
    requires ValidRun(ops) && i <= |ops| && id in Exec(ops[..i]).store.rows
    ensures id < Exec(ops[..i]).store.nextId
  {
    ValidPrefix(ops, i);
    RunKeepsInv(ops[..i]);
    hide Exec;
  }

  // ---- Per-key concurrency cap ------------------------------------------------------------------------

  /** Only a claim adds running rows, and it adds the rows it chose. */
  lemma StepRunning(s: System, op: Op, queue: string, key: string)
    requires Inv(s) && Legal(s, op)
    ensures var before := RunningWith(s.store.rows, queue, Some(key));
      var after := RunningWith(Step(s, op).store.rows, queue, Some(key));
      after <= if op.Claim? && op.queue == queue then before + Group(s.store.rows, Chosen(s, op), Some(key)) else before
  {
    if op.Push? {
      InsertAllFrame(s.store, op.jobs, op.now);
    } else if op.Claim? {
      SelectIsReady(s.store.rows, op.queue, op.limit, op.now, op.keyLimit, op.fair);
    }
  }

  lemma StepKeepsCap(s: System, op: Op, queue: string, k: nat, key: string)
    requires Inv(s) && Legal(s, op)
    requires op.Claim? && op.queue == queue ==> op.keyLimit == Some(k)
    requires |RunningWith(s.store.rows, queue, Some(key))| <= k
    ensures |RunningWith(Step(s, op).store.rows, queue, Some(key))| <= k
  {
    StepRunning(s, op, queue, key);
    var before := RunningWith(s.store.rows, queue, Some(key));
    var after := RunningWith(Step(s, op).store.rows, queue, Some(key));
    if op.Claim? && op.queue == queue {
      var taken := Group(s.store.rows, Chosen(s, op), Some(key));
      SelectRespectsCap(s.store.rows, queue, op.limit, op.now, k, op.fair, key);
      hide Step, Select, Group, RunningWith;
      SubsetSize(after, before + taken);
      UnionSize(before, taken);
    } else {
      hide Step;
      SubsetSize(after, before);
    }
  }

  lemma UnionSize<T>(a: set<T>, b: set<T>)
    ensures |a + b| <= |a| + |b|
  {
    assert a + b == a + (b - a);
    SubsetSize(b - a, b);
  }

  /** If every claim on a queue uses the same per-key limit, then in every reachable state no
      concurrency key has more than that many running jobs. */
  lemma {:induction false} KeyCapHolds(ops: seq<Op>, n: nat, queue: string, k: nat, key: string)
    requires ValidRun(ops) && n <= |ops|
    requires forall op | op in ops && op.Claim? && op.queue == queue :: op.keyLimit == Some(k)
    ensures |RunningWith(Exec(ops[..n]).store.rows, queue, Some(key))| <= k
  {
    assert RunningWith(Initial.store.rows, queue, Some(key)) == {};
    hide *;
    if n == 0 {
      ClaimsStart(ops, 0);
    } else {
      KeyCapHolds(ops, n - 1, queue, k, key);
      StepOfRun(ops, n - 1);
      StepKeepsCap(Exec(ops[..n - 1]), ops[n - 1], queue, k, key);
    }
  }
}
