/** What whole runs of the workflow engine guarantee. */
module EngineRuns {
  import opened Orders
  import opened Runs
  import opened CancelTree
  import opened WorkflowEngine
  import opened Wakeups

  // ---- Wakeups -------------------------------------------------------------------------------------

  /** Exactly one non-terminal child. */
  ghost predicate ParkedOnOne(e: Engine, p: RunId) {
    exists c :: ChildOf(e.runs, p, c) && Live(e.runs, c) &&
      forall d | ChildOf(e.runs, p, d) && Live(e.runs, d) :: d == c
  }

  /** In every reachable state, even when acks are lost: each runnable or sleeping run has a job
      that is not acknowledged, each run parked on a child has exactly one live child, and each
      live child's parent is parked. `Deliveries` says how long such a job can be delivered. */
  lemma NoLostWakeups(cfg: Configs, ops: seq<Op>, r: RunId)
    requires ValidRun(cfg, ops) && r in Exec(cfg, ops).runs
    ensures var e := Exec(cfg, ops); var row := e.runs[r];
      && (Awake(row.status) ==> r in e.jobs)
      && (row.status == WaitChild ==> ParkedOnOne(e, r))
      && (!Terminal(row.status) && row.parent.Some? ==>
            row.parent.value.0 in e.runs && e.runs[row.parent.value.0].status == WaitChild)
  {
    assert ops[..|ops|] == ops;
    RunKeepsInv(cfg, ops, |ops|, false);
    hide Exec;
    var e := Exec(cfg, ops);
    if e.runs[r].status == WaitChild {
      assert HasLiveChild(e, r);
      var c :| ChildOf(e.runs, r, c) && Live(e.runs, c);
      forall d | ChildOf(e.runs, r, d) && Live(e.runs, d) ensures d == c {
      }
    }
  }

  /** In every reachable state the two stores cancel the same runs, from whatever root. */
  lemma StoresCancelAlike(cfg: Configs, ops: seq<Op>, root: RunId)
    requires ValidRun(cfg, ops)
    ensures CancelSet(Exec(cfg, ops).runs, root) == PgCancelSet(Exec(cfg, ops).runs, root)
  {
    assert ops[..|ops|] == ops;
    RunKeepsInv(cfg, ops, |ops|, false);
    hide Exec;
    var t := Exec(cfg, ops).runs;
    forall x | x in t ensures !HidesLiveChild(t, root, x) {
      forall c | ChildOf(t, x, c) && Live(t, c) ensures Live(t, x) {
      }
    }
    StoresAgreeIff(t, root);
  }

  /** When no ack is lost, each runnable or sleeping run has exactly one job and each parked
      run has none. */
  lemma NoDuplicateWakeups(cfg: Configs, ops: seq<Op>, r: RunId)
    requires ValidRun(cfg, ops) && NoLostAcks(ops) && r in Exec(cfg, ops).runs
    ensures var e := Exec(cfg, ops); var row := e.runs[r];
      && (Awake(row.status) ==> e.jobs[r] == 1)
      && (row.status == WaitEvent || row.status == WaitChild ==> e.jobs[r] == 0)
  {
    assert ops[..|ops|] == ops;
    RunKeepsInv(cfg, ops, |ops|, true);
    hide Exec;
  }

  // ---- Finished rows and recorded steps never change ----------------------------------------------------

  ghost predicate TerminalKept(runs: RunTable, runs': RunTable) {
    forall r | r in runs && Terminal(runs[r].status) :: r in runs' && runs'[r] == runs[r]
  }

  predicate SameEntry(s: Step, s': Step) { s'.done && s'.kind == s.kind && s'.result == s.result }

  ghost predicate EntriesKept(steps: map<RunId, Journal>, steps': map<RunId, Journal>) {
    forall r, s | Done(steps, r, s) :: Done(steps', r, s) && SameEntry(steps[r][s], steps'[r][s])
  }

  ghost predicate Grows(e: Engine, e': Engine) {
    TerminalKept(e.runs, e'.runs) && EntriesKept(e.steps, e'.steps) && e.nextId <= e'.nextId
    && forall r | r in e'.runs && r < e.nextId :: r in e.runs
  }

  lemma GrowsTrans(a: Engine, b: Engine, c: Engine)
    requires Grows(a, b) && Grows(b, c)
    ensures Grows(a, c)
  {
    forall r, s | Done(a.steps, r, s) ensures Done(c.steps, r, s) && SameEntry(a.steps[r][s], c.steps[r][s]) {
      assert Done(b.steps, r, s);
    }
    hide Done;
  }

  lemma RecordGrows(e: Engine, r: RunId, s: StepId, kind: string, result: Option<Tokens>)
    ensures Grows(e, e.(steps := RecordIn(e.steps, r, s, kind, result)))
  {
  }

  lemma SetRunGrows(e: Engine, r: RunId, row: Run)
    requires r in e.runs && !Terminal(e.runs[r].status)
    ensures Grows(e, SetRun(e, r, row))
  {
  }

  lemma SettleGrows(e: Engine, child: RunId, result: Tokens)
    requires child in e.runs
    ensures Grows(e, SettleParent(e, child, result))
  {
    if e.runs[child].parent.Some? {
      var (p, s) := e.runs[child].parent.value;
      var e1 := e.(steps := RecordIn(e.steps, p, s, "invoke", Some(result)));
      RecordGrows(e, p, s, "invoke", Some(result));
      hide EntriesKept;
      if p in e.runs && e.runs[p].status == WaitChild {
        SetRunGrows(e1, p, e1.runs[p].(status := Runnable));
        GrowsTrans(e, e1, SetRun(e1, p, e1.runs[p].(status := Runnable)));
      }
    }
  }

  lemma EndGrows(e: Engine, r: RunId, row: Run, result: Tokens)
    requires r in e.runs && !Terminal(e.runs[r].status)
    ensures Grows(e, SettleParent(SetRun(e, r, row), r, result))
  {
    hide Grows, SettleParent;
    SetRunGrows(e, r, row);
    SettleGrows(SetRun(e, r, row), r, result);
    GrowsTrans(e, SetRun(e, r, row), SettleParent(SetRun(e, r, row), r, result));
  }

  lemma SpawnGrows(e: Engine, workflow: string, parent: Option<(RunId, StepId)>, idem: Option<IdemKey>)
    requires e.nextId !in e.runs
    ensures Grows(e, Spawn(e, workflow, parent, idem))
  {
  }

  lemma InvokeGrows(cfg: Configs, e: Engine, r: RunId, step: StepId, workflow: string)
    requires r in e.runs && !Terminal(e.runs[r].status) && e.nextId !in e.runs
    ensures Grows(e, InvokeChild(cfg, e, r, step, workflow))
  {
    hide Grows, SettleParent;
    if workflow !in cfg {
      var error := "step '" + step + "': unknown workflow '" + workflow + "'";
      EndGrows(e, r, Finished(e.runs[r], Failed).(error := Some(error)), ErrorResult(error));
    } else if KeyTaken(e.runs, workflow, InvokeKey(r, step)) {
      ReuseGrows(e, r, step, RunOfKey(e.runs, workflow, InvokeKey(r, step)));
    } else {
      var e1 := SetRun(e, r, e.runs[r].(status := WaitChild));
      SetRunGrows(e, r, e.runs[r].(status := WaitChild));
      SpawnGrows(e1, workflow, Some((r, step)), Some(InvokeKey(r, step)));
      GrowsTrans(e, e1, Spawn(e1, workflow, Some((r, step)), Some(InvokeKey(r, step))));
    }
  }

  lemma ReuseGrows(e: Engine, r: RunId, step: StepId, child: RunId)
    requires r in e.runs && !Terminal(e.runs[r].status) && child in e.runs
    ensures Grows(e, ReuseChild(e, r, step, child))
  {
    var c := e.runs[child];
    if Terminal(c.status) {
      var result := if c.status == Completed then OutputResult(if c.output.Some? then c.output.value else NullText)
                    else ErrorResult(if c.error.Some? then c.error.value else "child run failed");
      RecordGrows(e, r, step, "invoke", Some(result));
    } else {
      SetRunGrows(e, r, e.runs[r].(status := WaitChild));
    }
  }

  lemma CountGrows(e: Engine, r: RunId, step: StepId)
    ensures Grows(e, e.(steps := e.steps[r := CountFailure(JournalOf(e.steps, r), step)]))
  {
  }

  lemma RetryGrows(cfg: Configs, e: Engine, r: RunId, step: StepId, error: string)
    requires r in e.runs && !Terminal(e.runs[r].status)
    ensures Grows(e, RetryStep(cfg, e, r, step, error))
  {
    var e1 := e.(steps := e.steps[r := CountFailure(JournalOf(e.steps, r), step)]);
    CountGrows(e, r, step);
    hide EntriesKept, SettleParent;
    var row := Finished(e.runs[r], Failed).(error := Some(error));
    EndGrows(e1, r, row, ErrorResult(error));
    GrowsTrans(e, e1, SettleParent(SetRun(e1, r, row), r, ErrorResult(error)));
  }

  lemma ApplyGrows(cfg: Configs, e: Engine, r: RunId, o: Outcome)
    requires r in e.runs && !Terminal(e.runs[r].status) && e.nextId !in e.runs
    ensures Grows(e, Apply(cfg, e, r, o))
  {
    hide EntriesKept, SettleParent, InvokeChild, RetryStep;
    match o
    case Completes(output) =>
      EndGrows(e, r, Finished(e.runs[r], Completed).(output := Some(output)), OutputResult(output));
    case Fails(error) =>
      EndGrows(e, r, Finished(e.runs[r], Failed).(error := Some(error)), ErrorResult(error));
    case Sleeps(step, wakeAt) =>
      RecordGrows(e, r, step, "sleep", None);
    case Waits(step, event, timeoutAt, m) =>
      SetRunGrows(e, r, e.runs[r].(status := WaitEvent, waitEvent := Some(event), waitStep := Some(step),
                                   wakeAt := timeoutAt, waitMatch := m));
    case Invokes(step, workflow) => InvokeGrows(cfg, e, r, step, workflow);
    case FailsStep(step, error) => RetryGrows(cfg, e, r, step, error);
  }

  lemma FinishGrows(cfg: Configs, e: Engine, r: RunId, o: Outcome, acked: bool)
    requires Inv(e, false) && r in e.inflight
    ensures Grows(e, Finish(cfg, e, r, o, acked))
  {
    RowOf(e, false, r);
    RowOf(e, false, e.nextId);
    if r in e.runs && e.runs[r].status != Cancelled {
      hide Inv, Apply, EntriesKept;
      ApplyGrows(cfg, e, r, o);
    } else {
      hide Inv, Apply;
    }
  }

  lemma WakeGrows(e: Engine, ids: set<RunId>, result: Tokens, clearStep: bool)
    requires forall r | r in ids :: r in e.runs && e.runs[r].status == WaitEvent
    ensures Grows(e, Wake(e, ids, result, clearStep))
  {
    var e' := Wake(e, ids, result, clearStep);
    assert EntriesKept(e.steps, e'.steps) by {
      forall r, s | Done(e.steps, r, s) ensures Done(e'.steps, r, s) && SameEntry(e.steps[r][s], e'.steps[r][s]) {
      }
    }
    hide EntriesKept;
  }

  lemma {:induction false} SpawnAllGrows(e: Engine, targets: seq<string>)
    requires forall r | r in e.runs :: r < e.nextId
    ensures Grows(e, SpawnAll(e, targets)) && forall r | r in SpawnAll(e, targets).runs ::
      r < SpawnAll(e, targets).nextId
  {
    if targets != [] {
      var e1, last := SpawnAll(e, targets[..|targets| - 1]), targets[|targets| - 1];
      SpawnAllGrows(e, targets[..|targets| - 1]);
      SpawnGrows(e1, last, None, None);
      hide Grows;
      GrowsTrans(e, e1, Spawn(e1, last, None, None));
    }
  }

  lemma EmitGrows(e: Engine, event: string, payload: Tokens, fields: map<string, string>, targets: seq<string>)
    requires forall r | r in e.runs :: r < e.nextId
    ensures Grows(e, Emit(e, event, payload, fields, targets))
  {
    var ids := Waiters(e, event, fields);
    var e1 := Wake(e, ids, EventResult(payload), true);
    WakeGrows(e, ids, EventResult(payload), true);
    assert e1.runs.Keys == e.runs.Keys && e1.nextId == e.nextId;
    hide Grows, Wake, SpawnAll;
    SpawnAllGrows(e1, targets);
    GrowsTrans(e, e1, SpawnAll(e1, targets));
  }

  /** Apart from collection, every step keeps finished rows and recorded results as they are. */
  lemma StepGrows(cfg: Configs, e: Engine, op: Op)
    requires Inv(e, false) && Legal(e, op) && !op.DoCollect?
    ensures Grows(e, Next(cfg, e, op))
  {
    assert forall r | r in e.runs :: r < e.nextId;
    hide Inv, Wake, Finish, Emit, Cancel, RecordIn, Trigger;
    match op
    case DoTrigger(workflow, key) => TriggerGrows(e, workflow, key);
    case DoBegin(r) =>
    case DoRecord(r, step, result) => RecordGrows(e, r, step, "run", result);
    case DoFinish(r, o, acked) => FinishGrows(cfg, e, r, o, acked);
    case DoCrash(r) =>
    case DoEmit(event, payload, fields, targets) => EmitGrows(e, event, payload, fields, targets);
    case DoSweep(now) => WakeGrows(e, TimedOut(e, now), TimedOutResult, false);
    case DoCancel(root) => CancelGrows(e, root);
  }

  lemma TriggerGrows(e: Engine, workflow: string, key: Option<string>)
    requires e.nextId !in e.runs
    ensures Grows(e, Trigger(e, workflow, key))
  {
    SpawnGrows(e, workflow, None, if key.Some? then Some(UserKey(key.value)) else None);
    hide KeyTaken, Spawn;
  }

  lemma CancelGrows(e: Engine, root: RunId)
    ensures Grows(e, Cancel(e, root))
  {
    CancelEffect(e, root);
    forall x | x in CancelSet(e.runs, root) ensures Live(e.runs, x) {
      ReachedThroughParent(e.runs, root, x);
    }
    hide CancelSet;
  }

  /** One step from any reachable state, in terms of one run and one of its steps. */
  lemma StepKeepsRun(cfg: Configs, e: Engine, op: Op, r: RunId)
    requires Inv(e, false) && Legal(e, op)
    ensures var e' := Next(cfg, e, op);
      && e.nextId <= e'.nextId
      && (r < e.nextId && r in e'.runs ==> r in e.runs)
      && (r in e'.runs && r in e.runs && Terminal(e.runs[r].status) ==> e'.runs[r] == e.runs[r])
      && (forall s | r in e'.runs && r in e.runs && Done(e.steps, r, s) ::
            Done(e'.steps, r, s) && SameEntry(e.steps[r][s], e'.steps[r][s]))
  {
    if !op.DoCollect? {
      StepGrows(cfg, e, op);
      hide Next;
    }
  }

  lemma {:induction false} IdsStayFresh(cfg: Configs, ops: seq<Op>, i: nat, j: nat, r: RunId)
    requires ValidRun(cfg, ops) && i <= j <= |ops|
    requires r < Exec(cfg, ops[..i]).nextId
    ensures r < Exec(cfg, ops[..j]).nextId
    ensures r in Exec(cfg, ops[..j]).runs ==> r in Exec(cfg, ops[..i]).runs
    decreases j - i
  {
    hide *;
    if i < j {
      IdsStayFresh(cfg, ops, i, j - 1, r);
      StepOfRun(cfg, ops, j - 1);
      RunKeepsInv(cfg, ops, j - 1, false);
      StepKeepsRun(cfg, Exec(cfg, ops[..j - 1]), ops[j - 1], r);
    }
  }

  lemma InvBounds(e: Engine, r: RunId)
    requires Inv(e, false)
    ensures r in e.runs || r in e.steps ==> r < e.nextId
  {
  }

  /** Terminal statuses are absorbing: the whole row never changes again until it is collected. */
  lemma {:induction false} TerminalIsAbsorbing(cfg: Configs, ops: seq<Op>, i: nat, j: nat, r: RunId)
    requires ValidRun(cfg, ops) && i <= j <= |ops|
    requires r in Exec(cfg, ops[..i]).runs && Terminal(Exec(cfg, ops[..i]).runs[r].status)
    ensures r in Exec(cfg, ops[..j]).runs ==> Exec(cfg, ops[..j]).runs[r] == Exec(cfg, ops[..i]).runs[r]
    decreases j - i
  {
    hide *;
    if i < j {
      TerminalIsAbsorbing(cfg, ops, i, j - 1, r);
      RunKeepsInv(cfg, ops, i, false);
      InvBounds(Exec(cfg, ops[..i]), r);
      IdsStayFresh(cfg, ops, i, j - 1, r);
      StepOfRun(cfg, ops, j - 1);
      RunKeepsInv(cfg, ops, j - 1, false);
      StepKeepsRun(cfg, Exec(cfg, ops[..j - 1]), ops[j - 1], r);
    }
  }

  /** A recorded step result never changes while its run is stored. */
  lemma {:induction false} RecordedStepsNeverChange(cfg: Configs, ops: seq<Op>, i: nat, j: nat, r: RunId, s: StepId)
    requires ValidRun(cfg, ops) && i <= j <= |ops|
    requires Done(Exec(cfg, ops[..i]).steps, r, s) && r in Exec(cfg, ops[..j]).runs
    ensures Done(Exec(cfg, ops[..j]).steps, r, s)
    ensures r in Exec(cfg, ops[..i]).steps && s in Exec(cfg, ops[..i]).steps[r]
    ensures r in Exec(cfg, ops[..j]).steps && s in Exec(cfg, ops[..j]).steps[r]
    ensures SameEntry(Exec(cfg, ops[..i]).steps[r][s], Exec(cfg, ops[..j]).steps[r][s])
    decreases j - i
  {
    hide Exec, Next, Inv;
    if i < j {
      RunKeepsInv(cfg, ops, i, false);
      InvBounds(Exec(cfg, ops[..i]), r);
      IdsStayFresh(cfg, ops, i, j - 1, r);
      StepOfRun(cfg, ops, j - 1);
      RunKeepsInv(cfg, ops, j - 1, false);
      StepKeepsRun(cfg, Exec(cfg, ops[..j - 1]), ops[j - 1], r);
      RecordedStepsNeverChange(cfg, ops, i, j - 1, r, s);
    }
  }

  // ---- Event waits ------------------------------------------------------------------------------------------

  predicate Waiting(e: Engine, r: RunId) { r in e.runs && e.runs[r].status == WaitEvent }

  predicate Recorded(e: Engine, r: RunId, s: StepId, result: Tokens) {
    Done(e.steps, r, s) && e.steps[r][s].kind == "waitForEvent" && e.steps[r][s].result == Some(result)
  }

  /** The step leaves the run waiting exactly as it was. */
  predicate StillWaiting(e: Engine, e': Engine, r: RunId) {
    Waiting(e, r) && r in e'.runs && e'.runs[r] == e.runs[r] && e'.jobs[r] <= e.jobs[r]
    && JournalOf(e'.steps, r) == JournalOf(e.steps, r)
  }

  /** The step wakes the run with `result` recorded for its wait step and one more job. */
  predicate WokenWith(e: Engine, e': Engine, r: RunId, result: Tokens) {
    Waiting(e, r) && r in e'.runs && e'.runs[r].status == Runnable && e'.jobs[r] == e.jobs[r] + 1
    && Recorded(e', r, WaitStepOf(e.runs[r]), result)
  }

  predicate WaitOutcome(e: Engine, e': Engine, op: Op, r: RunId)
    requires Waiting(e, r)
  {
    if op.DoEmit? && r in Waiters(e, op.event, op.fields) then WokenWith(e, e', r, EventResult(op.payload))
    else if op.DoSweep? && r in TimedOut(e, op.now) then WokenWith(e, e', r, TimedOutResult)
    else StillWaiting(e, e', r) || (op.DoCancel? && r in e'.runs && e'.runs[r] == CancelRun(e.runs[r]))
  }

  lemma WakeResolves(e: Engine, ids: set<RunId>, result: Tokens, clearStep: bool, r: RunId)
    requires Waiting(e, r) && ids <= e.runs.Keys && !Done(e.steps, r, WaitStepOf(e.runs[r]))
    ensures var e' := Wake(e, ids, result, clearStep);
      if r in ids then WokenWith(e, e', r, result) else StillWaiting(e, e', r)
  {
    var e' := Wake(e, ids, result, clearStep);
    assert multiset(ids)[r] == if r in ids then 1 else 0;
  }

  lemma {:induction false} SpawnAllFrame(e: Engine, targets: seq<string>, r: RunId)
    requires r < e.nextId
    ensures var e' := SpawnAll(e, targets);
      && e'.nextId == e.nextId + |targets| && e'.steps == e.steps && e'.jobs[r] == e.jobs[r]
      && (r in e'.runs <==> r in e.runs) && (r in e.runs ==> e'.runs[r] == e.runs[r])
  {
    if targets != [] {
      SpawnAllFrame(e, targets[..|targets| - 1], r);
    }
  }

  lemma FinishLeavesWaiters(cfg: Configs, e: Engine, q: RunId, o: Outcome, acked: bool, r: RunId)
    requires Inv(e, false) && q in e.inflight && Waiting(e, r)
    ensures StillWaiting(e, Finish(cfg, e, q, o, acked), r)
  {
    RowOf(e, false, q);
    RowOf(e, false, r);
    assert q != r;
    if q in e.runs && e.runs[q].status != Cancelled {
      assert e.runs[q].parent.Some? ==> e.runs[q].parent.value.0 != r by {
        assert Live(e.runs, q);
      }
      hide Inv;
      ApplyLeavesWaiters(cfg, e, q, o, r);
      hide Apply;
    } else {
      hide Inv, Apply;
    }
  }

  lemma SettleLeavesWaiters(e: Engine, q: RunId, result: Tokens, r: RunId)
    requires q in e.runs && Waiting(e, r)
    requires e.runs[q].parent.Some? ==> e.runs[q].parent.value.0 != r
    ensures StillWaiting(e, SettleParent(e, q, result), r)
  {
  }

  lemma EndLeavesWaiters(e: Engine, q: RunId, row: Run, result: Tokens, r: RunId)
    requires q in e.runs && q != r && Waiting(e, r) && row.parent == e.runs[q].parent
    requires e.runs[q].parent.Some? ==> e.runs[q].parent.value.0 != r
    ensures StillWaiting(e, SettleParent(SetRun(e, q, row), q, result), r)
  {
    SettleLeavesWaiters(SetRun(e, q, row), q, result, r);
    hide SettleParent;
  }

  lemma InvokeLeavesWaiters(cfg: Configs, e: Engine, q: RunId, step: StepId, workflow: string, r: RunId)
    requires q in e.runs && q != r && Waiting(e, r) && r < e.nextId
    requires e.runs[q].parent.Some? ==> e.runs[q].parent.value.0 != r
    ensures StillWaiting(e, InvokeChild(cfg, e, q, step, workflow), r)
  {
    if workflow !in cfg {
      hide SettleParent;
      var error := "step '" + step + "': unknown workflow '" + workflow + "'";
      EndLeavesWaiters(e, q, Finished(e.runs[q], Failed).(error := Some(error)), ErrorResult(error), r);
    }
  }

  lemma RetryLeavesWaiters(cfg: Configs, e: Engine, q: RunId, step: StepId, error: string, r: RunId)
    requires q in e.runs && q != r && Waiting(e, r)
    requires e.runs[q].parent.Some? ==> e.runs[q].parent.value.0 != r
    ensures StillWaiting(e, RetryStep(cfg, e, q, step, error), r)
  {
    var e1 := e.(steps := e.steps[q := CountFailure(JournalOf(e.steps, q), step)]);
    EndLeavesWaiters(e1, q, Finished(e.runs[q], Failed).(error := Some(error)), ErrorResult(error), r);
    hide SettleParent;
  }

  lemma ApplyLeavesWaiters(cfg: Configs, e: Engine, q: RunId, o: Outcome, r: RunId)
    requires q in e.runs && q != r && Waiting(e, r) && r < e.nextId
    requires e.runs[q].parent.Some? ==> e.runs[q].parent.value.0 != r
    ensures StillWaiting(e, Apply(cfg, e, q, o), r)
  {
    hide SettleParent, InvokeChild, RetryStep;
    match o
    case Completes(output) =>
      EndLeavesWaiters(e, q, Finished(e.runs[q], Completed).(output := Some(output)), OutputResult(output), r);
    case Fails(error) =>
      EndLeavesWaiters(e, q, Finished(e.runs[q], Failed).(error := Some(error)), ErrorResult(error), r);
    case Invokes(step, workflow) => InvokeLeavesWaiters(cfg, e, q, step, workflow, r);
    case FailsStep(step, error) => RetryLeavesWaiters(cfg, e, q, step, error, r);
    case _ =>
  }

  lemma CancelLeavesWaiters(e: Engine, root: RunId, r: RunId)
    requires Waiting(e, r)
    ensures var e' := Cancel(e, root);
      StillWaiting(e, e', r) || (r in e'.runs && e'.runs[r] == CancelRun(e.runs[r]))
  {
    hide CancelSet;
  }

  lemma EmitResolves(e: Engine, event: string, payload: Tokens, fields: map<string, string>, targets: seq<string>,
                     r: RunId)
    requires Waiting(e, r) && r < e.nextId && !Done(e.steps, r, WaitStepOf(e.runs[r]))
    ensures var e' := Emit(e, event, payload, fields, targets);
      if r in Waiters(e, event, fields) then WokenWith(e, e', r, EventResult(payload)) else StillWaiting(e, e', r)
  {
    var woken := Waiters(e, event, fields);
    WakeResolves(e, woken, EventResult(payload), true, r);
    assert woken <= e.runs.Keys;
    hide Waiters, SpawnAll;
    var e1 := Wake(e, woken, EventResult(payload), true);
    assert e1.nextId == e.nextId;
    hide Wake;
    SpawnAllFrame(e1, targets, r);
  }

  /** A waiting run is woken by a matching event with that event recorded, by a passed timeout
      with the timeout recorded, or cancelled; every other step leaves it as it was. */
  lemma WaitStep(cfg: Configs, e: Engine, op: Op, r: RunId)
    requires Inv(e, false) && Legal(e, op) && Waiting(e, r)
    ensures WaitOutcome(e, Next(cfg, e, op), op, r)
  {
    RowOf(e, false, r);
    match op
    case DoFinish(q, o, acked) => hide Inv, Finish; FinishLeavesWaiters(cfg, e, q, o, acked, r);
    case DoEmit(event, payload, fields, targets) =>
      hide Inv, Emit;
      EmitResolves(e, event, payload, fields, targets, r);
    case DoSweep(now) => hide Inv, Wake; WakeResolves(e, TimedOut(e, now), TimedOutResult, false, r);
    case DoCancel(root) => hide Inv, Cancel; CancelLeavesWaiters(e, root, r);
    case _ => LocalLeavesWaiters(cfg, e, op, r);
  }

  lemma TriggerLeavesWaiters(e: Engine, workflow: string, key: Option<string>, r: RunId)
    requires Waiting(e, r) && r < e.nextId
    ensures StillWaiting(e, Trigger(e, workflow, key), r)
  {
    hide KeyTaken;
  }

  lemma LocalLeavesWaiters(cfg: Configs, e: Engine, op: Op, r: RunId)
    requires Inv(e, false) && Legal(e, op) && Waiting(e, r)
    requires op.DoTrigger? || op.DoBegin? || op.DoRecord? || op.DoCrash? || op.DoCollect?
    ensures StillWaiting(e, Next(cfg, e, op), r)
  {
    RowOf(e, false, r);
    if op.DoRecord? {
      RowOf(e, false, op.run);
    }
    hide Inv, Finish, Emit, Cancel, Trigger, RowWork, Record, Done;
    match op
    case DoTrigger(workflow, key) => TriggerLeavesWaiters(e, workflow, key, r);
    case DoBegin(q) =>
    case DoRecord(q, step, result) => assert q != r;
    case DoCrash(q) =>
    case DoCollect(ids) => assert r !in ids;
  }

  lemma OpenWait(e: Engine, r: RunId)
    requires Inv(e, false) && Waiting(e, r)
    ensures e.runs[r].waitStep.Some? && !Done(e.steps, r, WaitStepOf(e.runs[r]))
  {
    RowOf(e, false, r);
  }

  /** The result an operation records for a wait it resolves. */
  function Resolution(op: Op): Tokens { if op.DoEmit? then EventResult(op.payload) else TimedOutResult }

  /** Each event wait is resolved once: after the step that ends it, the run never waits on
      that step again, and unless that step was a cancel, the journal holds the one result for
      as long as the run is stored. */
  lemma EachWaitResolvesOnce(cfg: Configs, ops: seq<Op>, i: nat, k: nat, r: RunId)
    requires ValidRun(cfg, ops) && i < k <= |ops|
    requires Waiting(Exec(cfg, ops[..i]), r)
    requires !StillWaiting(Exec(cfg, ops[..i]), Exec(cfg, ops[..i + 1]), r)
    requires r in Exec(cfg, ops[..k]).runs
    ensures var w, e := WaitStepOf(Exec(cfg, ops[..i]).runs[r]), Exec(cfg, ops[..k]);
      && !(Waiting(e, r) && WaitStepOf(e.runs[r]) == w)
      && (if ops[i].DoCancel? then e.runs[r].status == Cancelled else Recorded(e, r, w, Resolution(ops[i])))
  {
    hide Exec, Next, Inv;
    var a, b := Exec(cfg, ops[..i]), Exec(cfg, ops[..i + 1]);
    StepOfRun(cfg, ops, i);
    RunKeepsInv(cfg, ops, i, false);
    RunKeepsInv(cfg, ops, k, false);
    WaitStep(cfg, a, ops[i], r);
    if ops[i].DoCancel? {
      TerminalIsAbsorbing(cfg, ops, i + 1, k, r);
    } else {
      RecordedStepsNeverChange(cfg, ops, i + 1, k, r, WaitStepOf(a.runs[r]));
      if Waiting(Exec(cfg, ops[..k]), r) {
        OpenWait(Exec(cfg, ops[..k]), r);
      }
    }
  }

  // ---- The outbox -----------------------------------------------------------------------------------------------

  /** `n` consecutive fresh ids. */
  function FreshIds(first: RunId, n: nat): (ids: set<RunId>)
    ensures forall r: RunId :: r in ids <==> first <= r < first + n
    ensures |ids| == n
  {
    if n == 0 then {} else FreshIds(first, n - 1) + {first + n - 1}
  }

  /** The runs an emit starts. */
  function Triggered(e: Engine, targets: seq<string>): set<RunId> { FreshIds(e.nextId, |targets|) }

  lemma AddOne(a: set<RunId>, id: RunId)
    requires id !in a
    ensures multiset(a + {id}) == multiset(a) + multiset{id}
  {
  }

  lemma {:induction false} SpawnAllHas(e: Engine, targets: seq<string>, r: RunId)
    ensures r in SpawnAll(e, targets).runs <==> r in e.runs || e.nextId <= r < e.nextId + |targets|
  {
    if targets != [] {
      var n := |targets| - 1;
      SpawnAllHas(e, targets[..n], r);
      SpawnAllNext(e, targets[..n]);
    }
  }

  lemma SpawnAllRuns(e: Engine, targets: seq<string>)
    ensures SpawnAll(e, targets).runs.Keys == e.runs.Keys + Triggered(e, targets)
  {
    hide SpawnAll;
    forall r: RunId ensures r in SpawnAll(e, targets).runs <==> r in e.runs || r in Triggered(e, targets) {
      SpawnAllHas(e, targets, r);
    }
  }

  lemma {:induction false} SpawnAllJobs(e: Engine, targets: seq<string>)
    ensures SpawnAll(e, targets).jobs == e.jobs + multiset(Triggered(e, targets))
  {
    if targets != [] {
      var n := |targets| - 1;
      var before, ids := SpawnAll(e, targets[..n]), Triggered(e, targets[..n]);
      SpawnAllJobs(e, targets[..n]);
      SpawnAllNext(e, targets[..n]);
      assert SpawnAll(e, targets).jobs == before.jobs + multiset{before.nextId};
      AddOne(ids, before.nextId);
      assert Triggered(e, targets) == ids + {before.nextId};
      hide SpawnAll, FreshIds;
    }
  }

  lemma {:induction false} SpawnAllNext(e: Engine, targets: seq<string>)
    ensures SpawnAll(e, targets).nextId == e.nextId + |targets|
  {
    if targets != [] {
      SpawnAllNext(e, targets[..|targets| - 1]);
    }
  }

  /** Each triggered run starts fresh under its target's workflow. */
  lemma {:induction false} SpawnAllRows(e: Engine, targets: seq<string>, i: nat)
    requires i < |targets|
    ensures e.nextId + i in SpawnAll(e, targets).runs
    ensures SpawnAll(e, targets).runs[e.nextId + i] == NewRun(targets[i], None, None)
  {
    var n := |targets| - 1;
    SpawnAllNext(e, targets[..n]);
    if i < n {
      SpawnAllRows(e, targets[..n], i);
    }
  }

  /** An emit adds exactly one job per woken waiter and one per triggered run, and leaves every
      other run, its journal and its jobs as they were. */
  lemma EmitIsExact(cfg: Configs, ops: seq<Op>, event: string, payload: Tokens, fields: map<string, string>,
                    targets: seq<string>)
    requires ValidRun(cfg, ops)
    ensures var e := Exec(cfg, ops);
      var e', woken, started := Emit(e, event, payload, fields, targets), Waiters(e, event, fields),
        Triggered(e, targets);
      && e'.jobs == e.jobs + multiset(woken) + multiset(started)
      && e'.runs.Keys == e.runs.Keys + started && e.runs.Keys !! started
      && forall r | r in e.runs && r !in woken ::
           e'.runs[r] == e.runs[r] && JournalOf(e'.steps, r) == JournalOf(e.steps, r)
  {
    assert ops[..|ops|] == ops;
    RunKeepsInv(cfg, ops, |ops|, false);
    var e, woken := Exec(cfg, ops), Waiters(Exec(cfg, ops), event, fields);
    hide Exec;
    EmitEffect(e, event, payload, fields, targets);
  }

  /** The second half of an emit leaves stored runs alone. */
  lemma StartEffect(e: Engine, targets: seq<string>)
    requires forall r | r in e.runs :: r < e.nextId
    ensures forall r | r in e.runs :: r in SpawnAll(e, targets).runs && SpawnAll(e, targets).runs[r] == e.runs[r]
    ensures SpawnAll(e, targets).steps == e.steps
  {
    forall r | r in e.runs ensures r in SpawnAll(e, targets).runs && SpawnAll(e, targets).runs[r] == e.runs[r] {
      SpawnAllFrame(e, targets, r);
    }
    SpawnAllSteps(e, targets);
  }

  lemma {:induction false} SpawnAllSteps(e: Engine, targets: seq<string>)
    ensures SpawnAll(e, targets).steps == e.steps
  {
    if targets != [] {
      SpawnAllSteps(e, targets[..|targets| - 1]);
    }
  }

  lemma EmitEffect(e: Engine, event: string, payload: Tokens, fields: map<string, string>, targets: seq<string>)
    requires forall r | r in e.runs :: r < e.nextId
    ensures var e', woken, started := Emit(e, event, payload, fields, targets), Waiters(e, event, fields),
      Triggered(e, targets);
      && e'.jobs == e.jobs + multiset(woken) + multiset(started)
      && e'.runs.Keys == e.runs.Keys + started && e.runs.Keys !! started
      && forall r | r in e.runs && r !in woken ::
           e'.runs[r] == e.runs[r] && JournalOf(e'.steps, r) == JournalOf(e.steps, r)
  {
    var woken := Waiters(e, event, fields);
    var e1 := Wake(e, woken, EventResult(payload), true);
    WakeEffect(e, woken, EventResult(payload), true);
    hide Wake, FreshIds, Waiters, SpawnAll;
    SpawnAllRuns(e1, targets);
    SpawnAllJobs(e1, targets);
    StartEffect(e1, targets);
  }

  // ---- Crashes inside a handler ---------------------------------------------------------------------------------

  /** The first store call of `Spawn` alone: the row exists, its job does not. */
  function RowOnly(e: Engine, workflow: string, parent: Option<(RunId, StepId)>, idem: Option<IdemKey>): Engine {
    e.(runs := e.runs[e.nextId := NewRun(workflow, parent, idem)], nextId := e.nextId + 1)
  }

  /** A crash between creating a triggered run and pushing its job loses the wakeup, and
      triggering again under the same key does not bring it back. */
  lemma CrashedTriggerIsLost(e: Engine, workflow: string, key: string)
    requires Inv(e, true) && !KeyTaken(e.runs, workflow, UserKey(key))
    ensures var e1 := RowOnly(e, workflow, None, Some(UserKey(key)));
      e1.runs[e.nextId].status == Runnable && e.nextId !in e1.jobs && Trigger(e1, workflow, Some(key)) == e1
  {
    RowOf(e, true, e.nextId);
    var e1 := RowOnly(e, workflow, None, Some(UserKey(key)));
    assert e1.runs[e.nextId].workflow == workflow && e1.runs[e.nextId].idem == Some(UserKey(key));
    hide Inv;
  }

  /** A crash between creating a child run and pushing its job: the redelivered attempt finds
      the child by its key and parks on it, and neither run has a job any more. */
  lemma CrashedInvokeIsLost(cfg: Configs, e: Engine, r: RunId, step: StepId, workflow: string)
    requires Inv(e, true) && r in e.inflight && r in e.runs && Awake(e.runs[r].status)
    requires workflow in cfg && !KeyTaken(e.runs, workflow, InvokeKey(r, step))
    ensures var e1 := RowOnly(e, workflow, Some((r, step)), Some(InvokeKey(r, step)));
      var e2 := CloseAttempt(InvokeChild(cfg, e1, r, step, workflow), r, true);
      && e2.runs[r].status == WaitChild && r !in e2.jobs
      && e2.runs[e.nextId].status == Runnable && e.nextId !in e2.jobs
  {
    RowOf(e, true, e.nextId);
    RowOf(e, true, r);
    var e1 := RowOnly(e, workflow, Some((r, step)), Some(InvokeKey(r, step)));
    assert e1.runs[e.nextId].workflow == workflow && e1.runs[e.nextId].idem == Some(InvokeKey(r, step));
    assert RunOfKey(e1.runs, workflow, InvokeKey(r, step)) == e.nextId;
    hide Inv;
  }

  // ---- A run that parks and resumes -------------------------------------------------------------------------

  lemma ExecSnoc(cfg: Configs, ops: seq<Op>, op: Op)
    requires ValidRun(cfg, ops) && Legal(Exec(cfg, ops), op)
    ensures ValidRun(cfg, ops + [op]) && Exec(cfg, ops + [op]) == Next(cfg, Exec(cfg, ops), op)
  {
    var ops' := ops + [op];
    assert ops'[..|ops|] == ops;
    forall i | 0 <= i < |ops'| ensures Legal(Exec(cfg, ops'[..i]), ops'[i]) {
      assert i < |ops| ==> ops'[..i] == ops[..i];
    }
  }

  function Parked(workflow: string, step: StepId): Engine {
    Engine(map[0 := NewRun(workflow, None, None).(status := WaitChild),
               1 := NewRun(workflow, Some((0, step)), Some(InvokeKey(0, step)))],
           map[], multiset{1}, 2, {})
  }

  function Resumed(workflow: string, step: StepId, output: Tokens): Engine {
    Engine(map[0 := NewRun(workflow, None, None),
               1 := Parked(workflow, step).runs[1].(status := Completed, output := Some(output))],
           map[0 := map[step := Step("invoke", true, Some(OutputResult(output)), 0)]], multiset{0}, 2, {})
  }

  lemma ParkStep(cfg: Configs, workflow: string, step: StepId)
    requires workflow in cfg
    ensures var e := Begin(Spawn(Empty, workflow, None, None), 0);
      && Legal(Empty, DoTrigger(workflow, None))
         && Next(cfg, Empty, DoTrigger(workflow, None)) == Spawn(Empty, workflow, None, None)
      && Legal(Spawn(Empty, workflow, None, None), DoBegin(0))
         && Next(cfg, Spawn(Empty, workflow, None, None), DoBegin(0)) == e
      && Legal(e, DoFinish(0, Invokes(step, workflow), true))
      && Next(cfg, e, DoFinish(0, Invokes(step, workflow), true)) == Parked(workflow, step)
  {
    var e := Begin(Spawn(Empty, workflow, None, None), 0);
    assert e == Engine(map[0 := NewRun(workflow, None, None)], map[], multiset{0}, 1, {0});
    assert !KeyTaken(e.runs, workflow, InvokeKey(0, step));
    assert multiset{0} + multiset{1} - multiset{0} == multiset{1};
  }

  lemma ResumeStep(cfg: Configs, workflow: string, step: StepId, output: Tokens)
    ensures var e := Begin(Parked(workflow, step), 1);
      && Legal(Parked(workflow, step), DoBegin(1)) && Next(cfg, Parked(workflow, step), DoBegin(1)) == e
      && Legal(e, DoFinish(1, Completes(output), true))
      && Next(cfg, e, DoFinish(1, Completes(output), true)) == Resumed(workflow, step, output)
  {
    var e := Begin(Parked(workflow, step), 1);
    assert e == Parked(workflow, step).(inflight := {1});
    var done := CompleteRun(e, 1, output);
    assert done.runs == Resumed(workflow, step, output).runs;
    assert done.jobs == multiset{1} + multiset{0};
  }

  /** The theorems speak of real runs: a triggered run invokes a child, parks on it without a
      job, and is woken by the child's end with the child's output recorded. */
  lemma ParkAndResume(cfg: Configs, workflow: string, step: StepId, output: Tokens) returns (ops: seq<Op>)
    requires workflow in cfg
    ensures ValidRun(cfg, ops) && NoLostAcks(ops) && |ops| == 5
    ensures Exec(cfg, ops[..3]) == Parked(workflow, step) && Exec(cfg, ops) == Resumed(workflow, step, output)
  {
    hide *;
    var first, second := [DoTrigger(workflow, None), DoBegin(0), DoFinish(0, Invokes(step, workflow), true)],
                         [DoBegin(1), DoFinish(1, Completes(output), true)];
    ops := first + second;
    NoOps(cfg);
    ParkStep(cfg, workflow, step);
    ResumeStep(cfg, workflow, step, output);
    ExecSnoc(cfg, [], first[0]);
    ExecSnoc(cfg, [] + [first[0]], first[1]);
    ExecSnoc(cfg, [] + [first[0]] + [first[1]], first[2]);
    assert [] + [first[0]] + [first[1]] + [first[2]] == first == ops[..3];
    ExecSnoc(cfg, first, second[0]);
    ExecSnoc(cfg, first + [second[0]], second[1]);
    assert first + [second[0]] + [second[1]] == ops;
    AllAcked(ops);
  }

  lemma NoOps(cfg: Configs)
    ensures Exec(cfg, []) == Empty && ValidRun(cfg, [])
  {
  }

  lemma AllAcked(ops: seq<Op>)
    requires forall i | 0 <= i < |ops| && ops[i].DoFinish? :: ops[i].acked
    ensures NoLostAcks(ops)
  {
  }
}
