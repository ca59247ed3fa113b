/** How runs end: a finished run holds what its executor handed back, over every run of the engine. */
module RunResults {
  import opened Orders
  import opened Runs
  import opened CancelTree
  import opened WorkflowEngine
  import opened Wakeups
  import opened EngineRuns

  // ---- One outcome --------------------------------------------------------------------------------------

  /** What an outcome leaves in the row of the run that handed it back. */
  predicate RowAfter(before: Run, after: Run, o: Outcome) {
    && after.workflow == before.workflow && after.parent == before.parent && after.idem == before.idem
    && match o
       case Completes(output) => after.status == Completed && after.output == Some(output)
       case Fails(error) => after.status == Failed && after.error == Some(error) && after.output == before.output
       case Sleeps(_, wakeAt) =>
         after.status == Sleeping && after.wakeAt == Some(wakeAt) && after.output == before.output
       case Waits(step, event, timeoutAt, m) =>
         after.status == WaitEvent && after.waitEvent == Some(event) && after.waitStep == Some(step)
         && after.wakeAt == timeoutAt && after.waitMatch == m && after.output == before.output
       case Invokes(_, _) => HasEnded(after.status) ==> after.status == Failed && after.error.Some?
       case FailsStep(_, error) =>
         after.output == before.output
         && (after.status == before.status || (after.status == Failed && after.error == Some(error)))
  }

  predicate HasEnded(s: Status) { s == Completed || s == Failed }

  /** The run an attempt ends for gets the row its outcome stands for, and once terminal it waits for
      nothing. */
  lemma OutcomeRow(cfg: Configs, e: Engine, r: RunId, o: Outcome, acked: bool)
    requires Inv(e, false) && r in e.inflight && r in e.runs && e.runs[r].status != Cancelled
    ensures var e' := Finish(cfg, e, r, o, acked);
      && r in e'.runs && RowAfter(e.runs[r], e'.runs[r], o)
      && (Terminal(e'.runs[r].status) ==> e'.runs[r].waitEvent.None? && e'.runs[r].wakeAt.None?)
      && r !in e'.inflight
  {
    if e.runs[r].parent.Some? {
      ParentIsOther(e, r);
    }
    RowOf(e, false, r);
    RowOf(e, false, e.nextId);
    hide Inv, RowAfter, Apply;
    AppliedRow(cfg, e, r, o);
  }

  /** A terminal row waits for nothing. */
  predicate Settled(row: Run) { Terminal(row.status) ==> row.waitEvent.None? && row.wakeAt.None? }

  lemma AppliedRow(cfg: Configs, e: Engine, r: RunId, o: Outcome)
    requires r in e.runs && Awake(e.runs[r].status) && r != e.nextId
    requires e.runs[r].parent.Some? ==> e.runs[r].parent.value.0 != r
    ensures var e' := Apply(cfg, e, r, o);
      r in e'.runs && RowAfter(e.runs[r], e'.runs[r], o) && Settled(e'.runs[r]) && e'.inflight == e.inflight
  {
    hide SettleParent, InvokeChild, RetryStep, RecordIn;
    var row := e.runs[r];
    match o
    case Completes(output) => EndRow(e, r, Finished(row, Completed).(output := Some(output)), OutputResult(output));
    case Fails(error) => EndRow(e, r, Finished(row, Failed).(error := Some(error)), ErrorResult(error));
    case Sleeps(_, _) =>
    case Waits(_, _, _, _) =>
    case Invokes(step, workflow) => InvokeRow(cfg, e, r, step, workflow);
    case FailsStep(step, error) => RetryRow(cfg, e, r, step, error);
  }

  lemma EndRow(e: Engine, r: RunId, row: Run, result: Tokens)
    requires row.parent.Some? ==> row.parent.value.0 != r
    ensures var e' := SettleParent(SetRun(e, r, row), r, result);
      r in e'.runs && e'.runs[r] == row && e'.inflight == e.inflight
  {
    hide RecordIn;
  }

  lemma RetryRow(cfg: Configs, e: Engine, r: RunId, step: StepId, error: string)
    requires r in e.runs && (e.runs[r].parent.Some? ==> e.runs[r].parent.value.0 != r)
    ensures var e', row := RetryStep(cfg, e, r, step, error), e.runs[r];
      && r in e'.runs && e'.inflight == e.inflight
      && (e'.runs[r] == row || e'.runs[r] == Finished(row, Failed).(error := Some(error)))
  {
    var e1 := e.(steps := e.steps[r := CountFailure(JournalOf(e.steps, r), step)]);
    hide SettleParent, CountFailure, StepLimit, JournalOf;
    EndRow(e1, r, Finished(e.runs[r], Failed).(error := Some(error)), ErrorResult(error));
  }

  lemma InvokeRow(cfg: Configs, e: Engine, r: RunId, step: StepId, workflow: string)
    requires r in e.runs && r != e.nextId && (e.runs[r].parent.Some? ==> e.runs[r].parent.value.0 != r)
    ensures var e', row := InvokeChild(cfg, e, r, step, workflow), e.runs[r];
      && r in e'.runs && e'.inflight == e.inflight
      && (e'.runs[r] == row || e'.runs[r] == row.(status := WaitChild)
          || exists error :: e'.runs[r] == Finished(row, Failed).(error := Some(error)))
  {
    hide SettleParent, KeyTaken, RecordIn;
    if workflow !in cfg {
      var error := "step '" + step + "': unknown workflow '" + workflow + "'";
      EndRow(e, r, Finished(e.runs[r], Failed).(error := Some(error)), ErrorResult(error));
    }
  }

  lemma ParentIsOther(e: Engine, r: RunId)
    requires Inv(e, false) && r in e.runs && !Terminal(e.runs[r].status) && e.runs[r].parent.Some?
    ensures e.runs[r].parent.value.0 != r
  {
  }

  // ---- Whole runs -----------------------------------------------------------------------------------------

  /** The operation hands back what the ended row holds. */
  predicate HandsBack(op: Op, r: RunId, row: Run) {
    op.DoFinish? && op.run == r
    && match row.status
       case Completed => row.output.Some? && op.outcome == Completes(row.output.value)
       case Failed =>
         row.error.Some?
         && (op.outcome == Fails(row.error.value) || op.outcome.Invokes?
             || (op.outcome.FailsStep? && op.outcome.error == row.error.value))
       case _ => true
  }

  /** A run that has ended had ended just so before, or the operation hands back what it holds. */
  ghost predicate EndsBy(e: Engine, e': Engine, op: Op, q: RunId) {
    q in e'.runs && HasEnded(e'.runs[q].status) ==>
      (q in e.runs && e.runs[q] == e'.runs[q]) || HandsBack(op, q, e'.runs[q])
  }

  /** Apart from its own run, an outcome ends none. */
  lemma FinishEndsOne(cfg: Configs, e: Engine, r: RunId, o: Outcome, acked: bool, q: RunId)
    requires Inv(e, false) && r in e.inflight && q != r
    ensures EndsBy(e, Finish(cfg, e, r, o, acked), DoFinish(r, o, acked), q)
  {
    RowOf(e, false, r);
    if r in e.runs && e.runs[r].status != Cancelled {
      ApplyEndsOne(cfg, e, r, o, DoFinish(r, o, acked), q);
    }
    hide Inv, Apply, HandsBack;
  }

  lemma ApplyEndsOne(cfg: Configs, e: Engine, r: RunId, o: Outcome, op: Op, q: RunId)
    requires r in e.runs && q != r
    ensures EndsBy(e, Apply(cfg, e, r, o), op, q)
  {
    hide SettleParent, InvokeChild, RetryStep, RecordIn, HandsBack;
    var row := e.runs[r];
    match o
    case Completes(output) =>
      SettleEndsNone(e, r, Finished(row, Completed).(output := Some(output)), OutputResult(output), op, q);
    case Fails(error) => SettleEndsNone(e, r, Finished(row, Failed).(error := Some(error)), ErrorResult(error), op, q);
    case Invokes(step, workflow) => InvokeEndsOne(cfg, e, r, step, workflow, op, q);
    case FailsStep(step, error) => RetryEndsOne(cfg, e, r, step, error, op, q);
    case _ =>
  }

  lemma SettleEndsNone(e: Engine, r: RunId, row: Run, result: Tokens, op: Op, q: RunId)
    requires q != r
    ensures EndsBy(e, SettleParent(SetRun(e, r, row), r, result), op, q)
  {
    hide RecordIn, HandsBack;
  }

  lemma InvokeEndsOne(cfg: Configs, e: Engine, r: RunId, step: StepId, workflow: string, op: Op, q: RunId)
    requires r in e.runs && q != r
    ensures EndsBy(e, InvokeChild(cfg, e, r, step, workflow), op, q)
  {
    hide SettleParent, KeyTaken, RecordIn, HandsBack;
    if workflow !in cfg {
      var error := "step '" + step + "': unknown workflow '" + workflow + "'";
      SettleEndsNone(e, r, Finished(e.runs[r], Failed).(error := Some(error)), ErrorResult(error), op, q);
    }
  }

  lemma RetryEndsOne(cfg: Configs, e: Engine, r: RunId, step: StepId, error: string, op: Op, q: RunId)
    requires r in e.runs && q != r
    ensures EndsBy(e, RetryStep(cfg, e, r, step, error), op, q)
  {
    var e1 := e.(steps := e.steps[r := CountFailure(JournalOf(e.steps, r), step)]);
    hide SettleParent, CountFailure, StepLimit, JournalOf, HandsBack;
    SettleEndsNone(e1, r, Finished(e.runs[r], Failed).(error := Some(error)), ErrorResult(error), op, q);
  }

  lemma OwnEnd(cfg: Configs, e: Engine, r: RunId, o: Outcome, acked: bool)
    requires Inv(e, false) && r in e.inflight
    ensures EndsBy(e, Finish(cfg, e, r, o, acked), DoFinish(r, o, acked), r)
  {
    RowOf(e, false, r);
    if r in e.runs && e.runs[r].status != Cancelled {
      OutcomeRow(cfg, e, r, o, acked);
    }
    hide Inv, Apply;
  }

  lemma EmitEndsNone(e: Engine, event: string, payload: Tokens, fields: map<string, string>, targets: seq<string>,
                     q: RunId)
    requires forall r | r in e.runs :: r < e.nextId
    ensures EndsBy(e, Emit(e, event, payload, fields, targets), DoEmit(event, payload, fields, targets), q)
  {
    var op, ids := DoEmit(event, payload, fields, targets), Waiters(e, event, fields);
    var e1 := Wake(e, ids, EventResult(payload), true);
    WakeEndsNone(e, ids, EventResult(payload), true, op, q);
    assert Emit(e, event, payload, fields, targets) == SpawnAll(e1, targets);
    hide Wake, Waiters, SpawnAll;
    SpawnEndsNone(e, e1, targets, op, q);
  }

  lemma WakeEndsNone(e: Engine, ids: set<RunId>, result: Tokens, clearStep: bool, op: Op, q: RunId)
    requires ids <= e.runs.Keys
    ensures var e' := Wake(e, ids, result, clearStep);
      EndsBy(e, e', op, q) && e'.runs.Keys == e.runs.Keys && e'.nextId == e.nextId
  {
    hide Record, HandsBack;
  }

  /** Starting runs ends none. */
  lemma SpawnEndsNone(e: Engine, e1: Engine, targets: seq<string>, op: Op, q: RunId)
    requires EndsBy(e, e1, op, q) && forall r | r in e1.runs :: r < e1.nextId
    ensures EndsBy(e, SpawnAll(e1, targets), op, q)
  {
    SpawnAllHas(e1, targets, q);
    StartEffect(e1, targets);
    if e1.nextId <= q < e1.nextId + |targets| {
      SpawnAllRows(e1, targets, q - e1.nextId);
    }
    hide SpawnAll, HandsBack;
  }

  lemma StepEnds(cfg: Configs, e: Engine, op: Op, q: RunId)
    requires Inv(e, false) && Legal(e, op)
    ensures EndsBy(e, Next(cfg, e, op), op, q)
  {
    assert forall r | r in e.runs :: r < e.nextId;
    hide Inv, Finish, Emit, CancelSet, RecordIn, KeyTaken, Wake, HandsBack;
    match op
    case DoFinish(r, o, acked) =>
      if q == r {
        OwnEnd(cfg, e, r, o, acked);
      } else {
        FinishEndsOne(cfg, e, r, o, acked, q);
      }
    case DoEmit(event, payload, fields, targets) => EmitEndsNone(e, event, payload, fields, targets, q);
    case DoSweep(now) => WakeEndsNone(e, TimedOut(e, now), TimedOutResult, false, op, q);
    case DoCancel(root) => CancelEffect(e, root);
    case _ =>
  }

  ghost predicate HandedBack(ops: seq<Op>, r: RunId, row: Run) {
    exists i :: 0 <= i < |ops| && HandsBack(ops[i], r, row)
  }

  lemma HandedBackSooner(ops: seq<Op>, k: nat, r: RunId, row: Run)
    requires k < |ops| && (HandedBack(ops[..k], r, row) || HandsBack(ops[k], r, row))
    ensures HandedBack(ops[..k + 1], r, row)
  {
    if HandedBack(ops[..k], r, row) {
      var i :| 0 <= i < k && HandsBack(ops[..k][i], r, row);
      assert ops[..k + 1][i] == ops[i];
    } else {
      assert ops[..k + 1][k] == ops[k];
    }
  }

  /** The output of a completed run, and the error of a failed one, is what one of its attempts handed
      back; an invocation fails a run only with an error of its own. */
  lemma {:induction false} ResultsAreHandedBack(cfg: Configs, ops: seq<Op>, k: nat, r: RunId)
    requires ValidRun(cfg, ops) && k <= |ops|
    ensures var e := Exec(cfg, ops[..k]);
      r in e.runs && HasEnded(e.runs[r].status) ==> HandedBack(ops[..k], r, e.runs[r])
    decreases k
  {
    if k == 0 {
      assert ops[..0] == [];
    } else {
      hide *;
      ResultsAreHandedBack(cfg, ops, k - 1, r);
      StepOfRun(cfg, ops, k - 1);
      RunKeepsInv(cfg, ops, k - 1, false);
      StepEnds(cfg, Exec(cfg, ops[..k - 1]), ops[k - 1], r);
      LastEnds(Exec(cfg, ops[..k - 1]), Exec(cfg, ops[..k]), ops, k - 1, r);
    }
  }

  lemma LastEnds(e: Engine, e': Engine, ops: seq<Op>, k: nat, r: RunId)
    requires k < |ops| && EndsBy(e, e', ops[k], r)
    requires r in e.runs && HasEnded(e.runs[r].status) ==> HandedBack(ops[..k], r, e.runs[r])
    ensures r in e'.runs && HasEnded(e'.runs[r].status) ==> HandedBack(ops[..k + 1], r, e'.runs[r])
  {
    if r in e'.runs && HasEnded(e'.runs[r].status) {
      HandedBackSooner(ops, k, r, e'.runs[r]);
    }
  }

  /** Once an attempt of an uncancelled run hands back its output, the run is completed with that
      output for as long as it is stored. */
  lemma OutputIsKept(cfg: Configs, ops: seq<Op>, i: nat, k: nat, r: RunId, output: Tokens, acked: bool)
    requires ValidRun(cfg, ops) && i < k <= |ops| && ops[i] == DoFinish(r, Completes(output), acked)
    requires r in Exec(cfg, ops[..i]).runs && Exec(cfg, ops[..i]).runs[r].status != Cancelled
    ensures var e := Exec(cfg, ops[..k]);
      r in e.runs ==> e.runs[r].status == Completed && e.runs[r].output == Some(output)
  {
    hide Exec, Inv, Finish;
    StepOfRun(cfg, ops, i);
    RunKeepsInv(cfg, ops, i, false);
    OutcomeRow(cfg, Exec(cfg, ops[..i]), r, Completes(output), acked);
    TerminalIsAbsorbing(cfg, ops, i + 1, k, r);
  }

  // ---- Cancels and collection -----------------------------------------------------------------------------------------

  /** A cancel leaves each run it stops cancelled, waiting for nothing and otherwise as it was, and
      every other run as it was. */
  lemma CancelledRow(cfg: Configs, e: Engine, root: RunId, r: RunId)
    requires r in e.runs
    ensures var t, row := Next(cfg, e, DoCancel(root)).runs, e.runs[r];
      r in t && t[r] == if Reaches(e.runs, root, r)
        then row.(status := Cancelled, waitEvent := None, waitStep := None, wakeAt := None) else row
  {
    CancelEffect(e, root);
    hide Reaches;
  }

  /** Collecting runs takes their rows and journals away, and leaves every other row, journal and job. */
  lemma CollectIsExact(cfg: Configs, e: Engine, ids: set<RunId>, r: RunId)
    ensures var e' := Next(cfg, e, DoCollect(ids));
      && (r in e'.runs <==> r in e.runs && r !in ids) && (r in e'.steps <==> r in e.steps && r !in ids)
      && (r in e'.runs ==> e'.runs[r] == e.runs[r]) && (r in e'.steps ==> e'.steps[r] == e.steps[r])
      && e'.jobs == e.jobs && e'.nextId == e.nextId && e'.inflight == e.inflight
  {
  }
}
