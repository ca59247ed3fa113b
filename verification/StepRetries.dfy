/** How often a failing step is tried again: the failures reported over a run against the configured
    limit. */
module StepRetries {
  import opened Orders
  import opened Runs
  import opened CancelTree
  import opened WorkflowEngine
  import opened Wakeups
  import opened EngineRuns

  /** The operation hands the engine a failure of step `s` of the stored, uncancelled run `r`. */
  predicate Reports(e: Engine, op: Op, r: RunId, s: StepId) {
    && op.DoFinish? && op.run == r && op.outcome.FailsStep? && op.outcome.step == s
    && r in e.runs && e.runs[r].status != Cancelled
  }

  /** The failures of the step reported so far. */
  ghost function FailuresOf(cfg: Configs, ops: seq<Op>, r: RunId, s: StepId): nat {
    if ops == [] then 0
    else
      var n := |ops| - 1;
      FailuresOf(cfg, ops[..n], r, s) + if Reports(Exec(cfg, ops[..n]), ops[n], r, s) then 1 else 0
  }

  /** The count the journal keeps. */
  function Tried(e: Engine, r: RunId, s: StepId): nat {
    var j := JournalOf(e.steps, r);
    if s in j then j[s].attempts else 0
  }

  // ---- What each step does to the counts ----------------------------------------------------------------

  /** Counts and workflows of the runs still stored are as before, but for one more failure of `s`
      of run `r` if `more`. */
  ghost predicate CountsBy(e: Engine, e': Engine, r: RunId, s: StepId, more: bool) {
    && (forall q | q in e'.runs && q in e.runs :: e'.runs[q].workflow == e.runs[q].workflow)
    && (forall q, t | q in e'.runs ::
          Tried(e', q, t) == Tried(e, q, t) + if more && q == r && t == s then 1 else 0)
  }

  ghost predicate SameCounts(e: Engine, e': Engine) { CountsBy(e, e', 0, "", false) }

  lemma CountsTrans(a: Engine, b: Engine, c: Engine, r: RunId, s: StepId, more: bool)
    requires CountsBy(a, b, r, s, more) && SameCounts(b, c) && c.runs.Keys <= b.runs.Keys
    ensures CountsBy(a, c, r, s, more)
  {
    hide Tried;
  }

  lemma RecordCounts(e: Engine, r: RunId, s: StepId, kind: string, result: Option<Tokens>)
    ensures SameCounts(e, e.(steps := RecordIn(e.steps, r, s, kind, result)))
  {
  }

  lemma SettleCounts(e: Engine, child: RunId, result: Tokens)
    requires child in e.runs
    ensures SameCounts(e, SettleParent(e, child, result)) && SettleParent(e, child, result).runs.Keys == e.runs.Keys
  {
    if e.runs[child].parent.Some? {
      var (p, s) := e.runs[child].parent.value;
      RecordCounts(e, p, s, "invoke", Some(result));
      hide RecordIn, JournalOf;
    }
  }

  lemma EndCounts(e: Engine, r: RunId, row: Run, result: Tokens)
    requires r in e.runs && row.workflow == e.runs[r].workflow
    ensures SameCounts(e, SettleParent(SetRun(e, r, row), r, result))
    ensures SettleParent(SetRun(e, r, row), r, result).runs.Keys == e.runs.Keys
  {
    assert SameCounts(e, SetRun(e, r, row));
    SettleCounts(SetRun(e, r, row), r, result);
    CountsTrans(e, SetRun(e, r, row), SettleParent(SetRun(e, r, row), r, result), 0, "", false);
  }

  lemma InvokeCounts(cfg: Configs, e: Engine, r: RunId, step: StepId, workflow: string)
    requires r in e.runs && e.nextId !in e.runs
    ensures SameCounts(e, InvokeChild(cfg, e, r, step, workflow))
  {
    var key := InvokeKey(r, step);
    if workflow !in cfg {
      var error := "step '" + step + "': unknown workflow '" + workflow + "'";
      hide SettleParent, SameCounts;
      EndCounts(e, r, Finished(e.runs[r], Failed).(error := Some(error)), ErrorResult(error));
    } else if KeyTaken(e.runs, workflow, key) {
      ReuseCounts(e, r, step, RunOfKey(e.runs, workflow, key));
    }
  }

  lemma ReuseCounts(e: Engine, r: RunId, step: StepId, child: RunId)
    requires r in e.runs && child in e.runs
    ensures SameCounts(e, ReuseChild(e, r, step, child))
  {
  }

  /** One more failure, whether the run is retried or fails. */
  lemma RetryCounts(cfg: Configs, e: Engine, r: RunId, step: StepId, error: string)
    requires r in e.runs
    ensures CountsBy(e, RetryStep(cfg, e, r, step, error), r, step, true)
  {
    var e1 := e.(steps := e.steps[r := CountFailure(JournalOf(e.steps, r), step)]);
    assert CountsBy(e, e1, r, step, true);
    hide SettleParent, CountsBy, CountFailure;
    var row := Finished(e.runs[r], Failed).(error := Some(error));
    EndCounts(e1, r, row, ErrorResult(error));
    CountsTrans(e, e1, SettleParent(SetRun(e1, r, row), r, ErrorResult(error)), r, step, true);
    EnqueueCounts(e1, r);
    CountsTrans(e, e1, Enqueue(e1, r), r, step, true);
  }

  lemma EnqueueCounts(e: Engine, r: RunId)
    ensures SameCounts(e, Enqueue(e, r))
  {
  }

  /** The step whose failure an outcome reports. */
  function FailedStep(o: Outcome): StepId { if o.FailsStep? then o.step else "" }

  lemma ApplyCounts(cfg: Configs, e: Engine, r: RunId, o: Outcome)
    requires r in e.runs && e.nextId !in e.runs
    ensures CountsBy(e, Apply(cfg, e, r, o), r, FailedStep(o), o.FailsStep?)
  {
    hide SettleParent, InvokeChild, RetryStep;
    match o
    case Completes(output) =>
      EndCounts(e, r, Finished(e.runs[r], Completed).(output := Some(output)), OutputResult(output));
    case Fails(error) =>
      EndCounts(e, r, Finished(e.runs[r], Failed).(error := Some(error)), ErrorResult(error));
    case Sleeps(step, wakeAt) =>
    case Waits(step, event, timeoutAt, m) =>
    case Invokes(step, workflow) => InvokeCounts(cfg, e, r, step, workflow);
    case FailsStep(step, error) => RetryCounts(cfg, e, r, step, error);
  }

  lemma FinishCounts(cfg: Configs, e: Engine, r: RunId, o: Outcome, acked: bool, s: StepId)
    requires e.nextId !in e.runs
    ensures forall q | q in Finish(cfg, e, r, o, acked).runs ::
      (q in e.runs ==> Finish(cfg, e, r, o, acked).runs[q].workflow == e.runs[q].workflow)
      && Tried(Finish(cfg, e, r, o, acked), q, s)
         == Tried(e, q, s) + if Reports(e, DoFinish(r, o, acked), q, s) then 1 else 0
  {
    if r in e.runs && e.runs[r].status != Cancelled {
      ApplyCounts(cfg, e, r, o);
    }
    hide Apply;
  }

  lemma SpawnCounts(e: Engine, workflow: string, parent: Option<(RunId, StepId)>, idem: Option<IdemKey>)
    requires e.nextId !in e.runs
    ensures SameCounts(e, Spawn(e, workflow, parent, idem))
  {
  }

  lemma SpawnAllCounts(e: Engine, targets: seq<string>, q: RunId, s: StepId)
    ensures var e' := SpawnAll(e, targets);
      && (q in e.runs && q < e.nextId ==> q in e'.runs && e'.runs[q].workflow == e.runs[q].workflow)
      && Tried(e', q, s) == Tried(e, q, s)
  {
    if q < e.nextId {
      SpawnAllFrame(e, targets, q);
    }
    SpawnAllSteps(e, targets);
    hide SpawnAll;
  }

  lemma WakeCounts(e: Engine, ids: set<RunId>, result: Tokens, clearStep: bool)
    requires ids <= e.runs.Keys
    ensures SameCounts(e, Wake(e, ids, result, clearStep)) && Wake(e, ids, result, clearStep).runs.Keys == e.runs.Keys
    ensures Wake(e, ids, result, clearStep).nextId == e.nextId
  {
  }

  lemma EmitCounts(e: Engine, event: string, payload: Tokens, fields: map<string, string>, targets: seq<string>,
                   q: RunId, s: StepId)
    ensures var e' := Emit(e, event, payload, fields, targets);
      && (q in e.runs && q < e.nextId ==> q in e'.runs && e'.runs[q].workflow == e.runs[q].workflow)
      && Tried(e', q, s) == Tried(e, q, s)
  {
    var ids := Waiters(e, event, fields);
    WakeCounts(e, ids, EventResult(payload), true);
    SpawnAllCounts(Wake(e, ids, EventResult(payload), true), targets, q, s);
    hide Wake, SpawnAll, Waiters;
  }

  /** One operation: a stored run keeps its workflow, and its count rises exactly by a report. */
  lemma StepCounts(cfg: Configs, e: Engine, op: Op, r: RunId, s: StepId)
    requires Inv(e, false) && Legal(e, op) && r in Next(cfg, e, op).runs
    ensures var e' := Next(cfg, e, op);
      && (r in e.runs ==> e'.runs[r].workflow == e.runs[r].workflow)
      && Tried(e', r, s) == Tried(e, r, s) + if Reports(e, op, r, s) then 1 else 0
  {
    if op.DoTrigger? || op.DoRecord? || op.DoFinish? {
      AttemptCounts(cfg, e, op, r, s);
    } else {
      EventCounts(cfg, e, op, r, s);
    }
    hide *;
  }

  lemma AttemptCounts(cfg: Configs, e: Engine, op: Op, r: RunId, s: StepId)
    requires Inv(e, false) && Legal(e, op) && r in Next(cfg, e, op).runs
    requires op.DoTrigger? || op.DoRecord? || op.DoFinish?
    ensures var e' := Next(cfg, e, op);
      && (r in e.runs ==> e'.runs[r].workflow == e.runs[r].workflow)
      && Tried(e', r, s) == Tried(e, r, s) + if Reports(e, op, r, s) then 1 else 0
  {
    RowOf(e, false, r);
    RowOf(e, false, e.nextId);
    hide Inv, Finish, Spawn, Record, KeyTaken;
    match op
    case DoTrigger(workflow, key) =>
      SpawnCounts(e, workflow, None, if key.Some? then Some(UserKey(key.value)) else None);
    case DoRecord(q, step, result) => RecordCounts(e, q, step, "run", result);
    case DoFinish(q, o, acked) => FinishCounts(cfg, e, q, o, acked, s);
  }

  lemma EventCounts(cfg: Configs, e: Engine, op: Op, r: RunId, s: StepId)
    requires Inv(e, false) && Legal(e, op) && r in Next(cfg, e, op).runs
    requires !op.DoTrigger? && !op.DoRecord? && !op.DoFinish?
    ensures var e' := Next(cfg, e, op);
      && (r in e.runs ==> e'.runs[r].workflow == e.runs[r].workflow)
      && Tried(e', r, s) == Tried(e, r, s)
  {
    RowOf(e, false, r);
    hide Inv, Emit, Wake, CancelSet, TimedOut;
    match op
    case DoEmit(event, payload, fields, targets) => EmitCounts(e, event, payload, fields, targets, r, s);
    case DoSweep(now) => WakeCounts(e, TimedOut(e, now), TimedOutResult, false);
    case _ =>
  }

  // ---- Counting over whole runs -----------------------------------------------------------------------------

  lemma FailuresUnfold(cfg: Configs, ops: seq<Op>, n: nat, r: RunId, s: StepId)
    requires n < |ops|
    ensures FailuresOf(cfg, ops[..n + 1], r, s)
            == FailuresOf(cfg, ops[..n], r, s) + if Reports(Exec(cfg, ops[..n]), ops[n], r, s) then 1 else 0
  {
    assert ops[..n + 1][..n] == ops[..n];
    hide Exec, Reports;
  }

  /** The journal's count is the number of reports among the operations. */
  lemma {:induction false} CountsReports(cfg: Configs, ops: seq<Op>, n: nat, r: RunId, s: StepId)
    requires ValidRun(cfg, ops) && n <= |ops|
    ensures r in Exec(cfg, ops[..n]).runs ==> Tried(Exec(cfg, ops[..n]), r, s) == FailuresOf(cfg, ops[..n], r, s)
    ensures r >= Exec(cfg, ops[..n]).nextId ==> FailuresOf(cfg, ops[..n], r, s) == 0
  {
    hide *;
    if n == 0 {
      NothingYet(cfg, ops, r, s);
    } else {
      var e := Exec(cfg, ops[..n - 1]);
      CountsReports(cfg, ops, n - 1, r, s);
      FailuresUnfold(cfg, ops, n - 1, r, s);
      RunKeepsInv(cfg, ops, n - 1, false);
      StepOfRun(cfg, ops, n - 1);
      StepKeepsRun(cfg, e, ops[n - 1], r);
      if r >= e.nextId {
        NotReported(e, ops[n - 1], r, s);
      }
      if r in Exec(cfg, ops[..n]).runs {
        StepCounts(cfg, e, ops[n - 1], r, s);
        if r !in e.runs {
          Untried(e, r, s);
        }
      }
    }
  }

  lemma NothingYet(cfg: Configs, ops: seq<Op>, r: RunId, s: StepId)
    ensures Exec(cfg, ops[..0]).runs == map[] && FailuresOf(cfg, ops[..0], r, s) == 0
  {
  }

  lemma NotReported(e: Engine, op: Op, r: RunId, s: StepId)
    requires Inv(e, false) && r >= e.nextId
    ensures !Reports(e, op, r, s)
  {
  }

  lemma Untried(e: Engine, r: RunId, s: StepId)
    requires Inv(e, false) && r >= e.nextId
    ensures Tried(e, r, s) == 0
  {
  }

  /** The configured number of attempts at a step of `workflow`; three where nothing is configured. */
  function Attempts(cfg: Configs, workflow: string): nat { if workflow in cfg then cfg[workflow] else 3 }

  lemma RetryEffect(cfg: Configs, e: Engine, r: RunId, s: StepId, error: string, acked: bool)
    requires r in e.runs && e.runs[r].status != Cancelled && e.jobs[r] >= 1
    requires e.runs[r].parent.Some? ==> e.runs[r].parent.value.0 != r
    ensures var e', n := Next(cfg, e, DoFinish(r, FailsStep(s, error), acked)), Tried(e, r, s) + 1;
      && r in e'.runs
      && (n < Attempts(cfg, e.runs[r].workflow) ==>
            e'.runs == e.runs && e'.jobs[r] == e.jobs[r] + if acked then 0 else 1)
      && (n >= Attempts(cfg, e.runs[r].workflow) ==>
            e'.runs[r].status == Failed && e'.runs[r].error == Some(error))
  {
    assert CountFailure(JournalOf(e.steps, r), s)[s].attempts == Tried(e, r, s) + 1;
    hide CountFailure;
  }

  /** The next reported failure of a step, the n-th of the run: the run goes on, with its row as it
      was and a job to try again, exactly while `n` is below the limit; otherwise it fails. */
  lemma FailureRetriesIff(cfg: Configs, ops: seq<Op>, r: RunId, s: StepId, error: string, acked: bool)
    requires ValidRun(cfg, ops) && Legal(Exec(cfg, ops), DoFinish(r, FailsStep(s, error), acked))
    requires r in Exec(cfg, ops).runs && Exec(cfg, ops).runs[r].status != Cancelled
    ensures var op := DoFinish(r, FailsStep(s, error), acked);
      var e, e', n := Exec(cfg, ops), Exec(cfg, ops + [op]), FailuresOf(cfg, ops + [op], r, s);
      && n == FailuresOf(cfg, ops, r, s) + 1
      && r in e'.runs
      && (n < Attempts(cfg, e.runs[r].workflow) ==>
            && e'.runs[r] == e.runs[r] && Awake(e'.runs[r].status)
            && e'.jobs[r] == (e.jobs[r] + if acked then 0 else 1) >= 1)
      && (n >= Attempts(cfg, e.runs[r].workflow) ==>
            e'.runs[r].status == Failed && e'.runs[r].error == Some(error))
  {
    var op := DoFinish(r, FailsStep(s, error), acked);
    assert ops[..|ops|] == ops && (ops + [op])[..|ops|] == ops && (ops + [op])[..|ops| + 1] == ops + [op];
    assert Reports(Exec(cfg, ops), op, r, s);
    hide Exec, Next, Inv, Tried, FailuresOf, Reports;
    ExecSnoc(cfg, ops, op);
    FailuresUnfold(cfg, ops + [op], |ops|, r, s);
    CountsReports(cfg, ops, |ops|, r, s);
    RunKeepsInv(cfg, ops, |ops|, false);
    InFlight(Exec(cfg, ops), r);
    RetryEffect(cfg, Exec(cfg, ops), r, s, error, acked);
  }

  lemma InFlight(e: Engine, r: RunId)
    requires Inv(e, false) && r in e.inflight && r in e.runs
    ensures e.jobs[r] >= 1 && (Awake(e.runs[r].status) || e.runs[r].status == Cancelled)
    ensures e.runs[r].parent.Some? ==> e.runs[r].parent.value.0 != r
  {
  }

  /** A failing step is tried at most as often as configured, but at least once: no more failures of
      it are ever reported for a stored run, and the last one has ended the run. */
  lemma {:induction false} FailuresAreBounded(cfg: Configs, ops: seq<Op>, n: nat, r: RunId, s: StepId)
    requires ValidRun(cfg, ops) && n <= |ops|
    ensures r in Exec(cfg, ops[..n]).runs ==>
      var row, limit := Exec(cfg, ops[..n]).runs[r], Max(1, Attempts(cfg, Exec(cfg, ops[..n]).runs[r].workflow));
      FailuresOf(cfg, ops[..n], r, s) <= limit
      && (FailuresOf(cfg, ops[..n], r, s) == limit ==> Terminal(row.status))
  {
    hide Exec, Next, Inv, Tried, FailuresOf, Reports, Legal, ValidRun, SameEntry, Done;
    NothingYet(cfg, ops, r, s);
    if n > 0 && r in Exec(cfg, ops[..n]).runs {
      var e, op := Exec(cfg, ops[..n - 1]), ops[n - 1];
      FailuresAreBounded(cfg, ops, n - 1, r, s);
      CountsReports(cfg, ops, n - 1, r, s);
      FailuresUnfold(cfg, ops, n - 1, r, s);
      RunKeepsInv(cfg, ops, n - 1, false);
      StepOfRun(cfg, ops, n - 1);
      StepKeepsRun(cfg, e, op, r);
      StepCounts(cfg, e, op, r, s);
      ReportBounds(cfg, e, op, r, s, FailuresOf(cfg, ops[..n - 1], r, s));
      if r !in e.runs {
        NotReported(e, op, r, s);
      }
    }
  }

  /** A report is made while the run is awake, and ends it at the limit. */
  lemma ReportBounds(cfg: Configs, e: Engine, op: Op, r: RunId, s: StepId, n: nat)
    requires Inv(e, false) && Legal(e, op) && r in e.runs ==> n == Tried(e, r, s)
    ensures Inv(e, false) && Legal(e, op) && Reports(e, op, r, s) ==>
      !Terminal(e.runs[r].status)
      && (n + 1 >= Attempts(cfg, e.runs[r].workflow) ==>
            r in Next(cfg, e, op).runs && Terminal(Next(cfg, e, op).runs[r].status))
  {
    if Inv(e, false) && Legal(e, op) && Reports(e, op, r, s) {
      InFlight(e, r);
      hide Inv, Next, Tried;
      RetryEffect(cfg, e, r, s, op.outcome.error, op.acked);
    }
  }

  // ---- A step that always fails --------------------------------------------------------------------------------

  /** A run is triggered, and its step fails at each of `n` attempts. */
  function FailingRun(workflow: string, s: StepId, error: string, n: nat): seq<Op> {
    if n == 0 then [DoTrigger(workflow, None)]
    else FailingRun(workflow, s, error, n - 1) + [DoBegin(0), DoFinish(0, FailsStep(s, error), true)]
  }

  /** The tables after `n` failures that did not end the run. */
  function Trying(workflow: string, s: StepId, n: nat): Engine {
    Engine(map[0 := NewRun(workflow, None, None)],
           if n == 0 then map[] else map[0 := map[s := Step("run", false, None, n)]], multiset{0}, 1, {})
  }

  lemma OneMoreFailure(cfg: Configs, workflow: string, s: StepId, error: string, n: nat)
    ensures var e, op := Begin(Trying(workflow, s, n), 0), DoFinish(0, FailsStep(s, error), true);
      && Legal(Trying(workflow, s, n), DoBegin(0)) && Next(cfg, Trying(workflow, s, n), DoBegin(0)) == e
      && Legal(e, op)
      && (n + 1 < Attempts(cfg, workflow) ==> Next(cfg, e, op) == Trying(workflow, s, n + 1))
      && (n + 1 >= Attempts(cfg, workflow) ==>
            0 in Next(cfg, e, op).runs && Next(cfg, e, op).runs[0].status == Failed)
  {
    var e := Trying(workflow, s, n).(inflight := {0});
    assert Begin(Trying(workflow, s, n), 0) == e;
    assert Next(cfg, e, DoFinish(0, FailsStep(s, error), true)) == CloseAttempt(RetryStep(cfg, e, 0, s, error), 0, true);
    FailsOnce(cfg, e, workflow, s, error, n);
    hide RetryStep;
  }

  lemma FailsOnce(cfg: Configs, e: Engine, workflow: string, s: StepId, error: string, n: nat)
    requires e == Trying(workflow, s, n).(inflight := {0})
    ensures var e' := CloseAttempt(RetryStep(cfg, e, 0, s, error), 0, true);
      if n + 1 < Attempts(cfg, workflow) then e' == Trying(workflow, s, n + 1)
      else 0 in e'.runs && e'.runs[0].status == Failed
  {
    var j := map[s := Step("run", false, None, n + 1)];
    assert CountFailure(JournalOf(e.steps, 0), s) == j;
    assert e.steps[0 := j] == map[0 := j];
    assert multiset{0} + multiset{0} - multiset{0} == multiset{0};
    hide CountFailure, JournalOf;
  }

  /** A step that always fails is tried exactly as often as configured, and at least once: before
      that the run is runnable with one job, with that attempt it fails. */
  lemma {:induction false} AlwaysFailing(cfg: Configs, workflow: string, s: StepId, error: string, n: nat)
    requires n <= Max(1, Attempts(cfg, workflow))
    ensures var ops := FailingRun(workflow, s, error, n);
      && ValidRun(cfg, ops)
      && (n < Max(1, Attempts(cfg, workflow)) ==> Exec(cfg, ops) == Trying(workflow, s, n))
      && (n == Max(1, Attempts(cfg, workflow)) ==>
            0 in Exec(cfg, ops).runs && Exec(cfg, ops).runs[0].status == Failed)
  {
    hide *;
    FailingUnfold(workflow, s, error, n);
    LimitPositive(cfg, workflow);
    if n == 0 {
      NoOps(cfg);
      TriggerOnly(cfg, workflow, s);
      ExecSnoc(cfg, [], DoTrigger(workflow, None));
    } else {
      var before, last := FailingRun(workflow, s, error, n - 1), DoFinish(0, FailsStep(s, error), true);
      AlwaysFailing(cfg, workflow, s, error, n - 1);
      OneMoreFailure(cfg, workflow, s, error, n - 1);
      ExecSnoc(cfg, before, DoBegin(0));
      ExecSnoc(cfg, before + [DoBegin(0)], last);
    }
  }

  lemma FailingUnfold(workflow: string, s: StepId, error: string, n: nat)
    ensures n == 0 ==> FailingRun(workflow, s, error, n) == [] + [DoTrigger(workflow, None)]
    ensures n > 0 ==>
      FailingRun(workflow, s, error, n)
      == (FailingRun(workflow, s, error, n - 1) + [DoBegin(0)]) + [DoFinish(0, FailsStep(s, error), true)]
  {
  }

  lemma LimitPositive(cfg: Configs, workflow: string)
    ensures Max(1, Attempts(cfg, workflow)) >= 1 && Attempts(cfg, workflow) <= Max(1, Attempts(cfg, workflow))
    ensures Max(1, Attempts(cfg, workflow)) == Attempts(cfg, workflow) || Max(1, Attempts(cfg, workflow)) == 1
  {
  }

  lemma TriggerOnly(cfg: Configs, workflow: string, s: StepId)
    ensures Legal(Empty, DoTrigger(workflow, None))
    ensures Next(cfg, Empty, DoTrigger(workflow, None)) == Trying(workflow, s, 0)
  {
  }
}
