/** Crashes inside a handler: its store calls one by one, and the cuts between them that keep
    every wakeup. */
module Crashes {
  import opened Orders
  import opened Runs
  import opened WorkflowEngine
  import opened Wakeups
  import WorkflowStores

  // ---- Store calls -----------------------------------------------------------------------------------

  /** One store call of a handler. `Update` writes a run row, `Release` the rows of a set of
      event waiters, `Create` a row under a fresh id. */
  datatype Call =
    | Journal(run: RunId, step: StepId, kind: string, result: Option<Tokens>)
    | Count(run: RunId, step: StepId)
    | Update(run: RunId, row: Run)
    | Create(row: Run)
    | Push(run: RunId)
    | Release(ids: set<RunId>)

  function Do(e: Engine, c: Call): Engine {
    match c
    case Journal(r, step, kind, result) => e.(steps := RecordIn(e.steps, r, step, kind, result))
    case Count(r, step) => e.(steps := e.steps[r := CountFailure(JournalOf(e.steps, r), step)])
    case Update(r, row) => SetRun(e, r, row)
    case Create(row) => e.(runs := e.runs[e.nextId := row], nextId := e.nextId + 1)
    case Push(r) => Enqueue(e, r)
    case Release(ids) =>
      e.(runs := map r | r in e.runs :: if r in ids then WokenRun(e.runs[r], false) else e.runs[r])
  }

  function DoAll(e: Engine, calls: seq<Call>): Engine
    decreases |calls|
  {
    if calls == [] then e else DoAll(Do(e, calls[0]), calls[1..])
  }

  function SettleCalls(e: Engine, r: RunId, result: Tokens): seq<Call>
    requires r in e.runs
  {
    if e.runs[r].parent.None? then []
    else
      var (p, s) := e.runs[r].parent.value;
      [Journal(p, s, "invoke", Some(result))]
      + if p in e.runs && e.runs[p].status == WaitChild
        then [Update(p, e.runs[p].(status := Runnable)), Push(p)] else []
  }

  function EndCalls(e: Engine, r: RunId, row: Run, result: Tokens): seq<Call>
    requires r in e.runs
  {
    [Update(r, row)] + SettleCalls(e, r, result)
  }

  function FailCalls(e: Engine, r: RunId, error: string): seq<Call>
    requires r in e.runs
  {
    EndCalls(e, r, Finished(e.runs[r], Failed).(error := Some(error)), ErrorResult(error))
  }

  predicate Retries(cfg: Configs, e: Engine, r: RunId, step: StepId)
    requires r in e.runs
  {
    CountFailure(JournalOf(e.steps, r), step)[step].attempts < StepLimit(cfg, e.runs[r].workflow)
  }

  function ReuseCalls(e: Engine, r: RunId, step: StepId, child: RunId): seq<Call>
    requires r in e.runs && child in e.runs
  {
    var c := e.runs[child];
    if !Terminal(c.status) then [Update(r, e.runs[r].(status := WaitChild))]
    else
      var result := if c.status == Completed then OutputResult(if c.output.Some? then c.output.value else NullText)
                    else ErrorResult(if c.error.Some? then c.error.value else "child run failed");
      [Journal(r, step, "invoke", Some(result)), Push(r)]
  }

  /** A fresh child: its row, the parked parent, its job. */
  function StartCalls(e: Engine, r: RunId, step: StepId, workflow: string): seq<Call>
    requires r in e.runs
  {
    [Create(NewRun(workflow, Some((r, step)), Some(InvokeKey(r, step)))),
     Update(r, e.runs[r].(status := WaitChild)), Push(e.nextId)]
  }

  ghost function InvokeCalls(cfg: Configs, e: Engine, r: RunId, step: StepId, workflow: string): seq<Call>
    requires r in e.runs
  {
    var key := InvokeKey(r, step);
    if workflow !in cfg then FailCalls(e, r, "step '" + step + "': unknown workflow '" + workflow + "'")
    else if KeyTaken(e.runs, workflow, key) then ReuseCalls(e, r, step, RunOfKey(e.runs, workflow, key))
    else StartCalls(e, r, step, workflow)
  }

  /** The store calls that apply an outcome, in order. */
  ghost function ApplyCalls(cfg: Configs, e: Engine, r: RunId, o: Outcome): seq<Call>
    requires r in e.runs
  {
    var row := e.runs[r];
    match o
    case Completes(output) => EndCalls(e, r, Finished(row, Completed).(output := Some(output)), OutputResult(output))
    case Fails(error) => FailCalls(e, r, error)
    case Sleeps(step, wakeAt) =>
      [Journal(r, step, "sleep", None), Update(r, row.(status := Sleeping, wakeAt := Some(wakeAt))), Push(r)]
    case Waits(step, event, timeoutAt, m) =>
      [Update(r, row.(status := WaitEvent, waitEvent := Some(event), waitStep := Some(step),
                      wakeAt := timeoutAt, waitMatch := m))]
    case Invokes(step, workflow) => InvokeCalls(cfg, e, r, step, workflow)
    case FailsStep(step, error) =>
      [Count(r, step)] + if Retries(cfg, e, r, step) then [Push(r)] else FailCalls(e, r, error)
  }

  // ---- A handler is its calls ---------------------------------------------------------------------------

  lemma DoOne(e: Engine, a: Call)
    ensures DoAll(e, [a]) == Do(e, a)
  {
    assert DoAll(Do(e, a), [a][1..]) == Do(e, a);
  }

  lemma DoCons(e: Engine, a: Call, rest: seq<Call>)
    ensures DoAll(e, [a] + rest) == DoAll(Do(e, a), rest)
  {
    assert ([a] + rest)[1..] == rest;
  }

  lemma DoTwo(e: Engine, a: Call, b: Call)
    ensures DoAll(e, [a, b]) == Do(Do(e, a), b)
  {
    DoCons(e, a, [b]);
    assert [a] + [b] == [a, b];
    DoOne(Do(e, a), b);
    hide Do;
  }

  lemma DoThree(e: Engine, a: Call, b: Call, c: Call)
    ensures DoAll(e, [a, b, c]) == Do(Do(Do(e, a), b), c)
  {
    DoCons(e, a, [b, c]);
    assert [a] + [b, c] == [a, b, c];
    DoTwo(Do(e, a), b, c);
    hide Do;
  }

  lemma SettleIsCalls(e: Engine, e1: Engine, r: RunId, result: Tokens)
    requires r in e.runs && r in e1.runs && e1.runs[r].parent == e.runs[r].parent
    requires e.runs[r].parent.Some? ==>
      var p := e.runs[r].parent.value.0; (p in e1.runs <==> p in e.runs) && (p in e.runs ==> e1.runs[p] == e.runs[p])
    ensures DoAll(e1, SettleCalls(e, r, result)) == SettleParent(e1, r, result)
  {
    if e.runs[r].parent.Some? {
      var (p, s) := e.runs[r].parent.value;
      var first := Journal(p, s, "invoke", Some(result));
      if p in e.runs && e.runs[p].status == WaitChild {
        DoThree(e1, first, Update(p, e.runs[p].(status := Runnable)), Push(p));
        assert [first] + [Update(p, e.runs[p].(status := Runnable)), Push(p)]
          == [first, Update(p, e.runs[p].(status := Runnable)), Push(p)];
      } else {
        DoOne(e1, first);
      }
    }
  }

  lemma EndIsCalls(e: Engine, r: RunId, row: Run, result: Tokens)
    requires r in e.runs && row.parent == e.runs[r].parent && (row.parent.Some? ==> row.parent.value.0 != r)
    ensures DoAll(e, EndCalls(e, r, row, result)) == SettleParent(SetRun(e, r, row), r, result)
  {
    DoCons(e, Update(r, row), SettleCalls(e, r, result));
    SettleIsCalls(e, SetRun(e, r, row), r, result);
  }

  /** Applying an outcome is making its calls in order. */
  lemma ApplyIsCalls(cfg: Configs, e: Engine, r: RunId, o: Outcome)
    requires r in e.runs && r != e.nextId && (e.runs[r].parent.Some? ==> e.runs[r].parent.value.0 != r)
    ensures DoAll(e, ApplyCalls(cfg, e, r, o)) == Apply(cfg, e, r, o)
  {
    hide DoAll, SettleParent, EndCalls, FailCalls, FailRun, InvokeCalls, InvokeChild, RetryStep, Retries;
    var row := e.runs[r];
    match o
    case Completes(output) => EndIsCalls(e, r, Finished(row, Completed).(output := Some(output)), OutputResult(output));
    case Fails(error) => FailIsCalls(e, r, error);
    case Sleeps(step, wakeAt) =>
      DoThree(e, Journal(r, step, "sleep", None), Update(r, row.(status := Sleeping, wakeAt := Some(wakeAt))), Push(r));
    case Waits(step, event, timeoutAt, m) =>
      DoOne(e, Update(r, row.(status := WaitEvent, waitEvent := Some(event), waitStep := Some(step),
                              wakeAt := timeoutAt, waitMatch := m)));
    case Invokes(step, workflow) => InvokeIsCalls(cfg, e, r, step, workflow);
    case FailsStep(step, error) => RetryIsCalls(cfg, e, r, step, error);
  }

  lemma FailIsCalls(e: Engine, r: RunId, error: string)
    requires r in e.runs && (e.runs[r].parent.Some? ==> e.runs[r].parent.value.0 != r)
    ensures DoAll(e, FailCalls(e, r, error)) == FailRun(e, r, error)
  {
    hide DoAll, SettleParent, EndCalls;
    EndIsCalls(e, r, Finished(e.runs[r], Failed).(error := Some(error)), ErrorResult(error));
  }

  lemma StartIsCalls(e: Engine, r: RunId, step: StepId, workflow: string)
    requires r in e.runs && r != e.nextId
    ensures DoAll(e, StartCalls(e, r, step, workflow))
            == Spawn(SetRun(e, r, e.runs[r].(status := WaitChild)), workflow, Some((r, step)), Some(InvokeKey(r, step)))
  {
    var child, row := NewRun(workflow, Some((r, step)), Some(InvokeKey(r, step))), e.runs[r].(status := WaitChild);
    assert StartCalls(e, r, step, workflow) == [Create(child), Update(r, row), Push(e.nextId)];
    assert Spawn(SetRun(e, r, row), workflow, Some((r, step)), Some(InvokeKey(r, step)))
      == e.(runs := e.runs[r := row][e.nextId := child], jobs := e.jobs + multiset{e.nextId}, nextId := e.nextId + 1);
    hide *;
    StartRows(e, r, row, child);
  }

  lemma StartRows(e: Engine, r: RunId, row: Run, child: Run)
    requires r != e.nextId
    ensures DoAll(e, [Create(child), Update(r, row), Push(e.nextId)])
      == e.(runs := e.runs[r := row][e.nextId := child], jobs := e.jobs + multiset{e.nextId}, nextId := e.nextId + 1)
  {
    hide *;
    DoThree(e, Create(child), Update(r, row), Push(e.nextId));
    StartedRows(e, r, row, child);
  }

  lemma StartedRows(e: Engine, r: RunId, row: Run, child: Run)
    requires r != e.nextId
    ensures Do(Do(Do(e, Create(child)), Update(r, row)), Push(e.nextId))
      == e.(runs := e.runs[r := row][e.nextId := child], jobs := e.jobs + multiset{e.nextId}, nextId := e.nextId + 1)
  {
    hide *;
    DoCreate(e, child);
    DoUpdate(Do(e, Create(child)), r, row);
    DoPush(Do(Do(e, Create(child)), Update(r, row)), e.nextId);
    SwapUpdates(e.runs, e.nextId, child, r, row);
  }

  lemma DoCreate(e: Engine, row: Run)
    ensures Do(e, Create(row)) == e.(runs := e.runs[e.nextId := row], nextId := e.nextId + 1)
  {
  }

  lemma DoUpdate(e: Engine, r: RunId, row: Run)
    ensures Do(e, Update(r, row)) == e.(runs := e.runs[r := row])
  {
  }

  lemma DoPush(e: Engine, r: RunId)
    ensures Do(e, Push(r)) == e.(jobs := e.jobs + multiset{r})
  {
  }

  lemma SwapUpdates(t: RunTable, a: RunId, x: Run, b: RunId, y: Run)
    requires a != b
    ensures t[a := x][b := y] == t[b := y][a := x]
  {
  }

  lemma InvokeIsCalls(cfg: Configs, e: Engine, r: RunId, step: StepId, workflow: string)
    requires r in e.runs && r != e.nextId && (e.runs[r].parent.Some? ==> e.runs[r].parent.value.0 != r)
    ensures DoAll(e, InvokeCalls(cfg, e, r, step, workflow)) == InvokeChild(cfg, e, r, step, workflow)
  {
    hide DoAll, FailCalls, FailRun, ReuseCalls, ReuseChild, StartCalls, Spawn, SetRun, KeyTaken;
    if workflow !in cfg {
      FailIsCalls(e, r, "step '" + step + "': unknown workflow '" + workflow + "'");
    } else if KeyTaken(e.runs, workflow, InvokeKey(r, step)) {
      ReuseIsCalls(e, r, step, RunOfKey(e.runs, workflow, InvokeKey(r, step)));
    } else {
      StartIsCalls(e, r, step, workflow);
    }
  }

  lemma ReuseIsCalls(e: Engine, r: RunId, step: StepId, child: RunId)
    requires r in e.runs && child in e.runs
    ensures DoAll(e, ReuseCalls(e, r, step, child)) == ReuseChild(e, r, step, child)
  {
    hide DoAll;
    var calls := ReuseCalls(e, r, step, child);
    if Terminal(e.runs[child].status) {
      DoTwo(e, calls[0], calls[1]);
    } else {
      DoOne(e, calls[0]);
    }
  }

  lemma RetryIsCalls(cfg: Configs, e: Engine, r: RunId, step: StepId, error: string)
    requires r in e.runs && (e.runs[r].parent.Some? ==> e.runs[r].parent.value.0 != r)
    ensures DoAll(e, [Count(r, step)] + if Retries(cfg, e, r, step) then [Push(r)] else FailCalls(e, r, error))
            == RetryStep(cfg, e, r, step, error)
  {
    hide DoAll, FailCalls, FailRun, CountFailure, JournalOf;
    var e1 := Do(e, Count(r, step));
    if Retries(cfg, e, r, step) {
      DoTwo(e, Count(r, step), Push(r));
      assert [Count(r, step)] + [Push(r)] == [Count(r, step), Push(r)];
    } else {
      DoCons(e, Count(r, step), FailCalls(e, r, error));
      SameFailCalls(e, e1, r, error);
      FailIsCalls(e1, r, error);
    }
  }

  lemma SameFailCalls(e: Engine, e1: Engine, r: RunId, error: string)
    requires r in e.runs && e1.runs == e.runs
    ensures FailCalls(e1, r, error) == FailCalls(e, r, error)
  {
  }

  // ---- Lost wakeups -----------------------------------------------------------------------------------------

  /** Nothing will resume the run: it is awake without a job, or parked on nobody. */
  ghost predicate Stuck(e: Engine, x: RunId) {
    && x in e.runs && x !in e.inflight
    && ((Awake(e.runs[x].status) && e.jobs[x] == 0) || (e.runs[x].status == WaitChild && !HasLiveChild(e, x)))
  }

  lemma StuckBreaksInv(e: Engine, x: RunId)
    requires Stuck(e, x)
    ensures !Inv(e, false)
  {
  }

  /** Taking one job of an idle run away keeps the invariant exactly when the run does not need it. */
  lemma DropJobIff(e: Engine, r: RunId)
    requires Inv(e, false) && r in e.jobs && r !in e.inflight
    ensures Inv(e.(jobs := e.jobs - multiset{r}), false) <==>
            (r in e.runs && Awake(e.runs[r].status) ==> e.jobs[r] >= 2)
    ensures r in e.runs && Awake(e.runs[r].status) && e.jobs[r] == 1 ==> Stuck(e.(jobs := e.jobs - multiset{r}), r)
  {
    var e' := e.(jobs := e.jobs - multiset{r});
    if r in e.runs && Awake(e.runs[r].status) && e.jobs[r] == 1 {
      StuckBreaksInv(e', r);
    } else {
      hide Family, Keys, Work;
      RowOf(e, false, r);
      LocalKeepsInv(e, e', false, r);
    }
  }

  // ---- Cuts ----------------------------------------------------------------------------------------------------

  /** The worker of run `r` dies after the first `k` calls: its job is not acknowledged. */
  function Crashed(e: Engine, r: RunId, calls: seq<Call>, k: nat): Engine
    requires k <= |calls|
  {
    var e' := DoAll(e, calls[..k]);
    e'.(inflight := e'.inflight - {r})
  }

  /** With `k` calls of a run's end made: nothing yet, nobody to tell, everything, or the parent
      made runnable while an older job of it is still there. */
  predicate EndSafe(e: Engine, r: RunId, k: nat)
    requires r in e.runs
  {
    k == 0 || e.runs[r].parent.None? || k >= 4 || (k == 3 && e.runs[r].parent.value.0 in e.jobs)
  }

  /** The cuts of an outcome that keep every wakeup. */
  ghost predicate SafeCut(cfg: Configs, e: Engine, r: RunId, o: Outcome, k: nat)
    requires r in e.runs
  {
    match o
    case Completes(_) => EndSafe(e, r, k)
    case Fails(_) => EndSafe(e, r, k)
    case Sleeps(_, _) => true
    case Waits(_, _, _, _) => true
    case Invokes(step, workflow) =>
      if workflow !in cfg then EndSafe(e, r, k)
      else KeyTaken(e.runs, workflow, InvokeKey(r, step)) || k == 0 || k == 3
    case FailsStep(step, _) => k == 0 || Retries(cfg, e, r, step) || EndSafe(e, r, k - 1)
  }

  /** The run an unsafe cut strands: a child that was being started, or else the parent. */
  function Victim(e: Engine, r: RunId, o: Outcome, cfg: Configs): RunId
    requires r in e.runs
  {
    if (o.Invokes? && o.workflow in cfg) || e.runs[r].parent.None? then e.nextId else e.runs[r].parent.value.0
  }

  /** A live child's parent is another, parked run. */
  lemma ParentOf(e: Engine, r: RunId)
    requires Inv(e, false) && r in e.runs && Live(e.runs, r) && e.runs[r].parent.Some?
    ensures var p := e.runs[r].parent.value.0;
      p in e.runs && p != r && e.runs[p].status == WaitChild && p !in e.inflight && p < e.nextId
    ensures forall c | ChildOf(e.runs, e.runs[r].parent.value.0, c) && Live(e.runs, c) :: c == r
  {
  }

  /** The parent is parked on a child that has just ended. */
  lemma UnsettledIsStuck(e: Engine, e': Engine, r: RunId, row: Run)
    requires Inv(e, false) && r in e.runs && Live(e.runs, r) && e.runs[r].parent.Some?
    requires Terminal(row.status) && row.parent == e.runs[r].parent
    requires e'.runs == e.runs[r := row] && e'.inflight <= e.inflight
    ensures Stuck(e', e.runs[r].parent.value.0)
  {
    ParentOf(e, r);
    var p := e.runs[r].parent.value.0;
    hide Inv;
    forall c | ChildOf(e'.runs, p, c) ensures !Live(e'.runs, c) {
      assert c != r ==> !(ChildOf(e.runs, p, c) && Live(e.runs, c));
    }
  }

  lemma CrashedAtStart(e: Engine, r: RunId, calls: seq<Call>)
    ensures Crashed(e, r, calls, 0) == e.(inflight := e.inflight - {r})
  {
    assert calls[..0] == [];
  }

  lemma CrashedAtEnd(e: Engine, r: RunId, calls: seq<Call>)
    ensures Crashed(e, r, calls, |calls|) == CloseAttempt(DoAll(e, calls), r, false)
  {
    assert calls[..|calls|] == calls;
  }

  lemma CrashedLater(e: Engine, r: RunId, first: Call, rest: seq<Call>, k: nat)
    requires 1 <= k <= |rest| + 1
    ensures Crashed(e, r, [first] + rest, k) == Crashed(Do(e, first), r, rest, k - 1)
  {
    assert ([first] + rest)[..k] == [first] + rest[..k - 1];
    DoCons(e, first, rest[..k - 1]);
    hide Do;
  }

  /** The calls that end a child and tell its parent. */
  lemma ChildEndCalls(e: Engine, r: RunId, row: Run, result: Tokens)
    requires r in e.runs && e.runs[r].parent.Some?
    requires var p := e.runs[r].parent.value.0; p in e.runs && e.runs[p].status == WaitChild
    ensures var (p, s) := e.runs[r].parent.value;
      EndCalls(e, r, row, result)
      == [Update(r, row), Journal(p, s, "invoke", Some(result)), Update(p, e.runs[p].(status := Runnable)), Push(p)]
  {
  }

  lemma ChildEndCut(e: Engine, r: RunId, row: Run, p: RunId, s: StepId, result: Tokens, k: nat)
    requires p in e.runs && r in e.runs && p != r && e.runs[r].parent == Some((p, s)) && e.runs[p].status == WaitChild
    requires 1 <= k <= 3
    ensures var e' := Crashed(e, r, EndCalls(e, r, row, result), k);
      && (k < 3 ==> e'.runs == e.runs[r := row] && e'.inflight <= e.inflight)
      && (k == 3 ==>
            AfterChild(e, r, row, p, s, result, false).jobs == e.jobs + multiset{p}
            && e' == AfterChild(e, r, row, p, s, result, false).(jobs := e.jobs))
  {
    var a, b, c := Update(r, row), Journal(p, s, "invoke", Some(result)), Update(p, e.runs[p].(status := Runnable));
    var calls := [a, b, c, Push(p)];
    ChildEndCalls(e, r, row, result);
    hide DoAll, EndCalls;
    if k == 1 {
      assert calls[..k] == [a];
      DoOne(e, a);
    } else if k == 2 {
      assert calls[..k] == [a, b];
      DoTwo(e, a, b);
    } else {
      assert calls[..k] == [a, b, c];
      DoThree(e, a, b, c);
    }
  }

  /** A run's end cut after `k` calls. */
  lemma EndCut(e: Engine, r: RunId, row: Run, result: Tokens, k: nat)
    requires Ending(e, false, r, false) && SameIds(e.runs[r], row) && Terminal(row.status)
    requires k <= |EndCalls(e, r, row, result)|
    ensures EndSafe(e, r, k) ==> Inv(Crashed(e, r, EndCalls(e, r, row, result), k), false)
    ensures !EndSafe(e, r, k) ==> Stuck(Crashed(e, r, EndCalls(e, r, row, result), k), e.runs[r].parent.value.0)
  {
    var calls := EndCalls(e, r, row, result);
    if e.runs[r].parent.None? {
      assert |calls| == 1;
    } else {
      ParentOf(e, r);
      ChildEndCalls(e, r, row, result);
    }
    hide Family, Keys, Work, DoAll, EndCalls, Stuck, Crashed;
    if k == 0 {
      CrashedAtStart(e, r, calls);
      CrashKeepsInv(e, false, r);
    } else if k == |calls| {
      CrashedAtEnd(e, r, calls);
      EndIsCalls(e, r, row, result);
      EndKeepsInv(e, false, r, row, result, false);
    } else {
      var (p, s) := e.runs[r].parent.value;
      ChildEndCut(e, r, row, p, s, result, k);
      if k < 3 {
        UnsettledIsStuck(e, Crashed(e, r, calls, k), r, row);
      } else {
        LastEndCut(e, r, row, p, s, result);
      }
    }
  }

  lemma LastEndCut(e: Engine, r: RunId, row: Run, p: RunId, s: StepId, result: Tokens)
    requires Ending(e, false, r, false) && SameIds(e.runs[r], row) && Terminal(row.status)
    requires p in e.runs && p != r && e.runs[r].parent == Some((p, s)) && e.runs[p].status == WaitChild
      && p !in e.inflight
    ensures var full := AfterChild(e, r, row, p, s, result, false);
      if p in e.jobs then Inv(full.(jobs := e.jobs), false) else Stuck(full.(jobs := e.jobs), p)
  {
    var full := AfterChild(e, r, row, p, s, result, false);
    EndChildWork(e, false, r, row, p, s, result, false);
    EndChildFamily(e, r, row, p, s, result, false);
    hide Family, Keys, Work, Stuck;
    assert Inv(full, false);
    DropJobIff(full, p);
    assert full.jobs - multiset{p} == e.jobs;
  }

  /** A cut after the first call of a step that only writes the journal of the attempt's run. */
  lemma JournalCut(e: Engine, r: RunId, first: Call, rest: seq<Call>)
    requires Inv(e, false) && r in e.inflight && (first.Journal? || first.Count?) && first.run == r
    ensures Inv(Crashed(e, r, [first] + rest, 1), false)
  {
    var j := if first.Count? then CountFailure(JournalOf(e.steps, r), first.step)
             else Record(JournalOf(e.steps, r), first.step, first.kind, first.result);
    CrashedLater(e, r, first, rest, 1);
    CrashedAtStart(Do(e, first), r, rest);
    assert Do(e, first) == e.(steps := e.steps[r := j]);
    hide Inv, Crashed, Do;
    JournalKeepsInv(e, false, r, j);
    CrashKeepsInv(e.(steps := e.steps[r := j]), false, r);
  }

  /** Everything was written, but the acknowledgement is lost. */
  lemma LastCut(cfg: Configs, e: Engine, r: RunId, o: Outcome)
    requires Ending(e, false, r, false) && Suspends(e, r, o)
    ensures Inv(Crashed(e, r, ApplyCalls(cfg, e, r, o), |ApplyCalls(cfg, e, r, o)|), false)
  {
    assert r < e.nextId && (e.runs[r].parent.Some? ==> e.runs[r].parent.value.0 != r);
    hide Inv, Apply, DoAll, Crashed, ApplyCalls, Suspends;
    CrashedAtEnd(e, r, ApplyCalls(cfg, e, r, o));
    ApplyIsCalls(cfg, e, r, o);
    ApplyKeepsInv(cfg, e, false, r, o, false);
  }

  lemma SleepCut(e: Engine, r: RunId, step: StepId, wakeAt: int)
    requires Ending(e, false, r, false)
    ensures var calls := [Journal(r, step, "sleep", None),
                          Update(r, e.runs[r].(status := Sleeping, wakeAt := Some(wakeAt))), Push(r)];
      Inv(Crashed(e, r, calls, 2), false)
  {
    var a, b := Journal(r, step, "sleep", None), Update(r, e.runs[r].(status := Sleeping, wakeAt := Some(wakeAt)));
    var j := Record(JournalOf(e.steps, r), step, "sleep", None);
    assert [a, b, Push(r)][..2] == [a, b];
    DoTwo(e, a, b);
    assert e.jobs + multiset{r} - multiset{r} == e.jobs;
    assert Crashed(e, r, [a, b, Push(r)], 2) == AfterStay(e, r, b.row, j, true, true);
    hide Family, Keys, Work, AfterStay, Crashed, Record;
    StayKeepsInv(e, false, r, b.row, j, true, true);
  }

  lemma StartCut(e: Engine, r: RunId, step: StepId, workflow: string, k: nat)
    requires Ending(e, false, r, false) && !Done(e.steps, r, step) && 1 <= k <= 2
    ensures Stuck(Crashed(e, r, StartCalls(e, r, step, workflow), k), e.nextId)
  {
    var calls := StartCalls(e, r, step, workflow);
    var child := NewRun(workflow, Some((r, step)), Some(InvokeKey(r, step)));
    RowOf(e, false, e.nextId);
    RowOf(e, false, r);
    hide Inv, DoAll;
    if k == 1 {
      assert calls[..k] == [calls[0]];
      DoOne(e, calls[0]);
    } else {
      assert calls[..k] == [calls[0], calls[1]];
      DoTwo(e, calls[0], calls[1]);
    }
  }

  /** For every outcome and every cut between its store calls: the invariant survives the crash
      exactly at the safe cuts, and an unsafe cut strands a run. */
  lemma CutKeepsInvIff(cfg: Configs, e: Engine, r: RunId, o: Outcome, k: nat)
    requires Inv(e, false) && r in e.inflight && r in e.runs && Awake(e.runs[r].status) && Suspends(e, r, o)
    requires k <= |ApplyCalls(cfg, e, r, o)|
    ensures Inv(Crashed(e, r, ApplyCalls(cfg, e, r, o), k), false) <==> SafeCut(cfg, e, r, o, k)
    ensures !SafeCut(cfg, e, r, o, k) ==> Stuck(Crashed(e, r, ApplyCalls(cfg, e, r, o), k), Victim(e, r, o, cfg))
  {
    assert Ending(e, false, r, false);
    CutOutcome(cfg, e, r, o, k);
    if !SafeCut(cfg, e, r, o, k) {
      StuckBreaksInv(Crashed(e, r, ApplyCalls(cfg, e, r, o), k), Victim(e, r, o, cfg));
    }
    hide *;
  }

  lemma CutOutcome(cfg: Configs, e: Engine, r: RunId, o: Outcome, k: nat)
    requires Ending(e, false, r, false) && Suspends(e, r, o) && k <= |ApplyCalls(cfg, e, r, o)|
    ensures SafeCut(cfg, e, r, o, k) ==> Inv(Crashed(e, r, ApplyCalls(cfg, e, r, o), k), false)
    ensures !SafeCut(cfg, e, r, o, k) ==> Stuck(Crashed(e, r, ApplyCalls(cfg, e, r, o), k), Victim(e, r, o, cfg))
  {
    var calls, row := ApplyCalls(cfg, e, r, o), e.runs[r];
    hide Family, Keys, Work, Crashed, Stuck, EndCalls, CountFailure;
    if k == 0 {
      CrashedAtStart(e, r, calls);
      CrashKeepsInv(e, false, r);
    }
    if k == |calls| {
      LastCut(cfg, e, r, o);
    }
    match o
    case Completes(output) => EndCut(e, r, Finished(row, Completed).(output := Some(output)), OutputResult(output), k);
    case Fails(error) => EndCut(e, r, Finished(row, Failed).(error := Some(error)), ErrorResult(error), k);
    case Sleeps(step, wakeAt) =>
      if k == 1 {
        assert calls == [calls[0]] + calls[1..];
        JournalCut(e, r, calls[0], calls[1..]);
      } else if k == 2 {
        SleepCut(e, r, step, wakeAt);
      }
    case Waits(step, event, timeoutAt, m) =>
    case Invokes(step, workflow) => CutInvoke(cfg, e, r, step, workflow, k);
    case FailsStep(step, error) =>
      if k > 0 {
        CutRetry(cfg, e, r, step, error, k);
      }
  }

  lemma CutInvoke(cfg: Configs, e: Engine, r: RunId, step: StepId, workflow: string, k: nat)
    requires Ending(e, false, r, false) && !Done(e.steps, r, step) && k <= |InvokeCalls(cfg, e, r, step, workflow)|
    ensures var o, calls := Invokes(step, workflow), InvokeCalls(cfg, e, r, step, workflow);
      if SafeCut(cfg, e, r, o, k) then Inv(Crashed(e, r, calls, k), false)
      else Stuck(Crashed(e, r, calls, k), Victim(e, r, o, cfg))
  {
    var o, calls := Invokes(step, workflow), InvokeCalls(cfg, e, r, step, workflow);
    assert ApplyCalls(cfg, e, r, o) == calls;
    hide Family, Keys, Work, Crashed, Stuck, EndCalls, StartCalls;
    if k == 0 {
      CrashedAtStart(e, r, calls);
      CrashKeepsInv(e, false, r);
    } else if workflow !in cfg {
      var error := "step '" + step + "': unknown workflow '" + workflow + "'";
      EndCut(e, r, Finished(e.runs[r], Failed).(error := Some(error)), ErrorResult(error), k);
    } else if k == |calls| {
      LastCut(cfg, e, r, o);
      ThreeStartCalls(e, r, step, workflow);
    } else if KeyTaken(e.runs, workflow, InvokeKey(r, step)) {
      var child := RunOfKey(e.runs, workflow, InvokeKey(r, step));
      ReuseKeepsInv(e, false, r, step, child, false);
      assert calls == [calls[0]] + calls[1..];
      JournalCut(e, r, calls[0], calls[1..]);
    } else {
      ThreeStartCalls(e, r, step, workflow);
      StartCut(e, r, step, workflow, k);
    }
  }

  lemma ThreeStartCalls(e: Engine, r: RunId, step: StepId, workflow: string)
    requires r in e.runs
    ensures |StartCalls(e, r, step, workflow)| == 3
  {
  }

  lemma CutRetry(cfg: Configs, e: Engine, r: RunId, step: StepId, error: string, k: nat)
    requires Ending(e, false, r, false) && 1 <= k
    requires k <= if Retries(cfg, e, r, step) then 2 else 1 + |FailCalls(e, r, error)|
    ensures var calls := [Count(r, step)] + if Retries(cfg, e, r, step) then [Push(r)] else FailCalls(e, r, error);
      if Retries(cfg, e, r, step) || EndSafe(e, r, k - 1) then Inv(Crashed(e, r, calls, k), false)
      else Stuck(Crashed(e, r, calls, k), e.runs[r].parent.value.0)
  {
    var e1, first := Do(e, Count(r, step)), Count(r, step);
    hide Family, Keys, Work, Crashed, Stuck, EndCalls, CountFailure;
    if Retries(cfg, e, r, step) {
      if k == 1 {
        JournalCut(e, r, first, [Push(r)]);
      } else {
        LastCut(cfg, e, r, FailsStep(step, error));
        assert |[first] + [Push(r)]| == 2;
      }
    } else {
      CrashedLater(e, r, first, FailCalls(e, r, error), k);
      JournalKeepsInv(e, false, r, CountFailure(JournalOf(e.steps, r), step));
      SameFailCalls(e, e1, r, error);
      EndCut(e1, r, Finished(e.runs[r], Failed).(error := Some(error)), ErrorResult(error), k - 1);
    }
  }

  // ---- Triggers and timeout sweeps ---------------------------------------------------------------------------

  ghost function TriggerCalls(e: Engine, workflow: string, key: Option<string>): seq<Call> {
    if key.Some? && KeyTaken(e.runs, workflow, UserKey(key.value)) then []
    else [Create(NewRun(workflow, None, if key.Some? then Some(UserKey(key.value)) else None)), Push(e.nextId)]
  }

  lemma TriggerIsCalls(e: Engine, workflow: string, key: Option<string>)
    ensures DoAll(e, TriggerCalls(e, workflow, key)) == Trigger(e, workflow, key)
  {
    hide DoAll, KeyTaken;
    var calls := TriggerCalls(e, workflow, key);
    if calls == [] {
      DoNothing(e);
    } else {
      DoTwo(e, calls[0], calls[1]);
    }
  }

  lemma DoNothing(e: Engine)
    ensures DoAll(e, []) == e
  {
  }

  lemma RowWithoutJob(e: Engine, row: Run)
    requires Inv(e, false) && Awake(row.status)
    ensures Stuck(Do(e, Create(row)), e.nextId)
  {
    RowOf(e, false, e.nextId);
    hide Inv;
  }

  /** A trigger is its two calls, and a crash between them, and only there, strands the new run. */
  lemma TriggerCutIff(e: Engine, workflow: string, key: Option<string>, k: nat)
    requires Inv(e, false) && k <= |TriggerCalls(e, workflow, key)|
    ensures DoAll(e, TriggerCalls(e, workflow, key)) == Trigger(e, workflow, key)
    ensures Inv(DoAll(e, TriggerCalls(e, workflow, key)[..k]), false) <==> k != 1
    ensures k == 1 ==> Stuck(DoAll(e, TriggerCalls(e, workflow, key)[..k]), e.nextId)
  {
    hide Inv, Stuck, DoAll, Do, Spawn;
    var calls, idem := TriggerCalls(e, workflow, key), if key.Some? then Some(UserKey(key.value)) else None;
    TriggerIsCalls(e, workflow, key);
    if k == 0 {
      assert calls[..0] == [];
      DoNothing(e);
    } else if k == 1 {
      assert calls[..1] == [calls[0]];
      DoOne(e, calls[0]);
      RowWithoutJob(e, calls[0].row);
      StuckBreaksInv(DoAll(e, calls[..1]), e.nextId);
    } else {
      assert calls[..2] == calls;
      SpawnKeepsInv(e, false, workflow, idem);
    }
  }

  /** The record and the job of the released waiters, one waiter after the other. */
  function WaiterCall(runs: RunTable, ws: seq<RunId>, j: nat): Call
    requires j < 2 * |ws|
  {
    var w := ws[j / 2];
    if j % 2 == 0 then Journal(w, if w in runs then WaitStepOf(runs[w]) else "", "waitForEvent", Some(TimedOutResult))
    else Push(w)
  }

  function WaiterCalls(runs: RunTable, ws: seq<RunId>): seq<Call> {
    seq(2 * |ws|, j requires 0 <= j < 2 * |ws| => WaiterCall(runs, ws, j))
  }

  function Members(ws: seq<RunId>): set<RunId> { set w | w in ws }

  function SweepCalls(e: Engine, ws: seq<RunId>): seq<Call> {
    [Release(Members(ws))] + WaiterCalls(e.runs, ws)
  }

  ghost predicate Distinct(ws: seq<RunId>) { forall i, j | 0 <= i < j < |ws| :: ws[i] != ws[j] }

  lemma {:induction false} DoSnoc(e: Engine, calls: seq<Call>, c: Call)
    ensures DoAll(e, calls + [c]) == Do(DoAll(e, calls), c)
    decreases |calls|
  {
    if calls == [] {
      assert calls + [c] == [c];
      DoOne(e, c);
    } else {
      assert (calls + [c])[1..] == calls[1..] + [c];
      DoSnoc(Do(e, calls[0]), calls[1..], c);
    }
    hide Do;
  }

  /** Some rows are released and some of them have their record, or their record and their job. */
  ghost predicate PartlySwept(e: Engine, e': Engine, ws: seq<RunId>, j: nat) {
    && e'.runs == Do(e, Release(Members(ws))).runs && e'.nextId == e.nextId && e'.inflight == e.inflight
    && e'.steps.Keys <= e.steps.Keys + Members(ws)
    && (forall x | x !in ws :: JournalOf(e'.steps, x) == JournalOf(e.steps, x) && e'.jobs[x] == e.jobs[x])
    && (forall i | 0 <= i < |ws| :: e'.jobs[ws[i]] == e.jobs[ws[i]] + if 2 * i + 1 < j then 1 else 0)
  }

  lemma SweptOneMore(e: Engine, e': Engine, ws: seq<RunId>, j: nat)
    requires Distinct(ws) && PartlySwept(e, e', ws, j) && j < 2 * |ws|
    ensures PartlySwept(e, Do(e', WaiterCall(e.runs, ws, j)), ws, j + 1)
  {
    var c, w := WaiterCall(e.runs, ws, j), ws[j / 2];
    assert w in ws;
    hide RecordIn;
    if j % 2 == 0 {
      JournalElsewhere(e', w, c.step, c.kind, c.result);
    }
  }

  lemma JournalElsewhere(e: Engine, w: RunId, step: StepId, kind: string, result: Option<Tokens>)
    ensures var steps := RecordIn(e.steps, w, step, kind, result);
      steps.Keys == e.steps.Keys + {w} && forall x | x != w :: JournalOf(steps, x) == JournalOf(e.steps, x)
  {
  }

  lemma {:induction false} SweptAfter(e: Engine, ws: seq<RunId>, j: nat)
    requires Distinct(ws) && j <= 2 * |ws|
    ensures PartlySwept(e, DoAll(e, SweepCalls(e, ws)[..j + 1]), ws, j)
  {
    var calls := SweepCalls(e, ws);
    hide Do, WaiterCall, Members;
    if j == 0 {
      assert calls[..1] == [Release(Members(ws))];
      DoOne(e, calls[0]);
      ReleasedOnly(e, ws);
    } else {
      SweptAfter(e, ws, j - 1);
      assert calls[..j + 1] == calls[..j] + [WaiterCall(e.runs, ws, j - 1)];
      DoSnoc(e, calls[..j], calls[j]);
      hide PartlySwept;
      SweptOneMore(e, DoAll(e, calls[..j]), ws, j - 1);
    }
  }

  lemma ReleasedOnly(e: Engine, ws: seq<RunId>)
    ensures PartlySwept(e, Do(e, Release(Members(ws))), ws, 0)
  {
  }

  lemma SweptShape(e: Engine, e': Engine, ws: seq<RunId>, j: nat)
    requires PartlySwept(e, e', ws, j) && forall w | w in ws :: w in e.runs && e.runs[w].status == WaitEvent
    ensures SameShape(e, e')
  {
    forall p, s | p in e.runs && e.runs[p].status == WaitChild && Done(e'.steps, p, s) ensures Done(e.steps, p, s) {
      assert p !in ws;
      assert JournalOf(e'.steps, p) == JournalOf(e.steps, p);
    }
    hide Done;
  }

  /** A partial sweep keeps the invariant exactly when every released run has a job. */
  lemma PartialSweepIff(e: Engine, e': Engine, ws: seq<RunId>, j: nat)
    requires Inv(e, false) && PartlySwept(e, e', ws, j)
    requires forall w | w in ws :: w in e.runs && e.runs[w].status == WaitEvent
    ensures Inv(e', false) <==> forall w | w in ws :: w in e'.jobs
    ensures forall w | w in ws && w !in e'.jobs :: Stuck(e', w)
  {
    SweptRows(e, e', ws, j);
    hide Family, Keys, Work, PartlySwept, SameShape;
    if forall w | w in ws :: w in e'.jobs {
      SweptShape(e, e', ws, j);
      assert Work(e', false) by {
        hide Stuck;
        SweptWork(e, e', ws, j);
      }
      CarryInv(e, e', false);
    } else {
      var w :| w in ws && w !in e'.jobs;
      StuckBreaksInv(e', w);
    }
  }

  lemma SweptRows(e: Engine, e': Engine, ws: seq<RunId>, j: nat)
    requires Inv(e, false) && PartlySwept(e, e', ws, j)
    requires forall w | w in ws :: w in e.runs && e.runs[w].status == WaitEvent
    ensures forall w | w in ws :: w in e'.runs && e'.runs[w].status == Runnable && w !in e'.inflight && w < e.nextId
    ensures forall w | w in ws && w !in e'.jobs :: Stuck(e', w)
  {
    hide Family, Keys, Work;
    forall w | w in ws ensures w !in e.inflight && w < e.nextId {
      RowOf(e, false, w);
    }
    ReleasedWaiters(e, e', ws, j);
  }

  lemma ReleasedWaiters(e: Engine, e': Engine, ws: seq<RunId>, j: nat)
    requires PartlySwept(e, e', ws, j) && forall w | w in ws :: w in e.runs
    ensures e'.inflight == e.inflight
    ensures forall w | w in ws :: w in e'.runs && e'.runs[w].status == Runnable
  {
  }

  lemma SweptWork(e: Engine, e': Engine, ws: seq<RunId>, j: nat)
    requires Inv(e, false) && PartlySwept(e, e', ws, j)
    requires forall w | w in ws :: w in e.runs && e.runs[w].status == WaitEvent && w in e'.jobs
    ensures Work(e', false)
  {
    SweptRows(e, e', ws, j);
    hide Family, Keys, Work, Stuck;
    forall x | x !in Members(ws) ensures Untouched(e, e', x) {
      assert x !in ws;
    }
    WorkByRow(e, e', false, Members(ws));
  }

  /** The cuts of a sweep that strand nobody: none of its calls made, or every waiter whose job
      is not pushed yet still has an older one. */
  predicate SafeSweepCut(e: Engine, ws: seq<RunId>, k: nat) {
    k == 0 || forall i | 0 <= i < |ws| && k < 2 * i + 3 :: ws[i] in e.jobs
  }

  /** For every order of the timed-out waiters and every cut of the sweep's calls. */
  lemma SweepCutIff(e: Engine, now: int, ws: seq<RunId>, k: nat)
    requires Inv(e, false) && Distinct(ws) && Members(ws) == TimedOut(e, now) && k <= |SweepCalls(e, ws)|
    ensures Inv(DoAll(e, SweepCalls(e, ws)[..k]), false) <==> SafeSweepCut(e, ws, k)
    ensures !SafeSweepCut(e, ws, k) ==> exists w :: w in ws && Stuck(DoAll(e, SweepCalls(e, ws)[..k]), w)
  {
    var e' := DoAll(e, SweepCalls(e, ws)[..k]);
    forall w | w in ws ensures w in e.runs && e.runs[w].status == WaitEvent {
      assert w in Members(ws);
    }
    if k == 0 {
      assert SweepCalls(e, ws)[..0] == [];
    } else {
      SweptAfter(e, ws, k - 1);
      hide Inv, DoAll, SweepCalls, Stuck, Members;
      PartialSweepIff(e, e', ws, k - 1);
      SweptJobs(e, e', ws, k - 1);
    }
  }

  lemma SweptJobs(e: Engine, e': Engine, ws: seq<RunId>, j: nat)
    requires PartlySwept(e, e', ws, j)
    ensures (forall w | w in ws :: w in e'.jobs) <==> SafeSweepCut(e, ws, j + 1)
  {
    forall i | 0 <= i < |ws| ensures ws[i] in e'.jobs <==> (j + 1 < 2 * i + 3 ==> ws[i] in e.jobs) {
      assert e'.jobs[ws[i]] == e.jobs[ws[i]] + if 2 * i + 1 < j then 1 else 0;
    }
    hide PartlySwept;
    if SafeSweepCut(e, ws, j + 1) {
      forall w | w in ws ensures w in e'.jobs {
        var i :| 0 <= i < |ws| && ws[i] == w;
      }
    }
  }

  lemma MembersSnoc(ws: seq<RunId>, i: nat)
    requires i < |ws|
    ensures Members(ws[..i + 1]) == Members(ws[..i]) + {ws[i]}
  {
    assert ws[..i + 1] == ws[..i] + [ws[i]];
  }

  lemma {:induction false} SweptSteps(e: Engine, ws: seq<RunId>, i: nat)
    requires Distinct(ws) && Members(ws) <= e.runs.Keys && i <= |ws|
    ensures Members(ws[..i]) <= e.runs.Keys
    ensures var e', w := DoAll(e, SweepCalls(e, ws)[..2 * i + 1]), Wake(e, Members(ws[..i]), TimedOutResult, false);
      e'.steps == w.steps && e'.jobs == w.jobs
  {
    hide Wake, DoAll, RecordIn;
    var calls := SweepCalls(e, ws);
    if i == 0 {
      assert calls[..1] == [Release(Members(ws))];
      DoOne(e, calls[0]);
      assert Members(ws[..0]) == {};
      WorkflowStores.WakeNobody(e, TimedOutResult, false);
    } else {
      SweptSteps(e, ws, i - 1);
      MembersSnoc(ws, i - 1);
      var w, done := ws[i - 1], Members(ws[..i - 1]);
      assert w in Members(ws) && w !in done;
      WorkflowStores.WakeOneMoreStep(e, done, w, TimedOutResult, false);
      WorkflowStores.WakeOneMoreJob(e, done, w, TimedOutResult, false);
      assert calls[..2 * i] == calls[..2 * i - 1] + [WaiterCall(e.runs, ws, 2 * i - 2)];
      assert calls[..2 * i + 1] == calls[..2 * i] + [WaiterCall(e.runs, ws, 2 * i - 1)];
      DoSnoc(e, calls[..2 * i - 1], calls[2 * i - 1]);
      DoSnoc(e, calls[..2 * i], calls[2 * i]);
    }
  }

  /** A timeout sweep is its calls, whatever order the rows come back in. */
  lemma SweepIsCalls(e: Engine, now: int, ws: seq<RunId>)
    requires Distinct(ws) && Members(ws) == TimedOut(e, now)
    ensures DoAll(e, SweepCalls(e, ws)) == SweepTimeouts(e, now)
  {
    hide DoAll, SweepCalls, Wake, TimedOut, PartlySwept;
    var calls := SweepCalls(e, ws);
    forall w | w in Members(ws) ensures w in e.runs {
      TimedOutRuns(e, now, w);
    }
    SweptSteps(e, ws, |ws|);
    SweptAfter(e, ws, 2 * |ws|);
    SweepLength(e, ws);
    assert ws[..|ws|] == ws && calls[..2 * |ws| + 1] == calls;
    SweptRuns(e, DoAll(e, calls), ws, 2 * |ws|);
  }

  lemma TimedOutRuns(e: Engine, now: int, w: RunId)
    requires w in TimedOut(e, now)
    ensures w in e.runs
  {
  }

  lemma SweptRuns(e: Engine, e': Engine, ws: seq<RunId>, j: nat)
    requires PartlySwept(e, e', ws, j) && Members(ws) <= e.runs.Keys
    ensures var w := Wake(e, Members(ws), TimedOutResult, false);
      e'.runs == w.runs && e'.nextId == w.nextId && e'.inflight == w.inflight
  {
  }

  lemma SweepLength(e: Engine, ws: seq<RunId>)
    ensures |SweepCalls(e, ws)| == 2 * |ws| + 1
  {
  }
}
