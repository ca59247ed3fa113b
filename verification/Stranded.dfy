/** A lost wakeup is lost for good: only a cancel ends a stuck run. */
module Stranded {
  import opened Orders
  import opened Runs
  import opened CancelTree
  import opened WorkflowEngine
  import opened Wakeups
  import opened Crashes

  /** What survives any crash: ids are fresh, parents older, and attempts are of awake runs. */
  predicate Calm(e: Engine) { IdsBounded(e) && KeysNameParents(e.runs) && FlightsAwake(e) }

  /** Any legal operation, and any cancel at all. */
  predicate Possible(e: Engine, op: Op) { op.DoCancel? || Legal(e, op) }

  ghost predicate NoNewLiveChild(e: Engine, e': Engine, x: RunId) {
    forall c | ChildOf(e'.runs, x, c) && Live(e'.runs, c) :: ChildOf(e.runs, x, c) && Live(e.runs, c)
  }

  /** The step does not help `x`. */
  ghost predicate Spares(e: Engine, e': Engine, x: RunId)
    requires x in e.runs
  {
    && x in e'.runs && e'.runs[x] == e.runs[x] && e'.jobs[x] <= e.jobs[x] && x !in e'.inflight
    && NoNewLiveChild(e, e', x)
  }

  lemma SparedStaysStuck(e: Engine, e': Engine, x: RunId)
    requires Stuck(e, x) && Spares(e, e', x)
    ensures Stuck(e', x)
  {
  }

  // ---- What an attempt may change ------------------------------------------------------------------------

  /** A parent parked on `q` may be woken. */
  predicate Woken(e: Engine, e': Engine, q: RunId, c: RunId)
    requires c in e.runs && c in e'.runs
  {
    e.runs[c].status == WaitChild && ChildOf(e.runs, c, q) && e'.runs[c].status == Runnable
  }

  ghost predicate RowsAfter(e: Engine, e': Engine, q: RunId) {
    && (forall c | c in e.runs :: c in e'.runs && SameIds(e.runs[c], e'.runs[c]))
    && (forall c | c in e.runs && c != q :: e'.runs[c] == e.runs[c] || Woken(e, e', q, c))
    && (forall c | c in e'.runs && c !in e.runs ::
          c == e.nextId && c < e'.nextId && e'.runs[c].parent.Some? && e'.runs[c].parent.value.0 == q
          && e'.runs[c].idem == Some(InvokeKey(q, e'.runs[c].parent.value.1)))
  }

  predicate MayPush(e: Engine, e': Engine, q: RunId, c: RunId) {
    c == q || (c == e.nextId && c < e'.nextId)
      || (c in e.runs && e.runs[c].status == WaitChild && ChildOf(e.runs, c, q))
  }

  ghost predicate AttemptEffect(e: Engine, e': Engine, q: RunId) {
    && e'.nextId >= e.nextId && e'.inflight == e.inflight && RowsAfter(e, e', q)
    && (forall c :: e'.jobs[c] >= e.jobs[c])
    && (forall c | !MayPush(e, e', q, c) :: e'.jobs[c] == e.jobs[c])
    && (forall c | c in e'.steps :: c in e.steps || c == q || (q in e.runs && ChildOf(e.runs, c, q)))
  }

  // ---- Every prefix of an attempt's calls ------------------------------------------------------------------

  /** A call an attempt of `q` may make at `e`, having started from `e0`. */
  predicate Apt(e0: Engine, e: Engine, q: RunId, c: Call) {
    match c
    case Journal(x, _, _, _) => x == q || ChildOf(e0.runs, x, q)
    case Count(x, _) => x == q
    case Update(x, row) =>
      && x in e0.runs && SameIds(e0.runs[x], row)
      && (x == q || (e0.runs[x].status == WaitChild && ChildOf(e0.runs, x, q) && row.status == Runnable))
    case Create(row) =>
      && e.nextId == e0.nextId && e0.nextId !in e0.runs
      && row.parent.Some? && row.parent.value.0 == q && row.idem == Some(InvokeKey(q, row.parent.value.1))
    case Push(x) => MayPush(e0, e, q, x)
    case Release(_) => false
  }

  predicate AptCalls(e0: Engine, e: Engine, q: RunId, calls: seq<Call>)
    decreases |calls|
  {
    calls == [] || (Apt(e0, e, q, calls[0]) && AptCalls(e0, Do(e, calls[0]), q, calls[1..]))
  }

  lemma JournalApt(e0: Engine, e: Engine, q: RunId, c: Call)
    requires AttemptEffect(e0, e, q) && Apt(e0, e, q, c) && q in e0.runs && (c.Journal? || c.Count?)
    ensures AttemptEffect(e0, Do(e, c), q)
  {
    hide Record, CountFailure;
  }

  lemma UpdateApt(e0: Engine, e: Engine, q: RunId, c: Call)
    requires AttemptEffect(e0, e, q) && Apt(e0, e, q, c) && c.Update?
    ensures AttemptEffect(e0, Do(e, c), q)
  {
  }

  lemma CreateApt(e0: Engine, e: Engine, q: RunId, c: Call)
    requires AttemptEffect(e0, e, q) && Apt(e0, e, q, c) && c.Create?
    ensures AttemptEffect(e0, Do(e, c), q)
  {
    var e' := Do(e, c);
    assert forall x | x !in e0.runs :: x !in e.runs;
    assert e'.runs == e.runs[e0.nextId := c.row];
    forall x | x in e0.runs ensures e'.runs[x] == e.runs[x] {
    }
    forall x | x in e0.runs && x != q ensures e'.runs[x] == e0.runs[x] || Woken(e0, e', q, x) {
      assert e.runs[x] == e0.runs[x] || Woken(e0, e, q, x);
    }
    assert RowsAfter(e0, e', q);
    forall x | !MayPush(e0, e', q, x) ensures e'.jobs[x] == e0.jobs[x] {
      assert !MayPush(e0, e, q, x);
    }
  }

  lemma PushApt(e0: Engine, e: Engine, q: RunId, c: Call)
    requires AttemptEffect(e0, e, q) && Apt(e0, e, q, c) && c.Push?
    ensures AttemptEffect(e0, Do(e, c), q)
  {
    assert RowsAfter(e0, Do(e, c), q);
    hide RowsAfter;
  }

  lemma DoApt(e0: Engine, e: Engine, q: RunId, c: Call)
    requires AttemptEffect(e0, e, q) && Apt(e0, e, q, c) && q in e0.runs
    ensures AttemptEffect(e0, Do(e, c), q)
  {
    hide AttemptEffect, Do;
    match c
    case Journal(_, _, _, _) => JournalApt(e0, e, q, c);
    case Count(_, _) => JournalApt(e0, e, q, c);
    case Update(_, _) => UpdateApt(e0, e, q, c);
    case Create(_) => CreateApt(e0, e, q, c);
    case Push(_) => PushApt(e0, e, q, c);
  }

  lemma {:induction false} PrefixEffect(e0: Engine, e: Engine, q: RunId, calls: seq<Call>, k: nat)
    requires AttemptEffect(e0, e, q) && AptCalls(e0, e, q, calls) && q in e0.runs && k <= |calls|
    ensures AttemptEffect(e0, DoAll(e, calls[..k]), q)
    decreases k
  {
    hide AttemptEffect, Do, Apt;
    if k == 0 {
      assert calls[..0] == [];
    } else {
      DoApt(e0, e, q, calls[0]);
      assert calls[..k][1..] == calls[1..][..k - 1];
      PrefixEffect(e0, Do(e, calls[0]), q, calls[1..], k - 1);
    }
  }

  lemma AptOne(e0: Engine, e: Engine, q: RunId, a: Call)
    requires Apt(e0, e, q, a)
    ensures AptCalls(e0, e, q, [a])
  {
    assert [a][1..] == [];
    hide Apt;
  }

  lemma AptCons(e0: Engine, e: Engine, q: RunId, a: Call, rest: seq<Call>)
    requires Apt(e0, e, q, a) && AptCalls(e0, Do(e, a), q, rest)
    ensures AptCalls(e0, e, q, [a] + rest)
  {
    assert ([a] + rest)[1..] == rest;
    hide Apt, Do;
  }

  lemma AptThree(e0: Engine, e: Engine, q: RunId, a: Call, b: Call, c: Call)
    requires Apt(e0, e, q, a) && Apt(e0, Do(e, a), q, b) && Apt(e0, Do(Do(e, a), b), q, c)
    ensures AptCalls(e0, e, q, [a, b, c])
  {
    hide Apt, Do;
    AptOne(e0, Do(Do(e, a), b), q, c);
    AptCons(e0, Do(e, a), q, b, [c]);
    AptCons(e0, e, q, a, [b, c]);
    assert [a] + [b, c] == [a, b, c] && [b] + [c] == [b, c];
  }

  lemma AptEnd(e0: Engine, e: Engine, q: RunId, row: Run, result: Tokens)
    requires q in e0.runs && SameIds(e0.runs[q], row)
    ensures AptCalls(e0, e, q, EndCalls(e0, q, row, result))
  {
    var first := Update(q, row);
    var e1 := Do(e, first);
    hide AptCalls, RecordIn;
    if e0.runs[q].parent.None? {
      assert [first] + [] == [first];
      AptOne(e0, e, q, first);
    } else {
      var (p, s) := e0.runs[q].parent.value;
      var second := Journal(p, s, "invoke", Some(result));
      if p in e0.runs && e0.runs[p].status == WaitChild {
        var third, last := Update(p, e0.runs[p].(status := Runnable)), Push(p);
        AptThree(e0, e1, q, second, third, last);
        assert [second] + [third, last] == [second, third, last];
        AptCons(e0, e, q, first, [second, third, last]);
      } else {
        assert [second] + [] == [second];
        AptOne(e0, e1, q, second);
        AptCons(e0, e, q, first, [second]);
      }
    }
  }

  lemma AptInvoke(cfg: Configs, e: Engine, q: RunId, step: StepId, workflow: string)
    requires q in e.runs && e.nextId !in e.runs
    ensures AptCalls(e, e, q, InvokeCalls(cfg, e, q, step, workflow))
  {
    var calls := InvokeCalls(cfg, e, q, step, workflow);
    hide AptCalls, EndCalls, RecordIn;
    if workflow !in cfg {
      var error := "step '" + step + "': unknown workflow '" + workflow + "'";
      AptEnd(e, e, q, Finished(e.runs[q], Failed).(error := Some(error)), ErrorResult(error));
    } else if KeyTaken(e.runs, workflow, InvokeKey(q, step)) {
      if |calls| == 1 {
        AptOne(e, e, q, calls[0]);
      } else {
        AptOne(e, Do(e, calls[0]), q, calls[1]);
        AptCons(e, e, q, calls[0], [calls[1]]);
        assert calls == [calls[0]] + [calls[1]];
      }
    } else {
      AptThree(e, e, q, calls[0], calls[1], calls[2]);
    }
  }

  lemma AptApply(cfg: Configs, e: Engine, q: RunId, o: Outcome)
    requires q in e.runs && e.nextId !in e.runs
    ensures AptCalls(e, e, q, ApplyCalls(cfg, e, q, o))
  {
    var calls := ApplyCalls(cfg, e, q, o);
    hide AptCalls, EndCalls, InvokeCalls, RecordIn, CountFailure;
    match o
    case Completes(output) =>
      AptEnd(e, e, q, Finished(e.runs[q], Completed).(output := Some(output)), OutputResult(output));
    case Fails(error) => AptEnd(e, e, q, Finished(e.runs[q], Failed).(error := Some(error)), ErrorResult(error));
    case Sleeps(step, wakeAt) => AptThree(e, e, q, calls[0], calls[1], calls[2]);
    case Waits(step, event, timeoutAt, m) => AptOne(e, e, q, calls[0]);
    case Invokes(step, workflow) => AptInvoke(cfg, e, q, step, workflow);
    case FailsStep(step, error) =>
      var e1 := Do(e, Count(q, step));
      if Retries(cfg, e, q, step) {
        AptOne(e, e1, q, Push(q));
        AptCons(e, e, q, Count(q, step), [Push(q)]);
      } else {
        AptEnd(e, e1, q, Finished(e.runs[q], Failed).(error := Some(error)), ErrorResult(error));
        AptCons(e, e, q, Count(q, step), FailCalls(e, q, error));
      }
  }

  lemma NoEffect(e: Engine, q: RunId)
    ensures AttemptEffect(e, e, q)
  {
  }

  /** However many of its calls an attempt has made, it has touched its own run, its parked parent
      and at most one fresh child, and taken no job away. */
  lemma CutEffect(cfg: Configs, e: Engine, q: RunId, o: Outcome, k: nat)
    requires q in e.runs && e.nextId !in e.runs && k <= |ApplyCalls(cfg, e, q, o)|
    ensures AttemptEffect(e, DoAll(e, ApplyCalls(cfg, e, q, o)[..k]), q)
  {
    hide AttemptEffect, AptCalls, ApplyCalls, DoAll;
    NoEffect(e, q);
    AptApply(cfg, e, q, o);
    PrefixEffect(e, e, q, ApplyCalls(cfg, e, q, o), k);
  }

  lemma ApplyEffect(cfg: Configs, e: Engine, q: RunId, o: Outcome)
    requires q in e.runs && e.nextId !in e.runs && (e.runs[q].parent.Some? ==> e.runs[q].parent.value.0 != q)
    ensures AttemptEffect(e, Apply(cfg, e, q, o), q)
  {
    hide AttemptEffect, ApplyCalls, DoAll, Apply;
    var calls := ApplyCalls(cfg, e, q, o);
    CutEffect(cfg, e, q, o, |calls|);
    assert calls[..|calls|] == calls;
    ApplyIsCalls(cfg, e, q, o);
  }

  lemma EffectKeepsCalm(e: Engine, e1: Engine, q: RunId, acked: bool)
    requires Calm(e) && q in e.inflight && AttemptEffect(e, e1, q)
    ensures Calm(CloseAttempt(e1, q, acked))
  {
  }

  lemma EffectSpares(e: Engine, e1: Engine, q: RunId, acked: bool, x: RunId)
    requires Calm(e) && q in e.inflight && AttemptEffect(e, e1, q) && Stuck(e, x)
    requires q in e.runs && Awake(e.runs[q].status)
    ensures Spares(e, CloseAttempt(e1, q, acked), x)
  {
    assert !(e.runs[x].status == WaitChild && ChildOf(e.runs, x, q));
  }

  lemma FinishSpares(cfg: Configs, e: Engine, q: RunId, o: Outcome, acked: bool, x: RunId)
    requires Calm(e) && q in e.inflight && Stuck(e, x)
    ensures Calm(Finish(cfg, e, q, o, acked)) && Spares(e, Finish(cfg, e, q, o, acked), x)
  {
    if q in e.runs && e.runs[q].status != Cancelled {
      assert e.nextId !in e.runs && (e.runs[q].parent.Some? ==> e.runs[q].parent.value.0 != q);
      ApplyEffect(cfg, e, q, o);
      hide Apply, AttemptEffect, CloseAttempt;
      EffectKeepsCalm(e, Apply(cfg, e, q, o), q, acked);
      EffectSpares(e, Apply(cfg, e, q, o), q, acked, x);
    }
  }

  // ---- The other operations ---------------------------------------------------------------------------------

  /** The step does not help `x`, and the state stays calm. */
  ghost predicate Distant(e: Engine, e': Engine, x: RunId)
    requires x in e.runs
  {
    Calm(e') && Spares(e, e', x)
  }

  lemma BeginSpares(e: Engine, q: RunId, x: RunId)
    requires Calm(e) && Stuck(e, x) && q in e.jobs && q !in e.inflight
    ensures Distant(e, Begin(e, q), x)
  {
    hide HasLiveChild;
    assert NoNewLiveChild(e, Begin(e, q), x);
  }

  lemma SpawnSpares(e: Engine, workflow: string, idem: Option<IdemKey>, x: RunId)
    requires Calm(e) && Stuck(e, x) && (idem.Some? ==> idem.value.UserKey?)
    ensures Distant(e, Spawn(e, workflow, None, idem), x)
  {
  }

  lemma {:induction false} SpawnAllSpares(e: Engine, targets: seq<string>, x: RunId)
    requires Calm(e) && Stuck(e, x)
    ensures Calm(SpawnAll(e, targets)) && Stuck(SpawnAll(e, targets), x)
  {
    hide Calm, Stuck, Spawn, Spares;
    if targets != [] {
      var e1, last := SpawnAll(e, targets[..|targets| - 1]), targets[|targets| - 1];
      SpawnAllSpares(e, targets[..|targets| - 1], x);
      SpawnSpares(e1, last, None, x);
      SparedStaysStuck(e1, Spawn(e1, last, None, None), x);
    }
  }

  lemma WakeSpares(e: Engine, ids: set<RunId>, result: Tokens, clearStep: bool, x: RunId)
    requires Calm(e) && Stuck(e, x) && forall r | r in ids :: r in e.runs && e.runs[r].status == WaitEvent
    ensures Distant(e, Wake(e, ids, result, clearStep), x)
  {
    hide Wake, Wakeups.Woken, Distant, WakesOnly;
    WakeEffect(e, ids, result, clearStep);
    WokenOnly(e, Wake(e, ids, result, clearStep), ids, clearStep);
    WokenSpares(e, Wake(e, ids, result, clearStep), ids, x);
  }

  /** A wake, run by run. */
  ghost predicate WakesOnly(e: Engine, e': Engine, ids: set<RunId>) {
    && e'.nextId == e.nextId && e'.inflight == e.inflight
    && (forall r :: r in e'.runs <==> r in e.runs)
    && (forall r | r in e.runs && r !in ids :: e'.runs[r] == e.runs[r])
    && (forall r | r in e.runs :: SameIds(e.runs[r], e'.runs[r]))
    && (forall r | r in e'.steps :: r in e.steps || r in ids)
    && (forall r | r !in ids :: e'.jobs[r] == e.jobs[r])
  }

  lemma WokenOnly(e: Engine, e': Engine, ids: set<RunId>, clearStep: bool)
    requires Wakeups.Woken(e, e', ids, clearStep)
    ensures WakesOnly(e, e', ids)
  {
  }

  lemma WokenSpares(e: Engine, e': Engine, ids: set<RunId>, x: RunId)
    requires Calm(e) && Stuck(e, x) && forall r | r in ids :: r in e.runs && e.runs[r].status == WaitEvent
    requires WakesOnly(e, e', ids)
    ensures Distant(e, e', x)
  {
    WokenCalm(e, e', ids);
    hide Calm;
    assert NoNewLiveChild(e, e', x);
  }

  lemma WokenCalm(e: Engine, e': Engine, ids: set<RunId>)
    requires Calm(e) && forall r | r in ids :: r in e.runs && e.runs[r].status == WaitEvent
    requires WakesOnly(e, e', ids)
    ensures Calm(e')
  {
    assert forall r | r in e.inflight :: r !in ids;
  }

  lemma CollectSpares(e: Engine, ids: set<RunId>, x: RunId)
    requires Calm(e) && Stuck(e, x) && forall r | r in ids :: r in e.runs && Terminal(e.runs[r].status)
    ensures Distant(e, Collect(e, ids), x)
  {
  }

  lemma CancelSpares(e: Engine, root: RunId, x: RunId)
    requires Calm(e) && Stuck(e, x)
    ensures Calm(Cancel(e, root))
    ensures x in Cancel(e, root).runs && (Cancel(e, root).runs[x].status == Cancelled || Spares(e, Cancel(e, root), x))
  {
    CancelEffect(e, root);
    hide CancelSet, CancelRows;
  }

  lemma RecordSpares(e: Engine, q: RunId, j: Journal, x: RunId)
    requires Calm(e) && Stuck(e, x) && q in e.inflight
    ensures Distant(e, e.(steps := e.steps[q := j]), x)
  {
  }

  lemma CrashSpares(e: Engine, q: RunId, x: RunId)
    requires Calm(e) && Stuck(e, x)
    ensures Distant(e, e.(inflight := e.inflight - {q}), x)
  {
  }

  /** Whatever happens next, a stuck run stays stuck or is cancelled. */
  lemma StepLeavesStuck(cfg: Configs, e: Engine, op: Op, x: RunId)
    requires Calm(e) && Stuck(e, x) && Possible(e, op)
    ensures var e' := Next(cfg, e, op);
      Calm(e') && x in e'.runs && (Stuck(e', x) || e'.runs[x].status == Cancelled)
  {
    hide *;
    if op.DoEmit? || op.DoSweep? || op.DoCancel? || op.DoCollect? {
      EventStepLeavesStuck(cfg, e, op, x);
    } else {
      AttemptStepLeavesStuck(cfg, e, op, x);
    }
  }

  lemma AttemptStepLeavesStuck(cfg: Configs, e: Engine, op: Op, x: RunId)
    requires Calm(e) && Stuck(e, x) && Possible(e, op)
    requires !op.DoEmit? && !op.DoSweep? && !op.DoCancel? && !op.DoCollect?
    ensures var e' := Next(cfg, e, op);
      Calm(e') && x in e'.runs && (Stuck(e', x) || e'.runs[x].status == Cancelled)
  {
    var e' := Next(cfg, e, op);
    assert x in e.runs;
    hide Calm, Stuck, Spares, Spawn, Emit, Wake, Finish, Begin, Cancel, Collect, Record;
    match op
    case DoTrigger(workflow, key) =>
      SpawnSpares(e, workflow, if key.Some? then Some(UserKey(key.value)) else None, x);
      SparedUnlessSame(e, e', x);
    case DoBegin(q) =>
      BeginSpares(e, q, x);
      SparedStaysStuck(e, e', x);
    case DoRecord(q, step, result) =>
      RecordSpares(e, q, Record(JournalOf(e.steps, q), step, "run", result), x);
      SparedStaysStuck(e, e', x);
    case DoFinish(q, o, acked) =>
      FinishSpares(cfg, e, q, o, acked, x);
      SparedStaysStuck(e, e', x);
    case DoCrash(q) =>
      CrashSpares(e, q, x);
      SparedStaysStuck(e, e', x);
  }

  lemma EventStepLeavesStuck(cfg: Configs, e: Engine, op: Op, x: RunId)
    requires Calm(e) && Stuck(e, x) && Possible(e, op)
    requires op.DoEmit? || op.DoSweep? || op.DoCancel? || op.DoCollect?
    ensures var e' := Next(cfg, e, op);
      Calm(e') && x in e'.runs && (Stuck(e', x) || e'.runs[x].status == Cancelled)
  {
    var e' := Next(cfg, e, op);
    assert x in e.runs;
    hide Calm, Stuck, Spares, Emit, Wake, Cancel, Collect;
    match op
    case DoEmit(event, payload, fields, targets) =>
      EmitLeavesStuck(e, event, payload, fields, targets, x);
    case DoSweep(now) =>
      WakeSpares(e, TimedOut(e, now), TimedOutResult, false, x);
      SparedStaysStuck(e, e', x);
    case DoCancel(root) =>
      CancelLeavesStuck(e, root, x);
    case DoCollect(ids) =>
      CollectSpares(e, ids, x);
      SparedStaysStuck(e, e', x);
  }

  lemma CancelLeavesStuck(e: Engine, root: RunId, x: RunId)
    requires Calm(e) && Stuck(e, x)
    ensures var e' := Cancel(e, root);
      Calm(e') && x in e'.runs && (Stuck(e', x) || e'.runs[x].status == Cancelled)
  {
    hide *;
    CancelSpares(e, root, x);
    if Cancel(e, root).runs[x].status != Cancelled {
      SparedStaysStuck(e, Cancel(e, root), x);
    }
  }

  lemma EmitLeavesStuck(e: Engine, event: string, payload: Tokens, fields: map<string, string>, targets: seq<string>,
                        x: RunId)
    requires Calm(e) && Stuck(e, x)
    ensures var e' := Emit(e, event, payload, fields, targets); Calm(e') && x in e'.runs && Stuck(e', x)
  {
    var e1 := Wake(e, Waiters(e, event, fields), EventResult(payload), true);
    hide Calm, Stuck, Spares, SpawnAll, Wake;
    WakeSpares(e, Waiters(e, event, fields), EventResult(payload), true, x);
    SparedStaysStuck(e, e1, x);
    SpawnAllSpares(e1, targets, x);
    StuckIsStored(Emit(e, event, payload, fields, targets), x);
  }

  lemma StuckIsStored(e: Engine, x: RunId)
    requires Stuck(e, x)
    ensures x in e.runs
  {
  }

  lemma SparedUnlessSame(e: Engine, e': Engine, x: RunId)
    requires Stuck(e, x) && (e' == e || Spares(e, e', x))
    ensures Stuck(e', x)
  {
  }

  // ---- Deaths inside a handler ----------------------------------------------------------------------------

  /** A worker's death after any number of calls does not help a stuck run either. */
  lemma CutSpares(cfg: Configs, e: Engine, q: RunId, o: Outcome, k: nat, gone: bool, x: RunId)
    requires Calm(e) && q in e.inflight && q in e.runs && e.runs[q].status != Cancelled && Stuck(e, x)
    requires k <= |ApplyCalls(cfg, e, q, o)|
    ensures var e' := CloseAttempt(DoAll(e, ApplyCalls(cfg, e, q, o)[..k]), q, gone); Calm(e') && Spares(e, e', x)
  {
    assert e.nextId !in e.runs;
    CutEffect(cfg, e, q, o, k);
    hide AttemptEffect, CloseAttempt, ApplyCalls, DoAll;
    var e1 := DoAll(e, ApplyCalls(cfg, e, q, o)[..k]);
    EffectKeepsCalm(e, e1, q, gone);
    EffectSpares(e, e1, q, gone, x);
  }

  lemma CutIsCalm(cfg: Configs, e: Engine, q: RunId, o: Outcome, k: nat, gone: bool)
    requires Calm(e) && q in e.inflight && q in e.runs && k <= |ApplyCalls(cfg, e, q, o)|
    ensures Calm(CloseAttempt(DoAll(e, ApplyCalls(cfg, e, q, o)[..k]), q, gone))
  {
    assert e.nextId !in e.runs;
    CutEffect(cfg, e, q, o, k);
    hide AttemptEffect, CloseAttempt, ApplyCalls, DoAll;
    EffectKeepsCalm(e, DoAll(e, ApplyCalls(cfg, e, q, o)[..k]), q, gone);
  }

  /** A run row without its job. */
  lemma CreateSpares(e: Engine, row: Run, x: RunId)
    requires Calm(e) && Stuck(e, x) && row.parent.None? && (row.idem.Some? ==> row.idem.value.UserKey?)
    ensures Distant(e, Do(e, Create(row)), x)
  {
  }

  lemma CreateIsCalm(e: Engine, row: Run)
    requires Calm(e) && row.parent.None? && (row.idem.Some? ==> row.idem.value.UserKey?)
    ensures Calm(Do(e, Create(row)))
  {
  }

  lemma CancelCalm(e: Engine, root: RunId)
    requires Calm(e)
    ensures Calm(Cancel(e, root))
  {
    CancelEffect(e, root);
    hide CancelSet, CancelRows;
  }
}
