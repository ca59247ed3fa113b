/** Event waits, from the outcome that parks a run to the result its journal keeps. */
module EventWaits {
  import opened Orders
  import opened Runs
  import opened CancelTree
  import opened JsonText
  import opened WorkflowEngine
  import opened Wakeups
  import opened EngineRuns

  /** Operation `i` applies to run `r` the outcome `o`, an event wait. */
  ghost predicate Parks(cfg: Configs, ops: seq<Op>, i: nat, r: RunId, o: Outcome) {
    && o.Waits? && i < |ops| && ops[i].DoFinish? && ops[i].run == r && ops[i].outcome == o
    && r in Exec(cfg, ops[..i]).runs && Exec(cfg, ops[..i]).runs[r].status != Cancelled
  }

  /** An event of the awaited name, with every required field present with its value. */
  predicate Satisfies(op: Op, o: Outcome)
    requires o.Waits?
  {
    op.DoEmit? && op.event == o.event && (o.match_.Fields? ==> o.match_.fields.Items <= op.fields.Items)
  }

  /** A sweep whose clock has reached the deadline. */
  predicate Expires(op: Op, o: Outcome)
    requires o.Waits?
  {
    op.DoSweep? && o.timeoutAt.Some? && op.now >= o.timeoutAt.value
  }

  /** Operation `x` is a cancel that stops the run. */
  ghost predicate Stops(cfg: Configs, ops: seq<Op>, x: nat, r: RunId)
    requires x < |ops|
  {
    ops[x].DoCancel? && r in Exec(cfg, ops[..x + 1]).runs && Exec(cfg, ops[..x + 1]).runs[r].status == Cancelled
  }

  /** Between `i` and `k` nothing satisfied the wait, let it expire, or stopped the run. */
  ghost predicate Undecided(cfg: Configs, ops: seq<Op>, i: nat, k: nat, r: RunId, o: Outcome)
    requires o.Waits? && k <= |ops|
  {
    forall x | i < x < k :: !Satisfies(ops[x], o) && !Expires(ops[x], o) && !Stops(cfg, ops, x, r)
  }

  /** The run waits for what `o` asked, and its step has no result yet. */
  predicate ParkedOn(e: Engine, r: RunId, o: Outcome)
    requires o.Waits?
  {
    && r in e.runs && e.runs[r].status == WaitEvent && e.runs[r].waitEvent == Some(o.event)
    && e.runs[r].waitStep == Some(o.step) && e.runs[r].wakeAt == o.timeoutAt && e.runs[r].waitMatch == o.match_
    && !Done(e.steps, r, o.step)
  }

  // ---- One operation ---------------------------------------------------------------------------------

  lemma ParkStarts(cfg: Configs, e: Engine, r: RunId, o: Outcome, acked: bool)
    requires o.Waits? && r in e.runs && e.runs[r].status != Cancelled && !Done(e.steps, r, o.step)
    ensures ParkedOn(Next(cfg, e, DoFinish(r, o, acked)), r, o)
  {
  }

  lemma MatchIsSubset(m: Match, fields: map<string, string>)
    ensures MatchSubset(m, fields) <==> (m.Fields? ==> m.fields.Items <= fields.Items)
  {
    if m.Fields? {
      if MatchSubset(m, fields) {
        forall p | p in m.fields.Items ensures p in fields.Items {
          assert m.fields[p.0] == p.1;
        }
      } else {
        var k :| k in m.fields && !(k in fields && fields[k] == m.fields[k]);
        assert (k, m.fields[k]) in m.fields.Items && (k, m.fields[k]) !in fields.Items;
      }
    }
  }

  /** What an operation makes of a parked run: a satisfying event or a sweep past the deadline
      wakes it with that result recorded, a cancel may stop it, anything else leaves it parked. */
  lemma ParkedStep(cfg: Configs, e: Engine, op: Op, r: RunId, o: Outcome)
    requires Inv(e, false) && Legal(e, op) && o.Waits? && ParkedOn(e, r, o)
    ensures var e' := Next(cfg, e, op);
      r in e'.runs
      && if Satisfies(op, o) then
           e'.runs[r].status == Runnable && Recorded(e', r, o.step, EventResult(op.payload))
         else if Expires(op, o) then
           e'.runs[r].status == Runnable && Recorded(e', r, o.step, TimedOutResult)
         else ParkedOn(e', r, o)
              || (op.DoCancel? && e'.runs[r].status == Cancelled && JournalOf(e'.steps, r) == JournalOf(e.steps, r))
  {
    WaitStep(cfg, e, op, r);
    if op.DoEmit? {
      MatchIsSubset(o.match_, op.fields);
    }
    hide Inv, Legal, Next, MatchSubset;
    if op.DoCancel? {
      CancelJournals(cfg, e, op.root);
    }
  }

  lemma CancelJournals(cfg: Configs, e: Engine, root: RunId)
    ensures Next(cfg, e, DoCancel(root)).steps == e.steps
  {
  }

  // ---- Wait results come from wakes only -----------------------------------------------------------------

  /** Every wait result of `e'` was there in `e`. */
  ghost predicate NoNewWaits(e: Engine, e': Engine) {
    forall r, s, result | Recorded(e', r, s, result) :: Recorded(e, r, s, result)
  }

  lemma RecordsNoWait(e: Engine, r: RunId, s: StepId, kind: string, result: Option<Tokens>)
    requires kind != "waitForEvent"
    ensures NoNewWaits(e, e.(steps := RecordIn(e.steps, r, s, kind, result)))
  {
  }

  lemma SettleNoWait(e: Engine, child: RunId, result: Tokens)
    requires child in e.runs
    ensures NoNewWaits(e, SettleParent(e, child, result))
  {
    if e.runs[child].parent.Some? {
      var (p, s) := e.runs[child].parent.value;
      RecordsNoWait(e, p, s, "invoke", Some(result));
      hide RecordIn;
    }
  }

  lemma EndNoWait(e: Engine, r: RunId, row: Run, result: Tokens)
    requires r in e.runs
    ensures NoNewWaits(e, SettleParent(SetRun(e, r, row), r, result))
  {
    SettleNoWait(SetRun(e, r, row), r, result);
    hide SettleParent;
  }

  lemma InvokeNoWait(cfg: Configs, e: Engine, r: RunId, step: StepId, workflow: string)
    requires r in e.runs
    ensures NoNewWaits(e, InvokeChild(cfg, e, r, step, workflow))
  {
    if workflow !in cfg {
      hide SettleParent;
      var error := "step '" + step + "': unknown workflow '" + workflow + "'";
      EndNoWait(e, r, Finished(e.runs[r], Failed).(error := Some(error)), ErrorResult(error));
    } else if KeyTaken(e.runs, workflow, InvokeKey(r, step)) {
      var child := RunOfKey(e.runs, workflow, InvokeKey(r, step));
      if Terminal(e.runs[child].status) {
        var c := e.runs[child];
        var result := if c.status == Completed then OutputResult(if c.output.Some? then c.output.value else NullText)
                      else ErrorResult(if c.error.Some? then c.error.value else "child run failed");
        RecordsNoWait(e, r, step, "invoke", Some(result));
        hide RecordIn;
      }
    }
  }

  lemma RetryNoWait(cfg: Configs, e: Engine, r: RunId, step: StepId, error: string)
    requires r in e.runs
    ensures NoNewWaits(e, RetryStep(cfg, e, r, step, error))
  {
    var e1 := e.(steps := e.steps[r := CountFailure(JournalOf(e.steps, r), step)]);
    assert NoNewWaits(e, e1);
    hide SettleParent;
    EndNoWait(e1, r, Finished(e.runs[r], Failed).(error := Some(error)), ErrorResult(error));
  }

  lemma ApplyNoWait(cfg: Configs, e: Engine, r: RunId, o: Outcome)
    requires r in e.runs
    ensures NoNewWaits(e, Apply(cfg, e, r, o))
  {
    hide SettleParent, InvokeChild, RetryStep, RecordIn;
    match o
    case Completes(output) =>
      EndNoWait(e, r, Finished(e.runs[r], Completed).(output := Some(output)), OutputResult(output));
    case Fails(error) => EndNoWait(e, r, Finished(e.runs[r], Failed).(error := Some(error)), ErrorResult(error));
    case Sleeps(step, wakeAt) => RecordsNoWait(e, r, step, "sleep", None);
    case Waits(step, event, timeoutAt, m) =>
    case Invokes(step, workflow) => InvokeNoWait(cfg, e, r, step, workflow);
    case FailsStep(step, error) => RetryNoWait(cfg, e, r, step, error);
  }

  lemma WakeNoWait(e: Engine, ids: set<RunId>, result: Tokens, clearStep: bool, r: RunId)
    requires ids <= e.runs.Keys && r !in ids
    ensures JournalOf(Wake(e, ids, result, clearStep).steps, r) == JournalOf(e.steps, r)
  {
  }

  /** A run that is not waiting gets no wait result. */
  lemma NotWaitingNoResult(cfg: Configs, e: Engine, op: Op, r: RunId, s: StepId, result: Tokens)
    requires Legal(e, op) && r in e.runs && e.runs[r].status != WaitEvent
    requires Recorded(Next(cfg, e, op), r, s, result)
    ensures Recorded(e, r, s, result)
  {
    hide Finish, Wake, SpawnAll, CancelRows, CancelSet, RecordIn, Trigger;
    match op
    case DoTrigger(workflow, key) => TriggerJournals(e, workflow, key);
    case DoRecord(q, step, res) => RecordsNoWait(e, q, step, "run", res);
    case DoFinish(q, o, acked) => FinishNoWait(cfg, e, q, o, acked);
    case DoEmit(event, payload, fields, targets) =>
      var ids := Waiters(e, event, fields);
      WakeNoWait(e, ids, EventResult(payload), true, r);
      SpawnAllSteps(Wake(e, ids, EventResult(payload), true), targets);
    case DoSweep(now) => WakeNoWait(e, TimedOut(e, now), TimedOutResult, false, r);
    case _ =>
  }

  lemma TriggerJournals(e: Engine, workflow: string, key: Option<string>)
    ensures Trigger(e, workflow, key).steps == e.steps
  {
  }

  lemma FinishNoWait(cfg: Configs, e: Engine, r: RunId, o: Outcome, acked: bool)
    ensures NoNewWaits(e, Finish(cfg, e, r, o, acked))
  {
    if r in e.runs && e.runs[r].status != Cancelled {
      ApplyNoWait(cfg, e, r, o);
    }
    hide Apply;
  }

  // ---- Whole runs ------------------------------------------------------------------------------------------

  /** A parked run stays parked on what its outcome asked until a satisfying event, a sweep whose
      clock has reached the deadline, or a cancel that stops it. */
  lemma {:induction false} WaitLasts(cfg: Configs, ops: seq<Op>, i: nat, k: nat, r: RunId, o: Outcome)
    requires ValidRun(cfg, ops) && Parks(cfg, ops, i, r, o) && i < k <= |ops|
    requires Undecided(cfg, ops, i, k, r, o)
    ensures ParkedOn(Exec(cfg, ops[..k]), r, o)
    decreases k
  {
    hide Exec, Next, Inv, Legal, ParkedOn, Satisfies, Expires, ValidRun;
    if k == i + 1 {
      StepOfRun(cfg, ops, i);
      SuspendsOnNew(Exec(cfg, ops[..i]), r, o, ops[i].acked);
      ParkStarts(cfg, Exec(cfg, ops[..i]), r, o, ops[i].acked);
    } else {
      WaitLasts(cfg, ops, i, k - 1, r, o);
      StepOfRun(cfg, ops, k - 1);
      RunKeepsInv(cfg, ops, k - 1, false);
      ParkedStep(cfg, Exec(cfg, ops[..k - 1]), ops[k - 1], r, o);
      assert !Satisfies(ops[k - 1], o) && !Expires(ops[k - 1], o) && !Stops(cfg, ops, k - 1, r);
    }
  }

  lemma SuspendsOnNew(e: Engine, r: RunId, o: Outcome, acked: bool)
    requires o.Waits? && Legal(e, DoFinish(r, o, acked))
    ensures !Done(e.steps, r, o.step)
  {
  }

  /** Operation `x` is the first to decide the wait, and it decides it with `result`. */
  ghost predicate Decides(cfg: Configs, ops: seq<Op>, i: nat, x: nat, r: RunId, o: Outcome, result: Tokens)
    requires o.Waits? && x < |ops|
  {
    && Undecided(cfg, ops, i, x, r, o)
    && (if Satisfies(ops[x], o) then result == EventResult(ops[x].payload)
        else Expires(ops[x], o) && result == TimedOutResult)
  }

  /** The first satisfying event, or the first sweep whose clock has reached the deadline, releases
      a run that is still waiting, and its result is in the journal for as long as the run is
      stored. */
  lemma FirstDecisionReleases(cfg: Configs, ops: seq<Op>, i: nat, x: nat, n: nat, r: RunId, o: Outcome, result: Tokens)
    requires ValidRun(cfg, ops) && Parks(cfg, ops, i, r, o) && i < x < n <= |ops|
    requires Decides(cfg, ops, i, x, r, o, result)
    ensures r in Exec(cfg, ops[..x + 1]).runs && Exec(cfg, ops[..x + 1]).runs[r].status == Runnable
    ensures r in Exec(cfg, ops[..n]).runs ==> Recorded(Exec(cfg, ops[..n]), r, o.step, result)
  {
    hide Exec, Next, Inv, Legal, ParkedOn, ValidRun, Satisfies, Expires;
    WaitLasts(cfg, ops, i, x, r, o);
    StepOfRun(cfg, ops, x);
    RunKeepsInv(cfg, ops, x, false);
    ParkedStep(cfg, Exec(cfg, ops[..x]), ops[x], r, o);
    if r in Exec(cfg, ops[..n]).runs {
      RecordedStepsNeverChange(cfg, ops, x + 1, n, r, o.step);
    }
  }

  /** Once a cancel has stopped the run, its step never gets a result. */
  lemma {:induction false} StoppedHasNoResult(cfg: Configs, ops: seq<Op>, x: nat, n: nat, r: RunId, s: StepId,
                                              result: Tokens)
    requires ValidRun(cfg, ops) && x < n <= |ops| && Stops(cfg, ops, x, r)
    requires !Recorded(Exec(cfg, ops[..x + 1]), r, s, result) && r in Exec(cfg, ops[..n]).runs
    ensures !Recorded(Exec(cfg, ops[..n]), r, s, result)
    decreases n
  {
    hide Exec, Next, Inv, Legal, ValidRun, Recorded, SameEntry, Done;
    if x + 1 < n {
      RunKeepsInv(cfg, ops, x + 1, false);
      InvBounds(Exec(cfg, ops[..x + 1]), r);
      IdsStayFresh(cfg, ops, x + 1, n - 1, r);
      RunKeepsInv(cfg, ops, n - 1, false);
      StepOfRun(cfg, ops, n - 1);
      StepKeepsRun(cfg, Exec(cfg, ops[..n - 1]), ops[n - 1], r);
      StoppedHasNoResult(cfg, ops, x, n - 1, r, s, result);
      TerminalIsAbsorbing(cfg, ops, x + 1, n - 1, r);
      if Recorded(Exec(cfg, ops[..n]), r, s, result) {
        NotWaitingNoResult(cfg, Exec(cfg, ops[..n - 1]), ops[n - 1], r, s, result);
      }
    }
  }

  /** Operation `x` decides the wait, one way or the other. */
  ghost predicate Decisive(cfg: Configs, ops: seq<Op>, x: nat, r: RunId, o: Outcome)
    requires o.Waits? && x < |ops|
  {
    Satisfies(ops[x], o) || Expires(ops[x], o) || Stops(cfg, ops, x, r)
  }

  lemma {:induction false} FirstDecision(cfg: Configs, ops: seq<Op>, i: nat, n: nat, r: RunId, o: Outcome)
    returns (x: nat)
    requires o.Waits? && i < n <= |ops|
    ensures i < x <= n && Undecided(cfg, ops, i, x, r, o)
    ensures x < n ==> Decisive(cfg, ops, x, r, o)
  {
    hide Satisfies, Expires, Stops;
    x := i + 1;
    while x < n && !Decisive(cfg, ops, x, r, o)
      invariant i < x <= n && Undecided(cfg, ops, i, x, r, o)
    {
      x := x + 1;
    }
  }

  lemma StopHasNoResult(cfg: Configs, ops: seq<Op>, i: nat, x: nat, r: RunId, o: Outcome, result: Tokens)
    requires ValidRun(cfg, ops) && Parks(cfg, ops, i, r, o) && i < x < |ops|
    requires Undecided(cfg, ops, i, x, r, o) && Stops(cfg, ops, x, r)
    ensures !Recorded(Exec(cfg, ops[..x + 1]), r, o.step, result)
  {
    WaitLasts(cfg, ops, i, x, r, o);
    hide Exec, Next, Inv, Legal, ValidRun;
    StepOfRun(cfg, ops, x);
    RunKeepsInv(cfg, ops, x, false);
    ParkedStep(cfg, Exec(cfg, ops[..x]), ops[x], r, o);
  }

  /** What the journal holds for a wait is exactly what its first decision was: the event of the
      first emit of the awaited name that has every required field, or the timeout of the first sweep
      whose clock had reached the deadline, whichever came first, and nothing before or otherwise. */
  lemma WaitResultIff(cfg: Configs, ops: seq<Op>, i: nat, n: nat, r: RunId, o: Outcome, result: Tokens)
    requires ValidRun(cfg, ops) && Parks(cfg, ops, i, r, o) && i < n <= |ops| && r in Exec(cfg, ops[..n]).runs
    ensures Recorded(Exec(cfg, ops[..n]), r, o.step, result)
            <==> exists x :: i < x < n && Decides(cfg, ops, i, x, r, o, result)
  {
    hide Exec, Next, Inv, Legal, ValidRun, Satisfies, Expires, Undecided;
    forall x | i < x < n && Decides(cfg, ops, i, x, r, o, result)
      ensures Recorded(Exec(cfg, ops[..n]), r, o.step, result)
    {
      FirstDecisionReleases(cfg, ops, i, x, n, r, o, result);
    }
    if Recorded(Exec(cfg, ops[..n]), r, o.step, result) {
      var x := FirstDecision(cfg, ops, i, n, r, o);
      if x == n {
        WaitLasts(cfg, ops, i, n, r, o);
      } else if Satisfies(ops[x], o) || Expires(ops[x], o) {
        var first := if Satisfies(ops[x], o) then EventResult(Payload(ops[x], o)) else TimedOutResult;
        FirstDecisionReleases(cfg, ops, i, x, n, r, o, first);
        assert first == result;
        assert Decides(cfg, ops, i, x, r, o, result);
      } else {
        StopHasNoResult(cfg, ops, i, x, r, o, result);
        hide Recorded, Stops;
        StoppedHasNoResult(cfg, ops, x, n, r, o.step, result);
      }
    }
  }

  function Payload(op: Op, o: Outcome): Tokens
    requires o.Waits? && Satisfies(op, o)
  {
    op.payload
  }

  /** No event reads as a timeout. */
  lemma EventIsNoTimeout(payload: Tokens)
    ensures EventResult(payload) != TimedOutResult
  {
    if EventResult(payload) == TimedOutResult {
      WrapDetermines("event", payload, "timedOut", [BoolWord(true)]);
    }
  }

  /** The journal tells a timeout only if some sweep's clock had reached the deadline; without a
      deadline it never does. */
  lemma TimeoutOnlyAfterDeadline(cfg: Configs, ops: seq<Op>, i: nat, n: nat, r: RunId, o: Outcome)
    requires ValidRun(cfg, ops) && Parks(cfg, ops, i, r, o) && i < n <= |ops| && r in Exec(cfg, ops[..n]).runs
    requires Recorded(Exec(cfg, ops[..n]), r, o.step, TimedOutResult)
    ensures o.timeoutAt.Some?
    ensures exists x :: i < x < n && ops[x].DoSweep? && ops[x].now >= o.timeoutAt.value
  {
    hide Exec, ValidRun, Recorded, Undecided;
    WaitResultIff(cfg, ops, i, n, r, o, TimedOutResult);
    var x :| i < x < n && Decides(cfg, ops, i, x, r, o, TimedOutResult);
    if Satisfies(ops[x], o) {
      EventIsNoTimeout(ops[x].payload);
    }
    assert ops[x].DoSweep? && ops[x].now >= o.timeoutAt.value;
  }
}
