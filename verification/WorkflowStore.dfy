/** The engine as an object: handlers update the tables in place, one store call after the
    other, and are proved against the handler functions of `WorkflowEngine`. */
module WorkflowStores {
  import opened Orders
  import opened Runs
  import CancelTree
  import opened WorkflowEngine
  import opened Wakeups

  /** A wake of one run. */
  function WakeOne(e: Engine, r: RunId, result: Tokens, clearStep: bool): Engine
    requires r in e.runs
  {
    e.(runs := e.runs[r := WokenRun(e.runs[r], clearStep)],
       steps := RecordIn(e.steps, r, WaitStepOf(e.runs[r]), "waitForEvent", Some(result)),
       jobs := e.jobs + multiset{r})
  }

  lemma WakeOneMoreRun(e: Engine, ids: set<RunId>, r: RunId, result: Tokens, clearStep: bool)
    requires ids <= e.runs.Keys && r in e.runs && r !in ids
    ensures Wake(e, ids + {r}, result, clearStep).runs
      == Wake(e, ids, result, clearStep).runs[r := WokenRun(e.runs[r], clearStep)]
  {
  }

  lemma WakeOneMoreStep(e: Engine, ids: set<RunId>, r: RunId, result: Tokens, clearStep: bool)
    requires ids <= e.runs.Keys && r in e.runs && r !in ids
    ensures Wake(e, ids + {r}, result, clearStep).steps
      == RecordIn(Wake(e, ids, result, clearStep).steps, r, WaitStepOf(e.runs[r]), "waitForEvent", Some(result))
  {
    hide Record;
  }

  lemma WakeOneMoreJob(e: Engine, ids: set<RunId>, r: RunId, result: Tokens, clearStep: bool)
    requires ids <= e.runs.Keys && r in e.runs && r !in ids
    ensures Wake(e, ids + {r}, result, clearStep).jobs == Wake(e, ids, result, clearStep).jobs + multiset{r}
  {
    assert multiset(ids + {r}) == multiset(ids) + multiset{r};
  }

  /** The update that releases timed-out waiters, keeping their wait step. */
  function Released(runs: RunTable, ids: set<RunId>): RunTable {
    map r | r in runs :: if r in ids then WokenRun(runs[r], false) else runs[r]
  }

  lemma ReleasedRows(e: Engine, ids: set<RunId>, result: Tokens)
    requires ids <= e.runs.Keys
    ensures Released(e.runs, ids) == Wake(e, ids, result, false).runs && Released(e.runs, ids).Keys == e.runs.Keys
    ensures forall r | r in ids :: WaitStepOf(Released(e.runs, ids)[r]) == WaitStepOf(e.runs[r])
  {
  }

  /** Waking runs one at a time adds up to waking them together. */
  lemma WakeOneMore(e: Engine, ids: set<RunId>, r: RunId, result: Tokens, clearStep: bool)
    requires ids <= e.runs.Keys && r in e.runs && r !in ids
    ensures WakeOne(Wake(e, ids, result, clearStep), r, result, clearStep) == Wake(e, ids + {r}, result, clearStep)
  {
    assert Wake(e, ids, result, clearStep).runs[r] == e.runs[r];
    assert Wake(e, ids, result, clearStep).jobs == e.jobs + multiset(ids);
    assert Wake(e, ids + {r}, result, clearStep).jobs == e.jobs + multiset(ids + {r});
    assert multiset(ids + {r}) == multiset(ids) + multiset{r};
    WakeKeepsIds(e, ids, result, clearStep);
    WakeKeepsIds(e, ids + {r}, result, clearStep);
    hide Wake, RecordIn;
    WakeOneMoreRun(e, ids, r, result, clearStep);
    WakeOneMoreStep(e, ids, r, result, clearStep);
  }

  lemma WakeNobody(e: Engine, result: Tokens, clearStep: bool)
    ensures Wake(e, {}, result, clearStep) == e
  {
    assert Wake(e, {}, result, clearStep).runs == e.runs;
    assert Wake(e, {}, result, clearStep).steps == e.steps;
  }

  /** The candidates whose wait predicate the event satisfies. */
  ghost function Satisfied(t: RunTable, candidates: seq<RunId>, fields: map<string, string>): set<RunId> {
    set r | r in candidates && r in t && MatchSubset(t[r].waitMatch, fields)
  }

  lemma SatisfiedOneMore(t: RunTable, candidates: seq<RunId>, n: nat, fields: map<string, string>)
    requires n < |candidates| && candidates[n] in t
    ensures Satisfied(t, candidates[..n + 1], fields)
      == Satisfied(t, candidates[..n], fields)
        + (if MatchSubset(t[candidates[n]].waitMatch, fields) then {candidates[n]} else {})
  {
    assert candidates[..n + 1] == candidates[..n] + [candidates[n]];
  }

  lemma WakeKeepsIds(e: Engine, ids: set<RunId>, result: Tokens, clearStep: bool)
    requires ids <= e.runs.Keys
    ensures Wake(e, ids, result, clearStep).nextId == e.nextId
    ensures Wake(e, ids, result, clearStep).inflight == e.inflight
  {
  }

  class WorkflowStore {
    const cfg: Configs
    var runs: RunTable
    var steps: map<RunId, Journal>
    var jobs: multiset<RunId>
    var nextId: RunId
    var inflight: set<RunId>
    var events: seq<(string, Tokens)>

    ghost function State(): (e: Engine)
      reads this
    {
      Engine(runs, steps, jobs, nextId, inflight)
    }

    constructor (cfg: Configs)
      ensures State() == Empty && this.cfg == cfg && events == []
    {
      this.cfg := cfg;
      events := [];
      runs, steps, jobs, nextId, inflight := map[], map[], multiset{}, 0, {};
    }

    method RecordStep(r: RunId, s: StepId, kind: string, result: Option<Tokens>)
      modifies this`steps
      ensures steps == RecordIn(old(steps), r, s, kind, result)
    {
      var j := if r in steps then steps[r] else map[];
      if !(s in j && j[s].done) {
        j := j[s := Step(kind, true, result, if s in j then j[s].attempts else 0)];
      }
      steps := steps[r := j];
    }

    /** `WHERE status = 2 AND wait_event = event`, rows in any order. */
    method EventCandidates(event: string) returns (ids: seq<RunId>)
      ensures forall i, j | 0 <= i < j < |ids| :: ids[i] != ids[j]
      ensures forall r :: r in ids <==> r in runs && runs[r].status == WaitEvent && runs[r].waitEvent == Some(event)
    {
      ids := [];
      var rest := set r | r in runs && runs[r].status == WaitEvent && runs[r].waitEvent == Some(event);
      while rest != {}
        invariant forall i, j | 0 <= i < j < |ids| :: ids[i] != ids[j]
        invariant forall r | r in ids :: r !in rest
        invariant forall r :: r in ids || r in rest <==>
                    r in runs && runs[r].status == WaitEvent && runs[r].waitEvent == Some(event)
        decreases |rest|
      {
        var r :| r in rest;
        ids := ids + [r];
        rest := rest - {r};
      }
    }

    method WakeWaiter(r: RunId, result: Tokens, clearStep: bool)
      requires r in runs
      modifies this`runs, this`steps, this`jobs
      ensures State() == WakeOne(old(State()), r, result, clearStep)
    {
      var row := runs[r];
      runs := runs[r := row.(status := Runnable, waitEvent := None, waitMatch := NoMatch, wakeAt := None,
                             waitStep := if clearStep then None else row.waitStep)];
      RecordStep(r, if row.waitStep.Some? then row.waitStep.value else "", "waitForEvent", Some(result));
      jobs := jobs + multiset{r};
    }

    method CreateRun(workflow: string, parent: Option<(RunId, StepId)>, idem: Option<IdemKey>) returns (id: RunId)
      modifies this`runs, this`nextId
      ensures id == old(nextId) && nextId == old(nextId) + 1
      ensures runs == old(runs)[id := NewRun(workflow, parent, idem)]
    {
      id := nextId;
      runs := runs[id := Run(workflow, Runnable, parent, idem, None, None, None, None, NoMatch, None)];
      nextId := nextId + 1;
    }

    /** Wakes the candidates whose predicate the event satisfies. */
    method WakeMatching(candidates: seq<RunId>, fields: map<string, string>,
                        result: Tokens) returns (waiters: seq<RunId>)
      requires forall r | r in candidates :: r in runs
      requires forall i, j | 0 <= i < j < |candidates| :: candidates[i] != candidates[j]
      modifies this`runs, this`steps, this`jobs
      ensures State() == Wake(old(State()), Satisfied(old(runs), candidates, fields), result, true)
      ensures forall r :: r in waiters <==> r in Satisfied(old(runs), candidates, fields)
    {
      ghost var e := State();
      ghost var woken: set<RunId> := {};
      waiters := [];
      WakeNobody(e, result, true);
      hide Wake;
      for n := 0 to |candidates|
        invariant woken <= e.runs.Keys && State() == Wake(e, woken, result, true)
        invariant runs.Keys == e.runs.Keys && forall r | r in e.runs && r !in woken :: runs[r] == e.runs[r]
        invariant woken == Satisfied(e.runs, candidates[..n], fields)
        invariant forall r :: r in waiters <==> r in woken
      {
        var r := candidates[n];
        assert r in candidates && r !in candidates[..n];
        SatisfiedOneMore(e.runs, candidates, n, fields);
        if MatchSubset(runs[r].waitMatch, fields) {
          WakeOneMore(e, woken, r, result, true);
          WakeWaiter(r, result, true);
          waiters := waiters + [r];
          woken := woken + {r};
        }
      }
      assert candidates[..|candidates|] == candidates;
    }

    method StartRun(workflow: string) returns (id: RunId)
      modifies this`runs, this`jobs, this`nextId
      ensures State() == Spawn(old(State()), workflow, None, None)
      ensures id == old(nextId) && nextId == old(nextId) + 1
    {
      id := CreateRun(workflow, None, None);
      jobs := jobs + multiset{id};
    }

    /** Creates a run and its job for each `on:` target. */
    method StartTargets(targets: seq<string>) returns (triggered: seq<RunId>)
      modifies this`runs, this`jobs, this`nextId
      ensures State() == SpawnAll(old(State()), targets)
      ensures |triggered| == |targets| && forall i | 0 <= i < |targets| :: triggered[i] == old(nextId) + i
    {
      triggered := [];
      hide Spawn;
      for n := 0 to |targets|
        invariant State() == SpawnAll(old(State()), targets[..n]) && nextId == old(nextId) + n
        invariant |triggered| == n && forall i | 0 <= i < n :: triggered[i] == old(nextId) + i
      {
        assert targets[..n + 1][..n] == targets[..n];
        var id := StartRun(targets[n]);
        triggered := triggered + [id];
      }
      assert targets[..|targets|] == targets;
    }

    /** The outbox transaction: keep the event, wake the matching waiters, then start the targets. */
    method EmitEvent(event: string, payload: Tokens, fields: map<string, string>, targets: seq<string>)
      returns (waiters: seq<RunId>, triggered: seq<RunId>)
      modifies this`runs, this`steps, this`jobs, this`nextId, this`events
      ensures events == old(events) + [(event, payload)]
      ensures State() == Emit(old(State()), event, payload, fields, targets)
      ensures forall r :: r in waiters <==> r in Waiters(old(State()), event, fields)
      ensures |triggered| == |targets| && forall i | 0 <= i < |targets| :: triggered[i] == old(nextId) + i
    {
      hide Wake, SpawnAll, MatchSubset;
      events := events + [(event, payload)];
      var candidates := EventCandidates(event);
      assert Waiters(State(), event, fields) == Satisfied(runs, candidates, fields);
      waiters := WakeMatching(candidates, fields, EventResult(payload));
      assert nextId == old(nextId) by {
        WakeKeepsIds(old(State()), Waiters(old(State()), event, fields), EventResult(payload), true);
      }
      triggered := StartTargets(targets);
    }

    /** Record first, then the guarded wake of a parked parent. */
    method Settle(child: RunId, result: Tokens)
      requires child in runs
      modifies this`runs, this`steps, this`jobs
      ensures State() == SettleParent(old(State()), child, result)
    {
      if runs[child].parent.Some? {
        var (p, s) := runs[child].parent.value;
        RecordStep(p, s, "invoke", Some(result));
        if p in runs && runs[p].status == WaitChild {
          runs := runs[p := runs[p].(status := Runnable)];
          jobs := jobs + multiset{p};
        }
      }
    }

    method Fail(r: RunId, error: string)
      requires r in runs
      modifies this`runs, this`steps, this`jobs
      ensures State() == FailRun(old(State()), r, error)
    {
      runs := runs[r := runs[r].(status := Failed, error := Some(error), waitEvent := None, waitStep := None,
        wakeAt := None)];
      Settle(r, ErrorResult(error));
    }

    method FindByKey(workflow: string, key: IdemKey) returns (found: Option<RunId>)
      ensures found.None? <==> !KeyTaken(runs, workflow, key)
      ensures found.Some? ==> found.value in runs && runs[found.value].workflow == workflow
                              && runs[found.value].idem == Some(key)
    {
      var hits := set id | id in runs && runs[id].workflow == workflow && runs[id].idem == Some(key);
      if hits == {} {
        found := None;
        assert forall id | id in runs && runs[id].workflow == workflow && runs[id].idem == Some(key) :: id in hits;
      } else {
        var id :| id in hits;
        found := Some(id);
      }
    }

    /** Park on a new child, or on the child a replayed suspension finds. */
    method Invoke(r: RunId, step: StepId, workflow: string)
      requires r in runs && KeysUnique(runs) && r < nextId
      modifies this`runs, this`steps, this`jobs, this`nextId
      ensures State() == InvokeChild(cfg, old(State()), r, step, workflow)
    {
      if workflow !in cfg {
        Fail(r, "step '" + step + "': unknown workflow '" + workflow + "'");
        return;
      }
      var found := FindByKey(workflow, InvokeKey(r, step));
      if found.None? {
        var child := CreateRun(workflow, Some((r, step)), Some(InvokeKey(r, step)));
        runs := runs[r := runs[r].(status := WaitChild)];
        jobs := jobs + multiset{child};
        assert State().runs == InvokeChild(cfg, old(State()), r, step, workflow).runs;
      } else {
        assert found.value == RunOfKey(runs, workflow, InvokeKey(r, step));
        var child := runs[found.value];
        if child.status == Completed {
          RecordStep(r, step, "invoke", Some(OutputResult(if child.output.Some? then child.output.value else NullText)));
          jobs := jobs + multiset{r};
        } else if child.status == Failed || child.status == Cancelled {
          RecordStep(r, step, "invoke", Some(ErrorResult(if child.error.Some? then child.error.value
            else "child run failed")));
          jobs := jobs + multiset{r};
        } else {
          runs := runs[r := runs[r].(status := WaitChild)];
        }
      }
    }

    method StepFailedAttempt(r: RunId, step: StepId) returns (attempts: nat)
      modifies this`steps
      ensures steps == old(steps)[r := CountFailure(JournalOf(old(steps), r), step)]
      ensures attempts == CountFailure(JournalOf(old(steps), r), step)[step].attempts
    {
      var j := if r in steps then steps[r] else map[];
      if step in j {
        attempts := j[step].attempts + 1;
        j := j[step := j[step].(attempts := attempts)];
      } else {
        attempts := 1;
        j := j[step := Step("run", false, None, 1)];
      }
      steps := steps[r := j];
    }

    /** Count the failed attempt, then retry or give up. */
    method RetryOrFail(r: RunId, step: StepId, error: string)
      requires r in runs
      modifies this`runs, this`steps, this`jobs
      ensures State() == RetryStep(cfg, old(State()), r, step, error)
    {
      hide CountFailure, FailRun, JournalOf;
      var attempts := StepFailedAttempt(r, step);
      var limit := if runs[r].workflow in cfg then cfg[runs[r].workflow] else DefaultStepAttempts;
      if attempts < limit {
        jobs := jobs + multiset{r};
      } else {
        Fail(r, error);
      }
    }

    method Complete(r: RunId, output: Tokens)
      requires r in runs
      modifies this`runs, this`steps, this`jobs
      ensures State() == CompleteRun(old(State()), r, output)
    {
      runs := runs[r := runs[r].(status := Completed, output := Some(output),
                                 waitEvent := None, waitStep := None, wakeAt := None)];
      Settle(r, OutputResult(output));
    }

    /** What the engine does with an executor's outcome. */
    method ApplyOutcome(r: RunId, o: Outcome)
      requires r in runs && KeysUnique(runs) && r < nextId
      modifies this`runs, this`steps, this`jobs, this`nextId
      ensures State() == Apply(cfg, old(State()), r, o)
    {
      hide KeysUnique, CompleteRun, FailRun, InvokeChild, RetryStep, Record;
      match o
      case Completes(output) => Complete(r, output);
      case Fails(error) => Fail(r, error);
      case Sleeps(step, wakeAt) =>
        RecordStep(r, step, "sleep", None);
        runs := runs[r := runs[r].(status := Sleeping, wakeAt := Some(wakeAt))];
        jobs := jobs + multiset{r};
      case Waits(step, event, timeoutAt, m) =>
        runs := runs[r := runs[r].(status := WaitEvent, waitEvent := Some(event), waitStep := Some(step),
                                   wakeAt := timeoutAt, waitMatch := m)];
      case Invokes(step, workflow) => Invoke(r, step, workflow);
      case FailsStep(step, error) => RetryOrFail(r, step, error);
    }

    /** The status re-check after the executor returns, then the acknowledgement. */
    method FinishAttempt(r: RunId, o: Outcome)
      requires KeysUnique(runs) && (r in runs ==> r < nextId)
      modifies this`runs, this`steps, this`jobs, this`nextId, this`inflight
      ensures State() == Finish(cfg, old(State()), r, o, true)
    {
      if r in runs && runs[r].status != Cancelled {
        ApplyOutcome(r, o);
      }
      inflight := inflight - {r};
      jobs := jobs - multiset{r};
    }

    /** `UPDATE runs ... RETURNING`: releases the timed-out waiters. */
    method SweepEventTimeouts(now: int) returns (waiters: set<RunId>)
      modifies this`runs
      ensures waiters == TimedOut(old(State()), now) && runs == Released(old(runs), waiters)
    {
      waiters := set r | r in runs && runs[r].status == WaitEvent && runs[r].wakeAt.Some?
        && runs[r].wakeAt.value <= now;
      runs := map r | r in runs :: if r in waiters then WokenRun(runs[r], false) else runs[r];
    }

    /** Gives each released waiter its result and its job. */
    method ResumeAll(waiters: set<RunId>, ghost e: Engine)
      requires waiters <= e.runs.Keys && runs == Released(e.runs, waiters) && steps == e.steps && jobs == e.jobs
      modifies this`steps, this`jobs
      ensures steps == Wake(e, waiters, TimedOutResult, false).steps
        && jobs == Wake(e, waiters, TimedOutResult, false).jobs
    {
      hide Wake, Released;
      WakeNobody(e, TimedOutResult, false);
      ReleasedRows(e, waiters, TimedOutResult);
      var rest, done := waiters, {};
      while rest != {}
        invariant rest !! done && rest + done == waiters
        invariant steps == Wake(e, done, TimedOutResult, false).steps
          && jobs == Wake(e, done, TimedOutResult, false).jobs
        decreases |rest|
      {
        var r :| r in rest;
        WakeOneMoreStep(e, done, r, TimedOutResult, false);
        WakeOneMoreJob(e, done, r, TimedOutResult, false);
        RecordStep(r, WaitStepOf(runs[r]), "waitForEvent", Some(TimedOutResult));
        jobs := jobs + multiset{r};
        rest, done := rest - {r}, done + {r};
      }
      assert done == waiters;
    }

    /** Releases the runs whose event wait timed out. */
    method Sweep(now: int) returns (count: nat)
      modifies this`runs, this`steps, this`jobs
      ensures State() == SweepTimeouts(old(State()), now)
      ensures count == |TimedOut(old(State()), now)|
    {
      hide Wake, Released;
      var waiters := SweepEventTimeouts(now);
      ResumeAll(waiters, old(State()));
      ReleasedRows(old(State()), waiters, TimedOutResult);
      WakeKeepsIds(old(State()), waiters, TimedOutResult, false);
      count := |waiters|;
    }

    method CancelFrom(root: RunId) returns (cancelled: nat)
      modifies this`runs
      ensures State() == Cancel(old(State()), root)
      ensures cancelled == |CancelTree.CancelSet(old(runs), root)|
    {
      runs, cancelled := CancelTree.CancelRunTree(runs, root);
    }
  }
}
