/** Execution jobs and their delivery budget: which crashes the engine survives. */
module Deliveries {
  import opened Orders
  import opened Runs
  import opened WorkflowEngine
  import opened Wakeups
  import opened EngineRuns
  import opened Crashes
  import Stranded

  /** Deliveries an execution job is worth. */
  const MaxDeliveries: nat := 3

  /** The un-acknowledged jobs by the deliveries they have used. A job whose third delivery ends
      without an acknowledgement is dead, and leaves the bag. */
  datatype Bag = Bag(unused: multiset<RunId>, once: multiset<RunId>, twice: multiset<RunId>, thrice: multiset<RunId>)

  function At(b: Bag, used: nat): multiset<RunId>
    requires used <= MaxDeliveries
  {
    if used == 0 then b.unused else if used == 1 then b.once else if used == 2 then b.twice else b.thrice
  }

  function With(b: Bag, used: nat, jobs: multiset<RunId>): Bag
    requires used <= MaxDeliveries
  {
    if used == 0 then b.(unused := jobs)
    else if used == 1 then b.(once := jobs)
    else if used == 2 then b.(twice := jobs)
    else b.(thrice := jobs)
  }

  function Added(b: Bag, jobs: multiset<RunId>): Bag { b.(unused := b.unused + jobs) }

  function Removed(b: Bag, r: RunId, used: nat): Bag
    requires used <= MaxDeliveries
  {
    With(b, used, At(b, used) - multiset{r})
  }

  function Used(b: Bag, r: RunId, used: nat): Bag
    requires used < MaxDeliveries
  {
    var less := Removed(b, r, used);
    With(less, used + 1, At(less, used + 1) + multiset{r})
  }

  /** The engine with its jobs' budgets; `held` is what the job of a run in flight has used,
      this delivery included. */
  datatype Tracked = Tracked(e: Engine, bag: Bag, held: map<RunId, nat>, dead: multiset<RunId>)

  /** `Dies` is a worker that dies, or reports an infrastructure error, after `k` store calls of
      applying `outcome`: `k == 0` stands for any earlier moment. `Requeues` and `Purges` act on
      some of the dead jobs, named by their runs. */
  datatype Event =
    | Runs(op: Op)
    | Delivers(run: RunId, used: nat)
    | Finishes(run: RunId, outcome: Outcome, acked: bool)
    | Dies(run: RunId, outcome: Outcome, k: nat)
    | TriggerDies(workflow: string, key: Option<string>, k: nat)
    | SweepDies(now: int, waiters: seq<RunId>, k: nat)
    | Requeues(runs: multiset<RunId>)
    | Purges(runs: multiset<RunId>)

  predicate Attempts(e: Engine, r: RunId) { r in e.runs && e.runs[r].status != Cancelled }

  ghost predicate Can(cfg: Configs, t: Tracked, ev: Event) {
    match ev
    case Runs(op) => !op.DoBegin? && !op.DoFinish? && !op.DoCrash? && (op.DoCancel? || Legal(t.e, op))
    case Delivers(r, used) => used < MaxDeliveries && r in At(t.bag, used) && r !in t.e.inflight
    case Finishes(r, o, _) => r in t.e.inflight && r in t.held && t.held[r] <= MaxDeliveries && Suspends(t.e, r, o)
    case Dies(r, o, k) =>
      && r in t.e.inflight && r in t.held && t.held[r] <= MaxDeliveries && Suspends(t.e, r, o)
      && k <= if Attempts(t.e, r) then |ApplyCalls(cfg, t.e, r, o)| else 0
    case TriggerDies(workflow, key, k) => k <= |TriggerCalls(t.e, workflow, key)|
    case SweepDies(now, ws, k) => Distinct(ws) && Members(ws) == TimedOut(t.e, now) && k <= |SweepCalls(t.e, ws)|
    case Requeues(runs) => runs <= t.dead
    case Purges(runs) => runs <= t.dead
  }

  /** The tables a dying worker leaves, its job still there. */
  ghost function Wreck(cfg: Configs, e: Engine, r: RunId, o: Outcome, k: nat): Engine
    requires k <= if Attempts(e, r) then |ApplyCalls(cfg, e, r, o)| else 0
  {
    if Attempts(e, r) then Crashed(e, r, ApplyCalls(cfg, e, r, o), k) else e.(inflight := e.inflight - {r})
  }

  function DropJob(e: Engine, r: RunId): Engine { e.(jobs := e.jobs - multiset{r}) }

  ghost function After(cfg: Configs, t: Tracked, ev: Event): Tracked
    requires Can(cfg, t, ev)
  {
    match ev
    case Runs(op) =>
      var e := Next(cfg, t.e, op);
      t.(e := e, bag := Added(t.bag, e.jobs - t.e.jobs))
    case Delivers(r, used) =>
      var e := Begin(t.e, r);
      if r in e.inflight then t.(e := e, bag := Used(t.bag, r, used), held := t.held[r := used + 1])
      else t.(e := e, bag := Removed(t.bag, r, used))
    case Finishes(r, o, acked) =>
      var used := t.held[r];
      var e := Finish(cfg, t.e, r, o, false);
      var bag := Added(t.bag, e.jobs - t.e.jobs);
      if acked || used == MaxDeliveries
      then Tracked(DropJob(e, r), Removed(bag, r, used), t.held - {r}, if acked then t.dead else t.dead + multiset{r})
      else Tracked(e, bag, t.held - {r}, t.dead)
    case Dies(r, o, k) =>
      var used := t.held[r];
      var e := Wreck(cfg, t.e, r, o, k);
      var bag := Added(t.bag, e.jobs - t.e.jobs);
      if used == MaxDeliveries then Tracked(DropJob(e, r), Removed(bag, r, used), t.held - {r}, t.dead + multiset{r})
      else Tracked(e, bag, t.held - {r}, t.dead)
    case TriggerDies(workflow, key, k) =>
      var e := DoAll(t.e, TriggerCalls(t.e, workflow, key)[..k]);
      t.(e := e, bag := Added(t.bag, e.jobs - t.e.jobs))
    case SweepDies(now, ws, k) =>
      var e := DoAll(t.e, SweepCalls(t.e, ws)[..k]);
      t.(e := e, bag := Added(t.bag, e.jobs - t.e.jobs))
    case Requeues(runs) =>
      var e := t.e.(jobs := t.e.jobs + runs);
      t.(e := e, bag := Added(t.bag, e.jobs - t.e.jobs), dead := t.dead - runs)
    case Purges(runs) => t.(dead := t.dead - runs)
  }

  // ---- The bag follows the engine ---------------------------------------------------------------------------

  function CountIn(b: Bag, r: RunId): nat { b.unused[r] + b.once[r] + b.twice[r] + b.thrice[r] }

  /** The bag holds the run's jobs, and only a run in flight holds a job with no delivery left. */
  predicate FollowsAt(t: Tracked, r: RunId) {
    && t.e.jobs[r] == CountIn(t.bag, r)
    && (r in t.held <==> r in t.e.inflight)
    && (r in t.held ==> 1 <= t.held[r] <= MaxDeliveries && r in At(t.bag, t.held[r]))
    && t.bag.thrice[r] == if r in t.held && t.held[r] == MaxDeliveries then 1 else 0
  }

  ghost predicate Follows(t: Tracked) { forall r :: FollowsAt(t, r) }

  /** Dead jobs are of runs that were once created. */
  predicate Buried(t: Tracked) { forall r | r in t.dead :: r < t.e.nextId }

  ghost predicate Sound(t: Tracked) { Follows(t) && Buried(t) }

  /** Jobs and ids were only added, and nobody took off or landed. */
  ghost predicate OnlyAdds(e: Engine, e': Engine) {
    e'.inflight == e.inflight && e'.nextId >= e.nextId && forall r :: e'.jobs[r] >= e.jobs[r]
  }

  /** The same, and `r` landed. */
  ghost predicate Lands(e: Engine, e': Engine, r: RunId) {
    e'.inflight == e.inflight - {r} && e'.nextId >= e.nextId && forall x :: e'.jobs[x] >= e.jobs[x]
  }

  lemma AddingFollows(t: Tracked, e: Engine)
    requires Follows(t) && OnlyAdds(t.e, e)
    ensures Follows(t.(e := e, bag := Added(t.bag, e.jobs - t.e.jobs)))
  {
    var added := e.jobs - t.e.jobs;
    var t' := t.(e := e, bag := Added(t.bag, added));
    forall r ensures FollowsAt(t', r) {
      assert FollowsAt(t, r);
      assert added[r] == e.jobs[r] - t.e.jobs[r];
    }
  }

  predicate SameCounts(b: Bag, b': Bag, r: RunId) {
    b'.unused[r] == b.unused[r] && b'.once[r] == b.once[r] && b'.twice[r] == b.twice[r] && b'.thrice[r] == b.thrice[r]
  }

  /** Whatever is not about `r` follows as before. */
  lemma OthersFollow(t: Tracked, t': Tracked, r: RunId)
    requires Follows(t) && FollowsAt(t', r)
    requires forall x | x != r ::
      && t'.e.jobs[x] == t.e.jobs[x] && (x in t'.e.inflight <==> x in t.e.inflight) && SameCounts(t.bag, t'.bag, x)
      && (x in t'.held <==> x in t.held) && (x in t.held ==> t'.held[x] == t.held[x])
    ensures Follows(t')
  {
    forall x ensures FollowsAt(t', x) {
      assert x != r ==> FollowsAt(t, x);
    }
  }

  lemma FollowsHere(t: Tracked, r: RunId)
    requires Follows(t)
    ensures FollowsAt(t, r)
  {
  }

  lemma RemovedCounts(b: Bag, r: RunId, used: nat)
    requires used <= MaxDeliveries && r in At(b, used)
    ensures forall x | x != r :: SameCounts(b, Removed(b, r, used), x)
    ensures var b' := Removed(b, r, used);
      && b'.unused[r] == b.unused[r] - (if used == 0 then 1 else 0)
         && b'.once[r] == b.once[r] - (if used == 1 then 1 else 0)
      && b'.twice[r] == b.twice[r] - (if used == 2 then 1 else 0)
         && b'.thrice[r] == b.thrice[r] - (if used == 3 then 1 else 0)
  {
  }

  lemma UsedCounts(b: Bag, r: RunId, used: nat)
    requires used < MaxDeliveries && r in At(b, used)
    ensures forall x | x != r :: SameCounts(b, Used(b, r, used), x)
    ensures var b' := Used(b, r, used);
      && b'.unused[r] == b.unused[r] - (if used == 0 then 1 else 0)
      && b'.once[r] == b.once[r] - (if used == 1 then 1 else 0) + (if used == 0 then 1 else 0)
      && b'.twice[r] == b.twice[r] - (if used == 2 then 1 else 0) + (if used == 1 then 1 else 0)
      && b'.thrice[r] == b.thrice[r] + (if used == 2 then 1 else 0)
  {
    RemovedCounts(b, r, used);
  }

  /** The run lets go of its job, which stays, or goes when `gone`. */
  lemma LettingGoFollows(t: Tracked, r: RunId, gone: bool)
    requires Follows(t) && r in t.held && (t.held[r] == MaxDeliveries ==> gone)
    ensures t.held[r] <= MaxDeliveries
    ensures var e := t.e.(inflight := t.e.inflight - {r});
      Follows(t.(e := if gone then DropJob(e, r) else e, held := t.held - {r},
                 bag := if gone then Removed(t.bag, r, t.held[r]) else t.bag))
  {
    hide Follows, Removed, Used;
    FollowsHere(t, r);
    RemovedCounts(t.bag, r, t.held[r]);
    var e := t.e.(inflight := t.e.inflight - {r});
    var t' := t.(e := if gone then DropJob(e, r) else e, held := t.held - {r},
                 bag := if gone then Removed(t.bag, r, t.held[r]) else t.bag);
    assert FollowsAt(t', r);
    hide FollowsAt;
    OthersFollow(t, t', r);
  }

  lemma DeliveringFollows(t: Tracked, r: RunId, used: nat)
    requires Follows(t) && used < MaxDeliveries && r in At(t.bag, used) && r !in t.e.inflight
    ensures Follows(t.(e := t.e.(inflight := t.e.inflight + {r}), bag := Used(t.bag, r, used),
      held := t.held[r := used + 1]))
  {
    hide Follows, Removed, Used;
    FollowsHere(t, r);
    UsedCounts(t.bag, r, used);
    var t' := t.(e := t.e.(inflight := t.e.inflight + {r}), bag := Used(t.bag, r, used), held := t.held[r := used + 1]);
    assert FollowsAt(t', r);
    hide FollowsAt;
    OthersFollow(t, t', r);
  }

  lemma StaleFollows(t: Tracked, r: RunId, used: nat)
    requires Follows(t) && used < MaxDeliveries && r in At(t.bag, used) && r !in t.e.inflight
    ensures Follows(t.(e := DropJob(t.e, r), bag := Removed(t.bag, r, used)))
  {
    hide Follows, Removed, Used;
    FollowsHere(t, r);
    RemovedCounts(t.bag, r, used);
    var t' := t.(e := DropJob(t.e, r), bag := Removed(t.bag, r, used));
    assert FollowsAt(t', r);
    hide FollowsAt;
    OthersFollow(t, t', r);
  }

  lemma {:induction false} CallsOnlyAdd(e: Engine, calls: seq<Call>)
    ensures OnlyAdds(e, DoAll(e, calls))
    decreases |calls|
  {
    if calls != [] {
      assert OnlyAdds(e, Do(e, calls[0]));
      hide Do;
      CallsOnlyAdd(Do(e, calls[0]), calls[1..]);
    }
  }

  lemma {:induction false} SpawnAllOnlyAdds(e: Engine, targets: seq<string>)
    ensures OnlyAdds(e, SpawnAll(e, targets))
  {
    if targets != [] {
      SpawnAllOnlyAdds(e, targets[..|targets| - 1]);
    }
  }

  lemma WakeOnlyAdds(e: Engine, ids: set<RunId>, result: Tokens, clearStep: bool)
    requires ids <= e.runs.Keys
    ensures OnlyAdds(e, Wake(e, ids, result, clearStep))
  {
    hide Wake;
    WakeEffect(e, ids, result, clearStep);
  }

  lemma OpOnlyAdds(cfg: Configs, e: Engine, op: Op)
    requires !op.DoBegin? && !op.DoFinish? && !op.DoCrash?
    ensures OnlyAdds(e, Next(cfg, e, op))
  {
    hide Wake, SpawnAll, CancelTree.CancelSet, RecordIn, KeyTaken;
    match op
    case DoTrigger(workflow, key) =>
    case DoRecord(r, step, result) =>
    case DoEmit(event, payload, fields, targets) =>
      var ids := Waiters(e, event, fields);
      WakeOnlyAdds(e, ids, EventResult(payload), true);
      SpawnAllOnlyAdds(Wake(e, ids, EventResult(payload), true), targets);
    case DoSweep(now) => WakeOnlyAdds(e, TimedOut(e, now), TimedOutResult, false);
    case DoCancel(root) =>
    case DoCollect(ids) =>
  }

  /** A landing: jobs were added while the run was in flight, then it lets its own job go. */
  function Landed(t: Tracked, e: Engine, r: RunId, gone: bool, dead: multiset<RunId>): Tracked
    requires r in t.held && t.held[r] <= MaxDeliveries
  {
    var bag := Added(t.bag, e.jobs - t.e.jobs);
    Tracked(if gone then DropJob(e, r) else e, if gone then Removed(bag, r, t.held[r]) else bag, t.held - {r}, dead)
  }

  lemma LandingFollows(t: Tracked, e: Engine, r: RunId, gone: bool, dead: multiset<RunId>)
    requires Follows(t) && r in t.held && t.held[r] <= MaxDeliveries && (t.held[r] == MaxDeliveries ==> gone)
    requires Lands(t.e, e, r)
    ensures Follows(Landed(t, e, r, gone, dead))
  {
    hide Follows, Removed;
    var e1 := e.(inflight := t.e.inflight);
    AddingFollows(t, e1);
    LettingGoFollows(t.(e := e1, bag := Added(t.bag, e1.jobs - t.e.jobs)), r, gone);
    assert e1.(inflight := e1.inflight - {r}) == e;
    DeadOnlyCounted(Landed(t, e, r, gone, t.dead), dead);
  }

  lemma DeadOnlyCounted(t: Tracked, dead: multiset<RunId>)
    requires Follows(t)
    ensures Follows(t.(dead := dead))
  {
    forall r ensures FollowsAt(t.(dead := dead), r) {
      assert FollowsAt(t, r);
    }
  }

  lemma FinishLands(cfg: Configs, e: Engine, r: RunId, o: Outcome)
    requires Stranded.Calm(e)
    ensures Lands(e, Finish(cfg, e, r, o, false), r)
  {
    if Attempts(e, r) {
      assert r < e.nextId && (e.runs[r].parent.Some? ==> e.runs[r].parent.value.0 != r);
      hide Stranded.Calm, Apply, ApplyCalls;
      ApplyIsCalls(cfg, e, r, o);
      CallsOnlyAdd(e, ApplyCalls(cfg, e, r, o));
    }
  }

  lemma WreckLands(cfg: Configs, e: Engine, r: RunId, o: Outcome, k: nat)
    requires k <= if Attempts(e, r) then |ApplyCalls(cfg, e, r, o)| else 0
    ensures Lands(e, Wreck(cfg, e, r, o, k), r)
  {
    if Attempts(e, r) {
      CallsOnlyAdd(e, ApplyCalls(cfg, e, r, o)[..k]);
    }
    hide ApplyCalls, DoAll;
  }

  lemma LandingIsSound(t: Tracked, e: Engine, r: RunId, gone: bool, dead: multiset<RunId>)
    requires Sound(t) && r in t.held && t.held[r] <= MaxDeliveries && (t.held[r] == MaxDeliveries ==> gone)
    requires Lands(t.e, e, r) && r < t.e.nextId && (dead == t.dead || dead == t.dead + multiset{r})
    ensures Sound(Landed(t, e, r, gone, dead))
  {
    LandingFollows(t, e, r, gone, dead);
    hide Follows, Removed;
  }

  lemma AddingIsSound(t: Tracked, e: Engine, dead: multiset<RunId>)
    requires Sound(t) && OnlyAdds(t.e, e) && dead <= t.dead
    ensures Sound(t.(e := e, bag := Added(t.bag, e.jobs - t.e.jobs), dead := dead))
  {
    AddingFollows(t, e);
    hide Follows;
    DeadOnlyCounted(t.(e := e, bag := Added(t.bag, e.jobs - t.e.jobs)), dead);
    assert forall r | r in dead :: r in t.dead;
  }

  lemma DeliversIsSound(cfg: Configs, t: Tracked, r: RunId, used: nat)
    requires Sound(t) && Can(cfg, t, Delivers(r, used))
    ensures Sound(After(cfg, t, Delivers(r, used)))
  {
    hide Follows, Used, Removed;
    DeliveringFollows(t, r, used);
    StaleFollows(t, r, used);
  }

  /** Every event keeps the bag, the flights and the dead jobs in step with the engine. */
  lemma EventIsSound(cfg: Configs, t: Tracked, ev: Event)
    requires Stranded.Calm(t.e) && Sound(t) && Can(cfg, t, ev)
    ensures Sound(After(cfg, t, ev))
  {
    assert forall r | r in t.e.inflight :: r < t.e.nextId;
    hide Sound, Removed, Used, Next, Finish, Wreck, Begin, DoAll, ApplyCalls, TriggerCalls, SweepCalls, Suspends, Lands;
    hide Stranded.Calm;
    match ev
    case Runs(op) =>
      OpOnlyAdds(cfg, t.e, op);
      AddingIsSound(t, Next(cfg, t.e, op), t.dead);
    case Delivers(r, used) => DeliversIsSound(cfg, t, r, used);
    case Finishes(r, o, acked) =>
      var gone := acked || t.held[r] == MaxDeliveries;
      FinishLands(cfg, t.e, r, o);
      var dead := if acked || !gone then t.dead else t.dead + multiset{r};
      LandingIsSound(t, Finish(cfg, t.e, r, o, false), r, gone, dead);
    case Dies(r, o, k) =>
      var gone := t.held[r] == MaxDeliveries;
      WreckLands(cfg, t.e, r, o, k);
      LandingIsSound(t, Wreck(cfg, t.e, r, o, k), r, gone, if gone then t.dead + multiset{r} else t.dead);
    case TriggerDies(workflow, key, k) =>
      CallsOnlyAdd(t.e, TriggerCalls(t.e, workflow, key)[..k]);
      AddingIsSound(t, DoAll(t.e, TriggerCalls(t.e, workflow, key)[..k]), t.dead);
    case SweepDies(now, ws, k) =>
      CallsOnlyAdd(t.e, SweepCalls(t.e, ws)[..k]);
      AddingIsSound(t, DoAll(t.e, SweepCalls(t.e, ws)[..k]), t.dead);
    case Requeues(runs) => AddingIsSound(t, t.e.(jobs := t.e.jobs + runs), t.dead - runs);
    case Purges(runs) => PurgeIsSound(t, runs);
  }

  lemma PurgeIsSound(t: Tracked, runs: multiset<RunId>)
    requires Sound(t)
    ensures Sound(t.(dead := t.dead - runs))
  {
    DeadOnlyCounted(t, t.dead - runs);
    hide Follows;
  }

  // ---- Which events the engine survives ------------------------------------------------------------------------

  /** With `k` calls of the outcome made, the run still has to be woken: it was not ended or parked
      yet, and a follow-up job of its own was not pushed yet. */
  ghost predicate StillNeeds(cfg: Configs, e: Engine, r: RunId, o: Outcome, k: nat)
    requires r in e.runs
  {
    match o
    case Completes(_) => k == 0
    case Fails(_) => k == 0
    case Sleeps(_, _) => k < 3
    case Waits(_, _, _, _) => k == 0
    case Invokes(_, workflow) => if workflow in cfg then k < 2 else k == 0
    case FailsStep(_, _) => k < 2
  }

  /** The delivered job is the only one of a run that still needs it. */
  ghost predicate LastJob(cfg: Configs, e: Engine, r: RunId, o: Outcome, k: nat) {
    Attempts(e, r) && StillNeeds(cfg, e, r, o, k) && e.jobs[r] == 1
  }

  /** The run is awake without another job. */
  predicate NeedsJob(e: Engine, r: RunId) { r in e.runs && Awake(e.runs[r].status) && e.jobs[r] <= 1 }

  /** No live child is cancelled alone, no worker dies at an unsafe cut, and none on the last
      delivery of the only job of a run that still needs it. */
  ghost predicate Survives(cfg: Configs, t: Tracked, ev: Event)
    requires Can(cfg, t, ev)
  {
    match ev
    case Runs(op) => op.DoCancel? ==> SafeToCancel(t.e, op.root)
    case Dies(r, o, k) =>
      && (Attempts(t.e, r) ==> SafeCut(cfg, t.e, r, o, k))
      && !(t.held[r] == MaxDeliveries && LastJob(cfg, t.e, r, o, k))
    case TriggerDies(_, _, k) => k != 1
    case SweepDies(_, ws, k) => SafeSweepCut(t.e, ws, k)
    case _ => true
  }

  /** The invariant holds, or some run is stuck. */
  ghost predicate Decided(e: Engine, ok: bool) {
    (Inv(e, false) <==> ok) && (!ok ==> SomeStuck(e))
  }

  ghost predicate SomeStuck(e: Engine) { exists x :: Stuck(e, x) }

  lemma StillStuck(e: Engine, r: RunId, x: RunId)
    requires Stuck(e, x)
    ensures Stuck(DropJob(e, r), x)
  {
  }

  // ---- The run after a cut ---------------------------------------------------------------------------------------

  /** The run's own row and jobs after a cut of its end: ended by the first call. */
  lemma EndRow(e: Engine, r: RunId, row: Run, result: Tokens, k: nat)
    requires Ending(e, false, r, false) && SameIds(e.runs[r], row) && Terminal(row.status)
    requires 1 <= k <= |EndCalls(e, r, row, result)|
    ensures var e' := DoAll(e, EndCalls(e, r, row, result)[..k]); r in e'.runs && Terminal(e'.runs[r].status)
  {
    var first, rest := Update(r, row), SettleCalls(e, r, result);
    if e.runs[r].parent.Some? {
      ParentOf(e, r);
    }
    hide Family, Keys, Work, DoAll;
    assert EndCalls(e, r, row, result)[..k] == [first] + rest[..k - 1];
    DoCons(e, first, rest[..k - 1]);
    forall c | c in rest ensures !c.Update? || c.run != r {
    }
    OtherCallsKeepRow(Do(e, first), rest[..k - 1], r);
  }

  lemma {:induction false} OtherCallsKeepRow(e: Engine, calls: seq<Call>, r: RunId)
    requires r in e.runs && forall c | c in calls :: (c.Update? && c.run != r) || c.Journal? || c.Push? || c.Count?
    ensures var e' := DoAll(e, calls); r in e'.runs && e'.runs[r] == e.runs[r]
    decreases |calls|
  {
    if calls != [] {
      assert calls[0] in calls;
      OtherCallsKeepRow(Do(e, calls[0]), calls[1..], r);
    }
  }

  /** After the cut the run needs its job exactly as stated before it. */
  lemma NeedsIff(cfg: Configs, e: Engine, r: RunId, o: Outcome, k: nat)
    requires Inv(e, false) && r in e.inflight && Suspends(e, r, o)
    requires k <= if Attempts(e, r) then |ApplyCalls(cfg, e, r, o)| else 0
    ensures NeedsJob(Wreck(cfg, e, r, o, k), r) <==> LastJob(cfg, e, r, o, k)
  {
    RowOf(e, false, r);
    if Attempts(e, r) {
      assert Ending(e, false, r, false);
      hide Inv, DoAll;
      CutNeedsIff(cfg, e, r, o, k);
    }
  }

  lemma CutNeedsIff(cfg: Configs, e: Engine, r: RunId, o: Outcome, k: nat)
    requires Ending(e, false, r, false) && Suspends(e, r, o) && k <= |ApplyCalls(cfg, e, r, o)|
    ensures NeedsJob(DoAll(e, ApplyCalls(cfg, e, r, o)[..k]), r) <==> StillNeeds(cfg, e, r, o, k) && e.jobs[r] == 1
  {
    var calls := ApplyCalls(cfg, e, r, o);
    hide Family, Keys, Work, DoAll, EndCalls, CountFailure, StartCalls, InvokeCalls;
    assert e.jobs[r] >= 1;
    if k == 0 {
      assert calls[..0] == [];
      DoNothing(e);
    } else {
      match o
      case Completes(output) =>
        EndRow(e, r, Finished(e.runs[r], Completed).(output := Some(output)), OutputResult(output), k);
      case Fails(error) => EndRow(e, r, Finished(e.runs[r], Failed).(error := Some(error)), ErrorResult(error), k);
      case Sleeps(step, wakeAt) => ThreeCallsNeed(e, calls, r, k);
      case Waits(step, event, timeoutAt, m) =>
        assert calls[..1] == [calls[0]];
        DoOne(e, calls[0]);
      case Invokes(step, workflow) => InvokeNeedsIff(cfg, e, r, step, workflow, k);
      case FailsStep(step, error) => RetryNeedsIff(cfg, e, r, step, error, k);
    }
  }

  /** Journal, a row that stays awake, a job. */
  lemma ThreeCallsNeed(e: Engine, calls: seq<Call>, r: RunId, k: nat)
    requires |calls| == 3 && 1 <= k <= 3 && r in e.runs && Awake(e.runs[r].status) && e.jobs[r] >= 1
    requires calls[0].Journal? && calls[1].Update? && calls[1].run == r && Awake(calls[1].row.status)
    requires calls[2] == Push(r)
    ensures NeedsJob(DoAll(e, calls[..k]), r) <==> k < 3 && e.jobs[r] == 1
  {
    hide DoAll;
    if k == 1 {
      assert calls[..1] == [calls[0]];
      DoOne(e, calls[0]);
    } else if k == 2 {
      assert calls[..2] == [calls[0], calls[1]];
      DoTwo(e, calls[0], calls[1]);
    } else {
      assert calls[..3] == [calls[0], calls[1], calls[2]];
      DoThree(e, calls[0], calls[1], calls[2]);
    }
  }

  lemma InvokeNeedsIff(cfg: Configs, e: Engine, r: RunId, step: StepId, workflow: string, k: nat)
    requires Ending(e, false, r, false) && !Done(e.steps, r, step) && 1 <= k <= |InvokeCalls(cfg, e, r, step, workflow)|
    ensures NeedsJob(DoAll(e, InvokeCalls(cfg, e, r, step, workflow)[..k]), r)
            <==> StillNeeds(cfg, e, r, Invokes(step, workflow), k) && e.jobs[r] == 1
  {
    var calls := InvokeCalls(cfg, e, r, step, workflow);
    RowOf(e, false, r);
    hide Family, Keys, Work, DoAll, EndCalls;
    if workflow !in cfg {
      var error := "step '" + step + "': unknown workflow '" + workflow + "'";
      EndRow(e, r, Finished(e.runs[r], Failed).(error := Some(error)), ErrorResult(error), k);
    } else if KeyTaken(e.runs, workflow, InvokeKey(r, step)) {
      ReuseKeepsInv(e, false, r, step, RunOfKey(e.runs, workflow, InvokeKey(r, step)), false);
      JournalPushNeed(e, calls, r, k);
    } else {
      StartNeeds(e, r, step, workflow, k);
    }
  }

  lemma JournalPushNeed(e: Engine, calls: seq<Call>, r: RunId, k: nat)
    requires |calls| == 2 && 1 <= k <= 2 && r in e.runs && Awake(e.runs[r].status) && e.jobs[r] >= 1
    requires (calls[0].Journal? || calls[0].Count?) && calls[1] == Push(r)
    ensures NeedsJob(DoAll(e, calls[..k]), r) <==> k < 2 && e.jobs[r] == 1
  {
    hide DoAll;
    if k == 1 {
      assert calls[..1] == [calls[0]];
      DoOne(e, calls[0]);
    } else {
      assert calls[..2] == [calls[0], calls[1]];
      DoTwo(e, calls[0], calls[1]);
    }
  }

  lemma StartedNeeds(e: Engine, r: RunId, step: StepId, workflow: string)
    requires r in e.runs && r < e.nextId && Awake(e.runs[r].status) && e.jobs[r] >= 1
    ensures var calls := StartCalls(e, r, step, workflow);
      |calls| == 3
      && var s1 := Do(e, calls[0]);
         var s2 := Do(s1, calls[1]);
         && (NeedsJob(s1, r) <==> e.jobs[r] == 1)
         && !NeedsJob(s2, r) && !NeedsJob(Do(s2, calls[2]), r)
  {
    hide NewRun;
  }

  lemma StartNeeds(e: Engine, r: RunId, step: StepId, workflow: string, k: nat)
    requires r in e.runs && r < e.nextId && Awake(e.runs[r].status) && e.jobs[r] >= 1 && 1 <= k <= 3
    ensures |StartCalls(e, r, step, workflow)| == 3
    ensures NeedsJob(DoAll(e, StartCalls(e, r, step, workflow)[..k]), r) <==> k < 2 && e.jobs[r] == 1
  {
    hide *;
    StartedNeeds(e, r, step, workflow);
    DoFirst(e, StartCalls(e, r, step, workflow));
  }

  lemma DoFirst(e: Engine, calls: seq<Call>)
    requires |calls| == 3
    ensures DoAll(e, calls[..1]) == Do(e, calls[0])
    ensures DoAll(e, calls[..2]) == Do(Do(e, calls[0]), calls[1])
    ensures DoAll(e, calls[..3]) == Do(Do(Do(e, calls[0]), calls[1]), calls[2])
  {
    hide *;
    assert calls[..1] == [calls[0]];
    DoOne(e, calls[0]);
    assert calls[..2] == [calls[0], calls[1]];
    DoTwo(e, calls[0], calls[1]);
    assert calls[..3] == [calls[0], calls[1], calls[2]];
    DoThree(e, calls[0], calls[1], calls[2]);
  }

  lemma RetryNeedsIff(cfg: Configs, e: Engine, r: RunId, step: StepId, error: string, k: nat)
    requires Ending(e, false, r, false) && 1 <= k <= |ApplyCalls(cfg, e, r, FailsStep(step, error))|
    ensures NeedsJob(DoAll(e, ApplyCalls(cfg, e, r, FailsStep(step, error))[..k]), r) <==> k < 2 && e.jobs[r] == 1
  {
    hide Family, Keys, Work, DoAll, EndCalls, CountFailure, FailCalls;
    var calls, first := ApplyCalls(cfg, e, r, FailsStep(step, error)), Count(r, step);
    var e1 := Do(e, first);
    if Retries(cfg, e, r, step) {
      JournalPushNeed(e, calls, r, k);
    } else if k == 1 {
      assert calls[..1] == [first];
      DoOne(e, first);
    } else {
      JournalKeepsInv(e, false, r, CountFailure(JournalOf(e.steps, r), step));
      SameFailCalls(e, e1, r, error);
      assert calls[..k] == [first] + FailCalls(e, r, error)[..k - 1];
      DoCons(e, first, FailCalls(e, r, error)[..k - 1]);
      FailedRowEnds(e1, r, error, k - 1);
    }
  }

  lemma FailedRowEnds(e: Engine, r: RunId, error: string, k: nat)
    requires Ending(e, false, r, false) && 1 <= k <= |FailCalls(e, r, error)|
    ensures !NeedsJob(DoAll(e, FailCalls(e, r, error)[..k]), r)
  {
    hide Family, Keys, Work, DoAll, EndCalls;
    EndRow(e, r, Finished(e.runs[r], Failed).(error := Some(error)), ErrorResult(error), k);
  }

  // ---- Every event -----------------------------------------------------------------------------------------------

  lemma RunsDecided(cfg: Configs, t: Tracked, op: Op)
    requires Inv(t.e, false) && Can(cfg, t, Runs(op))
    ensures Decided(Next(cfg, t.e, op), Survives(cfg, t, Runs(op)))
  {
    hide Inv, Cancel, Stuck;
    if op.DoCancel? {
      CancelDecided(t.e, op.root);
    } else {
      StepKeepsInv(cfg, t.e, false, op);
      hide Next;
    }
  }

  lemma CancelDecided(e: Engine, root: RunId)
    requires Inv(e, false)
    ensures Decided(Cancel(e, root), SafeToCancel(e, root))
  {
    CancelKeepsInv(e, false, root);
    if !SafeToCancel(e, root) {
      CancelledChildStrands(e, root);
      ParentOf(e, root);
      assert Stuck(Cancel(e, root), e.runs[root].parent.value.0);
    }
    hide Inv, Cancel, Stuck;
  }

  /** A worker's death in one attempt: the tables first. */
  lemma WreckDecided(cfg: Configs, e: Engine, r: RunId, o: Outcome, k: nat)
    requires Inv(e, false) && r in e.inflight && Suspends(e, r, o)
    requires k <= if Attempts(e, r) then |ApplyCalls(cfg, e, r, o)| else 0
    ensures Decided(Wreck(cfg, e, r, o, k), Attempts(e, r) ==> SafeCut(cfg, e, r, o, k))
  {
    RowOf(e, false, r);
    hide Inv, Stuck, ApplyCalls, SafeCut, Crashed;
    if Attempts(e, r) {
      CutKeepsInvIff(cfg, e, r, o, k);
    } else {
      CrashKeepsInv(e, false, r);
    }
  }

  /** Then the job, if it was its last delivery. */
  lemma LastDelivery(e: Engine, r: RunId, ok: bool)
    requires Decided(e, ok) && r in e.jobs && r !in e.inflight
    ensures Decided(DropJob(e, r), ok && !NeedsJob(e, r))
  {
    hide Inv, Stuck;
    if ok {
      DropJobIff(e, r);
    } else {
      var x :| Stuck(e, x);
      StillStuck(e, r, x);
      StuckBreaksInv(DropJob(e, r), x);
    }
  }

  lemma DiesDecided(cfg: Configs, t: Tracked, r: RunId, o: Outcome, k: nat)
    requires Inv(t.e, false) && Can(cfg, t, Dies(r, o, k))
    ensures Decided(After(cfg, t, Dies(r, o, k)).e, Survives(cfg, t, Dies(r, o, k)))
  {
    var e := Wreck(cfg, t.e, r, o, k);
    RowOf(t.e, false, r);
    hide Inv, Wreck, Suspends, Removed, Decided, SafeCut, ApplyCalls, NeedsJob, LastJob;
    WreckLands(cfg, t.e, r, o, k);
    WreckDecided(cfg, t.e, r, o, k);
    NeedsIff(cfg, t.e, r, o, k);
    assert e.jobs[r] >= t.e.jobs[r];
    if t.held[r] == MaxDeliveries {
      LastDelivery(e, r, Attempts(t.e, r) ==> SafeCut(cfg, t.e, r, o, k));
    }
  }

  lemma FinishesDecided(cfg: Configs, t: Tracked, r: RunId, o: Outcome, acked: bool)
    requires Inv(t.e, false) && Can(cfg, t, Finishes(r, o, acked))
    ensures Decided(After(cfg, t, Finishes(r, o, acked)).e, true)
  {
    assert DropJob(Finish(cfg, t.e, r, o, false), r) == Finish(cfg, t.e, r, o, true);
    hide Inv, Finish, Suspends, Removed;
    FinishKeepsInv(cfg, t.e, false, r, o, acked || t.held[r] == MaxDeliveries);
  }

  lemma DeliversDecided(cfg: Configs, t: Tracked, r: RunId, used: nat)
    requires Inv(t.e, false) && Follows(t) && Can(cfg, t, Delivers(r, used))
    ensures Decided(After(cfg, t, Delivers(r, used)).e, true)
  {
    assert FollowsAt(t, r);
    hide Inv, Follows, Used, Removed;
    BeginKeepsInv(t.e, false, r);
  }

  /** More jobs never hurt. */
  lemma MoreJobsKeepInv(e: Engine, more: multiset<RunId>)
    requires Inv(e, false) && forall r | r in more :: r < e.nextId
    ensures Inv(e.(jobs := e.jobs + more), false)
  {
    var e' := e.(jobs := e.jobs + more);
    assert SameShape(e, e');
    assert Work(e', false) by {
      assert forall r | r in e'.jobs :: r in e.jobs || r in more;
      assert forall r :: e'.jobs[r] >= e.jobs[r];
    }
    hide Work, Family, Keys, SameShape;
    CarryInv(e, e', false);
  }

  /** Every event from every good state: the invariant survives exactly the survivable events, and
      any other event strands a run. */
  lemma EventKeepsInvIff(cfg: Configs, t: Tracked, ev: Event)
    requires Inv(t.e, false) && Sound(t) && Can(cfg, t, ev)
    ensures Sound(After(cfg, t, ev))
    ensures Inv(After(cfg, t, ev).e, false) <==> Survives(cfg, t, ev)
    ensures !Survives(cfg, t, ev) ==> SomeStuck(After(cfg, t, ev).e)
  {
    hide Inv, Follows, Stuck, SafeCut, SafeSweepCut, LastJob, SafeToCancel, Next, Wreck, Finish, Begin, DoAll;
    hide Stranded.Calm;
    InvIsCalm(t.e);
    EventIsSound(cfg, t, ev);
    match ev
    case Runs(op) => RunsDecided(cfg, t, op);
    case Delivers(r, used) => DeliversDecided(cfg, t, r, used);
    case Finishes(r, o, acked) => FinishesDecided(cfg, t, r, o, acked);
    case Dies(r, o, k) => DiesDecided(cfg, t, r, o, k);
    case TriggerDies(workflow, key, k) => TriggerDecided(t.e, workflow, key, k);
    case SweepDies(now, ws, k) => SweepDecided(t.e, now, ws, k);
    case Requeues(runs) =>
      assert forall r | r in runs :: r in t.dead;
      MoreJobsKeepInv(t.e, runs);
    case Purges(_) =>
  }

  lemma TriggerDecided(e: Engine, workflow: string, key: Option<string>, k: nat)
    requires Inv(e, false) && k <= |TriggerCalls(e, workflow, key)|
    ensures Decided(DoAll(e, TriggerCalls(e, workflow, key)[..k]), k != 1)
  {
    TriggerCutIff(e, workflow, key, k);
    hide Inv, Stuck, DoAll, TriggerCalls;
  }

  lemma SweepDecided(e: Engine, now: int, ws: seq<RunId>, k: nat)
    requires Inv(e, false) && Distinct(ws) && Members(ws) == TimedOut(e, now) && k <= |SweepCalls(e, ws)|
    ensures Decided(DoAll(e, SweepCalls(e, ws)[..k]), SafeSweepCut(e, ws, k))
  {
    SweepCutIff(e, now, ws, k);
    hide Inv, Stuck, DoAll, SweepCalls, SafeSweepCut;
  }

  lemma InvIsCalm(e: Engine)
    requires Inv(e, false)
    ensures Stranded.Calm(e)
  {
  }

  // ---- Whole runs --------------------------------------------------------------------------------------------------

  const Start := Tracked(Empty, Bag(multiset{}, multiset{}, multiset{}, multiset{}), map[], multiset{})

  /** The state after the events; an impossible one changes nothing. */
  ghost function ExecFrom(cfg: Configs, t: Tracked, evs: seq<Event>): Tracked {
    if evs == [] then t
    else
      var t', ev := ExecFrom(cfg, t, evs[..|evs| - 1]), evs[|evs| - 1];
      if Can(cfg, t', ev) then After(cfg, t', ev) else t'
  }

  ghost function Exec(cfg: Configs, evs: seq<Event>): Tracked { ExecFrom(cfg, Start, evs) }

  ghost predicate SurvivedAt(cfg: Configs, evs: seq<Event>, i: nat)
    requires i < |evs|
  {
    Can(cfg, Exec(cfg, evs[..i]), evs[i]) ==> Survives(cfg, Exec(cfg, evs[..i]), evs[i])
  }

  lemma ExecStep(cfg: Configs, evs: seq<Event>, i: nat)
    requires i < |evs|
    ensures Exec(cfg, evs[..i + 1]) ==
      var t := Exec(cfg, evs[..i]); if Can(cfg, t, evs[i]) then After(cfg, t, evs[i]) else t
  {
    assert evs[..i + 1][..i] == evs[..i];
    hide After, Can;
  }

  lemma StartIsGood(cfg: Configs, evs: seq<Event>)
    ensures Inv(Exec(cfg, evs[..0]).e, false) && Sound(Exec(cfg, evs[..0]))
  {
  }

  /** Runs with crashes anywhere, inside handlers and on any delivery: up to the first event the
      engine does not survive, every wakeup is kept. */
  lemma {:induction false} SurvivingRunsKeepInv(cfg: Configs, evs: seq<Event>, n: nat)
    requires n <= |evs| && forall i | 0 <= i < n :: SurvivedAt(cfg, evs, i)
    ensures Inv(Exec(cfg, evs[..n]).e, false) && Sound(Exec(cfg, evs[..n]))
  {
    hide Inv, Sound, Exec, After, Can, Survives;
    if n == 0 {
      StartIsGood(cfg, evs);
    } else {
      SurvivingRunsKeepInv(cfg, evs, n - 1);
      ExecStep(cfg, evs, n - 1);
      var t := Exec(cfg, evs[..n - 1]);
      assert SurvivedAt(cfg, evs, n - 1);
      if Can(cfg, t, evs[n - 1]) {
        EventKeepsInvIff(cfg, t, evs[n - 1]);
      }
    }
  }

  /** Over every run of the engine with its job budgets: the wakeup invariant holds all along
      exactly when the run contains no unsafe cancel, no death at an unsafe cut, and no death on
      the last delivery of a job that is still needed. */
  lemma WakeupsKeptIff(cfg: Configs, evs: seq<Event>)
    ensures (forall n | 0 <= n <= |evs| :: Inv(Exec(cfg, evs[..n]).e, false)) <==>
            (forall i | 0 <= i < |evs| :: SurvivedAt(cfg, evs, i))
  {
    hide Inv, Sound, Exec, After, Can, Survives;
    if forall i | 0 <= i < |evs| :: SurvivedAt(cfg, evs, i) {
      forall n | 0 <= n <= |evs| ensures Inv(Exec(cfg, evs[..n]).e, false) {
        SurvivingRunsKeepInv(cfg, evs, n);
      }
    } else {
      var i := FirstLost(cfg, evs);
      SurvivingRunsKeepInv(cfg, evs, i);
      LostThere(cfg, evs, i);
    }
  }

  lemma FirstLost(cfg: Configs, evs: seq<Event>) returns (i: nat)
    requires exists i :: 0 <= i < |evs| && !SurvivedAt(cfg, evs, i)
    ensures i < |evs| && !SurvivedAt(cfg, evs, i) && forall j | 0 <= j < i :: SurvivedAt(cfg, evs, j)
  {
    hide SurvivedAt;
    i := 0;
    while i < |evs| && SurvivedAt(cfg, evs, i)
      invariant i <= |evs| && forall j | 0 <= j < i :: SurvivedAt(cfg, evs, j)
    {
      i := i + 1;
    }
  }

  lemma LostThere(cfg: Configs, evs: seq<Event>, i: nat)
    requires i < |evs| && !SurvivedAt(cfg, evs, i)
    requires Inv(Exec(cfg, evs[..i]).e, false) && Sound(Exec(cfg, evs[..i]))
    ensures !Inv(Exec(cfg, evs[..i + 1]).e, false) && SomeStuck(Exec(cfg, evs[..i + 1]).e)
  {
    hide Inv, Sound, Exec, After, Can, Survives, Stuck;
    ExecStep(cfg, evs, i);
    EventKeepsInvIff(cfg, Exec(cfg, evs[..i]), evs[i]);
  }

  /** A job of the run that can be delivered again. */
  predicate Deliverable(t: Tracked, r: RunId) { r in t.bag.unused || r in t.bag.once || r in t.bag.twice }

  /** No wakeup is lost while deliveries last: in every state of a surviving run, each runnable or
      sleeping run is in flight or has a job with fewer than three deliveries used. */
  lemma WakeupsAreDeliverable(cfg: Configs, evs: seq<Event>, r: RunId)
    requires forall i | 0 <= i < |evs| :: SurvivedAt(cfg, evs, i)
    ensures var t := Exec(cfg, evs);
      r in t.e.runs && Awake(t.e.runs[r].status) ==> r in t.e.inflight || Deliverable(t, r)
  {
    assert evs[..|evs|] == evs;
    hide Exec, SurvivedAt;
    SurvivingRunsKeepInv(cfg, evs, |evs|);
    var t := Exec(cfg, evs);
    assert FollowsAt(t, r);
    RowOf(t.e, false, r);
  }

  // ---- What is lost stays lost ------------------------------------------------------------------------------

  /** A requeue brings a dead job of the stuck run back; only an awake run has a use for it. */
  predicate Revives(t: Tracked, ev: Event, x: RunId) {
    ev.Requeues? && x in ev.runs && x in t.e.runs && Awake(t.e.runs[x].status)
  }

  predicate Uncancelled(e: Engine, x: RunId) { x in e.runs ==> e.runs[x].status != Cancelled }

  /** How one event leaves a stuck run: stuck, unless it is cancelled or its job is requeued. */
  ghost predicate StuckAfter(t: Tracked, t': Tracked, ev: Event, x: RunId) {
    && Stranded.Calm(t'.e) && x in t'.e.runs
    && (Stuck(t'.e, x) <==> Uncancelled(t'.e, x) && !Revives(t, ev, x))
  }

  lemma DropIsCalm(e: Engine, r: RunId)
    requires Stranded.Calm(e) && r !in e.inflight
    ensures Stranded.Calm(DropJob(e, r))
  {
  }

  lemma SparedAfter(t: Tracked, t': Tracked, ev: Event, x: RunId)
    requires Stuck(t.e, x) && !ev.Requeues? && Stranded.Calm(t'.e) && (t'.e == t.e || Stranded.Spares(t.e, t'.e, x))
    ensures StuckAfter(t, t', ev, x)
  {
    Stranded.SparedUnlessSame(t.e, t'.e, x);
  }

  lemma RunsLeaveStuck(cfg: Configs, t: Tracked, op: Op, x: RunId)
    requires Stranded.Calm(t.e) && Stuck(t.e, x) && Can(cfg, t, Runs(op))
    ensures StuckAfter(t, After(cfg, t, Runs(op)), Runs(op), x)
  {
    hide Stranded.Calm, Next;
    Stranded.StepLeavesStuck(cfg, t.e, op, x);
  }

  lemma DeliveryLeavesStuck(cfg: Configs, t: Tracked, r: RunId, used: nat, x: RunId)
    requires Stranded.Calm(t.e) && Follows(t) && Stuck(t.e, x) && Can(cfg, t, Delivers(r, used))
    ensures StuckAfter(t, After(cfg, t, Delivers(r, used)), Delivers(r, used), x)
  {
    assert FollowsAt(t, r);
    hide Stranded.Calm, Follows, Stuck, Stranded.Spares, StuckAfter, Used, Removed, Begin;
    Stranded.BeginSpares(t.e, r, x);
    SparedAfter(t, After(cfg, t, Delivers(r, used)), Delivers(r, used), x);
  }

  lemma FinishLeavesStuck(cfg: Configs, t: Tracked, r: RunId, o: Outcome, acked: bool, x: RunId)
    requires Stranded.Calm(t.e) && Stuck(t.e, x) && Can(cfg, t, Finishes(r, o, acked))
    ensures StuckAfter(t, After(cfg, t, Finishes(r, o, acked)), Finishes(r, o, acked), x)
  {
    assert DropJob(Finish(cfg, t.e, r, o, false), r) == Finish(cfg, t.e, r, o, true);
    hide Stranded.Calm, Stuck, Stranded.Spares, StuckAfter, Removed, Finish, Suspends;
    Stranded.FinishSpares(cfg, t.e, r, o, acked || t.held[r] == MaxDeliveries, x);
    SparedAfter(t, After(cfg, t, Finishes(r, o, acked)), Finishes(r, o, acked), x);
  }

  lemma WreckSpares(cfg: Configs, e: Engine, r: RunId, o: Outcome, k: nat, gone: bool, x: RunId)
    requires Stranded.Calm(e) && Stuck(e, x) && r in e.inflight
    requires k <= if Attempts(e, r) then |ApplyCalls(cfg, e, r, o)| else 0
    ensures var w := Wreck(cfg, e, r, o, k); var e' := if gone then DropJob(w, r) else w;
      Stranded.Calm(e') && Stranded.Spares(e, e', x)
  {
    var w := Wreck(cfg, e, r, o, k);
    if Attempts(e, r) {
      Stranded.CutSpares(cfg, e, r, o, k, gone, x);
    } else {
      Stranded.CrashSpares(e, r, x);
      DropIsCalm(w, r);
    }
    hide ApplyCalls, DoAll, Stranded.Calm;
  }

  lemma DeathLeavesStuck(cfg: Configs, t: Tracked, r: RunId, o: Outcome, k: nat, x: RunId)
    requires Stranded.Calm(t.e) && Stuck(t.e, x) && Can(cfg, t, Dies(r, o, k))
    ensures StuckAfter(t, After(cfg, t, Dies(r, o, k)), Dies(r, o, k), x)
  {
    hide Stranded.Calm, Stuck, Stranded.Spares, StuckAfter, Removed, Wreck, Suspends, ApplyCalls;
    WreckSpares(cfg, t.e, r, o, k, t.held[r] == MaxDeliveries, x);
    SparedAfter(t, After(cfg, t, Dies(r, o, k)), Dies(r, o, k), x);
  }

  lemma TriggerLeavesStuck(cfg: Configs, t: Tracked, workflow: string, key: Option<string>, k: nat, x: RunId)
    requires Stranded.Calm(t.e) && Stuck(t.e, x) && Can(cfg, t, TriggerDies(workflow, key, k))
    ensures StuckAfter(t, After(cfg, t, TriggerDies(workflow, key, k)), TriggerDies(workflow, key, k), x)
  {
    hide Stranded.Calm, Stuck, Stranded.Spares, StuckAfter, DoAll, Do, Spawn, KeyTaken;
    var calls, idem := TriggerCalls(t.e, workflow, key), if key.Some? then Some(UserKey(key.value)) else None;
    if k == 0 {
      assert calls[..0] == [];
      DoNothing(t.e);
    } else if k == 1 {
      assert calls[..1] == [calls[0]];
      DoOne(t.e, calls[0]);
      Stranded.CreateSpares(t.e, calls[0].row, x);
    } else {
      assert calls[..2] == calls;
      TriggerIsCalls(t.e, workflow, key);
      Stranded.SpawnSpares(t.e, workflow, idem, x);
    }
    SparedAfter(t, After(cfg, t, TriggerDies(workflow, key, k)), TriggerDies(workflow, key, k), x);
  }

  lemma SweptWakesOnly(e: Engine, e': Engine, ws: seq<RunId>, j: nat)
    requires PartlySwept(e, e', ws, j)
    ensures Stranded.WakesOnly(e, e', Members(ws))
  {
    assert forall x :: x in ws <==> x in Members(ws);
  }

  lemma TimedOutWait(e: Engine, now: int)
    ensures forall w | w in TimedOut(e, now) :: w in e.runs && e.runs[w].status == WaitEvent
  {
  }

  lemma SweepCutWakes(e: Engine, now: int, ws: seq<RunId>, k: nat)
    requires Distinct(ws) && Members(ws) == TimedOut(e, now) && 1 <= k <= |SweepCalls(e, ws)|
    ensures Stranded.WakesOnly(e, DoAll(e, SweepCalls(e, ws)[..k]), Members(ws))
    ensures forall w | w in Members(ws) :: w in e.runs && e.runs[w].status == WaitEvent
  {
    assert |SweepCalls(e, ws)| == 1 + 2 * |ws|;
    TimedOutWait(e, now);
    hide *;
    SweptAfter(e, ws, k - 1);
    SweptWakesOnly(e, DoAll(e, SweepCalls(e, ws)[..k]), ws, k - 1);
  }

  lemma SweepLeavesStuck(cfg: Configs, t: Tracked, now: int, ws: seq<RunId>, k: nat, x: RunId)
    requires Stranded.Calm(t.e) && Stuck(t.e, x) && Can(cfg, t, SweepDies(now, ws, k))
    ensures StuckAfter(t, After(cfg, t, SweepDies(now, ws, k)), SweepDies(now, ws, k), x)
  {
    hide Stranded.Calm, Stuck, Stranded.Spares, StuckAfter, DoAll, SweepCalls, Distinct, Members, TimedOut;
    hide Stranded.WakesOnly;
    if k == 0 {
      assert SweepCalls(t.e, ws)[..0] == [];
      DoNothing(t.e);
    } else {
      SweepCutWakes(t.e, now, ws, k);
      Stranded.WokenSpares(t.e, DoAll(t.e, SweepCalls(t.e, ws)[..k]), Members(ws), x);
    }
    SparedAfter(t, After(cfg, t, SweepDies(now, ws, k)), SweepDies(now, ws, k), x);
  }

  /** A requeue helps exactly the awake stuck runs it brings a job back for; a parked one stays
      stuck. */
  lemma RequeueLeavesStuck(cfg: Configs, t: Tracked, runs: multiset<RunId>, x: RunId)
    requires Stranded.Calm(t.e) && Buried(t) && Stuck(t.e, x) && Can(cfg, t, Requeues(runs))
    ensures StuckAfter(t, After(cfg, t, Requeues(runs)), Requeues(runs), x)
  {
    var e' := After(cfg, t, Requeues(runs)).e;
    assert forall r | r in runs :: r in t.dead;
    assert forall r | r in e'.jobs :: r in t.e.jobs || r in runs;
    assert forall r :: e'.jobs[r] == t.e.jobs[r] + runs[r];
    assert HasLiveChild(e', x) <==> HasLiveChild(t.e, x);
  }

  /** Exactly a cancel, or a requeue of a dead job of an awake run, ends being stuck; nothing else
      that can happen does, deaths inside handlers and on last deliveries included. */
  lemma EventLeavesStuck(cfg: Configs, t: Tracked, ev: Event, x: RunId)
    requires Stranded.Calm(t.e) && Sound(t) && Stuck(t.e, x) && Can(cfg, t, ev)
    ensures var t' := After(cfg, t, ev);
      && Stranded.Calm(t'.e) && Sound(t') && x in t'.e.runs
      && (Stuck(t'.e, x) <==> Uncancelled(t'.e, x) && !Revives(t, ev, x))
  {
    hide Stranded.Calm, Follows, Stuck, After, Can;
    EventIsSound(cfg, t, ev);
    match ev
    case Runs(op) => RunsLeaveStuck(cfg, t, op, x);
    case Delivers(r, used) => DeliveryLeavesStuck(cfg, t, r, used, x);
    case Finishes(r, o, acked) => FinishLeavesStuck(cfg, t, r, o, acked, x);
    case Dies(r, o, k) => DeathLeavesStuck(cfg, t, r, o, k, x);
    case TriggerDies(workflow, key, k) => TriggerLeavesStuck(cfg, t, workflow, key, k, x);
    case SweepDies(now, ws, k) => SweepLeavesStuck(cfg, t, now, ws, k, x);
    case Requeues(runs) => RequeueLeavesStuck(cfg, t, runs, x);
    case Purges(runs) => PurgeLeavesStuck(cfg, t, runs, x);
  }

  lemma PurgeLeavesStuck(cfg: Configs, t: Tracked, runs: multiset<RunId>, x: RunId)
    requires Stranded.Calm(t.e) && Stuck(t.e, x) && Can(cfg, t, Purges(runs))
    ensures StuckAfter(t, After(cfg, t, Purges(runs)), Purges(runs), x)
  {
    hide Stranded.Calm, Stuck, StuckAfter;
    SparedAfter(t, After(cfg, t, Purges(runs)), Purges(runs), x);
  }

  /** No cancel reaches the run, and while it is awake none of its dead jobs is requeued. */
  ghost predicate Unreleased(cfg: Configs, t: Tracked, evs: seq<Event>, x: RunId) {
    && (forall i | 0 <= i <= |evs| :: Uncancelled(ExecFrom(cfg, t, evs[..i]).e, x))
    && (forall i | 0 <= i < |evs| :: !Revives(ExecFrom(cfg, t, evs[..i]), evs[i], x))
  }

  /** A stuck run stays stuck over every continuation that neither cancels it nor, if it is awake,
      requeues a dead job of it. */
  lemma {:induction false} StuckUntilReleased(cfg: Configs, t: Tracked, evs: seq<Event>, x: RunId)
    requires Stranded.Calm(t.e) && Sound(t) && Stuck(t.e, x) && Unreleased(cfg, t, evs, x)
    ensures var t' := ExecFrom(cfg, t, evs); Stranded.Calm(t'.e) && Sound(t') && Stuck(t'.e, x)
    decreases |evs|
  {
    hide Stranded.Calm, Sound, Stuck, After, Can, Unreleased, ExecFrom;
    if evs == [] {
      ExecNothing(cfg, t);
    } else {
      var n := |evs| - 1;
      UnreleasedPrefix(cfg, t, evs, x);
      ExecFromStep(cfg, t, evs);
      StuckUntilReleased(cfg, t, evs[..n], x);
      if Can(cfg, ExecFrom(cfg, t, evs[..n]), evs[n]) {
        EventLeavesStuck(cfg, ExecFrom(cfg, t, evs[..n]), evs[n], x);
      }
    }
  }

  lemma ExecNothing(cfg: Configs, t: Tracked)
    ensures ExecFrom(cfg, t, []) == t
  {
  }

  lemma ExecFromStep(cfg: Configs, t: Tracked, evs: seq<Event>)
    requires evs != []
    ensures var n := |evs| - 1; var s := ExecFrom(cfg, t, evs[..n]);
      ExecFrom(cfg, t, evs) == if Can(cfg, s, evs[n]) then After(cfg, s, evs[n]) else s
  {
    hide After, Can;
  }

  lemma UnreleasedPrefix(cfg: Configs, t: Tracked, evs: seq<Event>, x: RunId)
    requires evs != [] && Unreleased(cfg, t, evs, x)
    ensures Unreleased(cfg, t, evs[..|evs| - 1], x)
    ensures Uncancelled(ExecFrom(cfg, t, evs).e, x)
    ensures !Revives(ExecFrom(cfg, t, evs[..|evs| - 1]), evs[|evs| - 1], x)
  {
    hide ExecFrom, Uncancelled, Revives;
    var n := |evs| - 1;
    var before := evs[..n];
    assert evs[..n + 1] == evs;
    forall i | 0 <= i <= n ensures before[..i] == evs[..i] {
    }
  }

  lemma WreckIsCalm(cfg: Configs, e: Engine, r: RunId, o: Outcome, k: nat, gone: bool)
    requires Stranded.Calm(e) && r in e.inflight
    requires k <= if Attempts(e, r) then |ApplyCalls(cfg, e, r, o)| else 0
    ensures var w := Wreck(cfg, e, r, o, k); Stranded.Calm(if gone then DropJob(w, r) else w)
  {
    if Attempts(e, r) {
      hide Stranded.Calm, ApplyCalls, DoAll;
      Stranded.CutIsCalm(cfg, e, r, o, k, gone);
    }
  }

  lemma TriggerCutIsCalm(e: Engine, workflow: string, key: Option<string>, k: nat)
    requires Inv(e, false) && k <= |TriggerCalls(e, workflow, key)|
    ensures Stranded.Calm(DoAll(e, TriggerCalls(e, workflow, key)[..k]))
  {
    hide Inv, Stranded.Calm, DoAll, Do, KeyTaken, Stuck;
    var calls := TriggerCalls(e, workflow, key);
    InvIsCalm(e);
    TriggerCutIff(e, workflow, key, k);
    if k == 1 {
      assert calls[..1] == [calls[0]];
      DoOne(e, calls[0]);
      Stranded.CreateIsCalm(e, calls[0].row);
    } else {
      InvIsCalm(DoAll(e, calls[..k]));
    }
  }

  lemma SweepCutIsCalm(e: Engine, now: int, ws: seq<RunId>, k: nat)
    requires Stranded.Calm(e) && Distinct(ws) && Members(ws) == TimedOut(e, now) && k <= |SweepCalls(e, ws)|
    ensures Stranded.Calm(DoAll(e, SweepCalls(e, ws)[..k]))
  {
    hide Stranded.Calm, DoAll, SweepCalls, Stranded.WakesOnly;
    if k == 0 {
      assert SweepCalls(e, ws)[..0] == [];
      DoNothing(e);
    } else {
      SweepCutWakes(e, now, ws, k);
      Stranded.WokenCalm(e, DoAll(e, SweepCalls(e, ws)[..k]), Members(ws));
    }
  }

  /** The state an event the engine does not survive leaves is calm all the same. */
  lemma EventIsCalm(cfg: Configs, t: Tracked, ev: Event)
    requires Inv(t.e, false) && Sound(t) && Can(cfg, t, ev) && !Survives(cfg, t, ev)
    ensures Stranded.Calm(After(cfg, t, ev).e)
  {
    hide Stranded.Calm, Inv, Sound, SafeCut, SafeSweepCut, LastJob, TriggerCalls, SweepCalls, DoAll, ApplyCalls, Wreck;
    hide Cancel, CancelTree.CancelSet, Suspends, Legal, Removed, SafeToCancel, TimedOut, Distinct, Members;
    InvIsCalm(t.e);
    match ev
    case Runs(op) => Stranded.CancelCalm(t.e, op.root);
    case Dies(r, o, k) => WreckIsCalm(cfg, t.e, r, o, k, t.held[r] == MaxDeliveries);
    case TriggerDies(workflow, key, k) => TriggerCutIsCalm(t.e, workflow, key, k);
    case SweepDies(now, ws, k) => SweepCutIsCalm(t.e, now, ws, k);
  }

  /** The first event a run does not survive strands some run, and over every continuation of
      events it stays stuck until a cancel reaches it or, if it is awake, a dead job of it is
      requeued. */
  lemma LostUntilReleased(cfg: Configs, evs: seq<Event>, i: nat) returns (x: RunId)
    requires i < |evs| && !SurvivedAt(cfg, evs, i) && forall j | 0 <= j < i :: SurvivedAt(cfg, evs, j)
    ensures Stuck(Exec(cfg, evs[..i + 1]).e, x)
    ensures var t := Exec(cfg, evs[..i + 1]);
      forall more | Unreleased(cfg, t, more, x) :: Stuck(ExecFrom(cfg, t, more).e, x)
  {
    hide Exec, ExecFrom, After, Can, Survives, Stuck, Inv, Sound, Stranded.Calm, Unreleased;
    SurvivingRunsKeepInv(cfg, evs, i);
    LostThere(cfg, evs, i);
    ExecStep(cfg, evs, i);
    EventKeepsInvIff(cfg, Exec(cfg, evs[..i]), evs[i]);
    EventIsCalm(cfg, Exec(cfg, evs[..i]), evs[i]);
    var t := Exec(cfg, evs[..i + 1]);
    x :| Stuck(t.e, x);
    forall more | Unreleased(cfg, t, more, x) ensures Stuck(ExecFrom(cfg, t, more).e, x) {
      StuckUntilReleased(cfg, t, more, x);
    }
  }

  /** A worker that dies at an unsafe cut strands the named victim. */
  lemma UnsafeCutIsForGood(cfg: Configs, t: Tracked, r: RunId, o: Outcome, k: nat, more: seq<Event>)
    requires Inv(t.e, false) && Sound(t) && Can(cfg, t, Dies(r, o, k))
    requires Attempts(t.e, r) && !SafeCut(cfg, t.e, r, o, k)
    requires Unreleased(cfg, After(cfg, t, Dies(r, o, k)), more, Victim(t.e, r, o, cfg))
    ensures Stuck(ExecFrom(cfg, After(cfg, t, Dies(r, o, k)), more).e, Victim(t.e, r, o, cfg))
  {
    RowOf(t.e, false, r);
    hide Inv, Sound, SafeCut, Stuck, Suspends, Stranded.Calm, Unreleased, ExecFrom, Removed, Crashed, ApplyCalls;
    hide LastJob;
    CutKeepsInvIff(cfg, t.e, r, o, k);
    StillStuck(Wreck(cfg, t.e, r, o, k), r, Victim(t.e, r, o, cfg));
    EventKeepsInvIff(cfg, t, Dies(r, o, k));
    EventIsCalm(cfg, t, Dies(r, o, k));
    StuckUntilReleased(cfg, After(cfg, t, Dies(r, o, k)), more, Victim(t.e, r, o, cfg));
  }

  /** A cancel of a live child on its own strands its parent. */
  lemma UnsafeCancelIsForGood(cfg: Configs, t: Tracked, root: RunId, more: seq<Event>)
    requires Inv(t.e, false) && Sound(t) && !SafeToCancel(t.e, root)
    requires Unreleased(cfg, After(cfg, t, Runs(DoCancel(root))), more, t.e.runs[root].parent.value.0)
    ensures Stuck(ExecFrom(cfg, After(cfg, t, Runs(DoCancel(root))), more).e, t.e.runs[root].parent.value.0)
  {
    var ev, p := Runs(DoCancel(root)), t.e.runs[root].parent.value.0;
    CancelledChildStrands(t.e, root);
    ParentOf(t.e, root);
    assert Stuck(Cancel(t.e, root), p);
    hide Inv, Sound, Stuck, Stranded.Calm, Unreleased, ExecFrom, Cancel;
    EventKeepsInvIff(cfg, t, ev);
    EventIsCalm(cfg, t, ev);
    StuckUntilReleased(cfg, After(cfg, t, ev), more, p);
  }

  // ---- Three deliveries -------------------------------------------------------------------------------------

  /** A triggered run whose worker died `n` times before writing anything. */
  function Died(workflow: string, n: nat): Tracked
    requires n <= MaxDeliveries
  {
    var jobs := if n < MaxDeliveries then multiset{0} else multiset{};
    var e := Engine(map[0 := NewRun(workflow, None, None)], map[], jobs, 1, {});
    var none := Bag(multiset{}, multiset{}, multiset{}, multiset{});
    if n < MaxDeliveries then Tracked(e, With(none, n, multiset{0}), map[], multiset{})
    else Tracked(e, none, map[], multiset{0})
  }

  /** The same run with its job delivered once more. */
  function Flying(workflow: string, n: nat): Tracked
    requires 1 <= n <= MaxDeliveries
  {
    var e := Engine(map[0 := NewRun(workflow, None, None)], map[], multiset{0}, 1, {0});
    Tracked(e, With(Bag(multiset{}, multiset{}, multiset{}, multiset{}), n, multiset{0}), map[0 := n], multiset{})
  }

  lemma TakesOff(cfg: Configs, workflow: string, n: nat)
    requires n < MaxDeliveries
    ensures Can(cfg, Died(workflow, n), Delivers(0, n))
    ensures After(cfg, Died(workflow, n), Delivers(0, n)) == Flying(workflow, n + 1)
  {
    var t := Died(workflow, n);
    assert multiset{0} - multiset{0} == multiset{} && multiset{} + multiset{0} == multiset{0};
    assert Begin(t.e, 0) == Flying(workflow, n + 1).e;
    assert Used(t.bag, 0, n) == Flying(workflow, n + 1).bag;
  }

  lemma Falls(cfg: Configs, workflow: string, n: nat, output: Tokens)
    requires 1 <= n <= MaxDeliveries
    ensures var t, ev := Flying(workflow, n), Dies(0, Completes(output), 0);
      && Can(cfg, t, ev) && After(cfg, t, ev) == Died(workflow, n)
      && (Survives(cfg, t, ev) <==> n < MaxDeliveries)
  {
    var t, o := Flying(workflow, n), Completes(output);
    CrashedAtStart(t.e, 0, ApplyCalls(cfg, t.e, 0, o));
    hide ApplyCalls, Crashed;
    var e := Wreck(cfg, t.e, 0, o, 0);
    assert e == t.e.(inflight := {});
    assert e.jobs - t.e.jobs == multiset{} && multiset{0} - multiset{0} == multiset{};
    assert Added(t.bag, multiset{}) == t.bag;
    assert t.held - {0} == map[];
    hide Wreck;
  }

  /** A trigger, then `n` deliveries whose worker dies before writing anything. */
  function DeathRun(workflow: string, n: nat): seq<Event> {
    if n == 0 then [Runs(DoTrigger(workflow, None))]
    else DeathRun(workflow, n - 1) + [Delivers(0, n - 1), Dies(0, Completes([]), 0)]
  }

  lemma {:induction false} DeathRunEnds(cfg: Configs, workflow: string, n: nat)
    requires n <= MaxDeliveries
    ensures Exec(cfg, DeathRun(workflow, n)) == Died(workflow, n)
  {
    hide Exec, After, Can, Died, Flying, Survives;
    if n == 0 {
      TriggeredOnce(cfg, workflow);
    } else {
      DeathRunEnds(cfg, workflow, n - 1);
      TakesOff(cfg, workflow, n - 1);
      Falls(cfg, workflow, n, []);
      TwoMore(cfg, DeathRun(workflow, n - 1), Delivers(0, n - 1), Dies(0, Completes([]), 0));
    }
  }

  /** A worker that dies on all three deliveries of a run's job strands the run: it is still
      runnable and its job is dead. Two deaths do not. */
  lemma ThreeDeathsLoseTheRun(cfg: Configs, workflow: string)
    ensures var t := Exec(cfg, DeathRun(workflow, 3)); Stuck(t.e, 0) && t.dead == multiset{0}
    ensures Deliverable(Exec(cfg, DeathRun(workflow, 2)), 0)
  {
    hide Exec, DeathRun;
    DeathRunEnds(cfg, workflow, 3);
    DeathRunEnds(cfg, workflow, 2);
  }

  /** A requeue of its dead job brings the stranded run back, as it was when it was triggered. */
  lemma RequeueRestoresTheRun(cfg: Configs, workflow: string)
    ensures var t := Exec(cfg, DeathRun(workflow, 3) + [Requeues(multiset{0})]);
      t == Died(workflow, 0) && Deliverable(t, 0) && !Stuck(t.e, 0)
  {
    var evs, ev := DeathRun(workflow, 3), Requeues(multiset{0});
    DeathRunEnds(cfg, workflow, 3);
    RequeuedDead(cfg, workflow);
    hide Exec, After, Can, DeathRun;
    var all := evs + [ev];
    assert all[..|evs|] == evs && all[..|evs| + 1] == all;
    ExecStep(cfg, all, |evs|);
  }

  lemma RequeuedDead(cfg: Configs, workflow: string)
    ensures var t, ev := Died(workflow, 3), Requeues(multiset{0});
      Can(cfg, t, ev) && After(cfg, t, ev) == Died(workflow, 0)
  {
    assert multiset{} + multiset{0} == multiset{0} && multiset{0} - multiset{0} == multiset{};
    assert multiset{0} - multiset{} == multiset{0};
  }

  lemma TwoMore(cfg: Configs, evs: seq<Event>, a: Event, b: Event)
    requires var t := Exec(cfg, evs); Can(cfg, t, a) && Can(cfg, After(cfg, t, a), b)
    ensures Exec(cfg, evs + [a, b]) == After(cfg, After(cfg, Exec(cfg, evs), a), b)
  {
    var all, n := evs + [a, b], |evs|;
    assert all[..n] == evs && all[..n + 2] == all;
    hide Exec, After, Can;
    ExecStep(cfg, all, n);
    ExecStep(cfg, all, n + 1);
  }

  lemma TriggeredOnce(cfg: Configs, workflow: string)
    ensures Exec(cfg, [Runs(DoTrigger(workflow, None))]) == Died(workflow, 0)
  {
    var ev := Runs(DoTrigger(workflow, None));
    assert [ev][..0] == [];
    assert Exec(cfg, []) == Start && Can(cfg, Start, ev);
    assert After(cfg, Start, ev).e == Died(workflow, 0).e;
  }

  /** Cancelling a parked run's child on its own strands the parent, in a state a run reaches. */
  lemma CancelledChildLosesTheParent(cfg: Configs, workflow: string, step: StepId) returns (ops: seq<Op>)
    requires workflow in cfg
    ensures ValidRun(cfg, ops) && WorkflowEngine.Exec(cfg, ops) == Parked(workflow, step)
    ensures !SafeToCancel(Parked(workflow, step), 1) && Stuck(Cancel(Parked(workflow, step), 1), 0)
  {
    var all := ParkAndResume(cfg, workflow, step, []);
    ops := all[..3];
    ValidPrefix(cfg, all, 3);
    RunKeepsInv(cfg, ops, 3, false);
    assert ops[..3] == ops;
    hide ValidRun, WorkflowEngine.Exec;
    CancelledChildStrands(Parked(workflow, step), 1);
  }
}
