/** The durable workflow engine: run rows, step journals and the bag of execution jobs, with
    one function per handler. */
module WorkflowEngine {
  import opened Orders
  import opened Runs
  import opened CancelTree
  import opened JsonText

  /** A journal row; `done` rows carry the memoized result. */
  datatype Step = Step(kind: string, done: bool, result: Option<Tokens>, attempts: nat)

  type Journal = map<StepId, Step>

  /** `jobs` holds the run of every execution job that has not been acknowledged; `inflight`
      the runs an executor is working on. `nextId` supplies fresh ids. */
  datatype Engine = Engine(
    runs: RunTable, steps: map<RunId, Journal>, jobs: multiset<RunId>, nextId: RunId, inflight: set<RunId>)

  /** Registered workflows with their per-step attempt limit. */
  type Configs = map<string, nat>

  const DefaultStepAttempts: nat := 3

  /** What an executor hands back. */
  datatype Outcome =
    | Completes(output: Tokens)
    | Fails(error: string)
    | Sleeps(step: StepId, wakeAt: int)
    | Waits(step: StepId, event: string, timeoutAt: Option<int>, match_: Match)
    | Invokes(step: StepId, workflow: string)
    | FailsStep(step: StepId, error: string)

  // ---- Journal -----------------------------------------------------------------------------------

  function JournalOf(steps: map<RunId, Journal>, r: RunId): Journal {
    if r in steps then steps[r] else map[]
  }

  predicate Done(steps: map<RunId, Journal>, r: RunId, s: StepId) {
    s in JournalOf(steps, r) && JournalOf(steps, r)[s].done
  }

  /** Records a completed step; a completed entry is never overwritten. */
  function Record(j: Journal, s: StepId, kind: string, result: Option<Tokens>): Journal {
    if s in j && j[s].done then j
    else j[s := Step(kind, true, result, if s in j then j[s].attempts else 0)]
  }

  function RecordIn(steps: map<RunId, Journal>, r: RunId, s: StepId, kind: string, result: Option<Tokens>)
    : map<RunId, Journal>
  {
    steps[r := Record(JournalOf(steps, r), s, kind, result)]
  }

  function CountFailure(j: Journal, s: StepId): Journal {
    if s in j then j[s := j[s].(attempts := j[s].attempts + 1)] else j[s := Step("run", false, None, 1)]
  }

  // The text recorded for a child's output, a child's error, an event and a timeout.
  function OutputResult(output: Tokens): Tokens { Wrap("output", output) }
  function ErrorResult(error: string): Tokens { Wrap("error", [Quoted(error)]) }
  function EventResult(payload: Tokens): Tokens { Wrap("event", payload) }
  const NullText: Tokens := [NullWord]
  const TimedOutResult: Tokens := Wrap("timedOut", [BoolWord(true)])

  // ---- Handlers ---------------------------------------------------------------------------------------

  function Enqueue(e: Engine, r: RunId): Engine { e.(jobs := e.jobs + multiset{r}) }

  function SetRun(e: Engine, r: RunId, row: Run): Engine { e.(runs := e.runs[r := row]) }

  function NewRun(workflow: string, parent: Option<(RunId, StepId)>, idem: Option<IdemKey>): Run {
    Run(workflow, Runnable, parent, idem, None, None, None, None, NoMatch, None)
  }

  /** A new run with its execution job. */
  function Spawn(e: Engine, workflow: string, parent: Option<(RunId, StepId)>, idem: Option<IdemKey>): Engine {
    e.(runs := e.runs[e.nextId := NewRun(workflow, parent, idem)],
       jobs := e.jobs + multiset{e.nextId},
       nextId := e.nextId + 1)
  }

  ghost predicate KeyTaken(runs: RunTable, workflow: string, key: IdemKey) {
    exists id :: id in runs && runs[id].workflow == workflow && runs[id].idem == Some(key)
  }

  ghost function RunOfKey(runs: RunTable, workflow: string, key: IdemKey): (id: RunId)
    requires KeyTaken(runs, workflow, key)
    ensures id in runs && runs[id].workflow == workflow && runs[id].idem == Some(key)
  {
    var id :| id in runs && runs[id].workflow == workflow && runs[id].idem == Some(key);
    id
  }

  /** Records the child's result in its parent's journal and wakes a parked parent. */
  function SettleParent(e: Engine, child: RunId, result: Tokens): Engine
    requires child in e.runs
  {
    if e.runs[child].parent.None? then e
    else
      var (p, s) := e.runs[child].parent.value;
      var e1 := e.(steps := RecordIn(e.steps, p, s, "invoke", Some(result)));
      if p in e.runs && e.runs[p].status == WaitChild then
        Enqueue(SetRun(e1, p, e1.runs[p].(status := Runnable)), p)
      else e1
  }

  function Finished(r: Run, status: Status): Run {
    r.(status := status, waitEvent := None, waitStep := None, wakeAt := None)
  }

  function CompleteRun(e: Engine, r: RunId, output: Tokens): Engine
    requires r in e.runs
  {
    SettleParent(SetRun(e, r, Finished(e.runs[r], Completed).(output := Some(output))), r, OutputResult(output))
  }

  function FailRun(e: Engine, r: RunId, error: string): Engine
    requires r in e.runs
  {
    SettleParent(SetRun(e, r, Finished(e.runs[r], Failed).(error := Some(error))), r, ErrorResult(error))
  }

  /** A replayed suspension finds the child it created before. */
  function ReuseChild(e: Engine, r: RunId, step: StepId, child: RunId): Engine
    requires r in e.runs && child in e.runs
  {
    var c := e.runs[child];
    if !Terminal(c.status) then SetRun(e, r, e.runs[r].(status := WaitChild))
    else
      var result := if c.status == Completed then OutputResult(if c.output.Some? then c.output.value else NullText)
                    else ErrorResult(if c.error.Some? then c.error.value else "child run failed");
      Enqueue(e.(steps := RecordIn(e.steps, r, step, "invoke", Some(result))), r)
  }

  ghost function InvokeChild(cfg: Configs, e: Engine, r: RunId, step: StepId, workflow: string): Engine
    requires r in e.runs
  {
    var key := InvokeKey(r, step);
    if workflow !in cfg then FailRun(e, r, "step '" + step + "': unknown workflow '" + workflow + "'")
    else if KeyTaken(e.runs, workflow, key) then ReuseChild(e, r, step, RunOfKey(e.runs, workflow, key))
    else Spawn(SetRun(e, r, e.runs[r].(status := WaitChild)), workflow, Some((r, step)), Some(key))
  }

  function StepLimit(cfg: Configs, workflow: string): nat {
    if workflow in cfg then cfg[workflow] else DefaultStepAttempts
  }

  function RetryStep(cfg: Configs, e: Engine, r: RunId, step: StepId, error: string): Engine
    requires r in e.runs
  {
    var j := CountFailure(JournalOf(e.steps, r), step);
    var e1 := e.(steps := e.steps[r := j]);
    if j[step].attempts < StepLimit(cfg, e.runs[r].workflow) then Enqueue(e1, r) else FailRun(e1, r, error)
  }

  /** What the engine does with an executor's outcome. */
  ghost function Apply(cfg: Configs, e: Engine, r: RunId, o: Outcome): Engine
    requires r in e.runs
  {
    match o
    case Completes(output) => CompleteRun(e, r, output)
    case Fails(error) => FailRun(e, r, error)
    case Sleeps(step, wakeAt) =>
      Enqueue(SetRun(e.(steps := RecordIn(e.steps, r, step, "sleep", None)), r,
                     e.runs[r].(status := Sleeping, wakeAt := Some(wakeAt))), r)
    case Waits(step, event, timeoutAt, m) =>
      SetRun(e, r, e.runs[r].(status := WaitEvent, waitEvent := Some(event), waitStep := Some(step),
                              wakeAt := timeoutAt, waitMatch := m))
    case Invokes(step, workflow) => InvokeChild(cfg, e, r, step, workflow)
    case FailsStep(step, error) => RetryStep(cfg, e, r, step, error)
  }

  /** The worker lets go of the run and acknowledges its job, unless the ack is lost. */
  function CloseAttempt(e: Engine, r: RunId, acked: bool): Engine {
    e.(inflight := e.inflight - {r}, jobs := if acked then e.jobs - multiset{r} else e.jobs)
  }

  /** The attempt ends: a run cancelled (or collected) meanwhile discards the outcome. */
  ghost function Finish(cfg: Configs, e: Engine, r: RunId, o: Outcome, acked: bool): Engine {
    CloseAttempt(if r in e.runs && e.runs[r].status != Cancelled then Apply(cfg, e, r, o) else e, r, acked)
  }

  predicate Awake(s: Status) { s == Runnable || s == Sleeping }

  /** A worker picks up a job: stale jobs are acknowledged, others begin an attempt. */
  function Begin(e: Engine, r: RunId): Engine {
    if r in e.runs && Awake(e.runs[r].status) then e.(inflight := e.inflight + {r})
    else e.(jobs := e.jobs - multiset{r})
  }

  // ---- Events -------------------------------------------------------------------------------------------

  function Waiters(e: Engine, event: string, fields: map<string, string>): set<RunId> {
    set r | r in e.runs && e.runs[r].status == WaitEvent && e.runs[r].waitEvent == Some(event)
            && MatchSubset(e.runs[r].waitMatch, fields)
  }

  function TimedOut(e: Engine, now: int): set<RunId> {
    set r | r in e.runs && e.runs[r].status == WaitEvent && e.runs[r].wakeAt.Some? && e.runs[r].wakeAt.value <= now
  }

  function WaitStepOf(run: Run): StepId { if run.waitStep.Some? then run.waitStep.value else "" }

  function WokenRun(run: Run, clearStep: bool): Run {
    run.(status := Runnable, waitEvent := None, waitMatch := NoMatch, wakeAt := None,
         waitStep := if clearStep then None else run.waitStep)
  }

  /** Each woken run becomes runnable, its wait step is recorded, and it gets one job. */
  function Wake(e: Engine, ids: set<RunId>, result: Tokens, clearStep: bool): Engine
    requires ids <= e.runs.Keys
  {
    e.(runs := map r | r in e.runs :: if r in ids then WokenRun(e.runs[r], clearStep) else e.runs[r],
       steps := map r | r in e.steps.Keys + ids ::
         if r in ids then Record(JournalOf(e.steps, r), WaitStepOf(e.runs[r]), "waitForEvent", Some(result))
         else e.steps[r],
       jobs := e.jobs + multiset(ids))
  }

  function SpawnAll(e: Engine, targets: seq<string>): Engine {
    if targets == [] then e
    else Spawn(SpawnAll(e, targets[..|targets| - 1]), targets[|targets| - 1], None, None)
  }

  /** The outbox: wake the matching waiters, then start the triggered runs. */
  function Emit(e: Engine, event: string, payload: Tokens, fields: map<string, string>, targets: seq<string>): Engine {
    SpawnAll(Wake(e, Waiters(e, event, fields), EventResult(payload), true), targets)
  }

  function SweepTimeouts(e: Engine, now: int): Engine {
    Wake(e, TimedOut(e, now), TimedOutResult, false)
  }

  ghost function Trigger(e: Engine, workflow: string, key: Option<string>): Engine {
    if key.Some? && KeyTaken(e.runs, workflow, UserKey(key.value)) then e
    else Spawn(e, workflow, None, if key.Some? then Some(UserKey(key.value)) else None)
  }

  ghost function Cancel(e: Engine, root: RunId): Engine {
    e.(runs := CancelRows(e.runs, CancelSet(e.runs, root)))
  }

  function Collect(e: Engine, ids: set<RunId>): Engine {
    e.(runs := e.runs - ids, steps := e.steps - ids)
  }

  // ---- Runs of the whole engine ----------------------------------------------------------------------------

  datatype Op =
    | DoTrigger(workflow: string, key: Option<string>)
    | DoBegin(run: RunId)
    | DoRecord(run: RunId, step: StepId, result: Option<Tokens>)
    | DoFinish(run: RunId, outcome: Outcome, acked: bool)
    | DoCrash(run: RunId)
    | DoEmit(event: string, payload: Tokens, fields: map<string, string>, targets: seq<string>)
    | DoSweep(now: int)
    | DoCancel(root: RunId)
    | DoCollect(ids: set<RunId>)

  /** An executor suspends only on a step it has not seen completed. */
  predicate Suspends(e: Engine, r: RunId, o: Outcome) {
    match o
    case Sleeps(step, _) => !Done(e.steps, r, step)
    case Waits(step, _, _, _) => !Done(e.steps, r, step)
    case Invokes(step, _) => !Done(e.steps, r, step)
    case _ => true
  }

  /** The cancelled run is parentless, unless the cancel finds nothing live to stop. */
  predicate SafeToCancel(e: Engine, root: RunId) {
    Live(e.runs, root) ==> e.runs[root].parent.None?
  }

  /** Attempts of one run do not overlap; no live child is cancelled on its own; collection
      removes only terminal runs. */
  predicate Legal(e: Engine, op: Op) {
    match op
    case DoBegin(r) => r in e.jobs && r !in e.inflight
    case DoRecord(r, _, _) => r in e.inflight
    case DoFinish(r, o, _) => r in e.inflight && Suspends(e, r, o)
    case DoCrash(r) => r in e.inflight
    case DoCancel(root) => SafeToCancel(e, root)
    case DoCollect(ids) => forall r | r in ids :: r in e.runs && Terminal(e.runs[r].status)
    case _ => true
  }

  ghost function Next(cfg: Configs, e: Engine, op: Op): Engine {
    match op
    case DoTrigger(workflow, key) => Trigger(e, workflow, key)
    case DoBegin(r) => Begin(e, r)
    case DoRecord(r, step, result) => e.(steps := RecordIn(e.steps, r, step, "run", result))
    case DoFinish(r, o, acked) => Finish(cfg, e, r, o, acked)
    case DoCrash(r) => e.(inflight := e.inflight - {r})
    case DoEmit(event, payload, fields, targets) => Emit(e, event, payload, fields, targets)
    case DoSweep(now) => SweepTimeouts(e, now)
    case DoCancel(root) => Cancel(e, root)
    case DoCollect(ids) => Collect(e, ids)
  }

  const Empty := Engine(map[], map[], multiset{}, 0, {})

  ghost function Exec(cfg: Configs, ops: seq<Op>): Engine {
    if ops == [] then Empty else Next(cfg, Exec(cfg, ops[..|ops| - 1]), ops[|ops| - 1])
  }

  ghost predicate ValidRun(cfg: Configs, ops: seq<Op>) {
    forall i | 0 <= i < |ops| :: Legal(Exec(cfg, ops[..i]), ops[i])
  }

  /** Every finished attempt was also acknowledged. */
  predicate NoLostAcks(ops: seq<Op>) { forall op | op in ops && op.DoFinish? :: op.acked }
}
