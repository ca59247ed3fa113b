# ZenZip durable engine: verification

A Dafny model of ZenZip's durable core and proofs about it. Each SQL statement or transaction
is one atomic step over tables held as maps; workers, nodes and callers are steps that may be
interleaved in any order. Code that updates state in place is a class whose methods are proved
against specification functions; the theorems are about those functions and about all runs of
them. `dafny verify dfyconfig.toml` checks the whole project.

## What is proved

- **Leases and fences** (`Claiming`, `JobQueue`, `Fencing`, `DueTimes`, `JobStores`). Any number of
  live or zombie workers act on any snapshot they were ever given, any number of times, between
  pushes, sweeps, requeues and purges. Fences only rise; a write by a claim superseded by a later
  claim changes nothing; a claim's acknowledgement, failure or renewal takes effect exactly when no
  later claim of the job was issued (and, for a failure, the job is not dead already; for a renewal,
  it is running). A swept claim that nobody has claimed again can still acknowledge its job, shown
  on a concrete run: the guarantee is about superseded claims, not expired leases. The retry budget
  holds with zombies present, the attempt counter counts claims since the last reset, nothing but a
  requeue revives a dead job, and the per-key concurrency cap is an invariant of every run. The
  windowed claim takes exactly min(limit, eligible) jobs; the fair one takes a prefix of each key
  group and is round-robin between groups. Over every run of the queue, no
  pushed job is first claimed before its delay or wake-up, none failed before its retry time; an
  ample plain claim takes a pushed job exactly from then on; and a claimed job is issued to nobody else until its holder settles it or a sweep runs past the last
  lease granted.
- **Workflow engine** (`Runs`, `CancelTree`, `WorkflowEngine`, `Wakeups`, `EngineRuns`,
  `StepRetries`, `EventWaits`, `RunResults`, `WorkflowStores`). Over all runs of triggers, attempts,
  crashes between handlers, emits, timeout sweeps, cancels that do not single out a live child, and
  collections: no wakeup is lost, and none is duplicated unless an acknowledgement was lost; a run
  parked on a child has exactly one live child and a live child's parent is parked on it; terminal
  rows and recorded steps never change; each event wait is resolved by exactly one of an emit, a
  timeout or a cancel, and what the journal holds for it is exactly its first decision: the event of
  the first emit with every required field, or the timeout of the first sweep past the deadline. A
  failing step is retried exactly while the failures reported are fewer than the configured
  attempts, and a finished run holds what an attempt handed back. The cancel worklist terminates on
  every parent graph, cyclic ones included; the SQLite and Postgres forms cancel the same runs
  exactly when no terminal run in the tree hides a live child, which holds in every reachable state
  of the engine.
- **What the engine does not survive** (`Crashes`, `Stranded`, `Deliveries`). Three things lose a
  wakeup: cancelling a live child on its own, a worker dying between certain store calls of a
  handler, and a worker dying on the third and last delivery of the only job of a run that still
  needs it. Each handler is broken into its store calls, and for every outcome and every cut between
  them the wakeup invariant holds after the crash exactly at the stated safe cuts. Over every run of
  the engine with its job budgets, requeues and purges of dead jobs included, the invariant holds
  all along exactly when none of these events occurs; otherwise some run is stuck. A stuck run stays
  stuck over every continuation, further deaths included, until a cancel reaches it or, if it is
  awake, a dead job of it is requeued; those two always end it. A parked one no requeue helps.
- **Step memoization** (`JsonValues`, `Replay`). For every deterministic workflow that lets a
  failing step end its attempt, and every history of attempts that crash, fail or suspend anywhere,
  an attempt that ends by itself ends as one uninterrupted evaluation over the journal, then and for
  ever after; journaled bodies never re-run; a body runs at most once more than the crashes and the
  attempts that ended on it. This holds for all workflows whose bodies return a value exactly when
  the value is plain data all the way down: a single `undefined`, NaN, date or instance inside it
  comes back changed, and a BigInt or a cycle cannot be written at all. For overlapping attempts: an
  attempt on a stale snapshot, with others recording entries before its every move, is faithful for
  every workflow exactly when, for each step it may run, what the journal keeps or others may still
  record answers as its own result does.
- **From journal to workflow** (`JsonText`, `Suspensions`). The engine's journal is text; written
  JSON is parsed back. Over every run, once a child, an event, a deadline or a sleep has ended a
  suspension, every later attempt goes on with what was sent read back from JSON, which is the value
  itself exactly when it is plain, throws exactly the error a child ended in, and gets null after a
  timeout.
- **Scheduler** (`Scheduling`, `FireTimes`). Any number of nodes with any clocks, booting, polling,
  crashing and racing on the compare-and-swap: won ticks of a schedule strictly rise, so none is won
  or fired twice, and each won tick is in exactly one place: fired, still to fire, lost by a node
  that died between claim and enqueue, or claimed in silence to skip an overlap or pass over a gap.
  On one node, `all` fires exactly the first min(100, missed) ticks in order and leaves the next one
  in the future, `skip` fires none, and after `runOnce` the run loop enqueues exactly one job for
  the whole gap; on any number of nodes the gap is worth at most one won tick. However many nodes
  run, a fire time no clock has reached is never passed over, and a node that polls once between any
  two fire times wins and fires them all in turn.
- **Flow control** (`Throttling`, `RateLimit`, `Breakers`). Throttled starts are spaced and bounded
  per interval under any clock readings; the token bucket starts at most capacity plus rate times
  length over any stretch, with tokens given back and claims failing; a round asks for exactly the
  jobs whose groups fit the free permits and the batch; the computed wait is the least whole wait
  that grants a token; the circuit breaker admits at most `halfOpenMax` probes per half-open period
  over every interleaving of overlapping calls, a failed probe starts a whole new cooldown, and any
  call that ends well closes it.
- **State machines** (`StateMachines`), **edit distance** (`EditDistance`) and **routing**
  (`Routing`). Histories are paths from the initial to the current state with one outbox event per
  entry; the two-row loop computes the least number of single-character edits, which is a metric;
  the linked route trie returns the first registered matching route exactly when no static sibling
  shadows a parameter on that route's way.

## Where the code and its own words differ

- `packages/zenzip/src/http.ts:75-78` says the trie preserves the linear first-match semantics.
  It does not on mixed nodes: `Routing.LaterStaticWins` and `Routing.NoBacktracking` are inputs
  where it differs, and `Routing.TrieAgreesIff` is the exact condition.
- `packages/zenzip/src/workflow.ts:210-222` returns a step's in-memory value but journals its JSON;
  `Replay.ReplayFaithfulIff` with `JsonValues.SurvivesIffPlain` states exactly which values replay
  faithfully. A result that cannot be written fails the run although its body succeeded.
- `crates/zenzip-core/src/sqlite.rs:657-699` guards acknowledgements and failures by the fence
  alone, not by status or lease, and `requeue_dead` does not raise the fence:
  `Fencing.SweptClaimCanStillAck` and `Fencing.LateFailureKillsRequeuedJob` are runs where that
  shows, and `Fencing.WritableIffLatest` says exactly when such a write takes effect.
- `crates/zenzip-core/src/queue.rs:55` promises at most `max` jobs per window. A window can start
  `2 * max` (`RateLimit.TwiceMaxIsReached`) and never more (`RateLimit.TwiceMaxPerWindow`); the
  promise holds for a window exactly when the bucket holds less than one token at its start
  (`RateLimit.WindowKeepsMaxIff`).
- `crates/zenzip-core/src/workflow.rs:251-255` cancels any run; `Wakeups.CancelKeepsInv` states when
  that strands a parent.
- `crates/zenzip-core/src/store.rs:242-243` gives an execution job three deliveries;
  `Deliveries.ThreeDeathsLoseTheRun` is a run that is still runnable after them with its job dead. It
  waits until someone requeues the job (`Deliveries.RequeueRestoresTheRun`) or cancels it.

## Model

| member | source | states |
|---|---|---|
| Orders.TopSize | crates/zenzip-core/src/sqlite.rs:574-608 | ordering a finite set and keeping the first n keeps min(n, size) members |
| Claiming.SelectRespectsCap | crates/zenzip-core/src/sqlite.rs:554-596 | running jobs of a key plus the jobs of that key a claim selects never exceed the key limit, if they did not before |
| Claiming.FairTakesPrefix | crates/zenzip-core/src/sqlite.rs:554-577 | a fair claim takes a priority-then-id prefix of each key group |
| Claiming.ClaimFillsLimit | crates/zenzip-core/src/sqlite.rs:554-608 | every claim, windowed or plain, takes exactly min(limit, rows it may choose among) |
| Claiming.FairIsRoundRobin | crates/zenzip-core/src/sqlite.rs:554-577 | if a group still has an eligible unclaimed job, no other group received more than one job beyond it |
| Claiming.SelectIsReady | crates/zenzip-core/src/postgres.rs:689-730 | every selected row is pending, belongs to the queue and has an available time not after the clock |
| Claiming.PlainTakesFirst | crates/zenzip-core/src/sqlite.rs:597-606 | a plain claim passes over no ready job for one of lower priority, or for a younger one of the same priority |
| Claiming.KeyedTakesOldest | crates/zenzip-core/src/sqlite.rs:577-596 | a claim under a key limit without fairness takes the oldest of the rows the limit leaves |
| Claiming.KeyRoomIsFilled | crates/zenzip-core/src/sqlite.rs:554-596 | with room in the LIMIT a claim takes of each key exactly the lesser of its ready jobs and the slots its running jobs leave, and every ready job without a key |
| JobStores.SortForDispatch | crates/zenzip-core/src/sqlite.rs:641-653 | the claimed ids come out exactly once each, in priority-then-id order |
| JobStores.JobStore.InsertRow | crates/zenzip-core/src/sqlite.rs:339-393 | one insert: debounce collapse, throttle slot, cursor advance, fresh id |
| JobStores.JobStore.Push | crates/zenzip-core/src/sqlite.rs:503-533 | a batch equals inserting one by one; ids are consecutive and in order |
| JobStores.JobStore.ClaimJobs | crates/zenzip-core/src/sqlite.rs:535-655 | exactly the selected rows, which `SelectIsReady` says are pending and due, become running with attempt and fence raised; the returned snapshots are those rows, in dispatch order, at most limit |
| JobStores.JobStore.Ack | crates/zenzip-core/src/sqlite.rs:657-665 | deletes the row only under a matching fence |
| JobStores.JobStore.FailRetry | crates/zenzip-core/src/sqlite.rs:667-685 | makes the row pending again only under a matching fence |
| JobStores.JobStore.FailDead | crates/zenzip-core/src/sqlite.rs:687-698 | makes the row dead only under a matching fence |
| JobStores.JobStore.RunGroup | crates/zenzip-core/src/queue.rs:257-322 | the loop over a group does what settling it job by job from the claim-time snapshots does |
| JobStores.GroupIsSettled | crates/zenzip-core/src/queue.rs:257-322 | of a group of distinct jobs each one still fenced is gone after success, and after failure pending until its own retry time or dead after its last attempt; a job claimed again meanwhile and every other row stay as they were |
| JobStores.JobStore.RenewLeases | crates/zenzip-core/src/sqlite.rs:700-719 | extends the lease of exactly the running rows with a listed id and fence |
| JobStores.JobStore.SweepExpired | crates/zenzip-core/src/sqlite.rs:729-751 | expired running rows become dead when out of attempts, else pending, and the count returned is their number |
| JobStores.JobStore.RequeueDead | crates/zenzip-core/src/sqlite.rs:839-858 | exactly the listed dead rows become pending with attempt 0, and the count returned is their number |
| JobStores.JobStore.PurgeDead | crates/zenzip-core/src/sqlite.rs:860-869 | removes exactly the dead rows of the queue and returns how many |
| Fencing.ClaimKeepsInv | crates/zenzip-core/src/sqlite.rs:535-655 | a claim keeps budget, ownership and uniqueness of fences among all snapshots ever issued |
| Fencing.FailKeepsInv | crates/zenzip-core/src/queue.rs:298-320 | a failure reported by any snapshot keeps the invariant |
| Fencing.SweepKeepsInv | crates/zenzip-core/src/sqlite.rs:729-751 | a sweep keeps the invariant |
| Fencing.RequeueKeepsInv | crates/zenzip-core/src/sqlite.rs:839-858 | a requeue, which does not raise the fence, keeps the invariant |
| Fencing.RunKeepsInv | crates/zenzip-core/src/sqlite.rs:535-858 | the invariant holds after every run |
| Fencing.FencesIncrease | crates/zenzip-core/src/sqlite.rs:535-751 | a job's fence never falls, and rises strictly across any claim of it |
| Fencing.SupersededWritesAreNoOps | crates/zenzip-core/src/sqlite.rs:657-719 | ack, retry, kill and renewal by a claim superseded by a later claim leave the store unchanged, for ever |
| Fencing.WritableIffLatest | crates/zenzip-core/src/sqlite.rs:657-719 | while its job is stored, a snapshot's acknowledgement counts exactly when no later claim was ever issued; so does its failure unless the job is already dead, and its renewal while the job runs |
| Fencing.LateFailureKillsRequeuedJob | crates/zenzip-core/src/sqlite.rs:839-858 | a concrete run in which a late failure of the old claim kills a requeued job before any new claim |
| Fencing.SweptClaimCanStillAck | crates/zenzip-core/src/sqlite.rs:657-665 | a concrete run in which a swept claim deletes the pending job |
| Fencing.BudgetHolds | crates/zenzip-core/src/queue.rs:298-320 | in every reachable state pending means attempts left, running means 1 to max attempts, and no attempt count passes the maximum |
| Fencing.AttemptCountsClaims | crates/zenzip-core/src/sqlite.rs:554-608 | a row's attempt is the number of its claims since insertion or last requeue, so there are at most max attempts of them |
| Fencing.StepKeepsDead | crates/zenzip-core/src/sqlite.rs:667-698 | no step but a requeue of it revives a dead job, late failures included |
| Fencing.DeadStaysDead | crates/zenzip-core/src/sqlite.rs:667-858 | over any stretch without a requeue of it, a dead job stays dead or is gone |
| Fencing.KeyCapHolds | crates/zenzip-core/src/postgres.rs:689-745 | if all claims on a queue use one key limit, no key ever has more running jobs than that, in any run |
| DueTimes.InsertedRow | crates/zenzip-core/src/sqlite.rs:339-393 | each job of a batch gets the next id in turn and a pending row with the job's data and, unthrottled, the time its delay is over, unless a later job of the batch has its debounce key |
| DueTimes.NotBeforeDelay | crates/zenzip-core/src/sqlite.rs:535-655 | over every run, the first claim of an unthrottled job pushed with a delay has a clock at which the delay is over |
| DueTimes.DelayIsExact | crates/zenzip-core/src/sqlite.rs:597-606 | over every run, a plain claim with room for all stored jobs takes a waiting job exactly when its delay is over |
| DueTimes.SleepLasts | crates/zenzip-core/src/workflow.rs:410-422 | the execution job of a sleeping run is in no claim before the wake-up time |
| DueTimes.NotBeforeRetry | crates/zenzip-core/src/queue.rs:298-320 | after a failure that is retried the job is in no claim before its retry time, until another claim or failure touches its row |
| DueTimes.LeaseHolds | crates/zenzip-core/src/sqlite.rs:535-751 | over every run, a claimed job keeps its fence and lease and is issued to nobody else until its holder settles it or a sweep's clock passes the last lease granted by the claim or a renewal |
| DueTimes.SweepEndsLease | crates/zenzip-core/src/sqlite.rs:729-751 | the first such sweep makes the job pending from its clock on, or dead when no attempt is left |
| Throttling.StartsAreSpaced | crates/zenzip-core/src/sqlite.rs:353-371 | starts under one key are a spacing apart and never before their push's clock, for any clocks and any pushes in between |
| Throttling.StartsAreEarliest | crates/zenzip-core/src/sqlite.rs:353-371 | no start is later than its push's clock except to keep the spacing from the start before it, or from the stored cursor |
| Throttling.StartsPerInterval | crates/zenzip-core/src/sqlite.rs:353-371 | any closed interval of length w holds at most w/spacing + 1 starts |
| Throttling.PostgresAssignsSameSlot | crates/zenzip-core/src/postgres.rs:351-369 | the upsert form assigns the same start and leaves the same cursor |
| CancelTree.ChildrenOf | crates/zenzip-core/src/sqlite.rs:1408-1414 | the children query returns exactly the child rows |
| CancelTree.CancelRunTree | crates/zenzip-core/src/sqlite.rs:1394-1420 | the worklist terminates on any parent graph, cancels exactly the runs reachable from the root through live runs, and returns their number |
| CancelTree.ReachedThroughParent | crates/zenzip-core/src/sqlite.rs:1394-1420 | a reached run is live and is the root or has a reached parent |
| CancelTree.StoresAgreeIff | crates/zenzip-core/src/postgres.rs:1238-1262 | the worklist and the recursive query cancel the same runs exactly when no terminal run of the tree has a live child |
| Wakeups.BeginKeepsInv | crates/zenzip-core/src/workflow.rs:323-350 | picking up a job, stale or not, keeps the invariant |
| Wakeups.WakeKeepsInv | crates/zenzip-core/src/sqlite.rs:395-501 | waking a set of event waiters keeps the invariant |
| Wakeups.CancelKeepsInv | crates/zenzip-core/src/workflow.rs:251-255 | a cancel of any run keeps the invariant exactly when the run is parentless or not live |
| Wakeups.CancelledChildStrands | crates/zenzip-core/src/sqlite.rs:1394-1420 | cancelling a live child leaves its parent parked with no live child |
| Wakeups.EndKeepsInv | crates/zenzip-core/src/workflow.rs:550-587 | ending a run and settling its parent keeps the invariant |
| Wakeups.ReuseKeepsInv | crates/zenzip-core/src/workflow.rs:509-548 | a replayed invocation that finds its child finds it terminal and keeps the invariant |
| Wakeups.InvokeKeepsInv | crates/zenzip-core/src/workflow.rs:469-548 | an invocation keeps the invariant |
| Wakeups.RetryKeepsInv | crates/zenzip-core/src/workflow.rs:438-465 | counting a step failure and retrying or failing keeps the invariant |
| Wakeups.FinishKeepsInv | crates/zenzip-core/src/workflow.rs:370-467 | applying any outcome, or discarding it for a cancelled run, with or without a lost acknowledgement, keeps the invariant |
| Wakeups.RunKeepsInv | crates/zenzip-core/src/workflow.rs:323-587 | the invariant holds after every run of the engine |
| StepRetries.CountsReports | crates/zenzip-core/src/sqlite.rs:976-997 | over every run, the journal's attempt count of a step is the number of its failures among the operations |
| StepRetries.FailureRetriesIff | crates/zenzip-core/src/workflow.rs:438-465 | at the n-th failure reported of a step the run goes on, with a job, exactly while n is below its configured limit, and is failed with that error otherwise |
| StepRetries.FailuresAreBounded | crates/zenzip-core/src/workflow.rs:438-465 | for a stored run at most as many failures of a step are ever reported as configured (at least one), and the last has ended the run |
| StepRetries.AlwaysFailing | crates/zenzip-core/src/workflow.rs:438-465 | a step that always fails is tried exactly as often as configured, at least once, on a concrete run for every limit |
| EngineRuns.NoLostWakeups | crates/zenzip-core/src/workflow.rs:323-587 | in every reachable state a runnable or sleeping run has an un-acknowledged job, a run parked on a child has exactly one live child, and a live child's parent is parked |
| EngineRuns.StoresCancelAlike | crates/zenzip-core/src/postgres.rs:1238-1262 | in every reachable state the two stores cancel the same runs, from any root |
| EngineRuns.NoDuplicateWakeups | crates/zenzip-core/src/workflow.rs:323-587 | without lost acknowledgements a runnable or sleeping run has exactly one job and a waiting run none |
| EngineRuns.StepGrows | crates/zenzip-core/src/workflow.rs:323-587 | no operation changes a terminal row or a completed journal entry |
| EngineRuns.TerminalIsAbsorbing | crates/zenzip-core/src/sqlite.rs:999-1090 | a terminal run's row never changes again while it exists |
| EngineRuns.RecordedStepsNeverChange | crates/zenzip-core/src/sqlite.rs:317-337 | a completed step keeps its kind and result over any run |
| RunResults.OutcomeRow | crates/zenzip-core/src/sqlite.rs:999-1066 | each outcome leaves the stated status, output, error, wait and wake-up time in the row of its run |
| RunResults.ResultsAreHandedBack | crates/zenzip-core/src/workflow.rs:386-467 | over every run, the output of a completed run and the error of a failed one is what one of its attempts handed back, or the engine's own error for an invocation |
| RunResults.OutputIsKept | crates/zenzip-core/src/sqlite.rs:999-1012 | once an attempt of an uncancelled run hands back its output, the run is completed with it for as long as it is stored |
| RunResults.CancelledRow | crates/zenzip-core/src/sqlite.rs:1394-1420 | a cancel leaves exactly the reached runs cancelled, waiting for nothing and otherwise as they were |
| RunResults.CollectIsExact | crates/zenzip-core/src/sqlite.rs:753-781 | collecting runs removes exactly their rows and journals |
| EngineRuns.WaitStep | crates/zenzip-core/src/sqlite.rs:1370-1392 | one operation leaves a waiting run alone, wakes it with the one matching result, or cancels it |
| EngineRuns.EachWaitResolvesOnce | crates/zenzip-core/src/workflow.rs:258-278 | an event wait is left by exactly one emit, timeout or cancel; unless it was a cancel, the journal holds that one result for as long as the run is stored |
| EventWaits.MatchIsSubset | crates/zenzip-core/src/sqlite.rs:22-34 | a wait predicate holds exactly when the required fields with their values are among the event's |
| EventWaits.ParkedStep | crates/zenzip-core/src/sqlite.rs:1370-1392 | a run parked on a wait is woken by an event of its name with every required field or by a sweep whose clock has reached its deadline, may be stopped by a cancel, and stays parked at everything else |
| EventWaits.FirstDecisionReleases | crates/zenzip-core/src/sqlite.rs:428-457 | from the outcome that parked a run, the first satisfying event or the first sweep at or past the deadline releases it, and its result is journaled for as long as the run is stored |
| EventWaits.WaitResultIff | crates/zenzip-core/src/sqlite.rs:395-501 | over every run, the journal holds a result for a wait exactly when the first decision after parking gave it |
| EventWaits.TimeoutOnlyAfterDeadline | crates/zenzip-core/src/sqlite.rs:1370-1377 | the journal holds the timeout only if some sweep's clock had reached the deadline the run was parked with, and never without a deadline |
| EngineRuns.EmitIsExact | crates/zenzip-core/src/sqlite.rs:395-501 | an emit adds exactly one job per woken waiter and triggered run and leaves every other run and journal as it was |
| EngineRuns.SpawnAllRows | crates/zenzip-core/src/sqlite.rs:459-493 | each trigger target gets its own fresh parentless runnable run |
| EngineRuns.ParkAndResume | crates/zenzip-core/src/workflow.rs:469-587 | a run of the engine that parks on a child and is resumed by its end exists, with exactly these tables, so the theorems are not vacuous |
| EngineRuns.CrashedTriggerIsLost | crates/zenzip-core/src/workflow.rs:219-236 | after a crash between row and job, a retried trigger with the same key finds the row and never enqueues it |
| EngineRuns.CrashedInvokeIsLost | crates/zenzip-core/src/workflow.rs:487-506 | after a crash between child row and job, a replayed invocation parks the parent on a child without a job |
| Crashes.ApplyIsCalls | crates/zenzip-core/src/workflow.rs:386-548 | applying any outcome is making its store calls in order |
| Crashes.DropJobIff | crates/zenzip-core/src/sqlite.rs:729-751 | losing one job of an idle run keeps the invariant exactly when the run is not awake or has another |
| Crashes.EndCut | crates/zenzip-core/src/workflow.rs:550-587 | a run's end cut after k calls: safe before the first, after the last, without a parent, or when the woken parent has an older job; otherwise the parent is stuck |
| Crashes.CutKeepsInvIff | crates/zenzip-core/src/workflow.rs:386-587 | for every outcome and every cut between its store calls, the invariant survives the crash exactly at the safe cuts, and an unsafe cut strands a named run |
| Crashes.TriggerCutIff | crates/zenzip-core/src/workflow.rs:219-236 | a trigger is its two calls, and exactly a crash between them strands the new run |
| Crashes.SweepIsCalls | crates/zenzip-core/src/workflow.rs:258-278 | a timeout sweep is its calls, in whatever order the rows come back |
| Crashes.SweepCutIff | crates/zenzip-core/src/workflow.rs:258-278 | a sweep cut after k calls keeps the invariant exactly when every released run whose job is not pushed yet has an older one |
| Stranded.CutEffect | crates/zenzip-core/src/workflow.rs:386-548 | however many of its calls an attempt has made, it has touched its own run, its parked parent and at most one fresh child, and taken no job away |
| Stranded.StepLeavesStuck | crates/zenzip-core/src/workflow.rs:205-587 | whatever operation of the engine comes next, any cancel included, a stuck run stays stuck or is cancelled |
| Deliveries.NeedsIff | crates/zenzip-core/src/workflow.rs:386-587 | after a death at any cut the run needs its job exactly when, before it, that was its only job and the outcome and the cut leave it to be woken |
| Deliveries.EventKeepsInvIff | crates/zenzip-core/src/workflow.rs:205-587 | every event, from any good state, keeps the invariant exactly when it is survivable, and otherwise leaves a stuck run; a requeue or purge of dead jobs always is |
| Deliveries.SurvivingRunsKeepInv | crates/zenzip-core/src/workflow.rs:205-587 | runs with workers dying anywhere keep every wakeup up to the first event they do not survive |
| Deliveries.WakeupsKeptIff | crates/zenzip-core/src/store.rs:236-250 | over every run, requeues and purges included, the invariant holds all along exactly when there is no unsafe cancel, no death at an unsafe cut and no death on the last delivery of the only job of a run that needs it |
| Deliveries.WakeupsAreDeliverable | crates/zenzip-core/src/store.rs:236-250 | in every state of a surviving run, each runnable or sleeping run is in flight or has a job with fewer than three deliveries used |
| Deliveries.EventLeavesStuck | crates/zenzip-core/src/sqlite.rs:839-858 | from any state with a stuck run, exactly a cancel, or a requeue of a dead job of an awake run, ends being stuck; deaths inside handlers and on last deliveries included among the events |
| Deliveries.StuckUntilReleased | crates/zenzip-core/src/workflow.rs:205-587 | a stuck run stays stuck over every continuation of events that neither cancels it nor, if it is awake, requeues a dead job of it |
| Deliveries.LostUntilReleased | crates/zenzip-core/src/workflow.rs:205-587 | the first event a run does not survive strands some run, which stays stuck until so released |
| Deliveries.UnsafeCutIsForGood | crates/zenzip-core/src/workflow.rs:386-587 | the named victim of a death at an unsafe cut stays stuck until so released |
| Deliveries.UnsafeCancelIsForGood | crates/zenzip-core/src/workflow.rs:251-255 | the parent of a live child cancelled alone stays stuck until so released |
| Deliveries.RequeueRestoresTheRun | crates/zenzip-core/src/sqlite.rs:839-858 | after three deaths, a requeue of the dead job brings the run back exactly as it was when triggered |
| Deliveries.ThreeDeathsLoseTheRun | crates/zenzip-core/src/store.rs:242-243 | a worker dying on all three deliveries leaves the run runnable with its job dead; after two deaths the job can still be delivered |
| Deliveries.CancelledChildLosesTheParent | crates/zenzip-core/src/workflow.rs:251-255 | a reachable state in which cancelling the child strands the parent |
| WorkflowStores.WakeOneMore | crates/zenzip-core/src/sqlite.rs:428-457 | waking waiters one after the other adds up to waking them together |
| WorkflowStores.WorkflowStore.RecordStep | crates/zenzip-core/src/sqlite.rs:317-337 | records a step unless it is completed |
| WorkflowStores.WorkflowStore.EventCandidates | crates/zenzip-core/src/sqlite.rs:414-427 | exactly the runs waiting for the event, once each |
| WorkflowStores.WorkflowStore.WakeMatching | crates/zenzip-core/src/sqlite.rs:428-457 | the candidate loop wakes exactly the candidates whose predicate holds |
| WorkflowStores.WorkflowStore.StartTargets | crates/zenzip-core/src/sqlite.rs:459-493 | one fresh run and job per target |
| WorkflowStores.WorkflowStore.EmitEvent | crates/zenzip-core/src/sqlite.rs:395-501 | the outbox transaction keeps the event and refines the set-at-once emit; the returned waiters and runs are the woken and started ones |
| WorkflowStores.WorkflowStore.Settle | crates/zenzip-core/src/workflow.rs:550-587 | records the child's result and wakes the parent only if it is parked on a child |
| WorkflowStores.WorkflowStore.FindByKey | crates/zenzip-core/src/sqlite.rs:246-259 | finds a run with the key exactly when there is one |
| WorkflowStores.WorkflowStore.Invoke | crates/zenzip-core/src/workflow.rs:469-548 | the branches on unknown workflow, new child and found child refine the invocation function |
| WorkflowStores.WorkflowStore.RetryOrFail | crates/zenzip-core/src/workflow.rs:438-465 | counts the failure, then retries below the limit or fails the run, as `StepRetries.FailureRetriesIff` states over whole runs |
| WorkflowStores.WorkflowStore.ApplyOutcome | crates/zenzip-core/src/workflow.rs:386-467 | every outcome's store calls refine its one-step form |
| WorkflowStores.WorkflowStore.FinishAttempt | crates/zenzip-core/src/workflow.rs:370-384 | an outcome of a run cancelled meanwhile is discarded |
| WorkflowStores.WorkflowStore.SweepEventTimeouts | crates/zenzip-core/src/sqlite.rs:1370-1392 | releases exactly the waiters whose deadline passed, keeping their wait step; `EventWaits.ParkedStep` says which these are |
| WorkflowStores.WorkflowStore.Sweep | crates/zenzip-core/src/workflow.rs:258-278 | the update followed by the record-and-enqueue loop refines the one-step timeout sweep of `EventWaits.WaitResultIff` |
| WorkflowStores.WorkflowStore.CancelFrom | crates/zenzip-core/src/workflow.rs:251-255 | cancels the reachable live runs and returns their number |
| JsonValues.SurvivesIffPlain | packages/zenzip/src/workflow.ts:206-222 | a value written to JSON and read again is the same exactly when it is made of null, booleans, ordinary numbers, text, arrays and plain objects all the way down |
| JsonValues.ReadIsPlain | packages/zenzip/src/workflow.ts:206-209 | what is read from the journal is plain and is written as the JSON it came from |
| JsonText.PrintParses | packages/zenzip/src/workflow.ts:206-222 | written JSON is parsed back to the same value, whatever follows it |
| JsonText.WrapDetermines | crates/zenzip-core/src/workflow.rs:562-566 | a recorded result determines the field it was wrapped in and the text inside |
| Suspensions.SeesIff | packages/zenzip/src/workflow.ts:199-272 | a journaled step goes on with an answer in every attempt exactly when its row decodes to it |
| Suspensions.ResultsDetermine | crates/zenzip-core/src/workflow.rs:562-566 | the texts for an output, an error, an event and a timeout are never equal, and each determines what it was made from |
| Suspensions.ChildOutputIsSeen | packages/zenzip/src/workflow.ts:255-263 | over every run, an invocation is suspended until its child returns v, then every attempt goes on with v read back from JSON, which is v itself exactly when v is plain |
| Suspensions.ChildErrorIsSeen | packages/zenzip/src/workflow.ts:257-262 | over every run, once a child ended in an error (failure, last step failure or unknown workflow) every attempt of its parent is thrown exactly that error |
| Suspensions.ReplayedInvokeIsSeen | crates/zenzip-core/src/workflow.rs:509-548 | a replayed invocation whose child has finished goes on with the child's output or is thrown its error, or the stated one when it has none |
| Suspensions.EventIsSeen | packages/zenzip/src/workflow.ts:234-247 | over every run, a wait is suspended until its first satisfying event, then goes on with the event's payload, itself exactly when plain |
| Suspensions.TimeoutIsSeen | packages/zenzip/src/workflow.ts:234-247 | a wait decided by its deadline goes on with null |
| Suspensions.SleepIsSeen | packages/zenzip/src/workflow.ts:225-232 | a sleep suspends once and from then on is over |
| Suspensions.BodyResultIsSeen | crates/zenzip-core/src/sqlite.rs:922-946 | a recorded body result is the entry every later attempt loads, and answers the value itself exactly when it is plain |
| Replay.NextMove | packages/zenzip/src/workflow.ts:182-300 | what the next action does to an attempt: a replayed step is journaled and unused, a run body is neither and its result can be written, and an attempt that ends on a started body crashed, failed on it or could not write its result |
| Replay.AttemptOnlyAdds | packages/zenzip/src/workflow.ts:201-222 | an attempt only adds journal entries and starts only unjournaled bodies, each once |
| Replay.StartedIsAccounted | packages/zenzip/src/workflow.ts:210-222 | a started body is journaled, or the attempt crashed or ended on it |
| Replay.AgreeingAttemptIsEvaluation | packages/zenzip/src/workflow.ts:288-335 | however stale its snapshot and whatever others record before its moves, an attempt that ends by itself ends as the evaluation over any later journal, if the journal keeps results that answer as its own do |
| Replay.AttemptIsEvaluation | packages/zenzip/src/workflow.ts:288-335 | without overlap and with values that survive, every attempt that ends by itself ends as that evaluation |
| Replay.JournalOnlyGrows | crates/zenzip-core/src/sqlite.rs:317-337 | across any attempts and engine records, recorded results never change |
| Replay.ReplayPreservesMeaning | packages/zenzip/src/workflow.ts:175-335 | an attempt completing after any history returns what one uninterrupted evaluation over the journal returns, then and later |
| Replay.AttemptsAgree | packages/zenzip/src/workflow.ts:175-335 | any two attempts that end by themselves end the same way |
| Replay.JournaledBodiesNeverRerun | packages/zenzip/src/workflow.ts:206-209 | a body whose step is journaled is never started again |
| Replay.BodyRunsBounded | packages/zenzip/src/workflow.ts:206-222 | a body runs at most once more than the crashes and the attempts that ended on it |
| Replay.ReplayFaithfulIff | packages/zenzip/src/workflow.ts:210-222 | replay is faithful for all workflows and histories returning a value exactly when the value is plain |
| Replay.ProbeFaithfulIff | packages/zenzip/src/workflow.ts:210-222 | a workflow that tells its step's answer is faithful exactly when the journal keeps its result |
| Replay.OverlapFaithfulIff | packages/zenzip/src/workflow.ts:210-222 | for all snapshots, stores, sets of results and sets of entries others may record before its moves: an overlapping attempt is faithful for every workflow exactly when, for every step it may run, what the journal keeps or others may still record answers exactly its own result |
| Replay.LateWriteIsUnfaithful | crates/zenzip-core/src/sqlite.rs:317-337 | another result recorded while a body runs makes the probe's attempt unfaithful |
| Replay.Step.Claim | packages/zenzip/src/workflow.ts:182-198 | an id is usable once per attempt and keeps its kind |
| Replay.Step.Perform | packages/zenzip/src/workflow.ts:199-272 | one step call on the mutable step object is one move of the attempt; what a journaled step answers is stated by the `Suspensions` lemmas |
| Replay.ExecuteAttempt | packages/zenzip/src/workflow.ts:288-335 | the loop over the step object computes the recursive attempt, journal, outcome and started bodies, with the answers the `Suspensions` lemmas state |
| Scheduling.ClaimKeepsInv | crates/zenzip-core/src/sqlite.rs:1513-1531 | a compare-and-swap with a later next time keeps won ticks rising and fires unrepeated |
| Scheduling.StepKeepsInv | crates/zenzip-core/src/scheduler.rs:186-340 | every store call of every node keeps the invariant and lowers no row |
| Scheduling.NoTickWonOrFiredTwice | crates/zenzip-core/src/scheduler.rs:186-340 | over any interleaving of nodes with any clocks, won ticks of a schedule strictly rise, every fire is of a won tick and none repeats |
| Scheduling.WinsRaise | crates/zenzip-core/src/sqlite.rs:1513-1531 | a successful claim takes the stored tick and strictly raises the row; nothing lowers one |
| Scheduling.WonTicksAccounted | crates/zenzip-core/src/scheduler.rs:299-337 | in every reachable state each won tick is in exactly one place: fired, still to fire at a node, lost by a node that died, or claimed in silence |
| Scheduling.SilenceIsExplained | crates/zenzip-core/src/scheduler.rs:208-255 | of a tick that is won, exactly an overlap to be skipped, or a gap that is skipped or has reached its cap, is claimed in silence; any other is its winner's to fire |
| Scheduling.NothingSilent | crates/zenzip-core/src/scheduler.rs:299-337 | with `runOnce` and no overlap skips nothing is silent, so every won tick that did not fire is still to fire or was lost by a node that died |
| Scheduling.MissedIsTheGap | crates/zenzip-core/src/scheduler.rs:223-240 | the missed ticks start at the stored one, follow one another, and stop only at a future tick or one whose successor cannot be computed |
| Scheduling.MissedEvery | crates/zenzip-core/src/scheduler.rs:151-153 | a fixed interval misses exactly the multiples that fit in the gap |
| Scheduling.ScheduleStore.UpsertSchedule | crates/zenzip-core/src/sqlite.rs:1422-1467 | an unchanged spec keeps its stored timing; a new or changed one gets the computed time and no last run |
| Scheduling.ScheduleStore.ScheduleClaimTick | crates/zenzip-core/src/sqlite.rs:1513-1531 | succeeds exactly when the stored next time is the observed one |
| Scheduling.ScheduleStore.ReplayGap | crates/zenzip-core/src/scheduler.rs:223-253 | fires exactly the first min(100, missed) ticks, in order and once each, then leaves the next time in the future |
| Scheduling.ScheduleStore.BootSchedule | crates/zenzip-core/src/scheduler.rs:186-257 | `all` replays the gap, `skip` fires none and moves past now, `runOnce` fires none and leaves the overdue time |
| Scheduling.PassClaimsOnce | crates/zenzip-core/src/scheduler.rs:299-337 | with nobody else claiming, a pass claims each due registered row once, past now, and touches no other; `FireTimes.PassFindsNext` says where it moves them |
| Scheduling.ScheduleStore.Pass | crates/zenzip-core/src/scheduler.rs:299-337 | the loop over due rows claims and enqueues as specified, skipping busy schedules that forbid overlap |
| Scheduling.PassFiresOnce | crates/zenzip-core/src/scheduler.rs:322-337 | a pass enqueues one job told the pass's time for each registered due schedule, except where an overlap is to be skipped |
| FireTimes.PassFindsNext | crates/zenzip-core/src/scheduler.rs:311-321 | a pass moves a claimed row to the first fire time after its clock, or a minute on when that cannot be computed |
| FireTimes.NoneSkipped | crates/zenzip-core/src/scheduler.rs:186-340 | over any interleaving of any number of nodes, the stored time is a fire time and never past one that no clock has reached |
| FireTimes.PollsWinEveryTick | crates/zenzip-core/src/scheduler.rs:289-340 | in the many-node system a node whose polls keep up wins and fires every tick in turn, none left out, none lost or silent |
| FireTimes.LoopClaimsEveryTick | crates/zenzip-core/src/scheduler.rs:289-340 | the run loop of one node claims at every pass that keeps up, and stores the tick after the last |
| FireTimes.IntervalFiresEveryTime | crates/zenzip-core/src/scheduler.rs:151-153 | an interval polled at each of its due times fires at every multiple in turn |
| FireTimes.CalendarFiresEveryTime | crates/zenzip-core/src/scheduler.rs:151-168 | a calendar polled once between any two fire times wins and fires them all in turn |
| FireTimes.GapIsReplayed | crates/zenzip-core/src/scheduler.rs:223-253 | in the many-node system a node left to itself in the middle of a gap fires what is left of it in order, up to the cap, and rests with the next time in the future |
| FireTimes.BootResetsChanged | crates/zenzip-core/src/sqlite.rs:1437-1442 | booting a new or changed schedule stores the time computed from the new definition and counts nothing as missed |
| FireTimes.BootKeepsUnchanged | crates/zenzip-core/src/scheduler.rs:186-222 | booting an unchanged schedule changes no row and replays the gap exactly when it is overdue and the policy is not `runOnce` |
| Scheduling.RunOnceWinsOnce | crates/zenzip-core/src/scheduler.rs:186-340 | on any number of nodes, over any boots, polls, claims and crashes whose clocks read less than the next time, an overdue `runOnce` schedule is won at most once, and then its next time is past them all |
| Scheduling.PassIsRowwise | crates/zenzip-core/src/scheduler.rs:299-337 | a pass moves exactly the due registered rows, whatever order they come in |
| Scheduling.OneClaimPerGap | crates/zenzip-core/src/scheduler.rs:299-337 | an overdue schedule is claimed by the first pass and by no later one before the next time |
| Scheduling.SchedulerNode.DueSchedules | crates/zenzip-core/src/sqlite.rs:1469-1492 | exactly the due rows, once each |
| Scheduling.SchedulerNode.RunLoop | crates/zenzip-core/src/scheduler.rs:289-340 | the run loop's rows, and as many jobs enqueued per schedule as passes claimed it |
| Scheduling.SchedulerNode.CatchUpOnce | crates/zenzip-core/src/scheduler.rs:202-222 | a `runOnce` boot on an overdue row followed by polls before the next time enqueues exactly one job for the whole gap |
| RateLimit.TakeKeepsSound | crates/zenzip-core/src/queue.rs:81-93 | tokens stay within 0 and capacity, and a short grant leaves less than one token |
| RateLimit.WaitIsExact | crates/zenzip-core/src/queue.rs:95-101 | a whole wait leads to a grant exactly when it is at least the computed one |
| RateLimit.RoundSpends | crates/zenzip-core/src/queue.rs:196-215 | a round costs exactly the jobs it starts, unused tokens going back in full, and a failed claim exactly what it took |
| RateLimit.RunSpends | crates/zenzip-core/src/queue.rs:174-215 | jobs started plus tokens left never exceed tokens at hand plus tokens regained |
| RateLimit.RateLimitHolds | crates/zenzip-core/src/queue.rs:62-102 | over any stretch of any run, jobs started are at most capacity plus rate times its length, with returned tokens and failed claims |
| RateLimit.TwiceMaxPerWindow | crates/zenzip-core/src/queue.rs:55-60 | any window of the configured length starts at most twice the configured maximum |
| RateLimit.TwiceMaxIsReached | crates/zenzip-core/src/queue.rs:55-60 | a run that starts twice the maximum within one window |
| RateLimit.WindowKeepsMaxIff | crates/zenzip-core/src/queue.rs:55-60 | every run within the window starting now starts at most the maximum exactly when the bucket holds less than one token now |
| RateLimit.TokenBucket.Refill | crates/zenzip-core/src/queue.rs:81-86 | adds the regained tokens up to capacity |
| RateLimit.TokenBucket.Take | crates/zenzip-core/src/queue.rs:88-93 | grants the whole tokens at hand, up to what is wanted |
| RateLimit.TokenBucket.GiveBack | crates/zenzip-core/src/queue.rs:204-215 | returned tokens never push the bucket past capacity |
| RateLimit.ChunksKeepJobs | crates/zenzip-core/src/queue.rs:216-230 | the groups hold every claimed job once, in order |
| RateLimit.ChunksFitPermits | crates/zenzip-core/src/queue.rs:174-181 | the groups of a claim never outnumber the permits seen free |
| RateLimit.WantedIff | crates/zenzip-core/src/queue.rs:174-181 | a number of jobs is within what a round asks for exactly when their groups fit the free permits and it is within the batch size or one group |
| RateLimit.Worker.StartGroups | crates/zenzip-core/src/queue.rs:216-230 | running groups and free permits always add up to the concurrency, and no start waits for a permit |
| RateLimit.Worker.Finish | crates/zenzip-core/src/queue.rs:257-264 | a finished group frees exactly its own permit |
| RateLimit.Worker.ClaimRound | crates/zenzip-core/src/queue.rs:174-231 | one round of the loop is one possible round of the bucket; it starts min(granted, backlog) jobs, or none and loses its tokens when the claim fails |
| Breakers.BulkheadHolds | packages/zenzip/src/resilience.ts:93-120 | calls in flight are the outstanding ones and never exceed the limit |
| Breakers.StepKeepsProbes | packages/zenzip/src/resilience.ts:93-120 | late decrements never free a probe slot of the current half-open period |
| Breakers.ProbesPerPeriod | packages/zenzip/src/resilience.ts:93-120 | each half-open period admits at most `halfOpenMax` calls, over any interleaving |
| Breakers.ClosedCountsStreak | packages/zenzip/src/resilience.ts:122-137 | a closed breaker has counted exactly the failures since the last non-failure, and they are below the threshold |
| Breakers.TripsAtThreshold | packages/zenzip/src/resilience.ts:129-137 | it trips exactly on the failure completing a streak of `threshold` |
| Breakers.OpenAdmitsNothing | packages/zenzip/src/resilience.ts:75-97 | while open, nothing is admitted before the cooldown unless an outstanding call ends as a non-failure, and failures do not prolong the cooldown |
| Breakers.CooldownAdmitsProbe | packages/zenzip/src/resilience.ts:75-106 | once the cooldown is over the next call is admitted as a probe unless the bulkhead is full |
| Breakers.ProbeAdmittedIff | packages/zenzip/src/resilience.ts:93-106 | in a half-open period a call is admitted exactly while fewer than `halfOpenMax` were and the bulkhead has room |
| Breakers.FailedProbeCoolsAgain | packages/zenzip/src/resilience.ts:129-134 | after a counted failure in a half-open period calls are refused for a whole cooldown from it, and the next is a probe |
| Breakers.GoodEndCloses | packages/zenzip/src/resilience.ts:122-127 | a call that ends without a counted failure closes the circuit from any state, and the next call is admitted unless the bulkhead is full |
| Breakers.CircuitBreaker.Transition | packages/zenzip/src/resilience.ts:83-90 | entering a state resets its own counter or clock; re-entering changes nothing |
| Breakers.CircuitBreaker.CurrentState | packages/zenzip/src/resilience.ts:75-81 | reading moves open to half-open exactly when the cooldown is over |
| Breakers.CircuitBreaker.Enter | packages/zenzip/src/resilience.ts:93-106 | admission, refusal and the counters it leaves |
| Breakers.CircuitBreaker.Leave | packages/zenzip/src/resilience.ts:107-120 | the outcome is judged before the counters go down |
| StateMachines.RunKeepsInv | crates/zenzip-core/src/sqlite.rs:1130-1165 | histories, outbox and pending plans stay consistent over any interleaving |
| StateMachines.HistoryIsAPath | crates/zenzip-core/src/runtime.rs:278-340 | each history chains from the initial to the current state by defined transitions, with exactly one outbox event per entry, in order, named after the machine and the entry's target state |
| StateMachines.UndisturbedSend | crates/zenzip-core/src/runtime.rs:278-340 | after any run, a read and a write with nothing in between make exactly the transition defined for the stored state, with its entry and event, or change nothing |
| StateMachines.MachineStore.Create | crates/zenzip-core/src/sqlite.rs:1105-1116 | creating an existing instance changes nothing and says so |
| StateMachines.MachineStore.SendBlocking | crates/zenzip-core/src/sqlite.rs:1130-1165 | state, history and event change together, exactly when the state is still the one read |
| StateMachines.MachineStore.Send | crates/zenzip-core/src/runtime.rs:278-340 | three tries among rivals: success appends its own entry last, a refusal is by the current state, and giving up means three transitions by others |
| EditDistance.LevSymmetric | packages/zenzip/src/eval.ts:97-113 | the distance is symmetric |
| EditDistance.LevZeroIffEqual | packages/zenzip/src/eval.ts:97-113 | the distance is zero exactly on equal strings |
| EditDistance.LevTriangle | packages/zenzip/src/eval.ts:97-113 | the triangle inequality |
| EditDistance.LevBounds | packages/zenzip/src/eval.ts:97-113 | between the difference and the maximum of the lengths |
| EditDistance.LevIsLeastEdits | packages/zenzip/src/eval.ts:97-113 | some script of at most n edits exists exactly when the distance is at most n |
| EditDistance.Levenshtein | packages/zenzip/src/eval.ts:97-113 | the two swapped rows compute the recursive distance |
| EditDistance.ClosenessIsNormalized | packages/zenzip/src/eval.ts:119-129 | the score lies in 0 to 1 without the clamp, is symmetric, and is 1 exactly on equal strings |
| EditDistance.ClosenessIsShareKept | packages/zenzip/src/eval.ts:119-129 | the score times the longer length plus the distance is the longer length |
| EditDistance.Similarity | packages/zenzip/src/eval.ts:119-129 | the clamp never changes the score |
| Routing.FoundMatches | packages/zenzip/src/http.ts:117-148 | a returned handler is of a registered matching route, the first with its pattern |
| Routing.WalkFollows | packages/zenzip/src/http.ts:127-147 | the descent ends at a matching pattern exactly when no static sibling shadows it |
| Routing.TrieAgreesIff | packages/zenzip/src/http.ts:70-78 | the trie returns the first registered matching route exactly when that route is not shadowed |
| Routing.UnmixedTrieIsLinear | packages/zenzip/src/http.ts:70-78 | with no node holding both static and parameter children the trie is the linear scan on every path |
| Routing.LaterStaticWins | packages/zenzip/src/http.ts:70-78 | a later static route takes a path from an earlier parameter route |
| Routing.NoBacktracking | packages/zenzip/src/http.ts:127-147 | a path matched by a parameter route is left unmatched |
| Routing.SegmentsSplit | packages/zenzip/src/http.ts:95-96 | a path is split at its slashes and nowhere else, empty parts not counting |
| Routing.PathMatchesIff | packages/zenzip/src/http.ts:95-109 | a registered path matches a requested one exactly when they have as many segments and each registered one starts with a colon or is the requested one |
| Routing.VerbsAgreeIff | packages/zenzip/src/http.ts:88-93 | verbs are registered under the same tree exactly when they differ at most in the case of ASCII letters |
| Routing.HttpRouter.Add | packages/zenzip/src/http.ts:84-115 | the linked nodes stand for the old routes followed by the new one, the first handler of a pattern staying; a path without leading slash is refused |
| Routing.HttpRouter.Match | packages/zenzip/src/http.ts:117-148 | the character loop over the linked nodes returns the handler of the route the trie stands for |

## Left out

- Other workers' operations between two store calls of one handler: a handler's calls may be cut by a crash anywhere, but nothing else runs between them.
- Attempts of one run do not overlap in the engine; `Replay.OverlapFaithfulIff` says what overlap does to replay.
- Wakeups.RunKeepsInv: is about runs that cancel no live child on its own and cut no handler; `Deliveries.WakeupsKeptIff` is about all runs and says what these lose.
- EngineRuns.NoLostWakeups: the same runs, for the same reason.
- EngineRuns.NoDuplicateWakeups: the same runs, and a lost acknowledgement does duplicate a job.
- Replay.ReplayPreservesMeaning: a workflow that catches a step's failure and goes on is not modelled; the failure is not journaled, so a later attempt runs the body again.
- User idempotency keys are a separate kind from invoke keys, so a user key with the prefix `zenzip.invoke:` is not modelled.
- WorkflowStores.WorkflowStore.Invoke: requires unique idempotency keys and a bounded run id, which the unique index and fresh ids give and `Wakeups.RunKeepsInv` keeps.
- CancelTree.StoresAgreeIff: states which runs the Postgres query would cancel; on a cyclic parent graph that query does not end, which is not modelled.
- Replay: `step.all` and other concurrency inside one attempt; a step failure, an unwritable result or a refused step id always ends the attempt; functions and symbols as results; payload offload; the version warning; event and sleep parameters, which play no part in replay.
- Scheduling: jitter, 64-bit overflow, cron parsing and time zones (kept as "the next time is later", and in `FireTimes` as "the first fire time after"); a schedule whose spec changes restarts its timing, so the tick theorem is for unchanged specs; one boot handles one definition, and the order over definitions is not modelled.
- RateLimit: `f64` rounding (reals instead); 32-bit saturation, which the batch limit makes unreachable; pausing, notification and cancellation of the worker loop.
- Breakers: state-change callbacks that re-enter the breaker; fractional limits.
- Routing.HttpRouter.Match: does not return the captured parameters, because their names are those of the first route through a shared node and their values need URI decoding.
- Routing: upper-casing outside ASCII; handlers are numbers.
- StateMachines: waiters and runs started by a transition's event (they are those of an emit, modelled in the engine); events emitted by others.
- JsonText: JSON text is its sequence of tokens; spelling of numbers, string escapes and white space are not modelled, and of repeated fields the last counts. A value kept by the engine is such text.
- Some error texts are abbreviated; timestamps, a step's last error and metrics are not kept.
- An executor that hands back no output is one that hands back `null`, as its parent is told.
- The event predicate `match_subset` is equality on listed top-level fields; event name patterns are resolved to trigger targets outside the model.
- The unkeyed Postgres claim with SKIP LOCKED, whose result depends on locks held; the unkeyed, non-fair claim selects by priority then id.
- `purge_subject`, strictness of `overlap: skip` across nodes, back-off delays (a parameter), the payload store, encryption, SQL text, migrations, pools and listeners.
- LLM providers, agents, memory, MCP, dashboard, CLI, HTTP middleware and the language bindings: easy per-branch facts or input and output only.
