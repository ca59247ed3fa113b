/** From the text the engine records for a step to what the workflow code sees: the round trip of a
    child's output or error, an event, a timeout, a sleep and a step body's result. */
module Suspensions {
  import opened Orders
  import opened Runs
  import opened JsonValues
  import opened JsonText
  import opened WorkflowEngine
  import opened Wakeups
  import opened EngineRuns
  import EventWaits
  import StepRetries
  import Replay

  function KindOf(name: string): Option<Replay.Kind> {
    if name == "run" then Some(Replay.RunStep)
    else if name == "sleep" then Some(Replay.SleepStep)
    else if name == "waitForEvent" then Some(Replay.WaitStep)
    else if name == "invoke" then Some(Replay.InvokeStep)
    else None
  }

  /** The journal an attempt is given: the completed steps. */
  function Loaded(j: Journal): Replay.Journal {
    map s | s in j && j[s].done && KindOf(j[s].kind).Some? :: Replay.Entry(KindOf(j[s].kind).value, j[s].result)
  }

  /** Asks for the step, and tells whether it answers exactly `a`. */
  function Asks(s: StepId, kind: Replay.Kind, a: Replay.Answer): Replay.Workflow {
    (answers: seq<Replay.Answer>) =>
      if answers == [] then Replay.Call(s, kind) else Replay.Return(Bool(answers[0] == a))
  }

  /** How an attempt of that workflow ends over the engine's journal of run `r`. */
  function Asked(e: Engine, r: RunId, s: StepId, kind: Replay.Kind, a: Replay.Answer, bodies: seq<Replay.Body>)
    : Replay.Outcome
  {
    Replay.TryOf(Asks(s, kind, a), Loaded(JournalOf(e.steps, r)), bodies).outcome
  }

  /** The step goes on with exactly `a`. */
  ghost predicate Sees(e: Engine, r: RunId, s: StepId, kind: Replay.Kind, a: Replay.Answer) {
    forall bodies :: Asked(e, r, s, kind, a, bodies) == Replay.Completed(JBool(true))
  }

  /** The step suspends its attempt. */
  ghost predicate StillSuspends(e: Engine, r: RunId, s: StepId, kind: Replay.Kind) {
    forall a, bodies :: Asked(e, r, s, kind, a, bodies) == Replay.Suspended(s, kind)
  }

  lemma AskedNew(e: Engine, r: RunId, s: StepId, kind: Replay.Kind)
    requires !Done(e.steps, r, s) && kind != Replay.RunStep
    ensures StillSuspends(e, r, s, kind)
  {
    var j := Loaded(JournalOf(e.steps, r));
    forall a, bodies ensures Asked(e, r, s, kind, a, bodies) == Replay.Suspended(s, kind) {
      Replay.AttemptUnfold(Asks(s, kind, a), j, j, [], {}, bodies);
      hide Replay.Attempt;
    }
  }

  /** The journal row of the step: completed, of that kind, with that result. */
  predicate Holds(e: Engine, r: RunId, s: StepId, kind: string, result: Option<Tokens>) {
    Done(e.steps, r, s) && e.steps[r][s].kind == kind && e.steps[r][s].result == result
  }

  /** A journaled step goes on with what its row decodes to, and nothing else. */
  lemma SeesIff(e: Engine, r: RunId, s: StepId, kind: string, result: Option<Tokens>, a: Replay.Answer)
    requires Holds(e, r, s, kind, result) && KindOf(kind).Some?
    ensures Sees(e, r, s, KindOf(kind).value, a) <==> Replay.Decode(Replay.Entry(KindOf(kind).value, result)) == a
  {
    var k := KindOf(kind).value;
    var entry := Replay.Entry(k, result);
    var j := Loaded(JournalOf(e.steps, r));
    assert s in j && j[s] == entry;
    forall bodies
      ensures Asked(e, r, s, k, a, bodies) == Replay.Completed(JBool(Replay.Decode(entry) == a))
    {
      var wf, answers := Asks(s, k, a), [] + [Replay.Decode(entry)];
      Replay.AttemptUnfold(wf, j, j, [], {}, bodies);
      Replay.AttemptUnfold(wf, j, j, answers, {} + {s}, bodies);
      assert answers[0] == Replay.Decode(entry);
      hide Replay.Attempt, Replay.Decode;
    }
    assert Asked(e, r, s, k, a, []) == Replay.Completed(JBool(Replay.Decode(entry) == a));
    hide Asked, Replay.Decode;
  }

  // ---- What the recorded texts mean --------------------------------------------------------------------

  lemma OneField(name: string, j: Json, other: string)
    ensures Member(JObject(Cons((name, j), Nil)), name) == Some(j)
    ensures |other| != |name| ==> Member(JObject(Cons((name, j), Nil)), other) == None
  {
    assert LastField(Nil, name) == None && LastField(Nil, other) == None;
  }

  lemma OutputAnswers(j: Json)
    ensures Replay.Decode(Replay.Entry(Replay.InvokeStep, Some(OutputResult(Print(j))))) == Replay.Gives(Read(j))
  {
    WrapIsPrint("output", j);
    OneField("output", j, "error");
  }

  lemma ErrorAnswers(message: string)
    ensures Replay.Decode(Replay.Entry(Replay.InvokeStep, Some(ErrorResult(message)))) == Replay.Throws(message)
  {
    WrapIsPrint("error", JText(message));
    OneField("error", JText(message), "error");
    assert Print(JText(message)) == [Quoted(message)];
  }

  lemma EventAnswers(j: Json)
    ensures Replay.Decode(Replay.Entry(Replay.WaitStep, Some(EventResult(Print(j))))) == Replay.Gives(Read(j))
  {
    WrapIsPrint("event", j);
    OneField("event", j, "timedOut");
  }

  lemma TimeoutAnswers()
    ensures Replay.Decode(Replay.Entry(Replay.WaitStep, Some(TimedOutResult))) == Replay.Gives(Null)
  {
    WrapIsPrint("timedOut", JBool(true));
  }

  /** The four texts are never confused, and each tells what it was made from. */
  lemma ResultsDetermine(t: Tokens, t': Tokens, message: string, message': string)
    ensures OutputResult(t) == OutputResult(t') ==> t == t'
    ensures EventResult(t) == EventResult(t') ==> t == t'
    ensures ErrorResult(message) == ErrorResult(message') ==> message == message'
    ensures OutputResult(t) != EventResult(t') && OutputResult(t) != ErrorResult(message)
    ensures EventResult(t) != ErrorResult(message)
    ensures OutputResult(t) != TimedOutResult && EventResult(t) != TimedOutResult && ErrorResult(message) != TimedOutResult
  {
    forall a: string, b: string, x: Tokens, y: Tokens | Wrap(a, x) == Wrap(b, y) ensures a == b && x == y {
      WrapDetermines(a, x, b, y);
    }
    hide Wrap;
    assert [Quoted(message)][0].s == message && [Quoted(message')][0].s == message';
  }

  // ---- Children ------------------------------------------------------------------------------------------

  /** Operation `i` applies the outcome `o` to the stored run `c`, a child started by step `s` of `p`. */
  ghost predicate ChildEnds(cfg: Configs, ops: seq<Op>, i: nat, c: RunId, p: RunId, s: StepId, o: Outcome) {
    && i < |ops| && ops[i].DoFinish? && ops[i].run == c && ops[i].outcome == o
    && c in Exec(cfg, ops[..i]).runs && Exec(cfg, ops[..i]).runs[c].status != Cancelled
    && Exec(cfg, ops[..i]).runs[c].parent == Some((p, s))
  }

  /** A live child's invocation has no result yet. */
  lemma ParentWaits(e: Engine, c: RunId, p: RunId, s: StepId)
    requires Inv(e, false) && c in e.inflight && c in e.runs && e.runs[c].status != Cancelled
    requires e.runs[c].parent == Some((p, s))
    ensures !Done(e.steps, p, s) && p != c
  {
    assert Live(e.runs, c);
  }

  lemma SettleHolds(e: Engine, r: RunId, row: Run, p: RunId, s: StepId, result: Tokens)
    requires r in e.runs && row.parent == Some((p, s)) && !Done(e.steps, p, s)
    ensures Holds(SettleParent(SetRun(e, r, row), r, result), p, s, "invoke", Some(result))
  {
  }

  lemma CompleteHolds(cfg: Configs, e: Engine, c: RunId, p: RunId, s: StepId, output: Tokens, acked: bool)
    requires c in e.runs && e.runs[c].status != Cancelled && e.runs[c].parent == Some((p, s)) && !Done(e.steps, p, s)
    ensures Holds(Next(cfg, e, DoFinish(c, Completes(output), acked)), p, s, "invoke", Some(OutputResult(output)))
  {
    SettleHolds(e, c, Finished(e.runs[c], Completed).(output := Some(output)), p, s, OutputResult(output));
    hide SettleParent;
  }

  lemma FailHolds(e: Engine, c: RunId, p: RunId, s: StepId, message: string)
    requires c in e.runs && e.runs[c].parent == Some((p, s)) && !Done(e.steps, p, s)
    ensures Holds(FailRun(e, c, message), p, s, "invoke", Some(ErrorResult(message)))
  {
    SettleHolds(e, c, Finished(e.runs[c], Failed).(error := Some(message)), p, s, ErrorResult(message));
    hide SettleParent;
  }

  /** What a row holds after operation `i` it holds for as long as its run is stored. */
  lemma HoldsOn(cfg: Configs, ops: seq<Op>, i: nat, n: nat, r: RunId, s: StepId, kind: string, result: Option<Tokens>)
    requires ValidRun(cfg, ops) && i < n <= |ops| && r in Exec(cfg, ops[..n]).runs
    requires Holds(Exec(cfg, ops[..i + 1]), r, s, kind, result)
    ensures Holds(Exec(cfg, ops[..n]), r, s, kind, result)
  {
    hide Exec, ValidRun;
    RecordedStepsNeverChange(cfg, ops, i + 1, n, r, s);
  }

  /** A child returns `v`: the parent's invocation was suspended, and from then on, for as long as
      the parent is stored, it goes on with what reading `v` back from JSON gives; that is `v`
      itself exactly when `v` is plain. */
  lemma ChildOutputIsSeen(cfg: Configs, ops: seq<Op>, i: nat, n: nat, c: RunId, p: RunId, s: StepId, v: Value)
    requires ValidRun(cfg, ops) && i < n <= |ops| && Write(v).Some?
    requires ChildEnds(cfg, ops, i, c, p, s, Completes(Print(Write(v).value)))
    requires p in Exec(cfg, ops[..n]).runs
    ensures StillSuspends(Exec(cfg, ops[..i]), p, s, Replay.InvokeStep)
    ensures Sees(Exec(cfg, ops[..n]), p, s, Replay.InvokeStep, Replay.Gives(Read(Write(v).value)))
    ensures Sees(Exec(cfg, ops[..n]), p, s, Replay.InvokeStep, Replay.Gives(v)) <==> Plain(v)
  {
    hide Exec, Next, Inv, ValidRun, Sees, StillSuspends, Holds, Done, Read, Write, Replay.Decode, Plain;
    var output := Print(Write(v).value);
    InChild(cfg, ops, i, c, p, s, Completes(output));
    CompleteHolds(cfg, Exec(cfg, ops[..i]), c, p, s, output, ops[i].acked);
    HoldsOn(cfg, ops, i, n, p, s, "invoke", Some(OutputResult(output)));
    OutputAnswers(Write(v).value);
    SurvivesIffPlain(v);
    SeesIff(Exec(cfg, ops[..n]), p, s, "invoke", Some(OutputResult(output)), Replay.Gives(Read(Write(v).value)));
    SeesIff(Exec(cfg, ops[..n]), p, s, "invoke", Some(OutputResult(output)), Replay.Gives(v));
  }

  lemma InChild(cfg: Configs, ops: seq<Op>, i: nat, c: RunId, p: RunId, s: StepId, o: Outcome)
    requires ValidRun(cfg, ops) && ChildEnds(cfg, ops, i, c, p, s, o)
    ensures Exec(cfg, ops[..i + 1]) == Next(cfg, Exec(cfg, ops[..i]), ops[i])
    ensures Inv(Exec(cfg, ops[..i]), false) && c in Exec(cfg, ops[..i]).inflight
    ensures !Done(Exec(cfg, ops[..i]).steps, p, s) && p != c
    ensures StillSuspends(Exec(cfg, ops[..i]), p, s, Replay.InvokeStep)
  {
    hide Exec, Next, Inv, ValidRun, StillSuspends;
    StepOfRun(cfg, ops, i);
    RunKeepsInv(cfg, ops, i, false);
    ParentWaits(Exec(cfg, ops[..i]), c, p, s);
    AskedNew(Exec(cfg, ops[..i]), p, s, Replay.InvokeStep);
  }

  /** The outcome ends the run with that error: it failed, a step of it failed for the last time, or
      it invoked a workflow nobody knows. */
  ghost predicate EndsInError(cfg: Configs, ops: seq<Op>, i: nat, c: RunId, o: Outcome, message: string)
    requires i < |ops| && c in Exec(cfg, ops[..i]).runs
  {
    || o == Fails(message)
    || (o.FailsStep? && o.error == message
        && StepRetries.FailuresOf(cfg, ops[..i + 1], c, o.step)
           >= StepRetries.Attempts(cfg, Exec(cfg, ops[..i]).runs[c].workflow))
    || (o.Invokes? && o.workflow !in cfg
        && message == "step '" + o.step + "': unknown workflow '" + o.workflow + "'")
  }

  /** A child ends in an error: from then on, for as long as the parent is stored, the parent's
      invocation throws exactly that error. */
  lemma ChildErrorIsSeen(cfg: Configs, ops: seq<Op>, i: nat, n: nat, c: RunId, p: RunId, s: StepId, o: Outcome,
                         message: string)
    requires ValidRun(cfg, ops) && i < n <= |ops|
    requires ChildEnds(cfg, ops, i, c, p, s, o) && EndsInError(cfg, ops, i, c, o, message)
    requires p in Exec(cfg, ops[..n]).runs
    ensures Sees(Exec(cfg, ops[..n]), p, s, Replay.InvokeStep, Replay.Throws(message))
  {
    hide Exec, Next, Inv, ValidRun, Sees, StillSuspends, Holds, Done, Replay.Decode, StepRetries.FailuresOf,
      StepRetries.Attempts;
    InChild(cfg, ops, i, c, p, s, o);
    ErrorHolds(cfg, ops, i, c, p, s, o, message);
    HoldsOn(cfg, ops, i, n, p, s, "invoke", Some(ErrorResult(message)));
    ErrorAnswers(message);
    SeesIff(Exec(cfg, ops[..n]), p, s, "invoke", Some(ErrorResult(message)), Replay.Throws(message));
  }

  lemma ErrorHolds(cfg: Configs, ops: seq<Op>, i: nat, c: RunId, p: RunId, s: StepId, o: Outcome, message: string)
    requires ValidRun(cfg, ops) && ChildEnds(cfg, ops, i, c, p, s, o) && EndsInError(cfg, ops, i, c, o, message)
    requires Exec(cfg, ops[..i + 1]) == Next(cfg, Exec(cfg, ops[..i]), ops[i])
    requires !Done(Exec(cfg, ops[..i]).steps, p, s) && p != c
    ensures Holds(Exec(cfg, ops[..i + 1]), p, s, "invoke", Some(ErrorResult(message)))
  {
    hide Exec, Inv, ValidRun, Holds, Done, StepRetries.FailuresOf, StepRetries.Attempts, FailRun;
    var e := Exec(cfg, ops[..i]);
    if o.FailsStep? {
      StepRetries.CountsReports(cfg, ops, i, c, o.step);
      StepRetries.FailuresUnfold(cfg, ops, i, c, o.step);
      LastFailureHolds(cfg, e, c, p, s, o.step, message);
    } else {
      FailHolds(e, c, p, s, message);
    }
    hide RetryStep;
    HoldsClosed(Apply(cfg, e, c, o), c, ops[i].acked, p, s, ErrorResult(message));
    hide Apply, CloseAttempt;
  }

  lemma HoldsClosed(e: Engine, c: RunId, acked: bool, p: RunId, s: StepId, result: Tokens)
    ensures Holds(CloseAttempt(e, c, acked), p, s, "invoke", Some(result)) <==> Holds(e, p, s, "invoke", Some(result))
  {
  }

  lemma LastFailureHolds(cfg: Configs, e: Engine, c: RunId, p: RunId, s: StepId, step: StepId, message: string)
    requires c in e.runs && e.runs[c].parent == Some((p, s)) && !Done(e.steps, p, s) && p != c
    requires StepRetries.Tried(e, c, step) + 1 >= StepRetries.Attempts(cfg, e.runs[c].workflow)
    ensures Holds(RetryStep(cfg, e, c, step, message), p, s, "invoke", Some(ErrorResult(message)))
  {
    var e1 := e.(steps := e.steps[c := CountFailure(JournalOf(e.steps, c), step)]);
    assert !Done(e1.steps, p, s);
    FailHolds(e1, c, p, s, message);
    assert CountFailure(JournalOf(e.steps, c), step)[step].attempts == StepRetries.Tried(e, c, step) + 1;
    hide FailRun, CountFailure, Holds, Done;
  }

  /** What a replayed invocation finds: the child it started before, already finished. */
  ghost predicate FindsFinished(cfg: Configs, e: Engine, p: RunId, s: StepId, workflow: string, c: RunId) {
    workflow in cfg && c in e.runs && e.runs[c].workflow == workflow && e.runs[c].idem == Some(InvokeKey(p, s))
    && Terminal(e.runs[c].status)
  }

  /** The text a finished child stands for. */
  function FinishedText(c: Run): Tokens {
    if c.status == Completed then OutputResult(if c.output.Some? then c.output.value else NullText)
    else ErrorResult(if c.error.Some? then c.error.value else "child run failed")
  }

  lemma ReuseHolds(cfg: Configs, e: Engine, p: RunId, s: StepId, workflow: string, c: RunId, acked: bool)
    requires Inv(e, false) && Legal(e, DoFinish(p, Invokes(s, workflow), acked))
    requires p in e.runs && e.runs[p].status != Cancelled && FindsFinished(cfg, e, p, s, workflow, c)
    ensures Holds(Next(cfg, e, DoFinish(p, Invokes(s, workflow), acked)), p, s, "invoke",
                  Some(FinishedText(e.runs[c])))
  {
    assert KeyTaken(e.runs, workflow, InvokeKey(p, s));
    assert KeysUnique(e.runs) && RunOfKey(e.runs, workflow, InvokeKey(p, s)) == c;
    hide Inv, RunOfKey, KeyTaken, KeysUnique;
  }

  /** A replayed invocation whose child has finished goes on with the child's output, or throws its
      error; a cancelled child has none of its own. */
  lemma ReplayedInvokeIsSeen(cfg: Configs, ops: seq<Op>, i: nat, n: nat, p: RunId, s: StepId, workflow: string, c: RunId,
                             j: Json)
    requires ValidRun(cfg, ops) && i < n <= |ops| && ops[i].DoFinish? && ops[i].run == p
    requires ops[i].outcome == Invokes(s, workflow) && FindsFinished(cfg, Exec(cfg, ops[..i]), p, s, workflow, c)
    requires p in Exec(cfg, ops[..i]).runs && Exec(cfg, ops[..i]).runs[p].status != Cancelled
    requires p in Exec(cfg, ops[..n]).runs
    ensures var child, e := Exec(cfg, ops[..i]).runs[c], Exec(cfg, ops[..n]);
      && (child.status == Completed && child.output == Some(Print(j)) ==>
            Sees(e, p, s, Replay.InvokeStep, Replay.Gives(Read(j))))
      && (child.status != Completed && child.error.Some? ==>
            Sees(e, p, s, Replay.InvokeStep, Replay.Throws(child.error.value)))
      && (child.status != Completed && child.error.None? ==>
            Sees(e, p, s, Replay.InvokeStep, Replay.Throws("child run failed")))
  {
    hide Exec, Next, Inv, Legal, ValidRun, Sees, Holds, Done, Replay.Decode, Read;
    StepOfRun(cfg, ops, i);
    RunKeepsInv(cfg, ops, i, false);
    var child := Exec(cfg, ops[..i]).runs[c];
    var text := FinishedText(child);
    ReuseHolds(cfg, Exec(cfg, ops[..i]), p, s, workflow, c, ops[i].acked);
    HoldsOn(cfg, ops, i, n, p, s, "invoke", Some(text));
    if child.status == Completed {
      OutputAnswers(j);
      SeesIff(Exec(cfg, ops[..n]), p, s, "invoke", Some(text), Replay.Gives(Read(j)));
    } else {
      var message := if child.error.Some? then child.error.value else "child run failed";
      ErrorAnswers(message);
      SeesIff(Exec(cfg, ops[..n]), p, s, "invoke", Some(text), Replay.Throws(message));
    }
  }

  // ---- Events, timeouts, sleeps and bodies ---------------------------------------------------------------

  /** A wait decided by an event goes on with its payload, for as long as the run is stored. */
  lemma EventIsSeen(cfg: Configs, ops: seq<Op>, i: nat, x: nat, n: nat, r: RunId, o: Outcome, v: Value)
    requires ValidRun(cfg, ops) && EventWaits.Parks(cfg, ops, i, r, o) && i < x < n <= |ops| && Write(v).Some?
    requires EventWaits.Undecided(cfg, ops, i, x, r, o) && EventWaits.Satisfies(ops[x], o)
    requires ops[x].payload == Print(Write(v).value) && r in Exec(cfg, ops[..n]).runs
    ensures StillSuspends(Exec(cfg, ops[..x]), r, o.step, Replay.WaitStep)
    ensures Sees(Exec(cfg, ops[..n]), r, o.step, Replay.WaitStep, Replay.Gives(Read(Write(v).value)))
    ensures Sees(Exec(cfg, ops[..n]), r, o.step, Replay.WaitStep, Replay.Gives(v)) <==> Plain(v)
  {
    hide Exec, ValidRun, Sees, StillSuspends, Done, Replay.Decode, Read, Write, Plain, EventWaits.Undecided;
    EventWaits.WaitLasts(cfg, ops, i, x, r, o);
    AskedNew(Exec(cfg, ops[..x]), r, o.step, Replay.WaitStep);
    EventWaits.FirstDecisionReleases(cfg, ops, i, x, n, r, o, EventResult(ops[x].payload));
    EventAnswers(Write(v).value);
    SurvivesIffPlain(v);
    var text := Some(EventResult(Print(Write(v).value)));
    SeesIff(Exec(cfg, ops[..n]), r, o.step, "waitForEvent", text, Replay.Gives(Read(Write(v).value)));
    SeesIff(Exec(cfg, ops[..n]), r, o.step, "waitForEvent", text, Replay.Gives(v));
  }

  /** A wait decided by its deadline goes on with null. */
  lemma TimeoutIsSeen(cfg: Configs, ops: seq<Op>, i: nat, x: nat, n: nat, r: RunId, o: Outcome)
    requires ValidRun(cfg, ops) && EventWaits.Parks(cfg, ops, i, r, o) && i < x < n <= |ops|
    requires EventWaits.Undecided(cfg, ops, i, x, r, o) && EventWaits.Expires(ops[x], o)
    requires r in Exec(cfg, ops[..n]).runs
    ensures Sees(Exec(cfg, ops[..n]), r, o.step, Replay.WaitStep, Replay.Gives(Null))
  {
    hide Exec, ValidRun, Sees, Done, Replay.Decode, EventWaits.Undecided;
    EventWaits.FirstDecisionReleases(cfg, ops, i, x, n, r, o, TimedOutResult);
    TimeoutAnswers();
    SeesIff(Exec(cfg, ops[..n]), r, o.step, "waitForEvent", Some(TimedOutResult), Replay.Gives(Null));
  }

  lemma SleepHolds(cfg: Configs, e: Engine, r: RunId, s: StepId, wakeAt: int, acked: bool)
    requires Legal(e, DoFinish(r, Sleeps(s, wakeAt), acked)) && r in e.runs && e.runs[r].status != Cancelled
    ensures !Done(e.steps, r, s) && Holds(Next(cfg, e, DoFinish(r, Sleeps(s, wakeAt), acked)), r, s, "sleep", None)
  {
  }

  /** A sleep suspends once, and from then on is over. */
  lemma SleepIsSeen(cfg: Configs, ops: seq<Op>, i: nat, n: nat, r: RunId, s: StepId, wakeAt: int)
    requires ValidRun(cfg, ops) && i < n <= |ops| && ops[i].DoFinish? && ops[i].run == r
    requires ops[i].outcome == Sleeps(s, wakeAt) && r in Exec(cfg, ops[..n]).runs
    requires r in Exec(cfg, ops[..i]).runs && Exec(cfg, ops[..i]).runs[r].status != Cancelled
    ensures StillSuspends(Exec(cfg, ops[..i]), r, s, Replay.SleepStep)
    ensures Sees(Exec(cfg, ops[..n]), r, s, Replay.SleepStep, Replay.Gives(Undefined))
  {
    hide Exec, Next, Legal, ValidRun, Sees, StillSuspends, Holds, Done;
    StepOfRun(cfg, ops, i);
    SleepHolds(cfg, Exec(cfg, ops[..i]), r, s, wakeAt, ops[i].acked);
    AskedNew(Exec(cfg, ops[..i]), r, s, Replay.SleepStep);
    HoldsOn(cfg, ops, i, n, r, s, "sleep", None);
    SeesIff(Exec(cfg, ops[..n]), r, s, "sleep", None, Replay.Gives(Undefined));
  }

  lemma RecordHolds(cfg: Configs, e: Engine, r: RunId, s: StepId, result: Tokens)
    requires !Done(e.steps, r, s)
    ensures Holds(Next(cfg, e, DoRecord(r, s, Some(result))), r, s, "run", Some(result))
  {
  }

  /** The result of a step body, once recorded, is what every later attempt reads back from JSON. */
  lemma BodyResultIsSeen(cfg: Configs, ops: seq<Op>, i: nat, n: nat, r: RunId, s: StepId, v: Value)
    requires ValidRun(cfg, ops) && i < n <= |ops| && Write(v).Some?
    requires ops[i] == DoRecord(r, s, Some(Print(Write(v).value))) && !Done(Exec(cfg, ops[..i]).steps, r, s)
    requires r in Exec(cfg, ops[..n]).runs
    ensures Loaded(JournalOf(Exec(cfg, ops[..n]).steps, r)).Keys >= {s}
    ensures Loaded(JournalOf(Exec(cfg, ops[..n]).steps, r))[s] == Replay.RunEntry(v)
    ensures Sees(Exec(cfg, ops[..n]), r, s, Replay.RunStep, Replay.Gives(v)) <==> Plain(v)
  {
    hide Exec, Next, ValidRun, Sees, Replay.Decode, Read, Write, Plain;
    StepOfRun(cfg, ops, i);
    RecordHolds(cfg, Exec(cfg, ops[..i]), r, s, Print(Write(v).value));
    HoldsOn(cfg, ops, i, n, r, s, "run", Some(Print(Write(v).value)));
    SurvivesIffPlain(v);
    SeesIff(Exec(cfg, ops[..n]), r, s, "run", Some(Print(Write(v).value)), Replay.Gives(v));
  }
}
