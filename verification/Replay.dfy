/** Step memoization: attempts of a deterministic workflow over a shared journal. */
module Replay {
  import opened Orders
  import opened JsonValues
  import opened JsonText
  import Runs

  type StepId = Runs.StepId

  datatype Kind = RunStep | SleepStep | WaitStep | InvokeStep

  /** A journal row: the kind of the step, and the JSON text of its result, if any. */
  datatype Entry = Entry(kind: Kind, result: Option<Tokens>)

  type Journal = map<StepId, Entry>

  /** What a step call gives back to the workflow code. */
  datatype Answer = Gives(value: Value) | Throws(message: string)

  datatype Action = Call(id: StepId, kind: Kind) | Return(value: Value) | Throw(message: string)

  /** A deterministic workflow: the answers so far determine what it does next. */
  type Workflow = seq<Answer> -> Action

  /** How a step body behaves when it is run; the process may die inside it. */
  datatype Body = Returns(value: Value) | Raises(message: string) | Dies

  datatype Outcome =
    | Completed(output: Json)
    | Failed(message: string)
    | Suspended(id: StepId, kind: Kind)
    | StepFailed(id: StepId, message: string)
    | Crashed

  /** The journal an attempt leaves, how it ended, and the step bodies it started. */
  datatype Attempted = Attempted(journal: Journal, outcome: Outcome, started: seq<StepId>)

  const NotJson := "not JSON"
  const EmptyObject: Tokens := [OpenBrace, CloseBrace]

  predicate Truthy(j: Json) {
    match j
    case JNull => false
    case JBool(b) => b
    case JNumber(n) => n != 0.0
    case JText(s) => s != ""
    case _ => true
  }

  /** A missing field reads as undefined. */
  function ReadMember(j: Json, name: string): Value {
    match Member(j, name)
    case Some(field) => Read(field)
    case None => Undefined
  }

  /** The message of an error made from a field: its text. */
  function MessageOf(j: Json): string { if j.JText? then j.s else "" }

  /** What a journaled step answers on fast-forward. Text that is not JSON throws, and so does
      taking a field of null. */
  function Decode(e: Entry): Answer {
    if e.kind == SleepStep || (e.kind == RunStep && e.result.None?) then Gives(Undefined)
    else
      match ParseText(if e.result.Some? then e.result.value else EmptyObject)
      case None => Throws(NotJson)
      case Some(j) =>
        if e.kind == RunStep then Gives(Read(j))
        else if j == JNull then Throws(NotJson)
        else if e.kind == WaitStep then
          var timedOut := Member(j, "timedOut");
          Gives(if timedOut.Some? && Truthy(timedOut.value) then Null else ReadMember(j, "event"))
        else
          match Member(j, "error")
          case Some(error) => Throws(MessageOf(error))
          case None => Gives(ReadMember(j, "output"))
  }

  /** A completed entry is never overwritten. */
  function Record(j: Journal, id: StepId, e: Entry): Journal { if id in j then j else j[id := e] }

  function DuplicateId(id: StepId): string { "duplicate step id \"" + id + "\"" }

  function ChangedKind(id: StepId): string { "step \"" + id + "\" changed kind" }

  function CannotWrite(id: StepId): string { "cannot write the result of \"" + id + "\"" }

  /** How an attempt ends that returns `v`. */
  function Returned(v: Value): Outcome { if Write(v).Some? then Completed(Write(v).value) else Failed(CannotWrite("")) }

  /** The attempt ended on the body of `id`: it failed, or its result cannot be written. */
  predicate EndsOn(o: Outcome, id: StepId) { (o.StepFailed? && o.id == id) || o == Failed(CannotWrite(id)) }

  /** What the workflow's next action does to the attempt: end it, replay a journaled step,
      or run a step body to its value. */
  datatype Move =
    | End(outcome: Outcome, started: seq<StepId>)
    | Replayed(id: StepId, answer: Answer)
    | Ran(id: StepId, value: Value)

  function NextMove(wf: Workflow, snapshot: Journal, answers: seq<Answer>, used: set<StepId>,
                    bodies: seq<Body>): (m: Move)
    ensures m.Replayed? ==> m.id in snapshot && m.id !in used
    ensures m.Ran? ==> m.id !in snapshot && m.id !in used && bodies != [] && bodies[0] == Returns(m.value)
    ensures m.Ran? ==> Write(m.value).Some?
    ensures m.End? && m.started != [] ==>
      |m.started| == 1 && m.started[0] !in snapshot && m.started[0] !in used
      && (m.outcome.Crashed? || EndsOn(m.outcome, m.started[0]))
  {
    match wf(answers)
    case Return(v) => End(Returned(v), [])
    case Throw(message) => End(Failed(message), [])
    case Call(id, kind) =>
      if id in used then End(Failed(DuplicateId(id)), [])
      else if id in snapshot then
        if snapshot[id].kind != kind then End(Failed(ChangedKind(id)), []) else Replayed(id, Decode(snapshot[id]))
      else if kind != RunStep then End(Suspended(id, kind), [])
      else if bodies == [] then End(Crashed, [])
      else
        match bodies[0]
        case Dies => End(Crashed, [id])
        case Raises(message) => End(StepFailed(id, message), [id])
        case Returns(v) => if Write(v).Some? then Ran(id, v) else End(Failed(CannotWrite(id)), [id])
  }

  /** The row `step.run` records for a body that returned `v`: on replay it answers the value that
      reading `v` back from JSON gives. */
  function RunEntry(v: Value): (e: Entry)
    requires Write(v).Some?
    ensures e.kind == RunStep && Decode(e) == Gives(Read(Write(v).value))
  {
    ParsePrint(Write(v).value);
    Entry(RunStep, Some(Print(Write(v).value)))
  }

  function After(id: StepId, rest: Attempted): Attempted { rest.(started := [id] + rest.started) }

  /** The journal once others have recorded what they do before the next move: a completed entry
      is never overwritten. */
  function Merged(store: Journal, others: seq<Journal>): Journal { if others == [] then store else others[0] + store }

  function Later(others: seq<Journal>): seq<Journal> { if others == [] then [] else others[1..] }

  /** One attempt amid others: `snapshot` is the journal loaded at its start, `store` the persisted
      one, `others` what others record before each of its moves, `bodies` the behaviour of the
      step bodies it runs, the process dying when they run out. */
  function AttemptAmid(wf: Workflow, snapshot: Journal, store: Journal, answers: seq<Answer>, used: set<StepId>,
                       bodies: seq<Body>, others: seq<Journal>)
    : Attempted
    decreases |bodies|, |snapshot.Keys - used|
  {
    var now := Merged(store, others);
    match NextMove(wf, snapshot, answers, used, bodies)
    case End(outcome, started) => Attempted(now, outcome, started)
    case Replayed(id, answer) =>
      Shrinks(snapshot.Keys, used, id);
      AttemptAmid(wf, snapshot, now, answers + [answer], used + {id}, bodies, Later(others))
    case Ran(id, v) =>
      After(id, AttemptAmid(wf, snapshot, Record(now, id, RunEntry(v)), answers + [Gives(v)], used + {id}, bodies[1..],
                            Later(others)))
  }

  /** One attempt while nobody else records anything. */
  function Attempt(wf: Workflow, snapshot: Journal, store: Journal, answers: seq<Answer>, used: set<StepId>,
                   bodies: seq<Body>)
    : Attempted
  {
    AttemptAmid(wf, snapshot, store, answers, used, bodies, [])
  }

  lemma Shrinks<T>(keys: set<T>, used: set<T>, id: T)
    requires id in keys && id !in used
    ensures |keys - (used + {id})| < |keys - used|
  {
    assert keys - used == (keys - (used + {id})) + {id};
  }

  /** One uninterrupted evaluation in which every step is answered by the journal `j`; it
      stops at a step the journal does not answer. */
  function Evaluate(wf: Workflow, j: Journal, answers: seq<Answer>, used: set<StepId>): Outcome
    decreases |j.Keys - used|
  {
    match wf(answers)
    case Return(v) => Returned(v)
    case Throw(message) => Failed(message)
    case Call(id, kind) =>
      if id in used then Failed(DuplicateId(id))
      else if id !in j then Suspended(id, kind)
      else if j[id].kind != kind then Failed(ChangedKind(id))
      else
        Shrinks(j.Keys, used, id);
        Evaluate(wf, j, answers + [Decode(j[id])], used + {id})
  }

  ghost predicate Extends(j: Journal, j': Journal) {
    forall id | id in j :: id in j' && j'[id] == j[id]
  }

  predicate AllSurvive(bodies: seq<Body>) { forall b | b in bodies && b.Returns? :: Survives(b.value) }

  /** The attempt sees the persisted journal as it is: no other attempt overlaps it. */
  ghost predicate InStep(snapshot: Journal, store: Journal, used: set<StepId>) {
    Extends(snapshot, store) && forall id | id in store && id !in used :: id in snapshot
  }

  // ---- One attempt ----------------------------------------------------------------------------------

  ghost predicate Distinct(s: seq<StepId>) { forall i, j | 0 <= i < j < |s| :: s[i] != s[j] }

  /** An attempt only adds entries, it starts only bodies the journal does not hold, and none twice. */
  ghost predicate Adds(t: Attempted, snapshot: Journal, store: Journal, used: set<StepId>) {
    Extends(store, t.journal) && Distinct(t.started) && forall id | id in t.started :: id !in snapshot && id !in used
  }

  /** A body an attempt starts gets journaled, or the attempt ends on it: failed or dead. */
  predicate Accounted(t: Attempted, store: Journal, id: StepId) {
    id in t.started ==>
      (id !in store && id in t.journal) || t.outcome.Crashed? || EndsOn(t.outcome, id)
  }

  /** One turn of an attempt amid others. */
  lemma AmidUnfold(wf: Workflow, snapshot: Journal, store: Journal, answers: seq<Answer>, used: set<StepId>,
                   bodies: seq<Body>, others: seq<Journal>)
    ensures var t, m := AttemptAmid(wf, snapshot, store, answers, used, bodies, others),
                        NextMove(wf, snapshot, answers, used, bodies);
      var now, later := Merged(store, others), Later(others);
      && (m.End? ==> t == Attempted(now, m.outcome, m.started))
      && (m.Replayed? ==>
            t == AttemptAmid(wf, snapshot, now, answers + [m.answer], used + {m.id}, bodies, later)
            && |snapshot.Keys - (used + {m.id})| < |snapshot.Keys - used|)
      && (m.Ran? ==>
            t == After(m.id, AttemptAmid(wf, snapshot, Record(now, m.id, RunEntry(m.value)), answers + [Gives(m.value)],
                                         used + {m.id}, bodies[1..], later)))
  {
    var m := NextMove(wf, snapshot, answers, used, bodies);
    if m.Replayed? {
      Shrinks(snapshot.Keys, used, m.id);
    }
    hide NextMove, Merged, Later;
  }

  /** One turn of an attempt. */
  lemma AttemptUnfold(wf: Workflow, snapshot: Journal, store: Journal, answers: seq<Answer>, used: set<StepId>,
                      bodies: seq<Body>)
    ensures var t, m := Attempt(wf, snapshot, store, answers, used, bodies),
      NextMove(wf, snapshot, answers, used, bodies);
      && (m.End? ==> t == Attempted(store, m.outcome, m.started))
      && (m.Replayed? ==>
            t == Attempt(wf, snapshot, store, answers + [m.answer], used + {m.id}, bodies)
            && |snapshot.Keys - (used + {m.id})| < |snapshot.Keys - used|)
      && (m.Ran? ==>
            t == After(m.id, Attempt(wf, snapshot, Record(store, m.id, RunEntry(m.value)), answers + [Gives(m.value)],
                                     used + {m.id}, bodies[1..])))
  {
    hide AttemptAmid, NextMove, Record;
    AmidUnfold(wf, snapshot, store, answers, used, bodies, []);
  }

  lemma InStepAfterUse(snapshot: Journal, store: Journal, used: set<StepId>, id: StepId)
    requires InStep(snapshot, store, used)
    ensures InStep(snapshot, store, used + {id})
  {
  }

  lemma InStepAfterRecord(snapshot: Journal, store: Journal, used: set<StepId>, id: StepId, e: Entry)
    requires InStep(snapshot, store, used) && id !in snapshot && id !in used
    ensures id !in store && InStep(snapshot, Record(store, id, e), used + {id})
  {
  }

  lemma AddsAfter(rest: Attempted, snapshot: Journal, store: Journal, used: set<StepId>, id: StepId, e: Entry)
    requires id !in snapshot && id !in used && id !in store && Adds(rest, snapshot, Record(store, id, e), used + {id})
    ensures Adds(After(id, rest), snapshot, store, used)
    ensures id in rest.journal && id !in rest.started
  {
    assert Record(store, id, e)[id] == e;
  }

  lemma AddsUsed(t: Attempted, snapshot: Journal, store: Journal, used: set<StepId>, id: StepId)
    requires Adds(t, snapshot, store, used + {id})
    ensures Adds(t, snapshot, store, used)
  {
  }

  lemma EndAdds(m: Move, snapshot: Journal, store: Journal, used: set<StepId>)
    requires m.End? && |m.started| <= 1
    requires m.started != [] ==> m.started[0] !in snapshot && m.started[0] !in used
    ensures Adds(Attempted(store, m.outcome, m.started), snapshot, store, used)
  {
  }

  lemma EndAccounted(m: Move, store: Journal, id: StepId)
    requires m.End? && |m.started| <= 1
    requires m.started != [] ==> m.outcome.Crashed? || EndsOn(m.outcome, m.started[0])
    ensures Accounted(Attempted(store, m.outcome, m.started), store, id)
  {
  }

  lemma AccountedAfter(rest: Attempted, store: Journal, call: StepId, e: Entry, id: StepId)
    requires Accounted(rest, Record(store, call, e), id) && call in rest.journal && call !in store
    ensures Accounted(After(call, rest), store, id)
  {
  }

  lemma {:induction false} AttemptOnlyAdds(wf: Workflow, snapshot: Journal, store: Journal, answers: seq<Answer>,
                                           used: set<StepId>, bodies: seq<Body>)
    requires InStep(snapshot, store, used)
    ensures Adds(Attempt(wf, snapshot, store, answers, used, bodies), snapshot, store, used)
    decreases |bodies|, |snapshot.Keys - used|
  {
    AttemptUnfold(wf, snapshot, store, answers, used, bodies);
    hide NextMove, Attempt, InStep, Adds, Record;
    var m := NextMove(wf, snapshot, answers, used, bodies);
    match m
    case End(_, _) => EndAdds(m, snapshot, store, used);
    case Replayed(id, answer) =>
      InStepAfterUse(snapshot, store, used, id);
      AttemptOnlyAdds(wf, snapshot, store, answers + [answer], used + {id}, bodies);
      AddsUsed(Attempt(wf, snapshot, store, answers + [answer], used + {id}, bodies), snapshot, store, used, id);
    case Ran(id, v) =>
      var store', answers' := Record(store, id, RunEntry(v)), answers + [Gives(v)];
      InStepAfterRecord(snapshot, store, used, id, RunEntry(v));
      AttemptOnlyAdds(wf, snapshot, store', answers', used + {id}, bodies[1..]);
      AddsAfter(Attempt(wf, snapshot, store', answers', used + {id}, bodies[1..]), snapshot, store, used, id,
        RunEntry(v));
  }

  lemma {:induction false} StartedIsAccounted(wf: Workflow, snapshot: Journal, store: Journal, answers: seq<Answer>,
                                              used: set<StepId>, bodies: seq<Body>, id: StepId)
    requires InStep(snapshot, store, used)
    ensures Accounted(Attempt(wf, snapshot, store, answers, used, bodies), store, id)
    decreases |bodies|, |snapshot.Keys - used|
  {
    AttemptUnfold(wf, snapshot, store, answers, used, bodies);
    hide NextMove, Attempt, InStep, Adds, Record, After, Accounted;
    var m := NextMove(wf, snapshot, answers, used, bodies);
    match m
    case End(_, _) => EndAccounted(m, store, id);
    case Replayed(call, answer) =>
      InStepAfterUse(snapshot, store, used, call);
      StartedIsAccounted(wf, snapshot, store, answers + [answer], used + {call}, bodies, id);
    case Ran(call, v) =>
      var store', answers' := Record(store, call, RunEntry(v)), answers + [Gives(v)];
      InStepAfterRecord(snapshot, store, used, call, RunEntry(v));
      AttemptOnlyAdds(wf, snapshot, store', answers', used + {call}, bodies[1..]);
      AddsAfter(Attempt(wf, snapshot, store', answers', used + {call}, bodies[1..]), snapshot, store, used, call,
        RunEntry(v));
      StartedIsAccounted(wf, snapshot, store', answers', used + {call}, bodies[1..], id);
      AccountedAfter(Attempt(wf, snapshot, store', answers', used + {call}, bodies[1..]), store, call, RunEntry(v), id);
  }

  /** The entry answers exactly as the value the attempt went on with. */
  predicate Answers(e: Entry, v: Value) { e.kind == RunStep && Decode(e) == Gives(v) }

  /** Each turn of an attempt is a turn of the evaluation over any journal extending its snapshot. */
  lemma MoveIsEvaluated(wf: Workflow, snapshot: Journal, answers: seq<Answer>, used: set<StepId>, bodies: seq<Body>,
                        final: Journal)
    requires Extends(snapshot, final)
    ensures var out, m := Evaluate(wf, final, answers, used), NextMove(wf, snapshot, answers, used, bodies);
      && (m.End? && m.started == [] && (m.outcome.Completed? || m.outcome.Failed?) ==> out == m.outcome)
      && (m.Replayed? ==> out == Evaluate(wf, final, answers + [m.answer], used + {m.id}))
      && (m.Ran? && m.id in final && Answers(final[m.id], m.value) ==>
            out == Evaluate(wf, final, answers + [Gives(m.value)], used + {m.id}))
  {
  }

  // ---- Attempts that may overlap ------------------------------------------------------------------------

  /** What the journal holds for the step once `v` is recorded answers exactly `v`. */
  predicate Kept(store: Journal, id: StepId, v: Value) {
    Write(v).Some? && Answers(if id in store then store[id] else RunEntry(v), v)
  }

  /** Every result the attempt goes on with is the one the journal keeps. */
  ghost predicate Agrees(wf: Workflow, snapshot: Journal, store: Journal, answers: seq<Answer>, used: set<StepId>,
                         bodies: seq<Body>, others: seq<Journal>)
    decreases |bodies|, |snapshot.Keys - used|
  {
    var now := Merged(store, others);
    match NextMove(wf, snapshot, answers, used, bodies)
    case End(outcome, started) => outcome.Failed? ==> started == []
    case Replayed(id, answer) =>
      Shrinks(snapshot.Keys, used, id);
      Agrees(wf, snapshot, now, answers + [answer], used + {id}, bodies, Later(others))
    case Ran(id, v) =>
      && Kept(now, id, v)
      && Agrees(wf, snapshot, Record(now, id, RunEntry(v)), answers + [Gives(v)], used + {id}, bodies[1..],
                Later(others))
  }

  lemma AgreesUnfold(wf: Workflow, snapshot: Journal, store: Journal, answers: seq<Answer>, used: set<StepId>,
                     bodies: seq<Body>, others: seq<Journal>)
    ensures var a, m := Agrees(wf, snapshot, store, answers, used, bodies, others),
                        NextMove(wf, snapshot, answers, used, bodies);
      var now, later := Merged(store, others), Later(others);
      && (m.End? ==> (a <==> (m.outcome.Failed? ==> m.started == [])))
      && (m.Replayed? ==> (a <==> Agrees(wf, snapshot, now, answers + [m.answer], used + {m.id}, bodies, later)))
      && (m.Ran? ==> (a <==> Kept(now, m.id, m.value)
                             && Agrees(wf, snapshot, Record(now, m.id, RunEntry(m.value)), answers + [Gives(m.value)],
                                       used + {m.id}, bodies[1..], later)))
  {
    hide NextMove, Kept, Merged, Later;
  }

  lemma ExtendsRecord(store: Journal, id: StepId, e: Entry, j: Journal)
    requires Extends(Record(store, id, e), j)
    ensures Extends(store, j) && id in j && j[id] == if id in store then store[id] else e
  {
    assert id in Record(store, id, e);
  }

  lemma RecordExtends(snapshot: Journal, store: Journal, id: StepId, e: Entry)
    requires Extends(snapshot, store)
    ensures Extends(snapshot, Record(store, id, e))
  {
  }

  lemma MergedExtends(store: Journal, others: seq<Journal>)
    ensures Extends(store, Merged(store, others))
  {
  }

  /** Whatever the snapshot and the others, an attempt only adds entries. */
  lemma {:induction false} AttemptExtends(wf: Workflow, snapshot: Journal, store: Journal, answers: seq<Answer>,
                                          used: set<StepId>, bodies: seq<Body>, others: seq<Journal>)
    ensures var t := AttemptAmid(wf, snapshot, store, answers, used, bodies, others);
      Extends(store, t.journal) && Extends(Merged(store, others), t.journal)
    decreases |bodies|, |snapshot.Keys - used|
  {
    hide NextMove, AttemptAmid, Record, Merged, Later, Extends;
    AmidUnfold(wf, snapshot, store, answers, used, bodies, others);
    var now, later, t := Merged(store, others), Later(others),
                         AttemptAmid(wf, snapshot, store, answers, used, bodies, others);
    MergedExtends(store, others);
    match NextMove(wf, snapshot, answers, used, bodies)
    case End(_, _) => ExtendsSelf(now);
    case Replayed(id, answer) =>
      AttemptExtends(wf, snapshot, now, answers + [answer], used + {id}, bodies, later);
      ExtendsTrans(store, now, t.journal);
    case Ran(id, v) =>
      var store', answers' := Record(now, id, RunEntry(v)), answers + [Gives(v)];
      AttemptExtends(wf, snapshot, store', answers', used + {id}, bodies[1..], later);
      ExtendsRecord(now, id, RunEntry(v), t.journal);
      ExtendsTrans(store, now, t.journal);
  }

  lemma ExtendsSelf(j: Journal)
    ensures Extends(j, j)
  {
  }

  /** An attempt that ends by itself ends as the uninterrupted evaluation over any later journal,
      however stale its snapshot and whatever others record meanwhile, if the journal keeps the
      results it goes on with. */
  lemma {:induction false} AgreeingAttemptIsEvaluation(wf: Workflow, snapshot: Journal, store: Journal,
                                                       answers: seq<Answer>, used: set<StepId>, bodies: seq<Body>,
                                                       others: seq<Journal>, final: Journal)
    requires Extends(snapshot, store) && Agrees(wf, snapshot, store, answers, used, bodies, others)
    requires Extends(AttemptAmid(wf, snapshot, store, answers, used, bodies, others).journal, final)
    ensures var o := AttemptAmid(wf, snapshot, store, answers, used, bodies, others).outcome;
      o.Completed? || o.Failed? ==> Evaluate(wf, final, answers, used) == o
    decreases |bodies|, |snapshot.Keys - used|
  {
    hide NextMove, AttemptAmid, Agrees, Record, Evaluate, Answers, Merged, Later, Extends;
    AmidUnfold(wf, snapshot, store, answers, used, bodies, others);
    AgreesUnfold(wf, snapshot, store, answers, used, bodies, others);
    var now, later, t := Merged(store, others), Later(others),
                         AttemptAmid(wf, snapshot, store, answers, used, bodies, others);
    AttemptExtends(wf, snapshot, store, answers, used, bodies, others);
    MergedExtends(store, others);
    ExtendsTrans(snapshot, store, now);
    ExtendsTrans(snapshot, now, t.journal);
    ExtendsTrans(snapshot, t.journal, final);
    MoveIsEvaluated(wf, snapshot, answers, used, bodies, final);
    match NextMove(wf, snapshot, answers, used, bodies)
    case End(_, _) =>
    case Replayed(id, answer) =>
      AgreeingAttemptIsEvaluation(wf, snapshot, now, answers + [answer], used + {id}, bodies, later, final);
    case Ran(id, v) =>
      var store', answers' := Record(now, id, RunEntry(v)), answers + [Gives(v)];
      AttemptExtends(wf, snapshot, store', answers', used + {id}, bodies[1..], later);
      ExtendsTrans(store', t.journal, final);
      ExtendsRecord(now, id, RunEntry(v), final);
      RecordExtends(snapshot, now, id, RunEntry(v));
      AgreeingAttemptIsEvaluation(wf, snapshot, store', answers', used + {id}, bodies[1..], later, final);
  }

  /** Without overlap, surviving results are kept. */
  lemma {:induction false} InStepAgrees(wf: Workflow, snapshot: Journal, store: Journal, answers: seq<Answer>,
                                        used: set<StepId>, bodies: seq<Body>)
    requires InStep(snapshot, store, used) && AllSurvive(bodies)
    ensures Agrees(wf, snapshot, store, answers, used, bodies, [])
    decreases |bodies|, |snapshot.Keys - used|
  {
    hide Agrees, Attempt, InStep, Record;
    AttemptUnfold(wf, snapshot, store, answers, used, bodies);
    AgreesUnfold(wf, snapshot, store, answers, used, bodies, []);
    MoveIsWritten(wf, snapshot, answers, used, bodies);
    hide NextMove;
    match NextMove(wf, snapshot, answers, used, bodies)
    case End(_, _) =>
    case Replayed(id, answer) =>
      InStepAfterUse(snapshot, store, used, id);
      InStepAgrees(wf, snapshot, store, answers + [answer], used + {id}, bodies);
    case Ran(id, v) =>
      InStepAfterRecord(snapshot, store, used, id, RunEntry(v));
      assert bodies[0] in bodies && forall b | b in bodies[1..] :: b in bodies;
      InStepAgrees(wf, snapshot, Record(store, id, RunEntry(v)), answers + [Gives(v)], used + {id}, bodies[1..]);
  }

  lemma MoveIsWritten(wf: Workflow, snapshot: Journal, answers: seq<Answer>, used: set<StepId>, bodies: seq<Body>)
    requires AllSurvive(bodies)
    ensures var m := NextMove(wf, snapshot, answers, used, bodies); m.End? && m.outcome.Failed? ==> m.started == []
  {
    assert bodies != [] ==> bodies[0] in bodies;
  }

  /** Without overlap and with results that survive, an attempt that ends by itself ends as the
      uninterrupted evaluation over any later journal. */
  lemma AttemptIsEvaluation(wf: Workflow, snapshot: Journal, store: Journal, answers: seq<Answer>,
                            used: set<StepId>, bodies: seq<Body>, final: Journal)
    requires InStep(snapshot, store, used) && AllSurvive(bodies)
    requires Extends(Attempt(wf, snapshot, store, answers, used, bodies).journal, final)
    ensures var o := Attempt(wf, snapshot, store, answers, used, bodies).outcome;
      o.Completed? || o.Failed? ==> Evaluate(wf, final, answers, used) == o
  {
    hide AttemptAmid, Evaluate, AllSurvive;
    InStepAgrees(wf, snapshot, store, answers, used, bodies);
    AgreeingAttemptIsEvaluation(wf, snapshot, store, answers, used, bodies, [], final);
  }

  // ---- Whole histories -----------------------------------------------------------------------------------

  /** An attempt of the run, or the engine recording a sleep, an event or a child result. */
  datatype Happening = Try(bodies: seq<Body>) | Note(id: StepId, entry: Entry)

  function TryOf(wf: Workflow, j: Journal, bodies: seq<Body>): Attempted { Attempt(wf, j, j, [], {}, bodies) }

  function JournalAfter(wf: Workflow, h: seq<Happening>): Journal {
    if h == [] then map[]
    else
      var j, last := JournalAfter(wf, h[..|h| - 1]), h[|h| - 1];
      match last
      case Try(bodies) => TryOf(wf, j, bodies).journal
      case Note(id, entry) => Record(j, id, entry)
  }

  /** What the attempt at position `i` did. */
  function TryAt(wf: Workflow, h: seq<Happening>, i: nat): Attempted
    requires i < |h| && h[i].Try?
  {
    TryOf(wf, JournalAfter(wf, h[..i]), h[i].bodies)
  }

  lemma StartInStep(j: Journal)
    ensures InStep(j, j, {})
  {
  }

  lemma ExtendsTrans(a: Journal, b: Journal, c: Journal)
    requires Extends(a, b) && Extends(b, c)
    ensures Extends(a, c)
  {
  }

  lemma HistoryUnfold(wf: Workflow, h: seq<Happening>, i: nat)
    requires i < |h|
    ensures JournalAfter(wf, h[..i + 1]) ==
      if h[i].Try? then TryAt(wf, h, i).journal else Record(JournalAfter(wf, h[..i]), h[i].id, h[i].entry)
  {
    assert h[..i + 1][..i] == h[..i];
    hide Attempt;
  }

  /** Recorded results never change, across any attempts and records. */
  lemma {:induction false} JournalOnlyGrows(wf: Workflow, h: seq<Happening>, i: nat, j: nat)
    requires i <= j <= |h|
    ensures Extends(JournalAfter(wf, h[..i]), JournalAfter(wf, h[..j]))
    decreases j - i
  {
    hide Attempt, JournalAfter;
    if i < j {
      var before := JournalAfter(wf, h[..j - 1]);
      JournalOnlyGrows(wf, h, i, j - 1);
      HistoryUnfold(wf, h, j - 1);
      if h[j - 1].Try? {
        StartInStep(before);
        AttemptOnlyAdds(wf, before, before, [], {}, h[j - 1].bodies);
      }
      ExtendsTrans(JournalAfter(wf, h[..i]), before, JournalAfter(wf, h[..j]));
    }
  }

  ghost predicate HistorySurvives(h: seq<Happening>) { forall e | e in h && e.Try? :: AllSurvive(e.bodies) }

  /** Memoized replay preserves meaning: an attempt that completes, after any crashes, step
      failures and suspensions, returns what one uninterrupted evaluation over the journal
      returns, at that point and for ever after. */
  lemma ReplayPreservesMeaning(wf: Workflow, h: seq<Happening>, i: nat, n: nat)
    requires HistorySurvives(h) && i < n <= |h| && h[i].Try?
    ensures var o := TryAt(wf, h, i).outcome;
      o.Completed? || o.Failed? ==> Evaluate(wf, JournalAfter(wf, h[..n]), [], {}) == o
  {
    assert AllSurvive(h[i].bodies);
    hide Attempt, JournalAfter, Evaluate, AllSurvive;
    var before := JournalAfter(wf, h[..i]);
    StartInStep(before);
    HistoryUnfold(wf, h, i);
    JournalOnlyGrows(wf, h, i + 1, n);
    AttemptIsEvaluation(wf, before, before, [], {}, h[i].bodies, JournalAfter(wf, h[..n]));
  }

  /** Any two attempts that end by themselves end the same way. */
  lemma AttemptsAgree(wf: Workflow, h: seq<Happening>, i: nat, k: nat)
    requires HistorySurvives(h) && i < |h| && k < |h| && h[i].Try? && h[k].Try?
    requires TryAt(wf, h, i).outcome.Completed? || TryAt(wf, h, i).outcome.Failed?
    requires TryAt(wf, h, k).outcome.Completed? || TryAt(wf, h, k).outcome.Failed?
    ensures TryAt(wf, h, i).outcome == TryAt(wf, h, k).outcome
  {
    hide *;
    ReplayPreservesMeaning(wf, h, i, |h|);
    ReplayPreservesMeaning(wf, h, k, |h|);
  }

  /** A journaled body never runs again. */
  lemma JournaledBodiesNeverRerun(wf: Workflow, h: seq<Happening>, i: nat, k: nat, id: StepId)
    requires i <= k < |h| && h[k].Try? && id in JournalAfter(wf, h[..i])
    ensures id !in TryAt(wf, h, k).started
  {
    hide Attempt, JournalAfter;
    var before := JournalAfter(wf, h[..k]);
    JournalOnlyGrows(wf, h, i, k);
    StartInStep(before);
    AttemptOnlyAdds(wf, before, before, [], {}, h[k].bodies);
  }

  function Count(b: bool): nat { if b then 1 else 0 }

  /** How often the body of `id` was started; how many attempts crashed; how many ended on it. */
  function BodyRuns(wf: Workflow, h: seq<Happening>, id: StepId): nat {
    if h == [] then 0
    else
      var n := |h| - 1;
      BodyRuns(wf, h[..n], id) + if h[n].Try? then multiset(TryAt(wf, h, n).started)[id] else 0
  }

  function Crashes(wf: Workflow, h: seq<Happening>): nat {
    if h == [] then 0
    else
      var n := |h| - 1;
      Crashes(wf, h[..n]) + Count(h[n].Try? && TryAt(wf, h, n).outcome.Crashed?)
  }

  function Failures(wf: Workflow, h: seq<Happening>, id: StepId): nat {
    if h == [] then 0
    else
      var n := |h| - 1;
      Failures(wf, h[..n], id)
      + Count(h[n].Try? && EndsOn(TryAt(wf, h, n).outcome, id))
  }

  lemma StartedCount(wf: Workflow, before: Journal, bodies: seq<Body>, id: StepId)
    ensures var t := TryOf(wf, before, bodies);
      multiset(t.started)[id] <= Count(id in t.journal && id !in before) + Count(t.outcome.Crashed?)
                                 + Count(EndsOn(t.outcome, id))
    ensures Extends(before, TryOf(wf, before, bodies).journal)
  {
    StartInStep(before);
    AttemptOnlyAdds(wf, before, before, [], {}, bodies);
    StartedIsAccounted(wf, before, before, [], {}, bodies, id);
    hide Attempt;
    DistinctCount(TryOf(wf, before, bodies).started, id);
  }

  lemma {:induction false} DistinctCount(s: seq<StepId>, id: StepId)
    requires Distinct(s)
    ensures multiset(s)[id] == Count(id in s)
  {
    if s != [] {
      DistinctCount(s[1..], id);
      assert s == [s[0]] + s[1..];
      assert s[0] !in s[1..];
    }
  }

  /** A step body runs at most once more than the crashes and the attempts that ended on it. */
  lemma {:induction false} BodyRunsBounded(wf: Workflow, h: seq<Happening>, id: StepId)
    ensures BodyRuns(wf, h, id) <= Count(id in JournalAfter(wf, h)) + Crashes(wf, h) + Failures(wf, h, id)
  {
    if h != [] {
      var n := |h| - 1;
      assert h[..n + 1] == h;
      BodyRunsBounded(wf, h[..n], id);
      HistoryUnfold(wf, h, n);
      if h[n].Try? {
        StartedCount(wf, JournalAfter(wf, h[..n]), h[n].bodies, id);
      }
      hide TryOf, JournalAfter;
    }
  }

  // ---- When replay is faithful ---------------------------------------------------------------------------

  ghost predicate FaithfulAt(wf: Workflow, h: seq<Happening>, i: nat, n: nat)
    requires i < n <= |h| && h[i].Try?
  {
    var o := TryAt(wf, h, i).outcome;
    o.Completed? || o.Failed? ==> Evaluate(wf, JournalAfter(wf, h[..n]), [], {}) == o
  }

  ghost predicate Faithful(wf: Workflow, h: seq<Happening>) {
    forall i, n | 0 <= i < n <= |h| && h[i].Try? :: FaithfulAt(wf, h, i, n)
  }

  /** Every body that returns in `h` returns `v`. */
  ghost predicate OnlyReturns(h: seq<Happening>, v: Value) {
    forall e | e in h && e.Try? :: forall b | b in e.bodies && b.Returns? :: b.value == v
  }

  /** Runs the step `id` and tells whether its answer is exactly `v`. */
  function Probe(id: StepId, v: Value): Workflow {
    (answers: seq<Answer>) => if answers == [] then Call(id, RunStep) else Return(Bool(answers[0] == Gives(v)))
  }

  /** The probe's attempt goes on with its own result. */
  lemma ProbeAttempt(id: StepId, v: Value, snapshot: Journal, store: Journal)
    requires id !in snapshot
    ensures Attempt(Probe(id, v), snapshot, store, [], {}, [Returns(v)])
            == if Write(v).Some? then Attempted(Record(store, id, RunEntry(v)), Completed(JBool(true)), [id])
               else Attempted(store, Failed(CannotWrite(id)), [id])
  {
    var wf, bodies := Probe(id, v), [Returns(v)];
    AttemptUnfold(wf, snapshot, store, [], {}, bodies);
    if Write(v).Some? {
      var answers := [] + [Gives(v)];
      AttemptUnfold(wf, snapshot, Record(store, id, RunEntry(v)), answers, {} + {id}, bodies[1..]);
      assert answers[0] == Gives(v);
    }
    hide Attempt;
  }

  /** Its evaluation answers by the journal. */
  lemma ProbeEvaluation(id: StepId, v: Value, j: Journal)
    ensures Evaluate(Probe(id, v), j, [], {})
            == if id !in j then Suspended(id, RunStep)
               else if j[id].kind != RunStep then Failed(ChangedKind(id))
               else Completed(JBool(Decode(j[id]) == Gives(v)))
  {
    if id in j && j[id].kind == RunStep {
      var answers := [] + [Decode(j[id])];
      assert answers[0] == Decode(j[id]);
      assert Evaluate(Probe(id, v), j, answers, {} + {id}) == Completed(JBool(Decode(j[id]) == Gives(v)));
    }
  }

  /** The probe is faithful exactly when the journal keeps its result. */
  lemma ProbeFaithfulIff(id: StepId, v: Value, snapshot: Journal, store: Journal)
    requires id !in snapshot
    ensures var t := Attempt(Probe(id, v), snapshot, store, [], {}, [Returns(v)]);
      && (t.outcome.Completed? || t.outcome.Failed?)
      && (Evaluate(Probe(id, v), t.journal, [], {}) == t.outcome <==> Kept(store, id, v))
  {
    hide Attempt, Evaluate;
    ProbeAttempt(id, v, snapshot, store);
    ProbeEvaluation(id, v, Attempt(Probe(id, v), snapshot, store, [], {}, [Returns(v)]).journal);
    assert CannotWrite(id)[0] == 'c' && ChangedKind(id)[0] == 's';
  }

  /** Replay is faithful for every workflow and history whose bodies return `v` exactly when `v` is
      plain data all the way down. */
  lemma ReplayFaithfulIff(v: Value)
    ensures (forall wf: Workflow, h: seq<Happening> | OnlyReturns(h, v) :: Faithful(wf, h)) <==> Plain(v)
  {
    SurvivesIffPlain(v);
    if Plain(v) {
      forall wf: Workflow, h: seq<Happening> | OnlyReturns(h, v) ensures Faithful(wf, h) {
        FaithfulForPlain(wf, h, v);
      }
    } else {
      UnfaithfulOtherwise(v);
    }
  }

  lemma FaithfulForPlain(wf: Workflow, h: seq<Happening>, v: Value)
    requires Survives(v) && OnlyReturns(h, v)
    ensures Faithful(wf, h)
  {
    assert HistorySurvives(h);
    hide TryAt, JournalAfter, Evaluate, HistorySurvives;
    forall i, n | 0 <= i < n <= |h| && h[i].Try? ensures FaithfulAt(wf, h, i, n) {
      ReplayPreservesMeaning(wf, h, i, n);
    }
  }

  lemma UnfaithfulOtherwise(v: Value)
    requires !Survives(v)
    ensures OnlyReturns([Try([Returns(v)])], v) && !Faithful(Probe("probe", v), [Try([Returns(v)])])
  {
    var h, wf := [Try([Returns(v)])], Probe("probe", v);
    ProbeFaithfulIff("probe", v, map[], map[]);
    HistoryUnfold(wf, h, 0);
    assert h[..0] == [] && h[..1] == h;
    hide Attempt, Evaluate;
    assert !FaithfulAt(wf, h, 0, 1);
  }

  /** An attempt on a possibly stale snapshot, amid others, ends as its evaluation over the journal
      it leaves. */
  ghost predicate FaithfulAttempt(wf: Workflow, snapshot: Journal, store: Journal, bodies: seq<Body>,
                                  others: seq<Journal>) {
    var t := AttemptAmid(wf, snapshot, store, [], {}, bodies, others);
    t.outcome.Completed? || t.outcome.Failed? ==> Evaluate(wf, t.journal, [], {}) == t.outcome
  }

  ghost predicate AllReturn(bodies: seq<Body>, ok: Value -> bool) {
    forall b | b in bodies && b.Returns? :: ok(b.value)
  }

  ghost predicate AllWrite(others: seq<Journal>, writes: (StepId, Entry) -> bool) {
    forall j | j in others :: forall id | id in j :: writes(id, j[id])
  }

  ghost predicate AllKept(snapshot: Journal, store: Journal, ok: Value -> bool) {
    forall id, v | id !in snapshot && ok(v) :: Kept(store, id, v)
  }

  /** What others may yet record answers as any result of the attempt's own. */
  ghost predicate WritesAgree(snapshot: Journal, store: Journal, ok: Value -> bool, writes: (StepId, Entry) -> bool) {
    forall id, e, v | id !in snapshot && id !in store && writes(id, e) && ok(v) :: Answers(e, v)
  }

  /** Overlapping attempts, in general: an attempt loads `snapshot` while others have brought the
      journal to `store`, and go on recording entries drawn from `writes` before its every move. For
      results drawn from `ok`, it is faithful for every workflow exactly when, for every step it may
      run, what the journal keeps, or others may still record first, answers exactly its own result. */
  lemma OverlapFaithfulIff(snapshot: Journal, store: Journal, ok: Value -> bool, writes: (StepId, Entry) -> bool)
    requires Extends(snapshot, store)
    ensures (forall wf: Workflow, bodies: seq<Body>, others: seq<Journal> |
               AllReturn(bodies, ok) && AllWrite(others, writes) ::
               FaithfulAttempt(wf, snapshot, store, bodies, others))
            <==> AllKept(snapshot, store, ok) && WritesAgree(snapshot, store, ok, writes)
  {
    if AllKept(snapshot, store, ok) && WritesAgree(snapshot, store, ok, writes) {
      forall wf: Workflow, bodies: seq<Body>, others: seq<Journal> | AllReturn(bodies, ok) && AllWrite(others, writes)
        ensures FaithfulAttempt(wf, snapshot, store, bodies, others)
      {
        KeptIsFaithful(wf, snapshot, store, bodies, others, ok, writes);
      }
    } else if !AllKept(snapshot, store, ok) {
      var id, v :| id !in snapshot && ok(v) && !Kept(store, id, v);
      ProbeFaithfulIff(id, v, snapshot, store);
      assert AllReturn([Returns(v)], ok) && AllWrite([], writes);
      assert !FaithfulAttempt(Probe(id, v), snapshot, store, [Returns(v)], []);
    } else {
      var id, e, v :| id !in snapshot && id !in store && writes(id, e) && ok(v) && !Answers(e, v);
      LateWriteIsUnfaithful(snapshot, store, id, e, v);
      assert AllReturn([Returns(v)], ok) && AllWrite([map[id := e]], writes);
    }
  }

  /** Others record another result of the step while its body runs. */
  lemma LateWriteIsUnfaithful(snapshot: Journal, store: Journal, id: StepId, e: Entry, v: Value)
    requires id !in snapshot && id !in store && !Answers(e, v)
    ensures !FaithfulAttempt(Probe(id, v), snapshot, store, [Returns(v)], [map[id := e]])
  {
    var now := map[id := e] + store;
    AmidUnfold(Probe(id, v), snapshot, store, [], {}, [Returns(v)], [map[id := e]]);
    AmidUnfold(Probe(id, v), snapshot, now, [], {}, [Returns(v)], []);
    assert Merged(store, [map[id := e]]) == now && Later([map[id := e]]) == [] && Merged(now, []) == now;
    hide AttemptAmid, NextMove, Evaluate;
    assert AttemptAmid(Probe(id, v), snapshot, store, [], {}, [Returns(v)], [map[id := e]])
      == Attempt(Probe(id, v), snapshot, now, [], {}, [Returns(v)]);
    ProbeFaithfulIff(id, v, snapshot, now);
  }

  lemma KeptIsFaithful(wf: Workflow, snapshot: Journal, store: Journal, bodies: seq<Body>, others: seq<Journal>,
                       ok: Value -> bool, writes: (StepId, Entry) -> bool)
    requires Extends(snapshot, store) && AllKept(snapshot, store, ok) && WritesAgree(snapshot, store, ok, writes)
    requires AllReturn(bodies, ok) && AllWrite(others, writes)
    ensures FaithfulAttempt(wf, snapshot, store, bodies, others)
  {
    hide AttemptAmid, Evaluate, Agrees, AllReturn, Kept, WritesAgree, AllWrite;
    ExtendsSelf(store);
    KeptAgrees(wf, snapshot, store, store, [], {}, bodies, others, ok, writes);
    var t := AttemptAmid(wf, snapshot, store, [], {}, bodies, others);
    ExtendsSelf(t.journal);
    AgreeingAttemptIsEvaluation(wf, snapshot, store, [], {}, bodies, others, t.journal);
  }

  /** What is not used yet is kept. */
  ghost predicate KeptAhead(snapshot: Journal, store: Journal, used: set<StepId>, ok: Value -> bool) {
    forall id, v | id !in snapshot && id !in used && ok(v) :: Kept(store, id, v)
  }

  lemma {:induction false} KeptAgrees(wf: Workflow, snapshot: Journal, base: Journal, store: Journal,
                                      answers: seq<Answer>, used: set<StepId>, bodies: seq<Body>, others: seq<Journal>,
                                      ok: Value -> bool, writes: (StepId, Entry) -> bool)
    requires KeptAhead(snapshot, store, used, ok) && AllReturn(bodies, ok) && AllWrite(others, writes)
    requires Extends(base, store) && WritesAgree(snapshot, base, ok, writes)
    ensures Agrees(wf, snapshot, store, answers, used, bodies, others)
    decreases |bodies|, |snapshot.Keys - used|
  {
    hide Agrees, AttemptAmid, Kept, Record, WritesAgree, AllWrite, Extends, Merged, Later, KeptAhead;
    var now, later := Merged(store, others), Later(others);
    AmidUnfold(wf, snapshot, store, answers, used, bodies, others);
    AgreesUnfold(wf, snapshot, store, answers, used, bodies, others);
    KeptAmid(snapshot, base, store, used, others, ok, writes);
    MergedExtends(store, others);
    ExtendsTrans(base, store, now);
    NoUnwritten(wf, snapshot, now, answers, used, bodies, ok);
    hide NextMove;
    match NextMove(wf, snapshot, answers, used, bodies)
    case End(_, _) =>
    case Replayed(id, answer) =>
      KeptUsed(snapshot, now, used, ok, id);
      KeptAgrees(wf, snapshot, base, now, answers + [answer], used + {id}, bodies, later, ok, writes);
    case Ran(id, v) =>
      assert bodies[0] in bodies && forall b | b in bodies[1..] :: b in bodies;
      KeptAfter(snapshot, now, used, ok, id, v);
      RecordExtends(base, now, id, RunEntry(v));
      KeptAgrees(wf, snapshot, base, Record(now, id, RunEntry(v)), answers + [Gives(v)], used + {id}, bodies[1..],
                 later, ok, writes);
  }

  lemma KeptAmid(snapshot: Journal, base: Journal, store: Journal, used: set<StepId>, others: seq<Journal>,
                 ok: Value -> bool, writes: (StepId, Entry) -> bool)
    requires KeptAhead(snapshot, store, used, ok) && AllWrite(others, writes)
    requires Extends(base, store) && WritesAgree(snapshot, base, ok, writes)
    ensures KeptAhead(snapshot, Merged(store, others), used, ok) && AllWrite(Later(others), writes)
  {
    var now := Merged(store, others);
    forall x, w | x !in snapshot && x !in used && ok(w) ensures Kept(now, x, w) {
      assert Kept(store, x, w);
      if x in now && x !in store {
        assert others[0] in others && writes(x, now[x]);
      }
    }
    assert forall j | j in Later(others) :: j in others;
  }

  lemma KeptUsed(snapshot: Journal, store: Journal, used: set<StepId>, ok: Value -> bool, id: StepId)
    requires KeptAhead(snapshot, store, used, ok)
    ensures KeptAhead(snapshot, store, used + {id}, ok)
  {
    hide Kept;
  }

  lemma KeptAfter(snapshot: Journal, store: Journal, used: set<StepId>, ok: Value -> bool, id: StepId, v: Value)
    requires KeptAhead(snapshot, store, used, ok) && Write(v).Some?
    ensures KeptAhead(snapshot, Record(store, id, RunEntry(v)), used + {id}, ok)
    ensures id !in snapshot && id !in used && ok(v) ==> Kept(store, id, v)
  {
    forall x, w | x !in snapshot && x !in used + {id} && ok(w) ensures Kept(Record(store, id, RunEntry(v)), x, w) {
      assert Kept(store, x, w);
    }
  }

  lemma NoUnwritten(wf: Workflow, snapshot: Journal, store: Journal, answers: seq<Answer>, used: set<StepId>,
                    bodies: seq<Body>, ok: Value -> bool)
    requires KeptAhead(snapshot, store, used, ok) && AllReturn(bodies, ok)
    ensures var m := NextMove(wf, snapshot, answers, used, bodies); m.End? && m.outcome.Failed? ==> m.started == []
  {
    var action := wf(answers);
    if bodies != [] && bodies[0].Returns? && action.Call? && action.id !in snapshot && action.id !in used {
      assert bodies[0] in bodies;
      assert Kept(store, action.id, bodies[0].value);
    }
  }

  // ---- The step object and the attempt loop ----------------------------------------------------------------

  datatype Claimed = Refused(message: string) | Known(entry: Entry) | Unknown

  /** The object handed to the workflow function for one attempt. */
  class Step {
    const journal: Journal
    var usedIds: set<StepId>
    var store: Journal

    constructor (journal: Journal, store: Journal)
      ensures this.journal == journal && this.store == store && usedIds == {}
    {
      this.journal := journal;
      this.store := store;
      usedIds := {};
    }

    /** A step id is usable once, and keeps its kind. */
    method Claim(id: StepId, kind: Kind) returns (c: Claimed)
      modifies this`usedIds
      ensures usedIds == old(usedIds) + {id}
      ensures c.Refused? <==> id in old(usedIds) || (id in journal && journal[id].kind != kind)
      ensures c.Refused? ==> c.message == if id in old(usedIds) then DuplicateId(id) else ChangedKind(id)
      ensures c.Known? ==> id in journal && c.entry == journal[id]
      ensures c.Unknown? ==> id !in journal
    {
      if id in usedIds {
        return Refused(DuplicateId(id));
      }
      usedIds := usedIds + {id};
      if id in journal {
        c := if journal[id].kind != kind then Refused(ChangedKind(id)) else Known(journal[id]);
      } else {
        c := Unknown;
      }
    }

    /** A journaled step answers from the journal; a new `run` step runs its body and records
        the result; any other new step suspends the attempt. */
    method Perform(id: StepId, kind: Kind, bodies: seq<Body>, ghost wf: Workflow,
                   ghost answers: seq<Answer>) returns (m: Move)
      requires wf(answers) == Call(id, kind)
      modifies this
      ensures m == NextMove(wf, journal, answers, old(usedIds), bodies)
      ensures usedIds == old(usedIds) + {id}
      ensures !m.End? ==> m.id == id
      ensures store == if m.Ran? then Record(old(store), id, RunEntry(m.value)) else old(store)
    {
      var c := Claim(id, kind);
      match c
      case Refused(message) => m := End(Failed(message), []);
      case Known(entry) => m := Replayed(id, Decode(entry));
      case Unknown =>
        if kind != RunStep {
          m := End(Suspended(id, kind), []);
        } else if bodies == [] {
          m := End(Crashed, []);
        } else {
          match bodies[0]
          case Dies => m := End(Crashed, [id]);
          case Raises(message) => m := End(StepFailed(id, message), [id]);
          case Returns(v) =>
            if Write(v).Some? {
              store := Record(store, id, RunEntry(v));
              m := Ran(id, v);
            } else {
              m := End(Failed(CannotWrite(id)), [id]);
            }
        }
    }
  }

  /** `t` with the bodies in `started` run before it. */
  function Preceded(started: seq<StepId>, t: Attempted): Attempted { t.(started := started + t.started) }

  lemma PrecededTurn(wf: Workflow, journal: Journal, store: Journal, answers: seq<Answer>, used: set<StepId>,
                     left: seq<Body>,
                     started: seq<StepId>)
    ensures var m := NextMove(wf, journal, answers, used, left);
      var whole := Preceded(started, Attempt(wf, journal, store, answers, used, left));
      && (m.End? ==> whole == Attempted(store, m.outcome, started + m.started))
      && (m.Replayed? ==>
            whole == Preceded(started, Attempt(wf, journal, store, answers + [m.answer], used + {m.id}, left))
            && |journal.Keys - (used + {m.id})| < |journal.Keys - used|)
      && (m.Ran? ==>
            whole == Preceded(started + [m.id],
              Attempt(wf, journal, Record(store, m.id, RunEntry(m.value)), answers + [Gives(m.value)],
                                                        used + {m.id}, left[1..])))
  {
    AttemptUnfold(wf, journal, store, answers, used, left);
    var m := NextMove(wf, journal, answers, used, left);
    hide Attempt, NextMove, Record;
    if m.Ran? {
      var rest := Attempt(wf, journal, Record(store, m.id, RunEntry(m.value)), answers + [Gives(m.value)],
                          used + {m.id}, left[1..]);
      assert started + ([m.id] + rest.started) == (started + [m.id]) + rest.started;
    }
  }

  /** Returning or throwing ends the attempt. */
  lemma LastMove(wf: Workflow, journal: Journal, answers: seq<Answer>, used: set<StepId>, left: seq<Body>)
    ensures var m := NextMove(wf, journal, answers, used, left);
      && (wf(answers).Return? ==> m == End(Returned(wf(answers).value), []))
      && (wf(answers).Throw? ==> m == End(Failed(wf(answers).message), []))
  {
  }

  lemma PrecededNothing(t: Attempted)
    ensures Preceded([], t) == t
  {
    assert [] + t.started == t.started;
  }

  /** Drives the workflow function from its first action to the end of the attempt. */
  method ExecuteAttempt(wf: Workflow, journal: Journal, persisted: Journal, bodies: seq<Body>) returns (t: Attempted)
    ensures t == Attempt(wf, journal, persisted, [], {}, bodies)
  {
    var step := new Step(journal, persisted);
    var answers, left, started := [], bodies, [];
    ghost var whole := Attempt(wf, journal, persisted, [], {}, bodies);
    PrecededNothing(whole);
    hide Attempt, Preceded, NextMove, Record, Returned, RunEntry;
    while true
      invariant step.journal == journal
      invariant whole == Preceded(started, Attempt(wf, journal, step.store, answers, step.usedIds, left))
      decreases |left|, |journal.Keys - step.usedIds|
    {
      PrecededTurn(wf, journal, step.store, answers, step.usedIds, left, started);
      LastMove(wf, journal, answers, step.usedIds, left);
      match wf(answers)
      case Return(v) => return Attempted(step.store, Returned(v), started + []);
      case Throw(message) => return Attempted(step.store, Failed(message), started + []);
      case Call(id, kind) =>
        var m := step.Perform(id, kind, left, wf, answers);
        match m
        case End(outcome, last) => return Attempted(step.store, outcome, started + last);
        case Replayed(_, answer) => answers := answers + [answer];
        case Ran(_, v) => answers, left, started := answers + [Gives(v)], left[1..], started + [id];
    }
  }
}
