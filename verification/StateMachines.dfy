/** Persisted state machines: racing senders, transition history and outbox events. */
module StateMachines {
  import opened Orders

  type StateName = string
  type EventName = string

  /** One instance of one machine. */
  datatype Key = Key(machine: string, id: string)

  datatype Def = Def(initial: StateName, transitions: map<(StateName, EventName), StateName>)

  type Defs = map<string, Def>

  datatype Entry = Entry(key: Key, source: StateName, event: EventName, target: StateName)

  /** The event `<machine>.<state>` whose payload tells the transition. */
  datatype Outgoing = Outgoing(name: string, payload: Entry)

  datatype Store = Store(instances: map<Key, StateName>, history: seq<Entry>, outbox: seq<Outgoing>)

  const Empty := Store(map[], [], [])

  function Announcement(e: Entry): Outgoing { Outgoing(e.key.machine + "." + e.target, e) }

  /** Creating an instance that exists changes nothing. */
  function Created(s: Store, key: Key, initial: StateName): Store {
    if key in s.instances then s else s.(instances := s.instances[key := initial])
  }

  predicate Current(s: Store, e: Entry) { e.key in s.instances && s.instances[e.key] == e.source }

  /** State change, history entry and event in one transaction, if the state is still the one read. */
  function Committed(s: Store, e: Entry): Store {
    if !Current(s, e) then s
    else Store(s.instances[e.key := e.target], s.history + [e], s.outbox + [Announcement(e)])
  }

  predicate Defined(defs: Defs, e: Entry) {
    e.key.machine in defs && (e.source, e.event) in defs[e.key.machine].transitions
    && defs[e.key.machine].transitions[(e.source, e.event)] == e.target
  }

  /** The transition an event stands for in the state read from the store. */
  function Planned(defs: Defs, s: Store, key: Key, event: EventName): Option<Entry> {
    if key.machine !in defs || key !in s.instances then None
    else
      var transitions, source := defs[key.machine].transitions, s.instances[key];
      if (source, event) in transitions then Some(Entry(key, source, event, transitions[(source, event)])) else None
  }

  // ---- Racing senders ---------------------------------------------------------------------------------

  type Sender = nat

  /** `Look` reads the state and plans a transition, `Commit` tries to write it, any time later. */
  datatype Op = Create(key: Key) | Look(sender: Sender, key: Key, event: EventName) | Commit(sender: Sender)

  datatype System = System(store: Store, plans: map<Sender, Entry>)

  function Step(defs: Defs, s: System, op: Op): System {
    match op
    case Create(key) =>
      if key.machine in defs then s.(store := Created(s.store, key, defs[key.machine].initial)) else s
    case Look(n, key, event) =>
      var plan := Planned(defs, s.store, key, event);
      if plan.Some? then s.(plans := s.plans[n := plan.value]) else s.(plans := s.plans - {n})
    case Commit(n) =>
      if n in s.plans then System(Committed(s.store, s.plans[n]), s.plans - {n}) else s
  }

  function Exec(defs: Defs, ops: seq<Op>): System {
    if ops == [] then System(Empty, map[]) else Step(defs, Exec(defs, ops[..|ops| - 1]), ops[|ops| - 1])
  }

  // ---- Histories are paths -------------------------------------------------------------------------------

  /** The entries of one instance, in order. */
  function Of(history: seq<Entry>, key: Key): seq<Entry> {
    if history == [] then []
    else
      var n := |history| - 1;
      Of(history[..n], key) + if history[n].key == key then [history[n]] else []
  }

  /** `es` leads from one state to another, each entry a defined transition from where the one
      before ended. */
  ghost predicate Path(defs: Defs, es: seq<Entry>, start: StateName, end: StateName) {
    if es == [] then start == end
    else
      var n := |es| - 1;
      Defined(defs, es[n]) && es[n].target == end && Path(defs, es[..n], start, es[n].source)
  }

  lemma OfSnoc(history: seq<Entry>, e: Entry, key: Key)
    ensures Of(history + [e], key) == if e.key == key then Of(history, key) + [e] else Of(history, key)
  {
    assert (history + [e])[..|history|] == history;
  }

  lemma PathSnoc(defs: Defs, es: seq<Entry>, e: Entry, start: StateName)
    requires Path(defs, es, start, e.source) && Defined(defs, e)
    ensures Path(defs, es + [e], start, e.target)
  {
    assert (es + [e])[..|es|] == es;
  }

  ghost predicate InstanceOk(defs: Defs, s: Store, key: Key) {
    if key in s.instances
    then key.machine in defs && Path(defs, Of(s.history, key), defs[key.machine].initial, s.instances[key])
    else Of(s.history, key) == []
  }

  /** One event per history entry, telling that entry, in the same order. */
  ghost predicate OutboxOk(s: Store) {
    |s.outbox| == |s.history| && forall i | 0 <= i < |s.history| :: s.outbox[i] == Announcement(s.history[i])
  }

  ghost predicate Inv(defs: Defs, s: System) {
    && (forall key :: InstanceOk(defs, s.store, key))
    && OutboxOk(s.store)
    && (forall n | n in s.plans :: Defined(defs, s.plans[n]))
  }

  lemma CommitKeepsInstance(defs: Defs, s: Store, e: Entry, key: Key)
    requires InstanceOk(defs, s, key) && Defined(defs, e)
    ensures InstanceOk(defs, Committed(s, e), key)
  {
    if Current(s, e) {
      OfSnoc(s.history, e, key);
      if e.key == key {
        PathSnoc(defs, Of(s.history, key), e, defs[key.machine].initial);
      }
    }
  }

  lemma StepKeepsInv(defs: Defs, s: System, op: Op)
    requires Inv(defs, s)
    ensures Inv(defs, Step(defs, s, op))
  {
    var s' := Step(defs, s, op);
    forall key ensures InstanceOk(defs, s'.store, key) {
      assert InstanceOk(defs, s.store, key);
      if op.Commit? && op.sender in s.plans {
        CommitKeepsInstance(defs, s.store, s.plans[op.sender], key);
      }
    }
  }

  lemma {:induction false} RunKeepsInv(defs: Defs, ops: seq<Op>)
    ensures Inv(defs, Exec(defs, ops))
  {
    if ops == [] {
    } else {
      RunKeepsInv(defs, ops[..|ops| - 1]);
      StepKeepsInv(defs, Exec(defs, ops[..|ops| - 1]), ops[|ops| - 1]);
    }
  }

  /** Over any interleaving of racing senders, the history of every instance is a path of defined
      transitions from the initial state to the current one, and the outbox holds exactly one
      event per entry, telling it, in the same order. */
  lemma HistoryIsAPath(defs: Defs, ops: seq<Op>, key: Key, i: nat)
    requires key in Exec(defs, ops).store.instances
    ensures var s := Exec(defs, ops).store;
      && key.machine in defs
      && Path(defs, Of(s.history, key), defs[key.machine].initial, s.instances[key])
      && |s.outbox| == |s.history|
      && (i < |s.history| ==>
            var e := s.history[i];
            Defined(defs, e) && s.outbox[i].name == e.key.machine + "." + e.target && s.outbox[i].payload == e)
  {
    RunKeepsInv(defs, ops);
    var s := Exec(defs, ops).store;
    assert InstanceOk(defs, s, key);
    if i < |s.history| {
      AllDefined(defs, s, i);
    }
  }

  lemma {:induction false} PathEntries(defs: Defs, es: seq<Entry>, start: StateName, end: StateName, e: Entry)
    requires Path(defs, es, start, end) && e in es
    ensures Defined(defs, e)
  {
    var n := |es| - 1;
    if es[n] != e {
      assert e in es[..n];
      PathEntries(defs, es[..n], start, es[n].source, e);
    }
  }

  lemma {:induction false} OfKeeps(history: seq<Entry>, i: nat)
    requires i < |history|
    ensures history[i] in Of(history, history[i].key)
  {
    var n := |history| - 1;
    if i < n {
      OfKeeps(history[..n], i);
    }
  }

  lemma AllDefined(defs: Defs, s: Store, i: nat)
    requires i < |s.history| && forall key :: InstanceOk(defs, s, key)
    ensures Defined(defs, s.history[i])
  {
    var e := s.history[i];
    OfKeeps(s.history, i);
    assert InstanceOk(defs, s, e.key);
    PathEntries(defs, Of(s.history, e.key), defs[e.key.machine].initial, s.instances[e.key], e);
  }

  /** A sender that is not disturbed between its read and its write makes exactly the transition its
      event stands for in the stored state, with its entry and its event; without one it changes
      nothing. */
  lemma UndisturbedSend(defs: Defs, ops: seq<Op>, n: Sender, key: Key, event: EventName)
    ensures var s, s' := Exec(defs, ops).store, Exec(defs, ops + [Look(n, key, event)] + [Commit(n)]).store;
      if key in s.instances && key.machine in defs && (s.instances[key], event) in defs[key.machine].transitions then
        var e := Entry(key, s.instances[key], event, defs[key.machine].transitions[(s.instances[key], event)]);
        && s'.instances == s.instances[key := e.target]
        && s'.history == s.history + [e]
        && s'.outbox == s.outbox + [Outgoing(key.machine + "." + e.target, e)]
      else s' == s
  {
    var look, commit := Look(n, key, event), Commit(n);
    assert (ops + [look])[..|ops|] == ops;
    assert (ops + [look] + [commit])[..|ops| + 1] == ops + [look];
    assert Exec(defs, ops + [look]) == Step(defs, Exec(defs, ops), look);
    assert Exec(defs, ops + [look] + [commit]) == Step(defs, Exec(defs, ops + [look]), commit);
    hide Exec;
  }

  // ---- One sender among others -------------------------------------------------------------------------------

  /** `s` became `s'` by committed transitions only: those of `key`, in order, are `es`. */
  ghost predicate Grew(defs: Defs, s: Store, s': Store, key: Key, es: seq<Entry>) {
    && s'.instances.Keys == s.instances.Keys
    && Of(s'.history, key) == Of(s.history, key) + es
    && (key in s.instances ==> Path(defs, es, s.instances[key], s'.instances[key]))
  }

  lemma GrewBy(defs: Defs, s: Store, s': Store, key: Key, es: seq<Entry>, e: Entry)
    requires Grew(defs, s, s', key, es) && Defined(defs, e)
    ensures Grew(defs, s, Committed(s', e), key, if Current(s', e) && e.key == key then es + [e] else es)
  {
    if Current(s', e) {
      OfSnoc(s'.history, e, key);
      if e.key == key {
        PathSnoc(defs, es, e, s.instances[key]);
        assert (Of(s.history, key) + es) + [e] == Of(s.history, key) + (es + [e]);
      }
    }
  }

  lemma MovedMeansMore(defs: Defs, es: seq<Entry>, more: seq<Entry>, start: StateName, mid: StateName, end: StateName)
    requires Path(defs, es, start, mid) && Path(defs, es + more, start, end) && mid != end
    ensures more != []
  {
    if more == [] {
      assert es + more == es;
      PathEndsOnce(defs, es, start, mid, end);
    }
  }

  lemma PathEndsOnce(defs: Defs, es: seq<Entry>, start: StateName, x: StateName, y: StateName)
    requires Path(defs, es, start, x) && Path(defs, es, start, y)
    ensures x == y
  {
  }

  datatype Sent = Moved(source: StateName, target: StateName) | Unknown | Invalid | Contended

  class MachineStore {
    var store: Store

    method Create(key: Key, initial: StateName) returns (created: bool)
      modifies this
      ensures store == Created(old(store), key, initial) && created == (key !in old(store).instances)
    {
      created := key !in store.instances;
      if created {
        store := store.(instances := store.instances[key := initial]);
      }
    }

    method SendBlocking(e: Entry) returns (changed: bool)
      modifies this
      ensures store == Committed(old(store), e) && changed == Current(old(store), e)
    {
      changed := e.key in store.instances && store.instances[e.key] == e.source;
      if changed {
        store := Store(store.instances[e.key := e.target], store.history + [e], store.outbox + [Announcement(e)]);
      }
    }

    /** Other senders commit their transitions. */
    method Rivals(defs: Defs, rivals: seq<Entry>, ghost from: Store, key: Key, ghost before: seq<Entry>)
      returns (ghost es: seq<Entry>)
      requires forall e | e in rivals :: Defined(defs, e)
      requires Grew(defs, from, store, key, before)
      modifies this
      ensures Grew(defs, from, store, key, es) && |before| <= |es| && es[..|before|] == before
    {
      es := before;
      for i := 0 to |rivals|
        invariant Grew(defs, from, store, key, es) && |before| <= |es| && es[..|before|] == before
      {
        GrewBy(defs, from, store, key, es, rivals[i]);
        if Current(store, rivals[i]) && rivals[i].key == key {
          es := es + [rivals[i]];
        }
        var _ := SendBlocking(rivals[i]);
      }
    }

    /** Three optimistic tries; `rivals[r]` is what others commit between the read and the write
        of try `r`. A sender gives up only after three transitions of the instance by others. */
    method Send(defs: Defs, key: Key, event: EventName, rivals: seq<seq<Entry>>) returns (sent: Sent,
                ghost es: seq<Entry>)
      requires |rivals| == 3 && forall r | 0 <= r < 3 :: forall e | e in rivals[r] :: Defined(defs, e)
      modifies this
      ensures Grew(defs, old(store), store, key, es)
      ensures sent.Moved? ==>
        && es != [] && es[|es| - 1] == Entry(key, sent.source, event, sent.target)
        && Current(store, es[|es| - 1].(source := sent.target))
        && Defined(defs, es[|es| - 1])
      ensures sent.Invalid? ==>
        key.machine in defs && key in store.instances && (store.instances[key], event) !in defs[key.machine].transitions
      ensures sent.Unknown? <==> key.machine !in defs || key !in old(store).instances
      ensures sent.Contended? ==> |es| >= 3
    {
      es := [];
      ghost var start := store;
      assert Of(store.history, key) + es == Of(store.history, key);
      if key.machine !in defs {
        return Unknown, es;
      }
      for r := 0 to 3
        invariant Grew(defs, start, store, key, es) && |es| >= r
        invariant r > 0 ==> key in store.instances
      {
        if key !in store.instances {
          return Unknown, es;
        }
        var source := store.instances[key];
        if (source, event) !in defs[key.machine].transitions {
          return Invalid, es;
        }
        var e := Entry(key, source, event, defs[key.machine].transitions[(source, event)]);
        ghost var before := es;
        es := Rivals(defs, rivals[r], start, key, before);
        GrewBy(defs, start, store, key, es, e);
        var changed := SendBlocking(e);
        if changed {
          es := es + [e];
          return Moved(source, e.target), es;
        }
        assert es == before + es[|before|..];
        MovedMeansMore(defs, before, es[|before|..], start.instances[key], source, store.instances[key]);
      }
      sent := Contended;
    }
  }
}
