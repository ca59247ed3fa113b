/** The persisted scheduler: N nodes claiming schedule ticks by compare-and-swap, and the
    catch-up policy of one node. */
module Scheduling {
  import opened Orders

  type Name = string
  type NodeId = nat

  const MaxCatchupFires: nat := 100

  datatype Catchup = Skip | RunOnce | All

  /** `next(t)` is the next fire time after `t`, or nothing when it cannot be computed. */
  datatype Def = Def(spec: string, catchup: Catchup, skipOverlap: bool, next: int -> Option<int>)

  type Defs = map<Name, Def>

  /** A computed fire time is strictly later. */
  ghost predicate Advances(def: Def) {
    forall t :: def.next(t).Some? ==> def.next(t).value > t
  }

  datatype Row = Row(spec: string, nextRunAt: int, lastRunAt: Option<int>)

  type Rows = map<Name, Row>

  /** One fire time of one schedule, as stored in its row. */
  datatype Tick = Tick(name: Name, at: int)

  /** Booting keeps the stored timing of an unchanged spec. */
  function Upsert(rows: Rows, name: Name, spec: string, computed: int): Rows {
    if name in rows && rows[name].spec == spec then rows else rows[name := Row(spec, computed, None)]
  }

  predicate Claimable(rows: Rows, tick: Tick) { tick.name in rows && rows[tick.name].nextRunAt == tick.at }

  function ClaimTick(rows: Rows, tick: Tick, next: int, now: int): Rows {
    if Claimable(rows, tick) then rows[tick.name := rows[tick.name].(nextRunAt := next, lastRunAt := Some(now))]
      else rows
  }

  /** The next fire time the run loop writes. */
  function NextOrMinute(def: Def, now: int): int {
    match def.next(now)
    case Some(t) => t
    case None => now + 60_000
  }

  // ---- Many nodes -------------------------------------------------------------------------------------

  /** Where a node is between two store calls: replaying the gap of one schedule at boot, or
      working through the due rows it read. `now` is its clock reading, taken once. */
  datatype Local = Resting | CatchingUp(tick: Tick, fired: nat, now: int) | Ticking(due: seq<Tick>, now: int)

  /** `firing` is a tick the node won and has yet to enqueue a job for. */
  datatype Node = Node(local: Local, firing: Option<Tick>)

  /** `wins` is every successful tick claim and `fires` every enqueued job, in order; `lost` the
      ticks won by nodes that died before enqueueing, `silent` those claimed with no job to enqueue. */
  datatype System = System(
    rows: Rows, nodes: map<NodeId, Node>, wins: seq<Tick>, fires: seq<Tick>, lost: seq<Tick>, silent: seq<Tick>)

  /** `Advance` lets a node make its next store call; `busy` is what it reads as overlap. */
  datatype Op =
    | Boot(node: NodeId, name: Name, now: int)
    | Poll(node: NodeId, due: seq<Name>, now: int)
    | Advance(node: NodeId, busy: bool)
    | Crash(node: NodeId)

  predicate Legal(defs: Defs, s: System, op: Op) {
    match op
    case Boot(_, name, _) => name in defs
    case Poll(_, due, now) => forall name | name in due :: name in s.rows && s.rows[name].nextRunAt <= now
    case _ => true
  }

  function Put(s: System, n: NodeId, local: Local, firing: Option<Tick>): System {
    s.(nodes := s.nodes[n := Node(local, firing)])
  }

  /** A tick claim: the winner goes on with `won`, firing if `fire`; a loser with `lost`. */
  function Claim(s: System, n: NodeId, tick: Tick, next: int, now: int, fire: bool, won: Local, lost: Local): System {
    if Claimable(s.rows, tick) then
      Put(s.(rows := ClaimTick(s.rows, tick, next, now), wins := s.wins + [tick],
             silent := if fire then s.silent else s.silent + [tick]),
          n, won, if fire then Some(tick) else None)
    else Put(s, n, lost, None)
  }

  function BootStep(defs: Defs, s: System, n: NodeId, name: Name, now: int): System
    requires name in defs
  {
    var def := defs[name];
    match def.next(now)
    case None => Put(s, n, Resting, None)
    case Some(computed) =>
      var rows := Upsert(s.rows, name, def.spec, computed);
      var at := rows[name].nextRunAt;
      Put(s.(rows := rows), n,
          if at <= now && !def.catchup.RunOnce? then CatchingUp(Tick(name, at), 0, now) else Resting, None)
  }

  function CatchUpStep(defs: Defs, s: System, n: NodeId, tick: Tick, fired: nat, now: int): System {
    if tick.at > now || tick.name !in defs then Put(s, n, Resting, None)
    else
      var def := defs[tick.name];
      if def.catchup.All? && fired < MaxCatchupFires then
        match def.next(tick.at)
        case None => Put(s, n, Resting, None)
        case Some(next) =>
          Claim(s, n, tick, next, now, true, CatchingUp(Tick(tick.name, next), fired + 1, now), Resting)
      else
        match def.next(now)
        case None => Put(s, n, Resting, None)
        case Some(next) => Claim(s, n, tick, next, now, false, Resting, Resting)
  }

  function TickStep(defs: Defs, s: System, n: NodeId, due: seq<Tick>, now: int, busy: bool): System {
    if due == [] then Put(s, n, Resting, None)
    else if due[0].name !in defs then Put(s, n, Ticking(due[1..], now), None)
    else
      var def, rest := defs[due[0].name], Ticking(due[1..], now);
      Claim(s, n, due[0], NextOrMinute(def, now), now, !(def.skipOverlap && busy), rest, rest)
  }

  function Observed(rows: Rows, due: seq<Name>): seq<Tick>
    requires forall name | name in due :: name in rows
  {
    seq(|due|, i requires 0 <= i < |due| => Tick(due[i], rows[due[i]].nextRunAt))
  }

  /** A node that dies with a tick still to fire loses it. */
  function Dropped(s: System, n: NodeId): System {
    if n in s.nodes && s.nodes[n].firing.Some?
    then s.(lost := s.lost + [s.nodes[n].firing.value], nodes := s.nodes[n := s.nodes[n].(firing := None)])
    else s
  }

  function Step(defs: Defs, s: System, op: Op): System
    requires Legal(defs, s, op)
  {
    match op
    case Boot(n, name, now) => BootStep(defs, Dropped(s, n), n, name, now)
    case Poll(n, due, now) => Put(Dropped(s, n), n, Ticking(Observed(s.rows, due), now), None)
    case Crash(n) => Put(Dropped(s, n), n, Resting, None)
    case Advance(n, busy) =>
      if n !in s.nodes then s
      else if s.nodes[n].firing.Some? then
        Put(s.(fires := s.fires + [s.nodes[n].firing.value]), n, s.nodes[n].local, None)
      else
        match s.nodes[n].local
        case Resting => s
        case CatchingUp(tick, fired, now) => CatchUpStep(defs, s, n, tick, fired, now)
        case Ticking(due, now) => TickStep(defs, s, n, due, now, busy)
  }

  /** The system after a prefix of legal operations; an illegal one changes nothing. */
  function ExecFrom(defs: Defs, s: System, ops: seq<Op>): System {
    if ops == [] then s
    else
      var s', op := ExecFrom(defs, s, ops[..|ops| - 1]), ops[|ops| - 1];
      if Legal(defs, s', op) then Step(defs, s', op) else s'
  }

  function Started(rows: Rows): System { System(rows, map[], [], [], [], []) }

  function Exec(defs: Defs, rows: Rows, ops: seq<Op>): System { ExecFrom(defs, Started(rows), ops) }

  // ---- What every step keeps ----------------------------------------------------------------------------

  ghost predicate SpecsMatch(defs: Defs, rows: Rows) {
    forall name | name in rows && name in defs :: rows[name].spec == defs[name].spec
  }

  /** Won ticks of one schedule rise, and its row is past all of them. */
  ghost predicate WinsOk(rows: Rows, wins: seq<Tick>) {
    && (forall w | w in wins :: w.name in rows && w.at < rows[w.name].nextRunAt)
    && (forall i, j | 0 <= i < j < |wins| && wins[i].name == wins[j].name :: wins[i].at < wins[j].at)
  }

  ghost predicate FiringOk(node: Node, wins: seq<Tick>, fires: seq<Tick>) {
    node.firing.Some? ==> node.firing.value in wins && node.firing.value !in fires
  }

  /** Every fire is of a won tick, none is repeated, and a tick still to fire is one node's. */
  ghost predicate FiresOk(s: System) {
    && (forall f | f in s.fires :: f in s.wins)
    && (forall i, j | 0 <= i < j < |s.fires| :: s.fires[i] != s.fires[j])
    && (forall n | n in s.nodes :: FiringOk(s.nodes[n], s.wins, s.fires))
    && (forall n, m | n in s.nodes && m in s.nodes && n != m && s.nodes[n].firing.Some? ::
       s.nodes[n].firing != s.nodes[m].firing)
  }

  ghost predicate DueOk(local: Local) {
    local.Ticking? ==> forall d | d in local.due :: d.at <= local.now
  }

  ghost predicate Inv(defs: Defs, s: System) {
    SpecsMatch(defs, s.rows) && WinsOk(s.rows, s.wins) && FiresOk(s) && forall n | n in s.nodes ::
      DueOk(s.nodes[n].local)
  }

  /** Rows never go away and their fire times never go back. */
  ghost predicate Rises(rows: Rows, rows': Rows) {
    forall name | name in rows :: name in rows' && rows[name].nextRunAt <= rows'[name].nextRunAt
  }

  lemma PutKeepsInv(defs: Defs, s: System, n: NodeId, local: Local)
    requires Inv(defs, s) && DueOk(local)
    ensures Inv(defs, Put(s, n, local, None))
  {
  }

  lemma ClaimKeepsInv(defs: Defs, s: System, n: NodeId, tick: Tick, next: int, now: int, fire: bool, won: Local,
                      lost: Local)
    requires Inv(defs, s) && tick.at < next && DueOk(won) && DueOk(lost)
    ensures var s' := Claim(s, n, tick, next, now, fire, won, lost); Inv(defs, s') && Rises(s.rows, s'.rows)
  {
    if Claimable(s.rows, tick) {
      var s' := Claim(s, n, tick, next, now, fire, won, lost);
      assert tick !in s.wins;
      assert WinsOk(s'.rows, s'.wins);
      FreshFiring(s, s', n, tick);
    } else {
      PutKeepsInv(defs, s, n, lost);
    }
  }

  lemma FreshFiring(s: System, s': System, n: NodeId, tick: Tick)
    requires FiresOk(s) && tick !in s.wins && s'.fires == s.fires && s'.wins == s.wins + [tick]
    requires exists local, firing ::
      s'.nodes == s.nodes[n := Node(local, firing)] && (firing.Some? ==> firing.value == tick)
    ensures FiresOk(s')
  {
    assert tick !in s.fires;
    assert forall w | w in s.wins :: w in s'.wins;
    assert s'.wins[|s.wins|] == tick;
    forall m | m in s'.nodes ensures FiringOk(s'.nodes[m], s'.wins, s'.fires) {
      if m != n {
        assert FiringOk(s.nodes[m], s.wins, s.fires);
      }
    }
    forall m, k | m in s'.nodes && k in s'.nodes && m != k && s'.nodes[m].firing.Some?
      ensures s'.nodes[m].firing != s'.nodes[k].firing
    {
      assert m != n ==> FiringOk(s.nodes[m], s.wins, s.fires);
      assert k != n ==> FiringOk(s.nodes[k], s.wins, s.fires);
    }
  }

  lemma FireKeepsInv(defs: Defs, s: System, n: NodeId)
    requires Inv(defs, s) && n in s.nodes && s.nodes[n].firing.Some?
    ensures Inv(defs, Put(s.(fires := s.fires + [s.nodes[n].firing.value]), n, s.nodes[n].local, None))
  {
    var tick := s.nodes[n].firing.value;
    assert FiringOk(s.nodes[n], s.wins, s.fires);
    var s' := Put(s.(fires := s.fires + [tick]), n, s.nodes[n].local, None);
    forall m | m in s'.nodes ensures FiringOk(s'.nodes[m], s'.wins, s'.fires) {
      if m != n {
        assert FiringOk(s.nodes[m], s.wins, s.fires);
      }
    }
  }

  lemma UpsertKeepsInv(defs: Defs, s: System, name: Name, computed: int)
    requires Inv(defs, s) && name in defs
    ensures var rows := Upsert(s.rows, name, defs[name].spec, computed);
      Inv(defs, s.(rows := rows)) && Rises(s.rows, rows) && name in rows
  {
  }

  lemma DroppedKeepsInv(defs: Defs, s: System, n: NodeId)
    requires Inv(defs, s)
    ensures Inv(defs, Dropped(s, n)) && Dropped(s, n).rows == s.rows
  {
  }

  lemma StepKeepsInv(defs: Defs, s: System, op: Op)
    requires Inv(defs, s) && Legal(defs, s, op) && forall name | name in defs :: Advances(defs[name])
    ensures Inv(defs, Step(defs, s, op)) && Rises(s.rows, Step(defs, s, op).rows)
  {
    match op
    case Boot(n, name, now) =>
      DroppedKeepsInv(defs, s, n);
      BootPut(defs, Dropped(s, n), n, name, now);
    case Poll(n, due, now) =>
      DroppedKeepsInv(defs, s, n);
      PutKeepsInv(defs, Dropped(s, n), n, Ticking(Observed(s.rows, due), now));
    case Crash(n) =>
      DroppedKeepsInv(defs, s, n);
      PutKeepsInv(defs, Dropped(s, n), n, Resting);
    case Advance(n, busy) =>
      if n in s.nodes {
        AdvanceKeepsInv(defs, s, n, busy);
      }
  }

  lemma BootPut(defs: Defs, s: System, n: NodeId, name: Name, now: int)
    requires Inv(defs, s) && name in defs
    ensures Inv(defs, BootStep(defs, s, n, name, now)) && Rises(s.rows, BootStep(defs, s, n, name, now).rows)
  {
    var def := defs[name];
    if def.next(now).None? {
      PutKeepsInv(defs, s, n, Resting);
    } else {
      var rows := Upsert(s.rows, name, def.spec, def.next(now).value);
      UpsertKeepsInv(defs, s, name, def.next(now).value);
      PutKeepsInv(defs, s.(rows := rows), n, Resting);
      PutKeepsInv(defs, s.(rows := rows), n, CatchingUp(Tick(name, rows[name].nextRunAt), 0, now));
    }
  }

  lemma AdvanceKeepsInv(defs: Defs, s: System, n: NodeId, busy: bool)
    requires Inv(defs, s) && n in s.nodes && forall name | name in defs :: Advances(defs[name])
    ensures var s' := Step(defs, s, Advance(n, busy)); Inv(defs, s') && Rises(s.rows, s'.rows)
  {
    var local := s.nodes[n].local;
    if s.nodes[n].firing.Some? {
      FireKeepsInv(defs, s, n);
    } else if local.CatchingUp? {
      var tick, now := local.tick, local.now;
      PutKeepsInv(defs, s, n, Resting);
      if tick.at <= now && tick.name in defs {
        var def := defs[tick.name];
        if def.catchup.All? && local.fired < MaxCatchupFires {
          if def.next(tick.at).Some? {
            var next := def.next(tick.at).value;
            ClaimKeepsInv(defs, s, n, tick, next, now, true, CatchingUp(Tick(tick.name, next), local.fired + 1, now),
              Resting);
          }
        } else if def.next(now).Some? {
          ClaimKeepsInv(defs, s, n, tick, def.next(now).value, now, false, Resting, Resting);
        }
      }
    } else if local.Ticking? {
      TickKeepsInv(defs, s, n, local.due, local.now, busy);
    }
  }

  lemma TickKeepsInv(defs: Defs, s: System, n: NodeId, due: seq<Tick>, now: int, busy: bool)
    requires Inv(defs, s) && DueOk(Ticking(due, now)) && forall name | name in defs :: Advances(defs[name])
    ensures var s' := TickStep(defs, s, n, due, now, busy); Inv(defs, s') && Rises(s.rows, s'.rows)
  {
    if due == [] {
      PutKeepsInv(defs, s, n, Resting);
    } else {
      var rest := Ticking(due[1..], now);
      assert DueOk(rest) && due[0] in due;
      if due[0].name !in defs {
        PutKeepsInv(defs, s, n, rest);
      } else {
        var def := defs[due[0].name];
        ClaimKeepsInv(defs, s, n, due[0], NextOrMinute(def, now), now, !(def.skipOverlap && busy), rest, rest);
      }
    }
  }

  lemma {:induction false} RunKeepsInv(defs: Defs, rows: Rows, ops: seq<Op>)
    requires SpecsMatch(defs, rows) && forall name | name in defs :: Advances(defs[name])
    ensures Inv(defs, Exec(defs, rows, ops))
  {
    if ops != [] {
      var n := |ops| - 1;
      RunKeepsInv(defs, rows, ops[..n]);
      var s := Exec(defs, rows, ops[..n]);
      hide Inv;
      if Legal(defs, s, ops[n]) {
        StepKeepsInv(defs, s, ops[n]);
      }
    }
  }

  /** Any number of nodes booting, polling, crashing and reading any clocks, in any order: the
      ticks won of a schedule strictly rise, so no tick is won twice, and no tick fires twice. */
  lemma NoTickWonOrFiredTwice(defs: Defs, rows: Rows, ops: seq<Op>, i: nat, j: nat)
    requires SpecsMatch(defs, rows) && forall name | name in defs :: Advances(defs[name])
    ensures var s := Exec(defs, rows, ops);
      && (i < j < |s.wins| && s.wins[i].name == s.wins[j].name ==> s.wins[i].at < s.wins[j].at)
      && (i < j < |s.fires| ==> s.fires[i] != s.fires[j])
      && (i < |s.fires| ==> s.fires[i] in s.wins)
      && (i < |s.wins| ==> s.wins[i].name in s.rows && s.wins[i].at < s.rows[s.wins[i].name].nextRunAt)
  {
    RunKeepsInv(defs, rows, ops);
    var s := Exec(defs, rows, ops);
    assert i < |s.fires| ==> s.fires[i] in s.fires;
    assert i < |s.wins| ==> s.wins[i] in s.wins;
  }

  /** Each successful claim strictly raises the row; nothing ever lowers one. */
  lemma WinsRaise(defs: Defs, rows: Rows, ops: seq<Op>, op: Op)
    requires SpecsMatch(defs, rows) && forall name | name in defs :: Advances(defs[name])
    ensures var s, s' := Exec(defs, rows, ops), Exec(defs, rows, ops + [op]);
      && Rises(s.rows, s'.rows)
      && (|s'.wins| > |s.wins| ==>
            var w := s'.wins[|s.wins|];
            s'.wins == s.wins + [w] && Claimable(s.rows, w) && w.name in s'.rows && s'.rows[w.name].nextRunAt > w.at)
  {
    var s, s' := Exec(defs, rows, ops), Exec(defs, rows, ops + [op]);
    RunKeepsInv(defs, rows, ops);
    RunKeepsInv(defs, rows, ops + [op]);
    ExecSnoc(defs, rows, ops, op);
    hide Exec, Inv, Step, SpecsMatch, Advances;
    if Legal(defs, s, op) {
      StepKeepsInv(defs, s, op);
      StepWins(defs, s, op);
    }
    if |s'.wins| > |s.wins| {
      LastWin(defs, s');
    }
  }

  lemma ExecSnoc(defs: Defs, rows: Rows, ops: seq<Op>, op: Op)
    ensures var s := Exec(defs, rows, ops);
      Exec(defs, rows, ops + [op]) == if Legal(defs, s, op) then Step(defs, s, op) else s
  {
    assert (ops + [op])[..|ops|] == ops;
  }

  lemma LastWin(defs: Defs, s: System)
    requires Inv(defs, s) && s.wins != []
    ensures var w := s.wins[|s.wins| - 1]; w.name in s.rows && w.at < s.rows[w.name].nextRunAt
  {
    assert s.wins[|s.wins| - 1] in s.wins;
  }

  lemma StepWins(defs: Defs, s: System, op: Op)
    requires Legal(defs, s, op)
    ensures var s' := Step(defs, s, op);
      s'.wins == s.wins || (|s'.wins| == |s.wins| + 1 && s'.wins[..|s.wins|] == s.wins
        && Claimable(s.rows, s'.wins[|s.wins|]))
  {
  }

  // ---- Where won ticks go ---------------------------------------------------------------------------------

  ghost predicate ToFire(s: System, tick: Tick) { exists n :: n in s.nodes && s.nodes[n].firing == Some(tick) }

  /** A won tick is fired, still to fire at some node, lost by a node that died, or was claimed in
      silence, and only one of these. */
  ghost predicate Accounted(s: System, tick: Tick) {
    && (tick in s.wins <==> tick in s.fires || ToFire(s, tick) || tick in s.lost || tick in s.silent)
    && !(tick in s.fires && ToFire(s, tick)) && !(tick in s.fires && tick in s.lost)
    && !(tick in s.fires && tick in s.silent) && !(ToFire(s, tick) && tick in s.lost)
    && !(ToFire(s, tick) && tick in s.silent) && !(tick in s.lost && tick in s.silent)
  }

  ghost predicate AllAccounted(s: System) { forall tick :: Accounted(s, tick) }

  /** A step that leaves the other ticks alone. */
  lemma AccountOthers(s: System, s': System, tick: Tick)
    requires AllAccounted(s) && Accounted(s', tick)
    requires forall t | t != tick ::
      && (t in s'.wins <==> t in s.wins) && (t in s'.fires <==> t in s.fires) && (ToFire(s', t) <==> ToFire(s, t))
      && (t in s'.lost <==> t in s.lost) && (t in s'.silent <==> t in s.silent)
    ensures AllAccounted(s')
  {
    forall t ensures Accounted(s', t) {
      assert Accounted(s, t);
    }
  }

  lemma SameAccounts(s: System, s': System)
    requires AllAccounted(s) && s'.wins == s.wins && s'.fires == s.fires && s'.lost == s.lost && s'.silent == s.silent
    requires forall t :: ToFire(s', t) <==> ToFire(s, t)
    ensures AllAccounted(s')
  {
    forall t ensures Accounted(s', t) {
      assert Accounted(s, t);
    }
  }

  lemma PutAccounts(s: System, n: NodeId, local: Local)
    requires AllAccounted(s) && (n in s.nodes ==> s.nodes[n].firing.None?)
    ensures AllAccounted(Put(s, n, local, None))
  {
    var s' := Put(s, n, local, None);
    forall t ensures ToFire(s', t) <==> ToFire(s, t) {
      if ToFire(s, t) {
        var m :| m in s.nodes && s.nodes[m].firing == Some(t);
        assert m in s'.nodes && s'.nodes[m].firing == Some(t);
      }
    }
    SameAccounts(s, s');
  }

  lemma DroppedAccounts(s: System, n: NodeId)
    requires AllAccounted(s) && FiresOk(s)
    ensures AllAccounted(Dropped(s, n)) && (n in Dropped(s, n).nodes ==> Dropped(s, n).nodes[n].firing.None?)
  {
    var s' := Dropped(s, n);
    if n in s.nodes && s.nodes[n].firing.Some? {
      var tick := s.nodes[n].firing.value;
      NoLongerToFire(s, s', n, tick);
      assert Accounted(s, tick) && ToFire(s, tick);
      assert s'.lost[|s.lost|] == tick;
      hide ToFire, FiresOk;
      AccountOthers(s, s', tick);
    }
  }

  /** Once its node has let it go, the tick is nobody's to fire; the other ticks are as before. */
  lemma NoLongerToFire(s: System, s': System, n: NodeId, tick: Tick)
    requires FiresOk(s) && n in s.nodes && s.nodes[n].firing == Some(tick)
    requires exists local :: s'.nodes == s.nodes[n := Node(local, None)]
    ensures !ToFire(s', tick) && forall t | t != tick :: ToFire(s', t) <==> ToFire(s, t)
  {
    forall t | t != tick && ToFire(s, t) ensures ToFire(s', t) {
      var m :| m in s.nodes && s.nodes[m].firing == Some(t);
      assert m in s'.nodes && s'.nodes[m].firing == Some(t);
    }
  }

  lemma FireAccounts(s: System, n: NodeId)
    requires AllAccounted(s) && FiresOk(s) && n in s.nodes && s.nodes[n].firing.Some?
    ensures AllAccounted(Put(s.(fires := s.fires + [s.nodes[n].firing.value]), n, s.nodes[n].local, None))
  {
    var tick := s.nodes[n].firing.value;
    var s' := Put(s.(fires := s.fires + [tick]), n, s.nodes[n].local, None);
    NoLongerToFire(s, s', n, tick);
    assert Accounted(s, tick) && ToFire(s, tick);
    assert s'.fires[|s.fires|] == tick;
    hide ToFire, FiresOk;
    AccountOthers(s, s', tick);
  }

  lemma ClaimAccounts(s: System, n: NodeId, tick: Tick, next: int, now: int, fire: bool, won: Local, lost: Local)
    requires AllAccounted(s) && WinsOk(s.rows, s.wins) && (n in s.nodes ==> s.nodes[n].firing.None?)
    ensures AllAccounted(Claim(s, n, tick, next, now, fire, won, lost))
  {
    if !Claimable(s.rows, tick) {
      PutAccounts(s, n, lost);
    } else {
      var s' := Claim(s, n, tick, next, now, fire, won, lost);
      assert tick !in s.wins && Accounted(s, tick);
      NewlyToFire(s, s', n, won, tick, fire);
      assert s'.wins[|s.wins|] == tick && (!fire ==> s'.silent[|s.silent|] == tick);
      hide ToFire, WinsOk;
      AccountOthers(s, s', tick);
    }
  }

  lemma NewlyToFire(s: System, s': System, n: NodeId, local: Local, tick: Tick, fire: bool)
    requires !ToFire(s, tick) && (n in s.nodes ==> s.nodes[n].firing.None?)
    requires s'.nodes == s.nodes[n := Node(local, if fire then Some(tick) else None)]
    ensures ToFire(s', tick) <==> fire
    ensures forall t | t != tick :: ToFire(s', t) <==> ToFire(s, t)
  {
    forall t | t != tick && ToFire(s, t) ensures ToFire(s', t) {
      var m :| m in s.nodes && s.nodes[m].firing == Some(t);
      assert m in s'.nodes && s'.nodes[m].firing == Some(t);
    }
    if fire {
      assert n in s'.nodes && s'.nodes[n].firing == Some(tick);
    }
  }

  lemma StepAccounts(defs: Defs, s: System, op: Op)
    requires Inv(defs, s) && AllAccounted(s) && Legal(defs, s, op)
    ensures AllAccounted(Step(defs, s, op))
  {
    hide AllAccounted, FiresOk, WinsOk;
    match op
    case Boot(n, name, now) =>
      DroppedAccounts(s, n);
      BootAccounts(defs, Dropped(s, n), n, name, now);
    case Poll(n, due, now) =>
      DroppedAccounts(s, n);
      PutAccounts(Dropped(s, n), n, Ticking(Observed(s.rows, due), now));
    case Crash(n) =>
      DroppedAccounts(s, n);
      PutAccounts(Dropped(s, n), n, Resting);
    case Advance(n, busy) =>
      if n in s.nodes {
        AdvanceAccounts(defs, s, n, busy);
      }
  }

  lemma BootAccounts(defs: Defs, s: System, n: NodeId, name: Name, now: int)
    requires AllAccounted(s) && name in defs && (n in s.nodes ==> s.nodes[n].firing.None?)
    ensures AllAccounted(BootStep(defs, s, n, name, now))
  {
    var def := defs[name];
    if def.next(now).None? {
      PutAccounts(s, n, Resting);
    } else {
      var rows := Upsert(s.rows, name, def.spec, def.next(now).value);
      forall t ensures ToFire(s.(rows := rows), t) <==> ToFire(s, t) {
      }
      SameAccounts(s, s.(rows := rows));
      hide AllAccounted;
      PutAccounts(s.(rows := rows), n, Resting);
      PutAccounts(s.(rows := rows), n, CatchingUp(Tick(name, rows[name].nextRunAt), 0, now));
    }
  }

  lemma AdvanceAccounts(defs: Defs, s: System, n: NodeId, busy: bool)
    requires Inv(defs, s) && AllAccounted(s) && n in s.nodes
    ensures AllAccounted(Step(defs, s, Advance(n, busy)))
  {
    hide AllAccounted, FiresOk, WinsOk;
    var local := s.nodes[n].local;
    if s.nodes[n].firing.Some? {
      FireAccounts(s, n);
    } else if local.CatchingUp? {
      var tick, now := local.tick, local.now;
      PutAccounts(s, n, Resting);
      if tick.at <= now && tick.name in defs {
        var def := defs[tick.name];
        if def.catchup.All? && local.fired < MaxCatchupFires {
          if def.next(tick.at).Some? {
            var next := def.next(tick.at).value;
            ClaimAccounts(s, n, tick, next, now, true, CatchingUp(Tick(tick.name, next), local.fired + 1, now),
                          Resting);
          }
        } else if def.next(now).Some? {
          ClaimAccounts(s, n, tick, def.next(now).value, now, false, Resting, Resting);
        }
      }
    } else if local.Ticking? {
      var due, now := local.due, local.now;
      PutAccounts(s, n, Resting);
      if due != [] {
        var rest := Ticking(due[1..], now);
        PutAccounts(s, n, rest);
        if due[0].name in defs {
          var def := defs[due[0].name];
          ClaimAccounts(s, n, due[0], NextOrMinute(def, now), now, !(def.skipOverlap && busy), rest, rest);
        }
      }
    }
  }

  /** In every reachable state each won tick is in exactly one place: fired, still to fire at a
      node, lost by a node that died between claim and enqueue, or claimed in silence. */
  lemma {:induction false} WonTicksAccounted(defs: Defs, rows: Rows, ops: seq<Op>)
    requires SpecsMatch(defs, rows) && forall name | name in defs :: Advances(defs[name])
    ensures AllAccounted(Exec(defs, rows, ops))
  {
    if ops == [] {
      assert forall t :: Accounted(Exec(defs, rows, []), t);
    } else {
      var n := |ops| - 1;
      var s := Exec(defs, rows, ops[..n]);
      hide Inv, AllAccounted, Step, Legal, Advances, SpecsMatch;
      RunKeepsInv(defs, rows, ops[..n]);
      WonTicksAccounted(defs, rows, ops[..n]);
      if Legal(defs, s, ops[n]) {
        StepAccounts(defs, s, ops[n]);
      }
    }
  }

  /** The claim a node is about to make enqueues no job: an overlap is to be skipped, or the rest of a
      gap is passed over because the policy says so or the cap is reached. */
  predicate ClaimsSilently(defs: Defs, local: Local, busy: bool) {
    match local
    case Resting => false
    case CatchingUp(tick, fired, _) =>
      tick.name in defs && !(defs[tick.name].catchup.All? && fired < MaxCatchupFires)
    case Ticking(due, _) => due != [] && due[0].name in defs && defs[due[0].name].skipOverlap && busy
  }

  /** A tick is claimed in silence only to skip an overlap, or to pass over a gap that is skipped or
      has reached its cap, and then it always is; any other tick won is to be fired. */
  lemma SilenceIsExplained(defs: Defs, s: System, op: Op)
    requires Legal(defs, s, op)
    ensures var s' := Step(defs, s, op);
      if s'.wins == s.wins then s'.silent == s.silent
      else
        && op.Advance? && op.node in s.nodes && s.nodes[op.node].firing.None?
        && (if ClaimsSilently(defs, s.nodes[op.node].local, op.busy)
            then s'.silent == s.silent + [s'.wins[|s.wins|]] && s'.nodes[op.node].firing.None?
            else s'.silent == s.silent && s'.nodes[op.node].firing == Some(s'.wins[|s.wins|]))
  {
    if op.Advance? && op.node in s.nodes && s.nodes[op.node].firing.None? {
      hide ClaimTick, Observed;
    }
  }

  /** Without overlap skips, and with nothing skipped or capped, every won tick that did not fire is
      still to fire or was lost by a node that died. */
  lemma {:induction false} NothingSilent(defs: Defs, rows: Rows, ops: seq<Op>)
    requires forall name | name in defs :: defs[name].catchup.RunOnce? && !defs[name].skipOverlap
    ensures Exec(defs, rows, ops).silent == []
    ensures forall n | n in Exec(defs, rows, ops).nodes :: !Exec(defs, rows, ops).nodes[n].local.CatchingUp?
  {
    if ops != [] {
      var n := |ops| - 1;
      NothingSilent(defs, rows, ops[..n]);
      var s := Exec(defs, rows, ops[..n]);
      hide Legal, Step;
      if Legal(defs, s, ops[n]) {
        StepSilent(defs, s, ops[n]);
      }
    }
  }

  lemma StepSilent(defs: Defs, s: System, op: Op)
    requires forall name | name in defs :: defs[name].catchup.RunOnce? && !defs[name].skipOverlap
    requires Legal(defs, s, op) && s.silent == [] && forall n | n in s.nodes :: !s.nodes[n].local.CatchingUp?
    ensures var s' := Step(defs, s, op); s'.silent == [] && forall n | n in s'.nodes :: !s'.nodes[n].local.CatchingUp?
  {
    hide CatchUpStep, ClaimTick, Upsert, Observed;
  }

  // ---- Catch-up on one node --------------------------------------------------------------------------------

  /** The ticks from `t` up to `now`, each the successor of the one before; a tick whose
      successor cannot be computed ends the list before it. */
  function Missed(def: Def, t: int, now: int): (ticks: seq<int>)
    requires Advances(def)
    ensures forall i | 0 <= i < |ticks| :: t <= ticks[i] <= now
    ensures forall i, j | 0 <= i < j < |ticks| :: ticks[i] < ticks[j]
    decreases if t > now then 0 else now - t + 1
  {
    if t > now || def.next(t).None? then [] else [t] + Missed(def, def.next(t).value, now)
  }

  /** The list starts at `t`, each entry is the successor of the one before, and it stops only at
      a tick in the future or one whose own successor cannot be computed. */
  lemma {:induction false} MissedIsTheGap(def: Def, t: int, now: int)
    requires Advances(def)
    ensures Missed(def, t, now) == [] <==> t > now || def.next(t).None?
    ensures var m := Missed(def, t, now);
      && (m != [] ==> m[0] == t)
      && (forall i | 0 <= i < |m| :: def.next(m[i]).Some?)
      && (forall i | 0 <= i < |m| - 1 :: m[i + 1] == def.next(m[i]).value)
      && (m != [] ==> var u := def.next(m[|m| - 1]).value; u > now || def.next(u).None?)
    decreases if t > now then 0 else now - t + 1
  {
    if t <= now && def.next(t).Some? {
      MissedIsTheGap(def, def.next(t).value, now);
    }
  }

  function Every(ms: int): Def
    requires ms >= 1
  {
    Def("every", All, false, t => Some(t + ms))
  }

  function NthTick(t: int, ms: int, i: nat): int { t + i * ms }

  lemma TickShift(t: int, ms: int, i: nat)
    ensures NthTick(t, ms, 0) == t && NthTick(t + ms, ms, i) == NthTick(t, ms, i + 1)
  {
  }

  /** A fixed interval misses one tick per interval that fits in the gap. */
  lemma {:induction false} MissedEvery(ms: int, t: int, now: int)
    requires ms >= 1
    ensures Advances(Every(ms))
    ensures var ticks := Missed(Every(ms), t, now);
      && (forall i | 0 <= i < |ticks| :: ticks[i] == NthTick(t, ms, i))
      && NthTick(t, ms, |ticks|) > now
    decreases if t > now then 0 else now - t + 1
  {
    hide NthTick;
    if t <= now {
      var u := t + ms;
      var rest := Missed(Every(ms), u, now);
      MissedEvery(ms, u, now);
      assert Missed(Every(ms), t, now) == [t] + rest;
      hide Missed;
      forall i | 0 <= i <= |rest| ensures NthTick(t, ms, 0) == t && NthTick(u, ms, i) == NthTick(t, ms, i + 1) {
        TickShift(t, ms, i);
      }
    } else {
      TickShift(t, ms, 0);
    }
  }

  /** The job a fire enqueues. */
  datatype Fire = Fire(name: Name, firedAt: int)

  function FiresOf(name: Name, ticks: seq<int>): seq<Fire> {
    seq(|ticks|, i requires 0 <= i < |ticks| => Fire(name, ticks[i]))
  }

  lemma NoFires(name: Name)
    ensures FiresOf(name, []) == []
  {
  }

  lemma MissedUnfold(def: Def, t: int, now: int)
    requires Advances(def)
    ensures Missed(def, t, now) == if t > now || def.next(t).None? then []
      else [t] + Missed(def, def.next(t).value, now)
    ensures def.next(t).Some? ==> t < def.next(t).value
  {
  }

  lemma MissedNext(name: Name, missed: seq<int>, k: nat, at: int, rest: seq<int>)
    requires k <= |missed| && missed[k..] == [at] + rest
    ensures k < |missed| && missed[k + 1..] == rest
    ensures FiresOf(name, missed[..k + 1]) == FiresOf(name, missed[..k]) + [Fire(name, at)]
  {
    assert missed[k] == missed[k..][0] && missed[k + 1..] == missed[k..][1..];
  }

  ghost predicate OthersKept(rows: Rows, rows': Rows, name: Name) {
    rows'.Keys == rows.Keys && forall other | other in rows && other != name :: rows'[other] == rows[other]
  }

  /** What a boot at `now` fires when the stored fire time is `t`. */
  function BootTicks(def: Def, t: int, now: int): seq<int>
    requires Advances(def)
  {
    var m := Missed(def, t, now);
    if def.catchup.All? then m[..Min(MaxCatchupFires, |m|)] else []
  }

  /** What one pass of the run loop over the due rows enqueues. */
  function PassFires(defs: Defs, due: seq<Tick>, now: int, busy: set<Name>): seq<Fire> {
    if due == [] then []
    else
      var d := due[|due| - 1];
      PassFires(defs, due[..|due| - 1], now, busy)
      + if d.name in defs && !(defs[d.name].skipOverlap && d.name in busy) then [Fire(d.name, now)] else []
  }

  /** The rows after that pass, when every claim in it is made against the row just read. */
  function PassRows(defs: Defs, rows: Rows, due: seq<Tick>, now: int): Rows {
    if due == [] then rows
    else
      var d, before := due[|due| - 1], PassRows(defs, rows, due[..|due| - 1], now);
      if d.name in defs then ClaimTick(before, d, NextOrMinute(defs[d.name], now), now) else before
  }

  /** Nobody else claiming: each registered due row is claimed once, however long overdue, and
      moves past `now`; every other row is untouched. */
  lemma {:induction false} PassClaimsOnce(defs: Defs, rows: Rows, due: seq<Tick>, now: int, name: Name)
    requires Current(rows, due) && name in rows && forall known | known in defs :: Advances(defs[known])
    ensures var rows' := PassRows(defs, rows, due, now);
      && rows'.Keys == rows.Keys
      && (if name in defs && exists k :: 0 <= k < |due| && due[k].name == name
          then rows'[name] == rows[name].(nextRunAt := NextOrMinute(defs[name], now), lastRunAt := Some(now))
               && rows'[name].nextRunAt > now
          else rows'[name] == rows[name])
  {
    if due != [] {
      var n := |due| - 1;
      var d := due[n];
      assert d in due;
      assert Current(rows, due[..n]);
      PassClaimsOnce(defs, rows, due[..n], now, name);
      PassClaimsOnce(defs, rows, due[..n], now, d.name);
      hide PassRows;
      PassRowsUnfold(defs, rows, due, now);
      if exists k :: 0 <= k < n && due[k].name == name {
        var k :| 0 <= k < n && due[k].name == name;
        assert due[..n][k].name == name;
      }
    }
  }

  lemma PassRowsUnfold(defs: Defs, rows: Rows, due: seq<Tick>, now: int)
    requires due != []
    ensures var d, before := due[|due| - 1], PassRows(defs, rows, due[..|due| - 1], now);
      PassRows(defs, rows, due, now) == if d.name in defs
        then ClaimTick(before, d, NextOrMinute(defs[d.name], now), now) else before
  {
  }

  ghost predicate Current(rows: Rows, due: seq<Tick>) {
    && (forall d | d in due :: Claimable(rows, d))
    && (forall i, j | 0 <= i < j < |due| :: due[i].name != due[j].name)
  }

  class ScheduleStore {
    var rows: Rows
    var fires: seq<Fire>

    method UpsertSchedule(name: Name, spec: string, computed: int) returns (at: int)
      modifies this`rows
      ensures rows == Upsert(old(rows), name, spec, computed)
      ensures name in rows && rows[name].spec == spec && at == rows[name].nextRunAt
      ensures name in old(rows) && old(rows)[name].spec == spec ==> rows == old(rows)
      ensures name !in old(rows) || old(rows)[name].spec != spec ==>
        rows == old(rows)[name := Row(spec, computed, None)] && at == computed
    {
      if name !in rows || rows[name].spec != spec {
        rows := rows[name := Row(spec, computed, None)];
      }
      at := rows[name].nextRunAt;
    }

    method ScheduleClaimTick(tick: Tick, next: int, now: int) returns (claimed: bool)
      modifies this`rows
      ensures rows == ClaimTick(old(rows), tick, next, now)
      ensures claimed <==> Claimable(old(rows), tick)
    {
      claimed := tick.name in rows && rows[tick.name].nextRunAt == tick.at;
      if claimed {
        rows := rows[tick.name := rows[tick.name].(nextRunAt := next, lastRunAt := Some(now))];
      }
    }

    /** Replays the gap from `t`: fires its first ticks, up to the cap, in order and once each,
        and leaves the next fire time in the future. */
    method ReplayGap(name: Name, def: Def, t: int, now: int) returns (ok: bool)
      requires Advances(def) && def.catchup.All? && Claimable(rows, Tick(name, t)) && t <= now && def.next(now).Some?
      modifies this
      ensures fires == old(fires) + FiresOf(name, BootTicks(def, t, now))
      ensures OthersKept(old(rows), rows, name)
      ensures ok ==> rows[name].nextRunAt > now
      ensures (forall u :: def.next(u).Some?) ==> ok
    {
      var at, fired := t, 0;
      ghost var missed := Missed(def, t, now);
      NoFires(name);
      hide Missed, FiresOf;
      while at <= now && fired < MaxCatchupFires
        invariant fired <= MaxCatchupFires && fired <= |missed|
        invariant Claimable(rows, Tick(name, at))
        invariant missed[fired..] == Missed(def, at, now)
        invariant fires == old(fires) + FiresOf(name, missed[..fired])
        invariant OthersKept(old(rows), rows, name)
        decreases MaxCatchupFires - fired
      {
        MissedUnfold(def, at, now);
        if def.next(at).None? {
          return false;
        }
        var next := def.next(at).value;
        var claimed := ScheduleClaimTick(Tick(name, at), next, now);
        MissedNext(name, missed, fired, at, Missed(def, next, now));
        fires := fires + [Fire(name, at)];
        fired := fired + 1;
        at := next;
      }
      MissedUnfold(def, at, now);
      if fired == MaxCatchupFires && at <= now {
        var _ := ScheduleClaimTick(Tick(name, at), def.next(now).value, now);
      }
      ok := true;
    }

    /** Boots one schedule: `all` fires the missed ticks, `skip` and `runOnce` fire none, and
        only `runOnce` leaves an overdue fire time for the run loop. */
    method BootSchedule(name: Name, def: Def, now: int) returns (ok: bool)
      requires Advances(def)
      modifies this
      ensures def.next(now).None? ==> !ok && rows == old(rows) && fires == old(fires)
      ensures def.next(now).Some? ==>
        var stored := Upsert(old(rows), name, def.spec, def.next(now).value);
        var t := stored[name].nextRunAt;
        && fires == old(fires) + FiresOf(name, BootTicks(def, t, now))
        && OthersKept(stored, rows, name)
        && (t > now || def.catchup.RunOnce? ==> rows == stored)
        && (ok && !def.catchup.RunOnce? ==> rows[name].nextRunAt > now)
      ensures def.next(now).Some? && (name !in old(rows) || old(rows)[name].spec != def.spec) ==>
        ok && rows == old(rows)[name := Row(def.spec, def.next(now).value, None)] && fires == old(fires)
      ensures (forall u :: def.next(u).Some?) ==> ok
    {
      if def.next(now).None? {
        return false;
      }
      var t := UpsertSchedule(name, def.spec, def.next(now).value);
      ok := true;
      if t <= now {
        match def.catchup
        case Skip =>
          var _ := ScheduleClaimTick(Tick(name, t), def.next(now).value, now);
        case RunOnce =>
        case All =>
          ok := ReplayGap(name, def, t, now);
      }
    }

    /** One pass of the run loop over the due rows it read. */
    method Pass(defs: Defs, due: seq<Tick>, now: int, busy: set<Name>)
      requires Current(rows, due) && forall name | name in defs :: Advances(defs[name])
      modifies this
      ensures rows == PassRows(defs, old(rows), due, now)
      ensures fires == old(fires) + PassFires(defs, due, now, busy)
    {
      for i := 0 to |due|
        invariant rows == PassRows(defs, old(rows), due[..i], now)
        invariant fires == old(fires) + PassFires(defs, due[..i], now, busy)
      {
        var d := due[i];
        assert due[..i + 1][..i] == due[..i];
        StillCurrent(defs, old(rows), due, now, i);
        if d.name in defs {
          var def := defs[d.name];
          var claimed := ScheduleClaimTick(d, NextOrMinute(def, now), now);
          if claimed && !(def.skipOverlap && d.name in busy) {
            fires := fires + [Fire(d.name, now)];
          }
        }
      }
      assert due[..|due|] == due;
    }
  }

  lemma StillCurrent(defs: Defs, rows: Rows, due: seq<Tick>, now: int, i: nat)
    requires Current(rows, due) && i < |due| && forall name | name in defs :: Advances(defs[name])
    ensures Claimable(PassRows(defs, rows, due[..i], now), due[i])
  {
    assert due[i] in due && Current(rows, due[..i]);
    PassClaimsOnce(defs, rows, due[..i], now, due[i].name);
  }

  // ---- One tick for the whole gap ----------------------------------------------------------------------------

  function CountOf(ticks: seq<Tick>, name: Name): nat {
    if ticks == [] then 0 else CountOf(ticks[..|ticks| - 1], name) + if ticks[|ticks| - 1].name == name then 1 else 0
  }

  lemma CountSnoc(ticks: seq<Tick>, tick: Tick, name: Name)
    ensures CountOf(ticks + [tick], name) == CountOf(ticks, name) + if tick.name == name then 1 else 0
  {
    assert (ticks + [tick])[..|ticks|] == ticks;
  }

  /** A clock reading before `bound`, after which the schedule's next time is not before it. */
  predicate Within(def: Def, bound: int, now: int) { now < bound <= NextOrMinute(def, now) }

  predicate ReadsWithin(op: Op, def: Def, bound: int) {
    (op.Boot? ==> Within(def, bound, op.now)) && (op.Poll? ==> Within(def, bound, op.now))
  }

  predicate LocalWithin(local: Local, name: Name, def: Def, bound: int) {
    && (local.Ticking? ==> Within(def, bound, local.now))
    && (local.CatchingUp? ==> local.tick.name != name)
  }

  /** Still waiting at `t` with `n` wins, or won once more and past the bound. */
  predicate OnceAt(s: System, name: Name, t: int, n: nat, bound: int) {
    name in s.rows
    && if s.rows[name].nextRunAt == t then CountOf(s.wins, name) == n
       else CountOf(s.wins, name) == n + 1 && s.rows[name].nextRunAt >= bound
  }

  ghost predicate AllWithin(s: System, name: Name, def: Def, bound: int) {
    forall n | n in s.nodes :: LocalWithin(s.nodes[n].local, name, def, bound)
  }

  /** A claim either leaves the schedule alone, or wins its tick before the bound and passes it. */
  lemma ClaimOnce(s: System, n: NodeId, tick: Tick, next: int, now: int, fire: bool, won: Local, lost: Local,
                  name: Name, t: int, wins: nat, bound: int)
    requires OnceAt(s, name, t, wins, bound) && t < bound
    requires tick.name == name ==> tick.at < bound <= next
    ensures OnceAt(Claim(s, n, tick, next, now, fire, won, lost), name, t, wins, bound)
  {
    CountSnoc(s.wins, tick, name);
  }

  lemma StepOnce(defs: Defs, s: System, op: Op, name: Name, t: int, wins: nat, bound: int)
    requires Inv(defs, s) && Legal(defs, s, op) && name in defs && defs[name].catchup.RunOnce? && t < bound
    requires OnceAt(s, name, t, wins, bound) && AllWithin(s, name, defs[name], bound)
      && ReadsWithin(op, defs[name], bound)
    ensures var s' := Step(defs, s, op); OnceAt(s', name, t, wins, bound) && AllWithin(s', name, defs[name], bound)
  {
    hide OnceAt, AllWithin, Dropped;
    DroppedOnce(s, op.node, name, defs[name], t, wins, bound);
    match op
    case Boot(n, bootName, now) => BootOnce(defs, s, n, bootName, now, name, t, wins, bound);
    case Poll(n, due, now) =>
      var local := Ticking(Observed(s.rows, due), now);
      assert Step(defs, s, op) == Put(Dropped(s, n), n, local, None);
      PutOnce(Dropped(s, n), n, local, name, defs[name], t, wins, bound);
    case Crash(n) => PutOnce(Dropped(s, n), n, Resting, name, defs[name], t, wins, bound);
    case Advance(n, busy) =>
      if n in s.nodes {
        AdvanceOnce(defs, s, n, busy, name, t, wins, bound);
      }
  }

  lemma DroppedOnce(s: System, n: NodeId, name: Name, def: Def, t: int, wins: nat, bound: int)
    ensures OnceAt(Dropped(s, n), name, t, wins, bound) <==> OnceAt(s, name, t, wins, bound)
    ensures AllWithin(Dropped(s, n), name, def, bound) <==> AllWithin(s, name, def, bound)
  {
    assert forall m | m in s.nodes :: m in Dropped(s, n).nodes && Dropped(s, n).nodes[m].local == s.nodes[m].local;
  }

  lemma PutOnce(s: System, n: NodeId, local: Local, name: Name, def: Def, t: int, wins: nat, bound: int)
    ensures OnceAt(s, name, t, wins, bound) ==> OnceAt(Put(s, n, local, None), name, t, wins, bound)
    ensures AllWithin(s, name, def, bound) && LocalWithin(local, name, def, bound) ==>
      AllWithin(Put(s, n, local, None), name, def, bound)
  {
  }

  lemma BootOnce(defs: Defs, s: System, n: NodeId, bootName: Name, now: int, name: Name, t: int, wins: nat, bound: int)
    requires SpecsMatch(defs, s.rows) && name in defs && bootName in defs && defs[name].catchup.RunOnce?
    requires OnceAt(s, name, t, wins, bound) && AllWithin(s, name, defs[name], bound)
    ensures var s' := Step(defs, s, Boot(n, bootName, now));
      OnceAt(s', name, t, wins, bound) && AllWithin(s', name, defs[name], bound)
  {
    var s0 := Dropped(s, n);
    DroppedOnce(s, n, name, defs[name], t, wins, bound);
    hide AllWithin;
    PutOnce(s0, n, Resting, name, defs[name], t, wins, bound);
    if defs[bootName].next(now).Some? {
      var rows := Upsert(s.rows, bootName, defs[bootName].spec, defs[bootName].next(now).value);
      var s1 := s0.(rows := rows);
      assert AllWithin(s1, name, defs[name], bound) by {
        SameNodesWithin(s0, s1, name, defs[name], bound);
      }
      PutOnce(s1, n, Resting, name, defs[name], t, wins, bound);
      PutOnce(s1, n, CatchingUp(Tick(bootName, rows[bootName].nextRunAt), 0, now), name, defs[name], t, wins, bound);
    }
  }

  lemma SameNodesWithin(s: System, s': System, name: Name, def: Def, bound: int)
    requires AllWithin(s, name, def, bound) && s'.nodes == s.nodes
    ensures AllWithin(s', name, def, bound)
  {
  }

  lemma AdvanceOnce(defs: Defs, s: System, n: NodeId, busy: bool, name: Name, t: int, wins: nat, bound: int)
    requires Inv(defs, s) && n in s.nodes && name in defs && t < bound
    requires OnceAt(s, name, t, wins, bound) && AllWithin(s, name, defs[name], bound)
    ensures var s' := Step(defs, s, Advance(n, busy));
      OnceAt(s', name, t, wins, bound) && AllWithin(s', name, defs[name], bound)
  {
    var local := s.nodes[n].local;
    assert DueOk(local) && LocalWithin(local, name, defs[name], bound);
    hide Inv, DueOk, TickStep, CatchUpStep;
    if s.nodes[n].firing.Some? {
      var s1 := s.(fires := s.fires + [s.nodes[n].firing.value]);
      assert OnceAt(s1, name, t, wins, bound);
      SameNodesWithin(s, s1, name, defs[name], bound);
      hide OnceAt, AllWithin;
      PutOnce(s1, n, local, name, defs[name], t, wins, bound);
    } else if local.Ticking? {
      hide OnceAt, AllWithin;
      TickOnce(defs, s, n, local.due, local.now, busy, name, t, wins, bound);
    } else if local.CatchingUp? {
      hide OnceAt, AllWithin;
      CatchUpOnce(defs, s, n, local.tick, local.fired, local.now, name, t, wins, bound);
    }
  }

  lemma TickOnce(defs: Defs, s: System, n: NodeId, due: seq<Tick>, now: int, busy: bool, name: Name, t: int,
                 wins: nat, bound: int)
    requires name in defs && t < bound && DueOk(Ticking(due, now)) && Within(defs[name], bound, now)
    requires OnceAt(s, name, t, wins, bound) && AllWithin(s, name, defs[name], bound)
    ensures var s' := TickStep(defs, s, n, due, now, busy);
      OnceAt(s', name, t, wins, bound) && AllWithin(s', name, defs[name], bound)
  {
    if due != [] && due[0].name in defs {
      var def, rest := defs[due[0].name], Ticking(due[1..], now);
      assert due[0] in due;
      ClaimOnce(s, n, due[0], NextOrMinute(def, now), now, !(def.skipOverlap && busy), rest, rest, name, t, wins,
        bound);
    }
  }

  lemma CatchUpOnce(defs: Defs, s: System, n: NodeId, tick: Tick, fired: nat, now: int, name: Name, t: int, wins: nat,
                    bound: int)
    requires name in defs && t < bound && tick.name != name
    requires OnceAt(s, name, t, wins, bound) && AllWithin(s, name, defs[name], bound)
    ensures var s' := CatchUpStep(defs, s, n, tick, fired, now);
      OnceAt(s', name, t, wins, bound) && AllWithin(s', name, defs[name], bound)
  {
    CountSnoc(s.wins, tick, name);
  }

  /** `runOnce` on any number of nodes: from a state in which all nodes rest and the schedule is
      overdue at `t`, over any boots, polls, claims and crashes whose clocks read less than the next
      time, the whole gap is worth at most one won tick. */
  lemma {:induction false} RunOnceWinsOnce(defs: Defs, s: System, ops: seq<Op>, name: Name, t: int, bound: int)
    requires Inv(defs, s) && (forall known | known in defs :: Advances(defs[known]))
    requires name in defs && defs[name].catchup.RunOnce? && Claimable(s.rows, Tick(name, t)) && t < bound
    requires forall n | n in s.nodes :: s.nodes[n].local.Resting?
    requires forall op | op in ops :: ReadsWithin(op, defs[name], bound)
    ensures Inv(defs, ExecFrom(defs, s, ops))
    ensures OnceAt(ExecFrom(defs, s, ops), name, t, CountOf(s.wins, name), bound)
    ensures AllWithin(ExecFrom(defs, s, ops), name, defs[name], bound)
  {
    if ops != [] {
      var m := |ops| - 1;
      var s' := ExecFrom(defs, s, ops[..m]);
      assert ops[m] in ops && forall op | op in ops[..m] :: op in ops;
      hide Inv, Advances, OnceAt, AllWithin, ReadsWithin, Step, Legal;
      RunOnceWinsOnce(defs, s, ops[..m], name, t, bound);
      if Legal(defs, s', ops[m]) {
        StepKeepsInv(defs, s', ops[m]);
        StepOnce(defs, s', ops[m], name, t, CountOf(s.wins, name), bound);
      }
    }
  }

  // ---- The run loop of one node --------------------------------------------------------------------------------

  /** `due` lists exactly the rows due at `now`, once each. */
  ghost predicate DueRows(rows: Rows, due: seq<Tick>, now: int) {
    && Current(rows, due)
    && (forall d | d in due :: d.at <= now)
    && (forall name | name in rows && rows[name].nextRunAt <= now :: exists k :: 0 <= k < |due| && due[k].name == name)
  }

  predicate Claims(defs: Defs, rows: Rows, now: int, name: Name) {
    name in rows && name in defs && rows[name].nextRunAt <= now
  }

  /** The rows after a pass that reads every due row. */
  function PassedRows(defs: Defs, rows: Rows, now: int): Rows {
    map name | name in rows ::
      if Claims(defs, rows, now, name)
      then rows[name].(nextRunAt := NextOrMinute(defs[name], now), lastRunAt := Some(now)) else rows[name]
  }

  lemma PassIsRowwise(defs: Defs, rows: Rows, due: seq<Tick>, now: int)
    requires DueRows(rows, due, now) && forall known | known in defs :: Advances(defs[known])
    ensures PassRows(defs, rows, due, now) == PassedRows(defs, rows, now)
  {
    hide PassRows, Advances;
    var rows' := PassRows(defs, rows, due, now);
    forall name | name in rows ensures name in rows' && rows'[name] == PassedRows(defs, rows, now)[name] {
      PassClaimsOnce(defs, rows, due, now, name);
      forall k | 0 <= k < |due| && due[k].name == name ensures rows[name].nextRunAt <= now {
        assert due[k] in due;
      }
    }
    PassKeys(defs, rows, due, now);
  }

  lemma {:induction false} PassKeys(defs: Defs, rows: Rows, due: seq<Tick>, now: int)
    ensures PassRows(defs, rows, due, now).Keys == rows.Keys
  {
    if due != [] {
      PassKeys(defs, rows, due[..|due| - 1], now);
    }
  }

  /** The rows after a pass at each clock reading, and the passes that claimed the schedule. */
  function LoopRows(defs: Defs, rows: Rows, clocks: seq<int>): Rows {
    if clocks == [] then rows else PassedRows(defs, LoopRows(defs, rows, clocks[..|clocks| - 1]), clocks[|clocks| - 1])
  }

  function LoopClaims(defs: Defs, rows: Rows, clocks: seq<int>, name: Name): nat {
    if clocks == [] then 0
    else
      var n := |clocks| - 1;
      LoopClaims(defs, rows, clocks[..n], name)
      + if Claims(defs, LoopRows(defs, rows, clocks[..n]), clocks[n], name) then 1 else 0
  }

  /** An overdue schedule is claimed by the first pass, and by no later one before the next time. */
  lemma {:induction false} OneClaimPerGap(defs: Defs, rows: Rows, clocks: seq<int>, name: Name)
    requires name in rows && name in defs && clocks != [] && rows[name].nextRunAt <= clocks[0]
    requires forall k | 1 <= k < |clocks| :: clocks[k] < NextOrMinute(defs[name], clocks[0])
    ensures LoopClaims(defs, rows, clocks, name) == 1 && name in LoopRows(defs, rows, clocks)
    ensures LoopRows(defs, rows, clocks)[name].nextRunAt == NextOrMinute(defs[name], clocks[0])
    ensures LoopRows(defs, rows, clocks)[name].lastRunAt == Some(clocks[0])
  {
    var n := |clocks| - 1;
    if n > 0 {
      OneClaimPerGap(defs, rows, clocks[..n], name);
    } else {
      assert clocks[..0] == [];
      assert LoopRows(defs, rows, clocks[..0]) == rows && LoopClaims(defs, rows, clocks[..0], name) == 0;
    }
  }

  function FireCount(fires: seq<Fire>, name: Name): nat {
    if fires == [] then 0 else FireCount(fires[..|fires| - 1], name) + if fires[|fires| - 1].name == name then 1 else 0
  }

  lemma {:induction false} FireCountSum(a: seq<Fire>, b: seq<Fire>, name: Name)
    ensures FireCount(a + b, name) == FireCount(a, name) + FireCount(b, name)
  {
    if b == [] {
      assert a + b == a;
    } else {
      assert (a + b)[..|a + b| - 1] == a + b[..|b| - 1];
      FireCountSum(a, b[..|b| - 1], name);
    }
  }

  /** A pass enqueues one job for each registered schedule it lists, told the time of the pass, except
      where an overlap is to be skipped and a job is still running. */
  lemma {:induction false} PassFiresOnce(defs: Defs, due: seq<Tick>, now: int, busy: set<Name>, name: Name)
    requires forall i, j | 0 <= i < j < |due| :: due[i].name != due[j].name
    ensures FireCount(PassFires(defs, due, now, busy), name)
            == if Lists(due, name) && name in defs && !(defs[name].skipOverlap && name in busy) then 1 else 0
    ensures forall f | f in PassFires(defs, due, now, busy) :: f.firedAt == now
  {
    if due != [] {
      var n := |due| - 1;
      PassFiresOnce(defs, due[..n], now, busy, name);
      ListsSnoc(due, name);
      hide Lists;
      var rest, last := PassFires(defs, due[..n], now, busy), [Fire(due[n].name, now)];
      FireCountSum(rest, last, name);
      assert last[..0] == [] && rest + [] == rest;
      assert FireCount(last, name) == FireCount(last[..0], name) + if due[n].name == name then 1 else 0;
    }
  }

  ghost predicate Lists(due: seq<Tick>, name: Name) { exists k :: 0 <= k < |due| && due[k].name == name }

  lemma ListsSnoc(due: seq<Tick>, name: Name)
    requires due != [] && forall i, j | 0 <= i < j < |due| :: due[i].name != due[j].name
    ensures var n := |due| - 1;
      && (Lists(due, name) <==> Lists(due[..n], name) || due[n].name == name)
      && !(Lists(due[..n], name) && due[n].name == name)
  {
    var n := |due| - 1;
    if Lists(due[..n], name) {
      var k :| 0 <= k < n && due[..n][k].name == name;
      assert due[k].name == name;
    }
    if Lists(due, name) && due[n].name != name {
      var k :| 0 <= k < |due| && due[k].name == name;
      assert due[..n][k].name == name;
    }
  }

  class SchedulerNode {
    const store: ScheduleStore
    const defs: Defs

    constructor (store: ScheduleStore, defs: Defs)
      ensures this.store == store && this.defs == defs
    {
      this.store := store;
      this.defs := defs;
    }

    /** `SELECT ... WHERE next_run_at <= now`, in whatever order the rows come. */
    method DueSchedules(now: int) returns (due: seq<Tick>)
      ensures DueRows(store.rows, due, now)
    {
      var rows := store.rows;
      var rest := set name | name in rows && rows[name].nextRunAt <= now;
      due := [];
      while rest != {}
        invariant forall d | d in due :: Claimable(rows, d) && d.at <= now && d.name !in rest
        invariant forall i, j | 0 <= i < j < |due| :: due[i].name != due[j].name
        invariant forall name | name in rest :: name in rows && rows[name].nextRunAt <= now
        invariant forall name | name in rows && rows[name].nextRunAt <= now ::
          name in rest || exists k :: 0 <= k < |due| && due[k].name == name
        decreases |rest|
      {
        var name :| name in rest;
        ghost var before := due;
        due := due + [Tick(name, rows[name].nextRunAt)];
        assert due[|before|].name == name && forall k | 0 <= k < |before| :: due[k] == before[k] && before[k] in before;
        rest := rest - {name};
      }
    }

    /** The run loop at the given clock readings; `busy` is what each pass reads as running. */
    method RunLoop(clocks: seq<int>, busy: seq<set<Name>>)
      requires |busy| == |clocks| && forall name | name in defs :: Advances(defs[name])
      modifies store
      ensures store.rows == LoopRows(defs, old(store.rows), clocks)
      ensures forall name | name in defs && !defs[name].skipOverlap ::
        FireCount(store.fires, name) == FireCount(old(store.fires), name)
          + LoopClaims(defs, old(store.rows), clocks, name)
    {
      hide Advances, Current, DueRows, PassRows, PassedRows, PassFires, FireCount;
      for i := 0 to |clocks|
        invariant store.rows == LoopRows(defs, old(store.rows), clocks[..i])
        invariant forall name | name in defs && !defs[name].skipOverlap ::
          FireCount(store.fires, name) == FireCount(old(store.fires), name)
            + LoopClaims(defs, old(store.rows), clocks[..i], name)
      {
        var due := DueSchedules(clocks[i]);
        ghost var rows, fires := store.rows, store.fires;
        assert clocks[..i + 1][..i] == clocks[..i];
        DueIsCurrent(rows, due, clocks[i]);
        PassIsRowwise(defs, rows, due, clocks[i]);
        store.Pass(defs, due, clocks[i], busy[i]);
        forall name | name in defs && !defs[name].skipOverlap
          ensures FireCount(store.fires, name)
                  == FireCount(fires, name) + if Claims(defs, rows, clocks[i], name) then 1 else 0
        {
          PassCount(defs, rows, due, clocks[i], busy[i], fires, name);
        }
      }
      assert clocks[..|clocks|] == clocks;
    }

    /** `runOnce` after downtime: a boot on an overdue row, then polls before the next time, enqueue
        exactly one job for the whole gap, however many ticks it missed. */
    method CatchUpOnce(name: Name, now: int, clocks: seq<int>, busy: seq<set<Name>>)
      requires |busy| == |clocks| && clocks != [] && forall known | known in defs :: Advances(defs[known])
      requires name in defs && defs[name].catchup.RunOnce? && !defs[name].skipOverlap && defs[name].next(now).Some?
      requires name in store.rows && store.rows[name].spec == defs[name].spec
      requires store.rows[name].nextRunAt <= now <= clocks[0]
      requires forall k | 1 <= k < |clocks| :: clocks[k] < NextOrMinute(defs[name], clocks[0])
      modifies store
      ensures FireCount(store.fires, name) == FireCount(old(store.fires), name) + 1
      ensures name in store.rows && store.rows[name].nextRunAt == NextOrMinute(defs[name], clocks[0])
    {
      var _ := store.BootSchedule(name, defs[name], now);
      assert store.fires == old(store.fires) + [] == old(store.fires);
      assert store.rows == old(store.rows);
      OneClaimPerGap(defs, store.rows, clocks, name);
      hide FireCount, LoopRows, LoopClaims;
      RunLoop(clocks, busy);
    }
  }

  lemma DueIsCurrent(rows: Rows, due: seq<Tick>, now: int)
    requires DueRows(rows, due, now)
    ensures Current(rows, due)
  {
  }

  lemma PassCount(defs: Defs, rows: Rows, due: seq<Tick>, now: int, busy: set<Name>, fires: seq<Fire>, name: Name)
    requires DueRows(rows, due, now) && name in defs && !defs[name].skipOverlap
    ensures FireCount(fires + PassFires(defs, due, now, busy), name)
            == FireCount(fires, name) + if Claims(defs, rows, now, name) then 1 else 0
  {
    PassFiresOnce(defs, due, now, busy, name);
    FireCountSum(fires, PassFires(defs, due, now, busy), name);
    forall k | 0 <= k < |due| ensures due[k].name in rows && rows[due[k].name].nextRunAt <= now {
      assert due[k] in due;
    }
  }
}
