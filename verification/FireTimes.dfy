/** Which instants a schedule fires at: no claim passes over a fire time still to come, and polls that
    keep up win them all. */
module FireTimes {
  import opened Orders
  import opened Scheduling

  /** `times` are the instants the schedule is meant to fire at: a computed next time is the first of
      them strictly after the given instant. */
  ghost predicate Calendar(def: Def, times: iset<int>) {
    forall t :: def.next(t).Some? ==> FirstAfter(times, t, def.next(t).value)
  }

  ghost predicate FirstAfter(times: iset<int>, t: int, u: int) {
    t < u && u in times && forall v | v in times && t < v :: u <= v
  }

  lemma CalendarAdvances(def: Def, times: iset<int>)
    requires Calendar(def, times)
    ensures Advances(def)
  {
    forall t | def.next(t).Some? ensures def.next(t).value > t {
      assert FirstAfter(times, t, def.next(t).value);
    }
  }

  // ---- A fire time still to come is not passed over -------------------------------------------------------

  /** A pass at `now` moves a claimed row to the first fire time after `now`; when that cannot be
      computed, to a minute later. */
  lemma PassFindsNext(defs: Defs, rows: Rows, now: int, name: Name, times: iset<int>)
    requires name in rows && name in defs && rows[name].nextRunAt <= now && Calendar(defs[name], times)
    ensures var row := PassedRows(defs, rows, now)[name];
      && row.spec == rows[name].spec && row.lastRunAt == Some(now)
      && if defs[name].next(now).Some? then FirstAfter(times, now, row.nextRunAt) else row.nextRunAt == now + 60_000
  {
  }

  predicate ClockBefore(op: Op, v: int) { (op.Boot? || op.Poll?) ==> op.now < v }

  predicate LocalBefore(local: Local, v: int) { !local.Resting? ==> local.now < v }

  /** The stored time is a fire time and has not run past `v`, which no node's clock has reached. */
  ghost predicate Upcoming(s: System, name: Name, times: iset<int>, v: int) {
    && name in s.rows && s.rows[name].nextRunAt in times && s.rows[name].nextRunAt <= v
    && forall n | n in s.nodes :: LocalBefore(s.nodes[n].local, v)
  }

  ghost predicate Computable(def: Def, v: int) { forall t | t < v :: def.next(t).Some? }

  lemma ClaimUpcoming(s: System, n: NodeId, tick: Tick, next: int, now: int, fire: bool, won: Local, lost: Local,
                      name: Name, times: iset<int>, v: int)
    requires Upcoming(s, name, times, v) && LocalBefore(won, v) && LocalBefore(lost, v)
    requires tick.name == name ==> next in times && next <= v
    ensures Upcoming(Claim(s, n, tick, next, now, fire, won, lost), name, times, v)
  {
  }

  lemma StepUpcoming(defs: Defs, s: System, op: Op, name: Name, times: iset<int>, v: int)
    requires Legal(defs, s, op) && SpecsMatch(defs, s.rows) && name in defs && Calendar(defs[name], times)
    requires v in times && Computable(defs[name], v) && ClockBefore(op, v) && Upcoming(s, name, times, v)
    ensures Upcoming(Step(defs, s, op), name, times, v)
  {
    var def := defs[name];
    hide Calendar, Computable;
    if op.Advance? && op.node in s.nodes && s.nodes[op.node].firing.None? {
      var local := s.nodes[op.node].local;
      assert LocalBefore(local, v);
      if local.CatchingUp? && local.tick.at <= local.now && local.tick.name in defs {
        NextUpcoming(def, times, v, local.tick.at);
        NextUpcoming(def, times, v, local.now);
      } else if local.Ticking? && local.due != [] && local.due[0].name in defs {
        var d, rest := defs[local.due[0].name], Ticking(local.due[1..], local.now);
        NextUpcoming(def, times, v, local.now);
        ClaimUpcoming(s, op.node, local.due[0], NextOrMinute(d, local.now), local.now, !(d.skipOverlap && op.busy),
          rest, rest, name, times, v);
      }
    }
  }

  lemma NextUpcoming(def: Def, times: iset<int>, v: int, t: int)
    requires Calendar(def, times) && Computable(def, v) && v in times && t < v
    ensures def.next(t).Some? && def.next(t).value in times && def.next(t).value <= v
  {
    assert FirstAfter(times, t, def.next(t).value);
  }

  lemma StepSpecs(defs: Defs, s: System, op: Op)
    requires Legal(defs, s, op) && SpecsMatch(defs, s.rows)
    ensures SpecsMatch(defs, Step(defs, s, op).rows)
  {
  }

  /** However many nodes boot, poll, claim and crash, a fire time that no clock has reached is never
      passed over: until then the stored time is a fire time, and not a later one. */
  lemma {:induction false} NoneSkipped(defs: Defs, rows: Rows, ops: seq<Op>, name: Name, times: iset<int>, v: int)
    requires SpecsMatch(defs, rows) && name in defs && name in rows
    requires Calendar(defs[name], times) && Computable(defs[name], v)
    requires v in times && rows[name].nextRunAt in times && rows[name].nextRunAt <= v
    requires forall op | op in ops :: ClockBefore(op, v)
    ensures Upcoming(Exec(defs, rows, ops), name, times, v) && SpecsMatch(defs, Exec(defs, rows, ops).rows)
  {
    if ops != [] {
      var m := |ops| - 1;
      var s := Exec(defs, rows, ops[..m]);
      assert ops[m] in ops && forall op | op in ops[..m] :: op in ops;
      hide Calendar, Computable, Upcoming, Step, Legal, SpecsMatch, ClockBefore;
      NoneSkipped(defs, rows, ops[..m], name, times, v);
      if Legal(defs, s, ops[m]) {
        StepUpcoming(defs, s, ops[m], name, times, v);
        StepSpecs(defs, s, ops[m]);
      }
    }
  }

  // ---- Polls that keep up win every fire time -----------------------------------------------------------------

  /** Each poll comes once its tick is due, and the next tick is the one computed at that poll. */
  ghost predicate KeepsUp(def: Def, ticks: seq<int>, clocks: seq<int>) {
    && |ticks| == |clocks| + 1
    && forall i | 0 <= i < |clocks| :: ticks[i] <= clocks[i] && def.next(clocks[i]) == Some(ticks[i + 1])
  }

  lemma KeptUp(def: Def, ticks: seq<int>, clocks: seq<int>)
    requires KeepsUp(def, ticks, clocks) && clocks != []
    ensures var k := |clocks| - 1;
      && KeepsUp(def, ticks[..k + 1], clocks[..k]) && ticks[k] <= clocks[k] && def.next(clocks[k]) == Some(ticks[k + 1])
  {
  }

  function TicksOf(name: Name, ticks: seq<int>): seq<Tick> {
    seq(|ticks|, i requires 0 <= i < |ticks| => Tick(name, ticks[i]))
  }

  /** One node polls the schedule at each reading, claims its tick and enqueues its job. */
  function Polls(n: NodeId, name: Name, clocks: seq<int>): seq<Op> {
    if clocks == [] then []
    else
      Polls(n, name, clocks[..|clocks| - 1])
      + [Poll(n, [name], clocks[|clocks| - 1])] + [Advance(n, false)] + [Advance(n, false)]
  }

  lemma ExecFromSnoc(defs: Defs, s: System, ops: seq<Op>, op: Op)
    ensures var s' := ExecFrom(defs, s, ops);
      ExecFrom(defs, s, ops + [op]) == if Legal(defs, s', op) then Step(defs, s', op) else s'
  {
    assert (ops + [op])[..|ops|] == ops;
  }

  ghost predicate Idle(s: System, n: NodeId) { n in s.nodes ==> s.nodes[n].firing.None? }

  /** One poll of a due schedule wins its tick, fires it, and moves the row to `next`. */
  lemma OnePoll(defs: Defs, s: System, ops: seq<Op>, n: NodeId, name: Name, now: int, next: int)
    requires var s1 := ExecFrom(defs, s, ops);
      Idle(s1, n) && name in s1.rows && name in defs && s1.rows[name].nextRunAt <= now && defs[name].next(now) == Some(next)
    ensures var s1 := ExecFrom(defs, s, ops);
      var s2 := ExecFrom(defs, s, ops + [Poll(n, [name], now)] + [Advance(n, false)] + [Advance(n, false)]);
      && Idle(s2, n) && name in s2.rows && s2.rows[name].nextRunAt == next
      && s2.wins == s1.wins + [Tick(name, s1.rows[name].nextRunAt)]
      && s2.fires == s1.fires + [Tick(name, s1.rows[name].nextRunAt)]
      && s2.lost == s1.lost && s2.silent == s1.silent
  {
    hide ExecFrom;
    var op, go := Poll(n, [name], now), Advance(n, false);
    ExecFromSnoc(defs, s, ops, op);
    ExecFromSnoc(defs, s, ops + [op], go);
    ExecFromSnoc(defs, s, ops + [op] + [go], go);
    assert Observed(ExecFrom(defs, s, ops).rows, [name]) == [Tick(name, ExecFrom(defs, s, ops).rows[name].nextRunAt)];
  }

  /** A node whose polls keep up wins and fires every tick, in turn and with none left out. */
  lemma {:induction false} PollsWinEveryTick(defs: Defs, s: System, n: NodeId, name: Name, ticks: seq<int>,
                                             clocks: seq<int>)
    requires name in s.rows && name in defs && Idle(s, n)
    requires KeepsUp(defs[name], ticks, clocks) && ticks[0] == s.rows[name].nextRunAt
    ensures var s', k := ExecFrom(defs, s, Polls(n, name, clocks)), |clocks|;
      && Idle(s', n) && name in s'.rows && s'.rows[name].nextRunAt == ticks[k]
      && s'.wins == s.wins + TicksOf(name, ticks[..k]) && s'.fires == s.fires + TicksOf(name, ticks[..k])
      && s'.lost == s.lost && s'.silent == s.silent
    decreases |clocks|
  {
    if clocks == [] {
      assert TicksOf(name, ticks[..0]) == [];
    } else {
      var k := |clocks| - 1;
      KeptUp(defs[name], ticks, clocks);
      TickSnoc(name, ticks, k);
      PollsUnfold(n, name, clocks);
      hide *;
      PollsWinEveryTick(defs, s, n, name, ticks[..k + 1], clocks[..k]);
      OnePoll(defs, s, Polls(n, name, clocks[..k]), n, name, clocks[k], ticks[k + 1]);
    }
  }

  lemma TickSnoc(name: Name, ticks: seq<int>, k: nat)
    requires k < |ticks|
    ensures ticks[..k + 1][..k] == ticks[..k] && ticks[..k + 1][0] == ticks[0]
    ensures TicksOf(name, ticks[..k + 1]) == TicksOf(name, ticks[..k]) + [Tick(name, ticks[k])]
  {
  }

  lemma PollsUnfold(n: NodeId, name: Name, clocks: seq<int>)
    requires clocks != []
    ensures var k := |clocks| - 1;
      Polls(n, name, clocks)
      == Polls(n, name, clocks[..k]) + [Poll(n, [name], clocks[k])] + [Advance(n, false)] + [Advance(n, false)]
  {
  }

  /** The run loop of one node, on the rows: every pass claims the schedule, and the next time is the
      tick after the last. */
  lemma {:induction false} LoopClaimsEveryTick(defs: Defs, rows: Rows, name: Name, ticks: seq<int>, clocks: seq<int>)
    requires name in rows && name in defs
    requires KeepsUp(defs[name], ticks, clocks) && ticks[0] == rows[name].nextRunAt
    ensures LoopClaims(defs, rows, clocks, name) == |clocks|
    ensures name in LoopRows(defs, rows, clocks) && LoopRows(defs, rows, clocks)[name].nextRunAt == ticks[|clocks|]
    decreases |clocks|
  {
    if clocks != [] {
      var k := |clocks| - 1;
      KeptUp(defs[name], ticks, clocks);
      hide KeepsUp;
      LoopClaimsEveryTick(defs, rows, name, ticks[..k + 1], clocks[..k]);
    }
  }

  function Multiples(t: int, ms: int, k: nat): seq<int> { seq(k, i requires 0 <= i < k => NthTick(t, ms, i)) }

  /** An interval polled at each of its due times fires at every multiple in turn. */
  lemma IntervalFiresEveryTime(defs: Defs, s: System, n: NodeId, name: Name, ms: int, k: nat)
    requires name in s.rows && name in defs && Idle(s, n) && ms >= 1 && defs[name].next == Every(ms).next
    ensures var t := s.rows[name].nextRunAt;
      var s' := ExecFrom(defs, s, Polls(n, name, Multiples(t, ms, k)));
      && s'.wins == s.wins + TicksOf(name, Multiples(t, ms, k))
      && s'.fires == s.fires + TicksOf(name, Multiples(t, ms, k))
      && name in s'.rows && s'.rows[name].nextRunAt == NthTick(t, ms, k)
  {
    var t := s.rows[name].nextRunAt;
    var ticks, clocks := Multiples(t, ms, k + 1), Multiples(t, ms, k);
    forall i | 0 <= i < k ensures ticks[i] == clocks[i] && Every(ms).next(clocks[i]) == Some(ticks[i + 1]) {
      assert ticks[i + 1] == t + (i + 1) * ms == ticks[i] + ms;
    }
    hide ExecFrom, Polls;
    assert KeepsUp(defs[name], ticks, clocks) && ticks[..k] == clocks;
    PollsWinEveryTick(defs, s, n, name, ticks, clocks);
  }

  /** `ticks` are consecutive fire times, each polled once it is due and before the next. */
  ghost predicate PolledInTime(times: iset<int>, ticks: seq<int>, clocks: seq<int>) {
    && |ticks| == |clocks| + 1
    && forall i | 0 <= i < |clocks| ::
         FirstAfter(times, ticks[i], ticks[i + 1]) && ticks[i] <= clocks[i] < ticks[i + 1]
  }

  /** A calendar polled once between any two fire times wins and fires them all in turn. */
  lemma CalendarFiresEveryTime(defs: Defs, s: System, n: NodeId, name: Name, times: iset<int>, ticks: seq<int>,
                               clocks: seq<int>)
    requires name in s.rows && name in defs && Idle(s, n)
    requires Calendar(defs[name], times) && forall t | t in clocks :: defs[name].next(t).Some?
    requires PolledInTime(times, ticks, clocks) && ticks[0] == s.rows[name].nextRunAt
    ensures var s', k := ExecFrom(defs, s, Polls(n, name, clocks)), |clocks|;
      && s'.wins == s.wins + TicksOf(name, ticks[..k]) && s'.fires == s.fires + TicksOf(name, ticks[..k])
      && name in s'.rows && s'.rows[name].nextRunAt == ticks[k]
  {
    hide ExecFrom, Polls;
    forall i | 0 <= i < |clocks| ensures defs[name].next(clocks[i]) == Some(ticks[i + 1]) {
      assert clocks[i] in clocks;
      assert FirstAfter(times, clocks[i], defs[name].next(clocks[i]).value);
      assert FirstAfter(times, ticks[i], ticks[i + 1]);
    }
    PollsWinEveryTick(defs, s, n, name, ticks, clocks);
  }

  // ---- A gap replayed at boot ------------------------------------------------------------------------------------

  /** The operations one after another, first to last. */
  lemma {:induction false} ExecFromFirst(defs: Defs, s: System, op: Op, ops: seq<Op>)
    ensures ExecFrom(defs, s, [op] + ops) == ExecFrom(defs, if Legal(defs, s, op) then Step(defs, s, op) else s, ops)
  {
    var s' := if Legal(defs, s, op) then Step(defs, s, op) else s;
    hide Legal, Step;
    if ops == [] {
      assert [op] + ops == [op] && [op][..0] == [];
      assert ExecFrom(defs, s, [op][..0]) == s;
    } else {
      var n := |ops| - 1;
      ExecFromFirst(defs, s, op, ops[..n]);
      assert ([op] + ops)[..n + 1] == [op] + ops[..n];
    }
  }

  /** The node is let run for `k` turns. */
  function Turns(n: NodeId, k: nat): seq<Op> { seq(k, i requires 0 <= i < k => Advance(n, false)) }

  lemma OneTurn(defs: Defs, s: System, n: NodeId, k: nat)
    ensures ExecFrom(defs, s, Turns(n, k + 1)) == ExecFrom(defs, Step(defs, s, Advance(n, false)), Turns(n, k))
  {
    hide ExecFrom, Step;
    assert Turns(n, k + 1) == [Advance(n, false)] + Turns(n, k);
    ExecFromFirst(defs, s, Advance(n, false), Turns(n, k));
  }

  /** What the node has done is `ticks` fired in turn, and no other row changed. */
  ghost predicate Replayed(s: System, s': System, n: NodeId, name: Name, ticks: seq<int>, now: int) {
    && n in s'.nodes && s'.nodes[n] == Node(Resting, None)
    && s'.fires == s.fires + TicksOf(name, ticks) && s'.lost == s.lost
    && OthersKept(s.rows, s'.rows, name) && name in s'.rows && s'.rows[name].nextRunAt > now
  }

  lemma ReplayedMore(s: System, s1: System, s2: System, n: NodeId, name: Name, t: int, ticks: seq<int>, now: int)
    requires Replayed(s1, s2, n, name, ticks, now) && s1.fires == s.fires + [Tick(name, t)] && s1.lost == s.lost
    requires OthersKept(s.rows, s1.rows, name)
    ensures Replayed(s, s2, n, name, [t] + ticks, now)
  {
    assert TicksOf(name, [t] + ticks) == [Tick(name, t)] + TicksOf(name, ticks);
    assert s.fires + [Tick(name, t)] + TicksOf(name, ticks) == s.fires + ([Tick(name, t)] + TicksOf(name, ticks));
  }

  /** The first `room` ticks of the gap when missed ticks are replayed, none otherwise. */
  function Replays(def: Def, t: int, now: int, fired: nat): seq<int>
    requires Advances(def) && fired <= MaxCatchupFires
  {
    var m := Missed(def, t, now);
    if def.catchup.All? then m[..Min(MaxCatchupFires - fired, |m|)] else []
  }

  lemma ReplaysUnfold(def: Def, t: int, now: int, fired: nat)
    requires Advances(def) && fired <= MaxCatchupFires && forall u :: def.next(u).Some?
    ensures t < def.next(t).value
    ensures Replays(def, t, now, fired)
            == if t <= now && def.catchup.All? && fired < MaxCatchupFires
               then [t] + Replays(def, def.next(t).value, now, fired + 1) else []
    ensures Replays(def, t, now, 0) == BootTicks(def, t, now)
  {
    MissedUnfold(def, t, now);
    hide Missed;
  }

  /** A node left to itself in the middle of a gap fires what is left of it, in order, up to the cap,
      and comes to rest with the next fire time in the future. */
  lemma {:induction false} GapIsReplayed(defs: Defs, s: System, n: NodeId, tick: Tick, fired: nat, now: int)
    returns (k: nat)
    requires n in s.nodes && s.nodes[n] == Node(CatchingUp(tick, fired, now), None) && Claimable(s.rows, tick)
    requires tick.name in defs && fired <= MaxCatchupFires
    requires Advances(defs[tick.name]) && forall u :: defs[tick.name].next(u).Some?
    ensures Replayed(s, ExecFrom(defs, s, Turns(n, k)), n, tick.name, Replays(defs[tick.name], tick.at, now, fired), now)
    decreases MaxCatchupFires - fired, if tick.at > now then 0 else 1
  {
    var def := defs[tick.name];
    ReplaysUnfold(def, tick.at, now, fired);
    hide Replays, Advances, ExecFrom;
    assert Turns(n, 0) == [];
    if tick.at <= now && def.catchup.All? && fired < MaxCatchupFires {
      var s1 := Step(defs, s, Advance(n, false));
      var s2 := Step(defs, s1, Advance(n, false));
      var next := def.next(tick.at).value;
      var rest := GapIsReplayed(defs, s2, n, Tick(tick.name, next), fired + 1, now);
      k := rest + 2;
      OneTurn(defs, s, n, rest + 1);
      OneTurn(defs, s1, n, rest);
      ReplayedMore(s, s2, ExecFrom(defs, s2, Turns(n, rest)), n, tick.name, tick.at, Replays(def, next, now, fired + 1),
        now);
    } else {
      k := 1;
      OneTurn(defs, s, n, 0);
      assert ExecFrom(defs, Step(defs, s, Advance(n, false)), Turns(n, 0)) == Step(defs, s, Advance(n, false)) by {
        EmptyRun(defs, Step(defs, s, Advance(n, false)));
      }
      assert s.fires + TicksOf(tick.name, []) == s.fires;
    }
  }

  lemma EmptyRun(defs: Defs, s: System)
    ensures ExecFrom(defs, s, []) == s
  {
  }

  // ---- Booting ------------------------------------------------------------------------------------------------------

  /** Booting a new schedule, or one whose spec has changed, drops the stored timing: the next time is
      computed from the new definition, nothing counts as missed, and nothing is claimed. */
  lemma BootResetsChanged(defs: Defs, s: System, n: NodeId, name: Name, now: int)
    requires name in defs && Advances(defs[name]) && defs[name].next(now).Some?
    requires name in s.rows ==> s.rows[name].spec != defs[name].spec
    ensures var s' := Step(defs, s, Boot(n, name, now));
      && s'.rows == s.rows[name := Row(defs[name].spec, defs[name].next(now).value, None)]
      && s'.nodes[n] == Node(Resting, None) && s'.wins == s.wins && s'.fires == s.fires
  {
  }

  /** Booting an unchanged schedule leaves every row as it is, and replays the gap exactly when the
      stored time has passed and the policy is not to leave it to the run loop. */
  lemma BootKeepsUnchanged(defs: Defs, s: System, n: NodeId, name: Name, now: int)
    requires name in defs && name in s.rows && s.rows[name].spec == defs[name].spec
    ensures var s' := Step(defs, s, Boot(n, name, now));
      && s'.rows == s.rows && s'.wins == s.wins && s'.fires == s.fires
      && (s'.nodes[n].local.CatchingUp? <==>
            defs[name].next(now).Some? && s.rows[name].nextRunAt <= now && !defs[name].catchup.RunOnce?)
  {
  }
}
