/** The circuit breaker and bulkhead around calls to an external dependency. */
module Breakers {
  import opened Orders

  datatype State = Closed | Open | HalfOpen

  /** `maxConcurrent` absent means no bulkhead. */
  datatype Config = Config(threshold: nat, resetMs: int, halfOpenMax: nat, maxConcurrent: Option<nat>)

  datatype Breaker = Breaker(state: State, failures: nat, openedAt: int, halfOpenInFlight: int, inFlight: int)

  /** How a call ends: an error may or may not count as a failure. */
  datatype Outcome = Success | Counted | Uncounted

  datatype Reply = Admitted(seen: State) | CircuitOpen | BulkheadFull

  const Initial := Breaker(Closed, 0, 0, 0, 0)

  function ToState(b: Breaker, to: State, now: int): Breaker {
    if b.state == to then b
    else
      match to
      case Closed => b.(state := Closed, failures := 0)
      case HalfOpen => b.(state := HalfOpen, halfOpenInFlight := 0)
      case Open => b.(state := Open, openedAt := now)
  }

  /** Reading the state moves an open breaker to half-open once the cooldown is over. */
  function Looked(cfg: Config, b: Breaker, now: int): Breaker {
    if b.state.Open? && now - b.openedAt >= cfg.resetMs then ToState(b, HalfOpen, now) else b
  }

  predicate BulkheadIsFull(cfg: Config, b: Breaker) { cfg.maxConcurrent.Some? && b.inFlight >= cfg.maxConcurrent.value }

  function ReplyTo(cfg: Config, b: Breaker, now: int): Reply {
    var l := Looked(cfg, b, now);
    if l.state.Open? || (l.state.HalfOpen? && l.halfOpenInFlight >= cfg.halfOpenMax) then CircuitOpen
    else if BulkheadIsFull(cfg, l) then BulkheadFull
    else Admitted(l.state)
  }

  function Begun(cfg: Config, b: Breaker, now: int): Breaker {
    var l := Looked(cfg, b, now);
    if !ReplyTo(cfg, b, now).Admitted? then l
    else l.(inFlight := l.inFlight + 1, halfOpenInFlight := l.halfOpenInFlight + if l.state.HalfOpen? then 1 else 0)
  }

  function Judged(cfg: Config, b: Breaker, outcome: Outcome, now: int): Breaker {
    if !outcome.Counted? then ToState(b, Closed, now).(failures := 0)
    else if b.state.HalfOpen? then ToState(b, Open, now)
    else
      var f := b.(failures := b.failures + 1);
      if f.failures >= cfg.threshold then ToState(f, Open, now) else f
  }

  /** A call admitted in state `seen` ends. */
  function Ended(cfg: Config, b: Breaker, seen: State, outcome: Outcome, now: int): Breaker {
    var j := Judged(cfg, b, outcome, now);
    j.(inFlight := j.inFlight - 1, halfOpenInFlight := j.halfOpenInFlight - if seen.HalfOpen? then 1 else 0)
  }

  // ---- Overlapping calls -----------------------------------------------------------------------------------

  type CallId = nat

  datatype Op = Look(now: int) | Begin(id: CallId, now: int) | End(id: CallId, outcome: Outcome, now: int)

  /** `calls` maps each outstanding call to the state it was admitted in; `period` counts the
      half-open periods so far and `probes` the calls admitted in each of them. */
  datatype System = System(b: Breaker, calls: map<CallId, State>, period: nat, probes: multiset<nat>)

  predicate Legal(s: System, op: Op) {
    match op
    case Look(_) => true
    case Begin(id, _) => id !in s.calls
    case End(id, _, _) => id in s.calls
  }

  function Entered(before: Breaker, after: Breaker): nat {
    if !before.state.HalfOpen? && after.state.HalfOpen? then 1 else 0
  }

  function Step(cfg: Config, s: System, op: Op): System
    requires Legal(s, op)
  {
    match op
    case Look(now) =>
      var b := Looked(cfg, s.b, now);
      s.(b := b, period := s.period + Entered(s.b, b))
    case Begin(id, now) =>
      var b, reply := Begun(cfg, s.b, now), ReplyTo(cfg, s.b, now);
      var period := s.period + Entered(s.b, b);
      System(b, if reply.Admitted? then s.calls[id := reply.seen] else s.calls, period,
             if reply == Admitted(HalfOpen) then s.probes + multiset{period} else s.probes)
    case End(id, outcome, now) =>
      s.(b := Ended(cfg, s.b, s.calls[id], outcome, now), calls := s.calls - {id})
  }

  /** The system after the operations; an impossible one changes nothing. */
  function Exec(cfg: Config, ops: seq<Op>): System {
    if ops == [] then System(Initial, map[], 0, multiset{})
    else
      var s, op := Exec(cfg, ops[..|ops| - 1]), ops[|ops| - 1];
      if Legal(s, op) then Step(cfg, s, op) else s
  }

  /** Counted failures since the last call that succeeded or failed without counting. */
  function Streak(cfg: Config, ops: seq<Op>): nat {
    if ops == [] then 0
    else
      var n := |ops| - 1;
      if !ops[n].End? || !Legal(Exec(cfg, ops[..n]), ops[n]) then Streak(cfg, ops[..n])
      else if ops[n].outcome.Counted? then Streak(cfg, ops[..n]) + 1
      else 0
  }

  // ---- What every interleaving keeps ---------------------------------------------------------------------------

  ghost predicate CallsOk(cfg: Config, s: System) {
    s.b.inFlight == |s.calls| && (cfg.maxConcurrent.Some? ==> |s.calls| <= cfg.maxConcurrent.value)
  }

  ghost predicate ProbesOk(cfg: Config, s: System) {
    && (s.b.state.HalfOpen? ==> s.b.halfOpenInFlight == s.probes[s.period])
    && (forall p: nat :: s.probes[p] <= cfg.halfOpenMax)
    && (forall p: nat | p > s.period :: s.probes[p] == 0)
  }

  lemma StepKeepsCalls(cfg: Config, s: System, op: Op)
    requires CallsOk(cfg, s) && Legal(s, op)
    ensures CallsOk(cfg, Step(cfg, s, op))
  {
    if op.End? {
      assert s.calls.Keys == (s.calls - {op.id}).Keys + {op.id};
      assert |s.calls.Keys| == |(s.calls - {op.id}).Keys| + 1;
    } else if op.Begin? {
      assert s.calls[op.id := Open].Keys == s.calls.Keys + {op.id};
    }
  }

  /** Any end of a call during a half-open period ends the period, so late decrements never
      free a probe slot of the period they fall in. */
  lemma StepKeepsProbes(cfg: Config, s: System, op: Op)
    requires ProbesOk(cfg, s) && Legal(s, op)
    ensures ProbesOk(cfg, Step(cfg, s, op))
  {
    if op.Begin? {
      BeginKeepsProbes(cfg, s, op.id, op.now);
    } else if op.End? {
      var j := Judged(cfg, s.b, op.outcome, op.now);
      assert !j.state.HalfOpen?;
    }
  }

  lemma BeginKeepsProbes(cfg: Config, s: System, id: CallId, now: int)
    requires ProbesOk(cfg, s) && id !in s.calls
    ensures ProbesOk(cfg, Step(cfg, s, Begin(id, now)))
  {
    var s' := Step(cfg, s, Begin(id, now));
    if ReplyTo(cfg, s.b, now) == Admitted(HalfOpen) {
      assert s'.probes == s.probes + multiset{s'.period};
      assert s.probes[s'.period] == Looked(cfg, s.b, now).halfOpenInFlight < cfg.halfOpenMax;
    } else {
      assert s'.probes == s.probes;
    }
  }

  lemma {:induction false} RunKeeps(cfg: Config, ops: seq<Op>)
    ensures CallsOk(cfg, Exec(cfg, ops)) && ProbesOk(cfg, Exec(cfg, ops))
  {
    if ops != [] {
      var n := |ops| - 1;
      RunKeeps(cfg, ops[..n]);
      var s := Exec(cfg, ops[..n]);
      if Legal(s, ops[n]) {
        StepKeepsCalls(cfg, s, ops[n]);
        StepKeepsProbes(cfg, s, ops[n]);
      }
    }
  }

  /** The bulkhead holds: calls in flight are the outstanding ones and never exceed the limit. */
  lemma {:induction false} BulkheadHolds(cfg: Config, ops: seq<Op>)
    ensures var s := Exec(cfg, ops);
      s.b.inFlight == |s.calls| && (cfg.maxConcurrent.Some? ==> |s.calls| <= cfg.maxConcurrent.value)
  {
    RunKeeps(cfg, ops);
  }

  /** Every half-open period admits at most `halfOpenMax` calls, over any interleaving. */
  lemma {:induction false} ProbesPerPeriod(cfg: Config, ops: seq<Op>, p: nat)
    ensures Exec(cfg, ops).probes[p] <= cfg.halfOpenMax
  {
    RunKeeps(cfg, ops);
  }

  /** A closed breaker has counted exactly the current streak, and it is short of the threshold. */
  lemma {:induction false} ClosedCountsStreak(cfg: Config, ops: seq<Op>)
    requires cfg.threshold >= 1
    ensures Exec(cfg, ops).b.state.Closed? ==>
      Exec(cfg, ops).b.failures == Streak(cfg, ops) < cfg.threshold
  {
    if ops != [] {
      ClosedCountsStreak(cfg, ops[..|ops| - 1]);
    }
  }

  /** The circuit trips exactly on the counted failure that completes a streak of `threshold`. */
  lemma TripsAtThreshold(cfg: Config, ops: seq<Op>, op: Op)
    requires cfg.threshold >= 1 && Exec(cfg, ops).b.state.Closed? && Legal(Exec(cfg, ops), op)
    ensures var after := Exec(cfg, ops + [op]);
      && !after.b.state.HalfOpen?
      && (after.b.state.Open? <==> Streak(cfg, ops + [op]) >= cfg.threshold)
      && (after.b.state.Open? ==> op.End? && op.outcome.Counted? && after.b.openedAt == op.now)
  {
    assert (ops + [op])[..|ops|] == ops;
    ClosedCountsStreak(cfg, ops);
  }

  /** Not an end that closes the circuit, and made before the cooldown is over. */
  predicate Quiet(cfg: Config, op: Op, openedAt: int) {
    (op.End? ==> op.outcome.Counted?) && op.now - openedAt < cfg.resetMs
  }

  /** While open: whatever overlapping calls do, nothing is admitted before the cooldown is over
      unless an outstanding call succeeds or fails without counting, and failures do not
      prolong the cooldown. */
  lemma {:induction false} OpenAdmitsNothing(cfg: Config, ops: seq<Op>, k: nat, m: nat)
    requires k <= m <= |ops| && Exec(cfg, ops[..k]).b.state.Open?
    requires forall i | k <= i < m :: Quiet(cfg, ops[i], Exec(cfg, ops[..k]).b.openedAt)
    ensures var s, s' := Exec(cfg, ops[..k]), Exec(cfg, ops[..m]);
      s'.b.state.Open? && s'.b.openedAt == s.b.openedAt && s'.calls.Keys <= s.calls.Keys
    ensures m < |ops| && ops[m].Begin? && Quiet(cfg, ops[m], Exec(cfg, ops[..k]).b.openedAt) ==>
      ReplyTo(cfg, Exec(cfg, ops[..m]).b, ops[m].now) == CircuitOpen
    decreases m - k
  {
    if k < m {
      OpenAdmitsNothing(cfg, ops, k, m - 1);
      assert ops[..m][..m - 1] == ops[..m - 1];
    }
  }

  /** Once the cooldown is over the next call is a probe. */
  lemma CooldownAdmitsProbe(cfg: Config, b: Breaker, now: int)
    requires b.state.Open? && now - b.openedAt >= cfg.resetMs && cfg.halfOpenMax >= 1 && !BulkheadIsFull(cfg, b)
    ensures ReplyTo(cfg, b, now) == Admitted(HalfOpen)
  {
  }

  /** In a half-open period a call is admitted exactly while fewer than `halfOpenMax` were, and the
      bulkhead has room. */
  lemma ProbeAdmittedIff(cfg: Config, ops: seq<Op>, now: int)
    requires Exec(cfg, ops).b.state.HalfOpen?
    ensures var s := Exec(cfg, ops);
      && (ReplyTo(cfg, s.b, now) == Admitted(HalfOpen) <==>
            s.probes[s.period] < cfg.halfOpenMax
            && (cfg.maxConcurrent.None? || |s.calls| < cfg.maxConcurrent.value))
      && (ReplyTo(cfg, s.b, now) == CircuitOpen <==> s.probes[s.period] >= cfg.halfOpenMax)
  {
    RunKeeps(cfg, ops);
    hide Exec;
  }

  /** A counted failure during a half-open period opens the circuit for a whole new cooldown: while
      no call ends well, a later call is refused until `resetMs` after the failure, and is a probe from
      then on. */
  lemma FailedProbeCoolsAgain(cfg: Config, ops: seq<Op>, k: nat, m: nat)
    requires k < m < |ops| && Exec(cfg, ops[..k]).b.state.HalfOpen? && Legal(Exec(cfg, ops[..k]), ops[k])
    requires ops[k].End? && ops[k].outcome.Counted?
    requires forall i | k < i < m :: Quiet(cfg, ops[i], ops[k].now)
    requires ops[m].Begin? && cfg.halfOpenMax >= 1
    ensures var reply := ReplyTo(cfg, Exec(cfg, ops[..m]).b, ops[m].now);
      if ops[m].now - ops[k].now < cfg.resetMs then reply == CircuitOpen
      else reply == if BulkheadIsFull(cfg, Exec(cfg, ops[..m]).b) then BulkheadFull else Admitted(HalfOpen)
  {
    assert ops[..k + 1][..k] == ops[..k];
    var b := Exec(cfg, ops[..k + 1]).b;
    assert b.state.Open? && b.openedAt == ops[k].now;
    hide Exec;
    OpenAdmitsNothing(cfg, ops, k + 1, m);
  }

  /** An end that is no counted failure closes the circuit whatever state it is in, and starts the
      count anew: the next call is admitted unless the bulkhead is full. */
  lemma GoodEndCloses(cfg: Config, ops: seq<Op>, op: Op, now: int)
    requires op.End? && !op.outcome.Counted? && Legal(Exec(cfg, ops), op)
    ensures var s := Exec(cfg, ops + [op]);
      && s.b.state.Closed? && s.b.failures == 0
      && ReplyTo(cfg, s.b, now)
         == if cfg.maxConcurrent.Some? && |s.calls| >= cfg.maxConcurrent.value then BulkheadFull else Admitted(Closed)
  {
    RunKeeps(cfg, ops + [op]);
    assert (ops + [op])[..|ops|] == ops;
  }

  // ---- The object -------------------------------------------------------------------------------------------------

  class CircuitBreaker {
    const cfg: Config
    var state: State
    var failures: nat
    var openedAt: int
    var halfOpenInFlight: int
    var inFlight: int

    ghost function View(): Breaker
      reads this
    {
      Breaker(state, failures, openedAt, halfOpenInFlight, inFlight)
    }

    constructor (failureThreshold: int, resetMs: int, halfOpenMax: int, maxConcurrent: Option<nat>)
      ensures View() == Initial
      ensures cfg == Config(Max(1, failureThreshold), resetMs, Max(1, halfOpenMax), maxConcurrent)
    {
      cfg := Config(Max(1, failureThreshold), resetMs, Max(1, halfOpenMax), maxConcurrent);
      state, failures, openedAt, halfOpenInFlight, inFlight := Closed, 0, 0, 0, 0;
    }

    method Transition(to: State, now: int)
      modifies this
      ensures View() == ToState(old(View()), to, now)
    {
      if state == to {
        return;
      }
      state := to;
      if to == Closed {
        failures := 0;
      }
      if to == HalfOpen {
        halfOpenInFlight := 0;
      }
      if to == Open {
        openedAt := now;
      }
    }

    method CurrentState(now: int) returns (seen: State)
      modifies this
      ensures View() == Looked(cfg, old(View()), now) && seen == state
    {
      if state == Open && now - openedAt >= cfg.resetMs {
        Transition(HalfOpen, now);
      }
      seen := state;
    }

    /** The part of a run before the call. */
    method Enter(now: int) returns (reply: Reply)
      modifies this
      ensures reply == ReplyTo(cfg, old(View()), now)
      ensures View() == Begun(cfg, old(View()), now)
    {
      var seen := CurrentState(now);
      if seen == Open {
        return CircuitOpen;
      }
      if seen == HalfOpen {
        if halfOpenInFlight >= cfg.halfOpenMax {
          return CircuitOpen;
        }
        halfOpenInFlight := halfOpenInFlight + 1;
      }
      if cfg.maxConcurrent.Some? && inFlight >= cfg.maxConcurrent.value {
        if seen == HalfOpen {
          halfOpenInFlight := halfOpenInFlight - 1;
        }
        return BulkheadFull;
      }
      inFlight := inFlight + 1;
      reply := Admitted(seen);
    }

    /** The part of a run after the call. */
    method Leave(seen: State, outcome: Outcome, now: int)
      modifies this
      ensures View() == Ended(cfg, old(View()), seen, outcome, now)
    {
      if outcome == Counted {
        OnFailure(now);
      } else {
        OnSuccess(now);
      }
      inFlight := inFlight - 1;
      if seen == HalfOpen {
        halfOpenInFlight := halfOpenInFlight - 1;
      }
    }

    method OnSuccess(now: int)
      modifies this
      ensures View() == Judged(cfg, old(View()), Success, now)
    {
      if state != Closed {
        Transition(Closed, now);
      }
      failures := 0;
    }

    method OnFailure(now: int)
      modifies this
      ensures View() == Judged(cfg, old(View()), Counted, now)
    {
      if state == HalfOpen {
        Transition(Open, now);
        return;
      }
      failures := failures + 1;
      if failures >= cfg.threshold {
        Transition(Open, now);
      }
    }
  }
}
