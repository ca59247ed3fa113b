/** The rows of the `jobs` table and the claim query's choice of rows. */
module Claiming {
  import opened Orders

  /** Time-ordered UUIDs: fresh, and ordered by creation. */
  type JobId = nat

  datatype Status = Pending | Running | Dead

  datatype Job = Job(
    queue: string, payload: string, status: Status, priority: int,
    attempt: nat, maxAttempts: nat, availableAt: int, leaseUntil: Option<int>,
    fence: nat, key: Option<string>, debounceKey: Option<string>)

  type Table = map<JobId, Job>

  const MaxInt64: nat := 0x7FFF_FFFF_FFFF_FFFF

  function Candidates(t: Table, queue: string, now: int): set<JobId> {
    set id | id in t && t[id].queue == queue && t[id].status == Pending && t[id].availableAt <= now
  }

  /** `ORDER BY priority DESC, id ASC`. */
  predicate Before(t: Table, x: JobId, y: JobId) {
    x in t && y in t &&
    (t[x].priority > t[y].priority || (t[x].priority == t[y].priority && x < y))
  }

  /** `PARTITION BY concurrency_key`: all rows without a key form one group. */
  function Group(t: Table, cand: set<JobId>, key: Option<string>): set<JobId> {
    set id | id in cand && id in t && t[id].key == key
  }

  /** `ROW_NUMBER() OVER (PARTITION BY concurrency_key ORDER BY priority DESC, id ASC)`. */
  function RowNumber(t: Table, cand: set<JobId>, x: JobId): nat
    requires x in t
  {
    1 + |Below(Group(t, cand, t[x].key), (a: nat, b: nat) => Before(t, a, b), x)|
  }

  /** Running rows of a queue sharing a key; SQL equality never holds of NULL. */
  function RunningWith(t: Table, queue: string, key: Option<string>): set<JobId> {
    if key.None? then {}
    else set id | id in t && t[id].queue == queue && t[id].status == Running && t[id].key == key
  }

  function KeyRank(t: Table, queue: string, cand: set<JobId>, x: JobId): nat
    requires x in t
  {
    |RunningWith(t, queue, t[x].key)| + RowNumber(t, cand, x)
  }

  /** Candidates that survive `WHERE ck IS NULL OR keyrank <= cap`. */
  function Eligible(t: Table, queue: string, now: int, cap: nat): set<JobId> {
    var cand := Candidates(t, queue, now);
    set id | id in cand && (t[id].key.None? || KeyRank(t, queue, cand, id) <= cap)
  }

  /** `ORDER BY rn ASC, priority DESC, id ASC`. */
  predicate FairBefore(t: Table, cand: set<JobId>, x: JobId, y: JobId) {
    x in t && y in t &&
    var rx, ry := RowNumber(t, cand, x), RowNumber(t, cand, y);
    rx < ry || (rx == ry && Before(t, x, y))
  }

  function Cap(keyLimit: Option<nat>): nat {
    if keyLimit.Some? then keyLimit.value else MaxInt64
  }

  /** The rows one claim statement moves to Running. */
  function Select(t: Table, queue: string, limit: nat, now: int, keyLimit: Option<nat>, fair: bool): set<JobId> {
    if fair then
      var cand := Candidates(t, queue, now);
      Top(Eligible(t, queue, now, Cap(keyLimit)), (x: nat, y: nat) => FairBefore(t, cand, x, y), limit)
    else if keyLimit.Some? then
      Top(Eligible(t, queue, now, keyLimit.value), (x: nat, y: nat) => x < y, limit)
    else
      Top(Candidates(t, queue, now), (x: nat, y: nat) => Before(t, x, y), limit)
  }

  lemma BeforeIsTotal(t: Table, e: set<JobId>)
    requires e <= t.Keys
    ensures StrictTotal(e, (a: nat, b: nat) => Before(t, a, b))
  {
  }

  lemma FairBeforeIsTotal(t: Table, cand: set<JobId>, e: set<JobId>)
    requires e <= t.Keys
    ensures StrictTotal(e, (x: nat, y: nat) => FairBefore(t, cand, x, y))
  {
  }

  /** A claim takes only pending jobs of the queue whose time has come. */
  lemma SelectIsReady(t: Table, queue: string, limit: nat, now: int, keyLimit: Option<nat>, fair: bool)
    ensures Select(t, queue, limit, now, keyLimit, fair) <= Candidates(t, queue, now)
    ensures forall id | id in Select(t, queue, limit, now, keyLimit, fair) ::
      id in t && t[id].queue == queue && t[id].status == Pending && t[id].availableAt <= now
  {
  }

  /** Row numbers follow the order inside a group. */
  lemma RowNumberMonotone(t: Table, cand: set<JobId>, x: JobId, y: JobId)
    requires cand <= t.Keys && x in cand && y in cand
    requires t[x].key == t[y].key && Before(t, x, y)
    ensures RowNumber(t, cand, x) < RowNumber(t, cand, y)
  {
    var less := (a: nat, b: nat) => Before(t, a, b);
    var g := Group(t, cand, t[x].key);
    assert x in Below(g, less, y) && x !in Below(g, less, x);
    SubsetSize(Below(g, less, x), Below(g, less, y));
  }

  /** No claim takes a key past the limit, whatever the LIMIT, priorities and mix of keys. */
  lemma SelectRespectsCap(t: Table, queue: string, limit: nat, now: int, k: nat, fair: bool, key: string)
    requires |RunningWith(t, queue, Some(key))| <= k
    ensures |RunningWith(t, queue, Some(key))|
            + |Group(t, Select(t, queue, limit, now, Some(k), fair), Some(key))| <= k
  {
    var cand := Candidates(t, queue, now);
    var less := (a: nat, b: nat) => Before(t, a, b);
    var g := Group(t, cand, Some(key));
    var room := k - |RunningWith(t, queue, Some(key))|;
    var taken := Group(t, Select(t, queue, limit, now, Some(k), fair), Some(key));
    BeforeIsTotal(t, g);
    forall x | x in taken ensures x in g && |Below(g, less, x)| < room {
      assert x in Eligible(t, queue, now, k);
      assert KeyRank(t, queue, cand, x) <= k;
    }
    RankBoundsSize(g, less, taken, room);
  }

  // ---- Fair claims are round-robin ---------------------------------------------------

  /** Eligibility is closed under "earlier in my own group". */
  lemma EligibleIsInitial(t: Table, queue: string, now: int, cap: nat, x: JobId, y: JobId)
    requires x in Candidates(t, queue, now) && y in Eligible(t, queue, now, cap)
    requires t[x].key == t[y].key && Before(t, x, y)
    ensures x in Eligible(t, queue, now, cap)
  {
    RowNumberMonotone(t, Candidates(t, queue, now), x, y);
  }

  /** A fair claim takes a priority-then-id prefix of every key group. */
  lemma FairTakesPrefix(t: Table, queue: string, limit: nat, now: int, keyLimit: Option<nat>, x: JobId, y: JobId)
    requires x in Candidates(t, queue, now) && y in Select(t, queue, limit, now, keyLimit, true)
    requires t[x].key == t[y].key && Before(t, x, y)
    ensures x in Select(t, queue, limit, now, keyLimit, true)
  {
    var cand := Candidates(t, queue, now);
    var e := Eligible(t, queue, now, Cap(keyLimit));
    EligibleIsInitial(t, queue, now, Cap(keyLimit), x, y);
    RowNumberMonotone(t, cand, x, y);
    FairBeforeIsTotal(t, cand, e);
    TopIsInitial(e, (a: nat, b: nat) => FairBefore(t, cand, a, b), limit, x, y);
  }

  /** The rows a claim chooses among: without a key limit and fairness, all that are ready. */
  function Pool(t: Table, queue: string, now: int, keyLimit: Option<nat>, fair: bool): set<JobId> {
    if fair || keyLimit.Some? then Eligible(t, queue, now, Cap(keyLimit)) else Candidates(t, queue, now)
  }

  /** A claim fills its limit whenever enough eligible rows exist. */
  lemma ClaimFillsLimit(t: Table, queue: string, limit: nat, now: int, keyLimit: Option<nat>, fair: bool)
    ensures |Select(t, queue, limit, now, keyLimit, fair)| == Min(limit, |Pool(t, queue, now, keyLimit, fair)|)
  {
    var e := Pool(t, queue, now, keyLimit, fair);
    if !fair && keyLimit.None? {
      BeforeIsTotal(t, e);
      TopSize(e, (x: nat, y: nat) => Before(t, x, y), limit);
    } else if fair {
      var cand := Candidates(t, queue, now);
      FairBeforeIsTotal(t, cand, e);
      TopSize(e, (x: nat, y: nat) => FairBefore(t, cand, x, y), limit);
    } else {
      TopSize(e, (x: nat, y: nat) => x < y, limit);
    }
  }

  /** The last row taken from a group carries the number of rows taken from it. */
  lemma LastTakenRank(t: Table, cand: set<JobId>, taken: set<JobId>, m: JobId)
    requires taken <= cand <= t.Keys && m in taken
    requires forall x | x in Group(t, taken, t[m].key) && x != m :: Before(t, x, m)
    requires forall x | x in cand && t[x].key == t[m].key && Before(t, x, m) :: x in taken
    ensures RowNumber(t, cand, m) == |Group(t, taken, t[m].key)|
  {
    var less := (a: nat, b: nat) => Before(t, a, b);
    var g := Group(t, taken, t[m].key);
    assert Below(Group(t, cand, t[m].key), less, m) == g - {m};
    assert |g - {m}| == |g| - 1;
  }

  /** A row whose group predecessors are exactly the rows taken comes right after them. */
  lemma NextRank(t: Table, cand: set<JobId>, taken: set<JobId>, x: JobId)
    requires taken <= cand <= t.Keys && x in cand && x !in taken
    requires forall y | y in cand && t[y].key == t[x].key && Before(t, y, x) :: y in taken
    requires forall y | y in Group(t, taken, t[x].key) :: Before(t, y, x)
    ensures RowNumber(t, cand, x) == |Group(t, taken, t[x].key)| + 1
  {
    var less := (a: nat, b: nat) => Before(t, a, b);
    assert Below(Group(t, cand, t[x].key), less, x) == Group(t, taken, t[x].key);
  }

  lemma FirstLeft(t: Table, queue: string, limit: nat, now: int, keyLimit: Option<nat>, left: JobId)
    returns (x: JobId)
    requires left in Eligible(t, queue, now, Cap(keyLimit))
    requires left !in Select(t, queue, limit, now, keyLimit, true)
    ensures x in Eligible(t, queue, now, Cap(keyLimit)) && x !in Select(t, queue, limit, now, keyLimit, true)
    ensures t[x].key == t[left].key
    ensures forall y | y in Candidates(t, queue, now) && t[y].key == t[x].key && Before(t, y, x) ::
              y in Select(t, queue, limit, now, keyLimit, true)
  {
    var e := Eligible(t, queue, now, Cap(keyLimit));
    var c := Select(t, queue, limit, now, keyLimit, true);
    var rest := Group(t, e - c, t[left].key);
    assert left in rest;
    BeforeIsTotal(t, rest);
    x := Least(rest, (a: nat, b: nat) => Before(t, a, b));
    forall y | y in Candidates(t, queue, now) && t[y].key == t[x].key && Before(t, y, x) ensures y in c {
      EligibleIsInitial(t, queue, now, Cap(keyLimit), y, x);
      assert y in c || y in rest;
    }
  }

  /** The first row left behind in a group comes right after the rows taken from it. */
  lemma FirstLeftRank(t: Table, queue: string, limit: nat, now: int, keyLimit: Option<nat>, left: JobId)
    returns (x: JobId)
    requires left in Eligible(t, queue, now, Cap(keyLimit))
    requires left !in Select(t, queue, limit, now, keyLimit, true)
    ensures x in Eligible(t, queue, now, Cap(keyLimit)) && x !in Select(t, queue, limit, now, keyLimit, true)
    ensures RowNumber(t, Candidates(t, queue, now), x)
            == |Group(t, Select(t, queue, limit, now, keyLimit, true), t[left].key)| + 1
  {
    var c := Select(t, queue, limit, now, keyLimit, true);
    x := FirstLeft(t, queue, limit, now, keyLimit, left);
    forall y | y in Group(t, c, t[x].key) ensures Before(t, y, x) {
      if !Before(t, y, x) {
        FairTakesPrefix(t, queue, limit, now, keyLimit, x, y);
      }
    }
    NextRank(t, Candidates(t, queue, now), c, x);
  }

  /** Round-robin: while a group still has an eligible row waiting, no other group
      has received more than one row beyond it. */
  lemma FairIsRoundRobin(t: Table, queue: string, limit: nat, now: int, keyLimit: Option<nat>,
                         left: JobId, other: Option<string>)
    requires left in Eligible(t, queue, now, Cap(keyLimit))
    requires left !in Select(t, queue, limit, now, keyLimit, true)
    ensures var c := Select(t, queue, limit, now, keyLimit, true);
            |Group(t, c, other)| <= |Group(t, c, t[left].key)| + 1
  {
    var cand := Candidates(t, queue, now);
    var e := Eligible(t, queue, now, Cap(keyLimit));
    var c := Select(t, queue, limit, now, keyLimit, true);
    var h := Group(t, c, other);
    if h != {} {
      var x := FirstLeftRank(t, queue, limit, now, keyLimit, left);
      BeforeIsTotal(t, h);
      var m := Greatest(h, (a: nat, b: nat) => Before(t, a, b));
      forall y | y in cand && t[y].key == other && Before(t, y, m) ensures y in c {
        FairTakesPrefix(t, queue, limit, now, keyLimit, y, m);
      }
      LastTakenRank(t, cand, c, m);
      if RowNumber(t, cand, x) < RowNumber(t, cand, m) {
        FairBeforeIsTotal(t, cand, e);
        TopIsInitial(e, (a: nat, b: nat) => FairBefore(t, cand, a, b), limit, x, m);
      }
    }
  }

  // ---- What a claim prefers, and what a key limit leaves ------------------------------------------------

  /** A plain claim never passes over a ready job for one of lower priority, nor, between equal
      priorities, for a younger one. */
  lemma PlainTakesFirst(t: Table, queue: string, limit: nat, now: int, x: JobId, y: JobId)
    requires y in Select(t, queue, limit, now, None, false)
    requires x in t && t[x].queue == queue && t[x].status == Pending && t[x].availableAt <= now
    requires t[x].priority > t[y].priority || (t[x].priority == t[y].priority && x <= y)
    ensures x in Select(t, queue, limit, now, None, false)
  {
    var cand := Candidates(t, queue, now);
    if x != y {
      BeforeIsTotal(t, cand);
      TopIsInitial(cand, (a: nat, b: nat) => Before(t, a, b), limit, x, y);
    }
  }

  /** A claim under a key limit without fairness takes the rows the limit leaves oldest first. */
  lemma KeyedTakesOldest(t: Table, queue: string, limit: nat, now: int, k: nat, x: JobId, y: JobId)
    requires x in Eligible(t, queue, now, k) && y in Select(t, queue, limit, now, Some(k), false) && x <= y
    ensures x in Select(t, queue, limit, now, Some(k), false)
  {
    if x != y {
      TopIsInitial(Eligible(t, queue, now, k), (a: nat, b: nat) => a < b, limit, x, y);
    }
  }

  /** The jobs of a key that are ready, and those of the queue that run under it. */
  function ReadyWith(t: Table, queue: string, now: int, key: Option<string>): set<JobId> {
    set id | id in t && t[id].key == key && t[id].queue == queue && t[id].status == Pending && t[id].availableAt <= now
  }

  /** A key limit leaves room for exactly the slots of each key that nothing running takes up, and a
      key limit of another key or queue takes none; jobs without a key are not limited at all. */
  lemma KeyRoomIsFilled(t: Table, queue: string, limit: nat, now: int, k: nat, fair: bool, key: Option<string>)
    requires limit >= |Eligible(t, queue, now, k)|
    ensures var running := |set id | id in t && t[id].status == Running && t[id].queue == queue && t[id].key == key|;
      |Group(t, Select(t, queue, limit, now, Some(k), fair), key)|
      == var ready := |ReadyWith(t, queue, now, key)|;
         if key.None? then ready else Min(ready, Max(k - running, 0))
  {
    var cand := Candidates(t, queue, now);
    var less := (a: nat, b: nat) => Before(t, a, b);
    var g := Group(t, cand, key);
    var running := set id | id in t && t[id].status == Running && t[id].queue == queue && t[id].key == key;
    TakesAllEligible(t, queue, limit, now, k, fair);
    var taken := Group(t, Eligible(t, queue, now, k), key);
    assert g == ReadyWith(t, queue, now, key);
    if key.Some? {
      assert running == RunningWith(t, queue, key);
      BeforeIsTotal(t, g);
      var room := Max(k - |running|, 0);
      TopSize(g, less, room);
      assert taken == Top(g, less, room) by {
        forall x | x in g ensures x in taken <==> |Below(g, less, x)| < room {
          assert KeyRank(t, queue, cand, x) == |running| + 1 + |Below(g, less, x)|;
        }
      }
    } else {
      assert taken == g;
    }
  }

  lemma TakesAllEligible(t: Table, queue: string, limit: nat, now: int, k: nat, fair: bool)
    requires limit >= |Eligible(t, queue, now, k)|
    ensures Select(t, queue, limit, now, Some(k), fair) == Eligible(t, queue, now, k)
  {
    ClaimFillsLimit(t, queue, limit, now, Some(k), fair);
    SubsetSize(Select(t, queue, limit, now, Some(k), fair), Eligible(t, queue, now, k));
  }
}
