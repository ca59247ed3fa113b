/** Throttled pushes: spacing of the start times assigned under one key. */
module Throttling {
  import opened Orders
  import opened JobQueue

  datatype Pushed = Pushed(job: PushJob, now: int)

  predicate Hits(p: Pushed, slot: (string, string)) {
    Throttled(p.job) && (p.job.queue, p.job.throttleKey.value) == slot
  }

  function After(s: Store, ps: seq<Pushed>): Store {
    if ps == [] then s else Insert(After(s, ps[..|ps| - 1]), ps[|ps| - 1].job, ps[|ps| - 1].now)
  }

  /** The start times given to the pushes under `slot`, in push order; pushes under other
      keys and unthrottled pushes may come in between. */
  function Starts(s: Store, ps: seq<Pushed>, slot: (string, string)): seq<int> {
    if ps == [] then []
    else
      var n := |ps| - 1;
      Starts(s, ps[..n], slot)
      + if Hits(ps[n], slot) then [AvailableAt(After(s, ps[..n]), ps[n].job, ps[n].now)] else []
  }

  /** The clock readings of those same pushes. */
  function Clocks(ps: seq<Pushed>, slot: (string, string)): seq<int> {
    if ps == [] then []
    else
      var n := |ps| - 1;
      Clocks(ps[..n], slot) + if Hits(ps[n], slot) then [ps[n].now] else []
  }

  /** Any clock readings, even backwards ones: consecutive starts are a spacing apart, none is
      before its push's clock, and the cursor stays a spacing past the last start. */
  lemma {:induction false} StartsAreSpaced(s: Store, ps: seq<Pushed>, slot: (string, string), spacing: int)
    requires spacing >= 1
    requires forall p | p in ps && Hits(p, slot) :: p.job.throttleSpacingMs == Some(spacing)
    ensures |Starts(s, ps, slot)| == |Clocks(ps, slot)|
    ensures forall i | 0 <= i < |Starts(s, ps, slot)| :: Starts(s, ps, slot)[i] >= Clocks(ps, slot)[i]
    ensures forall i | 0 < i < |Starts(s, ps, slot)| ::
      Starts(s, ps, slot)[i] >= Starts(s, ps, slot)[i - 1] + spacing
    ensures var st := Starts(s, ps, slot);
      st != [] ==> slot in After(s, ps).cursors && After(s, ps).cursors[slot] == st[|st| - 1] + spacing
  {
    if ps != [] {
      StartsAreSpaced(s, ps[..|ps| - 1], slot, spacing);
    }
  }

  /** Every start is as early as it can be: at its push's clock, or, later than that, a spacing after
      the start before it, or where the cursor stood to begin with. */
  ghost predicate Earliest(s: Store, st: seq<int>, clocks: seq<int>, slot: (string, string), spacing: int) {
    && |st| == |clocks|
    && forall i | 0 <= i < |st| && st[i] > clocks[i] ::
         if i > 0 then st[i] == st[i - 1] + spacing else slot in s.cursors && st[0] == s.cursors[slot]
  }

  lemma EarliestMore(s: Store, st: seq<int>, clocks: seq<int>, slot: (string, string), spacing: int, start: int,
                     clock: int)
    requires Earliest(s, st, clocks, slot, spacing)
    requires start > clock ==>
      if st == [] then slot in s.cursors && start == s.cursors[slot] else start == st[|st| - 1] + spacing
    ensures Earliest(s, st + [start], clocks + [clock], slot, spacing)
  {
  }

  lemma {:induction false} StartsAreEarliest(s: Store, ps: seq<Pushed>, slot: (string, string), spacing: int)
    requires spacing >= 1
    requires forall p | p in ps && Hits(p, slot) :: p.job.throttleSpacingMs == Some(spacing)
    ensures Earliest(s, Starts(s, ps, slot), Clocks(ps, slot), slot, spacing)
  {
    if ps != [] {
      var n := |ps| - 1;
      var before, st := After(s, ps[..n]), Starts(s, ps[..n], slot);
      StartsAreEarliest(s, ps[..n], slot, spacing);
      StartsAreSpaced(s, ps[..n], slot, spacing);
      if Hits(ps[n], slot) {
        if st == [] {
          NoStartNoCursor(s, ps[..n], slot);
        }
        var start := AvailableAt(before, ps[n].job, ps[n].now);
        assert start > ps[n].now ==> slot in before.cursors && start == before.cursors[slot];
        hide After, Earliest, AvailableAt;
        EarliestMore(s, st, Clocks(ps[..n], slot), slot, spacing, start, ps[n].now);
      }
    }
  }

  lemma {:induction false} NoStartNoCursor(s: Store, ps: seq<Pushed>, slot: (string, string))
    requires Starts(s, ps, slot) == []
    ensures slot in After(s, ps).cursors <==> slot in s.cursors
    ensures slot in s.cursors ==> After(s, ps).cursors[slot] == s.cursors[slot]
  {
    if ps != [] {
      NoStartNoCursor(s, ps[..|ps| - 1], slot);
    }
  }

  lemma {:induction false} StartsSpread(st: seq<int>, spacing: int, i: nat, j: nat)
    requires forall k | 0 < k < |st| :: st[k] >= st[k - 1] + spacing
    requires i <= j < |st|
    ensures st[j] >= st[i] + (j - i) * spacing
    decreases j
  {
    if i < j {
      StartsSpread(st, spacing, i, j - 1);
      assert (j - i) * spacing == (j - 1 - i) * spacing + spacing;
    }
  }

  function Within(st: seq<int>, lo: int, w: nat): set<nat> {
    set i: nat | i < |st| && lo <= st[i] <= lo + w
  }

  /** A set of indices between `a` and `b` has at most b - a + 1 members. */
  lemma {:induction false} IndexRange(s: set<nat>, a: nat, b: nat)
    requires a <= b && forall i | i in s :: a <= i <= b
    ensures |s| <= b - a + 1
    decreases b
  {
    var rest := s - {b};
    assert |rest| >= |s| - 1;
    if a < b {
      IndexRange(rest, a, b - 1);
    } else {
      assert rest == {};
    }
  }

  /** Any closed interval of length `w` holds at most w/spacing + 1 starts of one key. */
  lemma StartsPerInterval(s: Store, ps: seq<Pushed>, slot: (string, string), spacing: int, lo: int, w: nat)
    requires spacing >= 1
    requires forall p | p in ps && Hits(p, slot) :: p.job.throttleSpacingMs == Some(spacing)
    ensures |Within(Starts(s, ps, slot), lo, w)| <= w / spacing + 1
  {
    var st := Starts(s, ps, slot);
    StartsAreSpaced(s, ps, slot, spacing);
    var inside := Within(st, lo, w);
    if inside != {} {
      var less := (x: nat, y: nat) => x < y;
      var a := Least(inside, less);
      var b := Greatest(inside, less);
      StartsSpread(st, spacing, a, b);
      QuotientBound(b - a, spacing, w);
      IndexRange(inside, a, b);
    }
  }

  lemma QuotientBound(n: nat, d: int, w: nat)
    requires d >= 1 && n * d <= w
    ensures n <= w / d
  {
    assert w < (w / d + 1) * d;
    CancelFactor(n, w / d + 1, d);
  }

  lemma CancelFactor(n: int, m: int, d: int)
    requires d >= 1 && n * d < m * d
    ensures n < m
  {
    assert (m - n) * d > 0;
  }

  // ---- The Postgres upsert ------------------------------------------------------------------

  /** One atomic upsert returning the new cursor; the start is read back from it. */
  function PgNextAt(cursors: map<(string, string), int>, slot: (string, string), now: int, spacing: int): int {
    (if slot in cursors then Max(cursors[slot], now) else now) + Max(spacing, 0)
  }

  /** Both stores assign the same start and leave the same cursor, for every push. */
  lemma PostgresAssignsSameSlot(s: Store, job: PushJob, now: int)
    requires Throttled(job)
    ensures var slot := (job.queue, job.throttleKey.value);
      var nextAt := PgNextAt(s.cursors, slot, now, job.throttleSpacingMs.value);
      && AvailableAt(s, job, now) == nextAt - Max(job.throttleSpacingMs.value, 0)
      && AdvanceCursor(s, job, now) == s.cursors[slot := nextAt]
  {
  }
}
