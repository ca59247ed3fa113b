/** Shared vocabulary: optional values, and the meaning of `ORDER BY ... LIMIT n`
    and `ROW_NUMBER()` over a finite set with a strict total order. */
module Orders {
  datatype Option<+T> = None | Some(value: T)

  function Min(a: int, b: int): int { if a <= b then a else b }

  function Max(a: int, b: int): int { if a >= b then a else b }

  /** `less` is a strict total order on the members of `e`. */
  ghost predicate StrictTotal(e: set<nat>, less: (nat, nat) -> bool) {
    && (forall x | x in e :: !less(x, x))
    && (forall x, y | x in e && y in e && x != y :: less(x, y) || less(y, x))
    && (forall x, y, z | x in e && y in e && z in e && less(x, y) && less(y, z) :: less(x, z))
  }

  /** The members of `e` that sort before `x`. */
  function Below(e: set<nat>, less: (nat, nat) -> bool, x: nat): set<nat> {
    set y | y in e && less(y, x)
  }

  /** The first `n` members of `e` under `less`: `ORDER BY less LIMIT n`. */
  function Top(e: set<nat>, less: (nat, nat) -> bool, n: nat): set<nat> {
    set x | x in e && |Below(e, less, x)| < n
  }

  lemma {:induction false} Greatest(e: set<nat>, less: (nat, nat) -> bool) returns (m: nat)
    requires e != {} && StrictTotal(e, less)
    ensures m in e && forall x | x in e && x != m :: less(x, m)
    decreases |e|
  {
    var a :| a in e;
    if e == {a} {
      m := a;
    } else {
      assert |e - {a}| < |e|;
      var b := Greatest(e - {a}, less);
      m := if less(a, b) then b else a;
    }
  }

  lemma {:induction false} Least(e: set<nat>, less: (nat, nat) -> bool) returns (m: nat)
    requires e != {} && StrictTotal(e, less)
    ensures m in e && forall x | x in e && x != m :: less(m, x)
  {
    m := Greatest(e, (x: nat, y: nat) => less(y, x));
  }

  lemma SubsetSize<T>(a: set<T>, b: set<T>)
    requires a <= b
    ensures |a| <= |b|
    ensures |a| == |b| ==> a == b
  {
    assert b == a + (b - a);
    assert |b| == |a| + |b - a|;
  }

  /** `LIMIT n` keeps exactly min(n, |e|) rows. */
  lemma {:induction false} TopSize(e: set<nat>, less: (nat, nat) -> bool, n: nat)
    requires StrictTotal(e, less)
    ensures |Top(e, less, n)| == Min(n, |e|)
    decreases |e|
  {
    if e == {} {
      assert Top(e, less, n) == {};
    } else {
      var m := Greatest(e, less);
      var rest := e - {m};
      assert |rest| == |e| - 1;
      TopSize(rest, less, n);
      forall x | x in rest ensures Below(e, less, x) == Below(rest, less, x) {
        assert !less(m, x);
      }
      assert Below(e, less, m) == rest;
      if |rest| < n {
        assert Top(e, less, n) == Top(rest, less, n) + {m};
      } else {
        assert Top(e, less, n) == Top(rest, less, n);
      }
    }
  }

  /** The kept rows form an initial segment of the order. */
  lemma TopIsInitial(e: set<nat>, less: (nat, nat) -> bool, n: nat, x: nat, y: nat)
    requires StrictTotal(e, less)
    requires x in e && y in Top(e, less, n) && less(x, y)
    ensures x in Top(e, less, n)
  {
    SubsetSize(Below(e, less, x), Below(e, less, y));
  }

  /** A set whose members each have fewer than `n` predecessors in `e` has at most `n` members. */
  lemma RankBoundsSize(e: set<nat>, less: (nat, nat) -> bool, s: set<nat>, n: nat)
    requires StrictTotal(e, less) && s <= e
    requires forall x | x in s :: |Below(e, less, x)| < n
    ensures |s| <= n
  {
    if s != {} {
      var m := Greatest(s, less);
      SubsetSize(s - {m}, Below(e, less, m));
      assert |s - {m}| == |s| - 1;
    }
  }
}
