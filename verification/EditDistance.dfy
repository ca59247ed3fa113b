/** Edit distance and the similarity score built on it. */
module EditDistance {

  function Min3(x: nat, y: nat, z: nat): nat {
    if x <= y && x <= z then x else if y <= z then y else z
  }

  function Init(s: string): string
    requires s != []
  {
    s[..|s| - 1]
  }

  function Last(s: string): char
    requires s != []
  {
    s[|s| - 1]
  }

  function Cost(c: char, d: char): nat { if c == d then 0 else 1 }

  /** The recursive edit distance, on the last characters. */
  function Lev(a: string, b: string): nat {
    if a == [] then |b|
    else if b == [] then |a|
    else Min3(Lev(Init(a), b) + 1, Lev(a, Init(b)) + 1, Lev(Init(a), Init(b)) + Cost(Last(a), Last(b)))
  }

  // ---- A metric ---------------------------------------------------------------------------------------

  lemma {:induction false} LevBounds(a: string, b: string)
    ensures |a| - |b| <= Lev(a, b) && |b| - |a| <= Lev(a, b)
    ensures Lev(a, b) <= if |a| >= |b| then |a| else |b|
  {
    if a != [] && b != [] {
      LevBounds(Init(a), b);
      LevBounds(a, Init(b));
      LevBounds(Init(a), Init(b));
    }
  }

  lemma {:induction false} LevSymmetric(a: string, b: string)
    ensures Lev(a, b) == Lev(b, a)
  {
    if a != [] && b != [] {
      LevSymmetric(Init(a), b);
      LevSymmetric(a, Init(b));
      LevSymmetric(Init(a), Init(b));
    }
  }

  lemma {:induction false} LevZeroIffEqual(a: string, b: string)
    ensures Lev(a, b) == 0 <==> a == b
  {
    if a != [] && b != [] {
      LevZeroIffEqual(Init(a), Init(b));
      assert a == Init(a) + [Last(a)] && b == Init(b) + [Last(b)];
    }
  }

  lemma {:induction false} LevUnfold(a: string, b: string)
    ensures a == [] || b == [] ==> Lev(a, b) == |a| + |b|
    ensures a != [] && b != [] ==>
      Lev(a, b) == Min3(Lev(Init(a), b) + 1, Lev(a, Init(b)) + 1, Lev(Init(a), Init(b)) + Cost(Last(a), Last(b)))
  {
  }

  lemma {:induction false} LevTriangle(a: string, b: string, c: string)
    ensures Lev(a, c) <= Lev(a, b) + Lev(b, c)
    decreases |a| + |b| + |c|
  {
    hide Lev;
    LevUnfold(a, b);
    LevUnfold(b, c);
    LevUnfold(a, c);
    if a == [] || b == [] || c == [] {
      LevBounds(a, b);
      LevBounds(b, c);
      LevBounds(a, c);
    } else {
      LevTriangle(Init(a), b, c);
      LevTriangle(a, b, Init(c));
      LevTriangle(a, Init(b), c);
      LevTriangle(a, Init(b), Init(c));
      LevTriangle(Init(a), Init(b), c);
      LevTriangle(Init(a), Init(b), Init(c));
    }
  }

  // ---- The least number of single-character edits -----------------------------------------------------------

  datatype Edit = Insert(at: nat, c: char) | Delete(at: nat) | Replace(at: nat, c: char)

  predicate Fits(s: string, e: Edit) {
    if e.Insert? then e.at <= |s| else e.at < |s|
  }

  function Apply(s: string, e: Edit): string
    requires Fits(s, e)
  {
    match e
    case Insert(i, c) => s[..i] + [c] + s[i..]
    case Delete(i) => s[..i] + s[i + 1..]
    case Replace(i, c) => s[..i] + [c] + s[i + 1..]
  }

  /** The edits of `es`, one after the other, turn `a` into `b`. */
  predicate Turns(a: string, es: seq<Edit>, b: string)
    decreases |es|
  {
    if es == [] then a == b else Fits(a, es[0]) && Turns(Apply(a, es[0]), es[1..], b)
  }

  /** A common last part adds nothing. */
  lemma {:induction false} LevSuffix(a: string, b: string, suffix: string)
    ensures Lev(a + suffix, b + suffix) <= Lev(a, b)
    decreases |suffix|
  {
    if suffix == [] {
      assert a + suffix == a && b + suffix == b;
    } else {
      var a', b' := a + suffix, b + suffix;
      assert Init(a') == a + Init(suffix) && Init(b') == b + Init(suffix);
      LevSuffix(a, b, Init(suffix));
    }
  }

  lemma {:induction false} LevSnoc(a: string, c: char, d: char)
    ensures Lev(a, a + [c]) <= 1 && Lev(a + [c], a) <= 1 && Lev(a + [c], a + [d]) <= 1
  {
    LevZeroIffEqual(a, a);
    assert Init(a + [c]) == a && Init(a + [d]) == a;
    LevSymmetric(a, a + [c]);
  }

  lemma {:induction false} OneEditOneApart(s: string, e: Edit)
    requires Fits(s, e)
    ensures Lev(s, Apply(s, e)) <= 1
  {
    var p := s[..e.at];
    if e.Insert? {
      assert s == p + s[e.at..];
      LevSnoc(p, e.c, e.c);
      LevSuffix(p, p + [e.c], s[e.at..]);
    } else {
      var gone, rest := s[e.at], s[e.at + 1..];
      assert s == p + [gone] + rest;
      LevSnoc(p, gone, if e.Replace? then e.c else gone);
      LevSuffix(p + [gone], if e.Replace? then p + [e.c] else p, rest);
    }
  }

  /** No script of edits is shorter than the distance. */
  lemma {:induction false} ScriptsAreNoShorter(a: string, es: seq<Edit>, b: string)
    requires Turns(a, es, b)
    ensures Lev(a, b) <= |es|
    decreases |es|
  {
    if es == [] {
      LevZeroIffEqual(a, b);
    } else {
      hide Lev;
      var t := Apply(a, es[0]);
      ScriptsAreNoShorter(t, es[1..], b);
      OneEditOneApart(a, es[0]);
      LevTriangle(a, t, b);
    }
  }

  lemma {:induction false} ScriptThenEdit(a: string, es: seq<Edit>, b: string, e: Edit)
    requires Turns(a, es, b) && Fits(b, e)
    ensures Turns(a, es + [e], Apply(b, e))
    decreases |es|
  {
    if es == [] {
      assert es + [e] == [e];
      assert Turns(Apply(a, e), [], Apply(b, e));
    } else {
      hide Apply;
      ScriptThenEdit(Apply(a, es[0]), es[1..], b, e);
      assert (es + [e])[1..] == es[1..] + [e];
    }
  }

  lemma {:induction false} EditBeforeLast(a: string, e: Edit, c: char)
    requires Fits(a, e)
    ensures Fits(a + [c], e) && Apply(a + [c], e) == Apply(a, e) + [c]
  {
  }

  /** A script leaves a further last character alone. */
  lemma {:induction false} ScriptBeforeLast(a: string, es: seq<Edit>, b: string, c: char)
    requires Turns(a, es, b)
    ensures Turns(a + [c], es, b + [c])
    decreases |es|
  {
    if es != [] {
      EditBeforeLast(a, es[0], c);
      hide Apply;
      ScriptBeforeLast(Apply(a, es[0]), es[1..], b, c);
    }
  }

  lemma {:induction false} AppendLast(a: string, es: seq<Edit>, b: string)
    requires b != [] && Turns(a, es, Init(b))
    ensures Turns(a, es + [Insert(|b| - 1, Last(b))], b)
  {
    var e := Insert(|b| - 1, Last(b));
    assert Apply(Init(b), e) == b;
    ScriptThenEdit(a, es, Init(b), e);
  }

  lemma {:induction false} DropLast(a: string, es: seq<Edit>, b: string)
    requires a != [] && Turns(Init(a), es, b)
    ensures Turns(a, [Delete(|a| - 1)] + es, b)
  {
    assert Apply(a, Delete(|a| - 1)) == Init(a);
    assert ([Delete(|a| - 1)] + es)[1..] == es;
  }

  lemma {:induction false} ReplaceLast(a: string, es: seq<Edit>, b: string)
    requires a != [] && b != [] && Turns(Init(a), es, Init(b))
    ensures Last(a) == Last(b) ==> Turns(a, es, b)
    ensures Turns(a, es + [Replace(|b| - 1, Last(b))], b)
  {
    var almost, e := Init(b) + [Last(a)], Replace(|b| - 1, Last(b));
    assert a == Init(a) + [Last(a)] && b == Init(b) + [Last(b)];
    ScriptBeforeLast(Init(a), es, Init(b), Last(a));
    assert Apply(almost, e) == b;
    ScriptThenEdit(a, es, almost, e);
  }

  /** A script as short as the distance. */
  lemma {:induction false} ShortestScript(a: string, b: string) returns (es: seq<Edit>)
    ensures Turns(a, es, b) && |es| == Lev(a, b)
    decreases |a| + |b|
  {
    hide Turns;
    if a == [] && b == [] {
      NoEdits();
      es := [];
    } else if b != [] && (a == [] || Lev(a, b) == Lev(a, Init(b)) + 1) {
      var first := ShortestScript(a, Init(b));
      AppendLast(a, first, b);
      es := first + [Insert(|b| - 1, Last(b))];
    } else if b == [] || Lev(a, b) == Lev(Init(a), b) + 1 {
      var rest := ShortestScript(Init(a), b);
      DropLast(a, rest, b);
      es := [Delete(|a| - 1)] + rest;
    } else {
      var shared := ShortestScript(Init(a), Init(b));
      ReplaceLast(a, shared, b);
      es := if Last(a) == Last(b) then shared else shared + [Replace(|b| - 1, Last(b))];
    }
  }

  lemma {:induction false} NoEdits()
    ensures Turns([], [], [])
  {
  }

  /** The distance is the least number of insertions, deletions and replacements that turn one
      string into the other. */
  lemma {:induction false} LevIsLeastEdits(a: string, b: string, n: nat)
    ensures (exists es :: Turns(a, es, b) && |es| <= n) <==> Lev(a, b) <= n
  {
    hide *;
    if Lev(a, b) <= n {
      var es := ShortestScript(a, b);
    }
    if es :| Turns(a, es, b) && |es| <= n {
      ScriptsAreNoShorter(a, es, b);
    }
  }

  // ---- The two-row loop -------------------------------------------------------------------------------------

  lemma {:induction false} LevCell(a: string, b: string, i: nat, j: nat)
    requires 1 <= i <= |a| && 1 <= j <= |b|
    ensures Lev(a[..i], b[..j])
            == Min3(Lev(a[..i - 1], b[..j]) + 1, Lev(a[..i], b[..j - 1]) + 1, Lev(a[..i - 1], b[..j - 1])
              + Cost(a[i - 1], b[j - 1]))
  {
    hide Lev;
    assert Init(a[..i]) == a[..i - 1] && Init(b[..j]) == b[..j - 1];
    LevUnfold(a[..i], b[..j]);
  }

  /** Row `i` of the table. */
  ghost predicate IsRow(row: seq<nat>, a: string, b: string, i: nat, n: nat)
    requires i <= |a|
  {
    n <= |row| && n <= |b| + 1 && forall j | 0 <= j < n :: row[j] == Lev(a[..i], b[..j])
  }

  lemma {:induction false} FirstRow(a: string, b: string, row: seq<nat>)
    requires |row| == |b| + 1 && forall j | 0 <= j <= |b| :: row[j] == j
    ensures IsRow(row, a, b, 0, |b| + 1)
  {
  }

  lemma {:induction false} FirstCell(a: string, b: string, row: seq<nat>, i: nat)
    requires i <= |a| && row != [] && row[0] == i
    ensures IsRow(row, a, b, i, 1)
  {
  }

  lemma {:induction false} NextCell(a: string, b: string, prev: seq<nat>, curr: seq<nat>, curr': seq<nat>, i: nat,
                                    j: nat)
    requires 1 <= i <= |a| && 1 <= j <= |b| && |curr| == |curr'| == |b| + 1
    requires IsRow(prev, a, b, i - 1, |b| + 1) && IsRow(curr, a, b, i, j) && curr'[..j] == curr[..j]
    requires curr'[j] == Min3(prev[j] + 1, curr[j - 1] + 1, prev[j - 1] + Cost(a[i - 1], b[j - 1]))
    ensures IsRow(curr', a, b, i, j + 1)
  {
    hide Lev;
    LevCell(a, b, i, j);
    forall k | 0 <= k < j ensures curr'[k] == curr[k] {
      assert curr'[..j][k] == curr[..j][k];
    }
  }

  /** Keeps two rows of the table and swaps them. */
  method Levenshtein(a: string, b: string) returns (distance: nat)
    ensures distance == Lev(a, b)
  {
    var m, n := |a|, |b|;
    if m == 0 {
      return n;
    }
    if n == 0 {
      return m;
    }
    var prev := new nat[n + 1](i => i);
    var curr := new nat[n + 1];
    FirstRow(a, b, prev[..]);
    hide Lev, IsRow;
    for i := 1 to m + 1
      invariant fresh(prev) && fresh(curr) && prev != curr && prev.Length == curr.Length == n + 1
      invariant IsRow(prev[..], a, b, i - 1, n + 1)
    {
      curr[0] := i;
      FirstCell(a, b, curr[..], i);
      for j := 1 to n + 1
        invariant IsRow(prev[..], a, b, i - 1, n + 1) && IsRow(curr[..], a, b, i, j)
      {
        var cost := if a[i - 1] == b[j - 1] then 0 else 1;
        ghost var before := curr[..];
        curr[j] := Min3(prev[j] + 1, curr[j - 1] + 1, prev[j - 1] + cost);
        NextCell(a, b, prev[..], before, curr[..], i, j);
      }
      prev, curr := curr, prev;
    }
    LastCell(a, b, prev[..]);
    distance := prev[n];
  }

  lemma {:induction false} LastCell(a: string, b: string, row: seq<nat>)
    requires IsRow(row, a, b, |a|, |b| + 1)
    ensures row[|b|] == Lev(a, b)
  {
    hide Lev;
    assert a[..|a|] == a && b[..|b|] == b;
  }

  // ---- Similarity ---------------------------------------------------------------------------------------------

  function Clamp01(x: real): real { if x < 0.0 then 0.0 else if x > 1.0 then 1.0 else x }

  function Longest(a: string, b: string): nat { if |a| >= |b| then |a| else |b| }

  /** One minus the share of the longer string that has to be edited. */
  function Closeness(a: string, b: string): real {
    if Longest(a, b) == 0 then 1.0 else 1.0 - Lev(a, b) as real / Longest(a, b) as real
  }

  lemma {:induction false} ClosenessIsNormalized(a: string, b: string)
    ensures 0.0 <= Closeness(a, b) <= 1.0
    ensures Closeness(a, b) == Closeness(b, a)
    ensures Closeness(a, b) == 1.0 <==> a == b
    ensures Closeness(a, b) == 0.0 <==> Lev(a, b) == Longest(a, b) > 0
  {
    LevBounds(a, b);
    LevSymmetric(a, b);
    LevZeroIffEqual(a, b);
    var max := Longest(a, b);
    if max > 0 {
      ShareInRange(Lev(a, b), max);
    }
  }

  /** The score is the share of the longer string that is kept: kept and edited parts add up to it. */
  lemma ClosenessIsShareKept(a: string, b: string)
    ensures Closeness(a, b) * Longest(a, b) as real + Lev(a, b) as real == Longest(a, b) as real
    ensures |a| <= Longest(a, b) && |b| <= Longest(a, b) && (Longest(a, b) == |a| || Longest(a, b) == |b|)
  {
    var max, lev := Longest(a, b), Lev(a, b);
    LevBounds(a, b);
    hide Lev;
    if max > 0 {
      assert (1.0 - lev as real / max as real) * max as real == max as real - lev as real;
    }
  }

  lemma {:induction false} ShareInRange(part: nat, whole: nat)
    requires part <= whole && whole > 0
    ensures 0.0 <= part as real / whole as real <= 1.0
    ensures part as real / whole as real == 0.0 <==> part == 0
    ensures part as real / whole as real == 1.0 <==> part == whole
  {
    var q := part as real / whole as real;
    assert q * whole as real == part as real;
  }

  /** The evaluator: the clamp never changes the score. */
  method Similarity(output: string, reference: string, threshold: real) returns (score: real, passed: bool)
    ensures score == Closeness(output, reference) && 0.0 <= score <= 1.0
    ensures passed <==> Closeness(output, reference) >= threshold
  {
    var max := if |output| >= |reference| then |output| else |reference|;
    ClosenessIsNormalized(output, reference);
    if max == 0 {
      score := 1.0;
    } else {
      var distance := Levenshtein(output, reference);
      score := Clamp01(1.0 - distance as real / max as real);
    }
    passed := score >= threshold;
  }
}
