/** Rows of the `runs` table and of the step journal. */
module Runs {
  import opened Orders
  import JsonText

  type Tokens = JsonText.Tokens

  type RunId = nat
  type StepId = string

  datatype Status = Runnable | Sleeping | WaitEvent | WaitChild | Completed | Failed | Cancelled

  predicate Terminal(s: Status) { s.Completed? || s.Failed? || s.Cancelled? }

  /** User keys never collide with the engine's own deterministic invoke keys. */
  datatype IdemKey = UserKey(key: string) | InvokeKey(run: RunId, step: StepId)

  /** The stored wait predicate: absent, not a JSON object, or an object of required fields. */
  datatype Match = NoMatch | Malformed | Fields(fields: map<string, string>)

  datatype Run = Run(
    workflow: string, status: Status, parent: Option<(RunId, StepId)>, idem: Option<IdemKey>,
    output: Option<Tokens>, error: Option<string>,
    waitEvent: Option<string>, waitStep: Option<StepId>, waitMatch: Match, wakeAt: Option<int>)

  type RunTable = map<RunId, Run>

  predicate Live(t: RunTable, id: RunId) { id in t && !Terminal(t[id].status) }

  predicate ChildOf(t: RunTable, p: RunId, c: RunId) {
    c in t && t[c].parent.Some? && t[c].parent.value.0 == p
  }

  /** Every required field is present with the same value; malformed predicates never block. */
  predicate MatchSubset(m: Match, payload: map<string, string>) {
    m.Fields? ==> forall k | k in m.fields :: k in payload && payload[k] == m.fields[k]
  }
}

/** Cancelling a run tree: the SQLite worklist, and the Postgres recursive query. */
module CancelTree {
  import opened Orders
  import opened Runs

  /** A parent-to-child chain of runs that are all non-terminal. */
  ghost predicate LiveChain(t: RunTable, path: seq<RunId>) {
    && path != []
    && (forall i | 0 <= i < |path| :: Live(t, path[i]))
    && (forall i | 0 < i < |path| :: ChildOf(t, path[i - 1], path[i]))
  }

  ghost predicate Reaches(t: RunTable, root: RunId, x: RunId) {
    exists path :: LiveChain(t, path) && path[0] == root && path[|path| - 1] == x
  }

  /** The runs a cancel of `root` must stop. */
  ghost function CancelSet(t: RunTable, root: RunId): set<RunId> {
    set x | x in t && Reaches(t, root, x)
  }

  function CancelRun(r: Run): Run {
    r.(status := Cancelled, waitEvent := None, waitStep := None, wakeAt := None)
  }

  function CancelRows(t: RunTable, ids: set<RunId>): RunTable {
    map id | id in t :: if id in ids then CancelRun(t[id]) else t[id]
  }

  lemma RootReached(t: RunTable, root: RunId)
    requires Live(t, root)
    ensures Reaches(t, root, root)
  {
    assert LiveChain(t, [root]);
  }

  lemma ReachesChild(t: RunTable, root: RunId, p: RunId, c: RunId)
    requires Reaches(t, root, p) && Live(t, c) && ChildOf(t, p, c)
    ensures Reaches(t, root, c)
  {
    var path :| LiveChain(t, path) && path[0] == root && path[|path| - 1] == p;
    assert LiveChain(t, path + [c]);
  }

  /** Every reached run other than the root is reached through its parent. */
  lemma ReachedThroughParent(t: RunTable, root: RunId, x: RunId)
    requires Reaches(t, root, x)
    ensures Live(t, x)
    ensures x == root || (t[x].parent.Some? && Reaches(t, root, t[x].parent.value.0))
  {
    var path :| LiveChain(t, path) && path[0] == root && path[|path| - 1] == x;
    if |path| > 1 {
      var shorter := path[..|path| - 1];
      assert LiveChain(t, shorter);
      assert ChildOf(t, path[|path| - 2], path[|path| - 1]);
    }
  }

  /** A set that holds the live root and is closed under live children holds everything reached. */
  lemma {:induction false} ClosedHoldsChain(t: RunTable, closed: set<RunId>, path: seq<RunId>)
    requires LiveChain(t, path) && path[0] in closed
    requires forall p, c | p in closed && Live(t, c) && ChildOf(t, p, c) :: c in closed
    ensures path[|path| - 1] in closed
    decreases |path|
  {
    if |path| > 1 {
      ClosedHoldsChain(t, closed, path[..|path| - 1]);
      assert path[|path| - 2] in closed;
    }
  }

  lemma ClosedHoldsReached(t: RunTable, root: RunId, closed: set<RunId>)
    requires Live(t, root) ==> root in closed
    requires forall p, c | p in closed && Live(t, c) && ChildOf(t, p, c) :: c in closed
    ensures CancelSet(t, root) <= closed
  {
    forall x | x in CancelSet(t, root) ensures x in closed {
      var path :| LiveChain(t, path) && path[0] == root && path[|path| - 1] == x;
      ClosedHoldsChain(t, closed, path);
    }
  }

  /** `SELECT id FROM runs WHERE parent_run_id = p`, in whatever order the rows come. */
  method ChildrenOf(t: RunTable, p: RunId) returns (children: seq<RunId>)
    ensures forall c :: c in children <==> ChildOf(t, p, c)
  {
    children := [];
    var rest := set c | c in t && ChildOf(t, p, c);
    while rest != {}
      invariant forall c :: c in children || c in rest <==> ChildOf(t, p, c)
      decreases |rest|
    {
      var c :| c in rest;
      children := children + [c];
      rest := rest - {c};
    }
  }

  ghost function LiveIds(t: RunTable): set<RunId> { set x | x in t && Live(t, x) }

  /** The worklist's loop invariant: `done` is reached, and everything reached is in `done`
      or still to be found from the frontier. */
  ghost predicate Frontier(t: RunTable, root: RunId, done: set<RunId>, frontier: seq<RunId>) {
    && (forall x | x in done :: Reaches(t, root, x))
    && (forall f | f in frontier :: f == root || exists p :: p in done && ChildOf(t, p, f))
    && (forall p, c | p in done && Live(t, c) && ChildOf(t, p, c) :: c in done || c in frontier)
    && (Live(t, root) ==> root in done || root in frontier)
  }

  lemma PopDead(t: RunTable, root: RunId, done: set<RunId>, frontier: seq<RunId>)
    requires Frontier(t, root, done, frontier) && frontier != []
    requires frontier[|frontier| - 1] in done || !Live(t, frontier[|frontier| - 1])
    ensures Frontier(t, root, done, frontier[..|frontier| - 1])
  {
    var rest := frontier[..|frontier| - 1];
    assert frontier == rest + [frontier[|frontier| - 1]];
    assert forall f :: f in frontier <==> f in rest || f == frontier[|frontier| - 1];
  }

  lemma PopLive(t: RunTable, root: RunId, done: set<RunId>, frontier: seq<RunId>, children: seq<RunId>)
    requires Frontier(t, root, done, frontier) && frontier != []
    requires Live(t, frontier[|frontier| - 1])
    requires forall c :: c in children <==> ChildOf(t, frontier[|frontier| - 1], c)
    ensures var id := frontier[|frontier| - 1];
      Reaches(t, root, id) && Frontier(t, root, done + {id}, frontier[..|frontier| - 1] + children)
  {
    var id := frontier[|frontier| - 1];
    var rest := frontier[..|frontier| - 1];
    assert frontier == rest + [id];
    assert forall f :: f in frontier <==> f in rest || f == id;
    if id == root {
      RootReached(t, root);
    } else {
      assert id in frontier;
      var p :| p in done && ChildOf(t, p, id);
      ReachesChild(t, root, p, id);
    }
  }

  /** Cancels exactly the runs reachable from the root through non-terminal runs, on any
      parent graph, and returns their number. */
  method CancelRunTree(runs: RunTable, root: RunId) returns (t: RunTable, cancelled: nat)
    ensures t == CancelRows(runs, CancelSet(runs, root))
    ensures cancelled == |CancelSet(runs, root)|
  {
    t, cancelled := runs, 0;
    var frontier := [root];
    ghost var done: set<RunId> := {};
    while frontier != []
      invariant Frontier(runs, root, done, frontier)
      invariant done <= LiveIds(runs)
      invariant t == CancelRows(runs, done) && cancelled == |done|
      decreases |LiveIds(runs)| - |done|, |frontier|
    {
      var id := frontier[|frontier| - 1];
      ghost var was := frontier;
      frontier := frontier[..|frontier| - 1];
      if id in t && !Terminal(t[id].status) {
        t := t[id := CancelRun(t[id])];
        cancelled := cancelled + 1;
        var children := ChildrenOf(t, id);
        assert forall c :: ChildOf(t, id, c) <==> ChildOf(runs, id, c);
        PopLive(runs, root, done, was, children);
        SubsetSize(done + {id}, LiveIds(runs));
        done := done + {id};
        frontier := frontier + children;
      } else {
        PopDead(runs, root, done, was);
      }
    }
    ClosedHoldsReached(runs, root, done);
    assert done == CancelSet(runs, root);
  }

  // ---- The Postgres recursive query -------------------------------------------------------------

  /** A parent-to-child chain of stored runs, whatever their status. */
  ghost predicate Chain(t: RunTable, path: seq<RunId>) {
    && path != []
    && path[0] in t
    && (forall i | 0 < i < |path| :: ChildOf(t, path[i - 1], path[i]))
  }

  ghost predicate InTree(t: RunTable, root: RunId, x: RunId) {
    exists path :: Chain(t, path) && path[0] == root && path[|path| - 1] == x
  }

  /** The whole tree is collected first, then its non-terminal members are cancelled. */
  ghost function PgCancelSet(t: RunTable, root: RunId): set<RunId> {
    set x | x in t && InTree(t, root, x) && Live(t, x)
  }

  /** A terminal run of the tree with a non-terminal child: the worklist stops there, the
      recursive query does not. */
  ghost predicate HidesLiveChild(t: RunTable, root: RunId, x: RunId) {
    x in t && InTree(t, root, x) && !Live(t, x) && exists c :: ChildOf(t, x, c) && Live(t, c) && c != root
  }

  lemma {:induction false} LiveTreeIsReached(t: RunTable, root: RunId, path: seq<RunId>)
    requires Chain(t, path) && path[0] == root && Live(t, path[|path| - 1])
    requires forall x | x in t :: !HidesLiveChild(t, root, x)
    ensures Reaches(t, root, path[|path| - 1])
    decreases |path|
  {
    var x := path[|path| - 1];
    if x == root {
      RootReached(t, root);
    } else {
      var shorter := path[..|path| - 1];
      var p := shorter[|shorter| - 1];
      assert Chain(t, shorter);
      assert ChildOf(t, p, x);
      assert InTree(t, root, p);
      assert p in t by {
        if |shorter| > 1 {
          assert ChildOf(t, shorter[|shorter| - 2], p);
        }
      }
      assert !HidesLiveChild(t, root, p);
      LiveTreeIsReached(t, root, shorter);
      ReachesChild(t, root, p, x);
    }
  }

  lemma ReachedIsInTree(t: RunTable, root: RunId)
    ensures CancelSet(t, root) <= PgCancelSet(t, root)
  {
    forall x | x in CancelSet(t, root) ensures x in PgCancelSet(t, root) {
      var path :| LiveChain(t, path) && path[0] == root && path[|path| - 1] == x;
      assert Chain(t, path);
    }
  }

  /** The two stores cancel the same runs exactly when no terminal run of the tree has a
      non-terminal child. */
  lemma StoresAgreeIff(t: RunTable, root: RunId)
    ensures CancelSet(t, root) == PgCancelSet(t, root) <==> forall x | x in t :: !HidesLiveChild(t, root, x)
  {
    ReachedIsInTree(t, root);
    if forall x | x in t :: !HidesLiveChild(t, root, x) {
      forall x | x in PgCancelSet(t, root) ensures x in CancelSet(t, root) {
        var path :| Chain(t, path) && path[0] == root && path[|path| - 1] == x;
        LiveTreeIsReached(t, root, path);
      }
    } else {
      var x :| x in t && HidesLiveChild(t, root, x);
      var c :| ChildOf(t, x, c) && Live(t, c) && c != root;
      var path :| Chain(t, path) && path[0] == root && path[|path| - 1] == x;
      assert Chain(t, path + [c]);
      assert c in PgCancelSet(t, root);
      if Reaches(t, root, c) {
        ReachedThroughParent(t, root, c);
        ReachedThroughParent(t, root, x);
      }
    }
  }
}
