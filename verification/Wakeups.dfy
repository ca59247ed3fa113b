/** No wakeup is lost and none is duplicated: the engine invariant, over every run. */
module Wakeups {
  import opened Orders
  import opened Runs
  import opened CancelTree
  import opened WorkflowEngine

  predicate IdsBounded(e: Engine) {
    && (forall r | r in e.runs :: r < e.nextId)
    && (forall r | r in e.jobs :: r < e.nextId)
    && (forall r | r in e.inflight :: r < e.nextId)
    && (forall r | r in e.steps :: r < e.nextId)
  }

  /** A live child's parent is parked on it, and its result is not recorded yet. */
  predicate ParentsParked(e: Engine) {
    forall c | c in e.runs && Live(e.runs, c) && e.runs[c].parent.Some? ::
      var (p, s) := e.runs[c].parent.value;
      p in e.runs && e.runs[p].status == WaitChild && !Done(e.steps, p, s)
  }

  ghost predicate HasLiveChild(e: Engine, p: RunId) { exists c :: ChildOf(e.runs, p, c) && Live(e.runs, c) }

  ghost predicate ParkedHaveChild(e: Engine) {
    forall p | p in e.runs && e.runs[p].status == WaitChild :: HasLiveChild(e, p)
  }

  predicate OneLiveChild(e: Engine) {
    forall c, d | c in e.runs && d in e.runs && Live(e.runs, c) && Live(e.runs, d)
                  && e.runs[c].parent.Some? && e.runs[d].parent.Some?
                  && e.runs[c].parent.value.0 == e.runs[d].parent.value.0 :: c == d
  }

  predicate KeysUnique(runs: RunTable) {
    forall c, d | c in runs && d in runs && runs[c].idem.Some? && runs[c].idem == runs[d].idem
                  && runs[c].workflow == runs[d].workflow :: c == d
  }

  predicate KeysNameParents(runs: RunTable) {
    forall c | c in runs ::
      && (runs[c].idem.Some? && runs[c].idem.value.InvokeKey? ==>
            runs[c].parent == Some((runs[c].idem.value.run, runs[c].idem.value.step)))
      && (runs[c].parent.Some? ==> runs[c].parent.value.0 < c)
  }

  predicate WaitsOpen(e: Engine) {
    forall r | r in e.runs && e.runs[r].status == WaitEvent ::
      e.runs[r].waitEvent.Some? && e.runs[r].waitStep.Some? && !Done(e.steps, r, e.runs[r].waitStep.value)
  }

  /** Awake runs have a job; when no ack was ever lost they have exactly one, and parked
      runs have none. */
  predicate JobsMatch(e: Engine, exact: bool) {
    forall r | r in e.runs ::
      && (Awake(e.runs[r].status) ==> e.jobs[r] >= 1)
      && (exact && Awake(e.runs[r].status) ==> e.jobs[r] == 1)
      && (exact && (e.runs[r].status == WaitEvent || e.runs[r].status == WaitChild) ==> e.jobs[r] == 0)
  }

  predicate FlightsAwake(e: Engine) {
    forall r | r in e.inflight ::
      e.jobs[r] >= 1 && (r in e.runs ==> Awake(e.runs[r].status) || e.runs[r].status == Cancelled)
  }

  ghost predicate Family(e: Engine) { ParentsParked(e) && ParkedHaveChild(e) && OneLiveChild(e) }

  predicate Keys(runs: RunTable) { KeysUnique(runs) && KeysNameParents(runs) }

  predicate Work(e: Engine, exact: bool) {
    IdsBounded(e) && WaitsOpen(e) && JobsMatch(e, exact) && FlightsAwake(e)
  }

  ghost predicate Inv(e: Engine, exact: bool) { Family(e) && Keys(e.runs) && Work(e, exact) }

  // ---- What carries over unchanged ------------------------------------------------------------------------

  predicate SameIdentity(runs: RunTable, runs': RunTable) {
    forall r | r in runs' :: r in runs && runs'[r].workflow == runs[r].workflow
                             && runs'[r].parent == runs[r].parent && runs'[r].idem == runs[r].idem
  }

  lemma KeysCarry(runs: RunTable, runs': RunTable)
    requires Keys(runs) && SameIdentity(runs, runs')
    ensures Keys(runs')
  {
    forall c, d | c in runs' && d in runs' && runs'[c].idem.Some? && runs'[c].idem == runs'[d].idem
                  && runs'[c].workflow == runs'[d].workflow
      ensures c == d
    {
      assert c in runs && d in runs;
    }
  }

  /** Nobody starts, ends, parks on or leaves a child; parked runs get no new results. */
  ghost predicate SameShape(e: Engine, e': Engine) {
    && SameIdentity(e.runs, e'.runs)
    && (forall r | Live(e.runs, r) :: r in e'.runs)
    && (forall r | r in e'.runs :: Live(e.runs, r) == Live(e'.runs, r)
                                   && (e.runs[r].status == WaitChild) == (e'.runs[r].status == WaitChild))
    && (forall p, s | p in e.runs && e.runs[p].status == WaitChild && Done(e'.steps, p, s) :: Done(e.steps, p, s))
  }

  lemma FamilyCarries(e: Engine, e': Engine)
    requires Family(e) && SameShape(e, e')
    ensures Family(e')
  {
    forall p | p in e'.runs && e'.runs[p].status == WaitChild ensures HasLiveChild(e', p) {
      assert HasLiveChild(e, p);
      var c :| ChildOf(e.runs, p, c) && Live(e.runs, c);
      assert ChildOf(e'.runs, p, c) && Live(e'.runs, c);
    }
    forall c | c in e'.runs && Live(e'.runs, c) && e'.runs[c].parent.Some?
      ensures var (p, s) := e'.runs[c].parent.value;
        p in e'.runs && e'.runs[p].status == WaitChild && !Done(e'.steps, p, s)
    {
      var (p, s) := e.runs[c].parent.value;
      assert Live(e.runs, p);
    }
  }

  lemma CarryInv(e: Engine, e': Engine, exact: bool)
    requires Inv(e, exact) && SameShape(e, e') && Work(e', exact)
    ensures Inv(e', exact)
  {
    hide Work, Keys, Family;
    FamilyCarries(e, e');
    KeysCarry(e.runs, e'.runs);
  }

  /** Work facts are local to a run: its row, its journal and its job count. */
  predicate RowWork(e: Engine, r: RunId, exact: bool)
    requires r in e.runs
  {
    var row := e.runs[r];
    && (Awake(row.status) ==> e.jobs[r] >= 1)
    && (exact && Awake(row.status) ==> e.jobs[r] == 1)
    && (exact && (row.status == WaitEvent || row.status == WaitChild) ==> e.jobs[r] == 0)
    && (row.status == WaitEvent ==> row.waitEvent.Some? && row.waitStep.Some? && !Done(e.steps, r, row.waitStep.value))
  }

  predicate Untouched(e: Engine, e': Engine, r: RunId) {
    && (r in e'.runs ==> r in e.runs && e'.runs[r] == e.runs[r])
    && JournalOf(e'.steps, r) == JournalOf(e.steps, r) && e'.jobs[r] == e.jobs[r]
  }

  lemma WorkByRow(e: Engine, e': Engine, exact: bool, changed: set<RunId>)
    requires Work(e, exact)
    requires e'.inflight <= e.inflight + changed && e'.nextId >= e.nextId
    requires e'.steps.Keys <= e.steps.Keys + changed
    requires forall r | r in changed :: r < e'.nextId
    requires forall r | r !in changed :: Untouched(e, e', r)
    requires forall r | r in changed && r in e'.runs :: RowWork(e', r, exact)
    requires forall r | r in changed && r in e'.inflight ::
      e'.jobs[r] >= 1 && (r in e'.runs ==> Awake(e'.runs[r].status) || e'.runs[r].status == Cancelled)
    ensures Work(e', exact)
  {
    forall r | r in e'.runs && r !in changed ensures RowWork(e', r, exact) {
      assert Untouched(e, e', r);
      assert r in e.runs && RowWork(e, r, exact);
    }
    forall r | r in e'.jobs ensures r < e'.nextId {
      assert r in changed || Untouched(e, e', r);
    }
    forall r | r in e'.inflight && r !in changed
      ensures e'.jobs[r] >= 1 && (r in e'.runs ==> Awake(e'.runs[r].status) || e'.runs[r].status == Cancelled)
    {
      assert Untouched(e, e', r);
    }
    forall r | r in e'.runs ensures r < e'.nextId {
      assert r in changed || Untouched(e, e', r);
    }
    hide Untouched, Done;
    assert forall r | r in e'.runs :: RowWork(e', r, exact);
  }

  /** Steps that leave the run rows alone and touch no parked run's journal. */
  lemma ShapeByRow(e: Engine, e': Engine, touched: set<RunId>)
    requires e'.runs == e.runs && forall r | r in touched && r in e.runs :: e.runs[r].status != WaitChild
    requires forall x | x !in touched :: JournalOf(e'.steps, x) == JournalOf(e.steps, x)
    ensures SameShape(e, e')
  {
    forall p, s | p in e.runs && e.runs[p].status == WaitChild && Done(e'.steps, p, s) ensures Done(e.steps, p, s) {
      assert p !in touched;
    }
    hide Done;
  }

  // ---- Steps that keep the family ---------------------------------------------------------------------------

  /** Steps on one run's job, journal or attempt. */
  lemma LocalKeepsInv(e: Engine, e': Engine, exact: bool, r: RunId)
    requires Inv(e, exact) && e'.runs == e.runs && e'.nextId == e.nextId
    requires r < e.nextId && e'.inflight <= e.inflight + {r} && e'.steps.Keys <= e.steps.Keys + {r}
    requires forall x | x != r :: JournalOf(e'.steps, x) == JournalOf(e.steps, x) && e'.jobs[x] == e.jobs[x]
    requires e'.steps == e.steps || (r in e.runs ==> e.runs[r].status != WaitChild)
    requires r in e.runs ==> RowWork(e', r, exact)
    requires r in e'.inflight ==>
      e'.jobs[r] >= 1 && (r in e.runs ==> Awake(e.runs[r].status) || e.runs[r].status == Cancelled)
    ensures Inv(e', exact)
  {
    hide Family, Keys, RowWork, SameShape;
    forall x | x != r ensures Untouched(e, e', x) {
    }
    WorkByRow(e, e', exact, {r});
    hide Work;
    ShapeByRow(e, e', if e'.steps == e.steps then {} else {r});
    CarryInv(e, e', exact);
  }

  lemma RowOf(e: Engine, exact: bool, r: RunId)
    requires Work(e, exact)
    ensures r in e.runs ==> RowWork(e, r, exact)
    ensures r in e.runs || r in e.jobs || r in e.inflight || r in e.steps ==> r < e.nextId
    ensures r in e.inflight ==>
      e.jobs[r] >= 1 && (r in e.runs ==> Awake(e.runs[r].status) || e.runs[r].status == Cancelled)
  {
  }

  lemma BeginKeepsInv(e: Engine, exact: bool, r: RunId)
    requires Inv(e, exact) && r in e.jobs && r !in e.inflight
    ensures Inv(Begin(e, r), exact)
  {
    hide Family, Keys, Work;
    RowOf(e, exact, r);
    LocalKeepsInv(e, Begin(e, r), exact, r);
  }

  lemma CrashKeepsInv(e: Engine, exact: bool, r: RunId)
    requires Inv(e, exact) && r in e.inflight
    ensures Inv(e.(inflight := e.inflight - {r}), exact)
  {
    hide Family, Keys, Work;
    RowOf(e, exact, r);
    LocalKeepsInv(e, e.(inflight := e.inflight - {r}), exact, r);
  }

  lemma JournalKeepsInv(e: Engine, exact: bool, r: RunId, j: Journal)
    requires Inv(e, exact) && r in e.inflight
    ensures Inv(e.(steps := e.steps[r := j]), exact)
  {
    hide Family, Keys, Work;
    RowOf(e, exact, r);
    LocalKeepsInv(e, e.(steps := e.steps[r := j]), exact, r);
  }

  lemma DiscardKeepsInv(e: Engine, exact: bool, r: RunId, acked: bool)
    requires Inv(e, exact) && r in e.inflight && (r in e.runs ==> e.runs[r].status == Cancelled)
    ensures Inv(CloseAttempt(e, r, acked), exact)
  {
    hide Family, Keys, Work;
    RowOf(e, exact, r);
    LocalKeepsInv(e, CloseAttempt(e, r, acked), exact, r);
  }

  lemma CollectKeepsInv(e: Engine, exact: bool, ids: set<RunId>)
    requires Inv(e, exact) && forall r | r in ids :: r in e.runs && Terminal(e.runs[r].status)
    ensures Inv(Collect(e, ids), exact)
  {
    var e' := Collect(e, ids);
    assert Work(e', exact) by {
      hide Family, Keys;
      forall r | r in ids ensures r < e.nextId {
        RowOf(e, exact, r);
      }
      forall r | r in e.inflight && r in ids ensures e.jobs[r] >= 1 {
        RowOf(e, exact, r);
      }
      forall r | r !in ids ensures Untouched(e, e', r) {
      }
      hide Untouched;
      WorkByRow(e, e', exact, ids);
    }
    CollectShape(e, ids);
    hide Family, Keys, Work, SameShape;
    CarryInv(e, e', exact);
  }

  lemma CollectShape(e: Engine, ids: set<RunId>)
    requires forall r | r in ids :: r in e.runs && Terminal(e.runs[r].status)
    ensures SameShape(e, Collect(e, ids))
  {
  }

  /** A wake, row by row. */
  ghost predicate Woken(e: Engine, e': Engine, ids: set<RunId>, clearStep: bool) {
    && e'.nextId == e.nextId && e'.inflight == e.inflight && e'.runs.Keys == e.runs.Keys
    && ids <= e.runs.Keys && e'.steps.Keys == e.steps.Keys + ids
    && (forall r | r in e.runs && r !in ids :: e'.runs[r] == e.runs[r])
    && (forall r | r in ids :: e'.runs[r] == WokenRun(e.runs[r], clearStep))
    && (forall r | r in e.steps && r !in ids :: e'.steps[r] == e.steps[r])
    && e'.jobs == e.jobs + multiset(ids)
  }

  lemma WakeEffect(e: Engine, ids: set<RunId>, result: Tokens, clearStep: bool)
    requires ids <= e.runs.Keys
    ensures Woken(e, Wake(e, ids, result, clearStep), ids, clearStep)
  {
  }

  lemma WokenRows(e: Engine, e': Engine, exact: bool, ids: set<RunId>, clearStep: bool)
    requires Work(e, exact) && Woken(e, e', ids, clearStep)
    requires forall r | r in ids :: e.runs[r].status == WaitEvent
    ensures forall r | r in ids :: r < e.nextId && r !in e'.inflight && RowWork(e', r, exact)
    ensures forall r | r !in ids :: Untouched(e, e', r)
  {
    forall r | r in ids ensures r < e.nextId && r !in e'.inflight && RowWork(e', r, exact) {
      RowOf(e, exact, r);
    }
    hide Work;
    forall r | r !in ids ensures Untouched(e, e', r) {
    }
  }

  lemma WakeWork(e: Engine, e': Engine, exact: bool, ids: set<RunId>, clearStep: bool)
    requires Work(e, exact) && Woken(e, e', ids, clearStep)
    requires forall r | r in ids :: e.runs[r].status == WaitEvent
    ensures Work(e', exact)
  {
    WokenRows(e, e', exact, ids, clearStep);
    hide Work, RowWork, Untouched;
    WorkByRow(e, e', exact, ids);
  }

  lemma WakeShape(e: Engine, e': Engine, ids: set<RunId>, clearStep: bool)
    requires Woken(e, e', ids, clearStep)
    requires forall r | r in ids :: e.runs[r].status == WaitEvent
    ensures SameShape(e, e')
  {
    forall p, s | p in e.runs && e.runs[p].status == WaitChild && Done(e'.steps, p, s) ensures Done(e.steps, p, s) {
      assert p !in ids;
    }
    hide Done, Woken;
    assert SameIdentity(e.runs, e'.runs);
  }

  lemma WakeKeepsInv(e: Engine, exact: bool, ids: set<RunId>, result: Tokens, clearStep: bool)
    requires Inv(e, exact) && forall r | r in ids :: r in e.runs && e.runs[r].status == WaitEvent
    ensures Inv(Wake(e, ids, result, clearStep), exact)
  {
    hide Family, Keys, Work, Wake, Woken, SameShape;
    var e' := Wake(e, ids, result, clearStep);
    WakeEffect(e, ids, result, clearStep);
    WakeWork(e, e', exact, ids, clearStep);
    WakeShape(e, e', ids, clearStep);
    CarryInv(e, e', exact);
  }

  // ---- Steps that change the family -------------------------------------------------------------------------

  lemma SpawnFamily(e: Engine, workflow: string, idem: Option<IdemKey>)
    requires Family(e) && e.nextId !in e.runs
    ensures Family(Spawn(e, workflow, None, idem))
  {
    var e' := Spawn(e, workflow, None, idem);
    forall p | p in e'.runs && e'.runs[p].status == WaitChild ensures HasLiveChild(e', p) {
      assert HasLiveChild(e, p);
      var c :| ChildOf(e.runs, p, c) && Live(e.runs, c);
      assert ChildOf(e'.runs, p, c) && Live(e'.runs, c);
    }
  }

  lemma SpawnWork(e: Engine, exact: bool, workflow: string, idem: Option<IdemKey>)
    requires Work(e, exact)
    ensures Work(Spawn(e, workflow, None, idem), exact)
  {
    var e', c := Spawn(e, workflow, None, idem), e.nextId;
    RowOf(e, exact, c);
    forall x | x != c ensures Untouched(e, e', x) {
    }
    assert RowWork(e', c, exact);
    hide Untouched, RowWork;
    WorkByRow(e, e', exact, {c});
  }

  lemma SpawnKeys(e: Engine, workflow: string, idem: Option<IdemKey>)
    requires Keys(e.runs) && e.nextId !in e.runs
    requires idem.Some? ==> idem.value.UserKey? && !KeyTaken(e.runs, workflow, idem.value)
    ensures Keys(Spawn(e, workflow, None, idem).runs)
  {
  }

  lemma SpawnKeepsInv(e: Engine, exact: bool, workflow: string, idem: Option<IdemKey>)
    requires Inv(e, exact)
    requires idem.Some? ==> idem.value.UserKey? && !KeyTaken(e.runs, workflow, idem.value)
    ensures Inv(Spawn(e, workflow, None, idem), exact)
  {
    hide Family, Keys, Work, Spawn;
    RowOf(e, exact, e.nextId);
    SpawnFamily(e, workflow, idem);
    SpawnWork(e, exact, workflow, idem);
    SpawnKeys(e, workflow, idem);
  }

  lemma {:induction false} SpawnAllKeepsInv(e: Engine, exact: bool, targets: seq<string>)
    requires Inv(e, exact)
    ensures Inv(SpawnAll(e, targets), exact)
  {
    hide Inv, Spawn;
    if targets != [] {
      SpawnAllKeepsInv(e, exact, targets[..|targets| - 1]);
      SpawnKeepsInv(SpawnAll(e, targets[..|targets| - 1]), exact, targets[|targets| - 1], None);
    }
  }

  /** What a cancel does to the rows: the cancelled ones become terminal, the others stay. */
  lemma CancelEffect(e: Engine, root: RunId)
    ensures var e', gone := Cancel(e, root), CancelSet(e.runs, root);
      && e'.runs.Keys == e.runs.Keys && e'.steps == e.steps
      && (forall x | x in gone :: x in e.runs && e'.runs[x] == CancelRun(e.runs[x]))
      && (forall x | x in e.runs && x !in gone :: e'.runs[x] == e.runs[x])
  {
  }

  lemma CancelParents(e: Engine, root: RunId)
    requires Family(e)
    ensures ParentsParked(Cancel(e, root)) && OneLiveChild(Cancel(e, root))
  {
    var e', gone := Cancel(e, root), CancelSet(e.runs, root);
    CancelEffect(e, root);
    forall c | c in e'.runs && Live(e'.runs, c) && e'.runs[c].parent.Some?
      ensures Live(e.runs, c) && e'.runs[c] == e.runs[c]
      ensures e.runs[c].parent.value.0 !in gone
    {
      var p := e.runs[c].parent.value.0;
      assert c !in gone && Live(e.runs, c);
      if Reaches(e.runs, root, p) {
        ReachesChild(e.runs, root, p, c);
      }
    }
    hide Cancel, CancelSet, Done;
  }

  lemma CancelChildren(e: Engine, root: RunId)
    requires Family(e) && SafeToCancel(e, root)
    ensures ParkedHaveChild(Cancel(e, root))
  {
    var e', gone := Cancel(e, root), CancelSet(e.runs, root);
    CancelEffect(e, root);
    forall p | p in e'.runs && e'.runs[p].status == WaitChild ensures HasLiveChild(e', p) {
      assert p !in gone && HasLiveChild(e, p);
      var c :| ChildOf(e.runs, p, c) && Live(e.runs, c);
      if Reaches(e.runs, root, c) {
        ReachedThroughParent(e.runs, root, c);
      }
      assert ChildOf(e'.runs, p, c) && Live(e'.runs, c);
    }
  }

  lemma CancelFamily(e: Engine, root: RunId)
    requires Family(e) && SafeToCancel(e, root)
    ensures Family(Cancel(e, root))
  {
    hide ParentsParked, OneLiveChild, ParkedHaveChild, Cancel;
    CancelParents(e, root);
    CancelChildren(e, root);
  }

  lemma CancelWork(e: Engine, exact: bool, ids: set<RunId>)
    requires Work(e, exact)
    ensures Work(e.(runs := CancelRows(e.runs, ids)), exact)
    ensures SameIdentity(e.runs, CancelRows(e.runs, ids))
  {
  }

  /** Everything a cancel reaches has an id no smaller than the root's. */
  lemma {:induction false} ReachedIdsGrow(t: RunTable, root: RunId, path: seq<RunId>)
    requires Keys(t) && LiveChain(t, path) && path[0] == root
    ensures root <= path[|path| - 1]
    decreases |path|
  {
    if |path| > 1 {
      assert LiveChain(t, path[..|path| - 1]);
      ReachedIdsGrow(t, root, path[..|path| - 1]);
      assert ChildOf(t, path[|path| - 2], path[|path| - 1]);
    }
  }

  /** Cancelling a live child leaves its parent parked on nobody. */
  lemma CancelledChildStrands(e: Engine, root: RunId)
    requires Family(e) && Keys(e.runs) && Live(e.runs, root) && e.runs[root].parent.Some?
    ensures var p := e.runs[root].parent.value.0; var e' := Cancel(e, root);
      p in e'.runs && e'.runs[p].status == WaitChild && !HasLiveChild(e', p)
  {
    var p, e' := e.runs[root].parent.value.0, Cancel(e, root);
    CancelEffect(e, root);
    RootReached(e.runs, root);
    if Reaches(e.runs, root, p) {
      var path :| LiveChain(e.runs, path) && path[0] == root && path[|path| - 1] == p;
      ReachedIdsGrow(e.runs, root, path);
    }
    forall c | ChildOf(e'.runs, p, c) ensures !Live(e'.runs, c) {
      assert Live(e.runs, c) ==> c == root;
    }
  }

  /** A cancel keeps the invariant exactly when it does not stop a live child on its own. */
  lemma CancelKeepsInv(e: Engine, exact: bool, root: RunId)
    requires Inv(e, exact)
    ensures Inv(Cancel(e, root), exact) <==> SafeToCancel(e, root)
  {
    hide Keys, Work, SameIdentity, ParentsParked, OneLiveChild;
    if SafeToCancel(e, root) {
      CancelFamily(e, root);
      CancelWork(e, exact, CancelSet(e.runs, root));
      KeysCarry(e.runs, Cancel(e, root).runs);
    } else {
      CancelledChildStrands(e, root);
    }
  }

  /** The run `r` ends; only its own row and its parents' rows and journals change. */
  ghost predicate OnlyEnds(e: Engine, e': Engine, r: RunId) {
    && r in e.runs && Awake(e.runs[r].status)
    && SameIdentity(e.runs, e'.runs) && e'.runs.Keys == e.runs.Keys && !Live(e'.runs, r)
    && (forall x | x in e.runs && x != r && !ChildOf(e.runs, x, r) :: e'.runs[x] == e.runs[x])
    && (forall p | p in e.runs && ChildOf(e.runs, p, r) :: e'.runs[p].status == Runnable)
    && (forall x, s | !ChildOf(e.runs, x, r) && Done(e'.steps, x, s) :: Done(e.steps, x, s))
  }

  /** The children still live afterwards were live before, with another parent than `r`. */
  lemma LiveAfterEnd(e: Engine, e': Engine, r: RunId, c: RunId)
    requires Family(e) && OnlyEnds(e, e', r)
    requires c in e'.runs && Live(e'.runs, c) && e'.runs[c].parent.Some?
    ensures Live(e.runs, c)
    ensures var (p, s) := e.runs[c].parent.value;
      p in e'.runs && e'.runs[p].status == WaitChild && !Done(e'.steps, p, s)
  {
    var (p, s) := e.runs[c].parent.value;
    assert c != r && Live(e.runs, c);
    assert Live(e.runs, r);
    assert e.runs[p].status == WaitChild && p != r;
    assert !ChildOf(e.runs, p, r);
  }

  lemma EndParents(e: Engine, e': Engine, r: RunId)
    requires Family(e) && OnlyEnds(e, e', r)
    ensures ParentsParked(e') && OneLiveChild(e')
  {
    forall c | c in e'.runs && Live(e'.runs, c) && e'.runs[c].parent.Some?
      ensures Live(e.runs, c) && e.runs[c].parent == e'.runs[c].parent
      ensures var (p, s) := e'.runs[c].parent.value;
        p in e'.runs && e'.runs[p].status == WaitChild && !Done(e'.steps, p, s)
    {
      LiveAfterEnd(e, e', r, c);
    }
    hide Done, OnlyEnds;
  }

  lemma EndChildren(e: Engine, e': Engine, r: RunId)
    requires Family(e) && OnlyEnds(e, e', r)
    ensures ParkedHaveChild(e')
  {
    forall p | p in e'.runs && e'.runs[p].status == WaitChild ensures HasLiveChild(e', p) {
      assert p != r && !ChildOf(e.runs, p, r);
      assert e'.runs[p] == e.runs[p] && HasLiveChild(e, p);
      var c :| ChildOf(e.runs, p, c) && Live(e.runs, c);
      assert c != r;
      assert ChildOf(e'.runs, p, c) && Live(e'.runs, c);
    }
  }

  /** An awake run that ends leaves no orphan: its parent, if any, was parked on it alone. */
  lemma EndFamily(e: Engine, e': Engine, r: RunId)
    requires Family(e) && OnlyEnds(e, e', r)
    ensures Family(e')
  {
    EndParents(e, e', r);
    EndChildren(e, e', r);
    hide ParentsParked, OneLiveChild, ParkedHaveChild, OnlyEnds;
  }

  // ---- The end of an attempt ---------------------------------------------------------------------------------

  predicate SameIds(r: Run, r': Run) { r'.workflow == r.workflow && r'.parent == r.parent && r'.idem == r.idem }

  /** The attempt's run is live and about to be let go. */
  ghost predicate Ending(e: Engine, exact: bool, r: RunId, acked: bool) {
    && Inv(e, exact) && r in e.inflight && r in e.runs && Awake(e.runs[r].status)
    && e.jobs[r] >= 1 && (exact ==> acked)
  }

  lemma EndAloneWork(e: Engine, exact: bool, r: RunId, row: Run, acked: bool)
    requires Ending(e, exact, r, acked) && Terminal(row.status)
    ensures Work(CloseAttempt(SetRun(e, r, row), r, acked), exact)
  {
    var e' := CloseAttempt(SetRun(e, r, row), r, acked);
    hide Family, Keys;
    RowOf(e, exact, r);
    hide Work;
    assert forall x | x != r :: Untouched(e, e', x);
    assert RowWork(e', r, exact);
    hide Untouched, RowWork;
    WorkByRow(e, e', exact, {r});
  }

  lemma EndAlone(e: Engine, exact: bool, r: RunId, row: Run, acked: bool)
    requires Ending(e, exact, r, acked) && SameIds(e.runs[r], row) && Terminal(row.status) && row.parent.None?
    ensures Inv(CloseAttempt(SetRun(e, r, row), r, acked), exact)
  {
    var e' := CloseAttempt(SetRun(e, r, row), r, acked);
    hide Family, Keys, Work, Done;
    EndAloneWork(e, exact, r, row, acked);
    assert forall x :: !ChildOf(e.runs, x, r);
    assert OnlyEnds(e, e', r);
    hide OnlyEnds;
    EndFamily(e, e', r);
    KeysCarry(e.runs, e'.runs);
  }

  /** The state after a child `r` of the parked run `p` ends. */
  function AfterChild(e: Engine, r: RunId, row: Run, p: RunId, s: StepId, result: Tokens, acked: bool): Engine
    requires p in e.runs
  {
    e.(runs := e.runs[r := row][p := e.runs[p].(status := Runnable)],
       steps := RecordIn(e.steps, p, s, "invoke", Some(result)),
       jobs := if acked then e.jobs + multiset{p} - multiset{r} else e.jobs + multiset{p},
       inflight := e.inflight - {r})
  }

  lemma EndChildRows(e: Engine, e': Engine, exact: bool, r: RunId, row: Run, p: RunId, s: StepId, result: Tokens,
                     acked: bool)
    requires r in e.runs && p in e.runs && p != r && Terminal(row.status) && (exact ==> acked)
    requires e' == AfterChild(e, r, row, p, s, result, acked)
    requires exact ==> e.jobs[p] == 0
    ensures RowWork(e', r, exact) && RowWork(e', p, exact)
    ensures forall x | x != r && x != p :: Untouched(e, e', x)
  {
  }

  lemma EndChildWork(e: Engine, exact: bool, r: RunId, row: Run, p: RunId, s: StepId, result: Tokens, acked: bool)
    requires Ending(e, exact, r, acked) && Terminal(row.status)
    requires p in e.runs && p != r && e.runs[p].status == WaitChild
    ensures Work(AfterChild(e, r, row, p, s, result, acked), exact)
  {
    var e' := AfterChild(e, r, row, p, s, result, acked);
    hide Family, Keys;
    RowOf(e, exact, r);
    RowOf(e, exact, p);
    EndChildRows(e, e', exact, r, row, p, s, result, acked);
    hide Untouched, RowWork, Work;
    WorkByRow(e, e', exact, {r, p});
  }

  lemma EndChildFamily(e: Engine, r: RunId, row: Run, p: RunId, s: StepId, result: Tokens, acked: bool)
    requires Family(e) && Keys(e.runs) && r in e.runs && Awake(e.runs[r].status)
    requires SameIds(e.runs[r], row) && Terminal(row.status)
    requires p in e.runs && p != r && row.parent == Some((p, s))
    ensures Family(AfterChild(e, r, row, p, s, result, acked)) && Keys(AfterChild(e, r, row, p, s, result, acked).runs)
  {
    hide Family, Keys;
    var e' := AfterChild(e, r, row, p, s, result, acked);
    assert forall x :: ChildOf(e.runs, x, r) <==> x == p;
    assert forall x, t | x != p && Done(e'.steps, x, t) :: Done(e.steps, x, t);
    hide Done;
    assert OnlyEnds(e, e', r);
    hide OnlyEnds;
    EndFamily(e, e', r);
    KeysCarry(e.runs, e'.runs);
  }

  lemma EndKeepsInv(e: Engine, exact: bool, r: RunId, row: Run, result: Tokens, acked: bool)
    requires Ending(e, exact, r, acked) && SameIds(e.runs[r], row) && Terminal(row.status)
    ensures Inv(CloseAttempt(SettleParent(SetRun(e, r, row), r, result), r, acked), exact)
  {
    if row.parent.None? {
      EndAlone(e, exact, r, row, acked);
    } else {
      var (p, s) := row.parent.value;
      assert Live(e.runs, r) && e.runs[p].status == WaitChild && p != r;
      assert CloseAttempt(SettleParent(SetRun(e, r, row), r, result), r, acked)
        == AfterChild(e, r, row, p, s, result, acked);
      EndChildWork(e, exact, r, row, p, s, result, acked);
      EndChildFamily(e, r, row, p, s, result, acked);
    }
  }

  /** The state after a run that goes on: retried at once or later, or parked on an event. */
  function AfterStay(e: Engine, r: RunId, row: Run, j: Journal, again: bool, acked: bool): Engine {
    CloseAttempt(e.(runs := e.runs[r := row], steps := e.steps[r := j],
                    jobs := if again then e.jobs + multiset{r} else e.jobs), r, acked)
  }

  predicate MayStay(row: Run, j: Journal, again: bool) {
    if again then Awake(row.status)
    else row.status == WaitEvent && row.waitEvent.Some? && row.waitStep.Some? &&
         !(row.waitStep.value in j && j[row.waitStep.value].done)
  }

  lemma StayWork(e: Engine, exact: bool, r: RunId, row: Run, j: Journal, again: bool, acked: bool)
    requires Ending(e, exact, r, acked) && SameIds(e.runs[r], row) && MayStay(row, j, again)
    ensures Work(AfterStay(e, r, row, j, again, acked), exact)
  {
    var e' := AfterStay(e, r, row, j, again, acked);
    hide Family, Keys;
    RowOf(e, exact, r);
    hide Work;
    assert forall x | x != r :: Untouched(e, e', x);
    assert RowWork(e', r, exact);
    hide Untouched, RowWork;
    WorkByRow(e, e', exact, {r});
  }

  lemma StayShape(e: Engine, r: RunId, row: Run, j: Journal, again: bool, acked: bool)
    requires r in e.runs && Awake(e.runs[r].status) && SameIds(e.runs[r], row) && MayStay(row, j, again)
    ensures SameShape(e, AfterStay(e, r, row, j, again, acked))
  {
    var e' := AfterStay(e, r, row, j, again, acked);
    assert forall p, s | p != r && Done(e'.steps, p, s) :: Done(e.steps, p, s);
    hide Done;
  }

  lemma StayKeepsInv(e: Engine, exact: bool, r: RunId, row: Run, j: Journal, again: bool, acked: bool)
    requires Ending(e, exact, r, acked) && SameIds(e.runs[r], row) && MayStay(row, j, again)
    ensures Inv(AfterStay(e, r, row, j, again, acked), exact)
  {
    StayWork(e, exact, r, row, j, again, acked);
    StayShape(e, r, row, j, again, acked);
    hide Work, Family, Keys, SameShape, AfterStay;
    CarryInv(e, AfterStay(e, r, row, j, again, acked), exact);
  }

  // ---- Child workflows -------------------------------------------------------------------------------------------

  /** The state after a run parks on a freshly created child. */
  function AfterInvoke(e: Engine, r: RunId, step: StepId, workflow: string, acked: bool): Engine
    requires r in e.runs
  {
    CloseAttempt(Spawn(SetRun(e, r, e.runs[r].(status := WaitChild)), workflow,
                       Some((r, step)), Some(InvokeKey(r, step))), r, acked)
  }

  lemma InvokeWork(e: Engine, exact: bool, r: RunId, step: StepId, workflow: string, acked: bool)
    requires Ending(e, exact, r, acked)
    ensures Work(AfterInvoke(e, r, step, workflow, acked), exact)
  {
    var e', c := AfterInvoke(e, r, step, workflow, acked), e.nextId;
    assert c !in e.runs && c !in e.jobs && c !in e.inflight && r < c;
    assert e'.jobs[c] == 1;
    assert forall x | x !in {r, c} :: Untouched(e, e', x);
    hide Family, Keys, Untouched;
    WorkByRow(e, e', exact, {r, c});
  }

  lemma InvokeParents(e: Engine, e': Engine, r: RunId, child: RunId, step: StepId)
    requires Family(e) && r in e.runs && Awake(e.runs[r].status) && child !in e.runs && !Done(e.steps, r, step)
    requires e'.steps == e.steps && e'.runs.Keys == e.runs.Keys + {child}
    requires forall x | x in e.runs && x != r :: e'.runs[x] == e.runs[x]
    requires e'.runs[r] == e.runs[r].(status := WaitChild)
    requires Live(e'.runs, child) && e'.runs[child].parent == Some((r, step)) && e'.runs[child].status != WaitChild
    ensures ParentsParked(e') && OneLiveChild(e')
  {
    forall c | c in e.runs && Live(e'.runs, c) && e.runs[c].parent.Some?
      ensures Live(e.runs, c) && e.runs[c].parent.value.0 != r
    {
      assert Live(e.runs, c);
    }
    hide Done;
  }

  lemma InvokeFamily(e: Engine, e': Engine, r: RunId, child: RunId, step: StepId)
    requires Family(e) && r in e.runs && Awake(e.runs[r].status) && child !in e.runs && !Done(e.steps, r, step)
    requires e'.steps == e.steps && e'.runs.Keys == e.runs.Keys + {child}
    requires forall x | x in e.runs && x != r :: e'.runs[x] == e.runs[x]
    requires e'.runs[r] == e.runs[r].(status := WaitChild)
    requires Live(e'.runs, child) && e'.runs[child].parent == Some((r, step)) && e'.runs[child].status != WaitChild
    ensures Family(e')
  {
    InvokeParents(e, e', r, child, step);
    forall p | p in e'.runs && e'.runs[p].status == WaitChild ensures HasLiveChild(e', p) {
      if p == r {
        assert ChildOf(e'.runs, p, child);
      } else {
        assert p in e.runs && HasLiveChild(e, p);
        var c :| ChildOf(e.runs, p, c) && Live(e.runs, c);
        assert ChildOf(e'.runs, p, c) && Live(e'.runs, c);
      }
    }
    hide ParentsParked, OneLiveChild;
  }

  lemma InvokedFamily(e: Engine, exact: bool, r: RunId, step: StepId, workflow: string, acked: bool)
    requires Ending(e, exact, r, acked) && !Done(e.steps, r, step)
    ensures Family(AfterInvoke(e, r, step, workflow, acked))
  {
    assert e.nextId !in e.runs;
    hide Family, Work, Keys, Done;
    InvokeFamily(e, AfterInvoke(e, r, step, workflow, acked), r, e.nextId, step);
  }

  lemma AddKey(runs: RunTable, runs': RunTable, id: RunId, r: RunId, step: StepId)
    requires Keys(runs) && id !in runs && id in runs' && r < id
    requires SameIdentity(runs, runs' - {id})
    requires runs'[id].idem == Some(InvokeKey(r, step)) && runs'[id].parent == Some((r, step))
    requires !KeyTaken(runs, runs'[id].workflow, InvokeKey(r, step))
    ensures Keys(runs')
  {
    KeysCarry(runs, runs' - {id});
    forall c | c in runs' && c != id
      ensures !(runs'[c].idem == runs'[id].idem && runs'[c].workflow == runs'[id].workflow)
    {
      assert c in runs' - {id};
      assert c in runs;
    }
    forall c | c in runs' && c != id ensures c in runs' - {id} && (runs' - {id})[c] == runs'[c] {
    }
    hide KeyTaken, SameIdentity;
  }

  lemma InvokeKeys(e: Engine, exact: bool, r: RunId, step: StepId, workflow: string, acked: bool)
    requires Ending(e, exact, r, acked) && !KeyTaken(e.runs, workflow, InvokeKey(r, step))
    ensures Keys(AfterInvoke(e, r, step, workflow, acked).runs)
  {
    hide Work, Family, Keys, KeyTaken;
    RowOf(e, exact, r);
    RowOf(e, exact, e.nextId);
    AddKey(e.runs, AfterInvoke(e, r, step, workflow, acked).runs, e.nextId, r, step);
  }

  /** A replayed suspension can only find a finished child: a live one would have its parent parked. */
  lemma ReuseKeepsInv(e: Engine, exact: bool, r: RunId, step: StepId, child: RunId, acked: bool)
    requires Ending(e, exact, r, acked) && child in e.runs && e.runs[child].idem == Some(InvokeKey(r, step))
    ensures Terminal(e.runs[child].status)
    ensures Inv(CloseAttempt(ReuseChild(e, r, step, child), r, acked), exact)
  {
    assert e.runs[child].parent == Some((r, step));
    assert Terminal(e.runs[child].status);
    var c := e.runs[child];
    var result := if c.status == Completed then OutputResult(if c.output.Some? then c.output.value else NullText)
                  else ErrorResult(if c.error.Some? then c.error.value else "child run failed");
    var j := Record(JournalOf(e.steps, r), step, "invoke", Some(result));
    assert e.runs[r := e.runs[r]] == e.runs;
    assert CloseAttempt(ReuseChild(e, r, step, child), r, acked) == AfterStay(e, r, e.runs[r], j, true, acked);
    hide Work, Family, Keys, AfterStay, ReuseChild, CloseAttempt;
    StayKeepsInv(e, exact, r, e.runs[r], j, true, acked);
  }

  lemma InvokeKeepsInv(cfg: Configs, e: Engine, exact: bool, r: RunId, step: StepId, workflow: string, acked: bool)
    requires Ending(e, exact, r, acked) && !Done(e.steps, r, step)
    ensures Inv(CloseAttempt(InvokeChild(cfg, e, r, step, workflow), r, acked), exact)
  {
    hide Work, Family, Keys, CloseAttempt, SettleParent, Spawn, SetRun;
    if workflow !in cfg {
      var error := "step '" + step + "': unknown workflow '" + workflow + "'";
      EndKeepsInv(e, exact, r, Finished(e.runs[r], Failed).(error := Some(error)), ErrorResult(error), acked);
    } else if KeyTaken(e.runs, workflow, InvokeKey(r, step)) {
      ReuseKeepsInv(e, exact, r, step, RunOfKey(e.runs, workflow, InvokeKey(r, step)), acked);
    } else {
      InvokeWork(e, exact, r, step, workflow, acked);
      InvokedFamily(e, exact, r, step, workflow, acked);
      InvokeKeys(e, exact, r, step, workflow, acked);
    }
  }

  // ---- Every step --------------------------------------------------------------------------------------------------

  lemma ApplyKeepsInv(cfg: Configs, e: Engine, exact: bool, r: RunId, o: Outcome, acked: bool)
    requires Ending(e, exact, r, acked) && Suspends(e, r, o)
    ensures Inv(CloseAttempt(Apply(cfg, e, r, o), r, acked), exact)
  {
    var row, j := e.runs[r], JournalOf(e.steps, r);
    match o
    case Completes(output) =>
      EndKeepsInv(e, exact, r, Finished(row, Completed).(output := Some(output)), OutputResult(output), acked);
    case Fails(error) =>
      EndKeepsInv(e, exact, r, Finished(row, Failed).(error := Some(error)), ErrorResult(error), acked);
    case Sleeps(step, wakeAt) =>
      StayKeepsInv(e, exact, r, row.(status := Sleeping, wakeAt := Some(wakeAt)),
                   Record(j, step, "sleep", None), true, acked);
    case Waits(step, event, timeoutAt, m) =>
      ParkKeepsInv(e, exact, r, row.(status := WaitEvent, waitEvent := Some(event), waitStep := Some(step),
                                     wakeAt := timeoutAt, waitMatch := m), acked);
    case Invokes(step, workflow) =>
      InvokeKeepsInv(cfg, e, exact, r, step, workflow, acked);
    case FailsStep(step, error) =>
      RetryKeepsInv(cfg, e, exact, r, step, error, acked);
  }

  lemma ParkWork(e: Engine, exact: bool, r: RunId, row: Run, acked: bool)
    requires Ending(e, exact, r, acked)
    requires row.status == WaitEvent && row.waitEvent.Some? && row.waitStep.Some?
      && !Done(e.steps, r, row.waitStep.value)
    ensures Work(CloseAttempt(SetRun(e, r, row), r, acked), exact)
  {
    var e' := CloseAttempt(SetRun(e, r, row), r, acked);
    assert forall x | x != r :: Untouched(e, e', x);
    assert RowWork(e', r, exact);
    assert r < e.nextId;
    hide Family, Keys, Untouched;
    WorkByRow(e, e', exact, {r});
  }

  lemma ParkShape(e: Engine, r: RunId, row: Run, acked: bool)
    requires r in e.runs && Awake(e.runs[r].status) && SameIds(e.runs[r], row) && row.status == WaitEvent
    ensures SameShape(e, CloseAttempt(SetRun(e, r, row), r, acked))
  {
    hide Done;
  }

  lemma ParkKeepsInv(e: Engine, exact: bool, r: RunId, row: Run, acked: bool)
    requires Ending(e, exact, r, acked) && SameIds(e.runs[r], row)
    requires row.status == WaitEvent && row.waitEvent.Some? && row.waitStep.Some?
      && !Done(e.steps, r, row.waitStep.value)
    ensures Inv(CloseAttempt(SetRun(e, r, row), r, acked), exact)
  {
    ParkWork(e, exact, r, row, acked);
    ParkShape(e, r, row, acked);
    hide Work, Family, Keys, Done, SameShape, CloseAttempt;
    CarryInv(e, CloseAttempt(SetRun(e, r, row), r, acked), exact);
  }

  lemma RetryKeepsInv(cfg: Configs, e: Engine, exact: bool, r: RunId, step: StepId, error: string, acked: bool)
    requires Ending(e, exact, r, acked)
    ensures Inv(CloseAttempt(RetryStep(cfg, e, r, step, error), r, acked), exact)
  {
    var j := CountFailure(JournalOf(e.steps, r), step);
    if j[step].attempts < StepLimit(cfg, e.runs[r].workflow) {
      assert e.runs[r := e.runs[r]] == e.runs;
      StayKeepsInv(e, exact, r, e.runs[r], j, true, acked);
    } else {
      var e1 := e.(steps := e.steps[r := j]);
      JournalKeepsInv(e, exact, r, j);
      EndKeepsInv(e1, exact, r, Finished(e.runs[r], Failed).(error := Some(error)), ErrorResult(error), acked);
    }
  }

  lemma FinishKeepsInv(cfg: Configs, e: Engine, exact: bool, r: RunId, o: Outcome, acked: bool)
    requires Inv(e, exact) && r in e.inflight && Suspends(e, r, o) && (exact ==> acked)
    ensures Inv(Finish(cfg, e, r, o, acked), exact)
  {
    if r in e.runs && e.runs[r].status != Cancelled {
      assert Ending(e, exact, r, acked);
      hide Work, Family, Keys, Apply, CloseAttempt, Suspends;
      ApplyKeepsInv(cfg, e, exact, r, o, acked);
    } else {
      DiscardKeepsInv(e, exact, r, acked);
    }
  }

  /** Every legal step keeps the invariant. */
  lemma StepKeepsInv(cfg: Configs, e: Engine, exact: bool, op: Op)
    requires Inv(e, exact) && Legal(e, op) && (exact && op.DoFinish? ==> op.acked)
    ensures Inv(Next(cfg, e, op), exact)
  {
    hide Inv, Finish, Apply, Wake, Spawn, SpawnAll, CancelSet, CancelRows, Collect, Begin;
    match op
    case DoTrigger(workflow, key) =>
      if !(key.Some? && KeyTaken(e.runs, workflow, UserKey(key.value))) {
        SpawnKeepsInv(e, exact, workflow, if key.Some? then Some(UserKey(key.value)) else None);
      }
    case DoBegin(r) => BeginKeepsInv(e, exact, r);
    case DoRecord(r, step, result) =>
      JournalKeepsInv(e, exact, r, Record(JournalOf(e.steps, r), step, "run", result));
    case DoFinish(r, o, acked) => FinishKeepsInv(cfg, e, exact, r, o, acked);
    case DoCrash(r) => CrashKeepsInv(e, exact, r);
    case DoEmit(event, payload, fields, targets) =>
      WakeKeepsInv(e, exact, Waiters(e, event, fields), EventResult(payload), true);
      SpawnAllKeepsInv(Wake(e, Waiters(e, event, fields), EventResult(payload), true), exact, targets);
    case DoSweep(now) => WakeKeepsInv(e, exact, TimedOut(e, now), TimedOutResult, false);
    case DoCancel(root) => CancelKeepsInv(e, exact, root);
    case DoCollect(ids) => CollectKeepsInv(e, exact, ids);
  }

  lemma ValidPrefix(cfg: Configs, ops: seq<Op>, n: nat)
    requires ValidRun(cfg, ops) && n <= |ops|
    ensures ValidRun(cfg, ops[..n])
  {
    forall i | 0 <= i < n ensures Legal(Exec(cfg, ops[..n][..i]), ops[..n][i]) {
      assert ops[..n][..i] == ops[..i];
    }
  }

  lemma StepOfRun(cfg: Configs, ops: seq<Op>, i: nat)
    requires ValidRun(cfg, ops) && i < |ops|
    ensures Legal(Exec(cfg, ops[..i]), ops[i])
    ensures Exec(cfg, ops[..i + 1]) == Next(cfg, Exec(cfg, ops[..i]), ops[i])
  {
    assert ops[..i + 1][..i] == ops[..i];
    hide Next, Legal;
  }

  lemma EmptyInv(cfg: Configs, ops: seq<Op>, exact: bool)
    ensures Inv(Exec(cfg, ops[..0]), exact)
  {
  }

  lemma {:induction false} RunKeepsInv(cfg: Configs, ops: seq<Op>, n: nat, exact: bool)
    requires ValidRun(cfg, ops) && n <= |ops| && (exact ==> NoLostAcks(ops))
    ensures Inv(Exec(cfg, ops[..n]), exact)
  {
    assert n > 0 && exact && ops[n - 1].DoFinish? ==> ops[n - 1].acked;
    hide *;
    if n == 0 {
      EmptyInv(cfg, ops, exact);
    } else {
      RunKeepsInv(cfg, ops, n - 1, exact);
      StepOfRun(cfg, ops, n - 1);
      StepKeepsInv(cfg, Exec(cfg, ops[..n - 1]), exact, ops[n - 1]);
    }
  }
}
