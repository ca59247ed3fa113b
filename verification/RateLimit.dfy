/** The token bucket and the claim loop of a queue worker. */
module RateLimit {
  import opened Orders

  /** `rate` is tokens regained per millisecond; `last` the time of the last refill. */
  datatype Bucket = Bucket(capacity: real, rate: real, tokens: real, last: real)

  predicate Sound(b: Bucket) { b.capacity >= 1.0 && b.rate > 0.0 && 0.0 <= b.tokens <= b.capacity }

  function Capped(x: real, capacity: real): real { if x <= capacity then x else capacity }

  function Regained(rate: real, elapsed: real): real { elapsed * rate }

  function Full(max: nat, perMs: nat, now: real): (b: Bucket)
    ensures Sound(b)
  {
    var capacity := (if max >= 1 then max else 1) as real;
    Bucket(capacity, capacity / (if perMs >= 1 then perMs else 1) as real, capacity, now)
  }

  function Refilled(b: Bucket, now: real): Bucket {
    b.(tokens := Capped(b.tokens + Regained(b.rate, now - b.last), b.capacity), last := now)
  }

  function Granted(b: Bucket, want: nat, now: real): nat
    requires Sound(b) && b.last <= now
  {
    RegainedSign(b.rate, now - b.last);
    Min(want, Refilled(b, now).tokens.Floor)
  }

  function Taken(b: Bucket, want: nat, now: real): Bucket
    requires Sound(b) && b.last <= now
  {
    var r := Refilled(b, now);
    r.(tokens := r.tokens - Granted(b, want, now) as real)
  }

  function GivenBack(b: Bucket, unused: nat): Bucket {
    b.(tokens := Capped(b.tokens + unused as real, b.capacity))
  }

  function Ceiling(x: real): int { -((-x).Floor) }

  function MsUntilToken(b: Bucket): nat
    requires Sound(b)
  {
    if b.tokens >= 1.0 then 0
    else
      ShareSign(1.0 - b.tokens, b.rate);
      Ceiling((1.0 - b.tokens) / b.rate)
  }

  lemma RegainedSign(rate: real, elapsed: real)
    requires rate > 0.0
    ensures elapsed >= 0.0 <==> Regained(rate, elapsed) >= 0.0
  {
  }

  lemma RegainedSum(rate: real, x: real, y: real)
    ensures Regained(rate, x) + Regained(rate, y) == Regained(rate, x + y)
  {
  }

  lemma ShareSign(x: real, rate: real)
    requires x > 0.0 && rate > 0.0
    ensures x / rate > 0.0
  {
  }

  /** A take leaves a sound bucket, with what it granted gone from it. */
  lemma TakeKeepsSound(b: Bucket, want: nat, now: real)
    requires Sound(b) && b.last <= now
    ensures var t := Taken(b, want, now); Sound(t) && t.last == now && t.rate == b.rate && t.capacity == b.capacity
    ensures Granted(b, want, now) <= want
    ensures Granted(b, want, now) < want ==> Taken(b, want, now).tokens < 1.0
  {
    RegainedSign(b.rate, now - b.last);
  }

  lemma CeilingLeast(x: real, w: int)
    ensures w >= Ceiling(x) <==> w as real >= x
  {
  }

  /** `w` reaches `x / rate` exactly when `w` milliseconds regain `x`. */
  lemma WaitRegains(x: real, rate: real, w: real)
    requires rate > 0.0
    ensures w >= x / rate <==> Regained(rate, w) >= x
  {
    var q := x / rate;
    assert q * rate == x;
    RegainedSign(rate, w - q);
    RegainedSum(rate, w - q, q);
  }

  /** Waiting `MsUntilToken` is enough for a grant, and no shorter whole wait is. */
  lemma WaitIsExact(b: Bucket, want: nat, w: nat)
    requires Sound(b) && want >= 1
    ensures Granted(b, want, b.last + w as real) >= 1 <==> w >= MsUntilToken(b)
  {
    var gained := Regained(b.rate, w as real);
    RegainedSign(b.rate, w as real);
    assert b.last + w as real - b.last == w as real;
    if b.tokens < 1.0 {
      ShareSign(1.0 - b.tokens, b.rate);
      CeilingLeast((1.0 - b.tokens) / b.rate, w);
      WaitRegains(1.0 - b.tokens, b.rate, w as real);
    }
    hide Regained;
    assert Granted(b, want, b.last + w as real) >= 1 <==> b.tokens + gained >= 1.0;
  }

  // ---- Rounds of the claim loop ------------------------------------------------------------------------

  /** One claim: the clock at the take, the jobs wanted, and the jobs the store returned, or
      nothing when the claim failed and its tokens are lost. */
  datatype Round = Round(now: real, want: nat, claimed: Option<nat>)

  function Started(r: Round): nat { if r.claimed.Some? then r.claimed.value else 0 }

  /** Clocks do not go back and the store returns at most the granted number of jobs. */
  predicate Possible(b: Bucket, r: Round)
    requires Sound(b)
  {
    b.last <= r.now && Started(r) <= Granted(b, r.want, r.now)
  }

  function AfterRound(b: Bucket, r: Round): (b': Bucket)
    requires Sound(b) && Possible(b, r)
    ensures Sound(b') && b'.last == r.now && b'.rate == b.rate && b'.capacity == b.capacity
  {
    TakeKeepsSound(b, r.want, r.now);
    var t := Taken(b, r.want, r.now);
    if r.claimed.Some? then GivenBack(t, Granted(b, r.want, r.now) - r.claimed.value) else t
  }

  ghost predicate PossibleRun(b: Bucket, rs: seq<Round>)
    requires Sound(b)
    decreases |rs|
  {
    rs == [] || (Possible(b, rs[0]) && PossibleRun(AfterRound(b, rs[0]), rs[1..]))
  }

  function AfterRun(b: Bucket, rs: seq<Round>): (b': Bucket)
    requires Sound(b) && PossibleRun(b, rs)
    ensures Sound(b') && b'.rate == b.rate && b'.capacity == b.capacity && b.last <= b'.last
    decreases |rs|
  {
    if rs == [] then b else AfterRun(AfterRound(b, rs[0]), rs[1..])
  }

  function JobsStarted(rs: seq<Round>): nat {
    if rs == [] then 0 else Started(rs[0]) + JobsStarted(rs[1..])
  }

  /** What a round starts comes out of the refilled bucket: unused tokens go back in full, and only a
      failed claim loses the tokens it took. */
  lemma RoundSpends(b: Bucket, r: Round)
    requires Sound(b) && Possible(b, r)
    ensures AfterRound(b, r).tokens + Started(r) as real <= Refilled(b, r.now).tokens <= b.tokens
      + Regained(b.rate, r.now - b.last)
    ensures Refilled(b, r.now).tokens <= b.capacity
    ensures r.claimed.Some? ==> AfterRound(b, r).tokens == Refilled(b, r.now).tokens - r.claimed.value as real
    ensures r.claimed.None? ==> AfterRound(b, r).tokens == Refilled(b, r.now).tokens - Granted(b, r.want, r.now) as real
  {
    hide Regained;
  }

  /** Tokens are conserved: jobs started and tokens left never exceed the tokens at hand plus
      those regained. */
  lemma {:induction false} RunSpends(b: Bucket, rs: seq<Round>)
    requires Sound(b) && PossibleRun(b, rs)
    ensures AfterRun(b, rs).tokens + JobsStarted(rs) as real <= b.tokens
      + Regained(b.rate, AfterRun(b, rs).last - b.last)
    decreases |rs|
  {
    if rs == [] {
      RegainedSign(b.rate, 0.0);
    } else {
      hide Regained, AfterRound, Possible;
      var b' := AfterRound(b, rs[0]);
      RoundSpends(b, rs[0]);
      RunSpends(b', rs[1..]);
      RegainedSum(b.rate, b'.last - b.last, AfterRun(b', rs[1..]).last - b'.last);
      assert (b'.last - b.last) + (AfterRun(b', rs[1..]).last - b'.last) == AfterRun(b, rs).last - b.last;
    }
  }

  lemma {:induction false} RunSplits(b: Bucket, xs: seq<Round>, ys: seq<Round>)
    requires Sound(b) && PossibleRun(b, xs + ys)
    ensures PossibleRun(b, xs) && PossibleRun(AfterRun(b, xs), ys)
    ensures AfterRun(b, xs + ys) == AfterRun(AfterRun(b, xs), ys)
    decreases |xs|
  {
    hide AfterRound, Possible;
    if xs == [] {
      assert xs + ys == ys;
    } else {
      assert (xs + ys)[1..] == xs[1..] + ys && (xs + ys)[0] == xs[0];
      RunSplits(AfterRound(b, xs[0]), xs[1..], ys);
    }
  }

  lemma {:induction false} LastClock(b: Bucket, rs: seq<Round>)
    requires Sound(b) && PossibleRun(b, rs) && rs != []
    ensures AfterRun(b, rs).last == rs[|rs| - 1].now && b.last <= rs[0].now
    decreases |rs|
  {
    if |rs| > 1 {
      LastClock(AfterRound(b, rs[0]), rs[1..]);
    } else {
      assert AfterRun(b, rs) == AfterRun(AfterRound(b, rs[0]), []);
    }
  }

  /** The stretch `rs` on its own: at most a bucketful plus what its clocks regain. */
  lemma BurstBound(b: Bucket, rs: seq<Round>)
    requires Sound(b) && PossibleRun(b, rs) && rs != []
    ensures JobsStarted(rs) as real <= b.capacity + Regained(b.rate, rs[|rs| - 1].now - rs[0].now)
  {
    hide *;
    RunUnfold(b, rs);
    LastClock(b, rs);
    RoundSpends(b, rs[0]);
    RunSpends(AfterRound(b, rs[0]), rs[1..]);
  }

  lemma RunUnfold(b: Bucket, rs: seq<Round>)
    requires Sound(b) && PossibleRun(b, rs) && rs != []
    ensures Possible(b, rs[0]) && PossibleRun(AfterRound(b, rs[0]), rs[1..])
    ensures AfterRun(b, rs) == AfterRun(AfterRound(b, rs[0]), rs[1..]) && AfterRun(b, rs).tokens >= 0.0
    ensures AfterRound(b, rs[0]).last == rs[0].now && AfterRound(b, rs[0]).rate == b.rate
    ensures JobsStarted(rs) == Started(rs[0]) + JobsStarted(rs[1..])
  {
    hide Possible;
  }

  /** The rate limit: over any stretch of any run, whatever the claims return, fail or give back,
      the jobs started are at most the capacity plus the rate times the stretch's length. */
  lemma RateLimitHolds(b: Bucket, rs: seq<Round>, i: nat, j: nat)
    requires Sound(b) && PossibleRun(b, rs) && i < j <= |rs|
    ensures JobsStarted(rs[i..j]) as real <= b.capacity + Regained(b.rate, rs[j - 1].now - rs[i].now)
  {
    hide *;
    assert rs == rs[..i] + rs[i..] && rs[i..] == rs[i..j] + rs[j..];
    RunSplits(b, rs[..i], rs[i..]);
    var mid := AfterRun(b, rs[..i]);
    RunSplits(mid, rs[i..j], rs[j..]);
    BurstBound(mid, rs[i..j]);
  }

  /** Any window of `perMs` holds at most twice the configured maximum. */
  lemma TwiceMaxPerWindow(max: nat, perMs: nat, start: real, rs: seq<Round>, i: nat, j: nat)
    requires max >= 1 && perMs >= 1 && PossibleRun(Full(max, perMs, start), rs) && i < j <= |rs|
    requires rs[j - 1].now - rs[i].now <= perMs as real
    ensures JobsStarted(rs[i..j]) <= 2 * max
  {
    var b := Full(max, perMs, start);
    RateLimitHolds(b, rs, i, j);
    WaitRegains(max as real, b.rate, perMs as real);
    hide PossibleRun, JobsStarted;
    var slack := perMs as real - (rs[j - 1].now - rs[i].now);
    RegainedSign(b.rate, slack);
    RegainedSum(b.rate, slack, rs[j - 1].now - rs[i].now);
    PeriodRegainsMax(max, perMs);
  }

  /** The bound is reached: a full bucket now and again a period later start `2 * max` jobs within
      one closed window of the configured length, so `max` per window does not hold. */
  lemma TwiceMaxIsReached(max: nat, perMs: nat, start: real)
    requires max >= 1 && perMs >= 1
    ensures var rs := [Round(start, max, Some(max)), Round(start + perMs as real, max, Some(max))];
      PossibleRun(Full(max, perMs, start), rs) && JobsStarted(rs) == 2 * max
  {
    var b := Full(max, perMs, start);
    var r1, r2 := Round(start, max, Some(max)), Round(start + perMs as real, max, Some(max));
    var rs := [r1, r2];
    RegainedSign(b.rate, 0.0);
    assert Regained(b.rate, 0.0) == 0.0;
    assert Refilled(b, start).tokens == max as real;
    assert Granted(b, max, start) == max && Possible(b, r1);
    var b1 := AfterRound(b, r1);
    PeriodRegainsMax(max, perMs);
    assert start + perMs as real - b1.last == perMs as real;
    assert Refilled(b1, r2.now).tokens == max as real;
    assert Granted(b1, max, r2.now) == max && Possible(b1, r2);
    assert rs[1..] == [r2] && [r2][1..] == [];
    assert PossibleRun(AfterRound(b1, r2), []);
    assert JobsStarted([r2]) == max + JobsStarted([]);
  }

  /** A run inside one window of the configured length, starting now. */
  ghost predicate WithinWindow(b: Bucket, rs: seq<Round>, perMs: nat)
    requires Sound(b)
  {
    PossibleRun(b, rs) && (rs != [] ==> rs[|rs| - 1].now <= b.last + perMs as real)
  }

  /** The promise of at most `max` jobs per window holds for the window starting now exactly when
      the bucket holds less than one whole token at its start. */
  lemma WindowKeepsMaxIff(max: nat, perMs: nat, b: Bucket)
    requires max >= 1 && perMs >= 1 && Sound(b) && b.capacity == max as real && b.rate == max as real / perMs as real
    ensures (forall rs | WithinWindow(b, rs, perMs) :: JobsStarted(rs) <= max) <==> b.tokens < 1.0
  {
    PeriodRegainsMax(max, perMs);
    if b.tokens < 1.0 {
      forall rs | WithinWindow(b, rs, perMs) ensures JobsStarted(rs) <= max {
        WindowSpends(b, rs, perMs);
      }
    } else {
      var rs := OneTooMany(max, perMs, b);
      assert WithinWindow(b, rs, perMs) && JobsStarted(rs) > max;
    }
  }

  lemma WindowSpends(b: Bucket, rs: seq<Round>, perMs: nat)
    requires Sound(b) && WithinWindow(b, rs, perMs)
    ensures JobsStarted(rs) as real <= b.tokens + Regained(b.rate, perMs as real)
  {
    RunSpends(b, rs);
    if rs != [] {
      LastClock(b, rs);
    }
    var slack := perMs as real - (AfterRun(b, rs).last - b.last);
    RegainedSign(b.rate, slack);
    RegainedSum(b.rate, slack, AfterRun(b, rs).last - b.last);
    hide Regained, PossibleRun, JobsStarted;
  }

  /** One job now, and a full bucket at the end of the window. */
  lemma OneTooMany(max: nat, perMs: nat, b: Bucket) returns (rs: seq<Round>)
    requires max >= 1 && perMs >= 1 && Sound(b) && b.capacity == max as real && b.rate == max as real / perMs as real
    requires b.tokens >= 1.0
    ensures WithinWindow(b, rs, perMs) && JobsStarted(rs) == max + 1
  {
    var r1, r2 := Round(b.last, 1, Some(1)), Round(b.last + perMs as real, max, Some(max));
    rs := [r1, r2];
    RegainedSign(b.rate, 0.0);
    assert Regained(b.rate, 0.0) == 0.0;
    assert Refilled(b, b.last).tokens == b.tokens;
    assert Granted(b, 1, b.last) == 1 && Possible(b, r1);
    var b1 := AfterRound(b, r1);
    PeriodRegainsMax(max, perMs);
    assert r2.now - b1.last == perMs as real;
    assert Refilled(b1, r2.now).tokens == max as real;
    assert Granted(b1, max, r2.now) == max && Possible(b1, r2);
    assert rs[1..] == [r2] && [r2][1..] == [];
    assert PossibleRun(AfterRound(b1, r2), []);
    assert JobsStarted([r2]) == max + JobsStarted([]);
  }

  lemma PeriodRegainsMax(max: nat, perMs: nat)
    requires max >= 1 && perMs >= 1
    ensures Regained(max as real / perMs as real, perMs as real) == max as real
  {
  }

  // ---- The worker's own state ------------------------------------------------------------------------------

  class TokenBucket {
    const capacity: real
    const refillPerMs: real
    var tokens: real
    var last: real

    ghost function View(): Bucket
      reads this
    {
      Bucket(capacity, refillPerMs, tokens, last)
    }

    ghost predicate Valid()
      reads this
    {
      Sound(View())
    }

    constructor (max: nat, perMs: nat, now: real)
      ensures Valid() && View() == Full(max, perMs, now)
    {
      var full := Full(max, perMs, now);
      capacity, refillPerMs, tokens, last := full.capacity, full.rate, full.tokens, now;
    }

    method Refill(now: real)
      requires Valid() && last <= now
      modifies this
      ensures Valid() && View() == Refilled(old(View()), now)
    {
      RegainedSign(refillPerMs, now - last);
      var elapsed := now - last;
      var grown := tokens + elapsed * refillPerMs;
      tokens := if grown <= capacity then grown else capacity;
      last := now;
    }

    method Take(want: nat, now: real) returns (granted: nat)
      requires Valid() && last <= now
      modifies this
      ensures Valid() && View() == Taken(old(View()), want, now)
      ensures granted == Granted(old(View()), want, now)
    {
      TakeKeepsSound(View(), want, now);
      Refill(now);
      granted := Min(want, tokens.Floor);
      tokens := tokens - granted as real;
    }

    method GiveBack(unused: nat)
      requires Valid()
      modifies this
      ensures Valid() && View() == GivenBack(old(View()), unused)
    {
      var more := tokens + unused as real;
      tokens := if more <= capacity then more else capacity;
    }
  }

  /** The jobs of one claim, cut into groups for one handler call each. */
  function Chunks<J>(jobs: seq<J>, group: nat): (chunks: seq<seq<J>>)
    requires group >= 1
    ensures forall c | c in chunks :: 1 <= |c| <= group
  {
    if jobs == [] then []
    else if |jobs| <= group then [jobs]
    else [jobs[..group]] + Chunks(jobs[group..], group)
  }

  function Flatten<J>(chunks: seq<seq<J>>): seq<J> {
    if chunks == [] then [] else chunks[0] + Flatten(chunks[1..])
  }

  /** Every job is in exactly one group, in claim order. */
  lemma {:induction false} ChunksKeepJobs<J>(jobs: seq<J>, group: nat)
    requires group >= 1
    ensures Flatten(Chunks(jobs, group)) == jobs
  {
    hide Flatten;
    if |jobs| > group {
      ChunksKeepJobs(jobs[group..], group);
      FlattenCons(jobs[..group], Chunks(jobs[group..], group));
    } else {
      FlattenOne(jobs);
    }
  }

  lemma {:induction false} FlattenCons<J>(first: seq<J>, rest: seq<seq<J>>)
    ensures Flatten([first] + rest) == first + Flatten(rest)
  {
    assert ([first] + rest)[1..] == rest;
  }

  lemma {:induction false} FlattenOne<J>(jobs: seq<J>)
    ensures Flatten([jobs]) == jobs && (jobs == [] ==> Flatten<J>([]) == jobs)
  {
    assert [jobs][1..] == [];
    assert Flatten<J>([]) == [];
  }

  lemma {:induction false} ChunkCount<J>(jobs: seq<J>, group: nat, available: nat)
    requires group >= 1 && |jobs| <= available * group
    ensures |Chunks(jobs, group)| <= available
  {
    if |jobs| > group {
      assert (available - 1) * group == available * group - group;
      ChunkCount(jobs[group..], group, available - 1);
    } else if jobs != [] && available == 0 {
      assert false;
    }
  }

  /** How many jobs the loop asks for with `available` free permits. */
  function Wanted(available: nat, group: nat, batch: nat): nat {
    Min(available * group, Max(batch, group))
  }

  /** The loop asks for as much as a round may claim: a number of jobs is within it exactly when their
      groups fit the free permits and it does not exceed the batch size, or one group where groups are
      larger. */
  lemma WantedIff<J>(jobs: seq<J>, available: nat, group: nat, batch: nat)
    requires group >= 1
    ensures |jobs| <= Wanted(available, group, batch) <==>
      |Chunks(jobs, group)| <= available && (|jobs| <= batch || |jobs| <= group)
  {
    if |jobs| <= available * group {
      ChunkCount(jobs, group, available);
    } else {
      ManyChunks(jobs, group, available);
    }
  }

  lemma {:induction false} ManyChunks<J>(jobs: seq<J>, group: nat, available: nat)
    requires group >= 1 && |jobs| > available * group
    ensures |Chunks(jobs, group)| > available
  {
    if available > 0 {
      assert (available - 1) * group == available * group - group && available * group >= group;
      ManyChunks(jobs[group..], group, available - 1);
    }
  }

  /** The groups of a claim never outnumber the permits seen free. */
  lemma ChunksFitPermits<J>(jobs: seq<J>, available: nat, group: nat, batch: nat)
    requires group >= 1 && |jobs| <= Wanted(available, group, batch)
    ensures |Chunks(jobs, group)| <= available
  {
    ChunkCount(jobs, group, available);
  }

  class Worker<J> {
    const concurrency: nat
    const group: nat
    const batch: nat
    var permits: nat
    var running: seq<seq<J>>

    ghost predicate Valid()
      reads this
    {
      group >= 1 && |running| + permits == concurrency && forall c | c in running :: 1 <= |c| <= group
    }

    constructor (concurrency: nat, handlerBatch: nat, batch: nat)
      ensures Valid() && this.concurrency == Max(concurrency, 1) && running == []
    {
      this.concurrency, group, this.batch := Max(concurrency, 1), Max(handlerBatch, 1), batch;
      permits, running := Max(concurrency, 1), [];
    }

    /** Starts the claimed jobs, one group on each of the permits free now. */
    method StartGroups(jobs: seq<J>)
      requires Valid() && |jobs| <= Wanted(permits, group, batch)
      modifies this
      ensures Valid()
      ensures running == old(running) + Chunks(jobs, group)
    {
      ChunksFitPermits(jobs, permits, group, batch);
      var chunks := Chunks(jobs, group);
      hide Chunks, Wanted;
      for i := 0 to |chunks|
        invariant permits == old(permits) - i && running == old(running) + chunks[..i]
      {
        assert chunks[..i + 1] == chunks[..i] + [chunks[i]];
        permits, running := permits - 1, running + [chunks[i]];
      }
      assert chunks[..|chunks|] == chunks;
    }

    /** A group is done and frees its permit. */
    method Finish(i: nat)
      requires Valid() && i < |running|
      modifies this
      ensures Valid() && permits == old(permits) + 1
      ensures running == old(running)[..i] + old(running)[i + 1..]
    {
      running := running[..i] + running[i + 1..];
      permits := permits + 1;
    }

    /** One round of the claim loop: takes tokens, claims from the backlog, gives unused tokens
        back, and starts a group per chunk without waiting for a permit. A claim that fails starts
        nothing and loses its tokens. */
    method ClaimRound(bucket: TokenBucket, backlog: seq<J>, now: real, claimFails: bool) returns (started: nat)
      requires Valid() && bucket.Valid() && bucket.last <= now
      modifies this, bucket
      ensures Valid() && bucket.Valid()
      ensures started <= |backlog| && running == old(running) + Chunks(backlog[..started], group)
      ensures old(permits) == 0 ==> started == 0 && bucket.View() == old(bucket.View())
      ensures var b, r := old(bucket.View()),
        Round(now, Wanted(old(permits), group, batch), if claimFails then None else Some(started));
        old(permits) > 0 ==>
          && Possible(b, r) && bucket.View() == AfterRound(b, r)
          && started == if claimFails then 0 else Min(Granted(b, r.want, now), |backlog|)
    {
      started := 0;
      if permits > 0 {
        var want := Wanted(permits, group, batch);
        TakeKeepsSound(bucket.View(), want, now);
        hide Wanted, Chunks, Taken, Granted, Regained;
        var granted := bucket.Take(want, now);
        if !claimFails {
          started := Min(granted, |backlog|);
          bucket.GiveBack(granted - started);
        }
      }
      StartGroups(backlog[..started]);
    }
  }
}
