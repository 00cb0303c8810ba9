/** The token bucket that limits provider calls (`providers/rate_limit.py`). A poll is
    one pass of the `acquire` loop under the lock; callers interleave between polls, so
    a trace of clock readings stands for any interleaving of callers. */
module TokenBucket {
  import opened Prelude

  datatype Bucket = Bucket(capacity: real, rate: real, tokens: real, updatedAt: real)
  {
    ghost predicate Valid() {
      capacity >= 1.0 && rate > 0.0 && 0.0 <= tokens <= capacity
    }
  }

  const SLACK := 0.000000001

  /** Tokens earned in some seconds. */
  function Earned(rate: real, seconds: real): real {
    rate * seconds
  }

  function NewBucket(callsPerMinute: int, burst: Option<int>, now: real): (r: Result<Bucket>)
    ensures r.Ok? ==> r.value.Valid() && r.value.tokens == r.value.capacity
  {
    if callsPerMinute <= 0 then Raised("RATE_LIMIT_MUST_BE_POSITIVE")
    else if burst.Some? && burst.value <= 0 then Raised("RATE_LIMIT_BURST_MUST_BE_POSITIVE")
    else
      var capacity := if burst.Some? then burst.value as real else callsPerMinute as real;
      Ok(Bucket(capacity, callsPerMinute as real / 60.0, capacity, now))
  }

  function Refill(b: Bucket, now: real): Bucket {
    b.(tokens := Min(b.capacity, b.tokens + Earned(b.rate, Max(0.0, now - b.updatedAt))), updatedAt := now)
  }

  /** One poll grants when the refilled bucket holds a token, up to the slack. */
  predicate Grants(b: Bucket, now: real) {
    Refill(b, now).tokens + SLACK >= 1.0
  }

  function Poll(b: Bucket, now: real): Bucket {
    var refilled := Refill(b, now);
    if Grants(b, now) then refilled.(tokens := Max(0.0, refilled.tokens - 1.0)) else refilled
  }

  /** The sleep after a refusal. */
  function Wait(b: Bucket): real
    requires b.rate != 0.0
  {
    (1.0 - b.tokens) / b.rate
  }

  /** The bucket after a trace of polls, and what each poll was told. */
  function After(b: Bucket, trace: seq<real>): Bucket
    decreases |trace|
  {
    if trace == [] then b else Poll(After(b, trace[..|trace| - 1]), trace[|trace| - 1])
  }

  function Outcomes(b: Bucket, trace: seq<real>): (told: seq<bool>)
    ensures |told| == |trace|
    decreases |trace|
  {
    if trace == [] then []
    else
      var before := trace[..|trace| - 1];
      Outcomes(b, before) + [Grants(After(b, before), trace[|trace| - 1])]
  }

  function Count(told: seq<bool>): nat
    decreases |told|
  {
    if told == [] then 0 else Count(told[..|told| - 1]) + (if told[|told| - 1] then 1 else 0)
  }

  /** The time a trace moves forward; what the clock runs back is not deducted. */
  function Forward(trace: seq<real>): (seconds: real)
    ensures seconds >= 0.0
    decreases |trace|
  {
    if |trace| <= 1 then 0.0
    else Forward(trace[..|trace| - 1]) + Max(0.0, trace[|trace| - 1] - trace[|trace| - 2])
  }

  ghost predicate Monotone(trace: seq<real>) {
    forall i, j :: 0 <= i <= j < |trace| ==> trace[i] <= trace[j]
  }

  /* ---- never too many ---- */

  lemma EarnedAdds(rate: real, x: real, y: real)
    ensures Earned(rate, x + y) == Earned(rate, x) + Earned(rate, y)
    ensures Earned(rate, 0.0) == 0.0
    ensures rate >= 0.0 && x >= 0.0 ==> Earned(rate, x) >= 0.0
  {
  }

  lemma PollValid(b: Bucket, now: real)
    requires b.Valid()
    ensures Poll(b, now).Valid() && Poll(b, now).capacity == b.capacity && Poll(b, now).rate == b.rate
    ensures Poll(b, now).updatedAt == now
  {
    hide Earned;
    EarnedAdds(b.rate, Max(0.0, now - b.updatedAt), 0.0);
  }

  lemma {:induction false} AfterValid(b: Bucket, trace: seq<real>)
    requires b.Valid()
    ensures After(b, trace).Valid() && After(b, trace).capacity == b.capacity && After(b, trace).rate == b.rate
    ensures trace != [] ==> After(b, trace).updatedAt == trace[|trace| - 1]
    decreases |trace|
  {
    hide Poll, Bucket.Valid;
    if trace != [] {
      AfterValid(b, trace[..|trace| - 1]);
      PollValid(After(b, trace[..|trace| - 1]), trace[|trace| - 1]);
    }
  }

  /** A grant costs at least one token less the slack. */
  lemma PollCost(b: Bucket, now: real)
    requires b.Valid()
    ensures Poll(b, now).tokens <= b.capacity - (if Grants(b, now) then 1.0 - SLACK else 0.0)
    ensures Poll(b, now).tokens
         <= b.tokens + Earned(b.rate, Max(0.0, now - b.updatedAt)) - (if Grants(b, now) then 1.0 - SLACK else 0.0)
  {
    hide Earned;
  }

  lemma {:induction false} SpentWithinEarned(b: Bucket, trace: seq<real>)
    requires b.Valid() && trace != []
    ensures Count(Outcomes(b, trace)) as real * (1.0 - SLACK) + After(b, trace).tokens
         <= b.capacity + Earned(b.rate, Forward(trace))
    decreases |trace|
  {
    hide Earned, Poll, Grants;
    var before, now := trace[..|trace| - 1], trace[|trace| - 1];
    AfterValid(b, before);
    var c := After(b, before);
    PollCost(c, now);
    var told := Outcomes(b, trace);
    assert told[..|before|] == Outcomes(b, before);
    EarnedAdds(b.rate, Forward(before), Max(0.0, now - c.updatedAt));
    if before != [] {
      SpentWithinEarned(b, before);
    }
  }

  lemma {:induction false} TraceConcat(b: Bucket, xs: seq<real>, ys: seq<real>)
    ensures After(b, xs + ys) == After(After(b, xs), ys)
    ensures Outcomes(b, xs + ys) == Outcomes(b, xs) + Outcomes(After(b, xs), ys)
    decreases |ys|
  {
    hide Poll, Grants;
    if ys == [] {
      assert xs + ys == xs;
    } else {
      assert (xs + ys)[..|xs + ys| - 1] == xs + ys[..|ys| - 1];
      TraceConcat(b, xs, ys[..|ys| - 1]);
    }
  }

  lemma WindowOfTrace(b: Bucket, trace: seq<real>, i: nat, j: nat)
    requires i <= j <= |trace|
    ensures Outcomes(b, trace)[i..j] == Outcomes(After(b, trace[..i]), trace[i..j])
  {
    hide After, Outcomes;
    TraceConcat(b, trace[..j], trace[j..]);
    assert trace == trace[..j] + trace[j..];
    TraceConcat(b, trace[..i], trace[i..j]);
    assert trace[..j] == trace[..i] + trace[i..j];
  }

  /** In every window of every trace, whatever the clock does, the grants cost no more
      than a full bucket and what the forward time of the window earns. */
  lemma GrantsWithinForwardTime(b: Bucket, trace: seq<real>, i: nat, j: nat)
    requires b.Valid() && i < j <= |trace|
    ensures Count(Outcomes(b, trace)[i..j]) as real * (1.0 - SLACK) <= b.capacity + Earned(b.rate, Forward(trace[i..j]))
  {
    hide Earned, Outcomes, After, Count, Forward;
    WindowOfTrace(b, trace, i, j);
    AfterValid(b, trace[..i]);
    var c := After(b, trace[..i]);
    SpentWithinEarned(c, trace[i..j]);
    AfterValid(c, trace[i..j]);
  }

  lemma {:induction false} MonotoneForward(trace: seq<real>)
    requires Monotone(trace) && trace != []
    ensures Forward(trace) == trace[|trace| - 1] - trace[0]
    decreases |trace|
  {
    if |trace| > 1 {
      var before := trace[..|trace| - 1];
      assert forall k :: 0 <= k < |before| ==> before[k] == trace[k];
      MonotoneForward(before);
    }
  }

  /** With a monotone clock: N grants in a window of d seconds satisfy
      N (1 - 1e-9) <= capacity + rate d. */
  lemma GrantsPerWindow(b: Bucket, trace: seq<real>, i: nat, j: nat)
    requires b.Valid() && i < j <= |trace| && Monotone(trace)
    ensures Count(Outcomes(b, trace)[i..j]) as real * (1.0 - SLACK)
         <= b.capacity + Earned(b.rate, trace[j - 1] - trace[i])
  {
    hide Earned, Outcomes, Count, Forward;
    GrantsWithinForwardTime(b, trace, i, j);
    assert forall k :: 0 <= k < j - i ==> trace[i..j][k] == trace[i + k];
    MonotoneForward(trace[i..j]);
  }

  /** A limiter of some calls per minute: it exists for positive numbers only, starts full,
      holds its burst or one minute's calls, and earns exactly those calls in a minute. */
  lemma NewBucketMeaning(callsPerMinute: int, burst: Option<int>, now: real)
    ensures var r := NewBucket(callsPerMinute, burst, now);
            && (r.Ok? <==> callsPerMinute > 0 && (burst.Some? ==> burst.value > 0))
            && (r.Ok? ==>
                  && r.value.tokens == r.value.capacity && r.value.updatedAt == now
                  && r.value.capacity == (if burst.Some? then burst.value else callsPerMinute) as real
                  && Earned(r.value.rate, 60.0) == callsPerMinute as real)
  {
  }

  lemma EarnedGrows(rate: real, x: real, y: real)
    requires rate >= 0.0 && x <= y
    ensures Earned(rate, x) <= Earned(rate, y)
  {
    EarnedAdds(rate, x, y - x);
    EarnedAdds(rate, y - x, 0.0);
  }

  /** With a monotone clock, no window of at most a minute grants more than the burst and
      the calls of one minute, up to the slack. */
  lemma GrantsPerMinute(callsPerMinute: int, burst: Option<int>, now: real, trace: seq<real>, i: nat, j: nat)
    requires callsPerMinute > 0 && (burst.Some? ==> burst.value > 0)
    requires i < j <= |trace| && Monotone(trace) && trace[j - 1] <= trace[i] + 60.0
    ensures NewBucket(callsPerMinute, burst, now).Ok?
    ensures Count(Outcomes(NewBucket(callsPerMinute, burst, now).value, trace)[i..j]) as real * (1.0 - SLACK)
         <= (if burst.Some? then burst.value else callsPerMinute) as real + callsPerMinute as real
  {
    hide Earned, Outcomes, Count;
    NewBucketMeaning(callsPerMinute, burst, now);
    var b := NewBucket(callsPerMinute, burst, now).value;
    GrantsPerWindow(b, trace, i, j);
    EarnedGrows(b.rate, trace[j - 1] - trace[i], 60.0);
  }

  /** A clock that runs back breaks the bound in elapsed time: at one call a second and
      no burst, a clock that revisits the same second grants three times within it. */
  lemma ClockRunningBack()
    ensures var b := Bucket(1.0, 1.0, 1.0, 0.0);
            && b.Valid() && Outcomes(b, [0.0, 1.0, 0.0, 1.0]) == [true, true, false, true]
            && Count([true, true, false, true]) as real * (1.0 - SLACK) > b.capacity + Earned(b.rate, 1.0)
  {
    hide After, Outcomes, Poll, Grants, Count;
    var b := Bucket(1.0, 1.0, 1.0, 0.0);
    assert Earned(1.0, 1.0) == 1.0;
    PollsOfOne();
    NoPolls(b);
    OnePoll(b, [], 0.0);
    OnePoll(b, [0.0], 1.0);
    OnePoll(b, [0.0, 1.0], 0.0);
    OnePoll(b, [0.0, 1.0, 0.0], 1.0);
    assert [] + [0.0] == [0.0] && [0.0] + [1.0] == [0.0, 1.0] && [0.0, 1.0] + [0.0] == [0.0, 1.0, 0.0];
    assert [0.0, 1.0, 0.0] + [1.0] == [0.0, 1.0, 0.0, 1.0];
    assert Count([true, true, false, true]) == 3 by { CountOfFour(); }
  }

  lemma CountOfFour()
    ensures Count([true, true, false, true]) == 3
  {
    hide Count;
    CountNothing();
    var one, two, three := [true], [true, true], [true, true, false];
    assert [] + [true] == one && one + [true] == two && two + [false] == three
           && three + [true] == [true, true, false, true];
    CountAppend([], true);
    CountAppend(one, true);
    CountAppend(two, false);
    CountAppend(three, true);
  }

  lemma CountNothing()
    ensures Count([]) == 0
  {
  }

  lemma PollsOfOne()
    ensures Poll(Bucket(1.0, 1.0, 1.0, 0.0), 0.0) == Bucket(1.0, 1.0, 0.0, 0.0)
            && Grants(Bucket(1.0, 1.0, 1.0, 0.0), 0.0)
    ensures Poll(Bucket(1.0, 1.0, 0.0, 0.0), 1.0) == Bucket(1.0, 1.0, 0.0, 1.0)
            && Grants(Bucket(1.0, 1.0, 0.0, 0.0), 1.0)
    ensures Poll(Bucket(1.0, 1.0, 0.0, 1.0), 0.0) == Bucket(1.0, 1.0, 0.0, 0.0)
            && !Grants(Bucket(1.0, 1.0, 0.0, 1.0), 0.0)
  {
  }

  lemma NoPolls(b: Bucket)
    ensures After(b, []) == b && Outcomes(b, []) == []
  {
  }

  lemma OnePoll(b: Bucket, trace: seq<real>, now: real)
    ensures After(b, trace + [now]) == Poll(After(b, trace), now)
    ensures Outcomes(b, trace + [now]) == Outcomes(b, trace) + [Grants(After(b, trace), now)]
  {
    hide Poll, Grants;
    assert (trace + [now])[..|trace|] == trace;
  }

  /* ---- never fewer than the limit allows ---- */

  /** The readings from the creation or from a poll to the end. */
  function Since(b: Bucket, trace: seq<real>, i: nat): seq<real>
    requires i <= |trace|
  {
    ([b.updatedAt] + trace)[i..]
  }

  /** The grants at or after that moment. */
  function GrantsSince(b: Bucket, trace: seq<real>, i: nat): nat
    requires i <= |trace|
  {
    Count(([false] + Outcomes(b, trace))[i..])
  }

  lemma CountAppend(told: seq<bool>, last: bool)
    ensures Count(told + [last]) == Count(told) + (if last then 1 else 0)
  {
    assert (told + [last])[..|told|] == told;
  }

  lemma ForwardAppend(trace: seq<real>, last: real)
    requires trace != []
    ensures Forward(trace + [last]) == Forward(trace) + Max(0.0, last - trace[|trace| - 1])
  {
    assert (trace + [last])[..|trace|] == trace;
  }

  lemma SinceStep(b: Bucket, trace: seq<real>, i: nat)
    requires trace != [] && i < |trace|
    ensures var before, now := trace[..|trace| - 1], trace[|trace| - 1];
            && Since(b, trace, i) == Since(b, before, i) + [now]
            && GrantsSince(b, trace, i) == GrantsSince(b, before, i) + (if Grants(After(b, before), now) then 1 else 0)
  {
    hide Grants;
    var before, now := trace[..|trace| - 1], trace[|trace| - 1];
    assert trace == before + [now];
    CountAppend(([false] + Outcomes(b, before))[i..], Grants(After(b, before), now));
    assert [false] + Outcomes(b, trace) == [false] + Outcomes(b, before) + [Grants(After(b, before), now)];
    assert ([false] + Outcomes(b, trace))[i..] == ([false] + Outcomes(b, before))[i..]
           + [Grants(After(b, before), now)];
  }

  lemma SinceNow(b: Bucket, trace: seq<real>)
    requires trace != []
    ensures var before, now := trace[..|trace| - 1], trace[|trace| - 1];
            && Since(b, trace, |trace|) == [now]
            && GrantsSince(b, trace, |trace|) == (if Grants(After(b, before), now) then 1 else 0)
  {
    hide Grants, Count, Outcomes;
    var before, now := trace[..|trace| - 1], trace[|trace| - 1];
    OnePoll(b, before, now);
    assert before + [now] == trace;
    var told := Grants(After(b, before), now);
    assert ([false] + Outcomes(b, trace))[|trace|..] == [told];
    CountNothing();
    CountAppend([], told);
    assert [] + [told] == [told];
  }

  /** What a poll leaves: at least the refilled tokens less one for a grant. */
  lemma PollLeaves(b: Bucket, now: real)
    requires b.Valid()
    ensures var cost := if Grants(b, now) then 1.0 else 0.0;
            || Poll(b, now).tokens >= b.capacity - cost
            || Poll(b, now).tokens >= b.tokens + Earned(b.rate, Max(0.0, now - b.updatedAt)) - cost
  {
    hide Earned;
  }

  /** Some window explains the level of the bucket: it began full and lost no more
      than one token for each grant. */
  lemma {:induction false} LevelExplained(b: Bucket, trace: seq<real>) returns (i: nat)
    requires b.Valid() && b.tokens == b.capacity
    ensures i <= |trace|
    ensures After(b, trace).tokens >= b.capacity
            + Earned(b.rate, Forward(Since(b, trace, i))) - GrantsSince(b, trace, i) as real
    decreases |trace|
  {
    hide Earned, Poll, Grants, Count, Since, GrantsSince;
    if trace == [] {
      i := 0;
      NothingYet(b);
    } else {
      var before, now := trace[..|trace| - 1], trace[|trace| - 1];
      AfterValid(b, before);
      var c := After(b, before);
      PollLeaves(c, now);
      if After(b, trace).tokens >= b.capacity - (if Grants(c, now) then 1.0 else 0.0) {
        i := |trace|;
        SinceNow(b, trace);
        EarnedAdds(b.rate, 0.0, 0.0);
      } else {
        i := LevelExplained(b, before);
        SinceStep(b, trace, i);
        LastReading(b, before, i);
        ForwardAppend(Since(b, before, i), now);
        EarnedAdds(b.rate, Forward(Since(b, before, i)), Max(0.0, now - c.updatedAt));
      }
    }
  }

  lemma NothingYet(b: Bucket)
    ensures Earned(b.rate, Forward(Since(b, [], 0))) == 0.0 && GrantsSince(b, [], 0) == 0
  {
    assert [b.updatedAt] + [] == [b.updatedAt];
    assert ([false] + Outcomes(b, []))[0..] == [false];
    assert [false][..0] == [];
  }

  lemma LastReading(b: Bucket, trace: seq<real>, i: nat)
    requires b.Valid() && i <= |trace|
    ensures Since(b, trace, i) != []
    ensures Since(b, trace, i)[|Since(b, trace, i)| - 1] == After(b, trace).updatedAt
  {
    AfterValid(b, trace);
  }

  /** A refusal is forced: some window up to the refused poll has already used so much
      that one more grant would exceed the capacity and what the window earned. */
  lemma RefusalIsForced(b: Bucket, trace: seq<real>)
    requires b.Valid() && b.tokens == b.capacity && trace != [] && !Outcomes(b, trace)[|trace| - 1]
    ensures exists i: nat :: i <= |trace|
              && GrantsSince(b, trace, i) as real + 1.0 > b.capacity + Earned(b.rate, Forward(Since(b, trace, i)))
  {
    hide Earned, Since, GrantsSince, Forward;
    AfterValid(b, trace[..|trace| - 1]);
    var i := LevelExplained(b, trace);
    assert After(b, trace).tokens < 1.0;
    assert GrantsSince(b, trace, i) as real + 1.0 > b.capacity + Earned(b.rate, Forward(Since(b, trace, i)));
  }

  /* ---- sleeping ---- */

  lemma WaitEarns(b: Bucket, seconds: real)
    requires b.rate > 0.0
    ensures b.tokens + Earned(b.rate, seconds) + SLACK >= 1.0 <==> seconds >= Wait(b) - SLACK / b.rate
  {
    var w := Wait(b);
    assert w * b.rate == 1.0 - b.tokens;
    var s := SLACK / b.rate;
    assert s * b.rate == SLACK;
    assert Earned(b.rate, seconds) - (1.0 - b.tokens - SLACK) == b.rate * (seconds - (w - s));
    if seconds >= w - s {
      assert b.rate * (seconds - (w - s)) >= 0.0;
    } else {
      assert b.rate * (seconds - (w - s)) < 0.0;
    }
  }

  /** A refused caller that meets no competition is granted on its next turn exactly
      when it slept the computed wait, up to the slack. */
  lemma SleeperIsGranted(b: Bucket, now: real, next: real)
    requires b.Valid() && !Grants(b, now) && next >= now
    ensures Grants(Poll(b, now), next) <==> next - now >= Wait(Poll(b, now)) - SLACK / b.rate
    ensures next >= now + Wait(Poll(b, now)) ==> Grants(Poll(b, now), next)
  {
    hide Earned, Wait;
    var c := Poll(b, now);
    PollValid(b, now);
    WaitEarns(c, next - now);
    SlackIsPositive(b.rate);
  }

  lemma SlackIsPositive(rate: real)
    requires rate > 0.0
    ensures SLACK / rate >= 0.0
  {
  }

  /* ---- the limiter ---- */

  class TokenBucketRateLimiter {
    const capacity: real
    const refillPerSecond: real
    var tokens: real
    var updatedAt: real

    ghost function View(): Bucket
      reads this
    {
      Bucket(capacity, refillPerSecond, tokens, updatedAt)
    }

    constructor (callsPerMinute: int, burst: Option<int>, now: real)
      requires callsPerMinute > 0 && (burst.Some? ==> burst.value > 0)
      ensures NewBucket(callsPerMinute, burst, now) == Ok(View())
    {
      capacity := if burst.Some? then burst.value as real else callsPerMinute as real;
      refillPerSecond := callsPerMinute as real / 60.0;
      tokens := if burst.Some? then burst.value as real else callsPerMinute as real;
      updatedAt := now;
    }

    /** One pass of the loop, under the lock: granted, or the seconds to sleep. */
    method Turn(now: real) returns (wait: Option<real>)
      requires View().Valid()
      modifies this
      ensures View() == Poll(old(View()), now) && View().Valid()
      ensures wait == if Grants(old(View()), now) then None else Some(Wait(View()))
    {
      hide Earned, Wait;
      PollValid(View(), now);
      var elapsed := Max(0.0, now - updatedAt);
      tokens := Min(capacity, tokens + Earned(refillPerSecond, elapsed));
      updatedAt := now;
      if tokens + SLACK >= 1.0 {
        tokens := Max(0.0, tokens - 1.0);
        return None;
      }
      wait := Some((1.0 - tokens) / refillPerSecond);
      assert wait == Some(Wait(View())) by { WaitIs(View()); }
    }

    /** `acquire` with nobody else polling: between turns it sleeps the computed wait,
        and wakes late by whatever the scheduler adds. It is granted on its first turn
        or, after one sleep, on its second. */
    method Acquire(start: real, late: real) returns (turns: nat)
      requires View().Valid() && late >= 0.0
      modifies this
      ensures View().Valid()
      ensures turns == if Grants(old(View()), start) then 1 else 2
      ensures var b := old(View());
              View() == After(b, if turns == 1 then [start] else [start, start + Wait(Poll(b, start)) + late])
    {
      hide Poll, Grants, Wait, Bucket.Valid;
      ghost var b := View();
      var now := start;
      turns := 0;
      FirstTurns(b, start, now);
      SleptEnough(b, start, late);
      while true
        invariant View().Valid() && refillPerSecond != 0.0 && turns <= 1
        invariant turns == 0 ==> now == start && View() == b
        invariant turns == 1 ==> !Grants(b, start) && View() == Poll(b, start) && now == start + Wait(View()) + late
        decreases 2 - turns
      {
        var wait := Turn(now);
        turns := turns + 1;
        if wait.None? {
          FirstTurns(b, start, now);
          return;
        }
        now := now + wait.value + late;
      }
    }
  }

  lemma FirstTurns(b: Bucket, start: real, now: real)
    ensures After(b, [start]) == Poll(b, start) && Outcomes(b, [start]) == [Grants(b, start)]
    ensures After(b, [start, now]) == Poll(Poll(b, start), now)
  {
    hide Poll, Grants;
    assert [start][..0] == [] && [start, now][..1] == [start];
  }

  lemma SleptEnough(b: Bucket, start: real, late: real)
    requires b.Valid() && late >= 0.0
    ensures b.rate != 0.0 && Poll(b, start).rate == b.rate
    ensures !Grants(b, start) ==> Grants(Poll(b, start), start + Wait(Poll(b, start)) + late)
  {
    hide Earned, Wait;
    PollValid(b, start);
    if !Grants(b, start) {
      WaitPositive(Poll(b, start));
      SleeperIsGranted(b, start, start + Wait(Poll(b, start)) + late);
    }
  }

  lemma WaitPositive(b: Bucket)
    requires b.rate > 0.0 && b.tokens <= 1.0
    ensures Wait(b) >= 0.0
  {
  }

  lemma WaitIs(b: Bucket)
    requires b.rate != 0.0
    ensures Wait(b) == (1.0 - b.tokens) / b.rate
  {
  }
}
