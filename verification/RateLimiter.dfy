/**
 The fixed-window limiter (apps/api/src/auth/rate-limiter.ts): one map shared by every
 key and swept in passing, against one counter per key that is never swept.
 */
module RateLimiter {
  import opened Wrappers

  const SWEEP_ABOVE: nat := 5000

  /** How many calls a window has admitted, and when it ends. */
  datatype Entry = Entry(count: nat, resetAt: int)

  // ---------------------------------------------------------------------------
  // One key on its own
  // ---------------------------------------------------------------------------

  /** The call at `now` finds no window open. */
  predicate Opens(entry: Option<Entry>, now: int) {
    entry.None? || entry.value.resetAt <= now
  }

  predicate Allows(max: int, entry: Option<Entry>, now: int) {
    Opens(entry, now) || entry.value.count < max
  }

  function Next(max: int, windowMs: int, entry: Option<Entry>, now: int): Entry {
    if Opens(entry, now) then Entry(1, now + windowMs)
    else if entry.value.count < max then Entry(entry.value.count + 1, entry.value.resetAt)
    else entry.value
  }

  /** The counter of a key that was called at these times and nothing else. */
  function Solo(max: int, windowMs: int, times: seq<int>): Option<Entry> {
    if times == [] then None
    else Some(Next(max, windowMs, Solo(max, windowMs, times[..|times| - 1]), times[|times| - 1]))
  }

  /** Whether the i-th of these calls is admitted. */
  predicate Admitted(max: int, windowMs: int, times: seq<int>, i: nat)
    requires i < |times|
  {
    Allows(max, Solo(max, windowMs, times[..i]), times[i])
  }

  /** How many of the first n calls are admitted at a time in [from, from + windowMs). */
  function AdmittedWithin(max: int, windowMs: int, times: seq<int>, n: nat, from: int): nat
    requires n <= |times|
  {
    if n == 0 then 0
    else
      var before := AdmittedWithin(max, windowMs, times, n - 1, from);
      if from <= times[n - 1] < from + windowMs && Admitted(max, windowMs, times, n - 1) then before + 1 else before
  }

  ghost predicate NonDecreasing(times: seq<int>) {
    forall i, j :: 0 <= i < j < |times| ==> times[i] <= times[j]
  }

  /** A budget below one still admits the call that opens a window. */
  function Budget(max: int): nat {
    if max < 1 then 1 else max
  }

  /** What the counter after n calls says about the interval. */
  ghost predicate Bounded(max: int, windowMs: int, times: seq<int>, n: nat, from: int)
    requires n <= |times|
  {
    var c := AdmittedWithin(max, windowMs, times, n, from);
    if n == 0 then c == 0
    else
      var e := Solo(max, windowMs, times[..n]);
      && e.Some? && 1 <= e.value.count <= Budget(max)
      && e.value.resetAt - windowMs <= times[n - 1]
      && (times[n - 1] < from ==> c == 0)
      && (if e.value.resetAt - windowMs < from then c <= e.value.count - 1
          else if e.value.resetAt - windowMs < from + windowMs then c <= Budget(max) - 1 + e.value.count
          else c <= 2 * Budget(max) - 1)
  }

  lemma {:induction false} EveryPrefixIsBounded(max: int, windowMs: int, times: seq<int>, n: nat, from: int)
    requires n <= |times| && NonDecreasing(times)
    ensures Bounded(max, windowMs, times, n, from)
  {
    if n > 0 {
      EveryPrefixIsBounded(max, windowMs, times, n - 1, from);
      assert times[..n][..n - 1] == times[..n - 1];
      if n > 1 {
        assert times[n - 2] <= times[n - 1];
      }
    }
  }

  /** In the window that call i opens, the counter is the number of calls so far, up to the budget. */
  lemma {:induction false} CountInWindow(max: int, windowMs: int, times: seq<int>, i: nat, j: nat)
    requires i <= j < |times| && NonDecreasing(times) && windowMs > 0
    requires Opens(Solo(max, windowMs, times[..i]), times[i]) && times[j] < times[i] + windowMs
    ensures Solo(max, windowMs, times[..j + 1]) ==
            Some(Entry(if j - i + 1 <= Budget(max) then j - i + 1 else Budget(max), times[i] + windowMs))
    decreases j - i
  {
    assert times[..j + 1][..j] == times[..j];
    if i < j {
      assert times[j - 1] <= times[j];
      CountInWindow(max, windowMs, times, i, j - 1);
    }
  }

  /**
   Exactly the first calls of a window are admitted, as many as the budget: the window opens with a
   call that finds none open, and ends `windowMs` later, where the next call opens another.
   */
  lemma WindowsAdmitTheirBudgetExactly(max: int, windowMs: int, times: seq<int>, i: nat, j: nat)
    requires i <= j < |times| && NonDecreasing(times) && windowMs > 0
    requires i == 0 || times[i] >= times[i - 1] + windowMs || Opens(Solo(max, windowMs, times[..i]), times[i])
    requires j > i ==> times[j - 1] < times[i] + windowMs
    ensures times[j] < times[i] + windowMs ==>
              (Admitted(max, windowMs, times, j) <==> j - i < max || j == i)
    ensures times[j] >= times[i] + windowMs ==>
              Opens(Solo(max, windowMs, times[..j]), times[j]) && Admitted(max, windowMs, times, j)
  {
    if i > 0 {
      EveryPrefixIsBounded(max, windowMs, times, i, times[0]);
    }
    assert Opens(Solo(max, windowMs, times[..i]), times[i]) by {
      if i == 0 { assert times[..0] == []; }
    }
    if i < j {
      CountInWindow(max, windowMs, times, i, j - 1);
    }
  }

  /** Any interval as long as the window admits at most 2·max − 1 calls for one key. */
  lemma AtMostTwoBudgets(max: int, windowMs: int, times: seq<int>, from: int)
    requires NonDecreasing(times)
    ensures AdmittedWithin(max, windowMs, times, |times|, from) <= if max < 1 then 1 else 2 * max - 1
  {
    EveryPrefixIsBounded(max, windowMs, times, |times|, from);
  }

  /** A window opened at 0, filled at its last millisecond, and the next one filled at its first. */
  function Burst(max: nat, windowMs: int): (times: seq<int>)
    ensures |times| == 2 * max
  {
    seq(2 * max, i => if i == 0 then 0 else if i < max then windowMs - 1 else windowMs)
  }

  lemma {:induction false} BurstCounter(max: nat, windowMs: int, n: nat)
    requires max >= 1 && windowMs >= 2 && n <= 2 * max
    ensures Solo(max, windowMs, Burst(max, windowMs)[..n]) ==
            if n == 0 then None
            else if n <= max then Some(Entry(n, windowMs))
            else Some(Entry(n - max, 2 * windowMs))
  {
    if n > 0 {
      BurstCounter(max, windowMs, n - 1);
      assert Burst(max, windowMs)[..n][..n - 1] == Burst(max, windowMs)[..n - 1];
    }
  }

  lemma {:induction false} BurstIsAdmitted(max: nat, windowMs: int, n: nat)
    requires max >= 1 && windowMs >= 2 && n <= 2 * max
    ensures AdmittedWithin(max, windowMs, Burst(max, windowMs), n, windowMs - 1) == if n == 0 then 0 else n - 1
  {
    hide Solo;
    if n > 0 {
      BurstIsAdmitted(max, windowMs, n - 1);
      BurstCounter(max, windowMs, n - 1);
    }
  }

  /** The bound is attained. */
  lemma TwoBudgetsAreReached(max: nat, windowMs: int)
    requires max >= 1 && windowMs >= 2
    ensures exists times, from ::
              (NonDecreasing(times) && AdmittedWithin(max, windowMs, times, |times|, from) == 2 * max - 1)
  {
    BurstIsAdmitted(max, windowMs, 2 * max);
  }

  // ---------------------------------------------------------------------------
  // All keys in one map
  // ---------------------------------------------------------------------------

  datatype Call = Call(key: string, at: int)

  function TimesOf(calls: seq<Call>, key: string): seq<int> {
    if calls == [] then []
    else
      var last := calls[|calls| - 1];
      TimesOf(calls[..|calls| - 1], key) + if last.key == key then [last.at] else []
  }

  lemma TimesSnoc(calls: seq<Call>, c: Call, key: string)
    ensures TimesOf(calls + [c], key) == TimesOf(calls, key) + if c.key == key then [c.at] else []
  {
    assert (calls + [c])[..|calls|] == calls;
  }

  /** The counter the key would have had on its own. */
  function Alone(max: int, windowMs: int, calls: seq<Call>, key: string): Option<Entry> {
    Solo(max, windowMs, TimesOf(calls, key))
  }

  function Lookup(hits: map<string, Entry>, key: string): Option<Entry> {
    if key in hits then Some(hits[key]) else None
  }

  /** Calls in the order of a clock that never goes back. */
  ghost predicate InOrder(calls: seq<Call>, clock: int) {
    && (forall i, j :: 0 <= i < j < |calls| ==> calls[i].at <= calls[j].at)
    && (forall i :: 0 <= i < |calls| ==> calls[i].at <= clock)
  }

  lemma {:induction false} TimesInOrder(calls: seq<Call>, clock: int, key: string)
    requires InOrder(calls, clock)
    ensures NonDecreasing(TimesOf(calls, key))
    ensures forall i :: 0 <= i < |TimesOf(calls, key)| ==> TimesOf(calls, key)[i] <= clock
  {
    if calls != [] {
      var init, last := calls[..|calls| - 1], calls[|calls| - 1];
      TimesInOrder(init, last.at, key);
    }
  }

  /** Over any run of the shared map, no key is admitted more than 2·max − 1 times in a window's length. */
  lemma EveryKeyIsBounded(max: int, windowMs: int, calls: seq<Call>, clock: int, key: string, from: int)
    requires InOrder(calls, clock)
    ensures var times := TimesOf(calls, key);
            AdmittedWithin(max, windowMs, times, |times|, from) <= if max < 1 then 1 else 2 * max - 1
  {
    TimesInOrder(calls, clock, key);
    AtMostTwoBudgets(max, windowMs, TimesOf(calls, key), from);
  }

  /** The limiter's decision on a call is whether that call is admitted among its key's calls. */
  lemma DecisionIsAdmission(max: int, windowMs: int, calls: seq<Call>, key: string, now: int)
    ensures var times := TimesOf(calls + [Call(key, now)], key);
            && |times| == |TimesOf(calls, key)| + 1
            && (Admitted(max, windowMs, times, |times| - 1) <==> Allows(max, Alone(max, windowMs, calls, key), now))
  {
    TimesSnoc(calls, Call(key, now), key);
    var times := TimesOf(calls, key);
    assert (times + [now])[..|times|] == times;
  }

  /** The shared entry is the key's own counter, except that an expired window may be gone. */
  ghost predicate InStep(shared: Option<Entry>, alone: Option<Entry>, clock: int) {
    shared == alone || (shared.None? && alone.value.resetAt <= clock)
  }

  ghost predicate Agree(max: int, windowMs: int, hits: map<string, Entry>, calls: seq<Call>, clock: int) {
    forall key :: InStep(Lookup(hits, key), Alone(max, windowMs, calls, key), clock)
  }

  /** A sweep is invisible: it takes only what no later call would have counted. */
  lemma SweepIsInvisible(max: int, windowMs: int, hits: map<string, Entry>, calls: seq<Call>, clock: int, now: int,
                         swept: map<string, Entry>)
    requires Agree(max, windowMs, hits, calls, clock) && clock <= now
    requires forall key :: Lookup(swept, key) == Lookup(hits, key)
               || (Lookup(swept, key).None? && key in hits && hits[key].resetAt <= now)
    ensures Agree(max, windowMs, swept, calls, now)
  {
    forall key ensures InStep(Lookup(swept, key), Alone(max, windowMs, calls, key), now) {
      assert InStep(Lookup(hits, key), Alone(max, windowMs, calls, key), clock);
    }
  }

  /** Counting a call in the map is counting it on the key's own counter. */
  lemma CountingAgrees(max: int, windowMs: int, hits: map<string, Entry>, calls: seq<Call>, key: string, now: int,
                       counted: map<string, Entry>)
    requires Agree(max, windowMs, hits, calls, now)
    requires counted == hits[key := Next(max, windowMs, Lookup(hits, key), now)]
    ensures Agree(max, windowMs, counted, calls + [Call(key, now)], now)
    ensures Allows(max, Lookup(hits, key), now) == Allows(max, Alone(max, windowMs, calls, key), now)
  {
    assert InStep(Lookup(hits, key), Alone(max, windowMs, calls, key), now);
    forall k ensures InStep(Lookup(counted, k), Alone(max, windowMs, calls + [Call(key, now)], k), now) {
      assert InStep(Lookup(hits, k), Alone(max, windowMs, calls, k), now);
      TimesSnoc(calls, Call(key, now), k);
      var times := TimesOf(calls, k);
      assert (times + [now])[..|times|] == times && times + [] == times;
    }
  }

  class RateLimiter {
    const max: int
    const windowMs: int
    var hits: map<string, Entry>
    /** The time of the last call, and every call so far. */
    ghost var clock: int
    ghost var calls: seq<Call>

    ghost predicate Valid()
      reads this
    {
      Agree(max, windowMs, hits, calls, clock) && InOrder(calls, clock)
    }

    constructor (max: int, windowMs: int, ghost start: int)
      ensures Valid() && this.max == max && this.windowMs == windowMs
      ensures calls == [] && hits == map[] && clock == start
    {
      this.max, this.windowMs := max, windowMs;
      hits, calls, clock := map[], [], start;
    }

    /** Drop the windows that have ended. */
    method Sweep(now: int)
      modifies this`hits
      ensures hits == map key | key in old(hits) && old(hits)[key].resetAt > now :: old(hits)[key]
    {
      var left := hits.Keys;
      ghost var before := hits;
      while left != {}
        invariant left <= before.Keys
        invariant hits == map key | key in before && (key in left || before[key].resetAt > now) :: before[key]
        decreases left
      {
        var key :| key in left;
        if hits[key].resetAt <= now {
          hits := hits - {key};
        }
        left := left - {key};
      }
    }

    /**
     True when the call is allowed. The decision is the one the key's own counter
     makes, whatever other keys did and whenever the map was swept.
     */
    method Consume(key: string, now: int) returns (allowed: bool)
      requires Valid() && clock <= now
      modifies this
      ensures Valid() && clock == now && calls == old(calls) + [Call(key, now)]
      ensures allowed == Allows(max, Alone(max, windowMs, old(calls), key), now)
      ensures var kept := set k | k in old(hits) && (|old(hits)| <= 5000 || old(hits)[k].resetAt > now);
              hits.Keys == kept + {key} && forall k :: k in kept && k != key ==> hits[k] == old(hits)[k]
    {
      hide Solo, Agree, TimesOf;
      ghost var before := hits;
      if |hits| > SWEEP_ABOVE {
        Sweep(now);
      }
      SweepIsInvisible(max, windowMs, before, calls, clock, now, hits);
      CountingAgrees(max, windowMs, hits, calls, key, now, hits[key := Next(max, windowMs, Lookup(hits, key), now)]);
      clock, calls := now, calls + [Call(key, now)];
      if key !in hits || hits[key].resetAt <= now {
        hits := hits[key := Entry(1, now + windowMs)];
        return true;
      }
      if hits[key].count >= max {
        assert hits == hits[key := hits[key]];
        return false;
      }
      hits := hits[key := Entry(hits[key].count + 1, hits[key].resetAt)];
      return true;
    }
  }
}
