/**
 The abortable FIFO semaphore (apps/browser-worker/src/semaphore.ts). Each method is one
 synchronous stretch between awaits: asking for a lease, an abort signal firing, and
 calling a release closure. A request is known by the order in which it was made.
 */
module Semaphore {
  import opened Sequences
  import opened Numbers

  // ---------------------------------------------------------------------------
  // The protocol as a state machine
  // ---------------------------------------------------------------------------

  /** What can happen: a request (its signal perhaps already aborted), an abort, a call of a release closure. */
  datatype Event =
    | Acquire(id: nat, aborted: bool)
    | Abort(id: nat)
    | Release(id: nat)

  /**
   The semaphore's two fields, and the history they are judged by: the requests that
   were admitted in order of arrival, those that aborted while waiting, the leases in
   the order they were granted, and those released.
   */
  datatype State = State(active: int, queue: seq<nat>,
                         arrived: seq<nat>, cancelled: set<nat>, granted: seq<nat>, released: set<nat>)

  const Initial: State := State(0, [], [], {}, [], {})

  function Grant(s: State, id: nat): State {
    s.(active := s.active + 1, granted := s.granted + [id])
  }

  function Without(queue: seq<nat>, id: nat): seq<nat> {
    if queue == [] then []
    else if queue[0] == id then queue[1..]
    else [queue[0]] + Without(queue[1..], id)
  }

  /** A free lease goes to the first waiter. */
  function HandOn(s: State): State {
    if s.queue == [] then s else Grant(s.(queue := s.queue[1..]), s.queue[0])
  }

  /** One step. An event that the closures ignore leaves the state alone. */
  function Step(limit: nat, s: State, e: Event): State {
    match e
    case Acquire(id, aborted) =>
      if aborted || id in s.arrived then s
      else if s.active < limit then Grant(s.(arrived := s.arrived + [id]), id)
      else s.(arrived := s.arrived + [id], queue := s.queue + [id])
    case Abort(id) =>
      if id !in s.queue then s
      else s.(queue := Without(s.queue, id), cancelled := s.cancelled + {id})
    case Release(id) =>
      if id !in s.granted || id in s.released then s
      else
        HandOn(s.(active := s.active - 1, released := s.released + {id}))
  }

  function Run(limit: nat, events: seq<Event>): State {
    if events == [] then Initial
    else Step(limit, Run(limit, events[..|events| - 1]), events[|events| - 1])
  }

  lemma RunGoesOn(limit: nat, events: seq<Event>, e: Event)
    ensures Run(limit, []) == Initial && Run(limit, events + [e]) == Step(limit, Run(limit, events), e)
  {
    hide Step;
    assert (events + [e])[..|events|] == events;
  }

  // ---------------------------------------------------------------------------
  // What every interleaving keeps
  // ---------------------------------------------------------------------------

  /** The requests that did not abort while they waited, in order of arrival. */
  function Survivors(arrived: seq<nat>, cancelled: set<nat>): seq<nat> {
    if arrived == [] then []
    else
      var last := arrived[|arrived| - 1];
      Survivors(arrived[..|arrived| - 1], cancelled) + if last in cancelled then [] else [last]
  }

  function ToSet(s: seq<nat>): set<nat> {
    set x | x in s
  }

  ghost predicate Elements(s: seq<nat>, e: set<nat>) {
    forall x :: x in e ==> x in s
  }

  /** The invariant of every run. */
  ghost predicate Fair(limit: nat, s: State) {
    && s.active <= limit
    && 0 <= s.active && |s.granted| == s.active + |s.released|
    && (s.queue != [] ==> s.active == limit)
    && Distinct(s.arrived)
    && Elements(s.granted, s.released) && Elements(s.arrived, s.cancelled)
    && Survivors(s.arrived, s.cancelled) == s.granted + s.queue
  }

  lemma {:induction false} SurvivorsAreSome(arrived: seq<nat>, cancelled: set<nat>)
    requires Distinct(arrived)
    ensures Distinct(Survivors(arrived, cancelled))
    ensures forall x :: x in Survivors(arrived, cancelled) <==> x in arrived && x !in cancelled
  {
    if arrived != [] {
      var init, last := arrived[..|arrived| - 1], arrived[|arrived| - 1];
      SurvivorsAreSome(init, cancelled);
      assert arrived == init + [last];
      assert last !in init;
    }
  }

  lemma {:induction false} WithoutAbsent(queue: seq<nat>, id: nat)
    requires id !in queue
    ensures Without(queue, id) == queue
  {
    if queue != [] { WithoutAbsent(queue[1..], id); }
  }

  lemma {:induction false} WithoutInFirst(a: seq<nat>, b: seq<nat>, id: nat)
    requires id in a
    ensures Without(a + b, id) == Without(a, id) + b
  {
    var tail := a[1..];
    assert (a + b)[1..] == tail + b && (a + b)[0] == a[0];
    if a[0] != id {
      assert a == [a[0]] + tail;
      WithoutInFirst(tail, b, id);
      assert [a[0]] + (Without(tail, id) + b) == ([a[0]] + Without(tail, id)) + b;
    }
  }

  lemma {:induction false} WithoutInSecond(a: seq<nat>, b: seq<nat>, id: nat)
    requires id !in a
    ensures Without(a + b, id) == a + Without(b, id)
  {
    if a == [] {
      assert a + b == b;
      assert a + Without(b, id) == Without(b, id);
    } else {
      var tail := a[1..];
      assert (a + b)[1..] == tail + b && (a + b)[0] == a[0];
      WithoutInSecond(tail, b, id);
      assert [a[0]] + (tail + Without(b, id)) == a + Without(b, id);
    }
  }

  lemma WithoutAppend(a: seq<nat>, b: seq<nat>, id: nat)
    ensures Without(a + b, id) == if id in a then Without(a, id) + b else a + Without(b, id)
  {
    hide Without;
    if id in a {
      WithoutInFirst(a, b, id);
    } else {
      WithoutInSecond(a, b, id);
    }
  }

  /** Cancelling one request takes it, and only it, out of the survivors. */
  lemma {:induction false} CancelOne(arrived: seq<nat>, cancelled: set<nat>, id: nat)
    requires Distinct(arrived)
    ensures Survivors(arrived, cancelled + {id}) == Without(Survivors(arrived, cancelled), id)
  {
    if arrived != [] {
      var init, last := arrived[..|arrived| - 1], arrived[|arrived| - 1];
      var before := Survivors(init, cancelled);
      CancelOne(init, cancelled, id);
      SurvivorsAreSome(init, cancelled);
      CancelLast(before, last, id, cancelled);
    }
  }

  lemma CancelLast(before: seq<nat>, last: nat, id: nat, cancelled: set<nat>)
    requires last !in before
    ensures Without(before, id) + (if last in cancelled + {id} then [] else [last])
         == Without(before + (if last in cancelled then [] else [last]), id)
  {
    var tail: seq<nat> := if last in cancelled then [] else [last];
    WithoutAppend(before, tail, id);
    if id !in before {
      WithoutAbsent(before, id);
    }
    assert Without([last], id) == if last == id then [] else [last];
  }

  /** Those who wait have not been granted, and nobody is granted twice. */
  lemma WaitingIsUngranted(limit: nat, s: State)
    requires Fair(limit, s)
    ensures Distinct(s.granted) && forall x :: x in s.queue ==> x !in s.granted
    ensures forall x :: x in s.granted ==> x in s.arrived
  {
    SurvivorsAreSome(s.arrived, s.cancelled);
    var all := s.granted + s.queue;
    assert forall i :: 0 <= i < |s.granted| ==> all[i] == s.granted[i];
    assert forall j :: 0 <= j < |s.queue| ==> all[|s.granted| + j] == s.queue[j];
  }

  lemma AcquireKeepsFair(limit: nat, s: State, id: nat, aborted: bool)
    requires Fair(limit, s)
    ensures Fair(limit, Step(limit, s, Acquire(id, aborted)))
  {
    if !aborted && id !in s.arrived {
      var arrived := s.arrived + [id];
      assert arrived[..|s.arrived|] == s.arrived;
      assert Survivors(arrived, s.cancelled) == s.granted + s.queue + [id];
      if s.active < limit {
        assert s.granted + s.queue + [id] == (s.granted + [id]) + [];
      }
    }
  }

  lemma AbortKeepsFair(limit: nat, s: State, id: nat)
    requires Fair(limit, s)
    ensures Fair(limit, Step(limit, s, Abort(id)))
  {
    if id in s.queue {
      WaitingIsUngranted(limit, s);
      CancelOne(s.arrived, s.cancelled, id);
      WithoutAppend(s.granted, s.queue, id);
      SurvivorsAreSome(s.arrived, s.cancelled);
      assert id in s.granted + s.queue;
    }
  }

  lemma ReleaseKeepsFair(limit: nat, s: State, id: nat)
    requires Fair(limit, s)
    ensures Fair(limit, Step(limit, s, Release(id)))
  {
    if id in s.granted && id !in s.released {
      WaitingIsUngranted(limit, s);
      FewReleased(s, id);
      if s.queue != [] {
        assert s.granted + s.queue == (s.granted + [s.queue[0]]) + s.queue[1..];
      }
    }
  }

  lemma ReleaseFrees(limit: nat, s: State, id: nat)
    requires Fair(limit, s) && id in s.granted && id !in s.released
    ensures Fair(limit, Step(limit, s, Release(id)))
    ensures Step(limit, s, Release(id)) == HandOn(s.(active := s.active - 1, released := s.released + {id}))
    ensures forall x :: x in s.queue ==> x !in s.granted && x !in s.released
  {
    ReleaseKeepsFair(limit, s, id);
    WaitingIsUngranted(limit, s);
    assert Elements(s.granted, s.released);
  }

  /** A lease that is granted and not released is one of the active ones. */
  lemma FewReleased(s: State, id: nat)
    requires Elements(s.granted, s.released) && Distinct(s.granted)
    requires id in s.granted && id !in s.released
    ensures |s.released| < |s.granted|
  {
    DistinctSize(s.granted);
    var all := ToSet(s.granted);
    assert s.released + {id} <= all;
    SubsetSize(s.released + {id}, all);
  }

  lemma DistinctSize(s: seq<nat>)
    requires Distinct(s)
    ensures |ToSet(s)| == |s|
  {
    if s != [] {
      var init, last := s[..|s| - 1], s[|s| - 1];
      DistinctSize(init);
      assert s == init + [last];
      assert ToSet(s) == ToSet(init) + {last};
    }
  }

  lemma SubsetSize(a: set<nat>, b: set<nat>)
    requires a <= b
    ensures |a| <= |b|
  {
    assert b == a + (b - a);
  }

  /** In every interleaving of requests, aborts and (double) releases the semaphore stays fair. */
  lemma {:induction false} EveryRunIsFair(limit: nat, events: seq<Event>)
    ensures Fair(limit, Run(limit, events))
  {
    if events != [] {
      EveryRunIsFair(limit, events[..|events| - 1]);
      var s := Run(limit, events[..|events| - 1]);
      match events[|events| - 1] {
        case Acquire(id, aborted) => AcquireKeepsFair(limit, s, id, aborted);
        case Abort(id) => AbortKeepsFair(limit, s, id);
        case Release(id) => ReleaseKeepsFair(limit, s, id);
      }
    }
  }

  /**
   Who holds a lease is settled by arrival order alone: after any run the grants are
   the first survivors, as many as the limit and the releases so far allow.
   */
  lemma GrantsAreTheFirstSurvivors(limit: nat, events: seq<Event>)
    ensures var s := Run(limit, events);
            var survivors := Survivors(s.arrived, s.cancelled);
            s.granted == survivors[..Min(|survivors|, limit + |s.released|)]
  {
    EveryRunIsFair(limit, events);
    var s := Run(limit, events);
    hide Run, Survivors;
    assert s.granted == (s.granted + s.queue)[..|s.granted|];
  }

  /** The leases out are those granted and not released, and never more than the limit. */
  lemma ActiveCountsLeases(limit: nat, events: seq<Event>)
    ensures var s := Run(limit, events);
            s.active == |ToSet(s.granted) - s.released| <= limit
  {
    EveryRunIsFair(limit, events);
    var s := Run(limit, events);
    hide Run, Survivors;
    WaitingIsUngranted(limit, s);
    DistinctSize(s.granted);
    var all := ToSet(s.granted);
    assert s.released <= all;
    assert all == s.released + (all - s.released);
  }

  /** No lost wake-up: a request waits only while every lease is out. */
  lemma NoLostWakeup(limit: nat, events: seq<Event>)
    ensures Run(limit, events).queue != [] ==> Run(limit, events).active == limit
  {
    EveryRunIsFair(limit, events);
  }

  /** A second call of the same release closure does nothing. */
  lemma DoubleReleaseIsIgnored(limit: nat, s: State, id: nat)
    ensures Step(limit, Step(limit, s, Release(id)), Release(id)) == Step(limit, s, Release(id))
  {
  }

  // ---------------------------------------------------------------------------
  // The class
  // ---------------------------------------------------------------------------

  class Semaphore {
    const limit: nat
    var active: int
    var queue: seq<nat>
    /** The `released` flag of every lease handed out. */
    var leases: map<nat, bool>
    var requests: nat
    ghost var history: State

    ghost predicate Valid()
      reads this
    {
      && Fair(limit, history)
      && active == history.active && queue == history.queue
      && (forall id :: id in leases <==> id in history.granted)
      && (forall id :: id in leases ==> (leases[id] <==> id in history.released))
      && (forall id :: id in history.arrived ==> id < requests)
    }

    constructor (limit: nat)
      ensures Valid() && this.limit == limit && history == Initial
    {
      this.limit := limit;
      active, queue, leases, requests, history := 0, [], map[], 0, Initial;
      new;
      EveryRunIsFair(limit, []);
    }

    /** Ask for a lease. An aborted signal is refused at once; otherwise the request is granted or waits. */
    method Acquire(aborted: bool) returns (id: nat, refused: bool)
      requires Valid()
      modifies this
      ensures Valid() && refused == aborted && id !in old(history).arrived
      ensures history == Step(limit, old(history), Event.Acquire(id, aborted))
    {
      id, refused := requests, aborted;
      AcquireKeepsFair(limit, history, id, aborted);
      WaitingIsUngranted(limit, history);
      history := Step(limit, history, Event.Acquire(id, aborted));
      if aborted {
        return;
      }
      requests := requests + 1;
      if active < limit {
        active := active + 1;
        leases := leases[id := false];
      } else {
        queue := queue + [id];
      }
    }

    /** The signal of a request fires. Only a waiting request listens. */
    method Abort(id: nat) returns (rejected: bool)
      requires Valid()
      modifies this
      ensures Valid() && rejected == (id in old(history).queue)
      ensures history == Step(limit, old(history), Event.Abort(id))
    {
      AbortKeepsFair(limit, history, id);
      history := Step(limit, history, Event.Abort(id));
      var index := 0;
      while index < |queue|
        invariant 0 <= index <= |queue|
        invariant id !in queue[..index]
      {
        if queue[index] == id {
          WithoutAt(queue, index);
          queue := queue[..index] + queue[index + 1..];
          return true;
        }
        index := index + 1;
      }
      return false;
    }

    /** Call the release closure of a lease. */
    method Release(id: nat)
      requires Valid()
      requires id in leases
      modifies this
      ensures Valid()
      ensures history == Step(limit, old(history), Event.Release(id))
    {
      if leases[id] {
        return;
      }
      Free(id);
    }

    /** The lease is given back, or handed on to the first waiter. */
    method Free(id: nat)
      requires Valid() && id in leases && !leases[id]
      modifies this
      ensures Valid()
      ensures history == Step(limit, old(history), Event.Release(id))
    {
      hide Fair, Step;
      ReleaseFrees(limit, history, id);
      history := Step(limit, history, Event.Release(id));
      leases := leases[id := true];
      active := active - 1;
      if queue != [] {
        var next := queue[0];
        queue := queue[1..];
        active := active + 1;
        leases := leases[next := false];
      }
    }
  }

  lemma WithoutAt(queue: seq<nat>, index: nat)
    requires index < |queue| && queue[index] !in queue[..index]
    ensures Without(queue, queue[index]) == queue[..index] + queue[index + 1..]
  {
    WithoutAppend(queue[..index], queue[index..], queue[index]);
    assert queue == queue[..index] + queue[index..];
  }
}
