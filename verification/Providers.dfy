/**
 Sharing one page of offers fairly among sources, and counting what was left out
 (packages/agent-core/src/providers.ts).
 */
module Providers {
  import opened Wrappers
  import opened Sequences
  import opened Numbers

  const MAX_OFFERS_PER_SEARCH: nat := 6
  const MAX_FLEXIBLE_FLIGHT_OFFERS: nat := 24

  // ---------------------------------------------------------------------------
  // The order of taking turns
  // ---------------------------------------------------------------------------

  /** One item: the group it comes from and its place there. */
  datatype Pick = Pick(group: nat, place: nat)

  function MaxLength<T>(groups: seq<seq<T>>): nat {
    if groups == [] then 0
    else if |groups[0]| > MaxLength(groups[1..]) then |groups[0]|
    else MaxLength(groups[1..])
  }

  /** Everything from place `i` of group `g` on, one item of each group at a time. */
  function Turns<T>(groups: seq<seq<T>>, i: nat, g: nat): seq<Pick>
    requires g <= |groups|
    decreases MaxLength(groups) - i, |groups| - g
  {
    if g < |groups| then (if i < |groups[g]| then [Pick(g, i)] else []) + Turns(groups, i, g + 1)
    else if i + 1 < MaxLength(groups) then Turns(groups, i + 1, 0)
    else []
  }

  /** How many items of a group come before place `i` of group `g`. */
  function Before<T>(groups: seq<seq<T>>, i: nat, g: nat, h: nat): nat
    requires h < |groups|
  {
    var upTo := if h < g then i + 1 else i;
    if |groups[h]| < upTo then |groups[h]| else upTo
  }

  /** The places taken from one group, in the order they were taken. */
  function Taken(picks: seq<Pick>, h: nat): seq<nat> {
    if picks == [] then []
    else (if picks[0].group == h then [picks[0].place] else []) + Taken(picks[1..], h)
  }

  function Range(from: nat, to: nat): seq<nat>
    decreases to - from
  {
    if from >= to then [] else [from] + Range(from + 1, to)
  }

  lemma {:induction false} RangeLength(from: nat, to: nat)
    ensures |Range(from, to)| == (if from >= to then 0 else to - from)
    decreases if from >= to then 0 else to - from
  {
    if from < to {
      RangeLength(from + 1, to);
    }
  }

  lemma {:induction false} LengthsAreBounded<T>(groups: seq<seq<T>>, h: nat)
    requires h < |groups|
    ensures |groups[h]| <= MaxLength(groups)
  {
    if h > 0 {
      LengthsAreBounded(groups[1..], h - 1);
    }
  }

  /** The turn that comes after the next `n` picks. */
  function StopOf<T>(groups: seq<seq<T>>, i: nat, g: nat, n: nat): (stop: (nat, nat))
    requires g <= |groups| && n <= |Turns(groups, i, g)|
    ensures stop.1 <= |groups|
    decreases MaxLength(groups) - i, |groups| - g
  {
    if n == 0 then (i, g)
    else if g < |groups| then StopOf(groups, i, g + 1, if i < |groups[g]| then n - 1 else n)
    else StopOf(groups, i + 1, 0, n)
  }

  lemma BeforeNext<T>(groups: seq<seq<T>>, i: nat, g: nat, h: nat)
    requires g <= |groups| && h < |groups|
    ensures g < |groups| ==>
      Before(groups, i, g + 1, h) == Before(groups, i, g, h) + if h == g && i < |groups[g]| then 1 else 0
    ensures g < |groups| && i < |groups[g]| ==> Before(groups, i, g, g) == i
    ensures Before(groups, i, |groups|, h) == Before(groups, i + 1, 0, h)
  {
  }

  lemma TakenOfOneMore(p: Pick, picks: seq<Pick>, h: nat)
    ensures Taken([p] + picks, h) == (if p.group == h then [p.place] else []) + Taken(picks, h)
  {
    assert ([p] + picks)[1..] == picks;
  }

  /**
   Taking turns may stop anywhere: each group has given all its items between where it started and
   where the next turn stands.
   */
  lemma {:induction false} StopsAtATurn<T>(groups: seq<seq<T>>, i: nat, g: nat, n: nat, h: nat)
    requires g <= |groups| && n <= |Turns(groups, i, g)| && h < |groups|
    ensures var stop := StopOf(groups, i, g, n);
            && Before(groups, i, g, h) <= Before(groups, stop.0, stop.1, h)
            && Taken(Turns(groups, i, g)[..n], h) == Range(Before(groups, i, g, h), Before(groups, stop.0, stop.1, h))
    decreases MaxLength(groups) - i, |groups| - g
  {
    hide MaxLength, Before;
    BeforeNext(groups, i, g, h);
    var all := Turns(groups, i, g);
    if n == 0 {
      assert all[..0] == [];
    } else if g < |groups| {
      var rest := Turns(groups, i, g + 1);
      if i < |groups[g]| {
        StopsAtATurn(groups, i, g + 1, n - 1, h);
        TakeOneMore(Pick(g, i), rest, n);
        TakenOfOneMore(Pick(g, i), rest[..n - 1], h);
      } else {
        assert all == rest;
        StopsAtATurn(groups, i, g + 1, n, h);
      }
    } else {
      StopsAtATurn(groups, i + 1, 0, n, h);
    }
  }

  // ---------------------------------------------------------------------------
  // How many turns there are
  // ---------------------------------------------------------------------------

  function Total<T>(groups: seq<seq<T>>, m: nat): nat
    requires m <= |groups|
  {
    if m == 0 then 0 else Total(groups, m - 1) + |groups[m - 1]|
  }

  function BeforeAll<T>(groups: seq<seq<T>>, i: nat, g: nat, m: nat): nat
    requires m <= |groups|
  {
    if m == 0 then 0 else BeforeAll(groups, i, g, m - 1) + Before(groups, i, g, m - 1)
  }

  lemma {:induction false} OneTurnLater<T>(groups: seq<seq<T>>, i: nat, g: nat, m: nat)
    requires m <= |groups|
    ensures BeforeAll(groups, i, g + 1, m) == BeforeAll(groups, i, g, m) + if g < m && i < |groups[g]| then 1 else 0
  {
    if m > 0 {
      OneTurnLater(groups, i, g, m - 1);
    }
  }

  lemma {:induction false} OneRoundLater<T>(groups: seq<seq<T>>, i: nat, m: nat)
    requires m <= |groups|
    ensures BeforeAll(groups, i, |groups|, m) == BeforeAll(groups, i + 1, 0, m)
    ensures BeforeAll(groups, 0, 0, m) == 0
    ensures MaxLength(groups) <= i + 1 ==> BeforeAll(groups, i, |groups|, m) == Total(groups, m)
  {
    if m > 0 {
      OneRoundLater(groups, i, m - 1);
      LengthsAreBounded(groups, m - 1);
    }
  }

  lemma {:induction false} TurnsLeft<T>(groups: seq<seq<T>>, i: nat, g: nat)
    requires g <= |groups|
    ensures |Turns(groups, i, g)| + BeforeAll(groups, i, g, |groups|) == Total(groups, |groups|)
    decreases MaxLength(groups) - i, |groups| - g
  {
    hide MaxLength, BeforeAll, Total;
    if g < |groups| {
      OneTurnLater(groups, i, g, |groups|);
      TurnsLeft(groups, i, g + 1);
    } else {
      OneRoundLater(groups, i, |groups|);
      if i + 1 < MaxLength(groups) {
        TurnsLeft(groups, i + 1, 0);
      }
    }
  }

  // ---------------------------------------------------------------------------
  // The shared page
  // ---------------------------------------------------------------------------

  predicate IsPick<T>(groups: seq<seq<T>>, p: Pick) {
    p.group < |groups| && p.place < |groups[p.group]|
  }

  ghost predicate ArePicks<T>(groups: seq<seq<T>>, picks: seq<Pick>) {
    forall n :: 0 <= n < |picks| ==> IsPick(groups, picks[n])
  }

  lemma {:induction false} TurnsArePicks<T>(groups: seq<seq<T>>, i: nat, g: nat)
    requires g <= |groups|
    ensures ArePicks(groups, Turns(groups, i, g))
    decreases MaxLength(groups) - i, |groups| - g
  {
    hide MaxLength;
    if g < |groups| {
      TurnsArePicks(groups, i, g + 1);
    } else if i + 1 < MaxLength(groups) {
      TurnsArePicks(groups, i + 1, 0);
    }
  }

  ghost function Items<T>(groups: seq<seq<T>>, picks: seq<Pick>): seq<T>
    requires ArePicks(groups, picks)
  {
    seq(|picks|, n requires 0 <= n < |picks| => groups[picks[n].group][picks[n].place])
  }

  /** The turns that fit on a page. */
  function FirstTurns<T>(groups: seq<seq<T>>, limit: nat): seq<Pick> {
    var all := Turns(groups, 0, 0);
    all[..Min(limit, |all|)]
  }

  /**
   The page is full or holds everything; each group gives a prefix of its own; none is more than
   one ahead of a group that still has items.
   */
  lemma PageIsFair<T>(groups: seq<seq<T>>, limit: nat)
    ensures var picks := FirstTurns(groups, limit);
            && |picks| == Min(limit, Total(groups, |groups|)) && ArePicks(groups, picks)
            && (forall h :: 0 <= h < |groups| ==> (
                  && |Taken(picks, h)| <= |groups[h]|
                  && Taken(picks, h) == Range(0, |Taken(picks, h)|)))
            && (forall h, k :: 0 <= h < |groups| && 0 <= k < |groups| ==> (
                  |Taken(picks, h)| <= |Taken(picks, k)| + 1 || |Taken(picks, k)| == |groups[k]|))
  {
    hide Turns, Taken, Range, MaxLength, BeforeAll, Total, StopOf;
    TurnsArePicks(groups, 0, 0);
    TurnsLeft(groups, 0, 0);
    OneRoundLater(groups, 0, |groups|);
    var picks := FirstTurns(groups, limit);
    var (j, k) := StopOf(groups, 0, 0, |picks|);
    forall h | 0 <= h < |groups|
      ensures |Taken(picks, h)| == Before(groups, j, k, h) && Taken(picks, h) == Range(0, Before(groups, j, k, h))
    {
      StopsAtATurn(groups, 0, 0, |picks|, h);
      RangeLength(0, Before(groups, j, k, h));
    }
  }

  lemma {:induction false} NothingLeft<T>(groups: seq<seq<T>>, i: nat, g: nat)
    requires g <= |groups| && MaxLength(groups) <= i
    ensures Turns(groups, i, g) == []
    decreases |groups| - g
  {
    if g < |groups| {
      LengthsAreBounded(groups, g);
      NothingLeft(groups, i, g + 1);
    }
  }

  lemma NextRound<T>(groups: seq<seq<T>>, i: nat)
    ensures Turns(groups, i, |groups|) == Turns(groups, i + 1, 0)
  {
    if i + 1 >= MaxLength(groups) {
      NothingLeft(groups, i + 1, 0);
    }
  }

  lemma {:induction false} ShorterThan<T>(groups: seq<seq<T>>, i: nat)
    requires forall h :: 0 <= h < |groups| ==> |groups[h]| <= i
    ensures MaxLength(groups) <= i
  {
    if groups != [] {
      assert forall h :: 0 <= h < |groups[1..]| ==> groups[1..][h] == groups[h + 1];
      ShorterThan(groups[1..], i);
    }
  }

  method RoundRobin<T>(groups: seq<seq<T>>, limit: nat) returns (results: seq<T>)
    ensures ArePicks(groups, FirstTurns(groups, limit))
    ensures results == Items(groups, FirstTurns(groups, limit))
  {
    hide Turns, MaxLength;
    results := [];
    var index := 0;
    ghost var picks: seq<Pick> := [];
    TurnsArePicks(groups, 0, 0);
    while |results| < limit
      invariant ArePicks(groups, picks) && results == Items(groups, picks)
      invariant |picks| <= limit
      invariant Turns(groups, 0, 0) == picks + Turns(groups, index, 0)
      decreases MaxLength(groups) - index
    {
      var found := false;
      for g := 0 to |groups|
        invariant ArePicks(groups, picks) && results == Items(groups, picks)
        invariant |picks| < limit
        invariant Turns(groups, 0, 0) == picks + Turns(groups, index, g)
        invariant found ==> index < MaxLength(groups)
        invariant !found ==> forall h :: 0 <= h < g ==> |groups[h]| <= index
      {
        OneTurn(groups, index, g);
        if index < |groups[g]| {
          LengthsAreBounded(groups, g);
          results := results + [groups[g][index]];
          picks := picks + [Pick(g, index)];
          found := true;
          if |results| >= limit {
            return;
          }
        }
      }
      NextRound(groups, index);
      if !found {
        ShorterThan(groups, index);
        NothingLeft(groups, index, |groups|);
        return;
      }
      index := index + 1;
    }
  }

  lemma OneTurn<T>(groups: seq<seq<T>>, i: nat, g: nat)
    requires g < |groups|
    ensures Turns(groups, i, g) == (if i < |groups[g]| then [Pick(g, i)] else []) + Turns(groups, i, g + 1)
  {
  }

  // ---------------------------------------------------------------------------
  // What one source sent
  // ---------------------------------------------------------------------------

  datatype Source = Source(providerId: string, ok: bool, offerCount: nat, dropped: nat, limited: nat)

  /** An adapter's answer: nothing, or raw offers and how many it could not even pass on. */
  datatype Outcome<R> = Unanswered | Sent(offers: seq<R>, dropped: nat)

  datatype Attempt<T> = Attempt(source: Source, offers: seq<T>)

  function Parsed<R, T>(parse: R -> Option<T>, raws: seq<R>): seq<T> {
    if raws == [] then []
    else
      var last := match parse(raws[|raws| - 1]) { case Some(offer) => [offer] case None => [] };
      Parsed(parse, raws[..|raws| - 1]) + last
  }

  /** Places in a list, from first to last. */
  ghost predicate ArePlaces(at: seq<nat>, n: nat) {
    && (forall k :: 0 <= k < |at| ==> at[k] < n)
    && (forall j, k :: 0 <= j < k < |at| ==> at[j] < at[k])
  }

  lemma OneMorePlace(at: seq<nat>, n: nat)
    requires ArePlaces(at, n)
    ensures ArePlaces(at, n + 1) && ArePlaces(at + [n], n + 1)
    ensures forall i :: 0 <= i < n + 1 ==> (i in at + [n] <==> i in at || i == n)
  {
  }

  /** What can be drawn from a list, item by item, are these values, from these places and in this order. */
  ghost predicate AreDrawn<R, T>(draw: R -> Option<T>, list: seq<R>, drawn: seq<T>, at: seq<nat>) {
    && ArePlaces(at, |list|) && |drawn| == |at|
    && (forall k :: 0 <= k < |at| ==> draw(list[at[k]]) == Some(drawn[k]))
    && (forall i :: 0 <= i < |list| ==> (i in at <==> draw(list[i]).Some?))
  }

  lemma OneMoreDrawn<R, T>(draw: R -> Option<T>, list: seq<R>, drawn: seq<T>, at: seq<nat>, item: R)
    requires AreDrawn(draw, list, drawn, at)
    ensures draw(item).None? ==> AreDrawn(draw, list + [item], drawn, at)
    ensures draw(item).Some? ==> AreDrawn(draw, list + [item], drawn + [draw(item).value], at + [|list|])
  {
    OneMorePlace(at, |list|);
  }

  /** What is parsed are the valid offers, in the order they were sent. */
  lemma {:induction false} ValidOffersInOrder<R, T>(parse: R -> Option<T>, raws: seq<R>) returns (at: seq<nat>)
    ensures AreDrawn(parse, raws, Parsed(parse, raws), at)
  {
    at := [];
    if raws != [] {
      var n: nat := |raws| - 1;
      at := ValidOffersInOrder(parse, raws[..n]);
      OneMoreDrawn(parse, raws[..n], Parsed(parse, raws[..n]), at, raws[n]);
      hide AreDrawn;
      SplitLast(raws);
      if parse(raws[n]).Some? {
        at := at + [n];
      } else {
        assert Parsed(parse, raws) == Parsed(parse, raws[..n]);
      }
    }
  }

  function SentBy<R>(outcome: Outcome<R>): nat {
    if outcome.Sent? then |outcome.offers| + outcome.dropped else 0
  }

  function Accounted(source: Source): nat {
    source.offerCount + source.dropped + source.limited
  }

  /** What a source shows of what it sent: its first valid offers. */
  function ShownOf<R, T>(parse: R -> Option<T>, outcome: Outcome<R>): seq<T> {
    if outcome.Unanswered? then []
    else
      var valid := Parsed(parse, outcome.offers);
      valid[..Min(MAX_OFFERS_PER_SEARCH, |valid|)]
  }

  /** A source's counts: what it shows, what is over the limit, and the rest. */
  predicate CountsOutcome<R, T>(source: Source, providerId: string, outcome: Outcome<R>, parse: R -> Option<T>) {
    && source.providerId == providerId && source.ok == outcome.Sent?
    && source.offerCount == |ShownOf(parse, outcome)|
    && source.limited == (if outcome.Sent? then |Parsed(parse, outcome.offers)| - source.offerCount else 0)
    && Accounted(source) == SentBy(outcome)
  }

  /** The first valid offers are shown, further valid ones are limited, the rest are dropped; nothing goes missing. */
  method SearchOneProvider<R, T>(providerId: string, outcome: Outcome<R>, parse: R -> Option<T>) returns (a: Attempt<T>)
    ensures a.offers == ShownOf(parse, outcome) && CountsOutcome(a.source, providerId, outcome, parse)
    ensures outcome.Unanswered? ==> a == Attempt(Source(providerId, false, 0, 0, 0), [])
    ensures outcome.Sent? ==>
      var valid := Parsed(parse, outcome.offers);
      && a.offers == valid[..Min(6, |valid|)]
      && a.source.providerId == providerId && a.source.ok && a.source.offerCount == |a.offers|
      && a.source.limited == |valid| - |a.offers|
      && a.source.dropped == |outcome.offers| - |valid| + outcome.dropped
  {
    var source := Source(providerId, false, 0, 0, 0);
    if outcome.Unanswered? {
      return Attempt(source, []);
    }
    source := source.(ok := true, dropped := outcome.dropped);
    var offers := [];
    ghost var valid: seq<T> := [];
    for i := 0 to |outcome.offers|
      invariant valid == Parsed(parse, outcome.offers[..i])
      invariant offers == valid[..Min(MAX_OFFERS_PER_SEARCH, |valid|)]
      invariant source.providerId == providerId && source.ok && source.offerCount == 0
      invariant source.limited == |valid| - |offers|
      invariant |offers| + source.dropped + source.limited == i + outcome.dropped
    {
      assert outcome.offers[..i + 1][..i] == outcome.offers[..i];
      match parse(outcome.offers[i]) {
        case None => source := source.(dropped := source.dropped + 1);
        case Some(offer) =>
          valid := valid + [offer];
          if |offers| >= MAX_OFFERS_PER_SEARCH {
            source := source.(limited := source.limited + 1);
          } else {
            offers := offers + [offer];
          }
      }
    }
    assert outcome.offers[..|outcome.offers|] == outcome.offers;
    a := Attempt(source.(offerCount := |offers|), offers);
  }

  // ---------------------------------------------------------------------------
  // One search
  // ---------------------------------------------------------------------------

  datatype SearchResult<T> = NotFound | Found(sources: seq<Source>, offers: seq<T>, dropped: nat, limited: nat)

  /** Everything a result accounts for: shown, left out by a limit, or not usable. */
  function Handled<T>(r: SearchResult<T>): nat {
    if r.Found? then |r.offers| + r.limited + r.dropped else 0
  }

  function AllSent<R>(outcomes: seq<Outcome<R>>): nat {
    if outcomes == [] then 0 else AllSent(outcomes[..|outcomes| - 1]) + SentBy(outcomes[|outcomes| - 1])
  }

  function SumDropped(sources: seq<Source>): nat {
    if sources == [] then 0 else SumDropped(sources[..|sources| - 1]) + sources[|sources| - 1].dropped
  }

  function SumLimited(sources: seq<Source>): nat {
    if sources == [] then 0 else SumLimited(sources[..|sources| - 1]) + sources[|sources| - 1].limited
  }

  function SumShown(sources: seq<Source>): nat {
    if sources == [] then 0 else SumShown(sources[..|sources| - 1]) + sources[|sources| - 1].offerCount
  }

  lemma {:induction false} TotalGrows<T>(groups: seq<seq<T>>, group: seq<T>, m: nat)
    requires m <= |groups|
    ensures Total(groups + [group], m) == Total(groups, m)
    ensures m == |groups| ==> Total(groups + [group], m + 1) == Total(groups, m) + |group|
  {
    if m > 0 {
      TotalGrows(groups, group, m - 1);
    }
  }

  /** The page never holds more than there is. */
  lemma PageLength<T>(groups: seq<seq<T>>, limit: nat)
    ensures |FirstTurns(groups, limit)| == Min(limit, Total(groups, |groups|))
  {
    PageIsFair(groups, limit);
  }

  /** The offers of each source that answered, in the order of the sources. */
  function Groups<R, T>(parse: R -> Option<T>, outcomes: seq<Outcome<R>>): seq<seq<T>> {
    if outcomes == [] then []
    else
      var last := outcomes[|outcomes| - 1];
      Groups(parse, outcomes[..|outcomes| - 1]) + if last.Sent? then [ShownOf(parse, last)] else []
  }

  /** Each source that answered has its group, in the order of the sources. */
  lemma {:induction false} GroupsInOrder<R, T>(parse: R -> Option<T>, outcomes: seq<Outcome<R>>) returns (at: seq<nat>)
    ensures AreDrawn((o: Outcome<R>) => if o.Sent? then Some(ShownOf(parse, o)) else None, outcomes,
                     Groups(parse, outcomes), at)
  {
    hide ShownOf;
    at := [];
    if outcomes != [] {
      var n: nat := |outcomes| - 1;
      var group := (o: Outcome<R>) => if o.Sent? then Some(ShownOf(parse, o)) else None;
      at := GroupsInOrder(parse, outcomes[..n]);
      OneMoreDrawn(group, outcomes[..n], Groups(parse, outcomes[..n]), at, outcomes[n]);
      hide AreDrawn;
      SplitLast(outcomes);
      if outcomes[n].Sent? {
        at := at + [n];
      } else {
        assert Groups(parse, outcomes) == Groups(parse, outcomes[..n]);
      }
    }
  }

  /** The page of a result is the fair one of these groups. */
  ghost predicate ShowsFairPage<T>(offers: seq<T>, groups: seq<seq<T>>, limit: nat) {
    ArePicks(groups, FirstTurns(groups, limit)) && offers == Items(groups, FirstTurns(groups, limit))
  }

  /** A search that found a source shows a fair page, and accounts for everything every source sent. */
  method Search<R, T>(providerIds: seq<string>, outcomes: seq<Outcome<R>>, parse: R -> Option<T>)
    returns (r: SearchResult<T>)
    requires |providerIds| == |outcomes|
    ensures r.Found? <==> exists i :: 0 <= i < |outcomes| && outcomes[i].Sent?
    ensures Handled(r) == AllSent(outcomes)
    ensures r.Found? ==> ShowsFairPage(r.offers, Groups(parse, outcomes), 6)
    ensures r.Found? ==>
      && |r.sources| == |outcomes| && r.dropped == SumDropped(r.sources)
      && forall i :: 0 <= i < |outcomes| ==> CountsOutcome(r.sources[i], providerIds[i], outcomes[i], parse)
  {
    hide ShowsFairPage, CountsOutcome, Groups, AllSent, SumDropped, SumLimited, SumShown, FirstTurns, Total;
    var sources, groups := SearchEach(providerIds, outcomes, parse);
    SomebodyAnswered(parse, outcomes);
    if groups == [] {
      return NotFound;
    }
    var offers := FairPage(groups, MAX_OFFERS_PER_SEARCH);
    r := Found(sources, offers, SumDropped(sources), SumLimited(sources) + SumShown(sources) - |offers|);
  }

  /** A page, and how long it is. */
  method FairPage<T>(groups: seq<seq<T>>, limit: nat) returns (offers: seq<T>)
    ensures ShowsFairPage(offers, groups, limit) && |offers| == Min(limit, Total(groups, |groups|))
  {
    offers := RoundRobin(groups, limit);
    PageLength(groups, limit);
  }

  method SearchEach<R, T>(providerIds: seq<string>, outcomes: seq<Outcome<R>>, parse: R -> Option<T>)
    returns (sources: seq<Source>, groups: seq<seq<T>>)
    requires |providerIds| == |outcomes|
    ensures groups == Groups(parse, outcomes) && SumShown(sources) == Total(groups, |groups|)
    ensures SumDropped(sources) + SumLimited(sources) + SumShown(sources) == AllSent(outcomes)
    ensures |sources| == |outcomes|
    ensures forall i :: 0 <= i < |outcomes| ==> CountsOutcome(sources[i], providerIds[i], outcomes[i], parse)
  {
    hide ShownOf, CountsOutcome, SumDropped, SumLimited, SumShown, AllSent, Parsed;
    sources, groups := [], [];
    assert outcomes[..0] == [];
    for i := 0 to |outcomes|
      invariant |sources| == i
      invariant groups == Groups(parse, outcomes[..i])
      invariant forall k :: 0 <= k < i ==> CountsOutcome(sources[k], providerIds[k], outcomes[k], parse)
    {
      assert outcomes[..i + 1][..i] == outcomes[..i];
      var attempt := SearchOneProvider(providerIds[i], outcomes[i], parse);
      CountsAddUp(attempt.source, providerIds[i], outcomes[i], parse);
      sources := sources + [attempt.source];
      if attempt.source.ok {
        groups := groups + [attempt.offers];
      }
    }
    assert outcomes[..|outcomes|] == outcomes;
    SourcesAddUp(sources, providerIds, outcomes, parse);
  }

  lemma {:induction false} SourcesAddUp<R, T>(sources: seq<Source>, providerIds: seq<string>,
                                              outcomes: seq<Outcome<R>>, parse: R -> Option<T>)
    requires |sources| == |outcomes| == |providerIds|
    requires forall k :: 0 <= k < |outcomes| ==> CountsOutcome(sources[k], providerIds[k], outcomes[k], parse)
    ensures SumDropped(sources) + SumLimited(sources) + SumShown(sources) == AllSent(outcomes)
    ensures var groups := Groups(parse, outcomes); SumShown(sources) == Total(groups, |groups|)
  {
    hide CountsOutcome, ShownOf;
    if |outcomes| > 0 {
      var n: nat := |outcomes| - 1;
      SourcesAddUp(sources[..n], providerIds[..n], outcomes[..n], parse);
      CountsAddUp(sources[n], providerIds[n], outcomes[n], parse);
      var groups := Groups(parse, outcomes[..n]);
      if outcomes[n].Sent? {
        TotalGrows(groups, ShownOf(parse, outcomes[n]), |groups|);
        assert Groups(parse, outcomes) == groups + [ShownOf(parse, outcomes[n])];
      } else {
        assert sources[n].offerCount == 0;
        assert Groups(parse, outcomes) == groups;
      }
    }
  }

  lemma {:induction false} SomebodyAnswered<R, T>(parse: R -> Option<T>, outcomes: seq<Outcome<R>>)
    ensures Groups(parse, outcomes) != [] <==> exists i :: 0 <= i < |outcomes| && outcomes[i].Sent?
    ensures Groups(parse, outcomes) == [] ==> AllSent(outcomes) == 0
  {
    if |outcomes| > 0 {
      var init, last := outcomes[..|outcomes| - 1], outcomes[|outcomes| - 1];
      SomebodyAnswered(parse, init);
      assert outcomes == init + [last];
      assert forall i :: 0 <= i < |init| ==> outcomes[i] == init[i];
      assert outcomes[|init|] == last;
    }
  }

  lemma CountsAddUp<R, T>(source: Source, providerId: string, outcome: Outcome<R>, parse: R -> Option<T>)
    requires CountsOutcome(source, providerId, outcome, parse)
    ensures source.ok == outcome.Sent? && source.offerCount == |ShownOf(parse, outcome)|
    ensures source.offerCount + source.dropped + source.limited == SentBy(outcome)
  {
  }

  // ---------------------------------------------------------------------------
  // The weekly sample
  // ---------------------------------------------------------------------------

  function AllHandled<T>(results: seq<SearchResult<T>>): nat {
    if results == [] then 0 else AllHandled(results[..|results| - 1]) + Handled(results[|results| - 1])
  }

  function AllDropped<T>(results: seq<SearchResult<T>>): nat {
    if results == [] then 0
    else
      var last := results[|results| - 1];
      AllDropped(results[..|results| - 1]) + if last.Found? then last.dropped else 0
  }

  /** The offers of each search that found any source. */
  function OffersOf<T>(results: seq<SearchResult<T>>): seq<seq<T>> {
    if results == [] then []
    else
      var last := results[|results| - 1];
      OffersOf(results[..|results| - 1]) + if last.Found? then [last.offers] else []
  }

  /** So has each search that found anything its page. */
  lemma {:induction false} PagesInOrder<T>(results: seq<SearchResult<T>>) returns (at: seq<nat>)
    ensures AreDrawn((r: SearchResult<T>) => if r.Found? then Some(r.offers) else None, results, OffersOf(results), at)
  {
    at := [];
    if results != [] {
      var n: nat := |results| - 1;
      var page := (r: SearchResult<T>) => if r.Found? then Some(r.offers) else None;
      at := PagesInOrder(results[..n]);
      OneMoreDrawn(page, results[..n], OffersOf(results[..n]), at, results[n]);
      hide AreDrawn;
      SplitLast(results);
      if results[n].Found? {
        at := at + [n];
      } else {
        assert OffersOf(results) == OffersOf(results[..n]);
      }
    }
  }

  /** What one more search adds: what it shows, limits and drops, when it found anything. */
  lemma OneMoreSearch<T>(results: seq<SearchResult<T>>, r: SearchResult<T>)
    ensures AllHandled<T>([]) == 0 && AllDropped<T>([]) == 0 && AllSources<T>([]) == []
    ensures r.NotFound? ==>
              && AllHandled(results + [r]) == AllHandled(results) && AllDropped(results + [r]) == AllDropped(results)
              && AllSources(results + [r]) == AllSources(results)
    ensures r.Found? ==>
              && AllHandled(results + [r]) == AllHandled(results) + |r.offers| + r.limited + r.dropped
              && AllDropped(results + [r]) == AllDropped(results) + r.dropped
              && AllSources(results + [r]) == AllSources(results) + r.sources
  {
    assert (results + [r])[..|results|] == results;
  }

  /** And one more answer: its offers and those its adapter dropped. */
  lemma OneMoreOutcome<R>(outcomes: seq<Outcome<R>>, offers: seq<R>, dropped: nat)
    ensures AllSent<R>([]) == 0 && AllSent(outcomes + [Unanswered]) == AllSent(outcomes)
    ensures AllSent(outcomes + [Sent(offers, dropped)]) == AllSent(outcomes) + |offers| + dropped
  {
    assert (outcomes + [Unanswered])[..|outcomes|] == outcomes;
    assert (outcomes + [Sent(offers, dropped)])[..|outcomes|] == outcomes;
  }

  lemma OneMoreDate<R>(samples: seq<seq<Outcome<R>>>, outcomes: seq<Outcome<R>>)
    ensures AllSentInAll<R>([]) == 0 && AllSentInAll(samples + [outcomes]) == AllSentInAll(samples) + AllSent(outcomes)
  {
    hide AllSent;
    assert (samples + [outcomes])[..|samples|] == samples;
  }

  function AllSources<T>(results: seq<SearchResult<T>>): seq<Source> {
    if results == [] then []
    else
      var last := results[|results| - 1];
      AllSources(results[..|results| - 1]) + if last.Found? then last.sources else []
  }

  /** Merge a source into those listed: its counts add up, and it is ok once any search of it was. */
  function Merge(sources: seq<Source>, s: Source): seq<Source> {
    if sources == [] then [s]
    else if sources[0].providerId == s.providerId then
      var previous := sources[0];
      [previous.(
         ok := previous.ok || s.ok, offerCount := previous.offerCount + s.offerCount,
         dropped := previous.dropped + s.dropped, limited := previous.limited + s.limited)] + sources[1..]
    else [sources[0]] + Merge(sources[1..], s)
  }

  /** The counts of one provider over a list of sources. */
  function CountsOf(sources: seq<Source>, id: string): (int, int, int, bool) {
    if sources == [] then (0, 0, 0, false)
    else Plus(CountsOf(sources[1..], id), sources[0], id)
  }

  function Plus(counts: (int, int, int, bool), s: Source, id: string): (int, int, int, bool) {
    if s.providerId == id then (counts.0 + s.offerCount, counts.1 + s.dropped, counts.2 + s.limited, counts.3 || s.ok)
    else counts
  }

  predicate ListedOnce(sources: seq<Source>) {
    sources == [] || (ListedOnce(sources[1..]) && !Lists(sources[1..], sources[0].providerId))
  }

  predicate Lists(sources: seq<Source>, id: string) {
    sources != [] && (sources[0].providerId == id || Lists(sources[1..], id))
  }

  lemma {:induction false} ListsExactly(sources: seq<Source>, id: string)
    ensures Lists(sources, id) <==> exists i :: 0 <= i < |sources| && sources[i].providerId == id
  {
    if sources != [] {
      var rest := sources[1..];
      ListsExactly(rest, id);
      assert forall i :: 0 <= i < |rest| ==> rest[i] == sources[i + 1];
      if i :| 0 <= i < |sources| && sources[i].providerId == id {
        assert i > 0 ==> rest[i - 1].providerId == id;
      }
    }
  }

  /** No two entries are of one provider. */
  lemma {:induction false} ListedOnceExactly(sources: seq<Source>)
    ensures ListedOnce(sources)
       <==> forall i, j :: 0 <= i < j < |sources| ==> sources[i].providerId != sources[j].providerId
  {
    if sources != [] {
      var rest := sources[1..];
      ListedOnceExactly(rest);
      ListsExactly(rest, sources[0].providerId);
      assert forall i :: 0 <= i < |rest| ==> rest[i] == sources[i + 1];
    }
  }

  lemma {:induction false} MergeLists(sources: seq<Source>, s: Source, id: string)
    ensures Lists(Merge(sources, s), id) <==> Lists(sources, id) || id == s.providerId
  {
    if sources != [] && sources[0].providerId != s.providerId {
      MergeLists(sources[1..], s, id);
    }
  }

  lemma {:induction false} MergeListsOnce(sources: seq<Source>, s: Source)
    requires ListedOnce(sources)
    ensures ListedOnce(Merge(sources, s))
  {
    if sources != [] && sources[0].providerId != s.providerId {
      MergeListsOnce(sources[1..], s);
      MergeLists(sources[1..], s, sources[0].providerId);
    }
  }

  lemma {:induction false} MergeCounts(sources: seq<Source>, s: Source, id: string)
    ensures CountsOf(Merge(sources, s), id) == Plus(CountsOf(sources, id), s, id)
  {
    if sources != [] && sources[0].providerId != s.providerId {
      MergeCounts(sources[1..], s, id);
      var merged := Merge(sources, s);
      assert merged[0] == sources[0] && merged[1..] == Merge(sources[1..], s);
    }
  }

  lemma {:induction false} AppendCounts(sources: seq<Source>, s: Source, id: string)
    ensures CountsOf(sources + [s], id) == Plus(CountsOf(sources, id), s, id)
  {
    if sources == [] {
      assert sources + [s] == [s];
    } else {
      AppendCounts(sources[1..], s, id);
      var all := sources + [s];
      assert all[0] == sources[0] && all[1..] == sources[1..] + [s];
    }
  }

  /** The counts of a provider are those of all its entries together; it is ok once any of them is. */
  lemma OneMoreSource(sources: seq<Source>, s: Source, id: string)
    ensures CountsOf([], id) == (0, 0, 0, false)
    ensures s.providerId != id ==> CountsOf(sources + [s], id) == CountsOf(sources, id)
    ensures s.providerId == id ==>
              var before, after := CountsOf(sources, id), CountsOf(sources + [s], id);
              && after.0 == before.0 + s.offerCount && after.1 == before.1 + s.dropped
              && after.2 == before.2 + s.limited && (after.3 <==> before.3 || s.ok)
  {
    AppendCounts(sources, s, id);
  }

  /** Merging a source in lists each provider once and gives it the counts of listing the source again. */
  lemma MergeKeepsCounts(sources: seq<Source>, s: Source)
    requires ListedOnce(sources)
    ensures ListedOnce(Merge(sources, s))
    ensures forall id :: Lists(Merge(sources, s), id) <==> Lists(sources, id) || id == s.providerId
    ensures forall id :: CountsOf(Merge(sources, s), id) == CountsOf(sources + [s], id)
    ensures forall id :: CountsOf(sources + [s], id) == Plus(CountsOf(sources, id), s, id)
  {
    hide Merge, Lists, ListedOnce, CountsOf, Plus;
    MergeListsOnce(sources, s);
    forall id ensures Lists(Merge(sources, s), id) <==> Lists(sources, id) || id == s.providerId {
      MergeLists(sources, s, id);
    }
    forall id
      ensures CountsOf(Merge(sources, s), id) == CountsOf(sources + [s], id)
      ensures CountsOf(sources + [s], id) == Plus(CountsOf(sources, id), s, id)
    {
      MergeCounts(sources, s, id);
      AppendCounts(sources, s, id);
    }
  }

  /** Merging in the sources of one more search, one by one. */
  method MergeAll(listed: seq<Source>, more: seq<Source>, ghost all: seq<Source>) returns (sources: seq<Source>)
    requires ListedOnce(listed) && forall id :: CountsOf(listed, id) == CountsOf(all, id)
    ensures ListedOnce(sources) && forall id :: CountsOf(sources, id) == CountsOf(all + more, id)
  {
    hide Merge, Lists, ListedOnce, CountsOf, Plus;
    sources := listed;
    assert all + more[..0] == all;
    for i := 0 to |more|
      invariant ListedOnce(sources)
      invariant forall id :: CountsOf(sources, id) == CountsOf(all + more[..i], id)
    {
      MergeKeepsCounts(sources, more[i]);
      assert all + more[..i] + [more[i]] == all + more[..i + 1];
      forall id ensures CountsOf(all + more[..i + 1], id) == Plus(CountsOf(all + more[..i], id), more[i], id) {
        AppendCounts(all + more[..i], more[i], id);
      }
      sources := Merge(sources, more[i]);
    }
    assert more[..|more|] == more;
  }

  /**
   The weekly sample shows a fair page of all its searches, accounts for everything they
   handled, and lists each provider once with its counts added up.
   */
  method CombineFlexibleFlightResults<T>(results: seq<SearchResult<T>>) returns (r: SearchResult<T>)
    ensures r.Found? <==> exists i :: 0 <= i < |results| && results[i].Found?
    ensures Handled(r) == AllHandled(results)
    ensures r.Found? ==> ShowsFairPage(r.offers, OffersOf(results), 24)
    ensures r.Found? ==> r.dropped == AllDropped(results)
    ensures r.Found? ==>
            && (forall i, j :: 0 <= i < j < |r.sources| ==> r.sources[i].providerId != r.sources[j].providerId)
            && forall id :: CountsOf(r.sources, id) == CountsOf(AllSources(results), id)
  {
    hide ShowsFairPage, OffersOf, AllHandled, AllDropped, AllSources, CountsOf, ListedOnce, Total;
    var groups, sources, dropped, limited := CombineEach(results);
    SomethingFound(results);
    if groups == [] {
      return NotFound;
    }
    var offers := FairPage(groups, MAX_FLEXIBLE_FLIGHT_OFFERS);
    ListedOnceExactly(sources);
    r := Found(sources, offers, dropped, limited + Total(groups, |groups|) - |offers|);
  }

  method CombineEach<T>(results: seq<SearchResult<T>>)
    returns (groups: seq<seq<T>>, sources: seq<Source>, dropped: nat, limited: nat)
    ensures groups == OffersOf(results) && dropped == AllDropped(results)
    ensures dropped + limited + Total(groups, |groups|) == AllHandled(results)
    ensures ListedOnce(sources) && forall id :: CountsOf(sources, id) == CountsOf(AllSources(results), id)
  {
    hide Merge, CountsOf, ListedOnce;
    groups, sources, dropped, limited := [], [], 0, 0;
    assert results[..0] == [];
    assert ListedOnce([]) by {
      NoSources();
    }
    for i := 0 to |results|
      invariant groups == OffersOf(results[..i]) && dropped == AllDropped(results[..i])
      invariant dropped + limited + Total(groups, |groups|) == AllHandled(results[..i])
      invariant ListedOnce(sources) && forall id :: CountsOf(sources, id) == CountsOf(AllSources(results[..i]), id)
    {
      assert results[..i + 1][..i] == results[..i];
      if results[i].Found? {
        TotalGrows(groups, results[i].offers, |groups|);
        groups := groups + [results[i].offers];
        sources := MergeAll(sources, results[i].sources, AllSources(results[..i]));
        dropped := dropped + results[i].dropped;
        limited := limited + results[i].limited;
      } else {
        assert AllSources(results[..i]) + [] == AllSources(results[..i]);
      }
    }
    assert results[..|results|] == results;
  }

  lemma {:induction false} SomethingFound<T>(results: seq<SearchResult<T>>)
    ensures OffersOf(results) != [] <==> exists i :: 0 <= i < |results| && results[i].Found?
    ensures OffersOf(results) == [] ==> AllHandled(results) == 0
  {
    if |results| > 0 {
      var init, last := results[..|results| - 1], results[|results| - 1];
      SomethingFound(init);
      assert results == init + [last];
      assert forall i :: 0 <= i < |init| ==> results[i] == init[i];
      assert results[|init|] == last;
    }
  }

  lemma NoSources()
    ensures ListedOnce([])
  {
  }

  // ---------------------------------------------------------------------------
  // A month of searches
  // ---------------------------------------------------------------------------

  predicate Answered<R>(outcomes: seq<Outcome<R>>) {
    exists i :: 0 <= i < |outcomes| && outcomes[i].Sent?
  }

  lemma FirstTurnsArePicks<T>(groups: seq<seq<T>>, limit: nat)
    ensures ArePicks(groups, FirstTurns(groups, limit))
  {
    TurnsArePicks(groups, 0, 0);
  }

  /** The page one search shows. */
  ghost function PageOf<R, T>(parse: R -> Option<T>, outcomes: seq<Outcome<R>>): seq<T> {
    var groups := Groups(parse, outcomes);
    FirstTurnsArePicks(groups, MAX_OFFERS_PER_SEARCH);
    Items(groups, FirstTurns(groups, MAX_OFFERS_PER_SEARCH))
  }

  /** The pages of the sampled dates that any source answered. */
  ghost function Pages<R, T>(parse: R -> Option<T>, samples: seq<seq<Outcome<R>>>): seq<seq<T>> {
    if samples == [] then []
    else
      var last := samples[|samples| - 1];
      Pages(parse, samples[..|samples| - 1]) + if Answered(last) then [PageOf(parse, last)] else []
  }

  function AllSentInAll<R>(samples: seq<seq<Outcome<R>>>): nat {
    if samples == [] then 0 else AllSentInAll(samples[..|samples| - 1]) + AllSent(samples[|samples| - 1])
  }

  /**
   A month's flights: one search for each sampled date, then one page of their pages. Everything
   any source sent for any date is shown, limited or dropped in the result.
   */
  method SearchFlexibleFlights<R, T>(providerIds: seq<string>, samples: seq<seq<Outcome<R>>>, parse: R -> Option<T>)
    returns (r: SearchResult<T>)
    requires forall i :: 0 <= i < |samples| ==> |samples[i]| == |providerIds|
    ensures r.Found? <==> exists i :: 0 <= i < |samples| && Answered(samples[i])
    ensures Handled(r) == AllSentInAll(samples)
    ensures r.Found? ==> ShowsFairPage(r.offers, Pages(parse, samples), 24)
  {
    hide ShowsFairPage, AllSent, Groups, Handled, PageOf, ListedOnce, CountsOf, Answered;
    var results: seq<SearchResult<T>> := [];
    assert samples[..0] == [];
    for i := 0 to |samples|
      invariant |results| == i
      invariant AllHandled(results) == AllSentInAll(samples[..i])
      invariant OffersOf(results) == Pages(parse, samples[..i])
      invariant forall k :: 0 <= k < i ==> (results[k].Found? <==> Answered(samples[k]))
    {
      assert samples[..i + 1][..i] == samples[..i];
      var found := SearchDate(providerIds, samples[i], parse);
      assert (results + [found])[..i] == results;
      results := results + [found];
    }
    assert samples[..|samples|] == samples;
    r := CombineFlexibleFlightResults(results);
  }

  /** The search of one date. */
  method SearchDate<R, T>(providerIds: seq<string>, outcomes: seq<Outcome<R>>, parse: R -> Option<T>)
    returns (r: SearchResult<T>)
    requires |providerIds| == |outcomes|
    ensures r.Found? <==> Answered(outcomes)
    ensures Handled(r) == AllSent(outcomes)
    ensures r.Found? ==> r.offers == PageOf(parse, outcomes)
  {
    hide AllSent, Handled, Groups, FirstTurns, CountsOutcome;
    r := Search(providerIds, outcomes, parse);
  }
}
