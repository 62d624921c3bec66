/**
 The stream of a turn and the polls beside it (apps/web/src/pages/ChatPage.tsx): what is on
 the screen when a snapshot is adopted in the middle of the stream, against what the gateway has.
 */
module Race {
  import opened Wrappers
  import opened Text
  import opened Sequences
  import opened LiveTurn

  /** The browser has applied i events and adopts what the gateway had after j, then applies the events up to k. */
  function RacedTo(events: seq<GatewayEvent>, i: nat, j: nat, k: nat): View
    requires i <= k <= |events| && j <= |events|
  {
    AppliedFrom(Adopt(Applied(events[..i]), Recorded(events[..j])), events[i..k])
  }

  /** Then it applies the rest. */
  function Raced(events: seq<GatewayEvent>, i: nat, j: nat): View
    requires i <= |events| && j <= |events|
  {
    AppliedFrom(Adopt(Applied(events[..i]), Recorded(events[..j])), events[i..])
  }

  lemma {:induction false} AppliedAppend(v: View, a: seq<GatewayEvent>, b: seq<GatewayEvent>)
    ensures AppliedFrom(v, a + b) == AppliedFrom(AppliedFrom(v, a), b)
  {
    hide Apply;
    if b == [] {
      AppendNothing(a);
    } else {
      AppliedAppend(v, a, b[..|b| - 1]);
      AppendInit(a, b);
    }
  }

  /** Without the snapshot, the screen after the rest is what the gateway has. */
  lemma StreamAlone(events: seq<GatewayEvent>, i: nat)
    requires i <= |events|
    ensures AppliedFrom(Applied(events[..i]), events[i..]) == Applied(events)
  {
    hide AppliedFrom;
    AppliedAppend(EmptyView, events[..i], events[i..]);
    assert events[..i] + events[i..] == events;
  }

  // ---------------------------------------------------------------------------
  // Rows
  // ---------------------------------------------------------------------------

  /** The last report of a row. */
  function LastReport(events: seq<GatewayEvent>, id: string): Option<Step> {
    if events == [] then None
    else
      var last := events[|events| - 1];
      if last.StepReported? && last.step.id == id then Some(last.step) else LastReport(events[..|events| - 1], id)
  }

  /** The later of two lists of reports decides, if it says anything. */
  function Else(late: Option<Step>, early: Option<Step>): Option<Step> {
    if late.Some? then late else early
  }

  lemma {:induction false} LastReportAppend(a: seq<GatewayEvent>, b: seq<GatewayEvent>, id: string)
    ensures LastReport(a + b, id) == Else(LastReport(b, id), LastReport(a, id))
  {
    if b == [] {
      AppendNothing(a);
    } else {
      AppendInit(a, b);
      LastReportAppend(a, b[..|b| - 1], id);
    }
  }

  lemma ApplyPuts(v: View, step: Step)
    ensures Apply(v, StepReported(step)).steps == Put(v.steps, step)
  {
    FindIsPut(v.steps, step, 0);
    assert v.steps[..0] + Put(v.steps[0..], step) == Put(v.steps, step);
  }

  /** A row shows its last report, or what was there before. */
  lemma {:induction false} AppliedRows(v: View, events: seq<GatewayEvent>, id: string)
    requires UniqueIds(v.steps)
    ensures UniqueIds(AppliedFrom(v, events).steps)
    ensures Lookup(AppliedFrom(v, events).steps, id) == Else(LastReport(events, id), Lookup(v.steps, id))
  {
    if events != [] {
      var init, last := events[..|events| - 1], events[|events| - 1];
      hide UniqueIds, Lookup, Put;
      AppliedRows(v, init, id);
      if last.StepReported? {
        ApplyPuts(AppliedFrom(v, init), last.step);
        PutKeepsRows(AppliedFrom(v, init).steps, last.step);
      }
    }
  }

  /** The rows and words of the two folds agree on every list of events, completed or not. */
  lemma {:induction false} StepsAgree(events: seq<GatewayEvent>)
    ensures Applied(events).steps == Recorded(events).steps
    ensures Applied(events).reply == Recorded(events).reply && Applied(events).reasoning == Recorded(events).reasoning
  {
    if events != [] {
      var init, last := events[..|events| - 1], events[|events| - 1];
      StepsAgree(init);
      if last.StepReported? {
        ApplyPuts(Applied(init), last.step);
      }
    }
  }

  lemma RecordedRows(events: seq<GatewayEvent>, id: string)
    ensures UniqueIds(Recorded(events).steps)
    ensures Lookup(Recorded(events).steps, id) == LastReport(events, id)
  {
    hide AppliedFrom, Recorded;
    StepsAgree(events);
    AppliedRows(EmptyView, events, id);
  }

  // The order of rows.

  function Ids(steps: seq<Step>): seq<string> {
    if steps == [] then [] else [steps[0].id] + Ids(steps[1..])
  }

  /** The ids reported so far, in the order of their first reports. */
  function Known(start: seq<string>, events: seq<GatewayEvent>): seq<string> {
    if events == [] then start
    else
      var before, last := Known(start, events[..|events| - 1]), events[|events| - 1];
      if last.StepReported? && last.step.id !in before then before + [last.step.id] else before
  }

  lemma {:induction false} PutKeepsOrder(steps: seq<Step>, step: Step)
    ensures Ids(Put(steps, step)) == if step.id in Ids(steps) then Ids(steps) else Ids(steps) + [step.id]
  {
    if steps != [] && steps[0].id != step.id {
      PutKeepsOrder(steps[1..], step);
      assert Put(steps, step)[1..] == Put(steps[1..], step);
      Associative([steps[0].id], Ids(steps[1..]), [step.id]);
    }
  }

  lemma {:induction false} AppliedOrder(v: View, events: seq<GatewayEvent>)
    ensures Ids(AppliedFrom(v, events).steps) == Known(Ids(v.steps), events)
  {
    if events != [] {
      var init, last := events[..|events| - 1], events[|events| - 1];
      hide Ids, Put;
      AppliedOrder(v, init);
      if last.StepReported? {
        ApplyPuts(AppliedFrom(v, init), last.step);
        PutKeepsOrder(AppliedFrom(v, init).steps, last.step);
      }
    }
  }

  lemma {:induction false} KnownAppend(start: seq<string>, a: seq<GatewayEvent>, b: seq<GatewayEvent>)
    ensures Known(start, a + b) == Known(Known(start, a), b)
  {
    if b == [] {
      AppendNothing(a);
    } else {
      AppendInit(a, b);
      KnownAppend(start, a, b[..|b| - 1]);
    }
  }

  lemma {:induction false} KnownGrows(start: seq<string>, events: seq<GatewayEvent>)
    ensures start <= Known(start, events)
    ensures forall e :: e in events && e.StepReported? ==> e.step.id in Known(start, events)
  {
    if events != [] {
      KnownGrows(start, events[..|events| - 1]);
      SplitLast(events);
    }
  }

  lemma {:induction false} NothingNew(start: seq<string>, events: seq<GatewayEvent>)
    requires forall e :: e in events && e.StepReported? ==> e.step.id in start
    ensures Known(start, events) == start
  {
    if events != [] {
      SplitLast(events);
      NothingNew(start, events[..|events| - 1]);
    }
  }

  /** Reporting the same rows again, and then more, knows what reporting them once and more does. */
  lemma KnownAgain(start: seq<string>, a: seq<GatewayEvent>, b: seq<GatewayEvent>)
    ensures Known(Known(start, a), a + b) == Known(start, a + b)
  {
    KnownGrows(start, a);
    NothingNew(Known(start, a), a);
    KnownAppend(Known(start, a), a, b);
    KnownAppend(start, a, b);
  }

  /** One list of rows goes on where the other stops. */
  predicate SameOrder(a: seq<Step>, b: seq<Step>) {
    a == [] || b == [] || (a[0].id == b[0].id && SameOrder(a[1..], b[1..]))
  }

  lemma {:induction false} PrefixIsSameOrder(a: seq<Step>, b: seq<Step>)
    requires Ids(a) <= Ids(b)
    ensures SameOrder(a, b) && SameOrder(b, a)
  {
    if a != [] {
      assert b != [];
      assert Ids(a)[0] == Ids(b)[0];
      assert Ids(a)[1..] == Ids(a[1..]) && Ids(b)[1..] == Ids(b[1..]);
      PrefixIsSameOrder(a[1..], b[1..]);
    }
  }

  function Longer(a: seq<Step>, b: seq<Step>): seq<Step> {
    if |a| >= |b| then a else b
  }

  lemma {:induction false} MergedRowsOrder(local: seq<Step>, incoming: seq<Step>)
    requires SameOrder(local, incoming)
    ensures Ids(MergedRows(local, incoming)) == Ids(Longer(local, incoming))
    ensures |local| < |incoming| ==> News(local, incoming)
    decreases |incoming|
  {
    if incoming != [] {
      LookupHasId(local, incoming[0].id);
      var rest := if local == [] then [] else local[1..];
      assert Without(local, incoming[0].id) == rest;
      MergedRowsOrder(rest, incoming[1..]);
      var merged := MergedRows(local, incoming);
      assert merged[1..] == MergedRows(rest, incoming[1..]);
    }
  }

  lemma MergedOrder(current: seq<Step>, incoming: seq<Step>)
    requires UniqueIds(current) && SameOrder(current, incoming)
    ensures Ids(Merged(current, incoming)) == Ids(Longer(current, incoming))
  {
    KeyedIsSelf(current);
    MergedRowsOrder(current, incoming);
  }

  /** Rows with the same ids in the same order are the same when each id says the same. */
  lemma {:induction false} SameRows(a: seq<Step>, b: seq<Step>)
    requires UniqueIds(a) && UniqueIds(b) && Ids(a) == Ids(b)
    requires forall id :: Lookup(a, id) == Lookup(b, id)
    ensures a == b
  {
    IdsLength(a);
    IdsLength(b);
    if a != [] {
      assert Ids(a)[0] == Ids(b)[0];
      assert Ids(a)[1..] == Ids(a[1..]) && Ids(b)[1..] == Ids(b[1..]);
      assert Lookup(a, a[0].id) == Some(a[0]) && Lookup(b, a[0].id) == Some(b[0]);
      forall id ensures Lookup(a[1..], id) == Lookup(b[1..], id) {
        assert Lookup(a, id) == Lookup(b, id);
      }
      SameRows(a[1..], b[1..]);
      SplitFirst(a);
      SplitFirst(b);
    }
  }

  lemma KnownFirst(events: seq<GatewayEvent>, i: nat, j: nat)
    requires i <= j <= |events|
    ensures Known([], events[..i]) <= Known([], events[..j])
  {
    assert events[..i] + events[i..j] == events[..j];
    KnownAppend([], events[..i], events[i..j]);
    KnownGrows(Known([], events[..i]), events[i..j]);
  }

  /** Knowing already some of what comes, or nothing of it, one ends up knowing the same. */
  lemma KnownInTheEnd(events: seq<GatewayEvent>, i: nat, j: nat)
    requires i <= j <= |events|
    ensures Known(Known([], events[..i]), events[i..]) == Known([], events)
    ensures Known(Known([], events[..j]), events[i..]) == Known([], events)
  {
    hide Known;
    assert events[..i] + events[i..] == events && events[..i] + events[i..j] == events[..j];
    assert events[i..j] + events[j..] == events[i..];
    KnownAppend([], events[..i], events[i..]);
    KnownAppend([], events[..i], events[i..j]);
    KnownAgain(Known([], events[..i]), events[i..j], events[j..]);
  }

  lemma RecordedOrder(events: seq<GatewayEvent>)
    ensures Ids(Recorded(events).steps) == Known([], events) && Ids(Applied(events).steps) == Known([], events)
  {
    hide AppliedFrom, Recorded, Known;
    StepsAgree(events);
    AppliedOrder(EmptyView, events);
  }

  lemma AdoptedOrder(screen: View, snapshot: View)
    requires UniqueIds(screen.steps)
    requires Ids(screen.steps) <= Ids(snapshot.steps) || Ids(snapshot.steps) <= Ids(screen.steps)
    ensures Ids(Adopt(screen, snapshot).steps) ==
            if Ids(snapshot.steps) <= Ids(screen.steps) then Ids(screen.steps) else Ids(snapshot.steps)
  {
    hide Ids, Merged, UniqueIds;
    if Ids(screen.steps) <= Ids(snapshot.steps) {
      PrefixIsSameOrder(screen.steps, snapshot.steps);
    } else {
      PrefixIsSameOrder(snapshot.steps, screen.steps);
    }
    MergedOrder(screen.steps, snapshot.steps);
    LongerIsLonger(screen.steps, snapshot.steps);
  }

  /** A race never changes which rows there are, nor their order. */
  lemma RaceKeepsOrder(events: seq<GatewayEvent>, i: nat, j: nat)
    requires i <= |events| && j <= |events|
    ensures Ids(Raced(events, i, j).steps) == Ids(Recorded(events).steps)
  {
    hide AppliedFrom, Applied, Recorded, Ids, Known, Adopt, UniqueIds, Lookup;
    var screen, snapshot := Applied(events[..i]), Recorded(events[..j]);
    RecordedOrder(events);
    RecordedOrder(events[..i]);
    RecordedOrder(events[..j]);
    StepsAgree(events[..i]);
    RecordedRows(events[..i], "");
    if i <= j {
      KnownFirst(events, i, j);
      KnownInTheEnd(events, i, j);
    } else {
      KnownFirst(events, j, i);
      KnownInTheEnd(events, i, i);
    }
    AdoptedOrder(screen, snapshot);
    AppliedOrder(Adopt(screen, snapshot), events[i..]);
  }

  lemma LongerIsLonger(a: seq<Step>, b: seq<Step>)
    ensures Ids(a) <= Ids(b) ==> Ids(Longer(a, b)) == Ids(b)
    ensures Ids(b) <= Ids(a) ==> Ids(Longer(a, b)) == Ids(a)
  {
    IdsLength(a);
    IdsLength(b);
  }

  lemma {:induction false} IdsLength(steps: seq<Step>)
    ensures |Ids(steps)| == |steps|
  {
    if steps != [] { IdsLength(steps[1..]); }
  }

  /** Adopting this row of a snapshot leaves the screen's as it is. */
  predicate Keeps(mine: Option<Step>, incoming: Step) {
    mine.Some? && FurtherAlong(mine.value, incoming) == mine.value
  }

  lemma {:induction false} LookupMember(steps: seq<Step>, row: Step)
    requires UniqueIds(steps) && row in steps
    ensures Lookup(steps, row.id) == Some(row)
  {
    if steps[0] != row {
      SplitFirst(steps);
      LookupMember(steps[1..], row);
    }
  }

  lemma {:induction false} LookupFinds(steps: seq<Step>, id: string)
    ensures var row := Lookup(steps, id); row.Some? ==> row.value in steps && row.value.id == id
  {
    if steps != [] && steps[0].id != id {
      LookupFinds(steps[1..], id);
    }
  }

  /** What one id shows in the middle of the race. */
  lemma RacedToRow(events: seq<GatewayEvent>, i: nat, j: nat, k: nat, id: string)
    requires i <= k <= |events| && j <= |events|
    ensures UniqueIds(RacedTo(events, i, j, k).steps)
    ensures Lookup(RacedTo(events, i, j, k).steps, id) ==
            Else(LastReport(events[i..k], id), Row(LastReport(events[..i], id), LastReport(events[..j], id)))
    ensures LastReport(events[..k], id) == Else(LastReport(events[i..k], id), LastReport(events[..i], id))
  {
    hide AppliedFrom, Recorded, Merged, UniqueIds, Lookup, LastReport, Row;
    var screen, snapshot := Applied(events[..i]), Recorded(events[..j]);
    StepsAgree(events[..i]);
    RecordedRows(events[..i], id);
    RecordedRows(events[..j], id);
    MergedById(screen.steps, snapshot.steps);
    AppliedRows(Adopt(screen, snapshot), events[i..k], id);
    LastReportAppend(events[..i], events[i..k], id);
    assert events[..i] + events[i..k] == events[..k];
  }

  /** What one id shows after the race, and on the gateway. */
  lemma RacedRow(events: seq<GatewayEvent>, i: nat, j: nat, id: string)
    requires i <= |events| && j <= |events|
    ensures UniqueIds(Raced(events, i, j).steps)
    ensures Lookup(Raced(events, i, j).steps, id) ==
            Else(LastReport(events[i..], id), Row(LastReport(events[..i], id), LastReport(events[..j], id)))
    ensures LastReport(events, id) == Else(LastReport(events[i..], id), LastReport(events[..i], id))
  {
    hide AppliedFrom, Recorded, Adopt, UniqueIds, Lookup, LastReport, Row;
    RacedToRow(events, i, j, |events|, id);
    assert events[i..|events|] == events[i..] && events[..|events|] == events;
  }

  /** A row of the snapshot that the screen does not know yet is reported afterwards. */
  lemma NewRowsAreReported(events: seq<GatewayEvent>, i: nat, j: nat, id: string)
    requires i <= |events| && j <= |events|
    requires LastReport(events[..j], id).Some? && LastReport(events[..i], id).None?
    ensures LastReport(events[i..], id).Some?
  {
    hide LastReport;
    if i <= j {
      assert events[..i] + events[i..j] == events[..j] && events[i..j] + events[j..] == events[i..];
      LastReportAppend(events[..i], events[i..j], id);
      LastReportAppend(events[i..j], events[j..], id);
    } else {
      assert events[..j] + events[j..i] == events[..i];
      LastReportAppend(events[..j], events[j..i], id);
    }
  }

  /**
   A snapshot adopted in the middle of the stream leaves the rows as the gateway has them exactly
   when each of its rows is reported again afterwards or keeps the row of the screen.
   */
  lemma RaceSparesStepsExactly(events: seq<GatewayEvent>, i: nat, j: nat)
    requires i <= |events| && j <= |events|
    ensures Raced(events, i, j).steps == Recorded(events).steps <==> RowsSurvive(events, i, j)
  {
    hide Raced, Recorded, UniqueIds, Lookup, LastReport, Ids, FurtherAlong, Applied;
    var raced, now, snapshot := Raced(events, i, j).steps, Recorded(events).steps, Recorded(events[..j]).steps;
    RecordedRows(events, "");
    RecordedRows(events[..j], "");
    RacedRow(events, i, j, "");
    if RowsSurvive(events, i, j) {
      forall id ensures Lookup(raced, id) == Lookup(now, id) {
        RowSurvives(events, i, j, id);
      }
      RaceKeepsOrder(events, i, j);
      SameRows(raced, now);
    }
    if raced == now {
      forall row | row in snapshot
        ensures LastReport(events[i..], row.id).Some? || Keeps(Lookup(Applied(events[..i]).steps, row.id), row)
      {
        LookupMember(snapshot, row);
        RecordedRows(events, row.id);
        RecordedRows(events[..j], row.id);
        RecordedRows(events[..i], row.id);
        StepsAgree(events[..i]);
        RacedRow(events, i, j, row.id);
      }
    }
  }

  ghost predicate RowsSurvive(events: seq<GatewayEvent>, i: nat, j: nat)
    requires i <= |events| && j <= |events|
  {
    forall row :: row in Recorded(events[..j]).steps ==>
      LastReport(events[i..], row.id).Some? || Keeps(Lookup(Applied(events[..i]).steps, row.id), row)
  }

  lemma RowSurvives(events: seq<GatewayEvent>, i: nat, j: nat, id: string)
    requires i <= |events| && j <= |events| && RowsSurvive(events, i, j)
    ensures Lookup(Raced(events, i, j).steps, id) == Lookup(Recorded(events).steps, id)
  {
    hide Raced, Recorded, UniqueIds, Lookup, LastReport, FurtherAlong, Applied;
    RacedRow(events, i, j, id);
    RecordedRows(events, id);
    RecordedRows(events[..i], id);
    StepsAgree(events[..i]);
    RecordedRows(events[..j], id);
    LookupFinds(Recorded(events[..j]).steps, id);
  }

  // ---------------------------------------------------------------------------
  // Rows that go back
  // ---------------------------------------------------------------------------

  predicate Finished(row: Option<Step>) {
    row.Some? && Rank(row.value.state) == 1
  }

  /** Some row is less far along than before. */
  ghost predicate GoesBack(before: View, after: View) {
    exists id :: Finished(Lookup(before.steps, id)) && !Finished(Lookup(after.steps, id))
  }

  /** What one event does to one row. */
  lemma AppliedRow(v: View, e: GatewayEvent, id: string)
    requires UniqueIds(v.steps)
    ensures Lookup(Apply(v, e).steps, id) ==
            if e.StepReported? && e.step.id == id then Some(e.step) else Lookup(v.steps, id)
  {
    if e.StepReported? {
      ApplyPuts(v, e.step);
      PutKeepsRows(v.steps, e.step);
    }
  }

  lemma GoesBackByReport(v: View, e: GatewayEvent)
    requires UniqueIds(v.steps)
    ensures GoesBack(v, Apply(v, e))
            <==> e.StepReported? && e.step.state.Running? && Finished(Lookup(v.steps, e.step.id))
  {
    hide UniqueIds, Lookup, Apply;
    forall id
      ensures Lookup(Apply(v, e).steps, id) ==
              if e.StepReported? && e.step.id == id then Some(e.step) else Lookup(v.steps, id)
    {
      AppliedRow(v, e, id);
    }
  }

  lemma RacedStep(events: seq<GatewayEvent>, i: nat, j: nat, k: nat)
    requires i <= k < |events| && j <= |events|
    ensures RacedTo(events, i, j, k + 1) == Apply(RacedTo(events, i, j, k), events[k])
  {
    hide Apply, Adopt, Applied, Recorded;
    assert events[i..k + 1][..k - i] == events[i..k];
  }

  lemma FurtherRowIsFinished(mine: Option<Step>, incoming: Option<Step>)
    ensures Finished(Row(mine, incoming)) <==> Finished(mine) || Finished(incoming)
  {
  }

  /**
   The event k, coming late, takes a row back exactly when it reports as running a row that the
   stream had finished already, or that the snapshot had and nothing has reported since.
   */
  lemma LateReportGoesBackExactly(events: seq<GatewayEvent>, i: nat, j: nat, k: nat)
    requires i <= k < |events| && j <= |events|
    ensures GoesBack(RacedTo(events, i, j, k), RacedTo(events, i, j, k + 1)) <==> (
              && events[k].StepReported? && events[k].step.state.Running?
              && var id := events[k].step.id;
                 || Finished(LastReport(events[..k], id))
                 || (LastReport(events[i..k], id).None? && Finished(LastReport(events[..j], id))))
  {
    hide RacedTo, LastReport, Lookup, UniqueIds, Apply, GoesBack, Finished, Row;
    RacedStep(events, i, j, k);
    var id := if events[k].StepReported? then events[k].step.id else "";
    RacedToRow(events, i, j, k, id);
    GoesBackByReport(RacedTo(events, i, j, k), events[k]);
    FurtherRowIsFinished(LastReport(events[..i], id), LastReport(events[..j], id));
  }

  /** A snapshot behind a second report of a running row: the earlier detail comes back. */
  lemma StaleRowComesBack(first: Step, second: Step)
    requires first.id == second.id && first.state == second.state && first.detail != second.detail
    ensures var events := [StepReported(first), StepReported(second)];
            Raced(events, 2, 1).steps == [first] && Recorded(events).steps == [second]
  {
    var events := [StepReported(first), StepReported(second)];
    TwoReports(first, second);
    OneRow(second, first);
  }

  /** A snapshot ahead of the stream: the late report sets a finished row running again, until its end arrives too. */
  lemma LateReportRestartsRow(started: Step, ended: Step)
    requires started.id == ended.id && started.state.Running? && !ended.state.Running?
    ensures var events := [StepReported(started), StepReported(ended)];
            && RacedTo(events, 0, 2, 0).steps == [ended] && RacedTo(events, 0, 2, 1).steps == [started]
            && GoesBack(RacedTo(events, 0, 2, 0), RacedTo(events, 0, 2, 1))
            && Raced(events, 0, 2).steps == Recorded(events).steps == [ended]
  {
    var events := [StepReported(started), StepReported(ended)];
    TwoReports(started, ended);
    FirstRow(ended);
    LateReportGoesBackExactly(events, 0, 2, 0);
    RaceSparesStepsExactly(events, 0, 2);
  }

  lemma OneRow(mine: Step, incoming: Step)
    requires mine.id == incoming.id
    ensures Merged([mine], [incoming]) == [FurtherAlong(mine, incoming)]
  {
    hide FurtherAlong;
    assert [mine][1..] == [] && [incoming][1..] == [];
    assert UniqueIds([]) && Lookup([], mine.id).None?;
    KeyedIsSelf([mine]);
    assert Without([mine], mine.id) == [];
    assert MergedRows([], []) == [] && !News([], []);
    assert MergedRows([mine], [incoming]) == [FurtherAlong(mine, incoming)] + MergedRows([], []);
  }

  lemma FirstRow(incoming: Step)
    ensures Merged([], [incoming]) == [incoming]
  {
    assert [incoming][1..] == [];
    assert MergedRows([], [incoming]) == [incoming] + MergedRows([], []);
  }

  lemma TwoReports(first: Step, second: Step)
    requires first.id == second.id
    ensures var events := [StepReported(first), StepReported(second)];
            && Recorded(events[..1]).steps == [first] && Recorded(events).steps == [second]
            && Applied(events).steps == [second] && events[..2] == events && events[2..] == []
            && events[0..1] == [StepReported(first)] && events[..0] == [] && events[0..0] == []
  {
    var events := [StepReported(first), StepReported(second)];
    assert events[..1] == [StepReported(first)] && events[..1][..0] == [];
    StepsAgree(events);
  }

  // ---------------------------------------------------------------------------
  // Words
  // ---------------------------------------------------------------------------

  predicate HasReset(events: seq<GatewayEvent>) {
    exists e :: e in events && e.ReplyReset?
  }

  /** Words go on after those shown already, within the tail. */
  lemma {:induction false} WordsGoOn(v: View, events: seq<GatewayEvent>)
    requires |v.reply| <= REPLY_TAIL && |v.reasoning| <= REASONING_TAIL
    ensures AppliedFrom(v, events).reply == Tail(DraftFrom(v.reply, events), REPLY_TAIL)
    ensures AppliedFrom(v, events).reasoning == Tail(ThinkingFrom(v.reasoning, events), REASONING_TAIL)
  {
    if events != [] {
      var init, last := events[..|events| - 1], events[|events| - 1];
      WordsGoOn(v, init);
      match last {
        case ReplyDelta(text) => TailOfTail(DraftFrom(v.reply, init), text, REPLY_TAIL);
        case ReasoningDelta(text) => TailOfTail(ThinkingFrom(v.reasoning, init), text, REASONING_TAIL);
        case _ =>
      }
    }
  }

  /** A reset forgets where the words started; without one they follow the start. */
  lemma {:induction false} DraftFromStart(start: string, events: seq<GatewayEvent>)
    ensures HasReset(events) ==> DraftFrom(start, events) == DraftFrom("", events)
    ensures !HasReset(events) ==> DraftFrom(start, events) == start + DraftFrom("", events)
  {
    if events != [] {
      var init, last := events[..|events| - 1], events[|events| - 1];
      DraftFromStart(start, init);
      assert events == init + [last];
      assert HasReset(events) <==> HasReset(init) || last.ReplyReset?;
    }
  }

  lemma {:induction false} ThinkingFromStart(start: string, events: seq<GatewayEvent>)
    ensures ThinkingFrom(start, events) == start + ThinkingFrom("", events)
  {
    if events != [] {
      ThinkingFromStart(start, events[..|events| - 1]);
    }
  }

  /** What a tail of n characters keeps of a text once `late` follows it. */
  function KeptBefore(text: string, late: string, n: nat): string {
    if |late| >= n then "" else Tail(text, n - |late|)
  }

  lemma TailOfJoin(text: string, late: string, n: nat)
    ensures Tail(text + late, n) == KeptBefore(text, late, n) + Tail(late, n)
  {
    if |late| >= n {
      TailOfDropped(text + late, |text|, n);
      assert (text + late)[|text|..] == late;
    } else if |text| + |late| > n {
      hide Tail;
      TailDrops(text + late, n);
      TailDrops(text, n - |late|);
      DropAppend(text, late, |text| + |late| - n);
      WholeTail(late, n);
    }
  }

  lemma WholeTail(text: string, n: nat)
    requires |text| <= n
    ensures Tail(text, n) == text
  {
  }

  lemma SameEnd(a: string, b: string, end: string)
    ensures a + end == b + end <==> a == b
  {
    if a + end == b + end {
      assert |a| == |b|;
      assert a == (a + end)[..|a|] && b == (b + end)[..|b|];
    }
  }

  /** Two texts look the same behind late words exactly when the tail keeps the same of both. */
  lemma SameTails(a: string, b: string, late: string, n: nat)
    ensures Tail(a + late, n) == Tail(b + late, n) <==> KeptBefore(a, late, n) == KeptBefore(b, late, n)
  {
    hide Tail, KeptBefore;
    TailOfJoin(a, late, n);
    TailOfJoin(b, late, n);
    SameEnd(KeptBefore(a, late, n), KeptBefore(b, late, n), Tail(late, n));
  }

  /** While the screen's words and the late ones fit, the tail keeps more of a longer text. */
  lemma ShortWordsDiffer(shorter: string, longer: string, late: string, n: nat)
    requires |shorter| < |longer| && |shorter| + |late| < n
    ensures KeptBefore(shorter, late, n) != KeptBefore(longer, late, n)
  {
  }

  lemma WordsAreBounded(events: seq<GatewayEvent>)
    ensures |Recorded(events).reply| <= REPLY_TAIL && |Recorded(events).reasoning| <= REASONING_TAIL
  {
    hide Recorded;
    KeepsTails(events);
  }

  lemma AdoptedWordsAreBounded(screen: View, snapshot: View)
    requires |screen.reply| <= REPLY_TAIL && |screen.reasoning| <= REASONING_TAIL
    requires |snapshot.reply| <= REPLY_TAIL && |snapshot.reasoning| <= REASONING_TAIL
    ensures |Adopt(screen, snapshot).reply| <= REPLY_TAIL && |Adopt(screen, snapshot).reasoning| <= REASONING_TAIL
  {
    hide Merged;
  }

  /** The words of the snapshot's view and of the screen's, from the same late events. */
  lemma RacedWords(events: seq<GatewayEvent>, i: nat, j: nat)
    requires i <= |events| && j <= |events|
    ensures
      var screen, snapshot, late := Applied(events[..i]), Recorded(events[..j]), events[i..];
      var adopted := Adopt(screen, snapshot);
      && Raced(events, i, j).reply == Tail(DraftFrom(adopted.reply, late), REPLY_TAIL)
      && Raced(events, i, j).reasoning == Tail(ThinkingFrom(adopted.reasoning, late), REASONING_TAIL)
      && Recorded(events).reply == Tail(DraftFrom(screen.reply, late), REPLY_TAIL)
      && Recorded(events).reasoning == Tail(ThinkingFrom(screen.reasoning, late), REASONING_TAIL)
  {
    hide Recorded, AppliedFrom, Applied, Adopt, DraftFrom, ThinkingFrom, Tail;
    StepsAgree(events);
    StepsAgree(events[..i]);
    WordsAreBounded(events[..i]);
    WordsAreBounded(events[..j]);
    StreamAlone(events, i);
    WordsGoOn(Applied(events[..i]), events[i..]);
    AdoptedWordsAreBounded(Applied(events[..i]), Recorded(events[..j]));
    WordsGoOn(Adopt(Applied(events[..i]), Recorded(events[..j])), events[i..]);
  }

  /**
   The reply survives a snapshot that says no more than the screen, a later reset, or late words
   that push the difference out.
   */
  predicate ReplySurvives(events: seq<GatewayEvent>, i: nat, j: nat)
    requires i <= |events| && j <= |events|
  {
    var screen, snapshot, late := Applied(events[..i]).reply, Recorded(events[..j]).reply, events[i..];
    || |snapshot| <= |screen| || HasReset(late)
    || KeptBefore(screen, Draft(late), REPLY_TAIL) == KeptBefore(snapshot, Draft(late), REPLY_TAIL)
  }

  predicate ReasoningSurvives(events: seq<GatewayEvent>, i: nat, j: nat)
    requires i <= |events| && j <= |events|
  {
    var screen, snapshot, late := Applied(events[..i]).reasoning, Recorded(events[..j]).reasoning, events[i..];
    || |snapshot| <= |screen|
    || KeptBefore(screen, Thinking(late), REASONING_TAIL) == KeptBefore(snapshot, Thinking(late), REASONING_TAIL)
  }

  /** A snapshot adopted in the middle of the stream leaves the reply as the gateway has it exactly then. */
  lemma RaceSparesReplyExactly(events: seq<GatewayEvent>, i: nat, j: nat)
    requires i <= |events| && j <= |events|
    ensures Raced(events, i, j).reply == Recorded(events).reply <==> ReplySurvives(events, i, j)
  {
    hide Recorded, Applied, AppliedFrom, DraftFrom, Raced, KeptBefore, Tail, HasReset, Merged;
    RacedWords(events, i, j);
    var screen, snapshot, late := Applied(events[..i]).reply, Recorded(events[..j]).reply, events[i..];
    DraftFromStart(screen, late);
    DraftFromStart(snapshot, late);
    SameTails(screen, snapshot, Draft(late), REPLY_TAIL);
  }

  /** The same of the reasoning, which no reset clears. */
  lemma RaceSparesReasoningExactly(events: seq<GatewayEvent>, i: nat, j: nat)
    requires i <= |events| && j <= |events|
    ensures Raced(events, i, j).reasoning == Recorded(events).reasoning <==> ReasoningSurvives(events, i, j)
  {
    hide Recorded, Applied, AppliedFrom, ThinkingFrom, Raced, KeptBefore, Tail, Merged;
    RacedWords(events, i, j);
    var screen, snapshot, late := Applied(events[..i]).reasoning, Recorded(events[..j]).reasoning, events[i..];
    ThinkingFromStart(screen, late);
    ThinkingFromStart(snapshot, late);
    SameTails(screen, snapshot, Thinking(late), REASONING_TAIL);
  }

  /** While the words fit the tail, the reply survives exactly when the snapshot says no more or a reset follows. */
  lemma ShortRepliesSurviveExactly(events: seq<GatewayEvent>, i: nat, j: nat)
    requires i <= |events| && j <= |events|
    requires |Applied(events[..i]).reply| + |Draft(events[i..])| < REPLY_TAIL
    ensures ReplySurvives(events, i, j)
       <==> |Recorded(events[..j]).reply| <= |Applied(events[..i]).reply| || HasReset(events[i..])
  {
    hide Recorded, Applied, Draft, KeptBefore, HasReset;
    var screen, snapshot := Applied(events[..i]).reply, Recorded(events[..j]).reply;
    if |screen| < |snapshot| {
      ShortWordsDiffer(screen, snapshot, Draft(events[i..]), REPLY_TAIL);
    }
  }

  /** A snapshot ahead of the stream: its words are shown again by their late delta. */
  lemma LateDeltaRepeatsWords(words: string)
    requires words != "" && 2 * |words| <= REPLY_TAIL
    ensures Raced([ReplyDelta(words)], 0, 1).reply == words + words && Recorded([ReplyDelta(words)]).reply == words
  {
    hide Adopt, Record, Apply, Raced, Recorded, DraftFrom, ThinkingFrom, AppliedFrom;
    var events := [ReplyDelta(words)];
    CutsOfOne(ReplyDelta(words));
    RacedWords(events, 0, 1);
    OneDelta("", words);
    OneDelta(words, words);
    KeepsTails(events);
    NothingApplied();
    LongerWordsAreAdopted(EmptyView, Recorded(events));
    assert "" + words == words;
  }

  lemma LongerWordsAreAdopted(screen: View, snapshot: View)
    ensures |snapshot.reply| > |screen.reply| ==> Adopt(screen, snapshot).reply == snapshot.reply
  {
  }

  lemma CutsOfOne(e: GatewayEvent)
    ensures [e][..0] == [] && [e][0..] == [e] && [e][..1] == [e]
  {
  }

  lemma NothingApplied()
    ensures Applied([]) == EmptyView
  {
  }

  lemma OneDelta(start: string, words: string)
    ensures DraftFrom(start, [ReplyDelta(words)]) == start + words
  {
    assert [ReplyDelta(words)][..0] == [];
  }

  /** A snapshot behind a reset: it brings back the draft that was withdrawn. */
  lemma WithdrawnDraftComesBack(words: string)
    requires words != "" && |words| <= REPLY_TAIL
    ensures Raced([ReplyDelta(words), ReplyReset], 2, 1).reply == words
    ensures Recorded([ReplyDelta(words), ReplyReset]).reply == ""
  {
    var events := [ReplyDelta(words), ReplyReset];
    assert events[..2] == events && events[2..] == [] && events[..1] == [ReplyDelta(words)] && events[..1][..0] == [];
    assert Recorded(events[..1]).reply == words;
    assert Applied(events).reply == "";
  }

  // ---------------------------------------------------------------------------
  // The heading, and the whole view
  // ---------------------------------------------------------------------------

  predicate HasStart(events: seq<GatewayEvent>) {
    exists e :: e in events && e.TurnStarted?
  }

  /** Some start names its model. */
  predicate Names(events: seq<GatewayEvent>) {
    exists e :: e in events && e.TurnStarted? && (e.modelLabel != "" || e.model != "")
  }

  lemma StartsSoFar(events: seq<GatewayEvent>)
    requires events != []
    ensures var init, last := events[..|events| - 1], events[|events| - 1];
            && (HasStart(events) <==> HasStart(init) || last.TurnStarted?)
            && (Names(events) <==> Names(init) || (last.TurnStarted? && (last.modelLabel != "" || last.model != "")))
  {
    SplitLast(events);
  }

  lemma NoStarts()
    ensures !HasStart([]) && !Names([])
  {
  }

  /** A later start decides the heading; without one it stays. */
  lemma {:induction false} HeadingGoesOn(v: View, w: View, events: seq<GatewayEvent>)
    ensures !HasStart(events) ==> AppliedFrom(v, events).provider == v.provider
    ensures HasStart(events) ==> AppliedFrom(v, events).provider == AppliedFrom(w, events).provider
    ensures !Names(events) ==> AppliedFrom(v, events).modelLabel == v.modelLabel
    ensures Names(events) ==> AppliedFrom(v, events).modelLabel == AppliedFrom(w, events).modelLabel
  {
    NoStarts();
    if events != [] {
      var init, last := events[..|events| - 1], events[|events| - 1];
      hide HasStart, Names;
      StartsSoFar(events);
      HeadingGoesOn(v, w, init);
    }
  }

  predicate HeadingSurvives(events: seq<GatewayEvent>, i: nat, j: nat)
    requires i <= |events| && j <= |events|
  {
    var screen, snapshot, late := Applied(events[..i]), Recorded(events[..j]), events[i..];
    && (snapshot.modelLabel in {"", screen.modelLabel} || Names(late))
    && (snapshot.provider in {"", screen.provider} || HasStart(late))
  }

  lemma RaceSparesHeadingExactly(events: seq<GatewayEvent>, i: nat, j: nat)
    requires i <= |events| && j <= |events| && NotCompleted(events)
    ensures var raced, now := Raced(events, i, j), Recorded(events);
            (raced.modelLabel == now.modelLabel && raced.provider == now.provider) <==> HeadingSurvives(events, i, j)
  {
    hide Recorded, Applied, AppliedFrom, Merged, NotCompleted, Names, HasStart;
    var screen, snapshot, late := Applied(events[..i]), Recorded(events[..j]), events[i..];
    FoldsAgree(events);
    StreamAlone(events, i);
    HeadingGoesOn(screen, Adopt(screen, snapshot), late);
    HeadingGoesOn(Adopt(screen, snapshot), screen, late);
  }

  /** As the gateway sends them: one start, first of all, that names the model. */
  ghost predicate StartsOnce(events: seq<GatewayEvent>) {
    && events != [] && events[0].TurnStarted? && events[0].modelLabel != ""
    && forall k :: 0 < k < |events| ==> !events[k].TurnStarted?
  }

  lemma FirstStartDecides(events: seq<GatewayEvent>, n: nat)
    requires StartsOnce(events) && 1 <= n <= |events|
    ensures Applied(events[..n]).modelLabel == events[0].modelLabel
            && Applied(events[..n]).provider == events[0].provider
  {
    var first, more := events[..1], events[1..n];
    assert first + more == events[..n] && first[..0] == [];
    assert !HasStart(more) && !Names(more) by {
      assert forall k :: 0 <= k < |more| ==> more[k] == events[k + 1];
    }
    AppliedAppend(EmptyView, first, more);
    HeadingGoesOn(Applied(first), Applied(first), more);
  }

  /** In such a turn any snapshot taken after the start keeps the heading. */
  lemma StartedTurnsKeepTheirHeading(events: seq<GatewayEvent>, i: nat, j: nat)
    requires i <= |events| && 1 <= j <= |events| && NotCompleted(events) && StartsOnce(events)
    ensures HeadingSurvives(events, i, j)
  {
    if i == 0 {
      assert events[0..] == events && events[0] in events;
    } else {
      hide Applied, Recorded, HasStart, Names;
      FirstStartDecides(events, i);
      FirstStartDecides(events, j);
      FoldsAgree(events[..j]);
    }
  }

  /** The whole of when the race is harmless. */
  lemma RaceIsHarmlessExactly(events: seq<GatewayEvent>, i: nat, j: nat)
    requires i <= |events| && j <= |events| && NotCompleted(events)
    ensures Raced(events, i, j) == Recorded(events) <==> (
              && HeadingSurvives(events, i, j) && RowsSurvive(events, i, j)
              && ReplySurvives(events, i, j) && ReasoningSurvives(events, i, j))
  {
    hide Recorded, Raced, HeadingSurvives, RowsSurvive, ReplySurvives, ReasoningSurvives, NotCompleted;
    RaceSparesHeadingExactly(events, i, j);
    RaceSparesStepsExactly(events, i, j);
    RaceSparesReplyExactly(events, i, j);
    RaceSparesReasoningExactly(events, i, j);
  }

  // ---------------------------------------------------------------------------
  // Any number of polls
  // ---------------------------------------------------------------------------

  /** What happens at the browser: the next event arrives, or a snapshot of the first `taken` events. */
  datatype Move = Arrive | Poll(taken: nat)

  function Arrivals(moves: seq<Move>): nat {
    if moves == [] then 0
    else Arrivals(moves[..|moves| - 1]) + if moves[|moves| - 1].Arrive? then 1 else 0
  }

  /** A run gets no more events than there are, and no snapshot of others. */
  ghost predicate IsRun(events: seq<GatewayEvent>, moves: seq<Move>) {
    && Arrivals(moves) <= |events|
    && forall m :: 0 <= m < |moves| && moves[m].Poll? ==> moves[m].taken <= |events|
  }

  lemma RunSoFar(events: seq<GatewayEvent>, moves: seq<Move>)
    requires IsRun(events, moves) && moves != []
    ensures IsRun(events, moves[..|moves| - 1])
  {
  }

  function Screen(events: seq<GatewayEvent>, moves: seq<Move>): View
    requires IsRun(events, moves)
  {
    if moves == [] then EmptyView
    else
      RunSoFar(events, moves);
      var before, last := Screen(events, moves[..|moves| - 1]), moves[|moves| - 1];
      if last.Poll? then Adopt(before, Recorded(events[..last.taken]))
      else Apply(before, events[Arrivals(moves) - 1])
  }

  /** A snapshot that says nothing the stream's screen does not say. */
  ghost predicate InStep(events: seq<GatewayEvent>, i: nat, j: nat)
    requires i <= |events| && j <= |events|
  {
    var screen, snapshot := Applied(events[..i]), Recorded(events[..j]);
    && snapshot.modelLabel in {"", screen.modelLabel} && snapshot.provider in {"", screen.provider}
    && |snapshot.reply| <= |screen.reply| && |snapshot.reasoning| <= |screen.reasoning|
    && forall row :: row in snapshot.steps ==> Keeps(Lookup(screen.steps, row.id), row)
  }

  lemma {:induction false} IdsAreKeys(steps: seq<Step>, id: string)
    ensures id in Ids(steps) <==> Lookup(steps, id).Some?
  {
    if steps != [] {
      IdsAreKeys(steps[1..], id);
    }
  }

  lemma {:induction false} IdsAreDistinct(steps: seq<Step>)
    requires UniqueIds(steps)
    ensures Distinct(Ids(steps))
  {
    if steps != [] {
      IdsAreDistinct(steps[1..]);
      IdsAreKeys(steps[1..], steps[0].id);
    }
  }

  /** Where a list of rows goes on from another, there is a row that the other does not have. */
  lemma TheNextIsNew(shorter: seq<Step>, longer: seq<Step>) returns (row: Step)
    requires UniqueIds(longer) && Ids(shorter) <= Ids(longer) && Ids(shorter) != Ids(longer)
    ensures row in longer && Lookup(shorter, row.id).None?
  {
    var n := |Ids(shorter)|;
    var id := Ids(longer)[n];
    IdsAreKeys(longer, id);
    LookupFinds(longer, id);
    IdsAreKeys(shorter, id);
    IdsAreDistinct(longer);
    assert forall k :: 0 <= k < n ==> Ids(shorter)[k] == Ids(longer)[k] != id;
    row := Lookup(longer, id).value;
  }

  /** Which rows a screen and a snapshot of the same events have: the one's go on from the other's. */
  lemma RowsGoOn(events: seq<GatewayEvent>, i: nat, j: nat)
    requires i <= |events| && j <= |events|
    ensures var screen, snapshot := Applied(events[..i]).steps, Recorded(events[..j]).steps;
            && UniqueIds(screen) && UniqueIds(snapshot)
            && (Ids(screen) <= Ids(snapshot) || Ids(snapshot) <= Ids(screen))
  {
    hide Applied, Recorded, Ids, Known, UniqueIds, Lookup;
    RecordedOrder(events[..i]);
    RecordedOrder(events[..j]);
    StepsAgree(events[..i]);
    RecordedRows(events[..i], "");
    RecordedRows(events[..j], "");
    if i <= j {
      KnownFirst(events, i, j);
    } else {
      KnownFirst(events, j, i);
    }
  }

  /** Rows of a snapshot that keep those of the screen leave the list of rows as it is, and only they. */
  lemma KeptRowsExactly(screen: View, snapshot: View)
    requires UniqueIds(screen.steps) && UniqueIds(snapshot.steps)
    requires Ids(screen.steps) <= Ids(snapshot.steps) || Ids(snapshot.steps) <= Ids(screen.steps)
    ensures Adopt(screen, snapshot).steps == screen.steps
       <==> forall row :: row in snapshot.steps ==> Keeps(Lookup(screen.steps, row.id), row)
  {
    hide Ids, UniqueIds, Lookup, Merged, FurtherAlong;
    var adopted := Adopt(screen, snapshot).steps;
    MergedById(screen.steps, snapshot.steps);
    forall row | row in snapshot.steps ensures Lookup(snapshot.steps, row.id) == Some(row) {
      LookupMember(snapshot.steps, row);
    }
    if forall row :: row in snapshot.steps ==> Keeps(Lookup(screen.steps, row.id), row) {
      forall id ensures Lookup(adopted, id) == Lookup(screen.steps, id) {
        LookupFinds(snapshot.steps, id);
      }
      AdoptedOrder(screen, snapshot);
      if !(Ids(snapshot.steps) <= Ids(screen.steps)) {
        var row := TheNextIsNew(screen.steps, snapshot.steps);
        assert false;
      }
      SameRows(adopted, screen.steps);
    }
  }

  lemma AdoptedIsInStepExactly(events: seq<GatewayEvent>, i: nat, j: nat)
    requires i <= |events| && j <= |events|
    ensures Adopt(Applied(events[..i]), Recorded(events[..j])) == Applied(events[..i]) <==> InStep(events, i, j)
  {
    hide Applied, Recorded, Keeps, Merged;
    RowsGoOn(events, i, j);
    KeptRowsExactly(Applied(events[..i]), Recorded(events[..j]));
  }

  /** Every snapshot of a run is in step with the stream when it is adopted. */
  ghost predicate PollsInStep(events: seq<GatewayEvent>, moves: seq<Move>)
    requires IsRun(events, moves)
  {
    if moves == [] then true
    else
      RunSoFar(events, moves);
      var last := moves[|moves| - 1];
      && PollsInStep(events, moves[..|moves| - 1])
      && (last.Poll? ==> InStep(events, Arrivals(moves), last.taken))
  }

  /** At every moment of a run the screen is the stream's own. */
  ghost predicate Undisturbed(events: seq<GatewayEvent>, moves: seq<Move>)
    requires IsRun(events, moves)
  {
    if moves == [] then Screen(events, moves) == EmptyView
    else
      RunSoFar(events, moves);
      Undisturbed(events, moves[..|moves| - 1]) && Screen(events, moves) == Applied(events[..Arrivals(moves)])
  }

  /** However many polls race the stream, they never show exactly when each is in step. */
  lemma {:induction false} PollsAreInvisibleExactly(events: seq<GatewayEvent>, moves: seq<Move>)
    requires IsRun(events, moves)
    ensures Undisturbed(events, moves) <==> PollsInStep(events, moves)
    ensures PollsInStep(events, moves) ==> Screen(events, moves) == Applied(events[..Arrivals(moves)])
  {
    hide InStep, Adopt, Apply, Recorded;
    if moves == [] {
      assert events[..0] == [];
    } else {
      RunSoFar(events, moves);
      var last := moves[|moves| - 1];
      PollsAreInvisibleExactly(events, moves[..|moves| - 1]);
      if last.Poll? {
        AdoptedIsInStepExactly(events, Arrivals(moves), last.taken);
      } else {
        var n := Arrivals(moves);
        assert events[..n][..n - 1] == events[..n - 1] && events[..n][n - 1] == events[n - 1];
      }
    }
  }
}
