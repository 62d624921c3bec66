/**
 The view of a running turn: the gateway's snapshot (apps/api/src/gateway/turn-stream.ts),
 the browser's fold of the same events (apps/web/src/pages/ChatPage.tsx), and the merge of
 polled snapshots into it (apps/web/src/liveTurn.ts).
 */
module LiveTurn {
  import opened Wrappers
  import opened Text

  const REASONING_TAIL: nat := 4000
  const REPLY_TAIL: nat := 20000

  datatype StepState = Running | Done | Failed

  /** One row of the process; `rest` is what only travels with it: kind, name, source, time. */
  datatype Step = Step(id: string, caption: string, detail: Option<string>, state: StepState, rest: string)

  datatype GatewayEvent =
    | TurnStarted(modelLabel: string, model: string, provider: string)
    | StepReported(step: Step)
    | ReasoningDelta(thought: string)
    | ReplyDelta(text: string)
    | ReplyReset
    | TurnCompleted(answeredBy: string, answeredModel: string)
    | TurnFailed(message: string)

  datatype View = View(modelLabel: string, provider: string, steps: seq<Step>, reasoning: string, reply: string)

  /** Both sides start from the same empty view. */
  const EmptyView := View("the desk", "", [], "", "")

  function Or(a: string, b: string): string {
    if a != "" then a else b
  }

  // ---------------------------------------------------------------------------
  // The gateway's record
  // ---------------------------------------------------------------------------

  /** Setting a key of an insertion-ordered map: in place when it exists, last when it is new. */
  function Put(steps: seq<Step>, step: Step): seq<Step> {
    if steps == [] then [step]
    else if steps[0].id == step.id then [step] + steps[1..]
    else [steps[0]] + Put(steps[1..], step)
  }

  function Lookup(steps: seq<Step>, id: string): Option<Step> {
    if steps == [] then None
    else if steps[0].id == id then Some(steps[0])
    else Lookup(steps[1..], id)
  }

  predicate UniqueIds(steps: seq<Step>) {
    steps == [] || (Lookup(steps[1..], steps[0].id).None? && UniqueIds(steps[1..]))
  }

  function Record(v: View, e: GatewayEvent): View {
    match e
    case TurnStarted(caption, model, provider) =>
      v.(modelLabel := Or(caption, Or(model, v.modelLabel)), provider := provider)
    case StepReported(step) => v.(steps := Put(v.steps, step))
    case ReasoningDelta(text) => v.(reasoning := Tail(v.reasoning + text, REASONING_TAIL))
    case ReplyDelta(text) => v.(reply := Tail(v.reply + text, REPLY_TAIL))
    case ReplyReset => v.(reply := "")
    case TurnCompleted(provider, model) => v.(provider := provider, modelLabel := Or(model, v.modelLabel))
    case TurnFailed(_) => v
  }

  function Recorded(events: seq<GatewayEvent>): View {
    if events == [] then EmptyView else Record(Recorded(events[..|events| - 1]), events[|events| - 1])
  }

  /** The heading is the last one named: a start gives label and provider, a completion its model and provider. */
  lemma HeadingsAreTheLastNamed(events: seq<GatewayEvent>, e: GatewayEvent)
    ensures
      var before, after := Recorded(events), Recorded(events + [e]);
      match e
      case TurnStarted(caption, model, provider) =>
        && after.provider == provider
        && after.modelLabel == (if caption != "" then caption else if model != "" then model else before.modelLabel)
      case TurnCompleted(provider, model) =>
        && after.provider == provider && after.modelLabel == (if model != "" then model else before.modelLabel)
      case _ => after.provider == before.provider && after.modelLabel == before.modelLabel
  {
    assert (events + [e])[..|events|] == events;
  }

  // ---------------------------------------------------------------------------
  // The browser's fold
  // ---------------------------------------------------------------------------

  function FindStep(steps: seq<Step>, id: string, i: nat): (index: int)
    requires i <= |steps|
    ensures index == -1 || i <= index < |steps|
    decreases |steps| - i
  {
    if i == |steps| then -1 else if steps[i].id == id then i else FindStep(steps, id, i + 1)
  }

  function Apply(v: View, e: GatewayEvent): View {
    match e
    case TurnStarted(caption, model, provider) =>
      v.(modelLabel := Or(caption, Or(model, v.modelLabel)), provider := provider)
    case StepReported(step) =>
      var existing := FindStep(v.steps, step.id, 0);
      v.(steps := if existing == -1 then v.steps + [step] else v.steps[existing := step])
    case ReasoningDelta(text) => v.(reasoning := Tail(v.reasoning + text, 4000))
    case ReplyDelta(text) => v.(reply := Tail(v.reply + text, 20000))
    case ReplyReset => v.(reply := "")
    case TurnCompleted(_, _) => v
    case TurnFailed(_) => v
  }

  function AppliedFrom(v: View, events: seq<GatewayEvent>): View {
    if events == [] then v else Apply(AppliedFrom(v, events[..|events| - 1]), events[|events| - 1])
  }

  function Applied(events: seq<GatewayEvent>): View {
    AppliedFrom(EmptyView, events)
  }

  ghost predicate NotCompleted(events: seq<GatewayEvent>) {
    forall e :: e in events ==> !e.TurnCompleted?
  }

  /** Replacing the found row is setting the key. */
  lemma {:induction false} FindIsPut(steps: seq<Step>, step: Step, i: nat)
    requires i <= |steps|
    ensures var existing := FindStep(steps, step.id, i);
            steps[..i] + Put(steps[i..], step) == if existing == -1 then steps + [step] else steps[existing := step]
    decreases |steps| - i
  {
    if i < |steps| {
      FindIsPut(steps, step, i + 1);
      assert steps[i..][1..] == steps[i + 1..];
      if steps[i].id != step.id {
        assert steps[..i] + ([steps[i]] + Put(steps[i + 1..], step)) == steps[..i + 1] + Put(steps[i + 1..], step);
      }
    }
  }

  /** Before completion the browser shows exactly the gateway's snapshot, event for event. */
  lemma {:induction false} FoldsAgree(events: seq<GatewayEvent>)
    requires NotCompleted(events)
    ensures Applied(events) == Recorded(events)
  {
    if events != [] {
      var init, last := events[..|events| - 1], events[|events| - 1];
      FoldsAgree(init);
      if last.StepReported? {
        var steps := Recorded(init).steps;
        FindIsPut(steps, last.step, 0);
        assert steps[..0] + Put(steps[0..], last.step) == Put(steps, last.step);
      }
    }
  }

  /** After completion they differ exactly when the answer came from another model or provider than the caption says. */
  lemma CompletionIsNotFolded(events: seq<GatewayEvent>, provider: string, model: string)
    requires NotCompleted(events)
    ensures var v, all := Recorded(events), events + [TurnCompleted(provider, model)];
            Applied(all) == Recorded(all) <==> provider == v.provider && (model == "" || model == v.modelLabel)
  {
    FoldsAgree(events);
    var all := events + [TurnCompleted(provider, model)];
    assert all[..|events|] == events;
  }

  /** The words shown after these events, starting from some. */
  function DraftFrom(start: string, events: seq<GatewayEvent>): string {
    if events == [] then start
    else
      var before, last := DraftFrom(start, events[..|events| - 1]), events[|events| - 1];
      if last.ReplyDelta? then before + last.text else if last.ReplyReset? then "" else before
  }

  function ThinkingFrom(start: string, events: seq<GatewayEvent>): string {
    if events == [] then start
    else
      var before, last := ThinkingFrom(start, events[..|events| - 1]), events[|events| - 1];
      if last.ReasoningDelta? then before + last.thought else before
  }

  /** All the words since the last reset. */
  function Draft(events: seq<GatewayEvent>): string {
    DraftFrom("", events)
  }

  function Thinking(events: seq<GatewayEvent>): string {
    ThinkingFrom("", events)
  }

  /** The bounded fields are the tails of the whole text, however it was sliced into deltas. */
  lemma {:induction false} KeepsTails(events: seq<GatewayEvent>)
    ensures Recorded(events).reply == Tail(Draft(events), 20000)
    ensures Recorded(events).reasoning == Tail(Thinking(events), 4000)
  {
    if events != [] {
      var init, last := events[..|events| - 1], events[|events| - 1];
      KeepsTails(init);
      match last {
        case ReplyDelta(text) => TailOfTail(Draft(init), text, REPLY_TAIL);
        case ReasoningDelta(text) => TailOfTail(Thinking(init), text, REASONING_TAIL);
        case _ =>
      }
    }
  }

  /** Every reported step has one row, holding its last report. */
  lemma {:induction false} PutKeepsRows(steps: seq<Step>, step: Step)
    requires UniqueIds(steps)
    ensures UniqueIds(Put(steps, step))
    ensures forall id :: Lookup(Put(steps, step), id) == if id == step.id then Some(step) else Lookup(steps, id)
  {
    if steps != [] && steps[0].id != step.id {
      PutKeepsRows(steps[1..], step);
    }
  }

  // ---------------------------------------------------------------------------
  // The gateway's stream
  // ---------------------------------------------------------------------------

  class TurnStream {
    var closed: bool
    var stopped: bool
    var modelLabel: string
    var provider: string
    var reasoning: string
    var reply: string
    var steps: seq<Step>
    /** Everything recorded, and what of it reached the connection. */
    ghost var recorded: seq<GatewayEvent>
    ghost var delivered: seq<GatewayEvent>

    function Snapshot(): View
      reads this
    {
      View(modelLabel, provider, steps, reasoning, reply)
    }

    ghost predicate Valid()
      reads this
    {
      && Snapshot() == Recorded(recorded) && UniqueIds(steps)
      && delivered <= recorded
      && (!closed ==> delivered == recorded)
    }

    constructor ()
      ensures Valid() && !closed && !stopped && recorded == []
      ensures Snapshot() == View("the desk", "", [], "", "")
    {
      closed, stopped := false, false;
      modelLabel, provider, reasoning, reply, steps := "the desk", "", "", "", [];
      recorded, delivered := [], [];
    }

    /** Fold one outgoing event into the snapshot. */
    method RecordEvent(e: GatewayEvent)
      requires Valid() && !e.StepReported?
      modifies this`modelLabel, this`provider, this`reasoning, this`reply
      ensures Snapshot() == Record(old(Snapshot()), e)
    {
      match e {
        case TurnStarted(caption, model, supplier) =>
          modelLabel := Or(caption, Or(model, modelLabel));
          provider := supplier;
        case ReasoningDelta(text) => reasoning := Tail(reasoning + text, REASONING_TAIL);
        case ReplyDelta(text) => reply := Tail(reply + text, REPLY_TAIL);
        case ReplyReset => reply := "";
        case TurnCompleted(supplier, model) =>
          provider := supplier;
          modelLabel := Or(model, modelLabel);
        case _ =>
      }
    }

    /** Send an event that is not a step. A write that throws closes the stream. */
    method Send(e: GatewayEvent, writable: bool)
      requires Valid() && !e.StepReported?
      modifies this
      ensures Valid() && recorded == old(recorded) + [e] && stopped == old(stopped)
      ensures closed == (old(closed) || !writable)
      ensures delivered == if old(closed) || !writable then old(delivered) else old(delivered) + [e]
    {
      RecordEvent(e);
      recorded := recorded + [e];
      assert recorded[..|recorded| - 1] == old(recorded);
      if closed {
        return;
      }
      if writable {
        delivered := delivered + [e];
      } else {
        closed := true;
      }
    }

    /** Announce a step, unless the stream is over or the row already says so. */
    method Announce(step: Step, writable: bool)
      requires Valid()
      modifies this
      ensures Valid() && stopped == old(stopped)
      ensures
        var previous := Lookup(old(steps), step.id);
        var news := !old(closed)
          && !(previous.Some? && previous.value.state == step.state && previous.value.detail == step.detail);
        && recorded == (if news then old(recorded) + [StepReported(step)] else old(recorded))
        && closed == (old(closed) || (news && !writable))
        && delivered == (if news && writable then old(delivered) + [StepReported(step)] else old(delivered))
    {
      if closed {
        return;
      }
      var previous := Lookup(steps, step.id);
      if previous.Some? && previous.value.state == step.state && previous.value.detail == step.detail {
        return;
      }
      PutKeepsRows(steps, step);
      steps := Put(steps, step);
      recorded := recorded + [StepReported(step)];
      assert recorded[..|recorded| - 1] == old(recorded);
      if writable {
        delivered := delivered + [StepReported(step)];
      } else {
        closed := true;
      }
    }

    method End()
      requires Valid()
      modifies this`closed
      ensures Valid() && closed
    {
      closed := true;
    }

    /** The traveler's Stop: the flag is raised, and the stream ends like any other. */
    method Stop()
      requires Valid()
      modifies this`closed, this`stopped
      ensures Valid() && closed && stopped
    {
      stopped := true;
      End();
    }

    /** What a browser that read the stream shows is the snapshot a poll would get. */
    lemma ScreenIsSnapshot()
      requires Valid() && !closed && NotCompleted(recorded)
      ensures Applied(delivered) == Snapshot()
    {
      FoldsAgree(recorded);
    }
  }

  // ---------------------------------------------------------------------------
  // Merging polled snapshots
  // ---------------------------------------------------------------------------

  function Rank(state: StepState): nat {
    match state
    case Running => 0
    case Done => 1
    case Failed => 1
  }

  /** Of two reports of one row: a finished one beats a running one, and an unchanged one keeps the screen's. */
  function FurtherAlong(mine: Step, incoming: Step): Step {
    if Rank(mine.state) > Rank(incoming.state) then mine
    else if mine.state == incoming.state && mine.detail == incoming.detail && mine.caption == incoming.caption then mine
    else incoming
  }

  /** A finished row is not restarted; one that says the same stays the screen's; otherwise the newer report wins. */
  lemma FurtherAlongExactly(mine: Step, incoming: Step)
    ensures mine.state != Running && incoming.state == Running ==> FurtherAlong(mine, incoming) == mine
    ensures mine.state == Running || incoming.state != Running ==>
              FurtherAlong(mine, incoming) ==
              if mine.state == incoming.state && mine.detail == incoming.detail && mine.caption == incoming.caption
              then mine else incoming
  {
  }

  /** What a row becomes when the screen has `mine` and the snapshot `incoming`. */
  function Row(mine: Option<Step>, incoming: Option<Step>): Option<Step> {
    if mine.None? then incoming
    else if incoming.None? then mine
    else Some(FurtherAlong(mine.value, incoming.value))
  }

  /** The map the merge starts from: current rows by id, in the order first set. */
  function Keyed(steps: seq<Step>): seq<Step> {
    if steps == [] then [] else Put(Keyed(steps[..|steps| - 1]), steps[|steps| - 1])
  }

  function Without(steps: seq<Step>, id: string): seq<Step> {
    if steps == [] then []
    else if steps[0].id == id then steps[1..]
    else [steps[0]] + Without(steps[1..], id)
  }

  /** The incoming rows, each as far along as either side has it, then the local rows left over. */
  function MergedRows(local: seq<Step>, incoming: seq<Step>): seq<Step>
    decreases |incoming|
  {
    if incoming == [] then local
    else
      var step := incoming[0];
      [Row(Lookup(local, step.id), Some(step)).value] + MergedRows(Without(local, step.id), incoming[1..])
  }

  /** Does the merge say anything the screen does not already say? */
  predicate News(local: seq<Step>, incoming: seq<Step>)
    decreases |incoming|
  {
    if incoming == [] then local != []
    else
      var step := incoming[0];
      var mine := Lookup(local, step.id);
      Row(mine, Some(step)) != mine || News(Without(local, step.id), incoming[1..])
  }

  function Merged(current: seq<Step>, incoming: seq<Step>): seq<Step> {
    if incoming != [] && News(Keyed(current), incoming) then MergedRows(Keyed(current), incoming) else current
  }

  method MergeSteps(current: seq<Step>, incoming: seq<Step>) returns (r: seq<Step>)
    ensures r == Merged(current, incoming)
  {
    hide Lookup, Without, Keyed, FurtherAlong;
    if incoming == [] {
      return current;
    }
    var local := Keyed(current);
    var merged := [];
    var changed := false;
    for i := 0 to |incoming|
      invariant merged + MergedRows(local, incoming[i..]) == MergedRows(Keyed(current), incoming)
      invariant (changed || News(local, incoming[i..])) == News(Keyed(current), incoming)
    {
      var step := incoming[i];
      assert incoming[i..][0] == step && incoming[i..][1..] == incoming[i + 1..];
      var mine := Lookup(local, step.id);
      var row := if mine.Some? then FurtherAlong(mine.value, step) else step;
      if mine != Some(row) {
        changed := true;
      }
      ghost var before := merged + MergedRows(local, incoming[i..]);
      if mine.Some? {
        local := Without(local, step.id);
      } else {
        WithoutAbsent(local, step.id);
      }
      merged := merged + [row];
      assert merged + MergedRows(local, incoming[i + 1..]) == before;
    }
    assert incoming[|incoming|..] == [];
    merged := merged + local;
    changed := changed || local != [];
    r := if changed then merged else current;
  }

  lemma {:induction false} WithoutAbsent(steps: seq<Step>, id: string)
    requires Lookup(steps, id).None?
    ensures Without(steps, id) == steps
  {
    if steps != [] {
      WithoutAbsent(steps[1..], id);
    }
  }

  lemma {:induction false} LookupHasId(steps: seq<Step>, id: string)
    ensures Lookup(steps, id).Some? ==> Lookup(steps, id).value.id == id
  {
    if steps != [] && steps[0].id != id {
      LookupHasId(steps[1..], id);
    }
  }

  lemma {:induction false} WithoutKeepsOthers(steps: seq<Step>, id: string)
    requires UniqueIds(steps)
    ensures UniqueIds(Without(steps, id))
    ensures forall other :: Lookup(Without(steps, id), other) == if other == id then None else Lookup(steps, other)
  {
    if steps != [] && steps[0].id != id {
      WithoutKeepsOthers(steps[1..], id);
    }
  }

  lemma {:induction false} PutNewAppends(steps: seq<Step>, step: Step)
    requires Lookup(steps, step.id).None?
    ensures Put(steps, step) == steps + [step]
  {
    if steps != [] {
      PutNewAppends(steps[1..], step);
    }
  }

  lemma {:induction false} UniqueInit(steps: seq<Step>)
    requires UniqueIds(steps) && steps != []
    ensures UniqueIds(steps[..|steps| - 1]) && Lookup(steps[..|steps| - 1], steps[|steps| - 1].id).None?
    ensures forall id :: Lookup(steps[..|steps| - 1], id).Some? ==> Lookup(steps, id).Some?
  {
    if |steps| > 1 {
      var rest := steps[1..];
      UniqueInit(rest);
      assert steps[..|steps| - 1][1..] == rest[..|rest| - 1];
      LookupLast(rest);
    }
  }

  lemma {:induction false} LookupLast(steps: seq<Step>)
    requires steps != []
    ensures Lookup(steps, steps[|steps| - 1].id).Some?
  {
    if |steps| > 1 {
      LookupLast(steps[1..]);
    }
  }

  lemma {:induction false} KeyedIsSelf(steps: seq<Step>)
    requires UniqueIds(steps)
    ensures Keyed(steps) == steps
  {
    if steps != [] {
      UniqueInit(steps);
      KeyedIsSelf(steps[..|steps| - 1]);
      PutNewAppends(steps[..|steps| - 1], steps[|steps| - 1]);
    }
  }

  lemma {:induction false} MergedRowsById(local: seq<Step>, incoming: seq<Step>)
    requires UniqueIds(local) && UniqueIds(incoming)
    ensures UniqueIds(MergedRows(local, incoming))
    ensures forall id :: Lookup(MergedRows(local, incoming), id) == Row(Lookup(local, id), Lookup(incoming, id))
    decreases |incoming|
  {
    if incoming != [] {
      var step := incoming[0];
      var others := Without(local, step.id);
      WithoutKeepsOthers(local, step.id);
      LookupHasId(local, step.id);
      MergedRowsById(others, incoming[1..]);
      assert MergedRows(local, incoming)[1..] == MergedRows(others, incoming[1..]);
    }
  }

  lemma {:induction false} NoNewsSaysNothing(local: seq<Step>, incoming: seq<Step>)
    requires UniqueIds(local) && UniqueIds(incoming) && !News(local, incoming)
    ensures forall id :: Lookup(local, id) == Row(Lookup(local, id), Lookup(incoming, id))
    decreases |incoming|
  {
    if incoming != [] {
      WithoutKeepsOthers(local, incoming[0].id);
      NoNewsSaysNothing(Without(local, incoming[0].id), incoming[1..]);
    }
  }

  /** The merge, row by row: no row dropped, none duplicated, each as far along as either side has it. */
  lemma MergedById(current: seq<Step>, incoming: seq<Step>)
    requires UniqueIds(current) && UniqueIds(incoming)
    ensures UniqueIds(Merged(current, incoming))
    ensures forall id :: Lookup(Merged(current, incoming), id) == Row(Lookup(current, id), Lookup(incoming, id))
  {
    KeyedIsSelf(current);
    if incoming != [] && News(current, incoming) {
      MergedRowsById(current, incoming);
    } else if incoming != [] {
      NoNewsSaysNothing(current, incoming);
    }
  }

  /** Merging the same rows again finds them where the first merge put them. */
  lemma {:induction false} MergedRowsAgain(local: seq<Step>, incoming: seq<Step>)
    requires UniqueIds(local) && UniqueIds(incoming)
    ensures MergedRows(MergedRows(local, incoming), incoming) == MergedRows(local, incoming)
    decreases |incoming|
  {
    if incoming != [] {
      LookupHasId(local, incoming[0].id);
      WithoutKeepsOthers(local, incoming[0].id);
      MergedRowsAgain(Without(local, incoming[0].id), incoming[1..]);
      var once := MergedRows(local, incoming);
      assert Without(once, incoming[0].id) == once[1..];
    }
  }

  lemma MergeTwice(current: seq<Step>, incoming: seq<Step>)
    requires UniqueIds(current) && UniqueIds(incoming)
    ensures Merged(Merged(current, incoming), incoming) == Merged(current, incoming)
  {
    var once := Merged(current, incoming);
    MergedById(current, incoming);
    KeyedIsSelf(current);
    KeyedIsSelf(once);
    MergedRowsAgain(current, incoming);
  }

  predicate InOrderOf(rows: seq<Step>, incoming: seq<Step>) {
    |incoming| <= |rows| && forall k :: 0 <= k < |incoming| ==> rows[k].id == incoming[k].id
  }

  lemma {:induction false} MergedRowsInOrder(local: seq<Step>, incoming: seq<Step>)
    ensures InOrderOf(MergedRows(local, incoming), incoming)
    decreases |incoming|
  {
    if incoming != [] {
      LookupHasId(local, incoming[0].id);
      MergedRowsInOrder(Without(local, incoming[0].id), incoming[1..]);
      var tail := MergedRows(Without(local, incoming[0].id), incoming[1..]);
      forall k | 0 <= k < |incoming| ensures MergedRows(local, incoming)[k].id == incoming[k].id {
        if k > 0 {
          assert tail[k - 1].id == incoming[1..][k - 1].id;
        }
      }
    }
  }

  /** "The gateway's ordering wins" holds exactly when the snapshot brings news or the order was already the same. */
  lemma OrderWinsOnlyWithNews(current: seq<Step>, incoming: seq<Step>)
    requires UniqueIds(current) && UniqueIds(incoming)
    ensures InOrderOf(Merged(current, incoming), incoming) <==> News(current, incoming) || InOrderOf(current, incoming)
  {
    KeyedIsSelf(current);
    MergedRowsInOrder(current, incoming);
  }

  /** Two finished rows in another order: the snapshot's order is not adopted. */
  lemma OrderCanLose()
    ensures var a, b := Step("a", "A", None, Done, ""), Step("b", "B", None, Done, "");
            UniqueIds([a, b]) && UniqueIds([b, a]) && Merged([a, b], [b, a]) == [a, b]
  {
    var a, b := Step("a", "A", None, Done, ""), Step("b", "B", None, Done, "");
    assert a.id[0] != b.id[0];
    assert [a, b][1..] == [b] && [b, a][1..] == [a];
    assert [a][1..] == [] && [b][1..] == [];
    assert UniqueIds([a]) && UniqueIds([b]);
    KeyedIsSelf([a, b]);
    assert Without([b], "b") == [];
    assert Without([a, b], "b") == [a];
    assert Lookup([a, b], "b") == Some(b);
    assert !News([], []);
    assert !News([a], [a]);
  }

  // ---------------------------------------------------------------------------
  // Adopting snapshots
  // ---------------------------------------------------------------------------

  function Adopt(current: View, snapshot: View): View {
    View(
      Or(snapshot.modelLabel, current.modelLabel),
      Or(snapshot.provider, current.provider),
      Merged(current.steps, snapshot.steps),
      if |snapshot.reasoning| > |current.reasoning| then snapshot.reasoning else current.reasoning,
      if |snapshot.reply| > |current.reply| then snapshot.reply else current.reply)
  }

  /** A screen that is gone adopts nothing; a poll that confirms the screen gives the same object back. */
  method AdoptLiveTurn(current: Option<View>, snapshot: View) returns (r: Option<View>)
    ensures r == if current.None? then None else Some(Adopt(current.value, snapshot))
  {
    if current.None? {
      return current;
    }
    var mine := current.value;
    var steps := MergeSteps(mine.steps, snapshot.steps);
    var reasoning := if |snapshot.reasoning| > |mine.reasoning| then snapshot.reasoning else mine.reasoning;
    var reply := if |snapshot.reply| > |mine.reply| then snapshot.reply else mine.reply;
    var modelLabel := Or(snapshot.modelLabel, mine.modelLabel);
    var provider := Or(snapshot.provider, mine.provider);
    if steps == mine.steps && reasoning == mine.reasoning && reply == mine.reply
       && modelLabel == mine.modelLabel && provider == mine.provider {
      return current;
    }
    r := Some(mine.(
      steps := steps, reasoning := reasoning, reply := reply, modelLabel := modelLabel, provider := provider));
  }

  function AdoptAll(current: View, snapshots: seq<View>): View
    decreases |snapshots|
  {
    if snapshots == [] then current else AdoptAll(Adopt(current, snapshots[0]), snapshots[1..])
  }

  /** `later` shows every row of `earlier` at least as far along, and no fewer words. */
  ghost predicate NotBehind(later: View, earlier: View) {
    && UniqueIds(later.steps)
    && |later.reply| >= |earlier.reply|
    && |later.reasoning| >= |earlier.reasoning|
    && (forall id :: Lookup(earlier.steps, id).Some? ==> (
          && Lookup(later.steps, id).Some?
          && Rank(Lookup(later.steps, id).value.state) >= Rank(Lookup(earlier.steps, id).value.state)))
  }

  /** One snapshot takes the screen to or past both what it showed and what the snapshot says. */
  lemma AdoptIsNotBehind(current: View, snapshot: View)
    requires UniqueIds(current.steps) && UniqueIds(snapshot.steps)
    ensures NotBehind(Adopt(current, snapshot), current)
    ensures NotBehind(Adopt(current, snapshot), snapshot)
    ensures forall id :: Lookup(Adopt(current, snapshot).steps, id).Some? ==> (
              Lookup(current.steps, id).Some? || Lookup(snapshot.steps, id).Some?)
  {
    MergedById(current.steps, snapshot.steps);
  }

  /** Over any run of snapshots the screen ends at or past its start and every one of them. */
  lemma {:induction false} NeverGoesBack(current: View, snapshots: seq<View>)
    requires UniqueIds(current.steps) && forall s :: s in snapshots ==> UniqueIds(s.steps)
    ensures NotBehind(AdoptAll(current, snapshots), current)
    ensures forall s :: s in snapshots ==> NotBehind(AdoptAll(current, snapshots), s)
    ensures forall id :: Lookup(AdoptAll(current, snapshots).steps, id).Some? ==> (
              Lookup(current.steps, id).Some? || exists s :: s in snapshots && Lookup(s.steps, id).Some?)
    decreases |snapshots|
  {
    if snapshots != [] {
      var next := Adopt(current, snapshots[0]);
      AdoptIsNotBehind(current, snapshots[0]);
      NeverGoesBack(next, snapshots[1..]);
      forall s | s in snapshots ensures NotBehind(AdoptAll(current, snapshots), s) {
        assert s == snapshots[0] || s in snapshots[1..];
      }
    }
  }

  lemma AdoptTwice(current: View, snapshot: View)
    requires UniqueIds(current.steps) && UniqueIds(snapshot.steps)
    ensures Adopt(Adopt(current, snapshot), snapshot) == Adopt(current, snapshot)
  {
    MergeTwice(current.steps, snapshot.steps);
  }
}
