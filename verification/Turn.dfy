/**
 One turn of the desk (packages/agent-core/src/turn.ts): up to five model rounds that
 may ask for tools, a draft that is streamed, withdrawn and streamed again, and a last
 narration. The model and the tools are arbitrary: the k-th model call of the turn
 answers model(k), the k-th execution answers tools(k).
 */
module Turn {
  import opened Wrappers
  import opened Text
  import opened Sequences
  import opened ToolCalls

  const AGENTIC_TOOL_ROUNDS: nat := 5

  datatype Delta = Delta(text: string, reasoning: string)

  /** A model call throws (Stop included) after showing some deltas, or completes. */
  datatype ModelReply =
    | Threw(deltas: seq<Delta>)
    | Replied(text: string, toolCalls: seq<ModelCall>, deltas: seq<Delta>)

  /** The desk's own rendering of what ran, and the test for a narrated retry. */
  datatype Voice = Voice(fallback: seq<ToolResult> -> string, announcesRetry: string -> bool)

  // ---------------------------------------------------------------------------
  // Tools the turn already proved dead
  // ---------------------------------------------------------------------------

  /** The text up to the first full stop followed by white space, from character i on. */
  function SentenceEnd(summary: string, i: nat): nat
    requires i <= |summary|
    ensures i <= SentenceEnd(summary, i) <= |summary|
    decreases |summary| - i
  {
    if i == |summary| || (0 < i && summary[i - 1] == '.' && IsSpace(summary[i])) then i
    else SentenceEnd(summary, i + 1)
  }

  function FirstSentence(summary: string): string {
    var first := summary[..SentenceEnd(summary, 0)];
    if first != [] && first[|first| - 1] == '.' then first[..|first| - 1] else first
  }

  predicate Terminal(r: ToolResult) {
    !r.ok && !r.blocked && r.retryable == Some(false)
  }

  function DeadTools(results: seq<ToolResult>): map<string, string> {
    if results == [] then map[]
    else
      var before, last := DeadTools(results[..|results| - 1]), results[|results| - 1];
      if Terminal(last) then before[last.name := FirstSentence(last.summary)] else before
  }

  method CollectDeadTools(results: seq<ToolResult>) returns (dead: map<string, string>)
    ensures dead == DeadTools(results)
  {
    dead := map[];
    for i := 0 to |results|
      invariant dead == DeadTools(results[..i])
    {
      assert results[..i + 1][..i] == results[..i];
      var result := results[i];
      if result.ok || result.blocked || result.retryable != Some(false) {
        continue;
      }
      dead := dead[result.name := FirstSentence(result.summary)];
    }
    assert results[..|results|] == results;
  }

  /** The last terminal failure under a name is the one that decides whether the tool is refused. */
  lemma {:induction false} LastFailureDecides(results: seq<ToolResult>, i: nat)
    requires i < |results| && Terminal(results[i])
    requires forall j :: i < j < |results| && Terminal(results[j]) ==> results[j].name != results[i].name
    ensures DeadReason(DeadTools(results), results[i].name) == FirstSentence(results[i].summary)
  {
    if i < |results| - 1 {
      LastFailureDecides(results[..|results| - 1], i);
    }
  }

  /** A dead tool has a terminal failure with a reason. */
  lemma {:induction false} DeadToolFailed(results: seq<ToolResult>, name: string)
    requires DeadReason(DeadTools(results), name) != ""
    ensures exists r :: r in results && Terminal(r) && r.name == name && FirstSentence(r.summary) != ""
  {
    var last := results[|results| - 1];
    if Terminal(last) && last.name == name {
      assert last in results;
    } else {
      DeadToolFailed(results[..|results| - 1], name);
    }
  }

  /** Result i is the last terminal failure under its name. */
  ghost predicate LastTerminal(results: seq<ToolResult>, i: nat) {
    && i < |results| && Terminal(results[i])
    && forall j :: i < j < |results| && Terminal(results[j]) ==> results[j].name != results[i].name
  }

  lemma {:induction false} LastTerminalExists(results: seq<ToolResult>, j: nat) returns (i: nat)
    requires j < |results| && Terminal(results[j])
    ensures j <= i && LastTerminal(results, i) && results[i].name == results[j].name
    decreases |results| - j
  {
    i := j;
    if k :| j < k < |results| && Terminal(results[k]) && results[k].name == results[j].name {
      i := LastTerminalExists(results, k);
    }
  }

  /** A tool is refused as dead exactly when the last terminal failure under its name has a reason. */
  lemma DeadExactly(results: seq<ToolResult>, name: string)
    ensures DeadReason(DeadTools(results), name) != ""
       <==> exists i: nat ::
         LastTerminal(results, i) && results[i].name == name && FirstSentence(results[i].summary) != ""
  {
    hide FirstSentence, DeadTools;
    if DeadReason(DeadTools(results), name) != "" {
      DeadToolFailed(results, name);
      var j: nat :| j < |results| && Terminal(results[j]) && results[j].name == name;
      var i := LastTerminalExists(results, j);
      LastFailureDecides(results, i);
      assert LastTerminal(results, i) && results[i].name == name && FirstSentence(results[i].summary) != "";
    }
    if i: nat :| LastTerminal(results, i) && results[i].name == name && FirstSentence(results[i].summary) != "" {
      LastFailureDecides(results, i);
    }
  }

  predicate CanRetry(results: seq<ToolResult>) {
    exists r :: r in results && !r.ok && !r.blocked && r.retryable != Some(false)
  }

  predicate AnyFailed(results: seq<ToolResult>) {
    exists r :: r in results && !r.ok
  }

  // ---------------------------------------------------------------------------
  // What is on the screen
  // ---------------------------------------------------------------------------

  function Show(draft: string, e: TurnEvent): string {
    if e.ReplyDelta? then draft + e.text else if e.ReplyReset? then "" else draft
  }

  /** The draft a screen shows: every delta since the last reset. */
  function Screen(events: seq<TurnEvent>): string {
    if events == [] then "" else Show(Screen(events[..|events| - 1]), events[|events| - 1])
  }

  /** The tool announcements among the events. */
  function ToolTrace(events: seq<TurnEvent>): seq<TurnEvent> {
    if events == [] then []
    else
      var last := events[|events| - 1];
      ToolTrace(events[..|events| - 1]) + if last.ToolStart? || last.ToolEnd? then [last] else []
  }

  function Joined(deltas: seq<Delta>): string {
    if deltas == [] then "" else Joined(deltas[..|deltas| - 1]) + deltas[|deltas| - 1].text
  }

  lemma Emit(events: seq<TurnEvent>, e: TurnEvent)
    ensures ToolTrace(events + [e]) == ToolTrace(events) + if e.ToolStart? || e.ToolEnd? then [e] else []
    ensures e.ReplyDelta? ==> Screen(events + [e]) == Screen(events) + e.text
    ensures e.ReplyReset? ==> Screen(events + [e]) == ""
    ensures !e.ReplyDelta? && !e.ReplyReset? ==> Screen(events + [e]) == Screen(events)
  {
    assert (events + [e])[..|events|] == events;
  }

  lemma {:induction false} TraceAppend(a: seq<TurnEvent>, b: seq<TurnEvent>)
    ensures ToolTrace(a + b) == ToolTrace(a) + ToolTrace(b)
  {
    if b == [] {
      assert a + b == a;
    } else {
      TraceAppend(a, b[..|b| - 1]);
      assert (a + b)[..|a + b| - 1] == a + b[..|b| - 1];
    }
  }

  lemma {:induction false} ScreenAppend(a: seq<TurnEvent>, b: seq<TurnEvent>)
    requires forall e :: e in b ==> !e.ReplyReset?
    ensures Screen(a + b) == Screen(a) + Screen(b)
  {
    if b == [] {
      assert a + b == a;
    } else {
      ScreenAppend(a, b[..|b| - 1]);
      assert (a + b)[..|a + b| - 1] == a + b[..|b| - 1];
    }
  }

  lemma FoldAppend(a: seq<TurnEvent>, b: seq<TurnEvent>)
    ensures ToolTrace(a + b) == ToolTrace(a) + ToolTrace(b)
    ensures (forall e :: e in b ==> !e.ReplyReset?) ==> Screen(a + b) == Screen(a) + Screen(b)
  {
    hide ToolTrace, Screen;
    TraceAppend(a, b);
    if forall e :: e in b ==> !e.ReplyReset? {
      ScreenAppend(a, b);
    }
  }

  ghost predicate OnlyTools(events: seq<TurnEvent>) {
    forall e :: e in events ==> e.ToolStart? || e.ToolEnd?
  }

  lemma {:induction false} ToolEventsAreTools(desk: Desk, calls: seq<PlannedCall>, n: nat, start: nat,
                                              tools: nat -> ToolResult)
    requires n <= |calls|
    ensures OnlyTools(ToolEvents(desk, calls, n, start, tools))
  {
    if n > 0 { ToolEventsAreTools(desk, calls, n - 1, start, tools); }
  }

  lemma {:induction false} ToolsAreOffScreen(events: seq<TurnEvent>)
    requires OnlyTools(events)
    ensures ToolTrace(events) == events && Screen(events) == ""
  {
    if events != [] {
      ToolsAreOffScreen(events[..|events| - 1]);
      assert events == events[..|events| - 1] + [events[|events| - 1]];
    }
  }

  /** Hand the deltas of one call to the screen, if a screen is watching. */
  method Stream(live: bool, deltas: seq<Delta>, events: seq<TurnEvent>) returns (next: seq<TurnEvent>, streamed: bool)
    ensures Screen(next) == Screen(events) + if live then Joined(deltas) else ""
    ensures ToolTrace(next) == ToolTrace(events) && events <= next
    ensures streamed <==> live && Joined(deltas) != ""
  {
    hide Screen, ToolTrace;
    next, streamed := events, false;
    if !live {
      return;
    }
    for i := 0 to |deltas|
      invariant Screen(next) == Screen(events) + Joined(deltas[..i])
      invariant ToolTrace(next) == ToolTrace(events) && events <= next
      invariant streamed <==> Joined(deltas[..i]) != ""
    {
      assert deltas[..i + 1][..i] == deltas[..i];
      if deltas[i].reasoning != "" {
        Emit(next, Reasoning(deltas[i].reasoning));
        next := next + [Reasoning(deltas[i].reasoning)];
      }
      if deltas[i].text != "" {
        streamed := true;
        Emit(next, ReplyDelta(deltas[i].text));
        next := next + [ReplyDelta(deltas[i].text)];
      }
    }
    assert deltas[..|deltas|] == deltas;
  }

  // ---------------------------------------------------------------------------
  // What the rounds run
  // ---------------------------------------------------------------------------

  /** A turn's fixed surroundings: the desk, the router's picks, and every answer to come. */
  datatype Session = Session(desk: Desk, routerNames: seq<string>, model: nat -> ModelReply, tools: nat -> ToolResult)

  /** What a turn has so far: its results, and the calls it executed, in order. */
  datatype Progress = Progress(results: seq<ToolResult>, done: seq<PlannedCall>)

  function RequestedCalls(reply: ModelReply): seq<ModelCall> {
    if reply.Replied? then reply.toolCalls else []
  }

  /** What round k asks the planner. */
  function RequestAt(t: Session, k: nat, p: Progress): Request {
    Request(if k == 0 then t.routerNames else [], RequestedCalls(t.model(k)), MAX_TOOLS_PER_TURN - |p.results|,
            Keys(p.done), Names(p.done), DeadTools(p.results))
  }

  function PlanAt(t: Session, k: nat, p: Progress): ToolPlan {
    Plan(t.desk, RequestAt(t, k, p))
  }

  /** The answers of a plan's executions, which go on from those already done. */
  function Answers(t: Session, p: Progress, plan: ToolPlan): seq<ToolResult> {
    Executed(t.desk, plan.calls, |plan.calls|, |p.done|, t.tools)
  }

  function RunPlan(t: Session, p: Progress, plan: ToolPlan): Progress {
    var ran := Answers(t, p, plan);
    Progress(p.results + (ran + plan.blocked + Unanswered(plan.rejected, ResultNames(ran))), p.done + plan.calls)
  }

  /** The progress after k rounds. A round that asks for nothing changes nothing. */
  function ProgressAfter(t: Session, k: nat): Progress {
    if k == 0 then Progress([], [])
    else
      var p := ProgressAfter(t, k - 1);
      RunPlan(t, p, PlanAt(t, k - 1, p))
  }

  /** The calls round k executes. */
  function CallsAt(t: Session, k: nat): seq<PlannedCall> {
    PlanAt(t, k, ProgressAfter(t, k)).calls
  }

  /** The account of a turn's executions: few, distinct, of tools on the desk, within every limit. */
  ghost predicate Ledger(desk: Desk, done: seq<PlannedCall>) {
    && |done| <= MAX_TOOLS_PER_TURN
    && Distinct(Keys(done))
    && (forall c :: c in done ==> c.name in desk.catalog)
    && (forall c :: c in done && Limit(c.name).Some? ==> Count(Names(done), c.name) <= Limit(c.name).value)
  }

  lemma LedgerIsHonest(desk: Desk, done: seq<PlannedCall>, req: Request)
    requires PlainNames(desk.catalog) && Ledger(desk, done)
    requires req.ran == Keys(done) && req.ranTools == Names(done)
    ensures HonestHistory(desk, req)
  {
    forall i | 0 <= i < |req.ran|
      ensures req.ranTools[i] in desk.catalog && exists x :: req.ran[i] == ToolCallKey(req.ranTools[i], x)
    {
      assert done[i] in done && req.ran[i] == ToolCallKey(done[i].name, done[i].args);
    }
  }

  lemma AppendedRecords(a: seq<PlannedCall>, b: seq<PlannedCall>)
    ensures Keys(a + b) == Keys(a) + Keys(b) && Names(a + b) == Names(a) + Names(b)
  {
  }

  /** A sound plan on top of what ran stays within every tool's limit. */
  lemma LimitsAdvance(req: Request, done: seq<PlannedCall>, p: ToolPlan)
    requires req.ranTools == Names(done) && WithinLimits(req, p)
    requires forall c :: c in done && Limit(c.name).Some? ==> Count(Names(done), c.name) <= Limit(c.name).value
    ensures forall c :: c in done + p.calls && Limit(c.name).Some? ==>
              Count(Names(done + p.calls), c.name) <= Limit(c.name).value
  {
    AppendedRecords(done, p.calls);
    forall c | c in done + p.calls && Limit(c.name).Some?
      ensures Count(Names(done + p.calls), c.name) <= Limit(c.name).value
    {
      CountAppend(Names(done), Names(p.calls), c.name);
      if i :| 0 <= i < |p.calls| && Names(p.calls)[i] == c.name {
        assert p.calls[i] in p.calls;
      } else {
        CountAbsent(Names(p.calls), c.name);
        assert forall i :: 0 <= i < |p.calls| ==> Names(p.calls)[i] != c.name;
        assert c in done;
      }
    }
  }

  lemma LedgerAdvances(desk: Desk, done: seq<PlannedCall>, req: Request, p: ToolPlan)
    requires PlainNames(desk.catalog) && Ledger(desk, done)
    requires req.ran == Keys(done) && req.ranTools == Names(done)
    requires req.remaining <= MAX_TOOLS_PER_TURN - |done|
    requires Sound(desk, req, p)
    ensures Ledger(desk, done + p.calls)
  {
    hide Requested;
    AppendedRecords(done, p.calls);
    LimitsAdvance(req, done, p);
  }

  lemma EmptyLedger(desk: Desk)
    ensures Ledger(desk, [])
  {
  }

  /** An honest account gives a sound plan. */
  lemma RoundIsSound(t: Session, k: nat, p: Progress)
    requires PlainNames(t.desk.catalog) && Ledger(t.desk, p.done)
    ensures Sound(t.desk, RequestAt(t, k, p), PlanAt(t, k, p))
  {
    hide Ledger, Sound, Plan;
    LedgerIsHonest(t.desk, p.done, RequestAt(t, k, p));
    PlanIsSound(t.desk, RequestAt(t, k, p));
  }

  /** Running a sound plan keeps the account. */
  lemma RunKeepsLedger(t: Session, k: nat, p: Progress)
    requires PlainNames(t.desk.catalog) && Ledger(t.desk, p.done) && |p.done| <= |p.results|
    requires Sound(t.desk, RequestAt(t, k, p), PlanAt(t, k, p))
    ensures var q := RunPlan(t, p, PlanAt(t, k, p)); Ledger(t.desk, q.done) && |q.done| <= |q.results|
  {
    hide Ledger, Plan, WithinLimits, RouterFillsIn, Distinct, Executed, Unanswered;
    var plan := PlanAt(t, k, p);
    forall c | c in plan.calls ensures c.name in t.desk.catalog {
      assert MayRun(t.desk, RequestAt(t, k, p), c);
    }
    LedgerAdvances(t.desk, p.done, RequestAt(t, k, p), plan);
    ExecutedAll(t.desk, plan.calls, |plan.calls|, |p.done|, t.tools);
  }

  /**
   Over all rounds and for every model output, at most three tools run, no call runs
   twice, no tool runs past its limit, and no round runs a tool that is dead by then.
   */
  lemma {:induction false} RoundsKeepTheLedger(t: Session, k: nat)
    requires PlainNames(t.desk.catalog)
    ensures Ledger(t.desk, ProgressAfter(t, k).done)
    ensures |ProgressAfter(t, k).done| <= |ProgressAfter(t, k).results|
    ensures Sound(t.desk, RequestAt(t, k, ProgressAfter(t, k)), PlanAt(t, k, ProgressAfter(t, k)))
  {
    hide Ledger, PlanAt, Sound, RunPlan, RequestAt;
    if k == 0 {
      EmptyLedger(t.desk);
    } else {
      RoundsKeepTheLedger(t, k - 1);
      RunKeepsLedger(t, k - 1, ProgressAfter(t, k - 1));
    }
    RoundIsSound(t, k, ProgressAfter(t, k));
  }

  lemma StepGrows(t: Session, p: Progress, plan: ToolPlan)
    ensures p.results <= RunPlan(t, p, plan).results
  {
    hide Executed, Unanswered;
  }

  lemma {:induction false} ResultsGrow(t: Session, j: nat, k: nat)
    requires j <= k
    ensures ProgressAfter(t, j).results <= ProgressAfter(t, k).results
  {
    hide RunPlan, PlanAt;
    if j < k {
      ResultsGrow(t, j, k - 1);
      StepGrows(t, ProgressAfter(t, k - 1), PlanAt(t, k - 1, ProgressAfter(t, k - 1)));
    }
  }

  /** Every terminal failure of these tools says why, as those of the bundled tools do. */
  ghost predicate TheySayWhy(tools: nat -> ToolResult) {
    forall n: nat :: Terminal(tools(n)) ==> FirstSentence(tools(n).summary) != ""
  }

  /** Every terminal failure so far is the answer of an execution: no refusal of the desk is one. */
  lemma {:induction false} TerminalResultsAreAnswers(t: Session, k: nat, r: ToolResult)
    requires r in ProgressAfter(t, k).results && Terminal(r)
    ensures exists n: nat :: r == t.tools(n)
  {
    hide RunPlan, PlanAt, Terminal;
    if k > 0 {
      var p := ProgressAfter(t, k - 1);
      if r in p.results {
        TerminalResultsAreAnswers(t, k - 1, r);
      } else {
        NewTerminalIsAnAnswer(t, k - 1, p, r);
      }
    }
  }

  lemma NewTerminalIsAnAnswer(t: Session, k: nat, p: Progress, r: ToolResult)
    requires r in RunPlan(t, p, PlanAt(t, k, p)).results && r !in p.results && Terminal(r)
    ensures exists n: nat :: r == t.tools(n)
  {
    var plan := PlanAt(t, k, p);
    assert plan == Plan(t.desk, RequestAt(t, k, p));
    RefusalsAreNotTerminal(t.desk, RequestAt(t, k, p), r);
    hide Plan, PlanAt, Terminal, Executed, Unanswered;
    var ran := Answers(t, p, plan);
    UnansweredAreRejected(plan.rejected, ResultNames(ran), r);
    ExecutedAreAnswers(t.desk, plan.calls, |plan.calls|, |p.done|, t.tools, r);
  }

  lemma RefusalsAreNotTerminal(desk: Desk, req: Request, r: ToolResult)
    ensures r in Plan(desk, req).blocked || r in Plan(desk, req).rejected ==> !Terminal(r)
  {
    RefusalsAreTheDesks(desk, req);
  }

  /**
   A tool that failed terminally in an earlier round does not run again, when terminal
   failures say why.
   */
  lemma DeadToolDoesNotRunAgain(t: Session, j: nat, k: nat, i: nat)
    requires PlainNames(t.desk.catalog) && TheySayWhy(t.tools) && j <= k
    requires i < |ProgressAfter(t, j).results| && Terminal(ProgressAfter(t, j).results[i])
    ensures ProgressAfter(t, j).results[i].name !in Names(CallsAt(t, k))
  {
    ResultsGrow(t, j, k);
    var known := ProgressAfter(t, k).results;
    var last := LastTerminalExists(known, i);
    LastFailureDecides(known, last);
    assert known[last] in known;
    TerminalResultsAreAnswers(t, k, known[last]);
    RoundsKeepTheLedger(t, k);
    var calls := CallsAt(t, k);
    forall c | 0 <= c < |calls| ensures calls[c].name != known[i].name {
      assert MayRun(t.desk, RequestAt(t, k, ProgressAfter(t, k)), calls[c]);
    }
  }

  /** A desk with one tool, a model that calls it twice at once and then once more, and the tool's two answers. */
  function TwiceThenAgain(first: ToolResult, second: ToolResult): Session {
    var name := first.name;
    Session(
      Desk({name}, (n: string, args: string) => true), [],
      (k: nat) =>
        Replied("", if k == 0 then [ModelCall(name, "1"), ModelCall(name, "2")] else [ModelCall(name, "3")], []),
      (n: nat) => if n == 0 then first else second)
  }

  /** Without a reason in the last terminal failure the tool runs again, though an earlier one gave its reason. */
  lemma ReasonlessFailureRevives(first: ToolResult, second: ToolResult)
    requires Terminal(first) && Terminal(second) && first.name == second.name && Limit(first.name).None?
    requires FirstSentence(second.summary) == ""
    ensures ProgressAfter(TwiceThenAgain(first, second), 1).results == [first, second]
    ensures first.name in Names(CallsAt(TwiceThenAgain(first, second), 1))
  {
    hide Plan, FirstSentence, Executed, Unanswered, RunPlan, DeadTools;
    var t, name := TwiceThenAgain(first, second), first.name;
    var one, two := PlannedCall(FromModel, name, Some("1")), PlannedCall(FromModel, name, Some("2"));
    EmptyHistory(t);
    TwoFreshCalls(t.desk, RequestAt(t, 0, Progress([], [])), name);
    assert PlanAt(t, 0, Progress([], [])) == ToolPlan([one, two], [], [], 0);
    TwoRun(t, one, two);
    var p := ProgressAfter(t, 1);
    LastFailureDecides(p.results, 1);
    assert Keys(p.done)[0] == ToolCallKey(name, Some("1")) && Keys(p.done)[1] == ToolCallKey(name, Some("2"));
    KeysDiffer(name, "3", "1");
    KeysDiffer(name, "3", "2");
    OneFreshCall(t.desk, RequestAt(t, 1, p), ModelCall(name, "3"));
    assert CallsAt(t, 1)[0].name == name;
    assert Names(CallsAt(t, 1))[0] == name;
  }

  lemma EmptyHistory(t: Session)
    ensures ProgressAfter(t, 0) == Progress([], [])
    ensures RequestAt(t, 0, Progress([], []))
            == Request(t.routerNames, RequestedCalls(t.model(0)), MAX_TOOLS_PER_TURN, [], [], map[])
  {
  }

  lemma KeysDiffer(name: string, a: string, b: string)
    requires |a| == 1 && |b| == 1 && a != b
    ensures ToolCallKey(name, Some(a)) != ToolCallKey(name, Some(b))
  {
    assert ToolCallKey(name, Some(a))[|name| + 1] == a[0];
    assert ToolCallKey(name, Some(b))[|name| + 1] == b[0];
  }

  lemma OneFreshCall(desk: Desk, req: Request, call: ModelCall)
    requires Ceiling(req) > 0 && req.routerNames == [] && req.modelCalls == [call]
    requires call.name in desk.catalog && desk.parses(call.name, call.arguments)
    requires ToolCallKey(call.name, Some(call.arguments)) !in req.ran
    requires DeadReason(req.dead, call.name) == "" && Limit(call.name).None?
    ensures |Plan(desk, req).calls| == 1 && Plan(desk, req).calls[0].name == call.name
  {
    hide ToolCallKey, DeadReason, Limit, Prefix;
    var none := Planning(ToolPlan([], [], [], 0), {});
    assert PlanModelCalls(desk, req, 0) == none;
    assert Keys(none.plan.calls) == [];
    assert PlanModelCalls(desk, req, 1) == ConsiderModelCall(desk, req, none, call);
  }

  lemma TwoFreshCalls(desk: Desk, req: Request, name: string)
    requires req == Request([], [ModelCall(name, "1"), ModelCall(name, "2")], MAX_TOOLS_PER_TURN, [], [], map[])
    requires name in desk.catalog && desk.parses(name, "1") && desk.parses(name, "2") && Limit(name).None?
    ensures Plan(desk, req)
            == ToolPlan([PlannedCall(FromModel, name, Some("1")), PlannedCall(FromModel, name, Some("2"))], [], [], 0)
  {
    hide ToolCallKey, Limit;
    var none := Planning(ToolPlan([], [], [], 0), {});
    var one := PlannedCall(FromModel, name, Some("1"));
    assert PlanModelCalls(desk, req, 0) == none;
    assert PlanModelCalls(desk, req, 1) == ConsiderModelCall(desk, req, none, ModelCall(name, "1"));
    assert PlanModelCalls(desk, req, 1).plan == ToolPlan([one], [], [], 0);
    KeysDiffer(name, "1", "2");
    assert Keys([one]) == [ToolCallKey(name, Some("1"))];
    assert PlanModelCalls(desk, req, 2)
      == ConsiderModelCall(desk, req, PlanModelCalls(desk, req, 1), ModelCall(name, "2"));
  }

  lemma TwoRun(t: Session, one: PlannedCall, two: PlannedCall)
    requires one.name in t.desk.catalog && two.name in t.desk.catalog
    requires PlanAt(t, 0, Progress([], [])) == ToolPlan([one, two], [], [], 0)
    ensures ProgressAfter(t, 1) == Progress([t.tools(0), t.tools(1)], [one, two])
  {
    hide Plan, DeadTools;
    var calls := [one, two];
    ExecutedAll(t.desk, calls, 2, 0, t.tools);
    var ran := Executed(t.desk, calls, 2, 0, t.tools);
    assert ran == [t.tools(0), t.tools(1)];
    assert ProgressAfter(t, 0) == Progress([], []);
    assert [] + (ran + [] + []) == ran && [] + calls == calls;
  }

  /** The n-th execution has id n: it is announced once, begun and then ended, before the next one. */
  lemma {:induction false} EachExecutionHasItsOwnId(desk: Desk, done: seq<PlannedCall>, n: nat,
                                                    tools: nat -> ToolResult)
    requires n <= |done| && forall c :: c in done ==> c.name in desk.catalog
    ensures var es := ToolEvents(desk, done, n, 0, tools);
            && |es| == 2 * n
            && (forall i :: 0 <= i < n ==>
                  && es[2 * i] == ToolStart(i, done[i].name, done[i].source,
                                            if done[i].args == Some("") then None else done[i].args)
                  && es[2 * i + 1] == ToolEnd(i, tools(i).name, tools(i).ok))
  {
    hide Announced, ToolEvents;
    if n == 0 {
      assert ToolEvents(desk, done, 0, 0, tools) == [] by {
        NothingAnnounced(desk, done, tools);
      }
    } else {
      EachExecutionHasItsOwnId(desk, done, n - 1, tools);
      assert done[n - 1] in done;
      OneMoreAnnounced(desk, done, n, tools);
    }
  }

  lemma NothingAnnounced(desk: Desk, done: seq<PlannedCall>, tools: nat -> ToolResult)
    ensures ToolEvents(desk, done, 0, 0, tools) == []
  {
  }

  lemma OneMoreAnnounced(desk: Desk, done: seq<PlannedCall>, n: nat, tools: nat -> ToolResult)
    requires 0 < n <= |done| && done[n - 1].name in desk.catalog
    ensures ToolEvents(desk, done, n, 0, tools) == ToolEvents(desk, done, n - 1, 0, tools) + [
              ToolStart(n - 1, done[n - 1].name, done[n - 1].source,
                        if done[n - 1].args == Some("") then None else done[n - 1].args),
              ToolEnd(n - 1, tools(n - 1).name, tools(n - 1).ok)]
  {
  }

  // ---------------------------------------------------------------------------
  // The model rounds
  // ---------------------------------------------------------------------------

  /** What a round does with a completion: run its work, ask again, give up, or take it. */
  datatype Verdict = Work | AskAgain | GiveUp | TakeIt

  /** A completion without work is the answer, unless it only promises a retry or says nothing after work. */
  function VerdictOn(voice: Voice, results: seq<ToolResult>, plan: ToolPlan, text: string, mayRetry: bool): Verdict {
    if plan.calls != [] || plan.rejected != [] || plan.blocked != [] then Work
    else if results != [] && voice.announcesRetry(text) then
      if CanRetry(results) && mayRetry then AskAgain else GiveUp
    else if results == [] || Trim(text) != "" then TakeIt
    else GiveUp
  }

  /** The verdict of round k of a turn with the given number of rounds. */
  function VerdictAt(t: Session, voice: Voice, rounds: nat, k: nat): Verdict
    requires t.model(k).Replied?
  {
    var p := ProgressAfter(t, k);
    VerdictOn(voice, p.results, PlanAt(t, k, p), t.model(k).text,
              k + 1 < rounds && |p.results| < MAX_TOOLS_PER_TURN)
  }

  /** The loop goes on past round k. */
  predicate GoesOn(t: Session, voice: Voice, rounds: nat, k: nat) {
    t.model(k).Replied? && (VerdictAt(t, voice, rounds, k) == Work || VerdictAt(t, voice, rounds, k) == AskAgain)
  }

  /** How the rounds end: Stop (or a model that throws), an answer, or neither. */
  datatype Rounds =
    | Stopped
    | Answered(results: seq<ToolResult>, reply: ModelReply, streamed: bool)
    | Exhausted(results: seq<ToolResult>)

  function ShownDraft(live: bool, reply: ModelReply): string {
    if live then Joined(reply.deltas) else ""
  }

  /** The outcome of round k, when the loop ends there. */
  ghost predicate EndsAt(t: Session, voice: Voice, rounds: nat, live: bool, k: nat, outcome: Rounds, screen: string) {
    match outcome
    case Stopped => t.model(k).Threw?
    case Exhausted(results) =>
      && t.model(k).Replied? && screen == "" && results == ProgressAfter(t, k + 1).results
      && (VerdictAt(t, voice, rounds, k) == GiveUp || (GoesOn(t, voice, rounds, k) && k + 1 == rounds))
    case Answered(results, reply, streamed) =>
      && t.model(k).Replied? && VerdictAt(t, voice, rounds, k) == TakeIt
      && reply == t.model(k) && results == ProgressAfter(t, k + 1).results
      && screen == ShownDraft(live, reply) && (streamed <==> screen != "")
  }

  /** Withdraw the draft when one is on the screen. */
  method Withdraw(streamed: bool, events: seq<TurnEvent>) returns (next: seq<TurnEvent>)
    requires !streamed ==> Screen(events) == ""
    ensures Screen(next) == "" && ToolTrace(next) == ToolTrace(events)
  {
    next := events;
    if streamed {
      Emit(next, ReplyReset);
      next := next + [ReplyReset];
    }
  }

  /** Note a stage of the work; it changes neither the draft nor the tool account. */
  method Note(stage: string, events: seq<TurnEvent>) returns (next: seq<TurnEvent>)
    ensures Screen(next) == Screen(events) && ToolTrace(next) == ToolTrace(events)
  {
    Emit(events, Stage(stage));
    next := events + [Stage(stage)];
  }

  /** Deal with a completion that asked for no work. */
  method Settle(voice: Voice, results: seq<ToolResult>, text: string, streamed: bool, mayRetry: bool,
                events: seq<TurnEvent>)
    returns (verdict: Verdict, next: seq<TurnEvent>)
    requires !streamed ==> Screen(events) == ""
    ensures ToolTrace(next) == ToolTrace(events)
    ensures verdict == VerdictOn(voice, results, ToolPlan([], [], [], 0), text, mayRetry)
    ensures Screen(next) == if verdict == TakeIt then Screen(events) else ""
  {
    if CanRetry(results) && voice.announcesRetry(text) {
      next := Withdraw(streamed, events);
      next := Note("retry", next);
      Emit(next, Reasoning("checking another approach"));
      next := next + [Reasoning("checking another approach")];
      return if mayRetry then AskAgain else GiveUp, next;
    }
    if results != [] && voice.announcesRetry(text) {
      next := Withdraw(streamed, events);
      return GiveUp, next;
    }
    next := Note("plan", events);
    if Trim(text) != "" || results == [] {
      return TakeIt, next;
    }
    next := Withdraw(streamed, next);
    return GiveUp, next;
  }

  /** A plan without work changes nothing. */
  lemma IdleRound(t: Session, k: nat)
    requires var plan := PlanAt(t, k, ProgressAfter(t, k));
             plan.calls == [] && plan.rejected == [] && plan.blocked == []
    ensures ProgressAfter(t, k + 1) == ProgressAfter(t, k)
  {
    var p := ProgressAfter(t, k);
    assert p.results + ([] + [] + []) == p.results && p.done + [] == p.done;
  }

  lemma ThrownRound(t: Session, voice: Voice, rounds: nat, live: bool, k: nat, screen: string)
    requires t.model(k).Threw?
    ensures EndsAt(t, voice, rounds, live, k, Stopped, screen)
  {
  }

  /** The end of a round follows the verdict on its completion. */
  lemma RoundSettles(t: Session, voice: Voice, rounds: nat, live: bool, k: nat, streamed: bool, verdict: Verdict,
                     screen: string)
    requires t.model(k).Replied? && (streamed <==> ShownDraft(live, t.model(k)) != "")
    requires verdict == VerdictAt(t, voice, rounds, k)
    requires screen == if verdict == TakeIt then ShownDraft(live, t.model(k)) else ""
    requires verdict != Work ==> ProgressAfter(t, k + 1) == ProgressAfter(t, k)
    ensures var results := ProgressAfter(t, k).results;
            && (verdict == TakeIt ==>
              EndsAt(t, voice, rounds, live, k, Answered(results, t.model(k), streamed), screen))
            && (verdict == GiveUp ==> EndsAt(t, voice, rounds, live, k, Exhausted(results), screen))
            && (verdict == AskAgain || verdict == Work ==> GoesOn(t, voice, rounds, k))
  {
    hide ProgressAfter, VerdictAt;
  }

  /** One round: ask, plan, and either settle or run the plan. No end means the loop goes on. */
  method RunRound(t: Session, voice: Voice, live: bool, rounds: nat, round: nat, results: seq<ToolResult>,
                  ran: seq<string>, ranTools: seq<string>, index: nat, events: seq<TurnEvent>)
    returns (end: Option<Rounds>, calls: seq<PlannedCall>, more: seq<ToolResult>, next: seq<TurnEvent>)
    requires var p := ProgressAfter(t, round);
             && results == p.results && ran == Keys(p.done) && ranTools == Names(p.done) && index == |p.done|
             && ToolTrace(events) == ToolEvents(t.desk, p.done, |p.done|, 0, t.tools)
    requires Screen(events) == "" && round < rounds
    ensures t.model(round).Replied? ==>
            ProgressAfter(t, round + 1) == Progress(results + more, ProgressAfter(t, round).done + calls)
    ensures var done := ProgressAfter(t, round).done + calls;
            ToolTrace(next) == ToolEvents(t.desk, done, |done|, 0, t.tools)
    ensures end.None? ==> t.model(round).Replied? && GoesOn(t, voice, rounds, round) && Screen(next) == ""
    ensures end.Some? && !end.value.Stopped? ==> t.model(round).Replied?
    ensures end.Some? ==> calls == [] && EndsAt(t, voice, rounds, live, round, end.value, Screen(next))
  {
    hide ToolTrace, Screen, ToolEvents, Plan, DeadTools, Joined, EndsAt, GoesOn, Trim, CanRetry, Executed, ResultNames,
      Unanswered;
    ghost var p := ProgressAfter(t, round);
    var completion := t.model(round);
    var streamed;
    next, streamed := Stream(live, completion.deltas, events);
    calls, more := [], [];
    if completion.Threw? {
      assert p.done + calls == p.done;
      ThrownRound(t, voice, rounds, live, round, Screen(next));
      return Some(Stopped), calls, more, next;
    }
    var dead := CollectDeadTools(results);
    var req := Request(if round == 0 then t.routerNames else [], completion.toolCalls,
                       MAX_TOOLS_PER_TURN - |results|, ran, ranTools, dead);
    var plan := PlanToolCalls(t.desk, req);
    if plan.calls == [] && plan.rejected == [] && plan.blocked == [] {
      IdleRound(t, round);
      assert p.done + calls == p.done && results + more == results;
      var verdict;
      verdict, next := Settle(voice, results, completion.text, streamed,
                              round + 1 < rounds && |results| < MAX_TOOLS_PER_TURN, next);
      RoundSettles(t, voice, rounds, live, round, streamed, verdict, Screen(next));
      end := match verdict
        case TakeIt => Some(Answered(results, completion, streamed))
        case GiveUp => Some(Exhausted(results))
        case _ => None;
      return end, calls, more, next;
    }
    next := Withdraw(streamed, next);
    next := Note("plan", next);
    calls := plan.calls;
    var announced;
    more, announced := RunToolPlan(t.desk, plan, index, t.tools);
    Announce(t, p, plan, next, announced);
    RoundSettles(t, voice, rounds, live, round, streamed, Work, "");
    next := next + announced;
    end := None;
  }

  /** Announcements that go on from those already made account for the longer list. */
  lemma Announce(t: Session, p: Progress, plan: ToolPlan, events: seq<TurnEvent>, announced: seq<TurnEvent>)
    requires ToolTrace(events) == ToolEvents(t.desk, p.done, |p.done|, 0, t.tools)
    requires announced == ToolEvents(t.desk, plan.calls, |plan.calls|, |p.done|, t.tools)
    ensures ToolTrace(events + announced) == ToolEvents(t.desk, p.done + plan.calls, |p.done + plan.calls|, 0, t.tools)
    ensures Screen(events + announced) == Screen(events)
  {
    hide ToolEvents, ToolTrace, Screen;
    ToolEventsAreTools(t.desk, plan.calls, |plan.calls|, |p.done|, t.tools);
    ToolsAreOffScreen(announced);
    FoldAppend(events, announced);
    EventsContinue(t.desk, p.done, plan.calls, |plan.calls|, t.tools);
  }

  /**
   The rounds in sequence: each goes on from the progress of the one before, and the
   first with an end, or the last allowed, is the end of them all.
   */
  method RunModelRounds(t: Session, voice: Voice, live: bool, rounds: nat, before: seq<TurnEvent>)
    returns (outcome: Rounds, events: seq<TurnEvent>, asked: nat)
    requires Screen(before) == "" && ToolTrace(before) == [] && rounds > 0
    ensures 0 < asked <= rounds
    ensures forall k :: 0 <= k < asked - 1 ==> GoesOn(t, voice, rounds, k)
    ensures EndsAt(t, voice, rounds, live, asked - 1, outcome, Screen(events))
    ensures var done := ProgressAfter(t, if outcome.Stopped? then asked - 1 else asked).done;
            ToolTrace(events) == ToolEvents(t.desk, done, |done|, 0, t.tools)
  {
    hide GoesOn, EndsAt, RunPlan, PlanAt, Screen, ToolTrace;
    var results: seq<ToolResult> := [];
    var ran: seq<string>, ranTools: seq<string> := [], [];
    var index := 0;
    events, asked := before, 0;
    for round := 0 to rounds
      invariant var p := ProgressAfter(t, round);
                && results == p.results && ran == Keys(p.done) && ranTools == Names(p.done) && index == |p.done|
                && ToolTrace(events) == ToolEvents(t.desk, p.done, |p.done|, 0, t.tools)
      invariant Screen(events) == "" && asked == round
      invariant forall k :: 0 <= k < round ==> GoesOn(t, voice, rounds, k)
    {
      asked := round + 1;
      var end, calls, more;
      end, calls, more, events := RunRound(t, voice, live, rounds, round, results, ran, ranTools, index, events);
      ghost var done := ProgressAfter(t, round).done;
      AppendedRecords(done, calls);
      if end.Some? {
        assert done + calls == done;
        return end.value, events, asked;
      }
      index := index + |calls|;
      results := results + more;
      ran := ran + Keys(calls);
      ranTools := ranTools + Names(calls);
    }
    SpentRounds(t, voice, rounds, live);
    return Exhausted(results), events, asked;
  }

  /** A loop that went on past its last round ends without an answer. */
  lemma SpentRounds(t: Session, voice: Voice, rounds: nat, live: bool)
    requires rounds > 0 && GoesOn(t, voice, rounds, rounds - 1)
    ensures EndsAt(t, voice, rounds, live, rounds - 1, Exhausted(ProgressAfter(t, rounds).results), "")
  {
    hide VerdictAt, ProgressAfter;
  }

  // ---------------------------------------------------------------------------
  // The whole turn
  // ---------------------------------------------------------------------------

  datatype Command = NoCommand | ToolsCommand | NewCommand | RememberCommand

  /** What the gateway hands over, with the provider's abilities. */
  datatype TurnInput = TurnInput(command: Command, routed: seq<string>, usesTools: bool, streams: bool,
                                 toolRounds: Option<int>)

  datatype Outcome = Aborted | Done(reply: string, results: seq<ToolResult>)

  function RouterNames(input: TurnInput): seq<string> {
    if input.command.RememberCommand? then ["memory.remember"]
    else if |input.routed| <= 3 then input.routed
    else input.routed[..3]
  }

  function RoundBudget(input: TurnInput): nat {
    var asked := input.toolRounds.GetOr(1);
    if asked < 1 then 1 else if asked > AGENTIC_TOOL_ROUNDS then AGENTIC_TOOL_ROUNDS else asked
  }

  predicate RouterOnly(input: TurnInput) {
    input.command.RememberCommand? || !input.usesTools
  }

  /** The deltas are the completion, or the provider did not stream this call. */
  predicate StreamsItsText(reply: ModelReply) {
    reply.Replied? && (Joined(reply.deltas) == "" || Joined(reply.deltas) == reply.text)
  }

  function Draft(input: TurnInput, reply: ModelReply): string {
    if input.streams then Joined(reply.deltas) else ""
  }

  /** The model streamed only blanks, and the desk's own words that replace them are never sent. */
  ghost predicate BlankDraftStands(voice: Voice, results: seq<ToolResult>, draft: string) {
    && draft != "" && Trim(draft) == ""
    && Trim(voice.fallback(results)) != ""
    && !(AnyFailed(results) && voice.announcesRetry(voice.fallback(results)))
  }

  /** White space around a sentence does not make it a promise, or unmake it. */
  ghost predicate ReadsTrimmed(voice: Voice) {
    forall s :: voice.announcesRetry(Trim(s)) == voice.announcesRetry(s)
  }

  /** The reply is the model's text or the desk's, and after a failed tool it is no promise of the model's. */
  ghost predicate HonestReply(voice: Voice, reply: string, results: seq<ToolResult>, last: ModelReply) {
    && last.Replied?
    && (reply == voice.fallback(results) || (reply == Trim(last.text) && reply != ""))
    && (AnyFailed(results) ==> reply == voice.fallback(results) || !voice.announcesRetry(reply))
  }

  /** Write the reply at the end of the turn, unless the screen already has it. */
  method Write(reply: string, streamed: bool, events: seq<TurnEvent>) returns (next: seq<TurnEvent>)
    requires !streamed ==> Screen(events) == ""
    ensures Screen(next) == if streamed then Screen(events) else reply
    ensures ToolTrace(next) == ToolTrace(events)
  {
    next := events;
    if !streamed {
      Emit(next, ReplyDelta(reply));
      next := next + [ReplyDelta(reply)];
    }
    next := Note("write", next);
  }

  /** The first words of the narration: the model's, or the desk's when it said nothing. */
  function Narration(voice: Voice, results: seq<ToolResult>, text: string): string {
    if Trim(text) != "" then Trim(text) else voice.fallback(results)
  }

  /** A promise to retry after a failure is not kept: nothing can run any more. */
  predicate Withdrawn(voice: Voice, results: seq<ToolResult>, text: string) {
    AnyFailed(results) && voice.announcesRetry(Narration(voice, results, text))
  }

  function NarratedReply(voice: Voice, results: seq<ToolResult>, text: string): string {
    if Withdrawn(voice, results, text) then voice.fallback(results) else Narration(voice, results, text)
  }

  /** What is left on the screen: the draft, unless there is none or it was withdrawn, and then the reply. */
  function LeftOnScreen(voice: Voice, input: TurnInput, results: seq<ToolResult>, last: ModelReply): string
    requires last.Replied?
  {
    var draft := Draft(input, last);
    if draft != "" && !Withdrawn(voice, results, last.text) then draft else NarratedReply(voice, results, last.text)
  }

  /** The turn's words agree: an honest reply, and a screen that reads like it. */
  ghost predicate Agrees(voice: Voice, input: TurnInput, last: ModelReply, results: seq<ToolResult>, reply: string,
                         screen: string)
  {
    && HonestReply(voice, reply, results, last)
    && reply == NarratedReply(voice, results, last.text) && screen == LeftOnScreen(voice, input, results, last)
    && (StreamsItsText(last) ==>
          (Trim(screen) == Trim(reply) <==> !BlankDraftStands(voice, results, Draft(input, last))))
  }

  /** What is left on the screen after the narration is the reply, unless a blank draft stands in its place. */
  lemma NarrationAgrees(voice: Voice, input: TurnInput, results: seq<ToolResult>, last: ModelReply)
    requires last.Replied?
    ensures
      var draft, reply := Draft(input, last), NarratedReply(voice, results, last.text);
      Agrees(voice, input, last, results, reply,
             if draft != "" && !Withdrawn(voice, results, last.text) then draft else reply)
  {
    TrimTwice(last.text);
  }

  /** The last pass writes the reply from what ran and cannot call tools. */
  method Narrate(voice: Voice, live: bool, results: seq<ToolResult>, completion: ModelReply, before: seq<TurnEvent>)
    returns (reply: Option<string>, events: seq<TurnEvent>)
    requires Screen(before) == ""
    ensures ToolTrace(events) == ToolTrace(before)
    ensures completion.Threw? ==> reply == None
    ensures completion.Replied? ==>
              var draft := if live then Joined(completion.deltas) else "";
              && reply == Some(NarratedReply(voice, results, completion.text))
              && Screen(events) ==
                   if draft != "" && !Withdrawn(voice, results, completion.text) then draft else reply.value
  {
    var streamed;
    events := Note("write", before);
    events, streamed := Stream(live, completion.deltas, events);
    if completion.Threw? {
      return None, events;
    }
    var text := if Trim(completion.text) != "" then Trim(completion.text) else voice.fallback(results);
    if AnyFailed(results) && voice.announcesRetry(text) {
      events := Withdraw(streamed, events);
      streamed := false;
      text := voice.fallback(results);
    }
    events := Write(text, streamed, events);
    return Some(text), events;
  }

  /** An answer of the rounds agrees with the screen. */
  lemma AnswerAgrees(voice: Voice, input: TurnInput, results: seq<ToolResult>, last: ModelReply)
    requires ReadsTrimmed(voice) && last.Replied?
    requires Trim(last.text) != "" || results == []
    requires results != [] ==> !voice.announcesRetry(last.text)
    ensures
      var draft, reply := Draft(input, last), Narration(voice, results, last.text);
      Agrees(voice, input, last, results, reply, if draft != "" then draft else reply)
  {
    TrimTwice(last.text);
  }

  /** The rounds leave their answer on the screen, or a screen that still waits for one. */
  lemma RoundsAgree(t: Session, voice: Voice, input: TurnInput, rounds: nat, k: nat, outcome: Rounds, screen: string)
    requires ReadsTrimmed(voice) && EndsAt(t, voice, rounds, input.streams, k, outcome, screen)
    ensures !outcome.Stopped? ==> outcome.results == ProgressAfter(t, k + 1).results
    ensures outcome.Exhausted? ==> screen == ""
    ensures outcome.Answered? ==>
              var text := Narration(voice, outcome.results, outcome.reply.text);
              && (!outcome.streamed ==> screen == "") && outcome.reply.Replied?
              && Agrees(voice, input, outcome.reply, outcome.results, text, if outcome.streamed then screen else text)
  {
    hide Plan, ConsiderModelCall, Agrees, Narration;
    if outcome.Answered? {
      IdleRound(t, k);
      AnswerAgrees(voice, input, outcome.results, outcome.reply);
    }
  }

  function SessionOf(desk: Desk, input: TurnInput, model: nat -> ModelReply, tools: nat -> ToolResult): Session {
    Session(desk, RouterNames(input), model, tools)
  }

  // ---------------------------------------------------------------------------
  // The turn as one function of its model and tools
  // ---------------------------------------------------------------------------

  /** The round the loop ends at, from round k on. */
  function LastRound(t: Session, voice: Voice, rounds: nat, k: nat): nat
    requires k < rounds
    decreases rounds - k
  {
    if k + 1 == rounds || !GoesOn(t, voice, rounds, k) then k else LastRound(t, voice, rounds, k + 1)
  }

  lemma {:induction false} LoopEndsThere(t: Session, voice: Voice, rounds: nat, live: bool, k: nat, j: nat,
                                         outcome: Rounds, screen: string)
    requires k <= j < rounds && forall i :: k <= i < j ==> GoesOn(t, voice, rounds, i)
    requires EndsAt(t, voice, rounds, live, j, outcome, screen)
    ensures LastRound(t, voice, rounds, k) == j
    ensures outcome.Answered? <==> t.model(j).Replied? && VerdictAt(t, voice, rounds, j) == TakeIt
    ensures outcome.Stopped? <==> t.model(j).Threw?
    ensures outcome.Answered? ==> outcome.reply == t.model(j)
    decreases j - k
  {
    hide ProgressAfter, VerdictAt;
    if k < j {
      LoopEndsThere(t, voice, rounds, live, k + 1, j, outcome, screen);
    }
  }

  function RouterPicks(input: TurnInput): seq<PlannedCall> {
    var names := RouterNames(input);
    seq(|names|, i requires 0 <= i < |names| => PlannedCall(FromRouter, names[i], None))
  }

  /** Where a turn's rounds end: the last round, and whether its completion is the answer. */
  function RoundsEnd(t: Session, voice: Voice, rounds: nat): (nat, bool)
    requires rounds > 0
  {
    var k := LastRound(t, voice, rounds, 0);
    (k, t.model(k).Replied? && VerdictAt(t, voice, rounds, k) == TakeIt)
  }

  /** Everything a turn executes and learns. */
  function TurnProgress(desk: Desk, voice: Voice, input: TurnInput, model: nat -> ModelReply,
                        tools: nat -> ToolResult): Progress
  {
    if RouterOnly(input) then
      Progress(Executed(desk, RouterPicks(input), |RouterPicks(input)|, 0, tools), RouterPicks(input))
    else
      var t := SessionOf(desk, input, model, tools);
      var k := RoundsEnd(t, voice, RoundBudget(input)).0;
      ProgressAfter(t, if model(k).Threw? then k else k + 1)
  }

  /** The model call a turn's reply comes from, and whether it is the answer of the rounds. */
  function LastCall(desk: Desk, voice: Voice, input: TurnInput, model: nat -> ModelReply,
                    tools: nat -> ToolResult): (nat, bool)
  {
    if RouterOnly(input) then (0, false)
    else
      var (k, answered) := RoundsEnd(SessionOf(desk, input, model, tools), voice, RoundBudget(input));
      (if answered || model(k).Threw? then k else k + 1, answered)
  }

  function LastReply(desk: Desk, voice: Voice, input: TurnInput, model: nat -> ModelReply,
                     tools: nat -> ToolResult): (ModelReply, bool)
  {
    var (k, answered) := LastCall(desk, voice, input, model, tools);
    (model(k), answered)
  }

  /** The outcome of a turn: the answer of the rounds, or the narration of what ran. */
  function TurnOutcome(desk: Desk, voice: Voice, input: TurnInput, model: nat -> ModelReply,
                       tools: nat -> ToolResult): Outcome
  {
    if input.command.ToolsCommand? then Done("Tools on this desk:", [])
    else if input.command.NewCommand? then Done("Session reset is handled by the gateway.", [])
    else
      var (last, answered) := LastReply(desk, voice, input, model, tools);
      var results := TurnProgress(desk, voice, input, model, tools).results;
      if last.Threw? then Aborted
      else if answered then Done(Narration(voice, results, last.text), results)
      else Done(NarratedReply(voice, results, last.text), results)
  }

  /** The turn as its rounds leave it. */
  lemma RoundsSettle(desk: Desk, voice: Voice, input: TurnInput, model: nat -> ModelReply, tools: nat -> ToolResult,
                     k: nat, rounds: Rounds, screen: string)
    requires !RouterOnly(input) && !input.command.ToolsCommand? && !input.command.NewCommand? && k < RoundBudget(input)
    requires var t := SessionOf(desk, input, model, tools);
             && EndsAt(t, voice, RoundBudget(input), input.streams, k, rounds, screen)
             && forall i :: 0 <= i < k ==> GoesOn(t, voice, RoundBudget(input), i)
    ensures var t := SessionOf(desk, input, model, tools);
            TurnProgress(desk, voice, input, model, tools) == ProgressAfter(t, if model(k).Threw? then k else k + 1)
    ensures
      var outcome, last := TurnOutcome(desk, voice, input, model, tools), LastReply(desk, voice, input, model, tools).0;
      match rounds
      case Stopped => outcome == Aborted && model(k).Threw?
      case Answered(known, reply, _) =>
        model(k).Replied? && last == reply && outcome == Done(Narration(voice, known, reply.text), known)
      case Exhausted(known) =>
        && model(k).Replied? && last == model(k + 1)
        && outcome == if last.Threw? then Aborted else Done(NarratedReply(voice, known, last.text), known)
    ensures LastCall(desk, voice, input, model, tools) == (if rounds.Exhausted? then k + 1 else k, rounds.Answered?)
  {
    hide GoesOn, VerdictAt, ProgressAfter, NarratedReply, Narration, LastRound;
    LoopEndsThere(SessionOf(desk, input, model, tools), voice, RoundBudget(input), input.streams, 0, k, rounds, screen);
  }

  /** A completion taken as the answer reads as its narration would. */
  lemma TakenIsNarrated(t: Session, voice: Voice, rounds: nat, k: nat)
    requires ReadsTrimmed(voice) && t.model(k).Replied? && VerdictAt(t, voice, rounds, k) == TakeIt
    ensures var results, text := ProgressAfter(t, k + 1).results, t.model(k).text;
            NarratedReply(voice, results, text) == Narration(voice, results, text)
  {
    hide ConsiderModelCall, Plan;
    IdleRound(t, k);
    AnswerAgrees(voice, TurnInput(NoCommand, [], true, true, None), ProgressAfter(t, k).results, t.model(k));
  }

  /** However a turn ends, its reply is the narration of its last call. */
  lemma RepliesAreNarrated(desk: Desk, voice: Voice, input: TurnInput, model: nat -> ModelReply,
                           tools: nat -> ToolResult)
    requires ReadsTrimmed(voice) && !input.command.ToolsCommand? && !input.command.NewCommand?
    requires TurnOutcome(desk, voice, input, model, tools).Done?
    ensures var outcome := TurnOutcome(desk, voice, input, model, tools);
            var last := model(LastCall(desk, voice, input, model, tools).0);
            last.Replied? && outcome.reply == NarratedReply(voice, outcome.results, last.text)
  {
    hide VerdictAt, ProgressAfter, Narration, NarratedReply, LastRound, ReadsTrimmed;
    if !RouterOnly(input) {
      var t := SessionOf(desk, input, model, tools);
      var (k, answered) := RoundsEnd(t, voice, RoundBudget(input));
      if answered {
        TakenIsNarrated(t, voice, RoundBudget(input), k);
      }
    }
  }

  /**
   One turn. For every model and every tool: the events announce exactly the
   executions of the rounds, and the draft on the screen is the returned reply.
   */
  method CompleteTurn(desk: Desk, voice: Voice, input: TurnInput, model: nat -> ModelReply, tools: nat -> ToolResult)
    returns (outcome: Outcome, events: seq<TurnEvent>, calls: nat)
    requires ReadsTrimmed(voice)
    ensures outcome == TurnOutcome(desk, voice, input, model, tools)
    ensures calls == if input.command.ToolsCommand? || input.command.NewCommand? then 0
                     else LastCall(desk, voice, input, model, tools).0 + 1
    ensures !input.command.ToolsCommand? && !input.command.NewCommand? ==>
      var done := TurnProgress(desk, voice, input, model, tools).done;
      ToolTrace(events) == ToolEvents(desk, done, |done|, 0, tools)
    ensures !input.command.ToolsCommand? && !input.command.NewCommand? && outcome.Done? ==>
      Agrees(voice, input, LastReply(desk, voice, input, model, tools).0, outcome.results, outcome.reply,
        Screen(events))
  {
    hide RunPlan, PlanAt, Agrees, NarratedReply, GoesOn, EndsAt, LastRound, VerdictAt, Narration, ReadsTrimmed,
      ToolEvents, AnyFailed, RouterPicks, Trim;
    events, calls := [], 0;
    if input.command.ToolsCommand? {
      events := Note("command", events);
      return Done("Tools on this desk:", []), events, calls;
    }
    if input.command.NewCommand? {
      return Done("Session reset is handled by the gateway.", []), events, calls;
    }
    events := Note("read", events);
    var results: seq<ToolResult> := [];
    if RouterOnly(input) {
      results, events := RunRouter(desk, input, tools, events);
    } else {
      var rounds;
      var t := SessionOf(desk, input, model, tools);
      rounds, events, calls := RunModelRounds(t, voice, input.streams, RoundBudget(input), events);
      RoundsAgree(t, voice, input, RoundBudget(input), calls - 1, rounds, Screen(events));
      RoundsSettle(desk, voice, input, model, tools, calls - 1, rounds, Screen(events));
      hide TurnOutcome, LastReply, LastCall, TurnProgress;
      match rounds {
        case Stopped =>
          return Aborted, events, calls;
        case Answered(known, completion, streamed) =>
          var reply := if Trim(completion.text) != "" then Trim(completion.text) else voice.fallback(known);
          assert reply == Narration(voice, known, completion.text) by {
            NarrationIs(voice, known, completion.text);
          }
          events := Write(reply, streamed, events);
          return Done(reply, known), events, calls;
        case Exhausted(known) =>
          results := known;
      }
    }
    var reply;
    reply, events := Narrate(voice, input.streams, results, model(calls), events);
    calls := calls + 1;
    if reply.None? {
      return Aborted, events, calls;
    }
    NarrationAgrees(voice, input, results, model(calls - 1));
    return Done(reply.value, results), events, calls;
  }

  lemma NarrationIs(voice: Voice, results: seq<ToolResult>, text: string)
    ensures Narration(voice, results, text) == if Trim(text) != "" then Trim(text) else voice.fallback(results)
  {
  }

  /** Without tools of the model's own, the router's picks run once. */
  method RunRouter(desk: Desk, input: TurnInput, tools: nat -> ToolResult, before: seq<TurnEvent>)
    returns (results: seq<ToolResult>, events: seq<TurnEvent>)
    requires Screen(before) == "" && ToolTrace(before) == []
    ensures results == Executed(desk, RouterPicks(input), |RouterPicks(input)|, 0, tools)
    ensures Screen(events) == ""
            && ToolTrace(events) == ToolEvents(desk, RouterPicks(input), |RouterPicks(input)|, 0, tools)
  {
    hide ToolEvents, Executed;
    events := Note("plan", before);
    var picks := RouterPicks(input);
    var announced;
    results, announced := RunToolPlan(desk, ToolPlan(picks, [], [], 0), 0, tools);
    ToolEventsAreTools(desk, picks, |picks|, 0, tools);
    ToolsAreOffScreen(announced);
    FoldAppend(events, announced);
    events := events + announced;
  }

  /** A completion of one streamed space, taken as the answer: the desk's words replace it and are never sent. */
  lemma BlankDraftCanStand(desk: Desk, voice: Voice, tools: nat -> ToolResult)
    requires Trim(voice.fallback([])) != ""
    ensures
      var input := TurnInput(NoCommand, [], true, true, None);
      var model := (k: nat) => Replied(" ", [], [Delta(" ", "")]);
      var last := LastReply(desk, voice, input, model, tools).0;
      && TurnOutcome(desk, voice, input, model, tools) == Done(voice.fallback([]), [])
      && StreamsItsText(last) && BlankDraftStands(voice, [], Draft(input, last))
  {
    var input := TurnInput(NoCommand, [], true, true, None);
    var model := (k: nat) => Replied(" ", [], [Delta(" ", "")]);
    var t := SessionOf(desk, input, model, tools);
    EmptyHistory(t);
    NothingAsked(desk, RequestAt(t, 0, Progress([], [])));
    IdleRound(t, 0);
    hide Plan, DeadTools, RunPlan;
    assert VerdictAt(t, voice, RoundBudget(input), 0) == TakeIt;
    assert LastRound(t, voice, RoundBudget(input), 0) == 0;
    OneDelta();
    TrimOfBlank(" ");
  }

  lemma NothingAsked(desk: Desk, req: Request)
    requires req.modelCalls == [] && req.routerNames == []
    ensures Plan(desk, req) == ToolPlan([], [], [], 0)
  {
  }

  lemma OneDelta()
    ensures Joined([Delta(" ", "")]) == " "
  {
    assert [Delta(" ", "")][..0] == [];
  }
}
