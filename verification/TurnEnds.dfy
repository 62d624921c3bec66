/**
 When the rounds of a turn end, and with what (packages/agent-core/src/turn.ts): told by the
 words of the model and the results of the tools, with the limits written out.
 */
module TurnEnds {
  import opened Wrappers
  import opened Text
  import opened Sequences
  import opened ToolCalls
  import opened Turn

  /** Round k asks for something: a call that will run, or one the desk refuses. */
  ghost predicate AsksForWork(t: Session, k: nat) {
    var plan := PlanAt(t, k, ProgressAfter(t, k));
    plan.calls != [] || plan.rejected != [] || plan.blocked != []
  }

  /** Something that failed might still work another way: it was run, and did not say that a retry is pointless. */
  ghost predicate MightStillWork(results: seq<ToolResult>) {
    exists r :: r in results && !r.ok && !r.blocked && (r.retryable == None || r.retryable == Some(true))
  }

  /** After round k the model is asked again: it asked for work, or it promised a retry that there is room for. */
  ghost predicate Continues(t: Session, voice: Voice, rounds: nat, k: nat) {
    var results := ProgressAfter(t, k).results;
    && t.model(k).Replied?
    && (|| AsksForWork(t, k)
        || (voice.announcesRetry(t.model(k).text) && MightStillWork(results) && k + 1 < rounds && |results| < 3))
  }

  /** What the model writes in round k is the answer: nothing has run yet, or it says something and promises nothing. */
  ghost predicate IsAnswer(t: Session, voice: Voice, k: nat) {
    var results := ProgressAfter(t, k).results;
    && t.model(k).Replied? && !AsksForWork(t, k)
    && (results == [] || (Trim(t.model(k).text) != "" && !voice.announcesRetry(t.model(k).text)))
  }

  lemma YesNoOrUnsaid(said: Option<bool>)
    ensures said == None || said == Some(true) || said == Some(false)
  {
    match said {
      case None =>
      case Some(b) => assert b == true || b == false;
    }
  }

  lemma GoesOnIsContinuing(t: Session, voice: Voice, rounds: nat, k: nat)
    ensures GoesOn(t, voice, rounds, k) <==> Continues(t, voice, rounds, k)
    ensures t.model(k).Replied? ==> (VerdictAt(t, voice, rounds, k) == TakeIt <==> IsAnswer(t, voice, k))
  {
    hide Plan, ProgressAfter;
    var results := ProgressAfter(t, k).results;
    if r :| r in results && !r.ok && !r.blocked && r.retryable != Some(false) {
      YesNoOrUnsaid(r.retryable);
    }
  }

  /** How many rounds a turn may take: what the provider allows, at least one and at most five. */
  lemma RoundsAllowed(input: TurnInput)
    ensures input.toolRounds == None ==> RoundBudget(input) == 1
    ensures forall n :: input.toolRounds == Some(n) && 1 <= n <= 5 ==> RoundBudget(input) == n
    ensures forall n :: input.toolRounds == Some(n) && n < 1 ==> RoundBudget(input) == 1
    ensures forall n :: input.toolRounds == Some(n) && n > 5 ==> RoundBudget(input) == 5
  {
  }

  /** What the router brings: the one tool of `/remember`, or the first three it picked. */
  lemma RoutedNames(input: TurnInput)
    ensures input.command == RememberCommand ==> RouterNames(input) == ["memory.remember"]
    ensures input.command != RememberCommand ==>
              RouterNames(input) <= input.routed && (|input.routed| <= 3 || |RouterNames(input)| == 3)
    ensures input.command != RememberCommand && |input.routed| <= 3 ==> RouterNames(input) == input.routed
  {
  }

  /** The rounds end at k. */
  ghost predicate EndsAtRound(t: Session, voice: Voice, rounds: nat, k: nat) {
    && k < rounds && (forall i :: 0 <= i < k ==> Continues(t, voice, rounds, i))
    && (k + 1 == rounds || !Continues(t, voice, rounds, k))
  }

  lemma {:induction false} LastRoundIsTheEnd(t: Session, voice: Voice, rounds: nat, from: nat, k: nat)
    requires from <= k < rounds && forall i :: 0 <= i < from ==> Continues(t, voice, rounds, i)
    ensures LastRound(t, voice, rounds, from) == k <==> EndsAtRound(t, voice, rounds, k)
    decreases rounds - from
  {
    hide Continues, GoesOn;
    GoesOnIsContinuing(t, voice, rounds, from);
    if from + 1 < rounds && GoesOn(t, voice, rounds, from) {
      if from < k {
        LastRoundIsTheEnd(t, voice, rounds, from + 1, k);
      } else {
        LastRoundIsLater(t, voice, rounds, from + 1);
      }
    }
  }

  lemma {:induction false} LastRoundIsLater(t: Session, voice: Voice, rounds: nat, from: nat)
    requires from < rounds
    ensures from <= LastRound(t, voice, rounds, from) < rounds
    decreases rounds - from
  {
    hide GoesOn;
    if from + 1 < rounds && GoesOn(t, voice, rounds, from) {
      LastRoundIsLater(t, voice, rounds, from + 1);
    }
  }

  /** The model speaks in rounds: no command answers in its place, and it may use tools. */
  ghost predicate InRounds(input: TurnInput) {
    input.command == NoCommand && input.usesTools
  }

  /**
   The rounds of a turn end answered at round k exactly when the model was asked again after every
   earlier round and what it writes in round k is the answer. That call is then the last, and the
   turn returns its words, or the desk's when they are blank.
   */
  lemma AnsweredExactly(desk: Desk, voice: Voice, input: TurnInput, model: nat -> ModelReply,
                        tools: nat -> ToolResult, k: nat)
    requires InRounds(input) && k < RoundBudget(input)
    ensures var t := SessionOf(desk, input, model, tools);
            LastCall(desk, voice, input, model, tools) == (k, true) <==>
            (forall i :: 0 <= i < k ==> Continues(t, voice, RoundBudget(input), i)) && IsAnswer(t, voice, k)
    ensures var t := SessionOf(desk, input, model, tools);
            var results := ProgressAfter(t, k).results;
            LastCall(desk, voice, input, model, tools) == (k, true) ==>
            TurnOutcome(desk, voice, input, model, tools) ==
            Done(if Trim(model(k).text) != "" then Trim(model(k).text) else voice.fallback(results), results)
  {
    var t, rounds := SessionOf(desk, input, model, tools), RoundBudget(input);
    hide GoesOn, VerdictAt, ProgressAfter, LastRound, Continues, IsAnswer;
    LastRoundIsTheEnd(t, voice, rounds, 0, k);
    LastRoundIsLater(t, voice, rounds, 0);
    GoesOnIsContinuing(t, voice, rounds, LastRound(t, voice, rounds, 0));
    GoesOnIsContinuing(t, voice, rounds, k);
    AnswersEndTheRounds(t, voice, rounds, k);
    if IsAnswer(t, voice, k) {
      AnsweringRoundsAreIdle(t, voice, k);
    }
  }

  lemma AnswersEndTheRounds(t: Session, voice: Voice, rounds: nat, k: nat)
    ensures IsAnswer(t, voice, k) ==> !Continues(t, voice, rounds, k) && t.model(k).Replied?
  {
    hide AsksForWork, ProgressAfter;
  }

  lemma AnsweringRoundsAreIdle(t: Session, voice: Voice, k: nat)
    requires IsAnswer(t, voice, k)
    ensures ProgressAfter(t, k + 1) == ProgressAfter(t, k)
  {
    hide Plan, ProgressAfter;
    IdleRound(t, k);
  }

  /** What the narration says: the model's words or else the desk's, which also replace a promise after a failure. */
  ghost function Narrated(voice: Voice, results: seq<ToolResult>, text: string): string {
    var words := if Trim(text) != "" then Trim(text) else voice.fallback(results);
    if (exists r :: r in results && !r.ok) && voice.announcesRetry(words) then voice.fallback(results) else words
  }

  /**
   When the rounds end at k without an answer, the turn is over if the model was stopped there;
   otherwise one more call narrates everything that ran.
   */
  lemma UnansweredExactly(desk: Desk, voice: Voice, input: TurnInput, model: nat -> ModelReply,
                          tools: nat -> ToolResult, k: nat)
    requires InRounds(input)
    requires EndsAtRound(SessionOf(desk, input, model, tools), voice, RoundBudget(input), k)
    requires !IsAnswer(SessionOf(desk, input, model, tools), voice, k)
    ensures
      var results := ProgressAfter(SessionOf(desk, input, model, tools), k + 1).results;
      var outcome := TurnOutcome(desk, voice, input, model, tools);
      if model(k).Threw? then outcome == Aborted && LastCall(desk, voice, input, model, tools) == (k, false)
      else
        && LastCall(desk, voice, input, model, tools) == (k + 1, false)
        && outcome == if model(k + 1).Threw? then Aborted
                      else Done(Narrated(voice, results, model(k + 1).text), results)
  {
    var t, rounds := SessionOf(desk, input, model, tools), RoundBudget(input);
    hide GoesOn, VerdictAt, ProgressAfter, LastRound, Continues, IsAnswer, EndsAtRound;
    EndIsARound(t, voice, rounds, k);
    LastRoundIsTheEnd(t, voice, rounds, 0, k);
    GoesOnIsContinuing(t, voice, rounds, k);
  }

  lemma EndIsARound(t: Session, voice: Voice, rounds: nat, k: nat)
    requires EndsAtRound(t, voice, rounds, k)
    ensures k < rounds
  {
  }

  /** Some round is the end. */
  lemma RoundsEndSomewhere(t: Session, voice: Voice, rounds: nat) returns (k: nat)
    requires rounds > 0
    ensures EndsAtRound(t, voice, rounds, k)
  {
    k := LastRound(t, voice, rounds, 0);
    LastRoundIsLater(t, voice, rounds, 0);
    LastRoundIsTheEnd(t, voice, rounds, 0, k);
  }

  /** Without tools of the model's own, the router's picks run in order and one call narrates their answers. */
  lemma RoutedTurns(desk: Desk, voice: Voice, input: TurnInput, model: nat -> ModelReply, tools: nat -> ToolResult)
    requires input.command == RememberCommand || (input.command == NoCommand && !input.usesTools)
    requires forall name :: name in RouterNames(input) ==> name in desk.catalog
    ensures
      var results := seq(|RouterNames(input)|, (i: nat) => tools(i));
      && LastCall(desk, voice, input, model, tools) == (0, false)
      && TurnOutcome(desk, voice, input, model, tools) ==
         if model(0).Threw? then Aborted else Done(Narrated(voice, results, model(0).text), results)
  {
    var picks := RouterPicks(input);
    ExecutedAll(desk, picks, |picks|, 0, tools);
    assert Executed(desk, picks, |picks|, 0, tools) == seq(|RouterNames(input)|, (i: nat) => tools(i));
  }

  // ---------------------------------------------------------------------------
  // What a round may do
  // ---------------------------------------------------------------------------

  /** With three results, refusals among them, the turn runs and refuses nothing more. */
  lemma ThreeResultsAreEnough(t: Session, k: nat)
    requires |ProgressAfter(t, k).results| >= 3
    ensures !AsksForWork(t, k) && ProgressAfter(t, k + 1) == ProgressAfter(t, k)
  {
    hide ProgressAfter;
    IdleRound(t, k);
  }

  /** The router fills in only in the first round; later rounds run what the model asked for. */
  lemma LaterRoundsAreTheModels(t: Session, k: nat, c: PlannedCall)
    requires PlainNames(t.desk.catalog) && k > 0 && c in CallsAt(t, k)
    ensures c.source == FromModel && c.name in t.desk.catalog
    ensures exists m :: m in RequestedCalls(t.model(k)) && m.name == c.name && c.args == Some(Told(m.arguments))
                     && t.desk.parses(m.name, m.arguments)
  {
    RoundsKeepTheLedger(t, k);
    var req := RequestAt(t, k, ProgressAfter(t, k));
    hide Plan, ProgressAfter;
    assert MayRun(t.desk, req, c);
    assert Requested(t.desk, req, c);
  }

  /** At most three executions in a turn, two of them searches of the web, and no call twice. */
  lemma FewExecutions(t: Session, k: nat)
    requires PlainNames(t.desk.catalog)
    ensures var done := ProgressAfter(t, k).done;
            && |done| <= 3 && Count(Names(done), "web.search") <= 2
            && forall i, j :: 0 <= i < j < |done| ==> !SameCall(done[i], done[j])
  {
    RoundsKeepTheLedger(t, k);
    hide ProgressAfter, PlanAt, Sound;
    var done := ProgressAfter(t, k).done;
    if c :| c in done && c.name == "web.search" {
      assert Limit(c.name).Some?;
    } else {
      assert forall i :: 0 <= i < |done| ==> Names(done)[i] == done[i].name;
      CountAbsent(Names(done), "web.search");
    }
    forall i, j | 0 <= i < j < |done| ensures !SameCall(done[i], done[j]) {
      assert done[i] in done && done[j] in done && Keys(done)[i] != Keys(done)[j];
      SameCallSameKey(done[i], done[j]);
    }
  }

  /** The same tool with arguments that begin alike for 600 characters. */
  ghost predicate SameCall(a: PlannedCall, b: PlannedCall) {
    a.name == b.name && Told(a.args.GetOr("")) == Told(b.args.GetOr(""))
  }

  lemma SameCallSameKey(a: PlannedCall, b: PlannedCall)
    requires ':' !in a.name && ':' !in b.name
    ensures KeyOf(a) == KeyOf(b) <==> SameCall(a, b)
  {
    KeysMatchExactly(a.name, a.args.GetOr(""), b.name, b.args.GetOr(""));
  }

  /** It was run and failed, and said that a retry is pointless. */
  ghost predicate FailedForGood(r: ToolResult) {
    !r.ok && !r.blocked && r.retryable == Some(false)
  }

  /** The first sentence: up to the first full stop before white space, or all of it, without a last full stop. */
  lemma FirstSentenceExactly(summary: string) returns (end: nat)
    ensures end <= |summary| && forall i :: 0 < i < end ==> !(summary[i - 1] == '.' && IsSpace(summary[i]))
    ensures end < |summary| ==> end > 0 && summary[end - 1] == '.' && IsSpace(summary[end])
    ensures FirstSentence(summary) ==
            if end > 0 && summary[end - 1] == '.' then summary[..end - 1] else summary[..end]
  {
    end := SentenceEnd(summary, 0);
    SentenceEndIsFirst(summary, 0);
  }

  lemma {:induction false} SentenceEndIsFirst(summary: string, i: nat)
    requires i <= |summary|
    ensures var end := SentenceEnd(summary, i);
            && (forall j :: i <= j < end && 0 < j ==> !(summary[j - 1] == '.' && IsSpace(summary[j])))
            && (end < |summary| ==> end > 0 && summary[end - 1] == '.' && IsSpace(summary[end]))
    decreases |summary| - i
  {
    hide IsSpace;
    if i < |summary| && !(0 < i && summary[i - 1] == '.' && IsSpace(summary[i])) {
      SentenceEndIsFirst(summary, i + 1);
    }
  }

  /** A tool that failed for good runs no more in the turn, if its kind of failure comes with a reason. */
  lemma FailedToolsRestFromThen(t: Session, j: nat, k: nat, r: ToolResult)
    requires PlainNames(t.desk.catalog) && j <= k && r in ProgressAfter(t, j).results && FailedForGood(r)
    requires forall n: nat :: FailedForGood(t.tools(n)) ==> FirstSentence(t.tools(n).summary) != ""
    ensures forall c :: c in CallsAt(t, k) ==> c.name != r.name
  {
    var i: nat :| i < |ProgressAfter(t, j).results| && ProgressAfter(t, j).results[i] == r;
    assert TheySayWhy(t.tools);
    hide ProgressAfter, CallsAt;
    DeadToolDoesNotRunAgain(t, j, k, i);
    forall c | c in CallsAt(t, k) ensures c.name != r.name {
      var n :| 0 <= n < |CallsAt(t, k)| && CallsAt(t, k)[n] == c;
      assert Names(CallsAt(t, k))[n] == c.name;
    }
  }

  /** Commands of the gateway run nothing and ask no model. */
  lemma CommandsAnswerThemselves(desk: Desk, voice: Voice, input: TurnInput, model: nat -> ModelReply,
                                 tools: nat -> ToolResult)
    ensures input.command == ToolsCommand ==>
              TurnOutcome(desk, voice, input, model, tools) == Done("Tools on this desk:", [])
    ensures input.command == NewCommand ==>
              TurnOutcome(desk, voice, input, model, tools) == Done("Session reset is handled by the gateway.", [])
  {
  }

  /** Why a call that was asked for is not run now. */
  ghost predicate NotNow(desk: Desk, asked: seq<ModelCall>, results: seq<ToolResult>, done: seq<PlannedCall>,
                         planned: seq<PlannedCall>, m: ModelCall)
  {
    || |results| + |planned| >= 3
    || m.name !in desk.catalog
    || (exists other :: other in asked && other.name == m.name && !desk.parses(m.name, other.arguments))
    || (exists r :: r in results && r.name == m.name && FailedForGood(r))
    || (m.name == "web.search" && Count(Names(done), m.name) + Count(Names(planned), m.name) >= 2)
  }

  lemma PlansRunWhatIsAsked(desk: Desk, req: Request, results: seq<ToolResult>, done: seq<PlannedCall>, m: ModelCall)
    requires PlainNames(desk.catalog) && m in req.modelCalls && |results| < 3
    requires req.remaining == 3 - |results| && req.ran == Keys(done) && req.ranTools == Names(done)
    requires req.dead == DeadTools(results)
    requires forall c :: c in done + Plan(desk, req).calls ==> c.name in desk.catalog
    ensures var planned := Plan(desk, req).calls;
            || NotNow(desk, req.modelCalls, results, done, planned, m)
            || exists c :: c in done + planned && SameCall(c, PlannedCall(FromModel, m.name, Some(m.arguments)))
  {
    PlanIsComplete(desk, req);
    hide Plan, SameCall, ToolCallKey, DeadTools, DeadReason, Count;
    var plan := Plan(desk, req);
    assert Settled(desk, req, plan, m);
    if DeadReason(req.dead, m.name) != "" {
      DeadToolFailed(results, m.name);
    }
    if m.name in desk.catalog && AlreadyRan(req, plan, ToolCallKey(m.name, Some(m.arguments))) {
      AppendedRecords(done, plan.calls);
      var c := RanBefore(desk, done + plan.calls, PlannedCall(FromModel, m.name, Some(m.arguments)));
    }
  }

  /**
   What the model asks for is run: a call of round k is planned, or was made before with those
   arguments, unless the room for three is used up, the tool is unknown, asked for with unreadable
   arguments in this round, dead, or it is a third search of the web.
   */
  lemma RoundsRunWhatIsAsked(t: Session, k: nat, m: ModelCall)
    requires PlainNames(t.desk.catalog) && m in RequestedCalls(t.model(k)) && |ProgressAfter(t, k).results| < 3
    ensures var p, planned := ProgressAfter(t, k), CallsAt(t, k);
            || NotNow(t.desk, RequestedCalls(t.model(k)), p.results, p.done, planned, m)
            || exists c :: c in p.done + planned && SameCall(c, PlannedCall(FromModel, m.name, Some(m.arguments)))
  {
    hide ProgressAfter, Plan, DeadTools, NotNow, SameCall;
    var p := ProgressAfter(t, k);
    RoundsKeepTheLedger(t, k);
    PlannedToolsAreOnTheDesk(t, k);
    PlansRunWhatIsAsked(t.desk, RequestAt(t, k, p), p.results, p.done, m);
  }

  lemma RanBefore(desk: Desk, calls: seq<PlannedCall>, call: PlannedCall) returns (c: PlannedCall)
    requires PlainNames(desk.catalog) && call.name in desk.catalog && forall c :: c in calls ==> c.name in desk.catalog
    requires KeyOf(call) in Keys(calls)
    ensures c in calls && SameCall(c, call)
  {
    var i :| 0 <= i < |calls| && Keys(calls)[i] == KeyOf(call);
    c := calls[i];
    SameCallSameKey(c, call);
  }

  /**
   Results after a round: those before, the answers of its calls, its refusals, and what was rejected
   and not answered.
   */
  ghost predicate Adds(before: Progress, after: Progress, plan: ToolPlan, ran: seq<ToolResult>,
                       heard: seq<ToolResult>)
  {
    && after.done == before.done + plan.calls
    && after.results == before.results + (ran + plan.blocked + heard)
    && |ran| == |plan.calls|
    && (forall r :: r in heard <==> r in plan.rejected && forall a :: a in ran ==> a.name != r.name)
  }

  lemma HeardRejections(rejected: seq<ToolResult>, ran: seq<ToolResult>, r: ToolResult)
    ensures r in Unanswered(rejected, ResultNames(ran)) <==> r in rejected && forall a :: a in ran ==> a.name != r.name
  {
    RejectionsAreHeard(rejected, [], ResultNames(ran));
  }

  lemma NextProgress(t: Session, k: nat)
    ensures ProgressAfter(t, k + 1) == RunPlan(t, ProgressAfter(t, k), PlanAt(t, k, ProgressAfter(t, k)))
  {
    hide RunPlan, PlanAt;
  }

  lemma RunPlanAdds(t: Session, p: Progress, plan: ToolPlan)
    requires |Answers(t, p, plan)| == |plan.calls|
    ensures var ran := Answers(t, p, plan);
            Adds(p, RunPlan(t, p, plan), plan, ran, Unanswered(plan.rejected, ResultNames(ran)))
  {
    hide Unanswered, Executed, ResultNames;
    var ran := Answers(t, p, plan);
    forall r ensures r in Unanswered(plan.rejected, ResultNames(ran))
                <==> r in plan.rejected && forall a :: a in ran ==> a.name != r.name {
      HeardRejections(plan.rejected, ran, r);
    }
  }

  /** What a round adds: its calls are answered in order by the tools. */
  lemma RoundsAddWhatHappened(t: Session, k: nat) returns (ran: seq<ToolResult>, heard: seq<ToolResult>)
    requires PlainNames(t.desk.catalog)
    ensures Adds(ProgressAfter(t, k), ProgressAfter(t, k + 1), PlanAt(t, k, ProgressAfter(t, k)), ran, heard)
    ensures forall i :: 0 <= i < |ran| ==> ran[i] == t.tools(|ProgressAfter(t, k).done| + i)
  {
    hide ProgressAfter, PlanAt, RunPlan, Unanswered, Executed, ResultNames, Adds;
    var before, plan := ProgressAfter(t, k), PlanAt(t, k, ProgressAfter(t, k));
    PlannedToolsAreOnTheDesk(t, k);
    NextProgress(t, k);
    ran := Answers(t, before, plan);
    ExecutedAll(t.desk, plan.calls, |plan.calls|, |before.done|, t.tools);
    RunPlanAdds(t, before, plan);
    heard := Unanswered(plan.rejected, ResultNames(ran));
  }

  lemma PlannedToolsAreOnTheDesk(t: Session, k: nat)
    requires PlainNames(t.desk.catalog)
    ensures forall c :: c in PlanAt(t, k, ProgressAfter(t, k)).calls ==> c.name in t.desk.catalog
  {
    RoundsKeepTheLedger(t, k);
    hide Plan, ProgressAfter, WithinLimits, RouterFillsIn, Requested;
    forall c | c in PlanAt(t, k, ProgressAfter(t, k)).calls ensures c.name in t.desk.catalog {
      assert MayRun(t.desk, RequestAt(t, k, ProgressAfter(t, k)), c);
    }
  }
}
