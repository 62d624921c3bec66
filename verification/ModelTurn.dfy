/**
 How the answers of a streamed model call (ModelStream) meet what a turn asks of its model
 (Turn): the reply a turn sees of a call, and when its deltas are its text.
 */
module ModelTurn {
  import opened Wrappers
  import opened Text
  import opened Sequences
  import Frames
  import ModelStream
  import OpenAi
  import Retry
  import ToolCalls
  import Turn

  function DeltaOf(shown: ModelStream.Shown): Turn.Delta {
    match shown
    case Words(text) => Turn.Delta(text, "")
    case Thought(thought) => Turn.Delta("", thought)
  }

  function DeltasOf(shown: seq<ModelStream.Shown>): seq<Turn.Delta> {
    if shown == [] then [] else DeltasOf(shown[..|shown| - 1]) + [DeltaOf(shown[|shown| - 1])]
  }

  function CallsOf(calls: seq<OpenAi.ModelToolCall>): seq<ToolCalls.ModelCall> {
    if calls == [] then [] else [ToolCalls.ModelCall(calls[0].name, calls[0].arguments)] + CallsOf(calls[1..])
  }

  /** What a turn sees of a model call: its completion, or a stop, after what was shown. */
  function ReplyOf(result: ModelStream.Result, shown: seq<ModelStream.Shown>): Turn.ModelReply {
    match result
    case Answered(completion) => Turn.Replied(completion.text, CallsOf(completion.toolCalls), DeltasOf(shown))
    case Stopped(_) => Turn.Threw(DeltasOf(shown))
  }

  lemma {:induction false} JoinedDeltasAreTheWords(shown: seq<ModelStream.Shown>)
    ensures Turn.Joined(DeltasOf(shown)) == ModelStream.WordsIn(shown)
  {
    if shown != [] {
      JoinedDeltasAreTheWords(shown[..|shown| - 1]);
      assert DeltasOf(shown)[..|DeltasOf(shown)| - 1] == DeltasOf(shown[..|shown| - 1]);
    }
  }

  // ---------------------------------------------------------------------------
  // One attempt
  // ---------------------------------------------------------------------------

  function Payloads(cfg: ModelStream.Config, x: ModelStream.Exchange): seq<Option<OpenAi.Payload>> {
    if x.response.Stream? then ModelStream.PayloadsRead(cfg, Frames.Concat(x.response.chunks), x.response.ended) else []
  }

  /** The words that arrived. */
  function Arrived(cfg: ModelStream.Config, x: ModelStream.Exchange): string {
    ModelStream.TextOf(Payloads(cfg, x))
  }

  /** A stream that was read was not cut off. */
  predicate IsWhole(cfg: ModelStream.Config, x: ModelStream.Exchange) {
    x.response.Stream? ==> ModelStream.IsWhole(Payloads(cfg, x), x.response.ended)
  }

  /** No words arrived, or all of them did, or the blank ones that did happen to be the desk's own words. */
  predicate StreamsWell(cfg: ModelStream.Config, x: ModelStream.Exchange) {
    var words := Arrived(cfg, x);
    words == "" || IsWhole(cfg, x) || (Trim(words) == "" && cfg.fallback == words)
  }

  /** What a stream that was answered returns. */
  function StreamText(cfg: ModelStream.Config, x: ModelStream.Exchange): string {
    if IsWhole(cfg, x) || Trim(Arrived(cfg, x)) != "" then Arrived(cfg, x) else cfg.fallback
  }

  /**
   What a turn gets of an answered attempt: nothing streamed, or the words, a note when they were
   cut off, and a text.
   */
  lemma AttemptAnswers(cfg: ModelStream.Config, x: ModelStream.Exchange) returns (note: string)
    requires ModelStream.Attempt(cfg, x, false).outcome.Returned?
    ensures var r := ModelStream.Attempt(cfg, x, false);
            && Turn.Joined(DeltasOf(r.shown)) == Arrived(cfg, x) + note
            && (x.response.Stream? ==> r.outcome.value.text == StreamText(cfg, x))
    ensures note == "" <==> IsWhole(cfg, x) || Trim(Arrived(cfg, x)) == ""
    ensures note != "" ==> note[|note| - 1] == ')'
  {
    hide ModelStream.ReadStream, ModelStream.PayloadsRead, ModelStream.CutOff, ModelStream.TextOf, ModelStream.IsWhole;
    var r := ModelStream.Attempt(cfg, x, false);
    JoinedDeltasAreTheWords(r.shown);
    if x.response.Stream? {
      var payloads := Payloads(cfg, x);
      ModelStream.ShownAndReturned(cfg, payloads, x.response.ended, x.stoppedReading, false);
      ModelStream.AnsweredText(cfg, payloads, x.response.ended, x.stoppedReading, false);
      var reason := ModelStream.CutOff(payloads, x.response.ended, x.stoppedReading);
      note := if reason == "" then "" else ModelStream.CutOffNote(reason);
    } else {
      note := "";
      NothingArrived();
    }
  }

  lemma NothingArrived()
    ensures ModelStream.TextOf([]) == "" && ModelStream.WordsIn([]) == ""
  {
  }

  /** The calls an answered attempt asks for: those of a whole stream, or of a message, and otherwise none. */
  ghost predicate AsksFor(cfg: ModelStream.Config, x: ModelStream.Exchange, toolCalls: seq<OpenAi.ModelToolCall>) {
    match x.response
    case Stream(_, ended) => ModelStream.AnswersWithCalls(Payloads(cfg, x), ended, toolCalls)
    case Message(_, given) => toolCalls == given
    case _ => toolCalls == []
  }

  lemma AttemptAsksFor(cfg: ModelStream.Config, x: ModelStream.Exchange)
    requires ModelStream.Attempt(cfg, x, false).outcome.Returned?
    ensures AsksFor(cfg, x, ModelStream.Attempt(cfg, x, false).outcome.value.toolCalls)
  {
    hide ModelStream.ReadStream, ModelStream.PayloadsRead, ModelStream.AnswersWithCalls;
    if x.response.Stream? {
      ModelStream.AnsweredCalls(cfg, Payloads(cfg, x), x.response.ended, x.stoppedReading, false);
    }
  }

  lemma {:induction false} CallsAsAsked(calls: seq<OpenAi.ModelToolCall>)
    ensures |CallsOf(calls)| == |calls|
    ensures forall n :: 0 <= n < |calls| ==> CallsOf(calls)[n] == ToolCalls.ModelCall(calls[n].name, calls[n].arguments)
  {
    if calls != [] {
      CallsAsAsked(calls[1..]);
    }
  }

  /** The answer of an attempt keeps what a turn asks of its model exactly when it streams well. */
  lemma AnswersKeepTheTurnsTerms(cfg: ModelStream.Config, x: ModelStream.Exchange)
    requires ModelStream.Attempt(cfg, x, false).outcome.Returned?
    ensures var r := ModelStream.Attempt(cfg, x, false);
            Turn.StreamsItsText(ReplyOf(ModelStream.Answered(r.outcome.value), r.shown)) <==> StreamsWell(cfg, x)
  {
    hide ModelStream.Attempt, Arrived, IsWhole, Trim;
    var note := AttemptAnswers(cfg, x);
    var words := Arrived(cfg, x);
    AppendNothing(words);
    NoStreamNoWords(cfg, x);
    TrimOfBlank("");
  }

  lemma NoStreamNoWords(cfg: ModelStream.Config, x: ModelStream.Exchange)
    ensures !x.response.Stream? ==> Arrived(cfg, x) == "" && IsWhole(cfg, x)
  {
  }

  // ---------------------------------------------------------------------------
  // A whole call
  // ---------------------------------------------------------------------------

  /** A model call: what each of its attempts meets, and how a Stop is reported. */
  datatype Call = Call(attempts: nat -> ModelStream.Exchange, abortReason: Retry.Failure, startedAt: real)

  function ReportOf(cfg: ModelStream.Config, c: Call): Retry.Report<ModelStream.Completion> {
    var options, tries := ModelStream.RetryOptions(cfg, c.abortReason), ModelStream.Tries(cfg, c.attempts);
    var pauses := Retry.PausesFrom(options, c.startedAt, tries, []);
    Retry.Ending(options, c.startedAt, tries(|pauses|), |pauses| + 1, Retry.Sum(pauses))
  }

  /** The attempt the call's answer is from, if one ran. */
  function Last(cfg: ModelStream.Config, c: Call): ModelStream.Exchange {
    var n := ReportOf(cfg, c).attempts;
    c.attempts(if n == 0 then 0 else n - 1)
  }

  /** The call as a turn sees it. */
  function CallReply(cfg: ModelStream.Config, c: Call): Turn.ModelReply {
    var report := ReportOf(cfg, c);
    ReplyOf(ModelStream.ResultOf(cfg, report),
            if report.attempts == 0 then [] else ModelStream.Attempt(cfg, Last(cfg, c), false).shown)
  }

  /** The model service's method computes it. */
  method Complete(cfg: ModelStream.Config, c: Call) returns (reply: Turn.ModelReply)
    ensures reply == CallReply(cfg, c)
  {
    hide ModelStream.Attempt, ModelStream.RetryOptions, ModelStream.ResultOf, ModelStream.DeskAnswer, ReplyOf;
    hide Retry.Ending, Retry.WentOn, Retry.GoesOn, Retry.PausesFrom, Retry.Sum;
    var result, shown, pauses := ModelStream.CompleteOpenAi(cfg, c.attempts, c.abortReason, c.startedAt);
    Retry.PausesGoOn(ModelStream.RetryOptions(cfg, c.abortReason), c.startedAt, ModelStream.Tries(cfg, c.attempts),
      pauses, 0);
    assert pauses[..0] == [];
    reply := ReplyOf(result, shown);
  }

  /**
   A call that is not stopped ends in the answer of its last attempt, or in the desk's own words
   with nothing shown.
   */
  lemma CallEnds(cfg: ModelStream.Config, c: Call)
    ensures var report := ReportOf(cfg, c);
            && (CallReply(cfg, c).Threw? <==> report.GaveUp? && report.aborted)
            && (report.Succeeded? ==>
                  && report.attempts > 0
                  && ModelStream.Attempt(cfg, Last(cfg, c), false).outcome == Retry.Returned(report.value))
            && (report.GaveUp? && !report.aborted ==> Turn.Joined(CallReply(cfg, c).deltas) == "")
  {
    hide ModelStream.Attempt, ModelStream.RetryOptions, Retry.Ending, Retry.WentOn, Retry.GoesOn, Retry.PausesFrom,
      Retry.Sum;
    var options, tries := ModelStream.RetryOptions(cfg, c.abortReason), ModelStream.Tries(cfg, c.attempts);
    Retry.NoPauses(options, c.startedAt, tries);
    Retry.PausesEnd(options, c.startedAt, tries, []);
    var pauses := Retry.PausesFrom(options, c.startedAt, tries, []);
    ModelStream.CallEnds(cfg, c.abortReason, c.startedAt, c.attempts, pauses);
    var report := ReportOf(cfg, c);
    if report.GaveUp? && !report.aborted {
      ModelStream.FailsInSilence(cfg, Last(cfg, c));
      NothingStreamed();
    }
  }

  lemma NothingStreamed()
    ensures Turn.Joined(DeltasOf([])) == ""
  {
  }

  /** What the planner is handed are the calls of the call's last attempt, name by name and argument by argument. */
  lemma CallsReachThePlanner(cfg: ModelStream.Config, c: Call) returns (toolCalls: seq<OpenAi.ModelToolCall>)
    ensures var asked := Turn.RequestedCalls(CallReply(cfg, c));
            && |asked| == |toolCalls|
            && forall n :: 0 <= n < |asked| ==>
                 asked[n] == ToolCalls.ModelCall(toolCalls[n].name, toolCalls[n].arguments)
    ensures if ReportOf(cfg, c).Succeeded? then AsksFor(cfg, Last(cfg, c), toolCalls) else toolCalls == []
  {
    hide ModelStream.Attempt, ReportOf, Last, AsksFor;
    CallEnds(cfg, c);
    toolCalls := [];
    if ReportOf(cfg, c).Succeeded? {
      AttemptAsksFor(cfg, Last(cfg, c));
      toolCalls := ReportOf(cfg, c).value.toolCalls;
    }
    CallsAsAsked(toolCalls);
  }

  /**
   A whole call keeps what a turn asks of its model exactly when it falls back on the desk or its
   last attempt streams well.
   */
  lemma CallsKeepTheTurnsTerms(cfg: ModelStream.Config, c: Call)
    requires CallReply(cfg, c).Replied?
    ensures Turn.StreamsItsText(CallReply(cfg, c)) <==> ReportOf(cfg, c).GaveUp? || StreamsWell(cfg, Last(cfg, c))
  {
    hide ModelStream.Attempt, ReportOf, StreamsWell, Last;
    CallEnds(cfg, c);
    if ReportOf(cfg, c).Succeeded? {
      AnswersKeepTheTurnsTerms(cfg, Last(cfg, c));
    }
  }

  // ---------------------------------------------------------------------------
  // A whole turn
  // ---------------------------------------------------------------------------

  /** The last call streamed nothing that is left, or whole words, or blanks in the place of blanks. */
  predicate ReadsAlike(voice: Turn.Voice, input: Turn.TurnInput, results: seq<ToolCalls.ToolResult>,
                       cfg: ModelStream.Config, c: Call)
  {
    var x := Last(cfg, c);
    var words, text := Arrived(cfg, x), StreamText(cfg, x);
    || !input.streams || ReportOf(cfg, c).GaveUp? || words == "" || Turn.Withdrawn(voice, results, text)
    || (if Trim(words) != "" then IsWhole(cfg, x) else Trim(Turn.Narration(voice, results, text)) == "")
  }

  /** A note behind words that are not blank is seen, however they are trimmed. */
  lemma NotesAreSeen(words: string, note: string)
    requires Trim(words) != "" && note != "" && note[|note| - 1] == ')'
    ensures Trim(words + note) != Trim(words) && words + note != ""
  {
    if TrimStart(words) == "" {
      TrimOfTrimmed("");
    }
    var y := TrimStart(words);
    TrimStartKeeps(words, note);
    hide TrimStart;
    TrimEndSplits(y);
    assert (y + note)[|y + note| - 1] == ')';
  }

  /** The screen and the reply of a turn whose reply comes from a streamed call. */
  lemma ScreenReadsAlike(voice: Turn.Voice, input: Turn.TurnInput, results: seq<ToolCalls.ToolResult>,
                         cfg: ModelStream.Config, c: Call)
    requires CallReply(cfg, c).Replied?
    ensures var last := CallReply(cfg, c);
            Trim(Turn.LeftOnScreen(voice, input, results, last)) == Trim(Turn.NarratedReply(voice, results, last.text))
            <==> ReadsAlike(voice, input, results, cfg, c)
  {
    hide ModelStream.Attempt, ReportOf, Last, Arrived, IsWhole, Trim;
    CallEnds(cfg, c);
    if ReportOf(cfg, c).Succeeded? {
      var x := Last(cfg, c);
      var note := AttemptAnswers(cfg, x);
      var words := Arrived(cfg, x);
      NoStreamNoWords(cfg, x);
      AppendNothing(words);
      TrimOfBlank("");
      TrimTwice(words);
      if note != "" {
        NotesAreSeen(words, note);
      }
    }
  }

  /** The model of a turn whose calls are these. */
  function ModelOf(cfg: ModelStream.Config, calls: nat -> Call): nat -> Turn.ModelReply {
    (k: nat) => CallReply(cfg, calls(k))
  }

  /**
   A whole turn over streamed calls: the screen reads like the returned reply exactly when its last
   call reads alike.
   */
  lemma StreamedTurnsReadAlikeExactly(desk: ToolCalls.Desk, voice: Turn.Voice, input: Turn.TurnInput,
                                      tools: nat -> ToolCalls.ToolResult, cfg: ModelStream.Config, calls: nat -> Call)
    requires Turn.ReadsTrimmed(voice) && !input.command.ToolsCommand? && !input.command.NewCommand?
    requires Turn.TurnOutcome(desk, voice, input, ModelOf(cfg, calls), tools).Done?
    ensures
      var model := ModelOf(cfg, calls);
      var outcome := Turn.TurnOutcome(desk, voice, input, model, tools);
      var last := Turn.LastCall(desk, voice, input, model, tools).0;
      Trim(Turn.LeftOnScreen(voice, input, outcome.results, model(last))) == Trim(outcome.reply)
      <==> ReadsAlike(voice, input, outcome.results, cfg, calls(last))
  {
    hide Turn.TurnOutcome, Turn.LastCall, Turn.LeftOnScreen, Turn.NarratedReply, Turn.ReadsTrimmed, CallReply,
      ReadsAlike;
    var model := ModelOf(cfg, calls);
    var last := Turn.LastCall(desk, voice, input, model, tools).0;
    Turn.RepliesAreNarrated(desk, voice, input, model, tools);
    ScreenReadsAlike(voice, input, Turn.TurnOutcome(desk, voice, input, model, tools).results, cfg, calls(last));
  }
}
