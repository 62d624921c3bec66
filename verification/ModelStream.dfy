/**
 One model call (apps/api/src/models/model.service.ts): reading a streamed completion from
 chunks, and the retries around it, which stop as soon as anything has reached the screen.
 What the network, the clock and the traveler's Stop do is a function of the attempt.
 */
module ModelStream {
  import opened Wrappers
  import opened Text
  import opened Frames
  import opened OpenAi
  import Retry

  datatype Shown = Words(text: string) | Thought(thought: string)

  datatype Completion = Completion(text: string, provider: string, model: string, toolCalls: seq<ModelToolCall>)

  /** What a call is made with: the desk's fallback text, who answers, and how payloads decode. */
  datatype Config = Config(
    fallback: string, provider: string, model: string,
    decode: string -> Option<Payload>, hint: string -> Option<real>, transient: Retry.Failure -> bool)

  const DESK_PROVIDER := "mock"
  const DESK_MODEL_ID := "travelclaw-local"
  const MODEL_RETRY_MAX_DELAY_MS := 1200.0
  const MODEL_RETRY := Retry.Overrides(Some(3.0), Some(400.0), Some(1200.0), Some(20000.0), Some(45000.0), None)

  function DeskAnswer(cfg: Config): Completion {
    Completion(cfg.fallback, DESK_PROVIDER, DESK_MODEL_ID, [])
  }

  function StreamError(detail: string): Retry.Failure {
    Retry.Failure("ModelStreamError", detail, None)
  }

  function EmptyError(): Retry.Failure {
    Retry.Failure("ModelEmptyError", "the model returned no text and no tool call", None)
  }

  // ---------------------------------------------------------------------------
  // What a stream says
  // ---------------------------------------------------------------------------

  function PayloadOf(cfg: Config, frame: string): Option<Payload> {
    StreamPayload(cfg.decode, LastDataLine(frame))
  }

  function PayloadsOf(cfg: Config, frames: seq<string>): seq<Option<Payload>> {
    if frames == [] then [] else PayloadsOf(cfg, frames[..|frames| - 1]) + [PayloadOf(cfg, frames[|frames| - 1])]
  }

  lemma {:induction false} PayloadsAppend(cfg: Config, a: seq<string>, b: seq<string>)
    ensures PayloadsOf(cfg, a + b) == PayloadsOf(cfg, a) + PayloadsOf(cfg, b)
  {
    if b == [] {
      assert a + b == a;
    } else {
      assert (a + b)[..|a + b| - 1] == a + b[..|b| - 1];
      PayloadsAppend(cfg, a, b[..|b| - 1]);
    }
  }

  /** The payloads read from a body: its complete frames, and the unfinished one when it closed. */
  function PayloadsRead(cfg: Config, body: string, ended: Ended<Retry.Failure>): seq<Option<Payload>> {
    var split := SplitFrames(body);
    PayloadsOf(cfg, split.frames) + if ended.Closed? then [PayloadOf(cfg, split.rest)] else []
  }

  /** Every complete frame is read, in order, and the unfinished one exactly when the body closed. */
  lemma EveryFrameIsRead(cfg: Config, body: string, ended: Ended<Retry.Failure>)
    ensures
      var payloads, split := PayloadsRead(cfg, body, ended), SplitFrames(body);
      && |payloads| == |split.frames| + (if ended == Closed then 1 else 0)
      && (forall i :: 0 <= i < |split.frames| ==>
            payloads[i] == StreamPayload(cfg.decode, LastDataLine(split.frames[i])))
      && (ended == Closed ==> payloads[|split.frames|] == StreamPayload(cfg.decode, LastDataLine(split.rest)))
  {
    hide StreamPayload, LastDataLine, SplitFrames;
    FramesAreRead(cfg, SplitFrames(body).frames);
  }

  lemma {:induction false} FramesAreRead(cfg: Config, frames: seq<string>)
    ensures |PayloadsOf(cfg, frames)| == |frames|
    ensures forall i :: 0 <= i < |frames| ==>
              PayloadsOf(cfg, frames)[i] == StreamPayload(cfg.decode, LastDataLine(frames[i]))
  {
    hide StreamPayload, LastDataLine;
    if frames != [] {
      FramesAreRead(cfg, frames[..|frames| - 1]);
    }
  }

  function TextOf(payloads: seq<Option<Payload>>): string {
    if payloads == [] then ""
    else TextOf(payloads[..|payloads| - 1]) + DeltaOf(payloads[|payloads| - 1]).text
  }

  function FragmentsIn(payloads: seq<Option<Payload>>): seq<Fragment> {
    if payloads == [] then []
    else FragmentsIn(payloads[..|payloads| - 1]) + FragmentsOf(payloads[|payloads| - 1])
  }

  /** The last failure named; an empty sentence names none. */
  function FailureIn(payloads: seq<Option<Payload>>): string {
    if payloads == [] then ""
    else
      var failure := DeltaOf(payloads[|payloads| - 1]).failure.GetOr("");
      if failure != "" then failure else FailureIn(payloads[..|payloads| - 1])
  }

  function ShownFor(delta: Delta): seq<Shown> {
    (if delta.text != "" then [Words(delta.text)] else [])
      + (if delta.thought != "" then [Thought(delta.thought)] else [])
  }

  function ShownBy(payloads: seq<Option<Payload>>): seq<Shown> {
    if payloads == [] then []
    else ShownBy(payloads[..|payloads| - 1]) + ShownFor(DeltaOf(payloads[|payloads| - 1]))
  }

  /** What is shown of a payload: its words if it has any, then its thought if it has one. */
  lemma ShownForExactly(delta: Delta)
    ensures var shown := ShownFor(delta);
            && |shown| <= 2 && (|shown| == 2 ==> shown[0].Words? && shown[1].Thought?)
            && (forall words :: Words(words) in shown <==> words == delta.text != "")
            && (forall thought :: Thought(thought) in shown <==> thought == delta.thought != "")
  {
  }

  /** The words among what was shown. */
  function WordsIn(shown: seq<Shown>): string {
    if shown == [] then ""
    else WordsIn(shown[..|shown| - 1]) + if shown[|shown| - 1].Words? then shown[|shown| - 1].text else ""
  }

  lemma {:induction false} WordsAppend(a: seq<Shown>, b: seq<Shown>)
    ensures WordsIn(a + b) == WordsIn(a) + WordsIn(b)
  {
    if b == [] {
      assert a + b == a;
    } else {
      assert (a + b)[..|a + b| - 1] == a + b[..|b| - 1];
      WordsAppend(a, b[..|b| - 1]);
    }
  }

  lemma WordsFor(delta: Delta)
    ensures WordsIn(ShownFor(delta)) == delta.text
  {
    var words := if delta.text != "" then [Words(delta.text)] else [];
    var thoughts := if delta.thought != "" then [Thought(delta.thought)] else [];
    WordsAppend(words, thoughts);
    assert words != [] ==> words[..0] == [];
    assert thoughts != [] ==> thoughts[..0] == [];
  }

  /** The words shown are the words read. */
  lemma {:induction false} WordsAreTheText(payloads: seq<Option<Payload>>)
    ensures WordsIn(ShownBy(payloads)) == TextOf(payloads)
  {
    if payloads != [] {
      var last := DeltaOf(payloads[|payloads| - 1]);
      WordsAreTheText(payloads[..|payloads| - 1]);
      WordsAppend(ShownBy(payloads[..|payloads| - 1]), ShownFor(last));
      WordsFor(last);
    }
  }

  // ---------------------------------------------------------------------------
  // Reading one stream
  // ---------------------------------------------------------------------------

  /** How one attempt ends, and what it showed on the way. */
  datatype Reading = Reading(outcome: Retry.Attempted<Completion>, shown: seq<Shown>)

  function CutOffNote(reason: string): string {
    "\n\n(That answer was cut off — " + reason + ".)"
  }

  /** The reason an answer was cut off, when it was and some of it had arrived. */
  function CutOff(payloads: seq<Option<Payload>>, ended: Ended<Retry.Failure>, stopped: bool): string {
    if Trim(TextOf(payloads)) == "" then ""
    else if ended.Closed? then FailureIn(payloads)
    else if stopped then "" else "the model connection dropped"
  }

  /** Reading a stream, given whether anything was shown before it and whether the traveler has stopped. */
  function ReadStream(cfg: Config, payloads: seq<Option<Payload>>, ended: Ended<Retry.Failure>, stopped: bool,
                      forwarded: bool): Reading
  {
    var text, shown := TextOf(payloads), ShownBy(payloads);
    var calls := Complete(Assemble(FragmentsIn(payloads)));
    var anything := forwarded || shown != [];
    var failure := match ended case Closed => FailureIn(payloads) case Broke(error) => error.message;
    if ended.Broke? && stopped then Reading(Retry.Threw(ended.error), shown)
    else if ended.Closed? && failure == "" then
      if text == "" && calls == [] && !anything then
        Reading(Retry.Threw(if stopped then EmptyError() else StreamError(EmptyError().message)), shown)
      else Reading(Retry.Returned(Completion(text, cfg.provider, cfg.model, calls)), shown)
    else if !anything then Reading(Retry.Threw(StreamError(failure)), shown)
    else if Trim(text) != "" then
      Reading(
        Retry.Returned(Completion(text, cfg.provider, cfg.model, [])),
        shown + [Words(CutOffNote(CutOff(payloads, ended, stopped)))])
    else Reading(Retry.Returned(DeskAnswer(cfg)), shown)
  }

  /** What the parser and the screen have after some payloads. */
  ghost predicate Absorbed(payloads: seq<Option<Payload>>, parser: StreamParser, text: string, failure: string,
                           shown: seq<Shown>)
    reads parser
  {
    && parser.calls == Assemble(FragmentsIn(payloads))
    && text == TextOf(payloads) && failure == FailureIn(payloads) && shown == ShownBy(payloads)
  }

  lemma OneMorePayload(seen: seq<Option<Payload>>, payload: Option<Payload>)
    ensures var all, delta := seen + [payload], DeltaOf(payload);
            && FragmentsIn(all) == FragmentsIn(seen) + FragmentsOf(payload)
            && TextOf(all) == TextOf(seen) + delta.text
            && FailureIn(all) == (if delta.failure.GetOr("") != "" then delta.failure.GetOr("") else FailureIn(seen))
            && ShownBy(all) == ShownBy(seen) + ShownFor(delta)
  {
    hide DeltaOf, FragmentsOf, ShownFor;
    assert (seen + [payload])[..|seen|] == seen;
  }

  /** One payload: remember a failure, then show text, then show reasoning. */
  method Absorb(parser: StreamParser, payload: Option<Payload>, text0: string, failure0: string, shown0: seq<Shown>,
                ghost seen: seq<Option<Payload>>)
    returns (text: string, failure: string, shown: seq<Shown>)
    requires Absorbed(seen, parser, text0, failure0, shown0)
    modifies parser
    ensures Absorbed(seen + [payload], parser, text, failure, shown)
  {
    hide FragmentsIn, TextOf, FailureIn, ShownBy, Assemble, DeltaOf;
    OneMorePayload(seen, payload);
    text, failure, shown := text0, failure0, shown0;
    var delta := parser.Push(payload, FragmentsIn(seen));
    if delta.failure.GetOr("") != "" {
      failure := delta.failure.value;
    }
    if delta.text != "" {
      text := text + delta.text;
      shown := shown + [Words(delta.text)];
    }
    if delta.thought != "" {
      shown := shown + [Thought(delta.thought)];
    }
  }

  /** The frames one chunk completes, in order. */
  method AbsorbFrames(cfg: Config, parser: StreamParser, frames: seq<string>, text0: string, failure0: string,
                      shown0: seq<Shown>, ghost seen: seq<Option<Payload>>)
    returns (text: string, failure: string, shown: seq<Shown>)
    requires Absorbed(seen, parser, text0, failure0, shown0)
    modifies parser
    ensures Absorbed(seen + PayloadsOf(cfg, frames), parser, text, failure, shown)
  {
    hide Absorbed, PayloadOf;
    text, failure, shown := text0, failure0, shown0;
    assert seen + PayloadsOf(cfg, frames[..0]) == seen;
    for j := 0 to |frames|
      invariant Absorbed(seen + PayloadsOf(cfg, frames[..j]), parser, text, failure, shown)
      modifies parser
    {
      assert frames[..j + 1][..j] == frames[..j];
      ghost var before := seen + PayloadsOf(cfg, frames[..j]);
      text, failure, shown := Absorb(parser, PayloadOf(cfg, frames[j]), text, failure, shown, before);
      assert before + [PayloadOf(cfg, frames[j])] == seen + PayloadsOf(cfg, frames[..j + 1]);
    }
    assert frames[..|frames|] == frames;
  }

  lemma ChunkCompletes(cfg: Config, body: string, chunk: string)
    ensures var before, taken := SplitFrames(body), SplitFrames(SplitFrames(body).rest + chunk);
            && SplitFrames(body + chunk).rest == taken.rest
            && PayloadsOf(cfg, SplitFrames(body + chunk).frames)
              == PayloadsOf(cfg, before.frames) + PayloadsOf(cfg, taken.frames)
  {
    SplitAppend(body, chunk);
    PayloadsAppend(cfg, SplitFrames(body).frames, SplitFrames(SplitFrames(body).rest + chunk).frames);
  }

  /** The chunks of a body, absorbed as they arrive: its complete frames, and the buffered rest. */
  method ReadChunks(cfg: Config, chunks: seq<string>)
    returns (parser: StreamParser, buffer: string, text: string, failure: string, shown: seq<Shown>)
    ensures fresh(parser)
    ensures Absorbed(PayloadsOf(cfg, SplitFrames(Concat(chunks)).frames), parser, text, failure, shown)
    ensures buffer == SplitFrames(Concat(chunks)).rest
  {
    parser := new StreamParser();
    buffer, text, failure, shown := "", "", "", [];
    assert Boundary("").None?;
    assert chunks[..0] == [];
    hide Absorbed, SplitFrames, PayloadsOf;
    for i := 0 to |chunks|
      invariant Absorbed(PayloadsOf(cfg, SplitFrames(Concat(chunks[..i])).frames), parser, text, failure, shown)
      invariant buffer == SplitFrames(Concat(chunks[..i])).rest
      modifies parser
    {
      assert chunks[..i + 1][..i] == chunks[..i];
      var body := Concat(chunks[..i]);
      ChunkCompletes(cfg, body, chunks[i]);
      var frames, rest := TakeFrames(buffer + chunks[i]);
      buffer := rest;
      text, failure, shown := AbsorbFrames(cfg, parser, frames, text, failure, shown,
        PayloadsOf(cfg, SplitFrames(body).frames));
    }
    assert chunks[..|chunks|] == chunks;
  }

  /** Words are never read without being shown. */
  lemma SilenceHasNoWords(payloads: seq<Option<Payload>>)
    requires ShownBy(payloads) == []
    ensures TextOf(payloads) == ""
  {
    WordsAreTheText(payloads);
  }

  /** A stream that closed and reported no failure. */
  predicate IsWhole(payloads: seq<Option<Payload>>, ended: Ended<Retry.Failure>) {
    ended.Closed? && FailureIn(payloads) == ""
  }

  /** All the tool calls that the fragments of a whole stream give, and none of a stream that was cut off. */
  ghost predicate AnswersWithCalls(payloads: seq<Option<Payload>>, ended: Ended<Retry.Failure>,
                                   toolCalls: seq<ModelToolCall>)
  {
    if IsWhole(payloads, ended) then exists order :: AreGiven(FragmentsIn(payloads), toolCalls, order)
    else toolCalls == []
  }

  lemma AnsweredCalls(cfg: Config, payloads: seq<Option<Payload>>, ended: Ended<Retry.Failure>, stopped: bool,
                      forwarded: bool)
    requires ReadStream(cfg, payloads, ended, stopped, forwarded).outcome.Returned?
    ensures
      var reading := ReadStream(cfg, payloads, ended, stopped, forwarded);
      AnswersWithCalls(payloads, ended, reading.outcome.value.toolCalls)
  {
    hide Complete, Assemble, FragmentsIn, FailureIn, Trim, ShownBy, TextOf, CutOffNote, AreGiven;
    var order := CompleteIsGiven(FragmentsIn(payloads));
  }

  /** The result does not depend on how the body was cut into chunks. */
  method ReadOpenAiStream(cfg: Config, chunks: seq<string>, ended: Ended<Retry.Failure>, stopped: bool, forwarded: bool)
    returns (reading: Reading)
    ensures reading == ReadStream(cfg, PayloadsRead(cfg, Concat(chunks), ended), ended, stopped, forwarded)
    ensures reading.outcome.Returned? ==>
              AnswersWithCalls(PayloadsRead(cfg, Concat(chunks), ended), ended, reading.outcome.value.toolCalls)
  {
    hide SplitFrames, PayloadsOf, TextOf, ShownBy, FailureIn, FragmentsIn, Concat, Complete, Assemble, PayloadOf, Trim,
      CutOffNote, AnswersWithCalls;
    ghost var whole := PayloadsRead(cfg, Concat(chunks), ended);
    if ReadStream(cfg, whole, ended, stopped, forwarded).outcome.Returned? {
      AnsweredCalls(cfg, whole, ended, stopped, forwarded);
    }
    var parser, buffer, text, failure, shown := ReadChunks(cfg, chunks);
    ghost var payloads := PayloadsRead(cfg, Concat(chunks), ended);
    if ended.Broke? {
      assert payloads == PayloadsOf(cfg, SplitFrames(Concat(chunks)).frames);
      if shown == [] {
        SilenceHasNoWords(payloads);
      }
      reading := AfterError(cfg, ended.error, stopped, forwarded || shown != [], text, shown);
      return;
    }
    text, failure, shown := Absorb(parser, PayloadOf(cfg, buffer), text, failure, shown,
      PayloadsOf(cfg, SplitFrames(Concat(chunks)).frames));
    var toolCalls := parser.ToolCalls();
    if shown == [] {
      SilenceHasNoWords(payloads);
      NothingToTrim();
    }
    if failure != "" && Trim(text) != "" {
      shown := shown + [Words(CutOffNote(failure))];
      return Reading(Retry.Returned(Completion(text, cfg.provider, cfg.model, [])), shown);
    }
    if failure != "" {
      if Trim(text) == "" && !(forwarded || shown != []) {
        reading := AfterError(cfg, StreamError(failure), stopped, false, text, shown);
      } else {
        reading := Reading(Retry.Returned(DeskAnswer(cfg)), shown);
      }
      return;
    }
    if text == "" && toolCalls == [] && !(forwarded || shown != []) {
      reading := AfterError(cfg, EmptyError(), stopped, false, text, shown);
      return;
    }
    reading := Reading(Retry.Returned(Completion(text, cfg.provider, cfg.model, toolCalls)), shown);
  }

  lemma NothingToTrim()
    ensures Trim("") == ""
  {
  }

  /** What an error caught while reading becomes. */
  method AfterError(cfg: Config, error: Retry.Failure, stopped: bool, anything: bool, text: string, shown: seq<Shown>)
    returns (reading: Reading)
    ensures reading ==
      if stopped then Reading(Retry.Threw(error), shown)
      else if !anything then Reading(Retry.Threw(StreamError(error.message)), shown)
      else if Trim(text) != "" then
        Reading(
          Retry.Returned(Completion(text, cfg.provider, cfg.model, [])),
          shown + [Words(CutOffNote("the model connection dropped"))])
      else Reading(Retry.Returned(DeskAnswer(cfg)), shown)
  {
    if stopped {
      return Reading(Retry.Threw(error), shown);
    }
    if !anything {
      return Reading(Retry.Threw(StreamError(error.message)), shown);
    }
    if Trim(text) != "" {
      return Reading(
        Retry.Returned(Completion(text, cfg.provider, cfg.model, [])),
        shown + [Words(CutOffNote("the model connection dropped"))]);
    }
    reading := Reading(Retry.Returned(DeskAnswer(cfg)), shown);
  }

  /** What an answered attempt returns: its words, or the desk's when blank words were cut off. */
  lemma AnsweredText(cfg: Config, payloads: seq<Option<Payload>>, ended: Ended<Retry.Failure>, stopped: bool,
                     forwarded: bool)
    requires ReadStream(cfg, payloads, ended, stopped, forwarded).outcome.Returned?
    ensures var outcome, text := ReadStream(cfg, payloads, ended, stopped, forwarded).outcome, TextOf(payloads);
            && outcome.value.text == (if IsWhole(payloads, ended) || Trim(text) != "" then text else cfg.fallback)
            && (CutOff(payloads, ended, stopped) != "" <==> Trim(text) != "" && !IsWhole(payloads, ended))
  {
    hide Complete, Assemble, FragmentsIn, FailureIn, Trim, ShownBy, TextOf, CutOffNote;
  }

  /**
   An attempt throws exactly when it was stopped in the middle, or nothing was ever shown and it broke,
   reported a failure, or said nothing and named no tool.
   */
  lemma StreamsThrowExactly(cfg: Config, payloads: seq<Option<Payload>>, ended: Ended<Retry.Failure>, stopped: bool,
                            forwarded: bool)
    ensures
      var silent := !forwarded && ShownBy(payloads) == [];
      ReadStream(cfg, payloads, ended, stopped, forwarded).outcome.Threw? <==> (
        || (ended.Broke? && (stopped || silent))
        || (ended.Closed? && FailureIn(payloads) != "" && silent)
        || (ended.Closed? && FailureIn(payloads) == "" && silent
            && forall f :: f in FragmentsIn(payloads) ==> f.name == ""))
  {
    NothingIsHandedBackExactly(FragmentsIn(payloads));
    hide Complete, Assemble, FragmentsIn, FailureIn, Trim, ShownBy, TextOf, CutOffNote;
    if ShownBy(payloads) == [] {
      SilenceHasNoWords(payloads);
    }
  }

  /** With what it throws: the stop, or what broke the stream as an error worth one more call. */
  lemma StreamsThrow(cfg: Config, payloads: seq<Option<Payload>>, ended: Ended<Retry.Failure>, stopped: bool,
                     forwarded: bool)
    requires ReadStream(cfg, payloads, ended, stopped, forwarded).outcome.Threw?
    ensures
      var error := ReadStream(cfg, payloads, ended, stopped, forwarded).outcome.error;
      && (ended.Broke? && stopped ==> error == ended.error)
      && (ended.Broke? && !stopped ==> error == Retry.Failure("ModelStreamError", ended.error.message, None))
      && (ended.Closed? && FailureIn(payloads) != "" ==>
            error == Retry.Failure("ModelStreamError", FailureIn(payloads), None))
      && (ended.Closed? && FailureIn(payloads) == "" ==>
            error == Retry.Failure(if stopped then "ModelEmptyError" else "ModelStreamError",
              "the model returned no text and no tool call", None))
  {
    hide Complete, Assemble, FragmentsIn, FailureIn, Trim, ShownBy, TextOf, CutOffNote;
  }

  /** Otherwise it returns what arrived, under the model's name; the desk answers for blank words that were cut off. */
  lemma StreamsReturn(cfg: Config, payloads: seq<Option<Payload>>, ended: Ended<Retry.Failure>, stopped: bool,
                      forwarded: bool)
    requires ReadStream(cfg, payloads, ended, stopped, forwarded).outcome.Returned?
    ensures
      var r, text := ReadStream(cfg, payloads, ended, stopped, forwarded), TextOf(payloads);
      var value := r.outcome.value;
      && (IsWhole(payloads, ended) ==> value.text == text && r.shown == ShownBy(payloads))
      && (IsWhole(payloads, ended) || Trim(text) != "" ==>
            value.provider == cfg.provider && value.model == cfg.model)
      && (!IsWhole(payloads, ended) && Trim(text) != "" ==>
            && value.text == text
            && r.shown == ShownBy(payloads) + [Words("\n\n(That answer was cut off — "
                 + (if ended == Closed then FailureIn(payloads) else "the model connection dropped") + ".)")])
      && (!IsWhole(payloads, ended) && Trim(text) == "" ==>
            value == Completion(cfg.fallback, "mock", "travelclaw-local", []) && r.shown == ShownBy(payloads))
  {
    hide Complete, Assemble, FragmentsIn, FailureIn, Trim, ShownBy, TextOf;
  }

  lemma WordsWithNote(shown: seq<Shown>, reason: string)
    ensures WordsIn(shown + [Words(CutOffNote(reason))]) == WordsIn(shown) + CutOffNote(reason)
    ensures CutOffNote(reason) != ""
  {
    var note := [Words(CutOffNote(reason))];
    WordsAppend(shown, note);
    assert note[..0] == [];
  }

  /**
   A returned answer has shown exactly the words that arrived, and a note when it was cut off; it
   returns those words, or the desk's when they were blank. So a cut-off answer never shows what it returns.
   */
  lemma ShownAndReturned(cfg: Config, payloads: seq<Option<Payload>>, ended: Ended<Retry.Failure>, stopped: bool,
                         forwarded: bool)
    requires ReadStream(cfg, payloads, ended, stopped, forwarded).outcome.Returned?
    ensures
      var r, text, reason := ReadStream(cfg, payloads, ended, stopped, forwarded), TextOf(payloads),
        CutOff(payloads, ended, stopped);
      && WordsIn(r.shown) == text + (if reason == "" then "" else CutOffNote(reason))
      && (r.outcome.value.text == text || (r.outcome.value == DeskAnswer(cfg) && Trim(text) == ""))
      && (reason != "" ==> WordsIn(r.shown) != r.outcome.value.text)
  {
    hide Complete, Assemble, FragmentsIn, FailureIn, Trim, WordsIn, ShownBy, TextOf, CutOffNote;
    WordsAreTheText(payloads);
    WordsWithNote(ShownBy(payloads), CutOff(payloads, ended, stopped));
    NothingToTrim();
  }

  /** An attempt that throws has shown nothing, unless it was stopped or something was shown before it. */
  lemma ThrowsInSilence(cfg: Config, payloads: seq<Option<Payload>>, ended: Ended<Retry.Failure>, stopped: bool)
    ensures var r := ReadStream(cfg, payloads, ended, stopped, false);
            r.outcome.Threw? && !stopped ==> r.shown == []
    ensures var r := ReadStream(cfg, payloads, ended, stopped, false);
            r.outcome.Threw? && !stopped ==> r.outcome.error.name == "ModelStreamError"
  {
    hide Complete, Assemble, FragmentsIn, FailureIn, Trim, TextOf, ShownBy;
  }

  // ---------------------------------------------------------------------------
  // One call and its attempts
  // ---------------------------------------------------------------------------

  datatype Response =
    | NoAnswer(error: Retry.Failure)
    | Status(retryable: bool, retryAfterMs: Option<real>)
    | NoBody
    | Stream(chunks: seq<string>, ended: Ended<Retry.Failure>)
    | Message(text: string, toolCalls: seq<ModelToolCall>)
    | BadMessage(error: Retry.Failure)

  /** What one attempt meets: a Stop before it, while it reads, or after; the clock, the coin, and its pause. */
  datatype Exchange = Exchange(
    stoppedBefore: bool, beganAt: real, response: Response, stoppedReading: bool, stoppedLater: bool,
    failedAt: real, coin: real, pause: Retry.PauseEnd)

  function Attempt(cfg: Config, x: Exchange, forwarded: bool): Reading {
    match x.response
    case NoAnswer(error) => Reading(Retry.Threw(error), [])
    case Status(retryable, retryAfterMs) =>
      if retryable then Reading(Retry.Threw(Retry.Failure("HttpStatusError", "", retryAfterMs)), [])
      else Reading(Retry.Returned(DeskAnswer(cfg)), [])
    case NoBody => Reading(Retry.Threw(StreamError("the model answered with no stream to read")), [])
    case Stream(chunks, ended) =>
      ReadStream(cfg, PayloadsRead(cfg, Concat(chunks), ended), ended, x.stoppedReading, forwarded)
    case Message(text, toolCalls) =>
      if text == "" && toolCalls == [] then Reading(Retry.Threw(EmptyError()), [])
      else Reading(Retry.Returned(Completion(text, cfg.provider, cfg.model, toolCalls)), [])
    case BadMessage(error) => Reading(Retry.Threw(error), [])
  }

  /**
   Without a stream to read: a status worth a retry and an empty message throw; another status is
   the desk's to answer.
   */
  lemma AttemptsWithoutStream(cfg: Config, x: Exchange, forwarded: bool)
    requires !x.response.Stream?
    ensures
      var r := Attempt(cfg, x, forwarded);
      && r.shown == []
      && (r.outcome.Threw? <==> match x.response
            case Status(retryable, _) => retryable
            case Message(text, toolCalls) => |text| + |toolCalls| == 0
            case _ => true)
      && (r.outcome.Threw? ==> r.outcome.error == match x.response
            case NoAnswer(error) => error
            case BadMessage(error) => error
            case Status(_, wait) => Retry.Failure("HttpStatusError", "", wait)
            case Message(_, _) => Retry.Failure("ModelEmptyError", "the model returned no text and no tool call", None)
            case _ => Retry.Failure("ModelStreamError", "the model answered with no stream to read", None))
      && (r.outcome.Returned? ==> r.outcome.value == match x.response
            case Message(text, toolCalls) => Completion(text, cfg.provider, cfg.model, toolCalls)
            case _ => Completion(cfg.fallback, "mock", "travelclaw-local", []))
  {
  }

  /** Everything shown by the first `k` attempts; the sink they share remembers whether there was anything. */
  function ShownAfter(cfg: Config, xs: nat -> Exchange, k: nat): seq<Shown> {
    if k == 0 then []
    else
      var before := ShownAfter(cfg, xs, k - 1);
      before + Attempt(cfg, xs(k - 1), before != []).shown
  }

  function TryOf(cfg: Config, xs: nat -> Exchange, k: nat): Retry.Try<Completion> {
    var x := xs(k);
    Retry.Try(
      x.stoppedBefore, x.beganAt, Attempt(cfg, x, ShownAfter(cfg, xs, k) != []).outcome,
      x.stoppedReading || x.stoppedLater, x.failedAt, x.coin, x.pause)
  }

  function Tries(cfg: Config, xs: nat -> Exchange): nat -> Retry.Try<Completion> {
    (k: nat) => TryOf(cfg, xs, k)
  }

  /** Broken and empty answers are asked for once more; a vendor's long wait is an answer. */
  predicate ShouldRetry(cfg: Config, error: Retry.Failure, attempt: nat) {
    if error.name == "ModelEmptyError" || error.name == "ModelStreamError" then attempt == 1
    else if error.name == "ModelAttemptTimeoutError" then true
    else if error.name == "HttpStatusError" then error.retryAfterMs.GetOr(0.0) <= MODEL_RETRY_MAX_DELAY_MS
    else cfg.transient(error)
  }

  function DelayFor(cfg: Config, error: Retry.Failure): Option<real> {
    if error.name == "HttpStatusError" then error.retryAfterMs
    else if error.name == "ModelStreamError" then cfg.hint(error.message)
    else None
  }

  function RetryOptions(cfg: Config, abortReason: Retry.Failure): Retry.Options {
    Retry.Options(
      MODEL_RETRY, abortReason,
      (error: Retry.Failure, attempt: nat) => ShouldRetry(cfg, error, attempt), error => DelayFor(cfg, error))
  }

  /** Nothing but the failure itself keeps the call from another try. */
  predicate HasRoom(cfg: Config, reason: Retry.Failure, startedAt: real, t: Retry.Try<Completion>, attempt: nat) {
    var o := RetryOptions(cfg, reason);
    var p := Retry.RetryPolicy(o.overrides);
    && !t.stoppedBefore && t.outcome.Threw? && !Retry.IsAbortError(t.outcome.error) && !t.stoppedAfter && t.pause.Slept?
    && (attempt as real) < p.attempts
    && Retry.Remaining(p, startedAt, t.failedAt) > Retry.Delay(o, attempt, t.outcome.error, t.coin)
  }

  /** With room, a refused status is tried again exactly when it asks for no more than the longest delay. */
  lemma StatusGoesOnExactly(cfg: Config, reason: Retry.Failure, startedAt: real, t: Retry.Try<Completion>, attempt: nat)
    requires t.outcome.Threw? && t.outcome.error.name == "HttpStatusError"
    ensures Retry.GoesOn(RetryOptions(cfg, reason), startedAt, t, attempt)
       <==> && HasRoom(cfg, reason, startedAt, t, attempt)
            && t.outcome.error.retryAfterMs.GetOr(0.0) <= 1200.0
  {
    hide Retry.Delay, Retry.Remaining;
  }

  /**
   A broken answer is asked for again exactly after the first attempt, with room and a wait the
   policy sits through.
   */
  lemma BrokenAnswerGoesOnExactly(cfg: Config, reason: Retry.Failure, startedAt: real, t: Retry.Try<Completion>,
                                  attempt: nat)
    requires t.outcome.Threw? && t.outcome.error.name == "ModelStreamError"
    ensures Retry.GoesOn(RetryOptions(cfg, reason), startedAt, t, attempt)
       <==> && HasRoom(cfg, reason, startedAt, t, attempt) && attempt == 1
            && Retry.ProviderWait(RetryOptions(cfg, reason), t.outcome.error).GetOr(0.0) <= 20000.0
  {
    hide Retry.Delay, Retry.Remaining;
    assert Retry.RetryPolicy(MODEL_RETRY).maxWaitMs == 20000.0;
  }

  /** An empty answer is asked for again after the first attempt; a slow one always; others when they are transient. */
  lemma OtherFailuresGoOnExactly(cfg: Config, reason: Retry.Failure, startedAt: real, t: Retry.Try<Completion>,
                                 attempt: nat)
    requires t.outcome.Threw? && t.outcome.error.name !in {"HttpStatusError", "ModelStreamError"}
    ensures Retry.GoesOn(RetryOptions(cfg, reason), startedAt, t, attempt)
       <==> && HasRoom(cfg, reason, startedAt, t, attempt)
            && (t.outcome.error.name == "ModelEmptyError" ==> attempt == 1)
            && (t.outcome.error.name !in {"ModelEmptyError", "ModelAttemptTimeoutError"} ==>
                  cfg.transient(t.outcome.error))
  {
    hide Retry.Delay, Retry.Remaining;
  }

  /** Only a status or a broken stream names a wait, by its header or in its words. */
  lemma VendorsNameWaits(cfg: Config, reason: Retry.Failure, e: Retry.Failure, wait: real)
    ensures Retry.ProviderWait(RetryOptions(cfg, reason), e) == Some(wait)
       <==> && wait > 0.0
            && ((e.name == "HttpStatusError" && e.retryAfterMs == Some(wait))
                || (e.name == "ModelStreamError" && cfg.hint(e.message) == Some(wait)))
  {
  }

  /** Three tries from 0.4 to 1.2 seconds apart, at most 20 seconds for a vendor, within 45 seconds. */
  lemma ModelPolicy(cfg: Config, reason: Retry.Failure)
    ensures Retry.RetryPolicy(RetryOptions(cfg, reason).overrides)
         == Retry.Policy(3.0, 400.0, 1200.0, 20000.0, 45000.0, 0.5)
  {
  }

  /** A vendor that asks for five seconds is not waited for, though the policy would wait twenty. */
  lemma FiveSecondsAreNotWaitedFor(cfg: Config, reason: Retry.Failure)
    ensures
      var error := Retry.Failure("HttpStatusError", "", Some(5000.0));
      var t := Retry.Try(false, 0.0, Retry.Threw(error), false, 0.0, 0.0, Retry.Slept);
      && HasRoom(cfg, reason, 0.0, t, 1)
      && Retry.ProviderWait(RetryOptions(cfg, reason), error).GetOr(0.0) <= Retry.RetryPolicy(MODEL_RETRY).maxWaitMs
      && !Retry.GoesOn(RetryOptions(cfg, reason), 0.0, t, 1)
  {
    var error := Retry.Failure("HttpStatusError", "", Some(5000.0));
    var t := Retry.Try(false, 0.0, Retry.Threw(error), false, 0.0, 0.0, Retry.Slept);
    Retry.BackoffBounds(1, Retry.RetryPolicy(MODEL_RETRY), 0.0);
    Retry.RoundOfWhole(1200);
    hide Retry.BackoffMs;
    StatusGoesOnExactly(cfg, reason, 0.0, t, 1);
  }

  datatype Result = Answered(completion: Completion) | Stopped(error: Retry.Failure)

  /** Nothing is retried once anything has reached the screen. */
  lemma RetryMeansSilence(cfg: Config, reason: Retry.Failure, startedAt: real, xs: nat -> Exchange, k: nat)
    requires ShownAfter(cfg, xs, k) == []
    requires Retry.GoesOn(RetryOptions(cfg, reason), startedAt, TryOf(cfg, xs, k), k + 1)
    ensures ShownAfter(cfg, xs, k + 1) == []
  {
    var x := xs(k);
    hide ReadStream, Retry.Delay, Retry.Remaining, PayloadsRead;
    if x.response.Stream? {
      ThrowsInSilence(cfg, PayloadsRead(cfg, Concat(x.response.chunks), x.response.ended), x.response.ended,
        x.stoppedReading);
    }
  }

  lemma {:induction false} SilentSoFar(cfg: Config, reason: Retry.Failure, startedAt: real, xs: nat -> Exchange,
                                       pauses: seq<real>, k: nat)
    requires Retry.WentOn(RetryOptions(cfg, reason), startedAt, Tries(cfg, xs), pauses) && k <= |pauses|
    ensures ShownAfter(cfg, xs, k) == []
  {
    hide TryOf, ShownAfter, RetryOptions, Retry.GoesOn, Retry.Delay;
    if k == 0 {
      NothingShownYet(cfg, xs);
    } else {
      SilentSoFar(cfg, reason, startedAt, xs, pauses, k - 1);
      assert Retry.GoesOn(RetryOptions(cfg, reason), startedAt, Tries(cfg, xs)(k - 1), k - 1 + 1);
      RetryMeansSilence(cfg, reason, startedAt, xs, k - 1);
    }
  }

  lemma NothingShownYet(cfg: Config, xs: nat -> Exchange)
    ensures ShownAfter(cfg, xs, 0) == []
  {
  }

  lemma ShownNext(cfg: Config, xs: nat -> Exchange, k: nat)
    requires ShownAfter(cfg, xs, k) == []
    ensures ShownAfter(cfg, xs, k + 1) == Attempt(cfg, xs(k), false).shown
    ensures TryOf(cfg, xs, k).outcome == Attempt(cfg, xs(k), false).outcome
  {
    hide Attempt;
    assert [] + Attempt(cfg, xs(k), false).shown == Attempt(cfg, xs(k), false).shown;
  }

  /** Whatever is shown comes from the last attempt alone, as if it had been the only one. */
  lemma OneAttemptSpeaks(cfg: Config, reason: Retry.Failure, startedAt: real, xs: nat -> Exchange, pauses: seq<real>,
                         n: nat)
    requires Retry.WentOn(RetryOptions(cfg, reason), startedAt, Tries(cfg, xs), pauses)
    requires n <= |pauses| + 1
    ensures ShownAfter(cfg, xs, n) == if n == 0 then [] else Attempt(cfg, xs(n - 1), false).shown
    ensures n > 0 ==> TryOf(cfg, xs, n - 1).outcome == Attempt(cfg, xs(n - 1), false).outcome
  {
    hide Attempt, RetryOptions, Retry.GoesOn, Retry.WentOn, TryOf, ShownAfter;
    if n == 0 {
      NothingShownYet(cfg, xs);
    } else {
      SilentSoFar(cfg, reason, startedAt, xs, pauses, n - 1);
      ShownNext(cfg, xs, n - 1);
    }
  }

  lemma FailsInSilence(cfg: Config, x: Exchange)
    ensures Attempt(cfg, x, false).outcome.Threw? && !x.stoppedReading ==> Attempt(cfg, x, false).shown == []
  {
    hide ReadStream, PayloadsRead;
    if x.response.Stream? {
      ThrowsInSilence(cfg, PayloadsRead(cfg, Concat(x.response.chunks), x.response.ended), x.response.ended,
        x.stoppedReading);
    }
  }

  /** The last attempt that ran is the one the report is about. */
  lemma CallEnds(cfg: Config, reason: Retry.Failure, startedAt: real, xs: nat -> Exchange, pauses: seq<real>)
    requires Retry.WentOn(RetryOptions(cfg, reason), startedAt, Tries(cfg, xs), pauses)
    ensures
      var r := Retry.Ending(RetryOptions(cfg, reason), startedAt, Tries(cfg, xs)(|pauses|), |pauses| + 1,
        Retry.Sum(pauses));
      && r.attempts <= |pauses| + 1
      && (r.Succeeded? ==> r.attempts > 0 && Attempt(cfg, xs(r.attempts - 1), false).outcome == Retry.Returned(r.value))
      && (r.GaveUp? && r.attempts > 0 ==> Attempt(cfg, xs(r.attempts - 1), false).outcome.Threw?)
      && (r.GaveUp? && !r.aborted ==> r.attempts > 0 && !xs(r.attempts - 1).stoppedReading)
  {
    hide Attempt, RetryOptions, Retry.Ending, Retry.Sum, Retry.WentOn, TryOf, ShownAfter;
    var options, n := RetryOptions(cfg, reason), |pauses|;
    Retry.EndingCounts(options, startedAt, TryOf(cfg, xs, n), n + 1, Retry.Sum(pauses));
    Retry.EndingMeans(options, startedAt, TryOf(cfg, xs, n), n + 1, Retry.Sum(pauses));
    OneAttemptSpeaks(cfg, reason, startedAt, xs, pauses, n + 1);
    StopsAreSeen(cfg, xs, n);
    if n > 0 {
      OneAttemptSpeaks(cfg, reason, startedAt, xs, pauses, n);
      WentOnThrew(options, startedAt, Tries(cfg, xs), pauses, n - 1);
    }
  }

  lemma StopsAreSeen(cfg: Config, xs: nat -> Exchange, k: nat)
    ensures TryOf(cfg, xs, k).stoppedBefore == xs(k).stoppedBefore
    ensures TryOf(cfg, xs, k).stoppedAfter == (xs(k).stoppedReading || xs(k).stoppedLater)
    ensures TryOf(cfg, xs, k).beganAt == xs(k).beganAt && TryOf(cfg, xs, k).failedAt == xs(k).failedAt
    ensures TryOf(cfg, xs, k).coin == xs(k).coin && TryOf(cfg, xs, k).pause == xs(k).pause
  {
  }

  lemma WentOnThrew(o: Retry.Options, startedAt: real, tries: nat -> Retry.Try<Completion>, pauses: seq<real>, k: nat)
    requires Retry.WentOn(o, startedAt, tries, pauses) && k < |pauses|
    ensures tries(k).outcome.Threw?
  {
    assert Retry.GoesOn(o, startedAt, tries(k), k + 1);
  }

  /** What the caller gets from the report of the retries: an answer, the desk's own, or the stop. */
  function ResultOf(cfg: Config, report: Retry.Report<Completion>): Result {
    match report
    case Succeeded(value, _, _) => Answered(value)
    case GaveUp(error, _, _, aborted) => if aborted then Stopped(error) else Answered(DeskAnswer(cfg))
  }

  /** The whole call: the retry engine over its attempts, and the desk's fallback when it gives up. */
  method CompleteOpenAi(cfg: Config, xs: nat -> Exchange, abortReason: Retry.Failure, startedAt: real)
    returns (result: Result, shown: seq<Shown>, pauses: seq<real>)
    ensures
      var o, tries := RetryOptions(cfg, abortReason), Tries(cfg, xs);
      var report := Retry.Ending(o, startedAt, tries(|pauses|), |pauses| + 1, Retry.Sum(pauses));
      && Retry.WentOn(o, startedAt, tries, pauses) && !Retry.GoesOn(o, startedAt, tries(|pauses|), |pauses| + 1)
      && result == ResultOf(cfg, report) && report.attempts <= 3
      && shown == (if report.attempts == 0 then [] else Attempt(cfg, xs(report.attempts - 1), false).shown)
      && (result.Answered? ==>
            || (report.attempts > 0
              && Attempt(cfg, xs(report.attempts - 1), false).outcome == Retry.Returned(result.completion))
            || (result.completion == DeskAnswer(cfg) && shown == []))
  {
    hide Attempt, Retry.Ending, Retry.GoesOn, Retry.WentOn, ShownAfter, TryOf;
    var options := RetryOptions(cfg, abortReason);
    var report, calls;
    report, calls, pauses := Retry.WithRetry(Tries(cfg, xs), options, startedAt);
    shown := ShownAfter(cfg, xs, report.attempts);
    CallEnds(cfg, abortReason, startedAt, xs, pauses);
    OneAttemptSpeaks(cfg, abortReason, startedAt, xs, pauses, report.attempts);
    assert Retry.RetryPolicy(options.overrides).attempts == 3.0;
    if report.GaveUp? && !report.aborted {
      FailsInSilence(cfg, xs(report.attempts - 1));
    }
    result := ResultOf(cfg, report);
  }
}
