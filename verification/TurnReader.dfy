/**
 The browser's reader of a live turn (apps/web/src/turnStream.ts), and the text the
 gateway writes to it (apps/api/src/gateway/turn-stream.ts): an incremental parser
 against its printer, over arbitrary chunk boundaries and cuts.
 */
module TurnReader {
  import opened Wrappers
  import opened Text
  import opened Sequences
  import opened Frames

  /** A gateway event: only the two that settle the turn are told apart. */
  datatype StreamEvent = Completed(response: string) | Failed(message: string) | Progress(payload: string)

  /** `JSON.stringify`, and `JSON.parse` with its exception as None. */
  datatype Codec = Codec(encode: StreamEvent -> string, decode: string -> Option<StreamEvent>)

  /**
   What the reader relies on: an encoded object is one trimmed line that decodes to
   itself, and no proper prefix of it decodes to anything.
   */
  ghost predicate Faithful(codec: Codec) {
    forall e {:trigger codec.encode(e)} ::
      var text := codec.encode(e);
      && text != "" && Trimmed(text) && '\n' !in text
      && codec.decode(text) == Some(e)
      && forall n :: 0 <= n < |text| ==> codec.decode(text[..n]).None?
  }

  // ---------------------------------------------------------------------------
  // The wire
  // ---------------------------------------------------------------------------

  /** What the gateway writes: the opening padding, keep-alives, and events. */
  datatype Item = Padding(spaces: nat) | KeepAlive(stamp: string) | Send(event: StreamEvent)

  /** Every item is one line. */
  predicate WellFormed(item: Item) {
    item.KeepAlive? ==> '\n' !in item.stamp
  }

  /** The line of an item, without the blank line that ends its frame. */
  function Body(codec: Codec, item: Item): string {
    match item
    case Padding(n) => ": " + seq(n, _ => ' ')
    case KeepAlive(stamp) => ": keep-alive " + stamp
    case Send(e) => "data: " + codec.encode(e)
  }

  function Frame(codec: Codec, item: Item): string {
    Body(codec, item) + "\n\n"
  }

  function Wire(codec: Codec, items: seq<Item>): string {
    if items == [] then "" else Frame(codec, items[0]) + Wire(codec, items[1..])
  }

  function Sent(items: seq<Item>): seq<StreamEvent> {
    if items == [] then []
    else if items[0].Send? then [items[0].event] + Sent(items[1..])
    else Sent(items[1..])
  }

  // ---------------------------------------------------------------------------
  // The reader
  // ---------------------------------------------------------------------------

  function ParseFrame(codec: Codec, frame: string): Option<StreamEvent> {
    match LastDataLine(frame)
    case None => None
    case Some(line) => codec.decode(Trim(line[5..]))
  }

  /** The event of a frame, if it has one. */
  function EventOf(codec: Codec, frame: string): seq<StreamEvent> {
    var e := ParseFrame(codec, frame);
    if e.Some? then [e.value] else []
  }

  function Parsed(codec: Codec, frames: seq<string>): seq<StreamEvent> {
    if frames == [] then []
    else Parsed(codec, frames[..|frames| - 1]) + EventOf(codec, frames[|frames| - 1])
  }

  /** The frames the reader parses: those of the text, and at a clean end what is left of it. */
  function FramesRead(text: string, ended: Ended<string>): seq<string> {
    SplitFrames(text).frames + if ended.Closed? then [SplitFrames(text).rest] else []
  }

  /** Everything a text delivers. */
  function Delivered(codec: Codec, text: string, ended: Ended<string>): seq<StreamEvent> {
    Parsed(codec, FramesRead(text, ended))
  }

  datatype Result = Answer(response: string) | Error(message: string)

  /** The last completion, or the last failure with a message, or an ended stream. */
  function Settle(events: seq<StreamEvent>): Result {
    if exists e :: e in events && e.Completed? then LastCompleted(events)
    else LastFailed(events)
  }

  function LastCompleted(events: seq<StreamEvent>): Result
    requires exists e :: e in events && e.Completed?
  {
    var last := events[|events| - 1];
    if last.Completed? then Answer(last.response)
    else
      assert events == events[..|events| - 1] + [last];
      LastCompleted(events[..|events| - 1])
  }

  function LastFailed(events: seq<StreamEvent>): Result {
    var none := Error("The turn ended before the desk finished.");
    if events == [] then none
    else
      var last := events[|events| - 1];
      if last.Failed? then if last.message != "" then Error(last.message) else none
      else LastFailed(events[..|events| - 1])
  }

  /** A broken connection is an error, whatever arrived before it. */
  function Concluded(events: seq<StreamEvent>, ended: Ended<string>): Result {
    match ended
    case Closed => Settle(events)
    case Broke(error) => Error(error)
  }

  /** The broken connection's error, else the last completion, else the last failure that says why. */
  lemma ConcludedExactly(events: seq<StreamEvent>, ended: Ended<string>, k: nat)
    ensures ended.Broke? ==> Concluded(events, ended) == Error(ended.error)
    ensures ended.Closed? && k < |events| && events[k].Completed?
            && (forall j :: k < j < |events| ==> !events[j].Completed?)
            ==> Concluded(events, ended) == Answer(events[k].response)
    ensures ended.Closed? && (forall j :: 0 <= j < |events| ==> !events[j].Completed?)
            && k < |events| && events[k].Failed? && (forall j :: k < j < |events| ==> !events[j].Failed?)
            ==> Concluded(events, ended) ==
                Error(if events[k].message != "" then events[k].message else "The turn ended before the desk finished.")
    ensures ended.Closed? && (forall j :: 0 <= j < |events| ==> !events[j].Completed? && !events[j].Failed?)
            ==> Concluded(events, ended) == Error("The turn ended before the desk finished.")
  {
    if k < |events| {
      if events[k].Completed? && forall j :: k < j < |events| ==> !events[j].Completed? {
        assert events[k] in events;
        LastCompletedIs(events, k);
      }
      if events[k].Failed? && forall j :: k < j < |events| ==> !events[j].Failed? {
        LastFailedIs(events, k);
      }
    }
    if forall j :: 0 <= j < |events| ==> !events[j].Failed? {
      NoneFailed(events);
    }
  }

  lemma {:induction false} LastCompletedIs(events: seq<StreamEvent>, k: nat)
    requires k < |events| && events[k].Completed? && (forall j :: k < j < |events| ==> !events[j].Completed?)
    requires exists e :: e in events && e.Completed?
    ensures LastCompleted(events) == Answer(events[k].response)
  {
    var init := events[..|events| - 1];
    if k < |init| {
      assert init[k] in init;
      LastCompletedIs(init, k);
    }
  }

  lemma {:induction false} LastFailedIs(events: seq<StreamEvent>, k: nat)
    requires k < |events| && events[k].Failed? && (forall j :: k < j < |events| ==> !events[j].Failed?)
    ensures LastFailed(events) ==
            Error(if events[k].message != "" then events[k].message else "The turn ended before the desk finished.")
  {
    if k < |events| - 1 {
      LastFailedIs(events[..|events| - 1], k);
    }
  }

  lemma {:induction false} NoneFailed(events: seq<StreamEvent>)
    requires forall j :: 0 <= j < |events| ==> !events[j].Failed?
    ensures LastFailed(events) == Error("The turn ended before the desk finished.")
  {
    if events != [] {
      NoneFailed(events[..|events| - 1]);
    }
  }

  lemma ParsedSnoc(codec: Codec, frames: seq<string>, frame: string)
    ensures Parsed(codec, frames + [frame]) == Parsed(codec, frames) + EventOf(codec, frame)
  {
    assert (frames + [frame])[..|frames|] == frames;
  }

  /** Deliver what one frame holds. */
  method TakeFrame(codec: Codec, frame: string, events: seq<StreamEvent>, completed: Option<string>, failed: string)
    returns (nextEvents: seq<StreamEvent>, nextCompleted: Option<string>, nextFailed: string)
    requires Remembers(events, completed, failed)
    ensures Remembers(nextEvents, nextCompleted, nextFailed)
    ensures nextEvents == events + EventOf(codec, frame)
  {
    hide Remembers;
    nextEvents, nextCompleted, nextFailed := events, completed, failed;
    var event := ParseFrame(codec, frame);
    if event.Some? {
      Remember(events, completed, failed, event.value);
      if event.value.Completed? { nextCompleted := Some(event.value.response); }
      if event.value.Failed? { nextFailed := event.value.message; }
      nextEvents := events + [event.value];
    }
  }

  /** Deliver what each of the frames holds. */
  method TakeEach(codec: Codec, frames: seq<string>, events: seq<StreamEvent>, completed: Option<string>,
                  failed: string)
    returns (nextEvents: seq<StreamEvent>, nextCompleted: Option<string>, nextFailed: string)
    requires Remembers(events, completed, failed)
    ensures Remembers(nextEvents, nextCompleted, nextFailed)
    ensures nextEvents == events + Parsed(codec, frames)
  {
    hide Remembers, Parsed, EventOf;
    nextEvents, nextCompleted, nextFailed := events, completed, failed;
    ParsedNone(codec);
    AppendNothing(events);
    assert frames[..0] == [];
    for k := 0 to |frames|
      invariant nextEvents == events + Parsed(codec, frames[..k])
      invariant Remembers(nextEvents, nextCompleted, nextFailed)
    {
      ParsedNext(codec, frames, k);
      Associative(events, Parsed(codec, frames[..k]), EventOf(codec, frames[k]));
      nextEvents, nextCompleted, nextFailed := TakeFrame(codec, frames[k], nextEvents, nextCompleted, nextFailed);
    }
    assert frames[..|frames|] == frames;
  }

  /** Read a stream that arrives in any chunks: the events delivered depend only on their text. */
  method Read(codec: Codec, chunks: seq<string>, ended: Ended<string>)
    returns (events: seq<StreamEvent>, result: Result)
    ensures events == Delivered(codec, Concat(chunks), ended)
    ensures result == Concluded(events, ended)
  {
    hide Remembers, SplitFrames, Parsed, EventOf, Settle;
    var buffer := "";
    var completed: Option<string>, failed := None, "";
    events := [];
    NothingRead(codec, chunks);
    for i := 0 to |chunks|
      invariant buffer == SplitFrames(Concat(chunks[..i])).rest
      invariant events == Parsed(codec, SplitFrames(Concat(chunks[..i])).frames)
      invariant Remembers(events, completed, failed)
    {
      ChunkRead(codec, chunks, i);
      buffer := buffer + chunks[i];
      var frames;
      frames, buffer := TakeFrames(buffer);
      events, completed, failed := TakeEach(codec, frames, events, completed, failed);
    }
    assert chunks[..|chunks|] == chunks;
    if ended.Broke? {
      AppendNothing(SplitFrames(Concat(chunks)).frames);
      return events, Error(ended.error);
    }
    ParsedSnoc(codec, SplitFrames(Concat(chunks)).frames, buffer);
    events, completed, failed := TakeFrame(codec, buffer, events, completed, failed);
    RememberedSettles(events, completed, failed);
    if completed.Some? {
      return events, Answer(completed.value);
    }
    if failed != "" {
      return events, Error(failed);
    }
    return events, Error("The turn ended before the desk finished.");
  }

  lemma ParsedNone(codec: Codec)
    ensures Parsed(codec, []) == []
  {
  }

  lemma ParsedNext(codec: Codec, frames: seq<string>, k: nat)
    requires k < |frames|
    ensures Parsed(codec, frames[..k + 1]) == Parsed(codec, frames[..k]) + EventOf(codec, frames[k])
  {
    assert frames[..k + 1] == frames[..k] + [frames[k]];
    ParsedSnoc(codec, frames[..k], frames[k]);
  }

  /** One more chunk completes the frames that it ends, behind those of the earlier text. */
  lemma ChunkRead(codec: Codec, chunks: seq<string>, i: nat)
    requires i < |chunks|
    ensures var before := SplitFrames(Concat(chunks[..i]));
            var more := SplitFrames(before.rest + chunks[i]);
            var after := SplitFrames(Concat(chunks[..i + 1]));
            && after.rest == more.rest
            && Parsed(codec, after.frames) == Parsed(codec, before.frames) + Parsed(codec, more.frames)
  {
    assert chunks[..i + 1][..i] == chunks[..i];
    assert Concat(chunks[..i + 1]) == Concat(chunks[..i]) + chunks[i];
    hide SplitFrames, Parsed;
    var before := SplitFrames(Concat(chunks[..i]));
    SplitAppend(Concat(chunks[..i]), chunks[i]);
    ParsedAppend(codec, before.frames, SplitFrames(before.rest + chunks[i]).frames);
  }

  lemma NothingRead(codec: Codec, chunks: seq<string>)
    ensures Remembers([], None, "")
    ensures SplitFrames(Concat(chunks[..0])) == Split([], "") && Parsed(codec, []) == []
  {
  }

  lemma RememberedSettles(events: seq<StreamEvent>, completed: Option<string>, failed: string)
    requires Remembers(events, completed, failed)
    ensures Settle(events) ==
            if completed.Some? then Answer(completed.value)
            else if failed != "" then Error(failed)
            else Error("The turn ended before the desk finished.")
  {
  }

  /** The two variables of the reader, as functions of what it delivered. */
  ghost predicate Remembers(events: seq<StreamEvent>, completed: Option<string>, failed: string) {
    && (completed.Some? <==> exists e :: e in events && e.Completed?)
    && (completed.Some? ==> LastCompleted(events) == Answer(completed.value))
    && LastFailed(events) == Error(if failed != "" then failed else "The turn ended before the desk finished.")
  }

  lemma Remember(events: seq<StreamEvent>, completed: Option<string>, failed: string, e: StreamEvent)
    requires Remembers(events, completed, failed)
    ensures Remembers(events + [e], if e.Completed? then Some(e.response) else completed,
                      if e.Failed? then e.message else failed)
  {
    var next := events + [e];
    assert next[..|events|] == events && next[|events|] == e;
    if completed.Some? {
      var c :| c in events && c.Completed?;
      assert c in next;
    }
    if e.Completed? {
      assert e in next;
    }
  }

  // ---------------------------------------------------------------------------
  // The reader against the wire
  // ---------------------------------------------------------------------------

  lemma BodyIsOneLine(codec: Codec, item: Item)
    requires Faithful(codec) && WellFormed(item)
    ensures '\n' !in Body(codec, item)
    ensures IsData(Body(codec, item)) <==> item.Send?
  {
    var body := Body(codec, item);
    match item {
      case Padding(n) => assert body[0] == ':';
      case KeepAlive(stamp) => assert body[0] == ':';
      case Send(e) => assert body[..5] == "data:";
    }
  }

  /** A whole line delivers its event, if it is one. */
  lemma WholeBody(codec: Codec, item: Item)
    requires Faithful(codec) && WellFormed(item)
    ensures ParseFrame(codec, Body(codec, item)) == if item.Send? then Some(item.event) else None
    ensures ParseFrame(codec, Body(codec, item) + "\n") == ParseFrame(codec, Body(codec, item))
  {
    var body := Body(codec, item);
    BodyIsOneLine(codec, item);
    SingleLine(body);
    if item.Send? {
      var text := codec.encode(item.event);
      assert body[5..] == " " + text + "";
      TrimDrops(" ", text, "");
    }
  }

  /** A proper part of a line delivers nothing. */
  lemma PartOfBody(codec: Codec, item: Item, n: nat)
    requires Faithful(codec) && WellFormed(item) && n < |Body(codec, item)|
    ensures ParseFrame(codec, Body(codec, item)[..n]) == None
  {
    var body := Body(codec, item);
    var part := body[..n];
    BodyIsOneLine(codec, item);
    SingleLine(part);
    if IsData(part) {
      assert body[..5] == part[..5];
      var text := codec.encode(item.event);
      if n == 5 {
        assert part[5..] == "" && Trim("") == "" && text[..0] == "";
      } else {
        var p := text[..n - 6];
        assert part[5..] == " " + p;
        TrimmedPart(text, n - 6);
        var m := |Trim(" " + p)|;
        assert Trim(part[5..]) == text[..m];
      }
    }
  }

  /** Trimming a proper prefix of a trimmed text leaves a proper prefix of it. */
  lemma TrimmedPart(text: string, n: nat)
    requires Trimmed(text) && n < |text|
    ensures var r := Trim(" " + text[..n]); |r| < |text| && r == text[..|r|]
  {
    var p := text[..n];
    if n == 0 {
      assert " " + p == " ";
      TrimOfBlank(" ");
    } else {
      assert p[0] == text[0];
      TrimStartDrops(" ", p);
      TrimEndSplits(p);
    }
  }

  lemma ParsedAppend(codec: Codec, a: seq<string>, b: seq<string>)
    ensures Parsed(codec, a + b) == Parsed(codec, a) + Parsed(codec, b)
  {
    if b == [] {
      assert a + b == a;
    } else {
      var init, last := b[..|b| - 1], b[|b| - 1];
      ParsedAppend(codec, a, init);
      AppendInit(a, b);
      hide EventOf;
      Associative(Parsed(codec, a), Parsed(codec, init), EventOf(codec, last));
    }
  }

  /** One frame in front delivers its event in front. */
  lemma FrameFirst(codec: Codec, item: Item, more: string, ended: Ended<string>)
    requires Faithful(codec) && WellFormed(item)
    ensures Delivered(codec, Frame(codec, item) + more, ended)
         == (if item.Send? then [item.event] else []) + Delivered(codec, more, ended)
  {
    hide SplitFrames, ParseFrame, Body;
    var body := Body(codec, item);
    BodyIsOneLine(codec, item);
    OneFrame(body);
    SplitAppend(body + "\n\n", more);
    assert "" + more == more;
    WholeBody(codec, item);
    ParsedSnoc(codec, [], body);
    assert [] + [body] == [body];
    var whole := SplitFrames(more);
    var last := if ended.Closed? then [whole.rest] else [];
    Associative([body], whole.frames, last);
    ParsedAppend(codec, [body], whole.frames + last);
  }

  /** How much of an item must arrive for the reader to take it: the blank line too, unless the end is clean. */
  function Needed(codec: Codec, item: Item, ended: Ended<string>): nat {
    if ended.Closed? then |Body(codec, item)| else |Frame(codec, item)|
  }

  /** How many of the first items have arrived with the first n characters of the wire. */
  function Arrived(codec: Codec, items: seq<Item>, n: nat, ended: Ended<string>): (k: nat)
    ensures k <= |items|
  {
    if items == [] || n < Needed(codec, items[0], ended) then 0
    else if n < |Frame(codec, items[0])| then 1
    else 1 + Arrived(codec, items[1..], n - |Frame(codec, items[0])|, ended)
  }

  /**
   A connection cut anywhere delivers exactly the events that had arrived: with their line
   when the body ends there, with their blank line when the connection breaks.
   */
  lemma {:induction false} CutDeliversArrived(codec: Codec, items: seq<Item>, n: nat, ended: Ended<string>)
    requires Faithful(codec) && (forall i :: i in items ==> WellFormed(i)) && n <= |Wire(codec, items)|
    ensures Delivered(codec, Wire(codec, items)[..n], ended) == Sent(items[..Arrived(codec, items, n, ended)])
  {
    hide Delivered, Body;
    if items == [] {
      NothingDelivered(codec, ended);
    } else {
      var item, frame := items[0], Frame(codec, items[0]);
      var wire, more := Wire(codec, items), Wire(codec, items[1..]);
      if n < |frame| {
        assert wire[..n] == frame[..n];
        PartDelivered(codec, item, n, ended);
        assert items[..1] == [item] && [item][1..] == [];
      } else {
        assert wire[..n] == frame + more[..n - |frame|];
        CutDeliversArrived(codec, items[1..], n - |frame|, ended);
        FrameFirst(codec, item, more[..n - |frame|], ended);
        var k := Arrived(codec, items[1..], n - |frame|, ended);
        assert items[..1 + k][1..] == items[1..][..k];
      }
    }
  }

  lemma NothingDelivered(codec: Codec, ended: Ended<string>)
    requires Faithful(codec)
    ensures Delivered(codec, "", ended) == []
  {
    SingleLine("");
    ParsedSnoc(codec, [], "");
    assert [] + [""] == [""];
  }

  /** A frame cut short of its blank line delivers its event once the line is whole, if the end is clean. */
  lemma PartDelivered(codec: Codec, item: Item, n: nat, ended: Ended<string>)
    requires Faithful(codec) && WellFormed(item) && n < |Frame(codec, item)|
    ensures Delivered(codec, Frame(codec, item)[..n], ended)
         == if n >= Needed(codec, item, ended) && item.Send? then [item.event] else []
  {
    var body, part := Body(codec, item), Frame(codec, item)[..n];
    BodyIsOneLine(codec, item);
    PartOfFrame(part, body);
    assert [] + [part] == [part];
    ParsedSnoc(codec, [], part);
    if n < |body| {
      assert part == body[..n];
      PartOfBody(codec, item, n);
    } else {
      assert part == if n == |body| then body else body + "\n";
      WholeBody(codec, item);
    }
  }

  lemma {:induction false} AllArrived(codec: Codec, items: seq<Item>, ended: Ended<string>)
    ensures Arrived(codec, items, |Wire(codec, items)|, ended) == |items|
  {
    if items != [] { AllArrived(codec, items[1..], ended); }
  }

  /** Nothing cut off: the reader delivers exactly the sent events, in order, whatever came between them. */
  lemma WireRoundTrip(codec: Codec, items: seq<Item>, ended: Ended<string>)
    requires Faithful(codec) && forall i :: i in items ==> WellFormed(i)
    ensures Delivered(codec, Wire(codec, items), ended) == Sent(items)
  {
    var wire := Wire(codec, items);
    CutDeliversArrived(codec, items, |wire|, ended);
    AllArrived(codec, items, ended);
    assert wire[..|wire|] == wire && items[..|items|] == items;
  }

  lemma {:induction false} SentOfPrefix(items: seq<Item>, k: nat)
    requires k <= |items|
    ensures Sent(items[..k]) <= Sent(items)
  {
    if k > 0 {
      assert items[..k][1..] == items[1..][..k - 1];
      SentOfPrefix(items[1..], k - 1);
    }
  }

  /** A cut never delivers anything but a prefix of what was sent, however the connection ends there. */
  lemma CutDeliversPrefix(codec: Codec, items: seq<Item>, n: nat, ended: Ended<string>)
    requires Faithful(codec) && (forall i :: i in items ==> WellFormed(i)) && n <= |Wire(codec, items)|
    ensures Delivered(codec, Wire(codec, items)[..n], ended) <= Sent(items)
  {
    CutDeliversArrived(codec, items, n, ended);
    SentOfPrefix(items, Arrived(codec, items, n, ended));
  }
}
