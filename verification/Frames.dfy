/**
 Server-Sent Events text, cut into frames by blank lines while it arrives in chunks:
 the buffer loop shared by the browser's reader and the model stream's reader.
 */
module Frames {
  import opened Wrappers

  /** A body is read to its end, or the connection breaks. */
  datatype Ended<E> = Closed | Broke(error: E)

  /** The complete frames of a text and what is left of it. */
  datatype Split = Split(frames: seq<string>, rest: string)

  /** The first blank line at or after i, as `indexOf('\n\n', i)`. */
  function BoundaryFrom(s: string, i: nat): (b: Option<nat>)
    requires i <= |s|
    ensures b.Some? ==> i <= b.value && b.value + 2 <= |s| && s[b.value] == '\n' && s[b.value + 1] == '\n'
    ensures b.Some? ==> forall k :: i <= k < b.value ==> !(s[k] == '\n' && s[k + 1] == '\n')
    ensures b.None? ==> forall k :: i <= k < |s| - 1 ==> !(s[k] == '\n' && s[k + 1] == '\n')
    decreases |s| - i
  {
    if i + 2 > |s| then None
    else if s[i] == '\n' && s[i + 1] == '\n' then Some(i)
    else BoundaryFrom(s, i + 1)
  }

  function Boundary(s: string): Option<nat> {
    BoundaryFrom(s, 0)
  }

  function SplitFrames(s: string): Split
    decreases |s|
  {
    match Boundary(s)
    case None => Split([], s)
    case Some(b) =>
      var more := SplitFrames(s[b + 2..]);
      Split([s[..b]] + more.frames, more.rest)
  }

  /** The first boundary stays the first when more text arrives. */
  lemma BoundaryStays(s: string, more: string)
    requires Boundary(s).Some?
    ensures Boundary(s + more) == Boundary(s)
  {
    var b := Boundary(s).value;
    assert (s + more)[b] == '\n' && (s + more)[b + 1] == '\n';
    assert forall k :: 0 <= k < |s| ==> (s + more)[k] == s[k];
  }

  /** Where the text is cut does not matter: the frames of a part stay, and its rest goes on. */
  lemma {:induction false} SplitAppend(s: string, more: string)
    ensures var part := SplitFrames(s);
            var whole := SplitFrames(part.rest + more);
            SplitFrames(s + more) == Split(part.frames + whole.frames, whole.rest)
    decreases |s|
  {
    hide Boundary;
    if Boundary(s).None? {
      var whole := SplitFrames(s + more);
      assert [] + whole.frames == whole.frames;
    } else {
      var b := FirstBoundary(s);
      var head, tail := s[..b], s[b + 2..];
      BoundaryStays(s, more);
      assert (s + more)[b + 2..] == tail + more && (s + more)[..b] == head;
      SplitAppend(tail, more);
      var part := SplitFrames(tail);
      var whole := SplitFrames(part.rest + more);
      assert [head] + (part.frames + whole.frames) == ([head] + part.frames) + whole.frames;
    }
  }

  lemma FirstBoundary(s: string) returns (b: nat)
    requires Boundary(s).Some?
    ensures Boundary(s) == Some(b) && b + 2 <= |s|
  {
    b := Boundary(s).value;
  }

  /** A text without a newline, followed by a blank line, is one frame. */
  lemma OneFrame(body: string)
    requires '\n' !in body
    ensures SplitFrames(body + "\n\n") == Split([body], "")
  {
    var s := body + "\n\n";
    assert s[|body|] == '\n' && s[|body| + 1] == '\n';
    assert Boundary(s) == Some(|body|);
    assert s[..|body|] == body && s[|body| + 2..] == "";
    assert Boundary("").None?;
  }

  /** What of one frame has arrived, short of its blank line, is no frame yet. */
  lemma PartOfFrame(part: string, body: string)
    requires '\n' !in body && part <= body + "\n"
    ensures SplitFrames(part) == Split([], part)
  {
    assert forall k :: 0 <= k < |part| - 1 ==> part[k] == body[k];
  }

  function Concat(chunks: seq<string>): string {
    if chunks == [] then "" else Concat(chunks[..|chunks| - 1]) + chunks[|chunks| - 1]
  }

  /** The frames that one more chunk completes, as the buffer loop takes them off. */
  method TakeFrames(buffer: string) returns (frames: seq<string>, rest: string)
    ensures SplitFrames(buffer) == Split(frames, rest)
  {
    frames, rest := [], buffer;
    var boundary := Boundary(rest);
    while boundary.Some?
      invariant boundary == Boundary(rest)
      invariant SplitFrames(buffer) == Split(frames + SplitFrames(rest).frames, SplitFrames(rest).rest)
      decreases |rest|
    {
      frames := frames + [rest[..boundary.value]];
      rest := rest[boundary.value + 2..];
      boundary := Boundary(rest);
    }
  }

  // ---------------------------------------------------------------------------
  // The data line of a frame
  // ---------------------------------------------------------------------------

  predicate IsData(line: string) {
    "data:" <= line
  }

  /** A data line begins with `data:`, with or without anything after it. */
  lemma DataLinesExactly(line: string)
    ensures IsData(line) <==> exists rest :: line == "data:" + rest
  {
    if IsData(line) {
      assert line == "data:" + line[5..];
    }
  }

  function Newline(s: string): Option<nat> {
    if s == "" then None
    else if s[0] == '\n' then Some(0)
    else match Newline(s[1..]) case None => None case Some(k) => Some(k + 1)
  }

  lemma {:induction false} NewlineIsFirst(s: string)
    ensures match Newline(s)
            case None => '\n' !in s
            case Some(k) => k < |s| && s[k] == '\n' && '\n' !in s[..k]
  {
    if s != "" && s[0] != '\n' {
      NewlineIsFirst(s[1..]);
      assert s == [s[0]] + s[1..];
      if Newline(s).Some? {
        assert s[..Newline(s).value] == [s[0]] + s[1..][..Newline(s[1..]).value];
      }
    }
  }

  function Lines(s: string): seq<string>
    decreases |s|
  {
    NewlineIsFirst(s);
    match Newline(s)
    case None => [s]
    case Some(k) => [s[..k]] + Lines(s[k + 1..])
  }

  function LastData(lines: seq<string>): (line: Option<string>)
    ensures line.Some? ==> IsData(line.value) && line.value in lines
  {
    if lines == [] then None
    else if IsData(lines[|lines| - 1]) then Some(lines[|lines| - 1])
    else LastData(lines[..|lines| - 1])
  }

  /** The last `data:` line of a frame; comments and keep-alives have none. */
  function LastDataLine(frame: string): (line: Option<string>)
    ensures line.Some? ==> IsData(line.value)
  {
    LastData(Lines(frame))
  }

  lemma OneLine(s: string)
    requires '\n' !in s
    ensures Lines(s) == [s]
  {
    NewlineIsFirst(s);
  }

  lemma LineThenNothing(s: string)
    requires '\n' !in s
    ensures Lines(s + "\n") == [s, ""]
  {
    var t := s + "\n";
    NewlineIsFirst(t);
    assert t[|s|] == '\n';
    var k := Newline(t).value;
    assert k == |s| by {
      assert t[..k] == s[..k];
    }
    assert t[..k] == s && t[k + 1..] == "";
    OneLine("");
    assert [s] + [""] == [s, ""];
  }

  lemma SingleLine(s: string)
    requires '\n' !in s
    ensures LastDataLine(s) == if IsData(s) then Some(s) else None
    ensures LastDataLine(s + "\n") == LastDataLine(s)
  {
    OneLine(s);
    LineThenNothing(s);
    hide Lines;
    assert [s][..0] == [] && [s, ""][..1] == [s];
  }
}
