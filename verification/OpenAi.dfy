/**
 Assembling an OpenAI-compatible stream (apps/api/src/models/openai.ts): text, reasoning,
 and tool calls that arrive as fragments keyed by index.
 */
module OpenAi {
  import opened Wrappers
  import opened Text
  import opened Sequences
  import opened Numbers

  /** A piece of a tool call; a missing or mistyped string is "", a missing index 0. */
  datatype Fragment = Fragment(index: int, id: string, name: string, arguments: string)

  /** What a decoded frame says: a failure, or the first choice's delta. */
  datatype Payload = Payload(
    error: Option<string>, content: string,
    reasoningContent: Option<string>, reasoning: string, toolCalls: seq<Fragment>)

  datatype Delta = Delta(text: string, thought: string, failure: Option<string>)

  datatype Call = Call(id: string, name: string, args: string)

  datatype ModelToolCall = ModelToolCall(id: string, name: string, arguments: string)

  /** One `data:` line's payload; none for keep-alives, `[DONE]` and what does not decode. */
  function StreamPayload(decode: string -> Option<Payload>, line: Option<string>): Option<Payload> {
    if line.None? || |line.value| < 5 then None
    else
      var raw := Trim(line.value[5..]);
      if raw == "" || raw == "[DONE]" then None else decode(raw)
  }

  function DeltaOf(payload: Option<Payload>): Delta {
    if payload.None? then Delta("", "", None)
    else if payload.value.error.Some? then Delta("", "", payload.value.error)
    else Delta(payload.value.content, payload.value.reasoningContent.GetOr(payload.value.reasoning), None)
  }

  function FragmentsOf(payload: Option<Payload>): seq<Fragment> {
    if payload.None? || payload.value.error.Some? then [] else payload.value.toolCalls
  }

  /** A data line is decoded without its prefix and the white space around it, unless it is empty or says `[DONE]`. */
  lemma DataLinesAreDecoded(decode: string -> Option<Payload>, before: string, body: string, after: string)
    requires Blank(before) && Blank(after) && Trimmed(body)
    ensures StreamPayload(decode, Some("data:" + before + body + after)) ==
            if body == "" || body == "[DONE]" then None else decode(body)
    ensures StreamPayload(decode, None) == None
  {
    var line := "data:" + before + body + after;
    assert line[5..] == before + body + after;
    TrimDrops(before, body, after);
    hide Trim;
  }

  /** A failure silences the rest of its frame; otherwise the first reasoning field that is there is the thought. */
  lemma PayloadsMean(p: Payload)
    ensures DeltaOf(None) == Delta("", "", None) && FragmentsOf(None) == []
    ensures p.error.Some? ==> DeltaOf(Some(p)) == Delta("", "", p.error) && FragmentsOf(Some(p)) == []
    ensures p.error.None? ==>
              && DeltaOf(Some(p)).text == p.content && DeltaOf(Some(p)).failure == None
              && FragmentsOf(Some(p)) == p.toolCalls
    ensures p.error.None? && p.reasoningContent.Some? ==> DeltaOf(Some(p)).thought == p.reasoningContent.value
    ensures p.error.None? && p.reasoningContent.None? ==> DeltaOf(Some(p)).thought == p.reasoning
  {
  }

  // ---------------------------------------------------------------------------
  // Tool calls from fragments
  // ---------------------------------------------------------------------------

  function Extend(call: Call, f: Fragment): Call {
    Call(if f.id != "" then f.id else call.id, if f.name != "" then f.name else call.name, call.args + f.arguments)
  }

  /** The call kept at an index, and an empty one where there is none. */
  function At(calls: map<int, Call>, index: int): Call {
    if index in calls then calls[index] else Call("", "", "")
  }

  function Put(calls: map<int, Call>, f: Fragment): map<int, Call> {
    calls[f.index := Extend(At(calls, f.index), f)]
  }

  function Assemble(fragments: seq<Fragment>): map<int, Call> {
    if fragments == [] then map[]
    else Put(Assemble(fragments[..|fragments| - 1]), fragments[|fragments| - 1])
  }

  lemma AssembleNext(seen: seq<Fragment>, raw: seq<Fragment>, i: nat)
    requires i < |raw|
    ensures Assemble(seen + raw[..i + 1]) == Put(Assemble(seen + raw[..i]), raw[i])
  {
    assert (seen + raw[..i + 1])[..|seen| + i] == seen + raw[..i];
  }

  /** The fragments of one index, in arrival order. */
  function Of(fragments: seq<Fragment>, index: int): seq<Fragment> {
    if fragments == [] then []
    else
      var last := fragments[|fragments| - 1];
      Of(fragments[..|fragments| - 1], index) + if last.index == index then [last] else []
  }

  /** The last string that says something. */
  function LastSaid(said: seq<string>): string {
    if said == [] then ""
    else if said[|said| - 1] != "" then said[|said| - 1]
    else LastSaid(said[..|said| - 1])
  }

  function Joined(parts: seq<string>): string {
    if parts == [] then "" else Joined(parts[..|parts| - 1]) + parts[|parts| - 1]
  }

  function Ids(fragments: seq<Fragment>): seq<string> {
    seq(|fragments|, k requires 0 <= k < |fragments| => fragments[k].id)
  }

  function Names(fragments: seq<Fragment>): seq<string> {
    seq(|fragments|, k requires 0 <= k < |fragments| => fragments[k].name)
  }

  function Arguments(fragments: seq<Fragment>): seq<string> {
    seq(|fragments|, k requires 0 <= k < |fragments| => fragments[k].arguments)
  }

  /** A call made of its own fragments: the last id and name given, and all the arguments in order. */
  function CallFrom(own: seq<Fragment>): Call {
    Call(LastSaid(Ids(own)), LastSaid(Names(own)), Joined(Arguments(own)))
  }

  lemma CallGrows(own: seq<Fragment>, f: Fragment)
    ensures CallFrom(own + [f]) == Extend(CallFrom(own), f)
  {
    assert Ids(own + [f])[..|own|] == Ids(own);
    assert Names(own + [f])[..|own|] == Names(own);
    assert Arguments(own + [f])[..|own|] == Arguments(own);
  }

  /** Each assembled call is made of the fragments of its index alone. */
  lemma {:induction false} CallsByIndex(fragments: seq<Fragment>, index: int)
    ensures index in Assemble(fragments) <==> Of(fragments, index) != []
    ensures index in Assemble(fragments) ==> Assemble(fragments)[index] == CallFrom(Of(fragments, index))
  {
    hide CallFrom;
    if fragments != [] {
      var init, last := fragments[..|fragments| - 1], fragments[|fragments| - 1];
      CallsByIndex(init, index);
      if last.index == index {
        if Of(init, index) == [] {
          assert [] + [last] == [last];
          NoCallYet();
        }
        CallGrows(Of(init, index), last);
        assert Of(fragments, index) == Of(init, index) + [last];
      } else {
        assert Of(fragments, index) == Of(init, index);
      }
    }
  }

  lemma NoCallYet()
    ensures CallFrom([]) == Call("", "", "")
  {
  }

  /** Interleaving the fragments of different calls differently assembles the same calls. */
  lemma InterleavingIsInvisible(fragments: seq<Fragment>, others: seq<Fragment>)
    requires forall index :: Of(fragments, index) == Of(others, index)
    ensures Assemble(fragments) == Assemble(others)
  {
    forall index ensures index in Assemble(fragments) <==> index in Assemble(others) {
      CallsByIndex(fragments, index);
      CallsByIndex(others, index);
    }
    forall index | index in Assemble(fragments) ensures Assemble(fragments)[index] == Assemble(others)[index] {
      CallsByIndex(fragments, index);
      CallsByIndex(others, index);
    }
  }

  // ---------------------------------------------------------------------------
  // The calls handed back
  // ---------------------------------------------------------------------------

  predicate IsSmallest(k: int, keys: set<int>) {
    k in keys && forall j :: j in keys ==> k <= j
  }

  lemma {:induction false} SmallestExists(keys: set<int>)
    requires keys != {}
    ensures exists k :: IsSmallest(k, keys)
  {
    HasElement(keys);
    var k :| k in keys;
    if !IsSmallest(k, keys) {
      var below := set j | j in keys && j < k;
      assert k !in below;
      var lower :| lower in keys && lower < k;
      assert lower in below;
      SmallestExists(below);
      var least :| IsSmallest(least, below);
      forall j | j in keys ensures least <= j {
        assert j < k ==> j in below;
      }
      assert IsSmallest(least, keys);
    }
  }

  function Smallest(keys: set<int>): (k: int)
    requires keys != {}
    ensures IsSmallest(k, keys)
  {
    SmallestExists(keys);
    var k :| IsSmallest(k, keys);
    k
  }

  function Sorted(keys: set<int>): seq<int> {
    if keys == {} then [] else [Smallest(keys)] + Sorted(keys - {Smallest(keys)})
  }

  /** Every index once, in increasing order. */
  lemma {:induction false} SortedIsIncreasing(keys: set<int>)
    ensures forall k :: k in Sorted(keys) <==> k in keys
    ensures forall i, j :: 0 <= i < j < |Sorted(keys)| ==> Sorted(keys)[i] < Sorted(keys)[j]
  {
    if keys != {} {
      var k := Smallest(keys);
      SortedIsIncreasing(keys - {k});
      var rest := Sorted(keys - {k});
      assert Sorted(keys) == [k] + rest;
      forall j ensures j in Sorted(keys) <==> j in keys {
        assert j in rest <==> j in keys - {k};
      }
      forall i, j | 0 <= i < j < |Sorted(keys)| ensures Sorted(keys)[i] < Sorted(keys)[j] {
        assert rest[j - 1] in keys - {k};
      }
    }
  }

  /** A nameless call is dropped; a call without an id takes its name. */
  function HandedBack(call: Call): seq<ModelToolCall> {
    if call.name == "" then []
    else [ModelToolCall(if call.id != "" then call.id else call.name, call.name, call.args)]
  }

  function InOrder(calls: map<int, Call>, order: seq<int>): seq<ModelToolCall> {
    if order == [] then [] else HandedBack(At(calls, order[0])) + InOrder(calls, order[1..])
  }

  function Complete(calls: map<int, Call>): seq<ModelToolCall> {
    InOrder(calls, Sorted(calls.Keys))
  }

  // What is handed back, told by the fragments.

  /** The last of these strings that is not empty, or empty when all of them are. */
  ghost predicate IsLastGiven(given: seq<string>, v: string) {
    || (v == "" && forall k :: 0 <= k < |given| ==> given[k] == "")
    || (v != "" && exists k :: 0 <= k < |given| && given[k] == v && forall j :: k < j < |given| ==> given[j] == "")
  }

  lemma {:induction false} LastSaidIsLastGiven(given: seq<string>)
    ensures IsLastGiven(given, LastSaid(given))
  {
    if given != [] {
      var n := |given| - 1;
      LastSaidIsLastGiven(given[..n]);
      OneMoreGiven(given[..n], LastSaid(given[..n]), given[n]);
      SplitLast(given);
      hide IsLastGiven;
    }
  }

  lemma OneMoreGiven(given: seq<string>, v: string, next: string)
    requires IsLastGiven(given, v)
    ensures IsLastGiven(given + [next], if next != "" then next else v)
  {
    var all := given + [next];
    assert all[|given|] == next;
    if next == "" && v != "" {
      var k :| 0 <= k < |given| && given[k] == v && forall j :: k < j < |given| ==> given[j] == "";
      assert all[k] == v && forall j :: k < j < |all| ==> all[j] == "";
    }
  }

  /** A call as its fragments give it: their last name, their last id or else that name, and all their arguments. */
  ghost predicate IsGiven(own: seq<Fragment>, call: ModelToolCall) {
    && call.name != "" && IsLastGiven(Names(own), call.name)
    && (IsLastGiven(Ids(own), call.id) || (IsLastGiven(Ids(own), "") && call.id == call.name))
    && (IsLastGiven(Ids(own), "") ==> call.id == call.name)
    && call.arguments == Joined(Arguments(own))
  }

  /** Fragment by fragment these are the calls: one for each index that names a tool, by increasing index. */
  ghost predicate AreGiven(fragments: seq<Fragment>, calls: seq<ModelToolCall>, order: seq<int>) {
    && |calls| == |order|
    && (forall i, j :: 0 <= i < j < |order| ==> order[i] < order[j])
    && (forall index :: index in order <==> exists f :: f in fragments && f.index == index && f.name != "")
    && (forall n :: 0 <= n < |order| ==> IsGiven(Of(fragments, order[n]), calls[n]))
  }

  /** The indices whose call has a name. */
  function Named(calls: map<int, Call>, order: seq<int>): seq<int> {
    if order == [] then []
    else (if At(calls, order[0]).name != "" then [order[0]] else []) + Named(calls, order[1..])
  }

  lemma {:induction false} NamedAreThoseWithNames(calls: map<int, Call>, order: seq<int>)
    ensures forall index :: index in Named(calls, order) <==> index in order && At(calls, index).name != ""
  {
    if order != [] {
      NamedAreThoseWithNames(calls, order[1..]);
      SplitFirst(order);
      hide At;
    }
  }

  lemma NamedAreLater(calls: map<int, Call>, order: seq<int>, index: int)
    requires order != [] && (forall i, j :: 0 <= i < j < |order| ==> order[i] < order[j])
    requires index in Named(calls, order[1..])
    ensures order[0] < index
  {
    NamedAreThoseWithNames(calls, order[1..]);
    hide Named, At;
    var k :| 0 <= k < |order[1..]| && order[1..][k] == index;
    assert order[k + 1] == index;
  }

  lemma {:induction false} NamedAreIncreasing(calls: map<int, Call>, order: seq<int>) returns (named: seq<int>)
    requires forall i, j :: 0 <= i < j < |order| ==> order[i] < order[j]
    ensures named == Named(calls, order) && forall i, j :: 0 <= i < j < |named| ==> named[i] < named[j]
  {
    named := [];
    if order != [] {
      named := NamedAreIncreasing(calls, order[1..]);
      var first := if At(calls, order[0]).name != "" then [order[0]] else [];
      assert Named(calls, order) == first + named;
      forall i | 0 <= i < |named| ensures order[0] < named[i] {
        NamedAreLater(calls, order, named[i]);
      }
      hide Named, At;
      FirstIsLeast(order[0], named);
      assert [] + named == named;
      named := first + named;
    }
  }

  lemma FirstIsLeast(first: int, rest: seq<int>)
    requires forall i, j :: 0 <= i < j < |rest| ==> rest[i] < rest[j]
    requires forall i :: 0 <= i < |rest| ==> first < rest[i]
    ensures var all := [first] + rest; forall i, j :: 0 <= i < j < |all| ==> all[i] < all[j]
  {
  }

  lemma {:induction false} NamedAreHandedBack(calls: map<int, Call>, order: seq<int>)
    ensures var named, back := Named(calls, order), InOrder(calls, order);
            && |back| == |named|
            && (forall n :: 0 <= n < |named| ==> [back[n]] == HandedBack(At(calls, named[n])))
  {
    if order != [] {
      NamedAreHandedBack(calls, order[1..]);
      hide At;
      var first := HandedBack(At(calls, order[0]));
      if first != [] {
        assert [first[0]] == first;
      }
    }
  }

  lemma {:induction false} OwnFragments(fragments: seq<Fragment>, index: int)
    ensures forall f :: f in Of(fragments, index) <==> f in fragments && f.index == index
  {
    if fragments != [] {
      OwnFragments(fragments[..|fragments| - 1], index);
      SplitLast(fragments);
    }
  }

  /** An index is named exactly when one of its fragments is. */
  lemma NamesAreGiven(fragments: seq<Fragment>, index: int)
    ensures At(Assemble(fragments), index).name != ""
       <==> exists f :: f in fragments && f.index == index && f.name != ""
  {
    var own := Of(fragments, index);
    CallsByIndex(fragments, index);
    OwnFragments(fragments, index);
    hide Assemble, Of;
    LastSaidIsLastGiven(Names(own));
    if f :| f in fragments && f.index == index && f.name != "" {
      var k :| 0 <= k < |own| && own[k] == f;
      assert Names(own)[k] != "";
    }
    if LastSaid(Names(own)) != "" && own != [] {
      var k :| 0 <= k < |Names(own)| && Names(own)[k] == LastSaid(Names(own));
      assert own[k] in own;
    }
  }

  lemma HandedBackIsGiven(fragments: seq<Fragment>, index: int, call: ModelToolCall)
    requires [call] == HandedBack(At(Assemble(fragments), index))
    ensures IsGiven(Of(fragments, index), call)
  {
    var own := Of(fragments, index);
    CallsByIndex(fragments, index);
    hide Assemble, Of;
    LastSaidIsLastGiven(Names(own));
    LastSaidIsLastGiven(Ids(own));
    if IsLastGiven(Ids(own), "") {
      OnlyOneIsLast(Ids(own), LastSaid(Ids(own)), "");
    }
    assert [call][0] == call;
  }

  lemma OnlyOneIsLast(given: seq<string>, v: string, w: string)
    requires IsLastGiven(given, v) && IsLastGiven(given, w)
    ensures v == w
  {
  }

  lemma NamedIndices(fragments: seq<Fragment>, index: int)
    ensures var calls := Assemble(fragments);
            index in Named(calls, Sorted(calls.Keys))
            <==> exists f :: f in fragments && f.index == index && f.name != ""
  {
    var calls := Assemble(fragments);
    SortedIsIncreasing(calls.Keys);
    NamedAreThoseWithNames(calls, Sorted(calls.Keys));
    NamesAreGiven(fragments, index);
    hide Assemble, Sorted, Named;
  }

  /** The calls handed back are those the fragments give. */
  lemma CompleteIsGiven(fragments: seq<Fragment>) returns (order: seq<int>)
    ensures AreGiven(fragments, Complete(Assemble(fragments)), order)
  {
    var calls := Assemble(fragments);
    var all := Sorted(calls.Keys);
    SortedIsIncreasing(calls.Keys);
    hide Assemble, Sorted, InOrder, Named, HandedBack, IsGiven, At, Of;
    order := NamedAreIncreasing(calls, all);
    NamedAreHandedBack(calls, all);
    forall index ensures index in order <==> exists f :: f in fragments && f.index == index && f.name != "" {
      NamedIndices(fragments, index);
    }
    forall n | 0 <= n < |order| ensures IsGiven(Of(fragments, order[n]), Complete(calls)[n]) {
      HandedBackIsGiven(fragments, order[n], Complete(calls)[n]);
    }
  }

  /** Nothing is handed back exactly when no fragment names a tool. */
  lemma NothingIsHandedBackExactly(fragments: seq<Fragment>)
    ensures Complete(Assemble(fragments)) == [] <==> forall f :: f in fragments ==> f.name == ""
  {
    hide Assemble, Complete;
    var order := CompleteIsGiven(fragments);
    if f :| f in fragments && f.name != "" {
      assert f.index in order;
    }
    if order != [] {
      assert order[0] in order;
    }
  }

  lemma OnlySmallest(k: int, keys: set<int>)
    requires IsSmallest(k, keys)
    ensures keys != {} && Smallest(keys) == k
  {
  }

  lemma NoneLeft(calls: map<int, Call>)
    ensures InOrder(calls, Sorted({})) == []
  {
  }

  lemma NextInOrder(calls: map<int, Call>, keys: set<int>)
    requires keys != {}
    ensures InOrder(calls, Sorted(keys)) ==
            HandedBack(At(calls, Smallest(keys))) + InOrder(calls, Sorted(keys - {Smallest(keys)}))
  {
    hide HandedBack, At;
    var order := Sorted(keys);
    assert order[0] == Smallest(keys) && order[1..] == Sorted(keys - {Smallest(keys)});
  }

  /** The stream's parser: the calls seen so far, by index. */
  class StreamParser {
    var calls: map<int, Call>

    constructor ()
      ensures calls == Assemble([])
    {
      calls := map[];
    }

    method Push(payload: Option<Payload>, ghost seen: seq<Fragment>) returns (delta: Delta)
      requires calls == Assemble(seen)
      modifies this
      ensures calls == Assemble(seen + FragmentsOf(payload))
      ensures delta == DeltaOf(payload)
    {
      if payload.None? {
        assert seen + [] == seen;
        return Delta("", "", None);
      }
      if payload.value.error.Some? {
        assert seen + [] == seen;
        return Delta("", "", payload.value.error);
      }
      hide Assemble;
      var raw := payload.value.toolCalls;
      assert seen + raw[..0] == seen;
      for i := 0 to |raw|
        invariant calls == Assemble(seen + raw[..i])
      {
        AssembleNext(seen, raw, i);
        var current := At(calls, raw[i].index);
        if raw[i].id != "" {
          current := current.(id := raw[i].id);
        }
        if raw[i].name != "" {
          current := current.(name := raw[i].name);
        }
        current := current.(args := current.args + raw[i].arguments);
        calls := calls[raw[i].index := current];
      }
      assert seen + raw[..|raw|] == seen + raw;
      delta := Delta(payload.value.content, payload.value.reasoningContent.GetOr(payload.value.reasoning), None);
    }

    /** The tool calls assembled so far, by increasing index. */
    method ToolCalls() returns (complete: seq<ModelToolCall>)
      ensures complete == Complete(calls)
    {
      hide Sorted, InOrder, HandedBack, At;
      complete := [];
      var rest := calls.Keys;
      while rest != {}
        invariant complete + InOrder(calls, Sorted(rest)) == Complete(calls)
        decreases |rest|
      {
        var next := Least(rest);
        OnlySmallest(next, rest);
        NextInOrder(calls, rest);
        Associative(complete, HandedBack(At(calls, next)), InOrder(calls, Sorted(rest - {next})));
        complete := complete + HandedBack(At(calls, next));
        rest := rest - {next};
      }
      NoneLeft(calls);
      AppendNothing(complete);
    }
  }

  method Least(keys: set<int>) returns (k: int)
    requires keys != {}
    ensures IsSmallest(k, keys)
  {
    HasElement(keys);
    k :| k in keys;
    var rest := keys - {k};
    while rest != {}
      invariant rest <= keys && k in keys
      invariant forall j :: j in keys && j !in rest ==> k <= j
      decreases |rest|
    {
      HasElement(rest);
      var j :| j in rest;
      if j < k {
        k := j;
      }
      rest := rest - {j};
    }
  }
}
