/**
 One line of MEMORY.md (apps/api/src/memory/bullet.ts): printing a note as a bullet and
 reading it back, with the choices the regular expression makes written out.
 */
module Bullet {
  import opened Wrappers
  import opened Text

  datatype MemoryKind = Preference | Fact | Decision

  datatype MemoryBullet = MemoryBullet(kind: MemoryKind, body: string, noteDate: Option<string>)

  function KindName(kind: MemoryKind): string {
    match kind
    case Preference => "preference"
    case Fact => "fact"
    case Decision => "decision"
  }

  function FormatMemoryBullet(kind: MemoryKind, body: string, noteDate: string): string {
    "- [" + KindName(kind) + "] " + body + " (" + noteDate + ")"
  }

  predicate IsDigit(c: char) {
    '0' <= c <= '9'
  }

  /** Four digits, two digits, two digits. */
  predicate IsDate(s: string) {
    && |s| == 10 && s[4] == '-' && s[7] == '-'
    && IsDigit(s[0]) && IsDigit(s[1]) && IsDigit(s[2]) && IsDigit(s[3])
    && IsDigit(s[5]) && IsDigit(s[6]) && IsDigit(s[8]) && IsDigit(s[9])
  }

  /** What `.` does not match. */
  predicate IsLineEnd(c: char) {
    c == '\n' || c == '\r' || c == '\U{2028}' || c == '\U{2029}'
  }

  predicate SingleLine(s: string) {
    forall i :: 0 <= i < |s| ==> !IsLineEnd(s[i])
  }

  /** White space and a parenthesised date, then nothing but white space. */
  function DateTail(s: string): Option<string> {
    var u := TrimStart(s);
    if |u| < |s| && |u| >= 12 && u[0] == '(' && IsDate(u[1..11]) && u[11] == ')' && Blank(u[12..]) then
      Some(u[1..11])
    else None
  }

  /** The shortest body of at least `n` characters after which only a date or white space is left. */
  function LazyBody(s: string, n: nat): Option<(string, Option<string>)>
    requires n >= 1
    decreases |s| - n
  {
    if n > |s| || !SingleLine(s[..n]) then None
    else if DateTail(s[n..]).Some? then Some((s[..n], DateTail(s[n..])))
    else if Blank(s[n..]) then Some((s[..n], None))
    else LazyBody(s, n + 1)
  }

  /** As much leading white space as leaves a match, and at least one character of it. */
  function AfterSpace(s: string, w: nat): Option<(string, Option<string>)>
    requires w <= |s|
  {
    if w == 0 then None
    else if Blank(s[..w]) && LazyBody(s[w..], 1).Some? then LazyBody(s[w..], 1)
    else AfterSpace(s, w - 1)
  }

  function ParseAs(kind: MemoryKind, line: string): Option<MemoryBullet> {
    var prefix := "- [" + KindName(kind) + "]";
    if !(prefix <= line) then None
    else
      var rest := line[|prefix|..];
      match AfterSpace(rest, |rest|)
      case None => None
      case Some(found) => Some(MemoryBullet(kind, Trim(found.0), found.1))
  }

  /** One line of MEMORY.md, or nothing when it is not a memory bullet. */
  function ParseMemoryBullet(line: string): Option<MemoryBullet> {
    if ParseAs(Preference, line).Some? then ParseAs(Preference, line)
    else if ParseAs(Fact, line).Some? then ParseAs(Fact, line)
    else ParseAs(Decision, line)
  }

  // ---------------------------------------------------------------------------
  // Reading back what was printed
  // ---------------------------------------------------------------------------

  /** What follows the body of a printed bullet. */
  function DateText(noteDate: string): string {
    " (" + noteDate + ")"
  }

  lemma DateTailFound(noteDate: string)
    requires IsDate(noteDate)
    ensures DateTail(DateText(noteDate)) == Some(noteDate)
  {
    var s := DateText(noteDate);
    var u := "(" + noteDate + ")";
    assert s == " " + u;
    TrimStartDrops(" ", u);
    assert u[1..11] == noteDate && u[12..] == "";
  }

  /** While some of the body is left, nothing looks like the end: not even a date the body ends with. */
  lemma NotTheEndYet(x: string, noteDate: string)
    requires x != "" && !IsSpace(x[|x| - 1]) && |noteDate| == 10
    ensures DateTail(x + DateText(noteDate)).None? && !Blank(x + DateText(noteDate))
  {
    hide IsDate, TrimStart;
    var after := DateText(noteDate);
    TrimStartKeepsEnd(x);
    TrimStartKeeps(x, after);
    EndsInBracket(x, noteDate, 0);
    EndsInBracket(TrimStart(x), noteDate, 12);
  }

  lemma EndsInBracket(x: string, noteDate: string, k: nat)
    requires |noteDate| == 10 && k < |x| + 13
    ensures !Blank((x + DateText(noteDate))[k..])
  {
    var s := x + DateText(noteDate);
    assert s[|s| - 1] == ')' && s[k..][|s| - 1 - k] == s[|s| - 1];
  }

  lemma {:induction false} LazyBodyFinds(body: string, noteDate: string, n: nat)
    requires 1 <= n <= |body| && Trimmed(body) && SingleLine(body) && IsDate(noteDate)
    ensures LazyBody(body + DateText(noteDate), n) == Some((body, Some(noteDate)))
    decreases |body| - n
  {
    hide DateTail, Blank;
    var s := body + DateText(noteDate);
    assert s[..n] == body[..n];
    assert s[n..] == body[n..] + DateText(noteDate);
    if n == |body| {
      assert s[n..] == DateText(noteDate) && s[..n] == body;
      DateTailFound(noteDate);
    } else {
      NotTheEndYet(body[n..], noteDate);
      LazyBodyFinds(body, noteDate, n + 1);
    }
  }

  lemma {:induction false} OneSpaceBefore(s: string, w: nat)
    requires |s| >= 2 && IsSpace(s[0]) && !IsSpace(s[1]) && 1 <= w <= |s|
    ensures AfterSpace(s, w) == LazyBody(s[1..], 1)
  {
    hide LazyBody;
    if w == 1 {
      assert Blank(s[..1]);
    } else {
      assert s[..w][1] == s[1];
      OneSpaceBefore(s, w - 1);
    }
  }

  /** A line that begins with one kind's tag begins with no other's. */
  lemma TagsDiffer(kind: MemoryKind, other: MemoryKind, rest: string)
    requires kind != other
    ensures ParseAs(other, "- [" + KindName(kind) + "]" + rest).None?
  {
    var line := "- [" + KindName(kind) + "]" + rest;
    assert line[3] == KindName(kind)[0];
    assert ("- [" + KindName(other) + "]")[3] == KindName(other)[0];
  }

  lemma ParseTagged(kind: MemoryKind, rest: string)
    ensures ParseMemoryBullet("- [" + KindName(kind) + "]" + rest) ==
      match AfterSpace(rest, |rest|)
      {
        case None => None
        case Some(found) => Some(MemoryBullet(kind, Trim(found.0), found.1))
      }
  {
    hide AfterSpace;
    var line := "- [" + KindName(kind) + "]" + rest;
    assert line[|KindName(kind)| + 4..] == rest;
    forall other | other != kind ensures ParseAs(other, line).None? {
      TagsDiffer(kind, other, rest);
    }
  }

  lemma FormatIsTagged(kind: MemoryKind, body: string, noteDate: string)
    ensures FormatMemoryBullet(kind, body, noteDate) == "- [" + KindName(kind) + "]" + (" " + body + DateText(noteDate))
  {
  }

  lemma RoundTrip(kind: MemoryKind, body: string, noteDate: string)
    requires body != "" && Trimmed(body) && SingleLine(body) && IsDate(noteDate)
    ensures ParseMemoryBullet(FormatMemoryBullet(kind, body, noteDate))
            == Some(MemoryBullet(kind, body, Some(noteDate)))
  {
    hide ParseMemoryBullet, AfterSpace, LazyBody;
    var rest := " " + body + DateText(noteDate);
    FormatIsTagged(kind, body, noteDate);
    ParseTagged(kind, rest);
    assert rest[1] == body[0] && rest[1..] == body + DateText(noteDate);
    OneSpaceBefore(rest, |rest|);
    LazyBodyFinds(body, noteDate, 1);
    TrimOfTrimmed(body);
  }

  // ---------------------------------------------------------------------------
  // What a parse can give
  // ---------------------------------------------------------------------------

  lemma {:induction false} LazyBodyGives(s: string, n: nat)
    requires n >= 1
    ensures LazyBody(s, n).Some? ==>
      var found := LazyBody(s, n).value;
      && n <= |found.0| && found.0 <= s && SingleLine(found.0)
      && (found.1.Some? ==> IsDate(found.1.value))
    decreases |s| - n
  {
    hide Blank;
    if n <= |s| && SingleLine(s[..n]) && DateTail(s[n..]).None? && !Blank(s[n..]) {
      LazyBodyGives(s, n + 1);
    }
  }

  lemma {:induction false} LazyBodyExists(s: string, n: nat)
    requires 1 <= n <= |s| && SingleLine(s)
    ensures LazyBody(s, n).Some?
    decreases |s| - n
  {
    hide DateTail;
    if n == |s| {
      assert Blank(s[n..]);
    } else {
      LazyBodyExists(s, n + 1);
    }
  }

  lemma {:induction false} AfterSpaceGives(s: string, w: nat)
    requires w <= |s|
    ensures AfterSpace(s, w).Some? ==>
      var found := AfterSpace(s, w).value;
      SingleLine(found.0) && (found.1.Some? ==> IsDate(found.1.value))
  {
    hide LazyBody;
    if w > 0 {
      LazyBodyGives(s[w..], 1);
      AfterSpaceGives(s, w - 1);
    }
  }

  lemma TrimKeepsSingleLine(s: string)
    requires SingleLine(s)
    ensures SingleLine(Trim(s)) && Trimmed(Trim(s))
  {
    TrimStartSplits(s);
    TrimEndSplits(TrimStart(s));
    TrimmedTrim(s);
  }

  /** A parsed body is trimmed and on one line, and a parsed date is one. */
  lemma ParsedIsClean(line: string)
    ensures ParseMemoryBullet(line).Some? ==>
      var b := ParseMemoryBullet(line).value;
      Trimmed(b.body) && SingleLine(b.body) && (b.noteDate.Some? ==> IsDate(b.noteDate.value))
  {
    hide AfterSpace, Trim, Trimmed;
    forall kind: MemoryKind
      ensures ParseAs(kind, line).Some? ==>
        var b := ParseAs(kind, line).value;
        Trimmed(b.body) && SingleLine(b.body) && (b.noteDate.Some? ==> IsDate(b.noteDate.value))
    {
      var n := |KindName(kind)| + 4;
      if "- [" + KindName(kind) + "]" <= line {
        AfterSpaceGives(line[n..], |line[n..]|);
        if AfterSpace(line[n..], |line[n..]|).Some? {
          TrimKeepsSingleLine(AfterSpace(line[n..], |line[n..]|).value.0);
        }
      }
    }
  }

  /** An empty body is not read back: the parenthesised date becomes the body. */
  lemma EmptyBodyIsNotReadBack(kind: MemoryKind, noteDate: string)
    requires IsDate(noteDate)
    ensures ParseMemoryBullet(FormatMemoryBullet(kind, "", noteDate)) != Some(MemoryBullet(kind, "", Some(noteDate)))
  {
    hide ParseMemoryBullet, LazyBody, Trim;
    var u := "(" + noteDate + ")";
    var rest := "  " + u;
    FormatIsTagged(kind, "", noteDate);
    assert " " + "" + DateText(noteDate) == rest;
    ParseTagged(kind, rest);
    assert rest[2..] == u;
    BodyInParentheses(noteDate);
    SpacesBefore(rest, |rest|);
  }

  lemma BodyInParentheses(noteDate: string)
    requires IsDate(noteDate)
    ensures LazyBody("(" + noteDate + ")", 1).Some? && Trim(LazyBody("(" + noteDate + ")", 1).value.0) != ""
  {
    hide LazyBody;
    var u := "(" + noteDate + ")";
    LazyBodyExists(u, 1);
    LazyBodyGives(u, 1);
    var body := LazyBody(u, 1).value.0;
    assert body[0] == '(' && !IsSpace(body[0]);
    TrimEndSplits(body);
    assert TrimStart(body) == body;
    var r := TrimEnd(body);
    assert body == r + body[|r|..];
    BlankJoin(r, body[|r|..]);
  }

  lemma {:induction false} SpacesBefore(s: string, w: nat)
    requires |s| >= 3 && IsSpace(s[0]) && IsSpace(s[1]) && !IsSpace(s[2]) && 2 <= w <= |s| && LazyBody(s[2..], 1).Some?
    ensures AfterSpace(s, w) == LazyBody(s[2..], 1)
  {
    hide LazyBody;
    if w == 2 {
      assert Blank(s[..2]);
    } else {
      assert s[..w][2] == s[2];
      SpacesBefore(s, w - 1);
    }
  }

  /**
   A printed bullet reads back as itself exactly when the body is one non-empty trimmed line and
   the date is a date.
   */
  lemma RoundTripsExactly(kind: MemoryKind, body: string, noteDate: string)
    ensures ParseMemoryBullet(FormatMemoryBullet(kind, body, noteDate))
            == Some(MemoryBullet(kind, body, Some(noteDate)))
       <==> body != "" && Trimmed(body) && SingleLine(body) && IsDate(noteDate)
  {
    hide ParseMemoryBullet, FormatMemoryBullet;
    ParsedIsClean(FormatMemoryBullet(kind, body, noteDate));
    if IsDate(noteDate) {
      EmptyBodyIsNotReadBack(kind, noteDate);
    }
    if body != "" && Trimmed(body) && SingleLine(body) && IsDate(noteDate) {
      RoundTrip(kind, body, noteDate);
    }
  }

  // ---------------------------------------------------------------------------
  // The regular expression, told by the ways to cut a line
  // ---------------------------------------------------------------------------

  /** Four digits, two and two, joined by hyphens. */
  ghost predicate ReadsAsDate(s: string) {
    |s| == 10 && forall i :: 0 <= i < 10 ==> if i in {4, 7} then s[i] == '-' else s[i] in "0123456789"
  }

  lemma DigitsExactly(c: char)
    ensures IsDigit(c) <==> c in "0123456789"
  {
    if IsDigit(c) {
      assert "0123456789"[c as int - '0' as int] == c;
    }
  }

  lemma DateByPlace(s: string)
    requires |s| == 10
    ensures IsDate(s) <==> s[4] == '-' && s[7] == '-' && forall i :: 0 <= i < 10 && i !in {4, 7} ==> IsDigit(s[i])
  {
    hide IsDigit;
  }

  lemma DatesExactly(s: string)
    ensures IsDate(s) <==> ReadsAsDate(s)
  {
    if |s| == 10 {
      DateByPlace(s);
      hide IsDate, IsDigit;
      forall i | 0 <= i < 10 ensures IsDigit(s[i]) <==> s[i] in "0123456789" {
        DigitsExactly(s[i]);
      }
    }
  }

  /** What may follow a body: white space and a date in parentheses, or neither, and white space. */
  ghost predicate IsEnd(end: string, noteDate: Option<string>) {
    match noteDate
    case None => Blank(end)
    case Some(date) => ReadsAsDate(date) && exists before, after ::
      Blank(before) && before != "" && Blank(after) && end == before + ("(" + date + ")") + after
  }

  lemma TailIsEnd(s: string)
    requires DateTail(s).Some?
    ensures IsEnd(s, DateTail(s))
  {
    var u := TrimStart(s);
    var date := u[1..11];
    var before, after := s[..|s| - |u|], u[12..];
    TrimStartSplits(s);
    DatesExactly(date);
    hide IsDate, IsSpace, ReadsAsDate, Blank, TrimStart;
    assert u == "(" + date + ")" + after;
    assert s == before + ("(" + date + ")") + after;
  }

  lemma EndIsTail(before: string, date: string, after: string)
    requires Blank(before) && before != "" && Blank(after) && ReadsAsDate(date)
    ensures DateTail(before + ("(" + date + ")") + after) == Some(date)
  {
    var u := "(" + date + ")" + after;
    var s := before + ("(" + date + ")") + after;
    DatesExactly(date);
    assert u[0] == '(' && !IsSpace(u[0]);
    TrimStartDrops(before, u);
    hide IsDate, IsSpace, ReadsAsDate, Blank, TrimStart;
    assert s == before + u;
    assert u[1..11] == date && u[11] == ')' && u[12..] == after;
  }

  lemma DatedEnds(s: string, date: string)
    ensures DateTail(s) == Some(date) <==> IsEnd(s, Some(date))
  {
    if DateTail(s).Some? {
      TailIsEnd(s);
    }
    hide DateTail, Blank, ReadsAsDate;
    if ReadsAsDate(date) {
      if before, after :|
        Blank(before) && before != "" && Blank(after) && s == before + ("(" + date + ")") + after {
        EndIsTail(before, date, after);
      }
    }
  }

  /** A way to read a text as white space, a body on one line, and an end. */
  ghost predicate IsCut(s: string, space: int, body: int, noteDate: Option<string>) {
    && 1 <= space && 1 <= body && space + body <= |s| && Blank(s[..space])
    && (forall i :: space <= i < space + body ==> s[i] !in {'\n', '\r', '\U{2028}', '\U{2029}'})
    && IsEnd(s[space + body..], noteDate)
  }

  lemma {:induction false} LazyBodyIsShortest(s: string, n: nat)
    requires n >= 1
    ensures LazyBody(s, n).None? ==>
              forall m, date :: n <= m <= |s| && SingleLine(s[..m]) ==> !IsEnd(s[m..], date)
    ensures LazyBody(s, n).Some? ==>
              var (body, noteDate) := LazyBody(s, n).value;
              && n <= |body| <= |s| && body == s[..|body|] && SingleLine(body) && IsEnd(s[|body|..], noteDate)
              && (forall m, date :: n <= m < |body| ==> !IsEnd(s[m..], date))
              && (noteDate.None? ==> forall date :: !IsEnd(s[|body|..], Some(date)))
    decreases |s| - n
  {
    hide DateTail, Blank, ReadsAsDate;
    if n > |s| {
    } else if !SingleLine(s[..n]) {
      forall m | n <= m <= |s| ensures !SingleLine(s[..m]) {
        var i :| 0 <= i < n && IsLineEnd(s[..n][i]);
        assert s[..m][i] == s[..n][i];
      }
    } else {
      forall date ensures DateTail(s[n..]) == Some(date) <==> IsEnd(s[n..], Some(date)) {
        DatedEnds(s[n..], date);
      }
      if DateTail(s[n..]).None? && !Blank(s[n..]) {
        forall date ensures !IsEnd(s[n..], date) {
          if date.Some? {
            assert DateTail(s[n..]) != Some(date.value);
          }
        }
        LazyBodyIsShortest(s, n + 1);
      }
    }
  }

  lemma {:induction false} AfterSpaceIsLongest(s: string, w: nat)
    requires w <= |s|
    ensures AfterSpace(s, w).None? ==> forall x :: 1 <= x <= w && Blank(s[..x]) ==> LazyBody(s[x..], 1).None?
    ensures AfterSpace(s, w).Some? ==>
              exists v :: && 1 <= v <= w && Blank(s[..v]) && LazyBody(s[v..], 1) == AfterSpace(s, w)
                          && forall x :: v < x <= w && Blank(s[..x]) ==> LazyBody(s[x..], 1).None?
  {
    hide LazyBody, Blank;
    if w > 0 {
      AfterSpaceIsLongest(s, w - 1);
    }
  }

  lemma OneLineOf(s: string, space: nat, body: nat)
    requires space + body <= |s|
    ensures SingleLine(s[space..][..body]) <==>
              forall i :: space <= i < space + body ==> s[i] !in {'\n', '\r', '\U{2028}', '\U{2029}'}
  {
    var t := s[space..][..body];
    assert forall i :: 0 <= i < body ==> t[i] == s[space + i];
    if SingleLine(t) {
      forall i | space <= i < space + body ensures s[i] !in {'\n', '\r', '\U{2028}', '\U{2029}'} {
        assert !IsLineEnd(t[i - space]);
      }
    }
  }

  /** A cut, told by what is left after the white space. */
  lemma CutIs(s: string, space: int, body: int, noteDate: Option<string>)
    requires 1 <= space <= |s| && Blank(s[..space])
    ensures IsCut(s, space, body, noteDate) <==>
            1 <= body <= |s| - space && SingleLine(s[space..][..body]) && IsEnd(s[space..][body..], noteDate)
  {
    if 1 <= body <= |s| - space {
      OneLineOf(s, space, body);
      assert s[space..][body..] == s[space + body..];
    }
    hide Blank, IsEnd, SingleLine;
  }

  /** With this much white space, the lazy body says whether there is a cut, and which comes first. */
  lemma NoCutAfter(s: string, space: int)
    requires 1 <= space <= |s| && Blank(s[..space]) && LazyBody(s[space..], 1).None?
    ensures forall body, date :: !IsCut(s, space, body, date)
  {
    LazyBodyIsShortest(s[space..], 1);
    hide LazyBody, Blank, IsEnd, IsCut, SingleLine;
    forall body, date ensures !IsCut(s, space, body, date) {
      CutIs(s, space, body, date);
    }
  }

  lemma FirstCutAfter(s: string, space: int, text: string, noteDate: Option<string>)
    requires 1 <= space <= |s| && Blank(s[..space]) && LazyBody(s[space..], 1) == Some((text, noteDate))
    ensures |text| <= |s| - space && IsCut(s, space, |text|, noteDate) && text == s[space..space + |text|]
    ensures forall body, date :: IsCut(s, space, body, date) ==>
              |text| <= body && (body == |text| && noteDate == None ==> date == None)
  {
    var t := s[space..];
    LazyBodyIsShortest(t, 1);
    CutIs(s, space, |text|, noteDate);
    hide LazyBody, Blank, IsEnd, IsCut, SingleLine;
    assert t[..|text|] == s[space..space + |text|];
    forall body, date | IsCut(s, space, body, date)
      ensures |text| <= body && (body == |text| && noteDate == None ==> date == None)
    {
      CutIs(s, space, body, date);
      assert !(1 <= body < |text|);
    }
  }

  /** The cut the expression takes: the most white space, then the shortest body, then a date if there can be one. */
  ghost predicate IsTaken(s: string, space: int, body: int, noteDate: Option<string>) {
    && IsCut(s, space, body, noteDate)
    && forall x, b, date :: IsCut(s, x, b, date) ==>
         x <= space && (x == space ==> body <= b && (b == body && noteDate == None ==> date == None))
  }

  lemma CutsStartBlank(s: string, space: int, body: int, noteDate: Option<string>)
    requires IsCut(s, space, body, noteDate)
    ensures 1 <= space <= |s| && Blank(s[..space])
  {
  }

  lemma NoCut(s: string)
    requires AfterSpace(s, |s|).None?
    ensures forall space, body, date :: !IsCut(s, space, body, date)
  {
    AfterSpaceIsLongest(s, |s|);
    hide AfterSpace, LazyBody, Blank, IsCut;
    forall space, body, date ensures !IsCut(s, space, body, date) {
      if IsCut(s, space, body, date) {
        CutsStartBlank(s, space, body, date);
        NoCutAfter(s, space);
      }
    }
  }

  lemma TakenCut(s: string) returns (space: int, body: int)
    requires AfterSpace(s, |s|).Some?
    ensures var (text, noteDate) := AfterSpace(s, |s|).value;
            IsTaken(s, space, body, noteDate) && text == s[space..space + body]
  {
    AfterSpaceIsLongest(s, |s|);
    var (text, noteDate) := AfterSpace(s, |s|).value;
    hide AfterSpace, LazyBody, Blank, IsCut;
    space :| && 1 <= space <= |s| && Blank(s[..space]) && LazyBody(s[space..], 1) == Some((text, noteDate))
             && forall x :: space < x <= |s| && Blank(s[..x]) ==> LazyBody(s[x..], 1).None?;
    body := |text|;
    FirstCutAfter(s, space, text, noteDate);
    forall x, b, date | IsCut(s, x, b, date) ensures x <= space {
      NoLongerCut(s, space, x, b, date);
    }
    hide SingleLine;
  }

  lemma NoLongerCut(s: string, space: int, x: int, body: int, date: Option<string>)
    requires forall y :: space < y <= |s| && 1 <= y && Blank(s[..y]) ==> LazyBody(s[y..], 1).None?
    requires IsCut(s, x, body, date)
    ensures x <= space
  {
    CutsStartBlank(s, x, body, date);
    hide LazyBody, Blank, IsCut;
    if x > space {
      NoCutAfter(s, x);
    }
  }

  lemma OneCutIsTaken(s: string, space: int, body: int, noteDate: Option<string>, x: int, b: int, date: Option<string>)
    requires IsTaken(s, space, body, noteDate) && IsTaken(s, x, b, date)
    ensures space == x && body == b && noteDate == date
  {
    hide Blank, ReadsAsDate, IsEnd;
    if noteDate.Some? && date.Some? {
      DatedEnds(s[space + body..], noteDate.value);
      DatedEnds(s[space + body..], date.value);
    }
  }

  /** A tagged line is read as the one cut the expression takes says, and is no bullet when there is none. */
  lemma ParsedExactly(kind: MemoryKind, rest: string, b: MemoryBullet)
    ensures var tag := match kind
              case Preference => "- [preference]"
              case Fact => "- [fact]"
              case Decision => "- [decision]";
            ParseMemoryBullet(tag + rest) == Some(b) <==>
            && b.kind == kind
            && exists space, body ::
                 IsTaken(rest, space, body, b.noteDate) && b.body == Trim(rest[space..space + body])
  {
    ParseTagged(kind, rest);
    TagIs(kind);
    hide ParseMemoryBullet, AfterSpace, IsTaken, Trim, KindName;
    if AfterSpace(rest, |rest|).None? {
      NoCut(rest);
      NothingTaken(rest);
    } else {
      var space, body := TakenCut(rest);
      var noteDate := AfterSpace(rest, |rest|).value.1;
      forall x, y | IsTaken(rest, x, y, b.noteDate) ensures x == space && y == body && b.noteDate == noteDate {
        OneCutIsTaken(rest, space, body, noteDate, x, y, b.noteDate);
      }
    }
  }

  lemma NothingTaken(s: string)
    requires forall space, body, date :: !IsCut(s, space, body, date)
    ensures forall space, body, date :: !IsTaken(s, space, body, date)
  {
  }

  lemma TagIs(kind: MemoryKind)
    ensures "- [" + KindName(kind) + "]" == match kind
      case Preference => "- [preference]"
      case Fact => "- [fact]"
      case Decision => "- [decision]"
  {
  }

  /** Every bullet begins with one of the three tags. */
  lemma BulletsAreTagged(line: string)
    requires ParseMemoryBullet(line).Some?
    ensures "- [preference]" <= line || "- [fact]" <= line || "- [decision]" <= line
  {
    TagIs(Preference);
    TagIs(Fact);
    TagIs(Decision);
    hide KindName, AfterSpace;
  }

  /** How a bullet is printed. */
  lemma PrintedExactly(kind: MemoryKind, body: string, noteDate: string)
    ensures FormatMemoryBullet(kind, body, noteDate) == (match kind
              case Preference => "- [preference]"
              case Fact => "- [fact]"
              case Decision => "- [decision]") + (" " + body + (" (" + noteDate + ")"))
  {
    TagIs(kind);
    FormatIsTagged(kind, body, noteDate);
    hide KindName, FormatMemoryBullet;
  }
}
