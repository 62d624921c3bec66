/**
 Strings as the source sees them: sequences of characters, JavaScript's white space,
 `trim`, and a bounded tail.
 */
module Text {
  import opened Sequences

  /** ECMAScript white space and line terminators: the class `\s` and what `trim` removes. */
  predicate IsSpace(c: char) {
    || '\t' <= c <= '\r' || c == ' ' || c == '\U{00A0}' || c == '\U{1680}'
    || '\U{2000}' <= c <= '\U{200A}' || c == '\U{2028}' || c == '\U{2029}'
    || c == '\U{202F}' || c == '\U{205F}' || c == '\U{3000}' || c == '\U{FEFF}'
  }

  predicate Blank(s: string) {
    forall i :: 0 <= i < |s| ==> IsSpace(s[i])
  }

  function TrimStart(s: string): string {
    if s == [] || !IsSpace(s[0]) then s else TrimStart(s[1..])
  }

  function TrimEnd(s: string): string {
    if s == [] || !IsSpace(s[|s| - 1]) then s else TrimEnd(s[..|s| - 1])
  }

  function Trim(s: string): string {
    TrimEnd(TrimStart(s))
  }

  /** Neither end is white space. */
  predicate Trimmed(s: string) {
    s == [] || (!IsSpace(s[0]) && !IsSpace(s[|s| - 1]))
  }

  lemma TrimOfTrimmed(s: string)
    requires Trimmed(s)
    ensures Trim(s) == s
  {
  }

  lemma BlankFrom(s: string, n: nat)
    requires n < |s| && IsSpace(s[0]) && Blank(s[1..][..n])
    ensures Blank(s[..n + 1])
  {
    forall i | 1 <= i < n + 1 ensures IsSpace(s[i]) {
      assert s[1..][..n][i - 1] == s[i];
    }
  }

  lemma BlankTo(s: string, n: nat)
    requires n < |s| && IsSpace(s[|s| - 1]) && Blank(s[..|s| - 1][n..])
    ensures Blank(s[n..])
  {
    forall i | n <= i < |s| - 1 ensures IsSpace(s[i]) {
      assert s[..|s| - 1][n..][i - n] == s[i];
    }
  }

  lemma {:induction false} TrimStartSplits(s: string)
    ensures var r := TrimStart(s);
            && (r == [] || !IsSpace(r[0])) && |r| <= |s| && r == s[|s| - |r|..] && Blank(s[..|s| - |r|])
  {
    hide IsSpace, Blank;
    if s == [] || !IsSpace(s[0]) {
      assert s[..0] == [];
      NothingIsBlank();
    } else {
      TrimStartSplits(s[1..]);
      var d := |s| - 1 - |TrimStart(s[1..])|;
      DropTwice(s, 1, d);
      BlankFrom(s, d);
    }
  }

  lemma {:induction false} TrimEndSplits(s: string)
    ensures var r := TrimEnd(s);
            && (r == [] || !IsSpace(r[|r| - 1])) && |r| <= |s| && r == s[..|r|] && Blank(s[|r|..])
  {
    hide IsSpace, Blank;
    if s == [] || !IsSpace(s[|s| - 1]) {
      assert s[|s|..] == [];
      NothingIsBlank();
    } else {
      TrimEndSplits(s[..|s| - 1]);
      BlankTo(s, |TrimEnd(s)|);
    }
  }

  lemma NothingIsBlank()
    ensures Blank([])
  {
  }

  lemma {:induction false} TrimStartDrops(before: string, s: string)
    requires Blank(before) && (s == [] || !IsSpace(s[0]))
    ensures TrimStart(before + s) == s
  {
    if before == [] {
      assert before + s == s;
    } else {
      assert (before + s)[0] == before[0] && (before + s)[1..] == before[1..] + s;
      TrimStartDrops(before[1..], s);
    }
  }

  /** Trimming the start of a text that goes on trims the start of its first part. */
  lemma {:induction false} TrimStartKeeps(s: string, after: string)
    requires TrimStart(s) != []
    ensures TrimStart(s + after) == TrimStart(s) + after
  {
    assert (s + after)[0] == s[0] && (s + after)[1..] == s[1..] + after;
    if IsSpace(s[0]) {
      TrimStartKeeps(s[1..], after);
    }
  }

  lemma {:induction false} TrimStartKeepsEnd(s: string)
    requires s != [] && !IsSpace(s[|s| - 1])
    ensures TrimStart(s) != [] && !IsSpace(TrimStart(s)[|TrimStart(s)| - 1])
  {
    if IsSpace(s[0]) {
      TrimStartKeepsEnd(s[1..]);
    }
  }

  lemma {:induction false} TrimEndDrops(s: string, after: string)
    requires Blank(after) && (s == [] || !IsSpace(s[|s| - 1]))
    ensures TrimEnd(s + after) == s
  {
    hide IsSpace;
    if after == [] {
      AppendNothing(s);
    } else {
      AppendInit(s, after);
      TrimEndDrops(s, after[..|after| - 1]);
    }
  }

  lemma BlankJoin(a: string, b: string)
    ensures Blank(a + b) <==> Blank(a) && Blank(b)
  {
    if Blank(a + b) {
      forall i | 0 <= i < |a| ensures IsSpace(a[i]) { assert IsSpace((a + b)[i]); }
      forall i | 0 <= i < |b| ensures IsSpace(b[i]) { assert IsSpace((a + b)[|a| + i]); }
    }
  }

  lemma TrimOfBlank(s: string)
    requires Blank(s)
    ensures Trim(s) == []
  {
    TrimStartDrops(s, []);
    assert s + [] == s;
  }

  /** Trimming removes blank ends and nothing else. */
  lemma TrimDrops(before: string, s: string, after: string)
    requires Blank(before) && Blank(after) && Trimmed(s)
    ensures Trim(before + s + after) == s
  {
    if s == [] {
      assert before + s + after == before + after;
      BlankJoin(before, after);
      TrimOfBlank(before + after);
    } else {
      assert (s + after)[0] == s[0];
      TrimStartDrops(before, s + after);
      assert before + s + after == before + (s + after);
      TrimEndDrops(s, after);
    }
  }

  /** What trimming leaves is trimmed. */
  lemma TrimmedTrim(s: string)
    ensures Trimmed(Trim(s))
  {
    var r := TrimStart(s);
    TrimStartSplits(s);
    TrimEndSplits(r);
    if TrimEnd(r) != [] {
      assert TrimEnd(r)[0] == r[0];
    }
  }

  lemma TrimTwice(s: string)
    ensures Trim(Trim(s)) == Trim(s)
  {
    TrimmedTrim(s);
    TrimOfTrimmed(Trim(s));
  }

  /** The last n characters, as JavaScript's `slice(-n)` for a positive n. */
  function Tail(s: string, n: nat): (r: string)
    ensures |r| <= n && |r| <= |s|
  {
    if |s| <= n then s else s[|s| - n..]
  }

  lemma TailDrops(s: string, n: nat)
    requires |s| >= n
    ensures Tail(s, n) == s[|s| - n..]
  {
  }

  /** A front that leaves n characters behind it is not seen in the tail. */
  lemma TailOfDropped(s: string, dropped: nat, n: nat)
    requires dropped <= |s| && |s| - dropped >= n
    ensures Tail(s[dropped..], n) == Tail(s, n)
  {
    hide Tail;
    TailDrops(s, n);
    TailDrops(s[dropped..], n);
    DropTwice(s, dropped, |s| - dropped - n);
  }

  /** Keeping a tail as the text grows keeps the tail of the whole text. */
  lemma TailOfTail(s: string, more: string, n: nat)
    ensures Tail(Tail(s, n) + more, n) == Tail(s + more, n)
  {
    if |s| <= n {
      assert Tail(s, n) == s;
    } else {
      hide Tail;
      TailDrops(s, n);
      DropAppend(s, more, |s| - n);
      TailOfDropped(s + more, |s| - n, n);
    }
  }
}
