/**
 Searching memory notes (apps/api/src/memory/fts.ts and the scan in memory.service.ts):
 the words of a query, LIKE patterns made of literal words, and the order of the hits.
 */
module Fts {
  import opened Wrappers
  import opened Sequences

  // ---------------------------------------------------------------------------
  // LIKE
  // ---------------------------------------------------------------------------

  /** LIKE ignores the case of ASCII letters. */
  function Fold(c: char): char {
    if 'A' <= c <= 'Z' then c + ' ' else c
  }

  lemma FoldExactly(c: char)
    ensures 'A' <= c <= 'Z' ==> 'a' <= Fold(c) <= 'z' && Fold(c) - 'a' == c - 'A'
    ensures !('A' <= c <= 'Z') ==> Fold(c) == c
  {
  }

  function FoldAll(s: string): string {
    seq(|s|, i requires 0 <= i < |s| => Fold(s[i]))
  }

  /** `text LIKE pattern ESCAPE '\'`; an escape with nothing after it matches nothing. */
  predicate Like(pattern: string, text: string)
    decreases |pattern| + |text|
  {
    if pattern == "" then text == ""
    else if pattern[0] == '%' then Like(pattern[1..], text) || (text != "" && Like(pattern, text[1..]))
    else if pattern[0] == '_' then text != "" && Like(pattern[1..], text[1..])
    else if pattern[0] == '\\' then
      |pattern| >= 2 && text != "" && Fold(pattern[1]) == Fold(text[0]) && Like(pattern[2..], text[1..])
    else text != "" && Fold(pattern[0]) == Fold(text[0]) && Like(pattern[1..], text[1..])
  }

  predicate IsSpecial(c: char) {
    c == '\\' || c == '%' || c == '_'
  }

  /** A backslash before every `%`, `_` and backslash. */
  function EscapeLike(term: string): string {
    if term == "" then ""
    else (if IsSpecial(term[0]) then ['\\', term[0]] else [term[0]]) + EscapeLike(term[1..])
  }

  predicate ContainsAt(text: string, term: string, i: nat) {
    i + |term| <= |text| && FoldAll(text[i..i + |term|]) == FoldAll(term)
  }

  /** An escaped term matches itself and nothing else. */
  lemma {:induction false} EscapedIsLiteral(term: string, rest: string, text: string)
    ensures Like(EscapeLike(term) + rest, text) <==> ContainsAt(text, term, 0) && Like(rest, text[|term|..])
  {
    if term == "" {
      assert EscapeLike(term) + rest == rest;
      assert text[0..] == text;
      assert FoldAll(text[0..0]) == FoldAll("");
    } else {
      var p := EscapeLike(term) + rest;
      var tail := EscapeLike(term[1..]) + rest;
      if IsSpecial(term[0]) {
        assert p[0] == '\\' && p[1] == term[0] && p[2..] == tail;
      } else {
        assert p[0] == term[0] && p[1..] == tail;
      }
      if text != "" {
        EscapedIsLiteral(term[1..], rest, text[1..]);
        HeadAndTail(text, term);
        if |term| <= |text| {
          assert text[1..][|term| - 1..] == text[|term|..];
        }
      }
    }
  }

  lemma HeadAndTail(text: string, term: string)
    requires text != "" && term != ""
    ensures ContainsAt(text, term, 0) <==> Fold(text[0]) == Fold(term[0]) && ContainsAt(text[1..], term[1..], 0)
  {
    if |term| <= |text| {
      var a, b := FoldAll(text[0..|term|]), FoldAll(term);
      var c, d := FoldAll(text[1..][0..|term| - 1]), FoldAll(term[1..]);
      assert a == [Fold(text[0])] + c && b == [Fold(term[0])] + d;
      assert a == b ==> a[1..] == b[1..];
      assert a[1..] == c && b[1..] == d;
    }
  }

  lemma {:induction false} PercentMatchesAll(text: string)
    ensures Like("%", text)
  {
    if text == "" {
      assert Like("%"[1..], "");
    } else {
      PercentMatchesAll(text[1..]);
    }
  }

  /** A leading percent skips any number of characters. */
  lemma {:induction false} PercentSkips(rest: string, text: string)
    ensures Like("%" + rest, text) <==> exists i :: 0 <= i <= |text| && Like(rest, text[i..])
  {
    var p := "%" + rest;
    assert p[1..] == rest;
    assert text[0..] == text;
    if text != "" {
      PercentSkips(rest, text[1..]);
      if Like(p, text[1..]) {
        var i :| 0 <= i <= |text[1..]| && Like(rest, text[1..][i..]);
        assert text[1..][i..] == text[i + 1..];
      }
      forall i | 1 <= i <= |text| && Like(rest, text[i..]) ensures Like(p, text[1..]) {
        assert text[1..][i - 1..] == text[i..];
      }
    }
  }

  function Pattern(term: string): string {
    "%" + EscapeLike(term) + "%"
  }

  /** The scan's pattern matches exactly the texts that contain the term, up to the case of ASCII letters. */
  lemma PatternFindsTerm(term: string, text: string)
    ensures Like(Pattern(term), text) <==> exists i: nat :: ContainsAt(text, term, i)
  {
    hide Like;
    var escaped := EscapeLike(term) + "%";
    assert Pattern(term) == "%" + escaped;
    PercentSkips(escaped, text);
    forall i | 0 <= i <= |text| ensures Like(escaped, text[i..]) <==> ContainsAt(text, term, i) {
      EscapedIsLiteral(term, "%", text[i..]);
      if i + |term| <= |text| {
        PercentMatchesAll(text[i..][|term|..]);
        assert text[i..][0..|term|] == text[i..i + |term|];
      }
    }
    forall i: nat | ContainsAt(text, term, i) ensures 0 <= i <= |text| {
    }
  }

  predicate IncludesAt(text: string, term: string, i: nat) {
    i + |term| <= |text| && text[i..i + |term|] == term
  }

  predicate Lower(s: string) {
    forall i :: 0 <= i < |s| ==> Fold(s[i]) == s[i]
  }

  /** On lowered text and a lowered term, as the scan uses it, that is literal containment. */
  lemma LoweredPatternIsContainment(term: string, text: string)
    requires Lower(term) && Lower(text)
    ensures Like(Pattern(term), text) <==> exists i: nat :: IncludesAt(text, term, i)
  {
    hide Like;
    PatternFindsTerm(term, text);
    assert FoldAll(term) == term;
    forall i: nat ensures ContainsAt(text, term, i) <==> IncludesAt(text, term, i) {
      if i + |term| <= |text| {
        assert FoldAll(text[i..i + |term|]) == text[i..i + |term|];
      }
    }
  }

  // ---------------------------------------------------------------------------
  // The words of a query
  // ---------------------------------------------------------------------------

  /** First occurrences, in order. */
  function Distinct(words: seq<string>): seq<string> {
    if words == [] then []
    else
      var before, last := Distinct(words[..|words| - 1]), words[|words| - 1];
      if last in before then before else before + [last]
  }

  lemma {:induction false} DistinctKeepsWords(words: seq<string>)
    ensures forall w :: w in Distinct(words) <==> w in words
    ensures forall i, j :: 0 <= i < j < |Distinct(words)| ==> Distinct(words)[i] != Distinct(words)[j]
  {
    if words != [] {
      DistinctKeepsWords(words[..|words| - 1]);
      assert words == words[..|words| - 1] + [words[|words| - 1]];
    }
  }

  lemma {:induction false} DistinctGrows(words: seq<string>, n: nat)
    requires n <= |words|
    ensures Distinct(words[..n]) <= Distinct(words)
    decreases |words| - n
  {
    if n < |words| {
      DistinctGrows(words, n + 1);
      assert words[..n + 1][..n] == words[..n];
    } else {
      assert words[..n] == words;
    }
  }

  /** How many of the first characters are word characters. */
  function RunLength(isWord: char -> bool, s: string): nat {
    if s == "" || !isWord(s[0]) then 0 else 1 + RunLength(isWord, s[1..])
  }

  lemma {:induction false} RunIsOfWords(isWord: char -> bool, s: string)
    ensures var n := RunLength(isWord, s);
            && n <= |s| && (forall i :: 0 <= i < n ==> isWord(s[i])) && (n < |s| ==> !isWord(s[n]))
  {
    if s != "" && isWord(s[0]) {
      RunIsOfWords(isWord, s[1..]);
    }
  }

  /** The maximal runs of word characters: letters, digits and `_` in the source. */
  function Words(isWord: char -> bool, s: string): seq<string>
    decreases |s|
  {
    RunIsOfWords(isWord, s);
    if s == "" then []
    else if !isWord(s[0]) then Words(isWord, s[1..])
    else [s[..RunLength(isWord, s)]] + Words(isWord, s[RunLength(isWord, s)..])
  }

  function Flat(words: seq<string>): string {
    if words == [] then "" else words[0] + Flat(words[1..])
  }

  function Kept(isWord: char -> bool, s: string): string {
    if s == "" then "" else (if isWord(s[0]) then [s[0]] else "") + Kept(isWord, s[1..])
  }

  lemma {:induction false} KeptOfRun(isWord: char -> bool, s: string, n: nat)
    requires n <= |s| && forall i :: 0 <= i < n ==> isWord(s[i])
    ensures Kept(isWord, s) == s[..n] + Kept(isWord, s[n..])
  {
    if n > 0 {
      KeptOfRun(isWord, s[1..], n - 1);
      assert s[1..][n - 1..] == s[n..] && [s[0]] + s[1..][..n - 1] == s[..n];
    } else {
      assert s[0..] == s;
    }
  }

  predicate IsWord(isWord: char -> bool, w: string) {
    w != "" && forall i :: 0 <= i < |w| ==> isWord(w[i])
  }

  lemma RunIsAWord(isWord: char -> bool, s: string)
    requires s != "" && isWord(s[0])
    ensures var n := RunLength(isWord, s);
            && 0 < n <= |s| && IsWord(isWord, s[..n])
            && Words(isWord, s) == [s[..n]] + Words(isWord, s[n..])
            && Kept(isWord, s) == s[..n] + Kept(isWord, s[n..])
  {
    RunIsOfWords(isWord, s);
    KeptOfRun(isWord, s, RunLength(isWord, s));
  }

  lemma FlatOfOneMore(word: string, rest: seq<string>)
    ensures Flat([word] + rest) == word + Flat(rest)
  {
    assert ([word] + rest)[1..] == rest;
  }

  /** The words are never empty, hold word characters only, and together hold all of them in order. */
  lemma {:induction false} WordsHoldTheQuery(isWord: char -> bool, s: string)
    ensures Flat(Words(isWord, s)) == Kept(isWord, s)
    ensures forall w :: w in Words(isWord, s) ==> IsWord(isWord, w)
    decreases |s|
  {
    hide IsWord, RunLength;
    if s != "" {
      if !isWord(s[0]) {
        WordsHoldTheQuery(isWord, s[1..]);
      } else {
        hide Words, Kept, Flat;
        RunIsAWord(isWord, s);
        var n := RunLength(isWord, s);
        WordsHoldTheQuery(isWord, s[n..]);
        FlatOfOneMore(s[..n], Words(isWord, s[n..]));
      }
    }
  }

  function Lowered(lower: string -> string, words: seq<string>): seq<string> {
    seq(|words|, i requires 0 <= i < |words| => lower(words[i]))
  }

  /**
   The lowered words of a query in the order written, each once, up to the limit; a limit of 0
   still lets one through.
   */
  method SearchTerms(isWord: char -> bool, lower: string -> string, query: string, limit: nat)
    returns (terms: seq<string>)
    ensures
      var all, most := Distinct(Lowered(lower, Words(isWord, query))), if limit == 0 then 1 else limit;
      terms == if |all| <= most then all else all[..most]
  {
    hide Words;
    terms := [];
    var found := Words(isWord, query);
    var words := Lowered(lower, found);
    assert words[..0] == [];
    for i := 0 to |found|
      invariant terms == Distinct(words[..i]) && (terms == [] || |terms| < limit)
    {
      assert words[..i + 1][..i] == words[..i];
      var term := lower(found[i]);
      if term !in terms {
        terms := terms + [term];
        if |terms| >= limit {
          DistinctGrows(words, i + 1);
          return;
        }
      }
    }
    assert words[..|words|] == words;
  }

  // ---------------------------------------------------------------------------
  // The order of hits
  // ---------------------------------------------------------------------------

  datatype Hit = Hit(id: string, title: string, score: real)

  /** Comparing text character by character. */
  function CompareText(a: string, b: string): int {
    if a == b then 0 else if a == "" then -1 else if b == "" then 1
    else if a[0] != b[0] then (if a[0] < b[0] then -1 else 1)
    else CompareText(a[1..], b[1..])
  }

  /** Score first, then title, then id. */
  function CompareScoredNotes(a: Hit, b: Hit): int {
    if a.score != b.score then (if a.score > b.score then -1 else 1)
    else if CompareText(a.title, b.title) != 0 then CompareText(a.title, b.title)
    else CompareText(a.id, b.id)
  }

  lemma {:induction false} TextOrder(a: string, b: string, c: string)
    ensures CompareText(a, b) == -CompareText(b, a)
    ensures CompareText(a, b) == 0 <==> a == b
    ensures CompareText(a, b) <= 0 && CompareText(b, c) <= 0 ==> CompareText(a, c) <= 0
  {
    if a != "" && b != "" && a[0] == b[0] {
      assert a == [a[0]] + a[1..] && b == [b[0]] + b[1..];
      TextOrder(a[1..], b[1..], if c != "" then c[1..] else "");
      if c != "" {
        assert c == [c[0]] + c[1..];
      }
    }
  }

  /** A total order: two hits compare equal only when score, title and id all are. */
  lemma HitOrder(a: Hit, b: Hit, c: Hit)
    ensures CompareScoredNotes(a, b) == -CompareScoredNotes(b, a)
    ensures CompareScoredNotes(a, b) == 0 <==> a == b
    ensures CompareScoredNotes(a, b) <= 0 && CompareScoredNotes(b, c) <= 0 ==> CompareScoredNotes(a, c) <= 0
  {
    hide CompareText;
    TextOrder(a.title, b.title, c.title);
    TextOrder(b.title, c.title, a.title);
    TextOrder(a.title, c.title, b.title);
    TextOrder(a.id, b.id, c.id);
  }

  /** At the first difference one text ends, or has the smaller character. */
  ghost predicate TextBefore(a: string, b: string) {
    exists k :: 0 <= k <= |a| && k < |b| && a[..k] == b[..k] && (k == |a| || a[k] < b[k])
  }

  lemma {:induction false} TextBeforeExactly(a: string, b: string)
    ensures CompareText(a, b) < 0 <==> TextBefore(a, b)
  {
    if a == "" || b == "" || a[0] != b[0] {
      if a == "" && b != "" {
        assert a[..0] == b[..0];
      } else if a != "" && b != "" && a[0] < b[0] {
        assert a[..0] == b[..0];
      }
      forall k | 0 < k <= |a| && k < |b| ensures a[..k] != b[..k] {
        assert a[..k][0] == a[0] && b[..k][0] == b[0];
      }
    } else {
      TextBeforeExactly(a[1..], b[1..]);
      SplitFirst(a);
      SplitFirst(b);
      if k :| 0 <= k <= |a[1..]| && k < |b[1..]| && a[1..][..k] == b[1..][..k]
              && (k == |a[1..]| || a[1..][k] < b[1..][k]) {
        assert a[..k + 1] == [a[0]] + a[1..][..k] && b[..k + 1] == [b[0]] + b[1..][..k];
      }
      if k :| 0 <= k <= |a| && k < |b| && a[..k] == b[..k] && (k == |a| || a[k] < b[k]) {
        assert k > 0;
        assert a[1..][..k - 1] == a[..k][1..] && b[1..][..k - 1] == b[..k][1..];
      }
    }
  }

  ghost predicate Ranked(hits: seq<Hit>) {
    forall i, j :: 0 <= i < j < |hits| ==> CompareScoredNotes(hits[i], hits[j]) <= 0
  }

  /** A higher score comes first; among equal scores the earlier title, and among equal titles the earlier id. */
  lemma BetterHitsComeFirst(hits: seq<Hit>, i: nat, j: nat)
    requires Ranked(hits) && i < j < |hits|
    ensures var a, b := hits[i], hits[j];
            || a.score > b.score
            || (a.score == b.score && (
                  || TextBefore(a.title, b.title)
                  || (a.title == b.title && (TextBefore(a.id, b.id) || a.id == b.id))))
  {
    var a, b := hits[i], hits[j];
    assert CompareScoredNotes(a, b) <= 0;
    hide CompareText, TextBefore;
    TextBeforeExactly(a.title, b.title);
    TextBeforeExactly(a.id, b.id);
    TextOrder(a.title, b.title, "");
    TextOrder(a.id, b.id, "");
  }

  lemma RestIsRanked(hits: seq<Hit>)
    requires |hits| > 0 && Ranked(hits)
    ensures Ranked(hits[1..])
  {
    hide CompareScoredNotes;
  }

  /** The same hits have only one ranking, whatever order the rows came in. */
  lemma {:induction false} RankingIsUnique(a: seq<Hit>, b: seq<Hit>)
    requires multiset(a) == multiset(b) && Ranked(a) && Ranked(b)
    ensures a == b
  {
    hide Ranked;
    SameSize(a, b);
    if |a| > 0 {
      FirstIsFirst(a, b);
      RestIsRanked(a);
      RestIsRanked(b);
      DropFirst(a);
      DropFirst(b);
      RankingIsUnique(a[1..], b[1..]);
      SplitFirst(a);
      SplitFirst(b);
    }
  }

  lemma FirstIsFirst(a: seq<Hit>, b: seq<Hit>)
    requires |a| > 0 && |b| > 0 && multiset(a) == multiset(b) && Ranked(a) && Ranked(b)
    ensures a[0] == b[0]
  {
    hide CompareScoredNotes;
    assert a[0] in multiset(b) && b[0] in multiset(a);
    var i :| 0 <= i < |b| && b[i] == a[0];
    var j :| 0 <= j < |a| && a[j] == b[0];
    HitOrder(a[0], b[0], a[0]);
    HitOrder(b[0], a[0], b[0]);
  }
}
