/**
 City-name correction (packages/agent-core/src/city-names.ts): the optimal string
 alignment distance the desk fills in as a matrix, and the rule that corrects a
 spelling only when exactly one city is strictly closest.
 */
module CityNames {
  import opened Wrappers
  import opened Sequences
  import opened Numbers

  // ---------------------------------------------------------------------------
  // Edit scripts: what the distance is the minimum of
  // ---------------------------------------------------------------------------

  /** One step of a left-to-right rewrite. No character is touched by two steps. */
  datatype Edit =
    | Keep(c: char)
    | Substitute(from: char, to: char)
    | Insert(c: char)
    | Delete(c: char)
    | Swap(first: char, second: char)
  {
    function Reads(): string {
      match this
      case Keep(c) => [c]
      case Substitute(a, _) => [a]
      case Insert(_) => []
      case Delete(c) => [c]
      case Swap(a, b) => [a, b]
    }

    function Writes(): string {
      match this
      case Keep(c) => [c]
      case Substitute(_, b) => [b]
      case Insert(c) => [c]
      case Delete(_) => []
      case Swap(a, b) => [b, a]
    }

    function Price(): nat {
      if Keep? then 0 else 1
    }
  }

  /** The text a script consumes. */
  function Source(script: seq<Edit>): string {
    if script == [] then [] else Source(script[..|script| - 1]) + script[|script| - 1].Reads()
  }

  /** The text a script produces. */
  function Target(script: seq<Edit>): string {
    if script == [] then [] else Target(script[..|script| - 1]) + script[|script| - 1].Writes()
  }

  function Cost(script: seq<Edit>): nat {
    if script == [] then 0 else Cost(script[..|script| - 1]) + script[|script| - 1].Price()
  }

  ghost predicate Rewrites(script: seq<Edit>, left: string, right: string) {
    Source(script) == left && Target(script) == right
  }

  // ---------------------------------------------------------------------------
  // The recursive distance
  // ---------------------------------------------------------------------------

  predicate SwapsAtEnd(left: string, right: string) {
    && |left| > 1 && |right| > 1
    && left[|left| - 1] == right[|right| - 2]
    && left[|left| - 2] == right[|right| - 1]
  }

  /** Optimal string alignment distance, by the last characters of both words. */
  function Distance(left: string, right: string): nat
    decreases |left| + |right|
  {
    if left == [] then |right|
    else if right == [] then |left|
    else
      var m, n := |left| - 1, |right| - 1;
      var plain := Min(Min(Distance(left[..m], right) + 1, Distance(left, right[..n]) + 1),
                       Distance(left[..m], right[..n]) + if left[m] == right[n] then 0 else 1);
      if SwapsAtEnd(left, right)
      then Min(plain, Distance(left[..m - 1], right[..n - 1]) + 1)
      else plain
  }

  lemma OneLetterMore(s: string, t: string, a: char, b: char)
    ensures Distance(s + [a], t) <= Distance(s, t) + 1
    ensures Distance(s, t + [b]) <= Distance(s, t) + 1
    ensures Distance(s + [a], t + [b]) <= Distance(s, t) + if a == b then 0 else 1
  {
    assert (s + [a])[..|s|] == s && (t + [b])[..|t|] == t;
  }

  lemma OneSwapMore(s: string, t: string, a: char, b: char)
    ensures Distance(s + [a, b], t + [b, a]) <= Distance(s, t) + 1
  {
    assert (s + [a, b])[..|s|] == s && (t + [b, a])[..|t|] == t;
    assert SwapsAtEnd(s + [a, b], t + [b, a]);
  }

  /** One more edit raises the distance by at most its price. */
  lemma EditIsNotCheaper(s: string, t: string, edit: Edit)
    ensures Distance(s + edit.Reads(), t + edit.Writes()) <= Distance(s, t) + edit.Price()
  {
    hide Distance;
    assert s + [] == s && t + [] == t;
    match edit {
      case Keep(c) => OneLetterMore(s, t, c, c);
      case Substitute(a, b) => OneLetterMore(s, t, a, b);
      case Insert(c) => OneLetterMore(s, t, c, c);
      case Delete(c) => OneLetterMore(s, t, c, c);
      case Swap(a, b) => OneSwapMore(s, t, a, b);
    }
  }

  /** No script is cheaper than the distance. */
  lemma {:induction false} NoScriptIsCheaper(script: seq<Edit>)
    ensures Distance(Source(script), Target(script)) <= Cost(script)
  {
    if script != [] {
      hide Distance;
      var init, last := script[..|script| - 1], script[|script| - 1];
      NoScriptIsCheaper(init);
      EditIsNotCheaper(Source(init), Target(init), last);
    }
  }

  lemma Snoc(init: seq<Edit>, last: Edit)
    ensures Source(init + [last]) == Source(init) + last.Reads()
    ensures Target(init + [last]) == Target(init) + last.Writes()
    ensures Cost(init + [last]) == Cost(init) + last.Price()
  {
    assert (init + [last])[..|init|] == init;
  }

  lemma Extend(init: seq<Edit>, last: Edit, left: string, right: string) returns (script: seq<Edit>)
    requires Rewrites(init, left, right)
    ensures Rewrites(script, left + last.Reads(), right + last.Writes())
    ensures Cost(script) == Cost(init) + last.Price()
  {
    script := init + [last];
    Snoc(init, last);
  }

  /** The distance is attained: a script that costs exactly as much, read off the recursion. */
  lemma {:induction false} BestScript(left: string, right: string) returns (script: seq<Edit>)
    ensures Rewrites(script, left, right)
    ensures Cost(script) == Distance(left, right)
    decreases |left| + |right|
  {
    if left == [] && right == [] {
      script := [];
    } else {
      script := BestScriptFrom(left, right);
    }
  }

  lemma {:induction false} BestScriptFrom(left: string, right: string) returns (script: seq<Edit>)
    requires left != [] || right != []
    ensures Rewrites(script, left, right)
    ensures Cost(script) == Distance(left, right)
    decreases |left| + |right|, 1
  {
    FromNothing(left, right);
    hide Distance, Rewrites, Cost;
    var m, n := |left| - 1, |right| - 1;
    AppendNothing(left);
    AppendNothing(right);
    if right != [] && Distance(left, right) == Distance(left, right[..n]) + 1 {
      SplitLast(right);
      script := BestScript(left, right[..n]);
      script := Extend(script, Insert(right[n]), left, right[..n]);
    } else if left != [] && Distance(left, right) == Distance(left[..m], right) + 1 {
      SplitLast(left);
      script := BestScript(left[..m], right);
      script := Extend(script, Delete(left[m]), left[..m], right);
    } else {
      script := BestScriptDiagonal(left, right);
    }
  }

  /** Against the empty word every letter is one edit. */
  lemma FromNothing(left: string, right: string)
    ensures left == [] && right != [] ==> Distance(left, right) == Distance(left, right[..|right| - 1]) + 1
    ensures left != [] && right == [] ==> Distance(left, right) == Distance(left[..|left| - 1], right) + 1
  {
  }

  lemma {:induction false} BestScriptDiagonal(left: string, right: string) returns (script: seq<Edit>)
    requires left != [] && right != []
    requires Distance(left, right) != Distance(left, right[..|right| - 1]) + 1
    requires Distance(left, right) != Distance(left[..|left| - 1], right) + 1
    ensures Rewrites(script, left, right)
    ensures Cost(script) == Distance(left, right)
    decreases |left| + |right|, 0
  {
    DiagonalOrSwap(left, right);
    hide Distance, Rewrites, Cost;
    var m, n := |left| - 1, |right| - 1;
    SplitLast(left);
    SplitLast(right);
    if Distance(left, right) == Distance(left[..m], right[..n]) + (if left[m] == right[n] then 0 else 1) {
      script := BestScript(left[..m], right[..n]);
      var edit := if left[m] == right[n] then Keep(left[m]) else Substitute(left[m], right[n]);
      script := Extend(script, edit, left[..m], right[..n]);
    } else {
      SplitLastTwo(left);
      SplitLastTwo(right);
      script := BestScript(left[..m - 1], right[..n - 1]);
      script := Extend(script, Swap(left[m - 1], left[m]), left[..m - 1], right[..n - 1]);
    }
  }

  /** A distance that no last insertion or deletion explains is that of a last character or a last swap. */
  lemma DiagonalOrSwap(left: string, right: string)
    requires left != [] && right != []
    requires Distance(left, right) != Distance(left, right[..|right| - 1]) + 1
    requires Distance(left, right) != Distance(left[..|left| - 1], right) + 1
    ensures
      var m, n := |left| - 1, |right| - 1;
      || Distance(left, right) == Distance(left[..m], right[..n]) + (if left[m] == right[n] then 0 else 1)
      || (SwapsAtEnd(left, right) && Distance(left, right) == Distance(left[..m - 1], right[..n - 1]) + 1)
  {
  }

  /** The distance is the minimum cost over every valid script. */
  lemma DistanceIsMinimum(left: string, right: string)
    ensures exists script :: Rewrites(script, left, right) && Cost(script) == Distance(left, right)
    ensures forall script :: Rewrites(script, left, right) ==> Distance(left, right) <= Cost(script)
  {
    var best := BestScript(left, right);
    forall script | Rewrites(script, left, right)
      ensures Distance(left, right) <= Cost(script)
    {
      NoScriptIsCheaper(script);
    }
  }

  // ---------------------------------------------------------------------------
  // What kind of distance it is
  // ---------------------------------------------------------------------------

  lemma {:induction false} Symmetric(left: string, right: string)
    ensures Distance(left, right) == Distance(right, left)
    decreases |left| + |right|
  {
    if left != [] && right != [] {
      var m, n := |left| - 1, |right| - 1;
      Symmetric(left[..m], right);
      Symmetric(left, right[..n]);
      Symmetric(left[..m], right[..n]);
      if SwapsAtEnd(left, right) {
        Symmetric(left[..m - 1], right[..n - 1]);
      }
    }
  }

  /** A script changes the length by at most its cost. */
  lemma {:induction false} ScriptLength(script: seq<Edit>)
    ensures |Source(script)| <= |Target(script)| + Cost(script)
    ensures |Target(script)| <= |Source(script)| + Cost(script)
  {
    if script != [] {
      ScriptLength(script[..|script| - 1]);
    }
  }

  lemma {:induction false} AtMostLonger(left: string, right: string)
    ensures Distance(left, right) <= Max(|left|, |right|)
  {
    if left != [] && right != [] {
      AtMostLonger(left[..|left| - 1], right[..|right| - 1]);
    }
  }

  lemma LengthBounds(left: string, right: string)
    ensures Max(|left|, |right|) - Min(|left|, |right|) <= Distance(left, right) <= Max(|left|, |right|)
  {
    var best := BestScript(left, right);
    ScriptLength(best);
    AtMostLonger(left, right);
  }

  lemma {:induction false} ZeroIffEqual(left: string, right: string)
    ensures Distance(left, right) == 0 <==> left == right
    decreases |left| + |right|
  {
    if left != [] && right != [] {
      var m, n := |left| - 1, |right| - 1;
      ZeroIffEqual(left[..m], right[..n]);
      assert left == left[..m] + [left[m]] && right == right[..n] + [right[n]];
    }
  }

  /** The two words differ by one exchange of neighbouring, different characters. */
  predicate TransposedAt(left: string, right: string, i: nat)
    requires |left| == |right|
    requires i + 1 < |left|
  {
    && left[i] != left[i + 1]
    && left[i] == right[i + 1]
    && left[i + 1] == right[i]
    && left[..i] == right[..i]
    && left[i + 2..] == right[i + 2..]
  }

  ghost predicate AdjacentTransposition(left: string, right: string) {
    |left| == |right| && exists i: nat :: i + 1 < |left| && TransposedAt(left, right, i)
  }

  /** A transposition costs one: it never reads as two substitutions. */
  lemma {:induction false} TranspositionCostsOne(left: string, right: string, i: nat)
    requires |left| == |right| && i + 1 < |left|
    requires TransposedAt(left, right, i)
    ensures Distance(left, right) == 1
    decreases |left|
  {
    hide Distance;
    var m := |left| - 1;
    assert left != right;
    ZeroIffEqual(left, right);
    if i + 2 == |left| {
      var swap := Swap(left[i], left[i + 1]);
      ZeroIffEqual(left[..i], right[..i]);
      assert left == left[..i] + swap.Reads() && right == right[..i] + swap.Writes();
      EditIsNotCheaper(left[..i], right[..i], swap);
    } else {
      assert left[m] == left[i + 2..][m - i - 2] == right[m];
      assert left[..m][i + 2..] == left[i + 2..][..m - i - 2];
      assert right[..m][i + 2..] == right[i + 2..][..m - i - 2];
      assert left[..m][..i] == left[..i] && right[..m][..i] == right[..i];
      TranspositionCostsOne(left[..m], right[..m], i);
      assert left == left[..m] + Keep(left[m]).Reads() && right == right[..m] + Keep(left[m]).Writes();
      EditIsNotCheaper(left[..m], right[..m], Keep(left[m]));
    }
  }

  lemma FarApart()
    ensures Distance("ca", "abc") == 3
  {
    var ca, abc, ab := "ca", "abc", "ab";
    assert ca[..1] == "c" && abc[..2] == ab && ab[..1] == "a";
    FromOneLetter();
    assert Distance(ca, "a") == 1;
    assert Distance(ca, ab) == 2;
  }

  lemma FromOneLetter()
    ensures Distance("c", "a") == 1 && Distance("c", "ab") == 2 && Distance("c", "abc") == 2
  {
    var abc, ab := "abc", "ab";
    assert abc[..2] == ab && ab[..1] == "a" && "c"[..0] == "" && "a"[..0] == "";
    assert Distance("c", "a") == 1;
    assert Distance("c", ab) == 2;
  }

  /** It is a dissimilarity, not a metric: a swapped pair may not be edited again. */
  lemma TriangleInequalityFails()
    ensures Distance("ca", "abc") > Distance("ca", "ac") + Distance("ac", "abc")
  {
    hide Distance;
    TranspositionCostsOne("ca", "ac", 0);
    var script := Extend([], Keep('a'), "", "");
    assert "" + "a" == "a";
    script := Extend(script, Insert('b'), "a", "a");
    assert "a" + "" == "a" && "a" + "b" == "ab";
    script := Extend(script, Keep('c'), "a", "ab");
    assert "a" + "c" == "ac" && "ab" + "c" == "abc";
    NoScriptIsCheaper(script);
    FarApart();
  }

  // ---------------------------------------------------------------------------
  // The matrix and the transposition scan
  // ---------------------------------------------------------------------------

  /** The value of one matrix cell: the distance of two prefixes. */
  function Cell(left: string, right: string, i: nat, j: nat): nat
    requires i <= |left| && j <= |right|
  {
    Distance(left[..i], right[..j])
  }

  lemma CellRecurrence(left: string, right: string, i: nat, j: nat)
    requires 1 <= i <= |left| && 1 <= j <= |right|
    ensures
      var plain := Min(Min(Cell(left, right, i - 1, j) + 1, Cell(left, right, i, j - 1) + 1),
                       Cell(left, right, i - 1, j - 1) + if left[i - 1] == right[j - 1] then 0 else 1);
      Cell(left, right, i, j) ==
      if i > 1 && j > 1 && left[i - 1] == right[j - 2] && left[i - 2] == right[j - 1]
      then Min(plain, Cell(left, right, i - 2, j - 2) + 1)
      else plain
  {
    assert left[..i][..i - 1] == left[..i - 1] && right[..j][..j - 1] == right[..j - 1];
    if i > 1 && j > 1 {
      assert left[..i][..i - 2] == left[..i - 2] && right[..j][..j - 2] == right[..j - 2];
    }
  }

  lemma CellBorder(left: string, right: string)
    ensures forall k :: 0 <= k <= |left| ==> Cell(left, right, k, 0) == k
    ensures forall k :: 0 <= k <= |right| ==> Cell(left, right, 0, k) == k
    ensures Cell(left, right, |left|, |right|) == Distance(left, right)
  {
    assert left[..|left|] == left && right[..|right|] == right;
  }

  method DamerauLevenshtein(left: string, right: string) returns (distance: nat)
    ensures distance == Distance(left, right)
  {
    hide Cell, Distance;
    CellBorder(left, right);
    var rows, columns := |left| + 1, |right| + 1;
    var matrix := new nat[rows, columns]((_, _) => 0);
    for i := 0 to rows
      invariant forall k :: 0 <= k < i ==> matrix[k, 0] == k
    {
      matrix[i, 0] := i;
    }
    for j := 0 to columns
      invariant forall k :: 0 <= k < rows ==> matrix[k, 0] == k
      invariant forall k :: 0 <= k < j ==> matrix[0, k] == k
    {
      matrix[0, j] := j;
    }
    for i := 1 to rows
      invariant forall k, l :: 0 <= k < i && 0 <= l < columns ==> matrix[k, l] == Cell(left, right, k, l)
      invariant forall k :: 0 <= k < rows ==> matrix[k, 0] == Cell(left, right, k, 0)
    {
      for j := 1 to columns
        invariant forall k, l :: 0 <= k < i && 0 <= l < columns ==> matrix[k, l] == Cell(left, right, k, l)
        invariant forall k :: 0 <= k < rows ==> matrix[k, 0] == Cell(left, right, k, 0)
        invariant forall l :: 0 <= l < j ==> matrix[i, l] == Cell(left, right, i, l)
      {
        CellRecurrence(left, right, i, j);
        var substitution := if left[i - 1] == right[j - 1] then 0 else 1;
        matrix[i, j] := Min(Min(matrix[i - 1, j] + 1, matrix[i, j - 1] + 1),
                            matrix[i - 1, j - 1] + substitution);
        if i > 1 && j > 1 && left[i - 1] == right[j - 2] && left[i - 2] == right[j - 1] {
          matrix[i, j] := Min(matrix[i, j], matrix[i - 2, j - 2] + 1);
        }
      }
    }
    distance := matrix[|left|, |right|];
  }

  method IsAdjacentTransposition(left: string, right: string) returns (found: bool)
    ensures found <==> AdjacentTransposition(left, right)
  {
    if |left| != |right| {
      return false;
    }
    var index := 0;
    while index < |left| - 1
      invariant forall i: nat :: i < index && i + 1 < |left| ==> !TransposedAt(left, right, i)
    {
      if TransposedAt(left, right, index) {
        return true;
      }
      index := index + 1;
    }
    return false;
  }

  // ---------------------------------------------------------------------------
  // Correcting a spelling
  // ---------------------------------------------------------------------------

  /** One entry of the alias table: a normalized spelling and the city it names. */
  datatype Alias = Alias(spelling: string, city: string)

  /** The alias table is a map: a spelling names one city. */
  ghost predicate Unambiguous(aliases: seq<Alias>) {
    forall i, j :: 0 <= i < j < |aliases| ==> aliases[i].spelling != aliases[j].spelling
  }

  /**
   The spelling is close enough to be a typo of the alias: at most one edit in a
   short word and two in a long one, and at most 18% of the longer word, or 25%
   when it is one transposition.
   */
  ghost predicate Qualifies(key: string, spelling: string) {
    var distance, longer := Distance(key, spelling), Max(|key|, |spelling|);
    && |key| >= 4 && |spelling| >= 4
    && distance <= (if longer <= 6 then 1 else 2)
    && 100 * distance <= (if AdjacentTransposition(key, spelling) then 25 else 18) * longer
  }

  /** Of four letters or more the word itself qualifies, two letters swapped, one edit in six or two in twelve. */
  lemma TyposExactly(key: string, spelling: string)
    ensures Qualifies(key, spelling) <==> (
              && |key| >= 4 && |spelling| >= 4
              && (|| key == spelling || AdjacentTransposition(key, spelling)
                  || (Distance(key, spelling) == 1 && (|key| >= 6 || |spelling| >= 6))
                  || (Distance(key, spelling) == 2 && (|key| >= 12 || |spelling| >= 12))))
  {
    ZeroIffEqual(key, spelling);
    if AdjacentTransposition(key, spelling) {
      var i: nat :| i + 1 < |key| && TransposedAt(key, spelling, i);
      TranspositionCostsOne(key, spelling, i);
    }
    hide Distance, AdjacentTransposition;
  }

  /** The distance of a spelling from the key, when it is close enough to correct to. */
  ghost function TypoDistance(key: string): string -> Option<nat> {
    spelling => if Qualifies(key, spelling) then Some(Distance(key, spelling)) else None
  }

  /** Alias i names the city and is strictly nearer than every near alias of another city. */
  ghost predicate Beats(aliases: seq<Alias>, near: string -> Option<nat>, i: nat, city: string)
    requires i < |aliases|
  {
    && aliases[i].city == city && near(aliases[i].spelling).Some?
    && forall a :: a in aliases && a.city != city && near(a.spelling).Some?
         ==> near(a.spelling).value > near(aliases[i].spelling).value
  }

  ghost predicate StrictlyClosest(aliases: seq<Alias>, near: string -> Option<nat>, city: string) {
    exists i: nat :: i < |aliases| && Beats(aliases, near, i, city)
  }

  /** What the ranking remembers of one city, in the order the cities were first seen. */
  datatype Candidate = Candidate(city: string, distance: nat, length: nat)

  ghost predicate DistinctCities(cs: seq<Candidate>) {
    forall i, j :: 0 <= i < j < |cs| ==> cs[i].city != cs[j].city
  }

  /** The candidate is at the distance of some alias of its city. */
  ghost predicate Backed(aliases: seq<Alias>, near: string -> Option<nat>, c: Candidate) {
    exists a :: a in aliases && a.city == c.city && near(a.spelling) == Some(c.distance)
  }

  /** The alias's city is a candidate at least as near as the alias. */
  ghost predicate Covered(cs: seq<Candidate>, near: string -> Option<nat>, a: Alias) {
    near(a.spelling).Some? ==> exists c :: c in cs && c.city == a.city && c.distance <= near(a.spelling).value
  }

  /** One candidate per near city, at the distance of its nearest alias. */
  ghost predicate BestPerCity(aliases: seq<Alias>, near: string -> Option<nat>, cs: seq<Candidate>) {
    && DistinctCities(cs)
    && (forall c :: c in cs ==> Backed(aliases, near, c))
    && (forall a :: a in aliases ==> Covered(cs, near, a))
  }

  predicate RanksBefore(a: Candidate, b: Candidate) {
    a.distance < b.distance || (a.distance == b.distance && a.length <= b.length)
  }

  /** Stable insertion into a ranked list. */
  function InsertRanked(c: Candidate, ranked: seq<Candidate>): (r: seq<Candidate>)
    ensures multiset(r) == multiset(ranked) + multiset{c}
  {
    if ranked == [] then [c]
    else if RanksBefore(ranked[0], c) then
      assert ranked == [ranked[0]] + ranked[1..];
      [ranked[0]] + InsertRanked(c, ranked[1..])
    else [c] + ranked
  }

  ghost predicate Ranked(cs: seq<Candidate>) {
    forall i, j :: 0 <= i < j < |cs| ==> RanksBefore(cs[i], cs[j])
  }

  lemma {:induction false} InsertKeepsRanked(c: Candidate, ranked: seq<Candidate>)
    requires Ranked(ranked)
    ensures Ranked(InsertRanked(c, ranked))
  {
    if ranked != [] && RanksBefore(ranked[0], c) {
      InsertKeepsRanked(c, ranked[1..]);
      var rest := InsertRanked(c, ranked[1..]);
      forall x | x in rest ensures RanksBefore(ranked[0], x) {
        assert x in multiset(rest);
        assert x == c || x in ranked[1..];
      }
    }
  }

  method SortRanked(cs: seq<Candidate>) returns (ranked: seq<Candidate>)
    ensures Ranked(ranked) && multiset(ranked) == multiset(cs)
    ensures forall i, j :: 0 <= i < j < |ranked| ==>
              || ranked[i].distance < ranked[j].distance
              || (ranked[i].distance == ranked[j].distance && ranked[i].length <= ranked[j].length)
  {
    ranked := [];
    for i := 0 to |cs|
      invariant Ranked(ranked) && multiset(ranked) == multiset(cs[..i])
    {
      InsertKeepsRanked(cs[i], ranked);
      ranked := InsertRanked(cs[i], ranked);
      assert cs[..i + 1] == cs[..i] + [cs[i]];
    }
    assert cs[..|cs|] == cs;
  }

  method IndexOfCity(cs: seq<Candidate>, city: string) returns (index: Option<nat>)
    ensures index.Some? ==> index.value < |cs| && cs[index.value].city == city
    ensures index.None? ==> forall c :: 0 <= c < |cs| ==> cs[c].city != city
  {
    for c := 0 to |cs|
      invariant forall d :: 0 <= d < c ==> cs[d].city != city
    {
      if cs[c].city == city {
        return Some(c);
      }
    }
    return None;
  }

  /** The candidates after one more near alias of a city that is candidate c, or new when c is their number. */
  function Record(cs: seq<Candidate>, c: nat, entry: Candidate): seq<Candidate>
    requires c <= |cs|
  {
    if c == |cs| then cs + [entry] else if entry.distance < cs[c].distance then cs[c := entry] else cs
  }

  lemma RecordKeepsBest(aliases: seq<Alias>, near: string -> Option<nat>, cs: seq<Candidate>, c: nat,
                        a: Alias, length: nat)
    requires BestPerCity(aliases, near, cs) && near(a.spelling).Some?
    requires c <= |cs| && (c < |cs| ==> cs[c].city == a.city)
    requires c == |cs| ==> forall d :: 0 <= d < |cs| ==> cs[d].city != a.city
    ensures BestPerCity(aliases + [a], near, Record(cs, c, Candidate(a.city, near(a.spelling).value, length)))
  {
    var entry := Candidate(a.city, near(a.spelling).value, length);
    var next := Record(cs, c, entry);
    forall d | d in next ensures Backed(aliases + [a], near, d) {
      if d == entry {
        assert a in aliases + [a];
      } else {
        assert Backed(aliases, near, d);
      }
    }
    assert next[c].city == a.city && next[c].distance <= entry.distance;
    forall b | b in aliases + [a] ensures Covered(next, near, b) {
      if near(b.spelling).Some? {
        if b in aliases {
          assert Covered(cs, near, b);
          var mine :| mine in cs && mine.city == b.city && mine.distance <= near(b.spelling).value;
          var d :| 0 <= d < |cs| && cs[d] == mine;
          assert next[d] in next && next[d].city == b.city;
        } else {
          assert next[c] in next;
        }
      }
    }
  }

  /** The candidates within typo distance of the key, one per city, at its best distance. */
  method Candidates(aliases: seq<Alias>, key: string) returns (cs: seq<Candidate>)
    ensures BestPerCity(aliases, TypoDistance(key), cs)
  {
    cs := [];
    for n := 0 to |aliases|
      invariant BestPerCity(aliases[..n], TypoDistance(key), cs)
    {
      var Alias(spelling, city) := aliases[n];
      assert aliases[..n + 1] == aliases[..n] + [aliases[n]];
      if |spelling| < 4 || |key| < 4 {
        continue;
      }
      var distance := DamerauLevenshtein(key, spelling);
      var longer := Max(|key|, |spelling|);
      var threshold := if longer <= 6 then 1 else 2;
      var transposition := IsAdjacentTransposition(key, spelling);
      var maxPercent := if transposition then 25 else 18;
      if distance > threshold || 100 * distance > maxPercent * longer {
        continue;
      }
      var current := IndexOfCity(cs, city);
      RecordKeepsBest(aliases[..n], TypoDistance(key), cs,
                      if current.None? then |cs| else current.value, aliases[n], longer);
      if current.None? {
        cs := cs + [Candidate(city, distance, longer)];
      } else if distance < cs[current.value].distance {
        cs := cs[current.value := Candidate(city, distance, longer)];
      }
    }
    assert aliases[..|aliases|] == aliases;
  }

  lemma FirstIsNearest(cs: seq<Candidate>, c: Candidate)
    requires Ranked(cs) && c in cs
    ensures cs[0].distance <= c.distance
  {
    var j: nat :| j < |cs| && cs[j] == c;
    if j > 0 {
      assert RanksBefore(cs[0], cs[j]);
    }
  }

  /** A strictly closest city ranks first, strictly before the second. */
  lemma ClosestRanksFirst(aliases: seq<Alias>, near: string -> Option<nat>, cs: seq<Candidate>, city: string)
    requires BestPerCity(aliases, near, cs) && Ranked(cs) && StrictlyClosest(aliases, near, city)
    ensures |cs| > 0 && cs[0].city == city && (|cs| > 1 ==> cs[1].distance > cs[0].distance)
  {
    var i: nat :| i < |aliases| && Beats(aliases, near, i, city);
    assert Covered(cs, near, aliases[i]);
    var mine :| mine in cs && mine.city == city && mine.distance <= near(aliases[i].spelling).value;
    forall c | c in cs && c.city != city ensures c.distance > mine.distance {
      assert Backed(aliases, near, c);
    }
    FirstIsNearest(cs, mine);
  }

  /** A first rank strictly before the second is the strictly closest city. */
  lemma FirstRankIsClosest(aliases: seq<Alias>, near: string -> Option<nat>, cs: seq<Candidate>)
    requires BestPerCity(aliases, near, cs) && Ranked(cs)
    requires |cs| > 0 && (|cs| > 1 ==> cs[1].distance > cs[0].distance)
    ensures StrictlyClosest(aliases, near, cs[0].city)
  {
    assert Backed(aliases, near, cs[0]);
    var a :| a in aliases && a.city == cs[0].city && near(a.spelling) == Some(cs[0].distance);
    var i: nat :| i < |aliases| && aliases[i] == a;
    forall b | b in aliases && b.city != a.city && near(b.spelling).Some?
      ensures near(b.spelling).value > cs[0].distance
    {
      assert Covered(cs, near, b);
      var c :| c in cs && c.city == b.city && c.distance <= near(b.spelling).value;
      if c != cs[1] { assert RanksBefore(cs[1], c); }
    }
    assert Beats(aliases, near, i, a.city);
  }

  lemma AppearsOnce(cs: seq<Candidate>, x: Candidate)
    requires DistinctCities(cs)
    ensures multiset(cs)[x] <= 1
  {
    if cs != [] {
      AppearsOnce(cs[1..], x);
      assert cs == [cs[0]] + cs[1..];
      if cs[0] == x {
        assert x !in cs[1..];
      }
    }
  }

  /** Sorting candidates of distinct cities keeps what they say about the aliases. */
  lemma SortingKeepsBest(aliases: seq<Alias>, near: string -> Option<nat>, cs: seq<Candidate>, ranked: seq<Candidate>)
    requires BestPerCity(aliases, near, cs) && multiset(ranked) == multiset(cs)
    ensures BestPerCity(aliases, near, ranked)
  {
    forall x ensures x in cs <==> x in ranked {
      assert x in multiset(cs) <==> x in multiset(ranked);
    }
    forall i, j | 0 <= i < j < |ranked| ensures ranked[i].city != ranked[j].city {
      assert ranked[i] in cs && ranked[j] in cs;
      if ranked[i] == ranked[j] {
        assert ranked == ranked[..j] + ranked[j..];
        assert ranked[..j][i] in multiset(ranked[..j]) && ranked[j..][0] in multiset(ranked[j..]);
        AppearsOnce(cs, ranked[i]);
      }
    }
    forall a | a in aliases ensures Covered(ranked, near, a) {
      assert Covered(cs, near, a);
    }
  }

  /** At most one city is strictly closest. */
  lemma StrictlyClosestIsUnique(aliases: seq<Alias>, near: string -> Option<nat>, a: string, b: string)
    requires StrictlyClosest(aliases, near, a) && StrictlyClosest(aliases, near, b)
    ensures a == b
  {
    var i: nat :| i < |aliases| && Beats(aliases, near, i, a);
    var j: nat :| j < |aliases| && Beats(aliases, near, j, b);
    assert aliases[i] in aliases && aliases[j] in aliases;
  }

  /**
   Correct a normalized spelling: an exact alias names its city; otherwise the one
   city that is strictly closest is chosen, and with no such city the caller keeps
   the traveler's own words.
   */
  method CorrectCity(aliases: seq<Alias>, key: string) returns (city: Option<string>)
    requires Unambiguous(aliases)
    ensures forall i :: 0 <= i < |aliases| && aliases[i].spelling == key ==> city == Some(aliases[i].city)
    ensures (forall i :: 0 <= i < |aliases| ==> aliases[i].spelling != key) ==>
              forall c :: city == Some(c) <==> StrictlyClosest(aliases, TypoDistance(key), c)
  {
    for i := 0 to |aliases|
      invariant forall j :: 0 <= j < i ==> aliases[j].spelling != key
    {
      if aliases[i].spelling == key {
        return Some(aliases[i].city);
      }
    }
    var candidates := Candidates(aliases, key);
    var ranked := SortRanked(candidates);
    ghost var near := TypoDistance(key);
    SortingKeepsBest(aliases, near, candidates, ranked);
    forall c | StrictlyClosest(aliases, near, c)
      ensures |ranked| > 0 && ranked[0].city == c && (|ranked| > 1 ==> ranked[1].distance > ranked[0].distance)
    {
      ClosestRanksFirst(aliases, near, ranked, c);
    }
    if |ranked| > 0 && (|ranked| == 1 || ranked[1].distance > ranked[0].distance) {
      FirstRankIsClosest(aliases, near, ranked);
      return Some(ranked[0].city);
    }
    return None;
  }
}
