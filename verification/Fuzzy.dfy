/**
 Fuzzy matching: the characters of the query must appear in the text, in order. A lower score is a better match.
 Scores are exact here; how lowercasing works is a parameter, and one model of it is at the end.
 */
module Fuzzy {
  import opened Chars
  import opened Options

  datatype FuzzyMatch = FuzzyMatch(matches: bool, score: real)

  const NO_MATCH := FuzzyMatch(false, 0.0)

  predicate IsBoundaryChar(c: char) {
    IsWhitespace(c) || c in "-_./:"
  }

  // ---------------------------------------------------------------- appearing in order

  /** `at` says where in `x` the characters of `q` are found, from left to right. */
  ghost predicate Embeds(q: string, x: string, at: seq<nat>) {
    && |at| == |q|
    && (forall k | 0 <= k < |at| :: at[k] < |x| && x[at[k]] == q[k])
    && (forall j, k | 0 <= j < k < |at| :: at[j] < at[k])
  }

  ghost predicate InOrder(q: string, x: string) {
    exists at :: Embeds(q, x, at)
  }

  /** The places the scan takes: each character of `q` at its first chance. */
  function Greedy(q: string, x: string): (at: seq<nat>)
    ensures |at| <= |q| && forall k | 0 <= k < |at| :: at[k] < |x|
    decreases |x|
  {
    if x == "" then []
    else
      var n := |x| - 1;
      var at := Greedy(q, x[..n]);
      if |at| < |q| && x[n] == q[|at|] then at + [n] else at
  }

  lemma {:induction false} GreedyEmbeds(q: string, x: string)
    ensures Embeds(q[..|Greedy(q, x)|], x, Greedy(q, x)) && |Greedy(q, x)| <= |x|
    decreases |x|
  {
    if x != "" {
      GreedyEmbeds(q, x[..|x| - 1]);
    }
  }

  /** Whatever finds characters in order, the scan has found as many, and none of them later. */
  lemma {:induction false} GreedyIsLeftmost(q: string, x: string, at: seq<nat>)
    requires |at| <= |q| && Embeds(q[..|at|], x, at)
    ensures |at| <= |Greedy(q, x)|
    ensures forall k | 0 <= k < |at| :: Greedy(q, x)[k] <= at[k]
    decreases |x|, |at|
  {
    hide Embeds, Greedy;
    EmbedsFront(q, x, at);
    if at != [] {
      var n := |x| - 1;
      var front := if at[|at| - 1] == n then at[..|at| - 1] else at;
      GreedyIsLeftmost(q, x[..n], front);
      var found := Greedy(q, x[..n]);
      GreedyStep(q, x);
      NoneLater(found, Greedy(q, x), front, at, n);
    }
  }

  lemma GreedyStep(q: string, x: string)
    requires x != ""
    ensures var n := |x| - 1;
            var found := Greedy(q, x[..n]);
            Greedy(q, x) == if |found| < |q| && x[n] == q[|found|] then found + [n] else found
  {
  }

  lemma NoneLater(found: seq<nat>, more: seq<nat>, front: seq<nat>, at: seq<nat>, n: nat)
    requires |front| <= |found| && forall k | 0 <= k < |front| :: found[k] <= front[k]
    requires at == front || at == front + [n]
    requires more == found + [n] || (more == found && |at| <= |found|)
    requires forall k | 0 <= k < |found| :: found[k] < n
    ensures |at| <= |more| && forall k | 0 <= k < |at| :: more[k] <= at[k]
  {
  }

  lemma EmbedsFront(q: string, x: string, at: seq<nat>)
    requires |at| <= |q| && Embeds(q[..|at|], x, at)
    ensures at != [] ==>
              var n := |x| - 1;
              && n >= 0 && at[|at| - 1] <= n && x[at[|at| - 1]] == q[|at| - 1]
              && var front := if at[|at| - 1] == n then at[..|at| - 1] else at;
                 Embeds(q[..|front|], x[..n], front)
  {
    if at != [] {
      var last := at[|at| - 1];
      assert last < |x|;
      forall k | 0 <= k < |at| - 1 ensures at[k] < last {
      }
    }
  }

  /** So the scan runs out of query exactly when the query appears in order at all. */
  lemma GreedyDecides(q: string, x: string)
    ensures |Greedy(q, x)| == |q| <==> InOrder(q, x)
    ensures InOrder(q, x) ==> Embeds(q, x, Greedy(q, x)) && |q| <= |x|
  {
    assert q[..|q|] == q;
    GreedyEmbeds(q, x);
    if InOrder(q, x) {
      var at :| Embeds(q, x, at);
      GreedyIsLeftmost(q, x, at);
    }
  }

  lemma InOrderIn(q: string, x: string, y: string)
    requires InOrder(q, x) && InOrder(x, y)
    ensures InOrder(q, y)
  {
    var a :| Embeds(q, x, a);
    var b :| Embeds(x, y, b);
    var c: seq<nat> := seq(|a|, k requires 0 <= k < |a| => b[a[k]]);
    assert Embeds(q, y, c);
  }

  /** A string appears in order in any string it is a stretch of. */
  lemma StretchInOrder(before: string, q: string, behind: string)
    ensures InOrder(q, before + q + behind)
  {
    var at: seq<nat> := seq(|q|, k requires 0 <= k < |q| => |before| + k);
    assert Embeds(q, before + q + behind, at);
  }

  lemma InOrderItself(q: string)
    ensures InOrder(q, q)
  {
    hide InOrder;
    StretchInOrder("", q, "");
    assert "" + q + "" == q;
  }

  // ---------------------------------------------------------------- the score

  /** How many places before `k` are adjacent to the next, up to `k`; a match at the very start counts as one. */
  function RunLength(at: seq<nat>, k: nat): nat
    requires k < |at|
  {
    if k == 0 then if at[0] == 0 then 1 else 0
    else if at[k - 1] + 1 == at[k] then RunLength(at, k - 1) + 1
    else 0
  }

  /** What the k-th matched character adds: runs and word starts are rewarded, gaps and late places cost. */
  function Points(x: string, at: seq<nat>, k: nat): real
    requires k < |at| && forall j | 0 <= j < |at| :: at[j] < |x|
  {
    var run, i: int := RunLength(at, k), at[k];
    var gap: int := if k == 0 then 0 else i - at[k - 1] - 1;
    (if run > 0 then -((run * 5) as real) else gap as real * 2.0)
    - (if i == 0 || IsBoundaryChar(x[i - 1]) then 10.0 else 0.0)
    + i as real * 0.1
  }

  function PointsTotal(x: string, at: seq<nat>, n: nat): real
    requires n <= |at| && forall j | 0 <= j < |at| :: at[j] < |x|
  {
    if n == 0 then 0.0 else PointsTotal(x, at, n - 1) + Points(x, at, n - 1)
  }

  ghost function Matched(q: string, x: string): FuzzyMatch {
    if q == "" then FuzzyMatch(true, 0.0)
    else if !InOrder(q, x) then NO_MATCH
    else FuzzyMatch(true, PointsTotal(x, Greedy(q, x), |Greedy(q, x)|) - (if q == x then 100.0 else 0.0))
  }

  /** What the scan has to add for one more place. */
  lemma OneMorePlace(x: string, at: seq<nat>, i: nat)
    requires i < |x| && forall j | 0 <= j < |at| :: at[j] < i
    ensures var run := if at == [] then if i == 0 then 1 else 0
                       else if at[|at| - 1] + 1 == i then RunLength(at, |at| - 1) + 1 else 0;
            var gap: int := if at == [] then 0 else i - at[|at| - 1] - 1;
            && RunLength(at + [i], |at|) == run
            && PointsTotal(x, at + [i], |at| + 1) ==
               PointsTotal(x, at, |at|)
               + (if run > 0 then -((run * 5) as real) else gap as real * 2.0)
               - (if i == 0 || IsBoundaryChar(x[i - 1]) then 10.0 else 0.0)
               + i as real * 0.1
  {
    PointsPrefix(x, at, i, |at|);
    if at != [] {
      RunPrefix(at, i, |at| - 1);
    }
  }

  lemma PointsPrefix(x: string, at: seq<nat>, more: nat, n: nat)
    requires n <= |at| && forall j | 0 <= j < |at| :: at[j] < |x|
    requires more < |x|
    ensures PointsTotal(x, at + [more], n) == PointsTotal(x, at, n)
  {
    if n > 0 {
      PointsPrefix(x, at, more, n - 1);
      RunPrefix(at, more, n - 1);
    }
  }

  lemma RunPrefix(at: seq<nat>, more: nat, k: nat)
    requires k < |at|
    ensures RunLength(at + [more], k) == RunLength(at, k)
  {
  }

  lemma MatchedMeans(q: string, x: string)
    ensures q == "" ==> Matched(q, x) == FuzzyMatch(true, 0.0)
    ensures q != "" && |Greedy(q, x)| < |q| ==> Matched(q, x) == NO_MATCH
    ensures |q| > |x| ==> |Greedy(q, x)| < |q|
    ensures q != "" && |Greedy(q, x)| == |q| ==>
              Matched(q, x) == FuzzyMatch(true, PointsTotal(x, Greedy(q, x), |q|) - (if q == x then 100.0 else 0.0))
  {
    GreedyDecides(q, x);
  }

  /** The scan's variables after `i` characters of the text. */
  ghost predicate Scanned(q: string, x: string, i: nat, queryIndex: nat, score: real, last: int, run: nat)
    requires i <= |x|
  {
    var at := Greedy(q, x[..i]);
    && queryIndex == |at|
    && score == PointsTotal(x, at, |at|)
    && last == (if at == [] then -1 else at[|at| - 1])
    && run == (if at == [] then 0 else RunLength(at, |at| - 1))
  }

  lemma ScanStarts(q: string, x: string)
    ensures Scanned(q, x, 0, 0, 0.0, -1, 0)
  {
  }

  lemma ScanMoves(q: string, x: string, i: nat, queryIndex: nat, score: real, last: int, run: nat)
    requires i < |x| && Scanned(q, x, i, queryIndex, score, last, run)
    ensures !(queryIndex < |q| && x[i] == q[queryIndex]) ==> Scanned(q, x, i + 1, queryIndex, score, last, run)
    ensures queryIndex < |q| && x[i] == q[queryIndex] ==>
              var run' := if last == i - 1 then run + 1 else 0;
              var score' := score
                            + (if last == i - 1 then -((run' * 5) as real)
                               else if last >= 0 then (i - last - 1) as real * 2.0 else 0.0)
                            - (if i == 0 || IsBoundaryChar(x[i - 1]) then 10.0 else 0.0)
                            + i as real * 0.1;
              Scanned(q, x, i + 1, queryIndex + 1, score', i, run')
  {
    hide RunLength, Points, PointsTotal, IsBoundaryChar;
    assert x[..i + 1][..i] == x[..i];
    OneMorePlace(x, Greedy(q, x[..i]), i);
  }

  /** `match_query`: one scan of the text. */
  method MatchQuery(query: string, text: string) returns (r: FuzzyMatch)
    ensures r == Matched(query, text)
  {
    hide RunLength, Points, IsBoundaryChar, Matched, InOrder, Scanned, Greedy, PointsTotal;
    MatchedMeans(query, text);
    if query == "" {
      return FuzzyMatch(true, 0.0);
    }
    if |query| > |text| {
      return NO_MATCH;
    }
    var queryIndex, score, lastMatchIndex, consecutiveMatches := 0, 0.0, -1, 0;
    ScanStarts(query, text);
    var i := 0;
    while i < |text| && queryIndex < |query|
      invariant 0 <= i <= |text|
      invariant Scanned(query, text, i, queryIndex, score, lastMatchIndex, consecutiveMatches)
    {
      ScanMoves(query, text, i, queryIndex, score, lastMatchIndex, consecutiveMatches);
      if text[i] == query[queryIndex] {
        var isWordBoundary := i == 0 || IsBoundaryChar(text[i - 1]);
        if lastMatchIndex == i - 1 {
          consecutiveMatches := consecutiveMatches + 1;
          score := score - (consecutiveMatches * 5) as real;
        } else {
          consecutiveMatches := 0;
          if lastMatchIndex >= 0 {
            score := score + (i - lastMatchIndex - 1) as real * 2.0;
          }
        }
        if isWordBoundary {
          score := score - 10.0;
        }
        score := score + i as real * 0.1;
        lastMatchIndex := i;
        queryIndex := queryIndex + 1;
      }
      i := i + 1;
    }
    ScanEnds(query, text, i, queryIndex, score, lastMatchIndex, consecutiveMatches);
    if queryIndex < |query| {
      return NO_MATCH;
    }
    if query == text {
      score := score - 100.0;
    }
    r := FuzzyMatch(true, score);
  }

  lemma ScanEnds(q: string, x: string, i: nat, queryIndex: nat, score: real, last: int, run: nat)
    requires i <= |x| && Scanned(q, x, i, queryIndex, score, last, run)
    requires i == |x| || queryIndex >= |q|
    ensures queryIndex == |Greedy(q, x)| <= |q| && score == PointsTotal(x, Greedy(q, x), queryIndex)
  {
    GreedyStops(q, x, i);
  }

  /** Once the query is used up, the rest of the text does not matter. */
  lemma {:induction false} GreedyStops(q: string, x: string, i: nat)
    requires i <= |x| && (i == |x| || |Greedy(q, x[..i])| == |q|)
    ensures Greedy(q, x) == Greedy(q, x[..i])
    decreases |x|
  {
    if i == |x| {
      assert x[..i] == x;
    } else {
      var n := |x| - 1;
      assert x[..n][..i] == x[..i];
      GreedyStops(q, x[..n], i);
    }
  }

  // ---------------------------------------------------------------- the transposed form

  predicate IsLower(c: char) { 'a' <= c <= 'z' }

  predicate IsDigit(c: char) { '0' <= c <= '9' }

  predicate InClass(letters: bool, c: char) {
    if letters then IsLower(c) else IsDigit(c)
  }

  predicate AllIn(letters: bool, s: string) {
    forall k | 0 <= k < |s| :: InClass(letters, s[k])
  }

  /** `s` is letters up to `i` and digits from there on, or the other way round; neither part is empty. */
  predicate IsCut(s: string, i: nat, letters: bool) {
    0 < i < |s| && AllIn(letters, s[..i]) && AllIn(!letters, s[i..])
  }

  /** The token with its two parts exchanged, if it is made of two such parts. */
  ghost function Swapped(s: string): (r: Option<string>)
    ensures r.Some? <==> exists i: nat, letters :: IsCut(s, i, letters)
    ensures forall i: nat, letters | IsCut(s, i, letters) :: r == Some(s[i..] + s[..i])
  {
    if i: nat, letters: bool :| IsCut(s, i, letters) then
      assert forall j, l | IsCut(s, j, l) :: j == i by {
        forall j, l | IsCut(s, j, l) ensures j == i { OneCut(s, i, letters, j, l); }
      }
      Some(s[i..] + s[..i])
    else None
  }

  lemma ClassesAt(s: string, i: nat, letters: bool, k: nat)
    requires IsCut(s, i, letters) && k < |s|
    ensures InClass(letters, s[k]) <==> k < i
  {
    if k < i {
      assert s[..i][k] == s[k];
    } else {
      assert s[i..][k - i] == s[k];
    }
  }

  lemma OneCut(s: string, i: nat, letters: bool, j: nat, l: bool)
    requires IsCut(s, i, letters) && IsCut(s, j, l)
    ensures i == j && letters == l
  {
    hide AllIn;
    assert 0 < i < |s| && 0 < j < |s|;
    ClassesAt(s, i, letters, 0);
    ClassesAt(s, j, l, 0);
    ClassesAt(s, i, letters, i);
    ClassesAt(s, j, l, i);
    ClassesAt(s, i, letters, j);
    ClassesAt(s, j, l, j);
  }

  /** Split off the leading letters (or digits), if all that follows is of the other class. */
  method Split(s: string, firstIsLetters: bool) returns (cut: Option<nat>)
    ensures cut.Some? ==> IsCut(s, cut.value, firstIsLetters)
    ensures cut.None? ==> forall i :: !IsCut(s, i, firstIsLetters)
  {
    var i := 0;
    while i < |s| && InClass(firstIsLetters, s[i])
      invariant 0 <= i <= |s| && AllIn(firstIsLetters, s[..i])
    {
      i := i + 1;
    }
    forall m | IsCut(s, m, firstIsLetters) ensures m == i && 0 < i < |s| {
      CutIsHere(s, m, firstIsLetters, i);
    }
    if i == 0 || i == |s| {
      return None;
    }
    var j := i;
    while j < |s| && InClass(!firstIsLetters, s[j])
      invariant i <= j <= |s| && AllIn(!firstIsLetters, s[i..j])
    {
      assert s[i..j + 1] == s[i..j] + [s[j]];
      j := j + 1;
    }
    if j < |s| {
      assert s[i..][j - i] == s[j];
      return None;
    }
    assert s[i..j] == s[i..];
    cut := Some(i);
  }

  /** Where the first scan stops is the only place a cut of this kind can be. */
  lemma CutIsHere(s: string, m: nat, letters: bool, i: nat)
    requires IsCut(s, m, letters)
    requires i <= |s| && AllIn(letters, s[..i]) && (i < |s| ==> !InClass(letters, s[i]))
    ensures m == i && 0 < i < |s|
  {
    assert m < i ==> s[..i][m] == s[m];
    ClassesAt(s, m, letters, m);
    if i < |s| {
      ClassesAt(s, m, letters, i);
    }
  }

  /** `swap_alpha_numeric`. */
  method SwapAlphaNumeric(s: string) returns (r: Option<string>)
    ensures r == Swapped(s)
  {
    hide AllIn;
    var cut := Split(s, true);
    if cut.None? {
      cut := Split(s, false);
    }
    if cut.None? {
      assert forall i, letters :: !IsCut(s, i, letters);
      return None;
    }
    r := Some(s[cut.value..] + s[..cut.value]);
  }

  // ---------------------------------------------------------------- matching one token

  /** The transposed form of a token; a token without one is its own. */
  ghost function Transposed(q: string): string {
    Swapped(q).GetOr(q)
  }

  /** A lowered token is found in a text that has it, or its transposed form, in order. */
  ghost predicate Found(q: string, x: string) {
    InOrder(q, x) || InOrder(Transposed(q), x)
  }

  lemma MatchedIff(q: string, x: string)
    ensures Matched(q, x).matches <==> InOrder(q, x)
  {
    if q == "" {
      assert Embeds(q, x, []);
    }
  }

  /** `fuzzy_match`, given the lowered token and text. */
  ghost function LoweredMatch(q: string, x: string): (r: FuzzyMatch)
    ensures r.matches <==> Found(q, x)
  {
    MatchedIff(q, x);
    MatchedIff(Transposed(q), x);
    if Matched(q, x).matches || Swapped(q).None? || !Matched(Transposed(q), x).matches then Matched(q, x)
    else FuzzyMatch(true, Matched(Transposed(q), x).score + 5.0)
  }

  ghost function TokenMatch(lower: string -> string, token: string, text: string): FuzzyMatch {
    LoweredMatch(lower(token), lower(text))
  }

  method FuzzyMatchToken(lower: string -> string, query: string, text: string) returns (r: FuzzyMatch)
    ensures r == TokenMatch(lower, query, text)
  {
    var queryLower, textLower := lower(query), lower(text);
    r := MatchQuery(queryLower, textLower);
    if r.matches {
      return;
    }
    var swappedQuery := SwapAlphaNumeric(queryLower);
    if swappedQuery.None? {
      return;
    }
    var swapped := MatchQuery(swappedQuery.value, textLower);
    if swapped.matches {
      r := FuzzyMatch(true, swapped.score + 5.0);
    }
  }

  // ---------------------------------------------------------------- longer tokens

  /** Both forms of the longer token have a form of the shorter one in them. */
  ghost predicate Covers(q: string, longer: string) {
    Found(q, longer) && Found(q, Transposed(longer))
  }

  /** That is exactly when whatever the longer token is found in, the shorter one is found in. */
  lemma CoversMeans(q: string, longer: string)
    ensures Covers(q, longer) <==> forall x | Found(longer, x) :: Found(q, x)
  {
    InOrderItself(longer);
    InOrderItself(Transposed(longer));
    assert Found(longer, longer) && Found(longer, Transposed(longer));
    if Covers(q, longer) {
      forall x | Found(longer, x) ensures Found(q, x) {
        FoundIn(q, if InOrder(longer, x) then longer else Transposed(longer), x);
      }
    }
  }

  lemma FoundIn(q: string, f: string, x: string)
    requires Found(q, f) && InOrder(f, x)
    ensures Found(q, x)
  {
    hide InOrder;
    if InOrder(q, f) {
      InOrderIn(q, f, x);
    } else {
      InOrderIn(Transposed(q), f, x);
    }
  }

  /** A token that only grows at its end keeps every match, transposed or not. */
  lemma PrefixCovers(q: string, longer: string)
    requires q <= longer
    ensures Covers(q, longer)
  {
    hide InOrder;
    assert "" + q + longer[|q|..] == longer;
    StretchInOrder("", q, longer[|q|..]);
    if i, letters :| IsCut(longer, i, letters) {
      PrefixTransposed(q, longer, i, letters);
    }
  }

  lemma PrefixTransposed(q: string, longer: string, i: nat, letters: bool)
    requires q <= longer && IsCut(longer, i, letters)
    ensures Found(q, longer[i..] + longer[..i])
  {
    hide InOrder;
    var a, b := longer[..i], longer[i..];
    if |q| <= i {
      assert b + q + a[|q|..] == b + a;
      StretchInOrder(b, q, a[|q|..]);
    } else {
      assert q[..i] == a && q[i..] == b[..|q| - i];
      assert IsCut(q, i, letters);
      SameTailInOrder(q[i..], b, a);
    }
  }

  lemma SameTailInOrder(short: string, long: string, tail: string)
    requires short <= long
    ensures InOrder(short + tail, long + tail)
  {
    var at: seq<nat> := seq(|short| + |tail|,
      k requires 0 <= k < |short| + |tail| => if k < |short| then k else k - |short| + |long|);
    assert Embeds(short + tail, long + tail, at);
  }

  /** Lowering leaves alone what it has lowered, and the transpositions of that. */
  ghost predicate Settles(lower: string -> string) {
    forall s :: lower(lower(s)) == lower(s) && lower(Transposed(lower(s))) == Transposed(lower(s))
  }

  /** One more character loses a match exactly if it leaves the lowered token uncovered. */
  lemma LongerTokenMatchesLess(lower: string -> string, token: string, longer: string)
    requires Settles(lower)
    ensures Covers(lower(token), lower(longer)) <==>
            forall h | TokenMatch(lower, longer, h).matches :: TokenMatch(lower, token, h).matches
  {
    hide InOrder, Found;
    var q, l := lower(token), lower(longer);
    CoversMeans(q, l);
    if forall h | TokenMatch(lower, longer, h).matches :: TokenMatch(lower, token, h).matches {
      BothFormsFound(l);
      assert lower(l) == l && lower(Transposed(l)) == Transposed(l);
      assert TokenMatch(lower, longer, l).matches && TokenMatch(lower, longer, Transposed(l)).matches;
    }
  }

  lemma BothFormsFound(q: string)
    ensures Found(q, q) && Found(q, Transposed(q))
  {
    InOrderItself(q);
    InOrderItself(Transposed(q));
  }

  // ---------------------------------------------------------------- lowercasing

  /**
   How lowercasing goes: character by character, except for the capital sigma, which becomes
   the final small one where a cased letter comes before it and none after it.
   */
  datatype Folding = Folding(each: char -> string, cased: char -> bool, ignorable: char -> bool)

  const SIGMA := '\U{3A3}'
  const SMALL_SIGMA := '\U{3C3}'
  const FINAL_SIGMA := '\U{3C2}'

  predicate EndsCased(f: Folding, s: string)
    decreases |s|
  {
    s != "" && if f.ignorable(s[|s| - 1]) then EndsCased(f, s[..|s| - 1]) else f.cased(s[|s| - 1])
  }

  predicate StartsCased(f: Folding, s: string) {
    s != "" && if f.ignorable(s[0]) then StartsCased(f, s[1..]) else f.cased(s[0])
  }

  function LowerAt(f: Folding, s: string, i: nat): string
    requires i < |s|
  {
    if s[i] != SIGMA then f.each(s[i])
    else if EndsCased(f, s[..i]) && !StartsCased(f, s[i + 1..]) then [FINAL_SIGMA]
    else [SMALL_SIGMA]
  }

  function LowerUpTo(f: Folding, s: string, n: nat): string
    requires n <= |s|
  {
    if n == 0 then "" else LowerUpTo(f, s, n - 1) + LowerAt(f, s, n - 1)
  }

  function Lower(f: Folding, s: string): string {
    LowerUpTo(f, s, |s|)
  }

  predicate AllIgnorable(f: Folding, s: string) {
    forall k | 0 <= k < |s| :: f.ignorable(s[k])
  }

  /** A final sigma at `i` that the next cased letter would turn into an ordinary one. */
  predicate OpenSigma(f: Folding, s: string, i: nat) {
    i < |s| && s[i] == SIGMA && EndsCased(f, s[..i]) && AllIgnorable(f, s[i + 1..])
  }

  lemma {:induction false} StartsCasedGrows(f: Folding, s: string, c: char)
    ensures StartsCased(f, s + [c]) <==> StartsCased(f, s) || (AllIgnorable(f, s) && f.cased(c) && !f.ignorable(c))
    ensures AllIgnorable(f, s) ==> !StartsCased(f, s)
  {
    if s == "" {
      assert "" + [c] == [c];
    } else {
      assert (s + [c])[1..] == s[1..] + [c];
      StartsCasedGrows(f, s[1..], c);
      assert AllIgnorable(f, s) <==> f.ignorable(s[0]) && AllIgnorable(f, s[1..]) by {
        assert s == [s[0]] + s[1..];
      }
    }
  }

  lemma LowerAtGrows(f: Folding, s: string, c: char, i: nat)
    requires i < |s|
    ensures var closes := OpenSigma(f, s, i) && f.cased(c) && !f.ignorable(c);
            && (!closes ==> LowerAt(f, s + [c], i) == LowerAt(f, s, i))
            && (closes ==> LowerAt(f, s, i) == [FINAL_SIGMA] && LowerAt(f, s + [c], i) == [SMALL_SIGMA])
  {
    assert (s + [c])[..i] == s[..i] && (s + [c])[i + 1..] == s[i + 1..] + [c];
    StartsCasedGrows(f, s[i + 1..], c);
  }

  /** Up to `n`, a longer text lowers to the same as long as no open sigma is closed. */
  lemma {:induction false} LowerUpToGrows(f: Folding, s: string, c: char, n: nat)
    requires n <= |s|
    requires f.cased(c) && !f.ignorable(c) ==> forall i: nat | i < n :: !OpenSigma(f, s, i)
    ensures LowerUpTo(f, s + [c], n) == LowerUpTo(f, s, n)
  {
    if n > 0 {
      LowerUpToGrows(f, s, c, n - 1);
      LowerAtGrows(f, s, c, n - 1);
    }
  }

  lemma {:induction false} LowerUpToPrefix(f: Folding, s: string, i: nat, n: nat)
    requires i <= n <= |s|
    ensures LowerUpTo(f, s, i) <= LowerUpTo(f, s, n)
    ensures i < n ==> LowerUpTo(f, s, i) + LowerAt(f, s, i) <= LowerUpTo(f, s, n)
    decreases n
  {
    if i < n - 1 {
      LowerUpToPrefix(f, s, i, n - 1);
    }
  }

  /** Typing one more character extends the lowered text, unless it is a cased letter that closes a final sigma. */
  lemma LoweredTextGrows(f: Folding, s: string, c: char)
    ensures Lower(f, s) <= Lower(f, s + [c]) <==>
            !(f.cased(c) && !f.ignorable(c) && exists i: nat :: OpenSigma(f, s, i))
  {
    var t := s + [c];
    if f.cased(c) && !f.ignorable(c) && exists i: nat :: OpenSigma(f, s, i) {
      var i := FirstOpen(f, s);
      LowerUpToGrows(f, s, c, i);
      LowerAtGrows(f, s, c, i);
      LowerUpToPrefix(f, s, i, |s|);
      LowerUpToPrefix(f, t, i, |t|);
      var k := |LowerUpTo(f, s, i)|;
      assert Lower(f, s)[k] == FINAL_SIGMA && Lower(f, t)[k] == SMALL_SIGMA by {
        assert (LowerUpTo(f, s, i) + [FINAL_SIGMA])[k] == FINAL_SIGMA;
        assert (LowerUpTo(f, s, i) + [SMALL_SIGMA])[k] == SMALL_SIGMA;
      }
    } else {
      LowerUpToGrows(f, s, c, |s|);
      LowerUpToPrefix(f, t, |s|, |t|);
    }
  }

  lemma FirstOpen(f: Folding, s: string) returns (i: nat)
    requires exists j: nat :: OpenSigma(f, s, j)
    ensures OpenSigma(f, s, i) && forall j: nat | j < i :: !OpenSigma(f, s, j)
  {
    i := 0;
    while !OpenSigma(f, s, i)
      invariant forall j: nat | j < i :: !OpenSigma(f, s, j)
      decreases |s| - i
    {
      i := i + 1;
    }
  }

  /** Without a capital sigma, what is typed later never changes what was lowered before. */
  lemma {:induction false} NoSigmaLowersInOrder(f: Folding, s: string, t: string)
    requires s <= t && SIGMA !in t
    ensures Lower(f, s) <= Lower(f, t)
    decreases |t|
  {
    if s != t {
      var front := t[..|t| - 1];
      assert t == front + [t[|t| - 1]];
      NoSigmaLowersInOrder(f, s, front);
      LoweredTextGrows(f, front, t[|t| - 1]);
    }
  }

  /** What Unicode guarantees of the single characters: what is lowered is not lowered again. */
  ghost predicate Plain(f: Folding) {
    && (forall c :: SIGMA !in f.each(c))
    && (forall c, d | d in f.each(c) :: f.each(d) == [d])
    && f.each(SMALL_SIGMA) == [SMALL_SIGMA] && f.each(FINAL_SIGMA) == [FINAL_SIGMA]
    && (forall c | IsLower(c) || IsDigit(c) :: f.each(c) == [c])
  }

  ghost predicate Fixed(f: Folding, s: string) {
    forall k | 0 <= k < |s| :: s[k] != SIGMA && f.each(s[k]) == [s[k]]
  }

  lemma {:induction false} FixedStays(f: Folding, s: string, n: nat)
    requires Fixed(f, s) && n <= |s|
    ensures LowerUpTo(f, s, n) == s[..n]
  {
    if n > 0 {
      FixedStays(f, s, n - 1);
      assert s[..n] == s[..n - 1] + [s[n - 1]];
    }
  }

  lemma {:induction false} LoweredIsFixed(f: Folding, s: string, n: nat)
    requires Plain(f) && n <= |s|
    ensures Fixed(f, LowerUpTo(f, s, n))
  {
    if n > 0 {
      LoweredIsFixed(f, s, n - 1);
      LoweredCharIsFixed(f, s, n - 1);
    }
  }

  lemma LoweredCharIsFixed(f: Folding, s: string, i: nat)
    requires Plain(f) && i < |s|
    ensures Fixed(f, LowerAt(f, s, i))
  {
    var l := LowerAt(f, s, i);
    if s[i] == SIGMA {
      assert l == [FINAL_SIGMA] || l == [SMALL_SIGMA];
    } else {
      forall k | 0 <= k < |l| ensures l[k] != SIGMA && f.each(l[k]) == [l[k]] {
        assert l[k] in f.each(s[i]);
      }
    }
  }

  lemma FoldingSettles(f: Folding)
    requires Plain(f)
    ensures Settles(s => Lower(f, s))
  {
    hide Plain, LowerUpTo;
    forall s
      ensures Lower(f, Lower(f, s)) == Lower(f, s)
      ensures Lower(f, Transposed(Lower(f, s))) == Transposed(Lower(f, s))
    {
      var q := Lower(f, s);
      LoweredIsFixed(f, s, |s|);
      FixedStays(f, q, |q|);
      if i: nat, letters: bool :| IsCut(q, i, letters) {
        FixedStays(f, q[i..] + q[..i], |q|);
      }
    }
  }
}
