/**
 The model picker: a list narrowed keystroke by keystroke, a selection and a viewport that follow it, and a cached
 rendering. Narrowing only looks at the rows that survived so far; this is when it equals looking at all of them.
 */
module PickerFilter {
  import opened Chars
  import opened Fuzzy
  import opened Options

  // ---------------------------------------------------------------- filter text and its tokens

  predicate IsSeparator(c: char) {
    IsWhitespace(c) || c == '/'
  }

  /** `split`: the stretches between separators, empty ones included. */
  function Pieces(s: string): (ps: seq<string>)
    ensures ps != []
    decreases |s|
  {
    if s == "" then [""]
    else
      var ps, c := Pieces(s[..|s| - 1]), s[|s| - 1];
      if IsSeparator(c) then ps + [""] else ps[..|ps| - 1] + [ps[|ps| - 1] + [c]]
  }

  function SplitQueryTokens(query: string): seq<string> {
    NonEmpty(Pieces(query))
  }

  lemma PiecesPush(s: string, c: char)
    ensures Pieces(s + [c]) ==
            if IsSeparator(c) then Pieces(s) + [""]
            else Pieces(s)[..|Pieces(s)| - 1] + [Pieces(s)[|Pieces(s)| - 1] + [c]]
  {
    assert (s + [c])[..|s + [c]| - 1] == s;
  }

  /** One more character leaves the tokens alone, starts a token, or makes the last one longer. */
  lemma TokensPush(s: string, c: char)
    ensures var was, grown := SplitQueryTokens(s), SplitQueryTokens(s + [c]);
      || grown == was
      || grown == was + [[c]]
      || (was != [] && grown == was[..|was| - 1] + [was[|was| - 1] + [c]])
  {
    PiecesPush(s, c);
    var ps := Pieces(s);
    var init := ps[..|ps| - 1];
    if IsSeparator(c) {
      assert (ps + [""])[..|ps|] == ps;
    } else {
      var grown := init + [ps[|ps| - 1] + [c]];
      assert grown[..|ps| - 1] == init;
      assert SplitQueryTokens(s + [c]) == NonEmpty(init) + [ps[|ps| - 1] + [c]];
      if ps[|ps| - 1] == "" {
        assert SplitQueryTokens(s) == NonEmpty(init);
        assert [c] == "" + [c];
      } else {
        assert SplitQueryTokens(s) == NonEmpty(init) + [ps[|ps| - 1]];
      }
    }
  }

  lemma {:induction false} EmptyBefore(ps: seq<string>)
    ensures NonEmpty([""] + ps) == NonEmpty(ps)
    decreases |ps|
  {
    if ps == [] {
      assert ([""] + ps)[..0] == [];
    } else {
      assert ([""] + ps)[..|ps|] == [""] + ps[..|ps| - 1];
      EmptyBefore(ps[..|ps| - 1]);
    }
  }

  lemma NoPieces()
    ensures Pieces("") == [""]
  {
  }

  lemma {:induction false} SpaceBefore(w: char, s: string)
    requires IsWhitespace(w)
    ensures Pieces([w] + s) == [""] + Pieces(s)
    decreases |s|
  {
    hide IsWhitespace, Pieces;
    if s == "" {
      PiecesPush("", w);
      NoPieces();
      assert [w] + s == "" + [w];
    } else {
      var init, c := s[..|s| - 1], s[|s| - 1];
      SpaceBefore(w, init);
      assert [w] + s == ([w] + init) + [c] && s == init + [c];
      PiecesPush([w] + init, c);
      PiecesPush(init, c);
      assert ([""] + Pieces(init))[..|Pieces(init)|] == [""] + Pieces(init)[..|Pieces(init)| - 1];
    }
  }

  lemma {:induction false} TokensOfTrimEnd(s: string)
    ensures SplitQueryTokens(TrimEnd(s)) == SplitQueryTokens(s)
    decreases |s|
  {
    if s != "" && IsWhitespace(s[|s| - 1]) {
      var init := s[..|s| - 1];
      TokensOfTrimEnd(init);
      assert (Pieces(init) + [""])[..|Pieces(init)|] == Pieces(init);
    }
  }

  lemma {:induction false} TokensOfTrim(s: string)
    ensures SplitQueryTokens(Trim(s)) == SplitQueryTokens(s)
  {
    TokensOfTrimEnd(TrimStart(s));
    TokensOfTrimStart(s);
  }

  lemma {:induction false} TokensOfTrimStart(s: string)
    ensures SplitQueryTokens(TrimStart(s)) == SplitQueryTokens(s)
  {
    if s != "" && IsWhitespace(s[0]) {
      TokensOfTrimStart(s[1..]);
      SpaceBefore(s[0], s[1..]);
      EmptyBefore(Pieces(s[1..]));
      assert [s[0]] + s[1..] == s;
    }
  }

  // ---------------------------------------------------------------- matching and ranking

  ghost predicate MatchesAll(lower: string -> string, tokens: seq<string>, haystack: string) {
    forall t <- tokens :: TokenMatch(lower, t, haystack).matches
  }

  ghost function Total(lower: string -> string, tokens: seq<string>, haystack: string): real
    decreases |tokens|
  {
    if tokens == [] then 0.0
    else Total(lower, tokens[..|tokens| - 1], haystack) + TokenMatch(lower, tokens[|tokens| - 1], haystack).score
  }

  /** Lower score first, then lower index. */
  predicate Before(a: (nat, real), b: (nat, real)) {
    a.1 < b.1 || (a.1 == b.1 && a.0 < b.0)
  }

  ghost predicate Ascending(s: seq<(nat, real)>) {
    forall i, j | 0 <= i < j < |s| :: Before(s[i], s[j])
  }

  function Insert(x: (nat, real), s: seq<(nat, real)>): (r: seq<(nat, real)>)
    requires Ascending(s) && forall y <- s :: y.0 != x.0
    ensures Ascending(r) && forall y :: y in r <==> y == x || y in s
  {
    if s == [] then [x]
    else if Before(x, s[0]) then [x] + s
    else
      var rest := Insert(x, s[1..]);
      assert forall y <- rest :: Before(s[0], y);
      [s[0]] + rest
  }

  ghost predicate DistinctIndices(s: seq<(nat, real)>) {
    forall i, j | 0 <= i < j < |s| :: s[i].0 != s[j].0
  }

  /** The library sort, by score and then index. */
  function Sorted(s: seq<(nat, real)>): (r: seq<(nat, real)>)
    requires DistinctIndices(s)
    ensures Ascending(r) && forall y :: y in r <==> y in s
  {
    if s == [] then [] else
      assert forall y <- s[1..] :: y.0 != s[0].0;
      Insert(s[0], Sorted(s[1..]))
  }

  function Indices(s: seq<(nat, real)>): (r: seq<nat>)
    ensures |r| == |s| && forall i | 0 <= i < |s| :: r[i] == s[i].0
  {
    if s == [] then [] else [s[0].0] + Indices(s[1..])
  }

  function AllIndices(n: nat): (r: seq<nat>)
    ensures |r| == n && forall i | 0 <= i < n :: r[i] == i
  {
    seq(n, i requires 0 <= i < n => i)
  }

  ghost function Scored(lower: string -> string, haystacks: seq<string>, tokens: seq<string>, i: nat): (nat, real)
    requires i < |haystacks|
  {
    (i, Total(lower, tokens, haystacks[i]))
  }

  predicate InRange(s: seq<nat>, n: nat) {
    forall j | 0 <= j < |s| :: s[j] < n
  }

  ghost predicate Ordered(lower: string -> string, haystacks: seq<string>, tokens: seq<string>, r: seq<nat>)
    requires InRange(r, |haystacks|)
  {
    forall j, k | 0 <= j < k < |r| ::
      Before(Scored(lower, haystacks, tokens, r[j]), Scored(lower, haystacks, tokens, r[k]))
  }

  /** `r` is the part of `base` that matches every token, best first. */
  ghost predicate Ranks(lower: string -> string, haystacks: seq<string>, tokens: seq<string>, base: seq<nat>,
                        r: seq<nat>) {
    && InRange(r, |haystacks|)
    && (forall i: nat | i < |haystacks| :: i in r <==> i in base && MatchesAll(lower, tokens, haystacks[i]))
    && Ordered(lower, haystacks, tokens, r)
  }

  ghost predicate Distinct(s: seq<nat>) {
    forall j, k | 0 <= j < k < |s| :: s[j] != s[k]
  }

  lemma TailMembers(lower: string -> string, haystacks: seq<string>, tokens: seq<string>, r: seq<nat>)
    requires r != [] && InRange(r, |haystacks|) && Ordered(lower, haystacks, tokens, r)
    ensures InRange(r[1..], |haystacks|) && Ordered(lower, haystacks, tokens, r[1..])
    ensures forall i: nat :: i in r[1..] <==> i in r && i != r[0]
    ensures forall i: nat :: i in r && i != r[0] ==>
      i < |haystacks| && Before(Scored(lower, haystacks, tokens, r[0]), Scored(lower, haystacks, tokens, i))
  {
    hide Total;
    forall i: nat ensures i in r[1..] <==> i in r && i != r[0] {
      if i in r[1..] {
        var p :| 0 < p < |r| && r[p] == i;
        assert Before(Scored(lower, haystacks, tokens, r[0]), Scored(lower, haystacks, tokens, r[p]));
      }
    }
  }

  /** Two orderings of the same rows are the same list. */
  lemma {:induction false} SameMembersSameOrder(lower: string -> string, haystacks: seq<string>, tokens: seq<string>,
                                                a: seq<nat>, b: seq<nat>)
    requires InRange(a, |haystacks|) && InRange(b, |haystacks|)
    requires Ordered(lower, haystacks, tokens, a) && Ordered(lower, haystacks, tokens, b)
    requires forall i: nat :: i in a <==> i in b
    ensures a == b
    decreases |a|
  {
    hide Total;
    assert |b| > 0 ==> b[0] in a;
    if a != [] {
      assert a[0] in b && b[0] in a;
      TailMembers(lower, haystacks, tokens, a);
      TailMembers(lower, haystacks, tokens, b);
      assert a[0] == b[0];
      assert a == [a[0]] + a[1..] && b == [b[0]] + b[1..];
      SameMembersSameOrder(lower, haystacks, tokens, a[1..], b[1..]);
    }
  }

  /** There is only one ranking. */
  lemma RankingIsUnique(lower: string -> string, haystacks: seq<string>, tokens: seq<string>, base: seq<nat>,
                        a: seq<nat>, b: seq<nat>)
    requires Ranks(lower, haystacks, tokens, base, a) && Ranks(lower, haystacks, tokens, base, b)
    ensures a == b
  {
    hide MatchesAll, Ordered;
    assert forall i: nat :: i in a || i in b ==> i < |haystacks|;
    SameMembersSameOrder(lower, haystacks, tokens, a, b);
  }

  /** Every token must match; the scores add up. */
  method ScoreRow(lower: string -> string, tokens: seq<string>, haystack: string) returns (allMatch: bool, total: real)
    ensures allMatch <==> MatchesAll(lower, tokens, haystack)
    ensures allMatch ==> total == Total(lower, tokens, haystack)
  {
    hide TokenMatch;
    total, allMatch := 0.0, true;
    for k := 0 to |tokens|
      invariant allMatch && MatchesAll(lower, tokens[..k], haystack)
      invariant total == Total(lower, tokens[..k], haystack)
    {
      assert tokens[..k + 1][..k] == tokens[..k];
      var m := FuzzyMatchToken(lower, tokens[k], haystack);
      if m.matches {
        total := total + m.score;
      } else {
        allMatch := false;
        assert tokens[k] in tokens;
        return;
      }
    }
    assert tokens[..|tokens|] == tokens;
  }

  method ScoreCandidates(lower: string -> string, haystacks: seq<string>, filtered: seq<nat>, query: string)
    returns (scored: seq<(nat, real)>)
    requires Distinct(filtered) && InRange(filtered, |haystacks|)
    ensures SplitQueryTokens(query) == [] ==> Indices(scored) == filtered
    ensures SplitQueryTokens(query) != [] ==>
              Ranks(lower, haystacks, SplitQueryTokens(query), filtered, Indices(scored))
  {
    hide Total, MatchesAll, SplitQueryTokens;
    scored := [];
    var tokens := SplitQueryTokens(query);
    if tokens == [] {
      scored := seq(|filtered|, i requires 0 <= i < |filtered| => (filtered[i], 0.0));
      return;
    }
    for n := 0 to |filtered|
      invariant Survivors(lower, haystacks, tokens, filtered[..n], scored)
      invariant DistinctIndices(scored)
    {
      var idx := filtered[n];
      var allMatch, total := ScoreRow(lower, tokens, haystacks[idx]);
      assert filtered[..n + 1] == filtered[..n] + [idx];
      if allMatch {
        SurvivorAdded(lower, haystacks, tokens, filtered[..n], scored, idx);
        scored := scored + [(idx, total)];
      }
    }
    assert filtered[..|filtered|] == filtered;
    var unsorted := scored;
    scored := Sorted(unsorted);
    SortedRanks(lower, haystacks, tokens, filtered, unsorted);
  }

  /** `scored` holds the matching rows of `base` with their scores. */
  ghost predicate Survivors(lower: string -> string, haystacks: seq<string>, tokens: seq<string>, base: seq<nat>,
                            scored: seq<(nat, real)>) {
    && (forall j | 0 <= j < |scored| ::
          && scored[j].0 < |haystacks| && scored[j] == Scored(lower, haystacks, tokens, scored[j].0)
          && scored[j].0 in base && MatchesAll(lower, tokens, haystacks[scored[j].0]))
    && (forall i: nat | i < |haystacks| && i in base && MatchesAll(lower, tokens, haystacks[i]) ::
          Scored(lower, haystacks, tokens, i) in scored)
  }

  lemma SurvivorAdded(lower: string -> string, haystacks: seq<string>, tokens: seq<string>, base: seq<nat>,
                      scored: seq<(nat, real)>, idx: nat)
    requires Survivors(lower, haystacks, tokens, base, scored) && DistinctIndices(scored)
    requires idx < |haystacks| && idx !in base && MatchesAll(lower, tokens, haystacks[idx])
    ensures Survivors(lower, haystacks, tokens, base + [idx], scored + [Scored(lower, haystacks, tokens, idx)])
    ensures DistinctIndices(scored + [Scored(lower, haystacks, tokens, idx)])
  {
    hide Total, MatchesAll;
  }

  lemma SortedRanks(lower: string -> string, haystacks: seq<string>, tokens: seq<string>, base: seq<nat>,
                    scored: seq<(nat, real)>)
    requires Survivors(lower, haystacks, tokens, base, scored) && DistinctIndices(scored)
    ensures Ranks(lower, haystacks, tokens, base, Indices(Sorted(scored)))
  {
    hide Total, MatchesAll, Sorted, Indices;
    var sorted := Sorted(scored);
    var r := Indices(sorted);
    assert forall j | 0 <= j < |sorted| :: sorted[j] in scored;
    forall i: nat | i < |haystacks|
      ensures i in r <==> i in base && MatchesAll(lower, tokens, haystacks[i])
    {
      if i in base && MatchesAll(lower, tokens, haystacks[i]) {
        assert Scored(lower, haystacks, tokens, i) in sorted;
        var j :| 0 <= j < |sorted| && sorted[j] == Scored(lower, haystacks, tokens, i);
        assert r[j] == i;
      }
    }
  }

  // ---------------------------------------------------------------- the viewport

  function ClampScroll(selected: nat, scroll: nat, maxVisible: nat): (r: nat)
    ensures maxVisible > 0 ==> r <= selected < r + maxVisible
    ensures scroll <= selected < scroll + maxVisible ==> r == scroll
  {
    if maxVisible == 0 then 0
    else if selected < scroll then selected
    else if selected >= scroll + maxVisible then selected + 1 - maxVisible
    else scroll
  }

  // ---------------------------------------------------------------- the picker

  datatype Screen =
    | NoRows(filter: string, noEntries: bool)
    | Rows(filter: string, rows: seq<(nat, bool)>, position: Option<(nat, nat)>)

  datatype RenderCache = RenderCache(width: nat, revision: nat, selected: nat, scroll: nat, screen: Screen)

  datatype PickerAction = NoAction | Dismissed | Selected(index: nat)

  datatype Key = Escape | Enter | Up | Down | Backspace | Character(c: char) | OtherKey

  /** Typing and deleting, as text. */
  datatype Edit = Push(c: char) | Pop

  function Edited(filter: string, e: Edit): string {
    match e
    case Push(c) => if IsControl(c) then filter else filter + [c]
    case Pop => if filter == "" then filter else filter[..|filter| - 1]
  }

  function EditedAll(edits: seq<Edit>): string
    decreases |edits|
  {
    if edits == [] then "" else Edited(EditedAll(edits[..|edits| - 1]), edits[|edits| - 1])
  }

  // ---------------------------------------------------------------- what narrowing keeps

  /** The filter texts since the rows were last all looked at: typing adds one, deleting starts over. */
  function TrailAfter(trail: seq<string>, e: Edit): seq<string>
    requires trail != []
  {
    var filter := trail[|trail| - 1];
    if Edited(filter, e) == filter then trail
    else if e.Push? then trail + [Edited(filter, e)]
    else [Edited(filter, e)]
  }

  function TrailOf(edits: seq<Edit>): (trail: seq<string>)
    ensures trail != [] && trail[|trail| - 1] == EditedAll(edits)
    decreases |edits|
  {
    if edits == [] then [""] else TrailAfter(TrailOf(edits[..|edits| - 1]), edits[|edits| - 1])
  }

  /** Every text of a trail is the beginning of the last one. */
  ghost predicate Growing(trail: seq<string>) {
    trail != [] && forall p <- trail :: p <= trail[|trail| - 1]
  }

  ghost predicate Kept(lower: string -> string, trail: seq<string>, haystack: string) {
    forall p <- trail :: MatchesAll(lower, SplitQueryTokens(p), haystack)
  }

  /** The rows that matched every text of the trail, in the order the last one calls for. */
  ghost predicate Shows(lower: string -> string, haystacks: seq<string>, trail: seq<string>, filtered: seq<nat>)
    requires trail != []
  {
    && InRange(filtered, |haystacks|)
    && (forall i: nat | i < |haystacks| :: i in filtered <==> Kept(lower, trail, haystacks[i]))
    && Ordered(lower, haystacks, SplitQueryTokens(trail[|trail| - 1]), filtered)
  }

  /** Ranking the survivors of a trail by one more text gives the survivors of the longer trail. */
  lemma NarrowingExtendsTrail(lower: string -> string, haystacks: seq<string>, trail: seq<string>, filter: string,
                              filtered: seq<nat>, r: seq<nat>)
    requires trail != [] && Shows(lower, haystacks, trail, filtered)
    requires Ranks(lower, haystacks, SplitQueryTokens(filter), filtered, r)
    ensures Shows(lower, haystacks, trail + [filter], r)
  {
    hide MatchesAll, Ordered, SplitQueryTokens;
    forall i: nat | i < |haystacks|
      ensures Kept(lower, trail + [filter], haystacks[i]) <==>
              Kept(lower, trail, haystacks[i]) && MatchesAll(lower, SplitQueryTokens(filter), haystacks[i])
    {
      assert forall p :: p in trail + [filter] <==> p in trail || p == filter;
    }
  }

  /** A ranking of all rows is a trail of one text. */
  lemma RescanShows(lower: string -> string, haystacks: seq<string>, filter: string, r: seq<nat>)
    ensures Ranks(lower, haystacks, SplitQueryTokens(filter), AllIndices(|haystacks|), r)
            <==> Shows(lower, haystacks, [filter], r)
  {
    hide MatchesAll, Ordered, SplitQueryTokens;
    forall i: nat | i < |haystacks|
      ensures i in AllIndices(|haystacks|)
      ensures Kept(lower, [filter], haystacks[i]) <==> MatchesAll(lower, SplitQueryTokens(filter), haystacks[i])
    {
      assert AllIndices(|haystacks|)[i] == i;
      assert filter in [filter];
    }
  }

  /** Each token begins the token in its place once the text has grown. */
  lemma {:induction false} TokensGrow(s: string, t: string)
    requires s <= t
    ensures var was, grown := SplitQueryTokens(s), SplitQueryTokens(t);
            |was| <= |grown| && forall j | 0 <= j < |was| :: was[j] != "" && was[j] <= grown[j]
    decreases |t|
  {
    NoEmptyTokens(s);
    if s != t {
      var front := t[..|t| - 1];
      assert t == front + [t[|t| - 1]];
      TokensGrow(s, front);
      TokensPush(front, t[|t| - 1]);
      hide SplitQueryTokens;
    } else {
      hide SplitQueryTokens;
    }
  }

  lemma NoEmptyTokens(s: string)
    ensures forall j | 0 <= j < |SplitQueryTokens(s)| :: SplitQueryTokens(s)[j] != ""
  {
    var tokens := SplitQueryTokens(s);
    forall j | 0 <= j < |tokens| ensures tokens[j] != "" {
      assert tokens[j] in tokens;
    }
  }

  /** However far it was typed, the beginning of the word is covered by the whole of it. */
  ghost predicate WordSafe(lower: string -> string, word: string) {
    forall k | 0 < k <= |word| :: Covers(lower(word[..k]), lower(word))
  }

  /** A condition on the text alone, that a caller can check before offering it. */
  ghost predicate TextSafe(lower: string -> string, text: string) {
    forall word <- SplitQueryTokens(text) :: WordSafe(lower, word)
  }

  /** A word is safe exactly if no row that matches it fails to match one of its beginnings. */
  lemma WordSafeMeans(lower: string -> string, word: string)
    requires Settles(lower)
    ensures WordSafe(lower, word) <==>
            forall h, k | 0 < k <= |word| && TokenMatch(lower, word, h).matches ::
              TokenMatch(lower, word[..k], h).matches
  {
    hide TokenMatch, Covers, Settles;
    forall k | 0 < k <= |word|
      ensures Covers(lower(word[..k]), lower(word)) <==>
              forall h | TokenMatch(lower, word, h).matches :: TokenMatch(lower, word[..k], h).matches
    {
      LongerTokenMatchesLess(lower, word[..k], word);
    }
  }

  lemma {:induction false} OneWord(w: string)
    requires IsWord(w)
    ensures Pieces(w) == [w] && SplitQueryTokens(w) == [w]
    decreases |w|
  {
    var front, c := w[..|w| - 1], w[|w| - 1];
    assert w == front + [c];
    PiecesPush(front, c);
    hide Pieces, IsSeparator;
    if front == "" {
      NoPieces();
    } else {
      OneWord(front);
    }
    assert [w][..0] == [] && NonEmpty([]) == [];
    assert NonEmpty([w]) == NonEmpty([w][..0]) + [w];
  }

  predicate IsWord(w: string) {
    w != "" && forall k | 0 <= k < |w| :: !IsSeparator(w[k])
  }

  function Prefixes(w: string): seq<string> {
    seq(|w| + 1, k requires 0 <= k <= |w| => w[..k])
  }

  /** For one word typed into the empty filter the condition is exact: unless it is safe, some row gets lost. */
  lemma WordSafeIsNeeded(lower: string -> string, word: string)
    requires Settles(lower) && IsWord(word)
    ensures WordSafe(lower, word) <==>
            forall h | MatchesAll(lower, SplitQueryTokens(word), h) :: Kept(lower, Prefixes(word), h)
  {
    WordSafeMeans(lower, word);
    OneWord(word);
    hide TokenMatch, Settles, WordSafe, SplitQueryTokens;
    forall h: string
      ensures MatchesAll(lower, SplitQueryTokens(word), h) <==> TokenMatch(lower, word, h).matches
      ensures Kept(lower, Prefixes(word), h) <==>
              forall k | 0 < k <= |word| :: TokenMatch(lower, word[..k], h).matches
    {
      assert word in [word];
      WordKept(lower, word, h);
    }
  }

  lemma WordKept(lower: string -> string, word: string, h: string)
    requires IsWord(word)
    ensures Kept(lower, Prefixes(word), h) <==> forall k | 0 < k <= |word| :: TokenMatch(lower, word[..k], h).matches
  {
    hide TokenMatch;
    forall k | 0 <= k <= |word|
      ensures MatchesAll(lower, SplitQueryTokens(word[..k]), h) <==> k == 0 || TokenMatch(lower, word[..k], h).matches
    {
      if k > 0 {
        OneWord(word[..k]);
        assert word[..k] in [word[..k]];
      }
    }
    hide SplitQueryTokens, MatchesAll;
    forall k | 0 <= k <= |word| ensures Prefixes(word)[k] == word[..k] && word[..k] in Prefixes(word) {
      assert Prefixes(word)[k] == word[..k];
    }
  }

  /** In a safe text, whatever matches it has matched all of its beginnings. */
  lemma SafeTextKeeps(lower: string -> string, trail: seq<string>, haystack: string)
    requires Growing(trail) && TextSafe(lower, trail[|trail| - 1])
    requires MatchesAll(lower, SplitQueryTokens(trail[|trail| - 1]), haystack)
    ensures Kept(lower, trail, haystack)
  {
    var text := trail[|trail| - 1];
    hide SplitQueryTokens, Covers, Found;
    forall p | p in trail ensures MatchesAll(lower, SplitQueryTokens(p), haystack) {
      TokensGrow(p, text);
      var was, grown := SplitQueryTokens(p), SplitQueryTokens(text);
      forall j | 0 <= j < |was| ensures TokenMatch(lower, was[j], haystack).matches {
        assert grown[j] in grown && was[j] == grown[j][..|was[j]|];
        assert TokenMatch(lower, grown[j], haystack).matches;
        CoversMeans(lower(was[j]), lower(grown[j]));
      }
    }
  }

  /** Narrowing equals looking at all rows, exactly if no row was lost on the way. */
  lemma NarrowingLosesNothing(lower: string -> string, haystacks: seq<string>, trail: seq<string>, filtered: seq<nat>,
                              rescanned: seq<nat>)
    requires Growing(trail) && Shows(lower, haystacks, trail, filtered)
    requires Shows(lower, haystacks, [trail[|trail| - 1]], rescanned)
    ensures filtered == rescanned <==>
            forall i: nat | i < |haystacks| && MatchesAll(lower, SplitQueryTokens(trail[|trail| - 1]), haystacks[i]) ::
              Kept(lower, trail, haystacks[i])
    ensures TextSafe(lower, trail[|trail| - 1]) ==> filtered == rescanned
  {
    var filter := trail[|trail| - 1];
    hide MatchesAll, Ordered, SplitQueryTokens, TextSafe;
    forall i: nat | i < |haystacks|
      ensures i in rescanned <==> MatchesAll(lower, SplitQueryTokens(filter), haystacks[i])
      ensures Kept(lower, trail, haystacks[i]) ==> MatchesAll(lower, SplitQueryTokens(filter), haystacks[i])
      ensures TextSafe(lower, filter) && MatchesAll(lower, SplitQueryTokens(filter), haystacks[i]) ==>
                Kept(lower, trail, haystacks[i])
    {
      assert filter in [filter] && filter in trail;
      if TextSafe(lower, filter) && MatchesAll(lower, SplitQueryTokens(filter), haystacks[i]) {
        SafeTextKeeps(lower, trail, haystacks[i]);
      }
    }
    if forall i: nat | i < |haystacks| && MatchesAll(lower, SplitQueryTokens(filter), haystacks[i]) ::
         Kept(lower, trail, haystacks[i])
    {
      assert forall i: nat :: i in filtered || i in rescanned ==> i < |haystacks|;
      SameMembersSameOrder(lower, haystacks, SplitQueryTokens(filter), filtered, rescanned);
    }
  }

  /** Without tokens every row survives, in index order. */
  lemma NoTokensRank(lower: string -> string, haystacks: seq<string>, r: seq<nat>)
    requires InRange(r, |haystacks|)
    ensures Ordered(lower, haystacks, [], r) <==> forall j, k | 0 <= j < k < |r| :: r[j] < r[k]
  {
    forall j, k | 0 <= j < k < |r|
      ensures Before(Scored(lower, haystacks, [], r[j]), Scored(lower, haystacks, [], r[k])) <==> r[j] < r[k]
    {
    }
  }

  lemma RankingsAreDistinct(lower: string -> string, haystacks: seq<string>, tokens: seq<string>, r: seq<nat>)
    requires InRange(r, |haystacks|) && Ordered(lower, haystacks, tokens, r)
    ensures Distinct(r)
  {
    forall j, k | 0 <= j < k < |r| ensures r[j] != r[k] {
      assert Before(Scored(lower, haystacks, tokens, r[j]), Scored(lower, haystacks, tokens, r[k]));
    }
  }

  /** `sort_unstable` on indices: the same sort, with nothing but the index to compare. */
  function SortedIndices(s: seq<nat>): seq<nat>
    requires Distinct(s)
  {
    Indices(Sorted(seq(|s|, i requires 0 <= i < |s| => (s[i], 0.0))))
  }

  lemma SortedIndicesRank(lower: string -> string, haystacks: seq<string>, s: seq<nat>)
    requires Distinct(s) && InRange(s, |haystacks|)
    ensures Ranks(lower, haystacks, [], s, SortedIndices(s))
  {
    hide Indices, Sorted, Insert;
    var pairs := seq(|s|, i requires 0 <= i < |s| => (s[i], 0.0));
    assert Survivors(lower, haystacks, [], s, pairs) by {
      forall i: nat | i < |haystacks| && i in s ensures Scored(lower, haystacks, [], i) in pairs {
        var j :| 0 <= j < |s| && s[j] == i;
        assert pairs[j] == Scored(lower, haystacks, [], i);
      }
    }
    SortedRanks(lower, haystacks, [], s, pairs);
  }

  /** The visible rows: which entry, and whether it is the selected one. Their text is not part of this model. */
  function VisibleRows(filtered: seq<nat>, selected: nat, from: nat, end: nat): (rows: seq<(nat, bool)>)
    requires end <= |filtered|
    ensures |rows| == if from < end then end - from else 0
    ensures forall k | 0 <= k < |rows| :: rows[k] == (filtered[from + k], from + k == selected)
    decreases end - from
  {
    if from >= end then [] else [(filtered[from], from == selected)] + VisibleRows(filtered, selected, from + 1, end)
  }

  function Draw(filter: string, filtered: seq<nat>, selected: nat, scroll: nat, maxVisible: nat,
                noEntries: bool): Screen {
    if filtered == [] then NoRows(filter, noEntries)
    else
      var end := if scroll + maxVisible < |filtered| then scroll + maxVisible else |filtered|;
      Rows(filter, VisibleRows(filtered, selected, scroll, end),
           if scroll > 0 || end < |filtered| then Some((selected + 1, |filtered|)) else None)
  }

  class ModelPicker {
    const lower: string -> string
    const haystacks: seq<string>
    var filter: string
    var filtered: seq<nat>
    var selected: nat
    var scroll: nat
    var maxVisible: nat
    var revision: nat
    var cache: Option<RenderCache>
    ghost var trail: seq<string>

    /** The rows are those the trail has kept, the selection is one of them and on screen, the cache is current. */
    ghost predicate Valid()
      reads this
    {
      && Growing(trail) && trail[|trail| - 1] == filter
      && Shows(lower, haystacks, trail, filtered)
      && (if filtered == [] then selected == 0 else selected < |filtered|)
      && maxVisible > 0 && scroll <= selected < scroll + maxVisible
      && (cache.Some? && Fresh(cache.value) ==> cache.value.screen == Current())
    }

    predicate Fresh(c: RenderCache)
      reads this
    {
      c.revision == revision && c.selected == selected && c.scroll == scroll
    }

    function Current(): Screen
      reads this
    {
      Draw(filter, filtered, selected, scroll, maxVisible, haystacks == [])
    }

    constructor (lowercase: string -> string, rows: seq<string>, visible: nat)
      ensures Valid() && filter == "" && filtered == AllIndices(|rows|) && haystacks == rows && lower == lowercase
      ensures trail == [""]
    {
      lower, haystacks, filter, filtered, trail := lowercase, rows, "", AllIndices(|rows|), [""];
      selected, scroll, maxVisible, revision, cache := 0, 0, if visible < 1 then 1 else visible, 0, None;
      new;
      assert SplitQueryTokens("") == [];
      NoTokensRank(lower, rows, filtered);
      RescanShows(lower, rows, "", filtered);
    }

    method SetMaxVisible(visible: nat)
      requires Valid()
      modifies this`maxVisible, this`scroll, this`cache
      ensures Valid() && maxVisible == if visible < 1 then 1 else visible
    {
      maxVisible := if visible < 1 then 1 else visible;
      scroll := ClampScroll(selected, scroll, maxVisible);
      cache := None;
    }

    /** Re-scores the rows that are in `filtered` now; without tokens it relies on their being in index order. */
    method Rescan(query: string)
      requires Distinct(filtered) && InRange(filtered, |haystacks|)
      requires SplitQueryTokens(query) == [] ==> forall j, k | 0 <= j < k < |filtered| :: filtered[j] < filtered[k]
      modifies this`filtered, this`selected, this`scroll, this`revision, this`cache
      ensures Ranks(lower, haystacks, SplitQueryTokens(query), old(filtered), filtered)
      ensures selected == 0 && scroll == 0 && revision == old(revision) + 1 && cache == None
    {
      hide SortedIndices, Ordered, MatchesAll, IsWhitespace;
      if Trim(query) == "" {
        TokensOfTrim(query);
        assert SplitQueryTokens("") == [];
        SortedIndicesRank(lower, haystacks, filtered);
        filtered := SortedIndices(filtered);
      } else {
        var scored := ScoreCandidates(lower, haystacks, filtered, query);
        if SplitQueryTokens(query) == [] {
          NoTokensRank(lower, haystacks, filtered);
          EverythingMatchesNothing(lower, haystacks);
        }
        filtered := Indices(scored);
      }
      selected, scroll, revision, cache := 0, 0, revision + 1, None;
    }

    method PushFilterChar(ch: char)
      requires Valid()
      modifies this
      ensures Valid() && filter == Edited(old(filter), Push(ch)) && maxVisible == old(maxVisible)
      ensures trail == TrailAfter(old(trail), Push(ch))
    {
      hide Ordered, MatchesAll, SplitQueryTokens, Trim, Current, Kept, Ranks;
      if IsControl(ch) {
        return;
      }
      ghost var before := filtered;
      var typed := filter + [ch];
      RankingsAreDistinct(lower, haystacks, SplitQueryTokens(filter), filtered);
      TokensOfTrim(typed);
      TokensPush(filter, ch);
      if SplitQueryTokens(filter) == [] {
        NoTokensRank(lower, haystacks, filtered);
      }
      Rescan(Trim(typed));
      NarrowingExtendsTrail(lower, haystacks, trail, typed, before, filtered);
      filter, trail := typed, trail + [typed];
    }

    method PopFilterChar()
      requires Valid()
      modifies this
      ensures Valid() && filter == Edited(old(filter), Pop) && maxVisible == old(maxVisible)
      ensures trail == TrailAfter(old(trail), Pop)
    {
      hide Ordered, MatchesAll, SplitQueryTokens, Trim, Current, Kept, Ranks;
      if filter != "" {
        var shorter := filter[..|filter| - 1];
        filtered := AllIndices(|haystacks|);
        TokensOfTrim(shorter);
        Rescan(Trim(shorter));
        RescanShows(lower, haystacks, shorter, filtered);
        filter, trail := shorter, [shorter];
      }
    }

    method MoveSelection(delta: int)
      requires Valid()
      modifies this`selected, this`scroll, this`cache
      ensures Valid()
      ensures filtered == [] ==> selected == old(selected) && scroll == old(scroll)
      ensures filtered != [] ==>
        var wanted := old(selected) + delta;
        selected == if wanted < 0 then 0 else if wanted >= |filtered| then |filtered| - 1 else wanted
    {
      hide Ordered, MatchesAll, SplitQueryTokens, Ranks, Draw;
      if filtered == [] {
        return;
      }
      var max := |filtered| - 1;
      var next: nat :=
        if delta < 0 then if selected < -delta then 0 else selected + delta
        else if selected + delta < max then selected + delta else max;
      if next != selected {
        selected := next;
        scroll := ClampScroll(selected, scroll, maxVisible);
        cache := None;
      }
    }

    method HandleKey(key: Key) returns (action: PickerAction)
      requires Valid()
      modifies this
      ensures Valid() && maxVisible == old(maxVisible)
      ensures trail == (match key
                        case Backspace => TrailAfter(old(trail), Pop)
                        case Character(c) => TrailAfter(old(trail), Push(c))
                        case _ => old(trail))
      ensures filter == (match key
                         case Backspace => Edited(old(filter), Pop)
                         case Character(c) => Edited(old(filter), Push(c))
                         case _ => old(filter))
      ensures action.Selected? <==> key == Enter && filtered != []
      ensures action.Selected? ==>
        && filtered == old(filtered) && selected == old(selected) < |filtered|
        && action.index == filtered[selected] < |haystacks|
      ensures action.Dismissed? <==> key == Escape
    {
      hide Ordered, MatchesAll, SplitQueryTokens, Draw, Shows, Edited;
      match key {
        case Escape =>
          return Dismissed;
        case Enter =>
          if selected < |filtered| {
            SelectionIsARow(lower, haystacks, trail, filtered);
            return Selected(filtered[selected]);
          }
        case Up =>
          MoveSelection(-1);
        case Down =>
          MoveSelection(1);
        case Backspace =>
          PopFilterChar();
        case Character(c) =>
          PushFilterChar(c);
        case OtherKey =>
      }
      return NoAction;
    }

    /** The cache never shows: every rendering is what drawing from scratch would give, whatever the width. */
    method Render(width: nat) returns (screen: Screen)
      requires Valid()
      modifies this`cache
      ensures Valid() && screen == Current()
    {
      hide Ordered, MatchesAll, SplitQueryTokens, Draw, Ranks;
      if cache.Some? && cache.value.width == width && Fresh(cache.value) {
        return cache.value.screen;
      }
      screen := Draw(filter, filtered, selected, scroll, maxVisible, haystacks == []);
      cache := Some(RenderCache(width, revision, selected, scroll, screen));
    }
  }

  lemma EverythingMatchesNothing(lower: string -> string, haystacks: seq<string>)
    ensures forall i | 0 <= i < |haystacks| :: MatchesAll(lower, [], haystacks[i])
  {
  }

  lemma SelectionIsARow(lower: string -> string, haystacks: seq<string>, trail: seq<string>, filtered: seq<nat>)
    requires trail != [] && Shows(lower, haystacks, trail, filtered)
    ensures InRange(filtered, |haystacks|)
  {
  }

  /**
   After any typing and deleting, the picker shows the rows that matched every text since the last
   deletion. That is what one full rescan for the final text shows exactly if no row was lost
   on the way, and in particular whenever the text is safe.
   */
  method TypeAll(lower: string -> string, haystacks: seq<string>, visible: nat, edits: seq<Edit>)
    returns (picker: ModelPicker, rescanned: seq<nat>)
    ensures picker.filter == EditedAll(edits) && Shows(lower, haystacks, TrailOf(edits), picker.filtered)
    ensures Ranks(lower, haystacks, SplitQueryTokens(EditedAll(edits)), AllIndices(|haystacks|), rescanned)
    ensures picker.filtered == rescanned <==>
            forall i: nat | i < |haystacks| && MatchesAll(lower, SplitQueryTokens(EditedAll(edits)), haystacks[i]) ::
              Kept(lower, TrailOf(edits), haystacks[i])
    ensures TextSafe(lower, EditedAll(edits)) ==> picker.filtered == rescanned
  {
    hide Ordered, MatchesAll, SplitQueryTokens, Draw, Trim, Edited, Kept, TextSafe, Ranks;
    picker := new ModelPicker(lower, haystacks, visible);
    for n := 0 to |edits|
      invariant fresh(picker) && picker.Valid() && picker.haystacks == haystacks && picker.lower == lower
      invariant picker.filter == EditedAll(edits[..n]) && picker.trail == TrailOf(edits[..n])
    {
      assert edits[..n + 1][..n] == edits[..n];
      match edits[n] {
        case Push(c) => picker.PushFilterChar(c);
        case Pop => picker.PopFilterChar();
      }
    }
    assert edits[..|edits|] == edits;
    var rescanner := new ModelPicker(lower, haystacks, visible);
    TokensOfTrim(picker.filter);
    rescanner.Rescan(Trim(picker.filter));
    rescanned := rescanner.filtered;
    RescanShows(lower, haystacks, picker.filter, rescanned);
    NarrowingLosesNothing(lower, haystacks, picker.trail, picker.filtered, rescanned);
  }

  /** The selected row is always on screen, once. */
  lemma SelectionIsVisible(picker: ModelPicker)
    requires picker.Valid() && picker.filtered != []
    ensures picker.Current().Rows? && |picker.Current().rows| <= picker.maxVisible
    ensures var k := picker.selected - picker.scroll;
      && 0 <= k < |picker.Current().rows| && picker.Current().rows[k] == (picker.filtered[picker.selected], true)
      && forall j | 0 <= j < |picker.Current().rows| && j != k :: !picker.Current().rows[j].1
  {
    hide Shows;
  }

  // ---------------------------------------------------------------- the capital sigma

  /** Without a capital sigma every text is safe, whatever else it holds. */
  lemma NoSigmaIsSafe(f: Folding, text: string)
    requires SIGMA !in text
    ensures TextSafe(s => Lower(f, s), text)
  {
    hide SplitQueryTokens, Covers;
    forall word | word in SplitQueryTokens(text) ensures WordSafe(s => Lower(f, s), word) {
      TokensAreOfText(text, word);
      forall k | 0 < k <= |word| ensures Covers(Lower(f, word[..k]), Lower(f, word)) {
        NoSigmaLowersInOrder(f, word[..k], word);
        PrefixCovers(Lower(f, word[..k]), Lower(f, word));
      }
    }
  }

  lemma {:induction false} TokensAreOfText(text: string, word: string)
    requires word in SplitQueryTokens(text)
    ensures forall c <- word :: c in text
  {
    PiecesAreOfText(text);
    AmongPieces(Pieces(text), word);
  }

  lemma {:induction false} AmongPieces(ps: seq<string>, word: string)
    requires word in NonEmpty(ps)
    ensures word in ps
    decreases |ps|
  {
    if word != ps[|ps| - 1] {
      AmongPieces(ps[..|ps| - 1], word);
    }
  }

  lemma {:induction false} PiecesAreOfText(text: string)
    ensures forall p, c | p in Pieces(text) && c in p :: c in text
    decreases |text|
  {
    if text != "" {
      PiecesAreOfText(text[..|text| - 1]);
      forall p, c | p in Pieces(text) && c in p ensures c in text {
        var was := Pieces(text[..|text| - 1]);
        assert p in was || p == "" || p == was[|was| - 1] + [text[|text| - 1]];
      }
    }
  }

  /** As much of Unicode's lowercasing as the example below needs. */
  const GREEK := Folding(c => if c == ALPHA then [SMALL_ALPHA] else [c], c => c == ALPHA || c == SIGMA, c => false)

  const ALPHA := '\U{391}'
  const SMALL_ALPHA := '\U{3B1}'
  const SHORT := [ALPHA, SIGMA]
  const WORD := [ALPHA, SIGMA, ALPHA]
  const ROW := "x y " + WORD

  lemma GreekWords()
    ensures Lower(GREEK, SHORT) == [SMALL_ALPHA, FINAL_SIGMA]
    ensures Lower(GREEK, WORD) == [SMALL_ALPHA, SMALL_SIGMA, SMALL_ALPHA]
    ensures Lower(GREEK, ROW) == "x y " + [SMALL_ALPHA, SMALL_SIGMA, SMALL_ALPHA]
  {
    ShortLowered();
    WordLowered();
    RowLowered();
  }

  lemma ShortLowered()
    ensures Lower(GREEK, SHORT) == [SMALL_ALPHA, FINAL_SIGMA]
  {
    assert SHORT[..1] == [ALPHA] && SHORT[2..] == [];
    assert LowerUpTo(GREEK, SHORT, 1) == [SMALL_ALPHA];
  }

  lemma WordLowered()
    ensures Lower(GREEK, WORD) == [SMALL_ALPHA, SMALL_SIGMA, SMALL_ALPHA]
  {
    assert WORD[..1] == [ALPHA] && WORD[2..] == [ALPHA];
    assert LowerUpTo(GREEK, WORD, 1) == [SMALL_ALPHA];
    assert LowerUpTo(GREEK, WORD, 2) == [SMALL_ALPHA, SMALL_SIGMA];
  }

  lemma {:induction false} OthersStay(s: string, n: nat)
    requires n <= |s| && forall k | 0 <= k < n :: s[k] != ALPHA && s[k] != SIGMA
    ensures LowerUpTo(GREEK, s, n) == s[..n]
  {
    if n > 0 {
      OthersStay(s, n - 1);
    }
  }

  lemma RowLowered()
    ensures Lower(GREEK, ROW) == "x y " + [SMALL_ALPHA, SMALL_SIGMA, SMALL_ALPHA]
  {
    OthersStay(ROW, 4);
    assert LowerAt(GREEK, ROW, 4) == LowerAt(GREEK, ROW, 6) == [SMALL_ALPHA];
    assert LowerAt(GREEK, ROW, 5) == [SMALL_SIGMA] by {
      assert ROW[6..] == [ALPHA];
    }
    hide LowerAt;
    assert LowerUpTo(GREEK, ROW, 5) == "x y " + [SMALL_ALPHA];
    assert LowerUpTo(GREEK, ROW, 6) == "x y " + [SMALL_ALPHA, SMALL_SIGMA];
  }

  /** The row matches the whole word but not the word without its last letter. */
  lemma SigmaCloses()
    ensures !MatchesAll(s => Lower(GREEK, s), SplitQueryTokens(SHORT), ROW)
    ensures MatchesAll(s => Lower(GREEK, s), SplitQueryTokens(WORD), ROW)
  {
    GreekWords();
    OneWord(SHORT);
    OneWord(WORD);
    hide Lower, SplitQueryTokens, LoweredMatch;
    var q, x := Lower(GREEK, SHORT), Lower(GREEK, ROW);
    NotFound(q, x, 1);
    var w := Lower(GREEK, WORD);
    StretchInOrder("x y ", w, "");
    assert "x y " + w + "" == x;
    assert SHORT in [SHORT] && !TokenMatch(s => Lower(GREEK, s), SHORT, ROW).matches;
    assert TokenMatch(s => Lower(GREEK, s), WORD, ROW).matches;
  }

  lemma NotFound(q: string, x: string, k: nat)
    requires k < |q| && q[k] !in x && !IsLower(q[k]) && !IsDigit(q[k])
    ensures !Found(q, x)
  {
    if InOrder(q, x) {
      InOrderUses(q, x, k);
    }
    if i: nat, letters: bool :| IsCut(q, i, letters) {
      CutClasses(q, i, letters, k);
    }
  }

  lemma InOrderUses(q: string, x: string, k: nat)
    requires InOrder(q, x) && k < |q|
    ensures q[k] in x
  {
    var at :| Embeds(q, x, at);
    assert x[at[k]] == q[k];
  }

  lemma CutClasses(q: string, i: nat, letters: bool, k: nat)
    requires IsCut(q, i, letters) && k < |q|
    ensures IsLower(q[k]) || IsDigit(q[k])
  {
    if k < i {
      assert q[..i][k] == q[k];
    } else {
      assert q[i..][k - i] == q[k];
    }
  }

  lemma OnlyZeros(s: seq<nat>)
    requires Distinct(s) && forall j | 0 <= j < |s| :: s[j] == 0
    ensures s == if 0 in s then [0] else []
  {
    if |s| > 1 {
      DistinctAt(s, 0, 1);
    } else if s != [] {
      assert s == [0];
    }
  }

  lemma DistinctAt(s: seq<nat>, j: nat, k: nat)
    requires Distinct(s) && j < k < |s|
    ensures s[j] != s[k]
  {
  }

  /** So a row is lost that the whole list would show: typing drops it, and no later letter brings it back. */
  method SigmaRowIsLost() returns (picker: ModelPicker, rescanned: seq<nat>)
    ensures picker.filter == WORD && picker.filtered == [] && rescanned == [0]
  {
    hide MatchesAll, SplitQueryTokens, Ordered, IsControl;
    var edits := [Push(ALPHA), Push(SIGMA), Push(ALPHA)];
    TrailOfWord(edits);
    SigmaCloses();
    picker, rescanned := TypeAll(s => Lower(GREEK, s), [ROW], 1, edits);
    assert !Kept(s => Lower(GREEK, s), TrailOf(edits), ROW);
    RankingsAreDistinct(s => Lower(GREEK, s), [ROW], SplitQueryTokens(WORD), picker.filtered);
    OnlyZeros(picker.filtered);
    assert AllIndices(1)[0] == 0 && 0 in rescanned;
    RankingsAreDistinct(s => Lower(GREEK, s), [ROW], SplitQueryTokens(WORD), rescanned);
    OnlyZeros(rescanned);
  }

  lemma TrailOfWord(edits: seq<Edit>)
    requires edits == [Push(ALPHA), Push(SIGMA), Push(ALPHA)]
    ensures EditedAll(edits) == WORD && SHORT in TrailOf(edits)
  {
    assert edits[..2] == [Push(ALPHA), Push(SIGMA)] && edits[..2][..1] == [Push(ALPHA)] && [Push(ALPHA)][..0] == [];
    assert EditedAll([Push(ALPHA)]) == [ALPHA];
    assert EditedAll(edits[..2]) == SHORT;
    assert EditedAll(edits) == WORD;
    var before := TrailOf(edits[..2]);
    assert before[|before| - 1] == SHORT;
  }
}
