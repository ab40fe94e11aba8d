/**
 The branch picker's tree guides. One pass over the rows with one stack of booleans draws what a recursive tree
 printer would draw, for any forest listed in pre-order.
 */
module TreeGuides {
  import opened Options

  const MAX_INDENT_LEVELS := 8

  datatype BranchEntry = BranchEntry(id: string, parent: Option<string>, depth: nat)

  /** Which of the two glyph sets is in use. */
  datatype Glyphs = Unicode | Ascii

  function Elision(g: Glyphs): string {
    if g.Unicode? then "\U{22EF} " else "~ "
  }

  function Filler(g: Glyphs, continues: bool): string {
    if !continues then "   " else if g.Unicode? then "\U{2502}  " else "|  "
  }

  function Connector(g: Glyphs, last: bool): string {
    match g
    case Unicode => if last then "\U{2514}\U{2500} " else "\U{251C}\U{2500} "
    case Ascii => if last then "`- " else "|- "
  }

  function Fillers(g: Glyphs, guides: seq<bool>): string {
    if guides == [] then "" else Fillers(g, guides[..|guides| - 1]) + Filler(g, guides[|guides| - 1])
  }

  /** The prefix of a row whose drawn ancestors, outermost first, have more siblings to come as `guides` says. */
  function RowPrefix(g: Glyphs, guides: seq<bool>, last: bool): string {
    if |guides| + 1 <= MAX_INDENT_LEVELS then Fillers(g, guides) + Connector(g, last)
    else Elision(g) + Fillers(g, guides[|guides| - (MAX_INDENT_LEVELS - 1)..]) + Connector(g, last)
  }

  // ---------------------------------------------------------------- the recursive drawing

  datatype Tree = Node(id: string, children: seq<Tree>)

  /** A root, and the parent its entry names: none, or one that is not part of the forest. */
  datatype Root = Root(parent: Option<string>, tree: Tree)

  function ListTrees(ts: seq<Tree>, parent: Option<string>, depth: nat): seq<BranchEntry> {
    if ts == [] then []
    else
      [BranchEntry(ts[0].id, parent, depth)]
      + ListTrees(ts[0].children, Some(ts[0].id), depth + 1)
      + ListTrees(ts[1..], parent, depth)
  }

  function ListForest(roots: seq<Root>): seq<BranchEntry> {
    if roots == [] then []
    else ListTrees([roots[0].tree], roots[0].parent, 0) + ListForest(roots[1..])
  }

  /** Siblings below the root level: every child knows by itself whether it is the last. */
  function DrawChildren(g: Glyphs, ts: seq<Tree>, guides: seq<bool>): seq<string> {
    if ts == [] then []
    else
      [RowPrefix(g, guides, |ts| == 1)]
      + DrawChildren(g, ts[0].children, guides + [|ts| > 1])
      + DrawChildren(g, ts[1..], guides)
  }

  /** Roots are flush left and never a guide column. */
  function DrawForest(g: Glyphs, roots: seq<Root>): seq<string> {
    if roots == [] then []
    else [""] + DrawChildren(g, roots[0].tree.children, []) + DrawForest(g, roots[1..])
  }

  function Ids(ts: seq<Tree>): seq<string> {
    if ts == [] then [] else [ts[0].id] + Ids(ts[0].children) + Ids(ts[1..])
  }

  function ForestIds(roots: seq<Root>): seq<string> {
    if roots == [] then [] else Ids([roots[0].tree]) + ForestIds(roots[1..])
  }

  ghost predicate Distinct(s: seq<string>) {
    forall i, j | 0 <= i < j < |s| :: s[i] != s[j]
  }

  ghost predicate WellFormed(roots: seq<Root>) {
    && Distinct(ForestIds(roots))
    && forall r <- roots :: r.parent.Some? ==> r.parent.value !in ForestIds(roots)
  }

  // ---------------------------------------------------------------- the one-pass drawing

  ghost predicate IsLast(entries: seq<BranchEntry>, i: nat)
    requires i < |entries|
  {
    forall j | i < j < |entries| :: entries[j].parent != entries[i].parent
  }

  /** An entry is its parent's last child when no later entry names the same parent. */
  method ComputeLastChildFlags(entries: seq<BranchEntry>) returns (flags: seq<bool>)
    ensures |flags| == |entries|
    ensures forall i | 0 <= i < |entries| :: flags[i] <==> IsLast(entries, i)
  {
    var lastIndex: map<Option<string>, nat> := map[];
    for i := 0 to |entries|
      invariant forall j | 0 <= j < i :: entries[j].parent in lastIndex
      invariant forall p <- lastIndex ::
        && lastIndex[p] < i && entries[lastIndex[p]].parent == p
        && forall j | lastIndex[p] < j < i :: entries[j].parent != p
    {
      lastIndex := lastIndex[entries[i].parent := i];
    }
    flags := [];
    for i := 0 to |entries|
      invariant |flags| == i
      invariant forall k | 0 <= k < i :: flags[k] <==> IsLast(entries, k)
    {
      flags := flags + [lastIndex[entries[i].parent] == i];
    }
  }

  /** `Vec::resize` with `false`. */
  function Resize(stack: seq<bool>, n: nat): (r: seq<bool>)
    ensures |r| == n
    ensures n >= |stack| ==> r[..|stack|] == stack
    decreases n
  {
    if n <= |stack| then stack[..n] else Resize(stack, n - 1) + [false]
  }

  /** The rows of `entries`, `stack` being what the rows before left behind. */
  function Walk(g: Glyphs, entries: seq<BranchEntry>, last: seq<bool>, stack: seq<bool>): seq<string>
    requires |entries| == |last|
    decreases |entries|
  {
    if entries == [] then []
    else if entries[0].depth == 0 then [""] + Walk(g, entries[1..], last[1..], [])
    else
      var guides := Resize(stack, entries[0].depth - 1);
      [RowPrefix(g, guides, last[0])] + Walk(g, entries[1..], last[1..], guides + [!last[0]])
  }

  lemma FillersPush(g: Glyphs, guides: seq<bool>, from: nat, level: nat)
    requires from <= level < |guides|
    ensures Fillers(g, guides[from..level + 1]) == Fillers(g, guides[from..level]) + Filler(g, guides[level])
  {
    assert guides[from..level + 1][..level - from] == guides[from..level];
  }

  lemma NoFillers(g: Glyphs, guides: seq<bool>, from: nat)
    requires from <= |guides|
    ensures Fillers(g, guides[from..from]) == ""
  {
  }

  method BuildPrefix(g: Glyphs, depth: nat, ancestorContinues: seq<bool>, isLast: bool) returns (prefix: string)
    requires depth > 0 && |ancestorContinues| == depth - 1
    ensures prefix == RowPrefix(g, ancestorContinues, isLast)
  {
    hide Elision, Filler, Connector, Fillers;
    var elided := depth > MAX_INDENT_LEVELS;
    var fillerStart := if elided then depth - 1 - (MAX_INDENT_LEVELS - 1) else 0;
    prefix := "";
    if elided {
      prefix := prefix + Elision(g);
    }
    ghost var start := prefix;
    NoFillers(g, ancestorContinues, fillerStart);
    for level := fillerStart to depth - 1
      invariant prefix == start + Fillers(g, ancestorContinues[fillerStart..level])
    {
      FillersPush(g, ancestorContinues, fillerStart, level);
      prefix := prefix + Filler(g, ancestorContinues[level]);
    }
    assert ancestorContinues[fillerStart..depth - 1] == ancestorContinues[fillerStart..];
    prefix := prefix + Connector(g, isLast);
    if !elided {
      assert ancestorContinues[0..] == ancestorContinues;
    }
  }

  lemma WalkRow(g: Glyphs, entries: seq<BranchEntry>, last: seq<bool>, i: nat, stack: seq<bool>)
    requires i < |entries| == |last|
    ensures var depth := entries[i].depth;
      Walk(g, entries[i..], last[i..], stack) ==
      if depth == 0 then [""] + Walk(g, entries[i + 1..], last[i + 1..], [])
      else
        var guides := Resize(stack, depth - 1);
        [RowPrefix(g, guides, last[i])] + Walk(g, entries[i + 1..], last[i + 1..], guides + [!last[i]])
  {
    hide RowPrefix, Resize;
    assert entries[i..][1..] == entries[i + 1..] && last[i..][1..] == last[i + 1..];
  }

  lemma ResizeByOne(stack: seq<bool>, n: nat, top: bool)
    requires n == |stack| + 1
    ensures Resize(stack, n)[n - 1 := top] == stack + [top]
  {
    assert Resize(stack, n)[..n - 1] == stack;
  }

  lemma RowDone(out: seq<string>, prefix: string, rest: seq<string>)
    ensures out + ([prefix] + rest) == (out + [prefix]) + rest
  {
  }

  method BuildTreePrefixes(g: Glyphs, entries: seq<BranchEntry>, isLast: seq<bool>) returns (out: seq<string>)
    requires |isLast| == |entries|
    ensures out == Walk(g, entries, isLast, [])
  {
    hide RowPrefix, Walk, Resize;
    out := [];
    var ancestorContinues: seq<bool> := [];
    assert entries[0..] == entries && isLast[0..] == isLast;
    assert [] + Walk(g, entries, isLast, []) == Walk(g, entries, isLast, []);
    for i := 0 to |entries|
      invariant out + Walk(g, entries[i..], isLast[i..], ancestorContinues) == Walk(g, entries, isLast, [])
    {
      WalkRow(g, entries, isLast, i, ancestorContinues);
      var depth := entries[i].depth;
      var prefix := "";
      if depth == 0 {
        ancestorContinues := [];
      } else {
        ancestorContinues := Resize(ancestorContinues, depth - 1);
        prefix := BuildPrefix(g, depth, ancestorContinues, isLast[i]);
        ResizeByOne(ancestorContinues, depth, !isLast[i]);
        ancestorContinues := Resize(ancestorContinues, depth);
        ancestorContinues := ancestorContinues[depth - 1 := !isLast[i]];
      }
      ghost var rest := Walk(g, entries[i + 1..], isLast[i + 1..], ancestorContinues);
      RowDone(out, prefix, rest);
      out := out + [prefix];
    }
    assert Walk(g, entries[|entries|..], isLast[|entries|..], ancestorContinues) == [] by {
      NoRows(g, ancestorContinues);
    }
    assert out + [] == out;
  }

  lemma NoRows(g: Glyphs, stack: seq<bool>)
    ensures Walk(g, [], [], stack) == []
  {
  }

  // ---------------------------------------------------------------- the two agree

  lemma {:induction false} ListedParents(ts: seq<Tree>, parent: Option<string>, depth: nat)
    ensures |ListTrees(ts, parent, depth)| == |Ids(ts)|
    ensures forall e <- ListTrees(ts, parent, depth) ::
              e.parent == parent || (e.parent.Some? && e.parent.value in Ids(ts))
  {
    if ts != [] {
      ListedParents(ts[0].children, Some(ts[0].id), depth + 1);
      ListedParents(ts[1..], parent, depth);
    }
  }

  /** Nobody in `post` is a child of `parent` or of a node of `ts`. */
  ghost predicate Apart(ts: seq<Tree>, parent: Option<string>, post: seq<BranchEntry>) {
    && Distinct(Ids(ts))
    && (parent.Some? ==> parent.value !in Ids(ts))
    && forall e <- post :: e.parent != parent && (e.parent.Some? ==> e.parent.value !in Ids(ts))
  }

  ghost predicate Flags(entries: seq<BranchEntry>, last: seq<bool>) {
    |last| == |entries| && forall i | 0 <= i < |entries| :: last[i] <==> IsLast(entries, i)
  }

  lemma DistinctParts(a: seq<string>, b: seq<string>)
    requires Distinct(a + b)
    ensures Distinct(a) && Distinct(b) && forall x <- a :: x !in b
  {
    assert forall i | 0 <= i < |b| :: (a + b)[|a| + i] == b[i];
    assert forall i | 0 <= i < |a| :: (a + b)[i] == a[i];
  }

  lemma ApartBelow(ts: seq<Tree>, parent: Option<string>, depth: nat, post: seq<BranchEntry>)
    requires ts != [] && Apart(ts, parent, post)
    ensures Apart(ts[0].children, Some(ts[0].id), ListTrees(ts[1..], parent, depth) + post)
    ensures Apart(ts[1..], parent, post)
  {
    DistinctParts([ts[0].id] + Ids(ts[0].children), Ids(ts[1..]));
    DistinctParts([ts[0].id], Ids(ts[0].children));
    assert ts[0].id in [ts[0].id] + Ids(ts[0].children);
    assert forall x <- Ids(ts[0].children) :: x in [ts[0].id] + Ids(ts[0].children);
    ListedParents(ts[1..], parent, depth);
  }

  /** A first child is the last one exactly when it has no siblings left. */
  lemma FirstIsLast(entries: seq<BranchEntry>, ts: seq<Tree>, parent: Option<string>, depth: nat,
                    post: seq<BranchEntry>)
    requires ts != [] && Apart(ts, parent, post)
    requires entries == ListTrees(ts, parent, depth) + post
    ensures entries != [] && (IsLast(entries, 0) <==> |ts| == 1)
  {
    var below := ListTrees(ts[0].children, Some(ts[0].id), depth + 1);
    var beside := ListTrees(ts[1..], parent, depth);
    assert entries == [BranchEntry(ts[0].id, parent, depth)] + below + beside + post;
    ListedParents(ts[0].children, Some(ts[0].id), depth + 1);
    if |ts| == 1 {
      forall j | 0 < j < |entries| ensures entries[j].parent != parent {
        if j <= |below| {
          assert entries[j] == below[j - 1];
          assert entries[j] in below;
        } else {
          assert entries[j] == post[j - |below| - 1];
          assert entries[j] in post;
        }
      }
    } else {
      var j := 1 + |below|;
      assert entries[j] == beside[0];
      assert entries[j].parent == parent;
    }
  }

  /** The walk with every row's flag read off the rows themselves. */
  ghost function FlaggedWalk(g: Glyphs, entries: seq<BranchEntry>, stack: seq<bool>): seq<string> {
    if entries == [] then []
    else if entries[0].depth == 0 then [""] + FlaggedWalk(g, entries[1..], [])
    else
      var guides, last := Resize(stack, entries[0].depth - 1), IsLast(entries, 0);
      [RowPrefix(g, guides, last)] + FlaggedWalk(g, entries[1..], guides + [!last])
  }

  lemma {:induction false} WalkIsFlagged(g: Glyphs, entries: seq<BranchEntry>, last: seq<bool>, stack: seq<bool>)
    requires Flags(entries, last)
    ensures Walk(g, entries, last, stack) == FlaggedWalk(g, entries, stack)
    decreases |entries|
  {
    if entries != [] {
      hide RowPrefix;
      forall i | 0 <= i < |entries| - 1 ensures last[1..][i] <==> IsLast(entries[1..], i) {
        assert last[1 + i] <==> IsLast(entries, 1 + i);
        assert forall j | i < j < |entries| - 1 :: entries[1..][j] == entries[1 + j];
        assert forall j | 1 + i < j < |entries| :: entries[j] == entries[1..][j - 1];
      }
      var guides := if entries[0].depth == 0 then [] else Resize(stack, entries[0].depth - 1) + [!last[0]];
      WalkIsFlagged(g, entries[1..], last[1..], guides);
    }
  }

  // The listing and the drawing once more, each in front of what follows it.

  function ListBefore(ts: seq<Tree>, parent: Option<string>, depth: nat, post: seq<BranchEntry>): seq<BranchEntry> {
    if ts == [] then post
    else
      [BranchEntry(ts[0].id, parent, depth)]
      + ListBefore(ts[0].children, Some(ts[0].id), depth + 1, ListBefore(ts[1..], parent, depth, post))
  }

  function DrawBefore(g: Glyphs, ts: seq<Tree>, guides: seq<bool>, rest: seq<string>): seq<string> {
    if ts == [] then rest
    else
      [RowPrefix(g, guides, |ts| == 1)]
      + DrawBefore(g, ts[0].children, guides + [|ts| > 1], DrawBefore(g, ts[1..], guides, rest))
  }

  lemma {:induction false} ListedBefore(ts: seq<Tree>, parent: Option<string>, depth: nat, post: seq<BranchEntry>)
    ensures ListBefore(ts, parent, depth, post) == ListTrees(ts, parent, depth) + post
  {
    if ts == [] {
      assert ListTrees(ts, parent, depth) + post == post;
    } else {
      var below, beside := ListTrees(ts[0].children, Some(ts[0].id), depth + 1), ListTrees(ts[1..], parent, depth);
      ListedBefore(ts[1..], parent, depth, post);
      ListedBefore(ts[0].children, Some(ts[0].id), depth + 1, beside + post);
      GroupSplit(BranchEntry(ts[0].id, parent, depth), below, beside, post);
    }
  }

  lemma GroupSplit<T>(head: T, below: seq<T>, beside: seq<T>, post: seq<T>)
    ensures [head] + (below + (beside + post)) == [head] + below + beside + post
  {
  }

  lemma {:induction false} DrawnBefore(g: Glyphs, ts: seq<Tree>, guides: seq<bool>, rest: seq<string>)
    ensures DrawBefore(g, ts, guides, rest) == DrawChildren(g, ts, guides) + rest
  {
    hide RowPrefix;
    if ts == [] {
      assert DrawChildren(g, ts, guides) + rest == rest;
    } else {
      var below, beside := DrawChildren(g, ts[0].children, guides + [|ts| > 1]), DrawChildren(g, ts[1..], guides);
      DrawnBefore(g, ts[1..], guides, rest);
      DrawnBefore(g, ts[0].children, guides + [|ts| > 1], beside + rest);
      GroupSplit(RowPrefix(g, guides, |ts| == 1), below, beside, rest);
    }
  }

  /**
   A group of siblings with everything below it: the walk draws it as the recursion does, and leaves the guides
   of the group's own ancestors as it found them.
   */
  lemma {:induction false} WalkGroup(g: Glyphs, ts: seq<Tree>, parent: Option<string>, depth: nat,
      post: seq<BranchEntry>, stack: seq<bool>)
      returns (after: seq<bool>)
    requires depth > 0 && Apart(ts, parent, post) && |stack| >= depth - 1
    ensures |after| >= depth - 1 && after[..depth - 1] == stack[..depth - 1]
    ensures FlaggedWalk(g, ListBefore(ts, parent, depth, post), stack) ==
            DrawBefore(g, ts, stack[..depth - 1], FlaggedWalk(g, post, after))
    decreases ts
  {
    hide RowPrefix, IsLast, Apart, FlaggedWalk, ListTrees;
    if ts == [] {
      after := stack;
    } else {
      var guides := stack[..depth - 1];
      var beside := ListBefore(ts[1..], parent, depth, post);
      ListedBefore(ts, parent, depth, post);
      ListedBefore(ts[1..], parent, depth, post);
      FirstIsLast(ListBefore(ts, parent, depth, post), ts, parent, depth, post);
      ApartBelow(ts, parent, depth, post);
      var deeper := guides + [|ts| > 1];
      var between := WalkGroup(g, ts[0].children, Some(ts[0].id), depth + 1, beside, deeper);
      assert deeper[..depth] == deeper && between[..depth - 1] == between[..depth][..depth - 1] == guides;
      after := WalkGroup(g, ts[1..], parent, depth, post, between);
      WalkOne(g, BranchEntry(ts[0].id, parent, depth), ListBefore(ts[0].children, Some(ts[0].id), depth + 1, beside),
              stack);
    }
  }

  lemma WalkOne(g: Glyphs, head: BranchEntry, rest: seq<BranchEntry>, stack: seq<bool>)
    requires 0 < head.depth <= |stack| + 1
    ensures var guides, last := stack[..head.depth - 1], IsLast([head] + rest, 0);
      FlaggedWalk(g, [head] + rest, stack) == [RowPrefix(g, guides, last)] + FlaggedWalk(g, rest, guides + [!last])
  {
    hide RowPrefix, IsLast;
    assert ([head] + rest)[1..] == rest;
  }

  lemma {:induction false} ForestParents(roots: seq<Root>)
    ensures forall e <- ListForest(roots) ::
      e.parent.Some? ==> e.parent.value in ForestIds(roots) || exists r <- roots :: r.parent == e.parent
  {
    if roots != [] {
      ForestParents(roots[1..]);
      ListedParents([roots[0].tree], roots[0].parent, 0);
      assert roots[0] in roots;
    }
  }

  lemma {:induction false} WalkForest(g: Glyphs, roots: seq<Root>, stack: seq<bool>)
    requires WellFormed(roots)
    ensures FlaggedWalk(g, ListForest(roots), stack) == DrawForest(g, roots)
    decreases |roots|
  {
    hide RowPrefix, IsLast, WellFormed, Apart, ListTrees, DrawChildren, FlaggedWalk, ListForest, DrawForest, Ids;
    if roots == [] {
      NoForest(g);
      WalkNothing(g, stack);
    } else {
      var t, post := roots[0].tree, ListForest(roots[1..]);
      FirstOfForest(g, roots);
      RestWellFormed(roots);
      var none: seq<bool> := [];
      var after := WalkGroup(g, t.children, Some(t.id), 1, post, none);
      assert none[..0] == none;
      ListedBefore(t.children, Some(t.id), 1, post);
      DrawnBefore(g, t.children, none, FlaggedWalk(g, post, after));
      WalkForest(g, roots[1..], after);
      WalkRoot(g, BranchEntry(t.id, roots[0].parent, 0), ListBefore(t.children, Some(t.id), 1, post), stack);
    }
  }

  lemma NoForest(g: Glyphs)
    ensures ListForest([]) == [] && DrawForest(g, []) == []
  {
  }

  lemma WalkNothing(g: Glyphs, stack: seq<bool>)
    ensures FlaggedWalk(g, [], stack) == []
  {
  }

  lemma WalkRoot(g: Glyphs, head: BranchEntry, rest: seq<BranchEntry>, stack: seq<bool>)
    requires head.depth == 0
    ensures FlaggedWalk(g, [head] + rest, stack) == [""] + FlaggedWalk(g, rest, [])
  {
    hide RowPrefix, IsLast;
    assert ([head] + rest)[1..] == rest;
  }

  lemma FirstOfForest(g: Glyphs, roots: seq<Root>)
    requires roots != []
    ensures var t := roots[0].tree;
      && ListForest(roots) ==
         [BranchEntry(t.id, roots[0].parent, 0)] + (ListTrees(t.children, Some(t.id), 1) + ListForest(roots[1..]))
      && DrawForest(g, roots) == [""] + (DrawChildren(g, t.children, []) + DrawForest(g, roots[1..]))
      && Ids([t]) == [t.id] + Ids(t.children)
  {
    hide RowPrefix, DrawChildren, ListTrees, Ids;
    var r := roots[0];
    OnlyTree(r.tree, r.parent);
    FirstDrawn(g, roots);
    Rooted(BranchEntry(r.tree.id, r.parent, 0), ListTrees(r.tree.children, Some(r.tree.id), 1), ListForest(roots[1..]));
  }

  lemma OnlyTree(t: Tree, parent: Option<string>)
    ensures ListTrees([t], parent, 0) == [BranchEntry(t.id, parent, 0)] + ListTrees(t.children, Some(t.id), 1)
    ensures Ids([t]) == [t.id] + Ids(t.children)
  {
    var ts := [t];
    assert ts[1..] == [];
    assert ListTrees(ts[1..], parent, 0) == [] && Ids(ts[1..]) == [];
    assert ListTrees(ts, parent, 0) == [BranchEntry(t.id, parent, 0)] + ListTrees(ts[0].children, Some(t.id), 1) + [];
  }

  lemma Rooted(head: BranchEntry, below: seq<BranchEntry>, post: seq<BranchEntry>)
    ensures [head] + below + post == [head] + (below + post)
  {
  }

  lemma FirstDrawn(g: Glyphs, roots: seq<Root>)
    requires roots != []
    ensures DrawForest(g, roots) == [""] + (DrawChildren(g, roots[0].tree.children, []) + DrawForest(g, roots[1..]))
  {
    hide DrawChildren;
  }

  lemma RestWellFormed(roots: seq<Root>)
    requires roots != [] && WellFormed(roots)
    requires Ids([roots[0].tree]) == [roots[0].tree.id] + Ids(roots[0].tree.children)
    ensures WellFormed(roots[1..])
    ensures Apart(roots[0].tree.children, Some(roots[0].tree.id), ListForest(roots[1..]))
  {
    var t := roots[0].tree;
    DistinctParts(Ids([t]), ForestIds(roots[1..]));
    DistinctParts([t.id], Ids(t.children));
    assert t.id in Ids([t]) && forall x <- Ids(t.children) :: x in Ids([t]);
    assert forall x <- Ids([t]) :: x in ForestIds(roots);
    assert forall x <- ForestIds(roots[1..]) :: x in ForestIds(roots);
    assert forall r <- roots[1..] :: r in roots;
    ForestParents(roots[1..]);
  }

  /** The stack pass draws any forest in pre-order exactly as the recursive printer does. */
  method DrawBranches(g: Glyphs, ghost roots: seq<Root>, entries: seq<BranchEntry>) returns (prefixes: seq<string>)
    requires WellFormed(roots) && entries == ListForest(roots)
    ensures prefixes == DrawForest(g, roots)
  {
    var isLast := ComputeLastChildFlags(entries);
    WalkIsFlagged(g, entries, isLast, []);
    WalkForest(g, roots, []);
    prefixes := BuildTreePrefixes(g, entries, isLast);
  }

  /** However deep the tree, a prefix is at most an elision mark and eight segments wide. */
  lemma PrefixWidth(g: Glyphs, guides: seq<bool>, last: bool)
    ensures |RowPrefix(g, guides, last)| ==
            if |guides| < MAX_INDENT_LEVELS then 3 * (|guides| + 1) else 2 + 3 * MAX_INDENT_LEVELS
  {
    FillersWidth(g, guides);
    if |guides| >= MAX_INDENT_LEVELS {
      FillersWidth(g, guides[|guides| - (MAX_INDENT_LEVELS - 1)..]);
    }
  }

  lemma {:induction false} FillersWidth(g: Glyphs, guides: seq<bool>)
    ensures |Fillers(g, guides)| == 3 * |guides|
  {
    if guides != [] {
      FillersWidth(g, guides[..|guides| - 1]);
    }
  }
}
