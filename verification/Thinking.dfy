/**
 The reasoning panel's text: bytes stream in, only the newest are kept, and characters are never cut in half.
 */
module Thinking {
  const MAX_RETAINED_BYTES := 65536

  newtype Byte = b: int | 0 <= b < 256

  /** A UTF-8 continuation byte. */
  predicate Continues(b: Byte) {
    128 <= b < 192
  }

  predicate IsBoundary(text: seq<Byte>, at: nat)
    requires at <= |text|
  {
    at == |text| || !Continues(text[at])
  }

  /** Every `&str` starts with the first byte of a character. */
  predicate StartsWhole(text: seq<Byte>) {
    IsBoundary(text, 0)
  }

  function Newlines(text: seq<Byte>): nat
    decreases |text|
  {
    if text == [] then 0 else Newlines(text[..|text| - 1]) + if text[|text| - 1] == 10 then 1 else 0
  }

  /** How much the cap takes off the front: the first character boundary at or after the excess. */
  ghost predicate IsCut(full: seq<Byte>, cut: nat) {
    && cut <= |full| && IsBoundary(full, cut) && |full| - cut <= MAX_RETAINED_BYTES
    && forall k | 0 <= k < cut && IsBoundary(full, k) :: |full| - k > MAX_RETAINED_BYTES
  }

  /** `kept` is the longest suffix of `full` that starts a character and fits. */
  ghost predicate Retains(full: seq<Byte>, kept: seq<Byte>) {
    |kept| <= |full| && full[|full| - |kept|..] == kept && IsCut(full, |full| - |kept|)
  }

  lemma RetainedIsUnique(full: seq<Byte>, a: seq<Byte>, b: seq<Byte>)
    requires Retains(full, a) && Retains(full, b)
    ensures a == b
  {
    var i, j := |full| - |a|, |full| - |b|;
    assert IsBoundary(full, i) && IsBoundary(full, j);
  }

  lemma RetainedShape(full: seq<Byte>, kept: seq<Byte>)
    requires Retains(full, kept)
    ensures StartsWhole(kept) && |kept| <= MAX_RETAINED_BYTES
    ensures |kept| <= |full| && (|kept| == |full| <==> kept == full)
  {
    assert IsBoundary(full, |full| - |kept|);
    assert full[0..] == full;
  }

  lemma WholeAppend(a: seq<Byte>, b: seq<Byte>)
    requires StartsWhole(a) && StartsWhole(b)
    ensures StartsWhole(a + b)
  {
    assert a == [] ==> a + b == b;
  }

  lemma {:induction false} NewlinesAppend(a: seq<Byte>, b: seq<Byte>)
    ensures Newlines(a + b) == Newlines(a) + Newlines(b)
    decreases |b|
  {
    if b == [] {
      assert a + b == a;
    } else {
      assert (a + b)[..|a + b| - 1] == a + b[..|b| - 1];
      NewlinesAppend(a, b[..|b| - 1]);
    }
  }

  /** Keeping the tail of a tail: what was dropped before would be dropped anyway. */
  lemma TrimmingComposes(full: seq<Byte>, kept: seq<Byte>, delta: seq<Byte>, now: seq<Byte>)
    requires Retains(full, kept) && StartsWhole(delta) && delta != [] && Retains(kept + delta, now)
    ensures Retains(full + delta, now)
  {
    var cut, again := |full| - |kept|, |kept| + |delta| - |now|;
    var all, part := full + delta, kept + delta;
    assert part == all[cut..];
    assert now == all[cut + again..];
    assert IsBoundary(all, cut + again) by {
      assert IsBoundary(part, again);
    }
    forall k | 0 <= k < cut + again && IsBoundary(all, k) ensures |all| - k > MAX_RETAINED_BYTES {
      if k < cut {
        assert IsBoundary(full, k);
      } else {
        assert IsBoundary(part, k - cut);
      }
    }
  }

  lemma ReadyToTrim(full: seq<Byte>, kept: seq<Byte>, delta: seq<Byte>)
    requires Retains(full, kept) && StartsWhole(delta)
    ensures StartsWhole(kept + delta)
  {
    hide Retains, StartsWhole;
    RetainedShape(full, kept);
    WholeAppend(kept, delta);
  }

  /** What one delta does to the retained text and to the trim mark. */
  lemma DeltaRetained(full: seq<Byte>, kept: seq<Byte>, marked: bool, delta: seq<Byte>, now: seq<Byte>, markedNow: bool)
    requires Retains(full, kept) && (marked <==> kept != full) && StartsWhole(full)
    requires StartsWhole(delta) && delta != [] && Retains(kept + delta, now)
    requires markedNow <==> marked || now != kept + delta
    ensures Retains(full + delta, now) && StartsWhole(full + delta) && |now| <= MAX_RETAINED_BYTES
    ensures markedNow <==> now != full + delta
  {
    hide Retains, StartsWhole;
    TrimmingComposes(full, kept, delta, now);
    RetainedShape(full, kept);
    RetainedShape(full + delta, now);
    RetainedShape(kept + delta, now);
    WholeAppend(full, delta);
    assert markedNow <==> |now| < |full + delta|;
  }

  class ThinkingComponent {
    var text: seq<Byte>
    var rawNewlines: nat
    var trimmed: bool
    /** Everything since the last replacing `SetText`. */
    ghost var full: seq<Byte>

    ghost predicate Valid()
      reads this
    {
      && Retains(full, text)
      && rawNewlines == Newlines(text)
      && (trimmed <==> text != full)
      && StartsWhole(full) && |text| <= MAX_RETAINED_BYTES
    }

    constructor ()
      ensures Valid() && text == [] && full == []
    {
      text, rawNewlines, trimmed, full := [], 0, false, [];
    }

    method PushDelta(delta: seq<Byte>)
      requires Valid() && StartsWhole(delta)
      modifies this
      ensures Valid() && full == old(full) + delta
    {
      hide Retains, StartsWhole, Newlines;
      ghost var whole, kept, marked := full, text, trimmed;
      if delta != [] {
        NewlinesAppend(kept, delta);
        ReadyToTrim(whole, kept, delta);
        text := text + delta;
        rawNewlines := rawNewlines + Newlines(delta);
        TrimToCap();
        DeltaRetained(whole, kept, marked, delta, text, trimmed);
        full := whole + delta;
      } else {
        assert whole + delta == whole;
      }
    }

    /** Replaces everything, unless the text is already exactly this. */
    method SetText(replacement: seq<Byte>)
      requires Valid() && StartsWhole(replacement)
      modifies this
      ensures Valid() && full == if replacement == old(text) then old(full) else replacement
    {
      if replacement == text {
        return;
      }
      text := replacement;
      rawNewlines := Newlines(text);
      trimmed := false;
      full := replacement;
      TrimToCap();
    }

    /** Drops the oldest bytes, and keeps the newline count in step with what is left. */
    method TrimToCap()
      requires StartsWhole(text) && rawNewlines == Newlines(text)
      modifies this`text, this`rawNewlines, this`trimmed
      ensures Retains(old(text), text)
      ensures rawNewlines == Newlines(text)
      ensures trimmed <==> old(trimmed) || text != old(text)
    {
      if |text| <= MAX_RETAINED_BYTES {
        assert text[0..] == text;
        return;
      }
      var cut := |text| - MAX_RETAINED_BYTES;
      while cut < |text| && !IsBoundary(text, cut)
        invariant |text| - MAX_RETAINED_BYTES <= cut <= |text|
        invariant forall k | |text| - MAX_RETAINED_BYTES <= k < cut :: !IsBoundary(text, k)
      {
        cut := cut + 1;
      }
      var droppedNewlines := Newlines(text[..cut]);
      NewlinesAppend(text[..cut], text[cut..]);
      assert text == text[..cut] + text[cut..];
      rawNewlines := rawNewlines - droppedNewlines; // never saturates
      text := text[cut..];
      trimmed := true;
    }
  }

  function Concat(deltas: seq<seq<Byte>>): seq<Byte>
    decreases |deltas|
  {
    if deltas == [] then [] else Concat(deltas[..|deltas| - 1]) + deltas[|deltas| - 1]
  }

  /** However a stream is split into deltas, the same text, newline count and trim mark come out. */
  method StreamTwice(a: seq<seq<Byte>>, b: seq<seq<Byte>>) returns (one: ThinkingComponent, two: ThinkingComponent)
    requires Concat(a) == Concat(b)
    requires (forall d <- a :: StartsWhole(d)) && (forall d <- b :: StartsWhole(d))
    ensures one.text == two.text && one.rawNewlines == two.rawNewlines && one.trimmed == two.trimmed
    ensures Retains(Concat(a), one.text) && one.rawNewlines == Newlines(one.text)
  {
    one := Stream(a);
    two := Stream(b);
    RetainedIsUnique(Concat(a), one.text, two.text);
  }

  method Stream(deltas: seq<seq<Byte>>) returns (panel: ThinkingComponent)
    requires forall d <- deltas :: StartsWhole(d)
    ensures fresh(panel) && panel.Valid() && panel.full == Concat(deltas)
  {
    panel := new ThinkingComponent();
    for i := 0 to |deltas|
      invariant panel.Valid() && fresh(panel) && panel.full == Concat(deltas[..i])
    {
      assert deltas[..i + 1][..i] == deltas[..i];
      panel.PushDelta(deltas[i]);
    }
    assert deltas[..|deltas|] == deltas;
  }
}
