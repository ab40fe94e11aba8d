/**
 Writing a double the way ECMAScript does, from its shortest digits and exponent. The text is read back by a
 reader of the JSON number grammar (section 6 of RFC 8259) that knows nothing of how it was written.
 */
module JsNumbers {
  import opened Decimals
  import opened Options

  /** A finite non-zero double is 0.d1d2...dk times ten to the exponent plus one. */
  datatype Double = NotFinite | Zero | Finite(neg: bool, digits: string, exp: int)

  /** Shortest digits: at least one, no zero at either end. */
  predicate Shortest(digits: string) {
    digits != "" && AllDigits(digits) && digits[0] != '0' && digits[|digits| - 1] != '0'
  }

  function Zeros(n: nat): (s: string)
    ensures |s| == n && AllDigits(s) && forall i | 0 <= i < n :: s[i] == '0'
  {
    seq(n, i => '0')
  }

  // ---------------------------------------------------------------- the JSON number grammar

  datatype Sign = Unsigned | Plus | Minus

  datatype Exponent = Exponent(sign: Sign, digits: string)

  /** A number by the pieces of the grammar: minus, int, frac, exp. */
  datatype Literal = Literal(neg: bool, whole: string, frac: Option<string>, exponent: Option<Exponent>)

  predicate ValidLiteral(l: Literal) {
    && l.whole != "" && AllDigits(l.whole) && (l.whole[0] == '0' ==> |l.whole| == 1)
    && (l.frac.Some? ==> l.frac.value != "" && AllDigits(l.frac.value))
    && (l.exponent.Some? ==> l.exponent.value.digits != "" && AllDigits(l.exponent.value.digits))
  }

  function FracText(frac: Option<string>): string {
    if frac.None? then "" else "." + frac.value
  }

  function SignText(sign: Sign): string {
    match sign case Unsigned => "" case Plus => "+" case Minus => "-"
  }

  function ExponentText(e: Option<Exponent>): string {
    if e.None? then "" else "e" + SignText(e.value.sign) + e.value.digits
  }

  function Text(l: Literal): string {
    (if l.neg then "-" else "") + l.whole + FracText(l.frac) + ExponentText(l.exponent)
  }

  /** Recognises a number and takes it apart; `None` when the text is not one. */
  function Scan(s: string): (l: Option<Literal>)
    ensures l.Some? ==> ValidLiteral(l.value)
  {
    if s != "" && s[0] == '-' then ScanWhole(true, s[1..]) else ScanWhole(false, s)
  }

  function ScanWhole(neg: bool, s: string): (l: Option<Literal>)
    ensures l.Some? ==> ValidLiteral(l.value)
  {
    var n := DigitRun(s);
    if n == 0 || (s[0] == '0' && n > 1) then None
    else ScanFrac(neg, s[..n], s[n..])
  }

  function ScanFrac(neg: bool, whole: string, s: string): (l: Option<Literal>)
    requires ValidLiteral(Literal(neg, whole, None, None))
    ensures l.Some? ==> ValidLiteral(l.value)
  {
    if s == "" || s[0] != '.' then ScanExponent(neg, whole, None, s)
    else
      var n := DigitRun(s[1..]);
      if n == 0 then None else ScanExponent(neg, whole, Some(s[1..][..n]), s[1..][n..])
  }

  function ScanExponent(neg: bool, whole: string, frac: Option<string>, s: string): (l: Option<Literal>)
    requires ValidLiteral(Literal(neg, whole, frac, None))
    ensures l.Some? ==> ValidLiteral(l.value)
  {
    if s == "" then Some(Literal(neg, whole, frac, None))
    else if s[0] != 'e' && s[0] != 'E' then None
    else
      var sign := if |s| > 1 && s[1] == '+' then Plus else if |s| > 1 && s[1] == '-' then Minus else Unsigned;
      var digits := if sign.Unsigned? then s[1..] else s[2..];
      if digits == "" || !AllDigits(digits) then None
      else Some(Literal(neg, whole, frac, Some(Exponent(sign, digits))))
  }

  lemma ScanExponentText(neg: bool, whole: string, frac: Option<string>, e: Option<Exponent>)
    requires ValidLiteral(Literal(neg, whole, frac, e))
    ensures ScanExponent(neg, whole, frac, ExponentText(e)) == Some(Literal(neg, whole, frac, e))
  {
    if e.Some? {
      var s := ExponentText(e);
      if e.value.sign.Unsigned? {
        assert s == "e" + e.value.digits && s[1..] == e.value.digits && IsDigit(s[1]);
      } else {
        assert s[2..] == e.value.digits;
      }
    }
  }

  lemma ScanFracText(l: Literal)
    requires ValidLiteral(l)
    ensures ScanFrac(l.neg, l.whole, FracText(l.frac) + ExponentText(l.exponent)) == Some(l)
  {
    hide ScanExponent;
    var tail := ExponentText(l.exponent);
    assert tail == "" || tail[0] == 'e';
    ScanExponentText(l.neg, l.whole, l.frac, l.exponent);
    if l.frac.Some? {
      RunOf(l.frac.value, tail);
      assert (FracText(l.frac) + tail)[1..] == l.frac.value + tail;
    } else {
      assert FracText(l.frac) + tail == tail;
    }
  }

  lemma ScanWholeText(l: Literal)
    requires ValidLiteral(l)
    ensures var unsigned := l.whole + (FracText(l.frac) + ExponentText(l.exponent));
      && ScanWhole(l.neg, unsigned) == Some(l)
      && IsDigit(unsigned[0])
  {
    hide ScanFrac, DigitRun;
    var rest := FracText(l.frac) + ExponentText(l.exponent);
    assert rest == "" || rest[0] == '.' || rest[0] == 'e';
    ScanFracText(l);
    RunOf(l.whole, rest);
  }

  /** The grammar is unambiguous: what was put together is taken apart again. */
  lemma ScanText(l: Literal)
    requires ValidLiteral(l)
    ensures Scan(Text(l)) == Some(l)
  {
    hide ScanWhole, ExponentText, FracText, ValidLiteral;
    ScanWholeText(l);
    var unsigned := l.whole + (FracText(l.frac) + ExponentText(l.exponent));
    if l.neg {
      assert Text(l) == "-" + unsigned && ("-" + unsigned)[1..] == unsigned;
    } else {
      assert Text(l) == unsigned;
    }
  }

  // ---------------------------------------------------------------- what a number denotes

  function StripEnd(ds: string): string
    decreases |ds|
  {
    if ds != "" && ds[|ds| - 1] == '0' then StripEnd(ds[..|ds| - 1]) else ds
  }

  /** Digits with the decimal point after the first `point` of them, brought to shortest form. */
  function Normalize(neg: bool, ds: string, point: int): Double {
    if ds != "" && ds[0] == '0' then Normalize(neg, ds[1..], point - 1)
    else if StripEnd(ds) == "" then Zero
    else Finite(neg, StripEnd(ds), point - 1)
  }

  function Denotes(l: Literal): Double
    requires ValidLiteral(l)
  {
    var e: int :=
      if l.exponent.None? then 0
      else if l.exponent.value.sign == Minus then -(ReadNat(l.exponent.value.digits) as int)
      else ReadNat(l.exponent.value.digits);
    Normalize(l.neg, l.whole + l.frac.GetOr(""), |l.whole| + e)
  }

  function Read(s: string): Option<Double> {
    match Scan(s)
    case None => None
    case Some(l) => Some(Denotes(l))
  }

  lemma {:induction false} StripZeros(s: string, n: nat)
    requires s != "" && s[|s| - 1] != '0'
    ensures StripEnd(s + Zeros(n)) == s
    decreases n
  {
    if n == 0 {
      assert s + Zeros(n) == s;
    } else {
      assert (s + Zeros(n))[..|s| + n - 1] == s + Zeros(n - 1);
      StripZeros(s, n - 1);
    }
  }

  lemma {:induction false} NormalizePadded(neg: bool, before: nat, digits: string, after: nat, point: int)
    requires Shortest(digits)
    ensures Normalize(neg, Zeros(before) + digits + Zeros(after), point) == Finite(neg, digits, point - before - 1)
    decreases before
  {
    if before == 0 {
      assert Zeros(0) + digits + Zeros(after) == digits + Zeros(after);
      StripZeros(digits, after);
    } else {
      assert (Zeros(before) + digits + Zeros(after))[1..] == Zeros(before - 1) + digits + Zeros(after);
      NormalizePadded(neg, before - 1, digits, after, point - 1);
    }
  }

  // ---------------------------------------------------------------- writing

  predicate InFixedRange(n: int) {
    -6 < n <= 21
  }

  /** The pieces of the number as section 6.1.6.1.20 of ECMA-262 lays them out. */
  function Layout(neg: bool, s: string, exp: int): (l: Literal)
    requires Shortest(s)
    ensures ValidLiteral(l)
    ensures l.exponent.Some? <==> !InFixedRange(exp + 1)
  {
    var k, n := |s|, exp + 1;
    if k <= n <= 21 then Literal(neg, s + Zeros(n - k), None, None)
    else if 0 < n <= 21 then Literal(neg, s[..n], Some(s[n..]), None)
    else if -6 < n <= 0 then Literal(neg, "0", Some(Zeros(-n) + s), None)
    else
      Literal(neg, s[..1], if k > 1 then Some(s[1..]) else None,
              Some(PowerOfTen(n - 1)))
  }

  lemma LayoutDenotes(neg: bool, s: string, exp: int)
    requires Shortest(s)
    ensures Denotes(Layout(neg, s, exp)) == Finite(neg, s, exp)
  {
    hide Normalize, Decimal, ReadNat, Zeros, AllDigits;
    var k, n := |s|, exp + 1;
    var l := Layout(neg, s, exp);
    var before, after := if -6 < n <= 0 then 1 - n else 0, if k <= n <= 21 then n - k else 0;
    NormalizePadded(neg, before, s, after, if -6 < n <= 0 then 1 else n);
    assert l.whole + l.frac.GetOr("") == Zeros(before) + s + Zeros(after);
    if !InFixedRange(n) {
      ReadDecimal(if n - 1 >= 0 then n - 1 else 1 - n);
    }
  }

  method PushZeros(text: string, n: nat) returns (out: string)
    ensures out == text + Zeros(n)
  {
    out := text;
    for i := 0 to n
      invariant out == text + Zeros(i)
    {
      out := out + "0";
    }
  }

  method PushExponential(text: string, s: string, n: int) returns (out: string)
    requires s != ""
    ensures out == text + Mantissa(s) + ExponentText(Some(PowerOfTen(n - 1)))
  {
    hide Decimal;
    out := text + s[..1];
    if |s| > 1 {
      out := out + ".";
      out := out + s[1..];
    }
    assert out == text + Mantissa(s);
    ghost var before := out;
    out := out + "e";
    var e := n - 1;
    if e >= 0 {
      out := out + "+";
      out := out + Decimal(e);
    } else {
      out := out + "-";
      out := out + Decimal(-e);
    }
    assert out == before + ExponentText(Some(PowerOfTen(e)));
  }

  function Mantissa(s: string): string
    requires s != ""
  {
    if |s| > 1 then s[..1] + "." + s[1..] else s
  }

  function PowerOfTen(e: int): Exponent {
    if e >= 0 then Exponent(Plus, Decimal(e)) else Exponent(Minus, Decimal(-e))
  }

  /** The text of the layout, in the order its pieces are written. */
  lemma LayoutText(neg: bool, s: string, exp: int)
    requires Shortest(s)
    ensures var k, n, sign := |s|, exp + 1, if neg then "-" else "";
      Text(Layout(neg, s, exp)) ==
        if k <= n <= 21 then sign + s + Zeros(n - k)
        else if 0 < n <= 21 then sign + s[..n] + "." + s[n..]
        else if -6 < n <= 0 then sign + "0." + Zeros(-n) + s
        else sign + Mantissa(s) + ExponentText(Some(PowerOfTen(n - 1)))
  {
    hide Decimal, AllDigits, Zeros, ExponentText, PowerOfTen, Text;
    var k, n, sign := |s|, exp + 1, if neg then "-" else "";
    if k <= n <= 21 {
      TextWithoutExponent(neg, s + Zeros(n - k), None);
      assert sign + s + Zeros(n - k) == sign + (s + Zeros(n - k));
    } else if 0 < n <= 21 {
      TextWithoutExponent(neg, s[..n], Some(s[n..]));
    } else if -6 < n <= 0 {
      TextWithoutExponent(neg, "0", Some(Zeros(-n) + s));
      assert sign + "0" + "." + (Zeros(-n) + s) == sign + "0." + Zeros(-n) + s;
    } else {
      var l := Layout(neg, s, exp);
      assert Text(l) == sign + (l.whole + FracText(l.frac)) + ExponentText(l.exponent) by { TextInOrder(l); }
      assert l.whole + FracText(l.frac) == Mantissa(s);
    }
  }

  lemma TextInOrder(l: Literal)
    ensures Text(l) == (if l.neg then "-" else "") + (l.whole + FracText(l.frac)) + ExponentText(l.exponent)
  {
  }

  lemma TextWithoutExponent(neg: bool, whole: string, frac: Option<string>)
    ensures Text(Literal(neg, whole, frac, None)) ==
            if frac.None? then (if neg then "-" else "") + whole
            else (if neg then "-" else "") + whole + "." + frac.value
  {
  }

  method JsNumber(v: Double) returns (out: string)
    requires v.Finite? ==> Shortest(v.digits)
    ensures v.NotFinite? ==> out == "null"
    ensures v.Zero? ==> out == "0"
    ensures v.Finite? ==> out == Text(Layout(v.neg, v.digits, v.exp))
  {
    hide Shortest, AllDigits, Decimal, Text, Layout, Zeros, Mantissa, ExponentText, PowerOfTen;
    if v.NotFinite? {
      return "null";
    }
    if v.Zero? {
      return "0";
    }
    var s := v.digits;
    HasDigit(s);
    var k, n := |s|, v.exp + 1;
    out := "";
    if v.neg {
      out := out + "-";
    }
    if k <= n && n <= 21 {
      out := out + s;
      out := PushZeros(out, n - k);
    } else if 0 < n && n <= 21 {
      out := out + s[..n];
      out := out + ".";
      out := out + s[n..];
    } else if -6 < n && n <= 0 {
      out := out + "0.";
      out := PushZeros(out, -n);
      out := out + s;
    } else {
      out := PushExponential(out, s, n);
    }
    LayoutText(v.neg, s, v.exp);
  }

  lemma HasDigit(s: string)
    requires Shortest(s)
    ensures s != ""
  {
  }

  /** Writing and reading back gives the same digits and exponent, and what is written is a JSON number. */
  method RoundTrip(v: Double) returns (text: string, back: Option<Double>)
    requires v.Finite? ==> Shortest(v.digits)
    ensures !v.NotFinite? ==> Scan(text).Some? && back == Some(v)
    ensures v.Finite? ==> (('e' in text) <==> !InFixedRange(v.exp + 1))
    ensures v.Finite? && |v.digits| <= 17 && -324 <= v.exp <= 324 ==> |text| <= 25
  {
    text := JsNumber(v);
    back := Read(text);
    if v.Finite? {
      WrittenReadsBack(v);
      WrittenForm(v);
    } else if v.Zero? {
      var l := Literal(false, "0", None, None);
      assert Text(l) == "0" by { assert "" + "0" + "" + "" == "0"; }
      ScanText(l);
      assert "0" + "" == "0" && "0"[1..] == "";
      assert StripEnd("") == "";
      assert Normalize(false, "0", 1) == Normalize(false, "", 0);
    }
  }

  lemma WrittenReadsBack(v: Double)
    requires v.Finite? && Shortest(v.digits)
    ensures Scan(Text(Layout(v.neg, v.digits, v.exp))).Some?
    ensures Read(Text(Layout(v.neg, v.digits, v.exp))) == Some(v)
  {
    ScanText(Layout(v.neg, v.digits, v.exp));
    LayoutDenotes(v.neg, v.digits, v.exp);
  }

  /** Exponential form exactly outside (-6, 21], and never more than 25 characters for a double. */
  lemma WrittenForm(v: Double)
    requires v.Finite? && Shortest(v.digits)
    ensures 'e' in Text(Layout(v.neg, v.digits, v.exp)) <==> !InFixedRange(v.exp + 1)
    ensures |v.digits| <= 17 && -324 <= v.exp <= 324 ==> |Text(Layout(v.neg, v.digits, v.exp))| <= 25
  {
    var l := Layout(v.neg, v.digits, v.exp);
    assert 'e' !in (if l.neg then "-" else "") + l.whole + FracText(l.frac);
    if l.exponent.Some? {
      assert Text(l)[|Text(l)| - |ExponentText(l.exponent)|] == 'e';
    }
  }
}
