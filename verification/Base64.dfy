/** The hand-written base64 encoder, against a decoder for section 4 of RFC 4648. */
module Base64 {
  import opened Options

  newtype Byte = b: int | 0 <= b < 256

  type Sextet = n: nat | n < 64

  /** The alphabet of Table 1 of RFC 4648. */
  function Symbol(n: Sextet): char {
    if n < 26 then ('A' as int + n) as char
    else if n < 52 then ('a' as int + (n - 26)) as char
    else if n < 62 then ('0' as int + (n - 52)) as char
    else if n == 62 then '+' else '/'
  }

  function ValueOf(c: char): Option<Sextet> {
    if 'A' <= c <= 'Z' then Some(c as int - 'A' as int)
    else if 'a' <= c <= 'z' then Some(c as int - 'a' as int + 26)
    else if '0' <= c <= '9' then Some(c as int - '0' as int + 52)
    else if c == '+' then Some(62) else if c == '/' then Some(63) else None
  }

  lemma SymbolsAreDistinct(n: Sextet)
    ensures ValueOf(Symbol(n)) == Some(n) && Symbol(n) != '='
  {
  }

  /** Bits 6k..6k+5 of a 24-bit group, `n >> 6k & 0x3f`. */
  function Digit(n: nat, k: nat): Sextet
    requires k < 4
  {
    n / (match k case 0 => 1 case 1 => 64 case 2 => 4096 case _ => 262144) % 64
  }

  function Group(a: Byte, b: Byte, c: Byte): nat {
    a as nat * 65536 + b as nat * 256 + c as nat
  }

  function Encode(input: seq<Byte>): string {
    if |input| == 0 then ""
    else if |input| == 1 then
      var n := Group(input[0], 0, 0);
      [Symbol(Digit(n, 3)), Symbol(Digit(n, 2)), '=', '=']
    else if |input| == 2 then
      var n := Group(input[0], input[1], 0);
      [Symbol(Digit(n, 3)), Symbol(Digit(n, 2)), Symbol(Digit(n, 1)), '=']
    else
      var n := Group(input[0], input[1], input[2]);
      [Symbol(Digit(n, 3)), Symbol(Digit(n, 2)), Symbol(Digit(n, 1)), Symbol(Digit(n, 0))] + Encode(input[3..])
  }

  lemma {:induction false} EncodeFrom(input: seq<Byte>, i: nat)
    requires i + 3 <= |input|
    ensures var n := Group(input[i], input[i + 1], input[i + 2]);
      Encode(input[i..]) ==
      [Symbol(Digit(n, 3)), Symbol(Digit(n, 2)), Symbol(Digit(n, 1)), Symbol(Digit(n, 0))] + Encode(input[i + 3..])
  {
    assert input[i..][3..] == input[i + 3..];
  }

  /** Whole groups of three first, then the padded remainder. */
  method Base64Encode(input: seq<Byte>) returns (out: string)
    ensures out == Encode(input)
  {
    hide Symbol, Digit, Group;
    out := "";
    var i := 0;
    assert input[0..] == input;
    while i + 3 <= |input|
      invariant 0 <= i <= |input|
      invariant out + Encode(input[i..]) == Encode(input)
    {
      EncodeFrom(input, i);
      var n := Group(input[i], input[i + 1], input[i + 2]);
      ghost var before := out;
      out := out + [Symbol(Digit(n, 3))];
      out := out + [Symbol(Digit(n, 2))];
      out := out + [Symbol(Digit(n, 1))];
      out := out + [Symbol(Digit(n, 0))];
      assert out == before + [Symbol(Digit(n, 3)), Symbol(Digit(n, 2)), Symbol(Digit(n, 1)), Symbol(Digit(n, 0))];
      i := i + 3;
    }
    var rest := input[i..];
    if |rest| == 1 {
      var n := Group(rest[0], 0, 0);
      out := out + [Symbol(Digit(n, 3)), Symbol(Digit(n, 2))];
      out := out + "==";
    } else if |rest| == 2 {
      var n := Group(rest[0], rest[1], 0);
      out := out + [Symbol(Digit(n, 3)), Symbol(Digit(n, 2)), Symbol(Digit(n, 1))];
      out := out + "=";
    }
  }

  // ---------------------------------------------------------------- decoding

  function Ungroup(w: Sextet, x: Sextet, y: Sextet, z: Sextet): (Byte, Byte, Byte) {
    var n := w * 262144 + x * 4096 + y * 64 + z;
    ((n / 65536) as Byte, (n / 256 % 256) as Byte, (n % 256) as Byte)
  }

  /** Quadruples of symbols; padding only in the last, and only over zero bits. */
  function Decode(s: string): Option<seq<Byte>> {
    if s == "" then Some([])
    else if |s| < 4 then None
    else
      match (ValueOf(s[0]), ValueOf(s[1]), ValueOf(s[2]), ValueOf(s[3]))
      case (Some(w), Some(x), Some(y), Some(z)) =>
        var (a, b, c) := Ungroup(w, x, y, z);
        (match Decode(s[4..]) case None => None case Some(rest) => Some([a, b, c] + rest))
      case (Some(w), Some(x), Some(y), None) =>
        if |s| == 4 && s[3] == '=' && y % 4 == 0 then Some([Ungroup(w, x, y, 0).0, Ungroup(w, x, y, 0).1]) else None
      case (Some(w), Some(x), None, None) =>
        if |s| == 4 && s[2] == '=' && s[3] == '=' && x % 16 == 0 then Some([Ungroup(w, x, 0, 0).0]) else None
      case _ => None
  }

  lemma HighDigits(a: Byte, b: Byte, c: Byte)
    ensures Digit(Group(a, b, c), 3) == a as nat / 4
    ensures Digit(Group(a, b, c), 2) == a as nat % 4 * 16 + b as nat / 16
  {
    var n := Group(a, b, c);
    assert n / 262144 == a as nat / 4;
    assert n / 4096 == a as nat * 16 + b as nat / 16;
  }

  lemma LowDigits(a: Byte, b: Byte, c: Byte)
    ensures Digit(Group(a, b, c), 1) == b as nat % 16 * 4 + c as nat / 64
    ensures Digit(Group(a, b, c), 0) == c as nat % 64
  {
    var n := Group(a, b, c);
    var w, x, y, z := a as nat, b as nat / 16, b as nat % 16, c as nat / 64;
    assert n == 64 * (64 * (16 * w + x) + (y * 4 + z)) + c as nat % 64;
    QuotientOf(n, 64 * (16 * w + x) + (y * 4 + z), c as nat % 64);
    QuotientOf(n / 64, 16 * w + x, y * 4 + z);
  }

  lemma QuotientOf(n: nat, q: nat, r: nat)
    requires n == 64 * q + r && r < 64
    ensures n / 64 == q && n % 64 == r
  {
  }

  lemma SextetsAddUp(a: nat, b: nat, c: nat)
    ensures a / 4 * 262144 + (a % 4 * 16 + b / 16) * 4096 + (b % 16 * 4 + c / 64) * 64 + c % 64 ==
            a * 65536 + b * 256 + c
  {
    assert a == a / 4 * 4 + a % 4 && b == b / 16 * 16 + b % 16 && c == c / 64 * 64 + c % 64;
  }

  lemma BytesOf(n: nat, a: nat, b: nat, c: nat)
    requires a < 256 && b < 256 && c < 256 && n == a * 65536 + b * 256 + c
    ensures n / 65536 == a && n / 256 % 256 == b && n % 256 == c
  {
    assert n / 256 == a * 256 + b;
  }

  lemma SextetsUngroup(a: nat, b: nat, c: nat)
    requires a < 256 && b < 256 && c < 256
    ensures Ungroup(a / 4, a % 4 * 16 + b / 16, b % 16 * 4 + c / 64, c % 64) == (a as Byte, b as Byte, c as Byte)
  {
    var w: Sextet, x: Sextet, y: Sextet, z: Sextet := a / 4, a % 4 * 16 + b / 16, b % 16 * 4 + c / 64, c % 64;
    var n := w * 262144 + x * 4096 + y * 64 + z;
    SextetsAddUp(a, b, c);
    BytesOf(n, a, b, c);
  }

  lemma DigitsUngroup(a: Byte, b: Byte, c: Byte)
    ensures var n := Group(a, b, c);
      && Ungroup(Digit(n, 3), Digit(n, 2), Digit(n, 1), Digit(n, 0)) == (a, b, c)
      && (c == 0 ==> Digit(n, 0) == 0 && Digit(n, 1) % 4 == 0)
      && (b == 0 && c == 0 ==> Digit(n, 1) == 0 && Digit(n, 2) % 16 == 0)
  {
    hide Digit, Group, Ungroup;
    HighDigits(a, b, c);
    LowDigits(a, b, c);
    SextetsUngroup(a as nat, b as nat, c as nat);
  }

  /** Decoding what was encoded gives the input back. */
  lemma {:induction false} DecodeInvertsEncode(input: seq<Byte>)
    ensures Decode(Encode(input)) == Some(input)
    decreases |input|
  {
    hide Group, Ungroup, Digit, Symbol, ValueOf;
    if input != [] {
      var a, b, c := input[0], if |input| > 1 then input[1] else 0, if |input| > 2 then input[2] else 0;
      var n := Group(a, b, c);
      DigitsUngroup(a, b, c);
      SymbolsAreDistinct(Digit(n, 3));
      SymbolsAreDistinct(Digit(n, 2));
      SymbolsAreDistinct(Digit(n, 1));
      SymbolsAreDistinct(Digit(n, 0));
      PaddingIsNoSymbol();
      if |input| >= 3 {
        DecodeInvertsEncode(input[3..]);
        assert Encode(input)[4..] == Encode(input[3..]);
        assert [a, b, c] + input[3..] == input;
      } else {
        assert input == if |input| == 1 then [a] else [a, b];
      }
    }
  }

  lemma PaddingIsNoSymbol()
    ensures ValueOf('=') == None
  {
  }

  /** Four symbols for every three bytes begun, all from the alphabet but for the padding at the very end. */
  lemma {:induction false} Shape(input: seq<Byte>)
    ensures |Encode(input)| == 4 * ((|input| + 2) / 3)
    ensures forall i | 0 <= i < |Encode(input)| ::
      if i + (2 * |input|) % 3 < |Encode(input)| then ValueOf(Encode(input)[i]).Some? else Encode(input)[i] == '='
    decreases |input|
  {
    hide Group, Digit, Symbol, ValueOf;
    if input != [] {
      var a, b, c := input[0], if |input| > 1 then input[1] else 0, if |input| > 2 then input[2] else 0;
      var n := Group(a, b, c);
      SymbolsAreDistinct(Digit(n, 3));
      SymbolsAreDistinct(Digit(n, 2));
      SymbolsAreDistinct(Digit(n, 1));
      SymbolsAreDistinct(Digit(n, 0));
      if |input| >= 3 {
        Shape(input[3..]);
      }
    }
  }
}
