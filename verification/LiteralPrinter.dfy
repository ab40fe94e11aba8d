/**
 The catalog generator's literal printer: a JSON value as Rust source, formatted the way rustfmt would. A reader of
 that subset of Rust, which knows nothing of widths and layouts, recovers the value.
 */
module LiteralPrinter {
  import opened Chars
  import opened Decimals
  import opened Options

  const FN_CALL_WIDTH := 60

  /** A 64-bit integer, signed or not. */
  newtype Integer = n: int | -0x8000_0000_0000_0000 <= n < 0x1_0000_0000_0000_0000

  datatype Value =
    | Null
    | Bool(b: bool)
    | Number(n: Integer)
    | String(s: string)
    | Array(items: seq<Value>)
    | Object(entries: seq<Entry>)

  datatype Entry = Entry(key: string, value: Value)

  // ---------------------------------------------------------------- strings

  predicate Printable(s: string) {
    forall i | 0 <= i < |s| :: !IsControl(s[i])
  }

  function EscapeChar(c: char): string {
    if c == '"' || c == '\\' then ['\\', c] else [c]
  }

  function Escaped(s: string): string {
    if s == "" then "" else EscapeChar(s[0]) + Escaped(s[1..])
  }

  /** A string with a control character is refused rather than mis-escaped. */
  function RustStr(s: string): Option<string> {
    if Printable(s) then Some("\"" + Escaped(s) + "\"") else None
  }

  lemma {:induction false} EscapedPush(s: string, c: char)
    ensures Escaped(s + [c]) == Escaped(s) + EscapeChar(c)
  {
    if s == "" {
      assert s + [c] == [c] && [c][1..] == "";
      assert EscapeChar(c) + "" == EscapeChar(c);
    } else {
      assert (s + [c])[1..] == s[1..] + [c];
      EscapedPush(s[1..], c);
    }
  }

  method EmitStr(value: string) returns (out: Option<string>)
    ensures out == RustStr(value)
  {
    var text := "\"";
    for i := 0 to |value|
      invariant text == "\"" + Escaped(value[..i])
      invariant Printable(value[..i])
    {
      var c := value[i];
      EscapedPush(value[..i], c);
      assert value[..i + 1] == value[..i] + [c];
      if c == '"' || c == '\\' {
        text := text + ['\\'];
        text := text + [c];
      } else if IsControl(c) {
        return None;
      } else {
        text := text + [c];
      }
    }
    assert value[..|value|] == value;
    out := Some(text + "\"");
  }

  // ---------------------------------------------------------------- digit grouping

  function Grouped(digits: string): string
    decreases |digits|
  {
    if |digits| <= 3 then digits else Grouped(digits[..|digits| - 3]) + "_" + digits[|digits| - 3..]
  }

  function Ungrouped(s: string): string {
    if s == "" then "" else (if s[0] == '_' then "" else [s[0]]) + Ungrouped(s[1..])
  }

  lemma {:induction false} UngroupedAppend(a: string, b: string)
    ensures Ungrouped(a + b) == Ungrouped(a) + Ungrouped(b)
  {
    if a == "" {
      assert a + b == b;
    } else {
      assert (a + b)[1..] == a[1..] + b;
      UngroupedAppend(a[1..], b);
    }
  }

  lemma {:induction false} UngroupedDigits(s: string)
    requires AllDigits(s)
    ensures Ungrouped(s) == s
  {
    if s != "" {
      assert IsDigit(s[0]);
      UngroupedDigits(s[1..]);
    }
  }

  lemma SeparatorVanishes(before: string, digits: string)
    requires AllDigits(digits)
    ensures Ungrouped(before + "_" + digits) == Ungrouped(before) + digits
  {
    UngroupedAppend(before + "_", digits);
    UngroupedAppend(before, "_");
    UngroupedDigits(digits);
    assert Ungrouped("_") == Ungrouped("") by { assert "_"[1..] == ""; }
    hide Ungrouped;
    assert Ungrouped("") == "" by { UngroupedDigits(""); }
    assert Ungrouped(before) + "" == Ungrouped(before);
  }

  /** Grouping only adds separators. */
  lemma {:induction false} GroupingKeepsDigits(digits: string)
    requires AllDigits(digits)
    ensures Ungrouped(Grouped(digits)) == digits
    decreases |digits|
  {
    if |digits| <= 3 {
      UngroupedDigits(digits);
    } else {
      var init, last := digits[..|digits| - 3], digits[|digits| - 3..];
      GroupingKeepsDigits(init);
      SeparatorVanishes(Grouped(init), last);
      assert init + last == digits;
    }
  }

  /** The first `index` digits with their separators, when `total` digits are written in all. */
  lemma {:induction false} GroupedStep(digits: string, index: nat)
    requires index < |digits|
    ensures Partial(digits, index + 1) ==
            Partial(digits, index) + (if index > 0 && (|digits| - index) % 3 == 0 then "_" else "") + [digits[index]]
  {
  }

  function Partial(digits: string, index: nat): string
    requires index <= |digits|
  {
    if index == 0 then ""
    else
      Partial(digits, index - 1)
      + (if index - 1 > 0 && (|digits| - (index - 1)) % 3 == 0 then "_" else "") + [digits[index - 1]]
  }

  lemma {:induction false} PartialOfPrefix(digits: string, less: nat, index: nat)
    requires index <= less <= |digits| && (|digits| - less) % 3 == 0
    ensures Partial(digits, index) == Partial(digits[..less], index)
    decreases index
  {
    if index > 0 {
      PartialOfPrefix(digits, less, index - 1);
      assert (|digits| - (index - 1)) % 3 == (less - (index - 1)) % 3;
    }
  }

  lemma LastThree(before: string, a: char, b: char, c: char)
    ensures before + "_" + [a] + "" + [b] + "" + [c] == before + "_" + [a, b, c]
  {
  }

  lemma UpToThree(digits: string)
    requires |digits| <= 3
    ensures Partial(digits, |digits|) == digits
  {
    hide Partial;
    var n := |digits|;
    NothingWritten(digits);
    if n >= 1 {
      GroupedStep(digits, 0);
      assert Partial(digits, 1) == [digits[0]];
    }
    if n >= 2 {
      GroupedStep(digits, 1);
      assert Partial(digits, 2) == [digits[0], digits[1]];
    }
    if n == 3 {
      GroupedStep(digits, 2);
      assert Partial(digits, 3) == [digits[0], digits[1], digits[2]];
    }
    assert n == 0 ==> digits == "";
  }

  lemma NothingWritten(digits: string)
    ensures Partial(digits, 0) == ""
  {
  }

  lemma {:induction false} PartialIsGrouped(digits: string)
    ensures Partial(digits, |digits|) == Grouped(digits)
    decreases |digits|
  {
    hide Partial;
    var n := |digits|;
    if n <= 3 {
      UpToThree(digits);
    } else {
      var init := digits[..n - 3];
      PartialOfPrefix(digits, n - 3, n - 3);
      PartialIsGrouped(init);
      hide Grouped;
      GroupedStep(digits, n - 3);
      GroupedStep(digits, n - 2);
      GroupedStep(digits, n - 1);
      LastThree(Grouped(init), digits[n - 3], digits[n - 2], digits[n - 1]);
      assert digits[n - 3..] == [digits[n - 3], digits[n - 2], digits[n - 1]];
      assert Grouped(digits) == Grouped(init) + "_" + digits[n - 3..] by { GroupedLong(digits); }
    }
  }

  lemma GroupedLong(digits: string)
    requires |digits| > 3
    ensures Grouped(digits) == Grouped(digits[..|digits| - 3]) + "_" + digits[|digits| - 3..]
  {
  }

  /** A `u64` literal with its digits in threes; anything but a non-negative integer is an error. */
  method RustU64(value: Value) returns (grouped: Option<string>)
    ensures grouped.Some? <==> value.Number? && value.n >= 0
    ensures grouped.Some? ==> grouped.value == Grouped(Decimal(value.n as int))
  {
    if !value.Number? || value.n < 0 {
      return None;
    }
    var digits := Decimal(value.n as int);
    var text := "";
    for index := 0 to |digits|
      invariant text == Partial(digits, index)
    {
      if index > 0 && (|digits| - index) % 3 == 0 {
        text := text + "_";
      }
      text := text + [digits[index]];
    }
    PartialIsGrouped(digits);
    grouped := Some(text);
  }

  // ---------------------------------------------------------------- values

  function Join(parts: seq<string>, separator: string): string {
    if parts == [] then ""
    else if |parts| == 1 then parts[0]
    else parts[0] + separator + Join(parts[1..], separator)
  }

  function CharBytes(c: char): nat {
    if c < '\U{80}' then 1 else if c < '\U{800}' then 2 else if c < '\U{10000}' then 3 else 4
  }

  /** The length of a text in UTF-8, which is what the width rule counts. */
  function Utf8Length(s: string): nat {
    if s == "" then 0 else CharBytes(s[0]) + Utf8Length(s[1..])
  }

  function Spaces(n: nat): (s: string)
    ensures |s| == n && forall i | 0 <= i < n :: s[i] == ' '
  {
    seq(n, _ => ' ')
  }

  function NumberLiteral(n: Integer): string {
    if n >= 0 then Decimal(n as int) + "u64" else "-" + Decimal(-(n as int)) + "i64"
  }

  function RustValue(v: Value, indent: nat): (r: Option<string>)
    ensures r.Some? ==> r.value != "" && r.value[0] == 'V'
    decreases v
  {
    match v
    case Null => Some("Value::Null")
    case Bool(b) => Some("Value::Bool(" + (if b then "true" else "false") + ")")
    case Number(n) => Some("Value::from(" + NumberLiteral(n) + ")")
    case String(s) =>
      (match RustStr(s)
       case None => None
       case Some(t) => Some("Value::String(" + t + ".to_string())"))
    case Array(items) =>
      (match RustItems(items, indent)
       case None => None
       case Some(rendered) => Some("Value::Array(vec![" + Join(rendered, ", ") + "])"))
    case Object(entries) =>
      (match RustEntries(entries, indent)
       case None => None
       case Some(rendered) => Some("Value::Object(object(" + Laid(rendered, indent) + "))"))
  }

  function RustItems(items: seq<Value>, indent: nat): (r: Option<seq<string>>)
    ensures r.Some? ==> |r.value| == |items|
    decreases items
  {
    if items == [] then Some([])
    else
      match RustValue(items[0], indent)
      case None => None
      case Some(first) =>
        match RustItems(items[1..], indent)
        case None => None
        case Some(rest) => Some([first] + rest)
  }

  function EntryText(key: string, value: string): string {
    "(" + key + ", " + value + ")"
  }

  function RustEntries(entries: seq<Entry>, indent: nat): (r: Option<seq<string>>)
    ensures r.Some? ==> |r.value| == |entries|
    decreases entries
  {
    if entries == [] then Some([])
    else
      match RustStr(entries[0].key)
      case None => None
      case Some(key) =>
        match RustValue(entries[0].value, indent + 4)
        case None => None
        case Some(value) =>
          match RustEntries(entries[1..], indent)
          case None => None
          case Some(rest) => Some([EntryText(key, value)] + rest)
  }

  function Lines(rendered: seq<string>, inner: string): (r: seq<string>)
    ensures |r| == |rendered| && forall i | 0 <= i < |r| :: r[i] == inner + rendered[i] + ","
  {
    seq(|rendered|, i requires 0 <= i < |rendered| => inner + rendered[i] + ",")
  }

  function OneLine(rendered: seq<string>): string {
    "[" + Join(rendered, ", ") + "]"
  }

  function Wrapped(rendered: seq<string>, indent: nat): string {
    "[\n" + Join(Lines(rendered, Spaces(indent + 4)), "\n") + "\n" + Spaces(indent) + "]"
  }

  /** One line while it fits, otherwise one entry per line with a trailing comma. */
  function Laid(rendered: seq<string>, indent: nat): string {
    if Utf8Length(OneLine(rendered)) <= FN_CALL_WIDTH then OneLine(rendered) else Wrapped(rendered, indent)
  }

  // ---------------------------------------------------------------- the reader

  type Parse<T> = Option<(T, string)>

  /** Blanks and line breaks between tokens mean nothing. */
  function Skip(s: string): (r: string)
    ensures |r| <= |s|
    ensures r != "" ==> r[0] != ' ' && r[0] != '\n'
  {
    if s != "" && (s[0] == ' ' || s[0] == '\n') then Skip(s[1..]) else s
  }

  function Expect(s: string, token: string): (r: Option<string>)
    ensures r.Some? ==> |r.value| == |s| - |token|
  {
    if token <= s then Some(s[|token|..]) else None
  }

  /** The rest of a string literal, after its opening quote. */
  function ReadQuoted(s: string): (r: Parse<string>)
    ensures r.Some? ==> |r.value.1| < |s|
  {
    if s == "" then None
    else if s[0] == '"' then Some(("", s[1..]))
    else if s[0] == '\\' then
      if |s| < 2 || (s[1] != '"' && s[1] != '\\') then None
      else match ReadQuoted(s[2..]) case None => None case Some((t, rest)) => Some(([s[1]] + t, rest))
    else match ReadQuoted(s[1..]) case None => None case Some((t, rest)) => Some(([s[0]] + t, rest))
  }

  function ReadStr(s: string): (r: Parse<string>)
    ensures r.Some? ==> |r.value.1| < |s|
  {
    match Expect(s, "\"") case None => None case Some(t) => ReadQuoted(t)
  }

  function ReadBool(s: string): (r: Parse<Value>)
    ensures r.Some? ==> |r.value.1| < |s|
  {
    match Expect(s, "true)")
    case Some(rest) => Some((Bool(true), rest))
    case None => match Expect(s, "false)") case Some(rest) => Some((Bool(false), rest)) case None => None
  }

  function ReadNumber(s: string): (r: Parse<Value>)
    ensures r.Some? ==> |r.value.1| < |s|
  {
    var negative := s != "" && s[0] == '-';
    var t := if negative then s[1..] else s;
    var n := DigitRun(t);
    var magnitude: int := ReadNat(t[..n]);
    match Expect(t[n..], if negative then "i64)" else "u64)")
    case None => None
    case Some(rest) =>
      if n == 0 || magnitude > (if negative then 0x8000_0000_0000_0000 else 0xFFFF_FFFF_FFFF_FFFF) then None
      else Some((Number((if negative then -magnitude else magnitude) as Integer), rest))
  }

  function ReadValue(s: string): (r: Parse<Value>)
    ensures r.Some? ==> |r.value.1| < |s|
    decreases |s|, 0
  {
    match Expect(s, "Value::")
    case None => None
    case Some(t) =>
      if t == "" then None
      else if t[0] == 'N' then match Expect(t, "Null") case None => None case Some(rest) => Some((Null, rest))
      else if t[0] == 'B' then match Expect(t, "Bool(") case None => None case Some(rest) => ReadBool(rest)
      else if t[0] == 'f' then match Expect(t, "from(") case None => None case Some(rest) => ReadNumber(rest)
      else if t[0] == 'S' then
        match Expect(t, "String(")
        case None => None
        case Some(u) =>
          match ReadStr(u)
          case None => None
          case Some((text, after)) =>
            match Expect(after, ".to_string())") case None => None case Some(rest) => Some((String(text), rest))
      else if t[0] == 'A' then
        match Expect(t, "Array(vec![")
        case None => None
        case Some(u) =>
          match ReadItems(u)
          case None => None
          case Some((items, after)) =>
            match Expect(after, ")") case None => None case Some(rest) => Some((Array(items), rest))
      else
        match Expect(t, "Object(object([")
        case None => None
        case Some(u) =>
          match ReadEntries(u)
          case None => None
          case Some((entries, after)) =>
            match Expect(after, "))") case None => None case Some(rest) => Some((Object(entries), rest))
  }

  /** Values separated by commas, up to the closing bracket; a trailing comma is fine. */
  function ReadItems(s: string): (r: Parse<seq<Value>>)
    ensures r.Some? ==> |r.value.1| < |s|
    decreases |s|, 1
  {
    var t := Skip(s);
    if t == "" then None
    else if t[0] == ']' then Some(([], t[1..]))
    else
      match ReadValue(t)
      case None => None
      case Some((item, after)) =>
        var u := Skip(after);
        if u == "" then None
        else if u[0] == ']' then Some(([item], u[1..]))
        else if u[0] != ',' then None
        else match ReadItems(u[1..]) case None => None case Some((items, rest)) => Some(([item] + items, rest))
  }

  function ReadEntry(s: string): (r: Parse<Entry>)
    ensures r.Some? ==> |r.value.1| < |s|
    decreases |s|, 1
  {
    match Expect(s, "(")
    case None => None
    case Some(t) =>
      match ReadStr(t)
      case None => None
      case Some((key, u)) =>
        match Expect(Skip(u), ",")
        case None => None
        case Some(w) =>
          match ReadValue(Skip(w))
          case None => None
          case Some((value, after)) =>
            match Expect(Skip(after), ")") case None => None case Some(rest) => Some((Entry(key, value), rest))
  }

  function ReadEntries(s: string): (r: Parse<seq<Entry>>)
    ensures r.Some? ==> |r.value.1| < |s|
    decreases |s|, 2
  {
    var t := Skip(s);
    if t == "" then None
    else if t[0] == ']' then Some(([], t[1..]))
    else
      match ReadEntry(t)
      case None => None
      case Some((entry, after)) =>
        var u := Skip(after);
        if u == "" then None
        else if u[0] == ']' then Some(([entry], u[1..]))
        else if u[0] != ',' then None
        else match ReadEntries(u[1..]) case None => None case Some((entries, rest)) => Some(([entry] + entries, rest))
  }

  // ---------------------------------------------------------------- reading back what was printed

  lemma ExpectBack(token: string, rest: string)
    ensures Expect(token + rest, token) == Some(rest)
  {
    assert (token + rest)[|token|..] == rest;
  }

  lemma QuotedChar(c: char, tail: string)
    requires ReadQuoted(tail).Some?
    ensures ReadQuoted(EscapeChar(c) + tail) == Some(([c] + ReadQuoted(tail).value.0, ReadQuoted(tail).value.1))
  {
    var text := EscapeChar(c) + tail;
    if c == '"' || c == '\\' {
      assert text[2..] == tail;
    } else {
      assert text[1..] == tail;
    }
  }

  lemma {:induction false} QuotedBack(s: string, rest: string)
    ensures ReadQuoted(Escaped(s) + "\"" + rest) == Some((s, rest))
  {
    if s == "" {
      assert Escaped(s) + "\"" + rest == "\"" + rest;
      assert ("\"" + rest)[1..] == rest;
    } else {
      hide ReadQuoted, EscapeChar;
      var tail := Escaped(s[1..]) + "\"" + rest;
      QuotedBack(s[1..], rest);
      QuotedChar(s[0], tail);
      assert [s[0]] + s[1..] == s;
      assert Escaped(s) + "\"" + rest == EscapeChar(s[0]) + tail;
    }
  }

  lemma StrBack(s: string, rest: string)
    requires Printable(s)
    ensures ReadStr(RustStr(s).value + rest) == Some((s, rest))
  {
    QuotedBack(s, rest);
    ExpectBack("\"", Escaped(s) + "\"" + rest);
    assert RustStr(s).value + rest == "\"" + (Escaped(s) + "\"" + rest);
  }

  lemma NullBack(rest: string)
    ensures ReadValue("Value::Null" + rest) == Some((Null, rest))
  {
    hide Expect;
    ExpectBack("Value::", "Null" + rest);
    ExpectBack("Null", rest);
    assert "Value::Null" + rest == "Value::" + ("Null" + rest);
  }

  lemma BoolBack(b: bool, rest: string)
    ensures ReadValue("Value::Bool(" + (if b then "true" else "false") + ")" + rest) == Some((Bool(b), rest))
  {
    hide ReadStr, ReadNumber, ReadItems, ReadEntries, Expect, ReadBool;
    var word := if b then "true" else "false";
    var text := word + (")" + rest);
    BoolWordBack(b, rest);
    ExpectBack("Value::", "Bool(" + text);
    ExpectBack("Bool(", text);
    Regroup("Value::Bool(", word, ")", rest);
    assert "Value::Bool(" + text == "Value::" + ("Bool(" + text);
  }

  lemma BoolWordBack(b: bool, rest: string)
    ensures ReadBool((if b then "true" else "false") + (")" + rest)) == Some((Bool(b), rest))
  {
    if b {
      ExpectBack("true)", rest);
      assert "true" + (")" + rest) == "true)" + rest;
    } else {
      ExpectBack("false)", rest);
      assert "false" + (")" + rest) == "false)" + rest;
      assert ("false)" + rest)[0] != 't';
    }
  }

  lemma MagnitudeBack(negative: bool, magnitude: nat, rest: string)
    requires magnitude <= if negative then 0x8000_0000_0000_0000 else 0xFFFF_FFFF_FFFF_FFFF
    ensures var digits := Decimal(magnitude) + ((if negative then "i64)" else "u64)") + rest);
      ReadNumber(if negative then "-" + digits else digits)
      == Some((Number((if negative then -(magnitude as int) else magnitude) as Integer), rest))
  {
    hide Decimal, ReadNat;
    var suffix := if negative then "i64)" else "u64)";
    var d := Decimal(magnitude);
    RunOf(d, suffix + rest);
    ReadDecimal(magnitude);
    ExpectBack(suffix, rest);
    var digits := d + (suffix + rest);
    assert ("-" + digits)[1..] == digits && IsDigit(digits[0]);
  }

  lemma Regroup(a: string, b: string, c: string, rest: string)
    ensures a + b + c + rest == a + (b + (c + rest))
  {
  }

  lemma NumberBack(n: Integer, rest: string)
    ensures ReadValue("Value::from(" + NumberLiteral(n) + ")" + rest) == Some((Number(n), rest))
  {
    hide ReadNumber, ReadStr, ReadItems, ReadEntries, Expect, NumberLiteral;
    var text := NumberLiteral(n) + (")" + rest);
    NumberLiteralBack(n, rest);
    ExpectBack("Value::", "from(" + text);
    ExpectBack("from(", text);
    Regroup("Value::from(", NumberLiteral(n), ")", rest);
    assert "Value::from(" + text == "Value::" + ("from(" + text);
  }

  lemma NumberLiteralBack(n: Integer, rest: string)
    ensures ReadNumber(NumberLiteral(n) + (")" + rest)) == Some((Number(n), rest))
  {
    hide ReadNumber, Decimal;
    if n < 0 {
      MagnitudeBack(true, -(n as int), rest);
      assert NumberLiteral(n) + (")" + rest) == "-" + (Decimal(-(n as int)) + ("i64)" + rest));
    } else {
      MagnitudeBack(false, n as int, rest);
      assert NumberLiteral(n) + (")" + rest) == Decimal(n as int) + ("u64)" + rest);
    }
  }

  lemma StringBack(s: string, rest: string)
    requires Printable(s)
    ensures ReadValue("Value::String(" + RustStr(s).value + ".to_string())" + rest) == Some((String(s), rest))
  {
    hide RustStr, ReadNumber, ReadStr, ReadItems, ReadEntries, Expect;
    assert RustStr(s).Some? by { PrintableIsPrinted(s); }
    var text := RustStr(s).value + (".to_string())" + rest);
    StrBack(s, ".to_string())" + rest);
    ExpectBack(".to_string())", rest);
    ExpectBack("Value::", "String(" + text);
    ExpectBack("String(", text);
    assert "Value::String(" + RustStr(s).value + ".to_string())" + rest == "Value::" + ("String(" + text);
  }

  lemma PrintableIsPrinted(s: string)
    ensures RustStr(s).Some? <==> Printable(s)
  {
  }

  lemma ArrayBack(text: string, items: seq<Value>, rest: string)
    requires ReadItems(text) == Some((items, ")" + rest))
    ensures ReadValue("Value::Array(vec![" + text) == Some((Array(items), rest))
  {
    hide ReadNumber, ReadStr, ReadItems, ReadEntries, Expect;
    ExpectBack("Value::", "Array(vec![" + text);
    ExpectBack("Array(vec![", text);
    ExpectBack(")", rest);
    assert "Value::Array(vec![" + text == "Value::" + ("Array(vec![" + text);
  }

  lemma ObjectBack(text: string, entries: seq<Entry>, rest: string)
    requires ReadEntries(text) == Some((entries, "))" + rest))
    ensures ReadValue("Value::Object(object([" + text) == Some((Object(entries), rest))
  {
    hide ReadNumber, ReadStr, ReadItems, ReadEntries, Expect;
    ExpectBack("Value::", "Object(object([" + text);
    ExpectBack("Object(object([", text);
    ExpectBack("))", rest);
    assert "Value::Object(object([" + text == "Value::" + ("Object(object([" + text);
  }

  lemma LeadingBlank(c: char, s: string)
    requires c == ' ' || c == '\n'
    ensures Skip([c] + s) == Skip(s)
  {
    assert ([c] + s)[1..] == s;
  }

  lemma LastItem(text: string, item: Value, rest: string)
    requires text != "" && text[0] == 'V' && ReadValue(text + ("]" + rest)) == Some((item, "]" + rest))
    ensures ReadItems(text + ("]" + rest)) == Some(([item], rest))
  {
    hide ReadValue;
    assert ("]" + rest)[1..] == rest;
  }

  lemma NextItem(text: string, item: Value, more: string, items: seq<Value>, rest: string)
    requires text != "" && text[0] == 'V' && ReadValue(text + (", " + more)) == Some((item, ", " + more))
    requires ReadItems(more) == Some((items, rest))
    ensures ReadItems(text + (", " + more)) == Some(([item] + items, rest))
  {
    hide ReadValue;
    LeadingBlank(' ', more);
    assert (", " + more)[1..] == " " + more;
    assert ReadItems(" " + more) == ReadItems(more);
  }

  lemma EntryBack(key: string, value: Value, text: string, rest: string)
    requires Printable(key) && text != "" && text[0] == 'V'
             && ReadValue(text + (")" + rest)) == Some((value, ")" + rest))
    ensures ReadEntry(EntryText(RustStr(key).value, text) + rest) == Some((Entry(key, value), rest))
  {
    hide ReadValue, ReadStr, RustStr, Expect;
    assert RustStr(key).Some? by { PrintableIsPrinted(key); }
    var afterKey := ", " + (text + (")" + rest));
    assert EntryText(RustStr(key).value, text) + rest == "(" + (RustStr(key).value + afterKey);
    ExpectBack("(", RustStr(key).value + afterKey);
    StrBack(key, afterKey);
    assert afterKey == "," + (" " + (text + (")" + rest)));
    ExpectBack(",", " " + (text + (")" + rest)));
    LeadingBlank(' ', text + (")" + rest));
    ExpectBack(")", rest);
  }

  lemma LastEntry(text: string, entry: Entry, rest: string)
    requires text != "" && text[0] == '(' && ReadEntry(text + ("]" + rest)) == Some((entry, "]" + rest))
    ensures ReadEntries(text + ("]" + rest)) == Some(([entry], rest))
  {
    hide ReadEntry;
    assert ("]" + rest)[1..] == rest;
  }

  lemma NextEntry(before: string, text: string, entry: Entry, after: string, entries: seq<Entry>, rest: string)
    requires text != "" && text[0] == '(' && Skip(before + (text + ("," + after))) == text + ("," + after)
    requires ReadEntry(text + ("," + after)) == Some((entry, "," + after))
    requires ReadEntries(after) == Some((entries, rest))
    ensures ReadEntries(before + (text + ("," + after))) == Some(([entry] + entries, rest))
  {
    hide ReadEntry, Skip;
    assert ("," + after)[1..] == after;
    assert Skip("," + after) == "," + after by { NoBlank("," + after); }
  }

  lemma NoBlank(s: string)
    requires s == "" || (s[0] != ' ' && s[0] != '\n')
    ensures Skip(s) == s
  {
  }

  lemma {:induction false} SkipSpaces(n: nat, s: string)
    ensures Skip(Spaces(n) + s) == Skip(s)
  {
    if n == 0 {
      assert Spaces(0) + s == s;
    } else {
      assert (Spaces(n) + s)[1..] == Spaces(n - 1) + s;
      SkipSpaces(n - 1, s);
    }
  }

  /** A value printed at any indentation, with anything after it, is read back with exactly that left over. */
  lemma {:induction false} ValueBack(v: Value, indent: nat, rest: string)
    requires RustValue(v, indent).Some?
    ensures ReadValue(RustValue(v, indent).value + rest) == Some((v, rest))
    decreases v, 0
  {
    hide ReadValue, RustItems, RustEntries, RustStr, NumberLiteral, Laid, Join;
    match v
    case Null => NullBack(rest);
    case Bool(b) => BoolBack(b, rest);
    case Number(n) => NumberBack(n, rest);
    case String(s) =>
      PrintableIsPrinted(s);
      StringBack(s, rest);
    case Array(items) => ArrayValueBack(items, indent, rest);
    case Object(entries) => ObjectValueBack(entries, indent, rest);
  }

  lemma {:induction false} ArrayValueBack(items: seq<Value>, indent: nat, rest: string)
    requires RustItems(items, indent).Some?
    ensures ReadValue("Value::Array(vec![" + Join(RustItems(items, indent).value, ", ") + "])" + rest) ==
            Some((Array(items), rest))
    decreases items, 3
  {
    hide ReadValue, ReadItems, RustItems, Join;
    var body := Join(RustItems(items, indent).value, ", ");
    ItemsBack(items, indent, ")" + rest);
    ArrayBack(body + ("]" + (")" + rest)), items, rest);
    Regroup("Value::Array(vec![", body, "])", rest);
    assert "])" + rest == "]" + (")" + rest);
  }

  lemma {:induction false} ObjectValueBack(entries: seq<Entry>, indent: nat, rest: string)
    requires RustEntries(entries, indent).Some?
    ensures ReadValue("Value::Object(object(" + Laid(RustEntries(entries, indent).value, indent) + "))" + rest)
            == Some((Object(entries), rest))
    decreases entries, 4
  {
    hide ReadValue, ReadEntries, RustEntries, Laid;
    LaidBack(entries, indent, "))" + rest);
    var laid := Laid(RustEntries(entries, indent).value, indent);
    var inside := laid[1..] + ("))" + rest);
    ObjectBack(inside, entries, rest);
    Regroup("Value::Object(object(", laid, "))", rest);
    assert laid + ("))" + rest) == "[" + inside;
    assert "Value::Object(object(" + ("[" + inside) == "Value::Object(object([" + inside;
  }

  lemma {:induction false} ItemsBack(items: seq<Value>, indent: nat, rest: string)
    requires RustItems(items, indent).Some?
    ensures ReadItems(Join(RustItems(items, indent).value, ", ") + ("]" + rest)) == Some((items, rest))
    decreases items, 0
  {
    hide ReadValue, RustValue;
    var rendered := RustItems(items, indent).value;
    if items == [] {
      assert Join(rendered, ", ") + ("]" + rest) == "]" + rest;
      assert ("]" + rest)[1..] == rest;
    } else {
      var first := rendered[0];
      hide ReadItems;
      if |items| == 1 {
        ValueBack(items[0], indent, "]" + rest);
        LastItem(first, items[0], rest);
        assert items == [items[0]];
      } else {
        var more := Join(rendered[1..], ", ") + ("]" + rest);
        assert rendered[1..] == RustItems(items[1..], indent).value;
        ItemsBack(items[1..], indent, rest);
        ValueBack(items[0], indent, ", " + more);
        NextItem(first, items[0], more, items[1..], rest);
        assert Join(rendered, ", ") + ("]" + rest) == first + (", " + more);
        assert items == [items[0]] + items[1..];
      }
    }
  }

  /** Both layouts of an object's entries read back the same. */
  lemma {:induction false} LaidBack(entries: seq<Entry>, indent: nat, rest: string)
    requires RustEntries(entries, indent).Some?
    ensures var laid := Laid(RustEntries(entries, indent).value, indent);
      laid != "" && laid[0] == '[' && ReadEntries(laid[1..] + rest) == Some((entries, rest))
    decreases entries, 3
  {
    hide ReadEntries, RustEntries, Join, Lines;
    var rendered := RustEntries(entries, indent).value;
    assert entries == [] ==> Utf8Length(OneLine(rendered)) == 2 by { EmptyObjectFits(); }
    OneLineBack(entries, indent, rest);
    assert OneLine(rendered)[1..] + rest == Join(rendered, ", ") + ("]" + rest);
    WrappedBack(entries, indent, rest);
    assert Wrapped(rendered, indent)[1..] + rest
        == "\n" + Join(Lines(rendered, Spaces(indent + 4)), "\n") + "\n" + Spaces(indent) + "]" + rest;
  }

  lemma {:induction false} OneLineBack(entries: seq<Entry>, indent: nat, rest: string)
    requires RustEntries(entries, indent).Some?
    ensures ReadEntries(Join(RustEntries(entries, indent).value, ", ") + ("]" + rest)) == Some((entries, rest))
    decreases entries, 1
  {
    hide ReadValue, ReadEntry, RustValue, RustStr, ReadEntries, Join, EntryText;
    var rendered := RustEntries(entries, indent).value;
    if entries == [] {
      assert Join(rendered, ", ") == "" by { JoinNone(); }
      assert "" + ("]" + rest) == "]" + rest;
      NoEntries(rest);
    } else {
      var first := rendered[0];
      assert rendered[1..] == RustEntries(entries[1..], indent).value;
      JoinSome(rendered, ", ");
      assert entries == [entries[0]] + entries[1..];
      if |entries| == 1 {
        FirstEntryBack(entries, indent, "]" + rest);
        LastEntry(first, entries[0], rest);
        assert entries == [entries[0]];
      } else {
        var more := Join(rendered[1..], ", ") + ("]" + rest);
        var after := " " + more;
        OneLineBack(entries[1..], indent, rest);
        FirstEntryBack(entries, indent, "," + after);
        BlankBeforeEntries(' ', more);
        NoBlank(first + ("," + after));
        assert "" + (first + ("," + after)) == first + ("," + after);
        NextEntry("", first, entries[0], after, entries[1..], rest);
        Regroup(first, ", ", Join(rendered[1..], ", "), "]" + rest);
        assert ", " + more == "," + after;
      }
    }
  }

  lemma EmptyObjectFits()
    ensures Utf8Length(OneLine([])) == 2
  {
    assert OneLine([]) == "[]" && "[]"[1..] == "]" && "]"[1..] == "";
  }

  lemma JoinNone()
    ensures Join([], ", ") == ""
  {
  }

  lemma JoinSome(parts: seq<string>, separator: string)
    requires parts != []
    ensures Join(parts, separator) == if |parts| == 1 then parts[0]
            else parts[0] + separator + Join(parts[1..], separator)
  {
  }

  lemma NoEntries(rest: string)
    ensures ReadEntries("]" + rest) == Some(([], rest))
  {
    assert ("]" + rest)[1..] == rest;
  }

  /** The first entry of an object, read with anything after it. */
  lemma {:induction false} FirstEntryBack(entries: seq<Entry>, indent: nat, after: string)
    requires RustEntries(entries, indent).Some? && entries != []
    ensures var first := RustEntries(entries, indent).value[0];
      first != "" && first[0] == '(' && ReadEntry(first + after) == Some((entries[0], after))
    decreases entries, 0
  {
    hide ReadValue, ReadEntry, RustStr;
    var key, value := entries[0].key, entries[0].value;
    PrintableIsPrinted(key);
    ValueBack(value, indent + 4, ")" + after);
    hide RustValue;
    EntryBack(key, value, RustValue(value, indent + 4).value, after);
  }

  lemma BlankBeforeEntries(c: char, s: string)
    requires c == ' ' || c == '\n'
    ensures ReadEntries([c] + s) == ReadEntries(s)
  {
    LeadingBlank(c, s);
  }

  /** The wrapped layout from one entry on: a line for each, then the closing line. */
  function WrappedFrom(rendered: seq<string>, indent: nat, rest: string): string {
    if rendered == [] then "\n" + (Spaces(indent) + ("]" + rest))
    else ("\n" + Spaces(indent + 4)) + (rendered[0] + ("," + WrappedFrom(rendered[1..], indent, rest)))
  }

  lemma {:induction false} WrappedIsLines(rendered: seq<string>, indent: nat, rest: string)
    requires rendered != []
    ensures "\n" + Join(Lines(rendered, Spaces(indent + 4)), "\n") + "\n" + Spaces(indent) + "]" + rest
            == WrappedFrom(rendered, indent, rest)
  {
    hide Spaces, Lines, Join;
    var inner := Spaces(indent + 4);
    var lines := Lines(rendered, inner);
    JoinSome(lines, "\n");
    if |rendered| == 1 {
      LastLine(inner, rendered[0], Spaces(indent), rest);
      assert WrappedFrom(rendered[1..], indent, rest) == "\n" + (Spaces(indent) + ("]" + rest));
    } else {
      assert lines[1..] == Lines(rendered[1..], inner);
      WrappedIsLines(rendered[1..], indent, rest);
      FirstLine(inner, rendered[0], Join(lines[1..], "\n"), Spaces(indent), rest);
    }
  }

  lemma LastLine(inner: string, text: string, close: string, rest: string)
    ensures "\n" + (inner + text + ",") + "\n" + close + "]" + rest
            == ("\n" + inner) + (text + ("," + ("\n" + (close + ("]" + rest)))))
  {
  }

  lemma FirstLine(inner: string, text: string, more: string, close: string, rest: string)
    ensures "\n" + (inner + text + "," + "\n" + more) + "\n" + close + "]" + rest
            == ("\n" + inner) + (text + ("," + ("\n" + more + "\n" + close + "]" + rest)))
  {
  }

  lemma {:induction false} WrappedLinesBack(entries: seq<Entry>, indent: nat, rest: string)
    requires RustEntries(entries, indent).Some?
    ensures ReadEntries(WrappedFrom(RustEntries(entries, indent).value, indent, rest)) == Some((entries, rest))
    decreases entries, 1
  {
    hide ReadValue, ReadEntry, RustValue, RustStr, ReadEntries, Skip, EntryText;
    var rendered := RustEntries(entries, indent).value;
    if entries == [] {
      ClosingLine(indent, rest);
    } else {
      var first, after := rendered[0], WrappedFrom(rendered[1..], indent, rest);
      assert rendered[1..] == RustEntries(entries[1..], indent).value;
      WrappedLinesBack(entries[1..], indent, rest);
      FirstEntryBack(entries, indent, "," + after);
      var here := first + ("," + after);
      assert ("\n" + Spaces(indent + 4)) + here == "\n" + (Spaces(indent + 4) + here);
      LeadingBlank('\n', Spaces(indent + 4) + here);
      SkipSpaces(indent + 4, here);
      NoBlank(here);
      NextEntry("\n" + Spaces(indent + 4), first, entries[0], after, entries[1..], rest);
      assert entries == [entries[0]] + entries[1..];
    }
  }

  lemma ClosingLine(indent: nat, rest: string)
    ensures ReadEntries("\n" + (Spaces(indent) + ("]" + rest))) == Some(([], rest))
  {
    LeadingBlank('\n', Spaces(indent) + ("]" + rest));
    SkipSpaces(indent, "]" + rest);
    assert ("]" + rest)[1..] == rest;
  }

  lemma {:induction false} WrappedBack(entries: seq<Entry>, indent: nat, rest: string)
    requires RustEntries(entries, indent).Some?
    ensures var rendered := RustEntries(entries, indent).value;
      entries != [] ==>
      ReadEntries("\n" + Join(Lines(rendered, Spaces(indent + 4)), "\n") + "\n" + Spaces(indent) + "]" + rest) ==
          Some((entries, rest))
    decreases entries, 2
  {
    hide ReadEntries, RustEntries;
    if entries != [] {
      WrappedIsLines(RustEntries(entries, indent).value, indent, rest);
      WrappedLinesBack(entries, indent, rest);
    }
  }

  /** What makes a value unprintable: a control character somewhere in a string or a key. */
  predicate Clean(v: Value)
    decreases v
  {
    match v
    case String(s) => Printable(s)
    case Array(items) => forall i <- items :: Clean(i)
    case Object(entries) => forall e <- entries :: Printable(e.key) && Clean(e.value)
    case _ => true
  }

  lemma {:induction false} CleanIsPrinted(v: Value, indent: nat)
    ensures RustValue(v, indent).Some? <==> Clean(v)
    decreases v
  {
    hide RustStr;
    match v
    case String(s) => PrintableIsPrinted(s);
    case Array(items) => CleanItems(items, indent);
    case Object(entries) => CleanEntries(entries, indent);
    case _ =>
  }

  lemma {:induction false} CleanItems(items: seq<Value>, indent: nat)
    ensures RustItems(items, indent).Some? <==> forall i <- items :: Clean(i)
    decreases items
  {
    hide Clean, RustValue;
    if items != [] {
      CleanIsPrinted(items[0], indent);
      CleanItems(items[1..], indent);
      assert items == [items[0]] + items[1..];
    }
  }

  lemma {:induction false} CleanEntries(entries: seq<Entry>, indent: nat)
    ensures RustEntries(entries, indent).Some? <==> forall e <- entries :: Printable(e.key) && Clean(e.value)
    decreases entries
  {
    hide Clean, RustValue, RustStr;
    if entries != [] {
      PrintableIsPrinted(entries[0].key);
      CleanIsPrinted(entries[0].value, indent + 4);
      CleanEntries(entries[1..], indent);
      assert entries == [entries[0]] + entries[1..];
    }
  }

  /**
   Reading what was printed gives the value back, key order included, whichever layout the width rule picked at
   each level; and printing fails exactly on a control character.
   */
  lemma PrintedReadsBack(v: Value, indent: nat)
    ensures RustValue(v, indent).Some? <==> Clean(v)
    ensures Clean(v) ==> ReadValue(RustValue(v, indent).value) == Some((v, ""))
  {
    hide RustValue, ReadValue, Clean;
    CleanIsPrinted(v, indent);
    if Clean(v) {
      ValueBack(v, indent, "");
      assert RustValue(v, indent).value + "" == RustValue(v, indent).value;
    }
  }
}
