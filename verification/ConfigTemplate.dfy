/**
 Config values are templates: `$NAME` and `${NAME}` stand for environment variables, `$$` for a dollar sign and
 `$!` for an exclamation mark. A value that starts with `!` is a shell command, which is not run here.
 */
module ConfigTemplate {
  import opened Options

  datatype Part = Literal(text: string) | Env(name: string)

  datatype EnvValue = Str(s: string) | NotString

  // ---------------------------------------------------------------- names and searching

  predicate IsAlpha(c: char) {
    'A' <= c <= 'Z' || 'a' <= c <= 'z'
  }

  predicate NameStart(c: char) {
    IsAlpha(c) || c == '_'
  }

  predicate NameChar(c: char) {
    NameStart(c) || '0' <= c <= '9'
  }

  predicate IsEnvVarName(name: string) {
    name != "" && NameStart(name[0]) && forall i | 0 <= i < |name| :: NameChar(name[i])
  }

  function Find(s: string, c: char): (at: Option<nat>)
    ensures at.Some? ==> at.value < |s| && s[at.value] == c && c !in s[..at.value]
    ensures at.None? ==> c !in s
  {
    if s == "" then None
    else if s[0] == c then Some(0)
    else match Find(s[1..], c) case None => None case Some(i) => Some(i + 1)
  }

  /** How many name characters `s` starts with. */
  function NameRun(s: string): (n: nat)
    ensures n <= |s| && (forall i | 0 <= i < n :: NameChar(s[i])) && (n < |s| ==> !NameChar(s[n]))
  {
    if s == "" || !NameChar(s[0]) then 0 else 1 + NameRun(s[1..])
  }

  function EnvVarNamePrefixLen(s: string): (n: nat)
    ensures n <= |s| && (n > 0 ==> IsEnvVarName(s[..n]))
  {
    if s == "" || !NameStart(s[0]) then 0 else NameRun(s)
  }

  // ---------------------------------------------------------------- reading a template

  function AppendLiteral(parts: seq<Part>, value: string): seq<Part> {
    if value == "" then parts
    else if parts != [] && parts[|parts| - 1].Literal? then
      parts[..|parts| - 1] + [Literal(parts[|parts| - 1].text + value)]
    else parts + [Literal(value)]
  }

  /** The first thing in a template, a character, an escape or a reference, and how long it is. */
  function Item(s: string): (r: (Part, nat))
    requires s != ""
    ensures 0 < r.1 <= |s|
    ensures match r.0 case Literal(text) => text != "" case Env(name) => IsEnvVarName(name)
  {
    if s[0] != '$' then (Literal(s[..1]), 1)
    else if |s| > 1 && (s[1] == '$' || s[1] == '!') then (Literal(s[1..2]), 2)
    else if |s| > 1 && s[1] == '{' then
      match Find(s[2..], '}')
      case None => (Literal("$"), 1)
      case Some(n) =>
        (if IsEnvVarName(s[2..2 + n]) then Env(s[2..2 + n]) else Literal(s[..3 + n]), 3 + n)
    else
      var n := EnvVarNamePrefixLen(s[1..]);
      if n > 0 then (Env(s[1..][..n]), 1 + n) else (Literal("$"), 1)
  }

  function Add(parts: seq<Part>, p: Part): seq<Part> {
    match p
    case Literal(text) => AppendLiteral(parts, text)
    case Env(_) => parts + [p]
  }

  /** The template read one item at a time, `parts` being what was read so far. */
  function Scan(parts: seq<Part>, s: string): seq<Part>
    decreases |s|
  {
    if s == "" then parts else Scan(Add(parts, Item(s).0), s[Item(s).1..])
  }

  function Parse(s: string): seq<Part> {
    Scan([], s)
  }

  lemma AppendNothing(parts: seq<Part>)
    ensures AppendLiteral(parts, "") == parts
  {
  }

  lemma AppendTwice(parts: seq<Part>, a: string, b: string)
    ensures AppendLiteral(AppendLiteral(parts, a), b) == AppendLiteral(parts, a + b)
  {
    if a == "" {
      assert a + b == b;
    } else if b == "" {
      assert a + b == a;
    } else if parts != [] && parts[|parts| - 1].Literal? {
      assert parts[|parts| - 1].text + a + b == parts[|parts| - 1].text + (a + b);
    }
  }

  /** A stretch without dollar signs can be taken in one go. */
  lemma {:induction false} ScanPlain(parts: seq<Part>, plain: string, rest: string)
    requires '$' !in plain
    ensures Scan(parts, plain + rest) == Scan(AppendLiteral(parts, plain), rest)
    decreases |plain|
  {
    if plain == "" {
      assert plain + rest == rest;
    } else {
      assert (plain + rest)[..1] == plain[..1] && (plain + rest)[1..] == plain[1..] + rest;
      assert plain[0] in plain;
      assert Item(plain + rest) == (Literal(plain[..1]), 1);
      ScanPlain(AppendLiteral(parts, plain[..1]), plain[1..], rest);
      AppendTwice(parts, plain[..1], plain[1..]);
      assert plain[..1] + plain[1..] == plain;
    }
  }

  lemma ScanDollar(parts: seq<Part>, s: string, dollar: nat, p: Part, used: nat)
    requires dollar < |s| && Item(s[dollar..]) == (p, used)
    ensures dollar + used <= |s|
    ensures p.Literal? ==> Scan(parts, s[dollar..]) == Scan(AppendLiteral(parts, p.text), s[dollar + used..])
    ensures p.Env? ==> Scan(parts, s[dollar..]) == Scan(parts + [p], s[dollar + used..])
  {
    hide Item;
    assert s[dollar..][used..] == s[dollar + used..];
  }

  /** The item at a dollar sign, told by what comes after it. */
  lemma ItemAtDollar(s: string, dollar: nat)
    requires dollar < |s| && s[dollar] == '$'
    ensures
      var item, next := Item(s[dollar..]), if dollar + 1 < |s| then Some(s[dollar + 1]) else None;
      if next == Some('$') || next == Some('!') then item == (Literal([next.value]), 2)
      else if next == Some('{') then
        match Find(s[dollar + 2..], '}')
        case None => item == (Literal("$"), 1)
        case Some(n) =>
          var name := s[dollar + 2..dollar + 2 + n];
          item == (if IsEnvVarName(name) then Env(name) else Literal(s[dollar..dollar + 3 + n]), 3 + n)
      else
        var n := EnvVarNamePrefixLen(s[dollar + 1..]);
        item == if n > 0 then (Env(s[dollar + 1..dollar + 1 + n]), 1 + n) else (Literal("$"), 1)
  {
    hide IsEnvVarName, EnvVarNamePrefixLen, Find;
    var here := s[dollar..];
    assert here[1..] == s[dollar + 1..];
    if |here| > 1 {
      assert here[1..2] == [s[dollar + 1]] && here[2..] == s[dollar + 2..];
      var close := Find(here[2..], '}');
      if close.Some? {
        var n := close.value;
        assert here[2..2 + n] == s[dollar + 2..dollar + 2 + n] && here[..3 + n] == s[dollar..dollar + 3 + n];
      }
    }
    var n := EnvVarNamePrefixLen(here[1..]);
    assert here[1..][..n] == s[dollar + 1..dollar + 1 + n];
  }

  method ParseConfigValueTemplate(config: string) returns (parts: seq<Part>)
    ensures parts == Parse(config)
  {
    hide Scan, Item, AppendLiteral, IsEnvVarName, Find, EnvVarNamePrefixLen;
    parts := [];
    var index := 0;
    assert config[0..] == config;
    while index < |config|
      invariant 0 <= index <= |config|
      invariant Scan(parts, config[index..]) == Parse(config)
    {
      var offset := Find(config[index..], '$');
      if offset == None {
        ScanPlain(parts, config[index..], "");
        assert config[index..] + "" == config[index..];
        parts := AppendLiteral(parts, config[index..]);
        index := |config|;
        break;
      }
      var dollar := index + offset.value;
      assert config[index..][..offset.value] == config[index..dollar];
      ScanPlain(parts, config[index..dollar], config[dollar..]);
      assert config[index..dollar] + config[dollar..] == config[index..];
      parts := AppendLiteral(parts, config[index..dollar]);
      ItemAtDollar(config, dollar);
      ScanDollar(parts, config, dollar, Item(config[dollar..]).0, Item(config[dollar..]).1);
      var next := if dollar + 1 < |config| then Some(config[dollar + 1]) else None;
      if next == Some('$') || next == Some('!') {
        parts := AppendLiteral(parts, [next.value]);
        index := dollar + 2;
        continue;
      }
      if next == Some('{') {
        var close := Find(config[dollar + 2..], '}');
        if close == None {
          parts := AppendLiteral(parts, "$");
          index := dollar + 1;
          continue;
        }
        var end := dollar + 2 + close.value;
        var name := config[dollar + 2..end];
        if IsEnvVarName(name) {
          parts := parts + [Env(name)];
        } else {
          parts := AppendLiteral(parts, config[dollar..end + 1]);
        }
        index := end + 1;
        continue;
      }
      var matched := EnvVarNamePrefixLen(config[dollar + 1..]);
      if matched > 0 {
        parts := parts + [Env(config[dollar + 1..dollar + 1 + matched])];
        index := dollar + 1 + matched;
        continue;
      }
      parts := AppendLiteral(parts, "$");
      index := dollar + 1;
    }
    assert config[|config|..] == "";
    ScanNothing(parts);
  }

  // ---------------------------------------------------------------- canonical part lists and their printer

  ghost predicate Canonical(parts: seq<Part>) {
    && (forall i | 0 <= i < |parts| ::
          match parts[i] case Literal(text) => text != "" case Env(name) => IsEnvVarName(name))
    && (forall i | 0 <= i < |parts| - 1 :: parts[i].Literal? ==> parts[i + 1].Env?)
  }

  function EscapeDollars(s: string): string {
    if s == "" then ""
    else if s[0] == '$' then "$$" + EscapeDollars(s[1..])
    else [s[0]] + EscapeDollars(s[1..])
  }

  function PrintPart(p: Part): string {
    match p
    case Literal(text) => EscapeDollars(text)
    case Env(name) => "${" + name + "}"
  }

  function Print(parts: seq<Part>): string {
    if parts == [] then "" else PrintPart(parts[0]) + Print(parts[1..])
  }

  /** Every list the parser returns is canonical. */
  lemma {:induction false} ScanIsCanonical(parts: seq<Part>, s: string)
    requires Canonical(parts)
    ensures Canonical(Scan(parts, s))
    decreases |s|
  {
    hide Item, IsEnvVarName;
    if s != "" {
      ScanIsCanonical(Add(parts, Item(s).0), s[Item(s).1..]);
    }
  }

  lemma DoubledItem(rest: string)
    ensures Item("$$" + rest) == (Literal("$"), 2) && ("$$" + rest)[2..] == rest
  {
    assert ("$$" + rest)[1..2] == "$";
  }

  lemma PlainItem(c: char, rest: string)
    requires c != '$'
    ensures Item([c] + rest) == (Literal([c]), 1) && ([c] + rest)[1..] == rest
  {
    assert ([c] + rest)[..1] == [c];
  }

  lemma {:induction false} ScanEscaped(parts: seq<Part>, text: string, rest: string)
    ensures Scan(parts, EscapeDollars(text) + rest) == Scan(AppendLiteral(parts, text), rest)
    decreases |text|
  {
    hide AppendLiteral, Item;
    if text == "" {
      AppendNothing(parts);
      assert EscapeDollars(text) + rest == rest;
    } else {
      var tail := EscapeDollars(text[1..]) + rest;
      assert text[..1] == [text[0]];
      if text[0] == '$' {
        DoubledItem(tail);
        assert EscapeDollars(text) + rest == "$$" + tail;
      } else {
        PlainItem(text[0], tail);
        assert EscapeDollars(text) + rest == [text[0]] + tail;
      }
      ScanEscaped(AppendLiteral(parts, text[..1]), text[1..], rest);
      AppendTwice(parts, text[..1], text[1..]);
      assert text[..1] + text[1..] == text;
    }
  }

  lemma {:induction false} FindAfter(before: string, c: char, rest: string)
    requires c !in before
    ensures Find(before + [c] + rest, c) == Some(|before|)
  {
    if before == "" {
      assert before + [c] + rest == [c] + rest;
    } else {
      assert before[0] in before;
      assert (before + [c] + rest)[1..] == before[1..] + [c] + rest;
      FindAfter(before[1..], c, rest);
    }
  }

  /** `${NAME}` is always one reference, whatever follows. */
  lemma BracedReference(parts: seq<Part>, name: string, rest: string)
    requires IsEnvVarName(name)
    ensures Scan(parts, "${" + name + "}" + rest) == Scan(parts + [Env(name)], rest)
  {
    var s := "${" + name + "}" + rest;
    assert s[2..] == name + ['}'] + rest;
    FindAfter(name, '}', rest);
    assert s[2..2 + |name|] == name && s[3 + |name|..] == rest;
    assert Item(s) == (Env(name), 3 + |name|);
  }

  /** `$NAME` is the same reference as long as no further name character follows. */
  lemma BareReference(parts: seq<Part>, name: string, rest: string)
    requires IsEnvVarName(name) && (rest == "" || !NameChar(rest[0]))
    ensures Scan(parts, "$" + name + rest) == Scan(parts + [Env(name)], rest)
  {
    var s := "$" + name + rest;
    assert s[1..] == name + rest && s[1] == name[0];
    var n := EnvVarNamePrefixLen(s[1..]);
    assert forall i | 0 <= i < |name| :: NameChar(s[1..][i]);
    assert |s[1..]| > |name| ==> !NameChar(s[1..][|name|]);
    assert s[1..][..n] == name && s[1 + n..] == rest;
    assert Item(s) == (Env(name), 1 + n);
  }

  lemma {:induction false} ScanPrinted(done: seq<Part>, parts: seq<Part>)
    requires Canonical(done + parts)
    ensures Scan(done, Print(parts)) == done + parts
    decreases |parts|
  {
    hide Scan, IsEnvVarName, EscapeDollars;
    if parts == [] {
      assert done + parts == done;
      assert Scan(done, "") == done by { ScanNothing(done); }
    } else {
      assert (done + parts)[|done|] == parts[0];
      assert done != [] ==> (done + parts)[|done| - 1] == done[|done| - 1];
      ScanPart(done, parts[0], Print(parts[1..]));
      assert done + [parts[0]] + parts[1..] == done + parts;
      ScanPrinted(done + [parts[0]], parts[1..]);
    }
  }

  lemma ScanNothing(parts: seq<Part>)
    ensures Scan(parts, "") == parts
  {
  }

  lemma ScanPart(done: seq<Part>, p: Part, rest: string)
    requires match p case Literal(text) => text != "" case Env(name) => IsEnvVarName(name)
    requires p.Literal? && done != [] ==> done[|done| - 1].Env?
    ensures Scan(done, PrintPart(p) + rest) == Scan(done + [p], rest)
  {
    hide Scan, EscapeDollars, IsEnvVarName;
    match p
    case Literal(text) => ScanEscaped(done, text, rest);
    case Env(name) => BracedReference(done, name, rest);
  }

  /** The parser inverts the printer, and printing what was parsed changes nothing the parser can see. */
  lemma ParseInvertsPrint(parts: seq<Part>)
    requires Canonical(parts)
    ensures Parse(Print(parts)) == parts
  {
    assert [] + parts == parts;
    ScanPrinted([], parts);
  }

  lemma ParseIsCanonical(s: string)
    ensures Canonical(Parse(s))
    ensures Parse(Print(Parse(s))) == Parse(s)
  {
    ScanIsCanonical([], s);
    ParseInvertsPrint(Parse(s));
  }

  // ---------------------------------------------------------------- resolving

  function ResolveEnv(name: string, env: map<string, EnvValue>, process: map<string, string>): (r: Option<string>)
    ensures r.Some? ==> r.value != ""
  {
    if name in env && env[name].Str? && env[name].s != "" then Some(env[name].s)
    else if name in process && process[name] != "" then Some(process[name])
    else None
  }

  predicate IsCommand(config: string) {
    config != "" && config[0] == '!'
  }

  predicate Resolvable(p: Part, env: map<string, EnvValue>, process: map<string, string>) {
    p.Literal? || ResolveEnv(p.name, env, process).Some?
  }

  function Value(p: Part, env: map<string, EnvValue>, process: map<string, string>): string
    requires Resolvable(p, env, process)
  {
    match p
    case Literal(text) => text
    case Env(name) => ResolveEnv(name, env, process).value
  }

  /** What a part list stands for, when every reference in it has a value. */
  function Meaning(parts: seq<Part>, env: map<string, EnvValue>, process: map<string, string>): string
    requires forall i | 0 <= i < |parts| :: Resolvable(parts[i], env, process)
  {
    if parts == [] then ""
    else
      Meaning(parts[..|parts| - 1], env, process)
      + Value(parts[|parts| - 1], env, process)
  }

  /** All or nothing: one reference without a value and the whole config value has none. */
  method ResolveConfigValue(config: string, env: map<string, EnvValue>, process: map<string, string>)
    returns (resolved: Option<string>)
    ensures resolved.Some? <==>
            !IsCommand(config) && forall i | 0 <= i < |Parse(config)| :: Resolvable(Parse(config)[i], env, process)
    ensures resolved.Some? ==> resolved.value == Meaning(Parse(config), env, process)
  {
    hide Scan;
    if IsCommand(config) {
      return None;
    }
    var parts := ParseConfigValueTemplate(config);
    var text := "";
    for i := 0 to |parts|
      invariant forall k | 0 <= k < i :: Resolvable(parts[k], env, process)
      invariant text == Meaning(parts[..i], env, process)
    {
      assert parts[..i + 1][..i] == parts[..i];
      match parts[i] {
        case Literal(value) =>
          text := text + value;
        case Env(name) =>
          var value := ResolveEnv(name, env, process);
          if value == None {
            assert !Resolvable(parts[i], env, process);
            return None;
          }
          text := text + value.value;
      }
    }
    assert parts[..|parts|] == parts;
    return Some(text);
  }

  /** How to write any string so that it is taken literally. */
  function Escape(s: string): string {
    if IsCommand(s) then "$!" + EscapeDollars(s[1..]) else EscapeDollars(s)
  }

  lemma EscapedParses(s: string)
    ensures Parse(Escape(s)) == AppendLiteral([], s) && !IsCommand(Escape(s))
  {
    if IsCommand(s) {
      var t := EscapeDollars(s[1..]);
      assert ("$!" + t)[2..] == t && ("$!" + t)[1..2] == s[..1];
      assert t + "" == t;
      ScanEscaped(AppendLiteral([], s[..1]), s[1..], "");
      AppendTwice([], s[..1], s[1..]);
      assert s[..1] + s[1..] == s;
    } else {
      assert EscapeDollars(s) + "" == EscapeDollars(s);
      ScanEscaped([], s, "");
    }
  }

  /** Escaping and resolving gives any string back, in every environment. */
  method ResolveEscaped(s: string, env: map<string, EnvValue>, process: map<string, string>)
    returns (resolved: Option<string>)
    ensures resolved == Some(s)
  {
    EscapedParses(s);
    resolved := ResolveConfigValue(Escape(s), env, process);
    assert s != "" ==> Meaning([], env, process) + s == s;
    assert s != "" ==> [Literal(s)][..0] == [];
  }
}
