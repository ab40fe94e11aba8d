/**
 The command line parser: one pass with lookahead. It is proved against a position-by-position reading in which
 every token is claimed exactly once.
 */
module Args {
  import opened AgentTypes
  import opened Chars
  import opened Options
  import opened OrderedMaps

  /** The fields of the result that flags set. */
  datatype Field =
    | Help | Version | ModeOf | Continue | Resume | Provider | Model | ApiKey | SystemPrompt | AppendSystemPrompt
    | NameOf | NoSession | Session | SessionId | Fork | SessionDir | Models | NoTools | NoBuiltinTools | Tools
    | ExcludeTools | ThinkingOf | Print | Export | NoExtensions | Extensions | Skills | PromptTemplates | Themes
    | NoSkills | NoPromptTemplates | NoThemes | NoContextFiles | ListModels | Verbose | ProjectTrustOverride | Offline

  datatype RunMode = TextMode | JsonMode | RpcMode

  datatype Setting =
    | On(on: bool)
    | Value(value: string)
    | Values(values: seq<string>)
    | InMode(mode: RunMode)
    | Thinks(level: ThinkingLevel)
    | AllModels
    | ModelPattern(pattern: string)

  /** What a flag does with the token after it. */
  datatype Flag =
    | Switch(field: Field, on: bool)
    | OneValue(field: Field)
    | ManyValues(field: Field)
    | ListValue(field: Field, dropEmpty: bool)
    | ModeFlag
    | ThinkingFlag
    | NameFlag
    | PrintFlag
    | ListModelsFlag

  datatype FlagValue = True | Given(text: string)

  datatype Diagnostic = NameRequiresValue | InvalidThinkingLevel(level: string) | UnknownOption(arg: string)

  datatype Parsed = Parsed(
    settings: map<Field, Setting>,
    messages: seq<string>,
    fileArgs: seq<string>,
    unknownFlags: Entries<FlagValue>,
    diagnostics: seq<Diagnostic>)

  predicate IsSwitch(f: Field) {
    f in {Help, Version, Continue, Resume, NoSession, NoTools, NoBuiltinTools, NoExtensions, NoSkills,
          NoPromptTemplates, NoThemes, NoContextFiles, Verbose, ProjectTrustOverride, Offline}
  }

  predicate HoldsOne(f: Field) {
    f in {Provider, Model, ApiKey, SystemPrompt, Session, SessionId, Fork, SessionDir, Export}
  }

  predicate HoldsMany(f: Field) {
    f in {AppendSystemPrompt, Extensions, Skills, PromptTemplates, Themes}
  }

  function SwitchOf(arg: string): (flag: Option<Flag>)
    ensures flag.Some? ==> flag.value.Switch? && IsSwitch(flag.value.field)
  {
    if arg == "--help" || arg == "-h" then Some(Switch(Help, true))
    else if arg == "--version" || arg == "-v" then Some(Switch(Version, true))
    else if arg == "--continue" || arg == "-c" then Some(Switch(Continue, true))
    else if arg == "--resume" || arg == "-r" then Some(Switch(Resume, true))
    else if arg == "--no-session" then Some(Switch(NoSession, true))
    else if arg == "--no-tools" || arg == "-nt" then Some(Switch(NoTools, true))
    else if arg == "--no-builtin-tools" || arg == "-nbt" then Some(Switch(NoBuiltinTools, true))
    else if arg == "--no-extensions" || arg == "-ne" then Some(Switch(NoExtensions, true))
    else if arg == "--no-skills" || arg == "-ns" then Some(Switch(NoSkills, true))
    else if arg == "--no-prompt-templates" || arg == "-np" then Some(Switch(NoPromptTemplates, true))
    else if arg == "--no-themes" then Some(Switch(NoThemes, true))
    else if arg == "--no-context-files" || arg == "-nc" then Some(Switch(NoContextFiles, true))
    else if arg == "--verbose" then Some(Switch(Verbose, true))
    else if arg == "--approve" || arg == "-a" then Some(Switch(ProjectTrustOverride, true))
    else if arg == "--no-approve" || arg == "-na" then Some(Switch(ProjectTrustOverride, false))
    else if arg == "--offline" then Some(Switch(Offline, true))
    else None
  }

  function ValueFlagOf(arg: string): (flag: Option<Flag>)
    ensures flag.Some? ==>
      match flag.value
      case OneValue(f) => HoldsOne(f)
      case ManyValues(f) => HoldsMany(f)
      case ListValue(f, _) => f in {Models, Tools, ExcludeTools}
      case ModeFlag => true
      case ThinkingFlag => true
      case _ => false
  {
    if arg == "--mode" then Some(ModeFlag)
    else if arg == "--provider" then Some(OneValue(Provider))
    else if arg == "--model" then Some(OneValue(Model))
    else if arg == "--api-key" then Some(OneValue(ApiKey))
    else if arg == "--system-prompt" then Some(OneValue(SystemPrompt))
    else if arg == "--append-system-prompt" then Some(ManyValues(AppendSystemPrompt))
    else if arg == "--session" then Some(OneValue(Session))
    else if arg == "--session-id" then Some(OneValue(SessionId))
    else if arg == "--fork" then Some(OneValue(Fork))
    else if arg == "--session-dir" then Some(OneValue(SessionDir))
    else if arg == "--models" then Some(ListValue(Models, false))
    else if arg == "--tools" || arg == "-t" then Some(ListValue(Tools, true))
    else if arg == "--exclude-tools" || arg == "-xt" then Some(ListValue(ExcludeTools, true))
    else if arg == "--thinking" then Some(ThinkingFlag)
    else if arg == "--export" then Some(OneValue(Export))
    else if arg == "--extension" || arg == "-e" then Some(ManyValues(Extensions))
    else if arg == "--skill" then Some(ManyValues(Skills))
    else if arg == "--prompt-template" then Some(ManyValues(PromptTemplates))
    else if arg == "--theme" then Some(ManyValues(Themes))
    else None
  }

  /** The exact-match part of the chain; its tests exclude one another, so their order is immaterial. */
  function FlagOf(arg: string): Option<Flag> {
    if SwitchOf(arg).Some? then SwitchOf(arg)
    else if ValueFlagOf(arg).Some? then ValueFlagOf(arg)
    else if arg == "--name" || arg == "-n" then Some(NameFlag)
    else if arg == "--print" || arg == "-p" then Some(PrintFlag)
    else if arg == "--list-models" then Some(ListModelsFlag)
    else None
  }

  /** Flags whose test has the guard that a token follows; without one they fall through to the tail. */
  predicate Guarded(f: Flag) {
    f.OneValue? || f.ManyValues? || f.ListValue? || f.ModeFlag? || f.ThinkingFlag?
  }

  predicate StartsWith(s: string, prefix: string) {
    prefix <= s
  }

  // ---------------------------------------------------------------- what each position is

  datatype Head = Known(flag: Flag) | FileArg | UnknownFlag | BadOption | Message

  /** A token nobody before it claimed. */
  function HeadAt(argv: seq<string>, i: nat): Head
    requires i < |argv|
  {
    var flag := FlagOf(argv[i]);
    if flag.Some? && (Guarded(flag.value) ==> i + 1 < |argv|) then Known(flag.value)
    else if StartsWith(argv[i], "@") then FileArg
    else if StartsWith(argv[i], "--") then UnknownFlag
    else if StartsWith(argv[i], "-") then BadOption
    else Message
  }

  predicate PlainToken(s: string) {
    !StartsWith(s, "-") && !StartsWith(s, "@")
  }

  /** Does the token at `i`, read as a head, claim the one after it? */
  predicate TakesNext(argv: seq<string>, i: nat)
    requires i < |argv|
  {
    i + 1 < |argv| &&
    match HeadAt(argv, i)
    case Known(Switch(_, _)) => false
    case Known(PrintFlag) => !StartsWith(argv[i + 1], "@")
        && (!StartsWith(argv[i + 1], "-") || StartsWith(argv[i + 1], "---"))
    case Known(ListModelsFlag) => PlainToken(argv[i + 1])
    case Known(_) => true
    case UnknownFlag => '=' !in argv[i] && PlainToken(argv[i + 1])
    case _ => false
  }

  predicate Claimed(argv: seq<string>, i: nat)
    requires i <= |argv|
  {
    i > 0 && !Claimed(argv, i - 1) && TakesNext(argv, i - 1)
  }

  datatype Role = IsFlag | IsValue | IsMessage | IsFile | IsUnknownFlag | IsUnknownValue | IsDiagnostic

  function RoleAt(argv: seq<string>, i: nat): Role
    requires i < |argv|
  {
    if Claimed(argv, i) then
      match HeadAt(argv, i - 1)
      case Known(PrintFlag) => IsMessage
      case Known(_) => IsValue
      case _ => IsUnknownValue
    else
      match HeadAt(argv, i)
      case Known(NameFlag) => if i + 1 < |argv| then IsFlag else IsDiagnostic
      case Known(_) => IsFlag
      case FileArg => IsFile
      case UnknownFlag => IsUnknownFlag
      case BadOption => IsDiagnostic
      case Message => IsMessage
  }

  // ---------------------------------------------------------------- what the positions before `n` come to

  function Messages(argv: seq<string>, n: nat): seq<string>
    requires n <= |argv|
  {
    if n == 0 then [] else Messages(argv, n - 1) + if RoleAt(argv, n - 1) == IsMessage then [argv[n - 1]] else []
  }

  function FileArgs(argv: seq<string>, n: nat): seq<string>
    requires n <= |argv|
  {
    if n == 0 then []
    else
      FileArgs(argv, n - 1)
      + if RoleAt(argv, n - 1) == IsFile && argv[n - 1] != "" then [argv[n - 1][1..]] else []
  }

  function LevelOf(s: string): Option<ThinkingLevel> {
    if s == "off" then Some(Off) else if s == "minimal" then Some(Minimal) else if s == "low" then Some(Low)
    else if s == "medium" then Some(Medium) else if s == "high" then Some(High) else if s == "xhigh" then Some(Xhigh)
    else if s == "max" then Some(Max) else None
  }

  /** The complaint about one position, if any; a bad thinking level is complained about where it stands. */
  function DiagnosticAt(argv: seq<string>, i: nat): Option<Diagnostic>
    requires i < |argv|
  {
    if Claimed(argv, i) then
      if HeadAt(argv, i - 1) == Known(ThinkingFlag) && LevelOf(argv[i]).None? then Some(InvalidThinkingLevel(argv[i]))
          else None
    else
      match HeadAt(argv, i)
      case Known(NameFlag) => if i + 1 < |argv| then None else Some(NameRequiresValue)
      case BadOption => Some(UnknownOption(argv[i]))
      case _ => None
  }

  function Diagnostics(argv: seq<string>, n: nat): seq<Diagnostic>
    requires n <= |argv|
  {
    if n == 0 then []
    else Diagnostics(argv, n - 1) + match DiagnosticAt(argv, n - 1) case None => [] case Some(d) => [d]
  }

  function Find(s: string, c: char): (at: nat)
    ensures at <= |s| && c !in s[..at] && (at < |s| ==> s[at] == c)
    ensures at == |s| <==> c !in s
  {
    if s == "" || s[0] == c then 0 else 1 + Find(s[1..], c)
  }

  /** The entry an unknown long flag makes: up to the first `=` and after it, or with the token it claims. */
  function UnknownEntry(argv: seq<string>, i: nat): (string, FlagValue)
    requires i < |argv| && |argv[i]| >= 2
  {
    var rest := argv[i][2..];
    var eq := Find(rest, '=');
    if eq < |rest| then (rest[..eq], Given(rest[eq + 1..]))
    else (rest, if TakesNext(argv, i) then Given(argv[i + 1]) else True)
  }

  function UnknownFlags(argv: seq<string>, n: nat): Entries<FlagValue>
    requires n <= |argv|
  {
    if n == 0 then []
    else if RoleAt(argv, n - 1) == IsUnknownFlag && |argv[n - 1]| >= 2 then
      Put(UnknownFlags(argv, n - 1), UnknownEntry(argv, n - 1).0, UnknownEntry(argv, n - 1).1)
    else UnknownFlags(argv, n - 1)
  }

  function Split(s: string, c: char): (parts: seq<string>)
    ensures parts != []
    decreases |s|
  {
    if s == "" then [""]
    else
      var parts, last := Split(s[..|s| - 1], c), s[|s| - 1];
      if last == c then parts + [""] else parts[..|parts| - 1] + [parts[|parts| - 1] + [last]]
  }

  function TrimAll(parts: seq<string>): seq<string> {
    seq(|parts|, i requires 0 <= i < |parts| => Trim(parts[i]))
  }

  function SplitTrim(s: string, dropEmpty: bool): seq<string> {
    if dropEmpty then NonEmpty(TrimAll(Split(s, ','))) else TrimAll(Split(s, ','))
  }

  function Appended(settings: map<Field, Setting>, f: Field, value: string): map<Field, Setting> {
    settings[f := Values(if f in settings && settings[f].Values? then settings[f].values + [value] else [value])]
  }

  function ModeNamed(s: string): Option<RunMode> {
    if s == "text" then Some(TextMode) else if s == "json" then Some(JsonMode) else if s == "rpc" then Some(RpcMode)
        else None
  }

  /** What a flag does when it is met, and what it does with the token it claimed. */
  function WithFlag(settings: map<Field, Setting>, flag: Flag, alone: bool): map<Field, Setting> {
    match flag
    case Switch(f, on) => settings[f := On(on)]
    case PrintFlag => settings[Print := On(true)]
    case ListModelsFlag => if alone then settings[ListModels := AllModels] else settings
    case _ => settings
  }

  function WithValue(settings: map<Field, Setting>, flag: Flag, value: string): map<Field, Setting> {
    match flag
    case OneValue(f) => settings[f := Value(value)]
    case ManyValues(f) => Appended(settings, f, value)
    case ListValue(f, dropEmpty) => settings[f := Values(SplitTrim(value, dropEmpty))]
    case ModeFlag => (match ModeNamed(value) case None => settings case Some(m) => settings[ModeOf := InMode(m)])
    case ThinkingFlag => (match LevelOf(value) case None => settings case Some(l) => settings[ThinkingOf := Thinks(l)])
    case NameFlag => settings[NameOf := Value(value)]
    case ListModelsFlag => settings[ListModels := ModelPattern(value)]
    case _ => settings
  }

  function Settings(argv: seq<string>, n: nat): map<Field, Setting>
    requires n <= |argv|
  {
    if n == 0 then map[]
    else
      var before := Settings(argv, n - 1);
      if Claimed(argv, n - 1) then
        match HeadAt(argv, n - 2) case Known(flag) => WithValue(before, flag, argv[n - 1]) case _ => before
      else
        match HeadAt(argv, n - 1) case Known(flag) => WithFlag(before, flag, !TakesNext(argv, n - 1)) case _ => before
  }

  function Reading(argv: seq<string>, n: nat): Parsed
    requires n <= |argv|
  {
    Parsed(Settings(argv, n), Messages(argv, n), FileArgs(argv, n), UnknownFlags(argv, n), Diagnostics(argv, n))
  }

  /** A position read as a head. */
  lemma ReadHead(argv: seq<string>, i: nat)
    requires i < |argv| && !Claimed(argv, i)
    ensures Claimed(argv, i + 1) <==> TakesNext(argv, i)
    ensures TakesNext(argv, i) ==> i + 1 < |argv|
    ensures var r, s, head := Reading(argv, i), Reading(argv, i + 1), HeadAt(argv, i);
      && s.settings == (if head.Known? then WithFlag(r.settings, head.flag, !TakesNext(argv, i)) else r.settings)
      && s.messages == (if head.Message? then r.messages + [argv[i]] else r.messages)
      && (head.FileArg? ==> argv[i] != "")
      && s.fileArgs == (if head.FileArg? then r.fileArgs + [argv[i][1..]] else r.fileArgs)
      && (head.UnknownFlag? ==> |argv[i]| >= 2)
      && s.unknownFlags ==
         (if head.UnknownFlag? then Put(r.unknownFlags, UnknownEntry(argv, i).0, UnknownEntry(argv, i).1)
          else r.unknownFlags)
      && s.diagnostics == r.diagnostics
           + (if head == Known(NameFlag) && i + 1 == |argv| then [NameRequiresValue]
              else if head.BadOption? then [UnknownOption(argv[i])] else [])
  {
    hide FlagOf, WithFlag, WithValue, UnknownEntry, Put;
  }

  /** A position the one before it claimed. */
  lemma ReadClaimed(argv: seq<string>, i: nat)
    requires i < |argv| && Claimed(argv, i)
    ensures !Claimed(argv, i + 1)
    ensures var r, s, head := Reading(argv, i), Reading(argv, i + 1), HeadAt(argv, i - 1);
      && s.settings == (if head.Known? then WithValue(r.settings, head.flag, argv[i]) else r.settings)
      && s.messages == (if head == Known(PrintFlag) then r.messages + [argv[i]] else r.messages)
      && s.fileArgs == r.fileArgs && s.unknownFlags == r.unknownFlags
      && s.diagnostics == r.diagnostics
           + (if head == Known(ThinkingFlag) && LevelOf(argv[i]).None? then [InvalidThinkingLevel(argv[i])] else [])
  {
    hide FlagOf, WithFlag, WithValue, UnknownEntry, Put, TakesNext, LevelOf, HeadAt;
  }

  // ---------------------------------------------------------------- the loop

  method ParseArgs(argv: seq<string>) returns (result: Parsed, ghost roles: seq<Role>)
    ensures result == Reading(argv, |argv|)
    ensures |roles| == |argv| && forall i | 0 <= i < |argv| :: roles[i] == RoleAt(argv, i)
  {
    hide FlagOf, WithFlag, WithValue, UnknownEntry, Put, LevelOf, Reading, RoleAt, Claimed, TakesNext, HeadAt;
    result := Parsed(map[], [], [], [], []);
    roles := [];
    var i := 0;
    assert !Claimed(argv, 0) && result == Reading(argv, 0) by { NothingRead(argv); }
    while i < |argv|
      invariant 0 <= i <= |argv| && !Claimed(argv, i)
      invariant result == Reading(argv, i)
      invariant |roles| == i && forall k | 0 <= k < i :: roles[k] == RoleAt(argv, k)
    {
      ReadHead(argv, i);
      if TakesNext(argv, i) {
        ReadClaimed(argv, i + 1);
      }
      var used: nat;
      result, used := ParseToken(argv, i, result);
      roles := roles + if used == 2 then [RoleAt(argv, i), RoleAt(argv, i + 1)] else [RoleAt(argv, i)];
      i := i + used;
    }
  }

  lemma NothingRead(argv: seq<string>)
    ensures !Claimed(argv, 0) && Reading(argv, 0) == Parsed(map[], [], [], [], [])
  {
  }

  /** One turn of the loop: the branch for the token at `i`, which may take the one after it as well. */
  method ParseToken(argv: seq<string>, i: nat, before: Parsed) returns (result: Parsed, used: nat)
    requires i < |argv| && !Claimed(argv, i) && before == Reading(argv, i)
    ensures used == if TakesNext(argv, i) then 2 else 1
    ensures i + used <= |argv| && result == Reading(argv, i + used)
  {
    hide FlagOf, UnknownEntry, Put, LevelOf, Reading, Claimed, SplitTrim, ModeNamed;
    ReadHead(argv, i);
    if TakesNext(argv, i) {
      ReadClaimed(argv, i + 1);
    }
    result, used := before, 1;
    var arg, flag := argv[i], FlagOf(argv[i]);
    if flag.Some? && (Guarded(flag.value) ==> i + 1 < |argv|) {
      match flag.value {
        case Switch(f, on) =>
          result := result.(settings := result.settings[f := On(on)]);
        case OneValue(f) =>
          result, used := result.(settings := result.settings[f := Value(argv[i + 1])]), 2;
        case ManyValues(f) =>
          result, used := result.(settings := Appended(result.settings, f, argv[i + 1])), 2;
        case ListValue(f, dropEmpty) =>
          result, used := result.(settings := result.settings[f := Values(SplitTrim(argv[i + 1], dropEmpty))]), 2;
        case ModeFlag =>
          used := 2;
          var mode := ModeNamed(argv[i + 1]);
          if mode.Some? {
            result := result.(settings := result.settings[ModeOf := InMode(mode.value)]);
          }
        case ThinkingFlag =>
          used := 2;
          var level := LevelOf(argv[i + 1]);
          if level.Some? {
            result := result.(settings := result.settings[ThinkingOf := Thinks(level.value)]);
          } else {
            result := result.(diagnostics := result.diagnostics + [InvalidThinkingLevel(argv[i + 1])]);
          }
        case NameFlag =>
          if i + 1 < |argv| {
            result, used := result.(settings := result.settings[NameOf := Value(argv[i + 1])]), 2;
          } else {
            result := result.(diagnostics := result.diagnostics + [NameRequiresValue]);
          }
        case PrintFlag =>
          result := result.(settings := result.settings[Print := On(true)]);
          if i + 1 < |argv| {
            var next := argv[i + 1];
            if !StartsWith(next, "@") && (!StartsWith(next, "-") || StartsWith(next, "---")) {
              result, used := result.(messages := result.messages + [next]), 2;
            }
          }
        case ListModelsFlag =>
          if i + 1 < |argv| && PlainToken(argv[i + 1]) {
            result, used := result.(settings := result.settings[ListModels := ModelPattern(argv[i + 1])]), 2;
          } else {
            result := result.(settings := result.settings[ListModels := AllModels]);
          }
      }
    } else if StartsWith(arg, "@") {
      result := result.(fileArgs := result.fileArgs + [arg[1..]]);
    } else if StartsWith(arg, "--") {
      var key, value, took := ParseUnknownFlag(argv, i);
      result := result.(unknownFlags := Put(result.unknownFlags, key, value));
      used := if took then 2 else 1;
    } else if StartsWith(arg, "-") {
      result := result.(diagnostics := result.diagnostics + [UnknownOption(arg)]);
    } else {
      result := result.(messages := result.messages + [arg]);
    }
  }

  method ParseUnknownFlag(argv: seq<string>, i: nat) returns (key: string, value: FlagValue, took: bool)
    requires i < |argv| && |argv[i]| >= 2 && HeadAt(argv, i) == UnknownFlag
    ensures (key, value) == UnknownEntry(argv, i) && took == TakesNext(argv, i)
  {
    hide FlagOf;
    took := false;
    assert argv[i] == argv[i][..2] + argv[i][2..];
    var rest := argv[i][2..];
    var eq := Find(rest, '=');
    if eq < |rest| {
      key, value := rest[..eq], Given(rest[eq + 1..]);
    } else {
      if i + 1 < |argv| && !StartsWith(argv[i + 1], "-") && !StartsWith(argv[i + 1], "@") {
        key, value, took := rest, Given(argv[i + 1]), true;
      } else {
        key, value := rest, True;
      }
    }
  }

  // ---------------------------------------------------------------- what the reading means

  function Count(roles: seq<Role>, role: Role): nat {
    if roles == [] then 0 else (if roles[0] == role then 1 else 0) + Count(roles[1..], role)
  }

  lemma {:induction false} CountPush(roles: seq<Role>, last: Role, role: Role)
    ensures Count(roles + [last], role) == Count(roles, role) + if last == role then 1 else 0
  {
    if roles == [] {
      assert roles + [last] == [last] && [last][1..] == [];
    } else {
      assert (roles + [last])[1..] == roles[1..] + [last];
      CountPush(roles[1..], last, role);
    }
  }

  function Roles(argv: seq<string>, n: nat): (roles: seq<Role>)
    requires n <= |argv|
    ensures |roles| == n && forall i | 0 <= i < n :: roles[i] == RoleAt(argv, i)
  {
    seq(n, i requires 0 <= i < n => RoleAt(argv, i))
  }

  /** Does the token at `i` name a thinking level that does not exist? */
  predicate IsBadLevel(argv: seq<string>, i: nat)
    requires i < |argv|
  {
    Claimed(argv, i) && HeadAt(argv, i - 1) == Known(ThinkingFlag) && LevelOf(argv[i]).None?
  }

  function BadLevels(argv: seq<string>, n: nat): nat
    requires n <= |argv|
  {
    if n == 0 then 0 else BadLevels(argv, n - 1) + if IsBadLevel(argv, n - 1) then 1 else 0
  }

  /** Each result list has as many entries as tokens of its role; a bad thinking level is one more complaint. */
  lemma {:induction false} EveryTokenCounts(argv: seq<string>, n: nat)
    requires n <= |argv|
    ensures |Messages(argv, n)| == Count(Roles(argv, n), IsMessage)
    ensures |FileArgs(argv, n)| == Count(Roles(argv, n), IsFile)
    ensures |Diagnostics(argv, n)| == Count(Roles(argv, n), IsDiagnostic) + BadLevels(argv, n)
    decreases n
  {
    hide RoleAt, Count, DiagnosticAt, IsBadLevel;
    if n == 0 {
      CountNone();
      assert Roles(argv, 0) == [];
    } else {
      EveryTokenCounts(argv, n - 1);
      var last := RoleAt(argv, n - 1);
      assert Roles(argv, n) == Roles(argv, n - 1) + [last];
      CountPush(Roles(argv, n - 1), last, IsMessage);
      CountPush(Roles(argv, n - 1), last, IsFile);
      CountPush(Roles(argv, n - 1), last, IsDiagnostic);
      FilesHaveNames(argv, n - 1);
      OneComplaint(argv, n - 1);
    }
  }

  lemma OneComplaint(argv: seq<string>, i: nat)
    requires i < |argv|
    ensures DiagnosticAt(argv, i).Some? <==> RoleAt(argv, i) == IsDiagnostic || IsBadLevel(argv, i)
    ensures !(RoleAt(argv, i) == IsDiagnostic && IsBadLevel(argv, i))
  {
    hide FlagOf, LevelOf, TakesNext;
  }

  lemma CountNone()
    ensures Count([], IsMessage) == 0 && Count([], IsFile) == 0 && Count([], IsDiagnostic) == 0
  {
  }

  // ---------------------------------------------------------------- where each token ends up

  lemma {:induction false} ListsGrow(argv: seq<string>, m: nat, n: nat)
    requires m <= n <= |argv|
    ensures Messages(argv, m) <= Messages(argv, n)
    ensures FileArgs(argv, m) <= FileArgs(argv, n)
    ensures Diagnostics(argv, m) <= Diagnostics(argv, n)
    decreases n
  {
    hide RoleAt, DiagnosticAt;
    if m < n {
      ListsGrow(argv, m, n - 1);
    }
  }

  /** The field of a flag holds the value it was given; only a mode that does not exist leaves no trace. */
  predicate Holds(settings: map<Field, Setting>, flag: Flag, value: string) {
    match flag
    case OneValue(f) => f in settings && settings[f] == Value(value)
    case ManyValues(f) =>
      f in settings && settings[f].Values? && settings[f].values != []
      && settings[f].values[|settings[f].values| - 1] == value
    case ListValue(f, dropEmpty) => f in settings && settings[f] == Values(SplitTrim(value, dropEmpty))
    case ModeFlag =>
      ModeNamed(value).Some? ==> ModeOf in settings && settings[ModeOf] == InMode(ModeNamed(value).value)
    case ThinkingFlag =>
      LevelOf(value).Some? ==> ThinkingOf in settings && settings[ThinkingOf] == Thinks(LevelOf(value).value)
    case NameFlag => NameOf in settings && settings[NameOf] == Value(value)
    case ListModelsFlag => ListModels in settings && settings[ListModels] == ModelPattern(value)
    case _ => false
  }

  /** A flag that stands alone sets its field; the others hand on the token after them. */
  predicate TakesEffect(settings: map<Field, Setting>, flag: Flag, took: bool) {
    match flag
    case Switch(f, on) => f in settings && settings[f] == On(on)
    case PrintFlag => Print in settings && settings[Print] == On(true)
    case ListModelsFlag => took || (ListModels in settings && settings[ListModels] == AllModels)
    case _ => took
  }

  /**
   What becomes of the token at `i`, by its role. Lists keep it at the place its turn gives it; a
   value fills the field of the flag right before it; an unknown flag gives its key the value of its
   last occurrence.
   */
  ghost predicate IsUsed(argv: seq<string>, i: nat)
    requires i < |argv|
  {
    var n := |argv|;
    match RoleAt(argv, i)
    case IsMessage =>
      |Messages(argv, i)| < |Messages(argv, n)| && Messages(argv, n)[|Messages(argv, i)|] == argv[i]
    case IsFile =>
      && argv[i] != ""
      && |FileArgs(argv, i)| < |FileArgs(argv, n)| && FileArgs(argv, n)[|FileArgs(argv, i)|] == argv[i][1..]
    case IsDiagnostic => Complains(argv, i, [NameRequiresValue, UnknownOption(argv[i])])
    case IsFlag =>
      && HeadAt(argv, i).Known?
      && TakesEffect(Settings(argv, i + 1), HeadAt(argv, i).flag, TakesNext(argv, i))
      && (TakesNext(argv, i) ==> RoleAt(argv, i + 1) == IsValue || RoleAt(argv, i + 1) == IsMessage)
    case IsValue =>
      && i > 0 && RoleAt(argv, i - 1) == IsFlag && HeadAt(argv, i - 1).Known?
      && Holds(Settings(argv, i + 1), HeadAt(argv, i - 1).flag, argv[i])
      && (IsBadLevel(argv, i) ==> Complains(argv, i, [InvalidThinkingLevel(argv[i])]))
    case IsUnknownFlag =>
      && |argv[i]| >= 2
      && Lookup(UnknownFlags(argv, n), UnknownEntry(argv, i).0).Some?
      && ((forall j | i < j < n :: !SaysAgain(argv, i, j)) ==>
            Lookup(UnknownFlags(argv, n), UnknownEntry(argv, i).0) == Some(UnknownEntry(argv, i).1))
    case IsUnknownValue =>
      && i > 0 && RoleAt(argv, i - 1) == IsUnknownFlag
      && |argv[i - 1]| >= 2 && UnknownEntry(argv, i - 1).1 == Given(argv[i])
  }

  ghost predicate Complains(argv: seq<string>, i: nat, about: seq<Diagnostic>)
    requires i < |argv|
  {
    var all := Diagnostics(argv, |argv|);
    |Diagnostics(argv, i)| < |all| && all[|Diagnostics(argv, i)|] in about
  }

  predicate SaysAgain(argv: seq<string>, i: nat, j: nat)
    requires i < j < |argv| && |argv[i]| >= 2
  {
    RoleAt(argv, j) == IsUnknownFlag && |argv[j]| >= 2 && UnknownEntry(argv, j).0 == UnknownEntry(argv, i).0
  }

  /** No token is dropped, but for a run mode that does not exist. */
  lemma EveryTokenIsUsed(argv: seq<string>, i: nat)
    requires i < |argv|
    ensures IsUsed(argv, i)
  {
    hide FlagOf, WithFlag, WithValue, UnknownEntry, Put, LevelOf, HeadAt, TakesNext, Claimed;
    ListsGrow(argv, i + 1, |argv|);
    if Claimed(argv, i) {
      ClaimedIsUsed(argv, i);
    } else {
      HeadIsUsed(argv, i);
    }
  }

  lemma ClaimedIsUsed(argv: seq<string>, i: nat)
    requires i < |argv| && Claimed(argv, i)
    requires Messages(argv, i + 1) <= Messages(argv, |argv|) && Diagnostics(argv, i + 1) <= Diagnostics(argv, |argv|)
    ensures IsUsed(argv, i)
  {
    ReadClaimed(argv, i);
    ClaimIsBefore(argv, i);
    ClaimRole(argv, i);
    hide WithValue, UnknownEntry, Put, LevelOf, HeadAt, TakesNext, Claimed, Holds, TakesEffect, RoleAt;
    hide Messages, Diagnostics, Settings, FileArgs, UnknownFlags, SaysAgain;
    if RoleAt(argv, i) == IsValue {
      ValueHeld(Settings(argv, i), HeadAt(argv, i - 1).flag, argv[i]);
    }
  }

  lemma ClaimRole(argv: seq<string>, i: nat)
    requires i < |argv| && Claimed(argv, i) && i > 0
    ensures var head := HeadAt(argv, i - 1);
            RoleAt(argv, i) == if head == Known(PrintFlag) then IsMessage else if head.Known? then IsValue
                else IsUnknownValue
    ensures IsBadLevel(argv, i) <==> HeadAt(argv, i - 1) == Known(ThinkingFlag) && LevelOf(argv[i]).None?
  {
    hide FlagOf;
  }

  lemma ClaimIsBefore(argv: seq<string>, i: nat)
    requires i < |argv| && Claimed(argv, i)
    ensures i > 0 && !Claimed(argv, i - 1) && TakesNext(argv, i - 1)
    ensures var head := HeadAt(argv, i - 1);
            && (head.Known? || head.UnknownFlag?) && (head.Known? ==> !head.flag.Switch?)
            && (head.UnknownFlag? ==> |argv[i - 1]| >= 2 && UnknownEntry(argv, i - 1).1 == Given(argv[i]))
            && RoleAt(argv, i - 1) == (if head.Known? then IsFlag else IsUnknownFlag)
  {
    hide FlagOf;
    if HeadAt(argv, i - 1).UnknownFlag? {
      assert argv[i - 1] == argv[i - 1][..2] + argv[i - 1][2..];
    }
  }

  lemma ValueHeld(settings: map<Field, Setting>, flag: Flag, value: string)
    requires !flag.Switch? && !flag.PrintFlag?
    ensures Holds(WithValue(settings, flag, value), flag, value)
  {
    hide SplitTrim, ModeNamed, LevelOf;
  }

  lemma HeadIsUsed(argv: seq<string>, i: nat)
    requires i < |argv| && !Claimed(argv, i)
    requires Messages(argv, i + 1) <= Messages(argv, |argv|) && Diagnostics(argv, i + 1) <= Diagnostics(argv, |argv|)
    requires FileArgs(argv, i + 1) <= FileArgs(argv, |argv|)
    ensures IsUsed(argv, i)
  {
    hide FlagOf, WithFlag, WithValue, UnknownEntry, Put, LevelOf, HeadAt, TakesNext, Claimed, RoleAt, SaysAgain;
    hide Messages, Diagnostics, Settings, FileArgs, UnknownFlags, Lookup, IsBadLevel, Holds, TakesEffect;
    ReadHead(argv, i);
    HeadRole(argv, i);
    match RoleAt(argv, i) {
      case IsFlag =>
        EffectTaken(Settings(argv, i), HeadAt(argv, i).flag, TakesNext(argv, i));
      case IsUnknownFlag =>
        LastOccurrence(argv, i, |argv|);
      case _ =>
    }
  }

  lemma EffectTaken(settings: map<Field, Setting>, flag: Flag, took: bool)
    requires took || flag.Switch? || flag.PrintFlag? || flag.ListModelsFlag?
    ensures TakesEffect(WithFlag(settings, flag, !took), flag, took)
  {
  }

  lemma HeadRole(argv: seq<string>, i: nat)
    requires i < |argv| && !Claimed(argv, i)
    ensures RoleAt(argv, i) != IsValue && RoleAt(argv, i) != IsUnknownValue
    ensures var head := HeadAt(argv, i);
            && (RoleAt(argv, i) == IsFlag <==> head.Known? && (head.flag.NameFlag? ==> i + 1 < |argv|))
            && (RoleAt(argv, i) == IsDiagnostic <==> head.BadOption? || (head == Known(NameFlag) && i + 1 == |argv|))
            && (RoleAt(argv, i) == IsMessage <==> head.Message?) && (RoleAt(argv, i) == IsFile <==> head.FileArg?)
            && (RoleAt(argv, i) == IsUnknownFlag <==> head.UnknownFlag?)
            && (head.Known? && TakesNext(argv, i) ==>
                  i + 1 < |argv| && (RoleAt(argv, i + 1) == IsValue || RoleAt(argv, i + 1) == IsMessage))
            && (RoleAt(argv, i) == IsFlag && !head.flag.Switch? && !head.flag.PrintFlag?
                && !head.flag.ListModelsFlag? ==>
                  TakesNext(argv, i))
  {
    hide FlagOf;
  }

  lemma {:induction false} LastOccurrence(argv: seq<string>, i: nat, n: nat)
    requires i < n <= |argv| && RoleAt(argv, i) == IsUnknownFlag && |argv[i]| >= 2
    ensures Lookup(UnknownFlags(argv, n), UnknownEntry(argv, i).0).Some?
    ensures (forall j | i < j < n :: !SaysAgain(argv, i, j)) ==>
              Lookup(UnknownFlags(argv, n), UnknownEntry(argv, i).0) == Some(UnknownEntry(argv, i).1)
    decreases n
  {
    hide RoleAt, UnknownEntry, Put, Lookup;
    var key := UnknownEntry(argv, i).0;
    UnknownFlagsMean(argv, n, key);
    if n > i + 1 {
      LastOccurrence(argv, i, n - 1);
      UnknownFlagsMean(argv, n - 1, key);
      if !SaysAgain(argv, i, n - 1) {
        assert LastSaid(argv, n, key) == LastSaid(argv, n - 1, key);
      }
    }
  }

  lemma FilesHaveNames(argv: seq<string>, i: nat)
    requires i < |argv|
    ensures RoleAt(argv, i) == IsFile ==> argv[i] != ""
  {
    hide FlagOf;
  }

  /** The last thing argv says about an unknown flag. */
  function LastSaid(argv: seq<string>, n: nat, key: string): Option<FlagValue>
    requires n <= |argv|
  {
    if n == 0 then None
    else if RoleAt(argv, n - 1) == IsUnknownFlag && |argv[n - 1]| >= 2 && UnknownEntry(argv, n - 1).0 == key then
      Some(UnknownEntry(argv, n - 1).1)
    else LastSaid(argv, n - 1, key)
  }

  /** Unknown flags have distinct keys with their last values; a key keeps the place of its first occurrence. */
  lemma {:induction false} UnknownFlagsMean(argv: seq<string>, n: nat, key: string)
    requires n <= |argv|
    ensures DistinctKeys(UnknownFlags(argv, n))
    ensures Lookup(UnknownFlags(argv, n), key) == LastSaid(argv, n, key)
    ensures n > 0 ==>
      var before, now := UnknownFlags(argv, n - 1), UnknownFlags(argv, n);
      |before| <= |now| && forall k | 0 <= k < |before| :: now[k].0 == before[k].0
    decreases n
  {
    hide RoleAt, UnknownEntry, Put, Lookup;
    if n == 0 {
      assert Lookup<FlagValue>([], key) == None by { NothingThere(key); }
    } else {
      UnknownFlagsMean(argv, n - 1, key);
      if RoleAt(argv, n - 1) == IsUnknownFlag && |argv[n - 1]| >= 2 {
        var before, entry := UnknownFlags(argv, n - 1), UnknownEntry(argv, n - 1);
        PutStaysDistinct(before, entry.0, entry.1);
        PutThenLookup(before, entry.0, entry.1, key);
        PutKeepsPlaces(before, entry.0, entry.1);
      }
    }
  }

  lemma NothingThere(key: string)
    ensures Lookup<FlagValue>([], key) == None
  {
  }

  lemma {:induction false} PutKeepsPlaces(e: Entries<FlagValue>, key: string, value: FlagValue)
    ensures |e| <= |Put(e, key, value)| && forall k | 0 <= k < |e| :: Put(e, key, value)[k].0 == e[k].0
  {
    if e != [] && e[0].0 != key {
      PutKeepsPlaces(e[1..], key, value);
    }
  }

  /** The tokens claimed by flags that fill `f`, in argv order. */
  function ValuesGiven(argv: seq<string>, n: nat, f: Field): seq<string>
    requires n <= |argv|
  {
    if n == 0 then []
    else
      ValuesGiven(argv, n - 1, f)
      + if Claimed(argv, n - 1) && HeadAt(argv, n - 2) in {Known(OneValue(f)), Known(ManyValues(f))} then
          [argv[n - 1]] else []
  }

  /** Repeating a one-value flag keeps its last value; repeating a list flag keeps them all, in order. */
  lemma {:induction false} RepeatedFlags(argv: seq<string>, n: nat, f: Field)
    requires n <= |argv| && (HoldsOne(f) || HoldsMany(f))
    ensures var given := ValuesGiven(argv, n, f);
      && (f in Settings(argv, n) <==> given != [])
      && (given != [] ==> Settings(argv, n)[f] == if HoldsOne(f) then Value(given[|given| - 1]) else Values(given))
    decreases n
  {
    hide HeadAt, TakesNext, WithFlag, WithValue, Claimed, HoldsOne, HoldsMany, KeepsToItsField, Settings, ValuesGiven;
    SettingsNext(argv, n, f);
    if n > 0 {
      RepeatedFlags(argv, n - 1, f);
    }
  }

  /** One position more: either it adds a value for `f`, or `f` stays as it was. */
  lemma SettingsNext(argv: seq<string>, n: nat, f: Field)
    requires n <= |argv| && (HoldsOne(f) || HoldsMany(f))
    ensures n == 0 ==> Settings(argv, n) == map[] && ValuesGiven(argv, n, f) == []
    ensures n > 0 ==>
      var before, now := Settings(argv, n - 1), Settings(argv, n);
      || (ValuesGiven(argv, n, f) == ValuesGiven(argv, n - 1, f)
          && (f in now <==> f in before) && (f in now && f in before ==> now[f] == before[f]))
      || (ValuesGiven(argv, n, f) == ValuesGiven(argv, n - 1, f) + [argv[n - 1]] && f in now
          && now[f] == if HoldsOne(f) then Value(argv[n - 1])
                       else Values(if f in before && before[f].Values? then before[f].values + [argv[n - 1]]
                                   else [argv[n - 1]]))
  {
    hide HeadAt, TakesNext, WithFlag, WithValue, Claimed, HoldsOne, HoldsMany, KeepsToItsField;
    if n > 0 {
      var before := Settings(argv, n - 1);
      if Claimed(argv, n - 1) {
        assert n > 1 by { OnlyFollowersAreClaimed(argv); }
        FlagsKeepToTheirFields(argv, n - 2);
        if HeadAt(argv, n - 2).Known? {
          ValueKept(before, HeadAt(argv, n - 2).flag, argv[n - 1], f);
        }
      } else {
        FlagsKeepToTheirFields(argv, n - 1);
        if HeadAt(argv, n - 1).Known? {
          FlagKept(before, HeadAt(argv, n - 1).flag, !TakesNext(argv, n - 1), f);
        }
      }
    }
  }

  lemma OnlyFollowersAreClaimed(argv: seq<string>)
    ensures !Claimed(argv, 0)
  {
  }

  /** A flag fills fields of its own kind only. */
  predicate KeepsToItsField(flag: Flag) {
    match flag
    case Switch(f, _) => !HoldsOne(f) && !HoldsMany(f)
    case OneValue(f) => HoldsOne(f)
    case ManyValues(f) => HoldsMany(f)
    case ListValue(f, _) => !HoldsOne(f) && !HoldsMany(f)
    case _ => true
  }

  lemma FlagsKeepToTheirFields(argv: seq<string>, i: nat)
    requires i < |argv|
    ensures HeadAt(argv, i).Known? ==> KeepsToItsField(HeadAt(argv, i).flag)
  {
    hide SwitchOf, ValueFlagOf;
  }

  lemma FlagKept(settings: map<Field, Setting>, flag: Flag, alone: bool, f: Field)
    requires KeepsToItsField(flag) && (HoldsOne(f) || HoldsMany(f))
    ensures var now := WithFlag(settings, flag, alone);
      (f in now <==> f in settings) && (f in settings ==> now[f] == settings[f])
  {
  }

  lemma ValueKept(settings: map<Field, Setting>, flag: Flag, value: string, f: Field)
    requires KeepsToItsField(flag) && (HoldsOne(f) || HoldsMany(f))
    ensures var now := WithValue(settings, flag, value);
      if flag == OneValue(f) then HoldsOne(f) && f in now && now[f] == Value(value)
      else if flag == ManyValues(f) then !HoldsOne(f) && now == Appended(settings, f, value)
      else (f in now <==> f in settings) && (f in settings ==> now[f] == settings[f])
  {
    hide SplitTrim, ModeNamed, LevelOf;
  }
}
