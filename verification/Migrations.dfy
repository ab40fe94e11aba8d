/**
 The start-up migrations over an abstract file system: the agent directory and the project directory, two separate
 trees. Failing calls are modelled where a file stands in the way of a directory or the other way round; a call
 that could go through does.
 */
module Migrations {
  import opened Chars
  import opened Decimals
  import opened Options
  import opened OrderedMaps
  import Keybindings

  datatype Json =
    | Null
    | Bool(b: bool)
    | Number(text: string)
    | Str(s: string)
    | Arr(items: seq<Json>)
    | Obj(entries: Entries<Json>)

  /** Keys are distinct in every object. */
  ghost predicate WellFormed(j: Json) {
    match j
    case Arr(items) => forall i | 0 <= i < |items| :: WellFormed(items[i])
    case Obj(entries) => DistinctKeys(entries) && forall i | 0 <= i < |entries| :: WellFormed(entries[i].1)
    case _ => true
  }

  /** Reading and writing JSON text. */
  datatype Codec = Codec(parse: string -> Option<Json>, pretty: Json -> string)

  ghost predicate Lawful(c: Codec) {
    && (forall t: string :: c.parse(t).Some? ==> WellFormed(c.parse(t).value))
    && (forall j: Json :: WellFormed(j) ==> c.parse(c.pretty(j)) == Some(j))
    && (forall j: Json :: WellFormed(j) ==> c.parse(c.pretty(j) + "\n") == Some(j))
  }

  datatype Node = File(text: string) | Dir(entries: map<string, Node>)

  /** What a directory entry of one of the two roots is called, as far as the migrations tell names apart. */
  datatype Name =
    | AuthJson | OauthJson | OauthJsonMigrated | SettingsJson | KeybindingsJson
    | Sessions | Tools | Bin | Commands | Prompts | Hooks
    | Jsonl(name: string)    // any name ending in .jsonl
    | Other(name: string)

  type Folder = map<Name, Node>

  predicate Same(d: Folder, e: Folder, n: Name) {
    (n in d <==> n in e) && (n in d && n in e ==> d[n] == e[n])
  }

  function ReadJson(c: Codec, d: Folder, n: Name): Option<Json> {
    if n in d && d[n].File? then c.parse(d[n].text) else None
  }

  // ---------------------------------------------------------------- credentials into auth.json

  function Indexed(items: seq<Json>, from: nat): Entries<Json> {
    if items == [] then [] else [(Decimal(from), items[0])] + Indexed(items[1..], from + 1)
  }

  function CharStrings(s: string): seq<Json> {
    if s == "" then [] else [Str(s[..1])] + CharStrings(s[1..])
  }

  /** `Object.entries`: arrays and strings have their indices as keys. */
  function ObjectEntries(j: Json): Entries<Json> {
    match j
    case Obj(e) => e
    case Arr(items) => Indexed(items, 0)
    case Str(s) => Indexed(CharStrings(s), 0)
    case _ => []
  }

  function PutAll(e: Entries<Json>, more: Entries<Json>): Entries<Json>
    decreases |more|
  {
    if more == [] then e
    else Put(PutAll(e, more[..|more| - 1]), more[|more| - 1].0, more[|more| - 1].1)
  }

  /** `{ type: "oauth", ...cred }` */
  function OauthCredential(cred: Json): Json {
    Obj(PutAll([("type", Str("oauth"))], ObjectEntries(cred)))
  }

  function ApiKeyCredential(key: string): Json {
    Obj([("type", Str("api_key")), ("key", Str(key))])
  }

  function FromOauth(oauth: Entries<Json>, n: nat): Entries<Json>
    requires n <= |oauth|
  {
    if n == 0 then [] else Put(FromOauth(oauth, n - 1), oauth[n - 1].0, OauthCredential(oauth[n - 1].1))
  }

  function WithApiKeys(base: Entries<Json>, keys: Entries<Json>, n: nat): Entries<Json>
    requires n <= |keys|
  {
    if n == 0 then base
    else
      var before := WithApiKeys(base, keys, n - 1);
      if Lookup(before, keys[n - 1].0).Some? || !keys[n - 1].1.Str? then before
      else Put(before, keys[n - 1].0, ApiKeyCredential(keys[n - 1].1.s))
  }

  /** All credentials found, those of oauth.json first. */
  function Collected(oauth: Option<Json>, keys: Option<Json>): Entries<Json> {
    var o := if oauth.Some? then ObjectEntries(oauth.value) else [];
    var k := if keys.Some? then ObjectEntries(keys.value) else [];
    WithApiKeys(FromOauth(o, |o|), k, |k|)
  }

  /** `settings.apiKeys` when it is an object or an array. */
  function ApiKeys(settings: Option<Json>): Option<Json> {
    if settings.Some? && settings.value.Obj? then
      var keys := Lookup(settings.value.entries, "apiKeys");
      if keys.Some? && (keys.value.Obj? || keys.value.Arr?) then keys else None
    else None
  }

  function IndexOf<V>(e: Entries<V>, key: string): (at: nat)
    ensures at <= |e|
    ensures at < |e| ==> e[at].0 == key
    ensures at == |e| ==> forall i | 0 <= i < |e| :: e[i].0 != key
  {
    if e == [] || e[0].0 == key then 0 else 1 + IndexOf(e[1..], key)
  }

  /** `Map::remove`: the last entry moves into the hole. */
  function SwapRemove<V>(e: Entries<V>, key: string): Entries<V> {
    var at := IndexOf(e, key);
    if at == |e| then e
    else if at == |e| - 1 then e[..at]
    else e[..at] + [e[|e| - 1]] + e[at + 1..|e| - 1]
  }

  /** A rename onto a directory fails. */
  function RenameFile(d: Folder, from: Name, to: Name): Folder
    requires from in d
  {
    if to in d && d[to].Dir? then d else (d - {from})[to := d[from]]
  }

  function AuthRead(c: Codec, d: Folder): (Option<Json>, Option<Json>) {
    (ReadJson(c, d, OauthJson), ApiKeys(ReadJson(c, d, SettingsJson)))
  }

  function OauthMoved(c: Codec, d: Folder): Folder {
    if ReadJson(c, d, OauthJson).Some? then RenameFile(d, OauthJson, OauthJsonMigrated) else d
  }

  function SettingsStripped(c: Codec, d: Folder): Folder {
    var settings := ReadJson(c, d, SettingsJson);
    if ApiKeys(settings).Some?
    then d[SettingsJson := File(c.pretty(Obj(SwapRemove(settings.value.entries, "apiKeys"))))] else d
  }

  function AuthMigrated(c: Codec, d: Folder): Folder {
    if AuthJson in d then d
    else
      var (oauth, keys) := AuthRead(c, d);
      var e := SettingsStripped(c, OauthMoved(c, d));
      if Collected(oauth, keys) == [] then e else e[AuthJson := File(c.pretty(Obj(Collected(oauth, keys))))]
  }

  function KeysOf<V>(e: Entries<V>): (keys: seq<string>)
    ensures |keys| == |e| && forall i | 0 <= i < |e| :: keys[i] == e[i].0
  {
    seq(|e|, i requires 0 <= i < |e| => e[i].0)
  }

  function ProvidersOf(c: Codec, d: Folder): seq<string> {
    if AuthJson in d then [] else KeysOf(Collected(AuthRead(c, d).0, AuthRead(c, d).1))
  }

  // ---------------------------------------------------------------- stray sessions

  predicate IsPathMark(c: char) {
    c == '/' || c == '\\' || c == ':'
  }

  /** Separators and drive colons become dashes, and nothing else changes. */
  function Dashed(s: string): (r: string)
    ensures |r| == |s| && forall i | 0 <= i < |r| :: r[i] == if IsPathMark(s[i]) then '-' else s[i]
  {
    if s == "" then "" else [if IsPathMark(s[0]) then '-' else s[0]] + Dashed(s[1..])
  }

  /** One leading separator is dropped; two dashes on either side wrap the rest. */
  function EncodeSessionDirName(cwd: string): (r: string)
    ensures var drop := if cwd != "" && (cwd[0] == '/' || cwd[0] == '\\') then 1 else 0;
      && |r| == |cwd| - drop + 4 && r[..2] == "--" && r[|r| - 2..] == "--"
      && forall i | drop <= i < |cwd| :: r[i - drop + 2] == if IsPathMark(cwd[i]) then '-' else cwd[i]
    ensures forall i | 0 <= i < |r| :: !IsPathMark(r[i])
  {
    var body := Dashed(if cwd != "" && (cwd[0] == '/' || cwd[0] == '\\') then cwd[1..] else cwd);
    "--" + body + "--"
  }

  function FirstLine(text: string): string {
    if text == "" || text[0] == '\n' then "" else [text[0]] + FirstLine(text[1..])
  }

  predicate Blank(s: string) {
    forall i | 0 <= i < |s| :: IsWhitespace(s[i])
  }

  /** The directory a session file belongs in, when its first line is a session header with a cwd. */
  function SessionDir(c: Codec, node: Node): Option<string> {
    if !node.File? then None
    else
      var line := FirstLine(node.text);
      var header := if Blank(line) then None else c.parse(line);
      if header.None? || !header.value.Obj? then None
      else
        var kind, cwd := Lookup(header.value.entries, "type"), Lookup(header.value.entries, "cwd");
        if kind == Some(Str("session")) && cwd.Some? && cwd.value.Str? && cwd.value.s != ""
        then Some(EncodeSessionDirName(cwd.value.s)) else None
  }

  function Inside(node: Option<Node>): map<string, Node> {
    if node.Some? && node.value.Dir? then node.value.entries else map[]
  }

  function At(d: Folder, n: Name): Option<Node> {
    if n in d then Some(d[n]) else None
  }

  function In(e: map<string, Node>, n: string): Option<Node> {
    if n in e then Some(e[n]) else None
  }

  /** No file stands where the session's directory has to be, and no file is there under its name. */
  predicate Moves(c: Codec, d: Folder, name: string) {
    && Jsonl(name) in d && SessionDir(c, d[Jsonl(name)]).Some?
    && (Sessions in d ==> d[Sessions].Dir?)
    && var dir := SessionDir(c, d[Jsonl(name)]).value;
       var all := Inside(At(d, Sessions));
       (dir in all ==> all[dir].Dir?) && name !in Inside(In(all, dir))
  }

  function SessionMoved(c: Codec, d: Folder, name: string): Folder {
    if !Moves(c, d, name) then d
    else
      var node := d[Jsonl(name)];
      var dir := SessionDir(c, node).value;
      var all := Inside(At(d, Sessions));
      (d - {Jsonl(name)})[Sessions := Dir(all[dir := Dir(Inside(In(all, dir))[name := node])])]
  }

  /** The files in the order the directory listing gave them. */
  function SessionsMigrated(c: Codec, d: Folder, order: seq<string>): Folder
    decreases |order|
  {
    if order == [] then d
    else SessionMoved(c, SessionsMigrated(c, d, order[..|order| - 1]), order[|order| - 1])
  }

  ghost predicate IsListing(d: Folder, order: seq<string>) {
    && (forall i, j | 0 <= i < j < |order| :: order[i] != order[j])
    && (forall name: string :: name in order <==> Jsonl(name) in d)
  }

  // ---------------------------------------------------------------- managed binaries

  const MANAGED_BINARIES := ["fd", "rg", "fd.exe", "rg.exe"]

  /** One binary: moved when bin/ has none of that name, otherwise dropped from tools/ unless it is a directory. */
  function BinaryMoved(d: Folder, name: string): (Folder, bool) {
    var tools := Inside(At(d, Tools));
    if name !in tools || (Bin in d && d[Bin].File?) then (d, false)
    else
      var bin := Inside(At(d, Bin));
      if name !in bin then (d[Tools := Dir(tools - {name})][Bin := Dir(bin[name := tools[name]])], true)
      else if tools[name].File? then (d[Tools := Dir(tools - {name})], false)
      else (d, false)
  }

  function BinariesMoved(d: Folder, names: seq<string>): (Folder, bool)
    decreases |names|
  {
    if names == [] then (d, false)
    else
      var before := BinariesMoved(d, names[..|names| - 1]);
      var after := BinaryMoved(before.0, names[|names| - 1]);
      (after.0, before.1 || after.1)
  }

  // ---------------------------------------------------------------- keybindings, prompts, warnings

  function RawKeybindings(c: Codec, d: Folder): Option<Entries<Json>> {
    var raw := ReadJson(c, d, KeybindingsJson);
    if raw.Some? && raw.value.Obj? then Some(raw.value.entries) else None
  }

  predicate HasLegacy(raw: Entries<Json>) {
    exists i | 0 <= i < |raw| :: Keybindings.IsLegacy(raw[i].0)
  }

  function KeybindingsMigrated(c: Codec, d: Folder): Folder {
    match RawKeybindings(c, d)
    case None => d
    case Some(raw) =>
      if HasLegacy(raw)
      then d[KeybindingsJson := File(c.pretty(Obj(Keybindings.Ordered(Keybindings.Renamed(raw, |raw|)))) + "\n")]
      else d
  }

  predicate CommandsMove(d: Folder) {
    Commands in d && Prompts !in d
  }

  function CommandsMoved(d: Folder): Folder {
    if CommandsMove(d) then (d - {Commands})[Prompts := d[Commands]] else d
  }

  function LowerChar(c: char): char {
    if 'A' <= c <= 'Z' then (c as int + 32) as char else c
  }

  function Lower(s: string): string {
    seq(|s|, i requires 0 <= i < |s| => LowerChar(s[i]))
  }

  /** A tool the user put there: not a managed binary in any case, not hidden. */
  predicate IsCustomTool(name: string) {
    Lower(name) !in MANAGED_BINARIES && (name == "" || name[0] != '.')
  }

  function DeprecationWarnings(d: Folder, scope: string): seq<string> {
    (if Hooks in d then [scope + " hooks/ directory found. Hooks have been renamed to extensions."] else [])
    + (if exists name <- Inside(At(d, Tools)) :: IsCustomTool(name)
       then [scope + " tools/ directory contains custom tools. Custom tools have been merged into extensions."] else [])
  }

  // ---------------------------------------------------------------- everything, in order

  datatype Outcome = Outcome(agent: Folder, project: Folder, log: seq<string>, providers: seq<string>,
                             warnings: seq<string>)

  const BINARIES_LINE := "Migrated managed binaries tools/ \U{2192} bin/"

  function PromptsLine(scope: string): string {
    "Migrated " + scope + " commands/ \U{2192} prompts/"
  }

  function AgentMigrated(c: Codec, agent: Folder, order: seq<string>): Folder {
    var moved := BinariesMoved(SessionsMigrated(c, AuthMigrated(c, agent), order), MANAGED_BINARIES).0;
    CommandsMoved(KeybindingsMigrated(c, moved))
  }

  function AllMigrated(c: Codec, agent: Folder, project: Folder, order: seq<string>): Outcome {
    var afterSessions := SessionsMigrated(c, AuthMigrated(c, agent), order);
    var (afterBinaries, moved) := BinariesMoved(afterSessions, MANAGED_BINARIES);
    var afterKeybindings := KeybindingsMigrated(c, afterBinaries);
    Outcome(
      CommandsMoved(afterKeybindings),
      CommandsMoved(project),
      (if moved then [BINARIES_LINE] else [])
      + (if CommandsMove(afterKeybindings) then [PromptsLine("Global")] else [])
      + (if CommandsMove(project) then [PromptsLine("Project")] else []),
      ProvidersOf(c, agent),
      DeprecationWarnings(CommandsMoved(afterKeybindings), "Global")
          + DeprecationWarnings(CommandsMoved(project), "Project"))
  }

  // ---------------------------------------------------------------- the migrations as they run

  lemma {:induction false} IndexedKeys(items: seq<Json>, from: nat)
    ensures |Indexed(items, from)| == |items|
    ensures forall i | 0 <= i < |items| :: Indexed(items, from)[i] == (Decimal(from + i), items[i])
  {
    if items != [] {
      IndexedKeys(items[1..], from + 1);
    }
  }

  lemma EntriesAreDistinct(j: Json)
    requires WellFormed(j)
    ensures DistinctKeys(ObjectEntries(j))
  {
    hide Decimal, Indexed;
    if j.Arr? || j.Str? {
      var items := if j.Arr? then j.items else CharStrings(j.s);
      IndexedKeys(items, 0);
      forall i, k | 0 <= i < k < |items| ensures Indexed(items, 0)[i].0 != Indexed(items, 0)[k].0 {
        ReadDecimal(i);
        ReadDecimal(k);
      }
    }
  }

  lemma {:induction false} FromOauthKeys(oauth: Entries<Json>, n: nat)
    requires n <= |oauth| && DistinctKeys(oauth)
    ensures KeysOf(FromOauth(oauth, n)) == KeysOf(oauth[..n])
    ensures n < |oauth| ==> Lookup(FromOauth(oauth, n), oauth[n].0) == None
  {
    hide OauthCredential;
    if n > 0 {
      FromOauthKeys(oauth, n - 1);
      PutThenLookup(FromOauth(oauth, n - 1), oauth[n - 1].0, OauthCredential(oauth[n - 1].1), oauth[n - 1].0);
      assert oauth[..n] == oauth[..n - 1] + [oauth[n - 1]];
    }
    if n < |oauth| {
      LookupFinds(FromOauth(oauth, n), oauth[n].0);
      forall i | 0 <= i < |FromOauth(oauth, n)| ensures FromOauth(oauth, n)[i].0 != oauth[n].0 {
        assert KeysOf(FromOauth(oauth, n))[i] == KeysOf(oauth[..n])[i];
      }
    }
  }

  /** The names are handed back in the order the credentials are stored. */
  method CollectOauth(entries: Entries<Json>) returns (migrated: Entries<Json>, providers: seq<string>)
    requires DistinctKeys(entries)
    ensures migrated == FromOauth(entries, |entries|) && providers == KeysOf(migrated)
  {
    hide Put, Lookup, OauthCredential;
    migrated, providers := [], [];
    for n := 0 to |entries|
      invariant migrated == FromOauth(entries, n) && providers == KeysOf(migrated)
    {
      FromOauthKeys(entries, n);
      var (provider, cred) := entries[n];
      PutThenLookup(migrated, provider, OauthCredential(cred), provider);
      migrated := Put(migrated, provider, OauthCredential(cred));
      providers := providers + [provider];
    }
  }

  method CollectApiKeys(base: Entries<Json>, keys: Entries<Json>)
    returns (migrated: Entries<Json>, providers: seq<string>)
    ensures migrated == WithApiKeys(base, keys, |keys|) && providers == KeysOf(migrated)
  {
    hide Put, Lookup, ApiKeyCredential;
    migrated, providers := base, KeysOf(base);
    for n := 0 to |keys|
      invariant migrated == WithApiKeys(base, keys, n) && providers == KeysOf(migrated)
    {
      var (provider, key) := keys[n];
      if Lookup(migrated, provider).None? && key.Str? {
        PutThenLookup(migrated, provider, ApiKeyCredential(key.s), provider);
        migrated := Put(migrated, provider, ApiKeyCredential(key.s));
        providers := providers + [provider];
      }
    }
  }

  class Migrator {
    const codec: Codec
    var agent: Folder
    var project: Folder
    var console: seq<string>

    constructor (c: Codec, a: Folder, p: Folder)
      ensures codec == c && agent == a && project == p && console == []
    {
      codec, agent, project, console := c, a, p, [];
    }

    method MigrateAuthToAuthJson() returns (providers: seq<string>)
      requires Lawful(codec)
      modifies this`agent
      ensures agent == AuthMigrated(codec, old(agent))
      ensures providers == ProvidersOf(codec, old(agent))
    {
      hide WellFormed, Put, Lookup, OauthCredential, ApiKeyCredential, SwapRemove, ObjectEntries;
      providers := [];
      if AuthJson in agent {
        return;
      }
      var migrated: Entries<Json> := [];
      var oauth := ReadJson(codec, agent, OauthJson);
      if oauth.Some? {
        EntriesAreDistinct(oauth.value);
        migrated, providers := CollectOauth(ObjectEntries(oauth.value));
        agent := RenameFile(agent, OauthJson, OauthJsonMigrated);
      }
      var settings := ReadJson(codec, agent, SettingsJson);
      var apiKeys := ApiKeys(settings);
      if apiKeys.Some? {
        migrated, providers := CollectApiKeys(migrated, ObjectEntries(apiKeys.value));
        agent := agent[SettingsJson := File(codec.pretty(Obj(SwapRemove(settings.value.entries, "apiKeys"))))];
      }
      if migrated != [] {
        agent := agent[AuthJson := File(codec.pretty(Obj(migrated)))];
      }
    }

    method MigrateSessionsFromAgentRoot(order: seq<string>)
      requires IsListing(agent, order)
      modifies this`agent
      ensures agent == SessionsMigrated(codec, old(agent), order)
    {
      hide SessionMoved, Moves;
      for i := 0 to |order|
        invariant agent == SessionsMigrated(codec, old(agent), order[..i])
      {
        assert order[..i + 1][..i] == order[..i];
        MoveSession(order[i]);
      }
      assert order[..|order|] == order;
    }

    method MoveSession(name: string)
      modifies this`agent
      ensures agent == SessionMoved(codec, old(agent), name)
    {
      hide SessionDir;
      if Jsonl(name) !in agent {
        return;
      }
      var node := agent[Jsonl(name)];
      var dir := SessionDir(codec, node);
      if dir == None {
        return;
      }
      // The directory is made before the rename.
      if Sessions in agent && agent[Sessions].File? {
        return;
      }
      var all := Inside(At(agent, Sessions));
      if dir.value !in all {
        all := all[dir.value := Dir(map[])];
        agent := agent[Sessions := Dir(all)];
      }
      if all[dir.value].File? || name in all[dir.value].entries {
        return;
      }
      var moved := all[dir.value].entries[name := node];
      assert Inside(In(Inside(At(old(agent), Sessions)), dir.value)) == all[dir.value].entries;
      assert Inside(At(old(agent), Sessions))[dir.value := Dir(moved)] == all[dir.value := Dir(moved)];
      agent := (agent - {Jsonl(name)})[Sessions := Dir(all[dir.value := Dir(moved)])];
      assert Moves(codec, old(agent), name);
      assert agent == SessionMoved(codec, old(agent), name);
    }

    method MigrateToolsToBin()
      modifies this`agent, this`console
      ensures agent == BinariesMoved(old(agent), MANAGED_BINARIES).0
      ensures console == old(console) + if BinariesMoved(old(agent), MANAGED_BINARIES).1 then [BINARIES_LINE] else []
    {
      hide BinaryMoved;
      if Tools !in agent {
        NoToolsNothingMoves(agent, MANAGED_BINARIES);
        return;
      }
      var movedAny := false;
      for i := 0 to |MANAGED_BINARIES|
        invariant (agent, movedAny) == BinariesMoved(old(agent), MANAGED_BINARIES[..i])
        invariant console == old(console)
      {
        assert MANAGED_BINARIES[..i + 1][..i] == MANAGED_BINARIES[..i];
        var moved := MoveBinary(MANAGED_BINARIES[i]);
        movedAny := movedAny || moved;
      }
      assert MANAGED_BINARIES[..|MANAGED_BINARIES|] == MANAGED_BINARIES;
      if movedAny {
        console := console + [BINARIES_LINE];
      }
    }

    method MoveBinary(name: string) returns (moved: bool)
      modifies this`agent
      ensures (agent, moved) == BinaryMoved(old(agent), name)
    {
      moved := false;
      var tools := Inside(At(agent, Tools));
      if name !in tools {
        return;
      }
      if Bin !in agent {
        agent := agent[Bin := Dir(map[])];
      }
      if agent[Bin].File? {
        return;
      }
      var bin := agent[Bin].entries;
      if name in bin {
        if tools[name].File? {
          agent := agent[Tools := Dir(tools - {name})];
        }
      } else {
        agent := agent[Tools := Dir(tools - {name})][Bin := Dir(bin[name := tools[name]])];
        moved := true;
        assert agent == BinaryMoved(old(agent), name).0;
      }
    }

    method MigrateKeybindingsConfigFile()
      requires Lawful(codec)
      modifies this`agent
      ensures agent == KeybindingsMigrated(codec, old(agent))
    {
      hide Keybindings.Ordered, Keybindings.Renamed, Keybindings.IsLegacy;
      var raw := RawKeybindings(codec, agent);
      if raw.Some? {
        var config, migrated := Keybindings.MigrateKeybindingsConfig(raw.value);
        if migrated {
          agent := agent[KeybindingsJson := File(codec.pretty(Obj(config)) + "\n")];
        }
      }
    }

    method MigrateCommandsToPrompts(base: Folder, scope: string) returns (moved: Folder)
      modifies this`console
      ensures moved == CommandsMoved(base)
      ensures console == old(console) + if CommandsMove(base) then [PromptsLine(scope)] else []
    {
      moved := base;
      if Commands !in base || Prompts in base {
        return;
      }
      moved := (base - {Commands})[Prompts := base[Commands]];
      console := console + [PromptsLine(scope)];
    }

    /** All five, in their fixed order; `order` is how the agent directory happens to list its session files. */
    method RunMigrations(order: seq<string>) returns (providers: seq<string>, warnings: seq<string>)
      requires Lawful(codec) && IsListing(agent, order)
      modifies this
      ensures var all := AllMigrated(codec, old(agent), old(project), order);
        && agent == all.agent && project == all.project && console == old(console) + all.log
        && providers == all.providers && warnings == all.warnings
    {
      hide AuthMigrated, ProvidersOf, SessionsMigrated, BinariesMoved, KeybindingsMigrated, CommandsMoved, CommandsMove,
        DeprecationWarnings, PromptsLine;
      providers := MigrateAuthToAuthJson();
      SessionsStayListed(codec, old(agent), order);
      MigrateSessionsFromAgentRoot(order);
      MigrateToolsToBin();
      MigrateKeybindingsConfigFile();
      agent := MigrateCommandsToPrompts(agent, "Global");
      project := MigrateCommandsToPrompts(project, "Project");
      warnings := DeprecationWarnings(agent, "Global") + DeprecationWarnings(project, "Project");
    }
  }

  lemma {:induction false} NoToolsNothingMoves(d: Folder, names: seq<string>)
    requires Tools !in d
    ensures BinariesMoved(d, names) == (d, false)
    decreases |names|
  {
    if names != [] {
      NoToolsNothingMoves(d, names[..|names| - 1]);
    }
  }

  lemma SessionsStayListed(c: Codec, d: Folder, order: seq<string>)
    requires IsListing(d, order)
    ensures IsListing(AuthMigrated(c, d), order)
  {
    hide Collected, AuthRead, ReadJson, ApiKeys, SwapRemove;
    forall name: string ensures name in order <==> Jsonl(name) in AuthMigrated(c, d) {
    }
  }
}
