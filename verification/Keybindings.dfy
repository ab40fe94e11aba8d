/**
 The keybindings file: legacy bare names become the current dotted ones, and the result is put in a fixed order.
 One table lists the current names in that order, each with the legacy name it took over from, if any.
 */
module Keybindings {
  import opened Options
  import opened OrderedMaps

  const ROWS := 73

  // ---------------------------------------------------------------- the table, and that it has no clashes

  function CharAt(s: string, p: int): nat {
    if 0 <= p < |s| then s[p] as nat else 0
  }

  /** Three characters that tell all current names apart. */
  function Fingerprint(s: string): nat {
    CharAt(s, |s| - 4) + 256 * CharAt(s, |s| - 10) + 65536 * CharAt(s, 11)
  }

  /** A binary search for the row whose current name has this fingerprint. */
  function RowWithFingerprint(h: nat): nat {
    if h < 6644844 then
      (if h < 6513484 then
        (if h < 3041651 then
          (if h < 3040558 then
            (if h < 28784 then (if h < 108 then 33 else 32) else (if h < 3039596 then 34 else 41))
          else
            (if h < 3041141 then (if h < 3040623 then 47 else 44)
             else (if h < 3041644 then 45 else (if h < 3041646 then 58 else 57))))
        else
          (if h < 3044212 then
            (if h < 3044195 then (if h < 3043187 then 50 else 59) else (if h < 3044198 then 43 else 49))
          else
            (if h < 3044435 then (if h < 3044432 then 48 else 55)
             else (if h < 6368814 then 56 else (if h < 6513476 then 23 else 1)))))
      else
        (if h < 6518121 then
          (if h < 6517353 then
            (if h < 6514030 then (if h < 6513510 then 2 else 29) else (if h < 6516556 then 30 else 4))
          else
            (if h < 6517364 then (if h < 6517359 then 5 else 0)
             else (if h < 6517605 then 6 else (if h < 6517618 then 7 else 62))))
        else
          (if h < 6580343 then
            (if h < 6579556 then (if h < 6578551 then 3 else 12) else (if h < 6579557 then 26 else 17))
          else
            (if h < 6582135 then (if h < 6582132 then 13 else 16)
             else (if h < 6582903 then 15 else (if h < 6631013 then 14 else 61))))))
    else
      (if h < 7301475 then
        (if h < 6976887 then
          (if h < 6777191 then
            (if h < 6649164 then (if h < 6648434 then 38 else 42) else (if h < 6710852 then 21 else 52))
          else
            (if h < 6777972 then (if h < 6777721 then 40 else 35)
             else (if h < 6893153 then 54 else (if h < 6974839 then 53 else 9))))
        else
          (if h < 7103841 then
            (if h < 7103351 then (if h < 7102799 then 8 else 69) else (if h < 7103823 then 71 else 51))
          else
            (if h < 7104046 then (if h < 7103855 then 66 else 67)
             else (if h < 7105655 then 70 else (if h < 7107151 then 72 else 68)))))
      else
        (if h < 7565171 then
          (if h < 7369796 then
            (if h < 7365991 then (if h < 7351922 then 24 else 31) else (if h < 7369284 then 27 else 11))
          else
            (if h < 7482981 then (if h < 7369831 then 28 else 10)
             else (if h < 7497028 then 64 else (if h < 7499885 then 65 else 46))))
        else
          (if h < 7892848 then
            (if h < 7679604 then (if h < 7629929 then 60 else 63)
             else (if h < 7693429 then 25 else (if h < 7696482 then 20 else 22)))
          else
            (if h < 7955577 then (if h < 7955319 then 39 else 36)
             else (if h < 7957623 then 18 else (if h < 7958379 then 37 else 19))))))
  }

  /** Current names have a dot after three letters. */
  predicate Dotted(s: string) {
    |s| > 3 && s[3] == '.'
  }

  /** Current names are dotted and all different; no legacy name is dotted. */
  predicate WellNamed(binding: (string, Option<string>), row: nat) {
    && Dotted(binding.0) && RowWithFingerprint(Fingerprint(binding.0)) == row
    && (binding.1.Some? ==> !Dotted(binding.1.value))
  }

  function Movement(row: nat): (b: (string, Option<string>))
    requires 0 <= row < 6
    ensures WellNamed(b, row)
  {
    if row == 0 then ("tui.editor.cursorUp", Some("cursorUp"))
    else if row == 1 then ("tui.editor.cursorDown", Some("cursorDown"))
    else if row == 2 then ("tui.editor.cursorLeft", Some("cursorLeft"))
    else if row == 3 then ("tui.editor.cursorRight", Some("cursorRight"))
    else if row == 4 then ("tui.editor.cursorWordLeft", Some("cursorWordLeft"))
    else ("tui.editor.cursorWordRight", Some("cursorWordRight"))
  }

  function Jumps(row: nat): (b: (string, Option<string>))
    requires 6 <= row < 12
    ensures WellNamed(b, row)
  {
    if row == 6 then ("tui.editor.cursorLineStart", Some("cursorLineStart"))
    else if row == 7 then ("tui.editor.cursorLineEnd", Some("cursorLineEnd"))
    else if row == 8 then ("tui.editor.jumpForward", Some("jumpForward"))
    else if row == 9 then ("tui.editor.jumpBackward", Some("jumpBackward"))
    else if row == 10 then ("tui.editor.pageUp", Some("pageUp"))
    else ("tui.editor.pageDown", Some("pageDown"))
  }

  function Editing(row: nat): (b: (string, Option<string>))
    requires 12 <= row < 21
    ensures WellNamed(b, row)
  {
    if row == 12 then ("tui.editor.deleteCharBackward", Some("deleteCharBackward"))
    else if row == 13 then ("tui.editor.deleteCharForward", Some("deleteCharForward"))
    else if row == 14 then ("tui.editor.deleteWordBackward", Some("deleteWordBackward"))
    else if row == 15 then ("tui.editor.deleteWordForward", Some("deleteWordForward"))
    else if row == 16 then ("tui.editor.deleteToLineStart", Some("deleteToLineStart"))
    else if row == 17 then ("tui.editor.deleteToLineEnd", Some("deleteToLineEnd"))
    else if row == 18 then ("tui.editor.yank", Some("yank"))
    else if row == 19 then ("tui.editor.yankPop", Some("yankPop"))
    else ("tui.editor.undo", Some("undo"))
  }

  function Input(row: nat): (b: (string, Option<string>))
    requires 21 <= row < 25
    ensures WellNamed(b, row)
  {
    if row == 21 then ("tui.input.newLine", Some("newLine"))
    else if row == 22 then ("tui.input.submit", Some("submit"))
    else if row == 23 then ("tui.input.tab", Some("tab"))
    else ("tui.input.copy", Some("copy"))
  }

  function Select(row: nat): (b: (string, Option<string>))
    requires 25 <= row < 31
    ensures WellNamed(b, row)
  {
    if row == 25 then ("tui.select.up", Some("selectUp"))
    else if row == 26 then ("tui.select.down", Some("selectDown"))
    else if row == 27 then ("tui.select.pageUp", Some("selectPageUp"))
    else if row == 28 then ("tui.select.pageDown", Some("selectPageDown"))
    else if row == 29 then ("tui.select.confirm", Some("selectConfirm"))
    else ("tui.select.cancel", Some("selectCancel"))
  }

  function Running(row: nat): (b: (string, Option<string>))
    requires 31 <= row < 38
    ensures WellNamed(b, row)
  {
    if row == 31 then ("app.interrupt", Some("interrupt"))
    else if row == 32 then ("app.clear", Some("clear"))
    else if row == 33 then ("app.exit", Some("exit"))
    else if row == 34 then ("app.suspend", Some("suspend"))
    else if row == 35 then ("app.thinking.cycle", Some("cycleThinkingLevel"))
    else if row == 36 then ("app.model.cycleForward", Some("cycleModelForward"))
    else ("app.model.cycleBackward", Some("cycleModelBackward"))
  }

  function Session(row: nat): (b: (string, Option<string>))
    requires 38 <= row < 45
    ensures WellNamed(b, row)
  {
    if row == 38 then ("app.model.select", Some("selectModel"))
    else if row == 39 then ("app.tools.expand", Some("expandTools"))
    else if row == 40 then ("app.thinking.toggle", Some("toggleThinking"))
    else if row == 41 then ("app.session.toggleNamedFilter", Some("toggleSessionNamedFilter"))
    else if row == 42 then ("app.editor.external", Some("externalEditor"))
    else if row == 43 then ("app.message.copy", None)
    else ("app.message.followUp", Some("followUp"))
  }

  function Branching(row: nat): (b: (string, Option<string>))
    requires 45 <= row < 51
    ensures WellNamed(b, row)
  {
    if row == 45 then ("app.message.dequeue", Some("dequeue"))
    else if row == 46 then ("app.clipboard.pasteImage", Some("pasteImage"))
    else if row == 47 then ("app.session.new", Some("newSession"))
    else if row == 48 then ("app.session.tree", Some("tree"))
    else if row == 49 then ("app.session.fork", Some("fork"))
    else ("app.session.resume", Some("resume"))
  }

  function Tree(row: nat): (b: (string, Option<string>))
    requires 51 <= row < 55
    ensures WellNamed(b, row)
  {
    if row == 51 then ("app.tree.foldOrUp", Some("treeFoldOrUp"))
    else if row == 52 then ("app.tree.unfoldOrDown", Some("treeUnfoldOrDown"))
    else if row == 53 then ("app.tree.editLabel", Some("treeEditLabel"))
    else ("app.tree.toggleLabelTimestamp", Some("treeToggleLabelTimestamp"))
  }

  function Sessions(row: nat): (b: (string, Option<string>))
    requires 55 <= row < 60
    ensures WellNamed(b, row)
  {
    if row == 55 then ("app.session.togglePath", Some("toggleSessionPath"))
    else if row == 56 then ("app.session.toggleSort", Some("toggleSessionSort"))
    else if row == 57 then ("app.session.rename", Some("renameSession"))
    else if row == 58 then ("app.session.delete", Some("deleteSession"))
    else ("app.session.deleteNoninvasive", Some("deleteSessionNoninvasive"))
  }

  function Models(row: nat): (b: (string, Option<string>))
    requires 60 <= row < 66
    ensures WellNamed(b, row)
  {
    if row == 60 then ("app.models.save", None)
    else if row == 61 then ("app.models.enableAll", None)
    else if row == 62 then ("app.models.clearAll", None)
    else if row == 63 then ("app.models.toggleProvider", None)
    else if row == 64 then ("app.models.reorderUp", None)
    else ("app.models.reorderDown", None)
  }

  function TreeFilter(row: nat): (b: (string, Option<string>))
    requires 66 <= row < 73
    ensures WellNamed(b, row)
  {
    if row == 66 then ("app.tree.filter.default", None)
    else if row == 67 then ("app.tree.filter.noTools", None)
    else if row == 68 then ("app.tree.filter.userOnly", None)
    else if row == 69 then ("app.tree.filter.labeledOnly", None)
    else if row == 70 then ("app.tree.filter.all", None)
    else if row == 71 then ("app.tree.filter.cycleForward", None)
    else ("app.tree.filter.cycleBackward", None)
  }

  /** The current name in this place of the order, and the legacy name it took over from. */
  function Binding(row: nat): (b: (string, Option<string>))
    requires row < ROWS
    ensures WellNamed(b, row)
  {
    if row < 6 then Movement(row)
    else if row < 12 then Jumps(row)
    else if row < 21 then Editing(row)
    else if row < 25 then Input(row)
    else if row < 31 then Select(row)
    else if row < 38 then Running(row)
    else if row < 45 then Session(row)
    else if row < 51 then Branching(row)
    else if row < 55 then Tree(row)
    else if row < 60 then Sessions(row)
    else if row < 66 then Models(row)
    else TreeFilter(row)
  }

  function CurrentName(row: nat): string
    requires row < ROWS
  {
    Binding(row).0
  }

  // ---------------------------------------------------------------- renaming

  /** `find` in the table of renames, from `row` on. */
  function RowOfLegacy(key: string, row: nat): (found: Option<nat>)
    requires row <= ROWS
    ensures found.Some? ==> row <= found.value < ROWS && Binding(found.value).1 == Some(key)
    ensures found.None? ==> forall r | row <= r < ROWS :: Binding(r).1 != Some(key)
    decreases ROWS - row
  {
    if row == ROWS then None
    else if Binding(row).1 == Some(key) then Some(row)
    else RowOfLegacy(key, row + 1)
  }

  function RowOfCurrent(key: string, row: nat): (found: Option<nat>)
    requires row <= ROWS
    ensures found.Some? ==> row <= found.value < ROWS && CurrentName(found.value) == key
    ensures found.None? ==> forall r | row <= r < ROWS :: CurrentName(r) != key
    decreases ROWS - row
  {
    if row == ROWS then None
    else if CurrentName(row) == key then Some(row)
    else RowOfCurrent(key, row + 1)
  }

  function NextKey(key: string): string {
    match RowOfLegacy(key, 0)
    case None => key
    case Some(row) => CurrentName(row)
  }

  predicate IsLegacy(key: string) {
    RowOfLegacy(key, 0).Some?
  }

  /** The legacy name that is renamed to `key`. */
  function LegacyOf(key: string): Option<string> {
    match RowOfCurrent(key, 0)
    case None => None
    case Some(row) =>
      var legacy := Binding(row).1;
      if legacy.Some? && NextKey(legacy.value) == key then legacy else None
  }

  /** A renamed key really changes, what it becomes is not itself renamed, and no two become the same. */
  lemma NewNamesAreCurrent(key: string, other: string)
    ensures IsLegacy(key) <==> NextKey(key) != key
    ensures !IsLegacy(NextKey(key))
    ensures IsLegacy(key) ==> LegacyOf(NextKey(key)) == Some(key)
    ensures LegacyOf(other) == Some(key) ==> IsLegacy(key) && NextKey(key) == other
  {
    hide Binding, RowOfLegacy, RowOfCurrent, RowWithFingerprint, Fingerprint;
  }

  /** The config after the first `n` entries of `raw`. */
  function Renamed<V>(raw: Entries<V>, n: nat): Entries<V>
    requires n <= |raw|
  {
    if n == 0 then []
    else
      var (key, value) := raw[n - 1];
      var next := NextKey(key);
      if next != key && Lookup(raw, next).Some? then Renamed(raw, n - 1)
      else Put(Renamed(raw, n - 1), next, value)
  }

  /** What each key should be bound to: legacy names to nothing, others to their own value or their legacy value. */
  function Wanted<V>(raw: Entries<V>, key: string): Option<V> {
    if IsLegacy(key) then None
    else if Lookup(raw, key).Some? then Lookup(raw, key)
    else if LegacyOf(key).Some? then Lookup(raw, LegacyOf(key).value)
    else None
  }

  /** The same with only the first `n` entries read, but the whole of `raw` looked at for clashes. */
  function WantedSoFar<V>(raw: Entries<V>, n: nat, key: string): Option<V>
    requires n <= |raw|
  {
    if IsLegacy(key) then None
    else if Lookup(raw, key).Some? then Lookup(raw[..n], key)
    else if LegacyOf(key).Some? then Lookup(raw[..n], LegacyOf(key).value)
    else None
  }

  lemma {:induction false} RenamedLookup<V>(raw: Entries<V>, n: nat, key: string)
    requires n <= |raw| && DistinctKeys(raw)
    ensures Lookup(Renamed(raw, n), key) == WantedSoFar(raw, n, key)
    decreases n
  {
    hide Lookup, NextKey, IsLegacy, LegacyOf, Put;
    if n == 0 {
      assert raw[..0] == [];
      NothingToLookUp<V>(key);
      if LegacyOf(key).Some? {
        NothingToLookUp<V>(LegacyOf(key).value);
      }
    } else {
      var (k, value) := raw[n - 1];
      RenamedLookup(raw, n - 1, key);
      NewNamesAreCurrent(k, key);
      LookupSplit(raw, n, key);
      LookupSplit(raw, n, k);
      LookupAt(raw, n - 1);
      if LegacyOf(key).Some? {
        LookupSplit(raw, n, LegacyOf(key).value);
      }
      PutThenLookup(Renamed(raw, n - 1), NextKey(k), value, key);
    }
  }

  lemma NothingToLookUp<V>(key: string)
    ensures Lookup<V>([], key) == None
  {
  }

  lemma LookupSplit<V>(raw: Entries<V>, n: nat, key: string)
    requires 0 < n <= |raw| && DistinctKeys(raw)
    ensures raw[n - 1].0 == key ==> Lookup(raw[..n - 1], key) == None && Lookup(raw[..n], key) == Some(raw[n - 1].1)
    ensures raw[n - 1].0 != key ==> Lookup(raw[..n], key) == Lookup(raw[..n - 1], key)
    ensures Lookup(raw, key) == None ==> Lookup(raw[..n], key) == None
  {
    assert raw[..n] == raw[..n - 1] + [raw[n - 1]] && raw == raw[..n] + raw[n..];
    LookupInAppend(raw[..n - 1], [raw[n - 1]], key);
    LookupInAppend(raw[..n], raw[n..], key);
    LookupFinds(raw[..n - 1], key);
  }

  // ---------------------------------------------------------------- ordering

  /** `str` order: code point by code point. */
  predicate AtMost(a: string, b: string) {
    a == "" || (b != "" && (a[0] < b[0] || (a[0] == b[0] && AtMost(a[1..], b[1..]))))
  }

  lemma {:induction false} AtMostIsTotal(a: string, b: string)
    ensures AtMost(a, b) || AtMost(b, a)
  {
    if a != "" && b != "" && a[0] == b[0] {
      AtMostIsTotal(a[1..], b[1..]);
    }
  }

  ghost predicate Ascending<V>(e: Entries<V>) {
    forall i | 0 <= i < |e| - 1 :: AtMost(e[i].0, e[i + 1].0)
  }

  function InsertByKey<V>(x: (string, V), e: Entries<V>): Entries<V> {
    if e == [] then [x] else if AtMost(x.0, e[0].0) then [x] + e else [e[0]] + InsertByKey(x, e[1..])
  }

  /** The library sort, by key. */
  function SortedByKey<V>(e: Entries<V>): Entries<V> {
    if e == [] then [] else InsertByKey(e[0], SortedByKey(e[1..]))
  }

  lemma {:induction false} InsertAscends<V>(x: (string, V), e: Entries<V>)
    requires Ascending(e)
    ensures Ascending(InsertByKey(x, e)) && |InsertByKey(x, e)| == |e| + 1
    ensures InsertByKey(x, e)[0] == x || (e != [] && InsertByKey(x, e)[0] == e[0])
  {
    hide AtMost;
    if e != [] {
      AtMostIsTotal(x.0, e[0].0);
      assert Ascending(e[1..]);
      InsertAscends(x, e[1..]);
    }
  }

  lemma {:induction false} SortAscends<V>(e: Entries<V>)
    ensures Ascending(SortedByKey(e))
  {
    if e != [] {
      SortAscends(e[1..]);
      InsertAscends(e[0], SortedByKey(e[1..]));
    }
  }

  lemma {:induction false} InsertLookup<V>(x: (string, V), e: Entries<V>, key: string)
    requires Lookup(e, x.0) == None
    ensures Lookup(InsertByKey(x, e), key) == if key == x.0 then Some(x.1) else Lookup(e, key)
  {
    hide AtMost;
    if e != [] && !AtMost(x.0, e[0].0) {
      InsertLookup(x, e[1..], key);
    }
  }

  lemma {:induction false} SortLookup<V>(e: Entries<V>, key: string)
    requires DistinctKeys(e)
    ensures Lookup(SortedByKey(e), key) == Lookup(e, key)
  {
    if e != [] {
      assert DistinctKeys(e[1..]);
      SortLookup(e[1..], key);
      SortLookup(e[1..], e[0].0);
      LookupFinds(e[1..], e[0].0);
      InsertLookup(e[0], SortedByKey(e[1..]), key);
    }
  }

  /** The entries with one of the first `n` current names, in table order. */
  function Known<V>(config: Entries<V>, n: nat): Entries<V>
    requires n <= ROWS
  {
    if n == 0 then []
    else
      Known(config, n - 1)
      + match Lookup(config, CurrentName(n - 1)) case None => [] case Some(v) => [(CurrentName(n - 1), v)]
  }

  function Unknown<V>(config: Entries<V>): Entries<V> {
    if config == [] then []
    else (if RowOfCurrent(config[0].0, 0).None? then [config[0]] else []) + Unknown(config[1..])
  }

  /** Current names in table order, then everything else by key. */
  function Ordered<V>(config: Entries<V>): Entries<V> {
    Known(config, ROWS) + SortedByKey(Unknown(config))
  }

  lemma {:induction false} KnownLookup<V>(config: Entries<V>, n: nat, key: string)
    requires n <= ROWS
    ensures Lookup(Known(config, n), key) ==
            if RowOfCurrent(key, 0).Some? && RowOfCurrent(key, 0).value < n then Lookup(config, key) else None
  {
    hide Binding, RowOfCurrent, RowWithFingerprint, Fingerprint;
    if n > 0 {
      KnownLookup(config, n - 1, key);
      var one := match Lookup(config, CurrentName(n - 1)) case None => [] case Some(v) => [(CurrentName(n - 1), v)];
      LookupInAppend(Known(config, n - 1), one, key);
      assert one == [] || one[1..] == [];
    }
  }

  lemma {:induction false} UnknownLookup<V>(config: Entries<V>, key: string)
    ensures Lookup(Unknown(config), key) == if RowOfCurrent(key, 0).None? then Lookup(config, key) else None
  {
    hide RowOfCurrent;
    if config != [] {
      UnknownLookup(config[1..], key);
      var one := if RowOfCurrent(config[0].0, 0).None? then [config[0]] else [];
      LookupInAppend(one, Unknown(config[1..]), key);
      assert one == [] || one[1..] == [];
    }
  }

  lemma {:induction false} UnknownIsDistinct<V>(config: Entries<V>)
    requires DistinctKeys(config)
    ensures DistinctKeys(Unknown(config))
  {
    hide RowOfCurrent;
    if config != [] {
      assert DistinctKeys(config[1..]);
      UnknownIsDistinct(config[1..]);
      UnknownLookup(config[1..], config[0].0);
      LookupFinds(config[1..], config[0].0);
      LookupFinds(Unknown(config[1..]), config[0].0);
    }
  }

  /** Ordering loses nothing and changes no value. */
  lemma OrderedLookup<V>(config: Entries<V>, key: string)
    requires DistinctKeys(config)
    ensures Lookup(Ordered(config), key) == Lookup(config, key)
  {
    hide Lookup, Known, Unknown, SortedByKey, RowOfCurrent;
    LookupInAppend(Known(config, ROWS), SortedByKey(Unknown(config)), key);
    KnownLookup(config, ROWS, key);
    UnknownIsDistinct(config);
    SortLookup(Unknown(config), key);
    UnknownLookup(config, key);
  }

  lemma {:induction false} RenamedIsDistinct<V>(raw: Entries<V>, n: nat)
    requires n <= |raw|
    ensures DistinctKeys(Renamed(raw, n))
  {
    hide NextKey;
    if n > 0 {
      RenamedIsDistinct(raw, n - 1);
      PutStaysDistinct(Renamed(raw, n - 1), NextKey(raw[n - 1].0), raw[n - 1].1);
    }
  }

  lemma {:induction false} KnownPush<V>(config: Entries<V>, n: nat)
    requires n < ROWS
    ensures Lookup(Known(config, n), CurrentName(n)) == None
  {
    hide Binding, RowOfCurrent, RowWithFingerprint, Fingerprint;
    KnownLookup(config, n, CurrentName(n));
  }

  lemma UnknownPush<V>(config: Entries<V>, x: (string, V))
    ensures Unknown(config + [x]) == Unknown(config) + if RowOfCurrent(x.0, 0).None? then [x] else []
  {
    hide RowOfCurrent;
    if config == [] {
      assert config + [x] == [x] && [x][1..] == [];
    } else {
      assert (config + [x])[1..] == config[1..] + [x];
      UnknownPush(config[1..], x);
    }
  }

  method OrderKeybindingsConfig<V>(config: Entries<V>) returns (ordered: Entries<V>)
    requires DistinctKeys(config)
    ensures ordered == Ordered(config)
  {
    hide Binding, RowOfCurrent, RowWithFingerprint, Fingerprint, Lookup, Put, SortedByKey, Known, Unknown;
    ordered := [];
    assert Known(config, 0) == [] by { KnownNone(config); }
    for row := 0 to ROWS
      invariant ordered == Known(config, row)
    {
      KnownPush(config, row);
      KnownNext(config, row);
      var value := Lookup(config, CurrentName(row));
      if value.Some? {
        PutThenLookup(ordered, CurrentName(row), value.value, CurrentName(row));
        ordered := Put(ordered, CurrentName(row), value.value);
      }
    }
    var extras: Entries<V> := [];
    assert Unknown(config[..0]) == [] by { UnknownNone(config); }
    for i := 0 to |config|
      invariant extras == Unknown(config[..i])
    {
      assert config[..i + 1] == config[..i] + [config[i]];
      UnknownPush(config[..i], config[i]);
      KnownLookup(config, ROWS, config[i].0);
      LookupAt(config, i);
      if Lookup(ordered, config[i].0).None? {
        extras := extras + [config[i]];
      }
    }
    assert config[..|config|] == config;
    ordered := ordered + SortedByKey(extras);
  }

  lemma KnownNone<V>(config: Entries<V>)
    ensures Known(config, 0) == []
  {
  }

  lemma KnownNext<V>(config: Entries<V>, n: nat)
    requires n < ROWS
    ensures Known(config, n + 1) == Known(config, n)
            + match Lookup(config, CurrentName(n)) case None => [] case Some(v) => [(CurrentName(n), v)]
  {
  }

  lemma UnknownNone<V>(config: Entries<V>)
    ensures Unknown(config[..0]) == []
  {
  }

  /** Legacy entries take their new name unless that name is already bound; the rest is copied. */
  method MigrateKeybindingsConfig<V>(raw: Entries<V>) returns (config: Entries<V>, migrated: bool)
    requires DistinctKeys(raw)
    ensures config == Ordered(Renamed(raw, |raw|))
    ensures migrated <==> exists i | 0 <= i < |raw| :: IsLegacy(raw[i].0)
  {
    hide *;
    config, migrated := [], false;
    RenamedNone(raw);
    for i := 0 to |raw|
      invariant config == Renamed(raw, i)
      invariant migrated <==> exists j | 0 <= j < i :: IsLegacy(raw[j].0)
    {
      var (key, value) := raw[i];
      NewNamesAreCurrent(key, key);
      RenamedNext(raw, i);
      var nextKey := NextKey(key);
      assert raw[i].0 == key;
      if nextKey != key {
        migrated := true;
      }
      if nextKey == key || Lookup(raw, nextKey).None? {
        config := Put(config, nextKey, value);
      }
    }
    RenamedIsDistinct(raw, |raw|);
    config := OrderKeybindingsConfig(config);
  }

  lemma RenamedNone<V>(raw: Entries<V>)
    ensures Renamed(raw, 0) == []
  {
  }

  lemma RenamedNext<V>(raw: Entries<V>, n: nat)
    requires n < |raw|
    ensures var next := NextKey(raw[n].0);
      Renamed(raw, n + 1) ==
      if next != raw[n].0 && Lookup(raw, next).Some? then Renamed(raw, n) else Put(Renamed(raw, n), next, raw[n].1)
  {
    hide NextKey, Put, Lookup;
  }

  /**
   Every current name ends up with its own value if it had one, else with its legacy value; no other key is lost
   or changed; and nothing is left to migrate.
   */
  lemma MigrationMeans<V>(raw: Entries<V>, key: string)
    requires DistinctKeys(raw)
    ensures Lookup(Ordered(Renamed(raw, |raw|)), key) == Wanted(raw, key)
    ensures forall i | 0 <= i < |Ordered(Renamed(raw, |raw|))| :: !IsLegacy(Ordered(Renamed(raw, |raw|))[i].0)
  {
    hide Lookup, Ordered, Renamed, IsLegacy, LegacyOf;
    var renamed := Renamed(raw, |raw|);
    RenamedIsDistinct(raw, |raw|);
    OrderedLookup(renamed, key);
    RenamedLookup(raw, |raw|, key);
    assert raw[..|raw|] == raw;
    forall i | 0 <= i < |Ordered(renamed)| ensures !IsLegacy(Ordered(renamed)[i].0) {
      var k := Ordered(renamed)[i].0;
      LookupFinds(Ordered(renamed), k);
      OrderedLookup(renamed, k);
      RenamedLookup(raw, |raw|, k);
    }
  }

  /** The order of the result: current names by their place in the table, then the others by name. */
  lemma OrderMeans<V>(config: Entries<V>, i: nat, j: nat)
    requires DistinctKeys(config) && i < j < |Ordered(config)|
    ensures var a, b := RowOfCurrent(Ordered(config)[i].0, 0), RowOfCurrent(Ordered(config)[j].0, 0);
      && (b.Some? ==> a.Some? && a.value < b.value)
      && (a.None? && b.None? && j == i + 1 ==> AtMost(Ordered(config)[i].0, Ordered(config)[j].0))
  {
    hide RowOfCurrent, Binding, RowWithFingerprint, Fingerprint, AtMost;
    KnownAscends(config, ROWS);
    var known, unknown := Known(config, ROWS), SortedByKey(Unknown(config));
    SortAscends(Unknown(config));
    UnknownIsDistinct(config);
    if j >= |known| {
      var k := unknown[j - |known|].0;
      LookupFinds(unknown, k);
      SortLookup(Unknown(config), k);
      UnknownLookup(config, k);
    }
  }

  lemma {:induction false} InsertStaysDistinct<V>(x: (string, V), e: Entries<V>)
    requires DistinctKeys(e) && Lookup(e, x.0) == None
    ensures DistinctKeys(InsertByKey(x, e))
  {
    hide AtMost;
    LookupFinds(e, x.0);
    if e != [] && !AtMost(x.0, e[0].0) {
      assert DistinctKeys(e[1..]);
      InsertStaysDistinct(x, e[1..]);
      var rest := InsertByKey(x, e[1..]);
      InsertLookup(x, e[1..], e[0].0);
      LookupFinds(e[1..], e[0].0);
      LookupFinds(rest, e[0].0);
    }
  }

  lemma {:induction false} SortStaysDistinct<V>(e: Entries<V>)
    requires DistinctKeys(e)
    ensures DistinctKeys(SortedByKey(e))
  {
    if e != [] {
      assert DistinctKeys(e[1..]);
      SortStaysDistinct(e[1..]);
      SortLookup(e[1..], e[0].0);
      LookupFinds(e[1..], e[0].0);
      InsertStaysDistinct(e[0], SortedByKey(e[1..]));
    }
  }

  lemma OrderedIsDistinct<V>(config: Entries<V>)
    requires DistinctKeys(config)
    ensures DistinctKeys(Ordered(config))
  {
    hide RowOfCurrent, SortedByKey, Known, Unknown;
    var known, unknown := Known(config, ROWS), SortedByKey(Unknown(config));
    KnownAscends(config, ROWS);
    UnknownIsDistinct(config);
    SortStaysDistinct(Unknown(config));
    forall j | 0 <= j < |unknown| ensures RowOfCurrent(unknown[j].0, 0).None? {
      LookupFinds(unknown, unknown[j].0);
      SortLookup(Unknown(config), unknown[j].0);
      UnknownLookup(config, unknown[j].0);
    }
  }

  lemma {:induction false} KnownAscends<V>(config: Entries<V>, n: nat)
    requires n <= ROWS
    ensures forall i | 0 <= i < |Known(config, n)| ::
      RowOfCurrent(Known(config, n)[i].0, 0).Some? && RowOfCurrent(Known(config, n)[i].0, 0).value < n
    ensures forall i, j | 0 <= i < j < |Known(config, n)| ::
      RowOfCurrent(Known(config, n)[i].0, 0).value < RowOfCurrent(Known(config, n)[j].0, 0).value
  {
    hide Binding, RowOfCurrent, RowWithFingerprint, Fingerprint;
    if n > 0 {
      KnownAscends(config, n - 1);
    }
  }
}
