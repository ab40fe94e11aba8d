/** What the migrations are for: nothing is lost, listing order does not matter, and once is enough. */
module MigrationTheorems {
  import opened Options
  import opened OrderedMaps
  import opened Migrations
  import Keybindings

  // ---------------------------------------------------------------- credentials

  lemma {:induction false} FromOauthLookup(oauth: Entries<Json>, n: nat, provider: string)
    requires n <= |oauth| && DistinctKeys(oauth)
    ensures Lookup(FromOauth(oauth, n), provider) ==
            match Lookup(oauth[..n], provider) case None => None case Some(cred) => Some(OauthCredential(cred))
  {
    hide OauthCredential;
    if n > 0 {
      FromOauthLookup(oauth, n - 1, provider);
      PutThenLookup(FromOauth(oauth, n - 1), oauth[n - 1].0, OauthCredential(oauth[n - 1].1), provider);
      Keybindings.LookupSplit(oauth, n, provider);
    }
  }

  lemma {:induction false} WithApiKeysLookup(base: Entries<Json>, keys: Entries<Json>, n: nat, provider: string)
    requires n <= |keys| && DistinctKeys(keys)
    ensures Lookup(WithApiKeys(base, keys, n), provider) ==
            if Lookup(base, provider).Some? then Lookup(base, provider)
            else match Lookup(keys[..n], provider)
                 case None => None
                 case Some(key) => if key.Str? then Some(ApiKeyCredential(key.s)) else None
  {
    hide ApiKeyCredential;
    if n > 0 {
      var (p, key) := keys[n - 1];
      WithApiKeysLookup(base, keys, n - 1, provider);
      WithApiKeysLookup(base, keys, n - 1, p);
      Keybindings.LookupSplit(keys, n, provider);
      Keybindings.LookupSplit(keys, n, p);
      if key.Str? {
        PutThenLookup(WithApiKeys(base, keys, n - 1), p, ApiKeyCredential(key.s), provider);
      }
    }
  }

  /**
   Every provider of oauth.json keeps its credential; an API key of settings.json survives when it is a string and
   oauth.json has no provider of that name.
   */
  lemma CredentialsKept(oauth: Option<Json>, keys: Option<Json>, provider: string)
    requires (oauth.Some? ==> WellFormed(oauth.value)) && (keys.Some? ==> WellFormed(keys.value))
    ensures var o := if oauth.Some? then ObjectEntries(oauth.value) else [];
            var k := if keys.Some? then ObjectEntries(keys.value) else [];
      Lookup(Collected(oauth, keys), provider) ==
        if Lookup(o, provider).Some? then Some(OauthCredential(Lookup(o, provider).value))
        else match Lookup(k, provider)
             case None => None
             case Some(key) => if key.Str? then Some(ApiKeyCredential(key.s)) else None
  {
    hide WellFormed, OauthCredential, ApiKeyCredential, ObjectEntries;
    var o := if oauth.Some? then ObjectEntries(oauth.value) else [];
    var k := if keys.Some? then ObjectEntries(keys.value) else [];
    if oauth.Some? {
      EntriesAreDistinct(oauth.value);
    }
    if keys.Some? {
      EntriesAreDistinct(keys.value);
    }
    FromOauthLookup(o, |o|, provider);
    WithApiKeysLookup(FromOauth(o, |o|), k, |k|, provider);
    assert o[..|o|] == o && k[..|k|] == k;
  }

  /** No credential is left to collect. */
  ghost predicate AuthSettled(c: Codec, d: Folder) {
    || AuthJson in d
    || (&& ApiKeys(ReadJson(c, d, SettingsJson)).None?
        && (ReadJson(c, d, OauthJson).Some? ==>
              ObjectEntries(ReadJson(c, d, OauthJson).value) == [] && OauthJsonMigrated in d
                  && d[OauthJsonMigrated].Dir?))
  }

  lemma SettledAuthStays(c: Codec, d: Folder)
    requires AuthSettled(c, d)
    ensures AuthMigrated(c, d) == d && ProvidersOf(c, d) == []
  {
    hide ApiKeys;
  }

  lemma SwapRemovedLength<V>(e: Entries<V>, key: string)
    ensures |SwapRemove(e, key)| == if IndexOf(e, key) == |e| then |e| else |e| - 1
  {
  }

  lemma SwapRemovedAt<V>(e: Entries<V>, key: string, i: nat)
    requires i < |SwapRemove(e, key)|
    ensures i < |e| && SwapRemove(e, key)[i] ==
            e[if IndexOf(e, key) < |e| - 1 && i == IndexOf(e, key) then |e| - 1 else i]
  {
    hide IndexOf;
  }

  lemma SwapRemoved<V>(e: Entries<V>, key: string)
    requires DistinctKeys(e)
    ensures DistinctKeys(SwapRemove(e, key)) && Lookup(SwapRemove(e, key), key) == None
    ensures forall i | 0 <= i < |SwapRemove(e, key)| :: exists j | 0 <= j < |e| :: SwapRemove(e, key)[i] == e[j]
  {
    var r, at := SwapRemove(e, key), IndexOf(e, key);
    hide SwapRemove, Lookup;
    SwapRemovedLength(e, key);
    forall i | 0 <= i < |r| ensures r[i] == e[if at < |e| - 1 && i == at then |e| - 1 else i] {
      SwapRemovedAt(e, key, i);
    }
    LookupFinds(r, key);
  }

  /** Rewriting settings.json loses `apiKeys` and nothing else. */
  lemma SettingsKept<V>(e: Entries<V>, key: string, other: string)
    requires DistinctKeys(e)
    ensures Lookup(SwapRemove(e, key), other) == if other == key then None else Lookup(e, other)
  {
    SwapRemoved(e, key);
    hide SwapRemove, Lookup;
    var r := SwapRemove(e, key);
    LookupFinds(r, other);
    LookupFinds(e, other);
    if Lookup(r, other).Some? {
      var i :| 0 <= i < |r| && r[i] == (other, Lookup(r, other).value);
      var j :| 0 <= j < |e| && r[i] == e[j];
      LookupAt(e, j);
    } else if Lookup(e, other).Some? && other != key {
      var j :| 0 <= j < |e| && e[j] == (other, Lookup(e, other).value);
      SwapRemoveReaches(e, key, j);
    }
  }

  lemma SwapRemoveReaches<V>(e: Entries<V>, key: string, j: nat)
    requires j < |e| && e[j].0 != key
    ensures exists i | 0 <= i < |SwapRemove(e, key)| :: SwapRemove(e, key)[i] == e[j]
  {
    var at := IndexOf(e, key);
    SwapRemovedLength(e, key);
    var i := if j == |e| - 1 && at < |e| - 1 then at else j;
    SwapRemovedAt(e, key, i);
    assert SwapRemove(e, key)[i] == e[j];
  }

  lemma {:induction false} WithoutNone<V>(e: Entries<V>, key: string)
    requires forall i | 0 <= i < |e| :: e[i].0 != key
    ensures Without(e, {key}) == e
  {
    if e != [] {
      WithoutNone(e[1..], key);
    }
  }

  lemma FirstEntry<V>(e: Entries<V>, key: string)
    requires e != []
    ensures if e[0].0 == key then IndexOf(e, key) == 0 && Without(e, {key}) == Without(e[1..], {key})
            else IndexOf(e, key) == 1 + IndexOf(e[1..], key) && Without(e, {key}) == [e[0]] + Without(e[1..], {key})
  {
  }

  lemma WithoutEntry<V>(e: Entries<V>, at: nat)
    requires at + 1 < |e|
    ensures [e[0]] + (e[1..][..at] + e[1..][at + 1..]) == e[..at + 1] + e[at + 2..]
  {
  }

  lemma {:induction false} WithoutOne<V>(e: Entries<V>, key: string)
    requires DistinctKeys(e)
    ensures var at := IndexOf(e, key); Without(e, {key}) == if at == |e| then e else e[..at] + e[at + 1..]
  {
    hide Without, IndexOf;
    if e == [] {
      WithoutNone(e, key);
    } else {
      FirstEntry(e, key);
      assert DistinctKeys(e[1..]);
      if e[0].0 == key {
        WithoutNone(e[1..], key);
        assert e[..0] + e[1..] == e[1..];
      } else {
        WithoutOne(e[1..], key);
        var at := IndexOf(e[1..], key);
        if at < |e| - 1 {
          WithoutEntry(e, at);
        }
      }
    }
  }

  /** The other settings keep their order exactly when `apiKeys` was absent, last or last but one. */
  lemma SettingsKeepTheirOrder<V>(e: Entries<V>, key: string)
    requires DistinctKeys(e)
    ensures SwapRemove(e, key) == Without(e, {key}) <==> IndexOf(e, key) + 2 >= |e|
  {
    WithoutOne(e, key);
    var at := IndexOf(e, key);
    if at + 2 < |e| {
      assert SwapRemove(e, key)[at] == e[|e| - 1] && Without(e, {key})[at] == e[at + 1];
    } else if at + 2 == |e| {
      assert SwapRemove(e, key) == e[..at] + [e[|e| - 1]] && e[at + 1..] == [e[|e| - 1]];
    } else if at + 1 == |e| {
      assert e[at + 1..] == [];
    }
  }

  lemma StrippedSettings(c: Codec, entries: Entries<Json>)
    requires Lawful(c) && WellFormed(Obj(entries))
    ensures ApiKeys(c.parse(c.pretty(Obj(SwapRemove(entries, "apiKeys"))))) == None
  {
    hide SwapRemove;
    SwapRemoved(entries, "apiKeys");
    var rest := SwapRemove(entries, "apiKeys");
    forall i | 0 <= i < |rest| ensures WellFormed(rest[i].1) {
      var j :| 0 <= j < |entries| && rest[i] == entries[j];
    }
    assert WellFormed(Obj(rest));
  }

  lemma {:induction false} WithApiKeysGrows(base: Entries<Json>, keys: Entries<Json>, n: nat)
    requires n <= |keys|
    ensures |WithApiKeys(base, keys, n)| >= |base|
  {
    hide ApiKeyCredential;
    if n > 0 {
      WithApiKeysGrows(base, keys, n - 1);
      if keys[n - 1].1.Str? {
        PutThenLookup(WithApiKeys(base, keys, n - 1), keys[n - 1].0, ApiKeyCredential(keys[n - 1].1.s), "");
      }
    }
  }

  lemma NothingCollected(oauth: Json, keys: Option<Json>)
    requires Collected(Some(oauth), keys) == []
    ensures ObjectEntries(oauth) == []
  {
    hide OauthCredential, ApiKeyCredential, ObjectEntries;
    var o := ObjectEntries(oauth);
    var k := if keys.Some? then ObjectEntries(keys.value) else [];
    WithApiKeysGrows(FromOauth(o, |o|), k, |k|);
  }

  lemma AuthSettles(c: Codec, d: Folder)
    requires Lawful(c)
    ensures AuthSettled(c, AuthMigrated(c, d))
  {
    hide SwapRemove, Collected, ApiKeys, ObjectEntries, WellFormed;
    if AuthJson !in d {
      var oauth, settings := ReadJson(c, d, OauthJson), ReadJson(c, d, SettingsJson);
      if ApiKeys(settings).Some? {
        assert settings.Some? && settings.value.Obj? by { ApiKeysAreOfAnObject(settings); }
        assert WellFormed(c.parse(d[SettingsJson].text).value);
        StrippedSettings(c, settings.value.entries);
      }
      if oauth.Some? && Collected(oauth, ApiKeys(settings)) == [] {
        NothingCollected(oauth.value, ApiKeys(settings));
      }
    }
  }

  lemma ApiKeysAreOfAnObject(settings: Option<Json>)
    requires ApiKeys(settings).Some?
    ensures settings.Some? && settings.value.Obj?
  {
  }

  // ---------------------------------------------------------------- sessions

  lemma MovingTwice(c: Codec, d: Folder, name: string)
    ensures SessionMoved(c, SessionMoved(c, d, name), name) == SessionMoved(c, d, name)
  {
    hide SessionDir;
  }

  /** Moving one file does not decide whether another moves. */
  lemma MovesIndependently(c: Codec, d: Folder, f: string, g: string)
    requires f != g
    ensures Moves(c, SessionMoved(c, d, f), g) <==> Moves(c, d, g)
  {
    hide SessionDir;
  }

  lemma MovesCommute(c: Codec, d: Folder, f: string, g: string)
    ensures SessionMoved(c, SessionMoved(c, d, f), g) == SessionMoved(c, SessionMoved(c, d, g), f)
  {
    hide SessionDir;
    if f != g {
      MovesIndependently(c, d, f, g);
      MovesIndependently(c, d, g, f);
      var one, two := SessionMoved(c, SessionMoved(c, d, f), g), SessionMoved(c, SessionMoved(c, d, g), f);
      if Moves(c, d, f) && Moves(c, d, g) {
        BothMoved(c, d, f, g);
        BothMoved(c, d, g, f);
        var a, b := SessionDir(c, d[Jsonl(f)]).value, SessionDir(c, d[Jsonl(g)]).value;
        var x, y, all := d[Jsonl(f)], d[Jsonl(g)], Inside(At(d, Sessions));
        if a == b {
          assert Inside(In(all, a))[f := x][g := y] == Inside(In(all, a))[g := y][f := x];
        } else {
          assert all[a := Dir(Inside(In(all, a))[f := x])][b := Dir(Inside(In(all, b))[g := y])]
              == all[b := Dir(Inside(In(all, b))[g := y])][a := Dir(Inside(In(all, a))[f := x])];
        }
        assert {Jsonl(f), Jsonl(g)} == {Jsonl(g), Jsonl(f)};
        assert one[Sessions] == two[Sessions];
      }
    }
  }

  /** Two moves, spelled out: each file is added to its own directory. */
  lemma BothMoved(c: Codec, d: Folder, f: string, g: string)
    requires f != g && Moves(c, d, f) && Moves(c, d, g)
    ensures var two := SessionMoved(c, SessionMoved(c, d, f), g);
      var a, b := SessionDir(c, d[Jsonl(f)]).value, SessionDir(c, d[Jsonl(g)]).value;
      var all := Inside(At(d, Sessions));
      && two == (d - {Jsonl(f), Jsonl(g)})[Sessions := two[Sessions]]
      && two[Sessions].Dir?
      && two[Sessions].entries ==
         (if a == b then all[a := Dir(Inside(In(all, a))[f := d[Jsonl(f)]][g := d[Jsonl(g)]])]
          else all[a := Dir(Inside(In(all, a))[f := d[Jsonl(f)]])][b := Dir(Inside(In(all, b))[g := d[Jsonl(g)]])])
  {
    hide SessionDir;
    MovesIndependently(c, d, f, g);
  }

  lemma {:induction false} MoveLast(c: Codec, d: Folder, order: seq<string>, f: string)
    ensures SessionMoved(c, SessionsMigrated(c, d, order), f) == SessionsMigrated(c, SessionMoved(c, d, f), order)
    decreases |order|
  {
    hide SessionMoved;
    if order != [] {
      var before, g := order[..|order| - 1], order[|order| - 1];
      MoveLast(c, d, before, f);
      MovesCommute(c, SessionsMigrated(c, d, before), g, f);
    }
  }

  lemma {:induction false} Concatenated(c: Codec, d: Folder, a: seq<string>, b: seq<string>)
    ensures SessionsMigrated(c, d, a + b) == SessionsMigrated(c, SessionsMigrated(c, d, a), b)
    decreases |b|
  {
    hide SessionMoved;
    if b == [] {
      assert a + b == a;
    } else {
      assert (a + b)[..|a + b| - 1] == a + b[..|b| - 1];
      Concatenated(c, d, a, b[..|b| - 1]);
    }
  }

  lemma RemovedFromBoth(before: seq<string>, f: string, left: seq<string>, right: seq<string>)
    requires multiset(before + [f]) == multiset(left + ([f] + right))
    ensures multiset(before) == multiset(left + right)
  {
    assert multiset(before) == multiset(before + [f]) - multiset{f};
    assert multiset(left + right) == multiset(left + ([f] + right)) - multiset{f};
  }

  /** The order in which the directory lists the files makes no difference. */
  lemma {:induction false} ListingOrderDoesNotMatter(c: Codec, d: Folder, a: seq<string>, b: seq<string>)
    requires multiset(a) == multiset(b)
    ensures SessionsMigrated(c, d, a) == SessionsMigrated(c, d, b)
    decreases |a|
  {
    hide SessionMoved, SessionsMigrated;
    assert |multiset(a)| == |a| && |multiset(b)| == |b|;
    if a == [] {
      assert b == [];
    } else {
      var before, f := a[..|a| - 1], a[|a| - 1];
      assert f in multiset(a) && f in b;
      var k :| 0 <= k < |b| && b[k] == f;
      var left, right := b[..k], b[k + 1..];
      assert a == before + [f] && b == left + ([f] + right);
      RemovedFromBoth(before, f, left, right);
      ListingOrderDoesNotMatter(c, d, before, left + right);
      MovedAnywhere(c, d, before, f, left, right);
    }
  }

  /** A file moved last, or between any others, comes to the same. */
  lemma MovedAnywhere(c: Codec, d: Folder, before: seq<string>, f: string, left: seq<string>, right: seq<string>)
    requires SessionsMigrated(c, d, before) == SessionsMigrated(c, d, left + right)
    ensures SessionsMigrated(c, d, before + [f]) == SessionsMigrated(c, d, left + ([f] + right))
  {
    hide SessionMoved, SessionsMigrated;
    var now := SessionsMigrated(c, d, left);
    Concatenated(c, d, before, [f]);
    OneMoved(c, SessionsMigrated(c, d, before), f);
    Concatenated(c, d, left, right);
    MoveLast(c, now, right, f);
    Concatenated(c, d, left, [f] + right);
    Concatenated(c, now, [f], right);
    OneMoved(c, now, f);
  }

  lemma OneMoved(c: Codec, d: Folder, f: string)
    ensures SessionsMigrated(c, d, [f]) == SessionMoved(c, d, f)
  {
    assert [f][..0] == [];
  }

  lemma {:induction false} MovedAlready(c: Codec, d: Folder, order: seq<string>, f: string)
    requires f in order
    ensures SessionMoved(c, SessionsMigrated(c, d, order), f) == SessionsMigrated(c, d, order)
    decreases |order|
  {
    hide SessionMoved;
    var before, g := order[..|order| - 1], order[|order| - 1];
    var now := SessionsMigrated(c, d, before);
    if f == g {
      MovingTwice(c, now, f);
    } else {
      assert f in before;
      MovedAlready(c, d, before, f);
      MovesCommute(c, now, g, f);
    }
  }

  lemma {:induction false} NothingMoves(c: Codec, d: Folder, order: seq<string>)
    requires forall f <- order :: SessionMoved(c, d, f) == d
    ensures SessionsMigrated(c, d, order) == d
    decreases |order|
  {
    hide SessionMoved;
    if order != [] {
      NothingMoves(c, d, order[..|order| - 1]);
    }
  }

  lemma {:induction false} SessionsTouch(c: Codec, d: Folder, order: seq<string>, n: Name)
    ensures n != Sessions && !n.Jsonl? ==> Same(d, SessionsMigrated(c, d, order), n)
    ensures n.Jsonl? && n in SessionsMigrated(c, d, order) ==> n in d
    decreases |order|
  {
    hide Moves, SessionDir;
    if order != [] {
      SessionsTouch(c, d, order[..|order| - 1], n);
    }
  }

  /** A session file stays where it is or lands, unchanged, in one of the session directories. */
  ghost predicate Kept(d: Folder, e: Folder) {
    && (forall n <- d :: n.Jsonl? ==>
          (n in e && e[n] == d[n])
          || exists dir :: n.name in Inside(In(Inside(At(e, Sessions)), dir))
                           && Inside(In(Inside(At(e, Sessions)), dir))[n.name] == d[n])
    && (forall dir, name :: name in Inside(In(Inside(At(d, Sessions)), dir)) ==>
          name in Inside(In(Inside(At(e, Sessions)), dir))
          && Inside(In(Inside(At(e, Sessions)), dir))[name] == Inside(In(Inside(At(d, Sessions)), dir))[name])
  }

  lemma OneKept(c: Codec, d: Folder, f: string)
    ensures Kept(d, SessionMoved(c, d, f))
  {
    hide SessionDir;
    var e := SessionMoved(c, d, f);
    if Moves(c, d, f) {
      var dir := SessionDir(c, d[Jsonl(f)]).value;
      assert f in Inside(In(Inside(At(e, Sessions)), dir));
    }
  }

  /** No session file is lost or overwritten. */
  lemma {:induction false} NoSessionIsLost(c: Codec, d: Folder, order: seq<string>)
    ensures Kept(d, SessionsMigrated(c, d, order))
    decreases |order|
  {
    hide SessionMoved;
    if order != [] {
      var before, f := order[..|order| - 1], order[|order| - 1];
      NoSessionIsLost(c, d, before);
      OneKept(c, SessionsMigrated(c, d, before), f);
    }
  }

  // ---------------------------------------------------------------- binaries

  predicate BinarySettled(d: Folder, name: string) {
    var tools := Inside(At(d, Tools));
    || name !in tools
    || (Bin in d && d[Bin].File?)
    || (name in Inside(At(d, Bin)) && tools[name].Dir?)
  }

  lemma BinarySettles(d: Folder, name: string)
    ensures BinarySettled(BinaryMoved(d, name).0, name)
    ensures BinarySettled(d, name) <==> BinaryMoved(d, name) == (d, false)
  {
    if name in Inside(At(d, Tools)) && !BinarySettled(d, name) {
      assert name !in Inside(At(BinaryMoved(d, name).0, Tools));
    }
  }

  lemma BinaryStaysSettled(d: Folder, name: string, other: string)
    requires BinarySettled(d, name)
    ensures BinarySettled(BinaryMoved(d, other).0, name)
  {
  }

  lemma {:induction false} BinariesSettle(d: Folder, names: seq<string>)
    ensures forall name <- names :: BinarySettled(BinariesMoved(d, names).0, name)
    decreases |names|
  {
    hide BinarySettled, BinaryMoved;
    if names != [] {
      var before, last := names[..|names| - 1], names[|names| - 1];
      BinariesSettle(d, before);
      var now := BinariesMoved(d, before).0;
      BinarySettles(now, last);
      forall name <- names ensures BinarySettled(BinariesMoved(d, names).0, name) {
        if name in before {
          BinaryStaysSettled(now, name, last);
        }
      }
    }
  }

  lemma {:induction false} SettledBinariesStay(d: Folder, names: seq<string>)
    requires forall name <- names :: BinarySettled(d, name)
    ensures BinariesMoved(d, names) == (d, false)
    decreases |names|
  {
    hide BinarySettled, BinaryMoved;
    if names != [] {
      SettledBinariesStay(d, names[..|names| - 1]);
      BinarySettles(d, names[|names| - 1]);
    }
  }

  /**
   From one state of tools/ and bin/ to a later one: bin/ overwrites nothing and gains only what tools/ had, tools/
   gains nothing, and no name disappears from both.
   */
  ghost predicate BinariesKept(d: Folder, e: Folder) {
    var tools, bin := Inside(At(d, Tools)), Inside(At(d, Bin));
    var tools', bin' := Inside(At(e, Tools)), Inside(At(e, Bin));
    && (forall n <- bin :: n in bin' && bin'[n] == bin[n])
    && (forall n <- bin' :: n !in bin ==> n in tools && bin'[n] == tools[n])
    && (forall n <- tools' :: n in tools && tools'[n] == tools[n])
    && (forall n <- tools :: n in tools' || n in bin')
  }

  lemma OneBinaryKept(d: Folder, name: string)
    ensures BinariesKept(d, BinaryMoved(d, name).0)
    ensures BinaryMoved(d, name).1 <==> Inside(At(BinaryMoved(d, name).0, Bin)) != Inside(At(d, Bin))
  {
    var e := BinaryMoved(d, name).0;
    if BinaryMoved(d, name).1 {
      assert name in Inside(At(e, Bin)) && name !in Inside(At(d, Bin));
    }
  }

  lemma KeptTwice(a: Folder, b: Folder, c: Folder)
    requires BinariesKept(a, b) && BinariesKept(b, c)
    ensures BinariesKept(a, c)
    ensures Inside(At(a, Bin)) == Inside(At(c, Bin)) ==> Inside(At(b, Bin)) == Inside(At(a, Bin))
  {
    if Inside(At(a, Bin)) == Inside(At(c, Bin)) {
      assert forall n <- Inside(At(b, Bin)) :: n in Inside(At(c, Bin));
      assert Inside(At(b, Bin)) == Inside(At(a, Bin));
    }
  }

  /** No binary is overwritten or lost, and the line is logged exactly when bin/ gained one. */
  lemma {:induction false} NoBinaryIsLost(d: Folder, names: seq<string>)
    ensures BinariesKept(d, BinariesMoved(d, names).0)
    ensures BinariesMoved(d, names).1 <==> Inside(At(BinariesMoved(d, names).0, Bin)) != Inside(At(d, Bin))
    decreases |names|
  {
    hide BinaryMoved, BinariesKept;
    if names == [] {
      assert BinariesKept(d, d) by { KeptAtRest(d); }
    } else {
      var now, last := BinariesMoved(d, names[..|names| - 1]).0, names[|names| - 1];
      NoBinaryIsLost(d, names[..|names| - 1]);
      OneBinaryKept(now, last);
      KeptTwice(d, now, BinaryMoved(now, last).0);
    }
  }

  lemma KeptAtRest(d: Folder)
    ensures BinariesKept(d, d)
  {
  }

  lemma {:induction false} BinariesTouch(d: Folder, names: seq<string>, n: Name)
    requires n != Tools && n != Bin
    ensures Same(d, BinariesMoved(d, names).0, n)
    decreases |names|
  {
    if names != [] {
      BinariesTouch(d, names[..|names| - 1], n);
    }
  }

  // ---------------------------------------------------------------- keybindings

  /** The values of `e` are values of `raw`. */
  ghost predicate From(e: Entries<Json>, raw: Entries<Json>) {
    forall i | 0 <= i < |e| :: exists j | 0 <= j < |raw| :: e[i].1 == raw[j].1
  }

  lemma {:induction false} PutFrom(e: Entries<Json>, raw: Entries<Json>, key: string, j: nat)
    requires From(e, raw) && j < |raw|
    ensures From(Put(e, key, raw[j].1), raw)
  {
    if e != [] && e[0].0 != key {
      assert From(e[1..], raw);
      PutFrom(e[1..], raw, key, j);
      assert From([e[0]], raw);
    }
  }

  lemma {:induction false} RenamedFrom(raw: Entries<Json>, n: nat)
    requires n <= |raw|
    ensures From(Keybindings.Renamed(raw, n), raw)
  {
    hide Keybindings.NextKey;
    if n > 0 {
      RenamedFrom(raw, n - 1);
      PutFrom(Keybindings.Renamed(raw, n - 1), raw, Keybindings.NextKey(raw[n - 1].0), n - 1);
    }
  }

  lemma OrderedIsWellFormed(raw: Entries<Json>)
    requires WellFormed(Obj(raw))
    ensures WellFormed(Obj(Keybindings.Ordered(Keybindings.Renamed(raw, |raw|))))
  {
    hide Keybindings.Ordered, Keybindings.Renamed;
    var renamed := Keybindings.Renamed(raw, |raw|);
    Keybindings.RenamedIsDistinct(raw, |raw|);
    Keybindings.OrderedIsDistinct(renamed);
    RenamedFrom(raw, |raw|);
    var e := Keybindings.Ordered(renamed);
    forall i | 0 <= i < |e| ensures WellFormed(e[i].1) {
      LookupAt(e, i);
      Keybindings.OrderedLookup(renamed, e[i].0);
      LookupFinds(renamed, e[i].0);
      var k :| 0 <= k < |renamed| && renamed[k] == (e[i].0, e[i].1);
      var j :| 0 <= j < |raw| && renamed[k].1 == raw[j].1;
    }
  }

  lemma KeybindingsSettle(c: Codec, d: Folder)
    requires Lawful(c)
    ensures KeybindingsMigrated(c, KeybindingsMigrated(c, d)) == KeybindingsMigrated(c, d)
  {
    hide Keybindings.Ordered, Keybindings.Renamed, Keybindings.IsLegacy, WellFormed;
    var raw := RawKeybindings(c, d);
    if raw.Some? && HasLegacy(raw.value) {
      assert WellFormed(c.parse(d[KeybindingsJson].text).value);
      OrderedIsWellFormed(raw.value);
      assert DistinctKeys(raw.value) by { ObjectsAreDistinct(raw.value); }
      Keybindings.MigrationMeans(raw.value, "");
      var e := Keybindings.Ordered(Keybindings.Renamed(raw.value, |raw.value|));
      assert RawKeybindings(c, KeybindingsMigrated(c, d)) == Some(e);
      assert !HasLegacy(e);
    }
  }

  lemma ObjectsAreDistinct(e: Entries<Json>)
    requires WellFormed(Obj(e))
    ensures DistinctKeys(e)
  {
  }

  lemma KeybindingsTouch(c: Codec, d: Folder, n: Name)
    requires n != KeybindingsJson
    ensures Same(d, KeybindingsMigrated(c, d), n)
  {
    hide Keybindings.Ordered, Keybindings.Renamed, HasLegacy;
  }

  lemma CommandsSettle(d: Folder)
    ensures !CommandsMove(CommandsMoved(d)) && CommandsMoved(CommandsMoved(d)) == CommandsMoved(d)
    ensures forall n | n != Commands && n != Prompts :: Same(d, CommandsMoved(d), n)
    ensures CommandsMove(d) ==> At(CommandsMoved(d), Prompts) == At(d, Commands) && Commands !in CommandsMoved(d)
  {
  }

  // ---------------------------------------------------------------- once is enough

  /** What every step up to the last has already settled in the state the first run leaves. */
  lemma FirstRunSettles(c: Codec, agent: Folder, order: seq<string>, again: seq<string>)
    requires Lawful(c) && IsListing(agent, order)
    requires IsListing(AgentMigrated(c, agent, order), again)
    ensures var e := AgentMigrated(c, agent, order);
      && AuthMigrated(c, e) == e && ProvidersOf(c, e) == []
      && SessionsMigrated(c, e, again) == e
      && BinariesMoved(e, MANAGED_BINARIES) == (e, false)
      && KeybindingsMigrated(c, e) == e
      && !CommandsMove(e)
  {
    hide AuthMigrated, ProvidersOf, SessionsMigrated, BinariesMoved, KeybindingsMigrated, CommandsMoved, CommandsMove,
      SessionMoved, BinarySettled, AuthSettled;
    var d1 := AuthMigrated(c, agent);
    var d2 := SessionsMigrated(c, d1, order);
    var d3 := BinariesMoved(d2, MANAGED_BINARIES).0;
    var d4 := KeybindingsMigrated(c, d3);
    var e := CommandsMoved(d4);
    forall n ensures n != Sessions && !n.Jsonl? ==> Same(d1, d2, n) {
      SessionsTouch(c, d1, order, n);
    }
    forall n | n != Tools && n != Bin ensures Same(d2, d3, n) {
      BinariesTouch(d2, MANAGED_BINARIES, n);
    }
    forall n | n != KeybindingsJson ensures Same(d3, d4, n) {
      KeybindingsTouch(c, d3, n);
    }
    CommandsSettle(d4);
    forall n | n !in {Tools, Bin, KeybindingsJson, Commands, Prompts} ensures Same(d2, e, n) {
      SameAlong(d2, d3, d4, e, n);
    }
    forall n | n !in {Tools, Bin, KeybindingsJson, Commands, Prompts, Sessions} && !n.Jsonl? ensures Same(d1, e, n) {
      SameAlong(d1, d2, e, e, n);
    }
    SameAlong(d3, d4, e, e, Tools);
    SameAlong(d3, d4, e, e, Bin);
    SessionsStayListed(c, agent, order);
    AuthStaysSettled(c, agent, d1, e);
    SessionsStaySettled(c, d1, order, e, again);
    BinariesSettle(d2, MANAGED_BINARIES);
    BinariesStaySettled(d3, e, MANAGED_BINARIES);
    KeybindingsSettle(c, d3);
    KeybindingsStaySettled(c, d4, e);
  }

  lemma SameAlong(a: Folder, b: Folder, c: Folder, d: Folder, n: Name)
    requires Same(a, b, n) && Same(b, c, n) && Same(c, d, n)
    ensures Same(a, d, n)
  {
  }

  lemma AuthStaysSettled(c: Codec, agent: Folder, d: Folder, e: Folder)
    requires Lawful(c) && d == AuthMigrated(c, agent)
    requires Same(d, e, AuthJson) && Same(d, e, OauthJson) && Same(d, e, OauthJsonMigrated) && Same(d, e, SettingsJson)
    ensures AuthMigrated(c, e) == e && ProvidersOf(c, e) == []
  {
    hide AuthMigrated, ProvidersOf, ApiKeys;
    AuthSettles(c, agent);
    SettledAuthStays(c, e);
  }

  lemma SessionsStaySettled(c: Codec, d: Folder, order: seq<string>, e: Folder, again: seq<string>)
    requires forall name: string :: Jsonl(name) in d ==> name in order
    requires var now := SessionsMigrated(c, d, order); forall n | n == Sessions || n.Jsonl? :: Same(now, e, n)
    requires IsListing(e, again)
    ensures SessionsMigrated(c, e, again) == e
  {
    hide SessionDir;
    var now := SessionsMigrated(c, d, order);
    forall f <- again ensures SessionMoved(c, e, f) == e {
      assert Same(now, e, Jsonl(f)) && Same(now, e, Sessions);
      SessionsTouch(c, d, order, Jsonl(f));
      MovedAlready(c, d, order, f);
      assert Moves(c, now, f) ==> Jsonl(f) !in SessionMoved(c, now, f);
      assert Moves(c, e, f) <==> Moves(c, now, f);
    }
    NothingMoves(c, e, again);
  }

  lemma BinariesStaySettled(d: Folder, e: Folder, names: seq<string>)
    requires forall name <- names :: BinarySettled(d, name)
    requires Same(d, e, Tools) && Same(d, e, Bin)
    ensures BinariesMoved(e, names) == (e, false)
  {
    SettledBinariesStay(e, names);
  }

  lemma KeybindingsStaySettled(c: Codec, d: Folder, e: Folder)
    requires KeybindingsMigrated(c, d) == d && Same(d, e, KeybindingsJson)
    ensures KeybindingsMigrated(c, e) == e
  {
    hide Keybindings.Ordered, Keybindings.Renamed, HasLegacy;
  }

  /**
   A second run changes nothing, logs nothing and reports no provider, however the two listings were ordered; it
   repeats the warnings of the first.
   */
  lemma SecondRunDoesNothing(c: Codec, agent: Folder, project: Folder, order: seq<string>, again: seq<string>)
    requires Lawful(c) && IsListing(agent, order)
    requires IsListing(AllMigrated(c, agent, project, order).agent, again)
    ensures var first := AllMigrated(c, agent, project, order);
      AllMigrated(c, first.agent, first.project, again) == first.(log := [], providers := [])
  {
    hide AuthMigrated, ProvidersOf, SessionsMigrated, BinariesMoved, KeybindingsMigrated, CommandsMoved, CommandsMove,
      DeprecationWarnings, IsListing, PromptsLine;
    assert AllMigrated(c, agent, project, order).agent == AgentMigrated(c, agent, order);
    FirstRunSettles(c, agent, order, again);
    var e := AgentMigrated(c, agent, order);
    assert CommandsMoved(e) == e by { UnmovedCommands(e); }
    CommandsSettle(project);
  }

  lemma UnmovedCommands(d: Folder)
    requires !CommandsMove(d)
    ensures CommandsMoved(d) == d
  {
  }
}
