/** JSON objects with insertion order: an existing key keeps its place, a new one goes to the end. */
module OrderedMaps {
  import opened Options

  type Entries<V> = seq<(string, V)>

  function Lookup<V>(e: Entries<V>, key: string): Option<V> {
    if e == [] then None else if e[0].0 == key then Some(e[0].1) else Lookup(e[1..], key)
  }

  function Put<V>(e: Entries<V>, key: string, value: V): Entries<V> {
    if e == [] then [(key, value)]
    else if e[0].0 == key then [(key, value)] + e[1..]
    else [e[0]] + Put(e[1..], key, value)
  }

  /** Everything except the entries of `keys`, in order. */
  function Without<V>(e: Entries<V>, keys: set<string>): Entries<V> {
    if e == [] then []
    else if e[0].0 in keys then Without(e[1..], keys)
    else [e[0]] + Without(e[1..], keys)
  }

  predicate DistinctKeys<V>(e: Entries<V>) {
    forall i, j | 0 <= i < j < |e| :: e[i].0 != e[j].0
  }

  lemma {:induction false} PutThenLookup<V>(e: Entries<V>, key: string, value: V, other: string)
    ensures Lookup(Put(e, key, value), other) == if other == key then Some(value) else Lookup(e, other)
    ensures Lookup(e, key).Some? ==> |Put(e, key, value)| == |e|
    ensures Lookup(e, key).None? ==> Put(e, key, value) == e + [(key, value)]
  {
    if e != [] && e[0].0 != key {
      PutThenLookup(e[1..], key, value, other);
    }
  }

  lemma {:induction false} WithoutThenLookup<V>(e: Entries<V>, keys: set<string>, key: string)
    ensures Lookup(Without(e, keys), key) == if key in keys then None else Lookup(e, key)
  {
    if e != [] {
      WithoutThenLookup(e[1..], keys, key);
    }
  }

  lemma {:induction false} PutElsewhere<V>(e: Entries<V>, key: string, value: V, keys: set<string>)
    requires key in keys
    ensures Without(Put(e, key, value), keys) == Without(e, keys)
  {
    if e != [] {
      if e[0].0 != key {
        PutElsewhere(e[1..], key, value, keys);
      }
    }
  }

  lemma {:induction false} WithoutTwice<V>(e: Entries<V>, some: set<string>, keys: set<string>)
    requires some <= keys
    ensures Without(Without(e, some), keys) == Without(e, keys)
  {
    if e != [] {
      WithoutTwice(e[1..], some, keys);
      if e[0].0 !in some {
        assert ([e[0]] + Without(e[1..], some))[1..] == Without(e[1..], some);
      }
    }
  }

  lemma {:induction false} LookupAt<V>(e: Entries<V>, i: nat)
    requires i < |e| && DistinctKeys(e)
    ensures Lookup(e, e[i].0) == Some(e[i].1)
  {
    if i > 0 {
      assert DistinctKeys(e[1..]);
      LookupAt(e[1..], i - 1);
    }
  }

  lemma {:induction false} LookupFinds<V>(e: Entries<V>, key: string)
    ensures Lookup(e, key).Some? <==> exists i | 0 <= i < |e| :: e[i].0 == key
    ensures Lookup(e, key).Some? ==> exists i | 0 <= i < |e| :: e[i] == (key, Lookup(e, key).value)
  {
    if e != [] {
      LookupFinds(e[1..], key);
      if e[0].0 == key {
        assert e[0] == (key, Lookup(e, key).value);
      } else if Lookup(e[1..], key).Some? {
        var i :| 0 <= i < |e[1..]| && e[1..][i] == (key, Lookup(e, key).value);
        assert e[i + 1] == (key, Lookup(e, key).value);
      }
    }
  }

  lemma {:induction false} LookupInAppend<V>(a: Entries<V>, b: Entries<V>, key: string)
    ensures Lookup(a + b, key) == if Lookup(a, key).Some? then Lookup(a, key) else Lookup(b, key)
  {
    if a == [] {
      assert a + b == b;
    } else {
      assert (a + b)[1..] == a[1..] + b;
      LookupInAppend(a[1..], b, key);
    }
  }

  lemma {:induction false} PutStaysDistinct<V>(e: Entries<V>, key: string, value: V)
    requires DistinctKeys(e)
    ensures DistinctKeys(Put(e, key, value))
    ensures forall i | 0 <= i < |Put(e, key, value)| ::
      Put(e, key, value)[i].0 == key || exists j | 0 <= j < |e| :: e[j].0 == Put(e, key, value)[i].0
  {
    if e != [] && e[0].0 != key {
      assert DistinctKeys(e[1..]);
      PutStaysDistinct(e[1..], key, value);
      var p := Put(e[1..], key, value);
      forall i | 0 <= i < |p|
        ensures p[i].0 != e[0].0 && (p[i].0 == key || exists j | 0 <= j < |e| :: e[j].0 == p[i].0)
      {
        if p[i].0 != key {
          var j :| 0 <= j < |e[1..]| && e[1..][j].0 == p[i].0;
          assert e[j + 1].0 == p[i].0;
        }
      }
    }
  }
}
