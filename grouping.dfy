/** Group-by over the record history: a JavaScript `Map` or plain object
    filled in a `forEach` loop (`acc[key] = add(acc[key] ?? init, record)`).
    A table keeps its keys in insertion order, which is the order
    `Map.prototype.forEach`, `Array.from(map.entries())` and
    `Object.entries` list them in. */
module Grouping {
  import opened Folds

  datatype Table<K, V> = Table(keys: seq<K>, values: map<K, V>)

  predicate Distinct<K(==)>(ks: seq<K>)
  {
    forall i, j :: 0 <= i < j < |ks| ==> ks[i] != ks[j]
  }

  /** Every key listed once, and exactly the keys that have values. */
  predicate WellFormed<K, V>(t: Table<K, V>)
  {
    Distinct(t.keys) && (forall k :: k in t.values ==> k in t.keys) && (forall k :: k in t.keys ==> k in t.values)
  }

  /** `map.set(k, v)`: a new key goes to the end, an existing one keeps its place. */
  function Put<K, V>(t: Table<K, V>, k: K, v: V): Table<K, V>
  {
    Table(if k in t.values then t.keys else t.keys + [k], t.values[k := v])
  }

  /** `map.get(k) ?? default` */
  function Lookup<K, V>(t: Table<K, V>, k: K, default: V): V
  {
    if k in t.values then t.values[k] else default
  }

  /** The table a `forEach` over rs leaves behind. */
  function Group<R, K, V>(rs: seq<R>, key: R -> K, init: V, add: (V, R) -> V): Table<K, V>
  {
    if rs == [] then Table([], map[])
    else
      var t := Group(rs[..|rs| - 1], key, init, add);
      var r := rs[|rs| - 1];
      Put(t, key(r), add(Lookup(t, key(r), init), r))
  }

  /** The records filed under k. */
  function KeyIs<R, K(==)>(key: R -> K, k: K): R -> bool
  {
    r => key(r) == k
  }

  /** Some record with key a comes before every record with key b. */
  predicate AppearsBefore<R, K(==)>(rs: seq<R>, key: R -> K, a: K, b: K)
  {
    exists p :: 0 <= p < |rs| && key(rs[p]) == a && forall q :: 0 <= q <= p ==> key(rs[q]) != b
  }

  lemma PutWellFormed<K, V>(t: Table<K, V>, k: K, v: V)
    requires WellFormed(t)
    ensures WellFormed(Put(t, k, v))
  {
  }

  /** The table has one key per distinct key among the records, and no other. */
  lemma {:induction false} GroupKeys<R, K, V>(rs: seq<R>, key: R -> K, init: V, add: (V, R) -> V)
    ensures WellFormed(Group(rs, key, init, add))
    ensures forall k :: k in Group(rs, key, init, add).values <==> exists i :: 0 <= i < |rs| && key(rs[i]) == k
  {
    if rs != [] {
      var rest := rs[..|rs| - 1];
      GroupKeys(rest, key, init, add);
      var t := Group(rest, key, init, add);
      var r := rs[|rs| - 1];
      PutWellFormed(t, key(r), add(Lookup(t, key(r), init), r));
      forall k
        ensures k in Group(rs, key, init, add).values <==> exists i :: 0 <= i < |rs| && key(rs[i]) == k
      {
        if k in t.values {
          var i :| 0 <= i < |rest| && key(rest[i]) == k;
          assert key(rs[i]) == k;
        }
        if i :| 0 <= i < |rs| && key(rs[i]) == k {
          if i < |rs| - 1 {
            assert key(rest[i]) == k;
          }
        }
      }
    }
  }

  lemma GroupKeyWitness<R, K, V>(rs: seq<R>, key: R -> K, init: V, add: (V, R) -> V, k: K)
    requires k in Group(rs, key, init, add).values
    ensures exists i :: 0 <= i < |rs| && key(rs[i]) == k
  {
    GroupKeys(rs, key, init, add);
  }

  lemma GroupKeyPresent<R, K, V>(rs: seq<R>, key: R -> K, init: V, add: (V, R) -> V, i: int)
    requires 0 <= i < |rs|
    ensures key(rs[i]) in Group(rs, key, init, add).values
  {
    GroupKeys(rs, key, init, add);
  }

  /** The value under each key is the fold of exactly the records with that
      key, in their original order; a key no record has reads as init. */
  lemma {:induction false} GroupValue<R, K, V>(rs: seq<R>, key: R -> K, init: V, add: (V, R) -> V, k: K)
    ensures Lookup(Group(rs, key, init, add), k, init) == Fold(Where(rs, KeyIs(key, k)), init, add)
  {
    if rs != [] {
      var rest, r := rs[..|rs| - 1], rs[|rs| - 1];
      GroupValue(rest, key, init, add, k);
      var w := Where(rest, KeyIs(key, k));
      var t := Group(rest, key, init, add);
      assert Group(rs, key, init, add) == Put(t, key(r), add(Lookup(t, key(r), init), r));
      if key(r) == k {
        assert KeyIs(key, k)(r);
        assert Where(rs, KeyIs(key, k)) == w + [r];
        assert (w + [r])[..|w|] == w;
        assert Lookup(Group(rs, key, init, add), k, init) == add(Lookup(t, k, init), r);
        assert Fold(w + [r], init, add) == add(Fold(w, init, add), r);
      } else {
        assert !KeyIs(key, k)(r);
        assert Where(rs, KeyIs(key, k)) == w;
      }
    }
  }

  /** Keys are listed in the order their first records appear. */
  predicate FirstSeenOrder<R, K(==)>(ks: seq<K>, rs: seq<R>, key: R -> K)
  {
    forall i, j :: 0 <= i < j < |ks| ==> AppearsBefore(rs, key, ks[i], ks[j])
  }

  lemma {:induction false} GroupKeyOrder<R, K, V>(rs: seq<R>, key: R -> K, init: V, add: (V, R) -> V)
    ensures FirstSeenOrder(Group(rs, key, init, add).keys, rs, key)
  {
    if rs != [] {
      var rest := rs[..|rs| - 1];
      var r := rs[|rs| - 1];
      GroupKeyOrder(rest, key, init, add);
      GroupKeys(rest, key, init, add);
      GroupKeys(rs, key, init, add);
      var t := Group(rest, key, init, add);
      var ks := Group(rs, key, init, add).keys;
      forall i, j | 0 <= i < j < |ks|
        ensures AppearsBefore(rs, key, ks[i], ks[j])
      {
        assert ks[i] == t.keys[i];
        if j < |t.keys| {
          assert ks[j] == t.keys[j];
          assert AppearsBefore(rest, key, t.keys[i], t.keys[j]);
          var p :| 0 <= p < |rest| && key(rest[p]) == ks[i] && forall q :: 0 <= q <= p ==> key(rest[q]) != ks[j];
          assert key(rs[p]) == ks[i];
          assert forall q :: 0 <= q <= p ==> rs[q] == rest[q];
        } else {
          assert ks[j] == key(r) && key(r) !in t.values;
          assert ks[i] in t.keys;
          assert ks[i] in t.values;
          var a := ks[i];
          GroupKeyWitness(rest, key, init, add, a);
          var p :| 0 <= p < |rest| && key(rest[p]) == a;
          assert key(rs[p]) == ks[i];
          forall q | 0 <= q <= p
            ensures key(rs[q]) != ks[j]
          {
            assert rs[q] == rest[q];
            GroupKeyPresent(rest, key, init, add, q);
          }
        }
      }
    }
  }

  /** `Array.from(map.values())`: the values in key order. */
  function Values<K, V>(t: Table<K, V>): (vs: seq<V>)
    requires WellFormed(t)
    ensures |vs| == |t.keys|
    ensures forall i :: 0 <= i < |vs| ==> vs[i] == t.values[t.keys[i]]
  {
    seq(|t.keys|, i requires 0 <= i < |t.keys| => t.values[t.keys[i]])
  }

  /** `Object.entries(obj)` and `Array.from(map.entries())`: the key-value
      pairs in key order. */
  function Entries<K, V>(t: Table<K, V>): (es: seq<(K, V)>)
    requires WellFormed(t)
    ensures |es| == |t.keys|
    ensures forall i :: 0 <= i < |es| ==> es[i] == (t.keys[i], t.values[t.keys[i]])
  {
    seq(|t.keys|, i requires 0 <= i < |t.keys| => (t.keys[i], t.values[t.keys[i]]))
  }

  /** A rearrangement of a table's entries still pairs each key with its
      value. */
  lemma PermutedEntries<K, V>(t: Table<K, V>, s: seq<(K, V)>)
    requires WellFormed(t) && multiset(s) == multiset(Entries(t))
    ensures |s| == |t.keys|
    ensures forall i :: 0 <= i < |s| ==> s[i].0 in t.values && s[i].1 == t.values[s[i].0]
  {
    var es := Entries(t);
    assert |s| == |multiset(s)| == |multiset(es)| == |es|;
    forall i | 0 <= i < |s|
      ensures s[i].0 in t.values && s[i].1 == t.values[s[i].0]
    {
      assert s[i] in multiset(es);
      var k :| 0 <= k < |es| && es[k] == s[i];
      assert t.keys[k] in t.values;
    }
  }

  /** A rearrangement of the values of a table whose values carry their
      own keys holds each key's value. */
  lemma PermutedValues<K, V>(t: Table<K, V>, s: seq<V>, key: V -> K)
    requires WellFormed(t) && multiset(s) == multiset(Values(t))
    requires forall k :: k in t.values ==> key(t.values[k]) == k
    ensures |s| == |t.keys|
    ensures forall i :: 0 <= i < |s| ==> key(s[i]) in t.values && s[i] == t.values[key(s[i])]
  {
    var vs := Values(t);
    assert |s| == |multiset(s)| == |multiset(vs)| == |vs|;
    forall i | 0 <= i < |s|
      ensures key(s[i]) in t.values && s[i] == t.values[key(s[i])]
    {
      assert s[i] in multiset(vs);
      var k :| 0 <= k < |vs| && vs[k] == s[i];
      assert t.keys[k] in t.values;
    }
  }

  /** A sequence without repetitions holds each element at most once. */
  lemma {:induction false} DistinctCount<K>(ks: seq<K>, k: K)
    requires Distinct(ks)
    ensures multiset(ks)[k] <= 1
  {
    if ks != [] {
      var rest := ks[..|ks| - 1];
      assert ks == rest + [ks[|ks| - 1]];
      assert Distinct(rest);
      DistinctCount(rest, k);
      if k == ks[|ks| - 1] {
        assert k !in rest;
      }
    }
  }

  /** A permutation of a sequence without repetitions has none either. */
  lemma PermutationDistinct<K>(xs: seq<K>, ys: seq<K>)
    requires multiset(xs) == multiset(ys) && Distinct(xs)
    ensures Distinct(ys)
  {
    forall i, j | 0 <= i < j < |ys|
      ensures ys[i] != ys[j]
    {
      if ys[i] == ys[j] {
        var k := ys[i];
        assert ys == ys[..j] + ys[j..];
        assert k in ys[..j] && k in ys[j..];
        assert multiset(ys)[k] == multiset(ys[..j])[k] + multiset(ys[j..])[k];
        DistinctCount(xs, k);
        assert false;
      }
    }
  }

  /** A rearrangement of a table's entries names each key once. */
  lemma PermutedKeysDistinct<K, V>(t: Table<K, V>, s: seq<(K, V)>)
    requires WellFormed(t) && multiset(s) == multiset(Entries(t))
    ensures forall i, j :: 0 <= i < j < |s| ==> s[i].0 != s[j].0
  {
    var es := Entries(t);
    assert Distinct(es) by {
      forall i, j | 0 <= i < j < |es|
        ensures es[i] != es[j]
      {
        assert es[i].0 == t.keys[i] && es[j].0 == t.keys[j];
      }
    }
    PermutationDistinct(es, s);
    PermutedEntries(t, s);
  }

  /** The total of f over the records filed under each key. */
  function KeyTotal<R, K(==)>(rs: seq<R>, key: R -> K, f: R -> int): K -> int
  {
    k => Sum(Where(rs, KeyIs(key, k)), f)
  }

  /** v at key x, 0 elsewhere. */
  function Indicator<K(==)>(x: K, v: int): K -> int
  {
    k => if k == x then v else 0
  }

  lemma {:induction false} SumIndicator<K>(ks: seq<K>, x: K, v: int)
    requires Distinct(ks)
    ensures Sum(ks, Indicator(x, v)) == if x in ks then v else 0
  {
    if ks != [] {
      var rest := ks[..|ks| - 1];
      assert Distinct(rest);
      assert ks == rest + [ks[|ks| - 1]];
      SumIndicator(rest, x, v);
    }
  }

  /** Adding record z to the records adds f(z) to the total of key(z) only. */
  lemma KeyTotalStep<R, K>(rs: seq<R>, key: R -> K, f: R -> int)
    requires rs != []
    ensures forall k ::
      KeyTotal(rs, key, f)(k) == KeyTotal(rs[..|rs| - 1], key, f)(k) + Indicator(key(rs[|rs| - 1]), f(rs[|rs| - 1]))(k)
  {
    var rest, z := rs[..|rs| - 1], rs[|rs| - 1];
    forall k
      ensures KeyTotal(rs, key, f)(k) == KeyTotal(rest, key, f)(k) + Indicator(key(z), f(z))(k)
    {
      var w := Where(rest, KeyIs(key, k));
      if key(z) == k {
        assert Where(rs, KeyIs(key, k)) == w + [z];
        assert (w + [z])[..|w|] == w;
      } else {
        assert Where(rs, KeyIs(key, k)) == w;
      }
    }
  }

  /** A key no record has totals 0. */
  lemma KeyTotalAbsent<R, K, V>(rs: seq<R>, key: R -> K, init: V, add: (V, R) -> V, f: R -> int, k: K)
    requires k !in Group(rs, key, init, add).values
    ensures KeyTotal(rs, key, f)(k) == 0
  {
    forall i | 0 <= i < |rs|
      ensures !KeyIs(key, k)(rs[i])
    {
      GroupKeyPresent(rs, key, init, add, i);
    }
    WhereNone(rs, KeyIs(key, k));
  }

  /** Grouping loses and duplicates nothing: the per-key totals add up to
      the total over all records. */
  lemma {:induction false} GroupPartition<R, K, V>(rs: seq<R>, key: R -> K, init: V, add: (V, R) -> V, f: R -> int)
    ensures Sum(Group(rs, key, init, add).keys, KeyTotal(rs, key, f)) == Sum(rs, f)
  {
    if rs != [] {
      var rest, z := rs[..|rs| - 1], rs[|rs| - 1];
      var t := Group(rest, key, init, add);
      var kz := key(z);
      assert Sum(rs, f) == Sum(rest, f) + f(z);
      assert Group(rs, key, init, add) == Put(t, kz, add(Lookup(t, kz, init), z));
      GroupPartition(rest, key, init, add, f);
      KeyTotalStep(rs, key, f);
      GroupDistinct(rest, key, init, add);
      if kz in t.values {
        SumStepPresent(t.keys, KeyTotal(rest, key, f), KeyTotal(rs, key, f), kz, f(z));
      } else {
        KeyTotalAbsent(rest, key, init, add, f, kz);
        SumStepAbsent(t.keys, KeyTotal(rest, key, f), KeyTotal(rs, key, f), kz, f(z));
      }
    }
  }

  lemma SumStepPresent<K>(ks: seq<K>, F: K -> int, G: K -> int, x: K, v: int)
    requires Distinct(ks) && x in ks
    requires forall k :: G(k) == F(k) + Indicator(x, v)(k)
    ensures Sum(ks, G) == Sum(ks, F) + v
  {
    SumLinear(ks, F, Indicator(x, v), G);
    SumIndicator(ks, x, v);
  }

  lemma SumStepAbsent<K>(ks: seq<K>, F: K -> int, G: K -> int, x: K, v: int)
    requires Distinct(ks) && x !in ks && F(x) == 0
    requires forall k :: G(k) == F(k) + Indicator(x, v)(k)
    ensures Sum(ks + [x], G) == Sum(ks, F) + v
  {
    SumLinear(ks, F, Indicator(x, v), G);
    SumIndicator(ks, x, v);
    assert (ks + [x])[..|ks|] == ks;
  }

  lemma GroupDistinct<R, K, V>(rs: seq<R>, key: R -> K, init: V, add: (V, R) -> V)
    ensures WellFormed(Group(rs, key, init, add))
  {
    GroupKeys(rs, key, init, add);
  }

  /** Summing g over the values is summing F over the keys, when g of each
      key's value is F of the key. */
  lemma SumValues<K, V>(t: Table<K, V>, g: V -> int, F: K -> int)
    requires WellFormed(t)
    requires forall k :: k in t.values ==> g(t.values[k]) == F(k)
    ensures Sum(Values(t), g) == Sum(t.keys, F)
  {
    SumValuesPrefix(t, g, F, |t.keys|);
    assert Values(t)[..|t.keys|] == Values(t);
    assert t.keys[..|t.keys|] == t.keys;
  }

  lemma {:induction false} SumValuesPrefix<K, V>(t: Table<K, V>, g: V -> int, F: K -> int, n: nat)
    requires WellFormed(t) && n <= |t.keys|
    requires forall k :: k in t.values ==> g(t.values[k]) == F(k)
    ensures Sum(Values(t)[..n], g) == Sum(t.keys[..n], F)
  {
    if n > 0 {
      SumValuesPrefix(t, g, F, n - 1);
      assert Values(t)[..n][..n - 1] == Values(t)[..n - 1];
      assert t.keys[..n][..n - 1] == t.keys[..n - 1];
      assert t.keys[n - 1] in t.values;
    }
  }

  /** The same for the second components of the entries. */
  lemma SumEntries<K, V>(t: Table<K, V>, g: ((K, V)) -> int, F: K -> int)
    requires WellFormed(t)
    requires forall k :: k in t.values ==> g((k, t.values[k])) == F(k)
    ensures Sum(Entries(t), g) == Sum(t.keys, F)
  {
    SumEntriesPrefix(t, g, F, |t.keys|);
    assert Entries(t)[..|t.keys|] == Entries(t);
    assert t.keys[..|t.keys|] == t.keys;
  }

  lemma {:induction false} SumEntriesPrefix<K, V>(t: Table<K, V>, g: ((K, V)) -> int, F: K -> int, n: nat)
    requires WellFormed(t) && n <= |t.keys|
    requires forall k :: k in t.values ==> g((k, t.values[k])) == F(k)
    ensures Sum(Entries(t)[..n], g) == Sum(t.keys[..n], F)
  {
    if n > 0 {
      SumEntriesPrefix(t, g, F, n - 1);
      assert Entries(t)[..n][..n - 1] == Entries(t)[..n - 1];
      assert t.keys[..n][..n - 1] == t.keys[..n - 1];
      assert t.keys[n - 1] in t.values;
    }
  }
}
