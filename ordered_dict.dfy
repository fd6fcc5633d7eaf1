/**
 Insertion-ordered dictionaries, as Python's `dict` and `collections.OrderedDict`
 behave: a sequence of key/value entries in insertion order. Writing an existing
 key replaces its value and keeps its position; writing a new key appends it.
 */
module OrderedDict {
  import opened Options

  /** The keys of `m`, in order. */
  function Keys<K, V>(m: seq<(K, V)>): (ks: seq<K>)
    ensures |ks| == |m|
    ensures forall i :: 0 <= i < |m| ==> ks[i] == m[i].0
  {
    seq(|m|, i requires 0 <= i < |m| => m[i].0)
  }

  ghost predicate Distinct<K>(s: seq<K>) {
    forall i, j :: 0 <= i < j < |s| ==> s[i] != s[j]
  }

  /** What every Python dictionary satisfies: no key occurs twice. */
  ghost predicate UniqueKeys<K, V>(m: seq<(K, V)>) {
    Distinct(Keys(m))
  }

  /** `m.get(k)`: the value of the first entry with key `k`. */
  function Get<K(==), V>(m: seq<(K, V)>, k: K): (r: Option<V>)
    ensures r.None? <==> k !in Keys(m)
    ensures r.Some? ==> (k, r.value) in m
  {
    if m == [] then None
    else if m[0].0 == k then Some(m[0].1)
    else Get(m[1..], k)
  }

  /** In a dictionary, an entry determines the value stored under its key. */
  lemma UniqueKeyValue<K, V>(m: seq<(K, V)>, k: K, v1: V, v2: V)
    requires UniqueKeys(m) && (k, v1) in m && (k, v2) in m
    ensures v1 == v2
  {
    var i :| 0 <= i < |m| && m[i] == (k, v1);
    var j :| 0 <= j < |m| && m[j] == (k, v2);
    assert Keys(m)[i] == Keys(m)[j];
  }

  lemma GetEntry<K, V>(m: seq<(K, V)>, k: K, v: V)
    requires UniqueKeys(m) && (k, v) in m
    ensures Get(m, k) == Some(v)
  {
    var i :| 0 <= i < |m| && m[i] == (k, v);
    assert Keys(m)[i] == k;
    UniqueKeyValue(m, k, Get(m, k).value, v);
  }

  /** `m[k] = v` on an insertion-ordered dictionary. */
  function Insert<K(==), V>(m: seq<(K, V)>, k: K, v: V): (r: seq<(K, V)>)
    ensures Keys(r) == if k in Keys(m) then Keys(m) else Keys(m) + [k]
    ensures (k, v) in r
    ensures forall e :: e in r ==> e in m || e == (k, v)
  {
    if m == [] then [(k, v)]
    else if m[0].0 == k then
      var r := [(k, v)] + m[1..];
      assert Keys(r) == Keys(m);
      r
    else
      var tail := Insert(m[1..], k, v);
      var r := [m[0]] + tail;
      assert Keys(m) == [m[0].0] + Keys(m[1..]);
      assert Keys(r) == [m[0].0] + Keys(tail);
      r
  }

  /** Inserting keeps the keys distinct; the written key now maps to the new
      value and every other key keeps its value. */
  lemma InsertProperties<K, V>(m: seq<(K, V)>, k: K, v: V)
    requires UniqueKeys(m)
    ensures UniqueKeys(Insert(m, k, v))
    ensures Get(Insert(m, k, v), k) == Some(v)
    ensures forall k' :: k' != k ==> Get(Insert(m, k, v), k') == Get(m, k')
  {
    var r := Insert(m, k, v);
    assert UniqueKeys(r) by {
      if k !in Keys(m) {
        forall i, j | 0 <= i < j < |Keys(r)| ensures Keys(r)[i] != Keys(r)[j] {
          if j == |m| {
            assert Keys(r)[i] == Keys(m)[i];
          } else {
            assert Keys(r)[i] == Keys(m)[i] && Keys(r)[j] == Keys(m)[j];
          }
        }
      }
    }
    GetEntry(r, k, v);
    forall k' | k' != k ensures Get(r, k') == Get(m, k') {
      if Get(r, k').Some? {
        var e := (k', Get(r, k').value);
        assert e in m;
        GetEntry(m, k', e.1);
      }
    }
  }

  /** `OrderedDict(pairs)`: the pairs inserted one after another, left to right. */
  function FromPairs<K(==), V>(ps: seq<(K, V)>): (r: seq<(K, V)>)
    ensures |r| == 0 <==> |ps| == 0
    ensures forall e :: e in r ==> e in ps
  {
    if ps == [] then []
    else
      var n := |ps| - 1;
      var prefix := FromPairs(ps[..n]);
      assert forall e :: e in prefix ==> e in ps by {
        forall e | e in prefix ensures e in ps {
          assert e in ps[..n];
        }
      }
      assert |Keys(Insert(prefix, ps[n].0, ps[n].1))| > 0;
      Insert(prefix, ps[n].0, ps[n].1)
  }

  /** Reference definition of the order of the result: each key at its first
      occurrence in `ks`. */
  function FirstOccurrences<K(==)>(ks: seq<K>): (r: seq<K>)
  {
    if ks == [] then []
    else
      var n := |ks| - 1;
      FirstOccurrences(ks[..n]) + (if ks[n] in ks[..n] then [] else [ks[n]])
  }

  /** Keeping first occurrences drops no element. */
  lemma {:induction false} FirstOccurrencesMembers<K>(ks: seq<K>, x: K)
    ensures x in FirstOccurrences(ks) <==> x in ks
  {
    if ks != [] {
      var n := |ks| - 1;
      assert ks == ks[..n] + [ks[n]];
      FirstOccurrencesMembers(ks[..n], x);
    }
  }

  /** Reference definition of the value of the result: that of the last pair
      carrying the key. */
  function LastValue<K(==), V>(ps: seq<(K, V)>, k: K): (r: Option<V>)
    ensures r.None? <==> k !in Keys(ps)
    ensures r.Some? ==> (k, r.value) in ps
  {
    if ps == [] then None
    else
      var n := |ps| - 1;
      assert Keys(ps) == Keys(ps[..n]) + [ps[n].0];
      if ps[n].0 == k then Some(ps[n].1) else LastValue(ps[..n], k)
  }

  /** The elements of `s` that do not occur in `excluded`, in order. */
  function Without<K(==)>(s: seq<K>, excluded: seq<K>): (r: seq<K>)
  {
    if s == [] then []
    else
      var n := |s| - 1;
      Without(s[..n], excluded) + (if s[n] in excluded then [] else [s[n]])
  }

  lemma {:induction false} WithoutMembers<K>(s: seq<K>, excluded: seq<K>, x: K)
    ensures x in Without(s, excluded) <==> x in s && x !in excluded
  {
    if s != [] {
      var n := |s| - 1;
      assert s == s[..n] + [s[n]];
      WithoutMembers(s[..n], excluded, x);
    }
  }

  /** The result of `OrderedDict(pairs)` is a dictionary. */
  lemma {:induction false} FromPairsUnique<K, V>(ps: seq<(K, V)>)
    ensures UniqueKeys(FromPairs(ps))
  {
    if ps != [] {
      var n := |ps| - 1;
      FromPairsUnique(ps[..n]);
      InsertProperties(FromPairs(ps[..n]), ps[n].0, ps[n].1);
    }
  }

  /** The keys of `OrderedDict(pairs)` are the keys of `pairs` at their first
      occurrence, in order. */
  lemma {:induction false} FromPairsKeys<K, V>(ps: seq<(K, V)>)
    ensures Keys(FromPairs(ps)) == FirstOccurrences(Keys(ps))
  {
    if ps != [] {
      var n := |ps| - 1;
      FromPairsKeys(ps[..n]);
      assert Keys(ps[..n]) == Keys(ps)[..n];
      FirstOccurrencesMembers(Keys(ps[..n]), ps[n].0);
    }
  }

  /** Each key of `OrderedDict(pairs)` maps to the value of the last pair
      carrying it: the last write wins. */
  lemma {:induction false} FromPairsGet<K, V>(ps: seq<(K, V)>, k: K)
    ensures Get(FromPairs(ps), k) == LastValue(ps, k)
  {
    if ps != [] {
      var n := |ps| - 1;
      FromPairsGet(ps[..n], k);
      FromPairsUnique(ps[..n]);
      InsertProperties(FromPairs(ps[..n]), ps[n].0, ps[n].1);
    }
  }

  /** On a dictionary the last and the first pair with a key are the same. */
  lemma LastValueOfDictionary<K, V>(m: seq<(K, V)>, k: K)
    requires UniqueKeys(m)
    ensures LastValue(m, k) == Get(m, k)
  {
    if LastValue(m, k).Some? {
      GetEntry(m, k, LastValue(m, k).value);
    }
  }

  lemma {:induction false} LastValueAppend<K, V>(a: seq<(K, V)>, b: seq<(K, V)>, k: K)
    ensures LastValue(a + b, k) == if LastValue(b, k).Some? then LastValue(b, k) else LastValue(a, k)
  {
    if b != [] {
      var n := |b| - 1;
      assert (a + b)[..|a + b| - 1] == a + b[..n];
      LastValueAppend(a, b[..n], k);
    } else {
      assert a + b == a;
    }
  }

  lemma {:induction false} FirstOccurrencesOfDistinct<K>(s: seq<K>)
    requires Distinct(s)
    ensures FirstOccurrences(s) == s
  {
    if s != [] {
      var n := |s| - 1;
      FirstOccurrencesOfDistinct(s[..n]);
      assert s == s[..n] + [s[n]];
    }
  }

  lemma FirstOccurrencesSnoc<K>(s: seq<K>, x: K)
    ensures FirstOccurrences(s + [x]) == FirstOccurrences(s) + (if x in s then [] else [x])
  {
    assert (s + [x])[..|s|] == s;
  }

  lemma WithoutSnoc<K>(s: seq<K>, x: K, excluded: seq<K>)
    ensures Without(s + [x], excluded) == Without(s, excluded) + (if x in excluded then [] else [x])
  {
    assert (s + [x])[..|s|] == s;
  }

  lemma DistinctSnoc<K>(s: seq<K>, x: K)
    requires Distinct(s + [x])
    ensures Distinct(s) && x !in s
  {
    forall i | 0 <= i < |s| ensures s[i] != x {
      assert (s + [x])[i] == s[i] && (s + [x])[|s|] == x;
    }
    forall i, j | 0 <= i < j < |s| ensures s[i] != s[j] {
      assert (s + [x])[i] == s[i] && (s + [x])[j] == s[j];
    }
  }

  /** First occurrences of a concatenation of two duplicate-free sequences: the
      first one, then the elements of the second that are not in the first. */
  lemma {:induction false} FirstOccurrencesAppend<K>(a: seq<K>, b: seq<K>)
    requires Distinct(a) && Distinct(b)
    ensures FirstOccurrences(a + b) == a + Without(b, a)
  {
    if b == [] {
      assert a + b == a;
      FirstOccurrencesOfDistinct(a);
    } else {
      var n := |b| - 1;
      var b', x := b[..n], b[n];
      assert b == b' + [x];
      DistinctSnoc(b', x);
      FirstOccurrencesAppend(a, b');
      FirstOccurrencesSnoc(a + b', x);
      WithoutSnoc(b', x, a);
      calc {
        FirstOccurrences(a + b);
        { assert a + b == (a + b') + [x]; }
        FirstOccurrences((a + b') + [x]);
        FirstOccurrences(a + b') + (if x in a + b' then [] else [x]);
        a + Without(b', a) + (if x in a then [] else [x]);
        a + Without(b, a);
      }
    }
  }

  /** The dictionary with every value transformed by `f`. */
  function MapValues<K, V, W>(m: seq<(K, V)>, f: V -> W): (r: seq<(K, W)>)
    ensures Keys(r) == Keys(m)
  {
    var r := seq(|m|, i requires 0 <= i < |m| => (m[i].0, f(m[i].1)));
    assert Keys(r) == Keys(m);
    r
  }

  lemma {:induction false} GetMapValues<K, V, W>(m: seq<(K, V)>, f: V -> W, k: K)
    ensures Get(MapValues(m, f), k) == if Get(m, k).Some? then Some(f(Get(m, k).value)) else None
  {
    if m != [] {
      assert MapValues(m, f) == [(m[0].0, f(m[0].1))] + MapValues(m[1..], f);
      GetMapValues(m[1..], f, k);
    }
  }
}
