/** A JavaScript `Map`: key/value pairs in insertion order. `set` on a present
    key replaces the value where it stands, on an absent key appends; `delete`
    removes the pair; iteration (`for…of`) visits pairs in list order. */
module OrderedMaps {
  import opened Common

  predicate DistinctKeys<K(==), V>(s: seq<(K, V)>) {
    forall i, j :: 0 <= i < j < |s| ==> s[i].0 != s[j].0
  }

  function KeySet<K, V>(s: seq<(K, V)>): set<K> {
    set i | 0 <= i < |s| :: s[i].0
  }

  function KeyList<K, V>(s: seq<(K, V)>): (ks: seq<K>)
    ensures |ks| == |s| && forall i :: 0 <= i < |s| ==> ks[i] == s[i].0
  {
    if s == [] then [] else [s[0].0] + KeyList(s[1..])
  }

  /** Map.prototype.get: the value stored under `k`, if any. */
  function Lookup<K(==), V>(s: seq<(K, V)>, k: K): (r: Option<V>)
    ensures r.Some? <==> k in KeySet(s)
  {
    if s == [] then None
    else if s[0].0 == k then Some(s[0].1)
    else
      KeySetCons(s);
      Lookup(s[1..], k)
  }

  /** The position of a present key (its first occurrence). */
  function IndexOfKey<K(==), V>(s: seq<(K, V)>, k: K): (i: nat)
    requires k in KeySet(s)
    ensures i < |s| && s[i].0 == k && Lookup(s, k) == Some(s[i].1)
  {
    if s[0].0 == k then 0
    else
      KeySetCons(s);
      IndexOfKey(s[1..], k) + 1
  }

  lemma KeySetCons<K, V>(s: seq<(K, V)>)
    requires s != []
    ensures KeySet(s) == {s[0].0} + KeySet(s[1..])
  {
    forall k | k in KeySet(s) ensures k in {s[0].0} + KeySet(s[1..]) {
      var i :| 0 <= i < |s| && s[i].0 == k;
      if i > 0 { assert s[1..][i - 1].0 == k; }
    }
    forall k | k in KeySet(s[1..]) ensures k in KeySet(s) {
      var i :| 0 <= i < |s[1..]| && s[1..][i].0 == k;
      assert s[i + 1].0 == k;
    }
  }

  lemma KeySetSnoc<K, V>(s: seq<(K, V)>, k: K, v: V)
    ensures KeySet(s + [(k, v)]) == KeySet(s) + {k}
  {
    var r := s + [(k, v)];
    forall x | x in KeySet(r) ensures x in KeySet(s) + {k} {
      var i :| 0 <= i < |r| && r[i].0 == x;
      if i < |s| { assert s[i].0 == x; }
    }
    forall x | x in KeySet(s) ensures x in KeySet(r) {
      var i :| 0 <= i < |s| && s[i].0 == x;
      assert r[i].0 == x;
    }
    assert r[|s|].0 == k;
  }

  /** With distinct keys, the lookup of the key at position i is the value at position i. */
  lemma {:induction false} LookupAt<K, V>(s: seq<(K, V)>, i: nat)
    requires DistinctKeys(s) && i < |s|
    ensures Lookup(s, s[i].0) == Some(s[i].1)
  {
    if i > 0 {
      LookupAt(s[1..], i - 1);
    }
  }

  /** Map.prototype.set. */
  function Put<K(==), V>(s: seq<(K, V)>, k: K, v: V): (r: seq<(K, V)>)
    ensures k in KeySet(s) ==> |r| == |s|
    ensures k !in KeySet(s) ==> r == s + [(k, v)]
    ensures KeySet(r) == KeySet(s) + {k}
  {
    if s == [] then
      assert KeySet([(k, v)]) == {k} by { KeySetCons([(k, v)]); }
      [(k, v)]
    else
      KeySetCons(s);
      if s[0].0 == k then
        var r := [(k, v)] + s[1..];
        KeySetCons(r);
        assert r[1..] == s[1..];
        r
      else
        var r := [s[0]] + Put(s[1..], k, v);
        KeySetCons(r);
        assert r[1..] == Put(s[1..], k, v);
        r
  }

  /** With distinct keys, setting the key found at position i rewrites position i only. */
  lemma {:induction false} PutAt<K, V>(s: seq<(K, V)>, i: nat, v: V)
    requires DistinctKeys(s) && i < |s|
    ensures Put(s, s[i].0, v) == s[i := (s[i].0, v)]
  {
    if i > 0 {
      PutAt(s[1..], i - 1, v);
      assert s[1..][i - 1 := (s[i].0, v)] == s[i := (s[i].0, v)][1..];
    }
  }

  lemma {:induction false} PutDistinct<K, V>(s: seq<(K, V)>, k: K, v: V)
    requires DistinctKeys(s)
    ensures DistinctKeys(Put(s, k, v))
  {
    if k in KeySet(s) {
      var i :| 0 <= i < |s| && s[i].0 == k;
      PutAt(s, i, v);
    } else {
      var r := s + [(k, v)];
      forall a, b | 0 <= a < b < |r| ensures r[a].0 != r[b].0 {
        if b == |s| { assert r[a].0 in KeySet(s); }
      }
    }
  }

  /** After `set(k, v)`, `get(k)` is v and every other key reads as before. */
  lemma PutLookup<K, V>(s: seq<(K, V)>, k: K, v: V, j: K)
    requires DistinctKeys(s)
    ensures Lookup(Put(s, k, v), j) == if j == k then Some(v) else Lookup(s, j)
  {
    if k in KeySet(s) {
      PutLookupPresent(s, k, v, j);
    } else {
      PutLookupAbsent(s, k, v, j);
    }
  }

  lemma PutLookupPresent<K, V>(s: seq<(K, V)>, k: K, v: V, j: K)
    requires DistinctKeys(s) && k in KeySet(s)
    ensures Lookup(Put(s, k, v), j) == if j == k then Some(v) else Lookup(s, j)
  {
    var i := IndexOfKey(s, k);
    PutAt(s, i, v);
    var r := s[i := (k, v)];
    PutDistinct(s, k, v);
    if j == k {
      assert r[i] == (k, v);
      LookupAt(r, i);
    } else if j in KeySet(s) {
      var m := IndexOfKey(s, j);
      assert r[m] == s[m];
      LookupAt(s, m);
      LookupAt(r, m);
    }
  }

  lemma PutLookupAbsent<K, V>(s: seq<(K, V)>, k: K, v: V, j: K)
    requires DistinctKeys(s) && k !in KeySet(s)
    ensures Lookup(Put(s, k, v), j) == if j == k then Some(v) else Lookup(s, j)
  {
    PutDistinct(s, k, v);
    var r := Put(s, k, v);
    LookupAt(r, |s|);
    if j != k && j in KeySet(s) {
      var m :| 0 <= m < |s| && s[m].0 == j;
      LookupAt(s, m);
      LookupAt(r, m);
    }
  }

  /** Map.prototype.delete. */
  function Remove<K(==), V>(s: seq<(K, V)>, k: K): (r: seq<(K, V)>)
    ensures KeySet(r) == KeySet(s) - {k}
    ensures |r| <= |s|
    ensures k !in KeySet(s) ==> r == s
  {
    if s == [] then []
    else
      KeySetCons(s);
      if s[0].0 == k then Remove(s[1..], k)
      else
        var r := [s[0]] + Remove(s[1..], k);
        KeySetCons(r);
        assert r[1..] == Remove(s[1..], k);
        r
  }

  lemma {:induction false} RemoveKeeps<K, V>(s: seq<(K, V)>, k: K, j: K)
    requires j != k
    ensures Lookup(Remove(s, k), j) == Lookup(s, j)
  {
    if s != [] {
      RemoveKeeps(s[1..], k, j);
      if s[0].0 != k {
        assert (([s[0]] + Remove(s[1..], k))[1..]) == Remove(s[1..], k);
      }
    }
  }

  lemma {:induction false} RemoveDistinct<K, V>(s: seq<(K, V)>, k: K)
    requires DistinctKeys(s)
    ensures DistinctKeys(Remove(s, k))
  {
    if s != [] {
      RemoveDistinct(s[1..], k);
      if s[0].0 != k {
        var r := [s[0]] + Remove(s[1..], k);
        forall a, b | 0 <= a < b < |r| ensures r[a].0 != r[b].0 {
          if a == 0 {
            assert r[b].0 in KeySet(Remove(s[1..], k)) by { assert r[b] == Remove(s[1..], k)[b - 1]; }
            KeySetCons(s);
            assert r[b].0 in KeySet(s[1..]);
            var m :| 0 <= m < |s[1..]| && s[1..][m].0 == r[b].0;
            assert s[m + 1].0 == r[b].0;
          } else {
            assert r[a] == Remove(s[1..], k)[a - 1] && r[b] == Remove(s[1..], k)[b - 1];
          }
        }
      }
    }
  }

  /** Object.fromEntries on the list: the same pairs as a (keyed, unordered) map. */
  function ToMap<K(==), V>(s: seq<(K, V)>): (m: map<K, V>)
    ensures m.Keys == KeySet(s)
    ensures forall k :: k in m ==> Lookup(s, k) == Some(m[k])
  {
    if s == [] then map[]
    else
      KeySetCons(s);
      ToMap(s[1..])[s[0].0 := s[0].1]
  }
}
