/**
 * Insertion-ordered key/value lists: a Python `dict` or a plain JavaScript
 * object. Reading a key finds its entry; assigning an existing key keeps the
 * entry where it is, assigning a new key appends it at the end (the behaviour
 * of `d[k] = v` in Python and of `{...prev, [k]: v}` in JavaScript).
 */
module Assoc {
  import opened Base

  predicate HasKey<K(==), V>(m: seq<(K, V)>, k: K) {
    exists i :: 0 <= i < |m| && m[i].0 == k
  }

  /** The keys, in insertion order. */
  function Keys<K, V>(m: seq<(K, V)>): (ks: seq<K>)
    ensures |ks| == |m|
    ensures forall i :: 0 <= i < |m| ==> ks[i] == m[i].0
  {
    seq(|m|, i requires 0 <= i < |m| => m[i].0)
  }

  /** The values, in insertion order (`Object.values`). */
  function Values<K, V>(m: seq<(K, V)>): (vs: seq<V>)
    ensures |vs| == |m|
    ensures forall i :: 0 <= i < |m| ==> vs[i] == m[i].1
  {
    seq(|m|, i requires 0 <= i < |m| => m[i].1)
  }

  lemma KeysSnoc<K, V>(m: seq<(K, V)>, x: (K, V))
    ensures Keys(m + [x]) == Keys(m) + [x.0]
  {
  }

  /** The value stored under `k`: that of the first entry with key `k`. */
  function Get<K(==), V>(m: seq<(K, V)>, k: K): (r: Option<V>)
    ensures r.Some? <==> HasKey(m, k)
    ensures r.Some? ==> exists i :: 0 <= i < |m| && m[i] == (k, r.value)
  {
    if m == [] then None
    else if m[0].0 == k then Some(m[0].1)
    else
      var r := Get(m[1..], k);
      assert r.Some? ==> exists i :: 0 <= i < |m[1..]| && m[1..][i] == (k, r.value);
      assert HasKey(m[1..], k) ==> HasKey(m, k) by {
        if HasKey(m[1..], k) {
          var i :| 0 <= i < |m[1..]| && m[1..][i].0 == k;
          assert m[i + 1].0 == k;
        }
      }
      assert HasKey(m, k) ==> HasKey(m[1..], k) by {
        if HasKey(m, k) {
          var i :| 0 <= i < |m| && m[i].0 == k;
          assert i != 0 && m[1..][i - 1].0 == k;
        }
      }
      r
  }

  /** Reading through an entry put in front of a list. */
  lemma GetCons<K, V>(x: (K, V), m: seq<(K, V)>, k: K)
    ensures Get([x] + m, k) == if x.0 == k then Some(x.1) else Get(m, k)
    ensures HasKey([x] + m, k) <==> x.0 == k || HasKey(m, k)
  {
    assert ([x] + m)[1..] == m;
  }

  /** The entry found is the first one carrying the key. */
  lemma {:induction false} GetFirst<K, V>(m: seq<(K, V)>, i: nat, k: K)
    requires i < |m| && m[i].0 == k
    requires forall j :: 0 <= j < i ==> m[j].0 != k
    ensures Get(m, k) == Some(m[i].1)
  {
    if i > 0 {
      var tail := m[1..];
      forall j | 0 <= j < i - 1 ensures tail[j].0 != k {
        assert tail[j] == m[j + 1];
      }
      assert tail[i - 1] == m[i];
      GetFirst(tail, i - 1, k);
      assert m[0].0 != k;
    }
  }

  /** Assigns `v` to key `k`: in place when the key exists, appended otherwise. */
  function Set<K(==, !new), V>(m: seq<(K, V)>, k: K, v: V): (r: seq<(K, V)>)
    ensures Get(r, k) == Some(v)
    ensures forall k' {:trigger Get(r, k')} :: k' != k ==> Get(r, k') == Get(m, k')
    ensures HasKey(m, k) ==> |r| == |m| && Keys(r) == Keys(m)
    ensures !HasKey(m, k) ==> r == m + [(k, v)]
  {
    if m == [] then
      GetCons((k, v), [], k);
      assert forall k' :: k' != k ==> Get([(k, v)], k') == Get([(k, v)][1..], k');
      [(k, v)]
    else if m[0].0 == k then
      SetHere(m, k, v);
      [(k, v)] + m[1..]
    else
      var rest := Set(m[1..], k, v);
      SetFurther(m, k, v, rest);
      SetFurtherShape(m, k, v, rest);
      [m[0]] + rest
  }

  /** `Set` when the first entry carries the key. */
  lemma SetHere<K(!new), V>(m: seq<(K, V)>, k: K, v: V)
    requires m != [] && m[0].0 == k
    ensures Get([(k, v)] + m[1..], k) == Some(v)
    ensures forall k' :: k' != k ==> Get([(k, v)] + m[1..], k') == Get(m, k')
    ensures HasKey(m, k) && Keys([(k, v)] + m[1..]) == Keys(m)
  {
    var r := [(k, v)] + m[1..];
    assert m == [m[0]] + m[1..];
    GetCons((k, v), m[1..], k);
    forall k' | k' != k ensures Get(r, k') == Get(m, k') {
      GetCons((k, v), m[1..], k');
      GetCons(m[0], m[1..], k');
    }
    assert Keys(r) == Keys(m);
  }

  /** `Set` when the first entry carries another key: lookups, from those of the recursive call. */
  lemma SetFurther<K(!new), V>(m: seq<(K, V)>, k: K, v: V, rest: seq<(K, V)>)
    requires m != [] && m[0].0 != k
    requires Get(rest, k) == Some(v)
    requires forall k' :: k' != k ==> Get(rest, k') == Get(m[1..], k')
    ensures Get([m[0]] + rest, k) == Some(v)
    ensures forall k' :: k' != k ==> Get([m[0]] + rest, k') == Get(m, k')
  {
    var r := [m[0]] + rest;
    assert m == [m[0]] + m[1..];
    GetCons(m[0], rest, k);
    forall k' | k' != k ensures Get(r, k') == Get(m, k') {
      GetCons(m[0], rest, k');
      GetCons(m[0], m[1..], k');
    }
  }

  /** `Set` when the first entry carries another key: the shape, from that of the recursive call. */
  lemma SetFurtherShape<K, V>(m: seq<(K, V)>, k: K, v: V, rest: seq<(K, V)>)
    requires m != [] && m[0].0 != k
    requires HasKey(m[1..], k) ==> |rest| == |m[1..]| && Keys(rest) == Keys(m[1..])
    requires !HasKey(m[1..], k) ==> rest == m[1..] + [(k, v)]
    ensures HasKey(m, k) ==> |[m[0]] + rest| == |m| && Keys([m[0]] + rest) == Keys(m)
    ensures !HasKey(m, k) ==> [m[0]] + rest == m + [(k, v)]
  {
    var r := [m[0]] + rest;
    assert m == [m[0]] + m[1..];
    GetCons(m[0], m[1..], k);
    if HasKey(m, k) {
      assert Keys(r) == [m[0].0] + Keys(rest);
      assert Keys(m) == [m[0].0] + Keys(m[1..]);
    }
  }

  /** Assigning an existing key overwrites its first entry in place. */
  lemma {:induction false} SetAt<K(!new), V>(m: seq<(K, V)>, k: K, v: V) returns (i: nat)
    requires HasKey(m, k)
    ensures i < |m| && m[i].0 == k && Get(m, k) == Some(m[i].1)
    ensures Set(m, k, v) == m[i := (k, v)]
  {
    if m[0].0 == k {
      i := 0;
      SetHeadAt(m, k, v);
    } else {
      SetTailAt(m, k, v);
      var j := SetAt(m[1..], k, v);
      i := j + 1;
      ConsUpdate(m, j, (k, v));
    }
  }

  /** `Set` and `Get` when the first entry carries the key. */
  lemma SetHeadAt<K(!new), V>(m: seq<(K, V)>, k: K, v: V)
    requires m != [] && m[0].0 == k
    ensures Get(m, k) == Some(m[0].1)
    ensures Set(m, k, v) == m[0 := (k, v)]
  {
    assert Set(m, k, v) == [(k, v)] + m[1..];
  }

  /** `Set` and `Get` when the first entry carries another key: both work on the tail. */
  lemma SetTailAt<K(!new), V>(m: seq<(K, V)>, k: K, v: V)
    requires m != [] && m[0].0 != k
    ensures Get(m, k) == Get(m[1..], k)
    ensures Set(m, k, v) == [m[0]] + Set(m[1..], k, v)
    ensures HasKey(m, k) ==> HasKey(m[1..], k)
  {
    if HasKey(m, k) {
      var j :| 0 <= j < |m| && m[j].0 == k;
      assert m[1..][j - 1].0 == k;
    }
  }

  /** Updating the tail is updating the whole one index further on. */
  lemma ConsUpdate<T>(m: seq<T>, j: nat, y: T)
    requires j + 1 < |m|
    ensures [m[0]] + m[1..][j := y] == m[j + 1 := y]
    ensures m[1..][j] == m[j + 1]
  {
  }

  /** Overwriting one entry overwrites one value. */
  lemma ValuesUpdate<K, V>(m: seq<(K, V)>, i: nat, k: K, v: V)
    requires i < |m|
    ensures Values(m[i := (k, v)]) == Values(m)[i := v]
  {
  }

  /** The sum of the values (counts) of an association list. */
  function SumValues<K>(m: seq<(K, nat)>): nat {
    if m == [] then 0 else m[0].1 + SumValues(m[1..])
  }

  /** Assigning `v` to `k` changes the sum by the difference between the new value and the old. */
  lemma {:induction false} SetSum<K(!new)>(m: seq<(K, nat)>, k: K, v: nat)
    ensures SumValues(Set(m, k, v)) + Count(m, k) == SumValues(m) + v
  {
    var r := Set(m, k, v);
    if m == [] {
      assert r == [(k, v)];
      assert r[1..] == [];
    } else if m[0].0 == k {
      assert r == [(k, v)] + m[1..];
      assert r[1..] == m[1..];
    } else {
      var rest := Set(m[1..], k, v);
      assert r == [m[0]] + rest;
      assert r[1..] == rest;
      assert Get(m, k) == Get(m[1..], k);
      SetSum(m[1..], k, v);
    }
  }

  /** The count stored under `k`, zero when there is none. */
  function Count<K(==)>(m: seq<(K, nat)>, k: K): nat {
    if HasKey(m, k) then Get(m, k).value else 0
  }

  /** A stored count is the count. */
  lemma CountOf<K>(m: seq<(K, nat)>, k: K, c: nat)
    requires Get(m, k) == Some(c)
    ensures Count(m, k) == c
  {
  }

  /**
   * Adding one to the count of `k`, an absent key counting as zero: that
   * count goes up by one, every other count stays, and so does the order
   * of the keys when `k` was present; the counts add up to one more.
   */
  function Increment<K(==, !new)>(m: seq<(K, nat)>, k: K): (r: seq<(K, nat)>)
    ensures Get(r, k) == Some(Count(m, k) + 1)
    ensures forall k' {:trigger Get(r, k')} :: k' != k ==> Get(r, k') == Get(m, k')
    ensures HasKey(m, k) ==> Keys(r) == Keys(m)
    ensures SumValues(r) == SumValues(m) + 1
  {
    var n: nat := Count(m, k) + 1;
    SetSum(m, k, n);
    Set(m, k, n)
  }

  /** The count of every key after an increment of `k`. */
  lemma IncrementCount<K(!new)>(m: seq<(K, nat)>, k: K, k': K)
    ensures Count(Increment(m, k), k') == Count(m, k') + (if k' == k then 1 else 0)
    ensures HasKey(Increment(m, k), k') <==> HasKey(m, k') || k' == k
  {
    var r := Increment(m, k);
    if k' != k {
      assert Get(r, k') == Get(m, k');
    }
  }

  /** A present key's entry holds its count. */
  lemma GetCount<K>(m: seq<(K, nat)>, k: K)
    requires HasKey(m, k)
    ensures Get(m, k) == Some(Count(m, k))
  {
  }

  /** A key is present exactly when it is among the keys. */
  lemma HasKeyIffInKeys<K, V>(m: seq<(K, V)>, k: K)
    ensures HasKey(m, k) <==> k in Keys(m)
  {
    if HasKey(m, k) {
      var i :| 0 <= i < |m| && m[i].0 == k;
      assert Keys(m)[i] == k;
    }
  }

  /** Every listed key reads back the common value. */
  lemma {:induction false} FromKeysGet<K, V>(ks: seq<K>, v: V, k: K)
    requires k in ks
    ensures Get(FromKeys(ks, v), k) == Some(v)
  {
    var m := FromKeys(ks, v);
    var i :| 0 <= i < |ks| && ks[i] == k;
    assert m[i].0 == k;
    var j :| 0 <= j < |m| && m[j] == (k, Get(m, k).value);
    assert m[j].1 == v;
  }

  /** An association list built from keys and one value for all of them. */
  function FromKeys<K, V>(ks: seq<K>, v: V): (m: seq<(K, V)>)
    ensures Keys(m) == ks
    ensures forall i :: 0 <= i < |m| ==> m[i].1 == v
  {
    seq(|ks|, i requires 0 <= i < |ks| => (ks[i], v))
  }
}
