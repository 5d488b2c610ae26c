/**
 * A JavaScript object used as a dictionary: string keys in insertion order.
 * Assigning to a key that is already present changes its value and keeps
 * its position; a new key goes at the end. `Object.keys` is `Keys`.
 */
module Dict {
  import opened Wrappers
  import opened Text

  type Entries<V> = seq<(String, V)>

  /** `Object.keys(d)` */
  function Keys<V>(d: Entries<V>): (ks: seq<String>)
    ensures |ks| == |d|
    ensures forall i :: 0 <= i < |d| ==> ks[i] == d[i].0
  {
    if d == [] then [] else [d[0].0] + Keys(d[1..])
  }

  predicate DistinctKeys<V>(d: Entries<V>) {
    forall i, j :: 0 <= i < j < |d| ==> d[i].0 != d[j].0
  }

  /** `d[k]`, with `undefined` as None. */
  function Get<V>(d: Entries<V>, k: String): (r: Option<V>)
    ensures r.None? <==> k !in Keys(d)
  {
    if d == [] then None
    else if d[0].0 == k then Some(d[0].1)
    else Get(d[1..], k)
  }

  /** With distinct keys, `Get` finds exactly the stored pair. */
  lemma {:induction false} GetAt<V>(d: Entries<V>, k: String, v: V)
    requires DistinctKeys(d)
    ensures Get(d, k) == Some(v) <==> exists i :: 0 <= i < |d| && d[i] == (k, v)
  {
    if d != [] {
      GetAt(d[1..], k, v);
      if d[0].0 == k {
        forall i | 0 < i < |d| ensures d[i] != (k, v) {
          assert d[0].0 != d[i].0;
        }
        if exists i :: 0 <= i < |d| && d[i] == (k, v) {
          var i :| 0 <= i < |d| && d[i] == (k, v);
          assert i == 0;
        }
      } else {
        if exists i :: 0 <= i < |d| && d[i] == (k, v) {
          var i :| 0 <= i < |d| && d[i] == (k, v);
          assert d[1..][i - 1] == (k, v);
        }
        if exists i :: 0 <= i < |d| - 1 && d[1..][i] == (k, v) {
          var i :| 0 <= i < |d| - 1 && d[1..][i] == (k, v);
          assert d[i + 1] == (k, v);
        }
      }
    }
  }

  /** `d[k] = v`: the key takes the new value and no other key changes. */
  function Put<V>(d: Entries<V>, k: String, v: V): (r: Entries<V>)
    ensures Get(r, k) == Some(v)
    ensures forall k' :: k' != k ==> Get(r, k') == Get(d, k')
  {
    if d == [] then [(k, v)]
    else if d[0].0 == k then [(k, v)] + d[1..]
    else
      [d[0]] + Put(d[1..], k, v)
  }

  /** The key order is kept: a present key stays where it is, a new one goes at the end. */
  lemma {:induction false} PutKeys<V>(d: Entries<V>, k: String, v: V)
    ensures k in Keys(d) ==> Keys(Put(d, k, v)) == Keys(d)
    ensures k !in Keys(d) ==> Keys(Put(d, k, v)) == Keys(d) + [k]
  {
    if d != [] && d[0].0 != k {
      PutKeys(d[1..], k, v);
      var rest := Put(d[1..], k, v);
      assert Put(d, k, v) == [d[0]] + rest;
      assert Keys([d[0]] + rest) == [d[0].0] + Keys(rest);
      assert Keys(d) == [d[0].0] + Keys(d[1..]);
    }
  }

  /**
   * The values of `ks` without repetition, each where it was first seen:
   * what adding them one by one to a JavaScript `Set` and reading it back gives.
   */
  function SeenOrder(ks: seq<String>): (r: seq<String>)
    ensures forall x :: x in r <==> x in ks
    ensures forall i, j :: 0 <= i < j < |r| ==> r[i] != r[j]
    ensures |r| <= |ks|
  {
    if ks == [] then []
    else
      var r := SeenOrder(ks[..|ks| - 1]);
      assert ks == ks[..|ks| - 1] + [ks[|ks| - 1]];
      if ks[|ks| - 1] in r then r else r + [ks[|ks| - 1]]
  }

  /** Seeing more values never reorders those already seen: the first-seen order is stable. */
  lemma {:induction false} SeenOrderPrefix(a: seq<String>, b: seq<String>)
    ensures SeenOrder(a) <= SeenOrder(a + b)
    decreases |b|
  {
    if b == [] {
      assert a + b == a;
    } else {
      var b' := b[..|b| - 1];
      SeenOrderPrefix(a, b');
      assert (a + b)[..|a + b| - 1] == a + b';
    }
  }

  /** The first value seen comes first. */
  lemma SeenOrderHead(ks: seq<String>)
    requires ks != []
    ensures SeenOrder(ks)[0] == ks[0]
  {
    SeenOrderPrefix([ks[0]], ks[1..]);
    assert [ks[0]] + ks[1..] == ks;
    assert SeenOrder([ks[0]]) == [ks[0]];
  }
}
