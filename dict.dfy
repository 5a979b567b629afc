/**
 * Python dict semantics the core relies on: a comprehension `{key(x): val(x) for x in xs}` keeps the value of
 * the LAST element with a given key, and iteration visits keys in the order they were first inserted.
 */
module Dict {

  /** `{key(x): val(x) for x in xs}`. */
  function FromSeq<T, K, V>(xs: seq<T>, key: T -> K, val: T -> V): (m: map<K, V>)
    ensures m.Keys == set x | x in xs :: key(x)
  {
    if xs == [] then map[]
    else
      var init, last := xs[..|xs| - 1], xs[|xs| - 1];
      assert xs == init + [last];
      FromSeq(init, key, val)[key(last) := val(last)]
  }

  /** Adding an element to the end of the source stores its value under its key, over any earlier one. */
  lemma FromSeqSnoc<T, K, V>(xs: seq<T>, x: T, key: T -> K, val: T -> V)
    ensures FromSeq(xs + [x], key, val) == FromSeq(xs, key, val)[key(x) := val(x)]
  {
    assert (xs + [x])[..|xs|] == xs;
  }

  /** The value stored under a key is that of the last element carrying the key. */
  lemma {:induction false} FromSeqLastWins<T, K, V>(xs: seq<T>, key: T -> K, val: T -> V, i: nat)
    requires i < |xs|
    requires forall j :: i < j < |xs| ==> key(xs[j]) != key(xs[i])
    ensures key(xs[i]) in FromSeq(xs, key, val)
    ensures FromSeq(xs, key, val)[key(xs[i])] == val(xs[i])
  {
    if i < |xs| - 1 {
      FromSeqLastWins(xs[..|xs| - 1], key, val, i);
    }
  }

  /** A value of the comprehension is the value of some element carrying that key. */
  lemma {:induction false} FromSeqValueOrigin<T, K, V>(xs: seq<T>, key: T -> K, val: T -> V, k: K)
    requires k in FromSeq(xs, key, val)
    ensures exists i :: 0 <= i < |xs| && key(xs[i]) == k && val(xs[i]) == FromSeq(xs, key, val)[k]
  {
    var n := |xs| - 1;
    if key(xs[n]) != k {
      FromSeqValueOrigin(xs[..n], key, val, k);
      var i :| 0 <= i < n && key(xs[..n][i]) == k && val(xs[..n][i]) == FromSeq(xs[..n], key, val)[k];
      assert key(xs[i]) == k && val(xs[i]) == FromSeq(xs, key, val)[k];
    } else {
      assert key(xs[n]) == k && val(xs[n]) == FromSeq(xs, key, val)[k];
    }
  }

  /** The keys of `ks`, each once, in the order of first occurrence: the iteration order of a dict built by `ks`. */
  function InsertionOrder<K(==,!new)>(ks: seq<K>): (o: seq<K>)
    ensures forall k :: k in o <==> k in ks
    ensures Distinct(o)
  {
    if ks == [] then []
    else
      var init, last := ks[..|ks| - 1], ks[|ks| - 1];
      assert ks == init + [last];
      var o := InsertionOrder(init);
      if last in o then o else o + [last]
  }

  /** A key seen before keeps its place in the iteration order; a new key goes last. */
  lemma InsertionOrderSnoc<K(!new)>(ks: seq<K>, k: K)
    ensures InsertionOrder(ks + [k]) == if k in InsertionOrder(ks) then InsertionOrder(ks) else InsertionOrder(ks) + [k]
  {
    assert (ks + [k])[..|ks|] == ks;
  }

  predicate Distinct<K(==)>(s: seq<K>) {
    forall a, b :: 0 <= a < b < |s| ==> s[a] != s[b]
  }
}
