/**
 * Python dictionaries keep their keys in insertion order, and the modelled code depends on
 * that order (output records, square maps). A dict is modelled as its (key, value) pairs in
 * insertion order.
 */
module Dicts {
  import opened Wrappers

  type Dict<K, V> = seq<(K, V)>

  predicate KeysDistinct<K(==), V>(d: Dict<K, V>) {
    forall i, j :: 0 <= i < j < |d| ==> d[i].0 != d[j].0
  }

  /** `list(d.keys())` */
  function Keys<K, V>(d: Dict<K, V>): (ks: seq<K>)
    ensures |ks| == |d|
  {
    seq(|d|, i requires 0 <= i < |d| => d[i].0)
  }

  /** `d.get(k)` */
  function Get<K(==), V>(d: Dict<K, V>, k: K): (r: Option<V>)
    ensures r.None? <==> k !in Keys(d)
  {
    if |d| == 0 then None
    else
      assert Keys(d) == [d[0].0] + Keys(d[1..]);
      if d[0].0 == k then Some(d[0].1)
      else Get(d[1..], k)
  }

  /** `d[k] = v`: an existing key keeps its place, a new key goes last. */
  function Put<K(==), V>(d: Dict<K, V>, k: K, v: V): (r: Dict<K, V>)
    ensures Get(r, k) == Some(v)
  {
    if |d| == 0 then [(k, v)]
    else if d[0].0 == k then [(k, v)] + d[1..]
    else [d[0]] + Put(d[1..], k, v)
  }

  /** Putting a key leaves the values of the other keys alone. */
  lemma {:induction false} PutOthers<K(!new), V>(d: Dict<K, V>, k: K, v: V, k': K)
    requires k' != k
    ensures Get(Put(d, k, v), k') == Get(d, k')
  {
    if |d| > 0 && d[0].0 != k {
      PutOthers(d[1..], k, v, k');
      assert ([d[0]] + Put(d[1..], k, v))[1..] == Put(d[1..], k, v);
    } else if |d| > 0 {
      assert ([(k, v)] + d[1..])[1..] == d[1..];
    }
  }

  lemma KeysCons<K, V>(first: (K, V), rest: Dict<K, V>)
    ensures Keys([first] + rest) == [first.0] + Keys(rest)
  {
    assert ([first] + rest)[1..] == rest;
  }

  /** Putting an existing key keeps the keys in place; a new key goes last. */
  lemma {:induction false} PutKeys<K(!new), V>(d: Dict<K, V>, k: K, v: V)
    ensures Keys(Put(d, k, v)) == if k in Keys(d) then Keys(d) else Keys(d) + [k]
  {
    if |d| > 0 {
      assert [d[0]] + d[1..] == d;
      KeysCons(d[0], d[1..]);
      if d[0].0 == k {
        KeysCons((k, v), d[1..]);
      } else {
        PutKeys(d[1..], k, v);
        KeysCons(d[0], Put(d[1..], k, v));
        assert k in Keys(d) <==> k in Keys(d[1..]);
        if k !in Keys(d[1..]) {
          assert [d[0].0] + (Keys(d[1..]) + [k]) == ([d[0].0] + Keys(d[1..])) + [k];
        }
      }
    }
  }

  lemma PutDistinct<K(!new), V>(d: Dict<K, V>, k: K, v: V)
    requires KeysDistinct(d)
    ensures KeysDistinct(Put(d, k, v))
  {
    PutKeys(d, k, v);
    var r := Put(d, k, v);
    forall i, j | 0 <= i < j < |r| ensures r[i].0 != r[j].0 {
      assert Keys(r)[i] == r[i].0 && Keys(r)[j] == r[j].0;
      if k !in Keys(d) && j == |d| {
        assert Keys(d)[i] == d[i].0;
      } else {
        assert Keys(d)[i] == d[i].0 && Keys(d)[j] == d[j].0;
      }
    }
  }

  /** `dict(pairs)`: the pairs put in one after the other. */
  function FromPairs<K(==,!new), V>(pairs: seq<(K, V)>): (d: Dict<K, V>)
    ensures KeysDistinct(d)
  {
    if |pairs| == 0 then []
    else
      var init := FromPairs(pairs[..|pairs| - 1]);
      PutDistinct(init, pairs[|pairs| - 1].0, pairs[|pairs| - 1].1);
      Put(init, pairs[|pairs| - 1].0, pairs[|pairs| - 1].1)
  }

  /** The value of the last pair with key `k`, scanning from the end. */
  function LastValue<K(==), V>(pairs: seq<(K, V)>, k: K): Option<V> {
    if |pairs| == 0 then None
    else if pairs[|pairs| - 1].0 == k then Some(pairs[|pairs| - 1].1)
    else LastValue(pairs[..|pairs| - 1], k)
  }

  /** A key first seen at position i keeps that place: keys appear in order of first occurrence. */
  function FirstOccurrences<K(==), V>(pairs: seq<(K, V)>): seq<K> {
    if |pairs| == 0 then []
    else
      var ks := FirstOccurrences(pairs[..|pairs| - 1]);
      if pairs[|pairs| - 1].0 in ks then ks else ks + [pairs[|pairs| - 1].0]
  }

  /** In `dict(pairs)` the later of two pairs with the same key wins, and keys keep first-seen order. */
  lemma {:induction false} FromPairsSpec<K(!new), V>(pairs: seq<(K, V)>)
    ensures forall k :: Get(FromPairs(pairs), k) == LastValue(pairs, k)
    ensures Keys(FromPairs(pairs)) == FirstOccurrences(pairs)
  {
    if |pairs| > 0 {
      FromPairsSpec(pairs[..|pairs| - 1]);
      var init, last := FromPairs(pairs[..|pairs| - 1]), pairs[|pairs| - 1];
      PutKeys(init, last.0, last.1);
      forall k | k != last.0 ensures Get(FromPairs(pairs), k) == LastValue(pairs, k) {
        PutOthers(init, last.0, last.1, k);
      }
    }
  }
  /** `d[k] = v` for each pair in turn, on an existing dictionary. */
  function PutAll<K(==), V>(d: Dict<K, V>, pairs: seq<(K, V)>): Dict<K, V> {
    if |pairs| == 0 then d
    else Put(PutAll(d, pairs[..|pairs| - 1]), pairs[|pairs| - 1].0, pairs[|pairs| - 1].1)
  }

  /** One more update after the others. */
  lemma PutAllSnoc<K(!new), V>(d: Dict<K, V>, pairs: seq<(K, V)>, k: K, v: V)
    ensures PutAll(d, pairs + [(k, v)]) == Put(PutAll(d, pairs), k, v)
  {
    assert (pairs + [(k, v)])[..|pairs|] == pairs;
  }

  /** After the updates a key holds the value of its last update, and a key never updated keeps its value. */
  lemma {:induction false} PutAllSpec<K(!new), V>(d: Dict<K, V>, pairs: seq<(K, V)>)
    ensures forall k :: Get(PutAll(d, pairs), k) == if LastValue(pairs, k).Some? then LastValue(pairs, k) else Get(d, k)
  {
    if |pairs| > 0 {
      PutAllSpec(d, pairs[..|pairs| - 1]);
      var init, last := PutAll(d, pairs[..|pairs| - 1]), pairs[|pairs| - 1];
      forall k | k != last.0
        ensures Get(PutAll(d, pairs), k) == if LastValue(pairs, k).Some? then LastValue(pairs, k) else Get(d, k)
      {
        PutOthers(init, last.0, last.1, k);
      }
    }
  }
  /** A pair that no later pair overrides gives the last value of its key. */
  lemma {:induction false} LastValueAt<K, V>(pairs: seq<(K, V)>, i: nat)
    requires i < |pairs|
    requires forall j :: i < j < |pairs| ==> pairs[j].0 != pairs[i].0
    ensures LastValue(pairs, pairs[i].0) == Some(pairs[i].1)
  {
    if i < |pairs| - 1 {
      LastValueAt(pairs[..|pairs| - 1], i);
    }
  }

  /** A key no pair has has no last value. */
  lemma {:induction false} LastValueAbsent<K, V>(pairs: seq<(K, V)>, k: K)
    requires forall j :: 0 <= j < |pairs| ==> pairs[j].0 != k
    ensures LastValue(pairs, k) == None
  {
    if |pairs| > 0 {
      LastValueAbsent(pairs[..|pairs| - 1], k);
    }
  }

  /** `dict(pairs)` of pairs with distinct keys is the pairs themselves, in order. */
  lemma {:induction false} FromPairsOfDistinct<K(!new), V>(ps: seq<(K, V)>)
    requires KeysDistinct(ps)
    ensures FromPairs(ps) == ps
  {
    if |ps| > 0 {
      var init, last := ps[..|ps| - 1], ps[|ps| - 1];
      assert KeysDistinct(init);
      FromPairsOfDistinct(init);
      assert last.0 !in Keys(init) by {
        forall i | 0 <= i < |init| ensures Keys(init)[i] != last.0 {
          assert init[i] == ps[i];
        }
      }
      PutNewKey(init, last.0, last.1);
      assert init + [last] == ps;
    }
  }

  lemma {:induction false} PutNewKey<K(!new), V>(d: Dict<K, V>, k: K, v: V)
    requires k !in Keys(d)
    ensures Put(d, k, v) == d + [(k, v)]
  {
    if |d| > 0 {
      assert d[0].0 != k by {
        assert Keys(d)[0] == d[0].0;
      }
      assert k !in Keys(d[1..]) by {
        assert Keys(d[1..]) == Keys(d)[1..];
      }
      PutNewKey(d[1..], k, v);
      calc {
        Put(d, k, v);
        [d[0]] + Put(d[1..], k, v);
        [d[0]] + (d[1..] + [(k, v)]);
        { assert [d[0]] + d[1..] == d; }
        d + [(k, v)];
      }
    }
  }

  /** In a dictionary with distinct keys, each key gets the value stored beside it. */
  lemma {:induction false} GetDistinctAt<K(!new), V>(d: Dict<K, V>, i: nat)
    requires KeysDistinct(d) && i < |d|
    ensures Get(d, d[i].0) == Some(d[i].1)
  {
    if i > 0 {
      assert KeysDistinct(d[1..]);
      GetDistinctAt(d[1..], i - 1);
    }
  }

  /** `dict(pairs + more)` is `dict(pairs)` updated with `more`. */
  lemma {:induction false} FromPairsAppend<K(!new), V>(pairs: seq<(K, V)>, more: seq<(K, V)>)
    ensures FromPairs(pairs + more) == PutAll(FromPairs(pairs), more)
  {
    if |more| == 0 {
      assert pairs + more == pairs;
    } else {
      var init := more[..|more| - 1];
      FromPairsAppend(pairs, init);
      assert (pairs + more)[..|pairs + more| - 1] == pairs + init;
    }
  }
}
