/** The Python dictionary built from key/value pairs in order — a dict
    comprehension `{k: v for ...}` or repeated `d[k] = v` — where a later
    pair with a key already present replaces the earlier value. */
module Keyed {

  function ToMap<K, V>(pairs: seq<(K, V)>): map<K, V>
    decreases |pairs|
  {
    if pairs == [] then map[]
    else
      var last := pairs[|pairs| - 1];
      ToMap(pairs[..|pairs| - 1])[last.0 := last.1]
  }

  /** Every key of the pairs is in the dict, and every entry of the dict is
      one of the pairs. */
  lemma {:induction false} ToMapDomain<K, V>(pairs: seq<(K, V)>)
    ensures forall i :: 0 <= i < |pairs| ==> pairs[i].0 in ToMap(pairs)
    ensures forall k :: k in ToMap(pairs) ==>
      exists i :: 0 <= i < |pairs| && pairs[i].0 == k && pairs[i].1 == ToMap(pairs)[k]
    decreases |pairs|
  {
    if pairs != [] {
      var init := pairs[..|pairs| - 1];
      ToMapDomain(init);
      assert forall i :: 0 <= i < |init| ==> init[i] == pairs[i];
    }
  }

  /** Adding one more pair is one more assignment `d[k] = v`. */
  lemma ToMapSnoc<K, V>(pairs: seq<(K, V)>, k: K, v: V)
    ensures ToMap(pairs + [(k, v)]) == ToMap(pairs)[k := v]
  {
    assert (pairs + [(k, v)])[..|pairs|] == pairs;
  }

  /** Last writer wins: the value under a key is that of the last pair with
      that key. */
  lemma {:induction false} ToMapLastWins<K, V>(pairs: seq<(K, V)>, i: nat)
    requires i < |pairs|
    requires forall j :: i < j < |pairs| ==> pairs[j].0 != pairs[i].0
    ensures pairs[i].0 in ToMap(pairs) && ToMap(pairs)[pairs[i].0] == pairs[i].1
    decreases |pairs|
  {
    if i < |pairs| - 1 {
      var init := pairs[..|pairs| - 1];
      assert init[i] == pairs[i];
      ToMapLastWins(init, i);
    }
  }
}
