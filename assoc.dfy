/**
 * PHP builds associative arrays by assigning `$a[$k] = $v` inside a `foreach`:
 * a later assignment to the same key overwrites an earlier one. `LastWins`
 * is that accumulation as a value.
 */
module Assoc {

  function LastWins<K, V>(pairs: seq<(K, V)>): (m: map<K, V>)
    ensures forall j :: 0 <= j < |pairs| ==> pairs[j].0 in m
    ensures forall j :: 0 <= j < |pairs| && Final(pairs, j) ==> m[pairs[j].0] == pairs[j].1
  {
    if pairs == [] then map[]
    else
      var init := pairs[..|pairs| - 1];
      assert forall j :: 0 <= j < |init| ==> init[j] == pairs[j];
      LastWins(init)[pairs[|pairs| - 1].0 := pairs[|pairs| - 1].1]
  }

  /** Only assigned keys are in the array. */
  lemma {:induction false} LastWinsKeys<K, V>(pairs: seq<(K, V)>, k: K)
    requires k in LastWins(pairs)
    ensures exists j :: 0 <= j < |pairs| && pairs[j].0 == k
  {
    var last := |pairs| - 1;
    if pairs[last].0 != k {
      var init := pairs[..last];
      LastWinsKeys(init, k);
      var j :| 0 <= j < |init| && init[j].0 == k;
      assert pairs[j].0 == k;
    }
  }

  /** Assigning one more pair updates the array at that pair's key. */
  lemma LastWinsSnoc<K, V>(pairs: seq<(K, V)>, p: (K, V))
    ensures LastWins(pairs + [p]) == LastWins(pairs)[p.0 := p.1]
  {
  }

  /** Assigning the pairs of a prefix one at a time: the next pair updates the array at its key. */
  lemma LastWinsPrefix<K, V>(pairs: seq<(K, V)>, i: nat)
    requires i < |pairs|
    ensures LastWins(pairs[..i + 1]) == LastWins(pairs[..i])[pairs[i].0 := pairs[i].1]
  {
    assert pairs[..i + 1] == pairs[..i] + [pairs[i]];
    LastWinsSnoc(pairs[..i], pairs[i]);
  }

  /** No later pair in `pairs` has the key of pair `j`. */
  ghost predicate Final<K, V>(pairs: seq<(K, V)>, j: int)
    requires 0 <= j < |pairs|
  {
    forall i :: j < i < |pairs| ==> pairs[i].0 != pairs[j].0
  }
}
