/** Repeated declarations of one interface: the last one wins, before anything else is examined. */
module Overrides {

  /** The kept registrations, in declaration order. */
  predicate LastOfEach<K(==)>(keys: seq<K>, kept: seq<nat>) {
    && (forall a, b :: 0 <= a < b < |kept| ==> kept[a] < kept[b])
    && (forall i: nat :: i in kept ==> i < |keys| && forall j :: i < j < |keys| ==> keys[j] != keys[i])
    && (forall i: nat :: i < |keys| && (forall j :: i < j < |keys| ==> keys[j] != keys[i]) ==> i in kept)
  }

  method Winners<K(==)>(keys: seq<K>) returns (kept: seq<nat>)
    ensures LastOfEach(keys, kept)
  {
    var winners: map<K, nat> := map[];
    for i := 0 to |keys|
      invariant forall k :: 0 <= k < i ==> keys[k] in winners
      invariant forall key :: key in winners ==>
                  winners[key] < i && keys[winners[key]] == key && forall j :: winners[key] < j < i ==> keys[j] != key
    {
      winners := winners[keys[i] := i];
    }
    kept := [];
    for i := 0 to |keys|
      invariant forall a, b :: 0 <= a < b < |kept| ==> kept[a] < kept[b]
      invariant forall k: nat :: k in kept <==> k < i && winners[keys[k]] == k
    {
      if winners[keys[i]] == i {
        assert forall a :: 0 <= a < |kept| ==> kept[a] in kept;
        kept := kept + [i];
      }
    }
  }

  /** Every declared interface keeps exactly one registration. */
  lemma OneWinnerEach<K>(keys: seq<K>, kept: seq<nat>, i: nat)
    requires LastOfEach(keys, kept) && i < |keys|
    ensures exists w :: w in kept && w >= i && keys[w] == keys[i]
    ensures forall v, w :: v in kept && w in kept && keys[v] == keys[w] ==> v == w
    decreases |keys| - i
  {
    if j :| i < j < |keys| && keys[j] == keys[i] {
      OneWinnerEach(keys, kept, j);
    } else {
      assert i in kept;
    }
  }
}
