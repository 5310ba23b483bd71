/** Insertion sort of strings in place. */
module StringSort {
  import opened Text

  /** sortStrings: the executor's own sort, in place. */
  method SortStrings(keys: array<string>)
    modifies keys
    ensures Sorted(keys[..]) && multiset(keys[..]) == multiset(old(keys[..]))
  {
    for i := 0 to keys.Length
      invariant Sorted(keys[..i]) && multiset(keys[..]) == multiset(old(keys[..]))
    {
      Sink(keys, i);
    }
    assert keys[..keys.Length] == keys[..];
  }

  /** Bring the element at i down to its place among the sorted ones before it. */
  method Sink(keys: array<string>, i: nat)
    requires i < keys.Length && Sorted(keys[..i])
    modifies keys
    ensures Sorted(keys[..i + 1]) && multiset(keys[..]) == multiset(old(keys[..]))
  {
    var j := i;
    while j > 0 && !Le(keys[j - 1], keys[j])
      invariant 0 <= j <= i && multiset(keys[..]) == multiset(old(keys[..]))
      invariant InPlaceBut(keys[..i + 1], j)
    {
      LeTotal(keys[j - 1], keys[j]);
      SwappedDown(keys[..i + 1], j);
      ghost var before := keys[..];
      keys[j - 1], keys[j] := keys[j], keys[j - 1];
      assert keys[..] == before[j - 1 := before[j]][j := before[j - 1]];
      assert keys[..i + 1] == before[..i + 1][j - 1 := before[j]][j := before[j - 1]];
      j := j - 1;
    }
    SunkIsSorted(keys[..i + 1], j);
  }

  /** Every element but the one at j is above all before it. */
  ghost predicate InPlaceBut(s: seq<string>, j: nat) {
    forall a, b :: 0 <= a < b < |s| && b != j ==> Le(s[a], s[b])
  }

  lemma SwappedDown(s: seq<string>, j: nat)
    requires 0 < j < |s| && InPlaceBut(s, j) && Le(s[j], s[j - 1])
    ensures InPlaceBut(s[j - 1 := s[j]][j := s[j - 1]], j - 1)
  {
  }

  lemma SunkIsSorted(s: seq<string>, j: nat)
    requires j < |s| && InPlaceBut(s, j)
    requires j > 0 ==> Le(s[j - 1], s[j])
    ensures Sorted(s)
  {
    forall a | 0 <= a < j ensures Le(s[a], s[j]) {
      if a < j - 1 { LeTransitive(s[a], s[j - 1], s[j]); }
    }
  }
}
