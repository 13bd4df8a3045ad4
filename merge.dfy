/**
 * The ham-table merge `ham2.forEach((key, value) -> trainHamFreq.merge(key, value, Integer::sum))`:
 * key-wise sum, an absent key counting as 0.
 */
module Merge {
  import opened Indexer

  /** The table `merge` leaves behind, whatever order `forEach` visits the keys in. */
  function MergeSum(a: Table, b: Table): (m: Table)
    ensures m.Keys == a.Keys + b.Keys
    ensures forall w :: w in m ==> m[w] == Get(a, w) + Get(b, w)
  {
    map w | w in a.Keys + b.Keys :: Get(a, w) + Get(b, w)
  }

  /** Keys present in only one table keep their value; keys in both get the sum. */
  lemma MergeKeepsOneSided(a: Table, b: Table, w: string)
    ensures w in a && w !in b ==> MergeSum(a, b)[w] == a[w]
    ensures w !in a && w in b ==> MergeSum(a, b)[w] == b[w]
    ensures w in a && w in b ==> MergeSum(a, b)[w] == a[w] + b[w]
    ensures w !in a && w !in b ==> w !in MergeSum(a, b)
  {
  }

  lemma MergeCommutes(a: Table, b: Table)
    ensures MergeSum(a, b) == MergeSum(b, a)
  {
  }

  lemma MergeAssociates(a: Table, b: Table, c: Table)
    ensures MergeSum(MergeSum(a, b), c) == MergeSum(a, MergeSum(b, c))
  {
  }

  /** The merged ham counts lie in 1..|ham| + |ham2| (the value `getTrainHamLength` returns). */
  lemma MergeBounded(a: Table, b: Table, x: int, y: int)
    requires Bounded(a, x) && Bounded(b, y)
    requires x >= 0 && y >= 0
    ensures Bounded(MergeSum(a, b), x + y)
  {
  }
}
