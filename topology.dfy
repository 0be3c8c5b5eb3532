/** Closed forms for the shape every generated tree has: a branch with remaining depth
    d > 1 has two children, one with d == 1 has a single child, and reaching depth 0
    records one leaf point. */
module Topology {

  function Pow2(n: nat): (r: nat)
    ensures r >= 1
  {
    if n == 0 then 1 else 2 * Pow2(n - 1)
  }

  /** Leaf points recorded below a branch generated with remaining depth `depth`. */
  function LeafCount(depth: int): nat
  {
    if depth <= 0 then 1 else Pow2(depth - 1)
  }

  /** Branches generated below (not counting) a branch with remaining depth `depth`. */
  function DescendantCount(depth: int): nat
  {
    if depth <= 0 then 0 else 3 * Pow2(depth - 1) - 2
  }

  /** The closed forms satisfy the recurrences of the generation: L(0) = L(1) = 1,
      L(d) = 2 L(d-1); C(0) = 0, C(1) = 1, C(d) = 2 (1 + C(d-1)). */
  lemma Recurrences(depth: int)
    ensures depth <= 0 ==> LeafCount(depth) == 1 && DescendantCount(depth) == 0
    ensures depth == 1 ==> LeafCount(depth) == 1 && DescendantCount(depth) == 1
    ensures depth > 1 ==> LeafCount(depth) == 2 * LeafCount(depth - 1)
    ensures depth > 1 ==> DescendantCount(depth) == 2 * (1 + DescendantCount(depth - 1))
  {
  }

  /** The figures quoted for the trees the two animations build. */
  lemma KnownSizes()
    ensures LeafCount(2) == 2 && 1 + DescendantCount(2) == 5
    ensures LeafCount(3) == 4 && 1 + DescendantCount(3) == 11
    ensures LeafCount(4) == 8 && 1 + DescendantCount(4) == 23
    ensures LeafCount(6) == 32 && 1 + DescendantCount(6) == 95
  {
    assert Pow2(1) == 2;
    assert Pow2(2) == 4;
    assert Pow2(3) == 8;
    assert Pow2(5) == 32;
  }
}
