/** Trees, fruit and butterflies of the keyboard-driven animation. */
module CalmTree {
  import opened Geometry
  import opened Topology
  import opened Fifo
  import opened Ripening

  /** top_width = Taper * bottom_width for the trunk and every child. */
  const Taper: real := 0.3
  /** `-math.pi / 2` as the double it is: the trunk grows straight up. */
  const UpAngle: real := -1.5707963267948966
  const FruitGrowthRate: real := 0.01
  const FruitSize: real := 8.0

  /** The random draws one call of `generate_children` makes, one bud per child, together
      with those of the calls it makes in turn. */
  datatype Sprouts = Sprouts(buds: seq<Bud>)

  /** The angle draw, length factor and width factor for one child, and the draws below it. */
  datatype Bud = Bud(angleDraw: real, lengthFactor: real, widthFactor: real, next: Sprouts)

  /** `num_children`: two children while more than one level remains, else one. */
  function NumChildren(depth: int): nat
  {
    if depth > 1 then 2 else 1
  }

  /** The range each draw of the i-th of n children comes from: a lone child's offset in
      [-0.1, 0.1], a pair's deviations in [0.1, 0.3], both factors in [0.6, 0.8]. */
  predicate BudInRange(b: Bud, n: nat)
  {
    (if n == 1 then -0.1 <= b.angleDraw <= 0.1 else 0.1 <= b.angleDraw <= 0.3) &&
    0.6 <= b.lengthFactor <= 0.8 && 0.6 <= b.widthFactor <= 0.8
  }

  /** The draws match the recursion for `depth` and every draw lies in its range. */
  predicate Fits(s: Sprouts, depth: int)
    decreases s
  {
    if depth <= 0 then s.buds == []
    else
      |s.buds| == NumChildren(depth) &&
      forall i :: 0 <= i < |s.buds| ==> BudInRange(s.buds[i], |s.buds|) && Fits(s.buds[i].next, depth - 1)
  }

  function Trunk(base: Point, length: real, width: real): Branch
  {
    Branch(base, UpAngle, length, width, width * Taper)
  }

  /** The angle of child i of n: a lone child is perturbed either way, of two the first
      turns left (minus) and the second right (plus). */
  function ChildAngle(parent: Branch, n: nat, i: nat, draw: real): real
  {
    if n == 1 then parent.angle + draw
    else if i == 0 then parent.angle - draw
    else parent.angle + draw
  }

  function Child(parent: Branch, n: nat, i: nat, b: Bud, trig: Trig): Branch
  {
    var w := parent.topWidth * b.widthFactor;
    Branch(End(parent, trig), ChildAngle(parent, n, i, b.angleDraw), parent.length * b.lengthFactor, w, w * Taper)
  }

  /** What generation appends: branches to the tree's pending list and leaf points to the
      shared pool. */
  datatype Yield = Yield(branches: seq<Branch>, leaves: seq<Point>)

  function Join(a: Yield, b: Yield): Yield
  {
    Yield(a.branches + b.branches, a.leaves + b.leaves)
  }

  /** Everything `generate_children(parent, depth)` appends, in the order it appends it:
      at least one leaf point, and a branch exactly when depth remains. */
  function Grow(parent: Branch, depth: int, s: Sprouts, trig: Trig): (y: Yield)
    requires Fits(s, depth)
    ensures (y.branches == [] <==> depth <= 0) && |y.leaves| >= 1
    decreases s, |s.buds| + 1
  {
    if depth <= 0 then Yield([], [End(parent, trig)])
    else GrowKids(parent, depth, s, |s.buds|, trig)
  }

  /** What the first `n` iterations of the loop over the children append. */
  function GrowKids(parent: Branch, depth: int, s: Sprouts, n: nat, trig: Trig): (y: Yield)
    requires depth > 0 && Fits(s, depth) && n <= |s.buds|
    ensures (y.branches == [] <==> n == 0) && (n > 0 ==> |y.leaves| >= 1)
    decreases s, n
  {
    if n == 0 then Yield([], [])
    else
      var b := s.buds[n - 1];
      var c := Child(parent, |s.buds|, n - 1, b, trig);
      Join(GrowKids(parent, depth, s, n - 1, trig), Join(Yield([c], []), Grow(c, depth - 1, b.next, trig)))
  }

  // ---------------------------------------------------------------------------
  // Counting
  // ---------------------------------------------------------------------------

  /** Generation below a branch of remaining depth d appends C(d) branches and L(d) leaf
      points: 2^(d-1) leaves for d >= 1 and one for d <= 0. */
  lemma {:induction false} GrowCounts(parent: Branch, depth: int, s: Sprouts, trig: Trig)
    requires Fits(s, depth)
    ensures |Grow(parent, depth, s, trig).branches| == DescendantCount(depth)
    ensures |Grow(parent, depth, s, trig).leaves| == LeafCount(depth)
    decreases s, |s.buds| + 1
  {
    Recurrences(depth);
    if depth > 0 {
      GrowKidsCounts(parent, depth, s, |s.buds|, trig);
    }
  }

  lemma {:induction false} GrowKidsCounts(parent: Branch, depth: int, s: Sprouts, n: nat, trig: Trig)
    requires depth > 0 && Fits(s, depth) && n <= |s.buds|
    ensures |GrowKids(parent, depth, s, n, trig).branches| == n * (1 + DescendantCount(depth - 1))
    ensures |GrowKids(parent, depth, s, n, trig).leaves| == n * LeafCount(depth - 1)
    decreases s, n
  {
    if n > 0 {
      var b := s.buds[n - 1];
      var c := Child(parent, |s.buds|, n - 1, b, trig);
      GrowKidsCounts(parent, depth, s, n - 1, trig);
      GrowCounts(c, depth - 1, b.next, trig);
    }
  }

  // ---------------------------------------------------------------------------
  // Layout: every branch after the first starts at the end of an earlier one
  // ---------------------------------------------------------------------------

  /** `c` is a child of `p` as generation builds it: it starts at p's end, its angle is
      within 0.3 of p's, its length is p's scaled by [0.6, 0.8], its bottom width is
      p's top width scaled by [0.6, 0.8], and it tapers to 0.3 of that. */
  predicate ChildOf(p: Branch, c: Branch, trig: Trig)
  {
    c.start == End(p, trig) &&
    p.angle - 0.3 <= c.angle <= p.angle + 0.3 &&
    Scaled(c.length, p.length, 0.6, 0.8) &&
    Scaled(c.bottomWidth, p.topWidth, 0.6, 0.8) &&
    c.topWidth == Taper * c.bottomWidth
  }

  predicate HasParent(layout: seq<Branch>, k: int, trig: Trig)
    requires 0 <= k < |layout|
  {
    exists j :: 0 <= j < k && ChildOf(layout[j], layout[k], trig)
  }

  /** Every branch but the first is the child of a branch placed before it. */
  predicate Rooted(layout: seq<Branch>, trig: Trig)
  {
    forall k :: 0 < k < |layout| ==> HasParent(layout, k, trig)
  }

  predicate AtSomeEnd(p: Point, layout: seq<Branch>, trig: Trig)
  {
    exists j :: 0 <= j < |layout| && p == End(layout[j], trig)
  }

  /** Every leaf point is the end of some branch of the layout. */
  predicate LeavesAtEnds(leaves: seq<Point>, layout: seq<Branch>, trig: Trig)
  {
    forall i :: 0 <= i < |leaves| ==> AtSomeEnd(leaves[i], layout, trig)
  }

  lemma ChildIsChildOf(parent: Branch, n: nat, i: nat, b: Bud, trig: Trig)
    requires BudInRange(b, n)
    ensures ChildOf(parent, Child(parent, n, i, b, trig), trig)
  {
    ScaledByFactor(parent.length, b.lengthFactor, 0.6, 0.8);
    ScaledByFactor(parent.topWidth, b.widthFactor, 0.6, 0.8);
  }

  /** Appending a rooted layout whose first branch is a child of `a[0]` keeps it rooted. */
  lemma Graft(a: seq<Branch>, q: seq<Branch>, trig: Trig)
    requires |a| > 0 && |q| > 0
    requires Rooted(a, trig) && Rooted(q, trig) && ChildOf(a[0], q[0], trig)
    ensures Rooted(a + q, trig)
  {
    var r := a + q;
    forall k | 0 < k < |r|
      ensures HasParent(r, k, trig)
    {
      if k < |a| {
        assert HasParent(a, k, trig);
        var j :| 0 <= j < k && ChildOf(a[j], a[k], trig);
        assert r[j] == a[j] && r[k] == a[k];
      } else if k == |a| {
        assert r[0] == a[0] && r[k] == q[0];
      } else {
        var k' := k - |a|;
        assert HasParent(q, k', trig);
        var j' :| 0 <= j' < k' && ChildOf(q[j'], q[k'], trig);
        assert r[j' + |a|] == q[j'] && r[k] == q[k'];
      }
    }
  }

  lemma GraftLeaves(a: seq<Branch>, la: seq<Point>, q: seq<Branch>, lq: seq<Point>, trig: Trig)
    requires LeavesAtEnds(la, a, trig) && LeavesAtEnds(lq, q, trig)
    ensures LeavesAtEnds(la + lq, a + q, trig)
  {
    var r, lr := a + q, la + lq;
    forall i | 0 <= i < |lr|
      ensures AtSomeEnd(lr[i], r, trig)
    {
      if i < |la| {
        assert AtSomeEnd(la[i], a, trig);
        var j :| 0 <= j < |a| && la[i] == End(a[j], trig);
        assert lr[i] == la[i] && r[j] == a[j];
        assert 0 <= j < |r| && lr[i] == End(r[j], trig);
      } else {
        assert AtSomeEnd(lq[i - |la|], q, trig);
        var j :| 0 <= j < |q| && lq[i - |la|] == End(q[j], trig);
        assert lr[i] == lq[i - |la|] && r[j + |a|] == q[j];
        assert 0 <= j + |a| < |r| && lr[i] == End(r[j + |a|], trig);
      }
    }
  }

  /** The branch a call starts from, followed by everything it appends, is rooted at that
      branch, and every leaf point it records is the end of one of those branches. */
  lemma {:induction false} GrowLayout(parent: Branch, depth: int, s: Sprouts, trig: Trig)
    requires Fits(s, depth)
    ensures Rooted([parent] + Grow(parent, depth, s, trig).branches, trig)
    ensures LeavesAtEnds(Grow(parent, depth, s, trig).leaves, [parent] + Grow(parent, depth, s, trig).branches, trig)
    decreases s, |s.buds| + 1
  {
    var g := Grow(parent, depth, s, trig);
    if depth <= 0 {
      assert [parent] + g.branches == [parent];
      assert g.leaves[0] == End(([parent] + g.branches)[0], trig);
    } else {
      GrowKidsLayout(parent, depth, s, |s.buds|, trig);
    }
  }

  lemma {:induction false} GrowKidsLayout(parent: Branch, depth: int, s: Sprouts, n: nat, trig: Trig)
    requires depth > 0 && Fits(s, depth) && n <= |s.buds|
    ensures Rooted([parent] + GrowKids(parent, depth, s, n, trig).branches, trig)
    ensures LeavesAtEnds(GrowKids(parent, depth, s, n, trig).leaves, [parent] + GrowKids(parent, depth, s, n, trig).branches, trig)
    decreases s, n
  {
    var f := GrowKids(parent, depth, s, n, trig);
    if n == 0 {
      assert [parent] + f.branches == [parent];
    } else {
      var b := s.buds[n - 1];
      var c := Child(parent, |s.buds|, n - 1, b, trig);
      var f' := GrowKids(parent, depth, s, n - 1, trig);
      var g := Grow(c, depth - 1, b.next, trig);
      GrowKidsLayout(parent, depth, s, n - 1, trig);
      GrowLayout(c, depth - 1, b.next, trig);
      ChildIsChildOf(parent, |s.buds|, n - 1, b, trig);
      var a := [parent] + f'.branches;
      Graft(a, [c] + g.branches, trig);
      GraftLeaves(a, f'.leaves, [c] + g.branches, g.leaves, trig);
      assert [parent] + f.branches == a + ([c] + g.branches);
      assert f.leaves == f'.leaves + g.leaves;
    }
  }

  /** Every branch of a rooted layout whose first branch tapers to 0.3 tapers to 0.3. */
  lemma RootedTapers(layout: seq<Branch>, trig: Trig)
    requires Rooted(layout, trig) && |layout| > 0
    requires layout[0].topWidth == Taper * layout[0].bottomWidth
    ensures forall k :: 0 <= k < |layout| ==> layout[k].topWidth == Taper * layout[k].bottomWidth
  {
    forall k | 0 < k < |layout|
      ensures layout[k].topWidth == Taper * layout[k].bottomWidth
    {
      assert HasParent(layout, k, trig);
    }
  }

  /** The children of one call, both starting at the parent's end: a lone child (depth 1)
      is within 0.1 of the parent's angle; of two (depth > 1) the first comes at once with
      angle in [a - 0.3, a - 0.1] and the second follows the first one's whole subtree,
      at index 1 + C(depth - 1), with angle in [a + 0.1, a + 0.3]. */
  lemma Children(parent: Branch, depth: int, s: Sprouts, trig: Trig)
    requires depth > 0 && Fits(s, depth)
    ensures var b := Grow(parent, depth, s, trig).branches;
      var r := 1 + DescendantCount(depth - 1);
      |b| == NumChildren(depth) * r && b[0].start == End(parent, trig) &&
      (depth == 1 ==> parent.angle - 0.1 <= b[0].angle <= parent.angle + 0.1) &&
      (depth > 1 ==>
        parent.angle - 0.3 <= b[0].angle <= parent.angle - 0.1 &&
        b[r].start == End(parent, trig) &&
        parent.angle + 0.1 <= b[r].angle <= parent.angle + 0.3)
  {
    var first := Child(parent, |s.buds|, 0, s.buds[0], trig);
    GrowCounts(first, depth - 1, s.buds[0].next, trig);
    GrowKidsCounts(parent, depth, s, |s.buds|, trig);
    var f1 := GrowKids(parent, depth, s, 1, trig);
    assert GrowKids(parent, depth, s, 0, trig).branches == [];
    assert f1.branches == [first] + Grow(first, depth - 1, s.buds[0].next, trig).branches;
    assert |f1.branches| == 1 + DescendantCount(depth - 1);
    assert BudInRange(s.buds[0], |s.buds|);
    if depth > 1 {
      assert BudInRange(s.buds[1], |s.buds|);
    }
  }

  /** The depth-2 tree in full: trunk, first child and its only child, second child and
      its only child (pre-order), recording the ends of the two depth-1 children. */
  lemma DepthTwoLayout(t: Branch, s: Sprouts, trig: Trig)
    requires Fits(s, 2)
    ensures var g := Grow(t, 2, s, trig); var p := [t] + g.branches;
      |p| == 5 && p[1].start == End(p[0], trig) && p[2].start == End(p[1], trig) &&
      p[3].start == End(p[0], trig) && p[4].start == End(p[3], trig) &&
      g.leaves == [End(p[2], trig), End(p[4], trig)]
  {
    var b0, b1 := s.buds[0], s.buds[1];
    assert Fits(b0.next, 1) && Fits(b1.next, 1);
    var c0 := Child(t, 2, 0, b0, trig);
    var c1 := Child(t, 2, 1, b1, trig);
    var g0 := Child(c0, 1, 0, b0.next.buds[0], trig);
    var g1 := Child(c1, 1, 0, b1.next.buds[0], trig);
    assert Fits(b0.next.buds[0].next, 0) && Fits(b1.next.buds[0].next, 0);
    assert Grow(g0, 0, b0.next.buds[0].next, trig) == Yield([], [End(g0, trig)]);
    assert GrowKids(c0, 1, b0.next, 1, trig) == Yield([g0], [End(g0, trig)]);
    assert Grow(c0, 1, b0.next, trig) == Yield([g0], [End(g0, trig)]);
    assert Grow(g1, 0, b1.next.buds[0].next, trig) == Yield([], [End(g1, trig)]);
    assert GrowKids(c1, 1, b1.next, 1, trig) == Yield([g1], [End(g1, trig)]);
    assert Grow(c1, 1, b1.next, trig) == Yield([g1], [End(g1, trig)]);
    assert GrowKids(t, 2, s, 1, trig) == Yield([c0, g0], [End(g0, trig)]);
    assert Grow(t, 2, s, trig) == Yield([c0, g0, c1, g1], [End(g0, trig), End(g1, trig)]);
  }

  // ---------------------------------------------------------------------------
  // Tree
  // ---------------------------------------------------------------------------

  /** The complete branch list of a tree, trunk first, in generation order. */
  function Layout(base: Point, length: real, width: real, maxDepth: int, s: Sprouts, trig: Trig): seq<Branch>
    requires Fits(s, maxDepth)
  {
    [Trunk(base, length, width)] + Grow(Trunk(base, length, width), maxDepth, s, trig).branches
  }

  function Leaves(base: Point, length: real, width: real, maxDepth: int, s: Sprouts, trig: Trig): seq<Point>
    requires Fits(s, maxDepth)
  {
    Grow(Trunk(base, length, width), maxDepth, s, trig).leaves
  }

  /** A tree built with depth d holds 1 + C(d) branches and records L(d) leaf points; the
      layout is rooted at the trunk, every branch tapers to 0.3 and every leaf point is
      the end of a branch. */
  lemma TreeShape(base: Point, length: real, width: real, maxDepth: int, s: Sprouts, trig: Trig)
    requires Fits(s, maxDepth)
    ensures var layout := Layout(base, length, width, maxDepth, s, trig);
      var leaves := Leaves(base, length, width, maxDepth, s, trig);
      |layout| == 1 + DescendantCount(maxDepth) && |leaves| == LeafCount(maxDepth) &&
      Rooted(layout, trig) && LeavesAtEnds(leaves, layout, trig) &&
      (forall k :: 0 <= k < |layout| ==> layout[k].topWidth == Taper * layout[k].bottomWidth)
  {
    var t := Trunk(base, length, width);
    GrowCounts(t, maxDepth, s, trig);
    GrowLayout(t, maxDepth, s, trig);
    RootedTapers(Layout(base, length, width, maxDepth, s, trig), trig);
  }

  /** The centre tree started by key `n` (depth 4) has 23 branches and 8 leaf points. */
  lemma CenterTreeSize(base: Point, s: Sprouts, trig: Trig)
    requires Fits(s, 4)
    ensures |Layout(base, 80.0, 16.0, 4, s, trig)| == 23 && |Leaves(base, 80.0, 16.0, 4, s, trig)| == 8
  {
    TreeShape(base, 80.0, 16.0, 4, s, trig);
    KnownSizes();
  }

  /** A tree of the fast spawn (depth `random.randint(2, 4)`) has 5, 11 or 23 branches
      and 2, 4 or 8 leaf points. */
  lemma SpawnedTreeSizes(base: Point, length: real, width: real, maxDepth: int, s: Sprouts, trig: Trig)
    requires 2 <= maxDepth <= 4 && Fits(s, maxDepth)
    ensures var n := |Layout(base, length, width, maxDepth, s, trig)|;
      var l := |Leaves(base, length, width, maxDepth, s, trig)|;
      (maxDepth == 2 && n == 5 && l == 2) || (maxDepth == 3 && n == 11 && l == 4) ||
      (maxDepth == 4 && n == 23 && l == 8)
  {
    TreeShape(base, length, width, maxDepth, s, trig);
    KnownSizes();
  }

  class Tree {
    const basePosition: Point
    const length: real
    const maxDepth: int
    /** Every branch the tree will ever show, in generation order. */
    ghost const layout: seq<Branch>
    var drawnBranches: seq<Branch>
    var pendingBranches: seq<Branch>

    /** Nothing is created or lost: drawn followed by pending is the generated layout. */
    ghost predicate Valid()
      reads this
    {
      drawnBranches + pendingBranches == layout
    }

    function Queue(): Queues<Branch>
      reads this
    {
      Queues(drawnBranches, pendingBranches)
    }

    /** `Tree.__init__`: queue the upright trunk, then generate every descendant. */
    constructor (basePosition: Point, initialLength: real, initialWidth: real, maxDepth: int,
                 s: Sprouts, trig: Trig, pool: LeafPool)
      requires Fits(s, maxDepth)
      modifies pool
      ensures this.basePosition == basePosition && length == initialLength && this.maxDepth == maxDepth
      ensures Valid() && drawnBranches == [] && pendingBranches == layout
      ensures layout == Layout(basePosition, initialLength, initialWidth, maxDepth, s, trig)
      ensures pool.points == old(pool.points) + Leaves(basePosition, initialLength, initialWidth, maxDepth, s, trig)
    {
      this.basePosition := basePosition;
      length := initialLength;
      this.maxDepth := maxDepth;
      layout := Layout(basePosition, initialLength, initialWidth, maxDepth, s, trig);
      drawnBranches := [];
      pendingBranches := [];
      new;
      var trunk := Trunk(basePosition, initialLength, initialWidth);
      pendingBranches := pendingBranches + [trunk];
      GenerateChildren(trunk, maxDepth, s, trig, pool);
    }

    /** `generate_children`: appends the subtree below `parent` to the pending list in
        pre-order and one leaf point per depth-0 call to the pool. */
    method GenerateChildren(parent: Branch, depth: int, s: Sprouts, trig: Trig, pool: LeafPool)
      requires Fits(s, depth)
      modifies this`pendingBranches, pool
      ensures pendingBranches == old(pendingBranches) + Grow(parent, depth, s, trig).branches
      ensures pool.points == old(pool.points) + Grow(parent, depth, s, trig).leaves
      decreases s, |s.buds| + 1
    {
      if depth <= 0 {
        pool.points := pool.points + [End(parent, trig)];
        return;
      }
      var numChildren := if depth > 1 then 2 else 1;
      assert numChildren == |s.buds|;
      for i := 0 to numChildren
        invariant pendingBranches == old(pendingBranches) + GrowKids(parent, depth, s, i, trig).branches
        invariant pool.points == old(pool.points) + GrowKids(parent, depth, s, i, trig).leaves
      {
        GrowChild(parent, depth, s, i, trig, pool);
      }
    }

    /** One pass of the loop of `generate_children`: child i of `parent`, then everything
        below it. */
    method GrowChild(parent: Branch, depth: int, s: Sprouts, i: nat, trig: Trig, pool: LeafPool)
      requires depth > 0 && Fits(s, depth) && i < |s.buds|
      modifies this`pendingBranches, pool
      ensures var c := Child(parent, |s.buds|, i, s.buds[i], trig);
        pendingBranches == old(pendingBranches) + [c] + Grow(c, depth - 1, s.buds[i].next, trig).branches &&
        pool.points == old(pool.points) + Grow(c, depth - 1, s.buds[i].next, trig).leaves
      decreases s, i
    {
      var b := s.buds[i];
      var child := Child(parent, |s.buds|, i, b, trig);
      pendingBranches := pendingBranches + [child];
      GenerateChildren(child, depth - 1, b.next, trig, pool);
    }

    /** `Tree.update`: reveal the front pending branch, if any. Returns whether nothing is
        pending any more. */
    method Update() returns (finished: bool)
      requires Valid()
      modifies this`pendingBranches, this`drawnBranches
      ensures Valid()
      ensures Queue() == Reveal(old(Queue()))
      ensures old(pendingBranches) != [] ==>
        drawnBranches == old(drawnBranches) + [old(pendingBranches)[0]] &&
        pendingBranches == old(pendingBranches)[1..]
      ensures finished <==> pendingBranches == []
    {
      if pendingBranches != [] {
        var branch := pendingBranches[0];
        pendingBranches := pendingBranches[1..];
        drawnBranches := drawnBranches + [branch];
      }
      finished := pendingBranches == [];
    }
  }

  // ---------------------------------------------------------------------------
  // Fruit and butterflies
  // ---------------------------------------------------------------------------

  datatype FruitShape = Trapezoid | Diamond | Triangle

  class Fruit {
    /** Bottom centre of the fruit: the leaf point it was placed at. */
    const position: Point
    const size: real
    const shape: FruitShape
    var growth: real
    var fullyGrown: bool

    ghost predicate Valid()
      reads this
    {
      Sound(Progress())
    }

    function Progress(): Ripeness
      reads this
    {
      Ripeness(growth, fullyGrown)
    }

    constructor (position: Point, shape: FruitShape)
      ensures Valid() && this.position == position && this.shape == shape && size == FruitSize
      ensures growth == 0.0 && !fullyGrown
    {
      this.position := position;
      this.shape := shape;
      size := FruitSize;
      growth := 0.0;
      fullyGrown := false;
    }

    /** `Fruit.update`: one growth tick at rate 0.01. */
    method Update()
      requires Valid()
      modifies this`growth, this`fullyGrown
      ensures Valid()
      ensures Progress() == Ripen(old(Progress()), FruitGrowthRate)
      ensures growth >= old(growth)
      ensures old(fullyGrown) ==> growth == old(growth) && fullyGrown
    {
      if !fullyGrown {
        growth := growth + FruitGrowthRate;
        if growth >= 1.0 {
          growth := 1.0;
          fullyGrown := true;
        }
      }
    }
  }

  /** A fruit created and then updated 100 times is exactly fully grown; after 99 updates
      it is not yet. */
  lemma FruitRipensInOneHundredTicks()
    ensures RipenTimes(Unripe, FruitGrowthRate, 100) == Ripeness(1.0, true)
    ensures !RipenTimes(Unripe, FruitGrowthRate, 99).fullyGrown
  {
    RipenFromUnripe(FruitGrowthRate, 100);
    RipenFromUnripe(FruitGrowthRate, 99);
  }

  class Butterfly {
    var position: Point
    var velocity: Point
    var wingFlapTimer: real

    /** A butterfly at `position` with the velocity draws of its constructor. */
    constructor (position: Point, vx: real, vy: real)
      requires -2.0 <= vx <= 2.0 && -2.0 <= vy <= 2.0
      ensures this.position == position && velocity == Point(vx, vy) && wingFlapTimer == 0.0
    {
      this.position := position;
      velocity := Point(vx, vy);
      wingFlapTimer := 0.0;
    }
  }
}
