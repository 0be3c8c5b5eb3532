/** Trees, fruit and butterflies of the MIDI-driven "spooky" animation. */
module SpookyTree {
  import opened Geometry
  import opened Topology
  import opened Fifo
  import opened Ripening

  const InitialBranchDelay: real := 130.0
  const DelayDecayFactor: real := 0.95
  const MinBranchDelay: real := 50.0
  /** top_width = Taper * bottom_width for the trunk and every child. */
  const Taper: real := 0.8
  const FruitGrowthSpeed: real := 0.005
  const FruitSize: real := 12.0
  const ButterflyScaleFactor: real := 2.0

  /** The random draws one call of `generate_children` makes, together with those of the
      calls it makes in turn: nothing at depth 0, one angle offset and one limb at depth 1,
      two offsets and two limbs above. */
  datatype Sprouts =
    | Bare
    | Single(offset: real, limb: Limb)
    | Fork(leftOffset: real, rightOffset: real, left: Limb, right: Limb)

  /** The length and width factors drawn for one child, and the draws below it. */
  datatype Limb = Limb(lengthFactor: real, widthFactor: real, next: Sprouts)

  /** The draws match the recursion for `depth` and every draw lies in the range the
      script draws it from. */
  predicate Fits(s: Sprouts, depth: int)
    decreases s
  {
    if depth <= 0 then s == Bare
    else if depth > 1 then
      s.Fork? && -1.5 <= s.leftOffset <= -0.2 && 0.2 <= s.rightOffset <= 1.5 &&
      LimbInRange(s.left) && LimbInRange(s.right) &&
      Fits(s.left.next, depth - 1) && Fits(s.right.next, depth - 1)
    else
      s.Single? && -1.0 <= s.offset <= 1.0 && LimbInRange(s.limb) && Fits(s.limb.next, 0)
  }

  /** `random.uniform(0.6, 0.9)` for the length factor and for the width factor. */
  predicate LimbInRange(l: Limb)
  {
    0.6 <= l.lengthFactor <= 0.9 && 0.6 <= l.widthFactor <= 0.9
  }

  function Trunk(base: Point, angle: real, length: real, width: real): Branch
  {
    Branch(base, angle, length, width, width * Taper)
  }

  function Child(parent: Branch, angle: real, limb: Limb, trig: Trig): Branch
  {
    var w := parent.topWidth * limb.widthFactor;
    Branch(End(parent, trig), angle, parent.length * limb.lengthFactor, w, w * Taper)
  }

  /** What generation appends: branches to the tree's pending list and leaf points to the
      shared pool. */
  datatype Yield = Yield(branches: seq<Branch>, leaves: seq<Point>)

  function Join(a: Yield, b: Yield): Yield
  {
    Yield(a.branches + b.branches, a.leaves + b.leaves)
  }

  /** Everything `generate_children(parent, depth)` appends, in the order it appends it:
      at least one leaf point, and a branch exactly when depth remains. */
  function Grow(parent: Branch, depth: int, s: Sprouts, trig: Trig): (y: Yield)
    requires Fits(s, depth)
    ensures (y.branches == [] <==> depth <= 0) && |y.leaves| >= 1
    decreases s, 3
  {
    if depth <= 0 then Yield([], [End(parent, trig)])
    else if depth > 1 then GrowFork(parent, depth, s, 2, trig)
    else
      var c := Child(parent, parent.angle + s.offset, s.limb, trig);
      Join(Yield([c], []), Grow(c, depth - 1, s.limb.next, trig))
  }

  /** The angle of the i-th child of a fork, and the draws for it. */
  function ForkAngle(parent: Branch, s: Sprouts, i: int): real
    requires s.Fork?
  {
    if i == 0 then parent.angle + s.leftOffset else parent.angle + s.rightOffset
  }

  function ForkLimb(s: Sprouts, i: int): (l: Limb)
    requires s.Fork?
    ensures l < s && (i == 0 ==> l == s.left) && (i != 0 ==> l == s.right)
  {
    if i == 0 then s.left else s.right
  }

  /** What the first `n` iterations of the two-child loop append. */
  function GrowFork(parent: Branch, depth: int, s: Sprouts, n: nat, trig: Trig): (y: Yield)
    requires depth > 1 && Fits(s, depth) && n <= 2
    ensures (y.branches == [] <==> n == 0) && (n > 0 ==> |y.leaves| >= 1)
    decreases s, n
  {
    if n == 0 then Yield([], [])
    else
      var limb := ForkLimb(s, n - 1);
      var c := Child(parent, ForkAngle(parent, s, n - 1), limb, trig);
      Join(GrowFork(parent, depth, s, n - 1, trig), Join(Yield([c], []), Grow(c, depth - 1, limb.next, trig)))
  }

  // ---------------------------------------------------------------------------
  // Counting
  // ---------------------------------------------------------------------------

  /** Generation below a branch of remaining depth d appends C(d) branches and L(d) leaf
      points (the closed forms of Topology). */
  lemma {:induction false} GrowCounts(parent: Branch, depth: int, s: Sprouts, trig: Trig)
    requires Fits(s, depth)
    ensures |Grow(parent, depth, s, trig).branches| == DescendantCount(depth)
    ensures |Grow(parent, depth, s, trig).leaves| == LeafCount(depth)
    decreases s, 3
  {
    Recurrences(depth);
    if depth > 1 {
      GrowForkCounts(parent, depth, s, 2, trig);
    } else if depth == 1 {
      var c := Child(parent, parent.angle + s.offset, s.limb, trig);
      GrowCounts(c, depth - 1, s.limb.next, trig);
    }
  }

  lemma {:induction false} GrowForkCounts(parent: Branch, depth: int, s: Sprouts, n: nat, trig: Trig)
    requires depth > 1 && Fits(s, depth) && n <= 2
    ensures |GrowFork(parent, depth, s, n, trig).branches| == n * (1 + DescendantCount(depth - 1))
    ensures |GrowFork(parent, depth, s, n, trig).leaves| == n * LeafCount(depth - 1)
    decreases s, n
  {
    if n > 0 {
      var limb := ForkLimb(s, n - 1);
      var c := Child(parent, ForkAngle(parent, s, n - 1), limb, trig);
      GrowForkCounts(parent, depth, s, n - 1, trig);
      GrowCounts(c, depth - 1, limb.next, trig);
    }
  }

  // ---------------------------------------------------------------------------
  // Layout: every branch after the first starts at the end of an earlier one
  // ---------------------------------------------------------------------------

  /** `c` is a child of `p` as generation builds it: it starts at p's end, its angle is
      within 1.5 of p's, its length is p's scaled by [0.6, 0.9], its bottom width is
      p's top width scaled by [0.6, 0.9], and it tapers to 0.8 of that. */
  predicate ChildOf(p: Branch, c: Branch, trig: Trig)
  {
    c.start == End(p, trig) &&
    p.angle - 1.5 <= c.angle <= p.angle + 1.5 &&
    Scaled(c.length, p.length, 0.6, 0.9) &&
    Scaled(c.bottomWidth, p.topWidth, 0.6, 0.9) &&
    c.topWidth == Taper * c.bottomWidth
  }

  predicate HasParent(layout: seq<Branch>, k: int, trig: Trig)
    requires 0 <= k < |layout|
  {
    exists j :: 0 <= j < k && ChildOf(layout[j], layout[k], trig)
  }

  /** Every branch but the first is the child of a branch placed before it. */
  predicate Rooted(layout: seq<Branch>, trig: Trig)
  {
    forall k :: 0 < k < |layout| ==> HasParent(layout, k, trig)
  }

  /** Every leaf point is the end of some branch of the layout. */
  predicate LeavesAtEnds(leaves: seq<Point>, layout: seq<Branch>, trig: Trig)
  {
    forall i :: 0 <= i < |leaves| ==> AtSomeEnd(leaves[i], layout, trig)
  }

  predicate AtSomeEnd(p: Point, layout: seq<Branch>, trig: Trig)
  {
    exists j :: 0 <= j < |layout| && p == End(layout[j], trig)
  }

  lemma ChildIsChildOf(parent: Branch, angle: real, limb: Limb, trig: Trig)
    requires parent.angle - 1.5 <= angle <= parent.angle + 1.5
    requires LimbInRange(limb)
    ensures ChildOf(parent, Child(parent, angle, limb, trig), trig)
  {
    ScaledByFactor(parent.length, limb.lengthFactor, 0.6, 0.9);
    ScaledByFactor(parent.topWidth, limb.widthFactor, 0.6, 0.9);
  }

  /** Appending a rooted layout whose first branch is a child of `a[0]` keeps it rooted. */
  lemma Graft(a: seq<Branch>, q: seq<Branch>, trig: Trig)
    requires |a| > 0 && |q| > 0
    requires Rooted(a, trig) && Rooted(q, trig) && ChildOf(a[0], q[0], trig)
    ensures Rooted(a + q, trig)
  {
    var r := a + q;
    forall k | 0 < k < |r|
      ensures HasParent(r, k, trig)
    {
      if k < |a| {
        assert HasParent(a, k, trig);
        var j :| 0 <= j < k && ChildOf(a[j], a[k], trig);
        assert r[j] == a[j] && r[k] == a[k];
      } else if k == |a| {
        assert r[0] == a[0] && r[k] == q[0];
      } else {
        var k' := k - |a|;
        assert HasParent(q, k', trig);
        var j' :| 0 <= j' < k' && ChildOf(q[j'], q[k'], trig);
        assert r[j' + |a|] == q[j'] && r[k] == q[k'];
      }
    }
  }

  lemma GraftLeaves(a: seq<Branch>, la: seq<Point>, q: seq<Branch>, lq: seq<Point>, trig: Trig)
    requires LeavesAtEnds(la, a, trig) && LeavesAtEnds(lq, q, trig)
    ensures LeavesAtEnds(la + lq, a + q, trig)
  {
    var r, lr := a + q, la + lq;
    forall i | 0 <= i < |lr|
      ensures AtSomeEnd(lr[i], r, trig)
    {
      if i < |la| {
        assert AtSomeEnd(la[i], a, trig);
        var j :| 0 <= j < |a| && la[i] == End(a[j], trig);
        assert lr[i] == la[i] && r[j] == a[j];
        assert 0 <= j < |r| && lr[i] == End(r[j], trig);
      } else {
        assert AtSomeEnd(lq[i - |la|], q, trig);
        var j :| 0 <= j < |q| && lq[i - |la|] == End(q[j], trig);
        assert lr[i] == lq[i - |la|] && r[j + |a|] == q[j];
        assert 0 <= j + |a| < |r| && lr[i] == End(r[j + |a|], trig);
      }
    }
  }

  /** The branch a call starts from, followed by everything it appends, is rooted at that
      branch, and every leaf point it records is the end of one of those branches. */
  lemma {:induction false} GrowLayout(parent: Branch, depth: int, s: Sprouts, trig: Trig)
    requires Fits(s, depth)
    ensures Rooted([parent] + Grow(parent, depth, s, trig).branches, trig)
    ensures LeavesAtEnds(Grow(parent, depth, s, trig).leaves, [parent] + Grow(parent, depth, s, trig).branches, trig)
    decreases s, 3
  {
    var g := Grow(parent, depth, s, trig);
    if depth <= 0 {
      assert [parent] + g.branches == [parent];
      assert g.leaves[0] == End(([parent] + g.branches)[0], trig);
    } else if depth > 1 {
      GrowForkLayout(parent, depth, s, 2, trig);
    } else {
      var c := Child(parent, parent.angle + s.offset, s.limb, trig);
      var g' := Grow(c, depth - 1, s.limb.next, trig);
      GrowLayout(c, depth - 1, s.limb.next, trig);
      ChildIsChildOf(parent, parent.angle + s.offset, s.limb, trig);
      Graft([parent], [c] + g'.branches, trig);
      GraftLeaves([parent], [], [c] + g'.branches, g'.leaves, trig);
      assert [parent] + g.branches == [parent] + ([c] + g'.branches);
      assert g.leaves == [] + g'.leaves;
    }
  }

  lemma {:induction false} GrowForkLayout(parent: Branch, depth: int, s: Sprouts, n: nat, trig: Trig)
    requires depth > 1 && Fits(s, depth) && n <= 2
    ensures Rooted([parent] + GrowFork(parent, depth, s, n, trig).branches, trig)
    ensures LeavesAtEnds(GrowFork(parent, depth, s, n, trig).leaves, [parent] + GrowFork(parent, depth, s, n, trig).branches, trig)
    decreases s, n
  {
    var f := GrowFork(parent, depth, s, n, trig);
    if n == 0 {
      assert [parent] + f.branches == [parent];
    } else {
      var limb := ForkLimb(s, n - 1);
      var c := Child(parent, ForkAngle(parent, s, n - 1), limb, trig);
      var f' := GrowFork(parent, depth, s, n - 1, trig);
      var g := Grow(c, depth - 1, limb.next, trig);
      GrowForkLayout(parent, depth, s, n - 1, trig);
      GrowLayout(c, depth - 1, limb.next, trig);
      ChildIsChildOf(parent, ForkAngle(parent, s, n - 1), limb, trig);
      var a := [parent] + f'.branches;
      Graft(a, [c] + g.branches, trig);
      GraftLeaves(a, f'.leaves, [c] + g.branches, g.leaves, trig);
      assert [parent] + f.branches == a + ([c] + g.branches);
      assert f.leaves == f'.leaves + g.leaves;
    }
  }

  /** Every branch of a rooted layout whose first branch tapers to 0.8 tapers to 0.8. */
  lemma RootedTapers(layout: seq<Branch>, trig: Trig)
    requires Rooted(layout, trig) && |layout| > 0
    requires layout[0].topWidth == Taper * layout[0].bottomWidth
    ensures forall k :: 0 <= k < |layout| ==> layout[k].topWidth == Taper * layout[k].bottomWidth
  {
    forall k | 0 < k < |layout|
      ensures layout[k].topWidth == Taper * layout[k].bottomWidth
    {
      assert HasParent(layout, k, trig);
    }
  }

  /** The two children of a fork: the left one comes first and the right one follows the
      left one's whole subtree, at index 1 + C(depth - 1); both start at the parent's end,
      the left angle lies in [a - 1.5, a - 0.2] and the right one in [a + 0.2, a + 1.5]. */
  lemma ForkChildren(parent: Branch, depth: int, s: Sprouts, trig: Trig)
    requires depth > 1 && Fits(s, depth)
    ensures var b := Grow(parent, depth, s, trig).branches;
      var r := 1 + DescendantCount(depth - 1);
      |b| == 2 * r && b[0].start == End(parent, trig) && b[r].start == End(parent, trig) &&
      parent.angle - 1.5 <= b[0].angle <= parent.angle - 0.2 &&
      parent.angle + 0.2 <= b[r].angle <= parent.angle + 1.5
  {
    var left := Child(parent, ForkAngle(parent, s, 0), s.left, trig);
    GrowCounts(left, depth - 1, s.left.next, trig);
    GrowForkCounts(parent, depth, s, 2, trig);
    var f1 := GrowFork(parent, depth, s, 1, trig);
    assert GrowFork(parent, depth, s, 0, trig).branches == [];
    assert f1.branches == [left] + Grow(left, depth - 1, s.left.next, trig).branches;
    assert |f1.branches| == 1 + DescendantCount(depth - 1);
  }

  /** The depth-2 tree in full: trunk t, then its left child, the left child's only child,
      then the right child and its only child (pre-order), recording the ends of the two
      depth-1 children in that order. */
  lemma DepthTwoLayout(t: Branch, s: Sprouts, trig: Trig)
    requires Fits(s, 2)
    ensures var g := Grow(t, 2, s, trig); var p := [t] + g.branches;
      |p| == 5 && p[1].start == End(p[0], trig) && p[2].start == End(p[1], trig) &&
      p[3].start == End(p[0], trig) && p[4].start == End(p[3], trig) &&
      g.leaves == [End(p[2], trig), End(p[4], trig)]
  {
    var c0 := Child(t, ForkAngle(t, s, 0), s.left, trig);
    var c1 := Child(t, ForkAngle(t, s, 1), s.right, trig);
    var g0 := Child(c0, c0.angle + s.left.next.offset, s.left.next.limb, trig);
    var g1 := Child(c1, c1.angle + s.right.next.offset, s.right.next.limb, trig);
    assert Grow(c0, 1, s.left.next, trig) == Yield([g0], [End(g0, trig)]);
    assert Grow(c1, 1, s.right.next, trig) == Yield([g1], [End(g1, trig)]);
    assert GrowFork(t, 2, s, 1, trig) == Yield([c0, g0], [End(g0, trig)]);
    assert Grow(t, 2, s, trig) == Yield([c0, g0, c1, g1], [End(g0, trig), End(g1, trig)]);
  }

  // ---------------------------------------------------------------------------
  // Tree
  // ---------------------------------------------------------------------------

  /** `get_random_tree_params`: the trunk length, trunk width and depth a new tree is
      drawn with. */
  predicate TreeParams(length: real, width: real, maxDepth: int)
  {
    40.0 <= length <= 160.0 && 5.0 <= width <= 25.0 && (maxDepth == 2 || maxDepth == 6)
  }

  /** The complete branch list of a tree, trunk first, in generation order. */
  function Layout(base: Point, angle: real, length: real, width: real, maxDepth: int, s: Sprouts, trig: Trig): seq<Branch>
    requires Fits(s, maxDepth)
  {
    [Trunk(base, angle, length, width)] + Grow(Trunk(base, angle, length, width), maxDepth, s, trig).branches
  }

  /** A tree built with depth d holds 1 + C(d) branches and records L(d) leaf points; the
      layout is rooted at the trunk, every branch tapers to 0.8 and every leaf point is
      the end of a branch. */
  lemma TreeShape(base: Point, angle: real, length: real, width: real, maxDepth: int, s: Sprouts, trig: Trig)
    requires Fits(s, maxDepth)
    ensures var layout := Layout(base, angle, length, width, maxDepth, s, trig);
      var leaves := Grow(Trunk(base, angle, length, width), maxDepth, s, trig).leaves;
      |layout| == 1 + DescendantCount(maxDepth) && |leaves| == LeafCount(maxDepth) &&
      Rooted(layout, trig) && LeavesAtEnds(leaves, layout, trig) &&
      (forall k :: 0 <= k < |layout| ==> layout[k].topWidth == Taper * layout[k].bottomWidth)
  {
    var t := Trunk(base, angle, length, width);
    GrowCounts(t, maxDepth, s, trig);
    GrowLayout(t, maxDepth, s, trig);
    RootedTapers(Layout(base, angle, length, width, maxDepth, s, trig), trig);
  }

  /** With the parameters `get_random_tree_params` draws, a tree has 5 branches and 2 leaf
      points (depth 2) or 95 branches and 32 leaf points (depth 6). */
  lemma RandomTreeSizes(base: Point, angle: real, length: real, width: real, maxDepth: int, s: Sprouts, trig: Trig)
    requires TreeParams(length, width, maxDepth) && Fits(s, maxDepth)
    ensures var n := |Layout(base, angle, length, width, maxDepth, s, trig)|;
      var l := |Grow(Trunk(base, angle, length, width), maxDepth, s, trig).leaves|;
      (maxDepth == 2 && n == 5 && l == 2) || (maxDepth == 6 && n == 95 && l == 32)
  {
    TreeShape(base, angle, length, width, maxDepth, s, trig);
    KnownSizes();
  }

  class Tree {
    const basePosition: Point
    const initialAngle: real
    const maxDepth: int
    /** Every branch the tree will ever show, in generation order. */
    ghost const layout: seq<Branch>
    var pendingBranches: seq<Branch>
    var drawnBranches: seq<Branch>
    var branchGrowthDelay: real
    var lastBranchGrowthTime: int

    /** Nothing is created or lost: drawn followed by pending is the generated layout. */
    ghost predicate Valid()
      reads this
    {
      drawnBranches + pendingBranches == layout
    }

    function Queue(): Queues<Branch>
      reads this
    {
      Queues(drawnBranches, pendingBranches)
    }

    /** The reveal condition of `update`: something is pending and the effective delay
        (delay / speed factor) has elapsed. */
    predicate ReadyToGrow(currentTime: int, speedFactor: real)
      reads this
      requires speedFactor > 0.0
    {
      pendingBranches != [] && (currentTime - lastBranchGrowthTime) as real >= branchGrowthDelay / speedFactor
    }

    /** `Tree.__init__`: queue the trunk, then generate every descendant; `now` stands for
        `pygame.time.get_ticks()`. */
    constructor (basePosition: Point, initialAngle: real, length: real, width: real, maxDepth: int,
                 branchDelay: real, now: int, s: Sprouts, trig: Trig, pool: LeafPool)
      requires Fits(s, maxDepth)
      modifies pool
      ensures this.basePosition == basePosition && this.initialAngle == initialAngle && this.maxDepth == maxDepth
      ensures Valid() && drawnBranches == [] && pendingBranches == layout
      ensures layout == Layout(basePosition, initialAngle, length, width, maxDepth, s, trig)
      ensures pool.points == old(pool.points) + Grow(Trunk(basePosition, initialAngle, length, width), maxDepth, s, trig).leaves
      ensures branchGrowthDelay == branchDelay && lastBranchGrowthTime == now
    {
      this.basePosition := basePosition;
      this.initialAngle := initialAngle;
      this.maxDepth := maxDepth;
      layout := Layout(basePosition, initialAngle, length, width, maxDepth, s, trig);
      pendingBranches := [];
      drawnBranches := [];
      branchGrowthDelay := branchDelay;
      lastBranchGrowthTime := now;
      new;
      var trunk := Trunk(basePosition, initialAngle, length, width);
      pendingBranches := pendingBranches + [trunk];
      GenerateChildren(trunk, maxDepth, s, trig, pool);
    }

    /** `generate_children`: appends the subtree below `parent` to the pending list in
        pre-order and one leaf point per depth-0 call to the pool. */
    method GenerateChildren(parent: Branch, depth: int, s: Sprouts, trig: Trig, pool: LeafPool)
      requires Fits(s, depth)
      modifies this`pendingBranches, pool
      ensures pendingBranches == old(pendingBranches) + Grow(parent, depth, s, trig).branches
      ensures pool.points == old(pool.points) + Grow(parent, depth, s, trig).leaves
      decreases s, 3
    {
      if depth <= 0 {
        pool.points := pool.points + [End(parent, trig)];
        return;
      }
      if depth > 1 {
        var angles := [parent.angle + s.leftOffset, parent.angle + s.rightOffset];
        for i := 0 to 2
          invariant pendingBranches == old(pendingBranches) + GrowFork(parent, depth, s, i, trig).branches
          invariant pool.points == old(pool.points) + GrowFork(parent, depth, s, i, trig).leaves
        {
          GrowForkChild(parent, depth, s, i, angles[i], trig, pool);
        }
      } else {
        var child := Child(parent, parent.angle + s.offset, s.limb, trig);
        pendingBranches := pendingBranches + [child];
        GenerateChildren(child, depth - 1, s.limb.next, trig, pool);
      }
    }

    /** One pass of the two-child loop of `generate_children`: child i of `parent` at
        `angle`, then everything below it. */
    method GrowForkChild(parent: Branch, depth: int, s: Sprouts, i: nat, angle: real, trig: Trig, pool: LeafPool)
      requires depth > 1 && Fits(s, depth) && i < 2 && angle == ForkAngle(parent, s, i)
      modifies this`pendingBranches, pool
      ensures var c := Child(parent, angle, ForkLimb(s, i), trig);
        pendingBranches == old(pendingBranches) + [c] + Grow(c, depth - 1, ForkLimb(s, i).next, trig).branches &&
        pool.points == old(pool.points) + Grow(c, depth - 1, ForkLimb(s, i).next, trig).leaves
      decreases s, 2
    {
      var limb := ForkLimb(s, i);
      var child := Child(parent, angle, limb, trig);
      pendingBranches := pendingBranches + [child];
      GenerateChildren(child, depth - 1, limb.next, trig, pool);
    }

    /** `Tree.update`: when ready, reveal the front pending branch, restart the timer and
        decay the delay towards its floor; otherwise change nothing. Returns whether
        nothing is pending any more. */
    method Update(currentTime: int, speedFactor: real) returns (finished: bool)
      requires Valid() && speedFactor > 0.0
      modifies this`pendingBranches, this`drawnBranches, this`branchGrowthDelay, this`lastBranchGrowthTime
      ensures Valid()
      ensures old(ReadyToGrow(currentTime, speedFactor)) ==>
        Queue() == Reveal(old(Queue())) &&
        drawnBranches == old(drawnBranches) + [old(pendingBranches)[0]] &&
        lastBranchGrowthTime == currentTime &&
        branchGrowthDelay == Max(old(branchGrowthDelay) * DelayDecayFactor, MinBranchDelay)
      ensures !old(ReadyToGrow(currentTime, speedFactor)) ==>
        Queue() == old(Queue()) && lastBranchGrowthTime == old(lastBranchGrowthTime) &&
        branchGrowthDelay == old(branchGrowthDelay)
      ensures |drawnBranches| + |pendingBranches| == |layout|
      ensures finished <==> pendingBranches == []
    {
      var effectiveDelay := branchGrowthDelay / speedFactor;
      if pendingBranches != [] && (currentTime - lastBranchGrowthTime) as real >= effectiveDelay {
        var branch := pendingBranches[0];
        pendingBranches := pendingBranches[1..];
        drawnBranches := drawnBranches + [branch];
        lastBranchGrowthTime := currentTime;
        branchGrowthDelay := Max(branchGrowthDelay * DelayDecayFactor, MinBranchDelay);
      }
      finished := pendingBranches == [];
    }
  }

  /** One call of `Tree.update` at `currentTime` and `speedFactor`, as a relation between
      the tree before and after it: a tree that is ready reveals its front branch, restarts
      its timer and decays its delay; any other tree keeps its queue, timer and delay. */
  twostate predicate Grew(t: Tree, currentTime: int, speedFactor: real)
    requires speedFactor > 0.0
    reads t
  {
    if old(t.ReadyToGrow(currentTime, speedFactor)) then
      t.Queue() == Reveal(old(t.Queue())) && t.lastBranchGrowthTime == currentTime &&
      t.branchGrowthDelay == Max(old(t.branchGrowthDelay) * DelayDecayFactor, MinBranchDelay)
    else
      t.Queue() == old(t.Queue()) && t.lastBranchGrowthTime == old(t.lastBranchGrowthTime) &&
      t.branchGrowthDelay == old(t.branchGrowthDelay)
  }

  // ---------------------------------------------------------------------------
  // Fruit and butterflies
  // ---------------------------------------------------------------------------

  class Fruit {
    /** Bottom centre of the fruit: the leaf point it was placed at. */
    const position: Point
    const size: real
    /** Number of stacked trapezoids drawn, 2 or 3. */
    const parts: int
    var growth: real
    var fullyGrown: bool

    ghost predicate Valid()
      reads this
    {
      Sound(Ripeness(growth, fullyGrown)) && (parts == 2 || parts == 3)
    }

    function Progress(): Ripeness
      reads this
    {
      Ripeness(growth, fullyGrown)
    }

    constructor (position: Point, parts: int)
      requires parts == 2 || parts == 3
      ensures Valid() && this.position == position && this.parts == parts && size == FruitSize
      ensures growth == 0.0 && !fullyGrown
    {
      this.position := position;
      this.parts := parts;
      size := FruitSize;
      growth := 0.0;
      fullyGrown := false;
    }

    /** `Fruit.update`: one growth tick at rate 0.005. */
    method Update()
      requires Valid()
      modifies this`growth, this`fullyGrown
      ensures Valid()
      ensures Ripeness(growth, fullyGrown) == Ripen(old(Ripeness(growth, fullyGrown)), FruitGrowthSpeed)
      ensures growth >= old(growth)
      ensures old(fullyGrown) ==> growth == old(growth) && fullyGrown
    {
      if !fullyGrown {
        growth := growth + FruitGrowthSpeed;
        if growth >= 1.0 {
          growth := 1.0;
          fullyGrown := true;
        }
      }
    }
  }

  /** A fruit created and then updated 200 times is exactly fully grown; after 199 updates
      it is not yet. */
  lemma FruitRipensInTwoHundredTicks()
    ensures RipenTimes(Unripe, FruitGrowthSpeed, 200) == Ripeness(1.0, true)
    ensures !RipenTimes(Unripe, FruitGrowthSpeed, 199).fullyGrown
  {
    RipenFromUnripe(FruitGrowthSpeed, 200);
    RipenFromUnripe(FruitGrowthSpeed, 199);
  }

  class Butterfly {
    var position: Point
    var velocity: Point
    var wingFlapTimer: real
    const scale: real

    /** A butterfly at `position` with the velocity and scale draws of its constructor. */
    constructor (position: Point, vx: real, vy: real, scaleDraw: real)
      requires -2.0 <= vx <= 2.0 && -2.0 <= vy <= 2.0 && 0.8 <= scaleDraw <= 1.2
      ensures this.position == position && velocity == Point(vx, vy) && wingFlapTimer == 0.0
      ensures scale == ButterflyScaleFactor * scaleDraw
    {
      this.position := position;
      velocity := Point(vx, vy);
      wingFlapTimer := 0.0;
      scale := ButterflyScaleFactor * scaleDraw;
    }
  }
}
