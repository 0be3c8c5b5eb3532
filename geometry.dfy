/** Points, branches and the shared pool of leaf points, common to both animations. */
module Geometry {

  /** A screen position (pixels, y growing downwards). */
  datatype Point = Point(x: real, y: real)

  /** The unit direction (cos a, sin a) of an angle a in radians. The model does not
      compute trigonometry: whoever builds a tree supplies this function. */
  type Trig = real -> Point

  /** A tapered branch segment; immutable once created. */
  datatype Branch = Branch(start: Point, angle: real, length: real, bottomWidth: real, topWidth: real)

  /** The far end of a branch: start + length * (cos angle, sin angle). For a unit
      direction it lies at distance `length` from the start. */
  function End(b: Branch, trig: Trig): (e: Point)
    ensures var d := trig(b.angle);
      d.x * d.x + d.y * d.y == 1.0 ==>
      (e.x - b.start.x) * (e.x - b.start.x) + (e.y - b.start.y) * (e.y - b.start.y) == b.length * b.length
  {
    var d := trig(b.angle);
    assert (b.length * d.x) * (b.length * d.x) + (b.length * d.y) * (b.length * d.y)
        == b.length * b.length * (d.x * d.x + d.y * d.y);
    Point(b.start.x + b.length * d.x, b.start.y + b.length * d.y)
  }

  /** `math.hypot(p - q) < 5`, stated on squares so that no square root is needed. */
  predicate Near(p: Point, q: Point)
  {
    (p.x - q.x) * (p.x - q.x) + (p.y - q.y) * (p.y - q.y) < 25.0
  }

  /** Python's `max` on two numbers. */
  function Max(a: real, b: real): (r: real)
    ensures r >= a && r >= b && (r == a || r == b)
  {
    if a >= b then a else b
  }

  /** `v` lies between `lo * x` and `hi * x`, whatever the sign of `x`: it is `x` scaled by
      some factor in [lo, hi]. */
  predicate Scaled(v: real, x: real, lo: real, hi: real)
  {
    if x >= 0.0 then lo * x <= v <= hi * x else hi * x <= v <= lo * x
  }

  lemma ScaledByFactor(x: real, u: real, lo: real, hi: real)
    requires lo <= u <= hi
    ensures Scaled(x * u, x, lo, hi)
  {
    if x >= 0.0 {
      assert x * lo <= x * u by { assert x * (u - lo) >= 0.0; }
      assert x * u <= x * hi by { assert x * (hi - u) >= 0.0; }
    } else {
      assert x * hi <= x * u by { assert x * (hi - u) <= 0.0; }
      assert x * u <= x * lo by { assert x * (u - lo) <= 0.0; }
    }
  }

  /** The leaf points with no fruit within distance 5, in pool order. */
  function Available(points: seq<Point>, fruitAt: seq<Point>): (r: seq<Point>)
    ensures |r| <= |points|
  {
    if points == [] then []
    else
      var rest := Available(points[..|points| - 1], fruitAt);
      var p := points[|points| - 1];
      if forall f :: f in fruitAt ==> !Near(p, f) then rest + [p] else rest
  }

  /** A point is available exactly when it is in the pool and no fruit is near it. */
  lemma {:induction false} AvailableMembers(points: seq<Point>, fruitAt: seq<Point>)
    ensures forall p :: p in Available(points, fruitAt) <==> p in points && forall f :: f in fruitAt ==> !Near(p, f)
  {
    if points != [] {
      AvailableMembers(points[..|points| - 1], fruitAt);
      assert points == points[..|points| - 1] + [points[|points| - 1]];
    }
  }

  /** `random.choice` over `n` candidates: the index a uniform draw `u` in [0, 1) selects. */
  function PickIndex(u: real, n: nat): (i: nat)
    requires 0.0 <= u < 1.0 && n > 0
    ensures i < n
  {
    assert u * n as real < n as real;
    (u * n as real).Floor
  }

  /** The entries at positions `i` and `j` of `s` are different objects. */
  predicate Differ<T(==)>(s: seq<T>, i: int, j: int)
    requires 0 <= i < |s| && 0 <= j < |s|
  {
    s[i] != s[j]
  }

  /** No two entries are the same object. */
  predicate Distinct<T(==)>(s: seq<T>)
  {
    forall i, j :: 0 <= i < j < |s| ==> Differ(s, i, j)
  }

  /** Entries at two different positions of a `Distinct` sequence differ. */
  lemma DistinctApart<T>(s: seq<T>)
    requires Distinct(s)
    ensures forall i, j :: 0 <= i < |s| && 0 <= j < |s| && i != j ==> s[i] != s[j]
  {
    forall i, j | 0 <= i < |s| && 0 <= j < |s| && i != j
      ensures s[i] != s[j]
    {
      if i < j { assert Differ(s, i, j); } else { assert Differ(s, j, i); }
    }
  }

  /** Appending an entry that does not occur keeps a sequence `Distinct`. */
  lemma DistinctAppend<T>(s: seq<T>, x: T)
    requires Distinct(s) && x !in s
    ensures Distinct(s + [x])
  {
    forall i, j | 0 <= i < j < |s| + 1
      ensures Differ(s + [x], i, j)
    {
      if j < |s| { assert Differ(s, i, j); }
    }
  }

  /** Dropping the first entry keeps a sequence `Distinct`. */
  lemma DistinctTail<T>(s: seq<T>)
    requires Distinct(s) && s != []
    ensures Distinct(s[1..])
  {
    forall i, j | 0 <= i < j < |s| - 1
      ensures Differ(s[1..], i, j)
    {
      assert Differ(s, i + 1, j + 1);
    }
  }

  /** The module-level `branch_points` list: every leaf endpoint any tree has recorded. */
  class LeafPool {
    var points: seq<Point>

    constructor ()
      ensures points == []
    {
      points := [];
    }
  }
}
