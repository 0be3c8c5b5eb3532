/** The main loop of the keyboard-driven animation: key handling and the per-state
    updates of the module-level containers, gathered in one `Sim` object. */
module CalmGame {
  import opened Geometry
  import opened Fifo
  import opened Ripening
  import opened Phases
  import opened CalmTree

  const SlowTreeSpawnInterval: int := 1000
  const FastTreeSpawnInterval: int := 200
  const FruitSpawnInterval: int := 500
  const ButterflyTransformInterval: int := 100
  const CenterTreeLength: real := 80.0
  const CenterTreeWidth: real := 16.0
  const CenterTreeDepth: int := 4

  datatype Rgb = Rgb(r: int, g: int, b: int)

  /** The background colours key `s` cycles through; the first is the initial one. */
  const ScreenColors: seq<Rgb> := [Rgb(255, 255, 255), Rgb(240, 240, 255), Rgb(255, 240, 240)]

  // ---------------------------------------------------------------------------
  // Key handling
  // ---------------------------------------------------------------------------

  datatype Key = Escape | KeyN | KeyS | KeyC | OtherKey

  /** The pygame events the loop reacts to; any other event is ignored. */
  datatype Event = Quit | KeyDown(key: Key) | OtherEvent

  /** The part of the loop's state that events alone decide. */
  datatype Controls = Controls(state: int, screenIndex: int, running: bool)

  /** One event: quit and Escape stop the loop, `n` advances the phase, `s` cycles the
      background, `c` returns to phase 0; no event touches more than that. */
  function Step(c: Controls, e: Event): (r: Controls)
    ensures r.running <==> c.running && !Stops(e)
    ensures r.state == (if e == KeyDown(KeyN) then NextState(c.state) else if e == KeyDown(KeyC) then 0 else c.state)
    ensures r.screenIndex == (if e == KeyDown(KeyS) then (c.screenIndex + 1) % 3 else c.screenIndex)
  {
    match e
    case Quit => c.(running := false)
    case OtherEvent => c
    case KeyDown(k) =>
      match k
      case Escape => c.(running := false)
      case KeyN => c.(state := NextState(c.state))
      case KeyS => c.(screenIndex := (c.screenIndex + 1) % |ScreenColors|)
      case KeyC => c.(state := 0)
      case OtherKey => c
  }

  /** The controls after the events of one poll, handled in order. */
  function ControlsAfter(c: Controls, es: seq<Event>): Controls
  {
    if es == [] then c else Step(ControlsAfter(c, es[..|es| - 1]), es[|es| - 1])
  }

  /** How many of the events are presses of key `k`. */
  function Presses(es: seq<Event>, k: Key): nat
  {
    if es == [] then 0 else Presses(es[..|es| - 1], k) + (if es[|es| - 1] == KeyDown(k) then 1 else 0)
  }

  /** The index of the first press of key `k`. */
  function FirstPress(es: seq<Event>, k: Key): (r: nat)
    requires Presses(es, k) > 0
    ensures r < |es| && es[r] == KeyDown(k) && Presses(es[..r], k) == 0
  {
    if Presses(es[..|es| - 1], k) > 0 then
      var r := FirstPress(es[..|es| - 1], k);
      assert es[..|es| - 1][..r] == es[..r];
      r
    else
      |es| - 1
  }

  /** How the controls, the press counts and the first press change when a poll grows by
      one event. */
  lemma PollStep(c: Controls, es: seq<Event>, i: int, k: Key)
    requires 0 <= i < |es|
    ensures ControlsAfter(c, es[..i + 1]) == Step(ControlsAfter(c, es[..i]), es[i])
    ensures Presses(es[..i + 1], k) == Presses(es[..i], k) + (if es[i] == KeyDown(k) then 1 else 0)
    ensures Presses(es[..i], k) > 0 ==> FirstPress(es[..i + 1], k) == FirstPress(es[..i], k)
    ensures Presses(es[..i], k) == 0 && es[i] == KeyDown(k) ==> FirstPress(es[..i + 1], k) == i
  {
    assert es[..i + 1][..i] == es[..i];
  }

  predicate Stops(e: Event)
  {
    e == Quit || e == KeyDown(Escape)
  }

  function StopCount(es: seq<Event>): nat
  {
    if es == [] then 0 else StopCount(es[..|es| - 1]) + (if Stops(es[|es| - 1]) then 1 else 0)
  }

  /** Handling two batches one after the other is handling their concatenation. */
  lemma {:induction false} ControlsAfterAppend(c: Controls, a: seq<Event>, b: seq<Event>)
    ensures ControlsAfter(c, a + b) == ControlsAfter(ControlsAfter(c, a), b)
    decreases |b|
  {
    if b != [] {
      assert (a + b)[..|a + b| - 1] == a + b[..|b| - 1];
      assert (a + b)[|a + b| - 1] == b[|b| - 1];
      ControlsAfterAppend(c, a, b[..|b| - 1]);
    } else {
      assert a + b == a;
    }
  }

  /** The background index is the start index plus the number of `s` presses, modulo 3;
      no other key, `c` included, moves it. */
  lemma {:induction false} ScreenIndexCycles(c: Controls, es: seq<Event>)
    requires 0 <= c.screenIndex < |ScreenColors|
    ensures ControlsAfter(c, es).screenIndex == (c.screenIndex + Presses(es, KeyS)) % 3
  {
    if es != [] {
      ScreenIndexCycles(c, es[..|es| - 1]);
      var n := Presses(es[..|es| - 1], KeyS);
      assert ((c.screenIndex + n) % 3 + 1) % 3 == (c.screenIndex + n + 1) % 3;
    }
  }

  /** Without a `c`, every `n` advances the phase by one until it reaches 3 and nothing
      else moves it: the phase never decreases. */
  lemma {:induction false} PhaseWithoutClear(c: Controls, es: seq<Event>)
    requires 0 <= c.state <= 3 && Presses(es, KeyC) == 0
    ensures ControlsAfter(c, es).state == MinInt(3, c.state + Presses(es, KeyN))
  {
    if es != [] {
      PhaseWithoutClear(c, es[..|es| - 1]);
    }
  }

  /** After the last `c` of a poll, the phase counts only the `n` presses that follow it. */
  lemma ClearRestarts(c: Controls, a: seq<Event>, b: seq<Event>)
    requires Presses(b, KeyC) == 0
    ensures ControlsAfter(c, a + [KeyDown(KeyC)] + b).state == MinInt(3, Presses(b, KeyN))
  {
    ControlsAfterAppend(c, a + [KeyDown(KeyC)], b);
    var mid := ControlsAfter(c, a + [KeyDown(KeyC)]);
    assert (a + [KeyDown(KeyC)])[..|a|] == a;
    assert mid.state == 0;
    PhaseWithoutClear(mid, b);
  }

  /** The loop keeps running exactly when it was running and no quit event or Escape
      press came. */
  lemma {:induction false} RunningUntilStopped(c: Controls, es: seq<Event>)
    ensures ControlsAfter(c, es).running <==> c.running && StopCount(es) == 0
  {
    if es != [] {
      RunningUntilStopped(c, es[..|es| - 1]);
    }
  }

  // ---------------------------------------------------------------------------
  // New trees
  // ---------------------------------------------------------------------------

  /** The random draws behind one tree of the fast spawn: the x coordinate, length,
      width and depth, and the draws of its generation. */
  datatype TreeSeed = TreeSeed(x: int, length: real, width: real, maxDepth: int, sprouts: Sprouts)

  /** Each draw within its range: `random.randint(50, w - 50)`, `uniform(50, 100)`,
      `uniform(12, 20)`, `randint(2, 4)`. */
  predicate SeedFits(seed: TreeSeed, screenWidth: int)
  {
    50 <= seed.x <= screenWidth - 50 && 50.0 <= seed.length <= 100.0 && 12.0 <= seed.width <= 20.0 &&
    2 <= seed.maxDepth <= 4 && Fits(seed.sprouts, seed.maxDepth)
  }

  function Positions(fruits: seq<Fruit>): (r: seq<Point>)
    ensures |r| == |fruits| && forall i :: 0 <= i < |fruits| ==> r[i] == fruits[i].position
  {
    if fruits == [] then [] else [fruits[0].position] + Positions(fruits[1..])
  }

  /** A free point is a leaf point with no fruit of `fruits` near it. */
  lemma FreeIsApart(points: seq<Point>, fruits: seq<Fruit>, p: Point)
    requires p in Available(points, Positions(fruits))
    ensures p in points && forall f :: f in fruits ==> !Near(p, f.position)
  {
    AvailableMembers(points, Positions(fruits));
    forall f | f in fruits
      ensures !Near(p, f.position)
    {
      var i :| 0 <= i < |fruits| && fruits[i] == f;
      assert Positions(fruits)[i] == f.position;
    }
  }

  /** Every tree of `ts` has revealed its next branch once. */
  twostate predicate AllRevealed(ts: seq<Tree>)
    reads ts
  {
    forall k :: 0 <= k < |ts| ==> ts[k].Queue() == Reveal(old(ts[k].Queue()))
  }

  /** No tree of `ts` has revealed a branch. */
  twostate predicate NoneRevealed(ts: seq<Tree>)
    reads ts
  {
    forall k :: 0 <= k < |ts| ==> ts[k].Queue() == old(ts[k].Queue())
  }

  /** Every fruit of `fs` has ripened by one tick. */
  twostate predicate AllRipened(fs: seq<Fruit>)
    reads fs
  {
    forall k :: 0 <= k < |fs| ==> fs[k].Progress() == Ripen(old(fs[k].Progress()), FruitGrowthRate)
  }

  /** No fruit of `fs` has ripened. */
  twostate predicate NoneRipened(fs: seq<Fruit>)
    reads fs
  {
    forall k :: 0 <= k < |fs| ==> fs[k].Progress() == old(fs[k].Progress())
  }

  // ---------------------------------------------------------------------------
  // The simulation state: the script's module-level globals
  // ---------------------------------------------------------------------------

  class Sim {
    const screenWidth: int
    const screenHeight: int
    const trig: Trig
    /** `branch_points`. */
    const branchPoints: LeafPool
    var trees: seq<Tree>
    var fruits: seq<Fruit>
    var butterflies: seq<Butterfly>
    /** 0 waiting, 1 tree growth, 2 fruit growth, 3 butterflies. */
    var state: int
    var currentScreenIndex: int
    var bgColor: Rgb
    var running: bool
    var lastTreeSpawnTime: int
    var lastFruitSpawnTime: int
    var lastButterflyTransformTime: int

    function Current(): Controls
      reads this`state, this`currentScreenIndex, this`running
    {
      Controls(state, currentScreenIndex, running)
    }

    /** The object invariant: nothing grows in phase 0, a tree exists from phase 1 on,
        fruit only from phase 2 on and butterflies only in phase 3 (the phase moves up one
        step at a time, and only `c`, which empties everything, moves it back); the
        background is the colour the index names, and every tree and fruit is sound. */
    ghost predicate Valid()
      reads this`trees, this`fruits, this`butterflies, this`state, this`currentScreenIndex, this`bgColor,
            trees, fruits, branchPoints
    {
      Sound() && (state != 0 ==> trees != []) &&
      (state == 0 ==> trees == [] && branchPoints.points == []) &&
      (state <= 1 ==> fruits == []) && (state <= 2 ==> butterflies == [])
    }

    ghost predicate Sound()
      reads this`trees, this`fruits, this`state, this`currentScreenIndex, this`bgColor, trees, fruits
    {
      0 <= screenWidth && 0 <= screenHeight && 0 <= state <= 3 &&
      0 <= currentScreenIndex < |ScreenColors| && bgColor == ScreenColors[currentScreenIndex] &&
      Distinct(trees) && (forall i :: 0 <= i < |trees| ==> trees[i].Valid()) &&
      Distinct(fruits) && (forall i :: 0 <= i < |fruits| ==> fruits[i].Valid())
    }

    /** The state at start-up; `now` is the tick count the three timers start from. */
    constructor (screenWidth: int, screenHeight: int, trig: Trig, now: int)
      requires 0 <= screenWidth && 0 <= screenHeight
      ensures Valid() && fresh(branchPoints) && branchPoints.points == []
      ensures this.screenWidth == screenWidth && this.screenHeight == screenHeight && this.trig == trig
      ensures trees == [] && fruits == [] && butterflies == []
      ensures Current() == Controls(0, 0, true) && bgColor == Rgb(255, 255, 255)
      ensures lastTreeSpawnTime == now && lastFruitSpawnTime == now && lastButterflyTransformTime == now
    {
      this.screenWidth := screenWidth;
      this.screenHeight := screenHeight;
      this.trig := trig;
      branchPoints := new LeafPool();
      trees, fruits, butterflies := [], [], [];
      state := 0;
      currentScreenIndex := 0;
      bgColor := Rgb(255, 255, 255);
      running := true;
      lastTreeSpawnTime, lastFruitSpawnTime, lastButterflyTransformTime := now, now, now;
    }

    /** Where key `n` starts the centre tree: the middle of the bottom edge. */
    function CenterBase(): Point
    {
      Point((screenWidth / 2) as real, screenHeight as real)
    }

    /** Where the fast spawn plants the tree of `seed`: at its x on the bottom edge. */
    function SeedBase(seed: TreeSeed): Point
    {
      Point(seed.x as real, screenHeight as real)
    }

    /** `t` is `Tree(base, length, width, depth)` for the draws `s`, with none of its
        branches revealed yet. */
    ghost predicate PlantedAt(t: Tree, base: Point, length: real, width: real, depth: int, s: Sprouts)
      requires Fits(s, depth)
      reads t
    {
      t.basePosition == base && t.length == length && t.maxDepth == depth && t.drawnBranches == [] &&
      t.pendingBranches == Layout(base, length, width, depth, s, trig)
    }

    /** When `planted`, `after` is `before` followed by that tree, and the pool is
        `poolBefore` followed by its leaf points; otherwise neither has changed. */
    ghost predicate Planted(before: seq<Tree>, poolBefore: seq<Point>, after: seq<Tree>,
                            base: Point, length: real, width: real, depth: int, s: Sprouts, planted: bool)
      requires Fits(s, depth)
      reads after, branchPoints
    {
      (planted ==>
        |after| == |before| + 1 && after[..|before|] == before &&
        PlantedAt(after[|after| - 1], base, length, width, depth, s) &&
        branchPoints.points == poolBefore + Leaves(base, length, width, depth, s, trig)) &&
      (!planted ==> after == before && branchPoints.points == poolBefore)
    }

    /** `trees.append(Tree(base, length, width, max_depth))`. */
    method AddTree(base: Point, length: real, width: real, maxDepth: int, s: Sprouts) returns (t: Tree)
      requires Sound() && Fits(s, maxDepth)
      modifies this`trees, branchPoints
      ensures Sound() && fresh(t) && trees == old(trees) + [t]
      ensures PlantedAt(t, base, length, width, maxDepth, s)
      ensures branchPoints.points == old(branchPoints.points) + Leaves(base, length, width, maxDepth, s, trig)
    {
      t := new Tree(base, length, width, maxDepth, s, trig, branchPoints);
      DistinctAppend(trees, t);
      trees := trees + [t];
    }

    /** Key `n`: the next phase; leaving phase 0 also starts the centre tree (80 long,
        16 wide, depth 4) at the bottom middle. */
    method PressN(s: Sprouts)
      requires Valid() && Fits(s, CenterTreeDepth)
      modifies this`trees, this`state, branchPoints
      ensures Valid() && state == NextState(old(state))
      ensures Planted(old(trees), old(branchPoints.points), trees, CenterBase(), CenterTreeLength, CenterTreeWidth,
                      CenterTreeDepth, s, old(state) == 0)
      ensures forall k :: 0 <= k < |trees| ==> trees[k] in old(trees) || fresh(trees[k])
    {
      if state == 0 {
        state := 1;
        var centerTree := AddTree(CenterBase(), CenterTreeLength, CenterTreeWidth, CenterTreeDepth, s);
      } else if state == 1 {
        state := 2;
      } else if state == 2 {
        state := 3;
      }
    }

    /** Key `c`: back to phase 0 with trees, fruit, butterflies and leaf points emptied. */
    method Clear()
      requires Valid()
      modifies this`trees, this`fruits, this`butterflies, this`state, branchPoints
      ensures Valid() && state == 0
      ensures trees == [] && fruits == [] && butterflies == [] && branchPoints.points == []
    {
      trees := [];
      fruits := [];
      butterflies := [];
      branchPoints.points := [];
      state := 0;
    }

    /** One event (the body of the loop over `pygame.event.get()`). Key `n` in phase 0
        also starts the centre tree (80 long, 16 wide, depth 4) at the bottom middle;
        key `c` empties trees, fruit, butterflies and leaf points. */
    method HandleEvent(e: Event, s: Sprouts)
      requires Valid() && Fits(s, CenterTreeDepth)
      modifies this`trees, this`fruits, this`butterflies, this`state, this`currentScreenIndex,
               this`bgColor, this`running, branchPoints
      ensures Valid()
      ensures Current() == Step(old(Current()), e)
      ensures e == KeyDown(KeyC) ==>
        trees == [] && fruits == [] && butterflies == [] && branchPoints.points == []
      ensures e != KeyDown(KeyC) ==>
        Planted(old(trees), old(branchPoints.points), trees, CenterBase(), CenterTreeLength, CenterTreeWidth,
                CenterTreeDepth, s, e == KeyDown(KeyN) && old(state) == 0) &&
        fruits == old(fruits) && butterflies == old(butterflies)
      ensures forall k :: 0 <= k < |trees| ==> trees[k] in old(trees) || fresh(trees[k])
    {
      match e
      case Quit =>
        running := false;
      case OtherEvent =>
      case KeyDown(k) =>
        match k {
          case Escape =>
            running := false;
          case KeyN =>
            PressN(s);
          case KeyS =>
            currentScreenIndex := (currentScreenIndex + 1) % |ScreenColors|;
            bgColor := ScreenColors[currentScreenIndex];
          case KeyC =>
            Clear();
          case OtherKey =>
        }
    }

    /** What handling the prefix `es` of a poll has done, from the controls `c0`, trees
        `trees0`, pool `pool0`, fruit `fruits0` and butterflies `flock0` it started with:
        without a `c` so far, the first `n` seen in phase 0 planted the centre tree of its
        draws and nothing else changed trees, pool, fruit or butterflies; after a `c`, no
        fruit and no butterflies remain. */
    ghost predicate PolledSoFar(c0: Controls, trees0: seq<Tree>, pool0: seq<Point>, fruits0: seq<Fruit>,
                                flock0: seq<Butterfly>, es: seq<Event>, draws: seq<Sprouts>)
      requires |es| <= |draws| && forall i :: 0 <= i < |draws| ==> Fits(draws[i], CenterTreeDepth)
      reads this`state, this`currentScreenIndex, this`running, this`trees, this`fruits, this`butterflies,
            trees, branchPoints
    {
      Current() == ControlsAfter(c0, es) &&
      (Presses(es, KeyC) == 0 && c0.state == 0 && Presses(es, KeyN) > 0 ==>
        Planted(trees0, pool0, trees, CenterBase(), CenterTreeLength, CenterTreeWidth,
                CenterTreeDepth, draws[FirstPress(es, KeyN)], true)) &&
      (Presses(es, KeyC) == 0 && !(c0.state == 0 && Presses(es, KeyN) > 0) ==>
        trees == trees0 && branchPoints.points == pool0) &&
      (Presses(es, KeyC) == 0 ==> fruits == fruits0 && butterflies == flock0) &&
      (Presses(es, KeyC) > 0 ==> fruits == [] && butterflies == [])
    }

    /** Event i of the poll `es`, extending what the first i events did by one. */
    method PollEvent(es: seq<Event>, draws: seq<Sprouts>, i: nat, ghost c0: Controls, ghost trees0: seq<Tree>,
                     ghost pool0: seq<Point>, ghost fruits0: seq<Fruit>, ghost flock0: seq<Butterfly>)
      requires Valid() && i < |es| == |draws| && forall j :: 0 <= j < |draws| ==> Fits(draws[j], CenterTreeDepth)
      requires 0 <= c0.state <= 3 && PolledSoFar(c0, trees0, pool0, fruits0, flock0, es[..i], draws)
      modifies this`trees, this`fruits, this`butterflies, this`state, this`currentScreenIndex,
               this`bgColor, this`running, branchPoints
      ensures Valid() && PolledSoFar(c0, trees0, pool0, fruits0, flock0, es[..i + 1], draws)
      ensures forall k :: 0 <= k < |trees| ==> trees[k] in old(trees) || fresh(trees[k])
    {
      PollStep(c0, es, i, KeyC);
      PollStep(c0, es, i, KeyN);
      if Presses(es[..i], KeyC) > 0 || es[i] == KeyDown(KeyC) {
        HandleEvent(es[i], draws[i]);
      } else {
        PhaseWithoutClear(c0, es[..i]);
        HandleEvent(es[i], draws[i]);
      }
    }

    /** The events of one poll, in order; `draws[i]` are the draws of the centre tree
        should event i start one. Without a `c` in the poll, the first `n` seen in phase 0
        plants the centre tree of its draws and nothing else adds one; with a `c`, the poll
        leaves no fruit and no butterflies. */
    method HandleEvents(es: seq<Event>, draws: seq<Sprouts>)
      requires Valid() && |draws| == |es| && forall i :: 0 <= i < |draws| ==> Fits(draws[i], CenterTreeDepth)
      modifies this`trees, this`fruits, this`butterflies, this`state, this`currentScreenIndex,
               this`bgColor, this`running, branchPoints
      ensures Valid()
      ensures Current() == ControlsAfter(old(Current()), es)
      ensures Presses(es, KeyC) == 0 && old(state) == 0 && Presses(es, KeyN) > 0 ==>
        Planted(old(trees), old(branchPoints.points), trees, CenterBase(), CenterTreeLength, CenterTreeWidth,
                CenterTreeDepth, draws[FirstPress(es, KeyN)], true)
      ensures Presses(es, KeyC) == 0 && !(old(state) == 0 && Presses(es, KeyN) > 0) ==>
        trees == old(trees) && branchPoints.points == old(branchPoints.points)
      ensures Presses(es, KeyC) == 0 ==> fruits == old(fruits) && butterflies == old(butterflies)
      ensures Presses(es, KeyC) > 0 ==> fruits == [] && butterflies == []
      ensures forall k :: 0 <= k < |trees| ==> trees[k] in old(trees) || fresh(trees[k])
    {
      for i := 0 to |es|
        invariant Valid()
        invariant PolledSoFar(old(Current()), old(trees), old(branchPoints.points), old(fruits), old(butterflies), es[..i], draws)
        invariant forall k :: 0 <= k < |trees| ==> trees[k] in old(trees) || fresh(trees[k])
      {
        PollEvent(es, draws, i, old(Current()), old(trees), old(branchPoints.points), old(fruits), old(butterflies));
      }
      assert es[..|es|] == es;
    }

    /** `for tree in trees: tree.update()`: every tree reveals its next branch. */
    method UpdateTrees()
      requires Valid()
      modifies trees
      ensures Valid()
      ensures AllRevealed(trees)
    {
      DistinctApart(trees);
      for i := 0 to |trees|
        invariant Valid()
        invariant forall k :: 0 <= k < i ==> trees[k].Queue() == Reveal(old(trees[k].Queue()))
        invariant forall k :: i <= k < |trees| ==> trees[k].Queue() == old(trees[k].Queue())
      {
        var _ := trees[i].Update();
      }
    }

    /** Phase 1: every tree grows by one branch; once the first tree is complete, a tree
        of random size appears at a random x on the bottom edge every 200 ms. The slow
        spawn the script reserves for an empty forest cannot happen in this phase, so a
        tree is added exactly when the first one is complete and the fast timer is due. */
    method AnimateGrowth(now: int, seed: TreeSeed)
      requires Valid() && state == 1 && SeedFits(seed, screenWidth)
      modifies this`trees, this`lastTreeSpawnTime, branchPoints, trees
      ensures Valid()
      ensures AllRevealed(old(trees))
      ensures Planted(old(trees), old(branchPoints.points), trees, SeedBase(seed), seed.length, seed.width,
                      seed.maxDepth, seed.sprouts, SpawnDue(trees[0], now - old(lastTreeSpawnTime)))
      ensures lastTreeSpawnTime == (if SpawnDue(trees[0], now - old(lastTreeSpawnTime)) then now else old(lastTreeSpawnTime))
      ensures forall k :: 0 <= k < |trees| ==> trees[k] in old(trees) || fresh(trees[k])
    {
      UpdateTrees();
      if trees != [] && trees[0].pendingBranches == [] {
        if now - lastTreeSpawnTime > FastTreeSpawnInterval {
          var newTree := AddTree(SeedBase(seed), seed.length, seed.width, seed.maxDepth, seed.sprouts);
          lastTreeSpawnTime := now;
        }
      } else {
        if now - lastTreeSpawnTime > SlowTreeSpawnInterval && |trees| < 1 {
          // Phase 1 always has a tree, so this branch of the script never runs.
          assert false;
        }
      }
    }

    /** Whether phase 1 plants a tree: the first tree is complete and more than 200 ms
        have `elapsed` since the last spawn. */
    predicate SpawnDue(first: Tree, elapsed: int)
      reads first
    {
      first.pendingBranches == [] && elapsed > FastTreeSpawnInterval
    }

    predicate FruitDue(now: int)
      reads this`lastFruitSpawnTime
    {
      now - lastFruitSpawnTime > FruitSpawnInterval
    }

    /** The spawn step from the fruit `before` and timer `timerBefore`: when due and some
        leaf point has no fruit within distance 5, a fruit of `shape` is appended at the
        `pick`-th such point; otherwise the fruit is as before. The timer restarts
        whenever the step was due. */
    ghost predicate FruitSpawned(before: seq<Fruit>, timerBefore: int, now: int, pick: real, shape: FruitShape)
      requires 0.0 <= pick < 1.0
      reads this`fruits, this`lastFruitSpawnTime, branchPoints
    {
      var free := Available(branchPoints.points, Positions(before));
      var due := now - timerBefore > FruitSpawnInterval;
      var placed := due && free != [];
      (placed ==>
        |fruits| == |before| + 1 && fruits[..|before|] == before &&
        fruits[|fruits| - 1].position == free[PickIndex(pick, |free|)] && fruits[|fruits| - 1].shape == shape) &&
      (!placed ==> fruits == before) &&
      lastFruitSpawnTime == (if due then now else timerBefore)
    }

    /** The fruit phase's spawn step: every 500 ms, place a fruit of the drawn shape at
        the `pick`-th leaf point with no fruit within distance 5 (if there is one), and
        restart the timer either way. */
    method SpawnFruit(now: int, pick: real, shape: FruitShape)
      requires Valid() && state == 2 && 0.0 <= pick < 1.0
      modifies this`fruits, this`lastFruitSpawnTime
      ensures Valid()
      ensures FruitSpawned(old(fruits), old(lastFruitSpawnTime), now, pick, shape)
      ensures |fruits| > |old(fruits)| ==>
        fresh(fruits[|fruits| - 1]) && fruits[|fruits| - 1].Progress() == Unripe &&
        fruits[|fruits| - 1].position in branchPoints.points &&
        forall f :: f in old(fruits) ==> !Near(fruits[|fruits| - 1].position, f.position)
    {
      if now - lastFruitSpawnTime > FruitSpawnInterval {
        var availablePoints := Available(branchPoints.points, Positions(fruits));
        if availablePoints != [] {
          var pt := availablePoints[PickIndex(pick, |availablePoints|)];
          FreeIsApart(branchPoints.points, fruits, pt);
          var newFruit := new Fruit(pt, shape);
          DistinctAppend(fruits, newFruit);
          fruits := fruits + [newFruit];
        }
        lastFruitSpawnTime := now;
      }
    }

    /** `for fruit in fruits: fruit.update()`. */
    method UpdateFruits()
      requires Valid()
      modifies fruits
      ensures Valid()
      ensures AllRipened(fruits)
    {
      DistinctApart(fruits);
      for i := 0 to |fruits|
        invariant Valid()
        invariant forall k :: 0 <= k < i ==> fruits[k].Progress() == Ripen(old(fruits[k].Progress()), FruitGrowthRate)
        invariant forall k :: i <= k < |fruits| ==> fruits[k].Progress() == old(fruits[k].Progress())
      {
        fruits[i].Update();
      }
    }

    /** Phase 2: the spawn step, then one growth tick for every fruit, the new one
        included. The ghost parameters name the state it starts from. */
    method RipenFruit(now: int, pick: real, shape: FruitShape, ghost before: seq<Fruit>, ghost timer: int)
      requires Valid() && state == 2 && 0.0 <= pick < 1.0
      requires before == fruits && timer == lastFruitSpawnTime
      modifies this`fruits, this`lastFruitSpawnTime, fruits
      ensures Valid()
      ensures FruitSpawned(before, timer, now, pick, shape)
      ensures AllRipened(before)
      ensures |fruits| > |before| ==> fruits[|fruits| - 1].Progress() == Ripen(Unripe, FruitGrowthRate)
    {
      SpawnFruit(now, pick, shape);
      UpdateFruits();
    }

    predicate ButterflyDue(now: int)
      reads this`fruits, this`lastButterflyTransformTime
    {
      fruits != [] && now - lastButterflyTransformTime > ButterflyTransformInterval
    }

    /** The conversion step from the fruit `before`, butterflies `flock` and timer
        `timerBefore`: when due, the oldest fruit leaves the list and a butterfly with
        velocity (vx, vy) is appended where it was; otherwise nothing changes. */
    ghost predicate Transformed(before: seq<Fruit>, flock: seq<Butterfly>, timerBefore: int,
                                now: int, vx: real, vy: real)
      reads this`fruits, this`butterflies, this`lastButterflyTransformTime, butterflies
    {
      var due := before != [] && now - timerBefore > ButterflyTransformInterval;
      (due ==>
        fruits == before[1..] &&
        |butterflies| == |flock| + 1 && butterflies[..|flock|] == flock &&
        butterflies[|butterflies| - 1].position == before[0].position &&
        butterflies[|butterflies| - 1].velocity == Point(vx, vy) &&
        lastButterflyTransformTime == now) &&
      (!due ==> fruits == before && butterflies == flock && lastButterflyTransformTime == timerBefore)
    }

    /** The butterfly phase's conversion step: when due, the oldest fruit is removed,
        whatever its growth, and a butterfly with velocity (vx, vy) appears where it was.
        Fruit and butterflies together stay as many. */
    method TransformButterfly(now: int, vx: real, vy: real)
      requires Valid() && state == 3 && -2.0 <= vx <= 2.0 && -2.0 <= vy <= 2.0
      modifies this`fruits, this`butterflies, this`lastButterflyTransformTime
      ensures Valid()
      ensures |fruits| + |butterflies| == |old(fruits)| + |old(butterflies)|
      ensures Transformed(old(fruits), old(butterflies), old(lastButterflyTransformTime), now, vx, vy)
      ensures |butterflies| > |old(butterflies)| ==> fresh(butterflies[|butterflies| - 1])
    {
      if fruits != [] && now - lastButterflyTransformTime > ButterflyTransformInterval {
        var fruit := fruits[0];
        DistinctTail(fruits);
        fruits := fruits[1..];
        var newButterfly := new Butterfly(fruit.position, vx, vy);
        butterflies := butterflies + [newButterfly];
        lastButterflyTransformTime := now;
      }
    }

    /** One frame's animation logic for the current phase (drawing and the butterflies'
        own motion are not modelled): trees grow and spawn only in phase 1, fruit is
        placed and ripens only in phase 2, and fruit turns into butterflies only in
        phase 3. */
    method Animate(now: int, seed: TreeSeed, pick: real, shape: FruitShape, vx: real, vy: real)
      requires Valid() && (state == 1 ==> SeedFits(seed, screenWidth))
      requires 0.0 <= pick < 1.0 && -2.0 <= vx <= 2.0 && -2.0 <= vy <= 2.0
      modifies this`trees, this`fruits, this`butterflies, this`lastTreeSpawnTime,
               this`lastFruitSpawnTime, this`lastButterflyTransformTime,
               branchPoints, trees, fruits
      ensures Valid() && state == old(state)
      ensures state != 1 ==>
        trees == old(trees) && NoneRevealed(old(trees)) && branchPoints.points == old(branchPoints.points) &&
        lastTreeSpawnTime == old(lastTreeSpawnTime)
      ensures state == 1 ==> AllRevealed(old(trees))
      ensures state == 1 ==>
        Planted(old(trees), old(branchPoints.points), trees, SeedBase(seed), seed.length, seed.width,
                seed.maxDepth, seed.sprouts, SpawnDue(trees[0], now - old(lastTreeSpawnTime))) &&
        lastTreeSpawnTime == (if SpawnDue(trees[0], now - old(lastTreeSpawnTime)) then now else old(lastTreeSpawnTime))
      ensures state != 2 ==> NoneRipened(old(fruits)) && lastFruitSpawnTime == old(lastFruitSpawnTime)
      ensures state != 3 ==> butterflies == old(butterflies) && lastButterflyTransformTime == old(lastButterflyTransformTime)
      ensures state <= 1 ==> fruits == old(fruits)
      ensures state == 2 ==>
        FruitSpawned(old(fruits), old(lastFruitSpawnTime), now, pick, shape) && AllRipened(old(fruits)) &&
        (|fruits| > |old(fruits)| ==> fruits[|fruits| - 1].Progress() == Ripen(Unripe, FruitGrowthRate))
      ensures state == 3 ==> Transformed(old(fruits), old(butterflies), old(lastButterflyTransformTime), now, vx, vy)
      ensures forall k :: 0 <= k < |trees| ==> trees[k] in old(trees) || fresh(trees[k])
    {
      if state == 1 {
        AnimateGrowth(now, seed);
      } else if state == 2 {
        RipenFruit(now, pick, shape, fruits, lastFruitSpawnTime);
      } else if state == 3 {
        TransformButterfly(now, vx, vy);
      }
    }

    /** `t` is `Tree(base, length, width, depth)` for the draws `s`: its base, length,
        depth and generated layout, none of which ever change. */
    ghost predicate BuiltAt(t: Tree, base: Point, length: real, width: real, depth: int, s: Sprouts)
      requires Fits(s, depth)
    {
      t.basePosition == base && t.length == length && t.maxDepth == depth &&
      t.layout == Layout(base, length, width, depth, s, trig)
    }

    /** The leaf pool after the events `es` of a poll without `c`, from the pool `pool0`
        of phase `state0`: a first `n` in phase 0 adds the centre tree's leaf points. */
    function PolledPool(state0: int, pool0: seq<Point>, es: seq<Event>, draws: seq<Sprouts>): seq<Point>
      requires |draws| == |es| && forall i :: 0 <= i < |draws| ==> Fits(draws[i], CenterTreeDepth)
    {
      if state0 == 0 && Presses(es, KeyN) > 0 then
        pool0 + Leaves(CenterBase(), CenterTreeLength, CenterTreeWidth, CenterTreeDepth, draws[FirstPress(es, KeyN)], trig)
      else pool0
    }

    /** The events of a frame's poll, stated as the rest of the frame uses them: without
        a `c`, a first `n` in phase 0 leaves exactly the centre tree of its draws, with no
        branch revealed, and the pool its leaf points; otherwise trees and pool are kept. */
    method Poll(es: seq<Event>, draws: seq<Sprouts>)
      requires Valid() && |draws| == |es| && forall i :: 0 <= i < |draws| ==> Fits(draws[i], CenterTreeDepth)
      modifies this`trees, this`fruits, this`butterflies, this`state, this`currentScreenIndex,
               this`bgColor, this`running, branchPoints
      ensures Valid()
      ensures Current() == ControlsAfter(old(Current()), es)
      ensures bgColor == ScreenColors[(old(currentScreenIndex) + Presses(es, KeyS)) % 3]
      ensures Presses(es, KeyC) == 0 && !(old(state) == 0 && Presses(es, KeyN) > 0) ==> trees == old(trees)
      ensures Presses(es, KeyC) == 0 && old(state) == 0 && Presses(es, KeyN) > 0 ==>
        old(trees) == [] && |trees| == 1 && fresh(trees[0]) &&
        BuiltAt(trees[0], CenterBase(), CenterTreeLength, CenterTreeWidth, CenterTreeDepth, draws[FirstPress(es, KeyN)]) &&
        trees[0].Queue() == Queues([], trees[0].layout)
      ensures Presses(es, KeyC) == 0 ==>
        branchPoints.points == PolledPool(old(state), old(branchPoints.points), es, draws) &&
        fruits == old(fruits) && butterflies == old(butterflies)
      ensures Presses(es, KeyC) > 0 ==> fruits == [] && butterflies == []
      ensures NoneRevealed(old(trees))
      ensures forall k :: 0 <= k < |trees| ==> trees[k] in old(trees) || fresh(trees[k])
    {
      ScreenIndexCycles(Current(), es);
      HandleEvents(es, draws);
    }

    /** The animation step of a frame whose poll had no `c`, from the trees `trees0`
        and pool `pool0` the frame started with in phase `state0`: the tree a first `n` in
        phase 0 planted is revealed once in phase 1 and untouched otherwise. */
    method AnimatePolled(now: int, seed: TreeSeed, pick: real, shape: FruitShape, vx: real, vy: real,
                         ghost state0: int, ghost trees0: seq<Tree>, ghost pool0: seq<Point>,
                         ghost es: seq<Event>, ghost draws: seq<Sprouts>)
      requires Valid() && (state == 1 ==> SeedFits(seed, screenWidth))
      requires 0.0 <= pick < 1.0 && -2.0 <= vx <= 2.0 && -2.0 <= vy <= 2.0
      requires |draws| == |es| && forall i :: 0 <= i < |draws| ==> Fits(draws[i], CenterTreeDepth)
      requires Presses(es, KeyC) == 0 && !(state0 == 0 && Presses(es, KeyN) > 0) ==> trees == trees0
      requires Presses(es, KeyC) == 0 && state0 == 0 && Presses(es, KeyN) > 0 ==>
        |trees| == 1 && trees[0].Queue() == Queues([], trees[0].layout)
      modifies this`trees, this`fruits, this`butterflies, this`lastTreeSpawnTime,
               this`lastFruitSpawnTime, this`lastButterflyTransformTime,
               branchPoints, trees, fruits
      ensures Valid() && state == old(state)
      ensures Presses(es, KeyC) == 0 && state0 == 0 && Presses(es, KeyN) > 0 ==>
        old(trees)[0].Queue() == (if state == 1 then Reveal(Queues([], old(trees)[0].layout)) else Queues([], old(trees)[0].layout))
      ensures state == 1 ==> AllRevealed(old(trees))
      ensures state == 1 ==>
        Planted(old(trees), old(branchPoints.points), trees, SeedBase(seed), seed.length, seed.width,
                seed.maxDepth, seed.sprouts, SpawnDue(trees[0], now - old(lastTreeSpawnTime))) &&
        lastTreeSpawnTime == (if SpawnDue(trees[0], now - old(lastTreeSpawnTime)) then now else old(lastTreeSpawnTime))
      ensures state != 1 ==>
        trees == old(trees) && NoneRevealed(old(trees)) && branchPoints.points == old(branchPoints.points) &&
        lastTreeSpawnTime == old(lastTreeSpawnTime)
      ensures state != 2 ==> NoneRipened(old(fruits)) && lastFruitSpawnTime == old(lastFruitSpawnTime)
      ensures state != 3 ==> butterflies == old(butterflies) && lastButterflyTransformTime == old(lastButterflyTransformTime)
      ensures state <= 1 ==> fruits == old(fruits)
      ensures state == 2 ==>
        FruitSpawned(old(fruits), old(lastFruitSpawnTime), now, pick, shape) && AllRipened(old(fruits)) &&
        (|fruits| > |old(fruits)| ==> fruits[|fruits| - 1].Progress() == Ripen(Unripe, FruitGrowthRate))
      ensures state == 3 ==> Transformed(old(fruits), old(butterflies), old(lastButterflyTransformTime), now, vx, vy)
    {
      Animate(now, seed, pick, shape, vx, vy);
    }

    /** One pass of the main loop: the events of this frame, then the animation step of
        the phase they leave; `grown` names the trees the animation step starts from. */
    method Frame(now: int, es: seq<Event>, draws: seq<Sprouts>, seed: TreeSeed, pick: real,
                 shape: FruitShape, vx: real, vy: real) returns (ghost grown: seq<Tree>)
      requires Valid() && |draws| == |es| && forall i :: 0 <= i < |draws| ==> Fits(draws[i], CenterTreeDepth)
      requires ControlsAfter(Current(), es).state == 1 ==> SeedFits(seed, screenWidth)
      requires 0.0 <= pick < 1.0 && -2.0 <= vx <= 2.0 && -2.0 <= vy <= 2.0
      modifies this`trees, this`fruits, this`butterflies, this`state, this`currentScreenIndex,
               this`bgColor, this`running, this`lastTreeSpawnTime, this`lastFruitSpawnTime,
               this`lastButterflyTransformTime, branchPoints, trees, fruits
      ensures Valid()
      ensures Current() == ControlsAfter(old(Current()), es)
      ensures bgColor == ScreenColors[(old(currentScreenIndex) + Presses(es, KeyS)) % 3]
      ensures Presses(es, KeyC) == 0 && !(old(state) == 0 && Presses(es, KeyN) > 0) ==> grown == old(trees)
      ensures Presses(es, KeyC) == 0 && old(state) == 0 && Presses(es, KeyN) > 0 ==>
        old(trees) == [] && |grown| == 1 && fresh(grown[0]) &&
        BuiltAt(grown[0], CenterBase(), CenterTreeLength, CenterTreeWidth, CenterTreeDepth, draws[FirstPress(es, KeyN)]) &&
        grown[0].Queue() == (if state == 1 then Reveal(Queues([], grown[0].layout)) else Queues([], grown[0].layout))
      ensures Presses(es, KeyC) == 0 && state == 1 ==>
        AllRevealed(old(trees)) &&
        Planted(grown, PolledPool(old(state), old(branchPoints.points), es, draws), trees, SeedBase(seed),
                seed.length, seed.width, seed.maxDepth, seed.sprouts, SpawnDue(trees[0], now - old(lastTreeSpawnTime))) &&
        lastTreeSpawnTime == (if SpawnDue(trees[0], now - old(lastTreeSpawnTime)) then now else old(lastTreeSpawnTime))
      ensures Presses(es, KeyC) == 0 && state != 1 ==>
        NoneRevealed(old(trees)) && trees == grown &&
        branchPoints.points == PolledPool(old(state), old(branchPoints.points), es, draws) &&
        lastTreeSpawnTime == old(lastTreeSpawnTime)
      ensures Presses(es, KeyC) == 0 && state == 2 ==>
        FruitSpawned(old(fruits), old(lastFruitSpawnTime), now, pick, shape) &&
        (|fruits| > |old(fruits)| ==> fruits[|fruits| - 1].Progress() == Ripen(Unripe, FruitGrowthRate))
      ensures Presses(es, KeyC) == 0 && state == 2 ==> AllRipened(old(fruits))
      ensures Presses(es, KeyC) == 0 && state != 2 ==> NoneRipened(old(fruits))
      ensures state != 2 ==> lastFruitSpawnTime == old(lastFruitSpawnTime)
      ensures state != 3 ==> lastButterflyTransformTime == old(lastButterflyTransformTime)
      ensures Presses(es, KeyC) == 0 && state == 3 ==>
        Transformed(old(fruits), old(butterflies), old(lastButterflyTransformTime), now, vx, vy)
    {
      Poll(es, draws);
      grown := trees;
      AnimatePolled(now, seed, pick, shape, vx, vy, old(state), old(trees), old(branchPoints.points), es, draws);
    }
  }
}
