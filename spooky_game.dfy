/** The main loop of the MIDI-driven animation: the Control Change sequencer and the
    per-state updates of the module-level containers, gathered in one `Sim` object. */
module SpookyGame {
  import opened Geometry
  import opened Fifo
  import opened Ripening
  import opened SpookyTree
  import opened Phases

  const TreeSpeedAnim1: real := 3.0
  const TreeSpeedAnim2: real := 0.5
  const TreeSpeedAnim3: real := 0.5
  const TreeSpawnIntervalPhase1: int := 2000
  const TreeSpawnIntervalPhase23: int := 15000
  const InitialFruitSpawnInterval: real := 1000.0
  const MinFruitSpawnInterval: real := 300.0
  const FruitSpawnDecay: real := 0.98
  const ButterflyTransformInterval: int := 100
  /** The controller number whose messages advance the sequencer. */
  const AdvanceController: int := 18
  const AdvanceThreshold: int := 64
  /** `math.pi` as the double it is. */
  const Pi: real := 3.141592653589793

  // ---------------------------------------------------------------------------
  // The sequencer
  // ---------------------------------------------------------------------------

  /** One MIDI input event: status byte, controller number and controller value. */
  datatype MidiMessage = MidiMessage(status: bv8, ccNumber: int, ccValue: int)

  /** The status byte is a Control Change on any channel (MIDI 1.0: 1011nnnn). */
  predicate IsControlChange(status: bv8)
  {
    (status & 0xF0) == 0xB0
  }

  /** The message that advances the animation: Control Change on any channel (status
      0xB0..0xBF), controller 18, value above 64. */
  function IsAdvance(m: MidiMessage): (r: bool)
    ensures r <==> 0xB0 <= m.status <= 0xBF && m.ccNumber == 18 && m.ccValue > 64
  {
    IsControlChange(m.status) && m.ccNumber == AdvanceController && m.ccValue > AdvanceThreshold
  }

  /** Masking the channel off leaves 0xB0 exactly for the sixteen status bytes 0xB0..0xBF. */
  lemma ControlChangeBytes(status: bv8)
    ensures IsControlChange(status) <==> 0xB0 <= status <= 0xBF
  {
  }

  /** The state after one MIDI message: an advance message moves a state in 0..3 one
      step up, capped at 3; any other message leaves it. */
  function OnMessage(state: int, m: MidiMessage): (r: int)
    ensures 0 <= state <= 3 ==> r == (if IsAdvance(m) then MinInt(3, state + 1) else state)
  {
    if IsAdvance(m) then NextState(state) else state
  }

  /** The state after a batch of MIDI messages, handled in order. */
  function StateAfter(state: int, ms: seq<MidiMessage>): int
  {
    if ms == [] then state else OnMessage(StateAfter(state, ms[..|ms| - 1]), ms[|ms| - 1])
  }

  /** How many messages of a batch are advance triggers. */
  function Triggers(ms: seq<MidiMessage>): nat
  {
    if ms == [] then 0 else Triggers(ms[..|ms| - 1]) + (if IsAdvance(ms[|ms| - 1]) then 1 else 0)
  }

  /** Every trigger advances the state by one until it reaches 3; nothing else moves it.
      In particular the state never decreases and stays within 0..3, and triggers are
      counted individually, so two in one batch advance twice. */
  lemma {:induction false} StateAfterCountsTriggers(state: int, ms: seq<MidiMessage>)
    requires 0 <= state <= 3
    ensures StateAfter(state, ms) == MinInt(3, state + Triggers(ms))
  {
    if ms != [] {
      StateAfterCountsTriggers(state, ms[..|ms| - 1]);
    }
  }

  /** The window events the loop looks at: closing the window, a key press (Escape or
      another key), anything else. */
  datatype WindowEvent = Quit | KeyDown(escape: bool) | OtherEvent

  predicate Stops(e: WindowEvent)
  {
    e == Quit || e == KeyDown(true)
  }

  /** Whether the loop still runs after a batch of window events. */
  function RunningAfter(running: bool, es: seq<WindowEvent>): bool
  {
    if es == [] then running else RunningAfter(running, es[..|es| - 1]) && !Stops(es[|es| - 1])
  }

  /** The loop keeps running exactly when it was running and no event of the batch is a
      quit or an Escape press. */
  lemma {:induction false} RunningUntilStopped(running: bool, es: seq<WindowEvent>)
    ensures RunningAfter(running, es) <==> running && forall i :: 0 <= i < |es| ==> !Stops(es[i])
  {
    if es != [] {
      RunningUntilStopped(running, es[..|es| - 1]);
      assert forall i :: 0 <= i < |es| - 1 ==> es[..|es| - 1][i] == es[i];
    }
  }

  // ---------------------------------------------------------------------------
  // Where new trees appear
  // ---------------------------------------------------------------------------

  datatype Edge = Top | Bottom | Left | Right

  /** `get_random_tree_spawn`: a point on the chosen screen edge (`along` is the
      `random.randint` coordinate) and an angle pointing into the screen, perturbed by
      `angleOffset`. With the draws in their ranges, the point lies on that edge of the
      screen and the angle within 0.2 of the direction straight into the screen. */
  function TreeSpawn(edge: Edge, along: int, angleOffset: real, screenWidth: int, screenHeight: int): (r: (Point, real))
    ensures (0 <= screenWidth && 0 <= screenHeight && -0.2 <= angleOffset <= 0.2 &&
             0 <= along <= (if edge == Top || edge == Bottom then screenWidth else screenHeight)) ==>
      0.0 <= r.0.x <= screenWidth as real && 0.0 <= r.0.y <= screenHeight as real &&
      (edge == Bottom ==> r.0.y == screenHeight as real && -Pi / 2.0 - 0.2 <= r.1 <= -Pi / 2.0 + 0.2) &&
      (edge == Top ==> r.0.y == 0.0 && Pi / 2.0 - 0.2 <= r.1 <= Pi / 2.0 + 0.2) &&
      (edge == Left ==> r.0.x == 0.0 && -0.2 <= r.1 <= 0.2) &&
      (edge == Right ==> r.0.x == screenWidth as real && Pi - 0.2 <= r.1 <= Pi + 0.2)
  {
    match edge
    case Bottom => (Point(along as real, screenHeight as real), -Pi / 2.0 + angleOffset)
    case Top => (Point(along as real, 0.0), Pi / 2.0 + angleOffset)
    case Left => (Point(0.0, along as real), 0.0 + angleOffset)
    case Right => (Point(screenWidth as real, along as real), Pi + angleOffset)
  }

  /** The random draws behind one new tree: where it spawns, `get_random_tree_params`,
      and the draws of its generation. */
  datatype TreeSeed = TreeSeed(edge: Edge, along: int, angleOffset: real,
                               length: real, width: real, maxDepth: int, sprouts: Sprouts)

  predicate SeedFits(seed: TreeSeed, screenWidth: int, screenHeight: int)
  {
    -0.2 <= seed.angleOffset <= 0.2 &&
    0 <= seed.along <= (if seed.edge == Top || seed.edge == Bottom then screenWidth else screenHeight) &&
    TreeParams(seed.length, seed.width, seed.maxDepth) && Fits(seed.sprouts, seed.maxDepth)
  }

  // ---------------------------------------------------------------------------
  // Where new fruit may go
  // ---------------------------------------------------------------------------

  function Positions(fruits: seq<Fruit>): (r: seq<Point>)
    ensures |r| == |fruits| && forall i :: 0 <= i < |fruits| ==> r[i] == fruits[i].position
  {
    if fruits == [] then [] else [fruits[0].position] + Positions(fruits[1..])
  }

  /** A free point is a leaf point with no fruit of `fruits` near it. */
  lemma FreeIsApart(points: seq<Point>, fruits: seq<Fruit>, p: Point)
    requires p in Available(points, Positions(fruits))
    ensures p in points && forall f :: f in fruits ==> !Near(p, f.position)
  {
    AvailableMembers(points, Positions(fruits));
    forall f | f in fruits
      ensures !Near(p, f.position)
    {
      var i :| 0 <= i < |fruits| && fruits[i] == f;
      assert Positions(fruits)[i] == f.position;
    }
  }

  /** The draws of the `Butterfly` constructor. */
  datatype ButterflyDraws = ButterflyDraws(vx: real, vy: real, scale: real)

  predicate ButterflyDrawsFit(d: ButterflyDraws)
  {
    -2.0 <= d.vx <= 2.0 && -2.0 <= d.vy <= 2.0 && 0.8 <= d.scale <= 1.2
  }

  // ---------------------------------------------------------------------------
  // The simulation state: the script's module-level globals
  // ---------------------------------------------------------------------------

  /** The speed factor the trees grow at in each animated state. */
  function TreeSpeed(state: int): (r: real)
    ensures r > 0.0
  {
    if state == 1 then TreeSpeedAnim1 else if state == 2 then TreeSpeedAnim2 else TreeSpeedAnim3
  }

  /** Every fruit of `fs` has ripened by one tick. */
  twostate predicate AllRipened(fs: seq<Fruit>)
    reads fs
  {
    forall k :: 0 <= k < |fs| ==> fs[k].Progress() == Ripen(old(fs[k].Progress()), FruitGrowthSpeed)
  }

  /** No fruit of `fs` has ripened. */
  twostate predicate NoneRipened(fs: seq<Fruit>)
    reads fs
  {
    forall k :: 0 <= k < |fs| ==> fs[k].Progress() == old(fs[k].Progress())
  }

  /** Every tree of `ts` has been updated once at `now` and `speed`. */
  twostate predicate AllGrew(ts: seq<Tree>, now: int, speed: real)
    requires speed > 0.0
    reads ts
  {
    forall k :: 0 <= k < |ts| ==> Grew(ts[k], now, speed)
  }

  class Sim {
    const screenWidth: int
    const screenHeight: int
    const trig: Trig
    /** `branch_points`. */
    const branchPoints: LeafPool
    var trees: seq<Tree>
    var fruits: seq<Fruit>
    var butterflies: seq<Butterfly>
    /** 0 waiting, 1 tree growth, 2 fruit growth, 3 butterflies. */
    var state: int
    var lastTreeSpawnTime: int
    var lastFruitSpawnTime: int
    var lastButterflyTransformTime: int
    /** `FRUIT_SPAWN_INTERVAL`, which the script decays as fruit is placed. */
    var fruitSpawnInterval: real
    var running: bool

    /** The object invariant: nothing exists before the first trigger, a tree exists from
        state 1 on and fruit and butterflies only from state 2 on (the state never goes
        back), the fruit interval stays within its floor and initial value, and every tree
        and fruit is sound. */
    ghost predicate Valid()
      reads this`trees, this`fruits, this`butterflies, this`state, this`fruitSpawnInterval, trees, fruits, branchPoints
    {
      Sound() && (state != 0 ==> trees != []) &&
      (state == 0 ==> trees == [] && branchPoints.points == []) &&
      (state <= 1 ==> fruits == [] && butterflies == [])
    }

    ghost predicate Sound()
      reads this`trees, this`fruits, this`state, this`fruitSpawnInterval, trees, fruits
    {
      0 <= screenWidth && 0 <= screenHeight && 0 <= state <= 3 &&
      MinFruitSpawnInterval <= fruitSpawnInterval <= InitialFruitSpawnInterval &&
      Distinct(trees) && (forall i :: 0 <= i < |trees| ==> trees[i].Valid()) &&
      Distinct(fruits) && (forall i :: 0 <= i < |fruits| ==> fruits[i].Valid())
    }

    /** Where the tree of `seed` stands on this screen, and its trunk's angle. */
    function SpawnOf(seed: TreeSeed): (Point, real)
    {
      TreeSpawn(seed.edge, seed.along, seed.angleOffset, screenWidth, screenHeight)
    }

    /** The leaf points that building the tree of `seed` appends to `branch_points`. */
    function SeedLeaves(seed: TreeSeed): seq<Point>
      requires SeedFits(seed, screenWidth, screenHeight)
    {
      var (pos, angle) := SpawnOf(seed);
      Grow(Trunk(pos, angle, seed.length, seed.width), seed.maxDepth, seed.sprouts, trig).leaves
    }

    /** `t` is `Tree(pos, angle, length, width, max_depth)` for the draws of `seed`: its
        spawn point, trunk angle, depth and generated layout, none of which ever change. */
    ghost predicate BuiltFrom(t: Tree, seed: TreeSeed)
      requires SeedFits(seed, screenWidth, screenHeight)
    {
      var (pos, angle) := SpawnOf(seed);
      t.basePosition == pos && t.initialAngle == angle && t.maxDepth == seed.maxDepth &&
      t.layout == Layout(pos, angle, seed.length, seed.width, seed.maxDepth, seed.sprouts, trig)
    }

    /** `t` is the tree of `seed`, built at `now` and with none of its branches revealed
        yet. */
    ghost predicate PlantedFrom(t: Tree, seed: TreeSeed, now: int)
      requires SeedFits(seed, screenWidth, screenHeight)
      reads t
    {
      BuiltFrom(t, seed) && t.drawnBranches == [] && t.pendingBranches == t.layout &&
      t.branchGrowthDelay == InitialBranchDelay && t.lastBranchGrowthTime == now
    }

    /** When `planted`, `after` is `before` followed by the tree of `seed`, untouched,
        and the pool is `poolBefore` followed by that tree's leaf points; otherwise
        neither has changed. */
    ghost predicate Planted(before: seq<Tree>, poolBefore: seq<Point>, after: seq<Tree>,
                            seed: TreeSeed, now: int, planted: bool)
      requires SeedFits(seed, screenWidth, screenHeight)
      reads after, branchPoints
    {
      (planted ==>
        |after| == |before| + 1 && after[..|before|] == before &&
        PlantedFrom(after[|after| - 1], seed, now) &&
        branchPoints.points == poolBefore + SeedLeaves(seed)) &&
      (!planted ==> after == before && branchPoints.points == poolBefore)
    }

    /** A spawn step that was `due` plants the tree of `seed` and restarts the spawn timer
        (from `timerBefore` to `timer`); one that was not changes neither. */
    ghost predicate TreeSpawned(before: seq<Tree>, poolBefore: seq<Point>, timerBefore: int,
                                after: seq<Tree>, timer: int, seed: TreeSeed, now: int, due: bool)
      requires SeedFits(seed, screenWidth, screenHeight)
      reads after, branchPoints
    {
      Planted(before, poolBefore, after, seed, now, due) && timer == (if due then now else timerBefore)
    }

    /** Whether the animation step of `state` plants a tree: in state 1 once the first
        tree is complete and more than 2000 ms have `elapsed` since the last one, in
        states 2 and 3 once more than 15000 ms have; never in state 0. */
    predicate SpawnDue(state: int, firstComplete: bool, elapsed: int)
    {
      if state == 1 then firstComplete && elapsed > TreeSpawnIntervalPhase1
      else state >= 2 && elapsed > TreeSpawnIntervalPhase23
    }

    /** The leaf points with no fruit of `fruitAt` within distance 5. */
    function FreePoints(fruitAt: seq<Point>): seq<Point>
      reads branchPoints
    {
      Available(branchPoints.points, fruitAt)
    }

    /** The reveal condition of the spawn timer for new fruit. */
    predicate FruitDue(now: int)
      reads this`lastFruitSpawnTime, this`fruitSpawnInterval
    {
      (now - lastFruitSpawnTime) as real > fruitSpawnInterval
    }

    /** The fruit spawn step from the fruit `before`, with interval `intervalBefore` and
        timer `timerBefore`: when due and some leaf point is free, a fruit with `parts`
        parts is appended at the `pick`-th free point and the interval decays; otherwise
        fruit and interval are as before. The timer restarts whenever the step was due. */
    ghost predicate FruitSpawned(before: seq<Fruit>, intervalBefore: real, timerBefore: int,
                                 now: int, pick: real, parts: int)
      requires 0.0 <= pick < 1.0
      reads this`fruits, this`fruitSpawnInterval, this`lastFruitSpawnTime, branchPoints
    {
      var free := FreePoints(Positions(before));
      var due := (now - timerBefore) as real > intervalBefore;
      var placed := due && free != [];
      (placed ==>
        |fruits| == |before| + 1 && fruits[..|before|] == before &&
        fruits[|fruits| - 1].position == free[PickIndex(pick, |free|)] && fruits[|fruits| - 1].parts == parts &&
        fruitSpawnInterval == Max(MinFruitSpawnInterval, intervalBefore * FruitSpawnDecay)) &&
      (!placed ==> fruits == before && fruitSpawnInterval == intervalBefore) &&
      lastFruitSpawnTime == (if due then now else timerBefore)
    }

    predicate ButterflyDue(now: int)
      reads this`fruits, this`lastButterflyTransformTime
    {
      fruits != [] && now - lastButterflyTransformTime > ButterflyTransformInterval
    }

    /** The conversion step from the fruit `before`, butterflies `flock` and timer
        `timerBefore`: when due, the oldest fruit leaves the list and a butterfly with the
        draws `d` is appended where it was; otherwise nothing changes. */
    ghost predicate Transformed(before: seq<Fruit>, flock: seq<Butterfly>, timerBefore: int,
                                now: int, d: ButterflyDraws)
      reads this`fruits, this`butterflies, this`lastButterflyTransformTime, butterflies
    {
      var due := before != [] && now - timerBefore > ButterflyTransformInterval;
      (due ==>
        fruits == before[1..] &&
        |butterflies| == |flock| + 1 && butterflies[..|flock|] == flock &&
        butterflies[|butterflies| - 1].position == before[0].position &&
        butterflies[|butterflies| - 1].velocity == Point(d.vx, d.vy) &&
        butterflies[|butterflies| - 1].scale == ButterflyScaleFactor * d.scale &&
        lastButterflyTransformTime == now) &&
      (!due ==> fruits == before && butterflies == flock && lastButterflyTransformTime == timerBefore)
    }

    /** The state at start-up; `now` is the tick count the three timers start from. */
    constructor (screenWidth: int, screenHeight: int, trig: Trig, now: int)
      requires 0 <= screenWidth && 0 <= screenHeight
      ensures Valid() && fresh(branchPoints) && branchPoints.points == []
      ensures this.screenWidth == screenWidth && this.screenHeight == screenHeight && this.trig == trig
      ensures trees == [] && fruits == [] && butterflies == [] && state == 0
      ensures lastTreeSpawnTime == now && lastFruitSpawnTime == now && lastButterflyTransformTime == now
      ensures fruitSpawnInterval == InitialFruitSpawnInterval && running
    {
      this.screenWidth := screenWidth;
      this.screenHeight := screenHeight;
      this.trig := trig;
      branchPoints := new LeafPool();
      trees, fruits, butterflies := [], [], [];
      state := 0;
      lastTreeSpawnTime, lastFruitSpawnTime, lastButterflyTransformTime := now, now, now;
      fruitSpawnInterval := InitialFruitSpawnInterval;
      running := true;
    }

    /** The loop over `pygame.event.get()`: quit or Escape ends the loop after the frame. */
    method HandleWindowEvents(es: seq<WindowEvent>)
      modifies this`running
      ensures running == RunningAfter(old(running), es)
    {
      for i := 0 to |es|
        invariant running == RunningAfter(old(running), es[..i])
      {
        assert es[..i + 1][..i] == es[..i];
        if es[i] == Quit {
          running := false;
        } else if es[i] == KeyDown(true) {
          running := false;
        }
      }
      assert es[..|es|] == es;
    }

    /** `trees.append(Tree(pos, angle, length, width, max_depth))` with the default branch
        delay. */
    method AddTree(seed: TreeSeed, now: int) returns (t: Tree)
      requires Sound() && SeedFits(seed, screenWidth, screenHeight)
      modifies this`trees, branchPoints
      ensures Sound() && fresh(t) && trees == old(trees) + [t]
      ensures PlantedFrom(t, seed, now)
      ensures branchPoints.points == old(branchPoints.points) + SeedLeaves(seed)
    {
      var (pos, angle) := TreeSpawn(seed.edge, seed.along, seed.angleOffset, screenWidth, screenHeight);
      t := new Tree(pos, angle, seed.length, seed.width, seed.maxDepth, InitialBranchDelay, now,
                    seed.sprouts, trig, branchPoints);
      DistinctAppend(trees, t);
      trees := trees + [t];
    }

    /** One MIDI message (the body of the loop over the events read): an advance
        trigger moves 0 -> 1 -> 2 -> 3 and the first step also plants the tree of `seed`. */
    method OnMidiMessage(m: MidiMessage, seed: TreeSeed, now: int)
      requires Valid() && SeedFits(seed, screenWidth, screenHeight)
      modifies this`trees, this`state, branchPoints
      ensures Valid()
      ensures state == OnMessage(old(state), m)
      ensures Planted(old(trees), old(branchPoints.points), trees, seed, now, old(state) == 0 && IsAdvance(m))
      ensures forall k :: 0 <= k < |trees| ==> trees[k] in old(trees) || fresh(trees[k])
    {
      if IsControlChange(m.status) && m.ccNumber == AdvanceController && m.ccValue > AdvanceThreshold {
        if state == 0 {
          state := 1;
          var t := AddTree(seed, now);
        } else if state == 1 {
          state := 2;
        } else if state == 2 {
          state := 3;
        }
      }
    }

    /** The messages of one poll, handled in order: `seed` is used by at most one of
        them, since only the first trigger seen in state 0 plants a tree. */
    method OnMidiMessages(ms: seq<MidiMessage>, seed: TreeSeed, now: int)
      requires Valid() && SeedFits(seed, screenWidth, screenHeight)
      modifies this`trees, this`state, branchPoints
      ensures Valid()
      ensures state == StateAfter(old(state), ms)
      ensures state == MinInt(3, old(state) + Triggers(ms))
      ensures Planted(old(trees), old(branchPoints.points), trees, seed, now, old(state) == 0 && Triggers(ms) > 0)
      ensures forall k :: 0 <= k < |trees| ==> trees[k] in old(trees) || fresh(trees[k])
    {
      StateAfterCountsTriggers(state, ms);
      for i := 0 to |ms|
        invariant Valid()
        invariant state == StateAfter(old(state), ms[..i])
        invariant Planted(old(trees), old(branchPoints.points), trees, seed, now, old(state) == 0 && Triggers(ms[..i]) > 0)
        invariant forall k :: 0 <= k < |trees| ==> trees[k] in old(trees) || fresh(trees[k])
      {
        StateAfterCountsTriggers(old(state), ms[..i]);
        assert ms[..i + 1][..i] == ms[..i];
        OnMidiMessage(ms[i], seed, now);
      }
      assert ms[..|ms|] == ms;
    }

    /** `for tree in trees: tree.update(current_time, speed_factor=speed)`. */
    method UpdateTrees(now: int, speed: real)
      requires Valid() && speed > 0.0
      modifies trees
      ensures Valid()
      ensures AllGrew(trees, now, speed)
    {
      DistinctApart(trees);
      for i := 0 to |trees|
        invariant Valid()
        invariant forall k :: 0 <= k < i ==> Grew(trees[k], now, speed)
        invariant forall k :: i <= k < |trees| ==>
          trees[k].Queue() == old(trees[k].Queue()) &&
          trees[k].branchGrowthDelay == old(trees[k].branchGrowthDelay) &&
          trees[k].lastBranchGrowthTime == old(trees[k].lastBranchGrowthTime)
      {
        var _ := trees[i].Update(now, speed);
      }
    }

    /** The fruit-growth phase's spawn step: when the interval has elapsed, place a fruit
        at the `pick`-th leaf point with no fruit within distance 5 (if there is one),
        shrink the interval only in that case, and restart the timer either way. */
    method SpawnFruit(now: int, pick: real, parts: int)
      requires Valid() && state == 2 && (parts == 2 || parts == 3) && 0.0 <= pick < 1.0
      modifies this`fruits, this`fruitSpawnInterval, this`lastFruitSpawnTime
      ensures Valid()
      ensures FruitSpawned(old(fruits), old(fruitSpawnInterval), old(lastFruitSpawnTime), now, pick, parts)
      ensures |fruits| > |old(fruits)| ==>
        fruits[|fruits| - 1].position in branchPoints.points &&
        (forall f :: f in old(fruits) ==> !Near(fruits[|fruits| - 1].position, f.position)) &&
        fruits[|fruits| - 1].Progress() == Unripe && fresh(fruits[|fruits| - 1])
    {
      if (now - lastFruitSpawnTime) as real > fruitSpawnInterval {
        var availablePoints := Available(branchPoints.points, Positions(fruits));
        if availablePoints != [] {
          var pt := availablePoints[PickIndex(pick, |availablePoints|)];
          FreeIsApart(branchPoints.points, fruits, pt);
          var newFruit := new Fruit(pt, parts);
          DistinctAppend(fruits, newFruit);
          fruits := fruits + [newFruit];
          fruitSpawnInterval := Max(MinFruitSpawnInterval, fruitSpawnInterval * FruitSpawnDecay);
        }
        lastFruitSpawnTime := now;
      }
    }

    /** `for fruit in fruits: fruit.update()`. */
    method UpdateFruits()
      requires Valid()
      modifies fruits
      ensures Valid()
      ensures AllRipened(fruits)
    {
      DistinctApart(fruits);
      for i := 0 to |fruits|
        invariant Valid()
        invariant forall k :: 0 <= k < i ==>
          fruits[k].Progress() == Ripen(old(fruits[k].Progress()), FruitGrowthSpeed)
        invariant forall k :: i <= k < |fruits| ==>
          fruits[k].growth == old(fruits[k].growth) && fruits[k].fullyGrown == old(fruits[k].fullyGrown)
      {
        fruits[i].Update();
      }
    }

    /** The butterfly phase's conversion step: when due, the oldest fruit is removed and a
        butterfly appears where it was. Fruit and butterflies together stay as many. */
    method TransformButterfly(now: int, d: ButterflyDraws)
      requires Valid() && state == 3 && ButterflyDrawsFit(d)
      modifies this`fruits, this`butterflies, this`lastButterflyTransformTime
      ensures Valid()
      ensures |fruits| + |butterflies| == |old(fruits)| + |old(butterflies)|
      ensures Transformed(old(fruits), old(butterflies), old(lastButterflyTransformTime), now, d)
    {
      if fruits != [] && now - lastButterflyTransformTime > ButterflyTransformInterval {
        var fruit := fruits[0];
        DistinctTail(fruits);
        fruits := fruits[1..];
        var newButterfly := new Butterfly(fruit.position, d.vx, d.vy, d.scale);
        butterflies := butterflies + [newButterfly];
        lastButterflyTransformTime := now;
      }
    }

    /** A new tree once more than `interval` ms have passed since the last one. */
    method SpawnTreeIfDue(now: int, seed: TreeSeed, interval: int)
      requires Valid() && state != 0 && SeedFits(seed, screenWidth, screenHeight)
      modifies this`trees, this`lastTreeSpawnTime, branchPoints
      ensures Valid()
      ensures TreeSpawned(old(trees), old(branchPoints.points), old(lastTreeSpawnTime), trees, lastTreeSpawnTime, seed, now, old(now - lastTreeSpawnTime > interval))
      ensures forall k :: 0 <= k < |trees| ==> trees[k] in old(trees) || fresh(trees[k])
    {
      if now - lastTreeSpawnTime > interval {
        var t := AddTree(seed, now);
        lastTreeSpawnTime := now;
      }
    }

    /** State 1: every tree grows at speed 3.0; once the first tree is complete, new
        trees follow every 2000 ms. */
    method AnimateGrowth(now: int, seed: TreeSeed)
      requires Valid() && state == 1 && SeedFits(seed, screenWidth, screenHeight)
      modifies this`trees, this`lastTreeSpawnTime, branchPoints, trees
      ensures Valid()
      ensures AllGrew(old(trees), now, TreeSpeedAnim1)
      ensures TreeSpawned(old(trees), old(branchPoints.points), old(lastTreeSpawnTime), trees, lastTreeSpawnTime, seed, now,
        trees[0].pendingBranches == [] && now - old(lastTreeSpawnTime) > TreeSpawnIntervalPhase1)
      ensures forall k :: 0 <= k < |trees| ==> trees[k] in old(trees) || fresh(trees[k])
    {
      UpdateTrees(now, TreeSpeedAnim1);
      if trees != [] && |trees[0].pendingBranches| == 0 {
        SpawnTreeIfDue(now, seed, TreeSpawnIntervalPhase1);
      }
    }

    /** The tree part of states 2 and 3: every tree grows at speed 0.5 and a new one
        appears every 15000 ms. */
    method GrowLater(now: int, seed: TreeSeed)
      requires Valid() && (state == 2 || state == 3) && SeedFits(seed, screenWidth, screenHeight)
      modifies this`trees, this`lastTreeSpawnTime, branchPoints, trees
      ensures Valid()
      ensures AllGrew(old(trees), now, TreeSpeed(state))
      ensures TreeSpawned(old(trees), old(branchPoints.points), old(lastTreeSpawnTime), trees, lastTreeSpawnTime, seed, now, old(now - lastTreeSpawnTime > TreeSpawnIntervalPhase23))
      ensures forall k :: 0 <= k < |trees| ==> trees[k] in old(trees) || fresh(trees[k])
    {
      var speed := if state == 2 then TreeSpeedAnim2 else TreeSpeedAnim3;
      UpdateTrees(now, speed);
      SpawnTreeIfDue(now, seed, TreeSpawnIntervalPhase23);
    }

    /** The fruit part of state 2: the spawn step, then one growth tick for every fruit,
        the new one included. The ghost parameters name the state it starts from. */
    method RipenFruit(now: int, pick: real, parts: int, ghost before: seq<Fruit>,
                      ghost interval: real, ghost timer: int)
      requires Valid() && state == 2 && (parts == 2 || parts == 3) && 0.0 <= pick < 1.0
      requires before == fruits && interval == fruitSpawnInterval && timer == lastFruitSpawnTime
      modifies this`fruits, this`fruitSpawnInterval, this`lastFruitSpawnTime, fruits
      ensures Valid()
      ensures FruitSpawned(before, interval, timer, now, pick, parts)
      ensures AllRipened(before)
      ensures |fruits| > |before| ==> fruits[|fruits| - 1].Progress() == Ripen(Unripe, FruitGrowthSpeed)
    {
      SpawnFruit(now, pick, parts);
      UpdateFruits();
    }

    /** State 2: trees grow at speed 0.5 and spawn every 15000 ms, then fruit is placed
        and every fruit ripens by one tick. */
    method AnimateFruit(now: int, seed: TreeSeed, pick: real, parts: int)
      requires Valid() && state == 2 && SeedFits(seed, screenWidth, screenHeight)
      requires (parts == 2 || parts == 3) && 0.0 <= pick < 1.0
      modifies this`trees, this`fruits, this`lastTreeSpawnTime, this`lastFruitSpawnTime, this`fruitSpawnInterval,
               branchPoints, trees, fruits
      ensures Valid()
      ensures AllGrew(old(trees), now, TreeSpeedAnim2)
      ensures TreeSpawned(old(trees), old(branchPoints.points), old(lastTreeSpawnTime), trees, lastTreeSpawnTime, seed, now, old(now - lastTreeSpawnTime > TreeSpawnIntervalPhase23))
      ensures forall k :: 0 <= k < |trees| ==> trees[k] in old(trees) || fresh(trees[k])
      ensures FruitSpawned(old(fruits), old(fruitSpawnInterval), old(lastFruitSpawnTime), now, pick, parts)
      ensures AllRipened(old(fruits))
      ensures |fruits| > |old(fruits)| ==> fruits[|fruits| - 1].Progress() == Ripen(Unripe, FruitGrowthSpeed)
    {
      GrowLater(now, seed);
      RipenFruit(now, pick, parts, old(fruits), old(fruitSpawnInterval), old(lastFruitSpawnTime));
    }

    /** State 3: trees grow at speed 0.5 and spawn every 15000 ms, then the oldest fruit
        may turn into a butterfly; no fruit ripens. */
    method AnimateButterflies(now: int, seed: TreeSeed, d: ButterflyDraws)
      requires Valid() && state == 3 && SeedFits(seed, screenWidth, screenHeight) && ButterflyDrawsFit(d)
      modifies this`trees, this`fruits, this`butterflies, this`lastTreeSpawnTime, this`lastButterflyTransformTime,
               branchPoints, trees
      ensures Valid()
      ensures AllGrew(old(trees), now, TreeSpeedAnim3)
      ensures TreeSpawned(old(trees), old(branchPoints.points), old(lastTreeSpawnTime), trees, lastTreeSpawnTime, seed, now, old(now - lastTreeSpawnTime > TreeSpawnIntervalPhase23))
      ensures forall k :: 0 <= k < |trees| ==> trees[k] in old(trees) || fresh(trees[k])
      ensures Transformed(old(fruits), old(butterflies), old(lastButterflyTransformTime), now, d)
      ensures NoneRipened(old(fruits))
    {
      GrowLater(now, seed);
      TransformButterfly(now, d);
    }

    /** One frame's animation logic for the current state (drawing and the butterflies'
        own motion are not modelled). */
    method Animate(now: int, seed: TreeSeed, pick: real, parts: int, d: ButterflyDraws)
      requires Valid() && SeedFits(seed, screenWidth, screenHeight)
      requires (parts == 2 || parts == 3) && 0.0 <= pick < 1.0 && ButterflyDrawsFit(d)
      modifies this`trees, this`fruits, this`butterflies, this`lastTreeSpawnTime,
               this`lastFruitSpawnTime, this`lastButterflyTransformTime, this`fruitSpawnInterval,
               branchPoints, trees, fruits
      ensures Valid() && state == old(state)
      ensures state == 0 ==> unchanged(this, branchPoints)
      ensures state != 0 ==> AllGrew(old(trees), now, TreeSpeed(state))
      ensures TreeSpawned(old(trees), old(branchPoints.points), old(lastTreeSpawnTime), trees, lastTreeSpawnTime, seed, now,
        SpawnDue(state, trees != [] && trees[0].pendingBranches == [], now - old(lastTreeSpawnTime)))
      ensures state <= 1 ==>
        fruits == old(fruits) && butterflies == old(butterflies) &&
        lastFruitSpawnTime == old(lastFruitSpawnTime) && fruitSpawnInterval == old(fruitSpawnInterval) &&
        lastButterflyTransformTime == old(lastButterflyTransformTime)
      ensures state == 2 ==>
        FruitSpawned(old(fruits), old(fruitSpawnInterval), old(lastFruitSpawnTime), now, pick, parts) &&
        AllRipened(old(fruits)) &&
        (|fruits| > |old(fruits)| ==> fruits[|fruits| - 1].Progress() == Ripen(Unripe, FruitGrowthSpeed)) &&
        butterflies == old(butterflies) && lastButterflyTransformTime == old(lastButterflyTransformTime)
      ensures state == 3 ==>
        Transformed(old(fruits), old(butterflies), old(lastButterflyTransformTime), now, d) && NoneRipened(old(fruits)) &&
        lastFruitSpawnTime == old(lastFruitSpawnTime) && fruitSpawnInterval == old(fruitSpawnInterval)
      ensures forall k :: 0 <= k < |trees| ==> trees[k] in old(trees) || fresh(trees[k])
    {
      if state == 1 {
        AnimateGrowth(now, seed);
      } else if state == 2 {
        AnimateFruit(now, seed, pick, parts);
      } else if state == 3 {
        AnimateButterflies(now, seed, d);
      }
    }

    /** The animation step of a frame, for a tree a trigger of the same frame has just
        planted from `seed` at `now` (when `planted`): its timer is `now` and its delay
        130 ms, so no speed reveals a branch of it yet. */
    method AnimateTriggered(now: int, seed: TreeSeed, spawnSeed: TreeSeed, pick: real, parts: int,
                            d: ButterflyDraws, ghost planted: bool)
      requires Valid() && SeedFits(seed, screenWidth, screenHeight) && SeedFits(spawnSeed, screenWidth, screenHeight)
      requires (parts == 2 || parts == 3) && 0.0 <= pick < 1.0 && ButterflyDrawsFit(d)
      requires planted ==> trees != [] && PlantedFrom(trees[0], seed, now)
      modifies this`trees, this`fruits, this`butterflies, this`lastTreeSpawnTime,
               this`lastFruitSpawnTime, this`lastButterflyTransformTime, this`fruitSpawnInterval,
               branchPoints, trees, fruits
      ensures Valid() && state == old(state)
      ensures planted ==> PlantedFrom(old(trees)[0], seed, now)
      ensures state != 0 ==> AllGrew(old(trees), now, TreeSpeed(state))
      ensures TreeSpawned(old(trees), old(branchPoints.points), old(lastTreeSpawnTime), trees, lastTreeSpawnTime, spawnSeed, now,
        SpawnDue(state, trees != [] && trees[0].pendingBranches == [], now - old(lastTreeSpawnTime)))
      ensures state <= 1 ==>
        fruits == old(fruits) && butterflies == old(butterflies) &&
        lastFruitSpawnTime == old(lastFruitSpawnTime) && fruitSpawnInterval == old(fruitSpawnInterval) &&
        lastButterflyTransformTime == old(lastButterflyTransformTime)
      ensures state == 2 ==>
        FruitSpawned(old(fruits), old(fruitSpawnInterval), old(lastFruitSpawnTime), now, pick, parts) &&
        AllRipened(old(fruits)) &&
        (|fruits| > |old(fruits)| ==> fruits[|fruits| - 1].Progress() == Ripen(Unripe, FruitGrowthSpeed)) &&
        butterflies == old(butterflies) && lastButterflyTransformTime == old(lastButterflyTransformTime)
      ensures state == 3 ==>
        Transformed(old(fruits), old(butterflies), old(lastButterflyTransformTime), now, d) && NoneRipened(old(fruits)) &&
        lastFruitSpawnTime == old(lastFruitSpawnTime) && fruitSpawnInterval == old(fruitSpawnInterval)
      ensures forall k :: 0 <= k < |trees| ==> trees[k] in old(trees) || fresh(trees[k])
    {
      Animate(now, spawnSeed, pick, parts, d);
    }

    /** One pass of the main loop after the window events: the MIDI messages read this
        frame, then the animation step of the state they leave. `seed` is used by the
        message that may plant the first tree, `spawnSeed` by a tree the animation step may
        add; `grown` names the trees the animation step starts from. */
    method Frame(now: int, ms: seq<MidiMessage>, seed: TreeSeed, spawnSeed: TreeSeed,
                 pick: real, parts: int, d: ButterflyDraws) returns (ghost grown: seq<Tree>)
      requires Valid() && SeedFits(seed, screenWidth, screenHeight) && SeedFits(spawnSeed, screenWidth, screenHeight)
      requires (parts == 2 || parts == 3) && 0.0 <= pick < 1.0 && ButterflyDrawsFit(d)
      modifies this`trees, this`fruits, this`butterflies, this`state, this`lastTreeSpawnTime,
               this`lastFruitSpawnTime, this`lastButterflyTransformTime, this`fruitSpawnInterval,
               branchPoints, trees, fruits
      ensures Valid()
      ensures state == MinInt(3, old(state) + Triggers(ms))
      ensures var planted := old(state) == 0 && Triggers(ms) > 0;
        |grown| == |old(trees)| + (if planted then 1 else 0) && grown[..|old(trees)|] == old(trees) &&
        (planted ==> fresh(grown[0]))
      ensures old(state) == 0 && Triggers(ms) > 0 ==> PlantedFrom(grown[0], seed, now)
      ensures old(state) != 0 ==>
        TreeSpawned(grown, old(branchPoints.points), old(lastTreeSpawnTime), trees, lastTreeSpawnTime, spawnSeed, now,
          SpawnDue(state, trees != [] && trees[0].pendingBranches == [], now - old(lastTreeSpawnTime)))
      ensures old(state) == 0 && Triggers(ms) > 0 ==>
        TreeSpawned(grown, old(branchPoints.points) + SeedLeaves(seed), old(lastTreeSpawnTime), trees, lastTreeSpawnTime,
          spawnSeed, now, SpawnDue(state, trees != [] && trees[0].pendingBranches == [], now - old(lastTreeSpawnTime)))
      ensures old(state) == 0 && Triggers(ms) == 0 ==>
        TreeSpawned(grown, old(branchPoints.points), old(lastTreeSpawnTime), trees, lastTreeSpawnTime, spawnSeed, now, false)
      ensures state <= 1 ==>
        fruits == old(fruits) && butterflies == old(butterflies) &&
        lastFruitSpawnTime == old(lastFruitSpawnTime) && fruitSpawnInterval == old(fruitSpawnInterval) &&
        lastButterflyTransformTime == old(lastButterflyTransformTime)
      ensures state == 2 ==>
        FruitSpawned(old(fruits), old(fruitSpawnInterval), old(lastFruitSpawnTime), now, pick, parts) &&
        (|fruits| > |old(fruits)| ==> fruits[|fruits| - 1].Progress() == Ripen(Unripe, FruitGrowthSpeed)) &&
        butterflies == old(butterflies) && lastButterflyTransformTime == old(lastButterflyTransformTime)
      ensures state == 3 ==>
        Transformed(old(fruits), old(butterflies), old(lastButterflyTransformTime), now, d) &&
        lastFruitSpawnTime == old(lastFruitSpawnTime) && fruitSpawnInterval == old(fruitSpawnInterval)
    {
      OnMidiMessages(ms, seed, now);
      grown := trees;
      AnimateTriggered(now, seed, spawnSeed, pick, parts, d, old(state) == 0 && Triggers(ms) > 0);
    }
  }
}
