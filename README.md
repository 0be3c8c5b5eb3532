# Spooky trees, fruit and butterflies — a verified model

Two pygame animations share one design. Both grow procedurally generated trees one branch
per frame, hang fruit on the trees' leaf points, and turn that fruit into butterflies.

- `spookyTreeGameMIDI.py` (the MIDI variant) advances its four phases on a MIDI Control
  Change message. Its trees spawn from random screen edges.
- `TreeAnimationGame.py` (the keyboard variant) advances on key `n`. Key `s` cycles the
  background and key `c` clears the canvas.

This project models the logic under the drawing code:

- the recursive, pre-order generation of a tree's branches and of the shared pool of leaf
  points (`branch_points`);
- the one-branch-per-frame reveal from the pending queue;
- the fruit growth latch;
- the phase machine of each variant;
- per-phase updates of the module-level containers. A `Sim` class carries those containers.
  Its fields are the scripts' globals.

Modules:

- `Geometry`: points, branches, the abstract branch end, the distance test, the leaf pool
  (`LeafPool`) and the fruit-placement filter.
- `Topology`: closed forms for the number of branches and leaf points a generation produces.
- `Fifo`: the reveal step on the drawn/pending queues and its n-fold iterate.
- `Ripening`: the fruit growth latch, shared by both variants with their own rates.
- `Phases`: the 0 → 1 → 2 → 3 phase step.
- `SpookyTree` and `SpookyGame`: the MIDI variant. Its `Tree`, `Fruit` and `Butterfly` are
  classes, and so is its `Sim`.
- `CalmTree` and `CalmGame`: the keyboard variant, modelled the same way.

Random draws are parameters. Each `Tree` constructor takes a draws value (`Sprouts`). It
mirrors the recursion of `generate_children` and holds every `random.uniform` that recursion
makes. A `Fits` predicate holds each draw to its source range. `cos`/`sin` are a
caller-supplied `Trig` function. Times are the `now` parameter. Each generation method is
proved against a pure function (`Grow`). That function returns the branches and leaf points
the recursion appends. The counting and layout lemmas are proved about it.

Notes on what the code does, which the model follows:

- Butterfly conversion (both variants) pops `fruits[0]` whether or not that fruit is fully
  grown, so fruit still growing can turn into a butterfly.
- In the keyboard variant, child length and width factors are drawn from [0.6, 0.8]
  (`random.uniform(0.6, 0.8)` at TreeAnimationGame.py:118-119).
- The keyboard variant's slow spawn needs `len(trees) < 1` in phase 1. That never holds,
  because phase 1 is only entered by appending the centre tree, and `c` leaves phase 1 for
  phase 0. `CalmGame.Sim.AnimateGrowth` proves no tree is added on that path.
- One pass of the MIDI main loop is `SpookyGame.Sim.HandleWindowEvents` (the pygame
  events) followed by `SpookyGame.Sim.Frame` (the MIDI messages, then the animation step).

## Model

| member | source | states |
|---|---|---|
| Geometry.LeafPool.constructor | spookyTreeGameMIDI.py:60 | the shared leaf-point pool starts empty |
| Geometry.End | spookyTreeGameMIDI.py:108-110 | `get_full_end` for a unit direction (cos a, sin a) lies at distance `length` from the branch start |
| Geometry.Available | spookyTreeGameMIDI.py:362-364 | the list comprehension keeps pool points only, so the available list is never longer than the pool |
| Geometry.AvailableMembers | spookyTreeGameMIDI.py:362-364 | a point is available exactly when it is in the pool and no fruit lies within distance 5 of it (squared distance below 25) |
| Geometry.PickIndex | spookyTreeGameMIDI.py:366 | `random.choice` over n > 0 candidates picks a valid index |
| Topology.Recurrences | spookyTreeGameMIDI.py:146-167 | the closed forms L(d) = 2^(d-1), C(d) = 3·2^(d-1) − 2 satisfy the generation's recurrences L(d) = 2·L(d−1), C(d) = 2·(1 + C(d−1)) with L(0) = L(1) = 1, C(0) = 0, C(1) = 1 |
| Topology.KnownSizes | TreeAnimationGame.py:268 | depths 2, 3, 4 and 6 give 2, 4, 8 and 32 leaf points and 5, 11, 23 and 95 branches |
| Fifo.Reveal | TreeAnimationGame.py:126-128 | one reveal never creates or drops a branch: drawn followed by pending is unchanged, and one branch moves when any is pending |
| Fifo.RevealTimesTakesPrefix | TreeAnimationGame.py:124-129 | after n reveals, drawn has gained exactly the first min(n, pending) pending branches, in order, and pending is the rest |
| Fifo.RevealFromStart | TreeAnimationGame.py:124-129 | starting from drawn = [], after n updates drawn equals the first min(n, total) branches of the generated layout and the total is conserved |
| Ripening.Ripen | spookyTreeGameMIDI.py:196-201 | from a reachable value and a positive rate, a tick keeps growth within [0, 1] with `fully_grown` set exactly at 1.0 and never lowers growth; a fully grown fruit is left as it is |
| Ripening.RipenFromUnripe | spookyTreeGameMIDI.py:187-201 | after n ticks from creation growth is min(n·rate, 1) and the fruit is fully grown exactly when n·rate ≥ 1 |
| Ripening.RipeIsStable | TreeAnimationGame.py:151-156 | once fully grown, any number of further ticks changes nothing |
| Phases.NextState | spookyTreeGameMIDI.py:315-327 | from a phase in 0..3 the step stays in 0..3, never goes back, and is a no-op exactly in phase 3 |
| SpookyTree.GrowCounts | spookyTreeGameMIDI.py:146-167 | generation below a branch of remaining depth d appends C(d) branches and records L(d) leaf points |
| SpookyTree.Grow | spookyTreeGameMIDI.py:146-167 | every call of `generate_children` records at least one leaf point, and appends a branch exactly when depth remains |
| SpookyTree.GrowFork | spookyTreeGameMIDI.py:150-159 | the first n children of a fork append a branch exactly when n > 0, and then at least one leaf point |
| SpookyTree.GrowForkCounts | spookyTreeGameMIDI.py:150-159 | the first n of the two fork children together append n·(1 + C(d−1)) branches and n·L(d−1) leaf points |
| SpookyTree.ChildIsChildOf | spookyTreeGameMIDI.py:155-157 | a child built from in-range draws starts at its parent's end, has its length and bottom width scaled by [0.6, 0.9] from the parent's length and top width, and tapers to 0.8 |
| SpookyTree.GrowLayout | spookyTreeGameMIDI.py:146-167 | every appended branch is a child of the parent or of a branch appended before it, and every recorded leaf point is the end of one of those branches |
| SpookyTree.GrowForkLayout | spookyTreeGameMIDI.py:150-159 | the same rooting and leaf facts for the first n children of a fork |
| SpookyTree.RootedTapers | spookyTreeGameMIDI.py:142 | when the trunk tapers to 0.8, every branch of a rooted layout does |
| SpookyTree.ForkChildren | spookyTreeGameMIDI.py:150-159 | at depth > 1 the left child comes first and the right child follows the left one's whole subtree at index 1 + C(d−1); both start at the parent's end; their angles lie in [a−1.5, a−0.2] and [a+0.2, a+1.5] |
| SpookyTree.DepthTwoLayout | spookyTreeGameMIDI.py:141-167 | a depth-2 tree is trunk, left child, its child, right child, its child, in that order, each starting at its parent's end; the two leaf points are the ends of the two grandchildren |
| SpookyTree.TreeShape | spookyTreeGameMIDI.py:133-167 | a tree of depth d holds 1 + C(d) branches and L(d) leaf points, is rooted at its trunk, every branch tapers to 0.8 and every leaf point is a branch end |
| SpookyTree.RandomTreeSizes | spookyTreeGameMIDI.py:39-43 | a tree from `get_random_tree_params` (depth 2 or 6) has 5 branches and 2 leaf points, or 95 and 32 |
| SpookyTree.Tree.constructor | spookyTreeGameMIDI.py:133-144 | pending is the full generated layout (trunk first), drawn is empty, the pool gains the tree's leaf points in generation order, and the delay and timer are set |
| SpookyTree.Tree.GenerateChildren | spookyTreeGameMIDI.py:146-167 | appends exactly the branches and leaf points `Grow` describes, to the pending list and to the pool |
| SpookyTree.Tree.Update | spookyTreeGameMIDI.py:169-176 | when something is pending and the elapsed time reaches delay/speed: the old pending[0] becomes the last drawn branch, the timer becomes the current time and the delay becomes max(0.95·delay, 50); otherwise nothing changes; the total is conserved and the result says whether pending is empty |
| SpookyTree.Fruit.constructor | spookyTreeGameMIDI.py:187-192 | a new fruit at the given point has growth 0, is not fully grown, has size 12 and 2 or 3 parts |
| SpookyTree.Fruit.Update | spookyTreeGameMIDI.py:196-201 | one growth tick at rate 0.005 (clamped to exactly 1.0, then latched); growth never decreases and a fully grown fruit is unchanged |
| SpookyTree.FruitRipensInTwoHundredTicks | spookyTreeGameMIDI.py:196-201 | a fruit is exactly fully grown (growth 1.0) after 200 ticks and not yet after 199 |
| SpookyTree.Butterfly.constructor | spookyTreeGameMIDI.py:229-233 | a butterfly starts at the fruit's position with the drawn velocity, flap timer 0, and scale 2.0 times the drawn factor |
| SpookyGame.ControlChangeBytes | spookyTreeGameMIDI.py:313 | masking with 0xF0 gives 0xB0 (176) exactly for the status bytes 0xB0..0xBF |
| SpookyGame.IsAdvance | spookyTreeGameMIDI.py:313 | a message advances the animation exactly when its status is a Control Change on any channel (0xB0..0xBF), its controller is 18 and its value is above 64 |
| SpookyGame.OnMessage | spookyTreeGameMIDI.py:313-327 | an advance message moves a phase in 0..3 one step up, capped at 3; any other message leaves the phase |
| SpookyGame.StateAfterCountsTriggers | spookyTreeGameMIDI.py:308-327 | after a batch of messages the phase is min(3, phase + number of CC-18-above-64 messages): it never decreases and stays at 3 |
| SpookyGame.RunningUntilStopped | spookyTreeGameMIDI.py:298-303 | the loop keeps running exactly when no event of the batch is a quit or an Escape press |
| SpookyGame.TreeSpawn | spookyTreeGameMIDI.py:76-92 | with the draws in range, the spawn point lies on the chosen screen edge and the trunk angle is within 0.2 of the direction straight into the screen from that edge |
| SpookyGame.Sim.constructor | spookyTreeGameMIDI.py:57-71 | empty containers, phase 0, all three timers at the start time, fruit interval 1000 |
| SpookyGame.Sim.HandleWindowEvents | spookyTreeGameMIDI.py:298-303 | the first half of the loop body: quit or Escape clears `running`, and nothing else changes |
| SpookyGame.Sim.AddTree | spookyTreeGameMIDI.py:317-319 | appends one fresh tree built from the draws: at the edge spawn point and angle, with the drawn depth, drawn empty, its full layout pending, the initial delay and the current time; the pool gains exactly its leaf points |
| SpookyGame.Sim.OnMidiMessage | spookyTreeGameMIDI.py:309-327 | the phase becomes `OnMessage` of the old phase; an advance message in phase 0 appends exactly the tree of the draws (contents as for AddTree) and extends the pool by its leaf points; otherwise trees and pool are unchanged |
| SpookyGame.Sim.OnMidiMessages | spookyTreeGameMIDI.py:306-327 | the phase after the batch is min(3, phase + triggers); the tree of the draws is appended, with the pool extended by its leaf points, exactly when the batch starts in phase 0 and holds a trigger; otherwise trees and pool are unchanged |
| SpookyGame.Sim.UpdateTrees | spookyTreeGameMIDI.py:336-337 | every tree takes one update at the current time and speed: a tree with a pending branch whose delay/speed has elapsed reveals it, restarts its timer and decays its delay to max(0.95·delay, 50); any other tree keeps its queues, timer and delay |
| SpookyGame.Sim.SpawnFruit | spookyTreeGameMIDI.py:361-370 | when due and a point is available, appends one fresh unripe fruit at the chosen available point, at distance ≥ 5 from every existing fruit, and shrinks the interval to max(300, 0.98·interval); otherwise the fruit and the interval are unchanged; the timer restarts exactly when due |
| SpookyGame.Sim.UpdateFruits | spookyTreeGameMIDI.py:371-372 | every fruit takes one growth tick |
| SpookyGame.Sim.TransformButterfly | spookyTreeGameMIDI.py:378-382 | when due, fruits[0] is removed and one butterfly appears at its position; otherwise nothing changes; fruit plus butterflies stay as many |
| SpookyGame.Sim.SpawnTreeIfDue | spookyTreeGameMIDI.py:352-357 | when more than the interval has elapsed, the tree of the draws is appended (contents as for AddTree), the pool gains its leaf points and the timer restarts; otherwise trees, pool and timer are unchanged |
| SpookyGame.Sim.AnimateGrowth | spookyTreeGameMIDI.py:334-345 | phase 1: every tree takes one update at speed 3.0, then the tree of the draws is planted and the timer restarted exactly when the first tree has nothing pending and more than 2000 ms have elapsed |
| SpookyGame.Sim.GrowLater | spookyTreeGameMIDI.py:346-357 | phases 2 and 3: every tree takes one update at speed 0.5, then the tree of the draws is planted and the timer restarted exactly when more than 15000 ms have elapsed |
| SpookyGame.Sim.RipenFruit | spookyTreeGameMIDI.py:359-373 | the fruit spawn step (as for SpawnFruit), then every existing fruit takes one growth tick and a new fruit has taken its first one |
| SpookyGame.Sim.AnimateFruit | spookyTreeGameMIDI.py:346-373 | phase 2: the tree facts of GrowLater, then the fruit facts of RipenFruit |
| SpookyGame.Sim.AnimateButterflies | spookyTreeGameMIDI.py:346-382 | phase 3: the tree facts of GrowLater, then the conversion step of TransformButterfly; no fruit ripens |
| SpookyGame.Sim.Animate | spookyTreeGameMIDI.py:334-386 | the phase is unchanged; phase 0 changes nothing; otherwise every tree takes one update at the phase's speed and the tree of the draws is planted exactly when that phase's spawn is due; fruit, butterflies and their timers are untouched in phases 0 and 1; phase 2 gives the fruit facts of RipenFruit, phase 3 the conversion facts of TransformButterfly without ripening |
| SpookyGame.Sim.AnimateTriggered | spookyTreeGameMIDI.py:334-386 | the animation step after the messages, for a tree a trigger has just planted: that tree is still untouched afterwards (its timer is `now` and its delay 130 ms, which no speed up to 3.0 exceeds); every other fact of Animate holds: outside phase 0 every tree takes one update at the phase's speed; the tree of the spawn draws is planted exactly when the spawn is due; in phases 0 and 1 fruit, butterflies, the fruit timer and interval and the butterfly timer are kept; phase 2 gives the fruit spawn step, every old fruit's tick and the new fruit's first tick, with butterflies and their timer kept; phase 3 gives the conversion step with no fruit ripening and the fruit timer and interval kept |
| SpookyGame.Sim.Frame | spookyTreeGameMIDI.py:306-386 | the second half of the loop body: the phase becomes min(3, phase + triggers); the trees after the messages are the old ones plus, when phase 0 met a trigger, one fresh tree built from the trigger's draws, which at the end of the frame still has no branch revealed, all its branches pending and its timer at `now`; from those trees and that pool, the animation step plants the tree of the spawn draws exactly when the phase's spawn is due; in phases 0 and 1 fruit, butterflies, the fruit timer and interval and the butterfly timer are kept; in phase 2 the fruit spawn step holds, a new fruit having taken one tick, with butterflies and their timer kept; in phase 3 the conversion step holds, with the fruit timer and interval kept |
| CalmTree.GrowCounts | TreeAnimationGame.py:102-122 | generation below a branch of remaining depth d appends C(d) branches and records 2^(d−1) leaf points (1 for d ≤ 0) |
| CalmTree.Grow | TreeAnimationGame.py:102-122 | every call of `generate_children` records at least one leaf point, and appends a branch exactly when depth remains |
| CalmTree.GrowKids | TreeAnimationGame.py:108-122 | the first n children append a branch exactly when n > 0, and then at least one leaf point |
| CalmTree.GrowKidsCounts | TreeAnimationGame.py:108-122 | the first n children together append n·(1 + C(d−1)) branches and n·L(d−1) leaf points |
| CalmTree.ChildIsChildOf | TreeAnimationGame.py:110-121 | a child starts at its parent's end, its angle is within 0.3 of the parent's, its length and bottom width scale by [0.6, 0.8], and it tapers to 0.3 |
| CalmTree.GrowLayout | TreeAnimationGame.py:102-122 | every appended branch is a child of the parent or of a branch appended before it, and every leaf point is a branch end |
| CalmTree.GrowKidsLayout | TreeAnimationGame.py:108-122 | the same for the first n children |
| CalmTree.RootedTapers | TreeAnimationGame.py:97 | when the trunk tapers to 0.3, every branch of a rooted layout does |
| CalmTree.Children | TreeAnimationGame.py:108-122 | a lone child is within ±0.1 of its parent; of two, child 0 comes first with angle in [a−0.3, a−0.1] and child 1 at index 1 + C(d−1) with angle in [a+0.1, a+0.3]; all start at the parent's end |
| CalmTree.DepthTwoLayout | TreeAnimationGame.py:97-122 | a depth-2 tree is trunk, child, grandchild, child, grandchild in that order, each starting at its parent's end, with the grandchildren's ends as the leaf points |
| CalmTree.TreeShape | TreeAnimationGame.py:89-122 | a tree of depth d holds 1 + C(d) branches and L(d) leaf points, rooted, tapering to 0.3, leaf points at branch ends |
| CalmTree.CenterTreeSize | TreeAnimationGame.py:268 | the centre tree (depth 4) has 23 branches and 8 leaf points |
| CalmTree.SpawnedTreeSizes | TreeAnimationGame.py:299-303 | a fast-spawn tree (depth 2 to 4) has 5, 11 or 23 branches and 2, 4 or 8 leaf points |
| CalmTree.Tree.constructor | TreeAnimationGame.py:89-100 | pending is the full generated layout with the upright trunk first, drawn is empty, and the pool gains the leaf points |
| CalmTree.Tree.GenerateChildren | TreeAnimationGame.py:102-122 | appends exactly the branches and leaf points `Grow` describes |
| CalmTree.Tree.Update | TreeAnimationGame.py:124-129 | moves pending[0] to the end of drawn whenever pending is non-empty; the total is conserved; the result says whether pending is empty |
| CalmTree.Fruit.constructor | TreeAnimationGame.py:141-146 | a new fruit has growth 0, is not fully grown, size 8 and the drawn shape |
| CalmTree.Fruit.Update | TreeAnimationGame.py:151-156 | one growth tick at rate 0.01, clamped to exactly 1.0 and latched; never decreasing |
| CalmTree.FruitRipensInOneHundredTicks | TreeAnimationGame.py:151-156 | a fruit is exactly fully grown after 100 ticks and not yet after 99 |
| CalmTree.Butterfly.constructor | TreeAnimationGame.py:192-195 | a butterfly starts at the fruit's position with the drawn velocity and flap timer 0 |
| CalmGame.ControlsAfterAppend | TreeAnimationGame.py:257-284 | handling two batches of events in turn is handling their concatenation |
| CalmGame.ScreenIndexCycles | TreeAnimationGame.py:274-277 | the background index is (start + number of `s` presses) mod 3, so it always indexes `SCREEN_COLORS`; `c` does not move it |
| CalmGame.PhaseWithoutClear | TreeAnimationGame.py:263-273 | without `c`, the phase after a batch is min(3, phase + number of `n` presses): it never decreases and stays at 3 |
| CalmGame.ClearRestarts | TreeAnimationGame.py:278-284 | after the last `c` the phase counts only the `n` presses that follow it |
| CalmGame.RunningUntilStopped | TreeAnimationGame.py:257-262 | the loop keeps running exactly when it was running and no quit event or Escape press came |
| CalmGame.Step | TreeAnimationGame.py:257-284 | one event: the loop stops exactly on quit or Escape; the phase takes the next step on `n`, becomes 0 on `c` and is otherwise kept; the background index moves to (index+1) mod 3 on `s` and is otherwise kept |
| CalmGame.Sim.constructor | TreeAnimationGame.py:28-44 | empty containers, phase 0, background index 0 with white background, running, timers at the start time |
| CalmGame.Sim.AddTree | TreeAnimationGame.py:268-269 | appends one fresh tree at the given base with the given length and depth, drawn empty and its full layout pending; the pool gains exactly its leaf points |
| CalmGame.Sim.PressN | TreeAnimationGame.py:263-273 | key `n`: the phase takes the next step; in phase 0 the centre tree (base (w//2, h), length 80, width 16, depth 4) is appended with its contents and leaf points; otherwise trees and pool are unchanged |
| CalmGame.Sim.Clear | TreeAnimationGame.py:278-284 | key `c`: phase 0 with trees, fruit, butterflies and the pool emptied |
| CalmGame.Sim.HandleEvent | TreeAnimationGame.py:257-284 | the controls become `Step` of the old controls; `c` empties trees, fruit, butterflies and the pool; any other event keeps fruit and butterflies, plants the centre tree of the draws (contents and leaf points) exactly when it is `n` in phase 0, and otherwise keeps trees and pool |
| CalmGame.Sim.HandleEvents | TreeAnimationGame.py:257-284 | after a batch the controls are the fold of the events; without `c`, the centre tree of the draws of the first `n` is planted exactly when the batch starts in phase 0 and holds an `n`, and otherwise trees and pool are unchanged, with fruit and butterflies kept; any `c` leaves no fruit and no butterflies |
| CalmGame.Sim.UpdateTrees | TreeAnimationGame.py:293-294 | every tree reveals its next pending branch, if any |
| CalmGame.Sim.AnimateGrowth | TreeAnimationGame.py:292-319 | every tree reveals one branch; then the tree of the draws is appended at (x, h) with its contents and leaf points, and the timer restarted, exactly when the first tree is complete and more than 200 ms have passed; otherwise trees, pool and timer are unchanged, so the slow-spawn path never adds one |
| CalmGame.Sim.SpawnFruit | TreeAnimationGame.py:325-333 | when more than 500 ms have passed and some point is available, appends one fresh unripe fruit of the drawn shape at the chosen available point, at distance ≥ 5 from every existing fruit; otherwise the fruit is unchanged; the timer restarts exactly when due |
| CalmGame.Sim.UpdateFruits | TreeAnimationGame.py:334-335 | every fruit takes one growth tick |
| CalmGame.Sim.RipenFruit | TreeAnimationGame.py:325-335 | the fruit spawn step (as for SpawnFruit), then every existing fruit takes one growth tick and a new fruit has taken its first one |
| CalmGame.Sim.TransformButterfly | TreeAnimationGame.py:348-352 | when some fruit exists and more than 100 ms have passed, fruits[0] is removed and a fresh butterfly with the drawn velocity appears at its position and the timer restarts; otherwise nothing changes; fruit plus butterflies stay as many |
| CalmGame.Sim.Animate | TreeAnimationGame.py:292-355 | the phase is unchanged; outside phase 1 no tree changes, and neither do the pool and the spawn timer; phase 1 gives the facts of AnimateGrowth; outside phase 2 no fruit ripens and the fruit timer is kept; phase 2 gives the facts of RipenFruit; outside phase 3 butterflies and their timer are kept; phase 3 gives the conversion facts of TransformButterfly |
| CalmGame.Sim.Poll | TreeAnimationGame.py:257-284 | the event half of a frame: the controls are the fold of the events and the background colour follows the `s` presses; without `c`, a first `n` in phase 0 leaves exactly one fresh tree, the centre tree of that press's draws with nothing revealed, and the pool its leaf points, and otherwise trees and pool are kept, as are fruit and butterflies; any `c` leaves no fruit and no butterflies |
| CalmGame.Sim.AnimatePolled | TreeAnimationGame.py:292-355 | the animation half of a frame after a poll without `c`: the centre tree just planted has revealed exactly its first branch in phase 1 and nothing otherwise; phase 1 gives the reveal and spawn facts of AnimateGrowth; outside phase 1 trees, pool and spawn timer are kept; phase 2 gives the fruit spawn step, every old fruit's tick and the new fruit's first tick; outside phase 2 no fruit ripens and the fruit timer is kept; phase 3 gives the conversion step; outside phase 3 butterflies and their timer are kept; in phases 0 and 1 the fruit is kept |
| CalmGame.Sim.Frame | TreeAnimationGame.py:255-358 | one pass of the loop keeps the invariant; the controls are the fold of the events; the background colour is `SCREEN_COLORS[(index + presses of s) mod 3]`; in a poll without `c`: the trees the animation starts from are the old ones, or, after a first `n` in phase 0, exactly the fresh centre tree (base (w//2, h), length 80, width 16, depth 4) of that press's draws; in phase 1 every one of them reveals one branch, so the centre tree shows exactly its first, and the tree of the draws is planted with its leaf points and the timer restarted exactly when the first tree is complete and more than 200 ms have passed; outside phase 1 they are the trees after the frame, nothing is revealed, the pool is the old one plus the centre tree's leaf points when it was planted, and the spawn timer is kept; phase 2 gives the fruit spawn step, every old fruit's tick and the new fruit's first tick, and outside phase 2 no fruit ripens; phase 3 gives the conversion step; for every poll, the fruit timer is kept outside phase 2 and the butterfly timer outside phase 3 |

## Left out

- Drawing: every `draw` method and `pygame.draw.polygon`, `screen.fill`, `display.flip`, and
  the `colorsys` colour computations. They only render.
- Trigonometry: `math.cos`/`math.sin` in `get_full_end` and the spawn angles. A branch end
  is `End(b, trig)` for a caller-supplied direction function. `math.pi` is the double
  constant 3.141592653589793.
- `Butterfly.update` in both scripts (random jitter, a `math.hypot` speed cap and edge
  bounces). It is floating-point numerics on foreign randomness. So is the velocity sign flip
  at the screen edge.
- Every `random.*` call becomes a parameter held to its range. This covers `uniform` draws,
  `randint` and `choice`. `random.choice` over the available points is the index
  `floor(u · n)` of a draw u in [0, 1).
- `math.hypot(dx, dy) < 5` is stated as `dx² + dy² < 25` over reals.
- Floating point: all lengths, angles, growths and times are exact reals. Fruit growth
  therefore reaches exactly 1.0 after 200 (0.005) or 100 (0.01) ticks. In IEEE doubles the
  running sums are 1.0000000000000007 at tick 200 and at tick 100, and below 1.0 one tick
  earlier. So the clamp to 1.0 fires on the same tick as in the model, with the same
  latched value 1.0.
- I/O: these are left out or passed in as parameters.
  - MIDI device setup and `poll`/`read(10)`. A batch is any sequence of messages, not at
    most ten.
  - The `print` calls.
  - The pygame event queue, whose events are a parameter.
  - `get_ticks`, which is the `now` parameter. Each tree's timer takes the `now` of its
    creation.
  - Display setup and the screen size, which are constructor parameters.
  - `clock.tick`, `pygame.quit` and `sys.exit`.
- The MIDI variant's `SCREEN_COLORS` and `current_screen_index` are never used there.
- CalmGame.Sim.Animate: requires the fast-spawn draws to be in range for every phase-1
  frame, not only on frames that spawn. So a phase-1 frame needs a screen at least 100 pixels
  wide. The script would raise in `random.randint(50, w - 50)` on a narrower screen at its
  first fast spawn. The model does not represent that error.
- CalmGame.Sim.AnimateGrowth: requires the fast-spawn draws in range on every phase-1 frame,
  as CalmGame.Sim.Animate does and for the same reason.
- CalmGame.Sim.AnimatePolled: requires the fast-spawn draws in range whenever the phase is
  1, as CalmGame.Sim.Animate does.
- CalmGame.Sim.Frame: requires the fast-spawn draws in range whenever the events leave
  phase 1, as CalmGame.Sim.Animate does.
- SpookyGame.Sim.Frame: does not restate the per-tree update of the trees that existed before
  the frame, nor the ripening tick of the existing fruit. Both are stated by
  SpookyGame.Sim.Animate, which Frame runs on the state the messages leave. Carrying them
  through Frame would make its proof much more costly.
- SpookyGame.Sim.Frame: one tree draw serves the whole MIDI batch. At most one message of a
  batch can start a tree, so a single draw for the batch is enough.
- CalmGame.Sim.Frame: states the trees, pool, fruit spawn, ripening and conversion only for a
  poll without `c`. For a poll with a `c` it states only the controls, the background and the
  kept timers, since which tree a later `n` of the same poll plants is not stated by
  CalmGame.Sim.Poll either.
- CalmGame.Sim.HandleEvents: for a poll that holds a `c`, it states the controls and that no
  fruit and no butterflies remain, but not which trees a later `n` of the same poll plants.
- CalmGame.Sim.Poll: for a poll that holds a `c`, it states the controls, the background and
  that no fruit and no butterflies remain, but not which trees a later `n` of the same poll
  plants, as for CalmGame.Sim.HandleEvents, whose contract it passes on.
