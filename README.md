# Flappy-bird engine and game rules, modelled in Dafny

This project models the engine-independent core of a small Flappy-Bird clone
built on PIXI, and proves properties of it. Each module below covers one file
of the game or its plugins:

- `Animation` (`animator.dfy`) models the tween engine. An `Animator`
  keeps a queue of interpolation steps over a `Target` object's numeric
  properties. The class `Registry` is the global list of running animators.
  One `Update` is a small state machine: it moves properties, advances a
  step, starts the next loop or finishes.
- `SpriteCollider` (`sprite_collider.dfy`) models the box collider.
  - Group compatibility, the box of a sprite and the strict overlap test are
    pure.
  - The flat registry of bodies is the class `World`. It has `AddSprite`,
    `EnableSprite` and the per-tick sweep over all ordered pairs.
- `ObjectPool` (`object_pool.dfy`) models the generic pool. It is a LIFO
  reserve with pool-key ownership tags and its two error conditions.
- `GameWindow` (`game_window.dfy`) models the run loop:
  - the `speed` name/number accessor;
  - the capped and scaled frame delta;
  - pause and resume;
  - the one-shot error halt;
  - `init`.
- `Resources` (`resources.dfy`) models the resource loader:
  - file-name based ids;
  - the queue-or-load dispatch of `addAsset`/`addSound`;
  - classification of a source by its suffix;
  - the `preload` walk and its completion counter.
- `Obstacles` (`obstacle.dfy`) models the obstacle module:
  - the pipe/goal geometry;
  - the on-screen list `obstaclesArray` and its pool;
  - scrolling and off-screen removal;
  - `reset`;
  - the `updateAll` walk by index, which passes over the obstacle after a
    removed one.
- `Players` (`player.dfy`) models the bird: integer-step gravity, the jump
  guard, the collision response and the `dead` flag.
- `Scenes` (`main_scene.dfy`) models the main scene:
  - score and high score;
  - the game-over and started flags;
  - the frame counter that spawns an obstacle every 121 running frames;
  - the wiring of the bird's signals to `goal` and `collided`.

JavaScript numbers are modelled as `real`. Velocities and the frame counter
are `int`, because the code only ever adds integers to them. The clock
reading, the random number and texture sizes are parameters. A callback
written by game code is a `Callback` value; the only thing the model observes
of it is whether calling it throws.

`undefined` and `null` are `None`. A NaN frame delta, which comes from a
speed stored as a name the setter does not know, is also `None`.

`for … in` loops that write each key independently are modelled as a single
map update. Where the order of keys matters (the `preload` walk), the order
is an input.

Looping follows the code:
- a positive `loops` runs that many passes;
- `loops = 0` is not decremented, then fails the `loops != 0` test, so it
  finishes after one pass, like 1;
- only a negative count never finishes (`Animation.LoopCountTermination`).

## Model

| member | source | states |
|---|---|---|
| Animation.StoredDuration | libs/plugins/animator.js:67-73 | `to` stores a missing or zero duration as null and any other duration as given |
| Animation.TotalDurationAppend | libs/plugins/animator.js:50-55 | queuing a step adds exactly that step's duration (400 when it has none) to the total duration |
| Animation.TotalDurationAllDefault | libs/plugins/animator.js:38-55 | n steps without a duration last 400·n milliseconds |
| Animation.NamesExact | libs/plugins/animator.js:95-99 | a property is recorded by `start` if and only if some queued step names it |
| Animation.Capture | libs/plugins/animator.js:93-99 | `_initialProps` has exactly the named properties as keys, each holding the object's current value (undefined when it has none) |
| Animation.Lerp | libs/plugins/animator.js:137-141 | an interpolated value is the start value at eased progress 0 and the target at eased progress 1 |
| Animation.LerpBetween | libs/plugins/animator.js:137-141 | for eased progress in [0, 1] the interpolated value lies between the start value and the target |
| Animation.Interpolated | libs/plugins/animator.js:137-141 | every property of the step moves from its snapshot value (0 when missing) toward its target; every other property of the object is untouched |
| Animation.Snapshot | libs/plugins/animator.js:151-155 | a new step's start values are the object's current values of exactly the step's properties |
| Animation.Restored | libs/plugins/animator.js:166-168 | after a loop every recorded property reads its recorded value again and every other property is unchanged |
| Animation.Clamp | libs/plugins/animator.js:130-131 | the step fraction is at most 1, is 1 exactly when the raw fraction reaches 1, and is otherwise unchanged |
| Animation.Elapsed | libs/plugins/animator.js:129-131 | the step fraction is at most 1, is non-negative for non-negative time, and is 1 exactly when the step's duration has passed |
| Animation.ProgressBounded | libs/plugins/animator.js:133 | (step + fraction) / steps lies in [0, 1] for a step index inside the queue and a fraction in [0, 1] |
| Animation.LinearReachesTarget | libs/plugins/animator.js:216-218 | with Linear easing, a finished step leaves every property it names exactly at its target |
| Animation.LoopCountTermination | libs/plugins/animator.js:159-174 | a positive loop count completes on exactly that pass, 0 completes on the first pass, and a negative count never completes |
| Animation.NegativeNeverFinishes | libs/plugins/animator.js:159-160 | a negative loop count is never decremented to 0, so no number of passes completes it |
| Animation.FinishesAfterUnique | libs/plugins/animator.js:159-174 | the animation completes on a single, determined pass |
| Animation.NegativeLoopsNeverFinish | libs/plugins/animator.js:159-170 | with a negative loop count an update never finishes the animator, whatever its clock |
| Animation.IdleNeverMoves | libs/plugins/animator.js:127-146 | without a current step the fraction is 1, so an update never ends with only moving properties |
| Animation.FirstWithUid | libs/plugins/animator.js:112-116 | the index `stop` splices at holds the uid, and no earlier entry does |
| Animation.RemoveFirstWithUidSpec | libs/plugins/animator.js:111-119 | `stop` removes exactly the first entry with the animator's uid; the others keep their order; with no such entry nothing changes |
| Animation.Registry.constructor | libs/plugins/animator.js:343 | the list of running animators starts empty |
| Animation.Animator.constructor | libs/plugins/animator.js:31-48 | the initial field values: not animating, step 0, no steps, loops 1, no snapshots, no callback |
| Animation.Animator.CaptureProps | libs/plugins/animator.js:95-99 | the nested loop records the value of every property some step names (`Capture` over `Names`) |
| Animation.Animator.UpdateDuration | libs/plugins/animator.js:50-55 | `totalDuration` becomes the sum of the step durations with the default substituted |
| Animation.Animator.To | libs/plugins/animator.js:67-77 | one step is appended at the end; `totalSteps` is the new queue length; `totalDuration` grows by the new step's duration; the same animator is returned |
| Animation.Animator.Start | libs/plugins/animator.js:86-103 | step -1, time 0, no snapshots, animating, the callback stored, every named property recorded, total duration recomputed, the animator appended to the running list, the same animator returned |
| Animation.Animator.Rewind | libs/plugins/animator.js:87-100 | the field resets of `start`; the queue stays valid |
| Animation.Animator.Stop | libs/plugins/animator.js:111-119 | the running list loses exactly its first entry with this uid |
| Animation.Animator.ApplyFrame | libs/plugins/animator.js:122-144 | the clock advances by the frame delta. With a current step, progress and every named property follow the clamped fraction. Otherwise the fraction is 1 and nothing moves. While the animator runs, a non-negative clock and a positive step duration keep progress in [0, 1] |
| Animation.Animator.Update | libs/plugins/animator.js:121-176 | exactly one of four outcomes, the one `Outcome` dictates from the clock before the update (time plus delta against the step's duration, the step index, the queue length and the loop count), each with its whole new state: moved (fraction below 1); next step loaded with a fresh snapshot and clock 0; loop restarted with `loops` decremented only when positive and the recorded values restored; finished, with the step index past the queue, the clock and snapshots kept, the animator removed from the running list, not animating and the completion callback run once. The queue, callback, recorded values and total duration never change, and progress stays in [0, 1] while a step with a positive duration runs on a non-negative clock |
| Animation.Animator.EndStep | libs/plugins/animator.js:146-175 | the end-of-step branch: advance when a step remains; otherwise loop or finish according to the decremented loop count. Progress, the queue and the total duration are kept; finishing keeps the clock and the snapshots |
| Animation.UpdateAt | libs/plugins/animator.js:346-348 | one turn of the loop updates the animator at that index, with the outcome its clock dictates; it throws exactly when it finishes with a throwing completion callback, and only a finish changes the running list |
| Animation.Tick | libs/plugins/animator.js:344-355 | every update did what the updated animator's clock just before it dictates (`Outcome`), and an animator's first update starts from the clock it had on entry. A throw propagates exactly when some updated animator finished with a throwing completion callback while the window's error flag was clear; it sets the flag and ends the loop at that animator. Later throws are swallowed. When no animator finishes, every running animator is updated once, in order, and the list is unchanged; animators only ever leave the running list |
| Animation.TickStep | libs/plugins/animator.js:345-353 | one turn of the loop with its catch: the update's outcome follows the animator's clock, the error flag is set and the throw propagated exactly when it finishes with a throwing callback while the flag is clear, and no other animator changes |
| Animation.TickLoop | libs/plugins/animator.js:344-355 | the loop of `_update` against the clocks and callbacks on entry: the record of updates, the stop at the first propagated throw, and the quiet run when nothing throws |
| GameWindow.SpeedSetThenGet | libs/plugins/game-window.js:265-272 | setting 'normal', 'slow' or 'fast' and reading back gives that name; any other name is stored and reported unchanged, as is any number other than 1, 0.5 and 1.5; those three numbers are stored as given and read back as 'normal', 'slow' and 'fast' |
| GameWindow.SpeedGetThenSet | libs/plugins/game-window.js:265-272 | writing back what the getter reports leaves a numeric speed as it was |
| GameWindow.FrameDelta | libs/plugins/game-window.js:208 | the delta is NaN exactly when the stored speed is an unknown name rather than a number. Otherwise it is at most 50·speed, non-negative for non-negative time and speed, and equal to elapsed·speed below the cap |
| GameWindow.GameWindow.constructor | libs/plugins/game-window.js:37-90 | the window's initial flags, clock, delta and speed 1 |
| GameWindow.GameWindow.SetSpeed | libs/plugins/game-window.js:270-272 | the stored speed maps the three names to 1, 0.5 and 1.5; the getter then reports the name back |
| GameWindow.GameWindow.Pause | libs/plugins/game-window.js:222-224 | the window is paused |
| GameWindow.GameWindow.Resume | libs/plugins/game-window.js:231-233 | the window is no longer paused |
| GameWindow.GameWindow.MainLoop | libs/plugins/game-window.js:181-215 | the next frame is scheduled exactly when no error is set. A paused loop changes nothing. The first scene throw sets the error flag and ends the pass. Otherwise the delta is the capped, scaled elapsed time and the clock becomes `now` |
| GameWindow.GameWindow.Init | libs/plugins/game-window.js:110-139 | a no-op once initialised; otherwise each stage side defaults to 800 when missing or zero, the first loop pass runs (leaving clock and delta as they were when paused) and the window is initialised |
| SpriteCollider.GroupsOf | libs/plugins/sprite-collider.js:57-59 | an integer becomes a one-tag list, an array is kept, and a value for which `isNaN` is true becomes `true` |
| SpriteCollider.GroupsMatchSymmetric | libs/plugins/sprite-collider.js:31-39 | group compatibility does not depend on argument order |
| SpriteCollider.InGroups | libs/plugins/sprite-collider.js:31-39 | true if and only if either group is `true` or the two tag lists share a tag |
| SpriteCollider.RectGeometry | libs/plugins/sprite-collider.js:112-123 | width and height are the absolute scaled size, right ≥ left and bottom ≥ top, and the box sits at the anchor (shifted back by the size under a negative scale) |
| SpriteCollider.CollidesSymmetric | libs/plugins/sprite-collider.js:93-96 | the collision test does not depend on argument order |
| SpriteCollider.SharedEdgeIsNoCollision | libs/plugins/sprite-collider.js:94 | boxes that only share an edge never collide |
| SpriteCollider.CollidesIff | libs/plugins/sprite-collider.js:93-96 | a disabled body never collides; enabled, staged bodies with a `true` group collide exactly when their boxes overlap |
| SpriteCollider.CheckCollision | libs/plugins/sprite-collider.js:93-103 | the result is overlap ∧ groups ∧ both enabled ∧ both staged. No handler runs when it is false. When it is true each sprite's handler is called once with the other's box, stopping at a handler that throws |
| SpriteCollider.RowFromExact | libs/plugins/sprite-collider.js:19-23 | one inner loop checks (i, j) for exactly the j ≠ i in range |
| SpriteCollider.RowsFromExact | libs/plugins/sprite-collider.js:18-24 | the outer loop from a row down checks exactly the distinct pairs whose first index is at or past that row; there are rows·(n - 1) of them |
| SpriteCollider.SweepPairs | libs/plugins/sprite-collider.js:16-24 | the sweep checks every ordered pair of distinct bodies and no self-pair: n·(n - 1) checks |
| SpriteCollider.SweepRow | libs/plugins/sprite-collider.js:19-23 | one row visits its pairs from the last body down and gathers their handler calls. It throws exactly when some partner collides with the row's body and one of the two handlers throws; it then ends right after the highest such partner, having made the calls of the pairs before it and those of that pair up to the throw |
| SpriteCollider.SweepRects | libs/plugins/sprite-collider.js:16-29 | the sweep over a list of boxes, row by row from the last: all ordered pairs and every handler call when nothing throws; it throws, setting the window's error flag, exactly when some colliding pair has a throwing handler, and then has made exactly the checks and handler calls up to the first throwing pair (`StoppedAt`) |
| SpriteCollider.StopsAt | libs/plugins/sprite-collider.js:16-29 | a throw at pair (i, j), after the rows above i ran quietly and no higher partner of i throws, stops the sweep with exactly the checks and calls up to it, a non-empty prefix of the full sweep |
| SpriteCollider.FirstThrowUnique | libs/plugins/sprite-collider.js:16-29 | the first throwing pair of a sweep is unique, so the stop state is determined by the boxes |
| SpriteCollider.LastIndex | libs/plugins/sprite-collider.js:76-77 | the index found holds the sprite, and no later body does |
| SpriteCollider.EnableLastSpec | libs/plugins/sprite-collider.js:75-83 | only a registered sprite is affected; only its last body changes, and only in `enabled` |
| SpriteCollider.EnableLastTwice | libs/plugins/sprite-collider.js:75-83 | enabling a sprite twice leaves only the second setting |
| SpriteCollider.World.constructor | libs/plugins/sprite-collider.js:14 | the registry starts empty |
| SpriteCollider.World.AddSprite | libs/plugins/sprite-collider.js:57-65 | exactly one enabled body with the normalised groups is appended |
| SpriteCollider.World.EnableSprite | libs/plugins/sprite-collider.js:75-83 | the result says whether the sprite is registered; the last body of that sprite gets `enabled = (flag !== false)`, and nothing else changes |
| SpriteCollider.World.Sweep | libs/plugins/sprite-collider.js:16-29 | the sweep throws exactly when two registered bodies collide and one of their handlers throws. Without a throw, all ordered pairs are checked and every handler call is made. With one, the window's error flag is set, and the checks and handler calls made are exactly those up to the first throwing pair |
| SpriteCollider.PrefixOfSweep | libs/plugins/sprite-collider.js:16-24 | the checks made up to any pair are a prefix of the full sweep's checks |
| ObjectPool.PoolKey | libs/plugins/object-pool.js:20 | a missing or empty key becomes `'__pool_key__'`; any other key is kept |
| ObjectPool.Pool.constructor | libs/plugins/object-pool.js:18-21 | a new pool has an empty reserve and the normalised key |
| ObjectPool.Pool.Create | libs/plugins/object-pool.js:33-46 | without `init` it fails and changes nothing. With an empty reserve `init` runs once and its result is tagged with the key. Otherwise the last reserved object is returned and popped, and `init` does not run. `enable` runs exactly when it exists. Ownership of the reserve is preserved |
| ObjectPool.Pool.Remove | libs/plugins/object-pool.js:59-66 | an owned object is pushed onto the reserve, and `disable` runs only when `enable` exists (it throws when `disable` is missing). A foreign object throws and the reserve is unchanged |
| ObjectPool.Pool.Clean | libs/plugins/object-pool.js:74-76 | the reserve is empty |
| ObjectPool.RemoveThenCreate | libs/plugins/object-pool.js:33-66 | removing an owned object and then creating one returns that same object and leaves the reserve as it was |
| Obstacles.GapHeight | src/objects/obstacle.js:20 | for a random number in [0, 1), the gap height lies in 100..699 |
| Obstacles.IndexOf | src/objects/obstacle.js:74 | `indexOf` returns the first position of the element, or -1 exactly when it is absent |
| Obstacles.SpliceIndexOf | src/objects/obstacle.js:74 | `splice(indexOf(x), 1)` removes the first x. With x absent it removes the last element |
| Obstacles.SpliceOne | src/objects/obstacle.js:74 | splicing one element out adds nothing, keeps the list free of repeats and drops the spliced element |
| Obstacles.Obstacle.constructor | src/objects/obstacle.js:13-46 | top pipe flipped at the gap; bottom pipe 350 below; goal in the gap (350 high, at 1.5 pipe widths); three bodies registered, pipes in group 1 and the goal in group 2 |
| Obstacles.Obstacle.GoalCollide | src/objects/obstacle.js:41-43 | the goal's handler disables that goal's collider and nothing else |
| Obstacles.Pass | src/objects/obstacle.js:86-90 | `updateAll` assigns one fate to every obstacle of the list it starts from |
| Obstacles.PassFates | src/objects/obstacle.js:86-90 | the first obstacle is never skipped. After it, an obstacle is skipped exactly when the one before was removed. A removed obstacle was off screen once moved, and a moved one was not |
| Obstacles.WalkMoved | src/objects/obstacle.js:87-88 | an obstacle that stays on screen is kept where it is, and the walk goes on with the next index |
| Obstacles.WalkRemoved | src/objects/obstacle.js:87-88 | an obstacle that leaves the screen is spliced out and reserved; the next one slides into its index and is passed over |
| Obstacles.KeptDropped | src/objects/obstacle.js:86-90 | the obstacles kept and those reserved together are exactly those the pass started from |
| Obstacles.ObstaclePool.constructor | src/objects/obstacle.js:79 | an empty list and an empty pool with the default key |
| Obstacles.ObstaclePool.Create | src/objects/obstacle.js:62-69 | the last reserved obstacle, or a new one built from the random number, is placed at the stage width, attached, has its goal re-enabled and is appended to the list |
| Obstacles.ObstaclePool.Take | src/objects/obstacle.js:63 | the pool's `create`: the last reserved obstacle when there is one, a new one otherwise |
| Obstacles.ObstaclePool.Place | src/objects/obstacle.js:64-67 | at the stage width, attached, goal enabled, appended at the end of the list |
| Obstacles.ObstaclePool.Remove | src/objects/obstacle.js:71-75 | a foreign obstacle throws and changes nothing. An owned one is reserved and detached, and only that element is spliced out of the list. A detached one throws after being reserved |
| Obstacles.ObstaclePool.UpdateObstacle | src/objects/obstacle.js:48-53 | x decreases by 5. The obstacle is returned to the pool and spliced out exactly when its right edge is left of 0 |
| Obstacles.ObstaclePool.Reset | src/objects/obstacle.js:80-84 | the list ends empty, and the reserve gains every former element in list order, each detached |
| Obstacles.ObstaclePool.PassRound | src/objects/obstacle.js:87-88 | one loop round keeps the walk's invariant and handles at least one obstacle of the original list |
| Obstacles.ObstaclePool.UpdateAll | src/objects/obstacle.js:86-90 | every obstacle gets its `Pass` fate. Moved and removed obstacles are 5 further left; skipped ones have not moved. Removed ones are detached and appended to the reserve in order. The list keeps exactly the non-removed ones in order |
| Obstacles.ObstaclePool.RunPass | src/objects/obstacle.js:87-89 | the index loop ends with the list, reserve, positions and attachment that the fates dictate |
| Players.Step | src/objects/player.js:57-61 | a frame adds gravity 1 to the velocity, then the new velocity to the height |
| Players.FallClosedForm | src/objects/player.js:57-61 | after n frames the velocity has grown by n, and the height by n·v + n(n+1)/2 |
| Players.JumpApex | src/objects/player.js:57-66 | after a jump the bird rises for 17 frames, 136 units in all, and is then at rest |
| Players.HasGoalGroup | src/objects/player.js:33 | the goal test throws on `true` groups; otherwise it says whether group 2 is among the tags |
| Players.Player.constructor | src/objects/player.js:11-23 | anchor in the middle, velocity 0, alive, at the reset position; the sprite carries the bird's `collide` handler (src/objects/player.js:32), which throws only for `true` groups, and no body of the game has them |
| Players.Player.Reset | src/objects/player.js:26-29 | the position is half the stage width and 200 above half the stage height; the bird is alive; the velocity is kept |
| Players.Player.Update | src/objects/player.js:57-61 | one gravity step of height and velocity; nothing else changes (the method may write only those two fields) |
| Players.Player.Jump | src/objects/player.js:64-66 | above the top of the stage nothing changes; otherwise the velocity becomes -17 |
| Players.Player.Collide | src/objects/player.js:32-54 | a goal only emits `'goal'`. Any other body stops the bird and moves it onto the box's top or against its left side. The first such hit since a reset makes it dead, sets the velocity to -10 and emits `'collided'` once. `true` groups throw |
| Players.Player.Crash | src/objects/player.js:37-53 | the non-goal branch: the velocity is 0, or -10 on the first hit; dead afterwards; `'collided'` emitted at most once between resets |
| Players.Player.Land | src/objects/player.js:39-46 | onto the box's top (rounded down) when past its left edge and above its bottom; against its left edge when only above its bottom; otherwise in place |
| Resources.LastSegment | libs/plugins/pixi-resource.js:26 | the result is the suffix after the last `/`, holds no `/`, and is the whole path when there is none |
| Resources.BeforeDot | libs/plugins/pixi-resource.js:27 | the result is the prefix before the first `.` and holds no `.` |
| Resources.LastSegmentAfterSlash | libs/plugins/pixi-resource.js:25-26 | the base name of `dir/name` is `name` |
| Resources.BeforeDotOfName | libs/plugins/pixi-resource.js:27 | the part before the extension of `name.ext` is `name` |
| Resources.AssetId | libs/plugins/pixi-resource.js:115-117 | a derived id has no `-`, `/` or `.`, and is as long as the base name without extension |
| Resources.AssetIdOfFile | libs/plugins/pixi-resource.js:112-118 | `dir/name.ext` gets the id `name` with each `-` made `_` (so `assets/my-graphic.png` gives `my_graphic`) |
| Resources.ClassifyNeedsDot | libs/plugins/pixi-resource.js:31-58 | a source without a dot is never recognised (it throws) |
| Resources.ClassifyImageCase | libs/plugins/pixi-resource.js:31 | `.png` loads as a texture, while `.PNG` is an unrecognised format |
| Resources.ClassifyJsonCase | libs/plugins/pixi-resource.js:46 | `.json` is recognised as JSON in lower and upper case |
| Resources.Normalise | libs/plugins/pixi-resource.js:112-118 | with a source argument the id and force are as given. Otherwise the first argument is the source, the id is derived from it, and a boolean second argument is `force` |
| Resources.Loader.constructor | libs/plugins/pixi-resource.js:17-19 | empty queues and assets, not preloaded |
| Resources.Loader.AddAsset | libs/plugins/pixi-resource.js:111-124 | not preloaded and not forced: the source is queued under its id, overwriting an earlier entry. Otherwise it is loaded into `assets` at once, or throws and stores nothing |
| Resources.Loader.AddAssetRequest | libs/plugins/pixi-resource.js:119-123 | the queue-or-load dispatch once the arguments are normalised |
| Resources.Loader.LoadAsset | libs/plugins/pixi-resource.js:30-59 | a recognised source is stored as an asset of its kind; any other throws and stores nothing |
| Resources.Loader.AddSound | libs/plugins/pixi-resource.js:142-152 | not preloaded and not forced: the source is queued. Otherwise an `.mp3` starts loading and its sound object replaces the entry, and anything else throws |
| Resources.Loader.AddSoundRequest | libs/plugins/pixi-resource.js:151 | the queue-or-load dispatch of `addSound` once the arguments are normalised |
| Resources.Loader.LoadSound | libs/plugins/pixi-resource.js:61-72 | only `.mp3` sources start loading; any other throws and changes nothing |
| Resources.Loader.Preload | libs/plugins/pixi-resource.js:160-191 | a counter expecting all queued assets and sounds is created. The walk succeeds exactly when every queued asset is recognised and every queued sound is a waiting `.mp3`; it then loads every asset and starts every sound. Otherwise it loads exactly the assets before the first unrecognised one, and starts exactly the sounds before the first bad sound entry (none when an asset failed), and throws that entry's error. Every asset afterwards was either loaded from the queue or there before |
| Resources.Loader.LoadQueuedAssets | libs/plugins/pixi-resource.js:173-181 | the asset walk loads exactly the assets of the entries before the first unrecognised one (`AssetStop`) and throws that entry's error; it succeeds, loading the whole queue, exactly when every source is recognised |
| Resources.WalkAssets | libs/plugins/pixi-resource.js:173-181 | the loop of the asset walk: the assets before the stop are stored over the old ones, and the error is the stop entry's |
| Resources.AssetStop | libs/plugins/pixi-resource.js:173-181 | the walk stops at the first entry whose source is unrecognised: every entry before it is recognised |
| Resources.AssetWalk | libs/plugins/pixi-resource.js:173-181 | over an order listing exactly the queued ids, the walk throws exactly when some queued source is unrecognised; otherwise it loads `LoadedAssets` of the whole queue; either way every asset left comes from the queue or was there before |
| Resources.WholeQueueLoaded | libs/plugins/pixi-resource.js:173-181 | walking a loadable queue to its end loads exactly one asset of the right kind per queued id |
| Resources.Loader.LoadQueuedSounds | libs/plugins/pixi-resource.js:183-190 | the sound walk starts loads for exactly the entries before the first one that is not a waiting `.mp3` source (`SoundStop`), in order, and throws that entry's error (not a source, or unrecognised); it succeeds exactly when every entry is a waiting `.mp3` |
| Resources.WalkSounds | libs/plugins/pixi-resource.js:183-190 | the loop of the sound walk: the loads started are those of the entries before the stop, in order |
| Resources.SoundStop | libs/plugins/pixi-resource.js:183-190 | the walk stops at the first entry that is not a waiting `.mp3` source: every entry before it is one |
| Resources.SoundWalk | libs/plugins/pixi-resource.js:183-190 | over an order listing exactly the queued ids, the walk throws exactly when some entry is not a waiting `.mp3`; otherwise every queued sound's load is started |
| Resources.Batch.constructor | libs/plugins/pixi-resource.js:163-164 | the counter starts at 0, with the number of queued entries expected |
| Resources.Batch.Complete | libs/plugins/pixi-resource.js:165-171 | each completion counts one. The callback fires, and the loader becomes preloaded, exactly on the completion that reaches the expected number. So it fires at most once, and never for an empty queue |
| Scenes.NextOffsetBounded | src/scenes/main.js:97-102 | one running frame keeps the counter in 0..120 and wraps it to 0 exactly when it stood at 120 |
| Scenes.SpawnSchedule | src/scenes/main.js:97-102 | n running frames leave the counter at (offset + n) mod 121 and spawn (offset + n) div 121 obstacles |
| Scenes.MainScene.constructor | src/scenes/main.js:15-50 | the scene's initial state: score, high score and counter 0, not over, not started. The bird is registered in groups 0, 1 and 2, carries its `collide` handler and is put on the stage. The one `restart` call empties the obstacle list into the pool, puts the bird at its reset position and makes it jump |
| Scenes.MainScene.Collided | src/scenes/main.js:53-57 | the game is over afterwards; a second collision changes nothing |
| Scenes.MainScene.Goal | src/scenes/main.js:69-74 | the score grows by one, the high score becomes the larger of the two, and high score ≥ score is preserved |
| Scenes.MainScene.Restart | src/scenes/main.js:81-89 | score and counter 0, not over, high score kept, every obstacle returned to the pool and detached where it stood, the bird reset and jumping; its scale, size, anchor, stage flag and handler are untouched |
| Scenes.MainScene.Update | src/scenes/main.js:92-111 | game over or not started: counter, list, reserve, collider registry and every obstacle's position and attachment untouched. Running: the counter advances, one obstacle is spawned at the stage width exactly when it passes 120, and the obstacles scroll as `Advanced` states (each by 5 except the one passed over after a removal, the off-screen ones detached, out of the list and pushed on the reserve; the registry changed only as `create` changes it). The bird falls whenever the game has started, even when over; its x, stage flag, handler, scale, size and anchor stay. High score ≥ score and counter in 0..120 are kept |
| Scenes.MainScene.Advance | src/scenes/main.js:97-104 | the running part of `update`: spawn, then `updateAll` over the list including the new obstacle, with the fates, positions and attachment of `Advanced`; the reserve is the old one without the reused obstacle, followed by the removed ones in order, and the registry is as `create` leaves it |
| Scenes.MainScene.Spawn | src/scenes/main.js:98-102 | the counter step: past 120 it wraps to 0 and exactly one obstacle is appended, at the stage width and attached, taken from the top of the reserve or built from the random number when the reserve is empty, with the registry changes of `create`; otherwise the reserve and the registry are untouched; the obstacles already there keep their positions |
| Scenes.MainScene.Touchstart | src/scenes/main.js:114-120 | ignored when the game is over; otherwise the game has started and the bird jumps |
| Scenes.MainScene.PlayerCollide | src/scenes/main.js:36-37 | the bird's `'goal'` signal scores one and raises the high score to the new score when beaten; its `'collided'` signal ends the game and keeps score and high score; a `true` group list throws and changes nothing in the scene |

## Left out

- Non-linear easing curves (Swing and the generated power, sine, circular and elastic ones) are not modelled. They use `cos`, `sqrt`, `sin` and `pow` on floats. A step's easing and the animator's default easing are function parameters; only Linear is defined.
- The falsy-easing branch of `update` (value 1 when no easing function exists) does not arise, because the default easing is always a function in this model.
- Floating-point rounding is not modelled: numbers are exact reals.
- `Date`-based uids and `Math.random` are inputs: `uid` is a constructor argument and `random` a parameter.
- Animation.Animator.Update: per-step `complete` callbacks are never run. This follows the code: the `currentStep.complete` test (libs/plugins/animator.js:147) reads the snapshot built at lines 151-154, which carries only property values.
- Animation.Tick: once an animator finishes and leaves the list, it does not state which animators are updated. As in the loop, the animator after the one that left is passed over that tick. For each update it states the outcome its clock dictates; the animator's new fields are stated by `Animation.Animator.Update`, not repeated here.
- `loops = 0` finishes after one pass: 0 is never decremented, and then `loops != 0` fails (libs/plugins/animator.js:159-160). The model follows the code.
- `GameWindow.resize`, renderer creation, DOM canvas styling, `requestAnimFrame`, `Stats` and `setScene` are not modelled: they are display and timing glue. The clock reading is the parameter `now`.
- The `'tick'` event that `mainLoop` emits is not connected to `Animation.Tick` and `SpriteCollider.World.Sweep`. Each of those is a separate operation.
- GameWindow.GameWindow.MainLoop: the scene update is a `Callback`. Its effects on the scene are modelled separately by `Scenes.MainScene.Update`.
- The engine's `toGlobal` is not modelled: a sprite's global position is its `x`, `y`. The pipe and goal sprites are children of the obstacle container (src/objects/obstacle.js:27-45), so in the game their global position is the container's position plus their own. The model keeps the container's scroll in `Obstacles.Obstacle.x` only. So `SpriteCollider.World.Sweep` over the game's bodies sees each pipe and goal box at its place relative to its obstacle, and never sees it approach the bird; its contracts hold for whatever positions the sprites carry.
- The PIXI display tree is not modelled beyond an obstacle's `attached` flag (whether it has a parent) and a sprite's `onStage` flag. The bird's sprite is put on the stage when the scene is built (src/scenes/main.js:39); in the engine this happens once the scene itself is shown.
- Scenes.MainScene.Update: the bird's fall (src/scenes/main.js:106-108) runs before the obstacles' step (src/scenes/main.js:96-104) in the model. The fall writes only the bird's velocity and height, which the obstacles' step never reads, and the step writes nothing of the bird, so the end state is the one the source reaches; the model gives up only the order of the two writes.
- Obstacles.ObstaclePool.Place: the pipe and goal sprites are not put on the stage when their container joins the scene (src/objects/obstacle.js:65), and `Obstacles.ObstaclePool.Remove` does not take them off it (src/objects/obstacle.js:73). They stay off the stage throughout, so `SpriteCollider.CheckCollision` never reports a collision with an obstacle in the modelled game. Staging them would put the sprites of every obstacle in the frames of the `updateAll` walk proofs.
- SpriteCollider.GroupsOf: `null`, booleans, `''` and numeric strings pass the `!isNaN` test (libs/plugins/sprite-collider.js:58) and become a one-element list holding that value. Tags are integers in the model, so such arguments are not representable; `inGroups` compares them with `===`, so a list such as `[true]` shares no tag with `[1]`.
- SpriteCollider.World.Sweep: handler calls are recorded as `Hit` requests instead of being run. A handler's own effects during the sweep are outside it. The goal and bird handlers are modelled by `Obstacles.Obstacle.GoalCollide` and `Scenes.MainScene.PlayerCollide`.
- PIXI event emission is not modelled as events: the bird's `emit` is an append to its event log.
- Texture and font loading, the JSON and audio loaders and their asynchronous callbacks are not modelled. Starting a load is recorded, and each finished load is the input call `Resources.Batch.Complete`. Whether a load has already finished synchronously is left to that input.
- The `percent` field of the loader is not modelled, because the core never updates it.
- The key order of `for … in` over the queues is the input `assetOrder`/`soundOrder`.
- `toLowerCase` is modelled on ASCII letters only.
- GameWindow.FrameDelta: a speed stored as a string other than `'normal'`, `'slow'` and `'fast'` is taken as NaN. JavaScript's `*` would coerce a numeric string such as `'2'` to its number, and `''` to 0; that coercion is not modelled. The setter's documentation names only those three strings and numbers (libs/plugins/game-window.js:259-271).
- Texture sizes (the pipe and bird sizes, and the obstacle container's measured width) are parameters.
- The obstacle's `scene` field is not modelled; nothing in the core uses it.
- The main scene's background, score label, score board and the delayed score-board display of `collided` (a `setTimeout`) are not modelled: they are visual. The unused `obstacles` array field is also left out.
- `src/objects/background.js` and `src/objects/score-board.js` are not part of this model.
- The bird's jump texture swap and its timer are not modelled: they are visual. So is the unused `groundLevel`.
- `mousedown` only calls `touchstart`, which `Scenes.MainScene.Touchstart` models.
- `libs/plugins/class.js` (prototype inheritance), `audio.js`, `game-scene.js`, `texture-draw.js`, `pixi.js`, `src/index.js` and `src/assets.js` are not part of this model.
