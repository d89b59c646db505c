/** The main scene: the score and its high, the game-over and started
    flags, and the frame counter that spawns an obstacle every 121 running
    frames. The obstacle list and pool are the module-level ones of the
    obstacles, shared with every scene; the collider registry and the
    window are passed in likewise. */
module Scenes {
  import opened Base
  import SpriteCollider
  import GameWindow
  import Players
  import Obstacles

  /** Frames between two obstacles, counted by `offset`. */
  const SpawnInterval := 120

  /** The counter after one running frame: incremented, and back to 0 once
      it exceeds the interval (the frame that spawns an obstacle). */
  function NextOffset(offset: int): int
  {
    if offset + 1 > SpawnInterval then 0 else offset + 1
  }

  /** The counter after n running frames. */
  function OffsetAfter(offset: int, n: nat): int
    decreases n
  {
    if n == 0 then offset else OffsetAfter(NextOffset(offset), n - 1)
  }

  /** How many obstacles n running frames spawn. */
  function Spawns(offset: int, n: nat): nat
    decreases n
  {
    if n == 0 then 0
    else (if NextOffset(offset) == 0 then 1 else 0) + Spawns(NextOffset(offset), n - 1)
  }

  /** One running frame keeps the counter in 0..120 and spawns exactly
      when the counter stood at 120. */
  lemma NextOffsetBounded(offset: int)
    requires 0 <= offset <= SpawnInterval
    ensures 0 <= NextOffset(offset) <= SpawnInterval
    ensures NextOffset(offset) == (offset + 1) % (SpawnInterval + 1)
    ensures NextOffset(offset) == 0 <==> offset == SpawnInterval
  {
  }

  /** From a counter in 0..120, n running frames leave it at
      (offset + n) mod 121 and spawn (offset + n) div 121 obstacles: one
      obstacle every 121 frames. */
  lemma {:induction false} SpawnSchedule(offset: int, n: nat)
    requires 0 <= offset <= SpawnInterval
    ensures OffsetAfter(offset, n) == (offset + n) % (SpawnInterval + 1)
    ensures Spawns(offset, n) == (offset + n) / (SpawnInterval + 1)
    decreases n
  {
    if n > 0 {
      var next := NextOffset(offset);
      NextOffsetBounded(offset);
      SpawnSchedule(next, n - 1);
      if offset == SpawnInterval {
        assert offset + n == (SpawnInterval + 1) + (n - 1);
        assert (offset + n) / (SpawnInterval + 1) == 1 + (n - 1) / (SpawnInterval + 1);
        assert (offset + n) % (SpawnInterval + 1) == (n - 1) % (SpawnInterval + 1);
      } else {
        assert next == offset + 1;
        assert next + (n - 1) == offset + n;
      }
    }
  }

  /** The pool's reserve once `create` has taken the spawned obstacle from
      it: the last reserved obstacle is popped, or the reserve was empty
      and a new one was built. */
  function Unreserved(reserve: seq<Obstacles.Obstacle>, spawned: Option<Obstacles.Obstacle>): seq<Obstacles.Obstacle>
  {
    if spawned.None? || reserve == [] then reserve else reserve[..|reserve| - 1]
  }

  /** What spawning did to the collider registry `bodies0` and where the
      spawned obstacle came from: nothing changes when nothing spawns; a
      spawned obstacle is the last reserved one, or a new one built from
      `random` when the reserve was empty, and the registry is as `create`
      leaves it. */
  predicate Spawned(reserve0: seq<Obstacles.Obstacle>, bodies0: seq<SpriteCollider.Body>, random: real,
                    spawned: Option<Obstacles.Obstacle>, bodies: seq<SpriteCollider.Body>)
  {
    match spawned
    case None => bodies == bodies0
    case Some(o) =>
      && (reserve0 != [] ==> o == reserve0[|reserve0| - 1])
      && (reserve0 == [] ==> 0.0 <= random < 1.0 && o.gapHeight == Obstacles.GapHeight(random))
      && bodies == Obstacles.CreatedBodies(bodies0, o, reserve0 != [])
  }

  /** The obstacles the pass of `update` walks: the list as it was, then
      the spawned one. */
  function OnScreen(before: seq<Obstacles.Obstacle>, spawned: Option<Obstacles.Obstacle>): seq<Obstacles.Obstacle>
  {
    before + (if spawned.Some? then [spawned.value] else [])
  }

  /** What the running part of `update` did to the obstacles. Before it,
      `before` was the list, `xs0` their positions, `reserve0` the pool's
      reserve and `bodies0` the collider registry; after it, `list` is the
      list, `xs` and `attached` the positions and attachment of the
      obstacles walked, `reserve` the reserve and `bodies` the registry.
      `spawned` is the obstacle put on screen at the stage width, `off`
      which obstacles the scroll takes off screen and `fates` what it did to
      each. Every obstacle scrolled once, except the one passed over after a
      removal; the removed ones are detached, out of the list and pushed on
      the reserve, after `create` took the spawned one from it. The
      registry changed only as `create` changes it. */
  predicate Advanced(before: seq<Obstacles.Obstacle>, xs0: seq<real>, reserve0: seq<Obstacles.Obstacle>,
                     bodies0: seq<SpriteCollider.Body>, stageWidth: real, random: real,
                     spawned: Option<Obstacles.Obstacle>, off: seq<bool>, fates: seq<Obstacles.Fate>,
                     list: seq<Obstacles.Obstacle>, xs: seq<real>, attached: seq<bool>,
                     reserve: seq<Obstacles.Obstacle>, bodies: seq<SpriteCollider.Body>)
  {
    var onScreen := OnScreen(before, spawned);
    && |xs0| == |before| && |off| == |onScreen| && |xs| == |onScreen| && |attached| == |onScreen|
    && fates == Obstacles.Pass(off, 0)
    && (forall j :: 0 <= j < |before| ==>
          (off[j] <==> xs0[j] - Obstacles.ScrollStep + onScreen[j].width < 0.0))
    && list == Obstacles.Kept(onScreen, fates)
    && (forall j :: 0 <= j < |before| ==>
          xs[j] == xs0[j] - (if fates[j] == Obstacles.Skipped then 0.0 else Obstacles.ScrollStep))
    && (spawned.Some? ==>
          && (off[|off| - 1] <==> stageWidth - Obstacles.ScrollStep + spawned.value.width < 0.0)
          && xs[|xs| - 1] == stageWidth - (if fates[|fates| - 1] == Obstacles.Skipped then 0.0 else Obstacles.ScrollStep))
    && (forall j :: 0 <= j < |onScreen| ==> attached[j] == (fates[j] != Obstacles.Removed))
    && Spawned(reserve0, bodies0, random, spawned, bodies)
    && reserve == Unreserved(reserve0, spawned) + Obstacles.Dropped(onScreen, fates)
  }


  class MainScene {
    var offset: int
    var gameover: bool
    var started: bool
    var score: int
    var highscore: int
    const player: Players.Player
    /** The obstacles on screen and their pool (`Obstacle.pool`). */
    const obstacles: Obstacles.ObstaclePool
    const world: SpriteCollider.World
    const window: GameWindow.GameWindow

    /** The score never exceeds the high score, the counter stays in
        0..120, and the game is over exactly when the bird has died since
        the last restart. */
    ghost predicate Valid()
      reads this, player, obstacles, obstacles.pool, obstacles.pool.tags
      reads set o | o in obstacles.obstacles, set o | o in obstacles.pool.reserve
    {
      && 0 <= offset <= SpawnInterval
      && 0 <= score <= highscore
      && gameover == player.dead
      && player.Valid()
      && obstacles.Valid()
    }

    /** `init`: the counters and flags start at zero, the bird joins the
        collider in groups 0, 1 and 2, and `restart` runs once (its result
        is stored as the score board's `restart`). */
    constructor (window: GameWindow.GameWindow, world: SpriteCollider.World,
                 obstacles: Obstacles.ObstaclePool, birdWidth: real, birdHeight: real)
      requires obstacles.Valid()
      modifies world, obstacles, obstacles.pool, set o | o in obstacles.obstacles
      ensures score == 0 && highscore == 0 && offset == 0 && !gameover && !started
      ensures world.bodies == old(world.bodies) + [SpriteCollider.Body(player.sprite, SpriteCollider.Tags([0, 1, 2]), true)]
      ensures obstacles.obstacles == [] && obstacles.pool.reserve == old(obstacles.pool.reserve) + old(obstacles.obstacles)
      ensures player.sprite.x == window.stageWidth as real / 2.0
      ensures player.sprite.y == window.stageHeight as real / 2.0 - 200.0
      ensures player.vy == (if player.sprite.y < 0.0 then 0 else Players.JumpVelocity)
      ensures !player.dead && player.events == [] && player.sprite.onStage
      ensures player.sprite.collide == Callback(false)
      ensures this.window == window && this.world == world && this.obstacles == obstacles
      ensures Valid() && fresh(player) && fresh(player.sprite)
    {
      offset, gameover, started, score, highscore := 0, false, false, 0, 0;
      player := new Players.Player(window, birdWidth, birdHeight);
      this.window, this.world, this.obstacles := window, world, obstacles;
      new;
      world.AddSprite(player.sprite, SpriteCollider.List([0, 1, 2]));
      Restart();
      player.sprite.onStage := true;
    }

    /** `collided`: the first collision ends the game; later ones change
        nothing. The score board shown after a delay is not modelled. */
    method Collided()
      modifies this
      ensures gameover
      ensures old(gameover) ==> unchanged(this)
      ensures offset == old(offset) && started == old(started)
      ensures score == old(score) && highscore == old(highscore)
    {
      if !gameover {
        gameover := true;
      }
    }

    /** `goal`: one more point, and a new high score when it is beaten. */
    method Goal()
      modifies this
      ensures score == old(score) + 1
      ensures highscore == (if score > old(highscore) then score else old(highscore))
      ensures offset == old(offset) && gameover == old(gameover) && started == old(started)
      ensures old(score <= highscore) ==> score <= highscore
    {
      score := score + 1;
      if score > highscore {
        highscore := score;
      }
    }

    /** `restart`: score and counter back to zero, the game no longer over,
        every obstacle back to the pool, the bird back in place and
        jumping; the high score is kept. */
    method Restart()
      requires obstacles.Valid()
      modifies this, obstacles, obstacles.pool, player, player.sprite, set o | o in obstacles.obstacles
      ensures score == 0 && offset == 0 && !gameover
      ensures highscore == old(highscore) && started == old(started)
      ensures obstacles.obstacles == [] && obstacles.pool.reserve == old(obstacles.pool.reserve) + old(obstacles.obstacles)
      ensures player.sprite.x == window.stageWidth as real / 2.0
      ensures player.sprite.y == window.stageHeight as real / 2.0 - 200.0
      ensures player.vy == (if player.sprite.y < 0.0 then old(player.vy) else Players.JumpVelocity)
      ensures !player.dead && player.events == old(player.events) && player.Valid()
      ensures old(highscore) >= 0 ==> Valid()
      ensures unchanged(player.sprite`scaleX, player.sprite`scaleY, player.sprite`onStage, player.sprite`collide)
      ensures unchanged(player.sprite`width, player.sprite`height, player.sprite`anchorX, player.sprite`anchorY)
      ensures forall o :: o in old(obstacles.obstacles) ==> !o.attached && o.x == old(o.x)
    {
      score := 0;
      offset := 0;
      gameover := false;
      obstacles.Reset();
      player.Reset(window);
      player.Jump();
    }

    /** `update`: while the game runs and has started, the obstacles
        advance (see Advance); the bird falls whenever the game has
        started, even after game over. `random`, `pipeWidth`, `pipeHeight`
        and `obstacleWidth` stand for the random number and the texture
        sizes a new obstacle would use. */
    method Update(random: real, pipeWidth: real, pipeHeight: real, obstacleWidth: real)
      returns (ghost spawned: Option<Obstacles.Obstacle>, ghost off: seq<bool>, ghost fates: seq<Obstacles.Fate>)
      requires Valid() && 0.0 <= random < 1.0
      modifies this, obstacles, obstacles.pool, obstacles.pool.tags, world
      modifies set o | o in obstacles.obstacles, set o | o in obstacles.pool.reserve
      modifies player, player.sprite
      ensures Valid()
      ensures score == old(score) && highscore == old(highscore)
      ensures gameover == old(gameover) && started == old(started)
      ensures old(gameover) || !started ==>
        && offset == old(offset) && spawned.None? && off == [] && fates == []
        && obstacles.obstacles == old(obstacles.obstacles) && obstacles.pool.reserve == old(obstacles.pool.reserve)
        && (forall o :: o in old(obstacles.obstacles) ==> o.x == old(o.x) && o.attached == old(o.attached))
        && world.bodies == old(world.bodies)
      ensures !old(gameover) && started ==>
        && offset == NextOffset(old(offset))
        && (spawned.Some? <==> old(offset) == SpawnInterval)
        && Advanced(old(obstacles.obstacles), old(Obstacles.Positions(obstacles.obstacles)), old(obstacles.pool.reserve),
             old(world.bodies), window.stageWidth as real, random, spawned, off, fates,
             obstacles.obstacles, Obstacles.Positions(OnScreen(old(obstacles.obstacles), spawned)),
             Obstacles.Attachments(OnScreen(old(obstacles.obstacles), spawned)), obstacles.pool.reserve, world.bodies)
      ensures started ==> (player.sprite.y, player.vy) == Players.Step(old(player.sprite.y), old(player.vy))
      ensures !started ==> player.sprite.y == old(player.sprite.y) && player.vy == old(player.vy)
      ensures player.dead == old(player.dead) && player.events == old(player.events)
      ensures player.sprite.x == old(player.sprite.x) && unchanged(player.sprite`onStage, player.sprite`collide)
      ensures unchanged(player.sprite`scaleX, player.sprite`scaleY, player.sprite`width, player.sprite`height)
      ensures unchanged(player.sprite`anchorX, player.sprite`anchorY)
    {
      spawned, off, fates := None, [], [];
      // the bird's fall writes only the bird, which the obstacles' step
      // never reads, so running it first leaves the same state
      if started {
        player.Update();
      }
      assert obstacles.obstacles == old(obstacles.obstacles) && obstacles.pool.reserve == old(obstacles.pool.reserve);
      assert world.bodies == old(world.bodies);
      assert Obstacles.Positions(obstacles.obstacles) == old(Obstacles.Positions(obstacles.obstacles));
      if !gameover {
        if started {
          spawned, off, fates := Advance(random, pipeWidth, pipeHeight, obstacleWidth);
        }
      }
    }

    /** The running part of `update`: the counter advances, an obstacle is
        spawned when it passes 120, and every obstacle scrolls. `spawned`
        is the obstacle put on screen, `off` which obstacles the scroll
        takes off screen and `fates` what it did to each. */
    method Advance(random: real, pipeWidth: real, pipeHeight: real, obstacleWidth: real)
      returns (ghost spawned: Option<Obstacles.Obstacle>, ghost off: seq<bool>, ghost fates: seq<Obstacles.Fate>)
      requires obstacles.Valid() && 0 <= offset <= SpawnInterval && 0.0 <= random < 1.0
      modifies this`offset, obstacles, obstacles.pool, obstacles.pool.tags, world
      modifies set o | o in obstacles.obstacles, set o | o in obstacles.pool.reserve
      ensures obstacles.Valid()
      ensures offset == NextOffset(old(offset))
      ensures spawned.Some? <==> old(offset) == SpawnInterval
      ensures Advanced(old(obstacles.obstacles), old(Obstacles.Positions(obstacles.obstacles)), old(obstacles.pool.reserve),
             old(world.bodies), window.stageWidth as real, random, spawned, off, fates,
             obstacles.obstacles, Obstacles.Positions(OnScreen(old(obstacles.obstacles), spawned)),
             Obstacles.Attachments(OnScreen(old(obstacles.obstacles), spawned)), obstacles.pool.reserve, world.bodies)
    {
      spawned := Spawn(random, pipeWidth, pipeHeight, obstacleWidth);
      off, fates := obstacles.UpdateAll();
    }

    /** The counter step of `update`: past 120 it wraps to 0 and an
        obstacle is put on screen; the obstacles already there keep their
        positions. */
    method Spawn(random: real, pipeWidth: real, pipeHeight: real, obstacleWidth: real)
      returns (ghost spawned: Option<Obstacles.Obstacle>)
      requires obstacles.Valid() && 0 <= offset <= SpawnInterval && 0.0 <= random < 1.0
      modifies this`offset, obstacles, obstacles.pool, obstacles.pool.tags, world
      modifies set o | o in obstacles.pool.reserve
      ensures obstacles.Valid()
      ensures offset == NextOffset(old(offset))
      ensures spawned.Some? <==> old(offset) == SpawnInterval
      ensures obstacles.obstacles == old(obstacles.obstacles) + (if spawned.Some? then [spawned.value] else [])
      ensures forall j :: 0 <= j < |old(obstacles.obstacles)| ==> old(obstacles.obstacles)[j].x == old(obstacles.obstacles[j].x)
      ensures spawned.Some? ==> spawned.value in old(obstacles.pool.reserve) || fresh(spawned.value)
      ensures spawned.Some? ==> spawned.value.x == window.stageWidth as real && spawned.value.attached
      ensures obstacles.pool.reserve == Unreserved(old(obstacles.pool.reserve), spawned)
      ensures Spawned(old(obstacles.pool.reserve), old(world.bodies), random, spawned, world.bodies)
    {
      spawned := None;
      offset := offset + 1;
      if offset > SpawnInterval {
        var o := obstacles.Create(random, pipeWidth, pipeHeight, obstacleWidth, window, world);
        spawned := Some(o);
        offset := 0;
      }
    }

    /** `touchstart` (and `mousedown`): ignored once the game is over;
        otherwise the game starts, or goes on, and the bird jumps. */
    method Touchstart()
      modifies this, player
      ensures gameover == old(gameover) && offset == old(offset)
      ensures score == old(score) && highscore == old(highscore)
      ensures old(gameover) ==> started == old(started) && player.vy == old(player.vy)
      ensures !old(gameover) ==> started
      ensures !old(gameover) && player.sprite.y >= 0.0 ==> player.vy == Players.JumpVelocity
      ensures !old(gameover) && player.sprite.y < 0.0 ==> player.vy == old(player.vy)
      ensures player.dead == old(player.dead) && player.events == old(player.events)
      ensures player.resetMark == old(player.resetMark)
    {
      if !gameover {
        started := true;
        player.Jump();
      }
    }

    /** The bird's `collide` handler with the scene listening to its
        signals: `'goal'` scores and `'collided'` ends the game, each as
        soon as it is emitted. `raised` when `col`'s groups are `true`. */
    method PlayerCollide(col: SpriteCollider.Rect) returns (raised: bool)
      requires Valid()
      modifies this, player, player.sprite
      ensures Valid()
      ensures raised <==> col.body.groups.All?
      ensures raised ==> unchanged(this)
      ensures Players.HasGoalGroup(col.body.groups) == Some(true) ==>
        && score == old(score) + 1 && gameover == old(gameover)
        && highscore == (if score > old(highscore) then score else old(highscore))
      ensures Players.HasGoalGroup(col.body.groups) == Some(false) ==>
        gameover && score == old(score) && highscore == old(highscore)
      ensures offset == old(offset) && started == old(started)
    {
      var before := |player.events|;
      raised := player.Collide(col);
      if raised {
        return;
      }
      if |player.events| > before {
        if player.events[|player.events| - 1] == Players.Goal {
          Goal();
        } else {
          Collided();
        }
      }
    }
  }
}
