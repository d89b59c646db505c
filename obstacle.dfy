/** The obstacles: a pair of pipes with a goal sprite in the gap, scrolled
    left each frame, kept in the on-screen list `obstaclesArray` and
    recycled through an object pool. The random gap position is an input. */
module Obstacles {
  import opened Base
  import SpriteCollider
  import ObjectPool
  import GameWindow

  const GapSize := 350
  const ScrollStep := 5.0
  /** The collider groups of the pipes and of the goal. */
  const PipeGroup := 1
  const GoalGroup := 2

  /** `Math.floor(random * 600) + 100` for a random number in [0, 1). */
  function GapHeight(random: real): (g: int)
    requires 0.0 <= random < 1.0
    ensures 100 <= g <= 699
  {
    (random * 600.0).Floor + 100
  }

  predicate Distinct<T(==)>(s: seq<T>)
  {
    forall i, j :: 0 <= i < j < |s| ==> s[i] != s[j]
  }

  /** `indexOf`: the first index of `x`, or -1. */
  function IndexOf<T(==)>(s: seq<T>, x: T): (k: int)
    ensures -1 <= k < |s|
    ensures k >= 0 ==> s[k] == x && x !in s[..k]
    ensures k < 0 ==> x !in s
  {
    if s == [] then -1
    else if s[0] == x then 0
    else
      var k := IndexOf(s[1..], x);
      assert s == [s[0]] + s[1..];
      if k < 0 then -1
      else
        assert s[..k + 1] == [s[0]] + s[1..][..k];
        k + 1
  }

  /** `splice(start, count)`: a negative start counts from the end. */
  function Splice<T>(s: seq<T>, start: int, count: nat): seq<T>
  {
    var b := if start < 0 then (if |s| + start < 0 then 0 else |s| + start)
             else if start > |s| then |s| else start;
    var e := if b + count > |s| then |s| else b + count;
    s[..b] + s[e..]
  }

  /** `splice(indexOf(x), 1)` removes the first `x`; when `x` is absent it
      removes the last element instead. */
  lemma SpliceIndexOf<T>(s: seq<T>, x: T)
    ensures x in s ==> Splice(s, IndexOf(s, x), 1) == s[..IndexOf(s, x)] + s[IndexOf(s, x) + 1..]
    ensures x !in s && s != [] ==> Splice(s, IndexOf(s, x), 1) == s[..|s| - 1]
    ensures s == [] ==> Splice(s, IndexOf(s, x), 1) == []
  {
  }

  class Obstacle {
    /** `position.x` of the container. */
    var x: real
    /** Whether the container has a parent. */
    var attached: bool
    /** The container's width, as the engine measures it from its sprites. */
    const width: real
    const gapHeight: int
    const topSprite: SpriteCollider.Sprite
    const bottomSprite: SpriteCollider.Sprite
    const goalSprite: SpriteCollider.Sprite

    /** The constructor: the top pipe flipped upwards from the gap, the
        bottom pipe 350 below it, and the goal filling the gap one and a
        half pipe widths to the right; all three join the collider. */
    constructor (random: real, pipeWidth: real, pipeHeight: real, width: real, world: SpriteCollider.World)
      requires 0.0 <= random < 1.0
      modifies world
      ensures gapHeight == GapHeight(random) && this.width == width && x == 0.0 && !attached
      ensures topSprite.y == gapHeight as real && topSprite.scaleY == -1.0
      ensures bottomSprite.y == (gapHeight + GapSize) as real
      ensures goalSprite.x == pipeWidth * 1.5 && goalSprite.y == gapHeight as real
      ensures goalSprite.width == pipeWidth && goalSprite.height == GapSize as real
      ensures goalSprite.collide == Callback(false)
      ensures world.bodies == old(world.bodies) + [
        SpriteCollider.Body(topSprite, SpriteCollider.Tags([PipeGroup]), true),
        SpriteCollider.Body(bottomSprite, SpriteCollider.Tags([PipeGroup]), true),
        SpriteCollider.Body(goalSprite, SpriteCollider.Tags([GoalGroup]), true)]
      ensures fresh(topSprite) && fresh(bottomSprite) && fresh(goalSprite)
    {
      var g := GapHeight(random);
      gapHeight := g;
      this.width := width;
      x, attached := 0.0, false;
      var top := new SpriteCollider.Sprite(0.0, g as real, pipeWidth, pipeHeight);
      top.scaleY := -1.0;
      var bottom := new SpriteCollider.Sprite(0.0, (g + GapSize) as real, pipeWidth, pipeHeight);
      var goal := new SpriteCollider.Sprite(pipeWidth * 1.5, g as real, pipeWidth, GapSize as real);
      goal.collide := Callback(false);
      topSprite, bottomSprite, goalSprite := top, bottom, goal;
      new;
      world.AddSprite(top, SpriteCollider.Number(PipeGroup));
      world.AddSprite(bottom, SpriteCollider.Number(PipeGroup));
      world.AddSprite(goal, SpriteCollider.Number(GoalGroup));
    }

    /** The goal's `collide` handler: the goal stops colliding, so one
        passage scores once. */
    method GoalCollide(world: SpriteCollider.World)
      modifies world
      ensures world.bodies == SpriteCollider.EnableLast(old(world.bodies), goalSprite, false)
    {
      var found := world.EnableSprite(goalSprite, Some(false));
    }
  }

  /** Why `ObstaclePool.remove` throws. */
  datatype RemoveError =
    | Foreign    // the object does not carry the pool's key
    | Detached   // `parent.removeChild` on an obstacle without a parent

  /** What one `updateAll` pass does to an obstacle. */
  datatype Fate = Moved | Removed | Skipped

  /** The fates of the obstacles from index k on, where `off[j]` says
      whether obstacle j is off screen once moved. The walk by index
      removes an off-screen obstacle from the list, so the next one slides
      into its place and is passed over. */
  function Pass(off: seq<bool>, k: nat): (fates: seq<Fate>)
    ensures |fates| == if k <= |off| then |off| - k else 0
    decreases |off| - k
  {
    if k >= |off| then []
    else if off[k] then [Removed] + (if k + 1 < |off| then [Skipped] + Pass(off, k + 2) else [])
    else [Moved] + Pass(off, k + 1)
  }

  /** The pass moves the first obstacle; after that an obstacle is skipped
      exactly when the one before it was removed; a moved obstacle is on
      screen and a removed one off screen. */
  lemma {:induction false} PassFates(off: seq<bool>, k: nat)
    requires k <= |off|
    ensures var f := Pass(off, k);
      && (|f| > 0 ==> f[0] != Skipped)
      && (forall j :: 0 < j < |f| ==> (f[j] == Skipped <==> f[j - 1] == Removed))
      && (forall j :: 0 <= j < |f| ==> (f[j] == Removed ==> off[k + j]) && (f[j] == Moved ==> !off[k + j]))
    decreases |off| - k
  {
    if k < |off| {
      if off[k] {
        if k + 2 <= |off| {
          PassFates(off, k + 2);
        }
      } else {
        PassFates(off, k + 1);
      }
    }
  }

  /** The obstacles of `os` whose fate is not `Removed`, in order. */
  function Kept(os: seq<Obstacle>, fates: seq<Fate>): seq<Obstacle>
    requires |os| == |fates|
  {
    if os == [] then []
    else Kept(os[..|os| - 1], fates[..|fates| - 1]) + (if fates[|fates| - 1] != Removed then [os[|os| - 1]] else [])
  }

  /** The obstacles of `os` whose fate is `Removed`, in order. */
  function Dropped(os: seq<Obstacle>, fates: seq<Fate>): seq<Obstacle>
    requires |os| == |fates|
  {
    if os == [] then []
    else Dropped(os[..|os| - 1], fates[..|fates| - 1]) + (if fates[|fates| - 1] == Removed then [os[|os| - 1]] else [])
  }

  /** Unfolding `Pass` at an index whose fates are known from k on. */
  lemma PassAt(off: seq<bool>, fates: seq<Fate>, k: nat)
    requires k < |off| == |fates| && fates[k..] == Pass(off, k)
    ensures off[k] ==> fates[k] == Removed
    ensures off[k] && k + 1 < |off| ==> fates[k + 1] == Skipped && fates[k + 2..] == Pass(off, k + 2)
    ensures !off[k] ==> fates[k] == Moved && fates[k + 1..] == Pass(off, k + 1)
  {
    assert fates[k] == fates[k..][0];
    if off[k] && k + 1 < |off| {
      assert fates[k + 1] == fates[k..][1];
      assert fates[k + 2..] == fates[k..][2..];
    } else if !off[k] {
      assert fates[k + 1..] == fates[k..][1..];
    }
  }

  /** Extending the prefix the pass has handled by one obstacle. */
  lemma KeptDroppedStep(os: seq<Obstacle>, fates: seq<Fate>, n: nat)
    requires |os| == |fates| && n < |os|
    ensures Kept(os[..n + 1], fates[..n + 1]) == Kept(os[..n], fates[..n]) + (if fates[n] != Removed then [os[n]] else [])
    ensures Dropped(os[..n + 1], fates[..n + 1]) == Dropped(os[..n], fates[..n]) + (if fates[n] == Removed then [os[n]] else [])
  {
    assert os[..n + 1][..n] == os[..n];
    assert fates[..n + 1][..n] == fates[..n];
  }

  /** The walk of `updateAll` over O (the list as it was) after list index
      i, having dealt with the obstacles before k: `list` is the list as it
      now stands and `reserve` the pool's reserve, which stood at R0. */
  ghost predicate Walk(i: nat, O: seq<Obstacle>, off: seq<bool>, fates: seq<Fate>, k: nat,
                       list: seq<Obstacle>, reserve: seq<Obstacle>, R0: seq<Obstacle>)
  {
    && |O| == |off| == |fates| && k <= |O| && fates[k..] == Pass(off, k)
    && list == Kept(O[..k], fates[..k]) + O[k..]
    && |Kept(O[..k], fates[..k])| <= i && (k < |O| ==> i == |Kept(O[..k], fates[..k])|)
    && reserve == R0 + Dropped(O[..k], fates[..k])
  }

  /** The walk over an on-screen obstacle O[k]: it is moved and kept, and
      the walk goes on with the next list index and obstacle. */
  lemma WalkMoved(i: nat, O: seq<Obstacle>, off: seq<bool>, fates: seq<Fate>, k: nat,
                  list: seq<Obstacle>, reserve: seq<Obstacle>, R0: seq<Obstacle>)
    requires Walk(i, O, off, fates, k, list, reserve, R0) && k < |O| && !off[k]
    ensures fates[k] == Moved && list[i] == O[k]
    ensures Walk(i + 1, O, off, fates, k + 1, list, reserve, R0)
  {
    PassAt(off, fates, k);
    KeptDroppedStep(O, fates, k);
    assert O[k..] == [O[k]] + O[k + 1..];
  }

  /** The walk over an off-screen obstacle O[k] at list index i: it is
      spliced out and reserved, the next obstacle slides into index i and
      the walk passes it over. */
  lemma WalkRemoved(i: nat, O: seq<Obstacle>, off: seq<bool>, fates: seq<Fate>, k: nat,
                    list: seq<Obstacle>, reserve: seq<Obstacle>, R0: seq<Obstacle>)
    requires Walk(i, O, off, fates, k, list, reserve, R0) && k < |O| && off[k]
    ensures fates[k] == Removed && i < |list| && list[i] == O[k]
    ensures k + 1 < |O| ==> fates[k + 1] == Skipped
    ensures Walk(i + 1, O, off, fates, if k + 1 < |O| then k + 2 else k + 1,
                 list[..i] + list[i + 1..], reserve + [O[k]], R0)
  {
    PassAt(off, fates, k);
    if k + 1 < |O| {
      WalkRemovedSkip(i, O, off, fates, k, list, reserve, R0);
    } else {
      WalkRemovedLast(i, O, off, fates, k, list, reserve, R0);
    }
  }

  /** WalkRemoved when another obstacle follows O[k]. */
  lemma WalkRemovedSkip(i: nat, O: seq<Obstacle>, off: seq<bool>, fates: seq<Fate>, k: nat,
                        list: seq<Obstacle>, reserve: seq<Obstacle>, R0: seq<Obstacle>)
    requires Walk(i, O, off, fates, k, list, reserve, R0) && k + 1 < |O| && off[k]
    ensures i < |list| && list[i] == O[k]
    ensures Walk(i + 1, O, off, fates, k + 2, list[..i] + list[i + 1..], reserve + [O[k]], R0)
  {
    PassAt(off, fates, k);
    KeptDroppedSkip(O, fates, k);
    var kept, dropped := Kept(O[..k], fates[..k]), Dropped(O[..k], fates[..k]);
    SpliceAt(list, kept, O[k..]);
    TailAfter(O, k);
    WalkIntro(i + 1, O, off, fates, k + 2, list[..i] + list[i + 1..], reserve + [O[k]], R0,
              kept + [O[k + 1]], dropped + [O[k]]);
  }

  /** WalkRemoved when O[k] is the last obstacle. */
  lemma WalkRemovedLast(i: nat, O: seq<Obstacle>, off: seq<bool>, fates: seq<Fate>, k: nat,
                        list: seq<Obstacle>, reserve: seq<Obstacle>, R0: seq<Obstacle>)
    requires Walk(i, O, off, fates, k, list, reserve, R0) && k + 1 == |O| && off[k]
    ensures i < |list| && list[i] == O[k]
    ensures Walk(i + 1, O, off, fates, k + 1, list[..i] + list[i + 1..], reserve + [O[k]], R0)
  {
    PassAt(off, fates, k);
    KeptDroppedStep(O, fates, k);
    var kept, dropped := Kept(O[..k], fates[..k]), Dropped(O[..k], fates[..k]);
    SpliceAt(list, kept, O[k..]);
    assert O[k..][1..] == O[k + 1..];
    WalkIntro(i + 1, O, off, fates, k + 1, list[..i] + list[i + 1..], reserve + [O[k]], R0,
              kept, dropped + [O[k]]);
  }

  /** Removing O[k] and skipping O[k + 1] keeps the latter and drops the former. */
  lemma KeptDroppedSkip(O: seq<Obstacle>, fates: seq<Fate>, k: nat)
    requires |O| == |fates| && k + 1 < |O| && fates[k] == Removed && fates[k + 1] == Skipped
    ensures Kept(O[..k + 2], fates[..k + 2]) == Kept(O[..k], fates[..k]) + [O[k + 1]]
    ensures Dropped(O[..k + 2], fates[..k + 2]) == Dropped(O[..k], fates[..k]) + [O[k]]
  {
    KeptDroppedStep(O, fates, k);
    KeptDroppedStep(O, fates, k + 1);
  }

  /** The suffix after s[k], split at its head. */
  lemma TailAfter<T>(s: seq<T>, k: nat)
    requires k + 1 < |s|
    ensures s[k..][1..] == [s[k + 1]] + s[k + 2..]
  {
    assert s[k..][1..] == s[k + 1..];
  }

  /** A walk state given by the obstacles kept and dropped so far. */
  lemma WalkIntro(i: nat, O: seq<Obstacle>, off: seq<bool>, fates: seq<Fate>, k: nat,
                  list: seq<Obstacle>, reserve: seq<Obstacle>, R0: seq<Obstacle>,
                  kept: seq<Obstacle>, dropped: seq<Obstacle>)
    requires |O| == |off| == |fates| && k <= |O| && fates[k..] == Pass(off, k)
    requires kept == Kept(O[..k], fates[..k]) && dropped == Dropped(O[..k], fates[..k])
    requires list == kept + O[k..] && |kept| <= i && (k < |O| ==> i == |kept|)
    requires reserve == R0 + dropped
    ensures Walk(i, O, off, fates, k, list, reserve, R0)
  {
  }

  /** Splicing out the element at the seam of `kept + rest` leaves the rest
      without its head. */
  lemma SpliceAt<T>(list: seq<T>, kept: seq<T>, rest: seq<T>)
    requires list == kept + rest && rest != []
    ensures |kept| < |list| && list[|kept|] == rest[0]
    ensures list[..|kept|] + list[|kept| + 1..] == kept + rest[1..]
  {
    assert list[..|kept|] == kept;
    assert list[|kept| + 1..] == rest[1..];
  }

  /** The obstacles of O (the list as `updateAll` found it, without
      repeats) once the pass has dealt with those before k: their positions
      were X0, `off` says which are off screen once moved, and those moved
      or removed are one step further left; the removed ones are detached. */
  ghost predicate Tracked(O: seq<Obstacle>, X0: seq<real>, off: seq<bool>, fates: seq<Fate>, k: nat)
    reads set o | o in O
  {
    && Distinct(O) && |X0| == |O| == |off| == |fates|
    && (forall j :: 0 <= j < |O| ==> (off[j] <==> X0[j] - ScrollStep + O[j].width < 0.0))
    && (forall j :: 0 <= j < |O| ==> O[j].x == X0[j] - (if j < k && fates[j] != Skipped then ScrollStep else 0.0))
    && (forall j :: 0 <= j < |O| ==> O[j].attached == !(j < k && fates[j] == Removed))
  }

  /** In a list without repeats, `indexOf` finds an element where it is. */
  lemma IndexOfDistinct<T>(s: seq<T>, i: nat)
    requires Distinct(s) && i < |s|
    ensures IndexOf(s, s[i]) == i
  {
  }

  /** The pass loses no obstacle and adds none: the kept and the dropped
      ones together are the obstacles it started from. */
  lemma {:induction false} KeptDropped(os: seq<Obstacle>, fates: seq<Fate>)
    requires |os| == |fates|
    ensures multiset(Kept(os, fates)) + multiset(Dropped(os, fates)) == multiset(os)
  {
    if os != [] {
      var n := |os| - 1;
      KeptDropped(os[..n], fates[..n]);
      assert os == os[..n] + [os[n]];
    }
  }

  /** Splicing one element out keeps the rest, in order and without
      repeating any. */
  lemma SpliceOne<T>(s: seq<T>, start: int)
    ensures forall r :: r in Splice(s, start, 1) ==> r in s
    ensures Distinct(s) ==> Distinct(Splice(s, start, 1))
    ensures Distinct(s) && 0 <= start < |s| ==> s[start] !in Splice(s, start, 1)
  {
    var b := if start < 0 then (if |s| + start < 0 then 0 else |s| + start)
             else if start > |s| then |s| else start;
    var e := if b + 1 > |s| then |s| else b + 1;
    var r := Splice(s, start, 1);
    assert r == s[..b] + s[e..];
    assert forall i :: 0 <= i < |r| ==> r[i] == if i < b then s[i] else s[i - b + e];
  }

  /** The on-screen obstacles and the pool they are recycled through. */
  /** The collider registry after `create` put `o` on screen: a reused
      obstacle only has its goal enabled again, a new one first registers
      its two pipes and its goal. */
  function CreatedBodies(bodies: seq<SpriteCollider.Body>, o: Obstacle, reused: bool): seq<SpriteCollider.Body>
  {
    SpriteCollider.EnableLast(bodies + (if reused then [] else [
      SpriteCollider.Body(o.topSprite, SpriteCollider.Tags([PipeGroup]), true),
      SpriteCollider.Body(o.bottomSprite, SpriteCollider.Tags([PipeGroup]), true),
      SpriteCollider.Body(o.goalSprite, SpriteCollider.Tags([GoalGroup]), true)]), o.goalSprite, true)
  }

  class ObstaclePool {
    const pool: ObjectPool.Pool<Obstacle>
    /** `obstaclesArray`: the obstacles on screen, oldest first. */
    var obstacles: seq<Obstacle>

    /** Every obstacle on screen is attached and belongs to the pool, every
        reserved one is detached, and neither list repeats an obstacle. */
    ghost predicate Valid()
      reads this, pool, pool.tags, set o | o in obstacles, set o | o in pool.reserve
    {
      && pool.hasInit && !pool.hasEnable && !pool.hasDisable
      && pool.Valid()
      && Distinct(obstacles) && Distinct(pool.reserve)
      && (forall o :: o in obstacles ==> o.attached && pool.Owns(o))
      && (forall o :: o in pool.reserve ==> !o.attached)
    }

    constructor ()
      ensures obstacles == [] && pool.reserve == [] && pool.poolKey == ObjectPool.DefaultKey
      ensures Valid() && fresh(pool) && fresh(pool.tags)
    {
      var tags := new ObjectPool.Tags<Obstacle>();
      pool := new ObjectPool.Pool(None, tags, true, false, false);
      obstacles := [];
    }

    /** `ObstaclePool.create`: reuse the last reserved obstacle or build a
        new one, put it at the right edge of the stage, attach it, enable
        its goal again and append it to the list. */
    method Create(random: real, pipeWidth: real, pipeHeight: real, width: real,
                  window: GameWindow.GameWindow, world: SpriteCollider.World) returns (o: Obstacle)
      requires Valid() && 0.0 <= random < 1.0
      modifies this, pool, pool.tags, world, set r | r in pool.reserve
      ensures Valid()
      ensures obstacles == old(obstacles) + [o]
      ensures o.x == window.stageWidth as real && o.attached
      ensures old(pool.reserve) != [] ==>
        && o == old(pool.reserve)[|old(pool.reserve)| - 1]
        && pool.reserve == old(pool.reserve)[..|old(pool.reserve)| - 1]
        && world.bodies == CreatedBodies(old(world.bodies), o, true)
      ensures old(pool.reserve) == [] ==>
        && fresh(o) && pool.reserve == [] && o.gapHeight == GapHeight(random)
        && world.bodies == CreatedBodies(old(world.bodies), o, false)
    {
      o := Take(random, pipeWidth, pipeHeight, width, world);
      assert old(world.bodies) + [] == old(world.bodies);
      Place(o, window, world);
    }

    /** The pool half of `create`: the last reserved obstacle, or a new one
        when the reserve is empty; it is in neither list afterwards. */
    method Take(random: real, pipeWidth: real, pipeHeight: real, width: real,
                world: SpriteCollider.World) returns (o: Obstacle)
      requires Valid() && 0.0 <= random < 1.0
      modifies pool, pool.tags, world
      ensures Valid() && o !in obstacles && o !in pool.reserve && pool.Owns(o)
      ensures old(pool.reserve) != [] ==>
        && o == old(pool.reserve)[|old(pool.reserve)| - 1]
        && pool.reserve == old(pool.reserve)[..|old(pool.reserve)| - 1]
        && world.bodies == old(world.bodies)
      ensures old(pool.reserve) == [] ==>
        && fresh(o) && pool.reserve == [] && o.gapHeight == GapHeight(random)
        && world.bodies == old(world.bodies) + [
             SpriteCollider.Body(o.topSprite, SpriteCollider.Tags([PipeGroup]), true),
             SpriteCollider.Body(o.bottomSprite, SpriteCollider.Tags([PipeGroup]), true),
             SpriteCollider.Body(o.goalSprite, SpriteCollider.Tags([GoalGroup]), true)]
    {
      var made;
      if |pool.reserve| == 0 {
        made := new Obstacle(random, pipeWidth, pipeHeight, width, world);
      } else {
        made := pool.reserve[|pool.reserve| - 1];
      }
      var r, initCalled, enabled := pool.Create(made);
      o := r.obj;
      assert o !in old(obstacles);
    }

    /** The list half of `create`: at the right edge of the stage,
        attached, its goal enabled again, appended to the list. */
    method Place(o: Obstacle, window: GameWindow.GameWindow, world: SpriteCollider.World)
      requires Valid() && o !in obstacles && o !in pool.reserve && pool.Owns(o)
      modifies this`obstacles, o`x, o`attached, world
      ensures Valid()
      ensures obstacles == old(obstacles) + [o]
      ensures o.x == window.stageWidth as real && o.attached
      ensures world.bodies == SpriteCollider.EnableLast(old(world.bodies), o.goalSprite, true)
    {
      o.x := window.stageWidth as real;
      o.attached := true;
      var found := world.EnableSprite(o.goalSprite, Some(true));
      obstacles := obstacles + [o];
    }

    /** `ObstaclePool.remove`: reserve the obstacle, detach it and splice
        it out of the list. */
    method Remove(o: Obstacle) returns (err: Option<RemoveError>)
      requires Valid()
      modifies this`obstacles, pool`reserve, o`attached
      ensures !old(pool.Owns(o)) ==>
        err == Some(Foreign) && obstacles == old(obstacles) && pool.reserve == old(pool.reserve)
        && o.attached == old(o.attached)
      ensures old(pool.Owns(o)) ==> pool.reserve == old(pool.reserve) + [o] && !o.attached
      ensures old(pool.Owns(o)) && !old(o.attached) ==> err == Some(Detached) && obstacles == old(obstacles)
      ensures old(pool.Owns(o)) && old(o.attached) ==>
        err.None? && obstacles == Splice(old(obstacles), IndexOf(old(obstacles), o), 1)
      ensures o.x == old(o.x)
      ensures o !in old(pool.reserve) ==> Valid()
    {
      var e, disabled := pool.Remove(o);
      if e.Some? {
        return Some(Foreign);
      }
      if !o.attached {
        return Some(Detached);
      }
      o.attached := false;
      var k := IndexOf(obstacles, o);
      obstacles := Splice(obstacles, k, 1);
      err := None;
      SpliceOne(old(obstacles), k);
    }

    /** `Obstacle.update` of an obstacle on screen: scroll it left by 5 and
        return it to the pool once its right edge has passed the left edge
        of the stage. */
    method UpdateObstacle(o: Obstacle) returns (removed: bool)
      requires Valid() && o in obstacles
      modifies this`obstacles, pool`reserve, o`x, o`attached
      ensures o.x == old(o.x) - ScrollStep
      ensures removed <==> o.x + o.width < 0.0
      ensures removed ==>
        && obstacles == old(obstacles)[..IndexOf(old(obstacles), o)] + old(obstacles)[IndexOf(old(obstacles), o) + 1..]
        && pool.reserve == old(pool.reserve) + [o] && !o.attached
      ensures !removed ==> obstacles == old(obstacles) && pool.reserve == old(pool.reserve) && o.attached
      ensures Valid()
    {
      o.x := o.x - ScrollStep;
      removed := o.x + o.width < 0.0;
      if removed {
        var err := Remove(o);
      }
    }

    /** `Obstacle.reset`: release every obstacle on screen to the pool,
        always the first one of the list. */
    method Reset()
      requires Valid()
      modifies this, pool, set o | o in obstacles
      ensures Valid() && obstacles == [] && pool.reserve == old(pool.reserve) + old(obstacles)
      ensures forall o :: o in old(obstacles) ==> !o.attached && o.x == old(o.x)
    {
      ghost var done := 0;
      while |obstacles| > 0
        invariant Valid()
        invariant 0 <= done <= |old(obstacles)| && obstacles == old(obstacles)[done..]
        invariant pool.reserve == old(pool.reserve) + old(obstacles)[..done]
        invariant forall o :: o in old(obstacles)[..done] ==> !o.attached
        invariant forall o :: o in old(obstacles) ==> o.x == old(o.x)
        decreases |obstacles|
      {
        var o := obstacles[0];
        assert o in obstacles && o !in pool.reserve;
        var err := Remove(o);
        assert old(obstacles)[..done + 1] == old(obstacles)[..done] + [o];
        done := done + 1;
      }
    }

    /** The state of `updateAll` after list index i, having dealt with the
        obstacles of O (the list as it was) before k, the reserve having
        stood at R0. */
    ghost predicate PassState(i: nat, O: seq<Obstacle>, X0: seq<real>, R0: seq<Obstacle>,
                              off: seq<bool>, fates: seq<Fate>, k: nat)
      reads this, pool, pool.tags, set o | o in obstacles, set o | o in pool.reserve, set o | o in O
    {
      Valid() && Walk(i, O, off, fates, k, obstacles, pool.reserve, R0) && Tracked(O, X0, off, fates, k)
    }

    /** One round of the `updateAll` loop: update the obstacle at list
        index i, which is O[k]. */
    method PassRound(i: nat, ghost O: seq<Obstacle>, ghost X0: seq<real>, ghost R0: seq<Obstacle>,
                     ghost off: seq<bool>, ghost fates: seq<Fate>, ghost k: nat) returns (ghost k2: nat)
      requires PassState(i, O, X0, R0, off, fates, k) && i < |obstacles|
      modifies this, pool, set o | o in O
      ensures k < k2 && PassState(i + 1, O, X0, R0, off, fates, k2)
    {
      var o := obstacles[i];
      assert k < |O| && o == O[k];
      if o.x - ScrollStep + o.width < 0.0 {
        k2 := PassOff(i, O, X0, R0, off, fates, k);
      } else {
        PassOn(i, O, X0, R0, off, fates, k);
        k2 := k + 1;
      }
    }

    /** A round over an obstacle that stays on screen: it moves and the
        walk goes on with the next index. */
    method PassOn(i: nat, ghost O: seq<Obstacle>, ghost X0: seq<real>, ghost R0: seq<Obstacle>,
                  ghost off: seq<bool>, ghost fates: seq<Fate>, ghost k: nat)
      requires Valid() && Walk(i, O, off, fates, k, obstacles, pool.reserve, R0)
        && Tracked(O, X0, off, fates, k) && i < |obstacles|
      requires k < |O| && O[k] == obstacles[i] && !off[k]
      modifies this, pool, O[k]
      ensures Valid() && Walk(i + 1, O, off, fates, k + 1, obstacles, pool.reserve, R0)
        && Tracked(O, X0, off, fates, k + 1)
    {
      ghost var list, reserve := obstacles, pool.reserve;
      var o := obstacles[i];
      IndexOfDistinct(obstacles, i);
      var removed := UpdateObstacle(o);
      WalkMoved(i, O, off, fates, k, list, reserve, R0);
      forall j | 0 <= j < |O|
        ensures O[j].x == X0[j] - (if j < k + 1 && fates[j] != Skipped then ScrollStep else 0.0)
        ensures O[j].attached == !(j < k + 1 && fates[j] == Removed)
      {
        if j != k {
          assert O[j] != O[k];
        }
      }
    }

    /** A round over an obstacle the move takes off screen: it is removed,
        the next one slides into index i and is passed over. */
    method PassOff(i: nat, ghost O: seq<Obstacle>, ghost X0: seq<real>, ghost R0: seq<Obstacle>,
                   ghost off: seq<bool>, ghost fates: seq<Fate>, ghost k: nat) returns (ghost k2: nat)
      requires Valid() && Walk(i, O, off, fates, k, obstacles, pool.reserve, R0)
        && Tracked(O, X0, off, fates, k) && i < |obstacles|
      requires k < |O| && O[k] == obstacles[i] && off[k]
      modifies this, pool, O[k]
      ensures k2 == (if k + 1 < |O| then k + 2 else k + 1)
      ensures Valid() && Walk(i + 1, O, off, fates, k2, obstacles, pool.reserve, R0)
        && Tracked(O, X0, off, fates, k2)
    {
      ghost var list, reserve := obstacles, pool.reserve;
      var o := obstacles[i];
      IndexOfDistinct(obstacles, i);
      var removed := UpdateObstacle(o);
      WalkRemoved(i, O, off, fates, k, list, reserve, R0);
      k2 := if k + 1 < |O| then k + 2 else k + 1;
      forall j | 0 <= j < |O|
        ensures O[j].x == X0[j] - (if j < k2 && fates[j] != Skipped then ScrollStep else 0.0)
        ensures O[j].attached == !(j < k2 && fates[j] == Removed)
      {
        if j != k {
          assert O[j] != O[k];
        }
      }
      assert removed && obstacles == list[..i] + list[i + 1..] && pool.reserve == reserve + [O[k]];
    }

    /** Before the walk nothing has been dealt with. */
    lemma PassStart(O: seq<Obstacle>, X0: seq<real>, off: seq<bool>, fates: seq<Fate>)
      requires Valid() && O == obstacles && X0 == Positions(O) && off == OffScreen(O) && fates == Pass(off, 0)
      ensures PassState(0, O, X0, pool.reserve, off, fates, 0)
    {
      assert O[..0] == [] && fates[..0] == [];
    }

    /** Once the walk has run off the end of the list, every obstacle of O
        has been dealt with. */
    lemma PassDone(i: nat, O: seq<Obstacle>, X0: seq<real>, R0: seq<Obstacle>,
                   off: seq<bool>, fates: seq<Fate>, k: nat)
      requires PassState(i, O, X0, R0, off, fates, k) && i >= |obstacles|
      ensures k == |O| && Valid()
      ensures obstacles == Kept(O, fates) && pool.reserve == R0 + Dropped(O, fates)
      ensures forall j :: 0 <= j < |O| ==> O[j].x == X0[j] - (if fates[j] == Skipped then 0.0 else ScrollStep)
      ensures forall j :: 0 <= j < |O| ==> O[j].attached == (fates[j] != Removed)
    {
      assert O[..k] == O && fates[..k] == fates;
    }

    /** `Obstacle.updateAll`: update the obstacles by index while updating
        may splice the current one out of the list. `fates` is the effect
        on each obstacle of the list as it was, `off` whether it is off
        screen once moved. */
    method UpdateAll() returns (ghost off: seq<bool>, ghost fates: seq<Fate>)
      requires Valid()
      modifies this, pool, set o | o in obstacles
      ensures Valid()
      ensures |off| == |old(obstacles)| && |fates| == |old(obstacles)|
      ensures forall j :: 0 <= j < |off| ==> (off[j] <==> old(obstacles[j].x) - ScrollStep + old(obstacles)[j].width < 0.0)
      ensures fates == Pass(off, 0)
      ensures forall j :: 0 <= j < |fates| ==>
        old(obstacles)[j].x == old(obstacles[j].x) - (if fates[j] == Skipped then 0.0 else ScrollStep)
      ensures forall j :: 0 <= j < |fates| ==> old(obstacles)[j].attached == (fates[j] != Removed)
      ensures obstacles == Kept(old(obstacles), fates)
      ensures pool.reserve == old(pool.reserve) + Dropped(old(obstacles), fates)
    {
      ghost var O := obstacles;
      ghost var X0 := Positions(O);
      off := OffScreen(O);
      fates := Pass(off, 0);
      RunPass(O, X0, off, fates);
    }

    /** The loop of `updateAll`, from the start of the walk to its end. */
    method RunPass(ghost O: seq<Obstacle>, ghost X0: seq<real>, ghost off: seq<bool>, ghost fates: seq<Fate>)
      requires Valid() && O == obstacles && X0 == Positions(O) && off == OffScreen(O) && fates == Pass(off, 0)
      modifies this, pool, set o | o in O
      ensures Valid()
      ensures obstacles == Kept(O, fates) && pool.reserve == old(pool.reserve) + Dropped(O, fates)
      ensures forall j :: 0 <= j < |O| ==> O[j].x == X0[j] - (if fates[j] == Skipped then 0.0 else ScrollStep)
      ensures forall j :: 0 <= j < |O| ==> O[j].attached == (fates[j] != Removed)
    {
      PassStart(O, X0, off, fates);
      var i := 0;
      ghost var k := 0;
      while i < |obstacles|
        invariant PassState(i, O, X0, old(pool.reserve), off, fates, k)
        decreases |O| - k
      {
        k := PassRound(i, O, X0, old(pool.reserve), off, fates, k);
        i := i + 1;
      }
      PassDone(i, O, X0, old(pool.reserve), off, fates, k);
    }
  }

  /** The positions of the obstacles. */
  ghost function Positions(os: seq<Obstacle>): (xs: seq<real>)
    reads set o | o in os
    ensures |xs| == |os| && forall j :: 0 <= j < |os| ==> xs[j] == os[j].x
  {
    if os == [] then [] else [os[0].x] + Positions(os[1..])
  }
  /** Whether each obstacle of `os` is attached to the scene. */
  ghost function Attachments(os: seq<Obstacle>): (att: seq<bool>)
    reads set o | o in os
    ensures |att| == |os| && forall j :: 0 <= j < |os| ==> att[j] == os[j].attached
  {
    if os == [] then [] else [os[0].attached] + Attachments(os[1..])
  }




  /** Which obstacles are off screen once moved left by one step. */
  ghost function OffScreen(os: seq<Obstacle>): (off: seq<bool>)
    reads set o | o in os
    ensures |off| == |os|
    ensures forall j :: 0 <= j < |os| ==> (off[j] <==> os[j].x - ScrollStep + os[j].width < 0.0)
  {
    if os == [] then [] else [os[0].x - ScrollStep + os[0].width < 0.0] + OffScreen(os[1..])
  }
}
