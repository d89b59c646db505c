/** The bird: integer-step gravity, a jump that is refused above the top
    of the stage, and the collision response that makes it fall and
    signals the scene. Emitted signals are appended to an event log. */
module Players {
  import opened Base
  import SpriteCollider
  import GameWindow
  import Obstacles

  const Gravity := 1
  const JumpVelocity := -17
  const FallVelocity := -10
  /** The signals the player emits. */
  datatype Event = Goal | Collided

  /** One frame of `update`: gravity is added to the velocity, then the
      velocity to the height. */
  function Step(y: real, vy: int): (r: (real, int))
    ensures r.1 == vy + Gravity && r.0 == y + r.1 as real
  {
    var v := vy + Gravity;
    (y + v as real, v)
  }

  /** Height and velocity after n frames. */
  function Fall(y: real, vy: int, n: nat): (real, int)
    decreases n
  {
    if n == 0 then (y, vy) else var s := Step(y, vy); Fall(s.0, s.1, n - 1)
  }

  /** After n frames the velocity has grown by n and the height by n times
      the starting velocity plus 1 + 2 + ... + n. */
  lemma {:induction false} FallClosedForm(y: real, vy: int, n: nat)
    ensures Fall(y, vy, n).1 == vy + n
    ensures Fall(y, vy, n).0 == y + (n * vy + n * (n + 1) / 2) as real
    decreases n
  {
    if n > 0 {
      var s := Step(y, vy);
      FallClosedForm(s.0, s.1, n - 1);
      FallSum(n - 1, vy);
    }
  }

  /** The arithmetic step of FallClosedForm: m frames from velocity vy + 1
      after one frame from vy cover what m + 1 frames from vy cover. */
  lemma FallSum(m: nat, vy: int)
    ensures m * (vy + 1) + m * (m + 1) / 2 + (vy + 1) == (m + 1) * vy + (m + 1) * (m + 2) / 2
  {
    var t := m * (m + 1);
    assert (m + 1) * (m + 2) == t + 2 * (m + 1);
    assert (t + 2 * (m + 1)) / 2 == t / 2 + (m + 1);
    assert m * (vy + 1) + (vy + 1) == (m + 1) * vy + (m + 1);
  }

  /** A jump sets the velocity to 17 upwards; after 17 frames the bird is
      at rest, 136 units higher. */
  lemma JumpApex(y: real)
    ensures Fall(y, JumpVelocity, 17) == (y - 136.0, 0)
  {
    FallClosedForm(y, JumpVelocity, 17);
  }

  /** Whether `groups.indexOf(2) >= 0`; `None` when the groups are `true`,
      which has no `indexOf` and throws. */
  function HasGoalGroup(groups: SpriteCollider.Groups): (r: Option<bool>)
    ensures groups.All? <==> r.None?
    ensures groups.Tags? ==> r == Some(Obstacles.GoalGroup in groups.tags)
  {
    match groups
    case All => None
    case Tags(tags) => Some(Obstacles.GoalGroup in tags)
  }

  class Player {
    /** The sprite: position, texture size, anchor in the middle. */
    const sprite: SpriteCollider.Sprite
    /** `velocity.y`. */
    var vy: int
    var dead: bool
    /** Every signal emitted so far. */
    var events: seq<Event>
    /** Where `events` stood at the last `reset`. */
    ghost var resetMark: nat

    /** Dead exactly when `'collided'` has been emitted since the last reset,
        and it is emitted at most once between resets. */
    ghost predicate Valid()
      reads this
    {
      && resetMark <= |events|
      && multiset(events[resetMark..])[Collided] == (if dead then 1 else 0)
    }

    constructor (window: GameWindow.GameWindow, width: real, height: real)
      ensures sprite.anchorX == 0.5 && sprite.anchorY == 0.5
      ensures sprite.width == width && sprite.height == height
      ensures sprite.x == window.stageWidth as real / 2.0
      ensures sprite.y == window.stageHeight as real / 2.0 - 200.0
      ensures vy == 0 && !dead && events == [] && Valid()
      ensures sprite.collide == Callback(false) && !sprite.onStage
      ensures fresh(sprite)
    {
      sprite := new SpriteCollider.Sprite(0.0, 0.0, width, height);
      vy, dead, events, resetMark := 0, false, [], 0;
      new;
      sprite.anchorX, sprite.anchorY := 0.5, 0.5;
      sprite.collide := Callback(false);
      Reset(window);
    }

    /** `reset`: back to the middle of the stage, 200 above centre, alive;
        the velocity is kept. */
    method Reset(window: GameWindow.GameWindow)
      modifies this, sprite
      ensures sprite.x == window.stageWidth as real / 2.0
      ensures sprite.y == window.stageHeight as real / 2.0 - 200.0
      ensures !dead && vy == old(vy) && events == old(events) && Valid()
      ensures unchanged(sprite`width, sprite`height, sprite`anchorX, sprite`anchorY)
      ensures unchanged(sprite`scaleX, sprite`scaleY, sprite`onStage, sprite`collide)
    {
      sprite.x := window.stageWidth as real / 2.0;
      sprite.y := window.stageHeight as real / 2.0 - 200.0;
      dead := false;
      resetMark := |events|;
    }

    /** `update`: one frame of gravity. */
    method Update()
      requires Valid()
      modifies this`vy, sprite`y
      ensures (sprite.y, vy) == Step(old(sprite.y), old(vy))
      ensures sprite.x == old(sprite.x) && dead == old(dead) && events == old(events) && Valid()
      ensures unchanged(sprite`width, sprite`height, sprite`anchorX, sprite`anchorY)
    {
      vy := vy + Gravity;
      sprite.y := sprite.y + vy as real;
    }

    /** `jump`: ignored above the top of the stage. */
    method Jump()
      modifies this
      ensures old(sprite.y) < 0.0 ==> vy == old(vy)
      ensures old(sprite.y) >= 0.0 ==> vy == JumpVelocity
      ensures dead == old(dead) && events == old(events) && resetMark == old(resetMark)
    {
      if sprite.y < 0.0 {
        return;
      }
      vy := JumpVelocity;
    }

    /** `collide`: a goal only emits `'goal'`; anything else stops the
        bird, moves it onto the obstacle's top or against its left side,
        and, the first time, makes it dead, bounces it up and emits
        `'collided'`. `raised` when `col`'s groups are `true`. */
    method Collide(col: SpriteCollider.Rect) returns (raised: bool)
      requires Valid()
      modifies this`vy, this`dead, this`events, sprite`x, sprite`y
      ensures Valid()
      ensures raised <==> col.body.groups.All?
      ensures raised || HasGoalGroup(col.body.groups) == Some(true) ==>
        && vy == old(vy) && dead == old(dead)
        && sprite.x == old(sprite.x) && sprite.y == old(sprite.y)
      ensures raised ==> events == old(events)
      ensures HasGoalGroup(col.body.groups) == Some(true) ==> events == old(events) + [Goal]
      ensures HasGoalGroup(col.body.groups) == Some(false) ==>
        && dead
        && vy == (if old(dead) then 0 else FallVelocity)
        && events == old(events) + (if old(dead) then [] else [Collided])
        && var onTop := old(sprite.x) + sprite.height / 2.0 > col.left && old(sprite.y) < col.bottom;
           && sprite.y == (if onTop then (col.top - sprite.height / 2.0).Floor as real else old(sprite.y))
           && sprite.x == (if !onTop && old(sprite.y) < col.bottom then col.left - sprite.width / 2.0
                           else old(sprite.x))
      ensures unchanged(sprite`width, sprite`height, sprite`anchorX, sprite`anchorY)
    {
      var goal := HasGoalGroup(col.body.groups);
      if goal.None? {
        return true;
      }
      raised := false;
      if goal.value {
        events := events + [Goal];
        assert events[resetMark..] == old(events)[resetMark..] + [Goal];
        return;
      }
      Crash(col);
    }

    /** The part of `collide` for an obstacle that is not a goal. */
    method Crash(col: SpriteCollider.Rect)
      requires Valid()
      modifies this`vy, this`dead, this`events, sprite`x, sprite`y
      ensures Valid() && dead
      ensures vy == (if old(dead) then 0 else FallVelocity)
      ensures events == old(events) + (if old(dead) then [] else [Collided])
      ensures var onTop := old(sprite.x) + sprite.height / 2.0 > col.left && old(sprite.y) < col.bottom;
        && sprite.y == (if onTop then (col.top - sprite.height / 2.0).Floor as real else old(sprite.y))
        && sprite.x == (if !onTop && old(sprite.y) < col.bottom then col.left - sprite.width / 2.0
                        else old(sprite.x))
    {
      Land(col);
      vy := 0;
      if !dead {
        vy := FallVelocity;
        dead := true;
        events := events + [Collided];
        assert events[resetMark..] == old(events)[resetMark..] + [Collided];
      }
    }

    /** Where `collide` puts the bird against an obstacle: onto its top
        (rounded down) when its right edge has passed the obstacle's left
        edge, else against that left edge, in both cases only while it is
        above the obstacle's bottom. */
    method Land(col: SpriteCollider.Rect)
      modifies sprite`x, sprite`y
      ensures var onTop := old(sprite.x) + sprite.height / 2.0 > col.left && old(sprite.y) < col.bottom;
        && sprite.y == (if onTop then (col.top - sprite.height / 2.0).Floor as real else old(sprite.y))
        && sprite.x == (if !onTop && old(sprite.y) < col.bottom then col.left - sprite.width / 2.0
                        else old(sprite.x))
    {
      if sprite.x + sprite.height / 2.0 > col.left && sprite.y < col.bottom {
        sprite.y := (col.top - sprite.height / 2.0).Floor as real;
      } else if sprite.y < col.bottom {
        sprite.x := col.left - sprite.width / 2.0;
      }
    }
  }
}
