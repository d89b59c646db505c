/** The box collider: a flat registry of bodies, group compatibility, strict
    axis-aligned overlap and the per-tick all-pairs sweep. A sprite's global
    position (the engine's `toGlobal` of its origin) is given as its `x`,
    `y`; a `collide` handler is recorded as a call in the result instead of
    being run (only whether it throws is modelled). */
module SpriteCollider {
  import opened Base
  import GameWindow

  /** A body's groups: `true` (collides with every group) or a list of tags. */
  datatype Groups = All | Tags(tags: seq<int>)

  /** The `groups` argument of `addSprite`: an integer, an array of
      integer tags, or a value for which `isNaN` is true (`undefined`, a
      non-numeric string, a plain object). */
  datatype GroupsArg = Number(n: int) | List(items: seq<int>) | NotNumeric

  /** How `addSprite` normalises its `groups` argument. */
  function GroupsOf(arg: GroupsArg): (g: Groups)
    ensures arg.List? ==> g == Tags(arg.items)
    ensures arg.Number? ==> g == Tags([arg.n])
    ensures arg.NotNumeric? ==> g == All
  {
    match arg
    case Number(n) => Tags([n])
    case List(items) => Tags(items)
    case NotNumeric => All
  }

  /** Whether two groups are compatible: either is `true`, or some tag of
      the one equals some tag of the other. */
  predicate GroupsMatch(a: Groups, b: Groups)
  {
    || a.All? || b.All?
    || exists i, j :: 0 <= i < |a.tags| && 0 <= j < |b.tags| && a.tags[i] == b.tags[j]
  }

  /** Compatibility does not depend on the order of the groups. */
  lemma GroupsMatchSymmetric(a: Groups, b: Groups)
    ensures GroupsMatch(a, b) == GroupsMatch(b, a)
  {
  }

  /** `inGroups`: both tag lists scanned from the end, stopping at the first
      shared tag. */
  method InGroups(a: Groups, b: Groups) returns (r: bool)
    ensures r == GroupsMatch(a, b)
  {
    if a.All? || b.All? {
      return true;
    }
    var i := |a.tags| - 1;
    while i >= 0
      invariant -1 <= i < |a.tags|
      invariant forall i', j :: i < i' < |a.tags| && 0 <= j < |b.tags| ==> a.tags[i'] != b.tags[j]
    {
      var j := |b.tags| - 1;
      while j >= 0
        invariant -1 <= j < |b.tags|
        invariant forall j' :: j < j' < |b.tags| ==> a.tags[i] != b.tags[j']
      {
        if a.tags[i] == b.tags[j] {
          return true;
        }
        j := j - 1;
      }
      i := i - 1;
    }
    return false;
  }

  /** The engine sprite a body stands for. */
  class Sprite {
    var x: real
    var y: real
    var width: real
    var height: real
    var scaleX: real
    var scaleY: real
    var anchorX: real
    var anchorY: real
    /** Whether the sprite is attached to a stage. */
    var onStage: bool
    /** The sprite's `collide` handler, if it has one. */
    var collide: Callback

    constructor (x: real, y: real, width: real, height: real)
      ensures this.x == x && this.y == y && this.width == width && this.height == height
      ensures scaleX == 1.0 && scaleY == 1.0 && anchorX == 0.0 && anchorY == 0.0
      ensures !onStage && collide == NoCallback
    {
      this.x, this.y, this.width, this.height := x, y, width, height;
      scaleX, scaleY, anchorX, anchorY := 1.0, 1.0, 0.0, 0.0;
      onStage := false;
      collide := NoCallback;
    }
  }

  datatype Body = Body(sprite: Sprite, groups: Groups, enabled: bool)

  /** A body's bounding box, together with the sprite state the collision
      test reads (whether the sprite is staged, its handler). */
  datatype Rect = Rect(body: Body, left: real, top: real, right: real, bottom: real,
                       onStage: bool, collide: Callback)

  function Abs(x: real): (r: real)
    ensures r >= 0.0 && (r == x || r == -x)
  {
    if x < 0.0 then -x else x
  }

  function Min0(x: real): real
  {
    if x < 0.0 then x else 0.0
  }

  /** `rect`: the box from the sprite's position, size, scale and anchor;
      a negative scale flips the box to the other side of the anchor. */
  function RectOf(body: Body): (r: Rect)
    reads body.sprite
    ensures r.body == body && r.onStage == body.sprite.onStage && r.collide == body.sprite.collide
  {
    var s := body.sprite;
    var width := Abs(s.width * s.scaleX);
    var height := Abs(s.height * s.scaleY);
    var left := s.x - width * s.anchorX + width * Min0(s.scaleX);
    var top := s.y - height * s.anchorY + height * Min0(s.scaleY);
    Rect(body, left, top, left + width, top + height, s.onStage, s.collide)
  }

  /** The box is as wide and as high as the sprite's scaled size, never
      inverted, and sits at the anchor; a negative scale shifts it back by
      the scaled size. */
  lemma RectGeometry(body: Body)
    ensures var r := RectOf(body); var s := body.sprite;
      && r.right - r.left == Abs(s.width * s.scaleX) && r.right >= r.left
      && r.bottom - r.top == Abs(s.height * s.scaleY) && r.bottom >= r.top
      && (s.scaleX >= 0.0 ==> r.left == s.x - (r.right - r.left) * s.anchorX)
      && (s.scaleX < 0.0 ==> r.left == s.x - (r.right - r.left) * s.anchorX + (r.right - r.left) * s.scaleX)
      && (s.scaleY >= 0.0 ==> r.top == s.y - (r.bottom - r.top) * s.anchorY)
      && (s.scaleY < 0.0 ==> r.top == s.y - (r.bottom - r.top) * s.anchorY + (r.bottom - r.top) * s.scaleY)
  {
  }

  /** The overlap test of `checkCollision`: touching edges do not overlap. */
  predicate Overlap(a: Rect, b: Rect)
  {
    !(a.left >= b.right || a.right <= b.left || a.top >= b.bottom || a.bottom <= b.top)
  }

  /** The result of `checkCollision`. */
  predicate Collides(a: Rect, b: Rect)
  {
    && Overlap(a, b)
    && GroupsMatch(a.body.groups, b.body.groups)
    && a.body.enabled && b.body.enabled
    && a.onStage && b.onStage
  }

  /** The collision test does not depend on the order of its arguments. */
  lemma CollidesSymmetric(a: Rect, b: Rect)
    ensures Collides(a, b) == Collides(b, a)
  {
    GroupsMatchSymmetric(a.body.groups, b.body.groups);
  }

  /** Boxes that only share an edge never collide. */
  lemma SharedEdgeIsNoCollision(a: Rect, b: Rect)
    requires a.right == b.left || a.bottom == b.top
    ensures !Collides(a, b)
  {
  }

  /** Two enabled, staged bodies whose groups match collide exactly when
      their boxes overlap; a disabled body never collides. */
  lemma CollidesIff(a: Rect, b: Rect)
    ensures !a.body.enabled || !b.body.enabled ==> !Collides(a, b)
    ensures (a.body.enabled && b.body.enabled && a.onStage && b.onStage &&
             (a.body.groups.All? || b.body.groups.All?)) ==> (Collides(a, b) <==> Overlap(a, b))
  {
  }

  /** A request to run `sprite.collide(other)`. */
  datatype Hit = Hit(sprite: Sprite, other: Rect)

  /** The handler call `checkCollision` makes on `a`'s sprite, if any. */
  function HandlerCall(a: Rect, b: Rect): seq<Hit>
  {
    if a.collide.Callback? then [Hit(a.body.sprite, b)] else []
  }

  /** `checkCollision` on two boxes. */
  method CheckCollision(a: Rect, b: Rect) returns (result: bool, calls: seq<Hit>, raised: bool)
    ensures result == Collides(a, b)
    ensures !result ==> calls == [] && !raised
    ensures result && Raises(a.collide) ==> calls == [Hit(a.body.sprite, b)] && raised
    ensures result && !Raises(a.collide) ==>
      calls == HandlerCall(a, b) + HandlerCall(b, a) && raised == Raises(b.collide)
  {
    var matching := InGroups(a.body.groups, b.body.groups);
    result := Overlap(a, b) && matching && a.body.enabled && b.body.enabled && a.onStage && b.onStage;
    calls, raised := [], false;
    if result {
      if a.collide.Callback? {
        calls := calls + [Hit(a.body.sprite, b)];
        if a.collide.raises {
          raised := true;
          return;
        }
      }
      if b.collide.Callback? {
        calls := calls + [Hit(b.body.sprite, a)];
        raised := b.collide.raises;
      }
    }
  }

  /** The pairs (i, j), j running from n - 1 down to `from`, that the inner
      loop of the sweep checks for row i. */
  function RowFrom(i: nat, n: nat, from: nat): seq<(nat, nat)>
    decreases n - from
  {
    if from >= n then [] else RowFrom(i, n, from + 1) + (if from != i then [(i, from)] else [])
  }

  /** The pairs checked by the rows n - 1 down to `from`. */
  function RowsFrom(n: nat, from: nat): seq<(nat, nat)>
    decreases n - from
  {
    if from >= n then [] else RowsFrom(n, from + 1) + RowFrom(from, n, 0)
  }

  /** Every pair the sweep over n bodies checks, in order. */
  function OrderedPairs(n: nat): seq<(nat, nat)>
  {
    RowsFrom(n, 0)
  }

  lemma {:induction false} RowFromExact(i: nat, n: nat, from: nat, p: (nat, nat))
    ensures p in RowFrom(i, n, from) <==> p.0 == i && from <= p.1 < n && p.1 != i
    ensures |RowFrom(i, n, from)| == if from >= n then 0 else if from <= i < n then n - from - 1 else n - from
    decreases n - from
  {
    if from < n {
      RowFromExact(i, n, from + 1, p);
    }
  }

  lemma {:induction false} RowsFromExact(n: nat, from: nat, p: (nat, nat))
    ensures p in RowsFrom(n, from) <==> from <= p.0 < n && p.1 < n && p.0 != p.1
    ensures |RowsFrom(n, from)| == if from >= n then 0 else (n - from) * (n - 1)
    decreases n - from
  {
    if from < n {
      RowsFromExact(n, from + 1, p);
      RowFromExact(from, n, 0, p);
      RowsCount(n - from - 1, n - 1);
    }
  }

  /** One more row of `width` pairs. */
  lemma RowsCount(rows: nat, width: nat)
    ensures (rows + 1) * width == rows * width + width
  {
  }

  /** The sweep checks exactly the ordered pairs of distinct bodies, so each
      unordered pair twice and no body against itself. */
  lemma SweepPairs(n: nat)
    ensures forall p: (nat, nat) :: p in OrderedPairs(n) <==> p.0 < n && p.1 < n && p.0 != p.1
    ensures |OrderedPairs(n)| == n * (n - 1)
  {
    forall p: (nat, nat) ensures p in OrderedPairs(n) <==> p.0 < n && p.1 < n && p.0 != p.1 {
      RowsFromExact(n, 0, p);
    }
    RowsFromExact(n, 0, (0, 0));
  }

  /** Whether `checkCollision` on the pair throws: they collide and one of
      their handlers throws. */
  predicate PairThrows(a: Rect, b: Rect)
  {
    Collides(a, b) && (Raises(a.collide) || Raises(b.collide))
  }

  /** Whether row `i` throws at some partner `j >= lo`. */
  predicate RowThrows(rects: seq<Rect>, i: nat, lo: nat)
    requires i < |rects|
  {
    exists j :: lo <= j < |rects| && j != i && PairThrows(rects[i], rects[j])
  }

  /** Whether some row `i >= lo` of the sweep throws. */
  predicate RowsThrow(rects: seq<Rect>, lo: nat)
  {
    exists i :: lo <= i < |rects| && RowThrows(rects, i, 0)
  }

  /** The handler calls a pair produces when no handler throws. */
  function PairHits(a: Rect, b: Rect): seq<Hit>
  {
    if Collides(a, b) then HandlerCall(a, b) + HandlerCall(b, a) else []
  }

  /** The handler calls a throwing pair makes before the throw leaves
      `checkCollision`: `a`'s handler throws at once, or else it ran (if it
      is a function) and `b`'s handler threw. */
  function ThrowHits(a: Rect, b: Rect): seq<Hit>
  {
    if Raises(a.collide) then [Hit(a.body.sprite, b)] else HandlerCall(a, b) + HandlerCall(b, a)
  }

  /** The handler calls row i of the sweep produces from column `from` up
      when no handler throws (pairs as in RowFrom). */
  function RowHits(rects: seq<Rect>, i: nat, from: nat): seq<Hit>
    requires i < |rects|
    decreases |rects| - from
  {
    if from >= |rects| then []
    else RowHits(rects, i, from + 1) + (if from != i then PairHits(rects[i], rects[from]) else [])
  }

  /** The handler calls rows |rects| - 1 down to `from` produce. */
  function RowsHits(rects: seq<Rect>, from: nat): seq<Hit>
    decreases |rects| - from
  {
    if from >= |rects| then [] else RowsHits(rects, from + 1) + RowHits(rects, from, 0)
  }

  /** Every handler call one sweep over the boxes requests. */
  function SweepHits(rects: seq<Rect>): seq<Hit>
  {
    RowsHits(rects, 0)
  }

  /** The boxes of all bodies, in registration order. */
  function RectsOf(bodies: seq<Body>): (rs: seq<Rect>)
    reads set b | b in bodies :: b.sprite
    ensures |rs| == |bodies|
    ensures forall k :: 0 <= k < |bodies| ==> rs[k] == RectOf(bodies[k])
  {
    seq(|bodies|, k requires 0 <= k < |bodies| reads set b | b in bodies :: b.sprite => RectOf(bodies[k]))
  }

  /** One row of the sweep: box i against every other box, from the last
      down. Stops at the first handler that throws. */
  method SweepRow(rects: seq<Rect>, i: nat) returns (row: seq<(nat, nat)>, hits: seq<Hit>, raised: bool)
    requires i < |rects|
    ensures raised <==> RowThrows(rects, i, 0)
    ensures !raised ==> row == RowFrom(i, |rects|, 0) && hits == RowHits(rects, i, 0)
    ensures raised ==>
      exists j: nat :: j < |rects| && j != i && PairThrows(rects[i], rects[j]) && !RowThrows(rects, i, j + 1)
        && row == RowFrom(i, |rects|, j + 1) + [(i, j)]
        && hits == RowHits(rects, i, j + 1) + ThrowHits(rects[i], rects[j])
  {
    var n := |rects|;
    row, hits, raised := [], [], false;
    var j := n - 1;
    while j >= 0
      invariant -1 <= j < n
      invariant row == RowFrom(i, n, j + 1)
      invariant hits == RowHits(rects, i, j + 1)
      invariant !RowThrows(rects, i, j + 1)
    {
      if i != j {
        var result, calls, threw := CheckCollision(rects[i], rects[j]);
        row := row + [(i, j)];
        if threw {
          hits := hits + calls;
          raised := true;
          return;
        }
        assert calls == PairHits(rects[i], rects[j]);
        hits := hits + calls;
      }
      RowThrowsStep(rects, i, j);
      j := j - 1;
    }
  }

  /** Whether some body stands for `sprite`. */
  predicate Registered(bodies: seq<Body>, sprite: Sprite)
  {
    exists k :: 0 <= k < |bodies| && bodies[k].sprite == sprite
  }

  /** The index of the last body standing for `sprite`, or -1. */
  function LastIndex(bodies: seq<Body>, sprite: Sprite): (k: int)
    ensures -1 <= k < |bodies|
    ensures k >= 0 ==> bodies[k].sprite == sprite
    ensures forall j :: k < j < |bodies| ==> bodies[j].sprite != sprite
    decreases |bodies|
  {
    if bodies == [] then -1
    else if bodies[|bodies| - 1].sprite == sprite then |bodies| - 1
    else LastIndex(bodies[..|bodies| - 1], sprite)
  }

  /** The bodies after the last one standing for `sprite` gets `enabled`
      set to `flag`. */
  function EnableLast(bodies: seq<Body>, sprite: Sprite, flag: bool): seq<Body>
  {
    var k := LastIndex(bodies, sprite);
    if k < 0 then bodies else bodies[k := bodies[k].(enabled := flag)]
  }

  /** Only registered sprites are affected, only their last body changes,
      and only in its `enabled` flag. */
  lemma EnableLastSpec(bodies: seq<Body>, sprite: Sprite, flag: bool)
    ensures Registered(bodies, sprite) <==> LastIndex(bodies, sprite) >= 0
    ensures !Registered(bodies, sprite) ==> EnableLast(bodies, sprite, flag) == bodies
    ensures var r := EnableLast(bodies, sprite, flag);
      && |r| == |bodies|
      && (forall i :: 0 <= i < |r| ==> r[i].sprite == bodies[i].sprite && r[i].groups == bodies[i].groups)
      && (forall i :: 0 <= i < |r| && i != LastIndex(bodies, sprite) ==> r[i] == bodies[i])
  {
  }

  /** Setting a sprite's flag twice leaves only the second setting. */
  lemma EnableLastTwice(bodies: seq<Body>, sprite: Sprite, first: bool, second: bool)
    ensures EnableLast(EnableLast(bodies, sprite, first), sprite, second) == EnableLast(bodies, sprite, second)
  {
    var k := LastIndex(bodies, sprite);
    var once := EnableLast(bodies, sprite, first);
    if k >= 0 {
      var k' := LastIndex(once, sprite);
      assert once[k].sprite == sprite;
      assert k' == k;
    }
  }

  /** The registry of bodies (the plugin's module-level `bodies`). */
  class World {
    var bodies: seq<Body>

    constructor ()
      ensures bodies == []
    {
      bodies := [];
    }

    /** `addSprite`. */
    method AddSprite(sprite: Sprite, groups: GroupsArg)
      modifies this
      ensures bodies == old(bodies) + [Body(sprite, GroupsOf(groups), true)]
    {
      bodies := bodies + [Body(sprite, GroupsOf(groups), true)];
    }

    /** `enableSprite`: set `enabled` on the last body registered for the
        sprite (an absent flag means true). */
    method EnableSprite(sprite: Sprite, enabled: Option<bool>) returns (found: bool)
      modifies this
      ensures found == Registered(old(bodies), sprite)
      ensures bodies == EnableLast(old(bodies), sprite, enabled != Some(false))
    {
      var i := |bodies| - 1;
      while i >= 0
        invariant -1 <= i < |bodies|
        invariant forall j :: i < j < |bodies| ==> bodies[j].sprite != sprite
      {
        if bodies[i].sprite == sprite {
          ghost var k := LastIndex(bodies, sprite);
          assert k == i by {
            if k < i { assert bodies[i].sprite == sprite; }
          }
          bodies := bodies[i := bodies[i].(enabled := enabled != Some(false))];
          return true;
        }
        i := i - 1;
      }
      return false;
    }

    /** The tick sweep: every row from the last body down. A handler that
        throws sets the window's error flag and ends the sweep (`raised`). */
    method Sweep(window: GameWindow.GameWindow) returns (checked: seq<(nat, nat)>, hits: seq<Hit>, raised: bool)
      modifies window`error
      ensures raised <==> RowsThrow(RectsOf(bodies), 0)
      ensures !raised ==> checked == OrderedPairs(|bodies|) && hits == SweepHits(RectsOf(bodies))
      ensures !raised ==> window.error == old(window.error)
      ensures raised ==> window.error && |checked| > 0 && checked <= OrderedPairs(|bodies|)
      ensures raised ==> exists i: nat, j: nat :: StoppedAt(RectsOf(bodies), i, j, checked, hits)
    {
      var rects := RectsOf(bodies);
      checked, hits, raised := SweepRects(rects, window);
    }
  }

  /** (i, j) is the first pair of the sweep that throws: no later row and no
      later partner in row i throws. */
  predicate FirstThrow(rects: seq<Rect>, i: nat, j: nat)
  {
    i < |rects| && j < |rects| && j != i && PairThrows(rects[i], rects[j])
      && !RowThrows(rects, i, j + 1) && !RowsThrow(rects, i + 1)
  }

  /** A sweep that stopped at the first throwing pair (i, j) made exactly
      the checks and the handler calls up to that throw. */
  predicate StoppedAt(rects: seq<Rect>, i: nat, j: nat, checked: seq<(nat, nat)>, hits: seq<Hit>)
  {
    FirstThrow(rects, i, j)
      && checked == RowsFrom(|rects|, i + 1) + RowFrom(i, |rects|, j + 1) + [(i, j)]
      && hits == RowsHits(rects, i + 1) + RowHits(rects, i, j + 1) + ThrowHits(rects[i], rects[j])
  }

  /** Row i throwing at partner j, after rows n - 1 down to i + 1 ran
      quietly, stops the sweep. */
  lemma StopsAt(rects: seq<Rect>, i: nat, j: nat, checked: seq<(nat, nat)>, hits: seq<Hit>,
                row: seq<(nat, nat)>, rowHits: seq<Hit>)
    requires i < |rects| && !RowsThrow(rects, i + 1)
    requires checked == RowsFrom(|rects|, i + 1) && hits == RowsHits(rects, i + 1)
    requires j < |rects| && j != i && PairThrows(rects[i], rects[j]) && !RowThrows(rects, i, j + 1)
    requires row == RowFrom(i, |rects|, j + 1) + [(i, j)]
    requires rowHits == RowHits(rects, i, j + 1) + ThrowHits(rects[i], rects[j])
    ensures StoppedAt(rects, i, j, checked + row, hits + rowHits)
    ensures RowsThrow(rects, 0) && |checked + row| > 0 && checked + row <= OrderedPairs(|rects|)
  {
    PrefixOfSweep(|rects|, i, j);
    RowsThrowWitness(rects, i);
  }

  /** At most one pair is the first to throw. */
  lemma FirstThrowUnique(rects: seq<Rect>, i: nat, j: nat, i': nat, j': nat)
    requires FirstThrow(rects, i, j) && FirstThrow(rects, i', j')
    ensures i == i' && j == j'
  {
    if i < i' {
      assert RowThrows(rects, i', 0);
    } else if i' < i {
      assert RowThrows(rects, i, 0);
    }
  }

  /** The sweep over the boxes `rects`, in the order `World.Sweep` runs it. */
  method SweepRects(rects: seq<Rect>, window: GameWindow.GameWindow) returns (checked: seq<(nat, nat)>, hits: seq<Hit>, raised: bool)
    modifies window`error
    ensures raised <==> RowsThrow(rects, 0)
    ensures !raised ==> checked == OrderedPairs(|rects|) && hits == SweepHits(rects)
    ensures !raised ==> window.error == old(window.error)
    ensures raised ==> window.error && |checked| > 0 && checked <= OrderedPairs(|rects|)
    // on a throw, exactly the checks and handler calls up to the first throwing pair
    ensures raised ==> exists i: nat, j: nat :: StoppedAt(rects, i, j, checked, hits)
  {
    var n := |rects|;
    checked, hits, raised := [], [], false;
    var i := n - 1;
    while i >= 0
      invariant -1 <= i < n
      invariant checked == RowsFrom(n, i + 1)
      invariant hits == RowsHits(rects, i + 1)
      invariant window.error == old(window.error)
      invariant !RowsThrow(rects, i + 1)
    {
      var row, rowHits, threw := SweepRow(rects, i);
      if threw {
        var j: nat :| j < n && j != i && PairThrows(rects[i], rects[j]) && !RowThrows(rects, i, j + 1)
          && row == RowFrom(i, n, j + 1) + [(i, j)]
          && rowHits == RowHits(rects, i, j + 1) + ThrowHits(rects[i], rects[j]);
        StopsAt(rects, i, j, checked, hits, row, rowHits);
        checked := checked + row;
        hits := hits + rowHits;
        raised := true;
        window.error := true;
        return;
      }
      checked := checked + row;
      hits := hits + rowHits;
      RowsThrowStep(rects, i);
      i := i - 1;
    }
  }

  lemma RowThrowsStep(rects: seq<Rect>, i: nat, j: nat)
    requires i < |rects| && j < |rects|
    ensures RowThrows(rects, i, j) <==> (j != i && PairThrows(rects[i], rects[j])) || RowThrows(rects, i, j + 1)
  {
  }

  lemma RowsThrowStep(rects: seq<Rect>, i: nat)
    requires i < |rects|
    ensures RowsThrow(rects, i) <==> RowThrows(rects, i, 0) || RowsThrow(rects, i + 1)
  {
  }

  lemma RowsThrowWitness(rects: seq<Rect>, i: nat)
    requires i < |rects| && RowThrows(rects, i, 0)
    ensures RowsThrow(rects, 0)
  {
  }

  lemma PrefixOfSweep(n: nat, i: nat, j: nat)
    requires i < n && j < n
    ensures RowsFrom(n, i + 1) + RowFrom(i, n, j + 1) + (if j != i then [(i, j)] else []) <= OrderedPairs(n)
  {
    assert RowFrom(i, n, j + 1) + (if j != i then [(i, j)] else []) == RowFrom(i, n, j);
    RowFromPrefix(i, n, j);
    RowsFromPrefix(n, i);
  }

  lemma {:induction false} RowFromPrefix(i: nat, n: nat, j: nat)
    ensures RowFrom(i, n, j) <= RowFrom(i, n, 0)
    decreases j
  {
    if j > 0 {
      RowFromPrefix(i, n, j - 1);
      if j - 1 < n {
        assert RowFrom(i, n, j - 1) == RowFrom(i, n, j) + (if j - 1 != i then [(i, j - 1)] else []);
      }
    }
  }

  lemma {:induction false} RowsFromPrefix(n: nat, i: nat)
    requires i < n
    ensures RowsFrom(n, i + 1) + RowFrom(i, n, 0) <= OrderedPairs(n)
    decreases i
  {
    if i > 0 {
      RowsFromPrefix(n, i - 1);
    }
  }
}
