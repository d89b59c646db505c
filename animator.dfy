/** The tween engine: a per-object queue of interpolation steps driven one
    tick at a time, and the global list of running animators. Easing curves
    other than Linear are parameters (the default one stands for Swing). */
module Animation {
  import opened Base
  import GameWindow

  /** Duration, in milliseconds, of a step that names none. */
  const DefaultDuration: real := 400.0

  type Easing = real -> real

  /** `Animator.Easing.Linear`. */
  function Linear(p: real): real
  {
    p
  }

  /** One queued tween step. `duration` is None where the caller gave none
      or a zero one; `easing` is None where the default applies. */
  datatype Step = Step(props: map<string, real>, duration: Option<real>, easing: Option<Easing>, complete: Callback)

  /** The duration a step runs for. */
  function Duration(s: Step): real
  {
    if s.duration.Some? then s.duration.value else DefaultDuration
  }

  /** What `to` stores for a duration argument: falsy becomes null. */
  function StoredDuration(d: Option<real>): (r: Option<real>)
    ensures r.Some? ==> r.value != 0.0
    ensures d.Some? && d.value != 0.0 ==> r == d
  {
    if d.Some? && d.value != 0.0 then d else None
  }

  /** The sum over `steps` of each step's duration, the default standing in
      for a missing one. */
  function TotalDuration(steps: seq<Step>): real
  {
    if steps == [] then 0.0 else Duration(steps[0]) + TotalDuration(steps[1..])
  }

  lemma {:induction false} TotalDurationAppend(steps: seq<Step>, s: Step)
    ensures TotalDuration(steps + [s]) == TotalDuration(steps) + Duration(s)
  {
    if steps != [] {
      assert (steps + [s])[1..] == steps[1..] + [s];
      TotalDurationAppend(steps[1..], s);
    }
  }

  /** A queue of steps none of which names a duration lasts DefaultDuration per step. */
  lemma {:induction false} TotalDurationAllDefault(steps: seq<Step>)
    requires forall i :: 0 <= i < |steps| ==> steps[i].duration.None?
    ensures TotalDuration(steps) == DefaultDuration * |steps| as real
  {
    if steps != [] {
      TotalDurationAllDefault(steps[1..]);
    }
  }

  /** Every property named by some step of the queue. */
  function Names(steps: seq<Step>): set<string>
  {
    if steps == [] then {} else Names(steps[..|steps| - 1]) + steps[|steps| - 1].props.Keys
  }

  lemma {:induction false} NamesExact(steps: seq<Step>, n: string)
    ensures n in Names(steps) <==> exists i :: 0 <= i < |steps| && n in steps[i].props
  {
    if steps != [] {
      var init := steps[..|steps| - 1];
      NamesExact(init, n);
      if n in Names(steps) && n !in steps[|steps| - 1].props {
        var i :| 0 <= i < |init| && n in init[i].props;
        assert steps[i] == init[i];
      }
      if exists i :: 0 <= i < |steps| && n in steps[i].props {
        var i :| 0 <= i < |steps| && n in steps[i].props;
        if i < |steps| - 1 {
          assert init[i] == steps[i];
        }
      }
    }
  }

  /** Reads property `n` of an object; None stands for `undefined`. */
  function Get(values: map<string, real>, n: string): Option<real>
  {
    if n in values then Some(values[n]) else None
  }

  /** `_initialProps` as `start` records it: the current value of every
      property named anywhere in the queue. */
  function Capture(values: map<string, real>, names: set<string>): (m: map<string, Option<real>>)
    ensures m.Keys == names
    ensures forall n :: n in names ==> m[n] == Get(values, n)
  {
    map n | n in names :: Get(values, n)
  }

  /** The value a property starts from in a step: missing counts as 0. */
  function StartValue(snapshot: map<string, real>, p: string): real
  {
    if p in snapshot then snapshot[p] else 0.0
  }

  /** One interpolated property value at eased progress `v`: the start
      value at 0, the target at 1. */
  function Lerp(a: real, b: real, v: real): (r: real)
    ensures v == 0.0 ==> r == a
    ensures v == 1.0 ==> r == b
  {
    a + (b - a) * v
  }

  /** While the eased progress lies in [0, 1], an interpolated value lies
      between the start value and the target. */
  lemma LerpBetween(a: real, b: real, v: real)
    requires 0.0 <= v <= 1.0
    ensures a <= b ==> a <= Lerp(a, b, v) <= b
    ensures b <= a ==> b <= Lerp(a, b, v) <= a
  {
    var d := b - a;
    if d >= 0.0 {
      MulNonNegative(d, v);
      MulNonNegative(d, 1.0 - v);
      assert d * (1.0 - v) == d - d * v;
    } else {
      MulNonNegative(-d, v);
      MulNonNegative(-d, 1.0 - v);
      assert -d * (1.0 - v) == d * v - d;
    }
  }

  /** The object after one frame of a step: every property of the step's
      target is set between its snapshot value and its target; all other
      properties are untouched. */
  function Interpolated(values: map<string, real>, snapshot: map<string, real>, target: map<string, real>, v: real): (r: map<string, real>)
    ensures r.Keys == values.Keys + target.Keys
    ensures forall p :: p in target ==> r[p] == Lerp(StartValue(snapshot, p), target[p], v)
    ensures forall p :: p in values && p !in target ==> r[p] == values[p]
  {
    values + map p | p in target :: Lerp(StartValue(snapshot, p), target[p], v)
  }

  /** The start values `update` records when a step becomes current. */
  function Snapshot(values: map<string, real>, target: map<string, real>): (m: map<string, real>)
    ensures m.Keys == values.Keys * target.Keys
    ensures forall p :: p in m ==> m[p] == values[p]
  {
    map p | p in target && p in values :: values[p]
  }

  /** The object after a loop restarts: every recorded property gets its
      recorded value back (a recorded `undefined` removes it). */
  function Restored(values: map<string, real>, initial: map<string, Option<real>>): (r: map<string, real>)
    ensures forall n :: n in initial ==> Get(r, n) == initial[n]
    ensures forall n :: n !in initial ==> Get(r, n) == Get(values, n)
  {
    map n | n in values.Keys + initial.Keys && (n in initial ==> initial[n].Some?) ::
      if n in initial then initial[n].value else values[n]
  }

  /** `elapsed` capped at 1. */
  function Clamp(x: real): (e: real)
    ensures e <= 1.0
    ensures e == 1.0 <==> x >= 1.0
    ensures x <= 1.0 ==> e == x
  {
    if x > 1.0 then 1.0 else x
  }

  /** The fraction of a step that `time` milliseconds cover. */
  function Elapsed(time: real, s: Step): (e: real)
    requires Duration(s) != 0.0
    ensures e <= 1.0
    ensures 0.0 <= time && 0.0 < Duration(s) ==> 0.0 <= e
    ensures e == 1.0 <==> time / Duration(s) >= 1.0
  {
    Clamp(time / Duration(s))
  }

  /** Overall progress lies in [0, 1] while a step is running. */
  lemma ProgressBounded(step: int, total: int, e: real)
    requires 0 <= step < total
    requires 0.0 <= e <= 1.0
    ensures 0.0 <= (step as real + e) / total as real <= 1.0
  {
    assert step as real + e <= total as real;
  }

  /** With Linear easing, a finished step leaves every property it names at
      exactly its target. */
  lemma LinearReachesTarget(values: map<string, real>, snapshot: map<string, real>, target: map<string, real>)
    ensures forall p :: p in target ==> Interpolated(values, snapshot, target, Linear(1.0))[p] == target[p]
  {
  }

  /** `loops` after one full pass over the queue. */
  function NextLoops(l: int): int
  {
    if l > 0 then l - 1 else l
  }

  /** Starting from `loops == l`, the n-th pass over the queue is the one
      that completes the animation. */
  ghost predicate FinishesAfter(l: int, n: nat)
    decreases n
  {
    n >= 1 && if NextLoops(l) == 0 then n == 1 else FinishesAfter(NextLoops(l), n - 1)
  }

  /** A positive loop count runs exactly that many passes; 0 runs one pass,
      like 1; a negative count never completes. */
  lemma {:induction false} LoopCountTermination(l: int)
    ensures l >= 1 ==> FinishesAfter(l, l)
    ensures l == 0 ==> FinishesAfter(l, 1)
    ensures l < 0 ==> forall n: nat :: !FinishesAfter(l, n)
  {
    if l > 1 {
      LoopCountTermination(l - 1);
    }
    if l < 0 {
      forall n: nat ensures !FinishesAfter(l, n) {
        NegativeNeverFinishes(l, n);
      }
    }
  }

  lemma {:induction false} NegativeNeverFinishes(l: int, n: nat)
    requires l < 0
    ensures !FinishesAfter(l, n)
    decreases n
  {
    if n >= 1 {
      NegativeNeverFinishes(l, n - 1);
    }
  }

  /** A passes-count is unique: the animation completes on one pass only. */
  lemma {:induction false} FinishesAfterUnique(l: int, n: nat, m: nat)
    requires FinishesAfter(l, n) && FinishesAfter(l, m)
    ensures n == m
    decreases n
  {
    if NextLoops(l) != 0 {
      FinishesAfterUnique(NextLoops(l), n - 1, m - 1);
    }
  }

  /** The part of an animator's state that decides what one `update` does:
      the step clock, the current step, the step index, the queue length
      and the loop count. */
  datatype Clock = Clock(time: real, end: Option<Step>, step: int, total: int, loops: int)

  /** The current step, if any, has a duration `update` can divide by. */
  predicate Timed(c: Clock)
  {
    c.end.Some? ==> Duration(c.end.value) != 0.0
  }

  /** What one `update` by `deltaTime` does from clock `c`: move while the
      step's fraction stays below 1; otherwise advance while a step
      remains, start the next loop while the decremented count is not 0,
      and finish. */
  function Outcome(c: Clock, deltaTime: real): Transition
    requires Timed(c)
  {
    var e := if c.end.Some? then Elapsed(c.time + deltaTime, c.end.value) else 1.0;
    if e != 1.0 then Moved
    else if c.step + 1 < c.total then Advanced
    else if NextLoops(c.loops) != 0 then Looped
    else Finished
  }

  /** With a negative loop count no `update` ever finishes the animation. */
  lemma NegativeLoopsNeverFinish(c: Clock, deltaTime: real)
    requires Timed(c) && c.loops < 0
    ensures Outcome(c, deltaTime) != Finished
  {
  }

  /** Between steps (no current step) an `update` never just moves. */
  lemma IdleNeverMoves(c: Clock, deltaTime: real)
    requires c.end.None?
    ensures Outcome(c, deltaTime) != Moved
  {
  }

  /** Index of the first animator in `s` whose uid is `uid`, or |s|. */
  function FirstWithUid(s: seq<Animator>, uid: real): (k: nat)
    ensures k <= |s|
    ensures k < |s| ==> s[k].uid == uid
    ensures forall j :: 0 <= j < k ==> s[j].uid != uid
  {
    if s == [] then 0
    else if s[0].uid == uid then 0
    else 1 + FirstWithUid(s[1..], uid)
  }

  /** The list with its first entry of uid `uid` removed, if there is one. */
  function RemoveFirstWithUid(s: seq<Animator>, uid: real): seq<Animator>
  {
    var k := FirstWithUid(s, uid);
    if k < |s| then s[..k] + s[k + 1..] else s
  }

  /** `stop` takes out exactly the first entry with the same uid; the others
      keep their order, and an absent uid changes nothing. */
  lemma RemoveFirstWithUidSpec(s: seq<Animator>, uid: real)
    ensures (forall a :: a in s ==> a.uid != uid) ==> RemoveFirstWithUid(s, uid) == s
    ensures (exists a :: a in s && a.uid == uid) ==>
      |RemoveFirstWithUid(s, uid)| == |s| - 1 &&
      exists k :: 0 <= k < |s| && s[k].uid == uid && RemoveFirstWithUid(s, uid) == s[..k] + s[k + 1..] &&
        forall j :: 0 <= j < k ==> s[j].uid != uid
    ensures forall a :: a in RemoveFirstWithUid(s, uid) ==> a in s
  {
    var k := FirstWithUid(s, uid);
    if exists a :: a in s && a.uid == uid {
      var a :| a in s && a.uid == uid;
      assert k < |s|;
    }
  }

  /** The object an animator moves: a bag of numeric properties. */
  class Target {
    var values: map<string, real>

    constructor (values: map<string, real>)
      ensures this.values == values
    {
      this.values := values;
    }
  }

  /** `Animator._animations`, the animators currently ticked. */
  class Registry {
    var animations: seq<Animator>

    constructor ()
      ensures animations == []
    {
      animations := [];
    }

    ghost predicate Valid()
      reads this, set a | a in animations
    {
      forall a :: a in animations ==> a.registry == this && a.Valid()
    }
  }

  /** How one `update` call changed the animator. */
  datatype Transition = Moved | Advanced | Looped | Finished

  class Animator {
    const uid: real
    const target: Target
    const registry: Registry
    /** The easing used by steps that name none (Swing in the library). */
    const defaultEasing: Easing
    var isAnimating: bool
    var progress: real
    var step: int
    var totalSteps: int
    var totalDuration: real
    var loops: int
    var steps: seq<Step>
    var time: real
    var start: Option<map<string, real>>
    var end: Option<Step>
    var complete: Callback
    var initialProps: map<string, Option<real>>

    ghost predicate Valid()
      reads this
    {
      && totalSteps == |steps|
      && step >= -1
      && (start.Some? <==> end.Some?)
      && (end.Some? ==> step >= 0 && |steps| > 0 && Duration(end.value) != 0.0)
      && (end.Some? && isAnimating ==> step < |steps|)
      && (forall i :: 0 <= i < |steps| ==> Duration(steps[i]) != 0.0)
    }

    /** The state `Outcome` reads. */
    function ClockOf(): (c: Clock)
      reads this
      ensures Valid() ==> Timed(c)
    {
      Clock(time, end, step, |steps|, loops)
    }

    constructor (uid: real, target: Target, registry: Registry, defaultEasing: Easing)
      ensures Valid()
      ensures this.uid == uid && this.target == target && this.registry == registry && this.defaultEasing == defaultEasing
      ensures !isAnimating && progress == 0.0 && step == 0 && totalSteps == 0 && totalDuration == 0.0
      ensures loops == 1 && steps == [] && time == 0.0 && start.None? && end.None? && complete == NoCallback
    {
      this.uid := uid;
      this.target := target;
      this.registry := registry;
      this.defaultEasing := defaultEasing;
      isAnimating := false;
      progress := 0.0;
      step := 0;
      totalSteps := 0;
      totalDuration := 0.0;
      loops := 1;
      steps := [];
      time := 0.0;
      start := None;
      end := None;
      complete := NoCallback;
      initialProps := map[];
    }

    /** The capture loop of `start`: the target's value of every property
        some step animates, step by step. */
    method CaptureProps() returns (captured: map<string, Option<real>>)
      ensures captured == Capture(target.values, Names(steps))
    {
      captured := map[];
      var i := 0;
      while i < |steps|
        invariant 0 <= i <= |steps|
        invariant captured == Capture(target.values, Names(steps[..i]))
      {
        assert steps[..i + 1][..i] == steps[..i];
        captured := captured + Capture(target.values, steps[i].props.Keys);
        i := i + 1;
      }
      assert steps[..i] == steps;
    }

    /** `_updateDuration`: the sum of the step durations, a missing one
        counting as the default. */
    method UpdateDuration()
      modifies this`totalDuration
      ensures totalDuration == TotalDuration(steps)
    {
      totalDuration := 0.0;
      var i := 0;
      while i < |steps|
        invariant 0 <= i <= |steps|
        invariant totalDuration == TotalDuration(steps[..i])
      {
        TotalDurationAppend(steps[..i], steps[i]);
        assert steps[..i + 1] == steps[..i] + [steps[i]];
        totalDuration := totalDuration + Duration(steps[i]);
        i := i + 1;
      }
      assert steps[..i] == steps;
    }

    /** `to`: queue one more step and return this animator. */
    method To(props: map<string, real>, duration: Option<real>, easing: Option<Easing>, stepComplete: Callback) returns (self: Animator)
      requires Valid()
      modifies this`steps, this`totalSteps, this`totalDuration
      ensures Valid() && self == this
      ensures steps == old(steps) + [Step(props, StoredDuration(duration), easing, stepComplete)]
      ensures totalSteps == |steps| == |old(steps)| + 1
      ensures totalDuration == TotalDuration(steps) == TotalDuration(old(steps)) + Duration(steps[|steps| - 1])
    {
      steps := steps + [Step(props, StoredDuration(duration), easing, stepComplete)];
      UpdateDuration();
      totalSteps := |steps|;
      TotalDurationAppend(old(steps), steps[|steps| - 1]);
      self := this;
    }

    /** `start`: rewind, record the initial value of every animated
        property, and join the list of running animators. */
    method Start(callback: Callback) returns (self: Animator)
      requires Valid()
      modifies this`step, this`time, this`start, this`end, this`complete, this`isAnimating
      modifies this`initialProps, this`totalDuration, registry`animations
      ensures Valid() && self == this
      ensures step == -1 && time == 0.0 && start.None? && end.None? && isAnimating
      ensures complete == callback
      ensures initialProps == Capture(target.values, Names(steps))
      ensures totalDuration == TotalDuration(steps)
      ensures registry.animations == old(registry.animations) + [this]
      ensures steps == old(steps) && loops == old(loops) && progress == old(progress)
    {
      Rewind(callback);
      registry.animations := registry.animations + [this];
      self := this;
    }

    /** The part of `start` that resets the animator's own fields. */
    method Rewind(callback: Callback)
      requires Valid()
      modifies this`step, this`time, this`start, this`end, this`complete, this`isAnimating
      modifies this`initialProps, this`totalDuration
      ensures Valid()
      ensures step == -1 && time == 0.0 && start.None? && end.None? && isAnimating
      ensures complete == callback
      ensures initialProps == Capture(target.values, Names(steps))
      ensures totalDuration == TotalDuration(steps)
    {
      var captured := CaptureProps();
      step, time, start, end, complete, isAnimating, initialProps := -1, 0.0, None, None, callback, true, captured;
      UpdateDuration();
    }

    /** `stop`: leave the list of running animators. */
    method Stop() returns (self: Animator)
      modifies registry`animations
      ensures self == this
      ensures registry.animations == RemoveFirstWithUid(old(registry.animations), uid)
    {
      var i := 0;
      while i < |registry.animations| && registry.animations[i].uid != uid
        invariant 0 <= i <= |registry.animations|
        invariant forall j :: 0 <= j < i ==> registry.animations[j].uid != uid
      {
        i := i + 1;
      }
      if i < |registry.animations| {
        registry.animations := registry.animations[..i] + registry.animations[i + 1..];
      }
      self := this;
    }

    /** The eased progress a step reaches at `elapsed`. */
    function Eased(s: Step, elapsed: real): real
      reads this
    {
      if s.easing.Some? then s.easing.value(elapsed) else defaultEasing(elapsed)
    }

    /** The first half of `update`: add `deltaTime` to the step clock and,
        while a step is current, move every property it names. Returns the
        clamped fraction of the step reached (1 when no step is current). */
    method ApplyFrame(deltaTime: real) returns (elapsed: real)
      requires Valid()
      modifies this`time, this`progress, target`values
      ensures Valid()
      ensures time == old(time) + deltaTime
      ensures elapsed == if end.Some? then Elapsed(time, end.value) else 1.0
      ensures end.Some? ==> progress == (step as real + elapsed) / totalSteps as real
      ensures end.Some? ==> target.values == Interpolated(old(target.values), start.value, end.value.props, Eased(end.value, elapsed))
      ensures end.None? ==> progress == old(progress) && target.values == old(target.values)
      ensures end.Some? && isAnimating && 0.0 <= time && 0.0 < Duration(end.value) ==> 0.0 <= progress <= 1.0
    {
      time := time + deltaTime;
      if start.Some? && end.Some? {
        var current := end.value;
        elapsed := Elapsed(time, current);
        progress := (step as real + elapsed) / totalSteps as real;
        if isAnimating && 0.0 <= time && 0.0 < Duration(current) {
          ProgressBounded(step, totalSteps, elapsed);
        }
        target.values := Interpolated(target.values, start.value, current.props, Eased(current, elapsed));
      } else {
        elapsed := 1.0;
      }
    }

    /** `update`: advance by `deltaTime` milliseconds. Reports which
        transition happened, whether the overall completion callback ran,
        and whether that call threw. */
    method Update(deltaTime: real) returns (t: Transition, ran: bool, raised: bool)
      requires Valid()
      modifies this, target`values, registry`animations
      ensures Valid()
      ensures steps == old(steps) && complete == old(complete) && initialProps == old(initialProps)
      ensures totalDuration == old(totalDuration)
      // the fraction of the current step reached, 1 when no step is current
      ensures var e := if old(end).Some? then Elapsed(old(time) + deltaTime, old(end).value) else 1.0;
              // the object once this frame's interpolation is applied
              var moved := if old(end).Some?
                then Interpolated(old(target.values), old(start).value, old(end).value.props, Eased(old(end).value, e))
                else old(target.values);
              && (old(end).Some? ==> progress == (old(step) as real + e) / totalSteps as real)
              && (old(end).None? ==> progress == old(progress))
              && (old(end).Some? && old(isAnimating) && 0.0 <= old(time) + deltaTime && 0.0 < Duration(old(end).value) ==>
                    0.0 <= progress <= 1.0)
              && (t == Moved <==> e != 1.0)
              && (t == Advanced <==> e == 1.0 && old(step) + 1 < |steps|)
              && (t == Looped <==> e == 1.0 && old(step) + 1 >= |steps| && NextLoops(old(loops)) != 0)
              && (t == Finished <==> e == 1.0 && old(step) + 1 >= |steps| && NextLoops(old(loops)) == 0)
              && (t == Moved ==>
                    target.values == moved && time == old(time) + deltaTime &&
                    step == old(step) && start == old(start) && end == old(end) && loops == old(loops))
              && (t == Advanced ==>
                    step == old(step) + 1 && time == 0.0 && end == Some(steps[step]) &&
                    start == Some(Snapshot(moved, steps[step].props)) && target.values == moved && loops == old(loops))
              && (t == Looped ==>
                    step == -1 && time == 0.0 && start.None? && end.None? &&
                    loops == NextLoops(old(loops)) && target.values == Restored(moved, initialProps))
              && (t == Finished ==>
                    step == old(step) + 1 && loops == 0 && target.values == moved && !isAnimating &&
                    time == old(time) + deltaTime && start == old(start) && end == old(end) &&
                    registry.animations == RemoveFirstWithUid(old(registry.animations), uid))
              && (t != Finished ==> registry.animations == old(registry.animations) && isAnimating == old(isAnimating))
      ensures t == Outcome(old(ClockOf()), deltaTime)
      ensures ran <==> t == Finished && complete.Callback?
      ensures raised <==> t == Finished && Raises(complete)
    {
      ran, raised := false, false;
      var elapsed := ApplyFrame(deltaTime);
      if elapsed != 1.0 {
        t := Moved;
        return;
      }
      t, ran, raised := EndStep();
    }

    /** The second half of `update` once the current step (or the pause
        before the first) is over: go to the next step, start the next
        loop, or finish. */
    method EndStep() returns (t: Transition, ran: bool, raised: bool)
      requires Valid()
      modifies this, target`values, registry`animations
      ensures Valid()
      ensures steps == old(steps) && complete == old(complete) && initialProps == old(initialProps)
      ensures totalDuration == old(totalDuration)
      ensures progress == old(progress)
      ensures t != Moved
      ensures t == Advanced <==> old(step) + 1 < |steps|
      ensures t == Looped <==> old(step) + 1 >= |steps| && NextLoops(old(loops)) != 0
      ensures t == Finished <==> old(step) + 1 >= |steps| && NextLoops(old(loops)) == 0
      ensures t == Advanced ==>
        step == old(step) + 1 && time == 0.0 && end == Some(steps[step]) &&
        start == Some(Snapshot(old(target.values), steps[step].props)) &&
        target.values == old(target.values) && loops == old(loops)
      ensures t == Looped ==>
        step == -1 && time == 0.0 && start.None? && end.None? &&
        loops == NextLoops(old(loops)) && target.values == Restored(old(target.values), initialProps)
      ensures t == Finished ==>
        step == old(step) + 1 && loops == 0 && target.values == old(target.values) && !isAnimating &&
        time == old(time) && start == old(start) && end == old(end) &&
        registry.animations == RemoveFirstWithUid(old(registry.animations), uid)
      ensures t != Finished ==> registry.animations == old(registry.animations) && isAnimating == old(isAnimating)
      ensures ran <==> t == Finished && complete.Callback?
      ensures raised <==> t == Finished && Raises(complete)
    {
      ran, raised := false, false;
      // The snapshot in `start` carries only property values, so the
      // callback a step was queued with is never reached here.
      step := step + 1;
      if step < |steps| {
        time := 0.0;
        end := Some(steps[step]);
        start := Some(Snapshot(target.values, steps[step].props));
        t := Advanced;
        return;
      }
      loops := NextLoops(loops);
      if loops != 0 {
        step := -1;
        time := 0.0;
        start := None;
        end := None;
        target.values := Restored(target.values, initialProps);
        t := Looped;
      } else {
        var _ := Stop();
        isAnimating := false;
        t := Finished;
        ran := complete.Callback?;
        raised := Raises(complete);
      }
    }
  }

  /** One turn of `Animator._update`'s loop: update the `i`th running
      animator, reporting what happened and whether it threw. */
  method UpdateAt(registry: Registry, i: nat, deltaTime: real) returns (a: Animator, t: Transition, threw: bool)
    requires registry.Valid() && i < |registry.animations|
    modifies registry`animations, registry.animations[i], registry.animations[i].target`values
    ensures a == old(registry.animations[i]) && a.complete == old(a.complete)
    ensures Timed(old(a.ClockOf())) && t == Outcome(old(a.ClockOf()), deltaTime)
    ensures registry.Valid()
    ensures forall b :: b in registry.animations ==> b in old(registry.animations)
    ensures t != Finished ==> registry.animations == old(registry.animations)
    ensures |registry.animations| <= |old(registry.animations)|
    ensures threw <==> t == Finished && Raises(a.complete)
  {
    a := registry.animations[i];
    var transition, _, raised := a.Update(deltaTime);
    t, threw := transition, raised;
  }

  /** Each recorded outcome is the one its clock dictates. */
  predicate Dictated(clocks: seq<Clock>, outcomes: seq<Transition>, deltaTime: real)
  {
    |clocks| == |outcomes| && forall k :: 0 <= k < |clocks| ==> Timed(clocks[k]) && outcomes[k] == Outcome(clocks[k], deltaTime)
  }

  /** Every animator of `entry` still has its completion callback, and
      those not yet `updated` still have their clock. */
  ghost predicate Untouched(entry: map<Animator, Clock>, callbacks: map<Animator, Callback>, updated: seq<Animator>)
    reads set a | a in entry
  {
    forall a :: a in entry ==> a in callbacks && a.complete == callbacks[a] && (a !in updated ==> a.ClockOf() == entry[a])
  }

  /** One turn of `Animator._update`'s loop, the catch included, with the
      bookkeeping `Tick` needs: the clock the animator had, and that no
      other animator changed. */
  method TickStep(registry: Registry, window: GameWindow.GameWindow, i: nat, deltaTime: real,
                  ghost entry: map<Animator, Clock>, ghost callbacks: map<Animator, Callback>,
                  ghost updated: seq<Animator>)
    returns (a: Animator, t: Transition, raised: bool, ghost clock: Clock)
    requires registry.Valid() && i < |registry.animations|
    requires forall b :: b in registry.animations ==> b in entry
    requires Untouched(entry, callbacks, updated)
    modifies registry`animations, registry.animations[i], registry.animations[i].target`values, window`error
    ensures a == old(registry.animations[i]) && a in entry
    ensures a !in updated ==> clock == entry[a]
    ensures Timed(clock) && t == Outcome(clock, deltaTime)
    ensures registry.Valid()
    ensures forall b :: b in registry.animations ==> b in old(registry.animations)
    ensures t != Finished ==> registry.animations == old(registry.animations)
    ensures |registry.animations| <= |old(registry.animations)|
    ensures raised <==> !old(window.error) && t == Finished && Raises(callbacks[a])
    ensures window.error == (old(window.error) || raised)
    ensures Untouched(entry, callbacks, updated + [a])
  {
    clock := registry.animations[i].ClockOf();
    var threw;
    a, t, threw := UpdateAt(registry, i, deltaTime);
    raised := threw && !window.error;
    if raised {
      window.error := true;
    }
  }

  /** `Animator._update`: update every running animator in list order. The
      first throw sets the window's error flag and is rethrown (`raised`);
      once the flag is set, later throws are swallowed. `updated` lists the
      animators updated, in order, `clocks` the clock each one had just
      before its update, and `outcomes` what each update did. */
  method Tick(registry: Registry, window: GameWindow.GameWindow, deltaTime: real)
    returns (raised: bool, ghost updated: seq<Animator>, ghost clocks: seq<Clock>, ghost outcomes: seq<Transition>)
    requires registry.Valid()
    modifies registry`animations, window`error
    modifies set a | a in registry.animations
    modifies set a | a in registry.animations :: a.target
    ensures registry.Valid()
    ensures forall a :: a in registry.animations ==> a in old(registry.animations)
    ensures |clocks| == |outcomes| == |updated|
    ensures forall k :: 0 <= k < |updated| ==> updated[k] in old(registry.animations)
    // each update did what the animator's clock just before it dictates,
    // and an animator's first update starts from the clock it had on entry
    ensures Dictated(clocks, outcomes, deltaTime)
    ensures forall k :: 0 <= k < |updated| && updated[k] !in updated[..k] ==> clocks[k] == old(updated[k].ClockOf())
    ensures window.error == (old(window.error) || raised)
    // a throw is rethrown exactly when the flag was clear; the run stops there
    ensures raised <==>
      !old(window.error) && exists k :: 0 <= k < |updated| && outcomes[k] == Finished && Raises(updated[k].complete)
    ensures raised ==>
      |updated| > 0 && outcomes[|updated| - 1] == Finished && Raises(updated[|updated| - 1].complete)
    // when nobody finishes, every animator is updated once and the list stays
    ensures (forall k :: 0 <= k < |outcomes| ==> outcomes[k] != Finished) ==>
      updated == old(registry.animations) && registry.animations == old(registry.animations)
  {
    ghost var entry := map a | a in registry.animations :: a.ClockOf();
    ghost var callbacks := map a | a in registry.animations :: a.complete;
    raised, updated, clocks, outcomes := TickLoop(registry, window, deltaTime, entry, callbacks);
    if raised {
      var k := |updated| - 1;
      assert outcomes[k] == Finished && Raises(updated[k].complete);
    }
  }

  /** No recorded update finished its animator. */
  predicate NoneFinished(outcomes: seq<Transition>)
  {
    forall k :: 0 <= k < |outcomes| ==> outcomes[k] != Finished
  }

  /** No recorded update finished an animator whose callback throws. */
  predicate Quiet(callbacks: map<Animator, Callback>, updated: seq<Animator>, outcomes: seq<Transition>)
  {
    forall k :: 0 <= k < |updated| && k < |outcomes| && updated[k] in callbacks ==>
      !(outcomes[k] == Finished && Raises(callbacks[updated[k]]))
  }

  /** An update that did not throw keeps the run quiet. */
  lemma QuietStep(callbacks: map<Animator, Callback>, updated: seq<Animator>, outcomes: seq<Transition>,
                  a: Animator, t: Transition)
    requires Quiet(callbacks, updated, outcomes) && |updated| == |outcomes|
    requires a in callbacks && !(t == Finished && Raises(callbacks[a]))
    ensures Quiet(callbacks, updated + [a], outcomes + [t])
  {
    forall k | 0 <= k < |updated| + 1 && k < |outcomes| + 1 && (updated + [a])[k] in callbacks
      ensures !((outcomes + [t])[k] == Finished && Raises(callbacks[(updated + [a])[k]]))
    {
      if k < |updated| {
        assert (updated + [a])[k] == updated[k] && (outcomes + [t])[k] == outcomes[k];
      }
    }
  }

  /** What `Tick` has recorded so far, as values: `list0` is the running
      list on entry, `list` the list now, `entry` the clocks on entry. */
  ghost predicate Record(list0: seq<Animator>, entry: map<Animator, Clock>, list: seq<Animator>,
                   updated: seq<Animator>, clocks: seq<Clock>, outcomes: seq<Transition>, deltaTime: real)
  {
    && (forall a :: a in list ==> a in list0)
    && |clocks| == |outcomes| == |updated|
    && (forall k :: 0 <= k < |updated| ==> updated[k] in list0)
    && Dictated(clocks, outcomes, deltaTime)
    && (forall k :: 0 <= k < |updated| && updated[k] !in updated[..k] ==> updated[k] in entry && clocks[k] == entry[updated[k]])
    && (NoneFinished(outcomes) ==> list == list0 && |updated| <= |list| && updated == list0[..|updated|])
  }

  /** One more update keeps the record. */
  lemma RecordStep(list0: seq<Animator>, entry: map<Animator, Clock>, list: seq<Animator>, list': seq<Animator>,
                   updated: seq<Animator>, clocks: seq<Clock>, outcomes: seq<Transition>, deltaTime: real,
                   a: Animator, clock: Clock, t: Transition)
    requires Record(list0, entry, list, updated, clocks, outcomes, deltaTime)
    requires |updated| < |list| && a == list[|updated|] && a in entry
    requires forall b :: b in list' ==> b in list
    requires t != Finished ==> list' == list
    requires a !in updated ==> clock == entry[a]
    requires Timed(clock) && t == Outcome(clock, deltaTime)
    ensures Record(list0, entry, list', updated + [a], clocks + [clock], outcomes + [t], deltaTime)
  {
    var u, o := updated + [a], outcomes + [t];
    assert u[..|updated|] == updated;
    forall k | 0 <= k < |u| && u[k] !in u[..k]
      ensures u[k] in entry && (clocks + [clock])[k] == entry[u[k]]
    {
      if k < |updated| {
        assert u[..k] == updated[..k];
      }
    }
    if NoneFinished(o) {
      assert NoneFinished(outcomes) by {
        forall k | 0 <= k < |outcomes| ensures outcomes[k] != Finished {
          assert o[k] == outcomes[k];
        }
      }
      assert o[|updated|] == t;
      assert list0[..|updated| + 1] == list0[..|updated|] + [a];
    }
  }

  /** The loop of `Tick`, stated against the clocks and callbacks the
      running animators had on entry. */
  method TickLoop(registry: Registry, window: GameWindow.GameWindow, deltaTime: real,
                  ghost entry: map<Animator, Clock>, ghost callbacks: map<Animator, Callback>)
    returns (raised: bool, ghost updated: seq<Animator>, ghost clocks: seq<Clock>, ghost outcomes: seq<Transition>)
    requires registry.Valid()
    requires forall a :: a in registry.animations <==> a in entry
    requires Untouched(entry, callbacks, [])
    modifies registry`animations, window`error
    modifies set a | a in registry.animations
    modifies set a | a in registry.animations :: a.target
    ensures registry.Valid()
    ensures Record(old(registry.animations), entry, registry.animations, updated, clocks, outcomes, deltaTime)
    ensures Untouched(entry, callbacks, updated)
    ensures window.error == (old(window.error) || raised)
    ensures raised <==> !old(window.error) && !Quiet(callbacks, updated, outcomes)
    ensures raised ==>
      |updated| > 0 && outcomes[|updated| - 1] == Finished && Raises(callbacks[updated[|updated| - 1]])
    ensures NoneFinished(outcomes) ==> updated == old(registry.animations)
  {
    raised, updated, clocks, outcomes := false, [], [], [];
    var i := 0;
    while i < |registry.animations|
      invariant registry.Valid()
      invariant window.error == old(window.error)
      invariant i == |updated|
      invariant Record(old(registry.animations), entry, registry.animations, updated, clocks, outcomes, deltaTime)
      invariant Untouched(entry, callbacks, updated)
      invariant !old(window.error) ==> Quiet(callbacks, updated, outcomes)
    {
      ghost var list := registry.animations;
      var a, t;
      ghost var clock;
      a, t, raised, clock := TickStep(registry, window, i, deltaTime, entry, callbacks, updated);
      RecordStep(old(registry.animations), entry, list, registry.animations, updated, clocks, outcomes, deltaTime, a, clock, t);
      if !raised && !window.error {
        QuietStep(callbacks, updated, outcomes, a, t);
      }
      updated, clocks, outcomes := updated + [a], clocks + [clock], outcomes + [t];
      if raised {
        assert outcomes[i] == Finished && Raises(callbacks[updated[i]]);
        return;
      }
      i := i + 1;
    }
  }
}
