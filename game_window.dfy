/** The run loop of the game: speed setting, clamped frame delta, pause and
    the single-shot error halt. DOM sizing, the renderer and frame
    scheduling are outside the model; the clock reading `now` is an input. */
module GameWindow {
  import opened Base

  /** Longest frame delta the loop lets through, in milliseconds (1000/20). */
  const MaxFrameDelta: real := 50.0
  /** Stage side used when `init` is given none. */
  const DefaultStageSide: int := 800

  /** The value behind the `speed` property: a name or a number. */
  datatype Speed = Named(name: string) | Factor(value: real)

  /** What the `speed` setter stores for a value it is given. */
  function StoredSpeed(v: Speed): Speed
  {
    if v == Named("normal") then Factor(1.0)
    else if v == Named("slow") then Factor(0.5)
    else if v == Named("fast") then Factor(1.5)
    else v
  }

  /** What the `speed` getter reports for a stored value. */
  function ReportedSpeed(s: Speed): Speed
  {
    if s == Factor(1.0) then Named("normal")
    else if s == Factor(0.5) then Named("slow")
    else if s == Factor(1.5) then Named("fast")
    else s
  }

  predicate KnownName(n: string)
  {
    n == "normal" || n == "slow" || n == "fast"
  }

  /** Setting one of the three names and reading back gives that name;
      any other name is stored and reported unchanged, as is any number
      other than 1, 0.5 and 1.5. Those three numbers are stored as given
      and read back as their names. */
  lemma SpeedSetThenGet(v: Speed)
    ensures v.Named? && KnownName(v.name) ==> StoredSpeed(v).Factor? && ReportedSpeed(StoredSpeed(v)) == v
    ensures v.Named? && !KnownName(v.name) ==> StoredSpeed(v) == v && ReportedSpeed(StoredSpeed(v)) == v
    ensures v.Factor? && v.value != 1.0 && v.value != 0.5 && v.value != 1.5 ==> ReportedSpeed(StoredSpeed(v)) == v
    ensures v.Factor? ==> StoredSpeed(v) == v
    ensures v == Factor(1.0) ==> ReportedSpeed(StoredSpeed(v)) == Named("normal")
    ensures v == Factor(0.5) ==> ReportedSpeed(StoredSpeed(v)) == Named("slow")
    ensures v == Factor(1.5) ==> ReportedSpeed(StoredSpeed(v)) == Named("fast")
  {
  }

  /** Writing back what the getter reports leaves a numeric speed as it was. */
  lemma SpeedGetThenSet(s: Speed)
    requires s.Factor?
    ensures StoredSpeed(ReportedSpeed(s)) == s
  {
  }

  /** The frame delta: elapsed wall time capped at MaxFrameDelta, scaled by
      the speed; a speed that is not a number gives NaN (None). */
  function FrameDelta(elapsed: real, speed: Speed): (d: Option<real>)
    ensures d.Some? <==> speed.Factor?
    ensures speed.Factor? && speed.value >= 0.0 ==> d.value <= MaxFrameDelta * speed.value
    ensures speed.Factor? && speed.value >= 0.0 && elapsed >= 0.0 ==> d.value >= 0.0
    ensures speed.Factor? && elapsed <= MaxFrameDelta ==> d.value == elapsed * speed.value
  {
    var capped := if elapsed < MaxFrameDelta then elapsed else MaxFrameDelta;
    if speed.Factor? then
      CappedScaled(capped, speed.value);
      Some(capped * speed.value)
    else None
  }

  /** Scaling a delta capped at MaxFrameDelta by a non-negative speed stays
      below the scaled cap, and above zero for a non-negative delta. */
  lemma CappedScaled(capped: real, s: real)
    requires capped <= MaxFrameDelta
    ensures s >= 0.0 ==> capped * s <= MaxFrameDelta * s
    ensures s >= 0.0 && capped >= 0.0 ==> capped * s >= 0.0
  {
    if s >= 0.0 {
      MulNonNegative(MaxFrameDelta - capped, s);
      assert (MaxFrameDelta - capped) * s == MaxFrameDelta * s - capped * s;
      if capped >= 0.0 {
        MulNonNegative(capped, s);
      }
    }
  }

  /** What one pass of the run loop did. */
  datatype Frame = Frame(scheduled: bool, raised: bool, ticked: bool)

  class GameWindow {
    var stageWidth: int
    var stageHeight: int
    var error: bool
    var paused: bool
    var initialized: bool
    var time: real
    var deltaTime: Option<real>
    var speed: Speed

    constructor ()
      ensures stageWidth == 0 && stageHeight == 0
      ensures !error && !paused && !initialized
      ensures time == 0.0 && deltaTime == Some(0.0) && speed == Factor(1.0)
    {
      stageWidth, stageHeight := 0, 0;
      error, paused, initialized := false, false, false;
      time, deltaTime, speed := 0.0, Some(0.0), Factor(1.0);
    }

    /** The `speed` getter. */
    function Speed(): Speed
      reads this
    {
      ReportedSpeed(speed)
    }

    /** The `speed` setter. */
    method SetSpeed(v: Speed)
      modifies this`speed
      ensures speed == StoredSpeed(v)
      ensures Speed() == if v.Named? && KnownName(v.name) then v else ReportedSpeed(v)
    {
      speed := StoredSpeed(v);
    }

    method Pause()
      modifies this`paused
      ensures paused
    {
      paused := true;
    }

    method Resume()
      modifies this`paused
      ensures !paused
    {
      paused := false;
    }

    /** One run-loop pass at clock reading `now`; `scene` stands for the
        current scene's update (NoCallback when there is no scene). */
    method MainLoop(now: real, scene: Callback) returns (f: Frame)
      modifies this`error, this`deltaTime, this`time
      ensures f.scheduled == !old(error)
      ensures old(paused) ==> !f.raised && !f.ticked && unchanged(this)
      ensures f.raised <==> !old(paused) && Raises(scene) && !old(error)
      ensures error == (old(error) || f.raised)
      ensures f.ticked <==> !old(paused) && !f.raised
      ensures f.ticked ==> deltaTime == FrameDelta(now - old(time), speed) && time == now
      ensures !f.ticked ==> deltaTime == old(deltaTime) && time == old(time)
    {
      f := Frame(!error, false, false);
      if paused {
        return;
      }
      if Raises(scene) && !error {
        error := true;
        f := f.(raised := true);
        return;
      }
      deltaTime := FrameDelta(now - time, speed);
      time := now;
      f := f.(ticked := true);
    }

    /** `init`: a no-op once initialised; otherwise sets the stage size
        (800 for a missing or zero side) and runs the first loop pass, which
        has no scene yet. */
    method Init(width: Option<int>, height: Option<int>, now: real)
      modifies this
      ensures old(initialized) ==> unchanged(this)
      ensures !old(initialized) ==> initialized
      ensures !old(initialized) ==> stageWidth == (if width.None? || width.value == 0 then DefaultStageSide else width.value)
      ensures !old(initialized) ==> stageHeight == (if height.None? || height.value == 0 then DefaultStageSide else height.value)
      ensures !old(initialized) && !paused ==> time == now && deltaTime == FrameDelta(now - old(time), speed)
      ensures paused ==> time == old(time) && deltaTime == old(deltaTime)
      ensures error == old(error) && paused == old(paused) && speed == old(speed)
    {
      if initialized {
        return;
      }
      stageWidth := if width.None? || width.value == 0 then DefaultStageSide else width.value;
      stageHeight := if height.None? || height.value == 0 then DefaultStageSide else height.value;
      var _ := MainLoop(now, NoCallback);
      initialized := true;
    }
  }
}
