/** The marble game's own state (class MarbleGame of marble_game.py): the trough
    offsets, the course offset, the marble's angle, velocity and position, the
    rolling-band phases and the frame clock, with the per-frame update steps of
    the main loop. Shapes, drawing and the device are not part of this model:
    the device's samples and the clock's readings are parameters. */
module MarbleTask {
  import opened ArrayMath
  import opened MarbleKinematics
  import opened MarbleShapes

  /** The game draws this many decorative troughs. */
  const NumTroughs: nat := 8
  /** The frame-time history keeps this many entries. */
  const HistoryLength: nat := 100

  /** The configuration values the modelled state depends on. */
  datatype Config = Config(troughWidth: real, troughFullAngle: real, troughSpeed: real,
                           marbleBaseYpos: real, marbleRad: real, kbAngleGain: real)

  /** The troughs start evenly spread from the top of the screen (1) to the
      bottom (-1), so every offset starts in range. */
  method InitialTroughs() returns (a: array<real>)
    ensures fresh(a) && a[..] == Linspace(1.0, -1.0, NumTroughs) && InRange(a[..])
  {
    var ypos := Linspace(1.0, -1.0, NumTroughs);
    a := new real[NumTroughs](i => if 0 <= i < |ypos| then ypos[i] else 0.0);
    assert a[..] == ypos;
    forall i | 0 <= i < NumTroughs ensures -1.0 <= ypos[i] <= 1.0 {
      LinspaceBetween(1.0, -1.0, NumTroughs, i);
    }
  }

  class MarbleGame {
    const trig: Trig
    const troughSpeed: real
    const marbleBaseYpos: real
    const marbleCirc: real
    const marbleTroughRad: real
    const kbNeutralAngle: real
    const angleGain: real
    const displayHand: string
    /** The course example's waypoints (course_times, course_targets). */
    const course: Course

    /** troughs_ypos: one vertical offset per trough, updated in place. */
    const troughsYpos: array<real>
    /** marble_yscales: one phase per rolling band, updated in place. */
    const marbleYscales: array<real>
    /** The vertical position of the course outline (its x stays 0). */
    var courseYpos: real
    var marbleAngle: real
    var marbleVelocity: real
    var marbleXpos: real
    var marbleYpos: real
    var lastTime: real
    var frameTime: real
    var frameHistory: seq<real>

    ghost predicate Valid()
      reads this`frameHistory
    {
      && troughsYpos.Length == NumTroughs
      && |frameHistory| == HistoryLength
      && troughsYpos != marbleYscales
      && marbleCirc != 0.0
    }

    /** The modelled part of __init__ (lines 142-235). */
    constructor (cfg: Config, kbNeutral: real, t: Trig)
      requires t.sin(Deg2Rad(t, 0.5 * cfg.troughFullAngle)) != 0.0
      requires t.pi != 0.0 && cfg.marbleRad != 0.0
      ensures Valid() && fresh(troughsYpos) && fresh(marbleYscales)
      ensures troughsYpos[..] == Linspace(1.0, -1.0, NumTroughs) && InRange(troughsYpos[..])
      ensures marbleYscales[..] == [1.0]
      ensures courseYpos == -0.35
      ensures course == SourceCourse()
      ensures marbleAngle == 0.0 && marbleVelocity == 0.0
      ensures marbleXpos == 0.0 && marbleYpos == cfg.marbleBaseYpos
      ensures lastTime == 0.0 && frameTime == 0.0
      ensures frameHistory == seq(HistoryLength, _ => 0.0)
      ensures displayHand == "lh"
      ensures trig == t && marbleBaseYpos == cfg.marbleBaseYpos
      ensures troughSpeed == cfg.troughSpeed && angleGain == cfg.kbAngleGain && kbNeutralAngle == kbNeutral
      ensures marbleTroughRad == TroughRadius(t, cfg.troughFullAngle, cfg.troughWidth)
      ensures marbleCirc == 2.0 * t.pi * cfg.marbleRad
    {
      trig := t;
      troughSpeed := cfg.troughSpeed;
      var troughs := InitialTroughs();
      troughsYpos := troughs;
      marbleBaseYpos := cfg.marbleBaseYpos;
      marbleCirc := 2.0 * t.pi * cfg.marbleRad;
      marbleYscales := new real[1](_ => 1.0);
      kbNeutralAngle := kbNeutral;
      marbleTroughRad := TroughRadius(t, cfg.troughFullAngle, cfg.troughWidth);
      marbleAngle := 0.0;
      marbleVelocity := 0.0;
      marbleXpos := 0.0;
      marbleYpos := cfg.marbleBaseYpos;
      angleGain := cfg.kbAngleGain;
      course := SourceCourse();
      courseYpos := -0.35;
      lastTime := 0.0;
      frameTime := 0.0;
      frameHistory := seq(HistoryLength, _ => 0.0);
      displayHand := "lh";
      MulNonZero(2.0 * t.pi, cfg.marbleRad);
    }

    /** reset_course: the course outline jumps back to height 0.5. */
    method ResetCourse()
      modifies this`courseYpos
      ensures courseYpos == 0.5
    {
      courseYpos := 0.5;
    }

    /** update_frame_time: the clock is read twice (now1, then now2); the
        history is rolled right and the new frame time written at its head. */
    method UpdateFrameTime(now1: real, now2: real)
      requires Valid()
      modifies this`frameTime, this`lastTime, this`frameHistory
      ensures Valid()
      ensures frameTime == now1 - old(lastTime) && lastTime == now2
      ensures frameHistory == RecordFrame(old(frameHistory), frameTime)
    {
      frameTime := now1 - lastTime;
      lastTime := now2;
      frameHistory := RollRight(frameHistory);
      frameHistory := frameHistory[0 := frameTime];
    }

    /** The distance the troughs and the course move this frame. */
    function TroughDistance(): real
      reads this`frameTime
    {
      frameTime * troughSpeed
    }

    /** update_troughs: the course scrolls without wrapping; every trough offset
        is decremented at once, then each one below -1 is wrapped. */
    method UpdateTroughs()
      requires Valid()
      modifies this`courseYpos, troughsYpos
      ensures Valid()
      ensures courseYpos == old(courseYpos) - TroughDistance()
      ensures troughsYpos[..] == ScrollAll(old(troughsYpos[..]), TroughDistance())
      ensures InRange(old(troughsYpos[..])) && 0.0 <= TroughDistance() <= 2.0
              ==> InRange(troughsYpos[..])
    {
      var d := TroughDistance();
      ghost var before := troughsYpos[..];
      courseYpos := courseYpos - d;
      forall i | 0 <= i < troughsYpos.Length {
        troughsYpos[i] := troughsYpos[i] - d;
      }
      WrapTroughs();
      ScrolledElementwise(before, troughsYpos[..], d);
    }

    /** The loop of update_troughs: each offset below -1 is moved up by 2. */
    method WrapTroughs()
      modifies troughsYpos
      ensures forall i :: 0 <= i < troughsYpos.Length ==> troughsYpos[i] == Wrap(old(troughsYpos[i]))
    {
      for idx := 0 to troughsYpos.Length
        invariant forall i :: 0 <= i < idx ==> troughsYpos[i] == Wrap(old(troughsYpos[i]))
        invariant forall i :: idx <= i < troughsYpos.Length ==> troughsYpos[i] == old(troughsYpos[i])
      {
        if troughsYpos[idx] < -1.0 {
          troughsYpos[idx] := troughsYpos[idx] + 2.0;
        }
      }
    }

    /** The distance the rolling bands move this frame, at the current velocity. */
    function BandDistance(): real
      reads this`frameTime, this`marbleVelocity
      requires marbleCirc != 0.0
    {
      RollDistance(troughSpeed, frameTime, marbleTroughRad, marbleVelocity, marbleCirc, trig)
    }

    /** The first half of update_marble (lines 257-268): the channel rule. */
    method ReadDevice(allPos: seq<real>, allVel: seq<real>)
      requires MotorIndex(displayHand) < |allPos| && MotorIndex(displayHand) < |allVel|
      modifies this`marbleAngle, this`marbleVelocity
      ensures Reading(marbleAngle, marbleVelocity)
           == ChannelReading(displayHand, allPos, allVel, kbNeutralAngle, angleGain)
    {
      var motorIdx := if displayHand == "lh" then 1 else 0;
      marbleAngle := (allPos[motorIdx] - kbNeutralAngle) * angleGain;
      marbleVelocity := allVel[motorIdx] * angleGain;
      if displayHand == "lh" {
        marbleAngle := -marbleAngle;
        marbleVelocity := -marbleVelocity;
      }
    }

    /** Lines 270-271: the marble's position on the trough's arc. */
    method PlaceMarble()
      modifies this`marbleXpos, this`marbleYpos
      ensures (marbleXpos, marbleYpos) == MarblePosition(marbleTroughRad, marbleBaseYpos, marbleAngle, trig)
    {
      var p := MarblePosition(marbleTroughRad, marbleBaseYpos, marbleAngle, trig);
      marbleXpos, marbleYpos := p.0, p.1;
    }

    /** Lines 284-288: every band phase moves back by d and wraps. */
    method RollBands(d: real)
      modifies marbleYscales
      ensures marbleYscales[..] == ScrollAll(old(marbleYscales[..]), d)
    {
      ghost var before := marbleYscales[..];
      for idx := 0 to marbleYscales.Length
        invariant forall i :: 0 <= i < idx ==> marbleYscales[i] == Scroll(before[i], d)
        invariant forall i :: idx <= i < marbleYscales.Length ==> marbleYscales[i] == before[i]
      {
        marbleYscales[idx] := marbleYscales[idx] - d;
        if marbleYscales[idx] < -1.0 {
          marbleYscales[idx] := marbleYscales[idx] + 2.0;
        }
      }
      ScrolledElementwise(before, marbleYscales[..], d);
    }

    /** update_marble: the channel rule sets angle and velocity, the angle sets
        the position on the arc, and every band phase moves back by the rolling
        distance and wraps. */
    method UpdateMarble(allPos: seq<real>, allVel: seq<real>)
      requires Valid()
      requires MotorIndex(displayHand) < |allPos| && MotorIndex(displayHand) < |allVel|
      modifies this`marbleAngle, this`marbleVelocity, this`marbleXpos, this`marbleYpos, marbleYscales
      ensures Valid()
      ensures Reading(marbleAngle, marbleVelocity)
           == ChannelReading(displayHand, allPos, allVel, kbNeutralAngle, angleGain)
      ensures (marbleXpos, marbleYpos) == MarblePosition(marbleTroughRad, marbleBaseYpos, marbleAngle, trig)
      ensures marbleYscales[..] == ScrollAll(old(marbleYscales[..]), BandDistance())
      ensures SqrtNonNegative(trig) && InRange(old(marbleYscales[..])) && BandDistance() <= 2.0
              ==> InRange(marbleYscales[..])
    {
      ReadDevice(allPos, allVel);
      PlaceMarble();
      var d := RollDistance(troughSpeed, frameTime, marbleTroughRad, marbleVelocity, marbleCirc, trig);
      RollBands(d);
      if SqrtNonNegative(trig) {
        RollDistanceNonNegative(troughSpeed, frameTime, marbleTroughRad, marbleVelocity, marbleCirc, trig);
      }
    }

    /** One pass of run_main_loop, drawing left out: the clock, the troughs and
        the course, then the marble. Every wrapped offset stays in [-1, 1] as
        long as this frame's distances are in [0, 2]. */
    method Frame(now1: real, now2: real, allPos: seq<real>, allVel: seq<real>)
      requires Valid()
      requires MotorIndex(displayHand) < |allPos| && MotorIndex(displayHand) < |allVel|
      modifies this`frameTime, this`lastTime, this`frameHistory, this`courseYpos, troughsYpos
      modifies this`marbleAngle, this`marbleVelocity, this`marbleXpos, this`marbleYpos, marbleYscales
      ensures Valid()
      ensures frameTime == now1 - old(lastTime) && lastTime == now2
      ensures frameHistory == RecordFrame(old(frameHistory), frameTime)
      ensures courseYpos == old(courseYpos) - TroughDistance()
      ensures troughsYpos[..] == ScrollAll(old(troughsYpos[..]), TroughDistance())
      ensures Reading(marbleAngle, marbleVelocity)
           == ChannelReading(displayHand, allPos, allVel, kbNeutralAngle, angleGain)
      ensures (marbleXpos, marbleYpos) == MarblePosition(marbleTroughRad, marbleBaseYpos, marbleAngle, trig)
      ensures marbleYscales[..] == ScrollAll(old(marbleYscales[..]), BandDistance())
      ensures InRange(old(troughsYpos[..])) && 0.0 <= TroughDistance() <= 2.0
              ==> InRange(troughsYpos[..])
      ensures SqrtNonNegative(trig) && InRange(old(marbleYscales[..])) && BandDistance() <= 2.0
              ==> InRange(marbleYscales[..])
    {
      ghost var bands0, troughs0 := marbleYscales[..], troughsYpos[..];
      UpdateFrameTime(now1, now2);
      assert troughsYpos[..] == troughs0 && marbleYscales[..] == bands0;
      UpdateTroughs();
      assert marbleYscales[..] == bands0;
      ghost var troughs, td := troughsYpos[..], TroughDistance();
      UpdateMarble(allPos, allVel);
      assert troughsYpos[..] == troughs && TroughDistance() == td;
    }
  }
}
