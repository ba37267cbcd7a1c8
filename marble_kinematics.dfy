/** The per-frame arithmetic of the marble game (marble_game.py): the belt wrap
    of the troughs and of the rolling bands, the device channel rule, the
    marble's position on its arc, the rolling distance and the frame-time
    history. The class in marble_game.dfy applies these to its fields. */
module MarbleKinematics {
  import opened ArrayMath

  /** The wrap applied after every decrement: a value strictly below -1 is
      moved up by one period of 2, once; -1 itself stays put. */
  function Wrap(y: real): (r: real)
    ensures r == y || r == y + 2.0
    ensures r == y + 2.0 <==> y < -1.0
    ensures -3.0 <= y <= 1.0 ==> -1.0 <= r <= 1.0
  {
    if y < -1.0 then y + 2.0 else y
  }

  /** One frame of a belt offset: decrement by d, then wrap. */
  function Scroll(y: real, d: real): (r: real)
    ensures -1.0 <= y <= 1.0 && 0.0 <= d <= 2.0 ==> -1.0 <= r <= 1.0
  {
    Wrap(y - d)
  }

  /** Every offset in [-1, 1]. */
  predicate InRange(s: seq<real>)
  {
    forall i :: 0 <= i < |s| ==> -1.0 <= s[i] <= 1.0
  }

  /** One frame applied to a whole belt (every trough, or every rolling band). */
  function ScrollAll(s: seq<real>, d: real): (r: seq<real>)
    ensures |r| == |s|
    ensures InRange(s) && 0.0 <= d <= 2.0 ==> InRange(r)
  {
    seq(|s|, i requires 0 <= i < |s| => Scroll(s[i], d))
  }

  /** A belt scrolled entry by entry is the belt scrolled as a whole. */
  lemma ScrolledElementwise(before: seq<real>, after: seq<real>, d: real)
    requires |after| == |before|
    requires forall i :: 0 <= i < |after| ==> after[i] == Scroll(before[i], d)
    ensures after == ScrollAll(before, d)
  {
  }

  /** Many frames applied to one offset, with the per-frame distances ds in order. */
  function ScrollMany(y: real, ds: seq<real>): real
    decreases |ds|
  {
    if ds == [] then y else ScrollMany(Scroll(y, ds[0]), ds[1..])
  }

  /** How many of those frames wrapped: the count of periods ScrollManyIsPeriodic
      adds back. Each frame contributes at most one, because Wrap adds 2 once
      and only when the decremented value is below -1. */
  function WrapCount(y: real, ds: seq<real>): (n: nat)
    ensures n <= |ds|
    decreases |ds|
  {
    if ds == [] then 0
    else (if y - ds[0] < -1.0 then 1 else 0) + WrapCount(Scroll(y, ds[0]), ds[1..])
  }

  /** Every frame distance lies in [0, 2]. */
  predicate FrameDistancesOk(ds: seq<real>)
  {
    forall i :: 0 <= i < |ds| ==> 0.0 <= ds[i] <= 2.0
  }

  /** An offset that starts in [-1, 1] stays there over any run of frames whose
      distances are in [0, 2]. */
  lemma {:induction false} ScrollManyInRange(y: real, ds: seq<real>)
    requires -1.0 <= y <= 1.0
    requires FrameDistancesOk(ds)
    ensures -1.0 <= ScrollMany(y, ds) <= 1.0
    decreases |ds|
  {
    if ds != [] {
      assert FrameDistancesOk(ds[1..]) by {
        forall i | 0 <= i < |ds[1..]| ensures 0.0 <= ds[1..][i] <= 2.0 {
          assert ds[1..][i] == ds[i + 1];
        }
      }
      ScrollManyInRange(Scroll(y, ds[0]), ds[1..]);
    }
  }

  /** The belt is a true scroll modulo its period: after any run of frames the
      offset is the unwrapped position y - Sum(ds) plus one period per wrap. */
  lemma {:induction false} ScrollManyIsPeriodic(y: real, ds: seq<real>)
    ensures ScrollMany(y, ds) == y - Sum(ds) + 2.0 * (WrapCount(y, ds) as real)
    decreases |ds|
  {
    if ds != [] {
      ScrollManyIsPeriodic(Scroll(y, ds[0]), ds[1..]);
    }
  }

  /** The motor channel the game reads: index 1 when the display hand is "lh",
      index 0 for any other value. */
  function MotorIndex(displayHand: string): (i: nat)
    ensures i < 2
    ensures i == 1 <==> displayHand == "lh"
  {
    if displayHand == "lh" then 1 else 0
  }

  /** The marble's angle (degrees) and angular velocity (degrees per second). */
  datatype Reading = Reading(angle: real, velocity: real)

  /** The channel rule: read the motor channel, subtract the neutral angle,
      apply the gain to both angle and velocity, and mirror both for "lh". */
  function ChannelReading(displayHand: string, allPos: seq<real>, allVel: seq<real>,
                          neutral: real, gain: real): (r: Reading)
    requires MotorIndex(displayHand) < |allPos| && MotorIndex(displayHand) < |allVel|
    ensures displayHand == "lh" ==>
      r == Reading(-((allPos[1] - neutral) * gain), -(allVel[1] * gain))
    ensures displayHand != "lh" ==>
      r == Reading((allPos[0] - neutral) * gain, allVel[0] * gain)
  {
    var idx := MotorIndex(displayHand);
    var angle := (allPos[idx] - neutral) * gain;
    var velocity := allVel[idx] * gain;
    if displayHand == "lh" then Reading(-angle, -velocity) else Reading(angle, velocity)
  }

  /** Mirroring: the "lh" reading of a sample is the negated "rh" reading of the
      same sample with its two channels swapped. */
  lemma MirroredChannels(p0: real, p1: real, v0: real, v1: real, neutral: real, gain: real)
    ensures ChannelReading("lh", [p0, p1], [v0, v1], neutral, gain)
         == var rh := ChannelReading("rh", [p1, p0], [v1, v0], neutral, gain);
            Reading(-rh.angle, -rh.velocity)
  {
  }

  /** Where the marble sits on the trough's arc of radius rad for an angle in
      degrees: the same arc point the course outline is drawn with, lifted from
      the marble's base height. */
  function MarblePosition(rad: real, baseY: real, angleDeg: real, t: Trig): (real, real)
  {
    ArcVertex(baseY, Deg2Rad(t, angleDeg), rad, t)
  }

  /** The marble stays on the circle of radius rad centred rad above its base position. */
  lemma MarbleOnArc(rad: real, baseY: real, angleDeg: real, t: Trig)
    requires Pythagorean(t, Deg2Rad(t, angleDeg))
    ensures var (x, y) := MarblePosition(rad, baseY, angleDeg, t);
            x * x + (y - baseY - rad) * (y - baseY - rad) == rad * rad
  {
    var a := Deg2Rad(t, angleDeg);
    var (s, c) := (t.sin(a), t.cos(a));
    var (x, y) := MarblePosition(rad, baseY, angleDeg, t);
    assert y - baseY - rad == -(rad * c);
    calc {
      x * x + (y - baseY - rad) * (y - baseY - rad);
      (rad * s) * (rad * s) + (rad * c) * (rad * c);
      rad * rad * (s * s + c * c);
      rad * rad;
    }
  }

  /** At angle 0 the marble rests at its base position. */
  lemma MarbleAtRest(rad: real, baseY: real, t: Trig)
    requires t.sin(0.0) == 0.0 && t.cos(0.0) == 1.0
    ensures MarblePosition(rad, baseY, 0.0, t) == (0.0, baseY)
  {
    assert Deg2Rad(t, 0.0) == 0.0;
  }

  /** The distance the rolling bands advance in one frame: the forward scroll
      trough_speed*frame_time and the arc swept at the marble's velocity, both
      in units of 0.4 marble circumferences, combined by Pythagoras. */
  function RollDistance(troughSpeed: real, frameTime: real, troughRad: real,
                        velocity: real, circ: real, t: Trig): real
    requires circ != 0.0
  {
    var yTravel := troughSpeed * frameTime / (0.4 * circ);
    var xTravel := 2.0 * troughRad * t.pi * velocity / 360.0 * frameTime / (0.4 * circ);
    t.sqrt(yTravel * yTravel + xTravel * xTravel)
  }

  /** With a square root that is never negative, the bands only ever move one
      way. This is the premise RollBands' range bound needs (a distance in
      [0, 2]); UpdateMarble uses it to pass that bound on to its caller. */
  lemma RollDistanceNonNegative(troughSpeed: real, frameTime: real, troughRad: real,
                                velocity: real, circ: real, t: Trig)
    requires circ != 0.0 && SqrtNonNegative(t)
    ensures 0.0 <= RollDistance(troughSpeed, frameTime, troughRad, velocity, circ, t)
  {
  }

  /** The frame-time history after one frame: rolled right by one, then the
      newest frame time written over entry 0. */
  function RecordFrame(history: seq<real>, frameTime: real): (r: seq<real>)
    requires |history| > 0
    ensures |r| == |history|
    ensures r[0] == frameTime
    ensures forall i :: 0 <= i < |history| - 1 ==> r[i + 1] == history[i]
    ensures r == [frameTime] + history[..|history| - 1]
  {
    RollRight(history)[0 := frameTime]
  }
}
