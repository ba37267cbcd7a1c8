/** The wedge game's logic (class WedgeGame of spoof_wedge_game.py): the two key
    flags driven by keyboard events, the steering direction they resolve to,
    the orientation integrator and the placement of the wedge and the targets
    on the circle of radius task_rad. The keyboard, the clock and drawing are not part of
    this model: the events and the clock's readings are parameters. */
module WedgeTask {
  import opened ArrayMath

  /** One keyboard event as the keyboard server reports it. */
  datatype KeyEvent = KeyEvent(key: string, kind: string)

  const Press: string := "KEYBOARD_PRESS"
  const Release: string := "KEYBOARD_RELEASE"
  /** left_key, right_key and key_codes. */
  const LeftKeys: seq<string> := ["a"]
  const RightKeys: seq<string> := ["d"]
  const KeyCodes: seq<string> := LeftKeys + RightKeys
  /** rotation_speed, in degrees per second. */
  const RotationSpeed: real := 60.0

  /** left_keydown and right_keydown. */
  datatype KeyState = KeyState(left: bool, right: bool)

  /** The body of check_keys' loop for one event. */
  function ApplyEvent(s: KeyState, e: KeyEvent): KeyState
  {
    if e.key in KeyCodes then
      if e.kind == Press then
        if e.key in LeftKeys then s.(left := true)
        else if e.key in RightKeys then s.(right := true)
        else s
      else if e.kind == Release then
        if e.key in LeftKeys then s.(left := false)
        else if e.key in RightKeys then s.(right := false)
        else s
      else s
    else s
  }

  /** The events applied in order, the last one last. */
  function ApplyEvents(s: KeyState, events: seq<KeyEvent>): KeyState
    decreases |events|
  {
    if events == [] then s else ApplyEvent(ApplyEvents(s, events[..|events| - 1]), events[|events| - 1])
  }

  /** A press of "a" sets the left flag and a release clears it; "d" does the
      same to the right flag; neither touches the other flag. */
  lemma KeysDriveFlags(s: KeyState)
    ensures ApplyEvent(s, KeyEvent("a", Press)) == s.(left := true)
    ensures ApplyEvent(s, KeyEvent("a", Release)) == s.(left := false)
    ensures ApplyEvent(s, KeyEvent("d", Press)) == s.(right := true)
    ensures ApplyEvent(s, KeyEvent("d", Release)) == s.(right := false)
  {
    assert "a" in KeyCodes && "a" in LeftKeys;
    assert "d" in KeyCodes && "d" !in LeftKeys && "d" in RightKeys;
  }

  /** An event only matters if it is a press or a release of "a" or "d". */
  predicate Relevant(e: KeyEvent)
  {
    (e.key == "a" || e.key == "d") && (e.kind == Press || e.kind == Release)
  }

  /** An event for a key outside key_codes, or of another type, changes nothing. */
  lemma IrrelevantEventIgnored(s: KeyState, e: KeyEvent)
    requires !Relevant(e)
    ensures ApplyEvent(s, e) == s
  {
  }

  /** Which flag a relevant event drives, and to what. */
  lemma RelevantEventSets(s: KeyState, e: KeyEvent)
    requires Relevant(e)
    ensures e.key == "a" ==> ApplyEvent(s, e) == s.(left := e.kind == Press)
    ensures e.key == "d" ==> ApplyEvent(s, e) == s.(right := e.kind == Press)
  {
    assert "a" in KeyCodes && "a" in LeftKeys;
    assert "d" in KeyCodes && "d" !in LeftKeys && "d" in RightKeys;
  }

  /** Applying two runs of events is applying their concatenation. */
  lemma {:induction false} ApplyEventsAppend(s: KeyState, xs: seq<KeyEvent>, ys: seq<KeyEvent>)
    ensures ApplyEvents(s, xs + ys) == ApplyEvents(ApplyEvents(s, xs), ys)
    decreases |ys|
  {
    if ys == [] {
      assert xs + ys == xs;
    } else {
      var ys' := ys[..|ys| - 1];
      assert (xs + ys)[..|xs + ys| - 1] == xs + ys';
      ApplyEventsAppend(s, xs, ys');
    }
  }

  /** The last relevant event of a key decides its flag. With no event for "a"
      after index i, the left flag ends as event i set it; likewise for "d". */
  lemma {:induction false} LastEventWins(s: KeyState, events: seq<KeyEvent>, i: nat, key: string)
    requires i < |events| && key in ["a", "d"]
    requires Relevant(events[i]) && events[i].key == key
    requires forall j :: i < j < |events| ==> !(Relevant(events[j]) && events[j].key == key)
    ensures key == "a" ==> ApplyEvents(s, events).left == (events[i].kind == Press)
    ensures key == "d" ==> ApplyEvents(s, events).right == (events[i].kind == Press)
    decreases |events|
  {
    var last := |events| - 1;
    var prefix := events[..last];
    if i == last {
      RelevantEventSets(ApplyEvents(s, prefix), events[i]);
    } else {
      LastEventWins(s, prefix, i, key);
      var e := events[last];
      var before := ApplyEvents(s, prefix);
      if Relevant(e) {
        RelevantEventSets(before, e);
      } else {
        IrrelevantEventIgnored(before, e);
      }
    }
  }

  /** A run of events with no relevant event for a key leaves that key's flag alone. */
  lemma {:induction false} UntouchedFlagKept(s: KeyState, events: seq<KeyEvent>, key: string)
    requires key in ["a", "d"]
    requires forall j :: 0 <= j < |events| ==> !(Relevant(events[j]) && events[j].key == key)
    ensures key == "a" ==> ApplyEvents(s, events).left == s.left
    ensures key == "d" ==> ApplyEvents(s, events).right == s.right
    decreases |events|
  {
    if events != [] {
      var last := |events| - 1;
      UntouchedFlagKept(s, events[..last], key);
      var before := ApplyEvents(s, events[..last]);
      if Relevant(events[last]) {
        RelevantEventSets(before, events[last]);
      } else {
        IrrelevantEventIgnored(before, events[last]);
      }
    }
  }

  /** The steering direction: -1 with only the left key down, +1 with only the
      right key down, 0 with both or neither. */
  function Direction(left: bool, right: bool): (d: int)
    ensures d == -1 <==> left && !right
    ensures d == 1 <==> right && !left
    ensures d == 0 <==> left == right
    ensures -1 <= d <= 1
  {
    if left then
      if !right then -1 else 0
    else if right then
      if !left then 1 else 0
    else 0
  }

  /** The orientation change of one frame, in degrees. */
  function Turn(direction: int, frameTime: real): real
  {
    RotationSpeed * (direction as real) * frameTime
  }

  /** The wedge holds still without a direction or without elapsed time, and
      otherwise turns the way its direction points (for a positive frame time). */
  lemma TurnSign(direction: int, frameTime: real)
    requires direction in {-1, 0, 1}
    ensures direction == 0 || frameTime == 0.0 ==> Turn(direction, frameTime) == 0.0
    ensures frameTime > 0.0 ==> (Turn(direction, frameTime) > 0.0 <==> direction == 1)
    ensures frameTime > 0.0 ==> (Turn(direction, frameTime) < 0.0 <==> direction == -1)
  {
    if frameTime > 0.0 {
      if direction == 1 {
        assert Turn(direction, frameTime) == 60.0 * frameTime;
      } else if direction == -1 {
        assert Turn(direction, frameTime) == -60.0 * frameTime;
      }
    }
  }

  /** The orientation after a run of frames, each with its direction and frame time. */
  function Integrate(ori: real, frames: seq<(int, real)>): real
    decreases |frames|
  {
    if frames == [] then ori else Integrate(ori + Turn(frames[0].0, frames[0].1), frames[1..])
  }

  /** The total turn of a run of frames. */
  function TotalTurn(frames: seq<(int, real)>): real
    decreases |frames|
  {
    if frames == [] then 0.0 else Turn(frames[0].0, frames[0].1) + TotalTurn(frames[1..])
  }

  /** The integrator adds up the frames' turns and nothing else. */
  lemma {:induction false} IntegrateIsSum(ori: real, frames: seq<(int, real)>)
    ensures Integrate(ori, frames) == ori + TotalTurn(frames)
    decreases |frames|
  {
    if frames != [] {
      IntegrateIsSum(ori + Turn(frames[0].0, frames[0].1), frames[1..]);
    }
  }

  /** Where a point at orientation oriDeg (degrees, 0 straight up) lies on the
      circle of radius rad, which is centred at (0, -rad). */
  function ArcPosition(rad: real, oriDeg: real, t: Trig): (real, real)
  {
    var a := Deg2Rad(t, oriDeg);
    (rad * t.sin(a), -rad + rad * t.cos(a))
  }

  /** Every placed point lies on the circle of radius rad centred at (0, -rad). */
  lemma ArcPositionOnCircle(rad: real, oriDeg: real, t: Trig)
    requires Pythagorean(t, Deg2Rad(t, oriDeg))
    ensures var (x, y) := ArcPosition(rad, oriDeg, t);
            x * x + (y + rad) * (y + rad) == rad * rad
  {
    var a := Deg2Rad(t, oriDeg);
    var (s, c) := (t.sin(a), t.cos(a));
    var (x, y) := ArcPosition(rad, oriDeg, t);
    assert y + rad == rad * c;
    calc {
      x * x + (y + rad) * (y + rad);
      (rad * s) * (rad * s) + (rad * c) * (rad * c);
      rad * rad * (s * s + c * c);
      rad * rad;
    }
  }

  /** Orientation 0 is straight up: the top of the circle, at the origin. */
  lemma ArcPositionAtZero(rad: real, t: Trig)
    requires t.sin(0.0) == 0.0 && t.cos(0.0) == 1.0
    ensures ArcPosition(rad, 0.0, t) == (0.0, 0.0)
  {
    assert Deg2Rad(t, 0.0) == 0.0;
  }

  /** A target shape's orientation and position. */
  datatype Target = Target(ori: real, pos: (real, real))

  /** The target loop of __init__: one target per configured orientation, each
      turned to its orientation and placed on the circle of radius task_rad there. */
  method PlaceTargets(targetOris: seq<real>, taskRad: real, t: Trig) returns (targets: seq<Target>)
    ensures |targets| == |targetOris|
    ensures forall i :: 0 <= i < |targets| ==>
              targets[i].ori == targetOris[i] && targets[i].pos == ArcPosition(taskRad, targetOris[i], t)
  {
    targets := seq(|targetOris|, _ => Target(0.0, (0.0, 0.0)));
    for i := 0 to |targets|
      invariant |targets| == |targetOris|
      invariant forall k :: 0 <= k < i ==>
                  targets[k].ori == targetOris[k] && targets[k].pos == ArcPosition(taskRad, targetOris[k], t)
    {
      var target := targets[i].(ori := targetOris[i]);
      targets := targets[i := target.(pos := ArcPosition(taskRad, targetOris[i], t))];
    }
  }

  class WedgeGame {
    const trig: Trig
    /** task_rad, in screen heights. */
    const taskRad: real
    /** The angular widths of the wedge and of a target (wedge_width, target_width). */
    const wedgeWidth: real
    const targetWidth: real
    const targetOris: seq<real>
    const targets: seq<Target>
    var leftKeydown: bool
    var rightKeydown: bool
    var inputDirection: int
    var taskOri: real
    var wedgeOri: real
    var wedgePos: (real, real)
    var lastTime: real
    var frameTime: real

    /** The direction always reflects the two flags as check_keys last saw them. */
    predicate Valid()
      reads this
    {
      inputDirection == Direction(leftKeydown, rightKeydown)
    }

    /** The modelled part of __init__ (lines 90-147). */
    constructor (cfgTaskRad: real, wedgeSize: real, targetSize: real, cfgTargetOris: seq<real>, t: Trig)
      ensures Valid()
      ensures !leftKeydown && !rightKeydown && inputDirection == 0
      ensures taskOri == 0.0 && lastTime == 0.0 && frameTime == 0.0
      ensures wedgeOri == 0.0 && wedgePos == (0.0, 0.0)
      ensures taskRad == cfgTaskRad && trig == t && targetOris == cfgTargetOris
      ensures wedgeWidth == 2.0 * cfgTaskRad * t.sin(Deg2Rad(t, wedgeSize) / 2.0)
      ensures targetWidth == 2.0 * cfgTaskRad * t.sin(Deg2Rad(t, targetSize + wedgeSize) / 2.0)
      ensures |targets| == |cfgTargetOris|
      ensures forall i :: 0 <= i < |targets| ==>
                targets[i].ori == cfgTargetOris[i] && targets[i].pos == ArcPosition(cfgTaskRad, cfgTargetOris[i], t)
    {
      trig := t;
      leftKeydown := false;
      rightKeydown := false;
      taskRad := cfgTaskRad;
      taskOri := 0.0;
      wedgeWidth := 2.0 * cfgTaskRad * t.sin(Deg2Rad(t, wedgeSize) / 2.0);
      targetWidth := 2.0 * cfgTaskRad * t.sin(Deg2Rad(t, targetSize + wedgeSize) / 2.0);
      targetOris := cfgTargetOris;
      var placed := PlaceTargets(cfgTargetOris, cfgTaskRad, t);
      targets := placed;
      inputDirection := 0;
      lastTime := 0.0;
      frameTime := 0.0;
      wedgeOri := 0.0;
      wedgePos := (0.0, 0.0);
    }

    /** check_keys: every event in order updates the flags, then the direction
        is resolved from them. */
    method CheckKeys(events: seq<KeyEvent>)
      modifies this`leftKeydown, this`rightKeydown, this`inputDirection
      ensures KeyState(leftKeydown, rightKeydown)
           == ApplyEvents(KeyState(old(leftKeydown), old(rightKeydown)), events)
      ensures Valid()
    {
      ghost var start := KeyState(leftKeydown, rightKeydown);
      for i := 0 to |events|
        invariant KeyState(leftKeydown, rightKeydown) == ApplyEvents(start, events[..i])
      {
        var kbe := events[i];
        if kbe.key in KeyCodes {
          if kbe.kind == Press {
            if kbe.key in LeftKeys {
              leftKeydown := true;
            } else if kbe.key in RightKeys {
              rightKeydown := true;
            }
          } else if kbe.kind == Release {
            if kbe.key in LeftKeys {
              leftKeydown := false;
            } else if kbe.key in RightKeys {
              rightKeydown := false;
            }
          }
        }
        assert events[..i + 1][..i] == events[..i];
      }
      assert events[..|events|] == events;
      if leftKeydown {
        if !rightKeydown {
          inputDirection := -1;
        } else {
          inputDirection := 0;
        }
      } else if rightKeydown {
        if !leftKeydown {
          inputDirection := 1;
        } else {
          // The left flag is already known to be clear here.
          assert false;
        }
      } else {
        inputDirection := 0;
      }
    }

    /** update_frame_time: the clock is read twice (now1, then now2). */
    method UpdateFrameTime(now1: real, now2: real)
      modifies this`frameTime, this`lastTime
      ensures frameTime == now1 - old(lastTime) && lastTime == now2
    {
      frameTime := now1 - lastTime;
      lastTime := now2;
    }

    /** update_wedge: integrate the orientation, then turn and place the wedge
        on the circle of radius task_rad at it. */
    method UpdateWedge()
      modifies this`taskOri, this`wedgeOri, this`wedgePos
      ensures taskOri == old(taskOri) + Turn(inputDirection, frameTime)
      ensures inputDirection == 0 || frameTime == 0.0 ==> taskOri == old(taskOri)
      ensures wedgeOri == taskOri && wedgePos == ArcPosition(taskRad, taskOri, trig)
    {
      taskOri := taskOri + Turn(inputDirection, frameTime);
      var p := ArcPosition(taskRad, taskOri, trig);
      wedgeOri := taskOri;
      wedgePos := p;
    }

    /** One pass of run_main_loop, drawing left out: the clock, the keys, the wedge. */
    method Frame(now1: real, now2: real, events: seq<KeyEvent>)
      modifies this`frameTime, this`lastTime, this`leftKeydown, this`rightKeydown, this`inputDirection
      modifies this`taskOri, this`wedgeOri, this`wedgePos
      ensures frameTime == now1 - old(lastTime) && lastTime == now2
      ensures KeyState(leftKeydown, rightKeydown)
           == ApplyEvents(KeyState(old(leftKeydown), old(rightKeydown)), events)
      ensures Valid()
      ensures taskOri == old(taskOri) + Turn(Direction(leftKeydown, rightKeydown), frameTime)
      ensures wedgeOri == taskOri && wedgePos == ArcPosition(taskRad, taskOri, trig)
    {
      UpdateFrameTime(now1, now2);
      CheckKeys(events);
      UpdateWedge();
    }
  }
}
