/** The geometry the marble game builds once, at start-up (marble_game.py): the
    waypoints of the example course, their positions along the belt, and the
    vertex lists of the course outline and of a trough. The interpolating curve
    through the waypoints is not part of this model; its samples are inputs. */
module MarbleShapes {
  import opened ArrayMath

  /** The course example: waypoint times and the target angle (degrees) at each. */
  datatype Course = Course(times: seq<real>, targets: seq<real>)

  /** np.arange(spacing, spacing*(n+1), spacing) over exact reals: the n times
      spacing, 2*spacing, ..., n*spacing. */
  function TargetTimes(spacing: real, n: nat): (r: seq<real>)
    ensures |r| == n
  {
    seq(n, i requires 0 <= i < n => spacing * ((i + 1) as real))
  }

  /** The course the game shows: a start and an end pair of zero targets around
      the configured targets. The start pair is at times 0 and startEnd, the
      targets follow every `spacing` after startEnd, and the end pair sits at
      spacing and spacing + startEnd after the last target time n*spacing. */
  function CourseWaypoints(targets: seq<real>, spacing: real, startEnd: real): (c: Course)
    requires |targets| > 0 && spacing != 0.0
    ensures |c.times| == |targets| + 4 && |c.targets| == |targets| + 4
    ensures c.targets[0] == 0.0 && c.targets[1] == 0.0
    ensures c.targets[|targets| + 2] == 0.0 && c.targets[|targets| + 3] == 0.0
    ensures c.targets[2..|targets| + 2] == targets
    ensures c.times[0] == 0.0 && c.times[1] == startEnd
  {
    var n := |targets|;
    var targetTimes := TargetTimes(spacing, n);
    var startEndTargets := [0.0, 0.0];
    var startTimes := [0.0, startEnd];
    var endTimes := [spacing, spacing + startEnd];
    var times := startTimes
      + seq(n, i requires 0 <= i < n => startTimes[1] + targetTimes[i])
      + seq(2, i requires 0 <= i < 2 => targetTimes[n - 1] + endTimes[i]);
    var allTargets := startEndTargets + targets + startEndTargets;
    assert allTargets[2..n + 2] == targets;
    Course(times, allTargets)
  }

  /** Pairwise order follows from order of neighbours. */
  lemma {:induction false} IncreasingFromNeighbours(s: seq<real>, i: nat, j: nat)
    requires forall k, l :: 0 <= k && l == k + 1 && l < |s| ==> s[k] < s[l]
    requires i < j < |s|
    ensures s[i] < s[j]
    decreases j - i
  {
    if j > i + 1 {
      IncreasingFromNeighbours(s, i, j - 1);
      assert s[j - 1] < s[j];
    }
  }

  /** Where each waypoint time lies, by position in the sequence. */
  lemma CourseTimesAt(targets: seq<real>, spacing: real, startEnd: real)
    requires |targets| > 0 && spacing != 0.0
    ensures var t, n := CourseWaypoints(targets, spacing, startEnd).times, |targets|;
      && (forall j :: 2 <= j < n + 2 ==> t[j] == startEnd + spacing * ((j - 1) as real))
      && t[n + 2] == spacing * (n as real) + spacing
      && t[n + 3] == spacing * (n as real) + spacing + startEnd
  {
  }

  /** The waypoint times are strictly increasing exactly when 0 < startEnd < spacing.
      Both spacings being positive is not enough: the end pair is offset from
      the last target time n*spacing, while the last target itself sits at
      startEnd + n*spacing, so the gap after it is spacing - startEnd. */
  lemma CourseTimesIncreasing(targets: seq<real>, spacing: real, startEnd: real)
    requires |targets| > 0 && spacing != 0.0
    ensures StrictlyIncreasing(CourseWaypoints(targets, spacing, startEnd).times)
        <==> 0.0 < startEnd < spacing
  {
    var n := |targets|;
    var t := CourseWaypoints(targets, spacing, startEnd).times;
    CourseTimesAt(targets, spacing, startEnd);
    assert t[n + 1] == startEnd + spacing * (n as real);
    if 0.0 < startEnd < spacing {
      forall k, l | 0 <= k && l == k + 1 && l < |t| ensures t[k] < t[l] {
        if 2 <= k && l < n + 2 {
          MulStep(spacing, k - 1);
        }
      }
      forall i, j | 0 <= i < j < |t| ensures t[i] < t[j] {
        IncreasingFromNeighbours(t, i, j);
      }
    } else {
      assert !(t[0] < t[1]) || !(t[n + 1] < t[n + 2]);
    }
  }

  lemma MulStep(x: real, m: int)
    ensures x * ((m + 1) as real) == x * (m as real) + x
  {
  }

  /** The targets and times the game itself uses (lines 192-195). */
  function SourceCourse(): (c: Course)
  {
    CourseWaypoints([25.0, -35.0, 15.0, -15.0, 30.0], 1.0, 0.5)
  }

  /** The game's own course: nine waypoints at these times, so the last target
      is half a second, not a full spacing, before the closing zero. */
  lemma SourceCourseTimes()
    ensures SourceCourse().times == [0.0, 0.5, 1.5, 2.5, 3.5, 4.5, 5.5, 6.0, 6.5]
    ensures SourceCourse().targets == [0.0, 0.0, 25.0, -35.0, 15.0, -15.0, 30.0, 0.0, 0.0]
  {
    var c := SourceCourse();
    assert c.times[2] == 0.5 + 1.0 * 1.0;
    assert c.times[6] == 0.5 + 1.0 * 5.0;
    assert c.times[7] == 1.0 * 5.0 + 1.0;
  }

  /** gen_course_path's first step: waypoint times become belt positions
      speed*time (the interpolant is fitted over these). */
  function CoursePositions(times: seq<real>, speed: real): (ypos: seq<real>)
    ensures |ypos| == |times|
    ensures forall i :: 0 <= i < |times| ==> ypos[i] == speed * times[i]
  {
    seq(|times|, i requires 0 <= i < |times| => speed * times[i])
  }

  /** At a positive speed, increasing times give increasing positions. */
  lemma PositionsIncreasing(times: seq<real>, speed: real)
    requires StrictlyIncreasing(times) && speed > 0.0
    ensures StrictlyIncreasing(CoursePositions(times, speed))
  {
    var p := CoursePositions(times, speed);
    forall i, j | 0 <= i < j < |p| ensures p[i] < p[j] {
      assert speed * times[j] - speed * times[i] == speed * (times[j] - times[i]);
      MulPositive(speed, times[j] - times[i]);
    }
  }

  lemma MulPositive(x: real, y: real)
    requires 0.0 < x && 0.0 < y
    ensures 0.0 < x * y
  {
  }

  /** So the game's course gives the interpolant strictly increasing knots at
      every positive trough speed. */
  lemma SourceCourseKnotsIncreasing(speed: real)
    requires speed > 0.0
    ensures StrictlyIncreasing(CoursePositions(SourceCourse().times, speed))
  {
    CourseTimesIncreasing([25.0, -35.0, 15.0, -15.0, 30.0], 1.0, 0.5);
    PositionsIncreasing(SourceCourse().times, speed);
  }

  /** Number of interior samples of an endcap of m points. */
  function CapCount(m: nat): nat
  {
    if m >= 2 then m - 2 else 0
  }

  /** Vertex i of one side of the course: the course angle shifted by offset
      (degrees), at the course's height. */
  function SideVertex(yRaw: seq<real>, angleRaw: seq<real>, i: nat, offset: real, rad: real, t: Trig)
    : (real, real)
    requires i < |yRaw| && i < |angleRaw|
  {
    ArcVertex(yRaw[i], Deg2Rad(t, angleRaw[i] + offset), rad, t)
  }

  /** The vertices of one stretch of the outline, with heights ys and angles as. */
  function ArcVertices(ys: seq<real>, angles: seq<real>, rad: real, t: Trig): (v: seq<(real, real)>)
    requires |ys| == |angles|
    ensures |v| == |ys|
  {
    seq(|ys|, i requires 0 <= i < |ys| => ArcVertex(ys[i], angles[i], rad, t))
  }

  /** One side of the course, bottom to top: the course angles shifted by
      offset degrees (-width/2 for the left side, +width/2 for the right). */
  function CourseSide(yRaw: seq<real>, angleRaw: seq<real>, offset: real, rad: real, t: Trig)
    : (v: seq<(real, real)>)
    requires |yRaw| == |angleRaw|
    ensures |v| == |yRaw|
  {
    seq(|yRaw|, i requires 0 <= i < |yRaw| => SideVertex(yRaw, angleRaw, i, offset, rad, t))
  }

  /** The source's own form of a side: np.deg2rad of the shifted angles, then
      the vertices at the course's heights. */
  lemma CourseSideIsArcVertices(yRaw: seq<real>, angleRaw: seq<real>, offset: real, rad: real, t: Trig)
    requires |yRaw| == |angleRaw|
    ensures CourseSide(yRaw, angleRaw, offset, rad, t)
         == ArcVertices(yRaw, seq(|yRaw|, i requires 0 <= i < |yRaw| => Deg2Rad(t, angleRaw[i] + offset)), rad, t)
  {
  }

  /** Vertex i of the endcap at the course's sample k: sample i+1 of the sweep
      of endcapPoints angles from the course angle shifted by fromOffset to the
      one shifted by toOffset (degrees), at the course's height there. */
  function CapVertex(yRaw: seq<real>, angleRaw: seq<real>, k: nat, fromOffset: real, toOffset: real,
                     endcapPoints: nat, rad: real, t: Trig, i: nat): (real, real)
    requires k < |yRaw| && k < |angleRaw| && i < CapCount(endcapPoints)
  {
    var from, to := Deg2Rad(t, angleRaw[k] + fromOffset), Deg2Rad(t, angleRaw[k] + toOffset);
    ArcVertex(yRaw[k], LinspaceAt(from, to, endcapPoints, i + 1), rad, t)
  }

  /** The endcap at the course's sample k: the sweep without its first and its
      last sample. */
  function CourseCap(yRaw: seq<real>, angleRaw: seq<real>, k: nat, fromOffset: real, toOffset: real,
                     endcapPoints: nat, rad: real, t: Trig): (v: seq<(real, real)>)
    requires k < |yRaw| && k < |angleRaw|
    ensures |v| == CapCount(endcapPoints)
  {
    seq(CapCount(endcapPoints), i requires 0 <= i < CapCount(endcapPoints) =>
      CapVertex(yRaw, angleRaw, k, fromOffset, toOffset, endcapPoints, rad, t, i))
  }

  /** The source's own form of an endcap: the slices [1:-1] of
      np.linspace(y, y, m) and of np.linspace(from, to, m), mapped to vertices. */
  lemma CourseCapIsInteriorOfSweep(yRaw: seq<real>, angleRaw: seq<real>, k: nat, fromOffset: real, toOffset: real,
                                   endcapPoints: nat, rad: real, t: Trig)
    requires k < |yRaw| && k < |angleRaw|
    ensures var m, from, to := endcapPoints, Deg2Rad(t, angleRaw[k] + fromOffset), Deg2Rad(t, angleRaw[k] + toOffset);
      CourseCap(yRaw, angleRaw, k, fromOffset, toOffset, m, rad, t)
      == ArcVertices(Interior(Linspace(yRaw[k], yRaw[k], m)), Interior(Linspace(from, to, m)), rad, t)
  {
    var m, from, to := endcapPoints, Deg2Rad(t, angleRaw[k] + fromOffset), Deg2Rad(t, angleRaw[k] + toOffset);
    var v := CourseCap(yRaw, angleRaw, k, fromOffset, toOffset, m, rad, t);
    var w := ArcVertices(Interior(Linspace(yRaw[k], yRaw[k], m)), Interior(Linspace(from, to, m)), rad, t);
    forall i | 0 <= i < |v| ensures v[i] == w[i] {
      assert Interior(Linspace(from, to, m))[i] == LinspaceAt(from, to, m, i + 1);
    }
  }

  /** The course outline from its four stretches: the bottom endcap, the left
      side, the top endcap and the right side reversed, placed one after the
      other (np.concatenate of the four columns). */
  function CourseOutline(bottom: seq<(real, real)>, lh: seq<(real, real)>, top: seq<(real, real)>,
                         rh: seq<(real, real)>): (v: seq<(real, real)>)
    ensures |v| == |bottom| + |lh| + |top| + |rh|
  {
    var b, l, tp := |bottom|, |bottom| + |lh|, |bottom| + |lh| + |top|;
    seq(tp + |rh|, k requires 0 <= k < tp + |rh| =>
      if k < b then bottom[k]
      else if k < l then lh[k - b]
      else if k < tp then top[k - l]
      else rh[|rh| - 1 - (k - tp)])
  }

  /** The placement above is the concatenation with the right side reversed. */
  lemma CourseOutlineIsConcatenation(bottom: seq<(real, real)>, lh: seq<(real, real)>, top: seq<(real, real)>,
                                     rh: seq<(real, real)>)
    ensures CourseOutline(bottom, lh, top, rh) == bottom + lh + top + Reverse(rh)
  {
  }

  /** Where each stretch sits in the outline. */
  lemma CourseOutlineBottom(bottom: seq<(real, real)>, lh: seq<(real, real)>, top: seq<(real, real)>,
                            rh: seq<(real, real)>, i: nat)
    requires i < |bottom|
    ensures CourseOutline(bottom, lh, top, rh)[i] == bottom[i]
  {
  }

  lemma CourseOutlineLeft(bottom: seq<(real, real)>, lh: seq<(real, real)>, top: seq<(real, real)>,
                          rh: seq<(real, real)>, i: nat, k: nat)
    requires i < |lh| && k == |bottom| + i
    ensures CourseOutline(bottom, lh, top, rh)[k] == lh[i]
  {
  }

  lemma CourseOutlineTop(bottom: seq<(real, real)>, lh: seq<(real, real)>, top: seq<(real, real)>,
                         rh: seq<(real, real)>, i: nat, k: nat)
    requires i < |top| && k == |bottom| + |lh| + i
    ensures CourseOutline(bottom, lh, top, rh)[k] == top[i]
  {
  }

  lemma CourseOutlineRight(bottom: seq<(real, real)>, lh: seq<(real, real)>, top: seq<(real, real)>,
                           rh: seq<(real, real)>, i: nat, k: nat, j: nat)
    requires i < |rh| && k == |bottom| + |lh| + |top| + i && j == |rh| - 1 - i
    ensures CourseOutline(bottom, lh, top, rh)[k] == rh[j]
  {
  }

  /** gen_course_shape. The source builds the x and the y column separately from
      the same four stretches and then pairs them; here each stretch is paired
      first. The outline is: the bottom endcap from the right side's first angle
      to the left side's (its two end samples dropped), the left side going up,
      the top endcap from left to right, and the right side going back down. */
  function CourseShape(yRaw: seq<real>, angleRaw: seq<real>, rad: real, angleWidth: real,
                       endcapPoints: nat, t: Trig): (v: seq<(real, real)>)
    requires |yRaw| == |angleRaw| > 0
    ensures |v| == 2 * CapCount(endcapPoints) + 2 * |yRaw|
  {
    var n := |yRaw|;
    CourseOutline(CourseCap(yRaw, angleRaw, 0, 0.5 * angleWidth, -0.5 * angleWidth, endcapPoints, rad, t),
                  CourseSide(yRaw, angleRaw, -0.5 * angleWidth, rad, t),
                  CourseCap(yRaw, angleRaw, n - 1, -0.5 * angleWidth, 0.5 * angleWidth, endcapPoints, rad, t),
                  CourseSide(yRaw, angleRaw, 0.5 * angleWidth, rad, t))
  }

  /** The four stretches the course outline is placed from. */
  lemma CourseStretches(yRaw: seq<real>, angleRaw: seq<real>, rad: real, angleWidth: real,
                        endcapPoints: nat, t: Trig)
    returns (b: seq<(real, real)>, l: seq<(real, real)>, tp: seq<(real, real)>, r: seq<(real, real)>)
    requires |yRaw| == |angleRaw| > 0
    ensures b == CourseCap(yRaw, angleRaw, 0, 0.5 * angleWidth, -0.5 * angleWidth, endcapPoints, rad, t)
    ensures l == CourseSide(yRaw, angleRaw, -0.5 * angleWidth, rad, t)
    ensures tp == CourseCap(yRaw, angleRaw, |yRaw| - 1, -0.5 * angleWidth, 0.5 * angleWidth, endcapPoints, rad, t)
    ensures r == CourseSide(yRaw, angleRaw, 0.5 * angleWidth, rad, t)
    ensures CourseShape(yRaw, angleRaw, rad, angleWidth, endcapPoints, t) == CourseOutline(b, l, tp, r)
  {
    b := CourseCap(yRaw, angleRaw, 0, 0.5 * angleWidth, -0.5 * angleWidth, endcapPoints, rad, t);
    l := CourseSide(yRaw, angleRaw, -0.5 * angleWidth, rad, t);
    tp := CourseCap(yRaw, angleRaw, |yRaw| - 1, -0.5 * angleWidth, 0.5 * angleWidth, endcapPoints, rad, t);
    r := CourseSide(yRaw, angleRaw, 0.5 * angleWidth, rad, t);
  }

  /** The bottom endcap comes first. It sits at the course's first height and
      sweeps, without its end samples, from the right side's first angle to the
      left side's. */
  lemma CourseShapeBottomCap(yRaw: seq<real>, angleRaw: seq<real>, rad: real, angleWidth: real,
                             endcapPoints: nat, t: Trig, i: nat)
    requires |yRaw| == |angleRaw| > 0 && i < CapCount(endcapPoints)
    ensures CourseShape(yRaw, angleRaw, rad, angleWidth, endcapPoints, t)[i]
         == CapVertex(yRaw, angleRaw, 0, 0.5 * angleWidth, -0.5 * angleWidth, endcapPoints, rad, t, i)
  {
    var b, l, tp, r := CourseStretches(yRaw, angleRaw, rad, angleWidth, endcapPoints, t);
    CourseOutlineBottom(b, l, tp, r, i);
  }

  /** The left side of the course follows, in order, going up. */
  lemma CourseShapeLeftSide(yRaw: seq<real>, angleRaw: seq<real>, rad: real, angleWidth: real,
                            endcapPoints: nat, t: Trig, i: nat)
    requires |yRaw| == |angleRaw| > 0 && i < |yRaw|
    ensures CourseShape(yRaw, angleRaw, rad, angleWidth, endcapPoints, t)[CapCount(endcapPoints) + i]
         == SideVertex(yRaw, angleRaw, i, -0.5 * angleWidth, rad, t)
  {
    var b, l, tp, r := CourseStretches(yRaw, angleRaw, rad, angleWidth, endcapPoints, t);
    CourseOutlineLeft(b, l, tp, r, i, CapCount(endcapPoints) + i);
  }

  /** Then the top endcap, at the course's last height, sweeping from the left
      side's last angle to the right side's. */
  lemma CourseShapeTopCap(yRaw: seq<real>, angleRaw: seq<real>, rad: real, angleWidth: real,
                          endcapPoints: nat, t: Trig, i: nat)
    requires |yRaw| == |angleRaw| > 0 && i < CapCount(endcapPoints)
    ensures CourseShape(yRaw, angleRaw, rad, angleWidth, endcapPoints, t)[CapCount(endcapPoints) + |yRaw| + i]
         == CapVertex(yRaw, angleRaw, |yRaw| - 1, -0.5 * angleWidth, 0.5 * angleWidth, endcapPoints, rad, t, i)
  {
    var b, l, tp, r := CourseStretches(yRaw, angleRaw, rad, angleWidth, endcapPoints, t);
    CourseOutlineTop(b, l, tp, r, i, CapCount(endcapPoints) + |yRaw| + i);
  }

  /** The right side of the course comes last and reversed: it closes the
      outline going back down, so its last vertex is the course's first sample. */
  lemma CourseShapeRightSideReversed(yRaw: seq<real>, angleRaw: seq<real>, rad: real, angleWidth: real,
                                     endcapPoints: nat, t: Trig, i: nat)
    requires |yRaw| == |angleRaw| > 0 && i < |yRaw|
    ensures CourseShape(yRaw, angleRaw, rad, angleWidth, endcapPoints, t)[2 * CapCount(endcapPoints) + |yRaw| + i]
         == SideVertex(yRaw, angleRaw, |yRaw| - 1 - i, 0.5 * angleWidth, rad, t)
  {
    var b, l, tp, r := CourseStretches(yRaw, angleRaw, rad, angleWidth, endcapPoints, t);
    CourseOutlineRight(b, l, tp, r, i, 2 * CapCount(endcapPoints) + |yRaw| + i, |yRaw| - 1 - i);
  }

  /** The angles of a trough's arc: 3*pi/2 + phi, for numPts values of phi
      evenly spread over the trough's full opening. */
  function TroughArc(t: Trig, fullAngleDeg: real, numPts: nat): (r: seq<real>)
    ensures |r| == numPts
  {
    var half := Deg2Rad(t, 0.5 * fullAngleDeg);
    var phis := Linspace(-half, half, numPts);
    seq(numPts, i requires 0 <= i < numPts => 3.0 / 2.0 * t.pi + phis[i])
  }

  /** The radius of the circle through a trough's two rims, width apart. */
  function TroughRadius(t: Trig, fullAngleDeg: real, width: real): real
    requires t.sin(Deg2Rad(t, 0.5 * fullAngleDeg)) != 0.0
  {
    0.5 * width / t.sin(Deg2Rad(t, 0.5 * fullAngleDeg))
  }

  /** The point at angle a on the circle of radius rad whose lowest point is the origin. */
  function CirclePoint(rad: real, a: real, t: Trig): (real, real)
  {
    (rad * t.cos(a), rad * t.sin(a) + rad)
  }

  /** The trough's arc: the circle of the trough's radius sampled at the arc's angles. */
  function TroughArcPoints(t: Trig, fullAngleDeg: real, width: real, numPts: nat): (arc: seq<(real, real)>)
    requires t.sin(Deg2Rad(t, 0.5 * fullAngleDeg)) != 0.0
    ensures |arc| == numPts
  {
    var circPoints := TroughArc(t, fullAngleDeg, numPts);
    var circleRad := TroughRadius(t, fullAngleDeg, width);
    seq(numPts, i requires 0 <= i < numPts => CirclePoint(circleRad, circPoints[i], t))
  }

  lemma TroughArcPointsAt(t: Trig, fullAngleDeg: real, width: real, numPts: nat, i: nat)
    requires t.sin(Deg2Rad(t, 0.5 * fullAngleDeg)) != 0.0 && i < numPts
    ensures TroughArcPoints(t, fullAngleDeg, width, numPts)[i]
         == CirclePoint(TroughRadius(t, fullAngleDeg, width), TroughArc(t, fullAngleDeg, numPts)[i], t)
  {
  }

  /** An arc with a flat lip of edgeWidth added outward at each end, at the end's height. */
  function WithLips(arc: seq<(real, real)>, edgeWidth: real): (v: seq<(real, real)>)
    requires |arc| > 0
    ensures |v| == |arc| + 2
    ensures v[0] == (v[1].0 - edgeWidth, v[1].1)
    ensures v[|arc| + 1] == (v[|arc|].0 + edgeWidth, v[|arc|].1)
    ensures forall j :: 1 <= j <= |arc| ==> v[j] == arc[j - 1]
  {
    var first, last := arc[0], arc[|arc| - 1];
    [(first.0 - edgeWidth, first.1)] + arc + [(last.0 + edgeWidth, last.1)]
  }

  /** gen_trough_shape: the arc of the circle sampled at numPts angles, with its
      two lips. As for the course, the x and y columns are paired here before the
      lips are added. */
  function TroughShape(t: Trig, fullAngleDeg: real, width: real, edgeWidth: real, numPts: nat)
    : (v: seq<(real, real)>)
    requires numPts > 0 && t.sin(Deg2Rad(t, 0.5 * fullAngleDeg)) != 0.0
    ensures |v| == numPts + 2
  {
    WithLips(TroughArcPoints(t, fullAngleDeg, width, numPts), edgeWidth)
  }

  /** Between the two lips lie the arc's samples, in order. */
  lemma TroughShapeArc(t: Trig, fullAngleDeg: real, width: real, edgeWidth: real, numPts: nat, j: nat)
    requires numPts > 0 && t.sin(Deg2Rad(t, 0.5 * fullAngleDeg)) != 0.0
    requires 1 <= j <= numPts
    ensures TroughShape(t, fullAngleDeg, width, edgeWidth, numPts)[j]
         == CirclePoint(TroughRadius(t, fullAngleDeg, width), TroughArc(t, fullAngleDeg, numPts)[j - 1], t)
  {
    TroughArcPointsAt(t, fullAngleDeg, width, numPts, j - 1);
  }

  /** p is at distance rad from (0, rad). */
  predicate OnTroughCircle(p: (real, real), rad: real)
  {
    p.0 * p.0 + (p.1 - rad) * (p.1 - rad) == rad * rad
  }

  /** A circle point is on its circle wherever sin^2 + cos^2 = 1. */
  lemma CirclePointOnCircle(rad: real, a: real, t: Trig)
    requires Pythagorean(t, a)
    ensures OnTroughCircle(CirclePoint(rad, a, t), rad)
  {
    var (s, c) := (t.sin(a), t.cos(a));
    calc {
      (rad * c) * (rad * c) + (rad * s + rad - rad) * (rad * s + rad - rad);
      rad * rad * (s * s + c * c);
      rad * rad;
    }
  }

  /** Every arc vertex of a trough lies on the circle of the trough's radius
      whose lowest point is the origin. */
  lemma TroughOnCircle(t: Trig, fullAngleDeg: real, width: real, edgeWidth: real, numPts: nat, i: nat)
    requires numPts > 0 && t.sin(Deg2Rad(t, 0.5 * fullAngleDeg)) != 0.0
    requires i < numPts && Pythagorean(t, TroughArc(t, fullAngleDeg, numPts)[i])
    ensures OnTroughCircle(TroughShape(t, fullAngleDeg, width, edgeWidth, numPts)[i + 1],
                           TroughRadius(t, fullAngleDeg, width))
  {
    var rad, arc := TroughRadius(t, fullAngleDeg, width), TroughArc(t, fullAngleDeg, numPts);
    TroughShapeArc(t, fullAngleDeg, width, edgeWidth, numPts, i + 1);
    CirclePointOnCircle(rad, arc[i], t);
  }
}
