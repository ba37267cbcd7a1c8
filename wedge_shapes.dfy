/** The vertex assembly of gen_key_shape and gen_wedge_shape (spoof_wedge_game.py):
    a rounded rectangle built from one circle of 4*cornerPts+5 samples, cut into
    four overlapping quarters, each shifted out to one corner of the rectangle.
    The wedge shape bends that outline around the circle of radius task_rad. */
module WedgeShapes {
  import opened ArrayMath

  /** The number of samples on the corner circle (num_circ_points). */
  function CircleCount(cornerPts: nat): nat
  {
    4 * cornerPts + 5
  }

  /** The length of one quarter of the outline (qts). */
  function QuarterLength(cornerPts: nat): nat
  {
    cornerPts + 2
  }

  /** The circle sample that outline slot j copies: slot j lies in quarter
      j / qts, and quarter k reads the circle from k*qts - k on. */
  function SourceIndex(j: nat, qts: nat): (s: int)
    requires qts > 0
  {
    j - j / qts
  }

  /** Quarter k of the outline: slots k*qts up to (k+1)*qts. */
  lemma QuarterOf(j: nat, qts: nat, k: nat)
    requires qts > 0 && k * qts <= j < k * qts + qts
    ensures j / qts == k
  {
    var q := j / qts;
    assert q * qts <= j < q * qts + qts;
    if q < k {
      MulMonotone(q + 1, k, qts);
    } else if k < q {
      MulMonotone(k + 1, q, qts);
    }
  }

  lemma MulMonotone(a: nat, b: nat, c: nat)
    requires a <= b
    ensures a * c <= b * c
  {
  }

  /** Every circle sample the outline reads exists: the slots of the 4*qts long
      outline read circle indices 0 through 4*qts-4 = 4*cornerPts+4, the last
      circle sample. */
  lemma SourceIndexInBounds(j: nat, cornerPts: nat)
    requires j < 4 * QuarterLength(cornerPts)
    ensures 0 <= SourceIndex(j, QuarterLength(cornerPts)) < CircleCount(cornerPts)
    ensures j == 4 * QuarterLength(cornerPts) - 1
            ==> SourceIndex(j, QuarterLength(cornerPts)) == CircleCount(cornerPts) - 1
  {
    var qts := QuarterLength(cornerPts);
    var k := j / qts;
    assert k * qts <= j;
    if j == 4 * qts - 1 {
      QuarterOf(j, qts, 3);
    }
  }

  /** Consecutive quarters share an endpoint: the last slot of quarter k-1 and
      the first slot of quarter k copy the same circle sample, k*(qts-1). */
  lemma QuartersShareEndpoints(qts: nat, k: nat)
    requires qts > 0 && 1 <= k <= 3
    ensures SourceIndex(k * qts - 1, qts) == SourceIndex(k * qts, qts) == k * (qts - 1)
  {
    QuarterOf(k * qts - 1, qts, k - 1);
    QuarterOf(k * qts, qts, k);
  }

  /** The x and y offsets of the four quarters, in order: the corners
      (+w/2, +h/2), (-w/2, +h/2), (-w/2, -h/2) and (+w/2, -h/2). */
  function XOffsets(width: real): (o: seq<real>)
    ensures |o| == 4
  {
    [0.5 * width, -0.5 * width, -0.5 * width, 0.5 * width]
  }

  function YOffsets(height: real): (o: seq<real>)
    ensures |o| == 4
  {
    [0.5 * height, 0.5 * height, -0.5 * height, -0.5 * height]
  }

  /** The outline the four slice assignments build from the circle samples c:
      quarter k (slots k*qts up to (k+1)*qts) holds the samples from k*qts-k on,
      shifted by offsets[k]. */
  function Outline(c: seq<real>, qts: nat, offsets: seq<real>): (r: seq<real>)
    requires |c| == 4 * qts - 3 && |offsets| == 4
    ensures |r| == 4 * qts
  {
    seq(4 * qts, j requires 0 <= j < 4 * qts =>
      if j < qts then c[j] + offsets[0]
      else if j < 2 * qts then c[j - 1] + offsets[1]
      else if j < 3 * qts then c[j - 2] + offsets[2]
      else c[j - 3] + offsets[3])
  }

  /** The four slices in one formula: slot j holds circle sample SourceIndex(j)
      shifted by the offset of its quarter j / qts. */
  lemma OutlineAt(c: seq<real>, qts: nat, offsets: seq<real>, j: nat)
    requires qts > 0 && |c| == 4 * qts - 3 && |offsets| == 4 && j < 4 * qts
    ensures 0 <= SourceIndex(j, qts) < |c| && j / qts < 4
    ensures Outline(c, qts, offsets)[j] == c[SourceIndex(j, qts)] + offsets[j / qts]
  {
    if j < qts {
      QuarterOf(j, qts, 0);
    } else if j < 2 * qts {
      QuarterOf(j, qts, 1);
    } else if j < 3 * qts {
      QuarterOf(j, qts, 2);
    } else {
      QuarterOf(j, qts, 3);
    }
  }

  /** The four slice assignments of gen_key_shape for one coordinate: a zeroed
      array of 4*cornerPts+8 = 4*qts entries, quarter k set from the circle
      samples c[k*qts-k .. (k+1)*qts-k] plus offsets[k]. */
  method AssembleQuarters(c: seq<real>, cornerPts: nat, offsets: seq<real>) returns (a: array<real>)
    requires |c| == CircleCount(cornerPts) && |offsets| == 4
    ensures fresh(a)
    ensures a[..] == Outline(c, QuarterLength(cornerPts), offsets)
  {
    var qts := QuarterLength(cornerPts);
    a := new real[CircleCount(cornerPts) + 3](_ => 0.0);
    forall j | 0 <= j < qts {
      a[j] := c[j] + offsets[0];
    }
    forall j | qts <= j < 2 * qts {
      a[j] := c[j - 1] + offsets[1];
    }
    forall j | 2 * qts <= j < 3 * qts {
      a[j] := c[j - 2] + offsets[2];
    }
    forall j | 3 * qts <= j < 4 * qts {
      a[j] := c[j - 3] + offsets[3];
    }
  }

  /** The circle the corners are cut from: cornerRad*cos and cornerRad*sin of
      np.linspace(0, 2*pi, 4*cornerPts+5). */
  function CircleXs(t: Trig, cornerRad: real, cornerPts: nat): (r: seq<real>)
    ensures |r| == CircleCount(cornerPts)
  {
    var angles := Linspace(0.0, 2.0 * t.pi, CircleCount(cornerPts));
    seq(|angles|, i requires 0 <= i < |angles| => cornerRad * t.cos(angles[i]))
  }

  function CircleYs(t: Trig, cornerRad: real, cornerPts: nat): (r: seq<real>)
    ensures |r| == CircleCount(cornerPts)
  {
    var angles := Linspace(0.0, 2.0 * t.pi, CircleCount(cornerPts));
    seq(|angles|, i requires 0 <= i < |angles| => cornerRad * t.sin(angles[i]))
  }

  /** Quarter k's arc runs over exactly one right angle of the circle: its first
      sample sits at angle k*pi/2 and its last at (k+1)*pi/2. */
  lemma QuarterSpansRightAngle(t: Trig, cornerPts: nat, k: nat)
    requires k <= 4
    ensures var angles := Linspace(0.0, 2.0 * t.pi, CircleCount(cornerPts));
            angles[k * (QuarterLength(cornerPts) - 1)] == (k as real) * t.pi / 2.0
  {
    var n := CircleCount(cornerPts);
    var i := k * (cornerPts + 1);
    assert n - 1 == 4 * (cornerPts + 1);
    var p := (cornerPts + 1) as real;
    calc {
      LinspaceAt(0.0, 2.0 * t.pi, n, i);
      0.0 + (2.0 * t.pi - 0.0) * (i as real) / ((n - 1) as real);
      { assert (i as real) == (k as real) * p; assert ((n - 1) as real) == 4.0 * p; }
      2.0 * t.pi * ((k as real) * p) / (4.0 * p);
      (k as real) * t.pi / 2.0;
    }
  }

  /** gen_key_shape: the rounded rectangle's vertex columns xs and ys. */
  method KeyShape(t: Trig, width: real, height: real, cornerRad: real, cornerPts: nat)
    returns (xs: array<real>, ys: array<real>)
    ensures fresh(xs) && fresh(ys) && xs != ys
    ensures xs[..] == Outline(CircleXs(t, cornerRad, cornerPts), QuarterLength(cornerPts), XOffsets(width))
    ensures ys[..] == Outline(CircleYs(t, cornerRad, cornerPts), QuarterLength(cornerPts), YOffsets(height))
  {
    var cxs := CircleXs(t, cornerRad, cornerPts);
    var cys := CircleYs(t, cornerRad, cornerPts);
    xs := AssembleQuarters(cxs, cornerPts, XOffsets(width));
    ys := AssembleQuarters(cys, cornerPts, YOffsets(height));
  }

  /** The outline closes: its first slot reads the circle at angle 0 and its
      last slot at angle 2*pi, and both carry the first corner's offset, so with
      cos(0) == cos(2*pi) the first and last x coincide. */
  lemma OutlineCloses(t: Trig, width: real, cornerRad: real, cornerPts: nat)
    requires t.cos(0.0) == t.cos(2.0 * t.pi)
    ensures var xs := Outline(CircleXs(t, cornerRad, cornerPts), QuarterLength(cornerPts), XOffsets(width));
            xs[|xs| - 1] == xs[0]
  {
  }

  /** The wedge's bend: every x is scaled by y/taskRad + 1, y is kept. */
  function Bend(x: real, y: real, taskRad: real): real
    requires taskRad != 0.0
  {
    x * (y / taskRad + 1.0)
  }

  /** gen_wedge_shape: the key outline with every x bent by its own y. */
  method WedgeShape(t: Trig, taskRad: real, width: real, height: real, cornerRad: real, cornerPts: nat)
    returns (vx: array<real>, vy: array<real>)
    requires taskRad != 0.0
    ensures fresh(vx) && fresh(vy) && vx != vy
    ensures vy[..] == Outline(CircleYs(t, cornerRad, cornerPts), QuarterLength(cornerPts), YOffsets(height))
    ensures vx.Length == vy.Length
    ensures forall j :: 0 <= j < vx.Length ==>
              vx[j] == Bend(Outline(CircleXs(t, cornerRad, cornerPts), QuarterLength(cornerPts), XOffsets(width))[j],
                            vy[j], taskRad)
  {
    var xs, ys := KeyShape(t, width, height, cornerRad, cornerPts);
    vx := new real[xs.Length];
    forall j | 0 <= j < vx.Length {
      vx[j] := Bend(xs[j], ys[j], taskRad);
    }
    vy := ys;
  }

  /** What the bend does to the outline: on the shape's centre line y = 0 x is
      kept, so the shape keeps its width there, and toward y = -taskRad (the
      centre of the circle the wedge moves on, in the shape's own frame) x
      shrinks linearly to 0, so the rectangle's sides point at that centre and
      it becomes a wedge. */
  lemma BendFixesAxis(x: real, taskRad: real)
    requires taskRad != 0.0
    ensures Bend(x, 0.0, taskRad) == x
    ensures Bend(x, -taskRad, taskRad) == 0.0
  {
  }
}
