/** The warp-grid script map_perspective.py: a 100 x 60 lattice over the
    screen, flattened in meshgrid order, lifted to homogeneous coordinates,
    multiplied by a 3 x 3 perspective matrix, divided by its third component
    column by column in place, and laid out as a 6000 x 5 table of source
    point, warped point and a constant 1. The matrix comes from a solver that
    is not part of this model, so it is a parameter; the table is returned
    rather than written to a file. */
module MapPerspective {
  import opened ArrayMath

  /** screen_w and screen_h: half the screen's width and height in height units. */
  const ScreenW: real := 16.0 / 9.0
  const ScreenH: real := 1.0
  const XGridPts: nat := 100
  const YGridPts: nat := 60
  const NumPoints: nat := 6000

  /** full_screen and perspective_screen: four corners each, in the same order. */
  const FullScreen: seq<(real, real)> :=
    [(-ScreenW, -ScreenH), (-ScreenW, ScreenH), (ScreenW, ScreenH), (ScreenW, -ScreenH)]
  const PerspectiveScreen: seq<(real, real)> :=
    [(-0.25, 0.0), (-0.75, 1.0), (1.75, 1.0), (1.25, 0.0)]

  /** x_pts and y_pts. */
  function XPts(): (r: seq<real>)
    ensures |r| == XGridPts && r[0] == -ScreenW && r[XGridPts - 1] == ScreenW
  {
    Linspace(-ScreenW, ScreenW, XGridPts)
  }

  function YPts(): (r: seq<real>)
    ensures |r| == YGridPts && r[0] == -ScreenH && r[YGridPts - 1] == ScreenH
  {
    Linspace(-ScreenH, ScreenH, YGridPts)
  }

  /** A 3 x 3 matrix, as a sequence of rows. */
  predicate IsMat3(m: seq<seq<real>>)
  {
    |m| == 3 && forall r :: 0 <= r < 3 ==> |m[r]| == 3
  }

  /** Row r of the matrix applied to the column (x, y, w). */
  function RowTimes(m: seq<seq<real>>, r: nat, x: real, y: real, w: real): real
    requires IsMat3(m) && r < 3
  {
    m[r][0] * x + m[r][1] * y + m[r][2] * w
  }

  /** M * [x, y, 1]. */
  function Hom(m: seq<seq<real>>, p: (real, real)): (real, real, real)
    requires IsMat3(m)
  {
    (RowTimes(m, 0, p.0, p.1, 1.0), RowTimes(m, 1, p.0, p.1, 1.0), RowTimes(m, 2, p.0, p.1, 1.0))
  }

  /** The perspective image of p: the first two components of M * [x, y, 1]
      divided by the third. */
  function Project(m: seq<seq<real>>, p: (real, real)): (real, real)
    requires IsMat3(m) && Hom(m, p).2 != 0.0
  {
    var h := Hom(m, p);
    (h.0 / h.2, h.1 / h.2)
  }

  /** M maps the four corners src onto the four corners dst, in order. */
  predicate MapsTo(m: seq<seq<real>>, src: seq<(real, real)>, dst: seq<(real, real)>)
    requires IsMat3(m) && |src| == 4 && |dst| == 4
  {
    forall i :: 0 <= i < 4 ==> Hom(m, src[i]).2 != 0.0 && Project(m, src[i]) == dst[i]
  }

  /** Lattice point k in the flat meshgrid order: x varies fastest. */
  function LatticePoint(k: nat): (real, real)
    requires k < NumPoints
  {
    (XPts()[k % XGridPts], YPts()[k / XGridPts])
  }

  /** No lattice point is sent to infinity by M. */
  predicate DividesEverywhere(m: seq<seq<real>>)
    requires IsMat3(m)
  {
    forall k: nat :: k < NumPoints ==> Hom(m, LatticePoint(k)).2 != 0.0
  }

  /** Flat row i*100 + j of the meshgrid is x_pts[j] with y_pts[i]. */
  lemma FlatOrder(i: nat, j: nat)
    requires i < YGridPts && j < XGridPts
    ensures i * XGridPts + j < NumPoints
    ensures LatticePoint(i * XGridPts + j) == (XPts()[j], YPts()[i])
  {
    var k := i * XGridPts + j;
    assert k / XGridPts == i && k % XGridPts == j;
  }

  /** The lattice's four corner rows are the screen's corners. */
  lemma LatticeCorners()
    ensures LatticePoint(0) == FullScreen[0]
    ensures LatticePoint(XGridPts - 1) == FullScreen[3]
    ensures LatticePoint(NumPoints - XGridPts) == FullScreen[1]
    ensures LatticePoint(NumPoints - 1) == FullScreen[2]
  {
    FlatOrder(0, 0);
    FlatOrder(0, XGridPts - 1);
    FlatOrder(YGridPts - 1, 0);
    FlatOrder(YGridPts - 1, XGridPts - 1);
  }

  /** With the matrix the solver is expected to return, the warped corner rows
      are the corners of the perspective screen. */
  lemma CornerRowsWarp(m: seq<seq<real>>)
    requires IsMat3(m) && MapsTo(m, FullScreen, PerspectiveScreen)
    ensures Hom(m, LatticePoint(0)).2 != 0.0 && Project(m, LatticePoint(0)) == PerspectiveScreen[0]
    ensures Hom(m, LatticePoint(99)).2 != 0.0 && Project(m, LatticePoint(99)) == PerspectiveScreen[3]
    ensures Hom(m, LatticePoint(5900)).2 != 0.0 && Project(m, LatticePoint(5900)) == PerspectiveScreen[1]
    ensures Hom(m, LatticePoint(5999)).2 != 0.0 && Project(m, LatticePoint(5999)) == PerspectiveScreen[2]
  {
    LatticeCorners();
  }

  lemma DivideSelf(x: real)
    requires x != 0.0
    ensures x / x == 1.0
  {
  }

  /** The loop over res_mat's columns: each column in turn is divided by the
      last column as it stands at that moment. Columns 0 and 1 are divided by
      the original third components; the last column, divided by itself, is 1. */
  method DivideByLast(res: array2<real>)
    requires res.Length1 == 3
    requires forall k :: 0 <= k < res.Length0 ==> res[k, 2] != 0.0
    modifies res
    ensures forall k :: 0 <= k < res.Length0 ==>
              && res[k, 0] == old(res[k, 0]) / old(res[k, 2])
              && res[k, 1] == old(res[k, 1]) / old(res[k, 2])
              && res[k, 2] == 1.0
  {
    for col := 0 to res.Length1
      invariant forall k, c :: 0 <= k < res.Length0 && 0 <= c < col ==>
                  res[k, c] == old(res[k, c]) / old(res[k, 2])
      invariant forall k, c :: 0 <= k < res.Length0 && col <= c < 3 ==> res[k, c] == old(res[k, c])
    {
      forall k | 0 <= k < res.Length0 {
        res[k, col] := res[k, col] / res[k, 2];
      }
    }
    forall k | 0 <= k < res.Length0
      ensures res[k, 2] == 1.0
    {
      DivideSelf(old(res[k, 2]));
    }
  }

  /** np.meshgrid(x_pts, y_pts): 60 rows of x_pts, and y_pts repeated along each row. */
  method MeshGrid() returns (gridX: array2<real>, gridY: array2<real>)
    ensures fresh(gridX) && fresh(gridY) && gridX != gridY
    ensures gridX.Length0 == YGridPts && gridX.Length1 == XGridPts
    ensures gridY.Length0 == YGridPts && gridY.Length1 == XGridPts
    ensures forall i, j :: 0 <= i < YGridPts && 0 <= j < XGridPts ==>
              gridX[i, j] == XPts()[j] && gridY[i, j] == YPts()[i]
  {
    var xPts := XPts();
    var yPts := YPts();
    gridX := new real[YGridPts, XGridPts]((_, j) => if 0 <= j < XGridPts then xPts[j] else 0.0);
    gridY := new real[YGridPts, XGridPts]((i, _) => if 0 <= i < YGridPts then yPts[i] else 0.0);
  }

  /** The lattice as a table of points: both grids flattened row by row and
      zipped into one point per row. */
  method LatticeTable() returns (xy: array2<real>)
    ensures fresh(xy)
    ensures xy.Length0 == NumPoints && xy.Length1 == 2
    ensures forall k :: 0 <= k < NumPoints ==> (xy[k, 0], xy[k, 1]) == LatticePoint(k)
  {
    var gridX, gridY := MeshGrid();
    xy := new real[NumPoints, 2];
    forall k | 0 <= k < NumPoints {
      xy[k, 0] := gridX[k / XGridPts, k % XGridPts];
    }
    forall k | 0 <= k < NumPoints {
      xy[k, 1] := gridY[k / XGridPts, k % XGridPts];
    }
  }

  /** The homogeneous multiply: a matrix of ones with the points in its first
      two columns, multiplied by M as (M * xyMat^T)^T. */
  method WarpRows(m: seq<seq<real>>, xy: array2<real>) returns (res: array2<real>)
    requires IsMat3(m) && xy.Length1 == 2
    ensures fresh(res) && res.Length0 == xy.Length0 && res.Length1 == 3
    ensures forall k, r :: 0 <= k < xy.Length0 && 0 <= r < 3 ==>
              res[k, r] == RowTimes(m, r, xy[k, 0], xy[k, 1], 1.0)
  {
    var xyMat := new real[xy.Length0, 3]((_, _) => 1.0);
    forall k | 0 <= k < xy.Length0 {
      xyMat[k, 0] := xy[k, 0];
    }
    forall k | 0 <= k < xy.Length0 {
      xyMat[k, 1] := xy[k, 1];
    }
    res := new real[xy.Length0, 3];
    forall k, r | 0 <= k < xy.Length0 && 0 <= r < 3 {
      res[k, r] := RowTimes(m, r, xyMat[k, 0], xyMat[k, 1], xyMat[k, 2]);
    }
  }

  /** out_mat: a table of ones with the points in columns 0-1 and the warped
      points (res_mat without its last column) in columns 2-3. */
  method Layout(xy: array2<real>, res: array2<real>) returns (out: array2<real>)
    requires xy.Length1 == 2 && res.Length1 == 3 && res.Length0 == xy.Length0
    ensures fresh(out)
    ensures out.Length0 == xy.Length0 && out.Length1 == 5
    ensures forall k :: 0 <= k < xy.Length0 ==>
              && out[k, 0] == xy[k, 0] && out[k, 1] == xy[k, 1]
              && out[k, 2] == res[k, 0] && out[k, 3] == res[k, 1]
              && out[k, 4] == 1.0
  {
    out := new real[xy.Length0, 5]((_, _) => 1.0);
    forall k | 0 <= k < xy.Length0 {
      out[k, 0] := xy[k, 0];
    }
    forall k | 0 <= k < xy.Length0 {
      out[k, 1] := xy[k, 1];
    }
    forall k | 0 <= k < xy.Length0 {
      out[k, 2] := res[k, 0];
    }
    forall k | 0 <= k < xy.Length0 {
      out[k, 3] := res[k, 1];
    }
  }

  /** The whole script: row k of the table holds lattice point k, its
      perspective image and a 1. */
  method BuildWarpGrid(m: seq<seq<real>>) returns (out: array2<real>)
    requires IsMat3(m) && DividesEverywhere(m)
    ensures fresh(out)
    ensures out.Length0 == NumPoints && out.Length1 == 5
    ensures forall k :: 0 <= k < NumPoints ==>
              && (out[k, 0], out[k, 1]) == LatticePoint(k)
              && (out[k, 2], out[k, 3]) == Project(m, LatticePoint(k))
              && out[k, 4] == 1.0
  {
    var xy := LatticeTable();
    var res := WarpRows(m, xy);
    DivideByLast(res);
    out := Layout(xy, res);
  }
}
