/** Numeric building blocks shared by the three programs: the NumPy helpers they
    call (linspace, the slice [1:-1], reversal, roll), written over exact reals,
    and the floating-point maths library (sin, cos, sqrt, pi) taken as given,
    uninterpreted inputs. */
module ArrayMath {

  /** The maths library the programs call. Nothing is assumed about these
      functions; a lemma that needs an identity takes it as a premise. */
  datatype Trig = Trig(sin: real -> real, cos: real -> real, sqrt: real -> real, pi: real)

  /** np.deg2rad: degrees to radians, with the library's value of pi. */
  function Deg2Rad(t: Trig, deg: real): real
  {
    deg * t.pi / 180.0
  }

  /** A point on an arc of radius rad at angle a (radians), lifted from height y:
      the course outline and the marble both lie on the trough circle this way. */
  function ArcVertex(y: real, a: real, rad: real, t: Trig): (real, real)
  {
    (rad * t.sin(a), y + rad * (1.0 - t.cos(a)))
  }

  /** The identity sin^2 + cos^2 = 1 at one argument. */
  predicate Pythagorean(t: Trig, x: real)
  {
    t.sin(x) * t.sin(x) + t.cos(x) * t.cos(x) == 1.0
  }

  /** np.sqrt never returns a negative number. */
  ghost predicate SqrtNonNegative(t: Trig)
  {
    forall x :: 0.0 <= t.sqrt(x)
  }

  /** Element i of np.linspace(a, b, n) for n >= 2. */
  function LinspaceAt(a: real, b: real, n: nat, i: nat): real
    requires n >= 2
  {
    a + (b - a) * (i as real) / ((n - 1) as real)
  }

  /** np.linspace(a, b, n) with its default endpoint=True: n evenly spaced
      samples that start at a and, for n >= 2, end exactly at b. */
  function Linspace(a: real, b: real, n: nat): (r: seq<real>)
    ensures |r| == n
    ensures n >= 1 ==> r[0] == a
    ensures n >= 2 ==> r[n - 1] == b
    ensures a == b ==> forall i :: 0 <= i < n ==> r[i] == a
    ensures n >= 2 ==> forall i :: 0 <= i < n ==> r[i] == LinspaceAt(a, b, n, i)
  {
    if n == 0 then []
    else if n == 1 then [a]
    else
      var r := seq(n, i requires 0 <= i < n => LinspaceAt(a, b, n, i));
      DivCancel(b - a, (n - 1) as real);
      r
  }

  /** Every sample of a linspace lies between its two ends. */
  lemma LinspaceBetween(a: real, b: real, n: nat, i: nat)
    requires i < n
    ensures a <= b ==> a <= Linspace(a, b, n)[i] <= b
    ensures b <= a ==> b <= Linspace(a, b, n)[i] <= a
  {
    if n >= 2 {
      var f := (i as real) / ((n - 1) as real);
      DivUnit(i as real, (n - 1) as real);
      assert (b - a) * (i as real) / ((n - 1) as real) == (b - a) * f;
      assert Linspace(a, b, n)[i] == a + (b - a) * f;
      var g := 1.0 - f;
      assert (b - a) * f + (b - a) * g == b - a;
      if a <= b {
        MulNonNegative(b - a, f);
        MulNonNegative(b - a, g);
      } else {
        MulNonNegative(a - b, f);
        MulNonNegative(a - b, g);
      }
    }
  }

  lemma DivUnit(x: real, d: real)
    requires 0.0 <= x <= d && 0.0 < d
    ensures 0.0 <= x / d <= 1.0
  {
  }

  lemma DivCancel(x: real, d: real)
    requires d != 0.0
    ensures x * d / d == x
  {
  }

  lemma MulNonNegative(x: real, y: real)
    requires 0.0 <= x && 0.0 <= y
    ensures 0.0 <= x * y
  {
  }

  lemma MulNonZero(x: real, y: real)
    requires x != 0.0 && y != 0.0
    ensures x * y != 0.0
  {
  }

  /** Python's slice s[1:-1]: all but the first and the last element (empty
      when s has fewer than two). */
  function Interior<T>(s: seq<T>): (r: seq<T>)
    ensures |r| == if |s| >= 2 then |s| - 2 else 0
    ensures forall i :: 0 <= i < |r| ==> r[i] == s[i + 1]
  {
    if |s| >= 2 then s[1..|s| - 1] else []
  }

  /** Python's s[::-1]. */
  function Reverse<T>(s: seq<T>): (r: seq<T>)
    ensures |r| == |s|
    ensures forall i :: 0 <= i < |s| ==> r[i] == s[|s| - 1 - i]
  {
    if s == [] then [] else Reverse(s[1..]) + [s[0]]
  }

  /** np.roll(s, 1): every element moves one place right, the last wraps to the front. */
  function RollRight<T>(s: seq<T>): (r: seq<T>)
    ensures |r| == |s|
    ensures |s| > 0 ==> r[0] == s[|s| - 1]
    ensures forall i :: 0 <= i < |s| - 1 ==> r[i + 1] == s[i]
  {
    if s == [] then [] else [s[|s| - 1]] + s[..|s| - 1]
  }

  /** Every element is smaller than every later one. */
  predicate StrictlyIncreasing(s: seq<real>)
  {
    forall i, j :: 0 <= i < j < |s| ==> s[i] < s[j]
  }

  /** Sum of a sequence, first element first. */
  function Sum(s: seq<real>): real
  {
    if s == [] then 0.0 else s[0] + Sum(s[1..])
  }
}
