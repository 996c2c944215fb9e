/** The viewer's conversions between voxel indices and the millimetre
    values it displays. The display frame is LPS (as in 3D Slicer): the
    R and A coordinates of the RAS frame are shown negated, S as it is.
    Arithmetic is exact over the reals. */
module Coords {
  import opened NiftiTypes

  /** The sign change between RAS and the LPS display frame along `axis`:
      axes 0 (R) and 1 (A) are negated. It is its own inverse. */
  function Lps(axis: Axis, x: real): real {
    if axis < 2 then -x else x
  }

  lemma LpsInvolution(axis: Axis, x: real)
    ensures Lps(axis, Lps(axis, x)) == x
  {
  }

  /** Distances are the same in both frames. */
  lemma LpsDistance(axis: Axis, a: real, b: real)
    ensures Abs(Lps(axis, a) - b) == Abs(a - Lps(axis, b))
  {
  }

  /** Rust's `round`: the nearest integer, halves rounded away from zero. */
  function Round(x: real): (n: int)
    ensures x >= 0.0 ==> n as real - 0.5 <= x < n as real + 0.5
    ensures x < 0.0 ==> n as real - 0.5 < x <= n as real + 0.5
  {
    if x >= 0.0 then (x + 0.5).Floor else -(0.5 - x).Floor
  }

  lemma RoundOfInteger(k: int)
    ensures Round(k as real) == k
  {
  }

  /** No integer is nearer to x than Round(x). */
  lemma RoundIsNearest(x: real, k: int)
    ensures Abs(Round(x) as real - x) <= Abs(k as real - x)
  {
    var n := Round(x);
    assert Abs(n as real - x) <= 0.5;
    if k > n {
      assert k as real - x >= 0.5;
    } else if k < n {
      assert x - k as real >= 0.5;
    }
  }

  /** Rust's `Ord::clamp` (which panics when lo > hi). */
  function Clamp(v: int, lo: int, hi: int): (r: int)
    requires lo <= hi
    ensures lo <= r <= hi
    ensures lo <= v <= hi ==> r == v
  {
    if v < lo then lo else if v > hi then hi else v
  }

  /** Clamping the nearest integer into [lo, hi] yields the integer of
      [lo, hi] nearest to x. */
  lemma ClampedRoundIsNearest(x: real, lo: int, hi: int, k: int)
    requires lo <= k <= hi
    ensures Abs(Clamp(Round(x), lo, hi) as real - x) <= Abs(k as real - x)
  {
    var n := Round(x);
    if n < lo {
      assert x < lo as real;
    } else if n > hi {
      assert x > hi as real;
    } else {
      RoundIsNearest(x, k);
    }
  }

  /** voxel_to_mm: the display coordinate of voxel `idx` along `axis`, for
      a grid whose voxel (0,0,0) lies at `origin` with spacings `voxdim`. */
  function VoxelToMm(origin: Vec3, voxdim: Vec3, axis: Axis, idx: int): real {
    Position(origin, voxdim, axis, idx as real)
  }

  /** The display coordinate of the (fractional) index t along `axis`. */
  function Position(origin: Vec3, voxdim: Vec3, axis: Axis, t: real): real {
    Lps(axis, origin[axis] + t * voxdim[axis])
  }

  /** mm_to_voxel: the voxel index along `axis` (of length n) nearest to the
      display coordinate `mm`. The quotient is rounded and clamped into
      [0, n - 1]. With a zero spacing the f32 quotient is +inf, -inf or NaN,
      which the saturating cast and the clamp turn into n - 1, 0 and 0. */
  function MmToVoxel(origin: Vec3, voxdim: Vec3, n: int, axis: Axis, mm: real): (idx: int)
    requires n >= 1
    ensures 0 <= idx < n
  {
    var d := Lps(axis, mm) - origin[axis];
    if voxdim[axis] == 0.0 then
      (if d > 0.0 then n - 1 else 0)
    else
      Clamp(Round(d / voxdim[axis]), 0, n - 1)
  }

  /** With a non-zero spacing, converting a voxel index to millimetres and
      back yields the index again. */
  lemma MmToVoxelRoundTrip(origin: Vec3, voxdim: Vec3, n: int, axis: Axis, i: int)
    requires n >= 1 && voxdim[axis] != 0.0 && 0 <= i < n
    ensures MmToVoxel(origin, voxdim, n, axis, VoxelToMm(origin, voxdim, axis, i)) == i
  {
    var o, v, x := origin[axis], voxdim[axis], i as real;
    var mm := VoxelToMm(origin, voxdim, axis, i);
    var d := Lps(axis, mm) - o;
    assert d == x * v by {
      LpsInvolution(axis, o + x * v);
    }
    assert x == d / v;
    MmToVoxelRounds(origin, voxdim, n, axis, mm, x);
    RoundOfInteger(i);
  }

  /** mm_to_voxel picks the voxel whose display coordinate is nearest to
      `mm` among all voxels of the axis. */
  lemma MmToVoxelNearest(origin: Vec3, voxdim: Vec3, n: int, axis: Axis, mm: real, k: int)
    requires n >= 1 && 0 <= k < n
    ensures
      var idx := MmToVoxel(origin, voxdim, n, axis, mm);
      Abs(VoxelToMm(origin, voxdim, axis, idx) - mm) <= Abs(VoxelToMm(origin, voxdim, axis, k) - mm)
  {
    var idx := MmToVoxel(origin, voxdim, n, axis, mm);
    if voxdim[axis] == 0.0 {
      ZeroSpacingPosition(origin, voxdim, axis, idx);
      ZeroSpacingPosition(origin, voxdim, axis, k);
    } else {
      var o, v, m := origin[axis], voxdim[axis], Lps(axis, mm);
      var x := (m - o) / v;
      assert Abs(idx as real - x) <= Abs(k as real - x) by {
        MmToVoxelRounds(origin, voxdim, n, axis, mm, x);
        ClampedRoundIsNearest(x, 0, n - 1, k);
      }
      NearerIndex(origin, voxdim, axis, mm, o, v, m, x, idx as real, k as real);
    }
  }

  /** With a zero spacing every voxel of the axis shows the same coordinate. */
  lemma ZeroSpacingPosition(origin: Vec3, voxdim: Vec3, axis: Axis, i: int)
    requires voxdim[axis] == 0.0
    ensures VoxelToMm(origin, voxdim, axis, i) == Lps(axis, origin[axis])
  {
  }

  /** An index nearer to the fractional index x of `mm` lands nearer to
      `mm`; o, v and m name the origin, the spacing and the RAS value of
      `mm` on this axis. */
  lemma NearerIndex(origin: Vec3, voxdim: Vec3, axis: Axis, mm: real, o: real, v: real, m: real, x: real, s: real, t: real)
    requires o == origin[axis] && v == voxdim[axis] && m == Lps(axis, mm)
    requires v != 0.0 && x == (m - o) / v
    requires Abs(s - x) <= Abs(t - x)
    ensures Abs(Position(origin, voxdim, axis, s) - mm) <= Abs(Position(origin, voxdim, axis, t) - mm)
  {
    NearestByDistance(o, v, m, x, s, t);
    PositionDistance(origin, voxdim, axis, mm, o, v, m, s);
    PositionDistance(origin, voxdim, axis, mm, o, v, m, t);
  }

  /** With a non-zero spacing, mm_to_voxel is the clamped rounding of the
      fractional index x. */
  lemma MmToVoxelRounds(origin: Vec3, voxdim: Vec3, n: int, axis: Axis, mm: real, x: real)
    requires n >= 1 && voxdim[axis] != 0.0 && x == (Lps(axis, mm) - origin[axis]) / voxdim[axis]
    ensures MmToVoxel(origin, voxdim, n, axis, mm) == Clamp(Round(x), 0, n - 1)
  {
  }

  /** On one axis, with x the fractional index of m (o + x·v == m), an
      index nearer to x lands nearer to m. */
  lemma NearestByDistance(o: real, v: real, m: real, x: real, s: real, t: real)
    requires v != 0.0 && x == (m - o) / v
    requires Abs(s - x) <= Abs(t - x)
    ensures Abs(o + s * v - m) <= Abs(o + t * v - m)
  {
    var c, a, b := Abs(v), Abs(s - x), Abs(t - x);
    var ca, cb := c * a, c * b;
    assert Abs(o + s * v - m) == ca by {
      ScaledOffset(o, v, m, x, s);
    }
    assert Abs(o + t * v - m) == cb by {
      ScaledOffset(o, v, m, x, t);
    }
    assert ca <= cb by {
      ScaleLe(c, a, b);
    }
  }

  /** The display distance from index t to `mm`, measured in RAS; o, v and
      m name the origin, the spacing and the RAS value of `mm` on this axis. */
  lemma PositionDistance(origin: Vec3, voxdim: Vec3, axis: Axis, mm: real, o: real, v: real, m: real, t: real)
    requires o == origin[axis] && v == voxdim[axis] && m == Lps(axis, mm)
    ensures Abs(Position(origin, voxdim, axis, t) - mm) == Abs(o + t * v - m)
  {
    LpsDistance(axis, o + t * v, mm);
  }

  /** |o + t·v - m| == |v|·|t - x| when x == (m - o) / v. */
  lemma ScaledOffset(o: real, v: real, m: real, x: real, t: real)
    requires v != 0.0 && x == (m - o) / v
    ensures Abs(o + t * v - m) == Abs(v) * Abs(t - x)
  {
    var d, u := o + t * v - m, t - x;
    assert d == u * v by {
      assert x * v == m - o;
    }
    AbsOfProduct(d, u, v);
  }

  lemma AbsOfProduct(d: real, a: real, b: real)
    requires d == a * b
    ensures Abs(d) == Abs(b) * Abs(a)
  {
    if a < 0.0 && b < 0.0 {
      assert d == (-a) * (-b);
    } else if a < 0.0 {
      assert Abs(d) == (-a) * b;
    } else if b < 0.0 {
      assert Abs(d) == a * (-b);
    }
  }

  lemma ScaleLe(c: real, a: real, b: real)
    requires c >= 0.0 && a <= b
    ensures c * a <= c * b
  {
    assert c * b - c * a == c * (b - a);
  }

  /** Neighbouring voxels lie one spacing apart on the display axis, in the
      negated direction for R and A. */
  lemma VoxelToMmStep(origin: Vec3, voxdim: Vec3, axis: Axis, idx: int)
    ensures VoxelToMm(origin, voxdim, axis, idx + 1) - VoxelToMm(origin, voxdim, axis, idx)
         == Lps(axis, voxdim[axis])
  {
    assert (idx + 1) as real * voxdim[axis] == idx as real * voxdim[axis] + voxdim[axis];
  }
}
