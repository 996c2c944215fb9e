/** Value types shared by the reorientation pipeline and the viewer:
    fixed-size vectors and matrices over exact reals (standing in for the
    source's f32), the decoded NIfTI-1 header fields the core reads, and the
    dense three-dimensional intensity grid. */
module NiftiTypes {

  /** One of the three grid / world axes: 0 = R, 1 = A, 2 = S in the RAS frame. */
  type Axis = a: nat | a < 3

  type Vec3 = v: seq<real> | |v| == 3 witness [0.0, 0.0, 0.0]
  type Vec4 = v: seq<real> | |v| == 4 witness [0.0, 0.0, 0.0, 0.0]

  /** A 3x3 matrix, row-major: m[row][col]. */
  const Zero3: Vec3 := [0.0, 0.0, 0.0]

  type Mat3 = m: seq<Vec3> | |m| == 3 witness [Zero3, Zero3, Zero3]

  /** A map from one axis to another, one entry per source axis. */
  type AxisMap = p: seq<Axis> | |p| == 3 witness [0, 1, 2]

  /** A voxel index triple, or a grid shape. */
  type Index3 = i: seq<int> | |i| == 3 witness [0, 0, 0]

  /** The fields of a NIfTI-1 header that orientation depends on.
      `pixdim` holds entries 0..3 of the header's pixdim array: entry 0 is
      the qfac sign flag, entries 1..3 the voxel spacing per grid axis. */
  datatype Header = Header(
    sformCode: int,
    qformCode: int,
    srowX: Vec4,
    srowY: Vec4,
    srowZ: Vec4,
    quaternB: real,
    quaternC: real,
    quaternD: real,
    quaternX: real,
    quaternY: real,
    quaternZ: real,
    pixdim: Vec4)

  predicate IsPermutation(p: AxisMap) {
    p[0] != p[1] && p[0] != p[2] && p[1] != p[2]
  }

  /** The position of `v` in the permutation `p`. */
  function IndexOf(p: AxisMap, v: Axis): (a: Axis)
    requires IsPermutation(p)
    ensures p[a] == v
    ensures forall b: Axis :: p[b] == v ==> b == a
  {
    if p[0] == v then 0 else if p[1] == v then 1 else 2
  }

  function Abs(x: real): real {
    if x < 0.0 then -x else x
  }

  /** `i` indexes a voxel of a grid of `shape`. */
  predicate InBox(i: Index3, shape: Index3) {
    0 <= i[0] < shape[0] && 0 <= i[1] < shape[1] && 0 <= i[2] < shape[2]
  }

  function ToReals(i: Index3): (r: Vec3)
    ensures forall a: Axis :: r[a] == i[a] as real
  {
    [i[0] as real, i[1] as real, i[2] as real]
  }

  /** The affine map x |-> m·x + t. */
  function Apply(m: Mat3, t: Vec3, x: Vec3): Vec3 {
    [ApplyRow(m, t, x, 0), ApplyRow(m, t, x, 1), ApplyRow(m, t, x, 2)]
  }

  /** Coordinate k of Apply(m, t, x). */
  function ApplyRow(m: Mat3, t: Vec3, x: Vec3, k: Axis): real {
    m[k][0] * x[0] + m[k][1] * x[1] + m[k][2] * x[2] + t[k]
  }

  /** A dense intensity grid, cells[i][j][k], in C (row-major) order. */
  datatype Grid = Grid(cells: seq<seq<seq<real>>>) {

    /** Rectangular, and every axis has at least one voxel. */
    predicate Valid() {
      && |cells| > 0 && |cells[0]| > 0 && |cells[0][0]| > 0
      && (forall i | 0 <= i < |cells| :: |cells[i]| == |cells[0]|)
      && (forall i, j | 0 <= i < |cells| && 0 <= j < |cells[i]| :: |cells[i][j]| == |cells[0][0]|)
    }

    function Shape(): (s: Index3)
      requires Valid()
      ensures forall a: Axis :: s[a] > 0
    {
      [|cells|, |cells[0]|, |cells[0][0]|]
    }

    function At(i: Index3): real
      requires Valid() && InBox(i, Shape())
    {
      cells[i[0]][i[1]][i[2]]
    }
  }

  /** The grid of shape `n` whose voxel at i is f(i). */
  function Build(n: Index3, f: Index3 --> real): (g: Grid)
    requires forall a: Axis :: n[a] > 0
    requires forall i: Index3 :: InBox(i, n) ==> f.requires(i)
    ensures g.Valid() && g.Shape() == n
    ensures forall i: Index3 | InBox(i, n) :: g.At(i) == f(i)
  {
    var g := Grid(seq(n[0], i0 requires 0 <= i0 < n[0] => BuildSlab(n, f, i0)));
    assert |g.cells[0]| == n[1] && |g.cells[0][0]| == n[2];
    forall i: Index3 | InBox(i, n) ensures g.At(i) == f(i) {
      assert i == [i[0], i[1], i[2]];
    }
    g
  }

  /** Slab i0 of Build(n, f). */
  function BuildSlab(n: Index3, f: Index3 --> real, i0: int): (s: seq<seq<real>>)
    requires forall a: Axis :: n[a] > 0
    requires forall i: Index3 :: InBox(i, n) ==> f.requires(i)
    requires 0 <= i0 < n[0]
    ensures |s| == n[1]
    ensures forall i1 | 0 <= i1 < n[1] :: |s[i1]| == n[2]
    ensures forall i1, i2 | 0 <= i1 < n[1] && 0 <= i2 < n[2] :: InBox([i0, i1, i2], n) && s[i1][i2] == f([i0, i1, i2])
  {
    seq(n[1], i1 requires 0 <= i1 < n[1] => BuildRow(n, f, i0, i1))
  }

  /** Row (i0, i1) of Build(n, f). */
  function BuildRow(n: Index3, f: Index3 --> real, i0: int, i1: int): (r: seq<real>)
    requires forall a: Axis :: n[a] > 0
    requires forall i: Index3 :: InBox(i, n) ==> f.requires(i)
    requires 0 <= i0 < n[0] && 0 <= i1 < n[1]
    ensures |r| == n[2]
    ensures forall i2 | 0 <= i2 < n[2] :: InBox([i0, i1, i2], n) && r[i2] == f([i0, i1, i2])
  {
    seq(n[2], i2 requires 0 <= i2 < n[2] => assert InBox([i0, i1, i2], n); f([i0, i1, i2]))
  }

  /** A two-dimensional cross-section, plane[u][v]. */
  type Plane = seq<seq<real>>
}

/** The usual success-or-failure wrapper for the source's `Result` returns. */
module Wrappers {
  datatype Option<+T> = None | Some(value: T)

  datatype Result<+R, +E> = Success(value: R) | Failure(error: E)
}
