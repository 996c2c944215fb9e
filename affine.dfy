/** Extraction of the voxel-to-world transform from a NIfTI-1 header:
    a 3x3 direction matrix (column c is the world displacement of one step
    along voxel axis c) and a translation (the world position of voxel
    (0,0,0)). Exactly one of three header encodings governs, in the order
    of preference of the NIfTI-1 standard: the sform affine ("method 3"),
    the qform quaternion ("method 2"), or the spacing alone ("method 1"). */
module Affine {
  import opened NiftiTypes

  datatype OrientationSource = Sform | Qform | SpacingOnly

  /** Which encoding governs: sform when sform_code > 0, else qform when
      qform_code > 0, else spacing only. */
  function SourceOf(h: Header): OrientationSource {
    if h.sformCode > 0 then Sform
    else if h.qformCode > 0 then Qform
    else SpacingOnly
  }

  /** The argument of the square root that yields the quaternion's real
      part, clamped at zero so that rounding noise never makes it negative. */
  function QuaternionRadicand(h: Header): (r: real)
    ensures r >= 0.0
    ensures r <= 1.0
  {
    var s := 1.0 - h.quaternB * h.quaternB - h.quaternC * h.quaternC - h.quaternD * h.quaternD;
    if s < 0.0 then 0.0 else s
  }

  /** `qa` is the quaternion's real part: the non-negative square root of
      the clamped radicand. Dafny's reals have no square root, so callers
      supply `qa` and this predicate says what it has to be. */
  ghost predicate IsQuaternionRealPart(h: Header, qa: real) {
    qa >= 0.0 && qa * qa == QuaternionRadicand(h)
  }

  /** The rotation matrix of the unit quaternion (a, b, c, d). */
  function Rotation(a: real, b: real, c: real, d: real): Mat3 {
    [
      [a * a + b * b - c * c - d * d, 2.0 * (b * c - a * d), 2.0 * (b * d + a * c)],
      [2.0 * (b * c + a * d), a * a + c * c - b * b - d * d, 2.0 * (c * d - a * b)],
      [2.0 * (b * d - a * c), 2.0 * (c * d + a * b), a * a + d * d - b * b - c * c]
    ]
  }

  /** The header's quaternion rotation, `qa` being its real part. */
  function QuaternionRotation(h: Header, qa: real): Mat3 {
    Rotation(qa, h.quaternB, h.quaternC, h.quaternD)
  }

  /** The handedness sign: -1 when pixdim[0] is negative, +1 otherwise. */
  function Qfac(h: Header): real {
    if h.pixdim[0] < 0.0 then -1.0 else 1.0
  }

  /** The qform scale of the three voxel axes: pixdim[1], pixdim[2], and
      pixdim[3] times qfac. */
  function QformScales(h: Header): Vec3 {
    [h.pixdim[1], h.pixdim[2], h.pixdim[3] * Qfac(h)]
  }

  /** `r` with column j multiplied by s[j]. */
  function ScaleColumns(r: Mat3, s: Vec3): Mat3 {
    [
      [r[0][0] * s[0], r[0][1] * s[1], r[0][2] * s[2]],
      [r[1][0] * s[0], r[1][1] * s[1], r[1][2] * s[2]],
      [r[2][0] * s[0], r[2][1] * s[1], r[2][2] * s[2]]
    ]
  }

  /** Row `row` of the sform affine (all four entries). */
  function SformRow(h: Header, row: Axis): Vec4 {
    if row == 0 then h.srowX else if row == 1 then h.srowY else h.srowZ
  }

  /** The 3x3 direction matrix; `qa` is the quaternion's real part and is
      used only when the qform governs. */
  function Affine3x3(h: Header, qa: real): Mat3 {
    match SourceOf(h)
    case Sform =>
      [
        [h.srowX[0], h.srowX[1], h.srowX[2]],
        [h.srowY[0], h.srowY[1], h.srowY[2]],
        [h.srowZ[0], h.srowZ[1], h.srowZ[2]]
      ]
    case Qform =>
      ScaleColumns(QuaternionRotation(h, qa), QformScales(h))
    case SpacingOnly =>
      [
        [h.pixdim[1], 0.0, 0.0],
        [0.0, h.pixdim[2], 0.0],
        [0.0, 0.0, h.pixdim[3]]
      ]
  }

  /** The world position of voxel (0,0,0). */
  function Translation(h: Header): Vec3 {
    match SourceOf(h)
    case Sform => [h.srowX[3], h.srowY[3], h.srowZ[3]]
    case Qform => [h.quaternX, h.quaternY, h.quaternZ]
    case SpacingOnly => [0.0, 0.0, 0.0]
  }

  /** Under the sform, matrix and translation together are the header's
      3x4 affine: voxel x lands at srow_k · (x, 1) on world axis k. */
  lemma SformMapsVoxels(h: Header, qa: real, x: Vec3)
    requires h.sformCode > 0
    ensures forall k: Axis ::
      Apply(Affine3x3(h, qa), Translation(h), x)[k]
      == SformRow(h, k)[0] * x[0] + SformRow(h, k)[1] * x[1] + SformRow(h, k)[2] * x[2] + SformRow(h, k)[3]
  {
  }

  /** Under the qform (sform_code <= 0 < qform_code), column j of the matrix
      is column j of the quaternion rotation scaled by pixdim[j+1] (by
      qfac·pixdim[3] for the last column), and voxel (0,0,0) lands at the
      quaternion offset: the NIfTI-1 standard's method 2. */
  lemma QformColumns(h: Header, qa: real)
    requires h.sformCode <= 0 < h.qformCode
    ensures forall k: Axis, j: Axis ::
      Affine3x3(h, qa)[k][j] == QuaternionRotation(h, qa)[k][j] * QformScales(h)[j]
    ensures Translation(h) == [h.quaternX, h.quaternY, h.quaternZ]
  {
    ScaledColumns(QuaternionRotation(h, qa), QformScales(h));
  }

  lemma ScaledColumns(r: Mat3, s: Vec3)
    ensures forall k: Axis, j: Axis :: ScaleColumns(r, s)[k][j] == r[k][j] * s[j]
  {
  }

  /** With neither sform nor qform, voxel x lands at pixdim[k+1]·x_k on each
      world axis k: the NIfTI-1 standard's method 1. */
  lemma SpacingOnlyMapsVoxels(h: Header, qa: real, x: Vec3)
    requires h.sformCode <= 0 && h.qformCode <= 0
    ensures forall k: Axis :: Apply(Affine3x3(h, qa), Translation(h), x)[k] == h.pixdim[k + 1] * x[k]
  {
  }

  /** With neither sform nor qform, the matrix is the diagonal of the
      spacings and the translation is zero. */
  lemma SpacingOnlyFrame(h: Header, qa: real)
    requires h.sformCode <= 0 && h.qformCode <= 0
    ensures Affine3x3(h, qa) == [[h.pixdim[1], 0.0, 0.0], [0.0, h.pixdim[2], 0.0], [0.0, 0.0, h.pixdim[3]]]
    ensures Translation(h) == Zero3
  {
  }

  /** The zero quaternion vector (b = c = d = 0) has real part 1 and gives
      the identity rotation. */
  lemma QuaternionIdentity(h: Header, qa: real)
    requires h.quaternB == 0.0 && h.quaternC == 0.0 && h.quaternD == 0.0
    requires IsQuaternionRealPart(h, qa)
    ensures QuaternionRotation(h, qa) == [[1.0, 0.0, 0.0], [0.0, 1.0, 0.0], [0.0, 0.0, 1.0]]
  {
    assert qa * qa == 1.0;
  }
}
