/** The viewer's state machine: loading a volume (or recording why it could
    not be loaded), the three cross-sections through the cursor voxel, the
    sliders that set a slice from a millimetre value, and the scroll wheel
    that steps a slice once per 30 units of accumulated scroll. */
module Viewer {
  import opened NiftiTypes
  import opened Wrappers
  import opened Coords
  import Affine
  import Reorient

  /** What the NIfTI reader hands over: the header and the voxel grid in the
      file's own axis order. */
  datatype Decoded = Decoded(header: Header, volume: Grid)

  /** A decoded file loads when its header assigns the three voxel axes to
      three distinct world axes. */
  ghost predicate Loads(decoded: Result<Decoded, string>, qa: real) {
    decoded.Success? && IsPermutation(Reorient.VoxelToWorld(Affine.Affine3x3(decoded.value.header, qa)))
  }

  /** Why a file that does not load was refused. */
  function LoadError(decoded: Result<Decoded, string>): string {
    if decoded.Failure? then decoded.error else Reorient.SharedWorldAxis
  }

  /** load_nifti / load_nifti_reader after decoding: a decoding error is
      passed on unchanged, otherwise the grid is brought to RAS. A header
      whose axes cannot be assigned to distinct world axes is refused (see
      Reorient.ReorientChecked). `qa` is the quaternion's real part, the square
      root the reader takes (see Affine.IsQuaternionRealPart). */
  method LoadNifti(decoded: Result<Decoded, string>, qa: real) returns (res: Result<Reorient.Reoriented, string>)
    requires decoded.Success? ==> decoded.value.volume.Valid()
    requires decoded.Success? ==> Affine.IsQuaternionRealPart(decoded.value.header, qa)
    ensures res.Success? <==> Loads(decoded, qa)
    ensures res.Failure? ==> res.error == LoadError(decoded)
    ensures res.Success? ==>
      Reorient.IsReorientation(decoded.value.volume, decoded.value.header, qa, res.value)
  {
    match decoded
    case Failure(e) =>
      res := Failure(e);
    case Success(d) =>
      res := Reorient.ReorientChecked(d.volume, d.header, qa);
  }

  /** The message load_nifti_bytes gives outside the browser build. */
  const InMemoryUnavailable: string := "in-memory loading is only available on wasm"

  /** load_nifti_bytes: in the browser build the bytes are decoded and
      reoriented like a file; elsewhere in-memory loading always fails. */
  method LoadNiftiBytes(onWasm: bool, decoded: Result<Decoded, string>, qa: real)
    returns (res: Result<Reorient.Reoriented, string>)
    requires onWasm && decoded.Success? ==> decoded.value.volume.Valid()
    requires onWasm && decoded.Success? ==> Affine.IsQuaternionRealPart(decoded.value.header, qa)
    ensures res.Success? <==> onWasm && Loads(decoded, qa)
    ensures res.Failure? ==> res.error == if onWasm then LoadError(decoded) else InMemoryUnavailable
    ensures res.Success? ==>
      Reorient.IsReorientation(decoded.value.volume, decoded.value.header, qa, res.value)
  {
    if !onWasm {
      return Failure(InMemoryUnavailable);
    }
    res := LoadNifti(decoded, qa);
  }

  // ---------------------------------------------------------------------
  // Cross-sections

  /** The sagittal, coronal and axial planes through one voxel. */
  datatype Slices = Slices(sagittal: Plane, coronal: Plane, axial: Plane)

  /** The plane at index x of axis 0: sagittal[u][v] is the voxel (x, u, v). */
  function Sagittal(g: Grid, x: int): (p: Plane)
    requires g.Valid() && 0 <= x < g.Shape()[0]
    ensures |p| == g.Shape()[1]
    ensures forall u | 0 <= u < |p| :: |p[u]| == g.Shape()[2]
    ensures forall u, v | 0 <= u < g.Shape()[1] && 0 <= v < g.Shape()[2] ::
      InBox([x, u, v], g.Shape()) && p[u][v] == g.At([x, u, v])
  {
    var n := g.Shape();
    seq(n[1], u requires 0 <= u < n[1] =>
      seq(n[2], v requires 0 <= v < n[2] => assert InBox([x, u, v], n); g.At([x, u, v])))
  }

  /** The plane at index y of axis 1: coronal[u][v] is the voxel (u, y, v). */
  function Coronal(g: Grid, y: int): (p: Plane)
    requires g.Valid() && 0 <= y < g.Shape()[1]
    ensures |p| == g.Shape()[0]
    ensures forall u | 0 <= u < |p| :: |p[u]| == g.Shape()[2]
    ensures forall u, v | 0 <= u < g.Shape()[0] && 0 <= v < g.Shape()[2] ::
      InBox([u, y, v], g.Shape()) && p[u][v] == g.At([u, y, v])
  {
    var n := g.Shape();
    seq(n[0], u requires 0 <= u < n[0] =>
      seq(n[2], v requires 0 <= v < n[2] => assert InBox([u, y, v], n); g.At([u, y, v])))
  }

  /** The plane at index z of axis 2: axial[u][v] is the voxel (u, v, z). */
  function Axial(g: Grid, z: int): (p: Plane)
    requires g.Valid() && 0 <= z < g.Shape()[2]
    ensures |p| == g.Shape()[0]
    ensures forall u | 0 <= u < |p| :: |p[u]| == g.Shape()[1]
    ensures forall u, v | 0 <= u < g.Shape()[0] && 0 <= v < g.Shape()[1] ::
      InBox([u, v, z], g.Shape()) && p[u][v] == g.At([u, v, z])
  {
    var n := g.Shape();
    seq(n[0], u requires 0 <= u < n[0] =>
      seq(n[1], v requires 0 <= v < n[1] => assert InBox([u, v, z], n); g.At([u, v, z])))
  }

  /** The three planes through the voxel (x, y, z). */
  function CrossSections(g: Grid, x: int, y: int, z: int): Slices
    requires g.Valid() && InBox([x, y, z], g.Shape())
  {
    Slices(Sagittal(g, x), Coronal(g, y), Axial(g, z))
  }

  /** The three planes cross at the cursor voxel: each holds it at the
      position of the other two indices. */
  lemma SlicesMeetAtCursor(g: Grid, x: int, y: int, z: int)
    requires g.Valid() && InBox([x, y, z], g.Shape())
    ensures
      var s := CrossSections(g, x, y, z);
      && s.sagittal[y][z] == g.At([x, y, z])
      && s.coronal[x][z] == g.At([x, y, z])
      && s.axial[x][y] == g.At([x, y, z])
  {
  }

  // ---------------------------------------------------------------------
  // Scroll stepping

  /** Scroll units per slice step. */
  const ScrollStep: real := 30.0

  /** The number of whole steps in the accumulated scroll s, rounded toward
      zero: upward steps for positive s, downward for negative s. What is
      left over lies strictly between -ScrollStep and ScrollStep and has the
      sign of s. */
  function Steps(s: real): (k: int)
    ensures -ScrollStep < s - ScrollStep * k as real < ScrollStep
    ensures s >= 0.0 ==> k >= 0 && s - ScrollStep * k as real >= 0.0
    ensures s <= 0.0 ==> k <= 0 && s - ScrollStep * k as real <= 0.0
  {
    if s >= 0.0 then (s / ScrollStep).Floor else -((-s) / ScrollStep).Floor
  }

  /** The two scroll loops of the update step for one axis of length n:
      while at least one step upward is accumulated, take it off and move
      the index up unless it is already at n - 1; then while at least one
      step downward is accumulated, take it off and move the index down,
      saturating at 0. */
  method StepSlice(idx: nat, acc: real, n: nat) returns (idx': nat, acc': real)
    requires idx < n
    ensures idx' == Clamp(idx + Steps(acc), 0, n - 1)
    ensures acc' == acc - ScrollStep * Steps(acc) as real
  {
    idx', acc' := idx, acc;
    ghost var up: int := 0;
    while acc' >= ScrollStep
      invariant up >= 0 && acc' == acc - ScrollStep * up as real
      invariant up > 0 ==> acc' >= 0.0
      invariant idx' == if idx + up < n - 1 then idx + up else n - 1
      decreases acc'.Floor
    {
      acc' := acc' - ScrollStep;
      if idx' < n - 1 {
        idx' := idx' + 1;
      }
      up := up + 1;
    }
    ghost var mid := idx';
    ghost var down: int := 0;
    while acc' <= -ScrollStep
      invariant down >= 0 && acc' == acc - ScrollStep * (up - down) as real
      invariant down > 0 ==> up == 0 && acc' <= 0.0
      invariant idx' == if mid - down > 0 then mid - down else 0
      decreases (-acc').Floor
    {
      acc' := acc' + ScrollStep;
      idx' := if idx' > 0 then idx' - 1 else 0;
      down := down + 1;
    }
    StepsOfResidue(acc, up - down);
  }

  /** Steps(s) is the only k that leaves a residue with the sign of s
      strictly inside (-ScrollStep, ScrollStep). */
  lemma StepsOfResidue(s: real, k: int)
    requires -ScrollStep < s - ScrollStep * k as real < ScrollStep
    requires s >= 0.0 ==> s - ScrollStep * k as real >= 0.0
    requires s <= 0.0 ==> s - ScrollStep * k as real <= 0.0
    ensures k == Steps(s)
  {
  }

  /** Each whole step moves the index by at most one, and the index stays
      inside [0, n - 1]. */
  lemma ScrollMovesAtMostOnePerStep(idx: int, s: real, n: int)
    requires 0 <= idx < n
    ensures var j := Clamp(idx + Steps(s), 0, n - 1);
      && 0 <= j < n
      && (Steps(s) >= 0 ==> idx <= j <= idx + Steps(s))
      && (Steps(s) <= 0 ==> idx + Steps(s) <= j <= idx)
  {
  }

  // ---------------------------------------------------------------------
  // The viewer

  /** The middle voxel of a grid of `shape`, where a load puts the cursor. */
  function Centre(shape: Index3): (c: Index3)
    ensures forall a: Axis :: shape[a] > 0 ==> 0 <= c[a] < shape[a]
    ensures forall a: Axis :: shape[a] >= 0 ==> c[a] <= shape[a] - c[a] <= c[a] + 1
  {
    [shape[0] / 2, shape[1] / 2, shape[2] / 2]
  }

  class NiftiViewer {
    /** The grid in RAS order, once one has been loaded. */
    var volume: Option<Grid>
    /** Spacing in mm along the R, A and S axes of the grid. */
    var voxdim: Vec3
    /** RAS position (mm) of voxel (0,0,0) of the grid. */
    var rasOrigin: Vec3
    var sliceX: nat
    var sliceY: nat
    var sliceZ: nat
    /** Scroll not yet turned into slice steps, per axis. */
    var scrollAccum: Vec3
    var errorMsg: Option<string>

    /** The cursor lies inside the grid, and less than one step of scroll
        is pending on each axis. */
    predicate Valid()
      reads this
    {
      && (volume.Some? ==> volume.value.Valid() && InBox(Cursor(), volume.value.Shape()))
      && (forall a: Axis :: -ScrollStep < scrollAccum[a] < ScrollStep)
    }

    /** The voxel the three slices cross at. */
    function Cursor(): Index3
      reads this
    {
      var c: seq<int> := [sliceX, sliceY, sliceZ];
      assert |c| == 3;
      c
    }

    /** The slice index of `axis`. */
    function Slice(axis: Axis): nat
      reads this
    {
      if axis == 0 then sliceX else if axis == 1 then sliceY else sliceZ
    }

    /** A viewer with nothing loaded. */
    constructor ()
      ensures Valid()
      ensures volume == None && errorMsg == None
      ensures voxdim == [1.0, 1.0, 1.0] && rasOrigin == Zero3 && scrollAccum == Zero3
      ensures sliceX == 0 && sliceY == 0 && sliceZ == 0
    {
      volume := None;
      voxdim := [1.0, 1.0, 1.0];
      rasOrigin := Zero3;
      sliceX, sliceY, sliceZ := 0, 0, 0;
      scrollAccum := Zero3;
      errorMsg := None;
    }

    /** The outcome of a load: a reoriented grid replaces the whole state
        and centres the cursor; an error changes only the message. */
    method Publish(res: Result<Reorient.Reoriented, string>)
      requires Valid()
      requires res.Success? ==> res.value.volume.Valid()
      modifies this
      ensures Valid()
      ensures res.Success? ==>
        && volume == Some(res.value.volume)
        && voxdim == res.value.spacing && rasOrigin == res.value.origin
        && Cursor() == Centre(res.value.volume.Shape())
        && scrollAccum == Zero3 && errorMsg == None
      ensures res.Failure? ==>
        && errorMsg == Some("Failed to load: " + res.error)
        && volume == old(volume) && voxdim == old(voxdim) && rasOrigin == old(rasOrigin)
        && Cursor() == old(Cursor()) && scrollAccum == old(scrollAccum)
    {
      match res
      case Success(r) =>
        var n := r.volume.Shape();
        sliceX := n[0] / 2;
        sliceY := n[1] / 2;
        sliceZ := n[2] / 2;
        volume := Some(r.volume);
        voxdim := r.spacing;
        rasOrigin := r.origin;
        scrollAccum := Zero3;
        errorMsg := None;
      case Failure(e) =>
        errorMsg := Some("Failed to load: " + e);
    }

    /** load_from_path, given what the reader made of the file: a file that
        loads replaces the grid, spacing and origin by its RAS
        reorientation, centres the cursor and clears the pending scroll and
        the message; any other outcome only records why. */
    method LoadFromPath(decoded: Result<Decoded, string>, qa: real)
      requires Valid()
      requires decoded.Success? ==> decoded.value.volume.Valid()
      requires decoded.Success? ==> Affine.IsQuaternionRealPart(decoded.value.header, qa)
      modifies this
      ensures Valid()
      ensures Loads(decoded, qa) ==>
        && volume.Some?
        && Reorient.IsReorientation(decoded.value.volume, decoded.value.header, qa,
             Reorient.Reoriented(volume.value, voxdim, rasOrigin))
        && Cursor() == Centre(volume.value.Shape())
        && scrollAccum == Zero3 && errorMsg == None
      ensures !Loads(decoded, qa) ==>
        && errorMsg == Some("Failed to load: " + LoadError(decoded))
        && volume == old(volume) && voxdim == old(voxdim) && rasOrigin == old(rasOrigin)
        && Cursor() == old(Cursor()) && scrollAccum == old(scrollAccum)
    {
      var res := LoadNifti(decoded, qa);
      Publish(res);
    }

    /** load_from_bytes, given what the reader made of the bytes; outside
        the browser build it always fails with InMemoryUnavailable. */
    method LoadFromBytes(onWasm: bool, decoded: Result<Decoded, string>, qa: real)
      requires Valid()
      requires onWasm && decoded.Success? ==> decoded.value.volume.Valid()
      requires onWasm && decoded.Success? ==> Affine.IsQuaternionRealPart(decoded.value.header, qa)
      modifies this
      ensures Valid()
      ensures onWasm && Loads(decoded, qa) ==>
        && volume.Some?
        && Reorient.IsReorientation(decoded.value.volume, decoded.value.header, qa,
             Reorient.Reoriented(volume.value, voxdim, rasOrigin))
        && Cursor() == Centre(volume.value.Shape())
        && scrollAccum == Zero3 && errorMsg == None
      ensures !(onWasm && Loads(decoded, qa)) ==>
        && errorMsg == Some("Failed to load: " + (if onWasm then LoadError(decoded) else InMemoryUnavailable))
        && volume == old(volume) && voxdim == old(voxdim) && rasOrigin == old(rasOrigin)
        && Cursor() == old(Cursor()) && scrollAccum == old(scrollAccum)
    {
      var res := LoadNiftiBytes(onWasm, decoded, qa);
      Publish(res);
    }

    /** get_slices: the three planes through the cursor, or None before
        anything has been loaded. */
    function GetSlices(): (r: Option<Slices>)
      requires Valid()
      reads this
      ensures r.Some? <==> volume.Some?
      ensures r.Some? ==> r.value == CrossSections(volume.value, sliceX, sliceY, sliceZ)
    {
      if volume.None? then None else Some(CrossSections(volume.value, sliceX, sliceY, sliceZ))
    }

    /** A slider moved to `mm` on `axis`: the slice becomes the voxel whose
        display coordinate is nearest to `mm`. */
    method SetSliceFromMm(axis: Axis, mm: real)
      requires Valid() && volume.Some?
      modifies this
      ensures Valid()
      ensures volume.Some? && Slice(axis) == MmToVoxel(rasOrigin, voxdim, volume.value.Shape()[axis], axis, mm)
      ensures forall b: Axis :: b != axis ==> Slice(b) == old(Slice(b))
      ensures volume == old(volume) && voxdim == old(voxdim) && rasOrigin == old(rasOrigin)
      ensures scrollAccum == old(scrollAccum) && errorMsg == old(errorMsg)
    {
      var n := volume.value.Shape();
      var idx := MmToVoxel(rasOrigin, voxdim, n[axis], axis, mm);
      if axis == 0 {
        sliceX := idx;
      } else if axis == 1 {
        sliceY := idx;
      } else {
        sliceZ := idx;
      }
    }

    /** The pointer is over the view of `axis` and the wheel moved by
        `delta`: the delta joins the pending scroll, whole steps move the
        slice (within the grid) and the remainder stays pending. */
    method Scroll(axis: Axis, delta: real)
      requires Valid() && volume.Some?
      modifies this
      ensures Valid()
      ensures
        var s := old(scrollAccum[axis]) + delta;
        && volume.Some?
        && Slice(axis) == Clamp(old(Slice(axis)) + Steps(s), 0, volume.value.Shape()[axis] - 1)
        && scrollAccum == old(scrollAccum)[axis := s - ScrollStep * Steps(s) as real]
      ensures forall b: Axis :: b != axis ==> Slice(b) == old(Slice(b))
      ensures volume == old(volume) && voxdim == old(voxdim) && rasOrigin == old(rasOrigin)
      ensures errorMsg == old(errorMsg)
    {
      var n := volume.value.Shape();
      var idx, acc := StepSlice(Slice(axis), scrollAccum[axis] + delta, n[axis]);
      scrollAccum := scrollAccum[axis := acc];
      if axis == 0 {
        sliceX := idx;
      } else if axis == 1 {
        sliceY := idx;
      } else {
        sliceZ := idx;
      }
    }
  }
}
