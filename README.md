# NIfTI triple viewer: reorientation and coordinate core

A Dafny model of the logic at the heart of a three-pane NIfTI-1 viewer,
`src/main.rs`. The viewer reads a NIfTI-1 header and a dense 3-D grid. It
brings the grid to RAS order, so that grid axes 0, 1 and 2 run towards
Right, Anterior and Superior. It then shows the sagittal, coronal and axial
planes through a cursor voxel, labels them in millimetres in the LPS display
convention, and moves the cursor with sliders and the scroll wheel.

The model is split into five files:

- `types.dfy` (modules `NiftiTypes`, `Wrappers`) holds the shared values:
  - three-vectors and 3x3 matrices over exact reals;
  - the header fields that orientation depends on;
  - the rectangular grid `Grid` with its `Valid`, `Shape` and `At`;
  - `Option` and `Result`.
- `affine.dfy` (module `Affine`) covers `get_affine_3x3` and
  `get_translation`. These pick the sform ("method 3"), then the qform
  ("method 2"), then the spacing alone ("method 1"), following the NIfTI-1
  standard.
- `reorient.dfy` (module `Reorient`) covers `reorient_to_ras` step by step:
  - the dominant-row scan that assigns voxel axes to world axes;
  - the inverting loop;
  - the spacing and flip permutations;
  - the permute-then-reverse re-indexing of the grid;
  - the corner-voxel origin.

  `IsReorientation` states what the result is. The output axes are in RAS
  order when the scan assigns the voxel axes to three distinct world axes.
- `coords.dfy` (module `Coords`) covers `voxel_to_mm` and `mm_to_voxel`,
  including Rust's round-half-away-from-zero and the clamp.
- `viewer.dfy` (module `Viewer`) models the `NiftiViewer` struct as a class
  whose fields are updated in place. It covers:
  - the constructor;
  - `load_from_path` and `load_from_bytes`, after the file has been decoded;
  - `get_slices`;
  - the slider update;
  - the two scroll loops of the update step.

Floating-point values (`f32`, `f64`) are modelled as exact `real`s. The
slice fields (`usize`) are `nat`s. Grid indices and shapes are
`Index3` (a sequence of three `int`s), and `mm_to_voxel` returns an `int`
that its contract bounds to `0 .. n-1`.

## Model

| member | source | states |
|---|---|---|
| `Affine.Affine3x3` | src/main.rs:23-67 | definition of get_affine_3x3: the sform, qform or spacing-only direction matrix; SformMapsVoxels, QformColumns and SpacingOnlyFrame state what each branch gives |
| `Affine.Translation` | src/main.rs:70-78 | definition of get_translation; SformMapsVoxels, QformColumns and SpacingOnlyFrame state the translation of each branch |
| `Affine.QuaternionRotation` | src/main.rs:31-51 | definition: the rotation matrix of the quaternion (qa, b, c, d); QformColumns and QuaternionIdentity state its properties |
| `Affine.QuaternionRadicand` | src/main.rs:34 | the argument of the quaternion square root is clamped into [0, 1] |
| `Affine.SformMapsVoxels` | src/main.rs:23-29 | with sform_code > 0, matrix and translation are the 3x4 sform rows: world axis k of voxel x is srow_k · (x, 1) |
| `Affine.QformColumns` | src/main.rs:30-58 | with sform_code <= 0 < qform_code, column j is column j of the quaternion rotation times pixdim[j+1] (times qfac for j = 2), and the translation is (quatern_x, quatern_y, quatern_z) |
| `Affine.ScaledColumns` | src/main.rs:52-58 | the column scaling multiplies entry [k][j] by the scale of column j |
| `Affine.SpacingOnlyMapsVoxels` | src/main.rs:59-66 | with neither code positive, world axis k of voxel x is pixdim[k+1]·x_k |
| `Affine.SpacingOnlyFrame` | src/main.rs:59-77 | with neither code positive, the matrix is diag(pixdim[1..3]) and the translation is zero |
| `Affine.QuaternionIdentity` | src/main.rs:31-51 | b = c = d = 0 with real part sqrt(1) gives the identity rotation |
| `Reorient.DominantRow` | src/main.rs:91-100 | the scan of a column settles on a row of largest absolute value, with ties going to the lowest row (so an all-zero column gives row 0) |
| `Reorient.ScanRows` | src/main.rs:94-100 | the inner row loop, started with best_row 0 and best_val 0, ends on the dominant row |
| `Reorient.VoxelToWorld` | src/main.rs:89-103 | definition: the dominant row of each column, as the scan leaves voxel_to_world; AssignAxes, ScanResult and AxisAlignedAssignment state its properties |
| `Reorient.VoxelFlip` | src/main.rs:102 | definition: voxel_flip[c], the dominant entry of column c is negative; AssignAxes and RasAxesRunForward state its properties |
| `Reorient.WorldToVoxel` | src/main.rs:105-109 | definition: the entries the overwriting loop leaves; WorldToVoxelInverts and InvertAxes state its properties |
| `Reorient.NeedsFlip` | src/main.rs:123-127 | definition: needs_flip[a] is voxel_flip[world_to_voxel[a]]; RasFlips and RasAxesRunForward state what it means |
| `Reorient.DominantRowUnique` | src/main.rs:94-100 | at most one row satisfies the dominant-row condition, so the scan's result is determined |
| `Reorient.AssignAxes` | src/main.rs:88-103 | the nested loops leave, for each column, the dominant row in voxel_to_world and a flip flag that holds exactly when that entry is negative |
| `Reorient.ScanResult` | src/main.rs:88-103 | any assignment meeting the loop's per-column guarantees equals VoxelToWorld and VoxelFlips |
| `Reorient.WorldToVoxelInverts` | src/main.rs:105-109 | world_to_voxel[voxel_to_world[c]] == c for all c exactly when voxel_to_world is a permutation; world_to_voxel is then a permutation and a two-sided inverse |
| `Reorient.InvertAxes` | src/main.rs:105-109 | the inverting loop computes WorldToVoxel, which inverts voxel_to_world whenever that is a permutation |
| `Reorient.RasSpacing` | src/main.rs:111-117 | RAS spacing a is pixdim[1 + world_to_voxel[a]] |
| `Reorient.RasFlips` | src/main.rs:123-127 | needs_flip is NeedsFlip of the direction matrix; when the scan gives a permutation, needs_flip[a] holds exactly when the matrix entry of world axis a and the voxel axis placed along it is negative |
| `Reorient.RasAxesRunForward` | src/main.rs:119-127 | when the scan gives a permutation, output axis a runs along world axis a (a is the dominant row of voxel axis world_to_voxel[a]), needs_flip[a] holds exactly when that entry is negative, and the entry after the flip is never negative, so no output axis points backwards along its world axis (the entry may be zero for a degenerate matrix) |
| `Reorient.SourceIndex` | src/main.rs:119-142 | along original axis world_to_voxel[a] the source voxel has index i_a, counted from the far end when world axis a is flipped; in-range indices map to in-range indices |
| `Reorient.Permuted` | src/main.rs:120 | permuted_axes gives output axis a the length of original axis p[a] and reads the voxel whose axis p[a] has index i_a |
| `Reorient.Flipped` | src/main.rs:128-142 | reversing one axis keeps the shape and reads the mirrored index on that axis |
| `Reorient.MirrorAt` | src/main.rs:129 | mirroring index k of an in-range index stays in range |
| `Reorient.FlippedAt` | src/main.rs:128-142 | a reversed grid at i holds the original at the mirrored index |
| `Reorient.PermuteAndFlip` | src/main.rs:119-142 | permute then reverse the flagged axes: the result has shape OutShape and holds at i the original voxel at SourceIndex |
| `Reorient.FlipStep` | src/main.rs:128-142 | each conditional reversal extends the reversed-so-far description by one axis |
| `Reorient.ReindexIsBijection` | src/main.rs:119-142 | SourceIndex and TargetIndex are inverse bijections between the in-range indices of the output and of the input: no voxel is lost or duplicated |
| `Reorient.TargetAfterSource` | src/main.rs:119-142 | TargetIndex undoes SourceIndex |
| `Reorient.SourceAfterTarget` | src/main.rs:119-142 | SourceIndex undoes TargetIndex on in-range input indices |
| `Reorient.EveryVoxelKept` | src/main.rs:119-142 | every input voxel appears in the reoriented grid, at TargetIndex |
| `Reorient.CornerIndex` | src/main.rs:146-154 | orig_ijk is the original index of the voxel now at (0,0,0): shape-1 along flipped axes, 0 elsewhere |
| `Reorient.CornerPrefixComplete` | src/main.rs:146-154 | the loop over world axes fills every entry of orig_ijk |
| `Reorient.ReorientFrame` | src/main.rs:83-170 | with world_to_voxel a permutation, the result satisfies IsReorientationOf for the given matrix, translation and spacings; its axes are in RAS order only when VoxelToWorld(affine) is a permutation too (RasAxesRunForward) |
| `Reorient.AssembleReorientation` | src/main.rs:155-170 | the phase results together satisfy IsReorientationOf, with ras_origin = affine · orig_ijk + translation |
| `Reorient.ReorientToRas` | src/main.rs:83-171 | as written: demands only what permuted_axes demands (world_to_voxel a permutation) and returns the permuted and flipped grid, spacing and origin that IsReorientation fixes for the header's transform; the axes are in RAS order only when voxel_to_world is a permutation too (see RasAxesRunForward and Findings) |
| `Reorient.ReorientChecked` | src/main.rs:83-171 | fails, with SharedWorldAxis, exactly when voxel_to_world is not a permutation; on success world_to_voxel inverts it, the result satisfies IsReorientation, and its axes are in RAS order (RasAxesRunForward) |
| `Reorient.SilentMisorientation` | src/main.rs:88-120 | a concrete sform whose scan sends two voxel axes to world axis R, yet whose world_to_voxel is the permutation (1,0,2), so the as-written code proceeds |
| `Reorient.AxisAlignedAssignment` | src/main.rs:88-127 | for a matrix with one non-zero entry per row and column, the scan recovers that permutation and flips exactly the world axes whose entry is negative |
| `Reorient.AxisAlignedColumn` | src/main.rs:91-103 | for such a matrix the dominant row of column c is the row of its non-zero entry |
| `Reorient.SpacingOnlyAxes` | src/main.rs:59-127 | with no sform/qform and positive spacings, nothing is permuted or flipped |
| `Reorient.SpacingOnlyIsIdentity` | src/main.rs:83-170 | with no sform/qform and positive spacings, the grid is unchanged, the spacing is pixdim[1..3] and the origin is (0,0,0) |
| `Reorient.UnpermutedReorientation` | src/main.rs:119-168 | for a diagonal matrix only the negative axes are reversed, and the origin is the world position of the mirrored corner |
| `Reorient.IdentityAxes` | src/main.rs:88-127 | a diagonal matrix yields the identity axis maps and flips where its diagonal is negative |
| `Reorient.RadiologicalAxes` | src/main.rs:88-127 | an sform with a negative x axis is reversed along R only |
| `Reorient.RadiologicalHeader` | src/main.rs:83-170 | for that header and a 181x217x181 grid, the R axis is mirrored, the spacing is (1, 1, 1) and the origin is (-90, -126, -72) |
| `Reorient.RadiologicalOrigin` | src/main.rs:155-168 | the origin arithmetic for that header's corner voxel |
| `Coords.Lps` | src/main.rs:286-295 | definition: the LPS display sign change, negating axes 0 (R) and 1 (A); LpsInvolution and LpsDistance state its properties |
| `Coords.VoxelToMm` | src/main.rs:284-291 | definition of voxel_to_mm; MmToVoxelRoundTrip, VoxelToMmStep and ZeroSpacingPosition state its properties |
| `Coords.LpsInvolution` | src/main.rs:286-295 | the LPS sign change is its own inverse |
| `Coords.LpsDistance` | src/main.rs:286-295 | the sign change preserves distances |
| `Coords.Round` | src/main.rs:297 | round: the result is within 1/2 of x, with halves going away from zero |
| `Coords.RoundOfInteger` | src/main.rs:297 | rounding an integer gives it back |
| `Coords.RoundIsNearest` | src/main.rs:297 | no integer is nearer to x than Round(x) |
| `Coords.Clamp` | src/main.rs:298 | the result lies in [lo, hi] and equals v when v already does |
| `Coords.ClampedRoundIsNearest` | src/main.rs:297-298 | clamping the rounded value gives the integer of [lo, hi] nearest to x |
| `Coords.MmToVoxel` | src/main.rs:294-299 | mm_to_voxel always lies in [0, n-1] |
| `Coords.MmToVoxelRounds` | src/main.rs:295-298 | with non-zero spacing, mm_to_voxel is the clamped rounding of the fractional index |
| `Coords.MmToVoxelRoundTrip` | src/main.rs:284-299 | with non-zero spacing, mm_to_voxel(axis, voxel_to_mm(axis, i)) == i for every in-range i |
| `Coords.MmToVoxelNearest` | src/main.rs:284-299 | mm_to_voxel picks a voxel whose display coordinate is nearest to mm among all voxels of the axis |
| `Coords.ZeroSpacingPosition` | src/main.rs:284-291 | with zero spacing every voxel of the axis shows the same coordinate |
| `Coords.NearerIndex` | src/main.rs:284-299 | an index nearer to the fractional index of mm has a display coordinate nearer to mm |
| `Coords.VoxelToMmStep` | src/main.rs:284-291 | neighbouring voxels are one spacing apart on the display axis, negated for R and A |
| `Viewer.LoadNifti` | src/main.rs:652-658 | succeeds exactly when decoding succeeded and the axes are distinct; passes on the decoding error or SharedWorldAxis; a success satisfies IsReorientation for the decoded grid, and since the axes are distinct its axes are in RAS order (RasAxesRunForward) |
| `Viewer.LoadNiftiBytes` | src/main.rs:661-675 | outside the browser build always fails with the in-memory message; in it, behaves as LoadNifti |
| `Viewer.Sagittal` | src/main.rs:310 | the plane at x of axis 0 has shape (n1, n2) and holds voxel (x, u, v) at [u][v] |
| `Viewer.Coronal` | src/main.rs:311 | the plane at y of axis 1 has shape (n0, n2) and holds voxel (u, y, v) at [u][v] |
| `Viewer.Axial` | src/main.rs:312 | the plane at z of axis 2 has shape (n0, n1) and holds voxel (u, v, z) at [u][v] |
| `Viewer.SlicesMeetAtCursor` | src/main.rs:308-313 | the three planes all hold the cursor voxel at the position of the other two indices |
| `Viewer.Steps` | src/main.rs:503-514 | the number of whole scroll steps leaves a remainder strictly inside (-30, 30) with the sign of the accumulated scroll |
| `Viewer.StepSlice` | src/main.rs:503-514 | the two loops move the index to clamp(idx + Steps(acc), 0, n-1) and leave acc - 30·Steps(acc) pending |
| `Viewer.StepsOfResidue` | src/main.rs:505-514 | Steps(s) is the only step count whose remainder has the sign of s and lies inside (-30, 30) |
| `Viewer.ScrollMovesAtMostOnePerStep` | src/main.rs:505-514 | the new index stays in [0, n-1] and moves by at most one per whole step, in the step's direction |
| `Viewer.Centre` | src/main.rs:204-206 | the load cursor is floor(n/2) on each axis, which lies inside any non-empty axis |
| `Viewer.NiftiViewer.constructor` | src/main.rs:188-199 | nothing loaded, unit spacing, zero origin, cursor (0,0,0), no pending scroll, no message |
| `Viewer.NiftiViewer.Publish` | src/main.rs:203-215 | a success replaces grid, spacing and origin, centres the cursor, clears scroll and message; a failure changes only the message, to "Failed to load: " + the error |
| `Viewer.NiftiViewer.LoadFromPath` | src/main.rs:201-217 | a file that loads leaves the reorientation of its grid (IsReorientation, with distinct axes and so in RAS order) in the viewer, with the cursor centred; otherwise only the message changes |
| `Viewer.NiftiViewer.LoadFromBytes` | src/main.rs:219-235 | as LoadFromPath for the bytes' decoding; outside the browser build only the message changes |
| `Viewer.NiftiViewer.GetSlices` | src/main.rs:301-314 | None exactly when nothing is loaded, otherwise the three planes through the cursor |
| `Viewer.NiftiViewer.SetSliceFromMm` | src/main.rs:499-501 | a moved slider sets that axis's slice to mm_to_voxel of its value and changes nothing else |
| `Viewer.NiftiViewer.Scroll` | src/main.rs:502-515 | scrolling on one axis clamps its slice to clamp(idx + Steps(s), 0, n-1) with s = pending + delta, keeps s - 30·Steps(s) pending, and leaves every other field alone; the cursor stays inside the grid |

## Left out

- The egui/eframe layout, painting, textures and labels (src/main.rs:365-649). Only the slider update and the scroll loops are modelled. The sliders' mm range and step width are presentation only.
- `array2_to_color_image` and `fit_size` (src/main.rs:316-362): float normalisation, `u8` casts and aspect scaling for display.
- The browser file dialog, the pending-bytes cell and the entry points (src/main.rs:237-279, 692-745): browser I/O and callbacks.
- NIfTI decoding through the `nifti` crate, gzip detection and the `vox_offset` skip (src/main.rs:652-690). The decoded header and grid, or the decoding error, are inputs (`Viewer.Decoded`).
- The quaternion real part `sqrt(max(0, 1 - b² - c² - d²))` and the f64/f32 casts (src/main.rs:31-50). Dafny's reals have no square root. The real part is a parameter `qa`, and `Affine.IsQuaternionRealPart` says what it must be. `Viewer.LoadNifti`, `Viewer.LoadNiftiBytes`, `Viewer.NiftiViewer.LoadFromPath` and `Viewer.NiftiViewer.LoadFromBytes` require it of a decoded header.
- Viewer.StepSlice: IEEE `f32` is not modelled, and the loops end because reals are exact. In `f32`, `scroll_accum -= 30.0` leaves an accumulator of magnitude above 2^29 unchanged, and an infinite one too. The loops at src/main.rs:505-514 would then never end.
- IEEE `f32` rounding and overflow: all arithmetic is exact. With a zero spacing, `mm_to_voxel` divides to +inf, -inf or NaN, and the saturating cast and clamp then give n-1, 0 and 0. This is modelled by the sign of the numerator. Negative zero is not distinguished.
- Reorient.RasAxesRunForward: states the RAS order on the direction matrix (each output axis runs along its world axis and never backwards). It does not state the world position of each reoriented voxel, origin[a] + |m[a][world_to_voxel[a]]| · i[a] along world axis a. That form also needs the off-diagonal entries to vanish, which holds only for a header without obliquity.
- Which pane the pointer is over, and where the scroll delta comes from: the axis and the delta are parameters of `Viewer.NiftiViewer.Scroll`.
- Error text: the `anyhow` error's display form is modelled as the error string itself.
- Viewer.LoadNifti: requires a decoded grid with at least one voxel along every axis (`Grid.Valid`). A grid with an empty axis is not modelled; the source's `shape - 1` in the scroll loops and in `mm_to_voxel` would underflow on it.
- Viewer.NiftiViewer.LoadFromPath, Viewer.NiftiViewer.LoadFromBytes, Viewer.LoadNifti and Viewer.LoadNiftiBytes: use the checked reorientation, so a header whose voxel axes share a world axis is refused with an error (see Findings) instead of being silently misoriented or panicking.

## Findings

| source | as written | input that shows it | evidently intended | confidence | as-written member | corrected member |
|---|---|---|---|---|---|---|
| src/main.rs:88-120 | the dominant-row scan may send two voxel axes to the same world axis, and nothing checks for it. The inverting loop then overwrites an entry and may still produce a permutation, so `permuted_axes` does not panic and the grid is placed along the wrong world axes. | sform rows (1, 0.9, 0, 0), (0, 0.5, 0, 0), (0, 0, 1, 0): both voxel axes 0 and 1 are dominated by row 0, voxel_to_world = (0,0,2), world_to_voxel = (1,0,2), and the voxel axis placed along A has no A component | refuse (or otherwise resolve) a header whose voxel axes do not map to three distinct world axes | not executed | `Reorient.SilentMisorientation` | `Reorient.ReorientChecked` |
