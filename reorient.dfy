/** Reorientation of a grid to the RAS frame: each voxel axis is assigned
    the world axis its direction column is dominated by, the grid is
    permuted so that output axis a runs along world axis a, axes that run
    backwards are reversed, and the world position of the new voxel (0,0,0)
    is recomputed. */
module Reorient {
  import opened NiftiTypes
  import opened Wrappers
  import Affine

  // ---------------------------------------------------------------------
  // Axis assignment

  /** `r` is where the scan of column `col` settles: it has the largest
      absolute value, and every earlier row is strictly smaller (the scan
      replaces its candidate only on a strictly larger value, starting
      from row 0 with value 0). */
  ghost predicate IsDominantRow(m: Mat3, col: Axis, r: Axis) {
    && (forall r': Axis :: Abs(m[r'][col]) <= Abs(m[r][col]))
    && (forall r': Axis :: r' < r ==> Abs(m[r'][col]) < Abs(m[r][col]))
  }

  /** The row that the scan of column `col` settles on: best_row starts
      at 0 with best_val 0.0 and moves to a row only on a strictly larger
      absolute value. */
  function DominantRow(m: Mat3, col: Axis): (r: Axis)
    ensures IsDominantRow(m, col, r)
  {
    ScanRows(m, col, 0, 0, 0.0)
  }

  /** The scan of column `col` from `row` on, holding best_row and
      best_val. */
  function ScanRows(m: Mat3, col: Axis, row: nat, bestRow: Axis, bestVal: real): (r: Axis)
    requires row <= 3 && bestVal >= 0.0
    requires forall r': Axis :: r' < row ==> Abs(m[r'][col]) <= bestVal
    requires forall r': Axis :: r' < bestRow ==> Abs(m[r'][col]) < bestVal
    requires (bestVal == 0.0 && bestRow == 0) || (bestRow < row && bestVal == Abs(m[bestRow][col]))
    ensures IsDominantRow(m, col, r)
    decreases 3 - row
  {
    if row == 3 then bestRow
    else if Abs(m[row][col]) > bestVal then ScanRows(m, col, row + 1, row, Abs(m[row][col]))
    else ScanRows(m, col, row + 1, bestRow, bestVal)
  }

  /** At most one row satisfies the dominance condition of a column. */
  lemma DominantRowUnique(m: Mat3, col: Axis, r: Axis, r': Axis)
    requires IsDominantRow(m, col, r) && IsDominantRow(m, col, r')
    ensures r == r'
  {
    assert Abs(m[r][col]) == Abs(m[r'][col]);
  }

  /** voxel_to_world: the world axis each voxel axis is assigned, the row
      that dominates its column. */
  function VoxelToWorld(m: Mat3): AxisMap {
    [DominantRow(m, 0), DominantRow(m, 1), DominantRow(m, 2)]
  }

  /** voxel_flip: whether a step along voxel axis `col` moves backwards
      along the world axis it is assigned. */
  predicate VoxelFlip(m: Mat3, col: Axis) {
    m[DominantRow(m, col)][col] < 0.0
  }

  /** world_to_voxel after the first k steps of the inverting loop: start
      from [0,0,0] and, for col = 0, 1, ..., overwrite entry v2w[col] with col. */
  function InvertPrefix(v2w: AxisMap, k: nat): AxisMap
    requires k <= 3
  {
    if k == 0 then [0, 0, 0] else InvertPrefix(v2w, k - 1)[v2w[k - 1] := k - 1]
  }

  /** world_to_voxel, as the inverting loop leaves it. */
  function WorldToVoxel(v2w: AxisMap): AxisMap {
    InvertPrefix(v2w, 3)
  }

  /** world_to_voxel is a two-sided inverse of voxel_to_world exactly when
      voxel_to_world is a permutation. */
  lemma WorldToVoxelInverts(v2w: AxisMap)
    ensures IsPermutation(v2w) <==> (forall c: Axis :: WorldToVoxel(v2w)[v2w[c]] == c)
    ensures IsPermutation(v2w) ==>
      && IsPermutation(WorldToVoxel(v2w))
      && (forall a: Axis :: v2w[WorldToVoxel(v2w)[a]] == a)
  {
    assert InvertPrefix(v2w, 1) == [0, 0, 0][v2w[0] := 0];
    assert InvertPrefix(v2w, 2) == InvertPrefix(v2w, 1)[v2w[1] := 1];
    assert WorldToVoxel(v2w) == InvertPrefix(v2w, 2)[v2w[2] := 2];
  }

  /** needs_flip: for each world axis a, the flip flag of the voxel axis now
      placed along a. */
  function NeedsFlip(m: Mat3, w2v: AxisMap): (f: seq<bool>)
    ensures |f| == 3
  {
    var voxelFlip := VoxelFlips(m);
    [voxelFlip[w2v[0]], voxelFlip[w2v[1]], voxelFlip[w2v[2]]]
  }

  /** voxel_flip for all three voxel axes. */
  function VoxelFlips(m: Mat3): (f: seq<bool>)
    ensures |f| == 3
  {
    [VoxelFlip(m, 0), VoxelFlip(m, 1), VoxelFlip(m, 2)]
  }

  // ---------------------------------------------------------------------
  // Re-indexing

  /** The shape of a grid whose axis a is axis w2v[a] of a grid of `shape`. */
  function OutShape(w2v: AxisMap, shape: Index3): Index3 {
    [shape[w2v[0]], shape[w2v[1]], shape[w2v[2]]]
  }

  /** Coordinate k along an axis of length n, counted from the far end
      when `flipped`. */
  function FlipCoord(flipped: bool, n: int, k: int): int {
    if flipped then n - 1 - k else k
  }

  /** The original index of the voxel that the reoriented grid holds at
      `i`: along original axis w2v[a] it is i[a], counted from the far end
      when world axis a is flipped. */
  function SourceIndex(w2v: AxisMap, flip: seq<bool>, shape: Index3, i: Index3): (j: Index3)
    requires IsPermutation(w2v) && |flip| == 3
    ensures forall a: Axis :: j[w2v[a]] == FlipCoord(flip[a], shape[w2v[a]], i[a])
    ensures InBox(i, OutShape(w2v, shape)) ==> InBox(j, shape)
  {
    var coords: Index3 := [FlipCoord(flip[0], shape[w2v[0]], i[0]),
                           FlipCoord(flip[1], shape[w2v[1]], i[1]),
                           FlipCoord(flip[2], shape[w2v[2]], i[2])];
    ScatterComplete(w2v, coords);
    Scatter(w2v, coords, 3)
  }

  /** The index that the first k steps of "j[w2v[a]] := coords[a]" build
      from (0,0,0). */
  function Scatter(w2v: AxisMap, coords: Index3, k: nat): Index3
    requires k <= 3
  {
    if k == 0 then [0, 0, 0] else Scatter(w2v, coords, k - 1)[w2v[k - 1] := coords[k - 1]]
  }

  lemma ScatterComplete(w2v: AxisMap, coords: Index3)
    requires IsPermutation(w2v)
    ensures forall a: Axis :: Scatter(w2v, coords, 3)[w2v[a]] == coords[a]
  {
    assert Scatter(w2v, coords, 1) == [0, 0, 0][w2v[0] := coords[0]];
    assert Scatter(w2v, coords, 2) == Scatter(w2v, coords, 1)[w2v[1] := coords[1]];
    assert Scatter(w2v, coords, 3) == Scatter(w2v, coords, 2)[w2v[2] := coords[2]];
  }

  /** Two indices that agree along every axis w2v[a] are equal. */
  lemma AgreeAlongPermutation(w2v: AxisMap, j: Index3, j': Index3)
    requires IsPermutation(w2v)
    requires forall a: Axis :: j[w2v[a]] == j'[w2v[a]]
    ensures j == j'
  {
    assert j[0] == j'[0] by { assert w2v[IndexOf(w2v, 0)] == 0; }
    assert j[1] == j'[1] by { assert w2v[IndexOf(w2v, 1)] == 1; }
    assert j[2] == j'[2] by { assert w2v[IndexOf(w2v, 2)] == 2; }
  }

  /** The reoriented index of original voxel `j`: the inverse of SourceIndex. */
  function TargetIndex(w2v: AxisMap, flip: seq<bool>, shape: Index3, j: Index3): Index3
    requires |flip| == 3
  {
    [TargetCoord(w2v, flip, shape, j, 0), TargetCoord(w2v, flip, shape, j, 1), TargetCoord(w2v, flip, shape, j, 2)]
  }

  /** Coordinate a of TargetIndex(w2v, flip, shape, j). */
  function TargetCoord(w2v: AxisMap, flip: seq<bool>, shape: Index3, j: Index3, a: Axis): int
    requires |flip| == 3
  {
    FlipCoord(flip[a], shape[w2v[a]], j[w2v[a]])
  }

  /** Reorientation loses and duplicates no voxel: SourceIndex and
      TargetIndex are mutually inverse bijections between the index box of
      the reoriented grid and that of the original. */
  lemma ReindexIsBijection(w2v: AxisMap, flip: seq<bool>, shape: Index3)
    requires IsPermutation(w2v) && |flip| == 3
    ensures forall i: Index3 {:trigger SourceIndex(w2v, flip, shape, i)} ::
      InBox(i, OutShape(w2v, shape)) ==>
        && InBox(SourceIndex(w2v, flip, shape, i), shape)
        && TargetIndex(w2v, flip, shape, SourceIndex(w2v, flip, shape, i)) == i
    ensures forall j: Index3 {:trigger TargetIndex(w2v, flip, shape, j)} ::
      InBox(j, shape) ==>
        && InBox(TargetIndex(w2v, flip, shape, j), OutShape(w2v, shape))
        && SourceIndex(w2v, flip, shape, TargetIndex(w2v, flip, shape, j)) == j
  {
    forall i: Index3 | InBox(i, OutShape(w2v, shape))
      ensures TargetIndex(w2v, flip, shape, SourceIndex(w2v, flip, shape, i)) == i
    {
      TargetAfterSource(w2v, flip, shape, i);
    }
    forall j: Index3 | InBox(j, shape)
      ensures InBox(TargetIndex(w2v, flip, shape, j), OutShape(w2v, shape))
      ensures SourceIndex(w2v, flip, shape, TargetIndex(w2v, flip, shape, j)) == j
    {
      SourceAfterTarget(w2v, flip, shape, j);
    }
  }

  lemma TargetAfterSource(w2v: AxisMap, flip: seq<bool>, shape: Index3, i: Index3)
    requires IsPermutation(w2v) && |flip| == 3
    ensures TargetIndex(w2v, flip, shape, SourceIndex(w2v, flip, shape, i)) == i
  {
    var j := SourceIndex(w2v, flip, shape, i);
    var i' := TargetIndex(w2v, flip, shape, j);
    assert i'[0] == TargetCoord(w2v, flip, shape, j, 0);
    assert i'[1] == TargetCoord(w2v, flip, shape, j, 1);
    assert i'[2] == TargetCoord(w2v, flip, shape, j, 2);
  }

  lemma SourceAfterTarget(w2v: AxisMap, flip: seq<bool>, shape: Index3, j: Index3)
    requires IsPermutation(w2v) && |flip| == 3
    requires InBox(j, shape)
    ensures InBox(TargetIndex(w2v, flip, shape, j), OutShape(w2v, shape))
    ensures SourceIndex(w2v, flip, shape, TargetIndex(w2v, flip, shape, j)) == j
  {
    var i := TargetIndex(w2v, flip, shape, j);
    assert i[0] == TargetCoord(w2v, flip, shape, j, 0);
    assert i[1] == TargetCoord(w2v, flip, shape, j, 1);
    assert i[2] == TargetCoord(w2v, flip, shape, j, 2);
    AgreeAlongPermutation(w2v, SourceIndex(w2v, flip, shape, i), j);
  }

  /** ndarray's permuted_axes: axis a of the result is axis p[a] of `g`. */
  function Permuted(g: Grid, p: AxisMap): (r: Grid)
    requires g.Valid() && IsPermutation(p)
    ensures r.Valid() && r.Shape() == OutShape(p, g.Shape())
    ensures forall i: Index3 | InBox(i, r.Shape()) ::
      r.At(i) == g.At(SourceIndex(p, [false, false, false], g.Shape(), i))
  {
    var n := OutShape(p, g.Shape());
    Build(n, (i: Index3) requires InBox(i, n) => g.At(SourceIndex(p, [false, false, false], g.Shape(), i)))
  }

  /** Reversal of one axis (a slice with step -1 along it). */
  function Flipped(g: Grid, axis: Axis): (r: Grid)
    requires g.Valid()
    ensures r.Valid() && r.Shape() == g.Shape()
    ensures forall i: Index3 | InBox(i, r.Shape()) ::
      r.At(i) == g.At(MirrorAt(i, g.Shape(), axis))
  {
    var n := g.Shape();
    Build(n, (i: Index3) requires InBox(i, n) => g.At(MirrorAt(i, n, axis)))
  }

  /** Flipping world axis k on top of the flips of the axes before it. */
  function FlipsBefore(flip: seq<bool>, k: nat): (f: seq<bool>)
    requires |flip| == 3
    ensures |f| == 3
  {
    [0 < k && flip[0], 1 < k && flip[1], 2 < k && flip[2]]
  }

  /** The flips after step k differ from those before it in entry k only. */
  lemma FlipsBeforeStep(flip: seq<bool>, k: Axis, a: Axis)
    requires |flip| == 3
    ensures a == k ==> !FlipsBefore(flip, k)[a] && FlipsBefore(flip, k + 1)[a] == flip[k]
    ensures a != k ==> FlipsBefore(flip, k)[a] == FlipsBefore(flip, k + 1)[a]
  {
  }

  /** Reversing output axis k of the grid whose voxel i is the original
      voxel SourceIndex(FlipsBefore(flip, k), i) gives the grid whose voxel
      i is SourceIndex(FlipsBefore(flip, k + 1), i). */
  lemma SourceIndexFlipStep(w2v: AxisMap, flip: seq<bool>, shape: Index3, k: Axis, i: Index3, i': Index3)
    requires IsPermutation(w2v) && |flip| == 3
    requires i' == if flip[k] then i[k := shape[w2v[k]] - 1 - i[k]] else i
    ensures SourceIndex(w2v, FlipsBefore(flip, k), shape, i') == SourceIndex(w2v, FlipsBefore(flip, k + 1), shape, i)
  {
    var f, f' := FlipsBefore(flip, k), FlipsBefore(flip, k + 1);
    var j, j' := SourceIndex(w2v, f, shape, i'), SourceIndex(w2v, f', shape, i);
    forall a: Axis
      ensures j[w2v[a]] == j'[w2v[a]]
    {
      FlipsBeforeStep(flip, k, a);
      if a != k {
        assert i'[a] == i[a];
      }
    }
    AgreeAlongPermutation(w2v, j, j');
  }

  // ---------------------------------------------------------------------
  // The reorientation

  datatype Reoriented = Reoriented(volume: Grid, spacing: Vec3, origin: Vec3)

  /** What reorient_to_ras promises of its result `r` for `volume` and
      header `h` (with quaternion real part `qa`), where W is world_to_voxel
      and F is needs_flip:
      - W is a permutation (otherwise permuted_axes panics);
      - the spacing of output axis a is pixdim[1 + W[a]];
      - output axis a has the length of original axis W[a];
      - the output voxel at i is the original voxel at SourceIndex(W, F, i);
      - the origin is the world position, under the header's transform, of
        the original voxel that now sits at (0,0,0).
      This holds whenever W is a permutation, including headers whose voxel
      axes share a world axis (SilentMisorientation). The output axes are in
      RAS order only when voxel_to_world is a permutation too
      (RasAxesRunForward). */
  ghost predicate IsReorientation(volume: Grid, h: Header, qa: real, r: Reoriented)
    requires volume.Valid()
  {
    IsReorientationOf(volume, Affine.Affine3x3(h, qa), Affine.Translation(h), h.pixdim, r)
  }

  /** IsReorientation for the direction matrix `m`, translation `t` and
      spacings pixdim[1..3]. */
  ghost predicate IsReorientationOf(volume: Grid, m: Mat3, t: Vec3, pixdim: Vec4, r: Reoriented)
    requires volume.Valid()
  {
    var w2v := WorldToVoxel(VoxelToWorld(m));
    var flip := NeedsFlip(m, w2v);
    var shape := volume.Shape();
    && IsPermutation(w2v)
    && (forall a: Axis :: r.spacing[a] == pixdim[1 + w2v[a]])
    && r.volume.Valid()
    && r.volume.Shape() == OutShape(w2v, shape)
    && (forall i: Index3 | InBox(i, r.volume.Shape()) ::
          r.volume.At(i) == volume.At(SourceIndex(w2v, flip, shape, i)))
    && r.origin == Apply(m, t, ToReals(SourceIndex(w2v, flip, shape, [0, 0, 0])))
  }

  /** The dominant-row scan over the columns of the direction matrix:
      voxel axis c is assigned the row that dominates column c, and flipped
      when that entry is negative. */
  method AssignAxes(affine: Mat3) returns (v2w: AxisMap, flip: seq<bool>)
    ensures forall c: Axis :: IsDominantRow(affine, c, v2w[c])
    ensures |flip| == 3 && forall c: Axis :: flip[c] <==> affine[v2w[c]][c] < 0.0
    ensures v2w == VoxelToWorld(affine)
    ensures flip == VoxelFlips(affine)
  {
    var voxelToWorld := new Axis[3](_ => 0);
    var voxelFlip := new bool[3];
    for col := 0 to 3
      invariant forall c: Axis :: c < col ==> IsDominantRow(affine, c, voxelToWorld[c])
      invariant forall c: Axis :: c < col ==> (voxelFlip[c] <==> affine[voxelToWorld[c]][c] < 0.0)
    {
      var bestRow: Axis := 0;
      var bestVal := 0.0;
      for row := 0 to 3
        invariant bestVal >= 0.0
        invariant forall r': Axis :: r' < row ==> Abs(affine[r'][col]) <= bestVal
        invariant forall r': Axis :: r' < bestRow ==> Abs(affine[r'][col]) < bestVal
        invariant (bestVal == 0.0 && bestRow == 0) || (bestRow < row && bestVal == Abs(affine[bestRow][col]))
      {
        var v := Abs(affine[row][col]);
        if v > bestVal {
          bestVal := v;
          bestRow := row;
        }
      }
      voxelToWorld[col] := bestRow;
      voxelFlip[col] := affine[bestRow][col] < 0.0;
    }
    v2w, flip := voxelToWorld[..], voxelFlip[..];
    ScanResult(affine, v2w, flip);
  }

  /** Rows that satisfy the dominance condition, and flips read off them,
      are what VoxelToWorld and VoxelFlips define. */
  lemma ScanResult(m: Mat3, v2w: AxisMap, flip: seq<bool>)
    requires forall c: Axis :: IsDominantRow(m, c, v2w[c])
    requires |flip| == 3 && forall c: Axis :: flip[c] <==> m[v2w[c]][c] < 0.0
    ensures v2w == VoxelToWorld(m)
    ensures flip == VoxelFlips(m)
  {
    ScanColumn(m, 0, v2w[0], flip[0]);
    ScanColumn(m, 1, v2w[1], flip[1]);
    ScanColumn(m, 2, v2w[2], flip[2]);
    OfThree(v2w);
    OfThree(flip);
  }

  lemma OfThree<T>(s: seq<T>)
    requires |s| == 3
    ensures s == [s[0], s[1], s[2]]
  {
  }

  /** One column of ScanResult. */
  lemma ScanColumn(m: Mat3, c: Axis, row: Axis, flipped: bool)
    requires IsDominantRow(m, c, row)
    requires flipped <==> m[row][c] < 0.0
    ensures row == DominantRow(m, c) && flipped == VoxelFlip(m, c)
  {
    DominantRowUnique(m, c, row, DominantRow(m, c));
  }

  /** The inverting loop: world_to_voxel[voxel_to_world[col]] := col for
      col = 0, 1, 2. When voxel_to_world is a permutation the result is its
      inverse; otherwise later columns overwrite earlier ones. */
  method InvertAxes(v2w: AxisMap) returns (w2v: AxisMap)
    ensures w2v == WorldToVoxel(v2w)
    ensures IsPermutation(v2w) ==> IsPermutation(w2v)
    ensures IsPermutation(v2w) ==> forall c: Axis :: w2v[v2w[c]] == c
  {
    var worldToVoxel := new Axis[3](_ => 0);
    for col := 0 to 3
      invariant worldToVoxel[..] == InvertPrefix(v2w, col)
    {
      worldToVoxel[v2w[col]] := col;
    }
    w2v := worldToVoxel[..];
    WorldToVoxelInverts(v2w);
  }

  /** permuted_axes(w2v) followed by a reversal of each output axis a with
      flip[a], axis 0 first: the output voxel at i is the input voxel at
      SourceIndex. */
  method PermuteAndFlip(volume: Grid, w2v: AxisMap, flip: seq<bool>) returns (vol: Grid)
    requires volume.Valid() && IsPermutation(w2v) && |flip| == 3
    ensures vol.Valid() && vol.Shape() == OutShape(w2v, volume.Shape())
    ensures forall i: Index3 | InBox(i, vol.Shape()) ::
      vol.At(i) == volume.At(SourceIndex(w2v, flip, volume.Shape(), i))
  {
    var permuted := Permuted(volume, w2v);
    assert FlipsBefore(flip, 0) == [false, false, false];
    var vol0 := if flip[0] then Flipped(permuted, 0) else permuted;
    FlipStep(volume, w2v, flip, 0, permuted, vol0);
    var vol1 := if flip[1] then Flipped(vol0, 1) else vol0;
    FlipStep(volume, w2v, flip, 1, vol0, vol1);
    vol := if flip[2] then Flipped(vol1, 2) else vol1;
    FlipStep(volume, w2v, flip, 2, vol1, vol);
    assert FlipsBefore(flip, 3) == flip;
  }

  /** Reversing output axis k (when flip[k]) extends the flips already done
      on the axes before k by the one of axis k. */
  lemma FlipStep(volume: Grid, w2v: AxisMap, flip: seq<bool>, k: Axis, before: Grid, after: Grid)
    requires volume.Valid() && IsPermutation(w2v) && |flip| == 3
    requires before.Valid() && before.Shape() == OutShape(w2v, volume.Shape())
    requires forall i: Index3 | InBox(i, before.Shape()) ::
      before.At(i) == volume.At(SourceIndex(w2v, FlipsBefore(flip, k), volume.Shape(), i))
    requires after == if flip[k] then Flipped(before, k) else before
    ensures after.Valid() && after.Shape() == before.Shape()
    ensures forall i: Index3 | InBox(i, after.Shape()) ::
      after.At(i) == volume.At(SourceIndex(w2v, FlipsBefore(flip, k + 1), volume.Shape(), i))
  {
    if flip[k] {
      MirrorStep(volume, w2v, flip, k, before);
    } else {
      forall i: Index3 | InBox(i, after.Shape())
        ensures after.At(i) == volume.At(SourceIndex(w2v, FlipsBefore(flip, k + 1), volume.Shape(), i))
      {
        SourceIndexFlipStep(w2v, flip, volume.Shape(), k, i, i);
      }
    }
  }

  /** FlipStep when output axis k is reversed. */
  lemma MirrorStep(volume: Grid, w2v: AxisMap, flip: seq<bool>, k: Axis, before: Grid)
    requires volume.Valid() && IsPermutation(w2v) && |flip| == 3 && flip[k]
    requires before.Valid() && before.Shape() == OutShape(w2v, volume.Shape())
    requires forall i: Index3 | InBox(i, before.Shape()) ::
      before.At(i) == volume.At(SourceIndex(w2v, FlipsBefore(flip, k), volume.Shape(), i))
    ensures forall i: Index3 | InBox(i, before.Shape()) ::
      Flipped(before, k).At(i) == volume.At(SourceIndex(w2v, FlipsBefore(flip, k + 1), volume.Shape(), i))
  {
    forall i: Index3 | InBox(i, before.Shape())
      ensures Flipped(before, k).At(i) == volume.At(SourceIndex(w2v, FlipsBefore(flip, k + 1), volume.Shape(), i))
    {
      FlippedAt(before, k, i);
      MirrorStepAt(volume, w2v, flip, k, before, i);
    }
  }

  /** The voxel that a reversal of output axis k brings to index i. */
  lemma MirrorStepAt(volume: Grid, w2v: AxisMap, flip: seq<bool>, k: Axis, before: Grid, i: Index3)
    requires volume.Valid() && IsPermutation(w2v) && |flip| == 3 && flip[k]
    requires before.Valid() && before.Shape() == OutShape(w2v, volume.Shape())
    requires forall i: Index3 | InBox(i, before.Shape()) ::
      before.At(i) == volume.At(SourceIndex(w2v, FlipsBefore(flip, k), volume.Shape(), i))
    requires InBox(i, before.Shape())
    ensures InBox(MirrorAt(i, before.Shape(), k), before.Shape())
    ensures before.At(MirrorAt(i, before.Shape(), k))
         == volume.At(SourceIndex(w2v, FlipsBefore(flip, k + 1), volume.Shape(), i))
  {
    var n := before.Shape()[k];
    assert n == volume.Shape()[w2v[k]];
    var i' := MirrorAt(i, before.Shape(), k);
    SourceIndexFlipStep(w2v, flip, volume.Shape(), k, i, i');
  }

  /** `i` with axis k counted from its far end. */
  function MirrorAt(i: Index3, shape: Index3, k: Axis): (j: Index3)
    ensures InBox(i, shape) ==> InBox(j, shape)
  {
    i[k := shape[k] - 1 - i[k]]
  }

  lemma FlippedAt(g: Grid, k: Axis, i: Index3)
    requires g.Valid() && InBox(i, g.Shape())
    ensures Flipped(g, k).At(i) == g.At(MirrorAt(i, g.Shape(), k))
  {
  }

  /** orig_ijk after the first k steps of the loop that fills it: start
      from (0,0,0) and, for a = 0, 1, ..., set entry w2v[a] to the far end of
      that original axis when world axis a is flipped, to 0 otherwise. */
  function CornerPrefix(w2v: AxisMap, flip: seq<bool>, shape: Index3, k: nat): Vec3
    requires |flip| == 3 && k <= 3
  {
    if k == 0 then Zero3
    else
      var v := w2v[k - 1];
      CornerPrefix(w2v, flip, shape, k - 1)[v := if flip[k - 1] then (shape[v] - 1) as real else 0.0]
  }

  /** The completed loop yields the original index of the voxel that the
      reoriented grid holds at (0,0,0). */
  lemma CornerPrefixComplete(w2v: AxisMap, flip: seq<bool>, shape: Index3)
    requires IsPermutation(w2v) && |flip| == 3
    ensures CornerPrefix(w2v, flip, shape, 3) == ToReals(SourceIndex(w2v, flip, shape, [0, 0, 0]))
  {
    var c := CornerPrefix(w2v, flip, shape, 3);
    var j := SourceIndex(w2v, flip, shape, [0, 0, 0]);
    assert CornerPrefix(w2v, flip, shape, 1) == Zero3[w2v[0] := if flip[0] then (shape[w2v[0]] - 1) as real else 0.0];
    assert CornerPrefix(w2v, flip, shape, 2) == CornerPrefix(w2v, flip, shape, 1)[w2v[1] := if flip[1] then (shape[w2v[1]] - 1) as real else 0.0];
    assert c == CornerPrefix(w2v, flip, shape, 2)[w2v[2] := if flip[2] then (shape[w2v[2]] - 1) as real else 0.0];
    assert c[w2v[0]] == j[w2v[0]] as real;
    assert c[w2v[1]] == j[w2v[1]] as real;
    assert c[w2v[2]] == j[w2v[2]] as real;
  }

  /** The loop filling orig_ijk: the original index of the voxel that the
      reoriented grid holds at (0,0,0), as reals. */
  method CornerIndex(w2v: AxisMap, flip: seq<bool>, shape: Index3) returns (ijk: Vec3)
    requires IsPermutation(w2v) && |flip| == 3
    ensures ijk == ToReals(SourceIndex(w2v, flip, shape, [0, 0, 0]))
  {
    var origIjk := new real[3](_ => 0.0);
    for a := 0 to 3
      invariant origIjk[..] == CornerPrefix(w2v, flip, shape, a)
    {
      var v := w2v[a];
      origIjk[v] := if flip[a] then (shape[v] - 1) as real else 0.0;
    }
    ijk := origIjk[..];
    CornerPrefixComplete(w2v, flip, shape);
  }

  /** The voxel spacings reordered to RAS: output axis a has the spacing
      of original axis w2v[a]. */
  method RasSpacing(pixdim: Vec4, w2v: AxisMap) returns (rasSpacing: Vec3)
    ensures forall a: Axis :: rasSpacing[a] == pixdim[1 + w2v[a]]
  {
    var origSpacing := [pixdim[1], pixdim[2], pixdim[3]];
    rasSpacing := [origSpacing[w2v[0]], origSpacing[w2v[1]], origSpacing[w2v[2]]];
  }

  /** needs_flip: world axis a is reversed when the voxel axis placed along
      it runs backwards, that is when the direction matrix's entry for that
      voxel axis and world axis a is negative. */
  method RasFlips(affine: Mat3, voxelFlip: seq<bool>, w2v: AxisMap) returns (needsFlip: seq<bool>)
    requires voxelFlip == VoxelFlips(affine)
    ensures needsFlip == NeedsFlip(affine, w2v)
    ensures IsPermutation(VoxelToWorld(affine)) && w2v == WorldToVoxel(VoxelToWorld(affine)) ==>
      forall a: Axis :: needsFlip[a] <==> affine[a][w2v[a]] < 0.0
  {
    needsFlip := [voxelFlip[w2v[0]], voxelFlip[w2v[1]], voxelFlip[w2v[2]]];
    if IsPermutation(VoxelToWorld(affine)) {
      RasAxesRunForward(affine);
    }
  }

  /** When the scan assigns the voxel axes to distinct world axes, output
      axis a (original voxel axis w2v[a]) runs along world axis a, and after
      the flip it runs towards +a: the flag is set exactly when the matrix
      entry is negative, so the flipped entry is never negative. */
  lemma RasAxesRunForward(m: Mat3)
    requires IsPermutation(VoxelToWorld(m))
    ensures var w2v := WorldToVoxel(VoxelToWorld(m));
      forall a: Axis :: IsDominantRow(m, w2v[a], a)
    ensures var w2v := WorldToVoxel(VoxelToWorld(m));
      forall a: Axis :: NeedsFlip(m, w2v)[a] <==> m[a][w2v[a]] < 0.0
    ensures var w2v := WorldToVoxel(VoxelToWorld(m));
      forall a: Axis :: (if NeedsFlip(m, w2v)[a] then -m[a][w2v[a]] else m[a][w2v[a]]) >= 0.0
  {
    forall a: Axis
      ensures var w2v := WorldToVoxel(VoxelToWorld(m));
        IsDominantRow(m, w2v[a], a) && (NeedsFlip(m, w2v)[a] <==> m[a][w2v[a]] < 0.0)
    {
      RasAxisRunsForward(m, a);
    }
  }

  lemma RasAxisRunsForward(m: Mat3, a: Axis)
    requires IsPermutation(VoxelToWorld(m))
    ensures var w2v := WorldToVoxel(VoxelToWorld(m));
      IsDominantRow(m, w2v[a], a) && (NeedsFlip(m, w2v)[a] <==> m[a][w2v[a]] < 0.0)
  {
    var v2w := VoxelToWorld(m);
    var w2v := WorldToVoxel(v2w);
    WorldToVoxelInverts(v2w);
    var c := w2v[a];
    assert DominantRow(m, c) == v2w[c] == a;
    assert NeedsFlip(m, w2v)[a] == VoxelFlip(m, c);
  }

  /** reorient_to_ras as written. It demands that world_to_voxel be a
      permutation: permuted_axes panics otherwise. It does not demand that
      voxel_to_world be one (see WorldToVoxelInverts and
      SilentMisorientation). */
  method ReorientToRas(volume: Grid, h: Header, qa: real) returns (r: Reoriented)
    requires volume.Valid()
    requires IsPermutation(WorldToVoxel(VoxelToWorld(Affine.Affine3x3(h, qa))))
    ensures IsReorientation(volume, h, qa, r)
  {
    var affine := Affine.Affine3x3(h, qa);
    var translation := Affine.Translation(h);
    r := ReorientFrame(volume, affine, translation, h.pixdim);
  }

  /** The body of reorient_to_ras once the header's direction matrix and
      translation are known. */
  method ReorientFrame(volume: Grid, affine: Mat3, translation: Vec3, pixdim: Vec4) returns (r: Reoriented)
    requires volume.Valid()
    requires IsPermutation(WorldToVoxel(VoxelToWorld(affine)))
    ensures IsReorientationOf(volume, affine, translation, pixdim, r)
  {
    var origShape := volume.Shape();

    var voxelToWorld, voxelFlip := AssignAxes(affine);
    var worldToVoxel := InvertAxes(voxelToWorld);

    var rasSpacing := RasSpacing(pixdim, worldToVoxel);
    var needsFlip := RasFlips(affine, voxelFlip, worldToVoxel);
    var vol := PermuteAndFlip(volume, worldToVoxel, needsFlip);

    // The world position of the voxel now at (0,0,0).
    var origIjk := CornerIndex(worldToVoxel, needsFlip, origShape);
    // ras_origin[k] = sum over j of affine[k][j] * orig_ijk[j], plus translation[k].
    var rasOrigin := Apply(affine, translation, origIjk);

    r := Reoriented(vol, rasSpacing, rasOrigin);
    AssembleReorientation(volume, affine, translation, pixdim, worldToVoxel, needsFlip, origIjk, r);
  }

  /** The results of the phases of ReorientFrame make up a reorientation
      (IsReorientationOf). */
  lemma AssembleReorientation(volume: Grid, m: Mat3, t: Vec3, pixdim: Vec4, w2v: AxisMap, flip: seq<bool>, ijk: Vec3, r: Reoriented)
    requires volume.Valid()
    requires w2v == WorldToVoxel(VoxelToWorld(m)) && IsPermutation(w2v)
    requires flip == NeedsFlip(m, w2v)
    requires forall a: Axis :: r.spacing[a] == pixdim[1 + w2v[a]]
    requires r.volume.Valid() && r.volume.Shape() == OutShape(w2v, volume.Shape())
    requires forall i: Index3 | InBox(i, r.volume.Shape()) ::
      r.volume.At(i) == volume.At(SourceIndex(w2v, flip, volume.Shape(), i))
    requires ijk == ToReals(SourceIndex(w2v, flip, volume.Shape(), [0, 0, 0]))
    requires r.origin == Apply(m, t, ijk)
    ensures IsReorientationOf(volume, m, t, pixdim, r)
  {
  }

  // ---------------------------------------------------------------------
  // The checked reorientation

  /** The error for a header whose voxel axes cannot be told apart. */
  const SharedWorldAxis: string := "two voxel axes share a dominant world axis"

  /** reorient_to_ras, refusing a header whose dominant-row scan assigns two
      voxel axes to one world axis: such a grid cannot be brought to RAS by
      permuting its axes, and reorient_to_ras would otherwise panic or permute
      by whatever the inverting loop left (see SilentMisorientation). */
  method ReorientChecked(volume: Grid, h: Header, qa: real) returns (res: Result<Reoriented, string>)
    requires volume.Valid()
    ensures res.Failure? <==> !IsPermutation(VoxelToWorld(Affine.Affine3x3(h, qa)))
    ensures res.Failure? ==> res.error == SharedWorldAxis
    ensures res.Success? ==>
      var v2w := VoxelToWorld(Affine.Affine3x3(h, qa));
      && IsPermutation(WorldToVoxel(v2w))
      && (forall c: Axis :: WorldToVoxel(v2w)[v2w[c]] == c)
      && IsReorientation(volume, h, qa, res.value)
  {
    var affine := Affine.Affine3x3(h, qa);
    var voxelToWorld, _ := AssignAxes(affine);
    if !IsPermutation(voxelToWorld) {
      return Failure(SharedWorldAxis);
    }
    WorldToVoxelInverts(voxelToWorld);
    var r := ReorientToRas(volume, h, qa);
    return Success(r);
  }

  /** The as-written reorientation accepts a header whose scan is not a
      permutation: with columns (1,0,0), (0.9,0.5,0) and (0,0,1), voxel axes
      0 and 1 are both assigned world axis R, yet the inverting loop leaves
      the permutation (1,0,2), so permuted_axes does not panic. The voxel
      axis then placed along world axis A has no A component at all. */
  lemma SilentMisorientation(qa: real)
    ensures
      var h := Header(1, 0, [1.0, 0.9, 0.0, 0.0], [0.0, 0.5, 0.0, 0.0], [0.0, 0.0, 1.0, 0.0],
                      0.0, 0.0, 0.0, 0.0, 0.0, 0.0, [1.0, 1.0, 1.0, 1.0]);
      var m := Affine.Affine3x3(h, qa);
      var w2v := WorldToVoxel(VoxelToWorld(m));
      && !IsPermutation(VoxelToWorld(m))
      && IsPermutation(w2v)
      && w2v == [1, 0, 2]
      && m[1][w2v[1]] == 0.0
  {
    var h := Header(1, 0, [1.0, 0.9, 0.0, 0.0], [0.0, 0.5, 0.0, 0.0], [0.0, 0.0, 1.0, 0.0],
                    0.0, 0.0, 0.0, 0.0, 0.0, 0.0, [1.0, 1.0, 1.0, 1.0]);
    var m := Affine.Affine3x3(h, qa);
    assert m == [[1.0, 0.9, 0.0], [0.0, 0.5, 0.0], [0.0, 0.0, 1.0]];
    assert VoxelToWorld(m) == [0, 0, 2];
    assert WorldToVoxel([0, 0, 2]) == [1, 0, 2];
  }

  // ---------------------------------------------------------------------
  // What the reorientation guarantees

  /** Every original voxel appears in the reoriented grid, at TargetIndex. */
  lemma EveryVoxelKept(volume: Grid, m: Mat3, t: Vec3, pixdim: Vec4, r: Reoriented, j: Index3)
    requires volume.Valid() && IsPermutation(WorldToVoxel(VoxelToWorld(m)))
    requires IsReorientationOf(volume, m, t, pixdim, r)
    requires InBox(j, volume.Shape())
    ensures
      var w2v := WorldToVoxel(VoxelToWorld(m));
      var i := TargetIndex(w2v, NeedsFlip(m, w2v), volume.Shape(), j);
      InBox(i, r.volume.Shape()) && r.volume.At(i) == volume.At(j)
  {
    var w2v := WorldToVoxel(VoxelToWorld(m));
    SourceAfterTarget(w2v, NeedsFlip(m, w2v), volume.Shape(), j);
  }

  /** The direction matrix moves each voxel axis c along world axis p[c]
      only, p being a permutation (a header without obliquity). */
  ghost predicate AxisAligned(m: Mat3, p: AxisMap) {
    IsPermutation(p) && forall r: Axis, c: Axis :: m[r][c] != 0.0 <==> r == p[c]
  }

  /** For an axis-aligned matrix the scan recovers the permutation, and
      world axis a is flipped exactly when its voxel axis runs backwards. */
  lemma AxisAlignedAssignment(m: Mat3, p: AxisMap)
    requires AxisAligned(m, p)
    ensures VoxelToWorld(m) == p
    ensures forall a: Axis :: p[WorldToVoxel(p)[a]] == a
    ensures forall a: Axis :: NeedsFlip(m, WorldToVoxel(p))[a] <==> m[a][WorldToVoxel(p)[a]] < 0.0
  {
    AxisAlignedColumn(m, p, 0);
    AxisAlignedColumn(m, p, 1);
    AxisAlignedColumn(m, p, 2);
    WorldToVoxelInverts(p);
  }

  lemma AxisAlignedColumn(m: Mat3, p: AxisMap, c: Axis)
    requires AxisAligned(m, p)
    ensures DominantRow(m, c) == p[c]
  {
    assert m[p[c]][c] != 0.0;
    assert IsDominantRow(m, c, p[c]);
    DominantRowUnique(m, c, p[c], DominantRow(m, c));
  }

  /** A header with neither sform nor qform and positive spacings assigns
      every voxel axis to its own world axis, unflipped; in particular
      world_to_voxel is a permutation and reorient_to_ras does not panic. */
  lemma SpacingOnlyAxes(h: Header, qa: real)
    requires h.sformCode <= 0 && h.qformCode <= 0
    requires h.pixdim[1] > 0.0 && h.pixdim[2] > 0.0 && h.pixdim[3] > 0.0
    ensures WorldToVoxel(VoxelToWorld(Affine.Affine3x3(h, qa))) == [0, 1, 2]
    ensures NeedsFlip(Affine.Affine3x3(h, qa), [0, 1, 2]) == [false, false, false]
  {
    var m := Affine.Affine3x3(h, qa);
    Affine.SpacingOnlyFrame(h, qa);
    DiagonalIsAligned(m);
    IdentityAxes(m);
  }

  /** A matrix that is non-zero exactly on its diagonal keeps every voxel
      axis on its own world axis. */
  lemma DiagonalIsAligned(m: Mat3)
    requires m[0][0] != 0.0 && m[1][1] != 0.0 && m[2][2] != 0.0
    requires m[0][1] == 0.0 && m[0][2] == 0.0 && m[1][0] == 0.0
    requires m[1][2] == 0.0 && m[2][0] == 0.0 && m[2][1] == 0.0
    ensures AxisAligned(m, [0, 1, 2])
  {
    var p: AxisMap := [0, 1, 2];
    forall r: Axis, c: Axis
      ensures m[r][c] != 0.0 <==> r == p[c]
    {
      assert p[c] == c;
    }
  }

  /** For such a header the reorientation leaves the grid as it is: the
      spacings are pixdim[1..3] and voxel (0,0,0) sits at the world origin. */
  lemma SpacingOnlyIsIdentity(volume: Grid, h: Header, qa: real, r: Reoriented)
    requires volume.Valid()
    requires h.sformCode <= 0 && h.qformCode <= 0
    requires h.pixdim[1] > 0.0 && h.pixdim[2] > 0.0 && h.pixdim[3] > 0.0
    requires IsReorientation(volume, h, qa, r)
    ensures r.spacing == [h.pixdim[1], h.pixdim[2], h.pixdim[3]]
    ensures r.origin == [0.0, 0.0, 0.0]
    ensures r.volume.Shape() == volume.Shape()
    ensures forall i: Index3 | InBox(i, r.volume.Shape()) :: r.volume.At(i) == volume.At(i)
  {
    var m, t := Affine.Affine3x3(h, qa), Affine.Translation(h);
    Affine.SpacingOnlyFrame(h, qa);
    DiagonalIsAligned(m);
    var flip := [false, false, false];
    UnpermutedReorientation(volume, m, t, h.pixdim, r, flip);
    assert r.origin == Apply(m, t, ToReals([0, 0, 0])) by {
      MirrorNone(volume.Shape(), [0, 0, 0]);
    }
    ApplyAtZero(m, t);
    forall i: Index3 | InBox(i, r.volume.Shape())
      ensures r.volume.At(i) == volume.At(i)
    {
      MirrorNone(volume.Shape(), i);
    }
  }

  /** `i` with each axis a for which flip[a] holds counted from its far end. */
  function MirrorAxes(flip: seq<bool>, shape: Index3, i: Index3): (j: Index3)
    requires |flip| == 3
    ensures forall a: Axis :: j[a] == FlipCoord(flip[a], shape[a], i[a])
    ensures InBox(i, shape) ==> InBox(j, shape)
  {
    [FlipCoord(flip[0], shape[0], i[0]), FlipCoord(flip[1], shape[1], i[1]), FlipCoord(flip[2], shape[2], i[2])]
  }

  lemma MirrorNone(shape: Index3, i: Index3)
    ensures MirrorAxes([false, false, false], shape, i) == i
  {
    var j := MirrorAxes([false, false, false], shape, i);
    assert j[0] == i[0] && j[1] == i[1] && j[2] == i[2];
  }

  /** When every voxel axis already runs along its own world axis, the
      reorientation permutes nothing and only reverses the axes whose
      diagonal entry is negative. */
  lemma UnpermutedReorientation(volume: Grid, m: Mat3, t: Vec3, pixdim: Vec4, r: Reoriented, flip: seq<bool>)
    requires volume.Valid() && AxisAligned(m, [0, 1, 2])
    requires flip == [m[0][0] < 0.0, m[1][1] < 0.0, m[2][2] < 0.0]
    requires IsReorientationOf(volume, m, t, pixdim, r)
    ensures r.spacing == [pixdim[1], pixdim[2], pixdim[3]]
    ensures r.volume.Valid() && r.volume.Shape() == volume.Shape()
    ensures r.origin == Apply(m, t, ToReals(MirrorAxes(flip, volume.Shape(), [0, 0, 0])))
    ensures forall i: Index3 | InBox(i, r.volume.Shape()) ::
      r.volume.At(i) == volume.At(MirrorAxes(flip, volume.Shape(), i))
  {
    IdentityAxes(m);
    assert OutShape([0, 1, 2], volume.Shape()) == volume.Shape();
    forall i: Index3
      ensures SourceIndex([0, 1, 2], flip, volume.Shape(), i) == MirrorAxes(flip, volume.Shape(), i)
    {
      SourceIndexUnpermuted(flip, volume.Shape(), i);
    }
  }

  /** A matrix that keeps every voxel axis on its own world axis assigns
      the identity permutation, and flips exactly the axes whose diagonal
      entry is negative. */
  lemma IdentityAxes(m: Mat3)
    requires AxisAligned(m, [0, 1, 2])
    ensures VoxelToWorld(m) == [0, 1, 2] && WorldToVoxel(VoxelToWorld(m)) == [0, 1, 2]
    ensures NeedsFlip(m, [0, 1, 2]) == [m[0][0] < 0.0, m[1][1] < 0.0, m[2][2] < 0.0]
  {
    AxisAlignedAssignment(m, [0, 1, 2]);
    assert WorldToVoxel([0, 1, 2]) == [0, 1, 2];
  }

  /** Without a permutation, SourceIndex only counts flipped axes from
      their far end. */
  lemma SourceIndexUnpermuted(flip: seq<bool>, shape: Index3, i: Index3)
    requires |flip| == 3
    ensures SourceIndex([0, 1, 2], flip, shape, i) == MirrorAxes(flip, shape, i)
  {
    var j, j' := SourceIndex([0, 1, 2], flip, shape, i), MirrorAxes(flip, shape, i);
    assert j[0] == j'[0] && j[1] == j'[1] && j[2] == j'[2];
  }

  /** Voxel (0,0,0) lands on the translation. */
  lemma ApplyAtZero(m: Mat3, t: Vec3)
    ensures Apply(m, t, ToReals([0, 0, 0])) == t
  {
  }

  /** A typical radiological-convention header (sform rows (-1,0,0,90),
      (0,1,0,-126), (0,0,1,-72)) keeps every axis in place and reverses
      axis 0 only. */
  lemma RadiologicalAxes(qa: real)
    ensures WorldToVoxel(VoxelToWorld(Affine.Affine3x3(RadiologicalExample(), qa))) == [0, 1, 2]
    ensures NeedsFlip(Affine.Affine3x3(RadiologicalExample(), qa), [0, 1, 2]) == [true, false, false]
  {
    var m := Affine.Affine3x3(RadiologicalExample(), qa);
    assert m == [[-1.0, 0.0, 0.0], [0.0, 1.0, 0.0], [0.0, 0.0, 1.0]];
    DiagonalIsAligned(m);
    IdentityAxes(m);
  }

  /** On a 181 x 217 x 181 grid under that header, the reoriented voxel
      (0,0,0) is original voxel (180,0,0) and lies at (-90, -126, -72) mm,
      the spacing stays 1 mm on every axis, and reoriented voxel i is original voxel (180 - i0, i1, i2). */
  lemma RadiologicalHeader(volume: Grid, qa: real, r: Reoriented)
    requires volume.Valid() && volume.Shape() == [181, 217, 181]
    requires IsReorientation(volume, RadiologicalExample(), qa, r)
    ensures r.origin == [-90.0, -126.0, -72.0]
    ensures r.spacing == [1.0, 1.0, 1.0]
    ensures r.volume.Shape() == [181, 217, 181]
    ensures forall i: Index3 | InBox(i, r.volume.Shape()) :: r.volume.At(i) == volume.At(MirrorFirst(i, 181))
  {
    var h := RadiologicalExample();
    var m := Affine.Affine3x3(h, qa);
    assert m == [[-1.0, 0.0, 0.0], [0.0, 1.0, 0.0], [0.0, 0.0, 1.0]];
    DiagonalIsAligned(m);
    var flip := [true, false, false];
    UnpermutedReorientation(volume, m, Affine.Translation(h), h.pixdim, r, flip);
    MirrorOnlyFirst(volume.Shape(), [0, 0, 0]);
    RadiologicalOrigin(m, Affine.Translation(h));
    forall i: Index3 | InBox(i, r.volume.Shape())
      ensures r.volume.At(i) == volume.At(MirrorFirst(i, 181))
    {
      MirrorOnlyFirst(volume.Shape(), i);
    }
  }

  lemma MirrorOnlyFirst(shape: Index3, i: Index3)
    ensures MirrorAxes([true, false, false], shape, i) == MirrorFirst(i, shape[0])
  {
    var j := MirrorAxes([true, false, false], shape, i);
    assert j[0] == shape[0] - 1 - i[0] && j[1] == i[1] && j[2] == i[2];
  }

  /** `i` with its first coordinate counted from the far end of an axis of
      length n. */
  function MirrorFirst(i: Index3, n: int): Index3 {
    [n - 1 - i[0], i[1], i[2]]
  }

  /** The header of RadiologicalHeader. */
  function RadiologicalExample(): Header {
    Header(1, 0, [-1.0, 0.0, 0.0, 90.0], [0.0, 1.0, 0.0, -126.0], [0.0, 0.0, 1.0, -72.0],
           0.0, 0.0, 0.0, 0.0, 0.0, 0.0, [1.0, 1.0, 1.0, 1.0])
  }

  lemma RadiologicalOrigin(m: Mat3, t: Vec3)
    requires m == [[-1.0, 0.0, 0.0], [0.0, 1.0, 0.0], [0.0, 0.0, 1.0]]
    requires t == [90.0, -126.0, -72.0]
    ensures Apply(m, t, ToReals([180, 0, 0])) == [-90.0, -126.0, -72.0]
  {
  }
}
