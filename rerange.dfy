/** The pyramid flattener (`detection_model._rerange`): per-level N x C x H x W
    outputs become one (N * sum of H*W) x C array, image-major, then level by
    level, then row-major position within a level. */
module Pyramid {
  import opened Wrappers
  import opened Errors
  import opened Seqs

  /** A dense 4-D tensor `data[image][channel][row][column]` with its shape. */
  datatype Tensor4 = Tensor4(n: nat, c: nat, h: nat, w: nat, data: seq<seq<seq<seq<real>>>>) {
    /** `data` has exactly the shape `n x c x h x w`. */
    predicate Valid() {
      && |data| == n
      && (forall i :: 0 <= i < n ==> |data[i]| == c)
      && (forall i, k :: 0 <= i < n && 0 <= k < c ==> |data[i][k]| == h)
      && (forall i, k, y :: 0 <= i < n && 0 <= k < c && 0 <= y < h ==> |data[i][k][y]| == w)
    }
  }

  /** One pyramid level: classification and box-regression outputs. */
  datatype Level = Level(cls: Tensor4, box: Tensor4)

  predicate AllValid(ts: seq<Tensor4>) {
    forall l :: 0 <= l < |ts| ==> ts[l].Valid()
  }

  /** Every tensor has `n` images and `c` channels. */
  predicate SameImagesAndChannels(ts: seq<Tensor4>, n: nat, c: nat) {
    forall l :: 0 <= l < |ts| ==> ts[l].n == n && ts[l].c == c
  }

  /** `H * W` of every level, in level order. */
  function Sizes(ts: seq<Tensor4>): (s: seq<nat>)
    ensures |s| == |ts| && forall l :: 0 <= l < |ts| ==> s[l] == ts[l].h * ts[l].w
  {
    seq(|ts|, l requires 0 <= l < |ts| => ts[l].h * ts[l].w)
  }

  /** P: the number of positions of one image, over all levels. */
  function Positions(ts: seq<Tensor4>): nat {
    SumNat(Sizes(ts))
  }

  /** The first position of level `l` inside one image's rows. */
  function LevelOffset(ts: seq<Tensor4>, l: nat): nat
    requires l <= |ts|
  {
    SumNat(Sizes(ts)[..l])
  }

  /** The blocks of `LevelRows`: for each spatial row `y`, one output row per column `x`. */
  function SpatialBlocks(t: Tensor4, i: nat): (bs: seq<seq<seq<real>>>)
    requires t.Valid() && i < t.n
    ensures |bs| == t.h && forall y :: 0 <= y < t.h ==> |bs[y]| == t.w
  {
    seq(t.h, y requires 0 <= y < t.h =>
      seq(t.w, x requires 0 <= x < t.w =>
        seq(t.c, k requires 0 <= k < t.c => t.data[i][k][y][x])))
  }

  /** Image `i` of one level after `view(n, c, -1)` and `permute(0, 2, 1)`:
      one row per position `y * w + x`, one column per channel. */
  function LevelRows(t: Tensor4, i: nat): (rows: seq<seq<real>>)
    requires t.Valid() && i < t.n
    ensures |rows| == t.h * t.w
    ensures IsMatrix(rows, t.c)
  {
    var bs := SpatialBlocks(t, i);
    var sizes := seq(t.h, y requires 0 <= y < t.h => t.w);
    assert Lengths(bs) == sizes;
    SumUniform(sizes, t.w, t.h);
    assert sizes[..t.h] == sizes;
    ConcatMatrix(bs, t.c);
    Concat(bs)
  }

  /** The level blocks of one image's rows, in level order. */
  function LevelBlocks(ts: seq<Tensor4>, i: nat): (bs: seq<seq<seq<real>>>)
    requires AllValid(ts) && forall l :: 0 <= l < |ts| ==> i < ts[l].n
    ensures |bs| == |ts| && forall l :: 0 <= l < |ts| ==> |bs[l]| == Sizes(ts)[l]
  {
    seq(|ts|, l requires 0 <= l < |ts| => LevelRows(ts[l], i))
  }

  /** All rows of image `i`: the levels concatenated along the position axis. */
  function ImageRows(ts: seq<Tensor4>, n: nat, c: nat, i: nat): (rows: seq<seq<real>>)
    requires AllValid(ts) && SameImagesAndChannels(ts, n, c) && i < n
    ensures |rows| == Positions(ts)
    ensures IsMatrix(rows, c)
  {
    var bs := LevelBlocks(ts, i);
    assert Lengths(bs) == Sizes(ts);
    ConcatMatrix(bs, c);
    Concat(bs)
  }

  /** The blocks of `Flatten`: one per image, in image order. */
  function ImageBlocks(ts: seq<Tensor4>, n: nat, c: nat): (bs: seq<seq<seq<real>>>)
    requires AllValid(ts) && SameImagesAndChannels(ts, n, c)
    ensures |bs| == n && forall i :: 0 <= i < n ==> |bs[i]| == Positions(ts)
  {
    seq(n, i requires 0 <= i < n => ImageRows(ts, n, c, i))
  }

  /** The levels concatenated along the position axis (`torch.cat(..., dim=2)`),
      then `permute(0, 2, 1)` and `view(-1, c)`: image-major rows of `c` columns. */
  function Flatten(ts: seq<Tensor4>, n: nat, c: nat): (rows: seq<seq<real>>)
    requires AllValid(ts) && SameImagesAndChannels(ts, n, c)
    ensures |rows| == n * Positions(ts)
    ensures IsMatrix(rows, c)
  {
    var bs := ImageBlocks(ts, n, c);
    var sizes := seq(n, i requires 0 <= i < n => Positions(ts));
    assert Lengths(bs) == sizes;
    SumUniform(sizes, Positions(ts), n);
    assert sizes[..n] == sizes;
    ConcatMatrix(bs, c);
    Concat(bs)
  }

  /** Row `y * w + x` of `LevelRows(t, i)` holds the channels at spatial position (y, x). */
  lemma LevelRowsAt(t: Tensor4, i: nat, y: nat, x: nat)
    requires t.Valid() && i < t.n && y < t.h && x < t.w
    ensures GridIndex(y, t.w, x) < |LevelRows(t, i)|
    ensures forall k :: 0 <= k < t.c ==> LevelRows(t, i)[GridIndex(y, t.w, x)][k] == t.data[i][k][y][x]
  {
    var bs := SpatialBlocks(t, i);
    var sizes := seq(t.h, y requires 0 <= y < t.h => t.w);
    ConcatAt(bs, sizes, y, x);
    SumUniform(sizes, t.w, y);
  }

  /** Row `LevelOffset(ts, l) + q` of image `i` is row `q` of level `l`. */
  lemma ImageRowsAt(ts: seq<Tensor4>, n: nat, c: nat, i: nat, l: nat, q: nat)
    requires AllValid(ts) && SameImagesAndChannels(ts, n, c) && i < n
    requires l < |ts| && q < ts[l].h * ts[l].w
    ensures LevelOffset(ts, l) + q < Positions(ts)
    ensures ImageRows(ts, n, c, i)[LevelOffset(ts, l) + q] == LevelRows(ts[l], i)[q]
  {
    var bs := LevelBlocks(ts, i);
    assert ImageRows(ts, n, c, i) == Concat(bs);
    ConcatAt(bs, Sizes(ts), l, q);
  }

  /** Row `i * P + q` of the flattened array is row `q` of image `i`. */
  lemma FlattenAt(ts: seq<Tensor4>, n: nat, c: nat, i: nat, q: nat)
    requires AllValid(ts) && SameImagesAndChannels(ts, n, c) && i < n
    requires q < Positions(ts)
    ensures GridIndex(i, Positions(ts), q) < |Flatten(ts, n, c)|
    ensures Flatten(ts, n, c)[GridIndex(i, Positions(ts), q)] == ImageRows(ts, n, c, i)[q]
  {
    var bs := ImageBlocks(ts, n, c);
    var P := Positions(ts);
    var sizes := seq(n, j requires 0 <= j < n => P);
    var f := GridIndex(i, P, q);
    GridIndexBound(i, n, q, P);
    ConcatAt(bs, sizes, i, q);
    SumUniform(sizes, P, i);
    assert f == SumNat(sizes[..i]) + q;
    assert Concat(bs)[f] == ImageRows(ts, n, c, i)[q];
    assert Flatten(ts, n, c) == Concat(bs);
  }

  /** Row `LevelOffset(ts, l)` plus `q` falls in level `l`: levels follow one another
      in order and do not overlap. */
  lemma {:induction false} LevelOffsetStep(ts: seq<Tensor4>, l: nat)
    requires l < |ts|
    ensures LevelOffset(ts, l + 1) == LevelOffset(ts, l) + ts[l].h * ts[l].w
    ensures LevelOffset(ts, l + 1) <= Positions(ts)
  {
    var s := Sizes(ts);
    assert s[..l + 1][..l] == s[..l];
    var rest := s[l + 1..];
    assert s == s[..l + 1] + rest;
    SumNatAppend(s[..l + 1], rest);
  }

  /** Every row of image `i`'s block comes from one level and one spatial position. */
  lemma ImageRowsLocate(ts: seq<Tensor4>, n: nat, c: nat, i: nat, q: nat)
    returns (l: nat, y: nat, x: nat)
    requires AllValid(ts) && SameImagesAndChannels(ts, n, c) && i < n
    requires q < Positions(ts)
    ensures l < |ts| && y < ts[l].h && x < ts[l].w
    ensures q == LevelOffset(ts, l) + GridIndex(y, ts[l].w, x)
  {
    var bs := LevelBlocks(ts, i);
    assert Lengths(bs) == Sizes(ts);
    assert ImageRows(ts, n, c, i) == Concat(bs);
    var p;
    l, p := ConcatLocate(bs, Sizes(ts), q);
    var t := ts[l];
    var sizes := seq(t.h, y requires 0 <= y < t.h => t.w);
    var sb := SpatialBlocks(t, i);
    assert LevelRows(t, i) == Concat(sb);
    assert Lengths(sb) == sizes;
    y, x := ConcatLocate(sb, sizes, p);
    SumUniform(sizes, t.w, y);
  }

  function ClsTensors(levels: seq<Level>): (ts: seq<Tensor4>)
    ensures |ts| == |levels| && forall l :: 0 <= l < |levels| ==> ts[l] == levels[l].cls
  {
    seq(|levels|, l requires 0 <= l < |levels| => levels[l].cls)
  }

  function BoxTensors(levels: seq<Level>): (ts: seq<Tensor4>)
    ensures |ts| == |levels| && forall l :: 0 <= l < |levels| ==> ts[l] == levels[l].box
  {
    seq(|levels|, l requires 0 <= l < |levels| => levels[l].box)
  }

  /** Every classification and box tensor is dense. */
  predicate LevelsValid(levels: seq<Level>) {
    forall l :: 0 <= l < |levels| ==> levels[l].cls.Valid() && levels[l].box.Valid()
  }

  /** The levels agree with level 0 on image count and channel counts, and each
      level's box tensor has the spatial size of its classification tensor. */
  predicate SharedShape(levels: seq<Level>)
    requires |levels| > 0
  {
    forall l :: 0 <= l < |levels| ==>
      && levels[l].cls.n == levels[0].cls.n && levels[l].cls.c == levels[0].cls.c
      && levels[l].box.n == levels[0].cls.n && levels[l].box.c == levels[0].box.c
      && levels[l].box.h == levels[l].cls.h && levels[l].box.w == levels[l].cls.w
  }

  /** `_rerange`: the (classification, box) pair of flattened arrays.
      `lastDimension` defaults to `numClasses`. */
  function Rerange(levels: seq<Level>, lastDimension: Option<nat>, numClasses: nat)
    : (r: Result<(seq<seq<real>>, seq<seq<real>>), Error>)
    requires LevelsValid(levels)
    ensures |levels| == 0 ==> r == Err(EmptyPyramid)
    ensures |levels| > 0 && (!SharedShape(levels) || lastDimension.GetOr(numClasses) != levels[0].cls.c)
            ==> r == Err(ShapeMismatch)
    ensures r.Ok? <==>
              && |levels| > 0 && SharedShape(levels)
              && lastDimension.GetOr(numClasses) == levels[0].cls.c
              && levels[0].cls.n > 0 && levels[0].cls.c > 0 && levels[0].box.c > 0
              && Positions(ClsTensors(levels)) > 0
    ensures r.Ok? ==>
              && |r.value.0| == levels[0].cls.n * Positions(ClsTensors(levels))
              && IsMatrix(r.value.0, lastDimension.GetOr(numClasses))
              && |r.value.1| == |r.value.0|
              && IsMatrix(r.value.1, levels[0].box.c)
  {
    if |levels| == 0 then Err(EmptyPyramid)
    else
      var n, c, cb := levels[0].cls.n, levels[0].cls.c, levels[0].box.c;
      var cls, box := ClsTensors(levels), BoxTensors(levels);
      if !SharedShape(levels) || lastDimension.GetOr(numClasses) != c then Err(ShapeMismatch)
      else if n == 0 || c == 0 || cb == 0 || Positions(cls) == 0 then Err(AmbiguousReshape)
      else
        assert Sizes(box) == Sizes(cls);
        Ok((Flatten(cls, n, c), Flatten(box, n, cb)))
  }

  /** Under a shared shape, box and classification levels have the same sizes. */
  lemma RerangeShapesAgree(levels: seq<Level>)
    requires LevelsValid(levels) && |levels| > 0 && SharedShape(levels)
    ensures Sizes(BoxTensors(levels)) == Sizes(ClsTensors(levels))
  {
  }

  /** The row of the flattened arrays that holds image `i`, level `l`, spatial
      position (y, x). */
  function RowOf(levels: seq<Level>, i: nat, l: nat, y: nat, x: nat): nat
    requires l < |levels|
  {
    var ts := ClsTensors(levels);
    GridIndex(i, Positions(ts), LevelOffset(ts, l) + GridIndex(y, levels[l].cls.w, x))
  }

  /** The index map of `Flatten`, composed from its three concatenations. */
  lemma FlattenIndexMap(ts: seq<Tensor4>, n: nat, c: nat, i: nat, l: nat, y: nat, x: nat)
    requires AllValid(ts) && SameImagesAndChannels(ts, n, c) && i < n
    requires l < |ts| && y < ts[l].h && x < ts[l].w
    ensures GridIndex(i, Positions(ts), LevelOffset(ts, l) + GridIndex(y, ts[l].w, x)) < |Flatten(ts, n, c)|
    ensures forall k :: 0 <= k < c ==>
              Flatten(ts, n, c)[GridIndex(i, Positions(ts), LevelOffset(ts, l) + GridIndex(y, ts[l].w, x))][k]
                == ts[l].data[i][k][y][x]
  {
    var q := GridIndex(y, ts[l].w, x);
    LevelRowsAt(ts[l], i, y, x);
    ImageRowsAt(ts, n, c, i, l, q);
    FlattenAt(ts, n, c, i, LevelOffset(ts, l) + q);
    var o := LevelOffset(ts, l) + q;
    var f := GridIndex(i, Positions(ts), o);
    var flat, image, level := Flatten(ts, n, c), ImageRows(ts, n, c, i), LevelRows(ts[l], i);
    assert flat[f] == image[o];
    assert image[o] == level[q];
  }

  /** The index map of `_rerange` for the classification output: column `k` of
      row `RowOf(levels, i, l, y, x)` is channel `k` of level `l` at image `i`,
      spatial position (y, x). */
  lemma RerangeIndexMap(levels: seq<Level>, lastDimension: Option<nat>, numClasses: nat,
                        rows: seq<seq<real>>, boxes: seq<seq<real>>, i: nat, l: nat, y: nat, x: nat)
    requires LevelsValid(levels) && Rerange(levels, lastDimension, numClasses) == Ok((rows, boxes))
    requires l < |levels| && i < levels[l].cls.n && y < levels[l].cls.h && x < levels[l].cls.w
    ensures RowOf(levels, i, l, y, x) < |rows|
    ensures forall k :: 0 <= k < levels[l].cls.c ==>
              rows[RowOf(levels, i, l, y, x)][k] == levels[l].cls.data[i][k][y][x]
  {
    var n, c := levels[0].cls.n, levels[0].cls.c;
    var cls := ClsTensors(levels);
    assert rows == Flatten(cls, n, c);
    FlattenIndexMap(cls, n, c, i, l, y, x);
  }

  /** The same index map for the box output: the box row that shares its index
      with a classification row holds the box channels of the same image, level
      and position. */
  lemma RerangeBoxIndexMap(levels: seq<Level>, lastDimension: Option<nat>, numClasses: nat,
                           rows: seq<seq<real>>, boxes: seq<seq<real>>, i: nat, l: nat, y: nat, x: nat)
    requires LevelsValid(levels) && Rerange(levels, lastDimension, numClasses) == Ok((rows, boxes))
    requires l < |levels| && i < levels[l].cls.n && y < levels[l].cls.h && x < levels[l].cls.w
    ensures RowOf(levels, i, l, y, x) < |boxes|
    ensures forall k :: 0 <= k < levels[l].box.c ==>
              boxes[RowOf(levels, i, l, y, x)][k] == levels[l].box.data[i][k][y][x]
  {
    var n, cb := levels[0].cls.n, levels[0].box.c;
    var cls, box := ClsTensors(levels), BoxTensors(levels);
    RerangeShapesAgree(levels);
    assert boxes == Flatten(box, n, cb);
    assert LevelOffset(box, l) == LevelOffset(cls, l);
    assert box[l] == levels[l].box;
    FlattenIndexMap(box, n, cb, i, l, y, x);
  }

  /** Every row of `Flatten` splits into an image and a position of that image:
      `f / P` and `f % P`. */
  lemma FlattenLocate(ts: seq<Tensor4>, n: nat, c: nat, f: nat) returns (i: nat, q: nat)
    requires AllValid(ts) && SameImagesAndChannels(ts, n, c)
    requires f < |Flatten(ts, n, c)|
    ensures i < n && q < Positions(ts) && f == GridIndex(i, Positions(ts), q)
    ensures i == f / Positions(ts) && q == f % Positions(ts)
  {
    var P := Positions(ts);
    var bs := ImageBlocks(ts, n, c);
    var sizes := seq(n, j requires 0 <= j < n => P);
    assert Flatten(ts, n, c) == Concat(bs);
    i, q := ConcatLocate(bs, sizes, f);
    SumUniform(sizes, P, i);
    assert f == GridIndex(i, P, q);
    GridIndexDivMod(i, P, q);
  }

  /** Conversely, every output row is `RowOf` exactly one (image, level, position):
      its image is the row index divided by P (rows of image `i` form the block
      [i * P, (i + 1) * P)), and its remainder lies in the block of its level. */
  lemma RerangeLocate(levels: seq<Level>, lastDimension: Option<nat>, numClasses: nat,
                      rows: seq<seq<real>>, boxes: seq<seq<real>>, f: nat)
    returns (i: nat, l: nat, y: nat, x: nat)
    requires LevelsValid(levels) && Rerange(levels, lastDimension, numClasses) == Ok((rows, boxes))
    requires f < |rows|
    ensures l < |levels| && i < levels[l].cls.n && y < levels[l].cls.h && x < levels[l].cls.w
    ensures f == RowOf(levels, i, l, y, x)
    ensures i == f / Positions(ClsTensors(levels))
    ensures LevelOffset(ClsTensors(levels), l) <= f % Positions(ClsTensors(levels))
              < LevelOffset(ClsTensors(levels), l + 1)
  {
    var n, c := levels[0].cls.n, levels[0].cls.c;
    var ts := ClsTensors(levels);
    assert rows == Flatten(ts, n, c);
    var q;
    i, q := FlattenLocate(ts, n, c, f);
    l, y, x := ImageRowsLocate(ts, n, c, i, q);
    LevelOffsetStep(ts, l);
    GridIndexBound(y, levels[l].cls.h, x, levels[l].cls.w);
  }

  /** Image-major layout: the rows of image `i` form the block
      `[i * P, (i + 1) * P)` of the flattened arrays. */
  lemma RowOfInImageBlock(levels: seq<Level>, i: nat, l: nat, y: nat, x: nat)
    requires l < |levels| && y < levels[l].cls.h && x < levels[l].cls.w
    ensures var p := Positions(ClsTensors(levels));
            GridIndex(i, p, 0) <= RowOf(levels, i, l, y, x) < GridIndex(i + 1, p, 0)
  {
    var ts := ClsTensors(levels);
    GridIndexBound(y, levels[l].cls.h, x, levels[l].cls.w);
    LevelOffsetStep(ts, l);
    var p := Positions(ts);
    assert GridIndex(i + 1, p, 0) == GridIndex(i, p, 0) + p;
  }

  /** Level order is preserved: inside one image, every row of level `l` comes
      before every row of a later level `l'`. */
  lemma RerangeLevelOrder(levels: seq<Level>, i: nat, l: nat, y: nat, x: nat, l': nat, y': nat, x': nat)
    requires l < l' < |levels|
    requires y < levels[l].cls.h && x < levels[l].cls.w
    requires y' < levels[l'].cls.h && x' < levels[l'].cls.w
    ensures RowOf(levels, i, l, y, x) < RowOf(levels, i, l', y', x')
  {
    var ts := ClsTensors(levels);
    GridIndexBound(y, levels[l].cls.h, x, levels[l].cls.w);
    LevelOffsetStep(ts, l);
    LevelOffsetMonotone(ts, l + 1, l');
  }

  lemma {:induction false} LevelOffsetMonotone(ts: seq<Tensor4>, l: nat, l': nat)
    requires l <= l' <= |ts|
    ensures LevelOffset(ts, l) <= LevelOffset(ts, l')
  {
    if l < l' {
      LevelOffsetMonotone(ts, l, l' - 1);
      LevelOffsetStep(ts, l' - 1);
    }
  }
}
