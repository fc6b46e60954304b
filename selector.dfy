/** The stage-1 top-N selector (`detection_model._decode_and_choose_top_n_stage1`):
    rank every proposal row of the batch by objectness, keep the first `top_n`,
    split each kept flat index into (image id, anchor id) and gather the
    matching box, probability and anchor rows. */
module Proposals {
  import opened Wrappers
  import opened Errors
  import opened Seqs
  import opened Scoring

  /** Every index of `s` addresses an entry of a sequence of length `n`. */
  predicate IndicesBelow(s: seq<nat>, n: nat) {
    forall k :: 0 <= k < |s| ==> s[k] < n
  }

  /** No index occurs twice in `s`. */
  predicate Distinct(s: seq<nat>) {
    forall a, b :: 0 <= a < b < |s| ==> s[a] != s[b]
  }

  /** The scores of the indices in `s` never increase along `s`. */
  predicate SortedDesc(obj: seq<real>, s: seq<nat>)
    requires IndicesBelow(s, |obj|)
  {
    forall a, b :: 0 <= a < b < |s| ==> obj[s[a]] >= obj[s[b]]
  }

  /** Insert index `x` into the descending ranking `s`, before the first entry
      whose score is not greater than `obj[x]`. */
  function InsertByScore(obj: seq<real>, x: nat, s: seq<nat>): (r: seq<nat>)
    requires x < |obj| && IndicesBelow(s, |obj|) && SortedDesc(obj, s)
    ensures multiset(r) == multiset(s) + multiset{x}
    ensures IndicesBelow(r, |obj|) && SortedDesc(obj, r)
  {
    if s == [] || obj[s[0]] <= obj[x] then [x] + s
    else
      var rest := InsertByScore(obj, x, s[1..]);
      HeadDominates(obj, x, s, rest);
      assert s == [s[0]] + s[1..];
      [s[0]] + rest
  }

  /** When `x` is inserted behind the head of `s`, that head still ranks first,
      and it is not repeated when neither `s` nor `x` repeats it. */
  lemma HeadDominates(obj: seq<real>, x: nat, s: seq<nat>, rest: seq<nat>)
    requires x < |obj| && IndicesBelow(s, |obj|) && SortedDesc(obj, s)
    requires s != [] && obj[s[0]] > obj[x]
    requires IndicesBelow(rest, |obj|) && multiset(rest) == multiset(s[1..]) + multiset{x}
    ensures forall j :: 0 <= j < |rest| ==> obj[s[0]] >= obj[rest[j]]
    ensures Distinct(s) && x !in s ==> s[0] !in rest
  {
    forall j | 0 <= j < |rest| ensures obj[s[0]] >= obj[rest[j]] {
      assert rest[j] in multiset(rest);
      if rest[j] != x {
        assert rest[j] in multiset(s[1..]);
        var m :| 0 <= m < |s[1..]| && s[1..][m] == rest[j];
        assert s[m + 1] == rest[j];
      }
    }
    if Distinct(s) && x !in s {
      forall m | 0 <= m < |s[1..]| ensures s[1..][m] != s[0] {
        assert s[1..][m] == s[m + 1];
      }
      assert s[0] !in multiset(s[1..]) + multiset{x};
    }
  }

  /** Insertion sort of the indices `ids` by descending score. */
  function SortByScore(obj: seq<real>, ids: seq<nat>): (r: seq<nat>)
    requires IndicesBelow(ids, |obj|)
    ensures multiset(r) == multiset(ids)
    ensures IndicesBelow(r, |obj|) && SortedDesc(obj, r)
  {
    if ids == [] then []
    else
      assert ids == [ids[0]] + ids[1..];
      InsertByScore(obj, ids[0], SortByScore(obj, ids[1..]))
  }

  /** Inserting an index that is not yet ranked keeps the ranking free of repeats. */
  lemma {:induction false} InsertDistinct(obj: seq<real>, x: nat, s: seq<nat>)
    requires x < |obj| && IndicesBelow(s, |obj|) && SortedDesc(obj, s)
    requires Distinct(s) && x !in s
    ensures Distinct(InsertByScore(obj, x, s))
  {
    if s != [] && obj[s[0]] > obj[x] {
      var rest := InsertByScore(obj, x, s[1..]);
      InsertDistinct(obj, x, s[1..]);
      HeadDominates(obj, x, s, rest);
      assert InsertByScore(obj, x, s) == [s[0]] + rest;
    }
  }

  /** Sorting indices without repeats gives a ranking without repeats. */
  lemma {:induction false} SortDistinct(obj: seq<real>, ids: seq<nat>)
    requires IndicesBelow(ids, |obj|) && Distinct(ids)
    ensures Distinct(SortByScore(obj, ids))
  {
    if ids != [] {
      var sorted := SortByScore(obj, ids[1..]);
      SortDistinct(obj, ids[1..]);
      assert ids == [ids[0]] + ids[1..];
      assert ids[0] !in multiset(ids[1..]);
      InsertDistinct(obj, ids[0], sorted);
    }
  }

  /** `objness.sort(dim=0, descending=True)[1]`: all row indices, best first.
      Ties keep the lower index first; that choice is the model's, since
      `torch.sort` promises no order among equal keys. */
  function Ranking(obj: seq<real>): (rk: seq<nat>)
    ensures |rk| == |obj|
    ensures IndicesBelow(rk, |obj|) && Distinct(rk) && SortedDesc(obj, rk)
    ensures forall r :: 0 <= r < |obj| ==> r in rk
  {
    var ids := Range(|obj|);
    var rk := SortByScore(obj, ids);
    assert Distinct(ids);
    SortDistinct(obj, ids);
    assert |rk| == |multiset(rk)| == |multiset(ids)| == |ids|;
    assert forall r :: 0 <= r < |obj| ==> r in rk by {
      forall r | 0 <= r < |obj| ensures r in rk {
        assert ids[r] == r;
        assert r in multiset(ids);
      }
    }
    rk
  }

  /** Where Python's slice `s[:t]` ends, for a sequence of length `len`. */
  function SliceEnd(len: nat, t: int): (e: nat)
    ensures e <= len
  {
    if t >= 0 then (if t < len then t else len)
    else (if len + t > 0 then len + t else 0)
  }

  /** `inds[:top_n]`: the indices of the `top_n` highest-scoring rows, best first. */
  function TopN(obj: seq<real>, topN: int): (inds: seq<nat>)
    ensures topN >= 0 ==> |inds| == if topN < |obj| then topN else |obj|
    ensures topN < 0 ==> |inds| == if |obj| + topN > 0 then |obj| + topN else 0
    ensures IndicesBelow(inds, |obj|) && Distinct(inds) && SortedDesc(obj, inds)
    ensures forall r, k :: 0 <= r < |obj| && r !in inds && 0 <= k < |inds| ==> obj[r] <= obj[inds[k]]
  {
    var rk := Ranking(obj);
    var inds := rk[..SliceEnd(|obj|, topN)];
    forall r, k | 0 <= r < |obj| && r !in inds && 0 <= k < |inds| ensures obj[r] <= obj[inds[k]] {
      assert r in rk;
      var j :| 0 <= j < |rk| && rk[j] == r;
      assert forall m :: 0 <= m < |inds| ==> inds[m] == rk[m];
      assert inds[k] == rk[k];
    }
    inds
  }

  /** `inds % anchors.size(0)`: the anchor of each flat index. */
  function AnchorIds(inds: seq<nat>, a: nat): (ids: seq<nat>)
    requires a > 0 || inds == []
    ensures |ids| == |inds| && IndicesBelow(ids, a)
  {
    seq(|inds|, k requires 0 <= k < |inds| => inds[k] % a)
  }

  /** `inds / anchors.size(0)`, as floor division: the image of each flat index. */
  function ImageIds(inds: seq<nat>, a: nat): (ids: seq<nat>)
    requires a > 0 || inds == []
    ensures |ids| == |inds|
  {
    seq(|inds|, k requires 0 <= k < |inds| => inds[k] / a)
  }

  /** The image id and anchor id of a flat index put it back together:
      `img_id * A + anchor_id == f`. */
  lemma FlatIndexRoundTrip(inds: seq<nat>, a: nat)
    requires a > 0
    ensures forall k :: 0 <= k < |inds| ==>
              GridIndex(ImageIds(inds, a)[k], a, AnchorIds(inds, a)[k]) == inds[k]
  {
    forall k | 0 <= k < |inds|
      ensures GridIndex(ImageIds(inds, a)[k], a, AnchorIds(inds, a)[k]) == inds[k]
    {
      var f := inds[k];
      assert ImageIds(inds, a)[k] == f / a && AnchorIds(inds, a)[k] == f % a;
      assert (f / a) * a + f % a == f;
    }
  }

  /** `rows[inds]`: advanced indexing with a sequence of row indices. */
  function Gather<T>(rows: seq<T>, inds: seq<nat>): (g: seq<T>)
    requires IndicesBelow(inds, |rows|)
    ensures |g| == |inds| && forall k :: 0 <= k < |inds| ==> g[k] == rows[inds[k]]
  {
    seq(|inds|, k requires 0 <= k < |inds| => rows[inds[k]])
  }

  /** The four results of the selector, plus the flat indices `inds` and the
      anchor ids `anchor_ids` it computes on the way. */
  datatype Proposals = Proposals(
    boxes: seq<seq<real>>,
    probs: seq<seq<real>>,
    imgIds: seq<nat>,
    anchors: seq<seq<real>>,
    indices: seq<nat>,
    anchorIds: seq<nat>)

  /** The external box decoder: regression rows and their anchors in, decoded boxes out. */
  type Decoder = (seq<seq<real>>, seq<seq<real>>, string) -> seq<seq<real>>

  /** `_decode_and_choose_top_n_stage1` for the `rows x probCols` probability array
      `rpnProb`, the box rows `rpnBox` and the anchor rows `anchors` shared by every
      image. Objectness uses the configured `rpnActivation`; `decode` stands for
      `decoding_box` with the configured `boxEncoding`. */
  function DecodeAndChooseTopN(rpnBox: seq<seq<real>>, rpnProb: seq<seq<real>>, probCols: nat,
                               anchors: seq<seq<real>>, topN: int, rpnActivation: string,
                               boxEncoding: string, decode: Decoder): (r: Result<Proposals, Error>)
    requires IsMatrix(rpnProb, probCols)
    ensures Objectness(rpnProb, probCols, None, rpnActivation).Err? ==>
              r == Err(Objectness(rpnProb, probCols, None, rpnActivation).error)
    ensures Objectness(rpnProb, probCols, None, rpnActivation).Ok? ==>
              var inds := TopN(Objectness(rpnProb, probCols, None, rpnActivation).value, topN);
              && (!IndicesBelow(inds, |rpnBox|) ==> r == Err(IndexOutOfRange))
              && (IndicesBelow(inds, |rpnBox|) && |anchors| == 0 && inds != [] ==> r == Err(DivisionByZero))
              && (IndicesBelow(inds, |rpnBox|) && (|anchors| > 0 || inds == []) ==> r.Ok? && r.value.indices == inds)
    ensures r.Ok? ==>
              var p := r.value;
              && IndicesBelow(p.indices, |rpnProb|) && IndicesBelow(p.indices, |rpnBox|)
              && |p.probs| == |p.imgIds| == |p.anchors| == |p.anchorIds| == |p.indices|
              && (forall k :: 0 <= k < |p.indices| ==>
                    && p.anchorIds[k] < |anchors|
                    && p.anchorIds[k] == p.indices[k] % |anchors|
                    && p.imgIds[k] == p.indices[k] / |anchors|
                    && GridIndex(p.imgIds[k], |anchors|, p.anchorIds[k]) == p.indices[k]
                    && p.probs[k] == rpnProb[p.indices[k]]
                    && p.anchors[k] == anchors[p.anchorIds[k]])
              && p.boxes == decode(Gather(rpnBox, p.indices), p.anchors, boxEncoding)
              && ((forall b, a, e :: |decode(b, a, e)| == |b|) ==> |p.boxes| == |p.indices|)
  {
    match Objectness(rpnProb, probCols, None, rpnActivation)
    case Err(e) => Err(e)
    case Ok(obj) =>
      var inds := TopN(obj, topN);
      if !IndicesBelow(inds, |rpnBox|) then Err(IndexOutOfRange)
      else if |anchors| == 0 && inds != [] then Err(DivisionByZero)
      else
        var selectedBoxes := Gather(rpnBox, inds);
        var selectedProbs := Gather(rpnProb, inds);
        var anchorIds := AnchorIds(inds, |anchors|);
        var selectedAnchors := Gather(anchors, anchorIds);
        var boxes := decode(selectedBoxes, selectedAnchors, boxEncoding);
        var imgIds := ImageIds(inds, |anchors|);
        assert |anchors| > 0 ==> forall k :: 0 <= k < |inds| ==>
          GridIndex(imgIds[k], |anchors|, anchorIds[k]) == inds[k] by {
          if |anchors| > 0 { FlatIndexRoundTrip(inds, |anchors|); }
        }
        Ok(Proposals(boxes, selectedProbs, imgIds, selectedAnchors, inds, anchorIds))
  }

  /** When the probability rows are those of `n` images over the same `A` anchors
      (image-major), every selected image id names one of the `n` images. */
  lemma ImageIdsBelowBatch(rpnBox: seq<seq<real>>, rpnProb: seq<seq<real>>, probCols: nat,
                           anchors: seq<seq<real>>, topN: int, rpnActivation: string,
                           boxEncoding: string, decode: Decoder, n: nat)
    requires IsMatrix(rpnProb, probCols) && |rpnProb| == n * |anchors|
    requires DecodeAndChooseTopN(rpnBox, rpnProb, probCols, anchors, topN, rpnActivation, boxEncoding, decode).Ok?
    ensures forall k :: 0 <= k < |DecodeAndChooseTopN(rpnBox, rpnProb, probCols, anchors, topN, rpnActivation, boxEncoding, decode).value.imgIds| ==>
              DecodeAndChooseTopN(rpnBox, rpnProb, probCols, anchors, topN, rpnActivation, boxEncoding, decode).value.imgIds[k] < n
  {
    var p := DecodeAndChooseTopN(rpnBox, rpnProb, probCols, anchors, topN, rpnActivation, boxEncoding, decode).value;
    forall k | 0 <= k < |p.imgIds| ensures p.imgIds[k] < n {
      DivBelow(p.indices[k], n, |anchors|);
    }
  }

  /** A selection of rows meets the top-N contract: distinct rows, best first,
      and no unselected row scores higher than a selected one. */
  predicate IsTopSelection(obj: seq<real>, t: seq<nat>) {
    && IndicesBelow(t, |obj|) && Distinct(t) && SortedDesc(obj, t)
    && forall r, k :: 0 <= r < |obj| && r !in t && 0 <= k < |t| ==> obj[r] <= obj[t[k]]
  }

  /** With pairwise distinct scores the top-N contract leaves no choice: any
      selection of three that meets it is the three best rows, best first.
      Shown on two images of five anchors each, scored
      [0.9, 0.1, 0.2, 0.05, 0.8] and [0.3, 0.4, 0.95, 0.6, 0.2]. */
  lemma TopThreeOfTwoImages(obj: seq<real>, t: seq<nat>)
    requires obj == [0.9, 0.1, 0.2, 0.05, 0.8, 0.3, 0.4, 0.95, 0.6, 0.2]
    requires |t| == 3 && IsTopSelection(obj, t)
    ensures t == [7, 0, 4]
  {
    // Row 7 scores at least as well as the first selection, whether row 7 is selected or not.
    assert obj[t[0]] >= obj[7] by {
      if 7 in t {
        var k :| 0 <= k < 3 && t[k] == 7;
      }
    }
    assert t[0] == 7;
    assert obj[t[1]] >= obj[0] by {
      if 0 in t {
        var k :| 0 <= k < 3 && t[k] == 0;
      }
    }
    assert t[1] == 0;
    assert obj[t[2]] >= obj[4] by {
      if 4 in t {
        var k :| 0 <= k < 3 && t[k] == 4;
      }
    }
    assert t[2] == 4;
  }

  /** Under the sigmoid activation a single class column is its own objectness. */
  lemma SingleColumnScores()
    ensures Objectness([[0.9], [0.1], [0.2], [0.05], [0.8], [0.3], [0.4], [0.95], [0.6], [0.2]], 1, None, Sigmoid)
            == Ok([0.9, 0.1, 0.2, 0.05, 0.8, 0.3, 0.4, 0.95, 0.6, 0.2])
  {
    var probs := [[0.9], [0.1], [0.2], [0.05], [0.8], [0.3], [0.4], [0.95], [0.6], [0.2]];
    var obj := [0.9, 0.1, 0.2, 0.05, 0.8, 0.3, 0.4, 0.95, 0.6, 0.2];
    var o := Objectness(probs, 1, None, Sigmoid);
    assert o.Ok? && |o.value| == 10;
    forall i | 0 <= i < 10 ensures o.value[i] == obj[i] {
      assert o.value[i] in probs[i];
    }
    assert o.value == obj;
  }

  /** Flat indices 7, 0 and 4 over five anchors per image. */
  lemma SplitFlatIndices()
    ensures ImageIds([7, 0, 4], 5) == [1, 0, 0] && AnchorIds([7, 0, 4], 5) == [2, 0, 4]
  {
    var imgs, ids := ImageIds([7, 0, 4], 5), AnchorIds([7, 0, 4], 5);
    assert imgs[0] == 7 / 5 && imgs[1] == 0 / 5 && imgs[2] == 4 / 5;
    assert ids[0] == 7 % 5 && ids[1] == 0 % 5 && ids[2] == 4 % 5;
  }

  /** The same two images through the whole selector, under the sigmoid
      activation with one class column: flat indices [7, 0, 4] decompose into
      image ids [1, 0, 0] and anchor ids [2, 0, 4]. */
  lemma TopThreeOfTwoImagesDecomposed(rpnBox: seq<seq<real>>, anchors: seq<seq<real>>, decode: Decoder)
    requires |rpnBox| == 10 && |anchors| == 5
    ensures var r := DecodeAndChooseTopN(rpnBox, [[0.9], [0.1], [0.2], [0.05], [0.8], [0.3], [0.4], [0.95], [0.6], [0.2]],
                                         1, anchors, 3, Sigmoid, "", decode);
            r.Ok? && r.value.indices == [7, 0, 4] && r.value.imgIds == [1, 0, 0] && r.value.anchorIds == [2, 0, 4]
  {
    var obj := [0.9, 0.1, 0.2, 0.05, 0.8, 0.3, 0.4, 0.95, 0.6, 0.2];
    SingleColumnScores();
    TopThreeOfTwoImages(obj, TopN(obj, 3));
    SplitFlatIndices();
  }
}
