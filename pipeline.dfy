/** The flattener feeding the selector: every proposal chosen from the
    flattened arrays traces back to one pyramid position. */
module Pipeline {
  import opened Wrappers
  import opened Errors
  import opened Seqs
  import opened Pyramid
  import opened Proposals

  /** With one anchor per position of an image (`A == P`), selected proposal
      `k` comes from image `imgIds[k]`, level `l` and spatial position (y, x),
      its anchor id is that position's index inside the image, and its
      probability row is the level-`l` classification output there. */
  lemma SelectedProposalOrigin(levels: seq<Level>, lastDimension: Option<nat>, numClasses: nat,
                               rows: seq<seq<real>>, boxes: seq<seq<real>>, probCols: nat,
                               anchors: seq<seq<real>>, topN: int, rpnActivation: string,
                               boxEncoding: string, decode: Decoder, p: Proposals, k: nat)
    returns (l: nat, y: nat, x: nat)
    requires LevelsValid(levels) && Rerange(levels, lastDimension, numClasses) == Ok((rows, boxes))
    requires IsMatrix(rows, probCols)
    requires |anchors| == Positions(ClsTensors(levels))
    requires DecodeAndChooseTopN(boxes, rows, probCols, anchors, topN, rpnActivation, boxEncoding, decode) == Ok(p)
    requires k < |p.indices|
    ensures l < |levels| && y < levels[l].cls.h && x < levels[l].cls.w
    ensures p.imgIds[k] < levels[l].cls.n
    ensures p.anchorIds[k] == LevelOffset(ClsTensors(levels), l) + GridIndex(y, levels[l].cls.w, x)
    ensures p.indices[k] == RowOf(levels, p.imgIds[k], l, y, x)
    ensures forall ch :: 0 <= ch < levels[l].cls.c ==>
              p.probs[k][ch] == levels[l].cls.data[p.imgIds[k]][ch][y][x]
  {
    var f := p.indices[k];
    var i;
    i, l, y, x := RerangeLocate(levels, lastDimension, numClasses, rows, boxes, f);
    var ts := ClsTensors(levels);
    var q := LevelOffset(ts, l) + GridIndex(y, levels[l].cls.w, x);
    assert q < Positions(ts) by {
      GridIndexBound(y, levels[l].cls.h, x, levels[l].cls.w);
      LevelOffsetStep(ts, l);
    }
    GridIndexDivMod(i, Positions(ts), q);
    assert p.imgIds[k] == i && p.anchorIds[k] == q;
    RerangeIndexMap(levels, lastDimension, numClasses, rows, boxes, i, l, y, x);
  }
}
