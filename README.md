# Region-proposal core of a Mask R-CNN detection model

This project models, in Dafny, the region-proposal core of the
`detection_model` class in `libs/nets/model.py`:

- **Pyramid flattener** (`_rerange`): one (classification, box) pair of
  `N x C x H x W` tensors per pyramid level becomes two 2-D arrays with one
  row per (image, level, position). Rows are image-major, then in level
  order, then row-major within a level.
- **Objectness scorer** (`_objectness`): one foreground score per row. It is
  `1 - p[0]` under the `'softmax'` activation and the row maximum under
  `'sigmoid'`. Any other activation name raises.
- **Top-N proposal selector** (`_decode_and_choose_top_n_stage1`): it ranks
  all rows of the batch by objectness, keeps the first `top_n`, and gathers
  their box rows, probability rows and anchors. It splits each flat index
  into an image id (`div A`) and an anchor id (`mod A`), where `A` is the
  anchor count. The box decoder `decoding_box` is a function parameter.
- **One-hot target builder** (`_to_one_hot`): an imperative method over a
  freshly allocated 2-D array. It zeroes the array, scatters 1.0 at each
  label's column, and under `'sigmoid'` drops the background column 0.

Tensors are nested sequences of mathematical reals, and a raised exception is
an `Err` of a `Result`. Module layout:

- `wrappers.dfy`: `Option` and `Result` (module `Wrappers`) and the exception
  kinds (module `Errors`).
- `seqs.dfy`: sequence helpers (module `Seqs`): sums, concatenation with its
  block lemmas, and the grid index `i * m + q` with its div/mod round trip.
- `objectness.dfy`: module `Scoring`.
- `rerange.dfy`: module `Pyramid`.
- `selector.dfy`: module `Proposals`.
- `one_hot.dfy`: module `OneHot`.
- `pipeline.dfy`: module `Pipeline`, which traces a selected proposal back
  through the flattener to its pyramid position.

Where the written description of the system and the code disagree, the model
follows the code:

- The description says the one-hot builder rejects an unknown activation.
  The code treats every name other than `'sigmoid'` like softmax and raises
  nothing, and so does the model (`OneHot.OtherModesLikeSoftmax`).
- The description's worked example (two images of five anchors scored
  `[0.9, 0.1, 0.2, 0.05, 0.8]` and `[0.3, 0.4, 0.95, 0.6, 0.2]`, `top_n = 3`)
  gives flat indices `[7, 0, 8]`. A descending sort gives `[7, 0, 4]`,
  because score 0.8 at flat index 4 beats 0.6 at flat index 8. So the image
  ids are `[1, 0, 0]` and the anchor ids `[2, 0, 4]`
  (`Proposals.TopThreeOfTwoImages`, `Proposals.TopThreeOfTwoImagesDecomposed`).
- The description asks for a shape check between the anchor count and the
  flattened position count. The selector has no such check, so the model
  accepts any anchor count. `Pipeline.SelectedProposalOrigin` states what
  holds when the two agree.

## Model

| member | source | states |
|---|---|---|
| Scoring.RowMax | libs/nets/model.py:64 | `probs.max(dim=1)[0]` of one row: the result is an entry of the row and no entry exceeds it |
| Scoring.Objectness | libs/nets/model.py:59-66 | A `None` activation means the configured one. An unknown mode raises `UnknownActivation` with that name. The call succeeds exactly for softmax/sigmoid with at least one column and then has one score per row: `1 - probs[i][0]` (softmax) or an entry of row `i` at least as large as every entry (sigmoid) |
| Scoring.ObjectnessDefaultsToConfigured | libs/nets/model.py:60 | Omitting the activation equals passing the configured `rpn_activation` |
| Scoring.SoftmaxObjectnessUnclamped | libs/nets/model.py:61-62 | Softmax objectness is not clamped: background probability 1.5 gives objectness -0.5 |
| Scoring.SigmoidObjectnessBounded | libs/nets/model.py:63-64 | When a row's scores lie in [0, 1], its sigmoid objectness does too |
| Pyramid.LevelRows | libs/nets/model.py:77-78 | One image of one level after `view(n, c, -1)` and the permute: `h * w` rows of `c` columns |
| Pyramid.ImageRows | libs/nets/model.py:80-81 | One image after concatenating the levels: `sum of h*w` rows of `c` columns |
| Pyramid.Flatten | libs/nets/model.py:77-85 | The flattened array has `n * P` rows of `c` columns, where P is the sum of `h * w` over all levels |
| Pyramid.LevelRowsAt | libs/nets/model.py:77-83 | Row `y * w + x` of one image's level rows holds channel `k` of position (y, x) in column `k` |
| Pyramid.ImageRowsAt | libs/nets/model.py:80-83 | Row `offset_l + q` of image `i` is row `q` of level `l`, where `offset_l` is the sum of `h * w` of the earlier levels |
| Pyramid.FlattenAt | libs/nets/model.py:83 | Row `i * P + q` of the flattened array is row `q` of image `i` |
| Pyramid.LevelOffsetStep | libs/nets/model.py:80-81 | Level `l + 1` starts `h_l * w_l` positions after level `l`, and no level starts past P |
| Pyramid.ImageRowsLocate | libs/nets/model.py:80-83 | Each row `q` of one image comes from a level `l` and position (y, x) with `q == offset_l + y * w + x` |
| Pyramid.Rerange | libs/nets/model.py:68-87 | `last_dimension` defaults to `num_classes`. An empty level list raises. Levels that disagree on shape, or a channel count unequal to `last_dimension`, are a shape mismatch; an empty reshape raises. Otherwise both outputs have `n * P` rows, with `last_dimension` and `cb` columns respectively |
| Pyramid.RerangeShapesAgree | libs/nets/model.py:73-85 | Box levels have the same spatial sizes as classification levels, so both arrays use the same level offsets |
| Pyramid.FlattenIndexMap | libs/nets/model.py:77-85 | Element `[i*P + offset_l + y*w_l + x][k]` of a flattened array is level-`l` input `[i][k][y][x]` |
| Pyramid.RerangeIndexMap | libs/nets/model.py:77-84 | The same index map for the classification output of `_rerange` |
| Pyramid.RerangeBoxIndexMap | libs/nets/model.py:78-85 | The same index map for the box output, at the same row index |
| Pyramid.FlattenLocate | libs/nets/model.py:83-85 | Every flattened row is `i * P + q` for one image `i` and one in-image position `q` |
| Pyramid.RerangeLocate | libs/nets/model.py:77-85 | Conversely, every output row `f` comes from some (image, level, y, x): the image is `f / P` and `f mod P` lies in level `l`'s block |
| Pyramid.RowOfInImageBlock | libs/nets/model.py:83 | Image-major layout: image `i`'s rows lie in `[i * P, (i + 1) * P)` |
| Pyramid.RerangeLevelOrder | libs/nets/model.py:80-81 | Within one image, every row of level `l` precedes every row of a later level |
| Pyramid.LevelOffsetMonotone | libs/nets/model.py:80-81 | Level offsets do not decrease with the level index |
| Proposals.InsertByScore | libs/nets/model.py:104 | One insertion step of the descending sort: the result is a permutation of the ranking plus the new index and stays sorted by descending score |
| Proposals.HeadDominates | libs/nets/model.py:104 | When the new index goes behind the head, the head still scores at least as well as everything after it and is not repeated |
| Proposals.SortByScore | libs/nets/model.py:104 | The sorted indices are a permutation of the input indices, in descending score order |
| Proposals.InsertDistinct | libs/nets/model.py:104 | Inserting an index not yet ranked keeps the ranking free of repeats |
| Proposals.SortDistinct | libs/nets/model.py:104 | Sorting repeat-free indices gives a repeat-free ranking |
| Proposals.Ranking | libs/nets/model.py:104 | `sort(descending=True)` indices: every row index exactly once, in descending objectness |
| Proposals.TopN | libs/nets/model.py:103-105 | The selection has `min(top_n, rows)` indices, counted from the end for a negative `top_n`. The indices are distinct, in range and non-increasing in objectness, and no unselected row scores above any selected one |
| Proposals.AnchorIds | libs/nets/model.py:109 | `inds % A`: one anchor id per index, each below A |
| Proposals.ImageIds | libs/nets/model.py:113 | `inds / A` as floor division: one image id per index |
| Proposals.FlatIndexRoundTrip | libs/nets/model.py:109-113 | `img_id * A + anchor_id` gives back the flat index |
| Proposals.Gather | libs/nets/model.py:107-110 | Advanced indexing: row `k` of the result is row `inds[k]` of the source |
| Proposals.DecodeAndChooseTopN | libs/nets/model.py:101-115 | Objectness errors propagate. Indices past the box rows raise. With no anchors and a non-empty selection, division by zero raises. Otherwise the call returns the top-N indices with anchor ids and image ids that rebuild them, the probability rows and anchors they select, and the decoder applied to the selected box rows. All outputs have the selection's length when the decoder preserves length |
| Proposals.ImageIdsBelowBatch | libs/nets/model.py:109-113 | When the rows are `n` images of `A` anchors each, every image id is below `n` |
| Proposals.TopThreeOfTwoImages | libs/nets/model.py:103-105 | With distinct scores, any top-3 selection of the two-image example is exactly `[7, 0, 4]` |
| Proposals.SingleColumnScores | libs/nets/model.py:63-64 | Under sigmoid, a one-column probability array is its own objectness |
| Proposals.SplitFlatIndices | libs/nets/model.py:109-113 | Flat indices `[7, 0, 4]` over 5 anchors give image ids `[1, 0, 0]` and anchor ids `[2, 0, 4]` |
| Proposals.TopThreeOfTwoImagesDecomposed | libs/nets/model.py:101-115 | The whole selector on the two-image example returns indices `[7, 0, 4]`, image ids `[1, 0, 0]` and anchor ids `[2, 0, 4]` |
| Pipeline.SelectedProposalOrigin | libs/nets/model.py:77-113 | With `A == P`, selected proposal `k` comes from some (image, level, y, x). Its image id is that image, its anchor id is the in-image position `offset_l + y*w + x`, and its probability row is the level's classification output there |
| OneHot.OneHot | libs/nets/model.py:129-137 | The builder succeeds exactly when every label is a buffer column (`num_classes + 1` columns under sigmoid, `num_classes` otherwise) and otherwise raises `LabelOutOfRange`. On success there is one row per label, each `num_classes` wide in both modes |
| OneHot.ToOneHot | libs/nets/model.py:129-137 | The in-place method (allocate, `zero_`, `scatter_`, drop column 0 under sigmoid) returns exactly `OneHot` |
| OneHot.ExclusiveRow | libs/nets/model.py:130-132 | Outside sigmoid, labels lie in `[0, num_classes)` and row `i` is 1.0 at column `y[i]` and 0.0 elsewhere |
| OneHot.SigmoidRow | libs/nets/model.py:130-134 | Under sigmoid, labels lie in `[0, num_classes]`. Background label 0 gives a zero row; label `k >= 1` gives 1.0 at column `k - 1` only |
| OneHot.IndicatorSum | libs/nets/model.py:131-132 | An indicator row sums to 1 when its hot column is inside the row, else to 0 |
| OneHot.RowSums | libs/nets/model.py:131-134 | Every entry is 0 or 1. Outside sigmoid every row sums to 1; under sigmoid a row sums to 0 for background and to 1 otherwise |
| OneHot.OtherModesLikeSoftmax | libs/nets/model.py:130-133 | Every activation name other than `'sigmoid'` builds the same targets as `'softmax'`, and the only possible error is an out-of-range label |
| OneHot.UnknownModeDivergence | libs/nets/model.py:59-66 | For the name `'relu'` the scorer raises, while the builder returns softmax-style targets |

## Left out

- `decoding_box` (libs/layers/box.py) is not part of this model. It is the parameter `decode`; `DecodeAndChooseTopN` states its length result only for decoders that preserve length.
- The backbone, `forward`, and the stub methods `_thresholding`, `build_losses_rpn`, `_decoding_and_thresholding_stage1`, `get_final_results`, `get_final_results_stage1` and `get_pos_anchors` have no behaviour to model.
- `_stage_one_results` only forwards to the selector and discards the result. `apply_nms`, `overlap_threshold` and `top_n_post_nms` are unused there.
- The constructor's fields, the loss objects (`FocalLoss`, `CrossEntropyLoss`), `de_frozen_backbone` and the TensorBoard summaries are left out. They are training bookkeeping, foreign code or logging I/O.
- `.cuda()`, `.cpu()`, `.data` and `.contiguous()` are left out. They move or re-lay out memory without changing values.
- IEEE floating point is modelled as mathematical reals, both for `1 - p` and for the sort keys.
- Proposals.Ranking: `torch.sort` is not stable. The model ranks equal scores lower index first, and no contract depends on that choice beyond the descending order.
- Proposals.ImageIds: line 113 is written as `/`, which under `from __future__ import division` can be true division in some torch versions. The model uses integer floor division, which the `%` beside it on line 109 implies.
- Proposals.DecodeAndChooseTopN: Python's `%` and `/` by an anchor count of zero raise, and the model reports `DivisionByZero` only when some index is selected. An empty selection over zero anchors returns empty outputs.
- Pyramid.Rerange: levels whose shapes disagree, or a class channel count different from `last_dimension`, are one `ShapeMismatch` error. In torch some of these raise from `cat` or `view`, and others silently reinterpret the memory, which the model does not reproduce.
- OneHot.ToOneHot: `scatter_` raises on an out-of-range label. The model reports one `LabelOutOfRange` error and does not record which label failed.
