/** The objectness scorer (`detection_model._objectness`): one foreground
    confidence per proposal row, under the configured activation. */
module Scoring {
  import opened Wrappers
  import opened Errors
  import opened Seqs

  /** Mutually exclusive classes, background in column 0. */
  const Softmax: string := "softmax"
  /** Independent per-class scores, no background column. */
  const Sigmoid: string := "sigmoid"

  /** `probs.max(dim=1)[0]` for one row: the largest entry. */
  function RowMax(row: seq<real>): (m: real)
    requires |row| > 0
    ensures m in row
    ensures forall j :: 0 <= j < |row| ==> row[j] <= m
  {
    if |row| == 1 then row[0]
    else
      var rest := RowMax(row[1..]);
      if row[0] >= rest then row[0] else rest
  }

  /** The objectness of every row of the `rows x cols` array `probs`.
      `activation` is the optional argument; `None` falls back to the model's
      configured `rpnActivation`. */
  function Objectness(probs: seq<seq<real>>, cols: nat, activation: Option<string>,
                      rpnActivation: string): (r: Result<seq<real>, Error>)
    requires IsMatrix(probs, cols)
    ensures var mode := activation.GetOr(rpnActivation);
            mode != Softmax && mode != Sigmoid ==> r == Err(UnknownActivation(mode))
    ensures var mode := activation.GetOr(rpnActivation);
            r.Ok? <==> (mode == Softmax || mode == Sigmoid) && cols > 0
    ensures r.Ok? ==> |r.value| == |probs|
    ensures r.Ok? && activation.GetOr(rpnActivation) == Softmax ==>
              forall i :: 0 <= i < |probs| ==> r.value[i] == 1.0 - probs[i][0]
    ensures r.Ok? && activation.GetOr(rpnActivation) == Sigmoid ==>
              forall i :: 0 <= i < |probs| ==>
                r.value[i] in probs[i] && forall j :: 0 <= j < cols ==> probs[i][j] <= r.value[i]
  {
    var mode := activation.GetOr(rpnActivation);
    if mode == Softmax then
      if cols == 0 then Err(EmptyClassAxis)
      else Ok(seq(|probs|, i requires 0 <= i < |probs| => 1.0 - probs[i][0]))
    else if mode == Sigmoid then
      if cols == 0 then Err(EmptyClassAxis)
      else Ok(seq(|probs|, i requires 0 <= i < |probs| => RowMax(probs[i])))
    else
      Err(UnknownActivation(mode))
  }

  /** Leaving the activation out is the same as passing the configured one. */
  lemma ObjectnessDefaultsToConfigured(probs: seq<seq<real>>, cols: nat, rpnActivation: string)
    requires IsMatrix(probs, cols)
    ensures Objectness(probs, cols, None, rpnActivation)
         == Objectness(probs, cols, Some(rpnActivation), rpnActivation)
  {
  }

  /** Softmax-mode objectness is not clamped: a background probability outside
      [0, 1] gives an objectness outside [0, 1]. */
  lemma SoftmaxObjectnessUnclamped()
    ensures Objectness([[1.5, 0.0]], 2, Some(Softmax), Sigmoid) == Ok([-0.5])
  {
    var r := Objectness([[1.5, 0.0]], 2, Some(Softmax), Sigmoid);
    assert r.Ok? && |r.value| == 1 && r.value[0] == -0.5;
    assert r.value == [-0.5];
  }

  /** Sigmoid-mode objectness of a row lies within the row's range: when every
      score is a probability, so is the objectness. */
  lemma SigmoidObjectnessBounded(probs: seq<seq<real>>, cols: nat, rpnActivation: string, i: nat)
    requires IsMatrix(probs, cols) && i < |probs|
    requires forall j :: 0 <= j < cols ==> 0.0 <= probs[i][j] <= 1.0
    requires Objectness(probs, cols, Some(Sigmoid), rpnActivation).Ok?
    ensures 0.0 <= Objectness(probs, cols, Some(Sigmoid), rpnActivation).value[i] <= 1.0
  {
    var o := Objectness(probs, cols, Some(Sigmoid), rpnActivation).value[i];
    var j :| 0 <= j < |probs[i]| && probs[i][j] == o;
  }
}
