/** The one-hot target builder: one row per class label, with the background
    column dropped under the sigmoid activation. */
module OneHot {
  import opened Wrappers
  import opened Errors
  import opened Seqs
  import opened Scoring

  /** Columns of the buffer that is zeroed and scattered into: one more than
      the class count under the sigmoid activation, to hold background. */
  function BufferWidth(numClasses: nat, rpnActivation: string): nat {
    if rpnActivation == Sigmoid then numClasses + 1 else numClasses
  }

  /** The first buffer column kept in the result: column 0 is dropped under the
      sigmoid activation. */
  function FirstKept(rpnActivation: string): nat {
    if rpnActivation == Sigmoid then 1 else 0
  }

  /** Every label names a column of a buffer `width` columns wide. */
  predicate LabelsInRange(y: seq<int>, width: nat) {
    forall i :: 0 <= i < |y| ==> 0 <= y[i] < width
  }

  /** A row of `width` zeros with a 1.0 at column `hot`, if there is one. */
  function Indicator(hot: int, width: nat): (row: seq<real>)
    ensures |row| == width
  {
    seq(width, j requires 0 <= j < width => if j == hot then 1.0 else 0.0)
  }

  /** The one-hot targets of labels `y`: row `i` marks column `y[i]` of the
      buffer, shifted left by one when the background column is dropped. */
  function OneHot(y: seq<int>, numClasses: nat, rpnActivation: string): (r: Result<seq<seq<real>>, Error>)
    ensures r.Ok? <==> LabelsInRange(y, BufferWidth(numClasses, rpnActivation))
    ensures r.Err? ==> r.error == LabelOutOfRange
    ensures r.Ok? ==> |r.value| == |y| && IsMatrix(r.value, numClasses)
  {
    if !LabelsInRange(y, BufferWidth(numClasses, rpnActivation)) then Err(LabelOutOfRange)
    else
      var lo := FirstKept(rpnActivation);
      Ok(seq(|y|, i requires 0 <= i < |y| => Indicator(y[i] - lo, numClasses)))
  }

  /** Allocates a labels-by-width buffer, zeroes it, writes 1.0 at each label's
      column and, under the sigmoid activation, keeps all columns but the first. */
  method ToOneHot(y: seq<int>, numClasses: nat, rpnActivation: string) returns (r: Result<seq<seq<real>>, Error>)
    ensures r == OneHot(y, numClasses, rpnActivation)
  {
    var c := BufferWidth(numClasses, rpnActivation);
    var n := |y|;
    var buf := new real[n, c];
    // zero_()
    for i := 0 to n
      invariant forall i', j :: 0 <= i' < i && 0 <= j < c ==> buf[i', j] == 0.0
    {
      for j := 0 to c
        invariant forall i', j' :: 0 <= i' < i && 0 <= j' < c ==> buf[i', j'] == 0.0
        invariant forall j' :: 0 <= j' < j ==> buf[i, j'] == 0.0
      {
        buf[i, j] := 0.0;
      }
    }
    // scatter_(1, y.view(-1, 1), 1.0)
    for i := 0 to n
      invariant LabelsInRange(y[..i], c)
      invariant forall i', j :: 0 <= i' < i && 0 <= j < c ==> buf[i', j] == (if j == y[i'] then 1.0 else 0.0)
      invariant forall i', j :: i <= i' < n && 0 <= j < c ==> buf[i', j] == 0.0
    {
      if !(0 <= y[i] < c) {
        return Err(LabelOutOfRange);
      }
      buf[i, y[i]] := 1.0;
    }
    assert y[..n] == y;
    // y_[:, 1:] under the sigmoid activation
    var lo := FirstKept(rpnActivation);
    var rows := seq(n, i requires 0 <= i < n reads buf =>
                         seq(c - lo, j requires 0 <= j < c - lo reads buf => buf[i, j + lo]));
    r := Ok(rows);
    assert r.value == OneHot(y, numClasses, rpnActivation).value by {
      forall i | 0 <= i < n
        ensures rows[i] == Indicator(y[i] - lo, numClasses)
      {
        assert |rows[i]| == numClasses;
      }
    }
  }

  /** Outside the sigmoid activation, row `i` holds 1.0 at column `y[i]` and
      0.0 everywhere else. */
  lemma ExclusiveRow(y: seq<int>, numClasses: nat, rpnActivation: string, i: nat, j: nat)
    requires rpnActivation != Sigmoid
    requires OneHot(y, numClasses, rpnActivation).Ok?
    requires i < |y| && j < numClasses
    ensures 0 <= y[i] < numClasses
    ensures OneHot(y, numClasses, rpnActivation).value[i][j] == if j == y[i] then 1.0 else 0.0
  {
  }

  /** Under the sigmoid activation a background label (0) gives a row of zeros,
      and label `k >= 1` a 1.0 at column `k - 1` only. */
  lemma SigmoidRow(y: seq<int>, numClasses: nat, i: nat, j: nat)
    requires OneHot(y, numClasses, Sigmoid).Ok?
    requires i < |y| && j < numClasses
    ensures 0 <= y[i] <= numClasses
    ensures y[i] == 0 ==> OneHot(y, numClasses, Sigmoid).value[i][j] == 0.0
    ensures y[i] >= 1 ==> OneHot(y, numClasses, Sigmoid).value[i][j] == if j == y[i] - 1 then 1.0 else 0.0
  {
  }

  /** An indicator row sums to 1 when its hot column is inside it, to 0 otherwise. */
  lemma {:induction false} IndicatorSum(hot: int, width: nat)
    ensures SumReal(Indicator(hot, width)) == if 0 <= hot < width then 1.0 else 0.0
  {
    if width > 0 {
      var row := Indicator(hot, width);
      assert row[..width - 1] == Indicator(hot, width - 1);
      IndicatorSum(hot, width - 1);
    }
  }

  /** Every entry is 0 or 1 and every row sums to at most 1; outside the
      sigmoid activation every row sums to exactly 1, and under it exactly the
      background rows sum to 0. */
  lemma RowSums(y: seq<int>, numClasses: nat, rpnActivation: string, i: nat)
    requires OneHot(y, numClasses, rpnActivation).Ok?
    requires i < |y|
    ensures var row := OneHot(y, numClasses, rpnActivation).value[i];
            && (forall j :: 0 <= j < |row| ==> row[j] == 0.0 || row[j] == 1.0)
            && (rpnActivation != Sigmoid ==> SumReal(row) == 1.0)
            && (rpnActivation == Sigmoid ==> SumReal(row) == if y[i] == 0 then 0.0 else 1.0)
  {
    IndicatorSum(y[i] - FirstKept(rpnActivation), numClasses);
  }

  /** Only "sigmoid" is special: every other activation name, known or not,
      builds the same targets as "softmax" and raises nothing about the name. */
  lemma OtherModesLikeSoftmax(y: seq<int>, numClasses: nat, rpnActivation: string)
    requires rpnActivation != Sigmoid
    ensures OneHot(y, numClasses, rpnActivation) == OneHot(y, numClasses, Softmax)
    ensures OneHot(y, numClasses, rpnActivation).Err? ==> OneHot(y, numClasses, rpnActivation).error == LabelOutOfRange
  {
  }

  /** The scorer and the target builder part ways on an unknown activation: the
      scorer raises, the builder treats it like softmax. */
  lemma UnknownModeDivergence()
    ensures Objectness([[0.25, 0.75]], 2, Some("relu"), Sigmoid) == Err(UnknownActivation("relu"))
    ensures OneHot([1], 2, "relu") == Ok([[0.0, 1.0]])
  {
    assert "relu" != Softmax && "relu" != Sigmoid by {
      assert "relu"[0] != Softmax[0] && "relu"[0] != Sigmoid[0];
    }
    var r := OneHot([1], 2, "relu");
    assert r.Ok? && |r.value| == 1;
    assert r.value[0] == Indicator(1, 2);
    assert Indicator(1, 2) == [0.0, 1.0];
    assert r.value == [[0.0, 1.0]];
    assert Some("relu").GetOr(Sigmoid) == "relu";
  }
}
