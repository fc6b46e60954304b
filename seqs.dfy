/** Sequence utilities behind the tensor reshapes: flattening a sequence of
    blocks, prefix sums of block sizes, and real-valued sums. */
module Seqs {

  /** Every row of `rows` has exactly `cols` entries: a dense 2-D array. */
  predicate IsMatrix<T>(rows: seq<seq<T>>, cols: nat) {
    forall i :: 0 <= i < |rows| ==> |rows[i]| == cols
  }

  /** The sum of a sequence of natural numbers. */
  function SumNat(xs: seq<nat>): nat {
    if xs == [] then 0 else SumNat(xs[..|xs| - 1]) + xs[|xs| - 1]
  }

  /** The sum of a sequence of reals. */
  function SumReal(xs: seq<real>): real {
    if xs == [] then 0.0 else SumReal(xs[..|xs| - 1]) + xs[|xs| - 1]
  }

  /** The lengths of the blocks of `ss`, in order. */
  function Lengths<T>(ss: seq<seq<T>>): (ls: seq<nat>)
    ensures |ls| == |ss|
  {
    seq(|ss|, j requires 0 <= j < |ss| => |ss[j]|)
  }

  /** The blocks of `ss` laid end to end, in order (`torch.cat` along one axis). */
  function Concat<T>(ss: seq<seq<T>>): (r: seq<T>)
    ensures |r| == SumNat(Lengths(ss))
  {
    if ss == [] then []
    else
      assert Lengths(ss[..|ss| - 1]) == Lengths(ss)[..|ss| - 1];
      Concat(ss[..|ss| - 1]) + ss[|ss| - 1]
  }

  /** Sums distribute over concatenation. */
  lemma {:induction false} SumNatAppend(a: seq<nat>, b: seq<nat>)
    ensures SumNat(a + b) == SumNat(a) + SumNat(b)
  {
    if b != [] {
      var b' := b[..|b| - 1];
      assert (a + b)[..|a + b| - 1] == a + b';
      SumNatAppend(a, b');
    } else {
      assert a + b == a;
    }
  }

  /** Flattening distributes over concatenation of the block sequences. */
  lemma {:induction false} ConcatAppend<T>(a: seq<seq<T>>, b: seq<seq<T>>)
    ensures Concat(a + b) == Concat(a) + Concat(b)
  {
    if b == [] {
      assert a + b == a;
    } else {
      var b' := b[..|b| - 1];
      var last := b[|b| - 1];
      assert (a + b)[..|a + b| - 1] == a + b';
      assert (a + b)[|a + b| - 1] == last;
      calc {
        Concat(a + b);
        Concat(a + b') + last;
        { ConcatAppend(a, b'); }
        Concat(a) + Concat(b') + last;
        Concat(a) + (Concat(b') + last);
      }
    }
  }

  /** Block `l` of `ss` sits in `Concat(ss)` at the prefix sum of the sizes before it. */
  lemma {:induction false} ConcatBlock<T>(ss: seq<seq<T>>, sizes: seq<nat>, l: nat)
    requires |sizes| == |ss| && forall j :: 0 <= j < |ss| ==> |ss[j]| == sizes[j]
    requires l < |ss|
    ensures SumNat(sizes[..l]) + sizes[l] <= |Concat(ss)|
    ensures Concat(ss)[SumNat(sizes[..l])..SumNat(sizes[..l]) + sizes[l]] == ss[l]
  {
    assert Lengths(ss) == sizes;
    assert Lengths(ss[..l]) == sizes[..l];
    assert ss == ss[..l] + [ss[l]] + ss[l + 1..];
    ConcatAppend(ss[..l] + [ss[l]], ss[l + 1..]);
    ConcatAppend(ss[..l], [ss[l]]);
    assert [ss[l]][..0] == [];
    assert Concat([ss[l]]) == ss[l];
  }

  /** Element form of ConcatBlock: entry `p` of block `l`. */
  lemma ConcatAt<T>(ss: seq<seq<T>>, sizes: seq<nat>, l: nat, p: nat)
    requires |sizes| == |ss| && forall j :: 0 <= j < |ss| ==> |ss[j]| == sizes[j]
    requires l < |ss| && p < sizes[l]
    ensures SumNat(sizes[..l]) + p < |Concat(ss)|
    ensures Concat(ss)[SumNat(sizes[..l]) + p] == ss[l][p]
  {
    ConcatBlock(ss, sizes, l);
    var off := SumNat(sizes[..l]);
    assert Concat(ss)[off..off + sizes[l]][p] == ss[l][p];
  }

  /** Every position of `Concat(ss)` lies in exactly one block: it splits into a
      block number and a position inside that block. */
  lemma {:induction false} ConcatLocate<T>(ss: seq<seq<T>>, sizes: seq<nat>, f: nat)
    returns (l: nat, p: nat)
    requires |sizes| == |ss| && forall j :: 0 <= j < |ss| ==> |ss[j]| == sizes[j]
    requires f < |Concat(ss)|
    ensures l < |ss| && p < sizes[l] && f == SumNat(sizes[..l]) + p
  {
    var k := |ss| - 1;
    assert Lengths(ss) == sizes;
    assert sizes[..|ss|] == sizes;
    assert Lengths(ss[..k]) == sizes[..k];
    var before := |Concat(ss[..k])|;
    if f < before {
      l, p := ConcatLocate(ss[..k], sizes[..k], f);
      assert sizes[..k][..l] == sizes[..l];
    } else {
      l, p := k, f - before;
    }
  }

  /** The prefix sums of equal sizes are multiples of that size. */
  lemma {:induction false} SumUniform(sizes: seq<nat>, m: nat, l: nat)
    requires forall j :: 0 <= j < |sizes| ==> sizes[j] == m
    requires l <= |sizes|
    ensures SumNat(sizes[..l]) == l * m
  {
    if l > 0 {
      assert sizes[..l][..l - 1] == sizes[..l - 1];
      SumUniform(sizes, m, l - 1);
    }
  }

  /** Flattening blocks that are all `cols`-wide matrices gives a `cols`-wide matrix. */
  lemma {:induction false} ConcatMatrix<T>(ss: seq<seq<seq<T>>>, cols: nat)
    requires forall j :: 0 <= j < |ss| ==> IsMatrix(ss[j], cols)
    ensures IsMatrix(Concat(ss), cols)
  {
    if ss != [] {
      ConcatMatrix(ss[..|ss| - 1], cols);
    }
  }

  /** The flat position of entry `q` of block `i` when every block has `m` entries. */
  function GridIndex(i: nat, m: nat, q: nat): nat {
    i * m + q
  }

  /** A grid index with `i < n` and `q < m` lies inside `n * m`. */
  lemma {:induction false} GridIndexBound(i: nat, n: nat, q: nat, m: nat)
    requires i < n && q < m
    ensures GridIndex(i, m, q) < n * m
  {
    if i + 1 < n {
      GridIndexBound(i, n - 1, q, m);
      assert n * m == (n - 1) * m + m;
    } else {
      assert n * m == i * m + m;
    }
  }

  /** A grid index splits back into its block and offset by floor division and
      remainder: `f / m` and `f % m` undo `GridIndex`. */
  lemma GridIndexDivMod(i: nat, m: nat, q: nat)
    requires q < m
    ensures GridIndex(i, m, q) / m == i && GridIndex(i, m, q) % m == q
  {
    var f := GridIndex(i, m, q);
    var d, r := f / m, f % m;
    assert f == d * m + r && 0 <= r < m;
    if d > i {
      assert (d - i) * m == d * m - i * m;
      MulAtLeast(d - i, m);
    } else if d < i {
      assert (i - d) * m == i * m - d * m;
      MulAtLeast(i - d, m);
    }
  }

  lemma MulAtLeast(a: int, m: nat)
    requires a >= 1
    ensures a * m >= m
  {
    assert a * m == (a - 1) * m + m;
  }

  lemma MulMonotone(x: nat, y: nat, a: nat)
    requires x <= y
    ensures x * a <= y * a
  {
    if x < y {
      assert y * a == x * a + (y - x) * a;
      MulAtLeast(y - x, a);
    }
  }

  /** A flat index below `n * a` has a block number below `n`. */
  lemma DivBelow(f: nat, n: nat, a: nat)
    requires a > 0 && f < n * a
    ensures f / a < n
  {
    var d := f / a;
    assert d * a <= f;
    if d >= n {
      MulMonotone(n, d, a);
    }
  }

  /** `0 .. n-1`: the row indices `torch.sort` permutes. */
  function Range(n: nat): (r: seq<nat>)
    ensures |r| == n && forall i :: 0 <= i < n ==> r[i] == i
  {
    seq(n, i requires 0 <= i < n => i)
  }
}
