/** The gated weighted Euclidean loss layer.

    Inputs 0 and 1 are two blobs of one shape; the loss is half the mean
    over the batch of the squared distance between them. Inputs 2 and 3,
    when present, hold one scalar per example each; when both are there,
    their signed difference gates the gradient row by row. `diff` is the
    layer's own buffer `diff_`. */
module WeightedEuclideanLoss {
  import opened Blobs

  /** The fatal errors (failed CHECKs) of Reshape. */
  datatype Fatal = ChannelsDiffer | HeightsDiffer | WidthsDiffer | AuxCountNotNum(index: nat)

  /** The outcome of Reshape: a fatal error, or the shape `diff_` takes. */
  datatype ReshapeResult = ReshapeFatal(why: Fatal) | Reshaped(diffShape: Shape)

  // ---------------------------------------------------------------------
  // Reshape

  /** Inputs 0 and 1 agree in everything but the batch size. */
  predicate SameExampleShape(s: Shape, t: Shape) {
    s.channels == t.channels && s.height == t.height && s.width == t.width
  }

  /** An auxiliary blob holds as many elements as examples. */
  predicate AuxShaped(s: Shape) {
    s.Count() == s.num
  }

  /** Every check Reshape makes holds. */
  predicate ReshapeChecks(bottoms: seq<Shape>)
    requires |bottoms| >= 2
  {
    && SameExampleShape(bottoms[0], bottoms[1])
    && (|bottoms| > 2 ==> AuxShaped(bottoms[2]))
    && (|bottoms| > 3 ==> AuxShaped(bottoms[3]))
  }

  /** Reshape, after the base class's own checks: the extents of inputs 0
      and 1 are compared in the order channels, height, width, then each
      auxiliary blob present is checked, and `diff_` takes input 0's shape. */
  function Reshape(bottoms: seq<Shape>): (r: ReshapeResult)
    requires |bottoms| >= 2
    ensures r.Reshaped? <==> ReshapeChecks(bottoms)
    ensures r.Reshaped? ==> r.diffShape == bottoms[0]
    ensures r == ReshapeFatal(ChannelsDiffer) <==> bottoms[0].channels != bottoms[1].channels
    ensures r == ReshapeFatal(HeightsDiffer) <==>
      bottoms[0].channels == bottoms[1].channels && bottoms[0].height != bottoms[1].height
    ensures r == ReshapeFatal(WidthsDiffer) <==>
      && bottoms[0].channels == bottoms[1].channels && bottoms[0].height == bottoms[1].height
      && bottoms[0].width != bottoms[1].width
    ensures r.ReshapeFatal? && r.why.AuxCountNotNum? ==> r.why.index == 2 || r.why.index == 3
    ensures r == ReshapeFatal(AuxCountNotNum(2)) <==>
      SameExampleShape(bottoms[0], bottoms[1]) && |bottoms| > 2 && !AuxShaped(bottoms[2])
    ensures r == ReshapeFatal(AuxCountNotNum(3)) <==>
      && SameExampleShape(bottoms[0], bottoms[1]) && |bottoms| > 3
      && AuxShaped(bottoms[2]) && !AuxShaped(bottoms[3])
  {
    var b0, b1 := bottoms[0], bottoms[1];
    if b0.channels != b1.channels then ReshapeFatal(ChannelsDiffer)
    else if b0.height != b1.height then ReshapeFatal(HeightsDiffer)
    else if b0.width != b1.width then ReshapeFatal(WidthsDiffer)
    else if |bottoms| > 2 && bottoms[2].Count() != bottoms[2].num then ReshapeFatal(AuxCountNotNum(2))
    else if |bottoms| > 3 && bottoms[3].Count() != bottoms[3].num then ReshapeFatal(AuxCountNotNum(3))
    else Reshaped(b0)
  }

  /** For a non-empty batch, the auxiliary check `count == num` holds
      exactly when each example holds a single scalar. */
  lemma AuxShapedIffOneScalar(s: Shape)
    requires s.num > 0
    ensures AuxShaped(s) <==> s.Dim() == 1
  {
    assert s.Count() == s.num * s.Dim();
    if s.Dim() == 0 {
      assert s.Count() == 0;
    } else if s.Dim() >= 2 {
      MulMonotone(2, s.Dim(), s.num);
    }
  }

  // ---------------------------------------------------------------------
  // Forward pass

  /** `a - b`, entry by entry. */
  function Difference(a: seq<real>, b: seq<real>): (d: seq<real>)
    requires |a| == |b|
    ensures |d| == |a|
    ensures forall k :: 0 <= k < |a| ==> d[k] == a[k] - b[k]
  {
    seq(|a|, k requires 0 <= k < |a| => a[k] - b[k])
  }

  function Square(x: real): real { x * x }

  /** The dot product of `d` with itself, accumulated left to right. */
  function SumSquares(d: seq<real>): real {
    if d == [] then 0.0 else SumSquares(d[..|d| - 1]) + Square(d[|d| - 1])
  }

  /** The loss: the squared distance divided by the batch size, then by 2;
      an empty batch gives 0/0, which is NaN. */
  function EuclideanLoss(a: seq<real>, b: seq<real>, num: nat): Scalar
    requires |a| == |b|
  {
    match Quotient(SumSquares(Difference(a, b)), num)
    case NaN => NaN
    case Finite(v) => Finite(v / 2.0)
  }

  /** Forward_cpu: `diff_ = a - b` (caffe_sub), then the dot product of
      `diff_` with itself divided by `num` and by 2. */
  method ForwardCpu(shape: Shape, a: array<real>, b: array<real>, diff: array<real>)
    returns (loss: Scalar)
    requires a.Length == shape.Count() && b.Length == a.Length && diff.Length == a.Length
    requires diff != a && diff != b
    modifies diff
    ensures forall k :: 0 <= k < diff.Length ==> diff[k] == a[k] - b[k]
    ensures loss == EuclideanLoss(a[..], b[..], shape.num)
  {
    forall k | 0 <= k < diff.Length {
      diff[k] := a[k] - b[k];
    }
    assert diff[..] == Difference(a[..], b[..]);
    var dot := SumSquares(diff[..]);
    if shape.num == 0 {
      loss := NaN;
    } else {
      loss := Finite(dot / (shape.num as real) / 2.0);
    }
  }

  // ---------------------------------------------------------------------
  // Properties of the loss

  lemma SquareNonNegative(x: real)
    ensures Square(x) >= 0.0
  {
    if x < 0.0 {
      assert Square(x) == (-x) * (-x);
    }
  }

  lemma {:induction false} SumSquaresNonNegative(d: seq<real>)
    ensures SumSquares(d) >= 0.0
  {
    if d != [] {
      SumSquaresNonNegative(d[..|d| - 1]);
      SquareNonNegative(d[|d| - 1]);
    }
  }

  /** Swapping the two entries of each pair leaves every square as it is. */
  lemma {:induction false} SumSquaresNegated(d: seq<real>, e: seq<real>)
    requires |d| == |e| && forall k :: 0 <= k < |d| ==> e[k] == -d[k]
    ensures SumSquares(d) == SumSquares(e)
  {
    if d != [] {
      var n := |d| - 1;
      SumSquaresNegated(d[..n], e[..n]);
      assert Square(e[n]) == Square(d[n]) by {
        assert e[n] == -d[n];
      }
    }
  }

  lemma HalfQuotientNonNegative(x: real, num: nat)
    requires x >= 0.0 && num > 0
    ensures x / (num as real) / 2.0 >= 0.0
  {
  }

  /** The loss is never a negative number. */
  lemma EuclideanLossNonNegative(a: seq<real>, b: seq<real>, num: nat)
    requires |a| == |b|
    ensures NotNegative(EuclideanLoss(a, b, num))
  {
    SumSquaresNonNegative(Difference(a, b));
    if num > 0 {
      HalfQuotientNonNegative(SumSquares(Difference(a, b)), num);
    }
  }

  /** The loss does not depend on the order of its two inputs. */
  lemma EuclideanLossSymmetric(a: seq<real>, b: seq<real>, num: nat)
    requires |a| == |b|
    ensures EuclideanLoss(a, b, num) == EuclideanLoss(b, a, num)
  {
    SumSquaresNegated(Difference(a, b), Difference(b, a));
  }

  /** A sequence of zeros has a zero sum of squares. */
  lemma {:induction false} SumSquaresOfZeros(d: seq<real>)
    requires forall k :: 0 <= k < |d| ==> d[k] == 0.0
    ensures SumSquares(d) == 0.0
  {
    if d != [] {
      SumSquaresOfZeros(d[..|d| - 1]);
      assert d[|d| - 1] == 0.0;
    }
  }

  /** Equal inputs of a non-empty batch have a zero loss. */
  lemma EuclideanLossOfEqualInputs(a: seq<real>, num: nat)
    requires num > 0
    ensures EuclideanLoss(a, a, num) == Finite(0.0)
  {
    SumSquaresOfZeros(Difference(a, a));
  }

  // ---------------------------------------------------------------------
  // Backward pass: specification

  /** `sign_i`: +1 for input 0, -1 for input 1. */
  function Sign(i: nat): real {
    if i == 0 then 1.0 else -1.0
  }

  /** `alpha = sign_i * top_diff / num`. */
  function Alpha(i: nat, topDiff: real, num: nat): real
    requires num > 0
  {
    Sign(i) * topDiff / (num as real)
  }

  /** The gate of example `j` is open when `sign * (aux0[j] - aux1[j]) > 0`. */
  predicate Open(sign: real, aux0: seq<real>, aux1: seq<real>, j: nat)
    requires j < |aux0| && j < |aux1|
  {
    sign * (aux0[j] - aux1[j]) > 0.0
  }

  /** `local_alpha` as the row loop leaves it after row `j`: set to 0 at a
      closed gate and otherwise carried over from the row before. */
  function LocalAlpha(alpha: real, sign: real, aux0: seq<real>, aux1: seq<real>, j: nat): real
    requires j < |aux0| && j < |aux1|
  {
    if !Open(sign, aux0, aux1, j) then 0.0
    else if j == 0 then alpha
    else LocalAlpha(alpha, sign, aux0, aux1, j - 1)
  }

  /** `local_alpha` as row `j` of the loop finds it. */
  function AlphaBefore(alpha: real, sign: real, aux0: seq<real>, aux1: seq<real>, j: nat): real
    requires j <= |aux0| && j <= |aux1|
  {
    if j == 0 then alpha else LocalAlpha(alpha, sign, aux0, aux1, j - 1)
  }

  /** Rows `0 .. j - 1` of `g` hold `diff`'s rows, each scaled by the
      `local_alpha` of its row. */
  predicate RowsWritten(g: seq<real>, diff: seq<real>, alpha: real, sign: real,
                        aux0: seq<real>, aux1: seq<real>, dim: nat, j: nat)
    requires j <= |aux0| && j <= |aux1|
  {
    && |g| == |diff|
    && forall r, t :: 0 <= r < j && 0 <= t < dim ==>
         && Offset(r, dim, t) < |g|
         && g[Offset(r, dim, t)] == LocalAlpha(alpha, sign, aux0, aux1, r) * diff[Offset(r, dim, t)]
  }

  /** The gated gradient of a `num` by `dim` input. */
  predicate IsGatedGradient(g: seq<real>, diff: seq<real>, alpha: real, sign: real,
                            aux0: seq<real>, aux1: seq<real>, num: nat, dim: nat)
    requires num <= |aux0| && num <= |aux1|
  {
    |diff| == num * dim && RowsWritten(g, diff, alpha, sign, aux0, aux1, dim, num)
  }

  /** The ungated gradient: every entry of `diff` scaled by `alpha`. */
  predicate IsUngatedGradient(g: seq<real>, diff: seq<real>, alpha: real) {
    |g| == |diff| && forall k :: 0 <= k < |g| ==> g[k] == alpha * diff[k]
  }

  /** What Backward_cpu leaves in the gradient buffer `g` of input `i`:
      gated row by row when there are more than three inputs, ungated
      otherwise. */
  predicate IsInputGradient(g: seq<real>, i: nat, diff: seq<real>, topDiff: real, shape: Shape,
                            numBottoms: nat, aux0: seq<real>, aux1: seq<real>)
    requires shape.num > 0
    requires numBottoms > 3 ==> shape.num <= |aux0| && shape.num <= |aux1|
  {
    if numBottoms > 3 then
      IsGatedGradient(g, diff, Alpha(i, topDiff, shape.num), Sign(i), aux0, aux1, shape.num, shape.Dim())
    else
      IsUngatedGradient(g, diff, Alpha(i, topDiff, shape.num))
  }

  // ---------------------------------------------------------------------
  // Backward pass: the code

  /** Row `j` of `g` is `a` times row `j` of `d`; the rest of `g` is `old`. */
  predicate RowScaled(g: seq<real>, old_: seq<real>, d: seq<real>, a: real, j: nat, dim: nat)
    requires |g| == |d| && Offset(j, dim, dim) <= |d|
  {
    && |old_| == |g|
    && (forall t :: 0 <= t < dim ==> g[Offset(j, dim, t)] == a * d[Offset(j, dim, t)])
    && forall k :: 0 <= k < |g| && (k < Offset(j, dim, 0) || Offset(j, dim, dim) <= k) ==> g[k] == old_[k]
  }

  /** caffe_cpu_axpby over row `j` with beta 0: the row is overwritten
      with `a` times row `j` of `d`. */
  method ScaleRow(g: array<real>, d: seq<real>, a: real, j: nat, dim: nat)
    requires g.Length == |d| && Offset(j, dim, dim) <= |d|
    modifies g
    ensures RowScaled(g[..], old(g[..]), d, a, j, dim)
  {
    var base := j * dim;
    forall t | 0 <= t < dim {
      g[base + t] := a * d[base + t];
    }
  }

  /** Writing row `j` with its `local_alpha` extends the rows written. */
  lemma RowsWrittenStep(g: seq<real>, g': seq<real>, diff: seq<real>, alpha: real, sign: real,
                        aux0: seq<real>, aux1: seq<real>, dim: nat, j: nat)
    requires j < |aux0| && j < |aux1| && |g| == |diff| == |g'| && Offset(j, dim, dim) <= |diff|
    requires RowsWritten(g, diff, alpha, sign, aux0, aux1, dim, j)
    requires RowScaled(g', g, diff, LocalAlpha(alpha, sign, aux0, aux1, j), j, dim)
    ensures RowsWritten(g', diff, alpha, sign, aux0, aux1, dim, j + 1)
  {
    RowsKept(g, g', diff, alpha, sign, aux0, aux1, dim, j);
    RowAdded(g', diff, alpha, sign, aux0, aux1, dim, j);
  }

  /** Rows before row `j` are left as they were. */
  lemma RowsKept(g: seq<real>, g': seq<real>, diff: seq<real>, alpha: real, sign: real,
                 aux0: seq<real>, aux1: seq<real>, dim: nat, j: nat)
    requires j <= |aux0| && j <= |aux1| && |g| == |diff| == |g'|
    requires RowsWritten(g, diff, alpha, sign, aux0, aux1, dim, j)
    requires forall k :: 0 <= k < |g| && k < Offset(j, dim, 0) ==> g'[k] == g[k]
    ensures RowsWritten(g', diff, alpha, sign, aux0, aux1, dim, j)
  {
    forall r, t | 0 <= r < j && 0 <= t < dim
      ensures Offset(r, dim, t) < |g'|
      ensures g'[Offset(r, dim, t)] == LocalAlpha(alpha, sign, aux0, aux1, r) * diff[Offset(r, dim, t)]
    {
      RowBefore(r, j, dim, t);
    }
  }

  /** Writing row `j` extends the rows written by one. */
  lemma RowAdded(g: seq<real>, diff: seq<real>, alpha: real, sign: real,
                 aux0: seq<real>, aux1: seq<real>, dim: nat, j: nat)
    requires j < |aux0| && j < |aux1| && |g| == |diff| && Offset(j, dim, dim) <= |g|
    requires RowsWritten(g, diff, alpha, sign, aux0, aux1, dim, j)
    requires forall t :: 0 <= t < dim ==>
      g[Offset(j, dim, t)] == LocalAlpha(alpha, sign, aux0, aux1, j) * diff[Offset(j, dim, t)]
    ensures RowsWritten(g, diff, alpha, sign, aux0, aux1, dim, j + 1)
  {
  }

  /** The gated branch of Backward_cpu for one input: `local_alpha` starts
      at `alpha`, drops to 0 at the first closed gate and stays there. */
  method GatedRows(g: array<real>, diff: seq<real>, alpha: real, sign: real,
                   aux0: seq<real>, aux1: seq<real>, num: nat, dim: nat)
    requires g.Length == |diff| == num * dim && num <= |aux0| && num <= |aux1|
    modifies g
    ensures IsGatedGradient(g[..], diff, alpha, sign, aux0, aux1, num, dim)
  {
    var localAlpha := alpha;
    for j := 0 to num
      invariant localAlpha == AlphaBefore(alpha, sign, aux0, aux1, j)
      invariant RowsWritten(g[..], diff, alpha, sign, aux0, aux1, dim, j)
    {
      if sign * (aux0[j] - aux1[j]) <= 0.0 {
        localAlpha := 0.0;
      }
      assert localAlpha == LocalAlpha(alpha, sign, aux0, aux1, j);
      ghost var before := g[..];
      MulMonotone(j + 1, num, dim);
      ScaleRow(g, diff, localAlpha, j, dim);
      RowsWrittenStep(before, g[..], diff, alpha, sign, aux0, aux1, dim, j);
    }
  }

  /** caffe_cpu_axpby over the whole buffer with beta 0. */
  method ScaleAll(g: array<real>, d: seq<real>, a: real)
    requires g.Length == |d|
    modifies g
    ensures IsUngatedGradient(g[..], d, a)
  {
    forall k | 0 <= k < g.Length {
      g[k] := a * d[k];
    }
  }

  /** One pass of Backward_cpu's loop over the two primary inputs, for an
      input whose gradient is requested. */
  method InputGradient(g: array<real>, i: nat, diff: seq<real>, topDiff: real, shape: Shape,
                       numBottoms: nat, aux0: seq<real>, aux1: seq<real>)
    requires shape.num > 0 && g.Length == |diff| == shape.Count()
    requires numBottoms > 3 ==> shape.num <= |aux0| && shape.num <= |aux1|
    modifies g
    ensures IsInputGradient(g[..], i, diff, topDiff, shape, numBottoms, aux0, aux1)
  {
    var alpha := Sign(i) * topDiff / (shape.num as real);
    if numBottoms > 3 {
      var num := shape.num;
      CountPerExample(shape);
      var dim := g.Length / num;
      GatedRows(g, diff, alpha, Sign(i), aux0, aux1, num, dim);
    } else {
      ScaleAll(g, diff, alpha);
    }
  }

  /** Backward_cpu. `propagate0` and `propagate1` are propagate_down[0]
      and propagate_down[1]; `grad0` and `grad1` are the gradient buffers
      of inputs 0 and 1; `aux0` and `aux1` are the data of inputs 2 and 3,
      read only when there are more than three inputs. The two primary
      inputs share `shape`, and `diff` holds what the forward pass left in
      `diff_`. */
  method BackwardCpu(shape: Shape, numBottoms: nat, topDiff: real, propagate0: bool, propagate1: bool,
                     diff: array<real>, aux0: array<real>, aux1: array<real>,
                     grad0: array<real>, grad1: array<real>)
    requires numBottoms >= 2
    requires diff.Length == shape.Count() && grad0.Length == diff.Length && grad1.Length == diff.Length
    requires grad0 != grad1
    requires grad0 != diff && grad1 != diff
    requires grad0 != aux0 && grad0 != aux1 && grad1 != aux0 && grad1 != aux1
    requires propagate0 || propagate1 ==> shape.num > 0
    requires (propagate0 || propagate1) && numBottoms > 3 ==>
      shape.num <= aux0.Length && shape.num <= aux1.Length
    modifies grad0, grad1
    ensures propagate0 ==>
      IsInputGradient(grad0[..], 0, diff[..], topDiff, shape, numBottoms, aux0[..], aux1[..])
    ensures !propagate0 ==> grad0[..] == old(grad0[..])
    ensures propagate1 ==>
      IsInputGradient(grad1[..], 1, diff[..], topDiff, shape, numBottoms, aux0[..], aux1[..])
    ensures !propagate1 ==> grad1[..] == old(grad1[..])
  {
    var d, a0, a1 := diff[..], aux0[..], aux1[..];
    for i := 0 to 2
      invariant diff[..] == d && aux0[..] == a0 && aux1[..] == a1
      invariant 0 < i && propagate0 ==> IsInputGradient(grad0[..], 0, d, topDiff, shape, numBottoms, a0, a1)
      invariant i == 0 || !propagate0 ==> grad0[..] == old(grad0[..])
      invariant i < 2 || !propagate1 ==> grad1[..] == old(grad1[..])
      invariant 1 < i && propagate1 ==> IsInputGradient(grad1[..], 1, d, topDiff, shape, numBottoms, a0, a1)
    {
      var g := if i == 0 then grad0 else grad1;
      var propagate := if i == 0 then propagate0 else propagate1;
      if propagate {
        InputGradient(g, i, d, topDiff, shape, numBottoms, a0, a1);
      }
    }
  }

  // ---------------------------------------------------------------------
  // Properties of the gradient

  /** Every gate of rows `0 .. j` is open. */
  predicate OpenThrough(sign: real, aux0: seq<real>, aux1: seq<real>, j: nat)
    requires j < |aux0| && j < |aux1|
  {
    forall m :: 0 <= m <= j ==> Open(sign, aux0, aux1, m)
  }

  /** The gate is sticky: row `j` is scaled by `alpha` when every gate up
      to and including its own is open, and by 0 as soon as any of them
      is closed. */
  lemma {:induction false} StickyGate(alpha: real, sign: real, aux0: seq<real>, aux1: seq<real>, j: nat)
    requires j < |aux0| && j < |aux1|
    ensures LocalAlpha(alpha, sign, aux0, aux1, j) == if OpenThrough(sign, aux0, aux1, j) then alpha else 0.0
  {
    if j > 0 && Open(sign, aux0, aux1, j) {
      StickyGate(alpha, sign, aux0, aux1, j - 1);
      if !OpenThrough(sign, aux0, aux1, j - 1) {
        var m :| 0 <= m <= j - 1 && !Open(sign, aux0, aux1, m);
        assert 0 <= m <= j;
      }
    }
  }

  /** Once a row's gate is closed, that row and every later row get a zero
      gradient, whatever their own gates say. */
  lemma ClosedGateZeroesLaterRows(alpha: real, sign: real, aux0: seq<real>, aux1: seq<real>,
                                  m: nat, j: nat)
    requires m <= j < |aux0| && j < |aux1| && !Open(sign, aux0, aux1, m)
    ensures LocalAlpha(alpha, sign, aux0, aux1, j) == 0.0
  {
    StickyGate(alpha, sign, aux0, aux1, j);
  }

  /** Both gradients are ungated when fewer than four inputs are present,
      and then the gradient of input 0 is the negation of that of input 1. */
  lemma UngatedGradientsOpposite(g0: seq<real>, g1: seq<real>, diff: seq<real>, topDiff: real,
                                 shape: Shape, numBottoms: nat, aux0: seq<real>, aux1: seq<real>)
    requires shape.num > 0 && numBottoms <= 3
    requires IsInputGradient(g0, 0, diff, topDiff, shape, numBottoms, aux0, aux1)
    requires IsInputGradient(g1, 1, diff, topDiff, shape, numBottoms, aux0, aux1)
    ensures |g0| == |g1| && forall k :: 0 <= k < |g0| ==> g0[k] == -g1[k]
  {
    var a0, a1 := Alpha(0, topDiff, shape.num), Alpha(1, topDiff, shape.num);
    OppositeAlphas(topDiff, shape.num);
    forall k | 0 <= k < |g0| ensures g0[k] == -g1[k] {
      OppositeProducts(a0, a1, diff[k], g0[k], g1[k]);
    }
  }

  lemma OppositeAlphas(topDiff: real, num: nat)
    requires num > 0
    ensures Alpha(0, topDiff, num) == -Alpha(1, topDiff, num)
  {
  }

  lemma OppositeProducts(a0: real, a1: real, x: real, y0: real, y1: real)
    ensures a0 == -a1 && y0 == a0 * x && y1 == a1 * x ==> y0 == -y1
  {
  }

  /** Two examples with gates closed then open, under sign +1: the second
      example's gate is open, yet its rows get a zero gradient. */
  lemma StickyGateZeroesOpenRow()
    ensures Open(1.0, [0.0, 1.0], [1.0, 0.0], 1)
    ensures LocalAlpha(1.0, 1.0, [0.0, 1.0], [1.0, 0.0], 1) == 0.0
  {
    ClosedGateZeroesLaterRows(1.0, 1.0, [0.0, 1.0], [1.0, 0.0], 0, 1);
  }

  // ---------------------------------------------------------------------
  // Per-row gating

  /** The scale of row `j` when each example's gate decides its own row
      only. */
  function PerRowAlpha(alpha: real, sign: real, aux0: seq<real>, aux1: seq<real>, j: nat): (a: real)
    requires j < |aux0| && j < |aux1|
    ensures a == alpha || a == 0.0
  {
    if Open(sign, aux0, aux1, j) then alpha else 0.0
  }

  /** Per-row gating: an example's row keeps `alpha` exactly when its own
      gate is open, and the gates of other examples play no part. */
  lemma PerRowGating(alpha: real, sign: real, aux0: seq<real>, aux1: seq<real>,
                     aux0': seq<real>, aux1': seq<real>, j: nat)
    requires alpha != 0.0 && j < |aux0| && j < |aux1| && j < |aux0'| && j < |aux1'|
    requires aux0'[j] == aux0[j] && aux1'[j] == aux1[j]
    ensures PerRowAlpha(alpha, sign, aux0, aux1, j) == alpha <==> Open(sign, aux0, aux1, j)
    ensures PerRowAlpha(alpha, sign, aux0, aux1, j) == PerRowAlpha(alpha, sign, aux0', aux1', j)
  {
  }

  /** The loop's sticky scale and the per-row scale differ at row `j`
      exactly when its own gate is open and some earlier gate is closed. */
  lemma StickyDiffersFromPerRow(alpha: real, sign: real, aux0: seq<real>, aux1: seq<real>, j: nat)
    requires alpha != 0.0 && j < |aux0| && j < |aux1|
    ensures LocalAlpha(alpha, sign, aux0, aux1, j) != PerRowAlpha(alpha, sign, aux0, aux1, j)
      <==> Open(sign, aux0, aux1, j) && exists m :: 0 <= m < j && !Open(sign, aux0, aux1, m)
  {
    StickyGate(alpha, sign, aux0, aux1, j);
    if Open(sign, aux0, aux1, j) && exists m :: 0 <= m < j && !Open(sign, aux0, aux1, m) {
      var m :| 0 <= m < j && !Open(sign, aux0, aux1, m);
      assert !OpenThrough(sign, aux0, aux1, j);
    }
    if !OpenThrough(sign, aux0, aux1, j) && Open(sign, aux0, aux1, j) {
      var m :| 0 <= m <= j && !Open(sign, aux0, aux1, m);
      assert m < j;
    }
  }
}
