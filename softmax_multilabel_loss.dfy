/** The multi-label softmax cross-entropy loss layer.

    The softmax sub-layer that fills the probability blob is not part of
    this model: the probabilities `prob` are an input. The label blob holds,
    for each example, a row of `labelDim` class indices ended by the
    sentinel -1; the layer reads a row from its first element up to the
    first -1 it meets, wherever that is. The natural logarithm is a
    parameter `log`, so nothing here depends on its values. */
module SoftmaxMultiLabelLoss {
  import opened Blobs

  /** FLT_MIN, the smallest normalised single-precision number, 2^-126. */
  const FltMin: real := 1.0 / 85070591730234615865843651857942052864.0

  /** The label value that ends a row of labels. */
  const Sentinel: int := -1

  /** The fatal errors (process aborts) of this layer. */
  datatype Fatal = LabelGradientRequested | SpatialDimNotOne

  datatype ForwardResult =
    | ForwardFatal(why: Fatal)
      /** `loss` is top[0]'s value; `top1` is what top[1] shows, when the
          layer shares the probabilities with it. */
    | Forwarded(loss: Scalar, top1: Option<seq<real>>)

  datatype BackwardResult = BackwardDone | BackwardFatal(why: Fatal)

  function Max(x: real, y: real): (m: real)
    ensures m >= x && m >= y && (m == x || m == y)
  {
    if x < y then y else x
  }

  // ---------------------------------------------------------------------
  // Label rows

  /** Some sentinel occurs at or after position `start`. */
  predicate TerminatedFrom(labels: seq<int>, start: nat) {
    exists k :: start <= k < |labels| && labels[k] == Sentinel
  }

  /** The labels the layer visits when it scans from `start`: everything
      before the first sentinel at or after `start`. */
  function LabelsFrom(labels: seq<int>, start: nat): (ls: seq<int>)
    requires TerminatedFrom(labels, start)
    ensures start + |ls| < |labels| && labels[start + |ls|] == Sentinel
    ensures forall t :: 0 <= t < |ls| ==> ls[t] == labels[start + t]
    ensures forall t :: start <= t < start + |ls| ==> labels[t] != Sentinel
    decreases |labels| - start
  {
    if labels[start] == Sentinel then []
    else [labels[start]] + LabelsFrom(labels, start + 1)
  }

  /** The scan of example `i` starts at `i * labelDim` and finds a sentinel. */
  predicate RowTerminated(labels: seq<int>, labelDim: nat, i: nat) {
    TerminatedFrom(labels, Offset(i, labelDim, 0))
  }

  /** `labels(i)`: the labels the layer reads for example `i`. */
  function Labels(labels: seq<int>, labelDim: nat, i: nat): seq<int>
    requires RowTerminated(labels, labelDim, i)
  {
    LabelsFrom(labels, Offset(i, labelDim, 0))
  }

  /** What both passes need of the label blob: every scan of the `num`
      examples stops at a sentinel inside the blob, and every label it
      visits indexes one of the `dim` classes. */
  predicate ScanSafe(labels: seq<int>, num: nat, labelDim: nat, dim: nat) {
    forall i :: 0 <= i < num ==>
      RowTerminated(labels, labelDim, i) &&
      forall l :: l in Labels(labels, labelDim, i) ==> 0 <= l < dim
  }

  /** The scan of a row stays inside the row exactly when the row holds a
      sentinel; otherwise it runs on into the next row. */
  lemma ScanStaysInRow(labels: seq<int>, labelDim: nat, i: nat)
    requires RowTerminated(labels, labelDim, i)
    requires Offset(i, labelDim, 0) + labelDim <= |labels|
    ensures var start := Offset(i, labelDim, 0);
      |Labels(labels, labelDim, i)| < labelDim <==> Sentinel in labels[start..start + labelDim]
  {
    var start := Offset(i, labelDim, 0);
    var ls := Labels(labels, labelDim, i);
    var row := labels[start..start + labelDim];
    if |ls| < labelDim {
      assert row[|ls|] == labels[start + |ls|] == Sentinel;
    }
    if Sentinel in row {
      var j :| 0 <= j < labelDim && row[j] == Sentinel;
      assert row[j] == labels[start + j];
    }
  }

  // ---------------------------------------------------------------------
  // Forward pass

  /** Every label `l` of `ls` addresses `base + l`, inside a buffer of
      `size` elements. */
  predicate Indexes(ls: seq<int>, base: nat, size: nat) {
    forall j :: 0 <= j < |ls| ==> 0 <= ls[j] && base + ls[j] < size
  }

  /** The labels of example `i` address its own row of a `num` by `dim`
      buffer, as the scan requires. */
  lemma LabelsIndexRow(labels: seq<int>, num: nat, dim: nat, labelDim: nat, i: nat)
    requires ScanSafe(labels, num, labelDim, dim) && i < num
    ensures Indexes(Labels(labels, labelDim, i), Offset(i, dim, 0), num * dim)
  {
    var ls := Labels(labels, labelDim, i);
    forall j | 0 <= j < |ls| ensures 0 <= ls[j] && Offset(i, dim, 0) + ls[j] < num * dim {
      assert ls[j] in ls;
      OffsetInBounds(i, dim, ls[j], num);
    }
  }

  /** `tmp_loss`: the sum of -log(max(p, FLT_MIN)) over the probabilities
      `prob[base + l]` of the labels `l` in `ls`, accumulated left to right. */
  function NegLogSum(prob: seq<real>, base: nat, ls: seq<int>, log: real -> real): real
    requires Indexes(ls, base, |prob|)
    decreases |ls|
  {
    if ls == [] then 0.0
    else
      NegLogSum(prob, base, ls[..|ls| - 1], log) - log(Max(prob[base + ls[|ls| - 1]], FltMin))
  }

  /** The loss of example `i`: the mean of -log(max(p, FLT_MIN)) over its
      labels, NaN when it has none. */
  function ExampleLoss(prob: seq<real>, labels: seq<int>, num: nat, dim: nat, labelDim: nat,
                       i: nat, log: real -> real): Scalar
    requires ScanSafe(labels, num, labelDim, dim) && |prob| == num * dim && i < num
  {
    var ls := Labels(labels, labelDim, i);
    LabelsIndexRow(labels, num, dim, labelDim, i);
    Quotient(NegLogSum(prob, Offset(i, dim, 0), ls, log), |ls|)
  }

  /** The sum of the losses of the first `rows` examples. */
  function SumOfExampleLosses(prob: seq<real>, labels: seq<int>, num: nat, dim: nat, labelDim: nat,
                              rows: nat, log: real -> real): Scalar
    requires ScanSafe(labels, num, labelDim, dim) && |prob| == num * dim && rows <= num
  {
    if rows == 0 then Finite(0.0)
    else
      SumOfExampleLosses(prob, labels, num, dim, labelDim, rows - 1, log)
        .Plus(ExampleLoss(prob, labels, num, dim, labelDim, rows - 1, log))
  }

  /** The layer's loss: the mean over the batch of the example losses. */
  function MultiLabelLoss(prob: seq<real>, labels: seq<int>, num: nat, dim: nat, labelDim: nat,
                          log: real -> real): Scalar
    requires ScanSafe(labels, num, labelDim, dim) && |prob| == num * dim && num > 0
  {
    match SumOfExampleLosses(prob, labels, num, dim, labelDim, num, log)
    case NaN => NaN
    case Finite(total) => Finite(total / (num as real))
  }

  /** Reshape: top[1], when there is one, takes the shape of bottom[0]. */
  function Top1Shape(bottom0: Shape, numTops: nat): (s: Option<Shape>)
    ensures s.Some? <==> numTops >= 2
    ensures s.Some? ==> s.value == bottom0 && s.value.Count() == bottom0.Count()
  {
    if numTops >= 2 then Some(bottom0) else None
  }

  /** The inner loop of Forward_cpu for example `i`: it walks the labels
      of the example up to the sentinel, accumulating `tmp_loss` and
      counting `num_labels`. */
  method ExampleNegLogSum(prob: seq<real>, labels: seq<int>, dim: nat, labelDim: nat,
                          i: nat, log: real -> real) returns (tmpLoss: real, numLabels: nat)
    requires RowTerminated(labels, labelDim, i)
    requires Indexes(Labels(labels, labelDim, i), Offset(i, dim, 0), |prob|)
    ensures numLabels == |Labels(labels, labelDim, i)|
    ensures tmpLoss == NegLogSum(prob, Offset(i, dim, 0), Labels(labels, labelDim, i), log)
  {
    ghost var ls := Labels(labels, labelDim, i);
    var start, base := i * labelDim, i * dim;
    assert start == Offset(i, labelDim, 0) && base == Offset(i, dim, 0);
    tmpLoss, numLabels := 0.0, 0;
    var j := 0;
    while labels[start + j] != Sentinel
      invariant 0 <= j <= |ls| && numLabels == j
      invariant Indexes(ls[..j], base, |prob|)
      invariant tmpLoss == NegLogSum(prob, base, ls[..j], log)
      decreases |ls| - j
    {
      assert labels[start + j] == ls[j];
      var l := labels[start + j];
      tmpLoss := tmpLoss - log(Max(prob[base + l], FltMin));
      numLabels := numLabels + 1;
      assert ls[..j + 1][..j] == ls[..j];
      j := j + 1;
    }
    assert ls[..j] == ls;
  }

  /** The outer loop of Forward_cpu: it adds up the example losses. */
  method BatchLoss(prob: seq<real>, labels: seq<int>, num: nat, dim: nat, labelDim: nat,
                   log: real -> real) returns (loss: Scalar)
    requires ScanSafe(labels, num, labelDim, dim) && |prob| == num * dim
    ensures loss == SumOfExampleLosses(prob, labels, num, dim, labelDim, num, log)
  {
    loss := Finite(0.0);
    for i := 0 to num
      invariant loss == SumOfExampleLosses(prob, labels, num, dim, labelDim, i, log)
    {
      LabelsIndexRow(labels, num, dim, labelDim, i);
      var tmpLoss, numLabels := ExampleNegLogSum(prob, labels, dim, labelDim, i, log);
      loss := loss.Plus(Quotient(tmpLoss, numLabels));
    }
  }

  /** Forward_cpu, from the point where the softmax sub-layer has filled
      `prob`, a blob of shape `probShape`, and `labels` is bottom[1]'s data. */
  method ForwardCpu(probShape: Shape, prob: array<real>, labels: array<int>, numTops: nat,
                    log: real -> real) returns (r: ForwardResult)
    requires prob.Length == probShape.Count() && probShape.num > 0
    requires probShape.SpatialDim() == 1 ==>
      ScanSafe(labels[..], probShape.num, labels.Length / probShape.num, probShape.Dim())
    ensures probShape.SpatialDim() != 1 ==> r == ForwardFatal(SpatialDimNotOne)
    ensures probShape.SpatialDim() == 1 ==>
      && r.Forwarded?
      && r.loss == MultiLabelLoss(prob[..], labels[..], probShape.num, probShape.Dim(),
                                  labels.Length / probShape.num, log)
      && (r.top1.Some? <==> numTops == 2)
      && (r.top1.Some? ==> r.top1.value == prob[..])
  {
    var num := probShape.num;
    var dim := prob.Length / num;
    var spatialDim := probShape.height * probShape.width;
    DivIsNat(labels.Length, num);
    var labelDim := labels.Length / num;
    if spatialDim != 1 {
      return ForwardFatal(SpatialDimNotOne);
    }
    CountPerExample(probShape);
    var loss := BatchLoss(prob[..], labels[..], num, dim, labelDim, log);
    match loss
    case NaN =>
      r := Forwarded(NaN, if numTops == 2 then Some(prob[..]) else None);
    case Finite(total) =>
      r := Forwarded(Finite(total / (num as real)), if numTops == 2 then Some(prob[..]) else None);
  }

  // ---------------------------------------------------------------------
  // Backward pass

  /** Entry `c` of example `i` after the decrement loops: the probability
      minus the number of times `c` is listed among the example's labels. */
  function Decremented(prob: seq<real>, labels: seq<int>, num: nat, dim: nat, labelDim: nat,
                       i: nat, c: nat): real
    requires ScanSafe(labels, num, labelDim, dim) && |prob| == num * dim && i < num && c < dim
  {
    OffsetInBounds(i, dim, c, num);
    At(prob, dim, i, c) - multiset(Labels(labels, labelDim, i))[c] as real
  }

  /** `g` is the gradient the backward pass promises: every decremented
      entry times the scale `alpha`, which the backward pass sets to the
      flat `w / num`. */
  predicate IsGradient(g: seq<real>, prob: seq<real>, labels: seq<int>, num: nat, dim: nat,
                       labelDim: nat, alpha: real)
    requires ScanSafe(labels, num, labelDim, dim) && |prob| == num * dim
  {
    && |g| == |prob|
    && forall i, c :: 0 <= i < num && 0 <= c < dim ==>
         && Offset(i, dim, c) < |g|
         && At(g, dim, i, c) == alpha * Decremented(prob, labels, num, dim, labelDim, i, c)
  }

  /** Scaling the decremented probabilities by `alpha` gives the gradient. */
  lemma ScaledIsGradient(g: seq<real>, s: seq<real>, prob: seq<real>, labels: seq<int>,
                         num: nat, dim: nat, labelDim: nat, alpha: real)
    requires ScanSafe(labels, num, labelDim, dim) && |prob| == num * dim
    requires |g| == |prob| && |s| == |prob|
    requires forall k :: 0 <= k < |g| ==> g[k] == alpha * s[k]
    requires forall i, c :: 0 <= i < num && 0 <= c < dim ==>
      Offset(i, dim, c) < |s| && s[Offset(i, dim, c)] == Decremented(prob, labels, num, dim, labelDim, i, c)
    ensures IsGradient(g, prob, labels, num, dim, labelDim, alpha)
  {
    forall i, c | 0 <= i < num && 0 <= c < dim
      ensures Offset(i, dim, c) < |g|
      ensures At(g, dim, i, c) == alpha * Decremented(prob, labels, num, dim, labelDim, i, c)
    {
      var k := Offset(i, dim, c);
      ScaleEqual(g[k], alpha, s[k], Decremented(prob, labels, num, dim, labelDim, i, c));
    }
  }

  lemma ScaleEqual(x: real, a: real, y: real, z: real)
    ensures x == a * y && y == z ==> x == a * z
  {
  }

  /** The number of times class `c` of example `r` has been decremented
      once the loops have handled every example before `i` and the first
      `j` labels of example `i`. */
  function Decrements(labels: seq<int>, num: nat, dim: nat, labelDim: nat,
                      i: nat, j: nat, r: nat, c: nat): nat
    requires ScanSafe(labels, num, labelDim, dim) && i <= num && r < num
    requires i < num ==> j <= |Labels(labels, labelDim, i)|
  {
    if r < i then multiset(Labels(labels, labelDim, r))[c]
    else if r == i then multiset(Labels(labels, labelDim, i)[..j])[c]
    else 0
  }

  /** `d` is `original` after the decrements of every example before `i`
      and of the first `j` labels of example `i`. */
  predicate DecrementedThrough(d: seq<real>, original: seq<real>, labels: seq<int>, num: nat, dim: nat,
                               labelDim: nat, i: nat, j: nat)
    requires ScanSafe(labels, num, labelDim, dim) && i <= num
    requires i < num ==> j <= |Labels(labels, labelDim, i)|
  {
    && |d| == num * dim && |original| == |d|
    && forall r, c :: 0 <= r < num && 0 <= c < dim ==>
         && Offset(r, dim, c) < |d|
         && d[Offset(r, dim, c)]
            == original[Offset(r, dim, c)] - Decrements(labels, num, dim, labelDim, i, j, r, c) as real
  }

  /** Before the loops nothing has been decremented. */
  lemma NothingDecremented(original: seq<real>, labels: seq<int>, num: nat, dim: nat, labelDim: nat)
    requires ScanSafe(labels, num, labelDim, dim) && |original| == num * dim
    ensures DecrementedThrough(original, original, labels, num, dim, labelDim, 0, 0)
  {
    OffsetsInBounds(num, dim);
    if num > 0 {
      assert Labels(labels, labelDim, 0)[..0] == [];
    }
  }

  /** One pass of the inner loop: subtracting 1 at the class of label `j`
      of example `i` accounts for that label. */
  lemma DecrementStep(d: seq<real>, original: seq<real>, labels: seq<int>, num: nat, dim: nat,
                      labelDim: nat, i: nat, j: nat)
    requires ScanSafe(labels, num, labelDim, dim) && i < num && j < |Labels(labels, labelDim, i)|
    requires DecrementedThrough(d, original, labels, num, dim, labelDim, i, j)
    ensures var l := Labels(labels, labelDim, i)[j];
      && 0 <= l < dim
      && Offset(i, dim, l) < |d|
      && DecrementedThrough(d[Offset(i, dim, l) := d[Offset(i, dim, l)] - 1.0], original,
                            labels, num, dim, labelDim, i, j + 1)
  {
    var ls := Labels(labels, labelDim, i);
    var l := ls[j];
    assert l in ls;
    var k := Offset(i, dim, l);
    var e := d[k := d[k] - 1.0];
    assert ls[..j + 1] == ls[..j] + [l];
    forall r, c | 0 <= r < num && 0 <= c < dim
      ensures Offset(r, dim, c) < |e|
      ensures e[Offset(r, dim, c)]
        == original[Offset(r, dim, c)] - Decrements(labels, num, dim, labelDim, i, j + 1, r, c) as real
    {
      if Offset(r, dim, c) == k {
        OffsetInjective(r, c, i, l, dim);
      }
    }
  }

  /** Once every label of example `i` is handled, example `i + 1` starts. */
  lemma NextExample(d: seq<real>, original: seq<real>, labels: seq<int>, num: nat, dim: nat,
                    labelDim: nat, i: nat)
    requires ScanSafe(labels, num, labelDim, dim) && i < num
    requires DecrementedThrough(d, original, labels, num, dim, labelDim, i, |Labels(labels, labelDim, i)|)
    ensures DecrementedThrough(d, original, labels, num, dim, labelDim, i + 1, 0)
  {
    var ls := Labels(labels, labelDim, i);
    assert ls[..|ls|] == ls;
    if i + 1 < num {
      assert Labels(labels, labelDim, i + 1)[..0] == [];
    }
  }

  /** After the loops every entry is decremented once per occurrence of
      its class among its example's labels. */
  lemma AllDecremented(d: seq<real>, original: seq<real>, labels: seq<int>, num: nat, dim: nat,
                       labelDim: nat)
    requires ScanSafe(labels, num, labelDim, dim) && |original| == num * dim
    requires DecrementedThrough(d, original, labels, num, dim, labelDim, num, 0)
    ensures forall i, c :: 0 <= i < num && 0 <= c < dim ==>
      Offset(i, dim, c) < |d| && d[Offset(i, dim, c)] == Decremented(original, labels, num, dim, labelDim, i, c)
  {
  }

  /** The decrement loops of Backward_cpu: one is subtracted at class `l`
      of example `i` for every label `l` the scan of example `i` visits. */
  method SubtractLabels(diff: array<real>, labels: seq<int>, num: nat, dim: nat, labelDim: nat,
                        ghost original: seq<real>)
    requires ScanSafe(labels, num, labelDim, dim) && diff.Length == num * dim
    requires diff[..] == original
    modifies diff
    ensures forall i, c :: 0 <= i < num && 0 <= c < dim ==>
      Offset(i, dim, c) < diff.Length &&
      diff[Offset(i, dim, c)] == Decremented(original, labels, num, dim, labelDim, i, c)
  {
    NothingDecremented(original, labels, num, dim, labelDim);
    for i := 0 to num
      invariant DecrementedThrough(diff[..], original, labels, num, dim, labelDim, i, 0)
    {
      SubtractExample(diff, labels, num, dim, labelDim, i, original);
    }
    AllDecremented(diff[..], original, labels, num, dim, labelDim);
  }

  /** `diff[k] -= 1`. */
  method Decrement(diff: array<real>, k: nat)
    requires k < diff.Length
    modifies diff
    ensures diff[..] == old(diff[..])[k := old(diff[k]) - 1.0]
  {
    diff[k] := diff[k] - 1.0;
  }

  /** One pass of the inner decrement loop: `diff[i * dim + l] -= 1` for
      the label `l` at position `j` of example `i`. */
  method DecrementLabel(diff: array<real>, labels: seq<int>, num: nat, dim: nat, labelDim: nat,
                        i: nat, j: nat, l: int, ghost original: seq<real>)
    requires ScanSafe(labels, num, labelDim, dim) && i < num
    requires j < |Labels(labels, labelDim, i)| && l == Labels(labels, labelDim, i)[j]
    requires DecrementedThrough(diff[..], original, labels, num, dim, labelDim, i, j)
    modifies diff
    ensures DecrementedThrough(diff[..], original, labels, num, dim, labelDim, i, j + 1)
  {
    DecrementStep(diff[..], original, labels, num, dim, labelDim, i, j);
    Decrement(diff, i * dim + l);
  }

  /** The inner decrement loop of Backward_cpu for example `i`. */
  method SubtractExample(diff: array<real>, labels: seq<int>, num: nat, dim: nat, labelDim: nat,
                         i: nat, ghost original: seq<real>)
    requires ScanSafe(labels, num, labelDim, dim) && i < num
    requires DecrementedThrough(diff[..], original, labels, num, dim, labelDim, i, 0)
    modifies diff
    ensures DecrementedThrough(diff[..], original, labels, num, dim, labelDim, i + 1, 0)
  {
    ghost var ls := Labels(labels, labelDim, i);
    var start := i * labelDim;
    assert start == Offset(i, labelDim, 0);
    var j := 0;
    while labels[start + j] != Sentinel
      invariant 0 <= j <= |ls|
      invariant DecrementedThrough(diff[..], original, labels, num, dim, labelDim, i, j)
      decreases |ls| - j
    {
      assert labels[start + j] == ls[j];
      DecrementLabel(diff, labels, num, dim, labelDim, i, j, labels[start + j], original);
      j := j + 1;
    }
    NextExample(diff[..], original, labels, num, dim, labelDim, i);
  }

  /** Backward_cpu. `propagateScores` and `propagateLabels` are
      propagate_down[0] and propagate_down[1], `lossWeight` is top[0]'s
      gradient and `bottomDiff` is bottom[0]'s gradient buffer. */
  method BackwardCpu(probShape: Shape, prob: array<real>, labels: array<int>,
                     propagateScores: bool, propagateLabels: bool, lossWeight: real,
                     bottomDiff: array<real>) returns (r: BackwardResult)
    requires prob.Length == probShape.Count() && bottomDiff.Length == prob.Length
    requires bottomDiff != prob
    requires propagateScores && !propagateLabels ==>
      && probShape.num > 0
      && (probShape.SpatialDim() == 1 ==>
            ScanSafe(labels[..], probShape.num, labels.Length / probShape.num, probShape.Dim()))
    modifies bottomDiff
    ensures propagateLabels ==>
      r == BackwardFatal(LabelGradientRequested) && bottomDiff[..] == old(bottomDiff[..])
    ensures !propagateLabels && !propagateScores ==>
      r == BackwardDone && bottomDiff[..] == old(bottomDiff[..])
    ensures !propagateLabels && propagateScores && probShape.SpatialDim() != 1 ==>
      r == BackwardFatal(SpatialDimNotOne) && bottomDiff[..] == prob[..]
    ensures !propagateLabels && propagateScores && probShape.SpatialDim() == 1 ==>
      && r == BackwardDone
      && IsGradient(bottomDiff[..], prob[..], labels[..], probShape.num, probShape.Dim(),
                    labels.Length / probShape.num, lossWeight / probShape.num as real)
  {
    if propagateLabels {
      return BackwardFatal(LabelGradientRequested);
    }
    if propagateScores {
      var labelData := labels[..];
      forall k | 0 <= k < prob.Length {
        bottomDiff[k] := prob[k];
      }
      var num := probShape.num;
      var dim := prob.Length / num;
      var spatialDim := probShape.height * probShape.width;
      DivIsNat(labels.Length, num);
      var maxLabels := labels.Length / num;
      if spatialDim != 1 {
        assert bottomDiff[..] == prob[..];
        return BackwardFatal(SpatialDimNotOne);
      }
      CountPerExample(probShape);
      assert dim == probShape.Dim();
      var probData := prob[..];
      ScaledGradient(probData, labelData, num, dim, maxLabels, lossWeight, bottomDiff);
      assert prob[..] == probData && labels[..] == labelData;
    }
    r := BackwardDone;
  }

  /** Backward_cpu after the copy of the probabilities and the shape check:
      the decrements, then the scaling by `loss_weight / num`. */
  method ScaledGradient(prob: seq<real>, labels: seq<int>, num: nat, dim: nat, labelDim: nat,
                        lossWeight: real, bottomDiff: array<real>)
    requires ScanSafe(labels, num, labelDim, dim) && |prob| == num * dim && num > 0
    requires bottomDiff.Length == |prob|
    requires bottomDiff[..] == prob
    modifies bottomDiff
    ensures IsGradient(bottomDiff[..], prob, labels, num, dim, labelDim, lossWeight / num as real)
  {
    SubtractLabels(bottomDiff, labels, num, dim, labelDim, prob);
    ghost var subtracted := bottomDiff[..];
    var alpha := lossWeight / (num as real);
    forall k | 0 <= k < bottomDiff.Length {
      bottomDiff[k] := alpha * bottomDiff[k];
    }
    ScaledIsGradient(bottomDiff[..], subtracted, prob, labels, num, dim, labelDim, alpha);
  }

  // ---------------------------------------------------------------------
  // Properties of the loss

  /** One of the first `rows` examples has no labels. */
  predicate SomeRowEmpty(labels: seq<int>, num: nat, dim: nat, labelDim: nat, rows: nat)
    requires ScanSafe(labels, num, labelDim, dim) && rows <= num
  {
    exists i :: 0 <= i < rows && |Labels(labels, labelDim, i)| == 0
  }

  lemma SomeRowEmptyStep(labels: seq<int>, num: nat, dim: nat, labelDim: nat, rows: nat)
    requires ScanSafe(labels, num, labelDim, dim) && 0 < rows <= num
    ensures SomeRowEmpty(labels, num, dim, labelDim, rows) <==>
      SomeRowEmpty(labels, num, dim, labelDim, rows - 1) || |Labels(labels, labelDim, rows - 1)| == 0
  {
    if SomeRowEmpty(labels, num, dim, labelDim, rows - 1) {
      var i :| 0 <= i < rows - 1 && |Labels(labels, labelDim, i)| == 0;
      assert 0 <= i < rows;
    }
    if SomeRowEmpty(labels, num, dim, labelDim, rows) {
      var i :| 0 <= i < rows && |Labels(labels, labelDim, i)| == 0;
      if i < rows - 1 {
        assert SomeRowEmpty(labels, num, dim, labelDim, rows - 1);
      }
    }
  }

  /** The running sum of example losses is NaN exactly when one of the
      examples it covers has no labels (its 0/0 average is NaN). */
  lemma {:induction false} SumIsNaNIffSomeRowEmpty(prob: seq<real>, labels: seq<int>, num: nat, dim: nat,
                                                   labelDim: nat, rows: nat, log: real -> real)
    requires ScanSafe(labels, num, labelDim, dim) && |prob| == num * dim && rows <= num
    ensures SumOfExampleLosses(prob, labels, num, dim, labelDim, rows, log).NaN?
      <==> SomeRowEmpty(labels, num, dim, labelDim, rows)
  {
    if rows > 0 {
      SumIsNaNIffSomeRowEmpty(prob, labels, num, dim, labelDim, rows - 1, log);
      ExampleLossIsNaN(prob, labels, num, dim, labelDim, rows - 1, log);
      SomeRowEmptyStep(labels, num, dim, labelDim, rows);
    }
  }

  /** An example's loss is NaN exactly when it has no labels. */
  lemma ExampleLossIsNaN(prob: seq<real>, labels: seq<int>, num: nat, dim: nat, labelDim: nat,
                         i: nat, log: real -> real)
    requires ScanSafe(labels, num, labelDim, dim) && |prob| == num * dim && i < num
    ensures ExampleLoss(prob, labels, num, dim, labelDim, i, log).NaN?
      <==> |Labels(labels, labelDim, i)| == 0
  {
    LabelsIndexRow(labels, num, dim, labelDim, i);
  }

  /** The batch loss is NaN exactly when some example has no labels. */
  lemma LossIsNaNIffSomeRowEmpty(prob: seq<real>, labels: seq<int>, num: nat, dim: nat,
                                 labelDim: nat, log: real -> real)
    requires ScanSafe(labels, num, labelDim, dim) && |prob| == num * dim && num > 0
    ensures MultiLabelLoss(prob, labels, num, dim, labelDim, log).NaN?
      <==> SomeRowEmpty(labels, num, dim, labelDim, num)
  {
    SumIsNaNIffSomeRowEmpty(prob, labels, num, dim, labelDim, num, log);
  }

  /** `log` is not positive on (0, 1], as the natural logarithm is not. */
  ghost predicate LogNonPositiveUpToOne(log: real -> real) {
    forall x :: 0.0 < x <= 1.0 ==> log(x) <= 0.0
  }

  /** Every entry of the buffer is at most 1, as a probability is. */
  predicate AtMostOne(prob: seq<real>) {
    forall k :: 0 <= k < |prob| ==> prob[k] <= 1.0
  }

  lemma {:induction false} NegLogSumNonNegative(prob: seq<real>, base: nat, ls: seq<int>, log: real -> real)
    requires Indexes(ls, base, |prob|) && AtMostOne(prob) && LogNonPositiveUpToOne(log)
    ensures NegLogSum(prob, base, ls, log) >= 0.0
    decreases |ls|
  {
    if ls != [] {
      var front := ls[..|ls| - 1];
      assert Indexes(front, base, |prob|) by {
        forall j | 0 <= j < |front| ensures 0 <= front[j] && base + front[j] < |prob| {
          assert front[j] == ls[j];
        }
      }
      NegLogSumNonNegative(prob, base, front, log);
      var p := Max(prob[base + ls[|ls| - 1]], FltMin);
      assert 0.0 < p <= 1.0;
    }
  }

  lemma {:induction false} SumOfExampleLossesNonNegative(prob: seq<real>, labels: seq<int>, num: nat,
                                                         dim: nat, labelDim: nat, rows: nat,
                                                         log: real -> real)
    requires ScanSafe(labels, num, labelDim, dim) && |prob| == num * dim && rows <= num
    requires AtMostOne(prob) && LogNonPositiveUpToOne(log)
    ensures NotNegative(SumOfExampleLosses(prob, labels, num, dim, labelDim, rows, log))
  {
    if rows > 0 {
      SumOfExampleLossesNonNegative(prob, labels, num, dim, labelDim, rows - 1, log);
      ExampleLossNonNegative(prob, labels, num, dim, labelDim, rows - 1, log);
      NonNegativePlus(SumOfExampleLosses(prob, labels, num, dim, labelDim, rows - 1, log),
                      ExampleLoss(prob, labels, num, dim, labelDim, rows - 1, log));
    }
  }

  /** The sum of two scalars that are not negative numbers is not one either. */
  lemma NonNegativePlus(x: Scalar, y: Scalar)
    requires NotNegative(x) && NotNegative(y)
    ensures NotNegative(x.Plus(y))
  {
  }

  /** With probabilities at most 1, an example's loss, when it is a
      number, is not negative. */
  lemma ExampleLossNonNegative(prob: seq<real>, labels: seq<int>, num: nat, dim: nat, labelDim: nat,
                               i: nat, log: real -> real)
    requires ScanSafe(labels, num, labelDim, dim) && |prob| == num * dim && i < num
    requires AtMostOne(prob) && LogNonPositiveUpToOne(log)
    ensures NotNegative(ExampleLoss(prob, labels, num, dim, labelDim, i, log))
  {
    var ls := Labels(labels, labelDim, i);
    LabelsIndexRow(labels, num, dim, labelDim, i);
    NegLogSumNonNegative(prob, Offset(i, dim, 0), ls, log);
    QuotientNonNegative(NegLogSum(prob, Offset(i, dim, 0), ls, log), |ls|);
  }

  lemma QuotientNonNegative(x: real, n: nat)
    requires x >= 0.0
    ensures NotNegative(Quotient(x, n))
  {
  }

  /** With probabilities at most 1 the loss, when it is a number, is not
      negative. */
  lemma LossNonNegative(prob: seq<real>, labels: seq<int>, num: nat, dim: nat, labelDim: nat,
                        log: real -> real)
    requires ScanSafe(labels, num, labelDim, dim) && |prob| == num * dim && num > 0
    requires AtMostOne(prob) && LogNonPositiveUpToOne(log)
    ensures NotNegative(MultiLabelLoss(prob, labels, num, dim, labelDim, log))
  {
    SumOfExampleLossesNonNegative(prob, labels, num, dim, labelDim, num, log);
  }

  /** One example of three classes labelled with class 0 only: the loss is
      -log of the probability of class 0. */
  lemma SingleLabelExample(log: real -> real)
    ensures ScanSafe([0, -1], 1, 2, 3)
    ensures MultiLabelLoss([0.5, 0.3, 0.2], [0, -1], 1, 3, 2, log) == Finite(0.0 - log(0.5))
  {
    SingleLabelScan();
    assert NegLogSum([0.5, 0.3, 0.2], 0, [0], log) == 0.0 - log(0.5) by {
      assert Max(0.5, FltMin) == 0.5;
    }
    assert ExampleLoss([0.5, 0.3, 0.2], [0, -1], 1, 3, 2, 0, log) == Finite(0.0 - log(0.5));
  }

  /** The scan of the row [0, -1] reads the single label 0. */
  lemma SingleLabelScan()
    ensures ScanSafe([0, -1], 1, 2, 3) && Labels([0, -1], 2, 0) == [0]
  {
    var labels := [0, -1];
    assert labels[1] == Sentinel;
    assert LabelsFrom(labels, 1) == [];
  }

  /** One example of four equally likely classes labelled {0, 1}: the mean
      over the two labels is -log(1/4); the sentinel before the end of the
      row stops the scan. */
  lemma TwoLabelExample(log: real -> real)
    ensures ScanSafe([0, 1, -1], 1, 3, 4)
    ensures MultiLabelLoss([0.25, 0.25, 0.25, 0.25], [0, 1, -1], 1, 4, 3, log)
      == Finite(0.0 - log(0.25))
  {
    var labels, prob := [0, 1, -1], [0.25, 0.25, 0.25, 0.25];
    TwoLabelScan();
    TwoLabelNegLogSum(log);
    assert ExampleLoss(prob, labels, 1, 4, 3, 0, log) == Finite(0.0 - log(0.25));
  }

  /** The scan of the row [0, 1, -1] reads the labels 0 and 1. */
  lemma TwoLabelScan()
    ensures ScanSafe([0, 1, -1], 1, 3, 4) && Labels([0, 1, -1], 3, 0) == [0, 1]
  {
    var labels := [0, 1, -1];
    assert labels[2] == Sentinel;
    assert LabelsFrom(labels, 2) == [];
    assert LabelsFrom(labels, 1) == [1];
  }

  lemma TwoLabelNegLogSum(log: real -> real)
    ensures NegLogSum([0.25, 0.25, 0.25, 0.25], 0, [0, 1], log) == 0.0 - log(0.25) - log(0.25)
  {
    assert Max(0.25, FltMin) == 0.25;
    assert [0, 1][..1] == [0];
  }

  // ---------------------------------------------------------------------
  // Properties of the gradient

  /** The number of labels of `ls` below `n`, counted class by class. */
  function CountBelow(ls: seq<int>, n: nat): nat {
    if n == 0 then 0 else CountBelow(ls, n - 1) + multiset(ls)[n - 1]
  }

  lemma {:induction false} CountBelowSnoc(ls: seq<int>, l: int, n: nat)
    ensures CountBelow(ls + [l], n) == CountBelow(ls, n) + if 0 <= l < n then 1 else 0
  {
    if n > 0 {
      CountBelowSnoc(ls, l, n - 1);
      assert multiset(ls + [l]) == multiset(ls) + multiset{l};
    }
  }

  lemma {:induction false} CountBelowEmpty(n: nat)
    ensures CountBelow([], n) == 0
  {
    if n > 0 {
      CountBelowEmpty(n - 1);
    }
  }

  /** When every label is a class below `n`, counting class by class finds
      them all. */
  lemma {:induction false} CountBelowAll(ls: seq<int>, n: nat)
    requires forall l :: l in ls ==> 0 <= l < n
    ensures CountBelow(ls, n) == |ls|
    decreases |ls|
  {
    if ls != [] {
      var front, last := ls[..|ls| - 1], ls[|ls| - 1];
      assert ls == front + [last];
      assert last in ls;
      assert forall l :: l in front ==> l in ls;
      CountBelowAll(front, n);
      CountBelowSnoc(front, last, n);
    } else {
      CountBelowEmpty(n);
    }
  }

  /** The sum of a sequence of reals, accumulated left to right. */
  function Sum(s: seq<real>): real {
    if s == [] then 0.0 else Sum(s[..|s| - 1]) + s[|s| - 1]
  }

  lemma Distribute(a: real, u: real, v: real, w: real)
    ensures w == u + v ==> a * u + a * v == a * w
  {
  }

  /** `a` times every entry of `d`, what caffe_scal leaves in a buffer. */
  function Scaled(a: real, d: seq<real>): (r: seq<real>)
    ensures |r| == |d|
    ensures forall k :: 0 <= k < |d| ==> r[k] == a * d[k]
  {
    seq(|d|, k requires 0 <= k < |d| => a * d[k])
  }

  /** Scaling every entry scales the sum. */
  lemma {:induction false} SumOfScaled(a: real, d: seq<real>, t: real)
    requires Sum(d) == t
    ensures Sum(Scaled(a, d)) == a * t
  {
    if d != [] {
      var n := |d| - 1;
      forall k | 0 <= k < n ensures Scaled(a, d)[..n][k] == Scaled(a, d[..n])[k] {
        assert d[..n][k] == d[k];
      }
      assert Scaled(a, d)[..n] == Scaled(a, d[..n]);
      SumOfScaled(a, d[..n], Sum(d[..n]));
      Distribute(a, Sum(d[..n]), d[n], t);
    }
  }

  /** The sum of entrywise differences is the difference of the sums. */
  lemma {:induction false} SumDifference(p: seq<real>, m: seq<real>, d: seq<real>)
    requires |p| == |m| == |d| && forall k :: 0 <= k < |d| ==> d[k] == p[k] - m[k]
    ensures Sum(d) == Sum(p) - Sum(m)
  {
    if d != [] {
      var n := |d| - 1;
      SumDifference(p[..n], m[..n], d[..n]);
    }
  }

  /** `counts[c]` is the number of times class `c` is listed in `ls`. */
  function Counts(ls: seq<int>, n: nat): (counts: seq<real>)
    ensures |counts| == n
    ensures forall c :: 0 <= c < n ==> counts[c] == multiset(ls)[c] as real
  {
    seq(n, c => multiset(ls)[c] as real)
  }

  lemma {:induction false} SumOfCounts(ls: seq<int>, n: nat)
    ensures Sum(Counts(ls, n)) == CountBelow(ls, n) as real
  {
    if n > 0 {
      assert Counts(ls, n)[..n - 1] == Counts(ls, n - 1);
      SumOfCounts(ls, n - 1);
    }
  }

  /** Row `i` of a buffer of rows of `dim` entries. */
  function Row(g: seq<real>, dim: nat, i: nat): (row: seq<real>)
    requires Offset(i, dim, dim) <= |g|
    ensures |row| == dim
    ensures forall c :: 0 <= c < dim ==> row[c] == g[Offset(i, dim, c)]
  {
    g[Offset(i, dim, 0)..Offset(i, dim, dim)]
  }

  /** Row `i` after the decrement loops, before the scaling. */
  function DecrementedRow(prob: seq<real>, labels: seq<int>, num: nat, dim: nat, labelDim: nat,
                          i: nat): (row: seq<real>)
    requires ScanSafe(labels, num, labelDim, dim) && |prob| == num * dim && i < num
    ensures |row| == dim
    ensures forall c :: 0 <= c < dim ==> row[c] == Decremented(prob, labels, num, dim, labelDim, i, c)
  {
    seq(dim, c requires 0 <= c < dim => Decremented(prob, labels, num, dim, labelDim, i, c))
  }

  /** A gradient row is the decremented row scaled by `alpha`. */
  lemma GradientRowScaled(g: seq<real>, prob: seq<real>, labels: seq<int>, num: nat,
                          dim: nat, labelDim: nat, alpha: real, i: nat)
    requires ScanSafe(labels, num, labelDim, dim) && |prob| == num * dim
    requires IsGradient(g, prob, labels, num, dim, labelDim, alpha)
    requires i < num && Offset(i, dim, dim) <= |prob|
    ensures Row(g, dim, i) == Scaled(alpha, DecrementedRow(prob, labels, num, dim, labelDim, i))
  {
    var gr, dr := Row(g, dim, i), DecrementedRow(prob, labels, num, dim, labelDim, i);
    forall c | 0 <= c < dim ensures gr[c] == alpha * dr[c] {
      GradientEntry(g, prob, labels, num, dim, labelDim, alpha, i, c);
    }
    ScaledEntries(gr, alpha, dr);
  }

  lemma GradientEntry(g: seq<real>, prob: seq<real>, labels: seq<int>, num: nat,
                      dim: nat, labelDim: nat, alpha: real, i: nat, c: nat)
    requires ScanSafe(labels, num, labelDim, dim) && |prob| == num * dim
    requires IsGradient(g, prob, labels, num, dim, labelDim, alpha)
    requires i < num && c < dim && Offset(i, dim, dim) <= |prob|
    ensures Row(g, dim, i)[c] == alpha * DecrementedRow(prob, labels, num, dim, labelDim, i)[c]
  {
    assert Row(g, dim, i)[c] == At(g, dim, i, c);
  }

  lemma ScaledEntries(r: seq<real>, a: real, d: seq<real>)
    requires |r| == |d| && forall k :: 0 <= k < |d| ==> r[k] == a * d[k]
    ensures r == Scaled(a, d)
  {
  }

  /** The decremented row adds up to the row of probabilities minus the
      number of labels counted class by class. */
  lemma DecrementedRowSum(prob: seq<real>, labels: seq<int>, num: nat, dim: nat, labelDim: nat, i: nat)
    requires ScanSafe(labels, num, labelDim, dim) && |prob| == num * dim
    requires i < num && Offset(i, dim, dim) <= |prob|
    ensures Sum(DecrementedRow(prob, labels, num, dim, labelDim, i))
      == Sum(Row(prob, dim, i)) - CountBelow(Labels(labels, labelDim, i), dim) as real
  {
    var ls := Labels(labels, labelDim, i);
    var pr, mr, dr := Row(prob, dim, i), Counts(ls, dim), DecrementedRow(prob, labels, num, dim, labelDim, i);
    SumDifference(pr, mr, dr);
    SumOfCounts(ls, dim);
  }

  /** When the probabilities of example `i` add up to 1, its gradient adds
      up to `(1 - |labels(i)|) * alpha`: with class counts in place of
      `count / |labels(i)|`, the gradient rows of the backward pass add up
      to 0, as the gradient of a softmax loss does, only for an example
      with exactly one label. */
  lemma DecrementedRowSumOne(prob: seq<real>, labels: seq<int>, num: nat, dim: nat, labelDim: nat, i: nat)
    requires ScanSafe(labels, num, labelDim, dim) && |prob| == num * dim
    requires i < num && Offset(i, dim, dim) <= |prob| && Sum(Row(prob, dim, i)) == 1.0
    ensures Sum(DecrementedRow(prob, labels, num, dim, labelDim, i)) == 1.0 - |Labels(labels, labelDim, i)| as real
  {
    var ls := Labels(labels, labelDim, i);
    DecrementedRowSum(prob, labels, num, dim, labelDim, i);
    CountBelowAll(ls, dim);
  }

  lemma ScaleOneMinus(a: real, x: real, n: nat)
    requires x == 1.0 - n as real
    ensures a * x == a - a * (n as real)
  {
  }

  /** `x` is `alpha * (1 - n)`, the row sum a gradient row of an
      example with `n` labels has when its probabilities add up to 1. */
  predicate IsScaledOneMinus(x: real, alpha: real, n: nat) {
    x == alpha - alpha * (n as real)
  }

  lemma ScaledSumOneMinus(sg: real, alpha: real, dr: seq<real>, n: nat)
    requires sg == Sum(Scaled(alpha, dr)) && Sum(dr) == 1.0 - n as real
    ensures IsScaledOneMinus(sg, alpha, n)
  {
    SumOfScaled(alpha, dr, Sum(dr));
    ScaleOneMinus(alpha, Sum(dr), n);
  }

  lemma GradientRowSum(g: seq<real>, prob: seq<real>, labels: seq<int>, num: nat,
                       dim: nat, labelDim: nat, alpha: real, i: nat)
    requires ScanSafe(labels, num, labelDim, dim) && |prob| == num * dim
    requires IsGradient(g, prob, labels, num, dim, labelDim, alpha)
    requires i < num && Offset(i, dim, dim) <= |prob| && Sum(Row(prob, dim, i)) == 1.0
    ensures IsScaledOneMinus(Sum(Row(g, dim, i)), alpha, |Labels(labels, labelDim, i)|)
  {
    var dr := DecrementedRow(prob, labels, num, dim, labelDim, i);
    GradientRowScaled(g, prob, labels, num, dim, labelDim, alpha, i);
    DecrementedRowSumOne(prob, labels, num, dim, labelDim, i);
    ScaledSumOneMinus(Sum(Row(g, dim, i)), alpha, dr, |Labels(labels, labelDim, i)|);
  }
}
