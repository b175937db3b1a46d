/** Shared vocabulary of the two loss layers: blob shapes, the scalar a
    single-precision loss can take (a real number or NaN), and the
    row-major index arithmetic `row * width + column` the layers use to
    address a flat buffer. */
module Blobs {

  datatype Option<+T> = None | Some(value: T)

  /** The (num, channels, height, width) shape of a blob. */
  datatype Shape = Shape(num: nat, channels: nat, height: nat, width: nat) {
    /** Number of elements of the data (and of the gradient) buffer. */
    function Count(): nat { num * channels * height * width }
    /** Number of elements per example. */
    function Dim(): nat { channels * height * width }
    /** Number of spatial positions per channel. */
    function SpatialDim(): nat { height * width }
  }

  /** `count() / num()`, the per-example width the layers compute, is
      the product of the other three extents. */
  lemma CountPerExample(s: Shape)
    requires s.num > 0
    ensures s.Count() / s.num == s.Dim()
    ensures s.Count() == s.num * s.Dim()
  {
    assert s.Count() == Offset(s.Dim(), s.num, 0);
    DivModOfOffset(s.Dim(), s.num, 0, s.Count());
  }

  /** A floating-point result that is either an ordinary number or NaN;
      NaN absorbs every addition and division it takes part in. */
  datatype Scalar = Finite(value: real) | NaN {
    function Plus(other: Scalar): (r: Scalar)
      ensures r.NaN? <==> NaN? || other.NaN?
    {
      if Finite? && other.Finite? then Finite(value + other.value) else NaN
    }
  }

  /** A scalar that is NaN or a number at least 0. */
  predicate NotNegative(x: Scalar) {
    x.Finite? ==> x.value >= 0.0
  }

  /** IEEE division of a sum held as a real by an integer count: the layers
      only ever divide by a count that is zero when the sum is zero too, so
      the zero case is 0/0, which is NaN. */
  function Quotient(x: real, n: nat): (r: Scalar)
    ensures r.NaN? <==> n == 0
    ensures n > 0 ==> r.value * (n as real) == x
  {
    if n == 0 then NaN else Finite(x / (n as real))
  }

  /** Flat position of column `c` of row `r` in a buffer of rows of
      `width` elements. */
  function Offset(r: nat, width: nat, c: nat): nat { r * width + c }

  /** The element at row `r`, column `c` of a flat row-major buffer. */
  function At<T>(s: seq<T>, width: nat, r: nat, c: nat): T
    requires Offset(r, width, c) < |s|
  {
    s[Offset(r, width, c)]
  }

  lemma MulMonotone(a: int, b: int, w: int)
    ensures a <= b && 0 <= w ==> a * w <= b * w
  {
    assert b * w == a * w + (b - a) * w;
  }

  /** Integer division of a natural number by a positive one stays
      between 0 and the dividend. */
  lemma DivIsNat(a: nat, b: nat)
    requires b > 0
    ensures 0 <= a / b <= a
  {
    var q, m := a / b, a % b;
    assert a == q * b + m && 0 <= m < b;
    MulMonotone(q, -1, b);
    MulMonotone(1, b, q);
  }

  /** Column `c < width` of row `r < rows` lies inside a buffer of
      `rows * width` elements. */
  lemma OffsetInBounds(r: nat, width: nat, c: nat, rows: nat)
    requires r < rows && c < width
    ensures Offset(r, width, c) < rows * width
  {
    MulMonotone(r + 1, rows, width);
  }

  /** Every (row, column) pair of a `rows` by `width` buffer addresses
      one of its elements. */
  lemma OffsetsInBounds(rows: nat, width: nat)
    ensures forall r, c :: 0 <= r < rows && 0 <= c < width ==> Offset(r, width, c) < rows * width
  {
    forall r, c | 0 <= r < rows && 0 <= c < width ensures Offset(r, width, c) < rows * width {
      OffsetInBounds(r, width, c, rows);
    }
  }

  /** The flat position determines row and column. */
  lemma DivModOfOffset(r: nat, width: nat, c: nat, k: nat)
    requires c < width && k == Offset(r, width, c)
    ensures k / width == r && k % width == c
  {
    var q, m := k / width, k % width;
    assert k == q * width + m && 0 <= m < width;
    assert (q + 1) * width == q * width + width;
    assert (r + 1) * width == r * width + width;
    MulMonotone(q + 1, r, width);
    MulMonotone(r + 1, q, width);
  }

  /** Every element of row `r` comes before row `j > r`. */
  lemma RowBefore(r: nat, j: nat, width: nat, c: nat)
    requires r < j && c < width
    ensures Offset(r, width, c) < Offset(j, width, 0)
  {
    MulMonotone(r + 1, j, width);
  }

  /** Distinct (row, column) pairs with columns below `width` have
      distinct flat positions. */
  lemma OffsetInjective(r: nat, c: nat, r': nat, c': nat, width: nat)
    requires c < width && c' < width
    requires Offset(r, width, c) == Offset(r', width, c')
    ensures r == r' && c == c'
  {
    DivModOfOffset(r, width, c, Offset(r, width, c));
    DivModOfOffset(r', width, c', Offset(r', width, c'));
  }
}
