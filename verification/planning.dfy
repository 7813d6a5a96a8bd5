/**
 Dimension planning of betterResize: the per-axis scale factors, the inference
 of the target row count when the caller passes 0 rows, and the area test that
 picks the direct resize. The source computes in doubles; here the factors are
 exact reals and each integer form used by the model is proved equal to the
 real-valued formula the source writes.
 */
module Planning {

  /** Requested size over natural size on one axis (`x_factor`, `y_factor`). */
  function Factor(requested: nat, natural: nat): (f: real)
    requires natural > 0
    ensures f >= 0.0
    ensures f * natural as real == requested as real
  {
    requested as real / natural as real
  }

  /** PHP `round` on a non-negative value: to the nearest integer, halves away from zero. */
  function Round(x: real): (n: nat)
    requires x >= 0.0
    ensures n as real - 0.5 <= x < n as real + 0.5
  {
    (x + 0.5).Floor
  }

  /** The quotient of two naturals, rounded down, read back from reals. */
  lemma FloorOfQuotient(n: nat, d: nat)
    requires d > 0
    ensures (n as real / d as real).Floor == n / d
  {
    var q := n / d;
    var m := n % d;
    assert n == q * d + m;
    assert (n as real) == (q as real) * (d as real) + (m as real);
    assert (n as real / d as real) == q as real + m as real / d as real;
    assert 0.0 <= m as real / d as real < 1.0;
  }

  /** The row count betterResize resizes to: the caller's `rows`, or, when that
      is 0, `columns` scaled by the image's aspect ratio and rounded. */
  function TargetRows(columns: nat, rows: nat, width: nat, height: nat): (r: nat)
    requires width > 0
    ensures rows != 0 ==> r == rows
    ensures rows == 0 ==> r == Round(Factor(columns, width) * height as real)
  {
    if rows == 0 then
      RoundedRowsMatch(columns, width, height);
      (2 * columns * height + width) / (2 * width)
    else rows
  }

  /** The integer quotient used for inferred rows is PHP's `round` of `x_factor * height`. */
  lemma RoundedRowsMatch(columns: nat, width: nat, height: nat)
    requires width > 0
    ensures (2 * columns * height + width) / (2 * width) == Round(Factor(columns, width) * height as real)
  {
    var c, w, h := columns as real, width as real, height as real;
    var f := Factor(columns, width);
    var y := f * h + 0.5;
    var n, d := (2 * columns * height + width) as real, (2 * width) as real;
    calc {
      y * d;
      (f * h + 0.5) * (2.0 * w);
      2.0 * ((f * w) * h) + w;
      { assert f * w == c; }
      2.0 * (c * h) + w;
      n;
    }
    QuotientUnique(y, n, d);
    FloorOfQuotient(2 * columns * height + width, 2 * width);
  }

  /** A real times a positive divisor giving `n` is the quotient `n / d`. */
  lemma QuotientUnique(y: real, n: real, d: real)
    requires d > 0.0 && y * d == n
    ensures y == n / d
  {
  }

  /** Inferred rows keep the aspect ratio to within half a row:
      |rows / columns - height / width| is at most 1 / (2 * columns). */
  lemma InferredRowsKeepAspect(columns: nat, width: nat, height: nat)
    requires width > 0
    ensures var r := TargetRows(columns, 0, width, height);
      2 * width * r <= 2 * columns * height + width < 2 * width * r + 2 * width
  {
  }

  /** `x_factor * y_factor > 0.1`, stated over the integers. */
  function AreaAboveTenth(columns: nat, rows: nat, width: nat, height: nat): (b: bool)
    requires width > 0 && height > 0
    ensures b <==> Factor(columns, width) * Factor(rows, height) > 0.1
  {
    AreaMatches(columns, rows, width, height);
    10 * columns * rows > width * height
  }

  /** The product of the factors exceeds one tenth exactly when ten times the
      target area exceeds the natural area. */
  lemma AreaMatches(columns: nat, rows: nat, width: nat, height: nat)
    requires width > 0 && height > 0
    ensures 10 * columns * rows > width * height <==> Factor(columns, width) * Factor(rows, height) > 0.1
  {
    var p := Factor(columns, width) * Factor(rows, height);
    var target, natural := columns * rows, width * height;
    FactorProduct(columns, rows, width, height);
    ProductAboveTenth(p, natural as real, target as real);
    TenthComparison(target, natural);
    assert 10 * columns * rows == 10 * target;
  }

  /** The product of the factors times the natural area is the target area. */
  lemma FactorProduct(columns: nat, rows: nat, width: nat, height: nat)
    requires width > 0 && height > 0
    ensures Factor(columns, width) * Factor(rows, height) * (width * height) as real == (columns * rows) as real
  {
  }

  /** One tenth of the natural area is exceeded exactly when ten times the target exceeds it. */
  lemma TenthComparison(target: nat, natural: nat)
    ensures target as real > 0.1 * natural as real <==> 10 * target > natural
  {
  }

  /** A product with a positive scale exceeds a tenth of the scale exactly
      when the factor exceeds a tenth. */
  lemma ProductAboveTenth(p: real, n: real, t: real)
    requires n > 0.0 && p * n == t
    ensures p > 0.1 <==> t > 0.1 * n
  {
  }
}
