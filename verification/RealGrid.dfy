/** A grid of equal steps on the time line: where cell i begins and which cell a time falls into. */
module RealGrid {
  function At(i: int, width: real): real { i as real * width }

  lemma AtNext(i: int, width: real)
    ensures At(i + 1, width) == At(i, width) + width
  {
  }

  lemma AtMonotone(i: int, j: int, width: real)
    requires width > 0.0 && i <= j
    ensures At(i, width) <= At(j, width)
    ensures i < j ==> At(i, width) + width <= At(j, width)
  {
    assert At(j, width) == At(i, width) + (j - i) as real * width;
    if i < j {
      assert (j - i) as real * width >= 1.0 * width;
    }
  }

  function CellOf(time: real, width: real): int
    requires width > 0.0
  {
    (time / width).Floor
  }

  lemma Product(a: real, b: real)
    requires a > 0.0 && b > 0.0
    ensures a * b > 0.0
  {
  }

  lemma CellBounds(time: real, width: real)
    requires width > 0.0
    ensures At(CellOf(time, width), width) <= time < At(CellOf(time, width) + 1, width)
  {
    var c := CellOf(time, width);
    Between(time / width, c, width);
    assert time / width * width == time;
  }

  lemma Between(q: real, c: int, width: real)
    requires width > 0.0 && c as real <= q < (c + 1) as real
    ensures At(c, width) <= q * width < At(c + 1, width)
  {
    ProductMonotone(c as real, q, width);
    StrictProduct(q, (c + 1) as real, width);
  }

  lemma ProductMonotone(a: real, b: real, w: real)
    requires a <= b && w > 0.0
    ensures a * w <= b * w
  {
  }

  lemma StrictProduct(a: real, b: real, w: real)
    requires a < b && w > 0.0
    ensures a * w < b * w
  {
    assert b * w - a * w == (b - a) * w;
    Product(b - a, w);
  }

  lemma CellUnique(time: real, width: real, c: int)
    requires width > 0.0 && At(c, width) <= time < At(c + 1, width)
    ensures CellOf(time, width) == c
  {
    CellBounds(time, width);
    var d := CellOf(time, width);
    if d < c { AtMonotone(d + 1, c, width); }
    if c < d { AtMonotone(c + 1, d, width); }
  }

  /** Doubling the width merges cells in pairs. */
  lemma DoubleWidth(time: real, width: real)
    requires width > 0.0
    ensures CellOf(time, 2.0 * width) == CellOf(time, width) / 2
  {
    var c := CellOf(time, width);
    CellBounds(time, width);
    assert At(c / 2, 2.0 * width) == At(2 * (c / 2), width);
    assert At(c / 2 + 1, 2.0 * width) == At(2 * (c / 2) + 2, width);
    AtMonotone(2 * (c / 2), c, width);
    AtMonotone(c + 1, 2 * (c / 2) + 2, width);
    CellUnique(time, 2.0 * width, c / 2);
  }

  /** `Math.ceil(time / width)`. */
  function CellsUpTo(time: real, width: real): int
    requires width > 0.0
  {
    -CellOf(-time, width)
  }

  lemma CellsCover(time: real, width: real)
    requires width > 0.0
    ensures At(CellsUpTo(time, width) - 1, width) < time <= At(CellsUpTo(time, width), width)
  {
    var n := CellsUpTo(time, width);
    CellBounds(-time, width);
    assert At(-n, width) == -At(n, width) && At(-n + 1, width) == -At(n - 1, width);
  }
}
