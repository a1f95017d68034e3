/** `quaero_rect_to_device` of app/src/titlebar.c: CSS rectangles in device pixels.  Each floating-point operation
    is the exact one followed by a rounding, of which only this is used: it is monotone, and rounding twice is
    rounding once, as any rounding of IEEE 754 is.  The identity is one, so the theorems hold of reals too. */
module Titlebar {

  predicate KeepsOrder(rnd: real -> real, a: real, b: real) {
    a <= b ==> rnd(a) <= rnd(b)
  }

  predicate Settles(rnd: real -> real, a: real) {
    rnd(rnd(a)) == rnd(a)
  }

  ghost predicate Rounding(rnd: real -> real) {
    && (forall a, b :: KeepsOrder(rnd, a, b))
    && (forall a :: Settles(rnd, a))
  }

  /** The C conversion of a double to an int: toward zero. */
  function Truncate(v: real): int {
    if v >= 0.0 then v.Floor else -(-v).Floor
  }

  function Product(css: real, dpi: nat): real {
    css * dpi as real
  }

  function Exact(css: real, dpi: nat): real {
    Product(css, dpi) / 96.0
  }

  /** What `to_device` makes of the exact product of a coordinate and the resolution. */
  function Scaled(rnd: real -> real, product: real): real {
    rnd(rnd(product) / 96.0)
  }

  function HalfUp(rnd: real -> real, v: real): real {
    rnd(if v >= 0.0 then v + 0.5 else v - 0.5)
  }

  function Edge(rnd: real -> real, product: real): int {
    Truncate(HalfUp(rnd, Scaled(rnd, product)))
  }

  /** `to_device`: rounded, half away from zero. */
  function ToDevice(rnd: real -> real, css: real, dpi: nat): int {
    Edge(rnd, Product(css, dpi))
  }

  datatype Rect = Rect(x: int, y: int, width: int, height: int)

  function Dpi(dpi: nat): nat {
    if dpi == 0 then 96 else dpi
  }

  function Clamp(size: real): real {
    if size < 0.0 then 0.0 else size
  }

  function RectToDevice(rnd: real -> real, x: real, y: real, width: real, height: real, dpi: nat): Rect {
    var d := Dpi(dpi);
    var left, top := ToDevice(rnd, x, d), ToDevice(rnd, y, d);
    Rect(left, top, ToDevice(rnd, rnd(x + Clamp(width)), d) - left, ToDevice(rnd, rnd(y + Clamp(height)), d) - top)
  }

  lemma ProductMonotone(a: real, b: real, dpi: nat)
    requires a <= b
    ensures Product(a, dpi) <= Product(b, dpi)
  {
    assert (b - a) * dpi as real >= 0.0;
    assert b * dpi as real - a * dpi as real == (b - a) * dpi as real;
  }

  lemma TruncateMonotone(a: real, b: real)
    requires a <= b
    ensures Truncate(a) <= Truncate(b)
  {
  }

  lemma EdgeMonotone(rnd: real -> real, p: real, q: real)
    requires Rounding(rnd) && p <= q
    ensures Edge(rnd, p) <= Edge(rnd, q)
  {
    var v, w := Scaled(rnd, p), Scaled(rnd, q);
    assert KeepsOrder(rnd, p, q);
    assert KeepsOrder(rnd, rnd(p) / 96.0, rnd(q) / 96.0);
    assert KeepsOrder(rnd, if v >= 0.0 then v + 0.5 else v - 0.5, if w >= 0.0 then w + 0.5 else w - 0.5);
    TruncateMonotone(HalfUp(rnd, v), HalfUp(rnd, w));
  }

  lemma ToDeviceMonotone(rnd: real -> real, a: real, b: real, dpi: nat)
    requires Rounding(rnd) && a <= b
    ensures ToDevice(rnd, a, dpi) <= ToDevice(rnd, b, dpi)
  {
    ProductMonotone(a, b, dpi);
    EdgeMonotone(rnd, Product(a, dpi), Product(b, dpi));
  }

  /** A far edge is no nearer than the near one. */
  lemma FarIsBeyond(rnd: real -> real, x: real, size: real)
    requires Rounding(rnd) && rnd(x) == x && size >= 0.0
    ensures x <= rnd(x + size) && Settles(rnd, x + size)
  {
    assert KeepsOrder(rnd, x, x + size);
  }

  /** The error of rounding `v`. */
  predicate Within(rnd: real -> real, v: real, eps: real) {
    -eps <= rnd(v) - v <= eps
  }

  predicate EdgeRoundsWithin(rnd: real -> real, product: real, eps: real) {
    var v := Scaled(rnd, product);
    && Within(rnd, product, eps)
    && Within(rnd, rnd(product) / 96.0, eps)
    && Within(rnd, if v >= 0.0 then v + 0.5 else v - 0.5, eps)
  }

  /** None of the roundings of `ToDevice` is off by more than eps. */
  predicate RoundsWithin(rnd: real -> real, css: real, dpi: nat, eps: real) {
    EdgeRoundsWithin(rnd, Product(css, dpi), eps)
  }

  lemma TruncateIsNear(h: real, v: real, eps: real)
    requires 0.0 <= eps < 0.5 && if v >= 0.0 then -eps <= h - (v + 0.5) <= eps else -eps <= h - (v - 0.5) <= eps
    ensures -0.5 - eps <= Truncate(h) as real - v <= 0.5 + eps
  {
  }

  lemma EdgeIsNear(rnd: real -> real, product: real, eps: real)
    requires 0.0 <= eps < 0.5 && EdgeRoundsWithin(rnd, product, eps)
    ensures -0.5 - 3.0 * eps <= Edge(rnd, product) as real - product / 96.0 <= 0.5 + 3.0 * eps
  {
    var v := Scaled(rnd, product);
    assert -2.0 * eps <= v - product / 96.0 <= 2.0 * eps;
    TruncateIsNear(HalfUp(rnd, v), v, eps);
  }

  /** An edge is within half a device pixel of exact, but for the error of three roundings. */
  lemma ToDeviceIsNear(rnd: real -> real, a: real, dpi: nat, eps: real)
    requires 0.0 <= eps < 0.5 && RoundsWithin(rnd, a, dpi, eps)
    ensures -0.5 - 3.0 * eps <= ToDevice(rnd, a, dpi) as real - Exact(a, dpi) <= 0.5 + 3.0 * eps
  {
    EdgeIsNear(rnd, Product(a, dpi), eps);
  }

  /** The difference of two edges, which is what a width or a height is. */
  function Span(rnd: real -> real, x: real, far: real, dpi: nat): int {
    ToDevice(rnd, far, dpi) - ToDevice(rnd, x, dpi)
  }

  lemma WidthIsSpan(rnd: real -> real, x: real, y: real, width: real, height: real, dpi: nat)
    ensures var r := RectToDevice(rnd, x, y, width, height, dpi);
            && r.width == Span(rnd, x, rnd(x + Clamp(width)), Dpi(dpi))
            && r.height == Span(rnd, y, rnd(y + Clamp(height)), Dpi(dpi))
  {
  }

  lemma SpanIsNotNegative(rnd: real -> real, x: real, size: real, dpi: nat)
    requires Rounding(rnd) && rnd(x) == x && size >= 0.0
    ensures Span(rnd, x, rnd(x + size), dpi) >= 0
  {
    FarIsBeyond(rnd, x, size);
    ToDeviceMonotone(rnd, x, rnd(x + size), dpi);
  }

  /** Sizes are never negative, for any rectangle of doubles. */
  lemma SizesAreNotNegative(rnd: real -> real, x: real, y: real, width: real, height: real, dpi: nat)
    requires Rounding(rnd) && rnd(x) == x && rnd(y) == y
    ensures var r := RectToDevice(rnd, x, y, width, height, dpi); r.width >= 0 && r.height >= 0
  {
    WidthIsSpan(rnd, x, y, width, height, dpi);
    SpanIsNotNegative(rnd, x, Clamp(width), Dpi(dpi));
    SpanIsNotNegative(rnd, y, Clamp(height), Dpi(dpi));
  }

  lemma FarIsNear(x: real, size: real, far: real, dpi: nat, eps: real)
    requires -eps <= far - (x + size) <= eps
    ensures -Exact(eps, dpi) <= Exact(far, dpi) - Exact(x, dpi) - Exact(size, dpi) <= Exact(eps, dpi)
  {
    var d := dpi as real;
    ProductMonotone(far, x + size + eps, dpi);
    ProductMonotone(x + size - eps, far, dpi);
    assert (x + size + eps) * d == x * d + size * d + eps * d;
    assert (x + size - eps) * d == x * d + size * d - eps * d;
  }

  lemma SpanIsNear(rnd: real -> real, x: real, size: real, far: real, dpi: nat, eps: real)
    requires 0.0 <= eps < 0.5 && RoundsWithin(rnd, x, dpi, eps) && RoundsWithin(rnd, far, dpi, eps)
    requires -eps <= far - (x + size) <= eps
    ensures var slack := 6.0 * eps + Exact(eps, dpi);
            -1.0 - slack <= Span(rnd, x, far, dpi) as real - Exact(size, dpi) <= 1.0 + slack
  {
    ToDeviceIsNear(rnd, x, dpi, eps);
    ToDeviceIsNear(rnd, far, dpi, eps);
    FarIsNear(x, size, far, dpi, eps);
  }

  lemma CornerIs(rnd: real -> real, x: real, y: real, width: real, height: real, dpi: nat)
    ensures var r := RectToDevice(rnd, x, y, width, height, dpi);
            r.x == ToDevice(rnd, x, Dpi(dpi)) && r.y == ToDevice(rnd, y, Dpi(dpi))
  {
  }

  /** The corner of a rectangle is near its exact place, as each edge is. */
  lemma CornerIsNear(rnd: real -> real, x: real, y: real, width: real, height: real, dpi: nat, eps: real)
    requires 0.0 <= eps < 0.5 && RoundsWithin(rnd, x, Dpi(dpi), eps) && RoundsWithin(rnd, y, Dpi(dpi), eps)
    ensures var r, slack := RectToDevice(rnd, x, y, width, height, dpi), 0.5 + 3.0 * eps;
            && -slack <= r.x as real - Exact(x, Dpi(dpi)) <= slack
            && -slack <= r.y as real - Exact(y, Dpi(dpi)) <= slack
  {
    ToDeviceIsNear(rnd, x, Dpi(dpi), eps);
    ToDeviceIsNear(rnd, y, Dpi(dpi), eps);
    CornerIs(rnd, x, y, width, height, dpi);
  }

  /** A width is within one pixel of exact, but for the error of the roundings. */
  lemma WidthIsNear(rnd: real -> real, x: real, width: real, dpi: nat, eps: real)
    requires 0.0 <= eps < 0.5
    requires RoundsWithin(rnd, x, Dpi(dpi), eps) && RoundsWithin(rnd, rnd(x + Clamp(width)), Dpi(dpi), eps)
    requires Within(rnd, x + Clamp(width), eps)
    ensures var slack := 6.0 * eps + Exact(eps, Dpi(dpi));
            var off := RectToDevice(rnd, x, 0.0, width, 0.0, dpi).width as real - Exact(Clamp(width), Dpi(dpi));
            -1.0 - slack <= off <= 1.0 + slack
  {
    WidthIsSpan(rnd, x, 0.0, width, 0.0, dpi);
    SpanIsNear(rnd, x, Clamp(width), rnd(x + Clamp(width)), Dpi(dpi), eps);
  }

  /** Where the k-th of a row of abutting rectangles starts. */
  function Start(rnd: real -> real, x: real, widths: seq<real>, k: nat): real
    requires k <= |widths|
  {
    if k == 0 then x else rnd(Start(rnd, x, widths, k - 1) + Clamp(widths[k - 1]))
  }

  function DeviceSum(rnd: real -> real, x: real, widths: seq<real>, k: nat, dpi: nat): int
    requires k <= |widths|
  {
    if k == 0 then 0
    else
      DeviceSum(rnd, x, widths, k - 1, dpi)
      + RectToDevice(rnd, Start(rnd, x, widths, k - 1), 0.0, widths[k - 1], 0.0, dpi).width
  }

  function RowWidth(widths: seq<real>, k: nat): (sum: real)
    requires k <= |widths|
    ensures sum >= 0.0
  {
    if k == 0 then 0.0 else RowWidth(widths, k - 1) + Clamp(widths[k - 1])
  }

  predicate ExactSum(rnd: real -> real, x: real, widths: seq<real>, k: nat) {
    k <= |widths| ==> rnd(x + RowWidth(widths, k)) == x + RowWidth(widths, k)
  }

  lemma {:induction false} ExactStart(rnd: real -> real, x: real, widths: seq<real>, k: nat)
    requires k <= |widths| && forall j: nat :: j <= k ==> ExactSum(rnd, x, widths, j)
    ensures Start(rnd, x, widths, k) == x + RowWidth(widths, k)
  {
    if k > 0 {
      ExactStart(rnd, x, widths, k - 1);
      assert ExactSum(rnd, x, widths, k);
    }
  }

  lemma {:induction false} StartIsDouble(rnd: real -> real, x: real, widths: seq<real>, k: nat)
    requires Rounding(rnd) && rnd(x) == x && k <= |widths|
    ensures rnd(Start(rnd, x, widths, k)) == Start(rnd, x, widths, k) && Start(rnd, x, widths, k) >= x
  {
    if k > 0 {
      var last := Start(rnd, x, widths, k - 1);
      StartIsDouble(rnd, x, widths, k - 1);
      FarIsBeyond(rnd, last, Clamp(widths[k - 1]));
    }
  }

  /** In a row of abutting rectangles, however many there are, no pixel is lost or counted twice between them: their
      widths add up to the distance of the outer edges ... */
  lemma {:induction false} WidthsAddUp(rnd: real -> real, x: real, widths: seq<real>, k: nat, dpi: nat)
    requires k <= |widths|
    ensures DeviceSum(rnd, x, widths, k, dpi) == Span(rnd, x, Start(rnd, x, widths, k), Dpi(dpi))
  {
    if k > 0 {
      WidthsAddUp(rnd, x, widths, k - 1, dpi);
      WidthIsSpan(rnd, Start(rnd, x, widths, k - 1), 0.0, widths[k - 1], 0.0, dpi);
    }
  }

  lemma ExactWidth(rnd: real -> real, x: real, width: real, dpi: nat)
    requires width >= 0.0 && rnd(x + width) == x + width
    ensures RectToDevice(rnd, x, 0.0, width, 0.0, dpi).width == Span(rnd, x, x + width, Dpi(dpi))
  {
    WidthIsSpan(rnd, x, 0.0, width, 0.0, dpi);
  }

  /** ... and that is the width of the one rectangle that covers the row, whenever the additions of CSS widths were
      exact: always over the reals, and over doubles when no sum of theirs was rounded. */
  lemma RowIsOneRectangle(rnd: real -> real, x: real, widths: seq<real>, k: nat, dpi: nat)
    requires k <= |widths| && forall j: nat :: j <= k ==> ExactSum(rnd, x, widths, j)
    ensures DeviceSum(rnd, x, widths, k, dpi) == RectToDevice(rnd, x, 0.0, RowWidth(widths, k), 0.0, dpi).width
  {
    var sum := RowWidth(widths, k);
    assert RectToDevice(rnd, x, 0.0, sum, 0.0, dpi).width == Span(rnd, x, Start(rnd, x, widths, k), Dpi(dpi)) by {
      ExactStart(rnd, x, widths, k);
      assert ExactSum(rnd, x, widths, k);
      ExactWidth(rnd, x, sum, dpi);
    }
    WidthsAddUp(rnd, x, widths, k, dpi);
  }

  /** Each of them is non-negative. */
  lemma WidthsAreNotNegative(rnd: real -> real, x: real, widths: seq<real>, k: nat, dpi: nat)
    requires Rounding(rnd) && rnd(x) == x && k < |widths|
    ensures RectToDevice(rnd, Start(rnd, x, widths, k), 0.0, widths[k], 0.0, dpi).width >= 0
  {
    var from := Start(rnd, x, widths, k);
    StartIsDouble(rnd, x, widths, k);
    WidthIsSpan(rnd, from, 0.0, widths[k], 0.0, dpi);
    SpanIsNotNegative(rnd, from, Clamp(widths[k]), Dpi(dpi));
  }
}
