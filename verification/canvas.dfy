/**
 Shared vocabulary of the renderer: the bytes the analyser delivers and the
 points a polyline is made of. Canvas calls (`lineTo`, `stroke`, `setLineDash`)
 are replaced by the point sequences and dash patterns they would receive.
 */
module Canvas {

  /** One unsigned 8-bit sample, as written into a `Uint8Array` by the analyser. */
  type byte = x: int | 0 <= x < 256

  /** A canvas coordinate; IEEE-754 rounding is replaced by exact reals. */
  datatype Point = Point(x: real, y: real)

  /** One stroked path: the points passed to `lineTo`, and the active dash pattern. */
  datatype Polyline = Polyline(points: seq<Point>, dash: seq<int>)

  /** The x coordinates of a point sequence strictly increase from left to right. */
  predicate StrictlyIncreasingX(points: seq<Point>)
  {
    forall a, b :: 0 <= a < b < |points| ==> points[a].x < points[b].x
  }

  /** Two successive divisions equal one division by the product (`x /= a; x /= b`). */
  lemma DivideTwice(x: real, a: real, b: real)
    requires a != 0.0 && b != 0.0
    ensures x / a / b == x / (a * b)
  {
  }

  /** Dividing a non-negative value by a larger positive divisor gives a smaller quotient. */
  lemma QuotientAntitone(s: real, d: real, e: real)
    requires s >= 0.0 && 0.0 < e <= d
    ensures 0.0 <= s / d <= s / e
  {
  }

  /** Dividing by the same positive divisor keeps the order of the dividends. */
  lemma QuotientMonotone(a: real, b: real, d: real)
    requires a <= b && d > 0.0
    ensures a / d <= b / d
  {
  }

  /** Dividing a positive value by a larger positive divisor gives a strictly smaller quotient. */
  lemma QuotientStrictlyAntitone(s: real, d: real, e: real)
    requires s > 0.0 && 0.0 < e < d
    ensures s / d < s / e
  {
  }

  /** Dividing by the same positive divisor keeps the strict order of the dividends. */
  lemma QuotientStrictlyMonotone(a: real, b: real, d: real)
    requires a < b && d > 0.0
    ensures a / d < b / d
  {
  }
}
