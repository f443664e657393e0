/**
 * UvRange: a UV-space rectangle plus horizontal and vertical repeat counts,
 * and the RangeFloat values it hands out.
 */
module UvRanges {

  /** Unity's Rect: a corner (x, y) and a size; xMax = x + width, yMax = y + height. */
  datatype Rect = Rect(x: real, y: real, width: real, height: real)
  {
    function XMin(): real { x }
    function XMax(): real { x + width }
    function YMin(): real { y }
    function YMax(): real { y + height }
  }

  /**
   * A closed-open interval of floats. RangeFloat is not part of this model's
   * sources; it is taken to interpolate without clamping and to contain
   * `min` but not `max`.
   */
  datatype RangeFloat = RangeFloat(min: real, max: real)
  {
    /** The span `max - min` (RangeFloat.range). */
    function Span(): real { max - min }

    /** Linear interpolation from `min` (t = 0) to `max` (t = 1). */
    function Lerp(t: real): (r: real)
      ensures t == 0.0 ==> r == min
      ensures t == 1.0 ==> r == max
    {
      min + t * (max - min)
    }

    /** Membership with an inclusive minimum: `Contains(v, inclusiveMin: true)`. */
    predicate Contains(v: real) { min <= v < max }
  }

  datatype UvRange = UvRange(rect: Rect, numRepeatsHorizontal: int, numRepeatsVertical: int)
  {
    /** The horizontal range (rect.xMin, rect.xMax). */
    function Horizontal(): (r: RangeFloat)
      ensures r.min == rect.x && r.Span() == rect.width
    {
      RangeFloat(rect.XMin(), rect.XMax())
    }

    /** The vertical range (rect.yMin, rect.yMax), the one MeshBuilder remaps and wraps with. */
    function Vertical(): (r: RangeFloat)
      ensures r.min == rect.y && r.Span() == rect.height
    {
      RangeFloat(rect.YMin(), rect.YMax())
    }
  }

  /** The struct's constructor; both repeat counts default to 1. */
  function NewUvRange(rect: Rect, numRepeatsHorizontal: int := 1, numRepeatsVertical: int := 1): (u: UvRange)
    ensures u.rect == rect
    ensures u.numRepeatsHorizontal == numRepeatsHorizontal && u.numRepeatsVertical == numRepeatsVertical
  {
    UvRange(rect, numRepeatsHorizontal, numRepeatsVertical)
  }

  /** Omitting both counts gives a single tile in each direction. */
  lemma DefaultRepeats(rect: Rect)
    ensures NewUvRange(rect).numRepeatsHorizontal == 1
    ensures NewUvRange(rect).numRepeatsVertical == 1
  {
  }

  /** The vertical range spans exactly the rectangle's vertical extent. */
  lemma VerticalSpansRect(u: UvRange, t: real)
    requires 0.0 <= t <= 1.0
    requires u.rect.height >= 0.0
    ensures u.rect.YMin() <= u.Vertical().Lerp(t) <= u.rect.YMax()
  {
    var h := u.rect.height;
    assert 0.0 <= t * h by { MulNonNegative(t, h); }
    assert 0.0 <= (1.0 - t) * h by { MulNonNegative(1.0 - t, h); }
  }

  lemma MulNonNegative(a: real, b: real)
    requires 0.0 <= a && 0.0 <= b
    ensures 0.0 <= a * b
  {
  }
}
