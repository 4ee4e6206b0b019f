/**
 * The preview surface that keeps the camera's aspect ratio: it records a
 * width:height ratio and, when measured, shrinks one of the offered
 * dimensions so that the result has that ratio.
 */
module AutoFit {
  import opened Wrappers

  /** What `setAspectRatio` throws on a negative size. */
  datatype ViewError = IllegalArgument

  datatype Dimension = Dimension(width: int, height: int)

  /**
   * The dimension `onMeasure` sets for a view offered `width` x `height`:
   * with no ratio the offer itself; otherwise the full width when it is
   * narrower than the height scaled by the ratio, else the full height, the
   * other side scaled by the ratio in integer arithmetic (rounded down).
   */
  function MeasuredDimension(ratioWidth: nat, ratioHeight: nat, width: nat, height: nat): (d: Dimension)
    ensures ratioWidth == 0 || ratioHeight == 0 ==> d == Dimension(width, height)
    ensures 0 <= d.width <= width && 0 <= d.height <= height
    ensures ratioWidth > 0 && ratioHeight > 0 && width < height * ratioWidth / ratioHeight ==>
              d.width == width && d.height * ratioWidth <= width * ratioHeight < (d.height + 1) * ratioWidth
    ensures ratioWidth > 0 && ratioHeight > 0 && height * ratioWidth / ratioHeight <= width ==>
              d.height == height && d.width * ratioHeight <= height * ratioWidth < (d.width + 1) * ratioHeight
  {
    if ratioWidth == 0 || ratioHeight == 0 then
      Dimension(width, height)
    else if width < height * ratioWidth / ratioHeight then
      ScaledToWidth(ratioWidth, ratioHeight, width, height);
      Dimension(width, width * ratioHeight / ratioWidth)
    else
      ScaledToHeight(ratioWidth, ratioHeight, width, height);
      Dimension(height * ratioWidth / ratioHeight, height)
  }

  /** Division of a natural number rounds down. */
  lemma FloorDiv(a: nat, b: nat)
    requires b > 0
    ensures (a / b) * b <= a < (a / b + 1) * b
  {
  }

  /** Multiplying by a natural number keeps a non-strict order. */
  lemma ScaleMonotone(a: nat, b: nat, k: nat)
    requires a <= b
    ensures a * k <= b * k
  {
  }

  /** A number below a quotient, times the divisor, stays below the dividend. */
  lemma BelowQuotient(a: nat, b: nat, c: nat)
    requires b > 0 && c < a / b
    ensures c * b < a
  {
    FloorDiv(a, b);
    ScaleMonotone(c + 1, a / b, b);
  }

  /** A dividend below `c * b` has a quotient below `c`. */
  lemma QuotientBelow(a: nat, b: nat, c: nat)
    requires b > 0 && a < c * b
    ensures a / b < c
  {
    FloorDiv(a, b);
    if c <= a / b {
      ScaleMonotone(c, a / b, b);
      assert false;
    }
  }

  /**
   * When the offered width is narrower than the height scaled by the ratio,
   * the height scaled back from the width fits the offered height.
   */
  lemma ScaledToWidth(ratioWidth: nat, ratioHeight: nat, width: nat, height: nat)
    requires ratioWidth > 0 && ratioHeight > 0
    requires width < height * ratioWidth / ratioHeight
    ensures var h := width * ratioHeight / ratioWidth;
            0 <= h <= height && h * ratioWidth <= width * ratioHeight < (h + 1) * ratioWidth
  {
    BelowQuotient(height * ratioWidth, ratioHeight, width);
    QuotientBelow(width * ratioHeight, ratioWidth, height);
    FloorDiv(width * ratioHeight, ratioWidth);
  }

  /**
   * Otherwise the width scaled from the full height fits the offered width.
   */
  lemma ScaledToHeight(ratioWidth: nat, ratioHeight: nat, width: nat, height: nat)
    requires ratioWidth > 0 && ratioHeight > 0
    requires height * ratioWidth / ratioHeight <= width
    ensures var w := height * ratioWidth / ratioHeight;
            0 <= w <= width && w * ratioHeight <= height * ratioWidth < (w + 1) * ratioHeight
  {
    FloorDiv(height * ratioWidth, ratioHeight);
  }

  class AutoFitTextureView {
    var ratioWidth: int
    var ratioHeight: int
    /** The dimension last passed to `setMeasuredDimension`. */
    var measuredWidth: int
    var measuredHeight: int

    ghost predicate Valid()
      reads this
    {
      ratioWidth >= 0 && ratioHeight >= 0
    }

    constructor ()
      ensures Valid() && ratioWidth == 0 && ratioHeight == 0
    {
      ratioWidth := 0;
      ratioHeight := 0;
      measuredWidth := 0;
      measuredHeight := 0;
    }

    /** `setAspectRatio`: records the ratio; a negative side throws and changes nothing. */
    method SetAspectRatio(width: int, height: int) returns (outcome: Outcome<ViewError>)
      requires Valid()
      modifies this`ratioWidth, this`ratioHeight
      ensures Valid()
      ensures outcome.Fail? <==> width < 0 || height < 0
      ensures outcome.Fail? ==> ratioWidth == old(ratioWidth) && ratioHeight == old(ratioHeight)
      ensures outcome.Pass? ==> ratioWidth == width && ratioHeight == height
    {
      if width < 0 || height < 0 {
        return Fail(IllegalArgument);
      }
      ratioWidth := width;
      ratioHeight := height;
      outcome := Pass;
    }

    /** `onMeasure`, given the sizes carried by the two measure specs. */
    method OnMeasure(width: nat, height: nat)
      requires Valid()
      modifies this`measuredWidth, this`measuredHeight
      ensures Dimension(measuredWidth, measuredHeight) == MeasuredDimension(ratioWidth, ratioHeight, width, height)
    {
      if ratioWidth == 0 || ratioHeight == 0 {
        measuredWidth, measuredHeight := width, height;
      } else {
        if width < height * ratioWidth / ratioHeight {
          measuredWidth, measuredHeight := width, width * ratioHeight / ratioWidth;
        } else {
          measuredWidth, measuredHeight := height * ratioWidth / ratioHeight, height;
        }
      }
    }
  }
}
