/**
 * What the two synchronized layouts share: the child views they move,
 * the syncView_gravity values, Java's truncating integer halving,
 * the attributes read at construction and the errors they throw.
 */
module Views {

  datatype Option<+T> = None | Some(value: T)

  /** The IllegalArgumentExceptions the layouts throw. */
  datatype ConfigError =
    | MissingPlaceholderView        // placeholderView attribute missing (resource id 0)
    | MissingSynchronizedView       // synchronizedView attribute missing (resource id 0)
    | NoEnhancedScrollViewAncestor  // the parent chain reached null

  /** Values of the syncView_gravity attribute; any other value behaves like LEFT. */
  const LEFT: int := 0
  const CENTER_HORIZONTAL: int := 1
  const RIGHT: int := 2

  /**
   * The styled attributes a layout is inflated with. A missing resource id
   * reads as 0; a missing gravity reads as the field's current value.
   */
  datatype Attributes = Attributes(gravity: Option<int>, placeholderView: int, synchronizedView: int)

  /**
   * A child view: its frame (left, top, right, bottom, relative to the
   * layout that holds it), the size its last measure pass produced and the
   * height asked for in its layout parameters.
   */
  class View {
    var left: int
    var top: int
    var right: int
    var bottom: int
    var measuredWidth: int
    var measuredHeight: int
    var layoutHeight: int

    constructor (left: int, top: int, right: int, bottom: int,
                 measuredWidth: int, measuredHeight: int, layoutHeight: int)
      ensures this.left == left && this.top == top && this.right == right && this.bottom == bottom
      ensures this.measuredWidth == measuredWidth && this.measuredHeight == measuredHeight
      ensures this.layoutHeight == layoutHeight
    {
      this.left, this.top, this.right, this.bottom := left, top, right, bottom;
      this.measuredWidth, this.measuredHeight := measuredWidth, measuredHeight;
      this.layoutHeight := layoutHeight;
    }

    function Width(): (w: int)
      reads this
    {
      right - left
    }

    function Height(): (h: int)
      reads this
    {
      bottom - top
    }

    /** View.offsetTopAndBottom: shifts the view vertically, keeping its height. */
    method OffsetTopAndBottom(delta: int)
      modifies this`top, this`bottom
      ensures top == old(top) + delta && bottom == old(bottom) + delta
      ensures Height() == old(Height())
    {
      top := top + delta;
      bottom := bottom + delta;
    }

    /** View.layout: assigns the view's frame. */
    method Layout(l: int, t: int, r: int, b: int)
      modifies this`left, this`top, this`right, this`bottom
      ensures left == l && top == t && right == r && bottom == b
    {
      left, top, right, bottom := l, t, r, b;
    }
  }

  /** The frame of `v` is the rectangle at (left, top) of the given size. */
  ghost predicate PlacedAt(v: View, left: int, top: int, width: int, height: int)
    reads v
  {
    v.left == left && v.top == top && v.right == left + width && v.bottom == top + height
  }

  /**
   * Java's `n / 2` on int: the quotient is truncated toward zero, where
   * Dafny's `/` rounds toward negative infinity for negative n.
   */
  function JavaHalf(n: int): (r: int)
    ensures n >= 0 ==> 0 <= 2 * r <= n <= 2 * r + 1
    ensures n < 0 ==> 2 * r - 1 <= n <= 2 * r <= 0
  {
    if n >= 0 then n / 2 else -((-n) / 2)
  }

  /**
   * Left edge the layouts give the synchronized view, from the gravity,
   * the layout's width, the view's current left and its measured width.
   */
  function GravityLeft(gravity: int, parentWidth: int, currentLeft: int, measuredWidth: int): (left: int)
    // centred: the two margins differ by at most one pixel, the spare pixel
    // going to the right margin when the view fits and to the left when it does not
    ensures gravity == CENTER_HORIZONTAL && measuredWidth <= parentWidth ==>
              0 <= (parentWidth - (left + measuredWidth)) - left <= 1
    ensures gravity == CENTER_HORIZONTAL && measuredWidth > parentWidth ==>
              -1 <= (parentWidth - (left + measuredWidth)) - left <= 0
    // flush with the right edge
    ensures gravity == RIGHT ==> left + measuredWidth == parentWidth
    // LEFT and any unknown value keep the view where it is
    ensures gravity != CENTER_HORIZONTAL && gravity != RIGHT ==> left == currentLeft
  {
    if gravity == CENTER_HORIZONTAL then JavaHalf(parentWidth - measuredWidth)
    else if gravity == RIGHT then parentWidth - measuredWidth
    else currentLeft
  }
}
