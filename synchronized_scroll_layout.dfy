/**
 * SynchronizedScrollLayout: the older, uncapped variant. The synchronized
 * view rests on the placeholder until the viewport top passes it and then
 * follows the viewport top without limit; onLayout places the children on
 * every pass.
 */
module SynchronizedScroll {
  import opened Views
  import opened EnhancedScroll

  /**
   * Top the synchronized view is moved to for the scroll offset offsetY,
   * in the layout's coordinates: the larger of the viewport top relative to
   * the layout and the placeholder's top.
   */
  function SyncTop(offsetY: int, regionTop: int, placeholderTop: int): (r: int)
    ensures r >= placeholderTop && r >= offsetY - regionTop
    ensures r == placeholderTop || r == offsetY - regionTop
  {
    var relativeOffsetY := offsetY - regionTop;
    if relativeOffsetY >= placeholderTop then relativeOffsetY else placeholderTop
  }

  /** Both branches meet at the placeholder: no jump when the viewport reaches it. */
  lemma ContinuousAtPlaceholder(regionTop: int, placeholderTop: int)
    ensures SyncTop(regionTop + placeholderTop - 1, regionTop, placeholderTop) == placeholderTop
    ensures SyncTop(regionTop + placeholderTop, regionTop, placeholderTop) == placeholderTop
    ensures SyncTop(regionTop + placeholderTop + 1, regionTop, placeholderTop) == placeholderTop + 1
  {
  }

  /** Scrolling one pixel further moves the view down by zero or one pixel. */
  lemma MovesByAtMostOnePixel(offsetY: int, regionTop: int, placeholderTop: int)
    ensures var before := SyncTop(offsetY, regionTop, placeholderTop);
            before <= SyncTop(offsetY + 1, regionTop, placeholderTop) <= before + 1
  {
  }

  class SynchronizedScrollLayout {
    var placeholderViewId: int
    var synchronizedViewId: int
    /** The children found by id once the layout is inflated. */
    const synchronizedView: View
    const placeholderView: View
    var gravity: int
    /** The layout's own frame, as its parent laid it out. */
    var left: int
    var top: int
    var right: int
    var bottom: int

    /** A layout whose children have been resolved, before init has read its attributes. */
    constructor (synchronizedView: View, placeholderView: View, left: int, top: int, right: int, bottom: int)
      ensures this.synchronizedView == synchronizedView && this.placeholderView == placeholderView
      ensures gravity == LEFT
      ensures placeholderViewId == 0 && synchronizedViewId == 0
      ensures this.left == left && this.top == top && this.right == right && this.bottom == bottom
    {
      this.synchronizedView, this.placeholderView := synchronizedView, placeholderView;
      gravity := LEFT;
      placeholderViewId, synchronizedViewId := 0, 0;
      this.left, this.top, this.right, this.bottom := left, top, right, bottom;
    }

    function Width(): (w: int)
      reads this
    {
      right - left
    }

    /**
     * init: reads the gravity (keeping the current one when absent) and both
     * child ids; fails when either id is missing, and reports the
     * synchronized view when both are.
     */
    method Init(attrs: Attributes) returns (e: Option<ConfigError>)
      modifies this`gravity, this`placeholderViewId, this`synchronizedViewId
      ensures gravity == (if attrs.gravity.Some? then attrs.gravity.value else old(gravity))
      ensures placeholderViewId == attrs.placeholderView && synchronizedViewId == attrs.synchronizedView
      ensures e.None? <==> attrs.placeholderView != 0 && attrs.synchronizedView != 0
      ensures attrs.synchronizedView == 0 ==> e == Some(MissingSynchronizedView)
      ensures attrs.synchronizedView != 0 && attrs.placeholderView == 0 ==> e == Some(MissingPlaceholderView)
    {
      if attrs.gravity.Some? {
        gravity := attrs.gravity.value;
      }
      e := None;
      placeholderViewId := attrs.placeholderView;
      if placeholderViewId == 0 {
        e := Some(MissingPlaceholderView);
      }
      synchronizedViewId := attrs.synchronizedView;
      if synchronizedViewId == 0 {
        e := Some(MissingSynchronizedView);
      }
    }

    /**
     * findEnhancedScrollViewRecursive, started by onAttachedToWindow with the
     * chain of parents: registers this layout, once, with the nearest
     * EnhancedScrollView, or fails when the chain ends first.
     */
    method FindEnhancedScrollViewRecursive(parents: seq<Ancestor>) returns (e: Option<ConfigError>)
      modifies Containers(parents)
      decreases |parents|
      ensures NearestScrollContainer(parents).None? ==>
                e == Some(NoEnhancedScrollViewAncestor) && unchanged(Containers(parents))
      ensures NearestScrollContainer(parents).Some? ==>
                var found := parents[NearestScrollContainer(parents).value].view;
                && e == None
                && found.listeners == old(found.listeners) + [this]
                && found.scrollY == old(found.scrollY)
                && forall c :: c in Containers(parents) && c != found ==> unchanged(c)
    {
      if |parents| == 0 {
        e := Some(NoEnhancedScrollViewAncestor);
        return;
      }
      match parents[0]
      case ScrollContainer(view) =>
        view.AddOnScrollListener(this);
        e := None;
      case OtherParent =>
        NearestAfterOtherParent(parents);
        e := FindEnhancedScrollViewRecursive(parents[1..]);
    }

    /** onMeasure: the placeholder is asked for the synchronized view's measured height. */
    method OnMeasure()
      modifies placeholderView`layoutHeight
      ensures placeholderView.layoutHeight == synchronizedView.measuredHeight
    {
      if placeholderView.layoutHeight != synchronizedView.measuredHeight {
        placeholderView.layoutHeight := synchronizedView.measuredHeight;
      }
    }

    /**
     * onLayout, on every pass whether or not the layout changed: both
     * children get the same rectangle, at the placeholder's top and the
     * gravity's left, sized by the synchronized view's measurement.
     */
    method OnLayout(changed: bool, l: int, t: int, r: int, b: int)
      // the parent has already given the layout its new frame
      requires left == l && top == t && right == r && bottom == b
      modifies synchronizedView`left, synchronizedView`top, synchronizedView`right, synchronizedView`bottom
      modifies placeholderView`left, placeholderView`top, placeholderView`right, placeholderView`bottom
      ensures var left := GravityLeft(gravity, Width(), old(synchronizedView.left), synchronizedView.measuredWidth);
              var top := old(placeholderView.top);
              && PlacedAt(synchronizedView, left, top, synchronizedView.measuredWidth, synchronizedView.measuredHeight)
              && PlacedAt(placeholderView, left, top, synchronizedView.measuredWidth, synchronizedView.measuredHeight)
    {
      var top := placeholderView.top;
      var left := synchronizedView.left;
      if gravity == CENTER_HORIZONTAL {
        left := JavaHalf(Width() - synchronizedView.measuredWidth);
      } else if gravity == RIGHT {
        left := Width() - synchronizedView.measuredWidth;
      }
      var w, h := synchronizedView.measuredWidth, synchronizedView.measuredHeight;
      synchronizedView.Layout(left, top, left + w, top + h);
      placeholderView.Layout(left, top, left + w, top + h);
    }

    /**
     * onVerticalScrollChanged: moves the synchronized view, and nothing else,
     * to the top SyncTop gives for offsetY; its height is kept.
     */
    method OnVerticalScrollChanged(offsetY: int)
      modifies synchronizedView`top, synchronizedView`bottom
      ensures synchronizedView.top == SyncTop(offsetY, top, old(placeholderView.top))
      ensures synchronizedView.Height() == old(synchronizedView.Height())
      ensures synchronizedView.left == old(synchronizedView.left) && synchronizedView.right == old(synchronizedView.right)
      ensures synchronizedView != placeholderView ==> unchanged(placeholderView)
      ensures unchanged(this)
      // a view already where offsetY puts it does not move (a repeated offset is a no-op)
      ensures old(synchronizedView.top) == SyncTop(offsetY, top, old(placeholderView.top)) ==>
                unchanged(synchronizedView)
    {
      var relativeOffsetY := offsetY - top;
      if relativeOffsetY >= placeholderView.top {
        synchronizedView.OffsetTopAndBottom(relativeOffsetY - synchronizedView.top);
      } else {
        synchronizedView.OffsetTopAndBottom(placeholderView.top - synchronizedView.top);
      }
    }
  }
}
