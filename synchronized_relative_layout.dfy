/**
 * SynchronizedRelativeLayout: a RelativeLayout holding a placeholder view
 * and a synchronized view. On every vertical scroll offset it shifts the
 * synchronized view so that it rests on the placeholder, follows the top
 * of the viewport once that has passed the placeholder, and stops when its
 * bottom reaches the bottom of the layout.
 */
module SynchronizedRelative {
  import opened Views
  import opened EnhancedScroll
  import SynchronizedScroll

  function Min(a: int, b: int): (m: int) { if a <= b then a else b }

  /**
   * Top the synchronized view is moved to for the scroll offset offsetY,
   * in the layout's coordinates, given the layout's own top, the
   * placeholder's top and the lastSyncViewPos computed at layout time.
   */
  function SyncTop(offsetY: int, regionTop: int, placeholderTop: int, lastSyncViewPos: int): (r: int)
    // before the viewport reaches the placeholder, the view rests on it
    ensures offsetY - regionTop < placeholderTop ==> r == placeholderTop
    // past it, the view follows the viewport top but no lower than lastSyncViewPos allows
    ensures offsetY - regionTop >= placeholderTop ==> r == Min(offsetY - regionTop, lastSyncViewPos - regionTop)
  {
    var relativeOffsetY := offsetY - regionTop;
    if relativeOffsetY >= placeholderTop then
      var reverseOffsetY := if offsetY > lastSyncViewPos then offsetY - lastSyncViewPos else 0;
      relativeOffsetY - reverseOffsetY
    else
      placeholderTop
  }

  /** Between the placeholder and the cap the view tracks the scroll one to one. */
  lemma TracksScroll(offsetY: int, regionTop: int, placeholderTop: int, lastSyncViewPos: int)
    requires placeholderTop <= offsetY - regionTop && offsetY <= lastSyncViewPos
    ensures SyncTop(offsetY, regionTop, placeholderTop, lastSyncViewPos) == offsetY - regionTop
  {
  }

  /**
   * With lastSyncViewPos as onLayout sets it, a view pushed past the cap has
   * its bottom exactly on the layout's bottom edge.
   */
  lemma CappedAtRegionBottom(offsetY: int, regionTop: int, regionHeight: int, placeholderTop: int, syncHeight: int)
    requires offsetY - regionTop >= placeholderTop
    requires offsetY > regionTop + regionHeight - syncHeight
    ensures SyncTop(offsetY, regionTop, placeholderTop, regionTop + regionHeight - syncHeight) + syncHeight == regionHeight
  {
  }

  /**
   * When the placeholder lies inside the span the view may occupy, the view
   * never leaves that span: it is never above the placeholder nor below the cap.
   */
  lemma StaysWithinRegion(offsetY: int, regionTop: int, placeholderTop: int, lastSyncViewPos: int)
    requires placeholderTop <= lastSyncViewPos - regionTop
    ensures placeholderTop <= SyncTop(offsetY, regionTop, placeholderTop, lastSyncViewPos) <= lastSyncViewPos - regionTop
  {
  }

  /**
   * Continuity and monotonicity: scrolling one pixel further moves the view
   * by zero or one pixel down, never up and never by a jump, in particular
   * at the placeholder and at the cap.
   */
  lemma MovesByAtMostOnePixel(offsetY: int, regionTop: int, placeholderTop: int, lastSyncViewPos: int)
    requires placeholderTop <= lastSyncViewPos - regionTop
    ensures var before := SyncTop(offsetY, regionTop, placeholderTop, lastSyncViewPos);
            var after := SyncTop(offsetY + 1, regionTop, placeholderTop, lastSyncViewPos);
            before <= after <= before + 1
  {
  }

  /**
   * When the placeholder's top lies below the cap (the placeholder reaches
   * past the layout's bottom), the view moves up, against the scroll, at the
   * placeholder: one offset rests it on the placeholder, the next puts it at
   * the cap, placeholderTop - (lastSyncViewPos - regionTop) pixels higher.
   */
  lemma JumpsWhenPlaceholderPastCap(regionTop: int, placeholderTop: int, lastSyncViewPos: int)
    requires placeholderTop > lastSyncViewPos - regionTop
    ensures SyncTop(regionTop + placeholderTop - 1, regionTop, placeholderTop, lastSyncViewPos) == placeholderTop
    ensures SyncTop(regionTop + placeholderTop, regionTop, placeholderTop, lastSyncViewPos) == lastSyncViewPos - regionTop
    ensures SyncTop(regionTop + placeholderTop - 1, regionTop, placeholderTop, lastSyncViewPos)
            - SyncTop(regionTop + placeholderTop, regionTop, placeholderTop, lastSyncViewPos)
            == placeholderTop - (lastSyncViewPos - regionTop) >= 1
  {
  }

  /**
   * The capped variant agrees with the older uncapped one up to the cap and
   * is never below it.
   */
  lemma CappedAgreesWithUncapped(offsetY: int, regionTop: int, placeholderTop: int, lastSyncViewPos: int)
    ensures SyncTop(offsetY, regionTop, placeholderTop, lastSyncViewPos)
            <= SynchronizedScroll.SyncTop(offsetY, regionTop, placeholderTop)
    ensures offsetY <= lastSyncViewPos ==>
              SyncTop(offsetY, regionTop, placeholderTop, lastSyncViewPos)
              == SynchronizedScroll.SyncTop(offsetY, regionTop, placeholderTop)
  {
  }

  class SynchronizedRelativeLayout {
    var placeholderViewId: int
    var synchronizedViewId: int
    /** The children found by id once the layout is inflated. */
    const synchronizedView: View
    const placeholderView: View
    var gravity: int
    var lastSyncViewPos: int
    /** The layout's own frame, as its parent laid it out. */
    var left: int
    var top: int
    var right: int
    var bottom: int

    /** A layout whose children have been resolved, before init has read its attributes. */
    constructor (synchronizedView: View, placeholderView: View, left: int, top: int, right: int, bottom: int)
      ensures this.synchronizedView == synchronizedView && this.placeholderView == placeholderView
      ensures gravity == LEFT && lastSyncViewPos == 0
      ensures placeholderViewId == 0 && synchronizedViewId == 0
      ensures this.left == left && this.top == top && this.right == right && this.bottom == bottom
    {
      this.synchronizedView, this.placeholderView := synchronizedView, placeholderView;
      gravity, lastSyncViewPos := LEFT, 0;
      placeholderViewId, synchronizedViewId := 0, 0;
      this.left, this.top, this.right, this.bottom := left, top, right, bottom;
    }

    function Width(): (w: int)
      reads this
    {
      right - left
    }

    function Height(): (h: int)
      reads this
    {
      bottom - top
    }

    /**
     * init: reads the gravity (keeping the current one when absent) and both
     * child ids; fails when either id is missing, and reports the
     * synchronized view when both are.
     */
    method Init(attrs: Attributes) returns (e: Option<ConfigError>)
      modifies this`gravity, this`placeholderViewId, this`synchronizedViewId
      ensures gravity == (if attrs.gravity.Some? then attrs.gravity.value else old(gravity))
      ensures placeholderViewId == attrs.placeholderView && synchronizedViewId == attrs.synchronizedView
      ensures e.None? <==> attrs.placeholderView != 0 && attrs.synchronizedView != 0
      ensures attrs.synchronizedView == 0 ==> e == Some(MissingSynchronizedView)
      ensures attrs.synchronizedView != 0 && attrs.placeholderView == 0 ==> e == Some(MissingPlaceholderView)
    {
      if attrs.gravity.Some? {
        gravity := attrs.gravity.value;
      }
      e := None;
      placeholderViewId := attrs.placeholderView;
      if placeholderViewId == 0 {
        e := Some(MissingPlaceholderView);
      }
      synchronizedViewId := attrs.synchronizedView;
      if synchronizedViewId == 0 {
        e := Some(MissingSynchronizedView);
      }
    }

    /**
     * findEnhancedScrollViewRecursive, started by onAttachedToWindow with the
     * chain of parents: registers this layout, once, with the nearest
     * EnhancedScrollView, or fails when the chain ends first.
     */
    method FindEnhancedScrollViewRecursive(parents: seq<Ancestor>) returns (e: Option<ConfigError>)
      modifies Containers(parents)
      decreases |parents|
      ensures NearestScrollContainer(parents).None? ==>
                e == Some(NoEnhancedScrollViewAncestor) && unchanged(Containers(parents))
      ensures NearestScrollContainer(parents).Some? ==>
                var found := parents[NearestScrollContainer(parents).value].view;
                && e == None
                && found.listeners == old(found.listeners) + [this]
                && found.scrollY == old(found.scrollY)
                && forall c :: c in Containers(parents) && c != found ==> unchanged(c)
    {
      if |parents| == 0 {
        e := Some(NoEnhancedScrollViewAncestor);
        return;
      }
      match parents[0]
      case ScrollContainer(view) =>
        view.AddOnScrollListener(this);
        e := None;
      case OtherParent =>
        NearestAfterOtherParent(parents);
        e := FindEnhancedScrollViewRecursive(parents[1..]);
    }

    /** onMeasure: the placeholder is asked for the synchronized view's measured height. */
    method OnMeasure()
      modifies placeholderView`layoutHeight
      ensures placeholderView.layoutHeight == synchronizedView.measuredHeight
    {
      if placeholderView.layoutHeight != synchronizedView.measuredHeight {
        placeholderView.layoutHeight := synchronizedView.measuredHeight;
      }
    }

    /**
     * onLayout: when the layout changed, both children get the same
     * rectangle, at the placeholder's top and the gravity's left, sized by
     * the synchronized view's measurement, and the cap is recomputed; when it
     * did not change, nothing happens at all.
     */
    method OnLayout(changed: bool, l: int, t: int, r: int, b: int)
      // the parent has already given the layout its new frame
      requires left == l && top == t && right == r && bottom == b
      modifies synchronizedView`left, synchronizedView`top, synchronizedView`right, synchronizedView`bottom
      modifies placeholderView`left, placeholderView`top, placeholderView`right, placeholderView`bottom
      modifies this`lastSyncViewPos
      ensures !changed ==> unchanged(this, synchronizedView, placeholderView)
      ensures changed ==>
                var left := GravityLeft(gravity, Width(), old(synchronizedView.left), synchronizedView.measuredWidth);
                var top := old(placeholderView.top);
                && PlacedAt(synchronizedView, left, top, synchronizedView.measuredWidth, synchronizedView.measuredHeight)
                && PlacedAt(placeholderView, left, top, synchronizedView.measuredWidth, synchronizedView.measuredHeight)
                && lastSyncViewPos == this.top + Height() - synchronizedView.measuredHeight
    {
      if changed {
        var top := placeholderView.top;
        var left := synchronizedView.left;
        if gravity == CENTER_HORIZONTAL {
          left := JavaHalf(Width() - synchronizedView.measuredWidth);
        } else if gravity == RIGHT {
          left := Width() - synchronizedView.measuredWidth;
        }
        var w, h := synchronizedView.measuredWidth, synchronizedView.measuredHeight;
        synchronizedView.Layout(left, top, left + w, top + h);
        placeholderView.Layout(left, top, left + w, top + h);
        lastSyncViewPos := this.top + Height() - h;
      }
    }

    /**
     * onVerticalScrollChanged: moves the synchronized view, and nothing else,
     * to the top SyncTop gives for offsetY; its height is kept.
     */
    method OnVerticalScrollChanged(offsetY: int)
      modifies synchronizedView`top, synchronizedView`bottom
      ensures synchronizedView.top == SyncTop(offsetY, top, old(placeholderView.top), lastSyncViewPos)
      ensures synchronizedView.Height() == old(synchronizedView.Height())
      ensures synchronizedView.left == old(synchronizedView.left) && synchronizedView.right == old(synchronizedView.right)
      ensures synchronizedView != placeholderView ==> unchanged(placeholderView)
      ensures unchanged(this)
      // a view already where offsetY puts it does not move (a repeated offset is a no-op)
      ensures old(synchronizedView.top) == SyncTop(offsetY, top, old(placeholderView.top), lastSyncViewPos) ==>
                unchanged(synchronizedView)
    {
      var relativeOffsetY := offsetY - top;
      if relativeOffsetY >= placeholderView.top {
        var reverseOffsetY := 0;
        if offsetY > lastSyncViewPos {
          reverseOffsetY := offsetY - lastSyncViewPos;
        }
        synchronizedView.OffsetTopAndBottom(relativeOffsetY - synchronizedView.top - reverseOffsetY);
      } else {
        synchronizedView.OffsetTopAndBottom(placeholderView.top - synchronizedView.top);
      }
    }
  }
}
