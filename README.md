# Synchronized scrolling, modelled in Dafny

The SynchronizedScrolling library keeps a "sticky header" in an Android
scroll view. A region layout holds two children:

- a *placeholder*, which reserves the space in the document;
- a *synchronized view*, which floats over the placeholder.

An `EnhancedScrollView` keeps an append-only list of listeners. It hands
every new vertical scroll offset to each of them. On every offset the region
shifts its synchronized view (with `offsetTopAndBottom`) according to where
the offset falls:

- above the placeholder, the view rests on it;
- past the placeholder, the view follows the top of the viewport;
- in the newer `SynchronizedRelativeLayout` only, the view stops once its
  bottom reaches the region's bottom edge.

The model has five modules, one file each.

- `Views` (views.dfy) holds what both layouts share:
  - the child `View`, as a class with its frame, measured size and
    layout-parameter height, plus `offsetTopAndBottom` and `layout`;
  - the gravity constants and the gravity rule for the left edge;
  - Java's truncating `/ 2`;
  - the construction errors.
- `EnhancedScroll` (enhanced_scroll_view.dfy) holds the scroll view:
  - its listener list;
  - the two broadcasts, each returned as the ordered list of calls it makes;
  - the parent chain walked to find the nearest scroll view.
- `SynchronizedRelative` (synchronized_relative_layout.dfy) is the capped
  variant: init, registration, onMeasure, onLayout guarded by `changed`,
  and onVerticalScrollChanged with `mLastSyncViewPos`.
- `SynchronizedScroll` (synchronized_scroll_layout.dfy) is the older,
  uncapped variant, whose onLayout runs on every pass.
- `Delivery` (delivery.dfy) runs a broadcast's calls on registered layouts
  of either kind. It proves the end-to-end result: after a scroll, or after
  a resize that re-delivers the current position, every registered layout's
  synchronized view is at its own target, and every other layout's view has
  not moved. A resize right after a scroll moves nothing.

Each layout shifts its view by a delta computed from the view's current top,
but both onVerticalScrollChanged contracts state the resulting top outright,
as a function of the offset and the layout alone. So the earlier positions
do not matter, and a view already at the top an offset asks for does not
move when that offset is delivered again.

The capped variant decides whether to cap by comparing the *absolute* offset
`offsetY` with `mLastSyncViewPos`. It does not compare the offset relative
to the region. So the view tracks the scroll one to one while
`offsetY <= mLastSyncViewPos`, which is
`SynchronizedRelative.TracksScroll`. Because `mLastSyncViewPos` already
includes the region's own top, the cap still lands the view's bottom exactly
on the region's bottom edge (`SynchronizedRelative.CappedAtRegionBottom`).

## Model

| member | source | states |
|---|---|---|
| Views.JavaHalf | XaviRigau-SynchronizedScrolling/XaviRigau-SynchronizedScrolling-library/src/com/xrigau/syncscrolling/view/SynchronizedRelativeLayout.java:234 | Java's truncating halving: for non-negative n the result is the floor of n/2, and for negative n it is the ceiling, never more than half a pixel off |
| Views.GravityLeft | XaviRigau-SynchronizedScrolling/XaviRigau-SynchronizedScrolling-library/src/com/xrigau/syncscrolling/view/SynchronizedRelativeLayout.java:232-239 | CENTER_HORIZONTAL leaves margins that differ by at most one pixel; RIGHT puts the right edge on the layout's width; LEFT and any unknown value keep the current left |
| Views.View.OffsetTopAndBottom | XaviRigau-SynchronizedScrolling/XaviRigau-SynchronizedScrolling-library/src/com/xrigau/syncscrolling/view/SynchronizedRelativeLayout.java:266-270 | the view shifts vertically by the delta: top and bottom move by it, so the height is kept, and no other field changes |
| Views.View.Layout | XaviRigau-SynchronizedScrolling/XaviRigau-SynchronizedScrolling-library/src/com/xrigau/syncscrolling/view/SynchronizedRelativeLayout.java:242-243 | the view's frame becomes exactly the given left, top, right and bottom, and nothing else changes |
| EnhancedScroll.EnhancedScrollView.constructor | XaviRigau-SynchronizedScrolling/XaviRigau-SynchronizedScrolling-library/src/com/xrigau/syncscrolling/view/EnhancedScrollView.java:12 | a new scroll view has no listeners |
| EnhancedScroll.EnhancedScrollView.AddOnScrollListener | XaviRigau-SynchronizedScrolling/XaviRigau-SynchronizedScrolling-library/src/com/xrigau/syncscrolling/view/EnhancedScrollView.java:48-50 | the listener is appended: length grows by one, earlier entries are kept, duplicates are allowed, nothing else changes |
| EnhancedScroll.EnhancedScrollView.OnScrollChanged | XaviRigau-SynchronizedScrolling/XaviRigau-SynchronizedScrolling-library/src/com/xrigau/syncscrolling/view/EnhancedScrollView.java:27-32 | one call per list entry, in registration order, each carrying the new vertical offset t and nothing of l, oldl or oldt; the list is not modified |
| EnhancedScroll.EnhancedScrollView.OnSizeChanged | XaviRigau-SynchronizedScrolling/XaviRigau-SynchronizedScrolling-library/src/com/xrigau/syncscrolling/view/EnhancedScrollView.java:35-46 | one call per list entry, in order, each carrying the current scroll position; the list is not modified |
| EnhancedScroll.NearestScrollContainer | XaviRigau-SynchronizedScrolling/XaviRigau-SynchronizedScrolling-library/src/com/xrigau/syncscrolling/view/SynchronizedRelativeLayout.java:183-193 | the index of the first EnhancedScrollView in the parent chain with none before it, or none exactly when the chain holds no scroll view |
| EnhancedScroll.NearestAfterOtherParent | XaviRigau-SynchronizedScrolling/XaviRigau-SynchronizedScrolling-library/src/com/xrigau/syncscrolling/view/SynchronizedRelativeLayout.java:190-192 | moving past a parent that is not a scroll view keeps the same containers and the same nearest one, one position closer |
| SynchronizedRelative.SyncTop | XaviRigau-SynchronizedScrolling/XaviRigau-SynchronizedScrolling-library/src/com/xrigau/syncscrolling/view/SynchronizedRelativeLayout.java:253-271 | below the placeholder the new top is the placeholder's top; past it the new top is min(offsetY - getTop(), mLastSyncViewPos - getTop()) |
| SynchronizedRelative.TracksScroll | XaviRigau-SynchronizedScrolling/XaviRigau-SynchronizedScrolling-library/src/com/xrigau/syncscrolling/view/SynchronizedRelativeLayout.java:255-266 | from the placeholder up to offsetY == mLastSyncViewPos the view follows the scroll one to one |
| SynchronizedRelative.CappedAtRegionBottom | XaviRigau-SynchronizedScrolling/XaviRigau-SynchronizedScrolling-library/src/com/xrigau/syncscrolling/view/SynchronizedRelativeLayout.java:245-266 | with mLastSyncViewPos as onLayout sets it, a capped view's bottom lies on the layout's bottom edge |
| SynchronizedRelative.StaysWithinRegion | XaviRigau-SynchronizedScrolling/XaviRigau-SynchronizedScrolling-library/src/com/xrigau/syncscrolling/view/SynchronizedRelativeLayout.java:253-271 | when the placeholder's top is at or above the cap (placeholderTop <= mLastSyncViewPos - getTop(), i.e. the placeholder fits inside the layout), the view never goes above the placeholder nor below the cap |
| SynchronizedRelative.MovesByAtMostOnePixel | XaviRigau-SynchronizedScrolling/XaviRigau-SynchronizedScrolling-library/src/com/xrigau/syncscrolling/view/SynchronizedRelativeLayout.java:253-271 | when the placeholder's top is at or above the cap, one more pixel of scroll moves the view down by zero or one pixel, with no jump at the placeholder or at the cap |
| SynchronizedRelative.JumpsWhenPlaceholderPastCap | XaviRigau-SynchronizedScrolling/XaviRigau-SynchronizedScrolling-library/src/com/xrigau/syncscrolling/view/SynchronizedRelativeLayout.java:255-266 | when the placeholder's top lies below the cap, the offset that reaches the placeholder moves the view up, against the scroll, from the placeholder to the cap: by placeholderTop - (mLastSyncViewPos - getTop()) pixels, at least one |
| SynchronizedRelative.CappedAgreesWithUncapped | XaviRigau-SynchronizedScrolling/XaviRigau-SynchronizedScrolling-library/src/com/xrigau/syncscrolling/view/SynchronizedRelativeLayout.java:259-266 | for every input, the capped top is never below the uncapped one and equals it until offsetY passes mLastSyncViewPos |
| SynchronizedRelative.SynchronizedRelativeLayout.constructor | XaviRigau-SynchronizedScrolling/XaviRigau-SynchronizedScrolling-library/src/com/xrigau/syncscrolling/view/SynchronizedRelativeLayout.java:95-99 | gravity starts as LEFT and mLastSyncViewPos as 0 |
| SynchronizedRelative.SynchronizedRelativeLayout.Init | XaviRigau-SynchronizedScrolling/XaviRigau-SynchronizedScrolling-library/src/com/xrigau/syncscrolling/view/SynchronizedRelativeLayout.java:143-162 | gravity is read with the current value as default; it fails exactly when an id is 0, and the synchronizedView error wins when both are 0 |
| SynchronizedRelative.SynchronizedRelativeLayout.FindEnhancedScrollViewRecursive | XaviRigau-SynchronizedScrolling/XaviRigau-SynchronizedScrolling-library/src/com/xrigau/syncscrolling/view/SynchronizedRelativeLayout.java:183-193 | appends the layout once to the nearest EnhancedScrollView's listeners and touches no other scroll view; with no scroll view in the chain it fails and changes nothing |
| SynchronizedRelative.SynchronizedRelativeLayout.OnMeasure | XaviRigau-SynchronizedScrolling/XaviRigau-SynchronizedScrolling-library/src/com/xrigau/syncscrolling/view/SynchronizedRelativeLayout.java:210-217 | the placeholder's layout height becomes the synchronized view's measured height |
| SynchronizedRelative.SynchronizedRelativeLayout.OnLayout | XaviRigau-SynchronizedScrolling/XaviRigau-SynchronizedScrolling-library/src/com/xrigau/syncscrolling/view/SynchronizedRelativeLayout.java:223-247 | given the frame (l, t, r, b) the parent has just set: when changed, both children get the same rectangle at the placeholder's top and the gravity's left, sized by the measurement, and mLastSyncViewPos = getTop() + getHeight() - measured height; otherwise nothing changes |
| SynchronizedRelative.SynchronizedRelativeLayout.OnVerticalScrollChanged | XaviRigau-SynchronizedScrolling/XaviRigau-SynchronizedScrolling-library/src/com/xrigau/syncscrolling/view/SynchronizedRelativeLayout.java:253-272 | the synchronized view's top becomes SyncTop of the offset and its height, left and right are kept; the placeholder and the layout are untouched; a view already at its target does not move |
| SynchronizedScroll.SyncTop | XaviRigau-SynchronizedScrolling/XaviRigau-SynchronizedScrolling-library/src/com/xrigau/syncscrolling/view/SynchronizedScrollLayout.java:104-113 | the new top is the larger of offsetY - getTop() and the placeholder's top |
| SynchronizedScroll.ContinuousAtPlaceholder | XaviRigau-SynchronizedScrolling/XaviRigau-SynchronizedScrolling-library/src/com/xrigau/syncscrolling/view/SynchronizedScrollLayout.java:106-111 | both branches give the placeholder's top where the viewport meets it, and tracking starts from there |
| SynchronizedScroll.MovesByAtMostOnePixel | XaviRigau-SynchronizedScrolling/XaviRigau-SynchronizedScrolling-library/src/com/xrigau/syncscrolling/view/SynchronizedScrollLayout.java:104-113 | one more pixel of scroll moves the view down by zero or one pixel |
| SynchronizedScroll.SynchronizedScrollLayout.constructor | XaviRigau-SynchronizedScrolling/XaviRigau-SynchronizedScrolling-library/src/com/xrigau/syncscrolling/view/SynchronizedScrollLayout.java:14-16 | gravity starts as LEFT |
| SynchronizedScroll.SynchronizedScrollLayout.Init | XaviRigau-SynchronizedScrolling/XaviRigau-SynchronizedScrolling-library/src/com/xrigau/syncscrolling/view/SynchronizedScrollLayout.java:28-47 | gravity is read with the current value as default; it fails exactly when an id is 0, and the synchronizedView error wins when both are 0 |
| SynchronizedScroll.SynchronizedScrollLayout.FindEnhancedScrollViewRecursive | XaviRigau-SynchronizedScrolling/XaviRigau-SynchronizedScrolling-library/src/com/xrigau/syncscrolling/view/SynchronizedScrollLayout.java:55-65 | registers once with the first EnhancedScrollView in the parent chain, or fails and changes nothing when the chain has none |
| SynchronizedScroll.SynchronizedScrollLayout.OnMeasure | XaviRigau-SynchronizedScrolling/XaviRigau-SynchronizedScrolling-library/src/com/xrigau/syncscrolling/view/SynchronizedScrollLayout.java:75-83 | the placeholder's layout height becomes the synchronized view's measured height |
| SynchronizedScroll.SynchronizedScrollLayout.OnLayout | XaviRigau-SynchronizedScrolling/XaviRigau-SynchronizedScrolling-library/src/com/xrigau/syncscrolling/view/SynchronizedScrollLayout.java:85-102 | given the frame (l, t, r, b) the parent has just set, on every pass both children get the same rectangle at the placeholder's top and the gravity's left, sized by the measurement |
| SynchronizedScroll.SynchronizedScrollLayout.OnVerticalScrollChanged | XaviRigau-SynchronizedScrolling/XaviRigau-SynchronizedScrolling-library/src/com/xrigau/syncscrolling/view/SynchronizedScrollLayout.java:104-113 | the synchronized view's top becomes SyncTop of the offset and its height, left and right are kept; the placeholder and the layout are untouched; a view already at its target does not move |
| Delivery.Listener.OnVerticalScrollChanged | XaviRigau-SynchronizedScrolling/XaviRigau-SynchronizedScrolling-library/src/com/xrigau/syncscrolling/view/EnhancedScrollView.java:52-54 | a call on a listener runs its own layout's handler: that layout's synchronized view goes to its target keeping its height, and a placeholder distinct from it is untouched |
| Delivery.Recipients | XaviRigau-SynchronizedScrolling/XaviRigau-SynchronizedScrolling-library/src/com/xrigau/syncscrolling/view/EnhancedScrollView.java:29-31 | the listeners a list of calls is addressed to, in order |
| Delivery.NotifyOne | XaviRigau-SynchronizedScrolling/XaviRigau-SynchronizedScrolling-library/src/com/xrigau/syncscrolling/view/EnhancedScrollView.java:29-31 | one call moves the named layout's synchronized view to its target keeping its height, leaves every other synchronized view and every placeholder as it was and changes no layout's target |
| Delivery.DeliverOne | XaviRigau-SynchronizedScrolling/XaviRigau-SynchronizedScrolling-library/src/com/xrigau/syncscrolling/view/EnhancedScrollView.java:29-31 | one iteration of the broadcast loop: after it, the named layout counts as delivered and every layout still sits where the delivered/undelivered split says |
| Delivery.Deliver | XaviRigau-SynchronizedScrolling/XaviRigau-SynchronizedScrolling-library/src/com/xrigau/syncscrolling/view/EnhancedScrollView.java:29-31 | after a broadcast for one offset, every layout named at least once is at its target for that offset, however often it was named; every other layout's synchronized view has the same top and bottom; only tops and bottoms change, every height is kept and no target changes |
| Delivery.BroadcastNamesListeners | XaviRigau-SynchronizedScrolling/XaviRigau-SynchronizedScrolling-library/src/com/xrigau/syncscrolling/view/EnhancedScrollView.java:29-31 | a broadcast is addressed to exactly the registered listeners, in order |
| Delivery.ScrollTo | XaviRigau-SynchronizedScrolling/XaviRigau-SynchronizedScrolling-library/src/com/xrigau/syncscrolling/view/EnhancedScrollView.java:27-32 | the scroll position becomes t before onScrollChanged fires; every registered layout ends at its target for t; every other layout's synchronized view keeps its top and bottom; no height and no target changes |
| Delivery.SizeChanged | XaviRigau-SynchronizedScrolling/XaviRigau-SynchronizedScrolling-library/src/com/xrigau/syncscrolling/view/EnhancedScrollView.java:35-46 | a resize leaves every registered layout at its target for the current scroll position; every other layout's synchronized view keeps its top and bottom; no height changes |
| Delivery.ScrollThenResize | XaviRigau-SynchronizedScrolling/XaviRigau-SynchronizedScrolling-library/src/com/xrigau/syncscrolling/view/EnhancedScrollView.java:27-46 | a resize that follows a scroll to t moves no synchronized view: each is where the scroll left it, registered ones at their target for t and the others where they started |

## Left out

- `super.onMeasure`, `super.onLayout` and the ScrollView's own scrolling are RelativeLayout's and ScrollView's algorithms. The model takes the child geometry and the offsets they produce as inputs.
- `obtainStyledAttributes`/`TypedArray` and `getPositionDescription` are left out. The attributes come in as an `Attributes` value, and the errors carry no message text.
- `onFinishInflate`'s `findViewById` is left out. The two child views are constructor inputs, and a missing child (a null view) is not modelled.
- `onAttachedToWindow` is modelled by calling `FindEnhancedScrollViewRecursive` with the layout's chain of parents, nearest first. The chain's end stands for the null parent.
- The `post(Runnable)` in `onSizeChanged` is run at once, and `invalidate()` (a redraw request) is left out.
- Java's 32-bit `int` wrap-around in pixel arithmetic is not modelled, since pixel values stay far from the limits. Integers are unbounded. Java's truncating division is modelled, in `JavaHalf`.
- The listener interface's dynamic dispatch is modelled by `Delivery.Listener`, a choice between the two layout kinds. Layouts are registered by identity.
- Delivery.Deliver, Delivery.NotifyOne, Delivery.DeliverOne, Delivery.ScrollTo, Delivery.SizeChanged, Delivery.ScrollThenResize: require the layouts to share no view: no layout's synchronized view is another layout's view, and no layout's synchronized view is its own placeholder. If two layouts shared a view, one layout's move would change another's placeholder top.
- Delivery.Deliver, Delivery.NotifyOne, Delivery.DeliverOne, Delivery.ScrollTo, Delivery.SizeChanged, Delivery.ScrollThenResize: a layout is not modelled as a View, although both layouts extend RelativeLayout. So a layout that is itself another layout's synchronized view or placeholder is outside the model. The outer layout's offsetTopAndBottom or layout calls would move the inner layout's own frame, and with it the inner layout's target, during a broadcast.
- Delivery.Deliver, Delivery.ScrollTo, Delivery.SizeChanged: do not state that placeholders are untouched. Their frames allow only the synchronized views' tops and bottoms to change, and the layouts share no view, so placeholders cannot change; the clause is left out because deriving it for every layout made the proof too costly.
- Delivery.ScrollTo: stands for a scroll to a new position; View.scrollTo fires nothing when t is already the position, whereas the model always broadcasts. Its `oldt` argument is not tied to the previous position, which is harmless because the broadcast ignores it.
- OnVerticalScrollChanged (both variants): states that the placeholder is untouched only when it is a different view from the synchronized view. The same id may name both.
- The sample application (Main.java) is UI navigation with no logic, and is not part of this model.
