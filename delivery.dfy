/**
 * The calls an EnhancedScrollView makes reach the layouts that registered:
 * each call runs that layout's onVerticalScrollChanged. Layouts of both
 * kinds may share one scroll view; each moves only its own synchronized view.
 */
module Delivery {
  import opened Views
  import opened EnhancedScroll
  import SynchronizedRelative
  import SynchronizedScroll

  /** A registered OnScrollChangedListener: a layout of either kind. */
  datatype Listener =
    | Relative(relative: SynchronizedRelative.SynchronizedRelativeLayout)
    | Scroll(scroll: SynchronizedScroll.SynchronizedScrollLayout)
  {
    /** The object the layout registered as. */
    function Handle(): (h: object)
    {
      match this
      case Relative(x) => x
      case Scroll(x) => x
    }

    function SyncView(): (v: View)
    {
      match this
      case Relative(x) => x.synchronizedView
      case Scroll(x) => x.synchronizedView
    }

    function PlaceholderView(): (v: View)
    {
      match this
      case Relative(x) => x.placeholderView
      case Scroll(x) => x.placeholderView
    }

    /** Where the layout puts its synchronized view for the scroll offset offsetY. */
    ghost function Target(offsetY: int): int
      reads Handle(), PlaceholderView()
    {
      match this
      case Relative(x) =>
        SynchronizedRelative.SyncTop(offsetY, x.top, x.placeholderView.top, x.lastSyncViewPos)
      case Scroll(x) =>
        SynchronizedScroll.SyncTop(offsetY, x.top, x.placeholderView.top)
    }

    /** listener.onVerticalScrollChanged(offsetY), dispatched on the layout's kind. */
    method OnVerticalScrollChanged(offsetY: int)
      modifies SyncView()`top, SyncView()`bottom
      ensures SyncView().top == old(Target(offsetY))
      ensures SyncView().Height() == old(SyncView().Height())
      ensures SyncView() != PlaceholderView() ==> unchanged(PlaceholderView())
    {
      match this
      case Relative(x) => x.OnVerticalScrollChanged(offsetY);
      case Scroll(x) => x.OnVerticalScrollChanged(offsetY);
    }
  }

  /**
   * Layouts i and j do not interfere: i's synchronized view is not j's
   * placeholder, and two different entries are different layouts with
   * different synchronized views.
   */
  ghost predicate Apart(layouts: seq<Listener>, i: int, j: int)
    requires 0 <= i < |layouts| && 0 <= j < |layouts|
  {
    && layouts[i].SyncView() != layouts[j].PlaceholderView()
    && (i != j ==> layouts[i].Handle() != layouts[j].Handle() && layouts[i].SyncView() != layouts[j].SyncView())
  }

  /** Layouts that share a scroll view without sharing any view. */
  ghost predicate Independent(layouts: seq<Listener>)
  {
    forall i, j :: 0 <= i < |layouts| && 0 <= j < |layouts| ==> Apart(layouts, i, j)
  }

  function SyncViews(layouts: seq<Listener>): set<View>
  {
    set k | 0 <= k < |layouts| :: layouts[k].SyncView()
  }

  /** The listeners the calls are addressed to, in order. */
  function Recipients(calls: seq<Call>): (r: seq<object>)
    ensures |r| == |calls|
    ensures forall i :: 0 <= i < |calls| ==> r[i] == calls[i].listener
  {
    if calls == [] then [] else Recipients(calls[..|calls| - 1]) + [calls[|calls| - 1].listener]
  }

  /**
   * One call reaching layouts[k]: its synchronized view moves to its target
   * keeping its height, no other layout's synchronized view moves, and no
   * placeholder and no layout's target changes.
   */
  method NotifyOne(layouts: seq<Listener>, k: nat, offsetY: int)
    requires Independent(layouts) && k < |layouts|
    modifies layouts[k].SyncView()`top, layouts[k].SyncView()`bottom
    ensures layouts[k].SyncView().top == old(layouts[k].Target(offsetY))
    ensures layouts[k].SyncView().Height() == old(layouts[k].SyncView().Height())
    ensures forall m :: 0 <= m < |layouts| && m != k ==> layouts[m].Handle() != layouts[k].Handle()
    ensures forall m :: 0 <= m < |layouts| && m != k ==>
              layouts[m].SyncView().top == old(layouts[m].SyncView().top) &&
              layouts[m].SyncView().bottom == old(layouts[m].SyncView().bottom)
    ensures forall m :: 0 <= m < |layouts| ==> unchanged(layouts[m].PlaceholderView())
    ensures forall m :: 0 <= m < |layouts| ==> layouts[m].Target(offsetY) == old(layouts[m].Target(offsetY))
  {
    assert Apart(layouts, k, k);
    layouts[k].OnVerticalScrollChanged(offsetY);
    forall m | 0 <= m < |layouts| && m != k
      ensures layouts[m].Handle() != layouts[k].Handle()
      ensures layouts[m].SyncView().top == old(layouts[m].SyncView().top) &&
              layouts[m].SyncView().bottom == old(layouts[m].SyncView().bottom)
    {
      assert Apart(layouts, m, k);
    }
    forall m | 0 <= m < |layouts|
      ensures unchanged(layouts[m].PlaceholderView())
      ensures layouts[m].Target(offsetY) == old(layouts[m].Target(offsetY))
    {
      assert Apart(layouts, k, m);
    }
  }

  /** Everything a layout's synchronized view, placeholder and target depend on. */
  ghost function Footprint(layouts: seq<Listener>): set<object>
  {
    (set k | 0 <= k < |layouts| :: layouts[k].Handle())
    + (set k | 0 <= k < |layouts| :: layouts[k].SyncView() as object)
    + (set k | 0 <= k < |layouts| :: layouts[k].PlaceholderView() as object)
  }

  /** The synchronized views' tops and bottoms and the layouts' targets, at one moment. */
  datatype Snapshot = Snapshot(tops: seq<int>, bottoms: seq<int>, targets: seq<int>)

  ghost function Snap(layouts: seq<Listener>, offsetY: int): (s: Snapshot)
    reads Footprint(layouts)
    ensures |s.tops| == |s.bottoms| == |s.targets| == |layouts|
    ensures forall k :: 0 <= k < |layouts| ==>
              && s.tops[k] == layouts[k].SyncView().top
              && s.bottoms[k] == layouts[k].SyncView().bottom
              && s.targets[k] == layouts[k].Target(offsetY)
  {
    Snapshot(
      seq(|layouts|, k requires 0 <= k < |layouts| reads Footprint(layouts) => layouts[k].SyncView().top),
      seq(|layouts|, k requires 0 <= k < |layouts| reads Footprint(layouts) => layouts[k].SyncView().bottom),
      seq(|layouts|, k requires 0 <= k < |layouts| reads Footprint(layouts) => layouts[k].Target(offsetY)))
  }

  /**
   * Against the snapshot `before`: no target has changed; a layout already
   * named sits at its target with its height; any other has not moved.
   */
  ghost predicate Progress(layouts: seq<Listener>, offsetY: int, delivered: seq<object>, before: Snapshot)
    requires |before.tops| == |before.bottoms| == |before.targets| == |layouts|
    reads Footprint(layouts)
  {
    forall k :: 0 <= k < |layouts| ==>
      && layouts[k].Target(offsetY) == before.targets[k]
      && (layouts[k].Handle() in delivered ==>
            layouts[k].SyncView().top == before.targets[k] &&
            layouts[k].SyncView().Height() == before.bottoms[k] - before.tops[k])
      && (layouts[k].Handle() !in delivered ==>
            layouts[k].SyncView().top == before.tops[k] && layouts[k].SyncView().bottom == before.bottoms[k])
  }

  /** One call of a broadcast, run on the layout it names, keeps Progress with that layout counted as named. */
  method DeliverOne(layouts: seq<Listener>, call: Call, ghost offsetY: int, ghost delivered: seq<object>, ghost before: Snapshot)
    requires Independent(layouts)
    requires call.offsetY == offsetY
    requires exists k :: 0 <= k < |layouts| && layouts[k].Handle() == call.listener
    requires |before.tops| == |before.bottoms| == |before.targets| == |layouts|
    requires Progress(layouts, offsetY, delivered, before)
    modifies SyncViews(layouts)`top, SyncViews(layouts)`bottom
    ensures Progress(layouts, offsetY, delivered + [call.listener], before)
  {
    var k :| 0 <= k < |layouts| && layouts[k].Handle() == call.listener;
    NotifyOne(layouts, k, call.offsetY);
  }

  /**
   * Runs a broadcast's calls, all carrying the offset offsetY, on the
   * layouts they name: every layout named at least once ends with its
   * synchronized view at its own target for offsetY, whatever the others
   * did and however many times it was named; every other layout is untouched.
   * Only tops and bottoms move, so every synchronized view keeps its height.
   */
  method Deliver(calls: seq<Call>, layouts: seq<Listener>, ghost offsetY: int)
    requires Independent(layouts)
    requires forall i :: 0 <= i < |calls| ==> calls[i].offsetY == offsetY
    requires forall i :: 0 <= i < |calls| ==> exists k :: 0 <= k < |layouts| && layouts[k].Handle() == calls[i].listener
    modifies SyncViews(layouts)`top, SyncViews(layouts)`bottom
    ensures forall k :: 0 <= k < |layouts| && layouts[k].Handle() in Recipients(calls) ==>
              layouts[k].SyncView().top == old(layouts[k].Target(offsetY))
    ensures forall k :: 0 <= k < |layouts| && layouts[k].Handle() !in Recipients(calls) ==>
              layouts[k].SyncView().top == old(layouts[k].SyncView().top) &&
              layouts[k].SyncView().bottom == old(layouts[k].SyncView().bottom)
    ensures forall k :: 0 <= k < |layouts| ==> layouts[k].SyncView().Height() == old(layouts[k].SyncView().Height())
    ensures forall k :: 0 <= k < |layouts| ==> layouts[k].Target(offsetY) == old(layouts[k].Target(offsetY))
  {
    ghost var before := Snap(layouts, offsetY);
    ghost var delivered: seq<object> := [];
    for i := 0 to |calls|
      invariant delivered == Recipients(calls[..i])
      invariant Progress(layouts, offsetY, delivered, before)
    {
      DeliverOne(layouts, calls[i], offsetY, delivered, before);
      assert calls[..i + 1][..i] == calls[..i];
      delivered := delivered + [calls[i].listener];
    }
    assert calls[..|calls|] == calls;
  }

  /** A broadcast to `listeners` names each of them, and only layouts the caller knows. */
  lemma BroadcastNamesListeners(calls: seq<Call>, listeners: seq<object>, layouts: seq<Listener>)
    requires |calls| == |listeners|
    requires forall i :: 0 <= i < |calls| ==> calls[i].listener == listeners[i]
    requires forall o :: o in listeners ==> exists k :: 0 <= k < |layouts| && layouts[k].Handle() == o
    ensures Recipients(calls) == listeners
    ensures forall i :: 0 <= i < |calls| ==> exists k :: 0 <= k < |layouts| && layouts[k].Handle() == calls[i].listener
  {
    forall i | 0 <= i < |calls|
      ensures exists k :: 0 <= k < |layouts| && layouts[k].Handle() == calls[i].listener
    {
      assert listeners[i] in listeners;
    }
  }

  /**
   * A scroll to vertical offset t, end to end: the scroll view's position
   * becomes t before onScrollChanged fires (as View.scrollTo does); every
   * layout registered with the scroll view ends at its own target for t;
   * the others do not move; no view changes height.
   */
  method ScrollTo(scroller: EnhancedScrollView, l: int, t: int, oldl: int, oldt: int, layouts: seq<Listener>)
    requires Independent(layouts)
    requires forall o :: o in scroller.listeners ==> exists k :: 0 <= k < |layouts| && layouts[k].Handle() == o
    modifies scroller`scrollY, SyncViews(layouts)`top, SyncViews(layouts)`bottom
    ensures scroller.scrollY == t
    ensures forall k :: 0 <= k < |layouts| && layouts[k].Handle() in old(scroller.listeners) ==>
              layouts[k].SyncView().top == old(layouts[k].Target(t))
    ensures forall k :: 0 <= k < |layouts| && layouts[k].Handle() !in old(scroller.listeners) ==>
              layouts[k].SyncView().top == old(layouts[k].SyncView().top) &&
              layouts[k].SyncView().bottom == old(layouts[k].SyncView().bottom)
    ensures forall k :: 0 <= k < |layouts| ==> layouts[k].SyncView().Height() == old(layouts[k].SyncView().Height())
    ensures forall k :: 0 <= k < |layouts| ==> layouts[k].Target(t) == old(layouts[k].Target(t))
  {
    scroller.scrollY := t;
    var calls := scroller.OnScrollChanged(l, t, oldl, oldt);
    forall k | 0 <= k < |layouts|
      ensures layouts[k].Target(t) == old(layouts[k].Target(t))
      ensures unchanged(layouts[k].SyncView(), layouts[k].PlaceholderView())
    {
      assert unchanged(layouts[k].Handle(), layouts[k].PlaceholderView(), layouts[k].SyncView());
    }
    BroadcastNamesListeners(calls, scroller.listeners, layouts);
    Deliver(calls, layouts, t);
  }

  /**
   * A resize, end to end: the current scroll position is delivered again,
   * and every registered layout ends at its target for it; the others do
   * not move; no view changes height.
   */
  method SizeChanged(scroller: EnhancedScrollView, w: int, h: int, oldw: int, oldh: int, layouts: seq<Listener>)
    requires Independent(layouts)
    requires forall o :: o in scroller.listeners ==> exists k :: 0 <= k < |layouts| && layouts[k].Handle() == o
    modifies SyncViews(layouts)`top, SyncViews(layouts)`bottom
    ensures forall k :: 0 <= k < |layouts| && layouts[k].Handle() in scroller.listeners ==>
              layouts[k].SyncView().top == old(layouts[k].Target(scroller.scrollY))
    ensures forall k :: 0 <= k < |layouts| && layouts[k].Handle() !in scroller.listeners ==>
              layouts[k].SyncView().top == old(layouts[k].SyncView().top) &&
              layouts[k].SyncView().bottom == old(layouts[k].SyncView().bottom)
    ensures forall k :: 0 <= k < |layouts| ==> layouts[k].SyncView().Height() == old(layouts[k].SyncView().Height())
  {
    var calls := scroller.OnSizeChanged(w, h, oldw, oldh);
    forall k | 0 <= k < |layouts|
      ensures layouts[k].Target(scroller.scrollY) == old(layouts[k].Target(scroller.scrollY))
      ensures unchanged(layouts[k].SyncView(), layouts[k].PlaceholderView())
    {
      assert unchanged(layouts[k].Handle(), layouts[k].PlaceholderView(), layouts[k].SyncView());
    }
    BroadcastNamesListeners(calls, scroller.listeners, layouts);
    Deliver(calls, layouts, scroller.scrollY);
  }

  /**
   * A scroll to t followed by a resize: the resize moves no synchronized
   * view, since every registered layout already sits at its target for the
   * scroll position the resize delivers again.
   */
  method ScrollThenResize(scroller: EnhancedScrollView, t: int, oldt: int, w: int, h: int, oldw: int, oldh: int,
                          layouts: seq<Listener>) returns (ghost afterScroll: seq<int>)
    requires Independent(layouts)
    requires forall o :: o in scroller.listeners ==> exists k :: 0 <= k < |layouts| && layouts[k].Handle() == o
    modifies scroller`scrollY, SyncViews(layouts)`top, SyncViews(layouts)`bottom
    ensures scroller.scrollY == t
    ensures |afterScroll| == |layouts|
    ensures forall k :: 0 <= k < |layouts| ==> layouts[k].SyncView().top == afterScroll[k]
    ensures forall k :: 0 <= k < |layouts| ==> layouts[k].SyncView().Height() == old(layouts[k].SyncView().Height())
    ensures forall k :: 0 <= k < |layouts| && layouts[k].Handle() in old(scroller.listeners) ==>
              afterScroll[k] == old(layouts[k].Target(t))
    ensures forall k :: 0 <= k < |layouts| && layouts[k].Handle() !in old(scroller.listeners) ==>
              afterScroll[k] == old(layouts[k].SyncView().top)
  {
    ScrollTo(scroller, 0, t, 0, oldt, layouts);
    afterScroll := seq(|layouts|, k requires 0 <= k < |layouts| reads SyncViews(layouts) => layouts[k].SyncView().top);
    SizeChanged(scroller, w, h, oldw, oldh, layouts);
  }
}
