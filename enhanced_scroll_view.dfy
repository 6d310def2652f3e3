/**
 * EnhancedScrollView: a ScrollView that keeps an append-only list of
 * scroll listeners and hands every new vertical offset to each of them.
 * A listener is recorded by identity (the layout object that registered);
 * a broadcast is described by the ordered list of calls it makes.
 */
module EnhancedScroll {
  import opened Views

  /** One call `listener.onVerticalScrollChanged(offsetY)`. */
  datatype Call = Call(listener: object, offsetY: int)

  class EnhancedScrollView {
    /** The registered listeners, in registration order; duplicates allowed. */
    var listeners: seq<object>
    /** The current vertical scroll position (getScrollY()). */
    var scrollY: int

    constructor ()
      ensures listeners == [] && scrollY == 0
    {
      listeners := [];
      scrollY := 0;
    }

    /** addOnScrollListener: appends, never removes or reorders. */
    method AddOnScrollListener(listener: object)
      modifies this`listeners
      ensures listeners == old(listeners) + [listener]
      ensures |listeners| == old(|listeners|) + 1
      ensures forall i :: 0 <= i < old(|listeners|) ==> listeners[i] == old(listeners[i])
    {
      listeners := listeners + [listener];
    }

    /**
     * onScrollChanged: every registered listener, once per registration and
     * in registration order, is told the new vertical offset t; the
     * horizontal offsets and the previous vertical offset go nowhere.
     */
    method OnScrollChanged(l: int, t: int, oldl: int, oldt: int) returns (calls: seq<Call>)
      ensures |calls| == |listeners|
      ensures forall i :: 0 <= i < |calls| ==> calls[i] == Call(listeners[i], t)
    {
      calls := [];
      for i := 0 to |listeners|
        invariant |calls| == i
        invariant forall j :: 0 <= j < i ==> calls[j] == Call(listeners[j], t)
      {
        calls := calls + [Call(listeners[i], t)];
      }
    }

    /**
     * onSizeChanged, with the posted Runnable run directly: every listener
     * is told the current scroll position again, in registration order.
     */
    method OnSizeChanged(w: int, h: int, oldw: int, oldh: int) returns (calls: seq<Call>)
      ensures |calls| == |listeners|
      ensures forall i :: 0 <= i < |calls| ==> calls[i] == Call(listeners[i], scrollY)
    {
      calls := [];
      for i := 0 to |listeners|
        invariant |calls| == i
        invariant forall j :: 0 <= j < i ==> calls[j] == Call(listeners[j], scrollY)
      {
        calls := calls + [Call(listeners[i], scrollY)];
      }
    }
  }

  /** An entry of a view's parent chain: an EnhancedScrollView or any other parent. */
  datatype Ancestor = ScrollContainer(view: EnhancedScrollView) | OtherParent

  /** The EnhancedScrollViews that occur in a parent chain. */
  function Containers(parents: seq<Ancestor>): set<EnhancedScrollView>
  {
    set i | 0 <= i < |parents| && parents[i].ScrollContainer? :: parents[i].view
  }

  /**
   * Position, in the parent chain (nearest parent first; the chain's end is
   * the null parent), of the nearest EnhancedScrollView, if any.
   */
  function NearestScrollContainer(parents: seq<Ancestor>): (k: Option<nat>)
    ensures k.Some? ==> k.value < |parents| && parents[k.value].ScrollContainer?
    ensures k.Some? ==> forall j :: 0 <= j < k.value ==> parents[j].OtherParent?
    ensures k.None? <==> forall j :: 0 <= j < |parents| ==> parents[j].OtherParent?
  {
    if parents == [] then None
    else if parents[0].ScrollContainer? then Some(0)
    else match NearestScrollContainer(parents[1..])
      case None => None
      case Some(k) => Some(k + 1)
  }

  /** Skipping a parent that is not a scroll container moves the nearest one up by one. */
  lemma NearestAfterOtherParent(parents: seq<Ancestor>)
    requires parents != [] && parents[0].OtherParent?
    ensures Containers(parents) == Containers(parents[1..])
    ensures NearestScrollContainer(parents).Some? <==> NearestScrollContainer(parents[1..]).Some?
    ensures NearestScrollContainer(parents).Some? ==>
              NearestScrollContainer(parents).value == NearestScrollContainer(parents[1..]).value + 1
  {
  }
}
