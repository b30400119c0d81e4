/** SKTouchHandler: the gesture recognizer that turns native touches into
    Pressed, Moved, Released and Cancelled events for the consumer, and keeps
    the set of touches whose press the consumer accepted. */
module TouchHandling {
  import opened TouchEvents
  import opened GestureRecognizers
  import opened NativeViews

  /** The view's interaction flag after SetEnabled: with
      DisablesUserInteraction set it follows the request exactly; without it,
      the request can switch interaction on but never off. */
  function InteractionAfter(enabled: bool, disablesUserInteraction: bool, enableTouchEvents: bool): (r: bool)
    ensures disablesUserInteraction ==> r == enableTouchEvents
    ensures !disablesUserInteraction ==> r == (enabled || enableTouchEvents)
  {
    if !enabled || disablesUserInteraction then enableTouchEvents else enabled
  }

  /** Repeating SetEnabled with the same request changes neither the flag nor
      the recognizers any further. */
  lemma SetEnabledIdempotent(enabled: bool, disablesUserInteraction: bool, rs: seq<object>, h: object, enable: bool)
    ensures var enabled' := InteractionAfter(enabled, disablesUserInteraction, enable);
            InteractionAfter(enabled', disablesUserInteraction, enable) == enabled'
    ensures var rs' := RecognizersAfter(rs, h, enable);
            RecognizersAfter(rs', h, enable) == rs'
  {
  }

  class TouchHandler {
    /** The touches currently tracked (`_touches`). */
    var touches: set<int>
    /** True while the touch callback and the pixel-scaling callback are both
        set; Detach clears them. */
    var attached: bool
    /** DisablesUserInteraction. */
    var disablesUserInteraction: bool
    /** Every call of the consumer so far, in order. */
    ghost var log: seq<Delivery>

    /** The tracked touches are those the log leaves active; once detached,
        touches can only leave the set, so it stays within them. */
    ghost predicate Valid()
      reads this
    {
      touches <= Active(log) && (attached ==> touches == Active(log))
    }

    constructor ()
      ensures Valid()
      ensures touches == {} && attached && !disablesUserInteraction && log == []
    {
      touches := {};
      attached := true;
      disablesUserInteraction := false;
      log := [];
    }

    /** Makes the view deliver touches to this handler, or stop doing so. The
        interaction flag is overwritten only when it was off or when
        DisablesUserInteraction is set; the handler is added to or removed
        from the recognizers only when it is not already in the wanted state.
        A null view is left alone. */
    method SetEnabled(view: NativeCanvasView?, enableTouchEvents: bool)
      modifies view
      ensures view != null ==>
                view.userInteractionEnabled
                  == InteractionAfter(old(view.userInteractionEnabled), disablesUserInteraction, enableTouchEvents)
      ensures view != null ==>
                view.gestureRecognizers == RecognizersAfter(old(view.gestureRecognizers), this, enableTouchEvents)
      ensures view != null ==>
                view.ignorePixelScaling == old(view.ignorePixelScaling) && view.canvasSize == old(view.canvasSize)
                && view.paintSurfaceHandlers == old(view.paintSurfaceHandlers)
                && view.redrawRequests == old(view.redrawRequests)
    {
      if view != null {
        if !view.userInteractionEnabled || disablesUserInteraction {
          view.userInteractionEnabled := enableTouchEvents;
        }
        if enableTouchEvents && this !in view.gestureRecognizers {
          view.AddGestureRecognizer(this);
        } else if !enableTouchEvents && this in view.gestureRecognizers {
          view.RemoveGestureRecognizer(this);
        }
      }
    }

    /** Disables touch events on the view and drops both callbacks. */
    method Detach(view: NativeCanvasView?)
      requires Valid()
      modifies this`attached, view
      ensures Valid() && !attached
      ensures touches == old(touches) && log == old(log)
      ensures view != null ==> this !in view.gestureRecognizers
      ensures view != null ==>
                view.gestureRecognizers == RecognizersAfter(old(view.gestureRecognizers), this, false)
      ensures view != null ==>
                view.userInteractionEnabled
                  == InteractionAfter(old(view.userInteractionEnabled), disablesUserInteraction, false)
      ensures view != null ==>
                view.ignorePixelScaling == old(view.ignorePixelScaling) && view.canvasSize == old(view.canvasSize)
                && view.paintSurfaceHandlers == old(view.paintSurfaceHandlers)
                && view.redrawRequests == old(view.redrawRequests)
    {
      SetEnabled(view, false);
      attached := false;
    }

    /** Shows one event to the consumer and answers whether it was handled;
        once detached, nobody is called and the answer is false. */
    method FireEvent(action: TouchAction, touch: int, inContact: bool, handled: Consumer) returns (accepted: bool)
      modifies this`log
      ensures accepted == (attached && handled(TouchEvent(touch, action, inContact)))
      ensures log == old(log) + (if attached then [Deliver(TouchEvent(touch, action, inContact), handled)] else [])
    {
      if !attached {
        return false;
      }
      var e := TouchEvent(touch, action, inContact);
      log := log + [Deliver(e, handled)];
      accepted := handled(e);
    }

    /** Reports a press for every touch of the batch and tracks exactly the
        ones the consumer handled; the others are left to the host to ignore. */
    method TouchesBegan(batch: seq<int>, handled: Consumer)
      requires Valid()
      modifies this`touches, this`log
      ensures Valid()
      ensures log == old(log) + (if attached then Deliveries(batch, Pressed, true, handled) else [])
      ensures touches == old(touches) + (if attached then AcceptedPresses(batch, handled) else {})
    {
      for i := 0 to |batch|
        invariant log == old(log) + (if attached then Deliveries(batch[..i], Pressed, true, handled) else [])
        invariant touches == old(touches) + (if attached then AcceptedPresses(batch[..i], handled) else {})
      {
        var accepted := FireEvent(Pressed, batch[i], true, handled);
        if accepted {
          touches := touches + {batch[i]};
        }
        assert batch[..i + 1] == batch[..i] + [batch[i]];
        DeliveriesAppend(batch[..i], batch[i], Pressed, true, handled);
        AcceptedPressesAppend(batch[..i], batch[i], handled);
      }
      assert batch[..|batch|] == batch;
      if attached {
        ActiveAfterPresses(old(log), batch, handled);
      }
    }

    /** Reports a move for every touch of the batch, tracked or not. */
    method TouchesMoved(batch: seq<int>, handled: Consumer)
      requires Valid()
      modifies this`log
      ensures Valid()
      ensures log == old(log) + (if attached then Deliveries(batch, Moved, true, handled) else [])
    {
      for i := 0 to |batch|
        invariant log == old(log) + (if attached then Deliveries(batch[..i], Moved, true, handled) else [])
      {
        var _ := FireEvent(Moved, batch[i], true, handled);
        assert batch[..i + 1] == batch[..i] + [batch[i]];
        DeliveriesAppend(batch[..i], batch[i], Moved, true, handled);
      }
      assert batch[..|batch|] == batch;
      if attached {
        ActiveAfterMoves(old(log), batch, handled);
      }
    }

    /** Reports a release for every touch of the batch and stops tracking them. */
    method TouchesEnded(batch: seq<int>, handled: Consumer)
      requires Valid()
      modifies this`touches, this`log
      ensures Valid()
      ensures log == old(log) + (if attached then Deliveries(batch, Released, false, handled) else [])
      ensures touches == old(touches) - set t | t in batch
    {
      for i := 0 to |batch|
        invariant log == old(log) + (if attached then Deliveries(batch[..i], Released, false, handled) else [])
        invariant touches == old(touches) - set t | t in batch[..i]
      {
        var _ := FireEvent(Released, batch[i], false, handled);
        touches := touches - {batch[i]};
        assert batch[..i + 1] == batch[..i] + [batch[i]];
        DeliveriesAppend(batch[..i], batch[i], Released, false, handled);
      }
      assert batch[..|batch|] == batch;
      if attached {
        ActiveAfterLifts(old(log), batch, Released, handled);
      }
    }

    /** Reports a cancellation for every touch of the batch and stops tracking them. */
    method TouchesCancelled(batch: seq<int>, handled: Consumer)
      requires Valid()
      modifies this`touches, this`log
      ensures Valid()
      ensures log == old(log) + (if attached then Deliveries(batch, Cancelled, false, handled) else [])
      ensures touches == old(touches) - set t | t in batch
    {
      for i := 0 to |batch|
        invariant log == old(log) + (if attached then Deliveries(batch[..i], Cancelled, false, handled) else [])
        invariant touches == old(touches) - set t | t in batch[..i]
      {
        var _ := FireEvent(Cancelled, batch[i], false, handled);
        touches := touches - {batch[i]};
        assert batch[..i + 1] == batch[..i] + [batch[i]];
        DeliveriesAppend(batch[..i], batch[i], Cancelled, false, handled);
      }
      assert batch[..|batch|] == batch;
      if attached {
        ActiveAfterLifts(old(log), batch, Cancelled, handled);
      }
    }

    /** Cancels every tracked touch, each exactly once and in no particular
        order, then forgets them all. `order` is the order the set was
        enumerated in. */
    method Reset(handled: Consumer) returns (ghost order: seq<int>)
      requires Valid()
      modifies this`touches, this`log
      ensures Valid() && touches == {}
      ensures Enumerates(order, old(touches)) && |order| == |old(touches)|
      ensures log == old(log) + (if attached then Deliveries(order, Cancelled, false, handled) else [])
    {
      order := CancelEach(handled);
      touches := {};
      DistinctLength(order);
      if attached {
        ActiveAfterLifts(old(log), order, Cancelled, handled);
      }
    }

    /** The loop of Reset: one cancellation for each tracked touch, in the
        order the set happens to be enumerated. */
    method CancelEach(handled: Consumer) returns (ghost order: seq<int>)
      modifies this`log
      ensures Enumerates(order, touches)
      ensures log == old(log) + (if attached then Deliveries(order, Cancelled, false, handled) else [])
    {
      var remaining := touches;
      order := [];
      while remaining != {}
        invariant remaining <= touches
        invariant Enumerates(order, touches - remaining)
        invariant log == old(log) + (if attached then Deliveries(order, Cancelled, false, handled) else [])
        decreases remaining
      {
        var touch := Pick(remaining);
        var _ := FireEvent(Cancelled, touch, false, handled);
        DeliveriesAppend(order, touch, Cancelled, false, handled);
        EnumeratesAppend(order, touches - remaining, touch);
        assert (touches - remaining) + {touch} == touches - (remaining - {touch});
        order := order + [touch];
        remaining := remaining - {touch};
      }
    }
  }

  /** Some touch of a non-empty set, the next one its enumeration yields. */
  method Pick(s: set<int>) returns (t: int)
    requires s != {}
    ensures t in s
  {
    HasElement(s);
    t :| t in s;
  }

  lemma HasElement(s: set<int>)
    requires s != {}
    ensures exists t :: t in s
  {
    if forall t :: t !in s {
      assert false;
    }
  }

  predicate Distinct(s: seq<int>) {
    forall i, j :: 0 <= i < j < |s| ==> s[i] != s[j]
  }

  /** `order` lists every touch of `s` exactly once. */
  ghost predicate Enumerates(order: seq<int>, s: set<int>) {
    (set t | t in order) == s && Distinct(order)
  }

  lemma EnumeratesAppend(order: seq<int>, s: set<int>, t: int)
    requires Enumerates(order, s) && t !in s
    ensures Enumerates(order + [t], s + {t})
  {
    assert (set u | u in order + [t]) == (set u | u in order) + {t};
  }

  /** A sequence without repetitions is as long as the set of its elements. */
  lemma {:induction false} DistinctLength(s: seq<int>)
    requires Distinct(s)
    ensures |set t | t in s| == |s|
  {
    if s != [] {
      var front := s[..|s| - 1];
      DistinctLength(front);
      assert (set t | t in s) == (set t | t in front) + {s[|s| - 1]};
    }
  }

  /** Once the handler is detached, a new batch of presses reaches nobody
      and tracks nothing. */
  method BeganAfterDetach(h: TouchHandler, view: NativeCanvasView?, batch: seq<int>, handled: Consumer)
    requires h.Valid()
    modifies h, view
    ensures h.Valid() && !h.attached
    ensures h.touches == old(h.touches) && h.log == old(h.log)
  {
    h.Detach(view);
    h.TouchesBegan(batch, handled);
  }

  /** The example page's consumer marks every event handled. */
  function HandleEverything(e: TouchEvent): bool {
    true
  }

  /** With that consumer every press is accepted. */
  lemma HandleEverythingAcceptsAll(batch: seq<int>)
    ensures AcceptedPresses(batch, HandleEverything) == set t | t in batch
  {
  }

  /** With that consumer, an attached handler tracks every touch of a batch
      of presses, and the invariant keeps them all active. */
  method PressesWithHandleEverything(h: TouchHandler, batch: seq<int>)
    requires h.Valid() && h.attached
    modifies h`touches, h`log
    ensures h.Valid()
    ensures h.touches == old(h.touches) + set t | t in batch
    ensures forall t :: t in batch ==> t in Active(h.log)
  {
    h.TouchesBegan(batch, HandleEverything);
    HandleEverythingAcceptsAll(batch);
  }
}
