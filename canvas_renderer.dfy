/** The renderer that binds a cross-platform canvas element to a native
    canvas control: it creates the control once, keeps the element's
    invalidate and size-query notifications subscribed to itself, forwards
    property changes, and tears everything down on dispose. */
module CanvasRenderer {
  import opened GestureRecognizers
  import opened NativeViews
  import opened TouchHandling

  /** How a handler ends: normally, or with the NullReferenceException the
      code raises when it dereferences a missing control or element. */
  datatype Outcome = Completed | NullReference

  /** The property names OnElementPropertyChanged tells apart. */
  datatype PropertyName = IgnorePixelScalingProperty | EnableTouchEventsProperty | OtherProperty(name: string)

  /** SKPoint. */
  datatype Point = Point(x: real, y: real)

  /** The count of this renderer's subscriptions to an event after one `-=`:
      one fewer if there was any, none otherwise. */
  function Unsubscribe(count: nat): nat {
    if count == 0 then 0 else count - 1
  }

  /** The point handed to the consumer for a location in the control's
      coordinates: scaled to device pixels by the content scale factor, or
      passed through unchanged when the element ignores pixel scaling. */
  function ScaledCoord(x: real, y: real, ignorePixelScaling: bool, contentScaleFactor: real): (p: Point)
    ensures ignorePixelScaling || contentScaleFactor == 1.0 ==> p == Point(x, y)
    ensures contentScaleFactor != 0.0 ==>
              (if ignorePixelScaling then p else Point(p.x / contentScaleFactor, p.y / contentScaleFactor)) == Point(x, y)
  {
    if ignorePixelScaling then Point(x, y)
    else
      var p := Point(x * contentScaleFactor, y * contentScaleFactor);
      assert contentScaleFactor != 0.0 ==> p.x / contentScaleFactor == x && p.y / contentScaleFactor == y by {
        if contentScaleFactor != 0.0 {
          assert p.x == (p.x / contentScaleFactor) * contentScaleFactor;
          assert p.y == (p.y / contentScaleFactor) * contentScaleFactor;
        }
      }
      p
  }

  /** The cross-platform canvas element: the two properties the renderer
      reads and how many times this renderer is subscribed to each of its
      two notifications. */
  class FormsCanvasView {
    var enableTouchEvents: bool
    var ignorePixelScaling: bool
    var surfaceInvalidatedHandlers: nat
    var getCanvasSizeHandlers: nat

    constructor (enableTouchEvents: bool, ignorePixelScaling: bool)
      ensures this.enableTouchEvents == enableTouchEvents && this.ignorePixelScaling == ignorePixelScaling
      ensures surfaceInvalidatedHandlers == 0 && getCanvasSizeHandlers == 0
    {
      this.enableTouchEvents := enableTouchEvents;
      this.ignorePixelScaling := ignorePixelScaling;
      surfaceInvalidatedHandlers := 0;
      getCanvasSizeHandlers := 0;
    }
  }

  /** TestSKCanvasViewRenderer with its base class. `element` is the bound
      element, which the host sets before it calls OnElementChanged. */
  class CanvasViewRenderer {
    const touchHandler: TouchHandler
    var control: NativeCanvasView?
    var element: FormsCanvasView?

    ghost predicate Valid()
      reads this, touchHandler
    {
      touchHandler.Valid()
    }

    /** A renderer with no control and no element whose touch handler is
        live and overrides the view's interaction flag. */
    constructor ()
      ensures Valid() && fresh(touchHandler)
      ensures control == null && element == null
      ensures touchHandler.attached && touchHandler.disablesUserInteraction
      ensures touchHandler.touches == {} && touchHandler.log == []
    {
      touchHandler := new TouchHandler();
      control := null;
      element := null;
      new;
      SetDisablesUserInteraction(true);
    }

    method SetDisablesUserInteraction(disablesUserInteraction: bool)
      modifies touchHandler`disablesUserInteraction
      ensures touchHandler.disablesUserInteraction == disablesUserInteraction
    {
      touchHandler.disablesUserInteraction := disablesUserInteraction;
    }

    /** A new native control; its opacity is not modelled. */
    method CreateNativeControl() returns (c: NativeCanvasView)
      ensures fresh(c)
      ensures c.userInteractionEnabled && c.gestureRecognizers == [] && !c.ignorePixelScaling
      ensures c.canvasSize == EmptySize && c.paintSurfaceHandlers == 0 && c.redrawRequests == 0
    {
      c := new NativeCanvasView();
    }

    /** The element's invalidate notification: ask the control to redraw. */
    method OnSurfaceInvalidated() returns (outcome: Outcome)
      modifies control
      ensures (outcome == NullReference) == (control == null)
      ensures control != null ==> control.redrawRequests == old(control.redrawRequests) + 1
      ensures control != null ==>
                control.userInteractionEnabled == old(control.userInteractionEnabled)
                && control.gestureRecognizers == old(control.gestureRecognizers)
                && control.ignorePixelScaling == old(control.ignorePixelScaling)
                && control.canvasSize == old(control.canvasSize)
                && control.paintSurfaceHandlers == old(control.paintSurfaceHandlers)
    {
      if control == null {
        return NullReference;
      }
      control.SetNeedsDisplay();
      outcome := Completed;
    }

    /** The element's size query: the control's canvas size, or the empty
        size while there is no control. */
    method OnGetCanvasSize() returns (size: Size)
      ensures control == null ==> size == EmptySize
      ensures control != null ==> size == control.canvasSize
    {
      size := if control != null then control.canvasSize else EmptySize;
    }

    /** Rebinding: the old element loses one subscription to each
        notification, the control is created and wired on first use only, the
        new element's settings are applied, the new element gains one
        subscription to each notification and one redraw is requested. */
    method OnElementChanged(oldElement: FormsCanvasView?, newElement: FormsCanvasView?)
      requires Valid()
      modifies this`control, oldElement, newElement, control
      ensures Valid() && element == old(element)
      ensures unchanged(touchHandler)
      ensures oldElement != null && oldElement != newElement ==>
                oldElement.surfaceInvalidatedHandlers == Unsubscribe(old(oldElement.surfaceInvalidatedHandlers))
                && oldElement.getCanvasSizeHandlers == Unsubscribe(old(oldElement.getCanvasSizeHandlers))
      ensures oldElement != null ==>
                oldElement.enableTouchEvents == old(oldElement.enableTouchEvents)
                && oldElement.ignorePixelScaling == old(oldElement.ignorePixelScaling)
      ensures newElement != null ==>
                newElement.enableTouchEvents == old(newElement.enableTouchEvents)
                && newElement.ignorePixelScaling == old(newElement.ignorePixelScaling)
      ensures newElement != null && newElement != oldElement ==>
                newElement.surfaceInvalidatedHandlers == old(newElement.surfaceInvalidatedHandlers) + 1
                && newElement.getCanvasSizeHandlers == old(newElement.getCanvasSizeHandlers) + 1
      ensures newElement != null && newElement == oldElement ==>
                newElement.surfaceInvalidatedHandlers == Unsubscribe(old(newElement.surfaceInvalidatedHandlers)) + 1
                && newElement.getCanvasSizeHandlers == Unsubscribe(old(newElement.getCanvasSizeHandlers)) + 1
      ensures newElement == null ==> control == old(control) && (control != null ==> unchanged(control))
      ensures old(control) != null ==> control == old(control)
      ensures newElement != null && old(control) == null ==>
                control != null && fresh(control) && control.paintSurfaceHandlers == 1 && control.redrawRequests == 1
                && control.canvasSize == EmptySize
                && control.gestureRecognizers == RecognizersAfter([], touchHandler, newElement.enableTouchEvents)
                && control.userInteractionEnabled
                   == InteractionAfter(true, touchHandler.disablesUserInteraction, newElement.enableTouchEvents)
      ensures newElement != null && old(control) != null ==>
                control.paintSurfaceHandlers == old(control.paintSurfaceHandlers)
                && control.redrawRequests == old(control.redrawRequests) + 1
                && control.canvasSize == old(control.canvasSize)
                && control.gestureRecognizers
                   == RecognizersAfter(old(control.gestureRecognizers), touchHandler, newElement.enableTouchEvents)
                && control.userInteractionEnabled
                   == InteractionAfter(old(control.userInteractionEnabled), touchHandler.disablesUserInteraction,
                                       newElement.enableTouchEvents)
      ensures newElement != null ==>
                control != null && control.ignorePixelScaling == newElement.ignorePixelScaling
                && (touchHandler in control.gestureRecognizers <==> newElement.enableTouchEvents)
                && (touchHandler.disablesUserInteraction ==>
                      control.userInteractionEnabled == newElement.enableTouchEvents)
    {
      if oldElement != null {
        oldElement.surfaceInvalidatedHandlers := Unsubscribe(oldElement.surfaceInvalidatedHandlers);
        oldElement.getCanvasSizeHandlers := Unsubscribe(oldElement.getCanvasSizeHandlers);
      }
      if newElement != null {
        if control == null {
          var nativeControl := CreateNativeControl();
          nativeControl.paintSurfaceHandlers := nativeControl.paintSurfaceHandlers + 1;
          control := nativeControl;
        }
        touchHandler.SetEnabled(control, newElement.enableTouchEvents);
        control.ignorePixelScaling := newElement.ignorePixelScaling;
        newElement.surfaceInvalidatedHandlers := newElement.surfaceInvalidatedHandlers + 1;
        newElement.getCanvasSizeHandlers := newElement.getCanvasSizeHandlers + 1;
        var _ := OnSurfaceInvalidated();
      }
    }

    /** A change of one of the element's properties: IgnorePixelScaling is
        copied to the control, EnableTouchEvents re-enables or disables touch
        handling on it, any other property is ignored. */
    method OnElementPropertyChanged(property: PropertyName) returns (outcome: Outcome)
      requires Valid()
      modifies control
      ensures Valid() && unchanged(touchHandler)
      ensures outcome == NullReference <==>
                (property == IgnorePixelScalingProperty && (control == null || element == null))
                || (property == EnableTouchEventsProperty && element == null)
      ensures property == IgnorePixelScalingProperty && outcome == Completed ==>
                control.ignorePixelScaling == element.ignorePixelScaling
                && control.userInteractionEnabled == old(control.userInteractionEnabled)
                && control.gestureRecognizers == old(control.gestureRecognizers)
                && control.canvasSize == old(control.canvasSize)
                && control.paintSurfaceHandlers == old(control.paintSurfaceHandlers)
                && control.redrawRequests == old(control.redrawRequests)
      ensures property == EnableTouchEventsProperty && outcome == Completed && control != null ==>
                control.gestureRecognizers
                  == RecognizersAfter(old(control.gestureRecognizers), touchHandler, element.enableTouchEvents)
                && control.userInteractionEnabled
                   == InteractionAfter(old(control.userInteractionEnabled), touchHandler.disablesUserInteraction,
                                       element.enableTouchEvents)
                && control.ignorePixelScaling == old(control.ignorePixelScaling)
                && control.canvasSize == old(control.canvasSize)
                && control.paintSurfaceHandlers == old(control.paintSurfaceHandlers)
                && control.redrawRequests == old(control.redrawRequests)
      ensures property.OtherProperty? || outcome == NullReference ==> control == null || unchanged(control)
    {
      outcome := Completed;
      match property
      case IgnorePixelScalingProperty =>
        if control == null || element == null {
          return NullReference;
        }
        control.ignorePixelScaling := element.ignorePixelScaling;
      case EnableTouchEventsProperty =>
        if element == null {
          return NullReference;
        }
        touchHandler.SetEnabled(control, element.enableTouchEvents);
      case OtherProperty(_) =>
    }

    /** Teardown: the element loses one subscription to each notification,
        the control's paint handler is unsubscribed and the touch handler is
        disabled on the control and detached. */
    method Dispose()
      requires Valid()
      modifies element, control, touchHandler`attached
      ensures Valid() && !touchHandler.attached
      ensures touchHandler.touches == old(touchHandler.touches) && touchHandler.log == old(touchHandler.log)
      ensures element != null ==>
                element.surfaceInvalidatedHandlers == Unsubscribe(old(element.surfaceInvalidatedHandlers))
                && element.getCanvasSizeHandlers == Unsubscribe(old(element.getCanvasSizeHandlers))
                && element.enableTouchEvents == old(element.enableTouchEvents)
                && element.ignorePixelScaling == old(element.ignorePixelScaling)
      ensures control != null ==>
                control.paintSurfaceHandlers == Unsubscribe(old(control.paintSurfaceHandlers))
                && control.gestureRecognizers == RecognizersAfter(old(control.gestureRecognizers), touchHandler, false)
                && touchHandler !in control.gestureRecognizers
                && control.redrawRequests == old(control.redrawRequests)
      ensures control != null ==>
                control.userInteractionEnabled
                  == InteractionAfter(old(control.userInteractionEnabled), touchHandler.disablesUserInteraction, false)
                && control.ignorePixelScaling == old(control.ignorePixelScaling)
                && control.canvasSize == old(control.canvasSize)
    {
      if element != null {
        element.surfaceInvalidatedHandlers := Unsubscribe(element.surfaceInvalidatedHandlers);
        element.getCanvasSizeHandlers := Unsubscribe(element.getCanvasSizeHandlers);
      }
      if control != null {
        control.paintSurfaceHandlers := Unsubscribe(control.paintSurfaceHandlers);
      }
      touchHandler.Detach(control);
    }
  }

  /** Binding a fresh renderer to one element and then to another leaves the
      first with no subscription and the second with exactly one of each,
      behind a single control that was asked to redraw once per binding. */
  method BindThenRebind(first: FormsCanvasView, second: FormsCanvasView) returns (r: CanvasViewRenderer)
    requires first != second
    requires first.surfaceInvalidatedHandlers == 0 && first.getCanvasSizeHandlers == 0
    requires second.surfaceInvalidatedHandlers == 0 && second.getCanvasSizeHandlers == 0
    modifies first, second
    ensures first.surfaceInvalidatedHandlers == 0 && first.getCanvasSizeHandlers == 0
    ensures second.surfaceInvalidatedHandlers == 1 && second.getCanvasSizeHandlers == 1
    ensures r.control != null && r.control.paintSurfaceHandlers == 1 && r.control.redrawRequests == 2
  {
    r := new CanvasViewRenderer();
    r.element := first;
    r.OnElementChanged(null, first);
    r.element := second;
    r.OnElementChanged(first, second);
  }
}
