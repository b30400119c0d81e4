/** The native canvas control (the UIKit view that draws with SkiaSharp),
    reduced to the state that the renderer and the touch handler touch. */
module NativeViews {
  import opened GestureRecognizers

  /** SKSize: the canvas size in pixels. */
  datatype Size = Size(width: real, height: real)

  /** SKSize.Empty. */
  const EmptySize := Size(0.0, 0.0)

  class NativeCanvasView {
    /** UIView.UserInteractionEnabled. */
    var userInteractionEnabled: bool
    /** UIView.GestureRecognizers; an absent list is the empty list. */
    var gestureRecognizers: seq<object>
    /** SKCanvasView.IgnorePixelScaling. */
    var ignorePixelScaling: bool
    /** SKCanvasView.CanvasSize. */
    var canvasSize: Size
    /** Handlers subscribed to SKCanvasView.PaintSurface. */
    var paintSurfaceHandlers: nat
    /** Number of SetNeedsDisplay requests made so far. */
    var redrawRequests: nat

    /** A newly created control: interactive, no recognizers, nothing
        subscribed, nothing drawn yet. */
    constructor ()
      ensures userInteractionEnabled && gestureRecognizers == [] && !ignorePixelScaling
      ensures canvasSize == EmptySize && paintSurfaceHandlers == 0 && redrawRequests == 0
    {
      userInteractionEnabled := true;
      gestureRecognizers := [];
      ignorePixelScaling := false;
      canvasSize := EmptySize;
      paintSurfaceHandlers := 0;
      redrawRequests := 0;
    }

    /** UIView.AddGestureRecognizer. */
    method AddGestureRecognizer(r: object)
      modifies this`gestureRecognizers
      ensures gestureRecognizers == old(gestureRecognizers) + [r]
    {
      gestureRecognizers := gestureRecognizers + [r];
    }

    /** UIView.RemoveGestureRecognizer. */
    method RemoveGestureRecognizer(r: object)
      modifies this`gestureRecognizers
      ensures gestureRecognizers == Without(old(gestureRecognizers), r)
    {
      gestureRecognizers := Without(gestureRecognizers, r);
    }

    /** UIView.SetNeedsDisplay: asks for one more redraw. */
    method SetNeedsDisplay()
      modifies this`redrawRequests
      ensures redrawRequests == old(redrawRequests) + 1
    {
      redrawRequests := redrawRequests + 1;
    }
  }
}
