# SkiaSharp canvas renderer and touch handler (iOS)

This project models the iOS side of a Xamarin.Forms test application that
draws with SkiaSharp. There are two parts:

- **SKTouchHandler** is a UIKit gesture recognizer attached to the native
  canvas control. For every native touch in a batch it raises a
  `Pressed`, `Moved`, `Released` or `Cancelled` event towards the
  cross-platform element. It tracks the touches whose press the consumer
  marked handled, and cancels them all when the recognizer is reset.
  `SetEnabled` attaches it to a view or detaches it from one, and may
  override the view's interaction flag. `Detach` disables it and drops its
  callbacks, after which no event reaches anyone.
- **TestSKCanvasViewRendererBase** binds a cross-platform canvas element to
  one native control:
  - it creates the control when it first binds an element;
  - it keeps the element's "surface invalidated" and "get canvas size"
    notifications subscribed to itself;
  - it forwards the `IgnorePixelScaling` and `EnableTouchEvents` property
    changes to the control;
  - it tears everything down on dispose.

  The concrete renderer sets `DisablesUserInteraction` on its touch
  handler when it is constructed.

The Dafny modules are:

- `TouchEvents` (`touch_events.dfy`) holds the semantic events and the log
  of what the consumer was shown. `Active` replays that log into the set of
  touches that should be tracked.
- `GestureRecognizers` (`gesture_recognizers.dfy`) holds the view's
  recognizer list and the change `SetEnabled` makes to it.
- `NativeViews` (`native_view.dfy`) holds the native canvas control: its
  interaction flag, recognizers, pixel scaling, canvas size, paint
  subscriptions and redraw requests.
- `TouchHandling` (`touch_handler.dfy`) holds the `TouchHandler` class.
  It keeps the invariant that, while attached, the tracked touches are
  exactly the ones the log leaves active. After `Detach` they stay within
  that set.
- `CanvasRenderer` (`canvas_renderer.dfy`) holds the renderer class, the
  cross-platform element it binds, and the pixel scaling of touch
  locations.

Other modelling choices:

- A native touch is its integer handle.
- A batch of touches is the sequence in which the `NSSet` is enumerated.
- The consumer (the element's touch callback) is an oracle. For each event
  it says whether it set `Handled`.
- A `NullReferenceException` the code would raise is an `Outcome` value,
  `NullReference`.

The code reports moves, releases and cancellations for every touch of the
batch, tracked or not. So a touch whose press was rejected is still
reported when it moves or lifts.

## Model

| member | source | states |
|---|---|---|
| TouchEvents.ActiveIffPressedSinceLift | TestSkiaSharp.iOS/Renderers/TestScrollViewRenderer.cs:82-141 | a touch is active after a sequence of deliveries exactly when some accepted press of it is followed by no release or cancellation of it |
| TouchEvents.ActiveAfterPresses | TestSkiaSharp.iOS/Renderers/TestScrollViewRenderer.cs:86-96 | reporting a batch of presses adds exactly the touches whose press the consumer handled to the active set, and leaves the rest of it unchanged |
| TouchEvents.ActiveAfterMoves | TestSkiaSharp.iOS/Renderers/TestScrollViewRenderer.cs:103-106 | reporting a batch of moves leaves the active set unchanged |
| TouchEvents.ActiveAfterLifts | TestSkiaSharp.iOS/Renderers/TestScrollViewRenderer.cs:113-117 | reporting a batch of releases or cancellations removes exactly the batch's touches from the active set, whatever the consumer answers |
| GestureRecognizers.Without | TestSkiaSharp.iOS/Renderers/TestScrollViewRenderer.cs:65-68 | removing a recognizer keeps every other recognizer and drops that one; if it was absent the list is unchanged |
| GestureRecognizers.RecognizersAfter | TestSkiaSharp.iOS/Renderers/TestScrollViewRenderer.cs:61-68 | afterwards the handler is among the recognizers exactly when touch events are enabled; every other recognizer is kept; nothing changes if the handler was already in the wanted state |
| TouchHandling.InteractionAfter | TestSkiaSharp.iOS/Renderers/TestScrollViewRenderer.cs:57-60 | with DisablesUserInteraction the interaction flag equals the request; without it, the flag ends up as the old flag or the request, so a request can switch interaction on but never off |
| TouchHandling.SetEnabledIdempotent | TestSkiaSharp.iOS/Renderers/TestScrollViewRenderer.cs:53-70 | repeating SetEnabled with the same request changes neither the interaction flag nor the recognizer list any further |
| TouchHandling.TouchHandler.constructor | TestSkiaSharp.iOS/Renderers/TestScrollViewRenderer.cs:43-49 | a new handler tracks no touch, has both callbacks, does not disable user interaction and has shown nothing to the consumer |
| TouchHandling.TouchHandler.SetEnabled | TestSkiaSharp.iOS/Renderers/TestScrollViewRenderer.cs:53-70 | a null view is left alone; otherwise the view's flag becomes InteractionAfter and its recognizers become RecognizersAfter, and nothing else on the view changes |
| TouchHandling.TouchHandler.Detach | TestSkiaSharp.iOS/Renderers/TestScrollViewRenderer.cs:72-80 | the handler is removed from the view's recognizers and becomes detached; tracked touches and the delivery log are unchanged, and the invariant still holds |
| TouchHandling.TouchHandler.FireEvent | TestSkiaSharp.iOS/Renderers/TestScrollViewRenderer.cs:143-156 | while attached, exactly one event (touch id, action, contact flag) is shown to the consumer and the answer is its Handled value; once detached, nobody is called and the answer is false |
| TouchHandling.TouchHandler.TouchesBegan | TestSkiaSharp.iOS/Renderers/TestScrollViewRenderer.cs:82-97 | every touch of the batch is reported, in order, as Pressed and in contact; exactly the touches whose press was handled are added to the tracked set; the invariant is kept |
| TouchHandling.TouchHandler.TouchesMoved | TestSkiaSharp.iOS/Renderers/TestScrollViewRenderer.cs:99-107 | every touch of the batch is reported, in order, as Moved and in contact; the tracked set does not change |
| TouchHandling.TouchHandler.TouchesEnded | TestSkiaSharp.iOS/Renderers/TestScrollViewRenderer.cs:109-118 | every touch of the batch is reported, in order, as Released and no longer in contact; every touch of the batch leaves the tracked set, even when the handler is detached |
| TouchHandling.TouchHandler.TouchesCancelled | TestSkiaSharp.iOS/Renderers/TestScrollViewRenderer.cs:120-129 | every touch of the batch is reported, in order, as Cancelled and no longer in contact; every touch of the batch leaves the tracked set |
| TouchHandling.TouchHandler.Reset | TestSkiaSharp.iOS/Renderers/TestScrollViewRenderer.cs:131-141 | each previously tracked touch gets exactly one Cancelled event, in some enumeration order; afterwards no touch is tracked |
| TouchHandling.TouchHandler.CancelEach | TestSkiaSharp.iOS/Renderers/TestScrollViewRenderer.cs:135-138 | the loop visits every tracked touch exactly once and reports each one as Cancelled |
| TouchHandling.DistinctLength | TestSkiaSharp.iOS/Renderers/TestScrollViewRenderer.cs:135-138 | an enumeration without repetitions has as many events as the set has touches, so Reset sends exactly one cancellation per tracked touch |
| TouchHandling.BeganAfterDetach | TestSkiaSharp.iOS/Renderers/TestScrollViewRenderer.cs:72-97 | after Detach, a batch of presses reaches no consumer and tracks no touch |
| TouchHandling.PressesWithHandleEverything | TestSkiaSharp/MainPage.xaml.cs:16-19 | with the example page's consumer, which marks every event handled, an attached handler tracks every touch of a batch of presses, and each of them is active in the log |
| NativeViews.NativeCanvasView.constructor | TestSkiaSharp.iOS/Renderers/TestScrollViewRenderer.cs:214-217 | a new control is interactive, has no recognizers and no subscriptions, does not ignore pixel scaling, has an empty canvas size and has had no redraw requests |
| NativeViews.NativeCanvasView.AddGestureRecognizer | TestSkiaSharp.iOS/Renderers/TestScrollViewRenderer.cs:63 | the recognizer is appended to the view's list |
| NativeViews.NativeCanvasView.RemoveGestureRecognizer | TestSkiaSharp.iOS/Renderers/TestScrollViewRenderer.cs:67 | the recognizer is taken out of the view's list; the others stay, in order |
| NativeViews.NativeCanvasView.SetNeedsDisplay | TestSkiaSharp.iOS/Renderers/TestScrollViewRenderer.cs:271 | the view has one more redraw request |
| CanvasRenderer.ScaledCoord | TestSkiaSharp.iOS/Renderers/TestScrollViewRenderer.cs:252-261 | the location is unchanged when pixel scaling is ignored or the scale factor is 1; otherwise dividing by a non-zero factor gives back the location in points |
| CanvasRenderer.CanvasViewRenderer.constructor | TestSkiaSharp.iOS/Renderers/TestScrollViewRenderer.cs:20-23 | a new renderer has no control and no element; its fresh touch handler is attached, tracks nothing and disables user interaction |
| CanvasRenderer.CanvasViewRenderer.SetDisablesUserInteraction | TestSkiaSharp.iOS/Renderers/TestScrollViewRenderer.cs:177-180 | the touch handler's DisablesUserInteraction becomes the argument |
| CanvasRenderer.CanvasViewRenderer.CreateNativeControl | TestSkiaSharp.iOS/Renderers/TestScrollViewRenderer.cs:25-30 | the control is new and in its default state |
| CanvasRenderer.CanvasViewRenderer.OnSurfaceInvalidated | TestSkiaSharp.iOS/Renderers/TestScrollViewRenderer.cs:269-272 | a null reference is raised exactly when there is no control; otherwise the control gets one more redraw request and nothing else on it changes |
| CanvasRenderer.CanvasViewRenderer.OnGetCanvasSize | TestSkiaSharp.iOS/Renderers/TestScrollViewRenderer.cs:274-281 | the answer is the control's canvas size, or the empty size when there is no control |
| CanvasRenderer.CanvasViewRenderer.OnElementChanged | TestSkiaSharp.iOS/Renderers/TestScrollViewRenderer.cs:182-212 | the old element loses one subscription to each notification. Given a new element: the control is created (empty canvas size) and subscribed to paint only if missing; its interaction flag becomes InteractionAfter and its recognizers RecognizersAfter for the element's EnableTouchEvents, so the handler is among them exactly when touch events are enabled; pixel scaling is copied; the new element gains one subscription to each notification; one redraw is requested |
| CanvasRenderer.CanvasViewRenderer.OnElementPropertyChanged | TestSkiaSharp.iOS/Renderers/TestScrollViewRenderer.cs:219-232 | IgnorePixelScaling is copied to the control and nothing else on it changes; a null reference is raised when the control or element is missing. EnableTouchEvents re-runs SetEnabled (flag per InteractionAfter, recognizers per RecognizersAfter, the rest of the control unchanged) and raises a null reference only when the element is missing. Any other property changes nothing |
| CanvasRenderer.CanvasViewRenderer.Dispose | TestSkiaSharp.iOS/Renderers/TestScrollViewRenderer.cs:234-250 | the element loses one subscription to each notification; the control loses its paint subscription and the touch handler, its interaction flag becomes InteractionAfter for a disable request, and its pixel scaling, canvas size and redraw count are unchanged; the handler is detached with its tracked touches unchanged |
| CanvasRenderer.BindThenRebind | TestSkiaSharp.iOS/Renderers/TestScrollViewRenderer.cs:182-212 | binding one element and then another leaves the first with no subscription and the second with exactly one of each; one control, subscribed to paint once, was asked to redraw twice |

## Left out

- The calls to the base class in `TouchesBegan`, `TouchesMoved`, `TouchesEnded`, `TouchesCancelled` and `Reset` are not modelled. Neither is UIKit's recognizer state machine.
- `IgnoreTouch` for a rejected press is not modelled. Its effect belongs to UIKit, so the model only leaves that touch untracked.
- A touch's location (`LocationInView`) and the point passed in each event are not modelled. Events carry the touch id, the action and the contact flag only.
- A touch id is an `int`. The conversion of the native handle to a 64-bit integer is not modelled.
- The consumer is a pure oracle. If the consumer re-enters the handler or the renderer, that is not modelled.
- The consumer's own null reference when the renderer has no element is not modelled.
- The order of `HashSet` enumeration in `Reset` is not fixed by the code. The model leaves it open: any enumeration that lists each tracked touch once is allowed.
- A null `GestureRecognizers` array is treated as an empty list. `Contains` on a null array behaves as "not present", as with `?.` in the code.
- UIKit keeps a recognizer on only one view at a time. The model does not capture this: each view has its own recognizer list.
- CanvasRenderer.ScaledCoord: works over reals. It does not model the conversion to `float` in the result, nor the null reference raised when the element or the control is missing.
- Forwarding a paint request to the element (`OnPaintSurface`) is not modelled. Only the control's paint subscription count is kept.
- `CreateNativeControl` creates the control by reflection and sets `Opaque` to false. Neither is modelled; the control is created directly.
- The base `OnElementChanged`, `OnElementPropertyChanged` and `Dispose(bool)` calls are not modelled. Neither is the host's `SetNativeControl` beyond storing the control, nor the host setting `Element` before `OnElementChanged`.
- An event unsubscription (`-=`) is a decrement that stops at zero. Which delegate instance is removed is not modelled.
- The surrounding Xamarin.Forms application and the other platform projects are not part of this model.
