# Window borders of Tizen NUI, modelled in Dafny

This project models the client-side window border of Tizen NUI. It covers
two parts.

- **The border host.** This is the part of `Window` in `BorderWindow.cs`. It
  enables a border once. To do so it grows the real window by the border's
  footprint (a line of `BorderLineThickness` on the left, the right and the
  top, and the `BorderHeight` strip below), builds the two border layers, and rolls
  back when building fails. It also:
  - classifies touch points into the ten `BorderDirection`s;
  - clamps every resize to `MinSize`/`MaxSize` and re-sets the size only when
    clamping changed it;
  - converts 16-bit sizes between the bordered and the real window size;
  - runs the overlay machine. In overlay mode a maximized window hides its
    border. A touch release summons the border, and a 3-second timer hides it
    again.
- **The default border policy.** This is `DefaultBorder.cs`. It holds the
  border geometry defaults: line 5, touch band 20, height 50, `MinSize`
  (100, 0), no `MaxSize`, overlay mode off. It also holds:
  - the pan and pinch gestures on the border;
  - the five icon callbacks, and `UpdateIcons`, which picks the dark or light
    icons and the window's transparency;
  - the two-finger long press. When two fingers rest on the window, a timer
    opens a "window gesture" session. The whole window is then covered by a
    view that takes taps and pans. A pan restores a maximized window and
    otherwise asks the server to move it, a double tap
    toggles maximization, and any other tap closes the session. Which gesture
    holds the session is ranked by `currentGesture` (none < tap < pan <
    pinch).

Modules:
- `Geometry` and `Events` (`geometry.dfy`) hold the shared vocabulary.
- `BorderHost` (`border_host.dfy`) holds the host. `Window` is a class whose
  two fields, `env` (the native window) and `host` (the border fields), are
  updated in place. Pure functions such as `Direction`, `ClampToLimits`, the
  converters and `OverlayModeEffect` specify the methods.
- `DefaultBorderPolicy` (`default_border.dfy`) holds the policy as the class
  `DefaultBorder`. Its fields mirror the source's fields. Its `Valid()` ties
  the long-press session to the window:
  - a running timer means no session is open;
  - while the policy is attached and not disposed, its intercept handler is
    subscribed exactly when no session is open;
  - while the policy is attached and not disposed, the full-window gesture
    view is present exactly while a session is open.

Event subscriptions are counted, because a C# event is a list of handlers:
`+=` adds one more copy and `-=` removes one copy. Floats are exact reals, and
the C# `(int)` cast truncates toward zero (`TruncateToInt`). The `(ushort)`
casts wrap modulo 2^16 (`ToUShort`).

Two details of the code that the model keeps as written:
- `OnWinTapGestureDetected` toggles maximization on exactly two taps
  (DefaultBorder.cs:589), although the tap detector accepts up to three
  (DefaultBorder.cs:571); one and three taps close the session.
- Under overlay mode on a maximized window only real-to-bordered is skipped
  (BorderWindow.cs:427); bordered-to-real still adds the footprint
  (BorderWindow.cs:416).

The stateful host subscribes `OnWinInterceptTouch` through the corrected
count of the finding below, so at most one copy is ever subscribed; the count
as written is modelled beside it (`OverlayHandlersAsWritten`).

`WindowSize` is read and written through the two converters, so a few
consequences of the code as written show up in the contracts:
- enabling an overlay-mode border on a maximized window grows the window by
  twice the footprint, and the rollback does not shrink it;
- a border drag changes the real size by exactly the drag only while the
  window is not overlaid-maximized (`AdjustWindowSize`).

## Model

| member | source | states |
|---|---|---|
| Geometry.BorderGeometry.Footprint | src/Tizen.NUI/src/public/Window/BorderWindow.cs:132 | the border adds 2 × line thickness to the width and border height + line thickness to the height |
| Geometry.DefaultBorderGeometry | src/Tizen.NUI/src/public/Window/DefaultBorder.cs:45-50 | the default geometry is line 5, touch band 20, height 50, MinSize (100, 0), no MaxSize, overlay mode off |
| Geometry.TruncateToInt | src/Tizen.NUI/src/public/Window/DefaultBorder.cs:295-307 | the `(int)` cast of a displacement rounds toward zero: it is the floor for positive values and the ceiling for negative ones |
| BorderHost.Window.GetDirection | src/Tizen.NUI/src/public/Window/BorderWindow.cs:191-242 | for the window's current WindowSize and policy, a point asks for a resize exactly when it lies in one of the touch bands; otherwise it is Move exactly when it lies below the content height, in the border strip, and None inside the content |
| BorderHost.Direction | src/Tizen.NUI/src/public/Window/BorderWindow.cs:191-242 | for each of the ten directions, the direction returned is that one exactly when the point lies in its zone; the zones follow from the first-match order of the source's tests, corners first |
| BorderHost.LeftBandResizesLeft | src/Tizen.NUI/src/public/Window/BorderWindow.cs:196-218 | a point in the left touch band is always a left-side resize (bottom-left, top-left or left), never Move or None |
| BorderHost.BottomCornerAndEdgeThresholdsDiffer | src/Tizen.NUI/src/public/Window/BorderWindow.cs:196-228 | the bottom corners start a line thickness higher than the bottom edge: with the defaults and a 400×300 window, y = 333 is BottomLeft near the left but Move in the middle, and Bottom starts above 335 |
| BorderHost.ClampToLimits | src/Tizen.NUI/src/public/Window/BorderWindow.cs:329-339 | the size a resize is corrected to, MinSize first and then MaxSize; MaxSize always holds afterwards, even when it conflicts with MinSize |
| BorderHost.ClampRespectsLimits | src/Tizen.NUI/src/public/Window/BorderWindow.cs:329-339 | with MinSize ≤ MaxSize both limits hold after clamping, and a size is unchanged exactly when it already respected them; each component is the requested one or a limit |
| BorderHost.ClampIdempotent | src/Tizen.NUI/src/public/Window/BorderWindow.cs:329-344 | clamping a clamped size changes nothing, so the resize that the correction triggers re-sets nothing |
| BorderHost.Window.ClampSize | src/Tizen.NUI/src/public/Window/BorderWindow.cs:329-339 | the in-place MinSize-then-MaxSize updates compute ClampToLimits |
| BorderHost.ToUShort | src/Tizen.NUI/src/public/Window/BorderWindow.cs:418-419 | the `(ushort)` cast is the identity on 0..65535 and is otherwise congruent to its argument modulo 2^16 |
| BorderHost.BorderedToReal | src/Tizen.NUI/src/public/Window/BorderWindow.cs:414-423 | with no border the size is unchanged; otherwise, when nothing overflows, width and height grow by the footprint |
| BorderHost.RealToBordered | src/Tizen.NUI/src/public/Window/BorderWindow.cs:425-434 | with no border, or when overlay mode is on and the window is maximized, the size is unchanged; otherwise, when nothing underflows, the footprint is removed |
| BorderHost.ConversionRoundTrip | src/Tizen.NUI/src/public/Window/BorderWindow.cs:414-434 | wherever the border is drawn, each conversion undoes the other on every 16-bit size, wrap-around included |
| BorderHost.BorderedThenReal | src/Tizen.NUI/src/public/Window/BorderWindow.cs:414-434 | bordered-to-real followed by real-to-bordered gives the size back |
| BorderHost.RealThenBordered | src/Tizen.NUI/src/public/Window/BorderWindow.cs:414-434 | real-to-bordered followed by bordered-to-real gives the size back |
| BorderHost.OverlayMaximizedConversionDrifts | src/Tizen.NUI/src/public/Window/BorderWindow.cs:414-434 | when overlay mode is on and the window is maximized, only real-to-bordered is skipped, so a round trip changes the width whenever the horizontal footprint is not a multiple of 2^16 |
| BorderHost.AdjustWindowSize | src/Tizen.NUI/src/public/Window/BorderWindow.cs:414-434 | adding d to WindowSize adds exactly d to the real size, except when overlay mode is on and the window is maximized; then it adds d plus the footprint |
| BorderHost.AccessorsMatchConverters | src/Tizen.NUI/src/public/Window/BorderWindow.cs:414-423 | on sizes that do not overflow 16 bits, the integer setter agrees with the 16-bit converter |
| BorderHost.EnableSizes | src/Tizen.NUI/src/public/Window/BorderWindow.cs:132-136 | growing WindowSize by the footprint grows the real window by it, or by twice it when overlay mode is on and the window is maximized; the rollback returns the original size only in the first case |
| BorderHost.OverlayHandlersAsWritten | src/Tizen.NUI/src/public/Window/BorderWindow.cs:290-322 | as written, enabling the overlay always adds one more copy of the touch handler, and disabling removes at most one |
| BorderHost.OverlayHandlerLeaks | src/Tizen.NUI/src/public/Window/BorderWindow.cs:290-322 | as written, two maximized resizes followed by a restoring one leave the handler subscribed |
| BorderHost.OverlayHandlers | src/Tizen.NUI/src/public/Window/BorderWindow.cs:290-322 | corrected, with at most one copy before, the count afterwards is 1 when enabling and 0 when disabling |
| BorderHost.OverlayHandlersFollowLastResize | src/Tizen.NUI/src/public/Window/BorderWindow.cs:326-362 | corrected, after any non-empty series of resizes the handler is subscribed exactly when the last resize found the window overlaid-maximized |
| BorderHost.Issue | src/Tizen.NUI/src/public/Window/DefaultBorder.cs:244-256 | a request to the compositor is appended to the log; only Maximize changes the maximized state, and nothing else changes |
| BorderHost.WithBottomLayer | src/Tizen.NUI/src/public/Window/BorderWindow.cs:366-382 | after GetBorderWindowBottomLayer the bottom layer exists and the border is unchanged |
| BorderHost.HostInvariant | src/Tizen.NUI/src/public/Window/BorderWindow.cs:101-153 | what the host keeps between events: a border is set exactly when the window is a border window, and a border window has a bottom layer; without one there is no root view, no handler and no layer; the Resized and root-view handlers are subscribed at most once; the overlay timer exists exactly while the border is summoned; the overlay handler is subscribed only in overlay mode, and at most once under the corrected count |
| BorderHost.OverlayModeEffect | src/Tizen.NUI/src/public/Window/BorderWindow.cs:290-322 | with the corrected subscription: OverlayMode changes neither the border nor the layers, and keeps the host invariant (timer ⇔ summoned, at most one handler, handler only in overlay mode) |
| BorderHost.PolicyOrDefault | src/Tizen.NUI/src/public/Window/BorderWindow.cs:109-113 | a null policy is replaced by a new DefaultBorder, whose geometry is the defaults; a given policy is kept |
| BorderHost.BorderEnabled | src/Tizen.NUI/src/public/Window/BorderWindow.cs:101-153 | an enabled host keeps its invariant and has the policy's geometry, one Resized handler, a shown root view, a root-view handler only in overlay mode, and a bottom layer of size (w + 2L, h + L) for WindowSize (w, h); nothing else changes |
| BorderHost.EnableStepsCompose | src/Tizen.NUI/src/public/Window/BorderWindow.cs:111-177 | the field updates of EnableBorder and a successful CreateBorder add up to BorderEnabled |
| BorderHost.RollbackRestores | src/Tizen.NUI/src/public/Window/BorderWindow.cs:134-141 | the rollback after a failed CreateBorder restores every host field |
| BorderHost.Window.GetBorderWindowBottomLayer | src/Tizen.NUI/src/public/Window/BorderWindow.cs:366-382 | the bottom layer is created on first use with size (w + 2L, h + L) for the current WindowSize and is lowered to the bottom; later calls change nothing |
| BorderHost.Window.GetBorderWindowRootLayer | src/Tizen.NUI/src/public/Window/BorderWindow.cs:384-401 | the root layer is created on first use with size (w, h − BorderHeight − L); later calls change nothing, and no other field changes |
| BorderHost.Window.CreateBorder | src/Tizen.NUI/src/public/Window/BorderWindow.cs:156-182 | succeeds exactly when the root view survives; on success the new root view is present and shown, its handler is subscribed only in overlay mode, and the bottom layer exists; on failure nothing changes |
| BorderHost.Window.EnableBorder | src/Tizen.NUI/src/public/Window/BorderWindow.cs:101-153 | a second enable fails and changes nothing; otherwise the real window grows by the footprint (by twice the footprint when overlay mode is on and the window is maximized), becomes transparent and floating, and the host becomes BorderEnabled; when building fails nothing in the host changes |
| BorderHost.Window.OverlayInterceptTouch | src/Tizen.NUI/src/public/Window/BorderWindow.cs:245-252 | the touch is never consumed |
| BorderHost.Window.OnTick | src/Tizen.NUI/src/public/Window/BorderWindow.cs:254-267 | the bottom layer is lowered, the root view hidden, and the timer and the summoned flag cleared together; the invariant is kept |
| BorderHost.Window.OnWinInterceptTouch | src/Tizen.NUI/src/public/Window/BorderWindow.cs:270-288 | a release while the border is hidden and no timer runs starts the one timer, raises the border and shows the root view; any other touch changes nothing; the touch is never consumed |
| BorderHost.Window.OverlayMode | src/Tizen.NUI/src/public/Window/BorderWindow.cs:290-322 | with the corrected subscription: in overlay mode, the handler is subscribed once when enabling and not at all when disabling; disabling also clears the timer and the summoned flag and lowers the layer; without overlay mode nothing changes |
| BorderHost.Window.OnBorderWindowResized | src/Tizen.NUI/src/public/Window/BorderWindow.cs:326-364 | the forwarded size is ClampToLimits of the event's size; WindowSize is re-set only when clamping changed it; the layers are sized (the frame omitted when overlaid-maximized); with the corrected subscription, the overlay is switched on exactly when overlay mode is on and the window is maximized |
| BorderHost.Window.SizeLayers | src/Tizen.NUI/src/public/Window/BorderWindow.cs:348-360 | the root layer takes the forwarded size; the bottom layer takes it too when overlaid, and otherwise adds the footprint |
| BorderHost.Window.DisposeBorder | src/Tizen.NUI/src/public/Window/BorderWindow.cs:403-412 | the Resized handler is removed, the root-view handler too in overlay mode, and the bottom layer is disposed |
| BorderHost.Window.ConvertBorderWindowSizeToRealWindowSize | src/Tizen.NUI/src/public/Window/BorderWindow.cs:414-423 | the pair is updated in place to BorderedToReal of its old value |
| BorderHost.Window.ConvertRealWindowSizeToBorderWindowSize | src/Tizen.NUI/src/public/Window/BorderWindow.cs:425-434 | the pair is updated in place to RealToBordered of its old value |
| DefaultBorderPolicy.MayAct | src/Tizen.NUI/src/public/Window/DefaultBorder.cs:584-611 | with no holder any gesture may act; a holder may act again; a tap is blocked by a pan or pinch, and a pan only by a pinch |
| DefaultBorderPolicy.PinchRequest | src/Tizen.NUI/src/public/Window/DefaultBorder.cs:242-257 | a finished pinch maximizes exactly when it did not shrink; when it shrank it restores a maximized window and minimizes any other |
| DefaultBorderPolicy.PinchOutThenInRestores | src/Tizen.NUI/src/public/Window/DefaultBorder.cs:232-260 | pinching out leaves the window maximized, and pinching in afterwards restores it |
| DefaultBorderPolicy.PanResizeDelta | src/Tizen.NUI/src/public/Window/DefaultBorder.cs:291-304 | a drag changes the width only for directions that move a left or right edge, and the height only for those that move a top or bottom edge |
| DefaultBorderPolicy.BorderPanStartEnv | src/Tizen.NUI/src/public/Window/DefaultBorder.cs:270-287 | None asks nothing; a resize direction asks for a server resize in that direction; Move restores a maximized window or asks for a server move, and always leaves it unmaximized |
| DefaultBorderPolicy.BorderDragEnv | src/Tizen.NUI/src/public/Window/DefaultBorder.cs:289-309 | None changes nothing; Move shifts the position by the truncated displacement; a resize sets WindowSize to its old value plus PanResizeDelta |
| DefaultBorderPolicy.BorderDragResizesByDelta | src/Tizen.NUI/src/public/Window/DefaultBorder.cs:291-304 | unless overlay mode is on and the window is maximized, a drag changes the real window size by exactly PanResizeDelta |
| DefaultBorderPolicy.ClearedEnv | src/Tizen.NUI/src/public/Window/DefaultBorder.cs:634-645 | closing a session removes the gesture view and re-subscribes the handler once; with no session open nothing changes |
| DefaultBorderPolicy.DefaultBorder.constructor | src/Tizen.NUI/src/public/Window/DefaultBorder.cs:141-148 | the defaults and the initial field values: no window, no direction, scale 0, no session, no timer, no gesture, not disposed |
| DefaultBorderPolicy.DefaultBorder.SetBorderWindow | src/Tizen.NUI/src/public/Window/BorderWindow.cs:146 | sets BorderWindow and leaves every other field alone |
| DefaultBorderPolicy.DefaultBorder.CreateBorderView | src/Tizen.NUI/src/public/Window/DefaultBorder.cs:155-229 | a null root view changes nothing; otherwise the border is built with the light icons |
| DefaultBorderPolicy.DefaultBorder.OnCreated | src/Tizen.NUI/src/public/Window/DefaultBorder.cs:484-518 | a null root view changes nothing; otherwise the policy is attached with no session open and its handler is subscribed once |
| DefaultBorderPolicy.DefaultBorder.AddInterceptGesture | src/Tizen.NUI/src/public/Window/DefaultBorder.cs:522-526 | no session is open and one more copy of the handler is subscribed |
| DefaultBorderPolicy.DefaultBorder.OnPinchGestureDetected | src/Tizen.NUI/src/public/Window/DefaultBorder.cs:232-260 | a start records the scale; an end issues PinchRequest for the recorded scale; a null event or another state changes nothing |
| DefaultBorderPolicy.DefaultBorder.OnPanGestureDetected | src/Tizen.NUI/src/public/Window/DefaultBorder.cs:263-315 | a start sets the direction to Direction at the current WindowSize and issues BorderPanStartEnv; an update applies BorderDragEnv; an end clears the direction and any session; the invariant is kept |
| DefaultBorderPolicy.DefaultBorder.BeginBorderPan | src/Tizen.NUI/src/public/Window/DefaultBorder.cs:268-287 | the direction is the one under the touch, and the window gets BorderPanStartEnv for it |
| DefaultBorderPolicy.DefaultBorder.DragBorder | src/Tizen.NUI/src/public/Window/DefaultBorder.cs:289-309 | the window gets BorderDragEnv for the current direction and displacement |
| DefaultBorderPolicy.DefaultBorder.OnLeftCornerIconTouched | src/Tizen.NUI/src/public/Window/DefaultBorder.cs:322-335 | a null event is not consumed and any other is; a press closes any session and asks for a bottom-left server resize; other touches change nothing |
| DefaultBorderPolicy.DefaultBorder.OnRightCornerIconTouched | src/Tizen.NUI/src/public/Window/DefaultBorder.cs:341-354 | the same for the bottom-right corner |
| DefaultBorderPolicy.DefaultBorder.OnMinimizeIconTouched | src/Tizen.NUI/src/public/Window/DefaultBorder.cs:361-373 | a null event is not consumed; a release closes any session and minimizes |
| DefaultBorderPolicy.DefaultBorder.OnMaximizeIconTouched | src/Tizen.NUI/src/public/Window/DefaultBorder.cs:379-398 | a null event is not consumed; a release closes any session and toggles maximization |
| DefaultBorderPolicy.DefaultBorder.OnCloseIconTouched | src/Tizen.NUI/src/public/Window/DefaultBorder.cs:404-416 | a null event is not consumed; a release destroys the window and sets BorderWindow to null |
| DefaultBorderPolicy.DefaultBorder.UpdateIcons | src/Tizen.NUI/src/public/Window/DefaultBorder.cs:419-476 | with a window and a built border, the icons are dark exactly when the window is maximized, and the window is transparent exactly when it is not; otherwise nothing changes |
| DefaultBorderPolicy.DefaultBorder.OnResized | src/Tizen.NUI/src/public/Window/DefaultBorder.cs:661-664 | a resize refreshes the icons as UpdateIcons does |
| DefaultBorderPolicy.DefaultBorder.OnWinInterceptedTouch | src/Tizen.NUI/src/public/Window/DefaultBorder.cs:529-551 | two resting fingers start a timer only when no session is open and no timer is held; any other touch resets the gesture rank and releases the timer; a held timer is never replaced; the touch is never consumed |
| DefaultBorderPolicy.DefaultBorder.OnTick | src/Tizen.NUI/src/public/Window/DefaultBorder.cs:555-581 | the session opens: the gesture view is added, the handler removed, and the timer stopped but still held; the tick returns false |
| DefaultBorderPolicy.DefaultBorder.OnWinTapGestureDetected | src/Tizen.NUI/src/public/Window/DefaultBorder.cs:584-605 | a tap blocked by a higher-ranked gesture changes nothing, with or without a window; otherwise it takes the session, and a double tap toggles maximization while any other count closes the session |
| DefaultBorderPolicy.DefaultBorder.OnWinPanGestureDetected | src/Tizen.NUI/src/public/Window/DefaultBorder.cs:608-632 | unless a pinch holds the session, a starting pan takes it and restores or moves the window, and an ending pan releases it and closes the session; a blocked or continuing pan changes nothing, with or without a window |
| DefaultBorderPolicy.DefaultBorder.ClearWindowGesture | src/Tizen.NUI/src/public/Window/DefaultBorder.cs:634-645 | afterwards no session is open; the window changes by ClearedEnv, so with no session open nothing changes |
| DefaultBorderPolicy.DefaultBorder.Dispose | src/Tizen.NUI/src/public/Window/DefaultBorder.cs:667-694 | a second call changes nothing; when disposing, the first call closes any session, removes the handler and stops the timer, so an attached policy leaves no handler and no gesture view behind |

## Left out

- BorderHost.Window.OverlayMode: subscribes `OnWinInterceptTouch` through the corrected count (`OverlayHandlers`), so it keeps one copy where line 296 as written adds another on every call; the count as written is `OverlayHandlersAsWritten`, and the difference is the finding below.
- BorderHost.OverlayModeEffect: states the corrected subscription, for the same reason; its "at most one handler" conjunct holds only of the corrected count.
- BorderHost.Window.OnBorderWindowResized: its overlay step goes through the corrected OverlayMode, so repeated resizes while overlaid and maximized keep one handler where the source accumulates copies.
- BorderHost.HostInvariant: its conjunct `overlayTouchHandlers <= 1` holds only under the corrected subscription; as written, the count grows with every resize while overlaid and maximized (`OverlayHandlerLeaks`).

- Visuals: colours, corner radii, icon image paths, layer names, clipping, and layer positions. The icons are modelled only as `darkIcons`.
- `Window.cs` is not part of this model. The `WindowSize` accessors are assumed to apply the two converters. They are modelled on unbounded integers (`BorderedSize`, `RealSize`). The 16-bit wrap-around is modelled only in the converters themselves.
- The compositor is reduced to a log of requests. `Maximize` takes effect at once. The `Resized` event that a size change causes is not raised by the model.
- The calls from the host into the policy are separate methods of the policy. They are not invoked from inside the host's methods. These are `CreateBorderView`, `OnCreated`, `OnResized`, the `BorderWindow` setter and `Dispose` from `DisposeBorder`. The host reads the policy's properties as one `BorderGeometry` value fixed when the border is enabled.
- Time is not modelled: a timer tick is a method call. The restart of the 3-second countdown in `OverlayInterceptTouch` is not observable in the model.
- BorderHost.Window.EnableBorder: whether CreateBorder succeeds is a parameter. In the source `CreateBorderView` receives the root view by value, so it cannot make it null and the failure path cannot be taken.
- `OnRequestResize` is an empty virtual hook and is left out. Subclasses that override the virtual callbacks are not modelled.
- Floats are exact reals. The `uint` properties are natural numbers without their upper bound.
- DefaultBorderPolicy.DefaultBorder.OnCreated: requires that the policy is not attached yet and that the window holds none of its handlers. The host calls it once, on a freshly enabled window; a second call would subscribe the handler twice.
- A null `BorderWindow` where the source dereferences it would throw. The model excludes it with `requires` on exactly the paths that dereference it. For example, `Dispose` after `OnCloseIconTouched` with a session still open would dereference a null `BorderWindow`.
- DefaultBorderPolicy.DefaultBorder.Dispose: the disposal of the detectors, views and colours is not modelled. Only the handler, the session, the timer and the `disposed` flag are.
- `CurrentGesture.PinchGesture` is never assigned by the source. The rank is modelled, but no window pinch gesture is.

## Findings

| source | as written | input that shows it | evidently intended | confidence | as-written member | corrected member |
|---|---|---|---|---|---|---|
| src/Tizen.NUI/src/public/Window/BorderWindow.cs:290-322 | `OverlayMode(true)` runs `InterceptTouchEvent += OnWinInterceptTouch` on every resize while overlay mode is on and the window is maximized. `OverlayMode(false)` removes only one copy. | Overlay mode on, two resize events while maximized, then one after restoring. The handler is still subscribed on the restored window, so a touch release raises the border and starts the timer, and the tick then hides the root view of a window that is not maximized. | The handler is subscribed once while overlaid-maximized and not at all otherwise. | medium, not executed | BorderHost.OverlayHandlerLeaks | BorderHost.OverlayHandlersFollowLastResize |
