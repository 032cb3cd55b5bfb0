/** The border host: the part of Window (BorderWindow.cs) that enables the
    border, classifies touch points into border directions, clamps resizes,
    converts between the bordered and the real window size, and runs the
    overlay auto-hide machine. The native window it drives (size, position,
    maximized state, requests to the compositor) is modelled as fields of
    the same class. */
module BorderHost {
  import opened Wrappers
  import opened Geometry
  import opened Events

  /** What the border logic asks the compositor to do. */
  datatype Request =
    | MoveToServer
    | ResizeToServer(direction: BorderDirection)
    | Maximize(enable: bool)
    | Minimize
    | Destroy

  // ---------------------------------------------------------------------
  // Event subscriptions. A C# event keeps a list of handlers: `+=` appends
  // one more copy, `-=` removes one copy or does nothing.
  // ---------------------------------------------------------------------

  function Subscribe(n: nat): (m: nat)
    ensures m > 0
  {
    n + 1
  }

  function Unsubscribe(n: nat): (m: nat)
    ensures m == 0 || m + 1 == n
  {
    if n == 0 then 0 else n - 1
  }

  // ---------------------------------------------------------------------
  // GetDirection
  // ---------------------------------------------------------------------

  /** x below this is in the left band, y below it in the top band. */
  function NearLimit(g: BorderGeometry): real {
    g.touchThickness as real
  }

  /** x above this is in the right band. */
  function RightLimit(g: BorderGeometry, s: Size): real {
    (s.width + 2 * g.lineThickness - g.touchThickness) as real
  }

  /** y above this is in the band of the two bottom corners. */
  function CornerLimit(g: BorderGeometry, s: Size): real {
    (s.height + g.borderHeight - g.touchThickness) as real
  }

  /** y above this is in the bottom band; it lies lineThickness lower than
      the corner limit. */
  function BottomLimit(g: BorderGeometry, s: Size): real {
    (s.height + g.borderHeight + g.lineThickness - g.touchThickness) as real
  }

  /** The direction a touch point at (x, y) selects, for a window of size
      `s` whose border has geometry `g`. Every zone below is a product of
      intervals; together they cover the plane without overlap. */
  function Direction(g: BorderGeometry, s: Size, x: real, y: real): (d: BorderDirection)
    ensures d.BottomLeft? <==> x < NearLimit(g) && y > CornerLimit(g, s)
    ensures d.BottomRight? <==> NearLimit(g) <= x && x > RightLimit(g, s) && y > CornerLimit(g, s)
    ensures d.TopLeft? <==> x < NearLimit(g) && y < NearLimit(g) && y <= CornerLimit(g, s)
    ensures d.TopRight? <==>
      NearLimit(g) <= x && x > RightLimit(g, s) && y < NearLimit(g) && y <= CornerLimit(g, s)
    ensures d.Left? <==> x < NearLimit(g) && NearLimit(g) <= y <= CornerLimit(g, s)
    ensures d.Right? <==>
      NearLimit(g) <= x && x > RightLimit(g, s) && NearLimit(g) <= y <= CornerLimit(g, s)
    ensures d.Bottom? <==> NearLimit(g) <= x <= RightLimit(g, s) && y > BottomLimit(g, s)
    ensures d.Top? <==>
      NearLimit(g) <= x <= RightLimit(g, s) && y < NearLimit(g) && y <= BottomLimit(g, s)
    ensures d.Move? <==>
      NearLimit(g) <= x <= RightLimit(g, s) && NearLimit(g) <= y <= BottomLimit(g, s)
      && y > s.height as real
    ensures d.None? <==>
      NearLimit(g) <= x <= RightLimit(g, s) && NearLimit(g) <= y <= BottomLimit(g, s)
      && y <= s.height as real
  {
    if x < NearLimit(g) && y > CornerLimit(g, s) then BottomLeft
    else if x > RightLimit(g, s) && y > CornerLimit(g, s) then BottomRight
    else if x < NearLimit(g) && y < NearLimit(g) then TopLeft
    else if x > RightLimit(g, s) && y < NearLimit(g) then TopRight
    else if x < NearLimit(g) then Left
    else if x > RightLimit(g, s) then Right
    else if y > BottomLimit(g, s) then Bottom
    else if y < NearLimit(g) then Top
    else if y > s.height as real then Move
    else BorderDirection.None
  }

  /** A point in the left touch band always resizes from the left side:
      it is never Move or None. */
  lemma LeftBandResizesLeft(g: BorderGeometry, s: Size, x: real, y: real)
    requires x < NearLimit(g)
    ensures Direction(g, s, x, y) in {BottomLeft, TopLeft, Left}
  {
  }

  /** The two bottom corners use a threshold lineThickness higher than the
      bottom edge: with the default geometry and a 400x300 window, y = 333
      is already a bottom corner near the left side, but only Move in the
      middle, and the bottom edge starts above y = 335. */
  lemma BottomCornerAndEdgeThresholdsDiffer()
    ensures Direction(DefaultBorderGeometry(), Size(400, 300), 10.0, 333.0) == BottomLeft
    ensures Direction(DefaultBorderGeometry(), Size(400, 300), 200.0, 333.0) == Move
    ensures Direction(DefaultBorderGeometry(), Size(400, 300), 200.0, 335.5) == Bottom
  {
  }

  // ---------------------------------------------------------------------
  // Resize clamping (OnBorderWindowResized)
  // ---------------------------------------------------------------------

  function ApplyMinSize(s: Size, limit: SizeLimit): Size {
    match limit
    case Unset => s
    case Limit(m) =>
      Size(if m.width > s.width then m.width else s.width,
           if m.height > s.height then m.height else s.height)
  }

  function ApplyMaxSize(s: Size, limit: SizeLimit): Size {
    match limit
    case Unset => s
    case Limit(m) =>
      Size(if m.width < s.width then m.width else s.width,
           if m.height < s.height then m.height else s.height)
  }

  /** MinSize does not exceed MaxSize in either dimension. */
  predicate ConsistentLimits(g: BorderGeometry) {
    g.minSize.Limit? && g.maxSize.Limit? ==>
      g.minSize.size.width <= g.maxSize.size.width
      && g.minSize.size.height <= g.maxSize.size.height
  }

  /** `s` respects every limit that is set. */
  predicate WithinLimits(g: BorderGeometry, s: Size) {
    (g.minSize.Limit? ==>
       g.minSize.size.width <= s.width && g.minSize.size.height <= s.height)
    && (g.maxSize.Limit? ==>
       s.width <= g.maxSize.size.width && s.height <= g.maxSize.size.height)
  }

  /** The size a resize to `s` is corrected to: MinSize first, then MaxSize,
      so MaxSize wins where the two conflict. */
  function ClampToLimits(g: BorderGeometry, s: Size): (r: Size)
    ensures g.maxSize.Limit? ==>
      r.width <= g.maxSize.size.width && r.height <= g.maxSize.size.height
  {
    ApplyMaxSize(ApplyMinSize(s, g.minSize), g.maxSize)
  }

  /** With consistent limits both MinSize and MaxSize hold after clamping,
      and a size is left unchanged exactly when it already respected them;
      each component is the requested one or one of the limits. */
  lemma ClampRespectsLimits(g: BorderGeometry, s: Size)
    ensures ConsistentLimits(g) ==> WithinLimits(g, ClampToLimits(g, s))
    ensures ConsistentLimits(g) ==> (ClampToLimits(g, s) == s <==> WithinLimits(g, s))
    ensures var r := ClampToLimits(g, s);
      r.width == s.width
      || (g.minSize.Limit? && r.width == g.minSize.size.width)
      || (g.maxSize.Limit? && r.width == g.maxSize.size.width)
    ensures var r := ClampToLimits(g, s);
      r.height == s.height
      || (g.minSize.Limit? && r.height == g.minSize.size.height)
      || (g.maxSize.Limit? && r.height == g.maxSize.size.height)
  {
  }

  /** A clamped size is left alone by a second clamp, even when the limits
      conflict, so the resize event the correction triggers re-sets nothing. */
  lemma ClampIdempotent(g: BorderGeometry, s: Size)
    ensures ClampToLimits(g, ClampToLimits(g, s)) == ClampToLimits(g, s)
  {
  }

  // ---------------------------------------------------------------------
  // Size conversion between the bordered and the real window (Uint16Pair)
  // ---------------------------------------------------------------------

  const UShortRange: int := 0x1_0000

  newtype ushort = x: int | 0 <= x < 0x1_0000

  /** The C# cast `(ushort)n`: the low 16 bits. */
  function ToUShort(n: int): (r: ushort)
    ensures 0 <= n < UShortRange ==> r as int == n
    ensures (n - r as int) % UShortRange == 0
  {
    (n % UShortRange) as ushort
  }

  /** The value of a Uint16Pair. */
  datatype SizePair = SizePair(width: ushort, height: ushort)

  /** convertBorderWindowSizeToRealWindowSize: adds the border footprint
      whenever a border is enabled. */
  function BorderedToReal(border: Option<BorderGeometry>, s: SizePair): (r: SizePair)
    ensures border.None? ==> r == s
    ensures border.Some? && s.width as int + border.value.Footprint().width < UShortRange ==>
      r.width as int == s.width as int + border.value.Footprint().width
    ensures border.Some? && s.height as int + border.value.Footprint().height < UShortRange ==>
      r.height as int == s.height as int + border.value.Footprint().height
  {
    match border
    case None => s
    case Some(g) =>
      SizePair(ToUShort(s.width as int + g.lineThickness * 2),
               ToUShort(s.height as int + g.borderHeight + g.lineThickness))
  }

  /** The border is not drawn: overlay mode with the window maximized. */
  predicate OverlayMaximized(border: Option<BorderGeometry>, maximized: bool) {
    border.Some? && border.value.overlayMode && maximized
  }

  /** convertRealWindowSizeToBorderWindowSize: removes the border footprint,
      unless no border is enabled or the border is hidden (overlay mode and
      maximized). */
  function RealToBordered(border: Option<BorderGeometry>, maximized: bool, s: SizePair): (r: SizePair)
    ensures border.None? || OverlayMaximized(border, maximized) ==> r == s
    ensures (border.Some? && !OverlayMaximized(border, maximized)
             && s.width as int >= border.value.Footprint().width) ==>
      r.width as int == s.width as int - border.value.Footprint().width
    ensures (border.Some? && !OverlayMaximized(border, maximized)
             && s.height as int >= border.value.Footprint().height) ==>
      r.height as int == s.height as int - border.value.Footprint().height
  {
    if border.Some? && !OverlayMaximized(border, maximized) then
      var g := border.value;
      SizePair(ToUShort(s.width as int - g.lineThickness * 2),
               ToUShort(s.height as int - g.borderHeight - g.lineThickness))
    else
      s
  }

  /** Adding k·2^16 does not change the low 16 bits. */
  lemma {:induction false} ToUShortPeriodic(v: int, k: int)
    requires 0 <= v < UShortRange
    ensures ToUShort(v + k * UShortRange) as int == v
  {
    var n := v + k * UShortRange;
    var q := n / UShortRange;
    var r := n % UShortRange;
    assert n == q * UShortRange + r;
    assert (k - q) * UShortRange == r - v;
  }

  /** Adding `a` and then subtracting it again, each with 16-bit truncation,
      gives back the original 16-bit value. */
  lemma {:induction false} ToUShortCancels(v: int, a: int)
    requires 0 <= v < UShortRange
    ensures ToUShort(ToUShort(v + a) as int - a) as int == v
  {
    var n := v + a;
    var q := n / UShortRange;
    assert ToUShort(n) as int == n - q * UShortRange;
    ToUShortPeriodic(v, -q);
  }

  /** Where the border is drawn, the two conversions undo each other on
      every 16-bit size, wrap-around included. */
  lemma ConversionRoundTrip(border: Option<BorderGeometry>, maximized: bool, s: SizePair)
    requires border.Some? && !OverlayMaximized(border, maximized)
    ensures RealToBordered(border, maximized, BorderedToReal(border, s)) == s
    ensures BorderedToReal(border, RealToBordered(border, maximized, s)) == s
  {
    BorderedThenReal(border, maximized, s);
    RealThenBordered(border, maximized, s);
  }

  lemma {:induction false} BorderedThenReal(border: Option<BorderGeometry>, maximized: bool, s: SizePair)
    requires border.Some? && !OverlayMaximized(border, maximized)
    ensures RealToBordered(border, maximized, BorderedToReal(border, s)) == s
  {
    var g := border.value;
    ToUShortCancels(s.width as int, g.lineThickness * 2);
    ToUShortCancels(s.height as int, g.borderHeight + g.lineThickness);
  }

  lemma {:induction false} RealThenBordered(border: Option<BorderGeometry>, maximized: bool, s: SizePair)
    requires border.Some? && !OverlayMaximized(border, maximized)
    ensures BorderedToReal(border, RealToBordered(border, maximized, s)) == s
  {
    var g := border.value;
    ToUShortCancels(s.width as int, -(g.lineThickness * 2));
    ToUShortCancels(s.height as int, -(g.borderHeight + g.lineThickness));
  }

  /** Under overlay-maximized only real-to-bordered is skipped: bordered-to-
      real still adds the footprint, so a round trip does not return the
      size it started from whenever the horizontal footprint is not a
      multiple of 2^16. */
  lemma {:induction false} OverlayMaximizedConversionDrifts(border: Option<BorderGeometry>, s: SizePair)
    requires border.Some? && border.value.overlayMode
    requires (border.value.lineThickness * 2) % UShortRange != 0
    ensures RealToBordered(border, true, BorderedToReal(border, s)) != s
  {
    ToUShortFixedPoint(s.width as int, border.value.lineThickness * 2);
  }

  /** Truncated addition of `a` leaves a 16-bit value in place only when `a`
      is a multiple of 2^16. */
  lemma ToUShortFixedPoint(v: int, a: int)
    requires 0 <= v < UShortRange
    ensures ToUShort(v + a) as int == v ==> a % UShortRange == 0
  {
    var w := ToUShort(v + a) as int;
    assert (v + a - w) % UShortRange == 0;
  }

  /** The WindowSize getter of the window, on unbounded integers: the real
      size less the frame, unless no border is enabled or the border is
      overlaid on a maximized window (convertRealWindowSizeToBorderWindowSize). */
  function BorderedSize(border: Option<BorderGeometry>, maximized: bool, realSize: Size): Size {
    if border.Some? && !OverlayMaximized(border, maximized) then realSize.Minus(border.value.Footprint())
    else realSize
  }

  /** The WindowSize setter, on unbounded integers: the frame is added
      whenever a border is enabled (convertBorderWindowSizeToRealWindowSize). */
  function RealSize(border: Option<BorderGeometry>, bordered: Size): Size {
    if border.Some? then bordered.Plus(border.value.Footprint()) else bordered
  }

  /** Changing WindowSize by `d` changes the real size by exactly `d`, unless
      the border is overlaid on a maximized window; then the setter adds
      the frame the getter did not remove. */
  lemma AdjustWindowSize(border: Option<BorderGeometry>, maximized: bool, realSize: Size, d: Size)
    ensures !OverlayMaximized(border, maximized) ==>
      RealSize(border, BorderedSize(border, maximized, realSize).Plus(d)) == realSize.Plus(d)
    ensures OverlayMaximized(border, maximized) ==>
      RealSize(border, BorderedSize(border, maximized, realSize).Plus(d))
        == realSize.Plus(d).Plus(border.value.Footprint())
  {
  }

  /** The sizes EnableBorder goes through: growing WindowSize by the
      footprint, reading it back, and shrinking it again on rollback. */
  lemma EnableSizes(g: BorderGeometry, maximized: bool, realSize: Size)
    ensures var f := g.Footprint();
      var overlaid := g.overlayMode && maximized;
      var grown := RealSize(Option.Some(g), BorderedSize(Option.Some(g), maximized, realSize).Plus(f));
      grown == (if overlaid then realSize.Plus(f).Plus(f) else realSize.Plus(f))
      && BorderedSize(Option.Some(g), maximized, grown)
         == (if overlaid then realSize.Plus(f).Plus(f) else realSize)
      && RealSize(Option.Some(g), BorderedSize(Option.Some(g), maximized, grown).Minus(f))
         == (if overlaid then realSize.Plus(f).Plus(f) else realSize)
  {
  }

  /** The two accessors undo each other on sizes that fit 16 bits, as the
      converters they stand for do. */
  lemma AccessorsMatchConverters(border: Option<BorderGeometry>, maximized: bool, s: SizePair)
    requires border.Some?
    requires s.width as int + border.value.Footprint().width < UShortRange
    requires s.height as int + border.value.Footprint().height < UShortRange
    ensures var r := BorderedToReal(border, s);
      RealSize(border, Size(s.width as int, s.height as int)) == Size(r.width as int, r.height as int)
  {
  }

  // ---------------------------------------------------------------------
  // Subscription of the overlay handler (OverlayMode)
  // ---------------------------------------------------------------------

  /** Handlers of OnWinInterceptTouch after OverlayMode(enable), as the
      source writes it: enabling always adds one, disabling removes at most
      one. */
  function OverlayHandlersAsWritten(n: nat, enable: bool): (m: nat)
    ensures enable ==> m > n
    ensures !enable ==> m < n || m == 0
  {
    if enable then Subscribe(n) else Unsubscribe(n)
  }

  /** Handlers of OnWinInterceptTouch after OverlayMode(enable), corrected:
      enabling replaces the subscription instead of adding another one. */
  function OverlayHandlers(n: nat, enable: bool): (m: nat)
    ensures n <= 1 ==> m == (if enable then 1 else 0)
  {
    if enable then Subscribe(Unsubscribe(n)) else Unsubscribe(n)
  }

  /** The handler count after OverlayMode is called once per resize event,
      `true` for each resize that finds the window maximized. */
  function HandlersAfterAsWritten(n: nat, resizes: seq<bool>): nat
    decreases |resizes|
  {
    if resizes == [] then n
    else HandlersAfterAsWritten(OverlayHandlersAsWritten(n, resizes[0]), resizes[1..])
  }

  function HandlersAfter(n: nat, resizes: seq<bool>): nat
    decreases |resizes|
  {
    if resizes == [] then n
    else HandlersAfter(OverlayHandlers(n, resizes[0]), resizes[1..])
  }

  /** As written, two resizes while maximized and one after restoring leave
      the handler subscribed although the window is no longer maximized. */
  lemma OverlayHandlerLeaks()
    ensures HandlersAfterAsWritten(0, [true, true, false]) == 1
  {
  }

  /** Corrected, the handler is subscribed exactly when the last resize
      found the window maximized. */
  lemma {:induction false} OverlayHandlersFollowLastResize(n: nat, resizes: seq<bool>)
    requires n <= 1 && resizes != []
    ensures HandlersAfter(n, resizes) == (if resizes[|resizes| - 1] then 1 else 0)
    decreases |resizes|
  {
    var m := OverlayHandlers(n, resizes[0]);
    if |resizes| > 1 {
      OverlayHandlersFollowLastResize(m, resizes[1..]);
      assert resizes[1..][|resizes[1..]| - 1] == resizes[|resizes| - 1];
    }
  }

  // ---------------------------------------------------------------------
  // The window's state
  // ---------------------------------------------------------------------

  /** The native window as the border code sees it. */
  datatype WindowEnv = WindowEnv(
    size: Size,
    position: Position,
    maximized: bool,
    transparent: bool,
    floatingMode: bool,
    requests: seq<Request>,
    /** Copies of the policy's handler on InterceptTouchEvent. */
    policyTouchHandlers: nat,
    /** Whether the policy's full-window gesture view is a child of the window. */
    gestureViewAdded: bool)

  /** The effect of one request on the native window; a maximize request
      is granted at once. */
  function Issue(env: WindowEnv, r: Request): (e: WindowEnv)
    ensures e.requests == env.requests + [r]
    ensures e.maximized == if r.Maximize? then r.enable else env.maximized
    ensures e.(requests := env.requests, maximized := env.maximized) == env
  {
    env.(requests := env.requests + [r],
         maximized := if r.Maximize? then r.enable else env.maximized)
  }

  /** The border host's fields of Window. */
  datatype HostState = HostState(
    /** borderInterface; None is null. */
    border: Option<BorderGeometry>,
    isBorderWindow: bool,
    /** Copies of OnBorderWindowResized on Resized. */
    resizedHandlers: nat,
    hasRootView: bool,
    rootViewShown: bool,
    /** Copies of OverlayInterceptTouch on the root view's InterceptTouchEvent. */
    rootViewHandlers: nat,
    /** The sizes of the two border layers; None before a layer is created. */
    rootLayer: Option<Size>,
    bottomLayer: Option<Size>,
    bottomLayerOnTop: bool,
    bottomLayerDisposed: bool,
    isInterceptTouch: bool,
    /** overlayTimer != null. */
    overlayTimer: bool,
    /** Copies of OnWinInterceptTouch on InterceptTouchEvent. */
    overlayTouchHandlers: nat)

  /** A window whose border was never enabled. */
  const NoBorder: HostState :=
    HostState(Option.None, false, 0, false, false, 0, Option.None, Option.None,
              false, false, false, false, 0)

  /** What the host keeps true between events. */
  predicate HostInvariant(h: HostState) {
    (h.isBorderWindow <==> h.border.Some?)
    && (!h.isBorderWindow ==>
          !h.hasRootView && h.resizedHandlers == 0 && h.rootViewHandlers == 0
          && h.rootLayer.None? && h.bottomLayer.None?)
    && (h.isBorderWindow ==> h.bottomLayer.Some?)
    && h.resizedHandlers <= 1 && h.rootViewHandlers <= 1
    // the overlay timer exists exactly while the border is summoned
    && (h.isInterceptTouch <==> h.overlayTimer)
    // the overlay handler is subscribed at most once, and only in overlay mode
    && h.overlayTouchHandlers <= 1
    && (h.overlayTouchHandlers > 0 ==> h.border.Some? && h.border.value.overlayMode)
  }

  /** The host once GetBorderWindowBottomLayer has run: the layer is created
      on first use, sized (w + 2L, h + L) for a window of size `size`, and
      lowered to the bottom. */
  function WithBottomLayer(h: HostState, size: Size): (r: HostState)
    requires h.border.Some?
    ensures r.bottomLayer.Some? && r.border == h.border
  {
    if h.bottomLayer.Some? then h
    else h.(bottomLayer := Option.Some(Size(size.width + h.border.value.lineThickness * 2,
                                            size.height + h.border.value.lineThickness)),
            bottomLayerOnTop := false)
  }

  /** The host after OverlayMode(enable), with the subscription corrected. */
  function OverlayModeEffect(h: HostState, enable: bool): (r: HostState)
    requires h.border.Some?
    ensures r.border == h.border && r.isBorderWindow == h.isBorderWindow
    ensures r.rootLayer == h.rootLayer && r.bottomLayer == h.bottomLayer
    ensures HostInvariant(h) ==> HostInvariant(r)
  {
    if !h.border.value.overlayMode then h
    else if enable then
      h.(overlayTouchHandlers := OverlayHandlers(h.overlayTouchHandlers, true),
         rootViewShown := if h.hasRootView then false else h.rootViewShown)
    else
      h.(overlayTimer := false,
         isInterceptTouch := false,
         overlayTouchHandlers := OverlayHandlers(h.overlayTouchHandlers, false),
         bottomLayerOnTop := false,
         rootViewShown := if h.hasRootView then true else h.rootViewShown)
  }

  /** The host once EnableBorder has succeeded with geometry `g` on a
      window whose WindowSize is then `size`: the border is set, the Resized handler
      subscribed once, the root view built and shown (its intercept handler
      subscribed in overlay mode only), and the bottom layer created with size
      (w + 2L, h + L) and lowered. */
  function BorderEnabled(h: HostState, g: BorderGeometry, size: Size): (r: HostState)
    requires HostInvariant(h) && !h.isBorderWindow
    ensures HostInvariant(r) && r.border == Option.Some(g)
    ensures r.resizedHandlers == 1 && r.hasRootView && r.rootViewShown
    ensures r.rootViewHandlers == (if g.overlayMode then 1 else 0)
    ensures r.bottomLayer == Option.Some(size.Plus(Size(g.lineThickness * 2, g.lineThickness)))
    ensures r.(border := h.border, isBorderWindow := h.isBorderWindow,
               resizedHandlers := h.resizedHandlers, hasRootView := h.hasRootView,
               rootViewShown := h.rootViewShown, rootViewHandlers := h.rootViewHandlers, bottomLayer := h.bottomLayer,
               bottomLayerOnTop := h.bottomLayerOnTop) == h
  {
    h.(border := Option.Some(g), isBorderWindow := true,
       resizedHandlers := 1, hasRootView := true, rootViewShown := true,
       rootViewHandlers := if g.overlayMode then 1 else 0,
       bottomLayer := Option.Some(Size(size.width + g.lineThickness * 2,
                                       size.height + g.lineThickness)),
       bottomLayerOnTop := false)
  }

  /** The steps EnableBorder and CreateBorder take on success add up to
      BorderEnabled. */
  lemma EnableStepsCompose(h: HostState, g: BorderGeometry, size: Size)
    requires HostInvariant(h) && !h.isBorderWindow
    ensures WithBottomLayer(
              h.(border := Option.Some(g), resizedHandlers := Subscribe(h.resizedHandlers),
                 isBorderWindow := true)
               .(hasRootView := true, rootViewShown := true,
                 rootViewHandlers := if g.overlayMode then 1 else 0),
              size)
            == BorderEnabled(h, g, size)
  {
  }

  /** When building the border fails, EnableBorder's rollback restores the
      host it started from. */
  lemma RollbackRestores(h: HostState, g: BorderGeometry)
    requires HostInvariant(h) && !h.isBorderWindow
    ensures
      var h1 := h.(border := Option.Some(g), resizedHandlers := Subscribe(h.resizedHandlers),
                   isBorderWindow := true);
      h1.(resizedHandlers := Unsubscribe(h1.resizedHandlers))
        .(isBorderWindow := false, border := Option.None) == h
  {
  }

  /** The policy passed to EnableBorder, or a new DefaultBorder. */
  function PolicyOrDefault(policy: Option<BorderGeometry>): (g: BorderGeometry)
    ensures policy.Some? ==> g == policy.value
    ensures policy.None? ==> g == DefaultBorderGeometry()
  {
    if policy.Some? then policy.value else DefaultBorderGeometry()
  }

  /** A Uint16Pair, which the converters update in place. */
  class Uint16Pair {
    var width: ushort
    var height: ushort

    constructor (width: ushort, height: ushort)
      ensures this.width == width && this.height == height
    {
      this.width := width;
      this.height := height;
    }

    function Value(): SizePair
      reads this
    {
      SizePair(width, height)
    }
  }

  class Window {
    /** The native window. */
    var env: WindowEnv
    /** The border host. */
    var host: HostState

    ghost predicate Valid()
      reads this
    {
      HostInvariant(host)
    }

    constructor (size: Size, position: Position)
      ensures Valid()
      ensures env == WindowEnv(size, position, false, false, false, [], 0, false)
      ensures host == NoBorder
    {
      env := WindowEnv(size, position, false, false, false, [], 0, false);
      host := NoBorder;
    }

    // ----- the native window operations the border code calls -----

    function IsMaximized(): bool
      reads this
    {
      env.maximized
    }

    method Maximize(enable: bool)
      modifies this`env
      ensures env == Issue(old(env), Request.Maximize(enable))
    {
      env := env.(maximized := enable, requests := env.requests + [Request.Maximize(enable)]);
    }

    /** Minimize(true). */
    method Minimize()
      modifies this`env
      ensures env == Issue(old(env), Request.Minimize)
    {
      env := env.(requests := env.requests + [Request.Minimize]);
    }

    method RequestMoveToServer()
      modifies this`env
      ensures env == Issue(old(env), MoveToServer)
    {
      env := env.(requests := env.requests + [MoveToServer]);
    }

    method RequestResizeToServer(direction: BorderDirection)
      modifies this`env
      ensures env == Issue(old(env), ResizeToServer(direction))
    {
      env := env.(requests := env.requests + [ResizeToServer(direction)]);
    }

    method Destroy()
      modifies this`env
      ensures env == Issue(old(env), Request.Destroy)
    {
      env := env.(requests := env.requests + [Request.Destroy]);
    }

    method SetTransparency(enable: bool)
      modifies this`env
      ensures env == old(env).(transparent := enable)
    {
      env := env.(transparent := enable);
    }

    /** The WindowSize getter: the bordered size while a border is enabled. */
    function WindowSize(): Size
      reads this
    {
      BorderedSize(host.border, env.maximized, env.size)
    }

    /** The WindowSize setter: the real size becomes `size` plus the frame
        while a border is enabled. */
    method SetWindowSize(size: Size)
      modifies this`env
      ensures env == old(env).(size := RealSize(host.border, size))
    {
      env := env.(size := RealSize(host.border, size));
    }

    /** The WindowPosition setter. */
    method SetWindowPosition(position: Position)
      modifies this`env
      ensures env == old(env).(position := position)
    {
      env := env.(position := position);
    }

    /** `InterceptTouchEvent += handler` for the policy's handler. */
    method AddPolicyTouchHandler()
      modifies this`env
      ensures env == old(env).(policyTouchHandlers := Subscribe(old(env).policyTouchHandlers))
    {
      env := env.(policyTouchHandlers := Subscribe(env.policyTouchHandlers));
    }

    /** `InterceptTouchEvent -= handler` for the policy's handler. */
    method RemovePolicyTouchHandler()
      modifies this`env
      ensures env == old(env).(policyTouchHandlers := Unsubscribe(old(env).policyTouchHandlers))
    {
      env := env.(policyTouchHandlers := Unsubscribe(env.policyTouchHandlers));
    }

    /** Add or Remove of the policy's full-window gesture view. */
    method SetGestureViewAdded(added: bool)
      modifies this`env
      ensures env == old(env).(gestureViewAdded := added)
    {
      env := env.(gestureViewAdded := added);
    }

    /** GetDirection(x, y), for the host's current size and policy: a
        point resizes exactly when it lies in a touch band, and otherwise
        it moves the window only below the content, in the border strip. */
    function GetDirection(x: real, y: real): (d: BorderDirection)
      reads this
      requires host.border.Some?
      ensures var g := host.border.value;
        !d.IsResize() <==>
          NearLimit(g) <= x <= RightLimit(g, WindowSize())
          && NearLimit(g) <= y <= BottomLimit(g, WindowSize())
      ensures d.Move? <==> !d.IsResize() && y > WindowSize().height as real
    {
      Direction(host.border.value, WindowSize(), x, y)
    }

    // ----- the border host -----

    /** GetBorderWindowBottomLayer. */
    method GetBorderWindowBottomLayer()
      requires host.border.Some?
      modifies this`host
      ensures old(host.bottomLayer).Some? ==> host == old(host)
      ensures host == WithBottomLayer(old(host), WindowSize())
    {
      if host.bottomLayer.None? {
        var g := host.border.value;
        var size := WindowSize();
        host := host.(bottomLayer := Option.Some(Size(size.width + g.lineThickness * 2,
                                                      size.height + g.lineThickness)));
        host := host.(bottomLayerOnTop := false);
      }
    }

    /** GetBorderWindowRootLayer: created on first use, sized
        (w, h - BorderHeight - L). */
    method GetBorderWindowRootLayer()
      requires host.border.Some?
      modifies this`host
      ensures host.rootLayer.Some?
      ensures host == old(host).(rootLayer := host.rootLayer)
      ensures old(host.rootLayer).Some? ==> host == old(host)
      ensures old(host.rootLayer).None? ==>
        host.rootLayer.value == Size(WindowSize().width, WindowSize().height - old(host).border.value.borderHeight
                                 - old(host).border.value.lineThickness)
    {
      if host.rootLayer.None? {
        var g := host.border.value;
        host := host.(rootLayer := Option.Some(
          Size(WindowSize().width, WindowSize().height - g.borderHeight - g.lineThickness)));
      }
    }

    /** CreateBorder. `created` is whether the root view is still there
        after the policy's CreateBorderView; a new view is shown. */
    method CreateBorder(created: bool) returns (ok: bool)
      requires host.border.Some? && !host.hasRootView && host.rootViewHandlers == 0
      modifies this`host
      ensures ok == created
      ensures !created ==> host == old(host)
      ensures created ==>
        host == WithBottomLayer(
          old(host).(hasRootView := true, rootViewShown := true,
                     rootViewHandlers := if old(host).border.value.overlayMode then 1 else 0),
          WindowSize())
    {
      if !created {
        return false;
      }
      host := host.(hasRootView := true, rootViewShown := true);
      if host.border.value.overlayMode {
        host := host.(rootViewHandlers := Subscribe(host.rootViewHandlers));
      }
      GetBorderWindowBottomLayer();
      ok := true;
    }

    /** EnableBorder(policy): refuses a second enable; otherwise grows the
        window by the border's footprint through WindowSize and builds the
        border, rolling the growth and the subscription back when building
        fails. Enabling an overlay-mode border on a maximized window grows
        it by twice the footprint, because the getter then leaves the real
        size alone, and the rollback does not shrink it back. */
    method EnableBorder(policy: Option<BorderGeometry>, created: bool) returns (ok: bool)
      requires Valid()
      modifies this
      ensures Valid()
      ensures old(host.isBorderWindow) ==> !ok && env == old(env) && host == old(host)
      ensures !old(host.isBorderWindow) && !created ==>
        var g := PolicyOrDefault(policy);
        !ok && host == old(host)
        && env == old(env).(size := if g.overlayMode && old(env.maximized)
                                    then old(env.size).Plus(g.Footprint()).Plus(g.Footprint())
                                    else old(env.size))
      ensures !old(host.isBorderWindow) && created ==>
        var g := PolicyOrDefault(policy);
        var overlaid := g.overlayMode && old(env.maximized);
        ok
        && env == old(env).(size := if overlaid
                                    then old(env.size).Plus(g.Footprint()).Plus(g.Footprint())
                                    else old(env.size).Plus(g.Footprint()),
                            transparent := true, floatingMode := true)
        && host == BorderEnabled(old(host), g,
                                 if overlaid then old(env.size).Plus(g.Footprint()).Plus(g.Footprint())
                                 else old(env.size))
    {
      if host.isBorderWindow {
        return false;
      }
      var g := PolicyOrDefault(policy);
      host := host.(border := Option.Some(g));
      host := host.(resizedHandlers := Subscribe(host.resizedHandlers));
      host := host.(isBorderWindow := true);
      EnableSizes(g, env.maximized, env.size);
      SetWindowSize(WindowSize().Plus(g.Footprint()));
      var built := CreateBorder(created);
      if !built {
        RollbackRestores(old(host), g);
        SetWindowSize(WindowSize().Minus(g.Footprint()));
        host := host.(resizedHandlers := Unsubscribe(host.resizedHandlers));
        host := host.(isBorderWindow := false, border := Option.None);
        return false;
      }
      EnableStepsCompose(old(host), g, WindowSize());
      SetTransparency(true);
      env := env.(floatingMode := true);
      ok := true;
    }

    /** OverlayInterceptTouch: a touch on the border while it is summoned
        restarts the hide countdown (a restart is not observable in this
        model) and is never consumed. */
    method OverlayInterceptTouch() returns (consumed: bool)
      ensures !consumed
    {
      consumed := false;
    }

    /** OnTick of the overlay timer: hides the border and releases the timer. */
    method OnTick()
      requires Valid() && host.isBorderWindow && host.overlayTimer
      modifies this`host
      ensures Valid()
      ensures host == old(host).(bottomLayerOnTop := false,
                                 rootViewShown := if old(host).hasRootView then false
                                                  else old(host).rootViewShown,
                                 isInterceptTouch := false, overlayTimer := false)
    {
      GetBorderWindowBottomLayer();
      host := host.(bottomLayerOnTop := false);
      if host.hasRootView {
        host := host.(rootViewShown := false);
      }
      host := host.(isInterceptTouch := false);
      host := host.(overlayTimer := false);
    }

    /** OnWinInterceptTouch: a touch release while the border is hidden
        summons it and starts the one hide countdown; the touch is never
        consumed. */
    method OnWinInterceptTouch(touch: Touch) returns (consumed: bool)
      requires Valid() && host.isBorderWindow
      modifies this`host
      ensures Valid() && !consumed
      ensures touch.state == Up && !old(host).isInterceptTouch && !old(host).overlayTimer ==>
        host == old(host).(overlayTimer := true, bottomLayerOnTop := true,
                           rootViewShown := if old(host).hasRootView then true
                                            else old(host).rootViewShown,
                           isInterceptTouch := true)
      ensures !(touch.state == Up && !old(host).isInterceptTouch && !old(host).overlayTimer) ==>
        host == old(host)
    {
      consumed := false;
      if touch.state == Up {
        if !host.isInterceptTouch && !host.overlayTimer {
          host := host.(overlayTimer := true);
          GetBorderWindowBottomLayer();
          host := host.(bottomLayerOnTop := true);
          if host.hasRootView {
            host := host.(rootViewShown := true);
          }
          host := host.(isInterceptTouch := true);
        }
      }
    }

    /** OverlayMode(enable), with the subscription corrected so that it is
        never doubled; its only caller has created the layers. */
    method OverlayMode(enable: bool)
      requires Valid() && host.isBorderWindow && host.bottomLayer.Some?
      modifies this`host
      ensures Valid()
      ensures host == OverlayModeEffect(old(host), enable)
      ensures host.border.value.overlayMode ==>
        host.overlayTouchHandlers == (if enable then 1 else 0)
    {
      if host.border.value.overlayMode {
        if enable {
          host := host.(overlayTouchHandlers := OverlayHandlers(host.overlayTouchHandlers, true));
          if host.hasRootView {
            host := host.(rootViewShown := false);
          }
        } else {
          if host.overlayTimer {
            host := host.(overlayTimer := false);
          }
          host := host.(isInterceptTouch := false);
          host := host.(overlayTouchHandlers := OverlayHandlers(host.overlayTouchHandlers, false));
          GetBorderWindowBottomLayer();
          host := host.(bottomLayerOnTop := false);
          if host.hasRootView {
            host := host.(rootViewShown := true);
          }
        }
      }
    }

    /** OnBorderWindowResized(e): clamps the new size, re-sets WindowSize
        only if clamping changed it, sizes the two layers, switches
        the overlay behaviour, and returns the size it forwards to the
        policy's OnResized. */
    method OnBorderWindowResized(e: Size) returns (forwarded: Size)
      requires Valid() && host.isBorderWindow
      modifies this
      ensures Valid() && host.border == old(host.border)
      ensures forwarded == ClampToLimits(host.border.value, e)
      ensures env == old(env).(size := if forwarded != e then RealSize(host.border, forwarded)
                                       else old(env.size))
      ensures
        var g := host.border.value;
        var overlaid := g.overlayMode && env.maximized;
        host == OverlayModeEffect(
          old(host).(rootLayer := Option.Some(forwarded),
                     bottomLayer := Option.Some(if overlaid then forwarded
                                                else forwarded.Plus(g.Footprint()))),
          overlaid)
    {
      var g := host.border.value;
      var resizeWidth, resizeHeight := ClampSize(g, e);
      forwarded := Size(resizeWidth, resizeHeight);
      if resizeWidth != e.width || resizeHeight != e.height {
        SetWindowSize(forwarded);
      }
      var overlaid := g.overlayMode && IsMaximized();
      SizeLayers(forwarded, overlaid);
      OverlayMode(overlaid);
    }

    /** The layer sizing in OnBorderWindowResized: the root layer takes the
        forwarded size; the bottom layer takes it too when the border is
        overlaid on a maximized window, and otherwise adds the frame. */
    method SizeLayers(forwarded: Size, overlaid: bool)
      requires Valid() && host.isBorderWindow
      modifies this`host
      ensures Valid()
      ensures host == old(host).(rootLayer := Option.Some(forwarded),
                                 bottomLayer := Option.Some(
                                   if overlaid then forwarded
                                   else forwarded.Plus(old(host).border.value.Footprint())))
    {
      GetBorderWindowRootLayer();
      GetBorderWindowBottomLayer();
      var g := host.border.value;
      host := host.(rootLayer := Option.Some(forwarded),
                    bottomLayer := Option.Some(if overlaid then forwarded
                                               else forwarded.Plus(g.Footprint())));
    }

    /** The clamping at the head of OnBorderWindowResized: raise each
        component to MinSize, then lower it to MaxSize. */
    static method ClampSize(g: BorderGeometry, e: Size) returns (resizeWidth: int, resizeHeight: int)
      ensures Size(resizeWidth, resizeHeight) == ClampToLimits(g, e)
    {
      resizeWidth, resizeHeight := e.width, e.height;
      if g.minSize.Limit? {
        resizeWidth := if g.minSize.size.width > resizeWidth then g.minSize.size.width else resizeWidth;
        resizeHeight := if g.minSize.size.height > resizeHeight then g.minSize.size.height else resizeHeight;
      }
      if g.maxSize.Limit? {
        resizeWidth := if g.maxSize.size.width < resizeWidth then g.maxSize.size.width else resizeWidth;
        resizeHeight := if g.maxSize.size.height < resizeHeight then g.maxSize.size.height else resizeHeight;
      }
    }

    /** DisposeBorder: drops the Resized handler and, in overlay mode, the
        root view's intercept handler, and disposes the bottom layer. */
    method DisposeBorder()
      requires Valid() && host.isBorderWindow
      modifies this`host
      ensures Valid()
      ensures host == old(host).(
        resizedHandlers := 0,
        rootViewHandlers := if old(host).border.value.overlayMode && old(host).hasRootView
                            then Unsubscribe(old(host).rootViewHandlers)
                            else old(host).rootViewHandlers,
        bottomLayerDisposed := true)
    {
      host := host.(resizedHandlers := Unsubscribe(host.resizedHandlers));
      if host.border.value.overlayMode && host.hasRootView {
        host := host.(rootViewHandlers := Unsubscribe(host.rootViewHandlers));
      }
      GetBorderWindowBottomLayer();
      host := host.(bottomLayerDisposed := true);
    }

    /** convertBorderWindowSizeToRealWindowSize, in place. */
    method ConvertBorderWindowSizeToRealWindowSize(size: Uint16Pair)
      requires Valid()
      modifies size
      ensures size.Value() == BorderedToReal(host.border, old(size.Value()))
    {
      if host.isBorderWindow {
        var g := host.border.value;
        var height := ToUShort(size.height as int + g.borderHeight + g.lineThickness);
        var width := ToUShort(size.width as int + g.lineThickness * 2);
        size.height := height;
        size.width := width;
      }
    }

    /** convertRealWindowSizeToBorderWindowSize, in place. */
    method ConvertRealWindowSizeToBorderWindowSize(size: Uint16Pair)
      requires Valid()
      modifies size
      ensures size.Value() == RealToBordered(host.border, env.maximized, old(size.Value()))
    {
      if host.isBorderWindow && !(host.border.value.overlayMode && IsMaximized()) {
        var g := host.border.value;
        var height := ToUShort(size.height as int - g.borderHeight - g.lineThickness);
        var width := ToUShort(size.width as int - g.lineThickness * 2);
        size.height := height;
        size.width := width;
      }
    }
  }
}
