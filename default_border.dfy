/** The default border policy (DefaultBorder.cs): its geometry defaults,
    the pinch and pan gestures on the border, the icon callbacks, and the
    two-finger long press that turns the whole window into a move and
    maximize handle until the gesture ends. */
module DefaultBorderPolicy {
  import opened Wrappers
  import opened Geometry
  import opened Events
  import opened BorderHost

  /** CurrentGesture: the window gesture that holds the long-press session.
      The source declares a pinch rank as well, but no window pinch
      detector ever takes it. */
  datatype CurrentGesture = NoGesture | Tap | Pan | Pinch {
    function Rank(): nat {
      match this
      case NoGesture => 0
      case Tap => 1
      case Pan => 2
      case Pinch => 3
    }
  }

  /** `currentGesture <= kind`: a gesture of kind `kind` may act unless a
      higher-ranked gesture holds the session. */
  function MayAct(current: CurrentGesture, kind: CurrentGesture): (b: bool)
    ensures current.NoGesture? ==> b
    ensures current == kind ==> b
    ensures kind.Tap? ==> (b <==> current.NoGesture? || current.Tap?)
    ensures kind.Pan? ==> (b <==> !current.Pinch?)
  {
    current.Rank() <= kind.Rank()
  }

  /** The long-press timer: the field is null, or holds a timer that is
      running, or one that has stopped (it returned false from its tick,
      or was disposed) but has not been released. */
  datatype TimerState = NoTimer | Running | Stopped

  /** The request a finished or cancelled pinch makes: pinching in restores
      a maximized window and minimizes any other; pinching out, or not at
      all, maximizes. */
  function PinchRequest(preScale: real, scale: real, maximized: bool): (r: Request)
    ensures r.Maximize? || r.Minimize?
    ensures r == Request.Maximize(true) <==> preScale <= scale
    ensures r == Request.Maximize(false) <==> preScale > scale && maximized
    ensures r.Minimize? <==> preScale > scale && !maximized
  {
    if preScale > scale then
      if maximized then Request.Maximize(false) else Request.Minimize
    else Request.Maximize(true)
  }

  /** Pinching out maximizes; pinching in afterwards restores the window. */
  lemma PinchOutThenInRestores(env: WindowEnv, s0: real, s1: real, s2: real, s3: real)
    requires s0 <= s1 && s2 > s3
    ensures var out := Issue(env, PinchRequest(s0, s1, env.maximized));
      out.maximized
      && !Issue(out, PinchRequest(s2, s3, out.maximized)).maximized
  {
  }

  /** The change of window size a continuing border pan makes while
      dragging in the resize direction `d` by (dx, dy): a corner follows
      both components, a left or right edge only dx, a top or bottom edge
      only dy. */
  function PanResizeDelta(d: BorderDirection, dx: int, dy: int): (delta: Size)
    requires d.IsResize()
    ensures delta.width == (if d.DragsVerticalEdge() then dx else 0)
    ensures delta.height == (if d.DragsHorizontalEdge() then dy else 0)
  {
    if d.BottomLeft? || d.BottomRight? || d.TopLeft? || d.TopRight? then Size(dx, dy)
    else if d.Left? || d.Right? then Size(dx, 0)
    else Size(0, dy)
  }

  /** The window once a border pan has started in direction `d`: Move
      restores a maximized window or asks the server to move it, a resize
      direction asks the server to resize, None asks nothing. */
  function BorderPanStartEnv(env: WindowEnv, d: BorderDirection): (e: WindowEnv)
    ensures d.None? <==> e == env
    ensures d.IsResize() ==> e == Issue(env, ResizeToServer(d))
    ensures d.Move? ==> e.requests == env.requests + [if env.maximized then Request.Maximize(false)
                                                     else MoveToServer]
    ensures d.Move? ==> !e.maximized
  {
    if d.Move? then
      if env.maximized then Issue(env, Request.Maximize(false)) else Issue(env, MoveToServer)
    else if d.None? then env
    else Issue(env, ResizeToServer(d))
  }

  /** The window after one update of a border pan in direction `d` by the
      screen displacement `delta`, both components truncated toward zero:
      a resize sets WindowSize (read as `windowSize`) to its value plus
      PanResizeDelta, a move shifts the position, None changes nothing. */
  function BorderDragEnv(env: WindowEnv, border: Option<BorderGeometry>, windowSize: Size,
                         d: BorderDirection, delta: Point): (e: WindowEnv)
    ensures d.None? ==> e == env
    ensures d.Move? ==>
      e == env.(position := env.position.Plus(TruncateToInt(delta.x), TruncateToInt(delta.y)))
    ensures d.IsResize() ==>
      e == env.(size := RealSize(border, windowSize.Plus(
                         PanResizeDelta(d, TruncateToInt(delta.x), TruncateToInt(delta.y)))))
  {
    var dx := TruncateToInt(delta.x);
    var dy := TruncateToInt(delta.y);
    if d.Move? then env.(position := env.position.Plus(dx, dy))
    else if d.None? then env
    else env.(size := RealSize(border, windowSize.Plus(PanResizeDelta(d, dx, dy))))
  }

  /** While the window is not overlaid-maximized, a border drag changes the
      real window size by exactly PanResizeDelta. */
  lemma BorderDragResizesByDelta(env: WindowEnv, border: Option<BorderGeometry>,
                                 d: BorderDirection, delta: Point)
    requires d.IsResize() && !OverlayMaximized(border, env.maximized)
    ensures BorderDragEnv(env, border, BorderedSize(border, env.maximized, env.size), d, delta).size
            == env.size.Plus(PanResizeDelta(d, TruncateToInt(delta.x), TruncateToInt(delta.y)))
  {
    AdjustWindowSize(border, env.maximized, env.size,
                     PanResizeDelta(d, TruncateToInt(delta.x), TruncateToInt(delta.y)));
  }

  class DefaultBorder {
    /** BorderLineThickness, TouchThickness, BorderHeight, MinSize, MaxSize
        and OverlayMode. */
    var geometry: BorderGeometry
    /** BorderWindow: null until the host attaches itself, and after Close. */
    var window: Window?
    /** rootView != null: CreateBorderView has built the border and its icons. */
    var hasRootView: bool
    /** The icons show their dark variants and the corners are square (the
        maximized look). */
    var darkIcons: bool
    /** OnCreated has attached the border gestures and the intercept handler. */
    var attached: bool
    var direction: BorderDirection
    var preScale: real
    var isWinGestures: bool
    var timer: TimerState
    var currentGesture: CurrentGesture
    var disposed: bool

    /** The window the policy drives, as a frame: empty when BorderWindow
        is null. */
    function Attached(): (ws: set<Window>)
      reads this
      ensures window != null <==> window in ws
    {
      if window == null then {} else {window}
    }

    /** The long-press machine: a running timer means no session is open,
        and while the policy is attached and alive its intercept handler is
        subscribed exactly when no session is open, and the gesture view
        covers the window exactly while one is. */
    ghost predicate Valid()
      reads this, window
    {
      (timer.Running? ==> !isWinGestures)
      && (window != null && attached && !disposed ==>
            window.env.policyTouchHandlers == (if isWinGestures then 0 else 1)
            && window.env.gestureViewAdded == isWinGestures)
    }

    constructor ()
      ensures Valid()
      ensures geometry == DefaultBorderGeometry()
      ensures window == null && !hasRootView && !darkIcons && !attached
      ensures direction == BorderDirection.None && preScale == 0.0
      ensures !isWinGestures && timer == NoTimer && currentGesture == NoGesture && !disposed
    {
      geometry := DefaultBorderGeometry();
      window := null;
      hasRootView := false;
      darkIcons := false;
      attached := false;
      direction := BorderDirection.None;
      preScale := 0.0;
      isWinGestures := false;
      timer := NoTimer;
      currentGesture := NoGesture;
      disposed := false;
    }

    /** The BorderWindow setter, which the host calls once the border is
        built. */
    method SetBorderWindow(w: Window?)
      modifies this
      ensures window == w
      ensures !attached ==> (Valid() <==> old(Valid()))
      ensures geometry == old(geometry) && hasRootView == old(hasRootView)
      ensures darkIcons == old(darkIcons) && attached == old(attached)
      ensures direction == old(direction) && preScale == old(preScale)
      ensures isWinGestures == old(isWinGestures) && timer == old(timer)
      ensures currentGesture == old(currentGesture) && disposed == old(disposed)
    {
      window := w;
    }

    /** CreateBorderView(rootView): builds the border with its light icons
        when a root view is given. */
    method CreateBorderView(rootView: bool)
      modifies this`hasRootView, this`darkIcons
      ensures rootView ==> hasRootView && !darkIcons
      ensures !rootView ==> hasRootView == old(hasRootView) && darkIcons == old(darkIcons)
    {
      if !rootView {
        return;
      }
      hasRootView := true;
      darkIcons := false;
    }

    /** OnCreated(rootView): attaches the border's pan and pinch detectors
        and, through AddInterceptGesture, subscribes the intercept handler
        on the window with no session open. */
    method OnCreated(rootView: bool)
      requires Valid() && !attached
      requires rootView ==> window != null
      requires rootView ==> window.env.policyTouchHandlers == 0 && !window.env.gestureViewAdded
      modifies this`attached, this`isWinGestures, Attached()`env
      ensures Valid()
      ensures !rootView ==>
        !attached && isWinGestures == old(isWinGestures) && (window != null ==> unchanged(window))
      ensures rootView ==>
        attached && !isWinGestures
        && window.env == old(window.env).(policyTouchHandlers := 1)
        && window.host == old(window.host)
    {
      if !rootView {
        return;
      }
      attached := true;
      AddInterceptGesture();
    }

    /** AddInterceptGesture. */
    method AddInterceptGesture()
      requires window != null
      modifies this`isWinGestures, Attached()`env
      ensures !isWinGestures
      ensures window.env == old(window.env).(policyTouchHandlers := Subscribe(old(window.env).policyTouchHandlers))
    {
      isWinGestures := false;
      window.AddPolicyTouchHandler();
    }

    /** OnPinchGestureDetected: a pinch remembers its starting scale and,
        when it ends, restores, minimizes or maximizes by PinchRequest. */
    method OnPinchGestureDetected(e: Option<PinchGesture>)
      requires Valid()
      requires e.Some? && e.value.state.Ends() ==> window != null
      modifies this`preScale, Attached()`env
      ensures Valid()
      ensures e.Some? && e.value.state.Started? ==>
        preScale == e.value.scale && (window != null ==> unchanged(window))
      ensures e.Some? && e.value.state.Ends() ==>
        preScale == old(preScale)
        && window.env == Issue(old(window.env), PinchRequest(old(preScale), e.value.scale,
                                                             old(window.env).maximized))
      ensures !(e.Some? && (e.value.state.Started? || e.value.state.Ends())) ==>
        preScale == old(preScale) && (window != null ==> unchanged(window))
    {
      if e.None? {
        return;
      }
      var pinch := e.value;
      if pinch.state.Started? {
        preScale := pinch.scale;
      } else if pinch.state.Finished? || pinch.state.Cancelled? {
        if preScale > pinch.scale {
          if window.IsMaximized() {
            window.Maximize(false);
          } else {
            window.Minimize();
          }
        } else {
          window.Maximize(true);
        }
      }
    }

    /** When a border pan touches the window: at its start, on every update
        of a drag, and at its end if a long-press session is open. */
    predicate PanNeedsWindow(e: Option<PanGesture>)
      reads this
    {
      e.Some? &&
      (e.value.state.Started?
       || (e.value.state.Continuing? && !direction.None?)
       || (e.value.state.Ends() && isWinGestures))
    }

    /** OnPanGestureDetected: a pan on the border picks a direction where it
        starts; Move restores a maximized window or starts a server move, a
        resize direction starts a server resize. While it continues, the
        window follows the truncated screen displacement (its size for a
        resize, its position for a move); when it ends the direction is
        cleared along with any long-press session. */
    method OnPanGestureDetected(e: Option<PanGesture>)
      requires Valid()
      requires PanNeedsWindow(e) ==> window != null
      requires e.Some? && e.value.state.Started? ==> window.host.border.Some?
      modifies this`direction, this`isWinGestures, Attached()`env
      ensures Valid()
      ensures e.None? || !(e.value.state.Started? || e.value.state.Continuing? || e.value.state.Ends()) ==>
        direction == old(direction) && isWinGestures == old(isWinGestures)
        && (window != null ==> unchanged(window))
      ensures e.Some? && e.value.state.Started? ==>
        isWinGestures == old(isWinGestures)
        && direction == Direction(window.host.border.value, old(window.WindowSize()),
                                  e.value.position.x, e.value.position.y)
        && window.env == BorderPanStartEnv(old(window.env), direction)
      ensures e.Some? && e.value.state.Continuing? ==>
        direction == old(direction) && isWinGestures == old(isWinGestures)
        && (window != null ==>
              window.env == BorderDragEnv(old(window.env), window.host.border, old(window.WindowSize()),
                                          direction, e.value.screenDisplacement))
      ensures e.Some? && e.value.state.Ends() ==>
        direction == BorderDirection.None && !isWinGestures
        && (window != null ==> window.env == ClearedEnv(old(window.env), old(isWinGestures)))
    {
      if e.None? {
        return;
      }
      var pan := e.value;
      if pan.state.Started? {
        BeginBorderPan(pan.position);
      } else if pan.state.Continuing? {
        if !direction.None? {
          DragBorder(pan.screenDisplacement);
        }
      } else if pan.state.Finished? || pan.state.Cancelled? {
        direction := BorderDirection.None;
        ClearWindowGesture();
      }
    }

    /** The start of a border pan: the direction under the touch decides
        between a move, a resize and nothing. */
    method BeginBorderPan(position: Point)
      requires window != null && window.host.border.Some?
      modifies this`direction, window`env
      ensures direction == Direction(window.host.border.value, old(window.WindowSize()),
                                     position.x, position.y)
      ensures window.env == BorderPanStartEnv(old(window.env), direction)
    {
      direction := window.GetDirection(position.x, position.y);
      if direction.Move? {
        if window.IsMaximized() {
          window.Maximize(false);
        } else {
          window.RequestMoveToServer();
        }
      } else if !direction.None? {
        window.RequestResizeToServer(direction);
      }
    }

    /** One update of a border pan in progress: a resize changes WindowSize
        by the truncated displacement, a move changes WindowPosition by it. */
    method DragBorder(displacement: Point)
      requires window != null
      modifies window`env
      ensures window.env == BorderDragEnv(old(window.env), window.host.border, old(window.WindowSize()),
                                          direction, displacement)
    {
      var dx := TruncateToInt(displacement.x);
      var dy := TruncateToInt(displacement.y);
      if direction.BottomLeft? || direction.BottomRight? || direction.TopLeft? || direction.TopRight? {
        window.SetWindowSize(window.WindowSize().Plus(Size(dx, dy)));
      } else if direction.Left? || direction.Right? {
        window.SetWindowSize(window.WindowSize().Plus(Size(dx, 0)));
      } else if direction.Bottom? || direction.Top? {
        window.SetWindowSize(window.WindowSize().Plus(Size(0, dy)));
      } else if direction.Move? {
        window.SetWindowPosition(window.env.position.Plus(dx, dy));
      }
    }

    /** The corner icons: a press starts a server resize from that bottom
        corner, closing any long-press session first; a null event is not
        consumed, any other is. */
    method OnLeftCornerIconTouched(e: Option<Touch>) returns (consumed: bool)
      requires Valid()
      requires e.Some? && e.value.state == Down ==> window != null
      modifies this`isWinGestures, Attached()`env
      ensures Valid()
      ensures consumed <==> e.Some?
      ensures e.Some? && e.value.state == Down ==>
        !isWinGestures
        && window.env == Issue(ClearedEnv(old(window.env), old(isWinGestures)),
                               ResizeToServer(BottomLeft))
      ensures !(e.Some? && e.value.state == Down) ==>
        isWinGestures == old(isWinGestures) && (window != null ==> unchanged(window))
    {
      if e.None? {
        return false;
      }
      if e.value.state == Down {
        ClearWindowGesture();
        window.RequestResizeToServer(BottomLeft);
      }
      return true;
    }

    method OnRightCornerIconTouched(e: Option<Touch>) returns (consumed: bool)
      requires Valid()
      requires e.Some? && e.value.state == Down ==> window != null
      modifies this`isWinGestures, Attached()`env
      ensures Valid()
      ensures consumed <==> e.Some?
      ensures e.Some? && e.value.state == Down ==>
        !isWinGestures
        && window.env == Issue(ClearedEnv(old(window.env), old(isWinGestures)),
                               ResizeToServer(BottomRight))
      ensures !(e.Some? && e.value.state == Down) ==>
        isWinGestures == old(isWinGestures) && (window != null ==> unchanged(window))
    {
      if e.None? {
        return false;
      }
      if e.value.state == Down {
        ClearWindowGesture();
        window.RequestResizeToServer(BottomRight);
      }
      return true;
    }

    /** The minimize icon: a release closes any session and minimizes. */
    method OnMinimizeIconTouched(e: Option<Touch>) returns (consumed: bool)
      requires Valid()
      requires e.Some? && e.value.state == Up ==> window != null
      modifies this`isWinGestures, Attached()`env
      ensures Valid()
      ensures consumed <==> e.Some?
      ensures e.Some? && e.value.state == Up ==>
        !isWinGestures
        && window.env == Issue(ClearedEnv(old(window.env), old(isWinGestures)), Request.Minimize)
      ensures !(e.Some? && e.value.state == Up) ==>
        isWinGestures == old(isWinGestures) && (window != null ==> unchanged(window))
    {
      if e.None? {
        return false;
      }
      if e.value.state == Up {
        ClearWindowGesture();
        window.Minimize();
      }
      return true;
    }

    /** The maximize icon: a release closes any session and toggles
        maximization. */
    method OnMaximizeIconTouched(e: Option<Touch>) returns (consumed: bool)
      requires Valid()
      requires e.Some? && e.value.state == Up ==> window != null
      modifies this`isWinGestures, Attached()`env
      ensures Valid()
      ensures consumed <==> e.Some?
      ensures e.Some? && e.value.state == Up ==>
        !isWinGestures && window.env.maximized == !old(window.env.maximized)
        && window.env == Issue(ClearedEnv(old(window.env), old(isWinGestures)),
                               Request.Maximize(!old(window.env.maximized)))
      ensures !(e.Some? && e.value.state == Up) ==>
        isWinGestures == old(isWinGestures) && (window != null ==> unchanged(window))
    {
      if e.None? {
        return false;
      }
      if e.value.state == Up {
        ClearWindowGesture();
        if window.IsMaximized() {
          window.Maximize(false);
        } else {
          window.Maximize(true);
        }
      }
      return true;
    }

    /** The close icon: a release destroys the window and forgets it. */
    method OnCloseIconTouched(e: Option<Touch>) returns (consumed: bool)
      requires Valid()
      requires e.Some? && e.value.state == Up ==> window != null
      modifies this`window, Attached()`env
      ensures Valid()
      ensures consumed <==> e.Some?
      ensures e.Some? && e.value.state == Up ==>
        window == null && old(window).env == Issue(old(window.env), Request.Destroy)
      ensures !(e.Some? && e.value.state == Up) ==>
        window == old(window) && (window != null ==> unchanged(window))
    {
      if e.None? {
        return false;
      }
      if e.value.state == Up {
        window.Destroy();
        window := null;
      }
      return true;
    }

    /** UpdateIcons: once the border is built, a maximized window gets the
        dark icons and an opaque window, any other the light icons and a
        transparent window. */
    method UpdateIcons()
      requires Valid()
      modifies this`darkIcons, Attached()`env
      ensures Valid()
      ensures window != null && hasRootView ==>
        darkIcons == window.env.maximized
        && window.env == old(window.env).(transparent := !old(window.env.maximized))
      ensures !(window != null && hasRootView) ==>
        darkIcons == old(darkIcons) && (window != null ==> unchanged(window))
    {
      if window != null && hasRootView {
        if window.IsMaximized() {
          darkIcons := true;
          window.SetTransparency(false);
        } else {
          darkIcons := false;
          window.SetTransparency(true);
        }
      }
    }

    /** OnResized(width, height), which the host calls with the clamped size. */
    method OnResized(width: int, height: int)
      requires Valid()
      modifies this`darkIcons, Attached()`env
      ensures Valid()
      ensures window != null && hasRootView ==>
        darkIcons == window.env.maximized
        && window.env == old(window.env).(transparent := !old(window.env.maximized))
      ensures !(window != null && hasRootView) ==>
        darkIcons == old(darkIcons) && (window != null ==> unchanged(window))
    {
      UpdateIcons();
    }

    /** OnWinInterceptedTouch: two fingers resting on the window start the
        long-press timer, unless a session is open or a timer is already
        held; any other touch resets the gesture rank and releases the
        timer. The touch is never consumed. */
    method OnWinInterceptedTouch(e: Touch) returns (consumed: bool)
      requires Valid()
      modifies this`timer, this`currentGesture
      ensures Valid() && !consumed
      ensures e.state == Stationary && e.pointCount == 2 ==>
        currentGesture == old(currentGesture)
        && timer == (if !isWinGestures && old(timer).NoTimer? then Running else old(timer))
      ensures !(e.state == Stationary && e.pointCount == 2) ==>
        currentGesture == NoGesture && timer == NoTimer
      // a live timer is never replaced by a second one
      ensures old(timer) != NoTimer ==> timer == old(timer) || timer == NoTimer
    {
      if e.state == Stationary && e.pointCount == 2 {
        if !isWinGestures && timer.NoTimer? {
          timer := Running;
        }
      } else {
        currentGesture := NoGesture;
        if !timer.NoTimer? {
          timer := NoTimer;
        }
      }
      consumed := false;
    }

    /** OnTick of the long-press timer: covers the window with the gesture
        view, attaches the tap and pan detectors, unsubscribes the intercept
        handler and opens the session. The tick returns false, which stops
        the timer, but the field keeps it. */
    method OnTick() returns (again: bool)
      requires Valid() && timer.Running? && window != null
      modifies this`isWinGestures, this`timer, Attached()`env
      ensures Valid() && !again
      ensures isWinGestures && timer == Stopped
      ensures window.env == old(window.env).(gestureViewAdded := true,
                                             policyTouchHandlers := Unsubscribe(old(window.env).policyTouchHandlers))
    {
      window.SetGestureViewAdded(true);
      window.RemovePolicyTouchHandler();
      isWinGestures := true;
      timer := Stopped;
      again := false;
    }

    /** OnWinTapGestureDetected: unless a pan holds the session, a tap takes
        it; a double tap toggles maximization, any other tap count closes
        the session. */
    method OnWinTapGestureDetected(e: TapGesture)
      requires Valid()
      requires MayAct(currentGesture, Tap) && (e.numberOfTaps == 2 || isWinGestures) ==> window != null
      modifies this`currentGesture, this`isWinGestures, Attached()`env
      ensures Valid()
      ensures !MayAct(old(currentGesture), Tap) ==>
        currentGesture == old(currentGesture) && isWinGestures == old(isWinGestures)
        && (window != null ==> unchanged(window))
      ensures MayAct(old(currentGesture), Tap) && e.numberOfTaps == 2 ==>
        currentGesture == Tap && isWinGestures == old(isWinGestures)
        && window.env == Issue(old(window.env), Request.Maximize(!old(window.env.maximized)))
      ensures MayAct(old(currentGesture), Tap) && e.numberOfTaps != 2 ==>
        currentGesture == Tap && !isWinGestures
        && (window != null ==> window.env == ClearedEnv(old(window.env), old(isWinGestures)))
    {
      if currentGesture.Rank() <= Tap.Rank() {
        currentGesture := Tap;
        if e.numberOfTaps == 2 {
          if !window.IsMaximized() {
            window.Maximize(true);
          } else {
            window.Maximize(false);
          }
        } else {
          ClearWindowGesture();
        }
      }
    }

    /** OnWinPanGestureDetected: unless a pinch holds the session, a pan
        takes it when it starts, restoring a maximized window or starting a
        server move, and releases it and closes the session when it ends. */
    method OnWinPanGestureDetected(e: PanGesture)
      requires Valid()
      requires MayAct(currentGesture, Pan) && (e.state.Started? || (e.state.Ends() && isWinGestures)) ==>
        window != null
      modifies this`currentGesture, this`isWinGestures, Attached()`env
      ensures Valid()
      ensures !MayAct(old(currentGesture), Pan) || !(e.state.Started? || e.state.Ends()) ==>
        currentGesture == old(currentGesture) && isWinGestures == old(isWinGestures)
        && (window != null ==> unchanged(window))
      ensures MayAct(old(currentGesture), Pan) && e.state.Started? ==>
        currentGesture == Pan && isWinGestures == old(isWinGestures)
        && window.env == Issue(old(window.env),
                               if old(window.env.maximized) then Request.Maximize(false)
                               else MoveToServer)
      ensures MayAct(old(currentGesture), Pan) && e.state.Ends() ==>
        currentGesture == NoGesture && !isWinGestures
        && (window != null ==> window.env == ClearedEnv(old(window.env), old(isWinGestures)))
    {
      if currentGesture.Rank() <= Pan.Rank() {
        if e.state.Started? {
          currentGesture := Pan;
          if window.IsMaximized() {
            window.Maximize(false);
          } else {
            window.RequestMoveToServer();
          }
        } else if e.state.Finished? || e.state.Cancelled? {
          currentGesture := NoGesture;
          ClearWindowGesture();
        }
      }
    }

    /** ClearWindowGesture: closes an open long-press session (removes the
        gesture view and re-subscribes the intercept handler); does nothing
        when none is open. */
    method ClearWindowGesture()
      requires Valid()
      requires isWinGestures ==> window != null
      modifies this`isWinGestures, Attached()`env
      ensures Valid() && !isWinGestures
      ensures window != null ==> window.env == ClearedEnv(old(window.env), old(isWinGestures))
    {
      if isWinGestures {
        isWinGestures := false;
        window.SetGestureViewAdded(false);
        window.AddPolicyTouchHandler();
      }
    }

    /** Dispose(disposing): the first call closes any session, unsubscribes
        the intercept handler and stops the timer (when disposing), and
        marks the policy disposed; later calls do nothing. */
    method Dispose(disposing: bool)
      requires Valid()
      requires !disposed && disposing && isWinGestures ==> window != null
      modifies this`isWinGestures, this`timer, this`disposed, Attached()`env
      ensures Valid() && disposed
      ensures old(disposed) ==>
        isWinGestures == old(isWinGestures) && timer == old(timer)
        && (window != null ==> unchanged(window))
      ensures !old(disposed) && disposing ==>
        !isWinGestures && !timer.Running?
        && (window != null ==>
              window.env == ClearedEnv(old(window.env), old(isWinGestures))
                              .(policyTouchHandlers := Unsubscribe(
                                  ClearedEnv(old(window.env), old(isWinGestures)).policyTouchHandlers)))
      ensures !old(disposed) && !disposing ==>
        isWinGestures == old(isWinGestures) && timer == old(timer)
        && (window != null ==> unchanged(window))
      // once an attached policy is disposed its handler is gone and the
      // window is uncovered
      ensures !old(disposed) && disposing && window != null && attached ==>
        window.env.policyTouchHandlers == 0 && !window.env.gestureViewAdded
    {
      if disposed {
        return;
      }
      if disposing {
        ClearWindowGesture();
        if window != null {
          window.RemovePolicyTouchHandler();
        }
        if timer.Running? {
          timer := Stopped;
        }
      }
      disposed := true;
    }
  }

  /** The window once ClearWindowGesture has run with a session open
      (`open`) or not. */
  function ClearedEnv(env: WindowEnv, open: bool): (e: WindowEnv)
    ensures !open ==> e == env
    ensures open ==> !e.gestureViewAdded && e.policyTouchHandlers == env.policyTouchHandlers + 1
  {
    if open then env.(gestureViewAdded := false, policyTouchHandlers := Subscribe(env.policyTouchHandlers))
    else env
  }
}
