/** A C# reference that may be null. */
module Wrappers {
  datatype Option<T> = None | Some(value: T)
}

/** The vocabulary shared by the border host and the border policy: integer
    sizes and positions, float points (modelled as exact reals), the ten
    border directions and the geometry a border policy exposes. */
module Geometry {

  /** Size2D: an integer width and height. */
  datatype Size = Size(width: int, height: int) {
    function Plus(d: Size): Size { Size(width + d.width, height + d.height) }
    function Minus(d: Size): Size { Size(width - d.width, height - d.height) }
  }

  /** Position2D: an integer window position. */
  datatype Position = Position(x: int, y: int) {
    function Plus(dx: int, dy: int): Position { Position(x + dx, y + dy) }
  }

  /** A pair of floats (a touch point, a gesture displacement). */
  datatype Point = Point(x: real, y: real)

  /** Window.BorderDirection: a resize direction, Move, or None. */
  datatype BorderDirection =
    | None | TopLeft | Top | TopRight | Left | Right | BottomLeft | Bottom | BottomRight | Move
  {
    /** The directions that drag the left or the right edge of the window. */
    predicate DragsVerticalEdge() {
      TopLeft? || Left? || BottomLeft? || TopRight? || Right? || BottomRight?
    }

    /** The directions that drag the top or the bottom edge of the window. */
    predicate DragsHorizontalEdge() {
      TopLeft? || Top? || TopRight? || BottomLeft? || Bottom? || BottomRight?
    }

    /** A direction the server is asked to resize in. */
    predicate IsResize() { !None? && !Move? }
  }

  /** A MinSize or MaxSize property, which may be unset (null). */
  datatype SizeLimit = Unset | Limit(size: Size)

  /** The properties of IBorderInterface that the host reads. The source
      declares the three thicknesses `uint`. */
  datatype BorderGeometry = BorderGeometry(
    lineThickness: nat,
    touchThickness: nat,
    borderHeight: nat,
    minSize: SizeLimit,
    maxSize: SizeLimit,
    overlayMode: bool)
  {
    /** What the border adds to the window: a line on the left, the right
        and the top, and the border strip below. */
    function Footprint(): (f: Size)
      ensures f.width >= 0 && f.height >= borderHeight
    {
      Size(2 * lineThickness, borderHeight + lineThickness)
    }
  }

  /** The constants of DefaultBorder. */
  const DefaultHeight: nat := 50
  const DefaultLineThickness: nat := 5
  const DefaultTouchThickness: nat := 20
  const DefaultMinSize: Size := Size(100, 0)

  /** The geometry a freshly constructed DefaultBorder exposes. */
  function DefaultBorderGeometry(): (g: BorderGeometry)
    ensures g.lineThickness == 5 && g.touchThickness == 20 && g.borderHeight == 50
    ensures g.minSize == Limit(Size(100, 0)) && g.maxSize == Unset && !g.overlayMode
  {
    BorderGeometry(DefaultLineThickness, DefaultTouchThickness, DefaultHeight,
                   Limit(DefaultMinSize), Unset, false)
  }

  /** The C# cast `(int)f` of a float: truncation toward zero. */
  function TruncateToInt(r: real): (n: int)
    ensures 0.0 <= r ==> 0 <= n && n as real <= r < n as real + 1.0
    ensures r < 0.0 ==> n <= 0 && n as real - 1.0 < r <= n as real
  {
    if r >= 0.0 then r.Floor else -((-r).Floor)
  }
}

/** The event payloads the border callbacks receive. */
module Events {
  import opened Geometry

  /** PointStateType of the first touch point (Started and Finished are
      the same values as Down and Up). */
  datatype PointState = Down | Up | Motion | Leave | Stationary | Interrupted

  /** A touch frame: the state of point 0 and the number of points. */
  datatype Touch = Touch(state: PointState, pointCount: nat)

  /** Gesture.StateType. */
  datatype GestureState = Clear | Started | Continuing | Finished | Cancelled | Possible {
    predicate Ends() { Finished? || Cancelled? }
  }

  datatype PanGesture = PanGesture(state: GestureState, position: Point, screenDisplacement: Point)
  datatype PinchGesture = PinchGesture(state: GestureState, scale: real)
  datatype TapGesture = TapGesture(numberOfTaps: nat)
}
