/**
 * The drawing state behind the interpreter (`GraphicsHandler`): a cursor,
 * a pen colour shared by the pen and the brush, a fill flag, and the
 * drawing surface. Drawing on it is modelled as a log of draw events: what
 * is painted, not the pixels it turns into.
 */
module Graphics {
  import opened Text

  /** A `Color`, identified by its case-folded `KnownColor` name. */
  type Colour = string

  const White: Colour := "white"

  /** `Globals.startingX` and `Globals.startingY`. */
  const StartingX: Int32 := 0
  const StartingY: Int32 := 0

  /** A `PointF` vertex; the model never computes with its coordinates. */
  datatype PointF = PointF(x: real, y: real)

  /** One call into `System.Drawing.Graphics`. */
  datatype DrawEvent =
    | Line(colour: Colour, x0: int, y0: int, x1: int, y1: int)                                 // DrawLine
    | Ellipse(filled: bool, colour: Colour, left: int, top: int, width: int, height: int)      // FillEllipse or DrawEllipse
    | Box(filled: bool, colour: Colour, left: int, top: int, width: int, height: int)          // FillRectangle or DrawRectangle
    | Polygon(filled: bool, colour: Colour, points: seq<PointF>)                               // FillPolygon or DrawPolygon
    | Wipe(colour: Colour)                                                                     // Clear

  /** The observable state of a `GraphicsHandler`. */
  datatype Canvas = Canvas(x: Int32, y: Int32, pen: Colour, fill: bool, log: seq<DrawEvent>)

  /** C# `int` arithmetic, which wraps around silently. */
  function Wrap32(n: int): (r: Int32)
    ensures IntMin <= n <= IntMax ==> r == n
    ensures (r - n) % 0x1_0000_0000 == 0
  {
    (n - IntMin) % 0x1_0000_0000 + IntMin
  }

  /** The events still visible on the surface: those after the last wipe. */
  function Visible(log: seq<DrawEvent>): (v: seq<DrawEvent>)
    ensures forall i :: 0 <= i < |v| ==> !v[i].Wipe?
    ensures |v| <= |log| && v == log[|log| - |v|..]
    ensures |v| < |log| ==> log[|log| - |v| - 1].Wipe?
  {
    if log == [] || log[|log| - 1].Wipe? then []
    else Visible(log[..|log| - 1]) + [log[|log| - 1]]
  }

  // ---------------------------------------------------------------------
  // The state each operation leads to

  /** The state a new `GraphicsHandler` starts in. */
  function Initial(): Canvas
  {
    Canvas(StartingX, StartingY, White, false, [])
  }

  /** The `X` setter: a negative value is ignored. */
  function WithX(c: Canvas, value: Int32): Canvas
  {
    if value >= 0 then c.(x := value) else c
  }

  /** The `Y` setter: a negative value is ignored. */
  function WithY(c: Canvas, value: Int32): Canvas
  {
    if value >= 0 then c.(y := value) else c
  }

  /** The `PenColour` setter. */
  function WithPen(c: Canvas, colour: Colour): Canvas
  {
    c.(pen := colour)
  }

  /** The `Fill` setter. */
  function WithFill(c: Canvas, fill: bool): Canvas
  {
    c.(fill := fill)
  }

  function Emit(c: Canvas, e: DrawEvent): Canvas
  {
    c.(log := c.log + [e])
  }

  /** `drawLine`: from the cursor to the end point, in the pen colour. */
  function AfterLine(c: Canvas, endX: Int32, endY: Int32): Canvas
  {
    Emit(c, Line(c.pen, c.x, c.y, endX, endY))
  }

  /** `drawCircle`: the bounding box centred on the cursor, in 32-bit arithmetic. */
  function AfterCircle(c: Canvas, radius: Int32): Canvas
  {
    var diameter := Wrap32(radius * 2);
    Emit(c, Ellipse(c.fill, c.pen, Wrap32(c.x - radius), Wrap32(c.y - radius), diameter, diameter))
  }

  /** `drawRectangle`: anchored at the cursor. */
  function AfterRectangle(c: Canvas, width: Int32, height: Int32): Canvas
  {
    Emit(c, Box(c.fill, c.pen, c.x, c.y, width, height))
  }

  /** `drawTriangle`: the polygon through the given points. */
  function AfterTriangle(c: Canvas, points: seq<PointF>): Canvas
  {
    Emit(c, Polygon(c.fill, c.pen, points))
  }

  /** `getGraphics().Clear(colour)`: the whole surface painted over. */
  function AfterWipe(c: Canvas, colour: Colour): Canvas
  {
    Emit(c, Wipe(colour))
  }

  // ---------------------------------------------------------------------
  // Properties of those states

  /** The cursor setters keep the cursor non-negative, and store every non-negative value. */
  lemma SettersKeepCursor(c: Canvas, value: Int32)
    requires c.x >= 0 && c.y >= 0
    ensures WithX(c, value).x >= 0 && WithY(c, value).y >= 0
    ensures WithX(c, value).x == (if value >= 0 then value else c.x)
    ensures WithY(c, value).y == (if value >= 0 then value else c.y)
    ensures WithX(c, value).(x := c.x) == c && WithY(c, value).(y := c.y) == c
  {
  }

  /** No draw call moves the cursor or changes the pen or the fill flag; each adds one event. */
  lemma DrawsKeepState(c: Canvas, a: Int32, b: Int32, points: seq<PointF>, colour: Colour)
    ensures forall d | d in [AfterLine(c, a, b), AfterCircle(c, a), AfterRectangle(c, a, b), AfterTriangle(c, points), AfterWipe(c, colour)] ::
      d.(log := c.log) == c && |d.log| == |c.log| + 1 && d.log[..|c.log|] == c.log
  {
  }

  /** `drawLine` starts at the cursor. */
  lemma LineFromCursor(c: Canvas, endX: Int32, endY: Int32)
    ensures AfterLine(c, endX, endY).log == c.log + [Line(c.pen, c.x, c.y, endX, endY)]
  {
  }

  /** Where no arithmetic overflows, the circle's box is (X - r, Y - r, 2r, 2r). */
  lemma CircleBox(c: Canvas, radius: Int32)
    requires IntMin <= 2 * radius <= IntMax
    requires IntMin <= c.x - radius <= IntMax && IntMin <= c.y - radius <= IntMax
    ensures AfterCircle(c, radius).log == c.log + [Ellipse(c.fill, c.pen, c.x - radius, c.y - radius, 2 * radius, 2 * radius)]
  {
  }

  /** A doubled radius past the `int` range wraps to a negative diameter. */
  lemma CircleDiameterWraps(c: Canvas)
    ensures AfterCircle(c, 0x4000_0000).log[|c.log|].width == IntMin
  {
  }

  /** Rectangles, circles and triangles are filled exactly when the fill flag is set. */
  lemma ShapesFilledByFlag(c: Canvas, a: Int32, b: Int32, points: seq<PointF>)
    ensures AfterCircle(c, a).log[|c.log|].filled == c.fill
    ensures AfterRectangle(c, a, b).log[|c.log|] == Box(c.fill, c.pen, c.x, c.y, a, b)
    ensures AfterTriangle(c, points).log[|c.log|] == Polygon(c.fill, c.pen, points)
  {
  }

  /** After a wipe nothing earlier is visible; later events stay visible until the next wipe. */
  lemma {:induction false} WipeHidesEarlier(log: seq<DrawEvent>, colour: Colour, later: seq<DrawEvent>)
    requires forall i :: 0 <= i < |later| ==> !later[i].Wipe?
    ensures Visible(log + [Wipe(colour)] + later) == later
  {
    var full := log + [Wipe(colour)] + later;
    assert full[|log|].Wipe?;
    assert forall i :: |log| < i < |full| ==> full[i] == later[i - |log| - 1];
    assert full[|log| + 1..] == later;
  }

  /** A log without a wipe is visible in full. */
  lemma NoWipeAllVisible(log: seq<DrawEvent>)
    requires forall i :: 0 <= i < |log| ==> !log[i].Wipe?
    ensures Visible(log) == log
  {
  }

  /** An event other than a wipe stays visible behind what was visible before it. */
  lemma VisibleAppend(log: seq<DrawEvent>, e: DrawEvent)
    requires !e.Wipe?
    ensures Visible(log + [e]) == Visible(log) + [e]
  {
    var full := log + [e];
    assert full[..|full| - 1] == log;
  }

  // ---------------------------------------------------------------------
  // The mutable handler

  class GraphicsHandler {
    var x: Int32
    var y: Int32
    var penColour: Colour
    /** `pen.Color` and `brush.Color`: the colours the outline and the fill are drawn in. */
    var strokeColour: Colour
    var brushColour: Colour
    var fill: bool
    /** What has been drawn on the bitmap, oldest first. */
    var log: seq<DrawEvent>

    /** The pen and the brush always carry the pen colour, and the cursor is never negative. */
    ghost predicate Valid()
      reads this
    {
      strokeColour == penColour && brushColour == penColour && x >= 0 && y >= 0
    }

    function Snapshot(): Canvas
      reads this
    {
      Canvas(x, y, penColour, fill, log)
    }

    constructor ()
      ensures Valid() && Snapshot() == Initial()
    {
      x := StartingX;
      y := StartingY;
      fill := false;
      penColour := White;
      strokeColour := White;
      brushColour := White;
      log := [];
    }

    method SetX(value: Int32)
      requires Valid()
      modifies this
      ensures Valid() && Snapshot() == WithX(old(Snapshot()), value)
      ensures unchanged(this`strokeColour, this`brushColour)
    {
      if value >= 0 {
        x := value;
      }
    }

    method SetY(value: Int32)
      requires Valid()
      modifies this
      ensures Valid() && Snapshot() == WithY(old(Snapshot()), value)
      ensures unchanged(this`strokeColour, this`brushColour)
    {
      if value >= 0 {
        y := value;
      }
    }

    /** Sets the pen colour, and with it the pen's and the brush's. */
    method SetPenColour(value: Colour)
      requires Valid()
      modifies this
      ensures Valid() && Snapshot() == WithPen(old(Snapshot()), value)
      ensures strokeColour == value && brushColour == value
    {
      penColour := value;
      strokeColour := value;
      brushColour := value;
    }

    method SetFill(value: bool)
      requires Valid()
      modifies this
      ensures Valid() && Snapshot() == WithFill(old(Snapshot()), value)
    {
      fill := value;
    }

    method DrawLine(endX: Int32, endY: Int32)
      requires Valid()
      modifies this
      ensures Valid() && Snapshot() == AfterLine(old(Snapshot()), endX, endY)
    {
      log := log + [Line(strokeColour, x, y, endX, endY)];
    }

    method DrawCircle(radius: Int32)
      requires Valid()
      modifies this
      ensures Valid() && Snapshot() == AfterCircle(old(Snapshot()), radius)
    {
      var diameter := Wrap32(radius * 2);
      var offsetX := Wrap32(x - radius);
      var offsetY := Wrap32(y - radius);
      if fill {
        log := log + [Ellipse(true, brushColour, offsetX, offsetY, diameter, diameter)];
      } else {
        log := log + [Ellipse(false, strokeColour, offsetX, offsetY, diameter, diameter)];
      }
    }

    method DrawRectangle(width: Int32, height: Int32)
      requires Valid()
      modifies this
      ensures Valid() && Snapshot() == AfterRectangle(old(Snapshot()), width, height)
    {
      if fill {
        log := log + [Box(true, brushColour, x, y, width, height)];
      } else {
        log := log + [Box(false, strokeColour, x, y, width, height)];
      }
    }

    method DrawTriangle(points: seq<PointF>)
      requires Valid()
      modifies this
      ensures Valid() && Snapshot() == AfterTriangle(old(Snapshot()), points)
    {
      if fill {
        log := log + [Polygon(true, brushColour, points)];
      } else {
        log := log + [Polygon(false, strokeColour, points)];
      }
    }

    /** `getGraphics().Clear(colour)`. */
    method Wipe(colour: Colour)
      requires Valid()
      modifies this
      ensures Valid() && Snapshot() == AfterWipe(old(Snapshot()), colour)
    {
      log := log + [DrawEvent.Wipe(colour)];
    }
  }
}
