/**
 * The command handlers (`Command`): each checks its arguments completely,
 * raising on the first problem, and only then changes the graphics state.
 * Each handler is specified by a function from the state before the call to
 * the state after it, or to the exception it raises.
 */
module Commands {
  import opened Wrappers
  import opened Text
  import opened ThrowIf
  import opened Graphics

  /**
   * The settings the handlers read: `Globals.pictureBoxWidth`,
   * `Globals.pictureBoxHeight`, `Globals.pictureBoxColor`, and the names of
   * the `KnownColor` enumeration.
   */
  datatype Config = Config(width: Int32, height: Int32, background: Colour, colours: set<string>)

  /** The handlers the parser's keyword table can point at. */
  datatype Handler =
    | MoveToHandler | DrawToHandler | ClearHandler | ResetHandler | PenHandler | FillHandler
    | CircleHandler | RectangleHandler | SquareHandler | TriangleHandler | HelpHandler

  /**
   * The handlers registered under "circle", "rectangle", "square",
   * "triangle" and "help", whose bodies are not part of this model: given
   * the arguments and the state, the draw events they add, or the exception
   * they raise.
   */
  type Unseen = (Handler, seq<string>, Canvas) -> Result<seq<DrawEvent>, Error>

  /** What a handler did, given what its specification says it should do. */
  predicate Applied(spec: Result<Canvas, Error>, r: Outcome<Error>, before: Canvas, after: Canvas)
  {
    match spec
    case Success(c) => r == Pass && after == c
    case Failure(e) => r == Fail(e) && after == before
  }

  // ---------------------------------------------------------------------
  // Specifications

  /** The X and Y entries of the argument table `MoveTo` and `DrawTo` build. */
  function Coordinates(xValue: string, yValue: string, cfg: Config): seq<ArgSpec>
  {
    [ ArgSpec("X", Some(xValue), IntArg(Some(0), Some(cfg.width))),
      ArgSpec("Y", Some(yValue), IntArg(Some(0), Some(cfg.height))) ]
  }

  /** An integer inside [0, max]. */
  predicate InBounds(v: string, max: int)
  {
    ParseInt(v).Some? && 0 <= ParseInt(v).value <= max
  }

  function MoveToSpec(cfg: Config, c: Canvas, args: seq<string>): Result<Canvas, Error>
  {
    var count := ValidateExactCount(|args|, 2, "MoveTo");
    if count.Fail? then Failure(count.error)
    else
      var check := ValidateArguments(Coordinates(args[0], args[1], cfg), "MoveTo", cfg.colours);
      if check.Fail? then Failure(check.error)
      else
        match (ParseInt(args[0]), ParseInt(args[1]))
        case (Some(x), Some(y)) => Success(WithY(WithX(c, x), y))
        case _ => Failure(Format)
  }

  /** `DrawTo` as written: it validates the trimmed arguments but parses them untrimmed. */
  function DrawToSpec(cfg: Config, c: Canvas, args: seq<string>): Result<Canvas, Error>
  {
    var count := ValidateExactCount(|args|, 2, "DrawTo");
    if count.Fail? then Failure(count.error)
    else
      var check := ValidateArguments(Coordinates(Trim(args[0]), Trim(args[1]), cfg), "DrawTo", cfg.colours);
      if check.Fail? then Failure(check.error)
      else
        match (ParseInt(args[0]), ParseInt(args[1]))
        case (Some(x), Some(y)) => Success(WithY(WithX(AfterLine(c, x, y), x), y))
        case _ => Failure(Format)
  }

  /** `DrawTo` parsing the same trimmed strings it validates. */
  function DrawToIntendedSpec(cfg: Config, c: Canvas, args: seq<string>): Result<Canvas, Error>
  {
    var count := ValidateExactCount(|args|, 2, "DrawTo");
    if count.Fail? then Failure(count.error)
    else
      var check := ValidateArguments(Coordinates(Trim(args[0]), Trim(args[1]), cfg), "DrawTo", cfg.colours);
      if check.Fail? then Failure(check.error)
      else
        match (ParseInt(Trim(args[0])), ParseInt(Trim(args[1])))
        case (Some(x), Some(y)) => Success(WithY(WithX(AfterLine(c, x, y), x), y))
        case _ => Failure(Format)
  }

  function ClearSpec(cfg: Config, c: Canvas, args: seq<string>): Result<Canvas, Error>
  {
    var count := ValidateExactCount(|args|, 0, "Clear");
    if count.Fail? then Failure(count.error) else Success(AfterWipe(c, cfg.background))
  }

  function ResetSpec(c: Canvas, args: seq<string>): Result<Canvas, Error>
  {
    var count := ValidateExactCount(|args|, 0, "Reset");
    if count.Fail? then Failure(count.error) else Success(WithY(WithX(c, StartingX), StartingY))
  }

  /** `Pen`: `Color.FromName` of a known name is that colour, whatever the case it is written in. */
  function PenSpec(cfg: Config, c: Canvas, args: seq<string>): Result<Canvas, Error>
  {
    var count := ValidateExactCount(|args|, 1, "Pen");
    if count.Fail? then Failure(count.error)
    else
      var colour := InvalidColour(args[0], "colour", "Pen", cfg.colours);
      if colour.Fail? then Failure(colour.error) else Success(WithPen(c, Lower(args[0])))
  }

  /** The value `Fill` assigns once its argument is validated. */
  function FillValue(v: string): Option<bool>
  {
    if EqualsIgnoreCase(v, "on") || EqualsIgnoreCase(v, "off") then Some(EqualsIgnoreCase(v, "on"))
    else ParseBool(v)
  }

  /** `Fill` with the validator flag it is given: as written the flag is false. */
  function FillWith(acceptOnOff: bool, cfg: Config, c: Canvas, args: seq<string>): Result<Canvas, Error>
  {
    var count := ValidateExactCount(|args|, 1, "Fill");
    if count.Fail? then Failure(count.error)
    else
      var check := ValidateArguments([ArgSpec("Fill", Some(Trim(args[0])), BoolArg(acceptOnOff))], "Fill", cfg.colours);
      if check.Fail? then Failure(check.error)
      else
        match FillValue(args[0])
        case Some(b) => Success(WithFill(c, b))
        case None => Failure(Format)
  }

  function FillSpec(cfg: Config, c: Canvas, args: seq<string>): Result<Canvas, Error>
  {
    FillWith(false, cfg, c, args)
  }

  /** `Fill` with `accept_on-off` in its validator, as its tests expect. */
  function FillIntendedSpec(cfg: Config, c: Canvas, args: seq<string>): Result<Canvas, Error>
  {
    FillWith(true, cfg, c, args)
  }

  /** A handler this model does not see: it only adds draw events. */
  function UnseenSpec(unseen: Unseen, h: Handler, c: Canvas, args: seq<string>): Result<Canvas, Error>
  {
    match unseen(h, args, c)
    case Success(events) => Success(c.(log := c.log + events))
    case Failure(e) => Failure(e)
  }

  /** What invoking the handler bound to `h` does. */
  function HandlerSpec(cfg: Config, unseen: Unseen, h: Handler, c: Canvas, args: seq<string>): Result<Canvas, Error>
  {
    match h
    case MoveToHandler => MoveToSpec(cfg, c, args)
    case DrawToHandler => DrawToSpec(cfg, c, args)
    case ClearHandler => ClearSpec(cfg, c, args)
    case ResetHandler => ResetSpec(c, args)
    case PenHandler => PenSpec(cfg, c, args)
    case FillHandler => FillSpec(cfg, c, args)
    case _ => UnseenSpec(unseen, h, c, args)
  }

  // ---------------------------------------------------------------------
  // Properties of the handlers

  /** The coordinate table is accepted exactly when both values are integers in bounds. */
  lemma CoordinatesAccepted(xValue: string, yValue: string, cfg: Config, methodName: string)
    ensures ValidateArguments(Coordinates(xValue, yValue, cfg), methodName, cfg.colours).Pass?
        <==> InBounds(xValue, cfg.width) && InBounds(yValue, cfg.height)
  {
    var table := Coordinates(xValue, yValue, cfg);
    assert CheckArgument(table[0], methodName, cfg.colours).Pass? <==> InBounds(xValue, cfg.width);
    assert CheckArgument(table[1], methodName, cfg.colours).Pass? <==> InBounds(yValue, cfg.height);
  }

  /**
   * `MoveTo` takes exactly two arguments, X in [0, width] and Y in
   * [0, height], and moves the cursor there without drawing.
   */
  lemma MoveToContract(cfg: Config, c: Canvas, args: seq<string>)
    ensures MoveToSpec(cfg, c, args).Success?
        <==> |args| == 2 && InBounds(args[0], cfg.width) && InBounds(args[1], cfg.height)
    ensures |args| != 2 ==> MoveToSpec(cfg, c, args) == Failure(WrongArgumentCount("MoveTo", 2, |args|))
    ensures MoveToSpec(cfg, c, args).Success? ==>
      MoveToSpec(cfg, c, args).value == c.(x := ParseInt(args[0]).value, y := ParseInt(args[1]).value)
    ensures MoveToSpec(cfg, c, args) != Failure(Format)
  {
    if |args| == 2 {
      CoordinatesAccepted(args[0], args[1], cfg, "MoveTo");
    }
  }

  /**
   * `DrawTo` accepts exactly what `MoveTo` accepts, draws one line in the pen
   * colour from the old cursor to the new point, and moves the cursor there.
   */
  lemma DrawToContract(cfg: Config, c: Canvas, args: seq<string>)
    ensures DrawToSpec(cfg, c, args).Success?
        <==> |args| == 2 && InBounds(args[0], cfg.width) && InBounds(args[1], cfg.height)
    ensures |args| != 2 ==> DrawToSpec(cfg, c, args) == Failure(WrongArgumentCount("DrawTo", 2, |args|))
    ensures DrawToSpec(cfg, c, args).Success? ==>
      var x, y := ParseInt(args[0]).value, ParseInt(args[1]).value;
      DrawToSpec(cfg, c, args).value == c.(x := x, y := y, log := c.log + [Line(c.pen, c.x, c.y, x, y)])
  {
    if |args| == 2 {
      DrawToAccepts(cfg, c, args);
      if DrawToSpec(cfg, c, args).Success? {
        DrawToEffect(cfg, c, args);
      }
    }
  }

  lemma DrawToAccepts(cfg: Config, c: Canvas, args: seq<string>)
    requires |args| == 2
    ensures DrawToSpec(cfg, c, args).Success? <==> InBounds(args[0], cfg.width) && InBounds(args[1], cfg.height)
  {
    CoordinatesAccepted(Trim(args[0]), Trim(args[1]), cfg, "DrawTo");
    TrimmedBounds(args[0], cfg.width);
    TrimmedBounds(args[1], cfg.height);
  }

  lemma DrawToEffect(cfg: Config, c: Canvas, args: seq<string>)
    requires |args| == 2 && DrawToSpec(cfg, c, args).Success?
    ensures
      var x, y := ParseInt(args[0]).value, ParseInt(args[1]).value;
      DrawToSpec(cfg, c, args).value == c.(x := x, y := y, log := c.log + [Line(c.pen, c.x, c.y, x, y)])
  {
    CoordinatesAccepted(Trim(args[0]), Trim(args[1]), cfg, "DrawTo");
    TrimmedBounds(args[0], cfg.width);
    TrimmedBounds(args[1], cfg.height);
  }

  /** An argument that parses untrimmed is in bounds trimmed exactly when it is in bounds untrimmed. */
  lemma TrimmedBounds(v: string, max: int)
    ensures InBounds(Trim(v), max) && ParseInt(v).Some? <==> InBounds(v, max)
    ensures ParseInt(v).Some? ==> ParseInt(Trim(v)) == ParseInt(v)
  {
    if ParseInt(v).Some? {
      ParseIntTrim(v);
    }
  }

  /**
   * A coordinate that passes validation once trimmed but that `int.Parse`
   * refuses untrimmed makes `DrawTo` raise `FormatException` after the checks.
   */
  lemma DrawToTrimGap(cfg: Config, c: Canvas, args: seq<string>)
    requires |args| == 2 && InBounds(Trim(args[0]), cfg.width) && InBounds(Trim(args[1]), cfg.height)
    requires ParseInt(args[0]).None?
    ensures DrawToSpec(cfg, c, args) == Failure(Format)
  {
    CoordinatesAccepted(Trim(args[0]), Trim(args[1]), cfg, "DrawTo");
  }

  /** With a no-break space in front of "50", X passes validation and then fails to parse. */
  lemma DrawToPaddedArgument(cfg: Config, c: Canvas, padded: string, fifty: string)
    requires padded == "\U{00A0}50" && fifty == "50"
    requires cfg.width >= 50 && cfg.height >= 50
    ensures DrawToSpec(cfg, c, [padded, fifty]) == Failure(Format)
  {
    assert InBounds(fifty, cfg.width) && InBounds(fifty, cfg.height) && Trim(fifty) == fifty by {
      Fifty(fifty);
    }
    assert Trim(padded) == fifty by {
      assert padded[1..] == fifty && IsWhiteSpace(padded[0]);
      assert TrimStart(padded, IsWhiteSpace) == TrimStart(fifty, IsWhiteSpace);
    }
    assert ParseInt(padded).None? by {
      NoBreakSpaceNumber(padded);
    }
    DrawToTrimGap(cfg, c, [padded, fifty]);
  }

  /** `int.Parse` does not skip a leading no-break space. */
  lemma NoBreakSpaceNumber(padded: string)
    requires padded == "\U{00A0}50"
    ensures ParseInt(padded).None?
  {
    assert !IsNul(padded[|padded| - 1]);
    TrimEndKeeps(padded, IsNul);
    assert !IsNumberWhite(padded[0]) && !IsNumberWhite(padded[|padded| - 1]);
    TrimByUnchanged(padded, IsNumberWhite);
    assert !IsDigit(padded[0]) && padded[0] != '+' && padded[0] != '-';
  }

  /** "50" reads as 50, with or without `Trim()`. */
  lemma Fifty(d: string)
    requires d == "50"
    ensures TrimBy(d, IsWhiteSpace) == d && ParseInt(d) == Some(50)
  {
    assert ParseInt(d) == Some(50) by {
      assert IntToString(50) == d;
      ParseIntToString(50);
    }
    assert !IsWhiteSpace(d[0]) && !IsWhiteSpace(d[1]);
    TrimByUnchanged(d, IsWhiteSpace);
  }

  /** `DrawTo` parsing what it validated accepts the trimmed values and never fails to parse. */
  lemma DrawToIntendedContract(cfg: Config, c: Canvas, args: seq<string>)
    ensures DrawToIntendedSpec(cfg, c, args).Success?
        <==> |args| == 2 && InBounds(Trim(args[0]), cfg.width) && InBounds(Trim(args[1]), cfg.height)
    ensures DrawToIntendedSpec(cfg, c, args) != Failure(Format)
    ensures DrawToIntendedSpec(cfg, c, args).Success? ==>
      var x, y := ParseInt(Trim(args[0])).value, ParseInt(Trim(args[1])).value;
      DrawToIntendedSpec(cfg, c, args).value == c.(x := x, y := y, log := c.log + [Line(c.pen, c.x, c.y, x, y)])
  {
    if |args| == 2 {
      DrawToIntendedAccepts(cfg, c, args);
      if DrawToIntendedSpec(cfg, c, args).Success? {
        DrawToIntendedEffect(cfg, c, args);
      }
    }
  }

  lemma DrawToIntendedAccepts(cfg: Config, c: Canvas, args: seq<string>)
    requires |args| == 2
    ensures DrawToIntendedSpec(cfg, c, args).Success? <==> InBounds(Trim(args[0]), cfg.width) && InBounds(Trim(args[1]), cfg.height)
    ensures DrawToIntendedSpec(cfg, c, args) != Failure(Format)
  {
    var check := ValidateArguments(Coordinates(Trim(args[0]), Trim(args[1]), cfg), "DrawTo", cfg.colours);
    CoordinatesAccepted(Trim(args[0]), Trim(args[1]), cfg, "DrawTo");
  }

  lemma DrawToIntendedEffect(cfg: Config, c: Canvas, args: seq<string>)
    requires |args| == 2 && DrawToIntendedSpec(cfg, c, args).Success?
    ensures
      var x, y := ParseInt(Trim(args[0])).value, ParseInt(Trim(args[1])).value;
      DrawToIntendedSpec(cfg, c, args).value == c.(x := x, y := y, log := c.log + [Line(c.pen, c.x, c.y, x, y)])
  {
    CoordinatesAccepted(Trim(args[0]), Trim(args[1]), cfg, "DrawTo");
  }

  /** `Clear` takes no arguments, wipes the surface and leaves cursor, pen and fill alone. */
  lemma ClearContract(cfg: Config, c: Canvas, args: seq<string>)
    ensures ClearSpec(cfg, c, args).Success? <==> args == []
    ensures args != [] ==> ClearSpec(cfg, c, args) == Failure(WrongArgumentCount("Clear", 0, |args|))
    ensures ClearSpec(cfg, c, args).Success? ==>
      var d := ClearSpec(cfg, c, args).value;
      d.(log := c.log) == c && Visible(d.log) == [] && d.log == c.log + [Wipe(cfg.background)]
  {
  }

  /** `Reset` takes no arguments and moves the cursor home without erasing anything. */
  lemma ResetContract(c: Canvas, args: seq<string>)
    ensures ResetSpec(c, args).Success? <==> args == []
    ensures args != [] ==> ResetSpec(c, args) == Failure(WrongArgumentCount("Reset", 0, |args|))
    ensures ResetSpec(c, args).Success? ==> ResetSpec(c, args).value == c.(x := StartingX, y := StartingY)
  {
  }

  /** `Pen` takes one known colour name, in any case, and changes only the pen colour. */
  lemma PenContract(cfg: Config, c: Canvas, args: seq<string>)
    ensures PenSpec(cfg, c, args).Success? <==> |args| == 1 && IsKnownColour(args[0], cfg.colours)
    ensures |args| == 1 && !IsKnownColour(args[0], cfg.colours) ==>
      PenSpec(cfg, c, args) == Failure(InvalidArgument("Pen", "colour"))
    ensures PenSpec(cfg, c, args).Success? ==> PenSpec(cfg, c, args).value == c.(pen := Lower(args[0]))
  {
  }

  /** Writing a colour in another case selects the same pen. */
  lemma PenIgnoresCase(cfg: Config, c: Canvas, a: string, b: string)
    requires EqualsIgnoreCase(a, b)
    ensures PenSpec(cfg, c, [a]) == PenSpec(cfg, c, [b])
  {
  }

  /** "on" and "off", in any case: no white space to trim, and no boolean. */
  lemma OnOffIsNoBool(v: string)
    requires EqualsIgnoreCase(v, "on") || EqualsIgnoreCase(v, "off")
    ensures ParseBool(v).None? && Trim(v) == v
  {
    assert |Lower("on")| == 2 && |Lower("off")| == 3;
    assert !IsWhiteSpaceOrNull(v[0]) && !IsWhiteSpaceOrNull(v[|v| - 1]) by {
      assert LowerChar(v[0]) == Lower(v)[0] && LowerChar(v[|v| - 1]) == Lower(v)[|v| - 1];
    }
    TrimByUnchanged(v, IsWhiteSpaceOrNull);
    TrimByUnchanged(v, IsWhiteSpace);
  }

  /**
   * `Fill` as written takes one argument `bool.TryParse` accepts and sets the
   * fill flag to it; its on/off branch is never reached.
   */
  lemma FillContract(cfg: Config, c: Canvas, args: seq<string>)
    ensures FillSpec(cfg, c, args).Success? <==> |args| == 1 && ParseBool(args[0]).Some?
    ensures |args| != 1 ==> FillSpec(cfg, c, args) == Failure(WrongArgumentCount("Fill", 1, |args|))
    ensures FillSpec(cfg, c, args).Success? ==> FillSpec(cfg, c, args).value == c.(fill := ParseBool(args[0]).value)
    ensures FillSpec(cfg, c, args).Success? ==>
      !EqualsIgnoreCase(args[0], "on") && !EqualsIgnoreCase(args[0], "off")
  {
    if |args| == 1 {
      assert args == [args[0]];
      FillAccepts(cfg, c, args[0]);
    }
  }

  lemma FillAccepts(cfg: Config, c: Canvas, v: string)
    ensures FillSpec(cfg, c, [v]).Success? <==> ParseBool(v).Some?
    ensures FillSpec(cfg, c, [v]).Success? ==>
      FillSpec(cfg, c, [v]).value == c.(fill := ParseBool(v).value)
      && !EqualsIgnoreCase(v, "on") && !EqualsIgnoreCase(v, "off")
  {
    var entry := ArgSpec("Fill", Some(Trim(v)), BoolArg(false));
    SingleEntry(entry, "Fill", cfg.colours);
    ParseBoolTrim(v);
    if EqualsIgnoreCase(v, "on") || EqualsIgnoreCase(v, "off") {
      OnOffIsNoBool(v);
    }
  }

  /** The inputs `Fill`'s tests try: as written, "on" and "off" are refused like "1", "0" and "invalid". */
  lemma FillRejects(cfg: Config, c: Canvas, v: string)
    requires v in ["on", "off", "1", "0", "invalid"]
    ensures FillSpec(cfg, c, [v]).Failure?
  {
    assert ParseBool(v).None? by {
      if v == "on" || v == "off" {
        assert Lower(v) == v;
        OnOffIsNoBool(v);
      } else {
        assert |v| == 1 || |v| == 7;
        assert !IsWhiteSpaceOrNull(v[0]) && !IsWhiteSpaceOrNull(v[|v| - 1]);
        TrimByUnchanged(v, IsWhiteSpaceOrNull);
        ParseBoolLength(v);
      }
    }
    FillContract(cfg, c, [v]);
  }

  /** With `accept_on-off`, "on" and "off" in any case set the fill flag as the tests expect. */
  lemma FillIntendedOnOff(cfg: Config, c: Canvas, v: string)
    requires EqualsIgnoreCase(v, "on") || EqualsIgnoreCase(v, "off")
    ensures FillIntendedSpec(cfg, c, [v]) == Success(c.(fill := EqualsIgnoreCase(v, "on")))
  {
    OnOffIsNoBool(v);
  }

  /** With `accept_on-off`, every boolean `Fill` accepted before is still accepted, with the same effect. */
  lemma FillIntendedExtends(cfg: Config, c: Canvas, args: seq<string>)
    requires FillSpec(cfg, c, args).Success?
    ensures FillIntendedSpec(cfg, c, args) == FillSpec(cfg, c, args)
  {
  }

  // ---------------------------------------------------------------------
  // The handlers

  class Command {
    const graphicsHandler: GraphicsHandler
    const cfg: Config
    const unseen: Unseen

    constructor (graphicsHandler: GraphicsHandler, cfg: Config, unseen: Unseen)
      ensures this.graphicsHandler == graphicsHandler && this.cfg == cfg && this.unseen == unseen
    {
      this.graphicsHandler := graphicsHandler;
      this.cfg := cfg;
      this.unseen := unseen;
    }

    method MoveTo(args: seq<string>) returns (r: Outcome<Error>)
      requires graphicsHandler.Valid()
      modifies graphicsHandler
      ensures graphicsHandler.Valid()
      ensures Applied(MoveToSpec(cfg, old(graphicsHandler.Snapshot()), args), r, old(graphicsHandler.Snapshot()), graphicsHandler.Snapshot())
    {
      var count := ValidateExactCount(|args|, 2, "MoveTo");
      if count.Fail? {
        return Fail(count.error);
      }
      var check := ValidateArguments(Coordinates(args[0], args[1], cfg), "MoveTo", cfg.colours);
      if check.Fail? {
        return Fail(check.error);
      }
      var x := ParseInt(args[0]);
      var y := ParseInt(args[1]);
      if x.None? || y.None? {
        return Fail(Format);
      }
      graphicsHandler.SetX(x.value);
      graphicsHandler.SetY(y.value);
      return Pass;
    }

    method DrawTo(args: seq<string>) returns (r: Outcome<Error>)
      requires graphicsHandler.Valid()
      modifies graphicsHandler
      ensures graphicsHandler.Valid()
      ensures Applied(DrawToSpec(cfg, old(graphicsHandler.Snapshot()), args), r, old(graphicsHandler.Snapshot()), graphicsHandler.Snapshot())
    {
      var count := ValidateExactCount(|args|, 2, "DrawTo");
      if count.Fail? {
        return Fail(count.error);
      }
      var check := ValidateArguments(Coordinates(Trim(args[0]), Trim(args[1]), cfg), "DrawTo", cfg.colours);
      if check.Fail? {
        return Fail(check.error);
      }
      var x := ParseInt(args[0]);
      var y := ParseInt(args[1]);
      if x.None? || y.None? {
        return Fail(Format);
      }
      graphicsHandler.DrawLine(x.value, y.value);
      graphicsHandler.SetX(x.value);
      graphicsHandler.SetY(y.value);
      return Pass;
    }

    method Clear(args: seq<string>) returns (r: Outcome<Error>)
      requires graphicsHandler.Valid()
      modifies graphicsHandler
      ensures graphicsHandler.Valid()
      ensures Applied(ClearSpec(cfg, old(graphicsHandler.Snapshot()), args), r, old(graphicsHandler.Snapshot()), graphicsHandler.Snapshot())
    {
      var count := ValidateExactCount(|args|, 0, "Clear");
      if count.Fail? {
        return Fail(count.error);
      }
      graphicsHandler.Wipe(cfg.background);
      return Pass;
    }

    method Reset(args: seq<string>) returns (r: Outcome<Error>)
      requires graphicsHandler.Valid()
      modifies graphicsHandler
      ensures graphicsHandler.Valid()
      ensures Applied(ResetSpec(old(graphicsHandler.Snapshot()), args), r, old(graphicsHandler.Snapshot()), graphicsHandler.Snapshot())
    {
      var count := ValidateExactCount(|args|, 0, "Reset");
      if count.Fail? {
        return Fail(count.error);
      }
      graphicsHandler.SetX(StartingX);
      graphicsHandler.SetY(StartingY);
      return Pass;
    }

    method Pen(args: seq<string>) returns (r: Outcome<Error>)
      requires graphicsHandler.Valid()
      modifies graphicsHandler
      ensures graphicsHandler.Valid()
      ensures Applied(PenSpec(cfg, old(graphicsHandler.Snapshot()), args), r, old(graphicsHandler.Snapshot()), graphicsHandler.Snapshot())
    {
      var count := ValidateExactCount(|args|, 1, "Pen");
      if count.Fail? {
        return Fail(count.error);
      }
      var colour := InvalidColour(args[0], "colour", "Pen", cfg.colours);
      if colour.Fail? {
        return Fail(colour.error);
      }
      graphicsHandler.SetPenColour(Lower(args[0]));
      return Pass;
    }

    method Fill(args: seq<string>) returns (r: Outcome<Error>)
      requires graphicsHandler.Valid()
      modifies graphicsHandler
      ensures graphicsHandler.Valid()
      ensures Applied(FillSpec(cfg, old(graphicsHandler.Snapshot()), args), r, old(graphicsHandler.Snapshot()), graphicsHandler.Snapshot())
    {
      var count := ValidateExactCount(|args|, 1, "Fill");
      if count.Fail? {
        return Fail(count.error);
      }
      var check := ValidateArguments([ArgSpec("Fill", Some(Trim(args[0])), BoolArg(false))], "Fill", cfg.colours);
      if check.Fail? {
        return Fail(check.error);
      }
      var fill := FillValue(args[0]);
      if fill.None? {
        return Fail(Format);
      }
      graphicsHandler.SetFill(fill.value);
      return Pass;
    }

    /** One of the handlers whose bodies are not part of this model. */
    method Delegate(h: Handler, args: seq<string>) returns (r: Outcome<Error>)
      requires graphicsHandler.Valid()
      modifies graphicsHandler
      ensures graphicsHandler.Valid()
      ensures Applied(UnseenSpec(unseen, h, old(graphicsHandler.Snapshot()), args), r, old(graphicsHandler.Snapshot()), graphicsHandler.Snapshot())
    {
      var drawn := unseen(h, args, graphicsHandler.Snapshot());
      if drawn.Failure? {
        return Fail(drawn.error);
      }
      graphicsHandler.log := graphicsHandler.log + drawn.value;
      return Pass;
    }
  }
}
