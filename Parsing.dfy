/**
 * The line dispatcher (`Parser`): a keyword table that ignores case, a line
 * split into a command word and comma-separated parameters, and a program
 * run line by line until the first line that raises.
 */
module Parsing {
  import opened Wrappers
  import opened Text
  import opened ThrowIf
  import opened Graphics
  import opened Commands

  /** The keyword each handler is registered under. */
  function Keyword(h: Handler): string
  {
    match h
    case MoveToHandler => "moveTo"
    case DrawToHandler => "drawTo"
    case ClearHandler => "clear"
    case ResetHandler => "reset"
    case PenHandler => "pen"
    case FillHandler => "fill"
    case CircleHandler => "circle"
    case RectangleHandler => "rectangle"
    case SquareHandler => "square"
    case TriangleHandler => "triangle"
    case HelpHandler => "help"
  }

  /**
   * The dictionary's keys are compared with `StringComparer.OrdinalIgnoreCase`,
   * so the model keeps each key case-folded and folds every name it looks up.
   */
  type Table = map<string, Handler>

  function Register(table: Table, h: Handler): Table
  {
    table[Lower(Keyword(h)) := h]
  }

  /** The table after the eleven registrations, in the order they are made. */
  function Registered(table: Table): Table
  {
    var t := Register(Register(Register(Register(Register(Register(table,
      MoveToHandler), DrawToHandler), ClearHandler), ResetHandler), PenHandler), FillHandler);
    Register(Register(Register(Register(Register(t,
      CircleHandler), RectangleHandler), SquareHandler), TriangleHandler), HelpHandler)
  }

  function RegisteredTable(): Table
  {
    Registered(map[])
  }

  /** `ContainsKey` followed by the indexer. */
  function Lookup(table: Table, name: string): Option<Handler>
  {
    if Lower(name) in table then Some(table[Lower(name)]) else None
  }

  /** A recognised line: the handler to run and the parameters to give it. */
  datatype Invocation = Invocation(handler: Handler, parameters: seq<string>)

  /**
   * What `ParseLine` makes of a line before running anything: the first
   * space-separated token is the command, the second, split on commas, the
   * parameters. `Split` never returns an empty array, so the "No command
   * entered." branch cannot be taken and is not modelled.
   */
  function Classify(table: Table, line: string): (r: Result<Invocation, Error>)
    ensures r.Failure? <==> Lookup(table, Split(line, {' '})[0]).None?
    ensures r.Failure? ==> r.error == UnrecognisedCommand(Split(line, {' '})[0])
  {
    var parts := Split(line, {' '});
    var commandName := parts[0];
    match Lookup(table, commandName)
    case None => Failure(UnrecognisedCommand(commandName))
    case Some(h) => Success(Invocation(h, if |parts| > 1 then Split(parts[1], {','}) else []))
  }

  /** What `ParseLine` does to the graphics state. */
  function LineSpec(cfg: Config, unseen: Unseen, table: Table, c: Canvas, line: string): Result<Canvas, Error>
  {
    match Classify(table, line)
    case Failure(e) => Failure(e)
    case Success(inv) => HandlerSpec(cfg, unseen, inv.handler, c, inv.parameters)
  }

  /** Running lines in order: the state after the last line that ran, and the first exception. */
  function RunLines(cfg: Config, unseen: Unseen, table: Table, c: Canvas, lines: seq<string>): (Canvas, Outcome<Error>)
    decreases |lines|
  {
    if lines == [] then (c, Pass)
    else
      match LineSpec(cfg, unseen, table, c, lines[0])
      case Failure(e) => (c, Fail(e))
      case Success(d) => RunLines(cfg, unseen, table, d, lines[1..])
  }

  /** `Split(new[] { '\r', '\n' }, StringSplitOptions.RemoveEmptyEntries)`. */
  function SplitLines(text: string): seq<string>
  {
    RemoveEmpty(Split(text, {'\r', '\n'}))
  }

  // ---------------------------------------------------------------------
  // The keyword table

  /** The keyword as the dictionary's comparer sees it. */
  function FoldedKeyword(h: Handler): string
  {
    match h
    case MoveToHandler => "moveto"
    case DrawToHandler => "drawto"
    case _ => Keyword(h)
  }

  lemma FoldKeyword(h: Handler)
    ensures Lower(Keyword(h)) == FoldedKeyword(h)
  {
    match h
    case MoveToHandler => assert Lower("moveTo") == "moveto";
    case DrawToHandler => assert Lower("drawTo") == "drawto";
    case ClearHandler => assert Lower("clear") == "clear";
    case ResetHandler => assert Lower("reset") == "reset";
    case PenHandler => assert Lower("pen") == "pen";
    case FillHandler => assert Lower("fill") == "fill";
    case CircleHandler => assert Lower("circle") == "circle";
    case RectangleHandler => assert Lower("rectangle") == "rectangle";
    case SquareHandler => assert Lower("square") == "square";
    case TriangleHandler => assert Lower("triangle") == "triangle";
    case HelpHandler => assert Lower("help") == "help";
  }

  /** The registered table, with its keys written out folded. */
  function KeywordTable(): Table
  {
    map[
      "moveto" := MoveToHandler, "drawto" := DrawToHandler, "clear" := ClearHandler,
      "reset" := ResetHandler, "pen" := PenHandler, "fill" := FillHandler,
      "circle" := CircleHandler, "rectangle" := RectangleHandler, "square" := SquareHandler,
      "triangle" := TriangleHandler, "help" := HelpHandler]
  }

  lemma FoldedKeywords()
    ensures RegisteredTable() == KeywordTable()
  {
    forall h: Handler
      ensures Lower(Keyword(h)) == FoldedKeyword(h)
    {
      FoldKeyword(h);
    }
  }

  /** Each handler is found under its folded keyword. */
  lemma TableAt(g: Handler)
    ensures FoldedKeyword(g) in KeywordTable() && KeywordTable()[FoldedKeyword(g)] == g
  {
  }

  /** Every key of the table is the folded keyword of the handler it finds. */
  lemma TableKeys(k: string)
    requires k in KeywordTable()
    ensures FoldedKeyword(KeywordTable()[k]) == k
  {
  }

  /**
   * A name finds a handler exactly when it is that handler's keyword up to
   * case, and there are exactly eleven keywords, one per handler.
   */
  lemma KeywordLookup(name: string, h: Handler)
    ensures Lookup(RegisteredTable(), name) == Some(h) <==> EqualsIgnoreCase(name, Keyword(h))
  {
    FoldedKeywords();
    FoldKeyword(h);
    TableAt(h);
    if Lower(name) in KeywordTable() {
      TableKeys(Lower(name));
    }
  }

  lemma UnknownKeyword(name: string)
    ensures Lookup(RegisteredTable(), name).None? <==> forall g: Handler :: !EqualsIgnoreCase(name, Keyword(g))
  {
    if Lower(name) in RegisteredTable() {
      var g := RegisteredTable()[Lower(name)];
      KeywordLookup(name, g);
    } else {
      forall g: Handler
        ensures !EqualsIgnoreCase(name, Keyword(g))
      {
        KeywordLookup(name, g);
      }
    }
  }

  lemma ElevenKeywords()
    ensures |RegisteredTable()| == 11
  {
    FoldedKeywords();
    KeywordCount();
  }

  lemma KeywordCount()
    ensures |KeywordTable()| == 11
  {
  }

  // ---------------------------------------------------------------------
  // Lines

  /**
   * A line made of a command word, a comma-separated parameter list and any
   * further space-separated tokens invokes the command's handler with exactly
   * those parameters; the later tokens are ignored.
   */
  lemma ClassifyWithParameters(table: Table, name: string, parameters: seq<string>, ignored: seq<string>)
    requires ' ' !in name && |parameters| >= 1
    requires forall i :: 0 <= i < |parameters| ==> ' ' !in parameters[i] && ',' !in parameters[i]
    requires forall i :: 0 <= i < |ignored| ==> ' ' !in ignored[i]
    requires Lookup(table, name).Some?
    ensures Classify(table, Join([name, Join(parameters, ',')] + ignored, ' '))
      == Success(Invocation(Lookup(table, name).value, parameters))
  {
    var list := Join(parameters, ',');
    assert ' ' !in list by {
      JoinAvoids(parameters, ',', ' ');
    }
    var tokens := [name, list] + ignored;
    assert forall i :: 0 <= i < |tokens| ==> ' ' !in tokens[i];
    SplitJoin(tokens, ' ');
    SplitJoin(parameters, ',');
  }

  /** A command word alone invokes its handler with no parameters. */
  lemma ClassifyWithoutParameters(table: Table, name: string)
    requires ' ' !in name && Lookup(table, name).Some?
    ensures Classify(table, name) == Success(Invocation(Lookup(table, name).value, []))
  {
    SplitNoSeparator(name, ' ');
  }

  /** The empty line is not a command: it reaches the unrecognised-command branch. */
  lemma EmptyLineRejected()
    ensures Classify(RegisteredTable(), "") == Failure(UnrecognisedCommand(""))
  {
    FoldedKeywords();
    assert Lower("") == "";
  }

  /** A line the table does not recognise raises and runs no handler. */
  lemma UnrecognisedLineChangesNothing(cfg: Config, unseen: Unseen, table: Table, c: Canvas, line: string)
    requires Lookup(table, Split(line, {' '})[0]).None?
    ensures LineSpec(cfg, unseen, table, c, line) == Failure(UnrecognisedCommand(Split(line, {' '})[0]))
  {
  }

  /** A recognised line runs the registered handler on the parsed parameters, and nothing else. */
  lemma RecognisedLineRunsHandler(cfg: Config, unseen: Unseen, table: Table, c: Canvas, line: string)
    requires Classify(table, line).Success?
    ensures var inv := Classify(table, line).value;
      Lookup(table, Split(line, {' '})[0]) == Some(inv.handler)
      && LineSpec(cfg, unseen, table, c, line) == HandlerSpec(cfg, unseen, inv.handler, c, inv.parameters)
  {
  }

  lemma {:induction false} JoinAvoids(parts: seq<string>, c: char, d: char)
    requires c != d
    requires forall i :: 0 <= i < |parts| ==> d !in parts[i]
    ensures d !in Join(parts, c)
  {
    if |parts| > 1 {
      JoinAvoids(parts[1..], c, d);
    }
  }

  // ---------------------------------------------------------------------
  // Programs

  /** The program's lines are non-empty, hold no line break, and together hold every other character in order. */
  lemma SplitLinesClean(text: string)
    ensures forall i :: 0 <= i < |SplitLines(text)| ==>
      SplitLines(text)[i] != "" && '\r' !in SplitLines(text)[i] && '\n' !in SplitLines(text)[i]
    ensures Flatten(SplitLines(text)) == Strip(text, {'\r', '\n'})
  {
    var pieces := Split(text, {'\r', '\n'});
    RemoveEmptyFlatten(pieces);
    forall i | 0 <= i < |SplitLines(text)|
      ensures '\r' !in SplitLines(text)[i] && '\n' !in SplitLines(text)[i]
    {
      RemoveEmptyKeeps(pieces, i);
    }
  }

  /**
   * Running `a + b` runs `a`; if every line of `a` succeeds it goes on with
   * `b` from the state `a` left; otherwise it stops with `a`'s exception.
   */
  lemma {:induction false} RunLinesAppend(cfg: Config, unseen: Unseen, table: Table, c: Canvas, a: seq<string>, b: seq<string>)
    ensures RunLines(cfg, unseen, table, c, a + b) ==
      var (d, o) := RunLines(cfg, unseen, table, c, a);
      if o.Pass? then RunLines(cfg, unseen, table, d, b) else (d, o)
    decreases |a|
  {
    if a == [] {
      assert a + b == b;
    } else {
      assert (a + b)[0] == a[0];
      assert (a + b)[1..] == a[1..] + b;
      match LineSpec(cfg, unseen, table, c, a[0])
      case Failure(e) =>
      case Success(d) =>
        RunLinesAppend(cfg, unseen, table, d, a[1..], b);
    }
  }

  /** Running the lines from position `i` is running line `i` and then, if it passed, the rest. */
  lemma RunLinesStep(cfg: Config, unseen: Unseen, table: Table, c: Canvas, lines: seq<string>, i: nat)
    requires i < |lines|
    ensures RunLines(cfg, unseen, table, c, lines[i..]) ==
      match LineSpec(cfg, unseen, table, c, lines[i])
      case Failure(e) => (c, Fail(e))
      case Success(d) => RunLines(cfg, unseen, table, d, lines[i + 1..])
  {
    assert lines[i..][0] == lines[i] && lines[i..][1..] == lines[i + 1..];
  }

  /**
   * A failing line stops the program: the lines before it keep their
   * effects, the failing line and every later one have none, and its
   * exception is the program's.
   */
  lemma FailingLineStops(cfg: Config, unseen: Unseen, table: Table, c: Canvas, lines: seq<string>, k: nat)
    requires k < |lines|
    requires RunLines(cfg, unseen, table, c, lines[..k]).1.Pass?
    requires LineSpec(cfg, unseen, table, RunLines(cfg, unseen, table, c, lines[..k]).0, lines[k]).Failure?
    ensures var before := RunLines(cfg, unseen, table, c, lines[..k]).0;
      RunLines(cfg, unseen, table, c, lines) == (before, Fail(LineSpec(cfg, unseen, table, before, lines[k]).error))
  {
    var before := RunLines(cfg, unseen, table, c, lines[..k]).0;
    assert lines == lines[..k] + lines[k..];
    RunLinesAppend(cfg, unseen, table, c, lines[..k], lines[k..]);
    RunLinesStep(cfg, unseen, table, before, lines, k);
  }

  /** A program whose every line succeeds has the effect of running them one after another. */
  lemma {:induction false} RunLinesAllPass(cfg: Config, unseen: Unseen, table: Table, c: Canvas, lines: seq<string>)
    requires RunLines(cfg, unseen, table, c, lines).1.Pass?
    ensures lines != [] ==>
      var d := LineSpec(cfg, unseen, table, c, lines[0]);
      d.Success? && RunLines(cfg, unseen, table, c, lines) == RunLines(cfg, unseen, table, d.value, lines[1..])
  {
  }

  // ---------------------------------------------------------------------
  // The parser

  class Parser {
    const command: Command
    var commandDictionary: Table

    constructor (graphicsHandler: GraphicsHandler, cfg: Config, unseen: Unseen)
      ensures commandDictionary == RegisteredTable()
      ensures command.graphicsHandler == graphicsHandler && command.cfg == cfg && command.unseen == unseen
    {
      command := new Command(graphicsHandler, cfg, unseen);
      commandDictionary := map[];
      new;
      SetCommandDictionary();
    }

    /** The eleven registrations of `SetCommandDictionary`; an existing binding for a keyword is replaced. */
    method SetCommandDictionary()
      modifies this`commandDictionary
      ensures commandDictionary == Registered(old(commandDictionary))
    {
      commandDictionary := Register(commandDictionary, MoveToHandler);  // ["moveTo"]
      commandDictionary := Register(commandDictionary, DrawToHandler);  // ["drawTo"]
      commandDictionary := Register(commandDictionary, ClearHandler);  // ["clear"]
      commandDictionary := Register(commandDictionary, ResetHandler);  // ["reset"]
      commandDictionary := Register(commandDictionary, PenHandler);  // ["pen"]
      commandDictionary := Register(commandDictionary, FillHandler);  // ["fill"]
      commandDictionary := Register(commandDictionary, CircleHandler);  // ["circle"]
      commandDictionary := Register(commandDictionary, RectangleHandler);  // ["rectangle"]
      commandDictionary := Register(commandDictionary, SquareHandler);  // ["square"]
      commandDictionary := Register(commandDictionary, TriangleHandler);  // ["triangle"]
      commandDictionary := Register(commandDictionary, HelpHandler);  // ["help"]
    }

    /** Runs the handler a dictionary entry is bound to. */
    method Invoke(h: Handler, parameters: seq<string>) returns (r: Outcome<Error>)
      requires command.graphicsHandler.Valid()
      modifies command.graphicsHandler
      ensures command.graphicsHandler.Valid()
      ensures Applied(HandlerSpec(command.cfg, command.unseen, h, old(command.graphicsHandler.Snapshot()), parameters),
                      r, old(command.graphicsHandler.Snapshot()), command.graphicsHandler.Snapshot())
    {
      match h
      case MoveToHandler => r := command.MoveTo(parameters);
      case DrawToHandler => r := command.DrawTo(parameters);
      case ClearHandler => r := command.Clear(parameters);
      case ResetHandler => r := command.Reset(parameters);
      case PenHandler => r := command.Pen(parameters);
      case FillHandler => r := command.Fill(parameters);
      case _ => r := command.Delegate(h, parameters);
    }

    method ParseLine(input: string) returns (r: Outcome<Error>)
      requires command.graphicsHandler.Valid()
      modifies command.graphicsHandler
      ensures command.graphicsHandler.Valid()
      ensures Applied(LineSpec(command.cfg, command.unseen, commandDictionary, old(command.graphicsHandler.Snapshot()), input),
                      r, old(command.graphicsHandler.Snapshot()), command.graphicsHandler.Snapshot())
    {
      var parts := Split(input, {' '});
      var commandName := parts[0];
      if Lower(commandName) in commandDictionary {
        var parameters := if |parts| > 1 then Split(parts[1], {','}) else [];
        r := Invoke(commandDictionary[Lower(commandName)], parameters);
      } else {
        r := Fail(UnrecognisedCommand(commandName));
      }
    }

    /** Runs the program's lines in order and stops at the first one that raises. */
    method ParseProgram(programText: string) returns (r: Outcome<Error>)
      requires command.graphicsHandler.Valid()
      modifies command.graphicsHandler
      ensures command.graphicsHandler.Valid()
      ensures RunLines(command.cfg, command.unseen, commandDictionary, old(command.graphicsHandler.Snapshot()), SplitLines(programText))
        == (command.graphicsHandler.Snapshot(), r)
    {
      var lines := SplitLines(programText);
      var i := 0;
      while i < |lines|
        invariant 0 <= i <= |lines|
        invariant command.graphicsHandler.Valid()
        invariant RunLines(command.cfg, command.unseen, commandDictionary, old(command.graphicsHandler.Snapshot()), lines)
          == RunLines(command.cfg, command.unseen, commandDictionary, command.graphicsHandler.Snapshot(), lines[i..])
      {
        ghost var before := command.graphicsHandler.Snapshot();
        RunLinesStep(command.cfg, command.unseen, commandDictionary, before, lines, i);
        var outcome := ParseLine(lines[i]);
        if outcome.Fail? {
          return outcome;
        }
        i := i + 1;
      }
      return Pass;
    }
  }
}
