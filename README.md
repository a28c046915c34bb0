# A verified model of the CommandParserAssignmnet drawing interpreter

CommandParserAssignmnet is a small drawing language with a WinForms front end. A
program is text. Each line names a command (`moveTo 10,20`, `pen red`,
`fill true`, `clear`, ...) followed by comma-separated parameters. The `Parser`
looks the command up in a case-insensitive keyword table. The line is then run
by a `Command` handler, which either raises an exception or changes a
`GraphicsHandler`. The `GraphicsHandler` holds a cursor, a pen colour, a fill
flag and the bitmap.

Every handler checks its arguments through the `ThrowIf.Argument` guards:

- single checks that raise on a bad value;
- the table-driven `validateArguments`.

A `Variables` store maps names to integers. It is filled from `name=value`
declarations and read by `IfStatement.EvaluateExpression`. `ShapeFactory`
turns a shape name and an integer array into a shape.

The model is written in Dafny. Each module follows one source file:

| module | source | form |
|---|---|---|
| `Wrappers` | - | `Option`, `Result` and `Outcome` (pass, or fail with an error). A raised exception is a failure. |
| `Text` | - | the .NET string operations the code relies on: `ToLower` and `OrdinalIgnoreCase` on ASCII letters, `Trim`, `Split`, `int.TryParse` (which also lets NUL characters follow the number and its white space), `bool.TryParse` and `int.ToString`. |
| `ThrowIf` | `ThrowIf.cs` | pure functions. |
| `Graphics` | `GraphicsHandler.cs` | a class with the source's fields. Its methods are specified by pure functions on a `Canvas` snapshot. Drawing is a log of draw events. |
| `Commands` | `Command.cs` | a class whose methods change the `GraphicsHandler`. Each method is specified by a function from the state before to the state after, or to the exception. |
| `Parsing` | `Parser.cs` | a class holding the keyword dictionary. `ParseLine` and `ParseProgram` are specified by `LineSpec` and `RunLines`. |
| `VariableStore` | `Variables.cs` | a class holding the dictionary, plus the pure `ParseAssignment`. |
| `Conditions` | `IfStatement.cs` | a pure `Evaluation` and a method that only reads the store. |
| `Shapes` | `ShapesFactory.cs` | a pure function to a `Shape` datatype. |

Where the program's documented behaviour and its code disagree, the model
follows the code:

- A blank string is a valid string argument. Only `""` is refused (`IsStringEmpty`).
- An empty line is an unrecognised command, not a separate error.
- A numeric variable name is accepted.
- `fill on` is refused.

## Model

All paths below are relative to the repository root.

| member | source | states |
|---|---|---|
| ThrowIf.IsNull | CommandParserAssignmnet/ThrowIf.cs:23-29 | raises ArgumentNullException, naming the argument and the method, exactly when the argument is null |
| ThrowIf.IsNegative | CommandParserAssignmnet/ThrowIf.cs:38-44 | raises exactly when the argument is below 0, so 0 is accepted |
| ThrowIf.IsOutOfRange | CommandParserAssignmnet/ThrowIf.cs:54-60 | passes exactly when min <= argument <= max, so both bounds are inclusive |
| ThrowIf.IsHigherThan | CommandParserAssignmnet/ThrowIf.cs:69-75 | raises exactly when the argument is above the maximum |
| ThrowIf.IsLowerThan | CommandParserAssignmnet/ThrowIf.cs:84-90 | raises exactly when the argument is below the minimum |
| ThrowIf.IsStringEmpty | CommandParserAssignmnet/ThrowIf.cs:99-105 | raises exactly for the empty string |
| ThrowIf.IsStringEmptyOr | CommandParserAssignmnet/ThrowIf.cs:113-119 | raises the caller's exception exactly for the empty string |
| ThrowIf.ValidateExactArgumentCount | CommandParserAssignmnet/ThrowIf.cs:129-136 | raises exactly when the array length differs from the expected count; the error carries both counts |
| ThrowIf.ValidateExactArgumentCountOr | CommandParserAssignmnet/ThrowIf.cs:146-153 | passes exactly when the length equals the expected count; otherwise raises the caller's exception |
| ThrowIf.ValidateExactCount | CommandParserAssignmnet/ThrowIf.cs:162-168 | raises exactly when the actual count differs from the expected count |
| ThrowIf.ParsableToType | CommandParserAssignmnet/ThrowIf.cs:186-196 | raises exactly when the string does not convert to an int |
| ThrowIf.ParsableToTypeOr | CommandParserAssignmnet/ThrowIf.cs:198-210 | as written it never raises: the catch-all swallows the throw from its own try block |
| ThrowIf.ParsableToTypeIntended | CommandParserAssignmnet/ThrowIf.cs:198-210 | the evident intent: raises the caller's exception exactly when the string does convert to an int |
| ThrowIf.NotParsableToType | CommandParserAssignmnet/ThrowIf.cs:211-221 | raises the caller's exception exactly when the string does not convert to an int |
| ThrowIf.InvalidColour | CommandParserAssignmnet/ThrowIf.cs:231-237 | raises exactly when the name, ignoring case, is not a known colour |
| ThrowIf.CheckArgument | CommandParserAssignmnet/ThrowIf.cs:249-317 | for one entry: a null value raises ArgumentNullException; an int entry passes exactly when the value parses, meets each bound it has, and is not negative; a string entry exactly when it is not ""; a colour exactly when it is known; a bool exactly when bool.TryParse accepts it, or when on/off is allowed and it is "on" or "off" in any case; every failure is one of the three argument exceptions |
| ThrowIf.FirstRejected | CommandParserAssignmnet/ThrowIf.cs:247-319 | the position of the first entry the checks refuse: every earlier entry passes and that entry fails |
| ThrowIf.ValidateArguments | CommandParserAssignmnet/ThrowIf.cs:245-320 | passes exactly when every entry passes; otherwise raises the exception of the first refused entry, in table order |
| ThrowIf.SingleEntry | CommandParserAssignmnet/ThrowIf.cs:245-320 | a table of one entry is decided by that entry alone |
| ThrowIf.InvalidBoolRejected | CommandParserAssignmnet/ThrowIf.cs:298-317 | "invalidBool" is refused whether or not on/off is allowed |
| ThrowIf.NoBoolWordRejected | CommandParserAssignmnet/ThrowIf.cs:298-317 | a trimmed word whose length is not that of "on", "off", "true" or "false" is refused, with or without on/off |
| ThrowIf.OnOffNeedsFlag | CommandParserAssignmnet/ThrowIf.cs:298-317 | a trimmed "on" or "off", in any letter case, passes when accept_on-off is set and is refused when it is not |
| ThrowIf.BlankStringAccepted | CommandParserAssignmnet/ThrowIf.cs:287-291 | a string argument of one space passes the string check |
| Text.Split | CommandParserAssignmnet/Parser.cs:88 | `Split` gives one more piece than there are separators; no piece holds a separator; the pieces hold every other character in order |
| Text.JoinSplit | CommandParserAssignmnet/Parser.cs:88 | splitting on a character and joining with it gives back the input |
| Text.SplitJoin | CommandParserAssignmnet/Parser.cs:98 | joining pieces that do not contain the separator and splitting again gives back the pieces |
| Text.ParseIntToString | CommandParserAssignmnet/Variables.cs:107 | printing any int and parsing it back gives the same int |
| Text.ParseIntTrim | CommandParserAssignmnet/Command.cs:99-121 | a string int.TryParse accepts parses to the same value after Trim() |
| Text.ParseBoolTrim | CommandParserAssignmnet/Command.cs:193-206 | bool.TryParse gives the same answer with or without Trim() |
| Text.TrailingNullAccepted | CommandParserAssignmnet/Variables.cs:107 | "5" followed by a NUL character reads as 5, since int.TryParse accepts trailing NULs |
| Text.TrimTwice | CommandParserAssignmnet/Command.cs:99-121 | trimming by one class of characters and then by a class that includes it is the same as trimming once by the wider class |
| Graphics.Wrap32 | CommandParserAssignmnet/GraphicsHandler.cs:128-132 | C# int arithmetic: equal to the exact value inside the int range, and congruent to it modulo 2^32 |
| Graphics.Visible | CommandParserAssignmnet/Command.cs:141 | a suffix of the draw log with no wipe in it, preceded by a wipe unless it is the whole log: exactly what the last wipe left visible |
| Graphics.SettersKeepCursor | CommandParserAssignmnet/GraphicsHandler.cs:70-82 | the X and Y setters store every non-negative value, ignore negative ones, keep the cursor non-negative, and change nothing else |
| Graphics.DrawsKeepState | CommandParserAssignmnet/GraphicsHandler.cs:117-175 | no draw call moves the cursor or changes the pen or the fill flag; each appends exactly one event to the log |
| Graphics.LineFromCursor | CommandParserAssignmnet/GraphicsHandler.cs:117-120 | drawLine draws in the pen colour from the current X, Y to the given end point |
| Graphics.CircleBox | CommandParserAssignmnet/GraphicsHandler.cs:126-142 | where nothing overflows, the circle's box is (X - r, Y - r, 2r, 2r), filled exactly when Fill is set |
| Graphics.CircleDiameterWraps | CommandParserAssignmnet/GraphicsHandler.cs:128 | a radius of 2^30 gives a diameter of -2^31: the doubling wraps |
| Graphics.ShapesFilledByFlag | CommandParserAssignmnet/GraphicsHandler.cs:126-175 | circles, rectangles and triangles are filled exactly when Fill is set; a rectangle is anchored at (X, Y) |
| Graphics.WipeHidesEarlier | CommandParserAssignmnet/Command.cs:141 | after a wipe nothing drawn earlier is visible, and everything drawn later stays visible until the next wipe |
| Graphics.NoWipeAllVisible | CommandParserAssignmnet/Command.cs:141 | a log with no wipe in it is visible in full |
| Graphics.VisibleAppend | CommandParserAssignmnet/Command.cs:141 | an event other than a wipe stays visible after everything that was visible before it |
| Graphics.GraphicsHandler.constructor | CommandParserAssignmnet/GraphicsHandler.cs:57-65 | starts at (startingX, startingY), with a White pen and brush, Fill off, and nothing drawn |
| Graphics.GraphicsHandler.SetX | CommandParserAssignmnet/GraphicsHandler.cs:70-74 | the X setter: stores a non-negative value and ignores a negative one |
| Graphics.GraphicsHandler.SetY | CommandParserAssignmnet/GraphicsHandler.cs:79-83 | the Y setter: stores a non-negative value and ignores a negative one |
| Graphics.GraphicsHandler.SetPenColour | CommandParserAssignmnet/GraphicsHandler.cs:88-92 | sets the pen colour, the pen's colour and the brush's colour together |
| Graphics.GraphicsHandler.SetFill | CommandParserAssignmnet/GraphicsHandler.cs:42 | sets the fill flag and nothing else |
| Graphics.GraphicsHandler.DrawLine | CommandParserAssignmnet/GraphicsHandler.cs:117-120 | logs one line from the cursor in the pen colour |
| Graphics.GraphicsHandler.DrawCircle | CommandParserAssignmnet/GraphicsHandler.cs:126-142 | logs one ellipse centred on the cursor, computed in wrapping int arithmetic, filled with the brush exactly when Fill is set |
| Graphics.GraphicsHandler.DrawRectangle | CommandParserAssignmnet/GraphicsHandler.cs:149-159 | logs one rectangle at the cursor, filled exactly when Fill is set |
| Graphics.GraphicsHandler.DrawTriangle | CommandParserAssignmnet/GraphicsHandler.cs:165-175 | logs one polygon through the points, filled exactly when Fill is set |
| Graphics.GraphicsHandler.Wipe | CommandParserAssignmnet/Command.cs:141 | `getGraphics().Clear(colour)`: logs one wipe in that colour |
| Commands.CoordinatesAccepted | CommandParserAssignmnet/Command.cs:42-61 | the X/Y argument table is accepted exactly when X is an int in [0, width] and Y is an int in [0, height] |
| Commands.MoveToContract | CommandParserAssignmnet/Command.cs:37-70 | MoveTo succeeds exactly with two arguments, X in [0, width] and Y in [0, height], both bounds inclusive; with any other count it raises the count error; on success it sets the cursor and draws nothing; it never reaches int.Parse with a bad value |
| Commands.DrawToContract | CommandParserAssignmnet/Command.cs:91-125 | DrawTo succeeds exactly when MoveTo would; with any other count it raises the count error; on success it logs one line from the old cursor to (x, y) in the pen colour and moves the cursor there |
| Commands.DrawToAccepts | CommandParserAssignmnet/Command.cs:94-121 | with two arguments, DrawTo succeeds exactly when both are ints in bounds |
| Commands.DrawToEffect | CommandParserAssignmnet/Command.cs:117-124 | a successful DrawTo logs the line and moves the cursor |
| Commands.TrimmedBounds | CommandParserAssignmnet/Command.cs:99-121 | an argument that parses untrimmed is in bounds after trimming exactly when it is in bounds untrimmed |
| Commands.DrawToTrimGap | CommandParserAssignmnet/Command.cs:99-121 | a pair whose trimmed values are in bounds but whose untrimmed X int.Parse refuses passes every check and then raises FormatException |
| Commands.NoBreakSpaceNumber | CommandParserAssignmnet/Command.cs:99-121 | int.Parse does not skip a leading no-break space, so "\U{00A0}50" is not a number |
| Commands.DrawToPaddedArgument | CommandParserAssignmnet/Command.cs:99-121 | with a no-break space (U+00A0) in front of "50", X passes the trimmed validation, then int.Parse of the untrimmed value raises FormatException |
| Commands.DrawToIntendedContract | CommandParserAssignmnet/Command.cs:91-125 | corrected DrawTo, which parses the trimmed values it validated: succeeds exactly when the trimmed values are in bounds, never raises FormatException, and on success draws and moves as DrawTo does |
| Commands.DrawToIntendedAccepts | CommandParserAssignmnet/Command.cs:94-121 | with two arguments, the corrected DrawTo succeeds exactly when the trimmed values are in bounds, and never raises FormatException |
| Commands.DrawToIntendedEffect | CommandParserAssignmnet/Command.cs:117-124 | a successful corrected DrawTo logs the line and moves the cursor |
| Commands.ClearContract | CommandParserAssignmnet/Command.cs:135-143 | Clear succeeds exactly with no arguments; it wipes the surface in the background colour, so nothing earlier stays visible, and leaves the cursor, pen and fill alone |
| Commands.ResetContract | CommandParserAssignmnet/Command.cs:154-162 | Reset succeeds exactly with no arguments; it moves the cursor to (startingX, startingY), erases nothing and changes nothing else |
| Commands.PenContract | CommandParserAssignmnet/Command.cs:172-183 | Pen succeeds exactly with one argument that is a known colour name; an unknown name raises the colour error; on success only the pen colour changes |
| Commands.PenIgnoresCase | CommandParserAssignmnet/Command.cs:176-181 | two colour names that differ only in case select the same pen |
| Commands.OnOffIsNoBool | CommandParserAssignmnet/Command.cs:204-206 | "on" and "off", in any case, have no white space to trim and are not booleans |
| Commands.FillContract | CommandParserAssignmnet/Command.cs:185-209 | Fill as written succeeds exactly with one argument bool.TryParse accepts; any other count raises the count error; on success it sets the fill flag to that boolean; the on/off branch is never taken |
| Commands.FillAccepts | CommandParserAssignmnet/Command.cs:190-208 | with one argument, Fill succeeds exactly when that argument is a boolean, and then sets the flag to it |
| Commands.FillRejects | Tests/ParserTest.cs:146-149 | as written, "on", "off", "1", "0" and "invalid" are all refused |
| Commands.FillIntendedOnOff | CommandParserAssignmnet/Command.cs:204-206 | with accept_on-off, "on" and "off" in any case set the fill flag to true and false |
| Commands.FillIntendedExtends | CommandParserAssignmnet/Command.cs:190-206 | with accept_on-off, every argument Fill accepted before is still accepted, with the same effect |
| Commands.Command.constructor | CommandParserAssignmnet/Command.cs:13 | a handler set bound to one GraphicsHandler |
| Commands.Command.MoveTo | CommandParserAssignmnet/Command.cs:37-70 | does what MoveToSpec says; a refused call leaves the graphics state unchanged |
| Commands.Command.DrawTo | CommandParserAssignmnet/Command.cs:91-125 | does what DrawToSpec says; a refused call leaves the graphics state unchanged |
| Commands.Command.Clear | CommandParserAssignmnet/Command.cs:135-143 | does what ClearSpec says; a refused call leaves the graphics state unchanged |
| Commands.Command.Reset | CommandParserAssignmnet/Command.cs:154-162 | does what ResetSpec says; a refused call leaves the graphics state unchanged |
| Commands.Command.Pen | CommandParserAssignmnet/Command.cs:172-183 | does what PenSpec says; a refused call leaves the graphics state unchanged |
| Commands.Command.Fill | CommandParserAssignmnet/Command.cs:185-209 | does what FillSpec says; a refused call leaves the graphics state unchanged |
| Commands.Command.Delegate | CommandParserAssignmnet/Parser.cs:41-45 | a handler whose body is not in `Command.cs` (see Left out) either raises and changes nothing, or only appends draw events |
| Parsing.Classify | CommandParserAssignmnet/Parser.cs:86-105 | a line is refused exactly when its first space-separated token is not a key, ignoring case; the error names that token |
| Parsing.FoldKeyword | CommandParserAssignmnet/Parser.cs:35-45 | each registered keyword, case-folded |
| Parsing.FoldedKeywords | CommandParserAssignmnet/Parser.cs:33-46 | the eleven registrations build exactly the table of the eleven folded keywords |
| Parsing.TableAt | CommandParserAssignmnet/Parser.cs:35-45 | each handler is found under its keyword |
| Parsing.TableKeys | CommandParserAssignmnet/Parser.cs:35-45 | every key of the table is the keyword of the handler it finds |
| Parsing.KeywordLookup | CommandParserAssignmnet/Parser.cs:17-45 | a name finds a handler exactly when it equals that handler's keyword, ignoring case |
| Parsing.UnknownKeyword | CommandParserAssignmnet/Parser.cs:96-104 | a name finds nothing exactly when it matches no keyword, ignoring case |
| Parsing.ElevenKeywords | CommandParserAssignmnet/Parser.cs:33-46 | the dictionary holds exactly eleven commands |
| Parsing.KeywordCount | CommandParserAssignmnet/Parser.cs:35-45 | the folded keywords are eleven distinct keys |
| Parsing.ClassifyWithParameters | CommandParserAssignmnet/Parser.cs:88-99 | a line "command p1,...,pn further tokens" invokes the command's handler with exactly p1..pn; later tokens are ignored |
| Parsing.ClassifyWithoutParameters | CommandParserAssignmnet/Parser.cs:98 | a command word alone invokes its handler with no parameters |
| Parsing.EmptyLineRejected | CommandParserAssignmnet/Parser.cs:88-104 | the empty line splits to one empty token, which is not a key, so it is refused as an unrecognised command; the "no command" branch is never reached |
| Parsing.UnrecognisedLineChangesNothing | CommandParserAssignmnet/Parser.cs:101-104 | an unrecognised line raises and runs no handler |
| Parsing.RecognisedLineRunsHandler | CommandParserAssignmnet/Parser.cs:96-99 | a recognised line runs exactly the registered handler, on the parsed parameters |
| Parsing.JoinAvoids | CommandParserAssignmnet/Parser.cs:98 | joining pieces that avoid a character with a different separator avoids it too |
| Parsing.SplitLinesClean | CommandParserAssignmnet/Parser.cs:58 | the program's lines are non-empty, hold no CR or LF, and together hold every other character of the text in order |
| Parsing.RunLinesAppend | CommandParserAssignmnet/Parser.cs:60-63 | running a + b runs a; if all of a succeeds it continues with b from the state a left; otherwise it stops with a's exception |
| Parsing.RunLinesStep | CommandParserAssignmnet/Parser.cs:60-63 | running the lines from position i runs line i and, only if it passed, the lines after it from the state it left |
| Parsing.FailingLineStops | CommandParserAssignmnet/Parser.cs:60-63 | the first failing line aborts the program: earlier lines keep their effects, that line and later ones have none, and its exception is the program's |
| Parsing.RunLinesAllPass | CommandParserAssignmnet/Parser.cs:60-63 | a program that succeeds runs its first line successfully, then the rest from the state that line left |
| Parsing.Parser.constructor | CommandParserAssignmnet/Parser.cs:21-28 | a parser whose dictionary is the registered table |
| Parsing.Parser.SetCommandDictionary | CommandParserAssignmnet/Parser.cs:33-46 | the eleven registrations in source order; an earlier binding for a keyword is replaced |
| Parsing.Parser.Invoke | CommandParserAssignmnet/Parser.cs:99 | runs the handler an entry is bound to, as HandlerSpec says |
| Parsing.Parser.ParseLine | CommandParserAssignmnet/Parser.cs:86-105 | does what LineSpec says: an unrecognised line raises and changes nothing; a recognised one runs its handler |
| Parsing.Parser.ParseProgram | CommandParserAssignmnet/Parser.cs:56-74 | runs the non-empty lines in order, stops at the first exception and keeps the effects of the lines before it, as RunLines says |
| VariableStore.Fetch | CommandParserAssignmnet/Variables.cs:49-52 | the stored value for a present name; KeyNotFoundException for an absent one |
| VariableStore.Declare | CommandParserAssignmnet/Variables.cs:110-119 | the key afterwards holds the value; no other key is added or changed, so a second declaration overwrites and never duplicates |
| VariableStore.Stored | CommandParserAssignmnet/Variables.cs:104-107 | succeeds exactly when the right part is an int, and then stores the trimmed, lower-cased name with that value; otherwise raises "Invalid value type" |
| VariableStore.DeclarationContract | CommandParserAssignmnet/Variables.cs:96-120 | a declaration is accepted exactly when it splits on '=' into two parts, the left part is not "", and the right part is an int; it fails with "Invalid variable assignment." unless there is exactly one '=', then with "Variable name cannot be empty.", then with "Invalid value type. Value must be an integer."; it stores the trimmed, lower-cased left part |
| VariableStore.NoEqualsInNumber | CommandParserAssignmnet/Variables.cs:99 | no printed int contains '=' |
| VariableStore.DeclarationRoundTrip | CommandParserAssignmnet/Variables.cs:96-120 | writing `name=value` and parsing it gives back the folded name and the same value |
| VariableStore.NumericNameAccepted | CommandParserAssignmnet/Variables.cs:103 | as written, "5=3" is accepted and stores 3 under "5"; the intended check refuses it as a number |
| VariableStore.BlankNameStoredEmpty | CommandParserAssignmnet/Variables.cs:102-106 | as written, " =3" is accepted and stores 3 under ""; the intended check refuses it as empty |
| VariableStore.IntendedKeys | CommandParserAssignmnet/Variables.cs:102-106 | with the intended checks, the key an accepted declaration stores is neither empty nor a number |
| VariableStore.IntendedNarrows | CommandParserAssignmnet/Variables.cs:101-107 | the intended checks only refuse more: what they accept is accepted as written, with the same result |
| VariableStore.Variables.constructor | CommandParserAssignmnet/Variables.cs:12 | the store starts empty |
| VariableStore.Variables.AddVariable | CommandParserAssignmnet/Variables.cs:39-42 | a name already present raises and leaves the store as it was; a new one is added |
| VariableStore.Variables.GetVariable | CommandParserAssignmnet/Variables.cs:49-52 | the stored value, or KeyNotFoundException for an absent name |
| VariableStore.Variables.SetVariable | CommandParserAssignmnet/Variables.cs:59-62 | inserts or overwrites; afterwards the name reads back the value, and every other name reads as before |
| VariableStore.Variables.ContainsVariable | CommandParserAssignmnet/Variables.cs:69-72 | true exactly when the name is a key |
| VariableStore.Variables.RemoveVariable | CommandParserAssignmnet/Variables.cs:78-81 | deletes only the given name; every other name reads as before |
| VariableStore.Variables.ClearVariables | CommandParserAssignmnet/Variables.cs:86-89 | the store is empty afterwards |
| VariableStore.Variables.ParseDeclaration | CommandParserAssignmnet/Variables.cs:96-120 | a refused declaration raises its exception and changes nothing; an accepted one stores its key and value as Declare says |
| Conditions.Evaluation | CommandParserAssignmnet/IfStatement.cs:16-42 | an absent variable gives false for every operator, valid or not, and raises nothing; a present one with an operator outside the six raises "Invalid comparison operator." |
| Conditions.ComparisonMeaning | CommandParserAssignmnet/IfStatement.cs:20-35 | for a present variable, each of >, <, >=, <=, == and != is the int comparison of the stored value with the literal |
| Conditions.OppositeOperators | CommandParserAssignmnet/IfStatement.cs:24-35 | for a present variable, > and <=, < and >=, and == and != always give opposite results |
| Conditions.Trichotomy | CommandParserAssignmnet/IfStatement.cs:24-33 | for a present variable exactly one of <, == and > holds |
| Conditions.DeclaredValueCompares | CommandParserAssignmnet/Variables.cs:110-119 | right after a declaration, its key compares == to its value and not != |
| Conditions.IfStatement.constructor | CommandParserAssignmnet/IfStatement.cs:11-14 | an evaluator bound to one variable store |
| Conditions.IfStatement.EvaluateExpression | CommandParserAssignmnet/IfStatement.cs:16-42 | gives what Evaluation gives on the current store; it may modify nothing, so the store is never changed |
| Shapes.ShapeArity | CommandParserAssignmnet/ShapesFactory.cs:9-25 | an unknown name raises InvalidOperationException; a known name succeeds exactly when args holds as many values as that shape reads (square 1, rectangle 2, circle 1, equil_triangle 3, isos_triangle 4, triangle 5); a shorter array raises IndexOutOfRangeException |
| Shapes.ExtraArgumentsIgnored | CommandParserAssignmnet/ShapesFactory.cs:11-22 | values past the ones a shape reads make no difference |
| Shapes.RectangleFields | CommandParserAssignmnet/ShapesFactory.cs:11-14 | a square is a rectangle whose two sides are both args[0] (Square.cs:21); a rectangle is (args[0], args[1]) |
| Shapes.TriangleFields | CommandParserAssignmnet/Triangle.cs:78-121 | every triangle starts at the last two values it reads and has side A = args[0]; the equilateral one has sides B and C of 1; the isosceles one has side B = args[1] and side C of 1; the plain one has its three sides from args[0..2] |
| Shapes.NormaliseIdempotent | CommandParserAssignmnet/ShapesFactory.cs:7 | lower-casing and trimming a second time changes nothing |
| Shapes.NormalisedNameSameShape | CommandParserAssignmnet/ShapesFactory.cs:7 | a name already lower-cased and trimmed selects the same shape as the original |

## Left out

- Drawing pixels, fonts, `MessageBox`, the cursor overlay and the WinForms form are not modelled. A draw is a logged event only.
- Triangle vertices (`calculateTrianglePoints`) are not computed. They use floating-point `Acos`, `Cos` and `Sin`, so `DrawTriangle` takes its points as a parameter.
- The bodies of the `circle`, `rectangle`, `square`, `triangle` and `help` handlers are not in `Command.cs`. They are an opaque function parameter, assumed only to append draw events or raise.
- `Thread.Sleep(Globals.animationDelay)` and `form1.Refresh()` in `ParseProgram` are not modelled. They only pace the UI.
- `Globals.pictureBoxWidth`, `pictureBoxHeight` and `pictureBoxColor`, and the `KnownColor` names, are a `Config` parameter. `startingX` and `startingY` are the constants 0.
- `Color` values are case-folded names. `Color.FromName` is modelled by `Lower`.
- Case folding covers ASCII letters only, and the culture is invariant.
- Null strings and null arrays are not modelled: Dafny strings cannot be null. The one null-value path that a handler table can produce is modelled by `IsNull`.
- `EnsureArgumentType` is not modelled. It compares run-time `Type` objects. Its one call, in the string branch of `validateArguments`, always passes, because the value there is a string.
- `Variables.Instance` is not modelled. The process-wide singleton is a `Variables` object passed in by the caller.
- IF, LOOP and METHOD control flow and the syntax-check mode are not part of `Parser.cs` or `Command.cs` and are not modelled.
- `ShapeFactory.cs` is not modelled. It is a second, one-case circle factory with the same class name as `ShapesFactory.cs`.
- A `null` argument array for `getShape` is not modelled. Only a short array raises.
- `Shape.ToString` and the shapes' `Draw` methods are not modelled: they are text and pixel output.

## Findings

| source | as written | input that shows it | evidently intended | confidence | as-written member | corrected member |
|---|---|---|---|---|---|---|
| CommandParserAssignmnet/ThrowIf.cs:198-210 | the `throw exception` sits inside the `try`, and the catch-all swallows it, so the guard never raises; `ParseDeclaration` accepts numeric names | "5=3" is stored as variable "5" | raise the caller's exception when the string converts to an int | not executed | ThrowIf.ParsableToTypeOr, VariableStore.NumericNameAccepted | ThrowIf.ParsableToTypeIntended, VariableStore.IntendedKeys |
| CommandParserAssignmnet/Variables.cs:102-106 | the emptiness check looks at the untrimmed name, but the stored key is trimmed | " =3" is stored under the empty name "" | refuse a name that is empty after trimming | not executed | VariableStore.BlankNameStoredEmpty | VariableStore.IntendedKeys, VariableStore.IntendedNarrows |
| CommandParserAssignmnet/Command.cs:190-199 | the Fill validator has no `accept_on-off` entry, so the on/off branch at lines 204-206 is unreachable | `fill on` raises, although Tests/ParserTest.cs:146-147 expects it to set Fill | accept "on"/"off" in any case | not executed | Commands.FillRejects | Commands.FillIntendedOnOff, Commands.FillIntendedExtends |
| CommandParserAssignmnet/Command.cs:99-121 | DrawTo validates `args[i].Trim()` but then calls `int.Parse(args[i])` on the untrimmed value, and int.Parse skips less white space than Trim | `drawTo` followed by a space, a no-break space (U+00A0) and `50,50`: the line passes validation, then raises FormatException | parse the same trimmed value that was validated | not executed | Commands.DrawToPaddedArgument | Commands.DrawToIntendedContract |
