/**
 * Argument guards (`ThrowIf.Argument`): stateless checks that raise on bad
 * input, and the table-driven `validateArguments` every command handler uses.
 * A raised exception is a `Fail` outcome; the conversions the guards attempt
 * are all conversions to `int`, the only type the program asks for.
 */
module ThrowIf {
  import opened Wrappers
  import opened Text

  /** The exceptions the interpreter raises, by .NET exception type and payload. */
  datatype Error =
    | ArgumentNull(argumentName: string, methodName: string)           // ArgumentNullException
    | ArgumentOutOfRange(argumentName: string)                         // ArgumentOutOfRangeException
    | InvalidArgument(methodName: string, argumentName: string)        // ArgumentException about one argument
    | WrongArgumentCount(methodName: string, expected: int, actual: int) // ArgumentException about the count
    | UnrecognisedCommand(commandName: string)                         // ArgumentException from ParseLine
    | Custom(message: string)                                          // an Exception built by the caller
    | KeyNotFound(key: string)                                         // KeyNotFoundException
    | DuplicateKey(key: string)                                        // ArgumentException from Dictionary.Add
    | InvalidOperator                                                  // ArgumentException from EvaluateExpression
    | InvalidShape                                                     // InvalidOperationException
    | IndexOutOfRange                                                  // IndexOutOfRangeException
    | Format                                                           // FormatException from int.Parse or bool.Parse

  // ---------------------------------------------------------------------
  // Single guards

  /** `IsNull`: a C# null is `None`. */
  function IsNull<T>(argument: Option<T>, argumentName: string, methodName: string): (r: Outcome<Error>)
    ensures r.Fail? <==> argument.None?
    ensures r.Fail? ==> r.error == ArgumentNull(argumentName, methodName)
  {
    if argument.None? then Fail(ArgumentNull(argumentName, methodName)) else Pass
  }

  /** `IsNegative`: raises for every negative argument; 0 passes. */
  function IsNegative(argument: int, argumentName: string, methodName: string): (r: Outcome<Error>)
    ensures r.Fail? <==> argument < 0
    ensures r.Fail? ==> r.error == ArgumentOutOfRange(argumentName)
  {
    if argument < 0 then Fail(ArgumentOutOfRange(argumentName)) else Pass
  }

  /** `IsOutOfRange`: both bounds are inclusive. */
  function IsOutOfRange(argument: int, argumentName: string, minValue: int, maxValue: int): (r: Outcome<Error>)
    ensures r.Pass? <==> minValue <= argument <= maxValue
    ensures r.Fail? ==> r.error == ArgumentOutOfRange(argumentName)
  {
    if argument < minValue || argument > maxValue then Fail(ArgumentOutOfRange(argumentName)) else Pass
  }

  /** `isHigherThan`: raises only above the maximum. */
  function IsHigherThan(argument: int, argumentName: string, maxValue: int): (r: Outcome<Error>)
    ensures r.Fail? <==> argument > maxValue
    ensures r.Fail? ==> r.error == ArgumentOutOfRange(argumentName)
  {
    if argument > maxValue then Fail(ArgumentOutOfRange(argumentName)) else Pass
  }

  /** `IsLowerThan`: raises only below the minimum. */
  function IsLowerThan(argument: int, argumentName: string, minValue: int): (r: Outcome<Error>)
    ensures r.Fail? <==> argument < minValue
    ensures r.Fail? ==> r.error == ArgumentOutOfRange(argumentName)
  {
    if argument < minValue then Fail(ArgumentOutOfRange(argumentName)) else Pass
  }

  /** `IsStringEmpty(string, string, string)`: only the exact empty string raises. */
  function IsStringEmpty(argument: string, argumentName: string, methodName: string): (r: Outcome<Error>)
    ensures r.Fail? <==> |argument| == 0
    ensures r.Fail? ==> r.error == InvalidArgument(methodName, argumentName)
  {
    if argument == "" then Fail(InvalidArgument(methodName, argumentName)) else Pass
  }

  /** `IsStringEmpty(string, Exception)`: raises the given exception for "". */
  function IsStringEmptyOr(argument: string, exception: Error): (r: Outcome<Error>)
    ensures r.Fail? <==> |argument| == 0
    ensures r.Fail? ==> r.error == exception
  {
    if argument == "" then Fail(exception) else Pass
  }

  /** `ValidateExactArgumentCount<T>(T[], int, string)`. */
  function ValidateExactArgumentCount<T>(arguments: seq<T>, expectedCount: int, methodName: string): (r: Outcome<Error>)
    ensures r.Pass? <==> |arguments| == expectedCount
    ensures r.Fail? ==> r.error == WrongArgumentCount(methodName, expectedCount, |arguments|)
  {
    ValidateExactCount(|arguments|, expectedCount, methodName)
  }

  /** `ValidateExactArgumentCount<T>(T[], int, Exception)`. */
  function ValidateExactArgumentCountOr<T>(arguments: seq<T>, expectedCount: int, exception: Error): (r: Outcome<Error>)
    ensures r.Pass? <==> |arguments| == expectedCount
    ensures r.Fail? ==> r.error == exception
  {
    if |arguments| != expectedCount then Fail(exception) else Pass
  }

  /** `ValidateExactArgumentCount(int, int, string)`. */
  function ValidateExactCount(actualCount: int, expectedCount: int, methodName: string): (r: Outcome<Error>)
    ensures r.Pass? <==> actualCount == expectedCount
    ensures r.Fail? ==> r.error == WrongArgumentCount(methodName, expectedCount, actualCount)
  {
    if actualCount != expectedCount then Fail(WrongArgumentCount(methodName, expectedCount, actualCount)) else Pass
  }

  /** `ParsableToType<int>(string, string, string)`: raises when the conversion fails. */
  function ParsableToType(argument: string, argumentName: string, methodName: string): (r: Outcome<Error>)
    ensures r.Fail? <==> ParseInt(argument).None?
    ensures r.Fail? ==> r.error == InvalidArgument(methodName, argumentName)
  {
    if ParseInt(argument).None? then Fail(InvalidArgument(methodName, argumentName)) else Pass
  }

  /**
   * `ParsableToType<int>(string, Exception)` as written: the exception it
   * throws after a successful conversion is caught by its own catch-all, and
   * so is a failed conversion, so it never raises.
   */
  function ParsableToTypeOr(argument: string, exception: Error): (r: Outcome<Error>)
    ensures r == Pass
  {
    // The try block raises `exception` exactly when ParseInt(argument) is
    // Some, and raises a conversion error when it is None; the catch-all
    // swallows both, so the guard always passes.
    Pass
  }

  /** What `ParsableToType<int>(string, Exception)` was meant to do: raise when the conversion succeeds. */
  function ParsableToTypeIntended(argument: string, exception: Error): (r: Outcome<Error>)
    ensures r.Fail? <==> ParseInt(argument).Some?
    ensures r.Fail? ==> r.error == exception
  {
    if ParseInt(argument).Some? then Fail(exception) else Pass
  }

  /** `NotParsableToType<int>(string, Exception)`: raises exactly when the conversion fails. */
  function NotParsableToType(argument: string, exception: Error): (r: Outcome<Error>)
    ensures r.Fail? <==> ParseInt(argument).None?
    ensures r.Fail? ==> r.error == exception
  {
    if ParseInt(argument).None? then Fail(exception) else Pass
  }

  /** A name of the `KnownColor` enumeration, compared ignoring case. */
  predicate IsKnownColour(argument: string, colours: set<string>)
  {
    exists c | c in colours :: EqualsIgnoreCase(c, argument)
  }

  /** `InvalidColour`: `colours` stands for `Enum.GetNames(typeof(KnownColor))`. */
  function InvalidColour(argument: string, argumentName: string, methodName: string, colours: set<string>): (r: Outcome<Error>)
    ensures r.Pass? <==> Lower(argument) in (set c | c in colours :: Lower(c))
    ensures r.Fail? ==> r.error == InvalidArgument(methodName, argumentName)
  {
    if IsKnownColour(argument, colours) then Pass else Fail(InvalidArgument(methodName, argumentName))
  }

  // ---------------------------------------------------------------------
  // validateArguments

  /** The "type" entry of an argument description, with the optional keys that go with it. */
  datatype ArgKind =
    | IntArg(minValue: Option<int>, maxValue: Option<int>)   // typeof(int), "minValue", "maxValue"
    | StringArg                                              // typeof(string)
    | ColourArg                                              // typeof(Color)
    | BoolArg(acceptOnOff: bool)                             // typeof(bool), "accept_on-off"

  /** One entry of the argument table: its label, its "value" (None for null) and its kind. */
  datatype ArgSpec = ArgSpec(name: string, value: Option<string>, kind: ArgKind)

  /** What an accepted int argument satisfies. */
  predicate IntAcceptable(v: string, minValue: Option<int>, maxValue: Option<int>)
  {
    && ParseInt(v).Some?
    && (minValue.Some? ==> minValue.value <= ParseInt(v).value)
    && (maxValue.Some? ==> ParseInt(v).value <= maxValue.value)
    && ParseInt(v).value >= 0
  }

  /** What an accepted bool argument is. */
  predicate BoolAcceptable(v: string, acceptOnOff: bool)
  {
    ParseBool(v).Some? || (acceptOnOff && (EqualsIgnoreCase(v, "on") || EqualsIgnoreCase(v, "off")))
  }

  /** The checks `validateArguments` runs on one entry, in the order it runs them. */
  function CheckArgument(a: ArgSpec, methodName: string, colours: set<string>): (r: Outcome<Error>)
    ensures a.value.None? ==> r == Fail(ArgumentNull(a.name, methodName))
    ensures a.value.Some? && a.kind.IntArg? ==>
      (r.Pass? <==> IntAcceptable(a.value.value, a.kind.minValue, a.kind.maxValue))
    ensures a.value.Some? && a.kind.StringArg? ==> (r.Pass? <==> a.value.value != "")
    ensures a.value.Some? && a.kind.ColourArg? ==> (r.Pass? <==> IsKnownColour(a.value.value, colours))
    ensures a.value.Some? && a.kind.BoolArg? ==> (r.Pass? <==> BoolAcceptable(a.value.value, a.kind.acceptOnOff))
    ensures r.Fail? ==> r.error.ArgumentNull? || r.error.InvalidArgument? || r.error.ArgumentOutOfRange?
  {
    match a.value
    case None => IsNull(a.value, a.name, methodName)
    case Some(v) =>
      match a.kind
      case IntArg(minValue, maxValue) =>
        (match ParseInt(v)
         case None => Fail(InvalidArgument(methodName, a.name))
         case Some(n) =>
           var range :=
             if minValue.Some? && maxValue.Some? then IsOutOfRange(n, a.name, minValue.value, maxValue.value)
             else if minValue.Some? then IsLowerThan(n, a.name, minValue.value)
             else if maxValue.Some? then IsHigherThan(n, a.name, maxValue.value)
             else Pass;
           if range.Fail? then range else IsNegative(n, a.name, methodName))
      case StringArg =>
        IsStringEmpty(v, a.name, methodName)
      case ColourArg =>
        InvalidColour(v, a.name, methodName, colours)
      case BoolArg(acceptOnOff) =>
        if acceptOnOff then
          if ParseBool(v).None? && !EqualsIgnoreCase(v, "on") && !EqualsIgnoreCase(v, "off")
          then Fail(InvalidArgument(methodName, a.name)) else Pass
        else if ParseBool(v).None? then Fail(InvalidArgument(methodName, a.name))
        else Pass
  }

  predicate AllAccepted(arguments: seq<ArgSpec>, methodName: string, colours: set<string>)
  {
    forall i :: 0 <= i < |arguments| ==> CheckArgument(arguments[i], methodName, colours).Pass?
  }

  /** The position of the first entry the checks reject, or the length when there is none. */
  function FirstRejected(arguments: seq<ArgSpec>, methodName: string, colours: set<string>): (i: nat)
    ensures i <= |arguments|
    ensures forall j :: 0 <= j < i ==> CheckArgument(arguments[j], methodName, colours).Pass?
    ensures i < |arguments| ==> CheckArgument(arguments[i], methodName, colours).Fail?
  {
    if arguments == [] || CheckArgument(arguments[0], methodName, colours).Fail? then 0
    else 1 + FirstRejected(arguments[1..], methodName, colours)
  }

  /**
   * `validateArguments`: the entries are checked in order and the first
   * failure is raised; the rest are not looked at.
   */
  function ValidateArguments(arguments: seq<ArgSpec>, methodName: string, colours: set<string>): (r: Outcome<Error>)
    ensures r.Pass? <==> AllAccepted(arguments, methodName, colours)
    ensures r.Fail? ==>
      var i := FirstRejected(arguments, methodName, colours);
      i < |arguments| && r == CheckArgument(arguments[i], methodName, colours)
  {
    if arguments == [] then Pass
    else
      var first := CheckArgument(arguments[0], methodName, colours);
      if first.Fail? then first
      else
        var rest := ValidateArguments(arguments[1..], methodName, colours);
        assert forall j :: 1 <= j < |arguments| ==> arguments[j] == arguments[1..][j - 1];
        rest
  }

  /** A table of one entry is decided by that entry alone. */
  lemma SingleEntry(a: ArgSpec, methodName: string, colours: set<string>)
    ensures ValidateArguments([a], methodName, colours) == CheckArgument(a, methodName, colours)
  {
    assert [a][1..] == [];
  }

  // ---------------------------------------------------------------------
  // Behaviour the tests pin down

  /** A word already trimmed whose length is not that of "on", "off", "true" or "false" is no boolean. */
  lemma NoBoolWordRejected(v: string, onOff: bool, methodName: string, colours: set<string>)
    requires TrimBy(v, IsWhiteSpaceOrNull) == v && |v| !in {2, 3, 4, 5}
    ensures CheckArgument(ArgSpec("BoolArg", Some(v), BoolArg(onOff)), methodName, colours).Fail?
  {
    ParseBoolLength(v);
    EqualsIgnoreCaseLength(v, "on");
    EqualsIgnoreCaseLength(v, "off");
  }

  /** "invalidBool" is no boolean, with or without on/off. */
  lemma InvalidBoolRejected(v: string, onOff: bool, methodName: string, colours: set<string>)
    requires v == "invalidBool"
    ensures CheckArgument(ArgSpec("BoolArg", Some(v), BoolArg(onOff)), methodName, colours).Fail?
  {
    assert |v| == 11 && v[0] == 'i' && v[10] == 'l';
    TrimByUnchanged(v, IsWhiteSpaceOrNull);
    NoBoolWordRejected(v, onOff, methodName, colours);
  }

  /** A trimmed "on" or "off", in any case, passes only when the entry accepts on/off. */
  lemma OnOffNeedsFlag(v: string, methodName: string, colours: set<string>)
    requires TrimBy(v, IsWhiteSpaceOrNull) == v && (EqualsIgnoreCase(v, "on") || EqualsIgnoreCase(v, "off"))
    ensures CheckArgument(ArgSpec("BoolArg", Some(v), BoolArg(true)), methodName, colours).Pass?
    ensures CheckArgument(ArgSpec("BoolArg", Some(v), BoolArg(false)), methodName, colours).Fail?
  {
    ParseBoolLength(v);
    EqualsIgnoreCaseLength(v, "on");
    EqualsIgnoreCaseLength(v, "off");
  }

  /** A string of white space is not "empty". */
  lemma BlankStringAccepted(methodName: string, colours: set<string>)
    ensures CheckArgument(ArgSpec("s", Some(" "), StringArg), methodName, colours).Pass?
  {
  }
}
