/**
 * The variable store (`Variables`): one dictionary from names to `int`
 * values, changed in place, and the parser of `name=value` declarations
 * that feeds it.
 */
module VariableStore {
  import opened Wrappers
  import opened Text
  import opened ThrowIf

  type Store = map<string, Int32>

  /** The messages of the exceptions `ParseDeclaration` builds. */
  const InvalidAssignment := "Invalid variable assignment."
  const EmptyName := "Variable name cannot be empty."
  const NumericName := "Variable name cannot be a number."
  const NotAnInteger := "Invalid value type. Value must be an integer."

  /** The dictionary read `variableKeyValuePairs[name]`. */
  function Fetch(store: Store, name: string): (r: Result<Int32, Error>)
    ensures r.Success? <==> name in store
    ensures r.Success? ==> r.value == store[name]
    ensures r.Failure? ==> r.error == KeyNotFound(name)
  {
    if name in store then Success(store[name]) else Failure(KeyNotFound(name))
  }

  // ---------------------------------------------------------------------
  // Declarations

  /** An accepted declaration: the key it is stored under and its value. */
  datatype Declaration = Declaration(name: string, value: Int32)

  /** The store after a declaration: the key holds the value, no other key is added or changed. */
  function Declare(store: Store, d: Declaration): (s: Store)
    ensures s.Keys == store.Keys + {d.name}
    ensures s[d.name] == d.value
    ensures forall k :: k in store && k != d.name ==> s[k] == store[k]
  {
    store[d.name := d.value]
  }

  /** The first failed check, or what comes after the checks. */
  function Then<T>(check: Outcome<Error>, next: Result<T, Error>): Result<T, Error>
  {
    if check.Fail? then Failure(check.error) else next
  }

  /** The value check, then the trimmed, lower-cased name and the parsed value. */
  function Stored(left: string, right: string): (r: Result<Declaration, Error>)
    ensures r.Success? <==> ParseInt(right).Some?
    ensures r.Failure? ==> r.error == Custom(NotAnInteger)
    ensures r.Success? ==> r.value.name == Lower(Trim(left)) && Some(r.value.value) == ParseInt(right)
  {
    var check := NotParsableToType(right, Custom(NotAnInteger));
    if check.Fail? then Failure(check.error)
    else Success(Declaration(Lower(Trim(left)), ParseInt(right).value))
  }

  /**
   * The checks of `ParseDeclaration` and what it then stores, as written:
   * the number check on the name is `ParsableToTypeOr`, which never fires,
   * and the emptiness check looks at the untrimmed name.
   */
  function ParseAssignment(input: string): (r: Result<Declaration, Error>)
  {
    var parts := Split(input, {'='});
    var count := ValidateExactArgumentCountOr(parts, 2, Custom(InvalidAssignment));
    if count.Fail? then Failure(count.error)
    else
      Then(IsStringEmptyOr(parts[0], Custom(EmptyName)),
        Then(ParsableToTypeOr(parts[0], Custom(NumericName)),
          Stored(parts[0], parts[1])))
  }

  /** The same checks as intended: the key to be stored must be neither empty nor a number. */
  function ParseAssignmentIntended(input: string): (r: Result<Declaration, Error>)
  {
    var parts := Split(input, {'='});
    var count := ValidateExactArgumentCountOr(parts, 2, Custom(InvalidAssignment));
    if count.Fail? then Failure(count.error)
    else
      var key := Lower(Trim(parts[0]));
      Then(IsStringEmptyOr(key, Custom(EmptyName)),
        Then(ParsableToTypeIntended(key, Custom(NumericName)),
          Stored(parts[0], parts[1])))
  }

  /** When a declaration is accepted, what it stores, and the three rejections in the order they are checked. */
  lemma DeclarationContract(input: string)
    ensures var parts := Split(input, {'='});
      var r := ParseAssignment(input);
      && (r.Success? <==> |parts| == 2 && parts[0] != "" && ParseInt(parts[1]).Some?)
      && (r.Success? ==> r.value.name == Lower(Trim(parts[0])) && Some(r.value.value) == ParseInt(parts[1]))
      && (SepCount(input, {'='}) != 1 ==> r == Failure(Custom(InvalidAssignment)))
      && (|parts| == 2 && parts[0] == "" ==> r == Failure(Custom(EmptyName)))
      && (|parts| == 2 && parts[0] != "" && ParseInt(parts[1]).None? ==> r == Failure(Custom(NotAnInteger)))
  {
  }

  /** `IntToString` never produces an equals sign. */
  lemma NoEqualsInNumber(value: int)
    ensures '=' !in IntToString(value)
  {
    var m: nat := if value < 0 then -value else value;
    var digits := NatToString(m);
    assert forall i :: 0 <= i < |digits| ==> IsDigit(digits[i]);
    if value < 0 {
      assert IntToString(value) == "-" + digits;
    }
  }

  /** Writing a declaration `name=value` and parsing it gives back the key and the value. */
  lemma DeclarationRoundTrip(name: string, value: Int32)
    requires '=' !in name && name != ""
    ensures ParseAssignment(name + "=" + IntToString(value)) == Success(Declaration(Lower(Trim(name)), value))
  {
    var digits := IntToString(value);
    NoEqualsInNumber(value);
    SplitDeclaration(name, digits);
    ParseIntToString(value);
  }

  /** A two-part `name=value` input splits into its name and its value. */
  lemma SplitDeclaration(name: string, digits: string)
    requires '=' !in name && '=' !in digits
    ensures Split(name + "=" + digits, {'='}) == [name, digits]
  {
    assert [name, digits][1..] == [digits];
    assert Join([name, digits], '=') == name + "=" + digits;
    SplitJoin([name, digits], '=');
  }

  /** "5=3" splits into "5" and "3", both of which read as integers. */
  lemma FiveEqualsThree(input: string)
    requires input == "5=3"
    ensures var parts := Split(input, {'='});
      && parts == [input[..1], input[2..]]
      && Lower(Trim(parts[0])) == parts[0] && parts[0] == "5"
      && ParseInt(parts[0]) == Some(5) && ParseInt(parts[1]) == Some(3)
  {
    var name, digits := input[..1], input[2..];
    assert name == IntToString(5) && digits == IntToString(3);
    assert name + "=" + digits == input;
    assert '=' !in name && '=' !in digits;
    SplitDeclaration(name, digits);
    TrimByUnchanged(name, IsWhiteSpace);
    assert Lower(name) == name;
    ParseIntToString(5);
    ParseIntToString(3);
  }

  /** "5=3" is accepted and stores 3 under "5", though the name is a number; the intended check refuses it. */
  lemma NumericNameAccepted(input: string)
    requires input == "5=3"
    ensures ParseAssignment(input) == Success(Declaration("5", 3))
    ensures ParseAssignmentIntended(input) == Failure(Custom(NumericName))
  {
    FiveEqualsThree(input);
  }

  /** " =3" passes the emptiness check and stores 3 under ""; the intended check refuses it. */
  lemma BlankNameStoredEmpty(input: string)
    requires input == " =3"
    ensures ParseAssignment(input) == Success(Declaration("", 3))
    ensures ParseAssignmentIntended(input) == Failure(Custom(EmptyName))
  {
    var name, digits := input[..1], input[2..];
    assert digits == IntToString(3);
    assert name + "=" + digits == input;
    assert '=' !in name && '=' !in digits;
    SplitDeclaration(name, digits);
    assert TrimStart(name, IsWhiteSpace) == "";
    assert Trim(name) == "";
    ParseIntToString(3);
  }

  /** With the intended checks, the key an accepted declaration stores is neither empty nor a number. */
  lemma IntendedKeys(input: string)
    ensures var r := ParseAssignmentIntended(input);
      r.Success? ==> r.value.name != "" && ParseInt(r.value.name).None?
  {
  }

  /** The intended checks only refuse more: whatever they accept is accepted as written, with the same result. */
  lemma IntendedNarrows(input: string)
    ensures ParseAssignmentIntended(input).Success? ==> ParseAssignment(input) == ParseAssignmentIntended(input)
  {
    var parts := Split(input, {'='});
    if ParseAssignmentIntended(input).Success? {
      assert |Lower(Trim(parts[0]))| == |Trim(parts[0])| > 0;
      assert parts[0] != "";
    }
  }

  // ---------------------------------------------------------------------
  // The mutable store

  class Variables {
    /** `variableKeyValuePairs`. */
    var store: Store

    constructor ()
      ensures store == map[]
    {
      store := map[];
    }

    /** `Dictionary.Add`: a name already present raises and leaves the store as it was. */
    method AddVariable(name: string, value: Int32) returns (r: Outcome<Error>)
      modifies this
      ensures name in old(store) ==> r == Fail(DuplicateKey(name)) && store == old(store)
      ensures name !in old(store) ==> r == Pass && store == old(store)[name := value]
    {
      if name in store {
        r := Fail(DuplicateKey(name));
      } else {
        store := store[name := value];
        r := Pass;
      }
    }

    /** The dictionary read: the stored value, or `KeyNotFoundException` for an absent name. */
    method GetVariable(name: string) returns (r: Result<Int32, Error>)
      ensures r == Fetch(store, name)
    {
      if name in store {
        r := Success(store[name]);
      } else {
        r := Failure(KeyNotFound(name));
      }
    }

    /** The dictionary write: inserts or overwrites, and no other name changes. */
    method SetVariable(name: string, value: Int32)
      modifies this
      ensures store == old(store)[name := value]
      ensures Fetch(store, name) == Success(value)
      ensures forall k :: k != name ==> Fetch(store, k) == Fetch(old(store), k)
    {
      store := store[name := value];
    }

    method ContainsVariable(name: string) returns (b: bool)
      ensures b <==> name in store
    {
      b := name in store;
    }

    /** Deletes the name if present; every other name keeps its value. */
    method RemoveVariable(name: string)
      modifies this
      ensures store == old(store) - {name}
      ensures Fetch(store, name) == Failure(KeyNotFound(name))
      ensures forall k :: k != name ==> Fetch(store, k) == Fetch(old(store), k)
    {
      store := store - {name};
    }

    /** `clearVariables`. */
    method ClearVariables()
      modifies this
      ensures store == map[]
    {
      store := map[];
    }

    /**
     * Parses `input` as `name=value` and stores it: a new name is added,
     * a present one overwritten. A rejected declaration changes nothing.
     */
    method ParseDeclaration(input: string) returns (r: Outcome<Error>)
      modifies this
      ensures ParseAssignment(input).Failure? ==> r == Fail(ParseAssignment(input).error) && store == old(store)
      ensures ParseAssignment(input).Success? ==> r == Pass && store == Declare(old(store), ParseAssignment(input).value)
    {
      var parsed := ParseAssignment(input);
      if parsed.Failure? {
        return Fail(parsed.error);
      }
      var d := parsed.value;
      var present := ContainsVariable(d.name);
      if present {
        SetVariable(d.name, d.value);
        r := Pass;
      } else {
        r := AddVariable(d.name, d.value);
      }
    }
  }
}
