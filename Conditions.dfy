/**
 * The condition evaluator (`IfStatement`): compares a stored variable with
 * an integer literal under one of six comparison operators.
 */
module Conditions {
  import opened Wrappers
  import opened Text
  import opened ThrowIf
  import opened VariableStore

  /** The comparison operators `EvaluateExpression` recognises. */
  predicate IsOperator(op: string)
  {
    op in {">", "<", ">=", "<=", "==", "!="}
  }

  /**
   * `EvaluateExpression` on a given store: an absent variable makes the
   * condition false whatever the operator; a present one with an unknown
   * operator raises.
   */
  function Evaluation(store: Store, name: string, op: string, value: Int32): (r: Result<bool, Error>)
    ensures name !in store ==> r == Success(false)
    ensures r.Failure? <==> name in store && !IsOperator(op)
    ensures r.Failure? ==> r.error == InvalidOperator
  {
    if name in store then
      var v := store[name];
      if op == ">" then Success(v > value)
      else if op == "<" then Success(v < value)
      else if op == ">=" then Success(v >= value)
      else if op == "<=" then Success(v <= value)
      else if op == "==" then Success(v == value)
      else if op == "!=" then Success(v != value)
      else Failure(InvalidOperator)
    else Success(false)
  }

  /** For a present variable, each operator is the integer comparison of the stored value with the literal. */
  lemma ComparisonMeaning(store: Store, name: string, value: Int32)
    requires name in store
    ensures Evaluation(store, name, ">", value) == Success(store[name] > value)
    ensures Evaluation(store, name, "<", value) == Success(store[name] < value)
    ensures Evaluation(store, name, ">=", value) == Success(store[name] >= value)
    ensures Evaluation(store, name, "<=", value) == Success(store[name] <= value)
    ensures Evaluation(store, name, "==", value) == Success(store[name] == value)
    ensures Evaluation(store, name, "!=", value) == Success(store[name] != value)
  {
  }

  /** For a present variable, `>`/`<=`, `<`/`>=` and `==`/`!=` always disagree. */
  lemma OppositeOperators(store: Store, name: string, value: Int32)
    requires name in store
    ensures Evaluation(store, name, ">", value).value == !Evaluation(store, name, "<=", value).value
    ensures Evaluation(store, name, "<", value).value == !Evaluation(store, name, ">=", value).value
    ensures Evaluation(store, name, "==", value).value == !Evaluation(store, name, "!=", value).value
  {
  }

  /** For a present variable exactly one of `<`, `==` and `>` holds. */
  lemma Trichotomy(store: Store, name: string, value: Int32)
    requires name in store
    ensures var lt, eq, gt := Evaluation(store, name, "<", value).value,
                              Evaluation(store, name, "==", value).value,
                              Evaluation(store, name, ">", value).value;
      (lt || eq || gt) && !(lt && eq) && !(lt && gt) && !(eq && gt)
  {
  }

  /** Right after `ParseDeclaration`, the declared key compares equal to the declared value. */
  lemma DeclaredValueCompares(store: Store, input: string)
    requires ParseAssignment(input).Success?
    ensures var d := ParseAssignment(input).value;
      && Evaluation(Declare(store, d), d.name, "==", d.value) == Success(true)
      && Evaluation(Declare(store, d), d.name, "!=", d.value) == Success(false)
  {
  }

  class IfStatement {
    const variables: Variables

    constructor (variables: Variables)
      ensures this.variables == variables
    {
      this.variables := variables;
    }

    /** Reads the store and never changes it: the method may modify nothing. */
    method EvaluateExpression(name: string, op: string, value: Int32) returns (r: Result<bool, Error>)
      ensures r == Evaluation(variables.store, name, op, value)
    {
      var present := variables.ContainsVariable(name);
      if !present {
        return Success(false);
      }
      var fetched := variables.GetVariable(name);
      var v := fetched.value;
      if op == ">" {
        r := Success(v > value);
      } else if op == "<" {
        r := Success(v < value);
      } else if op == ">=" {
        r := Success(v >= value);
      } else if op == "<=" {
        r := Success(v <= value);
      } else if op == "==" {
        r := Success(v == value);
      } else if op == "!=" {
        r := Success(v != value);
      } else {
        r := Failure(InvalidOperator);
      }
    }
  }
}
