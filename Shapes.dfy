/**
 * The shape factory (`ShapeFactory.getShape`): a shape name and an array
 * of integers become a shape description. A shape is the set of values
 * its constructor stores; how it is drawn is not part of it.
 */
module Shapes {
  import opened Wrappers
  import opened Text
  import opened ThrowIf

  /** Which class of the triangle family was built. */
  datatype TriangleKind = Plain | Equilateral | Isosceles

  datatype Shape =
    | Rectangle(width: Int32, height: Int32, isSquare: bool)       // Rectangle, or a Square with both sides equal
    | Circle(radius: Int32)
    | Triangle(kind: TriangleKind, sideA: Int32, sideB: Int32, sideC: Int32, startX: Int32, startY: Int32)

  /** The names `getShape` recognises, after `ToLower().Trim()`, and how many arguments each reads. */
  function Arity(name: string): (n: Option<nat>)
  {
    if name == "square" || name == "circle" then Some(1)
    else if name == "rectangle" then Some(2)
    else if name == "equil_triangle" then Some(3)
    else if name == "isos_triangle" then Some(4)
    else if name == "triangle" then Some(5)
    else None
  }

  /** The name `getShape` matches on. */
  function Normalise(shapeType: string): string
  {
    Trim(Lower(shapeType))
  }

  /**
   * `getShape(shapeType, args)`. Reading past the end of `args` raises
   * `IndexOutOfRangeException`; an unknown name raises
   * `InvalidOperationException`. The three-side and four-argument triangle
   * constructors set the sides they are not given to 1.
   */
  function GetShape(shapeType: string, args: seq<Int32>): (r: Result<Shape, Error>)
  {
    var name := Normalise(shapeType);
    if name == "square" then
      if |args| < 1 then Failure(IndexOutOfRange) else Success(Rectangle(args[0], args[0], true))
    else if name == "rectangle" then
      if |args| < 2 then Failure(IndexOutOfRange) else Success(Rectangle(args[0], args[1], false))
    else if name == "circle" then
      if |args| < 1 then Failure(IndexOutOfRange) else Success(Circle(args[0]))
    else if name == "equil_triangle" then
      if |args| < 3 then Failure(IndexOutOfRange) else Success(Triangle(Equilateral, args[0], 1, 1, args[1], args[2]))
    else if name == "isos_triangle" then
      if |args| < 4 then Failure(IndexOutOfRange) else Success(Triangle(Isosceles, args[0], args[1], 1, args[2], args[3]))
    else if name == "triangle" then
      if |args| < 5 then Failure(IndexOutOfRange) else Success(Triangle(Plain, args[0], args[1], args[2], args[3], args[4]))
    else Failure(InvalidShape)
  }

  /** An unknown name raises; a known one succeeds exactly when `args` is long enough for it. */
  lemma ShapeArity(shapeType: string, args: seq<Int32>)
    ensures var r, n := GetShape(shapeType, args), Arity(Normalise(shapeType));
      && (r == Failure(InvalidShape) <==> n.None?)
      && (r == Failure(IndexOutOfRange) <==> n.Some? && |args| < n.value)
      && (r.Success? <==> n.Some? && |args| >= n.value)
  {
    var name := Normalise(shapeType);
    if name == "square" || name == "circle" {
    } else if name == "rectangle" {
    } else if name == "equil_triangle" {
    } else if name == "isos_triangle" {
    } else if name == "triangle" {
    }
  }

  /** Arguments past the ones a shape reads make no difference. */
  lemma ExtraArgumentsIgnored(shapeType: string, args: seq<Int32>, more: seq<Int32>)
    requires GetShape(shapeType, args).Success?
    ensures GetShape(shapeType, args + more) == GetShape(shapeType, args)
  {
    var all := args + more;
    assert forall i :: 0 <= i < |args| ==> all[i] == args[i];
    ShapeArity(shapeType, args);
    ShapeArity(shapeType, all);
  }

  /** A square is a rectangle whose two sides are both the first argument; a rectangle takes them in order. */
  lemma RectangleFields(shapeType: string, args: seq<Int32>)
    requires GetShape(shapeType, args).Success? && GetShape(shapeType, args).value.Rectangle?
    ensures var b, n := GetShape(shapeType, args).value, Arity(Normalise(shapeType)).value;
      && b.width == args[0]
      && b.height == (if b.isSquare then args[0] else args[1])
      && (b.isSquare <==> n == 1)
  {
    var name := Normalise(shapeType);
    if name == "square" {
      assert Arity(name) == Some(1);
    } else {
      assert name == "rectangle" && Arity(name) == Some(2);
    }
  }

  /** Every triangle starts at the last two arguments it reads; sides it is not given are 1. */
  lemma TriangleFields(shapeType: string, args: seq<Int32>)
    requires GetShape(shapeType, args).Success? && GetShape(shapeType, args).value.Triangle?
    ensures var t, n := GetShape(shapeType, args).value, Arity(Normalise(shapeType)).value;
      && n >= 3 && t.startX == args[n - 2] && t.startY == args[n - 1]
      && t.sideA == args[0]
      && t.sideB == (if n >= 4 then args[1] else 1)
      && t.sideC == (if n == 5 then args[2] else 1)
      && (t.kind == Equilateral <==> n == 3) && (t.kind == Isosceles <==> n == 4) && (t.kind == Plain <==> n == 5)
  {
    var name := Normalise(shapeType);
    if name == "equil_triangle" {
      assert Arity(name) == Some(3);
    } else if name == "isos_triangle" {
      assert Arity(name) == Some(4);
    } else {
      assert name == "triangle" && Arity(name) == Some(5);
    }
  }

  /** Every character of the string is already lower case. */
  predicate IsLowered(s: string)
  {
    forall i :: 0 <= i < |s| ==> LowerChar(s[i]) == s[i]
  }

  lemma LowerIsLowered(s: string)
    ensures IsLowered(Lower(s))
  {
  }

  lemma LoweredUnchanged(s: string)
    requires IsLowered(s)
    ensures Lower(s) == s
  {
  }

  /** Trimming keeps a lower-cased string lower-cased: it only drops characters at the ends. */
  lemma TrimKeepsLowered(s: string)
    requires IsLowered(s)
    ensures IsLowered(Trim(s))
  {
    var front := TrimStart(s, IsWhiteSpace);
    assert forall i :: 0 <= i < |front| ==> front[i] == s[|s| - |front| + i];
    var t := TrimEnd(front, IsWhiteSpace);
    assert forall i :: 0 <= i < |t| ==> t[i] == front[i];
  }

  /** A trimmed string neither starts nor ends with white space. */
  lemma TrimmedEnds(s: string)
    ensures var t := Trim(s); |t| > 0 ==> !IsWhiteSpace(t[0]) && !IsWhiteSpace(t[|t| - 1])
  {
    var front := TrimStart(s, IsWhiteSpace);
    var t := TrimEnd(front, IsWhiteSpace);
    assert |t| > 0 ==> t[0] == front[0];
  }

  /** Trimming and lower-casing a second time changes nothing. */
  lemma NormaliseIdempotent(shapeType: string)
    ensures Normalise(Normalise(shapeType)) == Normalise(shapeType)
  {
    var lowered := Lower(shapeType);
    LowerIsLowered(shapeType);
    TrimKeepsLowered(lowered);
    var t := Trim(lowered);
    assert t == Normalise(shapeType);
    LoweredUnchanged(t);
    assert Lower(t) == t;
    TrimmedEnds(lowered);
    TrimByUnchanged(t, IsWhiteSpace);
    assert Trim(t) == t;
  }

  /** A name already trimmed and lower-cased selects the same shape as the original. */
  lemma NormalisedNameSameShape(shapeType: string, args: seq<Int32>)
    ensures GetShape(Normalise(shapeType), args) == GetShape(shapeType, args)
  {
    NormaliseIdempotent(shapeType);
  }
}
