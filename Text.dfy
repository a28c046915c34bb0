/**
 * The pieces of .NET string handling the interpreter relies on: ordinal
 * case folding, `Trim`, `Split`, `int.TryParse` and `bool.TryParse`.
 * Case folding is restricted to the ASCII letters.
 */
module Text {
  import opened Wrappers

  /** The range of a C# `int`. */
  const IntMin: int := -0x8000_0000
  const IntMax: int := 0x7FFF_FFFF

  type Int32 = n: int | IntMin <= n <= IntMax

  // ---------------------------------------------------------------------
  // Case folding

  function LowerChar(c: char): char
  {
    if 'A' <= c <= 'Z' then (c as int - 'A' as int + 'a' as int) as char else c
  }

  /** `ToLower()` (and the folding behind `OrdinalIgnoreCase`), on ASCII letters. */
  function Lower(s: string): string
  {
    seq(|s|, i requires 0 <= i < |s| => LowerChar(s[i]))
  }

  /** `a.Equals(b, StringComparison.OrdinalIgnoreCase)`. */
  predicate EqualsIgnoreCase(a: string, b: string)
  {
    Lower(a) == Lower(b)
  }

  lemma LowerIdempotent(s: string)
    ensures Lower(Lower(s)) == Lower(s)
  {
  }

  // ---------------------------------------------------------------------
  // Character classes

  /** `char.IsWhiteSpace`: the characters `string.Trim()` removes. */
  predicate IsWhiteSpace(c: char)
  {
    var n := c as int;
    (9 <= n <= 13) || n == 0x20 || n == 0x85 || n == 0xA0 || n == 0x1680
    || (0x2000 <= n <= 0x200A) || n == 0x2028 || n == 0x2029 || n == 0x202F
    || n == 0x205F || n == 0x3000
  }

  /** The white space `NumberStyles.Integer` lets `int.TryParse` skip. */
  predicate IsNumberWhite(c: char)
  {
    var n := c as int;
    (9 <= n <= 13) || n == 0x20
  }

  /** What `bool.TryParse` trims: white space and NUL. */
  predicate IsWhiteSpaceOrNull(c: char)
  {
    IsWhiteSpace(c) || c == '\0'
  }

  predicate IsNul(c: char)
  {
    c == '\0'
  }

  predicate IsDigit(c: char)
  {
    '0' <= c <= '9'
  }

  // ---------------------------------------------------------------------
  // Trimming

  /** Drops the leading characters that satisfy `p`. */
  function TrimStart(s: string, p: char -> bool): (r: string)
    ensures |r| <= |s| && r == s[|s| - |r|..]
    ensures forall i :: 0 <= i < |s| - |r| ==> p(s[i])
    ensures |r| > 0 ==> !p(r[0])
    decreases |s|
  {
    if |s| > 0 && p(s[0]) then TrimStart(s[1..], p) else s
  }

  /** Drops the trailing characters that satisfy `p`. */
  function TrimEnd(s: string, p: char -> bool): (r: string)
    ensures |r| <= |s| && r == s[..|r|]
    ensures forall i :: |r| <= i < |s| ==> p(s[i])
    ensures |r| > 0 ==> !p(r[|r| - 1])
    decreases |s|
  {
    if |s| > 0 && p(s[|s| - 1]) then TrimEnd(s[..|s| - 1], p) else s
  }

  function TrimBy(s: string, p: char -> bool): string
  {
    TrimEnd(TrimStart(s, p), p)
  }

  /** `string.Trim()`. */
  function Trim(s: string): string
  {
    TrimBy(s, IsWhiteSpace)
  }

  /** A string that neither starts nor ends with a `p` character is left alone. */
  lemma TrimByUnchanged(s: string, p: char -> bool)
    requires |s| > 0 ==> !p(s[0]) && !p(s[|s| - 1])
    ensures TrimBy(s, p) == s
  {
  }

  /** Trimming by `p` and then by a weaker-or-equal `q` is trimming by `q`, at the start. */
  lemma {:induction false} TrimStartAbsorb(s: string, p: char -> bool, q: char -> bool)
    requires forall c :: p(c) ==> q(c)
    ensures TrimStart(TrimStart(s, p), q) == TrimStart(s, q)
    decreases |s|
  {
    if |s| > 0 && p(s[0]) {
      TrimStartAbsorb(s[1..], p, q);
    }
  }

  lemma {:induction false} TrimEndAbsorb(s: string, p: char -> bool, q: char -> bool)
    requires forall c :: p(c) ==> q(c)
    ensures TrimEnd(TrimEnd(s, p), q) == TrimEnd(s, q)
    decreases |s|
  {
    if |s| > 0 && p(s[|s| - 1]) {
      TrimEndAbsorb(s[..|s| - 1], p, q);
    }
  }

  /** Dropping the first character commutes with trimming the end. */
  lemma {:induction false} TrimEndDropFirst(s: string, p: char -> bool)
    requires |s| > 0
    ensures TrimEnd(s[1..], p) == (if TrimEnd(s, p) == [] then [] else TrimEnd(s, p)[1..])
    decreases |s|
  {
    if p(s[|s| - 1]) && |s| > 1 {
      TrimEndDropFirst(s[..|s| - 1], p);
      assert s[1..][..|s| - 2] == s[..|s| - 1][1..];
    }
  }

  /** Trimming the start and trimming the end can be done in either order. */
  lemma {:induction false} TrimStartEndCommute(s: string, p: char -> bool, q: char -> bool)
    ensures TrimStart(TrimEnd(s, p), q) == TrimEnd(TrimStart(s, q), p)
    decreases |s|
  {
    if |s| > 0 && q(s[0]) {
      TrimEndDropFirst(s, p);
      TrimStartEndCommute(s[1..], p, q);
    }
  }

  /** A second trim by a weaker-or-equal class changes nothing beyond trimming by it once. */
  lemma TrimTwice(s: string, p: char -> bool, q: char -> bool)
    requires forall c :: p(c) ==> q(c)
    ensures TrimBy(TrimBy(s, p), q) == TrimBy(s, q)
  {
    var front := TrimStart(s, p);
    TrimStartEndCommute(front, p, q);
    TrimEndAbsorb(TrimStart(front, q), p, q);
    TrimStartAbsorb(s, p, q);
  }

  // ---------------------------------------------------------------------
  // Splitting

  /** The number of characters of `s` that belong to `seps`. */
  function SepCount(s: string, seps: set<char>): nat
  {
    if s == [] then 0 else (if s[0] in seps then 1 else 0) + SepCount(s[1..], seps)
  }

  /** `s` with every character of `seps` removed. */
  function Strip(s: string, seps: set<char>): string
  {
    if s == [] then [] else (if s[0] in seps then [] else [s[0]]) + Strip(s[1..], seps)
  }

  function Flatten(parts: seq<string>): string
  {
    if parts == [] then [] else parts[0] + Flatten(parts[1..])
  }

  /** The pieces joined back with the separator `c` in between. */
  function Join(parts: seq<string>, c: char): string
  {
    if |parts| == 0 then []
    else if |parts| == 1 then parts[0]
    else parts[0] + [c] + Join(parts[1..], c)
  }

  /**
   * `s.Split(seps)`: the pieces between separator characters, empty pieces
   * included. There is always one more piece than there are separators,
   * so even the empty string gives one piece.
   */
  function Split(s: string, seps: set<char>): (parts: seq<string>)
    ensures |parts| == SepCount(s, seps) + 1
    ensures forall i, j :: 0 <= i < |parts| && 0 <= j < |parts[i]| ==> parts[i][j] !in seps
    ensures Flatten(parts) == Strip(s, seps)
    decreases |s|
  {
    if s == [] then [""]
    else
      var rest := Split(s[1..], seps);
      if s[0] in seps then [""] + rest
      else
        var parts := [[s[0]] + rest[0]] + rest[1..];
        assert parts[1..] == rest[1..];
        assert Flatten(rest) == rest[0] + Flatten(rest[1..]);
        parts
  }

  /** Splitting on one character and joining with it gives back the input. */
  lemma {:induction false} JoinSplit(s: string, c: char)
    ensures Join(Split(s, {c}), c) == s
    decreases |s|
  {
    if s != [] {
      var rest := Split(s[1..], {c});
      JoinSplit(s[1..], c);
      if s[0] == c {
        assert Split(s, {c}) == [""] + rest;
        assert ([""] + rest)[1..] == rest;
      } else {
        var parts := [[s[0]] + rest[0]] + rest[1..];
        assert Split(s, {c}) == parts;
        if |rest| == 1 {
          assert Join(parts, c) == [s[0]] + rest[0];
        } else {
          assert parts[1..] == rest[1..];
          assert Join(parts, c) == [s[0]] + rest[0] + [c] + Join(rest[1..], c);
        }
      }
    }
  }

  /** Joining pieces free of `c` and splitting on `c` gives back the pieces. */
  lemma {:induction false} SplitJoin(parts: seq<string>, c: char)
    requires |parts| >= 1
    requires forall i :: 0 <= i < |parts| ==> c !in parts[i]
    ensures Split(Join(parts, c), {c}) == parts
    decreases |parts|, |parts[0]|
  {
    var p0 := parts[0];
    if |parts| == 1 {
      SplitNoSeparator(p0, c);
    } else if p0 == [] {
      var tail := Join(parts[1..], c);
      assert Join(parts, c) == [c] + tail;
      SplitJoin(parts[1..], c);
      assert ([c] + tail)[1..] == tail;
    } else {
      var shorter := [p0[1..]] + parts[1..];
      assert shorter[1..] == parts[1..];
      assert forall i :: 0 <= i < |shorter| ==> c !in shorter[i] by {
        forall i | 0 <= i < |shorter| ensures c !in shorter[i] {
          if i == 0 {
            assert forall k :: 0 <= k < |p0[1..]| ==> p0[1..][k] == p0[k + 1];
          }
        }
      }
      SplitJoin(shorter, c);
      var s := Join(parts, c);
      assert s == [p0[0]] + Join(shorter, c);
      assert s[1..] == Join(shorter, c);
      assert p0[0] != c;
      assert [p0[0]] + p0[1..] == p0;
    }
  }

  lemma {:induction false} SplitNoSeparator(s: string, c: char)
    requires c !in s
    ensures Split(s, {c}) == [s]
    decreases |s|
  {
    if s != [] {
      assert c !in s[1..];
      SplitNoSeparator(s[1..], c);
      assert s[0] != c;
      assert [s[0]] + s[1..] == s;
    }
  }

  function RemoveEmpty(parts: seq<string>): (r: seq<string>)
    ensures forall i :: 0 <= i < |r| ==> r[i] != ""
  {
    if parts == [] then []
    else (if parts[0] == "" then [] else [parts[0]]) + RemoveEmpty(parts[1..])
  }

  lemma {:induction false} RemoveEmptyFlatten(parts: seq<string>)
    ensures Flatten(RemoveEmpty(parts)) == Flatten(parts)
  {
    if parts != [] {
      RemoveEmptyFlatten(parts[1..]);
      FlattenAppend(if parts[0] == "" then [] else [parts[0]], RemoveEmpty(parts[1..]));
    }
  }

  lemma {:induction false} FlattenAppend(a: seq<string>, b: seq<string>)
    ensures Flatten(a + b) == Flatten(a) + Flatten(b)
  {
    if a == [] {
      assert a + b == b;
    } else {
      assert (a + b)[0] == a[0];
      assert (a + b)[1..] == a[1..] + b;
      FlattenAppend(a[1..], b);
    }
  }

  /** Every piece `RemoveEmpty` keeps was already a piece. */
  lemma {:induction false} RemoveEmptyKeeps(parts: seq<string>, k: nat)
    requires k < |RemoveEmpty(parts)|
    ensures RemoveEmpty(parts)[k] in parts
  {
    if parts != [] {
      if parts[0] == "" {
        RemoveEmptyKeeps(parts[1..], k);
      } else if k > 0 {
        RemoveEmptyKeeps(parts[1..], k - 1);
      }
    }
  }

  // ---------------------------------------------------------------------
  // Numbers

  predicate AllDigits(d: string)
  {
    |d| > 0 && forall i :: 0 <= i < |d| ==> IsDigit(d[i])
  }

  function DigitsValue(d: string): nat
    requires forall i :: 0 <= i < |d| ==> IsDigit(d[i])
  {
    if |d| == 0 then 0
    else
      var last := d[|d| - 1];
      assert IsDigit(last);
      DigitsValue(d[..|d| - 1]) * 10 + (last as int - '0' as int)
  }

  function AsInt32(n: int): (r: Option<Int32>)
  {
    if IntMin <= n <= IntMax then Some(n) else None
  }

  /**
   * `int.TryParse(s, out v)`, which `int.Parse` and `Convert.ChangeType(s,
   * typeof(int))` follow too: surrounding number white space, an optional
   * sign, at least one decimal digit, and a value inside the `int` range.
   * As in .NET, NUL characters may follow everything else.
   */
  function ParseInt(s: string): Option<Int32>
  {
    ParseSigned(TrimBy(TrimEnd(s, IsNul), IsNumberWhite))
  }

  /** An optional sign followed by decimal digits, with nothing around them. */
  function ParseSigned(t: string): Option<Int32>
  {
    if |t| > 0 && (t[0] == '+' || t[0] == '-') then
      if AllDigits(t[1..]) then
        var v: int := DigitsValue(t[1..]);
        AsInt32(if t[0] == '-' then -v else v)
      else None
    else if AllDigits(t) then AsInt32(DigitsValue(t))
    else None
  }

  /** The decimal digits of `n`, most significant first. */
  function NatToString(n: nat): (d: string)
    ensures AllDigits(d)
  {
    var last := [(n % 10 + '0' as int) as char];
    if n < 10 then last else NatToString(n / 10) + last
  }

  /** `n.ToString()`. */
  function IntToString(n: int): string
  {
    if n < 0 then "-" + NatToString(-n) else NatToString(n)
  }

  lemma {:induction false} NatToStringValue(n: nat)
    ensures DigitsValue(NatToString(n)) == n
  {
    var d := NatToString(n);
    if n >= 10 {
      NatToStringValue(n / 10);
      assert d[..|d| - 1] == NatToString(n / 10);
    }
  }

  /** Printing an `int` and parsing it back gives the same `int`. */
  lemma ParseIntToString(n: Int32)
    ensures ParseInt(IntToString(n)) == Some(n)
  {
    var k: int := n;
    var m: nat := if k < 0 then -k else k;
    var d := NatToString(m);
    NatToStringValue(m);
    assert IsDigit(d[0]) && IsDigit(d[|d| - 1]);
    var s := IntToString(n);
    if n < 0 {
      assert s == "-" + d;
      assert s[1..] == d;
      assert s[|s| - 1] == d[|d| - 1];
    } else {
      assert s == d;
    }
    UnpaddedNumber(s);
  }

  /** A string with nothing to trim at either end is parsed as it stands. */
  lemma UnpaddedNumber(s: string)
    requires |s| > 0 && !IsNumberWhite(s[0]) && IsDigit(s[|s| - 1])
    ensures ParseInt(s) == ParseSigned(s)
  {
    TrimEndKeeps(s, IsNul);
    TrimByUnchanged(s, IsNumberWhite);
  }

  lemma TrimStartKeeps(s: string, p: char -> bool)
    requires |s| > 0 && !p(s[0])
    ensures TrimStart(s, p) == s
  {
  }

  lemma TrimEndKeeps(s: string, p: char -> bool)
    requires |s| > 0 && !p(s[|s| - 1])
    ensures TrimEnd(s, p) == s
  {
  }


  /** A string `int.TryParse` accepts reads the same after `Trim()`. */
  lemma ParseIntTrim(s: string)
    requires ParseInt(s).Some?
    ensures ParseInt(Trim(s)) == ParseInt(s)
  {
    var a := TrimStart(s, IsNumberWhite);
    var t := TrimBy(TrimEnd(s, IsNul), IsNumberWhite);
    var e := TrimEnd(a, IsNul);
    assert Trim(s) == TrimEnd(a, IsWhiteSpace) && TrimEnd(e, IsNumberWhite) == t by {
      LeadingNumberWhite(s);
    }
    assert |t| > 0 && IsDigit(t[|t| - 1]) && !IsWhiteSpace(t[|t| - 1]) && !IsNumberWhite(t[0]) by {
      SignedEnds(t);
    }
    assert |e| > 0 && e[0] == t[0] by {
      TrimEndParts(a, t);
    }
    if IsNul(a[|a| - 1]) {
      assert Trim(s) == a by {
        NullIsNoWhiteSpace(a[|a| - 1]);
        TrimEndKeeps(a, IsWhiteSpace);
      }
      assert TrimStart(e, IsNumberWhite) == e by {
        TrimStartKeeps(e, IsNumberWhite);
      }
    } else {
      assert e == a by {
        TrimEndKeeps(a, IsNul);
      }
      assert Trim(s) == t by {
        NumberWhiteIsWhiteSpace();
        TrimEndAbsorb(a, IsNumberWhite, IsWhiteSpace);
        TrimEndKeeps(t, IsWhiteSpace);
      }
      UnpaddedNumber(t);
    }
  }

  /**
   * Of a string `int.TryParse` accepts, `Trim()` strips the same leading
   * white space the parser skips, and the number starts right after it.
   */
  lemma LeadingNumberWhite(s: string)
    requires ParseInt(s).Some?
    ensures var a, t := TrimStart(s, IsNumberWhite), TrimBy(TrimEnd(s, IsNul), IsNumberWhite);
      && TrimEnd(TrimEnd(a, IsNul), IsNumberWhite) == t
      && |a| > 0 && a[0] == t[0]
      && TrimStart(s, IsWhiteSpace) == a
  {
    var a := TrimStart(s, IsNumberWhite);
    var t := TrimBy(TrimEnd(s, IsNul), IsNumberWhite);
    SignedEnds(t);
    TrimStartEndCommute(s, IsNul, IsNumberWhite);
    var e := TrimEnd(a, IsNul);
    assert t == TrimEnd(e, IsNumberWhite);
    assert t == e[..|t|] && e == a[..|e|];
    assert t[0] == e[0] == a[0];
    NumberWhiteIsWhiteSpace();
    TrimStartAbsorb(s, IsNumberWhite, IsWhiteSpace);
    TrimStartKeeps(a, IsWhiteSpace);
  }

  /** What is left of `a` once trailing NULs and number white space are gone starts like `a`. */
  lemma TrimEndParts(a: string, t: string)
    requires TrimEnd(TrimEnd(a, IsNul), IsNumberWhite) == t && |t| > 0
    ensures |a| > 0 && TrimEnd(a, IsNul)[0] == t[0]
  {
    var e := TrimEnd(a, IsNul);
    assert t == e[..|t|];
  }

  /** Trailing NULs are skipped: "5" followed by a NUL reads as 5. */
  lemma TrailingNullAccepted(s: string)
    requires s == "5\0"
    ensures ParseInt(s) == Some(5)
  {
    var five := s[..1];
    assert IsNul(s[1]) && s[..1] == five;
    assert five == IntToString(5);
    TrimEndKeeps(five, IsNul);
    assert TrimEnd(s, IsNul) == five;
    ParseIntToString(5);
  }

  lemma NullIsNoWhiteSpace(c: char)
    requires IsNul(c)
    ensures !IsWhiteSpace(c)
  {
  }

  /** The white space `int.TryParse` skips is white space to `Trim()` too. */
  lemma NumberWhiteIsWhiteSpace()
    ensures forall c :: IsNumberWhite(c) ==> IsWhiteSpace(c)
  {
  }

  /** A signed number neither starts nor ends with white space. */
  lemma SignedEnds(t: string)
    requires ParseSigned(t).Some?
    ensures |t| > 0 && !IsWhiteSpace(t[0]) && !IsWhiteSpace(t[|t| - 1])
    ensures IsDigit(t[|t| - 1])
  {
    if t[0] == '+' || t[0] == '-' {
      var d := t[1..];
      assert AllDigits(d);
      assert t[|t| - 1] == d[|d| - 1];
      assert IsDigit(d[|d| - 1]);
    } else {
      assert AllDigits(t);
      assert IsDigit(t[0]) && IsDigit(t[|t| - 1]);
    }
  }

  /** Only a string of four or five characters, once trimmed, can be a boolean. */
  lemma ParseBoolLength(s: string)
    ensures ParseBool(s).Some? ==> |TrimBy(s, IsWhiteSpaceOrNull)| in {4, 5}
  {
    var t := TrimBy(s, IsWhiteSpaceOrNull);
    assert |Lower(t)| == |t|;
  }

  /** Strings equal up to case have the same length. */
  lemma EqualsIgnoreCaseLength(a: string, b: string)
    ensures EqualsIgnoreCase(a, b) ==> |a| == |b|
  {
    assert |Lower(a)| == |a| && |Lower(b)| == |b|;
  }

  /** `bool.TryParse`: "true" or "false" in any case, with white space and NULs around it. */
  function ParseBool(s: string): Option<bool>
  {
    var t := Lower(TrimBy(s, IsWhiteSpaceOrNull));
    if t == "true" then Some(true)
    else if t == "false" then Some(false)
    else None
  }

  /** `bool.TryParse` reads the same after `Trim()`. */
  lemma ParseBoolTrim(s: string)
    ensures ParseBool(Trim(s)) == ParseBool(s)
  {
    TrimTwice(s, IsWhiteSpace, IsWhiteSpaceOrNull);
  }
}
