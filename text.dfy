/**
 * The pieces of the .NET base library the OBJ and MTL parsers lean on: String.Split on one
 * character (with and without StringSplitOptions.RemoveEmptyEntries), Enumerable.Reverse,
 * int.Parse and float.Parse, taking the current culture to be the invariant one.
 */
module Text {
  import opened Errors

  /**
   * s.Split(sep): the pieces between separators, empty ones included, so there is always one more
   * piece than there are separators.
   */
  function Split(s: string, sep: char): (parts: seq<string>)
    ensures |parts| >= 1
  {
    if |s| == 0 then [""]
    else
      var rest := Split(s[1..], sep);
      if s[0] == sep then [""] + rest else [[s[0]] + rest[0]] + rest[1..]
  }

  /** string.Join(sep, parts): the inverse of Split. */
  function Join(parts: seq<string>, sep: char): string
    requires |parts| >= 1
  {
    if |parts| == 1 then parts[0] else parts[0] + [sep] + Join(parts[1..], sep)
  }

  /** Joining the pieces puts the string back together. */
  lemma {:induction false} SplitJoin(s: string, sep: char)
    ensures Join(Split(s, sep), sep) == s
  {
    if |s| > 0 {
      var rest := Split(s[1..], sep);
      SplitJoin(s[1..], sep);
      assert s == [s[0]] + s[1..];
      if s[0] == sep {
        assert ([""] + rest)[1..] == rest;
      } else if |rest| > 1 {
        var parts := [[s[0]] + rest[0]] + rest[1..];
        assert parts[1..] == rest[1..];
      }
    }
  }

  /** No piece holds the separator. */
  lemma {:induction false} SplitPiecesLackSeparator(s: string, sep: char)
    ensures forall i :: 0 <= i < |Split(s, sep)| ==> sep !in Split(s, sep)[i]
  {
    if |s| > 0 {
      var rest := Split(s[1..], sep);
      SplitPiecesLackSeparator(s[1..], sep);
      if s[0] != sep {
        var parts := [[s[0]] + rest[0]] + rest[1..];
        forall i | 0 <= i < |parts|
          ensures sep !in parts[i]
        {
          if i > 0 {
            assert parts[i] == rest[i];
          }
        }
      }
    }
  }

  /** A string without the separator is a single piece. */
  lemma {:induction false} SplitWithoutSeparator(x: string, sep: char)
    requires sep !in x
    ensures Split(x, sep) == [x]
  {
    if |x| > 0 {
      SplitWithoutSeparator(x[1..], sep);
      assert x == [x[0]] + x[1..];
    }
  }

  /** Splitting x + sep + y, where x holds no separator, gives x first and then the pieces of y. */
  lemma {:induction false} SplitAtFirstSeparator(x: string, sep: char, y: string)
    requires sep !in x
    ensures Split(x + [sep] + y, sep) == [x] + Split(y, sep)
  {
    var s := x + [sep] + y;
    if |x| == 0 {
      assert s[1..] == y;
    } else {
      assert s[1..] == x[1..] + [sep] + y;
      SplitAtFirstSeparator(x[1..], sep, y);
      assert x == [x[0]] + x[1..];
    }
  }

  /** The pieces that are not empty, in order. */
  function RemoveEmpty(parts: seq<string>): (r: seq<string>)
    ensures |r| <= |parts|
    ensures forall i :: 0 <= i < |r| ==> r[i] != "" && r[i] in parts
  {
    if |parts| == 0 then []
    else if parts[0] == "" then RemoveEmpty(parts[1..])
    else [parts[0]] + RemoveEmpty(parts[1..])
  }

  /** s.Split(new char[] { sep }, StringSplitOptions.RemoveEmptyEntries) */
  function SplitRemoveEmpty(s: string, sep: char): seq<string>
  {
    RemoveEmpty(Split(s, sep))
  }

  /** The non-empty pieces never hold the separator, and nothing else is lost. */
  lemma {:induction false} RemoveEmptyKeepsNonEmpty(parts: seq<string>)
    ensures forall p :: p in parts && p != "" ==> p in RemoveEmpty(parts)
  {
    if |parts| > 0 {
      RemoveEmptyKeepsNonEmpty(parts[1..]);
      forall p | p in parts && p != ""
        ensures p in RemoveEmpty(parts)
      {
        if p != parts[0] {
          assert p in parts[1..];
        }
      }
    }
  }

  /** A line of nothing but separators has no tokens once empty entries are removed. */
  lemma OnlySeparatorsGiveNoTokens(s: string, sep: char)
    requires forall i :: 0 <= i < |s| ==> s[i] == sep
    ensures SplitRemoveEmpty(s, sep) == []
  {
    SeparatorsSplitIntoEmptyPieces(s, sep);
    AllEmptyRemoved(Split(s, sep));
  }

  lemma {:induction false} SeparatorsSplitIntoEmptyPieces(s: string, sep: char)
    requires forall i :: 0 <= i < |s| ==> s[i] == sep
    ensures forall i :: 0 <= i < |Split(s, sep)| ==> Split(s, sep)[i] == ""
  {
    if |s| > 0 {
      SeparatorsSplitIntoEmptyPieces(s[1..], sep);
    }
  }

  lemma {:induction false} AllEmptyRemoved(parts: seq<string>)
    requires forall i :: 0 <= i < |parts| ==> parts[i] == ""
    ensures RemoveEmpty(parts) == []
  {
    if |parts| > 0 {
      AllEmptyRemoved(parts[1..]);
    }
  }

  /** tokens.Reverse() */
  function Reverse<T>(s: seq<T>): (r: seq<T>)
    ensures |r| == |s|
    ensures forall i :: 0 <= i < |s| ==> r[i] == s[|s| - 1 - i]
  {
    if |s| == 0 then [] else Reverse(s[1..]) + [s[0]]
  }

  /** tokens.Reverse().Take(tokens.Length - 1): every token but the first, last one first. */
  function AllButFirstReversed(tokens: seq<string>): (r: seq<string>)
    requires |tokens| >= 1
    ensures r == Reverse(tokens[1..])
  {
    Reverse(tokens)[..|tokens| - 1]
  }

  /** tokens[i], or the IndexOutOfRangeException of reading past the end */
  function Token(tokens: seq<string>, i: nat): (r: Result<string>)
    ensures r.Ok? <==> i < |tokens|
    ensures r.Ok? ==> r.value == tokens[i]
    ensures r.Fail? ==> r.error == IndexOutOfRange
  {
    if i < |tokens| then Ok(tokens[i]) else Fail(IndexOutOfRange)
  }

  predicate IsDigit(c: char)
  {
    '0' <= c <= '9'
  }

  predicate AllDigits(s: string)
  {
    forall i :: 0 <= i < |s| ==> IsDigit(s[i])
  }

  /** The white space NumberStyles.AllowLeadingWhite and AllowTrailingWhite skip: U+0009 to U+000D and U+0020. */
  predicate IsWhite(c: char)
  {
    c == ' ' || '\t' <= c <= '\r'
  }

  function TrimStart(s: string): (r: string)
    ensures |r| <= |s|
    ensures |r| > 0 ==> !IsWhite(r[0])
  {
    if |s| > 0 && IsWhite(s[0]) then TrimStart(s[1..]) else s
  }

  function TrimEnd(s: string): (r: string)
    ensures |r| <= |s|
    ensures |r| > 0 ==> !IsWhite(r[|r| - 1])
  {
    if |s| > 0 && IsWhite(s[|s| - 1]) then TrimEnd(s[..|s| - 1]) else s
  }

  function Trim(s: string): string
  {
    TrimEnd(TrimStart(s))
  }

  /** A string with no white space at either end is its own trimmed form. */
  lemma TrimAlreadyTrimmed(s: string)
    requires |s| > 0 ==> !IsWhite(s[0]) && !IsWhite(s[|s| - 1])
    ensures Trim(s) == s
  {
  }

  /** The value of a string of decimal digits, most significant first. */
  function DigitsValue(ds: string): nat
    requires AllDigits(ds)
  {
    if |ds| == 0 then 0 else DigitsValue(ds[..|ds| - 1]) * 10 + (ds[|ds| - 1] as int - '0' as int)
  }

  /** The decimal digits of n, with no leading zero. */
  function Show(n: nat): (s: string)
    ensures |s| > 0 && AllDigits(s)
  {
    var d := ['0' + (n % 10) as char];
    if n < 10 then d else Show(n / 10) + d
  }

  lemma {:induction false} ShowValue(n: nat)
    ensures DigitsValue(Show(n)) == n
  {
    var d := ['0' + (n % 10) as char];
    if n >= 10 {
      ShowValue(n / 10);
      assert Show(n)[..|Show(n)| - 1] == Show(n / 10);
    }
  }

  const Int32Min: int := -0x8000_0000
  const Int32Max: int := 0x7fff_ffff

  /** The sign and the rest of a number once its white space is trimmed. */
  function SignAndBody(s: string): (bool, string)
  {
    var t := Trim(s);
    if |t| > 0 && (t[0] == '-' || t[0] == '+') then (t[0] == '-', t[1..]) else (false, t)
  }

  /**
   * int.Parse(s) (NumberStyles.Integer): optional white space, an optional sign and at least one
   * digit; anything else is a FormatException and a value outside Int32 an OverflowException.
   */
  function ParseInt(s: string): (r: Result<int>)
    ensures r.Ok? ==> Int32Min <= r.value <= Int32Max
    ensures r.Fail? ==> r.error == Format || r.error == Overflow
  {
    var (negative, body) := SignAndBody(s);
    if |body| == 0 || !AllDigits(body) then Fail(Format)
    else
      var v := if negative then -(DigitsValue(body) as int) else DigitsValue(body);
      if v < Int32Min || v > Int32Max then Fail(Overflow) else Ok(v)
  }

  /** int.Parse reads back every non-negative Int32 written in decimal. */
  lemma ParseIntShow(n: nat)
    requires n <= Int32Max
    ensures ParseInt(Show(n)) == Ok(n)
  {
    ShowValue(n);
    TrimAlreadyTrimmed(Show(n));
  }

  /** int.Parse rejects an empty string and a string without digits. */
  lemma ParseIntRejectsNonNumbers(s: string)
    requires forall i :: 0 <= i < |s| ==> !IsDigit(s[i])
    ensures ParseInt(s) == Fail(Format)
  {
    var t := Trim(s);
    TrimIsSubstring(s);
    var (negative, body) := SignAndBody(s);
    if |body| > 0 {
      assert body[0] in t;
    }
  }

  lemma {:induction false} TrimIsSubstring(s: string)
    ensures forall c :: c in Trim(s) ==> c in s
  {
    TrimStartIsSubstring(s);
    TrimEndIsSubstring(TrimStart(s));
  }

  lemma {:induction false} TrimStartIsSubstring(s: string)
    ensures forall c :: c in TrimStart(s) ==> c in s
  {
    if |s| > 0 && IsWhite(s[0]) {
      TrimStartIsSubstring(s[1..]);
    }
  }

  lemma {:induction false} TrimEndIsSubstring(s: string)
    ensures forall c :: c in TrimEnd(s) ==> c in s
  {
    if |s| > 0 && IsWhite(s[|s| - 1]) {
      TrimEndIsSubstring(s[..|s| - 1]);
    }
  }

  /** 10 to the power e, for any integer e. */
  function Pow10(e: int): (p: real)
    ensures p > 0.0
    decreases if e < 0 then -e else e
  {
    if e == 0 then 1.0 else if e > 0 then 10.0 * Pow10(e - 1) else Pow10(e + 1) / 10.0
  }

  /** The index of the first occurrence of c in s. */
  function IndexOf(s: string, c: char): (r: Option<nat>)
    ensures r.None? <==> c !in s
    ensures r.Some? ==> r.value < |s| && s[r.value] == c && c !in s[..r.value]
  {
    if |s| == 0 then None
    else if s[0] == c then Some(0)
    else
      var rest := IndexOf(s[1..], c);
      if rest.None? then None
      else
        assert s[..rest.value + 1] == [s[0]] + s[1..][..rest.value];
        Some(rest.value + 1)
  }

  /** The digits before and after a decimal point, at least one digit in all. */
  function MantissaValue(whole: string, fraction: string): Result<real>
  {
    if |whole| + |fraction| == 0 || !AllDigits(whole) || !AllDigits(fraction) then Fail(Format)
    else Ok(DigitsValue(whole) as real + DigitsValue(fraction) as real / Pow10(|fraction|))
  }

  /** A mantissa: digits with an optional decimal point. */
  function ParseMantissa(m: string): Result<real>
  {
    var point := IndexOf(m, '.');
    if point.None? then MantissaValue(m, "") else MantissaValue(m[..point.value], m[point.value + 1..])
  }

  /** An exponent after e or E: an optional sign and at least one digit. */
  function ParseExponent(x: string): Result<int>
  {
    var body := if |x| > 0 && (x[0] == '-' || x[0] == '+') then x[1..] else x;
    if |body| == 0 || !AllDigits(body) then Fail(Format)
    else Ok(if |x| > 0 && x[0] == '-' then -(DigitsValue(body) as int) else DigitsValue(body))
  }

  /** Where the exponent starts: the first e or E. */
  function ExponentMark(body: string): (r: Option<nat>)
    ensures r.None? <==> 'e' !in body && 'E' !in body
    ensures r.Some? ==> r.value < |body|
  {
    var e := IndexOf(body, 'e');
    var bigE := IndexOf(body, 'E');
    if e.None? then bigE else if bigE.None? then e else if e.value < bigE.value then e else bigE
  }

  /** A number without its sign: a mantissa and an optional exponent. */
  function ParseUnsignedFloat(body: string): Result<real>
  {
    var at := ExponentMark(body);
    var mantissa := if at.None? then body else body[..at.value];
    var m :- ParseMantissa(mantissa);
    var x :- if at.None? then Ok(0) else ParseExponent(body[at.value + 1..]);
    Ok(m * Pow10(x))
  }

  /**
   * float.Parse(s), taking the current culture to be the invariant one: optional white space, an
   * optional sign, digits with an optional decimal point and an optional exponent. Thousands
   * separators and the "Infinity" and "NaN" symbols, which float.Parse also accepts, are read as
   * malformed. The value is the exact decimal, not rounded to single precision.
   */
  function ParseFloat(s: string): Result<real>
  {
    var (negative, body) := SignAndBody(s);
    var v :- ParseUnsignedFloat(body);
    Ok(if negative then -v else v)
  }

  /** Without an exponent the value is the mantissa's. */
  lemma NoExponent(body: string)
    requires 'e' !in body && 'E' !in body
    ensures ParseUnsignedFloat(body) == ParseMantissa(body)
  {
  }

  /** A digit string has neither white space nor a sign, a point or an exponent mark. */
  lemma DigitsAreBare(ds: string)
    requires |ds| > 0 && AllDigits(ds)
    ensures SignAndBody(ds) == (false, ds)
    ensures 'e' !in ds && 'E' !in ds && '.' !in ds
  {
    TrimAlreadyTrimmed(ds);
  }

  /** A whole number in decimal, without sign or white space, reads as that number. */
  lemma UnsignedWhole(n: nat)
    ensures ParseUnsignedFloat(Show(n)) == Ok(n as real)
  {
    ShowValue(n);
    DigitsAreBare(Show(n));
    NoExponent(Show(n));
  }

  /** float.Parse reads a whole number written in decimal as that number. */
  lemma ParseFloatWhole(n: nat)
    ensures ParseFloat(Show(n)) == Ok(n as real)
  {
    ShowValue(n);
    DigitsAreBare(Show(n));
    UnsignedWhole(n);
  }

  /** The first c in x + c + y, when x holds none, is the one after x. */
  lemma IndexOfAfter(x: string, c: char, y: string)
    requires c !in x
    ensures IndexOf(x + [c] + y, c) == Some(|x|)
  {
    var s := x + [c] + y;
    assert s[|x|] == c;
  }

  /** A digit string holds no decimal point. */
  lemma DigitsHaveNoPoint(ds: string)
    requires AllDigits(ds)
    ensures '.' !in ds
  {
  }

  /** The mantissa digits, a point and digits is the whole part plus the fraction. */
  lemma MantissaWithPoint(whole: string, fraction: string)
    requires AllDigits(whole) && AllDigits(fraction) && |whole| + |fraction| > 0
    ensures ParseMantissa(whole + "." + fraction) == MantissaValue(whole, fraction)
  {
    var s := whole + "." + fraction;
    DigitsHaveNoPoint(whole);
    IndexOfAfter(whole, '.', fraction);
    assert s[..|whole|] == whole;
    assert s[|whole| + 1..] == fraction;
  }

  /** float.Parse of digits, a point and digits is the whole part plus the fraction. */
  lemma ParseFloatDecimal(whole: string, fraction: string)
    requires AllDigits(whole) && AllDigits(fraction) && |whole| + |fraction| > 0
    ensures ParseFloat(whole + "." + fraction) ==
            Ok(DigitsValue(whole) as real + DigitsValue(fraction) as real / Pow10(|fraction|))
  {
    var s := whole + "." + fraction;
    DecimalIsBare(whole, fraction);
    NoExponent(s);
    MantissaWithPoint(whole, fraction);
    MantissaValueOfDigits(whole, fraction);
    assert ParseUnsignedFloat(s) == MantissaValue(whole, fraction);
  }

  lemma MantissaValueOfDigits(whole: string, fraction: string)
    requires AllDigits(whole) && AllDigits(fraction) && |whole| + |fraction| > 0
    ensures MantissaValue(whole, fraction) ==
            Ok(DigitsValue(whole) as real + DigitsValue(fraction) as real / Pow10(|fraction|))
  {
  }

  /** Digits, a point and digits: no white space, sign or exponent mark. */
  lemma DecimalIsBare(whole: string, fraction: string)
    requires AllDigits(whole) && AllDigits(fraction) && |whole| + |fraction| > 0
    ensures SignAndBody(whole + "." + fraction) == (false, whole + "." + fraction)
    ensures 'e' !in whole + "." + fraction && 'E' !in whole + "." + fraction
  {
    var s := whole + "." + fraction;
    assert forall i :: 0 <= i < |s| ==> IsDigit(s[i]) || s[i] == '.';
    TrimAlreadyTrimmed(s);
  }

  /** A leading minus sign negates the value. */
  lemma ParseFloatNegative(n: nat)
    ensures ParseFloat("-" + Show(n)) == Ok(-(n as real))
  {
    ShowValue(n);
    var s := "-" + Show(n);
    TrimAlreadyTrimmed(s);
    assert s[1..] == Show(n);
    assert SignAndBody(s) == (true, Show(n));
    UnsignedWhole(n);
  }
}
