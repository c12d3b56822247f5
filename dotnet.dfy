/** The parts of the .NET base library that the modelled code relies on: the fixed-width
    integer types, the unchecked `(int)` conversion, `Int32.ToString` and the integer
    `Parse` methods under the default number style, `bool.ToString` and `bool.Parse`, the
    character tests and case mappings of `System.Char`, and the UTF-16 code units a string
    is held as. Letters are classified and case-mapped on ASCII only. */
module DotNet {
  import opened Errors

  const TWO_32: int := 0x1_0000_0000

  type int32 = x: int | -0x8000_0000 <= x < 0x8000_0000
  type uint32 = x: int | 0 <= x < 0x1_0000_0000
  type int64 = x: int | -0x8000_0000_0000_0000 <= x < 0x8000_0000_0000_0000
  type uint64 = x: int | 0 <= x < 0x1_0000_0000_0000_0000
  type byte = x: int | 0 <= x < 256

  const INT32_MIN: int := -0x8000_0000
  const INT32_MAX: int := 0x7fff_ffff
  const UINT32_MAX: int := 0xffff_ffff
  const INT64_MIN: int := -0x8000_0000_0000_0000
  const INT64_MAX: int := 0x7fff_ffff_ffff_ffff
  const UINT64_MAX: int := 0xffff_ffff_ffff_ffff

  /** The unchecked `(int)` conversion: keeps the low 32 bits, read as two's complement. */
  function ToInt32(x: int): (r: int32)
    ensures (r - x) % TWO_32 == 0
    ensures INT32_MIN <= x <= INT32_MAX ==> r == x
  {
    (x + 0x8000_0000) % TWO_32 - 0x8000_0000
  }

  // ---------------------------------------------------------------- characters

  predicate IsDigit(c: char) { '0' <= c <= '9' }

  predicate IsUpper(c: char) { 'A' <= c <= 'Z' }

  predicate IsLower(c: char) { 'a' <= c <= 'z' }

  function ToLower(c: char): (r: char)
    ensures !IsUpper(r)
    ensures IsUpper(c) ==> IsLower(r) && r as int == c as int + 32
    ensures !IsUpper(c) ==> r == c
  {
    if IsUpper(c) then (c as int + 32) as char else c
  }

  function ToUpper(c: char): (r: char)
    ensures !IsLower(r)
    ensures IsLower(c) ==> IsUpper(r) && ToLower(r) == c
    ensures !IsLower(c) ==> r == c
  {
    if IsLower(c) then (c as int - 32) as char else c
  }

  /** Lowering a capital and raising it again gives the capital back. */
  lemma UpperLowerRoundTrip(c: char)
    requires IsUpper(c)
    ensures ToUpper(ToLower(c)) == c
  {
  }

  /** `char.IsWhiteSpace`: the Unicode space, line and paragraph separators, the
      control characters U+0009 to U+000D, U+0085 and U+00A0. */
  predicate IsWhiteSpace(c: char) {
    || c == ' ' || '\t' <= c <= '\r' || c == '\U{0085}' || c == '\U{00A0}' || c == '\U{1680}'
    || '\U{2000}' <= c <= '\U{200A}' || c == '\U{2028}' || c == '\U{2029}' || c == '\U{202F}'
    || c == '\U{205F}' || c == '\U{3000}'
  }

  /** The white space that the integer parsers skip around a number (U+0009 to U+000D, U+0020). */
  predicate IsNumberWhite(c: char) { c == ' ' || '\t' <= c <= '\r' }

  /** The characters that `bool.Parse` trims: white space and U+0000. */
  predicate IsBoolTrimmed(c: char) { IsWhiteSpace(c) || c == '\0' }

  function LowerString(s: string): (r: string)
    ensures |r| == |s| && forall i :: 0 <= i < |s| ==> r[i] == ToLower(s[i])
  {
    if s == [] then [] else [ToLower(s[0])] + LowerString(s[1..])
  }

  // ---------------------------------------------------------------- UTF-16

  /** A .NET `char`: one UTF-16 code unit. A Dafny `char` is a Unicode scalar value, so a
      character above U+FFFF is two .NET `char`s, a high and a low surrogate. */
  type Utf16Unit = u: int | 0 <= u < 0x1_0000

  predicate IsSurrogate(u: int) { 0xD800 <= u < 0xE000 }

  /** The code units of one character; a pair of surrogates decodes back to the character. */
  function CharUnits(c: char): (r: seq<Utf16Unit>)
    ensures c as int < 0x1_0000 ==> r == [c as int]
    ensures c as int >= 0x1_0000 ==> |r| == 2 && 0xD800 <= r[0] < 0xDC00 && 0xDC00 <= r[1] < 0xE000
    ensures c as int >= 0x1_0000 ==> 0x1_0000 + (r[0] as int - 0xD800) * 0x400 + (r[1] as int - 0xDC00) == c as int
  {
    if c as int < 0x1_0000 then [c as int]
    else
      var v := c as int - 0x1_0000;
      [0xD800 + v / 0x400, 0xDC00 + v % 0x400]
  }

  /** `string.Length`: the number of code units, two for each character above U+FFFF. */
  function Utf16Length(s: string): (n: nat)
    ensures |s| <= n <= 2 * |s|
  {
    if s == [] then 0 else (if s[0] as int < 0x1_0000 then 1 else 2) + Utf16Length(s[1..])
  }

  /** A string as .NET holds it: the code units of its characters, in order. */
  function Utf16(s: string): (r: seq<Utf16Unit>)
    ensures |r| == Utf16Length(s)
  {
    if s == [] then [] else CharUnits(s[0]) + Utf16(s[1..])
  }

  /** Below U+10000 a character is its own code unit. */
  lemma {:induction false} Utf16Plain(s: string)
    requires forall k :: 0 <= k < |s| ==> s[k] as int < 0x1_0000
    ensures Utf16Length(s) == |Utf16(s)| == |s|
    ensures forall k :: 0 <= k < |s| ==> Utf16(s)[k] == s[k] as int
  {
    if s != [] {
      Utf16Plain(s[1..]);
      assert Utf16(s) == [s[0] as int] + Utf16(s[1..]);
    }
  }

  lemma {:induction false} Utf16Append(s: string, t: string)
    ensures Utf16(s + t) == Utf16(s) + Utf16(t)
  {
    if s != [] {
      assert (s + t)[1..] == s[1..] + t;
      Utf16Append(s[1..], t);
    } else {
      assert s + t == t;
    }
  }

  /** `char.ToLower` on a code unit: a surrogate is no letter and stays as it is. */
  function UnitToLower(u: Utf16Unit): Utf16Unit {
    if IsSurrogate(u) then u else ToLower(u as char) as int
  }

  /** Lowering a string lowers each of its code units. */
  lemma {:induction false} Utf16Lower(s: string)
    ensures |Utf16(LowerString(s))| == |Utf16(s)|
    ensures forall i :: 0 <= i < |Utf16(s)| ==> Utf16(LowerString(s))[i] == UnitToLower(Utf16(s)[i])
  {
    if s != [] {
      var c := s[0];
      Utf16Lower(s[1..]);
      assert LowerString(s)[1..] == LowerString(s[1..]);
      assert LowerString(s)[0] == ToLower(c);
      var head, low := CharUnits(c), CharUnits(ToLower(c));
      assert |head| == |low| && forall i :: 0 <= i < |head| ==> low[i] == UnitToLower(head[i]);
    }
  }

  // ---------------------------------------------------------------- trimming

  /** The character sets the parsers trim; `NulBlank` is the run of U+0000 that
      `NumberStyles.Integer` lets follow a number. */
  datatype Blank = NumberBlank | BoolBlank | NulBlank {
    predicate Has(c: char) {
      match this
      case NumberBlank => IsNumberWhite(c)
      case BoolBlank => IsBoolTrimmed(c)
      case NulBlank => c == '\0'
    }
  }

  function TrimStart(s: string, white: Blank): (r: string)
    ensures |r| <= |s| && r == s[|s| - |r|..]
    ensures r != [] ==> !white.Has(r[0])
  {
    if s != [] && white.Has(s[0]) then TrimStart(s[1..], white) else s
  }

  function TrimEnd(s: string, white: Blank): (r: string)
    ensures |r| <= |s| && r == s[..|r|]
    ensures r != [] ==> !white.Has(r[|r| - 1])
  {
    if s != [] && white.Has(s[|s| - 1]) then TrimEnd(s[..|s| - 1], white) else s
  }

  function Trim(s: string, white: Blank): string {
    TrimEnd(TrimStart(s, white), white)
  }

  lemma TrimEndUntouched(s: string, white: Blank)
    requires s != [] && !white.Has(s[|s| - 1])
    ensures TrimEnd(s, white) == s
  {
  }

  lemma TrimUntouched(s: string, white: Blank)
    requires s != [] && !white.Has(s[0]) && !white.Has(s[|s| - 1])
    ensures Trim(s, white) == s
  {
  }

  // ---------------------------------------------------------------- integers as text

  function DigitChar(d: int): (c: char)
    requires 0 <= d < 10
    ensures IsDigit(c)
  {
    ('0' as int + d) as char
  }

  function DigitValue(c: char): (d: int)
    requires IsDigit(c)
    ensures 0 <= d < 10 && DigitChar(d) == c
  {
    c as int - '0' as int
  }

  predicate AllDigits(s: string) {
    forall i :: 0 <= i < |s| ==> IsDigit(s[i])
  }

  /** The decimal digits of `n`, most significant first, without leading zeros. */
  function ShowNat(n: nat): (s: string)
    ensures |s| > 0 && AllDigits(s)
    ensures |s| > 1 ==> s[0] != '0'
    decreases n
  {
    if n < 10 then [DigitChar(n)] else ShowNat(n / 10) + [DigitChar(n % 10)]
  }

  /** `Int32.ToString()` (and the same for the wider types): a '-' before the digits of a negative number. */
  function Show(n: int): string {
    if n < 0 then "-" + ShowNat(-n) else ShowNat(n)
  }

  /** The value of a run of decimal digits read most significant first. */
  function DigitsValue(s: string): nat
    requires AllDigits(s)
  {
    if s == [] then 0 else DigitsValue(s[..|s| - 1]) * 10 + DigitValue(s[|s| - 1])
  }

  /** The number a string denotes under `NumberStyles.Integer`: surrounding white space,
      an optional sign and at least one decimal digit, and after all of these any run of
      U+0000 at the very end; `None` when the text is malformed. */
  function ParseNumber(s: string): Option<int> {
    NumberOf(Trim(TrimEnd(s, NulBlank), NumberBlank))
  }

  /** The number an already trimmed text denotes: an optional sign and decimal digits. */
  function NumberOf(t: string): Option<int> {
    if t == [] then None
    else
      var body := if t[0] == '-' || t[0] == '+' then t[1..] else t;
      if body != [] && AllDigits(body) then
        var magnitude: int := DigitsValue(body);
        Some(if t[0] == '-' then -magnitude else magnitude)
      else None
  }

  /** `int.Parse`, `uint.Parse`, `long.Parse` and `ulong.Parse`, the type's range being
      [lo, hi]: malformed text is a FormatException, a number outside the range an
      OverflowException. */
  function ParseIn(s: string, lo: int, hi: int): (r: Result<int>)
    ensures r.Ok? <==> ParseNumber(s).Some? && lo <= ParseNumber(s).value <= hi
    ensures r.Ok? ==> r.value == ParseNumber(s).value
    ensures r.Err? ==> r.error == (if ParseNumber(s).None? then FormatException else OverflowException)
  {
    match ParseNumber(s)
    case None => Err(FormatException)
    case Some(v) => if lo <= v <= hi then Ok(v) else Err(OverflowException)
  }

  lemma {:induction false} ShowNatValue(n: nat)
    ensures DigitsValue(ShowNat(n)) == n
    decreases n
  {
    if n >= 10 {
      var s := ShowNat(n);
      assert s[..|s| - 1] == ShowNat(n / 10);
      ShowNatValue(n / 10);
    }
  }

  /** A bare run of digits parses to its value. */
  lemma DigitsParse(s: string)
    requires s != [] && AllDigits(s)
    ensures ParseNumber(s) == Some(DigitsValue(s) as int)
  {
    assert IsDigit(s[0]) && IsDigit(s[|s| - 1]);
    TrimEndUntouched(s, NulBlank);
    TrimUntouched(s, NumberBlank);
  }

  /** A run of digits after a minus sign parses to the negated value. */
  lemma NegatedDigitsParse(s: string)
    requires s != [] && AllDigits(s)
    ensures ParseNumber("-" + s) == Some(-(DigitsValue(s) as int))
  {
    var t := "-" + s;
    assert t[0] == '-' && t[1..] == s;
    assert !NumberBlank.Has(t[|t| - 1]) by {
      assert t[|t| - 1] == s[|s| - 1];
      assert IsDigit(s[|s| - 1]);
    }
    TrimEndUntouched(t, NulBlank);
    TrimUntouched(t, NumberBlank);
  }

  /** `k` copies of U+0000. */
  function Nuls(k: nat): (r: string)
    ensures |r| == k && forall i :: 0 <= i < k ==> r[i] == '\0'
  {
    seq(k, _ => '\0')
  }

  /** A run of U+0000 at the very end of the text changes nothing: the text before it
      parses to the same number, or fails alike. */
  lemma NulsIgnored(t: string, k: nat)
    requires t == [] || t[|t| - 1] != '\0'
    ensures ParseNumber(t + Nuls(k)) == ParseNumber(t)
  {
    TrimEndNuls(t, k);
    if t != [] {
      TrimEndUntouched(t, NulBlank);
    }
  }

  lemma {:induction false} TrimEndNuls(t: string, k: nat)
    requires t == [] || t[|t| - 1] != '\0'
    ensures TrimEnd(t + Nuls(k), NulBlank) == TrimEnd(t, NulBlank)
  {
    if k > 0 {
      var u := t + Nuls(k);
      assert u[|u| - 1] == '\0';
      assert u[..|u| - 1] == t + Nuls(k - 1);
      TrimEndNuls(t, k - 1);
    } else {
      assert t + Nuls(k) == t;
    }
  }

  /** Nothing may follow that run: a U+0000 followed by white space is malformed text. */
  lemma NulThenBlankRejected(t: string, c: char)
    requires IsNumberWhite(c)
    ensures ParseNumber(t + ['\0', c]) == None
  {
    var x := t + ['\0', c];
    assert TrimEnd(x, NulBlank) == x by {
      assert x[|x| - 1] == c;
      TrimEndUntouched(x, NulBlank);
    }
    var y := TrimStart(x, NumberBlank);
    assert |y| >= 2 by {
      assert x[|x| - 2] == '\0';
      TrimStartStops(x, |x| - 2, NumberBlank);
    }
    var z := y[..|y| - 1];
    assert Trim(x, NumberBlank) == z by {
      assert y[|y| - 1] == x[|x| - 1] == c;
      assert z[|z| - 1] == x[|x| - 2] == '\0';
      TrimEndUntouched(z, NumberBlank);
    }
    assert NumberOf(z) == None by {
      assert z[|z| - 1] == x[|x| - 2];
      EndsInNulMalformed(z);
    }
  }

  lemma EndsInNulMalformed(z: string)
    requires z != [] && z[|z| - 1] == '\0'
    ensures NumberOf(z) == None
  {
    var body := if z[0] == '-' || z[0] == '+' then z[1..] else z;
    if body != [] {
      assert body[|body| - 1] == '\0';
    }
  }

  /** Trimming the start stops at the first character outside the set. */
  lemma {:induction false} TrimStartStops(s: string, i: nat, white: Blank)
    requires i < |s| && !white.Has(s[i])
    ensures |TrimStart(s, white)| >= |s| - i
    decreases i
  {
    if i > 0 && white.Has(s[0]) {
      assert s[1..][i - 1] == s[i];
      TrimStartStops(s[1..], i - 1, white);
    } else {
      assert !white.Has(s[0]);
    }
  }

  /** Parsing what `ToString` printed gives the number back. */
  lemma ShowParses(n: int)
    ensures ParseNumber(Show(n)) == Some(n)
  {
    if n < 0 {
      NegativeShowParses(n);
    } else {
      NaturalShowParses(n);
    }
  }

  lemma NegativeShowParses(n: int)
    requires n < 0
    ensures ParseNumber("-" + ShowNat(-n)) == Some(n)
  {
    var digits := ShowNat(-n);
    var v := DigitsValue(digits);
    assert v == -n by { ShowNatValue(-n); }
    assert ParseNumber("-" + digits) == Some(-(v as int)) by { NegatedDigitsParse(digits); }
  }

  lemma NaturalShowParses(n: nat)
    ensures ParseNumber(ShowNat(n)) == Some(n)
  {
    DigitsParse(ShowNat(n));
    ShowNatValue(n);
  }

  lemma ShowParsesIn(n: int, lo: int, hi: int)
    requires lo <= n <= hi
    ensures ParseIn(Show(n), lo, hi) == Ok(n)
  {
    ShowParses(n);
  }

  // ---------------------------------------------------------------- booleans as text

  /** `bool.ToString()`. */
  function BoolToString(b: bool): string {
    if b then "True" else "False"
  }

  /** `bool.Parse`: after trimming white space and U+0000, "true" or "false" in any letter case. */
  function ParseBool(s: string): (r: Result<bool>)
    ensures r.Err? ==> r.error == FormatException
  {
    var t := LowerString(Trim(s, BoolBlank));
    if t == "true" then Ok(true)
    else if t == "false" then Ok(false)
    else Err(FormatException)
  }

  lemma BoolToStringParses(b: bool)
    ensures ParseBool(BoolToString(b)) == Ok(b)
  {
    var s := BoolToString(b);
    var t := if b then "true" else "false";
    assert !BoolBlank.Has(s[0]) && !BoolBlank.Has(s[|s| - 1]);
    TrimUntouched(s, BoolBlank);
    LowerWord(s, t);
  }

  /** `LowerString` of a word spelled like `t` with its first letter raised. */
  lemma LowerWord(s: string, t: string)
    requires |s| == |t| > 0 && IsUpper(s[0]) && s[0] as int == t[0] as int - 32
    requires forall i :: 1 <= i < |s| ==> IsLower(s[i]) && s[i] == t[i]
    ensures LowerString(s) == t
  {
    assert forall i :: 0 <= i < |s| ==> LowerString(s)[i] == t[i];
  }

  // ---------------------------------------------------------------- arrays and strings

  /** `Array.IndexOf`: the first position holding `x`, `None` when no element equals it. */
  function IndexOf<T(==)>(s: seq<T>, x: T): (r: Option<nat>)
    ensures r.Some? ==> r.value < |s| && s[r.value] == x && forall k :: 0 <= k < r.value ==> s[k] != x
    ensures r.None? <==> x !in s
    decreases |s|
  {
    if s == [] then None
    else if s[0] == x then Some(0)
    else match IndexOf(s[1..], x)
      case None => None
      case Some(i) => Some(i + 1)
  }

  /** `string.Replace(c, "")`: `s` with every occurrence of `c` dropped. */
  function Without(s: string, c: char): (r: string)
    ensures c !in r && |r| <= |s|
    ensures c !in s ==> r == s
    decreases |s|
  {
    if s == [] then []
    else if s[0] == c then Without(s[1..], c)
    else [s[0]] + Without(s[1..], c)
  }

  /** `string.Split(sep)`: the pieces between separators, empty pieces included, so there is
      always one piece more than there are separators. */
  function Split(s: string, sep: char): (r: seq<string>)
    ensures |r| >= 1
    ensures forall i :: 0 <= i < |r| ==> sep !in r[i]
    decreases |s|
  {
    if s == [] then [""]
    else
      var rest := Split(s[1..], sep);
      if s[0] == sep then [""] + rest else [[s[0]] + rest[0]] + rest[1..]
  }

  /** `string.Join(sep, parts)`. */
  function Join(parts: seq<string>, sep: string): (r: string)
    ensures |parts| == 1 ==> r == parts[0]
    ensures |parts| == 0 ==> r == ""
    decreases |parts|
  {
    if |parts| == 0 then ""
    else if |parts| == 1 then parts[0]
    else parts[0] + sep + Join(parts[1..], sep)
  }

  /** Splitting and joining with the same separator gives the text back. */
  lemma {:induction false} SplitJoin(s: string, sep: char)
    ensures Join(Split(s, sep), [sep]) == s
    decreases |s|
  {
    if s != [] {
      var rest := Split(s[1..], sep);
      SplitJoin(s[1..], sep);
      if s[0] == sep {
        assert Split(s, sep) == [""] + rest;
        assert ([""] + rest)[1..] == rest;
      } else {
        var parts := Split(s, sep);
        assert parts == [[s[0]] + rest[0]] + rest[1..];
        if |rest| > 1 {
          assert parts[1..] == rest[1..];
          assert Join(rest, [sep]) == rest[0] + [sep] + Join(rest[1..], [sep]);
        }
      }
    }
  }

  /** Splitting at a separator that follows a separator-free piece gives that piece first. */
  lemma {:induction false} SplitAfter(a: string, b: string, sep: char)
    requires sep !in a
    ensures Split(a + [sep] + b, sep) == [a] + Split(b, sep)
    decreases |a|
  {
    var s := a + [sep] + b;
    if a == [] {
      assert s[1..] == b;
    } else {
      assert s[1..] == a[1..] + [sep] + b;
      SplitAfter(a[1..], b, sep);
      assert [a[0]] + a[1..] == a;
    }
  }

  /** A piece without the separator splits into itself. */
  lemma {:induction false} SplitWhole(a: string, sep: char)
    requires sep !in a
    ensures Split(a, sep) == [a]
    decreases |a|
  {
    if a != [] {
      SplitWhole(a[1..], sep);
      assert [a[0]] + a[1..] == a;
    }
  }

  /** Joining separator-free pieces and splitting the text again gives the pieces back. */
  lemma {:induction false} JoinSplit(parts: seq<string>, sep: char)
    requires |parts| >= 1 && forall k :: 0 <= k < |parts| ==> sep !in parts[k]
    ensures Split(Join(parts, [sep]), sep) == parts
    decreases |parts|
  {
    if |parts| == 1 {
      SplitWhole(parts[0], sep);
    } else {
      JoinSplit(parts[1..], sep);
      SplitAfter(parts[0], Join(parts[1..], [sep]), sep);
      assert [parts[0]] + parts[1..] == parts;
    }
  }

  /** Joining one more piece puts a separator and the piece at the end. */
  lemma {:induction false} JoinSnoc(parts: seq<string>, x: string, sep: string)
    ensures Join(parts + [x], sep) == if parts == [] then x else Join(parts, sep) + sep + x
    decreases |parts|
  {
    if |parts| > 1 {
      assert (parts + [x])[1..] == parts[1..] + [x];
      JoinSnoc(parts[1..], x, sep);
    } else if |parts| == 1 {
      assert (parts + [x])[1..] == [x];
    }
  }

  // ---------------------------------------------------------------- random numbers

  /** `System.Random`, seen only through what it promises: `Next(lo, hi)` is some number from
      `lo` up to but excluding `hi`, and `lo` itself when the range is empty. */
  class Random {
    constructor() {}

    method Next(lo: int, hi: int) returns (r: int)
      requires lo <= hi
      ensures lo <= r && (r < hi || r == lo)
    {
      r :| lo <= r && (r < hi || r == lo);
    }
  }
}
