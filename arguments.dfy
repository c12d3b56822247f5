/** `Arguments`: the text parsers the scalar argument types use. Each one is the .NET
    parser of the argument's type followed by the argument's own bounds check. */
module Arguments {
  import opened Errors
  import opened DotNet

  /** Whether `value` is a number of the type whose range is [lo, hi] that also lies
      within the argument's bounds [min, max]. */
  predicate Accepts(value: string, lo: int, hi: int, min: int, max: int) {
    ParseNumber(value).Some? && lo <= ParseNumber(value).value <= hi
    && min <= ParseNumber(value).value <= max
  }

  /** The exception a rejected `value` raises: malformed text is a FormatException (the
      parser's, passed on), a number outside the type an OverflowException, and a number
      outside the argument's bounds a SettingsArgumentException. */
  function Rejection(value: string, lo: int, hi: int): Error {
    if ParseNumber(value).None? then FormatException
    else if !(lo <= ParseNumber(value).value <= hi) then OverflowException
    else SettingsArgumentException
  }

  function ParseInteger(value: string, min: int32, max: int32): (r: Result<int32>)
    ensures r.Ok? <==> Accepts(value, INT32_MIN, INT32_MAX, min, max)
    ensures r.Ok? ==> r.value == ParseNumber(value).value
    ensures r.Err? ==> r.error == Rejection(value, INT32_MIN, INT32_MAX)
  {
    var output :- ParseIn(value, INT32_MIN, INT32_MAX);
    if output < min || output > max then Err(SettingsArgumentException) else Ok(output)
  }

  function ParseUInteger(value: string, min: uint32, max: uint32): (r: Result<uint32>)
    ensures r.Ok? <==> Accepts(value, 0, UINT32_MAX, min, max)
    ensures r.Ok? ==> r.value == ParseNumber(value).value
    ensures r.Err? ==> r.error == Rejection(value, 0, UINT32_MAX)
  {
    var output :- ParseIn(value, 0, UINT32_MAX);
    if output < min || output > max then Err(SettingsArgumentException) else Ok(output)
  }

  function ParseLong(value: string, min: int64, max: int64): (r: Result<int64>)
    ensures r.Ok? <==> Accepts(value, INT64_MIN, INT64_MAX, min, max)
    ensures r.Ok? ==> r.value == ParseNumber(value).value
    ensures r.Err? ==> r.error == Rejection(value, INT64_MIN, INT64_MAX)
  {
    var output :- ParseIn(value, INT64_MIN, INT64_MAX);
    if output < min || output > max then Err(SettingsArgumentException) else Ok(output)
  }

  function ParseULong(value: string, min: uint64, max: uint64): (r: Result<uint64>)
    ensures r.Ok? <==> Accepts(value, 0, UINT64_MAX, min, max)
    ensures r.Ok? ==> r.value == ParseNumber(value).value
    ensures r.Err? ==> r.error == Rejection(value, 0, UINT64_MAX)
  {
    var output :- ParseIn(value, 0, UINT64_MAX);
    if output < min || output > max then Err(SettingsArgumentException) else Ok(output)
  }

  /** `ParseString`: the text itself when its length lies within the bounds. The length is
      `string.Length`, the number of UTF-16 code units. Too short is checked before too long;
      both raise the same exception. */
  function ParseString(value: string, minLength: uint32, maxLength: uint32): (r: Result<string>)
    ensures r.Ok? <==> minLength <= Utf16Length(value) <= maxLength
    ensures r.Ok? ==> r.value == value
    ensures r.Err? ==> r.error == SettingsArgumentException
  {
    if Utf16Length(value) < minLength then Err(SettingsArgumentException)
    else if Utf16Length(value) > maxLength then Err(SettingsArgumentException)
    else Ok(value)
  }

  /** A character above U+FFFF counts twice: one such character is too long for a limit of 1,
      while text of ordinary characters is measured by its character count. */
  lemma ParseStringCountsUnits(value: string, minLength: uint32, maxLength: uint32)
    ensures (forall k :: 0 <= k < |value| ==> value[k] as int < 0x1_0000) ==>
      (ParseString(value, minLength, maxLength).Ok? <==> minLength <= |value| <= maxLength)
    ensures ParseString("\U{1F600}", 0, 1) == Err(SettingsArgumentException)
  {
    if forall k :: 0 <= k < |value| ==> value[k] as int < 0x1_0000 {
      Utf16Plain(value);
    }
    assert Utf16("\U{1F600}") == CharUnits('\U{1F600}') + Utf16("");
  }

  /** The integer parsers accept a number followed by a run of U+0000, as the .NET
      parsers do, and refuse one with white space after such a U+0000. */
  lemma ParseTrailingNuls(value: string, k: nat, c: char, min: int32, max: int32)
    requires value == [] || value[|value| - 1] != '\0'
    requires IsNumberWhite(c)
    ensures ParseInteger(value + Nuls(k), min, max) == ParseInteger(value, min, max)
    ensures ParseInteger(value + ['\0', c], min, max) == Err(FormatException)
  {
    NulsIgnored(value, k);
    SameNumber(value + Nuls(k), value, min, max);
    NulThenBlankRejected(value, c);
  }

  /** Texts that denote the same number are parsed alike. */
  lemma SameNumber(a: string, b: string, min: int32, max: int32)
    requires ParseNumber(a) == ParseNumber(b)
    ensures ParseInteger(a, min, max) == ParseInteger(b, min, max)
  {
    assert ParseIn(a, INT32_MIN, INT32_MAX) == ParseIn(b, INT32_MIN, INT32_MAX);
  }

  // ---------------------------------------------------------------- round trips

  /** What an integer argument prints for a value within its bounds parses back to it. */
  lemma ParseIntegerShow(v: int32, min: int32, max: int32)
    requires min <= v <= max
    ensures ParseInteger(Show(v), min, max) == Ok(v)
  {
    ShowParses(v);
  }

  lemma ParseUIntegerShow(v: uint32, min: uint32, max: uint32)
    requires min <= v <= max
    ensures ParseUInteger(Show(v), min, max) == Ok(v)
  {
    ShowParses(v);
  }

  lemma ParseLongShow(v: int64, min: int64, max: int64)
    requires min <= v <= max
    ensures ParseLong(Show(v), min, max) == Ok(v)
  {
    ShowParses(v);
  }

  lemma ParseULongShow(v: uint64, min: uint64, max: uint64)
    requires min <= v <= max
    ensures ParseULong(Show(v), min, max) == Ok(v)
  {
    ShowParses(v);
  }
}
