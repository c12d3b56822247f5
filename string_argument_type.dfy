/** `StringArgumentType`: a nullable text cell whose length stays within inclusive bounds. */
module StringArguments {
  import opened Errors
  import opened DotNet
  import opened Objects
  import Arguments

  class StringArgumentType {
    var value: Option<string>
    const minLength: uint32
    const maxLength: uint32

    /** A stored text has an allowed length, counted in UTF-16 code units as `string.Length` does. */
    ghost predicate Valid()
      reads this
    {
      value.Some? ==> minLength <= Utf16Length(value.value) <= maxLength
    }

    constructor(minLength: uint32, maxLength: uint32)
      ensures this.minLength == minLength && this.maxLength == maxLength && value == None
      ensures Valid()
    {
      this.minLength := minLength;
      this.maxLength := maxLength;
      value := None;
    }

    /** The text itself; setting it again through `ParseString` keeps it. */
    method GetValue() returns (r: Result<string>)
      requires Valid()
      ensures value.None? ==> r == Err(SettingsBuilderException)
      ensures value.Some? ==> r == Ok(value.value)
      ensures r.Ok? ==> Arguments.ParseString(r.value, minLength, maxLength) == r
    {
      if value.None? {
        return Err(SettingsBuilderException);
      }
      return Ok(value.value);
    }

    method GetParsedValue() returns (r: Result<Obj>)
      ensures value.None? ==> r == Err(SettingsBuilderException)
      ensures value.Some? ==> r == Ok(StringObj(value.value))
    {
      if value.None? {
        return Err(SettingsBuilderException);
      }
      return Ok(StringObj(value.value));
    }

    /** Stores exactly what `ParseString` returns; a rejected text leaves the value unchanged. */
    method SetValue(s: string) returns (o: Outcome)
      requires Valid()
      modifies this
      ensures Valid()
      ensures o.Pass? <==> minLength <= Utf16Length(s) <= maxLength
      ensures o.Pass? ==> value == Some(s)
      ensures o.Fail? ==> o == Fail(SettingsArgumentException) && value == old(value)
    {
      var parsed := Arguments.ParseString(s, minLength, maxLength);
      if parsed.Err? {
        return Fail(parsed.error);
      }
      value := Some(parsed.value);
      return Pass;
    }

    /** Accepts a string whose length lies within the bounds. */
    method SetParsedValue(x: Obj) returns (o: Outcome)
      requires Valid()
      modifies this
      ensures Valid()
      ensures o.Pass? <==> x.StringObj? && minLength <= Utf16Length(x.s) <= maxLength
      ensures o.Pass? ==> value == Some(x.s)
      ensures o.Fail? ==> unchanged(this)
      ensures o.Fail? ==> o.error == if x.Null? then NullReference else SettingsArgumentException
    {
      if x.Null? {
        return Fail(NullReference);
      }
      if !x.StringObj? {
        return Fail(SettingsArgumentException);
      }
      if Utf16Length(x.s) < minLength || Utf16Length(x.s) > maxLength {
        return Fail(SettingsArgumentException);
      }
      value := Some(x.s);
      return Pass;
    }

    /** A new argument with the same bounds and text. */
    method Clone() returns (c: StringArgumentType)
      ensures fresh(c) && c.minLength == minLength && c.maxLength == maxLength && c.value == value
    {
      c := new StringArgumentType(minLength, maxLength);
      c.value := value;
    }
  }
}
