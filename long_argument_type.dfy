/** `LongArgumentType` and `UnsignedLongArgumentType`: a nullable 64-bit cell that only
    ever holds a value within the argument's inclusive bounds. */
module LongArguments {
  import opened Errors
  import opened DotNet
  import opened Objects
  import Arguments

  class LongArgumentType {
    var value: Option<int64>
    const min: int64
    const max: int64

    /** A stored value lies within the bounds. */
    ghost predicate Valid()
      reads this
    {
      value.Some? ==> min <= value.value <= max
    }

    constructor(min: int64, max: int64)
      ensures this.min == min && this.max == max && value == None
      ensures Valid()
    {
      this.min := min;
      this.max := max;
      value := None;
    }

    /** The value is cast to `int` before it is printed, so the text denotes the value
        wrapped into the signed 32-bit range. */
    method GetValue() returns (r: Result<string>)
      ensures value.None? ==> r == Err(SettingsBuilderException)
      ensures value.Some? ==> r == Ok(Show(ToInt32(value.value)))
    {
      if value.None? {
        return Err(SettingsBuilderException);
      }
      return Ok(Show(ToInt32(value.value)));
    }

    /** `GetValue` printing the value itself rather than its `int` cast: the text reads back
        through `ParseLong` as the stored value. */
    method GetValueIntended() returns (r: Result<string>)
      requires Valid()
      ensures value.None? ==> r == Err(SettingsBuilderException)
      ensures value.Some? ==> r.Ok? && Arguments.ParseLong(r.value, min, max) == Ok(value.value)
    {
      if value.None? {
        return Err(SettingsBuilderException);
      }
      Arguments.ParseLongShow(value.value, min, max);
      return Ok(Show(value.value));
    }

    method GetParsedValue() returns (r: Result<Obj>)
      ensures value.None? ==> r == Err(SettingsBuilderException)
      ensures value.Some? ==> r == Ok(LongObj(value.value))
    {
      if value.None? {
        return Err(SettingsBuilderException);
      }
      return Ok(LongObj(value.value));
    }

    /** Stores what `ParseLong` returns; on an exception the old value stays. */
    method SetValue(s: string) returns (o: Outcome)
      requires Valid()
      modifies this
      ensures Valid()
      ensures match Arguments.ParseLong(s, min, max)
              case Ok(v) => o == Pass && value == Some(v)
              case Err(e) => o == Fail(e) && value == old(value)
    {
      var parsed := Arguments.ParseLong(s, min, max);
      if parsed.Err? {
        return Fail(parsed.error);
      }
      value := Some(parsed.value);
      return Pass;
    }

    /** Accepts only a `long` within the bounds; anything else leaves the value unchanged. */
    method SetParsedValue(x: Obj) returns (o: Outcome)
      requires Valid()
      modifies this
      ensures Valid()
      ensures o.Pass? <==> x.LongObj? && min <= x.l <= max
      ensures o.Pass? ==> value == Some(x.l)
      ensures o.Fail? ==> unchanged(this)
      ensures o.Fail? ==> o.error == if x.Null? then NullReference else SettingsArgumentException
    {
      if x.Null? {
        return Fail(NullReference);
      }
      if !x.LongObj? {
        return Fail(SettingsArgumentException);
      }
      if x.l < min || x.l > max {
        return Fail(SettingsArgumentException);
      }
      value := Some(x.l);
      return Pass;
    }

    /** A new argument with the same bounds and value. */
    method Clone() returns (c: LongArgumentType)
      ensures fresh(c) && c.min == min && c.max == max && c.value == value
    {
      c := new LongArgumentType(min, max);
      c.value := value;
    }
  }

  class UnsignedLongArgumentType {
    var value: Option<uint64>
    const min: uint64
    const max: uint64

    ghost predicate Valid()
      reads this
    {
      value.Some? ==> min <= value.value <= max
    }

    constructor(min: uint64, max: uint64)
      ensures this.min == min && this.max == max && value == None
      ensures Valid()
    {
      this.min := min;
      this.max := max;
      value := None;
    }

    /** Printed through an `int` cast, like the signed long. */
    method GetValue() returns (r: Result<string>)
      ensures value.None? ==> r == Err(SettingsBuilderException)
      ensures value.Some? ==> r == Ok(Show(ToInt32(value.value)))
    {
      if value.None? {
        return Err(SettingsBuilderException);
      }
      return Ok(Show(ToInt32(value.value)));
    }

    /** `GetValue` printing the value itself rather than its `int` cast: the text reads back
        through `ParseULong` as the stored value. */
    method GetValueIntended() returns (r: Result<string>)
      requires Valid()
      ensures value.None? ==> r == Err(SettingsBuilderException)
      ensures value.Some? ==> r.Ok? && Arguments.ParseULong(r.value, min, max) == Ok(value.value)
    {
      if value.None? {
        return Err(SettingsBuilderException);
      }
      Arguments.ParseULongShow(value.value, min, max);
      return Ok(Show(value.value));
    }

    method GetParsedValue() returns (r: Result<Obj>)
      ensures value.None? ==> r == Err(SettingsBuilderException)
      ensures value.Some? ==> r == Ok(ULongObj(value.value))
    {
      if value.None? {
        return Err(SettingsBuilderException);
      }
      return Ok(ULongObj(value.value));
    }

    method SetValue(s: string) returns (o: Outcome)
      requires Valid()
      modifies this
      ensures Valid()
      ensures match Arguments.ParseULong(s, min, max)
              case Ok(v) => o == Pass && value == Some(v)
              case Err(e) => o == Fail(e) && value == old(value)
    {
      var parsed := Arguments.ParseULong(s, min, max);
      if parsed.Err? {
        return Fail(parsed.error);
      }
      value := Some(parsed.value);
      return Pass;
    }

    method SetParsedValue(x: Obj) returns (o: Outcome)
      requires Valid()
      modifies this
      ensures Valid()
      ensures o.Pass? <==> x.ULongObj? && min <= x.ul <= max
      ensures o.Pass? ==> value == Some(x.ul)
      ensures o.Fail? ==> unchanged(this)
      ensures o.Fail? ==> o.error == if x.Null? then NullReference else SettingsArgumentException
    {
      if x.Null? {
        return Fail(NullReference);
      }
      if !x.ULongObj? {
        return Fail(SettingsArgumentException);
      }
      if x.ul < min || x.ul > max {
        return Fail(SettingsArgumentException);
      }
      value := Some(x.ul);
      return Pass;
    }

    method Clone() returns (c: UnsignedLongArgumentType)
      ensures fresh(c) && c.min == min && c.max == max && c.value == value
    {
      c := new UnsignedLongArgumentType(min, max);
      c.value := value;
    }
  }

  /** A long outside the 32-bit range does not survive being printed and parsed back:
      4294967296 is printed as "0". */
  lemma LongTextWraps(v: int64, min: int64, max: int64)
    requires !(INT32_MIN <= v <= INT32_MAX)
    ensures ToInt32(v) != v
    ensures Arguments.ParseLong(Show(ToInt32(v)), min, max) != Ok(v)
    ensures Show(ToInt32(0x1_0000_0000)) == "0"
  {
    ShowParses(ToInt32(v));
  }

  /** After a successful `SetParsedValue(v)`, `GetParsedValue` returns `v`. */
  method SetThenGet(arg: LongArgumentType, v: int64) returns (r: Result<Obj>)
    requires arg.Valid() && arg.min <= v <= arg.max
    modifies arg
    ensures r == Ok(LongObj(v))
  {
    var o := arg.SetParsedValue(LongObj(v));
    r := arg.GetParsedValue();
  }
}
