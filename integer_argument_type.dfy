/** `IntegerArgumentType` and `UnsignedIntegerArgumentType`: a nullable 32-bit cell that
    only ever holds a value within the argument's inclusive bounds. */
module IntegerArguments {
  import opened Errors
  import opened DotNet
  import opened Objects
  import Arguments

  class IntegerArgumentType {
    var value: Option<int32>
    const min: int32
    const max: int32

    /** A stored value lies within the bounds. */
    ghost predicate Valid()
      reads this
    {
      value.Some? ==> min <= value.value <= max
    }

    constructor(min: int32, max: int32)
      ensures this.min == min && this.max == max && value == None
      ensures Valid()
    {
      this.min := min;
      this.max := max;
      value := None;
    }

    /** The value as text; reading it back with `ParseInteger` gives the value again. */
    method GetValue() returns (r: Result<string>)
      ensures value.None? ==> r == Err(SettingsBuilderException)
      ensures value.Some? ==> r == Ok(Show(value.value))
    {
      if value.None? {
        return Err(SettingsBuilderException);
      }
      return Ok(Show(value.value));
    }

    method GetParsedValue() returns (r: Result<Obj>)
      ensures value.None? ==> r == Err(SettingsBuilderException)
      ensures value.Some? ==> r == Ok(IntObj(value.value))
    {
      if value.None? {
        return Err(SettingsBuilderException);
      }
      return Ok(IntObj(value.value));
    }

    /** Stores what `ParseInteger` returns; on an exception the old value stays. */
    method SetValue(s: string) returns (o: Outcome)
      requires Valid()
      modifies this
      ensures Valid()
      ensures match Arguments.ParseInteger(s, min, max)
              case Ok(v) => o == Pass && value == Some(v)
              case Err(e) => o == Fail(e) && value == old(value)
    {
      var parsed := Arguments.ParseInteger(s, min, max);
      if parsed.Err? {
        return Fail(parsed.error);
      }
      value := Some(parsed.value);
      return Pass;
    }

    /** Accepts only an `int` within the bounds; anything else leaves the value unchanged. */
    method SetParsedValue(x: Obj) returns (o: Outcome)
      requires Valid()
      modifies this
      ensures Valid()
      ensures o.Pass? <==> x.IntObj? && min <= x.i <= max
      ensures o.Pass? ==> value == Some(x.i)
      ensures o.Fail? ==> unchanged(this)
      ensures o.Fail? ==> o.error == if x.Null? then NullReference else SettingsArgumentException
    {
      if x.Null? {
        return Fail(NullReference);
      }
      if !x.IntObj? {
        return Fail(SettingsArgumentException);
      }
      if x.i < min || x.i > max {
        return Fail(SettingsArgumentException);
      }
      value := Some(x.i);
      return Pass;
    }

    /** A member-wise copy. */
    method Clone() returns (c: IntegerArgumentType)
      ensures fresh(c) && c.min == min && c.max == max && c.value == value
    {
      c := new IntegerArgumentType(min, max);
      c.value := value;
    }
  }

  class UnsignedIntegerArgumentType {
    var value: Option<uint32>
    const min: uint32
    const max: uint32

    ghost predicate Valid()
      reads this
    {
      value.Some? ==> min <= value.value <= max
    }

    constructor(min: uint32, max: uint32)
      ensures this.min == min && this.max == max && value == None
      ensures Valid()
    {
      this.min := min;
      this.max := max;
      value := None;
    }

    /** The value is cast to `int` before it is printed, so the text denotes the value
        wrapped into the signed 32-bit range: negative from 2^31 on. */
    method GetValue() returns (r: Result<string>)
      ensures value.None? ==> r == Err(SettingsBuilderException)
      ensures value.Some? ==> r == Ok(Show(ToInt32(value.value)))
    {
      if value.None? {
        return Err(SettingsBuilderException);
      }
      return Ok(Show(ToInt32(value.value)));
    }

    /** `GetValue` printing the value itself rather than its `int` cast: the text reads back
        through `ParseUInteger` as the stored value. */
    method GetValueIntended() returns (r: Result<string>)
      requires Valid()
      ensures value.None? ==> r == Err(SettingsBuilderException)
      ensures value.Some? ==> r.Ok? && Arguments.ParseUInteger(r.value, min, max) == Ok(value.value)
    {
      if value.None? {
        return Err(SettingsBuilderException);
      }
      Arguments.ParseUIntegerShow(value.value, min, max);
      return Ok(Show(value.value));
    }

    method GetParsedValue() returns (r: Result<Obj>)
      ensures value.None? ==> r == Err(SettingsBuilderException)
      ensures value.Some? ==> r == Ok(UIntObj(value.value))
    {
      if value.None? {
        return Err(SettingsBuilderException);
      }
      return Ok(UIntObj(value.value));
    }

    method SetValue(s: string) returns (o: Outcome)
      requires Valid()
      modifies this
      ensures Valid()
      ensures match Arguments.ParseUInteger(s, min, max)
              case Ok(v) => o == Pass && value == Some(v)
              case Err(e) => o == Fail(e) && value == old(value)
    {
      var parsed := Arguments.ParseUInteger(s, min, max);
      if parsed.Err? {
        return Fail(parsed.error);
      }
      value := Some(parsed.value);
      return Pass;
    }

    method SetParsedValue(x: Obj) returns (o: Outcome)
      requires Valid()
      modifies this
      ensures Valid()
      ensures o.Pass? <==> x.UIntObj? && min <= x.u <= max
      ensures o.Pass? ==> value == Some(x.u)
      ensures o.Fail? ==> unchanged(this)
      ensures o.Fail? ==> o.error == if x.Null? then NullReference else SettingsArgumentException
    {
      if x.Null? {
        return Fail(NullReference);
      }
      if !x.UIntObj? {
        return Fail(SettingsArgumentException);
      }
      if x.u < min || x.u > max {
        return Fail(SettingsArgumentException);
      }
      value := Some(x.u);
      return Pass;
    }

    method Clone() returns (c: UnsignedIntegerArgumentType)
      ensures fresh(c) && c.min == min && c.max == max && c.value == value
    {
      c := new UnsignedIntegerArgumentType(min, max);
      c.value := value;
    }
  }

  /** After a successful `SetParsedValue(v)`, `GetParsedValue` returns `v`. */
  method SetThenGet(arg: IntegerArgumentType, v: int32) returns (r: Result<Obj>)
    requires arg.Valid() && arg.min <= v <= arg.max
    modifies arg
    ensures r == Ok(IntObj(v))
  {
    var o := arg.SetParsedValue(IntObj(v));
    r := arg.GetParsedValue();
  }

  /** An unsigned value from 2^31 on is printed as a negative number, which the unsigned
    parser rejects: 3000000000 is printed as -1294967296. */
  lemma UnsignedTextRejected(v: uint32, min: uint32, max: uint32)
    requires v > INT32_MAX
    ensures ToInt32(v) == v - TWO_32 < 0
    ensures Arguments.ParseUInteger(Show(ToInt32(v)), min, max) == Err(OverflowException)
  {
    var n := ToInt32(v);
    assert (v + 0x8000_0000) % TWO_32 == v + 0x8000_0000 - TWO_32;
    assert n == v - TWO_32;
    ShowParses(n);
    var r := Arguments.ParseUInteger(Show(n), min, max);
    assert !Arguments.Accepts(Show(n), 0, UINT32_MAX, min, max);
    assert Arguments.Rejection(Show(n), 0, UINT32_MAX) == OverflowException;
  }
}
