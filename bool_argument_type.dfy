/** `BoolArgumentType`: a nullable boolean cell. */
module BoolArguments {
  import opened Errors
  import opened DotNet
  import opened Objects

  class BoolArgumentType {
    var value: Option<bool>

    constructor()
      ensures value == None
    {
      value := None;
    }

    /** "True" or "False", which `bool.Parse` reads back to the value. */
    method GetValue() returns (r: Result<string>)
      ensures value.None? ==> r == Err(SettingsBuilderException)
      ensures value.Some? ==> r == Ok(BoolToString(value.value))
    {
      if value.None? {
        return Err(SettingsBuilderException);
      }
      return Ok(BoolToString(value.value));
    }

    method GetParsedValue() returns (r: Result<Obj>)
      ensures value.None? ==> r == Err(SettingsBuilderException)
      ensures value.Some? ==> r == Ok(BoolObj(value.value))
    {
      if value.None? {
        return Err(SettingsBuilderException);
      }
      return Ok(BoolObj(value.value));
    }

    /** Stores what `bool.Parse` returns; malformed text leaves the value unchanged. */
    method SetValue(s: string) returns (o: Outcome)
      modifies this
      ensures match DotNet.ParseBool(s)
              case Ok(b) => o == Pass && value == Some(b)
              case Err(e) => o == Fail(e) && value == old(value)
    {
      var parsed := DotNet.ParseBool(s);
      if parsed.Err? {
        return Fail(parsed.error);
      }
      value := Some(parsed.value);
      return Pass;
    }

    /** Accepts any `bool` and nothing else. */
    method SetParsedValue(x: Obj) returns (o: Outcome)
      modifies this
      ensures o.Pass? <==> x.BoolObj?
      ensures o.Pass? ==> value == Some(x.b)
      ensures o.Fail? ==> unchanged(this)
      ensures o.Fail? ==> o.error == if x.Null? then NullReference else SettingsArgumentException
    {
      if x.Null? {
        return Fail(NullReference);
      }
      if !x.BoolObj? {
        return Fail(SettingsArgumentException);
      }
      value := Some(x.b);
      return Pass;
    }

    method Clone() returns (c: BoolArgumentType)
      ensures fresh(c) && c.value == value
    {
      c := new BoolArgumentType();
      c.value := value;
    }
  }

  /** After `SetParsedValue(b)`, `GetParsedValue` returns `b`. */
  method SetThenGet(arg: BoolArgumentType, b: bool) returns (r: Result<Obj>)
    modifies arg
    ensures r == Ok(BoolObj(b))
  {
    var o := arg.SetParsedValue(BoolObj(b));
    r := arg.GetParsedValue();
  }
}
