/** `SingleSelectArgumentType`: a choice of one name out of a fixed list, kept as an index
    that is unset until something is selected. */
module SingleSelectArguments {
  import opened Errors
  import opened DotNet
  import opened Objects

  class SingleSelectArgumentType {
    /** The enum type the names come from, `None` for a plain list of names. */
    const enumType: Option<string>
    const values: seq<string>
    var selectedIndex: Option<nat>

    /** A selected index points into `values`. */
    ghost predicate Valid()
      reads this
    {
      selectedIndex.Some? ==> selectedIndex.value < |values|
    }

    /** The constructor over a list of names. */
    constructor FromValues(values: seq<string>)
      ensures this.values == values && enumType == None && selectedIndex == None
      ensures Valid()
    {
      this.values := values;
      enumType := None;
      selectedIndex := None;
    }

    /** The constructor over an enum type; `names` are the type's member names in
        declaration order, which `Enum.GetNames` supplies. */
    constructor FromEnum(enumType: string, names: seq<string>)
      ensures values == names && this.enumType == Some(enumType) && selectedIndex == None
      ensures Valid()
    {
      values := names;
      this.enumType := Some(enumType);
      selectedIndex := None;
    }

    /** A name as `GetParsedValue` hands it out: the name itself, or the enum member. */
    function AsObj(name: string): (r: Obj)
      ensures enumType.None? <==> r.StringObj?
      ensures r.StringObj? ==> r.s == name
      ensures r.EnumObj? ==> r == EnumObj(enumType.value, name)
    {
      if enumType.None? then StringObj(name) else EnumObj(enumType.value, name)
    }

    /** The selected name; an empty list or no selection is an error. */
    method GetValue() returns (r: Result<string>)
      requires Valid()
      ensures r.Ok? <==> |values| > 0 && selectedIndex.Some?
      ensures r.Ok? ==> r.value == values[selectedIndex.value]
      ensures r.Err? ==> r.error == SettingsBuilderException
    {
      if |values| == 0 {
        return Err(SettingsBuilderException);
      }
      if selectedIndex.None? {
        return Err(SettingsBuilderException);
      }
      return Ok(values[selectedIndex.value]);
    }

    method GetParsedValue() returns (r: Result<Obj>)
      requires Valid()
      ensures r.Ok? <==> |values| > 0 && selectedIndex.Some?
      ensures r.Ok? ==> r.value == AsObj(values[selectedIndex.value])
      ensures r.Err? ==> r.error == SettingsBuilderException
    {
      if |values| == 0 {
        return Err(SettingsBuilderException);
      }
      if selectedIndex.None? {
        return Err(SettingsBuilderException);
      }
      return Ok(AsObj(values[selectedIndex.value]));
    }

    /** Selects the first position holding `s`; an unknown name is an error that leaves
        the selection as it was. */
    method SetValue(s: string) returns (o: Outcome)
      requires Valid()
      modifies this
      ensures Valid()
      ensures o.Pass? <==> s in values
      ensures o.Pass? ==> selectedIndex == IndexOf(values, s)
      ensures o.Fail? ==> o.error == SettingsArgumentException && unchanged(this)
    {
      if |values| == 0 {
        return Fail(SettingsArgumentException);
      }
      for i := 0 to |values|
        invariant forall k :: 0 <= k < i ==> values[k] != s
        invariant unchanged(this)
      {
        if s == values[i] {
          selectedIndex := Some(i);
          return Pass;
        }
      }
      return Fail(SettingsArgumentException);
    }

    /** A member of this argument's enum type selects its name; anything else must be a
        string and selects that. */
    method SetParsedValue(x: Obj) returns (o: Outcome)
      requires Valid()
      modifies this
      ensures Valid()
      ensures x.Null? ==> o == Fail(NullReference)
      ensures !x.Null? && !(x.EnumObj? && enumType == Some(x.enumType)) && !x.StringObj? ==> o == Fail(InvalidCast)
      ensures x.EnumObj? && enumType == Some(x.enumType) ==> (o.Pass? <==> x.name in values)
      ensures x.StringObj? ==> (o.Pass? <==> x.s in values)
      ensures o.Pass? ==> selectedIndex == IndexOf(values, if x.EnumObj? then x.name else x.s)
      ensures o.Fail? && ((x.EnumObj? && enumType == Some(x.enumType)) || x.StringObj?) ==>
                o.error == SettingsArgumentException
      ensures o.Fail? ==> unchanged(this)
    {
      if x.Null? {
        return Fail(NullReference);
      }
      if x.EnumObj? && enumType == Some(x.enumType) {
        o := SetValue(x.name);
        return;
      }
      if !x.StringObj? {
        return Fail(InvalidCast);
      }
      o := SetValue(x.s);
    }

    /** Selects position `index`, which must lie within the list. */
    method SetIndex(index: int) returns (o: Outcome)
      requires Valid()
      modifies this
      ensures Valid()
      ensures o.Pass? <==> 0 <= index < |values|
      ensures o.Pass? ==> selectedIndex == Some(index)
      ensures o.Fail? ==> o.error == SettingsArgumentException && selectedIndex == old(selectedIndex)
    {
      if index < 0 || index >= |values| {
        return Fail(SettingsArgumentException);
      }
      selectedIndex := Some(index);
      return Pass;
    }

    method GetIndex() returns (r: Option<nat>)
      ensures r == selectedIndex
    {
      return selectedIndex;
    }

    /** A new argument over the same names with the same selection; an empty list is an error. */
    method Clone() returns (r: Result<SingleSelectArgumentType>)
      requires Valid()
      ensures r.Err? <==> |values| == 0
      ensures r.Err? ==> r.error == SettingsArgumentException
      ensures r.Ok? ==> fresh(r.value) && r.value.values == values && r.value.enumType == enumType
                        && r.value.selectedIndex == selectedIndex && r.value.Valid()
    {
      if |values| == 0 {
        return Err(SettingsArgumentException);
      }
      var clone: SingleSelectArgumentType;
      if enumType.None? {
        clone := new SingleSelectArgumentType.FromValues(values);
      } else {
        clone := new SingleSelectArgumentType.FromEnum(enumType.value, values);
      }
      clone.selectedIndex := selectedIndex;
      return Ok(clone);
    }
  }

  /** Nothing is selected at first, so reading the value is an error. */
  method ReadFresh(values: seq<string>) returns (r: Result<string>)
    ensures r == Err(SettingsBuilderException)
  {
    var arg := new SingleSelectArgumentType.FromValues(values);
    r := arg.GetValue();
  }

  /** After `SetIndex(i)` succeeds, `GetIndex` is `i` and `GetValue` is `values[i]`. */
  method SelectThenRead(arg: SingleSelectArgumentType, i: int) returns (index: Option<nat>, r: Result<string>)
    requires arg.Valid() && 0 <= i < |arg.values|
    modifies arg
    ensures index == Some(i) && r == Ok(arg.values[i])
  {
    var o := arg.SetIndex(i);
    index := arg.GetIndex();
    r := arg.GetValue();
  }
}
