/** `MultiSelectArgumentType`: any subset of a fixed list of names, kept as one flag per
    name in a `bool` array that is changed in place. */
module MultiSelectArguments {
  import opened Errors
  import opened DotNet
  import opened Objects
  import opened ListText

  /** The names whose flag is set, in list order. */
  function Chosen(values: seq<string>, flags: seq<bool>): (r: seq<string>)
    requires |flags| == |values|
    ensures |r| <= |values|
    decreases |values|
  {
    if values == [] then []
    else
      Chosen(values[..|values| - 1], flags[..|flags| - 1])
      + (if flags[|flags| - 1] then [values[|values| - 1]] else [])
  }

  /** Flag `i` flipped. */
  function Toggled(flags: seq<bool>, i: nat): (r: seq<bool>)
    requires i < |flags|
    ensures |r| == |flags| && r[i] == !flags[i]
    ensures forall k :: 0 <= k < |flags| && k != i ==> r[k] == flags[k]
  {
    flags[i := !flags[i]]
  }

  /** Enum members of type `t` for the given names. */
  function EnumMembers(t: string, names: seq<string>): (r: seq<Obj>)
    ensures |r| == |names| && forall k :: 0 <= k < |names| ==> r[k] == EnumObj(t, names[k])
  {
    seq(|names|, k requires 0 <= k < |names| => EnumObj(t, names[k]))
  }

  class MultiSelectArgumentType {
    const enumType: Option<string>
    const values: seq<string>
    const selected: array<bool>

    /** One flag per name. */
    ghost predicate Valid()
      reads this
    {
      selected.Length == |values|
    }

    /** The constructor over a list of names: every flag starts cleared. */
    constructor FromValues(values: seq<string>)
      ensures this.values == values && enumType == None && fresh(selected)
      ensures selected[..] == seq(|values|, _ => false)
      ensures Valid()
    {
      this.values := values;
      enumType := None;
      selected := new bool[|values|](_ => false);
    }

    /** The constructor over an enum type whose member names are `names`. */
    constructor FromEnum(enumType: string, names: seq<string>)
      ensures values == names && this.enumType == Some(enumType) && fresh(selected)
      ensures selected[..] == seq(|names|, _ => false)
      ensures Valid()
    {
      values := names;
      this.enumType := Some(enumType);
      selected := new bool[|names|](_ => false);
    }

    /** The selected names in list order: as strings for a list of names, as enum members
        for an enum type. */
    method GetParsedValue() returns (r: Obj)
      requires Valid()
      ensures enumType.None? ==> r == StringArray(Chosen(values, selected[..]))
      ensures enumType.Some? ==> r == ObjArray(EnumMembers(enumType.value, Chosen(values, selected[..])))
    {
      var selectedValues: seq<string> := [];
      for i := 0 to |values|
        invariant selectedValues == Chosen(values[..i], selected[..i])
      {
        assert values[..i + 1][..i] == values[..i] && selected[..i + 1][..i] == selected[..i];
        if selected[i] {
          selectedValues := selectedValues + [values[i]];
        }
      }
      assert values[..|values|] == values && selected[..selected.Length] == selected[..];
      if enumType.None? {
        return StringArray(selectedValues);
      }
      var enumValues: seq<Obj> := [];
      for i := 0 to |selectedValues|
        invariant enumValues == EnumMembers(enumType.value, selectedValues[..i])
      {
        enumValues := enumValues + [EnumObj(enumType.value, selectedValues[i])];
      }
      assert selectedValues[..|selectedValues|] == selectedValues;
      return ObjArray(enumValues);
    }

    /** The selected names printed as a list. The parsed value is cast to `string[]`, which
        fails for an enum type, whose parsed value is an `object[]`. */
    method GetValue() returns (r: Result<string>)
      requires Valid()
      ensures enumType.None? ==> r == Ok(Listed(Chosen(values, selected[..])))
      ensures enumType.Some? ==> r == Err(InvalidCast)
    {
      var parsed := GetParsedValue();
      if !parsed.StringArray? {
        return Err(InvalidCast);
      }
      var selectedValues := parsed.strings;
      var output := "[";
      for i := 0 to |selectedValues|
        invariant output == "[" + Pieces(selectedValues, i)
      {
        output := output + Piece(selectedValues, i);
      }
      return Ok(output + "]");
    }

    /** Not supported: always an error. */
    method SetValue(s: string) returns (o: Outcome)
      ensures o == Fail(SettingsBuilderException)
    {
      return Fail(SettingsBuilderException);
    }

    /** Not supported: always an error. */
    method SetParsedValue(x: Obj) returns (o: Outcome)
      ensures o == Fail(SettingsBuilderException)
    {
      return Fail(SettingsBuilderException);
    }

    /** Sets the flag of the first position holding `name`; an unknown name changes nothing
        (the source only logs a warning). */
    method SetValueByName(name: string, state: bool)
      requires Valid()
      modifies selected
      ensures IndexOf(values, name).Some? ==> selected[..] == old(selected[..])[IndexOf(values, name).value := state]
      ensures IndexOf(values, name).None? ==> selected[..] == old(selected[..])
    {
      for i := 0 to |values|
        invariant forall k :: 0 <= k < i ==> values[k] != name
        invariant selected[..] == old(selected[..])
      {
        if values[i] != name {
          continue;
        }
        selected[i] := state;
        return;
      }
    }

    /** Sets flag `index`, which must lie within the list. */
    method SetValueAt(index: int, state: bool) returns (o: Outcome)
      requires Valid()
      modifies selected
      ensures o.Pass? <==> 0 <= index < |values|
      ensures o.Pass? ==> selected[..] == old(selected[..])[index := state]
      ensures o.Fail? ==> o.error == SettingsArgumentException && selected[..] == old(selected[..])
    {
      if index < 0 || index >= |values| {
        return Fail(SettingsArgumentException);
      }
      selected[index] := state;
      return Pass;
    }

    method SelectValueByName(name: string)
      requires Valid()
      modifies selected
      ensures IndexOf(values, name).Some? ==> selected[..] == old(selected[..])[IndexOf(values, name).value := true]
      ensures IndexOf(values, name).None? ==> selected[..] == old(selected[..])
    {
      for i := 0 to |values|
        invariant forall k :: 0 <= k < i ==> values[k] != name
        invariant selected[..] == old(selected[..])
      {
        if values[i] != name {
          continue;
        }
        selected[i] := true;
        return;
      }
    }

    method SelectValueAt(index: int) returns (o: Outcome)
      requires Valid()
      modifies selected
      ensures o.Pass? <==> 0 <= index < |values|
      ensures o.Pass? ==> selected[..] == old(selected[..])[index := true]
      ensures o.Fail? ==> o.error == SettingsArgumentException && selected[..] == old(selected[..])
    {
      if index < 0 || index >= |values| {
        return Fail(SettingsArgumentException);
      }
      selected[index] := true;
      return Pass;
    }

    method DeselectValueByName(name: string)
      requires Valid()
      modifies selected
      ensures IndexOf(values, name).Some? ==> selected[..] == old(selected[..])[IndexOf(values, name).value := false]
      ensures IndexOf(values, name).None? ==> selected[..] == old(selected[..])
    {
      for i := 0 to |values|
        invariant forall k :: 0 <= k < i ==> values[k] != name
        invariant selected[..] == old(selected[..])
      {
        if values[i] != name {
          continue;
        }
        selected[i] := false;
        return;
      }
    }

    method DeselectValueAt(index: int) returns (o: Outcome)
      requires Valid()
      modifies selected
      ensures o.Pass? <==> 0 <= index < |values|
      ensures o.Pass? ==> selected[..] == old(selected[..])[index := false]
      ensures o.Fail? ==> o.error == SettingsArgumentException && selected[..] == old(selected[..])
    {
      if index < 0 || index >= |values| {
        return Fail(SettingsArgumentException);
      }
      selected[index] := false;
      return Pass;
    }

    method ToggleValueByName(name: string)
      requires Valid()
      modifies selected
      ensures IndexOf(values, name).Some? ==> selected[..] == Toggled(old(selected[..]), IndexOf(values, name).value)
      ensures IndexOf(values, name).None? ==> selected[..] == old(selected[..])
    {
      for i := 0 to |values|
        invariant forall k :: 0 <= k < i ==> values[k] != name
        invariant selected[..] == old(selected[..])
      {
        if values[i] != name {
          continue;
        }
        selected[i] := !selected[i];
        return;
      }
    }

    method ToggleValueAt(index: int) returns (o: Outcome)
      requires Valid()
      modifies selected
      ensures o.Pass? <==> 0 <= index < |values|
      ensures o.Pass? ==> selected[..] == Toggled(old(selected[..]), index)
      ensures o.Fail? ==> o.error == SettingsArgumentException && selected[..] == old(selected[..])
    {
      if index < 0 || index >= |values| {
        return Fail(SettingsArgumentException);
      }
      selected[index] := !selected[index];
      return Pass;
    }

    /** A new argument over the same names with every flag copied into its own array. */
    method Clone() returns (c: MultiSelectArgumentType)
      requires Valid()
      ensures fresh(c) && fresh(c.selected) && c.Valid()
      ensures c.values == values && c.enumType == enumType && c.selected[..] == selected[..]
    {
      if enumType.None? {
        c := new MultiSelectArgumentType.FromValues(values);
      } else {
        c := new MultiSelectArgumentType.FromEnum(enumType.value, values);
      }
      for i := 0 to selected.Length
        invariant c.selected[..i] == selected[..i]
        invariant c.selected.Length == selected.Length
      {
        c.selected[i] := selected[i];
      }
    }
  }

  // ---------------------------------------------------------------- properties

  /** Toggling the same flag twice restores every flag. */
  lemma ToggleTwice(flags: seq<bool>, i: nat)
    requires i < |flags|
    ensures Toggled(Toggled(flags, i), i) == flags
  {
    assert forall k :: 0 <= k < |flags| ==> Toggled(Toggled(flags, i), i)[k] == flags[k];
  }

  /** With no flag set nothing is chosen. */
  lemma {:induction false} NothingChosen(values: seq<string>)
    ensures Chosen(values, seq(|values|, _ => false)) == []
    decreases |values|
  {
    if values != [] {
      var front := values[..|values| - 1];
      assert seq(|values|, _ => false)[..|values| - 1] == seq(|front|, _ => false);
      NothingChosen(front);
    }
  }

  /** With every flag set, every name is chosen, in list order. */
  lemma {:induction false} EverythingChosen(values: seq<string>)
    ensures Chosen(values, seq(|values|, _ => true)) == values
    decreases |values|
  {
    if values != [] {
      var front := values[..|values| - 1];
      assert seq(|values|, _ => true)[..|values| - 1] == seq(|front|, _ => true);
      EverythingChosen(front);
    }
  }

  /** A name is chosen exactly when some position holding it has its flag set. */
  lemma {:induction false} ChosenMembers(values: seq<string>, flags: seq<bool>, name: string)
    requires |flags| == |values|
    ensures name in Chosen(values, flags) <==> exists k :: 0 <= k < |values| && values[k] == name && flags[k]
    decreases |values|
  {
    if values != [] {
      var n := |values| - 1;
      ChosenMembers(values[..n], flags[..n], name);
      if name in Chosen(values, flags) && !(name in Chosen(values[..n], flags[..n])) {
        assert values[n] == name && flags[n];
      }
      if exists k :: 0 <= k < |values| && values[k] == name && flags[k] {
        var k :| 0 <= k < |values| && values[k] == name && flags[k];
        if k < n {
          assert values[..n][k] == name && flags[..n][k];
        }
      }
    }
  }

  /** A new argument reads back as an empty selection. */
  method ReadFresh(values: seq<string>) returns (r: Obj)
    ensures r == StringArray([])
  {
    var arg := new MultiSelectArgumentType.FromValues(values);
    NothingChosen(values);
    r := arg.GetParsedValue();
  }
}
