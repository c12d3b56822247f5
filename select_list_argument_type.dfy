/** `SelectListArgumentType`: an ordered list of positions into a fixed list of names,
    duplicates allowed, grown by `AddValue` and shrunk by `RemoveValue`. */
module SelectListArguments {
  import opened Errors
  import opened DotNet
  import opened Objects
  import opened ListText
  import opened MultiSelectArguments

  /** The names at the given positions, in list order. */
  function Picked(values: seq<string>, indexes: seq<int>): (r: seq<string>)
    requires forall k :: 0 <= k < |indexes| ==> 0 <= indexes[k] < |values|
    ensures |r| == |indexes| && forall k :: 0 <= k < |indexes| ==> r[k] == values[indexes[k]]
  {
    seq(|indexes|, k requires 0 <= k < |indexes| => values[indexes[k]])
  }

  /** The positions below `n` holding `name`, ascending. */
  function Matches(values: seq<string>, name: string, n: nat): (r: seq<int>)
    requires n <= |values|
    ensures forall k :: 0 <= k < |r| ==> 0 <= r[k] < n && values[r[k]] == name
    ensures name !in values[..n] ==> r == []
  {
    if n == 0 then []
    else Matches(values, name, n - 1) + (if values[n - 1] == name then [n - 1] else [])
  }

  class SelectListArgumentType {
    const maxItemCount: int32
    const enumType: Option<string>
    const values: seq<string>
    var selectedIndexes: seq<int>

    /** The item limit is positive and every listed position points into `values`. */
    ghost predicate Valid()
      reads this
    {
      maxItemCount >= 1 && forall k :: 0 <= k < |selectedIndexes| ==> 0 <= selectedIndexes[k] < |values|
    }

    /** The field assignments the constructors make once the limit is checked. */
    constructor Init(enumType: Option<string>, values: seq<string>, maxItemCount: int32)
      requires maxItemCount >= 1
      ensures this.enumType == enumType && this.values == values && this.maxItemCount == maxItemCount
      ensures selectedIndexes == [] && Valid()
    {
      this.enumType := enumType;
      this.values := values;
      this.maxItemCount := maxItemCount;
      selectedIndexes := [];
    }

    /** The constructor over a list of names: a limit below 1 is an error. */
    static method FromValues(values: seq<string>, maxItemCount: int32) returns (r: Result<SelectListArgumentType>)
      ensures r.Err? <==> maxItemCount < 1
      ensures r.Err? ==> r.error == SettingsBuilderException
      ensures r.Ok? ==> fresh(r.value) && r.value.values == values && r.value.enumType == None
                        && r.value.maxItemCount == maxItemCount && r.value.selectedIndexes == [] && r.value.Valid()
    {
      if maxItemCount < 1 {
        return Err(SettingsBuilderException);
      }
      var a := new SelectListArgumentType.Init(None, values, maxItemCount);
      return Ok(a);
    }

    /** The constructor over an enum type whose member names are `names`. */
    static method FromEnum(enumType: string, names: seq<string>, maxItemCount: int32) returns (r: Result<SelectListArgumentType>)
      ensures r.Err? <==> maxItemCount < 1
      ensures r.Err? ==> r.error == SettingsBuilderException
      ensures r.Ok? ==> fresh(r.value) && r.value.values == names && r.value.enumType == Some(enumType)
                        && r.value.maxItemCount == maxItemCount && r.value.selectedIndexes == [] && r.value.Valid()
    {
      if maxItemCount < 1 {
        return Err(SettingsBuilderException);
      }
      var a := new SelectListArgumentType.Init(Some(enumType), names, maxItemCount);
      return Ok(a);
    }

    /** The picked names printed as a list, in insertion order. */
    method GetValue() returns (r: string)
      requires Valid()
      ensures r == Listed(Picked(values, selectedIndexes))
    {
      var output := "[";
      var items := Picked(values, selectedIndexes);
      for i := 0 to |selectedIndexes|
        invariant output == "[" + Pieces(items, i)
      {
        output := output + values[selectedIndexes[i]] + (if i == |selectedIndexes| - 1 then "" else ", ");
      }
      return output + "]";
    }

    /** For an enum type, the picked members in insertion order, duplicates included. For a
        list of names the `object[]` built is cast to `string[]`, which always fails. */
    method GetParsedValue() returns (r: Result<Obj>)
      requires Valid()
      ensures enumType.None? ==> r == Err(InvalidCast)
      ensures enumType.Some? ==> r == Ok(ObjArray(EnumMembers(enumType.value, Picked(values, selectedIndexes))))
    {
      if enumType.None? {
        return Err(InvalidCast);
      }
      var parsedValues: seq<Obj> := [];
      for i := 0 to |selectedIndexes|
        invariant parsedValues == EnumMembers(enumType.value, Picked(values, selectedIndexes[..i]))
      {
        assert Picked(values, selectedIndexes[..i + 1]) == Picked(values, selectedIndexes[..i]) + [values[selectedIndexes[i]]];
        parsedValues := parsedValues + [EnumObj(enumType.value, values[selectedIndexes[i]])];
      }
      assert selectedIndexes[..|selectedIndexes|] == selectedIndexes;
      return Ok(ObjArray(parsedValues));
    }

    /** Not supported: always an error. */
    method SetValue(s: string) returns (o: Outcome)
      ensures o == Fail(SettingsBuilderException)
    {
      return Fail(SettingsBuilderException);
    }

    /** Not supported: always an error. */
    method SetParsedValue(x: Obj) returns (o: Outcome)
      ensures o == Fail(SettingsBuilderException)
    {
      return Fail(SettingsBuilderException);
    }

    /** `AddValue(string)` as written: the loop runs over the length of the given name (its
        UTF-16 code units, as `string.Length` counts them) rather than over the names,
        appends every matching position it passes, and then raises in every case, an index
        past the names raising first. */
    method AddValueByName(value: string) returns (o: Outcome)
      requires Valid()
      modifies this
      ensures Valid() && o.Fail?
      ensures o.error == if Utf16Length(value) > |values| then IndexOutOfRange else SettingsArgumentException
      ensures selectedIndexes == old(selectedIndexes) + Matches(values, value, if Utf16Length(value) > |values| then |values| else Utf16Length(value))
    {
      var length := Utf16Length(value);
      for i := 0 to length
        invariant i <= |values|
        invariant selectedIndexes == old(selectedIndexes) + Matches(values, value, i)
        invariant Valid()
      {
        if i >= |values| {
          return Fail(IndexOutOfRange);
        }
        if values[i] == value {
          selectedIndexes := selectedIndexes + [i];
        }
      }
      return Fail(SettingsArgumentException);
    }

    /** `AddValue(string)` as evidently intended: the first position holding the name is
        appended, and only an unknown name is an error. */
    method AddValueByNameIntended(value: string) returns (o: Outcome)
      requires Valid()
      modifies this
      ensures Valid()
      ensures o.Pass? <==> value in values
      ensures o.Pass? ==> selectedIndexes == old(selectedIndexes) + [IndexOf(values, value).value]
      ensures o.Fail? ==> o.error == SettingsArgumentException && selectedIndexes == old(selectedIndexes)
    {
      for i := 0 to |values|
        invariant forall k :: 0 <= k < i ==> values[k] != value
        invariant selectedIndexes == old(selectedIndexes)
      {
        if values[i] == value {
          selectedIndexes := selectedIndexes + [i];
          return Pass;
        }
      }
      return Fail(SettingsArgumentException);
    }

    /** Appends position `index` if it lies within the names; the item limit is not consulted. */
    method AddValue(index: int) returns (o: Outcome)
      requires Valid()
      modifies this
      ensures Valid()
      ensures o.Pass? <==> 0 <= index < |values|
      ensures o.Pass? ==> selectedIndexes == old(selectedIndexes) + [index]
      ensures o.Fail? ==> o.error == SettingsArgumentException && selectedIndexes == old(selectedIndexes)
    {
      if index < 0 || index >= |values| {
        return Fail(SettingsArgumentException);
      }
      selectedIndexes := selectedIndexes + [index];
      return Pass;
    }

    /** Removes the entry at list position `index` (`List.RemoveAt`). */
    method RemoveValue(index: int) returns (o: Outcome)
      requires Valid()
      modifies this
      ensures Valid()
      ensures o.Pass? <==> 0 <= index < |old(selectedIndexes)|
      ensures o.Pass? ==> selectedIndexes == old(selectedIndexes[..index] + selectedIndexes[index + 1..])
      ensures o.Fail? ==> o.error == ArgumentOutOfRange && selectedIndexes == old(selectedIndexes)
    {
      if index < 0 || index >= |selectedIndexes| {
        return Fail(ArgumentOutOfRange);
      }
      selectedIndexes := selectedIndexes[..index] + selectedIndexes[index + 1..];
      return Pass;
    }

    /** A new argument over the same names and limit with the positions copied in order. */
    method Clone() returns (c: SelectListArgumentType)
      requires Valid()
      ensures fresh(c) && c.Valid()
      ensures c.values == values && c.enumType == enumType && c.maxItemCount == maxItemCount
      ensures c.selectedIndexes == selectedIndexes
    {
      c := new SelectListArgumentType.Init(enumType, values, maxItemCount);
      for i := 0 to |selectedIndexes|
        invariant c.selectedIndexes == selectedIndexes[..i] && c.Valid()
      {
        c.selectedIndexes := c.selectedIndexes + [selectedIndexes[i]];
      }
      assert selectedIndexes[..|selectedIndexes|] == selectedIndexes;
    }
  }

  /** A name that is present still makes `AddValue(string)` as written fail, after it has
      been appended: for names ["a"], adding "a" appends position 0 and raises. */
  lemma AddByNameFailsAfterAdding()
    ensures Matches(["a"], "a", 1) == [0]
  {
  }

  /** The item limit does not stop `AddValue(int)`: a list with limit 1 can hold two entries. */
  method AddPastLimit(values: seq<string>) returns (count: nat)
    requires |values| > 0
    ensures count == 2
  {
    var r := SelectListArgumentType.FromValues(values, 1);
    var a := r.value;
    var o1 := a.AddValue(0);
    var o2 := a.AddValue(0);
    count := |a.selectedIndexes|;
  }
}
