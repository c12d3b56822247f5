/** `Context`: the named arguments a settings node or group reads and writes, a dictionary
    from names to argument objects kept in the order the names were added. */
module Contexts {
  import opened Errors
  import opened Tables
  import opened ArgumentTypes

  /** A name with the argument object it stands for. */
  type Entry = (string, ArgRef)

  /** Adding `items` one at a time to `t`, as the bulk `Add`s do: the first name already
      present ends it with a ContextException, and the pairs added before it stay. */
  function Added(t: seq<Entry>, items: seq<Entry>): (seq<Entry>, Outcome)
    decreases |items|
  {
    if items == [] then (t, Pass)
    else match TryAdd(t, items[0].0, items[0].1)
      case None => (t, Fail(ContextException))
      case Some(u) => Added(u, items[1..])
  }

  /** Bulk adding appends a prefix of the items and keeps the names distinct. */
  lemma {:induction false} AddedPrefix(t: seq<Entry>, items: seq<Entry>)
    requires IsTable(t)
    ensures IsTable(Added(t, items).0)
    ensures |t| <= |Added(t, items).0| <= |t| + |items|
    ensures Added(t, items).0 == t + items[..|Added(t, items).0| - |t|]
    decreases |items|
  {
    if items != [] {
      var key := items[0].0;
      if key !in Keys(t) {
        var t' := t + [items[0]];
        TryAddFound(t, key, items[0].1, key);
        AddedPrefix(t', items[1..]);
        var u := Added(t', items[1..]).0;
        assert items[..|u| - |t|] == [items[0]] + items[1..][..|u| - |t'|];
      }
    }
  }

  /** Bulk adding gets through all the items, or stops at one whose name is already there
      with a ContextException. */
  lemma {:induction false} AddedStops(t: seq<Entry>, items: seq<Entry>)
    requires IsTable(t)
    ensures |t| <= |Added(t, items).0| <= |t| + |items|
    ensures Added(t, items).1.Pass? <==> |Added(t, items).0| == |t| + |items|
    ensures Added(t, items).1.Fail? ==>
              Added(t, items).1.error == ContextException
              && items[|Added(t, items).0| - |t|].0 in Keys(Added(t, items).0)
    decreases |items|
  {
    if items != [] {
      var key := items[0].0;
      if key !in Keys(t) {
        TryAddFound(t, key, items[0].1, key);
        AddedStops(t + [items[0]], items[1..]);
      }
    }
  }

  /** Bulk adding gets through every item exactly when the names of the context and of the
      items together are all different. */
  lemma {:induction false} AddedPasses(t: seq<Entry>, items: seq<Entry>)
    requires IsTable(t)
    ensures Added(t, items).1.Pass? <==> IsTable(t + items)
    decreases |items|
  {
    if items == [] {
      assert t + items == t;
    } else {
      var key := items[0].0;
      var t' := t + [items[0]];
      assert t + items == t' + items[1..];
      KeysAppend(t, key, items[0].1);
      if key in Keys(t) {
        var i :| 0 <= i < |t| && Keys(t)[i] == key;
        assert Keys(t + items)[i] == Keys(t + items)[|t|];
      } else {
        TryAddFound(t, key, items[0].1, key);
        AddedPasses(t', items[1..]);
      }
    }
  }

  /** Added to an empty context, the items all go in exactly when their names differ. */
  lemma AddedFromEmpty(items: seq<Entry>)
    ensures Added([], items).1.Pass? <==> IsTable(items)
    ensures Added([], items).1.Pass? ==> Added([], items).0 == items
    ensures Added([], items).1.Fail? ==> Added([], items).1.error == ContextException
  {
    AddedPrefix([], items);
    AddedStops([], items);
    AddedPasses([], items);
    assert [] + items == items;
  }

  /** The argument objects the pairs refer to. */
  function Targets(es: seq<Entry>): set<object> {
    set k | 0 <= k < |es| :: es[k].1.Target()
  }

  /** The argument under `key`, or the SettingsBuilderException of a missing name. */
  function Lookup(es: seq<Entry>, key: string): (r: Result<ArgRef>)
    ensures r.Ok? <==> key in Keys(es)
    ensures r.Ok? ==> exists k :: 0 <= k < |es| && es[k] == (key, r.value)
    ensures r.Ok? ==> r.value.Target() in Targets(es)
    ensures r.Err? ==> r.error == SettingsBuilderException
  {
    match Find(es, key)
    case Some(a) => Ok(a)
    case None => Err(SettingsBuilderException)
  }

  /** Every argument object of the pairs keeps its class invariant. */
  ghost predicate AllValid(es: seq<Entry>)
    reads Targets(es)
  {
    forall k :: 0 <= k < |es| ==> es[k].1.Valid()
  }

  class Context {
    var arguments: seq<Entry>

    /** Each name is there at most once, as in a dictionary. */
    ghost predicate Valid()
      reads this
    {
      IsTable(arguments)
    }

    /** `new Context()` with no arguments. */
    constructor Empty()
      ensures arguments == [] && Valid()
    {
      arguments := [];
    }

    /** `new Context(arguments)` and `Context.New(arguments)`: a repeated name makes the
        constructor throw, so no context comes out of it. */
    static method New(items: seq<Entry>) returns (r: Result<Context>)
      ensures r.Err? <==> !IsTable(items)
      ensures r.Err? ==> r.error == ContextException
      ensures r.Ok? ==> fresh(r.value) && r.value.Valid() && r.value.arguments == items
    {
      var c := new Context.Empty();
      var o := c.AddAll(items);
      AddedFromEmpty(items);
      if o.Fail? {
        return Err(o.error);
      }
      return Ok(c);
    }

    /** The string indexer: the argument under `key`, a SettingsBuilderException when
        there is none. */
    function Get(key: string): (r: Result<ArgRef>)
      reads this
      ensures r.Ok? <==> key in Keys(arguments)
      ensures r.Ok? ==> exists k :: 0 <= k < |arguments| && arguments[k] == (key, r.value)
      ensures r.Err? ==> r.error == SettingsBuilderException
    {
      Lookup(arguments, key)
    }

    function Length(): nat
      reads this
    {
      |arguments|
    }

    /** `GetAtIndex`: the pair added `index`-th. An index from `Length` on is a
        ContextException; a negative one passes that check and `ElementAt` rejects it. */
    function GetAtIndex(index: int): (r: Result<Entry>)
      reads this
      ensures r.Ok? <==> 0 <= index < Length()
      ensures r.Ok? ==> r.value == arguments[index]
      ensures r.Err? ==> r.error == if index >= Length() then ContextException else ArgumentOutOfRange
    {
      if index >= Length() then Err(ContextException)
      else if index < 0 then Err(ArgumentOutOfRange)
      else Ok(arguments[index])
    }

    /** The integer indexer. */
    function At(index: int): (r: Result<ArgRef>)
      reads this
      ensures r.Ok? <==> 0 <= index < Length()
      ensures r.Ok? ==> r.value == arguments[index].1
    {
      match GetAtIndex(index)
      case Ok(e) => Ok(e.1)
      case Err(e) => Err(e)
    }

    /** `Add(name, argument)`: a name already there is a ContextException and changes
        nothing; otherwise the pair goes at the end and is found under its name, and every
        other name finds what it found before. */
    method Add(name: string, argument: ArgRef) returns (o: Outcome)
      requires Valid()
      modifies this
      ensures Valid()
      ensures name in Keys(old(arguments)) ==> o == Fail(ContextException) && arguments == old(arguments)
      ensures name !in Keys(old(arguments)) ==> o == Pass && arguments == old(arguments) + [(name, argument)]
      ensures o.Pass? ==> Get(name) == Ok(argument)
      ensures forall other :: other != name ==> Get(other) == old(Get(other))
    {
      var added := TryAdd(arguments, name, argument);
      if added.None? {
        return Fail(ContextException);
      }
      forall other {
        TryAddFound(arguments, name, argument, other);
      }
      arguments := added.value;
      return Pass;
    }

    /** `Add` of an array of pairs: see `Added`. */
    method AddAll(items: seq<Entry>) returns (o: Outcome)
      requires Valid()
      modifies this
      ensures Valid()
      ensures (arguments, o) == Added(old(arguments), items)
    {
      for i := 0 to |items|
        invariant Valid()
        invariant Added(arguments, items[i..]) == Added(old(arguments), items)
      {
        assert items[i..][1..] == items[i + 1..];
        o := Add(items[i].0, items[i].1);
        if o.Fail? {
          return;
        }
      }
      assert items[|items|..] == [];
      return Pass;
    }

    /** `Add` of another context: its pairs in its order, as `AddAll` adds them. Adding a
        context to itself stops at once, at its first name. */
    method AddContext(context: Context) returns (o: Outcome)
      requires Valid()
      modifies this
      ensures Valid()
      ensures (arguments, o) == Added(old(arguments), old(context.arguments))
    {
      o := AddAll(context.arguments);
    }

    /** A new context with the same names bound to the same argument objects, in the
        same order. */
    method Clone() returns (c: Context)
      requires Valid()
      ensures fresh(c) && c.Valid() && c.arguments == arguments
    {
      c := new Context.Empty();
      for i := 0 to |arguments|
        invariant c.Valid() && c.arguments == arguments[..i]
      {
        assert arguments[i].0 !in Keys(c.arguments);
        var o := c.Add(arguments[i].0, arguments[i].1);
        assert arguments[..i + 1] == arguments[..i] + [arguments[i]];
      }
      assert arguments[..|arguments|] == arguments;
    }
  }

  /** `Length` counts the different names in the context. */
  lemma LengthCountsNames(c: Context)
    requires c.Valid()
    ensures c.Length() == |KeySet(c.arguments)|
  {
    CountIsKeys(c.arguments);
  }

  /** The pair at a position is the one found under its name. */
  lemma AtIndexFound(c: Context, index: int)
    requires c.Valid() && 0 <= index < c.Length()
    ensures c.GetAtIndex(index).Ok? && c.Get(c.GetAtIndex(index).value.0) == Ok(c.GetAtIndex(index).value.1)
  {
    FindEntry(c.arguments, index);
  }
}
