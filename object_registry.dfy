/** `ObjectRegistry<T>`: a static dictionary of objects by id, added to and never changed. */
module ObjectRegistries {
  import opened Errors
  import opened Tables

  /** The static `REGISTRY` of `ObjectRegistry<T>`, as one object standing for that static
      state. */
  class ObjectRegistry<T(==)> {
    var registry: seq<(string, T)>

    ghost predicate Valid()
      reads this
    {
      IsTable(registry)
    }

    constructor Empty()
      ensures registry == [] && Valid()
    {
      registry := [];
    }

    /** `Get`: the object registered under `id`; an unknown id is a
        RegistryItemNotFoundException. */
    function Get(id: string): (r: Result<T>)
      reads this
      ensures r.Ok? <==> id in Keys(registry)
      ensures r.Ok? ==> exists k :: 0 <= k < |registry| && registry[k] == (id, r.value)
      ensures r.Err? ==> r.error == RegistryItemNotFound
    {
      match Find(registry, id)
      case Some(item) => Ok(item)
      case None => Err(RegistryItemNotFound)
    }

    /** `Register`: a new id is added with its object, which is returned and found under
        the id from then on; an id already there is a RegistryCouldNotAddException. No
        entry is ever replaced or removed. */
    method Register(id: string, item: T) returns (r: Result<T>)
      requires Valid()
      modifies this
      ensures Valid()
      ensures id !in Keys(old(registry)) ==> r == Ok(item) && registry == old(registry) + [(id, item)]
      ensures id in Keys(old(registry)) ==> r == Err(RegistryCouldNotAdd) && registry == old(registry)
      ensures old(registry) <= registry
      ensures r.Ok? ==> Get(id) == Ok(item)
      ensures forall other :: other != id ==> Get(other) == old(Get(other))
    {
      var added := TryAdd(registry, id, item);
      if added.None? {
        return Err(RegistryCouldNotAdd);
      }
      forall other {
        TryAddFound(registry, id, item, other);
      }
      registry := added.value;
      return Ok(item);
    }

    /** `GetAll`: every id with its object, in the order they were registered. */
    method GetAll() returns (all: seq<(string, T)>)
      requires Valid()
      ensures all == registry
      ensures IsTable(all) && |all| == |KeySet(registry)|
    {
      all := [];
      for i := 0 to |registry|
        invariant all == registry[..i]
      {
        all := all + [registry[i]];
      }
      assert registry[..|registry|] == registry;
      CountIsKeys(registry);
    }
  }
}
