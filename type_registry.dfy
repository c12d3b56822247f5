/** `TypeRegistry<T>`: a static dictionary of types by id, meant to hold types that
    implement `T`. */
module TypeRegistries {
  import opened Errors
  import opened Tables

  /** A .NET type: its name, the names of every class and interface it derives from or
      implements, and whether it has a public parameterless constructor. */
  datatype ClrType = ClrType(name: string, ancestors: set<string>, hasDefaultConstructor: bool)

  /** `a.IsAssignableFrom(b)`: a value of type `b` can be used as an `a`. */
  predicate IsAssignableFrom(a: ClrType, b: ClrType) {
    a.name == b.name || a.name in b.ancestors
  }

  /** The type check of `BaseRegister` as written: the type must NOT be assignable from
      `T`, which refuses `T` and its own bases and lets through every other type. */
  predicate PassesCheckAsWritten(baseType: ClrType, t: ClrType) {
    !IsAssignableFrom(t, baseType)
  }

  /** The check evidently intended: the type must be usable as a `T`. */
  predicate PassesCheck(baseType: ClrType, t: ClrType) {
    IsAssignableFrom(baseType, t)
  }

  /** The check as written refuses `T` itself and admits a type unrelated to `T`, which the
      intended check refuses. */
  lemma CheckReversed()
    ensures var generator := ClrType("IImageGenerator", {}, false);
            var text := ClrType("String", {"Object"}, false);
            !PassesCheckAsWritten(generator, generator) && PassesCheck(generator, generator)
            && PassesCheckAsWritten(generator, text) && !PassesCheck(generator, text)
  {
  }

  /** The static `REGISTRY` of `TypeRegistry<T>` for one `T`, as one object standing for
      that static state. */
  class TypeRegistry {
    const baseType: ClrType
    var registry: seq<(string, ClrType)>

    ghost predicate Valid()
      reads this
    {
      IsTable(registry)
    }

    /** Every registered type can be used as a `T`: what the intended check keeps. */
    ghost predicate AllDerived()
      reads this
    {
      forall k :: 0 <= k < |registry| ==> PassesCheck(baseType, registry[k].1)
    }

    constructor Empty(baseType: ClrType)
      ensures this.baseType == baseType && registry == [] && Valid() && AllDerived()
    {
      this.baseType := baseType;
      registry := [];
    }

    /** `BaseGet`: the type registered under `id`; an unknown id is a KeyNotFoundException. */
    function BaseGet(id: string): (r: Result<ClrType>)
      reads this
      ensures r.Ok? <==> id in Keys(registry)
      ensures r.Ok? ==> exists k :: 0 <= k < |registry| && registry[k] == (id, r.value)
      ensures r.Err? ==> r.error == KeyNotFound
    {
      match Find(registry, id)
      case Some(t) => Ok(t)
      case None => Err(KeyNotFound)
    }

    /** `BaseRegister` as written: a type failing `PassesCheckAsWritten` is a
        RegistryInvalidTypeException, then an id already there is a
        RegistryCouldNotAddException; either leaves the registry as it was. */
    method BaseRegister(id: string, registeredType: ClrType) returns (r: Result<ClrType>)
      requires Valid()
      modifies this
      ensures Valid()
      ensures !PassesCheckAsWritten(baseType, registeredType) ==>
                r == Err(RegistryInvalidType) && registry == old(registry)
      ensures PassesCheckAsWritten(baseType, registeredType) && id in Keys(old(registry)) ==>
                r == Err(RegistryCouldNotAdd) && registry == old(registry)
      ensures PassesCheckAsWritten(baseType, registeredType) && id !in Keys(old(registry)) ==>
                r == Ok(registeredType) && registry == old(registry) + [(id, registeredType)]
      ensures r.Ok? ==> BaseGet(id) == Ok(registeredType)
    {
      if IsAssignableFrom(registeredType, baseType) {
        return Err(RegistryInvalidType);
      }
      r := Add(id, registeredType);
    }

    /** `BaseRegister` with the type check the right way round: only types usable as a `T`
        get in, so the registry holds nothing else. */
    method BaseRegisterIntended(id: string, registeredType: ClrType) returns (r: Result<ClrType>)
      requires Valid() && AllDerived()
      modifies this
      ensures Valid() && AllDerived()
      ensures !PassesCheck(baseType, registeredType) ==>
                r == Err(RegistryInvalidType) && registry == old(registry)
      ensures PassesCheck(baseType, registeredType) && id in Keys(old(registry)) ==>
                r == Err(RegistryCouldNotAdd) && registry == old(registry)
      ensures PassesCheck(baseType, registeredType) && id !in Keys(old(registry)) ==>
                r == Ok(registeredType) && registry == old(registry) + [(id, registeredType)]
      ensures r.Ok? ==> BaseGet(id) == Ok(registeredType)
    {
      if !IsAssignableFrom(baseType, registeredType) {
        return Err(RegistryInvalidType);
      }
      r := Add(id, registeredType);
    }

    /** The `TryAdd` both checks end with. */
    method Add(id: string, registeredType: ClrType) returns (r: Result<ClrType>)
      requires Valid()
      modifies this
      ensures Valid()
      ensures id in Keys(old(registry)) ==> r == Err(RegistryCouldNotAdd) && registry == old(registry)
      ensures id !in Keys(old(registry)) ==>
                r == Ok(registeredType) && registry == old(registry) + [(id, registeredType)]
      ensures r.Ok? ==> BaseGet(id) == Ok(registeredType)
      ensures forall other :: other != id ==> BaseGet(other) == old(BaseGet(other))
    {
      var added := TryAdd(registry, id, registeredType);
      if added.None? {
        return Err(RegistryCouldNotAdd);
      }
      forall other {
        TryAddFound(registry, id, registeredType, other);
      }
      registry := added.value;
      return Ok(registeredType);
    }

    /** `GetAll`: every id with its type, as many as the registry holds. */
    method GetAll() returns (all: seq<(string, ClrType)>)
      requires Valid()
      ensures all == registry
      ensures IsTable(all) && |all| == |KeySet(registry)|
    {
      all := [];
      for i := 0 to |registry|
        invariant all == registry[..i]
      {
        all := all + [registry[i]];
      }
      assert registry[..|registry|] == registry;
      CountIsKeys(registry);
    }
  }
}
