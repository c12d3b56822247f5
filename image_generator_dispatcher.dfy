/** `ImageGeneratorDispatcher`: registers a project's image generators under ids prefixed
    with the project's id, each project id used once. */
module ImageGeneratorDispatchers {
  import opened Errors
  import opened Tables
  import opened TypeRegistries

  /** The static `REGISTERED_IDS` list, as one object standing for that static state. */
  class RegisteredIds {
    var ids: seq<string>

    ghost predicate Valid()
      reads this
    {
      Distinct(ids)
    }

    constructor Empty()
      ensures ids == [] && Valid()
    {
      ids := [];
    }
  }

  /** The id a generator is registered under: the project id, a colon, then its own id. */
  function Key(projectId: string, id: string): (k: string)
    ensures |k| == |projectId| + 1 + |id|
    ensures k[..|projectId|] == projectId && k[|projectId|] == ':' && k[|projectId| + 1..] == id
  {
    projectId + ":" + id
  }

  /** Projects whose ids hold no colon never register under the same key, and one project
      registers different generator ids under different keys. */
  lemma KeysApart(p: string, q: string, a: string, b: string)
    requires ':' !in p && ':' !in q
    ensures Key(p, a) == Key(q, b) <==> p == q && a == b
  {
    if Key(p, a) == Key(q, b) {
      assert p == Key(p, a)[..|p|];
      assert a == Key(p, a)[|p| + 1..];
    }
  }

  class ImageGeneratorDispatcher {
    const projectId: string

    /** The field assignment of the constructor once its check passes. */
    constructor Init(projectId: string)
      ensures this.projectId == projectId
    {
      this.projectId := projectId;
    }

    /** The constructor: a project id already registered is a DuplicateIdException;
        otherwise it is appended to the registered ids, which so stay distinct. */
    static method Create(projectId: string, registered: RegisteredIds) returns (r: Result<ImageGeneratorDispatcher>)
      requires registered.Valid()
      modifies registered
      ensures registered.Valid()
      ensures projectId in old(registered.ids) ==> r == Err(DuplicateId) && registered.ids == old(registered.ids)
      ensures projectId !in old(registered.ids) ==>
                r.Ok? && fresh(r.value) && r.value.projectId == projectId
                && registered.ids == old(registered.ids) + [projectId]
    {
      var ids := registered.ids;
      for i := 0 to |ids|
        invariant projectId !in ids[..i]
      {
        if ids[i] == projectId {
          return Err(DuplicateId);
        }
        assert ids[..i + 1] == ids[..i] + [ids[i]];
      }
      assert ids[..|ids|] == ids;
      registered.ids := ids + [projectId];
      var d := new ImageGeneratorDispatcher.Init(projectId);
      return Ok(d);
    }

    /** `Register`: the generator type goes to the generator registry under
        `Key(projectId, id)`, whose own `Register` refuses a type without a parameterless
        constructor with a RegistryInvalidTypeException before calling `BaseRegister`. */
    method Register(id: string, generatorType: ClrType, registry: TypeRegistry) returns (r: Result<ClrType>)
      requires registry.Valid()
      modifies registry
      ensures registry.Valid()
      ensures !generatorType.hasDefaultConstructor ==>
                r == Err(RegistryInvalidType) && registry.registry == old(registry.registry)
      ensures generatorType.hasDefaultConstructor && !PassesCheckAsWritten(registry.baseType, generatorType) ==>
                r == Err(RegistryInvalidType) && registry.registry == old(registry.registry)
      ensures generatorType.hasDefaultConstructor && PassesCheckAsWritten(registry.baseType, generatorType) ==>
                (r.Ok? <==> Key(projectId, id) !in Keys(old(registry.registry)))
      ensures r.Ok? ==> registry.registry == old(registry.registry) + [(Key(projectId, id), generatorType)]
                        && registry.BaseGet(Key(projectId, id)) == Ok(generatorType)
    {
      if !generatorType.hasDefaultConstructor {
        return Err(RegistryInvalidType);
      }
      r := registry.BaseRegister(Key(projectId, id), generatorType);
    }
  }
}
