/** `SettingsBuilder<TResult>`: a list of settings nodes, one of which is executed by name
    to build the settings object. */
module SettingsBuilders {
  import opened Errors
  import opened DotNet

  /** A settings node as the builder sees it: its name, and `id` standing for the rest of
      the node, which is not part of this model. */
  datatype Node = Node(name: string, id: nat)

  /** The nodes' names, in order. */
  function NodeNames(ns: seq<Node>): (r: seq<string>)
    ensures |r| == |ns| && forall k :: 0 <= k < |ns| ==> r[k] == ns[k].name
  {
    seq(|ns|, k requires 0 <= k < |ns| => ns[k].name)
  }

  /** The node list after `Build(added)` as written: a list that was never set is set to
      the added nodes and then has them appended again. */
  function BuiltAsWritten(nodes: Option<seq<Node>>, added: seq<Node>): seq<Node> {
    (if nodes.None? then added else nodes.value) + added
  }

  /** The node list after `Build(added)` as evidently intended: the nodes so far, then the
      added ones once. */
  function Built(nodes: Option<seq<Node>>, added: seq<Node>): (r: seq<Node>)
    ensures nodes.None? ==> r == added
    ensures nodes.Some? ==> |r| == |nodes.value| + |added|
    ensures nodes.Some? ==> r[..|nodes.value|] == nodes.value && r[|nodes.value|..] == added
  {
    (if nodes.None? then [] else nodes.value) + added
  }

  /** On a builder without nodes, `Build` as written holds every added node twice. */
  lemma BuildTwice(added: seq<Node>)
    requires added != []
    ensures |BuiltAsWritten(None, added)| == 2 * |added|
    ensures BuiltAsWritten(None, added) != Built(None, added)
    ensures forall k :: 0 <= k < |added| ==> BuiltAsWritten(None, added)[|added| + k] == added[k]
  {
  }

  class SettingsBuilder {
    const name: string
    var nodes: Option<seq<Node>>

    /** The constructor once its check on `TResult` has passed. */
    constructor Init(name: string)
      ensures this.name == name && nodes == None
    {
      this.name := name;
      nodes := None;
    }

    /** The public constructor: `TResult` must have a public parameterless constructor,
        which `hasDefaultConstructor` says (a reflection query outside this model);
        otherwise it is an InvalidTypeException. */
    static method Create(name: string, hasDefaultConstructor: bool) returns (r: Result<SettingsBuilder>)
      ensures r.Err? <==> !hasDefaultConstructor
      ensures r.Err? ==> r.error == InvalidType
      ensures r.Ok? ==> fresh(r.value) && r.value.name == name && r.value.nodes == None
    {
      if !hasDefaultConstructor {
        return Err(InvalidType);
      }
      var b := new SettingsBuilder.Init(name);
      return Ok(b);
    }

    /** The static `Build(name, nodes)`: a builder holding exactly the given nodes. */
    static method BuildNew(name: string, hasDefaultConstructor: bool, added: seq<Node>) returns (r: Result<SettingsBuilder>)
      ensures r.Err? <==> !hasDefaultConstructor
      ensures r.Ok? ==> fresh(r.value) && r.value.name == name && r.value.nodes == Some(added)
    {
      r := Create(name, hasDefaultConstructor);
      if r.Ok? {
        r.value.nodes := Some(added);
      }
    }

    /** `Build(nodes)` as written: see `BuiltAsWritten`. */
    method Build(added: seq<Node>)
      modifies this
      ensures nodes == Some(BuiltAsWritten(old(nodes), added))
    {
      if nodes.None? {
        nodes := Some(added);
      }
      nodes := Some(nodes.value + added);
    }

    /** `Build(nodes)` as evidently intended: the added nodes are appended once. */
    method BuildIntended(added: seq<Node>)
      modifies this
      ensures nodes == Some(Built(old(nodes), added))
    {
      if nodes.None? {
        nodes := Some([]);
      }
      nodes := Some(nodes.value + added);
    }

    /** The indexer: the first node called `nodeName`; no nodes, or none of that name, is a
        SettingsBuilderException. */
    function Get(nodeName: string): (r: Result<Node>)
      reads this
      ensures r.Ok? <==> nodes.Some? && nodeName in NodeNames(nodes.value)
      ensures r.Ok? ==> r.value.name == nodeName
      ensures r.Ok? ==> exists k :: (0 <= k < |nodes.value| && nodes.value[k] == r.value
                                     && nodeName !in NodeNames(nodes.value[..k]))
      ensures r.Err? ==> r.error == SettingsBuilderException
    {
      if nodes.None? then Err(SettingsBuilderException)
      else match IndexOf(NodeNames(nodes.value), nodeName)
        case Some(i) => (assert NodeNames(nodes.value[..i]) == NodeNames(nodes.value)[..i]; Ok(nodes.value[i]))
        case None => Err(SettingsBuilderException)
    }

    /** `Execute`: the first node called `nodeName` is executed, which is `run` (the node's
        own code, outside this model); no nodes at all, an empty list or no node of that
        name is a SettingsBuilderException. */
    method Execute<R>(nodeName: string, run: Node -> Result<R>) returns (r: Result<R>)
      ensures nodes.None? || nodes.value == [] ==> r == Err(SettingsBuilderException)
      ensures nodes.Some? && nodeName !in NodeNames(nodes.value) ==> r == Err(SettingsBuilderException)
      ensures Get(nodeName).Ok? ==> r == run(Get(nodeName).value)
    {
      if nodes.None? {
        return Err(SettingsBuilderException);
      }
      var ns := nodes.value;
      if |ns| == 0 {
        return Err(SettingsBuilderException);
      }
      for i := 0 to |ns|
        invariant nodeName !in NodeNames(ns[..i])
      {
        if ns[i].name == nodeName {
          assert IndexOf(NodeNames(ns), nodeName) == Some(i) by {
            assert NodeNames(ns[..i]) == NodeNames(ns)[..i];
          }
          return run(ns[i]);
        }
        assert NodeNames(ns[..i + 1]) == NodeNames(ns[..i]) + [ns[i].name];
      }
      assert ns[..|ns|] == ns;
      return Err(SettingsBuilderException);
    }

    /** `Clone`: a new builder of the same name whose nodes are the copies `copy` makes of
        each node (the node's own `Clone`, outside this model), in the same order. */
    method Clone(copy: Node -> Node) returns (c: SettingsBuilder)
      ensures fresh(c) && c.name == name
      ensures nodes.None? ==> c.nodes == None
      ensures nodes.Some? ==> c.nodes.Some? && |c.nodes.value| == |nodes.value|
                              && forall k :: 0 <= k < |nodes.value| ==> c.nodes.value[k] == copy(nodes.value[k])
    {
      c := new SettingsBuilder.Init(name);
      if nodes.None? {
        return;
      }
      var ns := nodes.value;
      var copies: seq<Node> := [];
      for i := 0 to |ns|
        invariant |copies| == i && forall k :: 0 <= k < i ==> copies[k] == copy(ns[k])
      {
        copies := copies + [copy(ns[i])];
      }
      c.nodes := Some(copies);
    }
  }
}
