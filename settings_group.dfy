/** `SettingsGroup`: a group of alternative options, one of which is chosen by name when
    the group is executed, writing into the group's output context. */
module SettingsGroups {
  import opened Errors
  import opened DotNet
  import opened Tables
  import opened Contexts
  import opened ArgumentTypes
  import opened Objects

  /** An option of a group, as the group sees it: its name and the context of its own
      arguments. */
  datatype GroupOption = GroupOption(name: string, context: Context)

  /** The options' names, in order. */
  function OptionNames(os: seq<GroupOption>): (r: seq<string>)
    ensures |r| == |os| && forall k :: 0 <= k < |os| ==> r[k] == os[k].name
  {
    seq(|os|, k requires 0 <= k < |os| => os[k].name)
  }

  /** The search `Execute` and `SetValue` make: the position of the first option called
      `name`, or the number of options when there is none. */
  method FirstNamed(os: seq<GroupOption>, name: string) returns (i: nat)
    ensures i <= |os| && forall k :: 0 <= k < i ==> os[k].name != name
    ensures i < |os| ==> os[i].name == name
    ensures i == |os| <==> name !in OptionNames(os)
  {
    i := 0;
    while i < |os| && os[i].name != name
      invariant i <= |os| && forall k :: 0 <= k < i ==> os[k].name != name
    {
      i := i + 1;
    }
    if i < |os| {
      assert OptionNames(os)[i] == name;
    }
  }

  /** The last step of `Execute`: the option runs with outcome `runOption`, and when it
      passes the parser runs from `cin` to `cout`, a callback with outcome `runCallback`,
      the built-in auto-parser as `AutoParse`. */
  method RunParser(run: Parser, cin: Context, cout: Context, runOption: Outcome, runCallback: Outcome)
    returns (o: Outcome, ghost done: nat)
    requires run != NoParser
    requires cin.Valid() && cout.Valid() && AllValid(cin.arguments) && AllValid(cout.arguments)
    modifies Targets(cout.arguments)
    ensures cout.arguments == old(cout.arguments)
    ensures AllValid(cin.arguments) && AllValid(cout.arguments)
    ensures runOption.Fail? ==> o == runOption && unchanged(Targets(cout.arguments))
    ensures runOption.Pass? && run.Callback? ==> o == runCallback
    ensures runOption.Pass? && run.AutoParser? ==> AutoParsed(cin.arguments, cout.arguments, o, done)
  {
    done := 0;
    if runOption.Fail? {
      o := runOption;
    } else if run.Callback? {
      o := runCallback;
    } else {
      o, done := AutoParse(cin, cout);
    }
  }

  /** What the group parses its context with: nothing yet, the built-in auto-parser, or a
      callback given to `OnParse` (known by its identity only). */
  datatype Parser = NoParser | AutoParser | Callback(id: nat)

  class SettingsGroup {
    const name: string
    const groupContext: Option<Context>
    var options: Option<seq<GroupOption>>
    var parser: Parser
    var autoParse: bool

    /** The output context holds each name once, and so do the options. */
    ghost predicate Valid()
      reads this, if groupContext.Some? then {groupContext.value} else {}
    {
      (groupContext.Some? ==> groupContext.value.Valid())
      && (options.Some? ==> Distinct(OptionNames(options.value)))
    }

    /** The private constructor with the output context its callers give it. */
    constructor Init(name: string, groupContext: Option<Context>)
      requires groupContext.Some? ==> groupContext.value.Valid()
      ensures this.name == name && this.groupContext == groupContext
      ensures options == None && parser == NoParser && !autoParse
      ensures Valid()
    {
      this.name := name;
      this.groupContext := groupContext;
      options := None;
      parser := NoParser;
      autoParse := false;
    }

    /** The public constructor: a new output context filled with the given arguments; a
        repeated name is a ContextException and no group is made. */
    static method Create(name: string, outputContext: seq<Entry>) returns (r: Result<SettingsGroup>)
      ensures r.Err? <==> !IsTable(outputContext)
      ensures r.Err? ==> r.error == ContextException
      ensures r.Ok? ==> fresh(r.value) && r.value.Valid() && r.value.name == name
                        && r.value.options == None && r.value.parser == NoParser && !r.value.autoParse
      ensures r.Ok? ==> r.value.groupContext.Some? && fresh(r.value.groupContext.value)
                        && r.value.groupContext.value.arguments == outputContext
    {
      var context := new Context.Empty();
      var o := context.AddAll(outputContext);
      AddedFromEmpty(outputContext);
      if o.Fail? {
        return Err(o.error);
      }
      var g := new SettingsGroup.Init(name, Some(context));
      return Ok(g);
    }

    /** `New(name, params pairs)`: a missing array is a SettingsBuilderException, otherwise
        as the public constructor. */
    static method New(name: string, outputContext: Option<seq<Entry>>) returns (r: Result<SettingsGroup>)
      ensures outputContext.None? ==> r == Err(SettingsBuilderException)
      ensures outputContext.Some? ==> (r.Err? <==> !IsTable(outputContext.value))
      ensures r.Ok? ==> fresh(r.value) && r.value.Valid() && r.value.name == name && r.value.options == None
      ensures r.Ok? ==> r.value.groupContext.Some? && fresh(r.value.groupContext.value)
                        && r.value.groupContext.value.arguments == outputContext.value
    {
      if outputContext.None? {
        return Err(SettingsBuilderException);
      }
      r := Create(name, outputContext.value);
    }

    /** `New(name, context)`: a missing context is a SettingsBuilderException; otherwise the
        group writes into that very context. */
    static method NewFromContext(name: string, outputContext: Option<Context>) returns (r: Result<SettingsGroup>)
      requires outputContext.Some? ==> outputContext.value.Valid()
      ensures outputContext.None? ==> r == Err(SettingsBuilderException)
      ensures outputContext.Some? ==> r.Ok? && fresh(r.value) && r.value.Valid() && r.value.name == name
                                      && r.value.groupContext == outputContext && r.value.options == None
    {
      if outputContext.None? {
        return Err(SettingsBuilderException);
      }
      var g := new SettingsGroup.Init(name, outputContext);
      return Ok(g);
    }

    /** The `Options` property. */
    function Options(): (r: Result<seq<GroupOption>>)
      reads this
      ensures r.Ok? <==> options.Some?
      ensures r.Ok? ==> r.value == options.value
      ensures r.Err? ==> r.error == SettingsBuilderException
    {
      if options.None? then Err(SettingsBuilderException) else Ok(options.value)
    }

    /** The indexer: the option called `optionName`; a SettingsBuilderException when
        there are no options or none of that name. */
    function Get(optionName: string): (r: Result<GroupOption>)
      reads this
      ensures r.Ok? <==> options.Some? && optionName in OptionNames(options.value)
      ensures r.Ok? ==> r.value.name == optionName && r.value in options.value
      ensures r.Err? ==> r.error == SettingsBuilderException
    {
      if options.None? then Err(SettingsBuilderException)
      else match IndexOf(OptionNames(options.value), optionName)
        case Some(i) => Ok(options.value[i])
        case None => Err(SettingsBuilderException)
    }

    /** `Option`: adds an option, refusing a second option of the same name with a
        SettingsBuilderException that leaves the options as they were. */
    method Option(option: GroupOption) returns (o: Outcome)
      requires Valid()
      modifies this
      ensures Valid()
      ensures var before := if old(options).None? then [] else old(options).value;
              option.name in OptionNames(before) ==> o == Fail(SettingsBuilderException) && options == old(options)
      ensures var before := if old(options).None? then [] else old(options).value;
              option.name !in OptionNames(before) ==> o == Pass && options == Some(before + [option])
      ensures o.Pass? ==> Get(option.name) == Ok(option)
      ensures parser == old(parser) && autoParse == old(autoParse)
    {
      var os := if options.None? then [] else options.value;
      if option.name in OptionNames(os) {
        return Fail(SettingsBuilderException);
      }
      assert OptionNames(os + [option]) == OptionNames(os) + [option.name];
      assert IndexOf(OptionNames(os + [option]), option.name) == Some(|os|);
      options := Some(os + [option]);
      return Pass;
    }

    /** `OnParse`: the callback that parses the context from now on. */
    method OnParse(id: nat)
      modifies this
      ensures parser == Callback(id)
      ensures options == old(options) && autoParse == old(autoParse)
    {
      parser := Callback(id);
    }

    /** `EnableAutoParse`: `Execute` parses with the auto-parser from now on. */
    method EnableAutoParse()
      modifies this
      ensures autoParse
      ensures options == old(options) && parser == old(parser)
    {
      autoParse := true;
    }

    /** Whether `Execute` gets past its checks for missing parts. */
    predicate Ready()
      reads this
    {
      options.Some? && groupContext.Some? && (autoParse || parser != NoParser)
    }

    /** `Execute`: after checking that there are options, an output context and a parser
        (auto-parsing, when enabled, replacing the parser), runs the first option of that
        name on `outputContext` and then the parser, from the group's context to
        `outputContext`. Running the option is `runOption` and running an `OnParse`
        callback is `runCallback`, the outcomes of code outside this model; the built-in
        auto-parser is `AutoParse`. An unknown name is a SettingsBuilderException. */
    method Execute(optionName: string, outputContext: Context, runOption: Outcome, runCallback: Outcome)
      returns (o: Outcome, ghost done: nat)
      requires Valid() && outputContext.Valid()
      requires groupContext.Some? ==> AllValid(groupContext.value.arguments)
      requires AllValid(outputContext.arguments)
      modifies this, Targets(outputContext.arguments)
      ensures Valid() && AllValid(outputContext.arguments)
      ensures groupContext.Some? ==> AllValid(groupContext.value.arguments)
      ensures options == old(options) && autoParse == old(autoParse)
      ensures parser == if options.Some? && groupContext.Some? && autoParse then AutoParser else old(parser)
      ensures !old(Ready()) ==> o == Fail(SettingsBuilderException)
      ensures old(Ready()) && optionName !in OptionNames(options.value) ==> o == Fail(SettingsBuilderException)
      ensures old(Ready()) && optionName in OptionNames(options.value) && runOption.Fail? ==> o == runOption
      ensures !(old(Ready()) && optionName in OptionNames(options.value) && runOption.Pass?) ==>
                unchanged(Targets(outputContext.arguments))
      ensures old(Ready()) && optionName in OptionNames(options.value) && runOption.Pass? && parser.Callback? ==>
                o == runCallback
      ensures old(Ready()) && optionName in OptionNames(options.value) && runOption.Pass? && parser.AutoParser? ==>
                AutoParsed(groupContext.value.arguments, outputContext.arguments, o, done)
    {
      done := 0;
      if options.None? {
        return Fail(SettingsBuilderException), done;
      }
      if groupContext.None? {
        return Fail(SettingsBuilderException), done;
      }
      NotATarget(this, outputContext.arguments);
      NotATarget(this, groupContext.value.arguments);
      // the field is written last, after the parser has run, which no one can observe
      var run := if autoParse then AutoParser else parser;
      if run == NoParser {
        return Fail(SettingsBuilderException), done;
      }
      // the search stays in this body: a call would give the heap a new name, and the
      // auto-parser's postcondition speaks of the heap on entry
      var os := options.value;
      var i := 0;
      while i < |os| && os[i].name != optionName
        invariant i <= |os| && forall k :: 0 <= k < i ==> os[k].name != optionName
      {
        i := i + 1;
      }
      if i == |os| {
        parser := run;
        assert unchanged(Targets(outputContext.arguments));
        return Fail(SettingsBuilderException), done;
      }
      assert OptionNames(os)[i] == optionName;
      ghost var cin, outs := groupContext.value.arguments, outputContext.arguments;
      ContextNotATarget(groupContext.value, outs);
      o, done := RunParser(run, groupContext.value, outputContext, runOption, runCallback);
      label ran:
      parser := run;
      assert unchanged@ran(Targets(outs));
      assert unchanged@ran(Targets(cin));
    }

    /** `IsFullyInitialized`: there is a non-empty output context and at least one option. */
    predicate IsFullyInitialized()
      reads this, if groupContext.Some? then {groupContext.value} else {}
    {
      groupContext.Some? && groupContext.value.Length() > 0 && options.Some? && |options.value| > 0
    }

    /** `SetValue`: hands the argument to the first option of that name, which is
        `setOption`, the outcome of code outside this model; no options, or none of that
        name, is a SettingsBuilderException. */
    method SetValue(optionName: string, argumentName: string, setOption: Outcome) returns (o: Outcome)
      ensures options.None? ==> o == Fail(SettingsBuilderException)
      ensures options.Some? && optionName !in OptionNames(options.value) ==> o == Fail(SettingsBuilderException)
      ensures options.Some? && optionName in OptionNames(options.value) ==> o == setOption
    {
      if options.None? {
        return Fail(SettingsBuilderException);
      }
      var i := FirstNamed(options.value, optionName);
      if i == |options.value| {
        return Fail(SettingsBuilderException);
      }
      return setOption;
    }

    /** `Clone`: a new group with the same name, parser and options and a copy of the
        output context; a group without options cannot be cloned. */
    method Clone() returns (r: Result<SettingsGroup>)
      requires Valid()
      ensures options.None? ==> r == Err(SettingsBuilderException)
      ensures options.Some? ==> r.Ok? && fresh(r.value) && r.value.Valid()
      ensures r.Ok? ==> r.value.name == name && r.value.options == options
                        && r.value.parser == parser && r.value.autoParse == autoParse
      ensures r.Ok? ==> (r.value.groupContext.Some? <==> groupContext.Some?)
      ensures r.Ok? && groupContext.Some? ==>
                fresh(r.value.groupContext.value) && r.value.groupContext.value.arguments == groupContext.value.arguments
    {
      var context: Option<Context> := None;
      if groupContext.Some? {
        var c := groupContext.value.Clone();
        context := Some(c);
      }
      var g := new SettingsGroup.Init(name, context);
      g.parser := parser;
      g.autoParse := autoParse;
      if options.None? {
        return Err(SettingsBuilderException);
      }
      g.options := options;
      return Ok(g);
    }
  }

  /** A group is none of the argument objects of a context. */
  lemma NotATarget(g: SettingsGroup, es: seq<Entry>)
    ensures g !in Targets(es)
  {
    forall k | 0 <= k < |es|
      ensures es[k].1.Target() != g
    {
      match es[k].1
      case ScalarRef(x) =>
      case SingleSelectRef(_) =>
      case MultiSelectRef(_) =>
      case SelectListRef(_) =>
      case FreeListRef(_) =>
    }
  }

  /** A context is none of the argument objects of a context. */
  lemma ContextNotATarget(c: Context, es: seq<Entry>)
    ensures c !in Targets(es)
  {
    forall k | 0 <= k < |es|
      ensures es[k].1.Target() != c
    {
      match es[k].1
      case ScalarRef(x) =>
      case SingleSelectRef(_) =>
      case MultiSelectRef(_) =>
      case SelectListRef(_) =>
      case FreeListRef(_) =>
    }
  }

  /** No output argument is among the objects an input argument is read through, and no
      two output pairs stand for the same object: each round of the auto-parser then
      writes an object that no other round reads or writes. */
  predicate Separate(ins: seq<Entry>, outs: seq<Entry>) {
    && (forall j, k :: 0 <= j < |ins| && 0 <= k < |outs| ==> outs[k].1.Target() !in ParsedReads(ins[j].1))
    && (forall j, k :: 0 <= j < k < |outs| ==> outs[j].1.Target() != outs[k].1.Target())
  }

  /** When no two output pairs share an object, the output argument of another name is
      another object than the one `name` looks up. */
  lemma OtherTarget(outs: seq<Entry>, k: nat, name: string)
    requires forall j, k :: 0 <= j < k < |outs| ==> outs[j].1.Target() != outs[k].1.Target()
    requires k < |outs| && outs[k].0 != name && Lookup(outs, name).Ok?
    ensures outs[k].1.Target() != Lookup(outs, name).value.Target()
  {
    var m :| 0 <= m < |outs| && outs[m] == (name, Lookup(outs, name).value);
    assert m != k;
  }

  /** The round for the `i`-th input pair writes nothing that an input argument is read
      through, nothing an earlier round wrote, and no output argument of another name. */
  lemma Apart(es: seq<Entry>, outs: seq<Entry>, i: nat)
    requires Separate(es, outs) && IsTable(es) && i < |es|
    ensures Touched(es[i], outs) !! InputReads(es)
    ensures forall j :: 0 <= j < i && es[j].0 in Keys(outs) ==>
              Lookup(outs, es[j].0).value.Target() !in Touched(es[i], outs)
    ensures forall k :: 0 <= k < |outs| && outs[k].0 != es[i].0 ==> outs[k].1.Target() !in Touched(es[i], outs)
  {
    if Lookup(outs, es[i].0).Ok? {
      var m :| 0 <= m < |outs| && outs[m] == (es[i].0, Lookup(outs, es[i].0).value);
      forall j | 0 <= j < i && es[j].0 in Keys(outs)
        ensures Lookup(outs, es[j].0).value.Target() !in Touched(es[i], outs)
      {
        var k :| 0 <= k < |outs| && outs[k] == (es[j].0, Lookup(outs, es[j].0).value);
        assert Keys(es)[j] != Keys(es)[i];
        OtherTarget(outs, k, es[i].0);
      }
      forall k | 0 <= k < |outs| && outs[k].0 != es[i].0
        ensures outs[k].1.Target() !in Touched(es[i], outs)
      {
        OtherTarget(outs, k, es[i].0);
      }
    }
  }

  /** One round of the auto-parser for the input name `name` whose argument's raw value
      is `parsed`: the name is looked up among the output pairs, then the raw value is
      handed to the output argument's `SetParsedValue`; the first of the lookup, the read
      and the store to raise gives the outcome. */
  function Round(name: string, outs: seq<Entry>, parsed: Result<Obj>): (r: Outcome)
    ensures r.Pass? ==> Lookup(outs, name).Ok? && parsed.Ok?
  {
    match Lookup(outs, name)
    case Err(err) => Fail(err)
    case Ok(target) =>
      match parsed
      case Err(err) => Fail(err)
      case Ok(x) => SetParsedOutcome(target, x)
  }

  /** The first `done` rounds of the auto-parser over `es` passed, each giving the output
      argument of its name the input argument's raw value as it was at the start. */
  twostate predicate RoundsHeld(es: seq<Entry>, outs: seq<Entry>, done: nat)
    requires done <= |es| && old(AllValid(es))
    reads Targets(outs)
  {
    forall j :: 0 <= j < done ==>
      && Round(es[j].0, outs, old(ParsedOf(es[j].1))) == Pass && es[j].0 in Keys(outs)
      && Holds(Lookup(outs, es[j].0).value, old(ParsedOf(es[j].1)).value)
  }

  /** The output arguments that no input name is for are untouched. */
  twostate predicate OthersUntouched(es: seq<Entry>, outs: seq<Entry>)
    reads Targets(outs)
  {
    forall k :: 0 <= k < |outs| && outs[k].0 !in Keys(es) ==> unchanged(outs[k].1.Target())
  }

  /** The objects the auto-parser may write: the output arguments some input name is for. */
  function Written(es: seq<Entry>, outs: seq<Entry>): set<object> {
    set k | 0 <= k < |outs| && outs[k].0 in Keys(es) :: outs[k].1.Target()
  }

  /** With separate arguments, the auto-parser may not write an output argument that no
      input name is for. */
  lemma Unwritten(es: seq<Entry>, outs: seq<Entry>, k: nat)
    requires Separate(es, outs) && k < |outs| && outs[k].0 !in Keys(es)
    ensures outs[k].1.Target() !in Written(es, outs)
  {
    forall m | 0 <= m < |outs| && outs[m].0 in Keys(es)
      ensures outs[m].1.Target() != outs[k].1.Target()
    {
      assert m != k;
    }
  }

  /** A round writes only what the auto-parser may. */
  lemma TouchedWritten(es: seq<Entry>, outs: seq<Entry>, i: nat)
    requires i < |es|
    ensures Touched(es[i], outs) <= Written(es, outs)
  {
    if Lookup(outs, es[i].0).Ok? {
      var k :| 0 <= k < |outs| && outs[k] == (es[i].0, Lookup(outs, es[i].0).value);
      assert Keys(es)[i] == es[i].0;
    }
  }

  /** What the auto-parser has done when it ends with `o` after `done` completed rounds,
      taken over the input pairs `es` in order into the output pairs `outs`. Every completed
      round found its name among the output pairs, and a run that stops at a name they
      lack stops with a SettingsBuilderException. When the input and output arguments are
      separate, each completed round gave the output argument of its name the input
      argument's raw value as it was at the start, a run passes exactly when every round
      does, a failing run ends with the failing round's exception, and the output
      arguments no completed round was for are untouched. */
  twostate predicate AutoParsed(es: seq<Entry>, outs: seq<Entry>, o: Outcome, done: nat)
    requires old(AllValid(es))
    reads Targets(outs)
  {
    && done <= |es| && (o.Pass? <==> done == |es|)
    && (forall j :: 0 <= j < done ==> es[j].0 in Keys(outs))
    && (o.Fail? && es[done].0 !in Keys(outs) ==> o == Fail(SettingsBuilderException))
    && (Separate(es, outs) ==>
          && RoundsHeld(es, outs, done)
          && (o.Fail? ==> o == Round(es[done].0, outs, old(ParsedOf(es[done].1))))
          && OthersUntouched(es, outs))
  }

  /** Every object an input argument's raw value is read through. */
  function InputReads(es: seq<Entry>): set<object> {
    set j, x | 0 <= j < |es| && x in ParsedReads(es[j].1) :: x
  }

  /** The raw values of the input pairs' arguments, in order. */
  ghost function ParsedAll(es: seq<Entry>): (r: seq<Result<Obj>>)
    requires AllValid(es)
    reads Targets(es), InputReads(es)
    ensures |r| == |es| && forall j :: 0 <= j < |es| ==> r[j] == ParsedOf(es[j].1)
    decreases |es|
  {
    if es == [] then []
    else
      var front := es[..|es| - 1];
      assert forall j :: 0 <= j < |front| ==> front[j] == es[j];
      assert Targets(front) <= Targets(es) && InputReads(front) <= InputReads(es);
      ParsedAll(front) + [ParsedOf(es[|es| - 1].1)]
  }

  /** The input arguments still give the raw values `all`. */
  ghost predicate InputsAre(es: seq<Entry>, all: seq<Result<Obj>>)
    requires AllValid(es)
    reads Targets(es), InputReads(es)
  {
    |all| == |es| && forall j :: 0 <= j < |es| ==> ParsedOf(es[j].1) == all[j]
  }

  /** The first `done` rounds, for the input names `names`, passed, each storing its raw
      value from `all` in the output argument of its name. */
  predicate Stored(names: seq<string>, outs: seq<Entry>, all: seq<Result<Obj>>, done: nat)
    requires done <= |names| && |all| == |names|
    reads Targets(outs)
  {
    forall j :: 0 <= j < done ==>
      Round(names[j], outs, all[j]) == Pass && Holds(Lookup(outs, names[j]).value, all[j].value)
  }

  /** The inputs give the same raw values while nothing they are read through changes. */
  twostate lemma InputsKept(es: seq<Entry>, new all: seq<Result<Obj>>)
    requires old(allocated(all))
    requires old(AllValid(es)) && AllValid(es) && old(InputsAre(es, all)) && unchanged(InputReads(es))
    ensures InputsAre(es, all)
  {
    forall j | 0 <= j < |es|
      ensures ParsedOf(es[j].1) == all[j]
    {
      assert ParsedReads(es[j].1) <= InputReads(es);
    }
  }

  /** A round over the input pairs `es`, named `names`, that wrote nothing but its own
      output argument and stored its raw value there, leaves the earlier rounds' stores as
      they were and adds its own. */
  twostate lemma Kept(new names: seq<string>, outs: seq<Entry>, new all: seq<Result<Obj>>, new i: nat, new es: seq<Entry>)
    requires old(allocated(names)) && old(allocated(all))
    requires Separate(es, outs) && IsTable(es) && names == Keys(es) && i < |es| && |all| == |es|
    requires old(Stored(names, outs, all, i)) && unchanged(Targets(outs) - Touched(es[i], outs))
    requires Round(names[i], outs, all[i]) == Pass && Holds(Lookup(outs, names[i]).value, all[i].value)
    ensures Stored(names, outs, all, i + 1)
  {
    Apart(es, outs, i);
    forall j | 0 <= j < i
      ensures Holds(Lookup(outs, names[j]).value, all[j].value)
    {
      assert old(Holds(Lookup(outs, names[j]).value, all[j].value));
    }
  }

  /** The objects the round for `e` may write: the output argument of its name, if any. */
  function Touched(e: Entry, outs: seq<Entry>): set<object> {
    if Lookup(outs, e.0).Ok? then {Lookup(outs, e.0).value.Target()} else {}
  }

  /** `t.SetParsedValue(x)`, where every argument of `ins` and `outs` keeps its invariant. */
  method Store(t: ArgRef, x: Obj, ghost ins: seq<Entry>, ghost outs: seq<Entry>) returns (o: Outcome)
    requires t.Valid() && AllValid(ins) && AllValid(outs)
    modifies t.Target()
    ensures AllValid(ins) && AllValid(outs)
    ensures o == SetParsedOutcome(t, x)
    ensures o.Pass? ==> Holds(t, x)
    ensures o.Fail? ==> unchanged(t.Target())
  {
    o := SetParsed(t, x);
    // only the argument behind `t` changed, and it keeps its invariant
    forall es: seq<Entry>, k | (es == ins || es == outs) && 0 <= k < |es|
      ensures es[k].1.Valid()
    {
      if es[k].1.Target() == t.Target() {
        SameTarget(es[k].1, t);
      } else {
        assert old(es[k].1.Valid());
      }
    }
  }

  /** `t.SetParsedValue(a.GetParsedValue())`, where `raw` is the raw value of `a`: the
      first of the read and the store to raise gives the outcome. */
  method Deliver(a: ArgRef, t: ArgRef, ghost ins: seq<Entry>, ghost outs: seq<Entry>, ghost raw: Result<Obj>)
    returns (o: Outcome)
    requires a.Valid() && t.Valid() && AllValid(ins) && AllValid(outs) && raw == ParsedOf(a)
    modifies t.Target()
    ensures AllValid(ins) && AllValid(outs)
    ensures o == (if raw.Err? then Fail(raw.error) else SetParsedOutcome(t, raw.value))
    ensures o.Pass? ==> raw.Ok? && Holds(t, raw.value)
    ensures o.Fail? ==> unchanged(t.Target())
  {
    var p := GetParsed(a);
    assert p == raw;
    if p.Err? {
      o := Fail(p.error);
    } else {
      o := Store(t, p.value, ins, outs);
    }
  }

  /** One round of the auto-parser: `cout[e.0].SetParsedValue(e.1.GetParsedValue())`,
      where `raw` is the raw value of `e.1`, writing nothing but the output argument of
      that name. */
  method Transfer(e: Entry, cout: Context, ghost ins: seq<Entry>, ghost raw: Result<Obj>) returns (o: Outcome)
    requires cout.Valid() && e.1.Valid() && AllValid(ins) && AllValid(cout.arguments)
    requires raw == ParsedOf(e.1)
    modifies Touched(e, cout.arguments)
    ensures cout.arguments == old(cout.arguments)
    ensures AllValid(ins) && AllValid(cout.arguments)
    ensures o == Round(e.0, cout.arguments, raw)
    ensures o.Pass? ==> Holds(Lookup(cout.arguments, e.0).value, raw.value)
    ensures o.Fail? ==> unchanged(Touched(e, cout.arguments))
  {
    var target := cout.Get(e.0);
    if target.Err? {
      o := Fail(target.error);
    } else {
      o := Deliver(e.1, target.value, ins, cout.arguments, raw);
    }
  }

  /** Where the auto-parser stands after `done` rounds with outcome `o` so far: the
      arguments keep their invariants, every completed round found its name among the
      output pairs, a round that failed on a missing name failed with a
      SettingsBuilderException, and, with separate input and output arguments, the inputs
      still give the raw values `all`, the completed rounds stored them, and a failed
      round's outcome is its exception. */
  ghost predicate Progress(es: seq<Entry>, outs: seq<Entry>, all: seq<Result<Obj>>, o: Outcome, done: nat)
    reads Targets(es), InputReads(es), Targets(outs)
  {
    && done <= |es| && |all| == |es| && AllValid(es) && AllValid(outs)
    && (forall j :: 0 <= j < done ==> es[j].0 in Keys(outs))
    && (o.Fail? ==> done < |es| && (es[done].0 !in Keys(outs) ==> o == Fail(SettingsBuilderException)))
    && (Separate(es, outs) ==>
          && InputsAre(es, all) && Stored(Keys(es), outs, all, done)
          && (o.Fail? ==> o == Round(es[done].0, outs, all[done])))
  }

  /** The round of the auto-parser for the `i`-th input pair: it moves the progress on by
      one round, or stops it with the round's exception. */
  method Step(cin: Context, cout: Context, i: nat, ghost all: seq<Result<Obj>>) returns (o: Outcome)
    requires cin.Valid() && cout.Valid() && i < |cin.arguments|
    requires Progress(cin.arguments, cout.arguments, all, Pass, i)
    modifies Touched(cin.arguments[i], cout.arguments)
    ensures cin.arguments == old(cin.arguments) && cout.arguments == old(cout.arguments)
    ensures o.Fail? ==> unchanged(Touched(cin.arguments[i], cout.arguments))
    ensures Progress(cin.arguments, cout.arguments, all, o, if o.Pass? then i + 1 else i)
  {
    ghost var es, outs := cin.arguments, cout.arguments;
    ContextNotATarget(cin, outs);
    var v := cin.GetAtIndex(i).value;
    assert v == es[i];
    if Separate(es, outs) {
      Apart(es, outs, i);
    }
    ghost var raw := ParsedOf(v.1);
    label pre:
    o := Transfer(v, cout, es, raw);
    if Separate(es, outs) {
      InputsKept@pre(es, all);
      if o.Pass? {
        Kept@pre(Keys(es), outs, all, i, es);
      } else {
        assert unchanged@pre(Targets(outs));
      }
    }
  }

  /** How the auto-parser's rounds end gives `AutoParsed`: the rounds that passed stored
      the raw values `all` the inputs had at the start. */
  twostate lemma Finished(es: seq<Entry>, new outs: seq<Entry>, new all: seq<Result<Obj>>, new o: Outcome, new done: nat)
    requires old(allocated(outs)) && old(allocated(all))
    requires old(AllValid(es)) && all == old(ParsedAll(es))
    requires Progress(es, outs, all, o, done) && (o.Pass? <==> done == |es|)
    requires Separate(es, outs) ==> OthersUntouched(es, outs)
    ensures AutoParsed(es, outs, o, done)
  {
  }

  /** The rounds of the auto-parser from the first input pair on, until one raises or
      none is left. */
  method Rounds(cin: Context, cout: Context, ghost all: seq<Result<Obj>>) returns (o: Outcome, done: nat)
    requires cin.Valid() && cout.Valid()
    requires Progress(cin.arguments, cout.arguments, all, Pass, 0)
    modifies Written(cin.arguments, cout.arguments)
    ensures cin.arguments == old(cin.arguments) && cout.arguments == old(cout.arguments)
    ensures Progress(cin.arguments, cout.arguments, all, o, done) && (o.Pass? <==> done == |cin.arguments|)
    ensures Separate(cin.arguments, cout.arguments) ==> OthersUntouched(cin.arguments, cout.arguments)
  {
    ghost var es, outs := cin.arguments, cout.arguments;
    done := 0;
    o := Pass;
    // an exception from a round ends the loop
    while done < cin.Length() && o.Pass?
      invariant cin.arguments == es && cout.arguments == outs
      invariant Progress(es, outs, all, o, done)
      decreases |es| - done, if o.Pass? then 1 else 0
    {
      TouchedWritten(es, outs, done);
      o := Step(cin, cout, done, all);
      if o.Pass? {
        done := done + 1;
      }
    }
    if Separate(es, outs) {
      forall k | 0 <= k < |outs| && outs[k].0 !in Keys(es)
        ensures unchanged(outs[k].1.Target())
      {
        Unwritten(es, outs, k);
        assert old(allocated(outs[k].1.Target()));
      }
    }
  }

  /** The built-in auto-parser: every argument of the input context, in order, gives its raw
      value to the argument of the same name in the output context; the first lookup,
      read or store that raises ends it with that exception. */
  method AutoParse(cin: Context, cout: Context) returns (o: Outcome, ghost done: nat)
    requires cin.Valid() && cout.Valid()
    requires AllValid(cin.arguments) && AllValid(cout.arguments)
    modifies Targets(cout.arguments)
    ensures AllValid(cin.arguments) && AllValid(cout.arguments)
    ensures cout.arguments == old(cout.arguments)
    ensures AutoParsed(cin.arguments, cout.arguments, o, done)
  {
    ghost var es := cin.arguments;
    // the inputs' raw values as they were at the start
    ghost var all := ParsedAll(es);
    ContextNotATarget(cin, cout.arguments);
    var n;
    assert Written(es, cout.arguments) <= Targets(cout.arguments);
    o, n := Rounds(cin, cout, all);
    Finished(es, cout.arguments, all, o, n);
    done := n;
  }

  /** A group is fully initialised exactly when its output context has an argument at
      index 0 and some option can be found by name. */
  lemma FullyInitializedMeans(g: SettingsGroup)
    ensures g.IsFullyInitialized() <==>
              g.groupContext.Some? && g.groupContext.value.GetAtIndex(0).Ok?
              && exists n :: g.Get(n).Ok?
  {
    if g.options.Some? && |g.options.value| > 0 {
      assert g.Get(g.options.value[0].name).Ok?;
    }
  }
}
