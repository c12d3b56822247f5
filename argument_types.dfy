/** The `ArgumentType` interface over the concrete argument classes, and
    `FreeListArgumentType`, a list of arguments of one scalar kind, which is itself an
    argument (so both live here). */
module ArgumentTypes {
  import opened Errors
  import opened DotNet
  import opened Objects
  import opened ListText
  import Arguments
  import opened IntegerArguments
  import opened LongArguments
  import opened StringArguments
  import opened BoolArguments
  import opened SingleSelectArguments
  import opened MultiSelectArguments
  import opened SelectListArguments

  // ---------------------------------------------------------------- scalar arguments

  /** The kind and bounds of a single-value argument: what decides the texts and values it
      accepts. */
  datatype Kind =
    | IntegerKind(min: int32, max: int32)
    | UIntegerKind(umin: uint32, umax: uint32)
    | LongKind(lmin: int64, lmax: int64)
    | ULongKind(ulmin: uint64, ulmax: uint64)
    | StringKind(minLength: uint32, maxLength: uint32)
    | BoolKind
  {
    /** What `SetValue(s)` stores, or the exception it raises: the kind's parser of `Arguments`. */
    function ParseText(s: string): Result<Obj> {
      match this
      case IntegerKind(lo, hi) => (match Arguments.ParseInteger(s, lo, hi) case Ok(v) => Ok(IntObj(v)) case Err(e) => Err(e))
      case UIntegerKind(lo, hi) => (match Arguments.ParseUInteger(s, lo, hi) case Ok(v) => Ok(UIntObj(v)) case Err(e) => Err(e))
      case LongKind(lo, hi) => (match Arguments.ParseLong(s, lo, hi) case Ok(v) => Ok(LongObj(v)) case Err(e) => Err(e))
      case ULongKind(lo, hi) => (match Arguments.ParseULong(s, lo, hi) case Ok(v) => Ok(ULongObj(v)) case Err(e) => Err(e))
      case StringKind(lo, hi) => (match Arguments.ParseString(s, lo, hi) case Ok(v) => Ok(StringObj(v)) case Err(e) => Err(e))
      case BoolKind => (match DotNet.ParseBool(s) case Ok(v) => Ok(BoolObj(v)) case Err(e) => Err(e))
    }

    /** Whether `SetParsedValue(x)` stores `x`: a value of the kind's own type within its bounds. */
    predicate Accepts(x: Obj) {
      match this
      case IntegerKind(lo, hi) => x.IntObj? && lo <= x.i <= hi
      case UIntegerKind(lo, hi) => x.UIntObj? && lo <= x.u <= hi
      case LongKind(lo, hi) => x.LongObj? && lo <= x.l <= hi
      case ULongKind(lo, hi) => x.ULongObj? && lo <= x.ul <= hi
      case StringKind(lo, hi) => x.StringObj? && lo <= Utf16Length(x.s) <= hi
      case BoolKind => x.BoolObj?
    }
  }

  /** What `GetValue` prints for a stored value: the unsigned and long kinds print through
      an `int` cast. */
  function ObjText(x: Obj): string {
    match x
    case IntObj(v) => Show(v)
    case UIntObj(v) => Show(ToInt32(v))
    case LongObj(v) => Show(ToInt32(v))
    case ULongObj(v) => Show(ToInt32(v))
    case StringObj(v) => v
    case BoolObj(v) => BoolToString(v)
    case _ => ""
  }

  /** A stored value printed in full, as `ToString` of the value's own type does. */
  function ObjFullText(x: Obj): string {
    match x
    case IntObj(v) => Show(v)
    case UIntObj(v) => Show(v)
    case LongObj(v) => Show(v)
    case ULongObj(v) => Show(v)
    case StringObj(v) => v
    case BoolObj(v) => BoolToString(v)
    case _ => ""
  }

  /** `GetParsedValue` of a value cell: the stored value, an error while none is set. */
  function StoredParsed(stored: Option<Obj>): (r: Result<Obj>)
    ensures r.Err? <==> stored.None?
  {
    if stored.None? then Err(SettingsBuilderException) else Ok(stored.value)
  }

  /** `GetValue` of a value cell, as written. */
  function StoredText(stored: Option<Obj>): (r: Result<string>)
    ensures r.Err? <==> stored.None?
  {
    if stored.None? then Err(SettingsBuilderException) else Ok(ObjText(stored.value))
  }

  /** Printing an accepted value in full and parsing it back gives the value again. */
  lemma FullTextParses(k: Kind, x: Obj)
    requires k.Accepts(x)
    ensures k.ParseText(ObjFullText(x)) == Ok(x)
  {
    match k
    case IntegerKind(lo, hi) => Arguments.ParseIntegerShow(x.i, lo, hi);
    case UIntegerKind(lo, hi) => Arguments.ParseUIntegerShow(x.u, lo, hi);
    case LongKind(lo, hi) => Arguments.ParseLongShow(x.l, lo, hi);
    case ULongKind(lo, hi) => Arguments.ParseULongShow(x.ul, lo, hi);
    case StringKind(lo, hi) =>
    case BoolKind => BoolToStringParses(x.b);
  }

  /** What `GetValue` prints is the full text exactly when the value fits in an `int`. */
  lemma TextIsFullText(x: Obj)
    ensures ObjText(x) == ObjFullText(x) <==>
      match x
      case UIntObj(v) => v <= INT32_MAX
      case LongObj(v) => INT32_MIN <= v <= INT32_MAX
      case ULongObj(v) => v <= INT32_MAX
      case _ => true
  {
    match x
    case UIntObj(v) => ShowInjective(ToInt32(v), v);
    case LongObj(v) => ShowInjective(ToInt32(v), v);
    case ULongObj(v) => ShowInjective(ToInt32(v), v);
    case _ =>
  }

  lemma ShowInjective(m: int, n: int)
    ensures Show(m) == Show(n) <==> m == n
  {
    if Show(m) == Show(n) {
      ShowParses(m);
      ShowParses(n);
    }
  }

  /** A reference to one of the single-value argument classes. */
  datatype Scalar =
    | IntegerArg(integer: IntegerArgumentType)
    | UIntegerArg(uinteger: UnsignedIntegerArgumentType)
    | LongArg(long: LongArgumentType)
    | ULongArg(ulong: UnsignedLongArgumentType)
    | StringArg(str: StringArgumentType)
    | BoolArg(boolean: BoolArgumentType)
  {
    /** The object behind the reference. */
    function Target(): object {
      match this
      case IntegerArg(a) => a
      case UIntegerArg(a) => a
      case LongArg(a) => a
      case ULongArg(a) => a
      case StringArg(a) => a
      case BoolArg(a) => a
    }

    /** The object's kind and bounds, fixed when it is made. */
    function Shape(): Kind {
      match this
      case IntegerArg(a) => IntegerKind(a.min, a.max)
      case UIntegerArg(a) => UIntegerKind(a.min, a.max)
      case LongArg(a) => LongKind(a.min, a.max)
      case ULongArg(a) => ULongKind(a.min, a.max)
      case StringArg(a) => StringKind(a.minLength, a.maxLength)
      case BoolArg(_) => BoolKind
    }

    /** The object's value field, boxed. */
    function Stored(): Option<Obj>
      reads Target()
    {
      match this
      case IntegerArg(a) => if a.value.None? then None else Some(IntObj(a.value.value))
      case UIntegerArg(a) => if a.value.None? then None else Some(UIntObj(a.value.value))
      case LongArg(a) => if a.value.None? then None else Some(LongObj(a.value.value))
      case ULongArg(a) => if a.value.None? then None else Some(ULongObj(a.value.value))
      case StringArg(a) => if a.value.None? then None else Some(StringObj(a.value.value))
      case BoolArg(a) => if a.value.None? then None else Some(BoolObj(a.value.value))
    }

    /** What `SetValue(s)` stores, or the exception it raises: the class's parser of
        `Arguments`, as `Shape().ParseText(s)` reads it. */
    function ParseText(s: string): Result<Obj> {
      match this
      case IntegerArg(a) => (match Arguments.ParseInteger(s, a.min, a.max) case Ok(v) => Ok(IntObj(v)) case Err(e) => Err(e))
      case UIntegerArg(a) => (match Arguments.ParseUInteger(s, a.min, a.max) case Ok(v) => Ok(UIntObj(v)) case Err(e) => Err(e))
      case LongArg(a) => (match Arguments.ParseLong(s, a.min, a.max) case Ok(v) => Ok(LongObj(v)) case Err(e) => Err(e))
      case ULongArg(a) => (match Arguments.ParseULong(s, a.min, a.max) case Ok(v) => Ok(ULongObj(v)) case Err(e) => Err(e))
      case StringArg(a) => (match Arguments.ParseString(s, a.minLength, a.maxLength) case Ok(v) => Ok(StringObj(v)) case Err(e) => Err(e))
      case BoolArg(_) => (match DotNet.ParseBool(s) case Ok(v) => Ok(BoolObj(v)) case Err(e) => Err(e))
    }

    ghost predicate Valid()
      reads Target()
      ensures Valid() && Stored().Some? ==> Shape().Accepts(Stored().value)
    {
      match this
      case IntegerArg(a) => a.Valid()
      case UIntegerArg(a) => a.Valid()
      case LongArg(a) => a.Valid()
      case ULongArg(a) => a.Valid()
      case StringArg(a) => a.Valid()
      case BoolArg(a) => true
    }
  }

  /** A class parses a text exactly as its kind does. */
  lemma ShapeParses(a: Scalar, s: string)
    ensures a.ParseText(s) == a.Shape().ParseText(s)
  {
    match a
    case IntegerArg(x) => IntegerShapeParses(x, s);
    case UIntegerArg(x) => UIntegerShapeParses(x, s);
    case LongArg(x) => LongShapeParses(x, s);
    case ULongArg(x) => ULongShapeParses(x, s);
    case StringArg(x) => StringShapeParses(x, s);
    case BoolArg(x) => BoolShapeParses(x, s);
  }

  lemma IntegerShapeParses(x: IntegerArgumentType, s: string)
    ensures IntegerArg(x).ParseText(s) == IntegerArg(x).Shape().ParseText(s)
  {
  }
  lemma UIntegerShapeParses(x: UnsignedIntegerArgumentType, s: string)
    ensures UIntegerArg(x).ParseText(s) == UIntegerArg(x).Shape().ParseText(s)
  {
  }
  lemma LongShapeParses(x: LongArgumentType, s: string)
    ensures LongArg(x).ParseText(s) == LongArg(x).Shape().ParseText(s)
  {
  }
  lemma ULongShapeParses(x: UnsignedLongArgumentType, s: string)
    ensures ULongArg(x).ParseText(s) == ULongArg(x).Shape().ParseText(s)
  {
  }
  lemma StringShapeParses(x: StringArgumentType, s: string)
    ensures StringArg(x).ParseText(s) == StringArg(x).Shape().ParseText(s)
  {
  }
  lemma BoolShapeParses(x: BoolArgumentType, s: string)
    ensures BoolArg(x).ParseText(s) == BoolArg(x).Shape().ParseText(s)
  {
    assert BoolArg(x).Shape() == BoolKind;
  }

  method ScalarGetValue(a: Scalar) returns (r: Result<string>)
    requires a.Valid()
    ensures r == StoredText(a.Stored())
  {
    match a
    case IntegerArg(x) => r := x.GetValue();
    case UIntegerArg(x) => r := x.GetValue();
    case LongArg(x) => r := x.GetValue();
    case ULongArg(x) => r := x.GetValue();
    case StringArg(x) => r := x.GetValue();
    case BoolArg(x) => r := x.GetValue();
  }

  method ScalarGetParsedValue(a: Scalar) returns (r: Result<Obj>)
    ensures r == StoredParsed(a.Stored())
  {
    match a
    case IntegerArg(x) => r := x.GetParsedValue();
    case UIntegerArg(x) => r := x.GetParsedValue();
    case LongArg(x) => r := x.GetParsedValue();
    case ULongArg(x) => r := x.GetParsedValue();
    case StringArg(x) => r := x.GetParsedValue();
    case BoolArg(x) => r := x.GetParsedValue();
  }

  method ScalarSetValue(a: Scalar, s: string) returns (o: Outcome)
    requires a.Valid()
    modifies a.Target()
    ensures a.Valid()
    ensures var p := a.ParseText(s); o == (if p.Ok? then Pass else Fail(p.error))
    ensures var p := a.ParseText(s); a.Stored() == (if p.Ok? then Some(p.value) else old(a.Stored()))
  {
    match a
    case IntegerArg(x) => o := x.SetValue(s);
    case UIntegerArg(x) => o := x.SetValue(s);
    case LongArg(x) => o := x.SetValue(s);
    case ULongArg(x) => o := x.SetValue(s);
    case StringArg(x) => o := x.SetValue(s);
    case BoolArg(x) => o := x.SetValue(s);
  }

  method ScalarSetParsedValue(a: Scalar, v: Obj) returns (o: Outcome)
    requires a.Valid()
    modifies a.Target()
    ensures a.Valid()
    ensures o.Pass? <==> a.Shape().Accepts(v)
    ensures o.Pass? ==> a.Stored() == Some(v)
    ensures o.Fail? ==> unchanged(a.Target())
    ensures o.Fail? ==> o.error == if v.Null? then NullReference else SettingsArgumentException
  {
    match a
    case IntegerArg(x) => o := x.SetParsedValue(v);
    case UIntegerArg(x) => o := x.SetParsedValue(v);
    case LongArg(x) => o := x.SetParsedValue(v);
    case ULongArg(x) => o := x.SetParsedValue(v);
    case StringArg(x) => o := x.SetParsedValue(v);
    case BoolArg(x) => o := x.SetParsedValue(v);
  }

  method ScalarClone(a: Scalar) returns (c: Scalar)
    requires a.Valid()
    ensures fresh(c.Target()) && c.Valid()
    ensures c.Shape() == a.Shape() && c.Stored() == a.Stored()
  {
    match a
    case IntegerArg(x) => var y := x.Clone(); c := IntegerArg(y);
    case UIntegerArg(x) => var y := x.Clone(); c := UIntegerArg(y);
    case LongArg(x) => var y := x.Clone(); c := LongArg(y);
    case ULongArg(x) => var y := x.Clone(); c := ULongArg(y);
    case StringArg(x) => var y := x.Clone(); c := StringArg(y);
    case BoolArg(x) => var y := x.Clone(); c := BoolArg(y);
  }

  // ---------------------------------------------------------------- free lists

  /** An element of a free list: a single-value argument, held by its kind and value. */
  datatype Element = Element(kind: Kind, stored: Option<Obj>) {
    predicate Valid() {
      stored.Some? ==> kind.Accepts(stored.value)
    }
  }

  /** The current state of a single-value argument object as a list element. */
  function ElementOf(a: Scalar): (e: Element)
    reads a.Target()
    ensures e.kind == a.Shape() && e.stored == a.Stored()
  {
    Element(a.Shape(), a.Stored())
  }

  /** The pieces `FreeListArgumentType.SetValue` reads from its text: commas and opening
      brackets are dropped (closing brackets are not) and the rest is split at spaces. */
  function Tokens(value: string): (r: seq<string>)
    ensures |r| >= 1 && forall k :: 0 <= k < |r| ==> ' ' !in r[k]
  {
    Split(Without(Without(value, ','), '['), ' ')
  }

  /** Joined with spaces again, the pieces give the cleaned text back. */
  lemma TokensJoin(value: string)
    ensures Join(Tokens(value), " ") == Without(Without(value, ','), '[')
  {
    SplitJoin(Without(Without(value, ','), '['), ' ');
  }

  /** What each element's `GetValue` returns, in order. */
  function Texts(vs: seq<Element>): (r: seq<Result<string>>)
    ensures |r| == |vs| && forall k :: 0 <= k < |vs| ==> r[k] == StoredText(vs[k].stored)
  {
    seq(|vs|, k requires 0 <= k < |vs| => StoredText(vs[k].stored))
  }

  /** The elements' parsed values in order, or the first element's exception. */
  function AllParsed(vs: seq<Element>): (r: Result<seq<Obj>>)
    ensures r.Ok? <==> forall k :: 0 <= k < |vs| ==> vs[k].stored.Some?
    ensures r.Ok? ==> |r.value| == |vs| && forall k :: 0 <= k < |vs| ==> r.value[k] == vs[k].stored.value
    ensures r.Err? ==> r.error == SettingsBuilderException
    decreases |vs|
  {
    if vs == [] then Ok([])
    else
      var front :- AllParsed(vs[..|vs| - 1]);
      var last :- StoredParsed(vs[|vs| - 1].stored);
      Ok(front + [last])
  }

  /** The printing loop of `FreeListArgumentType.GetValue` as written: it runs while the
      index is below the length of the text built so far, not the number of elements. */
  function TextLoop(texts: seq<Result<string>>, out: string, i: nat): Result<string>
    decreases |texts| - i
  {
    if i >= |out| then Ok(out + "]")
    else if i >= |texts| then Err(ArgumentOutOfRange)
    else if texts[i].Err? then Err(texts[i].error)
    else TextLoop(texts, out + texts[i].value + (if i == |texts| - 1 then "" else ", "), i + 1)
  }

  /** The printing loop with the bound evidently intended: one round per element. */
  function FixedTextLoop(texts: seq<Result<string>>, out: string, i: nat): Result<string>
    decreases |texts| - i
  {
    if i >= |texts| then Ok(out + "]")
    else if texts[i].Err? then Err(texts[i].error)
    else FixedTextLoop(texts, out + texts[i].value + (if i == |texts| - 1 then "" else ", "), i + 1)
  }

  /** The texts of elements whose texts are all available. */
  function TextValues(texts: seq<Result<string>>): (r: seq<string>)
    requires forall k :: 0 <= k < |texts| ==> texts[k].Ok?
    ensures |r| == |texts| && forall k :: 0 <= k < |texts| ==> r[k] == texts[k].value
  {
    seq(|texts|, k requires 0 <= k < |texts| => texts[k].value)
  }

  /** As written, the loop overruns the elements whenever every element prints something:
      the text always stays longer than the index, so the index reaches the element
      count and the list indexer raises. An empty list fails the same way. */
  lemma {:induction false} TextLoopOverruns(texts: seq<Result<string>>, out: string, i: nat)
    requires i < |out| && i <= |texts|
    requires forall k :: 0 <= k < |texts| ==> texts[k].Ok? && texts[k].value != ""
    ensures TextLoop(texts, out, i) == Err(ArgumentOutOfRange)
    decreases |texts| - i
  {
    if i < |texts| {
      TextLoopOverruns(texts, out + texts[i].value + (if i == |texts| - 1 then "" else ", "), i + 1);
    }
  }

  /** With one round per element the loop prints the elements as a list. */
  lemma {:induction false} FixedTextLoopListed(texts: seq<Result<string>>, i: nat)
    requires i <= |texts|
    requires forall k :: 0 <= k < |texts| ==> texts[k].Ok?
    ensures FixedTextLoop(texts, "[" + Pieces(TextValues(texts), i), i) == Ok(Listed(TextValues(texts)))
    decreases |texts| - i
  {
    if i < |texts| {
      var ts := TextValues(texts);
      assert "[" + Pieces(ts, i) + texts[i].value + (if i == |texts| - 1 then "" else ", ") == "[" + Pieces(ts, i + 1);
      FixedTextLoopListed(texts, i + 1);
    }
  }

  /** The loop of `FreeListArgumentType.SetValue`: each token in turn goes to a copy of the
      element template, whose `SetValue` parses it with `parse`; the first token rejected
      ends the loop with that exception, the elements made before it kept. */
  method ParseElements(kind: Kind, parse: string -> Result<Obj>, tokens: seq<string>)
    returns (made: seq<Element>, o: Outcome)
    ensures |made| <= |tokens|
    ensures forall k :: 0 <= k < |made| ==>
              made[k].kind == kind && made[k].stored.Some? && parse(tokens[k]) == Ok(made[k].stored.value)
    ensures o.Pass? <==> forall k :: 0 <= k < |tokens| ==> parse(tokens[k]).Ok?
    ensures o.Pass? ==> |made| == |tokens|
    ensures o.Fail? ==> |made| < |tokens| && parse(tokens[|made|]) == Err(o.error)
  {
    made := [];
    for i := 0 to |tokens|
      invariant |made| == i
      invariant forall k :: 0 <= k < i ==>
                  made[k].kind == kind && made[k].stored.Some? && parse(tokens[k]) == Ok(made[k].stored.value)
    {
      var parsed := parse(tokens[i]);
      if parsed.Err? {
        return made, Fail(parsed.error);
      }
      made := made + [Element(kind, Some(parsed.value))];
    }
    return made, Pass;
  }

  /** A value the kind parses is one it accepts. */
  lemma ParsedValid(kind: Kind, s: string)
    requires kind.ParseText(s).Ok?
    ensures Element(kind, Some(kind.ParseText(s).value)).Valid()
  {
    match kind
    case IntegerKind(lo, hi) =>
    case UIntegerKind(lo, hi) =>
    case LongKind(lo, hi) =>
    case ULongKind(lo, hi) =>
    case StringKind(lo, hi) =>
    case BoolKind =>
  }

  /** What `FreeListArgumentType.SetParsedValue` is given: an object, which only clears
      the list when it is null, or a list (or array) of arguments, stored as it is. */
  datatype FreeListInput = FromObj(obj: Obj) | ArgumentList(items: seq<Element>)

  /** `vs` are the elements of kind `kind` parsed from `tokens` in order, up to the first
      token the kind rejects: `o` passes exactly when it rejects none, and then there is
      one element per token; otherwise `o` is the first rejected token's exception. */
  predicate ElementsFrom(kind: Kind, tokens: seq<string>, vs: seq<Element>, o: Outcome) {
    && |vs| <= |tokens|
    && (forall k :: 0 <= k < |vs| ==>
          vs[k].kind == kind && vs[k].stored.Some? && kind.ParseText(tokens[k]) == Ok(vs[k].stored.value))
    && (o.Pass? <==> forall k :: 0 <= k < |tokens| ==> kind.ParseText(tokens[k]).Ok?)
    && (o.Pass? ==> |vs| == |tokens|)
    && (o.Fail? ==> |vs| < |tokens| && kind.ParseText(tokens[|vs|]) == Err(o.error))
  }

  class FreeListArgumentType {
    const maxItemCount: int32
    const elementType: Kind
    var values: Option<seq<Element>>

    /** The limit is positive and every element holds a value of its own kind. */
    ghost predicate Valid()
      reads this
    {
      maxItemCount >= 1
      && (values.Some? ==> forall k :: 0 <= k < |values.value| ==> values.value[k].Valid())
    }

    /** The field assignments the constructor makes once its checks pass. */
    constructor Init(elementType: Kind, maxItemCount: int32)
      requires maxItemCount >= 1
      ensures this.elementType == elementType && this.maxItemCount == maxItemCount && values == None
      ensures Valid()
    {
      this.elementType := elementType;
      this.maxItemCount := maxItemCount;
      values := None;
    }

    /** The constructor: the limit must be positive and the template a single-value
        argument, which the list keeps as its element kind. */
    static method Create(template: ArgRef, maxItemCount: int32) returns (r: Result<FreeListArgumentType>)
      ensures r.Err? <==> maxItemCount < 1 || !template.ScalarRef?
      ensures r.Err? ==> r.error == SettingsBuilderException
      ensures r.Ok? ==> fresh(r.value) && r.value.Valid() && r.value.values.None?
      ensures r.Ok? ==> r.value.elementType == template.scalar.Shape() && r.value.maxItemCount == maxItemCount
    {
      if maxItemCount < 1 {
        return Err(SettingsBuilderException);
      }
      if !template.ScalarRef? {
        return Err(SettingsBuilderException);
      }
      var list := new FreeListArgumentType.Init(template.scalar.Shape(), maxItemCount);
      return Ok(list);
    }

    /** `GetValue` as written: see `TextLoop`. */
    method GetValue() returns (r: Result<string>)
      requires Valid()
      ensures values.None? ==> r == Err(SettingsBuilderException)
      ensures values.Some? ==> r == TextLoop(Texts(values.value), "[", 0)
    {
      if values.None? {
        return Err(SettingsBuilderException);
      }
      var vs := values.value;
      ghost var texts := Texts(vs);
      var value := "[";
      var i := 0;
      while i < |value|
        invariant i <= |vs|
        invariant TextLoop(texts, value, i) == TextLoop(texts, "[", 0)
        decreases |vs| - i
      {
        if i >= |vs| {
          return Err(ArgumentOutOfRange);
        }
        var t := StoredText(vs[i].stored);
        if t.Err? {
          return Err(t.error);
        }
        value := value + t.value + (if i == |vs| - 1 then "" else ", ");
        i := i + 1;
      }
      return Ok(value + "]");
    }

    /** `GetValue` with one round per element, which prints the elements as a list. */
    method GetValueIntended() returns (r: Result<string>)
      requires Valid()
      ensures values.None? ==> r == Err(SettingsBuilderException)
      ensures values.Some? ==> r == FixedTextLoop(Texts(values.value), "[", 0)
    {
      if values.None? {
        return Err(SettingsBuilderException);
      }
      var vs := values.value;
      ghost var texts := Texts(vs);
      var value := "[";
      for i := 0 to |vs|
        invariant FixedTextLoop(texts, value, i) == FixedTextLoop(texts, "[", 0)
      {
        var t := StoredText(vs[i].stored);
        if t.Err? {
          return Err(t.error);
        }
        value := value + t.value + (if i == |vs| - 1 then "" else ", ");
      }
      return Ok(value + "]");
    }

    /** The elements' parsed values in order; an unset list or element is an error. */
    method GetParsedValue() returns (r: Result<Obj>)
      requires Valid()
      ensures values.None? ==> r == Err(SettingsBuilderException)
      ensures values.Some? ==> r == (match AllParsed(values.value) case Ok(items) => Ok(ObjArray(items)) case Err(e) => Err(e))
    {
      if values.None? {
        return Err(SettingsBuilderException);
      }
      var vs := values.value;
      var output: seq<Obj> := [];
      for i := 0 to |vs|
        invariant AllParsed(vs[..i]) == Ok(output)
      {
        assert vs[..i + 1][..i] == vs[..i];
        var p := StoredParsed(vs[i].stored);
        if p.Err? {
          assert vs[..i + 1][i] == vs[i];
          return Err(p.error);
        }
        output := output + [p.value];
      }
      assert vs[..|vs|] == vs;
      return Ok(ObjArray(output));
    }

    /** One new element per token, parsed by the element template's kind; the first token
        the kind rejects ends it with that exception, the elements made before it kept. */
    method SetValue(value: string) returns (o: Outcome)
      requires Valid()
      modifies this
      ensures Valid() && values.Some? && ElementsFrom(elementType, Tokens(value), values.value, o)
    {
      var made;
      made, o := ParseElements(elementType, elementType.ParseText, Tokens(value));
      forall k | 0 <= k < |made|
        ensures made[k].Valid()
      {
        ParsedValid(elementType, Tokens(value)[k]);
      }
      values := Some(made);
    }

    /** A null clears the list and a list of arguments replaces it; any other object is an
        error that leaves the list as it was. */
    method SetParsedValue(x: FreeListInput) returns (o: Outcome)
      requires Valid()
      requires x.ArgumentList? ==> forall k :: 0 <= k < |x.items| ==> x.items[k].Valid()
      modifies this
      ensures Valid()
      ensures x.FromObj? && x.obj.Null? ==> o == Pass && values == None
      ensures x.ArgumentList? ==> o == Pass && values == Some(x.items)
      ensures x.FromObj? && !x.obj.Null? ==> o == Fail(SettingsArgumentException) && unchanged(this)
    {
      match x
      case FromObj(Null) =>
        values := None;
        return Pass;
      case ArgumentList(items) =>
        values := Some(items);
        return Pass;
      case FromObj(_) =>
        return Fail(SettingsArgumentException);
    }

    /** A new list with the same template and copies of the elements. */
    method Clone() returns (c: FreeListArgumentType)
      requires Valid()
      ensures fresh(c) && c.Valid()
      ensures c.maxItemCount == maxItemCount && c.elementType == elementType && c.values == values
    {
      c := new FreeListArgumentType.Init(elementType, maxItemCount);
      if values.None? {
        var o := c.SetParsedValue(FromObj(Null));
        return;
      }
      var vs := values.value;
      var copies: seq<Element> := [];
      for i := 0 to |vs|
        invariant copies == vs[..i]
      {
        copies := copies + [vs[i]];
      }
      assert vs[..|vs|] == vs;
      c.values := Some(copies);
    }
  }

  // ---------------------------------------------------------------- the interface

  /** The concrete class of an argument object, which `GetType()` compares. */
  datatype ArgClass =
    | IntegerClass | UIntegerClass | LongClass | ULongClass | StringClass | BoolClass
    | SingleSelectClass | MultiSelectClass | SelectListClass | FreeListClass

  /** A reference to an object behind the `ArgumentType` interface. */
  datatype ArgRef =
    | ScalarRef(scalar: Scalar)
    | SingleSelectRef(single: SingleSelectArgumentType)
    | MultiSelectRef(multi: MultiSelectArgumentType)
    | SelectListRef(selectList: SelectListArgumentType)
    | FreeListRef(freeList: FreeListArgumentType)
  {
    function Class(): ArgClass {
      match this
      case ScalarRef(IntegerArg(_)) => IntegerClass
      case ScalarRef(UIntegerArg(_)) => UIntegerClass
      case ScalarRef(LongArg(_)) => LongClass
      case ScalarRef(ULongArg(_)) => ULongClass
      case ScalarRef(StringArg(_)) => StringClass
      case ScalarRef(BoolArg(_)) => BoolClass
      case SingleSelectRef(_) => SingleSelectClass
      case MultiSelectRef(_) => MultiSelectClass
      case SelectListRef(_) => SelectListClass
      case FreeListRef(_) => FreeListClass
    }

    function Target(): object {
      match this
      case ScalarRef(a) => a.Target()
      case SingleSelectRef(a) => a
      case MultiSelectRef(a) => a
      case SelectListRef(a) => a
      case FreeListRef(a) => a
    }

    ghost predicate Valid()
      reads Target()
    {
      match this
      case ScalarRef(a) => a.Valid()
      case SingleSelectRef(a) => a.Valid()
      case MultiSelectRef(a) => a.Valid()
      case SelectListRef(a) => a.Valid()
      case FreeListRef(a) => a.Valid()
    }
  }

  /** Two references to the same object are the same reference: the object's class
      decides the case. */
  lemma SameTarget(a: ArgRef, b: ArgRef)
    requires a.Target() == b.Target()
    ensures a == b
  {
    match a
    case ScalarRef(x) => match x {
      case IntegerArg(_) =>
      case UIntegerArg(_) =>
      case LongArg(_) =>
      case ULongArg(_) =>
      case StringArg(_) =>
      case BoolArg(_) =>
    }
    case SingleSelectRef(_) =>
    case MultiSelectRef(_) =>
    case SelectListRef(_) =>
    case FreeListRef(_) =>
  }

  // ---------------------------------------------------------------- raw values through the interface

  /** The objects `GetParsedValue` reads: the argument, and the flag array of a multi-select. */
  function ParsedReads(a: ArgRef): set<object> {
    if a.MultiSelectRef? then {a.Target(), a.multi.selected} else {a.Target()}
  }

  /** What `GetParsedValue` returns for the argument behind `a`, or the exception it raises. */
  function ParsedOf(a: ArgRef): Result<Obj>
    requires a.Valid()
    reads a.Target(), ParsedReads(a)
  {
    match a
    case ScalarRef(x) => StoredParsed(x.Stored())
    case SingleSelectRef(x) =>
      if |x.values| > 0 && x.selectedIndex.Some? then Ok(x.AsObj(x.values[x.selectedIndex.value]))
      else Err(SettingsBuilderException)
    case MultiSelectRef(x) =>
      Ok(if x.enumType.None? then StringArray(Chosen(x.values, x.selected[..]))
         else ObjArray(EnumMembers(x.enumType.value, Chosen(x.values, x.selected[..]))))
    case SelectListRef(x) =>
      if x.enumType.None? then Err(InvalidCast)
      else Ok(ObjArray(EnumMembers(x.enumType.value, Picked(x.values, x.selectedIndexes))))
    case FreeListRef(x) =>
      if x.values.None? then Err(SettingsBuilderException)
      else match AllParsed(x.values.value) case Ok(items) => Ok(ObjArray(items)) case Err(e) => Err(e)
  }

  /** Whether `SetParsedValue(x)` on the argument behind `a` succeeds, and the exception it
      raises otherwise. It depends only on what the argument fixes when it is made. */
  function SetParsedOutcome(a: ArgRef, x: Obj): Outcome {
    match a
    case ScalarRef(s) =>
      if s.Shape().Accepts(x) then Pass else Fail(if x.Null? then NullReference else SettingsArgumentException)
    case SingleSelectRef(s) =>
      if x.Null? then Fail(NullReference)
      else if x.EnumObj? && s.enumType == Some(x.enumType) then
        (if x.name in s.values then Pass else Fail(SettingsArgumentException))
      else if x.StringObj? then (if x.s in s.values then Pass else Fail(SettingsArgumentException))
      else Fail(InvalidCast)
    case MultiSelectRef(_) => Fail(SettingsBuilderException)
    case SelectListRef(_) => Fail(SettingsBuilderException)
    case FreeListRef(_) => if x.Null? then Pass else Fail(SettingsArgumentException)
  }

  /** The state a successful `SetParsedValue(x)` leaves the argument in: a single value
      holds `x`, a single select has the first position of `x`'s name selected, and a free
      list (which only a null clears) holds no list. */
  predicate Holds(a: ArgRef, x: Obj)
    reads a.Target()
  {
    match a
    case ScalarRef(s) => s.Stored() == Some(x)
    case SingleSelectRef(s) =>
      (x.EnumObj? || x.StringObj?) && s.selectedIndex == IndexOf(s.values, if x.EnumObj? then x.name else x.s)
    case MultiSelectRef(_) => false
    case SelectListRef(_) => false
    case FreeListRef(l) => l.values.None?
  }

  /** `GetParsedValue` through the interface. */
  method GetParsed(a: ArgRef) returns (r: Result<Obj>)
    requires a.Valid()
    ensures r == ParsedOf(a)
  {
    match a
    case ScalarRef(x) => r := ScalarGetParsedValue(x);
    case SingleSelectRef(x) => r := x.GetParsedValue();
    case MultiSelectRef(x) => var v := x.GetParsedValue(); r := Ok(v);
    case SelectListRef(x) => r := x.GetParsedValue();
    case FreeListRef(x) => r := x.GetParsedValue();
  }

  /** `SetParsedValue` through the interface: the outcome `SetParsedOutcome` gives, the
      argument left as `Holds` says when it succeeds and untouched when it fails. */
  method SetParsed(a: ArgRef, x: Obj) returns (o: Outcome)
    requires a.Valid()
    modifies a.Target()
    ensures a.Valid()
    ensures o == SetParsedOutcome(a, x)
    ensures o.Pass? ==> Holds(a, x)
    ensures o.Fail? ==> unchanged(a.Target())
  {
    match a
    case ScalarRef(s) => o := ScalarSetParsedValue(s, x);
    case SingleSelectRef(s) => o := s.SetParsedValue(x);
    case MultiSelectRef(s) => o := s.SetParsedValue(x);
    case SelectListRef(s) => o := s.SetParsedValue(x);
    case FreeListRef(l) => o := l.SetParsedValue(FromObj(x));
  }

  /** An argument that took a raw value gives it back from `GetParsedValue`, except that a
      free list, which only a null can set, reads as unset, and a single select hands out
      its names in its own form (so a name given as a string comes back as a string only
      when the argument is not over an enum). */
  lemma HoldsParses(a: ArgRef, x: Obj)
    requires a.Valid() && SetParsedOutcome(a, x).Pass? && Holds(a, x)
    requires a.SingleSelectRef? ==> (a.single.enumType.None? <==> x.StringObj?)
    ensures ParsedOf(a) == if a.FreeListRef? then Err(SettingsBuilderException) else Ok(x)
  {
    match a
    case ScalarRef(s) =>
    case SingleSelectRef(s) =>
      var name := if x.EnumObj? then x.name else x.s;
      assert s.selectedIndex == IndexOf(s.values, name);
      assert s.values[s.selectedIndex.value] == name;
    case FreeListRef(_) =>
  }

  /** `Arguments.Parse`: the text parsed as the argument's class parses it; the select and
      list classes have no parser and raise an ArgumentException. */
  function Parse(value: string, a: ArgRef): (r: Result<Obj>)
    ensures a.ScalarRef? ==> r == a.scalar.Shape().ParseText(value)
    ensures !a.ScalarRef? ==> r == Err(ArgumentException)
  {
    match a
    case ScalarRef(x) => ShapeParses(x, value); x.ParseText(value)
    case _ => Err(ArgumentException)
  }

  /** `Parse` gives back every value the argument accepts from its printed form, and
      whatever it parses is a value the argument accepts. */
  lemma ParseRoundTrip(a: Scalar, x: Obj, s: string)
    ensures a.Shape().Accepts(x) ==> Parse(ObjFullText(x), ScalarRef(a)) == Ok(x)
    ensures Parse(s, ScalarRef(a)).Ok? ==> a.Shape().Accepts(Parse(s, ScalarRef(a)).value)
  {
    if a.Shape().Accepts(x) {
      FullTextParses(a.Shape(), x);
    }
    if Parse(s, ScalarRef(a)).Ok? {
      ParsedValid(a.Shape(), s);
    }
  }

  // ---------------------------------------------------------------- copying values

  /** What `to.SetValue(to.GetValue())` does to a single-value argument of kind `k` holding
      `stored`: the outcome and the value held afterwards. */
  function SelfCopy(k: Kind, stored: Option<Obj>): (Outcome, Option<Obj>) {
    match StoredText(stored)
    case Err(e) => (Fail(e), stored)
    case Ok(t) =>
      match k.ParseText(t)
      case Err(e) => (Fail(e), stored)
      case Ok(v) => (Pass, Some(v))
  }

  /** An unset argument stays unset, and a value that prints in full is stored again
      unchanged. */
  lemma SelfCopyKeeps(k: Kind, stored: Option<Obj>)
    requires stored.Some? ==> k.Accepts(stored.value) && ObjText(stored.value) == ObjFullText(stored.value)
    ensures SelfCopy(k, stored).1 == stored
    ensures SelfCopy(k, stored).0 == if stored.None? then Fail(SettingsBuilderException) else Pass
  {
    if stored.Some? {
      FullTextParses(k, stored.value);
    }
  }

  /** A long beyond the `int` range is not copied onto itself: it comes back wrapped to
      32 bits, so 4294967296 comes back as 0. */
  lemma SelfCopyWraps(v: int64, min: int64, max: int64)
    requires !(INT32_MIN <= v <= INT32_MAX) && min <= ToInt32(v) <= max
    ensures SelfCopy(LongKind(min, max), Some(LongObj(v))) == (Pass, Some(LongObj(ToInt32(v))))
    ensures ToInt32(v) != v
    ensures ToInt32(0x1_0000_0000) == 0
  {
    var w: int64 := ToInt32(v);
    assert StoredText(Some(LongObj(v))) == Ok(Show(w));
    assert LongKind(min, max).ParseText(Show(w)) == Ok(LongObj(w)) by {
      Arguments.ParseLongShow(w, min, max);
    }
    LongTextWraps(v, min, max);
  }

  method ScalarSelfCopy(a: Scalar) returns (o: Outcome)
    requires a.Valid()
    modifies a.Target()
    ensures a.Valid()
    ensures (o, a.Stored()) == SelfCopy(a.Shape(), old(a.Stored()))
  {
    var t := ScalarGetValue(a);
    if t.Err? {
      return Fail(t.error);
    }
    ShapeParses(a, t.value);
    o := ScalarSetValue(a, t.value);
  }

  method SingleSelectSelfCopy(a: SingleSelectArgumentType) returns (o: Outcome)
    requires a.Valid()
    modifies a
    ensures a.Valid()
    ensures old(a.selectedIndex).None? ==> o == Fail(SettingsBuilderException) && a.selectedIndex == None
    ensures old(a.selectedIndex).Some? ==>
              o == Pass && a.selectedIndex == IndexOf(a.values, a.values[old(a.selectedIndex).value])
  {
    var t := a.GetValue();
    if t.Err? {
      return Fail(t.error);
    }
    o := a.SetValue(t.value);
  }

  method MultiSelectSelfCopy(a: MultiSelectArgumentType) returns (o: Outcome)
    requires a.Valid()
    ensures o == Fail(if a.enumType.Some? then InvalidCast else SettingsBuilderException)
  {
    var t := a.GetValue();
    if t.Err? {
      return Fail(t.error);
    }
    o := a.SetValue(t.value);
  }

  method SelectListSelfCopy(a: SelectListArgumentType) returns (o: Outcome)
    requires a.Valid()
    ensures o == Fail(SettingsBuilderException)
  {
    var t := a.GetValue();
    o := a.SetValue(t);
  }

  /** What `GetValue` of a free list holding `values` returns. */
  function FreeListText(values: Option<seq<Element>>): Result<string> {
    if values.None? then Err(SettingsBuilderException) else TextLoop(Texts(values.value), "[", 0)
  }

  method FreeListSelfCopy(a: FreeListArgumentType) returns (o: Outcome)
    requires a.Valid()
    modifies a
    ensures a.Valid()
    ensures var t := FreeListText(old(a.values));
            t.Err? ==> o == Fail(t.error) && a.values == old(a.values)
    ensures var t := FreeListText(old(a.values));
            t.Ok? ==> a.values.Some? && ElementsFrom(a.elementType, Tokens(t.value), a.values.value, o)
  {
    var t := a.GetValue();
    if t.Err? {
      return Fail(t.error);
    }
    o := a.SetValue(t.value);
  }

  /** A free list whose elements all hold a value that prints as a non-empty text is not
      copied at all: its `GetValue` overruns the elements. */
  lemma FreeListSelfCopyFails(values: seq<Element>)
    requires forall k :: 0 <= k < |values| ==> values[k].stored.Some? && ObjText(values[k].stored.value) != ""
    ensures FreeListText(Some(values)) == Err(ArgumentOutOfRange)
  {
    TextLoopOverruns(Texts(values), "[", 0);
  }

  /** A free list whose one element prints as the empty text, such as an empty string,
      prints as "[]", whose only token is "]": copying it onto itself replaces the element
      by one parsed from "]". */
  lemma FreeListSelfCopyGarbles(e: Element)
    requires e.stored.Some? && ObjText(e.stored.value) == ""
    ensures FreeListText(Some([e])) == Ok("[]")
    ensures Tokens("[]") == ["]"]
  {
    assert Texts([e])[0] == Ok("");
    assert "[" + "" + "" == "[";
    assert TextLoop(Texts([e]), "[", 0) == TextLoop(Texts([e]), "[", 1);
    assert "[]"[1..] == "]" && "]"[1..] == "";
    assert "[]"[0] == '[' && "[]"[1] == ']';
    assert ',' !in "[]";
    assert Without("[]", '[') == "]";
    assert Split("", ' ') == [""];
    assert Split("]", ' ') == [[']'] + ""];
    assert [']'] + "" == "]";
    assert Without("[]", ',') == "[]";
  }

  /** `Arguments.CopyValue` as written: arguments of different classes are refused; for
      the same class it sets `to` from `to`'s own text, never reading `from`. */
  method CopyValue(from: ArgRef, to: ArgRef) returns (o: Outcome)
    requires to.Valid()
    modifies to.Target()
    ensures to.Valid()
    ensures from.Class() != to.Class() ==> o == Fail(SettingsArgumentException) && unchanged(to.Target())
    ensures from.Class() == to.Class() && to.ScalarRef? ==>
              (o, to.scalar.Stored()) == SelfCopy(to.scalar.Shape(), old(to.scalar.Stored()))
    ensures from.Class() == to.Class() && to.SingleSelectRef? && old(to.single.selectedIndex).None? ==>
              o == Fail(SettingsBuilderException) && to.single.selectedIndex == None
    ensures from.Class() == to.Class() && to.SingleSelectRef? && old(to.single.selectedIndex).Some? ==>
              o == Pass && to.single.selectedIndex == IndexOf(to.single.values, to.single.values[old(to.single.selectedIndex).value])
    ensures from.Class() == to.Class() && to.MultiSelectRef? ==>
              o == Fail(if to.multi.enumType.Some? then InvalidCast else SettingsBuilderException)
    ensures from.Class() == to.Class() && to.SelectListRef? ==> o == Fail(SettingsBuilderException)
    ensures from.Class() == to.Class() && to.FreeListRef? && FreeListText(old(to.freeList.values)).Err? ==>
              o == Fail(FreeListText(old(to.freeList.values)).error) && to.freeList.values == old(to.freeList.values)
    ensures from.Class() == to.Class() && to.FreeListRef? && FreeListText(old(to.freeList.values)).Ok? ==>
              to.freeList.values.Some?
              && ElementsFrom(to.freeList.elementType, Tokens(FreeListText(old(to.freeList.values)).value),
                              to.freeList.values.value, o)
  {
    if from.Class() != to.Class() {
      return Fail(SettingsArgumentException);
    }
    match to
    case ScalarRef(a) => o := ScalarSelfCopy(a);
    case SingleSelectRef(a) => o := SingleSelectSelfCopy(a);
    case MultiSelectRef(a) => o := MultiSelectSelfCopy(a);
    case SelectListRef(a) => o := SelectListSelfCopy(a);
    case FreeListRef(a) => o := FreeListSelfCopy(a);
  }

  /** Copying as evidently intended, between single-value arguments: `from`'s value goes
      to `to` when the classes match and `to`'s bounds accept it. */
  method CopyValueIntended(from: Scalar, to: Scalar) returns (o: Outcome)
    requires to.Valid()
    modifies to.Target()
    ensures to.Valid()
    ensures o.Pass? <==> ArgRef.ScalarRef(from).Class() == ArgRef.ScalarRef(to).Class()
                         && old(from.Stored()).Some? && to.Shape().Accepts(old(from.Stored()).value)
    ensures o.Pass? ==> to.Stored() == old(from.Stored())
    ensures o.Fail? ==> to.Stored() == old(to.Stored())
  {
    if ArgRef.ScalarRef(from).Class() != ArgRef.ScalarRef(to).Class() {
      return Fail(SettingsArgumentException);
    }
    var v := ScalarGetParsedValue(from);
    if v.Err? {
      return Fail(v.error);
    }
    o := ScalarSetParsedValue(to, v.value);
  }
}
