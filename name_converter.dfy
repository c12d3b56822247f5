/** `NameConverter`: the conversions between display names ("Random Hue"), ids
    ("random_hue", "source:random_hue"), C# code names ("RandomHue") and enum value
    names ("RANDOM_HUE"). Each builds its result one character at a time. */
module NameConverter {
  import opened Errors
  import opened DotNet

  // ---------------------------------------------------------------- NameToId

  /** What `NameToId` makes of one character. */
  function IdChar(c: char): (r: char)
    ensures !IsUpper(r) && !IsWhiteSpace(r)
  {
    if IsUpper(c) then ToLower(c) else if IsWhiteSpace(c) then '_' else c
  }

  /** The id of a display name: upper-case letters lowered, white space turned into '_'. */
  function IdOf(name: string): (id: string)
    ensures |id| == |name|
    ensures forall i :: 0 <= i < |name| ==> id[i] == IdChar(name[i])
  {
    seq(|name|, i requires 0 <= i < |name| => IdChar(name[i]))
  }

  method NameToId(name: string) returns (id: string)
    ensures |id| == |name|
    ensures forall i :: 0 <= i < |name| ==>
      id[i] == (if IsUpper(name[i]) then ToLower(name[i]) else if IsWhiteSpace(name[i]) then '_' else name[i])
    ensures forall i :: 0 <= i < |id| ==> !IsUpper(id[i]) && !IsWhiteSpace(id[i])
    ensures id == IdOf(name)
  {
    id := "";
    for i := 0 to |name|
      invariant |id| == i
      invariant forall k :: 0 <= k < i ==> id[k] == IdChar(name[k])
    {
      var c := name[i];
      if IsUpper(c) {
        id := id + [ToLower(c)];
      } else if IsWhiteSpace(c) {
        id := id + ['_'];
      } else {
        id := id + [c];
      }
    }
  }

  /** An id is its own id. */
  lemma IdOfIdempotent(name: string)
    ensures IdOf(IdOf(name)) == IdOf(name)
  {
  }

  // ---------------------------------------------------------------- CodeNameToId

  /** What `CodeNameToId` makes of one character; `first` says whether it opens the name. */
  function CodePiece(c: char, first: bool): (r: string)
    ensures |r| == if IsUpper(c) && !first then 2 else 1
    ensures forall i :: 0 <= i < |r| ==> !IsUpper(r[i]) && !IsWhiteSpace(r[i])
  {
    if IsUpper(c) then (if first then "" else "_") + [ToLower(c)]
    else if IsWhiteSpace(c) then "_"
    else [c]
  }

  /** The number of upper-case letters of `s` after its first character. */
  function InnerCapitals(s: string): nat
    decreases |s|
  {
    if |s| <= 1 then 0
    else InnerCapitals(s[..|s| - 1]) + (if IsUpper(s[|s| - 1]) then 1 else 0)
  }

  /** The id of a code name: every inner capital is preceded by '_' and lowered. */
  function CodeIdOf(name: string): (id: string)
    ensures |id| == |name| + InnerCapitals(name)
    ensures forall i :: 0 <= i < |id| ==> !IsUpper(id[i]) && !IsWhiteSpace(id[i])
    decreases |name|
  {
    if name == [] then ""
    else CodeIdOf(name[..|name| - 1]) + CodePiece(name[|name| - 1], |name| == 1)
  }

  method CodeNameToId(name: string) returns (id: string)
    ensures id == CodeIdOf(name)
    ensures |id| == |name| + InnerCapitals(name)
    ensures forall i :: 0 <= i < |id| ==> !IsUpper(id[i]) && !IsWhiteSpace(id[i])
  {
    id := "";
    var isFirst := true;
    for i := 0 to |name|
      invariant isFirst <==> i == 0
      invariant id == CodeIdOf(name[..i])
    {
      CodeIdStep(name, i);
      ghost var before := id;
      var c := name[i];
      if IsUpper(c) {
        id := id + (if isFirst then "" else "_");
        id := id + [ToLower(c)];
        assert id == before + ((if isFirst then "" else "_") + [ToLower(c)]);
      } else if IsWhiteSpace(c) {
        id := id + ['_'];
      } else if IsDigit(c) {
        id := id + [c];
      } else {
        id := id + [c];
      }
      assert id == before + CodePiece(c, isFirst);
      isFirst := false;
    }
    assert name[..|name|] == name;
  }

  /** One more character of the name adds its piece to the id. */
  lemma CodeIdStep(name: string, i: nat)
    requires i < |name|
    ensures CodeIdOf(name[..i + 1]) == CodeIdOf(name[..i]) + CodePiece(name[i], i == 0)
  {
    assert name[..i + 1][..i] == name[..i];
  }

  /** Without inner capitals the two conversions agree. */
  lemma {:induction false} CodeIdWithoutCapitals(name: string)
    requires forall i :: 0 < i < |name| ==> !IsUpper(name[i])
    ensures CodeIdOf(name) == IdOf(name)
    decreases |name|
  {
    if name != [] {
      var front := name[..|name| - 1];
      CodeIdWithoutCapitals(front);
      assert IdOf(name) == IdOf(front) + [IdChar(name[|name| - 1])];
    }
  }

  /** A capital after the first character is written as '_' and its lower-case form. */
  lemma CodeIdSplitsAtCapital(front: string, c: char)
    requires front != [] && IsUpper(c)
    ensures CodeIdOf(front + [c]) == CodeIdOf(front) + ['_', ToLower(c)]
  {
    assert (front + [c])[..|front|] == front;
  }

  // ---------------------------------------------------------------- IdToName

  /** The position of the first ':' at or after `i`, or 0 when there is none. */
  function ColonFrom(id: string, i: nat): (r: nat)
    requires i <= |id|
    ensures r == 0 || (i <= r < |id| && id[r] == ':')
    ensures forall k :: i <= k < r ==> id[k] != ':'
    ensures r == 0 && (i > 0 || |id| == 0 || id[0] != ':') ==> forall k :: i <= k < |id| ==> id[k] != ':'
    decreases |id| - i
  {
    if i == |id| then 0 else if id[i] == ':' then i else ColonFrom(id, i + 1)
  }

  /** The rest of a name after its first letter: "_x" becomes " X" and a final '_' is dropped. */
  function NameTail(s: string): (r: string)
    ensures |r| <= |s|
    decreases |s|
  {
    if s == [] then ""
    else if s[0] == '_' then
      if |s| == 1 then "" else " " + [ToUpper(s[1])] + NameTail(s[2..])
    else [s[0]] + NameTail(s[1..])
  }

  lemma Append3(a: string, b: string, c: string)
    ensures a + (b + c) == a + b + c
  {
  }

  /** One step of `NameTail` on the rest of an id from position `i`. */
  lemma NameTailStep(id: string, i: nat)
    requires i < |id|
    ensures id[i] == '_' && i == |id| - 1 ==> NameTail(id[i..]) == ""
    ensures id[i] == '_' && i < |id| - 1 ==> NameTail(id[i..]) == " " + [ToUpper(id[i + 1])] + NameTail(id[i + 2..])
    ensures id[i] != '_' ==> NameTail(id[i..]) == [id[i]] + NameTail(id[i + 1..])
  {
    var s := id[i..];
    if id[i] == '_' && i < |id| - 1 {
      assert s[2..] == id[i + 2..];
    } else if id[i] != '_' {
      assert s[1..] == id[i + 1..];
    }
  }

  /** The display name for an id: the part after the first ':' (or, without one, after the
      first character), its first letter upper-cased. Nothing to read there is an
      IndexOutOfRangeException. */
  function NameOf(id: string): (r: Result<string>)
    ensures r.Err? <==> ColonFrom(id, 0) + 1 >= |id|
    ensures r.Err? ==> r.error == IndexOutOfRange
    ensures r.Ok? ==> r.value != [] && r.value[0] == ToUpper(id[ColonFrom(id, 0) + 1])
  {
    var start := ColonFrom(id, 0) + 1;
    if start >= |id| then Err(IndexOutOfRange)
    else Ok([ToUpper(id[start])] + NameTail(id[start + 1..]))
  }

  /** The second loop of `IdToName`: appends the rest of the id from position `i`, "_x" as
      " X", to `prefix`. */
  method NameRest(id: string, i: nat, prefix: string) returns (name: string)
    requires i <= |id|
    ensures name == prefix + NameTail(id[i..])
  {
    var i := i;
    name := prefix;
    ghost var whole := prefix + NameTail(id[i..]);
    while i < |id|
      invariant i <= |id|
      invariant name + NameTail(id[i..]) == whole
      decreases |id| - i
    {
      NameTailStep(id, i);
      if id[i] == '_' {
        if i == |id| - 1 {
          break;
        }
        ghost var upper := ToUpper(id[i + 1]);
        Append3(name, " " + [upper], NameTail(id[i + 2..]));
        assert name + " " + [upper] == name + (" " + [upper]);
        name := name + [' '];
        if i + 1 < |id| {
          i := i + 1;
          name := name + [ToUpper(id[i])];
        }
      } else {
        Append3(name, [id[i]], NameTail(id[i + 1..]));
        name := name + [id[i]];
      }
      i := i + 1;
    }
    assert NameTail(id[i..]) == "";
  }

  /** `IdToName`; the `removeSourceName` flag is not read by the source either. */
  method IdToName(id: string, removeSourceName: bool) returns (r: Result<string>)
    ensures r == NameOf(id)
  {
    if |id| == 0 {
      return Err(IndexOutOfRange);
    }
    var i := 0;
    while id[i] != ':'
      invariant 0 <= i < |id|
      invariant ColonFrom(id, i) == ColonFrom(id, 0)
      decreases |id| - i
    {
      if i == |id| - 1 {
        assert ColonFrom(id, i) == ColonFrom(id, |id|) == 0;
        i := 0;
        break;
      }
      i := i + 1;
    }
    assert i == ColonFrom(id, 0);
    i := i + 1;
    if i >= |id| {
      return Err(IndexOutOfRange);
    }
    var name := [ToUpper(id[i])];
    assert NameOf(id) == Ok(name + NameTail(id[i + 1..]));
    name := NameRest(id, i + 1, name);
    return Ok(name);
  }

  /** The rest of a title name after its first capital: lower-case words separated by
      single spaces, a capital exactly after each space, no '_', ':' or other white space. */
  predicate TitleTail(t: string) {
    && (t != [] ==> !IsUpper(t[0]) && t[|t| - 1] != ' ')
    && (forall k :: 0 <= k < |t| ==> t[k] != '_' && t[k] != ':' && (IsWhiteSpace(t[k]) ==> t[k] == ' '))
    && (forall k :: 0 < k < |t| ==> (IsUpper(t[k]) <==> t[k - 1] == ' '))
  }

  /** A display name that an id can reproduce, such as "Random Hue And Darkness". */
  predicate TitleName(name: string) {
    |name| > 0 && IsUpper(name[0]) && TitleTail(name[1..])
  }

  lemma IdOfSuffix(t: string, j: nat)
    requires j <= |t|
    ensures IdOf(t)[j..] == IdOf(t[j..])
  {
  }

  lemma TitleTailAfterLetter(t: string)
    requires TitleTail(t) && t != [] && t[0] != ' '
    ensures TitleTail(t[1..])
  {
  }

  lemma TitleTailAfterSpace(t: string)
    requires TitleTail(t) && t != [] && t[0] == ' '
    ensures |t| >= 2 && IsUpper(t[1]) && TitleTail(t[2..])
  {
    assert t[1 - 1] == ' ';
  }

  /** A space and the capital after it come back from "_" and the lowered letter. */
  lemma NameTailAtSpace(t: string)
    requires |t| >= 2 && t[0] == ' ' && IsUpper(t[1])
    requires NameTail(IdOf(t[2..])) == t[2..]
    ensures NameTail(IdOf(t)) == t
  {
    var s := IdOf(t);
    assert s[0] == '_' && s[1] == ToLower(t[1]);
    IdOfSuffix(t, 2);
    NameTailAtUnderscore(s);
    UpperLowerRoundTrip(t[1]);
    assert NameTail(s) == [' ', t[1]] + t[2..];
    assert t == [' ', t[1]] + t[2..];
  }

  /** `NameTail` turns "_" and the letter after it into a space and that letter raised. */
  lemma NameTailAtUnderscore(s: string)
    requires |s| >= 2 && s[0] == '_'
    ensures NameTail(s) == [' ', ToUpper(s[1])] + NameTail(s[2..])
  {
  }

  /** Any other character of a title tail comes back unchanged. */
  lemma NameTailAtLetter(t: string)
    requires t != [] && t[0] != '_' && !IsUpper(t[0]) && !IsWhiteSpace(t[0])
    requires NameTail(IdOf(t[1..])) == t[1..]
    ensures NameTail(IdOf(t)) == t
  {
    var s := IdOf(t);
    assert s[0] == t[0];
    IdOfSuffix(t, 1);
    assert NameTail(s) == [t[0]] + NameTail(s[1..]);
    assert t == [t[0]] + t[1..];
  }

  lemma {:induction false} NameTailOfTitle(t: string)
    requires TitleTail(t)
    ensures NameTail(IdOf(t)) == t
    decreases |t|
  {
    if t != [] {
      if t[0] == ' ' {
        TitleTailAfterSpace(t);
        NameTailOfTitle(t[2..]);
        NameTailAtSpace(t);
      } else {
        TitleTailAfterLetter(t);
        NameTailOfTitle(t[1..]);
        NameTailAtLetter(t);
      }
    }
  }

  /** Round trip: the id of a title name behind a source prefix reads back as that name. */
  lemma TitleNameRoundTrip(source: string, name: string)
    requires TitleName(name) && forall k :: 0 <= k < |source| ==> source[k] != ':'
    ensures NameOf(source + ":" + IdOf(name)) == Ok(name)
  {
    var id := source + ":" + IdOf(name);
    assert id[|source|] == ':';
    assert ColonFrom(id, 0) == |source|;
    var start := |source| + 1;
    assert id[start..] == IdOf(name);
    assert id[start] == ToLower(name[0]);
    UpperLowerRoundTrip(name[0]);
    NameTailOfTitle(name[1..]);
    IdOfSuffix(name, 1);
    assert id[start + 1..] == IdOf(name)[1..];
    assert name == [name[0]] + name[1..];
  }

  // ---------------------------------------------------------------- EnumValueToName

  function ReplaceChar(s: string, from: char, to: char): (r: string)
    ensures |r| == |s|
    ensures forall i :: 0 <= i < |s| ==> r[i] == if s[i] == from then to else s[i]
  {
    seq(|s|, i requires 0 <= i < |s| => if s[i] == from then to else s[i])
  }

  /** The enum value name after its '_' are turned into spaces and it is lowered. */
  function EnumWords(enumValue: string): (r: string)
    ensures |r| == |enumValue|
  {
    LowerString(ReplaceChar(enumValue, '_', ' '))
  }

  /** Character `i` of the display name: capitalised at the start of each word. */
  function Capitalised(words: string, i: nat): char
    requires i < |words|
  {
    if i == 0 || words[i - 1] == ' ' then ToUpper(words[i]) else words[i]
  }

  /** The display name of an enum value: lowered, spaced, and each word's first letter a
      capital; an empty value is an IndexOutOfRangeException. */
  function EnumName(enumValue: string): (r: Result<string>)
    ensures r.Err? <==> enumValue == []
    ensures r.Err? ==> r.error == IndexOutOfRange
    ensures r.Ok? ==> |r.value| == |enumValue|
    ensures r.Ok? ==> forall i :: 0 <= i < |enumValue| ==>
      r.value[i] == (var c := if enumValue[i] == '_' then ' ' else ToLower(enumValue[i]);
                     if i == 0 || enumValue[i - 1] == '_' || enumValue[i - 1] == ' ' then ToUpper(c) else c)
  {
    var words := EnumWords(enumValue);
    if words == [] then Err(IndexOutOfRange)
    else Ok(seq(|words|, i requires 0 <= i < |words| => Capitalised(words, i)))
  }

  method EnumValueToName(enumValue: string) returns (r: Result<string>)
    ensures r == EnumName(enumValue)
  {
    var words := LowerString(ReplaceChar(enumValue, '_', ' '));
    assert words == EnumWords(enumValue);
    if |words| == 0 {
      return Err(IndexOutOfRange);
    }
    var name := [ToUpper(words[0])];
    for i := 1 to |words|
      invariant |name| == i
      invariant forall k :: 0 <= k < i ==> name[k] == Capitalised(words, k)
    {
      ghost var before := name;
      if words[i - 1] == ' ' {
        name := name + [ToUpper(words[i])];
      } else {
        name := name + [words[i]];
      }
      assert name == before + [Capitalised(words, i)];
    }
    EnumNameFromCharacters(enumValue, name);
    return Ok(name);
  }

  /** A name whose every character is the capitalised character of the enum value's words
      is its display name. */
  lemma EnumNameFromCharacters(enumValue: string, name: string)
    requires enumValue != [] && |name| == |EnumWords(enumValue)|
    requires forall k :: 0 <= k < |name| ==> name[k] == Capitalised(EnumWords(enumValue), k)
    ensures EnumName(enumValue) == Ok(name)
  {
    var words := EnumWords(enumValue);
    assert name == seq(|words|, i requires 0 <= i < |words| => Capitalised(words, i));
  }

  /** The id of an enum value's display name is the id of the enum value itself. */
  lemma EnumNameId(enumValue: string)
    requires enumValue != []
    ensures IdOf(EnumName(enumValue).value) == IdOf(enumValue)
  {
    var words := EnumWords(enumValue);
    var name := EnumName(enumValue).value;
    forall i | 0 <= i < |enumValue|
      ensures IdChar(name[i]) == IdChar(enumValue[i])
    {
      var c := enumValue[i];
      var w := words[i];
      assert w == ToLower(if c == '_' then ' ' else c);
      assert name[i] == w || name[i] == ToUpper(w);
      if c == '_' {
        assert w == ' ' && name[i] == ' ';
      } else if IsUpper(c) {
        assert IsLower(w);
        assert IdChar(ToUpper(w)) == w;
      } else if IsLower(c) {
        assert w == c;
        assert IdChar(ToUpper(w)) == w;
      } else {
        assert w == c && ToUpper(w) == c;
      }
    }
  }
}
