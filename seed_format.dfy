/** `SeedFormat`: a seed written as a word of consonant-vowel syllables, one syllable per
    base-120 digit, most significant first. A syllable's value is the sum of the table
    values of its two letters: consonants count 0 to 19 and vowels 0, 20, ..., 100. A word
    is read as .NET holds it, one UTF-16 code unit at a time, so a character above U+FFFF
    is read as its two surrogates. */
module SeedFormat {
  import opened Errors
  import opened DotNet
  import BaseConverter

  /** The value of each letter 'a' to 'z'. */
  const CHAR_VALUE: seq<int> :=
    [ 0, 0, 1, 2, 20, 3, 4, 5, 40, 6, 7, 8, 9,
      10, 60, 11, 12, 13, 14, 15, 80, 16, 17, 18, 100, 19 ]

  const VOWELS: string := "aeiouy"
  const CONSONANTS: string := "bcdfghjklmnpqrstvwxz"

  const SEED_BASE: int := 120

  // ---------------------------------------------------------------- syllable helpers

  /** An ASCII letter of either case, as a code unit. */
  predicate IsLetterUnit(c: Utf16Unit) {
    'A' as int <= c <= 'Z' as int || 'a' as int <= c <= 'z' as int
  }

  /** `CharToByte`: the lower-cased code unit, truncated to its low byte, indexes the table
      from 'a'; anything that lands outside the 26 entries is an IndexOutOfRangeException. */
  function CharToByte(c: Utf16Unit): (r: Result<int>)
    ensures r.Ok? ==> 0 <= r.value <= 100
    ensures r.Err? ==> r.error == IndexOutOfRange
    ensures IsLetterUnit(c) ==> r.Ok?
  {
    var lower := UnitToLower(c);
    var index := (if lower < 256 then lower else lower % 256) - 0x61;
    if 0 <= index < |CHAR_VALUE| then Ok(CHAR_VALUE[index]) else Err(IndexOutOfRange)
  }

  /** `FromSyllable`: the sum of the two letters' values (at most 200, so the byte cast keeps it). */
  function FromSyllable(consonant: Utf16Unit, vowel: Utf16Unit): (r: Result<byte>)
    ensures r.Ok? <==> CharToByte(consonant).Ok? && CharToByte(vowel).Ok?
    ensures r.Ok? ==> r.value == CharToByte(consonant).value + CharToByte(vowel).value
    ensures r.Err? ==> r.error == IndexOutOfRange
  {
    var c :- CharToByte(consonant);
    var v :- CharToByte(vowel);
    Ok(c + v)
  }

  function ToConsonant(value: byte): (c: char)
    ensures 'b' <= c <= 'z'
  {
    CONSONANTS[value % 20]
  }

  function ToVowel(value: byte): (c: char)
    requires value < SEED_BASE
    ensures 'a' <= c <= 'y'
  {
    VOWELS[value / 20]
  }

  function ToSyllable(value: byte): (s: string)
    requires value < SEED_BASE
    ensures |s| == 2
  {
    [ToConsonant(value)] + [ToVowel(value)]
  }

  /** A syllable is a consonant followed by a vowel. */
  lemma SyllableLetters(value: byte)
    requires value < SEED_BASE
    ensures ToConsonant(value) in CONSONANTS && ToVowel(value) in VOWELS
  {
  }

  /** A lower-case letter indexes the table by its distance from 'a'. */
  lemma LowerLetterValue(c: char)
    requires IsLower(c)
    ensures CharToByte(c as int) == Ok(CHAR_VALUE[c as int - 0x61])
  {
    assert ToLower(c) == c;
    assert ((c as int) as char) == c;
  }

  lemma ConsonantValue(k: int)
    requires 0 <= k < 20
    ensures CharToByte(CONSONANTS[k] as int) == Ok(k)
  {
    var c := CONSONANTS[k];
    assert IsLower(c) && CHAR_VALUE[c as int - 0x61] == k;
    LowerLetterValue(c);
  }

  lemma VowelValue(k: int)
    requires 0 <= k < 6
    ensures CharToByte(VOWELS[k] as int) == Ok(20 * k)
  {
    var c := VOWELS[k];
    assert IsLower(c) && CHAR_VALUE[c as int - 0x61] == 20 * k;
    LowerLetterValue(c);
  }

  lemma ConsonantOf(value: byte)
    ensures CharToByte(ToConsonant(value) as int) == Ok(value % 20)
  {
    ConsonantValue(value % 20);
  }

  lemma VowelOf(value: byte)
    requires value < SEED_BASE
    ensures CharToByte(ToVowel(value) as int) == Ok(20 * (value / 20))
  {
    VowelValue(value / 20);
  }

  /** Every syllable value below 120 reads back as itself. */
  lemma SyllableRoundTrip(value: byte)
    requires value < SEED_BASE
    ensures FromSyllable(ToConsonant(value) as int, ToVowel(value) as int) == Ok(value)
  {
    var k, m := value % 20, value / 20;
    SplitAtTwenty(value);
    SyllableOf(k, m);
    assert ToConsonant(value) == CONSONANTS[k] && ToVowel(value) == VOWELS[m];
  }

  /** Consonant `k` and vowel `m` make the syllable `k + 20 * m`. */
  lemma SyllableOf(k: int, m: int)
    requires 0 <= k < 20 && 0 <= m < 6
    ensures FromSyllable(CONSONANTS[k] as int, VOWELS[m] as int) == Ok(k + 20 * m)
  {
    ConsonantValue(k);
    VowelValue(m);
    LettersSum(CONSONANTS[k] as int, VOWELS[m] as int, k, 20 * m);
  }

  lemma SplitAtTwenty(value: int)
    ensures value % 20 + 20 * (value / 20) == value
  {
  }

  /** Two letters of known values make a syllable of their sum. */
  lemma LettersSum(consonant: Utf16Unit, vowel: Utf16Unit, c: int, v: int)
    requires CharToByte(consonant) == Ok(c) && CharToByte(vowel) == Ok(v)
    ensures FromSyllable(consonant, vowel) == Ok(c + v)
  {
  }

  /** Letter case does not matter to a letter's value. */
  lemma CharToByteIgnoresCase(c: Utf16Unit)
    ensures CharToByte(UnitToLower(c)) == CharToByte(c)
  {
    if !IsSurrogate(c) {
      var lower := ToLower(c as char);
      assert (lower as int) as char == lower;
      assert ToLower(lower) == lower;
    }
  }

  lemma FromSyllableIgnoresCase(consonant: Utf16Unit, vowel: Utf16Unit)
    ensures FromSyllable(UnitToLower(consonant), UnitToLower(vowel)) == FromSyllable(consonant, vowel)
  {
    CharToByteIgnoresCase(consonant);
    CharToByteIgnoresCase(vowel);
  }

  // ---------------------------------------------------------------- specification

  /** The number of whole syllables in a word's code units: a trailing odd unit is not read. */
  function SyllableCount(w: seq<Utf16Unit>): nat {
    |w| / 2
  }

  /** The values of the syllables `k`, `k + 1`, ... of `w`, in word order, each read by
      `read`; the first unreadable syllable's error is the result. The program reads with
      `FromSyllable`; the facts about the shape of a word hold for any reader. */
  function SyllablesFrom(read: (Utf16Unit, Utf16Unit) -> Result<byte>, w: seq<Utf16Unit>, k: nat): (r: Result<seq<byte>>)
    ensures r.Ok? && k <= SyllableCount(w) ==> |r.value| == SyllableCount(w) - k
    decreases SyllableCount(w) - k
  {
    if k >= SyllableCount(w) then Ok([])
    else
      match read(w[k * 2], w[k * 2 + 1])
      case Err(e) => Err(e)
      case Ok(v) =>
        match SyllablesFrom(read, w, k + 1)
        case Err(e) => Err(e)
        case Ok(rest) => Ok([v] + rest)
  }

  /** The seed a word denotes: the syllable values of its code units read as base-120
      digits, most significant first. */
  function SeedOf(w: string): Result<int> {
    match SyllablesFrom(FromSyllable, Utf16(w), 0)
    case Err(e) => Err(e)
    case Ok(digits) => Ok(BaseConverter.BigEndianValue(digits, SEED_BASE))
  }

  /** The word for a list of base-120 digits: their syllables one after another. */
  function Word(digits: seq<byte>): (w: string)
    requires BaseConverter.DigitsBelow(digits, SEED_BASE)
    ensures |w| == 2 * |digits|
    decreases |digits|
  {
    if digits == [] then ""
    else Word(digits[..|digits| - 1]) + ToSyllable(digits[|digits| - 1])
  }

  // ---------------------------------------------------------------- operations

  /** `SeedFromWord`: the syllables are read from the last to the first, so the digit list
      is least significant first, as `ToDecimal` wants it. */
  method SeedFromWord(seedWord: string) returns (r: Result<int>)
    ensures r == SeedOf(seedWord)
    ensures r.Err? ==> r.error == IndexOutOfRange
  {
    var units := Utf16(seedWord);
    var digits: seq<byte> := [];
    var i := |units| / 2 - 1;
    while i >= 0
      invariant -1 <= i < SyllableCount(units)
      invariant SyllablesFrom(FromSyllable, units, i + 1) == Ok(BaseConverter.Reverse(digits))
      decreases i + 1
    {
      var syllable := FromSyllable(units[i * 2], units[i * 2 + 1]);
      if syllable.Err? {
        SyllableErrorSpreads(FromSyllable, units, 0, i, IndexOutOfRange);
        return Err(IndexOutOfRange);
      }
      SyllablesStep(FromSyllable, units, i, syllable.value);
      BaseConverter.ReverseSnoc(digits, syllable.value);
      digits := digits + [syllable.value];
      i := i - 1;
    }
    assert i + 1 == 0;
    var value := BaseConverter.ToDecimal(digits, SEED_BASE);
    ReversedValue(digits);
    return Ok(value);
  }

  /** `WordFromSeed`: the base-120 digits of the seed, one syllable each, joined in order. */
  method WordFromSeed(seed: int) returns (word: string)
    ensures word == Word(BaseConverter.Digits(seed, SEED_BASE))
    ensures |word| == 2 * |BaseConverter.Digits(seed, SEED_BASE)|
  {
    var digits := BaseConverter.FromDecimal(seed, SEED_BASE);
    var syllables := SyllablesOf(digits);
    word := "";
    for i := 0 to |syllables|
      invariant word == Word(digits[..i])
    {
      WordSnoc(digits, i);
      word := word + syllables[i];
    }
    assert digits[..|digits|] == digits;
  }

  /** The first loop of `WordFromSeed`: the syllable of each digit, in order. */
  method SyllablesOf(digits: seq<byte>) returns (syllables: seq<string>)
    requires BaseConverter.DigitsBelow(digits, SEED_BASE)
    ensures |syllables| == |digits|
    ensures forall k :: 0 <= k < |digits| ==> syllables[k] == ToSyllable(digits[k])
  {
    syllables := [];
    for i := 0 to |digits|
      invariant |syllables| == i
      invariant forall k :: 0 <= k < i ==> syllables[k] == ToSyllable(digits[k])
    {
      syllables := syllables + [ToSyllable(digits[i])];
    }
  }

  // ---------------------------------------------------------------- properties

  lemma SyllablesStep(read: (Utf16Unit, Utf16Unit) -> Result<byte>, w: seq<Utf16Unit>, i: nat, v: byte)
    requires i < SyllableCount(w)
    requires read(w[i * 2], w[i * 2 + 1]) == Ok(v)
    requires SyllablesFrom(read, w, i + 1).Ok?
    ensures SyllablesFrom(read, w, i) == Ok([v] + SyllablesFrom(read, w, i + 1).value)
  {
  }

  lemma SyllablesPastEnd(read: (Utf16Unit, Utf16Unit) -> Result<byte>, w: seq<Utf16Unit>, k: nat)
    requires k >= SyllableCount(w)
    ensures SyllablesFrom(read, w, k) == Ok([])
  {
  }

  /** Digits collected last syllable first, read least significant first, give the word's value. */
  lemma ReversedValue(digits: seq<byte>)
    ensures BaseConverter.LittleEndianValue(digits, SEED_BASE)
         == BaseConverter.BigEndianValue(BaseConverter.Reverse(digits), SEED_BASE)
  {
    BaseConverter.ReverseValue(BaseConverter.Reverse(digits), SEED_BASE);
    assert BaseConverter.Reverse(BaseConverter.Reverse(digits)) == digits;
  }

  lemma WordSnoc(digits: seq<byte>, i: nat)
    requires BaseConverter.DigitsBelow(digits, SEED_BASE) && i < |digits|
    ensures Word(digits[..i + 1]) == Word(digits[..i]) + ToSyllable(digits[i])
  {
    assert digits[..i + 1][..i] == digits[..i];
  }

  /** An unreadable syllable anywhere makes the whole word unreadable, and when every
      unreadable syllable raises the same error, that is the word's error. */
  lemma {:induction false} SyllableErrorSpreads(read: (Utf16Unit, Utf16Unit) -> Result<byte>, w: seq<Utf16Unit>, j: nat, i: nat, e: Error)
    requires j <= i < SyllableCount(w)
    requires read(w[i * 2], w[i * 2 + 1]).Err?
    requires forall a, b :: read(a, b).Err? ==> read(a, b).error == e
    ensures SyllablesFrom(read, w, j) == Err(e)
    decreases i - j
  {
    if j < i {
      SyllableErrorSpreads(read, w, j + 1, i, e);
    }
  }

  /** Syllable `k` of the word for `digits` is the consonant and the vowel of digit `k`. */
  lemma {:induction false} WordLetters(digits: seq<byte>, k: nat)
    requires BaseConverter.DigitsBelow(digits, SEED_BASE) && k < |digits|
    ensures Word(digits)[k * 2] == ToConsonant(digits[k])
    ensures Word(digits)[k * 2 + 1] == ToVowel(digits[k])
    decreases |digits|
  {
    var front := digits[..|digits| - 1];
    if k < |digits| - 1 {
      assert front[k] == digits[k];
      WordLetters(front, k);
    }
  }

  /** A word built from digits holds only ASCII letters, so each character is one code unit. */
  lemma WordUnits(digits: seq<byte>)
    requires BaseConverter.DigitsBelow(digits, SEED_BASE)
    ensures |Utf16(Word(digits))| == |Word(digits)|
    ensures forall i :: 0 <= i < |Word(digits)| ==> Utf16(Word(digits))[i] == Word(digits)[i] as int
  {
    var w := Word(digits);
    forall i | 0 <= i < |w|
      ensures w[i] as int < 0x1_0000
    {
      WordLetters(digits, i / 2);
      assert i == i / 2 * 2 || i == i / 2 * 2 + 1;
    }
    Utf16Plain(w);
  }

  /** The syllables of a word built from digits, given as its code units `u`, read back as
      those digits, for a reader that reads every syllable it could be given back as its value. */
  lemma {:induction false} WordSyllables(read: (Utf16Unit, Utf16Unit) -> Result<byte>, digits: seq<byte>, u: seq<Utf16Unit>, k: nat)
    requires BaseConverter.DigitsBelow(digits, SEED_BASE) && k <= |digits|
    requires |u| == |Word(digits)| && forall i :: 0 <= i < |u| ==> u[i] == Word(digits)[i] as int
    requires forall v: byte :: v < SEED_BASE ==> read(ToConsonant(v) as int, ToVowel(v) as int) == Ok(v)
    ensures SyllablesFrom(read, u, k) == Ok(digits[k..])
    decreases |digits| - k
  {
    if k < |digits| {
      WordLetters(digits, k);
      assert read(u[k * 2], u[k * 2 + 1]) == Ok(digits[k]);
      WordSyllables(read, digits, u, k + 1);
      SyllablesStep(read, u, k, digits[k]);
      assert digits[k..] == [digits[k]] + digits[k + 1..];
    } else {
      SyllablesPastEnd(read, u, k);
      assert digits[k..] == [];
    }
  }

  /** Round trip: the word for a non-negative seed reads back as that seed. */
  lemma WordRoundTrip(seed: int)
    requires seed >= 0
    ensures SeedOf(Word(BaseConverter.Digits(seed, SEED_BASE))) == Ok(seed)
  {
    var digits := BaseConverter.Digits(seed, SEED_BASE);
    BaseConverter.DigitsOfValue(seed, SEED_BASE);
    forall v: byte | v < SEED_BASE
      ensures FromSyllable(ToConsonant(v) as int, ToVowel(v) as int) == Ok(v)
    {
      SyllableRoundTrip(v);
    }
    var w := Word(digits);
    WordUnits(digits);
    assert SyllablesFrom(FromSyllable, Utf16(w), 0) == Ok(digits) by {
      WordSyllables(FromSyllable, digits, Utf16(w), 0);
      assert digits[0..] == digits;
    }
    assert BaseConverter.BigEndianValue(digits, SEED_BASE) == seed;
  }

  /** The word for 0 is "ba". */
  lemma ZeroWord()
    ensures Word(BaseConverter.Digits(0, SEED_BASE)) == "ba"
  {
  }

  /** Each syllable of a seed word is a consonant followed by a vowel. */
  lemma WordShape(seed: int, k: int)
    requires 0 <= k < |BaseConverter.Digits(seed, SEED_BASE)|
    ensures Word(BaseConverter.Digits(seed, SEED_BASE))[k * 2] in CONSONANTS
    ensures Word(BaseConverter.Digits(seed, SEED_BASE))[k * 2 + 1] in VOWELS
  {
    var digits := BaseConverter.Digits(seed, SEED_BASE);
    WordLetters(digits, k);
    SyllableLetters(digits[k]);
  }

  /** Upper-case letters read as their lower-case forms, for a reader that ignores case:
      `lower` is `w` with every code unit lowered. */
  lemma {:induction false} SyllablesIgnoreCase(read: (Utf16Unit, Utf16Unit) -> Result<byte>, w: seq<Utf16Unit>, lower: seq<Utf16Unit>, k: nat)
    requires forall a, b :: read(UnitToLower(a), UnitToLower(b)) == read(a, b)
    requires |lower| == |w| && forall i :: 0 <= i < |w| ==> lower[i] == UnitToLower(w[i])
    ensures SyllablesFrom(read, lower, k) == SyllablesFrom(read, w, k)
    decreases SyllableCount(w) - k
  {
    if k < SyllableCount(w) {
      SyllablesIgnoreCase(read, w, lower, k + 1);
      assert lower[k * 2] == UnitToLower(w[k * 2]) && lower[k * 2 + 1] == UnitToLower(w[k * 2 + 1]);
    } else {
      SyllablesPastEnd(read, lower, k);
      SyllablesPastEnd(read, w, k);
    }
  }

  lemma SeedIgnoresCase(w: string)
    ensures SeedOf(LowerString(w)) == SeedOf(w)
  {
    forall a: Utf16Unit, b: Utf16Unit
      ensures FromSyllable(UnitToLower(a), UnitToLower(b)) == FromSyllable(a, b)
    {
      FromSyllableIgnoresCase(a, b);
    }
    Utf16Lower(w);
    SyllablesIgnoreCase(FromSyllable, Utf16(w), Utf16(LowerString(w)), 0);
  }

  /** A code unit after the last whole syllable is not read. */
  lemma {:induction false} SyllablesIgnoreOddTail(read: (Utf16Unit, Utf16Unit) -> Result<byte>, w: seq<Utf16Unit>, c: Utf16Unit, k: nat)
    requires |w| % 2 == 0
    ensures SyllablesFrom(read, w + [c], k) == SyllablesFrom(read, w, k)
    decreases SyllableCount(w) - k
  {
    if k < SyllableCount(w) {
      SyllablesIgnoreOddTail(read, w, c, k + 1);
      assert (w + [c])[k * 2] == w[k * 2] && (w + [c])[k * 2 + 1] == w[k * 2 + 1];
    }
  }

  /** A word of whole syllables keeps its seed when one more character of a single code unit
      follows; a character above U+FFFF would add a whole syllable of surrogates instead. */
  lemma SeedIgnoresOddTail(w: string, c: char)
    requires |Utf16(w)| % 2 == 0 && c as int < 0x1_0000
    ensures SeedOf(w + [c]) == SeedOf(w)
  {
    var u := Utf16(w);
    Utf16Append(w, [c]);
    assert Utf16([c]) == CharUnits(c) + Utf16([]);
    assert Utf16(w + [c]) == u + [c as int];
    SyllablesIgnoreOddTail(FromSyllable, u, c as int, 0);
    assert SyllablesFrom(FromSyllable, Utf16(w + [c]), 0) == SyllablesFrom(FromSyllable, u, 0);
  }

  /** A character above U+FFFF is read as its two surrogates: in "\U{1F461}e" they form the
      first syllable, whose high surrogate 0xD83D truncates to 0x3D, below 'a', so the word is
      unreadable, and the 'e' is an odd trailing unit. */
  lemma SurrogatesRead()
    ensures Utf16("\U{1F461}e") == [0xD83D, 0xDC61, 'e' as int]
    ensures SeedOf("\U{1F461}e") == Err(IndexOutOfRange)
  {
    assert Utf16("\U{1F461}e") == CharUnits('\U{1F461}') + Utf16("e");
    assert Utf16("e") == CharUnits('e') + Utf16("");
    assert CharToByte(0xD83D).Err?;
  }
}
