# GAP core in Dafny

This project models the computational core of GAP, the Generative Art Producer, and proves what
that core promises. Each core class, or a class together with its unsigned or list
sibling, becomes one Dafny module named after it. The module name is usually the class name in
the plural or with its role added, so that the module and the class it holds can differ:
`SettingsGroups` holds `SettingsGroup`, `GridTransform` holds `Grid` and
`ColorReduceTransform` holds `ColorReduce`. `IntegerArguments` holds the int and uint argument
types and `LongArguments` the long and ulong ones. `ArgumentTypes` holds the argument interface,
its dispatch and the free-list type. `InceptionLayers` holds the layer tables that `DeepDream`
reads. A few modules have no class of their own in the source and hold shared definitions:
`DotNet` (the parts of the .NET base library the core relies on), `Errors`, `Objects`, `Tables`,
`Bitmaps` and `ListText`.

- **Number and seed encodings.**
  - `BaseConverter` converts digit sequences between bases up to 128.
  - `SeedFormat` writes seeds as words of base-120 consonant–vowel syllables and reads them back.
- **Name conversions.** `NameConverter` turns display names into ids and back, code names into ids, and enum values into names.
- **Settings arguments.**
  - `Arguments` holds the bounded parsers and the `Parse` and `CopyValue` dispatch.
  - Each argument type is a class: integer, long, string, bool, single select, multi select, select list and free list. A value cell holds only what the class's own parser or setter accepts. As in the program, the list limits are not enforced and the free list's elements are not checked against its element kind.
- **Settings containers.** `Context` is a unique-name argument table. `SettingsGroup` picks one option by name, and `SettingsBuilder` picks one node by name.
- **Registries.** `ObjectRegistry`, `TypeRegistry` and the ids of `ImageGeneratorDispatcher` enforce unique keys and keep their entries forever.
- **DeepDream front end.**
  - The layer tables, and the filtered and random layer selections.
  - The activation weights.
  - The parameter text handed to the Python script.
- **Image transformers.**
  - `Pixelize` works in stripes or squares mode.
  - `Grid` spreads pixels apart.
  - `ColorReduce` clears, in each channel, the bits that are set in the reduce level, in place.
  - Bitmaps are two-dimensional arrays of ARGB bytes.
- **Generators.**
  - The `WhiteNoise` preset table and its constructors.
  - The `Rectangles` image size and its occupancy grid, which hands out free rectangles until every cell is covered.

State that the program keeps in static fields is modelled as an object passed explicitly. This
covers the registries, the dispatcher's id list and the DeepDream parameters. `System.Random`
is an oracle: it may return any value in the requested range. Exceptions become the `Err` or
`Fail` cases of `Result` and `Outcome`, tagged with the exception's class.

## Model

| member | source | states |
|---|---|---|
| BaseConverter.ToDecimal | GAP/core/util/BaseConverter.cs:40-48 | the result is the little-endian value of the digits: digit `i` weighs `inputBase` to the power `i`, and no digits give 0 |
| BaseConverter.FromDecimal | GAP/core/util/BaseConverter.cs:57-69 | 0 gives the single digit 0; a positive input gives digits below the base, most significant first, with no leading zero, whose value is the input; a negative input gives no digits |
| BaseConverter.Convert | GAP/core/util/BaseConverter.cs:19-31 | an input base outside 1..128 or an output base outside 2..128 is an ArgumentException; otherwise the result is `FromDecimal(ToDecimal(input))`, its digits are below the output base, and read back reversed they have the input's value |
| BaseConverter.RoundTrip | GAP/core/util/BaseConverter.cs:40-68 | for `n >= 0` and a base of at least 2, reading the reversed digits of `n` with `ToDecimal` gives `n` back |
| BaseConverter.ReverseValue | GAP/core/util/BaseConverter.cs:28-30 | reading reversed digits least significant first equals reading the digits most significant first |
| BaseConverter.LittleEndianCons | GAP/core/util/BaseConverter.cs:43-45 | a digit put in front adds itself to the base times the value of the rest |
| BaseConverter.ValueNonNegative | GAP/core/util/BaseConverter.cs:40-48 | byte digits in a non-negative base have a non-negative value |
| BaseConverter.LoopGivesDigits | GAP/core/util/BaseConverter.cs:61-68 | for a base of at least 2 the division loop finishes within `n + 1` rounds with the digits of `n` in front of the stack |
| BaseConverter.DigitsOfValue | GAP/core/util/BaseConverter.cs:61-68 | the digits the loop pushes are below the base and have the value `n` |
| BaseConverter.DigitsOfLeading | GAP/core/util/BaseConverter.cs:61-68 | for a positive `n` the digits are not empty and the first is not 0 |
| BaseConverter.BaseOneNeverFinishes | GAP/core/util/BaseConverter.cs:62-66 | with base 1 the loop never finishes for a positive input, however many rounds it is allowed |
| BaseConverter.ConvertAcceptsBaseOne | GAP/core/util/BaseConverter.cs:24-30 | the base check as written accepts 1, and the conversion of any positive value then never finishes |
| SeedFormat.CharToByte | GAP/core/util/SeedFormat.cs:63 | a code unit holding a letter of either case has a table value from 0 to 100; a unit whose lowered low byte falls outside the table is an IndexOutOfRangeException |
| SeedFormat.CharToByteIgnoresCase | GAP/core/util/SeedFormat.cs:63 | a character and its lower-case form have the same value |
| SeedFormat.FromSyllable | GAP/core/util/SeedFormat.cs:61 | a syllable is readable exactly when both letters are, and its value is the sum of the two letters' values |
| SeedFormat.FromSyllableIgnoresCase | GAP/core/util/SeedFormat.cs:61-63 | lower-casing the letters of a syllable does not change its value |
| SeedFormat.SyllableLetters | GAP/core/util/SeedFormat.cs:64-65 | the syllable of a value below 120 is a consonant followed by a vowel |
| SeedFormat.SyllableRoundTrip | GAP/core/util/SeedFormat.cs:61-65 | the syllable written for every value below 120 reads back as that value |
| SeedFormat.SeedFromWord | GAP/core/util/SeedFormat.cs:16-25 | the result is the syllable values of the word's UTF-16 code units read as base-120 digits, most significant first; an unreadable syllable is an IndexOutOfRangeException |
| SeedFormat.WordFromSeed | GAP/core/util/SeedFormat.cs:33-49 | the word is the syllables of the seed's base-120 digits in order, two letters per digit |
| SeedFormat.SyllablesOf | GAP/core/util/SeedFormat.cs:38-40 | syllable `k` is the syllable of digit `k` |
| SeedFormat.ReversedValue | GAP/core/util/SeedFormat.cs:20-24 | digits collected from the last syllable to the first and read least significant first give the word's value |
| SeedFormat.SyllableErrorSpreads | GAP/core/util/SeedFormat.cs:20-22 | one unreadable syllable anywhere makes the whole word unreadable, with that syllable's error |
| SeedFormat.WordLetters | GAP/core/util/SeedFormat.cs:38-46 | letters `2k` and `2k + 1` of the word are the consonant and the vowel of digit `k` |
| SeedFormat.WordSyllables | GAP/core/util/SeedFormat.cs:33-49 | the syllables of a word built from digits below 120 read back as those digits |
| SeedFormat.WordRoundTrip | GAP/core/util/SeedFormat.cs:16-49 | the word for a non-negative seed reads back as that seed |
| SeedFormat.ZeroWord | GAP/core/util/SeedFormat.cs:33-49 | the word for seed 0 is "ba" |
| SeedFormat.WordShape | GAP/core/util/SeedFormat.cs:38-46 | every syllable of a seed's word is a consonant followed by a vowel |
| SeedFormat.SyllablesIgnoreCase | GAP/core/util/SeedFormat.cs:20-22 | reading the syllables of lowered code units gives the same result as reading the units |
| SeedFormat.SeedIgnoresCase | GAP/core/util/SeedFormat.cs:16-25 | a word and its lower-case form denote the same seed |
| SeedFormat.SyllablesIgnoreOddTail | GAP/core/util/SeedFormat.cs:20-22 | a code unit after the last whole syllable is not read |
| SeedFormat.SeedIgnoresOddTail | GAP/core/util/SeedFormat.cs:16-25 | a word of whole syllables with one more character of one code unit at the end denotes the same seed |
| SeedFormat.SurrogatesRead | GAP/core/util/SeedFormat.cs:16-25 | a character above U+FFFF is read as its two surrogates: "\U{1F461}e" is the units D83D, DC61, 'e', and its one syllable is an IndexOutOfRangeException |
| NameConverter.IdChar | GAP/util/NameConverter.cs:14-22 | one character of an id is never upper case and never white space |
| NameConverter.IdOf | GAP/util/NameConverter.cs:10-26 | an id has the name's length, and character `i` is what character `i` of the name becomes |
| NameConverter.NameToId | GAP/util/NameConverter.cs:10-26 | capitals are lowered, white space becomes '_', everything else is kept, position by position; the id holds no capital and no white space |
| NameConverter.IdOfIdempotent | GAP/util/NameConverter.cs:10-26 | converting an id again changes nothing |
| NameConverter.CodePiece | GAP/util/NameConverter.cs:33-45 | a capital becomes '_' and its lower-case form, or only the lower-case form when it opens the name; white space becomes '_'; no piece holds a capital or white space |
| NameConverter.CodeIdOf | GAP/util/NameConverter.cs:28-51 | the id of a code name is one character longer than the name per capital after the first character, and holds no capital and no white space |
| NameConverter.CodeNameToId | GAP/util/NameConverter.cs:28-51 | the id is the pieces of the characters in order, so it has those lengths and holds no capital and no white space |
| NameConverter.CodeIdWithoutCapitals | GAP/util/NameConverter.cs:10-51 | for a name with no capital after its first character, `CodeNameToId` and `NameToId` agree |
| NameConverter.CodeIdSplitsAtCapital | GAP/util/NameConverter.cs:33-35 | an inner capital adds '_' and its lower-case form to the id |
| NameConverter.ColonFrom | GAP/util/NameConverter.cs:56-65 | the first loop stops at the first ':', or falls back to position 0 when there is none |
| NameConverter.NameTail | GAP/util/NameConverter.cs:69-81 | the rest of a name is never longer than the rest of the id |
| NameConverter.NameTailStep | GAP/util/NameConverter.cs:70-80 | "_x" becomes " X", a final '_' ends the name, any other character is copied |
| NameConverter.NameOf | GAP/util/NameConverter.cs:53-84 | an id with no character after its first ':' (or after its first character, without one) is an IndexOutOfRangeException; otherwise the name starts with that character upper-cased |
| NameConverter.NameRest | GAP/util/NameConverter.cs:69-81 | the second loop appends the converted rest of the id |
| NameConverter.IdToName | GAP/util/NameConverter.cs:53-84 | the result is `NameOf(id)`, errors included |
| NameConverter.NameTailOfTitle | GAP/util/NameConverter.cs:69-81 | the rest of a title name, converted to an id and back, is itself |
| NameConverter.TitleNameRoundTrip | GAP/util/NameConverter.cs:10-84 | the id of a title name behind a source prefix without ':' reads back as that name |
| NameConverter.ReplaceChar | GAP/util/NameConverter.cs:87 | `Replace` swaps every occurrence of one character and keeps the rest |
| NameConverter.EnumWords | GAP/util/NameConverter.cs:87-88 | replacing and lowering keep the length |
| NameConverter.EnumName | GAP/util/NameConverter.cs:86-100 | an empty enum value is an IndexOutOfRangeException; otherwise the name has the value's length, '_' becomes ' ', and each letter is lowered except at the start of a word, where it is a capital |
| NameConverter.EnumValueToName | GAP/util/NameConverter.cs:86-100 | the result is `EnumName(enumValue)`, errors included |
| NameConverter.EnumNameFromCharacters | GAP/util/NameConverter.cs:92-97 | a name built from the capitalised characters of the words is the display name |
| NameConverter.EnumNameId | GAP/util/NameConverter.cs:10-100 | converting the display name of an enum value to an id gives the id of the enum value itself |
| Arguments.ParseInteger | GAP/util/settings/Arguments.cs:69-86 | the text is accepted exactly when it is an int within [min, max], written as `int.Parse` reads it (white space around an optional sign and decimal digits, then any run of U+0000), and then the result is that number; malformed text is a FormatException, a number outside int an OverflowException, one outside the bounds a SettingsArgumentException |
| Arguments.ParseUInteger | GAP/util/settings/Arguments.cs:106-123 | the same rule for uint |
| Arguments.ParseLong | GAP/util/settings/Arguments.cs:142-159 | the same rule for long |
| Arguments.ParseULong | GAP/util/settings/Arguments.cs:179-196 | the same rule for ulong |
| Arguments.ParseString | GAP/util/settings/Arguments.cs:314-327 | the text comes back unchanged exactly when its length in UTF-16 code units lies within [minLength, maxLength]; otherwise a SettingsArgumentException |
| Arguments.ParseStringCountsUnits | GAP/util/settings/Arguments.cs:314-327 | text without characters above U+FFFF is measured by its character count, and one character above U+FFFF is too long for a limit of 1 |
| DotNet.NulsIgnored | GAP/util/settings/Arguments.cs:73 | under `NumberStyles.Integer` a run of U+0000 at the very end of the text, after the number and any white space, changes nothing: the text parses as it would without the run |
| DotNet.NulThenBlankRejected | GAP/util/settings/Arguments.cs:73 | nothing may follow that run: a U+0000 followed by white space makes any text malformed |
| Arguments.SameNumber | GAP/util/settings/Arguments.cs:69-86 | `ParseInteger` depends on the text only through the number it denotes |
| Arguments.ParseTrailingNuls | GAP/util/settings/Arguments.cs:69-86 | a text followed by U+0000s is accepted or refused exactly as the text alone, and a U+0000 followed by white space is a FormatException; `ParseUInteger`, `ParseLong` and `ParseULong` read numbers through the same `ParseNumber` |
| Arguments.ParseIntegerShow | GAP/util/settings/Arguments.cs:69-86 | the text of an int within the bounds parses back to it |
| Arguments.ParseUIntegerShow | GAP/util/settings/Arguments.cs:106-123 | the text of a uint within the bounds parses back to it |
| Arguments.ParseLongShow | GAP/util/settings/Arguments.cs:142-159 | the text of a long within the bounds parses back to it |
| Arguments.ParseULongShow | GAP/util/settings/Arguments.cs:179-196 | the text of a ulong within the bounds parses back to it |
| IntegerArguments.IntegerArgumentType.constructor | GAP/util/settings/argumentType/IntegerArgumentType.cs:19-22 | keeps the bounds; no value is set |
| IntegerArguments.IntegerArgumentType.GetValue | GAP/util/settings/argumentType/IntegerArgumentType.cs:28-32 | an unset value is a SettingsBuilderException; otherwise the value's decimal text |
| IntegerArguments.IntegerArgumentType.GetParsedValue | GAP/util/settings/argumentType/IntegerArgumentType.cs:34-38 | an unset value is a SettingsBuilderException; otherwise the value |
| IntegerArguments.IntegerArgumentType.SetValue | GAP/util/settings/argumentType/IntegerArgumentType.cs:40-42 | stores what `ParseInteger` returns; on its exception the old value stays; the value stays within the bounds |
| IntegerArguments.IntegerArgumentType.SetParsedValue | GAP/util/settings/argumentType/IntegerArgumentType.cs:44-50 | stores the object exactly when it is an int within [min, max]; otherwise the old value stays and a null is a NullReferenceException, anything else a SettingsArgumentException |
| IntegerArguments.IntegerArgumentType.Clone | GAP/util/settings/argumentType/IntegerArgumentType.cs:52-54 | a new object with the same bounds and value |
| IntegerArguments.UnsignedIntegerArgumentType.constructor | GAP/util/settings/argumentType/IntegerArgumentType.cs:74-77 | keeps the bounds; no value is set |
| IntegerArguments.UnsignedIntegerArgumentType.GetValue | GAP/util/settings/argumentType/IntegerArgumentType.cs:83-87 | an unset value is a SettingsBuilderException; otherwise the text of the value cast to int |
| IntegerArguments.UnsignedIntegerArgumentType.GetParsedValue | GAP/util/settings/argumentType/IntegerArgumentType.cs:89-93 | an unset value is a SettingsBuilderException; otherwise the value |
| IntegerArguments.UnsignedIntegerArgumentType.SetValue | GAP/util/settings/argumentType/IntegerArgumentType.cs:95-97 | stores what `ParseUInteger` returns; on its exception the old value stays |
| IntegerArguments.UnsignedIntegerArgumentType.SetParsedValue | GAP/util/settings/argumentType/IntegerArgumentType.cs:99-105 | stores the object exactly when it is a uint within [min, max]; otherwise the old value stays |
| IntegerArguments.UnsignedIntegerArgumentType.Clone | GAP/util/settings/argumentType/IntegerArgumentType.cs:107-109 | a new object with the same bounds and value |
| IntegerArguments.SetThenGet | GAP/util/settings/argumentType/IntegerArgumentType.cs:34-50 | after a successful `SetParsedValue(v)`, `GetParsedValue` returns v |
| IntegerArguments.UnsignedTextRejected | GAP/util/settings/argumentType/IntegerArgumentType.cs:83-97 | a uint above 2^31 - 1 prints as the negative number v - 2^32, which `SetValue` rejects with an OverflowException |
| IntegerArguments.UnsignedIntegerArgumentType.GetValueIntended | GAP/util/settings/argumentType/IntegerArgumentType.cs:83-97 | printing the value itself: an unset value is a SettingsBuilderException, and a set value's text is read back by SetValue as that value |
| ArgumentTypes.StoredParsed | GAP/util/settings/argumentType/IntegerArgumentType.cs:34-38 | `GetParsedValue` of any value cell fails exactly when no value is set |
| ArgumentTypes.StoredText | GAP/util/settings/argumentType/IntegerArgumentType.cs:28-32 | `GetValue` of any value cell fails exactly when no value is set |
| ArgumentTypes.FullTextParses | GAP/util/settings/Arguments.cs:24-35 | a value a kind accepts, printed in full, parses back to itself |
| ArgumentTypes.TextIsFullText | GAP/util/settings/argumentType/LongArgumentType.cs:26 | what `GetValue` prints is the full value exactly when the value fits in an int |
| ArgumentTypes.ShapeParses | GAP/util/settings/argumentType/ArgumentType.cs:32 | each class parses a text exactly as its kind and bounds say |
| ArgumentTypes.ScalarGetValue | GAP/util/settings/argumentType/ArgumentType.cs:22 | `GetValue` through the interface is the stored value's text, or an error while none is set |
| ArgumentTypes.ScalarGetParsedValue | GAP/util/settings/argumentType/ArgumentType.cs:27 | `GetParsedValue` through the interface is the stored value, or an error while none is set |
| ArgumentTypes.ScalarSetValue | GAP/util/settings/argumentType/ArgumentType.cs:32 | `SetValue` through the interface stores the parsed text, or fails with the parser's exception and keeps the old value |
| ArgumentTypes.ScalarSetParsedValue | GAP/util/settings/argumentType/ArgumentType.cs:37 | `SetParsedValue` through the interface stores the value exactly when the kind accepts it |
| ArgumentTypes.ScalarClone | GAP/util/settings/argumentType/ArgumentType.cs:42 | `Clone` through the interface gives a new object of the same kind, bounds and value |
| ArgumentTypes.ElementOf | GAP/util/settings/argumentType/FreeListArgumentType.cs:17-18 | an element of a free list is a single-value argument's kind and value |
| ArgumentTypes.Tokens | GAP/util/settings/argumentType/FreeListArgumentType.cs:72-74 | the text is cut at spaces into at least one piece, none holding a space |
| ArgumentTypes.TokensJoin | GAP/util/settings/argumentType/FreeListArgumentType.cs:72-74 | the pieces joined with spaces are the text without ',' and '[' |
| ArgumentTypes.Texts | GAP/util/settings/argumentType/FreeListArgumentType.cs:51 | one `GetValue` per element, in order |
| ArgumentTypes.AllParsed | GAP/util/settings/argumentType/FreeListArgumentType.cs:59-69 | the parsed values of all elements in order, or an error exactly when some element is unset |
| ArgumentTypes.TextValues | GAP/util/settings/argumentType/FreeListArgumentType.cs:51 | the texts of the elements in order |
| ArgumentTypes.TextLoopOverruns | GAP/util/settings/argumentType/FreeListArgumentType.cs:50-52 | when every element prints a non-empty text, the loop runs past the last element and fails with an ArgumentOutOfRangeException |
| ArgumentTypes.FixedTextLoopListed | GAP/util/settings/argumentType/FreeListArgumentType.cs:48-56 | with one round per element, the loop prints "[" + the texts joined with ", " + "]" |
| ArgumentTypes.ParseElements | GAP/util/settings/argumentType/FreeListArgumentType.cs:76-82 | one element per token, each holding that token parsed; it succeeds exactly when every token parses; on failure the elements before the first bad token are kept and its exception is returned |
| ArgumentTypes.ParsedValid | GAP/util/settings/argumentType/FreeListArgumentType.cs:79-81 | a value a kind parses is one the kind accepts |
| ArgumentTypes.FreeListArgumentType.Init | GAP/util/settings/argumentType/FreeListArgumentType.cs:37-38 | keeps the kind and the limit; no list is set |
| ArgumentTypes.FreeListArgumentType.Create | GAP/util/settings/argumentType/FreeListArgumentType.cs:25-39 | fails with a SettingsBuilderException exactly when the limit is below 1 or the template is a select or list argument; otherwise an unset list of the template's kind |
| ArgumentTypes.FreeListArgumentType.GetValue | GAP/util/settings/argumentType/FreeListArgumentType.cs:45-57 | an unset list is a SettingsBuilderException; otherwise the result of the printing loop as written |
| ArgumentTypes.FreeListArgumentType.GetValueIntended | GAP/util/settings/argumentType/FreeListArgumentType.cs:45-57 | the printing loop with one round per element |
| ArgumentTypes.FreeListArgumentType.GetParsedValue | GAP/util/settings/argumentType/FreeListArgumentType.cs:59-69 | an unset list is a SettingsBuilderException; otherwise an array of every element's parsed value, or the first unset element's error |
| ArgumentTypes.FreeListArgumentType.SetValue | GAP/util/settings/argumentType/FreeListArgumentType.cs:71-83 | the list becomes the tokens parsed by the element kind; it succeeds exactly when every token parses; on failure the list holds the elements made before the first bad token |
| ArgumentTypes.FreeListArgumentType.SetParsedValue | GAP/util/settings/argumentType/FreeListArgumentType.cs:85-94 | null clears the list; a list or array of arguments replaces it; anything else is a SettingsArgumentException and the list stays |
| ArgumentTypes.FreeListArgumentType.Clone | GAP/util/settings/argumentType/FreeListArgumentType.cs:96-110 | a new list with the same kind, limit and elements |
| ArgumentTypes.Parse | GAP/util/settings/Arguments.cs:24-35 | a single-value argument parses the text with its kind's parser; any other argument is an ArgumentException |
| ArgumentTypes.ParseRoundTrip | GAP/util/settings/Arguments.cs:24-35 | every accepted value parses back from its full text, and everything `Parse` returns is accepted |
| ArgumentTypes.SelfCopyKeeps | GAP/util/settings/Arguments.cs:44-50 | copying an argument onto itself keeps an unset value unset (with a SettingsBuilderException) and stores a fully printed value again |
| ArgumentTypes.SelfCopyWraps | GAP/util/settings/Arguments.cs:44-50 | a long argument holding a value outside the int range holds that value wrapped to 32 bits after the self-copy, another number; 4294967296 becomes 0 |
| ArgumentTypes.ScalarSelfCopy | GAP/util/settings/Arguments.cs:49 | `to.SetValue(to.GetValue())` on a single-value argument has the outcome and value `SelfCopy` describes |
| ArgumentTypes.SingleSelectSelfCopy | GAP/util/settings/Arguments.cs:49 | on a single select it fails while nothing is selected, and otherwise selects the first entry with the selected name |
| ArgumentTypes.MultiSelectSelfCopy | GAP/util/settings/Arguments.cs:49 | on a multi select it always fails: an InvalidCastException for an enum, a SettingsBuilderException otherwise |
| ArgumentTypes.SelectListSelfCopy | GAP/util/settings/Arguments.cs:49 | on a select list it always fails with a SettingsBuilderException |
| ArgumentTypes.FreeListSelfCopy | GAP/util/settings/Arguments.cs:49 | on a free list it fails, keeping the list, when `GetValue` fails; otherwise the new elements are those parsed from the tokens of the printed text, up to the first token the kind rejects, and the copy passes exactly when every token parses |
| ArgumentTypes.FreeListSelfCopyFails | GAP/util/settings/Arguments.cs:49 | a free list whose elements all print non-empty texts is never copied: `GetValue` overruns |
| ArgumentTypes.FreeListSelfCopyGarbles | GAP/util/settings/Arguments.cs:49 | a free list whose one element prints as the empty text prints as "[]", whose only token is "]", so copying it onto itself stores an element parsed from "]" |
| ArgumentTypes.CopyValue | GAP/util/settings/Arguments.cs:44-50 | arguments of different classes are a SettingsArgumentException and leave `to` unchanged; otherwise `to` is set from its own text, per class as above (a free list's new elements are parsed from the tokens of its printed text), and `from` is never read |
| ArgumentTypes.GetParsed | GAP/util/settings/argumentType/ArgumentType.cs:24-27 | `GetParsedValue` of any argument gives the raw value, or the exception, that the argument's class gives for its current state |
| ArgumentTypes.SetParsed | GAP/util/settings/argumentType/ArgumentType.cs:34-37 | `SetParsedValue` of any argument passes exactly when its class accepts the raw value, then holds it; a refused value changes nothing |
| ArgumentTypes.HoldsParses | GAP/util/settings/argumentType/ArgumentType.cs:24-37 | a raw value an argument accepted and holds is what its `GetParsedValue` gives back, except for a free list, which takes only a null this way and is then unset, so reading it back is a SettingsBuilderException |
| ArgumentTypes.CopyValueIntended | GAP/util/settings/Arguments.cs:44-50 | copying as evidently intended succeeds exactly when the classes match, `from` holds a value and `to`'s bounds accept it; then `to` holds `from`'s value, otherwise its own |
| LongArguments.LongArgumentType.constructor | GAP/util/settings/argumentType/LongArgumentType.cs:14-17 | keeps the bounds; no value is set |
| LongArguments.LongArgumentType.GetValue | GAP/util/settings/argumentType/LongArgumentType.cs:23-27 | an unset value is a SettingsBuilderException; otherwise the text of the value cast to int |
| LongArguments.LongArgumentType.GetParsedValue | GAP/util/settings/argumentType/LongArgumentType.cs:29-33 | an unset value is a SettingsBuilderException; otherwise the value |
| LongArguments.LongArgumentType.SetValue | GAP/util/settings/argumentType/LongArgumentType.cs:35-37 | stores what `ParseLong` returns; on its exception the old value stays |
| LongArguments.LongArgumentType.SetParsedValue | GAP/util/settings/argumentType/LongArgumentType.cs:39-45 | stores the object exactly when it is a long within [min, max]; otherwise the old value stays |
| LongArguments.LongArgumentType.Clone | GAP/util/settings/argumentType/LongArgumentType.cs:47-53 | a new object with the same bounds and value |
| LongArguments.UnsignedLongArgumentType.constructor | GAP/util/settings/argumentType/LongArgumentType.cs:73-76 | keeps the bounds; no value is set |
| LongArguments.UnsignedLongArgumentType.GetValue | GAP/util/settings/argumentType/LongArgumentType.cs:82-86 | an unset value is a SettingsBuilderException; otherwise the text of the value cast to int |
| LongArguments.UnsignedLongArgumentType.GetParsedValue | GAP/util/settings/argumentType/LongArgumentType.cs:88-92 | an unset value is a SettingsBuilderException; otherwise the value |
| LongArguments.UnsignedLongArgumentType.SetValue | GAP/util/settings/argumentType/LongArgumentType.cs:94-96 | stores what `ParseULong` returns; on its exception the old value stays |
| LongArguments.UnsignedLongArgumentType.SetParsedValue | GAP/util/settings/argumentType/LongArgumentType.cs:98-104 | stores the object exactly when it is a ulong within [min, max]; otherwise the old value stays |
| LongArguments.UnsignedLongArgumentType.Clone | GAP/util/settings/argumentType/LongArgumentType.cs:106-112 | a new object with the same bounds and value |
| LongArguments.LongTextWraps | GAP/util/settings/argumentType/LongArgumentType.cs:23-37 | a long outside the int range is printed as a different number, which does not parse back to it; 4294967296 prints as "0" |
| LongArguments.SetThenGet | GAP/util/settings/argumentType/LongArgumentType.cs:29-45 | after a successful `SetParsedValue(v)`, `GetParsedValue` returns v |
| LongArguments.LongArgumentType.GetValueIntended | GAP/util/settings/argumentType/LongArgumentType.cs:23-37 | printing the value itself: an unset value is a SettingsBuilderException, and a set value's text is read back by SetValue as that value |
| LongArguments.UnsignedLongArgumentType.GetValueIntended | GAP/util/settings/argumentType/LongArgumentType.cs:82-96 | printing the value itself: an unset value is a SettingsBuilderException, and a set value's text is read back by SetValue as that value |
| StringArguments.StringArgumentType.constructor | GAP/util/settings/argumentType/StringArgumentType.cs:19-22 | keeps the length bounds; no value is set |
| StringArguments.StringArgumentType.GetValue | GAP/util/settings/argumentType/StringArgumentType.cs:28-32 | an unset value is a SettingsBuilderException; otherwise the text, which `ParseString` accepts again unchanged |
| StringArguments.StringArgumentType.GetParsedValue | GAP/util/settings/argumentType/StringArgumentType.cs:34-38 | an unset value is a SettingsBuilderException; otherwise the text |
| StringArguments.StringArgumentType.SetValue | GAP/util/settings/argumentType/StringArgumentType.cs:40-42 | stores the text exactly when its length in UTF-16 code units lies within the bounds; otherwise a SettingsArgumentException and the old value stays |
| StringArguments.StringArgumentType.SetParsedValue | GAP/util/settings/argumentType/StringArgumentType.cs:44-51 | stores the object exactly when it is a string of allowed length in UTF-16 code units; otherwise the old value stays |
| StringArguments.StringArgumentType.Clone | GAP/util/settings/argumentType/StringArgumentType.cs:53-59 | a new object with the same bounds and value |
| BoolArguments.BoolArgumentType.constructor | GAP/util/settings/argumentType/BoolArgumentType.cs:16 | no value is set |
| BoolArguments.BoolArgumentType.GetValue | GAP/util/settings/argumentType/BoolArgumentType.cs:22-26 | an unset value is a SettingsBuilderException; otherwise "True" or "False" |
| BoolArguments.BoolArgumentType.GetParsedValue | GAP/util/settings/argumentType/BoolArgumentType.cs:28-32 | an unset value is a SettingsBuilderException; otherwise the value |
| BoolArguments.BoolArgumentType.SetValue | GAP/util/settings/argumentType/BoolArgumentType.cs:34-36 | stores what `bool.Parse` returns; on a FormatException the old value stays |
| BoolArguments.BoolArgumentType.SetParsedValue | GAP/util/settings/argumentType/BoolArgumentType.cs:38-42 | stores the object exactly when it is a bool; otherwise the old value stays |
| BoolArguments.BoolArgumentType.Clone | GAP/util/settings/argumentType/BoolArgumentType.cs:44-50 | a new object with the same value |
| BoolArguments.SetThenGet | GAP/util/settings/argumentType/BoolArgumentType.cs:28-42 | after `SetParsedValue(b)`, `GetParsedValue` returns b |
| SingleSelectArguments.SingleSelectArgumentType.FromValues | GAP/util/settings/argumentType/SingleSelectArgumentType.cs:19-22 | keeps the names, with no enum type and nothing selected |
| SingleSelectArguments.SingleSelectArgumentType.FromEnum | GAP/util/settings/argumentType/SingleSelectArgumentType.cs:29-37 | takes the enum type's member names, with nothing selected |
| SingleSelectArguments.SingleSelectArgumentType.AsObj | GAP/util/settings/argumentType/SingleSelectArgumentType.cs:62 | a plain list hands out the name itself, an enum list the enum member of that name |
| SingleSelectArguments.SingleSelectArgumentType.GetValue | GAP/util/settings/argumentType/SingleSelectArgumentType.cs:43-53 | succeeds exactly when the list is non-empty and something is selected, with the selected name; otherwise a SettingsBuilderException |
| SingleSelectArguments.SingleSelectArgumentType.GetParsedValue | GAP/util/settings/argumentType/SingleSelectArgumentType.cs:55-63 | the same conditions, handing out the selected name or enum member |
| SingleSelectArguments.SingleSelectArgumentType.SetValue | GAP/util/settings/argumentType/SingleSelectArgumentType.cs:65-78 | succeeds exactly when the name is in the list, and then selects its first position; otherwise a SettingsArgumentException and the selection stays |
| SingleSelectArguments.SingleSelectArgumentType.SetParsedValue | GAP/util/settings/argumentType/SingleSelectArgumentType.cs:80-87 | a member of the argument's enum type selects its name; a string selects itself; null is a NullReferenceException and any other object an InvalidCastException; a failure keeps the selection |
| SingleSelectArguments.SingleSelectArgumentType.SetIndex | GAP/util/settings/argumentType/SingleSelectArgumentType.cs:93-96 | selects the index exactly when it lies within the list; otherwise a SettingsArgumentException and the selection stays |
| SingleSelectArguments.SingleSelectArgumentType.GetIndex | GAP/util/settings/argumentType/SingleSelectArgumentType.cs:101-103 | the selected index, if any |
| SingleSelectArguments.SingleSelectArgumentType.Clone | GAP/util/settings/argumentType/SingleSelectArgumentType.cs:105-115 | fails exactly when the list is empty; otherwise a new argument with the same names, enum type and selection |
| SingleSelectArguments.ReadFresh | GAP/util/settings/argumentType/SingleSelectArgumentType.cs:17-53 | nothing is selected at first, so `GetValue` fails |
| SingleSelectArguments.SelectThenRead | GAP/util/settings/argumentType/SingleSelectArgumentType.cs:43-103 | after `SetIndex(i)`, `GetIndex` is i and `GetValue` is the name at i |
| MultiSelectArguments.Chosen | GAP/util/settings/argumentType/MultiSelectArgumentType.cs:64-70 | the names whose flag is set, in list order; never more than the names |
| MultiSelectArguments.Toggled | GAP/util/settings/argumentType/MultiSelectArgumentType.cs:167 | flag i flipped and every other flag kept |
| MultiSelectArguments.EnumMembers | GAP/util/settings/argumentType/MultiSelectArgumentType.cs:76-78 | one enum member per name, in order |
| MultiSelectArguments.MultiSelectArgumentType.FromValues | GAP/util/settings/argumentType/MultiSelectArgumentType.cs:39-43 | keeps the names, with no enum type and a new array of cleared flags, one per name |
| MultiSelectArguments.MultiSelectArgumentType.FromEnum | GAP/util/settings/argumentType/MultiSelectArgumentType.cs:26-37 | takes the enum type's member names, with a new array of cleared flags |
| MultiSelectArguments.MultiSelectArgumentType.GetParsedValue | GAP/util/settings/argumentType/MultiSelectArgumentType.cs:63-81 | the chosen names, as strings for a list of names, as enum members for an enum |
| MultiSelectArguments.MultiSelectArgumentType.GetValue | GAP/util/settings/argumentType/MultiSelectArgumentType.cs:49-61 | the chosen names printed as "[a, b]"; for an enum the cast to string[] fails with an InvalidCastException |
| MultiSelectArguments.MultiSelectArgumentType.SetValue | GAP/util/settings/argumentType/MultiSelectArgumentType.cs:83-87 | always a SettingsBuilderException |
| MultiSelectArguments.MultiSelectArgumentType.SetParsedValue | GAP/util/settings/argumentType/MultiSelectArgumentType.cs:185-189 | always a SettingsBuilderException |
| MultiSelectArguments.MultiSelectArgumentType.SetValueByName | GAP/util/settings/argumentType/MultiSelectArgumentType.cs:92-100 | sets the flag of the first position holding the name to the state; an unknown name changes nothing |
| MultiSelectArguments.MultiSelectArgumentType.SetValueAt | GAP/util/settings/argumentType/MultiSelectArgumentType.cs:106-111 | sets flag index to the state exactly when the index lies within the list; otherwise a SettingsArgumentException and nothing changes |
| MultiSelectArguments.MultiSelectArgumentType.SelectValueByName | GAP/util/settings/argumentType/MultiSelectArgumentType.cs:116-124 | sets the flag of the first position holding the name; an unknown name changes nothing |
| MultiSelectArguments.MultiSelectArgumentType.SelectValueAt | GAP/util/settings/argumentType/MultiSelectArgumentType.cs:130-135 | sets flag index exactly when it lies within the list; otherwise a SettingsArgumentException |
| MultiSelectArguments.MultiSelectArgumentType.DeselectValueByName | GAP/util/settings/argumentType/MultiSelectArgumentType.cs:140-148 | clears the flag of the first position holding the name; an unknown name changes nothing |
| MultiSelectArguments.MultiSelectArgumentType.DeselectValueAt | GAP/util/settings/argumentType/MultiSelectArgumentType.cs:154-159 | clears flag index exactly when it lies within the list; otherwise a SettingsArgumentException |
| MultiSelectArguments.MultiSelectArgumentType.ToggleValueByName | GAP/util/settings/argumentType/MultiSelectArgumentType.cs:164-172 | flips the flag of the first position holding the name; an unknown name changes nothing |
| MultiSelectArguments.MultiSelectArgumentType.ToggleValueAt | GAP/util/settings/argumentType/MultiSelectArgumentType.cs:178-183 | flips flag index exactly when it lies within the list; otherwise a SettingsArgumentException |
| MultiSelectArguments.MultiSelectArgumentType.Clone | GAP/util/settings/argumentType/MultiSelectArgumentType.cs:191-201 | a new argument over the same names and enum type, with the flags copied into a new array |
| MultiSelectArguments.ToggleTwice | GAP/util/settings/argumentType/MultiSelectArgumentType.cs:164-183 | toggling the same flag twice restores every flag |
| MultiSelectArguments.NothingChosen | GAP/util/settings/argumentType/MultiSelectArgumentType.cs:36-43 | with every flag cleared nothing is chosen |
| MultiSelectArguments.EverythingChosen | GAP/util/settings/argumentType/MultiSelectArgumentType.cs:63-72 | with every flag set every name is chosen, in list order |
| MultiSelectArguments.ChosenMembers | GAP/util/settings/argumentType/MultiSelectArgumentType.cs:63-72 | a name is chosen exactly when some position holding it has its flag set |
| MultiSelectArguments.ReadFresh | GAP/util/settings/argumentType/MultiSelectArgumentType.cs:39-72 | a new argument reads back as an empty selection |
| SelectListArguments.Picked | GAP/util/settings/argumentType/SelectListArgumentType.cs:61-62 | the names at the listed positions, in list order |
| SelectListArguments.Matches | GAP/util/settings/argumentType/SelectListArgumentType.cs:103-107 | the positions below n holding the name, ascending; none when the name is not among them |
| SelectListArguments.SelectListArgumentType.Init | GAP/util/settings/argumentType/SelectListArgumentType.cs:48-51 | keeps the names, enum type and limit; nothing is listed |
| SelectListArguments.SelectListArgumentType.FromValues | GAP/util/settings/argumentType/SelectListArgumentType.cs:43-52 | a limit below 1 is a SettingsBuilderException; otherwise a new argument over the names with nothing listed |
| SelectListArguments.SelectListArgumentType.FromEnum | GAP/util/settings/argumentType/SelectListArgumentType.cs:27-41 | a limit below 1 is a SettingsBuilderException; otherwise a new argument over the enum's member names with nothing listed |
| SelectListArguments.SelectListArgumentType.GetValue | GAP/util/settings/argumentType/SelectListArgumentType.cs:58-68 | the listed names printed as "[a, b]", in insertion order |
| SelectListArguments.SelectListArgumentType.GetParsedValue | GAP/util/settings/argumentType/SelectListArgumentType.cs:70-86 | for an enum the listed members in insertion order, duplicates included; for a list of names the cast of object[] to string[] always fails with an InvalidCastException |
| SelectListArguments.SelectListArgumentType.SetValue | GAP/util/settings/argumentType/SelectListArgumentType.cs:88-91 | always a SettingsBuilderException |
| SelectListArguments.SelectListArgumentType.SetParsedValue | GAP/util/settings/argumentType/SelectListArgumentType.cs:93-96 | always a SettingsBuilderException |
| SelectListArguments.SelectListArgumentType.AddValueByName | GAP/util/settings/argumentType/SelectListArgumentType.cs:102-110 | always fails: an IndexOutOfRangeException when the name has more UTF-16 code units than there are names, a SettingsArgumentException otherwise; the matching positions below the loop bound are appended first |
| SelectListArguments.SelectListArgumentType.AddValueByNameIntended | GAP/util/settings/argumentType/SelectListArgumentType.cs:102-110 | succeeds exactly when the name is in the list, appending its first position; otherwise a SettingsArgumentException and nothing changes |
| SelectListArguments.SelectListArgumentType.AddValue | GAP/util/settings/argumentType/SelectListArgumentType.cs:116-121 | appends the index exactly when it lies within the names; otherwise a SettingsArgumentException and nothing changes |
| SelectListArguments.SelectListArgumentType.RemoveValue | GAP/util/settings/argumentType/SelectListArgumentType.cs:126-128 | removes the entry at that list position exactly when it exists; otherwise an ArgumentOutOfRangeException and nothing changes |
| SelectListArguments.SelectListArgumentType.Clone | GAP/util/settings/argumentType/SelectListArgumentType.cs:130-140 | a new argument with the same names, enum type, limit and listed positions |
| SelectListArguments.AddByNameFailsAfterAdding | GAP/util/settings/argumentType/SelectListArgumentType.cs:102-110 | for the names ["a"], adding "a" appends position 0 and still raises |
| SelectListArguments.AddPastLimit | GAP/util/settings/argumentType/SelectListArgumentType.cs:116-121 | a list with limit 1 takes two entries: the limit is never consulted |
| Tables.Keys | GAP/util/settings/Context.cs:70 | the names of a table in insertion order |
| Tables.Find | GAP/util/settings/Context.cs:18-27 | a value is found exactly when its name is in the table, and it is the value stored under that name |
| Tables.TryAdd | GAP/util/settings/Context.cs:36 | `TryAdd` refuses exactly a name already present and otherwise appends the pair |
| Tables.TryAddFound | GAP/util/settings/Context.cs:35-38 | an added pair keeps the names distinct, is found under its name, and hides nothing found before |
| Tables.FindEntry | GAP/util/settings/Context.cs:18-27 | in a table each pair is found under its own name |
| Tables.CountIsKeys | GAP/util/settings/Context.cs:52 | the number of pairs is the number of distinct names |
| Contexts.AddedPrefix | GAP/util/settings/Context.cs:40-50 | adding pairs in bulk appends a prefix of them and keeps the names distinct |
| Contexts.AddedStops | GAP/util/settings/Context.cs:40-50 | bulk adding gets through every pair, or stops with a ContextException at the first pair whose name is already there |
| Contexts.AddedPasses | GAP/util/settings/Context.cs:40-50 | bulk adding gets through every pair exactly when all names, old and new, are different |
| Contexts.AddedFromEmpty | GAP/util/settings/Context.cs:31-33 | on an empty context the pairs all go in exactly when their names differ, and then the context holds them in order |
| Contexts.Context.Empty | GAP/util/settings/Context.cs:31-33 | a context made from no pairs is empty |
| Contexts.Context.New | GAP/util/settings/Context.cs:31-33 | fails with a ContextException exactly when two pairs share a name; otherwise a new context holding the pairs in order |
| Contexts.Context.Get | GAP/util/settings/Context.cs:18-27 | the argument under the name exactly when the name is there; otherwise a SettingsBuilderException |
| Contexts.Context.GetAtIndex | GAP/util/settings/Context.cs:68-71 | the pair added index-th exactly when the index lies below `Length`; a larger index is a ContextException, a negative one an ArgumentOutOfRangeException |
| Contexts.Context.At | GAP/util/settings/Context.cs:29 | the argument added index-th, under the same conditions as `GetAtIndex` |
| Contexts.Context.Add | GAP/util/settings/Context.cs:35-38 | a name already there is a ContextException and changes nothing; otherwise the pair is appended, is found under its name, and every other name finds what it found before |
| Contexts.Context.AddAll | GAP/util/settings/Context.cs:40-44 | the pairs are added one at a time until the first clash, as `Added` describes |
| Contexts.Context.AddContext | GAP/util/settings/Context.cs:46-50 | the other context's pairs are added in its order, as `Added` describes |
| Contexts.Context.Clone | GAP/util/settings/Context.cs:54-62 | a new context with the same names bound to the same argument objects, in the same order |
| Contexts.LengthCountsNames | GAP/util/settings/Context.cs:52 | `Length` is the number of different names |
| Contexts.AtIndexFound | GAP/util/settings/Context.cs:68-71 | the pair at a position is the one found under its name |
| SettingsGroups.OptionNames | GAP/util/settings/SettingsGroup.cs:104 | the options' names, in order |
| SettingsGroups.SettingsGroup.Init | GAP/util/settings/SettingsGroup.cs:95 | keeps the name and output context, with no options and no parser |
| SettingsGroups.SettingsGroup.Create | GAP/util/settings/SettingsGroup.cs:82-90 | a new output context filled with the pairs; a repeated name is a ContextException and no group comes out |
| SettingsGroups.SettingsGroup.New | GAP/util/settings/SettingsGroup.cs:51-63 | a missing array is a SettingsBuilderException; otherwise as the public constructor |
| SettingsGroups.SettingsGroup.NewFromContext | GAP/util/settings/SettingsGroup.cs:65-75 | a missing context is a SettingsBuilderException; otherwise the group writes into that very context |
| SettingsGroups.SettingsGroup.Options | GAP/util/settings/SettingsGroup.cs:19-20 | the options, or a SettingsBuilderException while none were set |
| SettingsGroups.SettingsGroup.Get | GAP/util/settings/SettingsGroup.cs:32-44 | the option of that name exactly when there are options and one has that name; otherwise a SettingsBuilderException |
| SettingsGroups.SettingsGroup.Option | GAP/util/settings/SettingsGroup.cs:101-111 | a second option of the same name is a SettingsBuilderException that changes nothing; otherwise the option is appended and found under its name |
| SettingsGroups.SettingsGroup.OnParse | GAP/util/settings/SettingsGroup.cs:118-121 | the callback is the parser from now on; nothing else changes |
| SettingsGroups.SettingsGroup.EnableAutoParse | GAP/util/settings/SettingsGroup.cs:126-129 | auto-parsing is on from now on; nothing else changes |
| SettingsGroups.SettingsGroup.Execute | GAP/util/settings/SettingsGroup.cs:137-162 | missing options, output context or parser is a SettingsBuilderException; auto-parsing replaces the parser; an unknown option name is a SettingsBuilderException; otherwise the option's outcome if it fails, else the callback's outcome or the auto-parser's run over the group's context into the output context; the output arguments are untouched unless the option is found and passes |
| SettingsGroups.RunParser | GAP/util/settings/SettingsGroup.cs:156-157 | a failing option ends the run with its exception and writes nothing; otherwise the callback's outcome, or what the auto-parser does |
| SettingsGroups.AutoParse | GAP/util/settings/SettingsGroup.cs:25-30 | the rounds run over the input pairs in order and end at the first exception; every completed round found its name among the output pairs, and a missing name fails with a SettingsBuilderException; with separate input and output arguments, each completed round stored the input's raw value from the start in the output argument of its name, the run passes exactly when all rounds do, a failure is the failing round's lookup, read or store exception, and output arguments that no input name is for are untouched |
| SettingsGroups.Rounds | GAP/util/settings/SettingsGroup.cs:26-29 | the loop ends after every round or at the first failure, with the progress of the rounds done, writing only output arguments some input name is for |
| SettingsGroups.Step | GAP/util/settings/SettingsGroup.cs:27-28 | one round moves the progress on by one round when it passes, and otherwise records its exception; a failing round writes nothing |
| SettingsGroups.Transfer | GAP/util/settings/SettingsGroup.cs:28 | a name missing from the output context is a SettingsBuilderException; otherwise the input's raw value, or its exception, is handed to that output argument, which then holds it when the store passes |
| SettingsGroups.Deliver | GAP/util/settings/SettingsGroup.cs:28 | a read that raises gives its exception and writes nothing; otherwise the store's outcome, and on success the argument holds the value |
| SettingsGroups.Store | GAP/util/settings/SettingsGroup.cs:28 | the store's outcome is the argument's own `SetParsedValue` outcome, every argument keeps its invariant, and a failing store writes nothing |
| SettingsGroups.SettingsGroup.SetValue | GAP/util/settings/SettingsGroup.cs:172-185 | no options, or no option of that name, is a SettingsBuilderException; otherwise the outcome of the first option of that name |
| SettingsGroups.SettingsGroup.Clone | GAP/util/settings/SettingsGroup.cs:187-200 | no options is a SettingsBuilderException; otherwise a new group with the same name, parser and options and a copy of the output context |
| SettingsGroups.FullyInitializedMeans | GAP/util/settings/SettingsGroup.cs:167 | a group is fully initialised exactly when its output context has an argument at index 0 and some option is found by name |
| SettingsBuilders.NodeNames | GAP/util/settings/SettingsBuilder.cs:29 | the nodes' names, in order |
| SettingsBuilders.Built | GAP/util/settings/SettingsBuilder.cs:57-62 | the node list after `Build` as evidently intended: the nodes so far, then the added ones once |
| SettingsBuilders.BuildTwice | GAP/util/settings/SettingsBuilder.cs:57-62 | on a builder without nodes, `Build` as written holds every added node twice, which differs from the intended list |
| SettingsBuilders.SettingsBuilder.Init | GAP/util/settings/SettingsBuilder.cs:50 | keeps the name; no nodes are set |
| SettingsBuilders.SettingsBuilder.Create | GAP/util/settings/SettingsBuilder.cs:45-51 | fails with an InvalidTypeException exactly when the result type has no public parameterless constructor; otherwise a new builder without nodes |
| SettingsBuilders.SettingsBuilder.BuildNew | GAP/util/settings/SettingsBuilder.cs:68-74 | a new builder holding exactly the given nodes, under the same constructor check |
| SettingsBuilders.SettingsBuilder.Build | GAP/util/settings/SettingsBuilder.cs:57-62 | the node list becomes the old list, or the added nodes when none was set, followed by the added nodes |
| SettingsBuilders.SettingsBuilder.BuildIntended | GAP/util/settings/SettingsBuilder.cs:57-62 | the added nodes are appended once |
| SettingsBuilders.SettingsBuilder.Get | GAP/util/settings/SettingsBuilder.cs:22-36 | the first node of that name exactly when there are nodes and one has that name; otherwise a SettingsBuilderException |
| SettingsBuilders.SettingsBuilder.Execute | GAP/util/settings/SettingsBuilder.cs:83-100 | no node list, an empty one, or no node of that name is a SettingsBuilderException; otherwise the result of executing the first node of that name |
| SettingsBuilders.SettingsBuilder.Clone | GAP/util/settings/SettingsBuilder.cs:103-115 | a new builder of the same name holding a copy of each node in order, or no nodes when none were set |
| ObjectRegistries.ObjectRegistry.Empty | GAP/util/registries/ObjectRegistry.cs:16 | the registry starts empty |
| ObjectRegistries.ObjectRegistry.Get | GAP/util/registries/ObjectRegistry.cs:38-44 | the object registered under the id exactly when the id is there; otherwise a RegistryItemNotFoundException |
| ObjectRegistries.ObjectRegistry.Register | GAP/util/registries/ObjectRegistry.cs:27-32 | a new id is appended with its object, which is returned and found under the id, every other id finding what it found before; an id already there is a RegistryCouldNotAddException and changes nothing; entries are never replaced or removed |
| ObjectRegistries.ObjectRegistry.GetAll | GAP/util/registries/ObjectRegistry.cs:49-57 | every id with its object, in registration order, each id once |
| TypeRegistries.CheckReversed | GAP/core/util/registries/TypeRegistry.cs:33-35 | the check as written refuses T itself, which the intended check admits, and admits a type unrelated to T, which the intended check refuses |
| TypeRegistries.TypeRegistry.Empty | GAP/core/util/registries/TypeRegistry.cs:17 | the registry starts empty |
| TypeRegistries.TypeRegistry.BaseGet | GAP/core/util/registries/TypeRegistry.cs:46-51 | the type registered under the id exactly when the id is there; otherwise a KeyNotFoundException |
| TypeRegistries.TypeRegistry.BaseRegister | GAP/core/util/registries/TypeRegistry.cs:32-40 | a type to which T is assignable is a RegistryInvalidTypeException; then an id already there is a RegistryCouldNotAddException; otherwise the pair is appended; a failure changes nothing |
| TypeRegistries.TypeRegistry.BaseRegisterIntended | GAP/core/util/registries/TypeRegistry.cs:32-40 | with the check the right way round only types usable as a T get in, so the registry holds nothing else |
| TypeRegistries.TypeRegistry.Add | GAP/core/util/registries/TypeRegistry.cs:37-39 | an id already there is a RegistryCouldNotAddException and changes nothing; otherwise the pair is appended and found, and every other id finds what it found before |
| TypeRegistries.TypeRegistry.GetAll | GAP/core/util/registries/TypeRegistry.cs:56-64 | every id with its type, in registration order, each id once |
| ImageGeneratorDispatchers.RegisteredIds.Empty | GAP/core/ImageGeneratorDispatcher.cs:19 | no project id is registered at first |
| ImageGeneratorDispatchers.Key | GAP/core/ImageGeneratorDispatcher.cs:42 | the key is the project id, a colon, then the generator id |
| ImageGeneratorDispatchers.KeysApart | GAP/core/ImageGeneratorDispatcher.cs:42 | for project ids without ':', two keys are equal exactly when both the project ids and the generator ids are |
| ImageGeneratorDispatchers.ImageGeneratorDispatcher.Init | GAP/core/ImageGeneratorDispatcher.cs:33 | keeps the project id |
| ImageGeneratorDispatchers.ImageGeneratorDispatcher.Create | GAP/core/ImageGeneratorDispatcher.cs:26-34 | a project id already registered is a DuplicateIdException and changes nothing; otherwise it is appended, so the registered ids stay distinct |
| ImageGeneratorDispatchers.ImageGeneratorDispatcher.Register | GAP/core/ImageGeneratorDispatcher.cs:41-43 | registers the type under the prefixed key: a type without a parameterless constructor, or one the registry's type check refuses, is a RegistryInvalidTypeException; otherwise it succeeds exactly when the key is new, and the type is then found under it |
| DeepDream.Activations | GAP/machineLearning/deepdream/DeepDream.cs:176-185 | one weight per layer, none for a count of zero or less |
| DeepDream.CreateActivationsArray | GAP/machineLearning/deepdream/DeepDream.cs:176-182 | the weights of the layers joined with single spaces |
| DeepDream.ActivationsText | GAP/machineLearning/deepdream/DeepDream.cs:176-185 | split at the spaces, the weights are "6" for every layer but the last and "15" for the last; no layers give no text |
| DeepDream.FilteredMembers | GAP/machineLearning/deepdream/DeepDream.cs:192-197 | a layer survives the filter exactly when it is a layer of the network and not an ugly one |
| DeepDream.FilteredAppend | GAP/machineLearning/deepdream/DeepDream.cs:192-197 | the filter keeps network order: filtering a concatenation concatenates the filtered parts |
| DeepDream.ShowOneLine | GAP/machineLearning/deepdream/DeepDream.cs:172 | a number's text holds no line break and no space |
| DeepDream.JoinAvoids | GAP/machineLearning/deepdream/DeepDream.cs:163-165 | a character in neither the pieces nor the separator is not in their join |
| DeepDream.LayerLinesOneLine | GAP/machineLearning/deepdream/DeepDream.cs:163-168 | the layer line and the weight line hold no line break |
| DeepDream.WrittenLinesOneLine | GAP/machineLearning/deepdream/DeepDream.cs:172 | no line `SaveParameters` writes holds a line break when the text parameters hold none |
| DeepDream.DirectoryOneLine | GAP/machineLearning/deepdream/DeepDream.cs:153 | the shared directory's path holds no line break |
| DeepDream.ReadLinesOneLine | GAP/machineLearning/deepdream/DeepDream.py:37-56 | no line the Python script reads holds a line break when the text parameters hold none |
| DeepDream.WrittenTextLines | GAP/machineLearning/deepdream/DeepDream.cs:160-173 | read back line by line, the written text gives its twelve lines in written order, not the thirteen the script asserts, and its first line is the image name, which the script reads as the verbose flag |
| DeepDream.DefaultsOneLine | GAP/machineLearning/deepdream/DeepDream.cs:50-148 | the default parameters hold no line break |
| DeepDream.DefaultsMisread | GAP/machineLearning/deepdream/DeepDream.py:24-41 | with the default parameters the script's line-count assertion fails, and its verbose line is "input.jpg", not "True" |
| DeepDream.IntendedTextLines | GAP/machineLearning/deepdream/DeepDream.py:37-56 | the text in the script's order splits into exactly its thirteen lines, each where the script looks for it; the layer line splits into the layer names and the weight line into one weight per layer |
| InceptionLayers.RunsInAllLayers | GAP/machineLearning/deepdream/DeepDream.cs:123 | the runs of the network's layer table are all layers of the network |
| InceptionLayers.AlmostFinalAreLayers | GAP/machineLearning/deepdream/DeepDream.cs:123-129 | every almost final layer is a layer of the network |
| InceptionLayers.FinalAreLayers | GAP/machineLearning/deepdream/DeepDream.cs:123-135 | every final layer is a layer of the network |
| InceptionLayers.FinalNotUgly | GAP/machineLearning/deepdream/DeepDream.cs:135-142 | no final layer is an ugly one |
| InceptionLayers.TablesConsistent | GAP/machineLearning/deepdream/DeepDream.cs:123-142 | the four layer tables fit together: the preferred layers are real layers and no final layer is ugly |
| DeepDream.DeepDreamState.Init | GAP/machineLearning/deepdream/DeepDream.cs:50-148 | the static initialisers: the default parameters and the four layer tables, which fit together |
| DeepDream.DeepDreamState.CleanLayers | GAP/machineLearning/deepdream/DeepDream.cs:192-197 | the layers that are not ugly, in network order |
| DeepDream.DeepDreamState.SaveParameters | GAP/machineLearning/deepdream/DeepDream.cs:160-173 | the text written is the twelve parameter lines, in written order, joined with line breaks |
| DeepDream.DeepDreamState.RunGenerator | GAP/machineLearning/deepdream/DeepDream.cs:214-230 | the parameter text it saves for the current parameters |
| DeepDream.DeepDreamState.RunGeneratorCustom | GAP/machineLearning/deepdream/DeepDream.cs:238-248 | no layers is an InvalidLayerException (not enough layers) and an unknown layer an InvalidLayerException (unknown layer), both changing nothing; otherwise the layers become the sequence and the generator runs with them |
| DeepDream.DeepDreamState.RunGeneratorRandom | GAP/machineLearning/deepdream/DeepDream.cs:257-268 | a count of zero or less is an InvalidLayerException changing nothing; otherwise that many layers of the network become the sequence |
| DeepDream.DeepDreamState.PickListValid | GAP/machineLearning/deepdream/DeepDream.cs:293-297 | every list a pick is made from is non-empty and holds real layers only |
| DeepDream.DeepDreamState.RunGeneratorFilteredRandom | GAP/machineLearning/deepdream/DeepDream.cs:278-301 | a count of zero or less is an InvalidLayerException changing nothing; otherwise that many layers become the sequence, the last from the final layers, the one before from the almost final layers and the rest from the layers that are not ugly |
| PixelizeTransform.PlaceStripe | GAP/gap/image/transformation/transformers/Pixelize.cs:61-69 | one column of the stripe block of an input pixel is written, keeping every block written before |
| PixelizeTransform.PlaceStripes | GAP/gap/image/transformation/transformers/Pixelize.cs:61-69 | the whole three-by-three block of an input pixel is written |
| PixelizeTransform.PixelizeStripes | GAP/gap/image/transformation/transformers/Pixelize.cs:56-74 | a new image three times as wide and as high, each pixel the stripe pixel of its input pixel |
| PixelizeTransform.StripesBlock | GAP/gap/image/transformation/transformers/Pixelize.cs:61-69 | each stripe block is a red, a green and a blue column, each carrying that one channel of its input pixel, fully opaque |
| PixelizeTransform.PlaceSquares | GAP/gap/image/transformation/transformers/Pixelize.cs:81-84 | the two-by-two block of an input pixel is written, keeping every block written before |
| PixelizeTransform.PixelizeSquares | GAP/gap/image/transformation/transformers/Pixelize.cs:76-89 | a new image twice as wide and as high, each pixel the square pixel of its input pixel |
| PixelizeTransform.SquaresBlock | GAP/gap/image/transformation/transformers/Pixelize.cs:81-84 | each square block is red on the top left, blue on the bottom right and half the green, rounded down, on the other two |
| PixelizeTransform.PixelsOpaque | GAP/gap/image/transformation/transformers/Pixelize.cs:56-89 | every output pixel of either mode is fully opaque and carries at most one channel of its input pixel, never brighter than there |
| PixelizeTransform.Max3 | GAP/gap/image/transformation/transformers/Pixelize.cs:56-89 | the brightest channel of a colour |
| PixelizeTransform.Pixelize.Empty | GAP/gap/image/transformation/transformers/Pixelize.cs:24 | the pixel type keeps the enum's default, STRIPES |
| PixelizeTransform.Pixelize.Init | GAP/gap/image/transformation/transformers/Pixelize.cs:30-32 | keeps the pixel type |
| PixelizeTransform.Pixelize.TransformImage | GAP/gap/image/transformation/transformers/Pixelize.cs:39-46 | the stripe image for STRIPES and the square image otherwise |
| GridTransform.DivBelow | GAP/gap/image/transformation/transformers/Grid.cs:45-51 | an output coordinate inside the scaled image comes from a coordinate inside the input image |
| GridTransform.Multiple | GAP/gap/image/transformation/transformers/Grid.cs:51 | an output coordinate is a multiple of the scale factor exactly when it is the image of one input coordinate |
| GridTransform.MulAtLeast | GAP/gap/image/transformation/transformers/Grid.cs:45-46 | a positive multiple of the scale factor is at least the scale factor |
| GridTransform.GridSamples | GAP/gap/image/transformation/transformers/Grid.cs:49-53 | input pixel (x, y) lands inside the output at (x·s, y·s) and is kept there unchanged |
| GridTransform.GridOnlySamples | GAP/gap/image/transformation/transformers/Grid.cs:47-53 | every output pixel that is not transparent is an input pixel placed at a multiple of the scale factor in both directions |
| GridTransform.Place | GAP/gap/image/transformation/transformers/Grid.cs:51 | one step of the pass writes input pixel (x, y) at (x·s, y·s) and keeps every pixel written before |
| GridTransform.ColumnDone | GAP/gap/image/transformation/transformers/Grid.cs:49-53 | a finished column hands over to the top of the next one with nothing lost |
| GridTransform.Grid.Empty | GAP/gap/image/transformation/transformers/Grid.cs:34 | the scale factor keeps its default of 0 |
| GridTransform.Grid.Init | GAP/gap/image/transformation/transformers/Grid.cs:28 | keeps the scale factor |
| GridTransform.Grid.Create | GAP/gap/image/transformation/transformers/Grid.cs:24-29 | scale factor 0 is an ArgumentException; any other value is kept |
| GridTransform.Grid.TransformImage | GAP/gap/image/transformation/transformers/Grid.cs:41-56 | scale factor 1 returns the same image; otherwise a new image s times as large in both directions, holding each input pixel at (x·s, y·s) and transparent elsewhere; scale factor 0 fails because an empty bitmap is refused |
| GridTransform.SettingsAdmitZero | GAP/gap/image/transformation/transformers/Grid.cs:66-70 | the settings accept a scale factor of 0, which the constructor they call refuses |
| ColorReduceTransform.Clamp | GAP/gap/image/transformation/transformers/ColorReduce.cs:21 | the level is brought into 0..128, unchanged inside that range, 0 below it and 128 above it |
| ColorReduceTransform.ClearBitsBit | GAP/gap/image/transformation/transformers/ColorReduce.cs:31-33 | a bit of a reduced channel is set exactly when it is set in the channel and clear in the level, which is the meaning of the and-not |
| ColorReduceTransform.ClearBitsBelow | GAP/gap/image/transformation/transformers/ColorReduce.cs:31-33 | reducing never raises a channel, so the result is still a byte |
| ColorReduceTransform.ClearBitsIdempotent | GAP/gap/image/transformation/transformers/ColorReduce.cs:31-33 | clearing the same bits twice clears nothing more |
| ColorReduceTransform.ClearNoBits | GAP/gap/image/transformation/transformers/ColorReduce.cs:31-33 | a level with no bits set keeps the channel |
| ColorReduceTransform.ClearTopBit | GAP/gap/image/transformation/transformers/ColorReduce.cs:31-33 | clearing the single bit 2^k from a number below 2^(k+1) subtracts that bit when it is set and changes nothing otherwise |
| ColorReduceTransform.ReducedIdempotent | GAP/gap/image/transformation/transformers/ColorReduce.cs:29-35 | reducing an already reduced pixel changes nothing |
| ColorReduceTransform.ReducedDarker | GAP/gap/image/transformation/transformers/ColorReduce.cs:29-35 | no channel of a reduced pixel is brighter than before |
| ColorReduceTransform.ReducedLevelZero | GAP/gap/image/transformation/transformers/ColorReduce.cs:29-35 | level 0 keeps the colour channels and only makes the pixel opaque |
| ColorReduceTransform.ReducedLevel128 | GAP/gap/image/transformation/transformers/ColorReduce.cs:21-35 | level 128, the largest the constructor allows, drops only the most significant bit of each channel |
| ColorReduceTransform.ReducedLevel128KeepsLowBits | GAP/gap/image/transformation/transformers/ColorReduce.cs:14-17 | at level 128 a white pixel becomes (127, 127, 127) as written, where the level's description, followed by the intended reduction, gives (128, 128, 128) |
| ColorReduceTransform.ReducedIntended | GAP/gap/image/transformation/transformers/ColorReduce.cs:14-17 | the reduction the level's description promises: level 0 loses nothing, level 128 keeps only the most significant bit, no channel rises, and reducing again changes nothing |
| ColorReduceTransform.QuantizedIdempotent | GAP/gap/image/transformation/transformers/ColorReduce.cs:14-17 | rounding a channel down to a multiple of the level twice gives the same as once |
| ColorReduceTransform.QuantizedTop | GAP/gap/image/transformation/transformers/ColorReduce.cs:14-17 | at level 128 the intended reduction keeps only a byte's most significant bit |
| ColorReduceTransform.ColorReduce.Empty | GAP/gap/image/transformation/transformers/ColorReduce.cs:24 | the level keeps its default of 0 |
| ColorReduceTransform.ColorReduce.constructor | GAP/gap/image/transformation/transformers/ColorReduce.cs:20-22 | the level is the clamped argument |
| ColorReduceTransform.ColorReduce.TransformImage | GAP/gap/image/transformation/transformers/ColorReduce.cs:26-40 | every pixel of the image is replaced in place by its reduced pixel, and the same image is returned |
| WhiteNoiseGenerator.FromPreset | GAP/core/image/generation/generators/WhiteNoise.cs:122-151 | every preset gives random hue with hue and value factor 1; the saturation factor is 0 exactly for GRAYSCALE and 1 otherwise; saturation is random exactly for FULL_RANDOM and values outside the enum; brightness is random for every preset but RANDOM_HUE |
| WhiteNoiseGenerator.PresetChangesOnlySaturationAndValue | GAP/core/image/generation/generators/WhiteNoise.cs:124-148 | a preset changes only the saturation switch, the saturation factor and the brightness switch of the base settings |
| WhiteNoiseGenerator.NamedPresetsDistinct | GAP/core/image/generation/generators/WhiteNoise.cs:126-143 | the four named presets give four different settings |
| WhiteNoiseGenerator.UnnamedIsFullRandom | GAP/core/image/generation/generators/WhiteNoise.cs:140-147 | a value outside the enum is handled as FULL_RANDOM |
| WhiteNoiseGenerator.WhiteNoise.Settings | GAP/core/image/generation/generators/WhiteNoise.cs:28-40 | the six colour settings are the generator's six fields |
| WhiteNoiseGenerator.WhiteNoise.Empty | GAP/core/image/generation/generators/WhiteNoise.cs:28-54 | size and seed are 0 and the colour settings keep the field defaults: factors 1, no randomness |
| WhiteNoiseGenerator.WhiteNoise.Sized | GAP/core/image/generation/generators/WhiteNoise.cs:48-52 | size and seed are kept and the colour settings keep the field defaults |
| WhiteNoiseGenerator.WhiteNoise.WithPreset | GAP/core/image/generation/generators/WhiteNoise.cs:63-68 | size and seed are kept, the preset is ignored and the colour settings keep the field defaults |
| WhiteNoiseGenerator.WhiteNoise.WithPresetApplied | GAP/core/image/generation/generators/WhiteNoise.cs:61-68 | size and seed are kept and the colour settings are those of the preset |
| WhiteNoiseGenerator.WhiteNoise.Manual | GAP/core/image/generation/generators/WhiteNoise.cs:86-99 | every setting is kept as given, and the three random switches default to on |
| WhiteNoiseGenerator.PresetConstructorLosesPreset | GAP/core/image/generation/generators/WhiteNoise.cs:28-68 | no preset has the field defaults as its settings, since every preset turns random hue on and the defaults leave it off |
| RectanglesGenerator.CellSpan | GAP/core/image/generation/generators/Rectangles.cs:75-76 | the pixels drawn for a cell lie inside the image side the constructor computes, and consecutive cells are exactly the gap thickness apart |
| RectanglesGenerator.Rectangles.Empty | GAP/core/image/generation/generators/Rectangles.cs:15-36 | the property defaults: 128 by 128 pixels, seed 0, an 8 by 8 grid, 8 pixels per unit, gap 4 |
| RectanglesGenerator.Rectangles.constructor | GAP/core/image/generation/generators/Rectangles.cs:25-34 | the grid settings and seed are kept and each image side is cells times pixels per unit plus the gaps between cells, wrapped to 32 bits |
| RectanglesGenerator.Rectangles.GetNextGenerator | GAP/core/image/generation/generators/Rectangles.cs:304-308 | a new generator equal to this one except that its seed is the argument |
| RectanglesGenerator.StrictSubsetSmaller | GAP/core/image/generation/generators/Rectangles.cs:71-80 | a proper subset of the free cells is smaller, which bounds the fill loop |
| RectanglesGenerator.Grid.UnmarkedColumnMembers | GAP/core/image/generation/generators/Rectangles.cs:150-156 | the cells listed for a column are exactly its free cells above the current row |
| RectanglesGenerator.Grid.UnmarkedColumnsMembers | GAP/core/image/generation/generators/Rectangles.cs:148-156 | the cells listed are exactly the free cells of the columns scanned so far |
| RectanglesGenerator.Grid.FullIffNothingListed | GAP/core/image/generation/generators/Rectangles.cs:141-158 | the grid is full exactly when no free cell is listed and exactly when the set of free cells is empty |
| RectanglesGenerator.Grid.constructor | GAP/core/image/generation/generators/Rectangles.cs:117-122 | a grid of the given size with no cell covered |
| RectanglesGenerator.Grid.GetRandomFirst | GAP/core/image/generation/generators/Rectangles.cs:145-161 | a free cell inside the grid, taken from the column-by-column list of free cells, never the last of two or more |
| RectanglesGenerator.Grid.GetSecond1 | GAP/core/image/generation/generators/Rectangles.cs:175-205 | a corner right of and below the start, inside the grid, such that every cell of the rectangle between them is free |
| RectanglesGenerator.Grid.GetSecond2 | GAP/core/image/generation/generators/Rectangles.cs:207-237 | a corner left of and below the start, inside the grid, with every cell of the rectangle free |
| RectanglesGenerator.Grid.GetSecond3 | GAP/core/image/generation/generators/Rectangles.cs:239-269 | a corner right of and above the start, inside the grid, with every cell of the rectangle free |
| RectanglesGenerator.Grid.GetSecond4 | GAP/core/image/generation/generators/Rectangles.cs:271-301 | as written: a corner left of the start on the top row, with only the start row checked free, because the upward loop never runs |
| RectanglesGenerator.Grid.GetSecond4Overlaps | GAP/core/image/generation/generators/Rectangles.cs:288-300 | when the top cell of the start column is covered and the start lies below it, the rectangle of GetSecond4 covers a covered cell |
| RectanglesGenerator.Grid.GetSecond4Fixed | GAP/core/image/generation/generators/Rectangles.cs:271-301 | with the upward loop running while the row is at least 0: a corner left of and above the start with every cell of the rectangle free |
| RectanglesGenerator.Grid.GetSecondBy | GAP/core/image/generation/generators/Rectangles.cs:166-172 | whatever the direction, a corner inside the grid with every cell of the rectangle free |
| RectanglesGenerator.Grid.GetRandomSecond | GAP/core/image/generation/generators/Rectangles.cs:163-173 | the direction drawn is 1, 2 or 3, and the corner spans a free rectangle from the start |
| RectanglesGenerator.Grid.Mark | GAP/core/image/generation/generators/Rectangles.cs:132-136 | exactly the cells of the rectangle become covered and every other cell is unchanged |
| RectanglesGenerator.Grid.GetRandomRectangle | GAP/core/image/generation/generators/Rectangles.cs:124-139 | corners ordered on each axis and inside the grid; the rectangle was free; exactly its cells become covered; the set of free cells strictly shrinks |
| RectanglesGenerator.Grid.Fill | GAP/core/image/generation/generators/Rectangles.cs:69-80 | the loop ends with the grid full, and every rectangle handed out lies inside the grid |

## Left out

- File and console I/O are not modelled, and neither are process launching, sleeping or timers. The DeepDream front end writes its parameter file, deletes and polls the DONE file, runs the Python script and times the run; the model keeps only the text it writes.
- The Python scripts are not part of this model. The DeepDream script's reading order is stated only as the list of lines it expects.
- `System.Random` is an oracle with no seed. The model does not capture that a fixed seed repeats its draws, nor that the `Rectangles` grid makes a fresh `Random` from the same seed on every call.
- The `float`, `double` and slider argument types are not part of this model, because they are floating point. `Parse` therefore has no case for them.
- DeepDream's two `float` parameters are held as the text they print as. The `WhiteNoise` factors are exact reals, and only 0 and 1 are ever stored by the code modelled.
- `WhiteNoise.GenerateImage` is left out: it does HSV colour arithmetic in floating point.
- The `Rectangles.GenerateImage` palette and its drawing are left out. Only its fill loop is modelled, as `Grid.Fill`, together with the pixel spans of `CellSpan`.
- The settings builders of `Pixelize`, `Grid`, `ColorReduce`, `WhiteNoise` and `Rectangles` are left out, apart from the `Grid` scale-factor bound. So are `Copy`, `LoadFromJson`, `Clone` and `ToString` of the transformers and generators: they rely on JSON serialisation and `MemberwiseClone`.
- `SettingsGroupOption` and `SettingsNode` are not part of this model. A group option is its name, its context and the outcome its execution reports; a node is its name and the outcome of running it.
- Reflection is not modelled. A .NET type is its name, the names of its ancestors and whether it has a parameterless constructor, and `IsAssignableFrom` is read off those. `SettingsBuilder` receives the constructor query as a parameter.
- Exception messages are not modelled; only exception classes are.
- BaseConverter.ToDecimal: digits are weighed with unbounded integers. The program computes `Math.Pow` in `double` and casts it to `int`, which goes wrong for large values.
- Grid.TransformImage: requires a non-empty input image. The model also does not capture the `int` cast of the output size; the size is held exact.
- RectanglesGenerator.Grid.constructor: requires non-negative sizes. The settings only produce grid sizes of at least 1.
- RectanglesGenerator.Grid.GetSecondBy: uses `GetSecond4Fixed` for direction 4. `GetRandomSecond` never draws 4, so this changes nothing the program does.
- Free-list elements are limited to the single-value kinds (integer, long, string, bool and their unsigned variants). `SetParsedValue` accepts any `List<ArgumentType>` or `ArgumentType[]`, including select and free-list arguments; such lists are outside the model.
- Free-list elements are held by value. Object identity is therefore not modelled: the model cannot tell that a cloned list holds new element objects.
- `Dictionary` enumeration order is taken as insertion order. .NET gives that order for a dictionary that only grows, which is how these dictionaries are used.
- The `Rectangles` parameterless constructor keeps the property defaults, including a 128-pixel width. The size formula would give 92 pixels for the same defaults.
- Strings are Dafny strings, sequences of Unicode scalar values, while a .NET string is a sequence of UTF-16 code units. Where the code modelled measures or indexes a string by its code units, the model does the same through `DotNet.Utf16Length` and `DotNet.Utf16`: `ParseString`, the string argument's setters, `SelectList.AddValue(string)` and `SeedFromWord`. The name conversions, splitting and joining work per character; they treat a surrogate pair as the program does, since no surrogate is a letter, white space or separator. A .NET string holding a lone surrogate has no Dafny counterpart and is outside the model.
- Letter tests and case mappings (`DotNet.IsUpper`, `DotNet.ToLower`, `DotNet.ToUpper`) cover ASCII letters only. .NET's `char.IsUpper`, `char.ToLower` and `char.ToUpper` follow Unicode and the current culture, so they also map letters such as 'É' and 'Š'.
- SeedFormat.CharToByte: folds case on ASCII letters only. In .NET, 'Š' lowers to 'š' (U+0161), and the `(byte)` cast keeps its low byte 0x61, which is the table entry of 'a'. The model instead sends that character outside the table.
- SeedFormat.SeedFromWord: reads each code unit through `CharToByte`, so it shares its ASCII-only case folding.
- NameConverter.NameToId: lowers ASCII capitals only. A non-ASCII capital such as 'É' stays as it is, where .NET would lower it.
- NameConverter.CodeNameToId: detects and lowers ASCII capitals only. A non-ASCII capital is neither preceded by '_' nor lowered, where .NET would do both.
- NameConverter.IdToName: raises ASCII letters only. A non-ASCII lower-case letter after '_' or at the start stays lower-case, where .NET would raise it.
- NameConverter.EnumValueToName: raises and lowers ASCII letters only, for the same reason as `IdToName`.
- The option's own `Execute` and the group's `OnParse` callback are code this model does not contain. `RunParser` receives their outcomes as the parameters `runOption` and `runCallback`. `runOption` is a free outcome, so it over-approximates code that does not match its caller as written: `SettingsGroup` calls `o.Name` and `o.Execute(outputContext)`, but `SettingsGroupOption` has no `Name` and its only `Execute` takes `(string, string)[]` and always throws NotImplementedException.
- SettingsGroups.AutoParse: states each round's stored contents only when the input and output contexts share no argument object. When they share one, a store can change an input that a later round reads, and the model states only the rounds' names and order.
- SettingsGroups.AutoParse: states that output arguments no input name is for stay untouched. It does not state that output arguments of names after a failing round stay untouched.

## Findings

| source | as written | input that shows it | evidently intended | confidence | as-written member | corrected member |
|---|---|---|---|---|---|---|
| GAP/core/util/BaseConverter.cs:24-30 | the base check accepts 1 as the output base, and the division loop then never ends | any positive value with output base 1 | output base 1 refused with an ArgumentException, like 0 | high, not executed | BaseConverter.ConvertAcceptsBaseOne | BaseConverter.Convert |
| GAP/util/settings/Arguments.cs:44-50 | `CopyValue` sets `to` from `to`'s own text and never reads `from`; a long is also wrapped to 32 bits on the way | a long argument holding 4294967296 copied to itself holds 0 | `to` takes `from`'s value | high, not executed | ArgumentTypes.SelfCopyWraps | ArgumentTypes.CopyValueIntended |
| GAP/util/settings/argumentType/LongArgumentType.cs:26 | `GetValue` prints `(int)value`, so a long outside the int range is printed as another number | a long argument holding 4294967296 prints "0" | the value's own decimal text | high, not executed | LongArguments.LongTextWraps | LongArguments.LongArgumentType.GetValueIntended |
| GAP/util/settings/argumentType/IntegerArgumentType.cs:86 | `GetValue` prints `(int)value`, so a uint of 2^31 or more prints as a negative number that `SetValue` rejects | a uint argument holding 2147483648 prints "-2147483648" | the value's own decimal text | high, not executed | IntegerArguments.UnsignedTextRejected | IntegerArguments.UnsignedIntegerArgumentType.GetValueIntended |
| GAP/util/settings/argumentType/SelectListArgumentType.cs:102-110 | `AddValue(string)` loops up to the length of the name rather than the number of values, and throws at the end even after a match | values ["a"], name "a": position 0 is appended and an exception follows | append the first matching position; throw only when there is none | high, not executed | SelectListArguments.AddByNameFailsAfterAdding | SelectListArguments.SelectListArgumentType.AddValueByNameIntended |
| GAP/util/settings/argumentType/FreeListArgumentType.cs:50-52 | the printing loop is bounded by the length of the text being built, not by the number of elements | one element printing "1": after the first round the text "[1" is two characters long, so the loop reads a second element that does not exist | one round per element | high, not executed | ArgumentTypes.TextLoopOverruns | ArgumentTypes.FreeListArgumentType.GetValueIntended |
| GAP/util/settings/SettingsBuilder.cs:57-62 | `Build` on a builder without nodes sets the list to the added nodes and then appends them again | a builder without nodes, built with one node, holds it twice | each node once | high, not executed | SettingsBuilders.BuildTwice | SettingsBuilders.SettingsBuilder.BuildIntended |
| GAP/core/util/registries/TypeRegistry.cs:33-35 | the assignability check runs the wrong way round | registering T itself is refused, and a type unrelated to T is accepted | only types assignable to T accepted | high, not executed | TypeRegistries.CheckReversed | TypeRegistries.TypeRegistry.BaseRegisterIntended |
| GAP/machineLearning/deepdream/DeepDream.cs:160-173 | twelve lines are written in an order the script does not read, and the script asserts thirteen | the default parameters: 12 lines, and the first line, read as the verbose flag, is "input.jpg" | the thirteen lines in the script's order | high, not executed | DeepDream.DefaultsMisread | DeepDream.IntendedTextLines |
| GAP/core/image/generation/generators/Rectangles.cs:288 | `GetSecond4`'s row loop runs while the row is at least the height, so it never runs, and the corner lands on the top row unchecked | a start below a covered cell on the top row of its column: the rectangle covers that cell again | the loop runs while the row is at least 0, as in `GetSecond3` | high, not executed | RectanglesGenerator.Grid.GetSecond4Overlaps | RectanglesGenerator.Grid.GetSecond4Fixed |
| GAP/core/image/generation/generators/WhiteNoise.cs:63-68 | the preset constructor never reads its preset | any preset: random hue stays off, although every preset turns it on | settings from `FromPreset` | high, not executed | WhiteNoiseGenerator.PresetConstructorLosesPreset | WhiteNoiseGenerator.WhiteNoise.WithPresetApplied |
| GAP/gap/image/transformation/transformers/ColorReduce.cs:14-17 | the and-not with the level clears only the bits set in the level, so level 128 clears bit 7 alone and keeps the seven low bits | a white pixel at level 128 becomes (127, 127, 127) | level 128 loses every bit except the most significant one, as the level's description says, so white becomes (128, 128, 128) | medium, not executed | ColorReduceTransform.ReducedLevel128KeepsLowBits | ColorReduceTransform.ReducedIntended |
