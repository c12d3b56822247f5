/** The layer and parameter logic of the DeepDream front end: which layers of the
    InceptionV3 network a dream runs through, how they are checked and picked at random, and
    the parameter text handed to the Python script that does the dreaming. */
module DeepDream {
  import opened Errors
  import opened DotNet
  import opened InceptionLayers

  /** The number of lines the Python script asserts the parameter file has. */
  const PARAMS_LEN: int := 13

  /** The directory the front end shares with the Python script, relative to the program. */
  const DREAM_DIRECTORY: string := "..\\..\\..\\" + "machineLearning\\deepdream\\"

  /** The path of the file the Python script creates when it is done. */
  const DONE: string := DREAM_DIRECTORY + "output\\DONE"

  // ---------------------------------------------------------------- activation weights

  /** `LayerActivationFunction`: the weight of layer `i` of `count`. */
  function LayerActivationFunction(i: int, count: int): int {
    if i == count - 1 then 15 else 6
  }

  /** The weights of a sequence of `count` layers, as text. */
  function Activations(count: int): (r: seq<string>)
    ensures |r| == if count > 0 then count else 0
  {
    seq(if count > 0 then count else 0, i => Show(LayerActivationFunction(i, count)))
  }

  /** `CreateActivationsArray`: the weights of `count` layers, each after the first preceded
      by a space. */
  method CreateActivationsArray(count: int) returns (r: string)
    ensures r == Join(Activations(count), " ")
  {
    r := "";
    ghost var done: seq<string> := [];
    var n := if count > 0 then count else 0;
    for i := 0 to n
      invariant done == Activations(count)[..i] && r == Join(done, " ")
    {
      var w := Show(LayerActivationFunction(i, count));
      JoinSnoc(done, w, " ");
      r := r + (if i != 0 then " " else "") + w;
      done := done + [w];
    }
    assert Activations(count)[..n] == Activations(count);
  }

  /** Split at the spaces, the weights of `count > 0` layers are "6" for every layer but the
      last and "15" for the last; no layers give no text. */
  lemma ActivationsText(count: int)
    ensures count <= 0 ==> Join(Activations(count), " ") == ""
    ensures count > 0 ==> |Split(Join(Activations(count), " "), ' ')| == count
    ensures count > 0 ==> Split(Join(Activations(count), " "), ' ')[count - 1] == "15"
    ensures forall i :: 0 <= i < count - 1 ==> Split(Join(Activations(count), " "), ' ')[i] == "6"
  {
    var a := Activations(count);
    if count > 0 {
      assert Show(15) == "15" && Show(6) == "6";
      assert forall k :: 0 <= k < |a| ==> a[k] == "15" || a[k] == "6";
      JoinSplit(a, ' ');
    }
  }

  // ---------------------------------------------------------------- layer filtering

  /** The layers of `all` that are not in `ugly`, in their order in `all`. */
  function Filtered(all: seq<string>, ugly: seq<string>): seq<string>
    decreases |all|
  {
    if all == [] then []
    else (if all[0] in ugly then [] else [all[0]]) + Filtered(all[1..], ugly)
  }

  /** A layer survives the filter exactly when it is one of `all` and not one of `ugly`. */
  lemma {:induction false} FilteredMembers(all: seq<string>, ugly: seq<string>, x: string)
    ensures x in Filtered(all, ugly) <==> x in all && x !in ugly
    decreases |all|
  {
    if all != [] {
      FilteredMembers(all[1..], ugly, x);
      assert all == [all[0]] + all[1..];
    }
  }

  /** The filter keeps the order: filtering a concatenation concatenates the filtered parts. */
  lemma {:induction false} FilteredAppend(a: seq<string>, b: seq<string>, ugly: seq<string>)
    ensures Filtered(a + b, ugly) == Filtered(a, ugly) + Filtered(b, ugly)
    decreases |a|
  {
    if a != [] {
      assert (a + b)[1..] == a[1..] + b;
      FilteredAppend(a[1..], b, ugly);
    } else {
      assert a + b == b;
    }
  }

  // ---------------------------------------------------------------- the parameter file

  /** The generator's settable parameters. The two `float`s are held as the text
      `float.ToString` gives for them. */
  datatype Parameters = Parameters(
    imageName: string,
    imageOrigin: string,
    imageOriginFormat: int32,
    outputPath: string,
    verbose: bool,
    distortionRate: string,
    octaves: int32,
    octaveScale: string,
    iterations: int32,
    maxLoss: int32,
    layerSequence: seq<string>)

  /** The parameters the generator starts with. */
  function Defaults(): Parameters {
    Parameters("input.jpg", DREAM_DIRECTORY + "input.jpg", 0, DREAM_DIRECTORY + "output\\dream.png",
               true, "20", 8, "1.3", 5, INT32_MAX, ["mixed0"])
  }

  /** The lines `SaveParameters` writes, in its order. */
  function WrittenLines(p: Parameters): seq<string> {
    [p.imageName, p.imageOrigin, Show(p.imageOriginFormat), p.outputPath, BoolToString(p.verbose),
     p.distortionRate, Show(p.octaves), p.octaveScale, Show(p.iterations), Show(p.maxLoss),
     Join(p.layerSequence, " "), Join(Activations(|p.layerSequence|), " ")]
  }

  /** The lines in the order the Python script reads them: the verbose flag first and the
      path of the DONE file sixth. */
  function ReadLines(p: Parameters): seq<string> {
    [BoolToString(p.verbose), p.imageName, p.imageOrigin, Show(p.imageOriginFormat), p.outputPath,
     DONE, p.distortionRate, Show(p.octaves), p.octaveScale, Show(p.iterations), Show(p.maxLoss),
     Join(p.layerSequence, " "), Join(Activations(|p.layerSequence|), " ")]
  }

  /** The text `SaveParameters` writes: its lines separated by newlines. */
  function ParametersText(p: Parameters): string {
    Join(WrittenLines(p), "\n")
  }

  /** The text the Python script can read: the lines it reads, separated by newlines. */
  function ParametersTextIntended(p: Parameters): string {
    Join(ReadLines(p), "\n")
  }

  /** No text parameter and no layer name holds a line break. */
  predicate SingleLines(p: Parameters) {
    '\n' !in p.imageName && '\n' !in p.imageOrigin && '\n' !in p.outputPath
    && '\n' !in p.distortionRate && '\n' !in p.octaveScale
    && forall k :: 0 <= k < |p.layerSequence| ==> '\n' !in p.layerSequence[k]
  }

  lemma ShowOneLine(n: int)
    ensures '\n' !in Show(n) && ' ' !in Show(n)
  {
    var s := ShowNat(if n < 0 then -n else n);
    assert forall k :: 0 <= k < |s| ==> IsDigit(s[k]);
    assert Show(n) == if n < 0 then "-" + s else s;
  }

  /** A character in neither the pieces nor the separator is not in their join. */
  lemma {:induction false} JoinAvoids(parts: seq<string>, sep: string, c: char)
    requires c !in sep && forall k :: 0 <= k < |parts| ==> c !in parts[k]
    ensures c !in Join(parts, sep)
    decreases |parts|
  {
    if |parts| > 1 {
      JoinAvoids(parts[1..], sep, c);
    }
  }

  /** The two lines of numbers and names hold no line break. */
  lemma LayerLinesOneLine(p: Parameters)
    requires SingleLines(p)
    ensures '\n' !in Join(p.layerSequence, " ")
    ensures '\n' !in Join(Activations(|p.layerSequence|), " ")
  {
    JoinAvoids(p.layerSequence, " ", '\n');
    var a := Activations(|p.layerSequence|);
    forall k | 0 <= k < |a|
      ensures '\n' !in a[k]
    {
      ShowOneLine(LayerActivationFunction(k, |p.layerSequence|));
    }
    JoinAvoids(a, " ", '\n');
  }

  /** No line `SaveParameters` writes holds a line break. */
  lemma WrittenLinesOneLine(p: Parameters)
    requires SingleLines(p)
    ensures forall k :: 0 <= k < |WrittenLines(p)| ==> '\n' !in WrittenLines(p)[k]
  {
    LayerLinesOneLine(p);
    ShowOneLine(p.imageOriginFormat);
    ShowOneLine(p.octaves);
    ShowOneLine(p.iterations);
    ShowOneLine(p.maxLoss);
  }

  lemma DirectoryOneLine()
    ensures '\n' !in DREAM_DIRECTORY
  {
    assert '\n' !in "..\\..\\..\\" && '\n' !in "machineLearning\\deepdream\\";
  }

  /** No line the Python script reads holds a line break. */
  lemma ReadLinesOneLine(p: Parameters)
    requires SingleLines(p)
    ensures forall k :: 0 <= k < |ReadLines(p)| ==> '\n' !in ReadLines(p)[k]
  {
    LayerLinesOneLine(p);
    ShowOneLine(p.imageOriginFormat);
    ShowOneLine(p.octaves);
    ShowOneLine(p.iterations);
    ShowOneLine(p.maxLoss);
    DirectoryOneLine();
  }

  /** Read back line by line, the written text gives its twelve lines, not the thirteen the
      Python script asserts, and its first line, which the script takes for the verbose flag,
      is the image name. */
  lemma WrittenTextLines(p: Parameters)
    requires SingleLines(p)
    ensures Split(ParametersText(p), '\n') == WrittenLines(p)
    ensures |Split(ParametersText(p), '\n')| == 12 != PARAMS_LEN
    ensures Split(ParametersText(p), '\n')[0] == p.imageName
  {
    WrittenLinesOneLine(p);
    JoinSplit(WrittenLines(p), '\n');
  }

  /** The default parameters hold no line break. */
  lemma DefaultsOneLine()
    ensures SingleLines(Defaults())
  {
    DirectoryOneLine();
  }

  /** With the default parameters the script would fail its line-count assertion and, past
      it, would read the image name "input.jpg" as the verbose flag, which is "True". */
  lemma DefaultsMisread()
    ensures |Split(ParametersText(Defaults()), '\n')| != PARAMS_LEN
    ensures Split(ParametersText(Defaults()), '\n')[0] != BoolToString(Defaults().verbose)
  {
    DefaultsOneLine();
    WrittenTextLines(Defaults());
  }

  /** Read back line by line, the intended text gives exactly the thirteen lines the Python
      script reads, each where the script looks for it; its layer line splits at the spaces
      into the layer names, and its weight line into one weight per layer. */
  lemma IntendedTextLines(p: Parameters)
    requires SingleLines(p)
    ensures Split(ParametersTextIntended(p), '\n') == ReadLines(p)
    ensures |ReadLines(p)| == PARAMS_LEN
    ensures ReadLines(p)[0] == BoolToString(p.verbose) && ReadLines(p)[1] == p.imageName
    ensures ReadLines(p)[5] == DONE && ReadLines(p)[10] == Show(p.maxLoss)
    ensures p.layerSequence != [] && (forall k :: 0 <= k < |p.layerSequence| ==> ' ' !in p.layerSequence[k]) ==>
              Split(ReadLines(p)[11], ' ') == p.layerSequence
    ensures p.layerSequence != [] ==> |Split(ReadLines(p)[12], ' ')| == |p.layerSequence|
  {
    ReadLinesOneLine(p);
    JoinSplit(ReadLines(p), '\n');
    if p.layerSequence != [] && (forall k :: 0 <= k < |p.layerSequence| ==> ' ' !in p.layerSequence[k]) {
      JoinSplit(p.layerSequence, ' ');
    }
    ActivationsText(|p.layerSequence|);
  }

  // ---------------------------------------------------------------- the generator's state

  /** The static state of the `DeepDream` class: its settable parameters, the current layer
      sequence and its four fixed layer lists. */
  class DeepDreamState {
    var imageName: string
    var imageOrigin: string
    var imageOriginFormat: int32
    var outputPath: string
    var octaves: int32
    var octaveScale: string
    var iterations: int32
    var distortionRate: string
    var maxLoss: int32
    var verbose: bool
    var layerSequence: seq<string>

    const allLayers: seq<string>
    const almostFinalLayers: seq<string>
    const finalLayers: seq<string>
    const uglyLayers: seq<string>

    /** The fixed lists fit together: the preferred layers are all real layers, and none of
        the final ones is ugly. */
    predicate ListsValid() {
      ListsConsistent(allLayers, almostFinalLayers, finalLayers, uglyLayers)
    }

    /** The parameters as they stand. */
    function Current(): Parameters
      reads this
    {
      Parameters(imageName, imageOrigin, imageOriginFormat, outputPath, verbose, distortionRate,
                 octaves, octaveScale, iterations, maxLoss, layerSequence)
    }

    /** The static initialisers. */
    constructor Init()
      ensures ListsValid() && Current() == Defaults()
      ensures allLayers == AllLayers() && almostFinalLayers == AlmostFinalLayers()
      ensures finalLayers == FinalLayers() && uglyLayers == UglyLayers()
    {
      imageName := "input.jpg";
      imageOrigin := DREAM_DIRECTORY + "input.jpg";
      imageOriginFormat := 0;
      outputPath := DREAM_DIRECTORY + "output\\dream.png";
      octaves := 8;
      octaveScale := "1.3";
      iterations := 5;
      distortionRate := "20";
      maxLoss := INT32_MAX;
      verbose := true;
      layerSequence := ["mixed0"];
      allLayers := AllLayers();
      almostFinalLayers := AlmostFinalLayers();
      finalLayers := FinalLayers();
      uglyLayers := UglyLayers();
      new;
      TablesConsistent();
    }

    /** `CleanLayers`: every layer that is not ugly, in network order. */
    method CleanLayers() returns (r: seq<string>)
      ensures r == Filtered(allLayers, uglyLayers)
    {
      r := [];
      for i := 0 to |allLayers|
        invariant r == Filtered(allLayers[..i], uglyLayers)
      {
        assert allLayers[..i + 1] == allLayers[..i] + [allLayers[i]];
        FilteredAppend(allLayers[..i], [allLayers[i]], uglyLayers);
        assert [allLayers[i]][1..] == [];
        if allLayers[i] !in uglyLayers {
          r := r + [allLayers[i]];
        }
      }
      assert allLayers[..|allLayers|] == allLayers;
    }

    /** `SaveParameters`: the text written to the parameter file (the writing itself is not
        part of this model). */
    method SaveParameters() returns (text: string)
      ensures text == ParametersText(Current())
    {
      var layers := "";
      for i := 0 to |layerSequence|
        invariant layers == Join(layerSequence[..i], " ")
      {
        JoinSnoc(layerSequence[..i], layerSequence[i], " ");
        assert layerSequence[..i + 1] == layerSequence[..i] + [layerSequence[i]];
        layers := layers + (if i != 0 then " " else "") + layerSequence[i];
      }
      assert layerSequence[..|layerSequence|] == layerSequence;
      var activations := CreateActivationsArray(|layerSequence|);
      text := Join([imageName, imageOrigin, Show(imageOriginFormat), outputPath, BoolToString(verbose),
                    distortionRate, Show(octaves), octaveScale, Show(iterations), Show(maxLoss),
                    layers, activations], "\n");
    }

    /** `RunGenerator`: the parameter text it saves; deleting and polling the DONE file,
        starting the Python script and timing it are not part of this model. */
    method RunGenerator() returns (written: string)
      ensures written == ParametersText(Current())
    {
      written := SaveParameters();
    }

    /** `RunGeneratorCustom`: no layers at all is an "not enough layers" error and a name
        that is not a layer of the network an "unknown layer" error, both leaving the state
        as it was; otherwise the layers become the layer sequence and the generator runs. */
    method RunGeneratorCustom(layers: seq<string>) returns (o: Outcome, written: string)
      modifies this
      ensures o.Pass? <==> |layers| > 0 && forall k :: 0 <= k < |layers| ==> layers[k] in allLayers
      ensures |layers| == 0 ==> o == Fail(InvalidLayer(1))
      ensures |layers| > 0 && o.Fail? ==> o == Fail(InvalidLayer(0))
      ensures o.Fail? ==> Current() == old(Current())
      ensures o.Pass? ==> Current() == old(Current()).(layerSequence := layers)
      ensures o.Pass? ==> written == ParametersText(Current())
    {
      written := "";
      if |layers| <= 0 {
        return Fail(InvalidLayer(1)), written;
      }
      for i := 0 to |layers|
        invariant forall k :: 0 <= k < i ==> layers[k] in allLayers
      {
        if layers[i] !in allLayers {
          return Fail(InvalidLayer(0)), written;
        }
      }
      layerSequence := layers;
      written := RunGenerator();
      return Pass, written;
    }

    /** `RunGeneratorRandom`: a positive number of layers, each any layer of the network,
        becomes the layer sequence; a count of zero or less is a "not enough layers" error. */
    method RunGeneratorRandom(layers: int32, r: Random) returns (o: Outcome, selected: seq<string>)
      requires ListsValid()
      modifies this
      ensures layers <= 0 ==> o == Fail(InvalidLayer(1)) && Current() == old(Current())
      ensures layers > 0 ==> o == Pass && |selected| == layers
      ensures layers > 0 ==> forall k :: 0 <= k < |selected| ==> selected[k] in allLayers
      ensures layers > 0 ==> Current() == old(Current()).(layerSequence := selected)
    {
      selected := [];
      if layers <= 0 {
        return Fail(InvalidLayer(1)), selected;
      }
      var selectedLayers := new string[layers];
      assert almostFinalLayers[0] in allLayers;
      for i := 0 to layers
        modifies selectedLayers
        invariant forall k :: 0 <= k < i ==> selectedLayers[k] in allLayers
      {
        var n := r.Next(0, |allLayers|);
        selectedLayers[i] := allLayers[n];
      }
      selected := selectedLayers[..];
      var written;
      o, written := RunGeneratorCustom(selected);
    }

    /** Which list the filtered picks take layer `i` of `count` from: the last from the final
        layers, the one before it from the almost final layers, the rest from the layers that
        are not ugly. */
    function PickList(i: int, count: int): (r: seq<string>)
      requires ListsValid()
    {
      if i < count - 2 then Filtered(allLayers, uglyLayers)
      else if i != count - 1 then almostFinalLayers
      else finalLayers
    }

    /** Every list a pick is made from is non-empty and holds real layers only. */
    lemma PickListValid(i: int, count: int)
      requires ListsValid()
      ensures |PickList(i, count)| > 0
      ensures forall x :: x in PickList(i, count) ==> x in allLayers
    {
      if i < count - 2 {
        FilteredMembers(allLayers, uglyLayers, finalLayers[0]);
        forall x | x in PickList(i, count)
          ensures x in allLayers
        {
          FilteredMembers(allLayers, uglyLayers, x);
        }
      }
    }

    /** `RunGeneratorFilteredRandom`: a positive number of layers, each picked from the list
        `PickList` gives for its position, becomes the layer sequence; a count of zero or less
        is a "not enough layers" error. The picks always pass the check of
        `RunGeneratorCustom`. */
    method RunGeneratorFilteredRandom(layers: int32, r: Random) returns (o: Outcome, selected: seq<string>)
      requires ListsValid()
      modifies this
      ensures layers <= 0 ==> o == Fail(InvalidLayer(1)) && Current() == old(Current())
      ensures layers > 0 ==> o == Pass && |selected| == layers
      ensures layers > 0 ==> forall k :: 0 <= k < |selected| ==> selected[k] in PickList(k, layers)
      ensures layers > 0 ==> Current() == old(Current()).(layerSequence := selected)
    {
      selected := [];
      if layers <= 0 {
        return Fail(InvalidLayer(1)), selected;
      }
      var allLayers' := CleanLayers();
      var selectedLayers := new string[layers];
      for i := 0 to layers
        modifies selectedLayers
        invariant forall k :: 0 <= k < i ==> selectedLayers[k] in PickList(k, layers)
      {
        PickListValid(i, layers);
        if i < layers - 2 {
          var n := r.Next(0, |allLayers'|);
          selectedLayers[i] := allLayers'[n];
        } else if i != layers - 1 {
          var n := r.Next(0, |almostFinalLayers|);
          selectedLayers[i] := almostFinalLayers[n];
        } else {
          var n := r.Next(0, |finalLayers|);
          selectedLayers[i] := finalLayers[n];
        }
      }
      selected := selectedLayers[..];
      forall k | 0 <= k < |selected|
        ensures selected[k] in allLayers
      {
        PickListValid(k, layers);
      }
      var written;
      o, written := RunGeneratorCustom(selected);
    }
  }
}
