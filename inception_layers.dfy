/** The fixed layer lists of the DeepDream front end, taken from the InceptionV3 network. */
module InceptionLayers {
  /** `ALL_LAYERS`: the 311 layers of the InceptionV3 network, in network order, written
      here in runs of twenty. */
  function AllLayers(): seq<string> {
    Layers0() + Layers1() + Layers2() + Layers3() + Layers4() + Layers5() + Layers6() + Layers7()
    + Layers8() + Layers9() + Layers10() + Layers11() + Layers12() + Layers13() + Layers14() + Layers15()
  }

  function Layers0(): seq<string> {
    ["input_layer", "conv2d", "batch_normalization", "activation", "conv2d_1",
     "batch_normalization_1", "activation_1", "conv2d_2", "batch_normalization_2", "activation_2",
     "max_pooling2d", "conv2d_3", "batch_normalization_3", "activation_3", "conv2d_4",
     "batch_normalization_4", "activation_4", "max_pooling2d_1", "conv2d_8",
     "batch_normalization_8"]
  }

  function Layers1(): seq<string> {
    ["activation_8", "conv2d_6", "conv2d_9", "batch_normalization_6", "batch_normalization_9",
     "activation_6", "activation_9", "average_pooling2d", "conv2d_5", "conv2d_7", "conv2d_10",
     "conv2d_11", "batch_normalization_5", "batch_normalization_7", "batch_normalization_10",
     "batch_normalization_11", "activation_5", "activation_7", "activation_10", "activation_11"]
  }

  function Layers2(): seq<string> {
    ["mixed0", "conv2d_15", "batch_normalization_15", "activation_15", "conv2d_13", "conv2d_16",
     "batch_normalization_13", "batch_normalization_16", "activation_13", "activation_16",
     "average_pooling2d_1", "conv2d_12", "conv2d_14", "conv2d_17", "conv2d_18",
     "batch_normalization_12", "batch_normalization_14", "batch_normalization_17",
     "batch_normalization_18", "activation_12"]
  }

  function Layers3(): seq<string> {
    ["activation_14", "activation_17", "activation_18", "mixed1", "conv2d_22",
     "batch_normalization_22", "activation_22", "conv2d_20", "conv2d_23", "batch_normalization_20",
     "batch_normalization_23", "activation_20", "activation_23", "average_pooling2d_2",
     "conv2d_19", "conv2d_21", "conv2d_24", "conv2d_25", "batch_normalization_19",
     "batch_normalization_21"]
  }

  function Layers4(): seq<string> {
    ["batch_normalization_24", "batch_normalization_25", "activation_19", "activation_21",
     "activation_24", "activation_25", "mixed2", "conv2d_27", "batch_normalization_27",
     "activation_27", "conv2d_28", "batch_normalization_28", "activation_28", "conv2d_26",
     "conv2d_29", "batch_normalization_26", "batch_normalization_29", "activation_26",
     "activation_29", "max_pooling2d_2"]
  }

  function Layers5(): seq<string> {
    ["mixed3", "conv2d_34", "batch_normalization_34", "activation_34", "conv2d_35",
     "batch_normalization_35", "activation_35", "conv2d_31", "conv2d_36", "batch_normalization_31",
     "batch_normalization_36", "activation_31", "activation_36", "conv2d_32", "conv2d_37",
     "batch_normalization_32", "batch_normalization_37", "activation_32", "activation_37",
     "average_pooling2d_3"]
  }

  function Layers6(): seq<string> {
    ["conv2d_30", "conv2d_33", "conv2d_38", "conv2d_39", "batch_normalization_30",
     "batch_normalization_33", "batch_normalization_38", "batch_normalization_39", "activation_30",
     "activation_33", "activation_38", "activation_39", "mixed4", "conv2d_44",
     "batch_normalization_44", "activation_44", "conv2d_45", "batch_normalization_45",
     "activation_45", "conv2d_41"]
  }

  function Layers7(): seq<string> {
    ["conv2d_46", "batch_normalization_41", "batch_normalization_46", "activation_41",
     "activation_46", "conv2d_42", "conv2d_47", "batch_normalization_42", "batch_normalization_47",
     "activation_42", "activation_47", "average_pooling2d_4", "conv2d_40", "conv2d_43",
     "conv2d_48", "conv2d_49", "batch_normalization_40", "batch_normalization_43",
     "batch_normalization_48", "batch_normalization_49"]
  }

  function Layers8(): seq<string> {
    ["activation_40", "activation_43", "activation_48", "activation_49", "mixed5", "conv2d_54",
     "batch_normalization_54", "activation_54", "conv2d_55", "batch_normalization_55",
     "activation_55", "conv2d_51", "conv2d_56", "batch_normalization_51", "batch_normalization_56",
     "activation_51", "activation_56", "conv2d_52", "conv2d_57", "batch_normalization_52"]
  }

  function Layers9(): seq<string> {
    ["batch_normalization_57", "activation_52", "activation_57", "average_pooling2d_5",
     "conv2d_50", "conv2d_53", "conv2d_58", "conv2d_59", "batch_normalization_50",
     "batch_normalization_53", "batch_normalization_58", "batch_normalization_59", "activation_50",
     "activation_53", "activation_58", "activation_59", "mixed6", "conv2d_64",
     "batch_normalization_64", "activation_64"]
  }

  function Layers10(): seq<string> {
    ["conv2d_65", "batch_normalization_65", "activation_65", "conv2d_61", "conv2d_66",
     "batch_normalization_61", "batch_normalization_66", "activation_61", "activation_66",
     "conv2d_62", "conv2d_67", "batch_normalization_62", "batch_normalization_67", "activation_62",
     "activation_67", "average_pooling2d_6", "conv2d_60", "conv2d_63", "conv2d_68", "conv2d_69"]
  }

  function Layers11(): seq<string> {
    ["batch_normalization_60", "batch_normalization_63", "batch_normalization_68",
     "batch_normalization_69", "activation_60", "activation_63", "activation_68", "activation_69",
     "mixed7", "conv2d_72", "batch_normalization_72", "activation_72", "conv2d_73",
     "batch_normalization_73", "activation_73", "conv2d_70", "conv2d_74", "batch_normalization_70",
     "batch_normalization_74", "activation_70"]
  }

  function Layers12(): seq<string> {
    ["activation_74", "conv2d_71", "conv2d_75", "batch_normalization_71", "batch_normalization_75",
     "activation_71", "activation_75", "max_pooling2d_3", "mixed8", "conv2d_80",
     "batch_normalization_80", "activation_80", "conv2d_77", "conv2d_81", "batch_normalization_77",
     "batch_normalization_81", "activation_77", "activation_81", "conv2d_78", "conv2d_79"]
  }

  function Layers13(): seq<string> {
    ["conv2d_82", "conv2d_83", "average_pooling2d_7", "conv2d_76", "batch_normalization_78",
     "batch_normalization_79", "batch_normalization_82", "batch_normalization_83", "conv2d_84",
     "batch_normalization_76", "activation_78", "activation_79", "activation_82", "activation_83",
     "batch_normalization_84", "activation_76", "mixed9_0", "concatenate", "activation_84",
     "mixed9"]
  }

  function Layers14(): seq<string> {
    ["conv2d_89", "batch_normalization_89", "activation_89", "conv2d_86", "conv2d_90",
     "batch_normalization_86", "batch_normalization_90", "activation_86", "activation_90",
     "conv2d_87", "conv2d_88", "conv2d_91", "conv2d_92", "average_pooling2d_8", "conv2d_85",
     "batch_normalization_87", "batch_normalization_88", "batch_normalization_91",
     "batch_normalization_92", "conv2d_93"]
  }

  function Layers15(): seq<string> {
    ["batch_normalization_85", "activation_87", "activation_88", "activation_91", "activation_92",
     "batch_normalization_93", "activation_85", "mixed9_1", "concatenate_1", "activation_93",
     "mixed10"]
  }

  /** `ALMOST_FINAL_LAYERS`: the layers the second to last filtered pick is made from. */
  function AlmostFinalLayers(): seq<string> {
    ["activation_19", "activation_22", "activation_23", "activation_26", "activation_27",
     "activation_30", "activation_40", "activation_49", "activation_50", "activation_51",
     "batch_normalization_28", "batch_normalization_29", "batch_normalization_30",
     "batch_normalization_31", "batch_normalization_34", "batch_normalization_39", "conv2d_22",
     "conv2d_28", "conv2d_29", "conv2d_30", "mixed2", "mixed3", "mixed5"]
  }

  /** `FINAL_LAYERS`: the layers the last filtered pick is made from. */
  function FinalLayers(): seq<string> {
    ["mixed2", "mixed3", "mixed5", "activation_19", "activation_26", "activation_30"]
  }

  /** `UGLY_LAYERS`: the layers the filtered picks leave out. */
  function UglyLayers(): seq<string> {
    ["activation", "activation_1", "activation_2", "batch_normalization", "batch_normalization_1",
     "batch_normalization_2", "conv2d", "conv2d_1", "conv2d_2", "input_layer"]
  }

  /** Where preferred layers stand in run 3 of the network's layers. */
  lemma PreferredInRun3()
    ensures AlmostFinalLayers()[1] == Layers3()[6]
    ensures AlmostFinalLayers()[2] == Layers3()[12]
    ensures AlmostFinalLayers()[16] == Layers3()[4]
  {
  }

  /** Where preferred layers stand in run 4 of the network's layers. */
  lemma PreferredInRun4()
    ensures AlmostFinalLayers()[0] == Layers4()[2]
    ensures AlmostFinalLayers()[3] == Layers4()[17]
    ensures AlmostFinalLayers()[4] == Layers4()[9]
    ensures AlmostFinalLayers()[10] == Layers4()[11]
    ensures AlmostFinalLayers()[11] == Layers4()[16]
    ensures AlmostFinalLayers()[17] == Layers4()[10]
    ensures AlmostFinalLayers()[18] == Layers4()[14]
    ensures AlmostFinalLayers()[20] == Layers4()[6]
    ensures FinalLayers()[0] == Layers4()[6]
    ensures FinalLayers()[3] == Layers4()[2]
    ensures FinalLayers()[4] == Layers4()[17]
  {
  }

  /** Where preferred layers stand in run 5 of the network's layers. */
  lemma PreferredInRun5()
    ensures AlmostFinalLayers()[13] == Layers5()[9]
    ensures AlmostFinalLayers()[14] == Layers5()[2]
    ensures AlmostFinalLayers()[21] == Layers5()[0]
    ensures FinalLayers()[1] == Layers5()[0]
  {
  }

  /** Where preferred layers stand in run 6 of the network's layers. */
  lemma PreferredInRun6()
    ensures AlmostFinalLayers()[5] == Layers6()[8]
    ensures AlmostFinalLayers()[12] == Layers6()[4]
    ensures AlmostFinalLayers()[15] == Layers6()[7]
    ensures AlmostFinalLayers()[19] == Layers6()[0]
    ensures FinalLayers()[5] == Layers6()[8]
  {
  }

  /** Where preferred layers stand in run 8 of the network's layers. */
  lemma PreferredInRun8()
    ensures AlmostFinalLayers()[6] == Layers8()[0]
    ensures AlmostFinalLayers()[7] == Layers8()[3]
    ensures AlmostFinalLayers()[9] == Layers8()[15]
    ensures AlmostFinalLayers()[22] == Layers8()[4]
    ensures FinalLayers()[2] == Layers8()[4]
  {
  }

  /** Where preferred layers stand in run 9 of the network's layers. */
  lemma PreferredInRun9()
    ensures AlmostFinalLayers()[8] == Layers9()[12]
  {
  }

  /** A layer of any run holding preferred layers is a layer of the network. */
  lemma RunsInAllLayers()
    ensures forall x :: x in Layers3() + Layers4() + Layers5() + Layers6() + Layers8() + Layers9() ==> x in AllLayers()
  {
  }

  /** Every almost final layer is a layer of the network. */
  lemma AlmostFinalAreLayers()
    ensures forall k :: 0 <= k < |AlmostFinalLayers()| ==> AlmostFinalLayers()[k] in AllLayers()
  {
    PreferredInRun3();
    PreferredInRun4();
    PreferredInRun5();
    PreferredInRun6();
    PreferredInRun8();
    PreferredInRun9();
    RunsInAllLayers();
  }

  /** Every final layer is a layer of the network. */
  lemma FinalAreLayers()
    ensures forall k :: 0 <= k < |FinalLayers()| ==> FinalLayers()[k] in AllLayers()
  {
    PreferredInRun4();
    PreferredInRun5();
    PreferredInRun6();
    PreferredInRun8();
    RunsInAllLayers();
  }

  /** No final layer is ugly. */
  lemma FinalNotUgly()
    ensures forall k :: 0 <= k < |FinalLayers()| ==> FinalLayers()[k] !in UglyLayers()
  {
  }
  /** The preferred lists are made of known layers, and no final layer is an ugly one. */
  predicate ListsConsistent(all: seq<string>, almost: seq<string>, final: seq<string>, ugly: seq<string>) {
    |almost| == 23 && |final| == 6
    && (forall k :: 0 <= k < |almost| ==> almost[k] in all)
    && (forall k :: 0 <= k < |final| ==> final[k] in all && final[k] !in ugly)
  }

  lemma TablesConsistent()
    ensures ListsConsistent(AllLayers(), AlmostFinalLayers(), FinalLayers(), UglyLayers())
  {
    AlmostFinalAreLayers();
    FinalAreLayers();
    FinalNotUgly();
  }
}
