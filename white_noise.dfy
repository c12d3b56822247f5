/** The `WhiteNoise` generator's colour settings: the preset table and the constructors.
    The factors are `double`s in the program; the only values that appear here are 0 and
    1, held exactly as reals. */
module WhiteNoiseGenerator {
  import opened DotNet

  /** `WhiteNoisePresets`: the four named values, and any other value the enum can hold. */
  datatype Preset = FullRandom | RandomHue | RandomHueAndDarkness | Grayscale | Unnamed(value: int32)

  /** The colour settings: a factor and a random switch for hue, saturation and value. */
  datatype ColorSettings = ColorSettings(hf: real, hr: bool, sf: real, sr: bool, vf: real, vr: bool)

  /** The settings `FromPreset` starts from before the switch. */
  const PRESET_BASE := ColorSettings(1.0, true, 1.0, false, 1.0, false)

  /** The settings of a generator built without a preset: every factor 1, no randomness. */
  const FIELD_DEFAULTS := ColorSettings(1.0, false, 1.0, false, 1.0, false)

  /** `FromPreset`: the settings a preset stands for. */
  function FromPreset(preset: Preset): (s: ColorSettings)
    ensures s.hf == 1.0 && s.hr && s.vf == 1.0
    ensures preset == Grayscale <==> s.sf == 0.0
    ensures s.sf == 1.0 || s.sf == 0.0
    ensures s.sr <==> preset.FullRandom? || preset.Unnamed?
    ensures s.vr <==> !preset.RandomHue?
  {
    var s := PRESET_BASE;
    match preset
    case Grayscale => s.(sr := false, sf := 0.0, vr := true)
    case RandomHue => s.(sr := false, vr := false)
    case RandomHueAndDarkness => s.(sr := false, vr := true)
    case FullRandom => s.(sr := true, vr := true)
    case Unnamed(_) => s.(sr := true, vr := true)
  }

  /** A preset only ever changes the saturation switch, the saturation factor and the
      value switch of the base settings. */
  lemma PresetChangesOnlySaturationAndValue(preset: Preset)
    ensures FromPreset(preset) == PRESET_BASE.(sr := FromPreset(preset).sr, sf := FromPreset(preset).sf, vr := FromPreset(preset).vr)
  {
  }

  /** The four named presets give four different settings, and an unnamed value behaves as
      `FULL_RANDOM`. */
  lemma NamedPresetsDistinct(p: Preset, q: Preset)
    requires !p.Unnamed? && !q.Unnamed? && p != q
    ensures FromPreset(p) != FromPreset(q)
  {
    assert p.FullRandom? || p.RandomHue? || p.RandomHueAndDarkness? || p.Grayscale?;
  }

  lemma UnnamedIsFullRandom(v: int32)
    ensures FromPreset(Unnamed(v)) == FromPreset(FullRandom)
  {
  }

  class WhiteNoise {
    var width: int32
    var height: int32
    var seed: int32
    var hueFactor: real
    var allowRandomHue: bool
    var saturationFactor: real
    var allowRandomSaturation: bool
    var valueFactor: real
    var allowRandomBrightness: bool

    function Settings(): (s: ColorSettings)
      reads this
      ensures s.hf == hueFactor && s.sf == saturationFactor && s.vf == valueFactor
      ensures s.hr == allowRandomHue && s.sr == allowRandomSaturation && s.vr == allowRandomBrightness
    {
      ColorSettings(hueFactor, allowRandomHue, saturationFactor, allowRandomSaturation, valueFactor, allowRandomBrightness)
    }

    /** The parameterless constructor: size and seed 0, the field defaults. */
    constructor Empty()
      ensures width == 0 && height == 0 && seed == 0
      ensures Settings() == FIELD_DEFAULTS
    {
      width, height, seed := 0, 0, 0;
      hueFactor, allowRandomHue := 1.0, false;
      saturationFactor, allowRandomSaturation := 1.0, false;
      valueFactor, allowRandomBrightness := 1.0, false;
    }

    /** The default constructor: size and seed given, the field defaults. */
    constructor Sized(width: int32, height: int32, seed: int32)
      ensures this.width == width && this.height == height && this.seed == seed
      ensures Settings() == FIELD_DEFAULTS
    {
      this.width, this.height, this.seed := width, height, seed;
      hueFactor, allowRandomHue := 1.0, false;
      saturationFactor, allowRandomSaturation := 1.0, false;
      valueFactor, allowRandomBrightness := 1.0, false;
    }

    /** The preset constructor as written: it stores size and seed and never reads the
        preset, so the generator keeps the field defaults. */
    constructor WithPreset(width: int32, height: int32, seed: int32, preset: Preset)
      ensures this.width == width && this.height == height && this.seed == seed
      ensures Settings() == FIELD_DEFAULTS
    {
      this.width, this.height, this.seed := width, height, seed;
      hueFactor, allowRandomHue := 1.0, false;
      saturationFactor, allowRandomSaturation := 1.0, false;
      valueFactor, allowRandomBrightness := 1.0, false;
    }

    /** The preset constructor as its documentation describes it: the settings come from
        `FromPreset`. */
    constructor WithPresetApplied(width: int32, height: int32, seed: int32, preset: Preset)
      ensures this.width == width && this.height == height && this.seed == seed
      ensures Settings() == FromPreset(preset)
    {
      this.width, this.height, this.seed := width, height, seed;
      var s := FromPreset(preset);
      hueFactor, allowRandomHue := s.hf, s.hr;
      saturationFactor, allowRandomSaturation := s.sf, s.sr;
      valueFactor, allowRandomBrightness := s.vf, s.vr;
    }

    /** The manual constructor: every setting given, the three switches defaulting to
        random. */
    constructor Manual(width: int32, height: int32, seed: int32, hueFactor: real, saturationFactor: real,
                       valueFactor: real, allowRandomHue: bool := true, allowRandomSaturation: bool := true,
                       allowRandomBrightness: bool := true)
      ensures this.width == width && this.height == height && this.seed == seed
      ensures Settings() == ColorSettings(hueFactor, allowRandomHue, saturationFactor, allowRandomSaturation,
                                          valueFactor, allowRandomBrightness)
    {
      this.width, this.height, this.seed := width, height, seed;
      this.hueFactor, this.allowRandomHue := hueFactor, allowRandomHue;
      this.saturationFactor, this.allowRandomSaturation := saturationFactor, allowRandomSaturation;
      this.valueFactor, this.allowRandomBrightness := valueFactor, allowRandomBrightness;
    }
  }

  /** No preset yields the field defaults, so a generator built by the preset constructor
      as written never has the settings of the preset it was given: random hue, which
      every preset switches on, stays off. */
  lemma PresetConstructorLosesPreset(preset: Preset)
    ensures FromPreset(preset) != FIELD_DEFAULTS
    ensures FromPreset(preset).hr && !FIELD_DEFAULTS.hr
  {
  }
}
