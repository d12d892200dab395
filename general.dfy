/**
 * The general processor: validates the settings, fills in an optimization
 * mode and an output format, checks each against its enumeration
 * (optimization first), and returns a result that echoes the values it used.
 */
module GeneralProcessor {
  import opened Wrappers
  import opened BaseProcessor

  /** Optimization modes the general processor supports, in advertised order. */
  const OptimizationModes: seq<string> := ["speed", "quality"]

  const DefaultOptimization: string := "quality"
  const DefaultFormat: string := "obj"

  datatype GeneralResult = GeneralResult(
    modelUrl: string,
    previewUrl: string,
    processingTime: real,
    optimization: string,
    format: string)

  /** The optimization mode in effect: the `optimization` setting, or the default. */
  function EffectiveOptimization(settings: Settings): string
  {
    Get(settings, "optimization", DefaultOptimization)
  }

  /** The output format in effect: the `format` setting, or the default. */
  function EffectiveFormat(settings: Settings): string
  {
    Get(settings, "format", DefaultFormat)
  }

  /**
   * `GeneralProcessor.process`. A result is produced only for settings that
   * validate, and it names a supported optimization mode and format and a
   * model file whose extension is that format.
   */
  function Process(settings: Settings): (r: Result<GeneralResult, Error>)
    ensures r.Ok? ==> ValidateSettings(settings) == Pass
    ensures r.Ok? ==>
      && r.value.optimization in OptimizationModes
      && r.value.format in SupportedFormats
      && r.value.modelUrl == "general_model." + r.value.format
      && r.value.previewUrl == "preview.png"
  {
    match ValidateSettings(settings)
    case Fail(e) => Err(e)
    case Pass =>
      var optimization := EffectiveOptimization(settings);
      var outputFormat := EffectiveFormat(settings);
      if optimization !in OptimizationModes then Err(UnsupportedOptimizationMode(optimization))
      else if outputFormat !in SupportedFormats then Err(UnsupportedFormat(outputFormat))
      else Ok(GeneralResult("general_model." + outputFormat, "preview.png", 12.0, optimization, outputFormat))
  }

  // ---------------------------------------------------------------------
  // Properties

  /** A missing optimization mode or format behaves exactly as the default written out. */
  lemma MissingKeysTakeDefaults(settings: Settings)
    ensures "optimization" !in settings ==> Process(settings) == Process(settings["optimization" := "quality"])
    ensures "format" !in settings ==> Process(settings) == Process(settings["format" := "obj"])
  {
    ValidateReadsOnlyResolution(settings, settings["optimization" := "quality"]);
    ValidateReadsOnlyResolution(settings, settings["format" := "obj"]);
  }

  /** On success the result echoes the optimization mode and format in effect. */
  lemma ResultEchoesSettings(settings: Settings)
    requires Process(settings).Ok?
    ensures Process(settings).value.optimization ==
      if "optimization" in settings then settings["optimization"] else "quality"
    ensures Process(settings).value.format == if "format" in settings then settings["format"] else "obj"
  {
  }

  /** Exactly the advertised modes and formats are accepted once the resolution validates. */
  lemma AcceptsExactlySupportedOptions(settings: Settings)
    requires ValidateSettings(settings) == Pass
    ensures Process(settings).Ok? <==>
      EffectiveOptimization(settings) in {"speed", "quality"} && EffectiveFormat(settings) in {"obj", "glb"}
    ensures EffectiveOptimization(settings) !in {"speed", "quality"} ==>
      Process(settings) == Err(UnsupportedOptimizationMode(EffectiveOptimization(settings)))
    ensures EffectiveOptimization(settings) in {"speed", "quality"} && EffectiveFormat(settings) !in {"obj", "glb"} ==>
      Process(settings) == Err(UnsupportedFormat(EffectiveFormat(settings)))
  {
  }

  /** A resolution error is reported whatever the optimization mode and format are. */
  lemma ResolutionCheckedFirst(settings: Settings, optimization: string, format: string)
    requires ValidateSettings(settings).Fail?
    ensures Process(settings["optimization" := optimization]["format" := format]) ==
      Err(ValidateSettings(settings).error)
  {
    ValidateReadsOnlyResolution(settings, settings["optimization" := optimization]["format" := format]);
  }

  /** An unsupported optimization mode is reported whatever the format is. */
  lemma OptimizationCheckedBeforeFormat(settings: Settings, format: string)
    requires ValidateSettings(settings) == Pass
    requires EffectiveOptimization(settings) !in OptimizationModes
    ensures Process(settings["format" := format]) ==
      Err(UnsupportedOptimizationMode(EffectiveOptimization(settings)))
  {
    ValidateReadsOnlyResolution(settings, settings["format" := format]);
  }

  /** Keys other than `resolution`, `optimization` and `format` have no effect. */
  lemma IgnoresOtherKeys(settings: Settings, key: string, value: string)
    requires key != "resolution" && key != "optimization" && key != "format"
    ensures Process(settings[key := value]) == Process(settings)
    ensures Process(settings - {key}) == Process(settings)
  {
    ValidateReadsOnlyResolution(settings, settings[key := value]);
    ValidateReadsOnlyResolution(settings, settings - {key});
  }
}
