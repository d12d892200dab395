/**
 * The art processor: validates the settings, fills in a style and an output
 * format, checks each against its enumeration (style first), and returns a
 * result that echoes the values it used.
 */
module ArtProcessor {
  import opened Wrappers
  import opened BaseProcessor

  /** Styles the art processor supports, in the order they are advertised. */
  const SupportedStyles: seq<string> := ["realistic", "stylized"]

  const DefaultStyle: string := "realistic"
  const DefaultFormat: string := "obj"

  datatype ArtResult = ArtResult(
    modelUrl: string,
    previewUrl: string,
    processingTime: real,
    style: string,
    format: string)

  /** The style the processor works with: the `style` setting, or the default. */
  function EffectiveStyle(settings: Settings): string
  {
    Get(settings, "style", DefaultStyle)
  }

  /** The output format the processor works with: the `format` setting, or the default. */
  function EffectiveFormat(settings: Settings): string
  {
    Get(settings, "format", DefaultFormat)
  }

  /**
   * `ArtProcessor.process`. A result is produced only for settings that
   * validate, and it names a supported style and format and a model file
   * whose extension is that format.
   */
  function Process(settings: Settings): (r: Result<ArtResult, Error>)
    ensures r.Ok? ==> ValidateSettings(settings) == Pass
    ensures r.Ok? ==>
      && r.value.style in SupportedStyles
      && r.value.format in SupportedFormats
      && r.value.modelUrl == "processed_model." + r.value.format
      && r.value.previewUrl == "preview.png"
  {
    match ValidateSettings(settings)
    case Fail(e) => Err(e)
    case Pass =>
      var style := EffectiveStyle(settings);
      var outputFormat := EffectiveFormat(settings);
      if style !in SupportedStyles then Err(UnsupportedStyle(style))
      else if outputFormat !in SupportedFormats then Err(UnsupportedFormat(outputFormat))
      else Ok(ArtResult("processed_model." + outputFormat, "preview.png", 10.5, style, outputFormat))
  }

  // ---------------------------------------------------------------------
  // Properties

  /** A missing style or format behaves exactly as the default written out. */
  lemma MissingKeysTakeDefaults(settings: Settings)
    ensures "style" !in settings ==> Process(settings) == Process(settings["style" := "realistic"])
    ensures "format" !in settings ==> Process(settings) == Process(settings["format" := "obj"])
  {
    ValidateReadsOnlyResolution(settings, settings["style" := "realistic"]);
    ValidateReadsOnlyResolution(settings, settings["format" := "obj"]);
  }

  /** On success the result echoes the style and format in effect. */
  lemma ResultEchoesSettings(settings: Settings)
    requires Process(settings).Ok?
    ensures Process(settings).value.style == if "style" in settings then settings["style"] else "realistic"
    ensures Process(settings).value.format == if "format" in settings then settings["format"] else "obj"
  {
  }

  /** Exactly the advertised styles and formats are accepted once the resolution validates. */
  lemma AcceptsExactlySupportedOptions(settings: Settings)
    requires ValidateSettings(settings) == Pass
    ensures Process(settings).Ok? <==>
      EffectiveStyle(settings) in {"realistic", "stylized"} && EffectiveFormat(settings) in {"obj", "glb"}
    ensures EffectiveStyle(settings) !in {"realistic", "stylized"} ==>
      Process(settings) == Err(UnsupportedStyle(EffectiveStyle(settings)))
    ensures EffectiveStyle(settings) in {"realistic", "stylized"} && EffectiveFormat(settings) !in {"obj", "glb"} ==>
      Process(settings) == Err(UnsupportedFormat(EffectiveFormat(settings)))
  {
  }

  /** A resolution error is reported whatever the style and format are. */
  lemma ResolutionCheckedFirst(settings: Settings, style: string, format: string)
    requires ValidateSettings(settings).Fail?
    ensures Process(settings["style" := style]["format" := format]) == Err(ValidateSettings(settings).error)
  {
    ValidateReadsOnlyResolution(settings, settings["style" := style]["format" := format]);
  }

  /** An unsupported style is reported whatever the format is. */
  lemma StyleCheckedBeforeFormat(settings: Settings, format: string)
    requires ValidateSettings(settings) == Pass
    requires EffectiveStyle(settings) !in SupportedStyles
    ensures Process(settings["format" := format]) == Err(UnsupportedStyle(EffectiveStyle(settings)))
  {
    ValidateReadsOnlyResolution(settings, settings["format" := format]);
  }

  /** Keys other than `resolution`, `style` and `format` have no effect. */
  lemma IgnoresOtherKeys(settings: Settings, key: string, value: string)
    requires key != "resolution" && key != "style" && key != "format"
    ensures Process(settings[key := value]) == Process(settings)
    ensures Process(settings - {key}) == Process(settings)
  {
    ValidateReadsOnlyResolution(settings, settings[key := value]);
    ValidateReadsOnlyResolution(settings, settings - {key});
  }
}
