/**
 * The food processor: validates the settings, fills in a detection mode and
 * a metadata type, checks each against its enumeration (detection first),
 * and returns a result with one detected item whose nutrition record is
 * present only when nutritional metadata was asked for.
 */
module FoodProcessor {
  import opened Wrappers
  import opened BaseProcessor

  /** Detection modes the food processor supports, in advertised order. */
  const SupportedDetectionModes: seq<string> := ["single", "multiple"]

  /** Metadata types the food processor supports, in advertised order. */
  const SupportedMetadata: seq<string> := ["basic", "nutritional"]

  const DefaultDetection: string := "single"
  const DefaultMetadata: string := "basic"

  datatype Nutrition = Nutrition(calories: int, protein: int, carbs: int, fat: int)

  datatype DetectedItem = DetectedItem(name: string, confidence: real, nutrition: Option<Nutrition>)

  datatype FoodResult = FoodResult(
    modelUrl: string,
    previewUrl: string,
    detectionMode: string,
    detectedItems: seq<DetectedItem>,
    processingTime: real)

  /** The detection mode in effect: the `detection` setting, or the default. */
  function EffectiveDetection(settings: Settings): string
  {
    Get(settings, "detection", DefaultDetection)
  }

  /** The metadata type in effect: the `metadata` setting, or the default. */
  function EffectiveMetadata(settings: Settings): string
  {
    Get(settings, "metadata", DefaultMetadata)
  }

  /**
   * `FoodProcessor.process`. A result is produced only for settings that
   * validate; it has exactly one detected item, with a confidence in [0, 1],
   * and that item carries nutrition if and only if the metadata type in
   * effect is `nutritional`.
   */
  function Process(settings: Settings): (r: Result<FoodResult, Error>)
    ensures r.Ok? ==> ValidateSettings(settings) == Pass
    ensures r.Ok? ==>
      && r.value.modelUrl == "food_model.obj"
      && r.value.previewUrl == "food_preview.png"
      && r.value.detectionMode in SupportedDetectionModes
      && |r.value.detectedItems| == 1
      && 0.0 <= r.value.detectedItems[0].confidence <= 1.0
      && (r.value.detectedItems[0].nutrition.Some? <==> EffectiveMetadata(settings) == "nutritional")
  {
    match ValidateSettings(settings)
    case Fail(e) => Err(e)
    case Pass =>
      var detectionMode := EffectiveDetection(settings);
      var metadataType := EffectiveMetadata(settings);
      if detectionMode !in SupportedDetectionModes then Err(UnsupportedDetectionMode(detectionMode))
      else if metadataType !in SupportedMetadata then Err(UnsupportedMetadataType(metadataType))
      else
        var nutrition :=
          if metadataType == "nutritional" then Some(Nutrition(100, 5, 20, 2)) else None;
        Ok(FoodResult(
          "food_model.obj",
          "food_preview.png",
          detectionMode,
          [DetectedItem("Example Food Item", 0.95, nutrition)],
          8.5))
  }

  // ---------------------------------------------------------------------
  // Properties

  /** A missing detection mode or metadata type behaves exactly as the default written out. */
  lemma MissingKeysTakeDefaults(settings: Settings)
    ensures "detection" !in settings ==> Process(settings) == Process(settings["detection" := "single"])
    ensures "metadata" !in settings ==> Process(settings) == Process(settings["metadata" := "basic"])
  {
    ValidateReadsOnlyResolution(settings, settings["detection" := "single"]);
    ValidateReadsOnlyResolution(settings, settings["metadata" := "basic"]);
  }

  /**
   * On success the result echoes the detection mode in effect and, in both
   * modes, holds exactly one item.
   */
  lemma ResultEchoesSettings(settings: Settings)
    requires Process(settings).Ok?
    ensures Process(settings).value.detectionMode ==
      if "detection" in settings then settings["detection"] else "single"
    ensures |Process(settings).value.detectedItems| == 1
  {
  }

  /** Nutrition is present exactly for `nutritional`, and is then 100 kcal, 5 g protein, 20 g carbs, 2 g fat. */
  lemma NutritionOnlyWhenRequested(settings: Settings)
    requires Process(settings).Ok?
    ensures var item := Process(settings).value.detectedItems[0];
      if "metadata" in settings && settings["metadata"] == "nutritional"
      then item.nutrition == Some(Nutrition(100, 5, 20, 2))
      else item.nutrition == None
  {
  }

  /** Exactly the advertised modes and metadata types are accepted once the resolution validates. */
  lemma AcceptsExactlySupportedOptions(settings: Settings)
    requires ValidateSettings(settings) == Pass
    ensures Process(settings).Ok? <==>
      EffectiveDetection(settings) in {"single", "multiple"} && EffectiveMetadata(settings) in {"basic", "nutritional"}
    ensures EffectiveDetection(settings) !in {"single", "multiple"} ==>
      Process(settings) == Err(UnsupportedDetectionMode(EffectiveDetection(settings)))
    ensures EffectiveDetection(settings) in {"single", "multiple"} && EffectiveMetadata(settings) !in {"basic", "nutritional"} ==>
      Process(settings) == Err(UnsupportedMetadataType(EffectiveMetadata(settings)))
  {
  }

  /** A resolution error is reported whatever the detection mode and metadata type are. */
  lemma ResolutionCheckedFirst(settings: Settings, detection: string, metadata: string)
    requires ValidateSettings(settings).Fail?
    ensures Process(settings["detection" := detection]["metadata" := metadata]) ==
      Err(ValidateSettings(settings).error)
  {
    ValidateReadsOnlyResolution(settings, settings["detection" := detection]["metadata" := metadata]);
  }

  /** An unsupported detection mode is reported whatever the metadata type is. */
  lemma DetectionCheckedBeforeMetadata(settings: Settings, metadata: string)
    requires ValidateSettings(settings) == Pass
    requires EffectiveDetection(settings) !in SupportedDetectionModes
    ensures Process(settings["metadata" := metadata]) ==
      Err(UnsupportedDetectionMode(EffectiveDetection(settings)))
  {
    ValidateReadsOnlyResolution(settings, settings["metadata" := metadata]);
  }

  /** Keys other than `resolution`, `detection` and `metadata` (including `format`) have no effect. */
  lemma IgnoresOtherKeys(settings: Settings, key: string, value: string)
    requires key != "resolution" && key != "detection" && key != "metadata"
    ensures Process(settings[key := value]) == Process(settings)
    ensures Process(settings - {key}) == Process(settings)
  {
    ValidateReadsOnlyResolution(settings, settings[key := value]);
    ValidateReadsOnlyResolution(settings, settings - {key});
  }
}
