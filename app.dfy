/**
 * The HTTP handler's logic: the upload filename filter, the registry of
 * processors, the advertised option tables, and `process_image`, which
 * rejects a request in a fixed order, saves the upload, runs the selected
 * processor, and always removes the upload again.
 *
 * The upload folder is modelled as the set of paths stored in it, together
 * with the sequence of file operations the handler performs on it.
 */
module App {
  import opened Wrappers
  import opened Text
  import opened BaseProcessor
  import ArtProcessor
  import FoodProcessor
  import GeneralProcessor

  const UploadFolderName: string := "uploads"

  /** File extensions an upload may have, compared in lower case. */
  const AllowedExtensions: set<string> := {"png", "jpg", "jpeg"}

  // ---------------------------------------------------------------------
  // allowed_file

  /** The name has a `.`, and the text after its last `.`, lower-cased, is an allowed extension. */
  function AllowedFile(filename: string): (r: bool)
    ensures r ==> '.' in filename && |filename| >= 4
  {
    '.' in filename && Lower(filename[LastIndexOf(filename, '.') + 1..]) in AllowedExtensions
  }

  /** Where the last `.` of a name is known, the name is allowed exactly when what follows it is. */
  lemma AllowedFileAt(filename: string, i: nat)
    requires i < |filename| && filename[i] == '.' && '.' !in filename[i + 1..]
    ensures AllowedFile(filename) <==> Lower(filename[i + 1..]) in AllowedExtensions
  {
    LastIndexOfAt(filename, '.', i);
  }

  /** An upload is allowed exactly when it ends in `.<ext>` with no further `.` and an allowed `ext`. */
  lemma AllowedFileIff(filename: string)
    ensures AllowedFile(filename) <==>
      exists i :: 0 <= i < |filename| && filename[i] == '.' && '.' !in filename[i + 1..]
                  && Lower(filename[i + 1..]) in AllowedExtensions
  {
    var last := LastIndexOf(filename, '.');
    if AllowedFile(filename) {
      assert 0 <= last < |filename| && filename[last] == '.';
    }
    forall i | 0 <= i < |filename| && filename[i] == '.' && '.' !in filename[i + 1..]
      ensures AllowedFile(filename) <==> Lower(filename[i + 1..]) in AllowedExtensions
    {
      AllowedFileAt(filename, i);
    }
  }

  /** Lower-casing keeps every `.` where it is and creates no new one. */
  lemma LowerKeepsDots(s: string)
    ensures forall k :: 0 <= k < |s| ==> (Lower(s)[k] == '.' <==> s[k] == '.')
  {
  }

  /** Lower-casing twice is lower-casing once, and commutes with taking a suffix. */
  lemma LowerSuffix(s: string, i: nat)
    requires i <= |s|
    ensures Lower(Lower(s)[i..]) == Lower(s[i..])
  {
    var lower := Lower(s);
    forall k | 0 <= k < |s| - i
      ensures Lower(lower[i..])[k] == Lower(s[i..])[k]
    {
      assert lower[i..][k] == lower[i + k];
      assert s[i..][k] == s[i + k];
    }
  }

  /** Lower-casing leaves the last `.` where it was. */
  lemma LowerKeepsLastDot(s: string)
    ensures LastIndexOf(Lower(s), '.') == LastIndexOf(s, '.')
  {
    var lower := Lower(s);
    LowerKeepsDots(s);
    var i := LastIndexOf(s, '.');
    if i >= 0 {
      assert '.' !in lower[i + 1..] by {
        forall k | i + 1 <= k < |lower| ensures lower[k] != '.' {
          assert s[k] == s[i + 1..][k - i - 1];
        }
      }
      LastIndexOfAt(lower, '.', i);
    } else {
      assert '.' !in lower by {
        forall k | 0 <= k < |lower| ensures lower[k] != '.' {
          assert s[k] in s;
        }
      }
    }
  }

  /** Where a name has a last `.`, its lower-cased form is judged by the same extension. */
  lemma AllowedFileIgnoresCaseAt(filename: string, i: nat)
    requires i < |filename| && filename[i] == '.' && '.' !in filename[i + 1..]
    requires LastIndexOf(Lower(filename), '.') == i
    ensures AllowedFile(Lower(filename)) == AllowedFile(filename)
  {
    var lower := Lower(filename);
    assert Lower(lower[i + 1..]) == Lower(filename[i + 1..]) by {
      LowerSuffix(filename, i + 1);
    }
    assert AllowedFile(lower) <==> Lower(lower[i + 1..]) in AllowedExtensions by {
      AllowedFileAt(lower, i);
    }
    AllowedFileAt(filename, i);
  }

  /** The check ignores case: a name and its lower-cased form are allowed alike. */
  lemma AllowedFileIgnoresCase(filename: string)
    ensures AllowedFile(Lower(filename)) == AllowedFile(filename)
  {
    LowerKeepsLastDot(filename);
    var i := LastIndexOf(filename, '.');
    if i >= 0 {
      AllowedFileIgnoresCaseAt(filename, i);
    }
  }

  /** A stem (which may itself contain dots), a `.`, and an extension without `.`:
      allowed exactly when the extension is. */
  lemma AllowedFileOfExtension(stem: string, ext: string)
    requires '.' !in ext
    ensures AllowedFile(stem + "." + ext) <==> Lower(ext) in AllowedExtensions
  {
    var filename := stem + "." + ext;
    assert filename[|stem| + 1..] == ext;
    AllowedFileAt(filename, |stem|);
  }

  /** Every listed extension is accepted after any stem. */
  lemma AllowedFileAcceptsListedExtensions(stem: string)
    ensures AllowedFile(stem + ".png") && AllowedFile(stem + ".jpg") && AllowedFile(stem + ".jpeg")
  {
    assert Lower("png") == "png";
    assert Lower("jpg") == "jpg";
    assert Lower("jpeg") == "jpeg";
    assert stem + ".png" == stem + "." + "png";
    assert stem + ".jpg" == stem + "." + "jpg";
    assert stem + ".jpeg" == stem + "." + "jpeg";
    AllowedFileOfExtension(stem, "png");
    AllowedFileOfExtension(stem, "jpg");
    AllowedFileOfExtension(stem, "jpeg");
  }

  /** Upper-case extensions are accepted too, since the comparison is in lower case. */
  lemma AllowedFileAcceptsUpperCase(stem: string)
    ensures AllowedFile(stem + ".PNG") && AllowedFile(stem + ".JPG") && AllowedFile(stem + ".JPEG")
  {
    assert Lower("PNG") == "png";
    assert Lower("JPG") == "jpg";
    assert Lower("JPEG") == "jpeg";
    assert stem + ".PNG" == stem + "." + "PNG";
    assert stem + ".JPG" == stem + "." + "JPG";
    assert stem + ".JPEG" == stem + "." + "JPEG";
    AllowedFileOfExtension(stem, "PNG");
    AllowedFileOfExtension(stem, "JPG");
    AllowedFileOfExtension(stem, "JPEG");
  }

  /**
   * Only the text after the last `.` counts: an allowed extension earlier in
   * the name does not help, so `x.png.exe` and `x.png.` are rejected.
   */
  lemma AllowedFileUsesLastDot(stem: string, ext: string)
    requires '.' !in ext && Lower(ext) !in AllowedExtensions
    ensures !AllowedFile(stem + ".png." + ext)
  {
    assert stem + ".png." + ext == (stem + ".png") + "." + ext;
    AllowedFileOfExtension(stem + ".png", ext);
  }

  /** A name without a `.` is never allowed, even when it spells an extension. */
  lemma AllowedFileNeedsDot(filename: string)
    requires '.' !in filename
    ensures !AllowedFile(filename)
  {
  }

  // ---------------------------------------------------------------------
  // The processor registry and its advertised options

  datatype ProcessorType = Art | Food | General

  /** The `processors` registry: type name to processor. */
  const Processors: map<string, ProcessorType> := map["art" := Art, "food" := Food, "general" := General]

  function TypeName(t: ProcessorType): string
  {
    match t
    case Art => "art"
    case Food => "food"
    case General => "general"
  }

  /** The registry holds exactly the three processors, each under its own name. */
  lemma RegistryNamesEachProcessor(t: ProcessorType)
    ensures TypeName(t) in Processors && Processors[TypeName(t)] == t
    ensures Processors.Keys == {"art", "food", "general"}
  {
  }

  /** The result of whichever processor ran. */
  datatype Output =
    | ArtOutput(art: ArtProcessor.ArtResult)
    | FoodOutput(food: FoodProcessor.FoodResult)
    | GeneralOutput(general: GeneralProcessor.GeneralResult)

  /** `processor.process(filepath, settings)` for the selected processor. */
  function Dispatch(t: ProcessorType, settings: Settings): (r: Result<Output, Error>)
    ensures r.Ok? ==> ValidateSettings(settings) == Pass
    ensures r.Ok? ==> match t
      case Art => r.value.ArtOutput?
      case Food => r.value.FoodOutput?
      case General => r.value.GeneralOutput?
    ensures t == Art ==>
      var p := ArtProcessor.Process(settings);
      && (r.Ok? <==> p.Ok?)
      && (r.Ok? ==> r.value == ArtOutput(p.value))
      && (r.Err? ==> r.error == p.error)
    ensures t == Food ==>
      var p := FoodProcessor.Process(settings);
      && (r.Ok? <==> p.Ok?)
      && (r.Ok? ==> r.value == FoodOutput(p.value))
      && (r.Err? ==> r.error == p.error)
    ensures t == General ==>
      var p := GeneralProcessor.Process(settings);
      && (r.Ok? <==> p.Ok?)
      && (r.Ok? ==> r.value == GeneralOutput(p.value))
      && (r.Err? ==> r.error == p.error)
  {
    match t
    case Art =>
      (match ArtProcessor.Process(settings)
       case Ok(v) => Ok(ArtOutput(v))
       case Err(e) => Err(e))
    case Food =>
      (match FoodProcessor.Process(settings)
       case Ok(v) => Ok(FoodOutput(v))
       case Err(e) => Err(e))
    case General =>
      (match GeneralProcessor.Process(settings)
       case Ok(v) => Ok(GeneralOutput(v))
       case Err(e) => Err(e))
  }

  /** One enumerated setting: its key and the values offered for it. */
  datatype OptionList = OptionList(key: string, values: seq<string>)

  /** What `/api/settings` offers for one processor type. */
  datatype SettingsInfo = SettingsInfo(resolutions: seq<string>, options: seq<OptionList>)

  /** `get_settings`: the resolutions and option values offered per type. */
  function AdvertisedSettings(t: ProcessorType): SettingsInfo
  {
    match t
    case Art =>
      SettingsInfo(["512x512", "1024x1024", "2048x2048"],
                   [OptionList("style", ArtProcessor.SupportedStyles),
                    OptionList("format", SupportedFormats)])
    case Food =>
      SettingsInfo(["512x512", "1024x1024"],
                   [OptionList("detection", FoodProcessor.SupportedDetectionModes),
                    OptionList("metadata", FoodProcessor.SupportedMetadata)])
    case General =>
      SettingsInfo(["512x512", "1024x1024", "2048x2048"],
                   [OptionList("optimization", GeneralProcessor.OptimizationModes),
                    OptionList("format", SupportedFormats)])
  }

  /** `get_processors`: the same enumerations, under the names the processors give them. */
  function Capabilities(t: ProcessorType): seq<OptionList>
  {
    match t
    case Art =>
      [OptionList("supported_styles", ArtProcessor.SupportedStyles),
       OptionList("supported_formats", SupportedFormats)]
    case Food =>
      [OptionList("detection_modes", FoodProcessor.SupportedDetectionModes),
       OptionList("metadata_types", FoodProcessor.SupportedMetadata)]
    case General =>
      [OptionList("optimization_modes", GeneralProcessor.OptimizationModes),
       OptionList("supported_formats", SupportedFormats)]
  }

  /** Every advertised resolution passes validation, whatever else the settings hold. */
  lemma AdvertisedResolutionsValidate(t: ProcessorType, settings: Settings)
    requires "resolution" in settings && settings["resolution"] in AdvertisedSettings(t).resolutions
    ensures ValidateSettings(settings) == Pass
  {
    var r := settings["resolution"];
    assert r == "512x512" || r == "1024x1024" || r == "2048x2048";
    if r == "512x512" {
      assert IntToString(512) == "512";
      ValidatePrintedResolution(settings, 512, 512);
    } else if r == "1024x1024" {
      assert IntToString(1024) == "1024";
      ValidatePrintedResolution(settings, 1024, 1024);
    } else {
      assert IntToString(2048) == "2048";
      ValidatePrintedResolution(settings, 2048, 2048);
    }
  }

  /** Settings built only from advertised values are always accepted by that type's processor. */
  lemma AdvertisedSettingsAccepted(t: ProcessorType, resolution: string, first: string, second: string)
    requires resolution in AdvertisedSettings(t).resolutions
    requires first in AdvertisedSettings(t).options[0].values
    requires second in AdvertisedSettings(t).options[1].values
    ensures var info := AdvertisedSettings(t);
      Dispatch(t, map["resolution" := resolution,
                      info.options[0].key := first,
                      info.options[1].key := second]).Ok?
  {
    match t {
      case Art =>
        var settings := map["resolution" := resolution, "style" := first, "format" := second];
        AdvertisedResolutionsValidate(t, settings);
        ArtProcessor.AcceptsExactlySupportedOptions(settings);
      case Food =>
        var settings := map["resolution" := resolution, "detection" := first, "metadata" := second];
        AdvertisedResolutionsValidate(t, settings);
        FoodProcessor.AcceptsExactlySupportedOptions(settings);
      case General =>
        var settings := map["resolution" := resolution, "optimization" := first, "format" := second];
        AdvertisedResolutionsValidate(t, settings);
        GeneralProcessor.AcceptsExactlySupportedOptions(settings);
    }
  }

  /** `/api/processors` and `/api/settings` offer the same values for each setting. */
  lemma CapabilitiesMatchSettings(t: ProcessorType)
    ensures |Capabilities(t)| == |AdvertisedSettings(t).options| == 2
    ensures forall k :: 0 <= k < 2 ==> Capabilities(t)[k].values == AdvertisedSettings(t).options[k].values
  {
  }

  // ---------------------------------------------------------------------
  // process_image

  /** An uploaded file, as far as the handler looks at it. */
  datatype Upload = Upload(filename: string)

  /** A POST to `/api/process`: the optional `file` part and the form fields. */
  datatype Request = Request(file: Option<Upload>, form: map<string, string>)

  /** What `json.loads` makes of the `settings` field. */
  datatype Decoded = Parsed(settings: Settings) | Malformed(message: string)

  /** The handler's reply: the processor result (status 200), or an error message and status. */
  datatype Response = Success(result: Output) | Failure(status: nat, error: string)

  /** `json.loads(request.form.get('settings', '{}'))`, with the decoder given as `decode`. */
  function DecodeSettings(form: map<string, string>, decode: string -> Decoded): Decoded
  {
    if "settings" in form then decode(form["settings"]) else Parsed(map[])
  }

  /** The processor type asked for, `general` when the field is absent. */
  function RequestedType(req: Request): string
  {
    Get(req.form, "type", "general")
  }

  /** The request passes every check made before the upload is saved. */
  predicate Admitted(req: Request, decode: string -> Decoded)
  {
    && req.file.Some?
    && req.file.value.filename != ""
    && AllowedFile(req.file.value.filename)
    && DecodeSettings(req.form, decode).Parsed?
    && RequestedType(req) in Processors
  }

  /** Where the upload is saved: `uploads/<uuid>_<secure name>`. */
  function UploadPath(uuid: string, secureName: string): string
  {
    UploadFolderName + "/" + uuid + "_" + secureName
  }

  /** The response `process_image` returns, as a function of the request. */
  function Handle(req: Request, decode: string -> Decoded): (resp: Response)
    ensures resp.Failure? ==> resp.status == 400 || resp.status == 500
    ensures resp.Success? ==> Admitted(req, decode)
  {
    if req.file.None? then Failure(400, "No file uploaded")
    else if req.file.value.filename == "" then Failure(400, "No file selected")
    else if !AllowedFile(req.file.value.filename) then Failure(400, "File type not allowed")
    else
      match DecodeSettings(req.form, decode)
      case Malformed(message) => Failure(500, message)
      case Parsed(settings) =>
        if RequestedType(req) !in Processors then Failure(400, "Invalid processor type")
        else
          match Dispatch(Processors[RequestedType(req)], settings)
          case Ok(result) => Success(result)
          case Err(e) => Failure(500, Message(e))
  }

  /** One operation on the upload folder. */
  datatype FileOp = Saved(path: string) | Removed(path: string) | RemoveFailed(path: string)

  /** The upload folder: the paths stored in it and the operations performed on it. */
  class UploadFolder {
    var stored: set<string>
    var trace: seq<FileOp>

    constructor (initial: set<string>)
      ensures stored == initial && trace == []
    {
      stored := initial;
      trace := [];
    }

    /** `file.save(path)`: the path is stored afterwards. */
    method Save(path: string)
      modifies this
      ensures stored == old(stored) + {path}
      ensures trace == old(trace) + [Saved(path)]
    {
      stored := stored + {path};
      trace := trace + [Saved(path)];
    }

    /** `os.remove(path)`; `fails` stands for the environment making it raise, which leaves the folder as it was. */
    method Remove(path: string, fails: bool) returns (removed: bool)
      modifies this
      ensures removed == !fails
      ensures stored == if fails then old(stored) else old(stored) - {path}
      ensures trace == old(trace) + [if fails then RemoveFailed(path) else Removed(path)]
    {
      if fails {
        trace := trace + [RemoveFailed(path)];
        removed := false;
      } else {
        stored := stored - {path};
        trace := trace + [Removed(path)];
        removed := true;
      }
    }
  }

  /**
   * `process_image`. `decode` stands for `json.loads`, `secureFilename` for
   * werkzeug's `secure_filename`, `uuid` for the fresh `uuid.uuid4()`, and
   * `removeFails` for whether `os.remove` raises.
   *
   * The response does not depend on the storage or on whether the removal
   * failed. A rejected request touches no file; an admitted one saves
   * exactly one upload and then removes it, whatever the processor did.
   */
  method ProcessImage(folder: UploadFolder, req: Request, decode: string -> Decoded,
                      secureFilename: string -> string, uuid: string, removeFails: bool)
    returns (response: Response)
    modifies folder
    ensures response == Handle(req, decode)
    ensures !Admitted(req, decode) ==>
      folder.stored == old(folder.stored) && folder.trace == old(folder.trace)
    ensures Admitted(req, decode) ==>
      var path := UploadPath(uuid, secureFilename(req.file.value.filename));
      && folder.trace == old(folder.trace) + [Saved(path), if removeFails then RemoveFailed(path) else Removed(path)]
      && folder.stored == if removeFails then old(folder.stored) + {path} else old(folder.stored) - {path}
    ensures Admitted(req, decode) && !removeFails &&
            UploadPath(uuid, secureFilename(req.file.value.filename)) !in old(folder.stored) ==>
      folder.stored == old(folder.stored)
  {
    if req.file.None? {
      return Failure(400, "No file uploaded");
    }
    var file := req.file.value;
    if file.filename == "" {
      return Failure(400, "No file selected");
    }
    if !AllowedFile(file.filename) {
      return Failure(400, "File type not allowed");
    }

    var processorType := RequestedType(req);
    var settings: Settings;
    match DecodeSettings(req.form, decode) {
      case Malformed(message) =>
        return Failure(500, message);
      case Parsed(decoded) =>
        settings := decoded;
    }
    if processorType !in Processors {
      return Failure(400, "Invalid processor type");
    }

    var path := UploadPath(uuid, secureFilename(file.filename));
    folder.Save(path);

    // try: process ... finally: remove, whose failure is only logged
    var outcome := Dispatch(Processors[processorType], settings);
    var _ := folder.Remove(path, removeFails);

    match outcome {
      case Ok(result) =>
        response := Success(result);
      case Err(e) =>
        response := Failure(500, Message(e));
    }
  }

  // ---------------------------------------------------------------------
  // Properties of the handler

  /**
   * Status 400 is exactly the client errors: a missing, unnamed or
   * disallowed file, or an unknown type once the settings decoded. Status
   * 500 is a settings field that does not decode or a processor error; 200
   * is a processor result.
   */
  lemma StatusClassification(req: Request, decode: string -> Decoded)
    ensures Handle(req, decode).Failure? ==> Handle(req, decode).status in {400, 500}
    ensures (Handle(req, decode).Failure? && Handle(req, decode).status == 400) <==>
      || req.file.None?
      || req.file.value.filename == ""
      || !AllowedFile(req.file.value.filename)
      || (DecodeSettings(req.form, decode).Parsed? && RequestedType(req) !in Processors)
    ensures Handle(req, decode).Success? <==>
      Admitted(req, decode) &&
      Dispatch(Processors[RequestedType(req)], DecodeSettings(req.form, decode).settings).Ok?
  {
  }

  /** The file checks come first: when one fails, the form and its settings play no part. */
  lemma FileChecksComeFirst(req: Request, decode: string -> Decoded, form: map<string, string>,
                            other: string -> Decoded)
    requires req.file.None? || req.file.value.filename == "" || !AllowedFile(req.file.value.filename)
    ensures Handle(req, decode) == Handle(req.(form := form), other)
    ensures Handle(req, decode).Failure? && Handle(req, decode).status == 400
  {
  }

  /** The checks are made in order: missing file, then empty name, then extension. */
  lemma RejectionOrder(req: Request, decode: string -> Decoded)
    ensures req.file.None? ==> Handle(req, decode) == Failure(400, "No file uploaded")
    ensures req.file.Some? && req.file.value.filename == "" ==>
      Handle(req, decode) == Failure(400, "No file selected")
    ensures req.file.Some? && req.file.value.filename != "" && !AllowedFile(req.file.value.filename) ==>
      Handle(req, decode) == Failure(400, "File type not allowed")
    ensures req.file.Some? && req.file.value.filename != "" && AllowedFile(req.file.value.filename)
            && DecodeSettings(req.form, decode).Parsed? && RequestedType(req) !in Processors ==>
      Handle(req, decode) == Failure(400, "Invalid processor type")
  {
  }

  /** Settings are decoded before the type is looked up, so a decoding error wins over an unknown type. */
  lemma SettingsDecodedBeforeTypeCheck(req: Request, decode: string -> Decoded)
    requires req.file.Some? && req.file.value.filename != "" && AllowedFile(req.file.value.filename)
    requires DecodeSettings(req.form, decode).Malformed?
    ensures Handle(req, decode) == Failure(500, DecodeSettings(req.form, decode).message)
  {
  }

  /** A request without a `type` field is handled as a request for `general`. */
  lemma TypeDefaultsToGeneral(req: Request, decode: string -> Decoded)
    requires "type" !in req.form
    ensures Handle(req, decode) == Handle(req.(form := req.form["type" := "general"]), decode)
  {
    var req' := req.(form := req.form["type" := "general"]);
    assert DecodeSettings(req'.form, decode) == DecodeSettings(req.form, decode);
  }

  /** Whatever a processor raises becomes status 500 carrying its message. */
  lemma ProcessorErrorsAre500(req: Request, decode: string -> Decoded)
    requires Admitted(req, decode)
    ensures var outcome := Dispatch(Processors[RequestedType(req)], DecodeSettings(req.form, decode).settings);
      Handle(req, decode) == if outcome.Ok? then Success(outcome.value) else Failure(500, Message(outcome.error))
  {
  }

  /** An art request for a stylized model in glb gets back those values. */
  lemma ArtScenario(req: Request, decode: string -> Decoded)
    requires req.file.Some? && req.file.value.filename != "" && AllowedFile(req.file.value.filename)
    requires RequestedType(req) == "art"
    requires DecodeSettings(req.form, decode) == Parsed(map["style" := "stylized", "format" := "glb"])
    ensures Handle(req, decode) == Success(ArtOutput(ArtProcessor.ArtResult(
      "processed_model.glb", "preview.png", 10.5, "stylized", "glb")))
  {
    var settings := map["style" := "stylized", "format" := "glb"];
    assert Processors["art"] == Art;
    assert ValidateSettings(settings) == Pass;
    assert ArtProcessor.Process(settings).Ok?;
    ProcessorErrorsAre500(req, decode);
  }

  /** A food request for multiple detection with nutritional metadata gets an item carrying nutrition. */
  lemma FoodScenario(req: Request, decode: string -> Decoded)
    requires req.file.Some? && req.file.value.filename != "" && AllowedFile(req.file.value.filename)
    requires RequestedType(req) == "food"
    requires DecodeSettings(req.form, decode) == Parsed(map["detection" := "multiple", "metadata" := "nutritional"])
    ensures Handle(req, decode).Success? && Handle(req, decode).result.FoodOutput?
    ensures var result := Handle(req, decode).result.food;
      && result.detectionMode == "multiple"
      && |result.detectedItems| == 1
      && result.detectedItems[0].nutrition.Some?
  {
    var settings := map["detection" := "multiple", "metadata" := "nutritional"];
    assert Processors["food"] == Food;
    assert ValidateSettings(settings) == Pass;
    assert FoodProcessor.Process(settings).Ok?;
    ProcessorErrorsAre500(req, decode);
  }

  /**
   * An oversized resolution reaches the processor and comes back as status
   * 500, for every type and however the integers are written (`4096x1`,
   * `04096x1`, `+4096x1`).
   */
  lemma OversizedResolutionIs500(req: Request, decode: string -> Decoded, a: string, b: string)
    requires req.file.Some? && req.file.value.filename != "" && AllowedFile(req.file.value.filename)
    requires RequestedType(req) in Processors
    requires DecodeSettings(req.form, decode).Parsed?
    requires var settings := DecodeSettings(req.form, decode).settings;
      "resolution" in settings && settings["resolution"] == a + "x" + b
    requires IsIntLiteral(a) && IsIntLiteral(b)
    requires ParseInt(a).value > MaxResolution || ParseInt(b).value > MaxResolution
    ensures Handle(req, decode) == Failure(500, "Resolution exceeds maximum of 2048x2048")
  {
    var settings := DecodeSettings(req.form, decode).settings;
    ValidateWellFormedResolution(settings, a, b);
    assert Dispatch(Processors[RequestedType(req)], settings) == Err(ResolutionTooLarge);
    ResolutionTooLargeMessage();
  }
}
