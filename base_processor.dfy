/**
 * The base processor: the descriptor constants every processor shares
 * (supported output formats, maximum resolution), the errors processors
 * raise, and the settings validator that parses an optional `resolution`
 * of the form `<width>x<height>` and bounds it from above.
 */
module BaseProcessor {
  import opened Wrappers
  import opened Text

  /** A decoded settings object. Values are strings; unknown keys are allowed. */
  type Settings = map<string, string>

  /** Output formats every processor supports, in the order they are advertised. */
  const SupportedFormats: seq<string> := ["obj", "glb"]

  /** Largest width or height a resolution may have. */
  const MaxResolution: int := 2048

  /**
   * The ValueErrors a processor raises. The first three are raised by the
   * Python runtime while unpacking `map(int, resolution.split('x'))`; the
   * others by the processors themselves.
   */
  datatype Error =
    | InvalidLiteral(literal: string)
    | NotEnoughValues
    | TooManyValues
    | ResolutionTooLarge
    | UnsupportedStyle(style: string)
    | UnsupportedFormat(format: string)
    | UnsupportedDetectionMode(mode: string)
    | UnsupportedMetadataType(metadata: string)
    | UnsupportedOptimizationMode(optimization: string)

  /** The errors that mean the resolution is not of the form `<int>x<int>`. */
  predicate IsMalformed(e: Error)
  {
    e.InvalidLiteral? || e.NotEnoughValues? || e.TooManyValues?
  }

  /** `str(e)`: the text the request handler sends back for a raised error. */
  function Message(e: Error): string
  {
    match e
    case InvalidLiteral(literal) => "invalid literal for int() with base 10: '" + literal + "'"
    case NotEnoughValues => "not enough values to unpack (expected 2, got 1)"
    case TooManyValues => "too many values to unpack (expected 2)"
    case ResolutionTooLarge =>
      "Resolution exceeds maximum of " + IntToString(MaxResolution) + "x" + IntToString(MaxResolution)
    case UnsupportedStyle(style) => "Unsupported style: " + style
    case UnsupportedFormat(format) => "Unsupported format: " + format
    case UnsupportedDetectionMode(mode) => "Unsupported detection mode: " + mode
    case UnsupportedMetadataType(metadata) => "Unsupported metadata type: " + metadata
    case UnsupportedOptimizationMode(optimization) => "Unsupported optimization mode: " + optimization
  }

  /** `settings.get(key, default)`. */
  function Get(settings: Settings, key: string, default: string): string
  {
    if key in settings then settings[key] else default
  }

  /**
   * `width, height = map(int, resolution.split('x'))`. The map is lazy, so
   * the pieces are converted one at a time while unpacking: the first piece,
   * then (if there is one) the second, then a third if present, and only
   * then is "too many values" raised. The first failure wins.
   */
  function ParseResolution(resolution: string): (r: Result<(int, int), Error>)
    ensures r.Err? ==> IsMalformed(r.error)
    ensures r.Ok? <==>
      var parts := Split(resolution, 'x');
      |parts| == 2 && IsIntLiteral(parts[0]) && IsIntLiteral(parts[1])
  {
    var parts := Split(resolution, 'x');
    match ParseInt(parts[0])
    case None => Err(InvalidLiteral(parts[0]))
    case Some(width) =>
      if |parts| < 2 then Err(NotEnoughValues)
      else
        match ParseInt(parts[1])
        case None => Err(InvalidLiteral(parts[1]))
        case Some(height) =>
          if |parts| == 2 then Ok((width, height))
          else if ParseInt(parts[2]).None? then Err(InvalidLiteral(parts[2]))
          else Err(TooManyValues)
  }

  /** `validate_settings`: only a present `resolution` is checked, and only from above. */
  function ValidateSettings(settings: Settings): (r: Outcome<Error>)
    ensures "resolution" !in settings ==> r == Pass
    ensures r.Fail? ==> IsMalformed(r.error) || r.error == ResolutionTooLarge
  {
    if "resolution" !in settings then Pass
    else
      match ParseResolution(settings["resolution"])
      case Err(e) => Fail(e)
      case Ok((width, height)) =>
        if width > MaxResolution || height > MaxResolution then Fail(ResolutionTooLarge) else Pass
  }

  // ---------------------------------------------------------------------
  // Properties of the validator

  /** Two integer literals joined by `x` parse to their values. */
  lemma ParseResolutionOfLiterals(a: string, b: string)
    requires IsIntLiteral(a) && IsIntLiteral(b)
    ensures ParseResolution(a + "x" + b) == Ok((ParseInt(a).value, ParseInt(b).value))
  {
    IntLiteralHasNoX(a);
    IntLiteralHasNoX(b);
    SplitJoin([a, b], 'x');
    assert Join([a, b], 'x') == a + "x" + b;
  }

  /** Printing a resolution as `str(w) + 'x' + str(h)` and parsing it gives `(w, h)` back. */
  lemma ParseResolutionRoundTrip(width: int, height: int)
    ensures ParseResolution(IntToString(width) + "x" + IntToString(height)) == Ok((width, height))
  {
    ParseIntOfIntToString(width);
    ParseIntOfIntToString(height);
    ParseResolutionOfLiterals(IntToString(width), IntToString(height));
  }

  /**
   * A well-formed resolution is accepted exactly when neither dimension
   * exceeds the maximum: the bound is inclusive, and there is no lower bound
   * (zero and negative dimensions pass).
   */
  lemma ValidateWellFormedResolution(settings: Settings, a: string, b: string)
    requires "resolution" in settings && settings["resolution"] == a + "x" + b
    requires IsIntLiteral(a) && IsIntLiteral(b)
    ensures ValidateSettings(settings) ==
      if ParseInt(a).value > MaxResolution || ParseInt(b).value > MaxResolution
      then Fail(ResolutionTooLarge) else Pass
  {
    ParseResolutionOfLiterals(a, b);
  }

  /** The same, for a resolution written the way `str()` prints integers. */
  lemma ValidatePrintedResolution(settings: Settings, width: int, height: int)
    requires "resolution" in settings
    requires settings["resolution"] == IntToString(width) + "x" + IntToString(height)
    ensures ValidateSettings(settings) == Pass <==> width <= MaxResolution && height <= MaxResolution
    ensures ValidateSettings(settings).Fail? ==> ValidateSettings(settings).error == ResolutionTooLarge
  {
    ParseResolutionRoundTrip(width, height);
  }

  /**
   * A resolution that does not split on `x` into exactly two integer
   * literals is rejected as malformed, never as too large.
   */
  lemma ValidateRejectsMalformed(settings: Settings)
    requires "resolution" in settings
    requires var parts := Split(settings["resolution"], 'x');
      |parts| != 2 || !IsIntLiteral(parts[0]) || !IsIntLiteral(parts[1])
    ensures ValidateSettings(settings).Fail?
    ensures IsMalformed(ValidateSettings(settings).error)
  {
  }

  /** Only the `resolution` entry matters to the validator. */
  lemma ValidateReadsOnlyResolution(s1: Settings, s2: Settings)
    requires ("resolution" in s1) == ("resolution" in s2)
    requires "resolution" in s1 ==> s1["resolution"] == s2["resolution"]
    ensures ValidateSettings(s1) == ValidateSettings(s2)
  {
  }

  /** The bound is inclusive: `2048x2048` passes. */
  lemma ValidateAcceptsMaximum()
    ensures ValidateSettings(map["resolution" := "2048x2048"]) == Pass
  {
    assert IntToString(2048) == "2048";
    ValidatePrintedResolution(map["resolution" := "2048x2048"], 2048, 2048);
  }

  /** `4096x4096` is too large. */
  lemma ValidateRejectsOversized()
    ensures ValidateSettings(map["resolution" := "4096x4096"]) == Fail(ResolutionTooLarge)
  {
    assert IntToString(4096) == "4096";
    ValidatePrintedResolution(map["resolution" := "4096x4096"], 4096, 4096);
  }

  /** One dimension over the bound is enough: `2049x16` is too large. */
  lemma ValidateRejectsOneOversized()
    ensures ValidateSettings(map["resolution" := "2049x16"]) == Fail(ResolutionTooLarge)
  {
    assert IntToString(2049) == "2049";
    assert IntToString(16) == "16";
    ValidatePrintedResolution(map["resolution" := "2049x16"], 2049, 16);
  }

  /** There is no lower bound: `0x512` and `-5x512` pass. */
  lemma ValidateAcceptsNonPositive()
    ensures ValidateSettings(map["resolution" := "0x512"]) == Pass
    ensures ValidateSettings(map["resolution" := "-5x512"]) == Pass
  {
    assert IntToString(0) == "0";
    assert IntToString(-5) == "-5";
    assert IntToString(512) == "512";
    ValidatePrintedResolution(map["resolution" := "0x512"], 0, 512);
    ValidatePrintedResolution(map["resolution" := "-5x512"], -5, 512);
  }

  /** A single integer is one value where two are unpacked. */
  lemma ValidateRejectsSingleNumber(settings: Settings, a: string)
    requires "resolution" in settings && settings["resolution"] == a
    requires IsIntLiteral(a)
    ensures ValidateSettings(settings) == Fail(NotEnoughValues)
  {
    IntLiteralHasNoX(a);
  }

  /** Three integers are one too many, whatever follows them. */
  lemma ValidateRejectsThreeNumbers(settings: Settings, a: string, b: string, c: string, rest: seq<string>)
    requires "resolution" in settings && settings["resolution"] == Join([a, b, c] + rest, 'x')
    requires IsIntLiteral(a) && IsIntLiteral(b) && IsIntLiteral(c)
    requires forall k :: 0 <= k < |rest| ==> 'x' !in rest[k]
    ensures ValidateSettings(settings) == Fail(TooManyValues)
  {
    IntLiteralHasNoX(a);
    IntLiteralHasNoX(b);
    IntLiteralHasNoX(c);
    SplitJoin([a, b, c] + rest, 'x');
  }

  /** After two integers, a third piece is converted before the count is checked, so its error wins. */
  lemma ValidateConvertsThirdPiece(settings: Settings, a: string, b: string, c: string, rest: seq<string>)
    requires "resolution" in settings && settings["resolution"] == Join([a, b, c] + rest, 'x')
    requires IsIntLiteral(a) && IsIntLiteral(b) && !IsIntLiteral(c) && 'x' !in c
    requires forall k :: 0 <= k < |rest| ==> 'x' !in rest[k]
    ensures ValidateSettings(settings) == Fail(InvalidLiteral(c))
  {
    IntLiteralHasNoX(a);
    IntLiteralHasNoX(b);
    SplitJoin([a, b, c] + rest, 'x');
  }

  /** A first piece that is not an integer is reported, whatever follows it. */
  lemma ValidateRejectsNonInteger(settings: Settings, a: string, rest: seq<string>)
    requires "resolution" in settings && settings["resolution"] == Join([a] + rest, 'x')
    requires !IsIntLiteral(a) && 'x' !in a
    requires forall k :: 0 <= k < |rest| ==> 'x' !in rest[k]
    ensures ValidateSettings(settings) == Fail(InvalidLiteral(a))
  {
    SplitJoin([a] + rest, 'x');
  }

  /** After a first integer, a second piece that is not an integer is reported, whatever follows it. */
  lemma ValidateRejectsNonIntegerSecond(settings: Settings, a: string, b: string, rest: seq<string>)
    requires "resolution" in settings && settings["resolution"] == Join([a, b] + rest, 'x')
    requires IsIntLiteral(a) && !IsIntLiteral(b) && 'x' !in b
    requires forall k :: 0 <= k < |rest| ==> 'x' !in rest[k]
    ensures ValidateSettings(settings) == Fail(InvalidLiteral(b))
  {
    IntLiteralHasNoX(a);
    SplitJoin([a, b] + rest, 'x');
  }

  /** The message for an oversized resolution names the bound. */
  lemma ResolutionTooLargeMessage()
    ensures Message(ResolutionTooLarge) == "Resolution exceeds maximum of 2048x2048"
  {
  }
}
