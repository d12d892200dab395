# NGP-Server settings validation and dispatch, modelled in Dafny

The server accepts an uploaded image together with a processor type
(`art`, `food` or `general`) and a JSON settings object. It returns the
result record of the selected processor. This project models the part of it
that has logic:

- **The base settings validator** (`BaseProcessor.validate_settings`). It parses an optional
  `resolution` of the form `<w>x<h>` by splitting on `x` and converting both
  pieces with `int`, then checks each dimension against the maximum of 2048.
  Only an upper bound is checked.
- **The three processors.** Each one validates, fills in two settings with defaults,
  checks them against fixed enumerations in a fixed order, and builds its
  result record. Each is a total function from settings to a result or an
  error.
- **The upload filter** `allowed_file`. The text after the last `.`, lower-cased,
  must be `png`, `jpg` or `jpeg`.
- **The request handler** `process_image`. It rejects requests in a fixed order,
  then saves the upload, runs the processor and always removes the upload
  again. The upload folder is the set of paths stored in it, plus the
  sequence of file operations performed on it.
- **The registry and the advertised tables.** The registry maps type names to
  processors. The `/api/processors` and `/api/settings` tables list what each
  type accepts.

Files:

- `wrappers.dfy`: `Option`, `Result` and `Outcome`.
- `text.dfy` (module `Text`): the Python string built-ins the code relies on.
  These are `str.split('x')` with its inverse `join`, `int()`, `str()` of an
  integer, `str.lower()`, and the last-separator index behind `rsplit('.', 1)`.
  Round trips are proved: `int(str(n)) == n`, `join(split(s)) == s`, and
  `split(join(p)) == p` for pieces without the separator.
- `base_processor.dfy` (module `BaseProcessor`): the shared constants, the error kinds with
  their messages (`str(e)`), resolution parsing and `ValidateSettings`.
- `art.dfy`, `food.dfy`, `general.dfy`: the three processors and their properties.
- `app.dfy` (module `App`): `AllowedFile`, the registry, `Dispatch`, the
  advertised tables, the response function `Handle`, and the class
  `UploadFolder` with the imperative `ProcessImage`, which is proved to return
  `Handle`'s response and to leave the folder as stated.

Unpacking `map(int, parts)` is lazy, and the model keeps that order. The
first piece is converted first. Then the number of pieces is checked. Then
the second piece is converted. With three or more pieces, the third piece is
converted before "too many values" is raised. So `512` fails with
"not enough values", `1x2x3` with "too many values", and `1x2xhigh` with an
invalid literal.

Settings are Dafny map values, so `validate_settings` cannot modify them.
That it never does is given by construction.

Behaviour of the code worth knowing:

- There is no lower bound on the dimensions, so `0x512` and `-5x512` pass.
- `multiple` detection still returns exactly one item.
- The settings JSON is decoded before the type is looked up. Malformed settings
  therefore give 500 even when the type is also unknown.
- The food processor never looks at `format`.

## Model

| member | source | states |
|---|---|---|
| Text.Split | processors/__init__.py:17 | `split('x')` gives at least one piece and no piece contains the separator |
| Text.JoinSplit | processors/__init__.py:17 | joining the pieces of a split with the separator gives back the original string |
| Text.SplitJoin | processors/__init__.py:17 | pieces free of the separator are recovered exactly by splitting their join |
| Text.ParseInt | processors/__init__.py:17 | `int()` yields a value exactly for an optional sign followed by one or more ASCII digits |
| Text.NatToString | processors/__init__.py:19 | the decimal text of a number is a non-empty run of digits with no leading zero (it starts with `0` only for 0), and has two or more digits exactly when the number is at least 10 |
| Text.DigitsValueOfNatToString | processors/__init__.py:19 | the digits printed for `n` have the value `n` |
| Text.IntToString | processors/__init__.py:19 | `str(n)` is always an integer literal `int()` accepts, in canonical form: it starts with `-` exactly when `n` is negative, never with `+`, and its digits have no leading zero unless `n` is 0 |
| Text.ParseIntOfIntToString | processors/__init__.py:17-19 | `int(str(n)) == n` for every integer |
| Text.IntLiteralHasNoX | processors/__init__.py:17 | an integer literal never contains the separator `x`, so splitting cannot cut one apart |
| Text.LastIndexOf | app.py:31 | the index found holds the character and no later position does, or is -1 when the character is absent |
| Text.LastIndexOfAt | app.py:31 | a position holding the character with none after it is the index `LastIndexOf` finds |
| Text.IndexOf | processors/__init__.py:17 | the index found holds the separator and no earlier position does |
| Text.Lower | app.py:31 | lower-casing keeps the length, leaves no ASCII upper-case letter, turns each upper-case letter into the lower-case letter at the same place in the alphabet, and keeps every other character |
| BaseProcessor.ParseResolution | processors/__init__.py:17 | parsing succeeds exactly when the value splits into two integer literals; every failure is a malformed-resolution error |
| BaseProcessor.ValidateSettings | processors/__init__.py:14-19 | settings without `resolution` pass; failures are malformed-resolution errors or "too large" |
| BaseProcessor.ParseResolutionOfLiterals | processors/__init__.py:17 | `a + "x" + b` for integer literals parses to the two literal values |
| BaseProcessor.ParseResolutionRoundTrip | processors/__init__.py:17 | `str(w) + "x" + str(h)` parses back to `(w, h)` for all integers |
| BaseProcessor.ValidateWellFormedResolution | processors/__init__.py:16-19 | a well-formed resolution fails with "too large" exactly when a dimension exceeds 2048, and passes otherwise |
| BaseProcessor.ValidatePrintedResolution | processors/__init__.py:16-19 | a printed resolution passes exactly when both dimensions are at most 2048; otherwise it fails only as too large |
| BaseProcessor.ValidateRejectsMalformed | processors/__init__.py:17 | a resolution that is not two integer literals around one `x` is rejected as malformed, never as too large |
| BaseProcessor.ValidateReadsOnlyResolution | processors/__init__.py:14-19 | settings that agree on `resolution` validate alike |
| BaseProcessor.ValidateAcceptsMaximum | processors/__init__.py:18 | the bound is inclusive: `2048x2048` passes |
| BaseProcessor.ValidateRejectsOversized | processors/__init__.py:18-19 | `4096x4096` is rejected as too large |
| BaseProcessor.ValidateRejectsOneOversized | processors/__init__.py:18-19 | one dimension over the bound suffices: `2049x16` is too large |
| BaseProcessor.ValidateAcceptsNonPositive | processors/__init__.py:17-18 | there is no lower bound: `0x512` and `-5x512` pass |
| BaseProcessor.ValidateRejectsSingleNumber | processors/__init__.py:17 | a single integer such as `512` fails with "not enough values to unpack" |
| BaseProcessor.ValidateRejectsThreeNumbers | processors/__init__.py:17 | three leading integers such as `1x2x3` fail with "too many values to unpack", whatever follows |
| BaseProcessor.ValidateConvertsThirdPiece | processors/__init__.py:17 | after two integers, a non-integer third piece such as in `1x2xhigh` is reported as an invalid literal, not as too many values |
| BaseProcessor.ValidateRejectsNonInteger | processors/__init__.py:17 | a non-integer first piece such as `wide` in `widex512` is reported as an invalid literal, whatever follows |
| BaseProcessor.ValidateRejectsNonIntegerSecond | processors/__init__.py:17 | after an integer first piece, a non-integer second piece such as the empty text in `512x` or `high` in `512xhigh` is reported as an invalid literal, whatever follows |
| BaseProcessor.ResolutionTooLargeMessage | processors/__init__.py:19 | the oversized message reads "Resolution exceeds maximum of 2048x2048" |
| BaseProcessor.Message | app.py:110-112 | no contract of its own: the `str(e)` text of each error, which `ProcessorErrorsAre500` shows is the body of every 500 a processor error causes and `ResolutionTooLargeMessage` pins down for the bound |
| ArtProcessor.Process | processors/art.py:11-37 | a result exists only for validated settings; its style and format are supported, its model file ends in that format, and its preview is `preview.png` |
| ArtProcessor.MissingKeysTakeDefaults | processors/art.py:17-18 | a missing style behaves as `realistic`, and a missing format behaves as `obj` |
| ArtProcessor.ResultEchoesSettings | processors/art.py:29-35 | the result's style and format are the settings' values, or the defaults when absent |
| ArtProcessor.AcceptsExactlySupportedOptions | processors/art.py:20-24 | once validated, success holds exactly for style in {realistic, stylized} and format in {obj, glb}; a bad style is reported, and a bad format only when the style is good |
| ArtProcessor.ResolutionCheckedFirst | processors/art.py:15-24 | a resolution error is returned whatever style and format are given |
| ArtProcessor.StyleCheckedBeforeFormat | processors/art.py:20-24 | an unsupported style is reported whatever format is given |
| ArtProcessor.IgnoresOtherKeys | processors/art.py:15-18 | adding or removing any key other than resolution, style and format changes nothing |
| FoodProcessor.Process | processors/food.py:10-46 | a result exists only for validated settings; it has `food_model.obj`, `food_preview.png`, a supported mode and exactly one item with confidence in [0, 1]; nutrition is present exactly when metadata is `nutritional` |
| FoodProcessor.MissingKeysTakeDefaults | processors/food.py:16-17 | a missing detection mode behaves as `single`, and a missing metadata type behaves as `basic` |
| FoodProcessor.ResultEchoesSettings | processors/food.py:27-42 | the result echoes the detection mode in effect, and there is exactly one item in either mode |
| FoodProcessor.NutritionOnlyWhenRequested | processors/food.py:35-40 | the item's nutrition is 100/5/20/2 when metadata is `nutritional`, and None otherwise |
| FoodProcessor.AcceptsExactlySupportedOptions | processors/food.py:19-23 | once validated, success holds exactly for detection in {single, multiple} and metadata in {basic, nutritional}; detection is reported first |
| FoodProcessor.ResolutionCheckedFirst | processors/food.py:14-23 | a resolution error is returned whatever detection mode and metadata type are given |
| FoodProcessor.DetectionCheckedBeforeMetadata | processors/food.py:19-23 | an unsupported detection mode is reported whatever metadata type is given |
| FoodProcessor.IgnoresOtherKeys | processors/food.py:14-17 | keys other than resolution, detection and metadata (format included) change nothing |
| GeneralProcessor.Process | processors/general.py:11-37 | a result exists only for validated settings; its mode and format are supported, its model file ends in that format, and its preview is `preview.png` |
| GeneralProcessor.MissingKeysTakeDefaults | processors/general.py:17-18 | a missing optimization mode behaves as `quality`, and a missing format behaves as `obj` |
| GeneralProcessor.ResultEchoesSettings | processors/general.py:28-34 | the result's optimization mode and format are the settings' values, or the defaults when absent |
| GeneralProcessor.AcceptsExactlySupportedOptions | processors/general.py:20-24 | once validated, success holds exactly for optimization in {speed, quality} and format in {obj, glb}; optimization is reported first |
| GeneralProcessor.ResolutionCheckedFirst | processors/general.py:15-24 | a resolution error is returned whatever optimization mode and format are given |
| GeneralProcessor.OptimizationCheckedBeforeFormat | processors/general.py:20-24 | an unsupported optimization mode is reported whatever format is given |
| GeneralProcessor.IgnoresOtherKeys | processors/general.py:15-18 | keys other than resolution, optimization and format change nothing |
| App.AllowedFile | app.py:30-31 | an allowed name contains a `.` and is at least four characters long (`.png` is the shortest); `AllowedFileIff` gives the full characterisation |
| App.AllowedFileAt | app.py:30-31 | when the last `.` of a name is known, the name is allowed exactly when the text after it, lower-cased, is an allowed extension |
| App.AllowedFileIff | app.py:21-31 | a name is allowed exactly when some `.` with no later `.` is followed by an extension that lower-cases to png, jpg or jpeg |
| App.AllowedFileIgnoresCase | app.py:31 | a name and its lower-cased form are allowed alike |
| App.LowerKeepsDots | app.py:31 | lower-casing neither moves nor creates a `.` |
| App.LowerSuffix | app.py:31 | lower-casing a suffix of a lower-cased name is lower-casing the suffix of the name |
| App.LowerKeepsLastDot | app.py:31 | a name and its lower-cased form have their last `.` at the same index |
| App.AllowedFileIgnoresCaseAt | app.py:31 | where a name has a last `.`, the name and its lower-cased form are judged by the same extension |
| App.AllowedFileOfExtension | app.py:30-31 | `stem.ext`, with no `.` in `ext` and any stem (dots included), is allowed exactly when `ext` lower-cases to an allowed extension |
| App.AllowedFileAcceptsListedExtensions | app.py:21-31 | any stem followed by `.png`, `.jpg` or `.jpeg` is allowed, so `cat.png` and `meal.jpg` are |
| App.AllowedFileAcceptsUpperCase | app.py:30-31 | any stem followed by `.PNG`, `.JPG` or `.JPEG` is allowed: the extension is compared in lower case |
| App.AllowedFileUsesLastDot | app.py:30-31 | only the text after the last `.` counts: `<stem>.png.<ext>` is rejected whenever `ext` is not allowed, for example `x.png.exe`, and `x.png.` with the empty extension |
| App.AllowedFileNeedsDot | app.py:31 | a name without a `.`, such as `png`, is never allowed |
| App.RegistryNamesEachProcessor | app.py:24-28 | the registry `Processors` holds exactly art, food and general, each under its own name |
| App.Dispatch | app.py:94-95 | the result or error is exactly the one the selected processor's `Process` returns for the settings, wrapped as that processor's kind of output; a result exists only for validated settings |
| App.AdvertisedSettings | app.py:114-133 | no contract of its own: the `/api/settings` table; `AdvertisedResolutionsValidate`, `AdvertisedSettingsAccepted` and `CapabilitiesMatchSettings` state what it promises |
| App.Capabilities | app.py:41-59 | no contract of its own: the `/api/processors` table; `CapabilitiesMatchSettings` ties it to `/api/settings` |
| App.AdvertisedResolutionsValidate | app.py:114-133 | every resolution `/api/settings` offers for a type passes validation, whatever else the settings hold |
| App.AdvertisedSettingsAccepted | app.py:114-133 | settings made only of offered values are accepted by that type's processor |
| App.CapabilitiesMatchSettings | app.py:41-59 | `/api/processors` and `/api/settings` offer the same values for each setting |
| App.UploadPath | app.py:84-86 | no contract of its own: the path `uploads/<uuid>_<secure name>` the upload is saved under; `ProcessImage` states what happens to it |
| App.Handle | app.py:61-112 | every failure is a 400 or a 500, and a success comes only from an admitted request; `StatusClassification` and the lemmas after it characterise it fully |
| App.UploadFolder.Save | app.py:89 | saving adds the path to the folder and records the save |
| App.UploadFolder.Remove | app.py:104-108 | removal deletes the path, or leaves the folder as it was when removal fails; either way the attempt is recorded |
| App.ProcessImage | app.py:61-112 | the response is `Handle`'s; a rejected request touches no file; an admitted one saves one upload, then removes it, whatever the processor did; with a fresh path and a successful removal the folder ends as it began |
| App.StatusClassification | app.py:64-112 | 400 exactly for a missing, unnamed or disallowed file or an unknown type; 500 for undecodable settings or a processor error; 200 exactly when the processor succeeds |
| App.FileChecksComeFirst | app.py:66-74 | when a file check fails, the response is a 400 that does not depend on the form or the settings |
| App.RejectionOrder | app.py:66-81 | a missing file is reported before an empty name, and an empty name before a disallowed extension, each with its message; an acceptable file with decodable settings and an unknown type gets 400 "Invalid processor type" |
| App.SettingsDecodedBeforeTypeCheck | app.py:77-81 | undecodable settings give 500 with the decoder's message, even for an unknown type |
| App.TypeDefaultsToGeneral | app.py:77 | a request without `type` is handled exactly as one asking for `general` |
| App.ProcessorErrorsAre500 | app.py:92-112 | for an admitted request, a processor error becomes 500 carrying its message, and a result becomes the success response |
| App.ArtScenario | app.py:61-100 | an admitted art request for stylized and glb returns `processed_model.glb` with style stylized and format glb |
| App.FoodScenario | app.py:61-100 | an admitted food request for multiple and nutritional returns mode multiple and one item with nutrition |
| App.OversizedResolutionIs500 | app.py:92-112 | an admitted request whose resolution is two integer literals, however written (`4096x1`, `04096x1`, `+4096x1`), with one above 2048 gets 500 "Resolution exceeds maximum of 2048x2048", for every type |

## Left out

- Flask wiring is not modelled: routing, `jsonify`, CORS, static files, `/api/health`, logging and `app.run`. It is framework I/O with no logic.
- Image content is not modelled. Processors never read `image_data`, so an upload is only its filename.
- `uuid.uuid4()` and `secure_filename` are parameters of `ProcessImage`. The random name is not assumed fresh. The "folder ends as it began" clause holds for a path not already stored.
- `json.loads` is a parameter `decode` that returns settings or an error message. An absent `settings` field is the empty map, which is what `json.loads('{}')` gives.
- JSON that decodes to something other than an object of strings is not modelled. Examples are `null`, a list, or a numeric `resolution`; in Python these raise TypeError or AttributeError, which gives 500. Settings values are strings.
- `int()` is modelled as an optional sign followed by ASCII digits. Python also accepts surrounding whitespace, `_` separators and other Unicode digits.
- Text.ParseInt: the limit on the length of decimal text that `int()` converts is not modelled. The limit is 4300 digits by default, leading zeros included, and is configurable through `sys.set_int_max_str_digits`. Above it, Python raises ValueError at processors/__init__.py:17, which becomes a 500. The model accepts literals of any length, so `ParseResolution`, `ValidateWellFormedResolution` and `OversizedResolutionIs500` hold only for literals within that limit in a real interpreter. Python also cuts the invalid-literal message's repr at 200 characters, which the model does not.
- The quoting of the invalid-literal message is simplified. Python uses `repr`, and the model always wraps the text in single quotes.
- `str.lower()` is modelled for ASCII letters only.
- A failing `file.save` is not modelled. It would give 500 before any cleanup.
- A failing `os.remove` is the boolean `removeFails`. A failed removal leaves the path stored and only adds a `RemoveFailed` entry; the logging itself is not modelled.
- `processing_time` and `confidence` are exact `real` constants, not IEEE doubles.
- The `try/except` around each processor's result literal can never fire, so it is not modelled. The same holds for the no-op `cleanup()` and the unused `subprocess`/`os` imports.
- Concurrent requests are not modelled; each call handles one request.
