# MinimalImageInferenceService: the bounding-box pattern check, modelled in Dafny

MinimalImageInferenceService detects objects in camera images. It then checks
whether the detected bounding boxes form one of a set of known *patterns*. A pattern
is a list of positions `[class_id, x, y, w, h]` plus per-axis tolerances. The
checker works in several steps:

- It normalises the detections to centre/size coordinates. This happens only when
  some box looks like a corner pair `[x1, y1, x2, y2]`, that is `x1 < x2` or `y1 < y2`.
- For every pattern, it marks each position found when some detection of the same
  class lies within the tolerance on every axis.
- It keeps the first pattern with the strictly highest number of found positions. It
  stops as soon as such a new best pattern has every position found.
- The PatternCheck service accepts a request when the chosen pattern has at least two
  positions and all of them were found.

The project also models the smaller pure parts around the checker:

- the box-format conversions and the 180-degree rotation of normalised boxes;
- the rescaling of boxes to another image size;
- the precision-name lookup;
- the environment-variable caster and the configuration assembly;
- the camera adapter's "undefined value" filter and its declared parameter bounds;
- the bookkeeping of the frontend's box plotting: colour parsing, line thickness, font
  size and the class-to-colour map.

Modules, one per source file or concern:

- `Values`: Python-like values, errors, truthiness, ASCII case mapping, lists of
  key/value pairs in insertion order standing in for dicts.
- `BoxPattern`: `Backend/check_boxes.py`. `PatternCheck/utils_coordinates.py` holds
  the same `is_xyxy`, `check_boxes`, `check_box` and `xyxy2xywh` at lines 32-111, and
  the model covers both.
- `PatternService`: `PatternCheck/main.py`.
- `BoxConvert`: `tools/utils/bboxes.py`.
- `Rotate`: `tools/rotate_bbox.py`.
- `ImageCoords`: `Inference/utils_image_cv2.py`.
- `EnvVars`: `utils/env_vars.py`.
- `Config`: `utils/config.py`.
- `CameraModels`: `DataModels_BaslerCameraAdapter.py`.
- `PlotPil`: `Frontend/plot_pil.py`.

The loops of the source are methods with loop invariants, each proved equal to a
specification function:

- `IsXyxy`, `XyxyToXywh`, `CheckBox`, `FindSlot`, `EvaluatePattern` and
  `CheckBoxes` are proved against `CheckBoxesSpec`.
- `RotateBoxes180`.
- `ScaleCoordinates`, which fills a fresh `array2`.
- `GetEnvironmentVariables`.
- `FlattenDefaults`.
- `PlotBoxes`, which updates a caller-shared `ColorMap` object in place.

The properties promised by the source are lemmas about those functions.

Things the model takes as parameters:

- The file system and YAML/TOML parsing: the loaded pattern files and the parsed TOML
  document are inputs.
- The process environment: a `map<string, string>`.
- The float formatting used in an f-string: the function `floatRepr`.
- `np.random.randint`: the colours it would draw, given as `rnd` and `palette`.

## Model

| member | source | states |
|---|---|---|
| BoxPattern.IsXyxy | Backend/check_boxes.py:65-71 | The scan over the boxes, with Python's short-circuiting `or` and `any`, returns exactly `Xyxy`: the IndexError of a short box reached before any ascending one, else whether some box is ascending. |
| BoxPattern.XyxyIffSomeAscending | Backend/check_boxes.py:65-71 | When every box has four coordinates, `is_xyxy` holds iff some box is an ascending corner pair, and it never raises. |
| BoxPattern.XyxyToXywh | Backend/check_boxes.py:127-142 | Succeeds iff every box has exactly four coordinates. In that case it converts box by box in order; otherwise it raises the unpacking ValueError. |
| BoxPattern.CenterSizeGeometry | Backend/check_boxes.py:127-142 | Going back from centre and size gives the original corners. |
| BoxPattern.CheckBox | Backend/check_boxes.py:114-124 | A detection matches iff the class equals the pattern's number and `zip` pairs at least one axis, with every paired deviation strictly below the tolerance. |
| BoxPattern.FourAxisMatch | Backend/check_boxes.py:114-124 | With four coordinates everywhere, a match is equal class plus a strict bound on each of the four axes. |
| BoxPattern.MatchBoundaries | Backend/check_boxes.py:114-124 | A deviation equal to the tolerance, a different class, or an empty tolerance list never matches. |
| BoxPattern.FindSlot | Backend/check_boxes.py:89-103 | The inner scan finds a position iff some detection, among the pairs `zip` forms, matches it. |
| BoxPattern.EvaluatePattern | Backend/check_boxes.py:86-104 | Builds the found vector position by position in order. A position without a class id raises IndexError. |
| BoxPattern.CountBounds | Backend/check_boxes.py:105 | `sum` of the found vector is at most its length. It equals the length exactly when every position is found, and it is positive only for a non-empty vector. |
| BoxPattern.CountMonotone | Backend/check_boxes.py:105 | Pointwise more found positions never lower the score. |
| BoxPattern.NormalizeBoxes | Backend/check_boxes.py:81-82 | Converts all boxes exactly when `is_xyxy` holds, keeps them otherwise, and propagates both errors. |
| BoxPattern.NormalizeAllOrNothing | Backend/check_boxes.py:81-82 | With four coordinates per box: one ascending box converts every box, and none leaves the list unchanged. |
| BoxPattern.CheckBoxes | Backend/check_boxes.py:74-111 | The whole checker (normalisation, per-pattern scan, strict improvement, early exit, errors) returns exactly `CheckBoxesSpec`. |
| BoxPattern.ChooseSelects | Backend/check_boxes.py:84-111 | The selection loop, started in a consistent best-so-far state, ends in `Chosen`: a strict record (positive, beating every earlier score) that no earlier record with every position found preceded, and which either has every position found or is not beaten later. If no entry scores, the result is `("", [])`. |
| BoxPattern.ChooseStopsAtAllTrue | Backend/check_boxes.py:105-109 | An entry with every position found that beats the current best and every entry before it is returned, whatever follows, provided no earlier entry with every position found was itself a new best. |
| BoxPattern.SelectIsEarliestBest | Backend/check_boxes.py:84-111 | On a library whose positions all have class ids, selection never raises. Its result satisfies `Selected`: the first strict record with every position found; if there is none, the first pattern of highest score; if nothing scores, `("", [])`. |
| BoxPattern.SelectedUnique | Backend/check_boxes.py:84-111 | At most one (name, vector) pair satisfies `Selected`, so the description is not loose. |
| BoxPattern.SelectedIsResult | Backend/check_boxes.py:84-111 | A pair satisfies `Selected` if and only if `check_boxes` returns it. |
| BoxPattern.VectorsOfWellFormed | Backend/check_boxes.py:84-104 | Evaluating a well-formed library yields each pattern's found vector and score. |
| BoxPattern.ChosenIsSelected | Backend/check_boxes.py:84-111 | The scan's `Chosen` result, read on the library, satisfies `Selected`. |
| BoxPattern.RecordsAgree | Backend/check_boxes.py:105-106 | A strict record among the evaluated vectors is a strict record of the library, and the other way round. |
| BoxPattern.SelectedWitness | Backend/check_boxes.py:105-109 | A strict record with no earlier all-found record, which is all found itself or not beaten later, satisfies `Selected`. |
| BoxPattern.SelectResultShape | Backend/check_boxes.py:84-111 | The result is `("", [])` exactly when no pattern scores above zero. Otherwise it names a pattern of the library and its found vector. |
| BoxPattern.SelectStopsAtAllTrue | Backend/check_boxes.py:107-109 | A pattern with every position found that beats every earlier score is the result, whatever follows. Earlier patterns need not have class ids after it, and every earlier all-found pattern must have scored 0 or been matched by an earlier score. |
| BoxPattern.StopsBeforeHigherScore | Backend/check_boxes.py:105-109 | With scores 2 of 3, 1 of 1, 3 of 3 and 4 of 4 the third entry is returned, although the fourth scores more. |
| BoxPattern.AddedDetectionKeepsScore | Backend/check_boxes.py:89-105 | An extra detection only turns positions from not found to found, so no pattern's score drops. |
| BoxPattern.OneDetectionManySlots | Backend/check_boxes.py:89-103 | Matching is not one-to-one: one detection can satisfy every position of a pattern. |
| BoxPattern.GetPatternsFromConfig | Backend/check_boxes.py:9-33 | No `PATTERN_FILE` gives no files and key "". Otherwise the load result is passed on. With files loaded the default is a loaded key (and a non-loaded default raises); with no files it is the configured value or None. A non-empty list or table as the default raises TypeError, and any other unknown default raises the "not found" exception. |
| BoxPattern.GetPatternsFromConfigCases | Backend/check_boxes.py:22-33 | A missing or falsy default picks the first file, a loaded default is kept, and an unknown one raises. |
| PatternService.StartupDefaultKey | PatternCheck/main.py:20-36 | Start-up succeeds iff `FOLDER` and `DEFAULT_PATTERN` are set, the files load, and the default is falsy with some file loaded or is a loaded key. The key it yields is always loaded. A non-empty list or table as the default raises TypeError at the `not in` test, and any other unknown default raises the "not found" exception. |
| PatternService.StartupCases | PatternCheck/main.py:24-36 | A falsy default picks the first file, and raises with no files. A loaded default is kept. |
| PatternService.RequestPattern | PatternCheck/main.py:52-56 | A truthy inline pattern wins: a `Pattern` model always, a dictionary when non-empty. It is passed on as given, whatever key the request names. Otherwise the keyword's file is used, found iff the keyword is loaded, else KeyError of the keyword. |
| PatternService.KeyCaseIgnored | PatternCheck/main.py:52 | Two requested keys that lower-case to the same string select the same library. |
| PatternService.UpperCaseKeySelectsSame | PatternCheck/main.py:52 | Upper-casing a requested key does not change the library chosen. |
| PatternService.DefaultKeyAlwaysFound | PatternCheck/main.py:52-56 | Without a key or an inline library, the start-up default is always found. |
| PatternService.CheckTargetSpec | PatternCheck/utils_coordinates.py:47-56 | After normalisation, a loaded file is checked by `check_boxes`. An inline `Pattern` raises AttributeError on `items`, an empty dictionary returns `("", [])`, and a non-empty dictionary of models raises TypeError at `vl["tolerance"]`. |
| PatternService.Decision | PatternCheck/main.py:66 | Accept iff there are at least two positions and every one was found. |
| PatternService.SingleSlotRejected | PatternCheck/main.py:66 | A single found position, and the empty result, are rejected. |
| PatternService.Post | PatternCheck/main.py:46-71 | A request with a truthy inline pattern never gets a response. A response comes only from a loaded keyword, and its decision holds iff the returned vector has at least two entries, all true. |
| PatternService.InlinePatternAlwaysFails | PatternCheck/main.py:53-59 | A non-empty inline dictionary of patterns always raises, and raises TypeError when the boxes normalise. |
| PatternService.RequestLibraryIntended | PatternCheck/main.py:52-56 | A non-empty inline dictionary is checked like a loaded file. Every other request is handled as the code does. |
| PatternService.PostIntended | PatternCheck/main.py:46-71 | The intended handler's decision holds iff the returned vector has at least two entries, all true. |
| PatternService.PostIntendedAgrees | PatternCheck/main.py:46-71 | The intended handler answers like the written one when no inline pattern is given. For a non-empty inline dictionary, it answers with `check_boxes` on that dictionary, whatever key was named. |
| PatternService.AcceptedMeansFullMatch | PatternCheck/main.py:52-69 | An accepted request names a pattern of its keyword's loaded file. That pattern has at least two positions, and its found vector over the normalised detections is all true. |
| BoxConvert.XywhToXyxy | tools/utils/bboxes.py:3-13 | The corners are at a distance of the width and height, centred on the given centre. |
| BoxConvert.XywhToXyxyRows | tools/utils/bboxes.py:6-8 | A 2-D input is converted row by row. |
| BoxConvert.XyxyToXywh | tools/utils/bboxes.py:16-21 | Width and height are the corner differences, and the centre is their midpoint. |
| BoxConvert.CornersThenCentre | tools/utils/bboxes.py:3-21 | `xyxy2xywh(xywh2xyxy(b)) == b`. |
| BoxConvert.CentreThenCorners | tools/utils/bboxes.py:3-21 | `xywh2xyxy(xyxy2xywh(b)) == b`. |
| BoxConvert.RowsRoundTrip | tools/utils/bboxes.py:3-21 | Each row converted to corners and back is the original row. |
| BoxConvert.OrderedCorners | tools/utils/bboxes.py:3-13 | A box with non-negative size gives ascending corners. |
| BoxConvert.AgreesWithChecker | tools/utils/bboxes.py:16-21 | The tool's `xyxy2xywh` and the checker's coincide. |
| Rotate.Rotated | tools/rotate_bbox.py:20-26 | The rotated position mirrors x and y around 1, and the size is kept. |
| Rotate.RotateBoxes180 | tools/rotate_bbox.py:8-28 | Succeeds iff every box unpacks into four values, else the unpacking error. On success it rotates box by box, in order, keeping the count. |
| Rotate.RotateTwice | tools/rotate_bbox.py:20-26 | Rotating a box twice gives it back. |
| Rotate.StaysNormalised | tools/rotate_bbox.py:20-26 | A normalised position stays in [0, 1]. |
| Rotate.RotateListTwice | tools/rotate_bbox.py:8-28 | Rotating the list twice gives the original list. |
| ImageCoords.ScaleCoordinates | Inference/utils_image_cv2.py:144-174 | A zero source side raises ZeroDivisionError. Otherwise fewer than four columns raises IndexError. Otherwise a fresh array of the same shape holds the x columns scaled by the width ratio and the y columns by the height ratio. |
| ImageCoords.SameSizeIsIdentity | Inference/utils_image_cv2.py:164-172 | Scaling to the same size changes nothing. |
| ImageCoords.ScalingComposes | Inference/utils_image_cv2.py:164-172 | Scaling a to b, then b to c, is scaling a to c. |
| ImageCoords.ScaleThereAndBack | Inference/utils_image_cv2.py:164-172 | Scaling there and back restores the coordinate. |
| ImageCoords.PrecisionToType | Inference/utils_image_cv2.py:115-125 | Succeeds iff the lower-cased name is fp64, fp32, fp16 or int8, and otherwise raises ValueError. |
| ImageCoords.PrecisionNameRoundTrip | Inference/utils_image_cv2.py:115-125 | Each type's name, in lower or upper case, maps back to that type. |
| ImageCoords.PrecisionCaseInsensitive | Inference/utils_image_cv2.py:115-125 | Names equal up to case give the same outcome. |
| EnvVars.Cast | utils/env_vars.py:27-38 | The result is an int, float, bool or the unchanged string. It is an int iff the text is all digits, and a bool iff the case-insensitive `True`/`False…` match succeeds. |
| EnvVars.CastNatString | utils/env_vars.py:29-31 | A printed natural number casts back to the same int. |
| EnvVars.CastDotDecimal | utils/env_vars.py:32-33 | Digits, a dot and digits become the float they denote. |
| EnvVars.CastCommaDecimal | utils/env_vars.py:34-35 | The comma form casts exactly like the dot form. |
| EnvVars.CastTwoSeparators | utils/env_vars.py:29-35 | Digits with two or more separators stay a string. |
| EnvVars.CastLoneSeparator | utils/env_vars.py:29-35 | "." and "," stay strings. |
| EnvVars.CastTruePrefix | utils/env_vars.py:36-37 | Anything starting with "true", in any case, becomes True; the `$` binds only to `False`. |
| EnvVars.CastFalse | utils/env_vars.py:36-37 | "false", in any case, becomes False. |
| EnvVars.CastFalsePlus | utils/env_vars.py:36 | "false" followed by more text stays a string. |
| EnvVars.GetEnvVariable | utils/env_vars.py:12-13 | A set variable gives its cast value, and an unset one gives the default unchanged. |
| EnvVars.GetEnvironmentVariables | utils/env_vars.py:16-24 | The loop over the environment collects exactly `EnvConfig`: the cast value of every variable starting with the prefix, with or without the prefix in its name. |
| EnvVars.EnvConfigStripped | utils/env_vars.py:16-24 | Without the prefix, name n is collected exactly when prefix+n is set, with the value `get_env_variable` gives. |
| EnvVars.EnvConfigWithPrefix | utils/env_vars.py:16-24 | With the prefix kept, exactly the variables starting with it are collected, cast. |
| Config.Stored | utils/config.py:26 | A default is stored as None exactly when it is falsy, and as itself otherwise. |
| Config.FlattenDefaults | utils/config.py:16-27 | The nested loop over tables and entries returns exactly `LoadDefaultConfig`. |
| Config.FlattenIsInsert | utils/config.py:21-26 | Flattening fails exactly when some group is not a table, and otherwise inserts all entries in file order. |
| Config.InsertKeys | utils/config.py:21-26 | The names after insertion are the old ones plus the inserted ones. |
| Config.InsertLastWins | utils/config.py:26 | The last entry for a name decides its value. |
| Config.LoadDefaultConfigMeaning | utils/config.py:16-27 | The document loads iff every group is a table. Then the names are exactly the `GROUP_KEY` names of all entries, and every value is None or truthy. |
| Config.LoadDefaultConfigLastWins | utils/config.py:21-26 | The entry that last names a variable decides its value. |
| Config.OneTable | utils/config.py:21-26 | A table `g` with key `k` yields `upper(g + "_" + k)` holding the stored value. |
| Config.EnvPrefix | utils/config.py:39-40 | The prefix is empty or ends in "_". Without `PREFIX` it is the default prefix and "_", or empty for an empty default. A `PREFIX` that stays a non-empty string gives that string and "_". |
| Config.GetConfig | utils/config.py:30-54 | Loads iff there is no default file or every group is a table. Every environment entry is in the result with its value. A default is kept where the environment is silent, and no other names appear. Without a default file the result is the environment part. |
| Config.MergePrecedence | utils/config.py:30-54 | The merged configuration has every name of both sources, and an environment value beats a default. |
| Config.NoDefaultFile | utils/config.py:32-36 | Without a default file the configuration is just the environment part. |
| Config.FalsyPrefixCollectsAll | utils/config.py:39-40 | `PREFIX` set to "0" or "false" casts to a falsy value, so the filter prefix is empty. |
| Config.NamedPrefix | utils/config.py:39-40 | `PREFIX` set to a string that stays a string yields that string followed by "_". |
| Config.DefaultPrefix | utils/config.py:39-40 | Without `PREFIX` the default prefix followed by "_" is used. |
| CameraModels.GetNotNoneValues | DataModels_BaslerCameraAdapter.py:96-101 | Keeps exactly the entries whose value is not None and not one of "null", "None", "Undefined", and never more entries than given. |
| CameraModels.GetNotNoneValuesInOrder | DataModels_BaslerCameraAdapter.py:96-101 | The result is the input's defined entries in order: picked at strictly increasing indices, with every defined entry picked. |
| CameraModels.GetNotNoneValuesIdempotent | DataModels_BaslerCameraAdapter.py:96-101 | Filtering twice is filtering once. |
| CameraModels.GetNotNoneValuesKeepsDefined | DataModels_BaslerCameraAdapter.py:96-101 | A dump without undefined values is returned unchanged. |
| CameraModels.FalsyValuesAreKept | DataModels_BaslerCameraAdapter.py:100 | "", 0, 0.0, False, empty containers and other spellings such as "none" are kept. |
| CameraModels.SettingsErrors | DataModels_BaslerCameraAdapter.py:110-122 | Validation with the declared bounds (`le=653535`). No error iff the port and timeout bounds hold, and each field is named iff its bound fails. |
| CameraModels.SettingsErrorsIntended | DataModels_BaslerCameraAdapter.py:110-122 | Validation with the port at most 65535. No error iff the intended port and timeout bounds hold, and each field is named iff its bound fails. |
| CameraModels.PhotoErrors | DataModels_BaslerCameraAdapter.py:129-156 | No error iff the quality, ROI and exposure bounds hold. Quality and exposure are named iff their bound fails. |
| CameraModels.PortBoundAsWrittenAcceptsNonPorts | DataModels_BaslerCameraAdapter.py:113-115 | The declared bound `le=653535` accepts 65536 to 653535, which are no port numbers, and the settings validation lets port 70000 through. |
| CameraModels.PortBoundMeaning | DataModels_BaslerCameraAdapter.py:113-115 | The intended bound accepts the dynamic ports 49152-65535 and nothing above 65535. The intended validation passes a lone port iff it is in 26..65535. It agrees with the declared one up to 65535, and rejects the ports above it that the declared one lets through. |
| CameraModels.UnsetFieldsAreValid | DataModels_BaslerCameraAdapter.py:110-156 | Unset optional fields violate no bound. |
| PlotPil.IntBase16Pair | Frontend/plot_pil.py:17 | `int(s, 16)` of two hex digits is their value, and any accepted pair lies in -15..255. |
| PlotPil.ColorToRgb | Frontend/plot_pil.py:7-25 | Yields three channels in -15..255. Errors come only from a malformed hex string (ValueError) or from a list that cannot be compared (TypeError). A string that is not "#" plus six characters gives the random colour. |
| PlotPil.NonStringColor | Frontend/plot_pil.py:18-24 | A list of three numbers in 0..255 gives their `int()` values. A list of three with a non-number in it raises TypeError. Any other input (not a list, a list of another length, numbers out of range) gives the random colour. The result is always in 0..255. |
| PlotPil.Hex2Parses | Frontend/plot_pil.py:17 | Two lower-case hex digits of a byte parse back to it. |
| PlotPil.HexColorRoundTrip | Frontend/plot_pil.py:14-17 | "#rrggbb" parses to its three channels. |
| PlotPil.TupleColorKept | Frontend/plot_pil.py:18-22 | An in-range triple of ints comes back unchanged. |
| PlotPil.OtherInputIsRandom | Frontend/plot_pil.py:23-24 | Any non-string, non-sequence input yields the random colour. |
| PlotPil.ColorToRgbNegativeChannels | Frontend/plot_pil.py:14-17 | "#-f-f-f" is accepted and gives three negative channels. |
| PlotPil.ColorToRgbCorrected | Frontend/plot_pil.py:14-17 | With hex digits required, every channel is in 0..255. |
| PlotPil.ColorToRgbCorrectedAgrees | Frontend/plot_pil.py:14-17 | The strict reading agrees with the code on every real colour code and rejects "#-f-f-f". |
| PlotPil.RoundHalfEven | Frontend/plot_pil.py:68 | `round` gives the nearest integer, and a tie goes to the even one. |
| PlotPil.LineThickness | Frontend/plot_pil.py:61-65 | At least 3. A given value of 3 or more is used, a given value below 3 gives 3, and with none given it is a 150th of the shorter side, at least 3. |
| PlotPil.FontSize | Frontend/plot_pil.py:67-68 | With x a 40th of the longer side: 12 when x is at most 12.5. Above that, the integer nearest x, with a tie going to the even one, which fixes the value uniquely. |
| PlotPil.FontSizeTies | Frontend/plot_pil.py:68 | A longer side of 40k + 20 pixels, k at least 12, gives k for even k and k + 1 for odd k. |
| PlotPil.FontSizeExamples | Frontend/plot_pil.py:68 | A 500-pixel side rounds 12.5 to 12, 540 gives 14, and 2000 gives 50. |
| PlotPil.ColorMap.constructor | Frontend/plot_pil.py:73-74 | A new colour map is empty. |
| PlotPil.PlotBoxes | Frontend/plot_pil.py:49-96 | Returns the thickness and font size given by the specification functions. It updates the caller's map in place, or a fresh one when none is given, to `ColorsAfter` over the detections `zip` visits. |
| PlotPil.ColorsAfterKept | Frontend/plot_pil.py:78-86 | Afterwards the map's classes are the old ones plus every visited class, and existing colours are untouched. |
| PlotPil.ColorsAfterFirst | Frontend/plot_pil.py:78-86 | A class the map lacked gets the random colour of its first detection, the earliest index with that class. |
| PlotPil.ColorsAfterMeaning | Frontend/plot_pil.py:78-86 | Afterwards every visited class has a colour and existing colours are untouched. Each new class gets the random colour of its first detection: no earlier detection has that class. |
| PlotPil.StoredColorDrawsAsIs | Frontend/plot_pil.py:83-86 | A random colour taken from the map is drawn exactly as stored. |

## Left out

- Reading pattern files (`load_patterns`, YAML) and TOML files, and checking that files exist. The parsed results are parameters: the pattern files are a `Result`, so a failed load is an `Err` passed in, and the TOML file is an `Option`.
- A pattern entry without `tolerance` or `positions` keys (KeyError). Patterns loaded from files are modelled as records with both fields. The inline patterns of a request are modelled as the pydantic objects they are.
- A `None` configuration passed to `check_boxes`. It is treated like an empty library.
- numpy broadcasting in `check_boxes` on boxes that, after conversion, are not four numbers long. Boxes are lists of reals.
- Pydantic validation and coercion of requests and camera parameters, and which member of the `Union` pydantic picks for an inline pattern: the request says which. The declared bounds are predicates, and lax type coercion is not modelled.
- `PatternCheck/DataModels.py` declares a `PatternRequest` without the `pattern` field that `PatternCheck/main.py` reads. The request is modelled after the root `DataModels.py`, which has it.
- The module-level start-up of `PatternCheck/main.py`, which reassigns globals. It is a function from the configuration and the load result to the default key.
- BoxPattern.AddedDetectionKeepsScore: stated after normalisation. End to end, an added detection may switch the `is_xyxy` heuristic and lower a score.
- Logging, timing, HTTP serving and JSON encoding.
- `camel_case_split` in `utils/env_vars.py`, which no modelled operation uses.
- Unicode: case mapping is ASCII only. `int()` accepting Unicode digits and whitespace other than ASCII is not modelled.
- EnvVars.Cast: floats are exact reals, so binary rounding and `inf` are not modelled. The regex `$` also matching before a trailing newline is not modelled.
- EnvVars.GetEnvironmentVariables: the prefix is compiled as a regex in the source. The model matches it as a literal string.
- Config.GetConfig: `str()` of a float is the parameter `floatRepr`. The logging setup is left out. The file check is the `Option` of a parsed document, so `defaults: Option<Toml>` cannot express a TOML parse failure, which raises in the source.
- ImageCoords.ScaleCoordinates: the float32 rounding of the result is not modelled, nor numpy's `inf` for numpy-integer sizes and 1-D inputs.
- ImageCoords.PrecisionToType: numpy types are an enumeration.
- BoxConvert.XywhToXyxy and BoxConvert.XyxyToXywh: boxes are four-value records. Other numpy shapes, and the row-splitting of a 2-D input to `xyxy2xywh`, are not modelled.
- PlotPil.PlotBoxes: the drawing itself, the text labels built from `class_map`, and image conversion are left out. The random colours are supplied as `palette`, and class ids are taken as ints (the `int(cls)` truncation).
- PlotPil.ColorToRgb: numpy arrays are lists, and the ndarray `randint` returns is a list of ints.

## Findings

| source | as written | input that shows it | evidently intended | confidence | as-written member | corrected member |
|---|---|---|---|---|---|---|
| DataModels_BaslerCameraAdapter.py:114 | `destination_port` accepts values up to 653535 | port 70000 passes the bound | at most 65535, the comment's dynamic port range 49152-65535 | high; not executed | CameraModels.PortBoundAsWrittenAcceptsNonPorts | CameraModels.SettingsErrorsIntended |
| Frontend/plot_pil.py:14-17 | `int(color[i:i+2], 16)` accepts a sign or a space in a channel | "#-f-f-f" gives channels (-15, -15, -15) | only six hex digits count as a colour code; channels in 0..255 | low; not executed | PlotPil.ColorToRgbNegativeChannels | PlotPil.ColorToRgbCorrected |
| PatternCheck/main.py:53-59 | an inline `pattern` (a `Pattern` or a dictionary of them, root `DataModels.py:46-57`) is passed to `check_boxes`, which reads it as nested dictionaries (`config.items()`, `vl["tolerance"]`, `PatternCheck/utils_coordinates.py:54-56`) | any request with a non-empty inline dictionary raises TypeError; a single `Pattern` raises AttributeError | the inline dictionary is checked like a loaded pattern file | medium; not executed | PatternService.InlinePatternAlwaysFails | PatternService.PostIntendedAgrees |
