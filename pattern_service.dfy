/** The PatternCheck service: the default pattern key fixed at start-up, the
    choice of pattern library for a request, and the accept/reject decision
    returned with the checker's result. Configuration and the loaded pattern
    files are parameters. */
module PatternService {
  import opened Values
  import opened BoxPattern

  /** Start-up: `CONFIG["FOLDER"]` must exist and its pattern files load, then
      `CONFIG["DEFAULT_PATTERN"]` must exist; a falsy default becomes the first
      loaded key (no files at all raises), and a default that names no loaded
      file raises, with TypeError when it is a list or a table, which cannot be
      hashed for the `not in` test. */
  function StartupDefaultKey(config: map<string, Value>, loaded: Result<PatternFiles>): (r: Result<string>)
    ensures r.Ok? ==> loaded.Ok? && r.value in Keys(loaded.value)
    ensures r.Ok? <==>
      && "FOLDER" in config && loaded.Ok? && "DEFAULT_PATTERN" in config
      && (if Falsy(config["DEFAULT_PATTERN"]) then loaded.value != []
          else config["DEFAULT_PATTERN"].PyStr? && config["DEFAULT_PATTERN"].s in Keys(loaded.value))
    ensures "FOLDER" in config && loaded.Ok? && "DEFAULT_PATTERN" in config ==>
      var d := config["DEFAULT_PATTERN"];
      && (!Falsy(d) && Unhashable(d) ==> r == Err(TypeError))
      && (!Falsy(d) && !Unhashable(d) && r.Err? ==> r == Err(Raised("Default pattern not found")))
  {
    if "FOLDER" !in config then Err(KeyError("FOLDER"))
    else if loaded.Err? then Err(loaded.error)
    else if "DEFAULT_PATTERN" !in config then Err(KeyError("DEFAULT_PATTERN"))
    else
      var patterns := loaded.value;
      var defaultPatternKey := config["DEFAULT_PATTERN"];
      if Falsy(defaultPatternKey) then
        if |patterns| > 0 then Ok(Keys(patterns)[0])
        else Err(Raised("No pattern file found"))
      else if Unhashable(defaultPatternKey) then Err(TypeError)
      else if !(defaultPatternKey.PyStr? && defaultPatternKey.s in Keys(patterns)) then
        Err(Raised("Default pattern not found"))
      else Ok(defaultPatternKey.s)
  }

  /** The three start-up outcomes with files loaded. */
  lemma StartupCases(config: map<string, Value>, patterns: PatternFiles)
    requires "FOLDER" in config && "DEFAULT_PATTERN" in config
    ensures Falsy(config["DEFAULT_PATTERN"]) && patterns != [] ==>
      StartupDefaultKey(config, Ok(patterns)) == Ok(patterns[0].0)
    ensures Falsy(config["DEFAULT_PATTERN"]) && patterns == [] ==> StartupDefaultKey(config, Ok(patterns)).Err?
    ensures (!Falsy(config["DEFAULT_PATTERN"]) && config["DEFAULT_PATTERN"].PyStr?
      && config["DEFAULT_PATTERN"].s in Keys(patterns)) ==>
      StartupDefaultKey(config, Ok(patterns)) == Ok(config["DEFAULT_PATTERN"].s)
  {
  }

  /** The inline `pattern` of a request: one pydantic `Pattern`, or a dictionary
      of them. Its fields are `positions` and `tolerances`; the same numbers are
      held here in a `Pattern` record. */
  datatype InlinePattern = SinglePattern(p: Pattern) | PatternDict(lib: Library)

  /** The fields of a request the handler reads. */
  datatype PatternRequest = PatternRequest(
    coordinates: seq<Coords>,
    classIds: seq<int>,
    patternKey: Option<string>,
    pattern: Option<InlinePattern>)

  /** `if request.pattern`: a pydantic model is always truthy, a dictionary when
      it is not empty. */
  predicate InlineGiven(request: PatternRequest) {
    request.pattern.Some? && (request.pattern.value.SinglePattern? || request.pattern.value.lib != [])
  }

  /** What `check_boxes` is called with: a loaded pattern file, or the inline object. */
  datatype CheckTarget = Loaded(lib: Library) | Inline(inline: InlinePattern)

  /** The key a request asks for: its own, lower-cased, when it gives a
      non-empty one, else the service default. */
  function Keyword(request: PatternRequest, defaultPatternKey: string): string {
    if request.patternKey.Some? && request.patternKey.value != "" then Lower(request.patternKey.value)
    else defaultPatternKey
  }

  /** What the request is checked against: a given inline pattern wins; otherwise
      the loaded file for the keyword, or KeyError. */
  function RequestPattern(request: PatternRequest, patterns: PatternFiles, defaultPatternKey: string)
    : (r: Result<CheckTarget>)
    ensures InlineGiven(request) <==> r.Ok? && r.value.Inline?
    ensures InlineGiven(request) ==> r == Ok(Inline(request.pattern.value))
    ensures r.Err? ==> r.error == KeyError(Keyword(request, defaultPatternKey))
    ensures !InlineGiven(request) ==> (r.Ok? <==> Keyword(request, defaultPatternKey) in Keys(patterns))
    ensures r.Ok? && r.value.Loaded? ==>
      exists i :: 0 <= i < |patterns| && patterns[i] == (Keyword(request, defaultPatternKey), r.value.lib)
  {
    if InlineGiven(request) then Ok(Inline(request.pattern.value))
    else match Lookup(patterns, Keyword(request, defaultPatternKey))
      case Err(e) => Err(e)
      case Ok(lib) => Ok(Loaded(lib))
  }

  /** Letter case in a requested key does not matter, because the key is lower-cased. */
  lemma KeyCaseIgnored(request: PatternRequest, other: PatternRequest, patterns: PatternFiles, defaultPatternKey: string)
    requires request.patternKey.Some? && other.patternKey.Some?
    requires request.patternKey.value != "" && other.patternKey.value != ""
    requires Lower(request.patternKey.value) == Lower(other.patternKey.value)
    requires request.pattern == other.pattern
    ensures RequestPattern(request, patterns, defaultPatternKey) == RequestPattern(other, patterns, defaultPatternKey)
  {
  }

  /** A key sent in upper case selects the same library as the key itself. */
  lemma UpperCaseKeySelectsSame(request: PatternRequest, patterns: PatternFiles, defaultPatternKey: string)
    requires request.patternKey.Some?
    ensures RequestPattern(request.(patternKey := Some(Upper(request.patternKey.value))), patterns, defaultPatternKey)
      == RequestPattern(request, patterns, defaultPatternKey)
  {
    LowerOfUpper(request.patternKey.value);
  }

  /** A request without a key and without an inline pattern uses the start-up
      default, which was checked to be loaded: it never fails the lookup. */
  lemma DefaultKeyAlwaysFound(config: map<string, Value>, patterns: PatternFiles, request: PatternRequest)
    requires StartupDefaultKey(config, Ok(patterns)).Ok?
    requires request.patternKey.None? || request.patternKey.value == ""
    requires !InlineGiven(request)
    ensures RequestPattern(request, patterns, StartupDefaultKey(config, Ok(patterns)).value).Ok?
  {
  }

  /** `check_boxes` on what the handler passes it. After the normalisation a loaded
      library is checked as a file would be. An inline object is not the nested
      dictionary `check_boxes` reads: a `Pattern` model has no `items()`, and the
      entries of a non-empty dictionary of them cannot be subscripted by
      `vl["tolerance"]`. An empty dictionary skips the loop. */
  function CheckTargetSpec(bboxes: seq<Coords>, ids: seq<int>, target: CheckTarget): (r: Result<(string, seq<bool>)>)
    ensures target.Loaded? ==> r == CheckBoxesSpec(bboxes, ids, target.lib)
    ensures target.Inline? && Normalize(bboxes).Ok? ==>
      r == (if target.inline.SinglePattern? then Err(AttributeError("items"))
            else if target.inline.lib == [] then Ok(("", []))
            else Err(TypeError))
    ensures Normalize(bboxes).Err? ==> r == Err(Normalize(bboxes).error)
  {
    match Normalize(bboxes)
    case Err(e) => Err(e)
    case Ok(boxes) =>
      match target
      case Loaded(lib) => Select(boxes, ids, lib)
      case Inline(SinglePattern(_)) => Err(AttributeError("items"))
      case Inline(PatternDict(lib)) => if lib == [] then Ok(("", [])) else Err(TypeError)
  }

  /** `len(lg) > 1 and all(lg)`: accept only when there are at least two
      positions and every one was found. */
  function Decision(lg: seq<bool>): (d: bool)
    ensures d <==> |lg| >= 2 && forall i :: 0 <= i < |lg| ==> lg[i]
  {
    |lg| > 1 && AllTrue(lg)
  }

  /** A pattern with a single position is never accepted, even when it is found,
      nor is the empty result. */
  lemma SingleSlotRejected()
    ensures !Decision([true]) && !Decision([])
    ensures Decision([true, true]) && !Decision([true, false])
  {
    assert !([true, false][1]);
  }

  /** The handler's response body. */
  datatype Response = Response(decision: bool, patternName: string, lg: seq<bool>)

  /** `post` as written: choose the library, run the checker, derive the decision.
      A response comes only from a loaded pattern file; an inline pattern always
      raises. */
  function Post(request: PatternRequest, patterns: PatternFiles, defaultPatternKey: string): (r: Result<Response>)
    ensures InlineGiven(request) ==> r.Err?
    ensures r.Ok? ==> Keyword(request, defaultPatternKey) in Keys(patterns)
    ensures r.Ok? ==> (r.value.decision <==> |r.value.lg| >= 2 && AllTrue(r.value.lg))
  {
    match RequestPattern(request, patterns, defaultPatternKey)
    case Err(e) => Err(e)
    case Ok(target) =>
      match CheckTargetSpec(request.coordinates, request.classIds, target)
      case Err(e) => Err(e)
      case Ok((patternName, lg)) => Ok(Response(Decision(lg), patternName, lg))
  }

  /** A request with a non-empty inline pattern dictionary never gets an answer. */
  lemma InlinePatternAlwaysFails(request: PatternRequest, patterns: PatternFiles, defaultPatternKey: string)
    requires request.pattern.Some? && request.pattern.value.PatternDict? && request.pattern.value.lib != []
    ensures Post(request, patterns, defaultPatternKey).Err?
    ensures Normalize(request.coordinates).Ok? ==> Post(request, patterns, defaultPatternKey) == Err(TypeError)
  {
  }

  /** The library a request is evidently meant to be checked against: a non-empty
      inline dictionary of patterns is read like a loaded file. */
  function RequestLibraryIntended(request: PatternRequest, patterns: PatternFiles, defaultPatternKey: string)
    : (r: Result<CheckTarget>)
    ensures !InlineGiven(request) ==> r == RequestPattern(request, patterns, defaultPatternKey)
    ensures request.pattern.Some? && request.pattern.value.PatternDict? && request.pattern.value.lib != [] ==>
      r == Ok(Loaded(request.pattern.value.lib))
  {
    if request.pattern.Some? && request.pattern.value.PatternDict? && request.pattern.value.lib != [] then
      Ok(Loaded(request.pattern.value.lib))
    else RequestPattern(request, patterns, defaultPatternKey)
  }

  /** `post` with an inline dictionary checked like a pattern file. */
  function PostIntended(request: PatternRequest, patterns: PatternFiles, defaultPatternKey: string): (r: Result<Response>)
    ensures r.Ok? ==> (r.value.decision <==> |r.value.lg| >= 2 && AllTrue(r.value.lg))
  {
    match RequestLibraryIntended(request, patterns, defaultPatternKey)
    case Err(e) => Err(e)
    case Ok(target) =>
      match CheckTargetSpec(request.coordinates, request.classIds, target)
      case Err(e) => Err(e)
      case Ok((patternName, lg)) => Ok(Response(Decision(lg), patternName, lg))
  }

  /** The intended handler answers exactly like the written one when no inline
      pattern is given, and checks a non-empty inline dictionary with the same
      checker a file goes through, whatever key the request names. */
  lemma PostIntendedAgrees(request: PatternRequest, patterns: PatternFiles, defaultPatternKey: string)
    ensures !InlineGiven(request) ==> PostIntended(request, patterns, defaultPatternKey) == Post(request, patterns, defaultPatternKey)
    ensures request.pattern.Some? && request.pattern.value.PatternDict? && request.pattern.value.lib != [] ==>
      PostIntended(request, patterns, defaultPatternKey) ==
        match CheckBoxesSpec(request.coordinates, request.classIds, request.pattern.value.lib)
        case Err(e) => Err(e)
        case Ok((name, lg)) => Ok(Response(Decision(lg), name, lg))
  {
  }

  /** An accepted request names a pattern of the loaded file for its keyword that
      has at least two positions, all of them found among the (normalised)
      detections. */
  lemma AcceptedMeansFullMatch(request: PatternRequest, patterns: PatternFiles, defaultPatternKey: string,
                               lib: Library, boxes: seq<Coords>)
    requires Lookup(patterns, Keyword(request, defaultPatternKey)) == Ok(lib) && AllWellFormed(lib)
    requires Normalize(request.coordinates) == Ok(boxes)
    requires Post(request, patterns, defaultPatternKey).Ok? && Post(request, patterns, defaultPatternKey).value.decision
    ensures exists w ::
              && 0 <= w < |lib| && lib[w].0 == Post(request, patterns, defaultPatternKey).value.patternName
              && |lib[w].1.positions| >= 2
              && Post(request, patterns, defaultPatternKey).value.lg == SlotVector(boxes, request.classIds, lib[w].1)
              && AllTrue(Post(request, patterns, defaultPatternKey).value.lg)
  {
    var resp := Post(request, patterns, defaultPatternKey).value;
    assert !InlineGiven(request);
    assert RequestPattern(request, patterns, defaultPatternKey) == Ok(Loaded(lib));
    assert CheckTargetSpec(request.coordinates, request.classIds, Loaded(lib)) == Select(boxes, request.classIds, lib);
    SelectResultShape(boxes, request.classIds, lib);
    var sel := Select(boxes, request.classIds, lib).value;
    assert resp == Response(Decision(sel.1), sel.0, sel.1);
    assert sel.1 != [];
    var w :| 0 <= w < |lib| && lib[w].0 == sel.0 && sel.1 == SlotVector(boxes, request.classIds, lib[w].1);
    assert |lib[w].1.positions| == |sel.1| >= 2;
  }
}
