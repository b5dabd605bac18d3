/**
 * The `GET /api/audio?scenarioId=…&index=…` handler of app/api/audio/route.ts.
 * `Plan` is the handler's branching up to the provider call; `Get` runs the
 * handler step by step against the file store and the two oracles.
 */
module AudioRoute {
  import opened Types
  import opened Js
  import opened Api

  /** A JSON reply: `{ url }`, or `{ error }` with an HTTP status. */
  datatype Response = UrlResponse(url: string) | ErrorResponse(status: int, message: string)

  const MissingParameters: string := "Missing required parameters"
  const ScenarioNotFound: string := "Scenario not found"
  const InvalidIndex: string := "Invalid conversation index"
  const GenerationFailed: string := "Failed to generate audio"

  /** What the handler does once it has read the store and the scenarios. */
  datatype Step =
    | Respond(response: Response)
    | Synthesize(text: string, voice: string, scenarioId: string, key: CacheKey)

  /** Both query parameters are usable: `scenarioId` present and non-empty, `index` present. */
  predicate HasParameters(scenarioId: Option<string>, index: Option<string>)
  {
    Truthy(scenarioId) && index.Some?
  }

  /**
   * The handler's decision: validation, the cache check on the raw index
   * string, the scenario lookup, and the choice of text and voice. A negative
   * `parseInt` passes the bound check; reading `.text` of the missing line
   * then throws and the catch answers 500.
   */
  function Plan(files: set<string>, scenarioId: Option<string>, index: Option<string>,
                scenarios: ScenariosData): (step: Step)
    ensures step.Synthesize? ==>
      HasParameters(scenarioId, index) && step.scenarioId == scenarioId.value &&
      CacheFileName(scenarioId.value, index.value) !in files && Lookup(scenarios, scenarioId.value).Some?
    ensures step.Respond? && step.response.UrlResponse? ==>
      HasParameters(scenarioId, index) && CacheFileName(scenarioId.value, index.value) in files &&
      step.response.url == PublicPath(CacheFileName(scenarioId.value, index.value))
  {
    if !HasParameters(scenarioId, index) then Respond(ErrorResponse(400, MissingParameters))
    else
      var sid := scenarioId.value;
      var idx := index.value;
      var fileName := CacheFileName(sid, idx);
      if fileName in files then Respond(UrlResponse(PublicPath(fileName)))
      else
        match Lookup(scenarios, sid)
        case None => Respond(ErrorResponse(404, ScenarioNotFound))
        case Some(scenario) =>
          if idx == "summary" then
            Synthesize(scenario.summary, GetVoiceForSpeaker(2), sid, SummaryKey)
          else
            match ParseInt(idx)
            case NaN => Respond(ErrorResponse(400, InvalidIndex))
            case Num(p) =>
              if p >= |scenario.conversation| then Respond(ErrorResponse(400, InvalidIndex))
              else if p < 0 then Respond(ErrorResponse(500, GenerationFailed))
              else
                var line := scenario.conversation[p];
                Synthesize(line.text, GetVoiceForSpeaker(line.speakerId), sid, LineKey(p))
  }

  /**
   * `GET`: returns the reply and the (text, voice) pair passed to
   * `generateAudio`, if the handler got that far.
   */
  method Get(store: FileStore, scenarioId: Option<string>, index: Option<string>,
             scenarios: ScenariosData, synth: SynthOutcome, download: DownloadOutcome)
    returns (response: Response, synthesisRequest: Option<(string, string)>)
    modifies store
    ensures match Plan(old(store.files), scenarioId, index, scenarios)
      case Respond(r) =>
        response == r && synthesisRequest.None? && store.files == old(store.files)
      case Synthesize(text, voice, sid, key) =>
        var name := CacheFileName(sid, KeyText(key));
        synthesisRequest == Some((text, voice)) &&
        match synth
        case SynthesisFailed =>
          response == ErrorResponse(500, GenerationFailed) && store.files == old(store.files)
        case Synthesized(url) =>
          if name in old(store.files) then
            response == UrlResponse(PublicPath(name)) && store.files == old(store.files)
          else if download.Saved? then
            response == UrlResponse(PublicPath(name)) && store.files == old(store.files) + {name}
          else
            response == UrlResponse(url) && store.files == old(store.files)
  {
    synthesisRequest := None;
    if scenarioId.None? || scenarioId.value == "" || index.None? {
      return ErrorResponse(400, MissingParameters), None;
    }
    var sid := scenarioId.value;
    var idx := index.value;
    var fileName := CacheFileName(sid, idx);
    if fileName in store.files {
      return UrlResponse(PublicPath(fileName)), None;
    }
    var found := Lookup(scenarios, sid);
    if found.None? {
      return ErrorResponse(404, ScenarioNotFound), None;
    }
    var scenario := found.value;
    var text: string;
    var speakerId: int;
    var key: CacheKey;
    if idx == "summary" {
      text, speakerId, key := scenario.summary, 2, SummaryKey;
    } else {
      var parsed := ParseInt(idx);
      if parsed.NaN? || parsed.n >= |scenario.conversation| {
        return ErrorResponse(400, InvalidIndex), None;
      }
      if parsed.n < 0 {
        return ErrorResponse(500, GenerationFailed), None;
      }
      var line := scenario.conversation[parsed.n];
      text, speakerId, key := line.text, line.speakerId, LineKey(parsed.n);
    }
    var voice := GetVoiceForSpeaker(speakerId);
    synthesisRequest := Some((text, voice));
    var audioUrl := GenerateAudio(synth);
    if audioUrl.None? {
      return ErrorResponse(500, GenerationFailed), synthesisRequest;
    }
    var cachedUrl, _ := CacheAudio(store, audioUrl.value, sid, key, download);
    response := UrlResponse(cachedUrl);
  }

  // ------------------------------------------------------------- properties

  /** Missing parameters are answered 400 before the store or the scenarios are read, and only then. */
  lemma MissingParametersFirst(files: set<string>, scenarioId: Option<string>,
                               index: Option<string>, scenarios: ScenariosData)
    ensures Plan(files, scenarioId, index, scenarios) == Respond(ErrorResponse(400, MissingParameters))
            <==> scenarioId.None? || scenarioId.value == "" || index.None?
  {
  }

  /** An empty `index` passes validation; with a cache miss on a known scenario it is an invalid index. */
  lemma EmptyIndexIsInvalid(files: set<string>, sid: string, scenarios: ScenariosData)
    requires sid != "" && CacheFileName(sid, "") !in files && Lookup(scenarios, sid).Some?
    ensures Plan(files, Some(sid), Some(""), scenarios) == Respond(ErrorResponse(400, InvalidIndex))
  {
    assert DigitPrefix(UnsignedPart(TrimStart(""))) == [];
  }

  /** A cached file is answered from the cache whatever the scenarios say. */
  lemma CacheHitShortCircuits(files: set<string>, sid: string, idx: string,
                              scenarios: ScenariosData, other: ScenariosData)
    requires sid != "" && CacheFileName(sid, idx) in files
    ensures Plan(files, Some(sid), Some(idx), scenarios)
            == Plan(files, Some(sid), Some(idx), other)
            == Respond(UrlResponse(PublicPath(CacheFileName(sid, idx))))
  {
  }

  /** 404 is given exactly for valid parameters, a cache miss and an unknown scenario. */
  lemma NotFoundOnlyOnMiss(files: set<string>, scenarioId: Option<string>,
                           index: Option<string>, scenarios: ScenariosData)
    ensures Plan(files, scenarioId, index, scenarios).Respond? &&
            Plan(files, scenarioId, index, scenarios).response.ErrorResponse? &&
            Plan(files, scenarioId, index, scenarios).response.status == 404
            <==>
            HasParameters(scenarioId, index) &&
            CacheFileName(scenarioId.value, index.value) !in files &&
            Lookup(scenarios, scenarioId.value).None?
  {
  }

  /** The summary is read in the narrator's voice, never in a speaker's. */
  lemma SummaryIsNarrated(files: set<string>, sid: string, scenarios: ScenariosData)
    requires sid != "" && CacheFileName(sid, "summary") !in files
    requires Lookup(scenarios, sid).Some?
    ensures Plan(files, Some(sid), Some("summary"), scenarios)
            == Synthesize(Lookup(scenarios, sid).value.summary, "Daniel", sid, SummaryKey)
  {
  }

  /**
   * Whatever is synthesised for the summary key uses "Daniel"; a line key
   * names a line of the requested scenario and uses its speaker's voice.
   */
  lemma SynthesisVoice(files: set<string>, scenarioId: Option<string>,
                       index: Option<string>, scenarios: ScenariosData)
    requires Plan(files, scenarioId, index, scenarios).Synthesize?
    ensures var step := Plan(files, scenarioId, index, scenarios);
      (step.key.SummaryKey? ==> step.voice == "Daniel") &&
      (step.voice != "Daniel" ==> step.key.LineKey?) &&
      (step.key.LineKey? ==>
         var conversation := Lookup(scenarios, scenarioId.value).value.conversation;
         0 <= step.key.n < |conversation| &&
         step.voice == GetVoiceForSpeaker(conversation[step.key.n].speakerId))
  {
  }

  /**
   * For any other index the handler parses it: NaN or a value at or above
   * the line count is 400, a negative value is 500, and a value in range
   * selects that line's text and its speaker's voice.
   */
  lemma LineSelection(files: set<string>, sid: string, idx: string, scenarios: ScenariosData)
    requires sid != "" && idx != "summary" && CacheFileName(sid, idx) !in files
    requires Lookup(scenarios, sid).Some?
    ensures var lines := Lookup(scenarios, sid).value.conversation;
      var step := Plan(files, Some(sid), Some(idx), scenarios);
      match ParseInt(idx)
      case NaN => step == Respond(ErrorResponse(400, InvalidIndex))
      case Num(p) =>
        if p >= |lines| then step == Respond(ErrorResponse(400, InvalidIndex))
        else if p < 0 then step == Respond(ErrorResponse(500, GenerationFailed))
        else step == Synthesize(lines[p].text, GetVoiceForSpeaker(lines[p].speakerId), sid, LineKey(p))
  {
  }

  lemma AppendCancel(a: string, b: string, c: string, d: string)
    requires a + b + c == a + d + c
    ensures b == d
  {
    assert b == (a + b + c)[|a|..|a| + |b|];
    assert d == (a + d + c)[|a|..|a| + |d|];
  }

  /**
   * The name `cacheAudio` writes equals the name checked at the start of
   * the handler exactly when the index is "summary" or a canonical
   * decimal string; "01", "1x" or " 1" are checked under one name and
   * written under another.
   */
  lemma {:induction false} WrittenNameIsCheckedName(files: set<string>, sid: string, idx: string,
                                                     scenarios: ScenariosData)
    requires Plan(files, Some(sid), Some(idx), scenarios).Synthesize?
    ensures var key := Plan(files, Some(sid), Some(idx), scenarios).key;
      CacheFileName(sid, KeyText(key)) == CacheFileName(sid, idx)
      <==> idx == "summary" || Canonical(idx)
  {
    var key := Plan(files, Some(sid), Some(idx), scenarios).key;
    if CacheFileName(sid, KeyText(key)) == CacheFileName(sid, idx) {
      AppendCancel(sid + "_", KeyText(key), ".mp3", idx);
    }
    if idx != "summary" {
      CanonicalIff(idx);
    }
  }

  /**
   * Idempotence for the names clients send: once a synthesised file has
   * been saved, the same request is answered from the cache with the URL
   * the first request returned.
   */
  lemma {:induction false} SavedRequestIsCached(files: set<string>, sid: string, idx: string,
                                                 scenarios: ScenariosData)
    requires Plan(files, Some(sid), Some(idx), scenarios).Synthesize?
    requires idx == "summary" || Canonical(idx)
    ensures var name := CacheFileName(sid, KeyText(Plan(files, Some(sid), Some(idx), scenarios).key));
      Plan(files + {name}, Some(sid), Some(idx), scenarios) == Respond(UrlResponse(PublicPath(name)))
  {
    WrittenNameIsCheckedName(files, sid, idx, scenarios);
  }

  /**
   * For a non-canonical index the saved file never satisfies the check,
   * so every repeat of the request synthesises again (and `cacheAudio`
   * then answers from the file the first request saved).
   */
  lemma {:induction false} NonCanonicalRequestResynthesises(files: set<string>, sid: string, idx: string,
                                                            scenarios: ScenariosData)
    requires Plan(files, Some(sid), Some(idx), scenarios).Synthesize?
    requires idx != "summary" && !Canonical(idx)
    ensures var step := Plan(files, Some(sid), Some(idx), scenarios);
      Plan(files + {CacheFileName(sid, KeyText(step.key))}, Some(sid), Some(idx), scenarios) == step
  {
    WrittenNameIsCheckedName(files, sid, idx, scenarios);
  }

  lemma ParseLeadingZero()
    ensures ParseInt("01") == Num(1)
  {
    DigitIsNotSpace('0');
    assert TrimStart("01") == "01";
    assert UnsignedPart("01") == "01";
    AllDigitsPrefix("01");
    assert "01"[..1] == "0";
    assert DigitsValue("0") == 0 by { assert "0"[..0] == ""; }
    assert DigitsValue("01") == 1;
  }

  /** On a two-line scenario, a miss on the checked name of "01" synthesises line 1. */
  lemma LeadingZeroPlan(files: set<string>, scenarios: ScenariosData)
    requires scenarios == [("s", Scenario("sum", [Conversation("hi", 0), Conversation("yo", 1)]))]
    requires CacheFileName("s", "01") !in files
    ensures Plan(files, Some("s"), Some("01"), scenarios) == Synthesize("yo", "Aria", "s", LineKey(1))
  {
    var lines := [Conversation("hi", 0), Conversation("yo", 1)];
    assert Lookup(scenarios, "s") == Some(Scenario("sum", lines));
    assert "01" != "summary" by { assert "01"[0] != "summary"[0]; }
    LineSelection(files, "s", "01", scenarios);
    ParseLeadingZero();
    assert |lines| == 2 && lines[1].text == "yo" && GetVoiceForSpeaker(lines[1].speakerId) == "Aria";
  }

  /** The names involved: the checked s_01.mp3 and the written s_1.mp3 differ. */
  lemma LeadingZeroNames()
    ensures CacheFileName("s", KeyText(LineKey(1))) == "s_1.mp3"
    ensures CacheFileName("s", "01") !in {"s_1.mp3"}
  {
    assert NatToString(1) == "1";
    assert CacheFileName("s", "01") == "s_01.mp3";
    assert "s_01.mp3" != "s_1.mp3" by { assert "s_01.mp3"[2] != "s_1.mp3"[2]; }
  }

  /** A concrete instance: "01" is checked as s_01.mp3 and written as s_1.mp3, so writing it changes nothing. */
  lemma LeadingZeroExample(scenarios: ScenariosData)
    requires scenarios == [("s", Scenario("sum", [Conversation("hi", 0), Conversation("yo", 1)]))]
    ensures Plan({}, Some("s"), Some("01"), scenarios) == Synthesize("yo", "Aria", "s", LineKey(1))
    ensures CacheFileName("s", KeyText(LineKey(1))) == "s_1.mp3"
    ensures Plan({"s_1.mp3"}, Some("s"), Some("01"), scenarios) == Synthesize("yo", "Aria", "s", LineKey(1))
  {
    LeadingZeroNames();
    LeadingZeroPlan({}, scenarios);
    LeadingZeroPlan({"s_1.mp3"}, scenarios);
  }

  // ------------------------------------------------------------ the client

  /** What a client's `fetch(...)` followed by `response.json()` delivers. */
  datatype FetchOutcome =
    | Delivered(url: Option<string>)   // the body's `url`, absent in an error reply
    | Threw                            // network failure or a body that is not JSON

  /** A reply read by a client: an error reply does not throw, its `url` is undefined. */
  function Delivery(r: Response): (f: FetchOutcome)
    ensures f.Delivered?
    ensures f.url.Some? <==> r.UrlResponse?
  {
    Delivered(if r.UrlResponse? then Some(r.url) else None)
  }
}
