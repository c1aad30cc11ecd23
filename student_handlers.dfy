/** The decisions of the student-view handlers of a video block, written as
    functions of their inputs: to_boolean, the save_user_state pass over the
    posted keys, publish_completion, the language taken out of a translation
    dispatch, the transcript responses and the static-asset fallback. The
    class VideoBlock (module VideoBlocks) applies them to its fields. */
module StudentHandlers {
  import opened PyModel
  import opened Strings
  import opened Http
  import opened VideoTypes

  // ---------------------------------------------------------------------
  // to_boolean

  /** "true" written in any mix of upper and lower case. */
  predicate SpellsTrue(s: string) {
    |s| == 4 && s[0] in "tT" && s[1] in "rR" && s[2] in "uU" && s[3] in "eE"
  }

  /** The bytes of "true" in any mix of upper and lower case. */
  predicate BytesSpellTrue(b: seq<bv8>) {
    |b| == 4 && b[0] in {0x74, 0x54} && b[1] in {0x72, 0x52} && b[2] in {0x75, 0x55} && b[3] in {0x65, 0x45}
  }

  /** to_boolean(value): text (bytes are decoded as ASCII first) is true when it
      lower-cases to "true"; any other value is its truthiness. So it accepts
      exactly the case-insensitive spellings of "true" for text and for bytes,
      and falls back to bool() for everything else. */
  function ToBoolean(value: PyValue): (b: bool)
    ensures value.PyStr? ==> (b <==> SpellsTrue(value.s))
    ensures value.PyBytes? ==> (b <==> BytesSpellTrue(value.bytes))
    ensures !value.PyStr? && !value.PyBytes? ==> (b <==> Truthy(value))
  {
    match value
    case PyBytes(bytes) => Lower(DecodeAscii(bytes)) == "true"
    case PyStr(s) => Lower(s) == "true"
    case _ => Truthy(value)
  }

  // ---------------------------------------------------------------------
  // handle_ajax / save_user_state

  /** The keys save_user_state writes, in the order the source lists them. */
  const AcceptedKeys: seq<string> := [
    "speed", "auto_advance", "saved_video_position", "transcript_language",
    "transcript_download_format", "youtube_is_available",
    "bumper_last_view_date", "bumper_do_not_show_again"
  ]

  /** The conversions of the posted strings that lie outside this model:
      json.loads, RelativeTime.isotime_to_timedelta (None when they raise) and
      the clock reading now(). */
  datatype Converters = Converters(
    jsonLoads: string -> Option<PyValue>,
    isotimeToTimedelta: string -> Option<PyValue>,
    now: PyValue)

  /** The student-state fields of a video block that handle_ajax may write. */
  datatype UserState = UserState(
    speed: PyValue,
    globalSpeed: PyValue,
    autoAdvance: PyValue,
    savedVideoPosition: PyValue,
    transcriptLanguage: string,
    transcriptDownloadFormat: string,
    youtubeIsAvailable: PyValue,
    bumperLastViewDate: PyValue,
    bumperDoNotShowAgain: bool)

  /** What handle_ajax answers: {"success": true}, {"success": false, "error":
      message}, an exception raised by a conversion, or NotFoundError for a
      dispatch other than save_user_state. */
  datatype AjaxOutcome =
    | Saved
    | InvalidSpeed(message: string)
    | ConversionFailed(key: string)
    | UnexpectedDispatch

  /** The state of the pass over the posted keys: still going, or left early
      with an outcome. */
  datatype Progress = Running(state: UserState) | Stopped(state: UserState, outcome: AjaxOutcome)

  /** f"Invalid speed value {value}, must be a float." for value = nan. */
  const InvalidSpeedMessage: string := "Invalid speed value nan, must be a float."

  /** The keys of the posted items. */
  function KeysOf(data: seq<(string, string)>): (keys: set<string>)
    ensures forall i :: 0 <= i < |data| ==> data[i].0 in keys
    ensures forall k :: k in keys ==> exists i :: 0 <= i < |data| && data[i].0 == k
  {
    set i | 0 <= i < |data| :: data[i].0
  }

  /** data[key] on the posted items: the value of the last item with that key
      (a plain dict has one item per key, a webob MultiDict answers with the
      last). The loop only asks for keys it has just seen, so the empty answer
      for an absent key, where Python would raise KeyError, is never used. */
  function LastValue(data: seq<(string, string)>, key: string): string
    decreases |data|
  {
    if data == [] then ""
    else if data[|data| - 1].0 == key then data[|data| - 1].1
    else LastValue(data[..|data| - 1], key)
  }

  /** For a posted key, LastValue is the value of an item with that key, and
      no later item has the key. */
  lemma {:induction false} LastValueIsLast(data: seq<(string, string)>, key: string)
    requires key in KeysOf(data)
    ensures exists i :: 0 <= i < |data| && data[i] == (key, LastValue(data, key))
                        && forall j :: i < j < |data| ==> data[j].0 != key
    decreases |data|
  {
    var last := |data| - 1;
    if data[last].0 != key {
      var init := data[..last];
      assert key in KeysOf(init) by {
        var i :| 0 <= i < |data| && data[i].0 == key;
        assert init[i].0 == key;
      }
      LastValueIsLast(init, key);
      var i :| 0 <= i < |init| && init[i] == (key, LastValue(init, key))
               && forall j :: i < j < |init| ==> init[j].0 != key;
      assert data[i] == init[i];
      forall j | i < j < |data|
        ensures data[j].0 != key
      {
        if j < last {
          assert data[j] == init[j];
        }
      }
    }
  }

  /** The accepted keys whose value is stored without a conversion that can
      fail. */
  const TextKeys: seq<string> := [
    "transcript_language", "transcript_download_format", "bumper_last_view_date", "bumper_do_not_show_again"
  ]

  /** The accepted keys whose raw value goes through a conversion that can
      raise. */
  const ConvertedKeys: seq<string> := ["speed", "auto_advance", "saved_video_position", "youtube_is_available"]

  /** One iteration of the loop for an item with the given key and raw value. */
  function SaveStep(s: UserState, key: string, raw: string, conv: Converters): Progress {
    if key == "speed" then
      match conv.jsonLoads(raw)
      case None => Stopped(s, ConversionFailed(key))
      case Some(v) =>
        match IsNaN(v)
        case None => Stopped(s, ConversionFailed(key))
        case Some(true) => Stopped(s, InvalidSpeed(InvalidSpeedMessage))
        case Some(false) => Running(s.(speed := v, globalSpeed := v))
    else if key == "auto_advance" then
      match conv.jsonLoads(raw)
      case None => Stopped(s, ConversionFailed(key))
      case Some(v) => Running(s.(autoAdvance := v))
    else if key == "saved_video_position" then
      match conv.isotimeToTimedelta(raw)
      case None => Stopped(s, ConversionFailed(key))
      case Some(v) => Running(s.(savedVideoPosition := v))
    else if key == "transcript_language" then
      Running(s.(transcriptLanguage := raw))
    else if key == "transcript_download_format" then
      Running(s.(transcriptDownloadFormat := raw))
    else if key == "youtube_is_available" then
      match conv.jsonLoads(raw)
      case None => Stopped(s, ConversionFailed(key))
      case Some(v) => Running(s.(youtubeIsAvailable := v))
    else if key == "bumper_last_view_date" then
      // to_boolean(raw) is computed and replaced by now()
      Running(s.(bumperLastViewDate := conv.now))
    else if key == "bumper_do_not_show_again" then
      Running(s.(bumperDoNotShowAgain := ToBoolean(PyStr(raw))))
    else
      Running(s)
  }

  /** The loop after its first n iterations. */
  function SaveRun(s: UserState, data: seq<(string, string)>, n: nat, conv: Converters): Progress
    requires n <= |data|
  {
    if n == 0 then Running(s)
    else
      var p := SaveRun(s, data, n - 1, conv);
      if p.Stopped? then p
      else SaveStep(p.state, data[n - 1].0, LastValue(data, data[n - 1].0), conv)
  }

  /** One step: a key outside the accepted list is skipped; a step that stops
      writes nothing and stops either on a NaN speed or on a failed
      conversion of its own key; text keys never stop; a saved speed is a
      number other than NaN, copied into global_speed. */
  lemma SaveStepOutcome(s: UserState, key: string, raw: string, conv: Converters)
    ensures var r := SaveStep(s, key, raw, conv);
            && (key !in AcceptedKeys ==> r == Running(s))
            && (key in TextKeys ==> r.Running?)
            && (r.Stopped? ==> r.state == s)
            && (r.Stopped? && r.outcome.InvalidSpeed? ==>
                  r.outcome.message == InvalidSpeedMessage && key == "speed" && conv.jsonLoads(raw) == Some(PyFloat(NaN)))
            && (r.Stopped? && !r.outcome.InvalidSpeed? ==> r.outcome == ConversionFailed(key) && key in ConvertedKeys)
            && (key == "speed" && r.Running? ==>
                  Some(r.state.speed) == conv.jsonLoads(raw) && IsNaN(r.state.speed) == Some(false)
                  && r.state.globalSpeed == r.state.speed)
  {
  }

  /** However the pass stops, the outcome is the invalid-speed error or the
      failed conversion of a key that is converted. */
  lemma {:induction false} SaveRunOutcome(s: UserState, data: seq<(string, string)>, n: nat, conv: Converters)
    requires n <= |data|
    ensures var r := SaveRun(s, data, n, conv);
            r.Stopped? ==> r.outcome == InvalidSpeed(InvalidSpeedMessage)
                           || (r.outcome.ConversionFailed? && r.outcome.key in ConvertedKeys)
  {
    if n > 0 {
      SaveRunOutcome(s, data, n - 1, conv);
      var p := SaveRun(s, data, n - 1, conv);
      if p.Running? {
        SaveStepOutcome(p.state, data[n - 1].0, LastValue(data, data[n - 1].0), conv);
      }
    }
  }

  /** handle_ajax(dispatch, data) as a function of the state before the call:
      the state afterwards and the outcome. */
  function HandleAjaxResult(dispatch: string, s: UserState, data: seq<(string, string)>, conv: Converters)
    : (r: (UserState, AjaxOutcome))
    ensures dispatch != "save_user_state" ==> r == (s, UnexpectedDispatch)
    ensures r.1 != UnexpectedDispatch ==> dispatch == "save_user_state"
  {
    if dispatch != "save_user_state" then (s, UnexpectedDispatch)
    else
      match SaveRun(s, data, |data|, conv)
      case Running(t) => (t, Saved)
      case Stopped(t, outcome) => (t, outcome)
  }

  /** The fields of t that no key in keys can have written equal those of s;
      global_speed is written together with speed. */
  predicate Untouched(s: UserState, t: UserState, keys: set<string>) {
    && ("speed" !in keys ==> t.speed == s.speed && t.globalSpeed == s.globalSpeed)
    && ("auto_advance" !in keys ==> t.autoAdvance == s.autoAdvance)
    && ("saved_video_position" !in keys ==> t.savedVideoPosition == s.savedVideoPosition)
    && ("transcript_language" !in keys ==> t.transcriptLanguage == s.transcriptLanguage)
    && ("transcript_download_format" !in keys ==> t.transcriptDownloadFormat == s.transcriptDownloadFormat)
    && ("youtube_is_available" !in keys ==> t.youtubeIsAvailable == s.youtubeIsAvailable)
    && ("bumper_last_view_date" !in keys ==> t.bumperLastViewDate == s.bumperLastViewDate)
    && ("bumper_do_not_show_again" !in keys ==> t.bumperDoNotShowAgain == s.bumperDoNotShowAgain)
  }

  /** A key outside the accepted list changes nothing and never stops the
      loop; an accepted key touches only its own field. */
  lemma SaveStepFrame(s: UserState, key: string, raw: string, conv: Converters)
    ensures Untouched(s, SaveStep(s, key, raw, conv).state, {key})
    ensures key !in AcceptedKeys ==> SaveStep(s, key, raw, conv) == Running(s)
  {
  }

  /** The keys of the first n items are those of the first n - 1 and the key
      of item n. */
  lemma KeysOfExtend(data: seq<(string, string)>, n: nat)
    requires 0 < n <= |data|
    ensures KeysOf(data[..n]) == KeysOf(data[..n - 1]) + {data[n - 1].0}
  {
  }

  lemma UntouchedCompose(a: UserState, b: UserState, c: UserState, k1: set<string>, k2: set<string>, k: set<string>)
    requires Untouched(a, b, k1) && Untouched(b, c, k2)
    requires k1 + k2 <= k
    ensures Untouched(a, c, k)
  {
  }

  /** However the pass ends, a field changes only if its key was posted. */
  lemma {:induction false} SaveWritesOnlyPostedKeys(s: UserState, data: seq<(string, string)>, n: nat, conv: Converters)
    requires n <= |data|
    ensures Untouched(s, SaveRun(s, data, n, conv).state, KeysOf(data[..n]))
  {
    if n > 0 {
      SaveWritesOnlyPostedKeys(s, data, n - 1, conv);
      var p := SaveRun(s, data, n - 1, conv);
      var key := data[n - 1].0;
      KeysOfExtend(data, n);
      if p.Running? {
        var step := SaveStep(p.state, key, LastValue(data, key), conv);
        assert SaveRun(s, data, n, conv) == step;
        SaveStepFrame(p.state, key, LastValue(data, key), conv);
        UntouchedCompose(s, p.state, step.state, KeysOf(data[..n - 1]), {key}, KeysOf(data[..n]));
      } else {
        assert SaveRun(s, data, n, conv) == p;
        UntouchedCompose(s, p.state, p.state, KeysOf(data[..n - 1]), {}, KeysOf(data[..n]));
      }
    }
  }

  /** Items whose keys are all outside the accepted list leave the state as it
      was, and the answer is success. */
  lemma {:induction false} SaveIgnoresUnacceptedKeys(s: UserState, data: seq<(string, string)>, n: nat, conv: Converters)
    requires n <= |data|
    requires forall i :: 0 <= i < n ==> data[i].0 !in AcceptedKeys
    ensures SaveRun(s, data, n, conv) == Running(s)
  {
    if n > 0 {
      SaveIgnoresUnacceptedKeys(s, data, n - 1, conv);
      SaveStepFrame(s, data[n - 1].0, LastValue(data, data[n - 1].0), conv);
    }
  }

  /** Once the loop has returned early, later items change nothing. */
  lemma {:induction false} SaveStopIsFinal(s: UserState, data: seq<(string, string)>, m: nat, n: nat, conv: Converters)
    requires m <= n <= |data|
    requires SaveRun(s, data, m, conv).Stopped?
    ensures SaveRun(s, data, n, conv) == SaveRun(s, data, m, conv)
    decreases n
  {
    if n == m {
    } else {
      SaveStopIsFinal(s, data, m, n - 1, conv);
      SaveRunHalted(s, data, n, conv);
    }
  }

  /** A successful pass that saw the key speed leaves speed and global_speed
      both equal to the decoded speed value. */
  lemma {:induction false} SaveCopiesSpeedToGlobal(s: UserState, data: seq<(string, string)>, n: nat, conv: Converters)
    requires n <= |data|
    requires SaveRun(s, data, n, conv).Running?
    requires "speed" in KeysOf(data[..n])
    ensures "speed" in KeysOf(data)
    ensures conv.jsonLoads(LastValue(data, "speed")) == Some(SaveRun(s, data, n, conv).state.speed)
    ensures SaveRun(s, data, n, conv).state.globalSpeed == SaveRun(s, data, n, conv).state.speed
  {
    assert data[..n][0] == data[0];
    var p := SaveRun(s, data, n - 1, conv);
    assert p.Running?;
    var key := data[n - 1].0;
    var step := SaveStep(p.state, key, LastValue(data, key), conv);
    assert SaveRun(s, data, n, conv) == step;
    if key == "speed" {
      assert key in KeysOf(data);
    } else {
      KeysOfExtend(data, n);
      SaveCopiesSpeedToGlobal(s, data, n - 1, conv);
      SaveStepFrame(p.state, key, LastValue(data, key), conv);
    }
  }

  /** A speed item that decodes to NaN ends the pass with success false at
      that item: speed and global_speed are not written, and every accepted
      key handled before it stays written. */
  lemma SaveNaNSpeedStops(s: UserState, data: seq<(string, string)>, i: nat, conv: Converters)
    requires i < |data| && data[i].0 == "speed"
    requires SaveRun(s, data, i, conv).Running?
    requires conv.jsonLoads(LastValue(data, "speed")) == Some(PyFloat(NaN))
    ensures HandleAjaxResult("save_user_state", s, data, conv)
         == (SaveRun(s, data, i, conv).state, InvalidSpeed(InvalidSpeedMessage))
  {
    var p := SaveRun(s, data, i, conv);
    SaveRunNext(s, data, i, conv);
    SaveStepNaN(p.state, LastValue(data, "speed"), conv);
    SaveStopIsFinal(s, data, i + 1, |data|, conv);
  }

  /** Once the pass has stopped, item n is skipped. */
  lemma SaveRunHalted(s: UserState, data: seq<(string, string)>, n: nat, conv: Converters)
    requires 0 < n <= |data| && SaveRun(s, data, n - 1, conv).Stopped?
    ensures SaveRun(s, data, n, conv) == SaveRun(s, data, n - 1, conv)
  {
  }

  /** Item n of a pass still running is handled by one step. */
  lemma SaveRunNext(s: UserState, data: seq<(string, string)>, n: nat, conv: Converters)
    requires n < |data| && SaveRun(s, data, n, conv).Running?
    ensures SaveRun(s, data, n + 1, conv)
         == SaveStep(SaveRun(s, data, n, conv).state, data[n].0, LastValue(data, data[n].0), conv)
  {
  }

  /** A speed value that decodes to NaN stops the pass and writes nothing. */
  lemma SaveStepNaN(s: UserState, raw: string, conv: Converters)
    requires conv.jsonLoads(raw) == Some(PyFloat(NaN))
    ensures SaveStep(s, "speed", raw, conv) == Stopped(s, InvalidSpeed(InvalidSpeedMessage))
  {
  }

  /** An integer speed too large for a float makes math.isnan raise
      OverflowError: the pass stops there with the conversion failure and
      writes nothing. */
  lemma SaveStepOverflowSpeed(s: UserState, raw: string, conv: Converters, i: int)
    requires conv.jsonLoads(raw) == Some(PyInt(i)) && !IntFitsFloat(i)
    ensures SaveStep(s, "speed", raw, conv) == Stopped(s, ConversionFailed("speed"))
  {
  }

  // ---------------------------------------------------------------------
  // publish_completion

  /** runtime.service(self, 'completion'): absent, or present with its
      completion_tracking_enabled() answer. */
  datatype CompletionService = NoCompletionService | CompletionService(trackingEnabled: bool)

  datatype CompletionError =
    | NoServiceFound
    | TrackingDisabled
    | NotAFloat(value: PyValue)
    | OutOfRange(value: PyValue)

  /** The JsonHandlerError status of each error. */
  function CompletionStatus(e: CompletionError): (code: int)
    ensures code == 500 <==> e.NoServiceFound?
    ensures code == 404 <==> e.TrackingDisabled?
    ensures code == 400 <==> e.NotAFloat? || e.OutOfRange?
  {
    match e
    case NoServiceFound => 500
    case TrackingDisabled => 404
    case NotAFloat(_) => 400
    case OutOfRange(_) => 400
  }

  /** Published: runtime.publish(self, "completion", data) happened and the
      answer is {"result": "ok"}. MissingCompletion is the KeyError of
      data['completion']. */
  datatype CompletionOutcome =
    | Published(event: map<string, PyValue>)
    | Rejected(error: CompletionError)
    | MissingCompletion

  /** publish_completion checks the service, then tracking, then that the value
      is a number, then that it lies in [0.0, 1.0], and publishes only when all
      pass. */
  function PublishCompletion(service: CompletionService, data: map<string, PyValue>): (r: CompletionOutcome)
    ensures r == Rejected(NoServiceFound) <==> service.NoCompletionService?
    ensures r == Rejected(TrackingDisabled) <==> service == CompletionService(false)
    ensures r == MissingCompletion <==> service == CompletionService(true) && "completion" !in data
    ensures r.Rejected? && r.error.NotAFloat? <==>
              service == CompletionService(true) && "completion" in data && !IsNumber(data["completion"])
    ensures r.Rejected? && r.error.OutOfRange? <==>
              service == CompletionService(true) && "completion" in data && IsNumber(data["completion"])
              && !InUnitInterval(data["completion"])
    ensures r.Published? <==>
              service == CompletionService(true) && "completion" in data && IsNumber(data["completion"])
              && InUnitInterval(data["completion"])
    ensures r.Published? ==> r.event == data
    ensures r.Rejected? && (r.error.NotAFloat? || r.error.OutOfRange?) ==> r.error.value == data["completion"]
  {
    match service
    case NoCompletionService => Rejected(NoServiceFound)
    case CompletionService(enabled) =>
      if !enabled then Rejected(TrackingDisabled)
      else if "completion" !in data then MissingCompletion
      else
        var value := data["completion"];
        if !IsNumber(value) then Rejected(NotAFloat(value))
        else if !InUnitInterval(value) then Rejected(OutOfRange(value))
        else Published(data)
  }

  /** The status publish_completion answers with when it rejects: 500 without
      a completion service, 404 with tracking disabled, 400 for a completion
      that is not a number in [0.0, 1.0]. */
  lemma PublishCompletionStatus(service: CompletionService, data: map<string, PyValue>)
    requires PublishCompletion(service, data).Rejected?
    ensures var code := CompletionStatus(PublishCompletion(service, data).error);
            && (code == 500 <==> service.NoCompletionService?)
            && (code == 404 <==> service == CompletionService(false))
            && (code == 400 <==> service == CompletionService(true) && "completion" in data
                                 && !(IsNumber(data["completion"]) && InUnitInterval(data["completion"])))
  {
  }

  /** Whatever is published is a number in [0.0, 1.0]; a float NaN or an
      infinity never is. */
  lemma PublishedCompletionInRange(service: CompletionService, data: map<string, PyValue>)
    requires PublishCompletion(service, data).Published?
    ensures "completion" in data
    ensures match data["completion"]
            case PyBool(_) => true
            case PyInt(i) => 0 <= i <= 1
            case PyFloat(f) => f.Finite? && 0.0 <= f.r <= 1.0
            case _ => false
  {
  }

  // ---------------------------------------------------------------------
  // transcript: translation dispatch

  /** dispatch.replace('translation', '').strip('/'). */
  function ExtractLanguage(dispatch: string): (language: string)
    ensures |language| <= |dispatch|
    ensures language == [] || (language[0] != '/' && language[|language| - 1] != '/')
  {
    Strip(RemoveAll(dispatch, "translation"), '/')
  }

  /** The URL form translation/<language> gives back the language, for any
      language code that neither contains "translation" nor starts or ends with
      a slash. */
  lemma ExtractLanguageRoundTrip(language: string)
    requires !Contains(language, "translation")
    requires language == [] || (language[0] != '/' && language[|language| - 1] != '/')
    ensures ExtractLanguage("translation/" + language) == language
  {
    var rest := "/" + language;
    assert "translation/" + language == "translation" + rest;
    RemoveAllLeading("translation", rest);
    assert RemoveAll(rest, "translation") == rest by {
      assert !StartsWith(rest, "translation");
      assert rest[1..] == language;
      RemoveAllAbsent(language, "translation");
    }
    TrimLeftLeading('/', language);
    TrimLeftNoLeading(language, '/');
    assert TrimLeft(rest, '/') == language;
    TrimRightNoTrailing(language, '/');
  }

  /** The checks of the translation dispatch, in order: 403 without a user,
      400 without a language, 404 for a language that is neither en nor a key
      of the transcripts map; None when the transcript may be fetched. */
  function TranslationCheck(userPresent: bool, language: string, transcripts: map<string, string>)
    : (r: Option<int>)
    ensures r == Some(403) <==> !userPresent
    ensures r == Some(400) <==> userPresent && language == []
    ensures r == Some(404) <==> userPresent && language != [] && language != "en" && language !in transcripts
    ensures r.None? <==> userPresent && language != [] && (language == "en" || language in transcripts)
  {
    if !userPresent then Some(403)
    else if language == [] then Some(400)
    else if language != "en" && language !in transcripts then Some(404)
    else None
  }

  /** `videoId` of the query when it is non-empty, otherwise the sub. */
  function StaticTranscriptName(query: map<string, string>, sub: string): string {
    if "videoId" in query && query["videoId"] != [] then query["videoId"] else sub
  }

  /** The course's static_asset_path, or its data_dir when that is empty. */
  function CourseAssetPath(course: Course): string {
    if course.staticAssetPath != [] then course.staticAssetPath else course.dataDir
  }

  /** get_static_transcript: a 307 to /static/<asset path>/<subs file name>
      only for English, in a course, with a transcript name and an asset path;
      404 otherwise. */
  function StaticTranscript(language: string, context: ContextKey, query: map<string, string>, sub: string,
                            course: Course, subsFilename: (string, string) -> string): (r: Response)
    ensures r.status == 307 || r == StatusOnly(404)
    ensures r.status == 307 <==>
              language == "en" && context.CourseLocator? && StaticTranscriptName(query, sub) != []
              && CourseAssetPath(course) != []
    ensures r.status == 307 ==>
              HeaderValue(r.headers, "Location")
              == Some("/static/" + CourseAssetPath(course) + "/" + subsFilename(StaticTranscriptName(query, sub), "en"))
  {
    if language != "en" || !context.CourseLocator? then StatusOnly(404)
    else
      var name := StaticTranscriptName(query, sub);
      if name == [] then StatusOnly(404)
      else
        var assetPath := CourseAssetPath(course);
        if assetPath == [] then StatusOnly(404)
        else Response(307, [("Location", "/static/" + assetPath + "/" + subsFilename(name, language))], Empty)
  }

  /** make_transcript_http_response: status 200, the content as body, the
      language and content type as headers, and the attachment header exactly
      when it is asked for. */
  function MakeTranscriptResponse(content: string, filename: string, language: string, contentType: string,
                                  addAttachmentHeader: bool): (r: Response)
    ensures r.status == 200 && r.body == Text(content)
    ensures HeaderValue(r.headers, "Content-Language") == Some(language)
    ensures HeaderValue(r.headers, "Content-Type") == Some(contentType)
    ensures HeaderValue(r.headers, "Content-Disposition")
            == if addAttachmentHeader then Some(Attachment(filename)) else None
  {
    var typed := [("Content-Type", contentType)];
    assert HeaderValue(typed, "Content-Type") == Some(contentType);
    var rest := if addAttachmentHeader then [("Content-Disposition", Attachment(filename))] + typed else typed;
    assert HeaderValue(rest, "Content-Type") == Some(contentType) by {
      if addAttachmentHeader { assert rest[1..] == typed; }
    }
    assert ([("Content-Language", language)] + rest)[1..] == rest;
    Response(200, [("Content-Language", language)] + rest, Text(content))
  }

  /** request.GET.get('is_bumper', False), as a truth value: present in the
      query string and not empty. */
  predicate IsBumper(query: map<string, string>)
    ensures IsBumper(query) <==> "is_bumper" in query && query["is_bumper"] != []
  {
    match Get(query, "is_bumper")
    case None => false
    case Some(v) => Truthy(PyStr(v))
  }

  // ---------------------------------------------------------------------
  // transcript dispatch

  /** The value of Transcript.SJSON, the output format of the translation
      dispatch. */
  const SjsonFormat: string := "sjson"

  /** The parts of a student request the transcript handler reads: the query
      string and whether request._request.user is set. */
  datatype StudentRequest = StudentRequest(query: map<string, string>, userPresent: bool)

  /** What the transcript handler asks of code outside this model:
      get_transcripts_info(is_bumper), get_transcript_from_contentstore(lang,
      SJSON, transcripts), get_transcript(lang, output_format, youtube_id),
      available_translations(transcripts, verify_assets=True, is_bumper), the
      course of the block and subs_filename. A None transcript is the
      NotFoundError those calls raise. */
  datatype TranscriptEnv = TranscriptEnv(
    transcriptsInfo: bool -> TranscriptsInfo,
    fromContentstore: (string, TranscriptsInfo) -> Option<TranscriptFile>,
    getTranscript: (Option<string>, string, Option<string>) -> Option<TranscriptFile>,
    availableTranslations: (TranscriptsInfo, bool) -> seq<string>,
    course: Course,
    subsFilename: (string, string) -> string)

  /** The SJSON transcript the translation dispatch fetches for language. */
  function FetchTranslation(env: TranscriptEnv, language: string, query: map<string, string>): Option<TranscriptFile> {
    var isBumper := IsBumper(query);
    if isBumper then env.fromContentstore(language, env.transcriptsInfo(isBumper))
    else env.getTranscript(Some(language), SjsonFormat, Get(query, "videoId"))
  }

  /** The bumper transcript comes from the content store and does not depend
      on the videoId parameter; any other comes from get_transcript and does
      not depend on the content store. */
  lemma FetchTranslationSources(env: TranscriptEnv, language: string, query: map<string, string>,
                                videoId: string, store: (string, TranscriptsInfo) -> Option<TranscriptFile>)
    ensures IsBumper(query) ==>
      FetchTranslation(env, language, query["videoId" := videoId]) == FetchTranslation(env, language, query)
    ensures !IsBumper(query) ==>
      FetchTranslation(env.(fromContentstore := store), language, query) == FetchTranslation(env, language, query)
  {
    if IsBumper(query) {
      assert IsBumper(query["videoId" := videoId]);
    }
  }

  /** The response to the available_translations dispatch. */
  function AvailableTranslationsResponse(available: seq<string>): (r: Response)
    ensures r.status == 200 <==> available != []
    ensures r.status == 200 ==> r.body == JsonList(available)
    ensures r.status != 200 ==> r == StatusOnly(404)
  {
    if available != [] then Response(200, [("Content-Type", "application/json")], JsonList(available))
    else StatusOnly(404)
  }

  /** No dispatch starts with both translation and available_translations. */
  lemma DispatchPrefixesDisjoint(dispatch: string)
    ensures StartsWith(dispatch, "translation") ==> !StartsWith(dispatch, "available_translations")
  {
    if StartsWith(dispatch, "translation") {
      assert dispatch[0] == dispatch[..11][0] == 't';
    }
  }

  /** transcript(request, dispatch) given the block's transcript_language,
      transcript_download_format and context: the response and the
      transcript_language afterwards. Only a translation dispatch that passes
      its checks changes the language, and then to the requested one; its
      transcript is served inline in that language, or else the static
      fallback decides between 307 and 404. A download is served as an
      attachment or answered 404; available_translations answers 200 exactly
      when there is a language to list; any other dispatch gets 404. */
  function TranscriptHandler(transcriptLanguage: string, downloadFormat: string, context: ContextKey,
                             request: StudentRequest, dispatch: string, env: TranscriptEnv)
    : (r: (Response, string))
    ensures !StartsWith(dispatch, "translation") ==> r.1 == transcriptLanguage
    ensures StartsWith(dispatch, "translation") ==>
              var language := ExtractLanguage(dispatch);
              var info := env.transcriptsInfo(IsBumper(request.query));
              var check := TranslationCheck(request.userPresent, language, info.transcripts);
              && (check.Some? ==> r == (StatusOnly(check.value), transcriptLanguage))
              && (check.None? ==>
                    && r.1 == language
                    && r.0.status in {200, 307, 404}
                    && (r.0.status == 200 <==> FetchTranslation(env, language, request.query).Some?)
                    && (r.0.status == 200 ==>
                          var t := FetchTranslation(env, language, request.query).value;
                          && r.0.body == Text(t.content)
                          && HeaderValue(r.0.headers, "Content-Language") == Some(language)
                          && HeaderValue(r.0.headers, "Content-Type") == Some(t.mimetype)
                          && HeaderValue(r.0.headers, "Content-Disposition").None?)
                    && (r.0.status != 200 ==>
                          r.0 == StaticTranscript(language, context, request.query, info.sub, env.course, env.subsFilename)))
    ensures dispatch == "download" ==>
              var fetched := env.getTranscript(Get(request.query, "lang"), downloadFormat, None);
              && (r.0.status == 200 <==> fetched.Some?)
              && (r.0.status != 200 ==> r.0 == StatusOnly(404))
              && (r.0.status == 200 ==>
                    && r.0.body == Text(fetched.value.content)
                    && HeaderValue(r.0.headers, "Content-Type") == Some(fetched.value.mimetype)
                    && HeaderValue(r.0.headers, "Content-Disposition") == Some(Attachment(fetched.value.filename))
                    && HeaderValue(r.0.headers, "Content-Language") == Some(transcriptLanguage))
    ensures StartsWith(dispatch, "available_translations") ==>
              var isBumper := IsBumper(request.query);
              r.0 == AvailableTranslationsResponse(env.availableTranslations(env.transcriptsInfo(isBumper), isBumper))
    ensures (!StartsWith(dispatch, "translation") && dispatch != "download"
             && !StartsWith(dispatch, "available_translations")) ==> r.0 == StatusOnly(404)
  {
    DispatchPrefixesDisjoint(dispatch);
    var isBumper := IsBumper(request.query);
    var info := env.transcriptsInfo(isBumper);
    if StartsWith(dispatch, "translation") then
      var language := ExtractLanguage(dispatch);
      match TranslationCheck(request.userPresent, language, info.transcripts)
      case Some(code) => (StatusOnly(code), transcriptLanguage)
      case None =>
        match FetchTranslation(env, language, request.query)
        case Some(t) => (MakeTranscriptResponse(t.content, t.filename, language, t.mimetype, false), language)
        case None => (StaticTranscript(language, context, request.query, info.sub, env.course, env.subsFilename), language)
    else if dispatch == "download" then
      match env.getTranscript(Get(request.query, "lang"), downloadFormat, None)
      case None => (StatusOnly(404), transcriptLanguage)
      case Some(t) => (MakeTranscriptResponse(t.content, t.filename, transcriptLanguage, t.mimetype, true), transcriptLanguage)
    else if StartsWith(dispatch, "available_translations") then
      (AvailableTranslationsResponse(env.availableTranslations(info, isBumper)), transcriptLanguage)
    else (StatusOnly(404), transcriptLanguage)
  }
}
