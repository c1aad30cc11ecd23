/** A video block and the handlers that change its fields in place: the
    student-state save of handle_ajax, the transcript handler that records the
    requested language, and the Studio upload and delete of transcripts. Each
    method is proved against the function of module StudentHandlers or
    StudioHandlers that states its outcome. */
module VideoBlocks {
  import opened PyModel
  import opened Strings
  import opened Http
  import opened VideoTypes
  import opened StudentHandlers
  import opened StudioHandlers

  /** The parts of a Studio request the handlers read: the HTTP method, the
      POST form, the JSON body and the query string. */
  datatype StudioRequest = StudioRequest(
    httpMethod: string,
    post: map<string, string>,
    json: map<string, string>,
    query: map<string, string>)

  class VideoBlock {
    // Student state written by handle_ajax.
    var speed: PyValue
    var globalSpeed: PyValue
    var autoAdvance: PyValue
    var savedVideoPosition: PyValue
    var transcriptLanguage: string
    var transcriptDownloadFormat: string
    var youtubeIsAvailable: PyValue
    var bumperLastViewDate: PyValue
    var bumperDoNotShowAgain: bool

    // Content fields written by the Studio handlers.
    var transcripts: map<string, string>
    var sub: string
    var edxVideoId: string
    /** Whether the transcripts field holds a value written to the field data. */
    var transcriptsExplicit: bool

    /** usage_key.context_key (the same key as course_id). */
    const context: ContextKey
    /** youtube_id_1_0. */
    const youtubeId: string

    function UserFields(): UserState
      reads this
    {
      UserState(speed, globalSpeed, autoAdvance, savedVideoPosition, transcriptLanguage,
                transcriptDownloadFormat, youtubeIsAvailable, bumperLastViewDate, bumperDoNotShowAgain)
    }

    function StudioState(): StudioFields
      reads this
    {
      StudioFields(transcripts, sub, edxVideoId, transcriptsExplicit)
    }

    constructor (context: ContextKey, youtubeId: string, user: UserState, studio: StudioFields)
      ensures this.context == context && this.youtubeId == youtubeId
      ensures UserFields() == user && StudioState() == studio
    {
      this.context := context;
      this.youtubeId := youtubeId;
      speed, globalSpeed, autoAdvance := user.speed, user.globalSpeed, user.autoAdvance;
      savedVideoPosition, transcriptLanguage := user.savedVideoPosition, user.transcriptLanguage;
      transcriptDownloadFormat, youtubeIsAvailable := user.transcriptDownloadFormat, user.youtubeIsAvailable;
      bumperLastViewDate, bumperDoNotShowAgain := user.bumperLastViewDate, user.bumperDoNotShowAgain;
      transcripts, sub, edxVideoId, transcriptsExplicit := studio.transcripts, studio.sub, studio.edxVideoId, studio.explicit;
    }

    /** handle_ajax: with dispatch save_user_state, the posted items are
        visited in order and each accepted key is converted and written (speed
        also into global_speed); a NaN speed or a failing conversion leaves
        the loop at once, keeping what was written before. */
    method HandleAjax(dispatch: string, data: seq<(string, string)>, conv: Converters) returns (outcome: AjaxOutcome)
      modifies this`speed, this`globalSpeed, this`autoAdvance, this`savedVideoPosition, this`transcriptLanguage
      modifies this`transcriptDownloadFormat, this`youtubeIsAvailable, this`bumperLastViewDate, this`bumperDoNotShowAgain
      ensures (UserFields(), outcome) == HandleAjaxResult(dispatch, old(UserFields()), data, conv)
    {
      if dispatch != "save_user_state" {
        return UnexpectedDispatch;
      }
      ghost var start := UserFields();
      var i := 0;
      while i < |data|
        invariant 0 <= i <= |data|
        invariant SaveRun(start, data, i, conv) == Running(UserFields())
      {
        var key := data[i].0;
        ghost var before := UserFields();
        SaveRunNext(start, data, i, conv);
        if key in AcceptedKeys {
          var failed := SaveKey(key, LastValue(data, key), conv);
          if failed.Some? {
            SaveStopIsFinal(start, data, i + 1, |data|, conv);
            return failed.value;
          }
        } else {
          SaveStepFrame(before, key, LastValue(data, key), conv);
        }
        i := i + 1;
      }
      outcome := Saved;
    }

    /** One accepted key of handle_ajax: convert the raw value and write the
        field, or report why the loop must stop (the fields then stay as they
        were). */
    method SaveKey(key: string, raw: string, conv: Converters) returns (failed: Option<AjaxOutcome>)
      requires key in AcceptedKeys
      modifies this`speed, this`globalSpeed, this`autoAdvance, this`savedVideoPosition, this`transcriptLanguage
      modifies this`transcriptDownloadFormat, this`youtubeIsAvailable, this`bumperLastViewDate, this`bumperDoNotShowAgain
      ensures SaveStep(old(UserFields()), key, raw, conv)
           == if failed.None? then Running(UserFields()) else Stopped(UserFields(), failed.value)
    {
      failed := None;
      if key == "speed" {
        var value := conv.jsonLoads(raw);
        var nan := if value.Some? then IsNaN(value.value) else None;
        if nan.None? {
          failed := Some(ConversionFailed(key));
        } else if nan.value {
          failed := Some(InvalidSpeed(InvalidSpeedMessage));
        } else {
          speed := value.value;
          globalSpeed := speed;
        }
      } else if key == "auto_advance" {
        var value := conv.jsonLoads(raw);
        if value.None? { failed := Some(ConversionFailed(key)); } else { autoAdvance := value.value; }
      } else if key == "saved_video_position" {
        var value := conv.isotimeToTimedelta(raw);
        if value.None? { failed := Some(ConversionFailed(key)); } else { savedVideoPosition := value.value; }
      } else if key == "transcript_language" {
        transcriptLanguage := raw;
      } else if key == "transcript_download_format" {
        transcriptDownloadFormat := raw;
      } else if key == "youtube_is_available" {
        var value := conv.jsonLoads(raw);
        if value.None? { failed := Some(ConversionFailed(key)); } else { youtubeIsAvailable := value.value; }
      } else if key == "bumper_last_view_date" {
        bumperLastViewDate := conv.now;
      } else {
        bumperDoNotShowAgain := ToBoolean(PyStr(raw));
      }
    }

    /** transcript: serves the translation, download and available_translations
        dispatches and, for a translation that passes its checks, records the
        requested language in transcript_language. */
    method Transcript(request: StudentRequest, dispatch: string, env: TranscriptEnv) returns (r: Response)
      modifies this`transcriptLanguage
      ensures (r, transcriptLanguage)
           == TranscriptHandler(old(transcriptLanguage), transcriptDownloadFormat, context, request, dispatch, env)
    {
      DispatchPrefixesDisjoint(dispatch);
      var isBumper := IsBumper(request.query);
      var info := env.transcriptsInfo(isBumper);
      if StartsWith(dispatch, "translation") {
        var language := ExtractLanguage(dispatch);
        if !request.userPresent {
          return StatusOnly(403);
        }
        if language == [] {
          return StatusOnly(400);
        }
        if language != "en" && language !in info.transcripts {
          return StatusOnly(404);
        }
        if language != transcriptLanguage {
          transcriptLanguage := language;
        }
        var fetched := if isBumper then env.fromContentstore(transcriptLanguage, info)
                       else env.getTranscript(Some(transcriptLanguage), SjsonFormat, Get(request.query, "videoId"));
        if fetched.Some? {
          r := MakeTranscriptResponse(fetched.value.content, fetched.value.filename, transcriptLanguage,
                                      fetched.value.mimetype, false);
        } else {
          r := StaticTranscript(transcriptLanguage, context, request.query, info.sub, env.course, env.subsFilename);
        }
      } else if dispatch == "download" {
        var fetched := env.getTranscript(Get(request.query, "lang"), transcriptDownloadFormat, None);
        if fetched.None? {
          return StatusOnly(404);
        }
        r := MakeTranscriptResponse(fetched.value.content, fetched.value.filename, transcriptLanguage,
                                    fetched.value.mimetype, true);
      } else if StartsWith(dispatch, "available_translations") {
        r := AvailableTranslationsResponse(env.availableTranslations(info, isBumper));
      } else {
        r := StatusOnly(404);
      }
    }

    /** studio_transcript: routes a translation dispatch by HTTP method. */
    method StudioTranscript(request: StudioRequest, dispatch: string, backend: StudioBackend)
      returns (r: Response, effects: seq<Effect>)
      modifies this`transcripts, this`sub, this`edxVideoId, this`transcriptsExplicit
      ensures match RouteStudio(dispatch, request.httpMethod)
              case Upload =>
                HandlerResult(StudioState(), r, effects) == UploadTranscript(old(StudioState()), request.post, context, backend)
              case Delete =>
                HandlerResult(StudioState(), r, effects)
                == DeleteTranscript(old(StudioState()), request.json, context, youtubeId, backend)
              case Fetch =>
                r == StudioTranscriptGet(request.query, backend.fetchSrt) && effects == []
                && StudioState() == old(StudioState())
              case NotAllowed =>
                r == StatusOnly(404) && effects == [] && StudioState() == old(StudioState())
    {
      match RouteStudio(dispatch, request.httpMethod)
      case Upload =>
        r, effects := StudioTranscriptUpload(request.post, backend);
      case Delete =>
        r, effects := StudioTranscriptDelete(request.json, backend);
      case Fetch =>
        r, effects := StudioTranscriptGet(request.query, backend.fetchSrt), [];
      case NotAllowed =>
        r, effects := StatusOnly(404), [];
    }

    /** _save_transcript_field: the field is deleted and, when the map is not
        empty, written back with the same contents. */
    method SaveTranscriptField()
      modifies this`transcriptsExplicit
      ensures transcriptsExplicit == (transcripts != map[])
    {
      transcriptsExplicit := false;
      if transcripts != map[] {
        transcriptsExplicit := true;
      }
    }

    /** transcripts.pop(language, None). */
    method PopTranscript(language: string) returns (name: Option<string>)
      modifies this`transcripts
      ensures name == Get(old(transcripts), language)
      ensures transcripts == old(transcripts) - {language}
    {
      name := Get(transcripts, language);
      transcripts := transcripts - {language};
    }

    /** _studio_transcript_upload. */
    method StudioTranscriptUpload(post: map<string, string>, backend: StudioBackend)
      returns (r: Response, effects: seq<Effect>)
      modifies this`transcripts, this`edxVideoId, this`transcriptsExplicit
      ensures HandlerResult(StudioState(), r, effects) == UploadTranscript(old(StudioState()), post, context, backend)
    {
      var error := ValidateUpload(post, backend.availableTranslations);
      if error.Some? {
        return JsonError(400, UploadErrorMessage(error.value)), [];
      }
      if context.LibraryLocatorV2? {
        r, effects := UploadToLibrary(post, backend);
      } else {
        r, effects := UploadToCourse(post, backend);
      }
    }

    /** The upload once the request is valid, for a block in a content library:
        the file becomes a static asset of the block. */
    method UploadToLibrary(post: map<string, string>, backend: StudioBackend)
      returns (r: Response, effects: seq<Effect>)
      requires ValidateUpload(post, backend.availableTranslations).None? && context.LibraryLocatorV2?
      modifies this`transcripts, this`transcriptsExplicit
      ensures HandlerResult(StudioState(), r, effects) == UploadTranscript(old(StudioState()), post, context, backend)
    {
      var videoId := backend.cleanVideoId(post["edx_video_id"]);
      var languageCode, newLanguageCode := post["language_code"], post["new_language_code"];
      var filename := "static/" + ("transcript-" + newLanguageCode + ".srt");
      assert filename == TranscriptFilename(true, videoId, newLanguageCode);
      effects := [AddLibraryStaticAsset(filename, post["file"])];
      if languageCode != newLanguageCode {
        var _ := PopTranscript(languageCode);
      }
      transcripts := transcripts[newLanguageCode := filename];
      SaveTranscriptField();
      r := Response(201, [], UploadPayload(videoId, newLanguageCode));
    }

    /** The upload once the request is valid, for a block in a course: an
        external video is created when the block has none, and the file is
        stored in VAL as SJSON. */
    method UploadToCourse(post: map<string, string>, backend: StudioBackend)
      returns (r: Response, effects: seq<Effect>)
      requires ValidateUpload(post, backend.availableTranslations).None? && !context.LibraryLocatorV2?
      modifies this`transcripts, this`edxVideoId
      ensures HandlerResult(StudioState(), r, effects) == UploadTranscript(old(StudioState()), post, context, backend)
    {
      var videoId := backend.cleanVideoId(post["edx_video_id"]);
      var languageCode, newLanguageCode := post["language_code"], post["new_language_code"];
      effects := [];
      if videoId == [] {
        videoId := backend.externalVideoId;
        edxVideoId := videoId;
        effects := [CreateExternalVideo(videoId)];
      }
      var filename := videoId + "-" + newLanguageCode + ".srt";
      assert filename == TranscriptFilename(false, videoId, newLanguageCode);
      var sjson := backend.srtToSjson(post["file"]);
      if sjson.None? {
        return JsonError(400, FileProblemMessage), effects;
      }
      effects := effects + [CreateOrUpdateVideoTranscript(videoId, languageCode, newLanguageCode, sjson.value)];
      if languageCode != newLanguageCode {
        var _ := PopTranscript(languageCode);
      }
      transcripts := transcripts[newLanguageCode := filename];
      r := Response(201, [], UploadPayload(videoId, newLanguageCode));
    }

    /** _studio_transcript_delete. */
    method StudioTranscriptDelete(body: map<string, string>, backend: StudioBackend)
      returns (r: Response, effects: seq<Effect>)
      modifies this`transcripts, this`sub, this`transcriptsExplicit
      ensures HandlerResult(StudioState(), r, effects)
           == DeleteTranscript(old(StudioState()), body, context, youtubeId, backend)
    {
      if "lang" !in body || "edx_video_id" !in body {
        return StatusOnly(400), [];
      }
      var language := body["lang"];
      var videoId := backend.cleanVideoId(body["edx_video_id"]);
      effects := [];
      if videoId != [] {
        effects := [DeleteVideoTranscript(videoId, language)];
      }
      var removals: seq<Effect>;
      if context.LibraryLocatorV2? {
        removals := DeleteFromLibrary(language);
      } else {
        removals := DeleteFromCourse(language, backend.html5Ids);
      }
      effects := effects + removals;
      r := StatusOnly(200);
    }

    /** The library branch of a delete: the entry is popped and, when it named
        a file, the static asset "static/<name>" goes and the field is
        rewritten. */
    method DeleteFromLibrary(language: string) returns (effects: seq<Effect>)
      requires context.LibraryLocatorV2?
      modifies this`transcripts, this`transcriptsExplicit
      ensures var name := Get(old(transcripts), language);
              && transcripts == old(transcripts) - {language}
              && (if name.Some? && name.value != [] then
                    effects == [DeleteLibraryStaticAsset(LibraryAssetToDeleteAsWritten(name.value))]
                    && transcriptsExplicit == (transcripts != map[])
                  else effects == [] && transcriptsExplicit == old(transcriptsExplicit))
    {
      var name := PopTranscript(language);
      effects := [];
      if name.Some? && name.value != [] {
        effects := [DeleteLibraryStaticAsset(LibraryAssetToDeleteAsWritten(name.value))];
        SaveTranscriptField();
      }
    }

    /** The course branch of a delete: for English every candidate subs id is
        removed from the store and sub is emptied; then the popped entry is
        removed from the store. */
    method DeleteFromCourse(language: string, html5Ids: seq<string>) returns (effects: seq<Effect>)
      modifies this`transcripts, this`sub
      ensures var name := Get(old(transcripts), language);
              && transcripts == old(transcripts) - {language}
              && (if language == "en" then
                    effects == RemoveEnglishSubs([old(sub), youtubeId] + html5Ids) + [RemoveSubsFromStore(name, language)]
                    && sub == []
                  else effects == [RemoveSubsFromStore(name, language)] && sub == old(sub))
    {
      effects := [];
      if language == "en" {
        effects := EnglishSubsRemovals([sub, youtubeId] + html5Ids);
      }
      var name := PopTranscript(language);
      effects := effects + [RemoveSubsFromStore(name, language)];
      if language == "en" {
        sub := [];
      }
    }
  }

  /** The loop of _studio_transcript_delete over the candidate subs ids: one
      English remove_subs_from_store per id, in order. */
  method EnglishSubsRemovals(ids: seq<string>) returns (effects: seq<Effect>)
    ensures effects == RemoveEnglishSubs(ids)
  {
    effects := [];
    var i := 0;
    while i < |ids|
      invariant 0 <= i <= |ids|
      invariant effects == RemoveEnglishSubs(ids[..i])
    {
      effects := effects + [RemoveSubsFromStore(Some(ids[i]), "en")];
      i := i + 1;
    }
    assert ids[..i] == ids;
  }
}
