/** The decisions of the Studio transcript handlers of a video block, written
    as functions of their inputs: validate_transcript_upload_data, the routing
    of studio_transcript, the outcome of an upload and of a delete on the
    block's transcript fields, and the GET responses. The class VideoBlock
    (module VideoBlocks) performs the uploads and deletes in place. */
module StudioHandlers {
  import opened PyModel
  import opened Strings
  import opened Http
  import opened VideoTypes

  // ---------------------------------------------------------------------
  // validate_transcript_upload_data

  /** The attributes an upload must carry, in the order they are reported. */
  const MustHaveAttrs: seq<string> := ["edx_video_id", "language_code", "new_language_code"]

  /** a occurs in b with its elements in the same order. */
  predicate Subsequence(a: seq<string>, b: seq<string>)
    decreases |b|
  {
    a == [] || (b != [] && (if a[0] == b[0] then Subsequence(a[1..], b[1..]) else Subsequence(a, b[1..])))
  }

  /** [attr for attr in attrs if attr not in data]. */
  function Absent(attrs: seq<string>, data: map<string, string>): (missing: seq<string>)
    ensures forall a :: a in missing <==> a in attrs && a !in data
    ensures Subsequence(missing, attrs)
  {
    if attrs == [] then []
    else if attrs[0] in data then Absent(attrs[1..], data)
    else [attrs[0]] + Absent(attrs[1..], data)
  }

  datatype UploadError =
    | MissingParameters(names: seq<string>)
    | LanguageExists(code: string)
    | FileRequired

  /** The (untranslated) message of each validation error. */
  function UploadErrorMessage(e: UploadError): string {
    match e
    case MissingParameters(names) => "The following parameters are required: " + Join(names, ", ") + "."
    case LanguageExists(code) => "A transcript with the \"" + code + "\" language code already exists."
    case FileRequired => "A transcript file is required."
  }

  /** The message tells the errors apart: equal messages come from errors of
      the same kind, and for an existing language from the same code. */
  lemma UploadErrorMessageDistinct(a: UploadError, b: UploadError)
    requires UploadErrorMessage(a) == UploadErrorMessage(b)
    ensures a.MissingParameters? <==> b.MissingParameters?
    ensures a.LanguageExists? <==> b.LanguageExists?
    ensures a.LanguageExists? ==> a == b
    ensures a.FileRequired? <==> b.FileRequired?
  {
    var m := UploadErrorMessage(a);
    assert m == UploadErrorMessage(b);
    assert a.MissingParameters? <==> m[0] == 'T';
    assert b.MissingParameters? <==> m[0] == 'T';
    if !a.MissingParameters? && !b.MissingParameters? {
      assert a.LanguageExists? <==> m[13] == 'w';
      assert b.LanguageExists? <==> m[13] == 'w';
      if a.LanguageExists? && b.LanguageExists? {
        var prefix := "A transcript with the \"";
        assert |a.code| == |b.code|;
        assert a.code == m[|prefix|..|prefix| + |a.code|] == b.code;
      }
    }
  }

  /** All three must-have attributes are present. */
  predicate HasRequiredAttrs(data: map<string, string>) {
    "edx_video_id" in data && "language_code" in data && "new_language_code" in data
  }

  /** The upload renames to a code that already has a transcript. */
  predicate RenamesOntoExisting(data: map<string, string>, available: seq<string>)
    requires HasRequiredAttrs(data)
  {
    data["language_code"] != data["new_language_code"] && data["new_language_code"] in available
  }

  /** validate_transcript_upload_data: first the missing attributes (in the
      order edx_video_id, language_code, new_language_code), then a rename onto
      an available language, then a missing file; None when the upload may go
      ahead. */
  function ValidateUpload(data: map<string, string>, available: seq<string>): (r: Option<UploadError>)
    ensures r.Some? && r.value.MissingParameters? <==> !HasRequiredAttrs(data)
    ensures r.Some? && r.value.MissingParameters? ==>
              (forall a :: a in r.value.names <==> a in MustHaveAttrs && a !in data)
              && Subsequence(r.value.names, MustHaveAttrs) && r.value.names != []
    ensures r.Some? && r.value.LanguageExists? <==>
              HasRequiredAttrs(data) && RenamesOntoExisting(data, available)
    ensures r.Some? && r.value.LanguageExists? ==> r.value.code == data["new_language_code"]
    ensures r == Some(FileRequired) <==>
              HasRequiredAttrs(data) && !RenamesOntoExisting(data, available) && "file" !in data
    ensures r.None? <==>
              HasRequiredAttrs(data) && !RenamesOntoExisting(data, available) && "file" in data
  {
    var missing := Absent(MustHaveAttrs, data);
    if missing != [] then Some(MissingParameters(missing))
    else
      assert HasRequiredAttrs(data) by {
        assert MustHaveAttrs[0] in MustHaveAttrs && MustHaveAttrs[1] in MustHaveAttrs && MustHaveAttrs[2] in MustHaveAttrs;
      }
      if RenamesOntoExisting(data, available) then Some(LanguageExists(data["new_language_code"]))
      else if "file" !in data then Some(FileRequired)
      else None
  }

  // ---------------------------------------------------------------------
  // studio_transcript routing

  datatype StudioAction = Upload | Delete | Fetch | NotAllowed

  /** studio_transcript: a translation dispatch goes to upload on POST, delete
      on DELETE and fetch on GET; every other method or dispatch gets 404. */
  function RouteStudio(dispatch: string, httpMethod: string): (a: StudioAction)
    ensures a == Upload <==> StartsWith(dispatch, "translation") && httpMethod == "POST"
    ensures a == Delete <==> StartsWith(dispatch, "translation") && httpMethod == "DELETE"
    ensures a == Fetch <==> StartsWith(dispatch, "translation") && httpMethod == "GET"
    ensures a == NotAllowed <==> !StartsWith(dispatch, "translation") || httpMethod !in {"POST", "DELETE", "GET"}
  {
    if StartsWith(dispatch, "translation") then
      if httpMethod == "POST" then Upload
      else if httpMethod == "DELETE" then Delete
      else if httpMethod == "GET" then Fetch
      else NotAllowed
    else NotAllowed
  }

  // ---------------------------------------------------------------------
  // Upload and delete

  /** The block fields the Studio handlers change. `explicit` says whether the
      transcripts field holds a value written to the block's field data (a
      field delete clears it, a field write sets it). */
  datatype StudioFields = StudioFields(
    transcripts: map<string, string>,
    sub: string,
    edxVideoId: string,
    explicit: bool)

  /** The backend calls an upload or delete makes, in order. */
  datatype Effect =
    | CreateExternalVideo(videoId: string)
    | AddLibraryStaticAsset(path: string, content: string)
    | CreateOrUpdateVideoTranscript(videoId: string, languageCode: string, newLanguageCode: string, sjson: string)
    | DeleteVideoTranscript(videoId: string, languageCode: string)
    | DeleteLibraryStaticAsset(path: string)
    | RemoveSubsFromStore(subsId: Option<string>, language: string)

  /** What the Studio handlers ask of code outside this model:
      clean_video_id, the id create_external_video hands out, the SRT to SJSON
      conversion of an uploaded file (None for UnicodeDecodeError or
      TranscriptsGenerationException), get_html5_ids of the block's sources,
      the available translations, and get_transcript in SRT (None for the
      errors the GET handler catches). */
  datatype StudioBackend = StudioBackend(
    cleanVideoId: string -> string,
    externalVideoId: string,
    srtToSjson: string -> Option<string>,
    html5Ids: seq<string>,
    availableTranslations: seq<string>,
    fetchSrt: string -> Option<TranscriptFile>)

  datatype HandlerResult = HandlerResult(fields: StudioFields, response: Response, effects: seq<Effect>)

  const FileProblemMessage: string :=
    "There is a problem with this transcript file. Try to upload a different file."

  /** The directory of a library component's static assets. */
  const StaticPrefix: string := "static/"

  /** The name under which an uploaded transcript is recorded: the path of the
      static asset added to the library component, or <video id>-<language>.srt
      in a course. Either way it names the language at its end. */
  function TranscriptFilename(isLibrary: bool, videoId: string, language: string): (name: string)
    ensures EndsWith(name, "-" + language + ".srt")
    ensures isLibrary ==> StartsWith(name, StaticPrefix)
    ensures !isLibrary ==> StartsWith(name, videoId)
  {
    var suffix := "-" + language + ".srt";
    if isLibrary then
      var name := StaticPrefix + "transcript" + suffix;
      assert name[|name| - |suffix|..] == suffix;
      name
    else
      var name := videoId + suffix;
      assert name[|name| - |suffix|..] == suffix;
      name
  }

  /** Different languages get different file names for the same video. */
  lemma TranscriptFilenameInjective(isLibrary: bool, videoId: string, a: string, b: string)
    requires TranscriptFilename(isLibrary, videoId, a) == TranscriptFilename(isLibrary, videoId, b)
    ensures a == b
  {
    var na := TranscriptFilename(isLibrary, videoId, a);
    var nb := TranscriptFilename(isLibrary, videoId, b);
    var sa, sb := "-" + a + ".srt", "-" + b + ".srt";
    var p := if isLibrary then StaticPrefix + "transcript" else videoId;
    assert na == p + sa && nb == p + sb;
    assert sa == na[|p|..] == sb;
    assert a == sa[1..|sa| - 4] && b == sb[1..|sb| - 4];
  }

  /** transcripts.pop(old) when the codes differ, then transcripts[new] = filename. */
  function RenameEntry(m: map<string, string>, oldCode: string, newCode: string, filename: string)
    : (r: map<string, string>)
    ensures newCode in r && r[newCode] == filename
    ensures oldCode != newCode ==> oldCode !in r
    ensures forall k :: k != oldCode && k != newCode ==> (k in r <==> k in m) && (k in m ==> r[k] == m[k])
  {
    (if oldCode != newCode then m - {oldCode} else m)[newCode := filename]
  }

  /** A rename of an existing code to a free one keeps the number of
      transcripts; adding a new code grows it by one. */
  lemma RenameEntrySize(m: map<string, string>, oldCode: string, newCode: string, filename: string)
    requires newCode !in m
    ensures oldCode != newCode && oldCode in m ==> |RenameEntry(m, oldCode, newCode, filename)| == |m|
    ensures oldCode == newCode ==> |RenameEntry(m, oldCode, newCode, filename)| == |m| + 1
  {
  }

  /** Repeating the same upload changes nothing more. */
  lemma RenameEntryIdempotent(m: map<string, string>, oldCode: string, newCode: string, filename: string)
    ensures RenameEntry(RenameEntry(m, oldCode, newCode, filename), oldCode, newCode, filename)
         == RenameEntry(m, oldCode, newCode, filename)
  {
  }

  /** The JSON payload of a successful upload. */
  function UploadPayload(videoId: string, language: string): Body {
    JsonObject([("edx_video_id", videoId), ("language_code", language)])
  }

  /** _studio_transcript_upload on fields f. A failed validation answers 400
      with its message and changes nothing. Otherwise a course video without
      an id first gets an external one (kept even if the file then fails to
      convert); an unconvertible file in a course answers 400 and leaves the
      transcripts alone; in every other case the old code's entry moves to the
      new code under the library or course file name and the answer is 201. */
  function UploadTranscript(f: StudioFields, post: map<string, string>, context: ContextKey, backend: StudioBackend)
    : (r: HandlerResult)
    ensures ValidateUpload(post, backend.availableTranslations).Some? ==>
              r == HandlerResult(f, JsonError(400, UploadErrorMessage(ValidateUpload(post, backend.availableTranslations).value)), [])
    ensures ValidateUpload(post, backend.availableTranslations).None? ==>
              var id := backend.cleanVideoId(post["edx_video_id"]);
              var created := !context.LibraryLocatorV2? && id == [];
              var videoId := if created then backend.externalVideoId else id;
              var filename := TranscriptFilename(context.LibraryLocatorV2?, videoId, post["new_language_code"]);
              && r.fields.sub == f.sub
              && r.fields.edxVideoId == (if created then backend.externalVideoId else f.edxVideoId)
              && (r.response.status == 201 <==> context.LibraryLocatorV2? || backend.srtToSjson(post["file"]).Some?)
              && (r.response.status == 201 ==>
                    && r.response.body == UploadPayload(videoId, post["new_language_code"])
                    && r.fields.transcripts
                       == RenameEntry(f.transcripts, post["language_code"], post["new_language_code"], filename))
              && (r.response.status != 201 ==>
                    r.response == JsonError(400, FileProblemMessage) && r.fields.transcripts == f.transcripts)
              && (r.fields.explicit == if context.LibraryLocatorV2? then true else f.explicit)
              && (created <==> |r.effects| > 0 && r.effects[0] == CreateExternalVideo(backend.externalVideoId))
  {
    match ValidateUpload(post, backend.availableTranslations)
    case Some(e) => HandlerResult(f, JsonError(400, UploadErrorMessage(e)), [])
    case None =>
      var id := backend.cleanVideoId(post["edx_video_id"]);
      var oldCode, newCode, content := post["language_code"], post["new_language_code"], post["file"];
      var isLibrary := context.LibraryLocatorV2?;
      var created := !isLibrary && id == [];
      var videoId := if created then backend.externalVideoId else id;
      var f1 := if created then f.(edxVideoId := videoId) else f;
      var e1 := if created then [CreateExternalVideo(videoId)] else [];
      var filename := TranscriptFilename(isLibrary, videoId, newCode);
      var ok := Response(201, [], UploadPayload(videoId, newCode));
      if isLibrary then
        HandlerResult(
          f1.(transcripts := RenameEntry(f.transcripts, oldCode, newCode, filename), explicit := true),
          ok, e1 + [AddLibraryStaticAsset(filename, content)])
      else
        match backend.srtToSjson(content)
        case None => HandlerResult(f1, JsonError(400, FileProblemMessage), e1)
        case Some(sjson) =>
          HandlerResult(
            f1.(transcripts := RenameEntry(f.transcripts, oldCode, newCode, filename)),
            ok, e1 + [CreateOrUpdateVideoTranscript(videoId, oldCode, newCode, sjson)])
  }

  /** The asset path the library branch of _studio_transcript_delete hands to
      delete_library_block_static_asset_file, as written: "static/" in front of
      the recorded name, which an upload through this block already recorded
      with that prefix. */
  function LibraryAssetToDeleteAsWritten(name: string): string {
    StaticPrefix + name
  }

  /** The asset path a delete means to remove: the recorded name itself when
      it already is a static asset path, otherwise that name under static/. */
  function LibraryAssetToDelete(name: string): (path: string)
    ensures StartsWith(path, StaticPrefix)
    ensures StartsWith(name, StaticPrefix) ==> path == name
    ensures !StartsWith(name, StaticPrefix) ==> path == LibraryAssetToDeleteAsWritten(name)
  {
    if StartsWith(name, StaticPrefix) then name else StaticPrefix + name
  }

  /** remove_subs_from_store for each candidate subs id, in English. */
  function RemoveEnglishSubs(ids: seq<string>): (effects: seq<Effect>)
    ensures |effects| == |ids|
    ensures forall i :: 0 <= i < |ids| ==> effects[i] == RemoveSubsFromStore(Some(ids[i]), "en")
  {
    seq(|ids|, i requires 0 <= i < |ids| => RemoveSubsFromStore(Some(ids[i]), "en"))
  }

  /** _studio_transcript_delete on fields f, with the library asset to delete
      given as a function of the popped name. Without `lang` or
      `edx_video_id` it answers 400 and changes nothing; otherwise it answers
      200, the language's entry is gone and every other entry is kept, and
      `sub` is emptied exactly when an English transcript of a course video is
      deleted. In a library, the edxval delete is followed by the deletion of
      assetPath(name) exactly when a non-empty name was recorded. */
  function DeleteTranscriptWith(f: StudioFields, body: map<string, string>, context: ContextKey, youtubeId: string,
                                backend: StudioBackend, assetPath: string -> string): (r: HandlerResult)
    ensures "lang" !in body || "edx_video_id" !in body ==> r == HandlerResult(f, StatusOnly(400), [])
    ensures "lang" in body && "edx_video_id" in body ==>
              var language := body["lang"];
              var id := backend.cleanVideoId(body["edx_video_id"]);
              var e1 := if id != [] then [DeleteVideoTranscript(id, language)] else [];
              && r.response == StatusOnly(200)
              && language !in r.fields.transcripts
              && (forall k :: k != language ==>
                    (k in r.fields.transcripts <==> k in f.transcripts)
                    && (k in f.transcripts ==> r.fields.transcripts[k] == f.transcripts[k]))
              && r.fields.edxVideoId == f.edxVideoId
              && r.fields.sub == (if !context.LibraryLocatorV2? && language == "en" then [] else f.sub)
              && (id != [] <==> |r.effects| > 0 && r.effects[0] == DeleteVideoTranscript(id, language))
              && (context.LibraryLocatorV2? ==>
                    r.effects == e1 + if language in f.transcripts && f.transcripts[language] != []
                                      then [DeleteLibraryStaticAsset(assetPath(f.transcripts[language]))]
                                      else [])
  {
    if "lang" !in body || "edx_video_id" !in body then HandlerResult(f, StatusOnly(400), [])
    else
      var language := body["lang"];
      var id := backend.cleanVideoId(body["edx_video_id"]);
      var e1 := if id != [] then [DeleteVideoTranscript(id, language)] else [];
      var popped := Get(f.transcripts, language);
      var remaining := f.transcripts - {language};
      if context.LibraryLocatorV2? then
        if popped.Some? && popped.value != [] then
          HandlerResult(f.(transcripts := remaining, explicit := remaining != map[]), StatusOnly(200),
                        e1 + [DeleteLibraryStaticAsset(assetPath(popped.value))])
        else
          HandlerResult(f.(transcripts := remaining), StatusOnly(200), e1)
      else if language == "en" then
        HandlerResult(f.(transcripts := remaining, sub := []), StatusOnly(200),
                      e1 + RemoveEnglishSubs([f.sub, youtubeId] + backend.html5Ids) + [RemoveSubsFromStore(popped, "en")])
      else
        HandlerResult(f.(transcripts := remaining), StatusOnly(200), e1 + [RemoveSubsFromStore(popped, language)])
  }

  /** _studio_transcript_delete as written: in a library, the asset deleted is
      "static/" followed by the recorded name. */
  function DeleteTranscript(f: StudioFields, body: map<string, string>, context: ContextKey, youtubeId: string,
                            backend: StudioBackend): (r: HandlerResult)
    ensures context.LibraryLocatorV2? && "lang" in body && "edx_video_id" in body
            && body["lang"] in f.transcripts && f.transcripts[body["lang"]] != [] ==>
              |r.effects| > 0 && r.effects[|r.effects| - 1] == DeleteLibraryStaticAsset("static/" + f.transcripts[body["lang"]])
    ensures var i := DeleteTranscriptIntended(f, body, context, youtubeId, backend);
            r.fields == i.fields && r.response == i.response
  {
    DeleteTranscriptWith(f, body, context, youtubeId, backend, LibraryAssetToDeleteAsWritten)
  }

  /** _studio_transcript_delete as evidently intended: in a library, the asset
      deleted is the recorded name when that already is a static asset path. */
  function DeleteTranscriptIntended(f: StudioFields, body: map<string, string>, context: ContextKey,
                                    youtubeId: string, backend: StudioBackend): (r: HandlerResult)
    ensures context.LibraryLocatorV2? && "lang" in body && "edx_video_id" in body
            && body["lang"] in f.transcripts && StartsWith(f.transcripts[body["lang"]], StaticPrefix) ==>
              |r.effects| > 0 && r.effects[|r.effects| - 1] == DeleteLibraryStaticAsset(f.transcripts[body["lang"]])
  {
    DeleteTranscriptWith(f, body, context, youtubeId, backend, LibraryAssetToDelete)
  }

  /** Adding a transcript for a language that had none and then deleting that
      language gives back the transcripts the block started with. */
  lemma UploadThenDeleteRestores(f: StudioFields, post: map<string, string>, body: map<string, string>,
                                 context: ContextKey, youtubeId: string, backend: StudioBackend)
    requires ValidateUpload(post, backend.availableTranslations).None?
    requires post["language_code"] == post["new_language_code"]
    requires post["new_language_code"] !in f.transcripts
    requires UploadTranscript(f, post, context, backend).response.status == 201
    requires "lang" in body && "edx_video_id" in body && body["lang"] == post["new_language_code"]
    ensures DeleteTranscript(UploadTranscript(f, post, context, backend).fields, body, context, youtubeId, backend)
              .fields.transcripts == f.transcripts
  {
  }

  /** A valid upload to a library component adds one static asset, and the
      transcripts map records exactly that asset path for the new code. */
  lemma LibraryUploadRecordsAssetPath(f: StudioFields, post: map<string, string>, context: ContextKey,
                                      backend: StudioBackend)
    requires context.LibraryLocatorV2? && ValidateUpload(post, backend.availableTranslations).None?
    ensures var r := UploadTranscript(f, post, context, backend);
            r.effects == [AddLibraryStaticAsset(r.fields.transcripts[post["new_language_code"]], post["file"])]
  {
  }

  /** The path as written puts a second static/ in front of a name recorded
      by a library upload. */
  lemma LibraryAssetAsWrittenDoubled(videoId: string, code: string)
    ensures var name := TranscriptFilename(true, videoId, code);
            && LibraryAssetToDeleteAsWritten(name) == "static/static/transcript-" + code + ".srt"
            && LibraryAssetToDeleteAsWritten(name) != name
  {
    var name := TranscriptFilename(true, videoId, code);
    assert |LibraryAssetToDeleteAsWritten(name)| == |name| + |StaticPrefix|;
  }

  /** As written, deleting the language an upload to a library component just
      added asks for static/static/transcript-<code>.srt, which is not the
      asset the upload added. */
  lemma LibraryDeleteAsWrittenMissesUpload(f: StudioFields, post: map<string, string>, body: map<string, string>,
                                           context: ContextKey, youtubeId: string, backend: StudioBackend)
    requires context.LibraryLocatorV2? && ValidateUpload(post, backend.availableTranslations).None?
    requires "lang" in body && "edx_video_id" in body && body["lang"] == post["new_language_code"]
    ensures var up := UploadTranscript(f, post, context, backend);
            var del := DeleteTranscript(up.fields, body, context, youtubeId, backend);
            && |up.effects| == 1 && up.effects[0].AddLibraryStaticAsset?
            && |del.effects| > 0
            && del.effects[|del.effects| - 1]
               == DeleteLibraryStaticAsset("static/static/transcript-" + post["new_language_code"] + ".srt")
            && del.effects[|del.effects| - 1] != DeleteLibraryStaticAsset(up.effects[0].path)
  {
    var code := post["new_language_code"];
    var up := UploadTranscript(f, post, context, backend);
    LibraryUploadRecordsAssetPath(f, post, context, backend);
    var name := up.fields.transcripts[code];
    assert name == TranscriptFilename(true, backend.cleanVideoId(post["edx_video_id"]), code);
    LibraryAssetAsWrittenDoubled(backend.cleanVideoId(post["edx_video_id"]), code);
  }

  /** As intended, deleting the language an upload to a library component
      just added removes the very asset the upload added. */
  lemma UploadThenDeleteRemovesLibraryAsset(f: StudioFields, post: map<string, string>, body: map<string, string>,
                                            context: ContextKey, youtubeId: string, backend: StudioBackend)
    requires context.LibraryLocatorV2? && ValidateUpload(post, backend.availableTranslations).None?
    requires "lang" in body && "edx_video_id" in body && body["lang"] == post["new_language_code"]
    ensures var up := UploadTranscript(f, post, context, backend);
            var del := DeleteTranscriptIntended(up.fields, body, context, youtubeId, backend);
            && |up.effects| == 1 && up.effects[0].AddLibraryStaticAsset?
            && |del.effects| > 0 && del.effects[|del.effects| - 1] == DeleteLibraryStaticAsset(up.effects[0].path)
  {
    var up := UploadTranscript(f, post, context, backend);
    LibraryUploadRecordsAssetPath(f, post, context, backend);
    var name := up.fields.transcripts[post["new_language_code"]];
    assert StartsWith(name, StaticPrefix);
  }

  /** Deleting a language twice leaves the same transcripts as deleting it once. */
  lemma DeleteTwiceSameAsOnce(f: StudioFields, body: map<string, string>, context: ContextKey, youtubeId: string,
                              backend: StudioBackend)
    ensures var once := DeleteTranscript(f, body, context, youtubeId, backend).fields;
            DeleteTranscript(once, body, context, youtubeId, backend).fields.transcripts == once.transcripts
  {
  }

  // ---------------------------------------------------------------------
  // _studio_transcript_get

  /** _studio_transcript_get: 400 with "Language is required." without a
      language code, 404 when no SRT transcript can be produced, otherwise the
      transcript as an attachment with its language and mime type. */
  function StudioTranscriptGet(query: map<string, string>, fetchSrt: string -> Option<TranscriptFile>)
    : (r: Response)
    ensures !("language_code" in query && query["language_code"] != []) <==>
              r == JsonError(400, "Language is required.")
    ensures "language_code" in query && query["language_code"] != [] ==>
              var language := query["language_code"];
              match fetchSrt(language)
              case None => r == StatusOnly(404)
              case Some(t) =>
                && r.status == 200 && r.body == Text(t.content)
                && HeaderValue(r.headers, "Content-Disposition") == Some(Attachment(t.filename))
                && HeaderValue(r.headers, "Content-Language") == Some(language)
                && HeaderValue(r.headers, "Content-Type") == Some(t.mimetype)
  {
    if "language_code" !in query || query["language_code"] == [] then JsonError(400, "Language is required.")
    else
      var language := query["language_code"];
      match fetchSrt(language)
      case None => StatusOnly(404)
      case Some(t) =>
        var headers := [("Content-Disposition", Attachment(t.filename)),
                        ("Content-Language", language),
                        ("Content-Type", t.mimetype)];
        assert headers[1..][1..] == [("Content-Type", t.mimetype)];
        assert HeaderValue(headers[1..][1..], "Content-Type") == Some(t.mimetype);
        assert HeaderValue(headers[1..], "Content-Type") == Some(t.mimetype);
        Response(200, headers, Text(t.content))
  }
}
