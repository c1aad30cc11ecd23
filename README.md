# Video block handlers

A Dafny model of the request handlers of the Open edX video block
(`xmodule/video_block/video_handlers.py`). It covers both groups of handlers:

- The student-view handlers:
  - `to_boolean`;
  - the `save_user_state` pass of `handle_ajax`;
  - `publish_completion`;
  - the `transcript` handler with its `translation`, `download` and
    `available_translations` dispatches;
  - the static-asset fallback `get_static_transcript`;
  - `make_transcript_http_response`.
- The Studio handlers:
  - `validate_transcript_upload_data`;
  - the routing of `studio_transcript`;
  - the upload, delete and GET of a transcript;
  - `_save_transcript_field`.

The model has three layers.

- **Values** (`py_model.dfy`, `strings.dfy`, `http.dfy`, `video_types.dfy`):
  - Python values, with their truthiness, `math.isnan`, ASCII decoding and
    `str.lower`;
  - the string operations the handlers use: `startswith`, `replace` with the
    empty string, `strip`, `join`;
  - a webob `Response` reduced to its status, header list and body.
- **Decisions as functions** (`student_handlers.dfy`, `studio_handlers.dfy`):
  - Each handler is a function from its inputs and the block's fields to the
    response, the new fields and the backend calls it makes, in order.
  - The lemmas beside them state what the handlers promise across calls.
- **The block** (`video_block.dfy`):
  - The class `VideoBlock` holds the fields the handlers assign in place.
  - Its methods follow the source step by step: the loop of
    `save_user_state` with its early return, the `pop` and item assignment on
    `transcripts`, the assignments to `sub` and `edx_video_id`, and the delete
    and rewrite of the `transcripts` field.
  - Each method is proved to leave the block and answer exactly as the
    corresponding function says.

Everything the handlers call outside this file is a parameter of the model:

- transcript storage and conversion;
- edxval;
- the content-library API;
- `json.loads`, `RelativeTime.isotime_to_timedelta` and `now()`;
- `clean_video_id` and `subs_filename`;
- the course lookup;
- the list of available translations.

A storage call that raises `NotFoundError` (or, in Studio, a conversion error)
is a `None` answer. A backend call that only has an effect is recorded as an
`Effect`.

The model does not collect the value-level handler decisions under a single
block record. The student-state fields (speed, global speed, transcript
language and download format, and the rest) form `UserState`. The Studio
fields (`transcripts`, `sub`, `edx_video_id`) form `StudioFields`. The class
`VideoBlock` holds both sets as its own fields.

## Model

| member | source | states |
|---|---|---|
| StudentHandlers.ToBoolean | xmodule/video_block/video_handlers.py:46-55 | A text value, or bytes decoded as ASCII with replacement, is true exactly when it is a case-insensitive spelling of "true". Any other value is its Python truthiness. |
| PyModel.Get | xmodule/video_block/video_handlers.py:369 | `dict.get(key)` (and the value `pop(key, None)` returns) is the entry exactly when the key is present, and None otherwise. |
| PyModel.IsNaN | xmodule/video_block/video_handlers.py:95 | `math.isnan` answers only for numbers that convert to a float: a non-number raises `TypeError`, and an int of magnitude at least 2^1024 - 2^970 raises `OverflowError`. When it answers, it is true only for a float NaN. |
| StudentHandlers.LastValueIsLast | xmodule/video_block/video_handlers.py:88-90 | For a posted key, `data[key]` is the value of an item with that key, and no later item has the key. |
| StudentHandlers.HandleAjaxResult | xmodule/video_block/video_handlers.py:84-110 | A dispatch other than `save_user_state` raises NotFoundError and changes no field. |
| StudentHandlers.SaveStepOutcome | xmodule/video_block/video_handlers.py:85-103 | One item: a key outside the accepted list is skipped; text keys never stop the loop. A step that stops writes nothing, and stops either with "Invalid speed value nan" for a speed that decodes to NaN or with the failed conversion of its own key, which is one that is converted. A saved speed is the decoded number, not NaN, and is copied into `global_speed`. |
| StudentHandlers.SaveRunOutcome | xmodule/video_block/video_handlers.py:85-105 | However the loop stops early, the outcome is the invalid-speed message or the failed conversion of a converted key. |
| StudentHandlers.SaveStepOverflowSpeed | xmodule/video_block/video_handlers.py:95 | An integer speed too large for a float makes `math.isnan` raise: the loop stops with that conversion failure and writes nothing. |
| StudentHandlers.SaveStepFrame | xmodule/video_block/video_handlers.py:86-103 | A key outside the accepted list changes nothing and does not stop the loop. An accepted key writes only its own field; `speed` also writes `global_speed`. |
| StudentHandlers.SaveWritesOnlyPostedKeys | xmodule/video_block/video_handlers.py:85-103 | However the pass ends, every field whose key was not posted keeps its value. |
| StudentHandlers.SaveIgnoresUnacceptedKeys | xmodule/video_block/video_handlers.py:85-105 | When no posted key is accepted, the state is unchanged and the answer is success. |
| StudentHandlers.SaveStopIsFinal | xmodule/video_block/video_handlers.py:95-98 | Once the loop has returned early, the items after it change nothing. |
| StudentHandlers.SaveCopiesSpeedToGlobal | xmodule/video_block/video_handlers.py:100-105 | After a successful pass that saw `speed`, `speed` is the decoded last posted speed, and `global_speed` equals `speed`. |
| StudentHandlers.SaveNaNSpeedStops | xmodule/video_block/video_handlers.py:95-98 | A speed that decodes to NaN ends the pass with "Invalid speed value nan, must be a float.". `speed` is not written, and what earlier items wrote stays written. |
| VideoBlocks.VideoBlock.SaveKey | xmodule/video_block/video_handlers.py:86-103 | One accepted key on the block's fields: the conversion, the NaN check, the write and the copy to `global_speed`, agreeing with one step of the pass. |
| VideoBlocks.VideoBlock.HandleAjax | xmodule/video_block/video_handlers.py:65-110 | The loop over the posted items leaves the fields and returns the outcome that `HandleAjaxResult` gives for the fields before the call. |
| StudentHandlers.CompletionStatus | xmodule/video_block/video_handlers.py:243-253 | The status is 500 exactly for a missing completion service, 404 exactly for disabled tracking, and 400 exactly for a value that is not a float or lies outside [0, 1]. |
| StudentHandlers.PublishCompletionStatus | xmodule/video_block/video_handlers.py:243-253 | For a rejected completion, the status is 500 exactly without a completion service, 404 exactly when tracking is disabled, and 400 exactly when tracking is on and the posted `completion` is missing a number in [0, 1]. |
| StudentHandlers.PublishCompletion | xmodule/video_block/video_handlers.py:231-255 | Checks in order: no service, then tracking disabled, then a missing key, then a non-number, then a value outside [0.0, 1.0]. Each outcome holds exactly under its condition. The event is published unchanged only when every check passes. |
| StudentHandlers.PublishedCompletionInRange | xmodule/video_block/video_handlers.py:249-255 | A published completion is a bool, an int in 0..1 or a finite float in [0.0, 1.0]. A NaN or an infinity never is. |
| Strings.Strip | xmodule/video_block/video_handlers.py:317 | `strip('/')` gives a slice of the string: only slashes are cut from either end, and neither end of the result is a slash. |
| Strings.StripIsSlice | xmodule/video_block/video_handlers.py:317 | Stripping from the left and then from the right leaves a slice of the string with only slashes cut off. |
| Strings.TrimLeft | xmodule/video_block/video_handlers.py:317 | The result is the longest suffix that does not start with a slash; everything cut off is a slash. |
| Strings.TrimRight | xmodule/video_block/video_handlers.py:317 | The result is the longest prefix that does not end with a slash; everything cut off is a slash. |
| Strings.RemoveAll | xmodule/video_block/video_handlers.py:317 | Its own contract is only that `replace(pattern, '')` never lengthens the string; what it removes is stated by `RemoveAllAbsent` and `RemoveAllLeading` below. |
| Strings.RemoveAllAbsent | xmodule/video_block/video_handlers.py:317 | `replace(pattern, '')` leaves a string without the pattern unchanged. |
| Strings.RemoveAllLeading | xmodule/video_block/video_handlers.py:317 | A leading occurrence of the pattern is removed and the scan resumes right after it. |
| StudentHandlers.ExtractLanguage | xmodule/video_block/video_handlers.py:317 | The language taken from a dispatch is no longer than the dispatch, and neither starts nor ends with a slash. |
| StudentHandlers.ExtractLanguageRoundTrip | xmodule/video_block/video_handlers.py:316-317 | `translation/<lang>` yields `<lang>` for every code that does not contain "translation" and neither starts nor ends with a slash. |
| StudentHandlers.TranslationCheck | xmodule/video_block/video_handlers.py:321-331 | 403 exactly without a user. 400 exactly with a user and an empty language. 404 exactly for a language that is neither `en` nor a key of `transcripts`. Otherwise it passes. |
| StudentHandlers.StaticTranscript | xmodule/video_block/video_handlers.py:184-228 | The answer is 307 or 404. It is 307 exactly for English, in a course, with a transcript name (`videoId` or `sub`) and an asset path (`static_asset_path` or `data_dir`). The Location is then `/static/<asset path>/<subs file name>`. |
| StudentHandlers.IsBumper | xmodule/video_block/video_handlers.py:313 | `request.GET.get('is_bumper', False)` is true exactly when the parameter is present and not empty. |
| StudentHandlers.MakeTranscriptResponse | xmodule/video_block/video_handlers.py:258-288 | Status 200, with the content as body. Content-Language and Content-Type carry the language and mime type. Content-Disposition is present exactly when the attachment header is asked for. |
| StudentHandlers.FetchTranslationSources | xmodule/video_block/video_handlers.py:336-350 | The bumper transcript comes from the content store and does not depend on the `videoId` parameter. Any other comes from `get_transcript` and does not depend on the content store. |
| StudentHandlers.AvailableTranslationsResponse | xmodule/video_block/video_handlers.py:382-392 | 200 with the JSON list exactly when some language is available; 404 otherwise. |
| StudentHandlers.TranscriptHandler | xmodule/video_block/video_handlers.py:291-397 | A translation dispatch runs the ordered checks. Once they pass, `transcript_language` becomes the language, and the answer is either the SJSON transcript inline in that language or the static fallback. `download` answers with the transcript as an attachment or 404. `available_translations` answers as above. Any other dispatch gets 404, and only a passing translation changes `transcript_language`. |
| VideoBlocks.VideoBlock.Transcript | xmodule/video_block/video_handlers.py:291-397 | The handler answers and updates `transcript_language` as `TranscriptHandler` says. |
| StudioHandlers.Absent | xmodule/video_block/video_handlers.py:452 | The missing attributes are exactly the must-have ones absent from the data, kept in their listed order. |
| StudioHandlers.UploadErrorMessageDistinct | xmodule/video_block/video_handlers.py:458-467 | The message tells the validation errors apart: equal messages come from errors of the same kind, and for an existing language from the same code. |
| StudioHandlers.ValidateUpload | xmodule/video_block/video_handlers.py:439-469 | Each error holds exactly under its condition, in order: missing parameters (non-empty, in order), then a rename onto an available language, then a missing file. Otherwise the result is None. |
| StudioHandlers.RouteStudio | xmodule/video_block/video_handlers.py:498-514 | A translation dispatch goes to upload on POST, to delete on DELETE and to GET on GET. Every other method or dispatch gets 404. |
| StudioHandlers.TranscriptFilename | xmodule/video_block/video_handlers.py:546-565 | Every recorded name ends with `-<language>.srt`. A library name is the static asset path under `static/`; a course name starts with the video id. |
| StudioHandlers.TranscriptFilenameInjective | xmodule/video_block/video_handlers.py:546-565 | For the same video, different languages get different file names. |
| StudioHandlers.LibraryAssetToDelete | xmodule/video_block/video_handlers.py:628-631 | The corrected asset path: under `static/`, and the recorded name itself when that name already is such a path. |
| StudioHandlers.LibraryUploadRecordsAssetPath | xmodule/video_block/video_handlers.py:563-590 | A valid upload to a library component adds one static asset, and records exactly that asset path for the new code. |
| StudioHandlers.LibraryAssetAsWrittenDoubled | xmodule/video_block/video_handlers.py:628-631 | For a name a library upload records, the path as written is `static/static/transcript-<code>.srt`, which differs from the name. |
| StudioHandlers.LibraryDeleteAsWrittenMissesUpload | xmodule/video_block/video_handlers.py:530-632 | As written, an upload to a library component followed by a delete of that language deletes `static/static/transcript-<code>.srt`, not the asset the upload added. |
| StudioHandlers.UploadThenDeleteRemovesLibraryAsset | xmodule/video_block/video_handlers.py:530-632 | With the corrected delete (`DeleteTranscriptIntended`), deleting the language an upload to a library component just added removes the very asset the upload added. |
| StudioHandlers.RenameEntry | xmodule/video_block/video_handlers.py:589-591 | The new code maps to the file name. The old code is gone when the codes differ. Every other entry is unchanged. |
| StudioHandlers.RenameEntrySize | xmodule/video_block/video_handlers.py:589-591 | Renaming an existing code to a free one keeps the number of transcripts; adding a new code adds one. |
| StudioHandlers.RenameEntryIdempotent | xmodule/video_block/video_handlers.py:589-591 | Repeating the same upload changes the map no further. |
| StudioHandlers.UploadTranscript | xmodule/video_block/video_handlers.py:530-605 | A failed validation gives 400 with its message and changes nothing. Otherwise a course video without an id gets an external one (first effect, kept even on a later failure). A course file that does not convert gives 400 and leaves `transcripts` alone. Otherwise the answer is 201 with the payload, and the map is renamed under the library or course file name. Libraries rewrite the field explicitly. |
| StudioHandlers.RemoveEnglishSubs | xmodule/video_block/video_handlers.py:636-641 | One English `remove_subs_from_store` per candidate subs id, in order. |
| StudioHandlers.DeleteTranscriptWith | xmodule/video_block/video_handlers.py:607-651 | Without `lang` or `edx_video_id` the answer is 400 and nothing changes. Otherwise the answer is 200 and the language's entry is gone while every other entry is kept. `sub` is emptied exactly for English in a course. The edxval delete comes first exactly when the cleaned id is non-empty. In a library the effects are that delete (if any) followed by one static-asset deletion exactly when a non-empty name was recorded, at the path the given function makes of that name. |
| StudioHandlers.DeleteTranscript | xmodule/video_block/video_handlers.py:607-651 | The handler as written: in a library, the last effect deletes the asset `static/<name>` for the recorded name. Its fields and response are those of `DeleteTranscriptIntended`; only that path differs. |
| StudioHandlers.DeleteTranscriptIntended | xmodule/video_block/video_handlers.py:622-632 | The corrected library delete of the Findings table: for a recorded name that already starts with `static/`, the last effect deletes that name itself. |
| StudioHandlers.UploadThenDeleteRestores | xmodule/video_block/video_handlers.py:530-651 | Adding a transcript for a new language and then deleting that language gives back the original transcripts. |
| StudioHandlers.DeleteTwiceSameAsOnce | xmodule/video_block/video_handlers.py:607-651 | Deleting a language a second time leaves the transcripts as the first delete did. |
| StudioHandlers.StudioTranscriptGet | xmodule/video_block/video_handlers.py:653-676 | Without a language code the answer is 400 "Language is required.". When no SRT transcript can be produced it is 404. Otherwise it is 200 with the content, and Content-Disposition, Content-Language and Content-Type headers. |
| VideoBlocks.VideoBlock.StudioTranscript | xmodule/video_block/video_handlers.py:472-514 | Each route updates the block and answers as its function says. GET and 404 change nothing. |
| VideoBlocks.VideoBlock.SaveTranscriptField | xmodule/video_block/video_handlers.py:516-528 | After the delete and rewrite, the field holds an explicit value exactly when the map is not empty. |
| VideoBlocks.VideoBlock.PopTranscript | xmodule/video_block/video_handlers.py:590 | `pop` returns the old entry and removes exactly that key. |
| VideoBlocks.VideoBlock.StudioTranscriptUpload | xmodule/video_block/video_handlers.py:530-605 | The in-place upload leaves the fields, response and effects that `UploadTranscript` gives. |
| VideoBlocks.VideoBlock.UploadToLibrary | xmodule/video_block/video_handlers.py:546-595 | The library branch of a valid upload agrees with `UploadTranscript`. |
| VideoBlocks.VideoBlock.UploadToCourse | xmodule/video_block/video_handlers.py:546-605 | The course branch of a valid upload, including the external video id and the conversion failure, agrees with `UploadTranscript`. |
| VideoBlocks.VideoBlock.StudioTranscriptDelete | xmodule/video_block/video_handlers.py:607-651 | The in-place delete, with its loop over the candidate subs ids, leaves the fields, response and effects that `DeleteTranscript` gives. |
| VideoBlocks.VideoBlock.DeleteFromLibrary | xmodule/video_block/video_handlers.py:622-632 | In a library, the entry is popped. When it named a file, the static asset `static/<name>` is deleted and the field is rewritten. Otherwise there is no effect and the field is left as it was. |
| VideoBlocks.VideoBlock.DeleteFromCourse | xmodule/video_block/video_handlers.py:633-649 | In a course, English first removes the subs of `sub`, the YouTube id and every HTML5 id, then the popped entry, and empties `sub`. Any other language removes only the popped entry and keeps `sub`. |
| VideoBlocks.EnglishSubsRemovals | xmodule/video_block/video_handlers.py:640-641 | The loop over the candidate subs ids makes one English `remove_subs_from_store` per id, in order. |

## Left out

- `lms/djangoapps/course_home_api/tasks.py` and its tests are not part of this model. They are a Celery task over database lookups and tracker events, with one floating-point ratio.
- `openedx/core/djangoapps/cors_csrf/decorators.py` is not part of this model. It only delegates to Django's CSRF cookie decorator.
- `student_view_user_state` and `yt_video_metadata` are not modelled. They serialise timedeltas and floats and call the YouTube API over the network.
- `translation` (lines 112-182) is not modelled. The modelled handlers never call it, and it belongs with transcript fetching.
- `get_transcript`, `get_transcript_from_contentstore`, `Transcript.convert`, `available_translations`, `get_transcripts_info`, `subs_filename`, `get_html5_ids`, `clean_video_id` and `create_external_video` are parameters of the model, and their code is not part of this model; a `NotFoundError` or conversion error is a `None` answer.
- `json.loads`, `RelativeTime.isotime_to_timedelta` and `now()` are parameters of the model (a parser and the clock). An exception they raise, or a `TypeError` (non-number) or `OverflowError` (an int too large for a float) from `math.isnan`, is the outcome `ConversionFailed` with the fields written so far kept.
- The `bumper_last_view_date` value is `now()`. The `to_boolean` call that precedes it has no effect and is not modelled.
- Logging, the i18n `ugettext` translation of messages (taken as the identity), and `runtime.service` lookups other than completion are not modelled.
- `PublishCompletion`: the error carries the offending value instead of the formatted message text, because Python's `str.format` of a float is not modelled.
- A webob `Response` is reduced to status, header list and body. Default headers, the `utf8` charset and the JSON encoding of bodies are not modelled; `Content-Type` is appended after the given headers, as `response.content_type` does.
- `Lower` folds only ASCII letters. No other character lower-cases to one of the letters of "true", so the `to_boolean` comparison is exact.
- `is_bumper` is used as a truth value: the query parameter is present and non-empty.
- `Transcript.SJSON` is taken to be the string "sjson".
- The course of the block is always found. `get_course` returning `None` is not modelled.
- Exceptions raised by the library API, edxval or `remove_subs_from_store` are not modelled; those calls are recorded as effects that succeed.
- The request body of a DELETE is taken as already parsed (`request.json`). A body that is not JSON is not modelled.
- The uploaded file is taken as text. Reading the file object and the UTF-8 decoding belong to the conversion parameter.
- The `XBlock.handler` and `XBlock.json_handler` decorators are not modelled; `JsonHandlerError` is the `Rejected` outcome.
- `handle_ajax` iterates over the posted keys in order, and `data[key]` is the last value posted for that key, as a webob MultiDict gives it.

## Findings

| source | as written | input that shows it | evidently intended | confidence | as-written member | corrected member |
|---|---|---|---|---|---|---|
| xmodule/video_block/video_handlers.py:565-631 | The upload to a library component records `static/transcript-<code>.srt` in `transcripts` and adds that asset. The delete then asks the library API to remove `static/` followed by the recorded name, i.e. `static/static/transcript-<code>.srt`. | Upload a transcript for code `fr` to a library component, then delete `fr`. | The delete removes the asset the upload added, `static/transcript-fr.srt`. | medium, not executed; the library API is not part of this model | StudioHandlers.LibraryDeleteAsWrittenMissesUpload | StudioHandlers.UploadThenDeleteRemovesLibraryAsset |
