/** Entities shared by the student and the studio handlers of a video block. */
module VideoTypes {

  /** The learning context a block lives in: usage_key.context_key (the same
      key as course_id). Only the two kinds the handlers test for are told
      apart. */
  datatype ContextKey = CourseLocator | LibraryLocatorV2 | OtherContext

  /** What get_transcript and its relatives return: content, file name and
      mime type. Their NotFoundError is None in an Option of this. */
  datatype TranscriptFile = TranscriptFile(content: string, filename: string, mimetype: string)

  /** get_transcripts_info(): the block's `sub` and its `transcripts` map from
      language code to file name. */
  datatype TranscriptsInfo = TranscriptsInfo(sub: string, transcripts: map<string, string>)

  /** The course returned by modulestore.get_course; a missing data_dir is
      the empty string, as getattr(course, 'data_dir', '') gives. */
  datatype Course = Course(staticAssetPath: string, dataDir: string)
}
