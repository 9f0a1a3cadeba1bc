/** The shared records of the pipeline: moments found by the analysis, the
    chunks a video is cut into, and the resumable session. */
module Types {
  /** One remembered line of a moment: start, end and the phrase itself. */
  datatype Dialogue = Dialogue(start: string, end: string, phrase: string)

  /** A moment found by the analysis; times are "HH:MM:SS" strings. */
  datatype Moment = Moment(
    startTime: string,
    endTime: string,
    category: string,
    description: string,
    dialogue: seq<Dialogue>)

  /** A chunk file of the source video and the second at which it starts. */
  datatype VideoChunk = VideoChunk(startSeconds: nat, filePath: string)

  /** What temp.json holds so that an interrupted run can resume. */
  datatype SessionState = SessionState(youtubeUrl: string, moments: seq<Moment>, tempDir: string)
}
