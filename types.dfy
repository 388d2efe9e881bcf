/** The records shared by the store, the components and the API client
    (src/types/index.ts), with timestamps abstracted to numbers. */
module Types {

  /** A point in time. The source keeps ISO-8601 strings and `Date` objects; the model
      keeps a number (milliseconds), which is all the logic compares or subtracts. */
  type Stamp = int

  datatype Option<+T> = None | Some(value: T) {
    function GetOr(default: T): T {
      match this
      case Some(v) => v
      case None => default
    }
  }

  /** The outcome of an awaited remote call: the decoded reply, or an exception
      (network failure, non-OK HTTP status, malformed JSON). */
  datatype Reply<+T> = Returned(value: T) | Threw

  /** JavaScript's `value || fallback` on an optional string: `undefined` and `''`
      both give the fallback. */
  function OrElse(value: Option<string>, fallback: string): (r: string)
    ensures value.Some? && value.value != "" ==> r == value.value
    ensures value.None? || value.value == "" ==> r == fallback
  {
    if value.Some? && value.value != "" then value.value else fallback
  }

  /** `Math.abs`. */
  function Abs(x: real): (r: real)
    ensures r >= 0.0 && (r == x || r == -x)
  {
    if x < 0.0 then -x else x
  }

  /** `Math.round`: the nearest integer, halves rounded up. */
  function JsRound(x: real): (n: int)
    ensures x - 0.5 < n as real <= x + 0.5
  {
    (x + 0.5).Floor
  }

  /** A vibe score, documented to lie in [-1, 1], with its explanation. */
  datatype VibeAnalysis = VibeAnalysis(score: real, reason: string, error: Option<string>)

  datatype SentenceVibe = SentenceVibe(
    text: string, score: real, delta: real, startPos: int, endPos: int, reason: Option<string>)

  datatype VibeProgressionResult = VibeProgressionResult(
    overall: VibeAnalysis, sentences: seq<SentenceVibe>, error: Option<string>)

  datatype VersionInfo = VersionInfo(id: string, timestamp: Stamp, title: string)

  datatype RestoredFrom = RestoredFrom(versionId: string, timestamp: Stamp, restoredAt: Stamp)

  datatype VibeRecord = VibeRecord(timestamp: Stamp, score: real, reason: Option<string>)

  datatype DraftMetadata = DraftMetadata(
    title: string,
    createdAt: Stamp,
    updatedAt: Stamp,
    lastVibe: Option<real>,
    vibeHistory: Option<seq<VibeRecord>>,
    versions: Option<seq<VersionInfo>>,
    restoredFrom: Option<RestoredFrom>)

  /** A listed draft: its metadata plus its id. */
  datatype DraftSummary = DraftSummary(id: string, metadata: DraftMetadata)

  // Every result record carries a success flag, an optional payload and an optional error.
  datatype SaveResult = SaveResult(success: bool, id: Option<string>, error: Option<string>)
  datatype LoadResult = LoadResult(
    success: bool, content: Option<string>, metadata: Option<DraftMetadata>, error: Option<string>)
  datatype ListDraftsResult = ListDraftsResult(
    success: bool, drafts: Option<seq<DraftSummary>>, error: Option<string>)
  datatype ExportResult = ExportResult(success: bool, path: Option<string>, error: Option<string>)
  datatype VersionsResult = VersionsResult(
    success: bool, versions: Option<seq<VersionInfo>>, error: Option<string>)
  datatype DeleteResult = DeleteResult(success: bool, error: Option<string>)

  /** The two writing modes; there is no third (focus) mode. */
  datatype WritingMode = Writer | Vibe

  datatype FocusSettings = FocusSettings(
    enabled: bool, typewriterMode: bool, hideUI: bool, ambientMode: bool, lineHighlight: bool)

  datatype ProgressPoint = ProgressPoint(time: Stamp, score: real)

  /** `wordCount` is the number of words written during the session, `initialWordCount`
      the count when it started; `flowDuration` is in minutes. */
  datatype SessionStats = SessionStats(
    startTime: Stamp,
    endTime: Option<Stamp>,
    wordCount: int,
    initialWordCount: int,
    vibeProgression: seq<ProgressPoint>,
    flowDuration: real,
    averageVibe: real)

  datatype FontFamily = Serif | SansSerif | Mono
  datatype FontSize = Small | MediumSize | Large | XLarge
  datatype LineHeight = Tight | NormalHeight | Relaxed
  datatype MaxWidth = Narrow | MediumWidth | Wide
  datatype Theme = Light | Dark | Sepia

  datatype ReadingModeSettings = ReadingModeSettings(
    enabled: bool,
    fontFamily: FontFamily,
    fontSize: FontSize,
    lineHeight: LineHeight,
    maxWidth: MaxWidth,
    theme: Theme)
}
