/** The editor session store (src/store.ts): one mutable record of the open draft, its
    vibe, its save baseline, the display settings and the writing session, with the
    actions that update it. */
module Store {
  import opened Types
  import Text

  /** The vibe history keeps the ten newest records. */
  const HistoryLimit: nat := 10

  function DefaultMetadata(now: Stamp): DraftMetadata {
    DraftMetadata("Untitled Draft", now, now, None, Some([]), None, None)
  }

  const DefaultFocusSettings := FocusSettings(false, false, false, false, true)

  const DefaultReadingModeSettings := ReadingModeSettings(false, Serif, Large, Relaxed, Narrow, Light)

  /** The record `setVibe` files for an analysis. */
  function RecordFor(v: VibeAnalysis, now: Stamp): VibeRecord {
    VibeRecord(now, v.score, Some(v.reason))
  }

  /** `[record, ...history].slice(0, 10)`: the new record first, then the old history in
      order, cut to ten entries. */
  function PushRecord(history: seq<VibeRecord>, record: VibeRecord): (h: seq<VibeRecord>)
    ensures |h| == if |history| < HistoryLimit then |history| + 1 else HistoryLimit
    ensures h[0] == record
    ensures h[1..] == history[..|h| - 1]
  {
    var all := [record] + history;
    assert all[1..] == history;
    all[..if |all| < HistoryLimit then |all| else HistoryLimit]
  }

  /** The history after filing `records` one after the other. */
  function PushAll(history: seq<VibeRecord>, records: seq<VibeRecord>): seq<VibeRecord>
    decreases |records|
  {
    if records == [] then history else PushAll(PushRecord(history, records[0]), records[1..])
  }

  function Reversed<T>(s: seq<T>): (r: seq<T>)
    ensures |r| == |s|
    ensures forall i :: 0 <= i < |s| ==> r[i] == s[|s| - 1 - i]
  {
    if s == [] then [] else Reversed(s[1..]) + [s[0]]
  }

  function Min(a: int, b: int): int {
    if a < b then a else b
  }

  /** Whatever was filed, the history holds the newest records first, at most ten of
      them: the last ten of (old history, then the new records), in reverse order. */
  lemma {:induction false} PushAllNewestFirst(history: seq<VibeRecord>, records: seq<VibeRecord>)
    requires |history| <= HistoryLimit
    ensures PushAll(history, records)
         == (Reversed(records) + history)[..Min(HistoryLimit, |records| + |history|)]
    decreases |records|
  {
    if records != [] {
      var h1 := PushRecord(history, records[0]);
      PushAllNewestFirst(h1, records[1..]);
      var n := Min(HistoryLimit, |records| + |history|);
      var lhs := (Reversed(records[1..]) + h1)[..Min(HistoryLimit, |records| - 1 + |h1|)];
      var rhs := (Reversed(records) + history)[..n];
      assert |lhs| == n;
      forall i | 0 <= i < n ensures lhs[i] == rhs[i] {
        if i < |records| - 1 {
          assert lhs[i] == records[|records| - 1 - i];
        } else if i == |records| - 1 {
          assert lhs[i] == h1[0];
        } else {
          assert lhs[i] == h1[i - (|records| - 1)];
          assert h1[i - (|records| - 1)] == h1[1..][i - |records|];
        }
      }
    }
  }

  /** `setVibe` files a record for every analysis: two equal scores in a row give two
      records (no near-duplicate filtering). */
  lemma {:induction false} SetVibeKeepsRepeats(history: seq<VibeRecord>, r: VibeRecord)
    requires |history| <= HistoryLimit
    ensures var h := PushRecord(PushRecord(history, r), r);
      |h| >= 2 && h[0] == r && h[1] == r
    ensures |history| + 2 <= HistoryLimit ==> |PushRecord(PushRecord(history, r), r)| == |history| + 2
  {
    var h1 := PushRecord(history, r);
    var h := PushRecord(h1, r);
    assert h[1] == h[1..][0] == h1[0];
  }

  /** A partial `FocusSettings`: only the supplied fields are `Some`. */
  datatype FocusPatch = FocusPatch(
    enabled: Option<bool>, typewriterMode: Option<bool>, hideUI: Option<bool>,
    ambientMode: Option<bool>, lineHighlight: Option<bool>)

  const NoFocusChange := FocusPatch(None, None, None, None, None)

  /** `{ ...settings, ...patch }`: supplied fields win, the others are kept. */
  function MergeFocus(s: FocusSettings, p: FocusPatch): (r: FocusSettings)
    ensures r.enabled == if p.enabled.Some? then p.enabled.value else s.enabled
    ensures r.typewriterMode == if p.typewriterMode.Some? then p.typewriterMode.value else s.typewriterMode
    ensures r.hideUI == if p.hideUI.Some? then p.hideUI.value else s.hideUI
    ensures r.ambientMode == if p.ambientMode.Some? then p.ambientMode.value else s.ambientMode
    ensures r.lineHighlight == if p.lineHighlight.Some? then p.lineHighlight.value else s.lineHighlight
  {
    FocusSettings(
      p.enabled.GetOr(s.enabled), p.typewriterMode.GetOr(s.typewriterMode), p.hideUI.GetOr(s.hideUI),
      p.ambientMode.GetOr(s.ambientMode), p.lineHighlight.GetOr(s.lineHighlight))
  }

  /** Applying the same partial update twice is applying it once; an empty one changes nothing. */
  lemma MergeFocusIdempotent(s: FocusSettings, p: FocusPatch)
    ensures MergeFocus(MergeFocus(s, p), p) == MergeFocus(s, p)
    ensures MergeFocus(s, NoFocusChange) == s
  {
  }

  /** A partial `ReadingModeSettings`. */
  datatype ReadingPatch = ReadingPatch(
    enabled: Option<bool>, fontFamily: Option<FontFamily>, fontSize: Option<FontSize>,
    lineHeight: Option<LineHeight>, maxWidth: Option<MaxWidth>, theme: Option<Theme>)

  const NoReadingChange := ReadingPatch(None, None, None, None, None, None)

  function MergeReading(s: ReadingModeSettings, p: ReadingPatch): (r: ReadingModeSettings)
    ensures r.enabled == if p.enabled.Some? then p.enabled.value else s.enabled
    ensures r.fontFamily == if p.fontFamily.Some? then p.fontFamily.value else s.fontFamily
    ensures r.fontSize == if p.fontSize.Some? then p.fontSize.value else s.fontSize
    ensures r.lineHeight == if p.lineHeight.Some? then p.lineHeight.value else s.lineHeight
    ensures r.maxWidth == if p.maxWidth.Some? then p.maxWidth.value else s.maxWidth
    ensures r.theme == if p.theme.Some? then p.theme.value else s.theme
  {
    ReadingModeSettings(
      p.enabled.GetOr(s.enabled), p.fontFamily.GetOr(s.fontFamily), p.fontSize.GetOr(s.fontSize),
      p.lineHeight.GetOr(s.lineHeight), p.maxWidth.GetOr(s.maxWidth), p.theme.GetOr(s.theme))
  }

  lemma MergeReadingIdempotent(s: ReadingModeSettings, p: ReadingPatch)
    ensures MergeReading(MergeReading(s, p), p) == MergeReading(s, p)
    ensures MergeReading(s, NoReadingChange) == s
  {
  }

  /** A partial `SessionStats`; `endTime` is itself optional, hence the nested option. */
  datatype SessionPatch = SessionPatch(
    startTime: Option<Stamp>, endTime: Option<Option<Stamp>>, wordCount: Option<int>,
    initialWordCount: Option<int>, vibeProgression: Option<seq<ProgressPoint>>,
    flowDuration: Option<real>, averageVibe: Option<real>)

  /** The patch that supplies every field of `s`. */
  function FullPatch(s: SessionStats): SessionPatch {
    SessionPatch(Some(s.startTime), Some(s.endTime), Some(s.wordCount), Some(s.initialWordCount),
                 Some(s.vibeProgression), Some(s.flowDuration), Some(s.averageVibe))
  }

  function MergeSession(s: SessionStats, p: SessionPatch): (r: SessionStats)
    ensures r.startTime == if p.startTime.Some? then p.startTime.value else s.startTime
    ensures r.endTime == if p.endTime.Some? then p.endTime.value else s.endTime
    ensures r.wordCount == if p.wordCount.Some? then p.wordCount.value else s.wordCount
    ensures r.initialWordCount == if p.initialWordCount.Some? then p.initialWordCount.value else s.initialWordCount
    ensures r.vibeProgression == if p.vibeProgression.Some? then p.vibeProgression.value else s.vibeProgression
    ensures r.flowDuration == if p.flowDuration.Some? then p.flowDuration.value else s.flowDuration
    ensures r.averageVibe == if p.averageVibe.Some? then p.averageVibe.value else s.averageVibe
  {
    SessionStats(
      p.startTime.GetOr(s.startTime), p.endTime.GetOr(s.endTime), p.wordCount.GetOr(s.wordCount),
      p.initialWordCount.GetOr(s.initialWordCount), p.vibeProgression.GetOr(s.vibeProgression),
      p.flowDuration.GetOr(s.flowDuration), p.averageVibe.GetOr(s.averageVibe))
  }

  /** Merging a full copy replaces the record outright. */
  lemma MergeFullPatch(s: SessionStats, t: SessionStats)
    ensures MergeSession(s, FullPatch(t)) == t
  {
  }

  /** The stats a fresh session starts from: nothing written yet, the current word count
      as the baseline. */
  function FreshSession(content: string, now: Stamp): (s: SessionStats)
    ensures s.wordCount == 0 && s.initialWordCount == Text.WordCount(content)
    ensures s.vibeProgression == [] && s.flowDuration == 0.0 && s.endTime.None?
  {
    SessionStats(now, None, 0, Text.WordCount(content), [], 0.0, 0.0)
  }

  class EditorStore {
    var content: string
    var currentDraftId: Option<string>
    var metadata: DraftMetadata
    var vibe: Option<VibeAnalysis>
    var vibeHistory: seq<VibeRecord>
    var writingMode: WritingMode
    var lastSavedContent: string
    var lastSavedAt: Option<Stamp>
    var focusSettings: FocusSettings
    var readingModeSettings: ReadingModeSettings
    var sessionStats: Option<SessionStats>
    var showReadingMode: bool

    /** The history bound, kept by every action. */
    ghost predicate Valid()
      reads this
    {
      |vibeHistory| <= HistoryLimit
    }

    constructor (now: Stamp)
      ensures Valid()
      ensures content == "" && currentDraftId.None? && metadata == DefaultMetadata(now)
      ensures vibe.None? && vibeHistory == [] && writingMode == Vibe
      ensures lastSavedContent == "" && lastSavedAt.None?
      ensures focusSettings == DefaultFocusSettings && readingModeSettings == DefaultReadingModeSettings
      ensures sessionStats.None? && !showReadingMode
    {
      content, currentDraftId, metadata := "", None, DefaultMetadata(now);
      vibe, vibeHistory, writingMode := None, [], Vibe;
      lastSavedContent, lastSavedAt := "", None;
      focusSettings, readingModeSettings := DefaultFocusSettings, DefaultReadingModeSettings;
      sessionStats, showReadingMode := None, false;
    }

    /** The content differs from the last saved content; there is no separate dirty flag. */
    predicate HasUnsavedChanges()
      reads this
    {
      content != lastSavedContent
    }

    method SetContent(c: string)
      modifies this`content
      ensures content == c
      ensures HasUnsavedChanges() <==> c != lastSavedContent
    {
      content := c;
    }

    method SetCurrentDraftId(id: Option<string>)
      modifies this`currentDraftId
      ensures currentDraftId == id
    {
      currentDraftId := id;
    }

    method SetMetadata(m: DraftMetadata)
      modifies this`metadata
      ensures metadata == m
    {
      metadata := m;
    }

    /** `updateMetadataField('title', title)`: the field the editor header edits. */
    method UpdateTitle(title: string, now: Stamp)
      modifies this`metadata
      ensures metadata == old(metadata).(title := title, updatedAt := now)
    {
      metadata := metadata.(title := title, updatedAt := now);
    }

    method SetWritingMode(mode: WritingMode)
      modifies this`writingMode
      ensures writingMode == mode
    {
      writingMode := mode;
    }

    /** Files a record newest first, keeps ten, and mirrors the history into the metadata. */
    method AddVibeRecord(record: VibeRecord)
      requires Valid()
      modifies this`vibeHistory, this`metadata
      ensures Valid()
      ensures vibeHistory == PushRecord(old(vibeHistory), record)
      ensures metadata == old(metadata).(vibeHistory := Some(vibeHistory))
    {
      var newHistory := PushRecord(vibeHistory, record);
      vibeHistory := newHistory;
      metadata := metadata.(vibeHistory := Some(newHistory));
    }

    /** What `setVibe(v)` leaves behind: the vibe, one more record, and the metadata
        mirroring the history and carrying the score as `lastVibe`. */
    twostate predicate VibeApplied(v: VibeAnalysis, now: Stamp)
      reads this
    {
      && vibe == Some(v)
      && vibeHistory == PushRecord(old(vibeHistory), RecordFor(v, now))
      && metadata == old(metadata).(vibeHistory := Some(vibeHistory), lastVibe := Some(v.score), updatedAt := now)
    }

    /** Every call files a record, whatever the previous score was. */
    method SetVibe(v: VibeAnalysis, now: Stamp)
      requires Valid()
      modifies this`vibe, this`vibeHistory, this`metadata
      ensures Valid()
      ensures VibeApplied(v, now)
    {
      vibe := Some(v);
      AddVibeRecord(RecordFor(v, now));
      metadata := metadata.(lastVibe := Some(v.score), updatedAt := now);
    }

    method SetLastSaved(c: string, now: Stamp)
      modifies this`lastSavedContent, this`lastSavedAt
      ensures lastSavedContent == c && lastSavedAt == Some(now)
      ensures HasUnsavedChanges() <==> content != c
    {
      lastSavedContent := c;
      lastSavedAt := Some(now);
    }

    /** The draft part of the store as `resetState` leaves it: empty, saved, untitled,
        without a vibe, in vibe mode. */
    predicate IsReset(now: Stamp)
      reads this
    {
      && content == "" && currentDraftId.None? && metadata == DefaultMetadata(now)
      && vibe.None? && vibeHistory == [] && writingMode == Vibe
      && lastSavedContent == "" && lastSavedAt.None?
    }

    /** Back to an empty, saved, untitled draft; settings, session and the reading-mode
        flag are kept. */
    method ResetState(now: Stamp)
      modifies this`content, this`currentDraftId, this`metadata, this`vibe, this`vibeHistory,
               this`writingMode, this`lastSavedContent, this`lastSavedAt
      ensures Valid() && IsReset(now)
      ensures content == "" && currentDraftId.None? && metadata == DefaultMetadata(now)
      ensures vibe.None? && vibeHistory == [] && writingMode == Vibe
      ensures lastSavedContent == "" && lastSavedAt.None?
      ensures !HasUnsavedChanges()
    {
      content, currentDraftId, metadata := "", None, DefaultMetadata(now);
      vibe, vibeHistory, writingMode := None, [], Vibe;
      lastSavedContent, lastSavedAt := "", None;
    }

    method SetFocusSettings(p: FocusPatch)
      modifies this`focusSettings
      ensures focusSettings == MergeFocus(old(focusSettings), p)
    {
      focusSettings := MergeFocus(focusSettings, p);
    }

    method SetReadingModeSettings(p: ReadingPatch)
      modifies this`readingModeSettings
      ensures readingModeSettings == MergeReading(old(readingModeSettings), p)
    {
      readingModeSettings := MergeReading(readingModeSettings, p);
    }

    method StartSession(now: Stamp)
      modifies this`sessionStats
      ensures sessionStats == Some(FreshSession(content, now))
    {
      var initialWordCount := Text.WordCount(content);
      sessionStats := Some(SessionStats(now, None, 0, initialWordCount, [], 0.0, 0.0));
    }

    /** Stamps the end of a live session; without one it does nothing. */
    method EndSession(now: Stamp)
      modifies this`sessionStats
      ensures old(sessionStats).None? ==> sessionStats.None?
      ensures old(sessionStats).Some? ==> sessionStats == Some(old(sessionStats).value.(endTime := Some(now)))
    {
      var current := sessionStats;
      if current.Some? {
        sessionStats := Some(current.value.(endTime := Some(now)));
      }
    }

    method UpdateSessionStats(p: SessionPatch)
      modifies this`sessionStats
      ensures old(sessionStats).None? ==> sessionStats.None?
      ensures old(sessionStats).Some? ==> sessionStats == Some(MergeSession(old(sessionStats).value, p))
    {
      sessionStats := if sessionStats.Some? then Some(MergeSession(sessionStats.value, p)) else None;
    }

    /** Flips the flag, so two toggles restore it. */
    method ToggleReadingMode()
      modifies this`showReadingMode
      ensures showReadingMode == !old(showReadingMode)
    {
      showReadingMode := !showReadingMode;
    }
  }
}
