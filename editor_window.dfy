/** The editor window's orchestration rules (src/components/EditorWindow.tsx): the
    complete-sentence passage extractor, the debounce slot, the analyse / skip / fallback
    decision, saving with its cleaned baseline, loading and restoring, and the session
    progression effect. Remote replies are parameters. */
module EditorWindow {
  import opened Types
  import opened Text
  import opened Buckets
  import Store

  // ---------------------------------------------------------------------------
  // Passage extractor: the text up to the last complete sentence.

  predicate IsTerminator(c: char) {
    c == '.' || c == '!' || c == '?'
  }

  /** `/[.!?](?:\s|$)/` matches at `i`: a terminator followed by whitespace or the end. */
  predicate EndsSentenceAt(text: string, i: int)
    requires 0 <= i < |text|
  {
    IsTerminator(text[i]) && (i + 1 == |text| || IsSpace(text[i + 1]))
  }

  /** The last sentence end before position `k`, or -1 when there is none. */
  function LastSentenceEnd(text: string, k: nat): (i: int)
    requires k <= |text|
    ensures -1 <= i < k
    ensures i >= 0 ==> EndsSentenceAt(text, i)
    ensures forall j :: i < j < k ==> !EndsSentenceAt(text, j)
  {
    if k == 0 then -1
    else if EndsSentenceAt(text, k - 1) then k - 1
    else LastSentenceEnd(text, k - 1)
  }

  /** Where `substring(0, lastIndex + 1)` cuts: one past the character after the terminator. */
  function CutAfter(text: string, i: int): nat
    requires 0 <= i < |text|
  {
    if i + 2 <= |text| then i + 2 else |text|
  }

  /** `getCurrentPassage` as a value: '' for blank text, the whole text when no sentence
      is complete, otherwise the text through the last terminator, trimmed. */
  function Passage(text: string): string {
    if Trim(text) == "" then ""
    else
      var i := LastSentenceEnd(text, |text|);
      if i < 0 then text else Trim(text[..CutAfter(text, i)])
  }

  /** The regular-expression scan of `getCurrentPassage`: each match moves `lastIndex`
      one past the terminator, and the search resumes after the matched text. */
  method GetCurrentPassage(text: string) returns (p: string)
    ensures p == Passage(text)
  {
    if Trim(text) == "" {
      return "";
    }
    var lastIndex := -1;
    var pos := 0;
    while pos < |text|
      invariant 0 <= pos <= |text|
      invariant lastIndex == if LastSentenceEnd(text, pos) < 0 then -1 else LastSentenceEnd(text, pos) + 1
      decreases |text| - pos
    {
      if EndsSentenceAt(text, pos) {
        lastIndex := pos + 1;
        if pos + 1 < |text| {
          assert !EndsSentenceAt(text, pos + 1);
          pos := pos + 2;
        } else {
          pos := pos + 1;
        }
      } else {
        pos := pos + 1;
      }
    }
    if lastIndex == -1 {
      p := text;
    } else {
      var end := if lastIndex + 1 <= |text| then lastIndex + 1 else |text|;
      p := Trim(text[..end]);
    }
  }

  /** A prefix reaching past the first non-whitespace character has the same leading
      whitespace as the whole text. */
  lemma {:induction false} LeadingSpacesOfPrefix(s: string, k: nat, j: nat)
    requires j < k <= |s| && !IsSpace(s[j])
    ensures LeadingSpaces(s[..k]) == LeadingSpaces(s) <= j
    decreases k
  {
    if IsSpace(s[0]) {
      assert s[..k][1..] == s[1..][..k - 1];
      assert s[1..][j - 1] == s[j];
      LeadingSpacesOfPrefix(s[1..], k - 1, j - 1);
    }
  }

  /** Without a complete sentence the text comes back unchanged. */
  lemma {:induction false} PassageWithoutSentence(text: string)
    requires !IsBlank(text) && LastSentenceEnd(text, |text|) < 0
    ensures Passage(text) == text
  {
    TrimEmptyIffBlank(text);
  }

  /** After a sentence end only whitespace is left in the cut, so trimming its end stops
      at the terminator. */
  lemma {:induction false} ContentEndOfCut(text: string, i: nat, lead: nat)
    requires i < |text| && EndsSentenceAt(text, i) && lead <= i
    ensures ContentEnd(text[lead..CutAfter(text, i)]) == i + 1 - lead
  {
    var t := text[lead..CutAfter(text, i)];
    assert t[i - lead] == text[i];
    forall j | i - lead < j < |t| ensures IsSpace(t[j]) {
      assert t[j] == text[i + 1];
    }
    ContentEndAt(t, i - lead);
  }

  /** Trimming the text cut after a sentence end leaves the text from its first
      non-whitespace character through the terminator. */
  lemma {:induction false} TrimCutAfter(text: string, i: nat)
    requires i < |text| && EndsSentenceAt(text, i)
    ensures LeadingSpaces(text) <= i
    ensures Trim(text[..CutAfter(text, i)]) == text[LeadingSpaces(text)..i + 1]
  {
    var cut := CutAfter(text, i);
    LeadingSpacesOfPrefix(text, cut, i);
    var lead := LeadingSpaces(text);
    assert TrimStart(text[..cut]) == text[lead..cut];
    ContentEndOfCut(text, i, lead);
  }

  /** With a complete sentence ending at `i`, the passage runs from the first
      non-whitespace character of the text through the terminator at `i`. */
  lemma {:induction false} PassageThroughLastSentence(text: string, i: nat)
    requires !IsBlank(text) && i == LastSentenceEnd(text, |text|)
    ensures LeadingSpaces(text) <= i
    ensures Passage(text) == text[LeadingSpaces(text)..i + 1]
  {
    TrimEmptyIffBlank(text);
    TrimCutAfter(text, i);
  }

  /** The passage then ends with the terminator of the last complete sentence: no
      complete sentence follows it. */
  lemma {:induction false} PassageEndsSentence(text: string, i: nat)
    requires !IsBlank(text) && i == LastSentenceEnd(text, |text|)
    ensures Passage(text) != [] && IsTerminator(Passage(text)[|Passage(text)| - 1])
    ensures forall j :: i < j < |text| ==> !EndsSentenceAt(text, j)
  {
    PassageThroughLastSentence(text, i);
  }

  /** Whatever the text, the passage is one of its substrings. */
  lemma {:induction false} PassageIsSubstring(text: string)
    ensures exists k: nat :: OccursAt(text, Passage(text), k)
  {
    TrimEmptyIffBlank(text);
    var p := Passage(text);
    if IsBlank(text) {
      assert OccursAt(text, p, 0);
    } else if LastSentenceEnd(text, |text|) < 0 {
      assert OccursAt(text, p, 0);
    } else {
      PassageThroughLastSentence(text, LastSentenceEnd(text, |text|));
      assert OccursAt(text, p, LeadingSpaces(text));
    }
  }

  /** The example of the design notes: the incomplete trailing sentence is dropped. */
  lemma {:induction false} PassageExample()
    ensures Passage("Hello world. This is great") == "Hello world."
  {
    var text := "Hello world. This is great";
    assert EndsSentenceAt(text, 11);
    assert !IsBlank(text) by { assert !IsSpace(text[0]); }
    forall j | 11 < j < |text| ensures !EndsSentenceAt(text, j) {
      assert text[12..] == " This is great";
      assert text[j] == text[12..][j - 12];
    }
    LastSentenceEndIs(text, |text|, 11);
    PassageThroughLastSentence(text, 11);
    assert LeadingSpaces(text) == 0;
  }

  /** A sentence end with none after it (before `k`) is the last one. */
  lemma {:induction false} LastSentenceEndIs(text: string, k: nat, i: nat)
    requires i < k <= |text|
    requires EndsSentenceAt(text, i)
    requires forall j :: i < j < k ==> !EndsSentenceAt(text, j)
    ensures LastSentenceEnd(text, k) == i
    decreases k
  {
    if k - 1 != i {
      LastSentenceEndIs(text, k - 1, i);
    }
  }

  // ---------------------------------------------------------------------------
  // Debounce: one pending-call slot per wrapped function.

  datatype DebounceEvent<A> = Call(args: A) | TimerFires

  /** The pending call (an armed timeout) and the calls that have run, oldest first. */
  datatype Slot<A> = Slot(pending: Option<A>, ran: seq<A>)

  /** A call cancels the pending one and arms its own; the timer runs the pending call once. */
  function Step<A>(s: Slot<A>, e: DebounceEvent<A>): Slot<A> {
    match e
    case Call(a) => Slot(Some(a), s.ran)
    case TimerFires => Slot(None, s.ran + (if s.pending.Some? then [s.pending.value] else []))
  }

  function Replay<A>(s: Slot<A>, events: seq<DebounceEvent<A>>): Slot<A>
    decreases |events|
  {
    if events == [] then s else Replay(Step(s, events[0]), events[1..])
  }

  function Calls<A>(args: seq<A>): (es: seq<DebounceEvent<A>>)
    ensures |es| == |args|
    ensures forall i :: 0 <= i < |args| ==> es[i] == Call(args[i])
  {
    if args == [] then [] else [Call(args[0])] + Calls(args[1..])
  }

  /** A burst of calls leaves only the last one pending and runs none of them. */
  lemma {:induction false} BurstKeepsLast<A>(s: Slot<A>, args: seq<A>)
    requires args != []
    ensures Replay(s, Calls(args)) == Slot(Some(args[|args| - 1]), s.ran)
    decreases |args|
  {
    assert Calls(args)[1..] == Calls(args[1..]);
    if |args| > 1 {
      BurstKeepsLast(Step(s, Call(args[0])), args[1..]);
    }
  }

  lemma {:induction false} ReplayAppend<A>(s: Slot<A>, xs: seq<DebounceEvent<A>>, ys: seq<DebounceEvent<A>>)
    ensures Replay(s, xs + ys) == Replay(Replay(s, xs), ys)
    decreases |xs|
  {
    if xs != [] {
      assert (xs + ys)[0] == xs[0];
      assert (xs + ys)[1..] == xs[1..] + ys;
      ReplayAppend(Step(s, xs[0]), xs[1..], ys);
    } else {
      assert xs + ys == ys;
    }
  }

  /** N calls inside the quiet period, then the timer: exactly one run, with the last
      call's arguments. */
  lemma {:induction false} BurstRunsLastOnce<A>(s: Slot<A>, args: seq<A>)
    requires args != []
    ensures Replay(s, Calls(args) + [TimerFires]) == Slot(None, s.ran + [args[|args| - 1]])
  {
    ReplayAppend(s, Calls(args), [TimerFires]);
    BurstKeepsLast(s, args);
  }

  /** The closure `debounce` returns, with its `timeout` slot. */
  class Debouncer<A> {
    const wait: nat
    var pending: Option<A>
    var ran: seq<A>

    constructor (wait: nat)
      ensures this.wait == wait && pending.None? && ran == []
    {
      this.wait := wait;
      pending := None;
      ran := [];
    }

    /** Clears the armed timeout, if any, and arms a new one for `args`. */
    method Invoke(args: A)
      modifies this`pending
      ensures pending == Some(args)
      ensures Slot(pending, ran) == Step(old(Slot(pending, ran)), Call(args))
    {
      pending := Some(args);
    }

    /** `wait` milliseconds without a call: the armed call runs. */
    method Elapse() returns (run: Option<A>)
      modifies this`pending, this`ran
      ensures run == old(pending) && pending.None?
      ensures Slot(pending, ran) == Step(old(Slot(pending, ran)), TimerFires)
    {
      run := pending;
      if pending.Some? {
        ran := ran + [pending.value];
      }
      pending := None;
    }
  }

  // ---------------------------------------------------------------------------
  // Analysis of the document passage.

  const NoTextReason := "No text to analyze"
  const NonJsonSentinel := "Generated fallback response from non-JSON output"
  const LabelSentinel := "DriftingNeutralFlowing"
  const CloudErrorReason := "Error with cloud API"
  const ApiErrorReason := "API error"

  /** The analysis endpoint's JSON reply, whose reason may be absent. */
  datatype AnalysisReply = AnalysisReply(score: real, reason: Option<string>, error: Option<string>)

  /** Reasons the client replaces: missing, empty, or one of the two placeholders. */
  predicate NeedsFallback(reason: Option<string>) {
    reason.None? || reason.value == "" || reason.value == NonJsonSentinel || reason.value == LabelSentinel
  }

  /** Reasons that mark a failed analysis, which the client drops. */
  predicate IsErrorReason(reason: string) {
    reason == CloudErrorReason || reason == ApiErrorReason
  }

  function PassageFallbackText(b: Bucket): string {
    match b
    case Inspiring => "Your writing has a strong, inspiring energy that deeply engages readers."
    case Engaging => "Your narrative flows well and maintains reader interest throughout."
    case Neutral => "Your writing maintains a steady, neutral tone that could benefit from more emotional resonance."
    case Flat => "The narrative feels somewhat flat and could use more dynamic elements to engage readers."
    case NeedsWork => "Your writing lacks emotional connection and could benefit from more vivid language and personal touches."
  }

  /** The fallback reason of `analyzeText`: its if-chain on 0.5, 0.2, -0.2 and -0.5 is
      exactly the shared bucket table. */
  function PassageFallback(score: real): string {
    PassageFallbackText(BucketOf(score))
  }

  /** The reply with a usable reason: kept when present, the bucket fallback otherwise. */
  function NormalizeReply(r: AnalysisReply): (v: VibeAnalysis)
    ensures v.score == r.score && v.error == r.error
    ensures NeedsFallback(r.reason) ==> v.reason == PassageFallback(r.score)
    ensures !NeedsFallback(r.reason) ==> v.reason == r.reason.value
  {
    VibeAnalysis(r.score, if NeedsFallback(r.reason) then PassageFallback(r.score) else r.reason.value, r.error)
  }

  /** What `analyzeText` does before any reply arrives. */
  datatype AnalyzePlan = ClearVibe | Skip | Send(passage: string)

  function PlanAnalysis(text: string, lastAnalyzed: string): (plan: AnalyzePlan)
    ensures plan == ClearVibe <==> IsBlank(text)
    ensures plan == Skip <==> !IsBlank(text) && Passage(text) == lastAnalyzed
    ensures plan.Send? ==> plan.passage == Passage(text) && plan.passage != lastAnalyzed
  {
    TrimEmptyIffBlank(text);
    if Trim(text) == "" then ClearVibe
    else
      var passage := Passage(text);
      if passage == lastAnalyzed then Skip else Send(passage)
  }

  /** The vibe `analyzeText` stores for a reply, or `None` when it keeps the old one. */
  function Accepted(reply: Reply<AnalysisReply>): (v: Option<VibeAnalysis>)
    ensures v.Some? <==> reply.Returned? && !IsErrorReason(NormalizeReply(reply.value).reason)
    ensures v.Some? ==> v.value == NormalizeReply(reply.value)
  {
    if reply.Returned? && !IsErrorReason(NormalizeReply(reply.value).reason)
    then Some(NormalizeReply(reply.value)) else None
  }

  // Fallback reasons for a selection: same boundaries, other wording.
  function SelectionFallbackText(b: Bucket): string {
    match b
    case Inspiring => "This passage has exceptional energy and emotional resonance."
    case Engaging => "This selection engages well with vivid language and good pacing."
    case Neutral => "This passage is neutral but could use more dynamic elements."
    case Flat => "This selection feels flat and needs more life and energy."
    case NeedsWork => "This passage lacks engagement and emotional connection."
  }

  function SelectionFallback(score: real): string {
    SelectionFallbackText(BucketOf(score))
  }

  function NormalizeSelectionReply(r: AnalysisReply): (v: VibeAnalysis)
    ensures v.score == r.score && v.error == r.error
    ensures NeedsFallback(r.reason) ==> v.reason == SelectionFallback(r.score)
    ensures !NeedsFallback(r.reason) ==> v.reason == r.reason.value
  {
    VibeAnalysis(r.score, if NeedsFallback(r.reason) then SelectionFallback(r.score) else r.reason.value, r.error)
  }

  // ---------------------------------------------------------------------------
  // Ambient colour.

  const AmbientGreen := "rgba(52, 211, 153, 0.08)"
  const AmbientBlue := "rgba(59, 130, 246, 0.06)"
  const AmbientRed := "rgba(239, 68, 68, 0.08)"
  const AmbientOrange := "rgba(251, 146, 60, 0.06)"
  const AmbientGray := "rgba(156, 163, 175, 0.04)"

  function AmbientFor(b: Bucket): string {
    match b
    case Inspiring => AmbientGreen
    case Engaging => AmbientBlue
    case Neutral => AmbientGray
    case Flat => AmbientOrange
    case NeedsWork => AmbientRed
  }

  /** The ambient-mode colour; its negative side tests `<=`, not `>=`. */
  function AmbientColor(score: real): (c: string)
    ensures score != -0.2 && score != -0.5 ==> c == AmbientFor(BucketOf(score))
  {
    if score >= 0.5 then AmbientGreen
    else if score >= 0.2 then AmbientBlue
    else if score <= -0.5 then AmbientRed
    else if score <= -0.2 then AmbientOrange
    else AmbientGray
  }

  /** Exactly at -0.2 and -0.5 the ambient colour is one bucket lower than every table. */
  lemma {:induction false} AmbientDisagreesAtBoundaries()
    ensures BucketOf(-0.2) == Neutral && AmbientColor(-0.2) == AmbientFor(Flat)
    ensures BucketOf(-0.5) == Flat && AmbientColor(-0.5) == AmbientFor(NeedsWork)
  {
  }

  // ---------------------------------------------------------------------------
  // Saving.

  const EmptyParagraph := "<p></p>"

  /** `s.replace(/<p><\/p>/g, '')`: one left-to-right pass removing non-overlapping matches. */
  function StripEmptyParagraphs(s: string): (r: string)
    ensures |r| <= |s|
    decreases |s|
  {
    if s == [] then []
    else if OccursAt(s, EmptyParagraph, 0) then StripEmptyParagraphs(s[|EmptyParagraph|..])
    else [s[0]] + StripEmptyParagraphs(s[1..])
  }

  /** Content without an empty paragraph passes through unchanged. */
  lemma {:induction false} StripWithoutMatch(s: string)
    ensures (forall i: nat :: !OccursAt(s, EmptyParagraph, i)) ==> StripEmptyParagraphs(s) == s
    decreases |s|
  {
    if s != [] && (forall i: nat :: !OccursAt(s, EmptyParagraph, i)) {
      forall i: nat ensures !OccursAt(s[1..], EmptyParagraph, i) {
        OccursInSuffix(s, EmptyParagraph, 1, i);
      }
      StripWithoutMatch(s[1..]);
      assert !OccursAt(s, EmptyParagraph, 0);
      assert s == [s[0]] + s[1..];
    }
  }

  /** No `<p></p>` starts before the join of `a` and `b` and ends after it. */
  predicate NoStraddle(a: string, b: string) {
    forall i :: 0 <= i < |a| && |a| < i + |EmptyParagraph| ==> !OccursAt(a + b, EmptyParagraph, i)
  }

  /** A leading empty paragraph is dropped. */
  lemma {:induction false} StripLeadingEmptyParagraph(s: string)
    ensures StripEmptyParagraphs(EmptyParagraph + s) == StripEmptyParagraphs(s)
  {
    var t := EmptyParagraph + s;
    assert t[..|EmptyParagraph|] == EmptyParagraph;
    assert t[|EmptyParagraph|..] == s;
  }

  /** A match in a suffix is a match in the whole string, shifted. */
  lemma {:induction false} OccursInSuffix(s: string, pat: string, k: nat, i: nat)
    requires k <= |s|
    ensures OccursAt(s[k..], pat, i) <==> OccursAt(s, pat, i + k)
  {
    if i + k + |pat| <= |s| {
      assert s[k..][i..i + |pat|] == s[i + k..i + k + |pat|];
    }
  }

  /** Dropping a prefix of `a` keeps the join free of straddling matches. */
  lemma {:induction false} NoStraddleSuffix(a: string, b: string, k: nat)
    requires NoStraddle(a, b) && k <= |a|
    ensures NoStraddle(a[k..], b)
  {
    var n := |EmptyParagraph|;
    assert a[k..] + b == (a + b)[k..];
    forall i | 0 <= i < |a[k..]| && |a[k..]| < i + n ensures !OccursAt(a[k..] + b, EmptyParagraph, i) {
      OccursInSuffix(a + b, EmptyParagraph, k, i);
    }
  }

  /** The pass works piece by piece: when no match straddles the join, stripping a
      concatenation strips each part. */
  lemma {:induction false} StripConcat(a: string, b: string)
    requires NoStraddle(a, b)
    ensures StripEmptyParagraphs(a + b) == StripEmptyParagraphs(a) + StripEmptyParagraphs(b)
    decreases |a|
  {
    var n := |EmptyParagraph|;
    if a == [] {
      assert a + b == b;
    } else if OccursAt(a + b, EmptyParagraph, 0) {
      assert n <= |a|;
      assert OccursAt(a, EmptyParagraph, 0) by {
        assert (a + b)[..n] == a[..n];
      }
      assert (a + b)[n..] == a[n..] + b;
      NoStraddleSuffix(a, b, n);
      StripConcat(a[n..], b);
      assert StripEmptyParagraphs(a + b) == StripEmptyParagraphs(a[n..] + b);
      assert StripEmptyParagraphs(a) == StripEmptyParagraphs(a[n..]);
    } else {
      assert !OccursAt(a, EmptyParagraph, 0) by {
        if n <= |a| {
          assert (a + b)[..n] == a[..n];
        }
      }
      assert (a + b)[1..] == a[1..] + b;
      NoStraddleSuffix(a, b, 1);
      StripConcat(a[1..], b);
      assert StripEmptyParagraphs(a + b) == [a[0]] + StripEmptyParagraphs(a[1..] + b);
      assert StripEmptyParagraphs(a) == [a[0]] + StripEmptyParagraphs(a[1..]);
    }
  }

  /** An empty paragraph between two parts is removed, and the parts are stripped in
      turn. */
  lemma {:induction false} StripRemovesEmptyParagraph(a: string, b: string)
    requires NoStraddle(a, EmptyParagraph + b)
    ensures StripEmptyParagraphs(a + EmptyParagraph + b) == StripEmptyParagraphs(a) + StripEmptyParagraphs(b)
  {
    assert a + EmptyParagraph + b == a + (EmptyParagraph + b);
    StripConcat(a, EmptyParagraph + b);
    StripLeadingEmptyParagraph(b);
  }

  /** The content `saveDraft` sends and records as the saved baseline: every empty
      paragraph found by the pass removed, then trimmed. The result neither starts nor
      ends with whitespace, and content that is already clean is sent as it is. */
  function CleanContent(content: string): (r: string)
    ensures |r| <= |content|
    ensures r == [] || (!IsSpace(r[0]) && !IsSpace(r[|r| - 1]))
    ensures ((forall i: nat :: !OccursAt(content, EmptyParagraph, i))
             && (content == [] || (!IsSpace(content[0]) && !IsSpace(content[|content| - 1])))) ==> r == content
  {
    TrimOfTrimmed(content);
    StripWithoutMatch(content);
    Trim(StripEmptyParagraphs(content))
  }

  /** A trailing empty paragraph is cleaned away, so such content differs from its baseline. */
  lemma {:induction false} TrailingEmptyParagraphIsCleaned()
    ensures CleanContent("x<p></p>") == "x"
  {
    var s := "x<p></p>";
    assert s[..7][0] == 'x' && EmptyParagraph[0] == '<';
    assert !OccursAt(s, EmptyParagraph, 0);
    assert s[1..] == EmptyParagraph;
    assert OccursAt(EmptyParagraph, EmptyParagraph, 0);
    assert EmptyParagraph[7..] == [];
    assert StripEmptyParagraphs(EmptyParagraph) == [];
    assert StripEmptyParagraphs(s) == "x";
    assert LeadingSpaces("x") == 0 && ContentEnd("x") == 1;
  }

  datatype HttpMethod = Post | Put

  /** `api.saveDraft` updates with PUT when the draft has an id and creates with POST otherwise. */
  function SaveMethod(id: Option<string>): (m: HttpMethod)
    ensures m == Put <==> id.Some? && id.value != ""
  {
    if id.Some? && id.value != "" then Put else Post
  }

  datatype SaveRequest = SaveRequest(
    httpMethod: HttpMethod, id: Option<string>, content: string, metadata: DraftMetadata)

  /** `currentDraftId || undefined`: an empty id is not sent. */
  function SentId(id: Option<string>): Option<string> {
    if id.Some? && id.value != "" then id else None
  }

  /** A save reply counts as success only with a non-empty id. */
  predicate SaveSucceeded(reply: Reply<SaveResult>) {
    reply.Returned? && reply.value.success && reply.value.id.Some? && reply.value.id.value != ""
  }

  function SaveError(reply: Reply<SaveResult>): string
    requires !SaveSucceeded(reply)
  {
    if reply.Threw? then "An error occurred while saving the draft"
    else OrElse(reply.value.error, "Failed to save draft")
  }

  /** A loaded or restored draft is usable only with non-empty content and metadata. */
  predicate LoadSucceeded(reply: Reply<LoadResult>) {
    reply.Returned? && reply.value.success && reply.value.content.Some? && reply.value.content.value != ""
    && reply.value.metadata.Some?
  }

  // ---------------------------------------------------------------------------
  // Session progression: the effect that follows the vibe and the word count.

  /** Successive progression points differ by more than 0.01. */
  predicate Spread(points: seq<ProgressPoint>) {
    forall i :: 0 < i < |points| ==> Abs(points[i].score - points[i - 1].score) > 0.01
  }

  /** A new point only when the progression is empty or the score moved by more than
      0.01; flow time grows by the minutes since the previous point (or the start) while
      the score is above 0.2; the session word count is the growth since the start. */
  function ProgressionStep(s: SessionStats, score: real, now: Stamp, currentWords: nat): (r: SessionStats)
    ensures r.wordCount == currentWords - s.initialWordCount
    ensures r.startTime == s.startTime && r.endTime == s.endTime
    ensures r.initialWordCount == s.initialWordCount && r.averageVibe == s.averageVibe
    ensures |s.vibeProgression| == 0 || Abs(s.vibeProgression[|s.vibeProgression| - 1].score - score) > 0.01
      ==> r.vibeProgression == s.vibeProgression + [ProgressPoint(now, score)]
    ensures |s.vibeProgression| > 0 && Abs(s.vibeProgression[|s.vibeProgression| - 1].score - score) <= 0.01
      ==> r.vibeProgression == s.vibeProgression && r.flowDuration == s.flowDuration
    ensures score <= 0.2 ==> r.flowDuration == s.flowDuration
  {
    var prog := s.vibeProgression;
    var s1 :=
      if |prog| == 0 || Abs(prog[|prog| - 1].score - score) > 0.01 then
        var lastCheck := if |prog| > 0 then prog[|prog| - 1].time else s.startTime;
        var flow := if score > 0.2 then s.flowDuration + (now - lastCheck) as real / 60000.0 else s.flowDuration;
        s.(vibeProgression := prog + [ProgressPoint(now, score)], flowDuration := flow)
      else s;
    s1.(wordCount := currentWords - s.initialWordCount)
  }

  /** The progression never holds two neighbouring points within 0.01 of each other. */
  lemma {:induction false} ProgressionStaysSpread(s: SessionStats, score: real, now: Stamp, words: nat)
    requires Spread(s.vibeProgression)
    ensures Spread(ProgressionStep(s, score, now, words).vibeProgression)
  {
  }

  /** With time moving forward, flow time never shrinks. */
  lemma {:induction false} FlowNeverShrinks(s: SessionStats, score: real, now: Stamp, words: nat)
    requires s.startTime <= now
    requires forall i :: 0 <= i < |s.vibeProgression| ==> s.vibeProgression[i].time <= now
    ensures ProgressionStep(s, score, now, words).flowDuration >= s.flowDuration
  {
  }

  // ---------------------------------------------------------------------------
  // The component's own state around the store.

  class EditorView {
    const store: Store.EditorStore
    var editorText: string
    var lastAnalyzedText: string
    var error: Option<string>
    var loading: bool
    var saving: bool
    var showVersions: bool
    var selectionVibe: Option<VibeAnalysis>
    var showWritingCoach: bool

    constructor (store: Store.EditorStore)
      ensures this.store == store
      ensures editorText == "" && lastAnalyzedText == "" && error.None?
      ensures !loading && !saving && !showVersions && selectionVibe.None? && !showWritingCoach
    {
      this.store := store;
      editorText, lastAnalyzedText, error := "", "", None;
      loading, saving, showVersions := false, false, false;
      selectionVibe, showWritingCoach := None, false;
    }

    /** `analyzeText(text)`: blank text resets the vibe without a call; an unchanged
        passage is skipped; otherwise the passage is sent and an accepted reply updates
        the vibe and the last analysed passage. Returns the passage sent, if any. */
    method AnalyzeText(text: string, reply: Reply<AnalysisReply>, now: Stamp) returns (sent: Option<string>)
      requires store.Valid()
      modifies this`lastAnalyzedText, store`vibe, store`vibeHistory, store`metadata
      ensures store.Valid()
      ensures var plan := PlanAnalysis(text, old(lastAnalyzedText));
        && (sent.Some? <==> plan.Send?)
        && (sent.Some? ==> sent.value == Passage(text))
        && (plan == ClearVibe ==>
              lastAnalyzedText == "" && store.VibeApplied(VibeAnalysis(0.0, NoTextReason, None), now))
        && (plan == Skip || (plan.Send? && Accepted(reply).None?) ==>
              lastAnalyzedText == old(lastAnalyzedText) && store.vibe == old(store.vibe)
              && store.vibeHistory == old(store.vibeHistory) && store.metadata == old(store.metadata))
        && (plan.Send? && Accepted(reply).Some? ==>
              lastAnalyzedText == plan.passage && store.VibeApplied(Accepted(reply).value, now))
    {
      if Trim(text) == "" {
        store.SetVibe(VibeAnalysis(0.0, NoTextReason, None), now);
        lastAnalyzedText := "";
        return None;
      }
      var currentPassage := GetCurrentPassage(text);
      if currentPassage == lastAnalyzedText {
        return None;
      }
      sent := Some(currentPassage);
      if reply.Returned? {
        var result := NormalizeReply(reply.value);
        if !IsErrorReason(result.reason) {
          store.SetVibe(result, now);
          lastAnalyzedText := currentPassage;
        }
      }
    }

    /** `analyzeSelectedText` once its debounce fires: blank clears the selection vibe;
        otherwise the raw selection is sent and any reply fills the selection slot. */
    method AnalyzeSelection(text: string, reply: Reply<AnalysisReply>) returns (sent: Option<string>)
      modifies this`selectionVibe, this`showWritingCoach
      ensures IsBlank(text) ==> sent.None? && selectionVibe.None? && showWritingCoach == old(showWritingCoach)
      ensures !IsBlank(text) ==> sent == Some(text)
      ensures !IsBlank(text) && reply.Returned? ==>
        selectionVibe == Some(NormalizeSelectionReply(reply.value))
        && showWritingCoach == (old(showWritingCoach) || (store.writingMode == Vibe && |text| > 20))
      ensures !IsBlank(text) && reply.Threw? ==>
        selectionVibe == old(selectionVibe) && showWritingCoach == old(showWritingCoach)
    {
      TrimEmptyIffBlank(text);
      if Trim(text) == "" {
        selectionVibe := None;
        return None;
      }
      sent := Some(text);
      if reply.Returned? {
        selectionVibe := Some(NormalizeSelectionReply(reply.value));
        if store.writingMode == Vibe && |text| > 20 {
          showWritingCoach := true;
        }
      }
    }

    /** `saveDraft`: sends the cleaned content; on success adopts the returned id and
        makes the cleaned content the saved baseline, so the draft still reads as unsaved
        exactly when the content differs from its cleaned form. On failure only the error
        is set. */
    method SaveDraft(reply: Reply<SaveResult>, now: Stamp) returns (ok: bool, request: SaveRequest)
      modifies this`error, this`saving, store`currentDraftId, store`lastSavedContent, store`lastSavedAt
      ensures request == SaveRequest(SaveMethod(old(store.currentDraftId)), SentId(old(store.currentDraftId)),
                                     CleanContent(old(store.content)), old(store.metadata))
      ensures ok == SaveSucceeded(reply)
      ensures ok ==> store.currentDraftId == reply.value.id && store.lastSavedContent == CleanContent(store.content)
                     && error.None? && store.lastSavedAt == Some(now)
      ensures ok ==> (store.HasUnsavedChanges() <==> store.content != CleanContent(store.content))
      ensures !ok ==> error == Some(SaveError(reply)) && store.currentDraftId == old(store.currentDraftId)
                      && store.lastSavedContent == old(store.lastSavedContent)
                      && store.lastSavedAt == old(store.lastSavedAt)
      ensures !saving
    {
      saving := true;
      error := None;
      var cleanedContent := CleanContent(store.content);
      request := SaveRequest(SaveMethod(store.currentDraftId), SentId(store.currentDraftId),
                             cleanedContent, store.metadata);
      assert request.content == CleanContent(old(store.content));
      if SaveSucceeded(reply) {
        store.SetCurrentDraftId(reply.value.id);
        store.SetLastSaved(cleanedContent, now);
        ok := true;
      } else {
        error := Some(SaveError(reply));
        ok := false;
      }
      saving := false;
    }

    /** The load effect. Without an id it resets the store. A usable reply installs the
        draft as the saved baseline, re-files its last vibe, and schedules an analysis of
        its text (`textContent`, the markup's text, given). Otherwise it sets the error
        and resets. Returns the text scheduled for analysis, if any. */
    method LoadDraft(draftId: Option<string>, reply: Reply<LoadResult>, textContent: string, now: Stamp)
      returns (scheduled: Option<string>)
      requires store.Valid()
      modifies this`loading, this`error, this`editorText,
               store`content, store`currentDraftId, store`metadata, store`vibe, store`vibeHistory,
               store`writingMode, store`lastSavedContent, store`lastSavedAt
      ensures store.Valid() && !loading
      ensures draftId.None? || draftId.value == "" ==>
        store.IsReset(now) && !store.HasUnsavedChanges() && scheduled.None?
        && error == old(error) && editorText == old(editorText)
      ensures draftId.Some? && draftId.value != "" && LoadSucceeded(reply) ==>
        && store.content == reply.value.content.value
        && store.currentDraftId == draftId
        && !store.HasUnsavedChanges() && store.lastSavedAt == Some(now)
        && editorText == textContent && error.None?
        && store.writingMode == old(store.writingMode)
        && scheduled == (if textContent != "" then Some(textContent) else None)
        && (reply.value.metadata.value.lastVibe.None? ==>
              store.metadata == reply.value.metadata.value && store.vibe == old(store.vibe)
              && store.vibeHistory == old(store.vibeHistory))
        && (reply.value.metadata.value.lastVibe.Some? ==>
              store.vibe == Some(VibeAnalysis(reply.value.metadata.value.lastVibe.value, "Analyzing your writing...", None))
              && store.vibeHistory == Store.PushRecord(old(store.vibeHistory), Store.RecordFor(store.vibe.value, now))
              && store.metadata == reply.value.metadata.value.(vibeHistory := Some(store.vibeHistory), updatedAt := now))
      ensures draftId.Some? && draftId.value != "" && !LoadSucceeded(reply) ==>
        && error == Some(if reply.Threw? then "An error occurred while loading the draft"
                         else OrElse(reply.value.error, "Failed to load draft"))
        && store.IsReset(now) && !store.HasUnsavedChanges()
        && scheduled.None? && editorText == old(editorText)
    {
      scheduled := None;
      if draftId.None? || draftId.value == "" {
        store.ResetState(now);
        loading := false;
        return;
      }
      loading := true;
      error := None;
      if LoadSucceeded(reply) {
        var content := reply.value.content.value;
        var metadata := reply.value.metadata.value;
        store.SetCurrentDraftId(draftId);
        store.SetMetadata(metadata);
        store.SetContent(content);
        store.SetLastSaved(content, now);
        editorText := textContent;
        if metadata.lastVibe.Some? {
          store.SetVibe(VibeAnalysis(metadata.lastVibe.value, "Analyzing your writing...", None), now);
        }
        if textContent != "" {
          scheduled := Some(textContent);
        }
      } else {
        error := Some(if reply.Threw? then "An error occurred while loading the draft"
                      else OrElse(reply.value.error, "Failed to load draft"));
        store.ResetState(now);
      }
      loading := false;
    }

    /** `restoreVersion`: only for a saved draft; a usable reply replaces the content and
        metadata and makes them the saved baseline without another save. */
    method RestoreVersion(reply: Reply<LoadResult>, now: Stamp)
      requires store.Valid()
      modifies this`loading, this`error, this`showVersions,
               store`content, store`metadata, store`vibe, store`vibeHistory,
               store`lastSavedContent, store`lastSavedAt
      ensures store.Valid()
      ensures old(store.currentDraftId).None? || old(store.currentDraftId).value == "" ==>
        && store.content == old(store.content) && store.metadata == old(store.metadata)
        && store.vibe == old(store.vibe) && store.vibeHistory == old(store.vibeHistory)
        && store.lastSavedContent == old(store.lastSavedContent) && store.lastSavedAt == old(store.lastSavedAt)
        && error == old(error) && loading == old(loading) && showVersions == old(showVersions)
      ensures old(store.currentDraftId).Some? && old(store.currentDraftId).value != "" && LoadSucceeded(reply) ==>
        && store.content == reply.value.content.value
        && store.lastSavedContent == reply.value.content.value && store.lastSavedAt == Some(now)
        && !store.HasUnsavedChanges()
        && !showVersions && error.None? && !loading
        && (reply.value.metadata.value.lastVibe.None? ==>
              store.metadata == reply.value.metadata.value && store.vibe == old(store.vibe)
              && store.vibeHistory == old(store.vibeHistory))
        && (reply.value.metadata.value.lastVibe.Some? ==>
              store.vibe == Some(VibeAnalysis(reply.value.metadata.value.lastVibe.value, "Restored from previous version", None))
              && store.vibeHistory == Store.PushRecord(old(store.vibeHistory), Store.RecordFor(store.vibe.value, now))
              && store.metadata == reply.value.metadata.value.(vibeHistory := Some(store.vibeHistory), updatedAt := now))
      ensures old(store.currentDraftId).Some? && old(store.currentDraftId).value != "" && !LoadSucceeded(reply) ==>
        && error == Some(if reply.Threw? then "An error occurred while restoring the version"
                         else OrElse(reply.value.error, "Failed to restore version"))
        && store.content == old(store.content) && store.metadata == old(store.metadata)
        && store.vibe == old(store.vibe) && store.vibeHistory == old(store.vibeHistory)
        && store.lastSavedContent == old(store.lastSavedContent) && store.lastSavedAt == old(store.lastSavedAt)
        && showVersions == old(showVersions) && !loading
    {
      if store.currentDraftId.None? || store.currentDraftId.value == "" {
        return;
      }
      loading := true;
      error := None;
      if LoadSucceeded(reply) {
        var content := reply.value.content.value;
        var metadata := reply.value.metadata.value;
        store.SetContent(content);
        store.SetMetadata(metadata);
        store.SetLastSaved(content, now);
        showVersions := false;
        if metadata.lastVibe.Some? {
          store.SetVibe(VibeAnalysis(metadata.lastVibe.value, "Restored from previous version", None), now);
        }
      } else {
        error := Some(if reply.Threw? then "An error occurred while restoring the version"
                      else OrElse(reply.value.error, "Failed to restore version"));
      }
      loading := false;
    }

    /** The post-load effect (its dependencies are `draftId` and `loading`), once its
        500 ms timer fires: after loading settles with a draft id, the editor text is
        analysed, whatever the load or restore that settled did. */
    method LoadingSettled(draftId: Option<string>) returns (scheduled: Option<string>)
      ensures scheduled.Some? <==> editorText != "" && draftId.Some? && draftId.value != "" && !loading
      ensures scheduled.Some? ==> scheduled.value == editorText
    {
      scheduled := None;
      if editorText != "" && draftId.Some? && draftId.value != "" && !loading {
        scheduled := Some(editorText);
      }
    }

    /** A load and then the effect it sets off: a usable draft with text is analysed
        twice, once from the load's own timer and once from the effect; a failed load
        leaves the editor text alone, so the effect analyses the previous draft's text. */
    method LoadAndSettle(draftId: Option<string>, reply: Reply<LoadResult>, textContent: string, now: Stamp)
      returns (fromLoad: Option<string>, fromEffect: Option<string>)
      requires store.Valid()
      modifies this`loading, this`error, this`editorText,
               store`content, store`currentDraftId, store`metadata, store`vibe, store`vibeHistory,
               store`writingMode, store`lastSavedContent, store`lastSavedAt
      ensures store.Valid()
      ensures draftId.None? || draftId.value == "" ==> fromLoad.None? && fromEffect.None?
      ensures draftId.Some? && draftId.value != "" && LoadSucceeded(reply) ==>
        fromLoad == fromEffect == (if textContent != "" then Some(textContent) else None)
      ensures draftId.Some? && draftId.value != "" && !LoadSucceeded(reply) ==>
        fromLoad.None? && fromEffect == (if old(editorText) != "" then Some(old(editorText)) else None)
    {
      fromLoad := LoadDraft(draftId, reply, textContent, now);
      fromEffect := LoadingSettled(draftId);
    }

    /** A restore and then the effect it sets off when it toggled `loading`: the effect
        analyses the editor text from before the restore, not the restored content. */
    method RestoreAndSettle(draftId: Option<string>, reply: Reply<LoadResult>, now: Stamp)
      returns (fromEffect: Option<string>)
      requires store.Valid()
      modifies this`loading, this`error, this`showVersions,
               store`content, store`metadata, store`vibe, store`vibeHistory,
               store`lastSavedContent, store`lastSavedAt
      ensures store.Valid()
      ensures old(store.currentDraftId).None? || old(store.currentDraftId).value == "" ==> fromEffect.None?
      ensures old(store.currentDraftId).Some? && old(store.currentDraftId).value != "" ==>
        fromEffect == (if old(editorText) != "" && draftId.Some? && draftId.value != ""
                       then Some(old(editorText)) else None)
    {
      var hadDraft := store.currentDraftId.Some? && store.currentDraftId.value != "";
      RestoreVersion(reply, now);
      fromEffect := None;
      if hadDraft {
        fromEffect := LoadingSettled(draftId);
      }
    }

    /** The flow-tracking effect, once its one-second timer fires: with a live session
        and a vibe, the session stats become `ProgressionStep` of the old ones. */
    method TrackFlow(now: Stamp)
      modifies store`sessionStats
      ensures old(store.sessionStats).None? || store.vibe.None? ==> store.sessionStats == old(store.sessionStats)
      ensures old(store.sessionStats).Some? && store.vibe.Some? ==>
        store.sessionStats == Some(ProgressionStep(old(store.sessionStats).value, store.vibe.value.score, now,
                                                   WordCount(editorText)))
    {
      if store.sessionStats.None? || store.vibe.None? {
        return;
      }
      var stats := store.sessionStats.value;
      var currentStats := ProgressionStep(stats, store.vibe.value.score, now, WordCount(editorText));
      if currentStats != stats {
        Store.MergeFullPatch(stats, currentStats);
        store.UpdateSessionStats(Store.FullPatch(currentStats));
      }
    }
  }
}
