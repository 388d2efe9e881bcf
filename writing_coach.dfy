/** The writing coach panel (src/components/WritingCoach.tsx): its own score thresholds
    for the indicator and the label, the request it sends for a tab, the guard against a
    second request in flight, the suggestion it keeps, its tabs and the Copy-All note.
    Clipboard writes, key and mouse handlers are left out. */
module WritingCoach {
  import opened Types
  import opened Text
  import opened Buckets
  import CoachPrompts

  /** The coach's four bands, with strict thresholds at 0.5, 0 and -0.5. */
  datatype Band = Strong | Good | Fixable | Major

  function BandOf(score: real): (b: Band)
    ensures b == Strong <==> score > 0.5
    ensures b == Good <==> 0.0 < score <= 0.5
    ensures b == Fixable <==> -0.5 < score <= 0.0
    ensures b == Major <==> score <= -0.5
  {
    if score > 0.5 then Strong else if score > 0.0 then Good else if score > -0.5 then Fixable else Major
  }

  function IndicatorColor(b: Band): string {
    match b
    case Strong => "#10B981"
    case Good => "#3B82F6"
    case Fixable => "#F59E0B"
    case Major => "#EF4444"
  }

  function BandLabel(b: Band): string {
    match b
    case Strong => "Strong writing — let's make it stronger"
    case Good => "Good foundation to build on"
    case Fixable => "Needs work, but fixable"
    case Major => "Major issues — but every draft can improve"
  }

  /** The label under the indicator: the vibe reason when one is given, else the band's. */
  function Label(vibeReason: Option<string>, score: real): (l: string)
    ensures vibeReason.Some? && vibeReason.value != "" ==> l == vibeReason.value
    ensures vibeReason.None? || vibeReason.value == "" ==> l == BandLabel(BandOf(score))
  {
    OrElse(vibeReason, BandLabel(BandOf(score)))
  }

  /** The coach's bands are not the shared five buckets: 0.5 is top for the buckets but
      not for the coach, -0.5 is the bottom for the coach but not for the buckets, and a
      slightly positive score is neutral for the buckets but good for the coach. */
  lemma {:induction false} BandsDifferFromBuckets()
    ensures BucketOf(0.5) == Inspiring && BandOf(0.5) == Good
    ensures BucketOf(-0.5) == Flat && BandOf(-0.5) == Major
    ensures BucketOf(0.1) == Neutral && BandOf(0.1) == Good
  {
  }

  /** A higher score never lands in a lower band. */
  lemma {:induction false} BandMonotone(s: real, t: real)
    requires s <= t
    ensures BandRank(BandOf(s)) <= BandRank(BandOf(t))
  {
  }

  function BandRank(b: Band): nat {
    match b
    case Strong => 3
    case Good => 2
    case Fixable => 1
    case Major => 0
  }

  const PassageIntro := "\n\nNow analyze THIS SPECIFIC PASSAGE:\n\n\""
  const PassageOutro := "\"\n\nBe completely honest - if this passage is already strong in this area, tell me why it works. If it needs improvement, give specific fixes. Don't invent problems that don't exist."
  const ApologyNote := "I'm having trouble analyzing this passage right now. Try selecting a different section or refreshing."
  const NoFeedback := "No feedback yet"

  /** The request for a tab: the coach prompt for the score, then the selection, quoted
      between the fixed instructions. */
  function FullPrompt(tab: string, score: real, selection: string, prompts: CoachPrompts.PromptTable): (r: string)
    ensures StartsWith(r, CoachPrompts.CoachPrompt(tab, Some(score), prompts))
    ensures OccursAt(r, selection, |CoachPrompts.CoachPrompt(tab, Some(score), prompts)| + |PassageIntro|)
  {
    var prompt := CoachPrompts.CoachPrompt(tab, Some(score), prompts);
    ConcatParts(prompt, PassageIntro, selection, PassageOutro);
    prompt + PassageIntro + selection + PassageOutro
  }

  datatype Suggestion = Suggestion(tab: string, content: string)

  /** What the panel keeps from a reply: its reason, or the apology when the call threw. */
  function SuggestionFor(tab: string, reply: Reply<VibeAnalysis>): (s: Suggestion)
    ensures s.tab == tab
    ensures reply.Returned? ==> s.content == reply.value.reason
    ensures reply.Threw? ==> s.content == ApologyNote
  {
    Suggestion(tab, if reply.Returned? then reply.value.reason else ApologyNote)
  }

  /** The Copy-All note: the quoted selection, the tab, and the feedback or a placeholder. */
  function CopyNote(selection: string, tab: string, suggestions: Option<Suggestion>): (note: string)
    ensures StartsWith(note, "\"" + selection + "\"")
    ensures var feedback := if suggestions.Some? && suggestions.value.content != "" then suggestions.value.content else NoFeedback;
      |feedback| <= |note| && note[|note| - |feedback|..] == feedback
  {
    var feedback := OrElse(if suggestions.Some? then Some(suggestions.value.content) else None, NoFeedback);
    var head := "\"" + selection + "\"";
    var note := head + "\n\n--- Coach Notes (" + tab + ") ---\n" + feedback;
    assert note[..|head|] == head;
    assert note[|note| - |feedback|..] == feedback;
    note
  }

  /** A tab: one per tip, in the tip table's order. */
  datatype Tab = Tab(id: string, key: CoachPrompts.CoachKey)

  function Tabs(): (tabs: seq<Tab>)
    ensures |tabs| == |CoachPrompts.TipKeys|
    ensures forall i :: 0 <= i < |tabs| ==> tabs[i].id == CoachPrompts.TipKeys[i]
  {
    seq(|CoachPrompts.PromptKeys|, i requires 0 <= i < |CoachPrompts.PromptKeys| =>
      Tab(CoachPrompts.KeyName(CoachPrompts.PromptKeys[i]), CoachPrompts.PromptKeys[i]))
  }

  /** The panel's state: the suggestion shown, the request in flight, the active tab. */
  class Coach {
    var suggestions: Option<Suggestion>
    var isGenerating: bool
    var activeTab: string
    /** The tab whose request is in flight. */
    var pendingTab: string

    constructor ()
      ensures suggestions.None? && !isGenerating && activeTab == "clarity"
    {
      suggestions := None;
      isGenerating := false;
      activeTab := "clarity";
      pendingTab := "";
    }

    /** The first half of `getSuggestions`: nothing without a selection or while a
        request is in flight; otherwise the request is sent and marked in flight. */
    method StartSuggestions(tab: string, selection: string, score: real, prompts: CoachPrompts.PromptTable)
      returns (sent: Option<string>)
      modifies this`isGenerating, this`pendingTab
      ensures sent.None? <==> selection == "" || old(isGenerating)
      ensures sent.None? ==> isGenerating == old(isGenerating) && pendingTab == old(pendingTab)
      ensures sent.Some? ==> sent.value == FullPrompt(tab, score, selection, prompts) && isGenerating && pendingTab == tab
    {
      if selection == "" || isGenerating {
        return None;
      }
      isGenerating := true;
      pendingTab := tab;
      sent := Some(FullPrompt(tab, score, selection, prompts));
    }

    /** The second half: the reply or the exception becomes the suggestion, and the
        request is no longer in flight. */
    method FinishSuggestions(reply: Reply<VibeAnalysis>)
      requires isGenerating
      modifies this`suggestions, this`isGenerating
      ensures suggestions == Some(SuggestionFor(pendingTab, reply))
      ensures !isGenerating
    {
      suggestions := Some(SuggestionFor(pendingTab, reply));
      isGenerating := false;
    }

    /** The effect on `[selectedText, activeTab]` when the selection changes, or on
        mount: with a selection and the panel not loading, suggestions are asked for the
        active tab. */
    method SelectionChanged(selection: string, isLoading: bool, score: real, prompts: CoachPrompts.PromptTable)
      returns (sent: Option<string>)
      modifies this`isGenerating, this`pendingTab
      ensures sent.Some? <==> selection != "" && !isLoading && !old(isGenerating)
      ensures sent.Some? ==> sent.value == FullPrompt(activeTab, score, selection, prompts) && isGenerating && pendingTab == activeTab
      ensures sent.None? ==> isGenerating == old(isGenerating) && pendingTab == old(pendingTab)
    {
      sent := None;
      if selection != "" && !isLoading {
        sent := StartSuggestions(activeTab, selection, score, prompts);
      }
    }

    /** Choosing a tab. The effect runs again only when the active tab really changed,
        and then asks for suggestions when there is a selection and the panel is not
        loading; choosing the tab already active sends nothing. */
    method SelectTab(tab: string, selection: string, isLoading: bool, score: real,
                     prompts: CoachPrompts.PromptTable)
      returns (sent: Option<string>)
      modifies this`activeTab, this`isGenerating, this`pendingTab
      ensures activeTab == tab
      ensures sent.Some? <==> tab != old(activeTab) && selection != "" && !isLoading && !old(isGenerating)
      ensures sent.Some? ==> sent.value == FullPrompt(tab, score, selection, prompts) && isGenerating && pendingTab == tab
      ensures sent.None? ==> isGenerating == old(isGenerating) && pendingTab == old(pendingTab)
    {
      var changed := tab != activeTab;
      activeTab := tab;
      sent := None;
      if changed {
        sent := SelectionChanged(selection, isLoading, score, prompts);
      }
    }
  }
}
