/** The daily writing prompt card (src/components/DailyPrompt.tsx): one of twenty prompts
    chosen by the day of the year, shown once per calendar day until it is used. Days are
    day numbers; the two persisted keys `lastPromptDate` and `lastPromptUsed` are fields. */
module DailyPrompt {
  import opened Types

  const WritingPrompts: seq<string> := [
    "Write about a memory triggered by a smell from your childhood.",
    "Describe a stranger you saw today as if they were the protagonist of a novel.",
    "What would your room say about you if it could speak?",
    "Write about the last time you felt genuinely surprised.",
    "Describe a mundane object as if you're seeing it for the first time.",
    "What conversation do you wish you'd had?",
    "Write about a place that no longer exists.",
    "Describe the texture of an emotion.",
    "What does silence sound like in different places?",
    "Write about something you've lost and where it might be now.",
    "Describe a ritual you didn't know you had.",
    "What story does your favorite piece of clothing tell?",
    "Write about the space between two heartbeats.",
    "Describe the color of a feeling without naming the feeling.",
    "What would your younger self think of you now?",
    "Write about a door you're afraid to open.",
    "Describe the taste of a word.",
    "What happens in the moments just before sleep?",
    "Write about an apology you never received.",
    "Describe home without mentioning any place."
  ]

  /** `dayOfYear % WRITING_PROMPTS.length`: always a valid index, and the same prompt
      comes back every twenty days. */
  function PromptIndex(dayOfYear: nat): (i: nat)
    ensures i < |WritingPrompts| && i < 20
    ensures dayOfYear < 20 ==> i == dayOfYear
    ensures dayOfYear >= 20 ==> i == PromptIndex(dayOfYear - 20)
  {
    dayOfYear % |WritingPrompts|
  }

  /** The persisted keys: the last day a prompt was shown, and whether it was used. */
  datatype Persisted = Persisted(lastPromptDate: Option<int>, lastPromptUsed: bool)

  /** What the card shows. */
  datatype View = View(prompt: string, isVisible: bool, hasUsedToday: bool)

  const Initial := View("", false, false)

  /** The mount effect: a new day shows the day's prompt and records the day as unused;
      the same day shows it again only while it is unused. */
  function Mount(p: Persisted, today: int, dayOfYear: nat): (r: (View, Persisted))
    ensures p.lastPromptDate != Some(today) ==>
      r == (View(WritingPrompts[PromptIndex(dayOfYear)], true, false), Persisted(Some(today), false))
    ensures p.lastPromptDate == Some(today) ==> r.1 == p
    ensures p.lastPromptDate == Some(today) ==> (r.0.isVisible <==> !p.lastPromptUsed)
    ensures r.0.isVisible ==> r.0.prompt == WritingPrompts[PromptIndex(dayOfYear)] && !r.0.hasUsedToday
  {
    var shown := View(WritingPrompts[PromptIndex(dayOfYear)], true, false);
    if p.lastPromptDate != Some(today) then (shown, Persisted(Some(today), false))
    else if !p.lastPromptUsed then (shown, p)
    else (Initial, p)
  }

  /** Once the prompt is used, mounting again the same day keeps the card hidden, and
      mounting the next day shows it again. */
  lemma {:induction false} UsedStaysHiddenToday(p: Persisted, today: int, dayOfYear: nat)
    ensures var used := Persisted(Mount(p, today, dayOfYear).1.lastPromptDate, true);
      !Mount(used, today, dayOfYear).0.isVisible && Mount(used, today + 1, dayOfYear + 1).0.isVisible
  {
    var used := Persisted(Mount(p, today, dayOfYear).1.lastPromptDate, true);
    assert used.lastPromptDate == Some(today);
  }

  /** The card, and the two persisted keys. */
  class PromptCard {
    var view: View
    var stored: Persisted

    constructor (saved: Persisted)
      ensures view == Initial && stored == saved
    {
      view := Initial;
      stored := saved;
    }

    /** The mount effect, which finds the card in its initial state. */
    method OnMount(today: int, dayOfYear: nat)
      requires view == Initial
      modifies this
      ensures (view, stored) == Mount(old(stored), today, dayOfYear)
    {
      var promptIndex := PromptIndex(dayOfYear);
      if stored.lastPromptDate != Some(today) {
        view := View(WritingPrompts[promptIndex], true, false);
        stored := Persisted(Some(today), false);
      } else if !stored.lastPromptUsed {
        view := View(WritingPrompts[promptIndex], true, false);
      }
    }

    /** `handleUsePrompt`: the prompt goes to the clipboard and the day is recorded as
        used; the card stays up until `HideDelayEnds`. */
    method UsePrompt() returns (copied: string)
      modifies this
      ensures copied == old(view.prompt)
      ensures stored == old(stored).(lastPromptUsed := true)
      ensures view == old(view).(hasUsedToday := true)
    {
      copied := view.prompt;
      stored := stored.(lastPromptUsed := true);
      view := view.(hasUsedToday := true);
    }

    /** The two-second timer started by `handleUsePrompt` running out: the card hides. */
    method HideDelayEnds()
      modifies this
      ensures view == old(view).(isVisible := false) && stored == old(stored)
    {
      view := view.(isVisible := false);
    }

    /** `handleDismiss`: hidden for now, nothing persisted. */
    method Dismiss()
      modifies this
      ensures view == old(view).(isVisible := false) && stored == old(stored)
    {
      view := view.(isVisible := false);
    }
  }
}
