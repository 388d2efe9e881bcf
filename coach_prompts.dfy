/** The writing coach's prompt selector (src/lib/writingCoachPrompts.ts): seven prompt
    kinds looked up by name with a fallback to the clarity check, a note appended for a
    high or a low vibe score, and the tip table that lists the same seven kinds. The
    prompt texts themselves are a parameter. */
module CoachPrompts {
  import opened Types
  import opened Text

  datatype CoachKey = Clarity | Fluff | Verbs | Show | Cliche | Pace | Specific

  /** The key's name in the prompt map and in the tip table. */
  function KeyName(k: CoachKey): string {
    match k
    case Clarity => "clarity"
    case Fluff => "fluff"
    case Verbs => "verbs"
    case Show => "show"
    case Cliche => "cliche"
    case Pace => "pace"
    case Specific => "specific"
  }

  /** The keys of the prompt map, in declaration order. */
  const PromptKeys: seq<CoachKey> := [Clarity, Fluff, Verbs, Show, Cliche, Pace, Specific]

  /** The keys of the tip table, in declaration order: the tab order of the coach. */
  const TipKeys: seq<string> := ["clarity", "fluff", "verbs", "show", "cliche", "pace", "specific"]

  /** `promptMap[type]` found an entry: the key whose name is `type`, if there is one. */
  function Lookup(name: string): (k: Option<CoachKey>)
    ensures k.Some? ==> KeyName(k.value) == name
    ensures k.None? ==> forall c :: KeyName(c) != name
  {
    if name == "clarity" then Some(Clarity)
    else if name == "fluff" then Some(Fluff)
    else if name == "verbs" then Some(Verbs)
    else if name == "show" then Some(Show)
    else if name == "cliche" then Some(Cliche)
    else if name == "pace" then Some(Pace)
    else if name == "specific" then Some(Specific)
    else None
  }

  /** The text of each prompt. */
  type PromptTable = CoachKey -> string

  /** Every prompt is non-empty and no two kinds share a prompt. */
  predicate Distinct(prompts: PromptTable) {
    (forall k :: prompts(k) != "") && (forall k, c :: k != c ==> prompts(k) != prompts(c))
  }

  const HighScoreNote := "\n\nNote: This passage already has a high vibe score, so it's likely doing many things well. Be sure to acknowledge what's working before suggesting changes."
  const LowScoreNote := "\n\nNote: This passage has a low vibe score, so be constructive and specific about improvements while still acknowledging any strengths."

  /** `promptMap[type] || CLARITY_CHECK_PROMPT`. */
  function BasePrompt(name: string, prompts: PromptTable): (p: string)
    ensures Lookup(name).Some? && prompts(Lookup(name).value) != "" ==> p == prompts(Lookup(name).value)
    ensures Lookup(name).Some? && prompts(Lookup(name).value) == "" ==> p == prompts(Clarity)
    ensures Lookup(name).None? ==> p == prompts(Clarity)
  {
    var k := Lookup(name);
    if k.Some? && prompts(k.value) != "" then prompts(k.value) else prompts(Clarity)
  }

  /** The note for a score: high above 0.7, low below 0, none in between. */
  function ScoreNote(score: real): string {
    if score > 0.7 then HighScoreNote else if score < 0.0 then LowScoreNote else ""
  }

  /** `getCoachPrompt(type, context)`, with `context?.score` as `score`. */
  function CoachPrompt(name: string, score: Option<real>, prompts: PromptTable): (r: string)
    ensures StartsWith(r, BasePrompt(name, prompts))
    ensures score.None? ==> r == BasePrompt(name, prompts)
    ensures score.Some? && score.value > 0.7 ==> r == BasePrompt(name, prompts) + HighScoreNote
    ensures score.Some? && score.value < 0.0 ==> r == BasePrompt(name, prompts) + LowScoreNote
    ensures score.Some? && 0.0 <= score.value <= 0.7 ==> r == BasePrompt(name, prompts)
  {
    var base := BasePrompt(name, prompts);
    if score.Some? then
      var r := base + ScoreNote(score.value);
      assert r[..|base|] == base;
      r
    else base
  }

  /** Looking a key up by its own name finds that key. */
  lemma {:induction false} LookupKeyName(k: CoachKey)
    ensures Lookup(KeyName(k)) == Some(k)
  {
    match k
    case Clarity =>
    case Fluff => assert "fluff" != "clarity";
    case Verbs => assert "verbs" != "clarity" && "verbs" != "fluff";
    case Show => assert "show" != "clarity" && "show" != "fluff" && "show" != "verbs";
    case Cliche =>
      assert "cliche" != "clarity" && "cliche" != "fluff" && "cliche" != "verbs" && "cliche" != "show";
    case Pace =>
      assert "pace" != "clarity" && "pace" != "fluff" && "pace" != "verbs" && "pace" != "show";
      assert "pace" != "cliche";
    case Specific =>
      assert "specific" != "clarity" && "specific" != "fluff" && "specific" != "verbs";
      assert "specific" != "show" && "specific" != "cliche" && "specific" != "pace";
  }

  /** With well-formed prompts, each of the seven kinds selects its own prompt, and an
      unknown name selects the clarity check. */
  lemma {:induction false} EachKeyHasOwnPrompt(prompts: PromptTable, k: CoachKey, c: CoachKey)
    requires Distinct(prompts)
    ensures BasePrompt(KeyName(k), prompts) == prompts(k)
    ensures k != c ==> BasePrompt(KeyName(k), prompts) != BasePrompt(KeyName(c), prompts)
  {
    LookupKeyName(k);
    LookupKeyName(c);
  }

  /** The tip table names exactly the seven prompt kinds, in the prompt map's order. */
  lemma {:induction false} TipKeysArePromptKeys()
    ensures |TipKeys| == |PromptKeys|
    ensures forall i :: 0 <= i < |TipKeys| ==> Lookup(TipKeys[i]) == Some(PromptKeys[i])
    ensures forall k :: k in PromptKeys
  {
    forall i | 0 <= i < |TipKeys| ensures Lookup(TipKeys[i]) == Some(PromptKeys[i]) {
      LookupKeyName(PromptKeys[i]);
    }
    forall k ensures k in PromptKeys {
      match k
      case Clarity => assert PromptKeys[0] == k;
      case Fluff => assert PromptKeys[1] == k;
      case Verbs => assert PromptKeys[2] == k;
      case Show => assert PromptKeys[3] == k;
      case Cliche => assert PromptKeys[4] == k;
      case Pace => assert PromptKeys[5] == k;
      case Specific => assert PromptKeys[6] == k;
    }
  }

  /** The score note depends only on the band the score falls in: at most one note is
      added, and a score in [0, 0.7] adds none. */
  lemma {:induction false} NoteBands(s: real, t: real, prompts: PromptTable, name: string)
    requires 0.0 <= s <= 0.7 && 0.0 <= t <= 0.7
    ensures CoachPrompt(name, Some(s), prompts) == CoachPrompt(name, Some(t), prompts) == CoachPrompt(name, None, prompts)
  {
  }
}
