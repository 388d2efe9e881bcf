/** The horizontal vibe meter (src/components/VibeMeter.tsx): where the indicator sits on
    the track, the bucket's label and colour, the sign shown before the score, when the
    reason is shown, and the pulse that marks a large change of score. Number formatting
    and the pulse's timer are left out. */
module VibeMeter {
  import opened Types
  import opened Text
  import opened Buckets
  import VibeUtils
  import HomeScreen

  /** The indicator's left offset in percent of the track. */
  function Position(score: real): (p: real)
    ensures -1.0 <= score <= 1.0 ==> 0.0 <= p <= 100.0
    ensures score == -1.0 ==> p == 0.0
    ensures score == 0.0 ==> p == 50.0
    ensures score == 1.0 ==> p == 100.0
  {
    ((score + 1.0) / 2.0) * 100.0
  }

  /** A higher score sits further right. */
  lemma {:induction false} PositionMonotone(s: real, t: real)
    requires s < t
    ensures Position(s) < Position(t)
  {
  }

  datatype Details = Details(name: string, color: string)

  function DetailsFor(b: Bucket): Details {
    match b
    case Inspiring => Details("Inspiring", "#10B981")
    case Engaging => Details("Engaging", "#3B82F6")
    case Neutral => Details("Neutral", "#6B7280")
    case Flat => Details("Flat", "#F59E0B")
    case NeedsWork => Details("Disconnected", "#EF4444")
  }

  /** `getVibeDetails`: its if-chain on 0.5, 0.2, -0.2 and -0.5 is the shared bucket table. */
  function VibeDetails(score: real): Details {
    DetailsFor(BucketOf(score))
  }

  /** The meter and the draft list colour every analysed score alike. */
  lemma {:induction false} MeterMatchesDraftList(score: real)
    ensures VibeDetails(score).color == HomeScreen.VibeColor(Some(score))
  {
    match BucketOf(score)
    case Inspiring =>
    case Engaging =>
    case Neutral =>
    case Flat =>
    case NeedsWork =>
  }

  /** The sign before the score: '+' exactly for a positive score (a negative one brings
      its own '-'). */
  function SignPrefix(score: real): (p: string)
    ensures p == "+" <==> score > 0.0
    ensures p != "+" ==> p == ""
  {
    if score > 0.0 then "+" else ""
  }

  /** `reason && reason.trim()`: the reason line appears only for a non-blank reason. */
  predicate ShowsReason(reason: Option<string>) {
    reason.Some? && Trim(reason.value) != ""
  }

  lemma {:induction false} ShowsReasonIffNotBlank(reason: Option<string>)
    ensures ShowsReason(reason) <==> reason.Some? && !IsBlank(reason.value)
  {
    if reason.Some? {
      TrimEmptyIffBlank(reason.value);
    }
  }

  /** Changes of score up to 0.1 are not animated. */
  const PulseThreshold := 0.1

  /** The meter's state: the score it last animated to, and whether it is pulsing. */
  class Meter {
    const isSelection: bool
    var previousScore: real
    var isAnimating: bool

    constructor (score: real, isSelection: bool)
      ensures previousScore == score && !isAnimating && this.isSelection == isSelection
    {
      this.isSelection := isSelection;
      previousScore := score;
      isAnimating := false;
    }

    /** The effect on a new score: a change of more than 0.1 starts the pulse and moves
        the reference score; a smaller one changes nothing. */
    method ScoreChanged(score: real)
      modifies this`previousScore, this`isAnimating
      ensures Abs(score - old(previousScore)) > PulseThreshold ==> isAnimating && previousScore == score
      ensures Abs(score - old(previousScore)) <= PulseThreshold ==>
        isAnimating == old(isAnimating) && previousScore == old(previousScore)
      ensures Abs(score - previousScore) <= PulseThreshold
    {
      if Abs(score - previousScore) > PulseThreshold {
        isAnimating := true;
        previousScore := score;
      }
    }

    /** The pulse's timer running out. */
    method PulseEnds()
      modifies this`isAnimating
      ensures !isAnimating
    {
      isAnimating := false;
    }

    /** The theming effect: only a meter for the whole document writes the style
        properties and the indicator colour. */
    method ApplyTheme(score: real, vars: VibeUtils.VibeVars, indicator: Option<string>)
      returns (newIndicator: Option<string>)
      modifies vars
      ensures isSelection ==> unchanged(vars) && newIndicator == indicator
      ensures !isSelection ==> vars.hue == VibeUtils.ScoreToHue(score) && vars.alpha == VibeUtils.DefaultAlpha
      ensures !isSelection ==> vars.saturation == VibeUtils.Saturation(score) && vars.lightness == VibeUtils.Lightness(score)
      ensures !isSelection ==> newIndicator == Some(VibeDetails(score).color)
    {
      newIndicator := indicator;
      if !isSelection {
        vars.Set(score, VibeUtils.DefaultAlpha);
        newIndicator := Some(VibeDetails(score).color);
      }
    }
  }
}
