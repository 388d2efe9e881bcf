/** The score-to-colour mapping of src/lib/vibeUtils.ts: a hue running from red (0) at -1
    through blue-gray (240) at 0 to green (140) at +1, and saturation and lightness that
    depend only on the score's magnitude. The document's style properties become the
    fields of a small object. */
module VibeUtils {
  import opened Types

  /** `scoreToHue`. */
  function ScoreToHue(score: real): (h: real)
    ensures -1.0 <= score <= 1.0 ==> 0.0 <= h <= 240.0
    ensures 0.0 < score <= 1.0 ==> 140.0 <= h < 240.0
    ensures score <= 0.0 ==> h == 240.0 + 240.0 * score
  {
    if score <= 0.0 then 240.0 - 240.0 * Abs(score) else 240.0 - 100.0 * score
  }

  /** The three anchors of the mapping: red, blue-gray, green. */
  lemma {:induction false} HueAnchors()
    ensures ScoreToHue(-1.0) == 0.0 && ScoreToHue(0.0) == 240.0 && ScoreToHue(1.0) == 140.0
  {
  }

  /** On [-1, 0] the hue rises with the score. */
  lemma {:induction false} HueRisesOnNegatives(s: real, t: real)
    requires s <= t <= 0.0
    ensures ScoreToHue(s) <= ScoreToHue(t)
  {
  }

  /** On (0, 1] the hue falls as the score rises. */
  lemma {:induction false} HueFallsOnPositives(s: real, t: real)
    requires 0.0 < s <= t
    ensures ScoreToHue(s) >= ScoreToHue(t)
  {
  }

  /** Saturation in percent: 30 at 0, 55 at either end. */
  function Saturation(score: real): (s: real)
    ensures -1.0 <= score <= 1.0 ==> 30.0 <= s <= 55.0
  {
    30.0 + 25.0 * Abs(score)
  }

  /** Lightness in percent: 94 at 0, 85 at either end. */
  function Lightness(score: real): (l: real)
    ensures -1.0 <= score <= 1.0 ==> 85.0 <= l <= 94.0
  {
    94.0 - 9.0 * Abs(score)
  }

  /** Saturation and lightness ignore the sign, and a stronger score is more saturated
      and darker. */
  lemma {:induction false} IntensityIgnoresSign(s: real, t: real)
    requires Abs(s) <= Abs(t)
    ensures Saturation(s) == Saturation(-s) && Lightness(s) == Lightness(-s)
    ensures Saturation(s) <= Saturation(t) && Lightness(s) >= Lightness(t)
  {
  }

  const DefaultAlpha := 0.22

  /** The four style properties `setVibeVars` writes on the document. */
  class VibeVars {
    var hue: real
    var saturation: real
    var lightness: real
    var alpha: real

    constructor ()
      ensures hue == 0.0 && saturation == 0.0 && lightness == 0.0 && alpha == 0.0
    {
      hue, saturation, lightness, alpha := 0.0, 0.0, 0.0, 0.0;
    }

    /** `setVibeVars(score, alpha)`. */
    method Set(score: real, a: real)
      modifies this
      ensures hue == ScoreToHue(score) && saturation == Saturation(score)
      ensures lightness == Lightness(score) && alpha == a
    {
      hue := ScoreToHue(score);
      saturation := Saturation(score);
      lightness := Lightness(score);
      alpha := a;
    }
  }
}
