/** The session insights card (src/components/SessionInsights.tsx): the average of the
    vibe history and its emoji, flow minutes, the share of the session spent in flow, when
    the card appears, and the sign of the words added. Times are millisecond stamps. */
module SessionInsights {
  import opened Types
  import opened Buckets

  /** The sum of the history's scores. */
  function SumScores(history: seq<VibeRecord>): real
    decreases |history|
  {
    if history == [] then 0.0 else history[0].score + SumScores(history[1..])
  }

  /** The mean of the history's scores; 0 for an empty history. */
  function AverageVibe(history: seq<VibeRecord>): real {
    if history == [] then 0.0 else SumScores(history) / |history| as real
  }

  /** The mean of scores in [-1, 1] is in [-1, 1]. */
  lemma {:induction false} SumScoresBounded(history: seq<VibeRecord>)
    requires forall i :: 0 <= i < |history| ==> -1.0 <= history[i].score <= 1.0
    ensures -(|history| as real) <= SumScores(history) <= |history| as real
    decreases |history|
  {
    if history != [] {
      SumScoresBounded(history[1..]);
    }
  }

  lemma {:induction false} AverageInRange(history: seq<VibeRecord>)
    requires forall i :: 0 <= i < |history| ==> -1.0 <= history[i].score <= 1.0
    ensures -1.0 <= AverageVibe(history) <= 1.0
  {
    if history != [] {
      SumScoresBounded(history);
      var n := |history| as real;
      var sum := SumScores(history);
      assert sum / n * n == sum;
      assert -1.0 <= sum / n by {
        assert (sum / n + 1.0) * n == sum + n;
      }
      assert sum / n <= 1.0 by {
        assert (1.0 - sum / n) * n == n - sum;
      }
    }
  }

  /** A history whose scores are all equal averages to that score. */
  lemma {:induction false} AverageOfConstant(history: seq<VibeRecord>, s: real)
    requires forall i :: 0 <= i < |history| ==> history[i].score == s
    ensures SumScores(history) == |history| as real * s
    ensures history != [] ==> AverageVibe(history) == s
    decreases |history|
  {
    if history != [] {
      AverageOfConstant(history[1..], s);
    }
  }

  /** `toFixed(2)`: to two decimals, halves away from zero. The result is a whole number
      of hundredths within half a hundredth of the argument, with the argument's sign. */
  function Fixed2(x: real): (r: real)
    ensures (r * 100.0).Floor as real == r * 100.0
    ensures x - 0.005 <= r <= x + 0.005
    ensures x >= 0.0 ==> r >= 0.0
    ensures x <= 0.0 ==> r <= 0.0
    ensures x >= 0.0 ==> x - 0.005 < r
    ensures x < 0.0 ==> r < x + 0.005
  {
    if x < 0.0 then
      var h := HalfUpHundredths(-x);
      var k := (h * 100.0).Floor;
      assert (-h) * 100.0 == (-k) as real;
      -h
    else HalfUpHundredths(x)
  }

  /** Rounds a non-negative value to hundredths, halves up. */
  function HalfUpHundredths(y: real): (r: real)
    requires y >= 0.0
    ensures (r * 100.0).Floor as real == r * 100.0
    ensures y - 0.005 < r <= y + 0.005 && r >= 0.0
  {
    var f := (y * 100.0 + 0.5).Floor;
    assert f as real <= y * 100.0 + 0.5 < f as real + 1.0;
    assert (f as real / 100.0) * 100.0 == f as real;
    f as real / 100.0
  }

  function EmojiFor(b: Bucket): string {
    match b
    case Inspiring => "🔥"
    case Engaging => "✨"
    case Neutral => "😐"
    case Flat => "😔"
    case NeedsWork => "💤"
  }

  /** The emoji of the average: `getVibeEmoji(parseFloat(getAverageVibe()))`, so the
      average is rounded to two decimals before its bucket is chosen. */
  function AverageEmoji(history: seq<VibeRecord>): (e: string)
    ensures history == [] ==> e == EmojiFor(Neutral)
    ensures exists b :: e == EmojiFor(b)
  {
    EmojiFor(BucketOf(Fixed2(AverageVibe(history))))
  }

  /** The score `x` is further than half a hundredth below, or at least half a hundredth
      above, the boundary `b`. */
  predicate ClearOf(x: real, b: real) {
    x < b - 0.005 || x >= b + 0.005
  }

  /** Rounding only matters near a boundary: an average clear of all four boundaries
      shows the emoji of its own bucket. */
  lemma {:induction false} EmojiAwayFromBoundaries(history: seq<VibeRecord>)
    requires var a := AverageVibe(history);
      ClearOf(a, 0.5) && ClearOf(a, 0.2) && ClearOf(a, -0.2) && ClearOf(a, -0.5)
    ensures AverageEmoji(history) == EmojiFor(BucketOf(AverageVibe(history)))
  {
    var a := AverageVibe(history);
    assert BucketOf(Fixed2(a)) == BucketOf(a);
  }

  /** Rounding first moves averages just under a boundary into the bucket above it: an
      average of 0.497 shows the emoji of 0.5. */
  lemma {:induction false} RoundingCrossesBoundary()
    ensures BucketOf(0.497) == Engaging && BucketOf(Fixed2(0.497)) == Inspiring
  {
    assert (0.497 * 100.0 + 0.5).Floor == 50;
  }

  /** Flow minutes: one more than the recorded flow duration while the current vibe is
      above 0.2, rounded. */
  function FlowMinutes(stats: SessionStats, vibe: Option<VibeAnalysis>): (m: int)
    ensures vibe.Some? && vibe.value.score > 0.2 ==> m == JsRound(stats.flowDuration + 1.0)
    ensures !(vibe.Some? && vibe.value.score > 0.2) ==> m == JsRound(stats.flowDuration)
  {
    var flowTime := if vibe.Some? && vibe.value.score > 0.2 then stats.flowDuration + 1.0 else stats.flowDuration;
    JsRound(flowTime)
  }

  /** Minutes between two stamps. */
  function Minutes(from: Stamp, to: Stamp): real {
    (to - from) as real / 60000.0
  }

  /** `getSessionDuration`: rounded minutes up to the session's end, or up to now. */
  function SessionDuration(stats: SessionStats, now: Stamp): (m: int)
    ensures var elapsed := (stats.endTime.GetOr(now) - stats.startTime) as real;
      m as real * 60000.0 - 30000.0 <= elapsed < m as real * 60000.0 + 30000.0
    ensures stats.startTime <= stats.endTime.GetOr(now) ==> m >= 0
  {
    JsRound(Minutes(stats.startTime, stats.endTime.GetOr(now)))
  }

  /** An ended session's duration no longer depends on the clock. */
  lemma {:induction false} EndedSessionDuration(stats: SessionStats, now1: Stamp, now2: Stamp)
    requires stats.endTime.Some?
    ensures SessionDuration(stats, now1) == SessionDuration(stats, now2)
  {
  }

  /** `getFlowPercentage`: 0 for a session under half a minute, otherwise the rounded
      share of flow minutes. */
  function FlowPercentage(flowMinutes: int, duration: int): (p: int)
    ensures duration == 0 ==> p == 0
    ensures duration > 0 && 0 <= flowMinutes <= duration ==> 0 <= p <= 100
    ensures duration > 0 ==>
      (p as real - 0.5) * duration as real <= flowMinutes as real * 100.0 < (p as real + 0.5) * duration as real
  {
    if duration == 0 then 0
    else
      var share := flowMinutes as real / duration as real * 100.0;
      ShareBracket(flowMinutes, duration, share, JsRound(share));
      JsRound(share)
  }

  /** The rounded share brackets the flow minutes: within half a percent of the duration. */
  lemma ShareBracket(flowMinutes: int, duration: int, share: real, n: int)
    requires duration != 0 && share == flowMinutes as real / duration as real * 100.0
    requires share - 0.5 < n as real <= share + 0.5
    ensures 0 <= flowMinutes <= duration ==> 0.0 <= share <= 100.0
    ensures duration > 0 ==> (n as real - 0.5) * duration as real <= flowMinutes as real * 100.0
    ensures duration > 0 ==> flowMinutes as real * 100.0 < (n as real + 0.5) * duration as real
  {
    var d, f := duration as real, flowMinutes as real;
    var q := f / d;
    assert q * d == f;
    assert share * d == f * 100.0;
    if duration > 0 {
      ScaledBracket(share, d, f * 100.0, n as real);
      if 0 <= flowMinutes <= duration {
        if q < 0.0 {
          PositiveProduct(-q, d);
        }
        if q > 1.0 {
          PositiveProduct(q - 1.0, d);
        }
      }
    }
  }

  /** Scaling a half-unit bracket by a positive factor. */
  lemma ScaledBracket(x: real, c: real, xc: real, m: real)
    requires c > 0.0 && x * c == xc && x - 0.5 < m <= x + 0.5
    ensures (m - 0.5) * c <= xc < (m + 0.5) * c
  {
    var above, below := m + 0.5 - x, x - (m - 0.5);
    assert (m + 0.5) * c - xc == above * c;
    assert xc - (m - 0.5) * c == below * c;
    PositiveProduct(above, c);
    PositiveProduct(below, c);
  }

  lemma PositiveProduct(a: real, c: real)
    requires a >= 0.0 && c > 0.0
    ensures a * c >= 0.0
    ensures a > 0.0 ==> a * c > 0.0
  {
  }

  /** The sign before the words added: '+' exactly for a positive count. */
  function WordsAddedPrefix(wordCount: int): (p: string)
    ensures p == "+" <==> wordCount > 0
    ensures p != "+" ==> p == ""
  {
    if wordCount > 0 then "+" else ""
  }

  /** The card's state. */
  class Insights {
    var showInsights: bool
    var flowMinutes: int

    constructor ()
      ensures !showInsights && flowMinutes == 0
    {
      showInsights := false;
      flowMinutes := 0;
    }

    /** The effect on the session, the vibe and the card's own visibility: nothing
        without a session; otherwise the flow minutes are refreshed and the card is shown
        once the session is five minutes old. */
    method Refresh(stats: Option<SessionStats>, vibe: Option<VibeAnalysis>, now: Stamp)
      modifies this
      ensures stats.None? ==> showInsights == old(showInsights) && flowMinutes == old(flowMinutes)
      ensures stats.Some? ==> flowMinutes == FlowMinutes(stats.value, vibe)
      ensures stats.Some? ==> showInsights == (old(showInsights) || Minutes(stats.value.startTime, now) >= 5.0)
    {
      if stats.None? {
        return;
      }
      var flowTime := if vibe.Some? && vibe.value.score > 0.2 then stats.value.flowDuration + 1.0
                      else stats.value.flowDuration;
      flowMinutes := JsRound(flowTime);
      if Minutes(stats.value.startTime, now) >= 5.0 && !showInsights {
        showInsights := true;
      }
    }

    /** The close button. Because the card's visibility is one of the effect's inputs,
        the effect runs again right after and, five minutes into a session, shows the
        card again. */
    method Close(stats: Option<SessionStats>, vibe: Option<VibeAnalysis>, now: Stamp)
      modifies this
      ensures stats.Some? ==> showInsights == (Minutes(stats.value.startTime, now) >= 5.0)
      ensures stats.Some? ==> flowMinutes == FlowMinutes(stats.value, vibe)
      ensures stats.None? ==> !showInsights && flowMinutes == old(flowMinutes)
    {
      showInsights := false;
      Refresh(stats, vibe, now);
    }
  }
}
