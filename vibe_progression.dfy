/** The emotional-arc graph of a document's sentences (src/components/VibeProgression.tsx):
    its own wording and colours for the five buckets, the arrow for a sentence's change,
    the coordinates of the plotted points, the hover guard and the trend. Canvas drawing
    and the curve's control points are left out. */
module VibeProgression {
  import opened Types
  import opened Buckets

  function LabelFor(b: Bucket): string {
    match b
    case Inspiring => "Vibing"
    case Engaging => "Flowing"
    case Neutral => "Steady"
    case Flat => "Drifting"
    case NeedsWork => "Struggling"
  }

  function ColorFor(b: Bucket): string {
    match b
    case Inspiring => "#5CCEA7"
    case Engaging => "#60A5FA"
    case Neutral => "#8B8680"
    case Flat => "#E4846B"
    case NeedsWork => "#F87171"
  }

  /** `getVibeLabel` and `getVibeColor`: both if-chains are the shared bucket table. */
  function VibeLabel(score: real): string {
    LabelFor(BucketOf(score))
  }

  function VibeColor(score: real): string {
    ColorFor(BucketOf(score))
  }

  /** Two scores get the same colour exactly when they get the same label. */
  lemma {:induction false} ColorMatchesLabel(s: real, t: real)
    ensures VibeColor(s) == VibeColor(t) <==> VibeLabel(s) == VibeLabel(t)
  {
    var b, c := BucketOf(s), BucketOf(t);
    assert ColorFor(b) == ColorFor(c) ==> b == c by {
      assert ColorFor(Inspiring)[1] == '5' && ColorFor(Engaging)[1] == '6' && ColorFor(Neutral)[1] == '8';
      assert ColorFor(Flat)[1] == 'E' && ColorFor(NeedsWork)[1] == 'F';
    }
    assert LabelFor(b) == LabelFor(c) ==> b == c by {
      assert LabelFor(Inspiring)[0] == 'V' && LabelFor(Engaging)[0] == 'F' && LabelFor(Neutral)[0] == 'S';
      assert LabelFor(Flat)[0] == 'D' && LabelFor(NeedsWork)[0] == 'S';
      assert |LabelFor(Neutral)| == 6 && |LabelFor(NeedsWork)| == 10;
      assert |LabelFor(Engaging)| == 7 && |LabelFor(Flat)| == 8;
    }
  }

  /** `getDeltaSymbol`: flat within 0.05, otherwise up or down by the sign. */
  function DeltaSymbol(delta: real): (s: string)
    ensures s == "→" <==> Abs(delta) < 0.05
    ensures s == "↑" <==> delta >= 0.05
    ensures s == "↓" <==> delta <= -0.05
  {
    if Abs(delta) < 0.05 then "→" else if delta > 0.0 then "↑" else "↓"
  }

  const Padding := 15.0

  datatype Point = Point(x: real, y: real, score: real)

  function Max(a: int, b: int): int {
    if a < b then b else a
  }

  /** The horizontal position of the sentence at `index` among `n`: spread evenly over
      the width between the paddings. */
  function XAt(index: nat, n: nat, width: real): real {
    Padding + (index as real / Max(1, n - 1) as real) * (width - 2.0 * Padding)
  }

  /** The vertical position of a score: 1 on top, -1 at the bottom. */
  function YAt(score: real, height: real): real {
    Padding + (1.0 - (score + 1.0) / 2.0) * (height - 2.0 * Padding)
  }

  function PointAt(index: nat, n: nat, score: real, width: real, height: real): Point {
    Point(XAt(index, n, width), YAt(score, height), score)
  }

  /** The `forEach` that pushes one point per sentence. */
  method ComputePoints(sentences: seq<SentenceVibe>, width: real, height: real) returns (points: seq<Point>)
    ensures |points| == |sentences|
    ensures forall i :: 0 <= i < |points| ==>
      points[i] == PointAt(i, |sentences|, sentences[i].score, width, height)
  {
    points := [];
    var index := 0;
    while index < |sentences|
      invariant index <= |sentences| && |points| == index
      invariant forall i :: 0 <= i < index ==> points[i] == PointAt(i, |sentences|, sentences[i].score, width, height)
    {
      var graphWidth := width - 2.0 * Padding;
      var graphHeight := height - 2.0 * Padding;
      var x := Padding + (index as real / Max(1, |sentences| - 1) as real) * graphWidth;
      var y := Padding + (1.0 - (sentences[index].score + 1.0) / 2.0) * graphHeight;
      points := points + [Point(x, y, sentences[index].score)];
      index := index + 1;
    }
  }

  /** A score in [-1, 1] lands between the paddings, 1 on the top line and -1 on the
      bottom one; a higher score is drawn higher up. */
  lemma {:induction false} PointHeight(s: real, t: real, height: real)
    requires -1.0 <= s <= t <= 1.0 && height >= 2.0 * Padding
    ensures Padding <= YAt(s, height) <= height - Padding
    ensures YAt(1.0, height) == Padding && YAt(-1.0, height) == height - Padding
    ensures YAt(t, height) <= YAt(s, height)
  {
    var g := height - 2.0 * Padding;
    var fs, ft := 1.0 - (s + 1.0) / 2.0, 1.0 - (t + 1.0) / 2.0;
    assert 0.0 <= ft <= fs <= 1.0;
    ScaleMonotone(0.0, ft, g);
    ScaleMonotone(ft, fs, g);
    ScaleMonotone(fs, 1.0, g);
  }

  /** The first sentence sits on the left padding and, with two or more, the last one on
      the right padding. */
  lemma {:induction false} PointEnds(n: nat, width: real)
    requires n >= 2
    ensures XAt(0, n, width) == Padding
    ensures XAt(n - 1, n, width) == width - Padding
  {
    var d := Max(1, n - 1) as real;
    assert d == (n - 1) as real;
    assert (n - 1) as real / d == 1.0;
  }

  /** Sentences are drawn left to right in their order. */
  lemma {:induction false} PointOrder(i: nat, j: nat, n: nat, width: real)
    requires i <= j && width >= 2.0 * Padding
    ensures XAt(i, n, width) <= XAt(j, n, width)
  {
    var d := Max(1, n - 1) as real;
    QuotientMonotone(i as real, j as real, d);
    ScaleMonotone(i as real / d, j as real / d, width - 2.0 * Padding);
  }

  lemma {:induction false} ScaleMonotone(x: real, y: real, g: real)
    requires x <= y && g >= 0.0
    ensures x * g <= y * g
  {
    assert (y - x) * g >= 0.0;
  }

  lemma {:induction false} QuotientMonotone(x: real, y: real, d: real)
    requires x <= y && d > 0.0
    ensures x / d <= y / d
  {
    var q := (y - x) / d;
    assert q * d == y - x;
    assert q >= 0.0;
    assert y / d - x / d == q;
  }

  /** The sentence under the cursor: `Math.round(progress * max(0, n - 1))`. */
  function HoverIndex(progress: real, n: nat): int {
    JsRound(progress * Max(0, n - 1) as real)
  }

  /** The graph's hover state. */
  class Graph {
    var hovered: Option<nat>
    var showTooltip: bool

    constructor ()
      ensures hovered.None? && !showTooltip
    {
      hovered := None;
      showTooltip := false;
    }

    predicate HoverValid(n: nat)
      reads this
    {
      hovered.Some? ==> hovered.value < n
    }

    /** The cursor moved to `progress` of the width: only an index of a sentence is
        taken. */
    method MouseMove(progress: real, n: nat)
      modifies this
      ensures var i := HoverIndex(progress, n);
        (0 <= i < n ==> hovered == Some(i as nat) && showTooltip)
        && (!(0 <= i < n) ==> hovered == old(hovered) && showTooltip == old(showTooltip))
      ensures old(HoverValid(n)) ==> HoverValid(n)
    {
      var index := HoverIndex(progress, n);
      if index >= 0 && index < n {
        hovered := Some(index as nat);
        showTooltip := true;
      }
    }

    method MouseLeave()
      modifies this
      ensures hovered.None? && !showTooltip
    {
      hovered := None;
      showTooltip := false;
    }
  }

  /** A cursor inside the canvas always finds a sentence when there is one. */
  lemma {:induction false} InsideCanvasHits(progress: real, n: nat)
    requires 0.0 <= progress <= 1.0 && n > 0
    ensures 0 <= HoverIndex(progress, n) < n
  {
    var m := Max(0, n - 1) as real;
    assert 0.0 <= progress * m <= m;
  }

  datatype Trend = Rising | Falling | Steady

  /** The trend of the last sentence's change; a single sentence is steady. */
  function TrendOf(sentences: seq<SentenceVibe>): (t: Trend)
    ensures t == Rising <==> |sentences| > 1 && sentences[|sentences| - 1].delta > 0.0
    ensures t == Falling <==> |sentences| > 1 && sentences[|sentences| - 1].delta < 0.0
  {
    if |sentences| > 1 && sentences[|sentences| - 1].delta > 0.0 then Rising
    else if |sentences| > 1 && sentences[|sentences| - 1].delta < 0.0 then Falling
    else Steady
  }

  /** The score of the "Current" label: the last sentence's, or 0 with none. */
  function CurrentScore(sentences: seq<SentenceVibe>): (r: real)
    ensures sentences == [] ==> r == 0.0
    ensures sentences != [] ==> r == sentences[|sentences| - 1].score
    ensures (forall i :: 0 <= i < |sentences| ==> -1.0 <= sentences[i].score <= 1.0) ==> -1.0 <= r <= 1.0
  {
    if sentences == [] then 0.0 else sentences[|sentences| - 1].score
  }
}
