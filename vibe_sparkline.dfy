/** The sparkline of the recent vibe history (src/components/VibeSparkline.tsx): the ten
    newest scores turned oldest-first, and where and in which colour each is drawn on a
    canvas of a given size. The drawing calls are left out. */
module VibeSparkline {
  import opened Types

  const MaxPoints := 10
  const Padding := 10.0

  /** `history.slice(0, 10).map(r => r.score).reverse()`: the history is newest first. */
  function Scores(history: seq<VibeRecord>): (s: seq<real>)
    ensures |s| == if |history| < MaxPoints then |history| else MaxPoints
    ensures forall i :: 0 <= i < |s| ==> s[i] == history[|s| - 1 - i].score
  {
    var n := if |history| < MaxPoints then |history| else MaxPoints;
    seq(n, i requires 0 <= i < n => history[n - 1 - i].score)
  }

  /** The last plotted score is the newest record's, and the first the oldest of the ten. */
  lemma {:induction false} NewestLast(history: seq<VibeRecord>)
    requires history != []
    ensures var s := Scores(history);
      s[|s| - 1] == history[0].score && s[0] == history[|s| - 1].score
  {
  }

  /** The vertical position of a score: 0 on the midline, 1 on the top padding and -1 on
      the bottom one. */
  function Y(score: real, height: real): (y: real)
    ensures score == 0.0 ==> y == height / 2.0
    ensures score == 1.0 ==> y == Padding
    ensures score == -1.0 ==> y == height - Padding
  {
    var innerHeight := height - 2.0 * Padding;
    Padding + innerHeight / 2.0 - score * (innerHeight / 2.0)
  }

  /** The horizontal position of the point at `index` among `n`: a single point is
      centred, several are spread evenly between the paddings. */
  function X(index: nat, n: nat, width: real): real {
    var innerWidth := width - 2.0 * Padding;
    if n == 1 then width / 2.0
    else Padding + index as real * (if n > 1 then innerWidth / (n - 1) as real else innerWidth)
  }

  lemma {:induction false} XEnds(n: nat, width: real)
    requires n > 1
    ensures X(0, n, width) == Padding && X(n - 1, n, width) == width - Padding
  {
    var innerWidth := width - 2.0 * Padding;
    assert (n - 1) as real * (innerWidth / (n - 1) as real) == innerWidth;
  }

  datatype Dot = Dot(x: real, y: real, positive: bool)

  /** The dots drawn for a history: none for an empty one. */
  function Dots(history: seq<VibeRecord>, width: real, height: real): (d: seq<Dot>)
    ensures |d| == |Scores(history)|
    ensures history == [] <==> d == []
    ensures forall i :: 0 <= i < |d| ==> (d[i].positive <==> Scores(history)[i] >= 0.0)
    ensures forall i :: 0 <= i < |d| ==>
      d[i] == Dot(X(i, |d|, width), Y(Scores(history)[i], height), Scores(history)[i] >= 0.0)
  {
    var s := Scores(history);
    seq(|s|, i requires 0 <= i < |s| => Dot(X(i, |s|, width), Y(s[i], height), s[i] >= 0.0))
  }

  /** A history of one record draws one centred dot at its score's height. */
  lemma {:induction false} SingleDot(r: VibeRecord, width: real, height: real)
    ensures Dots([r], width, height) == [Dot(width / 2.0, Y(r.score, height), r.score >= 0.0)]
  {
    assert Scores([r]) == [r.score];
  }
}
