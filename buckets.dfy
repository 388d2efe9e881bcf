/** The five-bucket score table that several components repeat with their own wording:
    scores at or above 0.5, 0.2, -0.2 and -0.5, and the rest. */
module Buckets {

  datatype Bucket = Inspiring | Engaging | Neutral | Flat | NeedsWork

  function BucketOf(score: real): (b: Bucket)
    ensures b == Inspiring <==> 0.5 <= score
    ensures b == Engaging <==> 0.2 <= score < 0.5
    ensures b == Neutral <==> -0.2 <= score < 0.2
    ensures b == Flat <==> -0.5 <= score < -0.2
    ensures b == NeedsWork <==> score < -0.5
  {
    if score >= 0.5 then Inspiring
    else if score >= 0.2 then Engaging
    else if score >= -0.2 then Neutral
    else if score >= -0.5 then Flat
    else NeedsWork
  }

  /** Position of a bucket on the scale, 4 for the best. */
  function Rank(b: Bucket): nat {
    match b
    case Inspiring => 4
    case Engaging => 3
    case Neutral => 2
    case Flat => 1
    case NeedsWork => 0
  }

  /** A higher score never lands in a lower bucket. */
  lemma BucketMonotone(s: real, t: real)
    requires s <= t
    ensures Rank(BucketOf(s)) <= Rank(BucketOf(t))
  {
  }
}
