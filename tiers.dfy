/** The four risk tiers. The source writes the 75/50/25 ladder out four times
    (two server classifications, two client colour helpers); this module is the
    reference every one of them is proved to follow. */
module Tiers {

  datatype Tier = Low | Moderate | High | Critical

  /** Position of a tier, lowest first. */
  function Rank(t: Tier): nat
  {
    match t
    case Low => 0
    case Moderate => 1
    case High => 2
    case Critical => 3
  }

  /** The name of a tier, as the submission scorer writes it. */
  function TierName(t: Tier): string
  {
    match t
    case Low => "Low"
    case Moderate => "Moderate"
    case High => "High"
    case Critical => "Critical"
  }

  /** How many of the thresholds 25, 50 and 75 a score reaches. */
  function ThresholdsReached(score: int): (n: nat)
    ensures n <= 3
  {
    (if score >= 25 then 1 else 0) + (if score >= 50 then 1 else 0) + (if score >= 75 then 1 else 0)
  }

  /** The tier of a score: the one whose rank is the number of thresholds reached. */
  function TierOf(score: int): (t: Tier)
    ensures Rank(t) == ThresholdsReached(score)
  {
    match ThresholdsReached(score)
    case 0 => Low
    case 1 => Moderate
    case 2 => High
    case 3 => Critical
  }

  /** A higher score never has a lower tier. */
  lemma TierMonotone(a: int, b: int)
    requires a <= b
    ensures Rank(TierOf(a)) <= Rank(TierOf(b))
  {
  }

  /** The boundaries are exactly 25, 50 and 75. */
  lemma TierBoundaries()
    ensures TierOf(24) == Low && TierOf(25) == Moderate
    ensures TierOf(49) == Moderate && TierOf(50) == High
    ensures TierOf(74) == High && TierOf(75) == Critical
  {
  }
}
