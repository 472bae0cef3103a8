/** The weighted risk score of a fraud submission
    (supabase/functions/analyze-submission/index.ts:110-121): four sub-scores
    from 0 to 100 weighted 35/25/30/10 percent, rounded, and put on the same
    75/50/25 ladder as the cluster analyzer, under shorter names. */
module Submission {
  import opened Tiers
  import Analyzer

  /** `Math.round(0.35 t + 0.25 c + 0.30 n + 0.10 f)` (lines 111-116) in exact
      arithmetic: the nearest integer to the weighted sum, halves going up. */
  function RiskScore(t: int, c: int, n: int, f: int): (r: int)
    ensures 100 * r - 50 <= 35 * t + 25 * c + 30 * n + 10 * f < 100 * r + 50
  {
    (35 * t + 25 * c + 30 * n + 10 * f + 50) / 100
  }

  /** Lines 118-121. */
  function Classify(score: int): string
  {
    if score >= 75 then "Critical"
    else if score >= 50 then "High"
    else if score >= 25 then "Moderate"
    else "Low"
  }

  /** The weights add up to one, so sub-scores in 0..100 give a score in
      0..100 without any clamp. */
  lemma RiskScoreBounds(t: int, c: int, n: int, f: int)
    requires 0 <= t <= 100 && 0 <= c <= 100 && 0 <= n <= 100 && 0 <= f <= 100
    ensures 0 <= RiskScore(t, c, n, f) <= 100
  {
  }

  /** Raising sub-scores never lowers the score or its tier. */
  lemma RiskScoreMonotone(t: int, c: int, n: int, f: int, t': int, c': int, n': int, f': int)
    requires t <= t' && c <= c' && n <= n' && f <= f'
    ensures RiskScore(t, c, n, f) <= RiskScore(t', c', n', f')
    ensures Rank(TierOf(RiskScore(t, c, n, f))) <= Rank(TierOf(RiskScore(t', c', n', f')))
  {
    TierMonotone(RiskScore(t, c, n, f), RiskScore(t', c', n', f'));
  }

  /** Four equal sub-scores give that score back. */
  lemma RiskScoreUniform(s: int)
    ensures RiskScore(s, s, s, s) == s
  {
  }

  /** The classification is the name of the score's tier. */
  lemma ClassifyIsTier(score: int)
    ensures Classify(score) == TierName(TierOf(score))
  {
  }

  /** For the same score the two scorers agree up to the " anomaly" suffix. */
  lemma SameLadder(score: int)
    ensures Analyzer.Classification(score) == Classify(score) + " anomaly"
  {
    Analyzer.ClassificationIsTier(score);
    ClassifyIsTier(score);
  }

  /** Sub-scores 80, 80, 80 and 0 weigh in at 72, which is High. */
  lemma HighExample()
    ensures RiskScore(80, 80, 80, 0) == 72 && Classify(72) == "High"
  {
  }
}
