/** The findings the analyzer reports, the points each one is worth, and the
    tag text the source pushes for each (supabase/functions/analyze-micro-transactions/index.ts). */
module Patterns {
  import opened Transactions
  import opened Strings

  datatype Pattern =
    | DensitySpike(pair: string)
    | Repetition(pair: string, bucket: Bucket, count: nat)
      /** The closed path: start, the entities visited, and start again. */
    | CircularFlow(path: seq<Entity>)
    | NetworkIsolation
    | LegitimacyDampenerApplied

  /** The points a detector adds when it emits the pattern. */
  function Weight(p: Pattern): nat
  {
    match p
    case DensitySpike(_) => 40
    case Repetition(_, _, _) => 25
    case CircularFlow(_) => 60
    case NetworkIsolation => 30
    case LegitimacyDampenerApplied => 0
  }

  /** The additive points of a list of patterns. */
  function Points(ps: seq<Pattern>): nat
  {
    if ps == [] then 0 else Points(ps[..|ps| - 1]) + Weight(ps[|ps| - 1])
  }

  lemma {:induction false} PointsAppend(a: seq<Pattern>, b: seq<Pattern>)
    ensures Points(a + b) == Points(a) + Points(b)
    decreases |b|
  {
    if b != [] {
      var b' := b[..|b| - 1];
      assert (a + b)[..|a + b| - 1] == a + b';
      PointsAppend(a, b');
    } else {
      assert a + b == a;
    }
  }

  lemma PointsSingle(p: Pattern)
    ensures Points([p]) == Weight(p)
  {
    assert [p][..0] == [];
  }

  /** The detector that emits a pattern, in the order the detectors run. */
  function Stage(p: Pattern): nat
  {
    match p
    case DensitySpike(_) => 0
    case Repetition(_, _, _) => 1
    case CircularFlow(_) => 2
    case NetworkIsolation => 3
    case LegitimacyDampenerApplied => 4
  }

  /** How many patterns of `ps` come from detector `k`. */
  function CountStage(ps: seq<Pattern>, k: nat): nat
  {
    if ps == [] then 0
    else CountStage(ps[..|ps| - 1], k) + (if Stage(ps[|ps| - 1]) == k then 1 else 0)
  }

  /** Points are 40 per density spike, 25 per repetition, 60 per circular flow
      and 30 per network isolation. */
  lemma {:induction false} PointsByStage(ps: seq<Pattern>)
    ensures Points(ps) == 40 * CountStage(ps, 0) + 25 * CountStage(ps, 1)
                        + 60 * CountStage(ps, 2) + 30 * CountStage(ps, 3)
  {
    if ps != [] {
      PointsByStage(ps[..|ps| - 1]);
    }
  }

  /** The tags come in the order of the detectors that emitted them. */
  predicate StageSorted(ps: seq<Pattern>)
  {
    forall i, j :: 0 <= i < j < |ps| ==> Stage(ps[i]) <= Stage(ps[j])
  }

  /** Appending the tags of detector `k` to tags from detectors up to `k`
      keeps them in detector order. */
  lemma StageSortedAppend(a: seq<Pattern>, b: seq<Pattern>, k: nat)
    requires StageSorted(a) && forall p :: p in a ==> Stage(p) <= k
    requires forall p :: p in b ==> Stage(p) == k
    ensures StageSorted(a + b) && forall p :: p in a + b ==> Stage(p) <= k
  {
    forall i, j | 0 <= i < j < |a + b| ensures Stage((a + b)[i]) <= Stage((a + b)[j]) {
      if j >= |a| {
        assert (a + b)[j] == b[j - |a|] && b[j - |a|] in b;
        if i < |a| {
          assert (a + b)[i] == a[i] && a[i] in a;
        } else {
          assert (a + b)[i] == b[i - |a|] && b[i - |a|] in b;
        }
      }
    }
  }

  /** The tag string the source pushes onto `detectedPatterns`. */
  function Text(p: Pattern): string
  {
    match p
    case DensitySpike(pair) => "density_spike:" + pair
    case Repetition(pair, b, n) => "repetition:" + pair + ":" + BucketName(b) + "x" + NatToString(n)
    case CircularFlow(path) => "circular_flow:" + Join(path, [Arrow])
    case NetworkIsolation => "network_isolation"
    case LegitimacyDampenerApplied => "legitimacy_dampener_applied"
  }
}
