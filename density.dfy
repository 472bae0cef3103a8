/** Detector 1, micro-transaction density
    (supabase/functions/analyze-micro-transactions/index.ts:28-53): for each
    ordered pair with small transfers, a 24-hour window starting at one of its
    timestamps that holds at least three times the average small count per pair
    is worth +40 and a `density_spike` tag, once per pair. */
module Density {
  import opened Seqs
  import opened Transactions
  import opened Patterns

  /** 24 hours in milliseconds. */
  const DayMs: int := 24 * 60 * 60 * 1000

  /** The pair keys of the small records, in record order, with repeats. */
  function SmallKeySeq(rs: seq<Record>): seq<string>
  {
    if rs == [] then []
    else
      var r := rs[|rs| - 1];
      SmallKeySeq(rs[..|rs| - 1]) + (if r.amount == Small then [KeyOf(r)] else [])
  }

  /** The keys of `pairCounts`, in insertion order. */
  function PairKeys(rs: seq<Record>): seq<string>
  {
    Dedup(SmallKeySeq(rs))
  }

  /** `pairCounts[k].timestamps` before sorting: the timestamps of the small
      records whose pair key is `k`, in record order. */
  function PairTimes(rs: seq<Record>, k: string): seq<int>
  {
    if rs == [] then []
    else
      var r := rs[|rs| - 1];
      PairTimes(rs[..|rs| - 1], k) + (if r.amount == Small && KeyOf(r) == k then [r.timestamp] else [])
  }

  /** The sum of the per-pair small counts over the keys `ks` (the `reduce` at line 39). */
  function SumCounts(rs: seq<Record>, ks: seq<string>): nat
  {
    if ks == [] then 0 else SumCounts(rs, ks[..|ks| - 1]) + |PairTimes(rs, ks[|ks| - 1])|
  }

  /** The number of timestamps in the inclusive window [lo, lo + 24h]. */
  function InWindow(ts: seq<int>, lo: int): (n: nat)
    ensures n <= |ts|
  {
    if ts == [] then 0
    else InWindow(ts[..|ts| - 1], lo) + (if lo <= ts[|ts| - 1] <= lo + DayMs then 1 else 0)
  }

  /** `avgSmall > 0 && inWindow >= avgSmall * 3` for the window starting at
      `ts[i]`, where avgSmall is total / numPairs, compared exactly. */
  predicate SpikeAt(ts: seq<int>, i: nat, numPairs: nat, total: nat)
    requires i < |ts|
  {
    numPairs > 0 && total > 0 && InWindow(ts, ts[i]) * numPairs >= 3 * total
  }

  predicate HasSpike(ts: seq<int>, numPairs: nat, total: nat)
  {
    exists i :: 0 <= i < |ts| && SpikeAt(ts, i, numPairs, total)
  }

  /** The tags for the keys `ks` that have a spike, in key order. */
  function SpikeTags(rs: seq<Record>, ks: seq<string>, numPairs: nat, total: nat): seq<Pattern>
  {
    if ks == [] then []
    else
      var k := ks[|ks| - 1];
      SpikeTags(rs, ks[..|ks| - 1], numPairs, total)
        + (if HasSpike(PairTimes(rs, k), numPairs, total) then [DensitySpike(k)] else [])
  }

  /** The density tags of a batch, in the key order of `pairCounts`. */
  function DensityTags(rs: seq<Record>): seq<Pattern>
  {
    var ks := PairKeys(rs);
    SpikeTags(rs, ks, |ks|, SumCounts(rs, ks))
  }

  // ---------------------------------------------------------------------------
  // Facts about the specification

  lemma SmallKeySeqMembership(rs: seq<Record>, k: string)
    ensures k in SmallKeySeq(rs) <==> exists r :: r in rs && r.amount == Small && KeyOf(r) == k
  {
    if rs != [] {
      SmallKeySeqMembership(rs[..|rs| - 1], k);
      assert rs == rs[..|rs| - 1] + [rs[|rs| - 1]];
    }
  }

  /** A key has timestamps exactly when it is a key of `pairCounts`. */
  lemma {:induction false} PairTimesNonEmpty(rs: seq<Record>, k: string)
    ensures |PairTimes(rs, k)| > 0 <==> k in SmallKeySeq(rs)
  {
    if rs != [] {
      PairTimesNonEmpty(rs[..|rs| - 1], k);
    }
  }

  /** The keys of `pairCounts` are the pair keys of the small records, each once,
      in first-appearance order. */
  lemma PairKeysProperties(rs: seq<Record>)
    ensures forall k :: k in PairKeys(rs) <==> exists r :: r in rs && r.amount == Small && KeyOf(r) == k
    ensures Distinct(PairKeys(rs))
    ensures forall k :: k in PairKeys(rs) ==> |PairTimes(rs, k)| > 0
  {
    forall k ensures k in PairKeys(rs) <==> exists r :: r in rs && r.amount == Small && KeyOf(r) == k {
      SmallKeySeqMembership(rs, k);
    }
    forall k | k in PairKeys(rs) ensures |PairTimes(rs, k)| > 0 {
      PairTimesNonEmpty(rs, k);
    }
  }

  lemma {:induction false} SpikeTagsShape(rs: seq<Record>, ks: seq<string>, numPairs: nat, total: nat)
    ensures var ts := SpikeTags(rs, ks, numPairs, total);
      && |ts| <= |ks|
      && (forall p :: p in ts ==> p.DensitySpike? && p.pair in ks)
      && Points(ts) == 40 * |ts|
  {
    if ks != [] {
      var ks' := ks[..|ks| - 1];
      SpikeTagsShape(rs, ks', numPairs, total);
      var ts' := SpikeTags(rs, ks', numPairs, total);
      var k := ks[|ks| - 1];
      if HasSpike(PairTimes(rs, k), numPairs, total) {
        assert (ts' + [DensitySpike(k)])[..|ts'|] == ts';
        assert Points(ts' + [DensitySpike(k)]) == Points(ts') + 40;
      } else {
        assert ts' + [] == ts';
        assert SpikeTags(rs, ks, numPairs, total) == ts';
      }
    }
  }

  /** A key gets a tag exactly when it has a spike. */
  lemma {:induction false} SpikeTagsMembership(rs: seq<Record>, ks: seq<string>, numPairs: nat, total: nat, k: string)
    ensures DensitySpike(k) in SpikeTags(rs, ks, numPairs, total)
      <==> k in ks && HasSpike(PairTimes(rs, k), numPairs, total)
  {
    if ks != [] {
      SpikeTagsMembership(rs, ks[..|ks| - 1], numPairs, total, k);
      assert ks == ks[..|ks| - 1] + [ks[|ks| - 1]];
    }
  }

  /** Over distinct keys, no pair is tagged twice. */
  lemma {:induction false} SpikeTagsDistinct(rs: seq<Record>, ks: seq<string>, numPairs: nat, total: nat)
    requires Distinct(ks)
    ensures Distinct(SpikeTags(rs, ks, numPairs, total))
  {
    if ks != [] {
      var ks' := ks[..|ks| - 1];
      SpikeTagsDistinct(rs, ks', numPairs, total);
      var k := ks[|ks| - 1];
      SpikeTagsMembership(rs, ks', numPairs, total, k);
    }
  }

  /** A pair gets a density tag exactly when it has small transfers and one of
      its windows holds at least 3 x avgSmall of them; it never gets two. */
  lemma DensitySpikeIff(rs: seq<Record>, k: string)
    ensures DensitySpike(k) in DensityTags(rs) <==>
      && (exists r :: r in rs && r.amount == Small && KeyOf(r) == k)
      && HasSpike(PairTimes(rs, k), |PairKeys(rs)|, SumCounts(rs, PairKeys(rs)))
    ensures Distinct(DensityTags(rs))
    ensures forall p :: p in DensityTags(rs) ==> p.DensitySpike?
    ensures Points(DensityTags(rs)) == 40 * |DensityTags(rs)|
  {
    var ks := PairKeys(rs);
    PairKeysProperties(rs);
    SpikeTagsMembership(rs, ks, |ks|, SumCounts(rs, ks), k);
    SpikeTagsDistinct(rs, ks, |ks|, SumCounts(rs, ks));
    SpikeTagsShape(rs, ks, |ks|, SumCounts(rs, ks));
  }

  /** With small transfers on a single pair the average is that pair's own
      count, which no window can reach three times over: no density tag. */
  lemma SinglePairNeverSpikes(rs: seq<Record>)
    requires |PairKeys(rs)| == 1
    ensures DensityTags(rs) == []
  {
    var ks := PairKeys(rs);
    var k := ks[0];
    PairKeysProperties(rs);
    assert ks[..0] == [];
    var ts := PairTimes(rs, k);
    var total := SumCounts(rs, ks);
    assert ks[..|ks| - 1] == [];
    assert SumCounts(rs, ks) == SumCounts(rs, []) + |PairTimes(rs, ks[0])|;
    assert total == |ts|;
    assert !HasSpike(ts, 1, total) by {
      forall i | 0 <= i < |ts| ensures !SpikeAt(ts, i, 1, total) {
        assert InWindow(ts, ts[i]) <= |ts|;
      }
    }
    assert DensityTags(rs) == SpikeTags(rs, [], 1, total) + [];
  }

  /** Detector 1 emits only density tags, worth 40 each. */
  lemma DensityTagsKind(rs: seq<Record>)
    ensures forall p :: p in DensityTags(rs) ==> Stage(p) == 0
    ensures Points(DensityTags(rs)) == 40 * |DensityTags(rs)|
  {
    DensitySpikeIff(rs, "");
  }

  // ---------------------------------------------------------------------------
  // The detector

  lemma SmallViewStep(rs: seq<Record>, i: nat)
    requires i < |rs|
    ensures rs[i].amount == Small ==> SmallKeySeq(rs[..i + 1]) == SmallKeySeq(rs[..i]) + [KeyOf(rs[i])]
    ensures rs[i].amount != Small ==> SmallKeySeq(rs[..i + 1]) == SmallKeySeq(rs[..i])
    ensures forall k :: rs[i].amount != Small || k != KeyOf(rs[i]) ==> PairTimes(rs[..i + 1], k) == PairTimes(rs[..i], k)
    ensures rs[i].amount == Small ==>
      PairTimes(rs[..i + 1], KeyOf(rs[i])) == PairTimes(rs[..i], KeyOf(rs[i])) + [rs[i].timestamp]
  {
    assert rs[..i + 1][..i] == rs[..i];
    assert SmallKeySeq(rs[..i]) + [] == SmallKeySeq(rs[..i]);
    forall k | rs[i].amount != Small || k != KeyOf(rs[i])
      ensures PairTimes(rs[..i + 1], k) == PairTimes(rs[..i], k)
    {
      assert PairTimes(rs[..i], k) + [] == PairTimes(rs[..i], k);
    }
  }

  /** `data.timestamps.filter((t) => t >= start && t <= windowEnd).length`. */
  method CountInWindow(ts: seq<int>, lo: int) returns (n: nat)
    ensures n == InWindow(ts, lo)
  {
    n := 0;
    for i := 0 to |ts|
      invariant n == InWindow(ts[..i], lo)
    {
      assert ts[..i + 1][..i] == ts[..i];
      if ts[i] >= lo && ts[i] <= lo + DayMs {
        n := n + 1;
      }
    }
    assert ts[..|ts|] == ts;
  }

  /** The loop over window starts at lines 44-52: stops at the first window
      that qualifies. */
  method FindSpike(ts: seq<int>, numPairs: nat, total: nat) returns (found: bool)
    ensures found <==> HasSpike(ts, numPairs, total)
  {
    found := false;
    var i := 0;
    while i < |ts|
      invariant 0 <= i <= |ts|
      invariant !found
      invariant forall j :: 0 <= j < i ==> !SpikeAt(ts, j, numPairs, total)
    {
      var inWindow := CountInWindow(ts, ts[i]);
      if numPairs > 0 && total > 0 && inWindow * numPairs >= 3 * total {
        assert SpikeAt(ts, i, numPairs, total);
        found := true;
        return;
      }
      i := i + 1;
    }
  }

  lemma PairKeysStep(rs: seq<Record>, i: nat)
    requires i < |rs|
    ensures PairKeys(rs[..i + 1])
      == if rs[i].amount == Small then Insert(PairKeys(rs[..i]), KeyOf(rs[i])) else PairKeys(rs[..i])
  {
    SmallViewStep(rs, i);
    if rs[i].amount == Small {
      DedupSnoc(SmallKeySeq(rs[..i]), KeyOf(rs[i]));
    }
  }

  /** One small record of the loop at lines 30-36. */
  lemma PairCountsStepSmall(rs: seq<Record>, i: nat, keys: seq<string>, times: map<string, seq<int>>)
    requires i < |rs| && rs[i].amount == Small
    requires keys == PairKeys(rs[..i]) && (forall k :: k in times <==> k in keys)
    requires forall k :: k in times ==> times[k] == PairTimes(rs[..i], k)
    ensures var key := KeyOf(rs[i]);
      var times' := times[key := (if key in times then times[key] else []) + [rs[i].timestamp]];
      && Insert(keys, key) == PairKeys(rs[..i + 1])
      && (forall k :: k in times' <==> k in Insert(keys, key))
      && (forall k :: k in times' ==> times'[k] == PairTimes(rs[..i + 1], k))
  {
    var key := KeyOf(rs[i]);
    var prev := if key in times then times[key] else [];
    var times' := times[key := prev + [rs[i].timestamp]];
    var keys' := Insert(keys, key);
    PairKeysStep(rs, i);
    SmallViewStep(rs, i);
    assert prev == PairTimes(rs[..i], key) by {
      if key !in times {
        PairTimesNonEmpty(rs[..i], key);
      }
    }
    assert times'[key] == PairTimes(rs[..i + 1], key);
    forall k | k in times' && k != key ensures times'[k] == PairTimes(rs[..i + 1], k) {
      assert times'[k] == times[k];
    }
  }

  /** One record that is not small: `pairCounts` is unchanged. */
  lemma PairCountsStepOther(rs: seq<Record>, i: nat, keys: seq<string>, times: map<string, seq<int>>)
    requires i < |rs| && rs[i].amount != Small
    requires keys == PairKeys(rs[..i]) && (forall k :: k in times <==> k in keys)
    requires forall k :: k in times ==> times[k] == PairTimes(rs[..i], k)
    ensures keys == PairKeys(rs[..i + 1])
    ensures forall k :: k in times ==> times[k] == PairTimes(rs[..i + 1], k)
  {
    PairKeysStep(rs, i);
    SmallViewStep(rs, i);
  }

  /** Lines 29-36: `pairCounts`, as its key list in insertion order and the
      timestamp list of each key. */
  method BuildPairCounts(rs: seq<Record>) returns (keys: seq<string>, times: map<string, seq<int>>)
    ensures keys == PairKeys(rs)
    ensures forall k :: k in times <==> k in keys
    ensures forall k :: k in times ==> times[k] == PairTimes(rs, k)
  {
    keys, times := [], map[];
    for i := 0 to |rs|
      invariant keys == PairKeys(rs[..i])
      invariant forall k :: k in times <==> k in keys
      invariant forall k :: k in times ==> times[k] == PairTimes(rs[..i], k)
    {
      var r := rs[i];
      if r.amount != Small {
        PairCountsStepOther(rs, i, keys, times);
      } else {
        PairCountsStepSmall(rs, i, keys, times);
        var key := KeyOf(r);
        if key !in times {
          keys := keys + [key];
          times := times[key := []];
        }
        times := times[key := times[key] + [r.timestamp]];
      }
    }
    assert rs[..|rs|] == rs;
  }

  /** Lines 38-39: the sum of the per-pair small counts. */
  method SumPairCounts(rs: seq<Record>, keys: seq<string>, times: map<string, seq<int>>) returns (total: nat)
    requires forall k :: k in keys ==> k in times && times[k] == PairTimes(rs, k)
    ensures total == SumCounts(rs, keys)
  {
    total := 0;
    for j := 0 to |keys|
      invariant total == SumCounts(rs, keys[..j])
    {
      assert keys[..j + 1][..j] == keys[..j];
      total := total + |times[keys[j]]|;
    }
    assert keys[..|keys|] == keys;
  }

  lemma SpikeTagsStep(rs: seq<Record>, ks: seq<string>, j: nat, numPairs: nat, total: nat)
    requires j < |ks|
    ensures SpikeTags(rs, ks[..j + 1], numPairs, total) == SpikeTags(rs, ks[..j], numPairs, total)
      + (if HasSpike(PairTimes(rs, ks[j]), numPairs, total) then [DensitySpike(ks[j])] else [])
  {
    assert ks[..j + 1][..j] == ks[..j];
  }

  /** Lines 41-53: for each key of `pairCounts`, in order, one tag and 40
      points when one of its windows qualifies. */
  method TagSpikes(rs: seq<Record>, keys: seq<string>, times: map<string, seq<int>>, numPairs: nat, total: nat,
                   points: int, patterns: seq<Pattern>)
    returns (points': int, patterns': seq<Pattern>)
    requires forall k :: k in keys ==> k in times && times[k] == PairTimes(rs, k)
    ensures patterns' == patterns + SpikeTags(rs, keys, numPairs, total)
    ensures points' == points + 40 * |SpikeTags(rs, keys, numPairs, total)|
  {
    points', patterns' := points, patterns;
    ghost var tags: seq<Pattern> := [];
    for j := 0 to |keys|
      invariant tags == SpikeTags(rs, keys[..j], numPairs, total)
      invariant patterns' == patterns + tags
      invariant points' == points + 40 * |tags|
    {
      var key := keys[j];
      SpikeTagsStep(rs, keys, j, numPairs, total);
      var found := FindSpike(times[key], numPairs, total);
      if found {
        points' := points' + 40;
        patterns' := patterns' + [DensitySpike(key)];
        tags := tags + [DensitySpike(key)];
      }
    }
    assert keys[..|keys|] == keys;
  }

  /** Lines 29-53: builds `pairCounts`, averages, and tags every pair with a
      spike, adding 40 points for each. */
  method DetectDensitySpikes(rs: seq<Record>, points: int, patterns: seq<Pattern>)
    returns (points': int, patterns': seq<Pattern>)
    ensures patterns' == patterns + DensityTags(rs)
    ensures points' == points + 40 * |DensityTags(rs)|
  {
    var keys, times := BuildPairCounts(rs);
    var total := SumPairCounts(rs, keys, times);
    points', patterns' := TagSpikes(rs, keys, times, |keys|, total, points, patterns);
  }
}
