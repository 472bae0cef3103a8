/** Detector 2, repetition
    (supabase/functions/analyze-micro-transactions/index.ts:55-71): for each
    ordered pair, the per-bucket counts of its records; the first bucket, in
    insertion order, counted more than 10 times is worth +25 and a
    `repetition` tag, once per pair. */
module Repetitions {
  import opened Wrappers
  import opened Seqs
  import opened Transactions
  import opened Patterns

  /** `repetitionMap[key]`: the bucket names in insertion order and their counts. */
  datatype Tally = Tally(order: seq<Bucket>, counts: map<Bucket, nat>)

  /** The pair key of every record, in record order, with repeats. */
  function AllKeySeq(rs: seq<Record>): seq<string>
  {
    if rs == [] then [] else AllKeySeq(rs[..|rs| - 1]) + [KeyOf(rs[|rs| - 1])]
  }

  /** The keys of `repetitionMap`, in insertion order. */
  function RepKeys(rs: seq<Record>): seq<string>
  {
    Dedup(AllKeySeq(rs))
  }

  /** The buckets of the records whose pair key is `k`, in record order. */
  function BucketSeq(rs: seq<Record>, k: string): seq<Bucket>
  {
    if rs == [] then []
    else
      var r := rs[|rs| - 1];
      BucketSeq(rs[..|rs| - 1], k) + (if KeyOf(r) == k then [r.amount] else [])
  }

  /** The keys of `repetitionMap[k]`, in insertion order. */
  function RepBuckets(rs: seq<Record>, k: string): seq<Bucket>
  {
    Dedup(BucketSeq(rs, k))
  }

  /** How many records of `rs` have pair key `k` and bucket `b`. */
  function Count(rs: seq<Record>, k: string, b: Bucket): nat
  {
    if rs == [] then 0
    else
      var r := rs[|rs| - 1];
      Count(rs[..|rs| - 1], k, b) + (if KeyOf(r) == k && r.amount == b then 1 else 0)
  }

  /** The first bucket of `bs` that pair `k` uses more than 10 times. */
  function FirstHeavy(rs: seq<Record>, k: string, bs: seq<Bucket>): Option<Bucket>
  {
    if bs == [] then None
    else if Count(rs, k, bs[0]) > 10 then Some(bs[0])
    else FirstHeavy(rs, k, bs[1..])
  }

  /** The tag of pair `k`, if it has one. */
  function TagFor(rs: seq<Record>, k: string): seq<Pattern>
  {
    var h := FirstHeavy(rs, k, RepBuckets(rs, k));
    if h.None? then [] else [Repetition(k, h.value, Count(rs, k, h.value))]
  }

  /** The tags for the pairs `ks`, in key order. */
  function RepTags(rs: seq<Record>, ks: seq<string>): seq<Pattern>
  {
    if ks == [] then [] else RepTags(rs, ks[..|ks| - 1]) + TagFor(rs, ks[|ks| - 1])
  }

  /** The repetition tags of a batch, in the key order of `repetitionMap`. */
  function RepetitionTags(rs: seq<Record>): seq<Pattern>
  {
    RepTags(rs, RepKeys(rs))
  }

  /** `t` is `repetitionMap[k]` after the records `rs`. */
  predicate TallyMatches(t: Tally, rs: seq<Record>, k: string)
  {
    && t.order == RepBuckets(rs, k)
    && (forall b :: b in t.counts <==> b in t.order)
    && (forall b :: b in t.counts ==> t.counts[b] == Count(rs, k, b))
  }

  // ---------------------------------------------------------------------------
  // Facts about the specification

  /** The first heavy bucket is heavy and every bucket before it is not; there
      is none exactly when no bucket is heavy. */
  lemma {:induction false} FirstHeavySpec(rs: seq<Record>, k: string, bs: seq<Bucket>)
    ensures FirstHeavy(rs, k, bs).None? <==> forall b :: b in bs ==> Count(rs, k, b) <= 10
    ensures FirstHeavy(rs, k, bs).Some? ==>
      exists j :: 0 <= j < |bs| && bs[j] == FirstHeavy(rs, k, bs).value && Count(rs, k, bs[j]) > 10
        && forall j' :: 0 <= j' < j ==> Count(rs, k, bs[j']) <= 10
  {
    if bs != [] {
      var tail := bs[1..];
      FirstHeavySpec(rs, k, tail);
      assert forall b :: b in bs <==> b == bs[0] || b in tail;
      assert bs[0] in bs;
      if Count(rs, k, bs[0]) <= 10 && FirstHeavy(rs, k, tail).Some? {
        var j :| 0 <= j < |tail| && tail[j] == FirstHeavy(rs, k, tail).value && Count(rs, k, tail[j]) > 10
          && forall j' :: 0 <= j' < j ==> Count(rs, k, tail[j']) <= 10;
        assert bs[j + 1] == tail[j];
        forall j' | 0 <= j' < j + 1 ensures Count(rs, k, bs[j']) <= 10 {
          if j' > 0 {
            assert bs[j'] == tail[j' - 1];
          }
        }
      }
    }
  }

  lemma {:induction false} BucketSeqMembership(rs: seq<Record>, k: string, b: Bucket)
    ensures b in BucketSeq(rs, k) <==> Count(rs, k, b) > 0
  {
    if rs != [] {
      BucketSeqMembership(rs[..|rs| - 1], k, b);
    }
  }

  lemma {:induction false} BucketSeqEmpty(rs: seq<Record>, k: string)
    ensures BucketSeq(rs, k) == [] <==> k !in AllKeySeq(rs)
  {
    if rs != [] {
      BucketSeqEmpty(rs[..|rs| - 1], k);
    }
  }

  lemma {:induction false} CountBound(rs: seq<Record>, k: string, b: Bucket)
    ensures Count(rs, k, b) <= |rs|
  {
    if rs != [] {
      CountBound(rs[..|rs| - 1], k, b);
    }
  }

  lemma {:induction false} RepTagsMembership(rs: seq<Record>, ks: seq<string>, k: string)
    ensures (exists p :: p in RepTags(rs, ks) && p.Repetition? && p.pair == k)
      <==> k in ks && FirstHeavy(rs, k, RepBuckets(rs, k)).Some?
    ensures forall p :: p in RepTags(rs, ks) ==>
      && p.Repetition? && p.pair in ks
      && p.count == Count(rs, p.pair, p.bucket)
      && FirstHeavy(rs, p.pair, RepBuckets(rs, p.pair)) == Some(p.bucket)
  {
    if ks != [] {
      var ks' := ks[..|ks| - 1];
      RepTagsMembership(rs, ks', k);
      assert ks == ks' + [ks[|ks| - 1]];
    }
  }

  lemma {:induction false} RepTagsShape(rs: seq<Record>, ks: seq<string>)
    requires Distinct(ks)
    ensures Distinct(RepTags(rs, ks))
    ensures Points(RepTags(rs, ks)) == 25 * |RepTags(rs, ks)|
  {
    if ks != [] {
      var ks' := ks[..|ks| - 1];
      var k := ks[|ks| - 1];
      RepTagsShape(rs, ks');
      RepTagsMembership(rs, ks', k);
      var ts', tf := RepTags(rs, ks'), TagFor(rs, k);
      PointsAppend(ts', tf);
      if tf != [] {
        assert k !in ks';
        DistinctSnoc(ts', tf[0]);
        assert Points(tf) == Points([] + [tf[0]]);
        assert tf == [tf[0]];
      } else {
        assert ts' + tf == ts';
      }
    }
  }

  /** A pair gets a repetition tag exactly when some bucket occurs more than 10
      times on it. */
  lemma RepetitionIff(rs: seq<Record>, k: string)
    ensures (exists p :: p in RepetitionTags(rs) && p.Repetition? && p.pair == k)
      <==> exists b :: Count(rs, k, b) > 10
  {
    var ks := RepKeys(rs);
    RepTagsMembership(rs, ks, k);
    FirstHeavySpec(rs, k, RepBuckets(rs, k));
    if b :| Count(rs, k, b) > 10 {
      BucketSeqMembership(rs, k, b);
      BucketSeqEmpty(rs, k);
    }
    if k in ks && FirstHeavy(rs, k, RepBuckets(rs, k)).Some? {
      var b := FirstHeavy(rs, k, RepBuckets(rs, k)).value;
      assert b in RepBuckets(rs, k);
    }
  }

  /** Every repetition tag carries its pair's exact count for the bucket, which
      is over 10, and that bucket is the first one, in order of first
      appearance on the pair, to be over 10; no pair is tagged twice. */
  lemma RepetitionTagsShape(rs: seq<Record>)
    ensures forall p :: p in RepetitionTags(rs) ==>
      && p.Repetition?
      && p.count == Count(rs, p.pair, p.bucket) > 10
      && exists j :: 0 <= j < |RepBuckets(rs, p.pair)| && RepBuckets(rs, p.pair)[j] == p.bucket
           && forall j' :: 0 <= j' < j ==> Count(rs, p.pair, RepBuckets(rs, p.pair)[j']) <= 10
    ensures Distinct(RepetitionTags(rs))
    ensures Points(RepetitionTags(rs)) == 25 * |RepetitionTags(rs)|
  {
    var ks := RepKeys(rs);
    RepTagsMembership(rs, ks, "");
    RepTagsShape(rs, ks);
    forall p | p in RepetitionTags(rs)
      ensures exists j ::
        && 0 <= j < |RepBuckets(rs, p.pair)| && RepBuckets(rs, p.pair)[j] == p.bucket
        && Count(rs, p.pair, p.bucket) > 10
        && forall j' :: 0 <= j' < j ==> Count(rs, p.pair, RepBuckets(rs, p.pair)[j']) <= 10
    {
      FirstHeavySpec(rs, p.pair, RepBuckets(rs, p.pair));
    }
  }

  /** A repetition needs at least 11 records. */
  lemma RepetitionNeedsEleven(rs: seq<Record>)
    requires RepetitionTags(rs) != []
    ensures |rs| > 10
  {
    var p := RepetitionTags(rs)[0];
    RepetitionTagsShape(rs);
    CountBound(rs, p.pair, p.bucket);
  }

  /** Detector 2 emits only repetition tags, worth 25 each. */
  lemma RepetitionTagsKind(rs: seq<Record>)
    ensures forall p :: p in RepetitionTags(rs) ==> Stage(p) == 1
    ensures Points(RepetitionTags(rs)) == 25 * |RepetitionTags(rs)|
  {
    RepetitionTagsShape(rs);
  }

  // ---------------------------------------------------------------------------
  // The detector

  lemma RepKeysStep(rs: seq<Record>, i: nat)
    requires i < |rs|
    ensures RepKeys(rs[..i + 1]) == Insert(RepKeys(rs[..i]), KeyOf(rs[i]))
  {
    assert rs[..i + 1][..i] == rs[..i];
    DedupSnoc(AllKeySeq(rs[..i]), KeyOf(rs[i]));
  }

  /** The tally of a pair with no records so far is empty. */
  lemma TallyStart(rs: seq<Record>, k: string)
    requires k !in RepKeys(rs)
    ensures TallyMatches(Tally([], map[]), rs, k)
  {
    BucketSeqEmpty(rs, k);
    forall b ensures Count(rs, k, b) == 0 {
      BucketSeqMembership(rs, k, b);
    }
  }

  lemma CountStep(rs: seq<Record>, i: nat, k: string, b: Bucket)
    requires i < |rs|
    ensures Count(rs[..i + 1], k, b) == Count(rs[..i], k, b) + (if KeyOf(rs[i]) == k && rs[i].amount == b then 1 else 0)
  {
    assert rs[..i + 1][..i] == rs[..i];
  }

  /** Record `rs[i]` adds one to its own pair and bucket, and nothing else. */
  lemma CountsStep(rs: seq<Record>, i: nat)
    requires i < |rs|
    ensures forall b ::
      (Count(rs[..i + 1], KeyOf(rs[i]), b) == Count(rs[..i], KeyOf(rs[i]), b) + (if b == rs[i].amount then 1 else 0))
  {
    var k := KeyOf(rs[i]);
    forall b ensures Count(rs[..i + 1], k, b) == Count(rs[..i], k, b) + (if b == rs[i].amount then 1 else 0) {
      CountStep(rs, i, KeyOf(rs[i]), b);
    }
  }

  lemma BucketsStep(rs: seq<Record>, i: nat)
    requires i < |rs|
    ensures RepBuckets(rs[..i + 1], KeyOf(rs[i])) == Insert(RepBuckets(rs[..i], KeyOf(rs[i])), rs[i].amount)
  {
    var S := BucketSeq(rs[..i], KeyOf(rs[i]));
    assert rs[..i + 1][..i] == rs[..i];
    assert BucketSeq(rs[..i + 1], KeyOf(rs[i])) == S + [rs[i].amount];
    DedupSnoc(S, rs[i].amount);
  }

  /** Record `rs[i]` adds one to a bucket its pair already has. */
  lemma TallyBumpOld(rs: seq<Record>, i: nat, t: Tally)
    requires i < |rs| && TallyMatches(t, rs[..i], KeyOf(rs[i])) && rs[i].amount in t.counts
    ensures TallyMatches(Tally(t.order, t.counts[rs[i].amount := t.counts[rs[i].amount] + 1]),
                         rs[..i + 1], KeyOf(rs[i]))
  {
    var k, b, pre, post := KeyOf(rs[i]), rs[i].amount, rs[..i], rs[..i + 1];
    assert RepBuckets(post, k) == Insert(RepBuckets(pre, k), b) by {
      BucketsStep(rs, i);
    }
    assert forall b' :: b' in t.counts ==> Count(post, k, b') == Count(pre, k, b') + (if b' == b then 1 else 0) by {
      CountsStep(rs, i);
    }
    TallyBump(t, pre, post, k, b);
  }

  /** A bucket `b` already in the tally of `pre`, seen once more by `post`. */
  lemma TallyBump(t: Tally, pre: seq<Record>, post: seq<Record>, k: string, b: Bucket)
    requires TallyMatches(t, pre, k) && b in t.counts
    requires RepBuckets(post, k) == Insert(RepBuckets(pre, k), b)
    requires forall b' :: b' in t.counts ==> Count(post, k, b') == Count(pre, k, b') + (if b' == b then 1 else 0)
    ensures TallyMatches(Tally(t.order, t.counts[b := t.counts[b] + 1]), post, k)
  {
  }

  /** Record `rs[i]` adds a first bucket of its kind to its pair. */
  lemma TallyBumpNew(rs: seq<Record>, i: nat, t: Tally)
    requires i < |rs| && TallyMatches(t, rs[..i], KeyOf(rs[i])) && rs[i].amount !in t.counts
    ensures TallyMatches(Tally(t.order + [rs[i].amount], t.counts[rs[i].amount := 1]),
                         rs[..i + 1], KeyOf(rs[i]))
  {
    var k, b := KeyOf(rs[i]), rs[i].amount;
    var pre, post := rs[..i], rs[..i + 1];
    BucketsStep(rs, i);
    assert Count(pre, k, b) == 0 by {
      BucketSeqMembership(pre, k, b);
    }
    CountStep(rs, i, k, b);
    forall b' | b' in t.counts ensures Count(post, k, b') == Count(pre, k, b') {
      CountStep(rs, i, k, b');
    }
    TallyAdd(t, pre, post, k, b);
  }

  /** A new bucket `b` seen once by `post` joins the tally of `pre` last, with count 1. */
  lemma TallyAdd(t: Tally, pre: seq<Record>, post: seq<Record>, k: string, b: Bucket)
    requires TallyMatches(t, pre, k) && b !in t.counts
    requires RepBuckets(post, k) == Insert(RepBuckets(pre, k), b) && Count(post, k, b) == 1
    requires forall b' :: b' in t.counts ==> Count(post, k, b') == Count(pre, k, b')
    ensures TallyMatches(Tally(t.order + [b], t.counts[b := 1]), post, k)
  {
  }

  /** Record `rs[i]` leaves the tallies of the other pairs alone. */
  lemma TallyKeep(rs: seq<Record>, i: nat, t: Tally, k: string)
    requires i < |rs| && k != KeyOf(rs[i]) && TallyMatches(t, rs[..i], k)
    ensures TallyMatches(t, rs[..i + 1], k)
  {
    var S := BucketSeq(rs[..i], k);
    assert rs[..i + 1][..i] == rs[..i];
    assert BucketSeq(rs[..i + 1], k) == S + [];
    assert S + [] == S;
  }

  lemma TalliesKeep(rs: seq<Record>, i: nat, tallies: map<string, Tally>)
    requires i < |rs|
    requires forall k :: k in tallies ==> TallyMatches(tallies[k], rs[..i], k)
    ensures forall k :: k in tallies && k != KeyOf(rs[i]) ==> TallyMatches(tallies[k], rs[..i + 1], k)
  {
    forall k | k in tallies && k != KeyOf(rs[i]) ensures TallyMatches(tallies[k], rs[..i + 1], k) {
      TallyKeep(rs, i, tallies[k], k);
    }
  }

  /** Line 60, `ranges[b] = (ranges[b] || 0) + 1`, for the record `rs[i]`. */
  method BumpTally(t: Tally, b: Bucket, ghost rs: seq<Record>, ghost i: nat) returns (t': Tally)
    requires i < |rs| && b == rs[i].amount && TallyMatches(t, rs[..i], KeyOf(rs[i]))
    ensures TallyMatches(t', rs[..i + 1], KeyOf(rs[i]))
  {
    if b in t.counts {
      TallyBumpOld(rs, i, t);
      t' := Tally(t.order, t.counts[b := t.counts[b] + 1]);
    } else {
      TallyBumpNew(rs, i, t);
      t' := Tally(t.order + [b], t.counts[b := 1]);
    }
  }

  /** The body of the loop at lines 57-61 for the record `rs[i]`. */
  method AddToRepetitionMap(keys: seq<string>, tallies: map<string, Tally>, r: Record,
                            ghost rs: seq<Record>, ghost i: nat)
    returns (keys': seq<string>, tallies': map<string, Tally>)
    requires i < |rs| && r == rs[i]
    requires keys == RepKeys(rs[..i])
    requires forall k :: k in tallies <==> k in keys
    requires forall k :: k in tallies ==> TallyMatches(tallies[k], rs[..i], k)
    ensures keys' == RepKeys(rs[..i + 1])
    ensures forall k :: k in tallies' <==> k in keys'
    ensures forall k :: k in tallies' ==> TallyMatches(tallies'[k], rs[..i + 1], k)
  {
    var key := KeyOf(r);
    RepKeysStep(rs, i);
    TalliesKeep(rs, i, tallies);
    keys' := keys;
    var t := Tally([], map[]);
    if key in tallies {
      t := tallies[key];
    } else {
      TallyStart(rs[..i], key);
      keys' := keys + [key];
    }
    t := BumpTally(t, r.amount, rs, i);
    tallies' := tallies[key := t];
  }

  /** Lines 56-61: `repetitionMap`, as its key list in insertion order and the
      tally of each key. */
  method BuildRepetitionMap(rs: seq<Record>) returns (keys: seq<string>, tallies: map<string, Tally>)
    ensures keys == RepKeys(rs)
    ensures forall k :: k in tallies <==> k in keys
    ensures forall k :: k in tallies ==> TallyMatches(tallies[k], rs, k)
  {
    keys, tallies := [], map[];
    for i := 0 to |rs|
      invariant keys == RepKeys(rs[..i])
      invariant forall k :: k in tallies <==> k in keys
      invariant forall k :: k in tallies ==> TallyMatches(tallies[k], rs[..i], k)
    {
      keys, tallies := AddToRepetitionMap(keys, tallies, rs[i], rs, i);
    }
    assert rs[..|rs|] == rs;
  }

  /** The inner loop at lines 64-70: the first bucket, in insertion order,
      counted more than 10 times. */
  method FindHeavy(t: Tally, ghost rs: seq<Record>, ghost k: string) returns (found: Option<Bucket>)
    requires TallyMatches(t, rs, k)
    ensures found == FirstHeavy(rs, k, RepBuckets(rs, k))
  {
    found := None;
    var j := 0;
    while j < |t.order|
      invariant 0 <= j <= |t.order|
      invariant FirstHeavy(rs, k, t.order) == FirstHeavy(rs, k, t.order[j..])
    {
      assert t.order[j..][1..] == t.order[j + 1..];
      var b := t.order[j];
      assert b in t.counts;
      if t.counts[b] > 10 {
        found := Some(b);
        return;
      }
      j := j + 1;
    }
  }

  lemma RepTagsStep(rs: seq<Record>, ks: seq<string>, j: nat, tag: seq<Pattern>)
    requires j < |ks| && tag == TagFor(rs, ks[j])
    ensures RepTags(rs, ks[..j + 1]) == RepTags(rs, ks[..j]) + tag
    ensures tag == [] ==> RepTags(rs, ks[..j + 1]) == RepTags(rs, ks[..j])
  {
    assert ks[..j + 1][..j] == ks[..j];
    assert RepTags(rs, ks[..j]) + [] == RepTags(rs, ks[..j]);
  }

  /** Lines 63-71: for each key of `repetitionMap`, in order, one tag and 25
      points when one of its buckets is counted more than 10 times. */
  method TagRepetitions(rs: seq<Record>, keys: seq<string>, tallies: map<string, Tally>,
                        points: int, patterns: seq<Pattern>)
    returns (points': int, patterns': seq<Pattern>)
    requires forall k :: k in keys ==> k in tallies && TallyMatches(tallies[k], rs, k)
    ensures patterns' == patterns + RepTags(rs, keys)
    ensures points' == points + 25 * |RepTags(rs, keys)|
  {
    points', patterns' := points, patterns;
    for j := 0 to |keys|
      invariant patterns' == patterns + RepTags(rs, keys[..j])
      invariant points' == points + 25 * |RepTags(rs, keys[..j])|
    {
      var key := keys[j];
      var tag := TagPair(tallies[key], rs, key);
      RepTagsStep(rs, keys, j, tag);
      if tag != [] {
        points' := points' + 25;
        patterns' := patterns' + tag;
      }
    }
    assert keys[..|keys|] == keys;
  }

  /** Lines 64-70 for one key: the tag of pair `k` when one of its buckets is
      counted more than 10 times, with that bucket and its count. */
  method TagPair(t: Tally, ghost rs: seq<Record>, k: string) returns (tag: seq<Pattern>)
    requires TallyMatches(t, rs, k)
    ensures tag == TagFor(rs, k)
    ensures |tag| <= 1
  {
    var found := FindHeavy(t, rs, k);
    if found.Some? {
      var b := found.value;
      FirstHeavySpec(rs, k, t.order);
      assert b in t.counts;
      tag := [Repetition(k, b, t.counts[b])];
    } else {
      tag := [];
    }
  }

  /** Lines 55-71. */
  method DetectRepetitions(rs: seq<Record>, points: int, patterns: seq<Pattern>)
    returns (points': int, patterns': seq<Pattern>)
    ensures patterns' == patterns + RepetitionTags(rs)
    ensures points' == points + 25 * |RepetitionTags(rs)|
  {
    var keys, tallies := BuildRepetitionMap(rs);
    points', patterns' := TagRepetitions(rs, keys, tallies, points, patterns);
  }
}
