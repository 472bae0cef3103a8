/** Detector 4, network isolation
    (supabase/functions/analyze-micro-transactions/index.ts:115-130): when the
    batch names at least three entities, the share of records whose two
    endpoints are both in `allEntities` is compared with 80%; above it the
    batch is worth +30 and a `network_isolation` tag. */
module Isolation {
  import opened Seqs
  import opened Transactions
  import opened Patterns

  /** How many records of `rs` have both endpoints in `group`. */
  function InternalCount(rs: seq<Record>, group: set<Entity>): nat
  {
    if rs == [] then 0
    else
      var r := rs[|rs| - 1];
      InternalCount(rs[..|rs| - 1], group) + (if r.sender in group && r.receiver in group then 1 else 0)
  }

  /** `internalTxns / totalTxns > 0.8` with `totalTxns > 0` (line 126), by
      cross-multiplication. */
  predicate MostlyInternal(internal: nat, total: nat)
  {
    total > 0 && 5 * internal > 4 * total
  }

  /** The isolation tags of a batch: none, or one. */
  function IsolationTags(rs: seq<Record>): seq<Pattern>
  {
    var ents := Entities(rs);
    if |ents| >= 3 && MostlyInternal(InternalCount(rs, set e | e in ents), |rs|) then [NetworkIsolation]
    else []
  }

  lemma {:induction false} InternalCountAll(rs: seq<Record>, group: set<Entity>)
    requires forall r :: r in rs ==> r.sender in group && r.receiver in group
    ensures InternalCount(rs, group) == |rs|
  {
    if rs != [] {
      assert rs[|rs| - 1] in rs;
      InternalCountAll(rs[..|rs| - 1], group);
    }
  }

  /** Every record's endpoints are in `allEntities`, so the ratio is always 1:
      the batch is tagged exactly when it names three or more entities. */
  lemma IsolationIff(rs: seq<Record>)
    ensures IsolationTags(rs) == (if |Entities(rs)| >= 3 then [NetworkIsolation] else [])
    ensures Points(IsolationTags(rs)) == 30 * |IsolationTags(rs)|
  {
    var ents := Entities(rs);
    EntitiesProperties(rs);
    InternalCountAll(rs, set e | e in ents);
    if rs == [] {
      assert ents == [];
    }
    PointsSingle(NetworkIsolation);
  }

  /** Detector 4 emits only the isolation tag, worth 30. */
  lemma IsolationTagsKind(rs: seq<Record>)
    ensures forall p :: p in IsolationTags(rs) ==> Stage(p) == 3
    ensures Points(IsolationTags(rs)) == 30 * |IsolationTags(rs)|
  {
    IsolationIff(rs);
  }

  /** Lines 120-125: counts the records whose endpoints are both members. */
  method CountInternal(rs: seq<Record>, members: set<Entity>) returns (internal: nat)
    ensures internal == InternalCount(rs, members)
  {
    internal := 0;
    for i := 0 to |rs|
      invariant internal == InternalCount(rs[..i], members)
    {
      assert rs[..i + 1][..i] == rs[..i];
      if rs[i].sender in members && rs[i].receiver in members {
        internal := internal + 1;
      }
    }
    assert rs[..|rs|] == rs;
  }

  /** Lines 116-130, given `allEntities` as its insertion order and membership. */
  method DetectIsolation(rs: seq<Record>, order: seq<Entity>, members: set<Entity>, points: int,
                         patterns: seq<Pattern>)
    returns (points': int, patterns': seq<Pattern>)
    requires order == Entities(rs)
    requires forall e :: e in members <==> e in order
    ensures patterns' == patterns + IsolationTags(rs)
    ensures points' == points + 30 * |IsolationTags(rs)|
  {
    points', patterns' := points, patterns;
    if |order| >= 3 {
      var total := |rs|;
      var internal := CountInternal(rs, members);
      assert members == set e | e in order;
      if total > 0 && 5 * internal > 4 * total {
        points' := points' + 30;
        patterns' := patterns' + [NetworkIsolation];
        return;
      }
    }
    assert patterns' + IsolationTags(rs) == patterns';
  }
}
