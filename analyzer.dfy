/** `analyzeLocally` (supabase/functions/analyze-micro-transactions/index.ts:18-158):
    the five detectors in order, the dampener, the clamp to [0, 100] and the
    four-tier classification, plus the request check that guards it. */
module Analyzer {
  import opened Wrappers
  import opened Seqs
  import opened Transactions
  import opened Patterns
  import opened Tiers
  import opened Density
  import opened Repetitions
  import opened CircularFlows
  import opened Isolation
  import opened Dampener
  import opened Rounding

  /** The object `analyzeLocally` returns (lines 152-157). */
  datatype Analysis = Analysis(
    score: int,
    classification: string,
    entities: seq<Entity>,
    patterns: seq<Pattern>)

  /** `Math.max(0, Math.min(100, riskPoints))` (line 145). */
  function Clamp(p: int): (s: int)
    ensures 0 <= s <= 100
    ensures 0 <= p <= 100 ==> s == p
    ensures p > 100 ==> s == 100
    ensures p < 0 ==> s == 0
  {
    if p < 0 then 0 else if p > 100 then 100 else p
  }

  /** Lines 147-150. */
  function Classification(score: int): string
  {
    if score >= 75 then "Critical anomaly"
    else if score >= 50 then "High anomaly"
    else if score >= 25 then "Moderate anomaly"
    else "Low anomaly"
  }

  /** The classification is the tier of the score, named with " anomaly" after it. */
  lemma ClassificationIsTier(score: int)
    ensures Classification(score) == TierName(TierOf(score)) + " anomaly"
  {
  }

  /** The tags of the four scoring detectors, in the order they run. */
  function DetectorTags(rs: seq<Record>): seq<Pattern>
  {
    DensityTags(rs) + RepetitionTags(rs) + CycleTags(rs) + IsolationTags(rs)
  }

  /** The result object for the detector tags `tags`, whether the dampener
      fires, and the entity list (lines 133-157). */
  function Assemble(tags: seq<Pattern>, diverse: bool, entities: seq<Entity>): Analysis
  {
    var raw := Points(tags);
    var score := Clamp(if diverse then Dampen(raw) else raw);
    Analysis(score, Classification(score), entities,
             if diverse then tags + [LegitimacyDampenerApplied] else tags)
  }

  /** What `analyzeLocally` returns for the batch `rs`, with the dampener's
      rounding as intended (see `Rounding.Dampen`). */
  function Analyze(rs: seq<Record>): Analysis
  {
    Assemble(DetectorTags(rs), Diverse(rs), Entities(rs))
  }

  // ---------------------------------------------------------------------------
  // Facts about the specification

  /** The points before dampening are the detectors' fixed awards per tag. */
  lemma DetectorPoints(rs: seq<Record>)
    ensures Points(DetectorTags(rs)) ==
      40 * |DensityTags(rs)| + 25 * |RepetitionTags(rs)| + 60 * |CycleTags(rs)| + 30 * |IsolationTags(rs)|
  {
    var d, r, c, i := DensityTags(rs), RepetitionTags(rs), CycleTags(rs), IsolationTags(rs);
    DensityTagsKind(rs);
    RepetitionTagsKind(rs);
    CycleTagsKind(rs);
    IsolationTagsKind(rs);
    PointsAppend(d, r);
    PointsAppend(d + r, c);
    PointsAppend(d + r + c, i);
  }

  /** The four detectors' tags come in detector order. */
  lemma DetectorTagsSorted(rs: seq<Record>)
    ensures StageSorted(DetectorTags(rs)) && forall p :: p in DetectorTags(rs) ==> Stage(p) <= 3
  {
    DensityTagsKind(rs);
    RepetitionTagsKind(rs);
    CycleTagsKind(rs);
    IsolationTagsKind(rs);
    StagesInOrder(DensityTags(rs), RepetitionTags(rs), CycleTags(rs), IsolationTags(rs));
  }

  /** Tags of detectors 1, 2, 3 and 4, one after the other, are in detector order. */
  lemma StagesInOrder(d: seq<Pattern>, r: seq<Pattern>, c: seq<Pattern>, i: seq<Pattern>)
    requires forall p :: p in d ==> Stage(p) == 0
    requires forall p :: p in r ==> Stage(p) == 1
    requires forall p :: p in c ==> Stage(p) == 2
    requires forall p :: p in i ==> Stage(p) == 3
    ensures StageSorted(d + r + c + i) && forall p :: p in d + r + c + i ==> Stage(p) <= 3
  {
    StageSortedAppend([], d, 0);
    assert [] + d == d;
    StageSortedAppend(d, r, 1);
    StageSortedAppend(d + r, c, 2);
    StageSortedAppend(d + r + c, i, 3);
  }

  /** Appending the dampener tag after tags of detectors 1-4 keeps detector
      order, puts it last, and nowhere else. */
  lemma AssembleTags(tags: seq<Pattern>, diverse: bool, entities: seq<Entity>)
    requires StageSorted(tags) && forall p :: p in tags ==> Stage(p) <= 3
    ensures var ps := Assemble(tags, diverse, entities).patterns;
      && StageSorted(ps)
      && (LegitimacyDampenerApplied in ps <==> diverse)
      && (diverse ==> ps[|ps| - 1] == LegitimacyDampenerApplied)
  {
    if diverse {
      StageSortedAppend(tags, [LegitimacyDampenerApplied], 4);
    }
    assert LegitimacyDampenerApplied !in tags by {
      assert Stage(LegitimacyDampenerApplied) == 4;
    }
  }

  /** Tags appear in detector order: density, repetition, circular flow,
      isolation, then the dampener tag, which appears exactly when the batch
      is diverse, and then last. */
  lemma TagsInDetectorOrder(rs: seq<Record>)
    ensures var ps := Analyze(rs).patterns;
      && StageSorted(ps)
      && (LegitimacyDampenerApplied in ps <==> Diverse(rs))
      && (Diverse(rs) ==> ps[|ps| - 1] == LegitimacyDampenerApplied)
  {
    DetectorTagsSorted(rs);
    AssembleTags(DetectorTags(rs), Diverse(rs), Entities(rs));
  }

  /** The score is the clamp of the points the tags award, cut to seventy
      percent (rounded half up) when the dampener tag is present, and the
      classification is its tier. */
  lemma AssembleScore(tags: seq<Pattern>, diverse: bool, entities: seq<Entity>)
    requires forall p :: p in tags ==> Stage(p) <= 3
    ensures var a := Assemble(tags, diverse, entities);
      var raw := 40 * CountStage(a.patterns, 0) + 25 * CountStage(a.patterns, 1)
               + 60 * CountStage(a.patterns, 2) + 30 * CountStage(a.patterns, 3);
      && 0 <= a.score <= 100
      && a.score == Clamp(if LegitimacyDampenerApplied in a.patterns then Dampen(raw) else raw)
      && a.classification == TierName(TierOf(a.score)) + " anomaly"
  {
    PointsByStage(tags);
    ClassificationIsTier(Assemble(tags, diverse, entities).score);
    assert LegitimacyDampenerApplied !in tags by {
      assert Stage(LegitimacyDampenerApplied) == 4;
    }
    if diverse {
      DampenerTagCountsNothing(tags);
    }
  }

  /** The dampener tag adds to none of the four detectors' counts. */
  lemma DampenerTagCountsNothing(tags: seq<Pattern>)
    ensures var ps := tags + [LegitimacyDampenerApplied];
      && CountStage(ps, 0) == CountStage(tags, 0) && CountStage(ps, 1) == CountStage(tags, 1)
      && CountStage(ps, 2) == CountStage(tags, 2) && CountStage(ps, 3) == CountStage(tags, 3)
  {
    var ps := tags + [LegitimacyDampenerApplied];
    assert ps[..|ps| - 1] == tags;
  }

  /** The score of a batch: 40 per density spike, 25 per repetition, 60 per
      circular flow and 30 for isolation, cut to seventy percent when the
      dampener fires, then clamped to [0, 100]; the classification is the
      score's tier. */
  lemma ScoreFromDetectors(rs: seq<Record>)
    ensures var a := Analyze(rs);
      var raw := 40 * |DensityTags(rs)| + 25 * |RepetitionTags(rs)| + 60 * |CycleTags(rs)| + 30 * |IsolationTags(rs)|;
      && 0 <= a.score <= 100
      && a.score == Clamp(if Diverse(rs) then Dampen(raw) else raw)
      && a.classification == TierName(TierOf(a.score)) + " anomaly"
  {
    DetectorPoints(rs);
    ClassificationIsTier(Analyze(rs).score);
  }

  /** `entities_involved` lists every sender and receiver exactly once, in
      order of first appearance, sender before receiver. */
  lemma EntitiesInvolved(rs: seq<Record>)
    ensures var es := Analyze(rs).entities;
      && (forall e :: e in es <==> exists r :: r in rs && (r.sender == e || r.receiver == e))
      && Distinct(es)
      && forall i, j :: 0 <= i < j < |es| ==> FirstIndex(Endpoints(rs), es[i]) < FirstIndex(Endpoints(rs), es[j])
  {
    AssembleEntities(DetectorTags(rs), Diverse(rs), Entities(rs));
    EntitiesProperties(rs);
  }

  lemma AssembleEntities(tags: seq<Pattern>, diverse: bool, entities: seq<Entity>)
    ensures Assemble(tags, diverse, entities).entities == entities
  {
  }

  /** An entity with more than six partners shares the batch with them, so a
      dampened batch names at least seven entities and is always tagged
      `network_isolation`. */
  lemma DiverseIsIsolated(rs: seq<Record>)
    requires Diverse(rs)
    ensures IsolationTags(rs) == [NetworkIsolation]
  {
    var es := Entities(rs);
    var j :| 0 <= j < |es| && |Partners(rs, es[j])| > 6;
    var n := es[j];
    EntitiesProperties(rs);
    assert Partners(rs, n) <= set e | e in es by {
      forall m | m in Partners(rs, n) ensures m in es {
        PartnersMembership(rs, n, m);
      }
    }
    SubsetCard(Partners(rs, n), set e | e in es);
    ElementsCard(es);
    IsolationIff(rs);
  }

  /** Line 141 as written, with the binary64 product, gives every batch the
      score `Analyze` gives it: the totals where the two roundings part are
      never reached, or are clamped to 100 either way. */
  lemma ScoreAsWritten(rs: seq<Record>)
    ensures Analyze(rs).score ==
      Clamp(if Diverse(rs) then DampenAsWritten(Points(DetectorTags(rs))) else Points(DetectorTags(rs)))
  {
    var raw := Points(DetectorTags(rs));
    assert Analyze(rs).score == Clamp(if Diverse(rs) then Dampen(raw) else raw);
    if Diverse(rs) {
      DiverseIsIsolated(rs);
      DetectorPoints(rs);
      ClampedAlike(raw, |DensityTags(rs)|, |RepetitionTags(rs)|, |CycleTags(rs)|);
    }
  }

  lemma ClampedAlike(p: nat, a: nat, b: nat, c: nat)
    requires p == 40 * a + 25 * b + 60 * c + 30 * |[NetworkIsolation]|
    ensures Clamp(Dampen(p)) == Clamp(DampenAsWritten(p))
  {
    assert p == 30 + 40 * a + 25 * b + 60 * c;
    DampenedTotals(a, b, c);
  }

  // ---------------------------------------------------------------------------
  // The imperative analysis

  /** Lines 18-158: runs the detectors in the source's order over one batch. */
  method AnalyzeLocally(rs: seq<Record>) returns (a: Analysis)
    ensures a == Analyze(rs)
  {
    var points: int := 0;
    var patterns: seq<Pattern> := [];
    var order, members := CollectEntities(rs);
    points, patterns := DetectDensitySpikes(rs, points, patterns);
    assert patterns == DensityTags(rs);
    points, patterns := DetectRepetitions(rs, points, patterns);
    points, patterns := DetectCircularFlow(rs, points, patterns);
    var keys, conn := BuildConnections(rs);
    points, patterns := DetectIsolation(rs, order, members, points, patterns);
    ghost var tags := DetectorTags(rs);
    assert patterns == tags;
    DetectorPoints(rs);
    assert points == Points(tags);
    var dampened := AnyDiverse(keys, conn);
    DiverseByKeys(rs, keys, conn);
    assert dampened == Diverse(rs);
    if dampened {
      points := Dampen(points);
      patterns := patterns + [LegitimacyDampenerApplied];
    }
    var score := Clamp(points);
    a := Analysis(score, Classification(score), order, patterns);
    assert a == Assemble(tags, dampened, order);
  }

  // ---------------------------------------------------------------------------
  // The request handler

  /** The names a plain object inherits from `Object.prototype` in the V8
      engine the function runs on. Looking one up on `{}` gives a function or
      an object, never `undefined`, so the `if (!obj[name])` guards at lines
      77 and 109-110 do not create a `Set` for it, and the guard at line 89
      lets it through. */
  const InheritedNames: set<string> := {
    "constructor", "__proto__", "__defineGetter__", "__defineSetter__",
    "__lookupGetter__", "__lookupSetter__", "hasOwnProperty", "isPrototypeOf",
    "propertyIsEnumerable", "toString", "toLocaleString", "valueOf"}

  /** The message of line 166. */
  const EmptyBatch := "records array is required and must not be empty"

  /** V8's `TypeError` messages for the `.add` calls at lines 78, 111 and 112,
      and for the `for ... of` at line 90. */
  const EdgeAddFails := "smallMediumEdges[r.sender_entity].add is not a function"
  const NeighboursNotIterable := "neighbors is not iterable"
  const SenderAddFails := "entityConnections[r.sender_entity].add is not a function"
  const ReceiverAddFails := "entityConnections[r.receiver_entity].add is not a function"

  /** The loop at lines 108-114 throws at the first record with an inherited
      endpoint: at line 111 for its sender, otherwise at line 112. */
  function ConnectionsFault(rs: seq<Record>): Option<string>
  {
    if rs == [] then None
    else if rs[0].sender in InheritedNames then Some(SenderAddFails)
    else if rs[0].receiver in InheritedNames then Some(ReceiverAddFails)
    else ConnectionsFault(rs[1..])
  }

  /** The error `analyzeLocally` throws, if any, in the order the code runs:
      the edge loop (lines 74-79) throws at an edge whose sender is inherited;
      otherwise the cycle search (lines 82-104) throws if it pops an inherited
      receiver before it closes a walk; otherwise the connections loop may. */
  function Fault(rs: seq<Record>): Option<string>
  {
    if exists r :: r in rs && IsEdge(r) && r.sender in InheritedNames then Some(EdgeAddFails)
    else if FindCycleTrips(EdgeMap(rs), EdgeSenders(rs), InheritedNames) then Some(NeighboursNotIterable)
    else ConnectionsFault(rs)
  }

  lemma {:induction false} ConnectionsFaultIff(rs: seq<Record>)
    ensures ConnectionsFault(rs).Some? <==>
      exists r :: r in rs && (r.sender in InheritedNames || r.receiver in InheritedNames)
  {
    if rs != [] {
      ConnectionsFaultIff(rs[1..]);
      assert rs == [rs[0]] + rs[1..];
    }
  }

  /** `analyzeLocally` throws exactly when some entity of the batch has an
      inherited name. */
  lemma FaultIff(rs: seq<Record>)
    ensures Fault(rs).Some? <==> exists e :: e in Entities(rs) && e in InheritedNames
  {
    ConnectionsFaultIff(rs);
    EntitiesProperties(rs);
    if FindCycleTrips(EdgeMap(rs), EdgeSenders(rs), InheritedNames) {
      TripNamesEntity(rs, InheritedNames);
    }
  }

  /** The cycle search pops only entities of the batch. */
  lemma TripNamesEntity(rs: seq<Record>, bad: set<Entity>)
    requires FindCycleTrips(EdgeMap(rs), EdgeSenders(rs), bad)
    ensures exists x :: x in Entities(rs) && x in bad
  {
    var e := EdgeMap(rs);
    FindCycleTripsReached(e, EdgeSenders(rs), bad);
    EntitiesProperties(rs);
    if s :| s in EdgeSenders(rs) && s in bad {
      EdgeSenderSeqRecords(rs, s);
      var r :| r in rs && IsEdge(r) && r.sender == s;
      assert s in Entities(rs);
    } else {
      var x :| x in bad && x in Targets(e);
      var n :| n in e && x in e[n];
      ReceiverSeqMembership(rs, n, x);
      var r :| r in rs && IsEdge(r) && r.sender == n && r.receiver == x;
      assert x in Entities(rs);
    }
  }

  /** Lines 160-170 and 261-265: an empty batch is refused with the message of
      line 166; a batch naming an inherited entity makes `analyzeLocally` throw,
      and the catch answers with that error's message; any other batch is
      analysed. */
  function HandleRequest(records: seq<Record>): (r: Result<Analysis, string>)
    ensures r.Failure? <==> records == [] || exists e :: e in Entities(records) && e in InheritedNames
    ensures records == [] ==> r == Failure(EmptyBatch)
    ensures records != [] && (exists x :: x in records && IsEdge(x) && x.sender in InheritedNames) ==>
      r == Failure(EdgeAddFails)
    ensures r.Success? ==> r.value == Analyze(records)
  {
    FaultIff(records);
    if records == [] then Failure(EmptyBatch)
    else
      match Fault(records)
      case Some(message) => Failure(message)
      case None => Success(Analyze(records))
  }

  /** A batch whose only record is a small transfer from `constructor`. */
  lemma ConstructorSenderFails(b: Entity, t: int, p: Purpose)
    ensures HandleRequest([Record("constructor", b, Small, t, p)]) == Failure(EdgeAddFails)
  {
    var x := Record("constructor", b, Small, t, p);
    assert x in [x] && IsEdge(x) && x.sender in InheritedNames;
  }

  /** A large transfer to `toString` is no edge, so it passes the edge loop and
      the search, and fails at line 112. */
  lemma ToStringReceiverFails(a: Entity, t: int, p: Purpose)
    requires a !in InheritedNames
    ensures HandleRequest([Record(a, "toString", Large, t, p)]) == Failure(ReceiverAddFails)
  {
    var rs := [Record(a, "toString", Large, t, p)];
    assert EdgeSenderSeq(rs) == EdgeSenderSeq(rs[..0]) + [];
    assert EdgeSenders(rs) == [];
    assert ConnectionsFault(rs[1..]) == None;
  }

  /** A small or medium transfer from an ordinary name to an inherited one
      makes the search from the sender push the receiver and pop it, and
      line 90 throws before the connections loop runs. */
  lemma InheritedNeighbourFails(r: Record)
    requires IsEdge(r) && r.sender !in InheritedNames && r.receiver in InheritedNames
    ensures HandleRequest([r]) == Failure(NeighboursNotIterable)
  {
    NeighbourFault(r);
    FaultAnswered([r]);
  }

  lemma NeighbourFault(r: Record)
    requires IsEdge(r) && r.sender !in InheritedNames && r.receiver in InheritedNames
    ensures Fault([r]) == Some(NeighboursNotIterable)
  {
    SingleEdgeMap(r);
    InheritedNeighbourTrips(EdgeMap([r]), r.sender, r.receiver, InheritedNames);
    OrdinarySender(r);
  }

  lemma OrdinarySender(r: Record)
    requires r.sender !in InheritedNames
    ensures !exists x :: x in [r] && IsEdge(x) && x.sender in InheritedNames
  {
    assert forall x :: x in [r] ==> x == r;
  }

  /** A non-empty batch on which `analyzeLocally` throws is answered with
      that error's message. */
  lemma FaultAnswered(rs: seq<Record>)
    requires rs != [] && Fault(rs).Some?
    ensures HandleRequest(rs) == Failure(Fault(rs).value)
  {
  }
}
