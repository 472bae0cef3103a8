# Micro-transaction cluster analyzer, modelled in Dafny

This project models the rule-based fraud analyzer of the repository. The
analyzer scores a batch of transaction records between named entities. It
runs four detectors in a fixed order, each adding points and a tag:

- density spikes of small transfers on one pair inside 24 hours (+40);
- the same amount bucket repeated more than ten times on one pair (+25);
- a circular flow of small or medium transfers over three to six hops (+60);
- network isolation of the batch (+30).

Then a legitimacy dampener may cut the points to seventy percent. The total
is clamped to 0..100 and put on a four-tier ladder.

Two smaller parts sit beside the analyzer:

- the weighted four-sub-score risk score of the fraud-submission scorer;
- the browser form that edits the record list, checks a batch before sending
  it, and shows a result (tier colours and readable pattern labels).

The analyzer is imperative code, so it is modelled as methods with loops and
invariants. Each method is proved equal to a specification function over the
records. The properties are proved as lemmas about those functions. JavaScript
objects and `Set`s keep insertion order, so each is modelled as a `seq` of keys
beside a `map` or `set`. The form and the submission scorer are pure, so they
are functions and lemmas.

Modules, one per file: `Wrappers`, `Seqs`, `Strings`, `Transactions`,
`Patterns`, `Tiers`, `Density`, `Repetitions`, `CircularFlows`, `Isolation`,
`Dampener`, `Rounding`, `Analyzer`, `Submission`, `Client`.

Three behaviours of the code are worth stating up front:

- The submission scorer does not clamp its score. Its tier labels drop the
  " anomaly" suffix. Its thresholds are the analyzer's 75/50/25.
- The dampener rounds a binary64 product. Seventy percent rounded to the
  nearest integer is evidently meant, and for some totals line 141 does not
  give it (see Findings).
  The model's `Analyze` uses the intended rounding (`Rounding.Dampen`).
  `Analyzer.ScoreAsWritten` proves that the binary64 computation gives the
  same score on every batch, so the defect is latent in `analyzeLocally`.
- A batch naming an entity such as `constructor` or `toString` makes the code
  throw, because plain objects inherit those names. `Analyzer.HandleRequest`
  models the error response that results.

## Model

| member | source | states |
|---|---|---|
| Transactions.EntitiesProperties | supabase/functions/analyze-micro-transactions/index.ts:21-26 | `allEntities` holds exactly the senders and receivers of the batch, each once, in order of first appearance |
| Transactions.CollectEntities | supabase/functions/analyze-micro-transactions/index.ts:21-26 | the loop builds `allEntities` as that entity list, with a membership set that agrees with it |
| Density.PairKeysProperties | supabase/functions/analyze-micro-transactions/index.ts:29-36 | the keys of `pairCounts` are exactly the pair keys of the small records, each once, each with at least one timestamp |
| Density.DensitySpikeIff | supabase/functions/analyze-micro-transactions/index.ts:38-53 | a pair is tagged iff it has small transfers and a 24-hour window from one of its timestamps holds at least three times the average small count per pair; no pair is tagged twice; each tag is worth 40 |
| Density.SinglePairNeverSpikes | supabase/functions/analyze-micro-transactions/index.ts:38-47 | with small transfers on only one pair, no window reaches three times the average, so there is no density tag |
| Density.CountInWindow | supabase/functions/analyze-micro-transactions/index.ts:45-46 | counts the timestamps in the inclusive window [start, start + 24h] |
| Density.FindSpike | supabase/functions/analyze-micro-transactions/index.ts:44-52 | the window loop finds a qualifying window iff one exists |
| Density.BuildPairCounts | supabase/functions/analyze-micro-transactions/index.ts:29-36 | builds `pairCounts`: its keys in insertion order and each key's timestamps in record order |
| Density.SumPairCounts | supabase/functions/analyze-micro-transactions/index.ts:38-39 | sums the per-pair small counts |
| Density.TagSpikes | supabase/functions/analyze-micro-transactions/index.ts:41-53 | tags the spiking pairs in key order and adds 40 points for each |
| Density.DetectDensitySpikes | supabase/functions/analyze-micro-transactions/index.ts:28-53 | detector 1 appends exactly the density tags of the batch and adds 40 per tag |
| Repetitions.FirstHeavySpec | supabase/functions/analyze-micro-transactions/index.ts:64-70 | the bucket the inner loop stops at is counted over 10 and every bucket before it is not; there is none iff no bucket is over 10 |
| Repetitions.RepetitionIff | supabase/functions/analyze-micro-transactions/index.ts:55-71 | a pair gets a repetition tag iff some bucket occurs more than 10 times on it |
| Repetitions.RepetitionTagsShape | supabase/functions/analyze-micro-transactions/index.ts:63-71 | each tag carries the exact count of the first bucket over 10 on its pair; no pair is tagged twice; each tag is worth 25 |
| Repetitions.RepetitionNeedsEleven | supabase/functions/analyze-micro-transactions/index.ts:65 | a repetition tag needs at least 11 records in the batch |
| Repetitions.BumpTally | supabase/functions/analyze-micro-transactions/index.ts:60 | `(ranges[b] or 0) + 1` keeps each pair's bucket tally equal to its count, with buckets in first-appearance order |
| Repetitions.AddToRepetitionMap | supabase/functions/analyze-micro-transactions/index.ts:57-61 | one record extends `repetitionMap` to the tallies of the longer prefix |
| Repetitions.BuildRepetitionMap | supabase/functions/analyze-micro-transactions/index.ts:56-61 | builds `repetitionMap`: its keys in insertion order and each pair's bucket tally |
| Repetitions.FindHeavy | supabase/functions/analyze-micro-transactions/index.ts:64-70 | the inner loop returns the first bucket counted over 10 |
| Repetitions.TagPair | supabase/functions/analyze-micro-transactions/index.ts:64-70 | one key's tag: the first bucket counted over 10 and its count, or no tag |
| Repetitions.TagRepetitions | supabase/functions/analyze-micro-transactions/index.ts:63-71 | tags the repeating pairs in key order and adds 25 points for each |
| Repetitions.DetectRepetitions | supabase/functions/analyze-micro-transactions/index.ts:55-71 | detector 2 appends exactly the repetition tags of the batch and adds 25 per tag |
| CircularFlows.EdgeMapMeaning | supabase/functions/analyze-micro-transactions/index.ts:74-80 | `smallMediumEdges` has a key exactly for each entity that sends some small or medium transfer; under a key, an entity is listed if and only if some small or medium transfer goes from the key to it, and no entity is listed twice |
| CircularFlows.EdgeSenderSeqRecords | supabase/functions/analyze-micro-transactions/index.ts:75-77 | an entity is among the senders the edge loop visits if and only if it sends some small or medium transfer |
| CircularFlows.ScanNeighbours | supabase/functions/analyze-micro-transactions/index.ts:90-101 | scanning a node's neighbours either closes a walk of at least three hops back to the start, or pushes frames one entity longer for unvisited neighbours while the path is under 6 |
| CircularFlows.SearchSound | supabase/functions/analyze-micro-transactions/index.ts:84-102 | whatever the stack search returns is a closed walk along the edges |
| CircularFlows.FindCycleSound | supabase/functions/analyze-micro-transactions/index.ts:83-104 | the walk found from the first start that succeeds is a closed walk of 3 to 6 hops |
| CircularFlows.CycleTagsSound | supabase/functions/analyze-micro-transactions/index.ts:73-104 | at most one circular-flow tag; its path starts and ends at the same entity, has 3 to 6 hops, and every hop is a small or medium transfer of the batch; worth 60 |
| CircularFlows.TriangleFound | supabase/functions/analyze-micro-transactions/index.ts:83-104 | the edges A→B, B→C, C→A give the walk A→B→C→A from the first start |
| CircularFlows.BackAndForthNotFound | supabase/functions/analyze-micro-transactions/index.ts:91 | the edges A→B, B→A give no circular flow: a two-hop return is too short |
| CircularFlows.AddEdge | supabase/functions/analyze-micro-transactions/index.ts:76-79 | one small or medium record adds its receiver to its sender's neighbours once, keeping key order |
| CircularFlows.BuildEdges | supabase/functions/analyze-micro-transactions/index.ts:74-80 | builds `smallMediumEdges`: its keys in insertion order and each key's neighbours |
| CircularFlows.ScanFrame | supabase/functions/analyze-micro-transactions/index.ts:90-101 | the `for` loop over neighbours computes the scan function |
| CircularFlows.SearchFromStart | supabase/functions/analyze-micro-transactions/index.ts:84-102 | the `while` loop for one start computes the search function |
| CircularFlows.FindFirstCycle | supabase/functions/analyze-micro-transactions/index.ts:83-104 | the loop over starts stops at the first closed walk |
| CircularFlows.DetectCircularFlow | supabase/functions/analyze-micro-transactions/index.ts:73-104 | detector 3 appends exactly the circular-flow tags of the batch and adds 60 per tag |
| Isolation.IsolationIff | supabase/functions/analyze-micro-transactions/index.ts:115-130 | every record's endpoints are in `allEntities`, so the batch is tagged iff it names at least three entities; the tag is worth 30 |
| Isolation.CountInternal | supabase/functions/analyze-micro-transactions/index.ts:118-125 | counts the records whose sender and receiver are both members |
| Isolation.DetectIsolation | supabase/functions/analyze-micro-transactions/index.ts:115-130 | detector 4 appends exactly the isolation tags of the batch and adds 30 per tag |
| Dampener.PartnersMembership | supabase/functions/analyze-micro-transactions/index.ts:107-113 | `entityConnections[n]` holds `m` iff some record links `n` and `m` in either direction |
| Dampener.DiverseIff | supabase/functions/analyze-micro-transactions/index.ts:132-140 | the dampener fires iff some entity has more than six distinct partners |
| Dampener.SmallBatchNotDiverse | supabase/functions/analyze-micro-transactions/index.ts:132-140 | a batch of at most three records never triggers the dampener |
| Dampener.Connect | supabase/functions/analyze-micro-transactions/index.ts:109-112 | one record adds both endpoints as keys and makes each the other's partner |
| Dampener.BuildConnections | supabase/functions/analyze-micro-transactions/index.ts:107-113 | builds `entityConnections`: its keys in insertion order and each entity's partner set |
| Dampener.AnyDiverse | supabase/functions/analyze-micro-transactions/index.ts:133-139 | the scan over entries reports a diverse entity iff one has more than six partners |
| Dampener.DiverseByKeys | supabase/functions/analyze-micro-transactions/index.ts:133-139 | over the built `entityConnections`, that scan agrees with the batch's diversity |
| Rounding.Dampen | supabase/functions/analyze-micro-transactions/index.ts:141 | the intended dampening: the integer nearest to seventy percent of the points, halves rounding up |
| Rounding.DampenMonotone | supabase/functions/analyze-micro-transactions/index.ts:141 | dampening keeps the order of point totals and never raises a total |
| Rounding.RoundToDouble | supabase/functions/analyze-micro-transactions/index.ts:141 | the product rounded to a binary64 significand lies within half a unit in the last place of the exact product |
| Rounding.DampenAsWrittenAt85 | supabase/functions/analyze-micro-transactions/index.ts:141 | as written, 85 points dampen to 59, where 60 is intended |
| Rounding.DampenAsWrittenClose | supabase/functions/analyze-micro-transactions/index.ts:141 | below 2^49 points, the line as written agrees with the intended rounding except when the points end in 5, and then it is at most one lower |
| Rounding.DampenAgreesAt100 | supabase/functions/analyze-micro-transactions/index.ts:141 | at 100 points both give 70 |
| Rounding.DampenAgreesAt25 | supabase/functions/analyze-micro-transactions/index.ts:141 | at 25 points both give 18 |
| Rounding.ExcessIs | supabase/functions/analyze-micro-transactions/index.ts:141 | a product needs exactly `e` bits beyond the 53-bit significand when it fits after dropping `e` bits but not after dropping `e - 1` |
| Rounding.AsWrittenRoundsUp | supabase/functions/analyze-micro-transactions/index.ts:141 | when the remainder below the unit in the last place is more than half a unit, the double product rounds up, and `Math.round` of it is the stated value |
| Rounding.ReachableHalvesAgree | supabase/functions/analyze-micro-transactions/index.ts:141 | at 55, 95, 105, 115 and 135 points, the line as written gives the intended 39, 67, 74, 81 and 95 |
| Rounding.AsWrittenLarge | supabase/functions/analyze-micro-transactions/index.ts:141 | from 1000 points up the line as written gives at least 100 |
| Rounding.DampenedTotals | supabase/functions/analyze-micro-transactions/index.ts:141-145 | for every total a dampened batch can reach, `30 + 40a + 25b + 60c`, the two roundings agree below 145, and from 145 up both are at least 100 |
| Tiers.TierMonotone | supabase/functions/analyze-micro-transactions/index.ts:147-150 | a higher score never has a lower tier |
| Tiers.TierBoundaries | supabase/functions/analyze-micro-transactions/index.ts:147-150 | the tiers change exactly at 25, 50 and 75 |
| Analyzer.Clamp | supabase/functions/analyze-micro-transactions/index.ts:145 | the score lies in 0..100; values in range pass unchanged, larger ones become 100, negative ones 0 |
| Analyzer.ClassificationIsTier | supabase/functions/analyze-micro-transactions/index.ts:147-150 | the classification is the name of the score's tier followed by " anomaly" |
| Analyzer.DetectorPoints | supabase/functions/analyze-micro-transactions/index.ts:28-130 | the points before dampening are 40, 25, 60 and 30 per tag of the four detectors |
| Analyzer.TagsInDetectorOrder | supabase/functions/analyze-micro-transactions/index.ts:20-156 | tags come in detector order; the dampener tag is present iff the batch is diverse, and it is then last |
| Analyzer.AssembleScore | supabase/functions/analyze-micro-transactions/index.ts:140-150 | the score is the clamp of the points the reported tags award, dampened when the dampener tag is reported; the classification is its tier |
| Analyzer.ScoreFromDetectors | supabase/functions/analyze-micro-transactions/index.ts:18-150 | score = clamp of (40·density + 25·repetition + 60·circular + 30·isolation), dampened when diverse; it lies in 0..100; the classification is its tier |
| Analyzer.EntitiesInvolved | supabase/functions/analyze-micro-transactions/index.ts:21-26 | `entities_involved` lists every sender and receiver once, in order of first appearance |
| Analyzer.AnalyzeLocally | supabase/functions/analyze-micro-transactions/index.ts:18-158 | the whole analysis, run in the source's order, returns the specified result |
| Analyzer.HandleRequest | supabase/functions/analyze-micro-transactions/index.ts:160-170 | the request fails exactly when the batch is empty or names an entity inherited from `Object.prototype`; an empty batch gets the message of line 166, a batch with a small or medium transfer from such an entity gets the `TypeError` of line 78, and any other batch is analysed |
| Analyzer.ConnectionsFaultIff | supabase/functions/analyze-micro-transactions/index.ts:108-113 | the connections loop throws if and only if some record has an inherited sender or receiver |
| Analyzer.FaultIff | supabase/functions/analyze-micro-transactions/index.ts:74-113 | `analyzeLocally` throws if and only if some entity of the batch has an inherited name |
| Analyzer.ConstructorSenderFails | supabase/functions/analyze-micro-transactions/index.ts:77-78 | a small transfer sent by `constructor` fails at the edge map's `.add` |
| Analyzer.ToStringReceiverFails | supabase/functions/analyze-micro-transactions/index.ts:109-112 | a large transfer received by `toString` passes the edge loop and the cycle search, and fails at the receiver's `.add` on line 112 |
| Analyzer.InheritedNeighbourFails | supabase/functions/analyze-micro-transactions/index.ts:86-90 | a small or medium transfer from an ordinary name to an inherited one fails with "neighbors is not iterable": the search pops the receiver, and line 90 cannot iterate what line 88 read |
| Analyzer.NeighbourFault | supabase/functions/analyze-micro-transactions/index.ts:74-90 | for that batch, the first throw is the one at line 90, after the edge loop and before the connections loop |
| Analyzer.FaultAnswered | supabase/functions/analyze-micro-transactions/index.ts:165-170 | a non-empty batch on which `analyzeLocally` throws is answered with that error's message |
| Analyzer.TripNamesEntity | supabase/functions/analyze-micro-transactions/index.ts:82-104 | the cycle search pops only entities of the batch, so a throw at line 90 needs an inherited entity |
| CircularFlows.TripReached | supabase/functions/analyze-micro-transactions/index.ts:86-101 | every node the search pops is its start or a neighbour in the edge map |
| CircularFlows.FindCycleTripsReached | supabase/functions/analyze-micro-transactions/index.ts:82-104 | the search pops a node of a given set only if a start or some neighbour is in that set |
| CircularFlows.InheritedNeighbourTrips | supabase/functions/analyze-micro-transactions/index.ts:86-99 | when a start's only neighbour is in the set, the search pushes it and then pops it |
| CircularFlows.SingleEdgeMap | supabase/functions/analyze-micro-transactions/index.ts:74-80 | one small or medium record gives one key, its sender, whose only neighbour is the receiver |
| Analyzer.DiverseIsIsolated | supabase/functions/analyze-micro-transactions/index.ts:116-140 | an entity with more than six partners means the batch names at least seven entities, so every dampened batch is tagged `network_isolation` |
| Analyzer.ScoreAsWritten | supabase/functions/analyze-micro-transactions/index.ts:140-145 | with the binary64 rounding of line 141 instead of the intended one, every batch gets the same clamped score |
| Submission.RiskScore | supabase/functions/analyze-submission/index.ts:111-116 | the score is the integer nearest to 0.35t + 0.25c + 0.30n + 0.10f, halves rounding up |
| Submission.RiskScoreBounds | supabase/functions/analyze-submission/index.ts:111-116 | sub-scores in 0..100 give a score in 0..100 without any clamp |
| Submission.RiskScoreMonotone | supabase/functions/analyze-submission/index.ts:111-121 | raising sub-scores never lowers the score or its tier |
| Submission.RiskScoreUniform | supabase/functions/analyze-submission/index.ts:111-116 | four equal sub-scores give that score back |
| Submission.ClassifyIsTier | supabase/functions/analyze-submission/index.ts:118-121 | the classification is the name of the score's tier |
| Submission.SameLadder | supabase/functions/analyze-submission/index.ts:118-121 | for the same score, the analyzer's label is the submission label followed by " anomaly" |
| Submission.HighExample | supabase/functions/analyze-submission/index.ts:111-121 | sub-scores 80, 80, 80 and 0 give 72, which is "High" |
| Client.Set | src/components/MicroTransactionAnalyzer.tsx:101 | after `{ ...r, [field]: value }` the named field reads `value` and every other field is unchanged |
| Client.EmptyRecord | src/components/MicroTransactionAnalyzer.tsx:52-58 | a blank record has empty names, the clock's time, "small" and "unknown" |
| Client.UpdateRecord | src/components/MicroTransactionAnalyzer.tsx:100-102 | the list keeps its length; only the record at the index changes, and only in the named field |
| Client.AddRecord | src/components/MicroTransactionAnalyzer.tsx:104 | the old records stay in place and one blank record follows them |
| Client.RemoveAt | src/components/MicroTransactionAnalyzer.tsx:107 | the filter on index drops exactly the record at the index, or nothing when the index is out of range |
| Client.RemoveRecord | src/components/MicroTransactionAnalyzer.tsx:106-108 | removes the record at the index only when there is more than one record, so a non-empty list stays non-empty |
| Client.LoadSample | src/components/MicroTransactionAnalyzer.tsx:110-114 | the list becomes the 12 sample records and the shown result is cleared |
| Client.NeverEmpty | src/components/MicroTransactionAnalyzer.tsx:96-114 | from a non-empty list, no sequence of edits empties it |
| Client.UpdateThenRemove | src/components/MicroTransactionAnalyzer.tsx:100-108 | with more than one record, editing a record and then removing it is the same as removing it |
| Client.ValidRecordsSpec | src/components/MicroTransactionAnalyzer.tsx:117 | the filter keeps exactly the records with non-blank trimmed names, in order, and filtering again changes nothing |
| Client.IsValidIff | src/components/MicroTransactionAnalyzer.tsx:117 | a name passes iff it has a character that is not white space |
| Client.Submit | src/components/MicroTransactionAnalyzer.tsx:116-129 | fewer than two valid records gives the source's error message; otherwise exactly the valid records are sent |
| Client.SubmittedNotEmpty | src/components/MicroTransactionAnalyzer.tsx:117-129 | a batch the form sends is never empty and holds only valid records |
| Client.InitialNotSubmitted | src/components/MicroTransactionAnalyzer.tsx:96-121 | the form as first shown cannot be sent |
| Client.SampleSubmitted | src/components/MicroTransactionAnalyzer.tsx:37-50 | the sample batch is sent whole |
| Client.ColoursFollowTier | src/components/MicroTransactionAnalyzer.tsx:81-93 | both colour ladders follow the server's tier of the score; two scores share a colour iff they share the server classification |
| Client.LabelOfDensitySpike | src/components/MicroTransactionAnalyzer.tsx:70 | a density tag whose pair has no colon is labelled with its pair |
| Client.LabelOfRepetition | src/components/MicroTransactionAnalyzer.tsx:72-75 | a repetition tag whose pair has no colon is labelled with its pair, then its bucket and count |
| Client.LabelOfCircularFlow | src/components/MicroTransactionAnalyzer.tsx:71 | a circular-flow tag whose entities have no colon is labelled with its path |
| Client.LabelOfFixedTags | src/components/MicroTransactionAnalyzer.tsx:76-77 | the isolation and dampener tags get their fixed labels |
| Client.LabelCutAtColon | src/components/MicroTransactionAnalyzer.tsx:70 | a colon inside an entity name cuts the label at the colon |
| Client.LabelOfOtherText | src/components/MicroTransactionAnalyzer.tsx:78 | a string of no known kind is shown as it is |
| Patterns.PointsByStage | supabase/functions/analyze-micro-transactions/index.ts:48-127 | the points of a tag list are 40, 25, 60 and 30 per tag of each kind |
| Strings.SplitFirst | src/components/MicroTransactionAnalyzer.tsx:70-73 | `split` at the first separator gives the part before it, then the split of the rest |
| Strings.NatToStringRoundTrip | supabase/functions/analyze-micro-transactions/index.ts:67 | reading back the decimal count written into a repetition tag gives the count |
| Strings.TrimEmptyIff | src/components/MicroTransactionAnalyzer.tsx:117 | a trimmed string is empty iff the string is all white space |

## Left out

- I/O: the HTTP handlers, CORS, JSON parsing, the AI summary, and the database and storage calls. `HandleRequest` models the empty-batch check and the error thrown by `analyzeLocally`. It does not model a body that is not JSON or whose `records` is not an array.
- Analyzer.HandleRequest, Dampener.Connect, CircularFlows.AddEdge, CircularFlows.SearchFromStart, CircularFlows.DetectCircularFlow, Analyzer.AnalyzeLocally: the objects `smallMediumEdges` and `entityConnections` are modelled as maps with no inherited keys. An entity named after an `Object.prototype` member (`constructor`, `__proto__`, `toString`, `valueOf`, `hasOwnProperty` and the seven others in `Analyzer.InheritedNames`) makes the code throw a `TypeError` in one of three places. The `.add` at line 78 throws for an edge sender. Line 90 throws when the cycle search pops such a name as a receiver, because `for ... of` cannot iterate what line 88 read. The `.add` at line 111 or 112 throws in the connections loop. These throws are modelled only in `HandleRequest`, through `Analyzer.Fault`. The methods and `Analyze` describe the batches that do not throw, and the search methods skip a node that is not a key. The message texts are those the V8 engine produces.
- Transactions: `amount_range` is one of the four bucket names. Other values, which the source accepts without checking, are not modelled.
- Timestamps are integers in milliseconds. Parsing ISO strings with `new Date` is not modelled. An unparseable date, which yields NaN in the source, is not modelled either.
- Density.DensitySpikeIff: `avgSmall` is a floating-point mean. It is compared exactly here, as `inWindow · pairs ≥ 3 · total`. A rounding difference of the binary64 division is not modelled.
- Density: the in-place sort of each pair's timestamps (line 43) is not modelled. It changes no result: the window count filters the whole list, so only the order in which windows are tried changes, and the tag names the pair only.
- Isolation.IsolationIff: the ratio `internal / total > 0.8` is compared by cross-multiplication. Here the ratio is always exactly 1.
- Key order: JavaScript lists object keys that look like array indices (an entity literally named "42") before the others. The model keeps plain insertion order throughout. Pair keys contain "→", so they never look like indices, and the density and repetition tags keep insertion order. `entityConnections` is only searched for a diverse entity, which does not depend on order. Only `smallMediumEdges`, keyed by sender, is affected: its keys are the order in which cycle searches start, so an index-like sender may be searched first. That can change which cycle the `circular_flow` tag names, but not whether one is found. When a receiver has an inherited name, it can also decide whether the search throws at line 90 before a cycle closes, and `Analyzer.Fault` follows plain insertion order there too.
- Submission.RiskScore: the sub-scores are integers and the weighted sum is exact. Floating-point sub-scores, and binary64 rounding of the weighted sum near a half, are not modelled.
- Submission: the AI call that produces the sub-scores, and the storing of the result, are not modelled.
- Client: React rendering, animations, toasts, the `supabase.functions.invoke` call and its error handling, and `patternIcon` (display only). The clock reading in `emptyRecord` is a parameter.
- Strings.Trim: the white-space set is ECMAScript's fixed list of characters. Unicode general-category lookup is not modelled beyond that list.
- CircularFlows: the record-level example of a whole batch being tagged is not modelled. The examples are stated over the edge map.
- Rounding.DampenAsWrittenClose: proved only for point totals up to 2^49. The detectors award at most 65 points per record plus 90, which is far below that bound for any batch that fits in memory.

## Findings

| source | as written | input that shows it | evidently intended | confidence | as-written member | corrected member |
|---|---|---|---|---|---|---|
| supabase/functions/analyze-micro-transactions/index.ts:141 | `Math.round(riskPoints * 0.7)` rounds the binary64 product, and 0.7 is slightly below seven tenths as a double | riskPoints = 85: the product is 59.49999999999999, so the result is 59. The defect is latent: a dampened batch always carries the +30 isolation tag, so 85 points never reach line 141 (`Analyzer.ScoreAsWritten`) | seventy percent rounded half up: 59.5 gives 60 | not executed | Rounding.DampenAsWrittenAt85 | Rounding.Dampen |
