/** The analyzer's browser form (src/components/MicroTransactionAnalyzer.tsx):
    the list of records being edited, the check made before a batch is sent,
    and the way a result is shown (tier colours and readable pattern labels).
    React state only holds these values, so each update is a function from the
    previous list to the next one. */
module Client {
  import opened Wrappers
  import opened Seqs
  import opened Strings
  import opened Transactions
  import opened Patterns
  import opened Tiers
  import Analyzer

  /** A record as the form holds it: every field is the text of its input. */
  datatype FormRecord = FormRecord(
    sender: string,
    receiver: string,
    amountRange: string,
    timestamp: string,
    purpose: string)

  /** `keyof TransactionRecord`. */
  datatype Field = SenderEntity | ReceiverEntity | AmountRange | Timestamp | TransactionPurpose

  function Get(r: FormRecord, f: Field): string
  {
    match f
    case SenderEntity => r.sender
    case ReceiverEntity => r.receiver
    case AmountRange => r.amountRange
    case Timestamp => r.timestamp
    case TransactionPurpose => r.purpose
  }

  /** `{ ...r, [field]: value }`: the named field reads `value`, the others
      are as before. */
  function Set(r: FormRecord, f: Field, value: string): (r': FormRecord)
    ensures forall g :: Get(r', g) == (if g == f then value else Get(r, g))
  {
    match f
    case SenderEntity => r.(sender := value)
    case ReceiverEntity => r.(receiver := value)
    case AmountRange => r.(amountRange := value)
    case Timestamp => r.(timestamp := value)
    case TransactionPurpose => r.(purpose := value)
  }

  /** `emptyRecord()` (lines 52-58), given the clock's reading `now` (the
      first 16 characters of the ISO time, minutes precision). */
  function EmptyRecord(now: string): (r: FormRecord)
    ensures r.sender == "" && r.receiver == "" && r.timestamp == now
    ensures r.amountRange == BucketName(Small) && r.purpose == "unknown"
  {
    FormRecord("", "", "small", now, "unknown")
  }

  /** `updateRecord` (lines 100-102): `prev.map` setting `field` of the record
      at `index` only. */
  function UpdateRecord(records: seq<FormRecord>, index: int, f: Field, value: string): (rs: seq<FormRecord>)
    ensures |rs| == |records|
    ensures forall i :: 0 <= i < |records| && i != index ==> rs[i] == records[i]
    ensures 0 <= index < |records| ==>
      forall g :: Get(rs[index], g) == (if g == f then value else Get(records[index], g))
  {
    if records == [] then []
    else
      var last := |records| - 1;
      UpdateRecord(records[..last], index, f, value)
        + [if last == index then Set(records[last], f, value) else records[last]]
  }

  /** `addRecord` (line 104): one blank record after the others. */
  function AddRecord(records: seq<FormRecord>, now: string): (rs: seq<FormRecord>)
    ensures |rs| == |records| + 1 && rs[..|records|] == records
    ensures rs[|records|].sender == "" && rs[|records|].receiver == ""
    ensures rs[|records|].amountRange == "small" && rs[|records|].purpose == "unknown"
  {
    records + [EmptyRecord(now)]
  }

  /** `prev.filter((_, i) => i !== index)`. */
  function RemoveAt(records: seq<FormRecord>, index: int): (rs: seq<FormRecord>)
    ensures 0 <= index < |records| ==> rs == records[..index] + records[index + 1..]
    ensures !(0 <= index < |records|) ==> rs == records
  {
    if records == [] then []
    else
      var last := |records| - 1;
      var rest := RemoveAt(records[..last], index);
      if last == index then rest else rest + [records[last]]
  }

  /** `removeRecord` (lines 106-108): removes the record at `index`, but never
      the only one. */
  function RemoveRecord(records: seq<FormRecord>, index: int): (rs: seq<FormRecord>)
    ensures |records| > 1 && 0 <= index < |records| ==> rs == records[..index] + records[index + 1..]
    ensures |records| <= 1 || !(0 <= index < |records|) ==> rs == records
    ensures |records| >= 1 ==> |rs| >= 1
  {
    if |records| > 1 then RemoveAt(records, index) else records
  }

  /** The batch the page ships as an example (lines 37-50): three small loops
      and a back-and-forth pair. */
  function SampleRecords(): (rs: seq<FormRecord>)
    ensures |rs| == 12
  {
    [ FormRecord("Vercetti Estate Holdings", "Cherry Poppers Inc", "small", "2024-03-15T08:30:00Z", "invoice"),
      FormRecord("Cherry Poppers Inc", "Kaufman Cabs LLC", "small", "2024-03-15T09:15:00Z", "contract"),
      FormRecord("Kaufman Cabs LLC", "Vercetti Estate Holdings", "small", "2024-03-15T10:00:00Z", "unknown"),
      FormRecord("Vercetti Estate Holdings", "Cherry Poppers Inc", "small", "2024-03-15T11:30:00Z", "invoice"),
      FormRecord("Cherry Poppers Inc", "Kaufman Cabs LLC", "small", "2024-03-15T12:45:00Z", "invoice"),
      FormRecord("Kaufman Cabs LLC", "Vercetti Estate Holdings", "medium", "2024-03-15T14:00:00Z", "contract"),
      FormRecord("InterGlobal Films", "Print Works Co", "small", "2024-03-15T15:30:00Z", "salary"),
      FormRecord("Print Works Co", "Sunshine Autos", "small", "2024-03-15T16:15:00Z", "unknown"),
      FormRecord("Sunshine Autos", "InterGlobal Films", "small", "2024-03-15T17:00:00Z", "contract"),
      FormRecord("Malibu Club Enterprises", "Pole Position Mgmt", "small", "2024-03-15T09:00:00Z", "unknown"),
      FormRecord("Pole Position Mgmt", "Malibu Club Enterprises", "small", "2024-03-15T10:30:00Z", "invoice"),
      FormRecord("Malibu Club Enterprises", "Pole Position Mgmt", "small", "2024-03-15T12:00:00Z", "unknown") ]
  }

  /** The form's state: the records being edited and the last result shown. */
  datatype Form = Form(records: seq<FormRecord>, result: Option<Analyzer.Analysis>)

  /** The form as the page first shows it (line 96): one blank record. */
  function Initial(now: string): (f: Form)
    ensures |f.records| == 1 && f.result == None
  {
    Form([EmptyRecord(now)], None)
  }

  /** `loadSample` (lines 110-114): the sample batch replaces the list and the
      shown result is cleared. */
  function LoadSample(form: Form): (f: Form)
    ensures f.records == SampleRecords() && |f.records| == 12 && f.result == None
  {
    Form(SampleRecords(), None)
  }

  /** The user's edits to the list. */
  datatype Edit =
    | Update(index: int, field: Field, value: string)
    | Add(now: string)
    | Remove(index: int)
    | Sample

  function Apply(form: Form, e: Edit): Form
  {
    match e
    case Update(i, f, v) => form.(records := UpdateRecord(form.records, i, f, v))
    case Add(now) => form.(records := AddRecord(form.records, now))
    case Remove(i) => form.(records := RemoveRecord(form.records, i))
    case Sample => LoadSample(form)
  }

  function ApplyAll(form: Form, es: seq<Edit>): Form
  {
    if es == [] then form else Apply(ApplyAll(form, es[..|es| - 1]), es[|es| - 1])
  }

  /** Starting from one record, no sequence of edits empties the list. */
  lemma {:induction false} NeverEmpty(form: Form, es: seq<Edit>)
    requires |form.records| >= 1
    ensures |ApplyAll(form, es).records| >= 1
  {
    if es != [] {
      NeverEmpty(form, es[..|es| - 1]);
    }
  }

  /** Editing a field and then removing the edited record is the same as
      removing it straight away. */
  lemma UpdateThenRemove(records: seq<FormRecord>, index: int, f: Field, value: string)
    requires |records| > 1
    ensures RemoveRecord(UpdateRecord(records, index, f, value), index) == RemoveRecord(records, index)
  {
    var u := UpdateRecord(records, index, f, value);
    if 0 <= index < |records| {
      assert u[..index] == records[..index];
      assert u[index + 1..] == records[index + 1..];
    } else {
      assert u == records;
    }
  }

  // ---------------------------------------------------------------------------
  // Sending a batch

  /** A record is sent only when its trimmed sender and receiver are not empty. */
  predicate IsValid(r: FormRecord)
  {
    Trim(r.sender) != "" && Trim(r.receiver) != ""
  }

  /** `records.filter(r => r.sender_entity.trim() && r.receiver_entity.trim())`
      (line 117). */
  function ValidRecords(records: seq<FormRecord>): seq<FormRecord>
  {
    Filter(records, IsValid)
  }

  /** The records sent are exactly the valid ones, in their order, and
      filtering them again changes nothing. */
  lemma ValidRecordsSpec(records: seq<FormRecord>, more: seq<FormRecord>, r: FormRecord)
    ensures r in ValidRecords(records) <==> r in records && IsValid(r)
    ensures ValidRecords(records + more) == ValidRecords(records) + ValidRecords(more)
    ensures ValidRecords(ValidRecords(records)) == ValidRecords(records)
  {
    FilterMembers(records, IsValid, r);
    FilterAppend(records, more, IsValid);
    FilterIdempotent(records, IsValid);
  }

  /** A name counts as given when it holds a character other than white space. */
  lemma IsValidIff(r: FormRecord)
    ensures IsValid(r) <==>
      (exists k :: 0 <= k < |r.sender| && !IsJsSpace(r.sender[k]))
      && (exists k :: 0 <= k < |r.receiver| && !IsJsSpace(r.receiver[k]))
  {
    TrimEmptyIff(r.sender);
    TrimEmptyIff(r.receiver);
  }

  /** The message shown instead of sending (line 119). */
  const TooFewRecords: string := "Add at least 2 valid transaction records"

  /** `analyze` up to the request (lines 116-129): the valid records are sent
      when there are at least two of them. */
  function Submit(records: seq<FormRecord>): (r: Result<seq<FormRecord>, string>)
    ensures r.Failure? <==> |ValidRecords(records)| < 2
    ensures r.Failure? ==> r.error == TooFewRecords
    ensures r.Success? ==> r.value == ValidRecords(records) && |r.value| >= 2
  {
    var valid := ValidRecords(records);
    if |valid| < 2 then Failure(TooFewRecords) else Success(valid)
  }

  /** A batch the form sends is never the empty batch the server refuses. */
  lemma SubmittedNotEmpty(records: seq<FormRecord>)
    requires Submit(records).Success?
    ensures Submit(records).value != [] && forall r :: r in Submit(records).value ==> IsValid(r)
  {
    forall r | r in Submit(records).value ensures IsValid(r) {
      FilterMembers(records, IsValid, r);
    }
  }

  /** The form as first shown cannot be sent. */
  lemma InitialNotSubmitted(now: string)
    ensures Submit(Initial(now).records) == Failure(TooFewRecords)
  {
    var e := EmptyRecord(now);
    assert !IsValid(e) by {
      IsValidIff(e);
    }
    FilterLast([e], IsValid);
  }

  lemma NamedValid(r: FormRecord)
    requires r.sender != "" && !IsJsSpace(r.sender[0])
    requires r.receiver != "" && !IsJsSpace(r.receiver[0])
    ensures IsValid(r)
  {
    IsValidIff(r);
  }

  /** Every sample record names both entities, so the sample is sent whole. */
  lemma SampleSubmitted()
    ensures Submit(SampleRecords()) == Success(SampleRecords())
  {
    var rs := SampleRecords();
    forall i | 0 <= i < |rs| ensures IsValid(rs[i]) {
      NamedValid(rs[i]);
    }
    FilterAll(rs, IsValid);
  }

  // ---------------------------------------------------------------------------
  // Showing a result

  /** `riskColor` (lines 81-86). */
  function RiskColor(score: int): string
  {
    if score >= 75 then "text-crimson"
    else if score >= 50 then "text-sunset-orange"
    else if score >= 25 then "text-primary"
    else "text-safe"
  }

  /** `riskBgClass` (lines 88-93). */
  function RiskBgClass(score: int): string
  {
    if score >= 75 then "border-crimson/40 bg-crimson/5"
    else if score >= 50 then "border-sunset-orange/40 bg-sunset-orange/5"
    else if score >= 25 then "border-primary/40 bg-primary/5"
    else "border-safe/40 bg-safe/5"
  }

  /** The colour of each tier. */
  function TierColor(t: Tier): string
  {
    match t
    case Critical => "text-crimson"
    case High => "text-sunset-orange"
    case Moderate => "text-primary"
    case Low => "text-safe"
  }

  /** Both colour ladders use the server's 75/50/25 boundaries: the colour and
      the background follow the score's tier, and the same colour means the
      same server classification. */
  lemma ColoursFollowTier(score: int, other: int)
    ensures RiskColor(score) == TierColor(TierOf(score))
    ensures RiskBgClass(score) == RiskBgClass(other) <==> TierOf(score) == TierOf(other)
    ensures RiskColor(score) == RiskColor(other) <==>
      Analyzer.Classification(score) == Analyzer.Classification(other)
  {
    Analyzer.ClassificationIsTier(score);
    Analyzer.ClassificationIsTier(other);
    assert TierName(TierOf(score)) + " anomaly" == TierName(TierOf(other)) + " anomaly"
      ==> TierName(TierOf(score)) == TierName(TierOf(other)) by {
      var a, b := TierName(TierOf(score)), TierName(TierOf(other));
      if a + " anomaly" == b + " anomaly" {
        assert |a| == |b|;
        assert a == (a + " anomaly")[..|a|];
        assert b == (b + " anomaly")[..|b|];
      }
    }
  }

  /** `parts[i]` in a template: the piece, or "undefined" past the end. */
  function Piece(parts: seq<string>, i: nat): string
  {
    if i < |parts| then parts[i] else "undefined"
  }

  /** `patternLabel` (lines 69-79): a readable label for a tag. */
  function PatternLabel(pattern: string): string
  {
    if StartsWith(pattern, "density_spike") then "Density Spike — " + Piece(Split(pattern, ':'), 1)
    else if StartsWith(pattern, "circular_flow") then "Circular Flow — " + Piece(Split(pattern, ':'), 1)
    else if StartsWith(pattern, "repetition") then
      var parts := Split(pattern, ':');
      "Repetition — " + Piece(parts, 1) + " (" + Piece(parts, 2) + ")"
    else if pattern == "network_isolation" then "Network Isolation — Closed group detected"
    else if pattern == "legitimacy_dampener_applied" then "Legitimacy Dampener — Risk reduced 30%"
    else pattern
  }

  /** Where the pair holds no colon, a density tag is labelled with its pair. */
  lemma LabelOfDensitySpike(pair: string)
    requires ':' !in pair
    ensures PatternLabel(Text(DensitySpike(pair))) == "Density Spike — " + pair
  {
    SplitNoSeparator(pair, ':');
    SplitFirst("density_spike", pair, ':');
    assert Text(DensitySpike(pair)) == "density_spike" + [':'] + pair;
  }

  /** Where the pair holds no colon, a repetition tag is labelled with its
      pair, then its bucket and count in parentheses. */
  lemma LabelOfRepetition(pair: string, b: Bucket, n: nat)
    requires ':' !in pair
    ensures PatternLabel(Text(Repetition(pair, b, n)))
      == "Repetition — " + pair + " (" + (BucketName(b) + "x" + NatToString(n)) + ")"
  {
    var rest := BucketName(b) + "x" + NatToString(n);
    CountSuffixAvoidsColon(b, n);
    RepetitionText(pair, b, n);
    RepetitionTextShape(Text(Repetition(pair, b, n)), pair, rest);
    LabelOfRepetitionParts(Text(Repetition(pair, b, n)), pair, rest);
  }

  /** A repetition tag's text: kind, pair, then bucket and count. */
  lemma RepetitionText(pair: string, b: Bucket, n: nat)
    ensures Text(Repetition(pair, b, n)) == "repetition:" + pair + ":" + (BucketName(b) + "x" + NatToString(n))
  {
  }

  /** The bucket and count after a repetition tag's second colon hold no colon. */
  lemma CountSuffixAvoidsColon(b: Bucket, n: nat)
    ensures ':' !in BucketName(b) + "x" + NatToString(n)
  {
    var d := NatToString(n);
    assert ':' !in d by {
      assert forall i :: 0 <= i < |d| ==> '0' <= d[i] <= '9';
    }
  }

  /** Where neither holds a colon, `repetition:<pair>:<rest>` splits into the
      kind, the pair and the rest. */
  lemma RepetitionTextShape(t: string, pair: string, rest: string)
    requires ':' !in pair && ':' !in rest && t == "repetition:" + pair + ":" + rest
    ensures StartsWith(t, "repetition") && t[0] == 'r' && Split(t, ':') == ["repetition", pair, rest]
  {
    var kind := "repetition";
    assert t == kind + [':'] + (pair + [':'] + rest);
    assert ':' !in kind;
    SplitThree(kind, pair, rest, ':');
  }

  /** Three pieces without the separator, joined by it, split back into them. */
  lemma SplitThree(a: string, b: string, c: string, sep: char)
    requires sep !in a && sep !in b && sep !in c
    ensures Split(a + [sep] + (b + [sep] + c), sep) == [a, b, c]
  {
    SplitNoSeparator(c, sep);
    SplitFirst(b, c, sep);
    SplitFirst(a, b + [sep] + c, sep);
  }

  /** A text that starts with `repetition` and splits into three parts is
      labelled with the second and third. */
  lemma LabelOfRepetitionParts(t: string, pair: string, rest: string)
    requires StartsWith(t, "repetition") && t[0] == 'r' && Split(t, ':') == ["repetition", pair, rest]
    ensures PatternLabel(t) == "Repetition — " + pair + " (" + rest + ")"
  {
    DiffersFrom(t, "density_spike", 0);
    DiffersFrom(t, "circular_flow", 0);
  }

  /** Where no entity on the path holds a colon, a circular-flow tag is
      labelled with the path. */
  lemma LabelOfCircularFlow(path: seq<Entity>)
    requires forall i :: 0 <= i < |path| ==> ':' !in path[i]
    ensures PatternLabel(Text(CircularFlow(path))) == "Circular Flow — " + Join(path, [Arrow])
  {
    JoinAvoids(path, [Arrow], ':');
    LabelOfCircularText(Join(path, [Arrow]));
  }

  lemma LabelOfCircularText(joined: string)
    requires ':' !in joined
    ensures PatternLabel("circular_flow:" + joined) == "Circular Flow — " + joined
  {
    SplitNoSeparator(joined, ':');
    SplitFirst("circular_flow", joined, ':');
    var t := "circular_flow:" + joined;
    assert t == "circular_flow" + [':'] + joined;
    DiffersFrom(t, "density_spike", 0);
  }

  /** The isolation and dampener tags have fixed labels. */
  lemma LabelOfFixedTags()
    ensures PatternLabel(Text(NetworkIsolation)) == "Network Isolation — Closed group detected"
    ensures PatternLabel(Text(LegitimacyDampenerApplied)) == "Legitimacy Dampener — Risk reduced 30%"
  {
    DiffersFrom("network_isolation", "density_spike", 0);
    DiffersFrom("network_isolation", "circular_flow", 0);
    DiffersFrom("network_isolation", "repetition", 0);
    DiffersFrom("legitimacy_dampener_applied", "density_spike", 0);
    DiffersFrom("legitimacy_dampener_applied", "circular_flow", 0);
    DiffersFrom("legitimacy_dampener_applied", "repetition", 0);
  }

  /** A colon inside an entity name cuts the label short. */
  lemma LabelCutAtColon()
    ensures PatternLabel(Text(DensitySpike("A:B" + [Arrow] + "C"))) == "Density Spike — A"
  {
    var pair := "A:B" + [Arrow] + "C";
    SplitNoSeparator("B" + [Arrow] + "C", ':');
    SplitFirst("A", "B" + [Arrow] + "C", ':');
    assert pair == "A" + [':'] + ("B" + [Arrow] + "C");
    SplitFirst("density_spike", pair, ':');
    assert Text(DensitySpike(pair)) == "density_spike" + [':'] + pair;
  }

  /** A string that is not a tag of a known kind is shown as it is. */
  lemma LabelOfOtherText(s: string)
    requires !StartsWith(s, "density_spike") && !StartsWith(s, "circular_flow") && !StartsWith(s, "repetition")
    requires s != "network_isolation" && s != "legitimacy_dampener_applied"
    ensures PatternLabel(s) == s
  {
  }
}
