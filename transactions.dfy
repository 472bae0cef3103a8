/** The transaction records of a batch and the entity set the analyzer derives
    from them (supabase/functions/analyze-micro-transactions/index.ts). */
module Transactions {
  import opened Seqs

  /** An entity is identified only by its name. */
  type Entity = string

  datatype Bucket = Small | Medium | Large | VeryLarge

  datatype Purpose = Invoice | Salary | Contract | Unknown

  /** One transaction record. The timestamp is an instant in milliseconds. */
  datatype Record = Record(
    sender: Entity,
    receiver: Entity,
    amount: Bucket,
    timestamp: int,
    purpose: Purpose)

  /** The text the source writes for a bucket (the `amount_range` value). */
  function BucketName(b: Bucket): (s: string)
    ensures |s| >= 5 && ':' !in s
  {
    match b
    case Small => "small"
    case Medium => "medium"
    case Large => "large"
    case VeryLarge => "very_large"
  }

  /** The arrow that joins the two entities of a pair key and the entities of a cycle path. */
  const Arrow: char := '→'

  /** The object key of an ordered pair: `${sender}→${receiver}`. */
  function PairKey(sender: Entity, receiver: Entity): string
  {
    sender + [Arrow] + receiver
  }

  function KeyOf(r: Record): string
  {
    PairKey(r.sender, r.receiver)
  }

  /** Every sender and receiver of `rs`, in record order, sender before receiver. */
  function Endpoints(rs: seq<Record>): (es: seq<Entity>)
    ensures |es| == 2 * |rs|
  {
    if rs == [] then []
    else Endpoints(rs[..|rs| - 1]) + [rs[|rs| - 1].sender, rs[|rs| - 1].receiver]
  }

  /** `allEntities`: each sender and receiver once, in first-appearance order. */
  function Entities(rs: seq<Record>): seq<Entity>
  {
    Dedup(Endpoints(rs))
  }

  lemma {:induction false} EndpointsAt(rs: seq<Record>, i: nat)
    requires i < |rs|
    ensures Endpoints(rs)[2 * i] == rs[i].sender && Endpoints(rs)[2 * i + 1] == rs[i].receiver
  {
    if i < |rs| - 1 {
      EndpointsAt(rs[..|rs| - 1], i);
    }
  }

  lemma EndpointsMembership(rs: seq<Record>, e: Entity)
    ensures e in Endpoints(rs) <==> exists r :: r in rs && (r.sender == e || r.receiver == e)
  {
    var es := Endpoints(rs);
    if e in es {
      var k :| 0 <= k < |es| && es[k] == e;
      EndpointsAt(rs, k / 2);
      assert rs[k / 2] in rs;
    }
    if r :| r in rs && (r.sender == e || r.receiver == e) {
      var i :| 0 <= i < |rs| && rs[i] == r;
      EndpointsAt(rs, i);
    }
  }

  /** The entity list lists every sender and receiver exactly once, in order of
      first appearance (sender before receiver within a record). */
  lemma EntitiesProperties(rs: seq<Record>)
    ensures forall e :: e in Entities(rs) <==> exists r :: r in rs && (r.sender == e || r.receiver == e)
    ensures Distinct(Entities(rs))
    ensures forall i, j :: 0 <= i < j < |Entities(rs)| ==>
      FirstIndex(Endpoints(rs), Entities(rs)[i]) < FirstIndex(Endpoints(rs), Entities(rs)[j])
  {
    forall e ensures e in Entities(rs) <==> exists r :: r in rs && (r.sender == e || r.receiver == e) {
      EndpointsMembership(rs, e);
    }
    DedupOrder(Endpoints(rs));
  }

  lemma EndpointsStep(rs: seq<Record>, i: nat)
    requires i < |rs|
    ensures Endpoints(rs[..i + 1]) == Endpoints(rs[..i]) + [rs[i].sender, rs[i].receiver]
  {
    assert rs[..i + 1][..i] == rs[..i];
  }

  lemma EntitiesStep(rs: seq<Record>, i: nat)
    requires i < |rs|
    ensures Entities(rs[..i + 1]) == Insert(Insert(Entities(rs[..i]), rs[i].sender), rs[i].receiver)
  {
    var e := Endpoints(rs[..i]);
    EndpointsStep(rs, i);
    assert e + [rs[i].sender, rs[i].receiver] == (e + [rs[i].sender]) + [rs[i].receiver];
    DedupSnoc(e + [rs[i].sender], rs[i].receiver);
    DedupSnoc(e, rs[i].sender);
  }

  /** `allEntities.add(e)`: the set as its insertion order and its membership. */
  method AddEntity(order: seq<Entity>, members: set<Entity>, e: Entity)
    returns (order': seq<Entity>, members': set<Entity>)
    requires forall x :: x in members <==> x in order
    ensures order' == Insert(order, e)
    ensures forall x :: x in members' <==> x in order'
  {
    order', members' := order, members;
    if e !in members {
      order' := order + [e];
      members' := members + {e};
    }
  }

  /** The `allEntities` loop (lines 21-25): returns the set's insertion order and its membership. */
  method CollectEntities(rs: seq<Record>) returns (order: seq<Entity>, members: set<Entity>)
    ensures order == Entities(rs)
    ensures forall e :: e in members <==> e in order
  {
    order, members := [], {};
    for i := 0 to |rs|
      invariant order == Entities(rs[..i])
      invariant forall e :: e in members <==> e in order
    {
      EntitiesStep(rs, i);
      order, members := AddEntity(order, members, rs[i].sender);
      order, members := AddEntity(order, members, rs[i].receiver);
    }
    assert rs[..|rs|] == rs;
  }
}
