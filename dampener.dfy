/** Detector 5, the legitimacy dampener
    (supabase/functions/analyze-micro-transactions/index.ts:106-113 and
    132-143): `entityConnections` maps each entity to the set of entities it
    sent to or received from; an entity with more than six such partners marks
    the batch as legitimate-looking, and the points are cut to 70%. */
module Dampener {
  import opened Seqs
  import opened Transactions

  /** `entityConnections[n]`: everyone `n` sent to or received from. */
  function Partners(rs: seq<Record>, n: Entity): set<Entity>
  {
    if rs == [] then {}
    else
      var r := rs[|rs| - 1];
      Partners(rs[..|rs| - 1], n)
        + (if r.sender == n then {r.receiver} else {})
        + (if r.receiver == n then {r.sender} else {})
  }

  /** Some entity of the batch has more than six partners (lines 133-140). */
  predicate Diverse(rs: seq<Record>)
  {
    exists j :: 0 <= j < |Entities(rs)| && |Partners(rs, Entities(rs)[j])| > 6
  }

  lemma {:induction false} PartnersMembership(rs: seq<Record>, n: Entity, m: Entity)
    ensures m in Partners(rs, n) <==>
      exists r :: r in rs && ((r.sender == n && r.receiver == m) || (r.receiver == n && r.sender == m))
  {
    if rs != [] {
      PartnersMembership(rs[..|rs| - 1], n, m);
      assert rs == rs[..|rs| - 1] + [rs[|rs| - 1]];
    }
  }

  /** Only an entity of the batch has partners. */
  lemma PartnersOfOutsider(rs: seq<Record>, n: Entity)
    requires n !in Entities(rs)
    ensures Partners(rs, n) == {}
  {
    EntitiesProperties(rs);
    forall m | m in Partners(rs, n) ensures false {
      PartnersMembership(rs, n, m);
    }
  }

  /** The dampener fires exactly when some entity, of the batch or not, has
      more than six distinct partners. */
  lemma DiverseIff(rs: seq<Record>)
    ensures Diverse(rs) <==> exists n :: |Partners(rs, n)| > 6
  {
    if n :| |Partners(rs, n)| > 6 {
      if n !in Entities(rs) {
        PartnersOfOutsider(rs, n);
      }
      var j :| 0 <= j < |Entities(rs)| && Entities(rs)[j] == n;
    }
  }

  /** Each record adds at most two partners to an entity. */
  lemma {:induction false} PartnersBound(rs: seq<Record>, n: Entity)
    ensures |Partners(rs, n)| <= 2 * |rs|
  {
    if rs != [] {
      PartnersBound(rs[..|rs| - 1], n);
      var r := rs[|rs| - 1];
      var a := Partners(rs[..|rs| - 1], n);
      var b := if r.sender == n then {r.receiver} else {};
      var c := if r.receiver == n then {r.sender} else {};
      assert |a + b| <= |a| + |b|;
      assert |a + b + c| <= |a + b| + |c|;
    }
  }

  /** Three records cannot give anyone seven partners. */
  lemma SmallBatchNotDiverse(rs: seq<Record>)
    requires |rs| <= 3
    ensures !Diverse(rs)
  {
    forall n ensures |Partners(rs, n)| <= 6 {
      PartnersBound(rs, n);
    }
  }

  lemma PartnersStep(rs: seq<Record>, i: nat, n: Entity)
    requires i < |rs|
    ensures Partners(rs[..i + 1], n) == Partners(rs[..i], n)
      + (if rs[i].sender == n then {rs[i].receiver} else {})
      + (if rs[i].receiver == n then {rs[i].sender} else {})
  {
    assert rs[..i + 1][..i] == rs[..i];
  }

  /** The partners of `n` once `rs[i]` links its sender and receiver both
      ways, given the partners of `n` before it. */
  function Linked(before: set<Entity>, r: Record, n: Entity): set<Entity>
  {
    before + (if r.sender == n then {r.receiver} else {}) + (if r.receiver == n then {r.sender} else {})
  }

  /** The record `rs[i]` updates the partners of `n` as `Linked` says. */
  lemma ConnectAt(rs: seq<Record>, i: nat, before: set<Entity>, n: Entity)
    requires i < |rs|
    requires before == Partners(rs[..i], n)
    ensures Linked(before, rs[i], n) == Partners(rs[..i + 1], n)
  {
    PartnersStep(rs, i, n);
  }

  /** `if (!entityConnections[e]) entityConnections[e] = new Set()`
      (lines 109-110), where `e` has no partners in `rs[..i]` unless it is a key. */
  method EnsureKey(keys: seq<Entity>, conn: map<Entity, set<Entity>>, e: Entity, ghost rs: seq<Record>, ghost i: nat)
    returns (keys': seq<Entity>, conn': map<Entity, set<Entity>>)
    requires i <= |rs|
    requires forall n :: n in conn <==> n in keys
    requires forall n :: n in conn ==> conn[n] == Partners(rs[..i], n)
    requires e !in conn ==> Partners(rs[..i], e) == {}
    ensures keys' == Insert(keys, e)
    ensures forall n :: n in conn' <==> n in keys'
    ensures forall n :: n in conn' ==> conn'[n] == Partners(rs[..i], n)
  {
    keys', conn' := keys, conn;
    if e !in conn {
      keys', conn' := keys + [e], conn[e := {}];
    }
  }

  /** Lines 111-112: the sender and receiver of `r`, which is `rs[i]`, become
      each other's partners. */
  method AddPartners(conn: map<Entity, set<Entity>>, r: Record, ghost rs: seq<Record>, ghost i: nat)
    returns (conn': map<Entity, set<Entity>>)
    requires i < |rs| && r == rs[i] && r.sender in conn && r.receiver in conn
    requires forall n :: n in conn ==> conn[n] == Partners(rs[..i], n)
    ensures forall n :: n in conn' <==> n in conn
    ensures forall n :: n in conn' ==> conn'[n] == Partners(rs[..i + 1], n)
  {
    conn' := conn[r.sender := conn[r.sender] + {r.receiver}];
    conn' := conn'[r.receiver := conn'[r.receiver] + {r.sender}];
    forall n | n in conn' ensures conn'[n] == Partners(rs[..i + 1], n) {
      assert conn'[n] == Linked(conn[n], r, n);
      ConnectAt(rs, i, conn[n], n);
    }
  }

  /** Lines 109-114 for the record `r`, which is `rs[i]`. */
  method Connect(keys: seq<Entity>, conn: map<Entity, set<Entity>>, r: Record, ghost rs: seq<Record>, ghost i: nat)
    returns (keys': seq<Entity>, conn': map<Entity, set<Entity>>)
    requires i < |rs| && r == rs[i] && keys == Entities(rs[..i])
    requires forall n :: n in conn <==> n in keys
    requires forall n :: n in conn ==> conn[n] == Partners(rs[..i], n)
    ensures keys' == Entities(rs[..i + 1])
    ensures forall n :: n in conn' <==> n in keys'
    ensures forall n :: n in conn' ==> conn'[n] == Partners(rs[..i + 1], n)
  {
    EntitiesStep(rs, i);
    if r.sender !in conn {
      PartnersOfOutsider(rs[..i], r.sender);
    }
    keys', conn' := EnsureKey(keys, conn, r.sender, rs, i);
    if r.receiver !in conn' {
      PartnersOfOutsider(rs[..i], r.receiver);
    }
    keys', conn' := EnsureKey(keys', conn', r.receiver, rs, i);
    conn' := AddPartners(conn', r, rs, i);
  }

  /** Lines 107-113: `entityConnections`, as its key order and its sets. */
  method BuildConnections(rs: seq<Record>) returns (keys: seq<Entity>, conn: map<Entity, set<Entity>>)
    ensures keys == Entities(rs)
    ensures forall n :: n in conn <==> n in keys
    ensures forall n :: n in conn ==> conn[n] == Partners(rs, n)
  {
    keys, conn := [], map[];
    for i := 0 to |rs|
      invariant keys == Entities(rs[..i])
      invariant forall n :: n in conn <==> n in keys
      invariant forall n :: n in conn ==> conn[n] == Partners(rs[..i], n)
    {
      keys, conn := Connect(keys, conn, rs[i], rs, i);
    }
    assert rs[..|rs|] == rs;
  }

  /** Lines 133-140: walks the entries in key order and stops at the first
      entity with more than six partners. */
  method AnyDiverse(keys: seq<Entity>, conn: map<Entity, set<Entity>>) returns (dampened: bool)
    requires forall n :: n in keys ==> n in conn
    ensures dampened <==> exists j :: 0 <= j < |keys| && |conn[keys[j]]| > 6
  {
    dampened := false;
    for j := 0 to |keys|
      invariant forall j' :: 0 <= j' < j ==> |conn[keys[j']]| <= 6
    {
      if |conn[keys[j]]| > 6 {
        dampened := true;
        return;
      }
    }
  }

  /** Over `entityConnections`, the scan finds a diverse entity exactly when
      the batch has one. */
  lemma DiverseByKeys(rs: seq<Record>, keys: seq<Entity>, conn: map<Entity, set<Entity>>)
    requires keys == Entities(rs)
    requires forall n :: n in conn <==> n in keys
    requires forall n :: n in conn ==> conn[n] == Partners(rs, n)
    ensures (exists j :: 0 <= j < |keys| && |conn[keys[j]]| > 6) <==> Diverse(rs)
  {
    assert forall j :: 0 <= j < |keys| ==> conn[keys[j]] == Partners(rs, keys[j]);
  }
}
