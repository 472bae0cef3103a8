/** Detector 3, circular flow
    (supabase/functions/analyze-micro-transactions/index.ts:73-104): a
    depth-first search, from each sender of a small or medium transfer in
    turn, for a walk over small/medium transfers that returns to its start
    after at least three hops; the first one found is worth +60 and a
    `circular_flow` tag, and the search stops there. */
module CircularFlows {
  import opened Wrappers
  import opened Seqs
  import opened Transactions
  import opened Patterns

  /** An edge of the detector: a small or medium transfer. */
  predicate IsEdge(r: Record)
  {
    r.amount == Small || r.amount == Medium
  }

  /** The sender of every edge, in record order, with repeats. */
  function EdgeSenderSeq(rs: seq<Record>): seq<Entity>
  {
    if rs == [] then []
    else
      var r := rs[|rs| - 1];
      EdgeSenderSeq(rs[..|rs| - 1]) + (if IsEdge(r) then [r.sender] else [])
  }

  /** The keys of `smallMediumEdges`, in insertion order. */
  function EdgeSenders(rs: seq<Record>): seq<Entity>
  {
    Dedup(EdgeSenderSeq(rs))
  }

  /** The receiver of every edge out of `n`, in record order, with repeats. */
  function ReceiverSeq(rs: seq<Record>, n: Entity): seq<Entity>
  {
    if rs == [] then []
    else
      var r := rs[|rs| - 1];
      ReceiverSeq(rs[..|rs| - 1], n) + (if IsEdge(r) && r.sender == n then [r.receiver] else [])
  }

  /** `smallMediumEdges[n]`, in insertion order. */
  function Neighbours(rs: seq<Record>, n: Entity): seq<Entity>
  {
    Dedup(ReceiverSeq(rs, n))
  }

  /** The edge map: each key maps to its neighbours in insertion order. */
  type Edges = map<Entity, seq<Entity>>

  /** The entities some edge of `e` leads to: the nodes the search can mark visited. */
  function Targets(e: Edges): (u: set<Entity>)
    ensures forall n, m :: n in e && m in e[n] ==> m in u
  {
    set n, m | n in e && m in e[n] :: m
  }

  /** Every neighbour in `e` is in `u`. */
  predicate Within(e: Edges, u: set<Entity>)
  {
    forall n, m :: n in e && m in e[n] ==> m in u
  }

  /** One entry of the search stack. */
  datatype Frame = Frame(node: Entity, path: seq<Entity>)

  /** What scanning one node's neighbours leaves: a closed walk, or the new
      stack and visited set. */
  datatype Scan = Closed(walk: seq<Entity>) | Open(stack: seq<Frame>, visited: set<Entity>)

  /** The `for (const next of neighbors)` loop (lines 90-101) over the
      neighbours `ns` of the frame with path `path`. */
  function ScanNeighbours(start: Entity, path: seq<Entity>, ns: seq<Entity>, stack: seq<Frame>,
                          visited: set<Entity>): (r: Scan)
    ensures r.Open? ==> visited <= r.visited && forall x :: x in r.visited ==> x in visited || x in ns
    ensures r.Open? && r.visited == visited ==> r.stack == stack
    ensures r.Open? ==> stack <= r.stack && forall j :: |stack| <= j < |r.stack| ==>
      r.stack[j].node in ns && r.stack[j].path == path + [r.stack[j].node] && |path| < 6
    ensures r.Closed? ==> r.walk == path + [start] && start in ns && |path| >= 3
    decreases |ns|
  {
    if ns == [] then Open(stack, visited)
    else
      var next := ns[0];
      if next == start && |path| >= 3 then Closed(path + [start])
      else if next !in visited && |path| < 6 then
        ScanNeighbours(start, path, ns[1..], stack + [Frame(next, path + [next])], visited + {next})
      else
        ScanNeighbours(start, path, ns[1..], stack, visited)
  }

  /** The `while` loop at lines 86-102: pops frames until a walk closes or the
      stack is empty. */
  function Search(e: Edges, u: set<Entity>, start: Entity, stack: seq<Frame>, visited: set<Entity>)
    : Option<seq<Entity>>
    requires Within(e, u) && visited <= u
    decreases u - visited, |stack|
  {
    if stack == [] then None
    else
      var f := stack[|stack| - 1];
      var rest := stack[..|stack| - 1];
      if f.node !in e then Search(e, u, start, rest, visited)
      else
        match ScanNeighbours(start, f.path, e[f.node], rest, visited)
        case Closed(w) => Some(w)
        case Open(stack', visited') => Search(e, u, start, stack', visited')
  }

  /** The search from one start (lines 84-102). */
  function SearchFrom(e: Edges, start: Entity): Option<seq<Entity>>
  {
    Search(e, Targets(e), start, [Frame(start, [start])], {})
  }

  /** The outer loop at lines 83-104: the first start whose search closes a walk. */
  function FindCycle(e: Edges, starts: seq<Entity>): Option<seq<Entity>>
  {
    if starts == [] then None
    else
      match SearchFrom(e, starts[0])
      case Some(w) => Some(w)
      case None => FindCycle(e, starts[1..])
  }

  /** Whether the search of lines 86-102 pops a frame whose node is in `bad`
      before it closes a walk. An inherited name popped there makes line 88
      read a function, which passes the guard at line 89 and cannot be
      iterated at line 90. */
  function SearchTrips(e: Edges, u: set<Entity>, start: Entity, stack: seq<Frame>, visited: set<Entity>,
                       bad: set<Entity>): bool
    requires Within(e, u) && visited <= u
    decreases u - visited, |stack|
  {
    if stack == [] then false
    else
      var f := stack[|stack| - 1];
      var rest := stack[..|stack| - 1];
      if f.node in bad then true
      else if f.node !in e then SearchTrips(e, u, start, rest, visited, bad)
      else
        match ScanNeighbours(start, f.path, e[f.node], rest, visited)
        case Closed(_) => false
        case Open(stack', visited') => SearchTrips(e, u, start, stack', visited', bad)
  }

  /** Whether the outer loop at lines 83-104 pops a node in `bad` before some
      start closes a walk. */
  function FindCycleTrips(e: Edges, starts: seq<Entity>, bad: set<Entity>): bool
  {
    if starts == [] then false
    else if SearchTrips(e, Targets(e), starts[0], [Frame(starts[0], [starts[0]])], {}, bad) then true
    else if SearchFrom(e, starts[0]).Some? then false
    else FindCycleTrips(e, starts[1..], bad)
  }

  /** The edge map of a batch. */
  function EdgeMap(rs: seq<Record>): (e: Edges)
    ensures forall n :: n in e <==> n in EdgeSenders(rs)
    ensures forall n :: n in e ==> e[n] == Neighbours(rs, n)
  {
    map n | n in EdgeSenders(rs) :: Neighbours(rs, n)
  }

  /** The circular-flow tags of a batch: none, or the first closed walk. */
  function CycleTags(rs: seq<Record>): seq<Pattern>
  {
    FlowTags(FindCycle(EdgeMap(rs), EdgeSenders(rs)))
  }

  /** The tag list for the walk the search found, if any. */
  function FlowTags(found: Option<seq<Entity>>): seq<Pattern>
  {
    if found.Some? then [CircularFlow(found.value)] else []
  }

  // ---------------------------------------------------------------------------
  // Facts about the specification

  /** `w` is a walk along the edges of `e`. */
  predicate Walk(e: Edges, w: seq<Entity>)
  {
    forall j :: 0 <= j < |w| - 1 ==> w[j] in e && w[j + 1] in e[w[j]]
  }

  /** A stack frame holds a walk of 1 to 6 entities from `start` to its node. */
  predicate FrameOk(e: Edges, start: Entity, f: Frame)
  {
    && 1 <= |f.path| <= 6
    && f.path[0] == start
    && f.path[|f.path| - 1] == f.node
    && Walk(e, f.path)
  }

  predicate StackOk(e: Edges, start: Entity, stack: seq<Frame>)
  {
    forall j :: 0 <= j < |stack| ==> FrameOk(e, start, stack[j])
  }

  /** A closed walk as the detector reports it: from start back to start over
      three to six hops. */
  predicate ClosedWalk(e: Edges, w: seq<Entity>)
  {
    && 4 <= |w| <= 7
    && w[0] == w[|w| - 1]
    && Walk(e, w)
  }

  lemma WalkExtend(e: Edges, w: seq<Entity>, m: Entity)
    requires |w| >= 1 && Walk(e, w) && w[|w| - 1] in e && m in e[w[|w| - 1]]
    ensures Walk(e, w + [m])
  {
    var w' := w + [m];
    forall j | 0 <= j < |w'| - 1 ensures w'[j] in e && w'[j + 1] in e[w'[j]] {
      if j < |w| - 1 {
        assert w'[j] == w[j] && w'[j + 1] == w[j + 1];
      }
    }
  }

  /** Scanning the neighbours of a good frame keeps the stack good and closes
      only walks that return to the start. */
  lemma ScanSound(e: Edges, start: Entity, f: Frame, rest: seq<Frame>, visited: set<Entity>)
    requires FrameOk(e, start, f) && f.node in e && StackOk(e, start, rest)
    ensures var r := ScanNeighbours(start, f.path, e[f.node], rest, visited);
      && (r.Open? ==> StackOk(e, start, r.stack))
      && (r.Closed? ==> ClosedWalk(e, r.walk))
  {
    var r := ScanNeighbours(start, f.path, e[f.node], rest, visited);
    if r.Open? {
      forall j | 0 <= j < |r.stack| ensures FrameOk(e, start, r.stack[j]) {
        if j >= |rest| {
          WalkExtend(e, f.path, r.stack[j].node);
        } else {
          assert r.stack[j] == rest[j];
        }
      }
    } else {
      WalkExtend(e, f.path, start);
    }
  }

  /** Whatever the search reports is a closed walk. */
  lemma {:induction false} SearchSound(e: Edges, u: set<Entity>, start: Entity, stack: seq<Frame>, visited: set<Entity>)
    requires Within(e, u) && visited <= u && StackOk(e, start, stack)
    ensures Search(e, u, start, stack, visited).Some? ==> ClosedWalk(e, Search(e, u, start, stack, visited).value)
    decreases u - visited, |stack|
  {
    if stack != [] {
      var f := stack[|stack| - 1];
      var rest := stack[..|stack| - 1];
      assert StackOk(e, start, rest) by {
        forall j | 0 <= j < |rest| ensures FrameOk(e, start, rest[j]) {
          assert rest[j] == stack[j];
        }
      }
      assert FrameOk(e, start, f);
      if f.node !in e {
        SearchSound(e, u, start, rest, visited);
      } else {
        ScanSound(e, start, f, rest, visited);
        match ScanNeighbours(start, f.path, e[f.node], rest, visited)
        case Closed(w) =>
        case Open(stack', visited') =>
          SearchSound(e, u, start, stack', visited');
      }
    }
  }

  lemma {:induction false} FindCycleSound(e: Edges, starts: seq<Entity>)
    ensures FindCycle(e, starts).Some? ==> ClosedWalk(e, FindCycle(e, starts).value)
  {
    if starts != [] {
      var s := starts[0];
      SearchSound(e, Targets(e), s, [Frame(s, [s])], {});
      FindCycleSound(e, starts[1..]);
    }
  }

  /** A node the search pops is its start or a neighbour in `e`. */
  lemma {:induction false} TripReached(e: Edges, u: set<Entity>, start: Entity, stack: seq<Frame>,
                                       visited: set<Entity>, bad: set<Entity>)
    requires Within(e, u) && visited <= u
    requires forall j :: 0 <= j < |stack| ==> stack[j].node == start || stack[j].node in u
    requires SearchTrips(e, u, start, stack, visited, bad)
    ensures start in bad || exists x :: x in bad && x in u
    decreases u - visited, |stack|
  {
    var f := stack[|stack| - 1];
    var rest := stack[..|stack| - 1];
    assert forall j :: 0 <= j < |rest| ==> rest[j] == stack[j];
    if f.node in bad {
    } else if f.node !in e {
      TripReached(e, u, start, rest, visited, bad);
    } else {
      match ScanNeighbours(start, f.path, e[f.node], rest, visited)
      case Open(stack', visited') =>
        assert forall j :: 0 <= j < |rest| ==> stack'[j] == rest[j];
        TripReached(e, u, start, stack', visited', bad);
    }
  }

  /** The search pops a node in `bad` only if a start or a neighbour is in `bad`. */
  lemma {:induction false} FindCycleTripsReached(e: Edges, starts: seq<Entity>, bad: set<Entity>)
    requires FindCycleTrips(e, starts, bad)
    ensures (exists s :: s in starts && s in bad) || exists x :: x in bad && x in Targets(e)
  {
    var s := starts[0];
    if SearchTrips(e, Targets(e), s, [Frame(s, [s])], {}, bad) {
      TripReached(e, Targets(e), s, [Frame(s, [s])], {}, bad);
    } else {
      FindCycleTripsReached(e, starts[1..], bad);
    }
  }

  /** The edge map of a batch of one small or medium record. */
  lemma SingleEdgeMap(r: Record)
    requires IsEdge(r)
    ensures EdgeSenders([r]) == [r.sender]
    ensures r.sender in EdgeMap([r]) && EdgeMap([r])[r.sender] == [r.receiver]
  {
    SingleSender(r);
    SingleNeighbour(r);
  }

  lemma SingleSender(r: Record)
    requires IsEdge(r)
    ensures EdgeSenders([r]) == [r.sender]
  {
    assert [r][..0] == [];
    assert EdgeSenderSeq([r]) == [r.sender];
    SingletonDedup(r.sender);
  }

  lemma SingleNeighbour(r: Record)
    requires IsEdge(r)
    ensures Neighbours([r], r.sender) == [r.receiver]
  {
    assert [r][..0] == [];
    assert ReceiverSeq([r], r.sender) == [r.receiver];
    SingletonDedup(r.receiver);
  }

  /** When `a`'s only neighbour is a name in `bad`, the search from `a` pushes
      that name and then pops it. */
  lemma InheritedNeighbourTrips(e: Edges, a: Entity, b: Entity, bad: set<Entity>)
    requires a in e && e[a] == [b] && a !in bad && b in bad
    ensures FindCycleTrips(e, [a], bad)
  {
    var u := Targets(e);
    var top := [Frame(a, [a])];
    assert b in e[a] && e[a] == [b];
    ScanSingle(a, [a], b, [], {});
    assert top[..0] == [];
    assert [a] + [b] == [a, b] && {} + {b} == {b};
    assert [] + [Frame(b, [a, b])] == [Frame(b, [a, b])];
    assert ScanNeighbours(a, [a], e[a], top[..0], {}) == Open([Frame(b, [a, b])], {b});
    assert SearchTrips(e, u, a, [Frame(b, [a, b])], {b}, bad);
    assert SearchTrips(e, u, a, top, {}, bad);
  }

  lemma {:induction false} ReceiverSeqMembership(rs: seq<Record>, n: Entity, m: Entity)
    ensures m in ReceiverSeq(rs, n) <==> exists r :: r in rs && IsEdge(r) && r.sender == n && r.receiver == m
  {
    if rs != [] {
      ReceiverSeqMembership(rs[..|rs| - 1], n, m);
      assert rs == rs[..|rs| - 1] + [rs[|rs| - 1]];
    }
  }

  /** Some small or medium transfer of `rs` goes from `n` to `m`. */
  predicate Transfer(rs: seq<Record>, n: Entity, m: Entity)
  {
    exists r :: r in rs && IsEdge(r) && r.sender == n && r.receiver == m
  }

  lemma {:induction false} EdgeSenderSeqRecords(rs: seq<Record>, n: Entity)
    ensures n in EdgeSenderSeq(rs) <==> exists r :: r in rs && IsEdge(r) && r.sender == n
  {
    if rs != [] {
      EdgeSenderSeqRecords(rs[..|rs| - 1], n);
      assert rs == rs[..|rs| - 1] + [rs[|rs| - 1]];
    }
  }

  /** What `smallMediumEdges` holds once lines 74-80 have run: a key for each
      sender of a small or medium transfer and no other, and under it each
      receiver of such a transfer from that sender, once. */
  lemma EdgeMapMeaning(rs: seq<Record>)
    ensures forall n :: n in EdgeMap(rs) <==> exists r :: r in rs && IsEdge(r) && r.sender == n
    ensures forall n, m :: n in EdgeMap(rs) ==> (m in EdgeMap(rs)[n] <==> Transfer(rs, n, m))
    ensures forall n :: n in EdgeMap(rs) ==> Distinct(EdgeMap(rs)[n])
  {
    forall n ensures n in EdgeMap(rs) <==> exists r :: r in rs && IsEdge(r) && r.sender == n {
      EdgeSenderSeqRecords(rs, n);
    }
    forall n, m | n in EdgeMap(rs) ensures m in EdgeMap(rs)[n] <==> Transfer(rs, n, m) {
      ReceiverSeqMembership(rs, n, m);
    }
  }

  /** A hop of the edge map of `rs` is a small or medium transfer of `rs`. */
  lemma HopIsTransfer(rs: seq<Record>, e: Edges, n: Entity, m: Entity)
    requires forall k :: k in e ==> e[k] == Neighbours(rs, k)
    requires n in e && m in e[n]
    ensures Transfer(rs, n, m)
  {
    assert m in ReceiverSeq(rs, n);
    ReceiverSeqMembership(rs, n, m);
  }

  /** Every hop of a walk along the edge map of `rs` is a small or medium
      transfer of `rs`. */
  lemma HopsAreTransfers(rs: seq<Record>, e: Edges, w: seq<Entity>)
    requires forall n :: n in e ==> e[n] == Neighbours(rs, n)
    requires Walk(e, w)
    ensures forall j :: 0 <= j < |w| - 1 ==> Transfer(rs, w[j], w[j + 1])
  {
    forall j | 0 <= j < |w| - 1
      ensures Transfer(rs, w[j], w[j + 1])
    {
      HopIsTransfer(rs, e, w[j], w[j + 1]);
    }
  }

  /** The tag for a closed walk along the edge map of `rs`. */
  lemma FlowTagsSound(rs: seq<Record>, e: Edges, found: Option<seq<Entity>>)
    requires forall n :: n in e ==> e[n] == Neighbours(rs, n)
    requires found.Some? ==> ClosedWalk(e, found.value)
    ensures |FlowTags(found)| <= 1
    ensures forall p :: p in FlowTags(found) ==>
      && p.CircularFlow?
      && 4 <= |p.path| <= 7
      && p.path[0] == p.path[|p.path| - 1]
      && forall j :: 0 <= j < |p.path| - 1 ==> Transfer(rs, p.path[j], p.path[j + 1])
    ensures Points(FlowTags(found)) == 60 * |FlowTags(found)|
  {
    if found.Some? {
      var w := found.value;
      assert FlowTags(found) == [CircularFlow(w)];
      PointsSingle(CircularFlow(w));
      forall p | p in FlowTags(found)
        ensures && p.CircularFlow?
                && 4 <= |p.path| <= 7
                && p.path[0] == p.path[|p.path| - 1]
                && forall j :: 0 <= j < |p.path| - 1 ==> Transfer(rs, p.path[j], p.path[j + 1])
      {
        assert p == CircularFlow(w);
        ClosedWalkTransfers(rs, e, w);
      }
    }
  }

  lemma ClosedWalkTransfers(rs: seq<Record>, e: Edges, w: seq<Entity>)
    requires forall n :: n in e ==> e[n] == Neighbours(rs, n)
    requires ClosedWalk(e, w)
    ensures 4 <= |w| <= 7 && w[0] == w[|w| - 1]
    ensures forall j :: 0 <= j < |w| - 1 ==> Transfer(rs, w[j], w[j + 1])
  {
    HopsAreTransfers(rs, e, w);
  }

  /** A circular-flow tag names a walk that leaves its start and comes back to
      it after three to six hops, each hop a small or medium transfer of the
      batch; there is at most one such tag. */
  lemma CycleTagsSound(rs: seq<Record>)
    ensures |CycleTags(rs)| <= 1
    ensures forall p :: p in CycleTags(rs) ==>
      && p.CircularFlow?
      && 4 <= |p.path| <= 7
      && p.path[0] == p.path[|p.path| - 1]
      && forall j :: 0 <= j < |p.path| - 1 ==> Transfer(rs, p.path[j], p.path[j + 1])
    ensures Points(CycleTags(rs)) == 60 * |CycleTags(rs)|
  {
    var e := EdgeMap(rs);
    FindCycleSound(e, EdgeSenders(rs));
    FlowTagsSound(rs, e, FindCycle(e, EdgeSenders(rs)));
  }

  /** Detector 3 emits only circular-flow tags, worth 60 each. */
  lemma CycleTagsKind(rs: seq<Record>)
    ensures forall p :: p in CycleTags(rs) ==> Stage(p) == 2
    ensures Points(CycleTags(rs)) == 60 * |CycleTags(rs)|
  {
    CycleTagsSound(rs);
  }

  /** Scanning a node with a single neighbour. */
  lemma ScanSingle(start: Entity, path: seq<Entity>, next: Entity, stack: seq<Frame>, visited: set<Entity>)
    ensures ScanNeighbours(start, path, [next], stack, visited) ==
      if next == start && |path| >= 3 then Closed(path + [start])
      else if next !in visited && |path| < 6 then Open(stack + [Frame(next, path + [next])], visited + {next})
      else Open(stack, visited)
  {
    assert [next][1..] == [];
  }

  /** Searching from a stack of one frame. */
  lemma SearchTop(e: Edges, u: set<Entity>, start: Entity, f: Frame, visited: set<Entity>)
    requires Within(e, u) && visited <= u && f.node in e
    ensures var s := ScanNeighbours(start, f.path, e[f.node], [], visited);
      Search(e, u, start, [f], visited) == if s.Closed? then Some(s.walk) else Search(e, u, start, s.stack, s.visited)
  {
    assert [f][..0] == [];
  }

  /** Three transfers around a triangle close the walk A→B→C→A from the
      first start. */
  lemma TriangleFound()
    ensures FindCycle(map["A" := ["B"], "B" := ["C"], "C" := ["A"]], ["A", "B", "C"])
      == Some(["A", "B", "C", "A"])
  {
    TriangleFrom(map["A" := ["B"], "B" := ["C"], "C" := ["A"]], "A", "B", "C");
  }

  /** The search from `a` when `a`, `b` and `c` send to each other in a ring. */
  lemma TriangleFrom(e: Edges, a: Entity, b: Entity, c: Entity)
    requires a != b && b != c && c != a
    requires a in e && b in e && c in e && e[a] == [b] && e[b] == [c] && e[c] == [a]
    ensures SearchFrom(e, a) == Some([a, b, c, a])
  {
    var u := Targets(e);
    assert b in e[a];
    TriangleSecond(e, a, b, c);
    SearchTop(e, u, a, Frame(a, [a]), {});
    ScanSingle(a, [a], b, [], {});
    assert [a] + [b] == [a, b] && {} + {b} == {b};
    assert [] + [Frame(b, [a, b])] == [Frame(b, [a, b])];
  }

  /** The ring search once `b` is on the stack. */
  lemma TriangleSecond(e: Edges, a: Entity, b: Entity, c: Entity)
    requires a != b && b != c && c != a
    requires a in e && b in e && c in e && e[a] == [b] && e[b] == [c] && e[c] == [a]
    ensures {b} <= Targets(e)
    ensures Search(e, Targets(e), a, [Frame(b, [a, b])], {b}) == Some([a, b, c, a])
  {
    var u := Targets(e);
    assert b in e[a] && c in e[b];
    TriangleThird(e, a, b, c);
    SearchTop(e, u, a, Frame(b, [a, b]), {b});
    ScanSingle(a, [a, b], c, [], {b});
    assert [a, b] + [c] == [a, b, c] && {b} + {c} == {b, c};
    assert [] + [Frame(c, [a, b, c])] == [Frame(c, [a, b, c])];
  }

  /** The ring search once `c` is on the stack: `c` leads back to `a`. */
  lemma TriangleThird(e: Edges, a: Entity, b: Entity, c: Entity)
    requires a != b && b != c && c != a
    requires a in e && b in e && c in e && e[a] == [b] && e[b] == [c] && e[c] == [a]
    ensures {b, c} <= Targets(e)
    ensures Search(e, Targets(e), a, [Frame(c, [a, b, c])], {b, c}) == Some([a, b, c, a])
  {
    var u := Targets(e);
    assert b in e[a] && c in e[b];
    SearchTop(e, u, a, Frame(c, [a, b, c]), {b, c});
    ScanSingle(a, [a, b, c], a, [], {b, c});
    assert [a, b, c] + [a] == [a, b, c, a];
  }

  /** A transfer sent straight back is no circular flow: the walk A→B→A has
      only two entities, so the search goes on from A and stops. */
  lemma BackAndForthNotFound()
    ensures FindCycle(map["A" := ["B"], "B" := ["A"]], ["A", "B"]) == None
  {
    var e := map["A" := ["B"], "B" := ["A"]];
    BackAndForthFrom(e, "A", "B");
    BackAndForthFrom(e, "B", "A");
    assert ["A", "B"][1..] == ["B"] && ["B"][1..] == [];
  }

  /** The search from `a` when `a` and `b` only send to each other. */
  lemma BackAndForthFrom(e: Edges, a: Entity, b: Entity)
    requires a != b && a in e && b in e && e[a] == [b] && e[b] == [a]
    ensures SearchFrom(e, a) == None
  {
    var u := Targets(e);
    assert b in e[a];
    BackAndForthSecond(e, a, b);
    SearchTop(e, u, a, Frame(a, [a]), {});
    ScanSingle(a, [a], b, [], {});
    assert [a] + [b] == [a, b] && {} + {b} == {b};
    assert [] + [Frame(b, [a, b])] == [Frame(b, [a, b])];
  }

  /** Once `b` is on the stack, `a` is pushed again as a path of two hops,
      and from there `b` is already visited. */
  lemma BackAndForthSecond(e: Edges, a: Entity, b: Entity)
    requires a != b && a in e && b in e && e[a] == [b] && e[b] == [a]
    ensures {b} <= Targets(e)
    ensures Search(e, Targets(e), a, [Frame(b, [a, b])], {b}) == None
  {
    var u := Targets(e);
    assert b in e[a] && a in e[b];
    assert Search(e, u, a, [Frame(a, [a, b, a])], {b, a}) == None by {
      SearchTop(e, u, a, Frame(a, [a, b, a]), {b, a});
      ScanSingle(a, [a, b, a], b, [], {b, a});
    }
    SearchTop(e, u, a, Frame(b, [a, b]), {b});
    ScanSingle(a, [a, b], a, [], {b});
    assert [a, b] + [a] == [a, b, a] && {b} + {a} == {b, a};
    assert [] + [Frame(a, [a, b, a])] == [Frame(a, [a, b, a])];
  }

  // ---------------------------------------------------------------------------
  // The detector

  lemma {:induction false} EdgeSenderSeqMembership(rs: seq<Record>, n: Entity)
    ensures ReceiverSeq(rs, n) == [] <==> n !in EdgeSenderSeq(rs)
  {
    if rs != [] {
      EdgeSenderSeqMembership(rs[..|rs| - 1], n);
    }
  }

  lemma EdgeSendersStep(rs: seq<Record>, i: nat)
    requires i < |rs|
    ensures IsEdge(rs[i]) ==> EdgeSenders(rs[..i + 1]) == Insert(EdgeSenders(rs[..i]), rs[i].sender)
    ensures !IsEdge(rs[i]) ==> EdgeSenders(rs[..i + 1]) == EdgeSenders(rs[..i])
  {
    var S := EdgeSenderSeq(rs[..i]);
    assert rs[..i + 1][..i] == rs[..i];
    if IsEdge(rs[i]) {
      DedupSnoc(S, rs[i].sender);
    } else {
      assert EdgeSenderSeq(rs[..i + 1]) == S + [];
      assert S + [] == S;
    }
  }

  lemma NeighboursStep(rs: seq<Record>, i: nat, n: Entity)
    requires i < |rs|
    ensures IsEdge(rs[i]) && n == rs[i].sender ==>
      Neighbours(rs[..i + 1], n) == Insert(Neighbours(rs[..i], n), rs[i].receiver)
    ensures !(IsEdge(rs[i]) && n == rs[i].sender) ==> Neighbours(rs[..i + 1], n) == Neighbours(rs[..i], n)
  {
    var S := ReceiverSeq(rs[..i], n);
    assert rs[..i + 1][..i] == rs[..i];
    if IsEdge(rs[i]) && n == rs[i].sender {
      DedupSnoc(S, rs[i].receiver);
    } else {
      assert ReceiverSeq(rs[..i + 1], n) == S + [];
      assert S + [] == S;
    }
  }

  lemma EdgesKeep(rs: seq<Record>, i: nat, e: Edges)
    requires i < |rs|
    requires forall n :: n in e ==> e[n] == Neighbours(rs[..i], n)
    ensures forall n :: n in e && !(IsEdge(rs[i]) && n == rs[i].sender) ==> e[n] == Neighbours(rs[..i + 1], n)
  {
    forall n | n in e && !(IsEdge(rs[i]) && n == rs[i].sender) ensures e[n] == Neighbours(rs[..i + 1], n) {
      NeighboursStep(rs, i, n);
    }
  }

  /** Before `rs[i]` is added, a sender that is not yet a key has no neighbours. */
  lemma NewSender(rs: seq<Record>, i: nat, keys: seq<Entity>, s: Entity)
    requires i <= |rs| && keys == EdgeSenders(rs[..i]) && s !in keys
    ensures Neighbours(rs[..i], s) == []
  {
    EdgeSenderSeqMembership(rs[..i], s);
  }

  /** Once the sender of the edge `rs[i]` maps to its new neighbour list, every
      key maps to its neighbours over `rs[..i + 1]`. */
  lemma EdgeValues(rs: seq<Record>, i: nat, e: Edges, ns: seq<Entity>, e': Edges)
    requires i < |rs| && IsEdge(rs[i])
    requires forall n :: n in e ==> e[n] == Neighbours(rs[..i], n)
    requires ns == Neighbours(rs[..i + 1], rs[i].sender) && e' == e[rs[i].sender := ns]
    ensures forall n :: n in e' ==> e'[n] == Neighbours(rs[..i + 1], n)
  {
    EdgesKeep(rs, i, e);
  }

  /** The body of the loop at lines 75-80 for the edge `r`, which is `rs[i]`:
      its sender becomes a key if it was not one, and its receiver joins the
      sender's neighbours. */
  method AddEdge(keys: seq<Entity>, e: Edges, r: Record, ghost rs: seq<Record>, ghost i: nat)
    returns (keys': seq<Entity>, e': Edges)
    requires i < |rs| && r == rs[i] && IsEdge(r)
    requires keys == EdgeSenders(rs[..i])
    requires forall n :: n in e <==> n in keys
    requires forall n :: n in e ==> e[n] == Neighbours(rs[..i], n)
    ensures keys' == EdgeSenders(rs[..i + 1])
    ensures forall n :: n in e' <==> n in keys'
    ensures forall n :: n in e' ==> e'[n] == Neighbours(rs[..i + 1], n)
  {
    EdgeSendersStep(rs, i);
    keys' := keys;
    var ns: seq<Entity> := [];
    if r.sender in e {
      ns := e[r.sender];
    } else {
      NewSender(rs, i, keys, r.sender);
      keys' := keys + [r.sender];
    }
    assert ns == Neighbours(rs[..i], r.sender);
    if r.receiver !in ns {
      ns := ns + [r.receiver];
    }
    NeighboursStep(rs, i, r.sender);
    e' := e[r.sender := ns];
    EdgeValues(rs, i, e, ns, e');
  }

  /** A record that is not an edge leaves `smallMediumEdges` alone. */
  lemma SkipRecord(rs: seq<Record>, i: nat, keys: seq<Entity>, e: Edges)
    requires i < |rs| && !IsEdge(rs[i])
    requires keys == EdgeSenders(rs[..i])
    requires forall n :: n in e ==> e[n] == Neighbours(rs[..i], n)
    ensures keys == EdgeSenders(rs[..i + 1])
    ensures forall n :: n in e ==> e[n] == Neighbours(rs[..i + 1], n)
  {
    EdgeSendersStep(rs, i);
    EdgesKeep(rs, i, e);
  }

  /** Lines 74-80: `smallMediumEdges`, as its key list in insertion order and
      the neighbour list of each key. */
  method BuildEdges(rs: seq<Record>) returns (keys: seq<Entity>, e: Edges)
    ensures keys == EdgeSenders(rs)
    ensures forall n :: n in e <==> n in keys
    ensures forall n :: n in e ==> e[n] == Neighbours(rs, n)
  {
    keys, e := [], map[];
    for i := 0 to |rs|
      invariant keys == EdgeSenders(rs[..i])
      invariant forall n :: n in e <==> n in keys
      invariant forall n :: n in e ==> e[n] == Neighbours(rs[..i], n)
    {
      if IsEdge(rs[i]) {
        keys, e := AddEdge(keys, e, rs[i], rs, i);
      } else {
        SkipRecord(rs, i, keys, e);
      }
    }
    assert rs[..|rs|] == rs;
  }

  /** Lines 90-101: scans the neighbours of the popped frame, pushing each
      unvisited one while the path is shorter than 6 and stopping at the
      first that closes a walk of three or more hops. */
  method ScanFrame(start: Entity, path: seq<Entity>, ns: seq<Entity>, stack: seq<Frame>, visited: set<Entity>)
    returns (found: Option<seq<Entity>>, stack': seq<Frame>, visited': set<Entity>)
    ensures var r := ScanNeighbours(start, path, ns, stack, visited);
      && (found.Some? <==> r.Closed?)
      && (r.Closed? ==> found.value == r.walk)
      && (r.Open? ==> stack' == r.stack && visited' == r.visited)
  {
    found, stack', visited' := None, stack, visited;
    for j := 0 to |ns|
      invariant ScanNeighbours(start, path, ns, stack, visited) == ScanNeighbours(start, path, ns[j..], stack', visited')
    {
      assert ns[j..][1..] == ns[j + 1..];
      var next := ns[j];
      if next == start && |path| >= 3 {
        found := Some(path + [start]);
        return;
      }
      if next !in visited' && |path| < 6 {
        visited' := visited' + {next};
        stack' := stack' + [Frame(next, path + [next])];
      }
    }
  }

  /** Lines 84-102: the search from `start`. */
  method SearchFromStart(e: Edges, start: Entity) returns (found: Option<seq<Entity>>)
    ensures found == SearchFrom(e, start)
  {
    ghost var u := Targets(e);
    var stack := [Frame(start, [start])];
    var visited: set<Entity> := {};
    while stack != []
      invariant visited <= u
      invariant Search(e, u, start, stack, visited) == SearchFrom(e, start)
      decreases u - visited, |stack|
    {
      var f := stack[|stack| - 1];
      stack := stack[..|stack| - 1];
      if f.node in e {
        ghost var before := visited;
        found, stack, visited := ScanFrame(start, f.path, e[f.node], stack, visited);
        if found.Some? {
          return;
        }
        assert forall x :: x in e[f.node] ==> x in u;
      }
    }
    found := None;
  }

  /** Lines 82-104: tries each key of `smallMediumEdges` as the start, in
      order, and stops at the first closed walk. */
  method FindFirstCycle(e: Edges, starts: seq<Entity>) returns (found: Option<seq<Entity>>)
    ensures found == FindCycle(e, starts)
  {
    found := None;
    var j := 0;
    while j < |starts|
      invariant 0 <= j <= |starts|
      invariant found.None?
      invariant FindCycle(e, starts) == FindCycle(e, starts[j..])
    {
      assert starts[j..][1..] == starts[j + 1..];
      found := SearchFromStart(e, starts[j]);
      if found.Some? {
        return;
      }
      j := j + 1;
    }
  }

  /** Lines 73-104. */
  method DetectCircularFlow(rs: seq<Record>, points: int, patterns: seq<Pattern>)
    returns (points': int, patterns': seq<Pattern>)
    ensures patterns' == patterns + CycleTags(rs)
    ensures points' == points + 60 * |CycleTags(rs)|
  {
    var keys, e := BuildEdges(rs);
    assert e == EdgeMap(rs);
    var found := FindFirstCycle(e, keys);
    points', patterns' := points, patterns;
    if found.Some? {
      points' := points' + 60;
      patterns' := patterns' + [CircularFlow(found.value)];
    } else {
      assert patterns' + CycleTags(rs) == patterns';
    }
  }
}
