/** Sequences used as insertion-ordered sets: a JavaScript `Set`, or the key list
    of a JavaScript object, keeps its members in first-insertion order. */
module Seqs {

  /** No element occurs twice. */
  predicate Distinct<T(==)>(xs: seq<T>)
  {
    forall i, j :: 0 <= i < j < |xs| ==> xs[i] != xs[j]
  }

  lemma DistinctSnoc<T>(xs: seq<T>, x: T)
    requires Distinct(xs) && x !in xs
    ensures Distinct(xs + [x])
  {
  }

  /** `set.add(x)` on an insertion-ordered set: appends `x` unless it is already there. */
  function Insert<T(==,!new)>(xs: seq<T>, x: T): (r: seq<T>)
    ensures x in r
    ensures forall y :: y in r <==> y in xs || y == x
    ensures Distinct(xs) ==> Distinct(r)
    ensures xs <= r && |r| <= |xs| + 1
  {
    if x in xs then xs else xs + [x]
  }

  /** The distinct elements of `xs` in the order of their first occurrence:
      what an insertion-ordered set holds after adding `xs` one by one. */
  function Dedup<T(==,!new)>(xs: seq<T>): (r: seq<T>)
    ensures forall y :: y in r <==> y in xs
    ensures Distinct(r)
    ensures |r| <= |xs|
  {
    if xs == [] then [] else Insert(Dedup(xs[..|xs| - 1]), xs[|xs| - 1])
  }

  lemma DedupSnoc<T(!new)>(xs: seq<T>, x: T)
    ensures Dedup(xs + [x]) == Insert(Dedup(xs), x)
  {
    assert (xs + [x])[..|xs|] == xs;
  }

  lemma SingletonDedup<T(!new)>(x: T)
    ensures Dedup([x]) == [x]
  {
    assert [x][..0] == [];
  }

  /** Index of the first occurrence of `x` in `xs`. */
  function FirstIndex<T(==)>(xs: seq<T>, x: T): (i: nat)
    requires x in xs
    ensures i < |xs| && xs[i] == x
    ensures forall j :: 0 <= j < i ==> xs[j] != x
  {
    if xs[0] == x then 0 else 1 + FirstIndex(xs[1..], x)
  }

  lemma FirstIndexAppend<T>(xs: seq<T>, x: T, y: T)
    requires y in xs
    ensures FirstIndex(xs + [x], y) == FirstIndex(xs, y)
  {
    var i := FirstIndex(xs, y);
    var k := FirstIndex(xs + [x], y);
    assert (xs + [x])[i] == y;
    assert k <= i;
    assert xs[k] == (xs + [x])[k];
  }

  /** Dedup lists the elements in strictly increasing order of first occurrence. */
  lemma {:induction false} DedupOrder<T(!new)>(xs: seq<T>)
    ensures forall i, j :: 0 <= i < j < |Dedup(xs)| ==>
      FirstIndex(xs, Dedup(xs)[i]) < FirstIndex(xs, Dedup(xs)[j])
  {
    if xs != [] {
      var init, x := xs[..|xs| - 1], xs[|xs| - 1];
      assert xs == init + [x];
      DedupOrder(init);
      var d := Dedup(init);
      forall i, j | 0 <= i < j < |Dedup(xs)|
        ensures FirstIndex(xs, Dedup(xs)[i]) < FirstIndex(xs, Dedup(xs)[j])
      {
        assert d[i] in init;
        FirstIndexAppend(init, x, d[i]);
        if j < |d| {
          assert d[j] in init;
          FirstIndexAppend(init, x, d[j]);
        } else {
          assert Dedup(xs)[j] == x && x !in init;
          assert FirstIndex(xs, x) == |init| by {
            assert xs[|init|] == x;
          }
        }
      }
    }
  }

  lemma {:induction false} SubsetCard<T>(a: set<T>, b: set<T>)
    requires a <= b
    ensures |a| <= |b|
    decreases a
  {
    if a != {} {
      var x :| x in a;
      SubsetCard(a - {x}, b - {x});
    }
  }

  /** A sequence has at least as many positions as distinct elements. */
  lemma {:induction false} ElementsCard<T>(xs: seq<T>)
    ensures |set x | x in xs| <= |xs|
  {
    if xs != [] {
      var init := xs[..|xs| - 1];
      ElementsCard(init);
      assert (set x | x in xs) == (set x | x in init) + {xs[|xs| - 1]} by {
        assert xs == init + [xs[|xs| - 1]];
      }
    }
  }

  /** `xs.filter(keep)`: the elements `keep` accepts, in their order. */
  function Filter<T>(xs: seq<T>, keep: T -> bool): (r: seq<T>)
    ensures |r| <= |xs|
  {
    if xs == [] then [] else Filter(xs[..|xs| - 1], keep) + (if keep(xs[|xs| - 1]) then [xs[|xs| - 1]] else [])
  }

  lemma FilterLast<T>(xs: seq<T>, keep: T -> bool)
    requires xs != []
    ensures Filter(xs, keep) == Filter(xs[..|xs| - 1], keep) + (if keep(xs[|xs| - 1]) then [xs[|xs| - 1]] else [])
  {
  }

  lemma {:induction false} FilterMembers<T>(xs: seq<T>, keep: T -> bool, x: T)
    ensures x in Filter(xs, keep) <==> x in xs && keep(x)
  {
    if xs != [] {
      FilterMembers(xs[..|xs| - 1], keep, x);
      assert xs == xs[..|xs| - 1] + [xs[|xs| - 1]];
    }
  }

  /** The filter works element by element, so it keeps their order. */
  lemma {:induction false} FilterAppend<T>(a: seq<T>, b: seq<T>, keep: T -> bool)
    ensures Filter(a + b, keep) == Filter(a, keep) + Filter(b, keep)
    decreases |b|
  {
    if b == [] {
      assert a + b == a;
    } else {
      var b' := b[..|b| - 1];
      var ab := a + b;
      FilterAppend(a, b', keep);
      assert ab[..|ab| - 1] == a + b' && ab[|ab| - 1] == b[|b| - 1];
      FilterLast(ab, keep);
      FilterLast(b, keep);
    }
  }

  /** Filtering twice is filtering once. */
  lemma {:induction false} FilterIdempotent<T>(xs: seq<T>, keep: T -> bool)
    ensures Filter(Filter(xs, keep), keep) == Filter(xs, keep)
  {
    if xs != [] {
      var init, last := xs[..|xs| - 1], xs[|xs| - 1];
      FilterIdempotent(init, keep);
      FilterLast(xs, keep);
      var tail := if keep(last) then [last] else [];
      FilterAppend(Filter(init, keep), tail, keep);
      if keep(last) {
        FilterLast([last], keep);
        assert [last][..0] == [];
      }
    }
  }

  /** Elements that all pass come through whole. */
  lemma {:induction false} FilterAll<T>(xs: seq<T>, keep: T -> bool)
    requires forall i :: 0 <= i < |xs| ==> keep(xs[i])
    ensures Filter(xs, keep) == xs
  {
    if xs != [] {
      FilterAll(xs[..|xs| - 1], keep);
      assert xs == xs[..|xs| - 1] + [xs[|xs| - 1]];
    }
  }
}
