/** Array operations the source relies on: `indexOf` and first-occurrence de-duplication. */
module Seqs {

  /** No element occurs twice. */
  predicate Distinct<T(==)>(xs: seq<T>) {
    forall i, j :: 0 <= i < j < |xs| ==> xs[i] != xs[j]
  }

  /** `Array.prototype.indexOf`: the first index at which `x` occurs, or -1 when it does not. */
  function IndexOf<T(==)>(xs: seq<T>, x: T): (k: int)
    ensures -1 <= k < |xs|
    ensures k == -1 <==> x !in xs
    ensures 0 <= k ==> xs[k] == x && x !in xs[..k]
  {
    if xs == [] then -1
    else if xs[0] == x then 0
    else
      var k := IndexOf(xs[1..], x);
      if k == -1 then -1
      else
        assert xs[..k + 1] == [xs[0]] + xs[1..][..k];
        k + 1
  }

  /** The first occurrence in `[h] + t`: 0 at `h`, otherwise one past its place in `t`. */
  lemma IndexOfCons<T>(h: T, t: seq<T>, x: T)
    ensures IndexOf([h] + t, x) == if h == x then 0 else if x in t then IndexOf(t, x) + 1 else -1
  {
    assert ([h] + t)[1..] == t;
  }

  /** Appending an element does not move the first occurrence of anything already present. */
  lemma {:induction false} IndexOfAppend<T>(xs: seq<T>, y: T, x: T)
    ensures IndexOf(xs + [y], x) == if x in xs then IndexOf(xs, x) else if x == y then |xs| else -1
  {
    if xs != [] {
      assert (xs + [y])[1..] == xs[1..] + [y];
      IndexOfAppend(xs[1..], y, x);
    }
  }

  /** The elements of `xs` without repetitions, each kept where it first occurs. */
  function Dedup<T(==)>(xs: seq<T>): seq<T> {
    if xs == [] then []
    else
      var d := Dedup(xs[..|xs| - 1]);
      if xs[|xs| - 1] in d then d else d + [xs[|xs| - 1]]
  }

  /**
   * `Dedup` keeps every element at least once and nothing else, and never repeats one: its
   * elements are exactly those of `xs`, without duplicates.
   */
  lemma {:induction false} DedupFacts<T>(xs: seq<T>)
    ensures Distinct(Dedup(xs))
    ensures forall i :: 0 <= i < |xs| ==> xs[i] in Dedup(xs)
    ensures forall i :: 0 <= i < |Dedup(xs)| ==> Dedup(xs)[i] in xs
    ensures |Dedup(xs)| <= |xs|
  {
    if xs != [] {
      var init, x := xs[..|xs| - 1], xs[|xs| - 1];
      assert xs == init + [x];
      DedupFacts(init);
      forall i | 0 <= i < |xs| ensures xs[i] in Dedup(xs) {
        if i < |init| {
          assert xs[i] == init[i];
        }
      }
    }
  }

  /** Something is kept by `Dedup` exactly when it occurs in the input. */
  lemma DedupMembership<T>(xs: seq<T>, x: T)
    ensures x in Dedup(xs) <==> x in xs
  {
    DedupFacts(xs);
    if x in xs {
      var i :| 0 <= i < |xs| && xs[i] == x;
    }
    if x in Dedup(xs) {
      var i :| 0 <= i < |Dedup(xs)| && Dedup(xs)[i] == x;
    }
  }

  /** The first occurrence is the index that holds `x` with no `x` before it. */
  lemma {:induction false} IndexOfFirst<T>(xs: seq<T>, x: T, k: int)
    requires 0 <= k < |xs| && xs[k] == x && x !in xs[..k]
    ensures IndexOf(xs, x) == k
  {
    if k > 0 {
      assert xs[..k][0] == xs[0];
      assert xs[1..][..k - 1] == xs[..k][1..];
      IndexOfFirst(xs[1..], x, k - 1);
    }
  }

  /** The first occurrence is at or before any index holding the element. */
  lemma {:induction false} IndexOfAtMost<T>(xs: seq<T>, x: T, i: int)
    requires 0 <= i < |xs| && xs[i] == x
    ensures 0 <= IndexOf(xs, x) <= i
  {
    if xs[0] != x {
      assert xs[1..][i - 1] == x;
      IndexOfAtMost(xs[1..], x, i - 1);
      IndexOfCons(xs[0], xs[1..], x);
      assert xs == [xs[0]] + xs[1..];
    }
  }

  /** The one step of `Dedup` that a left-to-right loop takes. */
  lemma DedupSnoc<T>(xs: seq<T>, x: T)
    ensures Dedup(xs + [x]) == if x in Dedup(xs) then Dedup(xs) else Dedup(xs) + [x]
  {
    assert (xs + [x])[..|xs|] == xs;
  }

  /** The step a loop over the prefixes of `xs` takes: the next element is kept when it is new. */
  lemma DedupPrefixStep<T>(xs: seq<T>, i: int)
    requires 0 <= i < |xs|
    ensures Dedup(xs[..i + 1]) == if xs[i] in Dedup(xs[..i]) then Dedup(xs[..i]) else Dedup(xs[..i]) + [xs[i]]
  {
    assert xs[..i + 1] == xs[..i] + [xs[i]];
    DedupSnoc(xs[..i], xs[i]);
  }

  /** `Dedup` lists the distinct elements in the order of their first occurrence. */
  lemma {:induction false} DedupFirstOccurrenceOrder<T>(xs: seq<T>, i: int, j: int)
    requires 0 <= i < j < |Dedup(xs)|
    ensures IndexOf(xs, Dedup(xs)[i]) < IndexOf(xs, Dedup(xs)[j])
  {
    var init, x := xs[..|xs| - 1], xs[|xs| - 1];
    assert xs == init + [x];
    var d := Dedup(init);
    DedupFacts(init);
    IndexOfAppend(init, x, Dedup(xs)[i]);
    IndexOfAppend(init, x, Dedup(xs)[j]);
    if x in d || j < |d| {
      DedupFirstOccurrenceOrder(init, i, j);
    } else {
      assert Dedup(xs)[i] == d[i] && d[i] in init;
    }
  }

  /** A sequence without repetitions has as many elements as the set of its elements. */
  lemma {:induction false} DistinctCardinality<T>(xs: seq<T>)
    requires Distinct(xs)
    ensures |set x | x in xs| == |xs|
  {
    if xs != [] {
      var tail := xs[1..];
      assert Distinct(tail) by {
        forall i, j | 0 <= i < j < |tail| ensures tail[i] != tail[j] {
          assert tail[i] == xs[i + 1] && tail[j] == xs[j + 1];
        }
      }
      DistinctCardinality(tail);
      assert (set x | x in xs) == {xs[0]} + (set x | x in tail);
      assert xs[0] !in (set x | x in tail);
    }
  }
}
