/**
 * List facts behind the analyzer's bookkeeping: occurrence counts, the
 * "append if not already present" idiom that keeps a list free of duplicates in
 * first-seen order, and Python's `xs[:n]` slice.
 */
module Seqs {
  function Count<T(==,!new)>(xs: seq<T>, x: T): (n: nat)
    ensures n <= |xs|
    ensures n == 0 <==> x !in xs
  {
    if xs == [] then 0
    else
      assert xs == xs[..|xs| - 1] + [xs[|xs| - 1]];
      Count(xs[..|xs| - 1], x) + (if xs[|xs| - 1] == x then 1 else 0)
  }

  lemma {:induction false} CountAppend<T(!new)>(xs: seq<T>, ys: seq<T>, x: T)
    ensures Count(xs + ys, x) == Count(xs, x) + Count(ys, x)
  {
    if ys != [] {
      var zs := xs + ys;
      assert zs[..|zs| - 1] == xs + ys[..|ys| - 1];
      CountAppend(xs, ys[..|ys| - 1], x);
    } else {
      assert xs + ys == xs;
    }
  }

  ghost predicate NoDups<T>(xs: seq<T>)
  {
    forall i, j :: 0 <= i < j < |xs| ==> xs[i] != xs[j]
  }

  /** `if x not in acc: acc.append(x)`. */
  function AddNew<T(==,!new)>(acc: seq<T>, x: T): (r: seq<T>)
    ensures x in r
    ensures forall y :: y in r <==> y in acc || y == x
    ensures NoDups(acc) ==> NoDups(r)
  {
    if x in acc then acc else acc + [x]
  }

  /** The idiom applied to every element of `xs`, left to right. */
  function AppendNew<T(==,!new)>(acc: seq<T>, xs: seq<T>): (r: seq<T>)
    ensures |acc| <= |r| && r[..|acc|] == acc
    ensures NoDups(acc) ==> NoDups(r)
  {
    if xs == [] then acc
    else AddNew(AppendNew(acc, xs[..|xs| - 1]), xs[|xs| - 1])
  }

  /** Nothing is lost and nothing is invented. */
  lemma {:induction false} AppendNewMembers<T(!new)>(acc: seq<T>, xs: seq<T>)
    ensures forall y :: y in AppendNew(acc, xs) <==> y in acc || y in xs
  {
    if xs != [] {
      assert xs == xs[..|xs| - 1] + [xs[|xs| - 1]];
      AppendNewMembers(acc, xs[..|xs| - 1]);
    }
  }

  lemma {:induction false} AppendNewConcat<T(!new)>(acc: seq<T>, xs: seq<T>, ys: seq<T>)
    ensures AppendNew(acc, xs + ys) == AppendNew(AppendNew(acc, xs), ys)
  {
    if ys == [] {
      assert xs + ys == xs;
    } else {
      var zs, ys' := xs + ys, ys[..|ys| - 1];
      assert zs[..|zs| - 1] == xs + ys';
      assert zs[|zs| - 1] == ys[|ys| - 1];
      AppendNewConcat(acc, xs, ys');
      assert AppendNew(acc, zs) == AddNew(AppendNew(acc, xs + ys'), ys[|ys| - 1]);
    }
  }

  /** The distinct elements of `xs`, each kept at its first occurrence. */
  function Dedup<T(==,!new)>(xs: seq<T>): (r: seq<T>)
    ensures NoDups(r)
    ensures forall y :: y in r <==> y in xs
  {
    AppendNewMembers([], xs);
    AppendNew([], xs)
  }

  lemma DedupSnoc<T(!new)>(xs: seq<T>, x: T)
    ensures Dedup(xs + [x]) == AddNew(Dedup(xs), x)
  {
    assert (xs + [x])[..|xs|] == xs;
  }

  function FirstIndex<T(==,!new)>(xs: seq<T>, y: T): (i: nat)
    requires y in xs
    ensures i < |xs| && xs[i] == y && y !in xs[..i]
  {
    if xs[0] == y then 0
    else
      assert y in xs[1..];
      var i := FirstIndex(xs[1..], y);
      assert xs[..i + 1] == [xs[0]] + xs[1..][..i];
      i + 1
  }

  lemma {:induction false} FirstIndexExtend<T(!new)>(xs: seq<T>, ys: seq<T>, y: T)
    requires y in xs
    ensures FirstIndex(xs + ys, y) == FirstIndex(xs, y)
  {
    if xs[0] != y {
      assert (xs + ys)[1..] == xs[1..] + ys;
      assert y in xs[1..];
      FirstIndexExtend(xs[1..], ys, y);
    }
  }

  /** Distinct elements come out in the order of their first occurrence in the input. */
  lemma {:induction false} DedupKeepsFirstSeenOrder<T(!new)>(xs: seq<T>)
    ensures forall i, j :: 0 <= i < j < |Dedup(xs)| ==>
      FirstIndex(xs, Dedup(xs)[i]) < FirstIndex(xs, Dedup(xs)[j])
  {
    if xs != [] {
      var p, x := xs[..|xs| - 1], xs[|xs| - 1];
      assert xs == p + [x];
      DedupKeepsFirstSeenOrder(p);
      var d := Dedup(p);
      assert Dedup(xs) == AddNew(d, x);
      forall y | y in d ensures FirstIndex(xs, y) == FirstIndex(p, y) {
        FirstIndexExtend(p, [x], y);
      }
      if x !in d {
        assert x !in p;
        assert FirstIndex(xs, x) == |p|;
        forall i, j | 0 <= i < j < |Dedup(xs)|
          ensures FirstIndex(xs, Dedup(xs)[i]) < FirstIndex(xs, Dedup(xs)[j])
        {
          assert Dedup(xs)[i] == d[i];
          if j < |d| { assert Dedup(xs)[j] == d[j]; }
        }
      }
    }
  }

  /** Sum, over the names in `order`, of each name's number of occurrences in `xs`. */
  function SumCounts<T(==,!new)>(order: seq<T>, xs: seq<T>): nat
  {
    if order == [] then 0
    else SumCounts(order[..|order| - 1], xs) + Count(xs, order[|order| - 1])
  }

  lemma {:induction false} SumCountsSnoc<T(!new)>(order: seq<T>, xs: seq<T>, x: T)
    requires NoDups(order)
    ensures SumCounts(order, xs + [x]) == SumCounts(order, xs) + (if x in order then 1 else 0)
  {
    if order != [] {
      var o, y := order[..|order| - 1], order[|order| - 1];
      assert order == o + [y];
      SumCountsSnoc(o, xs, x);
      CountAppend(xs, [x], y);
      assert x in order <==> x in o || x == y;
      assert x == y ==> x !in o;
    }
  }

  /** Counting each distinct element once accounts for every element exactly once. */
  lemma {:induction false} DedupCountsSum<T(!new)>(xs: seq<T>)
    ensures SumCounts(Dedup(xs), xs) == |xs|
  {
    if xs != [] {
      var p, x := xs[..|xs| - 1], xs[|xs| - 1];
      assert xs == p + [x];
      DedupCountsSum(p);
      var d := Dedup(p);
      SumCountsSnoc(d, p, x);
      if x !in d {
        assert Dedup(xs) == d + [x];
        assert (d + [x])[..|d|] == d;
        CountAppend(p, [x], x);
      }
    }
  }

  /** Python's `xs[:n]`; a negative `n` counts from the end. */
  function Take<T(==,!new)>(xs: seq<T>, n: int): (r: seq<T>)
    ensures |r| <= |xs| && r == xs[..|r|]
    ensures n >= 0 ==> |r| == if n < |xs| then n else |xs|
    ensures n < 0 ==> |r| == if |xs| + n > 0 then |xs| + n else 0
  {
    if n >= 0 then (if n < |xs| then xs[..n] else xs)
    else if |xs| + n > 0 then xs[..|xs| + n] else []
  }
}
