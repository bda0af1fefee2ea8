/** `Array.prototype.filter` and what the model needs to know about it. */
module Seqs {

  /** `xs.filter(keep)`. */
  function Filter<T>(xs: seq<T>, keep: T -> bool): (r: seq<T>)
    ensures |r| <= |xs|
  {
    if |xs| == 0 then []
    else if keep(xs[0]) then [xs[0]] + Filter(xs[1..], keep)
    else Filter(xs[1..], keep)
  }

  /** An element survives filtering exactly when it was there and passes the test. */
  lemma {:induction false} FilterMembership<T>(xs: seq<T>, keep: T -> bool, x: T)
    ensures x in Filter(xs, keep) <==> x in xs && keep(x)
  {
    if |xs| > 0 {
      FilterMembership(xs[1..], keep, x);
      assert xs == [xs[0]] + xs[1..];
    }
  }

  /** The same, for every element at once. */
  lemma FilterMembershipAll<T>(xs: seq<T>, keep: T -> bool)
    ensures forall x :: x in Filter(xs, keep) <==> x in xs && keep(x)
  {
    forall x
      ensures x in Filter(xs, keep) <==> x in xs && keep(x)
    {
      FilterMembership(xs, keep, x);
    }
  }

  /** `sub` is `xs` with some elements dropped and the rest kept in order. */
  predicate IsSubsequence<T(==)>(sub: seq<T>, xs: seq<T>)
    decreases |xs|
  {
    |sub| == 0 || (|xs| > 0 && ((sub[0] == xs[0] && IsSubsequence(sub[1..], xs[1..])) || IsSubsequence(sub, xs[1..])))
  }

  lemma {:induction false} FilterIsSubsequence<T>(xs: seq<T>, keep: T -> bool)
    ensures IsSubsequence(Filter(xs, keep), xs)
  {
    if |xs| > 0 {
      FilterIsSubsequence(xs[1..], keep);
    }
  }

  /** Filtering with a predicate that holds everywhere returns the list unchanged. */
  lemma {:induction false} FilterKeepsAll<T>(xs: seq<T>, keep: T -> bool)
    requires forall i :: 0 <= i < |xs| ==> keep(xs[i])
    ensures Filter(xs, keep) == xs
  {
    if |xs| > 0 {
      FilterKeepsAll(xs[1..], keep);
    }
  }

  /** Tests that agree on every element filter alike. */
  lemma {:induction false} FilterCongruent<T>(xs: seq<T>, keep1: T -> bool, keep2: T -> bool)
    requires forall i :: 0 <= i < |xs| ==> keep1(xs[i]) == keep2(xs[i])
    ensures Filter(xs, keep1) == Filter(xs, keep2)
  {
    if |xs| > 0 {
      FilterCongruent(xs[1..], keep1, keep2);
    }
  }

  /** Filtering distributes over concatenation. */
  lemma {:induction false} FilterConcat<T>(xs: seq<T>, ys: seq<T>, keep: T -> bool)
    ensures Filter(xs + ys, keep) == Filter(xs, keep) + Filter(ys, keep)
  {
    if |xs| > 0 {
      assert (xs + ys)[1..] == xs[1..] + ys;
      FilterConcat(xs[1..], ys, keep);
    } else {
      assert xs + ys == ys;
    }
  }

  /** Index of the first occurrence of `x` in `xs`. */
  function IndexOf<T(==)>(xs: seq<T>, x: T): (i: nat)
    requires x in xs
    ensures i < |xs| && xs[i] == x
    ensures forall j :: 0 <= j < i ==> xs[j] != x
  {
    if xs[0] == x then 0 else 1 + IndexOf(xs[1..], x)
  }

  predicate NoDuplicates<T(==)>(xs: seq<T>) {
    forall i, j :: 0 <= i < j < |xs| ==> xs[i] != xs[j]
  }

  /** A prefix one longer is the prefix followed by the next element. */
  lemma PrefixSnoc<T>(xs: seq<T>, i: nat)
    requires i < |xs|
    ensures xs[..i + 1] == xs[..i] + [xs[i]]
  {
  }


  /** `Array.from(new Set(xs))`: each distinct element once, in order of first occurrence. */
  function Dedup<T(==)>(xs: seq<T>): (r: seq<T>)
    ensures forall i :: 0 <= i < |r| ==> r[i] in xs
    ensures forall i :: 0 <= i < |xs| ==> xs[i] in r
    ensures NoDuplicates(r)
    decreases |xs|
  {
    if |xs| == 0 then []
    else
      var r := Dedup(xs[..|xs| - 1]);
      var last := xs[|xs| - 1];
      assert xs == xs[..|xs| - 1] + [last];
      if last in r then r else r + [last]
  }

  lemma IndexOfSnoc<T>(xs: seq<T>, z: T, y: T)
    requires y in xs
    ensures IndexOf(xs + [z], y) == IndexOf(xs, y)
    decreases |xs|
  {
    if xs[0] != y {
      assert (xs + [z])[1..] == xs[1..] + [z];
      IndexOfSnoc(xs[1..], z, y);
    }
  }

  lemma IndexOfLast<T>(xs: seq<T>, z: T)
    requires z !in xs
    ensures IndexOf(xs + [z], z) == |xs|
    decreases |xs|
  {
    if |xs| > 0 {
      assert (xs + [z])[1..] == xs[1..] + [z];
      IndexOfLast(xs[1..], z);
    }
  }

  /** The elements of `Dedup(xs)` appear in the order in which `xs` first mentions them. */
  lemma {:induction false} DedupFirstOccurrenceOrder<T>(xs: seq<T>, i: nat, j: nat)
    requires i < j < |Dedup(xs)|
    ensures IndexOf(xs, Dedup(xs)[i]) < IndexOf(xs, Dedup(xs)[j])
    decreases |xs|
  {
    var init := xs[..|xs| - 1];
    var last := xs[|xs| - 1];
    var r := Dedup(init);
    assert xs == init + [last];
    if last in r {
      DedupFirstOccurrenceOrder(init, i, j);
      IndexOfSnoc(init, last, r[i]);
      IndexOfSnoc(init, last, r[j]);
    } else if j < |r| {
      DedupFirstOccurrenceOrder(init, i, j);
      IndexOfSnoc(init, last, r[i]);
      IndexOfSnoc(init, last, r[j]);
    } else {
      IndexOfSnoc(init, last, r[i]);
      IndexOfLast(init, last);
    }
  }

  /** Appending an element either leaves `Dedup` as it was or adds that element at the end. */
  lemma DedupSnoc<T>(xs: seq<T>, z: T)
    ensures Dedup(xs + [z]) == if z in xs then Dedup(xs) else Dedup(xs) + [z]
  {
    assert (xs + [z])[..|xs|] == xs;
  }

  /** Repeating an element already present changes nothing. */
  lemma {:induction false} DedupRun<T>(xs: seq<T>, z: T, n: nat)
    requires z in xs
    ensures Dedup(xs + seq(n, _ => z)) == Dedup(xs)
  {
    if n > 0 {
      DedupRun(xs, z, n - 1);
      assert xs + seq(n, _ => z) == (xs + seq(n - 1, _ => z)) + [z];
      DedupSnoc(xs + seq(n - 1, _ => z), z);
    } else {
      assert xs + seq(n, _ => z) == xs;
    }
  }
}
