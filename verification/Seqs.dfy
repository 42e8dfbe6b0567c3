/** Sums over sequences and flattening: the bookkeeping shared by the step models. */
module Seqs {

  datatype Option<+T> = None | Some(value: T)

  function Min(a: int, b: int): int {
    if a <= b then a else b
  }

  function Max(a: int, b: int): int {
    if a >= b then a else b
  }

  function SumBy<T>(f: T -> int, xs: seq<T>): int {
    if |xs| == 0 then 0 else SumBy(f, xs[..|xs| - 1]) + f(xs[|xs| - 1])
  }

  /** Replacing one summand changes the sum by exactly the difference. */
  lemma {:induction false} SumUpdate<T>(f: T -> int, xs: seq<T>, i: nat, x: T)
    requires i < |xs|
    ensures SumBy(f, xs[i := x]) == SumBy(f, xs) - f(xs[i]) + f(x)
  {
    var last := |xs| - 1;
    if i == last {
      assert xs[i := x][..last] == xs[..last];
    } else {
      SumUpdate(f, xs[..last], i, x);
      assert xs[i := x][..last] == xs[..last][i := x];
    }
  }

  lemma SumAppend<T>(f: T -> int, xs: seq<T>, x: T)
    ensures SumBy(f, xs + [x]) == SumBy(f, xs) + f(x)
  {
    assert (xs + [x])[..|xs|] == xs;
  }

  /** A sum of non-negative terms is at least any one of them. */
  lemma {:induction false} SumAtLeast<T>(f: T -> int, xs: seq<T>)
    requires forall k :: 0 <= k < |xs| ==> f(xs[k]) >= 0
    ensures SumBy(f, xs) >= 0
    ensures forall k :: 0 <= k < |xs| ==> f(xs[k]) <= SumBy(f, xs)
  {
    if |xs| == 0 {
    } else {
      var front := xs[..|xs| - 1];
      assert forall k :: 0 <= k < |front| ==> front[k] == xs[k];
      SumAtLeast(f, front);
    }
  }

  lemma {:induction false} SumBound<T>(f: T -> int, xs: seq<T>, bound: int)
    requires forall k :: 0 <= k < |xs| ==> f(xs[k]) <= bound
    ensures SumBy(f, xs) <= bound * |xs|
  {
    if |xs| == 0 {
    } else {
      var front := xs[..|xs| - 1];
      assert forall k :: 0 <= k < |front| ==> front[k] == xs[k];
      SumBound(f, front, bound);
    }
  }

  lemma {:induction false} SumZero<T>(f: T -> int, xs: seq<T>)
    requires forall k :: 0 <= k < |xs| ==> f(xs[k]) == 0
    ensures SumBy(f, xs) == 0
  {
    if |xs| == 0 {
    } else {
      var front := xs[..|xs| - 1];
      assert forall k :: 0 <= k < |front| ==> front[k] == xs[k];
      SumZero(f, front);
    }
  }

  /** Flattening, defined from the back because every history grows at the back. */
  function Concat<T>(xss: seq<seq<T>>): seq<T> {
    if |xss| == 0 then [] else Concat(xss[..|xss| - 1]) + xss[|xss| - 1]
  }

  lemma ConcatAppend<T>(xss: seq<seq<T>>, xs: seq<T>)
    ensures Concat(xss + [xs]) == Concat(xss) + xs
  {
    assert (xss + [xs])[..|xss|] == xss;
  }

  lemma {:induction false} ConcatSplit<T>(xss: seq<seq<T>>, yss: seq<seq<T>>)
    ensures Concat(xss + yss) == Concat(xss) + Concat(yss)
  {
    if |yss| == 0 {
      assert xss + yss == xss;
    } else {
      var front, last := yss[..|yss| - 1], yss[|yss| - 1];
      ConcatSplit(xss, front);
      assert xss + yss == (xss + front) + [last];
      ConcatAppend(xss + front, last);
      assert (Concat(xss) + Concat(front)) + last == Concat(xss) + (Concat(front) + last);
    }
  }

  /** Where the j-th element of the k-th part sits in the flattened sequence. */
  lemma {:induction false} ConcatAt<T>(xss: seq<seq<T>>, k: nat, j: nat)
    requires k < |xss| && j < |xss[k]|
    ensures |Concat(xss[..k])| + j < |Concat(xss)|
    ensures Concat(xss)[|Concat(xss[..k])| + j] == xss[k][j]
    ensures k + 1 <= |xss| && |Concat(xss[..k])| + |xss[k]| <= |Concat(xss)|
  {
    var front := xss[..|xss| - 1];
    if k < |xss| - 1 {
      ConcatAt(front, k, j);
      assert front[..k] == xss[..k];
    }
  }

  /** Every position of the flattened sequence lies in some part. */
  lemma {:induction false} ConcatFind<T>(xss: seq<seq<T>>, i: nat) returns (k: nat, j: nat)
    requires i < |Concat(xss)|
    ensures k < |xss| && j < |xss[k]| && Concat(xss)[i] == xss[k][j]
    ensures |Concat(xss[..k])| + j == i
  {
    var front := xss[..|xss| - 1];
    if i < |Concat(front)| {
      k, j := ConcatFind(front, i);
      assert front[..k] == xss[..k];
    } else {
      k, j := |front|, i - |Concat(front)|;
    }
  }

  // ---- regrouping a pipeline `done + held + kept + waiting` ------------------

  lemma TakeFirst<T>(done: seq<T>, held: seq<T>, waiting: seq<T>)
    requires |waiting| > 0
    ensures done + held + [] + waiting == done + (held + [waiting[0]]) + [] + waiting[1..]
  {
    assert waiting == [waiting[0]] + waiting[1..];
  }

  lemma TakeKept<T>(done: seq<T>, kept: seq<T>, waiting: seq<T>)
    ensures done + [] + kept + waiting == done + kept + [] + waiting
  {}

  lemma KeepLast<T>(done: seq<T>, held: seq<T>, last: T, waiting: seq<T>)
    ensures done + (held + [last]) + [] + waiting == done + held + [last] + waiting
  {}

  lemma HandOver<T>(done: seq<T>, held: seq<T>, kept: seq<T>, waiting: seq<T>)
    ensures done + held + kept + waiting == (done + held) + [] + kept + waiting
  {}

  lemma JoinQueue<T>(done: seq<T>, held: seq<T>, kept: seq<T>, waiting: seq<T>, x: T)
    ensures (done + held + kept + waiting) + [x] == done + held + kept + (waiting + [x])
  {}
}
