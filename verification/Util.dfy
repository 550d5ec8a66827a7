/** Options, and sums over sequences: the arithmetic shared by the stock, order and money models. */
module Util {

  datatype Option<+T> = None | Some(value: T) {
    /** The source's `??` operator. */
    function GetOr(default: T): T {
      if Some? then value else default
    }
  }

  function Sum<T>(xs: seq<T>, f: T -> int): int {
    if xs == [] then 0 else Sum(xs[..|xs| - 1], f) + f(xs[|xs| - 1])
  }

  lemma SumPush<T>(xs: seq<T>, x: T, f: T -> int)
    ensures Sum(xs + [x], f) == Sum(xs, f) + f(x)
  {
    assert (xs + [x])[..|xs|] == xs;
  }

  lemma {:induction false} SumConcat<T>(xs: seq<T>, ys: seq<T>, f: T -> int)
    ensures Sum(xs + ys, f) == Sum(xs, f) + Sum(ys, f)
  {
    if ys == [] {
      assert xs + ys == xs;
    } else {
      var front := ys[..|ys| - 1];
      assert xs + ys == (xs + front) + [ys[|ys| - 1]];
      SumConcat(xs, front, f);
      SumPush(xs + front, ys[|ys| - 1], f);
    }
  }

  lemma {:induction false} SumUpdate<T>(xs: seq<T>, i: nat, y: T, f: T -> int)
    requires i < |xs|
    ensures Sum(xs[i := y], f) == Sum(xs, f) - f(xs[i]) + f(y)
  {
    var n := |xs| - 1;
    if i == n {
      assert xs[i := y][..n] == xs[..n];
    } else {
      assert xs[i := y][..n] == xs[..n][i := y];
      SumUpdate(xs[..n], i, y, f);
    }
  }

  lemma {:induction false} SumPointwise<A, B>(xs: seq<A>, ys: seq<B>, f: A -> int, g: B -> int)
    requires |xs| == |ys| && forall i :: 0 <= i < |xs| ==> f(xs[i]) == g(ys[i])
    ensures Sum(xs, f) == Sum(ys, g)
  {
    if xs != [] {
      var n := |xs| - 1;
      assert forall i :: 0 <= i < n ==> xs[..n][i] == xs[i] && ys[..n][i] == ys[i];
      SumPointwise(xs[..n], ys[..n], f, g);
    }
  }

  lemma {:induction false} SumNonNegative<T>(xs: seq<T>, f: T -> int)
    requires forall i :: 0 <= i < |xs| ==> f(xs[i]) >= 0
    ensures Sum(xs, f) >= 0
    ensures forall i :: 0 <= i < |xs| ==> f(xs[i]) <= Sum(xs, f)
  {
    if xs != [] {
      var front := xs[..|xs| - 1];
      assert forall i :: 0 <= i < |front| ==> front[i] == xs[i];
      SumNonNegative(front, f);
    }
  }

  lemma SumOne<T>(a: T, f: T -> int)
    ensures Sum([a], f) == f(a)
  {
    SumPush([], a, f);
    assert [] + [a] == [a];
  }

  lemma SumTwo<T>(a: T, b: T, f: T -> int)
    ensures Sum([a, b], f) == f(a) + f(b)
  {
    SumOne(a, f);
    SumPush([a], b, f);
    assert [a] + [b] == [a, b];
  }

  lemma SplitAround<T>(ys: seq<T>, k: nat)
    requires k < |ys|
    ensures ys == (ys[..k] + [ys[k]]) + ys[k + 1..]
  {
  }

  lemma ElementsAround<T>(a: seq<T>, x: T, b: seq<T>)
    ensures multiset((a + [x]) + b) == multiset(a + b) + multiset{x}
  {
  }

  lemma SumAround<T>(a: seq<T>, x: T, b: seq<T>, f: T -> int)
    ensures Sum((a + [x]) + b, f) == Sum(a + b, f) + f(x)
  {
    SumConcat(a + [x], b, f);
    SumPush(a, x, f);
    SumConcat(a, b, f);
  }

  /** A sum does not depend on the order of its terms. */
  lemma {:induction false} SumPermutation<T>(xs: seq<T>, ys: seq<T>, f: T -> int)
    requires multiset(xs) == multiset(ys)
    ensures Sum(xs, f) == Sum(ys, f)
    decreases |xs|
  {
    if xs == [] {
      assert |ys| == |multiset(ys)|;
    } else {
      var n := |xs| - 1;
      assert xs == xs[..n] + [xs[n]];
      assert xs[n] in multiset(ys);
      var k :| 0 <= k < |ys| && ys[k] == xs[n];
      var a, b := ys[..k], ys[k + 1..];
      SplitAround(ys, k);
      ElementsAround(a, xs[n], b);
      SumAround(a, xs[n], b, f);
      assert multiset(xs[..n]) == multiset(xs) - multiset{xs[n]};
      SumPermutation(xs[..n], a + b, f);
    }
  }

  /** A number above all of them. */
  lemma {:induction false} Bound(keys: set<nat>) returns (b: nat)
    ensures forall k :: k in keys ==> k < b
  {
    if keys == {} {
      b := 0;
    } else {
      var k :| k in keys;
      var below := Bound(keys - {k});
      b := if k < below then below else k + 1;
      assert forall x :: x in keys ==> x == k || x in keys - {k};
    }
  }
}
