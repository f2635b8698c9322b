/** The shape shared by the scripts that turn feedback documents into
    training or export records: each document, in order, contributes its own
    records or none. */
module Records {
  import opened Wrappers

  /** The records of every element, in element order. */
  function FlatMap<T, U>(xs: seq<T>, f: T -> seq<U>): seq<U> {
    if xs == [] then [] else FlatMap(xs[..|xs| - 1], f) + f(xs[|xs| - 1])
  }

  /** The elements that pass `p`, in order. */
  function Filter<T>(xs: seq<T>, p: T -> bool): (ys: seq<T>)
    ensures |ys| <= |xs|
    ensures forall y :: y in ys ==> y in xs && p(y)
  {
    if xs == [] then [] else Filter(xs[..|xs| - 1], p) + (if p(xs[|xs| - 1]) then [xs[|xs| - 1]] else [])
  }

  /** The present results of `f`, in order. */
  function FilterMap<T, U>(xs: seq<T>, f: T -> Option<U>): (ys: seq<U>)
    ensures |ys| <= |xs|
  {
    if xs == [] then []
    else
      var last := f(xs[|xs| - 1]);
      FilterMap(xs[..|xs| - 1], f) + (if last.Some? then [last.value] else [])
  }

  /** A slice within the left operand of a concatenation. */
  lemma SliceLeft<U>(a: seq<U>, b: seq<U>, lo: nat, hi: nat)
    requires lo <= hi <= |a|
    ensures (a + b)[lo..hi] == a[lo..hi]
  {
    assert forall k :: 0 <= k < hi - lo ==> (a + b)[lo..hi][k] == a[lo..hi][k];
  }

  lemma {:induction false} TwoPerKeptLength<T, U>(xs: seq<T>, f: T -> seq<U>, p: T -> bool)
    requires forall x :: |f(x)| == if p(x) then 2 else 0
    ensures |FlatMap(xs, f)| == 2 * |Filter(xs, p)|
  {
    if xs != [] {
      TwoPerKeptLength(xs[..|xs| - 1], f, p);
    }
  }

  /** When every kept element makes exactly two records and every other one
      none, there are twice as many records as kept elements, and records
      `2i` and `2i + 1` are those of the `i`-th kept element. */
  lemma {:induction false} TwoPerKept<T, U>(xs: seq<T>, f: T -> seq<U>, p: T -> bool)
    requires forall x :: |f(x)| == if p(x) then 2 else 0
    ensures |FlatMap(xs, f)| == 2 * |Filter(xs, p)|
    ensures forall i :: 0 <= i < |Filter(xs, p)| ==> FlatMap(xs, f)[2 * i..2 * i + 2] == f(Filter(xs, p)[i])
  {
    TwoPerKeptLength(xs, f, p);
    if xs != [] {
      var init, last := xs[..|xs| - 1], xs[|xs| - 1];
      TwoPerKept(init, f, p);
      var out, kept := FlatMap(init, f), Filter(init, p);
      var all := FlatMap(xs, f);
      assert all == out + f(last);
      if p(last) {
        assert Filter(xs, p) == kept + [last];
        forall i | 0 <= i < |kept| + 1
          ensures all[2 * i..2 * i + 2] == f((kept + [last])[i])
        {
          if i < |kept| {
            SliceLeft(out, f(last), 2 * i, 2 * i + 2);
            assert out[2 * i..2 * i + 2] == f(kept[i]);
          } else {
            assert all[|out|..] == f(last);
          }
        }
      } else {
        assert all == out + [];
        assert Filter(xs, p) == kept;
      }
    }
  }

  /** An element that makes no records adds nothing. */
  lemma {:induction false} FlatMapEmpty<T, U>(xs: seq<T>, f: T -> seq<U>)
    ensures FlatMap(xs, f) == [] <==> forall i :: 0 <= i < |xs| ==> f(xs[i]) == []
  {
    if xs != [] {
      var init := xs[..|xs| - 1];
      FlatMapEmpty(init, f);
      assert forall i :: 0 <= i < |init| ==> init[i] == xs[i];
    }
  }

  /** Two record makers that agree on every element agree on the sequence. */
  lemma {:induction false} FlatMapAgree<T, U>(xs: seq<T>, f: T -> seq<U>, g: T -> seq<U>)
    requires forall i :: 0 <= i < |xs| ==> f(xs[i]) == g(xs[i])
    ensures FlatMap(xs, f) == FlatMap(xs, g)
  {
    if xs != [] {
      var init := xs[..|xs| - 1];
      assert forall i :: 0 <= i < |init| ==> init[i] == xs[i];
      FlatMapAgree(init, f, g);
    }
  }

  /** `FilterMap` keeps exactly the elements `f` has a result for, and those
      results, in order. */
  lemma {:induction false} FilterMapKept<T, U>(xs: seq<T>, f: T -> Option<U>, p: T -> bool)
    requires forall x :: p(x) == f(x).Some?
    ensures |FilterMap(xs, f)| == |Filter(xs, p)|
    ensures forall i :: 0 <= i < |FilterMap(xs, f)| ==> Some(FilterMap(xs, f)[i]) == f(Filter(xs, p)[i])
  {
    if xs != [] {
      var init := xs[..|xs| - 1];
      FilterMapKept(init, f, p);
    }
  }
}
