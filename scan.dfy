/**
 * The loop shape every rule of the standards validator shares: walk a list and
 * return at the first element that violates the rule.
 */
module Scan {

  datatype Option<+T> = None | Some(value: T)

  /** The first `Some` among `f(xs[0]), f(xs[1]), ...`, or `None` when every element passes. */
  function First<T, E>(xs: seq<T>, f: T -> Option<E>): Option<E>
    decreases |xs|
  {
    if xs == [] then None
    else if f(xs[0]).Some? then f(xs[0])
    else First(xs[1..], f)
  }

  /** The loop `for x in xs: if f(x) is a violation: return it`, run to its first violation. */
  method FindFirst<T, E>(xs: seq<T>, f: T -> Option<E>) returns (r: Option<E>)
    ensures r == First(xs, f)
  {
    var i := 0;
    assert xs[0..] == xs;
    while i < |xs|
      invariant 0 <= i <= |xs|
      invariant First(xs[i..], f) == First(xs, f)
    {
      FirstStep(xs, i, f);
      r := f(xs[i]);
      if r.Some? {
        return;
      }
      i := i + 1;
    }
    return None;
  }

  /** One iteration of a loop that implements `First`. */
  lemma FirstStep<T, E>(xs: seq<T>, i: nat, f: T -> Option<E>)
    requires i < |xs|
    ensures First(xs[i..], f) == if f(xs[i]).Some? then f(xs[i]) else First(xs[i + 1..], f)
  {
    assert xs[i..][1..] == xs[i + 1..];
  }

  /** The scan passes exactly when every element passes. */
  lemma {:induction false} FirstIsNoneIff<T, E>(xs: seq<T>, f: T -> Option<E>)
    ensures First(xs, f).None? <==> forall x | x in xs :: f(x).None?
    decreases |xs|
  {
    if xs != [] {
      FirstIsNoneIff(xs[1..], f);
      assert forall x | x in xs :: x == xs[0] || x in xs[1..];
    }
  }

  /** A failing scan reports the violation of the earliest failing element. */
  lemma {:induction false} FirstIsEarliest<T, E>(xs: seq<T>, f: T -> Option<E>) returns (i: nat)
    requires First(xs, f).Some?
    ensures i < |xs| && f(xs[i]) == First(xs, f)
    ensures forall j | 0 <= j < i :: f(xs[j]).None?
    decreases |xs|
  {
    if f(xs[0]).Some? {
      i := 0;
    } else {
      var k := FirstIsEarliest(xs[1..], f);
      i := k + 1;
      forall j | 0 <= j < i ensures f(xs[j]).None? {
        if j > 0 { assert xs[j] == xs[1..][j - 1]; }
      }
    }
  }

  /** Scanning a concatenation scans the second part only when the first passes. */
  lemma {:induction false} FirstAppend<T, E>(a: seq<T>, b: seq<T>, f: T -> Option<E>)
    ensures First(a + b, f) == if First(a, f).Some? then First(a, f) else First(b, f)
    decreases |a|
  {
    if a == [] {
      assert a + b == b;
    } else {
      assert (a + b)[0] == a[0];
      assert (a + b)[1..] == a[1..] + b;
      FirstAppend(a[1..], b, f);
    }
  }
}
