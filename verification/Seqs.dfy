/** Facts about sequences without repetitions, shared by the queue and list models. */
module Seqs {
  ghost predicate NoDup<T(!new)>(xs: seq<T>) {
    forall i, j :: 0 <= i < j < |xs| ==> xs[i] != xs[j]
  }

  /** The sequence with the first occurrence of x taken out, the rest keeping its order. */
  function Without<T(==,!new)>(xs: seq<T>, x: T): (r: seq<T>)
    ensures x !in xs ==> r == xs
    ensures x in xs ==> |r| == |xs| - 1
    ensures NoDup(xs) ==> NoDup(r)
    ensures NoDup(xs) ==> forall y :: y in r <==> y in xs && y != x
  {
    if xs == [] then []
    else if xs[0] == x then xs[1..]
    else
      var rest := Without(xs[1..], x);
      assert xs == [xs[0]] + xs[1..];
      assert NoDup(xs) ==> NoDup(xs[1..]) && xs[0] !in xs[1..];
      assert NoDup(xs) ==> forall i :: 0 <= i < |rest| ==> rest[i] in rest && rest[i] != xs[0];
      [xs[0]] + rest
  }

  /** Taking out the element at a known place splices the two halves together. */
  lemma {:induction false} WithoutAt<T(!new)>(xs: seq<T>, i: nat)
    requires i < |xs| && NoDup(xs)
    ensures Without(xs, xs[i]) == xs[..i] + xs[i + 1..]
  {
    if i == 0 {
    } else {
      WithoutAt(xs[1..], i - 1);
      assert xs[0] != xs[i] && xs[1..][i - 1] == xs[i];
      assert xs[..i] + xs[i + 1..] == [xs[0]] + (xs[1..][..i - 1] + xs[1..][i..]);
    }
  }

  lemma NoDupAppend<T(!new)>(xs: seq<T>, x: T)
    requires NoDup(xs) && x !in xs
    ensures NoDup(xs + [x])
  {
  }

  /** An element that is already absent from the front half only leaves the back half. */
  lemma {:induction false} WithoutAppend<T(!new)>(xs: seq<T>, ys: seq<T>, x: T)
    requires x !in xs
    ensures Without(xs + ys, x) == xs + Without(ys, x)
  {
    if xs == [] {
      assert xs + ys == ys;
      assert xs + Without(ys, x) == Without(ys, x);
    } else {
      assert (xs + ys)[0] == xs[0] != x;
      assert (xs + ys)[1..] == xs[1..] + ys;
      WithoutAppend(xs[1..], ys, x);
      assert xs + Without(ys, x) == [xs[0]] + (xs[1..] + Without(ys, x));
    }
  }

  lemma Join<T>(a: seq<T>, b: seq<T>, c: seq<T>)
    ensures (a + b) + c == a + (b + c)
  {
  }
}
