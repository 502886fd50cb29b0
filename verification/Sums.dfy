/** Sums and multiset unions over a sequence of processes, and how they move when one process steps. */
module Sums {

  ghost function Sum<T>(xs: seq<T>, weight: T -> nat): nat {
    if xs == [] then 0 else Sum(xs[..|xs| - 1], weight) + weight(xs[|xs| - 1])
  }

  lemma {:induction false} SumUpdate<T>(xs: seq<T>, i: nat, x: T, weight: T -> nat)
    requires i < |xs|
    ensures Sum(xs[i := x], weight) + weight(xs[i]) == Sum(xs, weight) + weight(x)
  {
    var last := |xs| - 1;
    if i == last {
      assert xs[i := x][..last] == xs[..last];
    } else {
      assert xs[i := x][..last] == xs[..last][i := x];
      SumUpdate(xs[..last], i, x, weight);
    }
  }

  ghost function Gather<T, U>(xs: seq<T>, part: T -> multiset<U>): multiset<U> {
    if xs == [] then multiset{} else Gather(xs[..|xs| - 1], part) + part(xs[|xs| - 1])
  }

  lemma {:induction false} MultisetAppend<U>(xs: seq<U>, x: U)
    ensures multiset(xs + [x]) == multiset(xs) + multiset{x}
  {
  }

  /** Adding to a whole that is split in two, in either part. */
  lemma {:induction false} AddToPart<U>(whole: multiset<U>, a: multiset<U>, b: multiset<U>, x: multiset<U>)
    requires whole == a + b
    ensures whole + x == (a + x) + b
    ensures whole + x == a + (b + x)
  {
  }

  lemma {:induction false} Cancel<U>(a: multiset<U>, b: multiset<U>, c: multiset<U>)
    requires a + c == b + c
    ensures a == b
  {
    forall u ensures a[u] == b[u] {
      assert (a + c)[u] == (b + c)[u];
    }
  }

  lemma {:induction false} GatherUpdate<T, U>(xs: seq<T>, i: nat, x: T, part: T -> multiset<U>)
    requires i < |xs|
    ensures Gather(xs[i := x], part) + part(xs[i]) == Gather(xs, part) + part(x)
    ensures part(x) == part(xs[i]) ==> Gather(xs[i := x], part) == Gather(xs, part)
    ensures part(xs[i]) == multiset{} ==> Gather(xs[i := x], part) == Gather(xs, part) + part(x)
    ensures part(x) == multiset{} ==> Gather(xs, part) == Gather(xs[i := x], part) + part(xs[i])
  {
    var last := |xs| - 1;
    if i == last {
      assert xs[i := x][..last] == xs[..last];
    } else {
      assert xs[i := x][..last] == xs[..last][i := x];
      GatherUpdate(xs[..last], i, x, part);
      calc {
        Gather(xs[i := x], part) + part(xs[i]);
        Gather(xs[..last][i := x], part) + part(xs[last]) + part(xs[i]);
        Gather(xs[..last][i := x], part) + part(xs[..last][i]) + part(xs[last]);
        Gather(xs[..last], part) + part(x) + part(xs[last]);
        Gather(xs[..last], part) + part(xs[last]) + part(x);
      }
    }
    if part(x) == part(xs[i]) {
      Cancel(Gather(xs[i := x], part), Gather(xs, part), part(x));
    }
  }

  lemma {:induction false} GatherEmpty<T, U>(xs: seq<T>, part: T -> multiset<U>)
    requires forall i :: 0 <= i < |xs| ==> part(xs[i]) == multiset{}
    ensures Gather(xs, part) == multiset{}
  {
    if xs != [] {
      var last := |xs| - 1;
      assert forall i :: 0 <= i < last ==> xs[..last][i] == xs[i];
      GatherEmpty(xs[..last], part);
    }
  }

  lemma {:induction false} GatherThree<T, U>(a: T, b: T, c: T, part: T -> multiset<U>)
    ensures Gather([a, b, c], part) == part(a) + part(b) + part(c)
  {
    assert [a, b, c][..2] == [a, b] && [a, b][..1] == [a] && [a][..0] == [];
    assert Gather([a], part) == part(a);
    assert Gather([a, b], part) == part(a) + part(b);
  }

  lemma {:induction false} MultisetConcat<T>(xs: seq<T>, ys: seq<T>)
    ensures multiset(xs + ys) == multiset(xs) + multiset(ys)
  {
  }

  lemma {:induction false} TailMultiset<T>(xs: seq<T>)
    requires xs != []
    ensures multiset(xs) == multiset{xs[0]} + multiset(xs[1..])
  {
    assert xs == [xs[0]] + xs[1..];
  }

  lemma {:induction false} TwiceCountsTwo<T>(xs: seq<T>, i: nat, j: nat)
    requires i < j < |xs|
    ensures xs[i] == xs[j] ==> multiset(xs)[xs[i]] >= 2
  {
    var before, after := xs[..j], xs[j..];
    assert xs == before + after;
    MultisetConcat(before, after);
    assert before[i] == xs[i] && after[0] == xs[j];
    assert xs[i] in multiset(before) && xs[j] in multiset(after);
  }

  /** Elements that carry their own positions occur once each. */
  lemma {:induction false} NumberedAreDistinct<T>(xs: seq<T>, number: T -> int, x: T)
    requires forall i :: 0 <= i < |xs| ==> number(xs[i]) == i
    ensures multiset(xs)[x] <= 1
    ensures x in xs ==> 0 <= number(x) < |xs| && xs[number(x)] == x
  {
    if xs != [] {
      var init, last := xs[..|xs| - 1], xs[|xs| - 1];
      assert xs == init + [last];
      assert forall i :: 0 <= i < |init| ==> init[i] == xs[i];
      NumberedAreDistinct(init, number, x);
      MultisetAppend(init, last);
    }
  }
}
