/** What several modules compute the same way. */
module Common {

  function Abs(n: int): nat {
    if n < 0 then -n else n
  }

  // Item::getWeight: a stack weighs as much as its units, and never less than one of them.
  function StackWeight(stackable: bool, weight: int, count: nat): int {
    if stackable then weight * (if count < 1 then 1 else count) else weight
  }

  predicate NoRepeats<T(==)>(xs: seq<T>) {
    forall i, j :: 0 <= i < j < |xs| ==> xs[i] != xs[j]
  }

  lemma {:induction false} CountsAll<T>(xs: seq<T>, all: set<T>)
    requires NoRepeats(xs) && forall x <- xs :: x in all
    ensures |xs| <= |all|
    ensures (forall x <- all :: x in xs) ==> |xs| == |all|
    decreases |xs|
  {
    if xs == [] {
      assert (forall x <- all :: x in xs) ==> all == {};
    } else {
      var rest := all - {xs[0]};
      forall x <- xs[1..] ensures x in rest {}
      CountsAll(xs[1..], rest);
    }
  }

  lemma Regroup<T>(a: seq<T>, b: seq<T>, c: seq<T>)
    ensures a + b + c == a + (b + c)
  {}

  lemma NothingMore<T>(a: seq<T>)
    ensures a + [] == a && [] + a == a
  {}

  lemma SplitLast<T>(xs: seq<T>)
    requires xs != []
    ensures xs == xs[..|xs| - 1] + [xs[|xs| - 1]]
  {}

  lemma TakeNext<T>(xs: seq<T>, i: nat)
    requires i < |xs|
    ensures xs[i..] != [] && xs[i..][0] == xs[i] && xs[i..][1..] == xs[i + 1..]
  {}
}
