/** Damage over time: an amount is cut into hits that grow weaker, with the fractions in exact arithmetic. */
module DamageList {
  import opened Common

  function Sum(list: seq<int>): int {
    if list == [] then 0 else Sum(list[..|list| - 1]) + list[|list| - 1]
  }

  lemma {:induction false} SumConcat(a: seq<int>, b: seq<int>)
    ensures Sum(a + b) == Sum(a) + Sum(b)
    decreases |b|
  {
    if b == [] {
      assert a + b == a;
    } else {
      assert (a + b)[..|a + b| - 1] == a + b[..|b| - 1];
      SumConcat(a, b[..|b| - 1]);
    }
  }

  predicate Falling(list: seq<int>) {
    forall i, j :: 0 <= i < j < |list| ==> list[i] >= list[j]
  }

  // Every strength from `start` down to `least` occurs, and no other.
  predicate Covers(list: seq<int>, start: int, least: int) {
    && (forall v <- list :: least <= v <= start)
    && (forall v :: least <= v <= start ==> v in list)
  }

  // The hits that are stronger than the weakest
  function Above(list: seq<int>): int {
    if list == [] then 0
    else Above(list[..|list| - 1]) + if list[|list| - 1] > 1 then list[|list| - 1] else 0
  }

  // The hits of at least some strength
  function SumFrom(list: seq<int>, least: int): int {
    if list == [] then 0
    else SumFrom(list[..|list| - 1], least) + if list[|list| - 1] >= least then list[|list| - 1] else 0
  }

  // With the hits of strength `i` the sum comes as near to its share of the amount as they can bring it: there is one in
  // any case, a further one would not come nearer, and without the last it was farther away.
  predicate Nearest(list: seq<int>, amount: nat, start: int, i: int)
    requires start > 0
  {
    var share, before, sum := ((start + 1 - i) * amount) / start, SumFrom(list, i + 1), SumFrom(list, i);
    && before + i <= sum
    && (share == 0 || Abs(share - sum - i) >= Abs(share - sum))
    && (sum == before + i || Abs(share - sum) < Abs(share - sum + i))
  }

  // Weaker hits do not count.
  lemma WeakerAdded(list: seq<int>, i: int)
    ensures forall k :: SumFrom(list + [i], k) == SumFrom(list, k) + if i >= k then i else 0
  {
    assert (list + [i])[..|list + [i]| - 1] == list;
  }

  // Another hit of strength `i` brings the sum closer to `med`. Nothing is closer to 0: the source divides by it and
  // compares infinities.
  predicate Closer(med: int, sum: int, i: int) {
    med != 0 && Abs(med - sum - i) < Abs(med - sum)
  }

  // A list after another hit of strength `i`, the weakest so far
  lemma AddOne(list: seq<int>, start: int, i: int)
    requires Falling(list) && 1 <= i <= start && (Covers(list, start, i + 1) || Covers(list, start, i))
    ensures Falling(list + [i]) && Covers(list + [i], start, i)
    ensures Sum(list + [i]) == Sum(list) + i && Above(list + [i]) == Above(list) + if i > 1 then i else 0
  {
    var more := list + [i];
    forall a, b | 0 <= a < b < |more| ensures more[a] >= more[b] {
      assert more[a] == list[a] && list[a] in list;
    }
    assert more[..|more| - 1] == list;
    assert more[|more| - 1] == i;
    forall v | i <= v <= start ensures v in more {
      if v in list {
      } else {
        assert v == i;
      }
    }
  }

  // Between two medians there are at least `start`, if the amount is large enough.
  lemma MedianStep(amount: nat, start: nat, n: nat)
    requires start >= 1 && n >= 1 && start * start <= amount
    ensures (n * amount) / start >= ((n - 1) * amount) / start + start
  {
    var x := (n - 1) * amount;
    assert n * amount == x + amount;
    assert (x + start * start) / start == x / start + start by {
      DivAdd(x, start, start);
    }
    DivMonotone(x + start * start, n * amount, start);
  }

  lemma DivAdd(x: nat, d: nat, k: nat)
    requires d >= 1
    ensures (x + k * d) / d == x / d + k
  {
    var q, r := x / d, x % d;
    assert x + k * d == (q + k) * d + r;
    DivUnique(x + k * d, d, q + k, r);
  }

  lemma Multiples(a: int, b: int, d: nat)
    requires a > b
    ensures a * d >= b * d + d
  {
    assert a * d == b * d + (a - b) * d;
    assert (a - b) * d == d + (a - b - 1) * d;
  }

  lemma DivUnique(x: nat, d: nat, q: nat, r: nat)
    requires d >= 1 && x == q * d + r && r < d
    ensures x / d == q
  {
    var p := x / d;
    assert x == p * d + x % d;
    if p < q {
      Multiples(q, p, d);
    } else if p > q {
      Multiples(p, q, d);
    }
  }

  lemma DivMonotone(x: nat, y: nat, d: nat)
    requires d >= 1 && x <= y
    ensures x / d <= y / d
  {
    var p, q := x / d, y / d;
    assert x == p * d + x % d && y == q * d + y % d;
    if p > q {
      Multiples(p, q, d);
    }
  }

  // The same with the medians given: `med0` for the stronger hits and `med` for those of strength `i`
  lemma LevelStep(start: int, i: int, med0: int, med: int, sum0: int, sum: int)
    requires 1 <= i <= start && med >= med0 + start
    requires if i == start then sum0 == 0 && med0 == 0 else sum0 <= med0 + (i + 1) / 2
    requires sum == sum0 + i || Closer(med, sum - i, i)
    ensures sum <= med + i / 2
  {}

  // After the hits of strength `i` the sum is not far above its median.
  lemma Level(amount: nat, start: int, i: int, sum0: int, sum: int)
    requires 1 <= i <= start && start * start <= amount
    requires if i == start then sum0 == 0 else sum0 <= ((start - i) * amount) / start + (i + 1) / 2
    requires var med := ((start + 1 - i) * amount) / start; sum == sum0 + i || Closer(med, sum - i, i)
    ensures sum <= ((start + 1 - i) * amount) / start + i / 2
  {
    hide Closer;
    var med0, med := ((start - i) * amount) / start, ((start + 1 - i) * amount) / start;
    MedianStep(amount, start, start + 1 - i);
    if i == start {
      NoMedian(amount, start);
    }
    LevelStep(start, i, med0, med, sum0, sum);
  }

  lemma NoMedian(amount: nat, start: int)
    requires start >= 1
    ensures (0 * amount) / start == 0
  {}

  // Hits of strength 1 are added while they bring the sum closer to `med`.
  lemma LastStep(med: nat, sum0: nat, sum: int)
    requires !Closer(med, sum, 1) && sum >= sum0 + 1 && (sum <= sum0 + 1 || Closer(med, sum - 1, 1))
    ensures sum == if sum0 < med then med else sum0 + 1
  {}

  // The weakest hits bring the sum to the amount, if it is not there already.
  lemma LastLevel(amount: nat, start: int, sum0: int, sum: int)
    requires 1 <= start && sum0 >= 0
    requires var med := (start * amount) / start;
      !Closer(med, sum, 1) && sum >= sum0 + 1 && (sum <= sum0 + 1 || Closer(med, sum - 1, 1))
    ensures sum == if sum0 < amount then amount else sum0 + 1
    ensures start * start <= amount && (if start == 1 then sum0 == 0 else sum0 <= ((start - 1) * amount) / start + 1)
      ==> sum == amount
  {
    hide Closer;
    DivUnique(start * amount, start, amount, 0);
    LastStep(amount, sum0, sum);
    if start * start <= amount {
      MedianStep(amount, start, start);
      Squares(start);
    }
  }

  lemma Squares(n: nat)
    requires n >= 1
    ensures n * n >= n
  {}

  // ConditionDamage::generateDamageList
  method GenerateDamageList(amount0: int, start: int) returns (list: seq<int>)
    ensures Falling(list) && Covers(list, start, 1)
    ensures start >= 1 ==> Sum(list) >= Abs(amount0)
    // The sum overshoots exactly when the hits above the weakest reach the amount already.
    ensures start >= 1 ==> Sum(list) == if Above(list) < Abs(amount0) then Abs(amount0) else Above(list) + 1
    ensures start >= 1 && start * start <= Abs(amount0) ==> Sum(list) == Abs(amount0)
    ensures forall i :: 1 <= i <= start ==> Nearest(list, Abs(amount0), start, i)
  {
    hide Closer, Covers, Falling, Nearest, SumFrom;
    var amount := Abs(amount0);
    var sum := 0;
    list := [];
    NoHits();
    var i := start;
    NothingYet(start);
    while i > 0
      invariant i == start || 0 <= i < start
      invariant sum == Sum(list) >= 0 && Falling(list) && Covers(list, start, if i > 0 then i + 1 else 1)
      invariant i > 0 ==> Above(list) == sum
      invariant i > 0 && start * start <= amount ==>
        if i == start then sum == 0 else sum <= ((start - i) * amount) / start + (i + 1) / 2
      invariant start >= 1 && i == 0 ==> sum == if Above(list) < amount then amount else Above(list) + 1
      invariant start >= 1 && i == 0 && start * start <= amount ==> sum == amount
      invariant i == start || start > 0
      invariant sum == SumFrom(list, i + 1)
      invariant forall k :: 1 <= k && i < k <= start ==> Nearest(list, amount, start, k)
    {
      var n := start + 1 - i;
      var med := (n * amount) / start;
      ghost var sum0, list0 := sum, list;
      list, sum := AddHits(list, sum, med, start, i);
      NearestNow(list, amount, start, i, sum0);
      forall k | i < k <= start ensures Nearest(list, amount, start, k) {
        NearestStill(list0, list, amount, start, k);
      }
      if start * start <= amount {
        Level(amount, start, i, sum0, sum);
      }
      if i == 1 {
        LastLevel(amount, start, sum0, sum);
      }
      i := i - 1;
    }
  }

  lemma NothingYet(start: int)
    ensures Falling([]) && Covers([], start, start + 1) && (start < 1 ==> Covers([], start, 1))
  {}

  lemma NoHits()
    ensures forall k :: SumFrom([], k) == 0
  {}

  // So far all hits are stronger than `i`.
  lemma StrongerHits(list: seq<int>, start: int, i: int)
    requires Covers(list, start, i + 1)
    ensures SumFrom(list, i) == SumFrom(list, i + 1)
  {
    assert forall k :: 0 <= k < |list| ==> list[k] in list;
    StrongerOnly(list, i);
  }

  lemma {:induction false} StrongerOnly(list: seq<int>, i: int)
    requires forall k :: 0 <= k < |list| ==> list[k] > i
    ensures SumFrom(list, i) == SumFrom(list, i + 1)
    decreases |list|
  {
    if list != [] {
      var front := list[..|list| - 1];
      assert forall k :: 0 <= k < |front| ==> front[k] == list[k];
      StrongerOnly(front, i);
    }
  }

  lemma NearestNow(list: seq<int>, amount: nat, start: int, i: int, sum0: int)
    requires 1 <= i <= start && SumFrom(list, i + 1) == sum0
    requires var med, sum := ((start + 1 - i) * amount) / start, SumFrom(list, i);
      sum >= sum0 + i && !Closer(med, sum, i) && (sum == sum0 + i || Closer(med, sum - i, i))
    ensures Nearest(list, amount, start, i)
  {
    hide SumFrom;
  }

  lemma NearestStill(list0: seq<int>, list: seq<int>, amount: nat, start: int, k: int)
    requires start > 0 && Nearest(list0, amount, start, k)
    requires SumFrom(list, k) == SumFrom(list0, k) && SumFrom(list, k + 1) == SumFrom(list0, k + 1)
    ensures Nearest(list, amount, start, k)
  {}

  // The inner loop: hits of strength `i` are added as long as they bring the sum closer to `med`, and one in any case.
  method AddHits(list0: seq<int>, sum0: int, med: int, ghost start: int, i: int) returns (list: seq<int>, sum: int)
    requires 1 <= i <= start && sum0 == Sum(list0) >= 0 && Falling(list0) && Covers(list0, start, i + 1)
    requires sum0 == SumFrom(list0, i + 1)
    ensures sum == Sum(list) && Falling(list) && Covers(list, start, i)
    ensures sum == SumFrom(list, i) && forall k :: i < k ==> SumFrom(list, k) == SumFrom(list0, k)
    ensures Above(list) == Above(list0) + if i > 1 then sum - sum0 else 0
    ensures sum >= sum0 + i && !Closer(med, sum, i)
    ensures sum == sum0 + i || Closer(med, sum - i, i)
  {
    hide Falling, Covers, Sum, Above, SumFrom;
    sum := sum0 + i;
    AddOne(list0, start, i);
    WeakerAdded(list0, i);
    StrongerHits(list0, start, i);
    list := list0 + [i];
    while Closer(med, sum, i)
      invariant sum == Sum(list) && Falling(list) && Covers(list, start, i)
      invariant sum == SumFrom(list, i) && forall k :: i < k ==> SumFrom(list, k) == SumFrom(list0, k)
      invariant Above(list) == Above(list0) + if i > 1 then sum - sum0 else 0
      invariant sum >= sum0 + i
      invariant sum == sum0 + i || Closer(med, sum - i, i)
      decreases Abs(med - sum)
    {
      AddOne(list, start, i);
      WeakerAdded(list, i);
      sum := sum + i;
      list := list + [i];
    }
  }

  // ---------- the condition ----------

  datatype IntervalInfo = IntervalInfo(timeLeft: int, value: int, interval: int)

  function Values(list: seq<IntervalInfo>): seq<int> {
    seq(|list|, k requires 0 <= k < |list| => list[k].value)
  }

  function Negated(list: seq<int>): seq<int> {
    seq(|list|, k requires 0 <= k < |list| => -list[k])
  }

  lemma {:induction false} SumNegated(list: seq<int>)
    ensures Sum(Negated(list)) == -Sum(list)
    decreases |list|
  {
    if list != [] {
      SumNegated(list[..|list| - 1]);
      assert Negated(list)[..|list| - 1] == Negated(list[..|list| - 1]);
    }
  }

  // Division by two that cuts off the fraction
  function Half(n: int): int {
    if n < 0 then -(-n / 2) else n / 2
  }

  lemma CoversSome(list: seq<int>, start: int)
    requires Covers(list, start, 1)
    ensures list != [] <==> start >= 1
  {
    if list != [] {
      var v := list[0];
      assert v in list;
    }
    if start >= 1 {
      assert start in list;
    }
  }

  lemma TwiceNegated(list: seq<int>)
    ensures Negated(Negated(list)) == list
  {}

  lemma StrongestFirst(list: seq<int>, start: int)
    requires Falling(list) && Covers(list, start, 1) && start >= 1
    ensures list != [] && list[0] == start
  {
    assert start in list;
    assert list[0] in list;
  }

  class ConditionDamage {
    var minDamage: nat
    var maxDamage: nat
    var startDamage: int
    var periodDamage: int
    var tickInterval: nat
    var ticks: int
    var damageList: seq<IntervalInfo>

    constructor (minDamage: nat, maxDamage: nat, startDamage: nat, tickInterval: nat, ticks: int)
      ensures this.minDamage == minDamage && this.maxDamage == maxDamage && this.startDamage == startDamage
      ensures periodDamage == 0 && this.tickInterval == tickInterval && this.ticks == ticks && damageList == []
    {
      this.minDamage, this.maxDamage, this.startDamage, periodDamage := minDamage, maxDamage, startDamage, 0;
      this.tickInterval, this.ticks, damageList := tickInterval, ticks, [];
    }

    method AddDamage(rounds: int, time: int, value: int) returns (added: bool)
      modifies this
      ensures rounds == -1 ==>
        added && periodDamage == value && tickInterval == Abs(time) && ticks == -1 && damageList == old(damageList)
      ensures rounds != -1 ==> periodDamage == old(periodDamage) && tickInterval == old(tickInterval)
      ensures rounds != -1 && old(periodDamage) > 0 ==> !added && damageList == old(damageList) && ticks == old(ticks)
      ensures rounds != -1 && old(periodDamage) <= 0 ==>
        added && damageList == old(damageList) + seq(if rounds > 0 then rounds else 0, _ => IntervalInfo(time, value, time))
      ensures rounds >= 0 && time >= 0 && old(periodDamage) <= 0 && old(ticks) >= 0 ==> ticks == old(ticks) + rounds * time
      ensures rounds >= 0 && old(periodDamage) <= 0 && old(ticks) == -1 ==> ticks == -1
      ensures maxDamage == old(maxDamage) && minDamage == old(minDamage) && startDamage == old(startDamage)
    {
      if rounds == -1 {
        periodDamage := value;
        tickInterval := Abs(time);
        ticks := -1;
        return true;
      }
      if periodDamage > 0 {
        return false;
      }
      var i := 0;
      while i < rounds
        invariant 0 <= i && (i <= rounds || i == 0)
        invariant damageList == old(damageList) + seq(i, _ => IntervalInfo(time, value, time))
        invariant time >= 0 && old(ticks) >= 0 ==> ticks == old(ticks) + i * time
        invariant old(ticks) == -1 ==> ticks == -1
        invariant periodDamage == old(periodDamage) && tickInterval == old(tickInterval)
        invariant maxDamage == old(maxDamage) && minDamage == old(minDamage) && startDamage == old(startDamage)
      {
        damageList := damageList + [IntervalInfo(time, value, time)];
        if ticks != -1 {
          ticks := ticks + time;
        }
        assert (i + 1) * time == i * time + time;
        i := i + 1;
      }
      return true;
    }

    // The strength of the first hit
    function Start(amount: int): int
      reads this
    {
      if startDamage > maxDamage then maxDamage
      else if startDamage == 0 then var part := (Abs(amount) + 19) / 20; if part > 1 then part else 1
      else startDamage
    }

    // The strengths of the hits, which are stored as negative values
    ghost function Hits(): (hits: seq<int>)
      reads this
      ensures |hits| == |damageList|
    {
      Negated(Values(damageList))
    }

    // The choice of the first hit
    method ChooseStart(amount: nat)
      modifies this`startDamage
      ensures startDamage == old(Start(amount))
      ensures old(startDamage) > maxDamage ==> startDamage == maxDamage
      ensures old(startDamage) == 0 && amount > 0 ==> startDamage >= 1 && 20 * (startDamage - 1) < amount <= 20 * startDamage
      ensures 0 != old(startDamage) <= maxDamage ==> startDamage == old(startDamage)
    {
      if startDamage > maxDamage {
        startDamage := maxDamage;
      } else if startDamage == 0 {
        var part := (Abs(amount) + 19) / 20;
        startDamage := if part > 1 then part else 1;
      }
    }

    // One round of damage for each hit
    method AddHitsOf(list: seq<int>)
      requires periodDamage == 0 && damageList == [] && ticks == 0
      modifies this
      ensures startDamage == old(startDamage) && minDamage == old(minDamage) && maxDamage == old(maxDamage)
      ensures periodDamage == 0 && tickInterval == old(tickInterval) && ticks == |list| * tickInterval
      ensures |damageList| == |list| && Values(damageList) == Negated(list) && Hits() == list
      ensures forall d <- damageList :: d.interval == tickInterval && d.timeLeft == tickInterval
    {
      var k := 0;
      while k < |list|
        invariant 0 <= k <= |list| && periodDamage == 0
        invariant |damageList| == k && Values(damageList) == Negated(list[..k])
        invariant forall d <- damageList :: d.interval == tickInterval && d.timeLeft == tickInterval
        invariant tickInterval == old(tickInterval) && ticks == k * tickInterval
        invariant startDamage == old(startDamage) && minDamage == old(minDamage) && maxDamage == old(maxDamage)
      {
        var values := Values(damageList);
        var _ := AddDamage(1, tickInterval, -list[k]);
        assert Values(damageList) == values + [-list[k]];
        assert (k + 1) * tickInterval == k * tickInterval + tickInterval;
        k := k + 1;
      }
      assert list[..k] == list;
      TwiceNegated(list);
    }

    // ConditionDamage::init, with `amount` drawn between the least and the most damage
    method Init(amount: nat) returns (ready: bool)
      modifies this
      ensures ready <==> periodDamage != 0 || damageList != []
      ensures old(periodDamage) != 0 || old(damageList) != [] ==> unchanged(this)
      // It lasts until the last hit.
      ensures old(periodDamage) == 0 && old(damageList) == [] ==> ticks == |damageList| * tickInterval
      // What is handed out in hits is all there is, whenever the first hit is small enough.
      ensures old(periodDamage) == 0 && old(damageList) == [] && amount != 0 && old(Start(amount)) >= 1 ==>
        && ready && TotalDamage() >= amount
        && (old(Start(amount)) * old(Start(amount)) <= amount ==> TotalDamage() == amount)
      ensures old(periodDamage) == 0 && old(damageList) == [] && (amount == 0 || old(Start(amount)) < 1) ==> !ready
      // The first hit is the strongest, a twentieth of the amount if nothing else is said; the others fall down to 1, as
      // many of each strength as come nearest to its share.
      ensures old(periodDamage) == 0 && old(damageList) == [] && amount != 0 ==>
        && (old(startDamage) > maxDamage ==> startDamage == maxDamage)
        && (old(startDamage) == 0 ==> startDamage >= 1 && 20 * (startDamage - 1) < amount <= 20 * startDamage)
        && (0 != old(startDamage) <= maxDamage ==> startDamage == old(startDamage))
      ensures old(periodDamage) == 0 && old(damageList) == [] && amount != 0 ==>
        && |Hits()| == |damageList| && Falling(Hits()) && Covers(Hits(), startDamage, 1)
        && (startDamage >= 1 ==> Hits() != [] && Hits()[0] == startDamage)
        && (forall i :: 1 <= i <= startDamage ==> Nearest(Hits(), amount, startDamage, i))
        && forall d <- damageList :: d.interval == tickInterval && d.timeLeft == tickInterval
    {
      hide Falling, Covers, Nearest, Sum, Values, Negated;
      if periodDamage != 0 {
        return true;
      }
      if damageList == [] {
        ticks := 0;
        if amount != 0 {
          ChooseStart(amount);
          var list := GenerateDamageList(amount, startDamage);
          AddHitsOf(list);
          SumNegated(list);
          CoversSome(list, startDamage);
          if startDamage >= 1 {
            StrongestFirst(list, startDamage);
          }
        }
      }
      ready := damageList != [];
    }

    ghost function TotalDamage(): int
      reads this
    {
      if damageList != [] then Abs(Sum(Values(damageList))) else Abs(minDamage + Half(maxDamage - minDamage))
    }

    method GetTotalDamage() returns (total: int)
      ensures total == TotalDamage()
    {
      var result;
      if damageList != [] {
        result := 0;
        var k := 0;
        while k < |damageList|
          invariant 0 <= k <= |damageList| && result == Sum(Values(damageList)[..k])
        {
          assert Values(damageList)[..k + 1][..k] == Values(damageList)[..k];
          result := result + damageList[k].value;
          k := k + 1;
        }
        assert Values(damageList)[..k] == Values(damageList);
      } else {
        result := minDamage + Half(maxDamage - minDamage);
      }
      return Abs(result);
    }
  }
}
