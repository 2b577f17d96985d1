/** The decay wheel: items that decay lie in four lists, one of which is looked at every 250 ms. An item waits in one
    list until its time is up, give or take less than a second. */
module DecayWheel {
  import opened Common

  const EVENT_DECAYINTERVAL := 250
  const EVENT_DECAY_BUCKETS := 4
  const ROUND := 1000  // EVENT_DECAYINTERVAL * EVENT_DECAY_BUCKETS

  // ---------- one item ----------

  // Where an item is when bucket `last` has just been looked at
  datatype View = InBucket(last: nat, bucket: nat, duration: int) | Decayed

  predicate Fits(v: View) {
    v.InBucket? ==> v.last < EVENT_DECAY_BUCKETS && v.bucket < EVENT_DECAY_BUCKETS && v.duration > 0
  }

  // What the look at a bucket decides for an item there: how long it stays, or that it decays
  datatype Fate = Stays(duration: int) | MovesOn(duration: int) | Decays

  function FateOf(duration: int): Fate {
    var left := duration - ROUND;
    if left <= 0 then Decays
    else if left < ROUND then if (left + EVENT_DECAYINTERVAL / 2) / 1000 == 0 then Decays else MovesOn(left)
    else Stays(left)
  }

  function Next(bucket: nat): (b: nat)
    ensures b < EVENT_DECAY_BUCKETS
  {
    (bucket + 1) % EVENT_DECAY_BUCKETS
  }

  lemma FateIs(bucket: nat, duration: int)
    requires bucket < EVENT_DECAY_BUCKETS
    ensures var left := duration - ROUND;
      var newBucket := (bucket + (left + EVENT_DECAYINTERVAL / 2) / 1000) % EVENT_DECAY_BUCKETS;
      && (left <= 0 ==> FateOf(duration) == Decays)
      && (left >= ROUND ==> FateOf(duration) == Stays(left))
      && (0 < left < ROUND ==>
            if newBucket == bucket then FateOf(duration) == Decays
            else FateOf(duration) == MovesOn(left) && newBucket == Next(bucket))
  {}

  // One tick of the wheel for one item
  function Tick(v: View): View {
    match v
    case Decayed => Decayed
    case InBucket(last, bucket, duration) =>
      if bucket != Next(last) then InBucket(Next(last), bucket, duration)
      else
        match FateOf(duration)
        case Stays(d) => InBucket(Next(last), bucket, d)
        case MovesOn(d) => InBucket(Next(last), Next(bucket), d)
        case Decays => Decayed
  }

  function Ticks(v: View, n: nat): View
    decreases n
  {
    if n == 0 then v else Ticks(Tick(v), n - 1)
  }

  // Where Game::cleanup puts an item
  function Placed(last: nat, duration: nat): View {
    InBucket(last, if duration >= ROUND then last else (last + 1 + duration / 1000) % EVENT_DECAY_BUCKETS, duration)
  }

  // The tick on which an item decays that cleanup puts away with `duration` to go
  function DecayTick(duration: nat): nat {
    if duration < ROUND then 1
    else EVENT_DECAY_BUCKETS * (duration / ROUND) + if duration % ROUND >= 875 then 1 else 0
  }

  lemma {:induction false} TicksAdd(v: View, m: nat, n: nat)
    ensures Ticks(v, m + n) == Ticks(Ticks(v, m), n)
    decreases m
  {
    if m > 0 {
      TicksAdd(Tick(v), m - 1, n);
    }
  }

  // It is still there before that tick.
  lemma {:induction false} NotBefore(last: nat, duration: nat, n: nat)
    requires last < EVENT_DECAY_BUCKETS && duration > 0 && n < DecayTick(duration)
    ensures Ticks(Placed(last, duration), n).InBucket?
    decreases duration
  {
    var v := Placed(last, duration);
    if duration >= ROUND {
      assert Ticks(v, 1) == InBucket(Next(last), last, duration);
      assert Ticks(v, 2) == Tick(Ticks(v, 1)) by { TicksAdd(v, 1, 1); }
      assert Ticks(v, 3) == Tick(Ticks(v, 2)) by { TicksAdd(v, 2, 1); }
      if n >= 4 {
        Round(last, duration);
        TicksAdd(v, 4, n - 4);
        if duration >= 2 * ROUND {
          NotBefore(last, duration - ROUND, n - 4);
        }
      }
    }
  }

  // Four ticks take a second off.
  lemma Round(last: nat, duration: nat)
    requires last < EVENT_DECAY_BUCKETS && duration >= ROUND
    ensures Ticks(Placed(last, duration), 4) ==
      match FateOf(duration)
      case Stays(d) => Placed(last, d)
      case MovesOn(d) => InBucket(last, Next(last), d)
      case Decays => Decayed
  {
    var v := Placed(last, duration);
    TicksAdd(v, 1, 1);
    TicksAdd(v, 2, 1);
    TicksAdd(v, 3, 1);
  }

  // And it decays on that tick.
  lemma {:induction false} DecaysThen(last: nat, duration: nat)
    requires last < EVENT_DECAY_BUCKETS && duration > 0
    ensures Ticks(Placed(last, duration), DecayTick(duration)) == Decayed
    decreases duration
  {
    hide Ticks, Tick, Placed, DecayTick, FateOf;
    if duration < 2 * ROUND {
      LastRound(last, duration);
    } else {
      RoundBefore(duration);
      Round(last, duration);
      TicksAdd(Placed(last, duration), 4, DecayTick(duration - ROUND));
      DecaysThen(last, duration - ROUND);
    }
  }

  lemma RoundBefore(duration: nat)
    requires duration >= 2 * ROUND
    ensures FateOf(duration) == Stays(duration - ROUND) && DecayTick(duration) == 4 + DecayTick(duration - ROUND)
  {}

  lemma LastRound(last: nat, duration: nat)
    requires last < EVENT_DECAY_BUCKETS && 0 < duration < 2 * ROUND
    ensures Ticks(Placed(last, duration), DecayTick(duration)) == Decayed
  {
    var v := Placed(last, duration);
    if duration < ROUND {
      assert Ticks(v, 1) == Tick(v);
    } else {
      Round(last, duration);
      TicksAdd(v, 4, DecayTick(duration) - 4);
    }
  }

  // It has decayed from that tick on.
  lemma DecaysFrom(last: nat, duration: nat, n: nat)
    requires last < EVENT_DECAY_BUCKETS && duration > 0
    ensures Ticks(Placed(last, duration), n) == Decayed <==> n >= DecayTick(duration)
  {
    hide Placed, DecayTick;
    if n < DecayTick(duration) {
      NotBefore(last, duration, n);
    } else {
      DecaysThen(last, duration);
      TicksAdd(Placed(last, duration), DecayTick(duration), n - DecayTick(duration));
      StaysDecayed(n - DecayTick(duration));
    }
  }

  lemma NoTicks()
    ensures forall v: View :: Ticks(v, 0) == v
  {}

  lemma TickMore(v: View, n: nat)
    ensures Ticks(v, n + 1) == Tick(Ticks(v, n))
    ensures Ticks(v, n) == Decayed ==> Ticks(v, n + 1) == Decayed
  {
    TicksAdd(v, n, 1);
  }

  lemma {:induction false} StaysDecayed(n: nat)
    ensures Ticks(Decayed, n) == Decayed
  {
    if n > 0 {
      StaysDecayed(n - 1);
    }
  }

  // Measured from the tick that put it away: never more than 874 ms early, and late only if it had less than a tick to go.
  lemma OnTime(duration: nat)
    requires duration > 0
    ensures duration - 874 <= EVENT_DECAYINTERVAL * DecayTick(duration)
    ensures EVENT_DECAYINTERVAL * DecayTick(duration) > duration <==> duration < EVENT_DECAYINTERVAL
  {
    if duration >= ROUND {
      assert duration == ROUND * (duration / ROUND) + duration % ROUND;
    }
  }

  // ---------- one item among others ----------

  // What happens to the wheel: an item starts to decay, a tick, or the items that wait are put away between two ticks.
  datatype Event = Starts(item: DecayItem) | Checks | Cleans

  // Where an item is, or how long it has to go while it waits to be put away
  datatype Spot = Waits(duration: int) | In(v: View)

  function LastAfter(last: nat, e: Event): nat {
    if e.Checks? then Next(last) else last
  }

  function SpotAfter(s: Spot, last: nat, e: Event): Spot
    requires s.Waits? ==> s.duration >= 0
  {
    match s
    case Waits(d) => if e.Starts? then s else In(Placed(LastAfter(last, e), d))
    case In(v) => if e.Checks? then In(Tick(v)) else s
  }

  function Spots(s: Spot, last: nat, es: seq<Event>): Spot
    requires s.Waits? ==> s.duration >= 0
    decreases |es|
  {
    if es == [] then s else Spots(SpotAfter(s, last, es[0]), LastAfter(last, es[0]), es[1..])
  }

  function LastAll(last: nat, es: seq<Event>): nat
    decreases |es|
  {
    if es == [] then last else LastAll(LastAfter(last, es[0]), es[1..])
  }

  lemma {:induction false} SpotsOneMore(s: Spot, last: nat, es: seq<Event>, e: Event)
    requires s.Waits? ==> s.duration >= 0
    ensures Spots(s, last, es).Waits? ==> Spots(s, last, es).duration >= 0
    ensures Spots(s, last, es + [e]) == SpotAfter(Spots(s, last, es), LastAll(last, es), e)
    decreases |es|
  {
    hide Tick, Placed;
    if es == [] {
      assert ([] + [e])[1..] == [];
    } else {
      assert (es + [e])[1..] == es[1..] + [e];
      SpotsOneMore(SpotAfter(s, last, es[0]), LastAfter(last, es[0]), es[1..], e);
    }
  }

  // How many ticks an item goes through; the one that puts it away does not count.
  function Passed(waits: bool, es: seq<Event>): nat
    decreases |es|
  {
    if es == [] then 0
    else (if es[0].Checks? && !waits then 1 else 0) + Passed(waits && es[0].Starts?, es[1..])
  }

  lemma {:induction false} SpotsTick(v: View, last: nat, es: seq<Event>)
    ensures Spots(In(v), last, es) == In(Ticks(v, Passed(false, es)))
    decreases |es|
  {
    hide Tick;
    if es != [] {
      SpotsTick(if es[0].Checks? then Tick(v) else v, LastAfter(last, es[0]), es[1..]);
    }
  }

  // An item that waits has decayed exactly if its tick has come, counted from when it is put away.
  lemma {:induction false} WaitsThenDecays(duration: nat, last: nat, es: seq<Event>)
    requires last < EVENT_DECAY_BUCKETS && duration > 0
    ensures Spots(Waits(duration), last, es) == In(Decayed) <==> Passed(true, es) >= DecayTick(duration)
    decreases |es|
  {
    hide Ticks, Placed;
    if es != [] {
      if es[0].Starts? {
        WaitsThenDecays(duration, last, es[1..]);
      } else {
        var now := LastAfter(last, es[0]);
        SpotsTick(Placed(now, duration), now, es[1..]);
        DecaysFrom(now, duration, Passed(false, es[1..]));
      }
    }
  }

  lemma {:induction false} DecayedStays(last: nat, es: seq<Event>)
    ensures Spots(In(Decayed), last, es) == In(Decayed)
    decreases |es|
  {
    if es != [] {
      DecayedStays(LastAfter(last, es[0]), es[1..]);
    }
  }

  // ---------- the wheel ----------

  // What an item turns into: how long that lasts, if it decays in turn
  datatype Form = Form(duration: nat, decays: bool)

  class DecayItem {
    var duration: int
    var decaying: bool
    var canDecay: bool     // it is there, and its type decays
    var next: seq<Form>    // what it will turn into; after the last it is removed
    ghost var decays: nat  // how often it has decayed

    ghost function Get(): Fields
      reads this
    {
      Fields(duration, decaying, canDecay, next, decays)
    }

    constructor (duration: nat, next: seq<Form>)
      ensures this.duration == duration && !decaying && canDecay && this.next == next && decays == 0
    {
      this.duration, decaying, canDecay, this.next, decays := duration, false, true, next, 0;
    }
  }

  // What an item's fields say at one moment
  datatype Fields = Fields(duration: int, decaying: bool, canDecay: bool, next: seq<Form>, decays: nat)

  // The list in which an item lies, or -1
  function Where(place: map<DecayItem, nat>, x: DecayItem): int {
    if x in place then place[x] else -1
  }

  lemma WhereItLies(place: map<DecayItem, nat>)
    ensures forall x <- place :: Where(place, x) == place[x]
  {}

  // What has become of an item that has decayed; `listed` says whether it is in a list. Without a next form it is removed.
  // A next form that decays but does not last decays at once in turn; any other is what the item is now, with the forms
  // behind it still to come, and it is in a list if it decays. Each form taken counts as one decay, and so does the removal.
  predicate Turned(was: Fields, now: Fields, listed: bool)
    decreases |was.next|
  {
    if was.next == [] then !now.canDecay && !listed && now.decays == was.decays + 1
    else if was.next[0].decays && was.next[0].duration == 0 then
      Turned(was.(next := was.next[1..], decays := was.decays + 1), now, listed)
    else
      && now.decays == was.decays + 1
      && now.duration == was.next[0].duration && now.canDecay == was.next[0].decays && now.next == was.next[1..]
      && (listed <==> was.next[0].decays) && (now.decaying <==> was.next[0].decays)
  }

  // Only the forms to come matter.
  lemma {:induction false} TurnedSame(was: Fields, was': Fields, now: Fields, listed: bool)
    requires was.next == was'.next && was.decays == was'.decays
    ensures Turned(was, now, listed) == Turned(was', now, listed)
    decreases |was.next|
  {
    if was.next != [] {
      TurnedSame(was.(next := was.next[1..], decays := was.decays + 1), was'.(next := was.next[1..], decays := was.decays + 1),
                 now, listed);
    }
  }

  // The first form that comes has been taken, and has started to decay.
  lemma TurnsOn(was: Fields, mid: Fields, now: Fields, listed: bool)
    requires was.next != [] && mid.next == was.next[1..] && mid.decays == was.decays + 1
    requires mid.duration == was.next[0].duration && mid.canDecay == was.next[0].decays && !mid.decaying
    requires !mid.canDecay ==> now == mid && !listed
    requires mid.canDecay && mid.duration > 0 ==> now == mid.(decaying := true) && listed
    requires mid.canDecay && mid.duration <= 0 ==> Turned(mid, now, listed)
    ensures Turned(was, now, listed)
  {
    TurnedSame(was.(next := was.next[1..], decays := was.decays + 1), mid, now, listed);
  }

  lemma TurnsOff(was: Fields, now: Fields)
    requires was.next == [] && now.decays == was.decays + 1 && !now.canDecay
    ensures Turned(was, now, false)
  {}

  lemma TurnedBefore(was: Fields, was': Fields)
    requires was.next == was'.next && was.decays == was'.decays
    ensures forall now: Fields, listed: bool :: Turned(was, now, listed) == Turned(was', now, listed)
  {
    forall now: Fields, listed: bool ensures Turned(was, now, listed) == Turned(was', now, listed) {
      TurnedSame(was, was', now, listed);
    }
  }

  // What the look at bucket `bucket` has made of an item: its fields before and after, and where it lies now
  predicate Looked(was: Fields, now: Fields, at: int, bucket: nat) {
    if !was.canDecay then at == -1 && now == was.(decaying := false)
    else
      match FateOf(was.duration)
      case Stays(d) => at == bucket && now == was.(duration := d)
      case MovesOn(d) => at == Next(bucket) && now == was.(duration := d)
      case Decays => (at == -1 || at == QUEUE) && now.decays > was.decays && Turned(was, now, at == QUEUE)
  }

  const QUEUE := 4  // the list of items that wait, beside the buckets 0 to 3

  // Every item lies in one of the five lists, once; `place` says in which.
  predicate Sorted(lists: seq<seq<DecayItem>>, place: map<DecayItem, nat>) {
    && |lists| == QUEUE + 1
    && (forall b :: 0 <= b <= QUEUE ==> NoRepeats(lists[b]) && forall x <- lists[b] :: x in place && place[x] == b)
    && (forall x <- place :: place[x] <= QUEUE && x in lists[place[x]])
  }

  lemma PutIn(lists: seq<seq<DecayItem>>, place: map<DecayItem, nat>, b: nat, list: seq<DecayItem>, x: DecayItem)
    requires Sorted(lists, place) && b <= QUEUE && x !in place
    requires list == [x] + lists[b] || list == lists[b] + [x]
    ensures Sorted(lists[b := list], place[x := b])
  {
    assert x !in lists[b];
    assert forall y <- place :: y in lists[place[y]];
  }

  function RemovedAt(list: seq<DecayItem>, i: nat): seq<DecayItem>
    requires i < |list|
  {
    list[..i] + list[i + 1..]
  }

  lemma TakeOut(lists: seq<seq<DecayItem>>, place: map<DecayItem, nat>, b: nat, i: nat)
    requires Sorted(lists, place) && b <= QUEUE && i < |lists[b]|
    ensures Sorted(lists[b := RemovedAt(lists[b], i)], place - {lists[b][i]})
  {
    var x, list := lists[b][i], RemovedAt(lists[b], i);
    forall y <- lists[b] ensures y == x || y in list {
      assert lists[b] == lists[b][..i] + [x] + lists[b][i + 1..];
    }
    forall y <- list ensures y != x && y in lists[b] {}
  }

  class Game {
    var decayItems: seq<seq<DecayItem>>
    var toDecayItems: seq<DecayItem>
    var lastBucket: nat
    ghost var place: map<DecayItem, nat>

    function Lists(): seq<seq<DecayItem>>
      reads this
    {
      decayItems + [toDecayItems]
    }

    // An item that lies in a list is marked as decaying.
    ghost predicate Valid()
      reads this, place.Keys
    {
      && |decayItems| == EVENT_DECAY_BUCKETS && lastBucket < EVENT_DECAY_BUCKETS && Sorted(Lists(), place)
      && (forall x <- place :: x.decaying && x.duration > 0)
    }

    constructor ()
      ensures Valid() && place == map[]
    {
      decayItems, toDecayItems, lastBucket, place := [[], [], [], []], [], 0, map[];
    }

    // Item `x` in this wheel: where it lies and how long it has to go
    ghost function Shows(x: DecayItem): View
      reads this, x
      requires x in place
    {
      InBucket(lastBucket, place[x], x.duration)
    }

    method StartDecay(item: DecayItem)
      requires Valid()
      modifies this`toDecayItems, this`place, item
      ensures Valid()
      ensures !old(item.canDecay) || old(item.decaying) ==>
        toDecayItems == old(toDecayItems) && place == old(place) && unchanged(item)
      ensures old(item.canDecay) && !old(item.decaying) && old(item.duration) > 0 ==>
        item in place && item.duration == old(item.duration) && item.decays == old(item.decays)
        && item.next == old(item.next) && item.canDecay
      ensures old(item.canDecay) && !old(item.decaying) && old(item.duration) <= 0 ==>
        item.decays > old(item.decays) && Turned(old(item.Get()), item.Get(), item in place)
      ensures Requeued(item)
      decreases |item.next|, 1
    {
      if !item.canDecay {
        return;
      }
      if item.decaying {
        return;
      }
      if item.duration > 0 {
        item.decaying := true;
        PutIn(Lists(), place, QUEUE, [item] + toDecayItems, item);
        ghost var lists := Lists();
        toDecayItems := [item] + toDecayItems;
        place := place[item := QUEUE];
        assert Lists() == lists[QUEUE := toDecayItems];
      } else {
        InternalDecayItem(item);
      }
    }

    // Nothing has happened to the lists but that the item may be in the queue.
    twostate predicate Requeued(item: DecayItem)
      reads this, item
    {
      || (toDecayItems == old(toDecayItems) && place == old(place))
      || (toDecayItems == [item] + old(toDecayItems) && place == old(place)[item := QUEUE] && item.canDecay)
    }

    // The item turns into what comes next, or is removed.
    method InternalDecayItem(item: DecayItem)
      requires Valid() && item !in place
      modifies this`toDecayItems, this`place, item
      ensures Valid() && Requeued(item) && item.decays > old(item.decays)
      ensures Turned(old(item.Get()), item.Get(), item in place)
      decreases |item.next|, 0
    {
      hide Sorted, Turned;
      ghost var was := item.Get();
      item.decays := item.decays + 1;
      if item.next == [] {
        item.canDecay := false;
      } else {
        item.duration, item.canDecay, item.next := item.next[0].duration, item.next[0].decays, item.next[1..];
        item.decaying := false;
        ghost var mid := item.Get();
        StartDecay(item);
        TurnsOn(was, mid, item.Get(), item in place);
      }
      if was.next == [] {
        TurnsOff(was, item.Get());
      }
    }

    lemma Bucketed(bucket: nat)
      requires Valid() && bucket < EVENT_DECAY_BUCKETS
      ensures NoRepeats(decayItems[bucket])
      ensures forall k :: 0 <= k < |decayItems[bucket]| ==> decayItems[bucket][k] in place && place[decayItems[bucket][k]] == bucket
      ensures forall x <- place :: place[x] == bucket ==> x in decayItems[bucket]
    {
      hide Sorted;
      assert Lists()[bucket] == decayItems[bucket];
      BucketHolds(Lists(), place, bucket);
    }

    // The first item that waits is put into a list.
    method PutAway()
      requires Valid() && toDecayItems != []
      modifies this`decayItems, this`toDecayItems, this`place
      ensures Valid() && toDecayItems == old(toDecayItems)[1..]
      ensures old(toDecayItems)[0] in place
      ensures var x := old(toDecayItems)[0]; var v := Placed(lastBucket, x.duration);
        place == old(place)[x := v.bucket] && Shows(x) == v
    {
      hide Sorted;
      var item := toDecayItems[0];
      QueuedIn(Lists(), place, 0);
      var dur := item.duration;
      var b := if dur >= ROUND then lastBucket else (lastBucket + 1 + dur / 1000) % EVENT_DECAY_BUCKETS;
      TakeOut(Lists(), place, QUEUE, 0);
      ghost var lists := Lists()[QUEUE := RemovedAt(toDecayItems, 0)];
      PutIn(lists, place - {item}, b, decayItems[b] + [item], item);
      assert RemovedAt(toDecayItems, 0) == toDecayItems[1..];
      toDecayItems := toDecayItems[1..];
      decayItems := decayItems[b := decayItems[b] + [item]];
      assert Lists() == lists[b := decayItems[b]];
      assert place[item := b] == (place - {item})[item := b];
      place := place[item := b];
    }

    // The items that wait are put into the lists.
    method Cleanup()
      requires Valid()
      modifies this`decayItems, this`toDecayItems, this`place
      ensures Valid() && toDecayItems == [] && place.Keys == old(place.Keys)
      ensures forall x <- place ::
        place[x] != QUEUE &&
        place[x] == if old(place[x]) == QUEUE then Placed(lastBucket, x.duration).bucket else old(place[x])
    {
      hide Sorted;
      while toDecayItems != []
        invariant Valid() && place.Keys == old(place.Keys)
        invariant forall x <- place ::
          place[x] == old(place[x]) || (old(place[x]) == QUEUE && place[x] == Placed(lastBucket, x.duration).bucket)
        decreases |toDecayItems|
      {
        QueuedIn(Lists(), place, 0);
        PutAway();
      }
      NoneQueued(Lists(), place);
    }

    // The item at `i` leaves its bucket.
    method Erase(bucket: nat, i: nat)
      requires Valid() && bucket < EVENT_DECAY_BUCKETS && i < |decayItems[bucket]|
      modifies this`decayItems, this`place
      ensures Valid() && place == old(place) - {old(decayItems[bucket][i])}
      ensures decayItems == old(decayItems)[bucket := RemovedAt(old(decayItems[bucket]), i)]
    {
      hide Sorted;
      TakeOut(Lists(), place, bucket, i);
      ghost var lists := Lists();
      place := place - {decayItems[bucket][i]};
      decayItems := decayItems[bucket := RemovedAt(decayItems[bucket], i)];
      assert Lists() == lists[bucket := decayItems[bucket]];
    }

    // The item joins a bucket.
    method PushBack(bucket: nat, item: DecayItem)
      requires Valid() && bucket < EVENT_DECAY_BUCKETS && item !in place && item.decaying && item.duration > 0
      modifies this`decayItems, this`place
      ensures Valid() && place == old(place)[item := bucket]
      ensures decayItems == old(decayItems)[bucket := old(decayItems[bucket]) + [item]]
    {
      hide Sorted;
      PutIn(Lists(), place, bucket, decayItems[bucket] + [item], item);
      ghost var lists := Lists();
      decayItems := decayItems[bucket := decayItems[bucket] + [item]];
      place := place[item := bucket];
      assert Lists() == lists[bucket := decayItems[bucket]];
    }

    // internalDecayItem on an item whose time has been taken off
    method DecayNow(item: DecayItem, ghost was: Fields, ghost bucket: nat)
      requires Valid() && item !in place && item.next == was.next && item.decays == was.decays
      requires was.canDecay && FateOf(was.duration) == Decays
      modifies this`toDecayItems, this`place, item
      ensures Valid() && Requeued(item) && Looked(was, item.Get(), Where(place, item), bucket)
    {
      hide Sorted, Turned;
      TurnedBefore(item.Get(), was);
      InternalDecayItem(item);
    }

    // The body of the loop in checkDecay, for the item at `i`
    method LookAtOne(bucket: nat, i: nat) returns (kept: bool)
      requires Valid() && bucket < EVENT_DECAY_BUCKETS && i < |decayItems[bucket]|
      modifies this`decayItems, this`toDecayItems, this`place, decayItems[bucket][i]
      ensures Valid() && place.Keys <= old(place.Keys)
      ensures decayItems[bucket] == if kept then old(decayItems[bucket]) else RemovedAt(old(decayItems[bucket]), i)
      ensures forall y :: y != old(decayItems[bucket][i]) ==> Where(place, y) == Where(old(place), y)
      ensures var x := old(decayItems[bucket][i]); Looked(old(x.Get()), x.Get(), Where(place, x), bucket)
    {
      hide Sorted, Lists, NoRepeats, Next, FateOf, RemovedAt, Turned;
      var item := decayItems[bucket][i];
      ghost var was := item.Get();
      Bucketed(bucket);
      FateIs(bucket, item.duration);
      kept := false;
      if !item.canDecay {
        Erase(bucket, i);
        item.decaying := false;
        return;
      }
      var decreaseTime := EVENT_DECAYINTERVAL * EVENT_DECAY_BUCKETS;
      var duration := item.duration;
      if duration - decreaseTime < 0 {
        decreaseTime := duration;
      }
      duration := duration - decreaseTime;
      if duration <= 0 {
        Erase(bucket, i);
        item.duration := item.duration - decreaseTime;
        DecayNow(item, was, bucket);
      } else if duration < EVENT_DECAYINTERVAL * EVENT_DECAY_BUCKETS {
        Erase(bucket, i);
        item.duration := item.duration - decreaseTime;
        var newBucket := (bucket + (duration + EVENT_DECAYINTERVAL / 2) / 1000) % EVENT_DECAY_BUCKETS;
        if newBucket == bucket {
          DecayNow(item, was, bucket);
        } else {
          PushBack(newBucket, item);
        }
      } else {
        item.duration := item.duration - decreaseTime;
        kept := true;
      }
    }

    // One tick: the next bucket is looked at, then the items that wait are put away.
    method CheckDecay()
      requires Valid()
      modifies this, place.Keys
      ensures Valid() && toDecayItems == [] && lastBucket == Next(old(lastBucket)) && place.Keys <= old(place.Keys)
      ensures forall x <- old(place) :: old(x.canDecay) && old(place[x]) != QUEUE ==>
        if Tick(old(Shows(x))) == Decayed then
          x.decays > old(x.decays) && Turned(old(x.Get()), x.Get(), x in place)
          && (x in place ==> Shows(x) == Placed(lastBucket, x.duration))
        else x.Get() == old(x.Get()).(duration := x.duration) && x in place && Shows(x) == Tick(old(Shows(x)))
      ensures forall x <- old(place) :: old(place[x]) == QUEUE ==>
        x.Get() == old(x.Get()) && x.decays == old(x.decays) && x.canDecay == old(x.canDecay) && x in place && Shows(x) == Placed(lastBucket, old(x.duration))
      ensures forall x <- old(place) :: x.decays >= old(x.decays) && (x in place ==> place[x] != QUEUE)
    {
      hide Sorted;
      var bucket := (lastBucket + 1) % EVENT_DECAY_BUCKETS;
      LookAtAll(bucket);
      lastBucket := bucket;
      Cleanup();
    }

    method LookAtAll(bucket: nat)
      requires Valid() && bucket < EVENT_DECAY_BUCKETS
      modifies this`decayItems, this`toDecayItems, this`place, place.Keys
      ensures Valid() && place.Keys <= old(place.Keys)
      ensures forall x <- old(place) ::
        if old(place[x]) == bucket then Looked(old(x.Get()), x.Get(), Where(place, x), bucket)
        else Where(place, x) == old(place[x]) && unchanged(x)
    {
      hide Sorted, Looked, NoRepeats, Lists, RemovedAt, DecayItem.Get, Where;
      WhereItLies(place);
      ghost var all, j, seen := decayItems[bucket], 0, {};
      Bucketed(bucket);
      var i := 0;
      while i < |decayItems[bucket]|
        invariant |decayItems| == EVENT_DECAY_BUCKETS && 0 <= i <= |decayItems[bucket]| && 0 <= j <= |all|
        invariant Valid() && place.Keys <= old(place.Keys)
        invariant decayItems[bucket][i..] == all[j..]
        invariant forall x :: x in seen <==> x in all[..j]
        invariant forall x <- old(place) ::
          if x in seen then Looked(old(x.Get()), x.Get(), Where(place, x), bucket)
          else Where(place, x) == old(place[x]) && unchanged(x)
        decreases |all| - j
      {
        OneFurther(decayItems[bucket], i, all, j);
        NextIsNew(all, j);
        assert all[j] in old(place);
        ghost var list, at := decayItems[bucket], i;
        var kept := LookAtOne(bucket, i);
        assert decayItems[bucket] == if kept then list else RemovedAt(list, at);
        seen := seen + {all[j]};
        j := j + 1;
        if kept {
          i := i + 1;
        }
      }
      assert all[..j] == all;
    }

    // `n` ticks of the wheel do to every item what `n` of its own ticks say.
    method CheckDecays(n: nat)
      requires Valid()
      modifies this, place.Keys
      ensures Valid() && place.Keys <= old(place.Keys)
      ensures forall x <- old(place) :: old(x.canDecay) && old(place[x]) != QUEUE ==>
        if Ticks(old(Shows(x)), n) == Decayed then x.decays > old(x.decays) else x.decays == old(x.decays) && x in place
    {
      hide Valid, Tick, Ticks;
      ghost var k := 0;
      var left := n;
      NoTicks();
      while left > 0
        invariant Valid() && place.Keys <= old(place.Keys) && k + left == n
        invariant forall x <- old(place) :: old(x.canDecay) && old(place[x]) != QUEUE ==>
          if Ticks(old(Shows(x)), k) == Decayed then x.decays > old(x.decays)
          else x.decays == old(x.decays) && x.canDecay && x in place && place[x] != QUEUE && Shows(x) == Ticks(old(Shows(x)), k)
      {
        forall x | x in old(place)
          ensures Ticks(old(Shows(x)), k + 1) == Tick(Ticks(old(Shows(x)), k))
          ensures Ticks(old(Shows(x)), k) == Decayed ==> Ticks(old(Shows(x)), k + 1) == Decayed
        {
          TickMore(old(Shows(x)), k);
        }
        CheckDecay();
        left, k := left - 1, k + 1;
      }
    }

    // Items that wait are put away; after `n` ticks those have decayed whose tick has come, and no others.
    method CleanupAndCheck(n: nat)
      requires Valid()
      modifies this, place.Keys
      ensures Valid()
      ensures forall x <- old(place) :: old(place[x]) == QUEUE && old(x.canDecay) ==>
        (x.decays > old(x.decays) <==> n >= DecayTick(old(x.duration)))
        && (n < DecayTick(old(x.duration)) ==> x in place)
    {
      hide Sorted, Ticks, DecayTick;
      Cleanup();
      forall x <- place {
        DecaysFrom(lastBucket, x.duration, n);
      }
      CheckDecays(n);
    }

    ghost function SpotOf(x: DecayItem): (s: Spot)
      reads this, place.Keys
      requires Valid() && x in place
      ensures s.Waits? ==> s.duration > 0
    {
      if place[x] == QUEUE then Waits(x.duration) else In(Shows(x))
    }

    // One event moves every item that can decay as it would move that item alone.
    method Serve(e: Event, ghost all: set<DecayItem>)
      requires Valid() && place.Keys <= all && (e.Starts? ==> e.item in all)
      modifies this, all
      ensures Valid() && place.Keys <= all && lastBucket == LastAfter(old(lastBucket), e)
      ensures forall x <- all :: x.decays >= old(x.decays)
      ensures forall x <- old(place) :: old(x.canDecay) ==>
        var s := SpotAfter(old(SpotOf(x)), old(lastBucket), e);
        if s == In(Decayed) then
          x.decays > old(x.decays) && (old(SpotOf(x)) != In(Decayed) ==> Turned(old(x.Get()), x.Get(), x in place))
        else x.Get() == old(x.Get()).(duration := x.duration) && x in place && SpotOf(x) == s
    {
      hide Sorted, Tick;
      match e {
        case Starts(item) =>
          StartDecay(item);
        case Checks =>
          CheckDecay();
        case Cleans =>
          Cleanup();
      }
    }

    // Whatever starts to decay meanwhile, every item follows its own events, and nothing of it changes but its time until
    // it decays.
    method Run(es: seq<Event>, ghost all: set<DecayItem>)
      requires Valid() && place.Keys <= all && forall e <- es :: e.Starts? ==> e.item in all
      modifies this, all
      ensures Valid() && place.Keys <= all && lastBucket == LastAll(old(lastBucket), es)
      ensures forall x <- old(place) :: old(x.canDecay) ==>
        if Spots(old(SpotOf(x)), old(lastBucket), es) == In(Decayed) then x.decays > old(x.decays)
        else (x.Get() == old(x.Get()).(duration := x.duration) && x in place
              && SpotOf(x) == Spots(old(SpotOf(x)), old(lastBucket), es))
    {
      hide Valid, SpotAfter, Turned;
      var i := 0;
      while i < |es|
        invariant 0 <= i <= |es| && Valid() && place.Keys <= all && LastAll(lastBucket, es[i..]) == LastAll(old(lastBucket), es)
        invariant forall x <- old(place) :: old(x.canDecay) ==>
          if x.decays > old(x.decays) then Spots(old(SpotOf(x)), old(lastBucket), es) == In(Decayed)
          else (x.Get() == old(x.Get()).(duration := x.duration) && x in place
                && Spots(old(SpotOf(x)), old(lastBucket), es) == Spots(SpotOf(x), lastBucket, es[i..]))
      {
        assert es[i] in es && es[i..][0] == es[i] && es[i..][1..] == es[i + 1..];
        DecayedStays(LastAfter(lastBucket, es[i]), es[i + 1..]);
        Serve(es[i], all);
        i := i + 1;
      }
      assert es[|es|..] == [];
    }

    // An item that starts to decay does so exactly when its tick has come, whatever starts to decay before and after.
    method StartAndRun(item: DecayItem, es: seq<Event>, ghost all: set<DecayItem>)
      requires Valid() && place.Keys <= all && item in all && forall e <- es :: e.Starts? ==> e.item in all
      requires item.canDecay && !item.decaying && item.duration > 0
      modifies this, all
      ensures Valid()
      ensures item.decays > old(item.decays) <==> Passed(true, es) >= DecayTick(old(item.duration))
      ensures Passed(true, es) < DecayTick(old(item.duration)) ==>
        item in place && item.canDecay && item.next == old(item.next) && item.decays == old(item.decays)
    {
      hide Sorted, Spots, DecayTick;
      StartDecay(item);
      WaitsThenDecays(item.duration, lastBucket, es);
      Run(es, all);
    }

    // On that tick it turns into what comes next.
    method StartAndTurn(item: DecayItem, es: seq<Event>, ghost all: set<DecayItem>)
      requires Valid() && place.Keys <= all && item in all && forall e <- es :: e.Starts? ==> e.item in all
      requires item.canDecay && !item.decaying && item.duration > 0
      requires Passed(true, es) < DecayTick(item.duration) <= Passed(true, es + [Checks])
      modifies this, all
      ensures Valid() && item.decays > old(item.decays)
      ensures Turned(old(item.Get()), item.Get(), item in place)
    {
      hide Sorted, Spots, DecayTick, Turned, SpotAfter, Passed;
      ghost var was := item.Get();
      StartDecay(item);
      WaitsThenDecays(item.duration, lastBucket, es);
      WaitsThenDecays(item.duration, lastBucket, es + [Checks]);
      SpotsOneMore(Waits(item.duration), lastBucket, es, Checks);
      Run(es, all);
      TurnedBefore(item.Get(), was);
      Serve(Checks, all);
    }
  }

  // Whether the item at `i` stays or goes, what is left to look at is the same.
  lemma OneFurther(xs: seq<DecayItem>, i: nat, all: seq<DecayItem>, j: nat)
    requires i < |xs| && j <= |all| && xs[i..] == all[j..]
    ensures j < |all| && xs[i] == all[j] && xs[i + 1..] == all[j + 1..]
    ensures |RemovedAt(xs, i)| == |xs| - 1 && RemovedAt(xs, i)[i..] == all[j + 1..]
  {
    assert xs[i] == xs[i..][0] && xs[i + 1..] == xs[i..][1..];
  }

  // What is looked at next has not been looked at.
  lemma NextIsNew(xs: seq<DecayItem>, j: nat)
    requires NoRepeats(xs) && j < |xs|
    ensures xs[j] in xs && xs[j] !in xs[..j] && forall x :: x in xs[..j + 1] <==> x in xs[..j] || x == xs[j]
  {
    assert xs[..j + 1] == xs[..j] + [xs[j]];
  }

  lemma BucketHolds(lists: seq<seq<DecayItem>>, place: map<DecayItem, nat>, b: nat)
    requires Sorted(lists, place) && b <= QUEUE
    ensures NoRepeats(lists[b])
    ensures forall k :: 0 <= k < |lists[b]| ==> lists[b][k] in place && place[lists[b][k]] == b
    ensures forall x <- place :: place[x] == b ==> x in lists[b]
  {}

  lemma QueuedIn(lists: seq<seq<DecayItem>>, place: map<DecayItem, nat>, i: nat)
    requires Sorted(lists, place) && i < |lists[QUEUE]|
    ensures lists[QUEUE][i] in place && place[lists[QUEUE][i]] == QUEUE
  {}

  lemma NoneQueued(lists: seq<seq<DecayItem>>, place: map<DecayItem, nat>)
    requires Sorted(lists, place) && lists[QUEUE] == []
    ensures forall x <- place :: place[x] != QUEUE
  {}
}
