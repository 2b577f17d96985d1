/** What coins are worth: all of them, those of a set, and those in a container, however deep. */
module Coins {
  import opened Common
  import opened ItemWorld
  import opened ItemMoves

  const ITEM_GOLD_COIN := 2148
  const ITEM_PLATINUM_COIN := 2152
  const ITEM_CRYSTAL_COIN := 2160

  // What one coin of a kind is worth; 0 for everything else
  function Rate(id: nat): nat {
    if id == ITEM_GOLD_COIN then 1 else if id == ITEM_PLATINUM_COIN then 100
    else if id == ITEM_CRYSTAL_COIN then 10000 else 0
  }

  // Item::getWorth
  function GetWorth(c: Cell): nat {
    c.count * Rate(c.id)
  }

  predicate CoinKinds(kinds: Kinds) {
    forall id :: id in {ITEM_GOLD_COIN, ITEM_PLATINUM_COIN, ITEM_CRYSTAL_COIN} ==> kinds(id).stackable && !kinds(id).fluid
  }

  // All the money in the world
  ghost function Worth(w: World): nat {
    Units(w, ITEM_GOLD_COIN) + Units(w, ITEM_PLATINUM_COIN) * 100 + Units(w, ITEM_CRYSTAL_COIN) * 10000
  }

  predicate IsCoin(w: World, x: Item) {
    x in w && Rate(w[x].id) != 0
  }

  // The coins in a container, however deep
  ghost function Purse(w: World, c: Item): set<Item> {
    set x | x in w && IsCoin(w, x) && Inside(w, c, x)
  }

  ghost function SetWorth(w: World, xs: set<Item>): nat
    requires forall x <- xs :: x in w
  {
    if xs == {} then 0 else var x :| x in xs; GetWorth(w[x]) + SetWorth(w, xs - {x})
  }

  lemma {:induction false} SetWorthTake(w: World, xs: set<Item>, x: Item)
    requires x in xs && forall y <- xs :: y in w
    ensures SetWorth(w, xs) == GetWorth(w[x]) + SetWorth(w, xs - {x})
  {
    var y :| y in xs && SetWorth(w, xs) == GetWorth(w[y]) + SetWorth(w, xs - {y});
    if y != x {
      SetWorthTake(w, xs - {y}, x);
      SetWorthTake(w, xs - {x}, y);
      assert xs - {x} - {y} == xs - {y} - {x};
    }
  }

  lemma {:induction false} SetWorthSame(w: World, v: World, xs: set<Item>)
    requires forall x <- xs :: x in w && x in v && GetWorth(v[x]) == GetWorth(w[x])
    ensures SetWorth(v, xs) == SetWorth(w, xs)
    decreases |xs|
  {
    hide GetWorth;
    if xs != {} {
      var x :| x in xs;
      SetWorthTake(w, xs, x);
      SetWorthTake(v, xs, x);
      SetWorthSame(w, v, xs - {x});
    }
  }

  lemma {:induction false} SetWorthSplit(w: World, xs: set<Item>, ys: set<Item>)
    requires xs !! ys && forall x <- xs + ys :: x in w
    ensures SetWorth(w, xs + ys) == SetWorth(w, xs) + SetWorth(w, ys)
    decreases |xs|
  {
    hide GetWorth;
    if xs == {} {
      assert xs + ys == ys;
    } else {
      var x :| x in xs;
      SetWorthTake(w, xs + ys, x);
      SetWorthTake(w, xs, x);
      assert xs + ys - {x} == (xs - {x}) + ys;
      SetWorthSplit(w, xs - {x}, ys);
    }
  }

  // All coins there are
  function AllCoins(w: World): set<Item> {
    set x | x in w && IsCoin(w, x)
  }

  lemma {:induction false} WorthOfAll(w: World)
    ensures SetWorth(w, AllCoins(w)) == Worth(w)
    decreases |w|
  {
    if w == map[] {
      assert AllCoins(w) == {};
    } else {
      var x :| x in w;
      var v := w - {x};
      WorthOfAll(v);
      WorthTake(w, x);
      SetWorthSame(w, v, AllCoins(v));
      if IsCoin(w, x) {
        SetWorthTake(w, AllCoins(w), x);
        assert AllCoins(w) - {x} == AllCoins(v);
      } else {
        assert AllCoins(w) == AllCoins(v);
      }
    }
  }

  lemma WorthTake(w: World, x: Item)
    requires x in w
    ensures Worth(w) == GetWorth(w[x]) + Worth(w - {x})
  {
    hide Units;
    UnitsTake(w, x, ITEM_GOLD_COIN);
    UnitsTake(w, x, ITEM_PLATINUM_COIN);
    UnitsTake(w, x, ITEM_CRYSTAL_COIN);
  }

  // The coins that are not in the container
  ghost function Elsewhere(w: World, c: Item): set<Item> {
    set x | x in w && IsCoin(w, x) && !Inside(w, c, x)
  }

  ghost function PurseWorth(w: World, c: Item): nat {
    SetWorth(w, Purse(w, c))
  }

  lemma WorthSplits(w: World, c: Item)
    ensures Worth(w) == PurseWorth(w, c) + SetWorth(w, Elsewhere(w, c))
  {
    hide Inside, Worth, SetWorth;
    assert Purse(w, c) + Elsewhere(w, c) == AllCoins(w);
    SetWorthSplit(w, Purse(w, c), Elsewhere(w, c));
    WorthOfAll(w);
  }

  // What is elsewhere stays as it is but for the coins `xs`: the rest of all money is in the container.
  lemma PurseFollows(w: World, v: World, c: Item, xs: set<Item>)
    requires xs <= Elsewhere(w, c) && Elsewhere(v, c) == Elsewhere(w, c) - xs
    requires forall x <- Elsewhere(v, c) :: x in w && GetWorth(v[x]) == GetWorth(w[x])
    ensures PurseWorth(v, c) - PurseWorth(w, c) == Worth(v) - Worth(w) + SetWorth(w, xs)
  {
    hide Inside, Worth, SetWorth, Elsewhere, PurseWorth, GetWorth, IsCoin;
    ElsewhereThere(w, c);
    ElsewhereThere(v, c);
    WorthSplits(w, c);
    WorthSplits(v, c);
    assert xs + (Elsewhere(w, c) - xs) == Elsewhere(w, c);
    SetWorthSplit(w, xs, Elsewhere(w, c) - xs);
    SetWorthSame(w, v, Elsewhere(v, c));
  }

  lemma ElsewhereThere(w: World, c: Item)
    ensures forall x <- Elsewhere(w, c) :: x in w
  {}

  // Chains that do not pass `x` lead where they led.
  lemma {:induction false} AroundStays(w: World, v: World, x: Item, c: Item, y: Item, n: nat)
    requires Linked(w) && x in w && w[x].list == [] && y != x && y in w
    requires forall z <- w :: z != x ==> z in v && v[z].parent == w[z].parent
    ensures AroundIn(v, c, y, n) == AroundIn(w, c, y, n)
    decreases n
  {
    if n > 0 && w[y].parent != null {
      assert y in w[w[y].parent].list;
      AroundStays(w, v, x, c, w[y].parent, n - 1);
    }
  }

  lemma InsideStays(w: World, v: World, x: Item, c: Item, y: Item)
    requires Linked(w) && x in w && w[x].list == [] && y != x && y in w
    requires forall z <- w :: z != x ==> z in v && v[z].parent == w[z].parent
    ensures Inside(v, c, y) == Inside(w, c, y)
  {
    forall n: nat ensures AroundIn(v, c, y, n) == AroundIn(w, c, y, n) {
      AroundStays(w, v, x, c, y, n);
    }
  }

  // ---------- coins that come and go ----------

  // A loose coin changes nothing in a container.
  lemma LooseCoin(w: World, v: World, c: Item, x: Item)
    requires Linked(v) && x !in w && v.Keys == w.Keys + {x} && v[x].list == [] && v[x].parent == null && c in w
    requires forall z <- w :: v[z] == w[z]
    ensures PurseWorth(v, c) == PurseWorth(w, c)
  {
    hide Inside, GetWorth, SetWorth, Linked;
    forall y <- w ensures Inside(v, c, y) == Inside(w, c, y) {
      InsideStays(v, w, x, c, y);
    }
    LooseOutside(v, c, x);
    assert Purse(v, c) == Purse(w, c);
    SetWorthSame(w, v, Purse(w, c));
  }

  lemma LooseOutside(w: World, c: Item, x: Item)
    requires x in w && w[x].parent == null
    ensures !Inside(w, c, x)
  {}

  lemma ListedInside(w: World, c: Item, x: Item)
    requires x in w && w[x].parent == c
    ensures Inside(w, c, x)
  {
    assert AroundIn(w, c, x, 1);
  }

  // A coin that has been put into a container is worth more there by what it is worth.
  lemma CoinAdded(kinds: Kinds, w: World, v: World, c: Item, x: Item, flags: Flags, s: Item)
    requires Good(kinds, w) && Good(kinds, v) && CoinKinds(kinds) && c in w && c.isContainer && x != c
    requires x in w && w[x].parent == null && IsCoin(w, x) && c in v
    requires AddKept(kinds, w, v, c, INDEX_WHEREEVER, x, flags, 0, s)
    ensures PurseWorth(v, c) == PurseWorth(w, c) + GetWorth(w[x])
    ensures |v[c].list| <= |w[c].list| + 1
    ensures forall y <- w :: y != x ==> y in v && v[y].parent == w[y].parent
    ensures forall y <- v :: (y in w && y != x) || v[y].parent == c
  {
    hide Inside, GetWorth, SetWorth, Sound, StacksFit, Units, Destination, Filled, NoOverflow, PurseWorth, Worth, Elsewhere;
    StackOf(kinds, w, x);
    SettlesAt(kinds, w, c, x, flags);
    SoundLinked(kinds, w);
    SoundLinked(kinds, v);
    NothingElse(kinds, w, v, c, x, flags, s);
    MoneyStays(w, v);
    SetWorthOne(w, x);
    ElsewhereFewer(w, v, c, x);
    PurseFollows(w, v, c, {x});
    OneListed(w, v, c, if x in v then x else s);
  }

  lemma SetWorthOne(w: World, x: Item)
    requires x in w
    ensures SetWorth(w, {x}) == GetWorth(w[x])
  {
    SetWorthTake(w, {x}, x);
    assert {x} - {x} == {};
  }

  lemma MoneyStays(w: World, v: World)
    requires forall id :: Units(v, id) == Units(w, id)
    ensures Worth(v) == Worth(w)
  {}

  // What an addition does to everything but the thing that is added
  ghost predicate Beside(w: World, v: World, c: Item, x: Item)
    requires c in w
  {
    && (forall y <- w :: y != x ==> y in v && v[y].id == w[y].id && v[y].parent == w[y].parent)
    && (forall y <- w :: y != x && y !in w[c].list ==> v[y].count == w[y].count)
    && (forall y <- v :: (y in w && y != x) || v[y].parent == c)
  }

  lemma NothingElse(kinds: Kinds, w: World, v: World, c: Item, x: Item, flags: Flags, s: Item)
    requires c in w && x in w && x != c && Linked(w) && Linked(v)
    requires AddKept(kinds, w, v, c, INDEX_WHEREEVER, x, flags, 0, s)
    requires Destination(kinds, w, c, INDEX_WHEREEVER, x, flags).0 == c
    ensures Beside(w, v, c, x) && (forall id :: Units(v, id) == Units(w, id)) && c in v
    ensures forall y <- v :: y in w || y == s
  {
    hide Units, Destination, Filled, NoOverflow, Good, Linked;
  }

  lemma ElsewhereFewer(w: World, v: World, c: Item, x: Item)
    requires Linked(w) && c in w && x in w && w[x].list == [] && w[x].parent == null && IsCoin(w, x) && x != c
    requires Beside(w, v, c, x)
    ensures {x} <= Elsewhere(w, c) && Elsewhere(v, c) == Elsewhere(w, c) - {x}
    ensures forall y <- Elsewhere(v, c) :: y in w && GetWorth(v[y]) == GetWorth(w[y])
  {
    hide Inside, Linked, GetWorth;
    LooseOutside(w, c, x);
    forall y <- w | y != x ensures Inside(v, c, y) == Inside(w, c, y) {
      InsideStays(w, v, x, c, y);
    }
    forall y <- v | !(y in w && y != x) ensures Inside(v, c, y) {
      ListedInside(v, c, y);
    }
    forall y <- w[c].list ensures Inside(w, c, y) {
      ListedThere(w, c, y);
    }
    assert forall y <- Elsewhere(v, c) :: v[y].id == w[y].id && v[y].count == w[y].count;
    forall y <- Elsewhere(v, c) ensures GetWorth(v[y]) == GetWorth(w[y]) {
      SameWorth(v[y], w[y]);
    }
  }

  lemma SameWorth(a: Cell, b: Cell)
    requires a.id == b.id && a.count == b.count
    ensures GetWorth(a) == GetWorth(b)
  {}

  lemma ListedThere(w: World, c: Item, y: Item)
    requires Linked(w) && c in w && y in w[c].list
    ensures y in w && Inside(w, c, y)
  {
    hide NoRepeats;
    ListedInside(w, c, y);
  }

  // A list has at most one item more when at most one thing has come in.
  lemma OneListed(w: World, v: World, c: Item, s: Item)
    requires Linked(w) && Linked(v) && c in w && c in v
    requires forall y <- v :: y == s || (y in w && v[y].parent == w[y].parent)
    ensures |v[c].list| <= |w[c].list| + 1
  {
    var all := (set y | y in w[c].list) + {s};
    forall y <- v[c].list ensures y in all {}
    CountsAll(v[c].list, all);
    SetOfList(w[c].list);
  }

  lemma {:induction false} SetOfList(xs: seq<Item>)
    ensures |set y | y in xs| <= |xs|
    decreases |xs|
  {
    if xs == [] {
      assert (set y | y in xs) == {};
    } else {
      SetOfList(xs[1..]);
      assert (set y | y in xs) == {xs[0]} + set y | y in xs[1..];
    }
  }

  // A coin that is taken away whole
  lemma CoinTaken(kinds: Kinds, w: World, v: World, c: Item, x: Item)
    requires Good(kinds, w) && CoinKinds(kinds) && c in w && c.isContainer && x in Purse(w, c)
    requires StackTaken(w, v, null, x, w[x].count)
    ensures PurseWorth(v, c) + GetWorth(w[x]) == PurseWorth(w, c)
    ensures c in v && |v[c].list| <= |w[c].list|
    ensures Purse(v, c) == Purse(w, c) - {x}
  {
    hide Inside, GetWorth, SetWorth, Sound, StacksFit, Without;
    StackOf(kinds, w, x);
    SoundLinked(kinds, w);
    WithoutShorter(w[c].list, x);
    forall y <- w | y != x ensures Inside(v, c, y) == Inside(w, c, y) {
      InsideStays(w, v, x, c, y);
    }
    assert Purse(v, c) == Purse(w, c) - {x};
    forall y <- Purse(v, c) ensures GetWorth(v[y]) == GetWorth(w[y]) {
      SameWorth(v[y], w[y]);
    }
    SetWorthTake(w, Purse(w, c), x);
    SetWorthSame(w, v, Purse(v, c));
  }
}
