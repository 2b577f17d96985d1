/** Game::addMoney and Game::removeMoney. What the coins are worth is counted over all items there are, so that change
    that finds no room and goes to the tile is counted too. */
module Money {
  import opened Coins
  import opened Common
  import opened ItemWorld
  import opened ItemMoves

  // ---------- how addMoney splits an amount ----------

  const UINT16 := 0x1_0000
  const UINT32 := 0x1_0000_0000
  const INT32 := 0x8000_0000
  const SPLIT_LIMIT := 4294970000

  // What is left after the crystal coins. Their worth is computed in 32 bits.
  function Leftover(money: nat): nat {
    money - (Crystals(money) * 10000) % UINT32
  }

  function Crystals(money: nat): (crys: nat)
    ensures crys < UINT32
  {
    (money / 10000) % UINT32
  }

  // The count of a new stack: CreateItem takes 16 bits of it, makes 1 of 0, and keeps 8 bits.
  function CreatedCount(n: nat): nat {
    (if n % UINT16 == 0 then 1 else n % UINT16) % 0x100
  }

  // The loop counts in signed numbers: from 2^31 on the minimum with 100 is negative, and there is one stack only.
  function CrystalCoins(crys: nat): nat {
    if crys < INT32 then crys else CreatedCount(crys)
  }

  function PlatinumFor(left: nat): (plat: nat)
    ensures plat * 100 <= left
  {
    (left / 100) % UINT16
  }

  function PlatinumCoins(left: nat): nat {
    var plat := PlatinumFor(left);
    if plat == 0 then 0 else CreatedCount(plat)
  }

  function GoldCoins(left: nat): nat {
    var rest := left - PlatinumFor(left) * 100;
    if rest == 0 then 0 else CreatedCount(rest)
  }

  // The crystal, platinum and gold coins that addMoney creates
  function Split(money: nat): (nat, nat, nat) {
    (CrystalCoins(Crystals(money)), PlatinumCoins(Leftover(money)), GoldCoins(Leftover(money)))
  }

  function SplitWorth(money: nat): nat {
    var (crys, plat, gold) := Split(money);
    crys * 10000 + plat * 100 + gold
  }

  // All stacks that addMoney creates hold 1 to 100 coins.
  predicate Issuable(money: nat) {
    && (Crystals(money) >= INT32 ==> 1 <= CreatedCount(Crystals(money)) <= 100)
    && IssuableSmall(Leftover(money))
  }

  predicate IssuableSmall(left: nat) {
    && (PlatinumFor(left) != 0 ==> 1 <= PlatinumCoins(left) <= 100)
    && (left != PlatinumFor(left) * 100 ==> 1 <= GoldCoins(left) <= 100)
  }

  // How often the worth of the crystal coins wraps
  function Wraps(money: nat): nat {
    money / 10000 * 10000 / UINT32
  }

  // The amounts that are paid out exactly
  predicate PaysExactly(money: nat) {
    || money < SPLIT_LIMIT
    || (money / 10000 < INT32 && Wraps(money) % 25 == 0 && money % 100 != 0)
  }

  // The coins are worth the amount exactly if the product does not wrap, or wraps a multiple of 25 times and there is gold
  // to pay; and then no stack is empty or too big.
  lemma ExactSplit(money: nat)
    ensures SplitWorth(money) == money <==> PaysExactly(money)
    ensures PaysExactly(money) ==> Issuable(money)
  {
    hide Split, Issuable;
    if money / 10000 < INT32 {
      SplitParts(money);
      FewCrystals(money);
    } else {
      ManyCrystals(money);
    }
  }

  // In a platinum stack 8 bits are left of the count; of the gold there is one coin too many if the 16 bits of the
  // platinum count did not suffice and nothing else is left.
  lemma SmallCoins(left: nat)
    ensures PlatinumCoins(left) == left / 100 % 0x100
    ensures GoldCoins(left) == if left % 100 != 0 then left % 100 else if left / 100 < UINT16 then 0 else 1
  {
    hide CreatedCount, PlatinumFor;
    var over := left / 100 / UINT16;
    PlatinumLeaves(left, over);
    LowByte(PlatinumFor(left), over * 0x100);
    ByteOf(PlatinumFor(left));
    WordOf(left % 100, over);
  }

  lemma PlatinumLeaves(left: nat, over: nat)
    requires over == left / 100 / UINT16
    ensures PlatinumFor(left) < UINT16 && left / 100 == PlatinumFor(left) + over * 0x100 * 0x100
    ensures left - PlatinumFor(left) * 100 == left % 100 + over * 100 * UINT16
    ensures left / 100 < UINT16 <==> over == 0
  {}

  lemma ByteOf(n: nat)
    requires n < UINT16
    ensures n != 0 ==> CreatedCount(n) == n % 0x100
  {}

  lemma WordOf(s: nat, over: nat)
    requires s < 100
    ensures var n := s + over * 100 * UINT16;
      if s != 0 then CreatedCount(n) == s else n != 0 ==> CreatedCount(n) == 1
  {
    LowWord(s, over * 100);
  }

  lemma LowByte(n: nat, k: nat)
    ensures (n + k * 0x100) % 0x100 == n % 0x100
  {}

  lemma LowWord(n: nat, k: nat)
    ensures (n + k * UINT16) % UINT16 == n % UINT16
  {}

  // The leftover is what it should be, and 2^32 more for each wrap.
  lemma SplitParts(money: nat)
    requires money / 10000 < INT32
    ensures Leftover(money) == money % 10000 + Wraps(money) * UINT32
    ensures SplitWorth(money) == money / 10000 * 10000 + PlatinumCoins(Leftover(money)) * 100 + GoldCoins(Leftover(money))
    ensures Issuable(money) == IssuableSmall(Leftover(money))
    ensures money < SPLIT_LIMIT <==> Wraps(money) == 0
    ensures Leftover(money) == money % 10000 <==> money < SPLIT_LIMIT
  {
    hide PlatinumCoins, GoldCoins, IssuableSmall;
    assert Crystals(money) == money / 10000;
    assert money == money / 10000 * 10000 + money % 10000;
  }

  lemma FewCrystals(money: nat)
    requires money / 10000 < INT32
    ensures var left, q := money % 10000 + Wraps(money) * UINT32, Wraps(money);
      && (PlatinumCoins(left) * 100 + GoldCoins(left) == money % 10000 <==> q == 0 || (q % 25 == 0 && money % 100 != 0))
      && (q == 0 || (q % 25 == 0 && money % 100 != 0) ==> IssuableSmall(left))
  {
    hide PlatinumCoins, GoldCoins, Wraps, IssuableSmall;
    var r, q := money % 10000, Wraps(money);
    LastDigits(money);
    if q % 25 == 0 {
      Quotient(q, 25);
      WrapsPay(r, q / 25);
    } else {
      WrapsLose(r, q);
    }
  }

  lemma Quotient(n: nat, d: nat)
    requires d > 0 && n % d == 0
    ensures n / d * d == n
  {}

  lemma LastDigits(money: nat)
    ensures money % 10000 % 100 == money % 100
  {
    assert money == money / 10000 * 100 * 100 + money % 10000;
    LastTwo(money / 10000 * 100, money % 10000);
  }

  lemma LastTwo(n: nat, left: nat)
    ensures (n * 100 + left) % 100 == left % 100
  {}

  lemma WrapsPay(r: nat, k: nat)
    requires r < 10000
    ensures var left := r + k * 25 * UINT32;
      && (PlatinumCoins(left) * 100 + GoldCoins(left) == r <==> k == 0 || r % 100 != 0)
      && (k == 0 || r % 100 != 0 ==> IssuableSmall(left))
  {
    hide PlatinumCoins, GoldCoins, PlatinumFor;
    SmallCoins(r + k * 25 * UINT32);
    WrapsFit(r, k);
  }

  lemma WrapsLose(r: nat, q: nat)
    requires q % 25 != 0
    ensures var left := r + q * UINT32;
      PlatinumCoins(left) * 100 + GoldCoins(left) != r
  {
    hide PlatinumCoins, GoldCoins;
    SmallCoins(r + q * UINT32);
    WrapsMisfit(r, q);
  }

  // A multiple of 25 wraps leaves the low bits of both counts alone.
  lemma WrapsFit(r: nat, k: nat)
    requires r < 10000
    ensures var left := r + k * 25 * UINT32;
      && left % 100 == r % 100 && left / 100 == r / 100 + k * 0x4000_0000
      && left / 100 % 0x100 == r / 100 && PlatinumFor(left) == r / 100
      && (left / 100 < UINT16 <==> k == 0)
  {
    ByHundred(r, k * 0x4000_0000);
    LowBits(r / 100, k);
    assert r + k * 25 * UINT32 == r + k * 0x4000_0000 * 100;
  }

  lemma ByHundred(r: nat, k: nat)
    ensures (r + k * 100) / 100 == r / 100 + k && (r + k * 100) % 100 == r % 100
  {}

  lemma LowBits(n: nat, k: nat)
    requires n < 100
    ensures (n + k * 0x4000_0000) % 0x100 == n && (n + k * 0x4000_0000) % UINT16 == n
  {
    LowByte(n, k * 0x40_0000);
    LowWord(n, k * 0x4000);
  }

  lemma WrapsMisfit(r: nat, q: nat)
    requires q % 25 != 0
    ensures var left := r + q * UINT32;
      left / 100 % 0x100 * 100 + (if left % 100 != 0 then left % 100 else 1) != r
      && left / 100 >= UINT16
  {
    var left := r + q * UINT32;
    var h := left / 100 / 0x100;
    assert left == (h * 0x100 + left / 100 % 0x100) * 100 + left % 100;
    if left % 100 != 0 && left / 100 % 0x100 * 100 + left % 100 == r {
      assert q * UINT32 == h * 0x100 * 100;
      assert q * 0x100_0000 == h * 100;
      NotDivided(q, h);
    }
  }

  // 2^24 and 25 have no factor in common.
  lemma NotDivided(q: nat, h: nat)
    requires q * 0x100_0000 == h * 100
    ensures q % 25 == 0
  {
    assert q * 16 == 25 * (h * 4 - q * 671088);
  }

  // From 2^31 crystal coins on there are far too few coins.
  lemma ManyCrystals(money: nat)
    requires money / 10000 >= INT32
    ensures SplitWorth(money) < money && !PaysExactly(money)
  {
    hide PlatinumCoins, GoldCoins;
    SmallCoins(Leftover(money));
  }

  // Without a wrap the split is exact, in stacks of less than 100 besides the crystal coins.
  lemma SplitExact(money: nat)
    requires money < SPLIT_LIMIT
    ensures Issuable(money) && SplitWorth(money) == money
    ensures Split(money) == (money / 10000, money % 10000 / 100, money % 10000 % 100)
  {
    hide Issuable, SplitWorth, PlatinumCoins, GoldCoins;
    ExactSplit(money);
    SplitParts(money);
    SmallCoins(Leftover(money));
  }

  // The first amount that goes wrong: 4294970000 gold is handed out as something else, in stacks of 1 to 100.
  lemma SplitFails()
    ensures SplitWorth(SPLIT_LIMIT) != SPLIT_LIMIT && Issuable(SPLIT_LIMIT)
  {
    hide SplitWorth, PlatinumCoins, GoldCoins;
    ExactSplit(SPLIT_LIMIT);
    assert Leftover(SPLIT_LIMIT) == 4294967296;
    SmallCoins(4294967296);
  }

  // With 25 wraps 107374190001 has a wrong leftover, and comes out right.
  lemma SplitLucky()
    ensures Wraps(107374190001) == 25 && Leftover(107374190001) != 107374190001 % 10000
    ensures SplitWorth(107374190001) == 107374190001
  {
    ExactSplit(107374190001);
  }

  // ---------- addMoney ----------

  // New coins in a world: `n` of the kind `id`, everything else as it was
  ghost predicate MoreCoins(w: World, v: World, id: nat, n: nat) {
    forall k :: Units(v, k) == Units(w, k) + if k == id then n else 0
  }

  // Coins of the three kinds have come into a world, and nothing else has come or gone.
  ghost predicate CoinsAdded(w: World, v: World, crys: nat, plat: nat, gold: nat) {
    forall k :: Units(v, k) == Units(w, k) +
      if k == ITEM_CRYSTAL_COIN then crys else if k == ITEM_PLATINUM_COIN then plat
      else if k == ITEM_GOLD_COIN then gold else 0
  }

  // An amount has been paid out as addMoney splits it.
  ghost predicate PaidOut(w: World, v: World, money: nat) {
    var (crys, plat, gold) := Split(money);
    CoinsAdded(w, v, crys, plat, gold)
  }

  // All money grows by what the split is worth. When that is the amount, exactly
  lemma PaidWorth(w: World, v: World, money: nat)
    requires PaidOut(w, v, money)
    ensures Worth(v) == Worth(w) + SplitWorth(money) && SameBeside(w, v)
    ensures Worth(v) == Worth(w) + money <==> PaysExactly(money)
  {
    hide Units, Split, PaysExactly;
    ExactSplit(money);
  }

  // There is as much as before of everything but money.
  ghost predicate SameBeside(w: World, v: World) {
    forall k | Rate(k) == 0 :: Units(v, k) == Units(w, k)
  }

  lemma CreateGood(kinds: Kinds, w: World, x: Item, id: nat, n: nat)
    requires Good(kinds, w) && x !in w && !x.isContainer && 1 <= n <= 100 && !kinds(id).fluid
    ensures var v := w[x := Cell(id, n, null, [], 0)];
      Good(kinds, v) && MoreCoins(w, v, id, n)
  {
    hide Sound, Units;
    CreateKeeps(kinds, w, x, id, n);
  }

  lemma AddedSame(kinds: Kinds, w: World, v: World, u: World, to: Item, x: Item, flags: Flags, remainder: nat, s: Item, id: nat, n: nat)
    requires x in v && to in v && AddKept(kinds, v, u, to, INDEX_WHEREEVER, x, flags, remainder, s) && MoreCoins(w, v, id, n)
    ensures Good(kinds, u) && MoreCoins(w, u, id, n)
  {
    hide Filled, NoOverflow, Good;
  }

  // The container takes `n` more stacks of coins.
  predicate Roomy(kinds: Kinds, w: World, c: Item, n: nat, flags: Flags)
    requires c in w
  {
    && c.unlocked && kinds(ITEM_GOLD_COIN).pickupable && kinds(ITEM_PLATINUM_COIN).pickupable
    && kinds(ITEM_CRYSTAL_COIN).pickupable
    && (flags.noLimit || |w[c].list| + n <= c.maxSize)
  }

  // Everything stays where it was, and what is new lies in the container or, being refused, nowhere.
  ghost predicate OnlyMore(w: World, v: World, c: Item) {
    && (forall y <- w :: y in v && v[y].parent == w[y].parent)
    && (forall y <- v :: y in w || v[y].parent == c || v[y].parent == null)
  }

  // Coins worth `worth` in `n` stacks have been handed out: they are in the container if it takes them.
  ghost predicate HandedOut(kinds: Kinds, w: World, v: World, c: Item, n: nat, worth: nat, flags: Flags)
    requires c in w
  {
    && c in v && |v[c].list| <= |w[c].list| + n && OnlyMore(w, v, c)
    && PurseWorth(w, c) <= PurseWorth(v, c) <= PurseWorth(w, c) + worth
    && (Roomy(kinds, w, c, n, flags) ==> PurseWorth(v, c) == PurseWorth(w, c) + worth)
    && (!c.unlocked ==> PurseWorth(v, c) == PurseWorth(w, c))
  }

  lemma NothingHandedOut(kinds: Kinds, w: World, c: Item, flags: Flags)
    requires c in w
    ensures HandedOut(kinds, w, w, c, 0, 0, flags)
  {
    hide PurseWorth;
  }

  lemma HandedOutTwice(kinds: Kinds, u: World, v: World, w: World, c: Item, m: nat, n: nat, worth1: nat, worth2: nat, flags: Flags)
    requires c in u && c in v && HandedOut(kinds, u, v, c, m, worth1, flags) && HandedOut(kinds, v, w, c, n, worth2, flags)
    ensures HandedOut(kinds, u, w, c, m + n, worth1 + worth2, flags)
  {
    hide PurseWorth;
  }

  // A new stack is refused and loose, or it is in the container.
  lemma StackRefused(kinds: Kinds, u: World, w: World, c: Item, x: Item, id: nat, n: nat, flags: Flags)
    requires Good(kinds, u) && Good(kinds, w) && c in u && c.isContainer && x !in u && !flags.childIsOwner
    requires w == u[x := Cell(id, n, null, [], 0)] && Rate(id) != 0
    requires AskAdd(kinds, w, c, INDEX_WHEREEVER, x, flags) != NoError
    ensures HandedOut(kinds, u, w, c, 1, n * Rate(id), flags)
  {
    hide Sound, StacksFit, AskAdd, PurseWorth, Inside;
    SoundLinked(kinds, w);
    LooseCoin(u, w, c, x);
    AnsweredAnywhere(kinds, w, c, x, flags);
    EmptyHoldsNothing(w, x, c);
  }

  lemma StackTakenIn(kinds: Kinds, u: World, w: World, v: World, c: Item, x: Item, id: nat, n: nat, flags: Flags, s: Item)
    requires Good(kinds, u) && Good(kinds, w) && Good(kinds, v) && CoinKinds(kinds)
    requires c in u && c.isContainer && x !in u && x != c && !flags.childIsOwner
    requires w == u[x := Cell(id, n, null, [], 0)] && Rate(id) != 0
    requires AskAdd(kinds, w, c, INDEX_WHEREEVER, x, flags) == NoError && c in v
    requires AddKept(kinds, w, v, c, INDEX_WHEREEVER, x, flags, 0, s)
    ensures HandedOut(kinds, u, v, c, 1, n * Rate(id), flags)
  {
    hide Sound, StacksFit, AskAdd, PurseWorth, Inside, AddKept;
    SoundLinked(kinds, w);
    LooseCoin(u, w, c, x);
    AnsweredAnywhere(kinds, w, c, x, flags);
    CoinAdded(kinds, w, v, c, x, flags, s);
  }

  // Coins are created and put into the container; if it does not take them, they go to the tile.
  method CreateCoins(kinds: Kinds, cylinder: Item, id: nat, n: nat, flags: Flags, ghost items: set<Item>)
    returns (ghost alive: set<Item>)
    requires Good(kinds, Snap(items)) && cylinder in items && cylinder.isContainer && CoinKinds(kinds)
    requires id in {ITEM_GOLD_COIN, ITEM_PLATINUM_COIN, ITEM_CRYSTAL_COIN} && 1 <= n <= 100 && !flags.childIsOwner
    modifies items
    ensures Good(kinds, Snap(alive)) && items <= alive && forall x <- alive :: x in items || fresh(x)
    ensures MoreCoins(old(Snap(items)), Snap(alive), id, n)
    ensures HandedOut(kinds, old(Snap(items)), Snap(alive), cylinder, 1, n * Rate(id), flags)
  {
    hide Good, AddKept, Worth, MoreCoins, AskAdd, HandedOut;
    ghost var w := Snap(items);
    var remaindItem := new Item(id, n, false, 0, true);
    alive := items + {remaindItem};
    SnapWith(items, remaindItem);
    CreateGood(kinds, w, remaindItem, id, n);
    ghost var v := Snap(alive);
    var ret, remainder;
    ghost var made;
    ret, remainder, alive, made := InternalAddItem(kinds, cylinder, remaindItem, INDEX_WHEREEVER, flags, false, alive);
    if ret == NoError {
      AddedSame(kinds, w, v, Snap(alive), cylinder, remaindItem, flags, remainder, Placed(remaindItem, made), id, n);
      NothingLost(kinds, v, Snap(alive), cylinder, remaindItem, flags, remainder, Placed(remaindItem, made));
      StackTakenIn(kinds, w, v, Snap(alive), cylinder, remaindItem, id, n, flags, Placed(remaindItem, made));
    } else {
      StackRefused(kinds, w, v, cylinder, remaindItem, id, n, flags);
    }
  }

  method AddCrystals(kinds: Kinds, cylinder: Item, crys0: nat, flags: Flags, ghost items: set<Item>)
    returns (ghost alive: set<Item>)
    requires Good(kinds, Snap(items)) && cylinder in items && cylinder.isContainer && CoinKinds(kinds)
    requires !flags.childIsOwner && (crys0 >= INT32 ==> 1 <= CreatedCount(crys0) <= 100)
    modifies items
    ensures Good(kinds, Snap(alive)) && items <= alive && forall x <- alive :: x in items || fresh(x)
    ensures MoreCoins(old(Snap(items)), Snap(alive), ITEM_CRYSTAL_COIN, CrystalCoins(crys0))
    ensures HandedOut(kinds, old(Snap(items)), Snap(alive), cylinder, CrystalStacks(crys0), CrystalCoins(crys0) * 10000, flags)
  {
    hide Good, CoinKinds, Snap, Units, HandedOut, CrystalStacks;
    alive := items;
    var crys := crys0;
    ghost var w := Snap(items);
    ghost var stacks, coins := 0, 0;
    SnapHas(items, cylinder);
    NothingHandedOut(kinds, w, cylinder, flags);
    CrystalStacksNone();
    while crys > 0
      invariant 0 <= crys <= crys0 && (crys0 >= INT32 ==> crys == 0 || crys == crys0)
      invariant Good(kinds, Snap(alive)) && items <= alive && forall x <- alive :: x in items || fresh(x)
      invariant coins == if crys0 < INT32 then crys0 - crys else if crys == 0 then CreatedCount(crys0) else 0
      invariant MoreCoins(w, Snap(alive), ITEM_CRYSTAL_COIN, coins)
      invariant cylinder in w && cylinder in alive && stacks + CrystalStacks(crys) == CrystalStacks(crys0)
      invariant HandedOut(kinds, w, Snap(alive), cylinder, stacks, coins * 10000, flags)
    {
      var n := if 100 < crys < INT32 then 100 else crys;
      CrystalStacksNext(crys);
      ghost var u := Snap(alive);
      SnapHas(alive, cylinder);
      alive := CreateCoins(kinds, cylinder, ITEM_CRYSTAL_COIN, CreatedCount(n), flags, alive);
      HandedOutTwice(kinds, w, u, Snap(alive), cylinder, stacks, 1, coins * 10000, CreatedCount(n) * 10000, flags);
      stacks, coins := stacks + 1, coins + CreatedCount(n);
      crys := crys - n;
    }
  }

  // How many stacks of crystal coins there are
  function CrystalStacks(crys: nat): nat {
    if crys >= INT32 then 1 else (crys + 99) / 100
  }

  lemma CrystalStacksNone()
    ensures CrystalStacks(0) == 0
  {}

  lemma CrystalStacksNext(crys: nat)
    requires crys > 0
    ensures CrystalStacks(crys) == 1 + CrystalStacks(if 100 < crys < INT32 then crys - 100 else 0)
  {}

  // How many stacks addMoney creates
  function Stacks(money: nat): nat {
    CrystalStacks(Crystals(money)) + SmallStacks(Leftover(money))
  }

  function SmallStacks(left: nat): nat {
    (if PlatinumFor(left) != 0 then 1 else 0) + (if left != PlatinumFor(left) * 100 then 1 else 0)
  }

  // One stack for a hundred crystal coins or less, and one for the platinum and one for the gold coins, if there are any
  function UsualStacks(money: nat): nat {
    (money / 10000 + 99) / 100 + (if money % 10000 >= 100 then 1 else 0) + if money % 100 != 0 then 1 else 0
  }

  // Amounts below the limit are paid out in as few stacks as possible.
  lemma UsualCount(money: nat)
    requires money < SPLIT_LIMIT
    ensures Stacks(money) == UsualStacks(money)
  {
    hide SmallStacks, Leftover, Crystals;
    UsualCrystals(money);
    UsualSmall(money % 10000);
    LastDigits(money);
  }

  lemma UsualCrystals(money: nat)
    requires money < SPLIT_LIMIT
    ensures Crystals(money) == money / 10000 < INT32 && Leftover(money) == money % 10000
  {
    assert money / 10000 * 10000 + money % 10000 == money;
  }

  lemma UsualSmall(left: nat)
    requires left < 10000
    ensures SmallStacks(left) == (if left >= 100 then 1 else 0) + if left % 100 != 0 then 1 else 0
  {
    assert PlatinumFor(left) == left / 100;
  }

  // Game::addMoney into a container; what does not fit goes to the tile. If there are slots enough, all of it is in the
  // container afterwards.
  method AddMoney(kinds: Kinds, cylinder: Item, money0: nat, flags: Flags, ghost items: set<Item>)
    returns (ghost alive: set<Item>)
    requires Good(kinds, Snap(items)) && cylinder in items && cylinder.isContainer && CoinKinds(kinds)
    requires Issuable(money0) && !flags.childIsOwner
    modifies items
    ensures Good(kinds, Snap(alive)) && items <= alive && forall x <- alive :: x in items || fresh(x)
    ensures PaidOut(old(Snap(items)), Snap(alive), money0)
    ensures HandedOut(kinds, old(Snap(items)), Snap(alive), cylinder, Stacks(money0), SplitWorth(money0), flags)
    ensures money0 < 4294970000 ==>
      CoinsAdded(old(Snap(items)), Snap(alive), money0 / 10000, money0 % 10000 / 100, money0 % 100)
    ensures money0 < 4294970000 ==>
      HandedOut(kinds, old(Snap(items)), Snap(alive), cylinder, UsualStacks(money0), money0, flags)
  {
    hide Good, CoinKinds, Snap, MoreCoins, CoinsAdded, Rate, IssuableSmall, PlatinumCoins, GoldCoins, CreatedCount, HandedOut,
      CrystalStacks, SmallStacks, UsualStacks;
    if money0 < SPLIT_LIMIT {
      UsualCount(money0);
      SplitExact(money0);
      LastDigits(money0);
    }
    SnapHas(items, cylinder);
    var crys := (money0 / 10000) % UINT32;
    var money := money0 - (crys * 10000) % UINT32;
    assert money == Leftover(money0);
    alive := AddCrystals(kinds, cylinder, crys, flags, items);
    ghost var a := Snap(alive);
    SnapHas(alive, cylinder);
    alive := AddSmallCoins(kinds, cylinder, money, flags, alive);
    HandedOutTwice(kinds, old(Snap(items)), a, Snap(alive), cylinder, CrystalStacks(crys), SmallStacks(money),
                   CrystalCoins(crys) * 10000, PlatinumCoins(money) * 100 + GoldCoins(money), flags);
    PaidTogether(old(Snap(items)), a, Snap(alive), CrystalCoins(crys), PlatinumCoins(money), GoldCoins(money));
  }

  // Platinum and gold coins
  method AddSmallCoins(kinds: Kinds, cylinder: Item, money0: nat, flags: Flags, ghost items: set<Item>)
    returns (ghost alive: set<Item>)
    requires Good(kinds, Snap(items)) && cylinder in items && cylinder.isContainer && CoinKinds(kinds)
    requires IssuableSmall(money0) && !flags.childIsOwner
    modifies items
    ensures Good(kinds, Snap(alive)) && items <= alive && forall x <- alive :: x in items || fresh(x)
    ensures CoinsAdded(old(Snap(items)), Snap(alive), 0, PlatinumCoins(money0), GoldCoins(money0))
    ensures HandedOut(kinds, old(Snap(items)), Snap(alive), cylinder, SmallStacks(money0),
                      PlatinumCoins(money0) * 100 + GoldCoins(money0), flags)
  {
    hide Good, CoinKinds, Snap, MoreCoins, CoinsAdded, CreatedCount, HandedOut;
    SnapHas(items, cylinder);
    alive := items;
    var money := money0;
    ghost var a := Snap(alive);
    NoCoins(a, ITEM_PLATINUM_COIN);
    NothingHandedOut(kinds, a, cylinder, flags);
    var plat := (money / 100) % UINT16;
    if plat != 0 {
      alive := CreateCoins(kinds, cylinder, ITEM_PLATINUM_COIN, CreatedCount(plat), flags, alive);
      money := money - plat * 100;
    }
    ghost var b := Snap(alive);
    SnapHas(alive, cylinder);
    NoCoins(b, ITEM_GOLD_COIN);
    NothingHandedOut(kinds, b, cylinder, flags);
    if money != 0 {
      alive := CreateCoins(kinds, cylinder, ITEM_GOLD_COIN, CreatedCount(money), flags, alive);
    }
    SmallTogether(a, b, Snap(alive), PlatinumCoins(money0), GoldCoins(money0));
    HandedOutTwice(kinds, a, b, Snap(alive), cylinder, if plat != 0 then 1 else 0, if money != 0 then 1 else 0,
                   PlatinumCoins(money0) * 100, GoldCoins(money0), flags);
  }

  lemma NoCoins(w: World, id: nat)
    ensures MoreCoins(w, w, id, 0)
  {}

  lemma SmallTogether(a: World, b: World, v: World, plat: nat, gold: nat)
    requires MoreCoins(a, b, ITEM_PLATINUM_COIN, plat) && MoreCoins(b, v, ITEM_GOLD_COIN, gold)
    ensures CoinsAdded(a, v, 0, plat, gold)
  {
    hide Units;
  }

  lemma PaidTogether(w: World, a: World, v: World, crys: nat, plat: nat, gold: nat)
    requires MoreCoins(w, a, ITEM_CRYSTAL_COIN, crys) && CoinsAdded(a, v, 0, plat, gold)
    ensures CoinsAdded(w, v, crys, plat, gold)
  {
    hide Units;
  }

  // ---------- what is in the purse ----------

  // Coins with what they are worth, in ascending order: the multimap of removeMoney
  datatype Coin = Coin(worth: nat, item: Item)

  predicate Ascending(coins: seq<Coin>) {
    forall i, j :: 0 <= i < j < |coins| ==> coins[i].worth <= coins[j].worth
  }

  predicate Different(coins: seq<Coin>) {
    forall i, j :: 0 <= i < j < |coins| ==> coins[i].item != coins[j].item
  }

  function Total(coins: seq<Coin>): nat {
    if coins == [] then 0 else coins[0].worth + Total(coins[1..])
  }

  // `coins` are the coins of `xs`, with what they are worth.
  ghost predicate CoinsOf(w: World, xs: set<Item>, coins: seq<Coin>) {
    && (forall x <- xs :: x in w && Coin(GetWorth(w[x]), x) in coins)
    && (forall d <- coins :: d.item in xs && d.worth == GetWorth(w[d.item]))
  }

  // multimap::insert puts a coin behind those that are worth the same.
  function Insert(coins: seq<Coin>, c: Coin): (r: seq<Coin>) {
    if coins != [] && coins[0].worth <= c.worth then [coins[0]] + Insert(coins[1..], c) else [c] + coins
  }

  lemma {:induction false} InsertHolds(coins: seq<Coin>, c: Coin, d: Coin)
    ensures d in Insert(coins, c) <==> d == c || d in coins
    decreases |coins|
  {
    if coins != [] && coins[0].worth <= c.worth {
      InsertHolds(coins[1..], c, d);
      assert d in coins <==> d == coins[0] || d in coins[1..];
    }
  }

  lemma {:induction false} InsertTotal(coins: seq<Coin>, c: Coin)
    ensures Total(Insert(coins, c)) == Total(coins) + c.worth
    decreases |coins|
  {
    var r := Insert(coins, c);
    if coins != [] && coins[0].worth <= c.worth {
      InsertTotal(coins[1..], c);
      assert r[1..] == Insert(coins[1..], c);
    } else {
      assert r[1..] == coins;
    }
  }

  lemma {:induction false} InsertAscends(coins: seq<Coin>, c: Coin)
    requires Ascending(coins)
    ensures Ascending(Insert(coins, c))
    decreases |coins|
  {
    if coins != [] && coins[0].worth <= c.worth {
      InsertAscends(coins[1..], c);
      forall d <- Insert(coins[1..], c) ensures coins[0].worth <= d.worth { InsertHolds(coins[1..], c, d); }
    }
  }

  lemma {:induction false} InsertDiffers(coins: seq<Coin>, c: Coin)
    requires Different(coins) && forall d <- coins :: d.item != c.item
    ensures Different(Insert(coins, c))
    decreases |coins|
  {
    if coins != [] && coins[0].worth <= c.worth {
      InsertDiffers(coins[1..], c);
      forall d <- Insert(coins[1..], c) ensures coins[0].item != d.item { InsertHolds(coins[1..], c, d); }
    }
  }

  // ---------- collecting the coins ----------

  // The items in `seen` have been looked at: the containers among them are queued, the coins are collected.
  ghost predicate Scanned(w: World, c: Item, seen: set<Item>, containers: seq<Item>, coins: seq<Coin>) {
    && NoRepeats(containers) && Ascending(coins) && Different(coins)
    && (forall x <- seen :: x in w && Inside(w, c, x))
    && (forall x <- containers :: x in seen && x.isContainer)
    && (forall x <- seen :: x.isContainer ==> x in containers)
    && (forall d <- coins :: d.item in seen && d.item in w && IsCoin(w, d.item) && d.worth == GetWorth(w[d.item]))
    && (forall x <- seen :: x in w && !x.isContainer && IsCoin(w, x) ==> Coin(GetWorth(w[x]), x) in coins)
  }

  lemma ScanCoin(w: World, c: Item, seen: set<Item>, containers: seq<Item>, coins: seq<Coin>, x: Item)
    requires Scanned(w, c, seen, containers, coins) && x in w && x !in seen && Inside(w, c, x)
    requires !x.isContainer && IsCoin(w, x)
    ensures Scanned(w, c, seen + {x}, containers, Insert(coins, Coin(GetWorth(w[x]), x)))
  {
    hide Inside, Ascending, Different, NoRepeats, GetWorth;
    var d := Coin(GetWorth(w[x]), x);
    InsertAscends(coins, d);
    InsertDiffers(coins, d);
    var r := Insert(coins, d);
    forall e <- r ensures e.item in seen + {x} && e.item in w && IsCoin(w, e.item) && e.worth == GetWorth(w[e.item]) {
      InsertHolds(coins, d, e);
    }
    forall y <- seen + {x} | !y.isContainer && IsCoin(w, y) ensures Coin(GetWorth(w[y]), y) in r {
      InsertHolds(coins, d, Coin(GetWorth(w[y]), y));
    }
  }

  lemma ScanOther(w: World, c: Item, seen: set<Item>, containers: seq<Item>, coins: seq<Coin>, x: Item)
    requires Scanned(w, c, seen, containers, coins) && x in w && x !in seen && Inside(w, c, x)
    ensures x.isContainer ==> Scanned(w, c, seen + {x}, containers + [x], coins)
    ensures !x.isContainer && !IsCoin(w, x) ==> Scanned(w, c, seen + {x}, containers, coins)
  {
    hide Inside, Ascending, Different, GetWorth;
  }

  lemma CoinWorth(kinds: Kinds, w: World, x: Item)
    requires Good(kinds, w) && CoinKinds(kinds) && x in w
    ensures GetWorth(w[x]) != 0 <==> IsCoin(w, x)
    ensures IsCoin(w, x) ==> kinds(w[x].id).stackable && !x.isContainer && w[x].count >= 1
  {
    hide Sound, StacksFit;
    StackOf(kinds, w, x);
  }

  // One list is scanned, that of `c` itself or of a container in it.
  method Scan(kinds: Kinds, ghost c: Item, container: Item, ghost seen0: set<Item>, containers0: seq<Item>, coins0: seq<Coin>,
              ghost items: set<Item>)
    returns (ghost seen: set<Item>, containers: seq<Item>, coins: seq<Coin>)
    requires Good(kinds, Snap(items)) && CoinKinds(kinds) && container in items && UpTo(Snap(items), c, container)
    requires Scanned(Snap(items), c, seen0, containers0, coins0) && forall x <- container.itemlist :: x !in seen0
    ensures Scanned(Snap(items), c, seen, containers, coins) && containers0 <= containers
    ensures forall x :: x in seen <==> x in seen0 || x in container.itemlist
  {
    hide Good, Scanned, Inside, GetWorth;
    ghost var w := Snap(items);
    seen, containers, coins := seen0, containers0, coins0;
    var list := container.itemlist;
    for i := 0 to |list|
      invariant Scanned(w, c, seen, containers, coins) && containers0 <= containers
      invariant forall x :: x in seen <==> x in seen0 || x in list[..i]
    {
      var item := list[i];
      ListedInside(kinds, w, c, container, i);
      if item.isContainer {
        ScanOther(w, c, seen, containers, coins, item);
        containers := containers + [item];
      } else if GetWorth(item.GetCell()) != 0 {
        CoinWorth(kinds, w, item);
        ScanCoin(w, c, seen, containers, coins, item);
        coins := Insert(coins, Coin(GetWorth(item.GetCell()), item));
      } else {
        CoinWorth(kinds, w, item);
        ScanOther(w, c, seen, containers, coins, item);
      }
      seen := seen + {item};
    }
  }

  lemma ListedInside(kinds: Kinds, w: World, c: Item, q: Item, i: nat)
    requires Good(kinds, w) && q in w && UpTo(w, c, q) && i < |w[q].list|
    ensures w[q].list[i] in w && w[q].list[i] !in w[q].list[..i] && Inside(w, c, w[q].list[i])
  {
    InsideUp(w, c, w[q].list[i]);
  }

  // Everything whose parent is `c` or one of the first `i` queued containers has been looked at.
  ghost predicate ScannedUpTo(w: World, c: Item, seen: set<Item>, containers: seq<Item>, i: nat)
    requires i <= |containers|
  {
    forall x <- w :: x in seen <==> w[x].parent != null && (w[x].parent == c || w[x].parent in containers[..i])
  }

  lemma {:induction false} AllSeen(w: World, c: Item, seen: set<Item>, containers: seq<Item>, coins: seq<Coin>, x: Item, n: nat)
    requires Linked(w) && Scanned(w, c, seen, containers, coins) && ScannedUpTo(w, c, seen, containers, |containers|)
    requires AroundIn(w, c, x, n)
    ensures x in seen
  {
    assert containers[..|containers|] == containers;
    if w[x].parent != c {
      AllSeen(w, c, seen, containers, coins, w[x].parent, n - 1);
    }
  }

  // The next container's things have not been looked at yet.
  lemma NextUnseen(kinds: Kinds, w: World, c: Item, seen: set<Item>, containers: seq<Item>, coins: seq<Coin>, i: nat)
    requires Good(kinds, w) && Scanned(w, c, seen, containers, coins) && i < |containers|
    requires ScannedUpTo(w, c, seen, containers, i)
    ensures containers[i] in w && UpTo(w, c, containers[i])
    ensures forall x <- w[containers[i]].list :: x in w && w[x].parent == containers[i] && x !in seen
  {
    NotInsideItself(w, c);
  }

  // When its list has been looked at, one container more has been.
  lemma OneMore(kinds: Kinds, w: World, c: Item, seen: set<Item>, seen': set<Item>, containers: seq<Item>,
                containers': seq<Item>, i: nat)
    requires Good(kinds, w) && i < |containers| && containers <= containers' && containers[i] in w
    requires ScannedUpTo(w, c, seen, containers, i)
    requires forall x :: x in seen' <==> x in seen || x in w[containers[i]].list
    ensures ScannedUpTo(w, c, seen', containers', i + 1)
  {
    assert containers'[..i + 1] == containers[..i] + [containers[i]];
  }

  lemma QueueBound(w: World, c: Item, seen: set<Item>, containers: seq<Item>, coins: seq<Coin>)
    requires Scanned(w, c, seen, containers, coins)
    ensures |containers| <= |w.Keys|
  {
    CountsAll(containers, w.Keys);
  }

  // The first half of removeMoney: all coins in the container, however deep, each once, the cheapest first
  method CollectCoins(kinds: Kinds, cylinder: Item, ghost items: set<Item>) returns (coins: seq<Coin>)
    requires Good(kinds, Snap(items)) && CoinKinds(kinds) && cylinder in items && cylinder.isContainer
    ensures Ascending(coins) && Different(coins)
    ensures CoinsOf(Snap(items), Purse(Snap(items), cylinder), coins)
  {
    hide Good, Scanned, ScannedUpTo, Inside, GetWorth, CoinsOf, NoRepeats;
    ghost var w := Snap(items);
    ghost var seen: set<Item>;
    var containers;
    EmptyScanned(w, cylinder);
    seen, containers, coins := Scan(kinds, cylinder, cylinder, {}, [], [], items);
    FirstScanned(kinds, w, cylinder, seen, containers);
    QueueBound(w, cylinder, seen, containers, coins);
    var i := 0;
    while i < |containers|
      invariant 0 <= i <= |containers| <= |w.Keys|
      invariant Scanned(w, cylinder, seen, containers, coins) && ScannedUpTo(w, cylinder, seen, containers, i)
      decreases |w.Keys| - i
    {
      var container := containers[i];
      NextUnseen(kinds, w, cylinder, seen, containers, coins, i);
      ghost var seen0, containers0 := seen, containers;
      seen, containers, coins := Scan(kinds, cylinder, container, seen, containers, coins, items);
      OneMore(kinds, w, cylinder, seen0, seen, containers0, containers, i);
      QueueBound(w, cylinder, seen, containers, coins);
      i := i + 1;
    }
    Collected(kinds, w, cylinder, seen, containers, coins);
  }

  lemma EmptyScanned(w: World, c: Item)
    ensures Scanned(w, c, {}, [], []) && UpTo(w, c, c)
  {}

  lemma FirstScanned(kinds: Kinds, w: World, c: Item, seen: set<Item>, containers: seq<Item>)
    requires Good(kinds, w) && c in w && forall x :: x in seen <==> x in w[c].list
    ensures ScannedUpTo(w, c, seen, containers, 0)
  {}

  lemma Collected(kinds: Kinds, w: World, c: Item, seen: set<Item>, containers: seq<Item>, coins: seq<Coin>)
    requires Good(kinds, w) && CoinKinds(kinds)
    requires Scanned(w, c, seen, containers, coins) && ScannedUpTo(w, c, seen, containers, |containers|)
    ensures Ascending(coins) && Different(coins)
    ensures CoinsOf(w, Purse(w, c), coins)
  {
    SoundLinked(kinds, w);
    forall x <- Purse(w, c) ensures Coin(GetWorth(w[x]), x) in coins {
      var n: nat :| AroundIn(w, c, x, n);
      AllSeen(w, c, seen, containers, coins, x, n);
      CoinWorth(kinds, w, x);
    }
  }

  // ---------- removeMoney ----------

  // The collected coins are the whole purse.
  lemma {:induction false} TotalIsWorth(w: World, coins: seq<Coin>, xs: set<Item>)
    requires Different(coins) && CoinsOf(w, xs, coins)
    ensures Total(coins) == SetWorth(w, xs)
    decreases |coins|
  {
    if coins == [] {
      assert xs == {};
    } else {
      var x := coins[0].item;
      SetWorthTake(w, xs, x);
      forall y <- xs - {x} ensures y in w && Coin(GetWorth(w[y]), y) in coins[1..] {
        assert Coin(GetWorth(w[y]), y) in coins && Coin(GetWorth(w[y]), y) != coins[0];
      }
      TotalIsWorth(w, coins[1..], xs - {x});
    }
  }

  // The coin `x` lies somewhere and can be taken from there whole.
  ghost predicate Takeable(w: World, d: Coin) {
    && d.item in w && w[d.item].parent != null && IsCoin(w, d.item) && d.worth == GetWorth(w[d.item])
  }

  lemma TakeAllowed(kinds: Kinds, w: World, d: Coin)
    requires Good(kinds, w) && CoinKinds(kinds) && Takeable(w, d)
    ensures AskRemove(kinds, w, d.item, w[d.item].count) == NoError && kinds(w[d.item].id).stackable
  {
    CoinWorth(kinds, w, d.item);
  }

  lemma TakeableIn(w: World, d: Coin)
    requires Takeable(w, d)
    ensures d.item in w && d.worth == GetWorth(w[d.item])
  {}

  lemma PurseTakeable(w: World, c: Item, d: Coin)
    requires d.item in Purse(w, c) && d.worth == GetWorth(w[d.item])
    ensures Takeable(w, d)
  {
    var n: nat :| AroundIn(w, c, d.item, n);
  }

  // When one coin is gone, there is so much money less.
  lemma OneLess(w: World, v: World, d: Coin)
    requires Takeable(w, d)
    requires forall id :: Units(v, id) == Units(w, id) - if id == w[d.item].id then w[d.item].count else 0
    ensures Worth(w) == Worth(v) + d.worth && SameBeside(w, v)
  {
    hide Units;
    var n := w[d.item].count;
    assert d.worth == n * Rate(w[d.item].id);
  }

  // And the others still lie where they lay.
  lemma StillTakeable(w: World, v: World, d: Coin, e: Coin)
    requires Takeable(w, d) && StackTaken(w, v, null, d.item, w[d.item].count) && Takeable(w, e) && e.item != d.item
    ensures Takeable(v, e)
  {
    hide Without;
  }

  lemma WorthBound(kinds: Kinds, w: World, d: Coin)
    requires Good(kinds, w) && CoinKinds(kinds) && Takeable(w, d)
    ensures d.worth <= 1000000 && !d.item.isContainer
  {
    CoinWorth(kinds, w, d.item);
    StackOf(kinds, w, d.item);
  }

  lemma {:induction false} TotalSplits(coins: seq<Coin>, k: nat)
    requires k < |coins|
    ensures Total(coins[..k + 1]) == Total(coins[..k]) + coins[k].worth
    ensures Total(coins[..k + 1]) <= Total(coins)
    decreases |coins|
  {
    if k > 0 {
      TotalSplits(coins[1..], k - 1);
      assert coins[..k + 1][1..] == coins[1..][..k];
      assert coins[..k][1..] == coins[1..][..k - 1];
    } else {
      assert coins[..1] == [coins[0]] && coins[..0] == [];
    }
  }

  method Count(coins: seq<Coin>) returns (n: nat)
    ensures n == Total(coins)
  {
    n := 0;
    var k := 0;
    assert coins[..0] == [];
    while k < |coins|
      invariant 0 <= k <= |coins| && n == Total(coins[..k])
    {
      TotalSplits(coins, k);
      n := n + coins[k].worth;
      k := k + 1;
    }
    assert coins[..k] == coins;
  }

  method GiveChange(kinds: Kinds, cylinder: Item, ghost w: World, worth: nat, ghost money0: nat, money: nat, flags: Flags,
                    ghost items: set<Item>)
    returns (ghost alive: set<Item>)
    requires Good(kinds, Snap(items)) && CoinKinds(kinds) && cylinder in items && cylinder.isContainer
    requires !flags.childIsOwner && 0 < money <= money0 && money < worth <= 1000000
    modifies items
    ensures Good(kinds, Snap(alive)) && items <= alive && forall x <- alive :: x in items || fresh(x)
    ensures Worth(Snap(alive)) == old(Worth(Snap(items))) + (worth - money) && SameBeside(old(Snap(items)), Snap(alive))
    ensures TakenSoFar(w, old(Snap(items)), cylinder, money0 - money + worth) ==>
      TakenFrom(kinds, w, Snap(alive), cylinder, money0, flags, false)
  {
    hide Good, Worth, Snap, CoinKinds, SameBeside, PaidOut, Issuable, Split, SplitWorth, HandedOut, TakenFrom, TakenSoFar, Stacks;
    ghost var v := Snap(items);
    SplitExact(worth - money);
    alive := AddMoney(kinds, cylinder, worth - money, flags, items);
    PaidWorth(v, Snap(alive), worth - money);
    SnapHas(items, cylinder);
    if TakenSoFar(w, v, cylinder, money0 - money + worth) {
      TakenIn(w, v, cylinder, money0 - money + worth);
      ChangeGiven(kinds, w, v, Snap(alive), cylinder, worth, money0, money, flags);
    }
  }

  lemma NoTotal()
    ensures Total([]) == 0
  {}

  lemma OthersDiffer(coins: seq<Coin>, k: nat)
    requires Different(coins) && k < |coins|
    ensures forall j :: 0 <= j < |coins| && j != k ==> coins[j].item != coins[k].item
  {}

  lemma NothingTaken(w: World, c: Item)
    requires c in w
    ensures TakenSoFar(w, w, c, 0)
  {}

  lemma TakenIn(w: World, v: World, c: Item, sum: nat)
    requires TakenSoFar(w, v, c, sum)
    ensures c in w && c in v
  {}

  // The second half of removeMoney: the coins are taken one by one, the cheapest first, and change is given for the last.
  method TakeCoins(kinds: Kinds, cylinder: Item, coins: seq<Coin>, money0: nat, flags: Flags, ghost items: set<Item>)
    returns (money: nat, ghost alive: set<Item>, ghost taken: nat)
    requires Good(kinds, Snap(items)) && CoinKinds(kinds) && cylinder in items && cylinder.isContainer
    requires !flags.childIsOwner && Different(coins) && 0 < money0 <= Total(coins)
    requires forall d <- coins :: Takeable(Snap(items), d)
    modifies items
    ensures money == 0 && Good(kinds, Snap(alive))
    ensures 0 < taken <= |coins| && Total(coins[..taken - 1]) < money0 <= Total(coins[..taken])
    ensures forall j :: 0 <= j < |coins| ==> (coins[j].item in alive <==> taken <= j)
    ensures Worth(Snap(alive)) + money0 == old(Worth(Snap(items))) && SameBeside(old(Snap(items)), Snap(alive))
    ensures forall x <- items :: x in alive || exists d <- coins :: d.item == x
    ensures (forall d <- coins :: d.item in Purse(old(Snap(items)), cylinder)) ==>
      TakenFrom(kinds, old(Snap(items)), Snap(alive), cylinder, money0, flags, Total(coins[..taken]) == money0)
  {
    hide Good, Takeable, Worth, StackTaken, Snap, RemoveCount, CoinKinds, SameBeside, PaidOut, Issuable, Split, SplitWorth,
      PurseWorth, Purse, HandedOut, Roomy, TakenFrom, TakenSoFar, Stacks, Different, GetWorth, Total;
    alive, money := items, money0;
    ghost var w := Snap(items);
    ghost var own := forall d <- coins :: d.item in Purse(w, cylinder);
    SnapHas(items, cylinder);
    SameAll(w);
    NothingTaken(w, cylinder);
    NoTotal();
    forall d <- coins ensures d.item in items { TakeableIn(w, d); SnapHas(items, d.item); }
    var k := 0;
    while k < |coins| && money > 0
      invariant 0 <= k <= |coins|
      invariant Good(kinds, Snap(alive)) && cylinder in alive && forall x <- alive :: x in items || fresh(x)
      invariant Worth(Snap(alive)) + money0 == Worth(w) + money && SameBeside(w, Snap(alive))
      invariant forall x <- items :: x in alive || exists d <- coins :: d.item == x
      invariant money > 0 ==> money + Total(coins[..k]) == money0
      invariant money > 0 ==> forall j :: k <= j < |coins| ==> Takeable(Snap(alive), coins[j])
      invariant money == 0 ==> k > 0 && Total(coins[..k - 1]) < money0 <= Total(coins[..k])
      invariant forall j :: 0 <= j < |coins| ==> (coins[j].item in alive <==> k <= j)
      invariant own && money > 0 ==>
        TakenSoFar(w, Snap(alive), cylinder, money0 - money)
        && forall j :: k <= j < |coins| ==> coins[j].item in Purse(Snap(alive), cylinder)
      invariant own && money == 0 ==> TakenFrom(kinds, w, Snap(alive), cylinder, money0, flags, Total(coins[..k]) == money0)
    {
      var coin := coins[k];
      ghost var u := Snap(alive);
      OthersDiffer(coins, k);
      SnapHas(alive, cylinder);
      TakeableIn(u, coin);
      SnapHas(alive, coin.item);
      TakeAllowed(kinds, u, coin);
      WorthBound(kinds, u, coin);
      alive := TakeCoin(kinds, coin, alive);
      forall j | k < j < |coins| ensures Takeable(Snap(alive), coins[j]) {
        StillTakeable(u, Snap(alive), coin, coins[j]);
      }
      TotalSplits(coins, k);
      ghost var v := Snap(alive);
      SameStill(w, u, v);
      if own {
        StillOwn(kinds, w, u, v, cylinder, coins, k, money0 - money);
        SnapHas(alive, cylinder);
      }
      if coin.worth > money {
        alive := GiveChange(kinds, cylinder, w, coin.worth, money0, money, flags, alive);
        SameStill(w, v, Snap(alive));
        money := 0;
      } else {
        money := money - coin.worth;
        if own && money == 0 {
          NoChange(kinds, w, v, cylinder, money0, flags);
        }
      }
      k := k + 1;
    }
    assert coins[..|coins|] == coins;
    taken := k;
  }

  // So much has been taken out of the purse, and no list has grown.
  ghost predicate TakenSoFar(w: World, v: World, c: Item, sum: nat) {
    c in w && c in v && PurseWorth(v, c) + sum == PurseWorth(w, c) && |v[c].list| <= |w[c].list|
  }

  // The amount has been taken from the purse: exactly, if no change was due or there was room for it, which takes three
  // stacks at most; change that was refused is missing.
  ghost predicate TakenFrom(kinds: Kinds, w: World, v: World, c: Item, money: nat, flags: Flags, even: bool) {
    && c in w && c in v && PurseWorth(v, c) + money <= PurseWorth(w, c)
    && (even || Roomy(kinds, w, c, 3, flags) ==> PurseWorth(v, c) + money == PurseWorth(w, c))
  }

  lemma StillOwn(kinds: Kinds, w: World, u: World, v: World, c: Item, coins: seq<Coin>, k: nat, sum: nat)
    requires Good(kinds, u) && CoinKinds(kinds) && c.isContainer && k < |coins| && Different(coins)
    requires coins[k].item in u && coins[k].worth == GetWorth(u[coins[k].item])
    requires TakenSoFar(w, u, c, sum) && forall j :: k <= j < |coins| ==> coins[j].item in Purse(u, c)
    requires StackTaken(u, v, null, coins[k].item, u[coins[k].item].count)
    ensures TakenSoFar(w, v, c, sum + coins[k].worth) && forall j :: k < j < |coins| ==> coins[j].item in Purse(v, c)
  {
    hide Good, Purse, PurseWorth, GetWorth, StackTaken;
    CoinTaken(kinds, u, v, c, coins[k].item);
  }

  lemma NoChange(kinds: Kinds, w: World, v: World, c: Item, money: nat, flags: Flags)
    requires TakenSoFar(w, v, c, money)
    ensures TakenFrom(kinds, w, v, c, money, flags, true)
  {
    hide PurseWorth;
  }

  lemma ChangeGiven(kinds: Kinds, w: World, v: World, v': World, c: Item, worth: nat, money0: nat, money: nat, flags: Flags)
    requires 0 < money <= money0 && money < worth <= 1000000 && c in w && c in v
    requires TakenSoFar(w, v, c, money0 - money + worth)
    requires HandedOut(kinds, v, v', c, Stacks(worth - money), SplitWorth(worth - money), flags)
    ensures TakenFrom(kinds, w, v', c, money0, flags, false)
  {
    hide PurseWorth, SplitWorth, Stacks;
    SplitExact(worth - money);
    FewStacks(worth - money);
  }

  // Change is less than a hundred crystal coins.
  lemma FewStacks(money: nat)
    requires money < 1000000
    ensures Stacks(money) <= 3
  {
    hide PlatinumFor;
    assert money / 10000 <= 99;
  }

  lemma SameAll(w: World)
    ensures SameBeside(w, w)
  {}

  lemma SameStill(u: World, v: World, w: World)
    requires SameBeside(u, v) && SameBeside(v, w)
    ensures SameBeside(u, w)
  {
    hide Units;
  }

  lemma SnapHas(items: set<Item>, x: Item)
    ensures x in Snap(items) <==> x in items
  {}

  method TakeCoin(kinds: Kinds, coin: Coin, ghost items: set<Item>) returns (ghost alive: set<Item>)
    requires Good(kinds, Snap(items)) && CoinKinds(kinds) && Takeable(Snap(items), coin) && coin.item in items
    modifies items
    ensures alive == items - {coin.item} && Good(kinds, Snap(alive))
    ensures coin.item in old(Snap(items)) && coin.worth == GetWorth(old(Snap(items))[coin.item])
    ensures StackTaken(old(Snap(items)), Snap(alive), null, coin.item, old(Snap(items))[coin.item].count)
    ensures old(Worth(Snap(items))) == Worth(Snap(alive)) + coin.worth && SameBeside(old(Snap(items)), Snap(alive))
  {
    hide Good, Takeable, Worth, StackTaken, SameBeside, GetWorth;
    ghost var u := Snap(items);
    TakeableIn(u, coin);
    TakeAllowed(kinds, u, coin);
    var r;
    r, alive := InternalRemoveItem(kinds, coin.item, -1, false, items);
    OneLess(u, Snap(alive), coin);
    TakenGone(u, Snap(alive), coin);
    SnapHas(alive, coin.item);
  }

  lemma TakenGone(w: World, v: World, d: Coin)
    requires d.item in w && StackTaken(w, v, null, d.item, w[d.item].count)
    ensures d.item !in v
  {}

  // No stack of coins is taken before one that is worth less.
  ghost predicate CheapestGone(w: World, c: Item, alive: set<Item>) {
    forall x, y :: x in Purse(w, c) && y in Purse(w, c) && x !in alive && y in alive ==> GetWorth(w[x]) <= GetWorth(w[y])
  }

  lemma NoneGone(w: World, c: Item, items: set<Item>)
    requires w.Keys == items
    ensures CheapestGone(w, c, items)
  {}

  lemma FirstGone(w: World, c: Item, coins: seq<Coin>, taken: nat, alive: set<Item>)
    requires Ascending(coins) && CoinsOf(w, Purse(w, c), coins) && taken <= |coins|
    requires forall j :: 0 <= j < |coins| ==> (coins[j].item in alive <==> taken <= j)
    ensures CheapestGone(w, c, alive)
  {
    hide Purse, GetWorth;
    forall x, y | x in Purse(w, c) && y in Purse(w, c) && x !in alive && y in alive ensures GetWorth(w[x]) <= GetWorth(w[y]) {
      var i :| 0 <= i < |coins| && coins[i] == Coin(GetWorth(w[x]), x);
      var j :| 0 <= j < |coins| && coins[j] == Coin(GetWorth(w[y]), y);
      assert i < taken <= j;
    }
  }

  // Game::removeMoney on a container: it takes exactly `money`, or nothing.
  method RemoveMoney(kinds: Kinds, cylinder: Item, money0: nat, flags: Flags, ghost items: set<Item>)
    returns (ok: bool, ghost alive: set<Item>)
    requires Good(kinds, Snap(items)) && CoinKinds(kinds) && cylinder in items && cylinder.isContainer
    requires !flags.childIsOwner
    modifies items
    ensures ok <==> money0 <= SetWorth(old(Snap(items)), Purse(old(Snap(items)), cylinder))
    ensures Good(kinds, Snap(alive))
    ensures ok ==> Worth(Snap(alive)) + money0 == old(Worth(Snap(items))) && SameBeside(old(Snap(items)), Snap(alive))
    ensures ok ==> items - alive <= Purse(old(Snap(items)), cylinder)
    ensures ok ==> PurseWorth(Snap(alive), cylinder) + money0 <= old(PurseWorth(Snap(items), cylinder))
    ensures ok && old(Roomy(kinds, Snap(items), cylinder, 3, flags)) ==>
      PurseWorth(Snap(alive), cylinder) + money0 == old(PurseWorth(Snap(items), cylinder))
    ensures !ok ==> alive == items && Snap(items) == old(Snap(items))
    ensures CheapestGone(old(Snap(items)), cylinder, alive)
  {
    hide Good, Takeable, Worth, GetWorth, Inside, Purse, SameBeside, CheapestGone;
    alive := items;
    SameAll(Snap(items));
    NoneGone(Snap(items), cylinder, items);
    if money0 <= 0 {
      return true, alive;
    }
    ghost var w := Snap(items);
    var coins := CollectCoins(kinds, cylinder, items);
    TotalIsWorth(w, coins, Purse(w, cylinder));
    var moneyCount := Count(coins);
    if moneyCount < money0 {
      return false, alive;
    }
    forall d <- coins ensures Takeable(w, d) { PurseTakeable(w, cylinder, d); }
    var money;
    ghost var taken;
    money, alive, taken := TakeCoins(kinds, cylinder, coins, money0, flags, items);
    FirstGone(w, cylinder, coins, taken, alive);
    return money == 0, alive;
  }
}
