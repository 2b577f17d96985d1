/** The market: what offers are made of is paid in advance, and comes back to somebody.

    What a player has is what lies in his bank account, depot and inbox, and what he has paid for his open offers.
    Creating an offer costs the fee, cancelling and expiring change nobody's wealth, and accepting exchanges gold for
    goods between two players. So over every run no gold and no goods appear or vanish: `Market.Run`. */
module Market {

  // What lies in a depot and an inbox, in the order in which it is looked through. A stack that is not plain has
  // attributes which the market does not take.
  datatype Stack = Stack(id: nat, count: nat, plain: bool)

  // Items of several kinds can be the same ware; a ware goes by the id of the item that is handed out for it.
  datatype Catalogue = Catalogue(wareOf: nat -> nat, stackable: nat -> bool)

  datatype Offer = Offer(player: nat, sell: bool, ware: nat, amount: nat, price: nat, created: int)

  // What players and the scheduler ask the market for
  datatype Request =
    | Create(player: nat, sell: bool, ware: nat, amount: nat, price: nat, maxOffers: int, now: int)
    | Cancel(player: nat, timestamp: int, counter: nat)
    | Accept(player: nat, timestamp: int, counter: nat, amount: nat)
    | Expire(now: int)

  const MAX_AMOUNT := 64000
  const MAX_PRICE := 999999999

  // ---------- sums ----------

  ghost function Sum(m: map<nat, nat>): nat
    decreases |m|
  {
    if m == map[] then 0 else var k :| k in m; m[k] + Sum(m - {k})
  }

  lemma {:induction false} SumTake(m: map<nat, nat>, k: nat)
    requires k in m
    ensures Sum(m) == m[k] + Sum(m - {k})
    decreases |m|
  {
    var j :| j in m && Sum(m) == m[j] + Sum(m - {j});
    if j != k {
      SumTake(m - {j}, k);
      SumTake(m - {k}, j);
      assert m - {k} - {j} == m - {j} - {k};
    }
  }

  function At(m: map<nat, nat>, k: nat): nat {
    if k in m then m[k] else 0
  }

  lemma SumSet(m: map<nat, nat>, k: nat, v: nat)
    ensures Sum(m[k := v]) == Sum(m) - At(m, k) + v
  {
    SumTake(m[k := v], k);
    assert m[k := v] - {k} == m - {k};
    if k in m {
      SumTake(m, k);
    } else {
      assert m - {k} == m;
    }
  }

  lemma SumDrop(m: map<nat, nat>, k: nat)
    ensures Sum(m - {k}) == Sum(m) - At(m, k)
  {
    if k in m {
      SumTake(m, k);
    } else {
      assert m - {k} == m;
    }
  }

  // ---------- goods ----------

  function CountOf(cat: Catalogue, list: seq<Stack>, ware: nat): nat {
    if list == [] then 0
    else (if cat.wareOf(list[0].id) == ware then list[0].count else 0) + CountOf(cat, list[1..], ware)
  }

  predicate Sellable(cat: Catalogue, s: Stack, ware: nat) {
    cat.wareOf(s.id) == ware && s.plain
  }

  // How much of the ware can be offered
  function Plenty(cat: Catalogue, list: seq<Stack>, ware: nat): nat {
    if list == [] then 0
    else (if Sellable(cat, list[0], ware) then list[0].count else 0) + Plenty(cat, list[1..], ware)
  }

  // What does not stack comes one at a time.
  predicate Tidy(cat: Catalogue, list: seq<Stack>) {
    forall s <- list :: s.count >= 1 && (!cat.stackable(cat.wareOf(s.id)) ==> s.count == 1)
  }

  lemma {:induction false} CountSplits(cat: Catalogue, a: seq<Stack>, b: seq<Stack>, ware: nat)
    ensures CountOf(cat, a + b, ware) == CountOf(cat, a, ware) + CountOf(cat, b, ware)
    ensures Plenty(cat, a + b, ware) == Plenty(cat, a, ware) + Plenty(cat, b, ware)
    decreases |a|
  {
    if a == [] {
      assert a + b == b;
    } else {
      assert (a + b)[1..] == a[1..] + b;
      CountSplits(cat, a[1..], b, ware);
    }
  }

  lemma CountNext(cat: Catalogue, list: seq<Stack>, k: nat, ware: nat)
    requires k < |list|
    ensures CountOf(cat, list[..k + 1], ware) ==
      CountOf(cat, list[..k], ware) + if cat.wareOf(list[k].id) == ware then list[k].count else 0
    ensures Plenty(cat, list[..k + 1], ware) ==
      Plenty(cat, list[..k], ware) + if Sellable(cat, list[k], ware) then list[k].count else 0
  {
    assert list[..k + 1] == list[..k] + [list[k]];
    CountSplits(cat, list[..k], [list[k]], ware);
  }

  // The search for `amount` units: it stops as soon as there are enough.
  method FindGoods(cat: Catalogue, list: seq<Stack>, ware: nat, amount: nat) returns (enough: bool, end: nat)
    requires amount > 0
    ensures end <= |list| && (enough <==> Plenty(cat, list, ware) >= amount)
    ensures enough ==> 0 < end && Plenty(cat, list[..end - 1], ware) < amount <= Plenty(cat, list[..end], ware)
  {
    var count := 0;
    end := 0;
    assert list[..0] == [];
    while end < |list|
      invariant 0 <= end <= |list| && count == Plenty(cat, list[..end], ware) < amount
    {
      CountNext(cat, list, end, ware);
      if Sellable(cat, list[end], ware) {
        count := count + list[end].count;
        if count >= amount {
          end := end + 1;
          assert list == list[..end] + list[end..];
          CountSplits(cat, list[..end], list[end..], ware);
          return true, end;
        }
      }
      end := end + 1;
    }
    assert list[..end] == list;
    return false, end;
  }

  // Taking exactly `amount` units out of what was found: from stacks what is needed, single things whole
  method TakeGoods(cat: Catalogue, list: seq<Stack>, ware: nat, amount: nat, end: nat) returns (rest: seq<Stack>)
    requires Tidy(cat, list) && 0 < end <= |list|
    requires Plenty(cat, list[..end - 1], ware) < amount <= Plenty(cat, list[..end], ware)
    ensures Tidy(cat, rest) && Plenty(cat, rest, ware) == Plenty(cat, list, ware) - amount
    ensures forall w :: CountOf(cat, rest, w) == CountOf(cat, list, w) - if w == ware then amount else 0
    ensures OthersKept(cat, list, rest, ware)
  {
    hide CountOf, Plenty, OthersKept;
    NoGoods(cat, list);
    var tmpAmount := amount;
    var k := 0;
    rest := [];
    while k < end
      invariant 0 <= k <= end && Tidy(cat, rest)
      invariant tmpAmount == if amount < Plenty(cat, list[..k], ware) then 0 else amount - Plenty(cat, list[..k], ware)
      invariant Plenty(cat, rest, ware) == Plenty(cat, list[..k], ware) - (amount - tmpAmount)
      invariant forall w :: CountOf(cat, rest, w) == CountOf(cat, list[..k], w) - if w == ware then amount - tmpAmount else 0
      invariant OthersKept(cat, list[..k], rest, ware)
    {
      var item := list[k];
      OthersNext(cat, list, k, rest, ware);
      PlentyGrows(cat, list, k, end - 1, ware);
      CountNext(cat, list, k, ware);
      var removeCount :=
        if !Sellable(cat, item, ware) then 0
        else if cat.stackable(ware) && tmpAmount < item.count then tmpAmount
        else item.count;
      forall w {
        TakeStep(cat, list, k, rest, ware, removeCount, w);
      }
      tmpAmount := tmpAmount - removeCount;
      rest := rest + Kept(item, removeCount);
      k := k + 1;
    }
    forall w {
      TailKept(cat, list, end, rest, w);
    }
    OthersRest(cat, list, end, rest, ware);
    rest := rest + list[end..];
  }

  // Other wares, and stacks with attributes, are left alone.
  ghost predicate OthersKept(cat: Catalogue, list: seq<Stack>, rest: seq<Stack>, ware: nat) {
    forall s: Stack :: cat.wareOf(s.id) != ware || !s.plain ==> multiset(rest)[s] == multiset(list)[s]
  }

  lemma OthersNext(cat: Catalogue, list: seq<Stack>, k: nat, rest: seq<Stack>, ware: nat)
    requires k < |list| && OthersKept(cat, list[..k], rest, ware)
    ensures !Sellable(cat, list[k], ware) ==> OthersKept(cat, list[..k + 1], rest + [list[k]], ware)
    ensures Sellable(cat, list[k], ware) ==>
      forall removed: nat | removed <= list[k].count :: OthersKept(cat, list[..k + 1], rest + Kept(list[k], removed), ware)
  {
    assert list[..k + 1] == list[..k] + [list[k]];
  }

  lemma OthersRest(cat: Catalogue, list: seq<Stack>, end: nat, rest: seq<Stack>, ware: nat)
    requires end <= |list| && OthersKept(cat, list[..end], rest, ware)
    ensures OthersKept(cat, list, rest + list[end..], ware)
  {
    assert list == list[..end] + list[end..];
  }

  lemma NoGoods(cat: Catalogue, list: seq<Stack>)
    ensures forall w :: OthersKept(cat, list[..0], [], w)
    ensures forall w :: CountOf(cat, [], w) == 0 == CountOf(cat, list[..0], w) && Plenty(cat, [], w) == 0 == Plenty(cat, list[..0], w)
  {
    assert list[..0] == [];
  }

  // What is left of a stack
  function Kept(s: Stack, removed: nat): seq<Stack>
    requires removed <= s.count
  {
    if removed == s.count then [] else [s.(count := s.count - removed)]
  }

  lemma TakeStep(cat: Catalogue, list: seq<Stack>, k: nat, rest: seq<Stack>, ware: nat, removed: nat, w: nat)
    requires k < |list| && removed <= list[k].count && (removed > 0 ==> Sellable(cat, list[k], ware))
    ensures var after := rest + Kept(list[k], removed);
      && CountOf(cat, after, w) + CountOf(cat, list[..k], w) + (if w == ware then removed else 0)
         == CountOf(cat, rest, w) + CountOf(cat, list[..k + 1], w)
      && Plenty(cat, after, ware) + Plenty(cat, list[..k], ware) + removed == Plenty(cat, rest, ware) + Plenty(cat, list[..k + 1], ware)
  {
    CountNext(cat, list, k, w);
    CountNext(cat, list, k, ware);
    CountSplits(cat, rest, Kept(list[k], removed), w);
    CountSplits(cat, rest, Kept(list[k], removed), ware);
  }

  lemma TailKept(cat: Catalogue, list: seq<Stack>, end: nat, rest: seq<Stack>, w: nat)
    requires end <= |list|
    ensures CountOf(cat, rest + list[end..], w) + CountOf(cat, list[..end], w) == CountOf(cat, rest, w) + CountOf(cat, list, w)
    ensures Plenty(cat, rest + list[end..], w) + Plenty(cat, list[..end], w) == Plenty(cat, rest, w) + Plenty(cat, list, w)
  {
    assert list == list[..end] + list[end..];
    CountSplits(cat, rest, list[end..], w);
    CountSplits(cat, list[..end], list[end..], w);
  }

  lemma PlentyGrows(cat: Catalogue, list: seq<Stack>, j: nat, k: nat, ware: nat)
    requires j <= k <= |list|
    ensures Plenty(cat, list[..j], ware) <= Plenty(cat, list[..k], ware)
  {
    assert list[..k] == list[..j] + list[j..k];
    CountSplits(cat, list[..j], list[j..k], ware);
  }

  // Stacks of at most 100, or single things, are created and put into the inbox.
  method CreateGoods(cat: Catalogue, list: seq<Stack>, ware: nat, amount: nat) returns (more: seq<Stack>)
    requires Tidy(cat, list) && cat.wareOf(ware) == ware
    ensures Tidy(cat, more) && |more| >= |list| && more[|more| - |list|..] == list
    ensures forall s <- more[..|more| - |list|] :: s.id == ware && s.plain && 1 <= s.count <= 100
    ensures forall w :: CountOf(cat, more, w) == CountOf(cat, list, w) + if w == ware then amount else 0
  {
    more := list;
    var tmpAmount := amount;
    while tmpAmount > 0
      invariant 0 <= tmpAmount <= amount && Tidy(cat, more) && |more| >= |list| && more[|more| - |list|..] == list
      invariant forall s <- more[..|more| - |list|] :: s.id == ware && s.plain && 1 <= s.count <= 100
      invariant forall w :: CountOf(cat, more, w) == CountOf(cat, list, w) + if w == ware then amount - tmpAmount else 0
    {
      var stackCount := if !cat.stackable(ware) then 1 else if tmpAmount < 100 then tmpAmount else 100;
      more := [Stack(ware, stackCount, true)] + more;
      tmpAmount := tmpAmount - stackCount;
    }
  }

  // ---------- whose gold and goods ----------

  // Sums are over all players, or over one.
  datatype Scope = Everyone | Only(player: nat)

  function Share(scope: Scope, player: nat, n: nat): nat {
    if scope.Everyone? || scope.player == player then n else 0
  }

  lemma Shares(player: nat, m: nat, n: nat)
    ensures forall scope :: Share(scope, player, m + n) == Share(scope, player, m) + Share(scope, player, n)
    ensures Share(Everyone, player, m) == m && forall scope :: Share(scope, player, 0) == 0
  {}

  // The price of an open buy offer has been paid.
  function Held(o: Offer): nat {
    if o.sell then 0 else o.price * o.amount
  }

  // The goods of an open sell offer have been handed in.
  function OnSale(o: Offer, ware: nat): nat {
    if o.sell && o.ware == ware then o.amount else 0
  }

  function BalanceBy(balances: map<nat, nat>, scope: Scope): map<nat, nat> {
    map p | p in balances :: Share(scope, p, balances[p])
  }

  function HeldBy(offers: map<nat, Offer>, scope: Scope): map<nat, nat> {
    map id | id in offers :: Share(scope, offers[id].player, Held(offers[id]))
  }

  function SaleBy(offers: map<nat, Offer>, scope: Scope, ware: nat): map<nat, nat> {
    map id | id in offers :: Share(scope, offers[id].player, OnSale(offers[id], ware))
  }

  function CountBy(cat: Catalogue, goods: map<nat, seq<Stack>>, scope: Scope, ware: nat): map<nat, nat> {
    map p | p in goods :: Share(scope, p, CountOf(cat, goods[p], ware))
  }

  ghost function Bank(balances: map<nat, nat>, scope: Scope): nat {
    Sum(BalanceBy(balances, scope))
  }

  ghost function Escrow(offers: map<nat, Offer>, scope: Scope): nat {
    Sum(HeldBy(offers, scope))
  }

  ghost function Stock(offers: map<nat, Offer>, scope: Scope, ware: nat): nat {
    Sum(SaleBy(offers, scope, ware))
  }

  ghost function Owned(cat: Catalogue, goods: map<nat, seq<Stack>>, scope: Scope, ware: nat): nat {
    Sum(CountBy(cat, goods, scope, ware))
  }

  lemma BalanceSet(balances: map<nat, nat>, p: nat, balance: nat, scope: Scope)
    requires p in balances
    ensures Bank(balances[p := balance], scope) == Bank(balances, scope) - Share(scope, p, balances[p]) + Share(scope, p, balance)
  {
    hide Share, Sum;
    var after := balances[p := balance];
    assert BalanceBy(after, scope) == BalanceBy(balances, scope)[p := Share(scope, p, balance)];
    SumSet(BalanceBy(balances, scope), p, Share(scope, p, balance));
  }

  // An offer's share in what is held and on sale
  function HeldIn(offers: map<nat, Offer>, id: nat, scope: Scope): nat {
    if id in offers then Share(scope, offers[id].player, Held(offers[id])) else 0
  }

  function SaleIn(offers: map<nat, Offer>, id: nat, scope: Scope, ware: nat): nat {
    if id in offers then Share(scope, offers[id].player, OnSale(offers[id], ware)) else 0
  }

  lemma OfferSet(offers: map<nat, Offer>, id: nat, o: Offer, scope: Scope, ware: nat)
    ensures var after := offers[id := o];
      && Escrow(after, scope) == Escrow(offers, scope) - HeldIn(offers, id, scope) + HeldIn(after, id, scope)
      && Stock(after, scope, ware) == Stock(offers, scope, ware) - SaleIn(offers, id, scope, ware) + SaleIn(after, id, scope, ware)
  {
    hide Held, OnSale, Sum, Share;
    var after := offers[id := o];
    assert HeldBy(after, scope) == HeldBy(offers, scope)[id := HeldIn(after, id, scope)];
    assert SaleBy(after, scope, ware) == SaleBy(offers, scope, ware)[id := SaleIn(after, id, scope, ware)];
    SumSet(HeldBy(offers, scope), id, HeldIn(after, id, scope));
    SumSet(SaleBy(offers, scope, ware), id, SaleIn(after, id, scope, ware));
  }

  lemma OfferDrop(offers: map<nat, Offer>, id: nat, scope: Scope, ware: nat)
    ensures Escrow(offers - {id}, scope) == Escrow(offers, scope) - HeldIn(offers, id, scope)
    ensures Stock(offers - {id}, scope, ware) == Stock(offers, scope, ware) - SaleIn(offers, id, scope, ware)
  {
    hide Held, OnSale, Sum, Share;
    var after := offers - {id};
    assert HeldBy(after, scope) == HeldBy(offers, scope) - {id};
    assert SaleBy(after, scope, ware) == SaleBy(offers, scope, ware) - {id};
    SumDrop(HeldBy(offers, scope), id);
    SumDrop(SaleBy(offers, scope, ware), id);
  }

  lemma GoodsSet(cat: Catalogue, goods: map<nat, seq<Stack>>, p: nat, list: seq<Stack>, scope: Scope, ware: nat)
    requires p in goods
    ensures Owned(cat, goods[p := list], scope, ware)
      == Owned(cat, goods, scope, ware) - Share(scope, p, CountOf(cat, goods[p], ware)) + Share(scope, p, CountOf(cat, list, ware))
  {
    hide CountOf, Sum, Share;
    var after := goods[p := list];
    assert CountBy(cat, after, scope, ware) == CountBy(cat, goods, scope, ware)[p := Share(scope, p, CountOf(cat, list, ware))];
    SumSet(CountBy(cat, goods, scope, ware), p, Share(scope, p, CountOf(cat, list, ware)));
  }

  // A sum to which one key alone contributes
  lemma {:induction false} SumAlone(m: map<nat, nat>, p: nat)
    requires forall q <- m :: q != p ==> m[q] == 0
    ensures Sum(m) == At(m, p)
    decreases |m|
  {
    if m != map[] {
      var k :| k in m && Sum(m) == m[k] + Sum(m - {k});
      SumAlone(m - {k}, p);
    }
  }

  // What one player has in the bank and in goods is what his account and his boxes say.
  lemma OnlyOnes(cat: Catalogue, balances: map<nat, nat>, goods: map<nat, seq<Stack>>, p: nat, ware: nat)
    requires p in balances && p in goods
    ensures Bank(balances, Only(p)) == balances[p] && Owned(cat, goods, Only(p), ware) == CountOf(cat, goods[p], ware)
  {
    SumAlone(BalanceBy(balances, Only(p)), p);
    SumAlone(CountBy(cat, goods, Only(p), ware), p);
  }

  // One per cent of the price, at least 20 and at most 1000
  function Fee(price: nat, amount: nat): (fee: nat)
    ensures price * amount < 2100 ==> fee == 20
    ensures 2000 <= price * amount < 100100 ==> 100 * fee <= price * amount < 100 * fee + 100
    ensures price * amount >= 100000 ==> fee == 1000
  {
    var fee := price * amount / 100;
    if fee < 20 then 20 else if fee > 1000 then 1000 else fee
  }

  // An offer is smaller by `amount`, and gone when nothing is left of it.
  function Shrunk(offers: map<nat, Offer>, id: nat, amount: nat): map<nat, Offer>
    requires id in offers && amount <= offers[id].amount
  {
    var o := offers[id];
    if amount == o.amount then offers - {id} else offers[id := o.(amount := o.amount - amount)]
  }

  // `gold` goes from one balance to another, perhaps the same.
  function Paid(balances: map<nat, nat>, payer: nat, payee: nat, gold: nat): map<nat, nat>
    requires payer in balances && payee in balances && gold <= balances[payer]
  {
    var b := balances[payer := balances[payer] - gold];
    b[payee := b[payee] + gold]
  }

  // What accepting `amount` of an offer leaves: the offer is smaller by it, or gone, and the seller has the gold. It
  // comes from the buyer, who has paid a buy offer before.
  ghost predicate Settled(player: nat, id: nat, amount: nat, balances: map<nat, nat>, offers: map<nat, Offer>,
                          balances': map<nat, nat>, offers': map<nat, Offer>)
    requires id in offers
  {
    var o := offers[id];
    var gold, seller := o.price * amount, if o.sell then o.player else player;
    && 0 < amount <= o.amount && player in balances && balances'.Keys == balances.Keys
    && offers'.Keys == offers.Keys - (if amount == o.amount then {id} else {})
    && (forall i <- offers' :: offers'[i] == if i == id then o.(amount := o.amount - amount) else offers[i])
    && (forall p <- balances :: balances'[p] ==
          balances[p] + (if p == seller then gold else 0) - if o.sell && p == player then gold else 0)
  }

  lemma SettledIs(player: nat, id: nat, amount: nat, balances: map<nat, nat>, offers: map<nat, Offer>)
    requires id in offers && 0 < amount <= offers[id].amount && player in balances && offers[id].player in balances
    requires offers[id].sell ==> offers[id].price * amount <= balances[player]
    ensures var o := offers[id];
      Settled(player, id, amount, balances, offers,
        if o.sell then Paid(balances, player, o.player, o.price * amount)
        else balances[player := balances[player] + o.price * amount], Shrunk(offers, id, amount))
  {
  }

  // Nobody else's goods are touched.
  ghost predicate OnlyGoodsOf(goods: map<nat, seq<Stack>>, before: map<nat, seq<Stack>>, players: set<nat>) {
    goods.Keys == before.Keys && forall p <- goods :: p !in players ==> goods[p] == before[p]
  }

  class Market {
    const cat: Catalogue
    const duration: nat           // how long an offer stands
    var balances: map<nat, nat>   // bank balances
    var goods: map<nat, seq<Stack>>
    var offers: map<nat, Offer>
    var nextId: nat
    ghost var fees: nat           // collected so far

    ghost predicate Valid()
      reads this`balances, this`goods, this`offers, this`nextId
    {
      && balances.Keys == goods.Keys && nextId > 0
      && (forall p <- goods :: Tidy(cat, goods[p]))
      && (forall id <- offers :: Standing(id, offers[id]))
    }

    // An open offer belongs to a player and is about something.
    ghost predicate Standing(id: nat, o: Offer)
      reads this`balances, this`nextId
    {
      0 < id < nextId && o.player in balances && 1 <= o.amount <= MAX_AMOUNT && 1 <= o.price <= MAX_PRICE
      && cat.wareOf(o.ware) == o.ware
    }

    constructor (cat: Catalogue, duration: nat, balances: map<nat, nat>, goods: map<nat, seq<Stack>>)
      requires balances.Keys == goods.Keys && forall p <- goods :: Tidy(cat, goods[p])
      ensures Valid() && offers == map[] && this.balances == balances && this.goods == goods && fees == 0
    {
      this.cat, this.duration, this.balances, this.goods := cat, duration, balances, goods;
      offers, nextId, fees := map[], 1, 0;
    }

    // The gold of some players: in the bank, and paid for open buy offers
    ghost function Gold(scope: Scope): nat
      reads this`balances, this`offers
    {
      Bank(balances, scope) + Escrow(offers, scope)
    }

    // Their units of a ware: what they own and what they have on sale
    ghost function Units(scope: Scope, ware: nat): nat
      reads this`goods, this`offers
    {
      Owned(cat, goods, scope, ware) + Stock(offers, scope, ware)
    }

    // Nothing has appeared, nothing has vanished.
    twostate predicate Conserved()
      reads this
    {
      Gold(Everyone) + fees == old(Gold(Everyone) + fees) && forall w :: Units(Everyone, w) == old(Units(Everyone, w))
    }

    // Nobody has become richer or poorer.
    twostate predicate Untouched()
      reads this
    {
      (forall s :: Gold(s) == old(Gold(s))) && (forall s, w :: Units(s, w) == old(Units(s, w)))
    }

    // One player has paid a fee.
    twostate predicate Charged(player: nat, fee: nat)
      reads this
    {
      && (forall s :: Gold(s) == old(Gold(s)) - Share(s, player, fee))
      && (forall s, w :: Units(s, w) == old(Units(s, w)))
    }

    // One player has got gold for goods from another, who may be the same.
    twostate predicate Exchanged(seller: nat, buyer: nat, gold: nat, ware: nat, amount: nat)
      reads this
    {
      && (forall s :: Gold(s) == old(Gold(s)) + Share(s, seller, gold) - Share(s, buyer, gold))
      && (forall s, w :: Units(s, w) ==
            old(Units(s, w)) + if w == ware then Share(s, buyer, amount) - Share(s, seller, amount) else 0)
    }

    method SetBalance(player: nat, balance: nat)
      requires Valid() && player in balances
      modifies this`balances
      ensures Valid() && balances == old(balances)[player := balance]
      ensures forall s :: Bank(balances, s) == old(Bank(balances, s)) - Share(s, player, old(balances[player])) + Share(s, player, balance)
    {
      forall s ensures Bank(balances[player := balance], s) ==
        Bank(balances, s) - Share(s, player, balances[player]) + Share(s, player, balance)
      {
        BalanceSet(balances, player, balance, s);
      }
      balances := balances[player := balance];
    }

    method SetGoods(player: nat, list: seq<Stack>)
      requires Valid() && player in goods && Tidy(cat, list)
      modifies this`goods
      ensures Valid() && goods == old(goods)[player := list]
      ensures forall s, w ::
        Owned(cat, goods, s, w) == old(Owned(cat, goods, s, w))
          - Share(s, player, CountOf(cat, old(goods[player]), w)) + Share(s, player, CountOf(cat, list, w))
    {
      forall s, w ensures Owned(cat, goods[player := list], s, w) ==
        Owned(cat, goods, s, w) - Share(s, player, CountOf(cat, goods[player], w)) + Share(s, player, CountOf(cat, list, w))
      {
        GoodsSet(cat, goods, player, list, s, w);
      }
      goods := goods[player := list];
    }

    method SetOffer(id: nat, o: Offer)
      requires Valid() && Standing(id, o)
      modifies this`offers
      ensures Valid() && offers == old(offers)[id := o]
      ensures forall s :: Escrow(offers, s) == old(Escrow(offers, s)) - HeldIn(old(offers), id, s) + HeldIn(offers, id, s)
      ensures forall s, w ::
        Stock(offers, s, w) == old(Stock(offers, s, w)) - SaleIn(old(offers), id, s, w) + SaleIn(offers, id, s, w)
    {
      ghost var before := offers;
      offers := offers[id := o];
      forall s ensures Escrow(offers, s) == Escrow(before, s) - HeldIn(before, id, s) + HeldIn(offers, id, s) {
        OfferSet(before, id, o, s, 0);
      }
      forall s, w ensures Stock(offers, s, w) == Stock(before, s, w) - SaleIn(before, id, s, w) + SaleIn(offers, id, s, w) {
        OfferSet(before, id, o, s, w);
      }
    }

    method DeleteOffer(id: nat)
      requires Valid() && id in offers
      modifies this`offers
      ensures Valid() && offers == old(offers) - {id}
      ensures forall s :: Escrow(offers, s) == old(Escrow(offers, s)) - HeldIn(old(offers), id, s)
      ensures forall s, w :: Stock(offers, s, w) == old(Stock(offers, s, w)) - SaleIn(old(offers), id, s, w)
    {
      ghost var before := offers;
      offers := offers - {id};
      forall s ensures Escrow(offers, s) == Escrow(before, s) - HeldIn(before, id, s) {
        OfferDrop(before, id, s, 0);
      }
      forall s, w ensures Stock(offers, s, w) == Stock(before, s, w) - SaleIn(before, id, s, w) {
        OfferDrop(before, id, s, w);
      }
    }

    // playerCreateMarketOffer: a buyer pays the price and the fee, a seller hands in the goods and pays the fee. The
    // offer is created if and only if it is sane and the player has not too many, and can pay and deliver.
    method CreateOffer(player: nat, sell: bool, ware: nat, amount: nat, price: nat, maxOffers: int, now: int)
      returns (created: bool, ghost fee: nat)
      requires Valid()
      modifies this
      ensures Valid()
      ensures price * amount < 2100 ==> fee == 20
      ensures 2000 <= price * amount < 100100 ==> 100 * fee <= price * amount < 100 * fee + 100
      ensures price * amount >= 100000 ==> fee == 1000
      ensures created == old(
        && 0 < amount <= 64000 && 0 < price <= 999999999 && player in balances && player in goods
        && cat.wareOf(ware) == ware && (cat.stackable(ware) || amount <= 2000)
        && (maxOffers > 0 ==> |set id | id in offers && offers[id].player == player| < maxOffers)
        && (sell ==> fee <= balances[player] && Plenty(cat, goods[player], ware) >= amount)
        && (!sell ==> price * amount + fee <= balances[player]))
      ensures !created ==> unchanged(this)
      ensures Conserved() && (created ==> Charged(player, fee))
      ensures created ==>
        && offers == old(offers)[old(nextId) := Offer(player, sell, ware, amount, price, now)]
        && old(nextId) !in old(offers) && fees == old(fees) + fee
        && OnlyGoodsOf(goods, old(goods), {player}) && OthersKept(cat, old(goods[player]), goods[player], ware)
        && balances == old(balances)[player := old(balances[player]) - fee - if sell then 0 else price * amount]
    {
      hide Fee, Gold, Units, Plenty, Tidy, OnlyGoodsOf, OthersKept, Share;
      var cost := Fee(price, amount);
      created, fee := false, cost;
      if amount == 0 || amount > MAX_AMOUNT {
        return;
      }
      if price == 0 || price > MAX_PRICE {
        return;
      }
      if player !in balances {
        return;
      }
      if cat.wareOf(ware) != ware {
        return;
      }
      if !cat.stackable(ware) && amount > 2000 {
        return;
      }
      if maxOffers > 0 {
        var offerCount := |set id | id in offers && offers[id].player == player|;
        if offerCount >= maxOffers {
          return;
        }
      }
      created := PayAndInsert(Offer(player, sell, ware, amount, price, now), cost);
    }

    method PayAndInsert(o: Offer, fee: nat) returns (paid: bool)
      requires Valid() && o.player in balances && 1 <= o.amount <= MAX_AMOUNT && 1 <= o.price <= MAX_PRICE
      requires cat.wareOf(o.ware) == o.ware
      modifies this
      ensures Valid() && Conserved() && paid == old(CanPay(o.player, o.sell, o.ware, o.amount, o.price, fee))
      ensures !paid ==> unchanged(this)
      ensures !o.sell ==> goods == old(goods)
      ensures OnlyGoodsOf(goods, old(goods), {o.player}) && OthersKept(cat, old(goods[o.player]), goods[o.player], o.ware)
      ensures paid ==>
        && Charged(o.player, fee) && fees == old(fees) + fee
        && offers == old(offers)[old(nextId) := o] && old(nextId) !in old(offers)
        && balances == old(balances)[o.player := old(balances[o.player]) - fee - if o.sell then 0 else o.price * o.amount]
    {
      hide Bank, Escrow, Stock, Owned, CountOf, Plenty, Tidy, OnlyGoodsOf, OthersKept, Share;
      Shares(o.player, fee, if o.sell then 0 else o.price * o.amount);
      paid := Pay(o.player, o.sell, o.ware, o.amount, o.price, fee);
      if paid {
        fees := fees + fee;
        Insert(o);
      }
    }

    // IOMarket::createOffer: the offer gets a new number.
    method Insert(o: Offer)
      requires Valid() && o.player in balances && 1 <= o.amount <= MAX_AMOUNT && 1 <= o.price <= MAX_PRICE
      requires cat.wareOf(o.ware) == o.ware
      modifies this`offers, this`nextId
      ensures Valid() && offers == old(offers)[old(nextId) := o] && old(nextId) !in old(offers)
      ensures forall s :: Escrow(offers, s) == old(Escrow(offers, s)) + Share(s, o.player, Held(o))
      ensures forall s, w :: Stock(offers, s, w) == old(Stock(offers, s, w)) + Share(s, o.player, OnSale(o, w))
    {
      hide Escrow, Stock, Held, OnSale, Tidy, Share;
      var id := nextId;
      nextId := nextId + 1;
      SetOffer(id, o);
    }

    // If the player has `amount` units, they are taken.
    method Collect(player: nat, ware: nat, amount: nat) returns (enough: bool)
      requires Valid() && player in goods && amount > 0
      modifies this`goods
      ensures Valid() && enough == old(Plenty(cat, goods[player], ware) >= amount)
      ensures !enough ==> goods == old(goods)
      ensures enough ==> forall s, w ::
        Owned(cat, goods, s, w) == old(Owned(cat, goods, s, w)) - if w == ware then Share(s, player, amount) else 0
      ensures OnlyGoodsOf(goods, old(goods), {player}) && OthersKept(cat, old(goods[player]), goods[player], ware)
    {
      hide Owned, CountOf, Plenty, Tidy;
      var end;
      enough, end := FindGoods(cat, goods[player], ware, amount);
      if !enough {
        return;
      }
      var rest := TakeGoods(cat, goods[player], ware, amount, end);
      SetGoods(player, rest);
    }

    lemma NobodysGoods(player: nat, ware: nat)
      requires player in goods
      ensures OnlyGoodsOf(goods, goods, {player}) && OthersKept(cat, goods[player], goods[player], ware)
    {
    }

    // A seller hands in the goods, a buyer pays the price; both pay the fee.
    method Pay(player: nat, sell: bool, ware: nat, amount: nat, price: nat, fee: nat) returns (paid: bool)
      requires Valid() && player in balances && player in goods && amount > 0
      modifies this`balances, this`goods
      ensures Valid() && paid == old(CanPay(player, sell, ware, amount, price, fee))
      ensures !paid || !sell ==> goods == old(goods)
      ensures !paid ==> balances == old(balances)
      ensures OnlyGoodsOf(goods, old(goods), {player}) && OthersKept(cat, old(goods[player]), goods[player], ware)
      ensures paid ==>
        && balances == old(balances)[player := old(balances[player]) - fee - if sell then 0 else price * amount]
        && (forall s :: Bank(balances, s) + Share(s, player, fee + if sell then 0 else price * amount) == old(Bank(balances, s)))
        && forall s, w ::
             Owned(cat, goods, s, w) == old(Owned(cat, goods, s, w)) - if sell && w == ware then Share(s, player, amount) else 0
    {
      hide Bank, Owned, CountOf, Plenty, Tidy, OnlyGoodsOf, OthersKept;
      NobodysGoods(player, ware);
      if sell {
        if fee > balances[player] {
          return false;
        }
        var enough := Collect(player, ware, amount);
        if !enough {
          return false;
        }
        SetBalance(player, balances[player] - fee);
      } else {
        var totalPrice := price * amount;
        totalPrice := totalPrice + fee;
        if totalPrice > balances[player] {
          return false;
        }
        SetBalance(player, balances[player] - totalPrice);
      }
      return true;
    }

    ghost predicate CanPay(player: nat, sell: bool, ware: nat, amount: nat, price: nat, fee: nat)
      requires player in balances && player in goods
      reads this
    {
      if sell then fee <= balances[player] && Plenty(cat, goods[player], ware) >= amount
      else price * amount + fee <= balances[player]
    }

    // getOfferByCounter: an offer with that time and that number in its last 16 bits; 0 when there is none
    method GetOfferByCounter(timestamp: int, counter: nat) returns (id: nat)
      requires Valid()
      ensures id != 0 ==> id in offers && offers[id].created == timestamp - duration && id % 65536 == counter
      ensures id != 0 ==> Matches(id, timestamp, counter)
      ensures id == 0 ==> forall i <- offers :: !Matches(i, timestamp, counter)
    {
      var left := offers.Keys;
      while left != {}
        invariant left <= offers.Keys && forall i <- offers :: Matches(i, timestamp, counter) ==> i in left
        decreases left
      {
        var i :| i in left;
        if offers[i].created == timestamp - duration && i % 0x10000 == counter {
          return i;
        }
        left := left - {i};
      }
      return 0;
    }

    predicate Matches(id: nat, timestamp: int, counter: nat)
      requires id in offers
      reads this
    {
      offers[id].created == timestamp - duration && id % 0x10000 == counter
    }

    // Goods are created in the player's inbox.
    method Hand(player: nat, ware: nat, amount: nat)
      requires Valid() && player in goods && cat.wareOf(ware) == ware
      modifies this`goods
      ensures Valid()
      ensures forall s, w ::
        Owned(cat, goods, s, w) == old(Owned(cat, goods, s, w)) + if w == ware then Share(s, player, amount) else 0
      ensures OnlyGoodsOf(goods, old(goods), {player})
      ensures exists more :: goods[player] == more + old(goods[player]) && forall s <- more :: s.id == ware && s.plain
    {
      hide Owned, CountOf, Tidy;
      var more := CreateGoods(cat, goods[player], ware, amount);
      assert more == more[..|more| - |goods[player]|] + goods[player];
      SetGoods(player, more);
    }

    // What has been paid for an offer goes back to the player: gold to the bank, goods to the inbox.
    method Refund(id: nat)
      requires Valid() && id in offers
      modifies this`balances, this`goods, this`offers
      ensures Valid() && Untouched() && offers == old(offers) - {id}
      ensures var o := old(offers[id]);
        && balances == (if o.sell then old(balances) else old(balances)[o.player := old(balances[o.player]) + o.price * o.amount])
        && (!o.sell ==> goods == old(goods)) && OnlyGoodsOf(goods, old(goods), {o.player})
    {
      hide Bank, Escrow, Stock, Owned, CountOf, Tidy;
      var offer := offers[id];
      if !offer.sell {
        SetBalance(offer.player, balances[offer.player] + offer.price * offer.amount);
      } else {
        Hand(offer.player, offer.ware, offer.amount);
      }
      DeleteOffer(id);
    }

    // playerCancelMarketOffer
    method CancelOffer(player: nat, timestamp: int, counter: nat) returns (ghost cancelled: nat)
      requires Valid()
      modifies this`balances, this`goods, this`offers
      ensures Valid() && Conserved() && Untouched()
      ensures cancelled == 0 ==> unchanged(this)
      ensures cancelled == 0 ==> old(
        || (forall i <- offers :: !Matches(i, timestamp, counter))
        || (exists i <- offers :: Matches(i, timestamp, counter) && offers[i].player != player))
      ensures cancelled != 0 ==>
        && cancelled in old(offers) && old(offers[cancelled].player) == player && offers == old(offers) - {cancelled}
        && old(Matches(cancelled, timestamp, counter)) && OnlyGoodsOf(goods, old(goods), {player})
    {
      hide Gold, Units;
      var id := GetOfferByCounter(timestamp, counter);
      if id == 0 || offers[id].player != player {
        return 0;
      }
      Refund(id);
      return id;
    }

    // playerAcceptMarketOffer: goods against gold, for part of an offer or all of it
    method AcceptOffer(player: nat, timestamp: int, counter: nat, amount: nat) returns (ghost accepted: nat)
      requires Valid()
      modifies this`balances, this`goods, this`offers
      ensures Valid() && Conserved()
      ensures accepted == 0 ==> unchanged(this)
      ensures accepted == 0 ==> old(
        || (forall i <- offers :: !Matches(i, timestamp, counter))
        || amount == 0 || player !in balances
        || exists i <- offers :: Matches(i, timestamp, counter) && (
             || amount > offers[i].amount
             || (offers[i].sell && offers[i].price * amount > balances[player])
             || (!offers[i].sell && Plenty(cat, goods[player], offers[i].ware) < amount)))
      ensures accepted != 0 ==> accepted in old(offers) && old(Matches(accepted, timestamp, counter))
      ensures accepted != 0 ==>
        && Settled(player, accepted, amount, old(balances), old(offers), balances, offers)
        && Traded(player, accepted, amount)
        && OnlyGoodsOf(goods, old(goods), {player, old(offers[accepted].player)})
      ensures accepted != 0 && old(offers[accepted].sell) ==> old(offers[accepted].price * amount <= balances[player])
      ensures accepted != 0 && old(!offers[accepted].sell) ==>
        old(Plenty(cat, goods[player], offers[accepted].ware) >= amount)
    {
      hide Gold, Units, Plenty, Tidy, Share, Settled, OnlyGoodsOf;
      if amount == 0 || amount > MAX_AMOUNT {
        return 0;
      }
      if player !in balances {
        return 0;
      }
      var id := GetOfferByCounter(timestamp, counter);
      if id == 0 {
        return 0;
      }
      if amount > offers[id].amount {
        return 0;
      }
      var done;
      if offers[id].sell {
        done := BuyFrom(player, id, amount);
      } else {
        done := SellTo(player, id, amount);
      }
      return if done then id else 0;
    }

    // The offer is big enough, and the player can deliver, or pay.
    ghost predicate MayAccept(player: nat, id: nat, amount: nat)
      requires id in offers
      reads this
    {
      && 0 < amount <= offers[id].amount && player in balances && player in goods
      && if offers[id].sell then offers[id].price * amount <= balances[player]
         else Plenty(cat, goods[player], offers[id].ware) >= amount
    }

    // Gold has gone one way and goods the other.
    twostate predicate Traded(player: nat, id: nat, amount: nat)
      requires id in old(offers) && old(offers[id]).player in old(balances)
      reads this
    {
      var o := old(offers[id]);
      if o.sell then Exchanged(o.player, player, o.price * amount, o.ware, amount)
      else Exchanged(player, o.player, o.price * amount, o.ware, amount)
    }

    // The offer shrinks, or goes when nothing is left.
    method Shrink(id: nat, amount: nat)
      requires Valid() && id in offers && 0 < amount <= offers[id].amount
      modifies this`offers
      ensures Valid() && offers == Shrunk(old(offers), id, amount)
      ensures var o := old(offers[id]);
        && (forall s :: Escrow(offers, s) == old(Escrow(offers, s)) - Share(s, o.player, if o.sell then 0 else o.price * amount))
        && forall s, w ::
             Stock(offers, s, w) == old(Stock(offers, s, w)) - Share(s, o.player, if o.sell && o.ware == w then amount else 0)
    {
      hide Escrow, Stock, Tidy;
      var offer := offers[id];
      if offer.amount - amount == 0 {
        DeleteOffer(id);
      } else {
        SetOffer(id, offer.(amount := offer.amount - amount));
        assert offer.price * offer.amount == offer.price * (offer.amount - amount) + offer.price * amount;
      }
    }

    // Goods are taken from one player, and created for another.
    method Deliver(from: nat, to: nat, ware: nat, amount: nat) returns (enough: bool)
      requires Valid() && from in goods && to in goods && amount > 0 && cat.wareOf(ware) == ware
      modifies this`goods
      ensures Valid() && enough == old(Plenty(cat, goods[from], ware) >= amount)
      ensures !enough ==> goods == old(goods)
      ensures enough ==> forall s, w ::
        Owned(cat, goods, s, w) == old(Owned(cat, goods, s, w)) + if w == ware then Share(s, to, amount) - Share(s, from, amount) else 0
      ensures OnlyGoodsOf(goods, old(goods), {from, to})
    {
      hide Owned, CountOf, Plenty, Tidy, Share, OthersKept;
      enough := Collect(from, ware, amount);
      if enough {
        Hand(to, ware, amount);
      }
    }

    // The player sells to a buy offer.
    method SellTo(player: nat, id: nat, amount: nat) returns (done: bool)
      requires Valid() && player in balances && id in offers && !offers[id].sell && 0 < amount <= offers[id].amount
      modifies this`balances, this`goods, this`offers
      ensures Valid() && done == old(MayAccept(player, id, amount))
      ensures done ==> Settled(player, id, amount, old(balances), old(offers), balances, offers)
      ensures done ==> Traded(player, id, amount) && Conserved()
      ensures done ==> OnlyGoodsOf(goods, old(goods), {player, old(offers[id].player)})
      ensures !done ==> unchanged(this)
    {
      hide Bank, Escrow, Stock, Owned, CountOf, Plenty, Shrunk, Paid, Settled, Tidy, OnlyGoodsOf;
      SettledIs(player, id, amount, balances, offers);
      var offer := offers[id];
      var enough := Deliver(player, offer.player, offer.ware, amount);
      if !enough {
        return false;
      }
      SetBalance(player, balances[player] + offer.price * amount);
      Shrink(id, amount);
      return true;
    }

    // Gold goes from one account to another.
    method PayTo(payer: nat, payee: nat, gold: nat)
      requires Valid() && payer in balances && payee in balances && gold <= balances[payer]
      modifies this`balances
      ensures Valid() && balances == Paid(old(balances), payer, payee, gold)
      ensures forall s :: Bank(balances, s) == old(Bank(balances, s)) + Share(s, payee, gold) - Share(s, payer, gold)
    {
      hide Bank, Tidy;
      SetBalance(payer, balances[payer] - gold);
      SetBalance(payee, balances[payee] + gold);
    }

    // The player buys from a sell offer.
    method BuyFrom(player: nat, id: nat, amount: nat) returns (done: bool)
      requires Valid() && player in balances && id in offers && offers[id].sell && 0 < amount <= offers[id].amount
      modifies this`balances, this`goods, this`offers
      ensures Valid() && done == old(MayAccept(player, id, amount))
      ensures done ==> Settled(player, id, amount, old(balances), old(offers), balances, offers)
      ensures done ==> Traded(player, id, amount) && Conserved()
      ensures done ==> OnlyGoodsOf(goods, old(goods), {player, old(offers[id].player)})
      ensures !done ==> unchanged(this)
    {
      hide Bank, Escrow, Stock, Owned, CountOf, Plenty, Tidy, Shrunk, Paid, Settled;
      var offer := offers[id];
      var totalPrice := offer.price * amount;
      if totalPrice > balances[player] {
        return false;
      }
      SettledIs(player, id, amount, balances, offers);
      PayTo(player, offer.player, totalPrice);
      Hand(player, offer.ware, amount);
      Shrink(id, amount);
      return true;
    }

    // checkExpiredMarketOffers: what is older than an offer may stand goes back, first to the buyers, then to the sellers.
    method CheckExpired(now: int)
      requires Valid()
      modifies this`balances, this`goods, this`offers
      ensures Valid() && Conserved() && Untouched()
      ensures forall id <- old(offers) :: id in offers <==> old(offers[id].created) > now - duration
      ensures forall id <- offers :: id in old(offers) && offers[id] == old(offers[id])
    {
      hide Gold, Units;
      Expire(false, now);
      Expire(true, now);
    }

    method Expire(sell: bool, now: int)
      requires Valid()
      modifies this`balances, this`goods, this`offers
      ensures Valid() && Untouched()
      ensures forall id <- old(offers) ::
        id in offers <==> !(old(offers[id].sell) == sell && old(offers[id].created) <= now - duration)
      ensures forall id <- offers :: id in old(offers) && offers[id] == old(offers[id])
    {
      hide Gold, Units;
      var expired := set id | id in offers && offers[id].sell == sell && offers[id].created <= now - duration;
      while expired != {}
        invariant Valid() && Untouched() && expired <= offers.Keys
        invariant forall id <- offers :: id in old(offers) && offers[id] == old(offers[id])
        invariant forall id <- old(offers) ::
          id in offers && id !in expired <==> !(old(offers[id].sell) == sell && old(offers[id].created) <= now - duration)
        decreases expired
      {
        var id :| id in expired;
        Refund(id);
        expired := expired - {id};
      }
    }

    // Whatever is asked for, in whatever order, gold and goods are conserved.
    method Run(requests: seq<Request>)
      requires Valid()
      modifies this
      ensures Valid() && Conserved()
    {
      hide Gold, Units, Plenty, Valid, MayAccept, Matches;
      var i := 0;
      while i < |requests|
        invariant 0 <= i <= |requests| && Valid() && Conserved()
      {
        match requests[i] {
          case Create(player, sell, ware, amount, price, maxOffers, now) =>
            ghost var created, fee := CreateOffer(player, sell, ware, amount, price, maxOffers, now);
          case Cancel(player, timestamp, counter) =>
            ghost var cancelled := CancelOffer(player, timestamp, counter);
          case Accept(player, timestamp, counter, amount) =>
            ghost var accepted := AcceptOffer(player, timestamp, counter, amount);
          case Expire(now) =>
            CheckExpired(now);
        }
        i := i + 1;
      }
    }
  }
}
