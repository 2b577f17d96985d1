/** Trading between players: a protocol of offers and acceptances in which goods change hands only when both sides
    have offered something and both have accepted.

    `After` and `Given` say what each request makes of the players' states and which goods it hands over, and the
    methods of `Game` are proved to do that. `HandedRightly` is the safety of whole runs. The two moves at the end of a
    trade are not all or nothing: `BothMove` says exactly when both happen, and `OneSided` shows the other case. */
module Trade {
  import opened ItemWorld

  datatype TradeState = TRADE_NONE | TRADE_INITIATED | TRADE_ACCEPT | TRADE_ACKNOWLEDGE | TRADE_TRANSFER

  class Player {
    var tradeState: TradeState
    var tradePartner: Player?
    var tradeItem: Item?

    constructor ()
      ensures tradeState == TRADE_NONE && tradePartner == null && tradeItem == null
    {
      tradeState, tradePartner, tradeItem := TRADE_NONE, null, null;
    }
  }

  // What the inventories answer when goods are to change hands: whether each side can take the other's item, whether
  // each item may be taken away, and whether each of the two moves succeeds.
  datatype Answers = Answers(add1: bool, add2: bool, remove1: bool, remove2: bool, move1: bool, move2: bool)

  // Goods that changed hands
  datatype Handover = Handover(item: Item, from: Player, to: Player)

  datatype Side = Side(state: TradeState, partner: Player?, item: Item?)

  // The item and what is in it
  const MAX_TRADED := 100

  // What players, or the server on their behalf, ask for. An offer comes with what holds what at that time, and how
  // much the item holds.
  datatype Request =
    | Offer(player: Player, tradePartner: Player, item: Item, holdingCount: nat, isHoldingItem: (Item, Item) -> bool)
    | Accept(player: Player, reachable: bool, answers: Answers)
    | Close(player: Player)

  const NOT_TRADING := Side(TRADE_NONE, null, null)

  // All players' states and the table of traded items
  datatype Moment = Moment(sides: map<Player, Side>, tradeItems: map<Item, Player>)

  // ---------- what requests do ----------

  // The item is not traded, lies in none that is and holds none, and is not too much.
  predicate Tradable(m: Moment, item: Item, holdingCount: nat, isHoldingItem: (Item, Item) -> bool) {
    && holdingCount < MAX_TRADED
    && forall i <- m.tradeItems :: i != item && !isHoldingItem(item, i) && !isHoldingItem(i, item)
  }

  // Neither side trades with somebody else, and `p` has not offered anything yet.
  predicate MayStart(sides: map<Player, Side>, p: Player, q: Player)
    requires p in sides && q in sides
  {
    && (sides[p].state == TRADE_NONE || (sides[p].state == TRADE_ACKNOWLEDGE && sides[p].partner == q))
    && (sides[q].state == TRADE_NONE || sides[q].partner == p)
  }

  function Asked(s: Side, asker: Player): Side {
    if s.state == TRADE_NONE then s.(state := TRADE_ACKNOWLEDGE, partner := asker) else s
  }

  function Started(m: Moment, p: Player, q: Player, item: Item): Moment
    requires q in m.sides
  {
    Moment(m.sides[p := Side(TRADE_INITIATED, q, item)][q := Asked(m.sides[q], p)], m.tradeItems[item := p])
  }

  function Untraded(tradeItems: map<Item, Player>, item: Item?): map<Item, Player> {
    if item == null then tradeItems else tradeItems - {item}
  }

  // Both sides forget the trade.
  function Ended(m: Moment, p: Player, q: Player): Moment
    requires p in m.sides && q in m.sides
  {
    Moment(m.sides[p := NOT_TRADING][q := NOT_TRADING],
           Untraded(Untraded(m.tradeItems, m.sides[p].item), m.sides[q].item))
  }

  // There is something to accept, and somebody in reach to trade with.
  predicate MayAccept(s: Side, reachable: bool) {
    s.state in {TRADE_ACKNOWLEDGE, TRADE_INITIATED} && s.partner != null && reachable
  }

  function After(m: Moment, r: Request): Moment
    requires Known(m.sides, r)
  {
    match r
    case Offer(p, q, item, holdingCount, isHoldingItem) =>
      if p != q && Tradable(m, item, holdingCount, isHoldingItem) && MayStart(m.sides, p, q)
      then Started(m, p, q, item) else m
    case Accept(p, reachable, _) =>
      var q := m.sides[p].partner;
      if !MayAccept(m.sides[p], reachable) || q !in m.sides then m
      else if m.sides[q].state == TRADE_ACCEPT then Ended(m, p, q)
      else m.(sides := m.sides[p := m.sides[p].(state := TRADE_ACCEPT)])
    case Close(p) =>
      var q := m.sides[p].partner;
      if q == null || q !in m.sides then m else Ended(m, p, q)
  }

  predicate Known(sides: map<Player, Side>, r: Request) {
    r.player in sides && (r.Offer? ==> r.tradePartner in sides)
  }

  // The goods that the second acceptance hands over. The answer of the second move is not looked at.
  function Exchange(p: Player, a: Side, q: Player, b: Side, answers: Answers): seq<Handover> {
    if a.item == null || b.item == null then []
    else if !(answers.add1 && answers.add2 && answers.remove1 && answers.remove2 && answers.move1) then []
    else [Handover(a.item, p, q)] + if answers.move2 then [Handover(b.item, q, p)] else []
  }

  function Given(m: Moment, r: Request): seq<Handover>
    requires Known(m.sides, r)
  {
    if !r.Accept? then []
    else
      var q := m.sides[r.player].partner;
      if !MayAccept(m.sides[r.player], r.reachable) || q !in m.sides || m.sides[q].state != TRADE_ACCEPT then []
      else Exchange(r.player, m.sides[r.player], q, m.sides[q], r.answers)
  }

  // Both items move exactly if both sides have offered, all queries agree, and the second move succeeds too.
  lemma BothMove(p: Player, a: Side, q: Player, b: Side, answers: Answers)
    requires a.item != b.item || a.item == null
    ensures var given := Exchange(p, a, q, b, answers);
      && (a.item != null && b.item != null && answers == Answers(true, true, true, true, true, true)
          <==> exists g <- given, h <- given :: g.item == a.item && h.item == b.item)
      && (given != [] && |given| != 2
          <==> a.item != null && b.item != null && answers == Answers(true, true, true, true, true, false))
  {
    var given := Exchange(p, a, q, b, answers);
    if a.item != null && b.item != null && answers == Answers(true, true, true, true, true, true) {
      assert given == [Handover(a.item, p, q), Handover(b.item, q, p)];
      assert given[0] in given && given[1] in given;
    }
  }

  // One item can change hands alone.
  lemma OneSided(p: Player, q: Player, item1: Item, item2: Item)
    requires p != q && item1 != item2
    ensures var m := Moment(map[p := Side(TRADE_INITIATED, q, item1), q := Side(TRADE_ACCEPT, p, item2)],
                            map[item1 := p, item2 := q]);
      && Consistent(m)
      && Given(m, Accept(p, true, Answers(true, true, true, true, true, false))) == [Handover(item1, p, q)]
      && After(m, Accept(p, true, Answers(true, true, true, true, true, false))) ==
           Moment(map[p := NOT_TRADING, q := NOT_TRADING], map[])
  {
    var m := Moment(map[p := Side(TRADE_INITIATED, q, item1), q := Side(TRADE_ACCEPT, p, item2)],
                    map[item1 := p, item2 := q]);
    assert m.sides[p].state == TRADE_INITIATED;
  }

  // ---------- consistency ----------

  // A player's own state: who does not trade has no partner and has offered nothing.
  predicate Proper(s: Side) {
    && (s.state == TRADE_NONE <==> s.partner == null)
    && (s.state == TRADE_NONE || s.state == TRADE_ACKNOWLEDGE ==> s.item == null)
    && (s.state == TRADE_INITIATED ==> s.item != null)
    && s.state != TRADE_TRANSFER
  }

  // The partner's partner is the player; one of them has offered something; at most one has accepted.
  predicate Matched(sides: map<Player, Side>, p: Player, q: Player)
    requires p in sides
  {
    && q in sides && p != q && sides[q].partner == p
    && (sides[p].item != null || sides[q].item != null)
    && !(sides[p].state == TRADE_ACCEPT && sides[q].state == TRADE_ACCEPT)
  }

  // The players' states, their partners and the table of traded items fit together.
  predicate Consistent(m: Moment) {
    && (forall p <- m.sides :: Proper(m.sides[p]))
    && (forall p <- m.sides :: m.sides[p].partner != null ==> Matched(m.sides, p, m.sides[p].partner))
    && (forall p <- m.sides :: m.sides[p].item != null ==>
          m.sides[p].item in m.tradeItems && m.tradeItems[m.sides[p].item] == p)
    && (forall i <- m.tradeItems :: m.tradeItems[i] in m.sides && m.sides[m.tradeItems[i]].item == i)
  }

  lemma ProperSide(m: Moment, p: Player)
    requires Consistent(m) && p in m.sides
    ensures Proper(m.sides[p]) && (m.sides[p].partner != null ==> Matched(m.sides, p, m.sides[p].partner))
  {}

  // Who is free, or was asked by `q`, makes `q` an offer.
  lemma StartConsistent(m: Moment, p: Player, q: Player, item: Item)
    requires Consistent(m) && p in m.sides && q in m.sides && p != q && item !in m.tradeItems
    requires MayStart(m.sides, p, q)
    ensures Consistent(Started(m, p, q, item))
  {
    ProperSide(m, p);
    ProperSide(m, q);
    var after := Started(m, p, q, item).sides;
    forall r <- after | after[r].partner != null ensures Matched(after, r, after[r].partner) {
      if r != p && r != q {
        ProperSide(m, r);
      }
    }
  }

  // The first of the two accepts.
  lemma AcceptConsistent(m: Moment, p: Player, q: Player)
    requires Consistent(m) && p in m.sides && m.sides[p].partner == q
    requires q in m.sides && m.sides[q].state != TRADE_ACCEPT && m.sides[p].state in {TRADE_ACKNOWLEDGE, TRADE_INITIATED}
    ensures Consistent(m.(sides := m.sides[p := m.sides[p].(state := TRADE_ACCEPT)]))
  {
    var after := m.sides[p := m.sides[p].(state := TRADE_ACCEPT)];
    forall r <- after | after[r].partner != null ensures Matched(after, r, after[r].partner) {
      ProperSide(m, r);
    }
  }

  // When both sides of a trade forget it, the others are still consistent.
  lemma EndedConsistent(m: Moment, p: Player, q: Player)
    requires Consistent(m) && p in m.sides && m.sides[p].partner == q
    ensures q in m.sides && Consistent(Ended(m, p, q))
  {
    hide Ended, Matched, Proper;
    PartnerIn(m, p, q);
    EndedItems(m, p, q);
    var after := Ended(m, p, q).sides;
    forall r <- after ensures Proper(after[r]) && (after[r].partner != null ==> Matched(after, r, after[r].partner)) {
      EndedSide(m, p, q, r);
    }
  }

  lemma PartnerIn(m: Moment, p: Player, q: Player)
    requires Consistent(m) && p in m.sides && m.sides[p].partner == q
    ensures q in m.sides && m.sides[q].partner == p
  {
    ProperSide(m, p);
  }

  lemma EndedSide(m: Moment, p: Player, q: Player, r: Player)
    requires Consistent(m) && p in m.sides && q in m.sides && m.sides[p].partner == q && r in Ended(m, p, q).sides
    ensures var after := Ended(m, p, q).sides;
      Proper(after[r]) && (after[r].partner != null ==> Matched(after, r, after[r].partner))
  {
    hide Consistent, Untraded;
    ProperSide(m, p);
    if r != p && r != q {
      ProperSide(m, r);
    }
  }

  // The items of the others are still traded.
  lemma EndedItems(m: Moment, p: Player, q: Player)
    requires Consistent(m) && p in m.sides && q in m.sides
    ensures var n := Ended(m, p, q);
      && (forall r <- n.sides :: n.sides[r].item != null ==>
            n.sides[r].item in n.tradeItems && n.tradeItems[n.sides[r].item] == r)
      && (forall i <- n.tradeItems :: n.tradeItems[i] in n.sides && n.sides[n.tradeItems[i]].item == i)
  {
    hide Proper, Matched;
  }

  // Every request keeps states, partners and items consistent.
  lemma AfterConsistent(m: Moment, r: Request)
    requires Consistent(m) && Known(m.sides, r)
    ensures Consistent(After(m, r)) && After(m, r).sides.Keys == m.sides.Keys
  {
    hide Consistent, Matched, Proper, Started, Ended;
    ProperSide(m, r.player);
    match r
    case Offer(p, q, item, holdingCount, isHoldingItem) =>
      assert After(m, r) == m || After(m, r) == Started(m, p, q, item);
      if p != q && Tradable(m, item, holdingCount, isHoldingItem) && MayStart(m.sides, p, q) {
        StartConsistent(m, p, q, item);
        StartedKeys(m, p, q, item);
      }
    case Accept(p, reachable, _) =>
      if m.sides[p].partner != null {
        EndedConsistent(m, p, m.sides[p].partner);
        EndedKeys(m, p, m.sides[p].partner);
        if m.sides[m.sides[p].partner].state != TRADE_ACCEPT && MayAccept(m.sides[p], reachable) {
          AcceptConsistent(m, p, m.sides[p].partner);
        }
      }
    case Close(p) =>
      if m.sides[p].partner != null {
        EndedConsistent(m, p, m.sides[p].partner);
        EndedKeys(m, p, m.sides[p].partner);
      }
  }

  lemma StartedKeys(m: Moment, p: Player, q: Player, item: Item)
    requires p in m.sides && q in m.sides
    ensures Started(m, p, q, item).sides.Keys == m.sides.Keys
  {}

  lemma EndedKeys(m: Moment, p: Player, q: Player)
    requires p in m.sides && q in m.sides
    ensures Ended(m, p, q).sides.Keys == m.sides.Keys
  {}

  // ---------- whole runs ----------

  // The moments that requests, or the first of them, lead through
  predicate IsRun(moments: seq<Moment>, requests: seq<Request>) {
    && 0 < |moments| <= |requests| + 1 && Consistent(moments[0])
    && forall k :: 0 <= k < |moments| - 1 ==>
         Known(moments[k].sides, requests[k]) && moments[k + 1] == After(moments[k], requests[k])
  }

  // Nobody trades yet.
  predicate Quiet(m: Moment) {
    forall p <- m.sides :: m.sides[p] == NOT_TRADING
  }

  lemma {:induction false} RunConsistent(moments: seq<Moment>, requests: seq<Request>, k: nat)
    requires IsRun(moments, requests) && k < |moments|
    ensures Consistent(moments[k]) && moments[k].sides.Keys == moments[0].sides.Keys
  {
    hide Consistent, After;
    if k > 0 {
      RunConsistent(moments, requests, k - 1);
      AfterConsistent(moments[k - 1], requests[k - 1]);
    }
  }

  // From step `i` on until step `k` the player has the same partner and has offered the same.
  predicate Lasts(moments: seq<Moment>, p: Player, i: nat, k: nat)
    requires k < |moments|
  {
    forall m :: i < m <= k ==>
      && p in moments[m].sides && p in moments[k].sides
      && moments[m].sides[p].item == moments[k].sides[p].item && moments[m].sides[p].partner == moments[k].sides[p].partner
  }

  predicate Offers(r: Request, p: Player, q: Player?, item: Item?) {
    r.Offer? && r.player == p && r.tradePartner == q && r.item == item
  }

  // The player has offered what is recorded for him, to his partner, and stood by it.
  predicate HasOffered(moments: seq<Moment>, requests: seq<Request>, p: Player, k: nat)
    requires k < |moments| <= |requests| + 1
  {
    p in moments[k].sides && exists i ::
      0 <= i < k && Offers(requests[i], p, moments[k].sides[p].partner, moments[k].sides[p].item) && Lasts(moments, p, i, k)
  }

  // From step `j` on until step `k` the player has accepted, with the same partner.
  predicate Stands(moments: seq<Moment>, p: Player, j: nat, k: nat)
    requires k < |moments|
  {
    forall m :: j < m <= k ==>
      && p in moments[m].sides && p in moments[k].sides
      && moments[m].sides[p].state == TRADE_ACCEPT && moments[m].sides[p].partner == moments[k].sides[p].partner
  }

  // The player has accepted, and stood by it.
  predicate HasAccepted(moments: seq<Moment>, requests: seq<Request>, p: Player, k: nat)
    requires k < |moments| <= |requests| + 1
  {
    exists j :: 0 <= j < k && requests[j].Accept? && requests[j].player == p && Stands(moments, p, j, k)
  }

  // What one request leaves of what a player has offered, and whether he has accepted
  lemma SideAfter(m: Moment, r: Request, p: Player)
    requires Consistent(m) && Known(m.sides, r) && p in m.sides
    ensures var n := After(m, r);
      && p in n.sides
      && (n.sides[p].item != null ==>
            Offers(r, p, n.sides[p].partner, n.sides[p].item)
            || (n.sides[p].item == m.sides[p].item && n.sides[p].partner == m.sides[p].partner))
      && (n.sides[p].state == TRADE_ACCEPT ==>
            n.sides[p].partner == m.sides[p].partner
            && (m.sides[p].state == TRADE_ACCEPT || (r.Accept? && r.player == p)))
  {
    ProperSide(m, p);
    ProperSide(m, r.player);
  }

  lemma {:induction false} OfferedBefore(moments: seq<Moment>, requests: seq<Request>, p: Player, k: nat)
    requires IsRun(moments, requests) && Quiet(moments[0]) && k < |moments|
    requires p in moments[k].sides && moments[k].sides[p].item != null
    ensures HasOffered(moments, requests, p, k)
  {
    hide Consistent, After, Lasts, Offers;
    RunConsistent(moments, requests, k);
    if k > 0 {
      RunConsistent(moments, requests, k - 1);
      SideAfter(moments[k - 1], requests[k - 1], p);
      if Offers(requests[k - 1], p, moments[k].sides[p].partner, moments[k].sides[p].item) {
        LastsNow(moments, p, k);
      } else {
        OfferedBefore(moments, requests, p, k - 1);
        var i :| 0 <= i < k - 1 && Lasts(moments, p, i, k - 1)
          && Offers(requests[i], p, moments[k - 1].sides[p].partner, moments[k - 1].sides[p].item);
        LastsOn(moments, p, i, k);
      }
    }
  }

  lemma LastsNow(moments: seq<Moment>, p: Player, k: nat)
    requires 0 < k < |moments| && p in moments[k].sides
    ensures Lasts(moments, p, k - 1, k)
  {}

  lemma LastsOn(moments: seq<Moment>, p: Player, i: nat, k: nat)
    requires i < k - 1 && 0 < k < |moments| && Lasts(moments, p, i, k - 1) && p in moments[k].sides && p in moments[k - 1].sides
    requires moments[k].sides[p].item == moments[k - 1].sides[p].item
    requires moments[k].sides[p].partner == moments[k - 1].sides[p].partner
    ensures Lasts(moments, p, i, k)
  {}

  lemma {:induction false} AcceptedBefore(moments: seq<Moment>, requests: seq<Request>, p: Player, k: nat)
    requires IsRun(moments, requests) && Quiet(moments[0]) && k < |moments|
    requires p in moments[k].sides && moments[k].sides[p].state == TRADE_ACCEPT
    ensures HasAccepted(moments, requests, p, k)
  {
    hide Consistent, After, Stands;
    RunConsistent(moments, requests, k);
    if k > 0 {
      RunConsistent(moments, requests, k - 1);
      SideAfter(moments[k - 1], requests[k - 1], p);
      if moments[k - 1].sides[p].state == TRADE_ACCEPT {
        AcceptedBefore(moments, requests, p, k - 1);
        var j :| 0 <= j < k - 1 && requests[j].Accept? && requests[j].player == p && Stands(moments, p, j, k - 1);
        StandsOn(moments, p, j, k);
      } else {
        StandsNow(moments, p, k);
      }
    }
  }

  lemma StandsNow(moments: seq<Moment>, p: Player, k: nat)
    requires 0 < k < |moments| && p in moments[k].sides && moments[k].sides[p].state == TRADE_ACCEPT
    ensures Stands(moments, p, k - 1, k)
  {}

  lemma StandsOn(moments: seq<Moment>, p: Player, j: nat, k: nat)
    requires j < k - 1 && 0 < k < |moments| && Stands(moments, p, j, k - 1) && p in moments[k].sides && p in moments[k - 1].sides
    requires moments[k].sides[p].state == TRADE_ACCEPT && moments[k].sides[p].partner == moments[k - 1].sides[p].partner
    ensures Stands(moments, p, j, k)
  {}

  // Goods change hands only in the step in which the second of two partners accepts, when the other has accepted before
  // and stood by it, and both have offered what is handed over, to each other, and stood by it.
  predicate Rightly(moments: seq<Moment>, requests: seq<Request>, k: nat, h: Handover)
    requires k < |requests| && k < |moments| <= |requests| + 1
  {
    var r, sides := requests[k], moments[k].sides;
    && r.Accept? && r.player in sides && sides[r.player].partner in sides
    && ((h.from == r.player && h.to == sides[r.player].partner) || (h.to == r.player && h.from == sides[r.player].partner))
    && h.from in sides && h.to in sides && sides[h.from].partner == h.to && sides[h.to].partner == h.from
    && sides[h.from].item == h.item
    && HasOffered(moments, requests, h.from, k) && HasOffered(moments, requests, h.to, k)
    && HasAccepted(moments, requests, sides[r.player].partner, k)
  }

  lemma HandedRightly(moments: seq<Moment>, requests: seq<Request>, k: nat, h: Handover)
    requires IsRun(moments, requests) && Quiet(moments[0]) && k < |requests| && k < |moments|
    requires Known(moments[k].sides, requests[k])
    requires h in Given(moments[k], requests[k])
    ensures Rightly(moments, requests, k, h)
  {
    hide Consistent, After, HasOffered, HasAccepted;
    RunConsistent(moments, requests, k);
    var p := requests[k].player;
    ProperSide(moments[k], p);
    var q: Player := moments[k].sides[p].partner;
    OfferedBefore(moments, requests, p, k);
    OfferedBefore(moments, requests, q, k);
    AcceptedBefore(moments, requests, q, k);
  }

  // ---------- accepting what is not there yet ----------

  // What a player has offered stays as long as he has a partner.
  lemma OfferStays(m: Moment, r: Request, p: Player)
    requires Consistent(m) && Known(m.sides, r) && p in m.sides && m.sides[p].item != null
    ensures p in After(m, r).sides
    ensures After(m, r).sides[p].partner != null ==> After(m, r).sides[p].item == m.sides[p].item
  {
    ProperSide(m, p);
    ProperSide(m, r.player);
  }

  // Who has accepted keeps his partner, who has not accepted.
  lemma PartnerStays(m: Moment, r: Request, q: Player)
    requires Consistent(m) && Known(m.sides, r) && q in m.sides
    requires q in After(m, r).sides && After(m, r).sides[q].state == TRADE_ACCEPT
    ensures var p := m.sides[q].partner;
      && p != null && p in m.sides && m.sides[p].state in {TRADE_ACKNOWLEDGE, TRADE_INITIATED}
      && p == After(m, r).sides[q].partner
  {
    SideAfter(m, r, q);
    ProperSide(m, q);
    AfterConsistent(m, r);
    ProperSide(After(m, r), q);
    if m.sides[q].partner != null {
      ProperSide(m, m.sides[q].partner);
    }
  }

  // What the partner offers at step `k` is what he offered at step `j`, from which on the player's acceptance has stood,
  // exactly if he was not merely asked then.
  lemma {:induction false} AcceptedSeen(moments: seq<Moment>, requests: seq<Request>, q: Player, j: nat, k: nat)
    requires IsRun(moments, requests) && j < k < |moments| && q in moments[k].sides && Stands(moments, q, j, k)
    requires moments[k].sides[q].partner in moments[k].sides
    requires moments[k].sides[moments[k].sides[q].partner].item != null
    ensures var p := moments[k].sides[q].partner;
      && p in moments[j].sides && moments[j].sides[p].state in {TRADE_ACKNOWLEDGE, TRADE_INITIATED}
      && (moments[j].sides[p].item == moments[k].sides[p].item <==> moments[j].sides[p].state != TRADE_ACKNOWLEDGE)
    decreases k
  {
    hide Consistent, After;
    var p: Player := moments[k].sides[q].partner;
    RunConsistent(moments, requests, k - 1);
    RunConsistent(moments, requests, k);
    RunConsistent(moments, requests, j);
    PartnerStays(moments[k - 1], requests[k - 1], q);
    ProperSide(moments[k], q);
    ProperSide(moments[j], p);
    SideAfter(moments[k - 1], requests[k - 1], p);
    if moments[k - 1].sides[p].item != null {
      OfferStays(moments[k - 1], requests[k - 1], p);
    }
    if j < k - 1 {
      if moments[k - 1].sides[p].item != null {
        AcceptedSeen(moments, requests, q, j, k - 1);
      } else {
        NothingYet(moments, requests, q, j, k - 1);
      }
    } else {
      ProperSide(moments[j], p);
    }
  }

  // Who has offered nothing when his partner's acceptance has stood for a while had offered nothing before.
  lemma {:induction false} NothingYet(moments: seq<Moment>, requests: seq<Request>, q: Player, j: nat, k: nat)
    requires IsRun(moments, requests) && j < k < |moments| && q in moments[k].sides && Stands(moments, q, j, k)
    requires moments[k].sides[q].partner in moments[k].sides
    requires moments[k].sides[moments[k].sides[q].partner].item == null
    ensures var p := moments[k].sides[q].partner;
      p in moments[j].sides && moments[j].sides[p].state == TRADE_ACKNOWLEDGE
    decreases k
  {
    hide Consistent, After;
    var p: Player := moments[k].sides[q].partner;
    RunConsistent(moments, requests, k - 1);
    RunConsistent(moments, requests, k);
    PartnerStays(moments[k - 1], requests[k - 1], q);
    ProperSide(moments[k], q);
    ProperSide(moments[k - 1], p);
    if moments[k - 1].sides[p].item != null {
      OfferStays(moments[k - 1], requests[k - 1], p);
    }
    if j < k - 1 {
      NothingYet(moments, requests, q, j, k - 1);
    }
  }

  const HOLDS_NOTHING: (Item, Item) -> bool := (i, j) => false
  const ALL_AGREE := Answers(true, true, true, true, true, true)

  // `p` makes an offer and accepts, `q` makes one and accepts.
  function BlindRequests(p: Player, q: Player, item1: Item, item2: Item): seq<Request> {
    [Offer(p, q, item1, 0, HOLDS_NOTHING), Accept(p, true, ALL_AGREE),
     Offer(q, p, item2, 0, HOLDS_NOTHING), Accept(q, true, ALL_AGREE)]
  }

  function BlindMoment(p: Player, q: Player, item1: Item, item2: Item, n: nat): Moment {
    if n == 0 then Moment(map[p := NOT_TRADING, q := NOT_TRADING], map[])
    else if n == 1 then
      Moment(map[p := Side(TRADE_INITIATED, q, item1), q := Side(TRADE_ACKNOWLEDGE, p, null)], map[item1 := p])
    else if n == 2 then
      Moment(map[p := Side(TRADE_ACCEPT, q, item1), q := Side(TRADE_ACKNOWLEDGE, p, null)], map[item1 := p])
    else
      Moment(map[p := Side(TRADE_ACCEPT, q, item1), q := Side(TRADE_INITIATED, p, item2)], map[item1 := p, item2 := q])
  }

  lemma BlindStep(p: Player, q: Player, item1: Item, item2: Item, n: nat)
    requires p != q && item1 != item2 && n < 3
    ensures var m, r := BlindMoment(p, q, item1, item2, n), BlindRequests(p, q, item1, item2)[n];
      Known(m.sides, r) && After(m, r) == BlindMoment(p, q, item1, item2, n + 1)
  {}

  // The first player accepts before the other has offered anything, and gets what the other offers afterwards.
  lemma AcceptedBlindly(p: Player, q: Player, item1: Item, item2: Item)
    requires p != q && item1 != item2
    ensures var requests := BlindRequests(p, q, item1, item2);
      var moments := seq(4, n requires 0 <= n => BlindMoment(p, q, item1, item2, n));
      && IsRun(moments, requests) && Quiet(moments[0])
      && p in moments[2].sides && q in moments[2].sides
      && moments[2].sides[p].state == TRADE_ACCEPT && moments[2].sides[q].item == null
      && Known(moments[3].sides, requests[3]) && Handover(item2, q, p) in Given(moments[3], requests[3])
  {
    hide After;
    BlindStep(p, q, item1, item2, 0);
    BlindStep(p, q, item1, item2, 1);
    BlindStep(p, q, item1, item2, 2);
    BlindEnd(p, q, item1, item2);
  }

  lemma BlindEnd(p: Player, q: Player, item1: Item, item2: Item)
    requires p != q && item1 != item2
    ensures var m, r := BlindMoment(p, q, item1, item2, 3), BlindRequests(p, q, item1, item2)[3];
      Known(m.sides, r) && Handover(item2, q, p) in Given(m, r)
  {
    var m, r := BlindMoment(p, q, item1, item2, 3), BlindRequests(p, q, item1, item2)[3];
    assert Given(m, r)[0] == Handover(item2, q, p);
  }

  // ---------- what each request does ----------

  // `p` has offered the item to `q`, who acknowledges that if he was free, and stays as he was otherwise.
  predicate Offered(m: Moment, n: Moment, p: Player, q: Player, item: Item) {
    && p in m.sides && q in m.sides && p in n.sides && q in n.sides
    && n.sides[p].state == TRADE_INITIATED && n.sides[p].partner == q && n.sides[p].item == item
    && (m.sides[q].state == TRADE_NONE ==> n.sides[q].state == TRADE_ACKNOWLEDGE && n.sides[q].partner == p && n.sides[q].item == null)
    && (m.sides[q].state != TRADE_NONE ==> n.sides[q] == m.sides[q])
    && (forall r <- m.sides :: r != p && r != q ==> r in n.sides && n.sides[r] == m.sides[r])
    && item in n.tradeItems && n.tradeItems[item] == p
    && (forall i <- m.tradeItems :: i != item ==> i in n.tradeItems && n.tradeItems[i] == m.tradeItems[i])
    && (forall i <- n.tradeItems :: i == item || i in m.tradeItems)
  }

  lemma StartedIs(m: Moment, p: Player, q: Player, item: Item)
    requires Consistent(m) && p in m.sides && q in m.sides && p != q
    ensures Offered(m, Started(m, p, q, item), p, q, item)
  {
    ProperSide(m, q);
  }

  // `p` and `q` have forgotten their trade, nobody else has, and their items are no longer being traded.
  predicate Forgotten(m: Moment, n: Moment, p: Player, q: Player) {
    && p in m.sides && q in m.sides && p in n.sides && q in n.sides
    && n.sides[p].state == TRADE_NONE && n.sides[p].partner == null && n.sides[p].item == null
    && n.sides[q].state == TRADE_NONE && n.sides[q].partner == null && n.sides[q].item == null
    && (forall r <- m.sides :: r != p && r != q ==> r in n.sides && n.sides[r] == m.sides[r])
    && m.sides[p].item !in n.tradeItems && m.sides[q].item !in n.tradeItems
    && (forall i <- m.tradeItems :: i != m.sides[p].item && i != m.sides[q].item ==>
          i in n.tradeItems && n.tradeItems[i] == m.tradeItems[i])
    && (forall i <- n.tradeItems :: i in m.tradeItems)
  }

  lemma EndedIs(m: Moment, p: Player, q: Player)
    requires p in m.sides && q in m.sides
    ensures Forgotten(m, Ended(m, p, q), p, q)
  {}

  // Goods change hands if both sides have offered something and the inventories agree: `p`'s to `q`, and, if that move
  // succeeds too, `q`'s to `p`.
  predicate HandedOver(given: seq<Handover>, p: Player, item1: Item?, q: Player, item2: Item?, answers: Answers) {
    var agree := answers.add1 && answers.add2 && answers.remove1 && answers.remove2 && answers.move1;
    && (item1 == null || item2 == null || !agree ==> given == [])
    && (item1 != null && item2 != null && agree && !answers.move2 ==> given == [Handover(item1, p, q)])
    && (item1 != null && item2 != null && agree && answers.move2 ==>
          given == [Handover(item1, p, q), Handover(item2, q, p)])
  }

  lemma ExchangeIs(p: Player, a: Side, q: Player, b: Side, answers: Answers)
    ensures HandedOver(Exchange(p, a, q, b, answers), p, a.item, q, b.item, answers)
  {}

  // An acceptance: without an offer to accept, or out of reach, nothing happens; the first of the two is noted; the second
  // ends the trade and hands over the goods.
  predicate Accepted(m: Moment, n: Moment, given: seq<Handover>, p: Player, reachable: bool, answers: Answers) {
    && p in m.sides && p in n.sides
    && var q := m.sides[p].partner;
       var may := reachable && m.sides[p].state in {TRADE_ACKNOWLEDGE, TRADE_INITIATED};
       && (!may ==> n == m && given == [])
       && (may ==> q != null && q in m.sides)
       && (may && m.sides[q].state != TRADE_ACCEPT ==>
             && n.sides[p].state == TRADE_ACCEPT && n.sides[p].partner == q && n.sides[p].item == m.sides[p].item
             && (forall r <- m.sides :: r != p ==> r in n.sides && n.sides[r] == m.sides[r])
             && n.tradeItems == m.tradeItems && given == [])
       && (may && m.sides[q].state == TRADE_ACCEPT ==>
             Forgotten(m, n, p, q) && HandedOver(given, p, m.sides[p].item, q, m.sides[q].item, answers))
  }

  lemma AcceptIs(m: Moment, p: Player, reachable: bool, answers: Answers)
    requires Consistent(m) && p in m.sides
    ensures Accepted(m, After(m, Accept(p, reachable, answers)), Given(m, Accept(p, reachable, answers)), p, reachable, answers)
  {
    hide Ended, Forgotten, Exchange, HandedOver;
    ProperSide(m, p);
    if m.sides[p].partner != null {
      var q: Player := m.sides[p].partner;
      EndedIs(m, p, q);
      ExchangeIs(p, m.sides[p], q, m.sides[q], answers);
    }
  }

  // ---------- after a close ----------

  predicate Concerns(r: Request, p: Player) {
    r.Offer? && (r.player == p || r.tradePartner == p)
  }

  // Who does not trade is left alone until he makes an offer or is made one.
  lemma FreeStays(m: Moment, r: Request, p: Player)
    requires Consistent(m) && Known(m.sides, r) && p in m.sides && !Concerns(r, p)
    requires m.sides[p].state == TRADE_NONE && m.sides[p].partner == null && m.sides[p].item == null
    ensures p in After(m, r).sides && After(m, r).sides[p] == m.sides[p]
    ensures forall h <- Given(m, r) :: h.from != p && h.to != p
  {
    ProperSide(m, r.player);
  }

  // Both sides are free after a close.
  lemma CloseFrees(m: Moment, p: Player)
    requires Consistent(m) && p in m.sides && m.sides[p].partner != null
    ensures Forgotten(m, After(m, Close(p)), p, m.sides[p].partner) && Given(m, Close(p)) == []
  {
    hide Ended, Forgotten;
    ProperSide(m, p);
    EndedIs(m, p, m.sides[p].partner);
  }

  // When a trade has been closed in step `j`, neither side accepts, offers or hands over anything before somebody makes
  // an offer to it or it makes one.
  lemma {:induction false} ClosedStays(moments: seq<Moment>, requests: seq<Request>, p: Player, q: Player, j: nat, k: nat)
    requires IsRun(moments, requests) && j < k < |moments| && requests[j] == Close(p)
    requires p in moments[j].sides && moments[j].sides[p].partner == q
    requires forall i :: j < i < k ==> !Concerns(requests[i], p) && !Concerns(requests[i], q)
    ensures p in moments[k].sides && q in moments[k].sides
    ensures moments[k].sides[p].state == TRADE_NONE && moments[k].sides[p].partner == null && moments[k].sides[p].item == null
    ensures moments[k].sides[q].state == TRADE_NONE && moments[k].sides[q].partner == null && moments[k].sides[q].item == null
    ensures (k < |requests| && Known(moments[k].sides, requests[k])
             && !Concerns(requests[k], p) && !Concerns(requests[k], q)) ==>
      forall h <- Given(moments[k], requests[k]) :: h.from !in {p, q} && h.to !in {p, q}
    decreases k
  {
    hide Consistent, After, Given;
    RunConsistent(moments, requests, k - 1);
    RunConsistent(moments, requests, k);
    if j == k - 1 {
      CloseFrees(moments[j], p);
    } else {
      ClosedStays(moments, requests, p, q, j, k - 1);
      FreeStays(moments[k - 1], requests[k - 1], p);
      FreeStays(moments[k - 1], requests[k - 1], q);
    }
    if k < |requests| && Known(moments[k].sides, requests[k]) && !Concerns(requests[k], p) && !Concerns(requests[k], q) {
      FreeStays(moments[k], requests[k], p);
      FreeStays(moments[k], requests[k], q);
    }
  }

  // ---------- the game ----------

  class Game {
    var tradeItems: map<Item, Player>
    ghost const players: set<Player>
    ghost var handovers: seq<Handover>

    constructor (ghost players: set<Player>)
      requires forall p <- players :: p.tradeState == TRADE_NONE && p.tradePartner == null && p.tradeItem == null
      ensures Valid() && this.players == players && tradeItems == map[] && handovers == [] && Quiet(Now())
    {
      this.players := players;
      tradeItems, handovers := map[], [];
    }

    // What the players' fields say at one moment
    ghost function Sides(): map<Player, Side>
      reads this, players
    {
      map p | p in players :: Side(p.tradeState, p.tradePartner, p.tradeItem)
    }

    ghost function Now(): Moment
      reads this, players
    {
      Moment(Sides(), tradeItems)
    }

    ghost predicate Valid()
      reads this, players
    {
      Consistent(Now())
    }

    // The request has been dealt with.
    twostate predicate Did(r: Request)
      requires Known(old(Sides()), r)
      reads this, players
    {
      Now() == After(old(Now()), r) && handovers == old(handovers) + Given(old(Now()), r)
    }

    // playerRequestTrade, once the players are near enough and the item is found: an item that is being traded, lies in
    // one that is, or holds one, is refused.
    method RequestTrade(player: Player, tradePartner: Player, tradeItem: Item, holdingCount: nat,
                        isHoldingItem: (Item, Item) -> bool)
      returns (started: bool)
      requires Valid() && player in players && tradePartner in players
      modifies this`tradeItems, player, tradePartner
      ensures Valid() && Did(Offer(player, tradePartner, tradeItem, holdingCount, isHoldingItem))
      ensures started <==>
        && player != tradePartner && holdingCount < 100
        && (forall i <- old(tradeItems) :: i != tradeItem && !isHoldingItem(tradeItem, i) && !isHoldingItem(i, tradeItem))
        && (old(player.tradeState) == TRADE_NONE
            || (old(player.tradeState) == TRADE_ACKNOWLEDGE && old(player.tradePartner) == tradePartner))
        && (old(tradePartner.tradeState) == TRADE_NONE || old(tradePartner.tradePartner) == player)
      ensures started ==> Offered(old(Now()), Now(), player, tradePartner, tradeItem)
      ensures started ==>
        player.tradeState == TRADE_INITIATED && player.tradePartner == tradePartner && player.tradeItem == tradeItem
      ensures !started ==> Now() == old(Now())
    {
      hide Consistent;
      if tradePartner == player {
        return false;
      }
      var left := tradeItems.Keys;
      while left != {}
        invariant left <= tradeItems.Keys
        invariant forall i <- tradeItems :: i !in left ==>
          i != tradeItem && !isHoldingItem(tradeItem, i) && !isHoldingItem(i, tradeItem)
        decreases left
      {
        var i :| i in left;
        if tradeItem == i || isHoldingItem(tradeItem, i) || isHoldingItem(i, tradeItem) {
          return false;
        }
        left := left - {i};
      }
      if holdingCount + 1 > MAX_TRADED {
        return false;
      }
      started := InternalStartTrade(player, tradePartner, tradeItem);
    }

    method InternalStartTrade(player: Player, tradePartner: Player, tradeItem: Item) returns (started: bool)
      requires Valid() && player in players && tradePartner in players && player != tradePartner
      requires tradeItem !in tradeItems
      modifies this`tradeItems, player, tradePartner
      ensures Valid() && started == MayStart(old(Sides()), player, tradePartner)
      ensures Now() == if started then Started(old(Now()), player, tradePartner, tradeItem) else old(Now())
      ensures started ==> Offered(old(Now()), Now(), player, tradePartner, tradeItem)
      ensures started ==>
        player.tradeState == TRADE_INITIATED && player.tradePartner == tradePartner && player.tradeItem == tradeItem
    {
      hide Consistent, Matched, Offered;
      if player.tradeState != TRADE_NONE &&
         !(player.tradeState == TRADE_ACKNOWLEDGE && player.tradePartner == tradePartner) {
        return false;
      } else if tradePartner.tradeState != TRADE_NONE && tradePartner.tradePartner != player {
        return false;
      }
      ghost var m := Now();
      StartConsistent(m, player, tradePartner, tradeItem);
      StartedIs(m, player, tradePartner, tradeItem);
      player.tradePartner := tradePartner;
      player.tradeItem := tradeItem;
      player.tradeState := TRADE_INITIATED;
      tradeItems := tradeItems[tradeItem := player];
      if tradePartner.tradeState == TRADE_NONE {
        tradePartner.tradeState := TRADE_ACKNOWLEDGE;
        tradePartner.tradePartner := player;
      }
      ghost var want := Started(m, player, tradePartner, tradeItem).sides;
      assert Sides()[player] == want[player] && Sides()[tradePartner] == want[tradePartner];
      assert Sides() == want;
      return true;
    }

    // An item, if there is one, is no longer being traded.
    method Forget(item: Item?)
      modifies this`tradeItems
      ensures tradeItems == Untraded(old(tradeItems), item)
    {
      if item != null && item in tradeItems {
        tradeItems := tradeItems - {item};
      }
    }

    // playerAcceptTrade: `reachable` says whether the partner stands where things can be thrown to.
    method AcceptTrade(player: Player, reachable: bool, answers: Answers)
      requires Valid() && player in players
      modifies this`tradeItems, this`handovers, player, player.tradePartner
      ensures Valid() && Did(Accept(player, reachable, answers))
      ensures Accepted(old(Now()), Now(), Given(old(Now()), Accept(player, reachable, answers)), player, reachable, answers)
    {
      hide Consistent, Ended, Exchange, Accepted;
      ghost var m := Now();
      ProperSide(m, player);
      AcceptIs(m, player, reachable, answers);
      if !(player.tradeState == TRADE_ACKNOWLEDGE || player.tradeState == TRADE_INITIATED) {
        return;
      }
      var tradePartner := player.tradePartner;
      if tradePartner == null {
        return;
      }
      if !reachable {
        return;
      }
      if tradePartner.tradeState == TRADE_ACCEPT {
        Transfer(player, tradePartner, answers);
      } else {
        AcceptConsistent(m, player, tradePartner);
        player.tradeState := TRADE_ACCEPT;
        assert Sides() == m.sides[player := m.sides[player].(state := TRADE_ACCEPT)];
      }
    }

    // Both have accepted. The second of the two moves may fail, and the trade ends all the same.
    method Transfer(player: Player, tradePartner: Player, answers: Answers)
      requires Valid() && player in players && player.tradePartner == tradePartner
      modifies this`tradeItems, this`handovers, player, tradePartner
      ensures tradePartner in players && Valid() && Now() == Ended(old(Now()), player, tradePartner)
      ensures handovers == old(handovers)
        + Exchange(player, old(Sides())[player], tradePartner, old(Sides())[tradePartner], answers)
    {
      hide Consistent, Untraded, Exchange;
      ghost var m := Now();
      EndedConsistent(m, player, tradePartner);
      player.tradeState := TRADE_ACCEPT;
      var tradeItem1 := player.tradeItem;
      var tradeItem2 := tradePartner.tradeItem;
      player.tradeState := TRADE_TRANSFER;
      tradePartner.tradeState := TRADE_TRANSFER;
      Forget(tradeItem1);
      Forget(tradeItem2);
      HandOver(player, m.sides[player], tradePartner, m.sides[tradePartner], tradeItem1, tradeItem2, answers);
      Leave(player);
      Leave(tradePartner);
      assert Sides() == m.sides[player := NOT_TRADING][tradePartner := NOT_TRADING];
    }

    // internalAddItem takes nothing that is not there.
    method HandOver(player: Player, ghost side1: Side, tradePartner: Player, ghost side2: Side, tradeItem1: Item?,
                    tradeItem2: Item?, answers: Answers)
      requires side1.item == tradeItem1 && side2.item == tradeItem2
      modifies this`handovers
      ensures handovers == old(handovers) + Exchange(player, side1, tradePartner, side2, answers)
    {
      if tradeItem1 != null && tradeItem2 != null && answers.add1 && answers.add2 {
        if answers.remove1 && answers.remove2 {
          if answers.move1 {
            handovers := handovers + [Handover(tradeItem1, player, tradePartner)];
            if answers.move2 {
              handovers := handovers + [Handover(tradeItem2, tradePartner, player)];
            }
          }
        }
      }
    }

    // internalCloseTrade, also when a player leaves or a traded item is moved
    method CloseTrade(player: Player)
      requires Valid() && player in players
      modifies this`tradeItems, player, player.tradePartner
      ensures Valid() && Did(Close(player)) && handovers == old(handovers)
      ensures old(player.tradePartner) == null ==> Now() == old(Now())
      ensures old(player.tradePartner) != null ==> Forgotten(old(Now()), Now(), player, old(player.tradePartner))
      ensures old(player.tradePartner) != null ==>
        && player.tradeState == TRADE_NONE && player.tradePartner == null && player.tradeItem == null
        && old(player.tradePartner).tradeState == TRADE_NONE && old(player.tradePartner).tradePartner == null
        && old(player.tradePartner).tradeItem == null
    {
      hide Consistent, Forgotten;
      ghost var m := Now();
      ProperSide(m, player);
      if player.tradePartner != null {
        CloseFrees(m, player);
        EndedConsistent(m, player, player.tradePartner);
        ProperSide(m, player.tradePartner);
      }
      var tradePartner := player.tradePartner;
      if (tradePartner != null && tradePartner.tradeState == TRADE_TRANSFER) || player.tradeState == TRADE_TRANSFER {
        return;
      }
      CloseSide(player);
      if tradePartner != null {
        CloseSide(tradePartner);
        ghost var q: Player := tradePartner;
        assert Sides() == m.sides[player := NOT_TRADING][q := NOT_TRADING];
      } else {
        assert Sides() == m.sides;
      }
    }

    // What internalCloseTrade does on each side
    method CloseSide(player: Player)
      modifies this`tradeItems, player
      ensures tradeItems == Untraded(old(tradeItems), old(player.tradeItem))
      ensures player.tradeState == TRADE_NONE && player.tradePartner == null && player.tradeItem == null
    {
      if player.tradeItem != null {
        Forget(player.tradeItem);
      }
      Leave(player);
    }

    method Leave(player: Player)
      modifies player
      ensures player.tradeState == TRADE_NONE && player.tradePartner == null && player.tradeItem == null
    {
      player.tradeState := TRADE_NONE;
      player.tradeItem := null;
      player.tradePartner := null;
    }

    lemma PartnerKnown(player: Player)
      requires Valid() && player in players && player.tradePartner != null
      ensures player.tradePartner in players
    {
      ProperSide(Now(), player);
    }

    method Serve(r: Request)
      requires Valid() && r.player in players && (r.Offer? ==> r.tradePartner in players)
      modifies this`tradeItems, this`handovers, players
      ensures Valid() && Now() == After(old(Now()), r) && handovers == old(handovers) + Given(old(Now()), r)
    {
      hide Consistent, After, Given;
      if r.player.tradePartner != null {
        PartnerKnown(r.player);
      }
      match r {
        case Offer(player, tradePartner, item, holdingCount, isHoldingItem) =>
          var started := RequestTrade(player, tradePartner, item, holdingCount, isHoldingItem);
        case Accept(player, reachable, answers) =>
          AcceptTrade(player, reachable, answers);
        case Close(player) =>
          CloseTrade(player);
      }
    }

    // Whatever is asked for, in whatever order and by whomever, the players' states go through a run, and what has been
    // handed over since the beginning is what its steps give.
    method Run(requests: seq<Request>) returns (ghost moments: seq<Moment>)
      requires Valid()
      requires forall r <- requests :: r.player in players && (r.Offer? ==> r.tradePartner in players)
      modifies this`tradeItems, this`handovers, players
      ensures Valid() && IsRun(moments, requests) && |moments| == |requests| + 1
      ensures moments[0] == old(Now()) && moments[|requests|] == Now()
      ensures handovers == old(handovers) + GivenUpTo(moments, requests, |requests|)
    {
      hide Consistent, After, Given, IsRun, GivenUpTo;
      moments := [Now()];
      var i := 0;
      RunStarts(Now(), requests);
      while i < |requests|
        invariant 0 <= i <= |requests| && Valid() && IsRun(moments, requests)
        invariant |moments| == i + 1 && moments[0] == old(Now()) && moments[i] == Now()
        invariant handovers == old(handovers) + GivenUpTo(moments, requests, i)
      {
        assert requests[i] in requests;
        ghost var before := GivenUpTo(moments, requests, i);
        Serve(requests[i]);
        RunFurther(moments, requests, i, Now());
        assert old(handovers) + before + Given(moments[i], requests[i]) == old(handovers) + (before + Given(moments[i], requests[i]));
        moments := moments + [Now()];
        i := i + 1;
      }
    }
  }

  // What the first `k` steps of a run hand over
  function GivenUpTo(moments: seq<Moment>, requests: seq<Request>, k: nat): seq<Handover>
    requires IsRun(moments, requests) && k < |moments|
  {
    if k == 0 then [] else GivenUpTo(moments, requests, k - 1) + Given(moments[k - 1], requests[k - 1])
  }

  lemma RunStarts(m: Moment, requests: seq<Request>)
    requires Consistent(m)
    ensures IsRun([m], requests) && GivenUpTo([m], requests, 0) == []
  {}

  lemma RunFurther(moments: seq<Moment>, requests: seq<Request>, i: nat, next: Moment)
    requires i < |requests| && |moments| == i + 1 && IsRun(moments, requests) && Known(moments[i].sides, requests[i])
    requires next == After(moments[i], requests[i])
    ensures IsRun(moments + [next], requests)
    ensures GivenUpTo(moments + [next], requests, i + 1) == GivenUpTo(moments, requests, i) + Given(moments[i], requests[i])
  {
    hide Consistent, After, Given;
    SameGiven(moments, moments + [next], requests, i);
  }

  lemma {:induction false} SameGiven(m: seq<Moment>, n: seq<Moment>, requests: seq<Request>, k: nat)
    requires IsRun(m, requests) && IsRun(n, requests) && k < |m| <= |n| && m <= n
    ensures GivenUpTo(m, requests, k) == GivenUpTo(n, requests, k)
  {
    hide Given, Consistent, After;
    if k > 0 {
      SameGiven(m, n, requests, k - 1);
    }
  }
}
