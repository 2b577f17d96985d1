/** Game::internalMoveItem, internalAddItem and internalRemoveItem between containers: nothing is lost, nothing is
    doubled, no stack and no container overflows, and the world stays sound. */
module ItemMoves {
  import opened Common
  import opened ItemWorld

  const MAP_MAX_LAYERS := 16

  const NO_FLAGS := Flags(false, false, false, false)

  // Stacks hold 1 to 100 units, and keep their count as their sub type.
  predicate StackFits(kinds: Kinds, x: Item, c: Cell) {
    kinds(c.id).stackable ==> 1 <= c.count <= 100 && !x.isContainer && !kinds(c.id).fluid
  }

  predicate StacksFit(kinds: Kinds, w: World) {
    forall x <- w :: StackFits(kinds, x, w[x])
  }

  ghost predicate Good(kinds: Kinds, w: World) {
    Sound(kinds, w) && StacksFit(kinds, w)
  }

  function UnitsOf(c: Cell, id: nat): nat {
    if c.id == id then c.count else 0
  }

  // All units of one item type there are.
  ghost function Units(w: World, id: nat): nat
    decreases |w|
  {
    if w == map[] then 0
    else var x :| x in w; UnitsOf(w[x], id) + Units(w - {x}, id)
  }

  lemma {:induction false} UnitsTake(w: World, x: Item, id: nat)
    requires x in w
    ensures Units(w, id) == UnitsOf(w[x], id) + Units(w - {x}, id)
    decreases |w|
  {
    var y :| y in w && Units(w, id) == UnitsOf(w[y], id) + Units(w - {y}, id);
    if y != x {
      UnitsTake(w - {y}, x, id);
      UnitsTake(w - {x}, y, id);
      assert w - {x} - {y} == w - {y} - {x};
    }
  }

  lemma {:induction false} UnitsSame(w: World, v: World, id: nat)
    requires w.Keys == v.Keys && forall x <- w :: UnitsOf(v[x], id) == UnitsOf(w[x], id)
    ensures Units(v, id) == Units(w, id)
    decreases |w|
  {
    if w != map[] {
      var x :| x in w;
      UnitsTake(w, x, id);
      UnitsTake(v, x, id);
      assert x !in (w - {x}).Keys;
      UnitsSame(w - {x}, v - {x}, id);
    } else {
      assert v == map[];
    }
  }

  lemma UnitsChange(w: World, v: World, x: Item, id: nat)
    requires x in w && w.Keys == v.Keys && forall y <- w :: y != x ==> UnitsOf(v[y], id) == UnitsOf(w[y], id)
    ensures Units(v, id) == Units(w, id) - UnitsOf(w[x], id) + UnitsOf(v[x], id)
  {
    UnitsTake(w, x, id);
    UnitsTake(v, x, id);
    UnitsSame(w - {x}, v - {x}, id);
  }

  // ---------- things come and go ----------

  lemma {:induction false} ElsewhereStays(w: World, v: World, x: Item, n: nat)
    requires Linked(w) && w.Keys == v.Keys + {x} && forall y <- v :: y != x ==> v[y].parent == w[y].parent
    requires w[x].parent == null && w[x].list == []
    ensures forall y <- v | y != x && Grounded(w, y, n) :: Grounded(v, y, n)
  {
    if n > 0 {
      ElsewhereStays(w, v, x, n - 1);
      forall y <- v | y != x && Grounded(w, y, n)
        ensures Grounded(v, y, n)
      {
        assert w[y].parent != null ==> y in w[w[y].parent].list;
      }
    }
  }

  // A loose empty thing may be released.
  lemma DropSound(kinds: Kinds, w: World, x: Item)
    requires Sound(kinds, w) && x in w && w[x].parent == null && w[x].list == []
    ensures Sound(kinds, w - {x})
  {
    hide Linked, Balanced;
    var v := w - {x};
    var n: nat :| AllGrounded(w, n);
    ElsewhereStays(w, v, x, n);
    assert AllGrounded(v, n);
    DropLinked(w, x);
    forall c <- v ensures Balanced(kinds, v, c) {
      DropBalanced(kinds, w, x, c);
    }
  }

  lemma DropLinked(w: World, x: Item)
    requires Linked(w) && x in w && w[x].parent == null && w[x].list == []
    ensures Linked(w - {x})
  {
    hide NoRepeats;
  }

  lemma DropBalanced(kinds: Kinds, w: World, x: Item, c: Item)
    requires Linked(w) && Linked(w - {x}) && x in w && w[x].parent == null && c in w && c != x && Balanced(kinds, w, c)
    ensures Balanced(kinds, w - {x}, c)
  {
    hide NoRepeats, OwnWeight;
    SumWithout(kinds, w, w - {x}, w[c].list);
  }

  // A new empty thing may be created.
  lemma NewSound(kinds: Kinds, w: World, x: Item, c: Cell)
    requires Sound(kinds, w) && x !in w && c.parent == null && c.list == [] && c.total == 0
    ensures Sound(kinds, w[x := c])
  {
    hide OwnWeight;
    var v := w[x := c];
    var n: nat :| AllGrounded(w, n);
    forall y <- v ensures Grounded(v, y, n + 1) {
      if y != x {
        CutGrounded(w, v, y, n);
        GroundedMore(v, y, n, n + 1);
      }
    }
    assert AllGrounded(v, n + 1);
    assert Linked(v);
    forall k <- v ensures Balanced(kinds, v, k) {
      if k != x {
        assert Balanced(kinds, w, k);
        SumWithout(kinds, w, v, w[k].list);
      }
    }
  }

  // ---------- Game::internalMoveItem ----------

  // Where the destination queries lead: to the container itself, or to one nearby, without flags.
  function Destined(kinds: Kinds, w: World, to: Item, index: int, x: Item, flags: Flags): (Item, int, Item?, Flags)
    requires to in w && x in w
  {
    var (c, at, onto) := Destination(kinds, w, to, index, x, flags);
    if c == to || c !in w then (to, at, onto, flags)
    else
      var (_, at', onto') := Destination(kinds, w, c, at, x, NO_FLAGS);
      (c, at', onto', NO_FLAGS)
  }

  // How much of `m` units of `x` goes onto the stack `onto`.
  function Merged(w: World, onto: Item?, x: Item, m: nat): (n: nat)
    requires x in w
    ensures n <= m
  {
    if onto == null || onto !in w || w[onto].id != w[x].id then 0
    else if 100 - w[onto].count < 0 then 0 else if 100 - w[onto].count < m then 100 - w[onto].count else m
  }

  // The stack `x`, `m` units lighter, with `n` of them on the stack `onto` in `dest`; `x` is gone when nothing is left.
  ghost function Taken(kinds: Kinds, w: World, from: Item, dest: Item, onto: Item?, x: Item, m: nat): World
    requires from in w && dest in w && x in w
  {
    var w1 := Removed(kinds, w, from, x, m);
    var w2 :=
      if onto == null || onto !in w || w[onto].id != w[x].id then w1
      else Updated(kinds, w1, dest, onto, w1[onto].id, w1[onto].count + Merged(w1, onto, x, m));
    if w2[x].parent == null then w2 - {x} else w2
  }

  // What a move that all queries allow does; a stack that does not fit onto `onto` is created as `made`.
  ghost function Committed(kinds: Kinds, w: World, from: Item, dest: Item, index: int, onto: Item?, x: Item, m: nat, made: Item): World
    requires from in w && dest in w && x in w
  {
    if !kinds(w[x].id).stackable then
      Added(kinds, Removed(kinds, w, from, x, m), dest, index, x)
    else
      var v := Taken(kinds, w, from, dest, onto, x, m);
      var rest := m - Merged(w, onto, x, m);
      if rest == 0 || dest == x then v
      else Added(kinds, v[made := Cell(w[x].id, rest, null, [], 0)], dest, index, made)
  }

  // What the queries of internalMoveItem lead to: it stops with an answer, or `m` units of the thing go into `dest`.
  datatype Plan = Stop(answer: ReturnValue) | Go(dest: Item, at: int, onto: Item?, m: nat, answer: ReturnValue)

  ghost function PlanMove(kinds: Kinds, w: World, from: Item, to: Item, index: int, x: Item, count: nat, flags: Flags): (p: Plan)
    requires from in w && to in w && x in w
    ensures p.Go? ==> p.dest in w
  {
    var (dest, at, onto, fl) := Destined(kinds, w, to, index, x, flags);
    if onto == x then Stop(NoError)
    else
      var q := AddAnswer(kinds, w, dest, at, x, fl);
      if q != NoError then Stop(q)
      else
        var (qm, most) := MaxCount(kinds, w, dest, at, x, count, fl);
        if qm != NoError && most == 0 then Stop(qm)
        else
          var m := if kinds(w[x].id).stackable && count < most then count else most;
          var qr := RemoveAnswer(kinds, w, from, x, m, fl);
          if qr != NoError then Stop(qr)
          else Go(dest, at, onto, m, if kinds(w[x].id).stackable && most < count then qm else NoError)
  }

  // The whole of internalMoveItem: the world it leaves
  ghost function Moved(kinds: Kinds, w: World, from: Item, to: Item, index: int, x: Item, count: nat, flags: Flags, made: Item): World
    requires from in w && to in w && x in w
  {
    var p := PlanMove(kinds, w, from, to, index, x, count, flags);
    if p.Stop? then w else Committed(kinds, w, from, p.dest, p.at, p.onto, x, p.m, made)
  }

  // What the queries grant: `x` lies in `from` and may join `dest`, and the room is there.
  ghost predicate Granted(kinds: Kinds, w: World, from: Item, dest: Item, at: int, onto: Item?, x: Item, m: nat) {
    && Good(kinds, w) && from in w && dest in w && x in w && x in w[from].list && m > 0
    && dest.isContainer && dest != x && !Inside(w, x, dest) && (at >= dest.maxSize ==> kinds(w[x].id).stackable)
    && (onto != null ==> onto != x && onto in w[dest].list)
    && (kinds(w[x].id).stackable ==> m <= w[x].count)
  }

  // ---------- a whole item moves ----------

  lemma MoveWhole(kinds: Kinds, w: World, from: Item, dest: Item, at: int, onto: Item?, x: Item, m: nat)
    requires Granted(kinds, w, from, dest, at, onto, x, m) && !kinds(w[x].id).stackable
    ensures var v := Added(kinds, Removed(kinds, w, from, x, m), dest, at, x);
      && Good(kinds, v) && v.Keys == w.Keys
      && v[x].parent == dest && v[dest].list == [x] + Without(w[dest].list, x)
      && (forall y <- w :: v[y].id == w[y].id && v[y].count == w[y].count && (y != x ==> v[y].parent == w[y].parent))
      && (forall y <- w :: y != dest ==> v[y].list == Without(w[y].list, x))
  {
    hide Push, Linked, Acyclic, AllBalanced, Inside, Removed, Added, Without, Index, Weight, NoRepeats;
    var w1 := Removed(kinds, w, from, x, m);
    RemoveSound(kinds, w, from, x, m);
    WholeLoose(kinds, w, from, x, m);
    if Inside(w1, x, dest) { CutInside(w, w1, x, dest); }
    AddSound(kinds, w1, dest, at, x);
  }

  // A list without `x`.
  function Without(xs: seq<Item>, x: Item): seq<Item> {
    if Index(xs, x) == -1 then xs else xs[..Index(xs, x)] + xs[Index(xs, x) + 1..]
  }

  lemma WholeLoose(kinds: Kinds, w: World, from: Item, x: Item, m: nat)
    requires Sound(kinds, w) && from in w && x in w && x in w[from].list
    requires !kinds(w[x].id).stackable || m == w[x].count
    ensures var v := Removed(kinds, w, from, x, m);
      && v.Keys == w.Keys && v[x].parent == null
      && forall y <- w :: v[y].id == w[y].id && v[y].count == w[y].count && v[y].list == Without(w[y].list, x)
                       && (y != x ==> v[y].parent == w[y].parent)
  {
    hide Push, Acyclic, AllBalanced;
    RemoveSound(kinds, w, from, x, m);
    NotOwnParent(w, from, Height(w));
  }

  // ---------- a stack moves ----------

  // The world `v` that is left of `w` when `m` units of `x` are taken away and some of them put onto `onto`.
  ghost predicate StackTaken(w: World, v: World, onto: Item?, x: Item, m: nat)
    requires x in w && m <= w[x].count
  {
    && v.Keys == (if m == w[x].count then w.Keys - {x} else w.Keys)
    && forall y <- v ::
      && v[y].id == w[y].id && v[y].parent == w[y].parent
      && v[y].list == (if m == w[x].count then Without(w[y].list, x) else w[y].list)
      && v[y].count == w[y].count + (if y == onto then Merged(w, onto, x, m) else 0) - (if y == x then m else 0)
  }

  // Only the count of `x` changes, or `x` becomes loose.
  lemma TakeFrom(kinds: Kinds, w: World, from: Item, x: Item, m: nat)
    requires Sound(kinds, w) && from in w && x in w && x in w[from].list && kinds(w[x].id).stackable && m <= w[x].count
    ensures var v := Removed(kinds, w, from, x, m);
      && Sound(kinds, v) && v.Keys == w.Keys
      && forall y <- v ::
        && v[y].id == w[y].id && v[y].parent == (if y == x && m == w[x].count then null else w[y].parent)
        && v[y].list == (if m == w[x].count then Without(w[y].list, x) else w[y].list)
        && v[y].count == w[y].count - (if y == x && m < w[x].count then m else 0)
  {
    hide Push, Acyclic, AllBalanced, Linked, Without, Index;
    RemoveSound(kinds, w, from, x, m);
    if m == w[x].count {
      WholeLoose(kinds, w, from, x, m);
    }
  }

  lemma PutOnto(kinds: Kinds, w: World, dest: Item, onto: Item, n: nat)
    requires Sound(kinds, w) && dest in w && onto in w && onto in w[dest].list
    requires kinds(w[onto].id).stackable && !kinds(w[onto].id).fluid && w[onto].count + n <= 100
    ensures var v := Updated(kinds, w, dest, onto, w[onto].id, w[onto].count + n);
      && Sound(kinds, v) && v.Keys == w.Keys
      && forall y <- v ::
        && v[y].id == w[y].id && v[y].parent == w[y].parent && v[y].list == w[y].list
        && v[y].count == w[y].count + (if y == onto then n else 0)
  {
    hide Push, Acyclic, AllBalanced, Linked;
    UpdateSound(kinds, w, dest, onto, w[onto].id, w[onto].count + n);
  }

  lemma StillIn(xs: seq<Item>, x: Item, k: Item)
    requires k in xs && k != x
    ensures k in Without(xs, x)
  {
    if x in xs {
      assert xs == xs[..Index(xs, x)] + [x] + xs[Index(xs, x) + 1..];
    }
  }

  // The second step: what fits goes onto `onto`.
  lemma Stacked(kinds: Kinds, w: World, w1: World, dest: Item, onto: Item?, x: Item, m: nat)
    requires x in w && w1.Keys == w.Keys && dest in w && Sound(kinds, w1) && kinds(w[x].id).stackable && StacksFit(kinds, w)
    requires onto != null ==> onto != x && onto in w && onto in w1[dest].list
    requires onto != null ==> w1[onto].id == w[onto].id && w1[onto].count == w[onto].count
    requires w1[x].id == w[x].id
    ensures Merged(w1, onto, x, m) == Merged(w, onto, x, m)
    ensures
      var w2 := if onto == null || onto !in w || w[onto].id != w[x].id then w1
                else Updated(kinds, w1, dest, onto, w1[onto].id, w1[onto].count + Merged(w1, onto, x, m));
      && Sound(kinds, w2) && w2.Keys == w.Keys
      && forall y <- w2 ::
        && w2[y].id == w1[y].id && w2[y].parent == w1[y].parent && w2[y].list == w1[y].list
        && w2[y].count == w1[y].count + (if y == onto then Merged(w, onto, x, m) else 0)
  {
    hide Sound, Updated;
    if onto != null && w[onto].id == w[x].id {
      assert StackFits(kinds, onto, w[onto]);
      PutOnto(kinds, w1, dest, onto, Merged(w1, onto, x, m));
    }
  }

  lemma StackFacts(kinds: Kinds, w: World, from: Item, dest: Item, at: int, onto: Item?, x: Item, m: nat)
    requires Granted(kinds, w, from, dest, at, onto, x, m) && kinds(w[x].id).stackable
    ensures w[x].parent == from && Without(w[x].list, x) == [] && (onto != null ==> onto in w)
  {
    assert StackFits(kinds, x, w[x]);
  }

  lemma TakenGood(kinds: Kinds, w: World, from: Item, dest: Item, at: int, onto: Item?, x: Item, m: nat)
    requires Granted(kinds, w, from, dest, at, onto, x, m) && kinds(w[x].id).stackable
    ensures var v := Taken(kinds, w, from, dest, onto, x, m);
      Good(kinds, v) && dest in v && StackTaken(w, v, onto, x, m)
  {
    hide Linked, Inside, Acyclic, AllBalanced, Updated, Removed, Without, Merged, StacksFit;
    StackFacts(kinds, w, from, dest, at, onto, x, m);
    var w1 := Removed(kinds, w, from, x, m);
    TakeFrom(kinds, w, from, x, m);
    if onto != null {
      StillIn(w[dest].list, x, onto);
    }
    Stacked(kinds, w, w1, dest, onto, x, m);
    var w2 := if onto == null || onto !in w || w[onto].id != w[x].id then w1
              else Updated(kinds, w1, dest, onto, w1[onto].id, w1[onto].count + Merged(w1, onto, x, m));
    if w2[x].parent == null {
      DropSound(kinds, w2, x);
    }
    TakenFits(kinds, w, Taken(kinds, w, from, dest, onto, x, m), onto, x, m);
  }

  lemma TakenFits(kinds: Kinds, w: World, v: World, onto: Item?, x: Item, m: nat)
    requires StacksFit(kinds, w) && x in w && kinds(w[x].id).stackable && m <= w[x].count && StackTaken(w, v, onto, x, m)
    requires onto != x
    ensures StacksFit(kinds, v)
  {
    hide Without;
    forall y <- v ensures StackFits(kinds, y, v[y]) {
      assert StackFits(kinds, y, w[y]);
    }
  }

  lemma {:induction false} EmptyAroundNothing(w: World, a: Item, x: Item, n: nat)
    requires Linked(w) && a in w && w[a].list == []
    ensures !AroundIn(w, a, x, n)
  {
    if n > 0 && x in w && w[x].parent != null {
      assert x in w[w[x].parent].list;
      EmptyAroundNothing(w, a, w[x].parent, n - 1);
    }
  }

  lemma EmptyHoldsNothing(w: World, a: Item, x: Item)
    requires Linked(w) && a in w && w[a].list == []
    ensures !Inside(w, a, x)
  {
    if Inside(w, a, x) {
      var n: nat :| AroundIn(w, a, x, n);
      EmptyAroundNothing(w, a, x, n);
    }
  }

  lemma NewJoins(kinds: Kinds, w: World, dest: Item, made: Item, c: Cell)
    requires Sound(kinds, w) && dest in w && dest.isContainer && made !in w
    requires c.parent == null && c.list == [] && c.total == 0
    ensures CanJoin(kinds, w[made := c], dest, made)
  {
    hide Acyclic, AllBalanced, NoRepeats;
    var v := w[made := c];
    NewSound(kinds, w, made, c);
    EmptyHoldsNothing(v, made, dest);
  }

  // A new stack is put into `dest`; at an index beyond the capacity __addThing leaves it lying nowhere.
  lemma NewStack(kinds: Kinds, w: World, dest: Item, at: int, made: Item, id: nat, rest: nat)
    requires Good(kinds, w) && dest in w && dest.isContainer
    requires made !in w && !made.isContainer && 1 <= rest <= 100 && !kinds(id).fluid
    ensures var v := Added(kinds, w[made := Cell(id, rest, null, [], 0)], dest, at, made);
      && Good(kinds, v) && v.Keys == w.Keys + {made}
      && v[made].id == id && v[made].count == rest && v[made].list == []
      && v[made].parent == (if at < dest.maxSize then dest else null)
      && forall y <- w ::
        && v[y].id == w[y].id && v[y].count == w[y].count && v[y].parent == w[y].parent
        && v[y].list == if y == dest && at < dest.maxSize then [made] + w[y].list else w[y].list
  {
    hide Sound, Added, Inside;
    var w1 := w[made := Cell(id, rest, null, [], 0)];
    NewJoins(kinds, w, dest, made, Cell(id, rest, null, [], 0));
    AddSound(kinds, w1, dest, at, made);
    assert StacksFit(kinds, w1);
  }

  // What a move of `m` units of the stack `x` leaves of `w`: what did not fit onto `onto` is the new stack `made`.
  ghost predicate StackMoved(w: World, v: World, dest: Item, at: int, onto: Item?, x: Item, m: nat, made: Item)
    requires x in w && m <= w[x].count
  {
    var rest := m - Merged(w, onto, x, m);
    && v.Keys == (if m == w[x].count then w.Keys - {x} else w.Keys) + (if rest > 0 then {made} else {})
    && (rest > 0 ==> v[made] == Cell(w[x].id, rest, if at < dest.maxSize then dest else null, [], v[made].total))
    && forall y <- v | y in w ::
      && v[y].id == w[y].id && v[y].parent == w[y].parent
      && v[y].list == (var list := if m == w[x].count then Without(w[y].list, x) else w[y].list;
                       if y == dest && at < dest.maxSize && rest > 0 then [made] + list else list)
      && v[y].count == w[y].count + (if y == onto then Merged(w, onto, x, m) else 0) - (if y == x then m else 0)
  }

  lemma MoveStack(kinds: Kinds, w: World, from: Item, dest: Item, at: int, onto: Item?, x: Item, m: nat, made: Item)
    requires Granted(kinds, w, from, dest, at, onto, x, m) && kinds(w[x].id).stackable
    requires Merged(w, onto, x, m) < m ==> made !in w && !made.isContainer
    ensures var v := Committed(kinds, w, from, dest, at, onto, x, m, made);
      Good(kinds, v) && StackMoved(w, v, dest, at, onto, x, m, made)
  {
    hide Sound, Taken, Added, Without, Merged, Inside, StacksFit;
    TakenGood(kinds, w, from, dest, at, onto, x, m);
    StackOf(kinds, w, x);
    if Merged(w, onto, x, m) < m {
      NewStack(kinds, Taken(kinds, w, from, dest, onto, x, m), dest, at, made, w[x].id, m - Merged(w, onto, x, m));
    }
  }

  lemma StackOf(kinds: Kinds, w: World, x: Item)
    requires StacksFit(kinds, w) && x in w
    ensures StackFits(kinds, x, w[x])
  {}

  // ---------- what the queries allow can be done ----------

  // There is a place for every unit that does not fit onto `onto`.
  predicate Room(kinds: Kinds, w: World, dest: Item, onto: Item?, x: Item, m: nat)
    requires x in w && dest in w
  {
    (kinds(w[x].id).stackable ==> Merged(w, onto, x, m) < m) ==> |w[dest].list| < dest.maxSize
  }

  lemma HopFacts(kinds: Kinds, w: World, to: Item, index: int, x: Item, flags: Flags)
    requires Linked(w) && to in w && to.isContainer && x in w
    ensures var (dest, at, onto) := Destination(kinds, w, to, index, x, flags);
      && dest in w && dest.isContainer && (dest == to || w[to].parent == dest || w[dest].parent == to)
      && (dest != to ==> at == INDEX_WHEREEVER)
      && (dest == to && to.unlocked ==>
            && (if 0 <= at < |w[to].list| then onto == w[to].list[at] else onto == null)
            && (at >= to.maxSize ==> kinds(w[x].id).stackable && onto != null && Mergeable(w, onto, x))
            && (onto != null ==> !onto.isContainer || kinds(w[x].id).stackable))
  {
    hide Linked, Mergeable;
    Around(w, to);
  }

  lemma Around(w: World, c: Item)
    requires Linked(w) && c in w
    ensures w[c].parent != null ==> w[c].parent in w && w[c].parent.isContainer
    ensures forall k <- w[c].list :: k in w && w[k].parent == c
  {}

  lemma DestinedFacts(kinds: Kinds, w: World, to: Item, index: int, x: Item, flags: Flags)
    requires Linked(w) && to in w && to.isContainer && x in w
    ensures var (dest, at, onto, fl) := Destined(kinds, w, to, index, x, flags);
      && dest in w && dest.isContainer && (dest == to || w[to].parent == dest || w[dest].parent == to)
      && (fl == flags || fl == NO_FLAGS)
      && (dest.unlocked ==>
            && (if 0 <= at < |w[dest].list| then onto == w[dest].list[at] else onto == null)
            && (at >= dest.maxSize ==> kinds(w[x].id).stackable && onto != null))
  {
    hide Linked, Destination;
    var (c, at, onto) := Destination(kinds, w, to, index, x, flags);
    HopFacts(kinds, w, to, index, x, flags);
    if c != to {
      SettlesAt(kinds, w, c, x, NO_FLAGS);
      HopFacts(kinds, w, c, INDEX_WHEREEVER, x, NO_FLAGS);
    }
  }

  // A container that is asked for any place answers with itself: one hop is enough.
  lemma SettlesAt(kinds: Kinds, w: World, c: Item, x: Item, flags: Flags)
    requires c in w && x in w
    ensures Destination(kinds, w, c, INDEX_WHEREEVER, x, flags).0 == c
  {}

  lemma PlanGranted(kinds: Kinds, w: World, from: Item, to: Item, index: int, x: Item, count: nat, flags: Flags)
    requires Good(kinds, w) && from in w && to in w && x in w && to.isContainer && !flags.childIsOwner
    requires PlanMove(kinds, w, from, to, index, x, count, flags).Go?
    ensures var p := PlanMove(kinds, w, from, to, index, x, count, flags);
      && Granted(kinds, w, from, p.dest, p.at, p.onto, x, p.m)
      && (p.dest == to || w[to].parent == p.dest || w[p.dest].parent == to)
      && (kinds(w[x].id).stackable ==> p.m <= count)
      && (!flags.noLimit ==> Room(kinds, w, p.dest, p.onto, x, p.m))
  {
    hide Linked, Acyclic, AllBalanced, Inside, Destined, StackRoom;
    DestinedFacts(kinds, w, to, index, x, flags);
    StackOf(kinds, w, x);
    var p := PlanMove(kinds, w, from, to, index, x, count, flags);
    if p.onto != null {
      OntoIn(w, p.dest, p.at);
    }
  }

  lemma OntoIn(w: World, c: Item, i: int)
    requires Linked(w) && c in w && 0 <= i < |w[c].list|
    ensures w[c].list[i] in w
  {}

  // ---------- the main results about moves ----------

  // Counts change on `onto` and on `x` only.
  lemma UnitsShift(w: World, v: World, onto: Item?, n: nat, x: Item, m: nat, id: nat)
    requires w.Keys == v.Keys && onto != x && (onto == null || onto !in w ==> n == 0)
    requires forall y <- v :: v[y].id == w[y].id
    requires forall y <- v :: v[y].count == w[y].count + (if y == onto then n else 0) - (if y == x then m else 0)
    ensures Units(v, id) == Units(w, id)
      + (if n > 0 && w[onto].id == id then n else 0) - (if x in w && w[x].id == id then m else 0)
  {
    hide Units;
    var u := if n > 0 then v[onto := w[onto]] else v;
    if n > 0 {
      UnitsChange(v, u, onto, id);
    }
    if x in w {
      UnitsChange(w, u, x, id);
    } else {
      UnitsSame(w, u, id);
    }
  }

  lemma UnitsMoved(w: World, v: World, dest: Item, at: int, onto: Item?, x: Item, m: nat, made: Item, id: nat)
    requires x in w && 0 < m <= w[x].count && StackMoved(w, v, dest, at, onto, x, m, made)
    requires onto != x && (onto != null ==> onto in w) && (Merged(w, onto, x, m) < m ==> made !in w)
    ensures Units(v, id) == Units(w, id)
  {
    hide Without, UnitsOf;
    var w0 := if m == w[x].count then w - {x} else w;
    var v0 := if Merged(w, onto, x, m) < m then v - {made} else v;
    assert w0.Keys == v0.Keys;
    UnitsShift(w0, v0, onto, Merged(w, onto, x, m), x, m, id);
    UnitsAside(w, w0, x, if m == w[x].count then m else 0, id);
    UnitsAside(v, v0, made, m - Merged(w, onto, x, m), id);
  }

  lemma UnitsAside(w: World, v: World, x: Item, m: nat, id: nat)
    requires if m > 0 then x in w && v == w - {x} && w[x].count == m else v == w
    ensures Units(w, id) == Units(v, id) + if m > 0 && w[x].id == id then m else 0
  {
    if m > 0 {
      UnitsTake(w, x, id);
    }
  }

  // No container holds more than it may, or than it held.
  predicate NoOverflow(w: World, v: World) {
    forall c <- v :: |v[c].list| <= c.maxSize || (c in w && |v[c].list| <= |w[c].list|)
  }

  lemma NothingOverflows(w: World)
    ensures NoOverflow(w, w)
  {}

  // Some of the stack `x` needs a new stack.
  predicate Splits(kinds: Kinds, w: World, p: Plan, x: Item)
    requires x in w
  {
    p.Go? && kinds(w[x].id).stackable && Merged(w, p.onto, x, p.m) < p.m
  }

  // A move leaves a sound world with every unit of every kind still there, and overfills no container.
  lemma MoveKeeps(kinds: Kinds, w: World, from: Item, to: Item, index: int, x: Item, count: nat, flags: Flags, made: Item)
    requires Good(kinds, w) && from in w && to in w && x in w && to.isContainer && !flags.childIsOwner
    requires Splits(kinds, w, PlanMove(kinds, w, from, to, index, x, count, flags), x) ==> made !in w && !made.isContainer
    ensures var v := Moved(kinds, w, from, to, index, x, count, flags, made);
      && Good(kinds, v)
      && (forall id :: Units(v, id) == Units(w, id))
      && (!flags.noLimit ==> NoOverflow(w, v))
  {
    hide Good, Granted, PlanMove, StackMoved, Without, Linked, Inside, Sound;
    var p := PlanMove(kinds, w, from, to, index, x, count, flags);
    if p.Go? {
      PlanGranted(kinds, w, from, to, index, x, count, flags);
      CommitKeeps(kinds, w, from, p.dest, p.at, p.onto, x, p.m, made);
    }
  }

  lemma CommitKeeps(kinds: Kinds, w: World, from: Item, dest: Item, at: int, onto: Item?, x: Item, m: nat, made: Item)
    requires Granted(kinds, w, from, dest, at, onto, x, m)
    requires kinds(w[x].id).stackable && Merged(w, onto, x, m) < m ==> made !in w && !made.isContainer
    ensures var v := Committed(kinds, w, from, dest, at, onto, x, m, made);
      && Good(kinds, v)
      && (forall id :: Units(v, id) == Units(w, id))
      && (Room(kinds, w, dest, onto, x, m) ==> NoOverflow(w, v))
  {
    hide Inside, Good, Room, Taken, Merged, StackMoved, NoOverflow, Removed, Added, Linked, Without;
    var v := Committed(kinds, w, from, dest, at, onto, x, m, made);
    if kinds(w[x].id).stackable {
      MoveStack(kinds, w, from, dest, at, onto, x, m, made);
      StackFacts(kinds, w, from, dest, at, onto, x, m);
      forall id ensures Units(v, id) == Units(w, id) {
        UnitsMoved(w, v, dest, at, onto, x, m, made, id);
      }
      if Room(kinds, w, dest, onto, x, m) {
        StackNoOverflow(kinds, w, v, dest, at, onto, x, m, made);
      }
    } else {
      MoveWhole(kinds, w, from, dest, at, onto, x, m);
      forall id ensures Units(v, id) == Units(w, id) {
        UnitsSame(w, v, id);
      }
      if Room(kinds, w, dest, onto, x, m) {
        WholeNoOverflow(kinds, w, v, dest, onto, x, m);
      }
    }
  }

  lemma WithoutShorter(xs: seq<Item>, x: Item)
    ensures |Without(xs, x)| <= |xs|
  {}

  lemma StackNoOverflow(kinds: Kinds, w: World, v: World, dest: Item, at: int, onto: Item?, x: Item, m: nat, made: Item)
    requires x in w && dest in w && kinds(w[x].id).stackable && m <= w[x].count
    requires StackMoved(w, v, dest, at, onto, x, m, made) && Room(kinds, w, dest, onto, x, m)
    ensures NoOverflow(w, v)
  {
    hide Without, Merged;
    forall c <- v ensures |v[c].list| <= c.maxSize || (c in w && |v[c].list| <= |w[c].list|) {
      if c in w {
        WithoutShorter(w[c].list, x);
      }
    }
  }

  lemma WholeNoOverflow(kinds: Kinds, w: World, v: World, dest: Item, onto: Item?, x: Item, m: nat)
    requires x in w && dest in w && !kinds(w[x].id).stackable && Room(kinds, w, dest, onto, x, m) && v.Keys == w.Keys
    requires v[dest].list == [x] + Without(w[dest].list, x)
    requires forall c <- w :: c != dest ==> v[c].list == Without(w[c].list, x)
    ensures NoOverflow(w, v)
  {
    hide Without, Merged;
    forall c <- v ensures |v[c].list| <= c.maxSize || (c in w && |v[c].list| <= |w[c].list|) {
      WithoutShorter(w[c].list, x);
    }
  }

  // The loop at the start of internalMoveItem
  method FindDestination(kinds: Kinds, toCylinder0: Item, index0: int, item: Item, flags0: Flags, ghost items: set<Item>)
    returns (toCylinder: Item, index: int, toItem: Item?, flags: Flags)
    requires Linked(Snap(items)) && toCylinder0 in items && item in items && toCylinder0.isContainer
    ensures (toCylinder, index, toItem, flags) == Destined(kinds, Snap(items), toCylinder0, index0, item, flags0)
  {
    hide Linked, Destination;
    ghost var w := Snap(items);
    toCylinder, index, flags := toCylinder0, index0, flags0;
    HopFacts(kinds, w, toCylinder0, index0, item, flags0);
    var floorN := 0;
    var subCylinder;
    subCylinder, index, toItem := toCylinder.QueryDestination(kinds, index, item, flags, items);
    while subCylinder != toCylinder
      invariant 0 <= floorN <= 1 && toCylinder in items && subCylinder in items
      invariant floorN == 0 ==> toCylinder == toCylinder0 && flags == flags0
      invariant floorN == 0 ==> (subCylinder, index, toItem) == Destination(kinds, w, toCylinder0, index0, item, flags0)
      invariant floorN == 1 ==> subCylinder == toCylinder != toCylinder0
      invariant floorN == 1 ==> (toCylinder, index, toItem, flags) == Destined(kinds, w, toCylinder0, index0, item, flags0)
      decreases MAP_MAX_LAYERS - floorN
    {
      toCylinder := subCylinder;
      flags := NO_FLAGS;
      floorN := floorN + 1;
      if floorN >= MAP_MAX_LAYERS {
        break;
      }
      SettlesAt(kinds, w, toCylinder, item, NO_FLAGS);
      subCylinder, index, toItem := toCylinder.QueryDestination(kinds, index, item, flags, items);
    }
  }

  // The stack that a move creates lies in the destination exactly when the index is below the capacity. Without
  // FLAG_NOLIMIT it always is; with it an overfull container can show a partial stack beyond its capacity.
  lemma SplitPlaced(kinds: Kinds, w: World, from: Item, to: Item, index: int, x: Item, count: nat, flags: Flags, made: Item)
    requires Good(kinds, w) && from in w && to in w && x in w && to.isContainer && !flags.childIsOwner
    requires Splits(kinds, w, PlanMove(kinds, w, from, to, index, x, count, flags), x) && made !in w && !made.isContainer
    ensures var p := PlanMove(kinds, w, from, to, index, x, count, flags);
      var v := Moved(kinds, w, from, to, index, x, count, flags, made);
      && made in v && (v[made].parent == p.dest <==> p.at < p.dest.maxSize)
      && (!flags.noLimit ==> p.at < p.dest.maxSize)
  {
    hide PlanMove, Committed, Merged, Sound, Inside;
    var p := PlanMove(kinds, w, from, to, index, x, count, flags);
    PlanGranted(kinds, w, from, to, index, x, count, flags);
    MoveStack(kinds, w, from, p.dest, p.at, p.onto, x, p.m, made);
    PlanIndex(kinds, w, from, to, index, x, count, flags);
  }

  lemma PlanIndex(kinds: Kinds, w: World, from: Item, to: Item, index: int, x: Item, count: nat, flags: Flags)
    requires Good(kinds, w) && from in w && to in w && x in w && to.isContainer && !flags.childIsOwner
    requires PlanMove(kinds, w, from, to, index, x, count, flags).Go?
    ensures var p := PlanMove(kinds, w, from, to, index, x, count, flags);
      p.at >= p.dest.maxSize ==> p.at < |w[p.dest].list|
  {
    hide Linked, Acyclic, AllBalanced, Inside, Destined, StackRoom, MaxCount;
    DestinedFacts(kinds, w, to, index, x, flags);
  }

  // ---------- where things land ----------

  // Where a thing that goes onto no stack is meant to go: 254 means up, a container at the index means into it, and
  // anything else means the container itself. Dropped onto itself it goes nowhere.
  predicate MeantFor(w: World, to: Item, index: int, x: Item, dest: Item)
    requires to in w
  {
    && to.unlocked
    && (index == 254 && w[to].parent != null ==> dest == w[to].parent)
    && (index == 254 && w[to].parent == null ==> dest == to)
    && (index !in {254, 255} && 0 <= index < to.maxSize && index < |w[to].list| && w[to].list[index].isContainer ==>
          dest == w[to].list[index])
    && (index !in {254, 255} && 0 <= index < to.maxSize && index < |w[to].list| && !w[to].list[index].isContainer ==>
          dest == to && w[to].list[index] != x)
    && (index == 255 || index < 0 || to.maxSize <= index || (|w[to].list| <= index && index != 254) ==> dest == to)
  }

  // The container may take the thing, which may be taken from where it lies.
  ghost predicate MayMove(kinds: Kinds, w: World, from: Item, x: Item, dest: Item) {
    && dest in w && x in w && from in w && x in w[from].list && dest.unlocked && x != dest && !Inside(w, x, dest)
    && kinds(w[x].id).pickupable && kinds(w[x].id).moveable
  }

  // A thing that does not stack lies in front in the container that it was meant for, if that has a free slot or, being
  // the one that was named, may take any number of things; and it lies nowhere else.
  ghost predicate WholeLands(kinds: Kinds, w: World, v: World, from: Item, to: Item, index: int, x: Item, dest: Item,
                             flags: Flags, ret: ReturnValue)
    requires to in w && x in w
  {
    !kinds(w[x].id).stackable && MeantFor(w, to, index, x, dest) && MayMove(kinds, w, from, x, dest)
    && (|w[dest].list| < dest.maxSize || (flags.noLimit && dest == to)) ==>
      && ret == NoError && x in v && dest in v && v[x].parent == dest
      && v[dest].list == [x] + Without(w[dest].list, x)
  }

  // The answer to moving a thing that does not stack, and that nothing changes unless it moves
  ghost predicate MoveAnswered(kinds: Kinds, w: World, v: World, from: Item, to: Item, index: int, x: Item, dest: Item,
                                flags: Flags, ret: ReturnValue)
    requires to in w && x in w && from in w && dest in w
  {
    !kinds(w[x].id).stackable && (MeantFor(w, to, index, x, dest) || (!to.unlocked && dest == to)) ==>
      && (ret != NoError ==> v == w)
      && ret == if !dest.unlocked then NotPossible
                else if !kinds(w[x].id).pickupable then CannotPickup
                else if x == dest || Inside(w, x, dest) then ThisIsImpossible
                else if dest.maxSize <= |w[dest].list| && !(flags.noLimit && dest == to) then ContainerNotEnoughRoom
                else if x !in w[from].list then NotPossible
                else if !kinds(w[x].id).moveable && !(flags.ignoreNotMoveable && dest == to) then NotMoveable
                else NoError
  }

  ghost predicate StackLandsThere(kinds: Kinds, w: World, from: Item, to: Item, index: int, x: Item, count: nat, dest: Item)
    requires to in w && x in w
  {
    && kinds(w[x].id).stackable && MeantFor(w, to, index, x, dest) && MayMove(kinds, w, from, x, dest)
    && |w[dest].list| < dest.maxSize && 1 <= count <= w[x].count
    && (forall k <- w[dest].list :: !Mergeable(w, k, x)) && (index != 254 ==> forall k <- w[to].list :: !Mergeable(w, k, x))
  }

  // A stack that finds no stack to go onto is a new stack in front in the container, as large as was asked for.
  ghost predicate StackLands(kinds: Kinds, w: World, v: World, from: Item, to: Item, index: int, x: Item, count: nat,
                             dest: Item, ret: ReturnValue, made: Item)
    requires to in w && x in w
  {
    StackLandsThere(kinds, w, from, to, index, x, count, dest) ==>
      && ret == NoError && made in v && dest in v && v[made].parent == dest && v[made].count == count && v[made].id == w[x].id
      && v[dest].list == [made] + (if count == w[x].count then Without(w[dest].list, x) else w[dest].list)
      && (if count == w[x].count then x !in v else x in v && v[x].count == w[x].count - count)
  }

  // A stack from elsewhere goes onto the first stack `k` with room. What that does not take is a new stack, if there is a
  // free slot; otherwise it stays where it was, and the answer says so.
  ghost predicate StackFills(kinds: Kinds, w: World, v: World, from: Item, to: Item, index: int, x: Item, count: nat,
                             flags: Flags, ret: ReturnValue, made: Item, i: nat)
    requires to in w && x in w && i < |w[to].list|
  {
    var k := w[to].list[i];
    StackFillsThere(kinds, w, from, to, index, x, count, flags, i) ==>
      var fits := if w[k].count + count <= 100 || |w[to].list| < to.maxSize then count else 100 - w[k].count;
      && k in v && v[k].count == (if w[k].count + count <= 100 then w[k].count + count else 100)
      && ret == (if fits == count then NoError else ContainerNotEnoughRoom)
      && (if fits == w[x].count then x !in v else x in v && v[x].count == w[x].count - fits)
      && (fits > 100 - w[k].count ==>
            made in v && v[made].parent == to && v[made].id == w[x].id && v[made].count == fits - (100 - w[k].count))
  }

  ghost predicate Lands(kinds: Kinds, w: World, v: World, from: Item, to: Item, index: int, x: Item, count: nat, flags: Flags,
                        ret: ReturnValue, made: Item)
    requires to in w && x in w
  {
    && (forall dest <- w :: WholeLands(kinds, w, v, from, to, index, x, dest, flags, ret))
    && (from in w ==> forall dest <- w :: MoveAnswered(kinds, w, v, from, to, index, x, dest, flags, ret))
    && (OntoItself(kinds, w, to, index, x) ==> ret == NoError && v == w)
    && (forall dest <- w :: StackLands(kinds, w, v, from, to, index, x, count, dest, ret, made))
    && (forall i :: 0 <= i < |w[to].list| ==> StackFills(kinds, w, v, from, to, index, x, count, flags, ret, made, i))
  }

  // A thing that does not stack is dropped where it lies.
  predicate OntoItself(kinds: Kinds, w: World, to: Item, index: int, x: Item)
    requires to in w && x in w
  {
    && to.unlocked && !kinds(w[x].id).stackable && !x.isContainer && index != 254 && index != 255
    && 0 <= index < to.maxSize && index < |w[to].list| && w[to].list[index] == x
  }

  lemma StaysPut(kinds: Kinds, w: World, from: Item, to: Item, index: int, x: Item, count: nat, flags: Flags)
    requires from in w && to in w && x in w && OntoItself(kinds, w, to, index, x)
    ensures PlanMove(kinds, w, from, to, index, x, count, flags) == Stop(NoError)
  {
    hide Destination;
    DestinationIs(kinds, w, to, index, x, flags);
  }

  lemma MeantDestined(kinds: Kinds, w: World, to: Item, index: int, x: Item, flags: Flags, dest: Item)
    requires Linked(w) && to in w && to.isContainer && x in w && dest in w && MeantFor(w, to, index, x, dest)
    requires kinds(w[x].id).stackable ==> forall k <- w[dest].list :: !Mergeable(w, k, x)
    requires kinds(w[x].id).stackable && index != 254 ==> forall k <- w[to].list :: !Mergeable(w, k, x)
    ensures var (c, at, onto, fl) := Destined(kinds, w, to, index, x, flags);
      && c == dest && (at < dest.maxSize || at == INDEX_WHEREEVER) && onto != x
      && (kinds(w[x].id).stackable && onto != null ==> !Mergeable(w, onto, x))
      && fl == if dest == to then flags else NO_FLAGS
  {
    hide Linked, Destination;
    Around(w, to);
    DestinationIs(kinds, w, to, index, x, flags);
    DestinationIs(kinds, w, dest, INDEX_WHEREEVER, x, NO_FLAGS);
  }

  lemma WholeMoves(kinds: Kinds, w: World, from: Item, to: Item, index: int, x: Item, count: nat, flags: Flags, made: Item,
                   dest: Item)
    requires Good(kinds, w) && from in w && to in w && x in w && to.isContainer && !flags.childIsOwner && dest in w
    ensures WholeLands(kinds, w, Moved(kinds, w, from, to, index, x, count, flags, made), from, to, index, x, dest, flags,
                       PlanMove(kinds, w, from, to, index, x, count, flags).answer)
  {
    hide Linked, Acyclic, AllBalanced, Inside, Destined, StackRoom, StacksFit, Added, Removed, Without, MeantFor;
    var free := |w[dest].list| < dest.maxSize || (flags.noLimit && dest == to);
    if !kinds(w[x].id).stackable && MeantFor(w, to, index, x, dest) && MayMove(kinds, w, from, x, dest) && free {
      MeantDestined(kinds, w, to, index, x, flags, dest);
      PlanGranted(kinds, w, from, to, index, x, count, flags);
      var p := PlanMove(kinds, w, from, to, index, x, count, flags);
      MoveWhole(kinds, w, from, p.dest, p.at, p.onto, x, p.m);
    }
  }

  lemma WholePlanned(kinds: Kinds, w: World, from: Item, to: Item, index: int, x: Item, count: nat, flags: Flags, made: Item,
                     dest: Item)
    requires Good(kinds, w) && from in w && to in w && x in w && to.isContainer && !flags.childIsOwner && dest in w
    ensures MoveAnswered(kinds, w, Moved(kinds, w, from, to, index, x, count, flags, made), from, to, index, x, dest, flags,
                          PlanMove(kinds, w, from, to, index, x, count, flags).answer)
  {
    hide Linked, Acyclic, AllBalanced, Inside, Destined, StackRoom, StacksFit, Committed, MeantFor;
    if !kinds(w[x].id).stackable && MeantFor(w, to, index, x, dest) {
      MeantDestined(kinds, w, to, index, x, flags, dest);
    } else if !to.unlocked {
      LockedDestined(kinds, w, to, index, x, flags);
    }
  }

  lemma LockedDestined(kinds: Kinds, w: World, to: Item, index: int, x: Item, flags: Flags)
    requires to in w && x in w && !to.unlocked
    ensures Destined(kinds, w, to, index, x, flags) == (to, index, null, flags)
  {}

  lemma PlanNew(kinds: Kinds, w: World, from: Item, to: Item, index: int, x: Item, count: nat, flags: Flags, dest: Item)
    requires Good(kinds, w) && from in w && to in w && x in w && to.isContainer && !flags.childIsOwner && dest in w
    requires StackLandsThere(kinds, w, from, to, index, x, count, dest)
    ensures var p := PlanMove(kinds, w, from, to, index, x, count, flags);
      p.Go? && p.dest == dest && p.m == count && p.answer == NoError && p.at < dest.maxSize && Merged(w, p.onto, x, count) == 0
  {
    hide Linked, Acyclic, AllBalanced, Inside, Destined, StackRoom, StacksFit, MeantFor;
    MeantDestined(kinds, w, to, index, x, flags, dest);
    StackOf(kinds, w, x);
  }

  lemma StackMoves(kinds: Kinds, w: World, from: Item, to: Item, index: int, x: Item, count: nat, flags: Flags, made: Item,
                   dest: Item)
    requires Good(kinds, w) && from in w && to in w && x in w && to.isContainer && !flags.childIsOwner && dest in w
    requires Splits(kinds, w, PlanMove(kinds, w, from, to, index, x, count, flags), x) ==> made !in w && !made.isContainer
    ensures StackLands(kinds, w, Moved(kinds, w, from, to, index, x, count, flags, made), from, to, index, x, count, dest,
                       PlanMove(kinds, w, from, to, index, x, count, flags).answer, made)
  {
    hide Good, Inside, PlanMove, Merged, Without, MeantFor, Mergeable, Committed, Granted, Linked;
    if StackLandsThere(kinds, w, from, to, index, x, count, dest) {
      PlanNew(kinds, w, from, to, index, x, count, flags, dest);
      PlanGranted(kinds, w, from, to, index, x, count, flags);
      var p := PlanMove(kinds, w, from, to, index, x, count, flags);
      MoveStack(kinds, w, from, p.dest, p.at, p.onto, x, p.m, made);
    }
  }

  ghost predicate StackFillsThere(kinds: Kinds, w: World, from: Item, to: Item, index: int, x: Item, count: nat, flags: Flags,
                                  i: nat)
    requires to in w && x in w && i < |w[to].list|
  {
    && kinds(w[x].id).stackable && to.unlocked && index != 254 && !flags.ignoreAutoStack && !flags.noLimit && from != to
    && MayMove(kinds, w, from, x, to) && 1 <= count <= w[x].count
    && Mergeable(w, w[to].list[i], x) && (forall j <- w[to].list[..i] :: !Mergeable(w, j, x))
  }

  lemma PlanFill(kinds: Kinds, w: World, from: Item, to: Item, index: int, x: Item, count: nat, flags: Flags, i: nat)
    requires Good(kinds, w) && from in w && to in w && x in w && to.isContainer && !flags.childIsOwner && i < |w[to].list|
    requires StackFillsThere(kinds, w, from, to, index, x, count, flags, i)
    ensures var p, k := PlanMove(kinds, w, from, to, index, x, count, flags), w[to].list[i];
      var fits := if w[k].count + count <= 100 || |w[to].list| < to.maxSize then count else 100 - w[k].count;
      && p == Go(to, i, k, fits, if fits == count then NoError else ContainerNotEnoughRoom)
      && Merged(w, k, x, fits) == if w[k].count + count <= 100 then count else 100 - w[k].count
  {
    hide Acyclic, AllBalanced, Inside, StackRoom, StacksFit, Destination;
    StackOf(kinds, w, x);
    StackOf(kinds, w, w[to].list[i]);
    FillDestined(kinds, w, from, to, index, x, count, flags, i);
  }

  lemma FillDestined(kinds: Kinds, w: World, from: Item, to: Item, index: int, x: Item, count: nat, flags: Flags, i: nat)
    requires Linked(w) && from in w && to in w && x in w && i < |w[to].list|
    requires StackFillsThere(kinds, w, from, to, index, x, count, flags, i)
    ensures Destination(kinds, w, to, index, x, flags) == (to, i, w[to].list[i])
  {
    hide Inside, NoRepeats, Destination;
    DestinationIs(kinds, w, to, index, x, flags);
    var (dest, at, onto) := Destination(kinds, w, to, index, x, flags);
    assert w[to].list[i] in w[to].list;
  }

  lemma StackJoins(kinds: Kinds, w: World, from: Item, to: Item, index: int, x: Item, count: nat, flags: Flags, made: Item,
                   i: nat)
    requires Good(kinds, w) && from in w && to in w && x in w && to.isContainer && !flags.childIsOwner && i < |w[to].list|
    requires Splits(kinds, w, PlanMove(kinds, w, from, to, index, x, count, flags), x) ==> made !in w && !made.isContainer
    ensures StackFills(kinds, w, Moved(kinds, w, from, to, index, x, count, flags, made), from, to, index, x, count, flags,
                       PlanMove(kinds, w, from, to, index, x, count, flags).answer, made, i)
  {
    hide Good, Inside, PlanMove, Merged, Without, Committed, Granted, Linked;
    if StackFillsThere(kinds, w, from, to, index, x, count, flags, i) {
      PlanFill(kinds, w, from, to, index, x, count, flags, i);
      PlanGranted(kinds, w, from, to, index, x, count, flags);
      PlanIndex(kinds, w, from, to, index, x, count, flags);
      MoveStack(kinds, w, from, to, i, w[to].list[i], x, PlanMove(kinds, w, from, to, index, x, count, flags).m, made);
    }
  }

  lemma StopsHere(kinds: Kinds, w: World, from: Item, to: Item, index: int, x: Item, count: nat, flags: Flags, made: Item)
    requires from in w && to in w && x in w && PlanMove(kinds, w, from, to, index, x, count, flags).Stop?
    ensures Moved(kinds, w, from, to, index, x, count, flags, made) == w
  {
    hide PlanMove;
  }

  lemma MoveLands(kinds: Kinds, w: World, from: Item, to: Item, index: int, x: Item, count: nat, flags: Flags, made: Item)
    requires Good(kinds, w) && from in w && to in w && x in w && to.isContainer && !flags.childIsOwner
    requires Splits(kinds, w, PlanMove(kinds, w, from, to, index, x, count, flags), x) ==> made !in w && !made.isContainer
    ensures Lands(kinds, w, Moved(kinds, w, from, to, index, x, count, flags, made), from, to, index, x, count, flags,
                  PlanMove(kinds, w, from, to, index, x, count, flags).answer, made)
  {
    hide Good, PlanMove, Moved, Splits, WholeLands, MoveAnswered, StackLands, StackFills;
    forall dest <- w
      ensures WholeLands(kinds, w, Moved(kinds, w, from, to, index, x, count, flags, made), from, to, index, x, dest, flags,
                         PlanMove(kinds, w, from, to, index, x, count, flags).answer)
      ensures MoveAnswered(kinds, w, Moved(kinds, w, from, to, index, x, count, flags, made), from, to, index, x, dest, flags,
                            PlanMove(kinds, w, from, to, index, x, count, flags).answer)
      ensures StackLands(kinds, w, Moved(kinds, w, from, to, index, x, count, flags, made), from, to, index, x, count, dest,
                         PlanMove(kinds, w, from, to, index, x, count, flags).answer, made)
    {
      WholeMoves(kinds, w, from, to, index, x, count, flags, made, dest);
      WholePlanned(kinds, w, from, to, index, x, count, flags, made, dest);
      StackMoves(kinds, w, from, to, index, x, count, flags, made, dest);
    }
    if OntoItself(kinds, w, to, index, x) {
      StaysPut(kinds, w, from, to, index, x, count, flags);
      StopsHere(kinds, w, from, to, index, x, count, flags, made);
    }
    forall i | 0 <= i < |w[to].list|
      ensures StackFills(kinds, w, Moved(kinds, w, from, to, index, x, count, flags, made), from, to, index, x, count, flags,
                         PlanMove(kinds, w, from, to, index, x, count, flags).answer, made, i)
    {
      StackJoins(kinds, w, from, to, index, x, count, flags, made, i);
    }
  }

  // The first half of internalMoveItem: nothing but queries.
  method AskMove(kinds: Kinds, fromCylinder: Item, toCylinder0: Item, index0: int, item: Item, count: nat, flags0: Flags,
                 ghost items: set<Item>)
    returns (plan: Plan)
    requires Linked(Snap(items)) && Acyclic(Snap(items)) && toCylinder0.isContainer
    requires fromCylinder in items && toCylinder0 in items && item in items
    ensures plan == PlanMove(kinds, Snap(items), fromCylinder, toCylinder0, index0, item, count, flags0)
  {
    hide Linked, Acyclic, Destined, AddAnswer, MaxCount, RemoveAnswer;
    DestinedFacts(kinds, Snap(items), toCylinder0, index0, item, flags0);
    var toCylinder, index, toItem, flags := FindDestination(kinds, toCylinder0, index0, item, flags0, items);
    if item == toItem {
      return Stop(NoError);
    }
    var ret := toCylinder.QueryAdd(kinds, index, item, flags, items);
    if ret != NoError {
      return Stop(ret);
    }
    var retMaxCount, maxQueryCount := toCylinder.QueryMaxCount(kinds, index, item, count, flags, items);
    if retMaxCount != NoError && maxQueryCount == 0 {
      return Stop(retMaxCount);
    }
    var m := if kinds(item.id).stackable && count < maxQueryCount then count else maxQueryCount;
    ret := fromCylinder.QueryRemove(kinds, item, m, flags, items);
    if ret != NoError {
      return Stop(ret);
    }
    plan := Go(toCylinder, index, toItem, m,
               if kinds(item.id).stackable && maxQueryCount < count then retMaxCount else NoError);
  }

  // Game::internalMoveItem between containers. `alive` are the items there are afterwards.
  method InternalMoveItem(kinds: Kinds, fromCylinder: Item, toCylinder: Item, index: int, item: Item, count: nat,
                          flags: Flags, ghost items: set<Item>)
    returns (ret: ReturnValue, moveItem: Item, ghost alive: set<Item>)
    requires Good(kinds, Snap(items)) && !flags.childIsOwner
    requires fromCylinder in items && toCylinder in items && item in items && toCylinder.isContainer
    modifies items
    ensures Snap(alive) == Moved(kinds, old(Snap(items)), fromCylinder, toCylinder, index, item, count, flags, moveItem)
    ensures ret == PlanMove(kinds, old(Snap(items)), fromCylinder, toCylinder, index, item, count, flags).answer
    ensures Lands(kinds, old(Snap(items)), Snap(alive), fromCylinder, toCylinder, index, item, count, flags, ret, moveItem)
    ensures Good(kinds, Snap(alive))
    ensures forall id :: Units(Snap(alive), id) == Units(old(Snap(items)), id)
    ensures !flags.noLimit ==> NoOverflow(old(Snap(items)), Snap(alive))
    ensures if Splits(kinds, old(Snap(items)), PlanMove(kinds, old(Snap(items)), fromCylinder, toCylinder, index, item, count, flags), item)
            then fresh(moveItem) && !moveItem.isContainer else moveItem == item
    ensures items - {item} <= alive && (!kinds(old(item.id)).stackable ==> alive == items)
    ensures forall x <- alive :: x in items || x == moveItem
  {
    hide Linked, Acyclic, AllBalanced, StacksFit, PlanMove, Committed, Granted, Merged, NoOverflow, Units, Lands;
    ghost var w := Snap(items);
    moveItem, alive := item, items;
    var plan := AskMove(kinds, fromCylinder, toCylinder, index, item, count, flags, items);
    ret := plan.answer;
    if plan.Go? {
      PlanGranted(kinds, w, fromCylinder, toCylinder, index, item, count, flags);
      moveItem, alive := CommitMove(kinds, fromCylinder, plan.dest, plan.at, plan.onto, item, plan.m, items);
      MoveKeeps(kinds, w, fromCylinder, toCylinder, index, item, count, flags, moveItem);
    } else {
      NothingOverflows(w);
    }
    MoveLands(kinds, w, fromCylinder, toCylinder, index, item, count, flags, moveItem);
  }

  // The second half of internalMoveItem: the item is taken out, merged, and put in.
  method CommitMove(kinds: Kinds, fromCylinder: Item, toCylinder: Item, index: int, toItem: Item?, item: Item, m: nat,
                    ghost items: set<Item>)
    returns (moveItem: Item, ghost alive: set<Item>)
    requires Granted(kinds, Snap(items), fromCylinder, toCylinder, index, toItem, item, m)
    modifies items
    ensures Snap(alive) == Committed(kinds, old(Snap(items)), fromCylinder, toCylinder, index, toItem, item, m, moveItem)
    ensures Good(kinds, Snap(alive))
    ensures if kinds(old(item.id)).stackable && Merged(old(Snap(items)), toItem, item, m) < m
            then fresh(moveItem) && !moveItem.isContainer else moveItem == item
    ensures items - {item} <= alive && (!kinds(old(item.id)).stackable ==> alive == items)
    ensures forall x <- alive :: x in items || x == moveItem
  {
    hide Linked, Acyclic, AllBalanced, StacksFit, Removed, Updated, Added, Sound, Inside, Taken, Merged, IsRemoval,
      Relinked;
    ghost var w := Snap(items);
    moveItem, alive := item, items;
    if !kinds(item.id).stackable {
      MoveWhole(kinds, w, fromCylinder, toCylinder, index, toItem, item, m);
      WholeJoins(kinds, w, fromCylinder, toCylinder, index, toItem, item, m);
      fromCylinder.RemoveThing(kinds, item, m, items);
      toCylinder.AddThing(kinds, index, item, items);
    } else {
      TakenGood(kinds, w, fromCylinder, toCylinder, index, toItem, item, m);
      var id := item.id;
      var newCount;
      newCount, alive := TakeStack(kinds, fromCylinder, toCylinder, index, toItem, item, m, items);
      if newCount > 0 {
        ghost var v := Snap(alive);
        moveItem := new Item(id, newCount, false, 0, true);
        SnapWith(alive, moveItem);
        alive := alive + {moveItem};
        NewJoins(kinds, v, toCylinder, moveItem, Cell(id, newCount, null, [], 0));
        NewStackOf(kinds, w, v, toCylinder, index, moveItem, item, newCount);
        toCylinder.AddThing(kinds, index, moveItem, alive);
      }
    }
  }

  lemma NewStackOf(kinds: Kinds, w: World, v: World, dest: Item, at: int, made: Item, x: Item, rest: nat)
    requires Good(kinds, w) && x in w && kinds(w[x].id).stackable
    requires Good(kinds, v) && dest in v && dest.isContainer && made !in v && !made.isContainer && 1 <= rest <= w[x].count
    ensures Good(kinds, Added(kinds, v[made := Cell(w[x].id, rest, null, [], 0)], dest, at, made))
  {
    hide Sound;
    StackOf(kinds, w, x);
    NewStack(kinds, v, dest, at, made, w[x].id, rest);
  }

  lemma WholeJoins(kinds: Kinds, w: World, from: Item, dest: Item, at: int, onto: Item?, x: Item, m: nat)
    requires Granted(kinds, w, from, dest, at, onto, x, m) && !kinds(w[x].id).stackable
    ensures CanJoin(kinds, Removed(kinds, w, from, x, m), dest, x)
  {
    hide Linked, Acyclic, AllBalanced, Inside, Removed, Without;
    var w1 := Removed(kinds, w, from, x, m);
    RemoveSound(kinds, w, from, x, m);
    WholeLoose(kinds, w, from, x, m);
    if Inside(w1, x, dest) { CutInside(w, w1, x, dest); }
  }

  // The stack is taken out, and what fits is put onto `toItem`.
  method TakeStack(kinds: Kinds, fromCylinder: Item, toCylinder: Item, ghost index: int, toItem: Item?, item: Item, m: nat,
                   ghost items: set<Item>)
    returns (newCount: nat, ghost alive: set<Item>)
    requires Granted(kinds, Snap(items), fromCylinder, toCylinder, index, toItem, item, m) && kinds(item.id).stackable
    modifies items
    ensures newCount == m - Merged(old(Snap(items)), toItem, item, m)
    ensures items - {item} <= alive <= items
    ensures Snap(alive) == Taken(kinds, old(Snap(items)), fromCylinder, toCylinder, toItem, item, m)
  {
    hide Linked, Acyclic, AllBalanced, StacksFit, Removed, Updated, Sound, Inside, Without, IsRemoval, IsUpdate, Taken;
    ghost var w := Snap(items);
    StackFacts(kinds, w, fromCylinder, toCylinder, index, toItem, item, m);
    TakeFrom(kinds, w, fromCylinder, item, m);
    fromCylinder.RemoveThing(kinds, item, m, items);
    ghost var w1 := Snap(items);
    var n := MergeInto(kinds, toCylinder, toItem, item, m, items);
    newCount := m - n;
    ghost var w2 := Snap(items);
    alive := if item.parent == null then items - {item} else items;
    SnapWithout(items, item);
    TakenIs(kinds, w, w1, w2, fromCylinder, toCylinder, toItem, item, m);
  }

  // What fits goes onto `toItem`, if that is of the same type.
  method MergeInto(kinds: Kinds, toCylinder: Item, toItem: Item?, item: Item, m: nat, ghost items: set<Item>) returns (n: nat)
    requires Sound(kinds, Snap(items)) && toCylinder in items && item in items && (toItem != null ==> toItem in items)
    modifies items
    ensures n == Merged(old(Snap(items)), toItem, item, m)
    ensures Snap(items) ==
      if toItem == null || old(toItem.id != item.id) then old(Snap(items))
      else Updated(kinds, old(Snap(items)), toCylinder, toItem, old(toItem.id), old(toItem.count) + n)
  {
    hide Sound, Updated, IsUpdate;
    n := 0;
    if toItem != null && toItem.id == item.id {
      n := if 100 - toItem.count < 0 then 0 else if 100 - toItem.count < m then 100 - toItem.count else m;
      toCylinder.UpdateThing(kinds, toItem, toItem.id, toItem.count + n, items);
    }
  }

  lemma TakenIs(kinds: Kinds, w: World, w1: World, w2: World, from: Item, dest: Item, onto: Item?, x: Item, m: nat)
    requires from in w && dest in w && x in w && w1 == Removed(kinds, w, from, x, m) && x in w2 && dest in w1 && x in w1
    requires w2 == if onto == null || onto !in w || w[onto].id != w[x].id || onto !in w1 then w1
                   else Updated(kinds, w1, dest, onto, w1[onto].id, w1[onto].count + Merged(w1, onto, x, m))
    requires onto != null && onto in w ==> onto in w1
    ensures Taken(kinds, w, from, dest, onto, x, m) == if w2[x].parent == null then w2 - {x} else w2
  {
    hide Removed, Updated, Merged;
  }

  // ---------- Game::internalAddItem ----------

  lemma SnapWithout(items: set<Item>, x: Item)
    ensures Snap(items - {x}) == Snap(items) - {x}
  {}

  lemma SnapWith(items: set<Item>, x: Item)
    ensures Snap(items + {x}) == Snap(items)[x := x.GetCell()]
  {}

  // The answer of internalAddItem: the destination must take the thing, and the container it was meant for, all of it.
  ghost function AskAdd(kinds: Kinds, w: World, to: Item, index: int, x: Item, flags: Flags): ReturnValue
    requires to in w && x in w
  {
    var (dest, at, _) := Destination(kinds, w, to, index, x, flags);
    var q := if dest in w then AddAnswer(kinds, w, dest, at, x, flags) else NotPossible;
    if q != NoError then q else MaxCount(kinds, w, to, INDEX_WHEREEVER, x, w[x].count, flags).0
  }

  // How much of `x` the k-th thing of `list` takes when the stacks are filled in order.
  function Share(w: World, list: seq<Item>, x: Item, k: nat): nat
    requires x in w && k < |list|
  {
    var before := StackRoom(w, list[..k], x);
    if !Mergeable(w, list[k], x) || w[x].count <= before then 0
    else if w[x].count - before < 100 - w[list[k]].count then w[x].count - before
    else 100 - w[list[k]].count
  }

  // All units of the loose stack `x` are in `c`: partial stacks are filled in order, and what then is left is the new
  // first stack `s`.
  ghost predicate Filled(w: World, v: World, c: Item, x: Item, s: Item)
    requires x in w && c in w
  {
    var list := w[c].list;
    var room := StackRoom(w, list, x);
    var rest := if room < w[x].count then w[x].count - room else 0;
    && v.Keys == w.Keys - {x} + (if rest > 0 then {s} else {})
    && (rest > 0 ==> v[s] == Cell(w[x].id, rest, c, [], v[s].total))
    && Unmoved(w, v, c, rest > 0, s)
    && SharesTaken(w, v, list, x)
  }

  // Besides the new stack `s`, if there is one, and the counts in `c`, everything is as it was.
  ghost predicate Unmoved(w: World, v: World, c: Item, more: bool, s: Item)
    requires c in w
  {
    forall y <- v :: y in w && y != s ==>
      && v[y].id == w[y].id && v[y].parent == w[y].parent
      && v[y].list == (if y == c && more then [s] + w[y].list else w[y].list)
      && (y !in w[c].list ==> v[y].count == w[y].count)
  }

  predicate SharesTaken(w: World, v: World, list: seq<Item>, x: Item)
    requires x in w
  {
    forall k :: 0 <= k < |list| ==> list[k] in v && list[k] in w && v[list[k]].count == w[list[k]].count + Share(w, list, x, k)
  }

  // The stack `x` disappears, `n` units heavier is the stack `onto`.
  ghost function MergedAway(kinds: Kinds, w: World, c: Item, onto: Item, x: Item, n: nat): World
    requires c in w && onto in w
  {
    Updated(kinds, w, c, onto, w[onto].id, w[onto].count + n) - {x}
  }

  lemma MergeGood(kinds: Kinds, w: World, c: Item, onto: Item, x: Item, n: nat)
    requires Good(kinds, w) && c in w && x in w && onto in w && onto in w[c].list && onto != x && w[x].parent == null
    requires kinds(w[x].id).stackable && w[onto].id == w[x].id && w[onto].count + n <= 100
    ensures var v := MergedAway(kinds, w, c, onto, x, n);
      && Good(kinds, v) && v.Keys == w.Keys - {x}
      && (forall y <- v :: v[y].id == w[y].id && v[y].parent == w[y].parent && v[y].list == w[y].list)
      && (forall y <- v :: v[y].count == w[y].count + if y == onto then n else 0)
  {
    hide Linked, Acyclic, AllBalanced, Updated;
    StackOf(kinds, w, x);
    StackOf(kinds, w, onto);
    NoList(w, x);
    PutOnto(kinds, w, c, onto, n);
    var w1 := Updated(kinds, w, c, onto, w[onto].id, w[onto].count + n);
    DropSound(kinds, w1, x);
    forall y <- w1 - {x} ensures StackFits(kinds, y, w1[y]) { StackOf(kinds, w, y); }
  }

  lemma NoList(w: World, x: Item)
    requires Linked(w) && x in w && !x.isContainer
    ensures w[x].list == []
  {}

  lemma MergeUnits(w: World, v: World, onto: Item, x: Item, n: nat, id: nat)
    requires x in w && onto in w && onto != x && w[onto].id == w[x].id && v.Keys == w.Keys - {x}
    requires forall y <- v :: v[y].id == w[y].id
    requires forall y <- v :: v[y].count == w[y].count + if y == onto then n else 0
    ensures Units(v, id) == Units(w, id) + if w[x].id == id then n - w[x].count else 0
  {
    UnitsTake(w, x, id);
    UnitsChange(w - {x}, v, onto, id);
  }

  // `x` lies in `dest` now, and nothing else has changed.
  ghost predicate PlainAdded(w: World, v: World, dest: Item, x: Item) {
    && v.Keys == w.Keys
    && (forall y <- w :: v[y].id == w[y].id && v[y].count == w[y].count)
    && (forall y <- w :: v[y].parent == if y == x then dest else w[y].parent)
    && (forall y <- w :: v[y].list == if y == dest then [x] + w[y].list else w[y].list)
  }

  // A loose thing is put into `dest` as it is.
  lemma AddPlain(kinds: Kinds, w: World, dest: Item, at: int, x: Item)
    requires Good(kinds, w) && CanJoin(kinds, w, dest, x) && at < dest.maxSize
    ensures var v := Added(kinds, w, dest, at, x);
      Good(kinds, v) && PlainAdded(w, v, dest, x)
  {
    hide Sound, Inside, Added, StacksFit, PlainAdded, SameShape, Attach;
    AddSound(kinds, w, dest, at, x);
    AttachPlain(w, Added(kinds, w, dest, at, x), dest, x);
    PlainFits(kinds, w, Added(kinds, w, dest, at, x), dest, x);
  }

  lemma AttachPlain(w: World, v: World, dest: Item, x: Item)
    requires dest in w && x in w && dest != x && SameShape(Attach(w, dest, x, [x] + w[dest].list), v)
    ensures PlainAdded(w, v, dest, x)
  {}

  lemma PlainFits(kinds: Kinds, w: World, v: World, dest: Item, x: Item)
    requires StacksFit(kinds, w) && PlainAdded(w, v, dest, x)
    ensures StacksFit(kinds, v)
  {}

  // `x` is a stack, and `onto` is one of the same kind.
  predicate SameKind(kinds: Kinds, w: World, onto: Item?, x: Item)
    requires x in w
  {
    kinds(w[x].id).stackable && onto != null && onto in w && w[onto].id == w[x].id
  }

  // The thing goes onto the stack `onto`, which has room.
  predicate GoesOnto(kinds: Kinds, w: World, onto: Item?, x: Item)
    requires x in w
  {
    SameKind(kinds, w, onto, x) && w[onto].count < 100
  }

  // The stack `x` has disappeared, and what is left of it, `n` units being on the stack `onto`, is the new stack `m`.
  ghost function Rest(kinds: Kinds, w: World, dest: Item, onto: Item, x: Item, n: nat, m: Item): World
    requires dest in w && onto in w && x in w && n <= w[x].count
  {
    MergedAway(kinds, w, dest, onto, x, n)[m := Cell(w[x].id, w[x].count - n, null, [], 0)]
  }

  // The world that internalAddItem makes, what the queries allow being done. `made` are the stacks that it creates on
  // the way, one for each time that the rest of a stack is added in turn.
  ghost predicate Adds(kinds: Kinds, w: World, v: World, to: Item, index: int, x: Item, flags: Flags, made: seq<Item>,
                       remainder: nat)
    requires to in w && x in w && to != x
    decreases |made|
  {
    var (dest, at, onto) := Destination(kinds, w, to, index, x, flags);
    && dest in w
    && if !SameKind(kinds, w, onto, x) then made == [] && remainder == 0 && v == Added(kinds, w, dest, at, x)
       else
         var n := Merged(w, onto, x, w[x].count);
         if n == w[x].count then made == [] && remainder == 0 && v == MergedAway(kinds, w, dest, onto, x, n)
         else if n == 0 then
           && made == [] && remainder == 0
           && v == Added(kinds, Updated(kinds, w, dest, onto, w[onto].id, w[onto].count), dest, at, x)
         else
           && made != []
           && (var u := Rest(kinds, w, dest, onto, x, n, made[0]);
               if to == made[0] then false
               else if AskAdd(kinds, u, to, INDEX_WHEREEVER, made[0], flags) == NoError
               then remainder == 0 && Adds(kinds, u, v, to, INDEX_WHEREEVER, made[0], flags, made[1..], 0)
               else made == [made[0]] && remainder == w[x].count - n && v == u - {made[0]})
  }

  // The stacks are new.
  predicate NewOnes(w: World, made: seq<Item>) {
    NoRepeats(made) && forall m <- made :: m !in w && !m.isContainer
  }

  // The stack that is added last
  function Placed(x: Item, made: seq<Item>): Item {
    if made == [] then x else made[|made| - 1]
  }

  // `onto` has taken what it could of `x`; what was left is in other stacks of `to` or the new stack `s`, and nothing
  // else has changed.
  ghost predicate PutOnStack(w: World, v: World, to: Item, onto: Item, x: Item, s: Item)
    requires x in w && onto in w && to in w
  {
    && onto in v && v[onto].count == (if w[onto].count + w[x].count < 100 then w[onto].count + w[x].count else 100)
    && x !in v && v.Keys <= w.Keys + {s}
    && (forall y <- w :: y != x ==>
          && y in v && v[y].id == w[y].id && v[y].parent == w[y].parent && v[y].count >= w[y].count
          && (y !in w[to].list ==> v[y].count == w[y].count))
    && (s in v && s !in w ==> v[s].id == w[x].id && v[s].parent == to)
  }

  // What internalAddItem promises. A thing that goes onto no stack lies in its destination as it was. Without
  // FLAG_IGNOREAUTOSTACK, or added anywhere, nothing is left over. Without FLAG_NOLIMIT a list overflows exactly if the
  // thing goes onto no stack and its destination is full, which with FLAG_IGNOREAUTOSTACK can happen at an index only;
  // and a stack that is added wherever there is room, or goes onto a stack, fills the partial stacks in order.
  ghost predicate AddKept(kinds: Kinds, w: World, v: World, to: Item, index: int, x: Item, flags: Flags,
                          remainder: nat, s: Item)
    requires x in w && to in w
  {
    && Good(kinds, v)
    && (forall id :: Units(v, id) + (if id == w[x].id then remainder else 0) == Units(w, id))
    && (!flags.ignoreAutoStack || index == INDEX_WHEREEVER ==> remainder == 0)
    && (!flags.noLimit && (!flags.ignoreAutoStack || index == INDEX_WHEREEVER) ==> NoOverflow(w, v))
    && (var (dest, _, onto) := Destination(kinds, w, to, index, x, flags);
        && dest in w
        && (!flags.noLimit ==> (NoOverflow(w, v) <==> GoesOnto(kinds, w, onto, x) || |w[dest].list| < dest.maxSize))
        && (if GoesOnto(kinds, w, onto, x) then PutOnStack(w, v, to, onto, x, s) else PlainAdded(w, v, dest, x) && s == x)
        && (InOrder(kinds, w, index, onto, x, flags) ==> Filled(w, v, to, x, s)))
  }

  // The stack fills the partial stacks in order.
  predicate InOrder(kinds: Kinds, w: World, index: int, onto: Item?, x: Item, flags: Flags)
    requires x in w
  {
    && !flags.ignoreAutoStack && !flags.noLimit && kinds(w[x].id).stackable
    && (index == INDEX_WHEREEVER || GoesOnto(kinds, w, onto, x))
  }

  lemma {:induction false} NoRoom(w: World, list: seq<Item>, x: Item)
    requires x in w && forall k <- list :: !Mergeable(w, k, x)
    ensures StackRoom(w, list, x) == 0
    decreases |list|
  {
    if list != [] {
      NoRoom(w, list[..|list| - 1], x);
    }
  }

  lemma {:induction false} RoomGrows(w: World, list: seq<Item>, x: Item, k: nat)
    requires x in w && k <= |list|
    ensures StackRoom(w, list[..k], x) <= StackRoom(w, list, x)
    decreases |list|
  {
    if k < |list| {
      assert list[..|list| - 1][..k] == list[..k];
      RoomGrows(w, list[..|list| - 1], x, k);
    } else {
      assert list[..k] == list;
    }
  }

  // Where a thing is added as it is, there is a free slot, unless the flags say otherwise.
  lemma PlainRoom(kinds: Kinds, w: World, to: Item, index: int, x: Item, flags: Flags)
    requires Linked(w) && to in w && to.isContainer && x in w && w[x].parent == null
    requires StackFits(kinds, x, w[x])
    requires AskAdd(kinds, w, to, index, x, flags) == NoError && !flags.childIsOwner
    requires !flags.noLimit && (!flags.ignoreAutoStack || index == INDEX_WHEREEVER)
    requires var onto := Destination(kinds, w, to, index, x, flags).2;
      kinds(w[x].id).stackable && onto != null && onto in w && w[onto].id == w[x].id ==> w[onto].count >= 100
    ensures var dest := Destination(kinds, w, to, index, x, flags).0;
      dest in w && |w[dest].list| < dest.maxSize
    ensures index == INDEX_WHEREEVER ==> Destination(kinds, w, to, index, x, flags).0 == to
    ensures !flags.ignoreAutoStack && index == INDEX_WHEREEVER && kinds(w[x].id).stackable ==>
      FirstMergeable(w, w[to].list, x) == -1
  {
    hide Inside, NoRepeats;
    HopFacts(kinds, w, to, index, x, flags);
    SettlesAt(kinds, w, to, x, flags);
    var (dest, at, onto) := Destination(kinds, w, to, index, x, flags);
    if kinds(w[x].id).stackable && FirstMergeable(w, w[to].list, x) == -1 {
      NoRoom(w, w[to].list, x);
    }
  }

  lemma PlainUnits(w: World, v: World, dest: Item, x: Item)
    requires PlainAdded(w, v, dest, x)
    ensures forall id :: Units(v, id) == Units(w, id)
  {
    forall id ensures Units(v, id) == Units(w, id) { UnitsSame(w, v, id); }
  }

  lemma KeptPlain(kinds: Kinds, w: World, v: World, to: Item, index: int, x: Item, flags: Flags)
    requires Good(kinds, w) && Good(kinds, v) && to in w && to.isContainer && x in w && w[x].parent == null
    requires AskAdd(kinds, w, to, index, x, flags) == NoError && !flags.childIsOwner
    requires var (dest, _, onto) := Destination(kinds, w, to, index, x, flags);
      && PlainAdded(w, v, dest, x) && dest in w && dest != x
      && (kinds(w[x].id).stackable && onto != null && onto in w && w[onto].id == w[x].id ==> w[onto].count >= 100)
    ensures AddKept(kinds, w, v, to, index, x, flags, 0, x)
  {
    hide Sound, Inside, Filled, Share, AskAdd, Destination, StacksFit, NoOverflow, PlainAdded, Linked;
    PlainUnits(w, v, Destination(kinds, w, to, index, x, flags).0, x);
    SoundLinked(kinds, w);
    StackOf(kinds, w, x);
    PlainOverflow(w, v, Destination(kinds, w, to, index, x, flags).0, x);
    if !flags.noLimit && (!flags.ignoreAutoStack || index == INDEX_WHEREEVER) {
      PlainRoom(kinds, w, to, index, x, flags);
      if !flags.ignoreAutoStack && index == INDEX_WHEREEVER && kinds(w[x].id).stackable {
        FilledPlain(kinds, w, v, to, x);
      }
    }
  }

  lemma PlainOverflow(w: World, v: World, dest: Item, x: Item)
    requires dest in w && PlainAdded(w, v, dest, x)
    ensures NoOverflow(w, v) <==> |w[dest].list| < dest.maxSize
  {
    if NoOverflow(w, v) {
      assert |v[dest].list| == |w[dest].list| + 1;
    }
  }

  lemma SoundLinked(kinds: Kinds, w: World)
    requires Sound(kinds, w)
    ensures Linked(w)
  {}

  lemma SoundAcyclic(kinds: Kinds, w: World)
    requires Sound(kinds, w)
    ensures Acyclic(w)
  {}

  lemma FilledPlain(kinds: Kinds, w: World, v: World, c: Item, x: Item)
    requires Good(kinds, w) && c in w && x in w && w[x].parent == null && PlainAdded(w, v, c, x) && c != x
    requires kinds(w[x].id).stackable && FirstMergeable(w, w[c].list, x) == -1
    ensures Filled(w, v, c, x, x)
  {
    hide Good, NoRepeats, Mergeable, Share, StackRoom;
    var list := w[c].list;
    LooseList(kinds, w, c, x);
    StackListed(kinds, w, x);
    NoRoom(w, list, x);
    forall k | 0 <= k < |list|
      ensures list[k] in v && list[k] in w && v[list[k]].count == w[list[k]].count + Share(w, list, x, k)
    {
      assert list[k] in list;
      NoShare(w, list, x, k);
    }
  }

  lemma NoShare(w: World, list: seq<Item>, x: Item, k: nat)
    requires x in w && k < |list| && !Mergeable(w, list[k], x)
    ensures Share(w, list, x, k) == 0
  {}

  lemma StackListed(kinds: Kinds, w: World, x: Item)
    requires Good(kinds, w) && x in w && kinds(w[x].id).stackable
    ensures w[x].list == []
  {
    StackOf(kinds, w, x);
  }

  lemma LooseList(kinds: Kinds, w: World, c: Item, x: Item)
    requires Good(kinds, w) && c in w && x in w && w[x].parent == null && kinds(w[x].id).stackable
    ensures x !in w[c].list && NoRepeats(w[c].list) && (x == c ==> w[c].list == [])
    ensures forall k <- w[c].list :: k in w
    ensures 1 <= w[x].count <= 100
  {
    StackOf(kinds, w, x);
  }

  // A stack that the first partial stack can take whole goes there.
  lemma ShareFirst(w: World, list: seq<Item>, x: Item, i: nat, k: nat)
    requires x in w && i == FirstMergeable(w, list, x) && k < |list| && 0 < w[x].count <= 100 - w[list[i]].count
    ensures Share(w, list, x, k) == if k == i then w[x].count else 0
    ensures StackRoom(w, list, x) >= w[x].count
  {
    hide StackRoom, FirstMergeable;
    NoRoom(w, list[..i], x);
    RoomNext(w, list, x, i);
    RoomGrows(w, list, x, i + 1);
    if k < i {
      assert list[k] in list[..i];
    } else if k > i {
      TakeTake(list, i + 1, k);
      RoomGrows(w, list[..k], x, i + 1);
    }
  }

  lemma TakeTake(list: seq<Item>, j: nat, k: nat)
    requires j <= k <= |list|
    ensures list[..k][..j] == list[..j]
  {}

  // The stack `x` went onto the first partial stack, all of it.
  lemma FilledFirst(kinds: Kinds, w: World, v: World, c: Item, x: Item, i: nat)
    requires Good(kinds, w) && c in w && x in w && w[x].parent == null && kinds(w[x].id).stackable
    requires i == FirstMergeable(w, w[c].list, x) && w[x].count <= 100 - w[w[c].list[i]].count
    requires v.Keys == w.Keys - {x}
    requires forall y <- v :: v[y].id == w[y].id && v[y].parent == w[y].parent && v[y].list == w[y].list
    requires forall y <- v :: v[y].count == w[y].count + if y == w[c].list[i] then w[x].count else 0
    ensures Filled(w, v, c, x, x)
  {
    hide Good, NoRepeats, Share, StackRoom, Mergeable;
    var list := w[c].list;
    LooseList(kinds, w, c, x);
    ShareFirst(w, list, x, i, i);
    forall k | 0 <= k < |list|
      ensures list[k] in v && list[k] in w && v[list[k]].count == w[list[k]].count + Share(w, list, x, k)
    {
      ShareFirst(w, list, x, i, k);
    }
  }

  // Filling up the first partial stack takes its room from what comes after it.
  lemma {:induction false} RoomAfter(w: World, u: World, list: seq<Item>, x: Item, made: Item, i: nat, k: nat)
    requires NoRepeats(list) && x in w && made in u && i < |list| && k <= |list|
    requires (forall y <- list :: y in w && y in u && y != x && y != made && u[y].id == w[y].id)
    requires u[made].id == w[x].id && Mergeable(w, list[i], x) && u[list[i]].count == 100
    requires forall y <- list :: y != list[i] ==> u[y].count == w[y].count
    ensures StackRoom(u, list[..k], made) == StackRoom(w, list[..k], x) - if k > i then 100 - w[list[i]].count else 0
    decreases k
  {
    if k > 0 {
      RoomAfter(w, u, list, x, made, i, k - 1);
      RoomNext(w, list, x, k - 1);
      RoomNext(u, list, made, k - 1);
    }
  }

  // What the others take is what they take of the rest.
  lemma ShareRest(w: World, u: World, list: seq<Item>, x: Item, made: Item, i: nat, k: nat)
    requires NoRepeats(list) && x in w && made in u && k < |list|
    requires (forall y <- list :: y in w && y in u && y != x && y != made && u[y].id == w[y].id)
    requires i == FirstMergeable(w, list, x) && u[made].id == w[x].id && u[list[i]].count == 100
    requires forall y <- list :: y != list[i] ==> u[y].count == w[y].count
    requires u[made].count == w[x].count - (100 - w[list[i]].count)
    ensures Share(w, list, x, k) == if k == i then 100 - w[list[i]].count else Share(u, list, made, k)
    ensures Share(u, list, made, i) == 0
    ensures StackRoom(u, list, made) == StackRoom(w, list, x) - (100 - w[list[i]].count)
  {
    hide StackRoom, NoRepeats;
    NoRoom(w, list[..i], x);
    RoomAfter(w, u, list, x, made, i, k);
    RoomAfter(w, u, list, x, made, i, i);
    RoomAfter(w, u, list, x, made, i, |list|);
    assert list[..|list|] == list && list[k] in list && list[i] in list;
    if k != i {
      DifferentPlaces(list, i, k);
    }
    if k < i {
      assert list[k] in list[..i];
    }
  }

  lemma DifferentPlaces(list: seq<Item>, i: nat, k: nat)
    requires NoRepeats(list) && i < |list| && k < |list| && i != k
    ensures list[i] != list[k]
  {}

  // The first partial stack is full, and what is left has filled the others.
  lemma FilledRest(kinds: Kinds, w: World, u: World, v: World, c: Item, x: Item, made: Item, s: Item, i: nat)
    requires Good(kinds, w) && c in w && x in w && w[x].parent == null && kinds(w[x].id).stackable
    requires i == FirstMergeable(w, w[c].list, x) && made !in w && (s == made || s !in u) && s != x
    requires w[w[c].list[i]].count + w[x].count >= 100
    requires OneFull(w, u, c, x, made, i) && Filled(u, v, c, made, s)
    ensures Filled(w, v, c, x, s)
  {
    hide Good, NoRepeats, SharesTaken, StackRoom, Mergeable, Unmoved;
    LooseList(kinds, w, c, x);
    ShareRest(w, u, w[c].list, x, made, i, i);
    CountsRest(kinds, w, u, v, c, x, made, s, i);
    RestUnmoved(w, u, v, c, x, made, s, i, StackRoom(u, u[c].list, made) < u[made].count);
  }

  lemma RestUnmoved(w: World, u: World, v: World, c: Item, x: Item, made: Item, s: Item, i: nat, more: bool)
    requires c in w && x in w && i < |w[c].list| && w[c].list[i] in w && made !in w && OneFull(w, u, c, x, made, i)
    requires c in u && Unmoved(u, v, c, more, s) && v.Keys == u.Keys - {made} + (if more then {s} else {})
    requires s == made || s !in u
    ensures Unmoved(w, v, c, more, s)
  {
    assert w[c].list[i] in w[c].list;
  }

  lemma CountsRest(kinds: Kinds, w: World, u: World, v: World, c: Item, x: Item, made: Item, s: Item, i: nat)
    requires Good(kinds, w) && c in w && x in w && w[x].parent == null && kinds(w[x].id).stackable
    requires i == FirstMergeable(w, w[c].list, x) && made !in w
    requires w[w[c].list[i]].count + w[x].count >= 100
    requires OneFull(w, u, c, x, made, i) && Filled(u, v, c, made, s)
    ensures SharesTaken(w, v, w[c].list, x)
  {
    hide Good, NoRepeats, Share, StackRoom, Mergeable;
    var list := w[c].list;
    LooseList(kinds, w, c, x);
    assert u[c].list == list;
    forall k | 0 <= k < |list|
      ensures list[k] in v && list[k] in w && v[list[k]].count == w[list[k]].count + Share(w, list, x, k)
    {
      ShareRest(w, u, list, x, made, i, k);
    }
  }

  // `u` is `w` with the first partial stack full and the new loose stack `made` in place of `x`.
  ghost predicate OneFull(w: World, u: World, c: Item, x: Item, made: Item, i: nat)
    requires c in w && x in w && i < |w[c].list| && w[c].list[i] in w
  {
    var onto := w[c].list[i];
    && u.Keys == w.Keys - {x} + {made}
    && w[x].count + w[onto].count >= 100
    && u[made] == Cell(w[x].id, w[x].count - (100 - w[onto].count), null, [], 0)
    && (forall y <- u :: y != made ==> u[y].id == w[y].id && u[y].parent == w[y].parent && u[y].list == w[y].list)
    && (forall y <- u :: y != made ==> u[y].count == if y == onto then 100 else w[y].count)
  }

  // The stack the thing is put onto lies in the container itself, and is the first with room if stacks are looked for.
  lemma OntoFirst(kinds: Kinds, w: World, to: Item, index: int, x: Item, flags: Flags)
    requires Linked(w) && to in w && x in w && w[x].parent == null && kinds(w[x].id).stackable
    requires var onto := Destination(kinds, w, to, index, x, flags).2; onto != null && w[onto].id == w[x].id
    ensures var (dest, _, onto) := Destination(kinds, w, to, index, x, flags);
      && dest == to && onto in w && onto in w[to].list && onto != x
      && (!flags.ignoreAutoStack && w[onto].count < 100 ==>
            FirstMergeable(w, w[to].list, x) != -1 && onto == w[to].list[FirstMergeable(w, w[to].list, x)])
      && (index == INDEX_WHEREEVER ==> !flags.ignoreAutoStack && w[onto].count < 100)
  {
    var onto := Destination(kinds, w, to, index, x, flags).2;
    assert onto in w[to].list;
  }

  // All of `x` goes onto `onto`.
  lemma PutMerged(w: World, v: World, to: Item, onto: Item, x: Item)
    requires x in w && onto in w && to in w && onto != x && onto in w[to].list && w[x].count <= 100 - w[onto].count
    requires v.Keys == w.Keys - {x}
    requires forall y <- v :: v[y].id == w[y].id && v[y].parent == w[y].parent && v[y].list == w[y].list
    requires forall y <- v :: v[y].count == w[y].count + if y == onto then w[x].count else 0
    ensures PutOnStack(w, v, to, onto, x, x) && NoOverflow(w, v)
  {}

  lemma AllMerged(w: World, v: World, onto: Item, x: Item)
    requires x in w && onto in w && onto != x && w[onto].id == w[x].id && v.Keys == w.Keys - {x}
    requires forall y <- v :: v[y].id == w[y].id
    requires forall y <- v :: v[y].count == w[y].count + if y == onto then w[x].count else 0
    ensures forall id :: Units(v, id) == Units(w, id)
  {
    forall id ensures Units(v, id) == Units(w, id) {
      MergeUnits(w, v, onto, x, w[x].count, id);
    }
  }

  lemma KeptMerged(kinds: Kinds, w: World, to: Item, index: int, x: Item, flags: Flags)
    requires Good(kinds, w) && to in w && to.isContainer && x in w && w[x].parent == null
    requires kinds(w[x].id).stackable
    requires var onto := Destination(kinds, w, to, index, x, flags).2;
      onto != null && onto in w && w[onto].id == w[x].id && w[x].count <= 100 - w[onto].count
    ensures var onto := Destination(kinds, w, to, index, x, flags).2;
      AddKept(kinds, w, MergedAway(kinds, w, to, onto, x, w[x].count), to, index, x, flags, 0, x)
  {
    hide Sound, Filled, Destination, MergedAway, StacksFit, FirstMergeable, PlainAdded, Units, UnitsOf, Linked, PutOnStack,
      NoOverflow;
    SoundLinked(kinds, w);
    StackOf(kinds, w, x);
    var onto := Destination(kinds, w, to, index, x, flags).2;
    OntoFirst(kinds, w, to, index, x, flags);
    MergeGood(kinds, w, to, onto, x, w[x].count);
    var v := MergedAway(kinds, w, to, onto, x, w[x].count);
    AllMerged(w, v, onto, x);
    PutMerged(w, v, to, onto, x);
    if !flags.ignoreAutoStack && !flags.noLimit {
      FilledFirst(kinds, w, v, to, x, FirstMergeable(w, w[to].list, x));
    }
  }

  // When all of `x` was granted, the rest of it is granted.
  lemma RestGranted(kinds: Kinds, w: World, u: World, to: Item, index: int, x: Item, flags: Flags, made: Item)
    requires Good(kinds, w) && to in w && to.isContainer && x in w && w[x].parent == null && kinds(w[x].id).stackable
    requires AskAdd(kinds, w, to, index, x, flags) == NoError && !flags.childIsOwner && !flags.ignoreAutoStack
    requires Destination(kinds, w, to, index, x, flags).2 != null && FirstMergeable(w, w[to].list, x) != -1
    requires Destination(kinds, w, to, index, x, flags).0 == to
    requires made !in w && !made.isContainer && Good(kinds, u)
    requires OneFull(w, u, to, x, made, FirstMergeable(w, w[to].list, x)) && to in u && u[made].count > 0
    ensures AskAdd(kinds, u, to, INDEX_WHEREEVER, made, flags) == NoError
  {
    hide Sound, Share, StacksFit, NoRepeats, StackRoom, Mergeable, Inside, Acyclic, AskAdd, Destination, Linked;
    var list, i := w[to].list, FirstMergeable(w, w[to].list, x);
    SoundLinked(kinds, w);
    SoundLinked(kinds, u);
    LooseList(kinds, w, to, x);
    EmptyHoldsNothing(u, made, to);
    assert u[to].list == list;
    ShareRest(w, u, list, x, made, i, i);
    AnsweredAnywhere(kinds, u, to, made, flags);
    GrantedRoom(kinds, w, to, index, x, flags);
  }

  // What is granted finds an open container and room.
  lemma GrantedRoom(kinds: Kinds, w: World, to: Item, index: int, x: Item, flags: Flags)
    requires to in w && x in w && kinds(w[x].id).stackable && !flags.childIsOwner
    requires AskAdd(kinds, w, to, index, x, flags) == NoError && Destination(kinds, w, to, index, x, flags).0 == to
    ensures to.unlocked && kinds(w[x].id).pickupable
    ensures flags.noLimit || |w[to].list| < to.maxSize || w[x].count <= StackRoom(w, w[to].list, x)
  {
    hide Inside, Destination, StackRoom;
  }

  lemma RestGood(kinds: Kinds, w: World, to: Item, i: nat, x: Item, made: Item)
    requires Good(kinds, w) && to in w && x in w && w[x].parent == null && kinds(w[x].id).stackable
    requires i < |w[to].list| && w[to].list[i] in w && w[to].list[i] != x && w[w[to].list[i]].id == w[x].id
    requires w[x].count > 100 - w[w[to].list[i]].count && made !in w && !made.isContainer
    ensures w[w[to].list[i]].count <= 100
    ensures var u := Rest(kinds, w, to, w[to].list[i], x, 100 - w[w[to].list[i]].count, made);
      && Good(kinds, u) && OneFull(w, u, to, x, made, i)
      && forall id :: Units(u, id) == Units(w, id)
  {
    hide Sound, MergedAway, Units, NoRepeats, Linked;
    var onto := w[to].list[i];
    StackOf(kinds, w, onto);
    StackOf(kinds, w, x);
    var n := 100 - w[onto].count;
    var u1, u := MergedAway(kinds, w, to, onto, x, n), Rest(kinds, w, to, onto, x, n, made);
    MergeGood(kinds, w, to, onto, x, n);
    NewSound(kinds, u1, made, u[made]);
    RestUnits(w, u1, u, onto, x, n, made);
  }

  lemma RestUnits(w: World, u1: World, u: World, onto: Item, x: Item, n: nat, made: Item)
    requires x in w && onto in w && onto != x && w[onto].id == w[x].id && u1.Keys == w.Keys - {x} && n <= w[x].count
    requires forall y <- u1 :: u1[y].id == w[y].id
    requires forall y <- u1 :: u1[y].count == w[y].count + if y == onto then n else 0
    requires made !in u1 && u == u1[made := Cell(w[x].id, w[x].count - n, null, [], 0)]
    ensures forall id :: Units(u, id) == Units(w, id)
  {
    forall id ensures Units(u, id) == Units(w, id) {
      MergeUnits(w, u1, onto, x, n, id);
      UnitsTake(u, made, id);
      assert u - {made} == u1;
    }
  }

  // The rest was added too: `v` is what internalAddItem made of the world `u` with the rest.
  lemma KeptRest(kinds: Kinds, w: World, u: World, v: World, to: Item, index: int, x: Item, flags: Flags,
                 i: nat, made: Item, s: Item)
    requires Good(kinds, w) && to in w && x in w && w[x].parent == null && kinds(w[x].id).stackable
    requires i < |w[to].list| && w[to].list[i] in w && made !in w && (s == made || s !in u) && s != x
    requires !flags.ignoreAutoStack ==> i == FirstMergeable(w, w[to].list, x)
    requires w[w[to].list[i]].count < 100 && w[w[to].list[i]].id == w[x].id
    requires Destination(kinds, w, to, index, x, flags).0 == to && Destination(kinds, w, to, index, x, flags).2 == w[to].list[i]
    requires OneFull(w, u, to, x, made, i) && to in u && AddKept(kinds, u, v, to, INDEX_WHEREEVER, made, flags, 0, s)
    requires forall id :: Units(u, id) == Units(w, id)
    ensures AddKept(kinds, w, v, to, index, x, flags, 0, s)
  {
    hide Good, Filled, FirstMergeable, Destination, PutOnStack, PlainAdded, Units, NoOverflow, OneFull, NoRepeats;
    OneFullFacts(kinds, w, u, to, x, made, i);
    LooseList(kinds, w, to, x);
    RestOnto(kinds, w, u, v, to, x, flags, i, made, s);
    if !flags.noLimit {
      RestNoOverflow(w, u, v, to, x, made, i);
    }
    if !flags.ignoreAutoStack && !flags.noLimit {
      FilledRest(kinds, w, u, v, to, x, made, s, i);
    }
  }

  lemma OneFullFacts(kinds: Kinds, w: World, u: World, to: Item, x: Item, made: Item, i: nat)
    requires to in w && x in w && i < |w[to].list| && w[to].list[i] in w && made !in w
    requires OneFull(w, u, to, x, made, i) && kinds(w[x].id).stackable
    ensures made in u && kinds(u[made].id).stackable && w[w[to].list[i]].count + w[x].count >= 100
  {}

  lemma RestNoOverflow(w: World, u: World, v: World, to: Item, x: Item, made: Item, i: nat)
    requires to in w && x in w && i < |w[to].list| && w[to].list[i] in w && made !in w
    requires OneFull(w, u, to, x, made, i) && NoOverflow(u, v)
    ensures NoOverflow(w, v)
  {
    assert u[made].list == [];
  }

  // Where the rest went, seen from the world before
  lemma RestOnto(kinds: Kinds, w: World, u: World, v: World, to: Item, x: Item, flags: Flags, i: nat, made: Item, s: Item)
    requires Good(kinds, w) && to in w && x in w && w[x].parent == null && kinds(w[x].id).stackable
    requires i < |w[to].list| && w[to].list[i] in w && w[to].list[i] != x && made !in w && (s == made || s !in u) && s != x
    requires w[w[to].list[i]].id == w[x].id
    requires OneFull(w, u, to, x, made, i) && to in u && AddKept(kinds, u, v, to, INDEX_WHEREEVER, made, flags, 0, s)
    ensures PutOnStack(w, v, to, w[to].list[i], x, s)
  {
    hide Sound, Filled, FirstMergeable, Destination, Units, NoOverflow, GoesOnto;
    SettlesAt(kinds, u, to, made, flags);
    var onto := w[to].list[i];
    assert onto in w[to].list;
    assert StackFits(kinds, onto, v[onto]);
  }

  lemma NothingLost(kinds: Kinds, w: World, v: World, to: Item, x: Item, flags: Flags, remainder: nat, s: Item)
    requires x in w && to in w && AddKept(kinds, w, v, to, INDEX_WHEREEVER, x, flags, remainder, s)
    ensures remainder == 0
  {}

  // The rest could not be added: it is the remainder.
  lemma KeptRemainder(kinds: Kinds, w: World, u: World, to: Item, index: int, x: Item, flags: Flags, i: nat, made: Item)
    requires Good(kinds, w) && to in w && x in w && w[x].parent == null && kinds(w[x].id).stackable
    requires i < |w[to].list| && w[to].list[i] in w && made !in w
    requires OneFull(w, u, to, x, made, i) && to in u && Good(kinds, u) && made in u
    requires forall id :: Units(u, id) == Units(w, id)
    requires flags.ignoreAutoStack && index != INDEX_WHEREEVER && w[w[to].list[i]].count < 100 && w[to].list[i] != x
    requires w[w[to].list[i]].id == w[x].id && Destination(kinds, w, to, index, x, flags).2 == w[to].list[i]
    requires Destination(kinds, w, to, index, x, flags).0 == to
    ensures AddKept(kinds, w, u - {made}, to, index, x, flags, u[made].count, made)
  {
    hide Sound, Filled, Destination;
    assert w[to].list[i] in w[to].list;
    DropSound(kinds, u, made);
    forall id ensures Units(u - {made}, id) + (if id == w[x].id then u[made].count else 0) == Units(w, id) {
      UnitsTake(u, made, id);
    }
  }

  // A thing that is not merged can be put into its destination.
  lemma PlainJoins(kinds: Kinds, w: World, u: World, to: Item, index: int, x: Item, flags: Flags)
    requires Good(kinds, w) && to in w && to.isContainer && x in w && w[x].parent == null && !flags.childIsOwner
    requires AskAdd(kinds, w, to, index, x, flags) == NoError
    requires var onto := Destination(kinds, w, to, index, x, flags).2;
      kinds(w[x].id).stackable && onto != null && onto in w && w[onto].id == w[x].id ==> w[onto].count >= 100
    requires Good(kinds, u) && SameItems(w, u)
    ensures var (dest, at, _) := Destination(kinds, w, to, index, x, flags);
      && dest in u && dest != x && CanJoin(kinds, u, dest, x)
      && Good(kinds, Added(kinds, u, dest, at, x)) && PlainAdded(w, Added(kinds, u, dest, at, x), dest, x)
  {
    hide Sound, Inside, Destination, AskAdd, Added, StacksFit, SameItems, PlainAdded, CanJoin;
    SoundLinked(kinds, w);
    var (dest, at, onto) := Destination(kinds, w, to, index, x, flags);
    PlainAllowed(kinds, w, u, to, index, x, flags);
    AddPlain(kinds, u, dest, at, x);
    PlainFrom(w, u, Added(kinds, u, dest, at, x), dest, x);
  }

  lemma PlainAllowed(kinds: Kinds, w: World, u: World, to: Item, index: int, x: Item, flags: Flags)
    requires Good(kinds, w) && to in w && to.isContainer && x in w && w[x].parent == null && !flags.childIsOwner
    requires AskAdd(kinds, w, to, index, x, flags) == NoError
    requires var onto := Destination(kinds, w, to, index, x, flags).2;
      kinds(w[x].id).stackable && onto != null && onto in w && w[onto].id == w[x].id ==> w[onto].count >= 100
    requires Good(kinds, u) && SameItems(w, u)
    ensures var (dest, at, _) := Destination(kinds, w, to, index, x, flags);
      dest in u && dest != x && CanJoin(kinds, u, dest, x) && at < dest.maxSize && x in u
  {
    hide Inside, Destination, Acyclic, AllBalanced, Linked, StacksFit;
    SoundLinked(kinds, w);
    HopFacts(kinds, w, to, index, x, flags);
    ListIn(w, to);
    var (dest, at, onto) := Destination(kinds, w, to, index, x, flags);
    if Inside(u, x, dest) { CutInside(w, u, x, dest); }
  }

  lemma PlainFrom(w: World, u: World, v: World, dest: Item, x: Item)
    requires SameItems(w, u) && PlainAdded(u, v, dest, x)
    ensures PlainAdded(w, v, dest, x)
  {}

  // The same items in the same places.
  ghost predicate SameItems(w: World, u: World) {
    && w.Keys == u.Keys
    && forall y <- w :: u[y].id == w[y].id && u[y].count == w[y].count && u[y].parent == w[y].parent && u[y].list == w[y].list
  }

  // What internalAddItem makes of a good world keeps it good, and does what is promised.
  lemma {:induction false} AddsKeep(kinds: Kinds, w: World, v: World, to: Item, index: int, x: Item, flags: Flags,
                                    made: seq<Item>, remainder: nat)
    requires Good(kinds, w) && to in w && to.isContainer && x in w && w[x].parent == null && to != x && !flags.childIsOwner
    requires AskAdd(kinds, w, to, index, x, flags) == NoError && NewOnes(w, made)
    requires Adds(kinds, w, v, to, index, x, flags, made, remainder)
    ensures AddKept(kinds, w, v, to, index, x, flags, remainder, Placed(x, made))
    decreases |made|
  {
    hide Sound, StacksFit, AskAdd, Destination, AddKept, Added, Updated, PlainAdded, MergedAway, Rest, NoRepeats, SameItems,
      Inside;
    var (dest, at, onto) := Destination(kinds, w, to, index, x, flags);
    StackOf(kinds, w, x);
    if !SameKind(kinds, w, onto, x) {
      SameAsItself(w);
      PlainJoins(kinds, w, w, to, index, x, flags);
      KeptPlain(kinds, w, v, to, index, x, flags);
    } else {
      SoundLinked(kinds, w);
      OntoFirst(kinds, w, to, index, x, flags);
      StackOf(kinds, w, onto);
      var n := Merged(w, onto, x, w[x].count);
      if n == w[x].count {
        KeptMerged(kinds, w, to, index, x, flags);
      } else if n == 0 {
        NothingPut(kinds, w, dest, onto);
        PlainJoins(kinds, w, Updated(kinds, w, dest, onto, w[onto].id, w[onto].count), to, index, x, flags);
        KeptPlain(kinds, w, v, to, index, x, flags);
      } else {
        RestKeeps(kinds, w, v, to, index, x, flags, made, remainder);
      }
    }
  }

  // The case in which the rest of a stack is added in turn
  lemma {:induction false} RestKeeps(kinds: Kinds, w: World, v: World, to: Item, index: int, x: Item, flags: Flags,
                                     made: seq<Item>, remainder: nat)
    requires Good(kinds, w) && to in w && to.isContainer && x in w && w[x].parent == null && to != x && !flags.childIsOwner
    requires AskAdd(kinds, w, to, index, x, flags) == NoError && NewOnes(w, made) && made != []
    requires Adds(kinds, w, v, to, index, x, flags, made, remainder)
    requires var onto := Destination(kinds, w, to, index, x, flags).2;
      GoesOnto(kinds, w, onto, x) && w[x].count > 100 - w[onto].count
    ensures AddKept(kinds, w, v, to, index, x, flags, remainder, Placed(x, made))
    decreases |made|, 0
  {
    hide Sound, StacksFit, AskAdd, Destination, AddKept, MergedAway, Rest, OneFull, NoRepeats, FirstMergeable;
    var onto := Destination(kinds, w, to, index, x, flags).2;
    SoundLinked(kinds, w);
    OntoFirst(kinds, w, to, index, x, flags);
    var list := w[to].list;
    var i := if flags.ignoreAutoStack then Index(list, onto) else FirstMergeable(w, list, x);
    var u := Rest(kinds, w, to, onto, x, 100 - w[onto].count, made[0]);
    RestGood(kinds, w, to, i, x, made[0]);
    RestNew(w, u, to, x, made, i);
    if !flags.ignoreAutoStack {
      RestGranted(kinds, w, u, to, index, x, flags, made[0]);
    }
    if AskAdd(kinds, u, to, INDEX_WHEREEVER, made[0], flags) == NoError {
      AddsKeep(kinds, u, v, to, INDEX_WHEREEVER, made[0], flags, made[1..], 0);
      KeptRest(kinds, w, u, v, to, index, x, flags, i, made[0], Placed(made[0], made[1..]));
    } else {
      KeptRemainder(kinds, w, u, to, index, x, flags, i, made[0]);
    }
  }

  lemma RestNew(w: World, u: World, to: Item, x: Item, made: seq<Item>, i: nat)
    requires to in w && x in w && to != x && i < |w[to].list| && w[to].list[i] in w
    requires made != [] && NewOnes(w, made) && OneFull(w, u, to, x, made[0], i)
    ensures to in u && made[0] in u && u[made[0]].parent == null && u[made[0]].id == w[x].id
    ensures u[made[0]].count == w[x].count - (100 - w[w[to].list[i]].count)
    ensures NewOnes(u, made[1..]) && Placed(x, made) == Placed(made[0], made[1..]) != x
    ensures Placed(x, made) == made[0] || Placed(x, made) !in u
  {
    assert Placed(x, made) in made;
    if |made| > 1 {
      assert made[1..][|made| - 2] == made[|made| - 1];
      assert Placed(x, made) in made[1..];
    }
  }

  // Putting nothing onto a stack changes nothing but cached weights, by nothing.
  lemma NothingPut(kinds: Kinds, w: World, c: Item, onto: Item)
    requires Good(kinds, w) && c in w && onto in w && onto in w[c].list && kinds(w[onto].id).stackable
    ensures var u := Updated(kinds, w, c, onto, w[onto].id, w[onto].count + 0);
      Good(kinds, u) && SameItems(w, u)
  {
    hide Sound, Updated;
    StackOf(kinds, w, onto);
    PutOnto(kinds, w, c, onto, 0);
    var u := Updated(kinds, w, c, onto, w[onto].id, w[onto].count + 0);
    forall y <- u ensures StackFits(kinds, y, u[y]) { StackOf(kinds, w, y); }
  }

  lemma SameAsItself(w: World)
    ensures SameItems(w, w)
  {}

  // internalAddItem onto a stack of the same kind
  method AddOnto(kinds: Kinds, toCylinder: Item, item: Item, ghost index0: int, index: int, toItem: Item, flags: Flags,
                 ghost items: set<Item>)
    returns (remainderCount: nat, ghost alive: set<Item>, ghost made: seq<Item>)
    requires Good(kinds, Snap(items)) && toCylinder in items && item in items && toCylinder.isContainer
    requires item != toCylinder && item.parent == null && !flags.childIsOwner && kinds(item.id).stackable
    requires AskAdd(kinds, Snap(items), toCylinder, index0, item, flags) == NoError
    requires (toCylinder, index, toItem) == Destination(kinds, Snap(items), toCylinder, index0, item, flags)
    requires toItem in items && toItem.id == item.id
    modifies items
    ensures Adds(kinds, old(Snap(items)), Snap(alive), toCylinder, index0, item, flags, made, remainderCount)
    ensures NewOnes(old(Snap(items)), made) && forall m <- made :: fresh(m)
    ensures items - {item} <= alive
    ensures forall x <- alive :: x in items || fresh(x)
    decreases item.count, 0
  {
    hide Sound, Inside, StacksFit, AskAdd, Destination, AddKept, Added, Updated, OneFull, PlainAdded, Units, Mergeable,
      FirstMergeable, Linked, SameItems, NoRepeats, IsUpdate, Relinked;
    ghost var w := Snap(items);
    remainderCount, alive, made := 0, items, [];
    SoundLinked(kinds, w);
    StackOf(kinds, w, item);
    StackOf(kinds, w, toItem);
    OntoFirst(kinds, w, toCylinder, index0, item, flags);
    NoneRepeat();
    var itemCount, id := item.count, item.id;
    var n := if 100 - toItem.count < itemCount then 100 - toItem.count else itemCount;
    assert n == Merged(w, toItem, item, itemCount);
    toCylinder.UpdateThing(kinds, toItem, toItem.id, toItem.count + n, items);
    var count := itemCount - n;
    if count > 0 {
      if itemCount != count {
        alive := items - {item};
        SnapWithout(items, item);
        remainderCount, alive, made := AddRest(kinds, w, toCylinder, item, index0, toItem, id, count, flags, alive);
      } else {
        NothingPut(kinds, w, toCylinder, toItem);
        PlainJoins(kinds, w, Snap(items), toCylinder, index0, item, flags);
        toCylinder.AddThing(kinds, index, item, items);
      }
    } else {
      alive := items - {item};
      SnapWithout(items, item);
    }
  }

  // What did not fit is added as a new item, anywhere in the same container. `w` is the world before the merge.
  method AddRest(kinds: Kinds, ghost w: World, toCylinder: Item, ghost item: Item, ghost index0: int, ghost toItem: Item,
                 id: nat, count: nat, flags: Flags, ghost items: set<Item>)
    returns (remainderCount: nat, ghost alive: set<Item>, ghost made: seq<Item>)
    requires Good(kinds, w) && toCylinder in w && item in w && toCylinder.isContainer && toItem in w && item != toCylinder
    requires w[item].parent == null && !flags.childIsOwner && kinds(w[item].id).stackable
    requires AskAdd(kinds, w, toCylinder, index0, item, flags) == NoError
    requires var (dest, _, onto) := Destination(kinds, w, toCylinder, index0, item, flags); dest == toCylinder && onto == toItem
    requires w[toItem].id == w[item].id == id && 0 < 100 - w[toItem].count && 0 < count == w[item].count - (100 - w[toItem].count)
    requires Snap(items) == MergedAway(kinds, w, toCylinder, toItem, item, 100 - w[toItem].count)
    requires w.Keys == items + {item}
    modifies items
    ensures Adds(kinds, w, Snap(alive), toCylinder, index0, item, flags, made, remainderCount)
    ensures NewOnes(w, made) && forall m <- made :: fresh(m)
    ensures items <= alive
    ensures forall x <- alive :: x in items || fresh(x)
    decreases count, 3
  {
    hide Sound, Inside, StacksFit, AskAdd, MaxCount, Destination, AddKept, MergedAway, OneFull, Units, NoRepeats,
         FirstMergeable, Adds, Rest, NewOnes;
    SoundLinked(kinds, w);
    OntoFirst(kinds, w, toCylinder, index0, item, flags);
    ghost var i := if flags.ignoreAutoStack then Index(w[toCylinder].list, toItem) else FirstMergeable(w, w[toCylinder].list, item);
    var remainderItem := new Item(id, count, false, 0, true);
    alive := items + {remainderItem};
    ghost var u := Snap(alive);
    SnapWith(items, remainderItem);
    assert toCylinder in items && toCylinder in alive;
    assert u == Rest(kinds, w, toCylinder, toItem, item, 100 - w[toItem].count, remainderItem) by {
      RestWith(kinds, w, toCylinder, toItem, item, 100 - w[toItem].count, remainderItem);
    }
    RestGood(kinds, w, toCylinder, i, item, remainderItem);
    var ret, lost;
    ret, lost, alive, made := InternalAddItem(kinds, toCylinder, remainderItem, INDEX_WHEREEVER, flags, false, alive);
    OneNewer(w, u, item, remainderItem, made);
    if ret != NoError {
      remainderCount := count;
      SnapWithout(alive, remainderItem);
      alive := alive - {remainderItem};
    } else {
      remainderCount := 0;
      NothingLost(kinds, u, Snap(alive), toCylinder, remainderItem, flags, lost, Placed(remainderItem, made));
    }
    RestAdds(kinds, w, u, Snap(alive), toCylinder, index0, item, toItem, flags, made, remainderItem, remainderCount);
    made := [remainderItem] + made;
  }

  lemma RestWith(kinds: Kinds, w: World, dest: Item, onto: Item, x: Item, n: nat, m: Item)
    requires dest in w && onto in w && x in w && n <= w[x].count
    ensures Rest(kinds, w, dest, onto, x, n, m)
      == MergedAway(kinds, w, dest, onto, x, n)[m := Cell(w[x].id, w[x].count - n, null, [], 0)]
  {}

  // What is left over is added, or it is the remainder.
  lemma RestAdds(kinds: Kinds, w: World, u: World, v: World, to: Item, index: int, x: Item, onto: Item, flags: Flags,
                 made: seq<Item>, m: Item, remainder: nat)
    requires to in w && x in w && to != x && onto in w && to != m && kinds(w[x].id).stackable && w[onto].id == w[x].id
    requires var (dest, _, o) := Destination(kinds, w, to, index, x, flags); dest == to && o == onto
    requires 0 < 100 - w[onto].count < w[x].count
    requires u == Rest(kinds, w, to, onto, x, 100 - w[onto].count, m) && to in u && m in u
    requires if AskAdd(kinds, u, to, INDEX_WHEREEVER, m, flags) == NoError
             then remainder == 0 && Adds(kinds, u, v, to, INDEX_WHEREEVER, m, flags, made, 0)
             else made == [] && v == u - {m} && remainder == w[x].count - (100 - w[onto].count)
    ensures Adds(kinds, w, v, to, index, x, flags, [m] + made, remainder)
  {
    hide Destination, AskAdd, Rest;
    assert ([m] + made)[1..] == made;
  }

  lemma NoneRepeat()
    ensures NoRepeats<Item>([])
  {}

  lemma OneNewer(w: World, u: World, x: Item, m: Item, made: seq<Item>)
    requires NewOnes(u, made) && m in u && m !in w && !m.isContainer && w.Keys <= u.Keys + {x} && x !in made
    ensures NewOnes(w, [m] + made)
  {}

  // What may be added to a container is not the container.
  lemma NotIntoItself(kinds: Kinds, w: World, to: Item, index: int, x: Item, flags: Flags)
    requires Linked(w) && to in w && to.isContainer && x in w && w[x].parent == null && !flags.childIsOwner
    requires AskAdd(kinds, w, to, index, x, flags) == NoError
    ensures to != x
  {
    hide Linked, Destination, MaxCount;
    HopFacts(kinds, w, to, index, x, flags);
    var dest := Destination(kinds, w, to, index, x, flags).0;
    if dest in w && w[dest].parent == x {
      ParentAround(w, x, dest);
    }
  }

  lemma ParentAround(w: World, a: Item, x: Item)
    requires x in w && w[x].parent == a
    ensures Inside(w, a, x)
  {
    assert AroundIn(w, a, x, 1);
  }

  // A container takes a thing anywhere if it is open, the thing can be picked up and does not hold it, and there is a free
  // slot, or room for all of it on stacks.
  ghost predicate Addable(kinds: Kinds, w: World, to: Item, x: Item, flags: Flags)
    requires to in w && x in w
  {
    && to.unlocked && kinds(w[x].id).pickupable && x != to && !Inside(w, x, to)
    && (|| flags.noLimit || |w[to].list| < to.maxSize
        || (kinds(w[x].id).stackable && !flags.ignoreAutoStack && w[x].count <= StackRoom(w, w[to].list, x)))
  }

  lemma AnsweredAnywhere(kinds: Kinds, w: World, to: Item, x: Item, flags: Flags)
    requires Good(kinds, w) && to in w && x in w && to.isContainer && w[x].parent == null && !flags.childIsOwner
    ensures AskAdd(kinds, w, to, INDEX_WHEREEVER, x, flags) == NoError <==> Addable(kinds, w, to, x, flags)
  {
    hide Sound, Inside, StacksFit, StackRoom, Mergeable;
    StackOf(kinds, w, x);
    if FirstMergeable(w, w[to].list, x) == -1 {
      NoRoom(w, w[to].list, x);
    }
  }

  // The answer to adding a thing that does not stack: both the container that it was meant for and the one that was named
  // must have a free slot. If it is added, it lies in front.
  ghost predicate WholeAdded(kinds: Kinds, w: World, v: World, to: Item, index: int, x: Item, dest: Item, flags: Flags,
                             test: bool, ret: ReturnValue)
    requires to in w && x in w && dest in w
  {
    !kinds(w[x].id).stackable && (MeantFor(w, to, index, x, dest) || (!to.unlocked && dest == to)) ==>
      && (ret == NoError && !test ==> x in v && dest in v && v[x].parent == dest && v[dest].list == [x] + w[dest].list)
      && ret == if !dest.unlocked then NotPossible
                else if !kinds(w[x].id).pickupable then CannotPickup
                else if x == dest || Inside(w, x, dest) then ThisIsImpossible
                else if !flags.noLimit && (dest.maxSize <= |w[dest].list| || to.maxSize <= |w[to].list|)
                then ContainerNotEnoughRoom
                else NoError
  }

  lemma WholeAnswered(kinds: Kinds, w: World, v: World, to: Item, index: int, x: Item, dest: Item, flags: Flags)
    requires Linked(w) && to in w && to.isContainer && x in w && !kinds(w[x].id).stackable && !flags.childIsOwner
    requires dest in w && (MeantFor(w, to, index, x, dest) || (!to.unlocked && dest == to))
    ensures Destination(kinds, w, to, index, x, flags).0 == dest
    ensures WholeAdded(kinds, w, v, to, index, x, dest, flags, true, AskAdd(kinds, w, to, index, x, flags))
  {
    hide Linked, Destination, Inside;
    DestinationIs(kinds, w, to, index, x, flags);
  }

  lemma WholeIsAdded(kinds: Kinds, w: World, v: World, to: Item, index: int, x: Item, dest: Item, flags: Flags, test: bool,
                     remainder: nat, s: Item)
    requires Linked(w) && to in w && to.isContainer && x in w && dest in w && !flags.childIsOwner && w[x].parent == null
    requires AskAdd(kinds, w, to, index, x, flags) == NoError && !test ==> AddKept(kinds, w, v, to, index, x, flags, remainder, s)
    ensures WholeAdded(kinds, w, v, to, index, x, dest, flags, test, AskAdd(kinds, w, to, index, x, flags))
  {
    hide Linked, Destination, Inside, AskAdd, Good, Units, NoOverflow, Filled, MeantFor, PutOnStack;
    if !kinds(w[x].id).stackable && (MeantFor(w, to, index, x, dest) || (!to.unlocked && dest == to)) {
      WholeAnswered(kinds, w, v, to, index, x, dest, flags);
    }
  }

  lemma AllWholeAdded(kinds: Kinds, w: World, v: World, to: Item, index: int, x: Item, flags: Flags, test: bool,
                      remainder: nat, s: Item)
    requires Linked(w) && to in w && to.isContainer && x in w && !flags.childIsOwner && w[x].parent == null
    requires AskAdd(kinds, w, to, index, x, flags) == NoError && !test ==> AddKept(kinds, w, v, to, index, x, flags, remainder, s)
    ensures forall dest <- w :: WholeAdded(kinds, w, v, to, index, x, dest, flags, test, AskAdd(kinds, w, to, index, x, flags))
  {
    hide AskAdd, AddKept, WholeAdded, Linked;
    forall dest <- w ensures WholeAdded(kinds, w, v, to, index, x, dest, flags, test, AskAdd(kinds, w, to, index, x, flags)) {
      WholeIsAdded(kinds, w, v, to, index, x, dest, flags, test, remainder, s);
    }
  }

  lemma PlainAdds(kinds: Kinds, w: World, to: Item, index: int, x: Item, flags: Flags)
    requires to in w && x in w && to != x
    requires var (dest, _, onto) := Destination(kinds, w, to, index, x, flags); dest in w && !SameKind(kinds, w, onto, x)
    ensures var (dest, at, _) := Destination(kinds, w, to, index, x, flags);
      Adds(kinds, w, Added(kinds, w, dest, at, x), to, index, x, flags, [], 0)
  {
    hide Destination, Added;
  }

  // Game::internalAddItem into containers
  method InternalAddItem(kinds: Kinds, toCylinder0: Item, item: Item, index0: int, flags: Flags, test: bool,
                         ghost items: set<Item>)
    returns (ret: ReturnValue, remainderCount: nat, ghost alive: set<Item>, ghost made: seq<Item>)
    requires Good(kinds, Snap(items)) && toCylinder0 in items && item in items && toCylinder0.isContainer
    requires item.parent == null && !flags.childIsOwner
    modifies items
    ensures ret == AskAdd(kinds, old(Snap(items)), toCylinder0, index0, item, flags)
    ensures index0 == INDEX_WHEREEVER ==> (ret == NoError <==> Addable(kinds, old(Snap(items)), toCylinder0, item, flags))
    ensures forall dest <- items :: WholeAdded(kinds, old(Snap(items)), Snap(alive), toCylinder0, index0, item, dest, flags, test, ret)
    ensures ret != NoError || test ==>
      remainderCount == 0 && alive == items && Snap(items) == old(Snap(items)) && made == []
    ensures ret == NoError && !test ==>
      && item != toCylinder0
      && Adds(kinds, old(Snap(items)), Snap(alive), toCylinder0, index0, item, flags, made, remainderCount)
      && AddKept(kinds, old(Snap(items)), Snap(alive), toCylinder0, index0, item, flags, remainderCount, Placed(item, made))
    ensures NewOnes(old(Snap(items)), made) && forall m <- made :: fresh(m)
    ensures items - {item} <= alive
    ensures forall x <- alive :: x in items || fresh(x)
    decreases item.count, 2
  {
    hide Good, Inside, AskAdd, Destination, AddKept, Addable, WholeAdded, Adds, NewOnes, Placed;
    ghost var w := Snap(items);
    remainderCount, alive, made := 0, items, [];
    NoneNew(w);
    GoodLinked(kinds, w);
    AnsweredAnywhere(kinds, w, toCylinder0, item, flags);
    var toCylinder, index, toItem;
    ret, toCylinder, index, toItem := AskToAdd(kinds, toCylinder0, item, index0, flags, items);
    if ret == NoError && !test {
      remainderCount, alive, made := PutIn(kinds, toCylinder0, item, index0, toCylinder, index, toItem, flags, items);
      AddsKeep(kinds, w, Snap(alive), toCylinder0, index0, item, flags, made, remainderCount);
    }
    AllWholeAdded(kinds, w, Snap(alive), toCylinder0, index0, item, flags, test, remainderCount, Placed(item, made));
  }

  lemma NoneNew(w: World)
    ensures NewOnes(w, [])
  {}

  lemma GoodLinked(kinds: Kinds, w: World)
    requires Good(kinds, w)
    ensures Linked(w) && Acyclic(w)
  {}

  // The first half of internalAddItem: nothing but queries.
  method AskToAdd(kinds: Kinds, destCylinder: Item, item: Item, index0: int, flags: Flags, ghost items: set<Item>)
    returns (ret: ReturnValue, toCylinder: Item, index: int, toItem: Item?)
    requires Linked(Snap(items)) && Acyclic(Snap(items)) && destCylinder in items && item in items && destCylinder.isContainer
    ensures (toCylinder, index, toItem) == Destination(kinds, Snap(items), destCylinder, index0, item, flags)
    ensures ret == AskAdd(kinds, Snap(items), destCylinder, index0, item, flags)
  {
    hide Linked, Acyclic, AddAnswer, MaxCount, Destination;
    HopFacts(kinds, Snap(items), destCylinder, index0, item, flags);
    toCylinder, index, toItem := destCylinder.QueryDestination(kinds, index0, item, flags, items);
    ret := toCylinder.QueryAdd(kinds, index, item, flags, items);
    if ret != NoError {
      return;
    }
    var maxQueryCount;
    ret, maxQueryCount := destCylinder.QueryMaxCount(kinds, INDEX_WHEREEVER, item, item.count, flags, items);
  }

  // The second half: the item is merged, or put in.
  method PutIn(kinds: Kinds, ghost toCylinder0: Item, item: Item, index0: int, toCylinder: Item, index: int, toItem: Item?,
               flags: Flags, ghost items: set<Item>)
    returns (remainderCount: nat, ghost alive: set<Item>, ghost made: seq<Item>)
    requires Good(kinds, Snap(items)) && toCylinder0 in items && item in items && toCylinder0.isContainer
    requires item.parent == null && !flags.childIsOwner
    requires AskAdd(kinds, Snap(items), toCylinder0, index0, item, flags) == NoError
    requires (toCylinder, index, toItem) == Destination(kinds, Snap(items), toCylinder0, index0, item, flags)
    modifies items
    ensures item != toCylinder0
    ensures Adds(kinds, old(Snap(items)), Snap(alive), toCylinder0, index0, item, flags, made, remainderCount)
    ensures NewOnes(old(Snap(items)), made) && forall m <- made :: fresh(m)
    ensures items - {item} <= alive
    ensures forall x <- alive :: x in items || fresh(x)
    decreases item.count, 1
  {
    hide Sound, Inside, StacksFit, AddAnswer, MaxCount, Destination, Added, PlainAdded, Acyclic, Linked, NoRepeats,
      MergedAway, Rest, Adds, Relinked;
    ghost var w := Snap(items);
    remainderCount, alive, made := 0, items, [];
    SoundLinked(kinds, w);
    HopFacts(kinds, w, toCylinder0, index0, item, flags);
    NoneRepeat();
    NotIntoItself(kinds, w, toCylinder0, index0, item, flags);
    if kinds(item.id).stackable && toItem != null && toItem.id == item.id {
      OntoFirst(kinds, w, toCylinder0, index0, item, flags);
      remainderCount, alive, made := AddOnto(kinds, toCylinder, item, index0, index, toItem, flags, items);
    } else {
      SameAsItself(w);
      PlainJoins(kinds, w, w, toCylinder0, index0, item, flags);
      toCylinder.AddThing(kinds, index, item, items);
      PlainAdds(kinds, w, toCylinder0, index0, item, flags);
    }
  }

  // ---------- where capacity fails ----------

  // Items of type 2 stack; nothing weighs anything.
  const EXAMPLE_KINDS: Kinds := id => Kind(id == 2, false, false, true, true, 0)

  const EXAMPLE_BAG := 1
  const EXAMPLE_STACK := 2
  const EXAMPLE_THING := 3

  // A bag with a thing and a stack in it
  function ExampleBag(bag: Item, other: Item, s: Item, units: nat): World {
    map[bag := Cell(EXAMPLE_BAG, 1, null, [other, s], 0), other := Cell(EXAMPLE_THING, 1, bag, [], 0),
        s := Cell(EXAMPLE_STACK, units, bag, [], 0)]
  }

  // Containers that lie nowhere, with things in them that weigh nothing, are a good world.
  lemma FlatGood(w: World)
    requires Linked(w) && StacksFit(EXAMPLE_KINDS, w) && forall y <- w :: w[y].total == 0
    requires forall y <- w :: w[y].parent == null || (w[y].parent in w && w[w[y].parent].parent == null)
    ensures Good(EXAMPLE_KINDS, w)
  {
    hide NoRepeats;
    assert forall y <- w :: Grounded(w, y, 2);
    assert AllGrounded(w, 2);
    forall c <- w ensures Balanced(EXAMPLE_KINDS, w, c) {
      NothingWeighs(w, w[c].list);
    }
  }

  lemma {:induction false} NothingWeighs(w: World, xs: seq<Item>)
    requires forall x <- xs :: x in w && w[x].total == 0
    ensures Sum(EXAMPLE_KINDS, w, xs) == 0
    decreases |xs|
  {
    if xs != [] {
      NothingWeighs(w, xs[1..]);
    }
  }

  lemma LooseOutside(w: World, x: Item, c: Item)
    requires c in w && w[c].parent == null
    ensures !Inside(w, x, c)
  {}

  // A full bag with room on its stack, and another stack that is to be added
  predicate FullBag(bag: Item, other: Item, s: Item, x: Item) {
    && bag != other && bag != s && other != s && x != bag && x != other && x != s
    && bag.isContainer && bag.maxSize == 2 && bag.unlocked && !other.isContainer && !s.isContainer && !x.isContainer
  }

  predicate IsExampleBag(w: World, bag: Item, other: Item, s: Item, x: Item) {
    && w.Keys == {bag, other, s, x}
    && w[bag] == Cell(EXAMPLE_BAG, 1, null, [other, s], 0) && w[other] == Cell(EXAMPLE_THING, 1, bag, [], 0)
    && w[s] == Cell(EXAMPLE_STACK, 50, bag, [], 0) && w[x] == Cell(EXAMPLE_STACK, 10, null, [], 0)
  }

  // With FLAG_IGNOREAUTOSTACK and an index a full bag takes a third item: __queryAdd does not look at its size, and
  // __queryMaxCount counts the room on a stack that the new one is not put onto.
  lemma BagOverflows(bag: Item, other: Item, s: Item, x: Item)
    requires FullBag(bag, other, s, x)
    ensures var w := ExampleBag(bag, other, s, 50)[x := Cell(EXAMPLE_STACK, 10, null, [], 0)];
      var v, flags := Added(EXAMPLE_KINDS, w, bag, 0, x), Flags(false, false, false, true);
      && Good(EXAMPLE_KINDS, w) && AskAdd(EXAMPLE_KINDS, w, bag, 0, x, flags) == NoError
      && Adds(EXAMPLE_KINDS, w, v, bag, 0, x, flags, [], 0)
      && bag in v && v[bag].list == [x, other, s] && !NoOverflow(w, v)
  {
    hide Good, AskAdd, Added, Adds, Destination;
    var w, flags := ExampleBag(bag, other, s, 50)[x := Cell(EXAMPLE_STACK, 10, null, [], 0)], Flags(false, false, false, true);
    BagGood(w, bag, other, s, x);
    BagTakes(w, bag, other, s, x);
    SameAsItself(w);
    PlainJoins(EXAMPLE_KINDS, w, w, bag, 0, x, flags);
  }

  lemma BagGood(w: World, bag: Item, other: Item, s: Item, x: Item)
    requires FullBag(bag, other, s, x) && IsExampleBag(w, bag, other, s, x)
    ensures Good(EXAMPLE_KINDS, w)
  {
    hide Sound, NoRepeats;
    TwoNoRepeats(other, s);
    NoneRepeat();
    FlatGood(w);
  }

  lemma BagTakes(w: World, bag: Item, other: Item, s: Item, x: Item)
    requires FullBag(bag, other, s, x) && IsExampleBag(w, bag, other, s, x)
    ensures var flags := Flags(false, false, false, true);
      && Destination(EXAMPLE_KINDS, w, bag, 0, x, flags) == (bag, 0, other)
      && AskAdd(EXAMPLE_KINDS, w, bag, 0, x, flags) == NoError
      && Adds(EXAMPLE_KINDS, w, Added(EXAMPLE_KINDS, w, bag, 0, x), bag, 0, x, flags, [], 0)
  {
    hide Added, Inside;
    LooseOutside(w, x, bag);
    assert StackRoom(w, [other, s], x) == 50 by {
      assert [other, s][..1] == [other] && [other][..0] == [];
      assert StackRoom(w, [other], x) == 0;
    }
  }

  // A bag that is fuller than it may be, and a stack in another one that is to be moved there
  predicate OverfullBag(bag: Item, other: Item, s: Item, from: Item, x: Item, made: Item) {
    && bag != other && bag != s && other != s && from != bag && from != other && from != s
    && x != bag && x != other && x != s && x != from
    && made != bag && made != other && made != s && made != from && made != x
    && bag.isContainer && bag.maxSize == 1 && bag.unlocked && from.isContainer
    && !other.isContainer && !s.isContainer && !x.isContainer && !made.isContainer
  }

  function ExampleDrop(bag: Item, other: Item, s: Item, from: Item, x: Item): World {
    ExampleBag(bag, other, s, 95)[from := Cell(EXAMPLE_BAG, 1, null, [x], 0)][x := Cell(EXAMPLE_STACK, 50, from, [], 0)]
  }

  predicate IsExampleDrop(w: World, bag: Item, other: Item, s: Item, from: Item, x: Item) {
    && w.Keys == {bag, other, s, from, x}
    && w[bag] == Cell(EXAMPLE_BAG, 1, null, [other, s], 0) && w[other] == Cell(EXAMPLE_THING, 1, bag, [], 0)
    && w[s] == Cell(EXAMPLE_STACK, 95, bag, [], 0) && w[from] == Cell(EXAMPLE_BAG, 1, null, [x], 0)
    && w[x] == Cell(EXAMPLE_STACK, 50, from, [], 0)
  }

  // With FLAG_NOLIMIT, 50 units are moved to a partial stack beyond the bag's capacity: 5 are put onto it, and the other
  // 45 lie nowhere.
  lemma UnitsDropped(bag: Item, other: Item, s: Item, from: Item, x: Item, made: Item)
    requires OverfullBag(bag, other, s, from, x, made)
    ensures var w := ExampleDrop(bag, other, s, from, x);
      var flags := Flags(true, false, false, false);
      && Good(EXAMPLE_KINDS, w) && from in w && bag in w && x in w
      && PlanMove(EXAMPLE_KINDS, w, from, bag, INDEX_WHEREEVER, x, 50, flags).answer == NoError
      && var v := Moved(EXAMPLE_KINDS, w, from, bag, INDEX_WHEREEVER, x, 50, flags, made);
         && v.Keys == {bag, other, s, from, made} && v[s].count == 100
         && v[made].count == 45 && v[made].parent == null && v[bag].list == [other, s] && v[from].list == []
  {
    hide Good, Moved, Committed, PlanMove, StackMoved, ExampleDrop;
    var w := ExampleDrop(bag, other, s, from, x);
    var flags := Flags(true, false, false, false);
    DropFacts(bag, other, s, from, x);
    DropGood(w, bag, other, s, from, x, made);
    PlanDrops(w, bag, other, s, from, x, made);
    PlanGranted(EXAMPLE_KINDS, w, from, bag, INDEX_WHEREEVER, x, 50, flags);
    MoveStack(EXAMPLE_KINDS, w, from, bag, 1, s, x, 50, made);
    DroppedWorld(w, bag, other, s, from, x, made, Moved(EXAMPLE_KINDS, w, from, bag, INDEX_WHEREEVER, x, 50, flags, made));
  }

  lemma DropFacts(bag: Item, other: Item, s: Item, from: Item, x: Item)
    requires bag != other && bag != s && other != s && from !in {bag, other, s} && x !in {bag, other, s, from}
    ensures IsExampleDrop(ExampleDrop(bag, other, s, from, x), bag, other, s, from, x)
  {}

  lemma DropGood(w: World, bag: Item, other: Item, s: Item, from: Item, x: Item, made: Item)
    requires OverfullBag(bag, other, s, from, x, made) && IsExampleDrop(w, bag, other, s, from, x)
    ensures Good(EXAMPLE_KINDS, w)
  {
    hide Sound, NoRepeats;
    TwoNoRepeats(other, s);
    TwoNoRepeats(x, bag);
    NoneRepeat();
    FlatGood(w);
  }

  lemma TwoNoRepeats(x: Item, y: Item)
    requires x != y
    ensures NoRepeats([x, y]) && NoRepeats([x])
  {}

  lemma PlanDrops(w: World, bag: Item, other: Item, s: Item, from: Item, x: Item, made: Item)
    requires OverfullBag(bag, other, s, from, x, made) && IsExampleDrop(w, bag, other, s, from, x)
    ensures var flags := Flags(true, false, false, false);
      && PlanMove(EXAMPLE_KINDS, w, from, bag, INDEX_WHEREEVER, x, 50, flags) == Go(bag, 1, s, 50, NoError)
      && Moved(EXAMPLE_KINDS, w, from, bag, INDEX_WHEREEVER, x, 50, flags, made)
         == Committed(EXAMPLE_KINDS, w, from, bag, 1, s, x, 50, made)
  {
    hide Committed, Inside;
    LooseOutside(w, x, bag);
    assert [other, s][1..] == [s];
    assert FirstMergeable(w, [s], x) == 0;
  }

  lemma DroppedWorld(w: World, bag: Item, other: Item, s: Item, from: Item, x: Item, made: Item, v: World)
    requires OverfullBag(bag, other, s, from, x, made) && IsExampleDrop(w, bag, other, s, from, x)
    requires StackMoved(w, v, bag, 1, s, x, 50, made)
    ensures v.Keys == {bag, other, s, from, made} && v[s].count == 100
    ensures v[made].count == 45 && v[made].parent == null && v[bag].list == [other, s] && v[from].list == []
  {
    hide Without;
    assert Merged(w, s, x, 50) == 5;
    WithoutNone([other, s], x);
    WithoutOnly(x);
  }

  lemma WithoutNone(xs: seq<Item>, x: Item)
    requires x !in xs
    ensures Without(xs, x) == xs
  {}

  lemma WithoutOnly(x: Item)
    ensures Without([x], x) == []
  {}

  // ---------- Game::internalRemoveItem ----------

  // The count -1 stands for the whole item.
  function RemoveCount(c: Cell, count: int): nat
    requires count >= -1
  {
    if count == -1 then c.count else count
  }

  function AskRemove(kinds: Kinds, w: World, x: Item, count: nat): ReturnValue
    requires x in w
  {
    if w[x].parent == null || w[x].parent !in w then NotPossible
    else RemoveAnswer(kinds, w, w[x].parent, x, count, NO_FLAGS.(ignoreNotMoveable := true))
  }

  // A stack may be taken out of where it is.
  lemma RemoveGranted(kinds: Kinds, w: World, x: Item, m: nat)
    requires Good(kinds, w) && x in w && kinds(w[x].id).stackable && AskRemove(kinds, w, x, m) == NoError
    ensures Granted(kinds, w, w[x].parent, w[x].parent, INDEX_WHEREEVER, null, x, m)
  {
    StackListed(kinds, w, x);
    var from := w[x].parent;
    EmptyHoldsNothing(w, x, from);
  }

  // The units that are asked for are gone, and nothing else.
  lemma RemoveKeeps(kinds: Kinds, w: World, x: Item, m: nat)
    requires Good(kinds, w) && x in w && kinds(w[x].id).stackable && AskRemove(kinds, w, x, m) == NoError
    ensures var v := Taken(kinds, w, w[x].parent, w[x].parent, null, x, m);
      && Good(kinds, v) && StackTaken(w, v, null, x, m)
      && forall id :: Units(v, id) == Units(w, id) - if id == w[x].id then m else 0
  {
    hide Sound, Taken, Without, StacksFit;
    RemoveGranted(kinds, w, x, m);
    TakenGood(kinds, w, w[x].parent, w[x].parent, INDEX_WHEREEVER, null, x, m);
    var v := Taken(kinds, w, w[x].parent, w[x].parent, null, x, m);
    forall id ensures Units(v, id) == Units(w, id) - if id == w[x].id then m else 0 {
      if m == w[x].count {
        UnitsTake(w, x, id);
        UnitsSame(w - {x}, v, id);
      } else {
        UnitsChange(w, v, x, id);
      }
    }
  }

  // A removed stack is released when nothing of it is left; any other item then lies nowhere.
  method InternalRemoveItem(kinds: Kinds, item: Item, count0: int, test: bool, ghost items: set<Item>)
    returns (ret: ReturnValue, ghost alive: set<Item>)
    requires Good(kinds, Snap(items)) && item in items && count0 >= -1
    modifies items
    ensures ret == AskRemove(kinds, old(Snap(items)), item, RemoveCount(old(item.GetCell()), count0))
    ensures ret == NoError <==>
      old(item.parent) != null
      && (if count0 == -1 then old(item.count) > 0 else count0 > 0 && (kinds(old(item.id)).stackable ==> count0 <= old(item.count)))
    ensures ret != NoError || test ==> alive == items && Snap(items) == old(Snap(items))
    ensures items - {item} <= alive <= items && Good(kinds, Snap(alive))
    ensures ret == NoError && !test && kinds(old(item.id)).stackable ==>
      && old(item.parent) in items
      && Snap(alive) == Taken(kinds, old(Snap(items)), old(item.parent), old(item.parent), null, item,
                              RemoveCount(old(item.GetCell()), count0))
      && StackTaken(old(Snap(items)), Snap(alive), null, item, RemoveCount(old(item.GetCell()), count0))
      && forall id :: Units(Snap(alive), id) == old(Units(Snap(items), id))
                   - if id == old(item.id) then RemoveCount(old(item.GetCell()), count0) else 0
    ensures ret == NoError && !test && !kinds(old(item.id)).stackable ==>
      && alive == items && item.parent == null
      && old(item.parent) in items && old(item.parent).itemlist == Without(old(item.parent.itemlist), item)
      && Snap(items) == Removed(kinds, old(Snap(items)), old(item.parent), item, RemoveCount(old(item.GetCell()), count0))
  {
    hide Sound, StacksFit, Units, Without, Merged, IsRemoval;
    ghost var w := Snap(items);
    alive := items;
    SoundLinked(kinds, w);
    ParentIn(w, item);
    var cylinder := item.parent;
    if cylinder == null {
      return NotPossible, alive;
    }
    var count := if count0 == -1 then item.count else count0;
    ret := cylinder.QueryRemove(kinds, item, count, NO_FLAGS.(ignoreNotMoveable := true), items);
    if ret != NoError || test {
      return;
    }
    if kinds(item.id).stackable {
      RemoveKeeps(kinds, w, item, count);
      RemoveGranted(kinds, w, item, count);
      var rest;
      rest, alive := TakeStack(kinds, cylinder, cylinder, INDEX_WHEREEVER, null, item, count, items);
    } else {
      WholeLoose(kinds, w, cylinder, item, count);
      SameFits(kinds, w, Removed(kinds, w, cylinder, item, count));
      cylinder.RemoveThing(kinds, item, count, items);
    }
  }

  lemma SameFits(kinds: Kinds, w: World, v: World)
    requires StacksFit(kinds, w) && w.Keys == v.Keys && forall y <- w :: v[y].id == w[y].id && v[y].count == w[y].count
    ensures StacksFit(kinds, v)
  {}

  // ---------- whole runs ----------

  // What can happen to items
  datatype Step =
    | Create(x: Item, id: nat, count: nat)
    | Move(x: Item, from: Item, to: Item, index: int, count: nat, flags: Flags, split: Item)
    | Add(x: Item, to: Item, index: int, flags: Flags, made: seq<Item>, remainder: nat)
    | Remove(x: Item, count: nat)

  // The step leads from `w` to `v`: a loose thing is created, or one of the three operations does what it does, which is
  // nothing when it is refused.
  ghost predicate Leads(kinds: Kinds, w: World, v: World, step: Step) {
    match step
    case Create(x, id, count) =>
      x !in w && v == w[x := Cell(id, count, null, [], 0)] && StackFits(kinds, x, v[x])
    case Move(x, from, to, index, count, flags, made) =>
      && x in w && from in w && to in w && to.isContainer && !flags.childIsOwner
      && (Splits(kinds, w, PlanMove(kinds, w, from, to, index, x, count, flags), x) ==> made !in w && !made.isContainer)
      && v == Moved(kinds, w, from, to, index, x, count, flags, made)
    case Add(x, to, index, flags, made, remainder) =>
      && x in w && to in w && to.isContainer && w[x].parent == null && !flags.childIsOwner && NewOnes(w, made)
      && if Refused(kinds, w, step) then v == w && remainder == 0
         else Adds(kinds, w, v, to, index, x, flags, made, remainder)
    case Remove(x, count) =>
      && x in w
      && v == if Refused(kinds, w, step) then w
              else if kinds(w[x].id).stackable then Taken(kinds, w, w[x].parent, w[x].parent, null, x, count)
              else Removed(kinds, w, w[x].parent, x, count)
  }

  // The queries refuse to add or to remove.
  ghost predicate Refused(kinds: Kinds, w: World, step: Step) {
    match step
    case Add(x, to, index, flags, _, _) =>
      x in w && to in w ==> x == to || AskAdd(kinds, w, to, index, x, flags) != NoError
    case Remove(x, count) => x in w ==> AskRemove(kinds, w, x, count) != NoError
    case _ => false
  }

  // Nothing may be put into a full container: FLAG_NOLIMIT is not set, and a thing that is added to a container that is
  // full goes onto a stack.
  ghost predicate Bounded(kinds: Kinds, w: World, step: Step) {
    match step
    case Move(_, _, _, _, _, flags, _) => !flags.noLimit
    case Add(x, to, index, flags, _, _) =>
      !flags.noLimit && (x in w && to in w && !Refused(kinds, w, step) ==>
        var (dest, _, onto) := Destination(kinds, w, to, index, x, flags);
        dest in w ==> GoesOnto(kinds, w, onto, x) || |w[dest].list| < dest.maxSize)
    case _ => true
  }

  // How many units of a type a step brings or takes
  ghost function Gain(kinds: Kinds, w: World, step: Step, id: nat): int {
    match step
    case Create(_, i, count) => if i == id then count else 0
    case Move(_, _, _, _, _, _, _) => 0
    case Add(x, _, _, _, _, remainder) => if x in w && w[x].id == id then 0 - remainder else 0
    case Remove(x, count) =>
      if x in w && w[x].id == id && kinds(id).stackable && !Refused(kinds, w, step) then 0 - count else 0
  }

  lemma StepKeeps(kinds: Kinds, w: World, v: World, step: Step)
    requires Good(kinds, w) && Leads(kinds, w, v, step)
    ensures Good(kinds, v) && forall id :: Units(v, id) == Units(w, id) + Gain(kinds, w, step, id)
    ensures Bounded(kinds, w, step) ==> NoOverflow(w, v)
  {
    hide Sound, Units, Moved, Taken, StacksFit, PlanMove, Without, Filled, PutOnStack, PlainAdded, NoOverflow, Destination,
      Removed, StackTaken, Adds, AskAdd, GoesOnto;
    NothingOverflows(w);
    match step
    case Create(x, id, count) => CreateKeeps(kinds, w, x, id, count);
    case Move(x, from, to, index, count, flags, made) => MoveKeeps(kinds, w, from, to, index, x, count, flags, made);
    case Add(x, to, index, flags, made, remainder) =>
      if !Refused(kinds, w, step) {
        AddsKeep(kinds, w, v, to, index, x, flags, made, remainder);
      }
    case Remove(x, count) =>
      if !Refused(kinds, w, step) {
        if kinds(w[x].id).stackable {
          RemoveKeeps(kinds, w, x, count);
          TakenShorter(w, v, x, count);
        } else {
          RemoveWhole(kinds, w, x, count);
        }
      }
  }

  lemma TakenShorter(w: World, v: World, x: Item, m: nat)
    requires x in w && m <= w[x].count && StackTaken(w, v, null, x, m)
    ensures NoOverflow(w, v)
  {
    hide Without;
    forall c <- v ensures |v[c].list| <= |w[c].list| {
      WithoutShorter(w[c].list, x);
    }
  }

  lemma OverflowOn(u: World, v: World, w: World)
    requires NoOverflow(u, v) && NoOverflow(v, w)
    ensures NoOverflow(u, w)
  {}

  lemma CreateKeeps(kinds: Kinds, w: World, x: Item, id: nat, count: nat)
    requires Good(kinds, w) && x !in w && StackFits(kinds, x, Cell(id, count, null, [], 0))
    ensures var v := w[x := Cell(id, count, null, [], 0)];
      Good(kinds, v) && NoOverflow(w, v) && forall k :: Units(v, k) == Units(w, k) + if k == id then count else 0
  {
    hide Sound;
    var v := w[x := Cell(id, count, null, [], 0)];
    NewSound(kinds, w, x, Cell(id, count, null, [], 0));
    forall k ensures Units(v, k) == Units(w, k) + if k == id then count else 0 {
      UnitsTake(v, x, k);
      assert v - {x} == w;
    }
  }

  lemma RemoveWhole(kinds: Kinds, w: World, x: Item, count: nat)
    requires Good(kinds, w) && x in w && !kinds(w[x].id).stackable && AskRemove(kinds, w, x, count) == NoError
    ensures w[x].parent in w
    ensures var v := Removed(kinds, w, w[x].parent, x, count);
      Good(kinds, v) && NoOverflow(w, v) && forall id :: Units(v, id) == Units(w, id)
  {
    hide Sound, Removed, Without, StacksFit;
    var v := Removed(kinds, w, w[x].parent, x, count);
    RemoveSound(kinds, w, w[x].parent, x, count);
    WholeLoose(kinds, w, w[x].parent, x, count);
    SameFits(kinds, w, v);
    forall id ensures Units(v, id) == Units(w, id) {
      UnitsSame(w, v, id);
    }
    forall c <- v ensures |v[c].list| <= |w[c].list| {
      WithoutShorter(w[c].list, x);
    }
  }

  ghost predicate IsRun(kinds: Kinds, worlds: seq<World>, steps: seq<Step>) {
    && |worlds| == |steps| + 1 && Good(kinds, worlds[0])
    && forall i :: 0 <= i < |steps| ==> Leads(kinds, worlds[i], worlds[i + 1], steps[i])
  }

  ghost function GainUpTo(kinds: Kinds, worlds: seq<World>, steps: seq<Step>, k: nat, id: nat): int
    requires k <= |steps| < |worlds|
  {
    if k == 0 then 0 else GainUpTo(kinds, worlds, steps, k - 1, id) + Gain(kinds, worlds[k - 1], steps[k - 1], id)
  }

  // In every world that a run leads to, no item is inside itself, all cached weights are true, stacks hold 1 to 100, and
  // there are exactly the units that were created and not removed. If nothing is put into full containers, none holds
  // more than it may, or than it held at first.
  lemma {:induction false} RunKeeps(kinds: Kinds, worlds: seq<World>, steps: seq<Step>, k: nat)
    requires IsRun(kinds, worlds, steps) && k <= |steps|
    ensures Good(kinds, worlds[k])
    ensures forall x :: !Inside(worlds[k], x, x)
    ensures exists n: nat :: TrueFrom(kinds, worlds[k], n)
    ensures forall id :: Units(worlds[k], id) == Units(worlds[0], id) + GainUpTo(kinds, worlds, steps, k, id)
    ensures (forall i :: 0 <= i < k ==> Bounded(kinds, worlds[i], steps[i])) ==> NoOverflow(worlds[0], worlds[k])
  {
    hide Sound, StacksFit, Leads, Gain, Units, Inside, TrueFrom, Bounded, NoOverflow;
    if k > 0 {
      RunKeeps(kinds, worlds, steps, k - 1);
      StepKeeps(kinds, worlds[k - 1], worlds[k], steps[k - 1]);
      if forall i :: 0 <= i < k ==> Bounded(kinds, worlds[i], steps[i]) {
        OverflowOn(worlds[0], worlds[k - 1], worlds[k]);
      }
    } else {
      NothingOverflows(worlds[0]);
    }
    SoundLinked(kinds, worlds[k]);
    SoundAcyclic(kinds, worlds[k]);
    CachedWeightsTrue(kinds, worlds[k]);
    forall x ensures !Inside(worlds[k], x, x) {
      NotInsideItself(worlds[k], x);
    }
  }
}
