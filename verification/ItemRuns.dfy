/** Whole runs on the heap: whatever is made, put into containers, moved about and taken away, in whatever order, the
    worlds that the server goes through are a run in the sense of `ItemMoves`, so what holds of every run holds of it. */
module ItemRuns {
  import opened ItemWorld
  import opened ItemMoves

  // What is asked for. Containers are named by number, in the order in which they came into being, and other things by
  // their slot in a container.
  datatype Order =
    | MakeChest(id: nat, maxSize: nat, unlocked: bool)
    | PutNew(id: nat, count: nat, to: nat, index: int, flags: Flags)
    | PutChest(chest: nat, to: nat, index: int, flags: Flags)
    | MoveThing(from: nat, slot: nat, to: nat, index: int, count: nat, flags: Flags)
    | TakeThing(from: nat, slot: nat, units: int)

  // What is made fits its type, and counts are counts.
  predicate Sensible(kinds: Kinds, o: Order) {
    match o
    case MakeChest(id, _, _) => !kinds(id).stackable
    case PutNew(id, count, _, _, flags) =>
      !flags.childIsOwner && (kinds(id).stackable ==> 1 <= count <= 100 && !kinds(id).fluid)
    case PutChest(_, _, _, flags) => !flags.childIsOwner
    case MoveThing(_, _, _, _, _, flags) => !flags.childIsOwner
    case TakeThing(_, _, units) => units >= -1
  }

  // Neither FLAG_NOLIMIT nor, when something is added, FLAG_IGNOREAUTOSTACK
  predicate Careful(o: Order) {
    match o
    case PutNew(_, _, _, _, flags) => !flags.noLimit && !flags.ignoreAutoStack
    case PutChest(_, _, _, flags) => !flags.noLimit && !flags.ignoreAutoStack
    case MoveThing(_, _, _, _, _, flags) => !flags.noLimit
    case _ => true
  }

  predicate IsAdd(step: Step, x: Item, to: Item, index: int, flags: Flags) {
    step.Add? && step == Add(x, to, index, flags, step.made, step.remainder)
  }

  predicate IsMove(step: Step, x: Item, from: Item, to: Item, index: int, count: nat, flags: Flags) {
    step.Move? && step == Move(x, from, to, index, count, flags, step.split)
  }

  // The steps are what the order asks for in the world `w`; they are none if it names something that is not there.
  ghost predicate Served(kinds: Kinds, o: Order, chests: seq<Item>, chests': seq<Item>, w: World, steps: seq<Step>) {
    && (forall c <- chests :: c in w)
    && match o
       case MakeChest(id, maxSize, unlocked) =>
         && |steps| == 1 && steps[0].Create?
         && var x := steps[0].x;
            && steps[0] == Create(x, id, 1) && chests' == chests + [x]
            && x.isContainer && x.maxSize == maxSize && x.unlocked == unlocked
       case PutNew(id, count, to, index, flags) =>
         && chests' == chests
         && if to < |chests|
            then |steps| == 2 && steps[0].Create? && steps[0] == Create(steps[0].x, id, count) && !steps[0].x.isContainer
              && IsAdd(steps[1], steps[0].x, chests[to], index, flags)
            else steps == []
       case PutChest(chest, to, index, flags) =>
         && chests' == chests
         && if chest < |chests| && to < |chests| && w[chests[chest]].parent == null
            then |steps| == 1 && IsAdd(steps[0], chests[chest], chests[to], index, flags)
            else steps == []
       case MoveThing(from, slot, to, index, count, flags) =>
         && chests' == chests
         && if from < |chests| && to < |chests| && slot < |w[chests[from]].list|
            then |steps| == 1 && IsMove(steps[0], w[chests[from]].list[slot], chests[from], chests[to], index, count, flags)
            else steps == []
       case TakeThing(from, slot, units) =>
         && chests' == chests && units >= -1
         && if from < |chests| && slot < |w[chests[from]].list| && w[chests[from]].list[slot] in w
            then steps == [Remove(w[chests[from]].list[slot], RemoveCount(w[w[chests[from]].list[slot]], units))]
            else steps == []
  }

  predicate Chests(chests: seq<Item>, items: set<Item>) {
    forall c <- chests :: c in items && c.isContainer
  }

  // ---------- runs put together ----------

  ghost predicate AllBounded(kinds: Kinds, worlds: seq<World>, steps: seq<Step>)
    requires |worlds| == |steps| + 1
  {
    forall i :: 0 <= i < |steps| ==> Bounded(kinds, worlds[i], steps[i])
  }

  // A run from `u` to `v`
  ghost predicate RunFrom(kinds: Kinds, worlds: seq<World>, steps: seq<Step>, u: World, v: World) {
    IsRun(kinds, worlds, steps) && worlds[0] == u && worlds[|steps|] == v
  }

  lemma NoSteps(kinds: Kinds, w: World)
    requires Good(kinds, w)
    ensures RunFrom(kinds, [w], [], w, w) && AllBounded(kinds, [w], [])
  {}

  lemma OneStep(kinds: Kinds, w: World, v: World, step: Step)
    requires Good(kinds, w) && Leads(kinds, w, v, step)
    ensures RunFrom(kinds, [w, v], [step], w, v)
    ensures Bounded(kinds, w, step) ==> AllBounded(kinds, [w, v], [step])
  {
    hide Good, Leads, Bounded;
  }

  lemma TwoSteps(kinds: Kinds, u: World, w: World, v: World, step1: Step, step2: Step)
    requires Good(kinds, u) && Leads(kinds, u, w, step1) && Leads(kinds, w, v, step2)
    ensures RunFrom(kinds, [u, w, v], [step1, step2], u, v)
    ensures Bounded(kinds, u, step1) && Bounded(kinds, w, step2) ==> AllBounded(kinds, [u, w, v], [step1, step2])
  {
    hide Good, Leads, Bounded;
  }

  lemma Joined(kinds: Kinds, ws: seq<World>, ss: seq<Step>, vs: seq<World>, ts: seq<Step>, u: World, w: World, v: World)
    requires RunFrom(kinds, ws, ss, u, w) && RunFrom(kinds, vs, ts, w, v)
    ensures RunFrom(kinds, ws + vs[1..], ss + ts, u, v)
    ensures AllBounded(kinds, ws, ss) && AllBounded(kinds, vs, ts) ==> AllBounded(kinds, ws + vs[1..], ss + ts)
  {
    hide Good, Leads, Bounded;
    var all, steps := ws + vs[1..], ss + ts;
    forall i | 0 <= i < |steps|
      ensures Leads(kinds, all[i], all[i + 1], steps[i])
      ensures AllBounded(kinds, ws, ss) && AllBounded(kinds, vs, ts) ==> Bounded(kinds, all[i], steps[i])
    {
      if i >= |ss| {
        assert all[i] == vs[i - |ss|] && all[i + 1] == vs[i - |ss| + 1];
      }
    }
  }

  // ---------- one operation ----------

  lemma AddBounded(kinds: Kinds, w: World, v: World, to: Item, index: int, x: Item, flags: Flags, made: seq<Item>, remainder: nat, s: Item)
    requires x in w && to in w && AddKept(kinds, w, v, to, index, x, flags, remainder, s)
    requires !flags.noLimit && !flags.ignoreAutoStack
    ensures Bounded(kinds, w, Add(x, to, index, flags, made, remainder))
  {
    hide Good, NoOverflow, Units, Destination, PutOnStack, PlainAdded, Filled, InOrder, GoesOnto, AskAdd;
  }

  // A thing that does not stack is still there when it has been added.
  lemma WholeStays(kinds: Kinds, w: World, v: World, to: Item, index: int, x: Item, flags: Flags, made: seq<Item>, remainder: nat)
    requires x in w && to in w && x != to && !kinds(w[x].id).stackable
    requires Adds(kinds, w, v, to, index, x, flags, made, remainder)
    ensures x in v
  {
    hide Destination;
  }

  method ServeAdd(kinds: Kinds, x: Item, to: Item, index: int, flags: Flags, ghost items: set<Item>)
    returns (ghost alive: set<Item>, ghost step: Step)
    requires Good(kinds, Snap(items)) && to in items && x in items && to.isContainer && x.parent == null && !flags.childIsOwner
    modifies items
    ensures Leads(kinds, old(Snap(items)), Snap(alive), step) && IsAdd(step, x, to, index, flags)
    ensures !flags.noLimit && !flags.ignoreAutoStack ==> Bounded(kinds, old(Snap(items)), step)
    ensures items - {x} <= alive && (!kinds(old(x.id)).stackable ==> x in alive)
    ensures forall y <- alive :: y in items || fresh(y)
  {
    hide Good, AskAdd, Adds, AddKept, Destination, NewOnes, GoesOnto;
    ghost var w := Snap(items);
    var ret, remainder;
    ghost var made;
    ret, remainder, alive, made := InternalAddItem(kinds, to, x, index, flags, false, items);
    step := Add(x, to, index, flags, made, remainder);
    if ret == NoError {
      if !flags.noLimit && !flags.ignoreAutoStack {
        AddBounded(kinds, w, Snap(alive), to, index, x, flags, made, remainder, Placed(x, made));
      }
      if !kinds(w[x].id).stackable {
        WholeStays(kinds, w, Snap(alive), to, index, x, flags, made, remainder);
      }
    }
  }

  method ServeNew(kinds: Kinds, id: nat, count: nat, isContainer: bool, maxSize: nat, unlocked: bool, ghost items: set<Item>)
    returns (x: Item, ghost step: Step)
    requires Good(kinds, Snap(items)) && StackFitsNew(kinds, id, count, isContainer)
    ensures fresh(x) && x.parent == null && x.id == id
    ensures x.isContainer == isContainer && x.maxSize == maxSize && x.unlocked == unlocked
    ensures Leads(kinds, Snap(items), Snap(items + {x}), step) && step == Create(x, id, count)
    ensures Good(kinds, Snap(items + {x})) && Bounded(kinds, Snap(items), step)
  {
    hide Good;
    ghost var w := Snap(items);
    x := new Item(id, count, isContainer, maxSize, unlocked);
    step := Create(x, id, count);
    SnapWith(items, x);
    CreateKeeps(kinds, w, x, id, count);
  }

  predicate StackFitsNew(kinds: Kinds, id: nat, count: nat, isContainer: bool) {
    kinds(id).stackable ==> 1 <= count <= 100 && !isContainer && !kinds(id).fluid
  }

  method ServeMove(kinds: Kinds, x: Item, from: Item, to: Item, index: int, count: nat, flags: Flags, ghost items: set<Item>)
    returns (ghost alive: set<Item>, ghost step: Step)
    requires Good(kinds, Snap(items)) && !flags.childIsOwner
    requires from in items && to in items && x in items && to.isContainer
    modifies items
    ensures Leads(kinds, old(Snap(items)), Snap(alive), step) && IsMove(step, x, from, to, index, count, flags)
    ensures !flags.noLimit ==> Bounded(kinds, old(Snap(items)), step)
    ensures items - {x} <= alive && (!kinds(old(x.id)).stackable ==> x in alive)
    ensures forall y <- alive :: y in items || fresh(y)
  {
    hide Good, Moved, PlanMove, Splits, Units, NoOverflow;
    var ret, moveItem;
    ret, moveItem, alive := InternalMoveItem(kinds, from, to, index, x, count, flags, items);
    step := Move(x, from, to, index, count, flags, moveItem);
  }

  method ServeRemove(kinds: Kinds, x: Item, count: int, ghost items: set<Item>)
    returns (ghost alive: set<Item>, ghost step: Step)
    requires Good(kinds, Snap(items)) && x in items && count >= -1
    modifies items
    ensures Leads(kinds, old(Snap(items)), Snap(alive), step) && step == Remove(x, RemoveCount(old(x.GetCell()), count))
    ensures items - {x} <= alive <= items && (!kinds(old(x.id)).stackable ==> x in alive)
  {
    hide Good, Taken, Removed, AskRemove, Units, StackTaken;
    var ret;
    ret, alive := InternalRemoveItem(kinds, x, count, false, items);
    step := Remove(x, RemoveCount(old(x.GetCell()), count));
  }

  // ---------- one order ----------

  lemma ChestStays(kinds: Kinds, w: World, c: Item)
    requires Good(kinds, w) && c in w && c.isContainer
    ensures !kinds(w[c].id).stackable
  {
    StackOf(kinds, w, c);
  }

  // What lies in a container is there.
  lemma ListedThere(kinds: Kinds, w: World, c: Item, slot: nat)
    requires Good(kinds, w) && c in w && slot < |w[c].list|
    ensures w[c].list[slot] in w
  {
    SoundLinked(kinds, w);
  }

  method ServePutNew(kinds: Kinds, chests: seq<Item>, id: nat, count: nat, to: nat, index: int, flags: Flags,
                     ghost items: set<Item>)
    returns (ghost alive: set<Item>, ghost worlds: seq<World>, ghost steps: seq<Step>)
    requires Good(kinds, Snap(items)) && Chests(chests, items) && Sensible(kinds, PutNew(id, count, to, index, flags))
    modifies items
    ensures RunFrom(kinds, worlds, steps, old(Snap(items)), Snap(alive)) && Chests(chests, alive)
    ensures Served(kinds, PutNew(id, count, to, index, flags), chests, chests, old(Snap(items)), steps)
    ensures Careful(PutNew(id, count, to, index, flags)) ==> AllBounded(kinds, worlds, steps)
    ensures forall y <- alive :: y in items || fresh(y)
  {
    hide Good, Leads, Bounded, IsRun;
    ghost var u := Snap(items);
    alive, worlds, steps := items, [u], [];
    NoSteps(kinds, u);
    if to < |chests| {
      var x;
      ghost var create, add;
      x, create := ServeNew(kinds, id, count, false, 0, true, items);
      ghost var w := Snap(items + {x});
      assert chests[to] in chests;
      alive, add := ServeAdd(kinds, x, chests[to], index, flags, items + {x});
      TwoSteps(kinds, u, w, Snap(alive), create, add);
      worlds, steps := [u, w, Snap(alive)], [create, add];
    }
  }

  method ServePutChest(kinds: Kinds, chests: seq<Item>, chest: nat, to: nat, index: int, flags: Flags, ghost items: set<Item>)
    returns (ghost alive: set<Item>, ghost worlds: seq<World>, ghost steps: seq<Step>)
    requires Good(kinds, Snap(items)) && Chests(chests, items) && Sensible(kinds, PutChest(chest, to, index, flags))
    modifies items
    ensures RunFrom(kinds, worlds, steps, old(Snap(items)), Snap(alive)) && Chests(chests, alive)
    ensures Served(kinds, PutChest(chest, to, index, flags), chests, chests, old(Snap(items)), steps)
    ensures Careful(PutChest(chest, to, index, flags)) ==> AllBounded(kinds, worlds, steps)
    ensures forall y <- alive :: y in items || fresh(y)
  {
    hide Good, Leads, Bounded, IsRun;
    ghost var u := Snap(items);
    alive, worlds, steps := items, [u], [];
    NoSteps(kinds, u);
    if chest < |chests| && to < |chests| && chests[chest].parent == null {
      var x := chests[chest];
      assert x in chests && chests[to] in chests;
      ChestStays(kinds, u, x);
      ghost var add;
      alive, add := ServeAdd(kinds, x, chests[to], index, flags, items);
      OneStep(kinds, u, Snap(alive), add);
      worlds, steps := [u, Snap(alive)], [add];
    }
  }

  method ServeMoveThing(kinds: Kinds, chests: seq<Item>, from: nat, slot: nat, to: nat, index: int, count: nat, flags: Flags,
                        ghost items: set<Item>)
    returns (ghost alive: set<Item>, ghost worlds: seq<World>, ghost steps: seq<Step>)
    requires Good(kinds, Snap(items)) && Chests(chests, items)
    requires Sensible(kinds, MoveThing(from, slot, to, index, count, flags))
    modifies items
    ensures RunFrom(kinds, worlds, steps, old(Snap(items)), Snap(alive)) && Chests(chests, alive)
    ensures Served(kinds, MoveThing(from, slot, to, index, count, flags), chests, chests, old(Snap(items)), steps)
    ensures Careful(MoveThing(from, slot, to, index, count, flags)) ==> AllBounded(kinds, worlds, steps)
    ensures forall y <- alive :: y in items || fresh(y)
  {
    hide Good, Leads, Bounded, IsRun;
    ghost var u := Snap(items);
    alive, worlds, steps := items, [u], [];
    NoSteps(kinds, u);
    if from < |chests| && to < |chests| && slot < |chests[from].itemlist| {
      assert chests[from] in chests && chests[to] in chests;
      ListedThere(kinds, u, chests[from], slot);
      var x := chests[from].itemlist[slot];
      if x.isContainer {
        ChestStays(kinds, u, x);
      }
      ghost var move;
      alive, move := ServeMove(kinds, x, chests[from], chests[to], index, count, flags, items);
      OneStep(kinds, u, Snap(alive), move);
      worlds, steps := [u, Snap(alive)], [move];
    }
  }

  method ServeTakeThing(kinds: Kinds, chests: seq<Item>, from: nat, slot: nat, units: int, ghost items: set<Item>)
    returns (ghost alive: set<Item>, ghost worlds: seq<World>, ghost steps: seq<Step>)
    requires Good(kinds, Snap(items)) && Chests(chests, items) && units >= -1
    modifies items
    ensures RunFrom(kinds, worlds, steps, old(Snap(items)), Snap(alive)) && Chests(chests, alive)
    ensures Served(kinds, TakeThing(from, slot, units), chests, chests, old(Snap(items)), steps)
    ensures AllBounded(kinds, worlds, steps)
    ensures alive <= items
  {
    hide Good, Leads, IsRun;
    ghost var u := Snap(items);
    alive, worlds, steps := items, [u], [];
    NoSteps(kinds, u);
    if from < |chests| && slot < |chests[from].itemlist| {
      assert chests[from] in chests;
      ListedThere(kinds, u, chests[from], slot);
      var x := chests[from].itemlist[slot];
      if x.isContainer {
        ChestStays(kinds, u, x);
      }
      ghost var remove;
      alive, remove := ServeRemove(kinds, x, units, items);
      OneStep(kinds, u, Snap(alive), remove);
      worlds, steps := [u, Snap(alive)], [remove];
    }
  }

  method Serve(kinds: Kinds, chests0: seq<Item>, o: Order, ghost items: set<Item>)
    returns (chests: seq<Item>, ghost alive: set<Item>, ghost worlds: seq<World>, ghost steps: seq<Step>)
    requires Good(kinds, Snap(items)) && Chests(chests0, items) && Sensible(kinds, o)
    modifies items
    ensures RunFrom(kinds, worlds, steps, old(Snap(items)), Snap(alive)) && Chests(chests, alive)
    ensures Served(kinds, o, chests0, chests, old(Snap(items)), steps)
    ensures Careful(o) ==> AllBounded(kinds, worlds, steps)
    ensures forall y <- alive :: y in items || fresh(y)
  {
    hide Good, Leads, Bounded, IsRun;
    chests := chests0;
    match o {
      case MakeChest(id, maxSize, unlocked) =>
        ghost var u := Snap(items);
        var x;
        ghost var create;
        x, create := ServeNew(kinds, id, 1, true, maxSize, unlocked, items);
        alive := items + {x};
        OneStep(kinds, u, Snap(alive), create);
        worlds, steps := [u, Snap(alive)], [create];
        chests := chests + [x];
      case PutNew(id, count, to, index, flags) =>
        alive, worlds, steps := ServePutNew(kinds, chests, id, count, to, index, flags, items);
      case PutChest(chest, to, index, flags) =>
        alive, worlds, steps := ServePutChest(kinds, chests, chest, to, index, flags, items);
      case MoveThing(from, slot, to, index, count, flags) =>
        alive, worlds, steps := ServeMoveThing(kinds, chests, from, slot, to, index, count, flags, items);
      case TakeThing(from, slot, units) =>
        alive, worlds, steps := ServeTakeThing(kinds, chests, from, slot, units, items);
    }
  }

  // ---------- whole runs ----------

  // `cuts` are the numbers of steps that the run has taken before each order and at the end, `known` the containers that
  // there are then; each order leads to the steps between its cut and the next.
  ghost predicate Follows(kinds: Kinds, orders: seq<Order>, worlds: seq<World>, steps: seq<Step>, cuts: seq<nat>,
                          known: seq<seq<Item>>) {
    && |worlds| == |steps| + 1 && 0 < |cuts| == |known| <= |orders| + 1
    && cuts[0] == 0 && cuts[|cuts| - 1] == |steps|
    && forall i :: 0 <= i < |cuts| - 1 ==> ServedBetween(kinds, orders, worlds, steps, cuts, known, i)
  }

  ghost predicate ServedBetween(kinds: Kinds, orders: seq<Order>, worlds: seq<World>, steps: seq<Step>, cuts: seq<nat>,
                                known: seq<seq<Item>>, i: nat)
    requires |worlds| == |steps| + 1 && i + 1 < |cuts| == |known| && i < |orders|
  {
    && cuts[i] <= cuts[i + 1] <= |steps|
    && Served(kinds, orders[i], known[i], known[i + 1], worlds[cuts[i]], steps[cuts[i]..cuts[i + 1]])
  }

  lemma FollowsOn(kinds: Kinds, orders: seq<Order>, ws: seq<World>, ss: seq<Step>, cuts: seq<nat>, known: seq<seq<Item>>,
                  vs: seq<World>, ts: seq<Step>, chests: seq<Item>)
    requires Follows(kinds, orders, ws, ss, cuts, known) && |cuts| <= |orders| && |vs| == |ts| + 1
    requires Served(kinds, orders[|cuts| - 1], known[|cuts| - 1], chests, ws[|ss|], ts)
    ensures Follows(kinds, orders, ws + vs[1..], ss + ts, cuts + [|ss| + |ts|], known + [chests])
  {
    hide Served;
    var worlds, steps, cuts', known' := ws + vs[1..], ss + ts, cuts + [|ss| + |ts|], known + [chests];
    forall i | 0 <= i < |cuts'| - 1 ensures ServedBetween(kinds, orders, worlds, steps, cuts', known', i) {
      if i < |cuts| - 1 {
        assert ServedBetween(kinds, orders, ws, ss, cuts, known, i);
        assert steps[cuts[i]..cuts[i + 1]] == ss[cuts[i]..cuts[i + 1]];
      } else {
        assert steps[|ss|..|ss| + |ts|] == ts;
      }
    }
  }

  // Whatever is asked for, in whatever order: the heap goes through a run whose steps are what was asked for. No item is
  // ever inside itself, there are exactly the units that were made and not taken away, and if all orders are careful no
  // container holds more than it may, or than it held at first.
  method Run(kinds: Kinds, chests0: seq<Item>, orders: seq<Order>, ghost items: set<Item>)
    returns (chests: seq<Item>, ghost alive: set<Item>, ghost worlds: seq<World>, ghost steps: seq<Step>,
             ghost cuts: seq<nat>, ghost known: seq<seq<Item>>)
    requires Good(kinds, Snap(items)) && Chests(chests0, items) && forall o <- orders :: Sensible(kinds, o)
    modifies items
    ensures RunFrom(kinds, worlds, steps, old(Snap(items)), Snap(alive)) && Good(kinds, Snap(alive)) && Chests(chests, alive)
    ensures Follows(kinds, orders, worlds, steps, cuts, known) && |cuts| == |orders| + 1
    ensures known[0] == chests0 && known[|orders|] == chests
    ensures forall x :: !Inside(Snap(alive), x, x)
    ensures forall id :: Units(Snap(alive), id) == Units(old(Snap(items)), id) + GainUpTo(kinds, worlds, steps, |steps|, id)
    ensures (forall o <- orders :: Careful(o)) ==> NoOverflow(old(Snap(items)), Snap(alive))
  {
    hide Good, Served, Follows, RunFrom, AllBounded, Careful, Sensible, Chests, Inside, Units, NoOverflow, GainUpTo;
    ghost var u := Snap(items);
    chests, alive, worlds, steps, cuts, known := chests0, items, [u], [], [0], [chests0];
    NoSteps(kinds, u);
    StartsFollowing(kinds, orders, u, chests0);
    var i := 0;
    while i < |orders|
      invariant 0 <= i <= |orders| && Good(kinds, Snap(alive)) && Chests(chests, alive)
      invariant |worlds| == |steps| + 1 && RunFrom(kinds, worlds, steps, u, Snap(alive))
      invariant Follows(kinds, orders, worlds, steps, cuts, known)
      invariant |cuts| == |known| == i + 1 && known[0] == chests0 && known[i] == chests
      invariant forall y <- alive :: y in items || fresh(y)
      invariant (forall o <- orders :: Careful(o)) ==> AllBounded(kinds, worlds, steps)
    {
      assert orders[i] in orders;
      ghost var w, vs, ts := Snap(alive), [], [];
      RunEnds(kinds, worlds, steps, u, w);
      chests, alive, vs, ts := Serve(kinds, chests, orders[i], alive);
      RunEnds(kinds, vs, ts, w, Snap(alive));
      FollowsOn(kinds, orders, worlds, steps, cuts, known, vs, ts, chests);
      Joined(kinds, worlds, steps, vs, ts, u, w, Snap(alive));
      worlds, steps, cuts, known := worlds + vs[1..], steps + ts, cuts + [|steps| + |ts|], known + [chests];
      i := i + 1;
    }
    RunPromises(kinds, worlds, steps, u, Snap(alive));
  }

  lemma StartsFollowing(kinds: Kinds, orders: seq<Order>, w: World, chests: seq<Item>)
    ensures Follows(kinds, orders, [w], [], [0], [chests])
  {}

  lemma RunEnds(kinds: Kinds, worlds: seq<World>, steps: seq<Step>, u: World, v: World)
    requires RunFrom(kinds, worlds, steps, u, v)
    ensures |worlds| == |steps| + 1 && worlds[|steps|] == v && Good(kinds, v)
  {
    hide Good, Leads, Units, Inside, TrueFrom, Bounded, NoOverflow, GainUpTo;
    RunKeeps(kinds, worlds, steps, |steps|);
  }

  lemma RunPromises(kinds: Kinds, worlds: seq<World>, steps: seq<Step>, u: World, v: World)
    requires RunFrom(kinds, worlds, steps, u, v)
    ensures |worlds| == |steps| + 1
    ensures forall x :: !Inside(v, x, x)
    ensures forall id :: Units(v, id) == Units(u, id) + GainUpTo(kinds, worlds, steps, |steps|, id)
    ensures AllBounded(kinds, worlds, steps) ==> NoOverflow(u, v)
  {
    hide Good, Leads, Units, Inside, TrueFrom, Bounded, NoOverflow, GainUpTo;
    RunKeeps(kinds, worlds, steps, |steps|);
  }
}
