/** The containment graph of items: what the fields of all items say at one moment, and what the container
    operations do to it.

    A `World` is a snapshot of the items' fields. `Sound` is what every reachable world satisfies: parent links and
    item lists agree, no container is inside itself, and every cached weight is the sum over the contents.
    The methods of `Item` are proved to take the snapshot of all items exactly where the functions say. */
module ItemWorld {
  import opened Common

  // What an item's type says about it.
  datatype Kind = Kind(stackable: bool, fluid: bool, charged: bool, pickupable: bool, moveable: bool, weight: int)

  type Kinds = nat -> Kind

  datatype ReturnValue =
    NoError | NotPossible | NotMoveable | ContainerNotEnoughRoom | CannotPickup | ThisIsImpossible

  datatype Flags = Flags(noLimit: bool, childIsOwner: bool, ignoreNotMoveable: bool, ignoreAutoStack: bool)

  const INDEX_WHEREEVER := -1

  class Item {
    const isContainer: bool
    const maxSize: nat      // a container's capacity
    const unlocked: bool
    var id: nat
    var count: nat
    var parent: Item?
    var itemlist: seq<Item>
    var totalWeight: int    // the cached weight of the contents

    constructor (id: nat, count: nat, isContainer: bool, maxSize: nat, unlocked: bool)
      ensures this.id == id && this.count == count && this.parent == null && itemlist == [] && totalWeight == 0
      ensures this.isContainer == isContainer && this.maxSize == maxSize && this.unlocked == unlocked
    {
      this.id, this.count, this.parent, itemlist, totalWeight := id, count, null, [], 0;
      this.isContainer, this.maxSize, this.unlocked := isContainer, maxSize, unlocked;
    }

    function GetCell(): Cell
      reads this
    {
      Cell(id, count, parent, itemlist, totalWeight)
    }

    // Item::getWeight and Container::getWeight
    function GetWeight(kinds: Kinds): int
      reads this
    {
      OwnWeight(kinds, GetCell()) + totalWeight
    }

    // `n` bounds how far up the chain goes.
    method UpdateItemWeight(diff: int, ghost items: set<Item>, ghost n: nat)
      requires this in items && Linked(Snap(items)) && Grounded(Snap(items), this, n)
      modifies items`totalWeight
      ensures Snap(items) == PushWeight(old(Snap(items)), this, diff, n)
      decreases n
    {
      hide Grounded, Linked;
      ghost var w := Snap(items);
      totalWeight := totalWeight + diff;
      assert Snap(items) == w[this := w[this].(total := w[this].total + diff)];
      ParentIn(w, this);
      PushedUp(w, this, diff, n);
      if parent != null {
        parent.UpdateItemWeight(diff, items, n - 1);
      }
    }

    method GetIndexOfThing(thing: Item) returns (index: int)
      ensures index == Index(itemlist, thing)
    {
      var i := 0;
      while i < |itemlist|
        invariant 0 <= i <= |itemlist| && thing !in itemlist[..i]
      {
        if itemlist[i] == thing {
          return i;
        }
        i := i + 1;
      }
      return -1;
    }

    method GetTopParent(ghost items: set<Item>) returns (top: Item)
      requires this in items && Linked(Snap(items)) && Acyclic(Snap(items))
      ensures top in items && top.parent == null && UpTo(Snap(items), top, this)
    {
      hide Linked;
      ghost var w, n := Snap(items), Height(Snap(items));
      top := this;
      while top.parent != null
        invariant top in items && Grounded(w, top, n) && UpTo(w, top, this)
        decreases n
      {
        ParentIn(w, top);
        UpFurther(w, top, this);
        top := top.parent;
        n := n - 1;
      }
    }

    method QueryAdd(kinds: Kinds, index: int, thing: Item, flags: Flags, ghost items: set<Item>) returns (r: ReturnValue)
      requires this in items && thing in items && Linked(Snap(items)) && Acyclic(Snap(items))
      ensures r == AddAnswer(kinds, Snap(items), this, index, thing, flags)
      ensures flags.childIsOwner ==> r == NoError
      ensures !flags.childIsOwner ==>
        && (!unlocked ==> r == NotPossible)
        && (unlocked && !kinds(thing.id).pickupable ==> r == CannotPickup)
        && (unlocked && kinds(thing.id).pickupable && (thing == this || Inside(Snap(items), thing, this)) ==> r == ThisIsImpossible)
        && (unlocked && kinds(thing.id).pickupable && thing != this && !Inside(Snap(items), thing, this) ==>
              r == if !flags.noLimit && index == INDEX_WHEREEVER && maxSize <= |itemlist| then ContainerNotEnoughRoom else NoError)
      decreases !flags.childIsOwner
    {
      hide Linked, Inside;
      if flags.childIsOwner {
        return NoError;
      }
      if !unlocked {
        return NotPossible;
      }
      if !kinds(thing.id).pickupable {
        return CannotPickup;
      }
      if thing == this {
        return ThisIsImpossible;
      }
      ghost var w, n := Snap(items), Height(Snap(items));
      var cylinder := parent;
      ParentIn(w, this);
      InsideUp(w, thing, this);
      while cylinder != null
        invariant cylinder != null ==> cylinder in items && Grounded(w, cylinder, n)
        invariant Inside(w, thing, this) == (cylinder != null && UpTo(w, thing, cylinder))
        decreases n
      {
        if cylinder == thing {
          return ThisIsImpossible;
        }
        ParentIn(w, cylinder);
        InsideUp(w, thing, cylinder);
        cylinder := cylinder.parent;
        n := n - 1;
      }
      if !flags.noLimit && index == INDEX_WHEREEVER && |itemlist| >= maxSize {
        return ContainerNotEnoughRoom;
      }
      var topParent := GetTopParent(items);
      if topParent != this {
        r := topParent.QueryAdd(kinds, INDEX_WHEREEVER, thing, flags.(childIsOwner := true), items);
      } else {
        r := NoError;
      }
    }

    method GetItemByIndex(index: int) returns (item: Item?)
      ensures item == if 0 <= index < |itemlist| then itemlist[index] else null
    {
      if index < 0 || index >= |itemlist| {
        return null;
      }
      return itemlist[index];
    }

    method QueryMaxCount(kinds: Kinds, index: int, thing: Item, count: nat, flags: Flags, ghost items: set<Item>)
      returns (r: ReturnValue, maxQueryCount: nat)
      requires this in items && thing in items && Linked(Snap(items)) && Acyclic(Snap(items))
      ensures (r, maxQueryCount) == MaxCount(kinds, Snap(items), this, index, thing, count, flags)
      ensures IsMaxCount(kinds, Snap(items), this, index, thing, count, flags, r, maxQueryCount)
    {
      hide Inside, Acyclic, AddAnswer, Linked, NoRepeats, StackRoom, IsMaxCount;
      MaxCountIs(kinds, Snap(items), this, index, thing, count, flags);
      if flags.noLimit {
        return NoError, if count < 1 then 1 else count;
      }
      ghost var w := Snap(items);
      ListIn(w, this);
      var freeSlots := if |itemlist| < maxSize then maxSize - |itemlist| else 0;
      if kinds(thing.id).stackable {
        var n := 0;
        if index == INDEX_WHEREEVER {
          var slotIndex := 0;
          var i := 0;
          NoRoomYet(w, itemlist, thing);
          while i < |itemlist|
            invariant 0 <= slotIndex && 0 <= i <= |itemlist|
            invariant n == if AddAnswer(kinds, w, this, 0, thing, flags) != NoError then 0 else StackRoom(w, itemlist[..i], thing)
          {
            var containerItem := itemlist[i];
            RoomNext(w, itemlist, thing, i);
            assert containerItem in w;
            if containerItem != thing && containerItem.id == thing.id && containerItem.count < 100 {
              var remainder := 100 - containerItem.count;
              var q := QueryAdd(kinds, slotIndex, thing, flags, items);
              AnyIndex(kinds, w, this, slotIndex, thing, flags);
              slotIndex := slotIndex + 1;
              if q == NoError {
                n := n + remainder;
              }
            }
            i := i + 1;
          }
          assert itemlist[..i] == itemlist;
        } else {
          var destItem := GetItemByIndex(index);
          if destItem != null && destItem.id == thing.id && destItem.count < 100 {
            var q := QueryAdd(kinds, index, thing, flags, items);
            AnyIndex(kinds, w, this, index, thing, flags);
            if q == NoError {
              n := 100 - destItem.count;
            }
          }
        }
        maxQueryCount := freeSlots * 100 + n;
        r := if maxQueryCount < count then ContainerNotEnoughRoom else NoError;
      } else {
        maxQueryCount := freeSlots;
        r := if maxQueryCount == 0 then ContainerNotEnoughRoom else NoError;
      }
    }

    method QueryRemove(kinds: Kinds, thing: Item, count: nat, flags: Flags, ghost items: set<Item>) returns (r: ReturnValue)
      requires this in items && thing in items
      ensures r == RemoveAnswer(kinds, Snap(items), this, thing, count, flags)
      ensures r == NotPossible <==> thing !in itemlist || count == 0 || (kinds(thing.id).stackable && thing.count < count)
      ensures r != NotPossible ==> r == if kinds(thing.id).moveable || flags.ignoreNotMoveable then NoError else NotMoveable
    {
      var index := GetIndexOfThing(thing);
      if index == -1 {
        return NotPossible;
      }
      if count == 0 || (kinds(thing.id).stackable && count > thing.count) {
        return NotPossible;
      }
      if !kinds(thing.id).moveable && !flags.ignoreNotMoveable {
        return NotMoveable;
      }
      return NoError;
    }

    method QueryDestination(kinds: Kinds, index0: int, thing: Item, flags: Flags, ghost items: set<Item>)
      returns (cylinder: Item, index: int, destItem: Item?)
      requires this in items && thing in items && Linked(Snap(items))
      ensures (cylinder, index, destItem) == Destination(kinds, Snap(items), this, index0, thing, flags)
      ensures IsDestination(kinds, Snap(items), this, index0, thing, flags, cylinder, index, destItem)
    {
      hide Linked, NoRepeats, IsDestination;
      ghost var w := Snap(items);
      ListIn(w, this);
      ParentIn(w, this);
      DestinationIs(kinds, w, this, index0, thing, flags);
      cylinder, index, destItem := this, index0, null;
      if !unlocked {
        return;
      }
      if index == 254 {
        index := INDEX_WHEREEVER;
        if parent != null {
          cylinder := parent;
        }
        return;
      }
      if index == 255 || index >= maxSize {
        index := INDEX_WHEREEVER;
      }
      var autoStack := !flags.ignoreAutoStack;
      if autoStack && kinds(thing.id).stackable && thing.parent != this {
        var n := 0;
        while n < |itemlist|
          invariant 0 <= n <= |itemlist| && forall k <- itemlist[..n] :: !Mergeable(w, k, thing)
        {
          var listItem := itemlist[n];
          assert Mergeable(w, listItem, thing) == (listItem != thing && listItem.id == thing.id && listItem.count < 100);
          if listItem != thing && listItem.id == thing.id && listItem.count < 100 {
            destItem, index := listItem, n;
            return;
          }
          n := n + 1;
        }
      }
      if index != INDEX_WHEREEVER {
        var itemFromIndex := GetItemByIndex(index);
        if itemFromIndex != null {
          if itemFromIndex.isContainer {
            cylinder, index := itemFromIndex, INDEX_WHEREEVER;
          } else {
            destItem := itemFromIndex;
          }
        }
      }
    }

    // Every operation ends by adding a difference to its own weight and to the weight of everything around it.
    method AddThing(kinds: Kinds, index: int, thing: Item, ghost items: set<Item>)
      requires CanJoin(kinds, Snap(items), this, thing)
      modifies items
      ensures Snap(items) == Added(kinds, old(Snap(items)), this, index, thing)
      ensures Sound(kinds, Snap(items))
      ensures index >= maxSize ==> Snap(items) == old(Snap(items))
      ensures index < maxSize ==> Relinked(old(Snap(items)), Snap(items), thing, this, this, [thing] + old(itemlist))
    {
      hide Inside, Linked, Acyclic, AllBalanced, Joined, Grounded, Relinked;
      ghost var w := Snap(items);
      AdditionIs(kinds, w, this, index, thing);
      if index >= maxSize {
        return;
      }
      JoinsFront(kinds, w, this, thing);
      CanAttach(kinds, w, this, thing, [thing] + itemlist);
      thing.parent := this;
      itemlist := [thing] + itemlist;
      assert Snap(items) == Attach(w, this, thing, [thing] + w[this].list);
      UpdateItemWeight(thing.GetWeight(kinds), items, Height(Snap(items)));
    }

    method AddThingBack(kinds: Kinds, thing: Item, ghost items: set<Item>)
      requires CanJoin(kinds, Snap(items), this, thing)
      modifies items
      ensures Snap(items) == AddedBack(kinds, old(Snap(items)), this, thing)
      ensures Sound(kinds, Snap(items))
      ensures Relinked(old(Snap(items)), Snap(items), thing, this, this, old(itemlist) + [thing])
    {
      hide Inside, Linked, Acyclic, AllBalanced, Joined, Grounded, Relinked;
      ghost var w := Snap(items);
      AdditionBackIs(kinds, w, this, thing);
      JoinsBack(kinds, w, this, thing);
      CanAttach(kinds, w, this, thing, itemlist + [thing]);
      thing.parent := this;
      itemlist := itemlist + [thing];
      assert Snap(items) == Attach(w, this, thing, w[this].list + [thing]);
      UpdateItemWeight(thing.GetWeight(kinds), items, Height(Snap(items)));
    }

    method SetSubType(kinds: Kinds, n: nat)
      modifies this`count
      ensures GetCell() == SubTyped(kinds, old(GetCell()), n)
      ensures count == if !kinds(id).fluid && (kinds(id).stackable || !kinds(id).charged) then n % 256 else old(count)
    {
      if !kinds(id).fluid && (kinds(id).stackable || !kinds(id).charged) {
        count := n % 0x100;
      }
    }

    method UpdateThing(kinds: Kinds, thing: Item, itemId: nat, count: nat, ghost items: set<Item>)
      requires Sound(kinds, Snap(items)) && this in items && thing in items
      modifies items
      ensures Snap(items) == Updated(kinds, old(Snap(items)), this, thing, itemId, count)
      ensures Sound(kinds, Snap(items))
      ensures IsUpdate(kinds, old(Snap(items)), Snap(items), this, thing, itemId, count)
    {
      hide Linked, Acyclic, AllBalanced, Grounded, OwnWeight, PushWeight, SameShape, NoRepeats, Height, Balanced, Index, IsUpdate;
      ghost var w := Snap(items);
      UpdateIs(kinds, w, this, thing, itemId, count);
      var index := GetIndexOfThing(thing);
      if index == -1 {
        return;
      }
      CanChange(kinds, w, this, thing, SubTyped(kinds, w[thing].(id := itemId), count));
      var oldWeight := thing.GetWeight(kinds);
      thing.id := itemId;
      thing.SetSubType(kinds, count);
      assert Snap(items) == w[thing := SubTyped(kinds, w[thing].(id := itemId), count)];
      UpdateItemWeight(-oldWeight + thing.GetWeight(kinds), items, Height(Snap(items)));
    }

    method ReplaceThing(kinds: Kinds, index: nat, thing: Item, ghost items: set<Item>)
      requires CanJoin(kinds, Snap(items), this, thing)
      modifies items
      ensures Snap(items) == Replaced(kinds, old(Snap(items)), this, index, thing)
      ensures Sound(kinds, Snap(items))
      ensures index >= |old(itemlist)| ==> Snap(items) == old(Snap(items))
      ensures index < |old(itemlist)| ==>
        Swapped(old(Snap(items)), Snap(items), this, thing, old(itemlist[index]), old(itemlist)[index := thing])
    {
      hide Inside, Acyclic, AllBalanced, Joined, Grounded, OwnWeight, NoRepeats, PushWeight, SameShape, Height, Linked, Swapped,
        Attach, Detach;
      ghost var w := Snap(items);
      ReplacementIs(kinds, w, this, index, thing);
      if index >= |itemlist| {
        return;
      }
      CanReplace(kinds, w, this, index, thing);
      var replaced := itemlist[index];
      var diff := -replaced.GetWeight(kinds) + thing.GetWeight(kinds);
      assert diff == Weight(kinds, w, thing) - Weight(kinds, w, w[this].list[index]);
      Exchange(index, thing, items);
      UpdateItemWeight(diff, items, Height(Snap(items)));
    }

    // The item at the index makes room for the thing.
    method Exchange(index: nat, thing: Item, ghost items: set<Item>)
      requires this in items && thing in items && index < |itemlist| && itemlist[index] in items
      requires itemlist[index] != thing && itemlist[index] != this && thing != this
      modifies items`parent, items`itemlist
      ensures var w := old(Snap(items));
        Snap(items) == Attach(Detach(w, this, index), this, thing, w[this].list[index := thing])
    {
      var replaced := itemlist[index];
      itemlist := itemlist[index := thing];
      thing.parent := this;
      replaced.parent := null;
    }

    method LowerCount(kinds: Kinds, thing: Item, count: nat, ghost items: set<Item>)
      requires Sound(kinds, Snap(items)) && this in items && thing in items && thing in itemlist
      modifies items
      ensures Snap(items) == Changed(kinds, old(Snap(items)), this, thing, Fewer(old(Snap(items))[thing], count))
    {
      hide Linked, Acyclic, AllBalanced, Grounded, OwnWeight, PushWeight, SameShape, NoRepeats, Height, Balanced;
      ghost var w := Snap(items);
      CanChange(kinds, w, this, thing, Fewer(w[thing], count));
      var oldWeight := -thing.GetWeight(kinds);
      thing.count := if count < thing.count then thing.count - count else 0;
      ghost var v := w[thing := Fewer(w[thing], count)];
      assert Snap(items) == v;
      UpdateItemWeight(oldWeight + thing.GetWeight(kinds), items, Height(v));
    }

    method Erase(kinds: Kinds, index: nat, ghost items: set<Item>)
      requires Sound(kinds, Snap(items)) && this in items && index < |itemlist| && itemlist[index] in items
      modifies items
      ensures Snap(items) ==
        Push(Detach(old(Snap(items)), this, index), this, -Weight(kinds, old(Snap(items)), old(itemlist[index])))
    {
      hide Linked, Acyclic, AllBalanced, Grounded, OwnWeight, PushWeight, SameShape, NoRepeats, Height, Balanced;
      ghost var w := Snap(items);
      var thing := itemlist[index];
      CanDetach(kinds, w, this, index);
      var weight := thing.GetWeight(kinds);
      assert weight == Weight(kinds, w, thing);
      thing.parent := null;
      itemlist := itemlist[..index] + itemlist[index + 1..];
      ghost var v := Detach(w, this, index);
      assert Snap(items) == v;
      UpdateItemWeight(-weight, items, Height(v));
    }

    method RemoveThing(kinds: Kinds, thing: Item, count: nat, ghost items: set<Item>)
      requires Sound(kinds, Snap(items)) && this in items && thing in items
      modifies items
      ensures Snap(items) == Removed(kinds, old(Snap(items)), this, thing, count)
      ensures Sound(kinds, Snap(items))
      ensures IsRemoval(kinds, old(Snap(items)), Snap(items), this, thing, count)
    {
      hide Sound, Push, Index, IsRemoval;
      RemovalIs(kinds, Snap(items), this, thing, count);
      var index := GetIndexOfThing(thing);
      if index == -1 {
        return;
      }
      if kinds(thing.id).stackable && count != thing.count {
        LowerCount(kinds, thing, count, items);
      } else {
        Erase(kinds, index, items);
      }
    }
  }

  // The fields of one item.
  datatype Cell = Cell(id: nat, count: nat, parent: Item?, list: seq<Item>, total: int)

  type World = map<Item, Cell>

  ghost function Snap(items: set<Item>): World
    reads items
  {
    map x | x in items :: Cell(x.id, x.count, x.parent, x.itemlist, x.totalWeight)
  }

  // Item::getWeight of the item alone
  function OwnWeight(kinds: Kinds, c: Cell): int {
    StackWeight(kinds(c.id).stackable, kinds(c.id).weight, c.count)
  }

  // getWeight, which relies on the cached weight
  function Weight(kinds: Kinds, w: World, x: Item): int
    requires x in w
  {
    OwnWeight(kinds, w[x]) + w[x].total
  }

  function Sum(kinds: Kinds, w: World, xs: seq<Item>): int
    requires forall x <- xs :: x in w
  {
    if xs == [] then 0 else Weight(kinds, w, xs[0]) + Sum(kinds, w, xs[1..])
  }

  // Parent links and item lists say the same.
  predicate Linked(w: World) {
    && (forall c <- w :: NoRepeats(w[c].list) && forall k <- w[c].list :: k in w && w[k].parent == c)
    && (forall x <- w :: w[x].parent != null ==> w[x].parent in w && x in w[w[x].parent].list)
    && (forall c <- w :: !c.isContainer ==> w[c].list == [])
  }

  // The parent chain of `x` ends within `n` steps.
  predicate Grounded(w: World, x: Item, n: nat) {
    n > 0 && x in w && (w[x].parent != null ==> Grounded(w, w[x].parent, n - 1))
  }

  predicate AllGrounded(w: World, n: nat) {
    forall x <- w :: Grounded(w, x, n)
  }

  ghost predicate Acyclic(w: World) {
    exists n: nat :: AllGrounded(w, n)
  }

  // `a` is among the containers around `x`, at most `n` levels up.
  predicate AroundIn(w: World, a: Item, x: Item, n: nat) {
    n > 0 && x in w && w[x].parent != null && (w[x].parent == a || AroundIn(w, a, w[x].parent, n - 1))
  }

  // `x` is somewhere inside `a`.
  ghost predicate Inside(w: World, a: Item, x: Item) {
    exists n: nat :: AroundIn(w, a, x, n)
  }

  // The cached weight of `c` is the sum of its contents' weights, which rely on their own cached weights.
  predicate Balanced(kinds: Kinds, w: World, c: Item)
    requires Linked(w) && c in w
  {
    w[c].total == Sum(kinds, w, w[c].list)
  }

  predicate AllBalanced(kinds: Kinds, w: World)
    requires Linked(w)
  {
    forall c <- w :: Balanced(kinds, w, c)
  }

  ghost predicate Sound(kinds: Kinds, w: World) {
    Linked(w) && Acyclic(w) && AllBalanced(kinds, w)
  }

  // `a` is `x` or around it.
  ghost predicate UpTo(w: World, a: Item, x: Item) {
    a == x || Inside(w, a, x)
  }

  lemma InsideUp(w: World, a: Item, x: Item)
    requires x in w
    ensures Inside(w, a, x) == (w[x].parent != null && UpTo(w, a, w[x].parent))
  {
    if Inside(w, a, x) {
      var n: nat :| AroundIn(w, a, x, n);
      assert w[x].parent == a || AroundIn(w, a, w[x].parent, n - 1);
    } else if w[x].parent != null && UpTo(w, a, w[x].parent) {
      if w[x].parent == a {
        assert AroundIn(w, a, x, 1);
      } else {
        var n: nat :| AroundIn(w, a, w[x].parent, n);
        assert AroundIn(w, a, x, n + 1);
      }
    }
  }

  lemma UpFurther(w: World, a: Item, x: Item)
    requires UpTo(w, a, x) && x in w && a in w && w[a].parent != null
    ensures UpTo(w, w[a].parent, x)
  {
    if a == x {
      assert AroundIn(w, w[a].parent, x, 1);
    } else {
      var n: nat :| AroundIn(w, a, x, n);
      AroundFurther(w, a, x, n);
    }
  }

  lemma {:induction false} AroundFurther(w: World, a: Item, x: Item, n: nat)
    requires AroundIn(w, a, x, n) && a in w && w[a].parent != null
    ensures AroundIn(w, w[a].parent, x, n + 1)
  {
    if w[x].parent != a {
      AroundFurther(w, a, w[x].parent, n - 1);
    } else {
      assert AroundIn(w, w[a].parent, a, n);
    }
  }

  // ---------- what soundness means ----------

  // No item is inside itself.
  lemma NotInsideItself(w: World, x: Item)
    requires Acyclic(w)
    ensures !Inside(w, x, x)
  {
    var n: nat :| AllGrounded(w, n);
    if Inside(w, x, x) {
      var k: nat :| AroundIn(w, x, x, k);
      Loops(w, x, x, k, k, n);
    }
  }

  // A chain that comes back does not end.
  lemma {:induction false} Loops(w: World, x: Item, y: Item, k: nat, j: nat, n: nat)
    requires AroundIn(w, x, x, k) && AroundIn(w, x, y, j)
    ensures !Grounded(w, y, n)
    decreases n
  {
    if Grounded(w, y, n) {
      if w[y].parent == x {
        Loops(w, x, x, k, k, n - 1);
      } else {
        Loops(w, x, w[y].parent, k, j - 1, n - 1);
      }
    }
  }

  // The weight of everything inside `c`, counted through, down to `h` levels.
  function TrueTotal(kinds: Kinds, w: World, c: Item, h: nat): int
    requires Linked(w) && c in w
    decreases h, 1, 0
  {
    if h == 0 then 0 else TrueSum(kinds, w, w[c].list, h - 1)
  }

  function TrueSum(kinds: Kinds, w: World, xs: seq<Item>, h: nat): int
    requires Linked(w) && forall x <- xs :: x in w
    decreases h, 2, |xs|
  {
    if xs == [] then 0
    else OwnWeight(kinds, w[xs[0]]) + TrueTotal(kinds, w, xs[0], h) + TrueSum(kinds, w, xs[1..], h)
  }

  // `x` has at least `d` containers around it.
  predicate Deep(w: World, x: Item, d: nat) {
    x in w && (d > 0 ==> w[x].parent != null && Deep(w, w[x].parent, d - 1))
  }

  lemma {:induction false} DeepIsNotGrounded(w: World, x: Item, d: nat)
    requires Deep(w, x, d)
    ensures !Grounded(w, x, d)
  {
    if d > 0 {
      DeepIsNotGrounded(w, w[x].parent, d - 1);
    }
  }

  lemma {:induction false} GroundedMore(w: World, x: Item, n: nat, m: nat)
    requires Grounded(w, x, n) && n <= m
    ensures Grounded(w, x, m)
  {
    if w[x].parent != null {
      GroundedMore(w, w[x].parent, n - 1, m - 1);
    }
  }

  lemma {:induction false} TotalIsTrue(kinds: Kinds, w: World, c: Item, d: nat, h: nat, n: nat)
    requires Linked(w) && AllBalanced(kinds, w) && AllGrounded(w, n)
    requires Deep(w, c, d) && d + h >= n
    ensures w[c].total == TrueTotal(kinds, w, c, h)
    decreases h, 1, 0
  {
    hide Linked, AllBalanced, AllGrounded, Grounded, TrueSum, Sum;
    ListOf(kinds, w, c, n);
    if h == 0 {
      DeepIsNotGrounded(w, c, d);
      GroundedMore(w, c, n, d);
    } else {
      SumIsTrue(kinds, w, c, w[c].list, d, h - 1, n);
    }
  }

  lemma ListOf(kinds: Kinds, w: World, c: Item, n: nat)
    requires Linked(w) && AllBalanced(kinds, w) && AllGrounded(w, n) && c in w
    ensures Grounded(w, c, n)
    ensures forall x <- w[c].list :: x in w && w[x].parent == c
    ensures w[c].total == Sum(kinds, w, w[c].list)
  {
    assert Balanced(kinds, w, c);
  }

  lemma {:induction false} SumIsTrue(kinds: Kinds, w: World, c: Item, xs: seq<Item>, d: nat, h: nat, n: nat)
    requires Linked(w) && AllBalanced(kinds, w) && AllGrounded(w, n)
    requires Deep(w, c, d) && d + 1 + h >= n
    requires forall x <- xs :: x in w && w[x].parent == c
    ensures Sum(kinds, w, xs) == TrueSum(kinds, w, xs, h)
    decreases h, 2, |xs|
  {
    hide Linked, AllBalanced, AllGrounded;
    if xs != [] {
      TotalIsTrue(kinds, w, xs[0], d + 1, h, n);
      SumIsTrue(kinds, w, c, xs[1..], d, h, n);
    }
  }

  // Counted `n` levels deep or deeper, every cached weight is true.
  ghost predicate TrueFrom(kinds: Kinds, w: World, n: nat)
    requires Linked(w)
  {
    forall h: nat, c <- w :: h >= n ==> w[c].total == TrueTotal(kinds, w, c, h)
  }

  // In a sound world every cached weight is the weight of everything inside, at any depth.
  lemma CachedWeightsTrue(kinds: Kinds, w: World)
    requires Sound(kinds, w)
    ensures exists n: nat :: TrueFrom(kinds, w, n)
  {
    var n: nat :| AllGrounded(w, n);
    forall h: nat, c <- w | h >= n
      ensures w[c].total == TrueTotal(kinds, w, c, h)
    {
      TotalIsTrue(kinds, w, c, 0, h, n);
    }
    assert TrueFrom(kinds, w, n);
  }

  // ---------- cutting chains ----------

  // Chains in which some links are cut still end.
  lemma {:induction false} CutGrounded(w: World, v: World, x: Item, n: nat)
    requires Grounded(w, x, n) && w.Keys <= v.Keys
    requires forall z <- w :: v[z].parent == w[z].parent || v[z].parent == null
    ensures Grounded(v, x, n)
  {
    if v[x].parent != null {
      CutGrounded(w, v, w[x].parent, n - 1);
    }
  }

  lemma CutAcyclic(w: World, v: World)
    requires Acyclic(w) && w.Keys == v.Keys
    requires forall z <- w :: v[z].parent == w[z].parent || v[z].parent == null
    ensures Acyclic(v)
  {
    var n: nat :| AllGrounded(w, n);
    forall x <- v ensures Grounded(v, x, n) { CutGrounded(w, v, x, n); }
    assert AllGrounded(v, n);
  }

  // ---------- passing a weight difference up ----------

  // Container::updateItemWeight: the difference goes to `c` and everything around it.
  function PushWeight(w: World, c: Item?, diff: int, n: nat): (v: World)
    ensures v.Keys == w.Keys
  {
    if c == null || c !in w || n == 0 then w
    else PushWeight(w[c := w[c].(total := w[c].total + diff)], w[c].parent, diff, n - 1)
  }

  // A bound on the length of every parent chain.
  ghost function Height(w: World): (n: nat)
    ensures Acyclic(w) ==> AllGrounded(w, n)
  {
    if Acyclic(w) then var n: nat :| AllGrounded(w, n); n else 0
  }

  ghost function Push(w: World, c: Item?, diff: int): World {
    PushWeight(w, c, diff, Height(w))
  }

  // A world that differs in nothing but cached weights.
  predicate SameShape(w: World, v: World) {
    && w.Keys == v.Keys
    && forall x <- w :: w[x].id == v[x].id && w[x].count == v[x].count && w[x].parent == v[x].parent && w[x].list == v[x].list
  }

  // Sums over lists in which nothing, or only `x`, has a new weight.
  lemma {:induction false} SumWithout(kinds: Kinds, w: World, v: World, xs: seq<Item>)
    requires forall k <- xs :: k in w && k in v && OwnWeight(kinds, v[k]) == OwnWeight(kinds, w[k]) && v[k].total == w[k].total
    ensures Sum(kinds, v, xs) == Sum(kinds, w, xs)
    decreases |xs|
  {
    if xs != [] {
      SumWithout(kinds, w, v, xs[1..]);
    }
  }

  lemma {:induction false} SumWith(kinds: Kinds, w: World, v: World, x: Item, xs: seq<Item>)
    requires NoRepeats(xs) && x in xs && x in w && x in v
    requires forall k <- xs :: k in w && k in v
    requires forall k <- xs :: k != x ==> OwnWeight(kinds, v[k]) == OwnWeight(kinds, w[k]) && v[k].total == w[k].total
    ensures Sum(kinds, v, xs) == Sum(kinds, w, xs) + Weight(kinds, v, x) - Weight(kinds, w, x)
    decreases |xs|
  {
    if xs[0] == x {
      assert forall k <- xs[1..] :: k != x;
      SumWithout(kinds, w, v, xs[1..]);
    } else {
      SumWith(kinds, w, v, x, xs[1..]);
    }
  }

  lemma {:induction false} SumConcat(kinds: Kinds, w: World, xs: seq<Item>, ys: seq<Item>)
    requires forall k <- xs + ys :: k in w
    ensures (forall k <- xs :: k in w) && (forall k <- ys :: k in w)
    ensures Sum(kinds, w, xs + ys) == Sum(kinds, w, xs) + Sum(kinds, w, ys)
    decreases |xs|
  {
    assert forall k <- xs :: k in xs + ys;
    assert forall k <- ys :: k in xs + ys;
    if xs == [] {
      assert xs + ys == ys;
    } else {
      assert (xs + ys)[1..] == xs[1..] + ys;
      SumConcat(kinds, w, xs[1..], ys);
    }
  }

  // Everything is balanced but `c`, which is short of `diff`.
  predicate BalancedBut(kinds: Kinds, w: World, c: Item?, diff: int)
    requires Linked(w)
  {
    forall k <- w :: w[k].total + (if k == c then diff else 0) == Sum(kinds, w, w[k].list)
  }

  // One level: the difference moves on to the parent.
  lemma PushStep(kinds: Kinds, w: World, c: Item, diff: int)
    requires Linked(w) && c in w && BalancedBut(kinds, w, c, diff) && w[c].parent != c
    ensures var v := w[c := w[c].(total := w[c].total + diff)];
      SameShape(w, v) && Linked(v) && BalancedBut(kinds, v, w[c].parent, diff)
  {
    var v := w[c := w[c].(total := w[c].total + diff)];
    forall k <- v
      ensures v[k].total + (if k == w[c].parent then diff else 0) == Sum(kinds, v, v[k].list)
    {
      if k == w[c].parent {
        SumWith(kinds, w, v, c, w[k].list);
      } else {
        assert c !in w[k].list;
        SumWithout(kinds, w, v, w[k].list);
      }
    }
  }

  lemma ListIn(w: World, c: Item)
    requires Linked(w) && c in w
    ensures forall k <- w[c].list :: k in w
  {}

  lemma ParentIn(w: World, x: Item)
    requires Linked(w) && x in w
    ensures w[x].parent != null ==> w[x].parent in w
  {}

  // What is left to do after the first level.
  lemma PushedUp(w: World, c: Item, diff: int, n: nat)
    requires Linked(w) && c in w && Grounded(w, c, n)
    ensures n > 0
    ensures var v := w[c := w[c].(total := w[c].total + diff)];
      && PushWeight(w, c, diff, n) == PushWeight(v, w[c].parent, diff, n - 1)
      && Linked(v) && (w[c].parent != null ==> Grounded(v, w[c].parent, n - 1))
  {
    var v := w[c := w[c].(total := w[c].total + diff)];
    ShapeLinked(w, v);
    if w[c].parent != null {
      ShapeGrounded(w, v, w[c].parent, n - 1);
    }
  }

  lemma ShapeLinked(w: World, v: World)
    requires SameShape(w, v) && Linked(w)
    ensures Linked(v)
  {
    hide NoRepeats;
  }

  lemma ShapeTrans(u: World, v: World, w: World)
    requires SameShape(u, v) && SameShape(v, w)
    ensures SameShape(u, w)
  {}

  lemma ShapeGrounded(w: World, v: World, c: Item, n: nat)
    requires SameShape(w, v) && Grounded(w, c, n)
    ensures Grounded(v, c, n)
  {
    CutGrounded(w, v, c, n);
  }

  lemma BalancedNone(kinds: Kinds, w: World, diff: int)
    requires Linked(w) && BalancedBut(kinds, w, null, diff)
    ensures AllBalanced(kinds, w)
  {}

  lemma ShapeSelf(w: World)
    ensures SameShape(w, w)
  {}

  // Pushed all the way up, a difference leaves everything balanced.
  lemma {:induction false} PushBalances(kinds: Kinds, w: World, c: Item?, diff: int, n: nat)
    requires Linked(w) && (c != null ==> c in w && Grounded(w, c, n)) && BalancedBut(kinds, w, c, diff)
    ensures SameShape(w, PushWeight(w, c, diff, n)) && Linked(PushWeight(w, c, diff, n))
    ensures AllBalanced(kinds, PushWeight(w, c, diff, n))
    decreases n
  {
    hide Linked, SameShape, BalancedBut, AllBalanced;
    if c == null {
      BalancedNone(kinds, w, diff);
      ShapeSelf(w);
    } else {
      NotOwnParent(w, c, n);
      PushStep(kinds, w, c, diff);
      var v := w[c := w[c].(total := w[c].total + diff)];
      if w[c].parent != null {
        ShapeGrounded(w, v, w[c].parent, n - 1);
      }
      PushBalances(kinds, v, w[c].parent, diff, n - 1);
      ShapeTrans(w, v, PushWeight(v, w[c].parent, diff, n - 1));
    }
  }

  lemma {:induction false} NotOwnParent(w: World, c: Item, n: nat)
    requires Grounded(w, c, n)
    ensures w[c].parent != c
  {
    if w[c].parent == c {
      NotOwnParent(w, c, n - 1);
    }
  }

  lemma PushSound(kinds: Kinds, w: World, c: Item?, diff: int)
    requires Linked(w) && Acyclic(w) && (c != null ==> c in w) && BalancedBut(kinds, w, c, diff)
    ensures Sound(kinds, Push(w, c, diff)) && SameShape(w, Push(w, c, diff))
  {
    hide Linked, BalancedBut, AllBalanced, Acyclic;
    assert AllGrounded(w, Height(w));
    PushBalances(kinds, w, c, diff, Height(w));
    CutAcyclic(w, Push(w, c, diff));
  }

  // ---------- the container operations ----------

  // Container::__getIndexOfThing
  function Index(xs: seq<Item>, x: Item): (i: int)
    ensures -1 <= i < |xs| && (i == -1 <==> x !in xs)
    ensures i >= 0 ==> xs[i] == x && x !in xs[..i]
  {
    if xs == [] then -1 else if xs[0] == x then 0
    else var i := Index(xs[1..], x); if i == -1 then -1 else i + 1
  }

  // `x` becomes part of `c`, weights not yet counted.
  function Attach(w: World, c: Item, x: Item, list: seq<Item>): World
    requires c in w && x in w
  {
    var v := w[x := w[x].(parent := c)];
    v[c := v[c].(list := list)]
  }

  // The item at `i` leaves `c`, weights not yet counted.
  function Detach(w: World, c: Item, i: nat): World
    requires c in w && i < |w[c].list| && w[c].list[i] in w
  {
    var x := w[c].list[i];
    var v := w[x := w[x].(parent := null)];
    v[c := v[c].(list := w[c].list[..i] + w[c].list[i + 1..])]
  }

  // A thing joins `c` only when it is loose and `c` is neither the thing nor inside it.
  ghost predicate CanJoin(kinds: Kinds, w: World, c: Item, x: Item) {
    Sound(kinds, w) && c in w && x in w && c.isContainer && c != x && w[x].parent == null && !Inside(w, x, c)
  }

  // Container::__addThing and __internalAddThing (to the front)
  ghost function Added(kinds: Kinds, w: World, c: Item, index: int, x: Item): World
    requires c in w && x in w
  {
    if index >= c.maxSize then w
    else Push(Attach(w, c, x, [x] + w[c].list), c, Weight(kinds, w, x))
  }

  // Container::__addThingBack (to the back)
  ghost function AddedBack(kinds: Kinds, w: World, c: Item, x: Item): World
    requires c in w && x in w
  {
    Push(Attach(w, c, x, w[c].list + [x]), c, Weight(kinds, w, x))
  }

  // Item::setSubType writes the count of an item that keeps neither fluid nor charges.
  function SubTyped(kinds: Kinds, c: Cell, n: nat): Cell {
    if !kinds(c.id).fluid && (kinds(c.id).stackable || !kinds(c.id).charged) then c.(count := n % 0x100) else c
  }

  // The cell of `x`, which lies in `c`, changes, and its weight with it.
  ghost function Changed(kinds: Kinds, w: World, c: Item, x: Item, cell: Cell): World
    requires x in w
  {
    Push(w[x := cell], c, OwnWeight(kinds, cell) - OwnWeight(kinds, w[x]))
  }

  // Container::__updateThing
  ghost function Updated(kinds: Kinds, w: World, c: Item, x: Item, id: nat, count: nat): World
    requires c in w && x in w
  {
    if x !in w[c].list then w else Changed(kinds, w, c, x, SubTyped(kinds, w[x].(id := id), count))
  }

  function Fewer(c: Cell, n: nat): Cell {
    c.(count := if n < c.count then c.count - n else 0)
  }

  // Container::__removeThing
  ghost function Removed(kinds: Kinds, w: World, c: Item, x: Item, count: nat): World
    requires c in w && x in w
  {
    if x !in w[c].list then w
    else if kinds(w[x].id).stackable && count != w[x].count then Changed(kinds, w, c, x, Fewer(w[x], count))
    else Push(Detach(w, c, Index(w[c].list, x)), c, -Weight(kinds, w, x))
  }

  // Container::__replaceThing
  ghost function Replaced(kinds: Kinds, w: World, c: Item, index: nat, x: Item): World
    requires c in w && x in w
  {
    if index >= |w[c].list| || w[c].list[index] !in w then w
    else
      Push(Attach(Detach(w, c, index), c, x, w[c].list[index := x]), c,
           Weight(kinds, w, x) - Weight(kinds, w, w[c].list[index]))
  }

  // What the operations change besides cached weights: which item's parent, and whose list
  predicate Relinked(w: World, v: World, x: Item, parent: Item?, c: Item, list: seq<Item>) {
    w.Keys == v.Keys && forall y <- w ::
      && v[y].id == w[y].id && v[y].count == w[y].count
      && v[y].parent == (if y == x then parent else w[y].parent)
      && v[y].list == if y == c then list else w[y].list
  }

  // ... or which item's kind and count
  predicate Recounted(w: World, v: World, x: Item, id: nat, count: nat) {
    w.Keys == v.Keys && forall y <- w ::
      && v[y].id == (if y == x then id else w[y].id)
      && v[y].count == (if y == x then count else w[y].count)
      && v[y].parent == w[y].parent && v[y].list == w[y].list
  }

  lemma AttachRelinks(w: World, c: Item, x: Item, list: seq<Item>, v: World)
    requires c in w && x in w && SameShape(Attach(w, c, x, list), v)
    ensures Relinked(w, v, x, c, c, list)
  {
    var u := Attach(w, c, x, list);
    assert u.Keys == w.Keys;
    forall y <- w ensures u[y].id == v[y].id {}
  }

  lemma DetachRelinks(w: World, c: Item, i: nat, v: World)
    requires c in w && i < |w[c].list| && w[c].list[i] in w && SameShape(Detach(w, c, i), v)
    ensures Relinked(w, v, w[c].list[i], null, c, w[c].list[..i] + w[c].list[i + 1..])
  {
    var u := Detach(w, c, i);
    assert u.Keys == w.Keys;
    forall y <- w ensures u[y].id == v[y].id {}
  }

  lemma CellRecounts(w: World, x: Item, cell: Cell, v: World)
    requires x in w && cell.parent == w[x].parent && cell.list == w[x].list && SameShape(w[x := cell], v)
    ensures Recounted(w, v, x, cell.id, cell.count)
  {
    var u := w[x := cell];
    assert u.Keys == w.Keys;
    forall y <- w ensures u[y].id == v[y].id {}
  }

  // Container::__addThing puts a thing in front, or nowhere.
  lemma AdditionIs(kinds: Kinds, w: World, c: Item, index: int, x: Item)
    requires CanJoin(kinds, w, c, x)
    ensures Sound(kinds, Added(kinds, w, c, index, x))
    ensures index >= c.maxSize ==> Added(kinds, w, c, index, x) == w
    ensures index < c.maxSize ==> Relinked(w, Added(kinds, w, c, index, x), x, c, c, [x] + w[c].list)
  {
    hide Sound, Added, SameShape, Attach, Relinked, Inside;
    AddSound(kinds, w, c, index, x);
    if index < c.maxSize {
      AttachRelinks(w, c, x, [x] + w[c].list, Added(kinds, w, c, index, x));
    }
  }

  lemma AdditionBackIs(kinds: Kinds, w: World, c: Item, x: Item)
    requires CanJoin(kinds, w, c, x)
    ensures Sound(kinds, AddedBack(kinds, w, c, x))
    ensures Relinked(w, AddedBack(kinds, w, c, x), x, c, c, w[c].list + [x])
  {
    hide Sound, AddedBack, SameShape, Attach, Relinked, Inside;
    AddBackSound(kinds, w, c, x);
    AttachRelinks(w, c, x, w[c].list + [x], AddedBack(kinds, w, c, x));
  }

  // What Container::__updateThing means: the item has the new type, and the count if its type has one.
  predicate IsUpdate(kinds: Kinds, w: World, v: World, c: Item, x: Item, id: nat, count: nat)
    requires c in w && x in w
  {
    && (x !in w[c].list ==> v == w)
    && (x in w[c].list ==> Recounted(w, v, x, id,
          if !kinds(id).fluid && (kinds(id).stackable || !kinds(id).charged) then count % 256 else w[x].count))
  }

  lemma UpdateIs(kinds: Kinds, w: World, c: Item, x: Item, id: nat, count: nat)
    requires Sound(kinds, w) && c in w && x in w
    ensures Sound(kinds, Updated(kinds, w, c, x, id, count))
    ensures IsUpdate(kinds, w, Updated(kinds, w, c, x, id, count), c, x, id, count)
  {
    hide Sound, SameShape, Recounted, Changed;
    UpdateSound(kinds, w, c, x, id, count);
    if x in w[c].list {
      CellRecounts(w, x, SubTyped(kinds, w[x].(id := id), count), Updated(kinds, w, c, x, id, count));
    }
  }

  // What Container::__removeThing means: a stack from which not just all is taken has fewer units, any other thing leaves
  // the list.
  predicate IsRemoval(kinds: Kinds, w: World, v: World, c: Item, x: Item, count: nat)
    requires c in w && x in w
  {
    && (x !in w[c].list ==> v == w)
    && (x in w[c].list && kinds(w[x].id).stackable && count != w[x].count ==>
          Recounted(w, v, x, w[x].id, if count < w[x].count then w[x].count - count else 0))
    && (x in w[c].list && (!kinds(w[x].id).stackable || count == w[x].count) ==>
          exists i :: 0 <= i < |w[c].list| && w[c].list[i] == x
            && Relinked(w, v, x, null, c, w[c].list[..i] + w[c].list[i + 1..]))
  }

  lemma RemovalIs(kinds: Kinds, w: World, c: Item, x: Item, count: nat)
    requires Sound(kinds, w) && c in w && x in w
    ensures Sound(kinds, Removed(kinds, w, c, x, count))
    ensures IsRemoval(kinds, w, Removed(kinds, w, c, x, count), c, x, count)
  {
    hide Sound, SameShape, Detach, Relinked, Recounted, Changed, Push;
    RemoveSound(kinds, w, c, x, count);
    if x in w[c].list {
      if kinds(w[x].id).stackable && count != w[x].count {
        CellRecounts(w, x, Fewer(w[x], count), Removed(kinds, w, c, x, count));
      } else {
        var i := Index(w[c].list, x);
        DetachRelinks(w, c, i, Removed(kinds, w, c, x, count));
      }
    }
  }

  // Item `y` in `c` makes room for `x`.
  predicate Swapped(w: World, v: World, c: Item, x: Item, y: Item, list: seq<Item>) {
    w.Keys == v.Keys && forall z <- w ::
      && v[z].id == w[z].id && v[z].count == w[z].count
      && v[z].parent == (if z == x then c else if z == y then null else w[z].parent)
      && v[z].list == if z == c then list else w[z].list
  }

  lemma ReplacementIs(kinds: Kinds, w: World, c: Item, index: nat, x: Item)
    requires CanJoin(kinds, w, c, x)
    ensures Sound(kinds, Replaced(kinds, w, c, index, x))
    ensures index >= |w[c].list| ==> Replaced(kinds, w, c, index, x) == w
    ensures index < |w[c].list| ==>
      Swapped(w, Replaced(kinds, w, c, index, x), c, x, w[c].list[index], w[c].list[index := x])
  {
    hide SameShape, Attach, Detach, Inside, Acyclic, AllBalanced, Linked, Swapped, Push;
    ReplaceSound(kinds, w, c, index, x);
    if index < |w[c].list| {
      Member(w, c, index, x);
      NotOwnParent(w, c, Height(w));
      SwapsLinks(w, c, index, x, Replaced(kinds, w, c, index, x));
    }
  }

  lemma SwapsLinks(w: World, c: Item, index: nat, x: Item, v: World)
    requires c in w && x in w && index < |w[c].list| && w[c].list[index] in w && w[c].list[index] != x && w[c].list[index] != c
    requires c != x && SameShape(Attach(Detach(w, c, index), c, x, w[c].list[index := x]), v)
    ensures Swapped(w, v, c, x, w[c].list[index], w[c].list[index := x])
  {
    var u := Attach(Detach(w, c, index), c, x, w[c].list[index := x]);
    assert u.Keys == w.Keys;
    forall y <- w ensures u[y].id == v[y].id {}
  }

  // ---------- the container queries ----------

  // Container::__queryAdd
  ghost function AddAnswer(kinds: Kinds, w: World, c: Item, index: int, x: Item, flags: Flags): ReturnValue
    requires c in w && x in w
  {
    if flags.childIsOwner then NoError
    else if !c.unlocked then NotPossible
    else if !kinds(w[x].id).pickupable then CannotPickup
    else if x == c || Inside(w, x, c) then ThisIsImpossible
    else if !flags.noLimit && index == INDEX_WHEREEVER && |w[c].list| >= c.maxSize then ContainerNotEnoughRoom
    else NoError
  }

  lemma AnyIndex(kinds: Kinds, w: World, c: Item, index: int, x: Item, flags: Flags)
    requires c in w && x in w && index != INDEX_WHEREEVER
    ensures AddAnswer(kinds, w, c, index, x, flags) == AddAnswer(kinds, w, c, 0, x, flags)
  {}

  // `k` is a stack with room that `x` can be merged into.
  predicate Mergeable(w: World, k: Item, x: Item)
    requires x in w
  {
    k in w && k != x && w[k].id == w[x].id && w[k].count < 100
  }

  // The room that the stacks of `list` have for `x`.
  function StackRoom(w: World, list: seq<Item>, x: Item): nat
    requires x in w
  {
    if list == [] then 0
    else
      var k := list[|list| - 1];
      StackRoom(w, list[..|list| - 1], x) + if Mergeable(w, k, x) then 100 - w[k].count else 0
  }

  lemma RoomNext(w: World, list: seq<Item>, x: Item, k: nat)
    requires x in w && k < |list|
    ensures StackRoom(w, list[..k + 1], x)
         == StackRoom(w, list[..k], x) + if Mergeable(w, list[k], x) then 100 - w[list[k]].count else 0
  {
    assert list[..k + 1][..k] == list[..k];
  }

  lemma NoRoomYet(w: World, list: seq<Item>, x: Item)
    requires x in w
    ensures StackRoom(w, list[..0], x) == 0
  {}

  // Each stack of the kind has room up to 100, whatever lies beside it.
  lemma {:induction false} RoomAdds(w: World, a: seq<Item>, b: seq<Item>, x: Item)
    requires x in w
    ensures StackRoom(w, a + b, x) == StackRoom(w, a, x) + StackRoom(w, b, x)
    ensures forall k <- w ::
      StackRoom(w, [k], x) == if k != x && w[k].id == w[x].id && w[k].count < 100 then 100 - w[k].count else 0
    decreases |b|
  {
    assert forall k: Item :: [k][..0] == [];
    if b == [] {
      assert a + b == a;
    } else {
      assert (a + b)[..|a + b| - 1] == a + b[..|b| - 1];
      RoomAdds(w, a, b[..|b| - 1], x);
    }
  }

  function FreeSlots(w: World, c: Item): nat
    requires c in w
  {
    if |w[c].list| < c.maxSize then c.maxSize - |w[c].list| else 0
  }

  // Container::__queryMaxCount: the answer and how much can be added
  ghost function MaxCount(kinds: Kinds, w: World, c: Item, index: int, x: Item, count: nat, flags: Flags): (ReturnValue, nat)
    requires c in w && x in w
  {
    if flags.noLimit then (NoError, if count < 1 then 1 else count)
    else if kinds(w[x].id).stackable then
      var n :=
        if AddAnswer(kinds, w, c, 0, x, flags) != NoError then 0
        else if index == INDEX_WHEREEVER then StackRoom(w, w[c].list, x)
        else if 0 <= index < |w[c].list| && IndexRoom(w, w[c].list[index], x) then 100 - w[w[c].list[index]].count
        else 0;
      var room := FreeSlots(w, c) * 100 + n;
      (if room < count then ContainerNotEnoughRoom else NoError, room)
    else
      (if FreeSlots(w, c) == 0 then ContainerNotEnoughRoom else NoError, FreeSlots(w, c))
  }

  // What an answer of __queryMaxCount means. Without a limit all of it can be added. Of what does not stack there can be
  // added as many as there are free slots; of a stack a hundred for each, and what its kind's stacks have room for, or
  // the one at the index, if nothing else is against adding there.
  ghost predicate IsMaxCount(kinds: Kinds, w: World, c: Item, index: int, x: Item, count: nat, flags: Flags, r: ReturnValue,
                             max: nat)
    requires c in w && x in w
  {
    var list, slots := w[c].list, if |w[c].list| < c.maxSize then c.maxSize - |w[c].list| else 0;
    var open := AddAnswer(kinds, w, c, 0, x, flags) == NoError;
    && (flags.noLimit ==> r == NoError && max == if count == 0 then 1 else count)
    && (!flags.noLimit && !kinds(w[x].id).stackable ==> max == slots)
    && (!flags.noLimit && kinds(w[x].id).stackable && !open ==> max == 100 * slots)
    && (!flags.noLimit && kinds(w[x].id).stackable && open && index == INDEX_WHEREEVER ==>
          max == 100 * slots + StackRoom(w, list, x))
    && (!flags.noLimit && kinds(w[x].id).stackable && open && index != INDEX_WHEREEVER ==>
          && (0 <= index < |list| && list[index] in w && w[list[index]].id == w[x].id && w[list[index]].count < 100 ==>
                max == 100 * slots + 100 - w[list[index]].count)
          && (!(0 <= index < |list| && list[index] in w && w[list[index]].id == w[x].id && w[list[index]].count < 100) ==>
                max == 100 * slots))
    && (!flags.noLimit ==>
          r == if (if kinds(w[x].id).stackable then count <= max else max > 0) then NoError else ContainerNotEnoughRoom)
  }

  lemma MaxCountIs(kinds: Kinds, w: World, c: Item, index: int, x: Item, count: nat, flags: Flags)
    requires c in w && x in w
    ensures var (r, max) := MaxCount(kinds, w, c, index, x, count, flags);
      IsMaxCount(kinds, w, c, index, x, count, flags, r, max)
  {
    hide AddAnswer, StackRoom;
  }

  predicate IndexRoom(w: World, k: Item, x: Item)
    requires x in w
  {
    k in w && w[k].id == w[x].id && w[k].count < 100
  }

  // Container::__queryRemove
  function RemoveAnswer(kinds: Kinds, w: World, c: Item, x: Item, count: nat, flags: Flags): ReturnValue
    requires c in w && x in w
  {
    if x !in w[c].list then NotPossible
    else if count == 0 || (kinds(w[x].id).stackable && count > w[x].count) then NotPossible
    else if !kinds(w[x].id).moveable && !flags.ignoreNotMoveable then NotMoveable
    else NoError
  }

  function FirstMergeable(w: World, list: seq<Item>, x: Item): (i: int)
    requires x in w
    ensures -1 <= i < |list|
    ensures i == -1 ==> forall k <- list :: !Mergeable(w, k, x)
    ensures i >= 0 ==> Mergeable(w, list[i], x) && forall k <- list[..i] :: !Mergeable(w, k, x)
  {
    if list == [] then -1
    else if Mergeable(w, list[0], x) then 0
    else var i := FirstMergeable(w, list[1..], x); if i == -1 then -1 else i + 1
  }

  // Container::__queryDestination: where the thing goes, at which index, and onto what
  function Destination(kinds: Kinds, w: World, c: Item, index: int, x: Item, flags: Flags): (Item, int, Item?)
    requires c in w && x in w
  {
    var list := w[c].list;
    if !c.unlocked then (c, index, null)
    else if index == 254 then (if w[c].parent != null then w[c].parent else c, INDEX_WHEREEVER, null)
    else
      var at := if index == 255 || index >= c.maxSize then INDEX_WHEREEVER else index;
      var i := FirstMergeable(w, list, x);
      if !flags.ignoreAutoStack && kinds(w[x].id).stackable && w[x].parent != c && i != -1 then (c, i, list[i])
      else if 0 <= at < |list| then if list[at].isContainer then (list[at], INDEX_WHEREEVER, null) else (c, at, list[at])
      else (c, at, null)
  }

  // The thing is a stack that looks for a stack to go onto.
  predicate StacksBy(kinds: Kinds, w: World, c: Item, x: Item, flags: Flags)
    requires x in w
  {
    !flags.ignoreAutoStack && kinds(w[x].id).stackable && w[x].parent != c
  }

  // What an answer of __queryDestination means: `x`, meant for the container `c` at `index`, goes to `dest` at `at` and
  // onto `onto`. A locked container answers with itself, and 254 leads to its parent. A stack goes to the first stack of
  // its kind with room, whatever the index. Otherwise a container at the index is where the thing goes, another item there
  // is what it goes to; 255 and an index beyond the capacity mean any place.
  ghost predicate IsDestination(kinds: Kinds, w: World, c: Item, index: int, x: Item, flags: Flags, dest: Item, at: int,
                                onto: Item?)
    requires c in w && x in w
  {
    var list := w[c].list;
    && (!c.unlocked ==> dest == c && at == index && onto == null)
    && (c.unlocked && index == 254 ==> at == INDEX_WHEREEVER && onto == null)
    && (c.unlocked && index == 254 && w[c].parent == null ==> dest == c)
    && (c.unlocked && index == 254 && w[c].parent != null ==> dest == w[c].parent)
    && (c.unlocked && index != 254 && StacksBy(kinds, w, c, x, flags) && (exists k <- list :: Mergeable(w, k, x)) ==>
          && dest == c && 0 <= at < |list| && onto == list[at] && Mergeable(w, onto, x)
          && forall k <- list[..at] :: !Mergeable(w, k, x))
    && (c.unlocked && index != 254 && !(StacksBy(kinds, w, c, x, flags) && exists k <- list :: Mergeable(w, k, x)) ==>
          && (index == 255 || c.maxSize <= index ==> dest == c && at == INDEX_WHEREEVER && onto == null)
          && (index != 255 && index < c.maxSize && (index < 0 || |list| <= index) ==> dest == c && at == index && onto == null)
          && (index != 255 && 0 <= index < c.maxSize && index < |list| && list[index].isContainer ==>
                dest == list[index] && at == INDEX_WHEREEVER && onto == null)
          && (index != 255 && 0 <= index < c.maxSize && index < |list| && !list[index].isContainer ==>
                dest == c && at == index && onto == list[index]))
  }

  lemma DestinationIs(kinds: Kinds, w: World, c: Item, index: int, x: Item, flags: Flags)
    requires c in w && x in w
    ensures var (dest, at, onto) := Destination(kinds, w, c, index, x, flags);
      IsDestination(kinds, w, c, index, x, flags, dest, at, onto)
  {
    hide FirstMergeable;
    var i := FirstMergeable(w, w[c].list, x);
    if i != -1 {
      assert w[c].list[i] in w[c].list;
    }
  }

  // ---------- each operation keeps the world sound ----------

  // A chain that does not pass `x` is not touched by what happens to `x`.
  lemma {:induction false} ElsewhereGrounded(w: World, v: World, x: Item, y: Item, k: nat)
    requires Grounded(w, y, k) && y != x && !Inside(w, x, y)
    requires w.Keys <= v.Keys && forall z <- w :: z != x ==> v[z].parent == w[z].parent
    ensures Grounded(v, y, k)
    decreases k
  {
    if w[y].parent != null {
      NotInsideUp(w, x, y);
      ElsewhereGrounded(w, v, x, w[y].parent, k - 1);
    }
  }

  lemma NotInsideUp(w: World, x: Item, y: Item)
    requires y in w && w[y].parent != null && !Inside(w, x, y)
    ensures w[y].parent != x && !Inside(w, x, w[y].parent)
  {
    if w[y].parent == x {
      assert AroundIn(w, x, y, 1);
    }
    if Inside(w, x, w[y].parent) {
      var n: nat :| AroundIn(w, x, w[y].parent, n);
      assert AroundIn(w, x, y, n + 1);
    }
  }

  // A chain through `x` goes on with the chain of x's new container `c`.
  lemma {:induction false} JoinedGrounded(w: World, v: World, c: Item, x: Item, y: Item, k: nat, n: nat)
    requires x in w && w.Keys <= v.Keys && v[x].parent == c && forall z <- w :: z != x ==> v[z].parent == w[z].parent
    requires Grounded(w, y, k) && Grounded(v, c, n)
    ensures Grounded(v, y, k + n)
    decreases k
  {
    if y == x {
      GroundedMore(v, c, n, k + n - 1);
    } else if w[y].parent != null {
      JoinedGrounded(w, v, c, x, w[y].parent, k - 1, n);
    }
  }

  // Putting `x` into `c`, which is not inside `x`, closes no loop.
  lemma JoinAcyclic(w: World, v: World, c: Item, x: Item)
    requires Acyclic(w) && c in w && x in w && c != x && !Inside(w, x, c)
    requires v.Keys == w.Keys && v[x].parent == c && forall z <- w :: z != x ==> v[z].parent == w[z].parent
    ensures Acyclic(v)
  {
    var n: nat :| AllGrounded(w, n);
    ElsewhereGrounded(w, v, x, c, n);
    forall y <- v ensures Grounded(v, y, n + n) { JoinedGrounded(w, v, c, x, y, n, n); }
    assert AllGrounded(v, n + n);
  }

  // `list` holds what the list of `c` holds, and `x`.
  predicate Joined(kinds: Kinds, w: World, c: Item, x: Item, list: seq<Item>)
    requires c in w && x in w
  {
    && NoRepeats(list)
    && (forall k <- list :: k == x || k in w[c].list)
    && (forall k <- w[c].list :: k in list)
    && x in list
    && (forall k <- list :: k in w) && (forall k <- w[c].list :: k in w)
    && Sum(kinds, w, list) == Sum(kinds, w, w[c].list) + Weight(kinds, w, x)
  }

  lemma AttachLinked(kinds: Kinds, w: World, c: Item, x: Item, list: seq<Item>)
    requires Linked(w) && c in w && x in w && c.isContainer && c != x && w[x].parent == null
    requires Joined(kinds, w, c, x, list)
    ensures Linked(Attach(w, c, x, list))
  {
    hide Sum, NoRepeats, Weight;
    var v := Attach(w, c, x, list);
    forall k <- v
      ensures NoRepeats(v[k].list) && forall y <- v[k].list :: y in v && v[y].parent == k
    {
      AttachListed(kinds, w, c, x, list, k);
    }
    forall y <- v | v[y].parent != null
      ensures v[y].parent in v && y in v[v[y].parent].list
    {
      AttachParent(kinds, w, c, x, list, y);
    }
  }

  lemma AttachListed(kinds: Kinds, w: World, c: Item, x: Item, list: seq<Item>, k: Item)
    requires Linked(w) && c in w && x in w && c != x && w[x].parent == null
    requires Joined(kinds, w, c, x, list) && k in w
    ensures var v := Attach(w, c, x, list);
      NoRepeats(v[k].list) && forall y <- v[k].list :: y in v && v[y].parent == k
  {
    hide Sum, NoRepeats, Weight;
    assert NoRepeats(w[k].list);
  }

  lemma AttachParent(kinds: Kinds, w: World, c: Item, x: Item, list: seq<Item>, y: Item)
    requires Linked(w) && c in w && x in w && c != x && w[x].parent == null
    requires Joined(kinds, w, c, x, list) && y in w
    ensures var v := Attach(w, c, x, list);
      v[y].parent != null ==> v[y].parent in v && y in v[v[y].parent].list
  {
    hide Sum, NoRepeats, Weight;
  }

  lemma AttachBalance(kinds: Kinds, w: World, c: Item, x: Item, list: seq<Item>, diff: int)
    requires Linked(w) && c in w && x in w && c.isContainer && c != x && w[x].parent == null
    requires Joined(kinds, w, c, x, list) && Linked(Attach(w, c, x, list)) && BalancedBut(kinds, w, c, diff)
    ensures BalancedBut(kinds, Attach(w, c, x, list), c, diff + Weight(kinds, w, x))
  {
    var v := Attach(w, c, x, list);
    forall k <- v
      ensures v[k].total + (if k == c then diff + Weight(kinds, w, x) else 0) == Sum(kinds, v, v[k].list)
    {
      SumWithout(kinds, w, v, v[k].list);
    }
  }

  // Attaching a loose thing and passing its weight up.
  lemma JoinSound(kinds: Kinds, w: World, c: Item, x: Item, list: seq<Item>, diff: int)
    requires Linked(w) && Acyclic(w) && BalancedBut(kinds, w, c, diff)
    requires c in w && x in w && c.isContainer && c != x && w[x].parent == null && !Inside(w, x, c)
    requires Joined(kinds, w, c, x, list)
    ensures var v := Push(Attach(w, c, x, list), c, diff + Weight(kinds, w, x));
      Sound(kinds, v) && SameShape(Attach(w, c, x, list), v)
  {
    hide Linked, BalancedBut, Acyclic, Inside, Joined, Push, Sound;
    AttachLinked(kinds, w, c, x, list);
    AttachBalance(kinds, w, c, x, list, diff);
    JoinAcyclic(w, Attach(w, c, x, list), c, x);
    PushSound(kinds, Attach(w, c, x, list), c, diff + Weight(kinds, w, x));
  }

  lemma SoundBut(kinds: Kinds, w: World, c: Item)
    requires Sound(kinds, w)
    ensures BalancedBut(kinds, w, c, 0)
  {
    assert forall k <- w :: Balanced(kinds, w, k);
  }

  lemma JoinsFront(kinds: Kinds, w: World, c: Item, x: Item)
    requires Linked(w) && c in w && x in w && w[x].parent == null
    ensures Joined(kinds, w, c, x, [x] + w[c].list)
  {
    assert ([x] + w[c].list)[1..] == w[c].list;
  }

  lemma JoinsBack(kinds: Kinds, w: World, c: Item, x: Item)
    requires Linked(w) && c in w && x in w && w[x].parent == null
    ensures Joined(kinds, w, c, x, w[c].list + [x])
  {
    SumConcat(kinds, w, w[c].list, [x]);
  }

  lemma AddSound(kinds: Kinds, w: World, c: Item, index: int, x: Item)
    requires CanJoin(kinds, w, c, x)
    ensures Sound(kinds, Added(kinds, w, c, index, x))
    ensures index < c.maxSize ==> SameShape(Attach(w, c, x, [x] + w[c].list), Added(kinds, w, c, index, x))
    ensures index >= c.maxSize ==> Added(kinds, w, c, index, x) == w
  {
    hide Push, BalancedBut, Inside, Acyclic, Linked, Joined;
    SoundBut(kinds, w, c);
    JoinsFront(kinds, w, c, x);
    JoinSound(kinds, w, c, x, [x] + w[c].list, 0);
  }

  lemma AddBackSound(kinds: Kinds, w: World, c: Item, x: Item)
    requires CanJoin(kinds, w, c, x)
    ensures Sound(kinds, AddedBack(kinds, w, c, x))
    ensures SameShape(Attach(w, c, x, w[c].list + [x]), AddedBack(kinds, w, c, x))
  {
    hide Push, BalancedBut, Inside, Acyclic, Linked, Joined;
    SoundBut(kinds, w, c);
    JoinsBack(kinds, w, c, x);
    JoinSound(kinds, w, c, x, w[c].list + [x], 0);
  }

  lemma ChangeSound(kinds: Kinds, w: World, c: Item, x: Item, cell: Cell)
    requires Sound(kinds, w) && c in w && x in w[c].list
    requires cell.parent == w[x].parent && cell.list == w[x].list && cell.total == w[x].total
    ensures x in w && Sound(kinds, Changed(kinds, w, c, x, cell))
    ensures SameShape(w[x := cell], Changed(kinds, w, c, x, cell))
  {
    hide Push, Acyclic, AllBalanced, BalancedBut, NoRepeats, OwnWeight;
    var v := w[x := cell];
    ChangeLinked(w, c, x, cell);
    CutAcyclic(w, v);
    ChangeBalance(kinds, w, c, x, cell);
    PushSound(kinds, v, c, OwnWeight(kinds, cell) - OwnWeight(kinds, w[x]));
  }

  lemma ChangeLinked(w: World, c: Item, x: Item, cell: Cell)
    requires Linked(w) && c in w && x in w[c].list
    requires cell.parent == w[x].parent && cell.list == w[x].list
    ensures Linked(w[x := cell])
  {
    hide NoRepeats;
  }

  lemma ChangeBalance(kinds: Kinds, w: World, c: Item, x: Item, cell: Cell)
    requires Linked(w) && AllBalanced(kinds, w) && c in w && x in w[c].list && Linked(w[x := cell])
    requires cell.parent == w[x].parent && cell.list == w[x].list && cell.total == w[x].total
    ensures BalancedBut(kinds, w[x := cell], c, OwnWeight(kinds, cell) - OwnWeight(kinds, w[x]))
  {
    hide OwnWeight;
    var v := w[x := cell];
    forall k <- v
      ensures v[k].total + (if k == c then OwnWeight(kinds, cell) - OwnWeight(kinds, w[x]) else 0) == Sum(kinds, v, v[k].list)
    {
      assert Balanced(kinds, w, k);
      if k == c {
        SumWith(kinds, w, v, x, w[k].list);
      } else {
        assert x !in w[k].list;
        SumWithout(kinds, w, v, w[k].list);
      }
    }
  }

  lemma CutOut(xs: seq<Item>, i: nat)
    requires NoRepeats(xs) && i < |xs|
    ensures NoRepeats(xs[..i] + xs[i + 1..])
    ensures forall k :: k in xs[..i] + xs[i + 1..] <==> k in xs && k != xs[i]
  {
    var ys := xs[..i] + xs[i + 1..];
    assert forall k <- xs | k != xs[i] :: k in ys by {
      assert xs == xs[..i] + [xs[i]] + xs[i + 1..];
    }
  }

  lemma DetachLinked(w: World, c: Item, i: nat)
    requires Linked(w) && c in w && i < |w[c].list| && w[c].list[i] != c
    ensures Linked(Detach(w, c, i))
  {
    hide NoRepeats;
    CutOut(w[c].list, i);
  }

  lemma DetachBalance(kinds: Kinds, w: World, c: Item, i: nat)
    requires Linked(w) && AllBalanced(kinds, w) && c in w && i < |w[c].list| && w[c].list[i] != c
    requires Linked(Detach(w, c, i))
    ensures BalancedBut(kinds, Detach(w, c, i), c, -Weight(kinds, w, w[c].list[i]))
  {
    var x, v := w[c].list[i], Detach(w, c, i);
    forall k <- v
      ensures v[k].total + (if k == c then -Weight(kinds, w, x) else 0) == Sum(kinds, v, v[k].list)
    {
      assert Balanced(kinds, w, k);
      if k == c {
        SumAround(kinds, w, w[c].list, i);
        SumWithout(kinds, w, v, v[c].list);
      } else {
        SumWithout(kinds, w, v, w[k].list);
      }
    }
  }

  lemma SumAround(kinds: Kinds, w: World, xs: seq<Item>, i: nat)
    requires i < |xs| && forall k <- xs :: k in w
    ensures Sum(kinds, w, xs) == Sum(kinds, w, xs[..i] + xs[i + 1..]) + Weight(kinds, w, xs[i])
  {
    assert xs == xs[..i] + ([xs[i]] + xs[i + 1..]);
    SumConcat(kinds, w, xs[..i], [xs[i]] + xs[i + 1..]);
    SumConcat(kinds, w, [xs[i]], xs[i + 1..]);
    SumConcat(kinds, w, xs[..i], xs[i + 1..]);
  }

  lemma DetachParents(w: World, c: Item, i: nat)
    requires Linked(w) && c in w && i < |w[c].list|
    ensures var v := Detach(w, c, i);
      v.Keys == w.Keys && forall z <- w :: v[z].parent == w[z].parent || v[z].parent == null
  {}

  lemma DetachSound(kinds: Kinds, w: World, c: Item, i: nat)
    requires Sound(kinds, w) && c in w && i < |w[c].list|
    ensures w[c].list[i] != c
    ensures var v := Push(Detach(w, c, i), c, -Weight(kinds, w, w[c].list[i]));
      Sound(kinds, v) && SameShape(Detach(w, c, i), v)
  {
    hide Push, Acyclic, AllBalanced, BalancedBut, NoRepeats, Weight, Detach, SameShape;
    NotOwnParent(w, c, Height(w));
    DetachLinked(w, c, i);
    DetachBalance(kinds, w, c, i);
    DetachParents(w, c, i);
    CutAcyclic(w, Detach(w, c, i));
    PushSound(kinds, Detach(w, c, i), c, -Weight(kinds, w, w[c].list[i]));
  }

  lemma UpdateSound(kinds: Kinds, w: World, c: Item, x: Item, id: nat, count: nat)
    requires Sound(kinds, w) && c in w && x in w
    ensures Sound(kinds, Updated(kinds, w, c, x, id, count))
    ensures x in w[c].list ==>
      SameShape(w[x := SubTyped(kinds, w[x].(id := id), count)], Updated(kinds, w, c, x, id, count))
  {
    hide Sound, Push, SameShape;
    if x in w[c].list {
      ChangeSound(kinds, w, c, x, SubTyped(kinds, w[x].(id := id), count));
    }
  }

  lemma RemoveSound(kinds: Kinds, w: World, c: Item, x: Item, count: nat)
    requires Sound(kinds, w) && c in w && x in w
    ensures Sound(kinds, Removed(kinds, w, c, x, count))
    ensures x in w[c].list ==>
      SameShape(if kinds(w[x].id).stackable && count != w[x].count then w[x := Fewer(w[x], count)]
                else Detach(w, c, Index(w[c].list, x)), Removed(kinds, w, c, x, count))
  {
    hide Sound, Push, SameShape, Detach;
    if x in w[c].list {
      if kinds(w[x].id).stackable && count != w[x].count {
        ChangeSound(kinds, w, c, x, Fewer(w[x], count));
      } else {
        DetachSound(kinds, w, c, Index(w[c].list, x));
      }
    }
  }

  // Nothing gets inside anything by cutting links.
  lemma {:induction false} CutAround(w: World, v: World, a: Item, x: Item, n: nat)
    requires v.Keys <= w.Keys && forall z <- v :: v[z].parent == w[z].parent || v[z].parent == null
    requires AroundIn(v, a, x, n)
    ensures AroundIn(w, a, x, n)
  {
    if v[x].parent != a {
      CutAround(w, v, a, v[x].parent, n - 1);
    }
  }

  lemma CutInside(w: World, v: World, a: Item, x: Item)
    requires v.Keys <= w.Keys && forall z <- v :: v[z].parent == w[z].parent || v[z].parent == null
    requires Inside(v, a, x)
    ensures Inside(w, a, x)
  {
    var n: nat :| AroundIn(v, a, x, n);
    CutAround(w, v, a, x, n);
  }

  // `x` in front of what lies at `i`.
  function InsertAt(xs: seq<Item>, i: nat, x: Item): seq<Item>
    requires i <= |xs|
  {
    xs[..i] + ([x] + xs[i..])
  }

  lemma InsertHolds(xs: seq<Item>, i: nat, x: Item)
    requires NoRepeats(xs) && x !in xs && i <= |xs|
    ensures NoRepeats(InsertAt(xs, i, x)) && x in InsertAt(xs, i, x)
    ensures forall k <- InsertAt(xs, i, x) :: k == x || k in xs
    ensures forall k <- xs :: k in InsertAt(xs, i, x)
  {
    hide InsertAt;
    InsertPlaces(xs, i, x);
  }

  lemma InsertPlaces(xs: seq<Item>, i: nat, x: Item)
    requires i <= |xs|
    ensures var ys := InsertAt(xs, i, x);
      && |ys| == |xs| + 1 && ys[i] == x
      && (forall j :: 0 <= j < i ==> ys[j] == xs[j]) && (forall j :: i < j < |ys| ==> ys[j] == xs[j - 1])
      && (forall j :: 0 <= j < |xs| ==> xs[j] == ys[if j < i then j else j + 1])
  {}

  lemma InsertSum(kinds: Kinds, w: World, xs: seq<Item>, i: nat, x: Item)
    requires i <= |xs| && x in w && forall k <- xs :: k in w
    requires forall k <- InsertAt(xs, i, x) :: k in w
    ensures Sum(kinds, w, InsertAt(xs, i, x)) == Sum(kinds, w, xs) + Weight(kinds, w, x)
  {
    assert xs == xs[..i] + xs[i..];
    SumConcat(kinds, w, xs[..i], [x] + xs[i..]);
    SumConcat(kinds, w, [x], xs[i..]);
    SumConcat(kinds, w, xs[..i], xs[i..]);
  }

  lemma JoinsAt(kinds: Kinds, w: World, c: Item, i: nat, x: Item)
    requires Linked(w) && c in w && x in w && w[x].parent == null && i <= |w[c].list|
    ensures Joined(kinds, w, c, x, InsertAt(w[c].list, i, x))
  {
    hide Sum, NoRepeats, InsertAt, Weight;
    InsertHolds(w[c].list, i, x);
    InsertSum(kinds, w, w[c].list, i, x);
  }

  lemma Member(w: World, c: Item, i: nat, x: Item)
    requires Linked(w) && c in w && i < |w[c].list| && x in w && w[x].parent == null
    ensures w[c].list[i] in w && w[w[c].list[i]].parent == c && w[c].list[i] != x
  {}

  lemma ReplaceSound(kinds: Kinds, w: World, c: Item, index: nat, x: Item)
    requires CanJoin(kinds, w, c, x)
    ensures Sound(kinds, Replaced(kinds, w, c, index, x))
    ensures index < |w[c].list| ==>
      SameShape(Attach(Detach(w, c, index), c, x, w[c].list[index := x]), Replaced(kinds, w, c, index, x))
  {
    hide Push, BalancedBut, Acyclic, Joined, Inside, AllBalanced, Linked, SameShape;
    if index < |w[c].list| {
      NotOwnParent(w, c, Height(w));
      Member(w, c, index, x);
      var v := Detach(w, c, index);
      DetachLinked(w, c, index);
      DetachBalance(kinds, w, c, index);
      CutAcyclic(w, v);
      if Inside(v, x, c) { CutInside(w, v, x, c); }
      assert w[c].list[index := x] == InsertAt(v[c].list, index, x);
      JoinsAt(kinds, v, c, index, x);
      JoinSound(kinds, v, c, x, w[c].list[index := x], -Weight(kinds, w, w[c].list[index]));
    }
  }

  // ---------- between the two halves of an operation ----------

  // The world in which the weights are not yet counted is fit for updateItemWeight.
  ghost predicate Countable(w: World, c: Item) {
    Linked(w) && c in w && Grounded(w, c, Height(w))
  }

  lemma CanAttach(kinds: Kinds, w: World, c: Item, x: Item, list: seq<Item>)
    requires CanJoin(kinds, w, c, x) && Joined(kinds, w, c, x, list)
    ensures Countable(Attach(w, c, x, list), c)
  {
    AttachLinked(kinds, w, c, x, list);
    JoinAcyclic(w, Attach(w, c, x, list), c, x);
  }

  lemma CanChange(kinds: Kinds, w: World, c: Item, x: Item, cell: Cell)
    requires Sound(kinds, w) && c in w && x in w[c].list && cell.parent == w[x].parent && cell.list == w[x].list
    ensures Countable(w[x := cell], c)
  {
    ChangeLinked(w, c, x, cell);
    CutAcyclic(w, w[x := cell]);
  }

  lemma CanDetach(kinds: Kinds, w: World, c: Item, i: nat)
    requires Sound(kinds, w) && c in w && i < |w[c].list|
    ensures w[c].list[i] in w && w[c].list[i] != c && Countable(Detach(w, c, i), c)
  {
    NotOwnParent(w, c, Height(w));
    DetachLinked(w, c, i);
    CutAcyclic(w, Detach(w, c, i));
  }

  lemma CanReplace(kinds: Kinds, w: World, c: Item, i: nat, x: Item)
    requires CanJoin(kinds, w, c, x) && i < |w[c].list|
    ensures w[c].list[i] in w && w[c].list[i] != c && w[c].list[i] != x
    ensures Countable(Attach(Detach(w, c, i), c, x, w[c].list[i := x]), c)
  {
    hide NoRepeats, Inside, Joined, AllBalanced, Linked, Acyclic, Attach, Detach;
    CanDetach(kinds, w, c, i);
    DetachLinked(w, c, i);
    var v := Detach(w, c, i);
    DetachedFacts(w, c, i, x);
    CutAcyclic(w, v);
    if Inside(v, x, c) { CutInside(w, v, x, c); }
    JoinsAt(kinds, v, c, i, x);
    AttachLinked(kinds, v, c, x, w[c].list[i := x]);
    AttachedFacts(v, c, x, w[c].list[i := x]);
    JoinAcyclic(v, Attach(v, c, x, w[c].list[i := x]), c, x);
  }

  lemma DetachedFacts(w: World, c: Item, i: nat, x: Item)
    requires Linked(w) && c in w && i < |w[c].list| && x in w && w[x].parent == null
    requires w[c].list[i] in w && w[c].list[i] != c
    ensures w[c].list[i] != x
    ensures var v := Detach(w, c, i);
      && v.Keys == w.Keys && v[x].parent == null
      && (forall z <- w :: v[z].parent == w[z].parent || v[z].parent == null)
      && i <= |v[c].list| && InsertAt(v[c].list, i, x) == w[c].list[i := x]
  {
    hide NoRepeats;
  }

  lemma AttachedFacts(v: World, c: Item, x: Item, list: seq<Item>)
    requires c in v && x in v && c != x
    ensures var u := Attach(v, c, x, list);
      u.Keys == v.Keys && u[x].parent == c && forall z <- v :: z != x ==> u[z].parent == v[z].parent
  {}
}
