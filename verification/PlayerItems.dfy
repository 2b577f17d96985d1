/** IOLoginData: a player's items as database rows, and back.

    saveItems numbers all items breadth first, from 101 on, and writes for each the number of its container.
    loadPlayer goes through the rows from the highest number down and puts each item in front of what its
    container already holds. `LoadUndoesSave` says that this rebuilds every slot: nesting, order, attributes and
    cached weights. It rests on all slot numbers being ones the loader knows, which are below 100, and `SlotsKnown`
    says that it does so exactly. */
module PlayerItems {
  import opened Bytes
  import opened Common
  import opened ItemCodec
  import opened ItemTree
  import opened MapSerialize

  datatype Row = Row(pid: int, sid: int, id: nat, subType: nat, attributes: Bytes)

  // A slot (inventory slot, depot id, or 0 for the inbox) with an item in it.
  datatype Block = Block(pid: int, item: Tree)

  // The numbers that a loader takes for slots: those of the inventory, or of depots and the inbox
  datatype Slots = Slots(first: int, last: int)

  const INVENTORY := Slots(1, 10)
  const DEPOTS := Slots(0, 99)

  predicate IsSlot(slots: Slots, pid: int) {
    slots.first <= pid <= slots.last
  }

  // All slot numbers are below the numbers of items.
  predicate Below100(slots: Slots) {
    0 <= slots.first && slots.last < 100
  }

  // A container in the queue: its number and what is in it.
  datatype Entry = Entry(sid: int, kids: seq<Tree>)

  function RowOf(types: Types, pid: int, sid: int, x: Tree): Row {
    Row(pid, sid, x.props.id, GetSubType(types, x.props), AttributesBytes(Attributes(types, x.props)))
  }

  predicate IsContainer(types: Types, x: Tree) {
    types(x.props.id).container
  }

  // ---------- saving ----------

  // Containers still to be written, and everything in them.
  function Pending(queue: seq<Entry>): nat {
    if queue == [] then 0 else 1 + Nodes(queue[0].kids) + Pending(queue[1..])
  }

  // The rows of one container's contents; `running` is the last number used.
  function KidRows(types: Types, pid: int, running: int, xs: seq<Tree>): (rows: seq<Row>)
    ensures |rows| == |xs|
    decreases |xs|
  {
    if xs == [] then [] else [RowOf(types, pid, running + 1, xs[0])] + KidRows(types, pid, running + 1, xs[1..])
  }

  // The containers among them.
  function KidEntries(types: Types, running: int, xs: seq<Tree>): (queue: seq<Entry>)
    ensures Pending(queue) <= Nodes(xs)
    decreases |xs|
  {
    if xs == [] then []
    else if IsContainer(types, xs[0]) then
      var rest := KidEntries(types, running + 1, xs[1..]);
      assert ([Entry(running + 1, xs[0].kids)] + rest)[1..] == rest;
      [Entry(running + 1, xs[0].kids)] + rest
    else KidEntries(types, running + 1, xs[1..])
  }

  lemma {:induction false} PendingAppend(a: seq<Entry>, b: seq<Entry>)
    ensures Pending(a + b) == Pending(a) + Pending(b)
  {
    if a == [] {
      assert a + b == b;
    } else {
      assert (a + b)[1..] == a[1..] + b;
      PendingAppend(a[1..], b);
    }
  }

  // The loop over the queue.
  function QueueRows(types: Types, queue: seq<Entry>, running: int): seq<Row>
    decreases Pending(queue)
  {
    if queue == [] then []
    else
      PendingAppend(queue[1..], KidEntries(types, running, queue[0].kids));
      KidRows(types, queue[0].sid, running, queue[0].kids)
      + QueueRows(types, queue[1..] + KidEntries(types, running, queue[0].kids), running + |queue[0].kids|)
  }

  function TopRows(types: Types, blocks: seq<Block>, running: int): (rows: seq<Row>)
    ensures |rows| == |blocks|
  {
    if blocks == [] then []
    else [RowOf(types, blocks[0].pid, running + 1, blocks[0].item)] + TopRows(types, blocks[1..], running + 1)
  }

  function TopItems(blocks: seq<Block>): (xs: seq<Tree>)
    ensures |xs| == |blocks|
    ensures forall i :: 0 <= i < |xs| ==> xs[i] == blocks[i].item
  {
    if blocks == [] then [] else [blocks[0].item] + TopItems(blocks[1..])
  }

  // IOLoginData::saveItems
  function SaveRows(types: Types, blocks: seq<Block>): seq<Row> {
    TopRows(types, blocks, 100) + QueueRows(types, KidEntries(types, 100, TopItems(blocks)), 100 + |blocks|)
  }

  // ---------- loading ----------

  // What has been gathered, front first, for each container or slot.
  type Gathered = map<int, seq<Tree>>

  function At(m: Gathered, pid: int): seq<Tree> {
    if pid in m then m[pid] else []
  }

  // The item of a row, its contents having been gathered. Nothing is put into an item that is no container.
  function RowItem(types: Types, m: Gathered, r: Row): Tree {
    var kids := if types(r.id).container then At(m, r.sid) else [];
    Tree(UnserializeAsFar(types, CreateItem(types, r.id, r.subType), r.attributes, 0), kids, WeightSum(types, kids))
  }

  // One row, put in front of what its container holds. An id that makes no item gives none.
  function GatherRow(types: Types, m: Gathered, r: Row): Gathered {
    if types(r.id).plain then m[r.pid := [RowItem(types, m, r)] + At(m, r.pid)] else m
  }

  // The rows from last to first.
  function Gather(types: Types, rows: seq<Row>, m: Gathered): Gathered {
    if rows == [] then m else GatherRow(types, Gather(types, rows[1..], m), rows[0])
  }

  // What loadPlayer finds for a slot.
  function Loaded(types: Types, slots: Slots, rows: seq<Row>, pid: int): seq<Tree> {
    if IsSlot(slots, pid) then At(Gather(types, rows, map[]), pid) else []
  }

  // What was saved for a slot.
  function ItemsAt(blocks: seq<Block>, pid: int): seq<Tree> {
    if blocks == [] then []
    else (if blocks[0].pid == pid then [blocks[0].item] else []) + ItemsAt(blocks[1..], pid)
  }

  lemma {:induction false} GatherAppend(types: Types, a: seq<Row>, b: seq<Row>, m: Gathered)
    ensures Gather(types, a + b, m) == Gather(types, a, Gather(types, b, m))
    decreases |a|
  {
    if a == [] {
      assert a + b == b;
    } else {
      assert (a + b)[1..] == a[1..] + b;
      GatherAppend(types, a[1..], b, m);
    }
  }

  // ---------- loading undoes saving ----------

  // A row of a saved item, when the item's contents have been gathered, restores the item.
  lemma RowItemRestored(types: Types, m: Gathered, pid: int, sid: int, x: Tree)
    requires Storable(types, x)
    requires IsContainer(types, x) ==> At(m, sid) == RestoredItems(types, x.kids)
    ensures GatherRow(types, m, RowOf(types, pid, sid, x)) == m[pid := [RestoredItem(types, x)] + At(m, pid)]
  {
    hide CreateItem, GetSubType, Attributes, AttributesBytes, UnserializeAsFar, Restored;
    RowRestored(types, x.props);
  }

  // The contents of all containers in the queue have been gathered under their numbers, and nothing else has
  // under numbers up to `running`.
  predicate Complete(types: Types, queue: seq<Entry>, running: int, m: Gathered) {
    && (forall e <- queue :: At(m, e.sid) == RestoredItems(types, e.kids))
    && (forall p: int :: p <= running && p in m ==> exists e <- queue :: e.sid == p)
  }

  predicate Numbered(queue: seq<Entry>, running: int) {
    && (forall e <- queue :: e.sid <= running)
    && (forall i, j :: 0 <= i < j < |queue| ==> queue[i].sid != queue[j].sid)
  }

  predicate AllStorable(types: Types, queue: seq<Entry>) {
    forall e <- queue :: forall k <- e.kids :: Storable(types, k)
  }

  lemma {:induction false} KidEntriesNumbered(types: Types, running: int, xs: seq<Tree>)
    ensures var q := KidEntries(types, running, xs);
      && Numbered(q, running + |xs|)
      && (forall e <- q :: running < e.sid && exists k <- xs :: e.kids == k.kids)
      && (forall i :: 0 <= i < |xs| && IsContainer(types, xs[i]) ==> Entry(running + 1 + i, xs[i].kids) in q)
    decreases |xs|
  {
    hide KidEntries, IsContainer, Numbered;
    if xs == [] {
      NoEntries(types, running);
    } else {
      KidEntriesNumbered(types, running + 1, xs[1..]);
      EntriesFirst(types, running, xs);
      EntriesGrow(types, running, xs, KidEntries(types, running + 1, xs[1..]));
    }
  }

  lemma NoEntries(types: Types, running: int)
    ensures KidEntries(types, running, []) == [] && Numbered([], running)
  {}

  lemma EntriesFirst(types: Types, running: int, xs: seq<Tree>)
    requires xs != []
    ensures KidEntries(types, running, xs)
      == (if IsContainer(types, xs[0]) then [Entry(running + 1, xs[0].kids)] else []) + KidEntries(types, running + 1, xs[1..])
  {
    hide IsContainer;
  }

  // A number that is lower than all others comes first.
  lemma NumberedOn(running: int, n: nat, kids: seq<Tree>, rest: seq<Entry>)
    requires n > 0 && Numbered(rest, running + n) && forall e <- rest :: running + 1 < e.sid
    ensures Numbered([Entry(running + 1, kids)] + rest, running + n) && [] + rest == rest
  {}

  lemma EntriesGrow(types: Types, running: int, xs: seq<Tree>, rest: seq<Entry>)
    requires xs != [] && Numbered(rest, running + |xs|)
    requires forall e <- rest :: running + 1 < e.sid && exists k <- xs[1..] :: e.kids == k.kids
    requires forall i :: 0 <= i < |xs| - 1 && IsContainer(types, xs[1..][i]) ==> Entry(running + 2 + i, xs[1..][i].kids) in rest
    ensures var q := (if IsContainer(types, xs[0]) then [Entry(running + 1, xs[0].kids)] else []) + rest;
      && Numbered(q, running + |xs|)
      && (forall e <- q :: running < e.sid && exists k <- xs :: e.kids == k.kids)
      && (forall i :: 0 <= i < |xs| && IsContainer(types, xs[i]) ==> Entry(running + 1 + i, xs[i].kids) in q)
  {
    hide IsContainer, Numbered;
    NumberedOn(running, |xs|, xs[0].kids, rest);
    var q := (if IsContainer(types, xs[0]) then [Entry(running + 1, xs[0].kids)] else []) + rest;
    forall e <- q ensures running < e.sid && exists k <- xs :: e.kids == k.kids {
      if e in rest {
        var k :| k in xs[1..] && e.kids == k.kids;
        assert k in xs;
      } else {
        assert xs[0] in xs;
      }
    }
    forall i | 0 < i < |xs| && IsContainer(types, xs[i]) ensures Entry(running + 1 + i, xs[i].kids) in rest {
      assert xs[i] == xs[1..][i - 1];
    }
  }

  // The contents of the containers among `xs`, numbered from `running + 1`, have been gathered.
  predicate KidsReady(types: Types, m: Gathered, running: int, xs: seq<Tree>) {
    forall i :: 0 <= i < |xs| && IsContainer(types, xs[i]) ==> At(m, running + 1 + i) == RestoredItems(types, xs[i].kids)
  }

  lemma FirstReady(types: Types, m: Gathered, running: int, xs: seq<Tree>)
    requires xs != [] && KidsReady(types, m, running, xs)
    ensures IsContainer(types, xs[0]) ==> At(m, running + 1) == RestoredItems(types, xs[0].kids)
    ensures KidsReady(types, m, running + 1, xs[1..])
  {
    hide At, RestoredItems, IsContainer;
    forall i | 0 <= i < |xs[1..]| && IsContainer(types, xs[1..][i])
      ensures At(m, running + 1 + 1 + i) == RestoredItems(types, xs[1..][i].kids)
    {
      assert xs[1..][i] == xs[i + 1];
    }
  }

  // The contents of one container, put in front of what it holds.
  lemma {:induction false} KidsGathered(types: Types, pid: int, running: int, xs: seq<Tree>, m: Gathered)
    requires pid <= running && (forall k <- xs :: Storable(types, k)) && KidsReady(types, m, running, xs)
    ensures Gather(types, KidRows(types, pid, running, xs), m)
      == if xs == [] then m else m[pid := RestoredItems(types, xs) + At(m, pid)]
    decreases |xs|
  {
    hide RestoredItem, RestoredItems, RowOf, GatherRow, Storable, KidsReady, IsContainer, KidRows, At;
    if xs == [] {
      assert KidRows(types, pid, running, xs) == [];
    } else {
      FirstReady(types, m, running, xs);
      KidsGathered(types, pid, running + 1, xs[1..], m);
      KidFirst(types, pid, running, xs, m);
    }
  }

  // One row of a container's contents.
  lemma KidFirst(types: Types, pid: int, running: int, xs: seq<Tree>, m: Gathered)
    requires xs != [] && pid <= running && Storable(types, xs[0])
    requires IsContainer(types, xs[0]) ==> At(m, running + 1) == RestoredItems(types, xs[0].kids)
    requires Gather(types, KidRows(types, pid, running + 1, xs[1..]), m)
      == if xs[1..] == [] then m else m[pid := RestoredItems(types, xs[1..]) + At(m, pid)]
    ensures Gather(types, KidRows(types, pid, running, xs), m) == m[pid := RestoredItems(types, xs) + At(m, pid)]
  {
    hide RestoredItem, RestoredItems, RowOf, GatherRow, Storable, IsContainer, Gather, KidRows;
    var rest, tail := Gather(types, KidRows(types, pid, running + 1, xs[1..]), m), RestoredItems(types, xs[1..]);
    RestoredNone(types);
    assert At(rest, running + 1) == At(m, running + 1);
    assert [] + At(m, pid) == At(m, pid);
    assert At(rest, pid) == tail + At(m, pid);
    RowItemRestored(types, rest, pid, running + 1, xs[0]);
    KidRowsFirst(types, pid, running, xs, m);
    assert RestoredItems(types, xs) == [RestoredItem(types, xs[0])] + tail by {
      RestoredFirst(types, xs);
    }
    assert [RestoredItem(types, xs[0])] + (tail + At(m, pid)) == [RestoredItem(types, xs[0])] + tail + At(m, pid);
  }

  lemma RestoredFirst(types: Types, xs: seq<Tree>)
    requires xs != []
    ensures RestoredItems(types, xs) == [RestoredItem(types, xs[0])] + RestoredItems(types, xs[1..])
  {
    hide RestoredItem;
  }

  lemma KidRowsFirst(types: Types, pid: int, running: int, xs: seq<Tree>, m: Gathered)
    requires xs != []
    ensures Gather(types, KidRows(types, pid, running, xs), m)
      == GatherRow(types, Gather(types, KidRows(types, pid, running + 1, xs[1..]), m), RowOf(types, pid, running + 1, xs[0]))
  {
    hide GatherRow, RowOf;
    assert KidRows(types, pid, running, xs)[1..] == KidRows(types, pid, running + 1, xs[1..]);
  }

  // The rows of a queue gather the contents of all its containers.
  lemma {:induction false} QueueGathered(types: Types, queue: seq<Entry>, running: int)
    requires Numbered(queue, running) && AllStorable(types, queue)
    ensures Complete(types, queue, running, Gather(types, QueueRows(types, queue, running), map[]))
    decreases Pending(queue)
  {
    hide GatherRow, KidRows, KidEntries, RestoredItems, Storable, Nodes, IsContainer, Numbered, AllStorable, Complete,
      KidsReady;
    if queue == [] {
      NothingComplete(types, running);
    } else {
      var first, xs := queue[0], queue[0].kids;
      var more := KidEntries(types, running, xs);
      var next := queue[1..] + more;
      PendingAppend(queue[1..], more);
      KidEntriesNumbered(types, running, xs);
      NextStorable(types, queue, running);
      QueueGathered(types, next, running + |xs|);
      var rows, rest := KidRows(types, first.sid, running, xs), QueueRows(types, next, running + |xs|);
      var m := Gather(types, rest, map[]);
      GatherAppend(types, rows, rest, map[]);
      assert Gather(types, QueueRows(types, queue, running), map[]) == Gather(types, rows, m);
      ContentsComplete(types, queue[1..], more, running, xs, running + |xs|, m);
      KidsGathered(types, first.sid, running, xs, m);
      FirstComplete(types, queue, running, more, m);
    }
  }

  lemma NothingComplete(types: Types, running: int)
    ensures Complete(types, [], running, map[])
  {}

  lemma ContentsComplete(types: Types, queue: seq<Entry>, more: seq<Entry>, running: int, xs: seq<Tree>, last: int, m: Gathered)
    requires Complete(types, queue + more, last, m)
    requires forall i :: 0 <= i < |xs| && IsContainer(types, xs[i]) ==> Entry(running + 1 + i, xs[i].kids) in more
    ensures KidsReady(types, m, running, xs)
  {
    hide At, RestoredItems, IsContainer;
    forall i | 0 <= i < |xs| && IsContainer(types, xs[i])
      ensures At(m, running + 1 + i) == RestoredItems(types, xs[i].kids)
    {
      var e := Entry(running + 1 + i, xs[i].kids);
      assert e in queue + more;
      assert At(m, e.sid) == RestoredItems(types, e.kids);
    }
  }

  lemma NextStorable(types: Types, queue: seq<Entry>, running: int)
    requires queue != [] && Numbered(queue, running) && AllStorable(types, queue)
    ensures queue[0].sid <= running && forall k <- queue[0].kids :: Storable(types, k)
    ensures var next := queue[1..] + KidEntries(types, running, queue[0].kids);
      Numbered(next, running + |queue[0].kids|) && AllStorable(types, next)
  {
    assert queue[0] in queue;
    EntriesStorable(types, running, queue[0].kids);
  }

  lemma EntriesStorable(types: Types, running: int, xs: seq<Tree>)
    requires forall k <- xs :: Storable(types, k)
    ensures var q := KidEntries(types, running, xs);
      && Numbered(q, running + |xs|) && AllStorable(types, q) && forall e <- q :: running < e.sid
  {
    hide KidEntries;
    KidEntriesNumbered(types, running, xs);
  }

  lemma FirstComplete(types: Types, queue: seq<Entry>, running: int, more: seq<Entry>, m: Gathered)
    requires queue != [] && Numbered(queue, running) && forall e <- more :: running < e.sid
    requires Complete(types, queue[1..] + more, running + |queue[0].kids|, m)
    ensures var xs := queue[0].kids;
      Complete(types, queue, running,
               if xs == [] then m else m[queue[0].sid := RestoredItems(types, xs) + At(m, queue[0].sid)])
  {
    var first, xs := queue[0], queue[0].kids;
    assert forall e <- queue[1..] + more :: e.sid != first.sid;
    assert first.sid !in m;
    assert RestoredItems(types, xs) + [] == RestoredItems(types, xs);
  }

  predicate BlocksStorable(types: Types, blocks: seq<Block>) {
    forall b <- blocks :: Storable(types, b.item)
  }

  // The top rows, in front of the gathered contents.
  lemma {:induction false} TopGathered(types: Types, blocks: seq<Block>, running: int, m: Gathered, p: int)
    requires BlocksStorable(types, blocks) && KidsReady(types, m, running, TopItems(blocks))
    requires forall b <- blocks :: b.pid <= running
    ensures At(Gather(types, TopRows(types, blocks, running), m), p)
      == RestoredItems(types, ItemsAt(blocks, p)) + At(m, p)
    decreases |blocks|
  {
    hide RestoredItem, RowOf, GatherRow, Storable, IsContainer, KidsReady, RestoredItems, At;
    RestoredNone(types);
    if blocks == [] {
      assert [] + At(m, p) == At(m, p);
    } else {
      var b, tail := blocks[0], blocks[1..];
      FirstReady(types, m, running, TopItems(blocks));
      assert TopItems(blocks)[1..] == TopItems(tail);
      var rest := Gather(types, TopRows(types, tail, running + 1), m);
      TopGathered(types, tail, running + 1, m, p);
      TopGathered(types, tail, running + 1, m, running + 1);
      NoItemsAt(tail, running + 1);
      assert [] + At(m, running + 1) == At(m, running + 1);
      TopFirst(types, blocks, running, m, rest, p);
    }
  }

  lemma {:induction false} NoItemsAt(blocks: seq<Block>, p: int)
    requires forall b <- blocks :: b.pid != p
    ensures ItemsAt(blocks, p) == []
    decreases |blocks|
  {
    if blocks != [] {
      NoItemsAt(blocks[1..], p);
    }
  }

  // One top row.
  lemma TopFirst(types: Types, blocks: seq<Block>, running: int, m: Gathered, rest: Gathered, p: int)
    requires blocks != [] && BlocksStorable(types, blocks)
    requires IsContainer(types, blocks[0].item) ==> At(rest, running + 1) == RestoredItems(types, blocks[0].item.kids)
    requires rest == Gather(types, TopRows(types, blocks[1..], running + 1), m)
    requires At(rest, p) == RestoredItems(types, ItemsAt(blocks[1..], p)) + At(m, p)
    ensures At(Gather(types, TopRows(types, blocks, running), m), p)
      == RestoredItems(types, ItemsAt(blocks, p)) + At(m, p)
  {
    hide RestoredItem, RestoredItems, RowOf, GatherRow, Storable, IsContainer, TopRows, Gather;
    var b, others := blocks[0], ItemsAt(blocks[1..], p);
    RowItemRestored(types, rest, b.pid, running + 1, b.item);
    TopRowsFirst(types, blocks, running, m);
    if p == b.pid {
      RestoredAppend(types, [b.item], others);
      RestoredOne(types, b.item);
      assert [RestoredItem(types, b.item)] + (RestoredItems(types, others) + At(m, p))
        == [RestoredItem(types, b.item)] + RestoredItems(types, others) + At(m, p);
    } else {
      assert [] + others == others;
    }
  }

  lemma TopRowsFirst(types: Types, blocks: seq<Block>, running: int, m: Gathered)
    requires blocks != []
    ensures Gather(types, TopRows(types, blocks, running), m)
      == GatherRow(types, Gather(types, TopRows(types, blocks[1..], running + 1), m),
                   RowOf(types, blocks[0].pid, running + 1, blocks[0].item))
  {
    hide GatherRow, RowOf;
    assert TopRows(types, blocks, running)[1..] == TopRows(types, blocks[1..], running + 1);
  }

  // What a slot held comes back restored, whatever else is saved under numbers up to 100; other numbers hold nothing.
  lemma LoadUndoesSave(types: Types, slots: Slots, blocks: seq<Block>, pid: int)
    requires BlocksStorable(types, blocks) && Below100(slots)
    requires forall b <- blocks :: b.pid <= 100
    ensures Loaded(types, slots, SaveRows(types, blocks), pid)
      == if IsSlot(slots, pid) then RestoredItems(types, ItemsAt(blocks, pid)) else []
  {
    hide KidEntries, QueueRows, TopRows, Storable, IsContainer, RestoredItems, Gather, Complete, At, Numbered, KidsReady;
    var xs, top := TopItems(blocks), TopRows(types, blocks, 100);
    var rest := QueueRows(types, KidEntries(types, 100, xs), 100 + |xs|);
    var m := Gather(types, rest, map[]);
    QueueOfBlocks(types, blocks, pid);
    TopGathered(types, blocks, 100, m, pid);
    GatherAppend(types, top, rest, map[]);
    assert RestoredItems(types, ItemsAt(blocks, pid)) + [] == RestoredItems(types, ItemsAt(blocks, pid));
  }

  // In the numbers of the tables: the slots 1 to 10 of the inventory, and the depots (or the inbox) 0 to 99, come back with
  // all that was in them, and nothing comes back under any other number.
  lemma SlotsComeBack(types: Types, blocks: seq<Block>, pid: int)
    requires BlocksStorable(types, blocks) && forall b <- blocks :: b.pid <= 100
    ensures Loaded(types, INVENTORY, SaveRows(types, blocks), pid)
      == if 1 <= pid <= 10 then RestoredItems(types, ItemsAt(blocks, pid)) else []
    ensures Loaded(types, DEPOTS, SaveRows(types, blocks), pid)
      == if 0 <= pid < 100 then RestoredItems(types, ItemsAt(blocks, pid)) else []
  {
    hide SaveRows, Loaded, RestoredItems, ItemsAt, BlocksStorable;
    LoadUndoesSave(types, INVENTORY, blocks, pid);
    LoadUndoesSave(types, DEPOTS, blocks, pid);
  }

  // Whatever rows there are: a row of a known type is among what is loaded for its number, if that is a slot.
  lemma {:induction false} RowIsLoaded(types: Types, rows: seq<Row>, r: Row)
    requires r in rows && types(r.id).plain
    ensures (1 <= r.pid <= 10 ==> exists x <- Loaded(types, INVENTORY, rows, r.pid) :: IsOfRow(types, x, r))
    ensures (0 <= r.pid < 100 ==> exists x <- Loaded(types, DEPOTS, rows, r.pid) :: IsOfRow(types, x, r))
  {
    hide Gather, IsOfRow, At;
    RowGathered(types, rows, r);
  }

  // The row's item, without what is in it
  predicate IsOfRow(types: Types, x: Tree, r: Row) {
    x.props == UnserializeAsFar(types, CreateItem(types, r.id, r.subType), r.attributes, 0)
  }

  lemma {:induction false} RowGathered(types: Types, rows: seq<Row>, r: Row)
    requires r in rows && types(r.id).plain
    ensures exists x <- At(Gather(types, rows, map[]), r.pid) :: IsOfRow(types, x, r)
    decreases |rows|
  {
    hide CreateItem, UnserializeAsFar, WeightSum;
    var m := Gather(types, rows[1..], map[]);
    if rows[0] == r {
      assert RowItem(types, m, r) in At(GatherRow(types, m, r), r.pid);
      assert IsOfRow(types, RowItem(types, m, r), r);
    } else {
      RowGathered(types, rows[1..], r);
      var x :| x in At(m, r.pid) && IsOfRow(types, x, r);
      assert x in At(GatherRow(types, m, rows[0]), r.pid);
    }
  }

  lemma RestoredNone(types: Types)
    ensures RestoredItems(types, []) == []
  {
  }

  // The contents of the blocks' containers are gathered under their numbers, and nothing under a slot.
  lemma QueueOfBlocks(types: Types, blocks: seq<Block>, pid: int)
    requires BlocksStorable(types, blocks)
    ensures var m := Gather(types, QueueRows(types, KidEntries(types, 100, TopItems(blocks)), 100 + |blocks|), map[]);
      KidsReady(types, m, 100, TopItems(blocks)) && (pid < 100 ==> At(m, pid) == [])
  {
    hide KidEntries, QueueRows, Storable, IsContainer, RestoredItems, Gather, AllStorable, Complete, KidsReady, At,
      TopItems, BlocksStorable, Numbered;
    TopStorable(types, blocks);
    var xs := TopItems(blocks);
    var queue := KidEntries(types, 100, xs);
    var m := Gather(types, QueueRows(types, queue, 100 + |xs|), map[]);
    KidEntriesNumbered(types, 100, xs);
    EntriesStorable(types, 100, xs);
    QueueGathered(types, queue, 100 + |xs|);
    assert [] + queue == queue;
    ContentsComplete(types, [], queue, 100, xs, 100 + |xs|, m);
    if pid < 100 {
      NotGathered(types, queue, 100 + |xs|, m, pid);
    }
  }

  lemma TopStorable(types: Types, blocks: seq<Block>)
    requires BlocksStorable(types, blocks)
    ensures |TopItems(blocks)| == |blocks| && forall k <- TopItems(blocks) :: Storable(types, k)
  {
    hide Storable;
  }

  lemma NotGathered(types: Types, queue: seq<Entry>, last: int, m: Gathered, pid: int)
    requires Complete(types, queue, last, m) && pid <= last && forall e <- queue :: e.sid != pid
    ensures At(m, pid) == []
  {}

  // The slots come back exactly when the loader knows them all, the smallest number of an item being 101.
  lemma SlotsKnown(types: Types, slots: Slots, blocks: seq<Block>)
    requires BlocksStorable(types, blocks) && Below100(slots)
    ensures (forall pid: int :: Loaded(types, slots, SaveRows(types, blocks), pid) == RestoredItems(types, ItemsAt(blocks, pid)))
      <==> forall b <- blocks :: IsSlot(slots, b.pid)
  {
    hide SaveRows, Gather, RestoredItems, ItemsAt, Storable;
    if forall b <- blocks :: IsSlot(slots, b.pid) {
      forall pid: int ensures Loaded(types, slots, SaveRows(types, blocks), pid) == RestoredItems(types, ItemsAt(blocks, pid)) {
        LoadUndoesSave(types, slots, blocks, pid);
        if !IsSlot(slots, pid) {
          NoItemsAt(blocks, pid);
          RestoredNone(types);
        }
      }
    } else {
      var b :| b in blocks && !IsSlot(slots, b.pid);
      SomeItemAt(blocks, b);
      assert Loaded(types, slots, SaveRows(types, blocks), b.pid) == [];
    }
  }

  // What is saved for the depot 100 does not come back.
  lemma DepotLost()
    ensures var types: Types := _ => ItemType(true, false, false, false, true, 0, 0, 0);
      var blocks := [Block(100, Tree(Props(1, 1, map[], map[]), [], 0))];
      && BlocksStorable(types, blocks) && Loaded(types, DEPOTS, SaveRows(types, blocks), 100) == []
      && |RestoredItems(types, ItemsAt(blocks, 100))| == 1
  {
    hide SaveRows, Gather, RestoredItems;
    var types: Types := _ => ItemType(true, false, false, false, true, 0, 0, 0);
    var x := Tree(Props(1, 1, map[], map[]), [], 0);
    assert Storable(types, x);
    assert ItemsAt([Block(100, x)], 100) == [x];
  }

  lemma {:induction false} SomeItemAt(blocks: seq<Block>, b: Block)
    requires b in blocks
    ensures b.item in ItemsAt(blocks, b.pid)
    decreases |blocks|
  {
    if blocks[0] != b {
      SomeItemAt(blocks[1..], b);
    }
  }

  // ---------- the numbering ----------

  predicate Consecutive(rows: seq<Row>, running: int) {
    forall i :: 0 <= i < |rows| ==> rows[i].sid == running + 1 + i
  }

  // Every container's number is above 100 and below the numbers of what is in it.
  predicate ParentsFirst(rows: seq<Row>) {
    forall r <- rows :: r.pid < r.sid
  }

  lemma {:induction false} KidRowsNumbered(types: Types, pid: int, running: int, xs: seq<Tree>)
    requires pid <= running
    ensures Consecutive(KidRows(types, pid, running, xs), running)
    ensures forall r <- KidRows(types, pid, running, xs) :: r.pid == pid && r.pid < r.sid
    decreases |xs|
  {
    hide RowOf;
    if xs != [] {
      assert RowOf(types, pid, running + 1, xs[0]).sid == running + 1 && RowOf(types, pid, running + 1, xs[0]).pid == pid by {
        RowNumbers(types, pid, running + 1, xs[0]);
      }
      KidRowsNumbered(types, pid, running + 1, xs[1..]);
    }
  }

  lemma RowNumbers(types: Types, pid: int, sid: int, x: Tree)
    ensures RowOf(types, pid, sid, x).sid == sid && RowOf(types, pid, sid, x).pid == pid
  {
  }

  // Rows of contents: each container's number is above 100 and below those of what is in it.
  predicate Inner(rows: seq<Row>) {
    forall r <- rows :: 100 < r.pid < r.sid
  }

  lemma RowsAppend(a: seq<Row>, b: seq<Row>, running: int)
    requires Consecutive(a, running) && Inner(a) && Consecutive(b, running + |a|) && Inner(b)
    ensures Consecutive(a + b, running) && Inner(a + b)
  {
  }

  predicate RowsNumbered(types: Types, queue: seq<Entry>, running: int) {
    var rows := QueueRows(types, queue, running); Consecutive(rows, running) && Inner(rows)
  }

  lemma {:induction false} QueueRowsNumbered(types: Types, queue: seq<Entry>, running: int)
    requires forall e <- queue :: 100 < e.sid <= running
    ensures RowsNumbered(types, queue, running)
    decreases Pending(queue)
  {
    hide RowsNumbered, KidEntries;
    if queue == [] {
      NoneNumbered(types, running);
    } else {
      var xs, more := queue[0].kids, KidEntries(types, running, queue[0].kids);
      PendingAppend(queue[1..], more);
      assert queue[0] in queue;
      EntriesAbove(types, running, xs);
      QueueRowsNumbered(types, queue[1..] + more, running + |xs|);
      FirstNumbered(types, queue, running);
    }
  }

  lemma NoneNumbered(types: Types, running: int)
    ensures RowsNumbered(types, [], running)
  {
  }

  lemma FirstNumbered(types: Types, queue: seq<Entry>, running: int)
    requires queue != [] && 100 < queue[0].sid <= running
    requires RowsNumbered(types, queue[1..] + KidEntries(types, running, queue[0].kids), running + |queue[0].kids|)
    ensures RowsNumbered(types, queue, running)
  {
    hide KidRows, KidEntries, Inner, Consecutive;
    var first, xs := queue[0], queue[0].kids;
    var a := KidRows(types, first.sid, running, xs);
    var rest := QueueRows(types, queue[1..] + KidEntries(types, running, xs), running + |xs|);
    KidRowsNumbered(types, first.sid, running, xs);
    InnerKids(a, first.sid);
    RowsAppend(a, rest, running);
    assert QueueRows(types, queue, running) == a + rest;
  }

  lemma EntriesAbove(types: Types, running: int, xs: seq<Tree>)
    ensures forall e <- KidEntries(types, running, xs) :: running < e.sid <= running + |xs|
  {
    hide KidEntries;
    KidEntriesNumbered(types, running, xs);
  }

  lemma InnerKids(a: seq<Row>, pid: int)
    requires 100 < pid && forall r <- a :: r.pid == pid && r.pid < r.sid
    ensures Inner(a)
  {
  }

  lemma {:induction false} TopRowsNumbered(types: Types, blocks: seq<Block>, running: int)
    ensures Consecutive(TopRows(types, blocks, running), running)
    ensures forall i :: 0 <= i < |blocks| ==> TopRows(types, blocks, running)[i].pid == blocks[i].pid
    decreases |blocks|
  {
    hide RowOf;
    if blocks != [] {
      RowNumbers(types, blocks[0].pid, running + 1, blocks[0].item);
      TopRowsNumbered(types, blocks[1..], running + 1);
    }
  }

  // Rows are numbered from 101 on without a gap, first the slots' items and then, behind their containers, the rest.
  lemma SaveRowsNumbered(types: Types, blocks: seq<Block>)
    ensures var rows := SaveRows(types, blocks);
      && Consecutive(rows, 100)
      && (forall i :: 0 <= i < |blocks| ==> rows[i].pid == blocks[i].pid)
      && (forall i :: |blocks| <= i < |rows| ==> 100 < rows[i].pid < rows[i].sid)
  {
    hide TopRows, QueueRows, KidEntries;
    TopRowsNumbered(types, blocks, 100);
    KidEntriesNumbered(types, 100, TopItems(blocks));
    QueueRowsNumbered(types, KidEntries(types, 100, TopItems(blocks)), 100 + |blocks|);
  }

  // The columns of an item's row
  predicate Shows(types: Types, r: Row, x: Props) {
    r.id == x.id && r.subType == GetSubType(types, x) && r.attributes == AttributesBytes(Attributes(types, x))
  }

  lemma {:induction false} KidRowsShow(types: Types, pid: int, running: int, xs: seq<Tree>)
    ensures forall i :: 0 <= i < |xs| ==> Shows(types, KidRows(types, pid, running, xs)[i], xs[i].props)
    decreases |xs|
  {
    hide Shows;
    if xs != [] {
      RowShows(types, pid, running + 1, xs[0]);
      KidRowsShow(types, pid, running + 1, xs[1..]);
    }
  }

  lemma RowShows(types: Types, pid: int, sid: int, x: Tree)
    ensures Shows(types, RowOf(types, pid, sid, x), x.props)
  {
  }

  lemma {:induction false} TopRowsShow(types: Types, blocks: seq<Block>, running: int)
    ensures forall i :: 0 <= i < |blocks| ==> Shows(types, TopRows(types, blocks, running)[i], blocks[i].item.props)
    decreases |blocks|
  {
    hide Shows;
    if blocks != [] {
      RowShows(types, blocks[0].pid, running + 1, blocks[0].item);
      TopRowsShow(types, blocks[1..], running + 1);
    }
  }

  lemma StorableInside(types: Types, x: Tree)
    requires Storable(types, x)
    ensures (IsContainer(types, x) || Nodes(x.kids) == 0) && forall k <- x.kids :: Storable(types, k)
  {
  }

  // How many items lie below those of a list whose contents are all in containers
  lemma {:induction false} EntriesHold(types: Types, running: int, xs: seq<Tree>)
    requires forall x <- xs :: Storable(types, x)
    ensures var more := KidEntries(types, running, xs);
      Nodes(xs) == |xs| + Pending(more) - |more| && AllStorable(types, more)
    decreases |xs|
  {
    hide Storable, IsContainer;
    if xs != [] {
      StorableInside(types, xs[0]);
      EntriesHold(types, running + 1, xs[1..]);
      var rest, more := KidEntries(types, running + 1, xs[1..]), KidEntries(types, running, xs);
      assert IsContainer(types, xs[0]) ==> more[1..] == rest;
    }
  }

  lemma {:induction false} QueueRowsAll(types: Types, queue: seq<Entry>, running: int)
    requires AllStorable(types, queue)
    ensures |QueueRows(types, queue, running)| == Pending(queue) - |queue|
    ensures forall r <- QueueRows(types, queue, running) :: exists x: Props :: Shows(types, r, x)
    decreases Pending(queue)
  {
    hide Shows, Storable, KidRows, KidEntries, Nodes;
    if queue != [] {
      var xs, more := queue[0].kids, KidEntries(types, running, queue[0].kids);
      PendingAppend(queue[1..], more);
      EntriesHold(types, running, xs);
      QueueRowsAll(types, queue[1..] + more, running + |xs|);
      KidRowsShow(types, queue[0].sid, running, xs);
    }
  }

  // One row for each item, with its columns, those of the slots' items first.
  lemma SaveRowsAll(types: Types, blocks: seq<Block>)
    requires BlocksStorable(types, blocks)
    ensures var rows := SaveRows(types, blocks);
      && |rows| == Nodes(TopItems(blocks))
      && (forall i :: 0 <= i < |blocks| ==> Shows(types, rows[i], blocks[i].item.props))
      && (forall r <- rows :: exists x: Props :: Shows(types, r, x))
  {
    hide Shows, TopRows, QueueRows, KidEntries;
    TopRowsShow(types, blocks, 100);
    EntriesHold(types, 100, TopItems(blocks));
    QueueRowsAll(types, KidEntries(types, 100, TopItems(blocks)), 100 + |blocks|);
  }

  // ---------- the methods ----------

  // IOLoginData::saveItems
  method SaveItems(types: Types, blocks: seq<Block>) returns (rows: seq<Row>)
    ensures rows == SaveRows(types, blocks)
  {
    hide RowOf, IsContainer, TopRows, KidEntries, TopItems;
    var runningId := 100;
    var queue: seq<Entry> := [];
    rows := [];
    var i := 0;
    assert blocks[0..] == blocks;
    NothingMore(TopRows(types, blocks, 100));
    NothingMore(KidEntries(types, 100, TopItems(blocks)));
    while i < |blocks|
      invariant 0 <= i <= |blocks| && runningId == 100 + i
      invariant rows + TopRows(types, blocks[i..], runningId) == TopRows(types, blocks, 100)
      invariant queue + KidEntries(types, runningId, TopItems(blocks[i..])) == KidEntries(types, 100, TopItems(blocks))
    {
      TakeNext(blocks, i);
      TopStep(types, blocks[i..], runningId);
      var item := blocks[i].item;
      runningId := runningId + 1;
      var row := RowOf(types, blocks[i].pid, runningId, item);
      ghost var more := TopRows(types, blocks[i + 1..], runningId);
      Regroup(rows, [row], more);
      rows := rows + [row];
      var entries := if IsContainer(types, item) then [Entry(runningId, item.kids)] else [];
      ghost var moreEntries := KidEntries(types, runningId, TopItems(blocks[i + 1..]));
      Regroup(queue, entries, moreEntries);
      queue := queue + entries;
      i := i + 1;
    }
    TopNone(types, runningId);
    NothingMore(rows);
    NothingMore(queue);
    assert blocks[i..] == [];
    var below := SaveQueue(types, queue, runningId);
    rows := rows + below;
  }

  lemma TopNone(types: Types, running: int)
    ensures TopRows(types, [], running) == [] && KidEntries(types, running, TopItems([])) == []
  {
  }

  lemma TopStep(types: Types, blocks: seq<Block>, running: int)
    requires blocks != []
    ensures TopRows(types, blocks, running)
      == [RowOf(types, blocks[0].pid, running + 1, blocks[0].item)] + TopRows(types, blocks[1..], running + 1)
    ensures KidEntries(types, running, TopItems(blocks))
      == (if IsContainer(types, blocks[0].item) then [Entry(running + 1, blocks[0].item.kids)] else [])
         + KidEntries(types, running + 1, TopItems(blocks[1..]))
  {
    hide RowOf, IsContainer;
    assert TopItems(blocks)[1..] == TopItems(blocks[1..]);
  }

  // The loop over the queue of containers.
  method SaveQueue(types: Types, containers: seq<Entry>, running: int) returns (rows: seq<Row>)
    ensures rows == QueueRows(types, containers, running)
  {
    hide RowOf, IsContainer, KidRows, KidEntries, Nodes;
    var queue, runningId := containers, running;
    rows := [];
    while queue != []
      invariant rows + QueueRows(types, queue, runningId) == QueueRows(types, containers, running)
      decreases Pending(queue)
    {
      var cb := queue[0];
      PendingAppend(queue[1..], KidEntries(types, runningId, cb.kids));
      ghost var next := QueueRows(types, queue[1..] + KidEntries(types, runningId, cb.kids), runningId + |cb.kids|);
      assert rows + (KidRows(types, cb.sid, runningId, cb.kids) + next) == rows + KidRows(types, cb.sid, runningId, cb.kids) + next;
      queue := queue[1..];
      rows, queue, runningId := SaveContents(types, rows, queue, runningId, cb);
    }
  }

  // The loop over one container's contents.
  method SaveContents(types: Types, written: seq<Row>, waiting: seq<Entry>, running: int, cb: Entry)
    returns (rows: seq<Row>, queue: seq<Entry>, runningId: int)
    ensures rows == written + KidRows(types, cb.sid, running, cb.kids)
    ensures queue == waiting + KidEntries(types, running, cb.kids)
    ensures runningId == running + |cb.kids|
  {
    hide RowOf, IsContainer;
    rows, queue, runningId := written, waiting, running;
    var i := 0;
    while i < |cb.kids|
      invariant 0 <= i <= |cb.kids| && runningId == running + i
      invariant rows + KidRows(types, cb.sid, runningId, cb.kids[i..]) == written + KidRows(types, cb.sid, running, cb.kids)
      invariant queue + KidEntries(types, runningId, cb.kids[i..]) == waiting + KidEntries(types, running, cb.kids)
    {
      var item := cb.kids[i];
      assert cb.kids[i..][0] == item && cb.kids[i..][1..] == cb.kids[i + 1..];
      runningId := runningId + 1;
      ghost var moreRows, moreEntries :=
        KidRows(types, cb.sid, runningId, cb.kids[i + 1..]), KidEntries(types, runningId, cb.kids[i + 1..]);
      if IsContainer(types, item) {
        assert queue + ([Entry(runningId, item.kids)] + moreEntries) == queue + [Entry(runningId, item.kids)] + moreEntries;
        queue := queue + [Entry(runningId, item.kids)];
      }
      assert rows + ([RowOf(types, cb.sid, runningId, item)] + moreRows)
        == rows + [RowOf(types, cb.sid, runningId, item)] + moreRows;
      rows := rows + [RowOf(types, cb.sid, runningId, item)];
      i := i + 1;
    }
  }

  // The rows in the order of the map they are kept in.
  predicate Ascending(rows: seq<Row>) {
    forall i, j :: 0 <= i < j < |rows| ==> rows[i].sid < rows[j].sid
  }

  // A loaded item with the number of its container.
  datatype Mapped = Mapped(item: Tree, pid: int)

  // An item in the map holds what the rows from `i` on have gathered for it.
  predicate Holds(types: Types, itemMap: map<int, Mapped>, rows: seq<Row>, i: nat, m: Gathered)
    requires i <= |rows|
  {
    forall j :: 0 <= j < i ==>
      (rows[j].sid in itemMap <==> types(rows[j].id).plain)
      && (rows[j].sid in itemMap ==> itemMap[rows[j].sid] == Mapped(RowItem(types, m, rows[j]), rows[j].pid))
  }

  // IOLoginData::loadItems
  method LoadItems(types: Types, rows: seq<Row>) returns (itemMap: map<int, Mapped>)
    requires Ascending(rows)
    ensures Holds(types, itemMap, rows, |rows|, map[])
    ensures forall s <- itemMap :: exists r <- rows :: r.sid == s
  {
    hide RowItem;
    itemMap := map[];
    var i := 0;
    while i < |rows|
      invariant 0 <= i <= |rows| && Holds(types, itemMap, rows, i, map[])
      invariant forall s <- itemMap :: exists j :: 0 <= j < i && rows[j].sid == s
    {
      if types(rows[i].id).plain {
        itemMap := itemMap[rows[i].sid := Mapped(RowItem(types, map[], rows[i]), rows[i].pid)];
      }
      i := i + 1;
    }
  }

  // The rebuilding loops of IOLoginData::loadPlayer
  method LoadPlayerItems(types: Types, slots: Slots, rows: seq<Row>) returns (loaded: Gathered)
    requires Ascending(rows) && ParentsFirst(rows) && Below100(slots) && forall r <- rows :: r.sid > 100
    ensures forall pid: int :: At(loaded, pid) == Loaded(types, slots, rows, pid)
    ensures slots == INVENTORY ==> forall r <- rows | types(r.id).plain && 1 <= r.pid <= 10 ::
      exists x <- At(loaded, r.pid) :: IsOfRow(types, x, r)
    ensures slots == DEPOTS ==> forall r <- rows | types(r.id).plain && 0 <= r.pid < 100 ::
      exists x <- At(loaded, r.pid) :: IsOfRow(types, x, r)
  {
    hide RowItem, GatherRow, Holds, PutInto, IsSlot, Ascending, ParentsFirst, IsOfRow;
    var itemMap := LoadItems(types, rows);
    loaded := map[];
    var i := |rows|;
    ghost var m: Gathered := map[];
    assert rows[i..] == [];
    while i > 0
      invariant 0 <= i <= |rows|
      invariant m == Gather(types, rows[i..], map[])
      invariant Holds(types, itemMap, rows, i, m)
      invariant forall s <- itemMap :: exists r <- rows :: r.sid == s
      invariant forall pid: int :: At(loaded, pid) == if IsSlot(slots, pid) then At(m, pid) else []
    {
      i := i - 1;
      var r := rows[i];
      assert rows[i..][0] == r && rows[i..][1..] == rows[i + 1..];
      HoldsStep(types, slots, itemMap, rows, i, m);
      ghost var before := itemMap;
      if r.sid in itemMap {
        var item, pid := itemMap[r.sid].item, itemMap[r.sid].pid;
        if IsSlot(slots, pid) {
          loaded := loaded[pid := [item] + At(loaded, pid)];
        } else {
          itemMap := PutInto(types, itemMap, pid, item);
        }
      }
      ghost var m' := GatherRow(types, m, r);
      forall pid: int ensures At(loaded, pid) == if IsSlot(slots, pid) then At(m', pid) else [] {
        assert At(m', pid) == if r.sid in before && pid == r.pid then [before[r.sid].item] + At(m, pid) else At(m, pid);
      }
      m := m';
    }
    assert rows[0..] == rows;
    forall r <- rows | types(r.id).plain
      ensures 1 <= r.pid <= 10 ==> exists x <- Loaded(types, INVENTORY, rows, r.pid) :: IsOfRow(types, x, r)
      ensures 0 <= r.pid < 100 ==> exists x <- Loaded(types, DEPOTS, rows, r.pid) :: IsOfRow(types, x, r)
    {
      RowIsLoaded(types, rows, r);
    }
  }

  // The item goes in front of the contents of the container numbered `pid`, if there is one.
  function PutInto(types: Types, itemMap: map<int, Mapped>, pid: int, x: Tree): (itemMap': map<int, Mapped>)
    ensures itemMap'.Keys == itemMap.Keys
  {
    if pid in itemMap && types(itemMap[pid].item.props.id).container
    then itemMap[pid := Mapped(PushFront(types, itemMap[pid].item, x), itemMap[pid].pid)]
    else itemMap
  }

  // Row `i` meets its item complete; what it does to the map is what it adds to the gathered contents.
  lemma HoldsStep(types: Types, slots: Slots, itemMap: map<int, Mapped>, rows: seq<Row>, i: nat, m: Gathered)
    requires i < |rows| && Holds(types, itemMap, rows, i + 1, m)
    requires Ascending(rows) && ParentsFirst(rows) && Below100(slots) && forall r <- rows :: r.sid > 100
    requires forall s <- itemMap :: exists r <- rows :: r.sid == s
    ensures var r, m' := rows[i], GatherRow(types, m, rows[i]);
      && (r.sid in itemMap <==> types(r.id).plain)
      && (if r.sid in itemMap then
            var x := itemMap[r.sid].item;
            && itemMap[r.sid].pid == r.pid
            && m' == m[r.pid := [x] + At(m, r.pid)]
            && Holds(types, if IsSlot(slots, r.pid) then itemMap else PutInto(types, itemMap, r.pid, x), rows, i, m')
          else m' == m && Holds(types, itemMap, rows, i, m'))
  {
    hide RowItem, PushFront;
    var r := rows[i];
    if r.sid in itemMap {
      var x, m' := itemMap[r.sid].item, GatherRow(types, m, r);
      var itemMap' := if IsSlot(slots, r.pid) then itemMap else PutInto(types, itemMap, r.pid, x);
      forall j | 0 <= j < i
        ensures rows[j].sid in itemMap' <==> types(rows[j].id).plain
        ensures rows[j].sid in itemMap' ==> itemMap'[rows[j].sid] == Mapped(RowItem(types, m', rows[j]), rows[j].pid)
      {
        RowItemAfter(types, m, rows[j], r.pid, x);
        assert rows[j] in rows;
      }
    }
  }

  // How one item more shows in the item of a row.
  lemma RowItemAfter(types: Types, m: Gathered, r: Row, pid: int, x: Tree)
    ensures RowItem(types, m, r).props.id == r.id
    ensures RowItem(types, m[pid := [x] + At(m, pid)], r)
      == if pid == r.sid && types(r.id).container then PushFront(types, RowItem(types, m, r), x) else RowItem(types, m, r)
  {
    hide CreateItem, UnserializeAsFar, WeightSum, Weight;
    AsFarKeepsId(types, CreateItem(types, r.id, r.subType), r.attributes, 0);
    CreatedId(types, r.id, r.subType);
    PushedWeight(types, x, At(m, pid));
  }

  lemma CreatedId(types: Types, id: nat, n: nat)
    ensures CreateItem(types, id, n).id == id
  {
  }

  lemma PushedWeight(types: Types, x: Tree, kids: seq<Tree>)
    ensures WeightSum(types, [x] + kids) == WeightSum(types, kids) + Weight(types, x)
  {
    assert ([x] + kids)[1..] == kids;
  }

  // Container::__internalAddThing
  function PushFront(types: Types, holder: Tree, x: Tree): Tree {
    Tree(holder.props, [x] + holder.kids, holder.totalWeight + Weight(types, x))
  }

  // A player's items saved and loaded again: every slot holds what it held, restored, and nothing else is loaded.
  method SaveAndLoadPlayer(types: Types, slots: Slots, blocks: seq<Block>) returns (loaded: Gathered)
    requires BlocksStorable(types, blocks) && Below100(slots)
    requires forall b <- blocks :: b.pid <= 100
    ensures forall pid: int :: At(loaded, pid) == if IsSlot(slots, pid) then RestoredItems(types, ItemsAt(blocks, pid)) else []
    ensures slots == INVENTORY ==> forall pid | 1 <= pid <= 10 :: At(loaded, pid) == RestoredItems(types, ItemsAt(blocks, pid))
    ensures slots == DEPOTS ==> forall pid | 0 <= pid < 100 :: At(loaded, pid) == RestoredItems(types, ItemsAt(blocks, pid))
  {
    hide SaveRows, Loaded, RestoredItems, ItemsAt;
    var rows := SaveItems(types, blocks);
    SaveRowsNumbered(types, blocks);
    loaded := LoadPlayerItems(types, slots, rows);
    forall pid: int
      ensures At(loaded, pid) == if IsSlot(slots, pid) then RestoredItems(types, ItemsAt(blocks, pid)) else []
    {
      LoadUndoesSave(types, slots, blocks, pid);
    }
  }
}
