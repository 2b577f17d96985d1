# Verified models of the game server's core algorithms

Tibia game servers keep a world of things in things: items in backpacks in depots, saved as bytes and rows, moved about
by players, weighed, traded, sold and left to decay. This project models the algorithms of the server that have to get
this right, in Dafny, and proves what they promise, for all inputs, all runs and all reachable states.

| file | what it models | main results |
|---|---|---|
| `Bytes.dfy`, `Common.dfy` | bytes and little-endian numbers; distances, the weight of a stack, and sequences | |
| `NodeFormat.dfy`, `FileLoader.dfy` | the escaped node-tree file, read through a cache of three blocks | the parser accepts exactly the written forests; the cache never shows; a written file is read back |
| `ItemCodec.dfy`, `PropStreams.dfy` | the tag and value codec of item attributes on growing buffers | reading undoes writing up to stated normalisations, exactly if strings are short; which items come back as they were, exactly |
| `ItemTree.dfy`, `MapSerialize.dfy` | items with their contents, and tiles, as bytes | loading undoes saving for every tree, and leaves what follows; whatever is loaded can be saved |
| `PlayerItems.dfy` | a player's items as numbered rows | loading rebuilds every slot, if and only if the loader knows its number |
| `ContainerIterator.dfy` | the breadth-first iterator, on the heap | it meets exactly what is inside, each once |
| `ItemWorld.dfy` | containers on the heap with parent links and cached weights | every operation keeps the graph acyclic and the weights true |
| `ItemMoves.dfy` | moving, adding and removing items | nothing is lost or doubled; where each thing lands, and the answer; when a container overflows, exactly |
| `ItemRuns.dfy` | whole runs of those operations on the heap | the heap goes through the runs that `ItemMoves.RunKeeps` is about |
| `Coins.dfy`, `Money.dfy` | what coins are worth; paying and being paid | which amounts are paid exactly, for all amounts; what lies in the purse afterwards |
| `WalkCache.dfy` | the sliding window of walkable tiles | right in all runs but for two directions, and in all eight with the signed distance |
| `DecayWheel.dfy` | four lists looked at in turn | every item in one list; the exact tick on which it decays, whatever else starts to decay meanwhile |
| `Trade.dfy` | the two-player trade protocol | symmetric partners; goods move only when both offered and both accepted; when both items move, exactly; nothing is left of a trade that is closed |
| `Market.dfy` | offers, paid in advance | gold and goods are conserved over all runs |
| `DamageList.dfy` | damage cut into falling hits | the exact sum; as many hits of each strength as come nearest to its share |
| `CombatArea.dfy` | spell areas turned for each direction | the turned areas cover the turned offsets |

What an object of the server updates in place is a field of a class here, and methods are proved against functions on
values; the theorems are about those functions. `ItemWorld` and `ItemMoves` state what a method does by a snapshot of
all items' fields before and after. Weights are integers, fractions are exact, database tables are maps or sequences, and
item types are records of what the algorithms look at.

## What is not as one would expect

The code was followed where it and its intention differ. Each case has a theorem that says exactly when it matters.

- The walk cache takes the vertical distance without its sign, so a step south-east or south-west shifts the wrong rows
  (`WalkCache.AsWritten`).
- `addMoney` computes the worth of the crystal coins in 32 bits, and the counts of new stacks keep 8 bits. An amount is
  paid out exactly if and only if it is below 4294970000, or it has fewer than 2^31 crystal coins, whose worth wraps a
  multiple of 25 times, and there is gold beside the platinum to pay (`Money.ExactSplit`; `Money.SplitFails` and
  `Money.SplitLucky` for inputs). `Money.AddMoney` says what is paid out for every amount whose stacks come out between 1
  and 100, which those of an amount that is paid exactly do.
- With FLAG_NOLIMIT a container can hold more than its capacity, and a stack found beyond it makes `__addThing` drop what
  does not fit onto that stack (`ItemMoves.SplitPlaced`, and `ItemMoves.UnitsDropped` for an input): the new stack then
  lies nowhere.
- With FLAG_IGNOREAUTOSTACK and an index, `internalAddItem` puts a stack into a full container that has room on another
  stack of the kind (`ItemMoves.BagOverflows`). `ItemMoves.InternalAddItem` says exactly when a list overflows.
- When a trade is carried out, the answer of the second move is thrown away. If it fails, one item has changed hands and
  the other has not (`Trade.BothMove` says exactly when, `Trade.OneSided` gives the input).
- Strings of 65536 characters and more do not survive the codec (`ItemCodec.StoredExactly`, `ItemCodec.LongTextLost`), and
  charges of types without charges, or default durations beyond 31 bits, change again when stored twice
  (`ItemCodec.RestoredTwice`, `ItemCodec.TwiceDiffers`).
- A player may accept a trade before the other side has offered anything, stays accepted when it does, and gets what was
  offered afterwards (`Trade.AcceptedBlindly`). What he gets is what was offered when he accepted if and only if his
  partner had offered something by then (`Trade.AcceptedSeen`). Goods still change hands only when both have offered and
  both have accepted (`Trade.HandedRightly`).
- Items in slots whose number the loader does not know are lost (`PlayerItems.SlotsKnown`, `PlayerItems.DepotLost`).

## Model

| member | source | states |
|---|---|---|
| Bytes.LeRoundTrip | src/fileloader.h:183-191 | a number written in little-endian bytes that it fits is read back |
| NodeFormat.ParseComplete | src/fileloader.cpp:98-193 | every forest of nodes, written with escapes, is accepted, and parsed to the records of its layout |
| NodeFormat.ParseSound | src/fileloader.cpp:98-193 | whatever the parser accepts is the written form of some forest, and its records are that forest's layout |
| NodeFormat.Accepts | src/fileloader.cpp:98-193 | the accepted language, exactly: parsing succeeds if and only if the bytes are a written forest followed by a place where reading stops |
| NodeFormat.RoundTrip | src/fileloader.cpp:98-193 | parsing the encoding of any forest succeeds, ends right behind it, and gives records that describe the forest |
| NodeFormat.UnescapeEscape | src/fileloader.cpp:195-233 | dropping the escape bytes undoes escaping, for all byte strings |
| NodeFormat.EscapeBytewise | src/fileloader.h:112-116 | the special bytes 0xFD, 0xFE and 0xFF, and no others, stand behind an escape byte in the written form |
| NodeFormat.LayoutDescribes | src/fileloader.cpp:195-233 | each record's properties region, unescaped, holds the properties of its node |
| NodeFormat.ParsedInside | src/fileloader.cpp:195-217 | the properties regions of everything that is parsed lie inside the file, so reading them ends |
| FileLoader.FileLoader.LoadCacheBlock | src/fileloader.cpp:373-418 | afterwards every loaded block, the new one and those that stay, holds the file's bytes from its base on; loading fails only beyond the end of the file |
| FileLoader.FileLoader.GetCacheBlock | src/fileloader.cpp:352-371 | the block that is found or loaded covers the position |
| FileLoader.FileLoader.ReadByte | src/fileloader.cpp:275-298 | the byte read is the file's byte at the current position, whatever the cache holds; reading fails exactly at the end of the file |
| FileLoader.FileLoader.ReadBytes | src/fileloader.cpp:300-327 | a range inside the file is read as the file has it, across blocks; it ends |
| FileLoader.FileLoader.SafeSeek | src/fileloader.cpp:329-339 | afterwards the loader stands at that position |
| FileLoader.FileLoader.SafeTell | src/fileloader.cpp:341-350 | the position told is where reading goes on |
| FileLoader.FileLoader.ParseNode | src/fileloader.cpp:98-193 | the recursive, rewinding parser ends, accepts exactly what the specification `Parse` accepts, and links new records into the tree that it describes |
| FileLoader.FileLoader.OpenFile | src/fileloader.cpp:53-96 | a file opens if and only if it starts with the accepted identifier, or four zeros, then a start byte, and its nodes parse; the root is then linked to the whole tree. A file that is too short and one with another identifier give their errors |
| FileLoader.FileLoader.LoadRoot | src/fileloader.cpp:81-95 | from the fifth byte on the node tree is read, if it starts there and parses |
| FileLoader.FileLoader.GetProps | src/fileloader.cpp:195-245 | the buffer holds the node's properties region, unescaped |
| FileLoader.UnescapeInPlace | src/fileloader.cpp:216-232 | the in-place loop turns the buffer into its unescaped content |
| FileLoader.ReadBack | src/fileloader.cpp:53-273 | a file that holds an encoded forest is opened, and walking child and next links and asking for properties gives back exactly that forest |
| ItemCodec.UnserializeAttributes | src/item.cpp:623-635 | reading the bytes of attributes applies them one after the other and leaves the rest to be read |
| ItemCodec.AttributesRestored | src/item.cpp:642-748 | the written attributes turn a new item of the type into the restored item: decaying becomes pending, action ids of immovable items are dropped and small ones raised to 100, negative durations become 0 |
| ItemCodec.ComesBack | src/item.cpp:358-748 | an item comes back as it was, to the last slot, if and only if no slot holds what is not stored or is corrected: no unique id, owner or door, action ids from 100 on and on moveable items, no negative duration and no missing one, decaying only pending, charges and fluids just where the type has them, and a count on stacks only |
| ItemCodec.TagRead | src/item.cpp:358-621 | for every tag, by its number: how many bytes are read, when reading fails, and which slot gets which value |
| ItemCodec.AttributesRoundTrip | src/item.cpp:623-748 | unserializeAttr on what serializeAttr wrote, and more, gives the restored item and stands right behind |
| ItemCodec.ReadTyped | src/item.cpp:358-635 | whatever the bytes: the slots hold what their fields can, and a container has less than 2^32 items to come |
| ItemCodec.StoredExactly | src/item.cpp:642-748 | the attributes of an item are read back, to their end, if and only if all its strings fit the 16-bit length |
| ItemCodec.LongTextLost | src/fileloader.h:287-293 | a text of 65536 characters does not come back |
| ItemCodec.RestoredTwice | src/item.cpp:358-470 | storing an item again changes nothing more, if and only if its charges and its duration settle |
| ItemCodec.TwiceDiffers | src/item.cpp:358-470 | two charges on an item of a type without charges, and a default duration of 2147484 seconds, change when stored twice |
| ItemCodec.SubTypeTwice | src/iologindata.cpp:944-968 | that a row keeps the sub type apart makes no difference once the attributes are applied |
| ItemCodec.RowRestored | src/iologindata.cpp:944-968 | an item made from its row's type, sub type and attribute bytes is the restored item |
| PropStreams.PropStream.GetNumber | src/fileloader.h:183-203 | a number is read, and the pointer moves, only if enough bytes are left |
| PropStreams.PropStream.GetString | src/fileloader.h:205-222 | a string is read behind its length; when characters are missing only the length stays read |
| PropStreams.PropWriteStream.Reserve | src/fileloader.h:296-311 | doubling makes room and loses nothing that was written |
| PropStreams.PropWriteStream.AddString | src/fileloader.h:287-293 | the length in 16 bits and all characters are appended |
| PropStreams.SerializeAttr | src/item.cpp:642-748 | the attributes are appended, in their order, to what the stream holds |
| PropStreams.ReadAttribute | src/item.cpp:358-621 | one attribute is read as the specification says, errors included |
| PropStreams.UnserializeAttr | src/item.cpp:623-635 | the loop over attributes computes the specification from the stream's position |
| MapSerialize.LoadUndoesSave | src/iomapserialize.cpp:118-238 | for every tree of storable items, followed by anything, reading gives the restored tree and leaves exactly what follows |
| MapSerialize.TreeComesBack | src/iomapserialize.cpp:118-238 | a tree comes back as it was if and only if every item in it is ordinary and its cached weights are right |
| MapSerialize.ReadStorable | src/iomapserialize.cpp:118-165 | whatever the bytes: a tree that is read from them can be saved, and its cached weights are right |
| MapSerialize.ItemShape | src/iomapserialize.cpp:118-165 | an item has the type whose id comes first; nothing else is read of an unknown one; a container ends with an end byte, and what is no container is empty |
| MapSerialize.KidsRoundTrip | src/iomapserialize.cpp:118-134 | contents written last to first and read each to the front come back in their order, with the weights added up |
| MapSerialize.RestoredAt | src/iomapserialize.cpp:118-134 | contents are restored one by one, in their order |
| MapSerialize.RestoredWeights | src/container.cpp:726-740 | all cached weights in a tree that was read are the true weights of the contents |
| MapSerialize.SaveItem | src/iomapserialize.cpp:219-238 | the bytes of the item and everything in it are appended |
| MapSerialize.LoadItem | src/iomapserialize.cpp:136-165 | the item is read as the specification says, from wherever the stream stands, errors included: it is none exactly for an id that makes no item, and behind a container the end byte has been read |
| MapSerialize.LoadContainer | src/iomapserialize.cpp:118-134 | as many items as the count says are put to the front, and an end byte must follow |
| MapSerialize.SaveAndLoad | src/iomapserialize.cpp:118-238 | saving to a new stream and loading again gives the restored tree |
| MapSerialize.SaveTile | src/iomapserialize.cpp:240-270 | the items to be saved follow their count last to first; a tile without any writes nothing |
| MapSerialize.SavedSplits | src/iomapserialize.cpp:240-270 | each item of a tile is saved or not, whatever else lies there, and the order is kept |
| MapSerialize.LoadTileItems | src/iomapserialize.cpp:56-63 | when all items can be read, they lie in the order in which they were saved |
| MapSerialize.SaveAndLoadTile | src/iomapserialize.cpp:40-270 | the saved items of a tile come back restored, in order, at their position |
| PlayerItems.SaveRowsNumbered | src/iologindata.cpp:545-604 | rows are numbered from 101 on without gaps, every container before what is in it, and rows of contents name containers above 100 |
| PlayerItems.SaveRowsAll | src/iologindata.cpp:513-604 | there is one row for each item, at any depth, with its type, sub type and attributes; those of the slots come first |
| PlayerItems.LoadUndoesSave | src/iologindata.cpp:418-441 | loading the rows that saveItems wrote rebuilds every slot whose number the loader knows, and no other: same nesting, order, attributes and weights |
| PlayerItems.SlotsComeBack | src/iologindata.cpp:427-486 | what was saved in inventory slots 1 to 10, and in depots 0 to 99, comes back restored, and nothing does under another number |
| PlayerItems.SlotsKnown | src/iologindata.cpp:418-470 | all slots come back if and only if the loader takes all their numbers for slots |
| PlayerItems.RowIsLoaded | src/iologindata.cpp:418-500 | in arbitrary rows, a row of a known type whose parent is a slot becomes an item in that slot, with the attributes that the row holds |
| PlayerItems.DepotLost | src/iologindata.cpp:446-470 | an item saved for depot 100 is not among those that are loaded for it |
| PlayerItems.KidsGathered | src/iologindata.cpp:423-440 | the rows of one container, from last to first, put its contents in order in front of what it holds |
| PlayerItems.QueueGathered | src/iologindata.cpp:577-602 | the rows of a whole queue gather the contents of every container in it under its number |
| PlayerItems.SaveItems | src/iologindata.cpp:545-604 | the loops over blocks and queue write the rows of the specification |
| PlayerItems.LoadItems | src/iologindata.cpp:944-968 | every row of a known type is in the map under its number with its parent's number |
| PlayerItems.LoadPlayerItems | src/iologindata.cpp:418-500 | going through the map from the highest number down computes what the specification loads for each slot; every row of a known type with a number from 1 to 10 is in the inventory under it, and in the depots with one from 0 to 99 |
| PlayerItems.HoldsStep | src/iologindata.cpp:423-440 | each item is complete before it is put into its container |
| PlayerItems.SaveAndLoadPlayer | src/iologindata.cpp:418-604 | items saved and loaded again are in slots 1 to 10, or depots 0 to 99, as they were, restored, and nowhere else |
| ContainerIterator.VisitsAll | src/container.cpp:749-867 | a breadth-first walk that has come to its end has met exactly the items inside, at any depth, each once |
| ContainerIterator.Iterator.Begin | src/container.cpp:749-759 | a new iterator stands at the beginning of the walk |
| ContainerIterator.Iterator.Current | src/container.cpp:831-835 | the item that the iterator stands at is inside and has not been visited |
| ContainerIterator.Iterator.Next | src/container.cpp:842-867 | one step visits the item that the iterator stood at, queues it if it holds something, and changes nothing else |
| ContainerIterator.GetItemHoldingCount | src/container.cpp:217-224 | the count is the number of items inside, at any depth |
| ContainerIterator.IsHoldingItem | src/container.cpp:226-234 | an item is held if and only if its parent chain leads to the container |
| ItemWorld.NotInsideItself | src/container.cpp:284-344 | in a world whose parent chains end, no item is inside itself |
| ItemWorld.CachedWeightsTrue | src/container.cpp:161-173 | in a sound world every cached weight is the weight of everything inside, counted through |
| ItemWorld.PushBalances | src/container.cpp:161-168 | a difference passed up the parent chain leaves every cached weight equal to the sum of its contents' weights, and changes nothing else |
| ItemWorld.JoinAcyclic | src/container.cpp:284-344 | putting a thing into a container that is not inside it closes no loop |
| ItemWorld.AddSound | src/container.cpp:495-518 | adding to the front keeps the world sound; at an index beyond the capacity nothing happens |
| ItemWorld.AddBackSound | src/container.cpp:520-539 | adding to the back keeps the world sound |
| ItemWorld.UpdateSound | src/container.cpp:541-570 | changing an item's type and count keeps the world sound |
| ItemWorld.RemoveSound | src/container.cpp:602-643 | removing part of a stack, or a whole item, keeps the world sound |
| ItemWorld.ReplaceSound | src/container.cpp:572-600 | replacing an item by a loose one keeps the world sound |
| ItemWorld.Item.UpdateItemWeight | src/container.cpp:161-168 | the recursion up the parents ends, and adds the difference to each of them |
| ItemWorld.Item.AddThing | src/container.cpp:495-518 | the item is in front and has the container as its parent, and nothing else is linked anew, unless the index is beyond the capacity and nothing happens; its weight is passed up, and the world is sound |
| ItemWorld.Item.AddThingBack | src/container.cpp:520-539 | the item is at the back and has the container as its parent, and nothing else is linked anew; its weight is passed up, and the world is sound |
| ItemWorld.Item.UpdateThing | src/container.cpp:541-570 | an item of the container, and no other, has its new type, and its new count if its type has one; the difference is passed up, and the world is sound |
| ItemWorld.Item.ReplaceThing | src/container.cpp:572-600 | the item at the index is loose and the new one is in its place, and nothing else is linked anew; the difference is passed up, and the world is sound |
| ItemWorld.Item.RemoveThing | src/container.cpp:602-643 | a stack has so many units fewer, or, when all of it is taken, leaves the list and is loose like any other item; nothing else changes; the difference is passed up, and the world is sound |
| ItemWorld.Item.GetTopParent | src/item.cpp:255-272 | the walk up the parents ends at the outermost container |
| ItemWorld.Item.QueryAdd | src/container.cpp:284-344 | the answer, error by error and in order: locked, cannot be picked up, the thing itself or inside it, full |
| ItemWorld.Item.QueryMaxCount | src/container.cpp:346-397 | as many things as there are free slots; of a stack a hundred for each of them, and what the stacks of the kind, or the one at the index, have room for; without a limit all of it |
| ItemWorld.RoomAdds | src/container.cpp:355-370 | the room of stacks adds up, to 100 for each of the kind |
| ItemWorld.Item.QueryRemove | src/container.cpp:399-419 | the answer: not there, none or more than there is; not moveable; or none of these |
| ItemWorld.Item.QueryDestination | src/container.cpp:421-488 | where a thing goes: a locked container answers with itself; 254 leads to the parent; a stack from elsewhere goes to the first stack of its kind with room; otherwise a container at the index is where the thing goes, any other item there is what it goes to, and 255 or an index beyond the capacity mean any place |
| ItemMoves.PlanGranted | src/game.cpp:1268-1331 | what the queries allow can be done: no loop, no more than there is, and room for what does not fit onto a stack |
| ItemMoves.MoveWhole | src/game.cpp:1348-1381 | an item that does not stack leaves its container and is in front in the other; nothing else moves |
| ItemMoves.MoveStack | src/game.cpp:1348-1381 | of a stack exactly the granted units are taken; what fits is on the stack at the destination, the rest is one new stack |
| ItemMoves.MoveKeeps | src/game.cpp:1238-1415 | for every index, merge, split and same container: the world stays sound, the units of every type stay the same (those that lie in no container are counted too), stacks hold 1 to 100, and without FLAG_NOLIMIT no container overflows |
| ItemMoves.SplitPlaced | src/container.cpp:495-499 | the new stack lies in the destination if and only if the index is below its capacity, which without FLAG_NOLIMIT it always is |
| ItemMoves.UnitsDropped | src/container.cpp:495-499 | with FLAG_NOLIMIT, 50 units moved to a stack of 95 beyond the capacity fill it to 100, and the other 45 lie in no container |
| ItemMoves.AskMove | src/game.cpp:1253-1331 | the answers of the queries, in their order, and what they allow |
| ItemMoves.InternalMoveItem | src/game.cpp:1238-1415 | the world afterwards, exactly, and the answer: a thing that does not stack is in front in the container that it was meant for (the bag at the index, the parent for 254, or the container itself), or nothing changes and the answer says why; a stack is a new one there, or fills the first of its kind, and what does not fit stays; units, stacks, capacities and soundness are kept |
| ItemMoves.FilledFirst | src/game.cpp:1458-1492 | a stack that the first partial stack can take whole is there, and nowhere else |
| ItemMoves.FilledRest | src/game.cpp:1467-1474 | filling the first partial stack and adding the rest fills all partial stacks in order |
| ItemMoves.RestGranted | src/game.cpp:1437-1474 | when all of a stack was granted, the rest of it is granted: the recursion succeeds |
| ItemMoves.InternalAddItem | src/game.cpp:1424-1503 | the recursion ends; the world is exactly the one that filling, adding and adding the rest make, and the remainder is what could not be added; a thing that is added anywhere is taken if and only if the container is open, the thing can be picked up and does not hold it, and there is a slot or room on stacks; one that does not stack lies in front in the container that it was meant for, or the answer says why not; a stack that is added anywhere fills the partial stacks in order and puts what is left into one new stack; units, stack sizes and soundness are kept; without FLAG_NOLIMIT no list overflows if and only if the thing goes onto a stack with room or its destination is not full, which without FLAG_IGNOREAUTOSTACK, or anywhere, is always so |
| ItemMoves.AnsweredAnywhere | src/game.cpp:1424-1450 | a thing may be added anywhere if and only if the container is open, the thing can be picked up and does not hold it, and there is a free slot or room for all of it |
| ItemMoves.AddsKeep | src/game.cpp:1424-1503 | whatever the add does, defined by its effect on the lists, counts and parents, has those properties |
| ItemMoves.BagOverflows | src/container.cpp:284-388 | with FLAG_IGNOREAUTOSTACK and index 0, a container of capacity 2 that holds a thing and a stack of 50 takes a stack of 10, and then holds three items |
| ItemMoves.RemoveKeeps | src/game.cpp:1505-1551 | the units that are removed are gone and no others |
| ItemMoves.InternalRemoveItem | src/game.cpp:1505-1551 | it succeeds if and only if the item lies somewhere and there is as much of it as is asked for; then exactly so many units are gone, or a whole item is loose and out of its list; otherwise nothing changes |
| ItemMoves.RunKeeps | src/game.cpp:1238-1551 | in every world that a run of creating, moving, adding and removing leads to, no item is inside itself, all cached weights are true, stacks hold 1 to 100, and there are exactly the units that were created and not removed or reported as remainder; if no step has FLAG_NOLIMIT or adds a thing to a full container without putting it onto a stack there, no list is longer than its capacity or what it was at first |
| ItemRuns.Serve | src/game.cpp:1238-1551 | one order to make, put, move or take a thing leads to the steps it asks for, and to none if it names something that is not there |
| ItemRuns.Run | src/game.cpp:1238-1551 | over all sequences of such orders the heap goes through a run: its steps are what was asked for, no item is inside itself, there are exactly the units that were made and not taken away, and without FLAG_NOLIMIT and FLAG_IGNOREAUTOSTACK no container holds more than it may, or than it held at first |
| WalkCache.SlidRight | src/creature.cpp:546-628 | one step with the signed distance keeps every window right |
| WalkCache.AsWritten | src/creature.cpp:579-625 | with the distance as it is taken, a step keeps the window right on every map if and only if it does not lead south-east or south-west |
| WalkCache.GoesWrong | src/creature.cpp:579-625 | for every step south-east or south-west there is a map on which the window goes wrong |
| WalkCache.RunKeepsRight | src/creature.cpp:415-478 | over every run of steps, jumps, moves of others and changes of tiles the window is what a full update would store |
| WalkCache.Creature.UpdateMapCache | src/creature.cpp:351-365 | every cell on the map is looked up, and cells beyond its edge are left alone |
| WalkCache.Creature.UpdateTileCache | src/creature.cpp:367-382 | the cell of the tile is looked up if it is in the window |
| WalkCache.Creature.GetWalkCache | src/creature.cpp:384-413 | the answer; for a right window, within 11 tiles, it says whether there is a tile on the map that lets the creature in |
| WalkCache.Creature.SlideRows | src/creature.cpp:555-577 | rows are moved in place, and the new one is looked up |
| WalkCache.Creature.SlideColumns | src/creature.cpp:579-625 | cells are moved in place in the rows that the distance leaves, and the new column is looked up |
| WalkCache.Creature.OnOwnMove | src/creature.cpp:546-629 | the window after the creature's own move: after a jump it is right, and after a step if it was right before, unless the step led south-east or south-west |
| WalkCache.Creature.OnOtherMove | src/creature.cpp:630-641 | both tiles of another creature's move are looked up, which keeps the window right |
| WalkCache.Creature.OnTileChange | src/creature.cpp:415-447 | the changed tile is looked up, which keeps the window right, unless only an item that blocks nothing was changed or removed |
| WalkCache.Creature.OnAppear | src/creature.cpp:449-464 | a creature that appears has a right window |
| Money.SplitExact | src/game.cpp:1693-1728 | below 4294970000 the crystal, platinum and gold coins are worth exactly the amount, with less than 100 of the smaller ones |
| Money.ExactSplit | src/game.cpp:1693-1728 | for every amount, the coins that are created are worth exactly the amount if and only if it is below 4294970000, or it has fewer than 2^31 crystal coins, their worth wraps a multiple of 25 times, and the amount is no multiple of 100; and then no stack is empty or holds more than 100 |
| Money.SplitFails | src/game.cpp:1695-1696 | for 4294970000 the coins are worth something else, though every stack holds 1 to 100: the product wraps at 32 bits |
| Money.SplitLucky | src/game.cpp:1693-1728 | 107374190001 has a wrong leftover after 25 wraps, and the coins come out worth the amount |
| Money.AddMoney | src/game.cpp:1693-1728 | exactly the crystal, platinum and gold coins of the split come into the world, wrap-arounds included, in stacks of at most 100, and nothing else comes or goes; all of them lie in the container if it is open, takes coins and has a slot for each stack, and only coins that it refuses lie nowhere |
| Money.CreateCoins | src/game.cpp:1697-1727 | a stack of coins is made and put into the container, whose coins are worth that much more if it takes them |
| Coins.CoinAdded | src/game.cpp:1697-1727 | a coin added to a container makes the coins in it, however deep, worth exactly as much more |
| Money.PaidWorth | src/game.cpp:1693-1728 | all money grows by what the split is worth, and by exactly the amount if and only if it is one of those; there is as much as before of everything else |
| Money.CollectCoins | src/game.cpp:1630-1669 | all coins in the container, however deep, each once, the cheapest first |
| Money.TotalIsWorth | src/game.cpp:1647-1669 | the money that is counted is what the coins in the container are worth |
| Money.TakeCoins | src/game.cpp:1676-1690 | the cheapest coins are taken until the amount is reached, no more of them than needed, and the change is given: the coins in the container are worth exactly the amount less if the change finds room |
| Money.RemoveMoney | src/game.cpp:1620-1691 | true if and only if the coins in the container are worth the amount; then all money falls by exactly the amount, and so does what the coins in the container are worth if three stacks of change find room; only coins of the container are taken, none before a cheaper one, and there is as much as before of everything else; otherwise nothing changes |
| DecayWheel.DecaysThen | src/game.cpp:4435-4479 | an item put away with a duration decays on tick 1 if it has less than a second, otherwise on tick 4 * (d / 1000), or one later if 875 ms or more are left |
| DecayWheel.NotBefore | src/game.cpp:4435-4479 | and it is in a list until then |
| DecayWheel.DecaysFrom | src/game.cpp:4435-4479 | after any number of ticks it has decayed if and only if its tick has come |
| DecayWheel.OnTime | src/game.h:73-74 | so it is never more than 874 ms early, and late if and only if it had less than 250 ms to go |
| DecayWheel.WaitsThenDecays | src/game.cpp:4435-4597 | in every sequence of ticks, clean-ups and other items that start, an item that waits has decayed if and only if its tick has come, counted from when it is put away |
| DecayWheel.Game.StartDecay | src/game.cpp:4400-4418 | an item that is not decaying yet waits in the queue, or decays at once |
| DecayWheel.Game.InternalDecayItem | src/game.cpp:4420-4433 | the item becomes the next form that lasts, with that form's duration and the forms behind it still to come, and waits if it decays in turn; without one it is removed |
| DecayWheel.Game.CheckDecay | src/game.cpp:4435-4479 | an item whose tick has come has become its next lasting form, which is in a list if it decays, or is removed; every other item has its new duration and place and nothing else new; every item stays in one list at most, once |
| DecayWheel.Game.CheckDecays | src/game.cpp:4435-4479 | any number of ticks does to every item what its own ticks say |
| DecayWheel.Game.CleanupAndCheck | src/game.cpp:4435-4597 | of the items that wait, those decay within any number of ticks whose tick has come, and no others |
| DecayWheel.Game.Serve | src/game.cpp:4400-4597 | one event moves every item in the wheel as it moves that item alone; an item that decays turns into its next lasting form or is removed |
| DecayWheel.Game.Run | src/game.cpp:4400-4597 | over all sequences of ticks, clean-ups and items that start, every item follows its own events, and nothing but its duration changes until it decays |
| DecayWheel.Game.StartAndRun | src/game.cpp:4400-4597 | an item that starts to decay does so exactly when its tick has come, whatever starts meanwhile; until then it is in a list, with its own forms to come |
| DecayWheel.Game.StartAndTurn | src/game.cpp:4400-4597 | on the tick on which it decays it turns into its next lasting form, which decays if it is meant to, or is removed |
| DecayWheel.Game.LookAtOne | src/game.cpp:4441-4475 | the item stays or moves to the next bucket with less to go, turns into its next lasting form or is removed, or is dropped because it cannot decay any more |
| DecayWheel.Game.Cleanup | src/game.cpp:4589-4597 | the items that wait are put into the lists that their durations say |
| Trade.StartConsistent | src/game.cpp:2695-2725 | an offer keeps partners symmetric and the table of traded items exact |
| Trade.AcceptConsistent | src/game.cpp:2728-2750 | a first acceptance keeps them so |
| Trade.EndedConsistent | src/game.cpp:2921-2963 | and so does the end of a trade |
| Trade.AfterConsistent | src/game.cpp:2647-2963 | so every request keeps states, partners and traded items consistent |
| Trade.HandedRightly | src/game.cpp:2728-2790 | over all interleavings of requests, an item changes hands only in the step in which the second of two partners accepts, from its owner to his partner, when the other accepted before and stood by it, and each offered what is recorded for him, to the other, and stood by it |
| Trade.AcceptedSeen | src/game.cpp:2695-2750 | in every run, what the partner has on offer while an acceptance stands is what he had on offer when it was given if and only if he had offered something by then |
| Trade.AcceptedBlindly | src/game.cpp:2695-2750 | from two players who do not trade, one offers and accepts, the other then offers, accepts and hands over what the first had not seen |
| Trade.CloseFrees | src/game.cpp:2921-2963 | after a close both sides are free, their items are no longer being traded, nobody else is touched, and nothing is handed over |
| Trade.ClosedStays | src/game.cpp:2647-2963 | in every run, when a trade has been closed, neither side accepts, offers or hands over anything before somebody makes an offer to it or it makes one |
| Trade.OneSided | src/game.cpp:2784-2786 | from a consistent state with both offers made, the failing second move leaves one item handed over and the trade ended |
| Trade.Game.RequestTrade | src/game.cpp:2647-2692 | a trade starts if and only if the item is not being traded, lies in none that is and holds none, comes with at most 100 things, and neither side is engaged elsewhere; then the player has offered the item, the partner acknowledges if he was free and else stays as he was, and the item is in the table |
| Trade.Game.InternalStartTrade | src/game.cpp:2695-2725 | after an offer the player is the one who initiated, with partner and item; a free partner acknowledges; nobody else is touched |
| Trade.Game.AcceptTrade | src/game.cpp:2728-2821 | the first acceptance is noted; the second ends the trade for both sides and hands over, in this order and if the inventories agree, the one item and the other; without an offer to accept or out of reach nothing happens |
| Trade.Game.Transfer | src/game.cpp:2751-2820 | both sides forget the trade, whether or not the second move succeeds, and each move that succeeds is one handover |
| Trade.Game.CloseTrade | src/game.cpp:2921-2963 | both sides end in TRADE_NONE without partner or item, their items are no longer being traded, everybody else is as before, and nothing is handed over |
| Trade.Game.Run | src/game.cpp:2647-2963 | whatever is asked for, in whatever order and by whomever, the server goes through the moments of the specification, and what has been handed over is exactly what its steps give |
| Market.FindGoods | src/game.cpp:5188-5249 | the search succeeds if and only if there are enough units without odd attributes, and stops as soon as there are |
| Market.TakeGoods | src/game.cpp:5251-5266 | exactly the amount is taken, of that ware and of plain stacks only; all others are left alone |
| Market.CreateGoods | src/game.cpp:5310-5340 | exactly the amount is created, in stacks of 1 to 100, in front of what was there |
| Market.Market.CreateOffer | src/game.cpp:5119-5280 | an offer is created if and only if amount and price are in their limits, the player has not too many offers, and he can pay, or deliver and pay the fee; the fee is one per cent of price * amount, at least 20 and at most 1000; its owner is poorer by the fee, and nothing else appears or vanishes |
| Market.Market.CancelOffer | src/game.cpp:5288-5347 | an offer that matches goes if it is the player's own, and nobody is richer or poorer: what was paid for it comes back to its owner |
| Market.Market.AcceptOffer | src/game.cpp:5349-5578 | a matching offer is accepted unless it is too small or the player cannot pay or deliver; the seller has the gold for the accepted part, a buyer from a sell offer has paid it, the goods have gone the other way, the offer is smaller by the part or gone, and nobody else is touched |
| Market.Market.CheckExpired | src/game.cpp:5580-5648 | exactly the expired offers go, and nobody is richer or poorer: what was paid for them comes back to their owners |
| Market.Market.GetOfferByCounter | src/iomarket.cpp:154-183 | an offer with that time and those last 16 bits of its number, if there is one |
| Market.Market.Refund | src/game.cpp:5304-5342 | gold goes back to the owner's account, goods to his inbox, and nobody is richer or poorer |
| Market.Market.Run | src/game.cpp:5119-5648 | over every run of creating, accepting, cancelling and expiring, bank balances, paid-up offers and fees add up to the same, and so do owned and offered units of every ware |
| Market.OnlyOnes | src/game.cpp:5119-5648 | what the sums say of one player is his balance and the goods in his boxes |
| DamageList.GenerateDamageList | src/condition.cpp:1365-1384 | the hits never grow stronger, every strength from the start down to 1 occurs, and with each strength the sum comes as near to its share as its hits can bring it; they add up to at least the amount, to exactly the amount unless those above 1 reach it already, and so whenever start * start is at most the amount |
| DamageList.AddHits | src/condition.cpp:1375-1381 | hits are added while they bring the sum closer to the median, one in any case; it ends |
| DamageList.Level | src/condition.cpp:1371-1382 | after each strength the sum is at most half of it above the median |
| DamageList.LastLevel | src/condition.cpp:1371-1382 | the weakest hits bring the sum to the amount, if it is not there already |
| DamageList.ConditionDamage.AddDamage | src/condition.cpp:1106-1135 | rounds of hits are appended and the time grows with them, unless damage is periodic |
| DamageList.ConditionDamage.Init | src/condition.cpp:1137-1162 | the first hit is the one that was asked for, at most the greatest damage, or a twentieth of the amount; the hits fall from it to 1, as many of each as come nearest to its share, one for each interval; the total is at least the amount drawn, and the amount itself if the first hit's square is not above it |
| DamageList.ConditionDamage.GetTotalDamage | src/condition.cpp:1309-1321 | the total is what the hits add up to |
| CombatArea.Rotate | src/combat.cpp:1216-1252 | the rotation matrix turns offsets by 90, 180 and 270 degrees |
| CombatArea.CopyArea | src/combat.cpp:1213-1259 | every write is inside the output, which covers exactly the turned offsets of what the input covers |
| CombatArea.CreateArea | src/combat.cpp:1263-1294 | the cells marked 1 or 3 are covered, and the last one marked 2 or 3, or without any the first, is the centre |
| CombatArea.AreaCombat.SetupArea | src/combat.cpp:1296-1319 | SOUTH, EAST and WEST cover exactly the NORTH area turned by 180, 90 and 270 degrees |
| CombatArea.GetList | src/combat.cpp:1150-1179 | the listed tiles are exactly those that the area reaches around the target and that can be seen, each once |

## Left out

- Networking, MySQL, Lua scripts and XML: queries and hooks are parameters, absent, or agree.
- Item classes with behaviour of their own (doors, beds, teleports, trash holders, depots, the inbox as a container) and
  items with a unique id; the special ids that CreateItem replaces.
- Tiles, players and inventories as cylinders: the outermost containers of `ItemWorld` are taken to stand on a tile, so a
  parent that is null stands for the tile or for nowhere, and an item is removed exactly when it has no parent.
- Exchanging two inventory items (RET_NEEDEXCHANGE), the trade item that internalMoveItem guards, and browse fields.
- Memory release: an item that is merged away or removed leaves the set of live items, whoever holds a pointer to it.
- What the inventories answer when traded goods are moved: the answers are parameters, and a handover is recorded.
- Who may be asked to trade by distance and line of sight, and what players look at while they trade.
- Premium accounts, market history and statistics, offers of players that cannot be loaded, and wares whose item for
  handing out belongs to another ware. The nested boxes of a depot are one list, in the order in which they are searched.
- How goods from the market are stacked in the inbox: that is what `ItemMoves.InternalAddItem` is about.
- Bytes behind an id that makes no item: they are read as the next item, as the code does.
- Files of 2 GiB and more, opening a loader twice, and seeks beyond the end of a file, which depend on what is cached.
- Numbers that would wrap in runs of more than 2^31 items, and weights in floating point.
- Mirrored and flipped areas, whose centre is right for square input only; areas built from a length, a spread or a radius.
- An item in the decay wheel that somebody else transforms.
- MapSerialize.LoadItem: models items that are made anew, on a value, so pointer identity is not captured; stationary items
  that are loaded into what already lies on the tile, and the start of decaying, are not modelled.
- MapSerialize.LoadTileItems: says nothing of the items when one of them cannot be read.
- PlayerItems.LoadPlayerItems: asks for rows in which a container's number is below those of its contents, as saveItems
  writes them; items are values in a map, so that two pointers to one item cannot be told from a copy. An inventory slot
  takes the first of several items only, and the inbox puts what has a number from 0 to 99 into one list.
- FileLoader.FileLoader.ReadBytes: asks for a range inside the file, because outside it the loop does not end.
- ItemWorld.Item.QueryAdd: leaves out the test for the inbox, and the answer of a player or a tile as the top parent.
- ItemMoves.InternalMoveItem: leaves out the exchange of two items, the guard of the trade item, and cylinders that are no
  containers.
- Money.AddMoney: asks for an amount whose stacks come out between 1 and 100, as those of every amount that is paid exactly
  do, and pays into a container; players and tiles are not modelled.
- Money.RemoveMoney: takes from a container; players and tiles are not modelled.
- Trade.Game.RequestTrade: what holds what, and how much the item holds, comes with each request.
- Market.Market.CreateOffer: the fee is the exact hundredth of the price, where the code computes it in floating point.
- DamageList.GenerateDamageList: compares distances exactly, where the code divides in floating point, and its products do
  not wrap at 32 bits.
- DecayWheel.Game.InternalDecayItem: what an item turns into is a list of forms given with it.
- CombatArea.CreateArea: asks that no mark lies behind the last cell of the matrix, where the code would write beside it.
- CombatArea.AreaCombat.SetupArea: asks the same.
