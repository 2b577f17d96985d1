/** IOMapSerialize: an item and everything in it as bytes, and back.

    A container writes its contents last to first behind a count, and reads them by pushing each to the front.
    `LoadUndoesSave` says that reading gives the written tree with every item's attributes restored, in order,
    with the cached weights of all containers right, and leaves exactly what follows. */
module MapSerialize {
  import opened Bytes
  import opened Common
  import opened ItemCodec
  import opened ItemTree
  import opened PropStreams

  // ---------- writing ----------

  function SaveBytes(types: Types, x: Tree): Bytes {
    Le(2, x.props.id) + AttributesBytes(Attributes(types, x.props))
    + (if types(x.props.id).container then [ATTR_CONTAINER_ITEMS] + Le(4, |x.kids|) + SaveReversed(types, x.kids) else [])
    + [0]
  }

  function SaveReversed(types: Types, xs: seq<Tree>): Bytes {
    if xs == [] then []
    else SaveBytes(types, xs[|xs| - 1]) + SaveReversed(types, xs[..|xs| - 1])
  }

  // ---------- reading ----------

  // `None` stands for an id that makes no item: the bytes of such an item are not skipped.
  datatype LoadResult = LoadError | LoadOk(item: Option<Tree>, pos: nat)

  datatype KidsResult = KidsError | KidsOk(kids: seq<Tree>, weight: int, pos: nat)

  // What IOMapSerialize::loadItem makes of the bytes from `p` on, for an item that is made anew.
  function ReadItem(types: Types, s: Bytes, p: nat): (r: LoadResult)
    requires p <= |s|
    ensures r.LoadOk? ==> p + 2 <= r.pos <= |s|
    decreases |s| - p, 0
  {
    if p + 2 > |s| then LoadError
    else
      var id := LeValue(s[p..p + 2]);
      if !types(id).plain then LoadOk(None, p + 2)
      else match Unserialize(types, CreateItem(types, id, 0), s, p + 2)
        case Failed => LoadError
        case Loaded(x, count, q) =>
          if !types(id).container then LoadOk(Some(Tree(x, [], 0)), q)
          else match ReadKids(types, s, q, count, [], 0)
            case KidsError => LoadError
            case KidsOk(kids, weight, e) =>
              if e < |s| && s[e] == 0 then LoadOk(Some(Tree(x, kids, weight)), e + 1) else LoadError
  }

  // The loop of IOMapSerialize::loadContainer: `n` items are still to be read.
  function ReadKids(types: Types, s: Bytes, p: nat, n: nat, kids: seq<Tree>, weight: int): (r: KidsResult)
    requires p <= |s|
    ensures r.KidsOk? ==> p <= r.pos <= |s|
    decreases |s| - p, 1, n
  {
    if n == 0 then KidsOk(kids, weight, p)
    else match ReadItem(types, s, p)
      case LoadError => KidsError
      case LoadOk(None, q) => ReadKids(types, s, q, n - 1, kids, weight)
      case LoadOk(Some(x), q) => ReadKids(types, s, q, n - 1, [x] + kids, weight + Weight(types, x))
  }

  // ---------- reading undoes writing ----------

  // What saving relies on: items of plain types with strings and counts that fit their length fields, and
  // contents in containers only.
  predicate Storable(types: Types, x: Tree) {
    && types(x.props.id).plain && WellTyped(x.props) && ShortStrings(x.props)
    && (types(x.props.id).container || x.kids == []) && |x.kids| < 0x1_0000_0000
    && forall k <- x.kids :: Storable(types, k)
  }

  // The tree with every item restored and every cached weight made right.
  function RestoredItem(types: Types, x: Tree): Tree {
    var kids := RestoredItems(types, x.kids);
    Tree(Restored(types, x.props), kids, WeightSum(types, kids))
  }

  function RestoredItems(types: Types, xs: seq<Tree>): (ys: seq<Tree>)
    ensures |ys| == |xs|
  {
    if xs == [] then [] else [RestoredItem(types, xs[0])] + RestoredItems(types, xs[1..])
  }

  lemma {:induction false} RestoredAppend(types: Types, xs: seq<Tree>, ys: seq<Tree>)
    ensures RestoredItems(types, xs + ys) == RestoredItems(types, xs) + RestoredItems(types, ys)
  {
    if xs == [] {
      assert xs + ys == ys;
    } else {
      assert (xs + ys)[1..] == xs[1..] + ys;
      RestoredAppend(types, xs[1..], ys);
    }
  }

  // Reading the reversed contents, each to the front, gives them in order.
  lemma {:induction false} KidsRoundTrip(types: Types, xs: seq<Tree>, done: seq<Tree>, s: Bytes, p: nat)
    requires forall k <- xs :: Storable(types, k)
    requires CarriesAt(s, p, SaveReversed(types, xs))
    ensures ReadKids(types, s, p, |xs|, done, WeightSum(types, done))
      == KidsOk(RestoredItems(types, xs) + done, WeightSum(types, RestoredItems(types, xs) + done),
                p + |SaveReversed(types, xs)|)
    decreases xs
  {
    hide CarriesAt, ReadItem, SaveBytes, Storable, RestoredItem, RestoredItems, Weight, WeightSum, ReadKids;
    if xs == [] {
      NothingToRead(types, s, p, done);
    } else {
      var n := |xs| - 1;
      var y := RestoredItem(types, xs[n]);
      CarriesAppend(s, p, SaveBytes(types, xs[n]), SaveReversed(types, xs[..n]));
      LoadUndoesSave(types, xs[n], s, p);
      LastRead(types, xs, y, done, s, p);
      KidsRoundTrip(types, xs[..n], [y] + done, s, p + |SaveBytes(types, xs[n])|);
      LastRestored(types, xs, done);
    }
  }

  lemma LastRestored(types: Types, xs: seq<Tree>, done: seq<Tree>)
    requires xs != []
    ensures var n := |xs| - 1;
      RestoredItems(types, xs) + done == RestoredItems(types, xs[..n]) + ([RestoredItem(types, xs[n])] + done)
  {
    hide RestoredItem, RestoredItems;
    var front, last := xs[..|xs| - 1], xs[|xs| - 1];
    SplitLast(xs);
    RestoredSnoc(types, front, last);
    Regroup(RestoredItems(types, front), [RestoredItem(types, last)], done);
  }

  lemma NothingToRead(types: Types, s: Bytes, p: nat, done: seq<Tree>)
    requires CarriesAt(s, p, SaveReversed(types, []))
    ensures RestoredItems(types, []) + done == done && SaveReversed(types, []) == []
    ensures ReadKids(types, s, p, 0, done, WeightSum(types, done)) == KidsOk(done, WeightSum(types, done), p)
  {
    assert [] + done == done;
  }

  // The last item is read first.
  lemma LastRead(types: Types, xs: seq<Tree>, y: Tree, done: seq<Tree>, s: Bytes, p: nat)
    requires xs != [] && p + |SaveBytes(types, xs[|xs| - 1])| <= |s|
    requires ReadItem(types, s, p) == LoadOk(Some(y), p + |SaveBytes(types, xs[|xs| - 1])|)
    ensures ReadKids(types, s, p, |xs|, done, WeightSum(types, done))
      == ReadKids(types, s, p + |SaveBytes(types, xs[|xs| - 1])|, |xs| - 1, [y] + done, WeightSum(types, [y] + done))
  {
    hide ReadItem, SaveBytes, Weight;
    assert [y] + done != [] && ([y] + done)[0] == y && ([y] + done)[1..] == done;
  }

  lemma RestoredSnoc(types: Types, xs: seq<Tree>, x: Tree)
    ensures RestoredItems(types, xs + [x]) == RestoredItems(types, xs) + [RestoredItem(types, x)]
  {
    hide RestoredItem, RestoredItems;
    RestoredAppend(types, xs, [x]);
    RestoredOne(types, x);
  }

  lemma RestoredOne(types: Types, x: Tree)
    ensures RestoredItems(types, [x]) == [RestoredItem(types, x)]
  {
    hide RestoredItem;
    assert [x][1..] == [];
  }

  // The end of an item's attributes: an end byte, or the count of a container's contents.
  lemma UnserializeEnd(types: Types, x: Props, s: Bytes, q: nat, n: nat)
    requires n < 0x1_0000_0000
    requires if types(x.id).container then CarriesAt(s, q, [ATTR_CONTAINER_ITEMS] + Le(4, n)) else CarriesAt(s, q, [0])
    ensures Unserialize(types, x, s, q)
      == if types(x.id).container then Loaded(x, n, q + 5) else Loaded(x, 0, q + 1)
  {
    if types(x.id).container {
      CarriesAppend(s, q, [ATTR_CONTAINER_ITEMS], Le(4, n));
      CarriedSlice(s, q, [ATTR_CONTAINER_ITEMS]);
      CarriedSlice(s, q + 1, Le(4, n));
      assert Pow256(2) == 0x1_0000 && Pow256(4) == 0x1_0000 * Pow256(2);
      LeRoundTrip(4, n);
      assert s[q] == s[q..q + 1][0];
    } else {
      CarriedSlice(s, q, [0]);
      assert s[q] == s[q..q + 1][0];
    }
  }

  // The pieces of a saved item, in place.
  lemma CarriesItem(types: Types, x: Tree, s: Bytes, p: nat)
    requires CarriesAt(s, p, SaveBytes(types, x)) && x.props.id < 0x1_0000
    ensures var attrs := AttributesBytes(Attributes(types, x.props));
      var q := p + 2 + |attrs|;
      && p + 2 <= |s| && LeValue(s[p..p + 2]) == x.props.id && CarriesAt(s, p + 2, attrs)
      && if types(x.props.id).container then
           var e := q + 5 + |SaveReversed(types, x.kids)|;
           && CarriesAt(s, q, [ATTR_CONTAINER_ITEMS] + Le(4, |x.kids|))
           && CarriesAt(s, q + 5, SaveReversed(types, x.kids))
           && e < |s| && s[e] == 0 && e + 1 == p + |SaveBytes(types, x)|
         else CarriesAt(s, q, [0]) && q + 1 == p + |SaveBytes(types, x)|
  {
    hide CarriesAt, SaveReversed, AttributesBytes, Attributes;
    var attrs := AttributesBytes(Attributes(types, x.props));
    var count := [ATTR_CONTAINER_ITEMS] + Le(4, |x.kids|);
    var kids := SaveReversed(types, x.kids);
    var contents := if types(x.props.id).container then count + kids else [];
    assert SaveBytes(types, x) == Le(2, x.props.id) + attrs + contents + [0];
    CarriesAppend(s, p, Le(2, x.props.id) + attrs + contents, [0]);
    CarriesAppend(s, p, Le(2, x.props.id) + attrs, contents);
    CarriesAppend(s, p, Le(2, x.props.id), attrs);
    CarriedSlice(s, p, Le(2, x.props.id));
    assert Pow256(2) == 0x1_0000;
    LeRoundTrip(2, x.props.id);
    var e := p + 2 + |attrs| + |contents|;
    CarriedSlice(s, e, [0]);
    assert s[e..e + 1][0] == s[e];
    if types(x.props.id).container {
      CarriesAppend(s, p + 2 + |attrs|, count, kids);
    }
  }

  lemma {:induction false} LoadUndoesSave(types: Types, x: Tree, s: Bytes, p: nat)
    requires Storable(types, x)
    requires CarriesAt(s, p, SaveBytes(types, x))
    ensures ReadItem(types, s, p) == LoadOk(Some(RestoredItem(types, x)), p + |SaveBytes(types, x)|)
    decreases x
  {
    hide CarriesAt, SaveBytes, AttributesBytes, Attributes, Unserialize, CreateItem, ReadKids, SaveReversed;
    var q := p + 2 + |AttributesBytes(Attributes(types, x.props))|;
    CarriesItem(types, x, s, p);
    AttributesRoundTrip(types, x.props, s, p + 2);
    UnserializeEnd(types, Restored(types, x.props), s, q, |x.kids|);
    if types(x.props.id).container {
      KidsRoundTrip(types, x.kids, [], s, q + 5);
      assert RestoredItems(types, x.kids) + [] == RestoredItems(types, x.kids);
    }
  }

  // The cached weights of what is read are right, whatever was cached before.
  lemma {:induction false} RestoredWeights(types: Types, x: Tree)
    ensures WeightsRight(types, RestoredItem(types, x))
    ensures Weight(types, RestoredItem(types, x)) == TrueWeight(types, RestoredItem(types, x))
    decreases x
  {
    RestoredKidsWeights(types, x.kids);
  }

  lemma {:induction false} RestoredKidsWeights(types: Types, xs: seq<Tree>)
    ensures forall k <- RestoredItems(types, xs) :: WeightsRight(types, k)
    ensures WeightSum(types, RestoredItems(types, xs)) == TrueWeights(types, RestoredItems(types, xs))
    decreases xs
  {
    if xs != [] {
      RestoredWeights(types, xs[0]);
      RestoredKidsWeights(types, xs[1..]);
      var ys := RestoredItems(types, xs);
      assert ys[1..] == RestoredItems(types, xs[1..]);
    }
  }

  // Items come back one by one, in order.
  lemma {:induction false} RestoredAt(types: Types, xs: seq<Tree>, i: nat)
    requires i < |xs|
    ensures RestoredItems(types, xs)[i] == RestoredItem(types, xs[i])
    decreases i
  {
    if i > 0 {
      RestoredAt(types, xs[1..], i - 1);
    }
  }

  predicate AllOrdinary(types: Types, x: Tree) {
    OrdinaryItem(types, x.props) && forall k <- x.kids :: AllOrdinary(types, k)
  }

  // A tree comes back as it was just if every item in it is ordinary and the cached weights are right.
  lemma {:induction false} TreeComesBack(types: Types, x: Tree)
    requires Storable(types, x)
    ensures RestoredItem(types, x) == x <==> AllOrdinary(types, x) && WeightsRight(types, x)
    decreases x
  {
    hide Restored, OrdinaryItem, WellTyped, ShortStrings, RestoredItems, Weight, WeightSum, TrueWeights;
    ComesBack(types, x.props);
    var kids := RestoredItems(types, x.kids);
    forall i: nat | i < |x.kids|
      ensures kids[i] == RestoredItem(types, x.kids[i])
      ensures kids[i] == x.kids[i] <==> AllOrdinary(types, x.kids[i]) && WeightsRight(types, x.kids[i])
    {
      RestoredAt(types, x.kids, i);
      TreeComesBack(types, x.kids[i]);
    }
    assert kids == x.kids <==> forall i :: 0 <= i < |x.kids| ==> kids[i] == x.kids[i];
    RestoredKidsWeights(types, x.kids);
  }

  // Whatever the bytes: what is read from them can be saved, and its cached weights are right.
  lemma {:induction false} ReadStorable(types: Types, s: Bytes, p: nat)
    requires p <= |s|
    ensures var r := ReadItem(types, s, p);
      r.LoadOk? && r.item.Some? ==> Storable(types, r.item.value) && WeightsRight(types, r.item.value)
    decreases |s| - p, 0
  {
    hide Unserialize, CreateItem, WellTyped, ShortStrings, ReadKids, LeValue, Weight;
    if p + 2 <= |s| {
      var id := LeValue(s[p..p + 2]);
      PowersOf256();
      LeBound(s[p..p + 2]);
      NewTyped(types, id);
      ReadTyped(types, CreateItem(types, id, 0), s, p + 2);
      ReadShort(types, CreateItem(types, id, 0), s, p + 2);
      var r := Unserialize(types, CreateItem(types, id, 0), s, p + 2);
      if r.Loaded? {
        ReadKidsStorable(types, s, r.pos, r.count, [], 0);
      }
    }
  }

  lemma {:induction false} ReadKidsStorable(types: Types, s: Bytes, p: nat, n: nat, done: seq<Tree>, weight: int)
    requires p <= |s| && weight == TrueWeights(types, done)
    requires forall k <- done :: Storable(types, k) && WeightsRight(types, k)
    ensures var r := ReadKids(types, s, p, n, done, weight);
      r.KidsOk? ==>
      && |r.kids| <= n + |done| && r.weight == TrueWeights(types, r.kids)
      && forall k <- r.kids :: Storable(types, k) && WeightsRight(types, k)
    decreases |s| - p, 1, n
  {
    hide Storable, ReadItem;
    if n > 0 {
      ReadStorable(types, s, p);
      var r := ReadItem(types, s, p);
      if r.LoadOk? {
        var done' := if r.item.Some? then [r.item.value] + done else done;
        var weight' := if r.item.Some? then weight + Weight(types, r.item.value) else weight;
        assert r.item.Some? ==> done'[0] == r.item.value && done'[1..] == done;
        ReadKidsStorable(types, s, r.pos, n - 1, done', weight');
      }
    }
  }

  // An id comes first, and nothing else of an unknown one. A container ends with an end byte, other items are empty.
  lemma ItemShape(types: Types, s: Bytes, p: nat)
    requires p <= |s|
    ensures p + 2 > |s| ==> ReadItem(types, s, p) == LoadError
    ensures p + 2 <= |s| && !types(LeValue(s[p..p + 2])).plain ==> ReadItem(types, s, p) == LoadOk(None, p + 2)
    ensures var r := ReadItem(types, s, p);
      r.LoadOk? && r.item.Some? ==>
      var x := r.item.value;
      && x.props.id == LeValue(s[p..p + 2]) && types(x.props.id).plain
      && if types(x.props.id).container then s[r.pos - 1] == 0 else x.kids == []
  {
    hide Unserialize, CreateItem, WellTyped, ReadKids, LeValue;
    if p + 2 <= |s| {
      var id := LeValue(s[p..p + 2]);
      PowersOf256();
      LeBound(s[p..p + 2]);
      NewTyped(types, id);
      ReadTyped(types, CreateItem(types, id, 0), s, p + 2);
    }
  }

  // ---------- the methods ----------

  method SaveItem(types: Types, x: Tree, stream: PropWriteStream)
    requires stream.Valid()
    modifies stream, stream.buffer
    ensures stream.Valid() && stream.Contents() == old(stream.Contents()) + SaveBytes(types, x)
    ensures stream.buffer == old(stream.buffer) || fresh(stream.buffer)
    decreases x
  {
    hide PropWriteStream.Valid, PropWriteStream.Contents, AttributesBytes, Attributes, SaveReversed, SaveBytes, Le;
    ghost var base := stream.Contents();
    stream.AddNumber(2, x.props.id);
    SerializeAttr(types, x.props, stream);
    ghost var head := Le(2, x.props.id) + AttributesBytes(Attributes(types, x.props));
    Regroup(base, Le(2, x.props.id), AttributesBytes(Attributes(types, x.props)));
    NothingMore(base + head);
    ghost var contents := [];
    if types(x.props.id).container {
      stream.Add([ATTR_CONTAINER_ITEMS]);
      stream.AddNumber(4, |x.kids|);
      contents := [ATTR_CONTAINER_ITEMS] + Le(4, |x.kids|) + SaveReversed(types, x.kids);
      Regroup(base + head, [ATTR_CONTAINER_ITEMS], Le(4, |x.kids|));
      Regroup(base + head, [ATTR_CONTAINER_ITEMS] + Le(4, |x.kids|), SaveReversed(types, x.kids));
      SaveKids(types, x, stream);
    }
    stream.Add([0]);
    SavedTogether(types, x, base, head, contents);
  }

  lemma SavedTogether(types: Types, x: Tree, base: Bytes, head: Bytes, contents: Bytes)
    requires head == Le(2, x.props.id) + AttributesBytes(Attributes(types, x.props))
    requires contents == if types(x.props.id).container
                         then [ATTR_CONTAINER_ITEMS] + Le(4, |x.kids|) + SaveReversed(types, x.kids) else []
    ensures base + head + contents + [0] == base + SaveBytes(types, x)
  {
    hide Le, AttributesBytes, Attributes, SaveReversed;
    Regroup(base, head, contents);
    Regroup(base, head + contents, [0]);
  }

  // The loop over the contents, last to first.
  method SaveKids(types: Types, x: Tree, stream: PropWriteStream)
    requires stream.Valid()
    modifies stream, stream.buffer
    ensures stream.Valid() && stream.Contents() == old(stream.Contents()) + SaveReversed(types, x.kids)
    ensures stream.buffer == old(stream.buffer) || fresh(stream.buffer)
    decreases x, 0
  {
    hide PropWriteStream.Valid, PropWriteStream.Contents, SaveBytes;
    ghost var all := stream.Contents() + SaveReversed(types, x.kids);
    var i := |x.kids|;
    assert x.kids[..i] == x.kids;
    while i > 0
      invariant 0 <= i <= |x.kids|
      invariant stream.Valid() && stream.Contents() + SaveReversed(types, x.kids[..i]) == all
      invariant stream.buffer == old(stream.buffer) || fresh(stream.buffer)
    {
      ghost var before, rest := stream.Contents(), SaveReversed(types, x.kids[..i - 1]);
      assert x.kids[..i][..i - 1] == x.kids[..i - 1];
      i := i - 1;
      SaveItem(types, x.kids[i], stream);
      assert before + (SaveBytes(types, x.kids[i]) + rest) == before + SaveBytes(types, x.kids[i]) + rest;
    }
  }

  method LoadItem(types: Types, stream: PropStream) returns (r: LoadResult)
    requires stream.Valid()
    modifies stream`p
    ensures stream.Valid()
    ensures r == ReadItem(types, stream.data, old(stream.p))
    ensures r.LoadOk? ==> stream.p == r.pos
    ensures r.LoadOk? ==> (r.item.None? <==> !types(LeValue(stream.data[old(stream.p)..old(stream.p) + 2])).plain)
    ensures r.LoadOk? && r.item.Some? && types(r.item.value.props.id).container ==> stream.data[stream.p - 1] == 0
    decreases |stream.data| - stream.p, 0
  {
    hide Unserialize, CreateItem;
    ItemShape(types, stream.data, stream.p);
    var ok, id := stream.GetNumber(2);
    if !ok {
      return LoadError;
    }
    if !types(id).plain {
      return LoadOk(None, stream.p);
    }
    var loaded := UnserializeAttr(types, CreateItem(types, id, 0), stream);
    if loaded.Failed? {
      return LoadError;
    }
    if !types(id).container {
      return LoadOk(Some(Tree(loaded.x, [], 0)), stream.p);
    }
    r := LoadContainer(types, loaded.x, loaded.count, stream);
  }

  // `serializationCount` items, then an end byte.
  method LoadContainer(types: Types, x: Props, count: nat, stream: PropStream) returns (r: LoadResult)
    requires stream.Valid()
    modifies stream`p
    ensures stream.Valid()
    ensures r == match ReadKids(types, stream.data, old(stream.p), count, [], 0)
      case KidsError => LoadError
      case KidsOk(kids, weight, e) =>
        if e < |stream.data| && stream.data[e] == 0 then LoadOk(Some(Tree(x, kids, weight)), e + 1) else LoadError
    ensures r.LoadOk? ==> stream.p == r.pos
    decreases |stream.data| - stream.p, 1
  {
    hide ReadItem;
    var kids: seq<Tree>, totalWeight, serializationCount := [], 0, count;
    while serializationCount > 0
      invariant stream.Valid() && old(stream.p) <= stream.p
      invariant ReadKids(types, stream.data, old(stream.p), count, [], 0)
        == ReadKids(types, stream.data, stream.p, serializationCount, kids, totalWeight)
      decreases serializationCount
    {
      var one := LoadItem(types, stream);
      if one.LoadError? {
        return LoadError;
      }
      if one.item.Some? {
        kids := [one.item.value] + kids;
        totalWeight := totalWeight + Weight(types, one.item.value);
      }
      serializationCount := serializationCount - 1;
    }
    var ok, endAttr := stream.GetNumber(1);
    if !ok || endAttr != 0 {
      return LoadError;
    }
    r := LoadOk(Some(Tree(x, kids, totalWeight)), stream.p);
  }

  // An item saved to a new stream and loaded again comes back restored, with its contents and their order.
  method SaveAndLoad(types: Types, x: Tree) returns (r: LoadResult)
    requires Storable(types, x)
    ensures r.LoadOk? && r.item == Some(RestoredItem(types, x))
  {
    var out := new PropWriteStream();
    SaveItem(types, x, out);
    var stream := new PropStream(out.buffer[..out.size]);
    assert CarriesAt(stream.data, 0, SaveBytes(types, x));
    LoadUndoesSave(types, x, stream.data, 0);
    r := LoadItem(types, stream);
  }

  // ---------- the movable items on a tile ----------

  // What of a tile is saved, in its order
  function Saved(items: seq<Tree>, keep: Tree -> bool): (kept: seq<Tree>)
    ensures forall x :: x in kept <==> x in items && keep(x)
  {
    if items == [] then []
    else (if keep(items[0]) then [items[0]] else []) + Saved(items[1..], keep)
  }

  // The bytes of a tile: where it is, how many items follow, and the items last to first
  function TileBytes(types: Types, x: nat, y: nat, z: nat, kept: seq<Tree>): Bytes {
    if kept == [] then [] else Le(2, x) + Le(2, y) + Le(1, z) + Le(4, |kept|) + SaveReversed(types, kept)
  }

  function Reversed(xs: seq<Tree>): seq<Tree> {
    if xs == [] then [] else [xs[|xs| - 1]] + Reversed(xs[..|xs| - 1])
  }

  lemma {:induction false} ReversedFront(xs: seq<Tree>, x: Tree)
    ensures Reversed(xs + [x]) == [x] + Reversed(xs)
  {
    assert (xs + [x])[..|xs|] == xs;
  }

  // The items to be saved are collected front first, which turns them round.
  method CollectSaved(items: seq<Tree>, keep: Tree -> bool) returns (kept: seq<Tree>, count: nat)
    ensures kept == Reversed(Saved(items, keep)) && count == |Saved(items, keep)|
  {
    hide Saved, Reversed;
    kept, count := [], 0;
    ghost var forwards: seq<Tree> := [];
    var i := 0;
    NoneSaved(items, keep);
    while i < |items|
      invariant 0 <= i <= |items| && kept == Reversed(forwards) && count == |forwards|
      invariant forwards + Saved(items[i..], keep) == Saved(items, keep)
    {
      SavedNext(items, keep, i, forwards);
      if keep(items[i]) {
        ReversedFront(forwards, items[i]);
        forwards := forwards + [items[i]];
        kept := [items[i]] + kept;
        count := count + 1;
      }
      i := i + 1;
    }
    assert items[i..] == [] && forwards + [] == forwards;
  }

  lemma NoneSaved(items: seq<Tree>, keep: Tree -> bool)
    ensures Reversed([]) == [] && Saved([], keep) == [] && [] + Saved(items[0..], keep) == Saved(items, keep)
  {
    assert items[0..] == items && [] + Saved(items, keep) == Saved(items, keep);
  }

  lemma SavedNext(items: seq<Tree>, keep: Tree -> bool, i: nat, before: seq<Tree>)
    requires i < |items|
    ensures before + Saved(items[i..], keep)
      == (if keep(items[i]) then before + [items[i]] else before) + Saved(items[i + 1..], keep)
  {
    var rest := Saved(items[i + 1..], keep);
    assert items[i..][1..] == items[i + 1..];
    assert before + ([items[i]] + rest) == before + [items[i]] + rest && before + ([] + rest) == before + rest;
  }

  // IOMapSerialize::saveTile
  method SaveTile(types: Types, x: nat, y: nat, z: nat, items: seq<Tree>, keep: Tree -> bool, stream: PropWriteStream)
    requires stream.Valid() && |items| < 0x1_0000
    modifies stream, stream.buffer
    ensures stream.Valid() && stream.Contents() == old(stream.Contents()) + TileBytes(types, x, y, z, Saved(items, keep))
    ensures stream.buffer == old(stream.buffer) || fresh(stream.buffer)
  {
    hide PropWriteStream.Valid, PropWriteStream.Contents, SaveReversed, Saved, Reversed;
    ghost var base, forwards := stream.Contents(), Saved(items, keep);
    var kept, count := CollectSaved(items, keep);
    ReversedEmpty(forwards);
    if kept != [] {
      stream.AddNumber(2, x);
      stream.AddNumber(2, y);
      stream.AddNumber(1, z);
      stream.AddNumber(4, count);
      ghost var head := Le(2, x) + Le(2, y) + Le(1, z) + Le(4, count);
      TileHead(base, Le(2, x), Le(2, y), Le(1, z), Le(4, count));
      SaveEach(types, kept, forwards, stream);
      Regroup(base, head, SaveReversed(types, forwards));
    } else {
      NothingMore(base);
    }
  }

  lemma ReversedEmpty(xs: seq<Tree>)
    ensures Reversed(xs) == [] <==> xs == []
  {}

  // The items one after the other, the list having been turned round
  method SaveEach(types: Types, kept: seq<Tree>, ghost forwards: seq<Tree>, stream: PropWriteStream)
    requires stream.Valid() && kept == Reversed(forwards)
    modifies stream, stream.buffer
    ensures stream.Valid() && stream.Contents() == old(stream.Contents()) + SaveReversed(types, forwards)
    ensures stream.buffer == old(stream.buffer) || fresh(stream.buffer)
  {
    hide PropWriteStream.Valid, PropWriteStream.Contents, SaveBytes;
    ghost var all, left := stream.Contents() + SaveReversed(types, forwards), forwards;
    var i := 0;
    while i < |kept|
      invariant 0 <= i <= |kept| && kept[i..] == Reversed(left)
      invariant stream.Valid() && stream.Contents() + SaveReversed(types, left) == all
      invariant stream.buffer == old(stream.buffer) || fresh(stream.buffer)
    {
      ReversedEmpty(left);
      ghost var before, rest := stream.Contents(), left[..|left| - 1];
      assert kept[i] == kept[i..][0] && kept[i + 1..] == kept[i..][1..] == Reversed(rest);
      SaveItem(types, kept[i], stream);
      assert before + (SaveBytes(types, kept[i]) + SaveReversed(types, rest)) == before + SaveBytes(types, kept[i]) + SaveReversed(types, rest);
      left := rest;
      i := i + 1;
    }
    ReversedEmpty(left);
    assert stream.Contents() + [] == stream.Contents();
  }

  lemma TileHead(base: Bytes, a: Bytes, b: Bytes, c: Bytes, d: Bytes)
    ensures base + a + b + c + d == base + (a + b + c + d)
  {}

  // The inner loop of IOMapSerialize::loadMap on a tile that movable items are put on: each goes below what is there.
  method LoadTileItems(types: Types, count: nat, stream: PropStream) returns (items: seq<Tree>)
    requires stream.Valid()
    modifies stream`p
    ensures stream.Valid()
    ensures var r := ReadKids(types, stream.data, old(stream.p), count, [], 0);
      r.KidsOk? ==> items == r.kids && stream.p == r.pos
  {
    hide ReadItem;
    items := [];
    ghost var weight := 0;
    ghost var fine, all := true, ReadKids(types, stream.data, stream.p, count, [], 0);
    var left := count;
    while left > 0
      invariant stream.Valid()
      invariant all.KidsOk? ==> fine
      invariant fine ==> all == ReadKids(types, stream.data, stream.p, left, items, weight)
    {
      var one := LoadItem(types, stream);
      if one.LoadError? {
        fine := false;
      } else if one.item.Some? {
        items := [one.item.value] + items;
        weight := weight + Weight(types, one.item.value);
      }
      left := left - 1;
    }
  }

  lemma TileParts(types: Types, x: nat, y: nat, z: nat, kept: seq<Tree>, data: Bytes)
    requires data == TileBytes(types, x, y, z, kept) && (forall k <- kept :: Storable(types, k))
    requires x < 0x1_0000 && y < 0x1_0000 && z < 0x100 && |kept| < 0x1_0000
    ensures kept == [] ==> data == [] && RestoredItems(types, kept) == []
    ensures kept != [] ==> |data| >= 9 && LeValue(data[0..2]) == x && LeValue(data[2..4]) == y
    ensures kept != [] ==> LeValue(data[4..5]) == z && LeValue(data[5..9]) == |kept|
    ensures kept != [] ==> var r := ReadKids(types, data, 9, |kept|, [], 0);
      r.KidsOk? && r.kids == RestoredItems(types, kept)
  {
    hide SaveReversed, ReadKids, CarriesAt, Storable, RestoredItems, Le, LeValue, Pow256, WeightSum;
    RestoredNothing(types);
    if kept != [] {
      var e := SaveReversed(types, kept);
      PowersOf256();
      HeadCarried(data, Le(2, x), Le(2, y), Le(1, z), Le(4, |kept|), e);
      LeRoundTrip(2, x);
      LeRoundTrip(2, y);
      LeRoundTrip(1, z);
      LeRoundTrip(4, |kept|);
      KidsRoundTrip(types, kept, [], data, 9);
      NothingMore(RestoredItems(types, kept));
    }
  }

  // The four numbers in front, and what follows
  lemma HeadCarried(data: Bytes, a: Bytes, b: Bytes, c: Bytes, d: Bytes, e: Bytes)
    requires data == a + b + c + d + e && |a| == 2 && |b| == 2 && |c| == 1 && |d| == 4
    ensures |data| >= 9 && data[0..2] == a && data[2..4] == b && data[4..5] == c && data[5..9] == d
    ensures CarriesAt(data, 9, e)
  {
    hide CarriesAt;
    WholeCarried(data);
    CarriesAppend(data, 0, a + b + c + d, e);
    CarriesAppend(data, 0, a + b + c, d);
    CarriesAppend(data, 0, a + b, c);
    CarriesAppend(data, 0, a, b);
    CarriedSlice(data, 0, a);
    CarriedSlice(data, 2, b);
    CarriedSlice(data, 4, c);
    CarriedSlice(data, 5, d);
  }

  lemma RestoredNothing(types: Types)
    ensures RestoredItems(types, []) == [] && WeightSum(types, []) == 0
  {}

  lemma WholeCarried(data: Bytes)
    ensures CarriesAt(data, 0, data)
  {}

  // One item is saved or not, whatever else lies there, and the order is kept.
  lemma {:induction false} SavedSplits(a: seq<Tree>, b: seq<Tree>, keep: Tree -> bool)
    ensures Saved(a + b, keep) == Saved(a, keep) + Saved(b, keep)
    ensures forall x :: Saved([x], keep) == if keep(x) then [x] else []
    decreases |a|
  {
    if a == [] {
      assert a + b == b;
    } else {
      assert (a + b)[1..] == a[1..] + b;
      SavedSplits(a[1..], b, keep);
      Regroup(if keep(a[0]) then [a[0]] else [], Saved(a[1..], keep), Saved(b, keep));
    }
  }

  lemma {:induction false} SavedFewer(items: seq<Tree>, keep: Tree -> bool)
    ensures |Saved(items, keep)| <= |items|
    decreases |items|
  {
    if items != [] {
      SavedFewer(items[1..], keep);
    }
  }

  // A tile saved and loaded again has its saved items back, restored and in order.
  method SaveAndLoadTile(types: Types, x: nat, y: nat, z: nat, items: seq<Tree>, keep: Tree -> bool)
    returns (where: (nat, nat, nat), loaded: seq<Tree>)
    requires |items| < 0x1_0000 && x < 0x1_0000 && y < 0x1_0000 && z < 0x100
    requires forall k <- Saved(items, keep) :: Storable(types, k)
    ensures loaded == RestoredItems(types, Saved(items, keep))
    ensures Saved(items, keep) != [] ==> where == (x, y, z)
  {
    hide SaveReversed, ReadKids, Storable, RestoredItems, TileBytes, LeValue, Le;
    var out := new PropWriteStream();
    SaveTile(types, x, y, z, items, keep, out);
    var stream := new PropStream(out.buffer[..out.size]);
    ghost var kept := Saved(items, keep);
    SavedFewer(items, keep);
    where, loaded := (0, 0, 0), [];
    TileParts(types, x, y, z, kept, stream.data);
    var okX, gotX := stream.GetNumber(2);
    var okY, gotY := stream.GetNumber(2);
    var okZ, gotZ := stream.GetNumber(1);
    var ok, count := stream.GetNumber(4);
    if okX && okY && okZ && ok {
      where := (gotX, gotY, gotZ);
      loaded := LoadTileItems(types, count, stream);
    }
  }
}
