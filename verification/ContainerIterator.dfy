/** ContainerIterator: a walk through everything in a container, level by level.

    The iterator keeps a queue of containers and a place in the first of them. `VisitsAll` says that a whole walk meets
    exactly the items that are inside, at any depth and each once, so that counting and searching with the iterator are
    right. */
module ContainerIterator {
  import opened Common
  import opened ItemWorld

  // What lies in some containers, one after the other
  function Lists(w: World, cs: seq<Item>): seq<Item>
    requires forall c <- cs :: c in w
  {
    if cs == [] then [] else Lists(w, cs[..|cs| - 1]) + w[cs[|cs| - 1]].list
  }

  lemma {:induction false} InLists(w: World, cs: seq<Item>, x: Item)
    requires forall c <- cs :: c in w
    ensures x in Lists(w, cs) <==> exists c <- cs :: x in w[c].list
    decreases |cs|
  {
    if cs != [] {
      var front, last := cs[..|cs| - 1], cs[|cs| - 1];
      InLists(w, front, x);
      assert forall c :: c in cs <==> c in front || c == last;
    }
  }

  // What has been visited when the lists of the first `done` containers of the queue have been walked through, and `cur`
  // items of the next
  function VisitedBy(w: World, queued: seq<Item>, done: nat, cur: nat): seq<Item>
    requires done <= |queued| && forall c <- queued :: c in w
    requires done < |queued| ==> cur <= |w[queued[done]].list|
  {
    Lists(w, queued[..done]) + if done < |queued| then w[queued[done]].list[..cur] else []
  }

  // `queued` are the containers with something in them that the walk has met, the container itself first.
  ghost predicate Walk(w: World, root: Item, queued: seq<Item>, done: nat, cur: nat) {
    && root in w && NoRepeats(queued) && done <= |queued|
    && (forall c <- queued :: c in w && w[c].list != [])
    && (done < |queued| ==> cur < |w[queued[done]].list|)
    && var visited := VisitedBy(w, queued, done, cur);
       && NoRepeats(visited)
       && (forall x <- visited :: x in w && Inside(w, root, x))
       && (forall c <- queued :: c == root || c in visited)
       && (forall x <- visited :: w[x].list != [] ==> x in queued)
       && (w[root].list != [] ==> root in queued)
  }

  lemma WalkStarts(w: World, root: Item)
    requires Linked(w) && root in w
    ensures var queued := if w[root].list != [] then [root] else [];
      Walk(w, root, queued, 0, 0) && VisitedBy(w, queued, 0, 0) == []
  {}

  // The item at the place has not been visited; it lies in a container that has been met.
  lemma NextIsNew(w: World, root: Item, queued: seq<Item>, done: nat, cur: nat)
    requires Linked(w) && Acyclic(w) && Walk(w, root, queued, done, cur) && done < |queued|
    ensures var x := w[queued[done]].list[cur];
      && x in w && Inside(w, root, x) && x != root && x !in VisitedBy(w, queued, done, cur) && x !in queued
  {
    hide Acyclic, Inside;
    var c := queued[done];
    var x := w[c].list[cur];
    assert c in queued && x in w[c].list;
    InsideUp(w, root, x);
    NotInsideItself(w, root);
    InLists(w, queued[..done], x);
    forall k | 0 <= k < done ensures x !in w[queued[k]].list {
      assert queued[k] in queued && queued[k] != c;
    }
    NotEarlier(w[c].list, cur);
  }

  lemma NotEarlier(xs: seq<Item>, i: nat)
    requires NoRepeats(xs) && i < |xs|
    ensures xs[i] !in xs[..i]
  {}

  // The item is visited, and queued if it is a container with something in it.
  lemma WalkFurther(w: World, root: Item, queued: seq<Item>, done: nat, cur: nat)
    requires Linked(w) && Acyclic(w) && Walk(w, root, queued, done, cur) && done < |queued|
    ensures var x := w[queued[done]].list[cur];
      && x in w
      && var more := if w[x].list != [] then queued + [x] else queued;
         && (cur + 1 < |w[queued[done]].list| ==>
               Walk(w, root, more, done, cur + 1) && VisitedBy(w, more, done, cur + 1) == VisitedBy(w, queued, done, cur) + [x])
         && (cur + 1 == |w[queued[done]].list| ==>
               Walk(w, root, more, done + 1, 0) && VisitedBy(w, more, done + 1, 0) == VisitedBy(w, queued, done, cur) + [x])
  {
    hide Linked, Acyclic, Inside, VisitedBy;
    NextIsNew(w, root, queued, done, cur);
    var x := w[queued[done]].list[cur];
    var more := if w[x].list != [] then queued + [x] else queued;
    OneMoreVisited(w, queued, more, done, cur);
    AddedDiffers(VisitedBy(w, queued, done, cur), x);
    AddedDiffers(queued, x);
  }

  lemma AddedDiffers(xs: seq<Item>, x: Item)
    requires NoRepeats(xs) && x !in xs
    ensures NoRepeats(xs + [x])
  {}

  lemma OneMoreVisited(w: World, queued: seq<Item>, more: seq<Item>, done: nat, cur: nat)
    requires done < |queued| && forall c <- queued :: c in w && w[c].list != []
    requires queued <= more && forall c <- more :: c in w && w[c].list != []
    requires cur < |w[queued[done]].list|
    ensures var list := w[queued[done]].list;
      && (cur + 1 < |list| ==> VisitedBy(w, more, done, cur + 1) == VisitedBy(w, queued, done, cur) + [list[cur]])
      && (cur + 1 == |list| ==> VisitedBy(w, more, done + 1, 0) == VisitedBy(w, queued, done, cur) + [list[cur]])
  {
    var list, before := w[queued[done]].list, Lists(w, queued[..done]);
    assert more[..done] == queued[..done] && more[done] == queued[done];
    assert list[..cur + 1] == list[..cur] + [list[cur]];
    if cur + 1 == |list| {
      assert more[..done + 1][..done] == queued[..done];
      assert Lists(w, more[..done + 1]) == before + list;
      assert before + list == before + list[..cur] + [list[cur]];
      assert done + 1 < |more| ==> w[more[done + 1]].list[..0] == [];
    }
  }

  // A walk that has come to its end has met exactly what is inside, each once.
  lemma VisitsAll(w: World, root: Item, queued: seq<Item>)
    requires Linked(w) && Walk(w, root, queued, |queued|, 0)
    ensures NoRepeats(Lists(w, queued)) && forall x :: x in Lists(w, queued) <==> Inside(w, root, x)
  {
    assert queued[..|queued|] == queued && VisitedBy(w, queued, |queued|, 0) == Lists(w, queued);
    forall x | Inside(w, root, x) ensures x in Lists(w, queued) {
      var n: nat :| AroundIn(w, root, x, n);
      MetInside(w, root, queued, x, n);
    }
  }

  lemma {:induction false} MetInside(w: World, root: Item, queued: seq<Item>, x: Item, n: nat)
    requires Linked(w) && Walk(w, root, queued, |queued|, 0) && AroundIn(w, root, x, n)
    ensures x in Lists(w, queued)
    decreases n
  {
    hide NoRepeats;
    var p: Item := w[x].parent;
    assert queued[..|queued|] == queued && VisitedBy(w, queued, |queued|, 0) == Lists(w, queued);
    if p != root {
      MetInside(w, root, queued, p, n - 1);
    }
    assert x in w[p].list && p in queued;
    InLists(w, queued, x);
  }

  // Everything inside an item
  ghost function Contents(w: World, root: Item): set<Item> {
    set x | x in w && Inside(w, root, x)
  }

  // A walk through the contents of `root`
  class Iterator {
    var over: seq<Item>
    var cur: nat
    ghost var queued: seq<Item>

    // How many containers of the queue have been walked through
    ghost function Done(): nat
      reads this
      requires |over| <= |queued|
    {
      |queued| - |over|
    }

    ghost predicate Valid(w: World, root: Item)
      reads this
    {
      && |over| <= |queued| && over == queued[Done()..] && Linked(w) && Acyclic(w) && Walk(w, root, queued, Done(), cur)
    }

    ghost function Visited(w: World, root: Item): seq<Item>
      requires Valid(w, root)
      reads this
    {
      VisitedBy(w, queued, Done(), cur)
    }

    // Container::begin
    constructor Begin(root: Item, ghost items: set<Item>)
      requires root in items && Linked(Snap(items)) && Acyclic(Snap(items))
      ensures Valid(Snap(items), root) && Visited(Snap(items), root) == []
    {
      cur := 0;
      over := if root.itemlist != [] then [root] else [];
      queued := if root.itemlist != [] then [root] else [];
      new;
      hide Linked, Acyclic, Walk, VisitedBy, Inside;
      WalkStarts(Snap(items), root);
    }

    // Comparison with Container::end
    predicate AtEnd()
      reads this
    {
      over == []
    }

    // operator*
    method Current(ghost root: Item, ghost items: set<Item>) returns (x: Item)
      requires Valid(Snap(items), root) && !AtEnd()
      ensures var w := Snap(items);
        && x in items && Inside(w, root, x) && x !in Visited(w, root)
        && over[0] in w && cur < |w[over[0]].list| && x == w[over[0]].list[cur]
    {
      hide Walk, Linked, Acyclic, Inside;
      AtPlace(Snap(items), root);
      x := over[0].itemlist[cur];
    }

    lemma AtPlace(w: World, root: Item)
      requires Valid(w, root) && over != []
      ensures Done() < |queued| && over[0] == queued[Done()] && over[0] in w && cur < |w[over[0]].list|
      ensures var x := w[over[0]].list[cur]; x in w && Inside(w, root, x) && x !in Visited(w, root)
    {
      hide Linked, Acyclic, Inside;
      NextIsNew(w, root, queued, Done(), cur);
    }

    // operator++
    method Next(ghost root: Item, ghost items: set<Item>)
      requires Valid(Snap(items), root) && !AtEnd()
      modifies this
      ensures Snap(items) == old(Snap(items)) && Valid(Snap(items), root)
      ensures var w := Snap(items);
        && old(over[0]) in w && old(cur) < |w[old(over[0])].list|
        && Visited(w, root) == old(Visited(w, root)) + [w[old(over[0])].list[old(cur)]]
    {
      hide Walk, Linked, Acyclic, Inside, VisitedBy;
      ghost var w, done := Snap(items), Done();
      AtPlace(w, root);
      WalkFurther(w, root, queued, done, cur);
      var i := over[0].itemlist[cur];
      assert i in items && w[i].list == i.itemlist;
      if i.itemlist != [] {
        over := over + [i];
        queued := queued + [i];
      }
      cur := cur + 1;
      if cur == |over[0].itemlist| {
        over := over[1..];
        cur := 0;
      }
    }
  }

  // Container::getItemHoldingCount
  method GetItemHoldingCount(root: Item, ghost items: set<Item>) returns (counter: nat)
    requires root in items && Linked(Snap(items)) && Acyclic(Snap(items))
    ensures counter == |Contents(Snap(items), root)|
  {
    hide Linked, Acyclic, Inside, Iterator.Valid, Iterator.Visited;
    ghost var w := Snap(items);
    var it := new Iterator.Begin(root, items);
    counter := 0;
    while !it.AtEnd()
      invariant Snap(items) == w && it.Valid(w, root) && counter == |it.Visited(w, root)|
      decreases |w.Keys| - |it.Visited(w, root)|
    {
      VisitedFewer(it, w, root);
      it.Next(root, items);
      VisitedFewer(it, w, root);
      counter := counter + 1;
    }
    WholeWalk(it, w, root);
  }

  // Container::isHoldingItem
  method IsHoldingItem(root: Item, item: Item, ghost items: set<Item>) returns (holding: bool)
    requires root in items && Linked(Snap(items)) && Acyclic(Snap(items))
    ensures holding <==> Inside(Snap(items), root, item)
  {
    hide Linked, Acyclic, Inside, Iterator.Valid, Iterator.Visited;
    ghost var w := Snap(items);
    var it := new Iterator.Begin(root, items);
    while !it.AtEnd()
      invariant Snap(items) == w && it.Valid(w, root) && item !in it.Visited(w, root)
      decreases |w.Keys| - |it.Visited(w, root)|
    {
      var x := it.Current(root, items);
      if x == item {
        return true;
      }
      VisitedFewer(it, w, root);
      it.Next(root, items);
      VisitedFewer(it, w, root);
    }
    WholeWalk(it, w, root);
    holding := false;
  }

  lemma VisitedFewer(it: Iterator, w: World, root: Item)
    requires it.Valid(w, root)
    ensures |it.Visited(w, root)| <= |w.Keys|
  {
    CountsAll(it.Visited(w, root), w.Keys);
  }

  lemma WholeWalk(it: Iterator, w: World, root: Item)
    requires it.Valid(w, root) && it.AtEnd()
    ensures |it.Visited(w, root)| == |Contents(w, root)|
    ensures forall x :: x in it.Visited(w, root) <==> Inside(w, root, x)
  {
    hide Linked, Acyclic, Inside;
    WalkEnds(w, root, it.queued, it.cur);
    VisitsAll(w, root, it.queued);
    forall x | Inside(w, root, x) ensures x in w { InsideIn(w, root, x); }
    CountsAll(it.Visited(w, root), Contents(w, root));
  }

  lemma WalkEnds(w: World, root: Item, queued: seq<Item>, cur: nat)
    requires Walk(w, root, queued, |queued|, cur)
    ensures Walk(w, root, queued, |queued|, 0) && VisitedBy(w, queued, |queued|, cur) == Lists(w, queued)
  {
    assert queued[..|queued|] == queued;
  }

  lemma InsideIn(w: World, a: Item, x: Item)
    requires Inside(w, a, x)
    ensures x in w
  {}
}
