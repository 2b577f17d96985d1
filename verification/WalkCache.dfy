/** A creature's walk cache: which tiles of the window around it can be walked on. The window is not computed anew when
    the creature takes a step; its cells slide, and one row and one column are looked up. */
module WalkCache {
  import opened Common

  const MAP_MAX_LAYERS := 16
  const MAX_OFFSET := 11  // maxWalkCacheWidth and maxWalkCacheHeight
  const SIZE := 23        // mapWalkWidth and mapWalkHeight

  type Coord = n: int | 0 <= n < 0x10000

  datatype Position = Position(x: Coord, y: Coord, z: nat)

  // Whether a tile is there and lets the creature in
  type Walk = (int, int, int) -> bool

  // Map::getTile finds nothing outside the map.
  predicate Passable(walk: Walk, x: int, y: int, z: int) {
    0 <= x < 0xFFFF && 0 <= y < 0xFFFF && 0 <= z < MAP_MAX_LAYERS && walk(x, y, z)
  }

  type Grid = seq<seq<bool>>

  predicate IsGrid(g: Grid) {
    |g| == SIZE && forall r :: 0 <= r < SIZE ==> |g[r]| == SIZE
  }

  lemma GridsEqual(g: Grid, h: Grid)
    requires IsGrid(g) && IsGrid(h) && forall r, c :: 0 <= r < SIZE && 0 <= c < SIZE ==> g[r][c] == h[r][c]
    ensures g == h
  {
    forall r | 0 <= r < SIZE ensures g[r] == h[r] {}
  }

  predicate OnMap(p: Position, r: int, c: int) {
    0 <= p.x + c - MAX_OFFSET < 0x10000 && 0 <= p.y + r - MAX_OFFSET < 0x10000
  }

  // What updateMapCache stores in row `r`, column `c` for a creature at `p`
  predicate Truth(walk: Walk, p: Position, r: int, c: int) {
    Passable(walk, p.x + c - MAX_OFFSET, p.y + r - MAX_OFFSET, p.z)
  }

  predicate IsOwn(r: int, c: int) {
    r == MAX_OFFSET && c == MAX_OFFSET
  }

  // Every cell on the map but the creature's own says what a full update would say.
  predicate Right(g: Grid, walk: Walk, p: Position)
    requires IsGrid(g)
  {
    forall r, c :: 0 <= r < SIZE && 0 <= c < SIZE && OnMap(p, r, c) && !IsOwn(r, c) ==> g[r][c] == Truth(walk, p, r, c)
  }

  // ---------- the steps, on values ----------

  // Creature::updateTileCache: the cell of the tile at `q`, if it is in the window of a creature at `p`
  function Updated(g: Grid, walk: Walk, p: Position, q: Position): (u: Grid)
    requires IsGrid(g)
    ensures IsGrid(u)
  {
    var r, c := MAX_OFFSET + q.y - p.y, MAX_OFFSET + q.x - p.x;
    if q.z == p.z && 0 <= r < SIZE && 0 <= c < SIZE then g[r := g[r][c := Passable(walk, q.x, q.y, q.z)]] else g
  }

  // Creature::updateMapCache leaves cells that lie outside the map alone.
  function Refreshed(g: Grid, walk: Walk, p: Position): (u: Grid)
    requires IsGrid(g)
    ensures IsGrid(u)
  {
    seq(SIZE, r requires 0 <= r < SIZE => seq(SIZE, c requires 0 <= c < SIZE =>
      if OnMap(p, r, c) then Truth(walk, p, r, c) else g[r][c]))
  }

  // A step north or south moves the rows on; the new row is looked up.
  function Vertical(g: Grid, walk: Walk, from: Position, to: Position): (u: Grid)
    requires IsGrid(g)
    ensures IsGrid(u)
  {
    seq(SIZE, r requires 0 <= r < SIZE => seq(SIZE, c requires 0 <= c < SIZE =>
      if from.y > to.y then if r == 0 then Truth(walk, to, r, c) else g[r - 1][c]
      else if from.y < to.y then if r == SIZE - 1 then Truth(walk, to, r, c) else g[r + 1][c]
      else g[r][c]))
  }

  // The rows that a step east or west moves on
  predicate Shifts(dy: int, r: int) {
    (if dy > 0 then dy else 0) <= r <= (if dy < 0 then SIZE - 1 + dy else SIZE - 1)
  }

  // A step east or west moves the columns on in those rows; the new column is looked up.
  function Horizontal(g: Grid, walk: Walk, from: Position, to: Position, dy: int): (u: Grid)
    requires IsGrid(g)
    ensures IsGrid(u)
  {
    seq(SIZE, r requires 0 <= r < SIZE => seq(SIZE, c requires 0 <= c < SIZE =>
      if from.x < to.x then
        if c == SIZE - 1 then Truth(walk, to, r, c) else if Shifts(dy, r) then g[r][c + 1] else g[r][c]
      else if from.x > to.x then
        if c == 0 then Truth(walk, to, r, c) else if Shifts(dy, r) then g[r][c - 1] else g[r][c]
      else g[r][c]))
  }

  // What a step from `from` to `to` makes of the window; the tile that was left is looked up last.
  function Slid(g: Grid, walk: Walk, from: Position, to: Position, dy: int): (u: Grid)
    requires IsGrid(g)
    ensures IsGrid(u)
  {
    Updated(Horizontal(Vertical(g, walk, from, to), walk, from, to, dy), walk, to, from)
  }

  // ---------- when sliding is right ----------

  predicate Adjacent(from: Position, to: Position) {
    from.z == to.z && Abs(from.x - to.x) <= 1 && Abs(from.y - to.y) <= 1
  }

  // The worlds differ in nothing but the tiles `p` and `q`.
  ghost predicate SameBut(w: Walk, v: Walk, p: Position, q: Position) {
    forall x: int, y: int, z: int :: (x, y, z) != (p.x, p.y, p.z) && (x, y, z) != (q.x, q.y, q.z) ==> v(x, y, z) == w(x, y, z)
  }

  // After the rows have moved, a row says what is true as if the step had been taken north or south only; the new row
  // is right already.
  lemma VerticalCell(g: Grid, w: Walk, v: Walk, from: Position, to: Position, r: int, c: int)
    requires IsGrid(g) && Adjacent(from, to) && SameBut(w, v, from, to) && Right(g, w, from)
    requires 0 <= r < SIZE && 0 <= c < SIZE
    ensures var u := Vertical(g, v, from, to);
      var x := if Shifts(from.y - to.y, r) then from.x + c - MAX_OFFSET else to.x + c - MAX_OFFSET;
      var y := to.y + r - MAX_OFFSET;
      && (0 <= x < 0x10000 && 0 <= y < 0x10000 && (x, y) != (from.x, from.y) && (x, y) != (to.x, to.y)
          ==> u[r][c] == Passable(v, x, y, to.z))
  {
    var r0 := r + to.y - from.y;
    if 0 <= r0 < SIZE && OnMap(from, r0, c) && !IsOwn(r0, c) {
      assert g[r0][c] == Truth(w, from, r0, c);
    }
  }

  // A step with the distance `dy` keeps every window right.
  lemma SlidRight(g: Grid, w: Walk, v: Walk, from: Position, to: Position, dy: int)
    requires IsGrid(g) && Adjacent(from, to) && SameBut(w, v, from, to) && Right(g, w, from)
    requires from.x == to.x || dy == from.y - to.y
    ensures Right(Slid(g, v, from, to, dy), v, to)
  {
    hide SameBut, Vertical;
    var u := Slid(g, v, from, to, dy);
    forall r, c | 0 <= r < SIZE && 0 <= c < SIZE && OnMap(to, r, c) && !IsOwn(r, c)
      ensures u[r][c] == Truth(v, to, r, c)
    {
      var shift := if Shifts(from.y - to.y, r) then to.x - from.x else 0;
      if 0 <= c + shift < SIZE {
        VerticalCell(g, w, v, from, to, r, c + shift);
      }
    }
  }

  // The distance as the source takes it
  function DistanceY(from: Position, to: Position): int {
    Abs(from.y - to.y)
  }

  // The distance with its sign, or as the source takes it
  function Dy(signed: bool, from: Position, to: Position): int {
    if signed then from.y - to.y else DistanceY(from, to)
  }

  // South-east or south-west
  predicate SouthDiagonal(from: Position, to: Position) {
    from.x != to.x && from.y < to.y
  }

  // Whatever the map looks like, the step keeps the window right.
  ghost predicate AlwaysRight(from: Position, to: Position, dy: int) {
    forall g: Grid, w: Walk, v: Walk :: IsGrid(g) && Right(g, w, from) && SameBut(w, v, from, to)
      ==> Right(Slid(g, v, from, to, dy), v, to)
  }

  // With the distance as the source takes it, exactly the steps south-east and south-west go wrong.
  lemma AsWritten(from: Position, to: Position)
    requires Adjacent(from, to) && to.z < MAP_MAX_LAYERS
    ensures AlwaysRight(from, to, DistanceY(from, to)) <==> !SouthDiagonal(from, to)
  {
    if SouthDiagonal(from, to) {
      GoesWrong(from, to);
    } else {
      forall g: Grid, w: Walk, v: Walk | IsGrid(g) && Right(g, w, from) && SameBut(w, v, from, to)
        ensures Right(Slid(g, v, from, to, DistanceY(from, to)), v, to)
      {
        SlidRight(g, w, v, from, to, DistanceY(from, to));
      }
    }
  }

  // A single passable tile, north of the creature or at the southern rim, is enough.
  function OneTile(from: Position, to: Position): Walk {
    var x0 := if from.x < to.x then from.x else to.x;
    var y0 := if to.y >= MAX_OFFSET then to.y - MAX_OFFSET else to.y + MAX_OFFSET;
    (x, y, z) => x == x0 && y == y0
  }

  lemma GoesWrong(from: Position, to: Position)
    requires Adjacent(from, to) && to.z < MAP_MAX_LAYERS && SouthDiagonal(from, to)
    ensures !AlwaysRight(from, to, DistanceY(from, to))
  {
    hide Right, SameBut, Slid, OneTile;
    var w := OneTile(from, to);
    var g := Refreshed(seq(SIZE, _ => seq(SIZE, _ => false)), w, from);
    assert SameBut(w, w, from, to) by { Unchanged(w, from, to); }
    RefreshedRight(seq(SIZE, _ => seq(SIZE, _ => false)), w, from);
    WrongCell(g, from, to);
  }

  lemma Unchanged(w: Walk, p: Position, q: Position)
    ensures SameBut(w, w, p, q)
  {}

  lemma WrongCell(g: Grid, from: Position, to: Position)
    requires Adjacent(from, to) && to.z < MAP_MAX_LAYERS && SouthDiagonal(from, to)
    requires IsGrid(g) && Right(g, OneTile(from, to), from)
    ensures !Right(Slid(g, OneTile(from, to), from, to, DistanceY(from, to)), OneTile(from, to), to)
  {
    var u := Slid(g, OneTile(from, to), from, to, DistanceY(from, to));
    var r := if to.y >= MAX_OFFSET then 0 else SIZE - 1;
    var c := if to.y >= MAX_OFFSET then MAX_OFFSET else if from.x < to.x then MAX_OFFSET - 1 else MAX_OFFSET + 1;
    assert OnMap(to, r, c) && !IsOwn(r, c) && u[r][c] != Truth(OneTile(from, to), to, r, c);
  }

  // ---------- whole runs ----------

  datatype State = State(pos: Position, walk: Walk, cells: Grid)

  // What happens to a creature and around it; every event brings the map as it is afterwards.
  datatype Event =
    | Step(to: Position, walk: Walk)       // the creature walks
    | Jump(to: Position, walk: Walk)       // it is teleported, or changes floors
    | OtherMoves(to: Position, from: Position, walk: Walk)
    | TileChanges(at: Position, walk: Walk, blocking: bool)

  // The map changes where something happens, and nowhere else. A tile lets the creature in as before when an item that
  // blocks nothing changes on it.
  ghost predicate Fits(s: State, e: Event) {
    match e
    case Step(to, v) => Adjacent(s.pos, to) && SameBut(s.walk, v, s.pos, to)
    case Jump(to, v) => true
    case OtherMoves(to, from, v) => SameBut(s.walk, v, to, from)
    case TileChanges(at, v, blocking) =>
      SameBut(s.walk, v, at, at) && (blocking || v(at.x, at.y, at.z) == s.walk(at.x, at.y, at.z))
  }

  function After(s: State, e: Event, signed: bool): State
    requires IsGrid(s.cells)
  {
    match e
    case Step(to, v) => State(to, v, Slid(s.cells, v, s.pos, to, Dy(signed, s.pos, to)))
    case Jump(to, v) => State(to, v, Refreshed(s.cells, v, to))
    case OtherMoves(to, from, v) => State(s.pos, v, Updated(Updated(s.cells, v, s.pos, to), v, s.pos, from))
    case TileChanges(at, v, blocking) => State(s.pos, v, if blocking then Updated(s.cells, v, s.pos, at) else s.cells)
  }

  // A run; with the distance as the source takes it, one without steps south-east and south-west
  ghost predicate Runs(s: State, es: seq<Event>, signed: bool)
    requires IsGrid(s.cells)
    decreases |es|
  {
    es == [] ||
    (&& Fits(s, es[0])
     && (signed || !(es[0].Step? && SouthDiagonal(s.pos, es[0].to)))
     && Runs(After(s, es[0], signed), es[1..], signed))
  }

  function Final(s: State, es: seq<Event>, signed: bool): (f: State)
    requires IsGrid(s.cells)
    ensures IsGrid(f.cells)
    decreases |es|
  {
    if es == [] then s else Final(After(s, es[0], signed), es[1..], signed)
  }

  lemma RefreshedRight(g: Grid, v: Walk, p: Position)
    requires IsGrid(g)
    ensures Right(Refreshed(g, v, p), v, p)
  {}

  lemma UpdatedRight(g: Grid, w: Walk, v: Walk, p: Position, q1: Position, q2: Position)
    requires IsGrid(g) && Right(g, w, p) && SameBut(w, v, q1, q2)
    ensures Right(Updated(Updated(g, v, p, q1), v, p, q2), v, p)
  {}

  lemma SameRight(g: Grid, w: Walk, v: Walk, p: Position, q: Position)
    requires IsGrid(g) && Right(g, w, p) && SameBut(w, v, q, q) && v(q.x, q.y, q.z) == w(q.x, q.y, q.z)
    ensures Right(g, v, p)
  {
    forall r, c | 0 <= r < SIZE && 0 <= c < SIZE && OnMap(p, r, c) && !IsOwn(r, c) ensures g[r][c] == Truth(v, p, r, c) {
      assert g[r][c] == Truth(w, p, r, c);
    }
  }

  lemma UpdatedTwice(g: Grid, v: Walk, p: Position, q: Position)
    requires IsGrid(g)
    ensures Updated(Updated(g, v, p, q), v, p, q) == Updated(g, v, p, q)
  {
    GridsEqual(Updated(Updated(g, v, p, q), v, p, q), Updated(g, v, p, q));
  }

  lemma EventKeepsRight(s: State, e: Event, signed: bool)
    requires IsGrid(s.cells) && Right(s.cells, s.walk, s.pos) && Fits(s, e)
    requires signed || !(e.Step? && SouthDiagonal(s.pos, e.to))
    ensures var t := After(s, e, signed);
      Right(t.cells, t.walk, t.pos)
  {
    hide Slid, Updated, SameBut, Right;
    match e
    case Step(to, v) => SlidRight(s.cells, s.walk, v, s.pos, to, Dy(signed, s.pos, to));
    case Jump(to, v) => RefreshedRight(s.cells, v, to);
    case OtherMoves(to, from, v) => UpdatedRight(s.cells, s.walk, v, s.pos, to, from);
    case TileChanges(at, v, blocking) =>
      if blocking {
        UpdatedRight(s.cells, s.walk, v, s.pos, at, at);
        UpdatedTwice(s.cells, v, s.pos, at);
      } else {
        SameRight(s.cells, s.walk, v, s.pos, at);
      }
  }

  // Over every run of steps, jumps and changes around, the window stays right: as the source has it, as long as nobody
  // steps south-east or south-west; with the signed distance, in all eight directions.
  lemma {:induction false} RunKeepsRight(s: State, es: seq<Event>, signed: bool)
    requires IsGrid(s.cells) && Right(s.cells, s.walk, s.pos) && Runs(s, es, signed)
    ensures var f := Final(s, es, signed);
      Right(f.cells, f.walk, f.pos)
    decreases |es|
  {
    hide Right;
    if es != [] {
      EventKeepsRight(s, es[0], signed);
      RunKeepsRight(After(s, es[0], signed), es[1..], signed);
    }
  }

  // ---------- the creature ----------

  class Creature {
    var position: Position
    const localMapCache: array2<bool>
    var isMapLoaded: bool
    const useCacheMap: bool

    predicate Valid()
      reads this
    {
      localMapCache.Length0 == SIZE && localMapCache.Length1 == SIZE
    }

    ghost function Cells(): (g: Grid)
      requires Valid()
      reads this, localMapCache
      ensures IsGrid(g)
    {
      seq(SIZE, r requires 0 <= r < SIZE reads localMapCache =>
        seq(SIZE, c requires 0 <= c < SIZE reads localMapCache => localMapCache[r, c]))
    }

    constructor (p: Position, useCacheMap: bool)
      ensures Valid() && position == p && !isMapLoaded && this.useCacheMap == useCacheMap
    {
      position, isMapLoaded, this.useCacheMap := p, false, useCacheMap;
      localMapCache := new bool[SIZE, SIZE];
    }

    // updateTileCache with offsets: `tile` says whether the tile is there and lets the creature in.
    method UpdateTileOffset(tile: bool, dx: int, dy: int)
      requires Valid()
      modifies localMapCache
      ensures Cells() == var r, c := MAX_OFFSET + dy, MAX_OFFSET + dx;
        if 0 <= r < SIZE && 0 <= c < SIZE then old(Cells())[r := old(Cells())[r][c := tile]] else old(Cells())
      ensures forall r, c :: 0 <= r < SIZE && 0 <= c < SIZE ==>
        localMapCache[r, c] == if r == MAX_OFFSET + dy && c == MAX_OFFSET + dx then tile else old(localMapCache[r, c])
    {
      ghost var g, r, c := Cells(), MAX_OFFSET + dy, MAX_OFFSET + dx;
      if Abs(dx) <= MAX_OFFSET && Abs(dy) <= MAX_OFFSET {
        localMapCache[MAX_OFFSET + dy, MAX_OFFSET + dx] := tile;
        GridsEqual(Cells(), g[r := g[r][c := tile]]);
      }
    }

    method UpdateTileCache(walk: Walk, pos: Position)
      requires Valid()
      modifies localMapCache
      ensures Cells() == Updated(old(Cells()), walk, position, pos)
      ensures forall r, c :: 0 <= r < SIZE && 0 <= c < SIZE ==>
        localMapCache[r, c] ==
          if pos.z == position.z && r == MAX_OFFSET + pos.y - position.y && c == MAX_OFFSET + pos.x - position.x
          then Passable(walk, pos.x, pos.y, pos.z) else old(localMapCache[r, c])
    {
      if pos.z == position.z {
        UpdateTileOffset(Passable(walk, pos.x, pos.y, pos.z), pos.x - position.x, pos.y - position.y);
      }
    }

    // The position whose tile is looked up wraps at 16 bits; beyond the edge it is out of the window.
    method UpdateMapCache(walk: Walk)
      requires Valid()
      modifies localMapCache
      ensures Cells() == Refreshed(old(Cells()), walk, position)
    {
      ghost var g := Cells();
      ghost var want := Refreshed(g, walk, position);
      for y := -MAX_OFFSET to MAX_OFFSET + 1
        invariant forall r, c :: 0 <= r < SIZE && 0 <= c < SIZE ==>
          localMapCache[r, c] == if r < MAX_OFFSET + y then want[r][c] else g[r][c]
      {
        for x := -MAX_OFFSET to MAX_OFFSET + 1
          invariant forall r, c :: 0 <= r < SIZE && 0 <= c < SIZE ==>
            localMapCache[r, c] == if r < MAX_OFFSET + y || (r == MAX_OFFSET + y && c < MAX_OFFSET + x) then want[r][c] else g[r][c]
        {
          var pos := Position((position.x + x) % 0x10000, (position.y + y) % 0x10000, position.z);
          UpdateTileCache(walk, pos);
        }
      }
      GridsEqual(Cells(), want);
    }

    // 1: can be walked on; 0: cannot; 2: the cache does not say
    method GetWalkCache(pos: Position) returns (answer: int)
      requires Valid()
      ensures answer ==
        if !useCacheMap then 2 else if position.z != pos.z then 0 else if pos == position then 1
        else var r, c := MAX_OFFSET + pos.y - position.y, MAX_OFFSET + pos.x - position.x;
          if !(0 <= r < SIZE && 0 <= c < SIZE) then 2 else if Cells()[r][c] then 1 else 0
      ensures useCacheMap && position.z == pos.z && pos != position ==>
        (Abs(pos.x - position.x) <= 11 && Abs(pos.y - position.y) <= 11 ==>
           forall walk: Walk | Right(Cells(), walk, position) ::
             answer == if pos.x < 0xFFFF && pos.y < 0xFFFF && pos.z < 16 && walk(pos.x, pos.y, pos.z) then 1 else 0)
    {
      if !useCacheMap {
        return 2;
      }
      if position.z != pos.z {
        return 0;
      }
      if pos == position {
        return 1;
      }
      var dx := pos.x - position.x;
      if Abs(dx) <= MAX_OFFSET {
        var dy := pos.y - position.y;
        if Abs(dy) <= MAX_OFFSET {
          ghost var r, c := MAX_OFFSET + dy, MAX_OFFSET + dx;
          assert OnMap(position, r, c) && !IsOwn(r, c);
          assert Cells()[r][c] == localMapCache[MAX_OFFSET + dy, MAX_OFFSET + dx];
          if localMapCache[MAX_OFFSET + dy, MAX_OFFSET + dx] {
            return 1;
          } else {
            return 0;
          }
        }
      }
      return 2;
    }

    // memcpy of row `from` over row `to`
    method CopyRow(to: nat, from: nat)
      requires Valid() && to < SIZE && from < SIZE
      modifies localMapCache
      ensures forall r, c :: 0 <= r < SIZE && 0 <= c < SIZE ==>
        localMapCache[r, c] == if r == to then old(localMapCache[from, c]) else old(localMapCache[r, c])
    {
      for x := 0 to SIZE
        invariant forall r, c :: 0 <= r < SIZE && 0 <= c < SIZE ==>
          localMapCache[r, c] == if r == to && c < x then old(localMapCache[from, c]) else old(localMapCache[r, c])
      {
        localMapCache[to, x] := localMapCache[from, x];
      }
    }

    // Looking up a whole row
    method UpdateRow(walk: Walk, y: int)
      requires Valid() && -MAX_OFFSET <= y <= MAX_OFFSET
      modifies localMapCache
      ensures forall r, c :: 0 <= r < SIZE && 0 <= c < SIZE ==>
        localMapCache[r, c] == if r == MAX_OFFSET + y then Truth(walk, position, r, c) else old(localMapCache[r, c])
    {
      for x := -MAX_OFFSET to MAX_OFFSET + 1
        invariant forall r, c :: 0 <= r < SIZE && 0 <= c < SIZE ==>
          localMapCache[r, c] == if r == MAX_OFFSET + y && c < MAX_OFFSET + x then Truth(walk, position, r, c) else old(localMapCache[r, c])
      {
        UpdateTileOffset(Passable(walk, position.x + x, position.y + y, position.z), x, y);
      }
    }

    // Looking up a whole column
    method UpdateColumn(walk: Walk, x: int)
      requires Valid() && -MAX_OFFSET <= x <= MAX_OFFSET
      modifies localMapCache
      ensures forall r, c :: 0 <= r < SIZE && 0 <= c < SIZE ==>
        localMapCache[r, c] == if c == MAX_OFFSET + x then Truth(walk, position, r, c) else old(localMapCache[r, c])
    {
      for y := -MAX_OFFSET to MAX_OFFSET + 1
        invariant forall r, c :: 0 <= r < SIZE && 0 <= c < SIZE ==>
          localMapCache[r, c] == if c == MAX_OFFSET + x && r < MAX_OFFSET + y then Truth(walk, position, r, c) else old(localMapCache[r, c])
      {
        UpdateTileOffset(Passable(walk, position.x + x, position.y + y, position.z), x, y);
      }
    }

    method SlideRows(walk: Walk, oldPos: Position)
      requires Valid()
      modifies localMapCache
      ensures Cells() == Vertical(old(Cells()), walk, oldPos, position)
    {
      ghost var g := Cells();
      if oldPos.y > position.y {
        for y := SIZE - 1 downto 0
          invariant forall r, c :: 0 <= r < SIZE && 0 <= c < SIZE ==>
            localMapCache[r, c] == if r > y then g[r - 1][c] else g[r][c]
        {
          CopyRow(y + 1, y);
        }
        UpdateRow(walk, -MAX_OFFSET);
      } else if oldPos.y < position.y {
        for y := 0 to SIZE - 1
          invariant forall r, c :: 0 <= r < SIZE && 0 <= c < SIZE ==>
            localMapCache[r, c] == if r < y then g[r + 1][c] else g[r][c]
        {
          CopyRow(y, y + 1);
        }
        UpdateRow(walk, MAX_OFFSET);
      }
      GridsEqual(Cells(), Vertical(g, walk, oldPos, position));
    }

    // The cells of row `y` move one to the west; the last keeps its value.
    method ShiftWest(y: nat)
      requires Valid() && y < SIZE
      modifies localMapCache
      ensures forall r, c :: 0 <= r < SIZE && 0 <= c < SIZE ==>
        localMapCache[r, c] == if r == y && c < SIZE - 1 then old(localMapCache[r, c + 1]) else old(localMapCache[r, c])
    {
      for x := 0 to SIZE - 1
        invariant forall r, c :: 0 <= r < SIZE && 0 <= c < SIZE ==>
          localMapCache[r, c] == if r == y && c < x then old(localMapCache[r, c + 1]) else old(localMapCache[r, c])
      {
        localMapCache[y, x] := localMapCache[y, x + 1];
      }
    }

    method ShiftEast(y: nat)
      requires Valid() && y < SIZE
      modifies localMapCache
      ensures forall r, c :: 0 <= r < SIZE && 0 <= c < SIZE ==>
        localMapCache[r, c] == if r == y && c > 0 then old(localMapCache[r, c - 1]) else old(localMapCache[r, c])
    {
      for x := SIZE - 1 downto 0
        invariant forall r, c :: 0 <= r < SIZE && 0 <= c < SIZE ==>
          localMapCache[r, c] == if r == y && c > x then old(localMapCache[r, c - 1]) else old(localMapCache[r, c])
      {
        localMapCache[y, x + 1] := localMapCache[y, x];
      }
    }

    method SlideColumns(walk: Walk, oldPos: Position, dy: int)
      requires Valid()
      modifies localMapCache
      ensures Cells() == Horizontal(old(Cells()), walk, oldPos, position, dy)
    {
      ghost var g := Cells();
      var starty, endy := 0, SIZE - 1;
      if dy < 0 {
        endy := endy + dy;
      } else if dy > 0 {
        starty := dy;
      }
      if oldPos.x < position.x {
        var y := starty;
        while y <= endy
          invariant starty <= y && (y <= endy + 1 || y == starty)
          invariant forall r, c :: 0 <= r < SIZE && 0 <= c < SIZE ==>
            localMapCache[r, c] == if starty <= r < y && c < SIZE - 1 then old(localMapCache[r, c + 1]) else old(localMapCache[r, c])
        {
          ShiftWest(y);
          y := y + 1;
        }
        UpdateColumn(walk, MAX_OFFSET);
      } else if oldPos.x > position.x {
        var y := starty;
        while y <= endy
          invariant starty <= y && (y <= endy + 1 || y == starty)
          invariant forall r, c :: 0 <= r < SIZE && 0 <= c < SIZE ==>
            localMapCache[r, c] == if starty <= r < y && c > 0 then old(localMapCache[r, c - 1]) else old(localMapCache[r, c])
        {
          ShiftEast(y);
          y := y + 1;
        }
        UpdateColumn(walk, -MAX_OFFSET);
      }
      ghost var want := Horizontal(g, walk, oldPos, position, dy);
      forall r, c | 0 <= r < SIZE && 0 <= c < SIZE ensures Cells()[r][c] == want[r][c] {
        assert Cells()[r][c] == localMapCache[r, c];
        assert g[r][c] == old(localMapCache[r, c]);
        assert c > 0 ==> g[r][c - 1] == old(localMapCache[r, c - 1]);
        assert c < SIZE - 1 ==> g[r][c + 1] == old(localMapCache[r, c + 1]);
        assert Shifts(dy, r) <==> starty <= r <= endy;
      }
      GridsEqual(Cells(), want);
    }

    // onCreatureMove for the creature itself, which already stands at its new position. A window that was right is
    // right afterwards, unless the step led south-east or south-west.
    method OnOwnMove(walk: Walk, oldPos: Position, teleport: bool)
      requires Valid()
      modifies localMapCache
      ensures Cells() ==
        if !isMapLoaded then old(Cells())
        else if teleport || oldPos.z != position.z then Refreshed(old(Cells()), walk, position)
        else Slid(old(Cells()), walk, oldPos, position, DistanceY(oldPos, position))
      ensures isMapLoaded && (teleport || oldPos.z != position.z) ==> Right(Cells(), walk, position)
      ensures isMapLoaded && Adjacent(oldPos, position) && (oldPos.x == position.x || oldPos.y >= position.y) ==>
        forall w: Walk | SameBut(w, walk, oldPos, position) && Right(old(Cells()), w, oldPos) :: Right(Cells(), walk, position)
    {
      hide Refreshed, Slid, Right, SameBut;
      ghost var g := Cells();
      if isMapLoaded {
        if teleport || oldPos.z != position.z {
          UpdateMapCache(walk);
          RefreshedRight(g, walk, position);
        } else {
          Slide(walk, oldPos);
          if Adjacent(oldPos, position) && (oldPos.x == position.x || oldPos.y >= position.y) {
            forall w: Walk | SameBut(w, walk, oldPos, position) && Right(g, w, oldPos)
              ensures Right(Cells(), walk, position)
            {
              SlidRight(g, w, walk, oldPos, position, DistanceY(oldPos, position));
            }
          }
        }
      }
    }

    method Slide(walk: Walk, oldPos: Position)
      requires Valid()
      modifies localMapCache
      ensures Cells() == Slid(old(Cells()), walk, oldPos, position, DistanceY(oldPos, position))
    {
      hide Vertical, Horizontal, Updated;
      SlideRows(walk, oldPos);
      SlideColumns(walk, oldPos, DistanceY(oldPos, position));
      UpdateTileCache(walk, oldPos);
    }

    // Looking up both tiles of a change keeps the window right.
    lemma AroundRight(g: Grid, walk: Walk, q1: Position, q2: Position)
      requires IsGrid(g)
      ensures forall w: Walk | SameBut(w, walk, q1, q2) && Right(g, w, position) ::
        Right(Updated(Updated(g, walk, position, q1), walk, position, q2), walk, position)
    {
      hide Right, SameBut, Updated;
      forall w: Walk | SameBut(w, walk, q1, q2) && Right(g, w, position)
        ensures Right(Updated(Updated(g, walk, position, q1), walk, position, q2), walk, position)
      {
        UpdatedRight(g, w, walk, position, q1, q2);
      }
    }

    // onCreatureMove for another creature
    method OnOtherMove(walk: Walk, newPos: Position, oldPos: Position)
      requires Valid()
      modifies localMapCache
      ensures Cells() ==
        if !isMapLoaded then old(Cells()) else Updated(Updated(old(Cells()), walk, position, newPos), walk, position, oldPos)
      ensures isMapLoaded ==>
        forall w: Walk | SameBut(w, walk, newPos, oldPos) && Right(old(Cells()), w, position) :: Right(Cells(), walk, position)
    {
      hide Right, SameBut;
      if isMapLoaded {
        AroundRight(Cells(), walk, newPos, oldPos);
        if newPos.z == position.z {
          UpdateTileCache(walk, newPos);
        }
        if oldPos.z == position.z {
          UpdateTileCache(walk, oldPos);
        }
      }
    }

    // onAddTileItem, onRemoveTileItem, onUpdateTileItem, and creatures that appear or disappear. An item that is removed
    // or changes is `blocking` if it blocks, solidly or for finding paths, before or after, or is removed ground; the
    // other changes always are.
    method OnTileChange(walk: Walk, pos: Position, blocking: bool)
      requires Valid()
      modifies localMapCache
      ensures Cells() == if isMapLoaded && blocking then Updated(old(Cells()), walk, position, pos) else old(Cells())
      ensures isMapLoaded && blocking ==>
        forall w: Walk | SameBut(w, walk, pos, pos) && Right(old(Cells()), w, position) :: Right(Cells(), walk, position)
    {
      hide Right, SameBut;
      if isMapLoaded && blocking {
        AroundRight(Cells(), walk, pos, pos);
        UpdatedTwice(Cells(), walk, position, pos);
        if pos.z == position.z {
          UpdateTileCache(walk, pos);
        }
      }
    }

    // onCreatureAppear for the creature itself
    method OnAppear(walk: Walk)
      requires Valid()
      modifies this`isMapLoaded, localMapCache
      ensures useCacheMap ==> isMapLoaded && Right(Cells(), walk, position)
      ensures !useCacheMap ==> isMapLoaded == old(isMapLoaded) && Cells() == old(Cells())
    {
      if useCacheMap {
        isMapLoaded := true;
        UpdateMapCache(walk);
      }
    }
  }
}
