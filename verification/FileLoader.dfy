/** FileLoader: a node-tree file read through a cache of three blocks.

    Every operation is specified by the file's own bytes, so the specifications say that the cache is
    transparent: which blocks are loaded, overlapping or evicted never shows in what is read. */
module FileLoader {
  import opened Bytes
  import opened Common
  import opened NodeFormat

  const CACHE_BLOCKS := 3
  const NO_VALID_CACHE := 0xFFFF_FFFF

  datatype Error = ErrorNone | ErrorInvalidFormat | ErrorSeek | ErrorEof | ErrorInvalidFileVersion | ErrorCache

  // ---------- block addresses ----------

  // The bitwise `and` of two unsigned numbers.
  function BitAnd(x: nat, y: nat): (r: nat)
    ensures r <= x && r <= y
  {
    if x == 0 || y == 0 then 0 else 2 * BitAnd(x / 2, y / 2) + (x % 2) * (y % 2)
  }

  // x & ~mask
  function BitClear(x: nat, mask: nat): nat {
    x - BitAnd(x, mask)
  }

  // The base address of the block that a position is read from. The block size need not be a power of two.
  function BlockBase(pos: nat, cacheSize: nat): (base: nat)
    requires cacheSize > 0
    ensures base <= pos < base + cacheSize
  {
    BitClear(pos, cacheSize - 1)
  }

  // The block size that openFile picks.
  function CacheSize(fileSize: nat): (size: nat)
    ensures 0 < size <= 32768
  {
    var twentieth := fileSize / 20;
    var wanted := if twentieth < 8192 then 8192 else twentieth;
    BitClear(if wanted < 32768 then wanted else 32768, 0x1FFF)
  }

  // fseek to `base` and fread at most `size` bytes.
  function ReadAt(file: Bytes, base: nat, size: nat): (data: Bytes)
    ensures |data| <= size
    ensures forall i :: 0 <= i < |data| ==> base + i < |file| && data[i] == file[base + i]
    ensures |data| < size ==> |file| <= base + |data|
  {
    if base >= |file| then [] else if base + size <= |file| then file[base..base + size] else file[base..]
  }

  // A cache block; `size` is |data|.
  datatype Block = Block(loaded: bool, base: nat, data: Bytes)

  predicate BlockOk(b: Block, file: Bytes, cacheSize: nat) {
    b.loaded ==> b.data == ReadAt(file, b.base, cacheSize)
  }

  // A loaded block holds the file's byte at each offset, and ends only where the file does.
  lemma BlockHolds(file: Bytes, b: Block, cacheSize: nat, offset: nat)
    requires b.loaded && BlockOk(b, file, cacheSize)
    ensures offset < |b.data| ==> b.base + offset < |file| && b.data[offset] == file[b.base + offset]
    ensures |b.data| <= offset < cacheSize ==> |file| <= b.base + offset
  {}

  // ---------- nodes ----------

  class NodeStruct {
    var start: nat
    var propsSize: nat
    var ty: Byte
    var next: NodeStruct?
    var child: NodeStruct?

    constructor ()
      ensures start == 0 && propsSize == 0 && ty == 0 && next == null && child == null
    {
      start, propsSize, ty, next, child := 0, 0, 0, null, null;
    }
  }

  // `n` is the linked form of the record tree `t`, all of it among `nodes`.
  ghost predicate Linked(n: NodeStruct?, t: Node, nodes: set<NodeStruct>)
    reads nodes
    decreases t
  {
    match t
    case NoNode => n == null
    case Node(start, propsSize, ty, child, next) =>
      && n != null && n in nodes
      && n.start == start && n.propsSize == propsSize && n.ty == ty
      && Linked(n.child, child, nodes) && Linked(n.next, next, nodes)
  }

  // The sibling chain from `n` holds `t` as far as node `cur`, where `tcur` is to follow.
  ghost predicate LinkedUpTo(n: NodeStruct?, t: Node, cur: NodeStruct, tcur: Node, nodes: set<NodeStruct>)
    reads nodes
    decreases t
  {
    || (n == cur && t == tcur)
    || (&& t.Node? && n != null && n in nodes
        && n.start == t.start && n.propsSize == t.propsSize && n.ty == t.ty
        && Linked(n.child, t.child, nodes) && LinkedUpTo(n.next, t.next, cur, tcur, nodes))
  }

  lemma LinkedNone(nodes: set<NodeStruct>)
    ensures Linked(null, NoNode, nodes)
  {
  }

  lemma {:induction false} LinkedMore(n: NodeStruct?, t: Node, nodes: set<NodeStruct>, more: set<NodeStruct>)
    requires Linked(n, t, nodes) && nodes <= more
    ensures Linked(n, t, more)
    decreases t
  {
    if t.Node? {
      LinkedMore(n.child, t.child, nodes, more);
      LinkedMore(n.next, t.next, nodes, more);
    }
  }

  // The record of `n`, given the records of its children and of what follows it.
  ghost function RecordOf(n: NodeStruct, kids: Node, next: Node): Node
    reads n
  {
    Node(n.start, n.propsSize, n.ty, kids, next)
  }

  // The chain is complete once its last node is.
  lemma {:induction false} LinkedClose(n: NodeStruct?, t: Node, cur: NodeStruct, kids: Node, nodes: set<NodeStruct>,
                                       all: set<NodeStruct>)
    requires LinkedUpTo(n, t, cur, RecordOf(cur, kids, NoNode), nodes) && nodes + {cur} <= all
    requires cur.next == null && Linked(cur.child, kids, all)
    ensures Linked(n, t, all)
    decreases t
  {
    if !(n == cur && t == RecordOf(cur, kids, NoNode)) {
      LinkedMore(n.child, t.child, nodes, all);
      LinkedClose(n.next, t.next, cur, kids, nodes, all);
    }
  }

  // The chain grows by one sibling.
  lemma {:induction false} LinkedExtend(n: NodeStruct?, t: Node, cur: NodeStruct, kids: Node, rest: Node,
                                        nodes: set<NodeStruct>, all: set<NodeStruct>)
    requires LinkedUpTo(n, t, cur, RecordOf(cur, kids, rest), nodes) && nodes + {cur} <= all
    requires cur.next != null && Linked(cur.child, kids, all)
    ensures LinkedUpTo(n, t, cur.next, rest, all)
    decreases t
  {
    if !(n == cur && t == RecordOf(cur, kids, rest)) {
      LinkedMore(n.child, t.child, nodes, all);
      LinkedExtend(n.next, t.next, cur, kids, rest, nodes, all);
    }
  }

  // How the scan of a node ends.
  datatype Outcome = Failed | Ended | Sibling

  // ---------- the loader ----------

  class FileLoader {
    const file: Bytes          // what m_file holds
    var cached: seq<Block>
    var cacheSize: nat
    var cacheIndex: nat
    var cacheOffset: nat
    var buffer: array<Byte>
    var root: NodeStruct?
    var lastError: Error
    ghost var tell: nat        // the position in the file of the next byte to be read

    // Every loaded block holds the file's bytes at its base.
    ghost predicate Valid()
      reads this`cached, this`cacheSize, this`cacheIndex
    {
      && |cached| == CACHE_BLOCKS && cacheSize > 0
      && (forall i :: 0 <= i < CACHE_BLOCKS ==> BlockOk(cached[i], file, cacheSize))
      && (cacheIndex != NO_VALID_CACHE ==> cacheIndex < CACHE_BLOCKS && cached[cacheIndex].loaded)
    }

    // There is a read position in the file.
    ghost predicate Open()
      reads this`cached, this`cacheSize, this`cacheIndex, this`cacheOffset, this`tell
    {
      && Valid() && cacheIndex != NO_VALID_CACHE
      && tell == cached[cacheIndex].base + cacheOffset && tell <= |file|
    }

    constructor (file: Bytes)
      ensures this.file == file && cacheIndex == NO_VALID_CACHE && |cached| == CACHE_BLOCKS
      ensures forall i :: 0 <= i < CACHE_BLOCKS ==> !cached[i].loaded
      ensures fresh(buffer) && buffer.Length == 1024 && root == null && lastError == ErrorNone
    {
      this.file := file;
      cached := seq(CACHE_BLOCKS, _ => Block(false, 0, []));
      cacheSize, cacheIndex, cacheOffset := 0, NO_VALID_CACHE, NO_VALID_CACHE;
      buffer := new Byte[1024](_ => 0);
      root := null;
      lastError := ErrorNone;
      tell := 0;
    }

    method LoadCacheBlock(pos: nat) returns (loading: int)
      requires Valid()
      modifies this`cached, this`lastError
      ensures Valid()
      ensures loading == -1 || 0 <= loading < CACHE_BLOCKS
      ensures loading == -1 ==> pos > |file|
      ensures loading >= 0 ==> cached[loading].loaded && cached[loading].base == BlockBase(pos, cacheSize)
    {
      var basePos := BlockBase(pos, cacheSize);
      loading := -1;
      var i := 0;
      while i < CACHE_BLOCKS
        invariant 0 <= i <= CACHE_BLOCKS && loading == -1
      {
        if !cached[i].loaded {
          loading := i;
          break;
        }
        i := i + 1;
      }
      if loading == -1 {
        i := 0;
        while i < CACHE_BLOCKS
          invariant 0 <= i <= CACHE_BLOCKS && loading == -1
        {
          var distance := cached[i].base - basePos;
          if (if distance < 0 then -distance else distance) > 2 * cacheSize {
            loading := i;
            break;
          }
          i := i + 1;
        }
        if loading == -1 {
          loading := 0;
        }
      }
      var data := ReadAt(file, basePos, cacheSize);
      if |data| < pos - basePos {
        cached := cached[loading := Block(cached[loading].loaded, basePos, data)];
        lastError := ErrorSeek;
        return -1;
      }
      cached := cached[loading := Block(true, basePos, data)];
    }

    method GetCacheBlock(pos: nat) returns (i: nat)
      requires Valid()
      modifies this`cached, this`lastError
      ensures Valid()
      ensures i == NO_VALID_CACHE || i < CACHE_BLOCKS
      ensures i == NO_VALID_CACHE ==> pos > |file|
      ensures i != NO_VALID_CACHE ==> cached[i].loaded && cached[i].base == BlockBase(pos, cacheSize)
    {
      var basePos := BlockBase(pos, cacheSize);
      i := 0;
      while i < CACHE_BLOCKS
        invariant 0 <= i <= CACHE_BLOCKS
      {
        if cached[i].loaded && cached[i].base == basePos {
          return;
        }
        i := i + 1;
      }
      var loaded := LoadCacheBlock(pos);
      i := if loaded < 0 then NO_VALID_CACHE else loaded;
    }

    // Reads the file's byte at the read position, whatever the cache holds.
    method ReadByte() returns (ok: bool, value: Byte)
      requires Valid()
      modifies this`cached, this`cacheIndex, this`cacheOffset, this`lastError, this`tell
      ensures old(cacheIndex) == NO_VALID_CACHE ==> !ok && lastError == ErrorCache && Valid()
      ensures old(Open()) ==> Open() && ok == (old(tell) < |file|)
      ensures old(Open()) && ok ==> value == file[old(tell)] && tell == old(tell) + 1
      ensures old(Open()) && !ok ==> tell == old(tell)
    {
      hide ReadAt, BlockOk, BlockBase;
      value := 0;
      if cacheIndex == NO_VALID_CACHE {
        lastError := ErrorCache;
        return false, value;
      }
      BlockHolds(file, cached[cacheIndex], cacheSize, cacheOffset);
      if cacheOffset >= |cached[cacheIndex].data| {
        var pos := cacheOffset + cached[cacheIndex].base;
        var tmp := GetCacheBlock(pos);
        if tmp == NO_VALID_CACHE {
          return false, value;
        }
        cacheIndex := tmp;
        cacheOffset := pos - cached[cacheIndex].base;
        BlockHolds(file, cached[cacheIndex], cacheSize, cacheOffset);
        if cacheOffset >= |cached[cacheIndex].data| {
          return false, value;
        }
      }
      value := cached[cacheIndex].data[cacheOffset];
      cacheOffset := cacheOffset + 1;
      tell := tell + 1;
      ok := true;
    }

    // A seek past the end of the file succeeds or fails by what happens to be cached; one inside it never fails.
    method SafeSeek(pos: nat) returns (ok: bool)
      requires Valid()
      modifies this`cached, this`cacheIndex, this`cacheOffset, this`lastError, this`tell
      ensures Valid()
      ensures pos <= |file| ==> ok && Open() && tell == pos && cacheOffset < cacheSize
    {
      var i := GetCacheBlock(pos);
      if i == NO_VALID_CACHE {
        return false;
      }
      cacheIndex := i;
      cacheOffset := pos - cached[i].base;
      tell := pos;
      ok := true;
    }

    // The position of the byte read last.
    method SafeTell() returns (ok: bool, pos: int)
      requires Valid()
      modifies this`lastError
      ensures ok <==> cacheIndex != NO_VALID_CACHE
      ensures Open() ==> pos == tell - 1
    {
      pos := 0;
      if cacheIndex == NO_VALID_CACHE {
        lastError := ErrorCache;
        return false, pos;
      }
      pos := cached[cacheIndex].base + cacheOffset - 1;
      ok := true;
    }

    // Reads a stretch of the file, block by block. A stretch that is not inside the file would never be complete.
    method ReadBytes(target: array<Byte>, size: nat, from: nat) returns (ok: bool)
      requires Valid()
      requires size <= target.Length && from + size <= |file|
      modifies target, this`cached, this`cacheIndex, this`cacheOffset, this`lastError, this`tell
      ensures ok && Open() && tell == from + size
      ensures target[..size] == file[from..from + size]
    {
      hide Valid, ReadAt, BlockOk;
      var pos, remain, bufferPos := from, size, 0;
      while true
        invariant Valid() && pos == from + bufferPos && bufferPos + remain == size
        invariant bufferPos > 0 ==> remain > 0
        invariant target[..bufferPos] == file[from..pos]
        decreases remain
      {
        ok := SafeSeek(pos);
        if !ok {
          return;
        }
        var reading := ReadFromBlock(target, bufferPos, remain);
        assert file[from..pos] + file[pos..pos + reading] == file[from..pos + reading];
        remain := remain - reading;
        bufferPos := bufferPos + reading;
        pos := pos + reading;
        if remain == 0 {
          break;
        }
      }
    }

    // The part of a read that the current block can serve.
    method ReadFromBlock(target: array<Byte>, at: nat, remain: nat) returns (reading: nat)
      requires Open() && cacheOffset < cacheSize && tell + remain <= |file| && at + remain <= target.Length
      modifies target, this`cacheOffset, this`tell
      ensures Open() && reading <= remain && (remain > 0 ==> reading > 0)
      ensures tell == old(tell) + reading
      ensures target[..at + reading] == old(target[..at]) + file[old(tell)..old(tell) + reading]
    {
      var block := cached[cacheIndex];
      var available := |block.data| - cacheOffset;
      reading := if remain < available then remain else available;
      BlockSlice(file, block, cacheSize, cacheOffset, reading);
      CopyBytes(target, at, block.data[cacheOffset..cacheOffset + reading]);
      cacheOffset := cacheOffset + reading;
      tell := tell + reading;
    }

    // Builds the records of the node at the read position, of its children and of the siblings behind it.
    method ParseNode(node: NodeStruct, ghost result: Parsed) returns (ok: bool, ghost nodes: set<NodeStruct>)
      requires Open() && 0 < tell && result == Parse(file, tell)
      requires node.start == tell - 1 && node.next == null && node.child == null
      modifies this`cached, this`cacheIndex, this`cacheOffset, this`lastError, this`tell, node
      ensures Open() && old(tell) <= tell && fresh(nodes - {node})
      ensures ok <==> result.Good?
      ensures ok ==> tell == result.pos && Linked(node, result.node, nodes)
      decreases |file| - tell, 2
    {
      hide ParseBody, ParseBehind, Linked, Valid;
      ghost var here := result;
      var cur := node;
      nodes := {};
      while true
        invariant Open() && 0 < tell && old(tell) <= tell
        invariant cur.start == tell - 1 && cur.next == null && cur.child == null
        invariant fresh(nodes - {node}) && (cur == node || fresh(cur)) && cur !in nodes
        invariant here == Parse(file, tell)
        invariant result.Good? <==> here.Good?
        invariant result.Good? ==> result.pos == here.pos && LinkedUpTo(node, result.node, cur, here.node, nodes)
        decreases |file| - tell
      {
        var got, b := ReadByte();
        if !got {
          return false, nodes;
        }
        cur.ty := b;
        var outcome;
        ghost var kids, rest, kidNodes;
        outcome, kids, rest, kidNodes := ScanNode(cur, here);
        ghost var all := nodes + kidNodes + {cur};
        match outcome
        case Failed =>
          return false, nodes;
        case Ended =>
          LinkedMore(cur.child, kids, kidNodes, all);
          LinkedClose(node, result.node, cur, kids, nodes, all);
          return true, all;
        case Sibling =>
          LinkedMore(cur.child, kids, kidNodes, all);
          if result.Good? {
            LinkedExtend(node, result.node, cur, kids, rest.node, nodes, all);
          }
          nodes := all;
          cur := cur.next;
          here := rest;
      }
    }

    // What a scan of the node `cur` has found, when a parse of it has to give `result`: the node has its final
    // contents, apart from the siblings behind it, which are still to be parsed.
    ghost predicate Scanned(cur: NodeStruct, result: Parsed, outcome: Outcome, kids: Node, rest: Parsed)
      requires Open()
      reads this, cur, cur.next
    {
      match outcome
      case Failed => result.Bad?
      case Ended => cur.next == null && result == Good(RecordOf(cur, kids, NoNode), tell)
      case Sibling =>
        && cur.next != null && 0 < tell
        && cur.next.start == tell - 1 && cur.next.next == null && cur.next.child == null
        && rest == Parse(file, tell)
        && result == if rest.Bad? then Bad else Good(RecordOf(cur, kids, rest.node), rest.pos)
    }

    // The bytes of one node behind its type byte, as far as its end or the start of its next sibling.
    method ScanNode(cur: NodeStruct, ghost result: Parsed)
      returns (outcome: Outcome, ghost kids: Node, ghost rest: Parsed, ghost nodes: set<NodeStruct>)
      requires Open() && cur.start + 2 == tell
      requires cur.next == null && cur.child == null
      requires result == ParseBody(file, cur.start, cur.ty, -1, NoNode, tell)
      modifies this`cached, this`cacheIndex, this`cacheOffset, this`lastError, this`tell, cur
      ensures Open() && fresh(nodes) && old(tell) <= tell
      ensures Scanned(cur, result, outcome, kids, rest)
      ensures !outcome.Failed? ==> Linked(cur.child, kids, nodes)
      ensures outcome.Sibling? ==> old(tell) < tell && fresh(cur.next) && cur.next !in nodes + {cur}
      decreases |file| - tell, 1
    {
      hide ParseBody, Parse, ParseBehind, Linked, Valid;
      LinkedNone({});
      ghost var start, ty, p := cur.start, cur.ty, tell;
      ghost var size: int := -1;
      kids, rest, nodes := NoNode, Bad, {};
      var setPropsSize := false;
      while true
        invariant Open() && p == tell && old(tell) <= tell
        invariant cur.start == start && cur.ty == ty && cur.next == null
        invariant fresh(nodes) && Linked(cur.child, kids, nodes)
        invariant size == if setPropsSize then cur.propsSize else -1
        invariant start + 2 <= p && result == ParseBody(file, start, ty, size, kids, p)
        decreases |file| - p
      {
        BodyStep(file, start, ty, size, kids, p);
        var got, b := ReadByte();
        if !got {
          return Failed, kids, rest, nodes;
        }
        if b == NODE_START {
          got, kids, nodes := ScanChild(cur, Parse(file, p + 1));
          setPropsSize := true;
          if !got {
            return Failed, kids, rest, nodes;
          }
          p, size := tell, p - start - 2;
        } else if b == NODE_END {
          ghost var n := Node(start, if size < 0 then p - start - 2 else size, ty, kids, NoNode);
          outcome, rest := ScanEnd(cur, setPropsSize, n, p + 1);
          return outcome, kids, rest, nodes;
        } else if b == ESCAPE_CHAR {
          got, b := ReadByte();
          if !got {
            return Failed, kids, rest, nodes;
          }
          p := p + 2;
        } else {
          p := p + 1;
        }
      }
    }

    // At the start byte of a child.
    method ScanChild(cur: NodeStruct, ghost result: Parsed) returns (ok: bool, ghost kids: Node, ghost nodes: set<NodeStruct>)
      requires Open() && cur.start + 2 < tell <= |file| && result == Parse(file, tell)
      modifies this`cached, this`cacheIndex, this`cacheOffset, this`lastError, this`tell, cur`propsSize, cur`child
      ensures Open() && fresh(nodes) && old(tell) <= tell
      ensures cur.propsSize == old(tell) - 1 - cur.start - 2
      ensures ok <==> result.Good?
      ensures ok ==> Good(kids, tell) == result && Linked(cur.child, kids, nodes)
      decreases |file| - tell, 3
    {
      var told, pos := SafeTell();
      var childNode := new NodeStruct();
      childNode.start := pos;
      cur.propsSize := pos - cur.start - 2;
      cur.child := childNode;
      kids := NoNode;
      ok, nodes := ParseNode(childNode, result);
      if ok {
        kids := result.node;
      }
    }

    // Behind the end byte of the node, whose record is to be `n` but for its siblings.
    method ScanEnd(cur: NodeStruct, setPropsSize: bool, ghost n: Node, ghost p: nat)
      returns (outcome: Outcome, ghost rest: Parsed)
      requires Open() && cur.start + 2 < p == tell && cur.next == null
      requires n.Node? && n.start == cur.start && n.ty == cur.ty && n.next.NoNode?
      requires n.propsSize == if setPropsSize then cur.propsSize else p - 1 - cur.start - 2
      modifies this`cached, this`cacheIndex, this`cacheOffset, this`lastError, this`tell, cur`propsSize, cur`next
      ensures Open() && p <= tell
      ensures outcome.Sibling? ==> fresh(cur.next)
      ensures Scanned(cur, ParseBehind(file, n, p), outcome, n.child, rest)
    {
      hide ParseBody, Parse, Valid;
      rest := Bad;
      if !setPropsSize {
        var told, pos := SafeTell();
        cur.propsSize := pos - cur.start - 2;
      }
      var got, b := ReadByte();
      if !got {
        return Ended, rest;
      }
      if b == NODE_START {
        rest := Parse(file, p + 1);
        var told, pos := SafeTell();
        var nextNode := new NodeStruct();
        nextNode.start := pos;
        cur.next := nextNode;
        return Sibling, rest;
      } else if b == NODE_END {
        var told, pos := SafeTell();
        got := SafeSeek(pos);
        return if got then Ended else Failed, rest;
      } else {
        lastError := ErrorInvalidFormat;
        return Failed, rest;
      }
    }

    lemma EmptyCacheValid()
      requires |cached| == CACHE_BLOCKS && (forall i :: 0 <= i < CACHE_BLOCKS ==> !cached[i].loaded)
      requires cacheIndex == NO_VALID_CACHE && cacheSize > 0
      ensures Valid()
    {}

    lemma OpenValid()
      requires Open()
      ensures Valid()
    {}

    // Checks the identifier, sizes the cache and parses the node tree.
    method OpenFile(acceptIdentifier: Bytes) returns (ok: bool, ghost nodes: set<NodeStruct>)
      requires |acceptIdentifier| == 4
      requires |cached| == CACHE_BLOCKS && (forall i :: 0 <= i < CACHE_BLOCKS ==> !cached[i].loaded)
      requires cacheIndex == NO_VALID_CACHE
      modifies this
      ensures unchanged(this`buffer) && (ok ==> Valid())
      ensures ok <==>
        && |file| > 4 && (file[..4] == acceptIdentifier || file[..4] == [0, 0, 0, 0]) && file[4] == 0xFE
        && Parse(file, 5).Good?
      ensures ok ==> Linked(root, Parse(file, 5).node, nodes) && fresh(nodes)
      ensures |file| < 4 ==> lastError == ErrorEof
      ensures |file| >= 4 && file[..4] != acceptIdentifier && file[..4] != [0, 0, 0, 0] ==>
        lastError == ErrorInvalidFileVersion
    {
      hide Parse, Linked, Valid;
      nodes := {};
      if |file| < 4 {
        lastError := ErrorEof;
        return false, nodes;
      }
      var identifier := file[..4];
      if identifier != acceptIdentifier && identifier != [0, 0, 0, 0] {
        lastError := ErrorInvalidFileVersion;
        return false, nodes;
      }
      cacheSize := CacheSize(|file|);
      EmptyCacheValid();
      ok, nodes := LoadRoot();
    }

    // The node tree from the fifth byte on
    method LoadRoot() returns (ok: bool, ghost nodes: set<NodeStruct>)
      requires Valid() && |file| >= 4
      modifies this
      ensures unchanged(this`buffer) && Valid() && fresh(nodes)
      ensures ok <==> |file| > 4 && file[4] == NODE_START && Parse(file, 5).Good?
      ensures ok ==> Linked(root, Parse(file, 5).node, nodes)
    {
      hide Parse, ParseBody, ParseBehind, Linked, Valid, Open;
      nodes := {};
      ok := SafeSeek(4);
      if !ok {
        return;
      }
      root := new NodeStruct();
      root.start := 4;
      ok := SafeSeek(4);
      if ok {
        var b;
        ok, b := ReadByte();
        if ok {
          if b == NODE_START {
            ok, nodes := ParseNode(root, Parse(file, 5));
          } else {
            ok := false;
          }
        }
        OpenValid();
      }
    }

    // The properties of a node, unescaped; they are the first `size` bytes of the buffer.
    method GetProps(node: NodeStruct?) returns (ok: bool, size: nat)
      requires Valid() && buffer.Length > 0
      requires node != null ==> PropsInside(file, node.start, node.propsSize)
      modifies this`buffer, this`cached, this`cacheIndex, this`cacheOffset, this`lastError, this`tell, buffer
      ensures Valid() && buffer.Length > 0 && (buffer == old(buffer) || fresh(buffer))
      ensures ok <==> node != null
      ensures ok ==> size <= buffer.Length && buffer[..size] == Unescape(PropsRegion(file, node.start, node.propsSize))
    {
      hide Valid, Shielded, Unescape;
      if node == null {
        return false, 0;
      }
      if node.propsSize >= buffer.Length {
        var bufferSize := buffer.Length;
        while node.propsSize >= bufferSize
          invariant bufferSize > 0
          decreases node.propsSize - bufferSize
        {
          bufferSize := bufferSize * 2;
        }
        buffer := new Byte[bufferSize](_ => 0);
      }
      size := 0;
      ok := ReadBytes(buffer, node.propsSize, node.start + 2);
      if !ok {
        return;
      }
      size := UnescapeInPlace(buffer, node.propsSize);
    }

    method GetChildNode(parent: NodeStruct?) returns (child: NodeStruct?)
      ensures child == if parent == null then root else parent.child
    {
      child := if parent == null then root else parent.child;
    }

    method GetNextNode(prev: NodeStruct?) returns (next: NodeStruct?)
      ensures next == if prev == null then null else prev.next
    {
      next := if prev == null then null else prev.next;
    }
  }

  // A reader of a whole sibling list, as the users of FileLoader write them.
  method ReadForest(loader: FileLoader, n: NodeStruct?, ghost t: Node, ghost nodes: set<NodeStruct>, ghost f: Forest)
    returns (g: Forest)
    requires loader.Valid() && loader.buffer.Length > 0
    requires Linked(n, t, nodes) && Describes(loader.file, t, f)
    modifies loader`buffer, loader`cached, loader`cacheIndex, loader`cacheOffset, loader`lastError, loader`tell
    modifies loader.buffer
    ensures loader.Valid() && loader.buffer.Length > 0
    ensures loader.buffer == old(loader.buffer) || fresh(loader.buffer)
    ensures g == f
    decreases f
  {
    if n == null {
      return Nil;
    }
    var ok, size := loader.GetProps(n);
    var props := loader.buffer[..size];
    var child := loader.GetChildNode(n);
    var kids := ReadForest(loader, child, t.child, nodes, f.kids);
    var next := loader.GetNextNode(n);
    var rest := ReadForest(loader, next, t.next, nodes, f.rest);
    g := Cons(n.ty, props, kids, rest);
  }

  // Opening a written file and reading every node gives back the forest that was written.
  method ReadBack(acceptIdentifier: Bytes, ghost f: Forest, file: Bytes) returns (ok: bool, g: Forest)
    requires |acceptIdentifier| == 4 && f.Cons? && file == acceptIdentifier + Encode(f)
    ensures ok && g == f
  {
    EncodedStart(acceptIdentifier, f);
    RoundTrip(file, 4, f);
    var loader := new FileLoader(file);
    ghost var nodes;
    ok, nodes := loader.OpenFile(acceptIdentifier);
    var top := loader.GetChildNode(null);
    g := ReadForest(loader, top, Parse(file, 5).node, nodes, f);
  }

  lemma EncodedStart(identifier: Bytes, f: Forest)
    requires |identifier| == 4 && f.Cons?
    ensures var file := identifier + Encode(f);
      && |file| > 4 && file[..4] == identifier && file[4] == NODE_START
      && CarriesAt(file, 4, Encode(f)) && StopsAt(file, 4 + |Encode(f)|)
  {
    var file := identifier + Encode(f);
    LiesWire(Encode(f), 0, Escaped(f));
    assert CarriesAt(file, 4, Encode(f));
  }

  // memcpy
  method CopyBytes(target: array<Byte>, at: nat, data: Bytes)
    requires at + |data| <= target.Length
    modifies target
    ensures target[..at + |data|] == old(target[..at]) + data
    ensures target[at + |data|..] == old(target[at + |data|..])
  {
    forall k | 0 <= k < |data| {
      target[at + k] := data[k];
    }
    assert target[..at] == old(target[..at]);
  }

  // A block that starts inside the file, cut inside the block, is a cut of the file.
  lemma BlockSlice(file: Bytes, b: Block, cacheSize: nat, offset: nat, n: nat)
    requires b.loaded && BlockOk(b, file, cacheSize) && offset + n <= |b.data| && b.base + offset <= |file|
    ensures b.base + offset + n <= |file|
    ensures b.data[offset..offset + n] == file[b.base + offset..b.base + offset + n]
  {
    if n > 0 {
      assert b.data[offset + n - 1] == file[b.base + offset + n - 1];
    }
  }

  // The next byte that counts, and what is left behind it
  lemma UnescapeNext(raw: Bytes, i: nat)
    requires i < |raw| && Shielded(raw[i..])
    ensures raw[i] == ESCAPE_CHAR ==>
      i + 1 < |raw| && Unescape(raw[i..]) == [raw[i + 1]] + Unescape(raw[i + 2..]) && Shielded(raw[i + 2..])
    ensures raw[i] != ESCAPE_CHAR ==> Unescape(raw[i..]) == [raw[i]] + Unescape(raw[i + 1..]) && Shielded(raw[i + 1..])
  {
    assert raw[i..][1..] == raw[i + 1..];
    if raw[i] == ESCAPE_CHAR && i + 1 < |raw| {
      assert raw[i..][2..] == raw[i + 2..];
    }
  }

  lemma UnescapeEnds(raw: Bytes)
    requires Shielded(raw)
    ensures raw[0..] == raw && Shielded(raw[0..]) && [] + Unescape(raw[0..]) == Unescape(raw)
    ensures raw[|raw|..] == [] && Shielded(raw[|raw|..]) && Unescape(raw[|raw|..]) == []
  {
    assert raw[0..] == raw;
    assert [] + Unescape(raw) == Unescape(raw);
  }

  // Drops the escape bytes among the first `n` bytes of the buffer, moving the rest down.
  method UnescapeInPlace(buffer: array<Byte>, n: nat) returns (size: nat)
    requires n <= buffer.Length && Shielded(buffer[..n])
    modifies buffer
    ensures size <= n && buffer[..size] == Unescape(old(buffer[..n]))
  {
    hide Shielded, Unescape;
    ghost var raw := buffer[..n];
    UnescapeEnds(raw);
    var i, j, escaped := 0, 0, false;
    while i < n
      invariant j <= i <= n && Shielded(raw[i..])
      invariant buffer[..j] + Unescape(raw[i..]) == Unescape(raw)
      invariant forall k :: i <= k < n ==> buffer[k] == raw[k]
      invariant !escaped ==> i == j
    {
      ghost var front := buffer[..j];
      UnescapeNext(raw, i);
      if buffer[i] == ESCAPE_CHAR {
        i := i + 1;
        buffer[j] := buffer[i];
        escaped := true;
      } else if escaped {
        buffer[j] := buffer[i];
      }
      assert buffer[..j + 1] == front + [raw[i]];
      Regroup(front, [raw[i]], Unescape(raw[i + 1..]));
      i, j := i + 1, j + 1;
    }
    size := j;
    NothingMore(buffer[..j]);
  }
}
