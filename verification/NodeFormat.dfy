/** The escaped node-tree format that FileLoader reads: what a forest of nodes looks like as bytes,
    which bytes the parser accepts, and what it makes of them.

    `Parse` follows FileLoader::parseNode byte by byte on a plain byte string; FileLoader.dfy proves that the
    cached, pointer-building parser computes it. The theorems here characterise it without reference to its
    text: it accepts exactly the encodings of node forests (`ParseComplete`, `ParseSound`), and reading a
    written forest gives that forest back (`RoundTrip`). */
module NodeFormat {
  import opened Bytes

  const ESCAPE_CHAR: Byte := 0xFD
  const NODE_START: Byte := 0xFE
  const NODE_END: Byte := 0xFF

  // A list of sibling nodes, each with a type byte, properties and children.
  datatype Forest = Nil | Cons(ty: Byte, props: Bytes, kids: Forest, rest: Forest)

  // What the parser builds: the NodeStruct records, linked by `child` and `next`.
  datatype Node = NoNode | Node(start: nat, propsSize: nat, ty: Byte, child: Node, next: Node)

  // A node (with the siblings parsed behind it) and the position at which reading goes on.
  datatype Parsed = Bad | Good(node: Node, pos: nat)

  // ---------- writing ----------

  function Escape(props: Bytes): Bytes {
    if props == [] then []
    else (if props[0] >= ESCAPE_CHAR then [ESCAPE_CHAR, props[0]] else [props[0]]) + Escape(props[1..])
  }

  // The forest with every node's properties in escaped form.
  function Escaped(f: Forest): Forest {
    match f
    case Nil => Nil
    case Cons(ty, props, kids, rest) => Cons(ty, Escape(props), Escaped(kids), Escaped(rest))
  }

  // The bytes of a forest whose properties are already escaped.
  function Wire(f: Forest): Bytes {
    match f
    case Nil => []
    case Cons(ty, raw, kids, rest) => [NODE_START, ty] + raw + Wire(kids) + [NODE_END] + Wire(rest)
  }

  function Encode(f: Forest): Bytes {
    Wire(Escaped(f))
  }

  // A byte string in which a special byte occurs only behind an escape byte.
  predicate Shielded(raw: Bytes) {
    raw == [] ||
    if raw[0] == ESCAPE_CHAR then |raw| > 1 && Shielded(raw[2..]) else raw[0] < ESCAPE_CHAR && Shielded(raw[1..])
  }

  predicate AllShielded(f: Forest) {
    f.Cons? ==> Shielded(f.props) && AllShielded(f.kids) && AllShielded(f.rest)
  }

  // ---------- reading ----------

  // FileLoader::parseNode, called with the read position on a node's type byte.
  function Parse(s: Bytes, p: nat): (r: Parsed)
    requires p > 0
    ensures r.Good? ==> p + 2 <= r.pos <= |s| && r.node.Node? && r.node.start == p - 1
    decreases |s| - p, 0
  {
    if p >= |s| then Bad else ParseBody(s, p - 1, s[p], -1, NoNode, p + 1)
  }

  // The inner loop: `size` is -1 until the property size is known.
  function ParseBody(s: Bytes, start: nat, ty: Byte, size: int, child: Node, p: nat): (r: Parsed)
    requires -1 <= size
    requires start + 2 <= p
    ensures r.Good? ==> p < r.pos <= |s| && r.node.Node? && r.node.start == start
    decreases |s| - p, 1
  {
    if p >= |s| then Bad
    else if s[p] == NODE_START then
      var r := Parse(s, p + 1);
      if r.Bad? then Bad else ParseBody(s, start, ty, p - start - 2, r.node, r.pos)
    else if s[p] == NODE_END then
      ParseBehind(s, Node(start, if size < 0 then p - start - 2 else size, ty, child, NoNode), p + 1)
    else if s[p] == ESCAPE_CHAR then
      if p + 1 >= |s| then Bad else ParseBody(s, start, ty, size, child, p + 2)
    else ParseBody(s, start, ty, size, child, p + 1)
  }

  // Behind the end byte of node `n`: its siblings, if any. A second end byte is the parent's; it is left unread.
  function ParseBehind(s: Bytes, n: Node, p: nat): (r: Parsed)
    requires n.Node? && p <= |s|
    ensures r.Good? ==> p <= r.pos <= |s| && r.node.Node? && r.node.start == n.start
    decreases |s| - p, 1
  {
    if p == |s| || s[p] == NODE_END then Good(n, p)
    else if s[p] == NODE_START then
      var r := Parse(s, p + 1);
      if r.Bad? then Bad else Good(n.(next := r.node), r.pos)
    else Bad
  }

  // One step of the inner loop, by the byte at `p`.
  lemma BodyStep(s: Bytes, start: nat, ty: Byte, size: int, child: Node, p: nat)
    requires -1 <= size && start + 2 <= p <= |s|
    ensures var r := ParseBody(s, start, ty, size, child, p);
      if p == |s| then r == Bad
      else if s[p] == NODE_START then
        var k := Parse(s, p + 1);
        r == if k.Bad? then Bad else ParseBody(s, start, ty, p - start - 2, k.node, k.pos)
      else if s[p] == NODE_END then
        r == ParseBehind(s, Node(start, if size < 0 then p - start - 2 else size, ty, child, NoNode), p + 1)
      else if s[p] == ESCAPE_CHAR then
        r == if p + 1 == |s| then Bad else ParseBody(s, start, ty, size, child, p + 2)
      else r == ParseBody(s, start, ty, size, child, p + 1)
  {
  }

  // FileLoader::getProps's unescaping.
  function Unescape(raw: Bytes): Bytes
    requires Shielded(raw)
  {
    if raw == [] then []
    else if raw[0] == ESCAPE_CHAR then [raw[1]] + Unescape(raw[2..])
    else [raw[0]] + Unescape(raw[1..])
  }

  // ---------- the layout of a forest in a file ----------

  // |Wire(f)|, without the bytes.
  function Len(f: Forest): nat {
    match f
    case Nil => 0
    case Cons(ty, raw, kids, rest) => 2 + |raw| + Len(kids) + 1 + Len(rest)
  }

  // The records that describe the wire forest `f` when its bytes start at `pos`.
  function Layout(f: Forest, pos: nat): Node {
    match f
    case Nil => NoNode
    case Cons(ty, raw, kids, rest) =>
      var kidsAt := pos + 2 + |raw|;
      Node(pos, |raw|, ty, Layout(kids, kidsAt), Layout(rest, kidsAt + Len(kids) + 1))
  }

  // `s` carries the bytes of the wire forest `f` at position `p`, node by node.
  predicate LiesAt(s: Bytes, p: nat, f: Forest)
    decreases f
  {
    match f
    case Nil => p <= |s|
    case Cons(ty, raw, kids, rest) =>
      var kidsAt := p + 2 + |raw|;
      var end := kidsAt + Len(kids);
      && end < |s| && s[p] == NODE_START && s[p + 1] == ty
      && CarriesAt(s, p + 2, raw) && LiesAt(s, kidsAt, kids)
      && s[end] == NODE_END && LiesAt(s, end + 1, rest)
  }

  // Reading of a sibling list stops at the end of the file or at the parent's end byte.
  predicate StopsAt(s: Bytes, p: nat) {
    p == |s| || (p < |s| && s[p] == NODE_END)
  }

  // Lying in a file node by node is carrying the forest's bytes.
  lemma {:induction false} LiesWire(s: Bytes, p: nat, f: Forest)
    ensures |Wire(f)| == Len(f)
    ensures LiesAt(s, p, f) <==> CarriesAt(s, p, Wire(f))
    decreases f
  {
    hide CarriesAt;
    if f == Nil {
      CarriesNone(s, p);
    } else {
      var kidsAt := p + 2 + |f.props|;
      LiesWire(s, kidsAt, f.kids);
      LiesWire(s, kidsAt + Len(f.kids) + 1, f.rest);
      WireParts(s, p, f.ty, f.props, Wire(f.kids), Wire(f.rest));
    }
  }

  lemma CarriesNone(s: Bytes, p: nat)
    ensures CarriesAt(s, p, []) <==> p <= |s|
  {}

  lemma {:induction false} WireParts(s: Bytes, p: nat, ty: Byte, raw: Bytes, kids: Bytes, rest: Bytes)
    ensures var end := p + 2 + |raw| + |kids|;
      CarriesAt(s, p, [NODE_START, ty] + raw + kids + [NODE_END] + rest) <==>
      && end < |s| && s[p] == NODE_START && s[p + 1] == ty
      && CarriesAt(s, p + 2, raw) && CarriesAt(s, p + 2 + |raw|, kids)
      && s[end] == NODE_END && CarriesAt(s, end + 1, rest)
  {
    var head := [NODE_START, ty];
    var end := p + 2 + |raw| + |kids|;
    CarriesAppend(s, p, head + raw + kids + [NODE_END], rest);
    CarriesAppend(s, p, head + raw + kids, [NODE_END]);
    CarriesAppend(s, p, head + raw, kids);
    CarriesAppend(s, p, head, raw);
    assert CarriesAt(s, p, head) <==> p + 2 <= |s| && head[0] == s[p] && head[1] == s[p + 1];
    assert CarriesAt(s, end, [NODE_END]) <==> end < |s| && [NODE_END][0] == s[end];
  }

  // ---------- the parser accepts every wire forest ----------

  // The scan runs over shielded properties without noticing them.
  lemma {:induction false} ScanProps(s: Bytes, start: nat, ty: Byte, p: nat, raw: Bytes)
    requires Shielded(raw) && CarriesAt(s, p, raw) && start + 2 <= p
    ensures ParseBody(s, start, ty, -1, NoNode, p) == ParseBody(s, start, ty, -1, NoNode, p + |raw|)
    decreases |raw|
  {
    if raw != [] {
      var k := if raw[0] == ESCAPE_CHAR then 2 else 1;
      assert raw == raw[..k] + raw[k..];
      CarriesAppend(s, p, raw[..k], raw[k..]);
      ScanProps(s, start, ty, p + k, raw[k..]);
    }
  }

  // Parsing the sibling list whose first start byte is at `p` gives the records of `f`.
  predicate Reads(s: Bytes, p: nat, f: Forest) {
    f.Cons? ==> Parse(s, p + 1) == Good(Layout(f, p), p + Len(f))
  }

  // From a node's end byte on: the siblings behind it, if any.
  lemma {:induction false} ParseEnd(s: Bytes, start: nat, ty: Byte, size: int, child: Node, e: nat, rest: Forest)
    requires -1 <= size && start + 2 <= e < |s| && s[e] == NODE_END
    requires LiesAt(s, e + 1, rest) && StopsAt(s, e + 1 + Len(rest)) && Reads(s, e + 1, rest)
    ensures ParseBody(s, start, ty, size, child, e)
      == Good(Node(start, if size < 0 then e - start - 2 else size, ty, child, Layout(rest, e + 1)),
              e + 1 + Len(rest))
  {
    var n := Node(start, if size < 0 then e - start - 2 else size, ty, child, NoNode);
    assert ParseBody(s, start, ty, size, child, e) == ParseBehind(s, n, e + 1);
    assert rest.Nil? ==> ParseBehind(s, n, e + 1) == Good(n, e + 1);
  }

  // The children, read where the properties end.
  lemma {:induction false} ParseKids(s: Bytes, start: nat, ty: Byte, q: nat, kids: Forest)
    requires kids.Cons? && start + 2 <= q && LiesAt(s, q, kids) && Reads(s, q, kids)
    ensures ParseBody(s, start, ty, -1, NoNode, q)
      == ParseBody(s, start, ty, q - start - 2, Layout(kids, q), q + Len(kids))
  {
  }

  // One node, its children and siblings being parsed already.
  lemma {:induction false} ParseOne(s: Bytes, start: nat, ty: Byte, raw: Bytes, kids: Forest, rest: Forest)
    requires Shielded(raw) && CarriesAt(s, start + 2, raw)
    requires LiesAt(s, start + 2 + |raw|, kids) && Reads(s, start + 2 + |raw|, kids)
    requires var e := start + 2 + |raw| + Len(kids);
      && e < |s| && s[e] == NODE_END
      && LiesAt(s, e + 1, rest) && StopsAt(s, e + 1 + Len(rest)) && Reads(s, e + 1, rest)
    ensures var q, e := start + 2 + |raw|, start + 2 + |raw| + Len(kids);
      ParseBody(s, start, ty, -1, NoNode, start + 2)
      == Good(Node(start, |raw|, ty, Layout(kids, q), Layout(rest, e + 1)), e + 1 + Len(rest))
  {
    hide Parse, ParseBody, ParseBehind, LiesAt, Shielded, CarriesAt;
    var q, e := start + 2 + |raw|, start + 2 + |raw| + Len(kids);
    ScanProps(s, start, ty, start + 2, raw);
    if kids.Cons? {
      ParseKids(s, start, ty, q, kids);
      ParseEnd(s, start, ty, |raw|, Layout(kids, q), e, rest);
    } else {
      ParseEnd(s, start, ty, -1, NoNode, e, rest);
    }
  }

  lemma {:induction false} ParseComplete(s: Bytes, p: nat, f: Forest)
    requires AllShielded(f) && LiesAt(s, p, f) && StopsAt(s, p + Len(f))
    ensures Reads(s, p, f)
    decreases f
  {
    hide ParseBody, ParseBehind, Shielded, CarriesAt;
    if f.Cons? {
      var kidsAt := p + 2 + |f.props|;
      ParseComplete(s, kidsAt + Len(f.kids) + 1, f.rest);
      ParseComplete(s, kidsAt, f.kids);
      ParseOne(s, p, f.ty, f.props, f.kids, f.rest);
    }
  }

  // ---------- ... and nothing else ----------

  // `r` is the record tree of forest `f`, whose bytes start at `start`.
  predicate Yields(s: Bytes, start: nat, r: Parsed, f: Forest) {
    && f.Cons? && AllShielded(f)
    && LiesAt(s, start, f) && StopsAt(s, start + Len(f))
    && r == Good(Layout(f, start), start + Len(f))
  }

  lemma {:induction false} ParseSound(s: Bytes, p: nat) returns (f: Forest)
    requires p < |s| && s[p] == NODE_START && Parse(s, p + 1).Good?
    ensures Yields(s, p, Parse(s, p + 1), f)
    decreases |s| - p, 0
  {
    f := BodySound(s, p, p + 2, []);
  }

  // `raw` is what has been scanned of the current node's properties.
  lemma {:induction false} BodySound(s: Bytes, start: nat, p: nat, raw: Bytes) returns (f: Forest)
    requires start + 2 + |raw| == p <= |s| && s[start] == NODE_START
    requires Shielded(raw) && CarriesAt(s, start + 2, raw)
    requires ParseBody(s, start, s[start + 1], -1, NoNode, p).Good?
    ensures Yields(s, start, ParseBody(s, start, s[start + 1], -1, NoNode, p), f)
    decreases |s| - p, 2
  {
    hide Parse, ParseBody, ParseBehind, Shielded, CarriesAt;
    BodyStep(s, start, s[start + 1], -1, NoNode, p);
    if s[p] == NODE_START {
      var kids := ParseSound(s, p);
      ParseKids(s, start, s[start + 1], p, kids);
      f := NodeSound(s, start, raw, kids);
    } else if s[p] == NODE_END {
      f := NodeSound(s, start, raw, Nil);
    } else {
      var raw' := ScanUnit(s, start, p, raw);
      f := BodySound(s, start, start + 2 + |raw'|, raw');
    }
  }

  // One step of the scan: a plain byte, or an escape byte with the byte it protects.
  lemma {:induction false} ScanUnit(s: Bytes, start: nat, p: nat, raw: Bytes) returns (raw': Bytes)
    requires start + 2 + |raw| == p < |s| && s[p] != NODE_START && s[p] != NODE_END
    requires Shielded(raw) && CarriesAt(s, start + 2, raw)
    requires ParseBody(s, start, s[start + 1], -1, NoNode, p).Good?
    ensures Shielded(raw') && CarriesAt(s, start + 2, raw') && |raw| < |raw'| && start + 2 + |raw'| <= |s|
    ensures ParseBody(s, start, s[start + 1], -1, NoNode, p)
      == ParseBody(s, start, s[start + 1], -1, NoNode, start + 2 + |raw'|)
  {
    var unit := if s[p] == ESCAPE_CHAR then [s[p], s[p + 1]] else [s[p]];
    raw' := raw + unit;
    ShieldedAppend(raw, unit);
    CarriesAppend(s, start + 2, raw, unit);
  }

  // What the parser makes of a node from its end byte on, its properties and children being known.
  function NodeTail(s: Bytes, start: nat, raw: Bytes, kids: Forest): Parsed
    requires start + 2 <= |s|
  {
    ParseBody(s, start, s[start + 1], if kids.Nil? then -1 else |raw|, Layout(kids, start + 2 + |raw|),
              start + 2 + |raw| + Len(kids))
  }

  lemma {:induction false} NodeSound(s: Bytes, start: nat, raw: Bytes, kids: Forest) returns (f: Forest)
    requires start + 2 <= |s| && s[start] == NODE_START && Shielded(raw) && AllShielded(kids)
    requires CarriesAt(s, start + 2, raw) && LiesAt(s, start + 2 + |raw|, kids)
    requires var e := start + 2 + |raw| + Len(kids); e < |s| && s[e] == NODE_END
    requires NodeTail(s, start, raw, kids).Good?
    ensures Yields(s, start, NodeTail(s, start, raw, kids), f)
    decreases |s| - (start + 2 + |raw| + Len(kids)), 1
  {
    hide Parse, ParseBody, ParseBehind, NodeTail, CarriesAt, Shielded;
    var rest := RestSound(s, start, raw, kids);
    f := Cons(s[start + 1], raw, kids, rest);
  }

  lemma {:induction false} RestSound(s: Bytes, start: nat, raw: Bytes, kids: Forest) returns (rest: Forest)
    requires start + 2 <= |s|
    requires var e := start + 2 + |raw| + Len(kids); e < |s| && s[e] == NODE_END
    requires NodeTail(s, start, raw, kids).Good?
    ensures AllShielded(rest)
    ensures var e := start + 2 + |raw| + Len(kids);
      && LiesAt(s, e + 1, rest) && StopsAt(s, e + 1 + Len(rest))
      && NodeTail(s, start, raw, kids)
         == Good(Node(start, |raw|, s[start + 1], Layout(kids, start + 2 + |raw|), Layout(rest, e + 1)),
                 e + 1 + Len(rest))
    decreases |s| - (start + 2 + |raw| + Len(kids)), 0
  {
    hide ParseBody, Parse;
    var e := start + 2 + |raw| + Len(kids);
    rest := Nil;
    BodyStep(s, start, s[start + 1], if kids.Nil? then -1 else |raw|, Layout(kids, start + 2 + |raw|), e);
    if e + 1 < |s| && s[e + 1] == NODE_START {
      rest := ParseSound(s, e + 1);
    }
    ParseEnd(s, start, s[start + 1], if kids.Nil? then -1 else |raw|, Layout(kids, start + 2 + |raw|), e, rest);
  }

  lemma {:induction false} ShieldedAppend(a: Bytes, b: Bytes)
    requires Shielded(a) && Shielded(b)
    ensures Shielded(a + b)
    decreases |a|
  {
    if a == [] {
      assert a + b == b;
    } else {
      var k := if a[0] == ESCAPE_CHAR then 2 else 1;
      assert (a + b)[k..] == a[k..] + b;
      ShieldedAppend(a[k..], b);
    }
  }

  // ---------- reading undoes writing ----------

  lemma {:induction false} UnescapeEscape(props: Bytes)
    ensures Shielded(Escape(props)) && Unescape(Escape(props)) == props
  {
    if props != [] {
      UnescapeEscape(props[1..]);
      var k := if props[0] >= ESCAPE_CHAR then 2 else 1;
      assert Escape(props)[k..] == Escape(props[1..]);
    }
  }

  // The three special bytes, 0xFD to 0xFF, are escaped, and no other.
  lemma {:induction false} EscapeBytewise(x: Byte, props: Bytes)
    ensures Escape([x] + props) == (if x in {0xFD, 0xFE, 0xFF} then [0xFD, x] else [x]) + Escape(props)
  {
    assert ([x] + props)[1..] == props;
  }

  lemma {:induction false} EscapedShielded(f: Forest)
    ensures AllShielded(Escaped(f))
  {
    if f.Cons? {
      UnescapeEscape(f.props);
      EscapedShielded(f.kids);
      EscapedShielded(f.rest);
    }
  }

  // Record `n` holds node list `f`: same shape and types, and unescaping the bytes of its property region
  // gives the properties.
  predicate Describes(s: Bytes, n: Node, f: Forest) {
    match f
    case Nil => n == NoNode
    case Cons(ty, props, kids, rest) =>
      && n.Node? && n.ty == ty
      && PropsInside(s, n.start, n.propsSize)
      && Unescape(PropsRegion(s, n.start, n.propsSize)) == props
      && Describes(s, n.child, kids) && Describes(s, n.next, rest)
  }

  function PropsRegion(s: Bytes, start: nat, size: nat): Bytes
    requires start + 2 + size <= |s|
  {
    s[start + 2..start + 2 + size]
  }

  predicate PropsInside(s: Bytes, start: nat, size: nat) {
    start + 2 + size <= |s| && Shielded(PropsRegion(s, start, size))
  }

  // Every property region of a record tree lies inside the file and is shielded.
  predicate AllInside(s: Bytes, n: Node) {
    n.Node? ==> PropsInside(s, n.start, n.propsSize) && AllInside(s, n.child) && AllInside(s, n.next)
  }

  lemma RegionCarried(s: Bytes, p: nat, raw: Bytes)
    requires CarriesAt(s, p + 2, raw)
    ensures PropsRegion(s, p, |raw|) == raw
  {
  }

  lemma {:induction false} LayoutInside(s: Bytes, p: nat, f: Forest)
    requires AllShielded(f) && LiesAt(s, p, f)
    ensures AllInside(s, Layout(f, p))
    decreases f
  {
    hide CarriesAt, PropsRegion;
    if f.Cons? {
      RegionCarried(s, p, f.props);
      var kidsAt := p + 2 + |f.props|;
      LayoutInside(s, kidsAt, f.kids);
      LayoutInside(s, kidsAt + Len(f.kids) + 1, f.rest);
    }
  }

  lemma {:induction false} LayoutDescribes(s: Bytes, p: nat, f: Forest)
    requires LiesAt(s, p, Escaped(f))
    ensures Describes(s, Layout(Escaped(f), p), f)
    decreases f
  {
    hide CarriesAt, PropsRegion, Shielded, Escape, Unescape;
    if f.Cons? {
      var raw, kids, rest := Escape(f.props), Escaped(f.kids), Escaped(f.rest);
      assert Escaped(f) == Cons(f.ty, raw, kids, rest);
      var kidsAt := p + 2 + |raw|;
      LayoutDescribes(s, kidsAt, f.kids);
      LayoutDescribes(s, kidsAt + Len(kids) + 1, f.rest);
      RegionCarried(s, p, raw);
      UnescapeEscape(f.props);
    }
  }

  // Whatever the file: a successful parse leaves only property regions that getProps can read.
  lemma ParsedInside(s: Bytes, p: nat)
    requires p < |s| && s[p] == NODE_START && Parse(s, p + 1).Good?
    ensures AllInside(s, Parse(s, p + 1).node)
  {
    var f := ParseSound(s, p);
    LayoutInside(s, p, f);
  }

  // Writing a forest and parsing the bytes gives records of that forest.
  lemma RoundTrip(s: Bytes, p: nat, f: Forest)
    requires f.Cons? && CarriesAt(s, p, Encode(f)) && StopsAt(s, p + |Encode(f)|)
    ensures Parse(s, p + 1).Good? && Parse(s, p + 1).pos == p + |Encode(f)|
    ensures Describes(s, Parse(s, p + 1).node, f)
  {
    LiesWire(s, p, Escaped(f));
    EscapedShielded(f);
    ParseComplete(s, p, Escaped(f));
    LayoutDescribes(s, p, f);
  }

  // `s` holds, from `p` on, the bytes of a nonempty sibling list and then a place where reading stops.
  predicate Holds(s: Bytes, p: nat, f: Forest) {
    f.Cons? && AllShielded(f) && CarriesAt(s, p, Wire(f)) && StopsAt(s, p + |Wire(f)|)
  }

  // The accepted language, exactly.
  lemma Accepts(s: Bytes, p: nat)
    requires p < |s| && s[p] == NODE_START
    ensures Parse(s, p + 1).Good? <==> exists f: Forest :: Holds(s, p, f)
  {
    if Parse(s, p + 1).Good? {
      var f := ParseSound(s, p);
      LiesWire(s, p, f);
      assert Holds(s, p, f);
    }
    forall f: Forest | Holds(s, p, f)
      ensures Parse(s, p + 1).Good?
    {
      LiesWire(s, p, f);
      ParseComplete(s, p, f);
    }
  }
}
