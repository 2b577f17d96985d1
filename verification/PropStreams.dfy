/** PropStream and PropWriteStream, and the attribute codec's methods on them. */
module PropStreams {
  import opened Bytes
  import opened Common
  import opened ItemCodec

  // A reader: `p` walks through the data.
  class PropStream {
    const data: Bytes
    var p: nat

    ghost predicate Valid()
      reads this
    {
      p <= |data|
    }

    constructor (data: Bytes)
      ensures this.data == data && p == 0 && Valid()
    {
      this.data := data;
      p := 0;
    }

    // GET_VALUE of a number of `width` bytes. A failing read moves nothing.
    method GetNumber(width: nat) returns (ok: bool, v: nat)
      requires Valid()
      modifies this`p
      ensures Valid()
      ensures ok <==> old(p) + width <= |data|
      ensures p == if ok then old(p) + width else old(p)
      ensures ok ==> v == LeValue(data[old(p)..p])
    {
      if |data| - p < width {
        return false, 0;
      }
      ok, v := true, LeValue(data[p..p + width]);
      p := p + width;
    }

    // GET_STRING: the length stays read when the characters are missing.
    method GetString() returns (ok: bool, s: Bytes)
      requires Valid()
      modifies this`p
      ensures Valid()
      ensures ok ==> old(p) + 2 <= |data|
      ensures !ok ==> p == if old(p) + 2 <= |data| then old(p) + 2 else old(p)
      ensures old(p) + 2 <= |data| ==>
        var len := U16(LeValue(data[old(p)..old(p) + 2]));
        && (ok <==> old(p) + 2 + len <= |data|)
        && (ok ==> p == old(p) + 2 + len && s == data[old(p) + 2..p])
    {
      s := [];
      var len;
      ok, len := GetNumber(2);
      if !ok {
        return;
      }
      len := U16(len);
      if |data| - p < len {
        return false, s;
      }
      s := data[p..p + len];
      p := p + len;
    }
  }

  // A writer: the first `size` bytes of a buffer that doubles when it has to grow.
  class PropWriteStream {
    var buffer: array<Byte>
    var size: nat

    ghost predicate Valid()
      reads this
    {
      size <= buffer.Length && 0 < buffer.Length
    }

    ghost function Contents(): Bytes
      requires Valid()
      reads this, buffer
    {
      buffer[..size]
    }

    constructor ()
      ensures Valid() && Contents() == [] && fresh(buffer)
    {
      buffer := new Byte[32](_ => 0);
      size := 0;
    }

    method Clear()
      requires Valid()
      modifies this`size
      ensures Valid() && Contents() == []
    {
      size := 0;
    }

    method Reserve(length: nat)
      requires Valid()
      modifies this`buffer
      ensures Valid() && Contents() == old(Contents()) && buffer.Length - size >= length
      ensures buffer == old(buffer) || fresh(buffer)
    {
      if buffer.Length - size >= length {
        return;
      }
      var bufferSize := buffer.Length;
      while true
        invariant bufferSize >= buffer.Length
        decreases size + length - bufferSize
      {
        bufferSize := bufferSize * 2;
        if bufferSize - size >= length {
          break;
        }
      }
      var bigger := new Byte[bufferSize](_ => 0);
      forall i | 0 <= i < size {
        bigger[i] := buffer[i];
      }
      assert bigger[..size] == buffer[..size];
      buffer := bigger;
    }

    // memcpy behind the contents
    method Add(bytes: Bytes)
      requires Valid()
      modifies this, buffer
      ensures Valid() && Contents() == old(Contents()) + bytes
      ensures buffer == old(buffer) || fresh(buffer)
    {
      Reserve(|bytes|);
      forall i | 0 <= i < |bytes| {
        buffer[size + i] := bytes[i];
      }
      assert buffer[..size] == old(Contents());
      size := size + |bytes|;
    }

    // ADD_VALUE of a number of `width` bytes
    method AddNumber(width: nat, v: nat)
      requires Valid()
      modifies this, buffer
      ensures Valid() && Contents() == old(Contents()) + Le(width, v)
      ensures buffer == old(buffer) || fresh(buffer)
    {
      Add(Le(width, v));
    }

    // ADD_STRING: the length is cut to 16 bits, the characters are not.
    method AddString(s: Bytes)
      requires Valid()
      modifies this, buffer
      ensures Valid() && Contents() == old(Contents()) + Le(2, U16(|s|)) + s
      ensures buffer == old(buffer) || fresh(buffer)
    {
      AddNumber(2, U16(|s|));
      Add(s);
    }

    // A tag and its value.
    method AddAttribute(a: Attribute)
      requires Valid()
      modifies this, buffer
      ensures Valid() && Contents() == old(Contents()) + AttributeBytes(a)
      ensures buffer == old(buffer) || fresh(buffer)
    {
      hide Valid, Contents, Le, U16;
      ghost var before := Contents();
      AddNumber(1, a.tag);
      OneByte(a.tag);
      match a {
        case Num(tag, v) =>
          AddNumber(Width(tag), v);
          Regroup(before, [tag], Le(Width(tag), v));
        case Chars(tag, s) =>
          AddString(s);
          Regroup(before, [tag], Le(2, U16(|s|)));
          Regroup(before, [tag] + Le(2, U16(|s|)), s);
      }
    }
  }

  lemma OneByte(b: Byte)
    ensures Le(1, b) == [b]
  {
    assert Le(0, b / 256) == [];
  }

  // ---------- writing attributes ----------

  lemma {:induction false} BytesAppend(a: seq<Attribute>, b: seq<Attribute>)
    ensures AttributesBytes(a + b) == AttributesBytes(a) + AttributesBytes(b)
    decreases |a|
  {
    if a == [] {
      assert a + b == b;
    } else {
      assert (a + b)[1..] == a[1..] + b;
      BytesAppend(a[1..], b);
    }
  }

  lemma OneMore(base: Bytes, s: seq<Attribute>, a: Attribute)
    ensures base + AttributesBytes(s) + AttributeBytes(a) == base + AttributesBytes(s + [a])
  {
    hide AttributeBytes;
    BytesAppend(s, [a]);
    assert AttributesBytes([a]) == AttributeBytes(a) + AttributesBytes([]);
    assert AttributeBytes(a) + [] == AttributeBytes(a);
    assert base + AttributesBytes(s) + AttributeBytes(a) == base + (AttributesBytes(s) + AttributeBytes(a));
  }

  // Some attributes more, behind those already written.
  method AddAttributes(stream: PropWriteStream, attrs: seq<Attribute>, ghost base: Bytes, ghost before: seq<Attribute>)
    returns (ghost s: seq<Attribute>)
    requires stream.Valid() && stream.Contents() == base + AttributesBytes(before)
    modifies stream, stream.buffer
    ensures s == before + attrs
    ensures stream.Valid() && stream.Contents() == base + AttributesBytes(s)
    ensures stream.buffer == old(stream.buffer) || fresh(stream.buffer)
  {
    hide AttributeBytes, AttributesBytes, PropWriteStream.Contents, PropWriteStream.Valid;
    s := before;
    assert before + attrs[..0] == before && attrs[..|attrs|] == attrs;
    var i := 0;
    while i < |attrs|
      invariant 0 <= i <= |attrs| && s == before + attrs[..i]
      invariant stream.Valid() && stream.Contents() == base + AttributesBytes(s)
      invariant stream.buffer == old(stream.buffer) || fresh(stream.buffer)
    {
      stream.AddAttribute(attrs[i]);
      OneMore(base, s, attrs[i]);
      assert before + attrs[..i] + [attrs[i]] == before + attrs[..i + 1];
      s := s + [attrs[i]];
      i := i + 1;
    }
  }

  // Item::serializeAttr, as far as the decay state
  method SerializeState(types: Types, x: Props, stream: PropWriteStream)
    requires stream.Valid()
    modifies stream, stream.buffer
    ensures stream.Valid() && stream.Contents() == old(stream.Contents()) + AttributesBytes(StateAttributes(types, x))
    ensures stream.buffer == old(stream.buffer) || fresh(stream.buffer)
  {
    hide SubTypeOf, NumberOf, TextOf, AttributesBytes, PropWriteStream.Contents, PropWriteStream.Valid;
    ghost var base, s := stream.Contents(), [];
    NothingWritten(base);
    s := AddAttributes(stream, SubTypeOf(types, x), base, s);
    assert [] + SubTypeOf(types, x) == SubTypeOf(types, x);
    s := AddAttributes(stream, NumberOf(types, x, ActionId), base, s);
    s := AddAttributes(stream, TextOf(x, StrAttr.Text), base, s);
    s := AddAttributes(stream, NumberOf(types, x, Date), base, s);
    s := AddAttributes(stream, TextOf(x, Writer), base, s);
    s := AddAttributes(stream, TextOf(x, Description), base, s);
    s := AddAttributes(stream, NumberOf(types, x, Duration), base, s);
    s := AddAttributes(stream, NumberOf(types, x, DecayState), base, s);
    assert s == StateAttributes(types, x);
  }

  // Item::serializeAttr
  method SerializeAttr(types: Types, x: Props, stream: PropWriteStream)
    requires stream.Valid()
    modifies stream, stream.buffer
    ensures stream.Valid() && stream.Contents() == old(stream.Contents()) + AttributesBytes(Attributes(types, x))
    ensures stream.buffer == old(stream.buffer) || fresh(stream.buffer)
  {
    hide StateAttributes, NumberOf, TextOf, AttributesBytes, PropWriteStream.Contents, PropWriteStream.Valid;
    ghost var base, s := stream.Contents(), StateAttributes(types, x);
    SerializeState(types, x, stream);
    s := AddAttributes(stream, NumberOf(types, x, Attack), base, s);
    s := AddAttributes(stream, NumberOf(types, x, Defense), base, s);
    s := AddAttributes(stream, NumberOf(types, x, ExtraDefense), base, s);
    s := AddAttributes(stream, NumberOf(types, x, Armor), base, s);
    s := AddAttributes(stream, NumberOf(types, x, ShootRange), base, s);
    s := AddAttributes(stream, NumberOf(types, x, HitChance), base, s);
    s := AddAttributes(stream, TextOf(x, Name), base, s);
    s := AddAttributes(stream, TextOf(x, Article), base, s);
    assert s == Attributes(types, x);
  }

  lemma NothingWritten(base: Bytes)
    ensures base + AttributesBytes([]) == base
  {
  }

  // ---------- reading attributes ----------

  // Item::readAttr and Container::readAttr, applied to item `x`.
  method ReadAttribute(types: Types, x: Props, tag: Byte, stream: PropStream) returns (r: Loaded, end: bool)
    requires stream.Valid()
    modifies stream`p
    ensures stream.Valid()
    ensures var expected := ReadAttr(types(x.id).container, tag, stream.data, old(stream.p));
      match expected
      case ReadError => r.Failed?
      case ReadEnd(count, q) => r == Loaded(x, count, q) && end && stream.p == q
      case ReadContinue(a, q) => r == Loaded(Apply(types, x, a), 0, q) && !end && stream.p == q
  {
    end := false;
    if tag == ATTR_CONTAINER_ITEMS {
      var ok, count := stream.GetNumber(4);
      if !ok || !types(x.id).container {
        return Failed, end;
      }
      return Loaded(x, count, stream.p), true;
    }
    if IsText(tag) {
      var ok, s := stream.GetString();
      if !ok {
        return Failed, end;
      }
      return Loaded(ApplyText(x, tag, s), 0, stream.p), end;
    }
    if Width(tag) == 0 {
      return Failed, end;
    }
    var ok, v := stream.GetNumber(Width(tag));
    if !ok {
      return Failed, end;
    }
    r := Loaded(ApplyNum(types, x, tag, v), 0, stream.p);
  }

  // Item::unserializeAttr
  method UnserializeAttr(types: Types, x: Props, stream: PropStream) returns (r: Loaded)
    requires stream.Valid()
    modifies stream`p
    ensures stream.Valid()
    ensures r == Unserialize(types, x, stream.data, old(stream.p))
    ensures r.Loaded? ==> stream.p == r.pos
  {
    var y := x;
    while true
      invariant stream.Valid()
      invariant Unserialize(types, x, stream.data, old(stream.p)) == Unserialize(types, y, stream.data, stream.p)
      decreases |stream.data| - stream.p
    {
      hide Apply, ReadAttr;
      var ok, tag := stream.GetNumber(1);
      if !ok {
        return Loaded(y, 0, stream.p);
      }
      if tag == 0 {
        return Loaded(y, 0, stream.p);
      }
      var end;
      r, end := ReadAttribute(types, y, tag, stream);
      if r.Failed? || end {
        return;
      }
      y := r.x;
    }
  }
}
