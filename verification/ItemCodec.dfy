/** Item attributes and their byte form: Item::serializeAttr, Item::readAttr and Item::unserializeAttr.

    `Attributes` and `Unserialize` follow the writer and the reader. What the reader makes of the writer's bytes
    is stated by `Restored`, slot by slot and without bytes (`AttributesRestored`), and it is reached exactly
    for items whose strings are short enough for the 16-bit length field (`StoredExactly`). */
module ItemCodec {
  import opened Bytes

  // The part of an item type that the codecs look at. `plain` types are known, not deprecated, made as Item or
  // Container under their own id.
  datatype ItemType = ItemType(
    plain: bool, container: bool, stackable: bool, fluid: bool, moveable: bool,
    charges: nat, decayTime: nat, weight: int)

  type Types = int -> ItemType

  datatype Option<T> = None | Some(value: T)

  datatype IntAttr =
    | ActionId | UniqueId | Date | Owner | Duration | DecayState | CorpseOwner | Charges | FluidType | DoorId
    | Attack | Defense | ExtraDefense | Armor | ShootRange | HitChance

  datatype StrAttr = Description | Text | Writer | Name | Article

  // An item without its contents.
  datatype Props = Props(id: nat, count: Byte, ints: map<IntAttr, int>, strs: map<StrAttr, Bytes>) {
    function Int(a: IntAttr): int {
      if a in ints then ints[a] else 0
    }

    function Str(a: StrAttr): Bytes {
      if a in strs then strs[a] else []
    }

    function SetInt(a: IntAttr, v: int): Props {
      this.(ints := ints[a := v])
    }

    // Setting an empty string is ignored.
    function SetStr(a: StrAttr, v: Bytes): Props {
      if v == [] then this else this.(strs := strs[a := v])
    }
  }

  const DECAYING_PENDING := 2

  // What the fields of an item can hold: 16-bit ids, 32-bit numbers, no empty strings.
  predicate WellTyped(x: Props) {
    && x.id < 0x1_0000
    && (forall a <- x.ints :: InI32(x.ints[a]))
    && (forall a <- x.strs :: x.strs[a] != [])
  }

  function GetCharges(x: Props): nat { U16(x.Int(Charges)) }

  function GetSubType(types: Types, x: Props): nat {
    var t := types(x.id);
    if t.fluid then U16(x.Int(FluidType))
    else if t.stackable then x.count
    else if t.charges != 0 then GetCharges(x)
    else x.count
  }

  function SetSubType(types: Types, x: Props, n: nat): Props {
    var t := types(x.id);
    if t.fluid then x.SetInt(FluidType, n)
    else if t.stackable then x.(count := U8(n))
    else if t.charges != 0 then x.SetInt(Charges, n)
    else x.(count := U8(n))
  }

  function DefaultDuration(t: ItemType): int {
    U32(t.decayTime * 1000)
  }

  // Item::CreateItem and the Item constructor, for a plain type.
  function CreateItem(types: Types, id: nat, count: nat): Props {
    var t := types(id);
    var n := if t.stackable && count == 0 then 1 else count;
    var x := Props(id, 1, map[], map[]);
    var x := if t.fluid then x.SetInt(FluidType, n)
             else if t.stackable then x.(count := U8(n))
             else if t.charges != 0 then x.SetInt(Charges, U16(if n != 0 then n else t.charges))
             else x;
    if DefaultDuration(t) != 0 then x.SetInt(Duration, I32(DefaultDuration(t))) else x
  }

  // ---------- attribute tags ----------

  const ATTR_ACTION_ID: Byte := 4
  const ATTR_UNIQUE_ID: Byte := 5
  const ATTR_TEXT: Byte := 6
  const ATTR_DESC: Byte := 7
  const ATTR_TELE_DEST: Byte := 8
  const ATTR_DEPOT_ID: Byte := 10
  const ATTR_RUNE_CHARGES: Byte := 12
  const ATTR_HOUSEDOORID: Byte := 14
  const ATTR_COUNT: Byte := 15
  const ATTR_DURATION: Byte := 16
  const ATTR_DECAYING_STATE: Byte := 17
  const ATTR_WRITTENDATE: Byte := 18
  const ATTR_WRITTENBY: Byte := 19
  const ATTR_SLEEPERGUID: Byte := 20
  const ATTR_SLEEPSTART: Byte := 21
  const ATTR_CHARGES: Byte := 22
  const ATTR_CONTAINER_ITEMS: Byte := 23
  const ATTR_ATTACK: Byte := 24
  const ATTR_DEFENSE: Byte := 25
  const ATTR_EXTRA_DEFENSE: Byte := 26
  const ATTR_ARMOR: Byte := 27
  const ATTR_SHOOTRANGE: Byte := 28
  const ATTR_HITCHANCE: Byte := 29
  const ATTR_NAME: Byte := 30
  const ATTR_ARTICLE: Byte := 31

  // An attribute as written: a tag with a number or with a string.
  datatype Attribute = Num(tag: Byte, v: nat) | Chars(tag: Byte, s: Bytes)

  // The field width of a number tag; 0 for any other tag.
  function Width(tag: Byte): nat {
    if tag == ATTR_COUNT || tag == ATTR_RUNE_CHARGES || tag == ATTR_DECAYING_STATE || tag == ATTR_HOUSEDOORID then 1
    else if tag == ATTR_ACTION_ID || tag == ATTR_UNIQUE_ID || tag == ATTR_CHARGES || tag == ATTR_DEPOT_ID then 2
    else if tag == ATTR_WRITTENDATE || tag == ATTR_DURATION || ATTR_ATTACK <= tag <= ATTR_HITCHANCE
         || tag == ATTR_SLEEPERGUID || tag == ATTR_SLEEPSTART then 4
    else if tag == ATTR_TELE_DEST then 6
    else 0
  }

  predicate IsText(tag: Byte) {
    tag == ATTR_TEXT || tag == ATTR_WRITTENBY || tag == ATTR_DESC || tag == ATTR_NAME || tag == ATTR_ARTICLE
  }

  // ---------- writing ----------

  // The number that is written for a slot, if any. The subtype is written apart.
  function NumberWritten(types: Types, x: Props, a: IntAttr): Option<nat> {
    match a
    case ActionId => if types(x.id).moveable && U16(x.Int(a)) != 0 then Some(U16(x.Int(a))) else None
    case Date => if x.Int(a) > 0 then Some(U32(x.Int(a))) else None
    case Duration => if a in x.ints then Some(U32(x.Int(a))) else None
    case DecayState => if x.Int(a) == 1 || x.Int(a) == 2 then Some(U8(x.Int(a))) else None
    case Attack | Defense | ExtraDefense | Armor | ShootRange | HitChance =>
      if x.Int(a) != 0 then Some(U32(x.Int(a))) else None
    case _ => None
  }

  function NumberTag(a: IntAttr): Byte {
    match a
    case ActionId => ATTR_ACTION_ID
    case Date => ATTR_WRITTENDATE
    case Duration => ATTR_DURATION
    case DecayState => ATTR_DECAYING_STATE
    case Attack => ATTR_ATTACK
    case Defense => ATTR_DEFENSE
    case ExtraDefense => ATTR_EXTRA_DEFENSE
    case Armor => ATTR_ARMOR
    case ShootRange => ATTR_SHOOTRANGE
    case HitChance => ATTR_HITCHANCE
    case _ => 0
  }

  function TextTag(a: StrAttr): Byte {
    match a
    case Text => ATTR_TEXT
    case Writer => ATTR_WRITTENBY
    case Description => ATTR_DESC
    case Name => ATTR_NAME
    case Article => ATTR_ARTICLE
  }

  function NumberOf(types: Types, x: Props, a: IntAttr): seq<Attribute> {
    match NumberWritten(types, x, a)
    case Some(v) => [Num(NumberTag(a), v)]
    case None => []
  }

  function TextOf(x: Props, a: StrAttr): seq<Attribute> {
    if x.Str(a) != [] then [Chars(TextTag(a), x.Str(a))] else []
  }

  function SubTypeOf(types: Types, x: Props): seq<Attribute> {
    var t := types(x.id);
    (if t.stackable || t.fluid then [Num(ATTR_COUNT, U8(GetSubType(types, x)))] else [])
    + (if GetCharges(x) != 0 then [Num(ATTR_CHARGES, GetCharges(x))] else [])
  }

  // Item::serializeAttr, as far as the decay state
  function StateAttributes(types: Types, x: Props): seq<Attribute> {
    SubTypeOf(types, x)
    + NumberOf(types, x, ActionId)
    + TextOf(x, StrAttr.Text)
    + NumberOf(types, x, Date)
    + TextOf(x, Writer)
    + TextOf(x, Description)
    + NumberOf(types, x, Duration)
    + NumberOf(types, x, DecayState)
  }

  // Item::serializeAttr
  function Attributes(types: Types, x: Props): seq<Attribute> {
    StateAttributes(types, x)
    + NumberOf(types, x, Attack)
    + NumberOf(types, x, Defense)
    + NumberOf(types, x, ExtraDefense)
    + NumberOf(types, x, Armor)
    + NumberOf(types, x, ShootRange)
    + NumberOf(types, x, HitChance)
    + TextOf(x, Name)
    + TextOf(x, Article)
  }

  function AttributeBytes(a: Attribute): Bytes {
    match a
    case Num(tag, v) => [tag] + Le(Width(tag), v)
    case Chars(tag, s) => [tag] + Le(2, U16(|s|)) + s
  }

  function AttributesBytes(attrs: seq<Attribute>): Bytes {
    if attrs == [] then [] else AttributeBytes(attrs[0]) + AttributesBytes(attrs[1..])
  }

  // ---------- reading ----------

  // The slot that a number tag of plain items sets, and the value it sets there.
  function SlotWritten(tag: Byte, v: nat): Option<(IntAttr, int)> {
    if tag == ATTR_ACTION_ID then Some((ActionId, if v < 100 then 100 else v))
    else if tag == ATTR_WRITTENDATE then Some((Date, I32(v)))
    else if tag == ATTR_DURATION then Some((Duration, if I32(v) < 0 then 0 else I32(v)))
    else if tag == ATTR_DECAYING_STATE then if v != 0 then Some((DecayState, DECAYING_PENDING)) else None
    else if tag == ATTR_ATTACK then Some((Attack, I32(v)))
    else if tag == ATTR_DEFENSE then Some((Defense, I32(v)))
    else if tag == ATTR_EXTRA_DEFENSE then Some((ExtraDefense, I32(v)))
    else if tag == ATTR_ARMOR then Some((Armor, I32(v)))
    else if tag == ATTR_SHOOTRANGE then Some((ShootRange, I32(v)))
    else if tag == ATTR_HITCHANCE then Some((HitChance, I32(v)))
    else None
  }

  function ApplyNum(types: Types, x: Props, tag: Byte, v: nat): Props {
    if tag == ATTR_COUNT || tag == ATTR_RUNE_CHARGES || tag == ATTR_CHARGES then SetSubType(types, x, v)
    else if tag == ATTR_UNIQUE_ID then
      if UniqueId in x.ints then x else x.SetInt(UniqueId, if v < 1000 then 1000 else v)
    else match SlotWritten(tag, v)
      case Some((a, w)) => x.SetInt(a, w)
      case None => x  // the value of another item class: read and dropped
  }

  function SlotOfText(tag: Byte): StrAttr {
    if tag == ATTR_TEXT then StrAttr.Text
    else if tag == ATTR_WRITTENBY then Writer
    else if tag == ATTR_DESC then Description
    else if tag == ATTR_NAME then Name
    else Article
  }

  function ApplyText(x: Props, tag: Byte, s: Bytes): Props {
    x.SetStr(SlotOfText(tag), s)
  }

  function Apply(types: Types, x: Props, a: Attribute): Props {
    match a
    case Num(tag, v) => ApplyNum(types, x, tag, v)
    case Chars(tag, s) => ApplyText(x, tag, s)
  }

  function ApplyAll(types: Types, x: Props, attrs: seq<Attribute>): Props
    decreases |attrs|
  {
    if attrs == [] then x else ApplyAll(types, Apply(types, x, attrs[0]), attrs[1..])
  }

  datatype Read = ReadError | ReadContinue(a: Attribute, pos: nat) | ReadEnd(count: nat, pos: nat)

  // Item::readAttr and Container::readAttr: the value behind `tag`, at position `p`.
  function ReadAttr(container: bool, tag: Byte, s: Bytes, p: nat): (r: Read)
    requires p <= |s|
    ensures r.ReadContinue? || r.ReadEnd? ==> p < r.pos <= |s|
    ensures r.ReadContinue? && r.a.Chars? ==> |r.a.s| < 0x1_0000
  {
    if tag == ATTR_CONTAINER_ITEMS then
      if p + 4 > |s| || !container then ReadError else ReadEnd(LeValue(s[p..p + 4]), p + 4)
    else if IsText(tag) then
      if p + 2 > |s| then ReadError
      else
        var len := U16(LeValue(s[p..p + 2]));
        if p + 2 + len > |s| then ReadError else ReadContinue(Chars(tag, s[p + 2..p + 2 + len]), p + 2 + len)
    else
      var w := Width(tag);
      if w == 0 || p + w > |s| then ReadError else ReadContinue(Num(tag, LeValue(s[p..p + w])), p + w)
  }

  // How many bytes are read, by the number of the tag
  predicate WidthRead(container: bool, tag: Byte, s: Bytes, p: nat, r: Read)
    requires p <= |s|
  {
    var left := |s| - p;
    && (tag in {12, 14, 15, 17} ==> if left < 1 then r == ReadError else r.ReadContinue? && r.pos == p + 1)
    && (tag in {4, 5, 10, 22} ==> if left < 2 then r == ReadError else r.ReadContinue? && r.pos == p + 2)
    && (tag in {16, 18, 20, 21, 24, 25, 26, 27, 28, 29} ==>
          if left < 4 then r == ReadError else r.ReadContinue? && r.pos == p + 4)
    && (tag == 8 ==> if left < 6 then r == ReadError else r.ReadContinue? && r.pos == p + 6)
    && (tag in {6, 7, 19, 30, 31} ==>
          if left < 2 || left < 2 + U16(LeValue(s[p..p + 2])) then r == ReadError
          else r.ReadContinue? && r.pos == p + 2 + U16(LeValue(s[p..p + 2])))
    && (tag == 23 ==> r == if left < 4 || !container then ReadError else ReadEnd(LeValue(s[p..p + 4]), p + 4))
    && (tag !in {4, 5, 6, 7, 8, 10, 12, 14, 15, 16, 17, 18, 19, 20, 21, 22, 23, 24, 25, 26, 27, 28, 29, 30, 31} ==>
          r == ReadError)
  }

  // What a number does to the item, by the number of its tag. What belongs to other classes of items is dropped.
  predicate NumberRead(types: Types, x: Props, tag: Byte, v: nat, y: Props) {
    && (tag in {12, 15, 22} ==> y == SetSubType(types, x, v))
    && (tag == 4 ==> y == x.SetInt(ActionId, if v < 100 then 100 else v))
    && (tag == 5 ==> y == if UniqueId in x.ints then x else x.SetInt(UniqueId, if v < 1000 then 1000 else v))
    && (tag == 16 ==> y == x.SetInt(Duration, if I32(v) < 0 then 0 else I32(v)))
    && (tag == 17 ==> y == if v == 0 then x else x.SetInt(DecayState, 2))
    && (tag == 18 ==> y == x.SetInt(Date, I32(v)))
    && (tag == 24 ==> y == x.SetInt(Attack, I32(v))) && (tag == 25 ==> y == x.SetInt(Defense, I32(v)))
    && (tag == 26 ==> y == x.SetInt(ExtraDefense, I32(v))) && (tag == 27 ==> y == x.SetInt(Armor, I32(v)))
    && (tag == 28 ==> y == x.SetInt(ShootRange, I32(v))) && (tag == 29 ==> y == x.SetInt(HitChance, I32(v)))
    && (tag in {8, 10, 14, 20, 21} ==> y == x)
  }

  // ... and a string
  predicate TextRead(x: Props, tag: Byte, s: Bytes, y: Props) {
    y == if s == [] then x else
         x.(strs := x.strs[(if tag == 6 then StrAttr.Text else if tag == 7 then Description else if tag == 19 then Writer
                            else if tag == 30 then Name else Article) := s])
  }

  lemma TagRead(types: Types, x: Props, tag: Byte, s: Bytes, p: nat)
    requires p <= |s|
    ensures WidthRead(types(x.id).container, tag, s, p, ReadAttr(types(x.id).container, tag, s, p))
    ensures var r := ReadAttr(types(x.id).container, tag, s, p);
      r.ReadContinue? ==>
      if tag in {6, 7, 19, 30, 31} then TextRead(x, tag, s[p + 2..r.pos], Apply(types, x, r.a))
      else NumberRead(types, x, tag, LeValue(s[p..r.pos]), Apply(types, x, r.a))
  {
    hide LeValue, SetSubType, I32, U16;
  }

  // The outcome of unserializeAttr: `count` is the number of contained items, if the bytes give one.
  datatype Loaded = Failed | Loaded(x: Props, count: nat, pos: nat)

  // Item::unserializeAttr
  function Unserialize(types: Types, x: Props, s: Bytes, p: nat): (r: Loaded)
    requires p <= |s|
    ensures r.Loaded? ==> p <= r.pos <= |s|
    decreases |s| - p
  {
    if p == |s| then Loaded(x, 0, p)
    else if s[p] == 0 then Loaded(x, 0, p + 1)
    else match ReadAttr(types(x.id).container, s[p], s, p + 1)
      case ReadError => Failed
      case ReadEnd(count, q) => Loaded(x, count, q)
      case ReadContinue(a, q) => Unserialize(types, Apply(types, x, a), s, q)
  }

  // ---------- the reader follows the writer ----------

  // An attribute that its field can hold.
  predicate Legal(a: Attribute) {
    match a
    case Num(tag, v) => tag != 0 && !IsText(tag) && tag != ATTR_CONTAINER_ITEMS && Width(tag) > 0 && v < Pow256(Width(tag))
    case Chars(tag, s) => IsText(tag) && |s| < 0x1_0000
  }

  lemma ReadOne(container: bool, a: Attribute, s: Bytes, p: nat)
    requires Legal(a) && CarriesAt(s, p, AttributeBytes(a))
    ensures s[p] == a.tag && a.tag != 0
    ensures ReadAttr(container, a.tag, s, p + 1) == ReadContinue(a, p + |AttributeBytes(a)|)
  {
    hide CarriesAt, ReadAttr;
    if a.Num? {
      ReadNumber(container, a.tag, a.v, s, p);
    } else {
      ReadText(container, a.tag, a.s, s, p);
    }
  }

  lemma ReadNumber(container: bool, tag: Byte, v: nat, s: Bytes, p: nat)
    requires Legal(Num(tag, v)) && CarriesAt(s, p, [tag] + Le(Width(tag), v))
    ensures p < |s| && s[p] == tag && tag != 0
    ensures ReadAttr(container, tag, s, p + 1) == ReadContinue(Num(tag, v), p + 1 + Width(tag))
  {
    hide CarriesAt, Le, LeValue;
    FirstCarried(s, p, tag, Le(Width(tag), v));
    CarriesAppend(s, p, [tag], Le(Width(tag), v));
    CarriedSlice(s, p + 1, Le(Width(tag), v));
    LeRoundTrip(Width(tag), v);
  }

  lemma ReadText(container: bool, tag: Byte, text: Bytes, s: Bytes, p: nat)
    requires Legal(Chars(tag, text)) && CarriesAt(s, p, [tag] + Le(2, U16(|text|)) + text)
    ensures p < |s| && s[p] == tag && tag != 0
    ensures ReadAttr(container, tag, s, p + 1) == ReadContinue(Chars(tag, text), p + 3 + |text|)
  {
    hide CarriesAt, Le, LeValue;
    var len := Le(2, U16(|text|));
    assert [tag] + len + text == [tag] + (len + text);
    FirstCarried(s, p, tag, len + text);
    CarriesAppend(s, p, [tag] + len, text);
    CarriesAppend(s, p, [tag], len);
    CarriedSlice(s, p + 1, len);
    CarriedSlice(s, p + 3, text);
    assert Pow256(2) == 0x1_0000;
    LeRoundTrip(2, |text|);
  }

  lemma FirstCarried(s: Bytes, p: nat, tag: Byte, rest: Bytes)
    requires CarriesAt(s, p, [tag] + rest)
    ensures p < |s| && s[p] == tag
  {
    assert ([tag] + rest)[0] == tag;
  }

  lemma ApplyKeepsId(types: Types, x: Props, a: Attribute)
    ensures Apply(types, x, a).id == x.id
  {
  }

  lemma UnserializeOne(types: Types, x: Props, a: Attribute, s: Bytes, p: nat)
    requires Legal(a) && CarriesAt(s, p, AttributeBytes(a))
    ensures p + |AttributeBytes(a)| <= |s| && Apply(types, x, a).id == x.id
    ensures Unserialize(types, x, s, p) == Unserialize(types, Apply(types, x, a), s, p + |AttributeBytes(a)|)
  {
    hide Legal, ReadAttr, AttributeBytes, CarriesAt, Apply;
    ReadOne(types(x.id).container, a, s, p);
    ApplyKeepsId(types, x, a);
  }

  // The reader's loop takes the written attributes one by one, and goes on behind them.
  lemma {:induction false} UnserializeAttributes(types: Types, x: Props, attrs: seq<Attribute>, s: Bytes, p: nat)
    requires forall a <- attrs :: Legal(a)
    requires CarriesAt(s, p, AttributesBytes(attrs))
    ensures p + |AttributesBytes(attrs)| <= |s| && ApplyAll(types, x, attrs).id == x.id
    ensures Unserialize(types, x, s, p) == Unserialize(types, ApplyAll(types, x, attrs), s, p + |AttributesBytes(attrs)|)
    decreases |attrs|
  {
    hide Legal, Unserialize, Apply, AttributeBytes;
    if attrs != [] {
      var a := attrs[0];
      CarriesAppend(s, p, AttributeBytes(a), AttributesBytes(attrs[1..]));
      UnserializeOne(types, x, a, s, p);
      UnserializeAttributes(types, Apply(types, x, a), attrs[1..], s, p + |AttributeBytes(a)|);
    }
  }

  // ---------- what is restored ----------

  // The number that slot `a` of an item holds after it was written and read back into a new item of its type.
  function RestoredInt(types: Types, x: Props, a: IntAttr): Option<int> {
    var t := types(x.id);
    match a
    case ActionId =>
      var id := U16(x.Int(ActionId));
      if !t.moveable || id == 0 then None else Some(if id < 100 then 100 else id)
    case Date => if x.Int(Date) > 0 then Some(x.Int(Date)) else None
    case Duration =>
      if Duration in x.ints then Some(if x.Int(Duration) < 0 then 0 else x.Int(Duration))
      else if DefaultDuration(t) != 0 then Some(I32(DefaultDuration(t))) else None
    case DecayState => if x.Int(DecayState) == 1 || x.Int(DecayState) == 2 then Some(DECAYING_PENDING) else None
    case Charges =>
      if t.fluid || t.stackable || t.charges == 0 then None
      else Some(if GetCharges(x) != 0 then GetCharges(x) else U16(t.charges))
    case FluidType =>
      if !t.fluid then None else Some(if GetCharges(x) != 0 then GetCharges(x) else U8(x.Int(FluidType)))
    case UniqueId => None
    case Owner => None
    case CorpseOwner => None
    case DoorId => None
    case _ => if x.Int(a) != 0 then Some(x.Int(a)) else None
  }

  function RestoredCount(types: Types, x: Props): Byte {
    var t := types(x.id);
    if t.fluid || (!t.stackable && (t.charges != 0 || GetCharges(x) == 0)) then 1
    else if GetCharges(x) != 0 then U8(GetCharges(x)) else x.count
  }

  function Restored(types: Types, x: Props): Props {
    Props(x.id, RestoredCount(types, x),
          map a: IntAttr | RestoredInt(types, x, a).Some? :: RestoredInt(types, x, a).value,
          x.strs)
  }

  lemma {:induction false} ApplyAppend(types: Types, x: Props, a: seq<Attribute>, b: seq<Attribute>)
    ensures ApplyAll(types, x, a + b) == ApplyAll(types, ApplyAll(types, x, a), b)
    decreases |a|
  {
    if a == [] {
      assert a + b == b;
    } else {
      assert (a + b)[1..] == a[1..] + b;
      ApplyAppend(types, Apply(types, x, a[0]), a[1..], b);
    }
  }

  function Slot(y: Props, a: IntAttr): Option<int> {
    if a in y.ints then Some(y.ints[a]) else None
  }

  // Item `y` is a new item of x's type in which just the slots in `ints` and `strs`, and what the subtype stands
  // for, have been restored.
  predicate Partly(types: Types, x: Props, y: Props, ints: set<IntAttr>, strs: set<StrAttr>) {
    && y.id == x.id && y.count == RestoredCount(types, x)
    && (forall a: IntAttr ::
          Slot(y, a) == if a in ints + {Charges, FluidType} then RestoredInt(types, x, a)
                        else Slot(CreateItem(types, x.id, 0), a))
    && (forall a: StrAttr :: a in y.strs <==> a in strs && a in x.strs)
    && (forall a <- y.strs :: y.strs[a] == x.strs[a])
  }

  lemma SubTypeRestored(types: Types, x: Props)
    requires WellTyped(x)
    ensures Partly(types, x, ApplyAll(types, CreateItem(types, x.id, 0), SubTypeOf(types, x)), {}, {})
  {
    var y, t := CreateItem(types, x.id, 0), types(x.id);
    var count := if t.stackable || t.fluid then [Num(ATTR_COUNT, U8(GetSubType(types, x)))] else [];
    var charges := if GetCharges(x) != 0 then [Num(ATTR_CHARGES, GetCharges(x))] else [];
    var z := if t.stackable || t.fluid then SetSubType(types, y, U8(GetSubType(types, x))) else y;
    assert ApplyAll(types, y, count + charges)
      == if GetCharges(x) != 0 then SetSubType(types, z, GetCharges(x)) else z by
    {
      hide CreateItem, SetSubType, GetSubType, GetCharges;
      ApplyAppend(types, y, count, charges);
    }
    SubTypeSet(types, x);
  }

  // A new item of x's type after the subtype and the charges have been set
  function Stamped(types: Types, x: Props): Props {
    var t, made := types(x.id), CreateItem(types, x.id, 0);
    var z := if t.stackable || t.fluid then SetSubType(types, made, U8(GetSubType(types, x))) else made;
    if GetCharges(x) != 0 then SetSubType(types, z, GetCharges(x)) else z
  }

  lemma StampedCount(types: Types, x: Props)
    ensures var w := Stamped(types, x); w.id == x.id && w.strs == map[] && w.count == RestoredCount(types, x)
  {
    hide GetCharges;
  }

  lemma StampedElsewhere(types: Types, x: Props, a: IntAttr)
    requires a != Charges && a != FluidType
    ensures Slot(Stamped(types, x), a) == Slot(CreateItem(types, x.id, 0), a)
  {
    hide GetCharges, GetSubType, CreateItem;
  }

  lemma StampedCharges(types: Types, x: Props)
    ensures Slot(Stamped(types, x), Charges) == RestoredInt(types, x, Charges)
  {
    hide GetCharges, GetSubType;
  }

  lemma StampedFluid(types: Types, x: Props)
    ensures Slot(Stamped(types, x), FluidType) == RestoredInt(types, x, FluidType)
  {
    hide GetCharges, U8, U16;
    LowByte(x.Int(FluidType));
  }

  lemma LowByte(v: int)
    ensures U8(U16(v)) == U8(v)
  {}

  lemma SubTypeSet(types: Types, x: Props)
    requires WellTyped(x)
    ensures Partly(types, x, Stamped(types, x), {}, {})
  {
    hide RestoredInt, RestoredCount, CreateItem, Stamped, Slot;
    StampedCount(types, x);
    forall a: IntAttr
      ensures Slot(Stamped(types, x), a) == if a in {Charges, FluidType} then RestoredInt(types, x, a)
                                            else Slot(CreateItem(types, x.id, 0), a)
    {
      if a == Charges {
        StampedCharges(types, x);
      } else if a == FluidType {
        StampedFluid(types, x);
      } else {
        StampedElsewhere(types, x, a);
      }
    }
  }

  // What the writer writes for a slot is what the reader has to restore there.
  lemma NumberRestored(types: Types, x: Props, a: IntAttr)
    requires WellTyped(x) && a != Charges && a != FluidType
    ensures match NumberWritten(types, x, a)
      case Some(v) => SlotWritten(NumberTag(a), v).Some? && SlotWritten(NumberTag(a), v).value.0 == a
                      && RestoredInt(types, x, a) == Some(SlotWritten(NumberTag(a), v).value.1)
      case None => RestoredInt(types, x, a) == Slot(CreateItem(types, x.id, 0), a)
  {
    hide I32, U32, U16, U8, CreateItem, DefaultDuration;
    SignedBack(x.Int(a));
    SmallBack(x.Int(a));
    NewSlot(types, x.id, a);
  }

  // A new item has a default duration, if its type has one, and none of the other numbers.
  lemma NewSlot(types: Types, id: nat, a: IntAttr)
    requires a != Charges && a != FluidType
    ensures Slot(CreateItem(types, id, 0), a) ==
      if a == Duration && DefaultDuration(types(id)) != 0 then Some(I32(DefaultDuration(types(id)))) else None
  {
    hide DefaultDuration, I32;
  }

  lemma SignedBack(v: int)
    requires InI32(v)
    ensures I32(U32(v)) == v
  {}

  lemma SmallBack(v: int)
    ensures v == 1 || v == 2 ==> U8(v) == v
  {}

  lemma NumberApplied(types: Types, x: Props, y: Props, a: IntAttr)
    requires WellTyped(x) && a != Charges && a != FluidType
    ensures ApplyAll(types, y, NumberOf(types, x, a))
      == match NumberWritten(types, x, a)
         case Some(v) => (match SlotWritten(NumberTag(a), v)
                          case Some((b, w)) => y.SetInt(b, w)
                          case None => y)
         case None => y
  {
    hide SlotWritten;
  }

  // One number more, if the writer writes it.
  lemma NumberStep(types: Types, x: Props, before: seq<Attribute>, ints: set<IntAttr>, strs: set<StrAttr>, a: IntAttr)
    returns (s: seq<Attribute>, ints': set<IntAttr>)
    requires WellTyped(x) && a != Charges && a != FluidType
    requires Partly(types, x, ApplyAll(types, CreateItem(types, x.id, 0), before), ints, strs)
    ensures s == before + NumberOf(types, x, a) && ints' == ints + {a}
    ensures Partly(types, x, ApplyAll(types, CreateItem(types, x.id, 0), s), ints', strs)
  {
    hide CreateItem, RestoredInt, RestoredCount, NumberWritten, SlotWritten, ApplyAll, NumberOf, NumberTag, WellTyped;
    s, ints' := before + NumberOf(types, x, a), ints + {a};
    var y := ApplyAll(types, CreateItem(types, x.id, 0), before);
    ApplyAppend(types, CreateItem(types, x.id, 0), before, NumberOf(types, x, a));
    NumberRestored(types, x, a);
    NumberApplied(types, x, y, a);
  }

  // One string more, if the writer writes it.
  lemma TextStep(types: Types, x: Props, before: seq<Attribute>, ints: set<IntAttr>, strs: set<StrAttr>, a: StrAttr)
    returns (s: seq<Attribute>, strs': set<StrAttr>)
    requires WellTyped(x) && Partly(types, x, ApplyAll(types, CreateItem(types, x.id, 0), before), ints, strs)
    ensures s == before + TextOf(x, a) && strs' == strs + {a}
    ensures Partly(types, x, ApplyAll(types, CreateItem(types, x.id, 0), s), ints, strs')
  {
    hide CreateItem, RestoredInt, RestoredCount;
    s, strs' := before + TextOf(x, a), strs + {a};
    ApplyAppend(types, CreateItem(types, x.id, 0), before, TextOf(x, a));
  }

  lemma StateRestored(types: Types, x: Props)
    requires WellTyped(x)
    ensures Partly(types, x, ApplyAll(types, CreateItem(types, x.id, 0), StateAttributes(types, x)),
                   {ActionId, Date, Duration, DecayState}, {StrAttr.Text, Writer, Description})
  {
    hide ApplyAll, Partly, SubTypeOf, NumberOf, TextOf, CreateItem, WellTyped;
    SubTypeRestored(types, x);
    var s, ints, strs := SubTypeOf(types, x), {}, {};
    s, ints := NumberStep(types, x, s, ints, strs, ActionId);
    s, strs := TextStep(types, x, s, ints, strs, StrAttr.Text);
    s, ints := NumberStep(types, x, s, ints, strs, Date);
    s, strs := TextStep(types, x, s, ints, strs, Writer);
    s, strs := TextStep(types, x, s, ints, strs, Description);
    s, ints := NumberStep(types, x, s, ints, strs, Duration);
    s, ints := NumberStep(types, x, s, ints, strs, DecayState);
    assert s == StateAttributes(types, x);
    assert ints == {ActionId, Date, Duration, DecayState} && strs == {StrAttr.Text, Writer, Description};
  }

  // The written attributes turn a new item into the restored one.
  lemma AttributesRestored(types: Types, x: Props)
    requires WellTyped(x)
    ensures ApplyAll(types, CreateItem(types, x.id, 0), Attributes(types, x)) == Restored(types, x)
  {
    hide ApplyAll, Partly, StateAttributes, NumberOf, TextOf, Restored, CreateItem, WellTyped;
    StateRestored(types, x);
    var s := StateAttributes(types, x);
    var ints, strs := {ActionId, Date, Duration, DecayState}, {StrAttr.Text, Writer, Description};
    s, ints := NumberStep(types, x, s, ints, strs, Attack);
    s, ints := NumberStep(types, x, s, ints, strs, Defense);
    s, ints := NumberStep(types, x, s, ints, strs, ExtraDefense);
    s, ints := NumberStep(types, x, s, ints, strs, Armor);
    s, ints := NumberStep(types, x, s, ints, strs, ShootRange);
    s, ints := NumberStep(types, x, s, ints, strs, HitChance);
    s, strs := TextStep(types, x, s, ints, strs, Name);
    s, strs := TextStep(types, x, s, ints, strs, Article);
    assert s == Attributes(types, x);
    AllRestored(types, x, ApplyAll(types, CreateItem(types, x.id, 0), s), ints, strs);
  }

  lemma AllRestored(types: Types, x: Props, y: Props, ints: set<IntAttr>, strs: set<StrAttr>)
    requires WellTyped(x) && Partly(types, x, y, ints, strs)
    requires ints == {ActionId, Date, Duration, DecayState, Attack, Defense, ExtraDefense, Armor, ShootRange, HitChance}
    requires strs == {Description, StrAttr.Text, Writer, Name, Article}
    ensures y == Restored(types, x)
  {
    hide RestoredCount, RestoredInt, CreateItem;
    forall a: IntAttr ensures Slot(y, a) == RestoredInt(types, x, a) {
      SlotRestored(types, x, y, ints, strs, a);
    }
    forall a: StrAttr ensures a in strs {
      match a
      case Text =>
      case _ =>
    }
    assert y.ints == Restored(types, x).ints by {
      forall a: IntAttr ensures Slot(y, a) == Slot(Restored(types, x), a) {}
      assert forall a: IntAttr :: Slot(y, a).Some? <==> a in y.ints;
    }
    assert y.strs == x.strs;
  }

  lemma SlotRestored(types: Types, x: Props, y: Props, ints: set<IntAttr>, strs: set<StrAttr>, a: IntAttr)
    requires Partly(types, x, y, ints, strs)
    requires ints == {ActionId, Date, Duration, DecayState, Attack, Defense, ExtraDefense, Armor, ShootRange, HitChance}
    ensures Slot(y, a) == RestoredInt(types, x, a)
  {
    hide RestoredCount;
    if a !in ints + {Charges, FluidType} {
      match a
      case UniqueId =>
      case Owner =>
      case CorpseOwner =>
      case DoorId =>
    }
  }

  // ---------- the codec of one item's attributes ----------

  // Every string fits the 16-bit length field.
  predicate ShortStrings(x: Props) {
    forall a <- x.strs :: |x.strs[a]| < 0x1_0000
  }

  predicate AllLegal(attrs: seq<Attribute>) {
    forall a <- attrs :: Legal(a)
  }

  lemma NumberLegal(types: Types, x: Props, a: IntAttr)
    ensures AllLegal(NumberOf(types, x, a))
  {
    assert Pow256(1) == 0x100 && Pow256(2) == 0x1_0000;
    assert Pow256(4) == 0x1_0000 * Pow256(2);
  }

  lemma TextLegal(x: Props, a: StrAttr)
    requires ShortStrings(x)
    ensures AllLegal(TextOf(x, a))
  {
  }

  lemma SubTypeLegal(types: Types, x: Props)
    ensures AllLegal(SubTypeOf(types, x))
  {
    assert Pow256(1) == 0x100 && Pow256(2) == 0x1_0000;
  }

  lemma AttributesLegal(types: Types, x: Props)
    requires ShortStrings(x)
    ensures AllLegal(Attributes(types, x))
  {
    hide Legal, SubTypeOf, NumberOf, TextOf;
    SubTypeLegal(types, x);
    forall a: IntAttr ensures AllLegal(NumberOf(types, x, a)) { NumberLegal(types, x, a); }
    forall a: StrAttr ensures AllLegal(TextOf(x, a)) { TextLegal(x, a); }
  }

  // A new item takes the written attributes and becomes the restored one; reading goes on behind them.
  lemma AttributesRoundTrip(types: Types, x: Props, s: Bytes, p: nat)
    requires WellTyped(x) && ShortStrings(x)
    requires CarriesAt(s, p, AttributesBytes(Attributes(types, x)))
    ensures var q := p + |AttributesBytes(Attributes(types, x))|;
      Unserialize(types, CreateItem(types, x.id, 0), s, p) == Unserialize(types, Restored(types, x), s, q)
  {
    hide Attributes, AttributesBytes, CreateItem, Restored, Legal, CarriesAt, Unserialize;
    AttributesLegal(types, x);
    UnserializeAttributes(types, CreateItem(types, x.id, 0), Attributes(types, x), s, p);
    AttributesRestored(types, x);
  }

  // The reader makes no long strings.
  lemma {:induction false} ReadShort(types: Types, y: Props, s: Bytes, p: nat)
    requires ShortStrings(y) && p <= |s|
    ensures var r := Unserialize(types, y, s, p); r.Loaded? ==> ShortStrings(r.x)
    decreases |s| - p
  {
    if p < |s| && s[p] != 0 {
      var r := ReadAttr(types(y.id).container, s[p], s, p + 1);
      if r.ReadContinue? {
        ReadShort(types, Apply(types, y, r.a), s, r.pos);
      }
    }
  }

  // ... and nothing that a field could not hold.
  lemma {:induction false} ReadTyped(types: Types, y: Props, s: Bytes, p: nat)
    requires WellTyped(y) && p <= |s|
    ensures var r := Unserialize(types, y, s, p); r.Loaded? ==> WellTyped(r.x) && r.x.id == y.id && r.count < 0x1_0000_0000
    decreases |s| - p
  {
    hide WellTyped, Apply, ReadAttr;
    if p < |s| && s[p] != 0 {
      AttrTyped(types, y, s[p], s, p + 1);
      var r := ReadAttr(types(y.id).container, s[p], s, p + 1);
      if r.ReadContinue? {
        ApplyKeepsId(types, y, r.a);
        ReadTyped(types, Apply(types, y, r.a), s, r.pos);
      }
    }
  }

  lemma AttrTyped(types: Types, y: Props, tag: Byte, s: Bytes, p: nat)
    requires WellTyped(y) && p <= |s|
    ensures var r := ReadAttr(types(y.id).container, tag, s, p);
      && (r.ReadContinue? ==> WellTyped(Apply(types, y, r.a)))
      && (r.ReadEnd? ==> r.count < 0x1_0000_0000)
  {
    hide LeValue, Pow256;
    var w := if tag == ATTR_CONTAINER_ITEMS then 4 else Width(tag);
    PowersOf256();
    if p + w <= |s| {
      LeBound(s[p..p + w]);
    }
  }

  lemma PowersOf256()
    ensures Pow256(1) == 0x100 && Pow256(2) == 0x1_0000 && Pow256(4) == 0x1_0000_0000
  {
    assert Pow256(4) == 0x1_0000 * Pow256(2);
  }

  lemma NewTyped(types: Types, id: nat)
    requires id < 0x1_0000
    ensures WellTyped(CreateItem(types, id, 0)) && ShortStrings(CreateItem(types, id, 0)) && CreateItem(types, id, 0).id == id
  {
  }

  // Written and ended, an item's attributes are read back, and read to their end, just if its strings are short.
  lemma StoredExactly(types: Types, x: Props)
    requires WellTyped(x)
    ensures var s := AttributesBytes(Attributes(types, x)) + [0];
      Unserialize(types, CreateItem(types, x.id, 0), s, 0) == Loaded(Restored(types, x), 0, |s|) <==> ShortStrings(x)
  {
    hide Attributes, AttributesBytes, Unserialize;
    assert ShortStrings(CreateItem(types, x.id, 0)) && Restored(types, x).strs == x.strs;
    ReadShort(types, CreateItem(types, x.id, 0), AttributesBytes(Attributes(types, x)) + [0], 0);
    if ShortStrings(x) {
      StoredIfShort(types, x);
    }
  }

  // A text of 65536 characters does not come back.
  lemma LongTextLost(types: Types)
    ensures var x := Props(1, 1, map[], map[StrAttr.Text := seq(0x1_0000, _ => 65)]);
      var s := AttributesBytes(Attributes(types, x)) + [0];
      WellTyped(x) && Unserialize(types, CreateItem(types, x.id, 0), s, 0) != Loaded(Restored(types, x), 0, |s|)
  {
    hide Attributes, AttributesBytes, Unserialize, Restored, CreateItem;
    var text: Bytes := seq(0x1_0000, _ => 65);
    var x := Props(1, 1, map[], map[StrAttr.Text := text]);
    assert x.strs[StrAttr.Text] == text && |text| == 0x1_0000;
    StoredExactly(types, x);
  }

  lemma StoredIfShort(types: Types, x: Props)
    requires WellTyped(x) && ShortStrings(x)
    ensures var s := AttributesBytes(Attributes(types, x)) + [0];
      Unserialize(types, CreateItem(types, x.id, 0), s, 0) == Loaded(Restored(types, x), 0, |s|)
  {
    hide Attributes, AttributesBytes, Restored, CreateItem, WellTyped, ShortStrings;
    AttributesRoundTrip(types, x, AttributesBytes(Attributes(types, x)) + [0], 0);
  }

  // Charges that an item carries although its type has none end up elsewhere: in the fluid type or the count.
  predicate ChargesSettle(types: Types, x: Props) {
    var t := types(x.id);
    if t.fluid then GetCharges(x) < 0x100
    else t.stackable || t.charges != 0 || GetCharges(x) == 0 || U8(GetCharges(x)) == 1
  }

  // A default duration beyond 31 bits is negative, and a negative duration is read as 0.
  predicate DurationSettles(types: Types, x: Props) {
    Duration in x.ints || DefaultDuration(types(x.id)) < 0x8000_0000
  }

  lemma SlotTwice(types: Types, x: Props, a: IntAttr)
    requires WellTyped(x)
    ensures RestoredInt(types, x, a).Some? ==> InI32(RestoredInt(types, x, a).value)
    ensures RestoredInt(types, Restored(types, x), a) == RestoredInt(types, x, a)
      <==> !(a == FluidType && types(x.id).fluid && GetCharges(x) >= 0x100) && !(a == Duration && !DurationSettles(types, x))
  {
    hide Restored, U8, U16, U32, I32;
    var y := Restored(types, x);
    RestoredSlot(types, x, a);
    RestoredSlot(types, x, Charges);
    ShortNumbers(types, x);
  }

  lemma RestoredSlot(types: Types, x: Props, a: IntAttr)
    ensures var y := Restored(types, x); y.id == x.id && y.strs == x.strs && y.count == RestoredCount(types, x)
    ensures Slot(Restored(types, x), a) == RestoredInt(types, x, a)
  {
    hide RestoredInt, RestoredCount;
  }

  // Numbers that fit are kept.
  lemma ShortNumbers(types: Types, x: Props)
    ensures U16(0) == 0 && U16(GetCharges(x)) == GetCharges(x) && U16(U16(types(x.id).charges)) == U16(types(x.id).charges)
    ensures U8(GetCharges(x)) == GetCharges(x) <==> GetCharges(x) < 0x100
    ensures forall v: int :: U8(U8(v)) == U8(v)
    ensures forall v: int :: 0 <= v < 0x1_0000 ==> U16(v) == v
    ensures DefaultDuration(types(x.id)) < 0x8000_0000 <==> I32(DefaultDuration(types(x.id))) == DefaultDuration(types(x.id))
    ensures I32(DefaultDuration(types(x.id))) >= 0 <==> DefaultDuration(types(x.id)) < 0x8000_0000
  {}

  lemma CountTwice(types: Types, x: Props)
    ensures RestoredCount(types, Restored(types, x)) == RestoredCount(types, x)
      <==> ChargesSettle(types, x) || types(x.id).fluid
  {
    var y := Restored(types, x);
    assert Slot(y, Charges) == RestoredInt(types, x, Charges);
  }

  // What is in slot `a` is stored, and is not corrected.
  predicate Ordinary(types: Types, x: Props, a: IntAttr) {
    var t := types(x.id);
    match a
    case ActionId => ActionId in x.ints ==> t.moveable && 100 <= x.ints[ActionId] < 0x1_0000
    case Date => Date in x.ints ==> x.ints[Date] > 0
    case Duration => if Duration in x.ints then x.ints[Duration] >= 0 else t.decayTime * 1000 % 0x1_0000_0000 == 0
    case DecayState => DecayState in x.ints ==> x.ints[DecayState] == 2
    case Charges =>
      if t.fluid || t.stackable || t.charges == 0 then Charges !in x.ints
      else Charges in x.ints && 0 <= x.ints[Charges] < 0x1_0000 && (x.ints[Charges] != 0 || t.charges % 0x1_0000 == 0)
    case FluidType =>
      if t.fluid then FluidType in x.ints && 0 <= x.ints[FluidType] < 0x100 else FluidType !in x.ints
    case Attack | Defense | ExtraDefense | Armor | ShootRange | HitChance => a in x.ints ==> x.ints[a] != 0
    case UniqueId | Owner | CorpseOwner | DoorId => a !in x.ints
  }

  // Only stacks have a count.
  predicate OrdinaryItem(types: Types, x: Props) {
    (forall a: IntAttr :: Ordinary(types, x, a)) && ((types(x.id).stackable && !types(x.id).fluid) || x.count == 1)
  }

  // An item comes back as it was, to the last slot, just if everything in it is ordinary.
  lemma ComesBack(types: Types, x: Props)
    requires WellTyped(x)
    ensures Restored(types, x) == x <==> OrdinaryItem(types, x)
  {
    hide Restored, RestoredInt, RestoredCount, Ordinary;
    var y := Restored(types, x);
    forall a: IntAttr ensures Slot(y, a) == RestoredInt(types, x, a) {
      RestoredSlot(types, x, a);
    }
    RestoredSlot(types, x, Charges);
    if forall a: IntAttr :: Ordinary(types, x, a) {
      forall a: IntAttr ensures Slot(y, a) == Slot(x, a) { SlotBack(types, x, a); }
      assert forall a: IntAttr :: (Slot(y, a).Some? <==> a in y.ints) && (Slot(x, a).Some? <==> a in x.ints);
      assert y.ints == x.ints;
      CountBack(types, x);
    } else {
      var a: IntAttr :| !Ordinary(types, x, a);
      var b := if Ordinary(types, x, Charges) then a else Charges;
      SlotBack(types, x, b);
      assert Slot(y, b) != Slot(x, b);
    }
  }

  lemma SlotBack(types: Types, x: Props, a: IntAttr)
    requires WellTyped(x)
    ensures Ordinary(types, x, a) && (a == FluidType ==> Ordinary(types, x, Charges)) ==> RestoredInt(types, x, a) == Slot(x, a)
    ensures RestoredInt(types, x, a) == Slot(x, a) && (a == FluidType ==> Ordinary(types, x, Charges)) ==> Ordinary(types, x, a)
  {
    hide DefaultDuration;
    DefaultFits(types(x.id));
  }

  lemma DefaultFits(t: ItemType)
    ensures DefaultDuration(t) == 0 <==> t.decayTime * 1000 % 0x1_0000_0000 == 0
  {
  }

  lemma CountBack(types: Types, x: Props)
    requires Ordinary(types, x, Charges)
    ensures RestoredCount(types, x) == x.count <==> (types(x.id).stackable && !types(x.id).fluid) || x.count == 1
  {
  }

  // Storing an item a second time changes nothing more, except where charges or the duration do not settle.
  lemma RestoredTwice(types: Types, x: Props)
    requires WellTyped(x)
    ensures WellTyped(Restored(types, x))
    ensures Restored(types, Restored(types, x)) == Restored(types, x)
      <==> ChargesSettle(types, x) && DurationSettles(types, x)
  {
    hide RestoredInt, RestoredCount, DurationSettles;
    var y := Restored(types, x);
    var z := Restored(types, y);
    CountTwice(types, x);
    forall a: IntAttr
      ensures Slot(z, a) == RestoredInt(types, y, a) && Slot(y, a) == RestoredInt(types, x, a)
      ensures a in y.ints ==> InI32(y.ints[a])
    {
      SlotTwice(types, x, a);
    }
    if ChargesSettle(types, x) && DurationSettles(types, x) {
      forall a: IntAttr ensures Slot(z, a) == Slot(y, a) { SlotTwice(types, x, a); }
      assert z.ints == y.ints;
    } else {
      SlotTwice(types, x, FluidType);
      SlotTwice(types, x, Duration);
      assert z == y ==> Slot(z, FluidType) == Slot(y, FluidType) && Slot(z, Duration) == Slot(y, Duration);
    }
  }

  // Two charges on an item whose type has none, and a default duration of 2^31 ms and more, change when stored twice.
  lemma TwiceDiffers()
    ensures var types: Types := _ => ItemType(true, false, false, false, true, 0, 0, 0);
      var x := Props(1, 1, map[Charges := 2], map[]);
      WellTyped(x) && Restored(types, Restored(types, x)) != Restored(types, x)
    ensures var types: Types := _ => ItemType(true, false, false, false, true, 0, 2147484, 0);
      var x := Props(1, 1, map[], map[]);
      WellTyped(x) && Restored(types, Restored(types, x)) != Restored(types, x)
  {
    hide Restored;
    var plain: Types := _ => ItemType(true, false, false, false, true, 0, 0, 0);
    var x := Props(1, 1, map[Charges := 2], map[]);
    assert x.Int(Charges) == 2;
    RestoredTwice(plain, x);
    RestoredTwice(_ => ItemType(true, false, false, false, true, 0, 2147484, 0), Props(1, 1, map[], map[]));
  }

  // ---------- items from database rows ----------

  // The item that unserializeAttr leaves behind, also when it fails.
  function UnserializeAsFar(types: Types, x: Props, s: Bytes, p: nat): Props
    requires p <= |s|
    decreases |s| - p
  {
    if p == |s| || s[p] == 0 then x
    else match ReadAttr(types(x.id).container, s[p], s, p + 1)
      case ReadError => x
      case ReadEnd(count, q) => x
      case ReadContinue(a, q) => UnserializeAsFar(types, Apply(types, x, a), s, q)
  }

  lemma {:induction false} AsFarKeepsId(types: Types, x: Props, s: Bytes, p: nat)
    requires p <= |s|
    ensures UnserializeAsFar(types, x, s, p).id == x.id
    decreases |s| - p
  {
    hide Apply;
    if p < |s| && s[p] != 0 {
      var r := ReadAttr(types(x.id).container, s[p], s, p + 1);
      if r.ReadContinue? {
        ApplyKeepsId(types, x, r.a);
        AsFarKeepsId(types, Apply(types, x, r.a), s, r.pos);
      }
    }
  }

  lemma {:induction false} AsFarAsLoaded(types: Types, x: Props, s: Bytes, p: nat)
    requires p <= |s| && Unserialize(types, x, s, p).Loaded?
    ensures UnserializeAsFar(types, x, s, p) == Unserialize(types, x, s, p).x
    decreases |s| - p
  {
    if p < |s| && s[p] != 0 {
      var r := ReadAttr(types(x.id).container, s[p], s, p + 1);
      if r.ReadContinue? {
        AsFarAsLoaded(types, Apply(types, x, r.a), s, r.pos);
      }
    }
  }

  // What a new item was made with does not matter once the subtype is set.
  lemma SubTypeOverwritten(types: Types, x: Props, n: nat)
    requires types(x.id).fluid || types(x.id).stackable || (types(x.id).charges != 0 && n != 0)
    ensures var y, y' := CreateItem(types, x.id, 0), CreateItem(types, x.id, GetSubType(types, x));
      SetSubType(types, y', n) == SetSubType(types, y, n)
  {
    hide GetSubType, CreateItem;
    MadeId(types, x.id, 0);
    MadeId(types, x.id, GetSubType(types, x));
    if types(x.id).fluid {
      MadeFluid(types, x.id, GetSubType(types, x), n);
    } else if types(x.id).stackable {
      MadeStack(types, x.id, GetSubType(types, x), n);
    } else {
      MadeCharges(types, x.id, GetSubType(types, x), n);
    }
  }

  lemma MadeId(types: Types, id: nat, n: nat)
    ensures CreateItem(types, id, n).id == id
  {}

  lemma MadeFluid(types: Types, id: nat, m: nat, n: nat)
    requires types(id).fluid
    ensures CreateItem(types, id, m).SetInt(FluidType, n) == CreateItem(types, id, 0).SetInt(FluidType, n)
  {
    hide DefaultDuration, U8, U16, I32;
    assert CreateItem(types, id, m).SetInt(FluidType, n).ints == CreateItem(types, id, 0).SetInt(FluidType, n).ints;
  }

  lemma MadeStack(types: Types, id: nat, m: nat, n: nat)
    requires !types(id).fluid && types(id).stackable
    ensures CreateItem(types, id, m).(count := U8(n)) == CreateItem(types, id, 0).(count := U8(n))
  {
    hide DefaultDuration, I32;
  }

  lemma MadeCharges(types: Types, id: nat, m: nat, n: nat)
    requires !types(id).fluid && !types(id).stackable && types(id).charges != 0
    ensures CreateItem(types, id, m).SetInt(Charges, n) == CreateItem(types, id, 0).SetInt(Charges, n)
  {
    hide DefaultDuration, U8, U16, I32;
    assert CreateItem(types, id, m).SetInt(Charges, n).ints == CreateItem(types, id, 0).SetInt(Charges, n).ints;
  }

  // A row keeps the subtype apart: an item made with it is the same once the attributes are applied.
  lemma SubTypeTwice(types: Types, x: Props)
    requires WellTyped(x)
    ensures ApplyAll(types, CreateItem(types, x.id, GetSubType(types, x)), SubTypeOf(types, x))
         == ApplyAll(types, CreateItem(types, x.id, 0), SubTypeOf(types, x))
  {
    var t := types(x.id);
    var attrs := SubTypeOf(types, x);
    if t.fluid || t.stackable || (t.charges != 0 && GetCharges(x) != 0) {
      hide CreateItem, SetSubType, GetCharges, GetSubType;
      var n := if t.stackable || t.fluid then U8(GetSubType(types, x)) else GetCharges(x);
      SubTypeOverwritten(types, x, n);
      assert forall y :: ApplyAll(types, y, attrs) == ApplyAll(types, SetSubType(types, y, n), attrs[1..]);
    } else {
      assert CreateItem(types, x.id, GetSubType(types, x)) == CreateItem(types, x.id, 0);
    }
  }

  lemma RowRestored(types: Types, x: Props)
    requires WellTyped(x) && ShortStrings(x)
    ensures UnserializeAsFar(types, CreateItem(types, x.id, GetSubType(types, x)), AttributesBytes(Attributes(types, x)), 0)
      == Restored(types, x)
  {
    hide CreateItem, GetSubType, AttributesBytes, SubTypeOf, Legal, Restored, ApplyAll, NumberOf, TextOf;
    var s, y := AttributesBytes(Attributes(types, x)), CreateItem(types, x.id, GetSubType(types, x));
    AttributesLegal(types, x);
    UnserializeAttributes(types, y, Attributes(types, x), s, 0);
    var n := |SubTypeOf(types, x)|;
    var rest := Attributes(types, x)[n..];
    assert Attributes(types, x)[..n] == SubTypeOf(types, x);
    assert Attributes(types, x) == SubTypeOf(types, x) + rest;
    ApplyAppend(types, y, SubTypeOf(types, x), rest);
    ApplyAppend(types, CreateItem(types, x.id, 0), SubTypeOf(types, x), rest);
    SubTypeTwice(types, x);
    AttributesRestored(types, x);
    AsFarAsLoaded(types, y, s, 0);
  }
}
