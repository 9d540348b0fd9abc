/** Descriptor-driven protobuf messages (nanopb): static fields, no callbacks,
    pointers, extensions, required or fixed-count fields. */
module Proto {
  import opened Types
  import opened Varint

  // ----- Descriptors and messages

  datatype Kind =
    | Bool
    | Int(size: nat)
    | UInt(size: nat)
    | SInt(size: nat)
    | Fixed32
    | Fixed64
    | Bytes(max: nat)
    | Text(size: nat)
    | Block(size: nat)
    | Sub(desc: Desc)

  /** Singular fields are proto3 fields without a presence flag. */
  datatype Rule = Singular | Optional | Repeated(max: nat) | Oneof(group: nat)

  datatype Field = Field(tag: nat, rule: Rule, kind: Kind)

  datatype Desc = Desc(fields: seq<Field>)

  datatype Value = Num(n: int) | Raw(bytes: seq<byte>) | Node(slots: seq<Slot>)

  /** A field's storage: its value, its value if present, or its elements. */
  datatype Slot = One(v: Value) | Maybe(o: Option<Value>) | Many(vs: seq<Value>)

  const SIZE_MAX: nat := 0xFFFF

  /** What fits the field's C storage. A text longer than size - 1 has no
      terminator; bytes longer than max overflow their array. */
  predicate Stored(k: Kind, v: Value)
    decreases k
  {
    match k
    case Bool => v.Num? && 0 <= v.n <= 1
    case Int(size) => v.Num? && SignedFits(size, v.n)
    case SInt(size) => v.Num? && SignedFits(size, v.n)
    case UInt(size) => v.Num? && UnsignedFits(size, v.n)
    case Fixed32 => v.Num? && UnsignedFits(4, v.n)
    case Fixed64 => v.Num? && UnsignedFits(8, v.n)
    case Bytes(max) => v.Raw? && |v.bytes| <= SIZE_MAX
    case Text(size) => v.Raw? && |v.bytes| <= size && forall i :: 0 <= i < |v.bytes| ==> v.bytes[i] != 0
    case Block(size) => v.Raw? && |v.bytes| == size
    case Sub(d) => v.Node? && Shaped(d, v.slots)
  }

  predicate SignedFits(size: nat, n: int) {
    match size
    case 1 => -0x80 <= n < 0x80
    case 2 => -0x8000 <= n < 0x8000
    case 4 => -0x8000_0000 <= n < 0x8000_0000
    case 8 => -0x8000_0000_0000_0000 <= n < 0x8000_0000_0000_0000
    case _ => false
  }

  predicate UnsignedFits(size: nat, n: int) {
    match size
    case 1 => 0 <= n < 0x100
    case 2 => 0 <= n < 0x1_0000
    case 4 => 0 <= n < 0x1_0000_0000
    case 8 => 0 <= n < 0x1_0000_0000_0000_0000
    case _ => false
  }

  predicate SlotStored(f: Field, s: Slot)
    decreases f, 0
  {
    match f.rule
    case Singular => s.One? && Stored(f.kind, s.v)
    case Optional => s.Maybe? && (s.o.Some? ==> Stored(f.kind, s.o.value))
    case Oneof(_) => s.Maybe? && (s.o.Some? ==> Stored(f.kind, s.o.value))
    case Repeated(_) => s.Many? && |s.vs| <= SIZE_MAX && forall i :: 0 <= i < |s.vs| ==> Stored(f.kind, s.vs[i])
  }

  /** A message of type d: one slot per field, at most one member per oneof. */
  predicate Shaped(d: Desc, slots: seq<Slot>)
    decreases d
  {
    && |slots| == |d.fields|
    && (forall i :: 0 <= i < |slots| ==> SlotStored(d.fields[i], slots[i]))
    && (forall i, j :: 0 <= i < j < |slots| && SameOneof(d.fields[i], d.fields[j]) && slots[i].Maybe? && slots[i].o.Some? ==>
          slots[j].Maybe? && slots[j].o.None?)
  }

  predicate SameOneof(f: Field, g: Field) {
    f.rule.Oneof? && g.rule.Oneof? && f.rule.group == g.rule.group
  }

  /** Tags ascend, as the generator emits them, and fit their encodings. */
  predicate Ordered(d: Desc)
    decreases d
  {
    && (forall i :: 0 <= i < |d.fields| ==> 0 < d.fields[i].tag <= SIZE_MAX && KindOrdered(d.fields[i].kind))
    && (forall i, j :: 0 <= i < j < |d.fields| ==> d.fields[i].tag < d.fields[j].tag)
  }

  /** Sizes are 16 bits wide. */
  predicate KindOrdered(k: Kind)
    decreases k
  {
    match k
    case Text(size) => size <= SIZE_MAX
    case Block(size) => size <= SIZE_MAX
    case Sub(d) => Ordered(d)
    case _ => true
  }

  // ----- Defaults

  function Default(k: Kind): (v: Value)
    decreases k
  {
    match k
    case Bytes(_) => Raw([])
    case Text(_) => Raw([])
    case Block(size) => Raw(seq(size, _ => 0))
    case Sub(d) => Node(Defaults(d))
    case _ => Num(0)
  }

  function DefaultSlot(f: Field): (s: Slot)
    decreases f
  {
    match f.rule
    case Singular => One(Default(f.kind))
    case Repeated(_) => Many([])
    case _ => Maybe(None)
  }

  function Defaults(d: Desc): (r: seq<Slot>)
    ensures |r| == |d.fields|
    decreases d
  {
    seq(|d.fields|, i requires 0 <= i < |d.fields| => DefaultSlot(d.fields[i]))
  }

  /** The encoder's test for a field it may leave out. */
  predicate IsDefault(k: Kind, v: Value)
    decreases k
  {
    match k
    case Bytes(_) => v == Raw([])
    case Text(_) => v == Raw([])
    case Block(size) => size == 0
    case Sub(d) => v.Node? && |v.slots| == |d.fields| && forall i :: 0 <= i < |d.fields| ==> SlotDefault(d.fields[i], v.slots[i])
    case _ => v == Num(0)
  }

  predicate SlotDefault(f: Field, s: Slot)
    decreases f
  {
    match f.rule
    case Singular => s.One? && IsDefault(f.kind, s.v)
    case Repeated(_) => s == Many([])
    case _ => s == Maybe(None)
  }

  // ----- Encoding

  const VARINT: nat := 0
  const WIDE: nat := 1
  const STRING: nat := 2
  const NARROW: nat := 5

  function WireType(k: Kind): (r: nat)
    ensures r < 8
  {
    match k
    case Fixed32 => NARROW
    case Fixed64 => WIDE
    case Bytes(_) => STRING
    case Text(_) => STRING
    case Block(_) => STRING
    case Sub(_) => STRING
    case _ => VARINT
  }

  predicate Packable(k: Kind) {
    WireType(k) != STRING
  }

  function LittleEndian(n: nat, count: nat): (r: seq<byte>)
    ensures |r| == count
  {
    if count == 0 then [] else [n % 256] + LittleEndian(n / 256, count - 1)
  }

  function Tagged(tag: nat, wire: nat): (r: seq<byte>) {
    Canonical(tag * 8 + wire)
  }

  function Prefixed(b: seq<byte>): (r: seq<byte>) {
    Canonical(|b|) + b
  }

  function Joined(a: Option<seq<byte>>, b: Option<seq<byte>>): (r: Option<seq<byte>>) {
    if a.None? || b.None? then None else Some(a.value + b.value)
  }

  /** A number's bytes, without its tag. */
  function NumberBytes(k: Kind, n: int): (r: seq<byte>)
    requires Packable(k) && Stored(k, Num(n))
  {
    match k
    case SInt(_) => Canonical(Zig(n))
    case Int(_) => Canonical(if n < 0 then n + TWO64 else n)
    case Fixed32 => LittleEndian(n, 4)
    case Fixed64 => LittleEndian(n, 8)
    case _ => Canonical(n)
  }

  /** A value's bytes, without its tag; nothing when the encoder refuses it. */
  function Payload(k: Kind, v: Value): (r: Option<seq<byte>>)
    requires Stored(k, v)
    decreases k
  {
    match k
    case Bytes(max) => if |v.bytes| > max then None else Some(Prefixed(v.bytes))
    case Text(size) => if size == 0 || |v.bytes| == size then None else Some(Prefixed(v.bytes))
    case Block(_) => Some(Prefixed(v.bytes))
    case Sub(d) =>
      var body := EncodeFrom(d, v.slots, 0);
      if body.None? then None else Some(Prefixed(body.value))
    case _ => Some(NumberBytes(k, v.n))
  }

  function Basic(f: Field, v: Value): (r: Option<seq<byte>>)
    requires Stored(f.kind, v)
    decreases f, 0
  {
    var p := Payload(f.kind, v);
    if p.None? then None else Some(Tagged(f.tag, WireType(f.kind)) + p.value)
  }

  function Packed(k: Kind, vs: seq<Value>): (r: seq<byte>)
    requires Packable(k) && forall i :: 0 <= i < |vs| ==> Stored(k, vs[i])
    decreases |vs|
  {
    if vs == [] then []
    else
      assert Stored(k, vs[0]);
      NumberBytes(k, vs[0].n) + Packed(k, vs[1..])
  }

  function Unpacked(f: Field, vs: seq<Value>): (r: Option<seq<byte>>)
    requires forall i :: 0 <= i < |vs| ==> Stored(f.kind, vs[i])
    decreases f, 1, |vs|
  {
    if vs == [] then Some([]) else Joined(Basic(f, vs[0]), Unpacked(f, vs[1..]))
  }

  function EncodeField(f: Field, s: Slot): (r: Option<seq<byte>>)
    requires SlotStored(f, s)
    decreases f, 2
  {
    match s
    case One(v) => if IsDefault(f.kind, v) then Some([]) else Basic(f, v)
    case Maybe(o) => if o.None? then Some([]) else Basic(f, o.value)
    case Many(vs) =>
      if vs == [] then Some([])
      else if |vs| > f.rule.max then None
      else if Packable(f.kind) then Some(Tagged(f.tag, STRING) + Prefixed(Packed(f.kind, vs)))
      else Unpacked(f, vs)
  }

  /** The fields from the i-th on. */
  function EncodeFrom(d: Desc, slots: seq<Slot>, i: nat): (r: Option<seq<byte>>)
    requires Shaped(d, slots) && i <= |slots|
    decreases d, |slots| - i
  {
    if i == |slots| then Some([]) else Joined(EncodeField(d.fields[i], slots[i]), EncodeFrom(d, slots, i + 1))
  }

  function Encode(d: Desc, slots: seq<Slot>): (r: Option<seq<byte>>)
    requires Shaped(d, slots)
  {
    EncodeFrom(d, slots, 0)
  }

  // ----- Decoding

  function FromLittleEndian(b: seq<byte>): (r: nat) {
    if b == [] then 0 else b[0] + 256 * FromLittleEndian(b[1..])
  }

  /** The low word of v read as two's complement. */
  function LowSigned(v: nat): (r: int) {
    var low := v % 0x1_0000_0000;
    if low < 0x8000_0000 then low else low - 0x1_0000_0000
  }

  function Checked(size: nat, signed: bool, n: int, used: nat): (r: Option<(Value, nat)>)
    ensures r.Some? ==> r.value.1 == used
  {
    if (if signed then SignedFits(size, n) else UnsignedFits(size, n)) then Some((Num(n), used)) else None
  }

  function DecodeNumber(k: Kind, b: seq<byte>): (r: Option<(Value, nat)>)
    requires Packable(k)
    ensures r.Some? ==> 0 < r.value.1 <= |b|
  {
    match k
    case Bool => var w := Decode32(b); if w.None? then None else Some((Num(if w.value.0 != 0 then 1 else 0), w.value.1))
    case Fixed32 => if |b| < 4 then None else Some((Num(FromLittleEndian(b[..4])), 4))
    case Fixed64 => if |b| < 8 then None else Some((Num(FromLittleEndian(b[..8])), 8))
    case UInt(size) => var w := Decode64(b); if w.None? then None else Checked(size, false, w.value.0, w.value.1)
    case Int(size) =>
      var w := Decode64(b);
      if w.None? then None
      else Checked(size, true, if size == 8 then AsSigned(w.value.0 % TWO64) else LowSigned(w.value.0), w.value.1)
    case SInt(size) => var w := Decode64(b); if w.None? then None else Checked(size, true, Zag(w.value.0 % TWO64), w.value.1)
  }

  /** A C string ends at its first zero byte. */
  function UpToZero(b: seq<byte>): (r: seq<byte>) {
    if b == [] || b[0] == 0 then [] else [b[0]] + UpToZero(b[1..])
  }

  /** The length of a string on the wire and where its bytes start, if they are
      all there. */
  function Length(b: seq<byte>): (r: Option<(nat, nat)>)
    ensures r.Some? ==> 0 < r.value.1 && r.value.1 + r.value.0 <= |b|
  {
    var w := Decode32(b);
    if w.None? || w.value.1 + w.value.0 > |b| then None else w
  }

  function DecodeRaw(k: Kind, b: seq<byte>): (r: Option<(Value, nat)>)
    requires k.Bytes? || k.Text? || k.Block?
    ensures r.Some? ==> 0 < r.value.1 <= |b|
  {
    var w := Decode32(b);
    if w.None? then None
    else
      var (n, at) := w.value;
      if k.Block? && n == 0 then Some((Raw(seq(k.size, _ => 0)), at))
      else if (k.Bytes? && (n > SIZE_MAX || n > k.max)) || (k.Text? && n + 1 > k.size) || (k.Block? && (n > SIZE_MAX || n != k.size)) then None
      else if at + n > |b| then None
      else Some((Raw(if k.Text? then UpToZero(b[at..at + n]) else b[at..at + n]), at + n))
  }

  /** One value; `base` is what a submessage is merged into. */
  function DecodeValue(k: Kind, b: seq<byte>, base: Value): (r: Option<(Value, nat)>)
    requires k.Sub? ==> base.Node? && |base.slots| == |k.desc.fields|
    ensures r.Some? ==> 0 < r.value.1 <= |b|
    ensures r.Some? && k.Sub? ==> r.value.0.Node? && |r.value.0.slots| == |k.desc.fields|
    decreases k, |b|, 0
  {
    match k
    case Sub(d) =>
      var w := Length(b);
      if w.None? then None
      else
        var (n, at) := w.value;
        var m := DecodeLoop(d, b[at..at + n], base.slots);
        if m.None? then None else Some((Node(m.value), at + n))
    case Bytes(_) => DecodeRaw(k, b)
    case Text(_) => DecodeRaw(k, b)
    case Block(_) => DecodeRaw(k, b)
    case _ => DecodeNumber(k, b)
  }

  function DecodePacked(k: Kind, b: seq<byte>, vs: seq<Value>, max: nat): (r: Option<seq<Value>>)
    requires Packable(k)
    decreases |b|
  {
    if b == [] then Some(vs)
    else if |vs| >= max then None
    else
      var w := DecodeNumber(k, b);
      if w.None? then None else DecodePacked(k, b[w.value.1..], vs + [w.value.0], max)
  }

  /** The index of the field with this tag, or the number of fields. */
  function FindTag(d: Desc, tag: nat, i: nat): (r: nat)
    requires i <= |d.fields|
    ensures i <= r <= |d.fields|
    ensures r < |d.fields| ==> d.fields[r].tag == tag
    ensures forall j :: i <= j < r ==> d.fields[j].tag != tag
    decreases |d.fields| - i
  {
    if i == |d.fields| || d.fields[i].tag == tag then i else FindTag(d, tag, i + 1)
  }

  function SkipVarint(b: seq<byte>): (r: Option<nat>)
    ensures r.Some? ==> r.value <= |b|
  {
    if b == [] then None
    else if b[0] < 128 then Some(1)
    else
      var rest := SkipVarint(b[1..]);
      if rest.None? then None else Some(1 + rest.value)
  }

  function Skip(wire: nat, b: seq<byte>): (r: Option<nat>)
    ensures r.Some? ==> r.value <= |b|
  {
    if wire == VARINT then SkipVarint(b)
    else if wire == WIDE then if |b| < 8 then None else Some(8)
    else if wire == NARROW then if |b| < 4 then None else Some(4)
    else if wire == STRING then
      var w := Length(b);
      if w.None? then None else Some(w.value.1 + w.value.0)
    else None
  }

  /** Setting a oneof member clears its siblings. */
  function Claimed(d: Desc, slots: seq<Slot>, i: nat): (r: seq<Slot>)
    requires |slots| == |d.fields| && i < |slots|
    ensures |r| == |slots|
    ensures forall j :: 0 <= j < |slots| ==> r[j] == if j != i && SameOneof(d.fields[i], d.fields[j]) then Maybe(None) else slots[j]
  {
    seq(|slots|, j requires 0 <= j < |slots| => if j != i && SameOneof(d.fields[i], d.fields[j]) then Maybe(None) else slots[j])
  }

  /** The value a submessage field is merged into. */
  function Base(k: Kind, s: Slot): (v: Value)
    ensures k.Sub? ==> v.Node? && |v.slots| == |k.desc.fields|
  {
    var v := if s.One? then s.v else if s.Maybe? && s.o.Some? then s.o.value else Default(k);
    if k.Sub? && !(v.Node? && |v.slots| == |k.desc.fields|) then Default(k) else v
  }

  function DecodeField(d: Desc, slots: seq<Slot>, i: nat, wire: nat, b: seq<byte>): (r: Option<(seq<Slot>, nat)>)
    requires |slots| == |d.fields| && i < |slots|
    ensures r.Some? ==> |r.value.0| == |slots| && r.value.1 <= |b|
    decreases d, |b|, 0
  {
    var f := d.fields[i];
    if f.rule.Repeated? && wire == STRING && Packable(f.kind) then
      var w := Length(b);
      if w.None? || !slots[i].Many? then None
      else
        var (n, at) := w.value;
        var vs := DecodePacked(f.kind, b[at..at + n], slots[i].vs, f.rule.max);
        if vs.None? then None else Some((slots[i := Many(vs.value)], at + n))
    else if f.rule.Repeated? && (!slots[i].Many? || |slots[i].vs| >= f.rule.max) then None
    else if wire != WireType(f.kind) then None
    else
      var w := DecodeValue(f.kind, b, if f.rule.Repeated? then Default(f.kind) else Base(f.kind, slots[i]));
      if w.None? then None
      else
        var v := w.value.0;
        Some((match f.rule
              case Singular => slots[i := One(v)]
              case Optional => slots[i := Maybe(Some(v))]
              case Oneof(_) => Claimed(d, slots, i)[i := Maybe(Some(v))]
              case Repeated(_) => slots[i := Many(slots[i].vs + [v])], w.value.1))
  }

  /** Fields in whatever order they come; unknown ones are skipped. */
  function DecodeLoop(d: Desc, b: seq<byte>, slots: seq<Slot>): (r: Option<seq<Slot>>)
    requires |slots| == |d.fields|
    ensures r.Some? ==> |r.value| == |slots|
    decreases d, |b|, 1
  {
    if b == [] then Some(slots)
    else
      var w := Decode32(b);
      if w.None? || w.value.0 / 8 == 0 then None
      else
        var (word, at) := w.value;
        var rest := b[at..];
        var i := FindTag(d, word / 8, 0);
        if i == |d.fields| then
          var n := Skip(word % 8, rest);
          if n.None? then None else DecodeLoop(d, rest[n.value..], slots)
        else
          var x := DecodeField(d, slots, i, word % 8, rest);
          if x.None? then None else DecodeLoop(d, rest[x.value.1..], x.value.0)
  }

  function Decode(d: Desc, b: seq<byte>): (r: Option<seq<Slot>>) {
    DecodeLoop(d, b, Defaults(d))
  }
}
