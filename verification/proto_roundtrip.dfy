/** Decoding what was encoded gives the same message back, for every descriptor
    tree with ascending tags. */
module ProtoRoundTrip {
  import opened Types
  import opened Varint
  import opened Proto

  // ----- Leaves

  lemma {:induction false} FromLittle(n: nat, count: nat, limit: nat)
    requires limit == Bytes256(count) && n < limit
    ensures FromLittleEndian(LittleEndian(n, count)) == n
  {
    if count > 0 {
      FromLittle(n / 256, count - 1, Bytes256(count - 1));
      assert LittleEndian(n, count)[1..] == LittleEndian(n / 256, count - 1);
    }
  }

  function Bytes256(count: nat): (r: nat) {
    if count == 0 then 1 else 256 * Bytes256(count - 1)
  }

  lemma Widths()
    ensures Bytes256(4) == TWO32 && Bytes256(8) == TWO64
  {
    assert Bytes256(2) == 0x1_0000;
    assert Bytes256(6) == 0x1_0000 * TWO32;
  }

  lemma FixedRead(n: nat, count: nat, rest: seq<byte>)
    requires n < Bytes256(count)
    ensures FromLittleEndian((LittleEndian(n, count) + rest)[..count]) == n
  {
    FromLittle(n, count, Bytes256(count));
    assert (LittleEndian(n, count) + rest)[..count] == LittleEndian(n, count);
  }

  /** A negative number of at most 32 bits, widened to 64 bits and cut again. */
  lemma LowWord(n: int)
    requires -0x8000_0000 <= n < 0x8000_0000
    ensures LowSigned(if n < 0 then n + TWO64 else n) == n
  {
    if n < 0 {
      assert n + TWO64 == (n + TWO32) + TWO32 * 0xFFFF_FFFF;
      assert (n + TWO64) % TWO32 == n + TWO32;
    }
  }

  lemma IntRead(size: nat, n: int, rest: seq<byte>)
    requires SignedFits(size, n)
    ensures var b := NumberBytes(Int(size), n); b != [] && DecodeNumber(Int(size), b + rest) == Some((Num(n), |b|))
  {
    hide Canonical, Decode64, LowSigned;
    var v: nat := if n < 0 then n + TWO64 else n;
    Decode64Inverts(v, rest);
    if size != 8 { LowWord(n); }
  }

  lemma SIntRead(size: nat, n: int, rest: seq<byte>)
    requires SignedFits(size, n)
    ensures var b := NumberBytes(SInt(size), n); b != [] && DecodeNumber(SInt(size), b + rest) == Some((Num(n), |b|))
  {
    hide Canonical, Decode64, Zig, Zag;
    Decode64Inverts(Zig(n), rest);
    ZigZag(n, 0);
  }

  lemma UIntRead(size: nat, n: int, rest: seq<byte>)
    requires UnsignedFits(size, n)
    ensures var b := NumberBytes(UInt(size), n); b != [] && DecodeNumber(UInt(size), b + rest) == Some((Num(n), |b|))
  {
    hide Canonical, Decode64;
    Decode64Inverts(n, rest);
  }

  lemma FixedNumberRead(k: Kind, n: int, rest: seq<byte>)
    requires (k.Fixed32? || k.Fixed64?) && Stored(k, Num(n))
    ensures NumberBytes(k, n) != [] && DecodeNumber(k, NumberBytes(k, n) + rest) == Some((Num(n), |NumberBytes(k, n)|))
  {
    hide LittleEndian, FromLittleEndian, Bytes256;
    Widths();
    FixedRead(n, if k.Fixed32? then 4 else 8, rest);
  }

  lemma NumberRead(k: Kind, n: int, rest: seq<byte>)
    requires Packable(k) && Stored(k, Num(n))
    ensures NumberBytes(k, n) != [] && DecodeNumber(k, NumberBytes(k, n) + rest) == Some((Num(n), |NumberBytes(k, n)|))
  {
    match k
    case Bool => 
      hide Canonical, Decode32;
      Decode32Inverts(n, rest);
    case UInt(size) => hide *; BitsOf(k, n); UIntRead(size, n, rest);
    case SInt(size) => hide *; BitsOf(k, n); SIntRead(size, n, rest);
    case Int(size) => hide *; BitsOf(k, n); IntRead(size, n, rest);
    case Fixed32 => hide *; FixedNumberRead(k, n, rest);
    case Fixed64 => hide *; FixedNumberRead(k, n, rest);
  }

  lemma BitsOf(k: Kind, n: int)
    requires Stored(k, Num(n))
    ensures k.UInt? ==> UnsignedFits(k.size, n)
    ensures k.SInt? || k.Int? ==> SignedFits(k.size, n)
  {
  }

  lemma {:induction false} NoZero(b: seq<byte>)
    requires forall i :: 0 <= i < |b| ==> b[i] != 0
    ensures UpToZero(b) == b
  {
    if b != [] {
      NoZero(b[1..]);
      assert b == [b[0]] + b[1..];
    }
  }

  lemma PrefixRead(b: seq<byte>, rest: seq<byte>)
    requires |b| < TWO32
    ensures var p := Prefixed(b) + rest;
            var at := |Canonical(|b|)|;
            && Decode32(p) == Some((|b|, at)) && Length(p) == Some((|b|, at))
            && |Prefixed(b)| == at + |b| && p[at..at + |b|] == b
  {
    hide Canonical, Decode32;
    var c := Canonical(|b|);
    assert Prefixed(b) + rest == c + (b + rest);
    Decode32Inverts(|b|, b + rest);
  }

  lemma RawRead(k: Kind, v: Value, rest: seq<byte>)
    requires (k.Bytes? || k.Text? || k.Block?) && KindOrdered(k) && Stored(k, v) && Payload(k, v).Some?
    ensures var p := Payload(k, v).value; p != [] && DecodeRaw(k, p + rest) == Some((v, |p|))
  {
    hide Canonical, Decode32, Prefixed;
    PrefixRead(v.bytes, rest);
    if k.Text? { NoZero(v.bytes); }
    if k.Block? && k.size == 0 { assert v.bytes == seq(0, _ => 0); }
  }

  lemma {:induction false} PackedRead(k: Kind, vs: seq<Value>, acc: seq<Value>, max: nat)
    requires Packable(k) && (forall i :: 0 <= i < |vs| ==> Stored(k, vs[i])) && |acc| + |vs| <= max
    ensures DecodePacked(k, Packed(k, vs), acc, max) == Some(acc + vs)
    decreases |vs|
  {
    hide NumberBytes, DecodeNumber;
    if vs == [] {
      assert acc + vs == acc;
    } else {
      assert Stored(k, vs[0]);
      var head, tail := NumberBytes(k, vs[0].n), Packed(k, vs[1..]);
      NumberRead(k, vs[0].n, tail);
      assert (head + tail)[|head|..] == tail;
      assert vs[0] == Num(vs[0].n);
      PackedRead(k, vs[1..], acc + [vs[0]], max);
      assert acc + [vs[0]] + vs[1..] == acc + vs;
    }
  }

  // ----- Defaults

  lemma {:induction false} DefaultIsUnique(k: Kind, v: Value)
    requires Stored(k, v) && IsDefault(k, v)
    ensures v == Default(k)
    decreases k
  {
    match k
    case Sub(d) =>
      forall i | 0 <= i < |d.fields| ensures v.slots[i] == DefaultSlot(d.fields[i]) {
        assert SlotDefault(d.fields[i], v.slots[i]) && SlotStored(d.fields[i], v.slots[i]);
        SlotDefaultIsUnique(d.fields[i], v.slots[i]);
      }
      assert v.slots == Defaults(d);
    case Block(size) => assert v.bytes == seq(0, _ => 0);
    case _ =>
  }

  lemma {:induction false} SlotDefaultIsUnique(f: Field, s: Slot)
    requires SlotStored(f, s) && SlotDefault(f, s)
    ensures s == DefaultSlot(f)
    decreases f
  {
    if f.rule.Singular? { DefaultIsUnique(f.kind, s.v); }
  }

  // ----- Fields

  lemma TagFound(d: Desc, i: nat)
    requires Ordered(d) && i < |d.fields|
    ensures FindTag(d, d.fields[i].tag, 0) == i
  {
  }

  /** Decoding goes on after a field that was read from the front of b. */
  function Continue(d: Desc, x: Option<(seq<Slot>, nat)>, b: seq<byte>): (r: Option<seq<Slot>>)
    requires x.Some? ==> |x.value.0| == |d.fields| && x.value.1 <= |b|
  {
    if x.None? then None else DecodeLoop(d, b[x.value.1..], x.value.0)
  }

  /** A tag in front of `rest` leads to its field. */
  lemma TagRead(d: Desc, slots: seq<Slot>, i: nat, wire: nat, rest: seq<byte>)
    requires Ordered(d) && |slots| == |d.fields| && i < |slots| && wire < 8
    ensures DecodeLoop(d, Tagged(d.fields[i].tag, wire) + rest, slots) == Continue(d, DecodeField(d, slots, i, wire, rest), rest)
  {
    hide Canonical, Decode32, DecodeField, Ordered;
    assert 0 < d.fields[i].tag <= SIZE_MAX by { TagBound(d, i); }
    var word := d.fields[i].tag * 8 + wire;
    Decode32Inverts(word, rest);
    TagFound(d, i);
    var c := Canonical(word);
    assert (c + rest)[|c|..] == rest;
  }

  lemma TagBound(d: Desc, i: nat)
    requires Ordered(d) && i < |d.fields|
    ensures 0 < d.fields[i].tag <= SIZE_MAX && KindOrdered(d.fields[i].kind)
  {
  }

  /** The message with the first i fields in place and the rest untouched. */
  function Mixed(d: Desc, slots: seq<Slot>, i: nat): (r: seq<Slot>)
    requires |slots| == |d.fields| && i <= |slots|
    ensures |r| == |slots|
    ensures forall j :: 0 <= j < |r| ==> r[j] == if j < i then slots[j] else DefaultSlot(d.fields[j])
  {
    slots[..i] + Defaults(d)[i..]
  }

  lemma MixedStep(d: Desc, slots: seq<Slot>, i: nat)
    requires |slots| == |d.fields| && i < |slots|
    ensures Mixed(d, slots, i)[i := slots[i]] == Mixed(d, slots, i + 1)
  {
  }

  /** Claiming a oneof that nobody else holds changes nothing. */
  lemma ClaimsNothing(d: Desc, slots: seq<Slot>, i: nat)
    requires Shaped(d, slots) && i < |slots| && d.fields[i].rule.Oneof? && slots[i].Maybe? && slots[i].o.Some?
    ensures Claimed(d, Mixed(d, slots, i), i) == Mixed(d, slots, i)
  {
    hide Stored;
    var m := Mixed(d, slots, i);
    forall j | 0 <= j < |slots| && j != i && SameOneof(d.fields[i], d.fields[j]) ensures m[j] == Maybe(None) {
      if j < i { assert SlotStored(d.fields[j], slots[j]) && SameOneof(d.fields[j], d.fields[i]); }
    }
  }

  /** The message once value v of field i has been read. */
  function Placed(d: Desc, state: seq<Slot>, i: nat, v: Value): (r: seq<Slot>)
    requires |state| == |d.fields| && i < |state| && (d.fields[i].rule.Repeated? ==> state[i].Many?)
    ensures |r| == |state|
  {
    match d.fields[i].rule
    case Singular => state[i := One(v)]
    case Optional => state[i := Maybe(Some(v))]
    case Oneof(_) => Claimed(d, state, i)[i := Maybe(Some(v))]
    case Repeated(_) => state[i := Many(state[i].vs + [v])]
  }

  /** One value of field i, tag included, in front of any rest. */
  lemma BasicRead(d: Desc, state: seq<Slot>, i: nat, v: Value, rest: seq<byte>)
    requires Ordered(d) && |state| == |d.fields| && i < |state| && Stored(d.fields[i].kind, v)
    requires Basic(d.fields[i], v).Some?
    requires var f := d.fields[i];
             var p := Payload(f.kind, v).value;
             DecodeValue(f.kind, p + rest, if f.rule.Repeated? then Default(f.kind) else Base(f.kind, state[i])) == Some((v, |p|))
    requires d.fields[i].rule.Repeated? ==> state[i].Many? && |state[i].vs| < d.fields[i].rule.max && !Packable(d.fields[i].kind)
    ensures DecodeLoop(d, Basic(d.fields[i], v).value + rest, state)
         == DecodeLoop(d, rest, Placed(d, state, i, v))
  {
    hide Tagged, DecodeLoop, DecodeValue, Payload, Stored, Ordered, Claimed;
    var f := d.fields[i];
    var t, p := Tagged(f.tag, WireType(f.kind)), Payload(f.kind, v).value;
    assert Basic(f, v).value + rest == t + (p + rest);
    TagRead(d, state, i, WireType(f.kind), p + rest);
    assert (p + rest)[|p|..] == rest;
  }

  lemma PackedFieldRead(d: Desc, state: seq<Slot>, i: nat, vs: seq<Value>, rest: seq<byte>)
    requires Ordered(d) && |state| == |d.fields| && i < |state| && d.fields[i].rule.Repeated? && Packable(d.fields[i].kind)
    requires (forall j :: 0 <= j < |vs| ==> Stored(d.fields[i].kind, vs[j])) && |vs| <= d.fields[i].rule.max && state[i] == Many([])
    requires |Packed(d.fields[i].kind, vs)| < TWO32
    ensures DecodeLoop(d, Tagged(d.fields[i].tag, STRING) + Prefixed(Packed(d.fields[i].kind, vs)) + rest, state) == DecodeLoop(d, rest, state[i := Many(vs)])
  {
    hide Tagged, DecodeLoop, Packed, Stored, Ordered, Prefixed, Canonical;
    var f := d.fields[i];
    var t, b := Tagged(f.tag, STRING), Packed(f.kind, vs);
    assert t + Prefixed(b) + rest == t + (Prefixed(b) + rest);
    TagRead(d, state, i, STRING, Prefixed(b) + rest);
    PrefixRead(b, rest);
    PackedRead(f.kind, vs, [], f.rule.max);
    assert [] + vs == vs;
    var at := |Canonical(|b|)|;
    assert (Prefixed(b) + rest)[at + |b|..] == rest;
  }

  // ----- Messages

  lemma {:induction false} UnpackedRead(d: Desc, state: seq<Slot>, i: nat, vs: seq<Value>, done: seq<Value>, rest: seq<byte>)
    requires Ordered(d) && |state| == |d.fields| && i < |state| && d.fields[i].rule.Repeated? && !Packable(d.fields[i].kind)
    requires (forall j :: 0 <= j < |vs| ==> Stored(d.fields[i].kind, vs[j])) && |done| + |vs| <= d.fields[i].rule.max && state[i] == Many(done)
    requires Unpacked(d.fields[i], vs).Some? && |Unpacked(d.fields[i], vs).value| < TWO32
    ensures DecodeLoop(d, Unpacked(d.fields[i], vs).value + rest, state) == DecodeLoop(d, rest, state[i := Many(done + vs)])
    decreases d, 1, |vs|
  {
    hide DecodeLoop, Stored, Ordered, Payload, Tagged, DecodeValue;
    var f := d.fields[i];
    if vs == [] {
      assert Unpacked(f, vs).value + rest == rest;
      assert done + vs == done && state[i := Many(done)] == state;
    } else {
      assert KindOrdered(f.kind) by { TagBound(d, i); }
      var head, tail := Basic(f, vs[0]).value, Unpacked(f, vs[1..]).value;
      assert Unpacked(f, vs).value + rest == head + (tail + rest);
      ValueRead(f.kind, vs[0], tail + rest);
      BasicRead(d, state, i, vs[0], tail + rest);
      var next := state[i := Many(done + [vs[0]])];
      UnpackedRead(d, next, i, vs[1..], done + [vs[0]], rest);
      assert done + [vs[0]] + vs[1..] == done + vs;
      assert next[i := Many(done + vs)] == state[i := Many(done + vs)];
    }
  }

  lemma {:induction false} ValueRead(k: Kind, v: Value, rest: seq<byte>)
    requires Stored(k, v) && KindOrdered(k) && Payload(k, v).Some? && |Payload(k, v).value| < TWO32
    ensures DecodeValue(k, Payload(k, v).value + rest, Default(k)) == Some((v, |Payload(k, v).value|))
    decreases k, 0
  {
    hide Canonical, DecodeLoop, NumberBytes, DecodeNumber, DecodeRaw;
    if k.Sub? {
      var body := EncodeFrom(k.desc, v.slots, 0).value;
      PrefixRead(body, rest);
      MessageRead(k.desc, v.slots);
    } else if k.Bytes? || k.Text? || k.Block? {
      RawRead(k, v, rest);
    } else {
      NumberRead(k, v.n, rest);
    }
  }

  /** Reading field i of a message that is decoded up to there. */
  lemma {:induction false} FieldRead(d: Desc, slots: seq<Slot>, i: nat, rest: seq<byte>)
    requires Ordered(d) && Shaped(d, slots) && i < |slots|
    requires EncodeField(d.fields[i], slots[i]).Some? && |EncodeField(d.fields[i], slots[i]).value| < TWO32
    ensures DecodeLoop(d, EncodeField(d.fields[i], slots[i]).value + rest, Mixed(d, slots, i)) == DecodeLoop(d, rest, Mixed(d, slots, i + 1))
    decreases d, 2
  {
    hide DecodeLoop, Stored, Ordered, Payload, Tagged, DecodeValue, Unpacked, Packed, Prefixed, IsDefault;
    var f, s, state := d.fields[i], slots[i], Mixed(d, slots, i);
    assert SlotStored(f, s);
    MixedStep(d, slots, i);
    assert [] + rest == rest;
    match s
    case One(v) =>
      if IsDefault(f.kind, v) {
        SlotDefaultIsUnique(f, s);
        assert Mixed(d, slots, i + 1) == state;
      } else {
        SingleRead(d, slots, i, v, rest);
      }
    case Maybe(o) =>
      if o.None? {
        assert Mixed(d, slots, i + 1) == state;
      } else {
        SingleRead(d, slots, i, o.value, rest);
        if f.rule.Oneof? { ClaimsNothing(d, slots, i); }
      }
    case Many(vs) =>
      if vs == [] {
        assert Mixed(d, slots, i + 1) == state;
      } else if Packable(f.kind) {
        PackedShorter(f, vs);
        PackedFieldRead(d, state, i, vs, rest);
      } else {
        UnpackedRead(d, state, i, vs, [], rest);
        assert [] + vs == vs;
      }
  }

  lemma PackedShorter(f: Field, vs: seq<Value>)
    requires Packable(f.kind) && forall i :: 0 <= i < |vs| ==> Stored(f.kind, vs[i])
    ensures |Packed(f.kind, vs)| <= |Tagged(f.tag, STRING) + Prefixed(Packed(f.kind, vs))|
  {
    hide Packed;
  }

  lemma {:induction false} SingleRead(d: Desc, slots: seq<Slot>, i: nat, v: Value, rest: seq<byte>)
    requires Ordered(d) && Shaped(d, slots) && i < |slots| && Stored(d.fields[i].kind, v) && !d.fields[i].rule.Repeated?
    requires Basic(d.fields[i], v).Some? && |Basic(d.fields[i], v).value| < TWO32
    ensures DecodeLoop(d, Basic(d.fields[i], v).value + rest, Mixed(d, slots, i))
         == DecodeLoop(d, rest, Placed(d, Mixed(d, slots, i), i, v))
    decreases d, 1, 0
  {
    hide DecodeLoop, Stored, Ordered, Payload, Tagged, DecodeValue, Claimed;
    var f := d.fields[i];
    assert KindOrdered(f.kind) by { TagBound(d, i); }
    ValueRead(f.kind, v, rest);
    BasicRead(d, Mixed(d, slots, i), i, v, rest);
  }

  lemma {:induction false} TailRead(d: Desc, slots: seq<Slot>, i: nat)
    requires Ordered(d) && Shaped(d, slots) && i <= |slots| && EncodeFrom(d, slots, i).Some? && |EncodeFrom(d, slots, i).value| < TWO32
    ensures DecodeLoop(d, EncodeFrom(d, slots, i).value, Mixed(d, slots, i)) == Some(slots)
    decreases d, 3, |slots| - i
  {
    hide Stored, Ordered, EncodeField, DecodeLoop;
    if i == |slots| {
      assert Mixed(d, slots, i) == slots;
      assert DecodeLoop(d, [], slots) == Some(slots) by { NothingToRead(d, slots); }
    } else {
      FieldRead(d, slots, i, EncodeFrom(d, slots, i + 1).value);
      TailRead(d, slots, i + 1);
    }
  }

  lemma NothingToRead(d: Desc, slots: seq<Slot>)
    requires |slots| == |d.fields|
    ensures DecodeLoop(d, [], slots) == Some(slots)
  {
  }

  /** The round trip. Streams count bytes in 32 bits, hence the size bound. */
  lemma {:induction false} MessageRead(d: Desc, slots: seq<Slot>)
    requires Ordered(d) && Shaped(d, slots) && EncodeFrom(d, slots, 0).Some? && |EncodeFrom(d, slots, 0).value| < TWO32
    ensures DecodeLoop(d, EncodeFrom(d, slots, 0).value, Defaults(d)) == Some(slots)
    decreases d, 4
  {
    hide DecodeLoop, EncodeFrom, Shaped, Ordered;
    TailRead(d, slots, 0);
    assert Mixed(d, slots, 0) == Defaults(d);
  }

  lemma RoundTrip(d: Desc, slots: seq<Slot>)
    requires Ordered(d) && Shaped(d, slots) && Encode(d, slots).Some? && |Encode(d, slots).value| < TWO32
    ensures Decode(d, Encode(d, slots).value) == Some(slots)
  {
    MessageRead(d, slots);
  }
}
