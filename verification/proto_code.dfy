/** The encoder and decoder as they run: streams that only count or that write,
    a sizing pass in front of every submessage, and the field iterator. */
module ProtoCode {
  import opened Types
  import opened Varint
  import opened Proto
  import opened ProtoRoundTrip

  // ----- Output streams

  /** A sizing stream only counts; a writing one also keeps the bytes, up to its
      maximum. */
  class OStream {
    const sizing: bool
    const max: nat
    var written: nat
    var out: seq<byte>

    constructor (sizing: bool, max: nat)
      ensures this.sizing == sizing && this.max == max && written == 0 && out == []
    {
      this.sizing, this.max, written, out := sizing, max, 0, [];
    }

    /** The stream took all of e, or reported that it could not. */
    twostate predicate Took(ok: bool, new e: Option<seq<byte>>)
      reads this
    {
      && (ok <==> e.Some? && (sizing || old(written) + |e.value| <= max))
      && (ok ==> written == old(written) + |e.value| && (!sizing ==> out == old(out) + e.value))
    }

    method Write(b: seq<byte>) returns (ok: bool)
      requires sizing || written <= max
      modifies this
      ensures Took(ok, Some(b)) && (!ok ==> written == old(written) && out == old(out))
    {
      if |b| > 0 && !sizing {
        if written + |b| > max { return false; }
      }
      if !sizing { out := out + b; }
      written := written + |b|;
      ok := true;
    }

    /** Bytes that a sizing stream need not see. */
    method Count(n: nat, ghost b: seq<byte>) returns (ok: bool)
      requires sizing && n == |b|
      modifies this
      ensures Took(ok, Some(b)) && ok
    {
      written := written + n;
      ok := true;
    }
  }

  ghost predicate Room(s: OStream)
    reads s
  {
    s.sizing || s.written <= s.max
  }

  method PutVarint(s: OStream, v: u64) returns (ok: bool)
    requires Room(s)
    modifies s
    ensures s.Took(ok, Some(Canonical(v))) && Room(s)
  {
    var b := EncodeVarint(v);
    ok := s.Write(b);
  }

  method PutTag(s: OStream, tag: nat, wire: nat) returns (ok: bool)
    requires Room(s) && tag <= SIZE_MAX && wire < 8
    modifies s
    ensures s.Took(ok, Some(Tagged(tag, wire))) && Room(s)
  {
    ok := PutVarint(s, tag * 8 + wire);
  }

  method PutString(s: OStream, b: seq<byte>) returns (ok: bool)
    requires Room(s) && |b| < TWO64
    modifies s
    ensures s.Took(ok, Some(Prefixed(b))) && Room(s)
  {
    ok := PutVarint(s, |b|);
    if ok {
      assert s.out == old(s.out) + Canonical(|b|) || s.sizing;
      ok := s.Write(b);
      Regroup(old(s.out), Canonical(|b|), b);
    }
  }

  method PutNumber(s: OStream, k: Kind, n: int) returns (ok: bool)
    requires Room(s) && Packable(k) && Stored(k, Num(n))
    modifies s
    ensures s.Took(ok, Some(NumberBytes(k, n))) && Room(s)
  {
    if k.SInt? { ok := PutVarint(s, Zig(n)); }
    else if k.Int? { ok := PutVarint(s, if n < 0 then n + TWO64 else n); }
    else if k.Fixed32? { ok := s.Write(LittleEndian(n, 4)); }
    else if k.Fixed64? { ok := s.Write(LittleEndian(n, 8)); }
    else { ok := PutVarint(s, n); }
  }

  /** Byte counts stay within 64 bits in every submessage. */
  ghost predicate Measured(k: Kind, v: Value)
    requires Stored(k, v)
    decreases k
  {
    k.Sub? ==>
      && MeasuredFields(k.desc, v.slots)
      && var body := EncodeFrom(k.desc, v.slots, 0); body.Some? ==> |body.value| < TWO64
  }

  ghost predicate MeasuredSlot(f: Field, s: Slot)
    requires SlotStored(f, s)
    decreases f
  {
    match s
    case One(v) => Measured(f.kind, v)
    case Maybe(o) => o.Some? ==> Measured(f.kind, o.value)
    case Many(vs) => forall i :: 0 <= i < |vs| ==> Stored(f.kind, vs[i]) && Measured(f.kind, vs[i])
  }

  ghost predicate MeasuredFields(d: Desc, slots: seq<Slot>)
    requires Shaped(d, slots)
    decreases d
  {
    forall i :: 0 <= i < |slots| ==> SlotStored(d.fields[i], slots[i]) && MeasuredSlot(d.fields[i], slots[i])
  }

  // ----- Values and fields

  /** A submessage: a sizing pass, its length, then the bytes. The second pass
      writes into a stream of exactly that length and always fills it. */
  method PutSub(s: OStream, d: Desc, slots: seq<Slot>) returns (ok: bool)
    requires Room(s) && Ordered(d) && Shaped(d, slots) && MeasuredFields(d, slots)
    requires EncodeFrom(d, slots, 0).Some? ==> |EncodeFrom(d, slots, 0).value| < TWO64
    modifies s
    ensures s.Took(ok, if EncodeFrom(d, slots, 0).None? then None else Some(Prefixed(EncodeFrom(d, slots, 0).value))) && Room(s)
    decreases d, 1
  {
    var sizer := new OStream(true, 0);
    ok := PutMessage(sizer, d, slots);
    if !ok { return; }
    ghost var body := EncodeFrom(d, slots, 0).value;
    var size := sizer.written;
    ok := PutVarint(s, size);
    if !ok { return; }
    Regroup(old(s.out), Canonical(size), body);
    if s.sizing {
      ok := s.Count(size, body);
      return;
    }
    if s.written + size > s.max { return false; }
    var sub := new OStream(false, size);
    ok := PutMessage(sub, d, slots);
    s.written := s.written + sub.written;
    s.out := s.out + sub.out;
    if sub.written != size { assert false; }
  }

  method PutPayload(s: OStream, k: Kind, v: Value) returns (ok: bool)
    requires Room(s) && KindOrdered(k) && Stored(k, v) && Measured(k, v)
    modifies s
    ensures s.Took(ok, Payload(k, v)) && Room(s)
    decreases k, 2
  {
    match k
    case Bytes(max) =>
      if |v.bytes| > max { return false; }
      ok := PutString(s, v.bytes);
    case Text(size) =>
      if size == 0 || |v.bytes| == size { return false; }
      ok := PutString(s, v.bytes);
    case Block(_) => ok := PutString(s, v.bytes);
    case Sub(d) => ok := PutSub(s, d, v.slots);
    case _ => ok := PutNumber(s, k, v.n);
  }

  method PutBasic(s: OStream, f: Field, v: Value) returns (ok: bool)
    requires Room(s) && f.tag <= SIZE_MAX && KindOrdered(f.kind) && Stored(f.kind, v) && Measured(f.kind, v)
    modifies s
    ensures s.Took(ok, Basic(f, v)) && Room(s)
    decreases f, 0
  {
    ok := PutTag(s, f.tag, WireType(f.kind));
    if ok {
      ghost var middle := s.out;
      ok := PutPayload(s, f.kind, v);
      if ok { Regroup(old(s.out), Tagged(f.tag, WireType(f.kind)), Payload(f.kind, v).value); }
    }
  }

  lemma {:induction false} PackedBound(k: Kind, vs: seq<Value>)
    requires Packable(k) && forall i :: 0 <= i < |vs| ==> Stored(k, vs[i])
    ensures |Packed(k, vs)| <= 10 * |vs|
    ensures k.Fixed32? ==> |Packed(k, vs)| == 4 * |vs|
    ensures k.Fixed64? ==> |Packed(k, vs)| == 8 * |vs|
    decreases |vs|
  {
    if vs != [] {
      assert Stored(k, vs[0]);
      NumberLength(k, vs[0].n);
      PackedBound(k, vs[1..]);
    }
  }

  lemma NumberLength(k: Kind, n: int)
    requires Packable(k) && Stored(k, Num(n))
    ensures |NumberBytes(k, n)| <= 10 && (k.Fixed32? ==> |NumberBytes(k, n)| == 4) && (k.Fixed64? ==> |NumberBytes(k, n)| == 8)
  {
    hide Canonical;
    if k.SInt? { TenBytes(Zig(n)); }
    else if k.Int? { TenBytes(if n < 0 then n + TWO64 else n); }
    else if k.UInt? || k.Bool? { TenBytes(n); }
  }

  lemma PackedStep(k: Kind, vs: seq<Value>, i: nat, done: seq<byte>)
    requires Packable(k) && i < |vs| && (forall j :: 0 <= j < |vs| ==> Stored(k, vs[j])) && done + Packed(k, vs[i..]) == Packed(k, vs)
    ensures vs[i].Num? && Stored(k, Num(vs[i].n)) && (done + NumberBytes(k, vs[i].n)) + Packed(k, vs[i + 1..]) == Packed(k, vs)
  {
    hide NumberBytes;
    assert Stored(k, vs[i]);
    assert vs[i..][1..] == vs[i + 1..];
    assert vs[i] == Num(vs[i].n);
    Regroup(done, NumberBytes(k, vs[i].n), Packed(k, vs[i + 1..]));
  }

  /** The elements of a packed array, one after the other. */
  method PutElements(s: OStream, k: Kind, vs: seq<Value>) returns (ok: bool)
    requires Room(s) && Packable(k) && forall i :: 0 <= i < |vs| ==> Stored(k, vs[i])
    modifies s
    ensures s.Took(ok, Some(Packed(k, vs))) && Room(s)
  {
    hide NumberBytes, Packed, Stored;
    var i := 0;
    ghost var base, start, done := s.out, s.written, [];
    assert vs[0..] == vs && [] + Packed(k, vs) == Packed(k, vs);
    while i < |vs|
      invariant i <= |vs| && Room(s) && done + Packed(k, vs[i..]) == Packed(k, vs)
      invariant s.written == start + |done| && (!s.sizing ==> s.out == base + done)
    {
      PackedStep(k, vs, i, done);
      Regroup(base, done, NumberBytes(k, vs[i].n));
      var more := PutNumber(s, k, vs[i].n);
      if !more { return false; }
      done := done + NumberBytes(k, vs[i].n);
      i := i + 1;
    }
    assert done == Packed(k, vs) by { NothingPacked(k, vs, done); }
    ok := true;
  }

  lemma NothingPacked(k: Kind, vs: seq<Value>, done: seq<byte>)
    requires Packable(k) && (forall i :: 0 <= i < |vs| ==> Stored(k, vs[i])) && done + Packed(k, vs[|vs|..]) == Packed(k, vs)
    ensures done == Packed(k, vs)
  {
    assert done + [] == done;
  }

  method PutPacked(s: OStream, f: Field, vs: seq<Value>) returns (ok: bool)
    requires Room(s) && f.tag <= SIZE_MAX && Packable(f.kind) && |vs| <= SIZE_MAX && forall i :: 0 <= i < |vs| ==> Stored(f.kind, vs[i])
    modifies s
    ensures s.Took(ok, Some(Tagged(f.tag, STRING) + Prefixed(Packed(f.kind, vs)))) && Room(s)
  {
    hide Packed, Stored, Tagged, Canonical;
    PackedBound(f.kind, vs);
    ok := PutTag(s, f.tag, STRING);
    if !ok { return; }
    var size := 0;
    if f.kind.Fixed32? {
      size := 4 * |vs|;
    } else if f.kind.Fixed64? {
      size := 8 * |vs|;
    } else {
      var sizer := new OStream(true, 0);
      var counted := PutElements(sizer, f.kind, vs);
      size := sizer.written;
    }
    ok := PutVarint(s, size);
    if !ok { return; }
    ghost var data := Packed(f.kind, vs);
    Regroup(old(s.out), Tagged(f.tag, STRING), Canonical(|data|));
    Regroup(old(s.out), Tagged(f.tag, STRING) + Canonical(|data|), data);
    Regroup(Tagged(f.tag, STRING), Canonical(|data|), data);
    if s.sizing {
      ok := s.Count(size, data);
    } else {
      ok := PutElements(s, f.kind, vs);
    }
  }

  /** What is done so far, followed by what is to come, is the whole. */
  ghost predicate Onward(done: seq<byte>, rest: Option<seq<byte>>, all: Option<seq<byte>>) {
    all == Joined(Some(done), rest)
  }

  lemma OnwardStep(done: seq<byte>, head: Option<seq<byte>>, tail: Option<seq<byte>>, all: Option<seq<byte>>)
    requires Onward(done, Joined(head, tail), all)
    ensures head.None? ==> all.None?
    ensures head.Some? ==> Onward(done + head.value, tail, all) && (all.Some? ==> |all.value| >= |done| + |head.value|)
  {
    if head.Some? && tail.Some? { Regroup(done, head.value, tail.value); }
  }

  lemma OnwardEnds(done: seq<byte>, all: Option<seq<byte>>)
    ensures Onward(done, Some([]), all) ==> all == Some(done)
    ensures Onward([], all, all)
  {
    assert done + [] == done;
    if all.Some? { assert [] + all.value == all.value; }
  }

  method PutUnpacked(s: OStream, f: Field, vs: seq<Value>) returns (ok: bool)
    requires Room(s) && f.tag <= SIZE_MAX && KindOrdered(f.kind)
    requires forall i :: 0 <= i < |vs| ==> Stored(f.kind, vs[i]) && Measured(f.kind, vs[i])
    modifies s
    ensures s.Took(ok, Unpacked(f, vs)) && Room(s)
    decreases f, 1
  {
    hide Stored, Measured, Basic, Onward, KindOrdered;
    var i := 0;
    ghost var base, start, done := s.out, s.written, [];
    assert vs[0..] == vs;
    OnwardEnds([], Unpacked(f, vs));
    while i < |vs|
      invariant i <= |vs| && Room(s) && Onward(done, Unpacked(f, vs[i..]), Unpacked(f, vs))
      invariant s.written == start + |done| && (!s.sizing ==> s.out == base + done)
    {
      assert vs[i..][1..] == vs[i + 1..] && vs[i..][0] == vs[i];
      OnwardStep(done, Basic(f, vs[i]), Unpacked(f, vs[i + 1..]), Unpacked(f, vs));
      var more := PutBasic(s, f, vs[i]);
      if !more { return false; }
      Regroup(base, done, Basic(f, vs[i]).value);
      done := done + Basic(f, vs[i]).value;
      i := i + 1;
    }
    OnwardEnds(done, Unpacked(f, vs));
    ok := true;
  }

  method PutField(s: OStream, f: Field, slot: Slot) returns (ok: bool)
    requires Room(s) && f.tag <= SIZE_MAX && KindOrdered(f.kind) && SlotStored(f, slot) && MeasuredSlot(f, slot)
    modifies s
    ensures s.Took(ok, EncodeField(f, slot)) && Room(s)
    decreases f, 2
  {
    hide Stored, Measured, Basic, Packed, Unpacked, IsDefault, KindOrdered, Prefixed, Tagged;
    assert s.out + [] == s.out;
    match slot
    case One(v) =>
      if IsDefault(f.kind, v) { return true; }
      ok := PutBasic(s, f, v);
    case Maybe(o) =>
      if o.None? { return true; }
      ok := PutBasic(s, f, o.value);
    case Many(vs) =>
      if vs == [] { return true; }
      if |vs| > f.rule.max { return false; }
      if Packable(f.kind) { ok := PutPacked(s, f, vs); } else { ok := PutUnpacked(s, f, vs); }
  }

  /** All fields of a message, in order: exactly the bytes of Encode. */
  method PutMessage(s: OStream, d: Desc, slots: seq<Slot>) returns (ok: bool)
    requires Room(s) && Ordered(d) && Shaped(d, slots) && MeasuredFields(d, slots)
    modifies s
    ensures s.Took(ok, EncodeFrom(d, slots, 0)) && Room(s)
    decreases d, 0
  {
    hide SlotStored, MeasuredSlot, EncodeField, Onward, Ordered;
    var i := 0;
    ghost var base, start, done := s.out, s.written, [];
    ghost var all := EncodeFrom(d, slots, 0);
    OnwardEnds([], all);
    while i < |slots|
      invariant i <= |slots| && Room(s) && Onward(done, EncodeFrom(d, slots, i), all)
      invariant s.written == start + |done| && (!s.sizing ==> s.out == base + done)
    {
      TagBound(d, i);
      OnwardStep(done, EncodeField(d.fields[i], slots[i]), EncodeFrom(d, slots, i + 1), all);
      var more := PutField(s, d.fields[i], slots[i]);
      if !more { return false; }
      Regroup(base, done, EncodeField(d.fields[i], slots[i]).value);
      done := done + EncodeField(d.fields[i], slots[i]).value;
      i := i + 1;
    }
    OnwardEnds(done, all);
    ok := true;
  }

  /** The encoder on a buffer: it succeeds exactly when the message is encodable
      and fits, and then the buffer holds its encoding. */
  method EncodeBuffer(d: Desc, slots: seq<Slot>, max: nat) returns (ok: bool, out: seq<byte>)
    requires Ordered(d) && Shaped(d, slots) && MeasuredFields(d, slots)
    ensures ok <==> Encode(d, slots).Some? && |Encode(d, slots).value| <= max
    ensures ok ==> out == Encode(d, slots).value
  {
    var s := new OStream(false, max);
    ok := PutMessage(s, d, slots);
    out := s.out;
    assert ok ==> [] + Encode(d, slots).value == Encode(d, slots).value;
  }

  /** The size query runs the same pass without writing. */
  method EncodedSize(d: Desc, slots: seq<Slot>) returns (ok: bool, size: nat)
    requires Ordered(d) && Shaped(d, slots) && MeasuredFields(d, slots)
    ensures ok <==> Encode(d, slots).Some?
    ensures ok ==> size == |Encode(d, slots).value|
  {
    var s := new OStream(true, 0);
    ok := PutMessage(s, d, slots);
    size := s.written;
  }

  // ----- The field iterator

  /** One step of the iterator, wrapping at the end. */
  function Advance(d: Desc, index: nat): (r: nat)
    requires |d.fields| > 0
    ensures r < |d.fields|
  {
    if index + 1 >= |d.fields| then 0 else index + 1
  }

  /** The search from wherever the iterator stands: a tag beyond the last field
      is refused at once, a smaller tag restarts at the front, and only fields
      whose low six tag bits match are looked at. */
  method Find(d: Desc, index: nat, tag: nat) returns (found: bool, at: nat)
    requires Ordered(d) && (|d.fields| > 0 ==> index < |d.fields|)
    ensures found <==> FindTag(d, tag, 0) < |d.fields|
    ensures found ==> at == FindTag(d, tag, 0)
    ensures |d.fields| > 0 ==> at < |d.fields|
  {
    at := index;
    if |d.fields| == 0 { return false, at; }
    if d.fields[index].tag == tag {
      TagFound(d, index);
      return true, at;
    }
    if tag > d.fields[|d.fields| - 1].tag { return false, at; }
    var start, n := index, |d.fields|;
    if tag < d.fields[index].tag { at := n; }
    ghost var wrapped := false;
    while true
      invariant at == n ==> tag < d.fields[start].tag
      invariant start <= at < n ==> !wrapped && d.fields[start].tag < tag && forall j :: start <= j <= at ==> d.fields[j].tag != tag
      invariant at < start && wrapped ==> d.fields[start].tag < tag && forall j :: start <= j < n ==> d.fields[j].tag != tag
      invariant at < start && !wrapped ==> tag < d.fields[start].tag && forall j :: 0 <= j <= at ==> d.fields[j].tag != tag
      invariant at <= n && start < n && (wrapped ==> at < start)
      decreases if start <= at < n then 2 * n - at else if at == n then n else start - at
    {
      if start <= at < n && at + 1 == n { wrapped := true; }
      at := Advance(d, at);
      if d.fields[at].tag % 64 == tag % 64 && d.fields[at].tag == tag {
        TagFound(d, at);
        return true, at;
      }
      if at == start {
        NowhereElse(d, start, tag, wrapped);
        return false, at;
      }
    }
  }

  /** A full turn that found nothing has seen every field that could match. */
  lemma NowhereElse(d: Desc, start: nat, tag: nat, wrapped: bool)
    requires Ordered(d) && start < |d.fields| && d.fields[start].tag != tag
    requires wrapped ==> d.fields[start].tag < tag && forall j :: start <= j < |d.fields| ==> d.fields[j].tag != tag
    requires !wrapped ==> tag < d.fields[start].tag && forall j :: 0 <= j < start ==> d.fields[j].tag != tag
    ensures FindTag(d, tag, 0) == |d.fields|
  {
    forall i | 0 <= i < |d.fields| ensures d.fields[i].tag != tag {
      assert i < start ==> d.fields[i].tag < d.fields[start].tag;
      assert start < i ==> d.fields[start].tag < d.fields[i].tag;
    }
  }

  // ----- Decoding

  method ReadNumber(k: Kind, b: seq<byte>) returns (r: Option<(Value, nat)>)
    requires Packable(k)
    ensures r == DecodeNumber(k, b)
  {
    hide Decode32, Decode64;
    match k
    case Bool =>
      var w := DecodeVarint32(b);
      r := if w.None? then None else Some((Num(if w.value.0 != 0 then 1 else 0), w.value.1));
    case UInt(size) =>
      var w := DecodeVarint(b);
      r := if w.None? then None else Checked(size, false, w.value.0, w.value.1);
    case Int(size) =>
      var w := DecodeVarint(b);
      r := if w.None? then None
           else Checked(size, true, if size == 8 then AsSigned(w.value.0 % TWO64) else LowSigned(w.value.0), w.value.1);
    case SInt(size) =>
      var w := DecodeVarint(b);
      r := if w.None? then None else Checked(size, true, Zag(w.value.0 % TWO64), w.value.1);
    case _ => r := DecodeNumber(k, b);
  }

  method ReadPacked(k: Kind, b: seq<byte>, start: seq<Value>, max: nat) returns (r: Option<seq<Value>>)
    requires Packable(k)
    ensures r == DecodePacked(k, b, start, max)
  {
    hide DecodeNumber;
    var vs, at := start, 0;
    assert b[0..] == b;
    while at < |b| && |vs| < max
      invariant at <= |b| && DecodePacked(k, b[at..], vs, max) == DecodePacked(k, b, start, max)
      decreases |b| - at
    {
      var w := ReadNumber(k, b[at..]);
      if w.None? { return None; }
      assert b[at..][w.value.1..] == b[at + w.value.1..];
      vs, at := vs + [w.value.0], at + w.value.1;
    }
    if at < |b| { return None; }
    r := Some(vs);
  }

  method ReadValue(k: Kind, b: seq<byte>, base: Value) returns (r: Option<(Value, nat)>)
    requires KindOrdered(k) && (k.Sub? ==> base.Node? && |base.slots| == |k.desc.fields|)
    ensures r == DecodeValue(k, b, base)
    decreases k, 1
  {
    hide DecodeLoop, DecodeRaw, DecodeNumber, Length;
    match k
    case Sub(d) =>
      var w := Length(b);
      if w.None? { return None; }
      var m := ReadMessage(d, b[w.value.1..w.value.1 + w.value.0], base.slots);
      r := if m.None? then None else Some((Node(m.value), w.value.1 + w.value.0));
    case Bytes(_) => r := DecodeRaw(k, b);
    case Text(_) => r := DecodeRaw(k, b);
    case Block(_) => r := DecodeRaw(k, b);
    case _ => r := ReadNumber(k, b);
  }

  method ReadField(d: Desc, slots: seq<Slot>, i: nat, wire: nat, b: seq<byte>) returns (r: Option<(seq<Slot>, nat)>)
    requires Ordered(d) && |slots| == |d.fields| && i < |slots|
    ensures r == DecodeField(d, slots, i, wire, b)
    decreases d, 0
  {
    hide DecodeValue, DecodePacked, Length, Claimed, Ordered;
    TagBound(d, i);
    var f := d.fields[i];
    if f.rule.Repeated? && wire == STRING && Packable(f.kind) {
      var w := Length(b);
      if w.None? || !slots[i].Many? { return None; }
      var vs := ReadPacked(f.kind, b[w.value.1..w.value.1 + w.value.0], slots[i].vs, f.rule.max);
      return if vs.None? then None else Some((slots[i := Many(vs.value)], w.value.1 + w.value.0));
    }
    if f.rule.Repeated? && (!slots[i].Many? || |slots[i].vs| >= f.rule.max) { return None; }
    if wire != WireType(f.kind) { return None; }
    var w := ReadValue(f.kind, b, if f.rule.Repeated? then Default(f.kind) else Base(f.kind, slots[i]));
    if w.None? { return None; }
    var v := w.value.0;
    var next := match f.rule
      case Singular => slots[i := One(v)]
      case Optional => slots[i := Maybe(Some(v))]
      case Oneof(_) => Claimed(d, slots, i)[i := Maybe(Some(v))]
      case Repeated(_) => slots[i := Many(slots[i].vs + [v])];
    r := Some((next, w.value.1));
  }

  /** Fields in whatever order they arrive; the iterator stays where the last
      field was found. */
  method ReadMessage(d: Desc, b: seq<byte>, start: seq<Slot>) returns (r: Option<seq<Slot>>)
    requires Ordered(d) && |start| == |d.fields|
    ensures r == DecodeLoop(d, b, start)
    decreases d, 1
  {
    hide DecodeField, Skip, Decode32, Ordered, FindTag;
    var slots, at := start, 0;
    var index: nat := 0;
    assert b[0..] == b;
    while at < |b|
      invariant at <= |b| && |slots| == |d.fields| && (|d.fields| > 0 ==> index < |d.fields|)
      invariant DecodeLoop(d, b[at..], slots) == DecodeLoop(d, b, start)
      decreases |b| - at
    {
      var w := DecodeVarint32(b[at..]);
      if w.None? || w.value.0 / 8 == 0 { return None; }
      var rest := at + w.value.1;
      assert b[at..][w.value.1..] == b[rest..];
      var found, i := Find(d, index, w.value.0 / 8);
      index := i;
      if !found {
        var n := Skip(w.value.0 % 8, b[rest..]);
        if n.None? { return None; }
        assert b[rest..][n.value..] == b[rest + n.value..];
        at := rest + n.value;
      } else {
        var x := ReadField(d, slots, i, w.value.0 % 8, b[rest..]);
        if x.None? { return None; }
        assert b[rest..][x.value.1..] == b[rest + x.value.1..];
        slots, at := x.value.0, rest + x.value.1;
      }
    }
    r := Some(slots);
  }
}
