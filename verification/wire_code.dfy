/** wb_encode and wb_decode as they run: a zeroed buffer filled at offsets, and a
    cursor moved over the packet, proved against the codec of module Wire. */
module WireCode {
  import opened Types
  import opened Prefixes
  import opened EngineState
  import opened Wire

  // ----- Encoding

  /** Large enough for any message. */
  const ROOM: nat := 64

  /** Bytes written behind the n that are there already. */
  method Append(p: array<byte>, n: nat, b: seq<byte>) returns (next: nat)
    requires n + |b| <= p.Length
    modifies p
    ensures next == n + |b| && p[..next] == old(p[..n]) + b
    ensures forall k :: next <= k < p.Length ==> p[k] == old(p[k])
  {
    var i := 0;
    while i < |b|
      invariant i <= |b| && (forall k :: 0 <= k < n ==> p[k] == old(p[k])) && forall k :: 0 <= k < i ==> p[n + k] == b[k]
      invariant forall k :: n + |b| <= k < p.Length ==> p[k] == old(p[k])
    {
      p[n + i] := b[i];
      i := i + 1;
    }
    next := n + |b|;
  }

  lemma PutTwo(v: u16)
    ensures Put(v, 2) == [v / 256, v % 256]
  {
    assert Put(v / 256, 1) == Put(v / 256 / 256, 0) + [v / 256 % 256];
  }

  method Put16(p: array<byte>, n: nat, v: u16) returns (next: nat)
    requires n + 2 <= p.Length
    modifies p
    ensures next == n + 2 && p[..next] == old(p[..n]) + Put(v, 2)
    ensures forall k :: next <= k < p.Length ==> p[k] == old(p[k])
  {
    PutTwo(v);
    p[n], p[n + 1] := v / 256, v % 256;
    next := n + 2;
  }

  /** Lowest byte last, by repeated shifts. */
  method Put64(p: array<byte>, n: nat, v: u64) returns (next: nat)
    requires n + 8 <= p.Length
    modifies p
    ensures next == n + 8 && p[..next] == old(p[..n]) + Put(v, 8)
  {
    var shifted: nat := v;
    var i := 0;
    while i < 8
      invariant i <= 8
      invariant Put(v, 8) == Put(shifted, 8 - i) + p[n + 8 - i..n + 8]
      invariant forall k :: 0 <= k < n ==> p[k] == old(p[k])
    {
      ghost var tail := p[n + 8 - i..n + 8];
      p[n + 7 - i] := shifted % 256;
      assert p[n + 7 - i..n + 8] == [shifted % 256] + tail;
      shifted := shifted / 256;
      i := i + 1;
    }
    next := n + 8;
    assert p[..next] == p[..n] + p[n..next];
  }

  method EncodeHello(p: array<byte>, t: byte, flags: byte, v: u16, interval: u16) returns (n: nat)
    requires p.Length == ROOM
    modifies p
    ensures n <= ROOM && p[..n] == Tlv(t, [flags, 0] + Put(v, 2) + Put(interval, 2))
  {
    hide Put;
    n := Append(p, 0, [t, 6, flags, 0]);
    n := Put16(p, n, v);
    n := Put16(p, n, interval);
  }

  method EncodeAck(p: array<byte>, v: u16) returns (n: nat)
    requires p.Length == ROOM
    modifies p
    ensures n <= ROOM && p[..n] == Tlv(ACK, Put(v, 2))
  {
    hide Put;
    n := Append(p, 0, [ACK, 2]);
    n := Put16(p, n, v);
  }

  method EncodeIhu(p: array<byte>, metric: u16, interval: u16, a: Address) returns (n: nat)
    requires p.Length == ROOM
    modifies p
    ensures n <= ROOM && p[..n] == Tlv(IHU, [AddressCode(a), 0] + Put(metric, 2) + Put(interval, 2) + AddressBytes(a))
  {
    hide Put, AddressBytes;
    var size := |AddressBytes(a)|;
    n := Append(p, 0, [IHU, 6 + size, AddressCode(a), 0]);
    n := Put16(p, n, metric);
    n := Put16(p, n, interval);
    n := Append(p, n, AddressBytes(a));
  }

  /** The router-id and next hop a finite update relies on. */
  method EncodePreamble(p: array<byte>, router: u64, metric: u16, hop: Address) returns (n: nat)
    requires p.Length == ROOM
    modifies p
    ensures n <= 32 && p[..n] == Preamble(router, metric, hop)
  {
    hide Put, AddressBytes, AddressCode;
    n := 0;
    if metric != INFINITY {
      n := Append(p, 0, [ROUTER, 10, 0, 0]);
      n := Put64(p, n, router);
      assert p[..n] == Tlv(ROUTER, [0, 0] + Put(router, 8));
      ghost var head := p[..n];
      if !hop.NoAddress? {
        var size := |AddressBytes(hop)|;
        n := Append(p, n, [NEXT_HOP, size + 2, AddressCode(hop), 0]);
        n := Append(p, n, AddressBytes(hop));
        assert [NEXT_HOP, size + 2, AddressCode(hop), 0] + AddressBytes(hop) == HopTlv(hop);
        assert p[..n] == head + HopTlv(hop);
      } else {
        assert p[..n] == head + HopTlv(hop);
      }
    }
  }

  method EncodeUpdate(p: array<byte>, at: nat, m: Message) returns (n: nat)
    requires m.Update? && Encodable(m) && at <= 32 && p.Length == ROOM
    modifies p
    ensures n <= ROOM && p[..n] == old(p[..at]) + Tlv(UPDATE, UpdateBody(m))
  {
    hide Put, PrefixBytes, PrefixCode, PrefixBits;
    ghost var head := p[..at];
    var size := |PrefixBytes(m.target)|;
    n := Append(p, at, [UPDATE, 10 + size, PrefixCode(m.target, m.via6), 0, PrefixBits(m.target), 0]);
    n := Put16(p, n, m.interval);
    n := Put16(p, n, m.seqno);
    n := Put16(p, n, m.metric);
    n := Append(p, n, PrefixBytes(m.target));
    assert [UPDATE, 10 + size, PrefixCode(m.target, m.via6), 0, PrefixBits(m.target), 0]
           + Put(m.interval, 2) + Put(m.seqno, 2) + Put(m.metric, 2) + PrefixBytes(m.target) == Tlv(UPDATE, UpdateBody(m));
  }

  method EncodeRequest(p: array<byte>, target: Option<Prefix>) returns (n: nat)
    requires p.Length == ROOM && (target.Some? ==> Valid(target.value))
    modifies p
    ensures n <= ROOM && p[..n] == Tlv(REQUEST, [PrefixCode(target, false), PrefixBits(target)] + PrefixBytes(target))
  {
    hide PrefixBytes, PrefixCode, PrefixBits;
    n := Append(p, 0, [REQUEST, 2 + |PrefixBytes(target)|, PrefixCode(target, false), PrefixBits(target)]);
    n := Append(p, n, PrefixBytes(target));
  }

  method EncodeSeqRequest(p: array<byte>, target: Option<Prefix>, router: u64, seqno: u16, hops: byte) returns (n: nat)
    requires p.Length == ROOM && (target.Some? ==> Valid(target.value))
    modifies p
    ensures n <= ROOM
    ensures p[..n] == Tlv(SEQ_REQUEST, [PrefixCode(target, false), PrefixBits(target)] + Put(seqno, 2) + [hops, 0]
                                       + Put(router, 8) + PrefixBytes(target))
  {
    hide Put, PrefixBytes, PrefixCode, PrefixBits;
    n := Append(p, 0, [SEQ_REQUEST, 14 + |PrefixBytes(target)|, PrefixCode(target, false), PrefixBits(target)]);
    n := Put16(p, n, seqno);
    n := Append(p, n, [hops, 0]);
    n := Put64(p, n, router);
    n := Append(p, n, PrefixBytes(target));
  }

  /** One message; zero when it is refused or does not fit. */
  method Encode(m: Message, out: array<byte>) returns (n: nat)
    modifies out
    ensures n == if |Encoding(m)| <= out.Length then |Encoding(m)| else 0
    ensures out[..n] == Encoding(m)[..n] && forall k :: n <= k < out.Length ==> out[k] == old(out[k])
  {
    hide Put, Tlv, Preamble, UpdateBody, PrefixBytes, AddressBytes;
    if !Encodable(m) { return 0; }
    var p := new byte[ROOM](_ => 0);
    match m {
      case AckRequest(o, interval) => n := EncodeHello(p, ACK_REQUEST, 0, o, interval);
      case Ack(o) => n := EncodeAck(p, o);
      case Hello(unicast, seqno, interval) => n := EncodeHello(p, HELLO, if unicast then 128 else 0, seqno, interval);
      case Ihu(metric, interval, a) => n := EncodeIhu(p, metric, interval, a);
      case Update(target, router, seqno, metric, interval, via6, hop) =>
        n := EncodePreamble(p, router, metric, hop);
        n := EncodeUpdate(p, n, m);
      case RouteRequest(target) => n := EncodeRequest(p, target);
      case SeqRequest(target, router, seqno, hops) => n := EncodeSeqRequest(p, target, router, seqno, hops);
    }
    assert n == |p[..n]| && p[..n] == Encoding(m);
    if n > out.Length { return 0; }
    n := Append(out, 0, p[..n]);
  }

  // ----- Decoding

  /** Sub-TLVs, with a cursor. */
  method SkipSubs(p: seq<byte>) returns (ok: bool)
    ensures ok == Subs(p)
  {
    var i := 0;
    while i < |p|
      invariant i <= |p| && Subs(p[i..]) == Subs(p)
    {
      var t := p[i];
      ghost var rest := p[i..];
      i := i + 1;
      if t == 0 {
        assert rest[1..] == p[i..];
      } else {
        if |p| - i < 1 || p[i] > |p| - i - 1 || t >= 128 { return false; }
        assert rest[2 + rest[1]..] == p[i + 1 + p[i]..];
        i := i + 1 + p[i];
      }
    }
    ok := true;
  }

  /** Big-endian fields at an offset. */
  method ReadU16(p: seq<byte>, at: nat) returns (v: u16)
    requires at + 2 <= |p|
    ensures v == Get16(p[at..at + 2])
  {
    v := p[at] as int * 256 + p[at + 1];
    var b := p[at..at + 2];
    assert b[..1] == [b[0]] && [b[0]][..0] == [];
    assert Get(b) == Get(b[..1]) * 256 + b[1] && Get([b[0]]) == Get([]) * 256 + b[0];
  }

  method ReadU64(p: seq<byte>, at: nat) returns (v: u64)
    requires at + 8 <= |p|
    ensures v == Get64(p[at..at + 8])
  {
    var b := p[at..at + 8];
    var sum: nat := 0;
    var i := 0;
    while i < 8
      invariant i <= 8 && sum == Get(b[..i])
    {
      assert b[..i + 1][..i] == b[..i];
      sum := sum * 256 + p[at + i];
      i := i + 1;
    }
    assert b[..8] == b;
    GetBound(b);
    Powers();
    v := sum;
  }

  method Fill(out: array<byte>, at: nat, b: seq<byte>)
    requires out.Length == 16 && at + |b| <= 16
    modifies out
    ensures out[..] == Filled(old(out[..]), at, b)
  {
    var i := 0;
    while i < |b|
      invariant i <= |b|
      invariant forall k :: 0 <= k < 16 ==> out[k] == if at <= k < at + i then b[k - at] else old(out[k])
    {
      out[at + i] := b[i];
      i := i + 1;
    }
  }

  /** A prefix: the omitted octets come from the default, the rest is copied
      behind them, and everything beyond the length is masked off in place. */
  method ReadPrefix(ae: byte, bits: byte, omitted: byte, p: seq<byte>, previous: Option<Prefix>) returns (r: Option<(Prefix, nat)>)
    ensures r == TakePrefix(ae, bits, omitted, p, previous)
  {
    hide Filled, MaskBytes;
    if ae < 1 || ae > 4 || bits > (if ae == 1 || ae == 4 then 32 else 128) { return None; }
    var start, octets := if ae == 3 then 8 else 0, (bits + 7) / 8;
    if ae == 3 && (omitted != 0 || bits < 64) { return None; }
    if octets < start + omitted || octets - start - omitted > |p| || (omitted != 0 && previous.None?) { return None; }
    var out := new byte[16](_ => 0);
    assert out[..] == ZERO16;
    if omitted != 0 {
      Fill(out, 0, previous.value.bytes);
      WholeFill(ZERO16, previous.value.bytes);
    }
    if ae == 3 {
      out[0], out[1] := 0xfe, 0x80;
      assert out[..] == ZERO16[0 := 0xfe][1 := 0x80];
    }
    var used := octets - start - omitted;
    Fill(out, start + omitted, p[..used]);
    MaskInPlace(out, bits);
    r := Some((Prefix(out[..], bits, if ae == 1 || ae == 4 then 4 else 6), used));
  }

  lemma WholeFill(base: Bytes16, b: Bytes16)
    ensures Filled(base, 0, b) == b
  {
  }

  method DigestUpdate(p: seq<byte>, ctx: Context) returns (next: Context, read: Option<(Message, nat)>)
    requires Sound(ctx)
    ensures (next, read) == ReadUpdate(p, ctx)
  {
    hide Get, TakePrefix, RouterOf;
    next, read := ctx, None;
    if |p| < 10 { return; }
    var ae := p[0];
    var interval := ReadU16(p, 4);
    var seqno := ReadU16(p, 6);
    var metric := ReadU16(p, 8);
    if ae == 0 {
      if p[2] == 0 && p[3] == 0 && metric == INFINITY && interval != 0 {
        read := Some((Update(None, 0, seqno, metric, interval, false, NoAddress), 10));
      }
      return;
    }
    if ae > 4 { return; }
    var taken := ReadPrefix(ae, p[2], p[3], p[10..], ctx.previous[ae]);
    if taken.None? { return; }
    var x := taken.value.0;
    if p[1] >= 128 && ae != 3 { next := next.(previous := next.previous[ae := Some(x)]); }
    if p[1] % 128 >= 64 { next := next.(router := RouterOf(x)); }
    var hop := if ae == 1 then next.hop4 else next.hop6;
    if metric != INFINITY && (!RouterId(next.router) || hop.NoAddress?) { return; }
    if interval == 0 { return; }
    read := Some((Update(Some(x), next.router, seqno, metric, interval, ae == 4, hop), 10 + taken.value.1));
  }

  method DigestRequest(p: seq<byte>) returns (read: Option<(Message, nat)>)
    ensures read == Wire.ReadRequest(p)
  {
    hide TakePrefix;
    if |p| < 2 { return None; }
    if p[0] == 0 { return if p[1] != 0 then None else Some((RouteRequest(None), 2)); }
    var taken := ReadPrefix(p[0], p[1], 0, p[2..], None);
    if taken.None? { return None; }
    read := Some((RouteRequest(Some(taken.value.0)), 2 + taken.value.1));
  }

  method DigestSeqRequest(p: seq<byte>) returns (read: Option<(Message, nat)>)
    ensures read == ReadSeqRequest(p)
  {
    hide TakePrefix, Get;
    if |p| < 14 || p[0] == 0 { return None; }
    var taken := ReadPrefix(p[0], p[1], 0, p[14..], None);
    if taken.None? { return None; }
    var seqno := ReadU16(p, 2);
    var router := ReadU64(p, 6);
    if p[4] == 0 || !RouterId(router) { return None; }
    read := Some((SeqRequest(Some(taken.value.0), router, seqno, p[4]), 14 + taken.value.1));
  }

  method DigestSimple(t: byte, p: seq<byte>) returns (read: Option<(Message, nat)>)
    ensures read == ReadSimple(t, p)
  {
    hide TakeAddress, Get;
    read := None;
    if t == ACK {
      if |p| >= 2 {
        var o := ReadU16(p, 0);
        assert p[0..2] == p[..2];
        read := Some((Ack(o), 2));
      }
      return;
    }
    if (t != HELLO && t != ACK_REQUEST && t != IHU) || |p| < 6 { return; }
    var v := ReadU16(p, 2);
    var interval := ReadU16(p, 4);
    if t == HELLO {
      read := Some((Hello(p[0] >= 128, v, interval), 6));
    } else if t == ACK_REQUEST {
      if interval != 0 { read := Some((AckRequest(v, interval), 6)); }
    } else {
      var a := TakeAddress(p[0], p[6..]);
      if a.Some? && interval != 0 { read := Some((Ihu(v, interval, a.value.0), 6 + a.value.1)); }
    }
  }

  /** One TLV: context first, then the sub-TLVs decide about the message. */
  method Digest(t: byte, p: seq<byte>, ctx: Context) returns (next: Context, m: Option<Message>)
    requires Sound(ctx)
    ensures (next, m) == Interpret(t, p, ctx)
  {
    hide ReadUpdate, ReadRequest, ReadSeqRequest, ReadSimple, TakeAddress, Get, Subs;
    next, m := ctx, None;
    if t == ROUTER {
      if |p| >= 10 {
        var router := ReadU64(p, 2);
        next := ctx.(router := router);
      }
      return;
    }
    if t == NEXT_HOP {
      if |p| < 2 || p[0] == 0 { return; }
      var a := TakeAddress(p[0], p[2..]);
      if a.Some? { next := if a.value.0.V4? then ctx.(hop4 := a.value.0) else ctx.(hop6 := a.value.0); }
      return;
    }
    var read;
    if t == UPDATE {
      next, read := DigestUpdate(p, ctx);
    } else if t == REQUEST {
      read := DigestRequest(p);
    } else if t == SEQ_REQUEST {
      read := DigestSeqRequest(p);
    } else {
      read := DigestSimple(t, p);
    }
    if read.Some? {
      var ok := SkipSubs(p[read.value.1..]);
      if ok { m := Some(read.value.0); }
    }
  }

  /** All outer lengths are checked before anything is delivered. */
  method CheckFrames(packet: seq<byte>, end: nat) returns (ok: bool)
    requires 4 <= end <= |packet|
    ensures ok == Framed(packet[4..end])
  {
    var pos := 4;
    while pos < end
      invariant 4 <= pos <= end && Framed(packet[pos..end]) == Framed(packet[4..end])
    {
      ghost var rest := packet[pos..end];
      var t := packet[pos];
      pos := pos + 1;
      if t == 0 {
        assert rest[1..] == packet[pos..end];
      } else {
        if pos >= end || packet[pos] > end - pos - 1 { return false; }
        assert rest[2 + rest[1]..] == packet[pos + 1 + packet[pos]..end];
        pos := pos + 1 + packet[pos];
      }
    }
    ok := true;
  }

  lemma PaddingStep(b: seq<byte>, ctx: Context)
    requires Framed(b) && Sound(ctx) && b != [] && b[0] == 0
    ensures Framed(b[1..]) && Messages(b, ctx) == Messages(b[1..], ctx)
  {
  }

  lemma FrameStep(b: seq<byte>, ctx: Context)
    requires Framed(b) && Sound(ctx) && b != [] && b[0] != 0
    ensures |b| >= 2 && b[1] <= |b| - 2 && Framed(b[2 + b[1]..])
    ensures var (next, m) := Interpret(b[0], b[2..2 + b[1]], ctx); Messages(b, ctx) == Deliver(m) + Messages(b[2 + b[1]..], next)
  {
    hide Interpret;
  }

  method Decode(packet: seq<byte>, source: Bytes16) returns (r: Option<seq<Message>>)
    ensures r == Wire.Decode(packet, source)
  {
    hide Interpret, Get, Framed, Messages;
    if |packet| < 4 || packet[0] != 42 || packet[1] != 2 { return None; }
    var size := Get16(packet[2..4]);
    if size > |packet| - 4 { return None; }
    var end := 4 + size;
    var framed := CheckFrames(packet, end);
    if !framed { return None; }
    var got := Visit(packet, end, source);
    r := Some(got);
  }

  /** The second pass, with the context as it stands at the cursor. */
  method Visit(packet: seq<byte>, end: nat, source: Bytes16) returns (got: seq<Message>)
    requires 4 <= end <= |packet| && Framed(packet[4..end])
    ensures got == Messages(packet[4..end], Fresh(source))
  {
    hide Interpret, Framed, Messages, Sound;
    got := [];
    var ctx := Fresh(source);
    ghost var all := Messages(packet[4..end], ctx);
    var pos := 4;
    assert [] + all == all;
    while pos < end
      invariant 4 <= pos <= end && Sound(ctx) && Framed(packet[pos..end])
      invariant got + Messages(packet[pos..end], ctx) == all
    {
      ghost var rest, before, was := packet[pos..end], got, ctx;
      var t := packet[pos];
      pos := pos + 1;
      if t == 0 {
        PaddingStep(rest, ctx);
        assert rest[1..] == packet[pos..end];
      } else {
        FrameStep(rest, ctx);
        var n := packet[pos];
        assert rest[1] == n;
        Pieces(packet, pos - 1, end, n);
        var m;
        ctx, m := Digest(t, packet[pos + 1..pos + 1 + n], ctx);
        got := got + Deliver(m);
        pos := pos + 1 + n;
        assert before + (Deliver(m) + Messages(packet[pos..end], ctx)) == got + Messages(packet[pos..end], ctx);
      }
    }
    assert packet[pos..end] == [];
    NoMessages(ctx);
  }

  lemma Pieces(packet: seq<byte>, pos: nat, end: nat, n: nat)
    requires pos + 2 + n <= end <= |packet|
    ensures var rest := packet[pos..end];
            rest[2..2 + n] == packet[pos + 2..pos + 2 + n] && rest[2 + n..] == packet[pos + 2 + n..end]
  {
    var rest := packet[pos..end];
    var a, b := rest[2..2 + n], rest[2 + n..];
    assert forall k :: 0 <= k < n ==> a[k] == packet[pos + 2 + k];
    assert forall k :: 0 <= k < |b| ==> b[k] == packet[pos + 2 + n + k];
    assert a == packet[pos + 2..pos + 2 + n];
    assert b == packet[pos + 2 + n..end];
  }

  lemma NoMessages(ctx: Context)
    requires Sound(ctx)
    ensures Framed([]) && Messages([], ctx) == []
  {
  }
}
