/** Decoding inverts encoding, message by message and packet by packet. */
module WireRoundTrip {
  import opened Types
  import opened Prefixes
  import opened EngineState
  import opened Wire

  /** What the engine puts in its queue: no zero interval, no reserved router,
      and an IPv4 route names either its own next hop or none at all. */
  predicate Sendable(m: Message) {
    && Encodable(m)
    && match m
       case AckRequest(_, interval) => interval != 0
       case Ack(_) => true
       case Hello(_, _, _) => true
       case Ihu(_, interval, _) => interval != 0
       case Update(target, router, _, metric, interval, via6, hop) =>
         && target.Some? && interval != 0
         && (via6 ==> target.value.family == 4)
         && (metric == INFINITY || (RouterId(router) && if target.value.family == 4 && !via6 then hop.V4? else hop.NoAddress?))
       case RouteRequest(_) => true
       case SeqRequest(target, router, _, hops) => target.Some? && hops != 0 && RouterId(router)
  }

  /** The fields a receiver reads: a retraction names only its prefix. */
  function Reads(m: Message): (r: Message) {
    if m.Update? && m.metric == INFINITY then m.(router := 0, nextHop := NoAddress) else m
  }

  /** A message as it must arrive from the neighbour with address `source`. */
  function Received(m: Message, source: Bytes16): (r: Message) {
    if m.Update? && m.metric != INFINITY && m.nextHop.NoAddress? then m.(nextHop := V6(source)) else Reads(m)
  }

  /** Parser context after one message of our own. */
  function After(m: Message, ctx: Context): (r: Context)
    requires Sound(ctx)
    ensures Sound(r) && r.hop6 == ctx.hop6
  {
    if m.Update? && m.metric != INFINITY then
      ctx.(router := m.router, hop4 := if m.nextHop.V4? then m.nextHop else ctx.hop4)
    else ctx
  }

  /** The octets a prefix length does not reach are zero in a valid prefix. */
  lemma PrefixRebuilt(p: Prefix, raw: Bytes16)
    requires Valid(p)
    requires forall i :: 0 <= i < 16 ==> raw[i] == if i < Octets(p.bits) then p.bytes[i] else 0
    ensures MaskBytes(raw, p.bits) == p.bytes
  {
    forall i | 0 <= i < 16
      ensures Kept(raw[i], p.bits - 8 * i) == p.bytes[i]
    {
      assert Mask(p).bytes[i] == p.bytes[i];
    }
  }

  lemma PrefixTaken(p: Prefix, ae: byte, previous: Option<Prefix>)
    requires Valid(p) && (if p.family == 4 then ae == 1 || ae == 4 else ae == 2)
    ensures TakePrefix(ae, p.bits, 0, p.bytes[..Octets(p.bits)], previous) == Some((p, Octets(p.bits)))
  {
    hide Filled, Kept;
    var k := Octets(p.bits);
    var bytes := p.bytes[..k];
    assert bytes[..k] == bytes;
    PrefixRebuilt(p, Filled(ZERO16, 0, bytes));
  }

  lemma TlvStep(t: byte, body: seq<byte>, rest: seq<byte>, ctx: Context)
    requires t != 0 && |body| < 256 && Sound(ctx) && Framed(rest)
    ensures Framed(Tlv(t, body) + rest)
    ensures Messages(Tlv(t, body) + rest, ctx)
         == Deliver(Interpret(t, body, ctx).1) + Messages(rest, Interpret(t, body, ctx).0)
  {
    var b := Tlv(t, body) + rest;
    assert b[2 + b[1]..] == rest;
    assert b[2..2 + b[1]] == body;
  }

  /** The message a parser in context ctx delivers for m. */
  function Arrives(m: Message, ctx: Context): (r: Message) {
    if m.Update? && m.target.Some? then
      m.(router := if m.metric == INFINITY then ctx.router else m.router,
         nextHop := if PrefixCode(m.target, m.via6) != 1 then ctx.hop6
                    else if m.metric == INFINITY then ctx.hop4 else m.nextHop)
    else m
  }

  /** b is laid out as the body of update m. */
  predicate LaidOut(b: seq<byte>, m: Message)
    requires m.Update? && Encodable(m)
  {
    && |b| == 10 + |PrefixBytes(m.target)|
    && b[0] == PrefixCode(m.target, m.via6) && b[1] == 0 && b[2] == PrefixBits(m.target) && b[3] == 0
    && Get16(b[4..6]) == m.interval && Get16(b[6..8]) == m.seqno && Get16(b[8..10]) == m.metric
    && b[10..] == PrefixBytes(m.target)
  }

  lemma UpdateLaidOut(m: Message)
    requires m.Update? && Encodable(m)
    ensures LaidOut(UpdateBody(m), m)
  {
    var b := UpdateBody(m);
    assert b[4..6] == Put(m.interval, 2);
    assert b[6..8] == Put(m.seqno, 2);
    assert b[8..10] == Put(m.metric, 2);
    RoundTrip16(m.interval);
    RoundTrip16(m.seqno);
    RoundTrip16(m.metric);
  }

  lemma UpdateInContext(m: Message, ctx: Context)
    requires m.Update? && Sendable(m) && Sound(ctx) && ctx.hop6.V6?
    ensures PrefixedUpdate(PrefixCode(m.target, m.via6), 0, m.target.value, m.interval, m.seqno, m.metric, After(m, ctx))
         == (After(m, ctx), Some(Arrives(m, ctx)))
  {
  }

  lemma UpdateRead(b: seq<byte>, m: Message, ctx: Context)
    requires m.Update? && Sendable(m) && Sound(ctx) && ctx.hop6.V6? && LaidOut(b, m)
    ensures ReadUpdate(b, After(m, ctx)) == (After(m, ctx), Some((Arrives(m, ctx), |b|)))
  {
    hide TakePrefix, PrefixedUpdate, Get;
    PrefixTaken(m.target.value, b[0], ctx.previous[b[0]]);
    UpdateInContext(m, ctx);
  }

  lemma UpdateInterpreted(m: Message, ctx: Context)
    requires m.Update? && Sendable(m) && Sound(ctx) && ctx.hop6.V6?
    ensures Interpret(UPDATE, UpdateBody(m), After(m, ctx)) == (After(m, ctx), Some(Arrives(m, ctx)))
  {
    var b := UpdateBody(m);
    UpdateLaidOut(m);
    UpdateRead(b, m, ctx);
    assert b[|b|..] == [];
  }

  lemma RouterRead(router: u64, ctx: Context)
    requires Sound(ctx)
    ensures Interpret(ROUTER, [0, 0] + Put(router, 8), ctx) == (ctx.(router := router), None)
  {
    assert ([0, 0] + Put(router, 8))[2..10] == Put(router, 8);
    RoundTrip64(router);
  }

  lemma HopRead(hop: Address, ctx: Context)
    requires Sound(ctx) && hop.V4?
    ensures Interpret(NEXT_HOP, [AddressCode(hop), 0] + AddressBytes(hop), ctx) == (ctx.(hop4 := hop), None)
  {
    var body := [AddressCode(hop), 0] + AddressBytes(hop);
    assert body[2..] == hop.v4;
    assert hop.v4[..4] == hop.v4;
  }

  lemma HopStep(hop: Address, end: seq<byte>, ctx: Context)
    requires !hop.V6? && Sound(ctx) && Framed(end)
    ensures Framed(HopTlv(hop) + end)
    ensures Messages(HopTlv(hop) + end, ctx) == Messages(end, if hop.V4? then ctx.(hop4 := hop) else ctx)
  {
    if hop.V4? {
      HopRead(hop, ctx);
      TlvStep(NEXT_HOP, [AddressCode(hop), 0] + AddressBytes(hop), end, ctx);
    } else {
      assert HopTlv(hop) + end == end;
    }
  }

  /** Router-id and next hop travel immediately in front of their update. */
  lemma PreambleStep(m: Message, end: seq<byte>, ctx: Context)
    requires m.Update? && Sendable(m) && Sound(ctx) && Framed(end)
    ensures Framed(Preamble(m.router, m.metric, m.nextHop) + end)
    ensures Messages(Preamble(m.router, m.metric, m.nextHop) + end, ctx) == Messages(end, After(m, ctx))
  {
    if m.metric == INFINITY {
      assert [] + end == end;
    } else {
      HopStep(m.nextHop, end, ctx.(router := m.router));
      RouterRead(m.router, ctx);
      TlvStep(ROUTER, [0, 0] + Put(m.router, 8), HopTlv(m.nextHop) + end, ctx);
      Regroup(Tlv(ROUTER, [0, 0] + Put(m.router, 8)), HopTlv(m.nextHop), end);
    }
  }

  lemma UpdateStep(m: Message, rest: seq<byte>, ctx: Context)
    requires m.Update? && Sendable(m) && Sound(ctx) && ctx.hop6.V6? && Framed(rest)
    ensures Framed(Encoding(m) + rest)
    ensures Messages(Encoding(m) + rest, ctx) == [Arrives(m, ctx)] + Messages(rest, After(m, ctx))
  {
    var end := Tlv(UPDATE, UpdateBody(m)) + rest;
    UpdateInterpreted(m, ctx);
    TlvStep(UPDATE, UpdateBody(m), rest, After(m, ctx));
    PreambleStep(m, end, ctx);
    Regroup(Preamble(m.router, m.metric, m.nextHop), Tlv(UPDATE, UpdateBody(m)), rest);
  }

  lemma RouteRequestRead(m: Message, ctx: Context)
    requires Sendable(m) && m.RouteRequest? && Sound(ctx)
    ensures Interpret(REQUEST, Encoding(m)[2..], ctx) == (ctx, Some(m))
  {
    hide TakePrefix, Octets, Valid;
    var bytes := PrefixBytes(m.target);
    var body := [PrefixCode(m.target, false), PrefixBits(m.target)] + bytes;
    assert Encoding(m)[2..] == body;
    if m.target.Some? { PrefixTaken(m.target.value, PrefixCode(m.target, false), None); }
    assert body[2..] == bytes && body[2 + |bytes|..] == [];
  }

  lemma SeqRequestFields(b: seq<byte>, m: Message)
    requires Sendable(m) && m.SeqRequest? && |b| == 14 + |PrefixBytes(m.target)|
    requires b[0] == PrefixCode(m.target, false) && b[1] == PrefixBits(m.target) && b[2..4] == Put(m.seqno, 2) && b[4] == m.hops
    requires b[6..14] == Put(m.router, 8) && b[14..] == PrefixBytes(m.target)
    ensures ReadSeqRequest(b) == Some((m, |b|))
  {
    hide TakePrefix, Get, Put, Octets, Valid;
    RoundTrip16(m.seqno);
    RoundTrip64(m.router);
    assert Get16(b[2..4]) == m.seqno && Get64(b[6..14]) == m.router;
    PrefixTaken(m.target.value, PrefixCode(m.target, false), None);
  }

  lemma SeqRequestRead(m: Message, ctx: Context)
    requires Sendable(m) && m.SeqRequest? && Sound(ctx)
    ensures Interpret(SEQ_REQUEST, Encoding(m)[2..], ctx) == (ctx, Some(m))
  {
    hide TakePrefix, ReadSeqRequest, Get, Octets, Valid;
    var bytes := PrefixBytes(m.target);
    var b := [PrefixCode(m.target, false), PrefixBits(m.target)] + Put(m.seqno, 2) + [m.hops, 0] + Put(m.router, 8) + bytes;
    assert Encoding(m)[2..] == b;
    assert b[2..4] == Put(m.seqno, 2) && b[6..14] == Put(m.router, 8) && b[14..] == bytes;
    SeqRequestFields(b, m);
    assert b[|b|..] == [];
  }

  lemma IhuRead(m: Message, ctx: Context)
    requires Sendable(m) && m.Ihu? && Sound(ctx)
    ensures Interpret(IHU, Encoding(m)[2..], ctx) == (ctx, Some(m))
  {
    var body, a := Encoding(m)[2..], AddressBytes(m.address);
    RoundTrip16(m.metric); RoundTrip16(m.interval);
    assert body[2..4] == Put(m.metric, 2) && body[4..6] == Put(m.interval, 2) && body[6..] == a;
    assert a[..|a|] == a;
    assert body[6 + |a|..] == [];
  }

  lemma SimpleRead(m: Message, ctx: Context)
    requires Sendable(m) && (m.Hello? || m.AckRequest? || m.Ack?) && Sound(ctx)
    ensures Interpret(Encoding(m)[0], Encoding(m)[2..], ctx) == (ctx, Some(m))
  {
    var body := Encoding(m)[2..];
    match m
    case Ack(o) =>
      RoundTrip16(o);
      assert body == Put(o, 2) && body[..2] == body && body[2..] == [];
    case AckRequest(o, interval) =>
      RoundTrip16(o); RoundTrip16(interval);
      assert body[2..4] == Put(o, 2) && body[4..6] == Put(interval, 2) && body[6..] == [];
    case Hello(_, seqno, interval) =>
      RoundTrip16(seqno); RoundTrip16(interval);
      assert body[2..4] == Put(seqno, 2) && body[4..6] == Put(interval, 2) && body[6..] == [];
  }

  /** One message in front of any framed tail decodes to itself, and the tail is
      decoded in a context that still has our address as its IPv6 next hop. */
  lemma MessageStep(m: Message, rest: seq<byte>, ctx: Context)
    requires Sendable(m) && Sound(ctx) && ctx.hop6.V6? && Framed(rest)
    ensures Framed(Encoding(m) + rest)
    ensures Messages(Encoding(m) + rest, ctx) == [Arrives(m, ctx)] + Messages(rest, After(m, ctx))
  {
    if m.Update? {
      UpdateStep(m, rest, ctx);
    } else {
      var body := Encoding(m)[2..];
      if m.RouteRequest? { RouteRequestRead(m, ctx); } else if m.SeqRequest? { SeqRequestRead(m, ctx); }
      else if m.Ihu? { IhuRead(m, ctx); } else { SimpleRead(m, ctx); }
      assert Encoding(m) == Tlv(Encoding(m)[0], body);
      TlvStep(Encoding(m)[0], body, rest, ctx);
    }
  }

  /** The body of a packet carrying a batch of messages. */
  function Body(batch: seq<Message>): (r: seq<byte>) {
    if batch == [] then [] else Encoding(batch[0]) + Body(batch[1..])
  }

  function Packet(batch: seq<Message>): (r: seq<byte>) {
    var body := Body(batch);
    [42, 2] + Put(|body|, 2) + body
  }

  /** What a parser that starts in ctx delivers for a batch. */
  function Delivered(batch: seq<Message>, ctx: Context): (r: seq<Message>)
    requires Sound(ctx)
    ensures |r| == |batch|
    decreases |batch|
  {
    if batch == [] then [] else [Arrives(batch[0], ctx)] + Delivered(batch[1..], After(batch[0], ctx))
  }

  lemma {:induction false} BodyDecodes(batch: seq<Message>, ctx: Context)
    requires forall m :: m in batch ==> Sendable(m)
    requires Sound(ctx) && ctx.hop6.V6?
    ensures Framed(Body(batch)) && Messages(Body(batch), ctx) == Delivered(batch, ctx)
    decreases |batch|
  {
    if batch != [] {
      BodyDecodes(batch[1..], After(batch[0], ctx));
      MessageStep(batch[0], Body(batch[1..]), ctx);
    }
  }

  lemma {:induction false} DeliveredFields(batch: seq<Message>, ctx: Context, source: Bytes16, i: nat)
    requires forall m :: m in batch ==> Sendable(m)
    requires Sound(ctx) && ctx.hop6 == V6(source) && i < |batch|
    ensures Reads(Delivered(batch, ctx)[i]) == Received(batch[i], source)
    decreases i
  {
    if i > 0 {
      DeliveredFields(batch[1..], After(batch[0], ctx), source, i - 1);
    } else {
      assert Sendable(batch[0]);
    }
  }

  /** Decoding a packet yields exactly its messages, in order, in every field a
      receiver reads; nothing leaks from one message into the next. */
  lemma PacketDecodes(batch: seq<Message>, source: Bytes16)
    requires forall m :: m in batch ==> Sendable(m)
    requires |Body(batch)| < 0x1_0000
    ensures var all := Decode(Packet(batch), source);
            all.Some? && |all.value| == |batch|
            && forall i :: 0 <= i < |batch| ==> Reads(all.value[i]) == Received(batch[i], source)
  {
    hide Get, Sendable, Body, Messages, Framed;
    var packet, body := Packet(batch), Body(batch);
    assert packet[2..4] == Put(|body|, 2);
    RoundTrip16(|body|);
    assert packet[4..4 + |body|] == body;
    BodyDecodes(batch, Fresh(source));
    forall i | 0 <= i < |batch|
      ensures Reads(Delivered(batch, Fresh(source))[i]) == Received(batch[i], source)
    {
      DeliveredFields(batch, Fresh(source), source, i);
    }
  }
}
