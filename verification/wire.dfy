/** The TLV codec (wire.c): what one message encodes to, and the stateful
    packet parser with its packet-local router, next-hop and prefix context. */
module Wire {
  import opened Types
  import opened Prefixes
  import opened EngineState

  const ACK_REQUEST: byte := 2
  const ACK: byte := 3
  const HELLO: byte := 4
  const IHU: byte := 5
  const ROUTER: byte := 6
  const NEXT_HOP: byte := 7
  const UPDATE: byte := 8
  const REQUEST: byte := 9
  const SEQ_REQUEST: byte := 10

  // ----- Integers

  function Put(v: nat, n: nat): (r: seq<byte>)
    ensures |r| == n
  {
    if n == 0 then [] else Put(v / 256, n - 1) + [v % 256]
  }

  function Get(s: seq<byte>): (r: nat) {
    if s == [] then 0 else Get(s[..|s| - 1]) * 256 + s[|s| - 1]
  }

  function Power(n: nat): (r: nat) {
    if n == 0 then 1 else 256 * Power(n - 1)
  }

  lemma {:induction false} GetBound(s: seq<byte>)
    ensures Get(s) < Power(|s|)
  {
    if s != [] { GetBound(s[..|s| - 1]); }
  }

  lemma {:induction false} GetPut(v: nat, n: nat)
    requires v < Power(n)
    ensures Get(Put(v, n)) == v
  {
    if n > 0 {
      GetPut(v / 256, n - 1);
      assert Put(v, n)[..n - 1] == Put(v / 256, n - 1);
    }
  }

  lemma Powers()
    ensures Power(2) == 0x1_0000 && Power(4) == 0x1_0000_0000 && Power(8) == 0x1_0000_0000_0000_0000
  {
    assert Power(1) == 256;
    assert Power(3) == 256 * Power(2) && Power(5) == 256 * Power(4) && Power(7) == 256 * Power(6);
  }

  function Get16(s: seq<byte>): (r: u16)
    requires |s| == 2
  {
    GetBound(s); Powers();
    Get(s)
  }

  function Get64(s: seq<byte>): (r: u64)
    requires |s| == 8
  {
    GetBound(s); Powers();
    Get(s)
  }

  lemma RoundTrip16(v: u16)
    ensures Get16(Put(v, 2)) == v
  {
    Powers(); GetPut(v, 2);
  }

  lemma RoundTrip64(v: u64)
    ensures Get64(Put(v, 8)) == v
  {
    Powers(); GetPut(v, 8);
  }

  // ----- Encoding

  function Tlv(t: byte, body: seq<byte>): (r: seq<byte>)
    requires |body| < 256
  {
    [t, |body|] + body
  }

  function AddressCode(a: Address): (r: byte) {
    match a case NoAddress => 0 case V4(_) => 1 case V6(_) => 2
  }

  function AddressBytes(a: Address): (r: seq<byte>)
    ensures |r| <= 16
  {
    match a case NoAddress => [] case V4(b) => b case V6(b) => b
  }

  function Octets(bits: nat): (r: nat)
    ensures bits <= 128 ==> r <= 16
  {
    (bits + 7) / 8
  }

  function PrefixCode(target: Option<Prefix>, via6: bool): (r: byte) {
    if target.None? then 0 else if target.value.family == 4 then (if via6 then 4 else 1) else 2
  }

  function PrefixBits(target: Option<Prefix>): (r: byte) {
    if target.None? then 0 else target.value.bits
  }

  function PrefixBytes(target: Option<Prefix>): (r: seq<byte>)
    requires target.Some? ==> Valid(target.value)
    ensures |r| <= 16
  {
    if target.None? then [] else target.value.bytes[..Octets(target.value.bits)]
  }

  /** The message carries no prefix, or one with a sound length and mask. */
  predicate Encodable(m: Message) {
    (m.Update? || m.RouteRequest? || m.SeqRequest?) && m.target.Some? ==> Valid(m.target.value)
  }

  /** The bytes of one message: a finite update is preceded by its own router-id
      and, when it has one, its next hop, so it never relies on what came
      before. Refused messages have no bytes. */
  function Encoding(m: Message): (r: seq<byte>)
    ensures |r| <= 60
    ensures Encodable(m) <==> r != []
  {
    if !Encodable(m) then []
    else
      match m
      case AckRequest(o, interval) => Tlv(ACK_REQUEST, [0, 0] + Put(o, 2) + Put(interval, 2))
      case Ack(o) => Tlv(ACK, Put(o, 2))
      case Hello(unicast, seqno, interval) =>
        Tlv(HELLO, [if unicast then 128 else 0, 0] + Put(seqno, 2) + Put(interval, 2))
      case Ihu(metric, interval, a) =>
        Tlv(IHU, [AddressCode(a), 0] + Put(metric, 2) + Put(interval, 2) + AddressBytes(a))
      case Update(target, router, seqno, metric, interval, via6, hop) =>
        Preamble(router, metric, hop) + Tlv(UPDATE, UpdateBody(m))
      case RouteRequest(target) =>
        Tlv(REQUEST, [PrefixCode(target, false), PrefixBits(target)] + PrefixBytes(target))
      case SeqRequest(target, router, seqno, hops) =>
        Tlv(SEQ_REQUEST, [PrefixCode(target, false), PrefixBits(target)] + Put(seqno, 2) + [hops, 0]
                         + Put(router, 8) + PrefixBytes(target))
  }

  function UpdateBody(m: Message): (r: seq<byte>)
    requires m.Update? && Encodable(m)
    ensures |r| <= 26
  {
    [PrefixCode(m.target, m.via6), 0, PrefixBits(m.target), 0]
    + Put(m.interval, 2) + Put(m.seqno, 2) + Put(m.metric, 2) + PrefixBytes(m.target)
  }

  function Preamble(router: u64, metric: u16, hop: Address): (r: seq<byte>)
    ensures |r| <= 32
  {
    if metric == INFINITY then [] else Tlv(ROUTER, [0, 0] + Put(router, 8)) + HopTlv(hop)
  }

  function HopTlv(hop: Address): (r: seq<byte>)
    ensures |r| <= 20
  {
    if hop.NoAddress? then [] else Tlv(NEXT_HOP, [AddressCode(hop), 0] + AddressBytes(hop))
  }

  // ----- Decoding

  /** Sub-TLVs: padding is skipped, a mandatory or truncated one refuses. */
  predicate Subs(p: seq<byte>)
    decreases |p|
  {
    if p == [] then true
    else if p[0] == 0 then Subs(p[1..])
    else |p| >= 2 && p[1] <= |p| - 2 && p[0] < 128 && Subs(p[2 + p[1]..])
  }

  function TakeAddress(ae: byte, p: seq<byte>): (r: Option<(Address, nat)>)
    ensures r.Some? ==> r.value.1 <= |p| && (r.value.0.NoAddress? <==> ae == 0)
  {
    if ae == 0 then Some((NoAddress, 0))
    else if ae == 1 && |p| >= 4 then Some((V4(p[..4]), 4))
    else if ae == 2 && |p| >= 16 then Some((V6(p[..16]), 16))
    else if ae == 3 && |p| >= 8 then Some((V6([0xfe, 0x80, 0, 0, 0, 0, 0, 0] + p[..8]), 8))
    else None
  }

  /** base with the octets from `at` on overwritten by p. */
  function Filled(base: Bytes16, at: nat, p: seq<byte>): (r: Bytes16)
    requires at + |p| <= 16
    ensures forall i :: 0 <= i < 16 ==> r[i] == if at <= i < at + |p| then p[i - at] else base[i]
  {
    base[..at] + p + base[at + |p|..]
  }

  function TakePrefix(ae: byte, bits: byte, omitted: byte, p: seq<byte>, previous: Option<Prefix>): (r: Option<(Prefix, nat)>)
    ensures r.Some? ==> r.value.1 <= |p| && Valid(r.value.0)
  {
    var start := if ae == 3 then 8 else 0;
    if ae < 1 || ae > 4 || bits > (if ae == 1 || ae == 4 then 32 else 128) then None
    else if ae == 3 && (omitted != 0 || bits < 64) then None
    else if Octets(bits) < start + omitted || Octets(bits) - start - omitted > |p| || (omitted != 0 && previous.None?) then None
    else
      var family := if ae == 1 || ae == 4 then 4 else 6;
      var base := if omitted != 0 then previous.value.bytes else if ae == 3 then ZERO16[0 := 0xfe][1 := 0x80] else ZERO16;
      var used := Octets(bits) - start - omitted;
      var at := start + omitted;
      var raw := Prefix(Filled(base, at, p[..used]), bits, family);
      MaskIsValid(raw);
      Some((Mask(raw), used))
  }

  /** Parser context; everything in it is local to one packet. */
  datatype Context = Context(previous: seq<Option<Prefix>>, hop4: Address, hop6: Address, router: u64)

  predicate Sound(ctx: Context) {
    |ctx.previous| == 5
  }

  function Fresh(source: Bytes16): (r: Context)
    ensures Sound(r)
  {
    Context([None, None, None, None, None], NoAddress, V6(source), 0)
  }

  function RouterOf(p: Prefix): (r: u64) {
    if p.family == 4 then
      GetBound(p.bytes[..4]); Powers();
      Get(p.bytes[..4])
    else Get64(p.bytes[8..])
  }

  function ReadUpdate(p: seq<byte>, ctx: Context): (r: (Context, Option<(Message, nat)>))
    requires Sound(ctx)
    ensures Sound(r.0)
    ensures r.1.Some? ==> r.1.value.1 <= |p|
  {
    if |p| < 10 then (ctx, None)
    else
      var ae, interval, seqno, metric := p[0], Get16(p[4..6]), Get16(p[6..8]), Get16(p[8..10]);
      if ae == 0 then
        if p[2] != 0 || p[3] != 0 || metric != INFINITY || interval == 0 then (ctx, None)
        else (ctx, Some((Update(None, 0, seqno, metric, interval, false, NoAddress), 10)))
      else if ae > 4 then (ctx, None)
      else
        var taken := TakePrefix(ae, p[2], p[3], p[10..], ctx.previous[ae]);
        if taken.None? then (ctx, None)
        else
          var (ctx', m) := PrefixedUpdate(ae, p[1], taken.value.0, interval, seqno, metric, ctx);
          (ctx', if m.None? then None else Some((m.value, 10 + taken.value.1)))
  }

  /** An update for one prefix: the flags may set the default prefix and the
      router-id, then the current context supplies router and next hop. */
  function PrefixedUpdate(ae: byte, flags: byte, prefix: Prefix, interval: u16, seqno: u16, metric: u16, ctx: Context): (r: (Context, Option<Message>))
    requires Sound(ctx) && ae <= 4
    ensures Sound(r.0)
  {
    var ctx1 := if flags >= 128 && ae != 3 then ctx.(previous := ctx.previous[ae := Some(prefix)]) else ctx;
    var ctx2 := if flags % 128 >= 64 then ctx1.(router := RouterOf(prefix)) else ctx1;
    var hop := if ae == 1 then ctx2.hop4 else ctx2.hop6;
    if (metric != INFINITY && (!RouterId(ctx2.router) || hop.NoAddress?)) || interval == 0 then (ctx2, None)
    else (ctx2, Some(Update(Some(prefix), ctx2.router, seqno, metric, interval, ae == 4, hop)))
  }

  function ReadRequest(p: seq<byte>): (r: Option<(Message, nat)>)
    ensures r.Some? ==> r.value.1 <= |p|
  {
    if |p| < 2 then None
    else if p[0] == 0 then (if p[1] != 0 then None else Some((RouteRequest(None), 2)))
    else
      var taken := TakePrefix(p[0], p[1], 0, p[2..], None);
      if taken.None? then None else Some((RouteRequest(Some(taken.value.0)), 2 + taken.value.1))
  }

  function ReadSeqRequest(p: seq<byte>): (r: Option<(Message, nat)>)
    ensures r.Some? ==> r.value.1 <= |p|
  {
    if |p| < 14 || p[0] == 0 then None
    else
      var seqno, router := Get16(p[2..4]), Get64(p[6..14]);
      var taken := TakePrefix(p[0], p[1], 0, p[14..], None);
      if taken.None? || p[4] == 0 || !RouterId(router) then None
      else Some((SeqRequest(Some(taken.value.0), router, seqno, p[4]), 14 + taken.value.1))
  }

  function ReadSimple(t: byte, p: seq<byte>): (r: Option<(Message, nat)>)
    ensures r.Some? ==> r.value.1 <= |p|
  {
    if t == HELLO then
      if |p| < 6 then None else Some((Hello(p[0] >= 128, Get16(p[2..4]), Get16(p[4..6])), 6))
    else if t == ACK_REQUEST then
      if |p| < 6 || Get16(p[4..6]) == 0 then None else Some((AckRequest(Get16(p[2..4]), Get16(p[4..6])), 6))
    else if t == ACK then
      if |p| < 2 then None else Some((Ack(Get16(p[..2])), 2))
    else if t == IHU then
      if |p| < 6 then None
      else
        var a := TakeAddress(p[0], p[6..]);
        if a.None? || Get16(p[4..6]) == 0 then None
        else Some((Ihu(Get16(p[2..4]), Get16(p[4..6]), a.value.0), 6 + a.value.1))
    else None
  }

  /** One TLV: the context it leaves and the message it delivers, if any. A
      refused sub-TLV suppresses the message but not the context it set. */
  function Interpret(t: byte, p: seq<byte>, ctx: Context): (r: (Context, Option<Message>))
    requires Sound(ctx)
    ensures Sound(r.0)
  {
    if t == ROUTER then
      (if |p| < 10 then ctx else ctx.(router := Get64(p[2..10])), None)
    else if t == NEXT_HOP then
      if |p| < 2 || p[0] == 0 then (ctx, None)
      else
        var a := TakeAddress(p[0], p[2..]);
        if a.None? then (ctx, None)
        else if a.value.0.V4? then (ctx.(hop4 := a.value.0), None)
        else (ctx.(hop6 := a.value.0), None)
    else
      var (ctx', read) := if t == UPDATE then ReadUpdate(p, ctx)
                          else (ctx, if t == REQUEST then ReadRequest(p) else if t == SEQ_REQUEST then ReadSeqRequest(p) else ReadSimple(t, p));
      (ctx', if read.Some? && Subs(p[read.value.1..]) then Some(read.value.0) else None)
  }

  /** Every outer TLV lies inside the packet body. */
  predicate Framed(b: seq<byte>)
    decreases |b|
  {
    if b == [] then true
    else if b[0] == 0 then Framed(b[1..])
    else |b| >= 2 && b[1] <= |b| - 2 && Framed(b[2 + b[1]..])
  }

  function Deliver(m: Option<Message>): (r: seq<Message>) {
    if m.Some? then [m.value] else []
  }

  function Messages(b: seq<byte>, ctx: Context): (r: seq<Message>)
    requires Framed(b) && Sound(ctx)
    decreases |b|
  {
    if b == [] then []
    else if b[0] == 0 then Messages(b[1..], ctx)
    else
      var (ctx', m) := Interpret(b[0], b[2..2 + b[1]], ctx);
      Deliver(m) + Messages(b[2 + b[1]..], ctx')
  }

  /** A whole packet; None when the header or the outer framing is malformed. */
  function Decode(packet: seq<byte>, source: Bytes16): (r: Option<seq<Message>>) {
    if |packet| < 4 || packet[0] != 42 || packet[1] != 2 || Get16(packet[2..4]) > |packet| - 4 then None
    else
      var body := packet[4..4 + Get16(packet[2..4])];
      if Framed(body) then Some(Messages(body, Fresh(source))) else None
  }
}
