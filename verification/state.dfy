/** The routing engine's data: configuration, table entries, messages and the
    whole engine state (wendy_babel.h). A table is a sequence of slots; a slot
    that is not in use is None. The length of the sequence is the capacity. */
module EngineState {
  import opened Types
  import opened Prefixes

  /** Build-time ceilings WB_LINKS, WB_ROUTES, WB_CANDIDATES, ... */
  datatype Limits = Limits(links: nat, routes: nat, candidates: nat, sources: nat, requests: nat, messages: nat)

  /** `allow` is the authorisation policy. `grant` answers the k-th request for
      memory and `draw` the k-th call of the jitter generator: both are
      arbitrary, so statements about a state cover every allocator and seed. */
  datatype ConfigData = ConfigData(
    router: u64, hello: nat, update: nat, source: nat, via6: bool, localOnly: bool, limits: Limits,
    allow: (u64, Prefix, u16) -> bool, grant: nat -> bool, draw: nat -> nat)

  predicate RouterId(r: u64) {
    r != 0 && r != U64_MAX
  }

  /** A lifetime of three and a half announced intervals. */
  function Hold(n: nat): (r: nat)
    ensures n >= 10 ==> r > n
  {
    n * 7 / 2
  }

  predicate Interval(ms: nat, longest: nat) {
    100 <= ms <= longest && ms % 10 == 0
  }

  /** What initialisation accepts, defaults filled in. */
  predicate Accepted(c: ConfigData) {
    && RouterId(c.router)
    && Interval(c.hello, 327670)
    && Interval(c.update, 655340)
    && 180000 <= c.source <= 86400000
    && Hold(c.update) <= c.source
    && c.limits.links >= 1
  }

  type Config = c: ConfigData | Accepted(c)
    witness ConfigData(1, 4000, 16000, 180000, false, false, Limits(4, 128, 768, 512, 64, 1024),
                       (r, p, s) => true, k => true, k => 0)

  datatype Address = NoAddress | V4(v4: Bytes4) | V6(v6: Bytes16)

  /** Routing messages. A missing target is the wildcard. */
  datatype Message =
    | AckRequest(opaqueId: u16, interval: u16)
    | Ack(opaqueId: u16)
    | Hello(unicast: bool, seqno: u16, interval: u16)
    | Ihu(metric: u16, interval: u16, address: Address)
    | Update(target: Option<Prefix>, router: u64, seqno: u16, metric: u16, interval: u16, via6: bool, nextHop: Address)
    | RouteRequest(target: Option<Prefix>)
    | SeqRequest(target: Option<Prefix>, router: u64, seqno: u16, hops: byte)

  datatype Queued = Queued(link: u64, message: Message)

  datatype Route = Route(
    prefix: Prefix, router: u64, link: u64, seqno: u16, metric: u16, local: bool, unreachable: bool, nextHop: Address)

  datatype LinkData = LinkData(
    id: u64, local: Bytes16, peer: Bytes16, ipv4: Bytes4, cost: u16, maxPacket: u16, hello: nat)

  predicate LinkLocal(a: Bytes16) {
    a[0] == 0xfe && 0x80 <= a[1] < 0xc0
  }

  const PACKET_MAX := 1099

  predicate Attachable(l: LinkData) {
    && l.id != 0 && l.cost != 0
    && 512 <= l.maxPacket <= PACKET_MAX
    && (l.hello == 0 || Interval(l.hello, 327670))
    && LinkLocal(l.local) && LinkLocal(l.peer) && l.local != l.peer
  }

  type LinkConfig = l: LinkData | Attachable(l)
    witness LinkData(1, ZERO16[0 := 0xfe][1 := 0x80], ZERO16[0 := 0xfe][1 := 0x81], [0, 0, 0, 0], 1, 512, 0)

  /** One Hello sequence heard from the neighbour. */
  datatype Heard = Heard(seen: bool, seqno: u16, expires: nat)

  datatype Link = Link(
    config: LinkConfig, multicast: Heard, unicast: Heard, ihuExpires: nat, nextHello: nat, nextIhu: nat,
    nextUpdate: nat, lastDump: nat, dumped: bool, helloSeq: u16, tx: u16)

  datatype Candidate = Candidate(route: Route, advertised: u16, expires: nat, interval: nat, refreshed: bool)

  datatype Source = Source(prefix: Prefix, router: u64, seqno: u16, metric: u16, expires: nat)

  datatype Local = Local(prefix: Prefix, metric: u16)

  datatype Drop = Drop(prefix: Prefix, expires: nat)

  datatype Pending = Pending(
    prefix: Prefix, router: u64, seqno: u16, hops: byte, targets: seq<u64>, from: u64, next: nat, expires: nat,
    remaining: nat)

  /** Requests for memory made so far and the capacities of the arrays that
      are not slot tables. */
  datatype Memory = Memory(asks: nat, routes: nat, before: nat, scratch: nat, messages: nat)

  /** Triggered updates: scheduled or not, when, how many repeats, and the number
      of jitter draws made so far. */
  datatype Pace = Pace(on: bool, at: nat, repeats: nat, draws: nat)

  /** The commit and drain protocol around events. */
  datatype Control = Control(revision: nat, pending: nat, ready: bool, cursor: nat)

  datatype State = State(
    cfg: Config, now: nat, mem: Memory, pace: Pace, ctl: Control, lastLink: u64, seqno: u16, stopped: bool,
    links: seq<Option<Link>>, cands: seq<Option<Candidate>>, sources: seq<Option<Source>>,
    locals: seq<Option<Local>>, drops: seq<Option<Drop>>, requests: seq<Option<Pending>>,
    routes: seq<Route>, before: seq<Route>, msgs: seq<Queued>)

  /** First slot from i on that is in use and satisfies p; the length if none. */
  function Find<T>(t: seq<Option<T>>, p: T -> bool, i: nat): (r: nat)
    requires i <= |t|
    ensures i <= r <= |t|
    ensures r < |t| ==> t[r].Some? && p(t[r].value)
    ensures forall j :: i <= j < r && t[j].Some? ==> !p(t[j].value)
    decreases |t| - i
  {
    if i == |t| then i
    else if t[i].Some? && p(t[i].value) then i
    else Find(t, p, i + 1)
  }

  function FirstFree<T>(t: seq<Option<T>>, i: nat): (r: nat)
    requires i <= |t|
    ensures i <= r <= |t|
    ensures r < |t| ==> t[r].None?
    ensures forall j :: i <= j < r ==> t[j].Some?
    decreases |t| - i
  {
    if i == |t| || t[i].None? then i else FirstFree(t, i + 1)
  }

  function LinkAt(links: seq<Option<Link>>, id: u64): (r: nat)
    ensures r <= |links|
    ensures r < |links| ==> links[r].Some? && links[r].value.config.id == id
    ensures forall j :: 0 <= j < r && links[j].Some? ==> links[j].value.config.id != id
  {
    Find(links, (l: Link) => l.config.id == id, 0)
  }

  predicate HasLink(links: seq<Option<Link>>, id: u64) {
    LinkAt(links, id) < |links|
  }

  function SourceAt(sources: seq<Option<Source>>, p: Prefix, router: u64): (r: nat)
    ensures r <= |sources|
    ensures r < |sources| ==> sources[r].Some? && sources[r].value.prefix == p && sources[r].value.router == router
    ensures forall j :: 0 <= j < r && sources[j].Some? ==> !(sources[j].value.prefix == p && sources[j].value.router == router)
  {
    Find(sources, (x: Source) => x.prefix == p && x.router == router, 0)
  }

  function SourceFor(sources: seq<Option<Source>>, p: Prefix, router: u64): (r: Option<Source>)
    ensures r.Some? ==> r in sources && r.value.prefix == p && r.value.router == router
    ensures r.None? ==> forall x :: Some(x) in sources ==> !(x.prefix == p && x.router == router)
  {
    var i := SourceAt(sources, p, router);
    if i < |sources| then sources[i] else None
  }

  function LocalAt(locals: seq<Option<Local>>, p: Prefix): (r: nat)
    ensures r <= |locals|
    ensures r < |locals| ==> locals[r].Some? && locals[r].value.prefix == p
    ensures forall j :: 0 <= j < r && locals[j].Some? ==> locals[j].value.prefix != p
  {
    Find(locals, (x: Local) => x.prefix == p, 0)
  }

  predicate HasLocal(locals: seq<Option<Local>>, p: Prefix) {
    LocalAt(locals, p) < |locals|
  }

  function DropAt(drops: seq<Option<Drop>>, p: Prefix): (r: nat)
    ensures r <= |drops|
    ensures r < |drops| ==> drops[r].Some? && drops[r].value.prefix == p
    ensures forall j :: 0 <= j < r && drops[j].Some? ==> drops[j].value.prefix != p
  {
    Find(drops, (x: Drop) => x.prefix == p, 0)
  }

  function RequestAt(requests: seq<Option<Pending>>, p: Prefix, router: u64): (r: nat)
    ensures r <= |requests|
    ensures r < |requests| ==> requests[r].Some? && requests[r].value.prefix == p && requests[r].value.router == router
    ensures forall j :: 0 <= j < r && requests[j].Some? ==> !(requests[j].value.prefix == p && requests[j].value.router == router)
  {
    Find(requests, (x: Pending) => x.prefix == p && x.router == router, 0)
  }

  function CandAt(cands: seq<Option<Candidate>>, p: Prefix, link: u64): (r: nat)
    ensures r <= |cands|
    ensures r < |cands| ==> cands[r].Some? && cands[r].value.route.prefix == p && cands[r].value.route.link == link
    ensures forall j :: 0 <= j < r && cands[j].Some? ==> !(cands[j].value.route.prefix == p && cands[j].value.route.link == link)
  {
    Find(cands, (c: Candidate) => c.route.prefix == p && c.route.link == link, 0)
  }

  function RouteFrom(routes: seq<Route>, p: Prefix, i: nat): (r: nat)
    requires i <= |routes|
    ensures i <= r <= |routes|
    ensures r < |routes| ==> routes[r].prefix == p
    ensures forall j :: i <= j < r ==> routes[j].prefix != p
    decreases |routes| - i
  {
    if i == |routes| || routes[i].prefix == p then i else RouteFrom(routes, p, i + 1)
  }

  function RouteAt(routes: seq<Route>, p: Prefix): (r: nat)
    ensures r <= |routes|
    ensures r < |routes| ==> routes[r].prefix == p
    ensures forall j :: 0 <= j < r ==> routes[j].prefix != p
  {
    RouteFrom(routes, p, 0)
  }

  function RouteFor(routes: seq<Route>, p: Prefix): (r: Option<Route>)
    ensures r.Some? ==> r.value in routes && r.value.prefix == p
    ensures r.None? ==> forall x :: x in routes ==> x.prefix != p
  {
    var i := RouteAt(routes, p);
    if i < |routes| then Some(routes[i]) else None
  }
}
