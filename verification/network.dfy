/** A network of engines joined by lossy, reordering, duplicating links, with
    crashes. A packet on the air may be delivered any number of times or never. */
module Network {
  import opened Types
  import opened Prefixes
  import opened Seqno
  import opened EngineState
  import opened Engine
  import opened EngineEvents
  import opened Wire
  import opened Invariant
  import opened Records
  import opened Packets
  import opened Runs
  import opened RunLimits
  import opened Suppression
  import opened LoopNode
  import opened LoopEvent

  /** An engine and the offset of its clock from true time. */
  datatype Node = Node(engine: State, skew: int)

  datatype Flight = Flight(from: nat, link: u64, bytes: seq<byte>, sent: int)

  datatype Net = Net(time: int, nodes: seq<Node>, air: set<Flight>)

  /** Which link of which node is at the other end. Link ids are never reused,
      so the pairing is fixed for good. */
  type Wiring = (nat, u64) -> (nat, u64)

  ghost predicate Paired(wire: Wiring) {
    forall n: nat, l: u64 :: wire(wire(n, l).0, wire(n, l).1) == (n, l)
  }

  datatype Step =
    | Pass(time: int)
    | Act(node: nat, event: Event)
    | Emit(node: nat, cap: nat)
    | Deliver(flight: Flight)
    | Lose(flight: Flight)
    | Restart(node: nat, engine: State)

  /** What a restart from a checkpoint preserves: the feasibility records, with
      a full lifetime; everything else starts empty. */
  ghost predicate Recovers(s: State, t: State) {
    && Core(t) && !t.stopped && t.now == 0 && t.cfg.router == s.cfg.router && t.cfg.source >= s.cfg.source
    && t.cands == [] && t.msgs == [] && t.routes == [] && t.locals == []
    && forall p, router :: SameRecord(SourceFor(s.sources, p, router), SourceFor(t.sources, p, router), t.cfg.source)
  }

  predicate SameRecord(x: Option<Source>, y: Option<Source>, expires: nat) {
    x.Some? == y.Some? && (x.Some? ==> DistanceOf(x.value) == DistanceOf(y.value) && y.value.expires == expires)
  }

  /** Events a node's host may cause on its own; an engine is always told the
      true time by its own clock. */
  predicate Timely(node: Node, time: int, e: Event) {
    Timed(e) ==> e.now + node.skew == time
  }

  ghost predicate Enabled(net: Net, wire: Wiring, step: Step) {
    match step
    case Pass(time) => net.time <= time
    case Act(n, e) => n < |net.nodes| && !e.Arrive? && !e.Send? && Timely(net.nodes[n], net.time, e)
    case Emit(n, cap) => n < |net.nodes|
    case Deliver(f) => f in net.air && wire(f.from, f.link).0 < |net.nodes| && net.time - net.nodes[wire(f.from, f.link).0].skew >= 0
    case Lose(f) => true
    case Restart(n, t) => Alive(net, n) && Recovers(net.nodes[n].engine, t) && net.nodes[n].engine.now + net.nodes[n].skew <= net.time
  }

  /** The event a delivery amounts to. */
  function Landing(net: Net, wire: Wiring, f: Flight): (e: Event)
    requires wire(f.from, f.link).0 < |net.nodes| && net.time - net.nodes[wire(f.from, f.link).0].skew >= 0
  {
    Arrive(net.time - net.nodes[wire(f.from, f.link).0].skew, wire(f.from, f.link).1, f.bytes)
  }

  function Moved(net: Net, n: nat, e: Event): (r: Net)
    requires n < |net.nodes|
  {
    net.(nodes := net.nodes[n := net.nodes[n].(engine := Apply(net.nodes[n].engine, e).state)])
  }

  ghost function Next(net: Net, wire: Wiring, step: Step): (r: Net)
    requires Enabled(net, wire, step)
    ensures |r.nodes| == |net.nodes|
  {
    match step
    case Pass(time) => net.(time := time)
    case Act(n, e) => Moved(net, n, e)
    case Emit(n, cap) =>
      var packet := Apply(net.nodes[n].engine, Send(cap)).packet;
      var r := Moved(net, n, Send(cap));
      if packet.None? then r
      else r.(air := r.air + {Flight(n, packet.value.link, packet.value.bytes, net.nodes[n].engine.now + net.nodes[n].skew)})
    case Deliver(f) => Moved(net, wire(f.from, f.link).0, Landing(net, wire, f))
    case Lose(f) => net.(air := net.air - {f})
    case Restart(n, t) => net.(nodes := net.nodes[n := Node(t, net.time)])
  }

  // ----- Distances in circulation

  function MessageDistance(m: Message): (d: Distance)
    requires m.Update?
  {
    Distance(m.seqno, m.metric)
  }

  function CandidateDistance(c: Candidate): (d: Distance) {
    Distance(c.route.seqno, c.advertised)
  }

  predicate Alive(net: Net, n: nat) {
    n < |net.nodes| && !net.nodes[n].engine.stopped
  }

  /** m announces distance d of the source. */
  predicate Announces(m: Message, k: Key, d: Distance) {
    Carries(m, k) && MessageDistance(m) == d
  }

  ghost predicate InQueue(s: State, k: Key, d: Distance) {
    exists q :: q in s.msgs && Announces(q.message, k, d)
  }

  ghost predicate Aboard(bytes: seq<byte>, source: Bytes16, m: Message) {
    Decode(bytes, source).Some? && m in Decode(bytes, source).value
  }

  /** The flight carries distance d of the source. */
  ghost predicate OnFlight(f: Flight, k: Key, d: Distance) {
    exists source, m :: Aboard(f.bytes, source, m) && Announces(m, k, d)
  }

  ghost predicate InAir(net: Net, n: nat, k: Key, d: Distance) {
    exists f :: f in net.air && f.from == n && OnFlight(f, k, d)
  }

  /** c is a finite candidate of m that was announced by node n. */
  ghost predicate HeardFrom(net: Net, wire: Wiring, n: nat, k: Key, m: nat, c: Candidate) {
    && Alive(net, m) && Some(c) in net.nodes[m].engine.cands && Concerns(c, k) && c.advertised != INFINITY
    && wire(m, c.route.link).0 == n
  }

  ghost predicate InTable(net: Net, wire: Wiring, n: nat, k: Key, d: Distance) {
    exists m, c :: HeardFrom(net, wire, n, k, m, c) && CandidateDistance(c) == d
  }

  /** A distance that node n has announced and that may still be used. */
  ghost predicate Announced(net: Net, wire: Wiring, n: nat, k: Key, d: Distance) {
    InAir(net, n, k, d) || InTable(net, wire, n, k, d)
  }

  predicate NotWorse(a: Distance, b: Distance) {
    a == b || Better(a, b)
  }

  /** The engine's record is at least as good as d. */
  predicate Dominates(s: State, k: Key, d: Distance) {
    RecordOf(s, k).Some? && NotWorse(DistanceOf(RecordOf(s, k).value), d)
  }

  // ----- The invariant

  ghost predicate Sender(net: Net, n: nat, k: Key) {
    Alive(net, n) && net.nodes[n].engine.cfg.router != k.router
  }

  ghost predicate QueueCovered(net: Net, n: nat, k: Key)
    requires n < |net.nodes|
  {
    forall d :: InQueue(net.nodes[n].engine, k, d) ==> Dominates(net.nodes[n].engine, k, d)
  }

  ghost predicate WorldCovered(net: Net, wire: Wiring, n: nat, k: Key)
    requires n < |net.nodes|
  {
    forall d :: Announced(net, wire, n, k, d) ==> Dominates(net.nodes[n].engine, k, d)
  }

  /** Every distance a live non-origin node has announced is covered by its own
      feasibility record, and every selected route is strictly feasible. */
  ghost predicate NetInv(net: Net, wire: Wiring, k: Key) {
    && (forall n :: 0 <= n < |net.nodes| ==> Core(net.nodes[n].engine))
    && (forall n: nat :: Alive(net, n) ==> AllJustified(net.nodes[n].engine, k))
    && (forall n: nat :: Sender(net, n, k) ==> QueueCovered(net, n, k) && WorldCovered(net, wire, n, k))
  }

  // ----- What a run must satisfy

  ghost predicate QueueWithin(s: State, k: Key) {
    forall q :: q in s.msgs && Carries(q.message, k) ==> InWindow(k.base, q.message.seqno)
  }

  /** All sequence numbers of the source in the network lie in one half circle. */
  ghost predicate Windowed(net: Net, k: Key) {
    && (forall n :: 0 <= n < |net.nodes| && net.nodes[n].engine.cfg.router != k.router ==>
          Watched(net.nodes[n].engine, k) && QueueWithin(net.nodes[n].engine, k))
    && (forall f :: f in net.air ==> PacketWithin(f.bytes, k))
  }

  /** Node n's record is not about to expire while something it announced may
      still be used. */
  ghost predicate Protected(net: Net, wire: Wiring, n: nat, now: nat, k: Key)
    requires n < |net.nodes|
  {
    forall d :: Sender(net, n, k) && Announced(net, wire, n, k, d) && RecordOf(net.nodes[n].engine, k).Some? ==>
      RecordOf(net.nodes[n].engine, k).value.expires > now
  }

  ghost predicate StepProtected(net: Net, wire: Wiring, step: Step, k: Key)
    requires Enabled(net, wire, step)
  {
    match step
    case Act(n, e) => Timed(e) ==> Protected(net, wire, n, e.now, k)
    case Deliver(f) => Protected(net, wire, wire(f.from, f.link).0, Landing(net, wire, f).now, k)
    case _ => true
  }

  // ----- One node moves

  /** Replacing node n's engine by t respects everything announced so far. */
  ghost predicate Moves(net: Net, wire: Wiring, n: nat, t: State, k: Key)
    requires n < |net.nodes|
  {
    var s := net.nodes[n].engine;
    && Core(t) && t.cfg.router == s.cfg.router && (s.stopped ==> t.stopped)
    && (!t.stopped ==> AllJustified(t, k) && Rooted(net, wire, n, t, k))
    && (!t.stopped && t.cfg.router != k.router ==>
          && (forall d :: InQueue(t, k, d) ==> Dominates(t, k, d))
          && (forall d :: Announced(net, wire, n, k, d) && Dominates(s, k, d) ==> Dominates(t, k, d)))
  }

  /** Every finite candidate of t was announced by the neighbour at its link. */
  ghost predicate Rooted(net: Net, wire: Wiring, n: nat, t: State, k: Key) {
    forall c :: Some(c) in t.cands && Concerns(c, k) && c.advertised != INFINITY ==>
      Announced(net, wire, wire(n, c.route.link).0, k, CandidateDistance(c))
  }

  function Replaced(net: Net, n: nat, t: State, skew: int): (r: Net)
    requires n < |net.nodes|
  {
    net.(nodes := net.nodes[n := Node(t, skew)])
  }

  lemma AnnouncedBefore(net: Net, wire: Wiring, n: nat, t: State, skew: int, k: Key, m: nat, d: Distance)
    requires n < |net.nodes| && (!t.stopped ==> Rooted(net, wire, n, t, k)) && Announced(Replaced(net, n, t, skew), wire, m, k, d)
    ensures Announced(net, wire, m, k, d)
  {
    hide Concerns, OnFlight;
    var r := Replaced(net, n, t, skew);
    if !InAir(net, m, k, d) {
      var i, c :| HeardFrom(r, wire, m, k, i, c) && CandidateDistance(c) == d;
      if i != n { assert HeardFrom(net, wire, m, k, i, c); }
    }
  }

  lemma MoveKeeps(net: Net, wire: Wiring, n: nat, t: State, skew: int, k: Key)
    requires NetInv(net, wire, k) && n < |net.nodes| && Moves(net, wire, n, t, k)
    ensures NetInv(Replaced(net, n, t, skew), wire, k)
  {
    hide Core, AllJustified, Rooted, InQueue, Dominates, Announced;
    var r := Replaced(net, n, t, skew);
    forall m: nat | Sender(r, m, k) ensures QueueCovered(r, m, k) && WorldCovered(r, wire, m, k) {
      assert Sender(net, m, k);
      forall d | Announced(r, wire, m, k, d) ensures Dominates(r.nodes[m].engine, k, d) {
        AnnouncedBefore(net, wire, n, t, skew, k, m, d);
      }
    }
  }

  // ----- The record of one node

  /** A record that survives an event still covers what it covered. */
  lemma CoverStays(s: State, t: State, k: Key, now: nat, d: Distance)
    requires Watched(s, k) && Safe(t, k, Surviving(s, k, now)) && Dominates(s, k, d) && RecordOf(s, k).value.expires > now && InWindow(k.base, d.seqno)
    ensures Dominates(t, k, d)
  {
    hide CandsWithin, RoutesWithin, MsgsVouched, Better, Rank, InWindow, Foreign;
    var x, y := RecordOf(s, k).value, RecordOf(t, k).value;
    BetterIsRank(k.base, DistanceOf(x), d);
    BetterIsRank(k.base, DistanceOf(y), d);
  }

  lemma VouchedCovers(t: State, k: Key, x0: Option<Source>, d: Distance)
    requires Safe(t, k, x0) && InQueue(t, k, d)
    ensures Dominates(t, k, d)
  {
    hide CandsWithin, RoutesWithin, Better, Rank, InWindow, Foreign, Improves;
    var q :| q in t.msgs && Announces(q.message, k, d);
    assert Vouched(t.cfg, t.now, RecordOf(t, k), k, q.message);
    BetterIsRank(k.base, DistanceOf(RecordOf(t, k).value), d);
  }

  /** Everything announced is inside the window. */
  lemma AnnouncedWithin(net: Net, wire: Wiring, n: nat, k: Key, d: Distance)
    requires Windowed(net, k) && Announced(net, wire, n, k, d) && (forall m :: 0 <= m < |net.nodes| ==> Core(net.nodes[m].engine))
    ensures InWindow(k.base, d.seqno)
  {
    hide InWindow, Decode, Core;
    if InAir(net, n, k, d) {
      var f :| f in net.air && f.from == n && OnFlight(f, k, d);
      var source, m :| Aboard(f.bytes, source, m) && Announces(m, k, d);
      assert DecodesWithin(f.bytes, source, k);
    } else {
      var m: nat, c :| HeardFrom(net, wire, n, k, m, c) && CandidateDistance(c) == d;
      CandForeign(net.nodes[m].engine, c);
    }
  }

  lemma CandForeign(s: State, c: Candidate)
    requires Core(s) && Some(c) in s.cands
    ensures c.route.router != s.cfg.router
  {
  }

  // ----- Every kind of step is such a move

  /** Candidates that node n already holds are announced by definition. */
  lemma OldRooted(net: Net, wire: Wiring, n: nat, c: Candidate, k: Key)
    requires Alive(net, n) && Some(c) in net.nodes[n].engine.cands && Concerns(c, k) && c.advertised != INFINITY
    ensures Announced(net, wire, wire(n, c.route.link).0, k, CandidateDistance(c))
  {
    assert HeardFrom(net, wire, wire(n, c.route.link).0, k, n, c);
  }

  /** The engine kept its tables; at most output without news was added. */
  lemma StillMoves(net: Net, wire: Wiring, n: nat, t: State, k: Key)
    requires NetInv(net, wire, k) && n < |net.nodes| && Core(t)
    requires var s := net.nodes[n].engine;
             && t.cands == s.cands && t.routes == s.routes && t.sources == s.sources && t.cfg == s.cfg && (s.stopped ==> t.stopped)
             && NoNews(s.msgs, t.msgs, k)
    ensures Moves(net, wire, n, t, k)
  {
    hide Core, Feasible, Carries, Announced;
    var s := net.nodes[n].engine;
    if !t.stopped {
      assert Alive(net, n);
      forall c | Some(c) in t.cands && Concerns(c, k) && c.advertised != INFINITY
        ensures Announced(net, wire, wire(n, c.route.link).0, k, CandidateDistance(c))
      { OldRooted(net, wire, n, c, k); }
      forall r | r in t.routes && !r.unreachable && !r.local && r.prefix == k.p && r.router == k.router ensures Justified(t, k, r) {
        assert Justified(s, k, r);
      }
      if t.cfg.router != k.router {
        assert Sender(net, n, k);
        forall d | InQueue(t, k, d) ensures Dominates(t, k, d) {
          var q :| q in t.msgs && Announces(q.message, k, d);
          assert q in s.msgs;
          assert InQueue(s, k, d);
        }
      }
    }
  }

  lemma UntimedNoNews(s: State, e: Event, k: Key)
    requires !Timed(e)
    ensures NoNews(s.msgs, Apply(s, e).state.msgs, k)
  {
    hide Fill, RequestPrefix, Carries;
    match e
    case Enquire(p) => EnquireNoNews(s, p, k);
    case _ =>
  }

  lemma EnquireNoNews(s: State, p: Prefix, k: Key)
    ensures NoNews(s.msgs, RequestPrefix(s, p).1.msgs, k)
  {
    hide QueueAll, AttachedLinks, Routable, Reserve, Carries;
    if Routable(p) && !s.stopped && s.ctl.pending == 0 && s.ctl.ready && !(0 < s.ctl.cursor < |s.msgs|) {
      var t := if s.ctl.cursor == |s.msgs| then s.(msgs := [], mem := s.mem.(messages := 0), ctl := s.ctl.(cursor := 0)) else s;
      var ids := AttachedLinks(t.links);
      var (ok, cap, asks) := Reserve(t.cfg, t.mem.asks, t.mem.messages, |t.msgs| + |ids|, t.cfg.limits.messages);
      RequestCarriesNothing(p, k);
      QueueAllNoNews(t.(mem := t.mem.(messages := cap, asks := asks)), ids, RouteRequest(Some(p)), k);
    }
  }

  lemma RequestCarriesNothing(p: Prefix, k: Key)
    ensures !Carries(RouteRequest(Some(p)), k)
  {
  }

  lemma UntimedMoves(net: Net, wire: Wiring, n: nat, e: Event, k: Key)
    requires NetInv(net, wire, k) && n < |net.nodes| && !Timed(e)
    ensures Moves(net, wire, n, Apply(net.nodes[n].engine, e).state, k)
  {
    hide Core, Apply, Moves, NoNews, AllJustified, QueueCovered, WorldCovered;
    var s := net.nodes[n].engine;
    UntimedFrame(s, e);
    UntimedNoNews(s, e, k);
    ApplyKeeps(s, e);
    if s.stopped { StoppedApply(s, e); }
    StillMoves(net, wire, n, Apply(s, e).state, k);
  }

  /** A flight lands with exactly what its sender announced. */
  lemma NewRooted(net: Net, wire: Wiring, f: Flight, e: Event, s: State, c: Candidate, k: Key)
    requires Paired(wire) && f in net.air && e.Arrive? && e.data == f.bytes && c.route.link == e.id
    requires New(k, e.id, Delivery(s, e), e.now, c)
    ensures wire(wire(f.from, f.link).0, wire(f.from, f.link).1) == (f.from, f.link)
    ensures InAir(net, f.from, k, CandidateDistance(c))
  {
    hide Decode;
    var m :| m in Delivery(s, e) && Carries(m, k) && LearnedFrom(m, e.now, c);
    var peer := s.links[LinkAt(s.links, e.id)].value.config.peer;
    assert Aboard(f.bytes, peer, m) && Announces(m, k, CandidateDistance(c));
    assert OnFlight(f, k, CandidateDistance(c));
  }

  /** What may drive node n: its host, or a flight that is on its way to it. */
  ghost predicate Driven(net: Net, wire: Wiring, n: nat, e: Event, f: Flight) {
    e.Arrive? ==> f in net.air && wire(f.from, f.link) == (n, e.id) && e.data == f.bytes
  }

  lemma EventRooted(net: Net, wire: Wiring, n: nat, e: Event, f: Flight, k: Key)
    requires Paired(wire) && Alive(net, n) && Core(net.nodes[n].engine) && Timed(e) && Driven(net, wire, n, e, f)
    requires Prepare(net.nodes[n].engine, e).0.Ok? && !Apply(net.nodes[n].engine, e).state.stopped
    ensures Rooted(net, wire, n, Apply(net.nodes[n].engine, e).state, k)
  {
    hide Core, Apply, Prepare, Delivery, New, Announced, Concerns, Decode;
    var s := net.nodes[n].engine;
    var t := Apply(s, e).state;
    EventSourced(s, e, k);
    forall c | Some(c) in t.cands && Concerns(c, k) && c.advertised != INFINITY
      ensures Announced(net, wire, wire(n, c.route.link).0, k, CandidateDistance(c))
    {
      if Old(s.cands, c) {
        var b :| Some(b) in s.cands && Inherited(b, c);
        InheritedConcerns(b, c, k);
        OldRooted(net, wire, n, b, k);
      } else {
        LandedRooted(net, wire, n, f, e, s, c, k);
      }
    }
  }

  lemma InheritedConcerns(b: Candidate, c: Candidate, k: Key)
    requires Inherited(b, c)
    ensures Concerns(b, k) == Concerns(c, k)
  {
  }

  lemma LandedRooted(net: Net, wire: Wiring, n: nat, f: Flight, e: Event, s: State, c: Candidate, k: Key)
    requires Timed(e) && Paired(wire) && Driven(net, wire, n, e, f) && New(k, Arrival(e), Delivery(s, e), e.now, c)
    ensures Announced(net, wire, wire(n, c.route.link).0, k, CandidateDistance(c))
  {
    hide Decode;
    assert e.Arrive?;
    NewRooted(net, wire, f, e, s, c, k);
  }

  lemma EventMoves(net: Net, wire: Wiring, n: nat, e: Event, f: Flight, k: Key)
    requires NetInv(net, wire, k) && Windowed(net, k) && Paired(wire) && n < |net.nodes| && Timed(e) && Driven(net, wire, n, e, f)
    requires Protected(net, wire, n, e.now, k)
    ensures Moves(net, wire, n, Apply(net.nodes[n].engine, e).state, k)
  {
    hide Core, Apply, Prepare, NoNews, AllJustified, QueueCovered, WorldCovered, Moves, Watched, QueueWithin, PacketWithin, Padded, Protected;
    var s := net.nodes[n].engine;
    var t := Apply(s, e).state;
    ApplyKeeps(s, e);
    if s.stopped {
      StoppedApply(s, e);
      StoppedMoves(net, wire, n, t, k);
    } else if !Prepare(s, e).0.Ok? {
      RefusedPads(s, e);
      assert t == Prepare(s, e).1 by { RefusedApply(s, e); }
      PaddedStays(s, t, k);
      StillMoves(net, wire, n, t, k);
    } else {
      ApplyConfigured(s, e);
      if t.stopped { StoppedMoves(net, wire, n, t, k); } else { LiveMoves(net, wire, n, e, f, k); }
    }
  }

  lemma RefusedApply(s: State, e: Event)
    requires Timed(e) && !Prepare(s, e).0.Ok?
    ensures Apply(s, e).state == Prepare(s, e).1
  {
    hide Prepare, Finish;
  }

  lemma PaddedStays(s: State, t: State, k: Key)
    requires Padded(s, t)
    ensures t.cands == s.cands && t.routes == s.routes && t.sources == s.sources && t.cfg == s.cfg && t.stopped == s.stopped && NoNews(s.msgs, t.msgs, k)
  {
  }

  lemma StoppedMoves(net: Net, wire: Wiring, n: nat, t: State, k: Key)
    requires n < |net.nodes| && Core(t) && t.cfg == net.nodes[n].engine.cfg && t.stopped
    ensures Moves(net, wire, n, t, k)
  {
  }

  lemma LiveMoves(net: Net, wire: Wiring, n: nat, e: Event, f: Flight, k: Key)
    requires NetInv(net, wire, k) && Windowed(net, k) && Paired(wire) && Alive(net, n) && Timed(e) && Driven(net, wire, n, e, f)
    requires Protected(net, wire, n, e.now, k)
    requires Prepare(net.nodes[n].engine, e).0.Ok? && !Apply(net.nodes[n].engine, e).state.stopped
    ensures Moves(net, wire, n, Apply(net.nodes[n].engine, e).state, k)
  {
    hide Core, Apply, Prepare, AllJustified, QueueCovered, WorldCovered, Rooted, Watched, QueueWithin, PacketWithin, Safe, Announced, InQueue, Dominates;
    var s := net.nodes[n].engine;
    var t := Apply(s, e).state;
    ApplyKeeps(s, e);
    ApplyConfigured(s, e);
    EventJustified(s, e, k);
    EventRooted(net, wire, n, e, f, k);
    if t.cfg.router != k.router {
      assert Abroad(s, e, k);
      EventSafe(s, e, k);
      forall d | InQueue(t, k, d) ensures Dominates(t, k, d) { VouchedCovers(t, k, Surviving(s, k, e.now), d); }
      forall d | Announced(net, wire, n, k, d) && Dominates(s, k, d) ensures Dominates(t, k, d) {
        AnnouncedWithin(net, wire, n, k, d);
        assert RecordOf(s, k).Some? by { CoversHas(s, k, d); }
        CoverStays(s, t, k, e.now, d);
      }
    }
  }

  lemma CoversHas(s: State, k: Key, d: Distance)
    requires Dominates(s, k, d)
    ensures RecordOf(s, k).Some?
  {
  }

  lemma RestartMoves(net: Net, wire: Wiring, n: nat, t: State, k: Key)
    requires n < |net.nodes| && Recovers(net.nodes[n].engine, t) && !net.nodes[n].engine.stopped
    ensures Moves(net, wire, n, t, k)
  {
    hide Core, Announced;
    var s := net.nodes[n].engine;
    assert SameRecord(SourceFor(s.sources, k.p, k.router), SourceFor(t.sources, k.p, k.router), t.cfg.source);
  }
}
