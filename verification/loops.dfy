/** Loop freedom (sections 2.4 and 3.5.1 of RFC 8966) for every run of the
    network in which the sequence numbers of a source stay in half circles and
    no record expires while something it protects may still be used. */
module LoopFreedom {
  import opened Types
  import opened Prefixes
  import opened Seqno
  import opened EngineState
  import opened Engine
  import opened EngineEvents
  import opened Wire
  import opened Invariant
  import opened Records
  import opened Packets
  import opened Runs
  import opened RunLimits
  import opened Suppression
  import opened LoopNode
  import opened LoopEvent
  import opened Network

  // ----- Sending

  /** What a packet announces was announced by the queue it was cut from. */
  lemma PacketOrigin(s: State, cap: nat, source: Bytes16, m: Message, k: Key) returns (q: Queued)
    requires Core(s) && NextPacket(s, cap).1.Some? && Aboard(NextPacket(s, cap).1.value.bytes, source, m) && Carries(m, k)
    ensures q in s.msgs && Carries(q.message, k) && MessageDistance(q.message) == MessageDistance(m) && q.message.interval == m.interval
  {
    hide Core, NextPacket, Decode, WireRoundTrip.Packet, Stretch, WireRoundTrip.Sendable;
    var j := PacketStretch(s, cap);
    var i := s.ctl.cursor;
    BatchArrives(s.msgs, i, j, source);
    var got := Decode(WireRoundTrip.Packet(Stretch(s.msgs, i, j)), source).value;
    var x :| 0 <= x < |got| && got[x] == m;
    assert WireRoundTrip.Reads(got[x]) == WireRoundTrip.Received(Stretch(s.msgs, i, j)[x], source);
    q := s.msgs[i + x];
  }

  lemma PacketAnnounces(s: State, cap: nat, source: Bytes16, m: Message, k: Key, d: Distance)
    requires Core(s) && NextPacket(s, cap).1.Some? && Aboard(NextPacket(s, cap).1.value.bytes, source, m) && Announces(m, k, d)
    ensures InQueue(s, k, d)
  {
    hide Core, NextPacket, Aboard;
    var q := PacketOrigin(s, cap, source, m, k);
    assert Announces(q.message, k, d);
  }

  lemma PacketStretch(s: State, cap: nat) returns (j: nat)
    requires Core(s) && NextPacket(s, cap).1.Some?
    ensures s.ctl.cursor <= j <= |s.msgs| && NextPacket(s, cap).1.value.bytes == WireRoundTrip.Packet(Stretch(s.msgs, s.ctl.cursor, j))
    ensures |NextPacket(s, cap).1.value.bytes| <= PACKET_MAX && forall q :: q in s.msgs ==> WireRoundTrip.Sendable(q.message)
  {
    hide Core, WireRoundTrip.Sendable;
    CoreMsgs(s);
    var link := s.msgs[s.ctl.cursor].link;
    var max := s.links[LinkAt(s.links, link)].value.config.maxPacket;
    FillIsBatch(s.msgs, s.ctl.cursor, link, 4, max);
    j := Fill(s.msgs, s.ctl.cursor, link, 4, max).1;
  }

  lemma FlightKeeps(net: Net, wire: Wiring, f: Flight, k: Key)
    requires NetInv(net, wire, k)
    requires Sender(net, f.from, k) ==> forall d :: OnFlight(f, k, d) ==> Dominates(net.nodes[f.from].engine, k, d)
    ensures NetInv(net.(air := net.air + {f}), wire, k)
  {
    hide Core, AllJustified, InQueue, Dominates, OnFlight, HeardFrom;
    var r := net.(air := net.air + {f});
    forall n: nat | Sender(r, n, k) ensures QueueCovered(r, n, k) && WorldCovered(r, wire, n, k) {
      assert Sender(net, n, k);
      forall d | Announced(r, wire, n, k, d) ensures Dominates(r.nodes[n].engine, k, d) {
        if InAir(r, n, k, d) {
          var g :| g in r.air && g.from == n && OnFlight(g, k, d);
          if g in net.air { assert InAir(net, n, k, d); }
        } else {
          TableAlone(net, r, wire, n, k, d);
        }
      }
    }
  }

  /** Candidates do not depend on what is on the air or on the time. */
  lemma TableAlone(net: Net, r: Net, wire: Wiring, n: nat, k: Key, d: Distance)
    requires r.nodes == net.nodes && InTable(r, wire, n, k, d)
    ensures InTable(net, wire, n, k, d)
  {
    hide Concerns;
    var m: nat, c :| HeardFrom(r, wire, n, k, m, c) && CandidateDistance(c) == d;
    assert HeardFrom(net, wire, n, k, m, c);
  }

  lemma FewerFlights(net: Net, r: Net, wire: Wiring, k: Key)
    requires NetInv(net, wire, k) && r.nodes == net.nodes && r.air <= net.air
    ensures NetInv(r, wire, k)
  {
    hide Core, AllJustified, InQueue, Dominates, OnFlight, HeardFrom;
    forall n: nat | Sender(r, n, k) ensures QueueCovered(r, n, k) && WorldCovered(r, wire, n, k) {
      assert Sender(net, n, k);
      forall d | Announced(r, wire, n, k, d) ensures Dominates(r.nodes[n].engine, k, d) {
        if InTable(r, wire, n, k, d) { TableAlone(net, r, wire, n, k, d); }
      }
    }
  }

  lemma EmitKeeps(net: Net, wire: Wiring, n: nat, cap: nat, k: Key)
    requires NetInv(net, wire, k) && Enabled(net, wire, Emit(n, cap))
    ensures NetInv(Next(net, wire, Emit(n, cap)), wire, k)
  {
    hide Core, Apply, NetInv, Moves, OnFlight, Dominates, Announced;
    var s := net.nodes[n].engine;
    var r := Moved(net, n, Send(cap));
    UntimedMoves(net, wire, n, Send(cap), k);
    MoveKeeps(net, wire, n, Apply(s, Send(cap)).state, net.nodes[n].skew, k);
    var packet := Apply(s, Send(cap)).packet;
    if packet.Some? {
      var f := Flight(n, packet.value.link, packet.value.bytes, s.now + net.nodes[n].skew);
      forall d | OnFlight(f, k, d) && Sender(r, n, k) ensures Dominates(r.nodes[n].engine, k, d) {
        ApplyConfigured(s, Send(cap));
        FlightCovered(net, wire, n, cap, f, k, d);
      }
      FlightKeeps(r, wire, f, k);
    }
  }

  lemma FlightCovered(net: Net, wire: Wiring, n: nat, cap: nat, f: Flight, k: Key, d: Distance)
    requires NetInv(net, wire, k) && n < |net.nodes| && OnFlight(f, k, d)
    requires var o := Apply(net.nodes[n].engine, Send(cap)); o.packet.Some? && o.packet.value.bytes == f.bytes && !o.state.stopped
    requires net.nodes[n].engine.cfg.router != k.router
    ensures Dominates(Apply(net.nodes[n].engine, Send(cap)).state, k, d)
  {
    hide Core, NextPacket, Decode, AllJustified, InQueue;
    var s := net.nodes[n].engine;
    var source, m :| Aboard(f.bytes, source, m) && Announces(m, k, d);
    assert Core(s);
    PacketAnnounces(s, cap, source, m, k, d);
    assert !s.stopped by { SendLive(s, cap); }
    assert Sender(net, n, k);
  }

  lemma SendLive(s: State, cap: nat)
    requires NextPacket(s, cap).1.Some?
    ensures !s.stopped
  {
    hide Fill;
  }

  // ----- Every step

  ghost predicate Sane(net: Net, wire: Wiring, step: Step, p: Prefix, router: u64)
    requires Enabled(net, wire, step)
  {
    exists base :: Fair(net, wire, step, Key(p, router, base))
  }

  ghost predicate Fair(net: Net, wire: Wiring, step: Step, k: Key)
    requires Enabled(net, wire, step)
  {
    Windowed(net, k) && StepProtected(net, wire, step, k)
  }

  lemma StepKeeps(net: Net, wire: Wiring, step: Step, k: Key)
    requires NetInv(net, wire, k) && Paired(wire) && Enabled(net, wire, step) && Fair(net, wire, step, k)
    ensures NetInv(Next(net, wire, step), wire, k)
  {
    hide Core, Apply, NetInv, Moves, Paired, Windowed, Protected, Recovers;
    match step
    case Pass(time) => FewerFlights(net, net.(time := time), wire, k);
    case Act(n, e) =>
      if Timed(e) {
        EventMoves(net, wire, n, e, Flight(0, 0, [], 0), k);
      } else {
        UntimedMoves(net, wire, n, e, k);
      }
      MoveKeeps(net, wire, n, Apply(net.nodes[n].engine, e).state, net.nodes[n].skew, k);
    case Emit(n, cap) => EmitKeeps(net, wire, n, cap, k);
    case Deliver(f) =>
      var n, e := wire(f.from, f.link).0, Landing(net, wire, f);
      EventMoves(net, wire, n, e, f, k);
      MoveKeeps(net, wire, n, Apply(net.nodes[n].engine, e).state, net.nodes[n].skew, k);
    case Lose(f) => FewerFlights(net, net.(air := net.air - {f}), wire, k);
    case Restart(n, t) =>
      RestartMoves(net, wire, n, t, k);
      MoveKeeps(net, wire, n, t, net.time, k);
  }

  /** The invariant does not mention the base of the window. */
  lemma AnyBase(net: Net, wire: Wiring, p: Prefix, router: u64, a: u16, b: u16)
    requires NetInv(net, wire, Key(p, router, a))
    ensures NetInv(net, wire, Key(p, router, b))
  {
    hide Core;
    var j, k := Key(p, router, a), Key(p, router, b);
    forall n: nat | Alive(net, n) ensures AllJustified(net.nodes[n].engine, k) {
      assert AllJustified(net.nodes[n].engine, j);
      JustifiedAnyBase(net.nodes[n].engine, p, router, a, b);
    }
    forall n: nat | Sender(net, n, k) ensures QueueCovered(net, n, k) && WorldCovered(net, wire, n, k) {
      assert Sender(net, n, j);
      forall d ensures InQueue(net.nodes[n].engine, k, d) ==> InQueue(net.nodes[n].engine, j, d) { QueueAnyBase(net.nodes[n].engine, p, router, a, b, d); }
      forall d ensures Announced(net, wire, n, k, d) ==> Announced(net, wire, n, j, d) { AnnouncedAnyBase(net, wire, n, p, router, a, b, d); }
    }
  }

  lemma JustifiedAnyBase(s: State, p: Prefix, router: u64, a: u16, b: u16)
    requires AllJustified(s, Key(p, router, a))
    ensures AllJustified(s, Key(p, router, b))
  {
    hide Feasible;
    forall r | r in s.routes && !r.unreachable && !r.local && r.prefix == p && r.router == router ensures Justified(s, Key(p, router, b), r) {
      assert Justified(s, Key(p, router, a), r);
      var c :| Some(c) in s.cands && Concerns(c, Key(p, router, a)) && c.route.link == r.link && c.advertised != INFINITY && Feasible(s.sources, c);
      assert Concerns(c, Key(p, router, b));
    }
  }

  lemma QueueAnyBase(s: State, p: Prefix, router: u64, a: u16, b: u16, d: Distance)
    ensures InQueue(s, Key(p, router, b), d) ==> InQueue(s, Key(p, router, a), d)
  {
    if q :| q in s.msgs && Announces(q.message, Key(p, router, b), d) { assert Announces(q.message, Key(p, router, a), d); }
  }

  lemma AnnouncedAnyBase(net: Net, wire: Wiring, n: nat, p: Prefix, router: u64, a: u16, b: u16, d: Distance)
    ensures Announced(net, wire, n, Key(p, router, b), d) ==> Announced(net, wire, n, Key(p, router, a), d)
  {
    hide Aboard;
    var j, k := Key(p, router, a), Key(p, router, b);
    if InAir(net, n, k, d) {
      var f :| f in net.air && f.from == n && OnFlight(f, k, d);
      var source, m :| Aboard(f.bytes, source, m) && Announces(m, k, d);
      assert Announces(m, j, d);
      assert OnFlight(f, j, d);
    } else if InTable(net, wire, n, k, d) {
      var m: nat, c :| HeardFrom(net, wire, n, k, m, c) && CandidateDistance(c) == d;
      assert HeardFrom(net, wire, n, j, m, c);
    }
  }

  // ----- Every run

  /** A run: every step is enabled in the state it starts from. */
  ghost predicate Possible(net: Net, wire: Wiring, steps: seq<Step>)
    decreases |steps|
  {
    steps == [] || (Enabled(net, wire, steps[0]) && Possible(Next(net, wire, steps[0]), wire, steps[1..]))
  }

  ghost function After(net: Net, wire: Wiring, steps: seq<Step>): (r: Net)
    requires Possible(net, wire, steps)
    decreases |steps|
  {
    if steps == [] then net else After(Next(net, wire, steps[0]), wire, steps[1..])
  }

  ghost predicate SaneRun(net: Net, wire: Wiring, steps: seq<Step>, p: Prefix, router: u64)
    requires Possible(net, wire, steps)
    decreases |steps|
  {
    steps == [] || (Sane(net, wire, steps[0], p, router) && SaneRun(Next(net, wire, steps[0]), wire, steps[1..], p, router))
  }

  lemma {:induction false} RunKeepsInv(net: Net, wire: Wiring, steps: seq<Step>, p: Prefix, router: u64)
    requires NetInv(net, wire, Key(p, router, 0)) && Paired(wire) && Possible(net, wire, steps) && SaneRun(net, wire, steps, p, router)
    ensures NetInv(After(net, wire, steps), wire, Key(p, router, 0))
    decreases |steps|
  {
    hide NetInv, Paired, Enabled, Next, Fair;
    if steps != [] {
      var base :| Fair(net, wire, steps[0], Key(p, router, base));
      AnyBase(net, wire, p, router, 0, base);
      StepKeeps(net, wire, steps[0], Key(p, router, base));
      AnyBase(Next(net, wire, steps[0]), wire, p, router, base, 0);
      RunKeepsInv(Next(net, wire, steps[0]), wire, steps[1..], p, router);
    }
  }

  // ----- No cycle

  /** The neighbour that node n forwards to for the source, if any. */
  function NextHop(net: Net, wire: Wiring, n: nat, p: Prefix, router: u64): (r: Option<nat>) {
    if !Alive(net, n) then None
    else
      var r := RouteFor(net.nodes[n].engine.routes, p);
      if r.Some? && !r.value.unreachable && !r.value.local && r.value.router == router then Some(wire(n, r.value.link).0) else None
  }

  function Successor(path: seq<nat>, i: nat): (r: nat)
    requires i < |path|
  {
    if i + 1 < |path| then path[i + 1] else path[0]
  }

  /** path[0], path[1], ... each forwards to the next and the last to the first. */
  predicate Cycle(net: Net, wire: Wiring, p: Prefix, router: u64, path: seq<nat>) {
    |path| > 0 && forall i :: 0 <= i < |path| ==> NextHop(net, wire, path[i], p, router) == Some(Successor(path, i))
  }

  /** One hop: the next node has a record, and it is strictly better than ours. */
  lemma HopDescends(net: Net, wire: Wiring, k: Key, n: nat, m: nat)
    requires NetInv(net, wire, k) && Windowed(net, k) && NextHop(net, wire, n, k.p, k.router) == Some(m) && Alive(net, m)
    requires net.nodes[m].engine.cfg.router != k.router && net.nodes[n].engine.cfg.router != k.router
    ensures RecordOf(net.nodes[m].engine, k).Some? && InWindow(k.base, RecordOf(net.nodes[m].engine, k).value.seqno)
    ensures RecordOf(net.nodes[n].engine, k).Some? ==>
              InWindow(k.base, RecordOf(net.nodes[n].engine, k).value.seqno)
              && RankOf(k, RecordOf(net.nodes[m].engine, k).value) < RankOf(k, RecordOf(net.nodes[n].engine, k).value)
  {
    hide Core, Better, Rank, InWindow, QueueWithin, CandsWithin, RoutesWithin, Announced;
    var s, t := net.nodes[n].engine, net.nodes[m].engine;
    var r := RouteFor(s.routes, k.p).value;
    assert Justified(s, k, r);
    var c :| Some(c) in s.cands && Concerns(c, k) && c.route.link == r.link && c.advertised != INFINITY && Feasible(s.sources, c);
    OldRooted(net, wire, n, c, k);
    assert Sender(net, m, k);
    var d := CandidateDistance(c);
    assert Dominates(t, k, d);
    AnnouncedWithin(net, wire, m, k, d);
    BetterIsRank(k.base, DistanceOf(RecordOf(t, k).value), d);
    if RecordOf(s, k).Some? { BetterIsRank(k.base, d, DistanceOf(RecordOf(s, k).value)); }
  }

  /** An origin never forwards along its own source. */
  lemma OriginDoesNotForward(net: Net, wire: Wiring, k: Key, n: nat)
    requires NetInv(net, wire, k) && NextHop(net, wire, n, k.p, k.router).Some?
    ensures net.nodes[n].engine.cfg.router != k.router
  {
    hide Core, Feasible;
    var s := net.nodes[n].engine;
    var r := RouteFor(s.routes, k.p).value;
    assert Justified(s, k, r);
    var c :| Some(c) in s.cands && Concerns(c, k);
    CandForeign(s, c);
  }

  /** Node n is alive and has a record in the window. */
  ghost predicate Leveled(net: Net, k: Key, n: nat) {
    && Alive(net, n)
    && RecordOf(net.nodes[n].engine, k).Some?
    && InWindow(k.base, RecordOf(net.nodes[n].engine, k).value.seqno)
  }

  ghost function Level(net: Net, k: Key, n: nat): (r: nat)
    requires Leveled(net, k, n)
  {
    RankOf(k, RecordOf(net.nodes[n].engine, k).value)
  }

  /** The next node on a cycle has a record, strictly better than ours. */
  lemma CycleHop(net: Net, wire: Wiring, k: Key, path: seq<nat>, i: nat)
    requires NetInv(net, wire, k) && Windowed(net, k) && Cycle(net, wire, k.p, k.router, path) && i < |path|
    ensures var n, m := path[i], Successor(path, i);
            Leveled(net, k, m) && (Leveled(net, k, n) ==> Level(net, k, m) < Level(net, k, n))
  {
    hide NetInv, Windowed, Rank, InWindow, RecordOf;
    var j := if i + 1 < |path| then i + 1 else 0;
    assert NextHop(net, wire, path[i], k.p, k.router) == Some(path[j]);
    assert NextHop(net, wire, path[j], k.p, k.router).Some?;
    OriginDoesNotForward(net, wire, k, path[i]);
    OriginDoesNotForward(net, wire, k, path[j]);
    HopDescends(net, wire, k, path[i], path[j]);
  }

  lemma {:induction false} PathDescends(net: Net, wire: Wiring, k: Key, path: seq<nat>, i: nat)
    requires NetInv(net, wire, k) && Windowed(net, k) && Cycle(net, wire, k.p, k.router, path) && i < |path|
    ensures Leveled(net, k, path[0]) && Leveled(net, k, path[i]) && Level(net, k, path[i]) + i <= Level(net, k, path[0])
  {
    hide NetInv, Windowed, Leveled, Level, Cycle;
    if i == 0 {
      CycleHop(net, wire, k, path, |path| - 1);
    } else {
      PathDescends(net, wire, k, path, i - 1);
      CycleHop(net, wire, k, path, i - 1);
    }
  }

  lemma NoCycle(net: Net, wire: Wiring, k: Key, path: seq<nat>)
    requires NetInv(net, wire, k) && Windowed(net, k)
    ensures !Cycle(net, wire, k.p, k.router, path)
  {
    hide NetInv, Windowed, Leveled, Level, NextHop;
    if Cycle(net, wire, k.p, k.router, path) {
      PathDescends(net, wire, k, path, |path| - 1);
      CycleHop(net, wire, k, path, |path| - 1);
    }
  }

  /** A network before anything has been announced. */
  ghost predicate Pristine(net: Net) {
    net.air == {} && forall n :: 0 <= n < |net.nodes| ==> exists seqno :: net.nodes[n].engine == Init(net.nodes[n].engine.cfg, seqno)
  }

  lemma FreshInv(net: Net, wire: Wiring, k: Key)
    requires Pristine(net)
    ensures NetInv(net, wire, k)
  {
    forall n | 0 <= n < |net.nodes| ensures Core(net.nodes[n].engine) && net.nodes[n].engine.cands == [] && net.nodes[n].engine.routes == [] && net.nodes[n].engine.msgs == [] {
      var seqno :| net.nodes[n].engine == Init(net.nodes[n].engine.cfg, seqno);
      InitSteady(net.nodes[n].engine.cfg, seqno);
    }
  }

  /** In every run from fresh engines that satisfies the two assumptions, at
      every moment, the next hops of the routes selected for one source never
      form a cycle. */
  lemma NeverLoops(net: Net, wire: Wiring, steps: seq<Step>, p: Prefix, router: u64, base: u16, path: seq<nat>)
    requires Pristine(net) && Paired(wire) && Possible(net, wire, steps) && SaneRun(net, wire, steps, p, router)
    requires Windowed(After(net, wire, steps), Key(p, router, base))
    ensures !Cycle(After(net, wire, steps), wire, p, router, path)
  {
    hide NetInv, Paired, Possible, SaneRun, After, Windowed, Cycle, Pristine;
    FreshInv(net, wire, Key(p, router, 0));
    RunKeepsInv(net, wire, steps, p, router);
    AnyBase(After(net, wire, steps), wire, p, router, 0, base);
    NoCycle(After(net, wire, steps), wire, Key(p, router, base), path);
  }
}
