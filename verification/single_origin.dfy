/** A prefix that only one router originates: nobody ever announces it in
    another router's name, so the whole next-hop graph of the prefix is acyclic. */
module SingleOrigin {
  import opened Types
  import opened Prefixes
  import opened Seqno
  import opened EngineState
  import opened EngineEvents
  import opened Wire
  import opened Invariant
  import opened Packets
  import opened Runs
  import opened RunLimits
  import opened Suppression
  import opened LoopNode
  import opened LoopEvent
  import opened Network
  import opened LoopFreedom

  // ----- One engine

  /** The engine knows nothing of a source: no candidate, route, record or
      queued announcement, and it is no origin itself. */
  ghost predicate Unknown(s: State, k: Key) {
    && Foreign(s.cfg, s.locals, k) && RecordOf(s, k).None?
    && (forall c :: Some(c) in s.cands ==> !Concerns(c, k))
    && (forall r :: r in s.routes && !r.unreachable ==> !(r.prefix == k.p && r.router == k.router))
    && (forall q :: q in s.msgs ==> !Carries(q.message, k))
  }

  /** No half circle holds every sequence number. */
  lemma Outside(seqno: u16) returns (base: u16)
    ensures !InWindow(base, seqno)
  {
    base := (seqno + 1) % 0x1_0000;
    assert (seqno - base) % 0x1_0000 == 0xFFFF;
  }

  ghost predicate SafeAnywhere(s: State, p: Prefix, router: u64) {
    forall base :: Safe(s, Key(p, router, base), None)
  }

  /** What is safe for every window does not exist. */
  lemma SafeAnywhereIsUnknown(s: State, k: Key)
    requires SafeAnywhere(s, k.p, k.router)
    ensures Unknown(s, k)
  {
    hide InWindow, Rank;
    assert Safe(s, Key(k.p, k.router, 0), None);
    var away := Outside(if RecordOf(s, k).Some? then RecordOf(s, k).value.seqno else 0);
    assert Safe(s, Key(k.p, k.router, away), None);
    forall c | Some(c) in s.cands ensures !Concerns(c, k) {
      var b := Outside(c.route.seqno);
      assert Safe(s, Key(k.p, k.router, b), None);
      assert Concerns(c, k) == Concerns(c, Key(k.p, k.router, b));
    }
    forall r | r in s.routes && !r.unreachable ensures !(r.prefix == k.p && r.router == k.router) {
      var b := Outside(r.seqno);
      assert Safe(s, Key(k.p, k.router, b), None);
    }
    forall q | q in s.msgs ensures !Carries(q.message, k) {
      if q.message.Update? {
        var b := Outside(q.message.seqno);
        assert Safe(s, Key(k.p, k.router, b), None);
        assert Carries(q.message, k) == Carries(q.message, Key(k.p, k.router, b));
      }
    }
  }

  /** A packet without news of the source is inside every window. */
  ghost predicate Silent(data: seq<byte>, k: Key) {
    forall source, m :: Aboard(data, source, m) ==> !Carries(m, k)
  }

  lemma SilentWithin(data: seq<byte>, k: Key)
    requires Silent(data, k)
    ensures PacketWithin(data, k)
  {
    hide InWindow, Decode;
    forall source ensures DecodesWithin(data, source, k) {
      forall m | Decode(data, source).Some? && m in Decode(data, source).value ensures !Carries(m, k) {
        assert Aboard(data, source, m);
      }
    }
  }

  lemma UnknownWatched(s: State, k: Key)
    requires Unknown(s, k)
    ensures Watched(s, k) && forall now :: Surviving(s, k, now).None?
  {
  }

  lemma UnknownAnyBase(s: State, k: Key, base: u16)
    requires Unknown(s, k)
    ensures Unknown(s, k.(base := base))
  {
    var j := k.(base := base);
    forall c | Some(c) in s.cands ensures !Concerns(c, j) { assert !Concerns(c, k); }
    forall q | q in s.msgs ensures !Carries(q.message, j) { assert !Carries(q.message, k); }
  }

  /** An event neither invents a source nor, unless told to, becomes its origin. */
  lemma EventUnknown(s: State, e: Event, k: Key)
    requires Core(s) && Unknown(s, k) && Timed(e) && Prepare(s, e).0.Ok? && !Apply(s, e).state.stopped
    requires (e.Announce? && e.prefix == k.p ==> s.cfg.router != k.router) && (e.Arrive? ==> Silent(e.data, k))
    ensures Unknown(Apply(s, e).state, k)
  {
    hide Core, Apply, Prepare, Unknown, Safe, Silent, Watched, PacketWithin;
    var t := Apply(s, e).state;
    forall base ensures Safe(t, Key(k.p, k.router, base), None) {
      var j := k.(base := base);
      UnknownAnyBase(s, k, base);
      UnknownWatched(s, j);
      if e.Arrive? { SilentAnyBase(e.data, k, base); SilentWithin(e.data, j); }
      EventSafe(s, e, j);
    }
    SafeAnywhereIsUnknown(t, k);
  }

  lemma SilentAnyBase(data: seq<byte>, k: Key, base: u16)
    requires Silent(data, k)
    ensures Silent(data, k.(base := base))
  {
    hide Aboard;
    forall source, m | Aboard(data, source, m) ensures !Carries(m, k.(base := base)) { assert !Carries(m, k); }
  }

  lemma UnknownAlone(s: State, t: State, k: Key)
    requires Unknown(s, k) && t.cands == s.cands && t.routes == s.routes && t.sources == s.sources && t.cfg == s.cfg && NoNews(s.msgs, t.msgs, k)
    requires HasLocal(t.locals, k.p) == HasLocal(s.locals, k.p)
    ensures Unknown(t, k)
  {
    hide Carries, Concerns;
  }

  // ----- The network

  ghost predicate Unheard(net: Net, k: Key) {
    && (forall n: nat :: Alive(net, n) ==> Unknown(net.nodes[n].engine, k))
    && (forall f :: f in net.air ==> Silent(f.bytes, k))
  }

  /** Only routers with this id originate the prefix. */
  predicate Loyal(net: Net, step: Step, p: Prefix, router: u64) {
    step.Act? && step.event.Announce? && step.event.prefix == p && step.node < |net.nodes| ==> net.nodes[step.node].engine.cfg.router == router
  }

  lemma AnyEventUnknown(s: State, e: Event, k: Key)
    requires Core(s) && !s.stopped && Unknown(s, k) && !Apply(s, e).state.stopped
    requires (e.Announce? && e.prefix == k.p ==> s.cfg.router != k.router) && (e.Arrive? ==> Silent(e.data, k))
    ensures Unknown(Apply(s, e).state, k)
  {
    hide Core, Apply, Prepare, Unknown, Silent, NoNews, Padded;
    var t := Apply(s, e).state;
    if !Timed(e) {
      UntimedFrame(s, e);
      UntimedNoNews(s, e, k);
      UnknownAlone(s, t, k);
    } else if Prepare(s, e).0.Ok? {
      EventUnknown(s, e, k);
    } else {
      RefusedPads(s, e);
      RefusedApply(s, e);
      PaddedStays(s, t, k);
      PaddedOrigins(s, t, k.p);
      UnknownAlone(s, t, k);
    }
  }

  lemma PaddedOrigins(s: State, t: State, p: Prefix)
    requires Padded(s, t)
    ensures HasLocal(t.locals, p) == HasLocal(s.locals, p)
  {
    PaddedMembers(s.locals, t.locals);
    SameOrigins(s.locals, t.locals, p);
  }

  lemma MovedUnheard(net: Net, n: nat, e: Event, k: Key)
    requires Unheard(net, k) && n < |net.nodes| && Core(net.nodes[n].engine)
    requires (e.Announce? && e.prefix == k.p ==> net.nodes[n].engine.cfg.router != k.router) && (e.Arrive? ==> Silent(e.data, k))
    ensures Unheard(Moved(net, n, e), k)
  {
    hide Core, Apply, Unknown, Silent;
    var s := net.nodes[n].engine;
    if s.stopped { StoppedApply(s, e); }
    else if !Apply(s, e).state.stopped { AnyEventUnknown(s, e, k); }
    var r := Moved(net, n, e);
    forall m: nat | Alive(r, m) ensures Unknown(r.nodes[m].engine, k) {
      assert m != n ==> Alive(net, m);
    }
  }

  lemma PacketSilent(s: State, cap: nat, k: Key)
    requires Core(s) && NextPacket(s, cap).1.Some? && Unknown(s, k)
    ensures Silent(NextPacket(s, cap).1.value.bytes, k)
  {
    hide Core, NextPacket, Aboard;
    forall source, m | Aboard(NextPacket(s, cap).1.value.bytes, source, m) ensures !Carries(m, k) {
      if Carries(m, k) {
        PacketAnnounces(s, cap, source, m, k, MessageDistance(m));
      }
    }
  }

  lemma RecoveredUnknown(s: State, t: State, k: Key)
    requires Recovers(s, t) && Unknown(s, k)
    ensures Unknown(t, k)
  {
    hide Core;
    assert SameRecord(SourceFor(s.sources, k.p, k.router), SourceFor(t.sources, k.p, k.router), t.cfg.source);
  }

  lemma StepUnheard(net: Net, wire: Wiring, step: Step, k: Key, router: u64)
    requires Unheard(net, k) && Enabled(net, wire, step) && Loyal(net, step, k.p, router) && router != k.router
    requires forall n :: 0 <= n < |net.nodes| ==> Core(net.nodes[n].engine)
    ensures Unheard(Next(net, wire, step), k)
  {
    hide Core, Apply, Unknown, Silent, Recovers;
    match step
    case Act(n, e) => MovedUnheard(net, n, e, k);
    case Deliver(f) => MovedUnheard(net, wire(f.from, f.link).0, Landing(net, wire, f), k);
    case Emit(n, cap) =>
      MovedUnheard(net, n, Send(cap), k);
      var s := net.nodes[n].engine;
      if Apply(s, Send(cap)).packet.Some? {
        EmitIsPacket(s, cap);
        PacketSilent(s, cap, k);
      }
    case Restart(n, t) =>
      RecoveredUnknown(net.nodes[n].engine, t, k);
      var r := Next(net, wire, step);
      forall m: nat | Alive(r, m) ensures Unknown(r.nodes[m].engine, k) { assert m != n ==> Alive(net, m); }
    case Pass(time) => assert forall m: nat :: Alive(net.(time := time), m) ==> Alive(net, m);
    case Lose(f) => assert forall m: nat :: Alive(net.(air := net.air - {f}), m) ==> Alive(net, m);
  }

  lemma EmitIsPacket(s: State, cap: nat)
    requires Apply(s, Send(cap)).packet.Some?
    ensures Apply(s, Send(cap)).packet == NextPacket(s, cap).1 && !s.stopped
  {
    hide Fill;
  }

  ghost predicate LoyalRun(net: Net, wire: Wiring, steps: seq<Step>, p: Prefix, router: u64)
    requires Possible(net, wire, steps)
    decreases |steps|
  {
    steps == [] || (Loyal(net, steps[0], p, router) && LoyalRun(Next(net, wire, steps[0]), wire, steps[1..], p, router))
  }

  lemma StepCore(net: Net, wire: Wiring, step: Step)
    requires Enabled(net, wire, step) && forall n :: 0 <= n < |net.nodes| ==> Core(net.nodes[n].engine)
    ensures var r := Next(net, wire, step); forall n :: 0 <= n < |r.nodes| ==> Core(r.nodes[n].engine)
  {
    hide Core, Apply;
    match step
    case Act(n, e) => ApplyKeeps(net.nodes[n].engine, e);
    case Deliver(f) => ApplyKeeps(net.nodes[wire(f.from, f.link).0].engine, Landing(net, wire, f));
    case Emit(n, cap) => ApplyKeeps(net.nodes[n].engine, Send(cap));
    case _ =>
  }

  lemma {:induction false} RunUnheard(net: Net, wire: Wiring, steps: seq<Step>, k: Key, router: u64)
    requires Possible(net, wire, steps) && LoyalRun(net, wire, steps, k.p, router) && router != k.router && Unheard(net, k)
    requires forall n :: 0 <= n < |net.nodes| ==> Core(net.nodes[n].engine)
    ensures Unheard(After(net, wire, steps), k)
    decreases |steps|
  {
    hide Core, Next, Enabled, Unheard, Loyal;
    if steps != [] {
      StepUnheard(net, wire, steps[0], k, router);
      StepCore(net, wire, steps[0]);
      RunUnheard(Next(net, wire, steps[0]), wire, steps[1..], k, router);
    }
  }

  /** The neighbour that node n forwards to for the prefix, if any. */
  function Forwards(net: Net, wire: Wiring, n: nat, p: Prefix): (r: Option<nat>) {
    if !Alive(net, n) then None
    else
      var r := RouteFor(net.nodes[n].engine.routes, p);
      if r.Some? && !r.value.unreachable && !r.value.local then Some(wire(n, r.value.link).0) else None
  }

  predicate Loop(net: Net, wire: Wiring, p: Prefix, path: seq<nat>) {
    |path| > 0 && forall i :: 0 <= i < |path| ==> Forwards(net, wire, path[i], p) == Some(Successor(path, i))
  }

  lemma LoopIsCycle(net: Net, wire: Wiring, p: Prefix, router: u64, path: seq<nat>)
    requires Loop(net, wire, p, path) && forall other: u64 :: other != router ==> Unheard(net, Key(p, other, 0))
    ensures Cycle(net, wire, p, router, path)
  {
    hide Silent, Foreign, RecordOf;
    forall i | 0 <= i < |path| ensures NextHop(net, wire, path[i], p, router) == Some(Successor(path, i)) {
      assert Forwards(net, wire, path[i], p) == Some(Successor(path, i));
      var r := RouteFor(net.nodes[path[i]].engine.routes, p).value;
      assert r.router != router ==> Unheard(net, Key(p, r.router, 0));
    }
  }

  /** A prefix originated by one router alone: whatever the network does, packets
      for it never circulate. */
  lemma OneOriginNeverLoops(net: Net, wire: Wiring, steps: seq<Step>, p: Prefix, router: u64, base: u16, path: seq<nat>)
    requires Pristine(net) && Paired(wire) && Possible(net, wire, steps)
    requires SaneRun(net, wire, steps, p, router) && LoyalRun(net, wire, steps, p, router)
    requires Windowed(After(net, wire, steps), Key(p, router, base))
    ensures !Loop(After(net, wire, steps), wire, p, path)
  {
    hide Paired, Possible, SaneRun, After, Windowed, Cycle, Pristine, LoyalRun, Loop, Unheard;
    var r := After(net, wire, steps);
    if Loop(r, wire, p, path) {
      forall other: u64 | other != router ensures Unheard(r, Key(p, other, 0)) {
        PristineUnheard(net, Key(p, other, 0));
        RunUnheard(net, wire, steps, Key(p, other, 0), router);
      }
      LoopIsCycle(r, wire, p, router, path);
      NeverLoops(net, wire, steps, p, router, base, path);
    }
  }

  lemma PristineUnheard(net: Net, k: Key)
    requires Pristine(net)
    ensures Unheard(net, k) && forall n :: 0 <= n < |net.nodes| ==> Core(net.nodes[n].engine)
  {
    forall n | 0 <= n < |net.nodes| ensures Core(net.nodes[n].engine) && Unknown(net.nodes[n].engine, k) {
      var seqno :| net.nodes[n].engine == Init(net.nodes[n].engine.cfg, seqno);
      InitSteady(net.nodes[n].engine.cfg, seqno);
    }
  }
}
