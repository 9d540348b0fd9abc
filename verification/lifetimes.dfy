/** Source records outlive what they protect. With clocks that run at the same
    rate, packets that arrive within `delay` and hosts that serve expiry within
    `lag`, a record never expires while an update it covers may still be used;
    so loop freedom needs no assumption about records. */
module Lifetimes {
  import opened Types
  import opened Prefixes
  import opened Seqno
  import opened EngineState
  import opened EngineEvents
  import opened Wire
  import opened Invariant
  import opened Packets
  import opened Runs
  import opened RunLimits
  import opened Suppression
  import opened LoopNode
  import opened LoopEvent
  import opened Network
  import opened LoopFreedom

  /** The promised bounds. */
  datatype Pacing = Pacing(delay: nat, lag: nat)

  /** The configuration leaves room for them. */
  predicate Generous(cfg: Config, b: Pacing) {
    b.delay + b.lag + Hold(cfg.update) <= cfg.source
  }

  // ----- Obligations

  /** How long the sender of m, sent at `sent`, must keep its record. */
  function Horizon(m: Message, sent: int, b: Pacing): (r: int)
    requires m.Update?
  {
    sent + b.delay + b.lag + Hold(m.interval * 10)
  }

  predicate Carried(f: Flight, m: Message, k: Key, b: Pacing, until: int) {
    Carries(m, k) && until == Horizon(m, f.sent, b)
  }

  ghost predicate OwedForFlight(net: Net, n: nat, k: Key, b: Pacing, until: int) {
    exists f, source, m :: f in net.air && f.from == n && Aboard(f.bytes, source, m) && Carried(f, m, k, b, until)
  }

  ghost predicate OwedForTable(net: Net, wire: Wiring, n: nat, k: Key, b: Pacing, until: int) {
    exists m: nat, c :: HeardFrom(net, wire, n, k, m, c) && until == c.expires + net.nodes[m].skew + b.lag
  }

  /** Node n must keep its record until then. */
  ghost predicate Owed(net: Net, wire: Wiring, n: nat, k: Key, b: Pacing, until: int) {
    OwedForFlight(net, n, k, b, until) || OwedForTable(net, wire, n, k, b, until)
  }

  ghost predicate Lasts(node: Node, k: Key, until: int) {
    RecordOf(node.engine, k).Some? && RecordOf(node.engine, k).value.expires + node.skew >= until
  }

  ghost predicate QueueLasts(node: Node, k: Key, b: Pacing) {
    forall q :: q in node.engine.msgs && Carries(q.message, k) ==> Lasts(node, k, Horizon(q.message, node.engine.now + node.skew, b))
  }

  ghost predicate AllLast(net: Net, wire: Wiring, n: nat, k: Key, b: Pacing)
    requires n < |net.nodes|
  {
    forall until :: Owed(net, wire, n, k, b, until) ==> Lasts(net.nodes[n], k, until)
  }

  ghost predicate TimeInv(net: Net, wire: Wiring, k: Key, b: Pacing) {
    && (forall n :: 0 <= n < |net.nodes| ==>
          Core(net.nodes[n].engine) && Generous(net.nodes[n].engine.cfg, b) && net.nodes[n].engine.now + net.nodes[n].skew <= net.time)
    && (forall n: nat :: Sender(net, n, k) ==> QueueLasts(net.nodes[n], k, b) && AllLast(net, wire, n, k, b))
  }

  // ----- One node moves

  ghost predicate Kept(net: Net, wire: Wiring, n: nat, t: Node, k: Key, b: Pacing)
    requires n < |net.nodes|
  {
    var s := net.nodes[n];
    && Core(t.engine) && t.engine.cfg.router == s.engine.cfg.router && (s.engine.stopped ==> t.engine.stopped)
    && Generous(t.engine.cfg, b) && t.engine.now + t.skew <= net.time
    && (!t.engine.stopped ==> Traced(net, wire, n, t, k, b))
    && (!t.engine.stopped && t.engine.cfg.router != k.router ==>
          QueueLasts(t, k, b) && forall until :: Owed(net, wire, n, k, b, until) && Lasts(s, k, until) ==> Lasts(t, k, until))
  }

  /** Node u's record for what c was learned from lasts long enough. */
  ghost predicate Traceable(net: Net, wire: Wiring, u: nat, k: Key, b: Pacing, until: int) {
    exists later :: later >= until && Owed(net, wire, u, k, b, later)
  }

  ghost predicate Traced(net: Net, wire: Wiring, n: nat, t: Node, k: Key, b: Pacing) {
    forall c :: Some(c) in t.engine.cands && Concerns(c, k) && c.advertised != INFINITY ==>
      Traceable(net, wire, wire(n, c.route.link).0, k, b, c.expires + t.skew + b.lag)
  }

  lemma OwedBefore(net: Net, wire: Wiring, n: nat, t: Node, k: Key, b: Pacing, u: nat, until: int)
    requires n < |net.nodes| && (!t.engine.stopped ==> Traced(net, wire, n, t, k, b))
    requires Owed(net.(nodes := net.nodes[n := t]), wire, u, k, b, until)
    ensures Traceable(net, wire, u, k, b, until)
  {
    hide Concerns, Carried, Aboard;
    var r := net.(nodes := net.nodes[n := t]);
    if OwedForFlight(net, u, k, b, until) {
      assert Owed(net, wire, u, k, b, until);
    } else {
      var m: nat, c :| HeardFrom(r, wire, u, k, m, c) && until == c.expires + r.nodes[m].skew + b.lag;
      if m != n {
        assert HeardFrom(net, wire, u, k, m, c);
        assert Owed(net, wire, u, k, b, until);
      }
    }
  }

  lemma KeptKeeps(net: Net, wire: Wiring, n: nat, t: Node, k: Key, b: Pacing)
    requires TimeInv(net, wire, k, b) && n < |net.nodes| && Kept(net, wire, n, t, k, b)
    ensures TimeInv(net.(nodes := net.nodes[n := t]), wire, k, b)
  {
    hide Core, Traced, QueueLasts, Owed;
    var r := net.(nodes := net.nodes[n := t]);
    forall u: nat | Sender(r, u, k) ensures QueueLasts(r.nodes[u], k, b) && AllLast(r, wire, u, k, b) {
      assert Sender(net, u, k);
      forall until | Owed(r, wire, u, k, b, until) ensures Lasts(r.nodes[u], k, until) {
        OwedBefore(net, wire, n, t, k, b, u, until);
        var later :| later >= until && Owed(net, wire, u, k, b, later);
        assert Lasts(net.nodes[u], k, later);
      }
    }
  }

  lemma OldTraced(net: Net, wire: Wiring, n: nat, c: Candidate, k: Key, b: Pacing)
    requires Alive(net, n) && Some(c) in net.nodes[n].engine.cands && Concerns(c, k) && c.advertised != INFINITY
    ensures Traceable(net, wire, wire(n, c.route.link).0, k, b, c.expires + net.nodes[n].skew + b.lag)
  {
    var until := c.expires + net.nodes[n].skew + b.lag;
    assert HeardFrom(net, wire, wire(n, c.route.link).0, k, n, c);
    assert Owed(net, wire, wire(n, c.route.link).0, k, b, until);
  }

  lemma StillKept(net: Net, wire: Wiring, n: nat, t: State, k: Key, b: Pacing)
    requires TimeInv(net, wire, k, b) && n < |net.nodes| && Core(t)
    requires var s := net.nodes[n].engine;
             && t.cands == s.cands && t.sources == s.sources && t.cfg == s.cfg && t.now == s.now && (s.stopped ==> t.stopped)
             && NoNews(s.msgs, t.msgs, k)
    ensures Kept(net, wire, n, net.nodes[n].(engine := t), k, b)
  {
    hide Core, Owed;
    var s := net.nodes[n].engine;
    var u := net.nodes[n].(engine := t);
    if !t.stopped {
      assert Alive(net, n);
      forall c | Some(c) in t.cands && Concerns(c, k) && c.advertised != INFINITY
        ensures Traceable(net, wire, wire(n, c.route.link).0, k, b, c.expires + u.skew + b.lag)
      { OldTraced(net, wire, n, c, k, b); }
      if t.cfg.router != k.router {
        assert Sender(net, n, k);
        assert QueueLasts(u, k, b) by {
          forall q | q in t.msgs && Carries(q.message, k) ensures Lasts(u, k, Horizon(q.message, t.now + u.skew, b)) { assert q in s.msgs; }
        }
      }
    }
  }

  lemma UntimedKept(net: Net, wire: Wiring, n: nat, e: Event, k: Key, b: Pacing)
    requires TimeInv(net, wire, k, b) && n < |net.nodes| && !Timed(e)
    ensures Kept(net, wire, n, net.nodes[n].(engine := Apply(net.nodes[n].engine, e).state), k, b)
  {
    hide Core, Apply, Kept, NoNews, AllLast, QueueLasts;
    var s := net.nodes[n].engine;
    UntimedFrame(s, e);
    UntimedNoNews(s, e, k);
    ApplyKeeps(s, e);
    if s.stopped { StoppedApply(s, e); }
    StillKept(net, wire, n, Apply(s, e).state, k, b);
  }

  /** Packets on the air are no older than `delay`, and no host is more than
      `lag` late with an expired candidate. */
  ghost predicate Prompt(net: Net, k: Key, b: Pacing) {
    && (forall f :: f in net.air ==> net.time <= f.sent + b.delay)
    && (forall n: nat, c :: Alive(net, n) && Some(c) in net.nodes[n].engine.cands && Concerns(c, k) && c.advertised != INFINITY ==>
          net.time < c.expires + net.nodes[n].skew + b.lag)
  }

  /** Everything owed is owed beyond the present. */
  lemma OwedIsFuture(net: Net, wire: Wiring, n: nat, k: Key, b: Pacing, until: int)
    requires Prompt(net, k, b) && Owed(net, wire, n, k, b, until)
    ensures until > net.time
  {
    hide Decode;
    if OwedForFlight(net, n, k, b, until) {
      var f, source, m :| f in net.air && f.from == n && Aboard(f.bytes, source, m) && Carried(f, m, k, b, until);
      DecodeDelivers(f.bytes, source, m);
    }
  }

  lemma AnnouncedIsOwed(net: Net, wire: Wiring, n: nat, k: Key, b: Pacing, d: Distance) returns (until: int)
    requires Announced(net, wire, n, k, d)
    ensures Owed(net, wire, n, k, b, until)
  {
    hide Aboard;
    if InAir(net, n, k, d) {
      var f :| f in net.air && f.from == n && OnFlight(f, k, d);
      var source, m :| Aboard(f.bytes, source, m) && Announces(m, k, d);
      until := Horizon(m, f.sent, b);
      assert Carried(f, m, k, b, until);
    } else {
      var m: nat, c :| HeardFrom(net, wire, n, k, m, c) && CandidateDistance(c) == d;
      until := c.expires + net.nodes[m].skew + b.lag;
    }
  }

  /** Prompt networks protect every record that is still needed. */
  lemma PromptIsProtected(net: Net, wire: Wiring, n: nat, now: nat, k: Key, b: Pacing)
    requires TimeInv(net, wire, k, b) && Prompt(net, k, b) && n < |net.nodes| && now + net.nodes[n].skew <= net.time
    ensures Protected(net, wire, n, now, k)
  {
    hide Core, QueueLasts, Owed, Announced, Prompt;
    forall d | Sender(net, n, k) && Announced(net, wire, n, k, d) && RecordOf(net.nodes[n].engine, k).Some?
      ensures RecordOf(net.nodes[n].engine, k).value.expires > now
    {
      var until := AnnouncedIsOwed(net, wire, n, k, b, d);
      OwedIsFuture(net, wire, n, k, b, until);
      assert AllLast(net, wire, n, k, b);
    }
  }

  // ----- A completed event

  lemma LandedTraced(net: Net, wire: Wiring, n: nat, e: Event, f: Flight, s: State, c: Candidate, k: Key, b: Pacing)
    requires Timed(e) && Paired(wire) && Driven(net, wire, n, e, f) && New(k, Arrival(e), Delivery(s, e), e.now, c)
    requires n < |net.nodes| && e.now + net.nodes[n].skew == net.time && Prompt(net, k, b)
    ensures Traceable(net, wire, wire(n, c.route.link).0, k, b, c.expires + net.nodes[n].skew + b.lag)
  {
    hide Decode;
    var m :| m in Delivery(s, e) && Carries(m, k) && LearnedFrom(m, e.now, c);
    var peer := s.links[LinkAt(s.links, e.id)].value.config.peer;
    assert Aboard(f.bytes, peer, m);
    var later := Horizon(m, f.sent, b);
    assert Carried(f, m, k, b, later);
    assert wire(wire(f.from, f.link).0, wire(f.from, f.link).1) == (f.from, f.link);
    assert Owed(net, wire, f.from, k, b, later);
  }

  lemma EventTraced(net: Net, wire: Wiring, n: nat, e: Event, f: Flight, k: Key, b: Pacing)
    requires Paired(wire) && Alive(net, n) && Core(net.nodes[n].engine) && Timed(e) && Driven(net, wire, n, e, f)
    requires Prepare(net.nodes[n].engine, e).0.Ok? && !Apply(net.nodes[n].engine, e).state.stopped
    requires e.now + net.nodes[n].skew == net.time && Prompt(net, k, b)
    ensures Traced(net, wire, n, net.nodes[n].(engine := Apply(net.nodes[n].engine, e).state), k, b)
  {
    hide Core, Apply, Prepare, Delivery, New, Traceable, Concerns, Prompt;
    var s := net.nodes[n].engine;
    var t := Apply(s, e).state;
    EventSourced(s, e, k);
    forall c | Some(c) in t.cands && Concerns(c, k) && c.advertised != INFINITY
      ensures Traceable(net, wire, wire(n, c.route.link).0, k, b, c.expires + net.nodes[n].skew + b.lag)
    {
      if Old(s.cands, c) {
        var a :| Some(a) in s.cands && Inherited(a, c);
        InheritedConcerns(a, c, k);
        OldTraced(net, wire, n, a, k, b);
      } else {
        LandedTraced(net, wire, n, e, f, s, c, k, b);
      }
    }
  }

  lemma SafeLasts(s: Node, t: Node, k: Key, now: nat, until: int)
    requires Watched(s.engine, k) && Safe(t.engine, k, Surviving(s.engine, k, now)) && t.skew == s.skew
    requires Lasts(s, k, until) && until > now + s.skew
    ensures Lasts(t, k, until)
  {
    hide CandsWithin, RoutesWithin, MsgsVouched, Rank, InWindow, Foreign;
  }

  lemma SafeQueueLasts(t: Node, k: Key, x0: Option<Source>, b: Pacing)
    requires Safe(t.engine, k, x0) && Generous(t.engine.cfg, b)
    ensures QueueLasts(t, k, b)
  {
    hide CandsWithin, RoutesWithin, Rank, InWindow, Foreign, Improves;
    forall q | q in t.engine.msgs && Carries(q.message, k) ensures Lasts(t, k, Horizon(q.message, t.engine.now + t.skew, b)) {
      assert Vouched(t.engine.cfg, t.engine.now, RecordOf(t.engine, k), k, q.message);
    }
  }

  lemma LiveKept(net: Net, wire: Wiring, n: nat, e: Event, f: Flight, k: Key, b: Pacing)
    requires TimeInv(net, wire, k, b) && Network.Windowed(net, k) && Prompt(net, k, b) && Paired(wire) && Alive(net, n)
    requires Timed(e) && Driven(net, wire, n, e, f) && e.now + net.nodes[n].skew == net.time
    requires Prepare(net.nodes[n].engine, e).0.Ok? && !Apply(net.nodes[n].engine, e).state.stopped
    ensures Kept(net, wire, n, net.nodes[n].(engine := Apply(net.nodes[n].engine, e).state), k, b)
  {
    hide Core, Apply, Prepare, Traced, Watched, QueueWithin, PacketWithin, Safe, Owed, Lasts, AllLast, QueueLasts, Prompt;
    var s := net.nodes[n].engine;
    var t := Apply(s, e).state;
    ApplyKeeps(s, e);
    ApplyConfigured(s, e);
    EventClock(s, e);
    EventTraced(net, wire, n, e, f, k, b);
    if t.cfg.router != k.router {
      assert Abroad(s, e, k);
      EventSafe(s, e, k);
      var u := net.nodes[n].(engine := t);
      SafeQueueLasts(u, k, Surviving(s, k, e.now), b);
      forall until | Owed(net, wire, n, k, b, until) && Lasts(net.nodes[n], k, until) ensures Lasts(u, k, until) {
        OwedIsFuture(net, wire, n, k, b, until);
        SafeLasts(net.nodes[n], u, k, e.now, until);
      }
    }
  }

  /** An accepted event leaves the engine's clock at the event's time. */
  lemma EventClock(s: State, e: Event)
    requires Timed(e) && Prepare(s, e).0.Ok?
    ensures Apply(s, e).state.now == e.now
  {
    hide Prepare, Finish;
    PreparedTime(s, e);
    FinishTime(Prepare(s, e).1);
  }

  lemma StoppedKept(net: Net, wire: Wiring, n: nat, t: Node, k: Key, b: Pacing)
    requires n < |net.nodes| && Core(t.engine) && t.engine.cfg == net.nodes[n].engine.cfg && Generous(t.engine.cfg, b)
    requires t.engine.stopped && t.engine.now + t.skew <= net.time
    ensures Kept(net, wire, n, t, k, b)
  {
  }

  lemma ApplyClock(s: State, e: Event)
    ensures Apply(s, e).state.now == s.now || (Timed(e) && Apply(s, e).state.now == e.now)
  {
    hide Apply, Prepare, Padded;
    if !Timed(e) {
      UntimedFrame(s, e);
    } else if Prepare(s, e).0.Ok? {
      EventClock(s, e);
    } else {
      RefusedPads(s, e);
      RefusedApply(s, e);
      PaddedClock(s, Prepare(s, e).1);
    }
  }

  lemma PaddedClock(s: State, t: State)
    requires Padded(s, t)
    ensures t.now == s.now
  {
  }

  lemma EventKept(net: Net, wire: Wiring, n: nat, e: Event, f: Flight, k: Key, b: Pacing)
    requires TimeInv(net, wire, k, b) && Network.Windowed(net, k) && Prompt(net, k, b) && Paired(wire) && n < |net.nodes|
    requires Timed(e) && Driven(net, wire, n, e, f) && e.now + net.nodes[n].skew == net.time
    ensures Kept(net, wire, n, net.nodes[n].(engine := Apply(net.nodes[n].engine, e).state), k, b)
  {
    hide Core, Apply, Prepare, NoNews, Network.Windowed, Kept, Padded, Prompt, AllLast, QueueLasts, Generous;
    var s := net.nodes[n].engine;
    var t := Apply(s, e).state;
    ApplyKeeps(s, e);
    ApplyConfigured(s, e);
    ApplyClock(s, e);
    if s.stopped {
      StoppedApply(s, e);
      StoppedKept(net, wire, n, net.nodes[n].(engine := t), k, b);
    } else if !Prepare(s, e).0.Ok? {
      RefusedPads(s, e);
      RefusedApply(s, e);
      PaddedStays(s, t, k);
      PaddedClock(s, t);
      StillKept(net, wire, n, t, k, b);
    } else if t.stopped {
      StoppedKept(net, wire, n, net.nodes[n].(engine := t), k, b);
    } else {
      LiveKept(net, wire, n, e, f, k, b);
    }
  }

  /** A restart gives every record a full lifetime, however long it took. */
  lemma RestartKept(net: Net, wire: Wiring, n: nat, t: State, k: Key, b: Pacing)
    requires TimeInv(net, wire, k, b) && Enabled(net, wire, Restart(n, t)) && Generous(t.cfg, b)
    ensures Kept(net, wire, n, Node(t, net.time), k, b)
  {
    hide Owed, Core;
    var s := net.nodes[n].engine;
    assert SameRecord(SourceFor(s.sources, k.p, k.router), SourceFor(t.sources, k.p, k.router), t.cfg.source);
    forall until | Lasts(net.nodes[n], k, until) ensures Lasts(Node(t, net.time), k, until) { RecordLasts(s, k); }
  }

  // ----- Sending

  lemma FlightLasts(net: Net, wire: Wiring, f: Flight, k: Key, b: Pacing)
    requires TimeInv(net, wire, k, b)
    requires Sender(net, f.from, k) ==>
               forall source, m :: Aboard(f.bytes, source, m) && Carries(m, k) ==> Lasts(net.nodes[f.from], k, Horizon(m, f.sent, b))
    ensures TimeInv(net.(air := net.air + {f}), wire, k, b)
  {
    hide Core, QueueLasts, Aboard, Lasts, HeardFrom, Generous;
    var r := net.(air := net.air + {f});
    forall n: nat | Sender(r, n, k) ensures QueueLasts(r.nodes[n], k, b) && AllLast(r, wire, n, k, b) {
      assert Sender(net, n, k);
      assert AllLast(net, wire, n, k, b);
      forall until | Owed(r, wire, n, k, b, until) ensures Lasts(r.nodes[n], k, until) {
        if OwedForFlight(r, n, k, b, until) {
          var g, source, m :| g in r.air && g.from == n && Aboard(g.bytes, source, m) && Carried(g, m, k, b, until);
          if g in net.air { assert OwedForFlight(net, n, k, b, until); }
        } else {
          OwedTableAlone(net, r, wire, n, k, b, until);
        }
      }
    }
  }

  lemma OwedTableAlone(net: Net, r: Net, wire: Wiring, n: nat, k: Key, b: Pacing, until: int)
    requires r.nodes == net.nodes && OwedForTable(r, wire, n, k, b, until)
    ensures OwedForTable(net, wire, n, k, b, until)
  {
    hide Concerns;
    var m: nat, c :| HeardFrom(r, wire, n, k, m, c) && until == c.expires + r.nodes[m].skew + b.lag;
    assert HeardFrom(net, wire, n, k, m, c);
  }

  lemma FewerOwed(net: Net, r: Net, wire: Wiring, k: Key, b: Pacing)
    requires TimeInv(net, wire, k, b) && r.nodes == net.nodes && r.air <= net.air && net.time <= r.time
    ensures TimeInv(r, wire, k, b)
  {
    hide Core, QueueLasts, Aboard, Lasts, HeardFrom, Generous;
    forall n: nat | Sender(r, n, k) ensures QueueLasts(r.nodes[n], k, b) && AllLast(r, wire, n, k, b) {
      assert Sender(net, n, k);
      assert AllLast(net, wire, n, k, b);
      forall until | Owed(r, wire, n, k, b, until) ensures Lasts(r.nodes[n], k, until) {
        if OwedForTable(r, wire, n, k, b, until) { OwedTableAlone(net, r, wire, n, k, b, until); }
      }
    }
  }

  lemma EmittedLasts(net: Net, wire: Wiring, n: nat, cap: nat, source: Bytes16, m: Message, k: Key, b: Pacing)
    requires TimeInv(net, wire, k, b) && Sender(net, n, k) && Carries(m, k)
    requires NextPacket(net.nodes[n].engine, cap).1.Some? && Aboard(NextPacket(net.nodes[n].engine, cap).1.value.bytes, source, m)
    ensures Lasts(net.nodes[n], k, Horizon(m, net.nodes[n].engine.now + net.nodes[n].skew, b))
  {
    hide Core, NextPacket, Aboard, AllLast, Generous;
    var s := net.nodes[n].engine;
    var q := PacketOrigin(s, cap, source, m, k);
    assert QueueLasts(net.nodes[n], k, b);
  }

  lemma EmitLasts(net: Net, wire: Wiring, n: nat, cap: nat, k: Key, b: Pacing)
    requires TimeInv(net, wire, k, b) && Enabled(net, wire, Emit(n, cap))
    ensures TimeInv(Next(net, wire, Emit(n, cap)), wire, k, b)
  {
    hide Core, Apply, TimeInv, Kept, Aboard, NextPacket;
    var s := net.nodes[n].engine;
    var r := Moved(net, n, Send(cap));
    UntimedKept(net, wire, n, Send(cap), k, b);
    KeptKeeps(net, wire, n, r.nodes[n], k, b);
    if Apply(s, Send(cap)).packet.Some? {
      var packet := Apply(s, Send(cap)).packet.value;
      var f := Flight(n, packet.link, packet.bytes, s.now + net.nodes[n].skew);
      SendKeepsRecord(s, cap);
      forall source, m | Sender(r, n, k) && Aboard(f.bytes, source, m) && Carries(m, k) ensures Lasts(r.nodes[n], k, Horizon(m, f.sent, b)) {
        EmittedLasts(net, wire, n, cap, source, m, k, b);
      }
      FlightLasts(r, wire, f, k, b);
    }
  }

  lemma SendKeepsRecord(s: State, cap: nat)
    requires Apply(s, Send(cap)).packet.Some?
    ensures var o := Apply(s, Send(cap));
            o.packet == NextPacket(s, cap).1 && !s.stopped && o.state.sources == s.sources && o.state.cfg == s.cfg
  {
    hide Fill;
  }

  // ----- Every run

  /** A restarted engine is configured as generously as before. */
  predicate Configured(step: Step, b: Pacing) {
    step.Restart? ==> Generous(step.engine.cfg, b)
  }

  lemma StepLasts(net: Net, wire: Wiring, step: Step, k: Key, b: Pacing)
    requires TimeInv(net, wire, k, b) && Paired(wire) && Enabled(net, wire, step) && Network.Windowed(net, k) && Prompt(net, k, b) && Configured(step, b)
    ensures TimeInv(Next(net, wire, step), wire, k, b)
  {
    hide Core, Apply, TimeInv, Kept, Paired, Network.Windowed, Prompt, Recovers;
    match step
    case Pass(time) => FewerOwed(net, net.(time := time), wire, k, b);
    case Act(n, e) =>
      if Timed(e) { EventKept(net, wire, n, e, Flight(0, 0, [], 0), k, b); } else { UntimedKept(net, wire, n, e, k, b); }
      KeptKeeps(net, wire, n, Moved(net, n, e).nodes[n], k, b);
    case Emit(n, cap) => EmitLasts(net, wire, n, cap, k, b);
    case Deliver(f) =>
      var n, e := wire(f.from, f.link).0, Landing(net, wire, f);
      EventKept(net, wire, n, e, f, k, b);
      KeptKeeps(net, wire, n, Moved(net, n, e).nodes[n], k, b);
    case Lose(f) => FewerOwed(net, net.(air := net.air - {f}), wire, k, b);
    case Restart(n, t) =>
      RestartKept(net, wire, n, t, k, b);
      KeptKeeps(net, wire, n, Node(t, net.time), k, b);
  }

  /** Timing alone makes a step fair. */
  lemma PromptIsFair(net: Net, wire: Wiring, step: Step, k: Key, b: Pacing)
    requires TimeInv(net, wire, k, b) && Enabled(net, wire, step) && Network.Windowed(net, k) && Prompt(net, k, b)
    ensures Fair(net, wire, step, k)
  {
    hide TimeInv, Network.Windowed, Prompt, Protected;
    match step
    case Act(n, e) => if Timed(e) { PromptIsProtected(net, wire, n, e.now, k, b); }
    case Deliver(f) => PromptIsProtected(net, wire, wire(f.from, f.link).0, Landing(net, wire, f).now, k, b);
    case _ =>
  }

  ghost predicate Punctual(net: Net, p: Prefix, router: u64, b: Pacing) {
    exists base :: Network.Windowed(net, Key(p, router, base)) && Prompt(net, Key(p, router, base), b)
  }

  ghost predicate PunctualRun(net: Net, wire: Wiring, steps: seq<Step>, p: Prefix, router: u64, b: Pacing)
    requires Possible(net, wire, steps)
    decreases |steps|
  {
    Punctual(net, p, router, b)
    && (steps == [] || (Configured(steps[0], b) && PunctualRun(Next(net, wire, steps[0]), wire, steps[1..], p, router, b)))
  }

  lemma TimeAnyBase(net: Net, wire: Wiring, p: Prefix, router: u64, x: u16, y: u16, b: Pacing)
    requires TimeInv(net, wire, Key(p, router, x), b)
    ensures TimeInv(net, wire, Key(p, router, y), b)
  {
    hide Core, Generous;
    var j, k := Key(p, router, x), Key(p, router, y);
    forall n: nat | Sender(net, n, k) ensures QueueLasts(net.nodes[n], k, b) && AllLast(net, wire, n, k, b) {
      assert Sender(net, n, j);
      assert AllLast(net, wire, n, j, b);
      forall until | Owed(net, wire, n, k, b, until) ensures Lasts(net.nodes[n], k, until) { OwedAnyBase(net, wire, n, p, router, x, y, b, until); }
      forall q | q in net.nodes[n].engine.msgs && Carries(q.message, k)
        ensures Lasts(net.nodes[n], k, Horizon(q.message, net.nodes[n].engine.now + net.nodes[n].skew, b))
      { assert Carries(q.message, j); }
    }
  }

  lemma OwedAnyBase(net: Net, wire: Wiring, n: nat, p: Prefix, router: u64, x: u16, y: u16, b: Pacing, until: int)
    requires Owed(net, wire, n, Key(p, router, y), b, until)
    ensures Owed(net, wire, n, Key(p, router, x), b, until)
  {
    hide Aboard;
    var j, k := Key(p, router, x), Key(p, router, y);
    if OwedForFlight(net, n, k, b, until) {
      var f, source, m :| f in net.air && f.from == n && Aboard(f.bytes, source, m) && Carried(f, m, k, b, until);
      assert Carried(f, m, j, b, until);
    } else {
      var m: nat, c :| HeardFrom(net, wire, n, k, m, c) && until == c.expires + net.nodes[m].skew + b.lag;
      assert HeardFrom(net, wire, n, j, m, c);
    }
  }

  lemma {:induction false} PunctualIsSane(net: Net, wire: Wiring, steps: seq<Step>, p: Prefix, router: u64, b: Pacing)
    requires TimeInv(net, wire, Key(p, router, 0), b) && Paired(wire) && Possible(net, wire, steps) && PunctualRun(net, wire, steps, p, router, b)
    ensures SaneRun(net, wire, steps, p, router) && TimeInv(After(net, wire, steps), wire, Key(p, router, 0), b)
    decreases |steps|
  {
    hide TimeInv, Paired, Enabled, Next, Fair, Network.Windowed, Prompt, Configured;
    if steps != [] {
      var base :| Network.Windowed(net, Key(p, router, base)) && Prompt(net, Key(p, router, base), b);
      var k := Key(p, router, base);
      TimeAnyBase(net, wire, p, router, 0, base, b);
      PromptIsFair(net, wire, steps[0], k, b);
      StepLasts(net, wire, steps[0], k, b);
      TimeAnyBase(Next(net, wire, steps[0]), wire, p, router, base, 0, b);
      PunctualIsSane(Next(net, wire, steps[0]), wire, steps[1..], p, router, b);
    }
  }

  lemma PristineTimed(net: Net, wire: Wiring, k: Key, b: Pacing)
    requires Pristine(net) && forall n :: 0 <= n < |net.nodes| ==> Generous(net.nodes[n].engine.cfg, b) && net.nodes[n].skew <= net.time
    ensures TimeInv(net, wire, k, b)
  {
    hide Generous;
    forall n | 0 <= n < |net.nodes|
      ensures Core(net.nodes[n].engine) && net.nodes[n].engine.cands == [] && net.nodes[n].engine.msgs == [] && net.nodes[n].engine.now == 0
    {
      var seqno :| net.nodes[n].engine == Init(net.nodes[n].engine.cfg, seqno);
      InitSteady(net.nodes[n].engine.cfg, seqno);
    }
  }

  ghost predicate Ready(net: Net, b: Pacing) {
    Pristine(net) && forall n :: 0 <= n < |net.nodes| ==> Generous(net.nodes[n].engine.cfg, b) && net.nodes[n].skew <= net.time
  }

  /** At every moment of a punctual run, whoever holds a finite candidate learned
      from a live neighbour that is not the origin: the neighbour's record is
      there and outlives the candidate by `lag`. */
  lemma RecordsOutlive(net: Net, wire: Wiring, steps: seq<Step>, p: Prefix, router: u64, b: Pacing, n: nat, m: nat, c: Candidate)
    requires Ready(net, b) && Paired(wire) && Possible(net, wire, steps) && PunctualRun(net, wire, steps, p, router, b)
    requires var r := After(net, wire, steps);
             Sender(r, n, Key(p, router, 0)) && HeardFrom(r, wire, n, Key(p, router, 0), m, c)
    ensures var r := After(net, wire, steps);
            var x := SourceFor(r.nodes[n].engine.sources, p, router);
            x.Some? && c.expires + r.nodes[m].skew + b.lag <= x.value.expires + r.nodes[n].skew
  {
    hide Paired, Possible, PunctualRun, After, Pristine, Core, QueueLasts, Generous, SaneRun;
    var k := Key(p, router, 0);
    PristineTimed(net, wire, k, b);
    PunctualIsSane(net, wire, steps, p, router, b);
    var r := After(net, wire, steps);
    assert AllLast(r, wire, n, k, b);
    assert Owed(r, wire, n, k, b, c.expires + r.nodes[m].skew + b.lag);
  }

  /** Loop freedom from timing and half circles alone. */
  lemma PunctualNeverLoops(net: Net, wire: Wiring, steps: seq<Step>, p: Prefix, router: u64, b: Pacing, path: seq<nat>)
    requires Ready(net, b) && Paired(wire) && Possible(net, wire, steps) && PunctualRun(net, wire, steps, p, router, b)
    ensures !Cycle(After(net, wire, steps), wire, p, router, path)
  {
    hide Paired, Possible, PunctualRun, After, Pristine, SaneRun, Cycle, Network.Windowed, Prompt, TimeInv;
    PristineTimed(net, wire, Key(p, router, 0), b);
    PunctualIsSane(net, wire, steps, p, router, b);
    PunctualEnd(net, wire, steps, p, router, b);
    var base :| Network.Windowed(After(net, wire, steps), Key(p, router, base)) && Prompt(After(net, wire, steps), Key(p, router, base), b);
    NeverLoops(net, wire, steps, p, router, base, path);
  }

  lemma {:induction false} PunctualEnd(net: Net, wire: Wiring, steps: seq<Step>, p: Prefix, router: u64, b: Pacing)
    requires Possible(net, wire, steps) && PunctualRun(net, wire, steps, p, router, b)
    ensures Punctual(After(net, wire, steps), p, router, b)
    decreases |steps|
  {
    hide Enabled, Next, Punctual, Configured;
    if steps != [] { PunctualEnd(Next(net, wire, steps[0]), wire, steps[1..], p, router, b); }
  }
}
