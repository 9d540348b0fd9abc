/** engine.c as it runs: one object whose tables are updated in place. Each
    routine is proved to be the function of the same name on the engine's state,
    and each public call to be one event of a run. */
module EngineCode {
  import opened Types
  import opened Prefixes
  import opened Seqno
  import opened EngineState
  import opened Engine
  import opened EngineEvents
  import opened Selection
  import opened Invariant
  import opened Settled
  import opened Packets
  import opened Runs
  import opened Storage
  import opened TableCode
  import WireCode

  /** v with the selected table replaced by the one under construction. */
  function Rebuilt(v: State, b: Build): (r: State) {
    v.(routes := b.routes, mem := v.mem.(routes := b.cap, asks := b.asks))
  }

  lemma {:induction false} QueueAllSnoc(s: State, ids: seq<u64>, x: u64, m: Message)
    ensures QueueAll(s, ids + [x], m) == Queue(QueueAll(s, ids, m), x, m)
    decreases |ids|
  {
    hide Queue;
    var all := ids + [x];
    if ids == [] {
      assert all[1..] == [];
    } else {
      assert all[1..] == ids[1..] + [x];
      QueueAllSnoc(Queue(s, ids[0], m), ids[1..], x, m);
    }
  }

  lemma {:induction false} QueueAllFrame(s: State, t: seq<Option<Pending>>, ids: seq<u64>, m: Message)
    ensures QueueAll(s.(requests := t), ids, m) == QueueAll(s, ids, m).(requests := t)
    decreases |ids|
  {
    hide Queue;
    if ids != [] {
      QueueFrame(s, t, ids[0], m);
      QueueAllFrame(Queue(s, ids[0], m), t, ids[1..], m);
    }
  }

  lemma QueueFrame(s: State, t: seq<Option<Pending>>, id: u64, m: Message)
    ensures Queue(s.(requests := t), id, m) == Queue(s, id, m).(requests := t)
  {
    hide Reserve, LinkAt;
  }

  lemma NoSlotNoGrowth<T(!new)>(cfg: Config, asks: nat, t: seq<Option<T>>, max: nat)
    ensures var (slot, u, n) := FreeSlot(cfg, asks, t, max); slot.None? ==> u == t
  {
  }

  lemma BeginLinks(s: State, now: nat)
    ensures Begin(s, now).1.links == s.links && Begin(s, now).1.locals == s.locals
  {
    hide Reserve, Aged;
  }

  /** `whole` is what filling gives when `done` is written and `rest` to come. */
  ghost predicate Fitted(whole: (bool, nat, seq<byte>), done: seq<byte>, rest: (bool, nat, seq<byte>)) {
    whole.0 == rest.0 && whole.1 == rest.1 && (whole.0 ==> whole.2 == done + rest.2)
  }

  lemma FittedOn(whole: (bool, nat, seq<byte>), done: seq<byte>, b: seq<byte>, rest: (bool, nat, seq<byte>))
    requires Fitted(whole, done, (rest.0, rest.1, b + rest.2))
    ensures Fitted(whole, done + b, rest)
  {
    assert done + (b + rest.2) == (done + b) + rest.2;
  }

  lemma FillStep(msgs: seq<Queued>, i: nat, link: u64, n: nat, max: nat)
    requires i <= |msgs|
    ensures i == |msgs| || msgs[i].link != link ==> Fill(msgs, i, link, n, max) == (true, i, [])
    ensures i < |msgs| && msgs[i].link == link ==>
      var b := Wire.Encoding(msgs[i].message);
      if b == [] || |b| + 4 > max then Fill(msgs, i, link, n, max) == (false, i, [])
      else if n + |b| > max then Fill(msgs, i, link, n, max) == (true, i, [])
      else
        var (ok, j, rest) := Fill(msgs, i + 1, link, n + |b|, max);
        Fill(msgs, i, link, n, max) == (ok, j, b + rest)
  {
    hide Wire.Encoding;
  }

  /** One eligible candidate against the table under construction. */
  function Weighed(cfg: Config, b: Build, x: Route, previous: u64): (r: (bool, Build)) {
    var k := RouteAt(b.routes, x.prefix);
    if k == |b.routes| then Engine.AddRoute(cfg, b, x)
    else if Preferred(x, b.routes[k], previous) then (true, b.(routes := b.routes[k := x]))
    else (true, b)
  }

  lemma PickCandsStep(s: State, prior: seq<Route>, b: Build, i: nat)
    requires i < |s.cands|
    ensures s.cands[i].None? || !Eligible(s, s.cands[i].value) ==> PickCands(s, prior, b, i) == PickCands(s, prior, b, i + 1)
    ensures s.cands[i].Some? && Eligible(s, s.cands[i].value) ==>
      var x := Selected(s, s.cands[i].value);
      var (ok, b') := Weighed(s.cfg, b, x, Previous(prior, x.prefix));
      PickCands(s, prior, b, i) == if ok then PickCands(s, prior, b', i + 1) else (false, b')
  {
    hide Eligible, Selected, Engine.AddRoute, RouteAt, Preferred;
  }

  lemma RefreshTimersStep(s: State, i: nat)
    requires i < |s.cands|
    ensures RefreshTimers(s, i) ==
      if s.cands[i].Some? && NeedsRefresh(s.routes, s.now, s.cands[i].value) then
        var c := s.cands[i].value;
        var t := Queue(s, c.route.link, RouteRequest(Some(c.route.prefix)));
        RefreshTimers(t.(cands := t.cands[i := Some(c.(refreshed := true))]), i + 1)
      else RefreshTimers(s, i + 1)
  {
    hide Queue, NeedsRefresh;
  }

  lemma SatisfyStep(s: State, i: nat)
    requires i < |s.requests|
    ensures SatisfyRequests(s, i) ==
      if s.requests[i].Some? && Answered(s.routes, s.requests[i].value) then
        var q := s.requests[i].value;
        var t := if q.from != 0 then Advertise(s, q.from, q.prefix, true) else s;
        SatisfyRequests(t.(requests := t.requests[i := None]), i + 1)
      else SatisfyRequests(s, i + 1)
  {
    hide Advertise, Answered;
  }

  lemma DistinctStep(ids: seq<u64>, j: nat)
    requires j < |ids|
    ensures Distinct(ids[..j + 1]) == if ids[j] in Distinct(ids[..j]) then Distinct(ids[..j]) else Distinct(ids[..j]) + [ids[j]]
  {
    assert ids[..j + 1][..j] == ids[..j];
  }

  lemma RequestTimersStep(s: State, i: nat)
    requires i < |s.requests|
    ensures RequestTimers(s, i) ==
      if s.requests[i].Some? && s.requests[i].value.remaining > 0 && s.requests[i].value.next <= s.now then
        var q := s.requests[i].value;
        var t := QueueAll(s, q.targets, Question(q));
        RequestTimers(t.(requests := t.requests[i := Some(q.(remaining := q.remaining - 1, next := s.now + 1000))]), i + 1)
      else RequestTimers(s, i + 1)
  {
    hide QueueAll;
  }

  function Opened(s: State, at: nat, cap: nat): (r: State) {
    s.(mem := s.mem.(before := cap, messages := 0), before := s.routes, msgs := [], ctl := s.ctl.(cursor := 0, ready := false), now := at)
  }

  function Installation(t: State, k: nat, l: LinkConfig, m: Message): (r: State)
    requires m.Update? && m.target.Some? && k < |t.cands|
  {
    var t1 := if t.cands[k].Some? && t.cands[k].value.route.router != m.router then Trigger(t, true) else t;
    var c := Learned(t, l.id, m);
    Chase(t1.(cands := t1.cands[k := Some(c)]), l.id, c)
  }

  /** A finite update that no rule refuses. */
  function Adopted(s: State, l: LinkConfig, m: Message): (r: State)
    requires m.Update? && m.target.Some?
  {
    var (slot, t) := CandSlot(s, m.target.value, l.id);
    if slot.None? then t else Installation(t, slot.value, l, m)
  }

  lemma LearnsFinite(s: State, l: LinkConfig, m: Message)
    requires m.Update? && m.target.Some? && m.metric != INFINITY
    ensures LearnUpdate(s, l, m) == if Refused(s, l, m) then s else Adopted(s, l, m)
  {
    hide CandSlot, Refused, Chase, Trigger;
  }

  /** A packet for a link that is there and a buffer that is large enough. */
  function Shipped(s: State, link: u64, max: nat): (r: (Status, Option<Parcel>, State))
    requires s.ctl.cursor <= |s.msgs|
    ensures r.1.Some? ==> r.1.value.link == link
  {
    var (ok, j, body) := Fill(s.msgs, s.ctl.cursor, link, 4, max);
    if !ok then (Stopped, None, s.(stopped := true, ctl := s.ctl.(cursor := j)))
    else (Ok, Some(Parcel(link, [42, 2] + Wire.Put(|body|, 2) + body)), Advanced(s, j))
  }

  lemma Shipping(s: State, cap: nat)
    ensures Packets.NextPacket(s, cap) ==
      if s.stopped then (Stopped, None, s)
      else if s.ctl.pending != 0 || !s.ctl.ready then (Busy, None, s)
      else if s.ctl.cursor >= |s.msgs| then (Ok, None, s)
      else
        var link := s.msgs[s.ctl.cursor].link;
        var li := LinkAt(s.links, link);
        if li == |s.links| || cap < s.links[li].value.config.maxPacket then (Invalid, None, s)
        else Shipped(s, link, s.links[li].value.config.maxPacket)
  {
    hide Wire.Put, Fill, LinkAt;
  }

  predicate Names(r: Route, p: Prefix, router: u64, seqno: u16) {
    r.prefix == p && r.router == router && r.seqno == seqno
  }

  class Babel {
    const cfg: Config
    var now: nat
    var mem: Memory
    var pace: Pace
    var ctl: Control
    var lastLink: u64
    var seqno: u16
    var stopped: bool
    var links: seq<Option<Link>>
    var cands: seq<Option<Candidate>>
    var sources: seq<Option<Source>>
    var locals: seq<Option<Local>>
    var drops: seq<Option<Drop>>
    var requests: seq<Option<Pending>>
    var routes: seq<Route>
    var before: seq<Route>
    var msgs: seq<Queued>

    ghost function View(): (s: State)
      reads this
    {
      State(cfg, now, mem, pace, ctl, lastLink, seqno, stopped, links, cands, sources, locals, drops, requests, routes, before, msgs)
    }

    ghost predicate Valid()
      reads this
    {
      Core(View())
    }

    constructor (cfg: Config, seqno: u16)
      ensures View() == Init(cfg, seqno)
    {
      this.cfg, this.seqno := cfg, seqno;
      now, lastLink, stopped := 0, 0, false;
      mem, pace, ctl := Memory(0, 0, 0, 0, 0), Pace(false, 0, 0, 0), Control(0, 0, true, 0);
      links, cands, sources, locals, drops, requests := [], [], [], [], [], [];
      routes, before, msgs := [], [], [];
    }

    // ----- Costs and timing

    method Draw(max: nat) returns (j: nat)
      modifies this`pace
      ensures j == Jitter(old(View()), max) && View() == Drawn(old(View()))
    {
      j := cfg.draw(pace.draws) % (max + 1);
      pace := pace.(draws := pace.draws + 1);
    }

    method Trigger(repeat: bool)
      modifies this`pace
      ensures View() == Engine.Trigger(old(View()), repeat)
    {
      if !pace.on {
        var j := Draw(50);
        pace := pace.(on := true, at := now + j);
      }
      if repeat { pace := pace.(repeats := 2); }
    }

    method Cost(id: u64, at: nat) returns (r: u16)
      ensures r == CostAt(links, id, at)
    {
      var i := FindLink(links, id);
      if i == |links| { return INFINITY; }
      var l := links[i].value;
      if l.ihuExpires <= at || l.tx == INFINITY || (l.multicast.expires <= at && l.unicast.expires <= at) { return INFINITY; }
      r := if l.config.cost > l.tx then l.config.cost else AtLeastOne(l.tx);
    }

    method MetricOf(c: Candidate) returns (r: u16)
      ensures r == Metric(View(), c)
    {
      if !cfg.allow(c.route.router, c.route.prefix, c.route.seqno) { return INFINITY; }
      var cost := Cost(c.route.link, now);
      r := AddCost(c.advertised, cost);
    }

    method SourceOf(p: Prefix, router: u64) returns (r: Option<Source>)
      ensures r == SourceFor(sources, p, router)
    {
      var i := FindSource(sources, p, router);
      r := if i < |sources| then sources[i] else None;
    }

    method RouteOf(p: Prefix) returns (r: Option<Route>)
      ensures r == RouteFor(routes, p)
    {
      var i := FindRoute(routes, p);
      r := if i < |routes| then Some(routes[i]) else None;
    }

    method IsFeasible(c: Candidate) returns (r: bool)
      ensures r == Feasible(sources, c)
    {
      var src := SourceOf(c.route.prefix, c.route.router);
      r := c.advertised == INFINITY || src.None? || Newer(c.route.seqno, src.value.seqno)
           || (c.route.seqno == src.value.seqno && c.advertised < src.value.metric);
    }

    // ----- Output

    method Queue(id: u64, m: Message)
      modifies this`msgs, this`mem
      ensures View() == Engine.Queue(old(View()), id, m)
    {
      var i := FindLink(links, id);
      if i == |links| || |msgs| >= cfg.limits.messages { return; }
      var ok, cap, asks := ReserveSlots(cfg, mem.asks, mem.messages, |msgs| + 1, cfg.limits.messages);
      mem := mem.(asks := asks);
      if ok {
        mem := mem.(messages := cap);
        msgs := msgs + [Queued(id, m)];
      }
    }

    method QueueAll(ids: seq<u64>, m: Message)
      modifies this`msgs, this`mem
      ensures View() == Engine.QueueAll(old(View()), ids, m)
    {
      hide Engine.Queue;
      var j := 0;
      while j < |ids|
        invariant j <= |ids| && Engine.QueueAll(View(), ids[j..], m) == Engine.QueueAll(old(View()), ids, m)
      {
        assert ids[j..][0] == ids[j] && ids[j..][1..] == ids[j + 1..];
        Queue(ids[j], m);
        j := j + 1;
      }
    }

    /** The distance about to be announced goes on record first. */
    method Record(r: Route) returns (ok: bool)
      modifies this`sources, this`mem
      ensures (ok, View()) == Engine.Record(old(View()), r)
    {
      hide FreeSlot;
      var i := FindSource(sources, r.prefix, r.router);
      ghost var base := sources;
      if i == |sources| {
        var slot, t, asks := TakeSlot(cfg, mem.asks, sources, cfg.limits.sources);
        mem := mem.(asks := asks);
        if slot.None? { return false; }
        i := slot.value;
        base := t;
        sources := t[i := Some(Source(r.prefix, r.router, r.seqno, r.metric, 0))];
      }
      var x := sources[i].value;
      if Newer(r.seqno, x.seqno) || (r.seqno == x.seqno && r.metric < x.metric) {
        x := x.(seqno := r.seqno, metric := r.metric);
      }
      sources := sources[i := Some(x.(expires := now + cfg.source))];
      assert sources == base[i := sources[i]];
      ok := true;
    }

    method Advertise(id: u64, p: Prefix, explicit: bool)
      modifies this`msgs, this`mem, this`sources
      ensures View() == Engine.Advertise(old(View()), id, p, explicit)
    {
      hide Engine.Queue, Engine.Record;
      var li := FindLink(links, id);
      if li == |links| { return; }
      var found := RouteOf(p);
      if found.None? || found.value.unreachable {
        Queue(id, Update(Some(p), 0, 0, INFINITY, cfg.update / 10, false, NoAddress));
        return;
      }
      var r := found.value;
      if !explicit && r.link == id { return; }
      var ipv4 := links[li].value.config.ipv4;
      var via6 := false;
      var hop := NoAddress;
      if p.family == 4 {
        if !ZeroBytes(ipv4) {
          hop := V4(ipv4);
        } else if cfg.via6 {
          via6 := true;
        } else {
          return;
        }
      }
      var ok := Record(r);
      if ok { Queue(id, Update(Some(p), r.router, r.seqno, r.metric, cfg.update / 10, via6, hop)); }
    }

    method Dump(id: u64, explicit: bool)
      modifies this`msgs, this`mem, this`sources
      ensures View() == Engine.Dump(old(View()), id, explicit, 0)
    {
      hide Engine.Advertise;
      var i := 0;
      while i < |routes|
        invariant i <= |routes| && Engine.Dump(View(), id, explicit, i) == Engine.Dump(old(View()), id, explicit, 0)
      {
        Advertise(id, routes[i].prefix, explicit);
        i := i + 1;
      }
    }

    // ----- Sequence-number requests

    method ClaimRequest(i: nat, free: Option<nat>, ghost p: Prefix, ghost router: u64) returns (slot: Option<nat>)
      requires i == RequestAt(requests, p, router) && (i == |requests| ==> free == FreeIn(requests))
      modifies this`mem, this`requests
      ensures (slot, requests, mem.asks) == RequestSlot(old(View()), p, router)
      ensures View() == old(View()).(requests := requests, mem := old(mem).(asks := mem.asks)) && (slot.None? ==> requests == old(requests))
    {
      hide FreeSlot;
      if i < |requests| { return Some(i); }
      var t, asks;
      slot, t, asks := GrowIfFull(cfg, mem.asks, requests, cfg.limits.requests, free);
      mem := mem.(asks := asks);
      requests := t;
      NoSlotNoGrowth(cfg, old(mem).asks, old(requests), cfg.limits.requests);
    }

    method Request(p: Prefix, router: u64, wanted: u16, ids: seq<u64>, from: u64, hops: byte)
      modifies this`msgs, this`mem, this`requests
      ensures View() == Engine.Request(old(View()), p, router, wanted, ids, from, hops)
    {
      hide RequestSlot, Engine.QueueAll, Distinct, RequestAt;
      ghost var q := Asking(View(), p, router, wanted, ids, from, hops);
      var i, free := FindRequest(requests, p, router);
      if i < |requests| && AtLeast(requests[i].value.seqno, wanted) { return; }
      var slot := ClaimRequest(i, free, p, router);
      if slot.None? { return; }
      var k := slot.value;
      ghost var base := requests;
      requests := requests[k := Some(Pending(p, router, wanted, hops, [], from, now + 1000, now + 4000, 2))];
      assert requests[k := Some(q)] == base[k := Some(q)];
      AskEach(k, ids);
    }

    /** Each distinct target is noted and sent its first copy at once. */
    method AskEach(k: nat, ids: seq<u64>)
      requires k < |requests| && requests[k].Some? && requests[k].value.targets == []
      modifies this`msgs, this`mem, this`requests
      ensures var q := old(requests[k].value).(targets := Distinct(if |ids| <= cfg.limits.links then ids else ids[..cfg.limits.links]));
              View() == Engine.QueueAll(old(View()).(requests := old(requests)[k := Some(q)]), q.targets, Question(q))
    {
      hide Engine.Queue, Engine.QueueAll, Distinct;
      ghost var s := View();
      ghost var q0 := requests[k].value;
      var j := 0;
      assert ids[..0] == [] && s.requests[k := Some(q0.(targets := []))] == s.requests;
      NoneQueued(s, Question(q0));
      assert Distinct([]) == [] by { NoneDistinct(); }
      while j < |ids| && j < cfg.limits.links
        invariant j <= |ids| && j <= cfg.limits.links
        invariant requests == s.requests[k := Some(q0.(targets := Distinct(ids[..j])))]
        invariant View() == Engine.QueueAll(s.(requests := requests), Distinct(ids[..j]), Question(q0))
      {
        var q := requests[k].value;
        DistinctStep(ids, j);
        if ids[j] !in q.targets {
          ghost var done := q.targets;
          q := q.(targets := q.targets + [ids[j]]);
          QueueAllFrame(s.(requests := requests), requests[k := Some(q)], done, Question(q0));
          requests := requests[k := Some(q)];
          QueueAllSnoc(s.(requests := requests), done, ids[j], Question(q0));
          Queue(ids[j], Question(q));
        }
        j := j + 1;
      }
      assert ids[..j] == if |ids| <= cfg.limits.links then ids else ids[..cfg.limits.links];
    }

    lemma NoneDistinct()
      ensures Distinct([]) == []
    {
    }

    lemma NoneQueued(s: State, m: Message)
      ensures Engine.QueueAll(s, [], m) == s
    {
    }

    // ----- Route selection

    ghost function Built(): (b: Build)
      reads this
    {
      Build(routes, mem.routes, mem.asks)
    }

    method AddRoute(r: Route) returns (ok: bool)
      modifies this`routes, this`mem
      ensures (ok, Built()) == Engine.AddRoute(cfg, old(Built()), r)
      ensures View() == Rebuilt(old(View()), Built())
    {
      var cap, asks;
      ok, cap, asks := ReserveSlots(cfg, mem.asks, mem.routes, |routes| + 1, cfg.limits.routes);
      mem := mem.(routes := cap, asks := asks);
      if ok { routes := routes + [r]; }
    }

    method PickLocals(ghost s: State) returns (ok: bool)
      requires View() == s.(routes := routes, mem := mem)
      modifies this`routes, this`mem
      ensures (ok, Built()) == Engine.PickLocals(s, old(Built()), 0)
      ensures View() == Rebuilt(old(View()), Built())
    {
      hide Engine.AddRoute;
      var i := 0;
      while i < |locals|
        invariant i <= |locals| && View() == Rebuilt(old(View()), Built())
        invariant Engine.PickLocals(s, Built(), i) == Engine.PickLocals(s, old(Built()), 0)
      {
        if locals[i].Some? {
          var l := locals[i].value;
          ok := AddRoute(Route(l.prefix, cfg.router, 0, seqno, l.metric, true, false, NoAddress));
          if !ok { return; }
        }
        i := i + 1;
      }
      ok := true;
    }

    /** May candidate c be selected, and at what metric? */
    method Judge(c: Candidate) returns (ok: bool, m: u16)
      ensures ok == Eligible(View(), c) && (ok ==> m == Metric(View(), c))
    {
      m := INFINITY;
      var li := FindLocal(locals, c.route.prefix);
      if li < |locals| { return false, m; }
      m := MetricOf(c);
      if m == INFINITY { return false, m; }
      ok := IsFeasible(c);
    }

    method Weigh(x: Route, previous: u64) returns (ok: bool)
      modifies this`routes, this`mem
      ensures (ok, Built()) == Weighed(cfg, old(Built()), x, previous)
      ensures View() == Rebuilt(old(View()), Built())
    {
      hide Engine.AddRoute, RouteAt;
      var k := FindRoute(routes, x.prefix);
      if k == |routes| {
        ok := AddRoute(x);
        return;
      }
      var y := routes[k];
      if x.metric < y.metric || (x.metric == y.metric && (x.link == previous || (y.link != previous && x.link < y.link))) {
        routes := routes[k := x];
      }
      ok := true;
    }

    method PickCands(ghost s: State, prior: seq<Route>) returns (ok: bool)
      requires View() == s.(routes := routes, mem := mem)
      modifies this`routes, this`mem
      ensures (ok, Built()) == Engine.PickCands(s, prior, old(Built()), 0)
      ensures View() == Rebuilt(old(View()), Built())
    {
      hide Weighed, Feasible, CostAt, RouteAt, Engine.PickCands;
      var i := 0;
      while i < |cands|
        invariant i <= |cands| && View() == Rebuilt(old(View()), Built())
        invariant Engine.PickCands(s, prior, Built(), i) == Engine.PickCands(s, prior, old(Built()), 0)
      {
        PickCandsStep(s, prior, Built(), i);
        if cands[i].Some? {
          var c := cands[i].value;
          var fit, m := Judge(c);
          assert fit == Eligible(s, c);
          if fit {
            var o := FindRoute(prior, c.route.prefix);
            ok := Weigh(c.route.(metric := m), if o < |prior| then prior[o].link else 0);
            if !ok { return; }
          }
        }
        i := i + 1;
      }
      PickCandsEnd(s, prior, Built());
      ok := true;
    }

    lemma PickCandsEnd(s: State, prior: seq<Route>, b: Build)
      ensures Engine.PickCands(s, prior, b, |s.cands|) == (true, b)
    {
    }

    method DropRoute(p: Prefix)
      modifies this`drops, this`mem, this`stopped
      ensures View() == Engine.DropRoute(old(View()), p)
    {
      hide FreeSlot;
      var i := FindDrop(drops, p);
      if i == |drops| {
        var slot, t, asks := TakeSlot(cfg, mem.asks, drops, cfg.limits.routes);
        mem := mem.(asks := asks);
        if slot.None? {
          stopped := true;
          return;
        }
        i, drops := slot.value, t;
      }
      drops := drops[i := Some(Drop(p, now + Hold(cfg.update)))];
    }

    method FindAskable(p: Prefix) returns (targets: seq<u64>)
      ensures targets == Askable(View(), p, |cands|)
    {
      hide CostAt;
      targets := [];
      var j := 0;
      while j < |cands|
        invariant j <= |cands| && targets == Askable(View(), p, j)
      {
        if cands[j].Some? {
          var c := cands[j].value;
          var cost := Cost(c.route.link, now);
          if c.route.prefix == p && c.advertised != INFINITY && cost != INFINITY && |targets| < cfg.limits.links {
            targets := targets + [c.route.link];
          }
        }
        j := j + 1;
      }
    }

    /** Ask the neighbours that still announce a lost prefix. */
    method Seek(o: Route)
      modifies this`msgs, this`mem, this`requests
      ensures View() == Engine.Seek(old(View()), o)
    {
      hide Askable, Engine.Request;
      var src := SourceOf(o.prefix, o.router);
      if src.None? { return; }
      var targets := FindAskable(o.prefix);
      if targets != [] { Request(o.prefix, o.router, (src.value.seqno + 1) % 0x1_0000, targets, 0, 64); }
    }

    method SuppressLost(prior: seq<Route>)
      modifies this`drops, this`mem, this`stopped, this`pace, this`requests, this`msgs
      ensures View() == Engine.SuppressLost(old(View()), prior, 0)
    {
      hide Engine.DropRoute, Engine.Trigger, Engine.Seek, RouteFor;
      var i := 0;
      while i < |prior|
        invariant i <= |prior| && routes == old(routes)
        invariant Engine.SuppressLost(View(), prior, i) == Engine.SuppressLost(old(View()), prior, 0)
      {
        var r := RouteOf(prior[i].prefix);
        if !prior[i].unreachable && r.None? {
          DropRoute(prior[i].prefix);
          Trigger(true);
          Seek(prior[i]);
        }
        i := i + 1;
      }
    }

    method KeepDrops() returns (ok: bool)
      modifies this`routes, this`mem, this`drops
      ensures (ok, Built(), drops) == Engine.KeepDrops(old(View()), old(Built()), old(drops), 0)
      ensures View() == Rebuilt(old(View()), Built()).(drops := drops)
    {
      hide Engine.AddRoute, RouteFor;
      var i := 0;
      while i < |drops|
        invariant i <= |drops| && View() == Rebuilt(old(View()), Built()).(drops := drops)
        invariant Engine.KeepDrops(old(View()), Built(), drops, i) == Engine.KeepDrops(old(View()), old(Built()), old(drops), 0)
      {
        if drops[i].Some? {
          var d := drops[i].value;
          var r := RouteOf(d.prefix);
          if r.Some? || d.expires <= now {
            drops := drops[i := None];
          } else {
            ok := AddRoute(Route(d.prefix, 0, 0, 0, INFINITY, false, true, NoAddress));
            if !ok { return; }
          }
        }
        i := i + 1;
      }
      ok := true;
    }

    method SortRoutes()
      modifies this`routes
      ensures View() == old(View()).(routes := Sorted(old(routes)))
    {
      hide Sorted;
      var t := routes;
      var a := new Route[|t|](i requires 0 <= i < |t| => t[i]);
      assert a[..] == t;
      SortInPlace(a);
      routes := a[..];
    }

    method NoteChanges(prior: seq<Route>)
      modifies this`pace
      ensures View() == Engine.NoteChanges(old(View()), prior, 0)
    {
      hide Engine.Trigger, RouteAt;
      var i := 0;
      while i < |routes|
        invariant i <= |routes| && Engine.NoteChanges(View(), prior, i) == Engine.NoteChanges(old(View()), prior, 0)
      {
        var r := routes[i];
        var j := FindRoute(prior, r.prefix);
        if j == |prior| || prior[j].router != r.router || prior[j].unreachable != r.unreachable {
          Trigger(true);
        } else if prior[j].metric != r.metric || prior[j].seqno != r.seqno {
          Trigger(false);
        }
        i := i + 1;
      }
    }

    method SatisfyRequests()
      modifies this`msgs, this`mem, this`sources, this`requests
      ensures View() == Engine.SatisfyRequests(old(View()), 0)
    {
      hide Engine.Advertise, RouteFor, Engine.SatisfyRequests;
      var i := 0;
      while i < |requests|
        invariant i <= |requests|
        invariant Engine.SatisfyRequests(View(), i) == Engine.SatisfyRequests(old(View()), 0)
      {
        SatisfyStep(View(), i);
        if requests[i].Some? {
          var q := requests[i].value;
          var r := RouteOf(q.prefix);
          if r.Some? && !r.value.unreachable && (r.value.router != q.router || AtLeast(r.value.seqno, q.seqno)) {
            if q.from != 0 { Advertise(q.from, q.prefix, true); }
            requests := requests[i := None];
          }
        }
        i := i + 1;
      }
      SatisfyEnd(View());
    }

    lemma SatisfyEnd(s: State)
      ensures Engine.SatisfyRequests(s, |s.requests|) == s
    {
    }

    method Abandon()
      modifies this`stopped, this`mem
      ensures View() == old(View()).(stopped := true, mem := old(mem).(scratch := 0))
    {
      stopped := true;
      mem := mem.(scratch := 0);
    }

    method SelectRoutes()
      modifies this
      ensures View() == Engine.SelectRoutes(old(View()))
    {
      hide Engine.PickLocals, Engine.PickCands, Engine.SuppressLost, Engine.KeepDrops, Sorted, Engine.NoteChanges, Engine.SatisfyRequests, Reserve;
      if stopped { return; }
      ghost var s := View();
      var ok, cap, asks := ReserveSlots(cfg, mem.asks, mem.scratch, |routes|, cfg.limits.routes);
      mem := mem.(asks := asks);
      if !ok {
        stopped := true;
        return;
      }
      mem := mem.(scratch := cap);
      var prior := routes;
      routes := [];
      ok := PickLocals(s);
      if ok { ok := PickCands(s, prior); }
      if !ok {
        Abandon();
        return;
      }
      SuppressLost(prior);
      ok := KeepDrops();
      if !ok {
        Abandon();
        return;
      }
      SortRoutes();
      NoteChanges(prior);
      SatisfyRequests();
      if stopped { mem := mem.(scratch := 0); }
    }

    // ----- Received messages

    /** One pass over the candidates of a link: its entry for the target and the
        first free slot, or, for the wildcard, the retraction of all of them. */
    method ScanCands(link: u64, target: Option<Prefix>) returns (found: Option<nat>, free: Option<nat>)
      requires DistinctCands(cands)
      modifies this`cands
      ensures target.None? ==> cands == RetractLink(old(cands), link)
      ensures target.Some? ==> cands == old(cands) && free == FreeIn(cands)
      ensures target.Some? ==> found == if CandAt(cands, target.value, link) < |cands| then Some(CandAt(cands, target.value, link)) else None
    {
      ghost var t := cands;
      found, free := None, None;
      var i := 0;
      while i < |cands|
        invariant i <= |cands| == |t| && (target.Some? ==> cands == t)
        invariant forall k :: i <= k < |t| ==> cands[k] == t[k]
        invariant target.None? ==> forall k :: 0 <= k < i ==> cands[k] == RetractLink(t, link)[k]
        invariant free.None? ==> forall k :: 0 <= k < i ==> t[k].Some?
        invariant free.Some? ==> free.value < i && t[free.value].None? && forall k :: 0 <= k < free.value ==> t[k].Some?
        invariant found.Some? ==> target.Some? && found.value < i && t[found.value].Some?
                                  && t[found.value].value.route.prefix == target.value && t[found.value].value.route.link == link
        invariant found.None? && target.Some? ==>
          forall k :: 0 <= k < i && t[k].Some? ==> !(t[k].value.route.prefix == target.value && t[k].value.route.link == link)
      {
        if cands[i].None? {
          if free.None? { free := Some(i); }
        } else if cands[i].value.route.link == link {
          if target.None? {
            cands := cands[i := Some(cands[i].value.(advertised := INFINITY))];
          } else if cands[i].value.route.prefix == target.value {
            found := Some(i);
          }
        }
        i := i + 1;
      }
    }

    method IsRecordable(p: Prefix, router: u64) returns (r: bool)
      ensures r == Recordable(View(), p, router)
    {
      var src := SourceOf(p, router);
      if src.Some? { return true; }
      var space := false;
      var i := 0;
      while i < |sources|
        invariant i <= |sources| && (space <==> exists k :: 0 <= k < i && sources[k].None?)
      {
        space := space || sources[i].None?;
        i := i + 1;
      }
      r := space || |sources| < cfg.limits.sources;
    }

    method IsAdmissible(p: Prefix) returns (r: bool)
      requires DistinctLocals(locals) && DistinctDrops(drops)
      ensures r == Admissible(View(), p)
    {
      hide CandPrefixes, LocalPrefixes, DropPrefixes;
      var a := KnownToCands(cands, p);
      var b := KnownToLocals(locals, p);
      var c := KnownToDrops(drops, p);
      if a || b || c { return true; }
      var n := AdmissionCount(cands, locals, drops);
      r := n < cfg.limits.routes;
    }

    method IsRefused(l: LinkConfig, m: Message) returns (r: bool)
      requires m.Update? && m.target.Some?
      ensures r == Refused(View(), l, m)
    {
      hide Recordable, Routable;
      var p := m.target.value;
      if !Routable(p) || !cfg.allow(m.router, p, m.seqno) || m.router == cfg.router || (m.via6 && !cfg.via6)
         || (m.nextHop.V6? && m.nextHop.v6 != l.peer) {
        return true;
      }
      var room := IsRecordable(p, m.router);
      r := !room;
    }

    method Chase(link: u64, c: Candidate)
      modifies this`msgs, this`mem, this`requests
      ensures View() == EngineEvents.Chase(old(View()), link, c)
    {
      hide Feasible, Metric, Engine.Request, RouteFor, SourceFor;
      var fit := IsFeasible(c);
      if fit { return; }
      var src := SourceOf(c.route.prefix, c.route.router);
      var sel := RouteOf(c.route.prefix);
      var m := MetricOf(c);
      if src.Some? && (sel.None? || sel.value.unreachable || sel.value.link == link || m < sel.value.metric) {
        Request(c.route.prefix, c.route.router, (src.value.seqno + 1) % 0x1_0000, [link], 0, 64);
      }
    }

    /** The slot of an update: the neighbour's own, or a new one if admitted. */
    method ClaimCand(p: Prefix, ghost link: u64, found: Option<nat>, free: Option<nat>) returns (slot: Option<nat>)
      requires DistinctLocals(locals) && DistinctDrops(drops) && free == FreeIn(cands)
      requires found == if CandAt(cands, p, link) < |cands| then Some(CandAt(cands, p, link)) else None
      modifies this`cands, this`mem
      ensures (slot, View()) == CandSlot(old(View()), p, link)
    {
      hide FreeSlot, Admissible, DistinctLocals, DistinctDrops;
      if found.Some? { return found; }
      var room := IsAdmissible(p);
      if !room { return None; }
      var t, asks;
      slot, t, asks := GrowIfFull(cfg, mem.asks, cands, cfg.limits.candidates, free);
      mem := mem.(asks := asks);
      cands := t;
    }

    method Install(k: nat, l: LinkConfig, m: Message)
      requires m.Update? && m.target.Some? && k < |cands| && (cands[k].Some? ==> cands[k].value.route.router != 0)
      modifies this`msgs, this`mem, this`requests, this`cands, this`pace
      ensures View() == Installation(old(View()), k, l, m)
    {
      hide EngineEvents.Chase, Engine.Trigger;
      var was := if cands[k].Some? then cands[k].value.route.router else 0;
      if was != 0 && was != m.router { Trigger(true); }
      var c := Candidate(Route(m.target.value, m.router, l.id, m.seqno, 0, false, false, m.nextHop), m.metric,
                         now + Hold(m.interval * 10), m.interval * 10, false);
      cands := cands[k := Some(c)];
      Chase(l.id, c);
    }

    method LearnUpdate(l: LinkConfig, m: Message)
      requires m.Update? && Valid()
      modifies this`msgs, this`mem, this`requests, this`cands, this`pace
      ensures View() == EngineEvents.LearnUpdate(old(View()), l, m)
    {
      hide Core, Adopted, Refused, RetractLink, CandAt, FreeIn, DistinctCands, EngineEvents.Chase, CandSlot;
      CoreShape(View());
      if m.target.Some? && m.metric != INFINITY { LearnsFinite(View(), l, m); }
      var found, free := ScanCands(l.id, m.target);
      if m.target.None? { return; }
      var p := m.target.value;
      if m.metric == INFINITY {
        if found.Some? { cands := cands[found.value := Some(cands[found.value].value.(advertised := INFINITY))]; }
        return;
      }
      var bad := IsRefused(l, m);
      if !bad { Adopt(l, m, found, free); }
    }

    method Adopt(l: LinkConfig, m: Message, found: Option<nat>, free: Option<nat>)
      requires Valid() && m.Update? && m.target.Some? && free == FreeIn(cands)
      requires var i := CandAt(cands, m.target.value, l.id); found == if i < |cands| then Some(i) else None
      modifies this`msgs, this`mem, this`requests, this`cands, this`pace
      ensures View() == Adopted(old(View()), l, m)
    {
      hide Core, CandSlot, CandAt, FreeIn, DistinctCands, DistinctLocals, DistinctDrops, Installation;
      CoreShape(View());
      SlotRouter(View(), m.target.value, l.id);
      var slot := ClaimCand(m.target.value, l.id, found, free);
      if slot.Some? { Install(slot.value, l, m); }
    }

    lemma SlotRouter(s: State, p: Prefix, link: u64)
      requires Core(s)
      ensures var (slot, t) := CandSlot(s, p, link);
              slot.Some? && t.cands[slot.value].Some? ==> t.cands[slot.value].value.route.router != 0
    {
      hide Core, CandOk;
      CandSlotKeeps(s, p, link);
      var (slot, t) := CandSlot(s, p, link);
      CoreShape(t);
      if slot.Some? && t.cands[slot.value].Some? {
        assert t.cands[slot.value] in t.cands;
        CandRouter(t.cands[slot.value].value, t.cfg.router, t.now, t.lastLink);
      }
    }

    lemma CandRouter(c: Candidate, router: u64, now: nat, last: u64)
      requires CandOk(c, router, now, last)
      ensures c.route.router != 0
    {
    }

    method FindRelay(p: Prefix, from: u64) returns (best: Option<Candidate>)
      ensures best == Relay(View(), p, from, |cands|)
    {
      hide Feasible, Metric;
      best := None;
      var i := 0;
      while i < |cands|
        invariant i <= |cands| && best == Relay(View(), p, from, i)
      {
        if cands[i].Some? {
          var c := cands[i].value;
          var m := MetricOf(c);
          if c.route.prefix == p && c.route.link != from && m != INFINITY {
            if best.None? {
              best := Some(c);
            } else {
              var f := IsFeasible(c);
              var g := IsFeasible(best.value);
              var n := MetricOf(best.value);
              if (f && !g) || (f == g && (m < n || (m == n && c.route.link < best.value.route.link))) { best := Some(c); }
            }
          }
        }
        i := i + 1;
      }
    }

    method Forward(from: u64, m: Message)
      requires m.SeqRequest? && m.target.Some?
      modifies this`msgs, this`mem, this`requests
      ensures View() == EngineEvents.Forward(old(View()), from, m)
    {
      hide Relay, Engine.Request;
      if m.router == cfg.router || m.hops < 2 { return; }
      var p := m.target.value;
      var i := Search(sources, (x: Source) => x.prefix == p);
      assert (i < |sources|) == Recorded(sources, p);
      if i == |sources| { return; }
      var best := FindRelay(p, from);
      if best.Some? { Request(p, m.router, m.seqno, [best.value.route.link], from, m.hops - 1); }
    }

    method AnswerSeqRequest(from: u64, m: Message)
      requires m.SeqRequest? && m.target.Some?
      modifies this
      ensures View() == EngineEvents.AnswerSeqRequest(old(View()), from, m)
    {
      hide Engine.SelectRoutes, Engine.Advertise, EngineEvents.Forward, RouteFor;
      var p := m.target.value;
      var r := RouteOf(p);
      if r.Some? && !r.value.unreachable {
        if r.value.router != m.router || AtLeast(r.value.seqno, m.seqno) {
          Advertise(from, p, true);
          return;
        }
        if r.value.local {
          seqno := (seqno + 1) % 0x1_0000;
          SelectRoutes();
          Advertise(from, p, true);
          return;
        }
      }
      Forward(from, m);
    }

    method AnswerRequest(li: nat, target: Option<Prefix>)
      requires li < |links| && links[li].Some?
      modifies this
      ensures View() == EngineEvents.AnswerRequest(old(View()), li, target)
    {
      hide Engine.SelectRoutes, Engine.Advertise, Engine.Dump;
      SelectRoutes();
      var l := links[li].value;
      if target.Some? {
        Advertise(l.config.id, target.value, true);
      } else if !l.dumped || now - l.lastDump >= HelloMs(cfg, l) {
        Dump(l.config.id, true);
        links := links[li := Some(l.(lastDump := now, dumped := true))];
      }
    }

    method ReceiveMessage(li: nat, m: Message)
      requires Valid() && li < |links| && links[li].Some?
      modifies this
      ensures View() == EngineEvents.ReceiveMessage(old(View()), li, m)
    {
      hide Engine.SelectRoutes, EngineEvents.AnswerRequest, EngineEvents.AnswerSeqRequest, EngineEvents.LearnUpdate, Engine.Queue, HearNeighbour;
      var l := links[li].value;
      if stopped || (cfg.localOnly && m.SeqRequest? && m.router != cfg.router) { return; }
      match m {
        case Hello(_, _, _) => links := links[li := Some(HearNeighbour(l, now, m))];
        case Ihu(_, _, _) => links := links[li := Some(HearNeighbour(l, now, m))];
        case AckRequest(o, _) => Queue(l.config.id, Ack(o));
        case Ack(_) =>
        case Update(_, _, _, _, _, _, _) => if !cfg.localOnly { LearnUpdate(l.config, m); }
        case RouteRequest(target) => AnswerRequest(li, target);
        case SeqRequest(target, _, _, _) =>
          if target.Some? {
            SelectRoutes();
            AnswerSeqRequest(l.config.id, m);
          }
      }
    }

    method ReceiveAll(li: nat, ms: seq<Message>)
      requires Valid() && li < |links| && links[li].Some? && forall m :: m in ms ==> Delivered(m)
      modifies this
      ensures View() == EngineEvents.ReceiveAll(old(View()), li, ms)
    {
      hide EngineEvents.ReceiveMessage, Core, Delivered;
      var j := 0;
      while j < |ms|
        invariant j <= |ms| && Valid() && SameLinks(old(links), links)
        invariant EngineEvents.ReceiveAll(View(), li, ms[j..]) == EngineEvents.ReceiveAll(old(View()), li, ms)
      {
        assert ms[j..][0] == ms[j] && ms[j..][1..] == ms[j + 1..];
        ReceiveMessageKeeps(View(), li, ms[j]);
        ReceiveMessage(li, ms[j]);
        j := j + 1;
      }
    }

    // ----- Expiry and timers

    method ExpireCands()
      modifies this`cands
      ensures |cands| == |old(cands)| && forall k :: 0 <= k < |cands| ==> cands[k] == Aged(old(cands)[k], now)
    {
      var i := 0;
      while i < |cands|
        invariant i <= |cands| == |old(cands)|
        invariant forall k :: 0 <= k < |cands| ==> cands[k] == if k < i then Aged(old(cands)[k], now) else old(cands)[k]
      {
        if cands[i].Some? && cands[i].value.expires <= now {
          var c := cands[i].value;
          cands := cands[i := if c.advertised == INFINITY then None
                              else Some(c.(advertised := INFINITY, expires := now + Hold(c.interval)))];
        }
        i := i + 1;
      }
    }

    method Expire()
      modifies this`cands, this`sources, this`requests
      ensures View() == EngineEvents.Expire(old(View()))
    {
      hide Aged;
      ghost var e := EngineEvents.Expire(View());
      ExpireCands();
      ExpireSources();
      ExpireRequests();
      assert cands == e.cands && sources == e.sources && requests == e.requests;
    }

    method ExpireSources()
      modifies this`sources
      ensures |sources| == |old(sources)|
      ensures forall k :: 0 <= k < |sources| ==> sources[k] == EngineEvents.Expire(old(View())).sources[k]
    {
      hide Aged;
      ghost var e := EngineEvents.Expire(View()).sources;
      var i := 0;
      while i < |sources|
        invariant i <= |sources| == |old(sources)|
        invariant forall k :: 0 <= k < |sources| ==> sources[k] == if k < i then e[k] else old(sources)[k]
      {
        if sources[i].Some? && sources[i].value.expires <= now { sources := sources[i := None]; }
        i := i + 1;
      }
    }

    method ExpireRequests()
      modifies this`requests
      ensures |requests| == |old(requests)|
      ensures forall k :: 0 <= k < |requests| ==> requests[k] == EngineEvents.Expire(old(View())).requests[k]
    {
      hide Aged;
      ghost var e := EngineEvents.Expire(View()).requests;
      var i := 0;
      while i < |requests|
        invariant i <= |requests| == |old(requests)|
        invariant forall k :: 0 <= k < |requests| ==> requests[k] == if k < i then e[k] else old(requests)[k]
      {
        if requests[i].Some? && requests[i].value.expires <= now { requests := requests[i := None]; }
        i := i + 1;
      }
    }

    method HelloTimer(i: nat)
      requires i < |links| && links[i].Some?
      modifies this`msgs, this`mem, this`links, this`pace
      ensures View() == EngineEvents.HelloTimer(old(View()), i)
    {
      hide Engine.Queue;
      var l := links[i].value;
      var hello := HelloMs(cfg, l);
      if l.nextHello > now { return; }
      Queue(l.config.id, Hello(false, l.helloSeq, hello / 10));
      var j := Draw(hello / 8);
      links := links[i := Some(l.(helloSeq := (l.helloSeq + 1) % 0x1_0000, nextHello := now + hello - j))];
    }

    method IhuTimer(i: nat)
      requires i < |links| && links[i].Some?
      modifies this`msgs, this`mem, this`links, this`pace
      ensures View() == EngineEvents.IhuTimer(old(View()), i)
    {
      hide Engine.Queue;
      var l := links[i].value;
      var hello := HelloMs(cfg, l);
      if l.nextIhu > now { return; }
      var rx := l.config.cost;
      if l.multicast.expires <= now && l.unicast.expires <= now { rx := INFINITY; }
      Queue(l.config.id, Ihu(rx, hello * 2 / 10, NoAddress));
      var j := Draw(hello / 8);
      links := links[i := Some(l.(nextIhu := now + hello * 2 - j))];
    }

    method UpdateTimer(i: nat)
      requires i < |links| && links[i].Some?
      modifies this`msgs, this`mem, this`links, this`pace, this`sources
      ensures View() == EngineEvents.UpdateTimer(old(View()), i)
    {
      hide Engine.Dump;
      var l := links[i].value;
      if l.nextUpdate > now { return; }
      Dump(l.config.id, false);
      var j := Draw(cfg.update / 8);
      links := links[i := Some(l.(nextUpdate := now + cfg.update - j))];
    }

    method LinkTimers()
      modifies this`msgs, this`mem, this`links, this`pace, this`sources
      ensures View() == EngineEvents.LinkTimers(old(View()), 0)
    {
      hide EngineEvents.HelloTimer, EngineEvents.IhuTimer, EngineEvents.UpdateTimer, AllRescheduled, LinkQuiet;
      var i := 0;
      while i < |links|
        invariant i <= |links| && EngineEvents.LinkTimers(View(), i) == EngineEvents.LinkTimers(old(View()), 0)
      {
        if links[i].Some? {
          OneLinkQuiet(View(), i);
          HelloTimer(i);
          IhuTimer(i);
          UpdateTimer(i);
        }
        i := i + 1;
      }
    }

    method DumpLinks()
      modifies this`msgs, this`mem, this`sources
      ensures View() == EngineEvents.DumpLinks(old(View()), 0)
    {
      hide Engine.Dump;
      var i := 0;
      while i < |links|
        invariant i <= |links| && EngineEvents.DumpLinks(View(), i) == EngineEvents.DumpLinks(old(View()), 0)
      {
        if links[i].Some? { Dump(links[i].value.config.id, false); }
        i := i + 1;
      }
    }

    method TriggeredDump()
      modifies this`msgs, this`mem, this`sources, this`pace
      ensures View() == EngineEvents.TriggeredDump(old(View()))
    {
      hide EngineEvents.DumpLinks;
      if !pace.on || pace.at > now { return; }
      DumpLinks();
      if pace.repeats > 0 {
        var j := Draw(50);
        pace := pace.(repeats := pace.repeats - 1, at := now + 100 + j);
      } else {
        pace := pace.(on := false);
      }
    }

    method RequestTimers()
      modifies this`msgs, this`mem, this`requests
      ensures View() == EngineEvents.RequestTimers(old(View()), 0)
    {
      hide Engine.QueueAll, EngineEvents.RequestTimers;
      var i := 0;
      while i < |requests|
        invariant i <= |requests| && EngineEvents.RequestTimers(View(), i) == EngineEvents.RequestTimers(old(View()), 0)
      {
        RequestTimersStep(View(), i);
        if requests[i].Some? && requests[i].value.remaining > 0 && requests[i].value.next <= now {
          var q := requests[i].value;
          QueueAll(q.targets, Question(q));
          requests := requests[i := Some(q.(remaining := q.remaining - 1, next := now + 1000))];
        }
        i := i + 1;
      }
      RequestTimersEnd(View());
    }

    lemma RequestTimersEnd(s: State)
      ensures EngineEvents.RequestTimers(s, |s.requests|) == s
    {
    }

    method RefreshTimers()
      modifies this`msgs, this`mem, this`cands
      ensures View() == EngineEvents.RefreshTimers(old(View()), 0)
    {
      hide Engine.Queue, RouteFor, EngineEvents.RefreshTimers;
      var i := 0;
      while i < |cands|
        invariant i <= |cands| && EngineEvents.RefreshTimers(View(), i) == EngineEvents.RefreshTimers(old(View()), 0)
      {
        RefreshTimersStep(View(), i);
        if cands[i].Some? {
          var c := cands[i].value;
          var r := RouteOf(c.route.prefix);
          if r.Some? && r.value.link == c.route.link && !c.refreshed && c.advertised != INFINITY && c.expires - now <= c.interval {
            Queue(c.route.link, RouteRequest(Some(c.route.prefix)));
            cands := cands[i := Some(c.(refreshed := true))];
          }
        }
        i := i + 1;
      }
      RefreshTimersEnd(View());
    }

    lemma RefreshTimersEnd(s: State)
      ensures EngineEvents.RefreshTimers(s, |s.cands|) == s
    {
    }

    method Timers()
      modifies this
      ensures View() == EngineEvents.Timers(old(View()))
    {
      hide EngineEvents.LinkTimers, EngineEvents.TriggeredDump, EngineEvents.RequestTimers, EngineEvents.RefreshTimers;
      LinkTimers();
      TriggeredDump();
      RequestTimers();
      RefreshTimers();
    }

    // ----- Event frame

    /** The arrays that are sized by the route count. */
    method CollectArrays()
      modifies this`mem
      ensures var m := old(mem);
              var (a, x) := CollectCap(cfg, m.asks, m.routes, |routes|, true);
              var (b, y) := CollectCap(cfg, x, m.before, |routes|, |links| > 0);
              var (c, z) := CollectCap(cfg, y, m.scratch, |routes|, |links| > 0);
              mem == m.(routes := a, before := b, scratch := c, asks := z)
    {
      hide CollectCap;
      var (a, x) := CollectCap(cfg, mem.asks, mem.routes, |routes|, true);
      var (b, y) := CollectCap(cfg, x, mem.before, |routes|, |links| > 0);
      var (c, z) := CollectCap(cfg, y, mem.scratch, |routes|, |links| > 0);
      mem := mem.(routes := a, before := b, scratch := c, asks := z);
    }

    method Collect()
      modifies this
      ensures View() == EngineEvents.Collect(old(View()))
    {
      hide CollectTable, CollectCap, Live;
      var l, c, x, o, d, q, asks;
      l, asks := Collected(cfg, mem.asks, links);
      c, asks := Collected(cfg, asks, cands);
      x, asks := Collected(cfg, asks, sources);
      o, asks := Collected(cfg, asks, locals);
      d, asks := Collected(cfg, asks, drops);
      q, asks := Collected(cfg, asks, requests);
      links, cands, sources, locals, drops, requests := l, c, x, o, d, q;
      mem := mem.(asks := asks);
      CollectArrays();
    }

    method Begin(at: nat) returns (st: Status)
      modifies this
      ensures (st, View()) == EngineEvents.Begin(old(View()), at)
    {
      hide EngineEvents.Expire, Reserve, Aged;
      if stopped { return Stopped; }
      if ctl.pending != 0 || ctl.cursor < |msgs| { return Busy; }
      if at < now || at > LATEST { return Invalid; }
      var ok, cap, asks := ReserveSlots(cfg, mem.asks, mem.before, |routes|, cfg.limits.routes);
      mem := mem.(asks := asks);
      if !ok { return Limit; }
      Open(at, cap);
      Expire();
      st := Ok;
    }

    /** The table before the event is kept for comparison, old output dropped. */
    method Open(at: nat, cap: nat)
      modifies this
      ensures View() == Opened(old(View()), at, cap)
    {
      before, mem := routes, mem.(before := cap, messages := 0);
      msgs, ctl, now := [], ctl.(cursor := 0, ready := false), at;
    }

    method Finish() returns (st: Status)
      modifies this
      ensures (st, View()) == EngineEvents.Finish(old(View()))
    {
      hide Engine.SelectRoutes, EngineEvents.Timers, EngineEvents.Collect;
      SelectRoutes();
      Timers();
      if stopped {
        mem := mem.(before := 0);
        return Stopped;
      }
      var changed := Changes(before, routes);
      before := [];
      Collect();
      if changed {
        ctl := ctl.(revision := ctl.revision + 1, pending := ctl.revision + 1);
        return Changed;
      }
      ctl := ctl.(ready := true);
      st := Ok;
    }

    // ----- Public calls

    method Tick(at: nat) returns (st: Status)
      requires Valid()
      modifies this
      ensures Valid() && Outcome(st, None, View()) == Apply(old(View()), Wake(at))
    {
      hide Apply, Core, EngineEvents.Begin, EngineEvents.Finish;
      ApplyKeeps(View(), Wake(at));
      Waking(View(), at);
      st := Begin(at);
      if st.Ok? { st := Finish(); }
    }

    method AddLink(at: nat, l: LinkData) returns (st: Status)
      requires Valid()
      modifies this
      ensures Valid() && Outcome(st, None, View()) == Apply(old(View()), Attach(at, l))
    {
      hide Apply, Core, EngineEvents.Begin, EngineEvents.Finish, EngineEvents.Greet, FreeSlot;
      ApplyKeeps(View(), Attach(at, l));
      Attaching(View(), at, l);
      if !Attachable(l) || l.id <= lastLink { return Invalid; }
      var slot, t, asks := TakeSlot(cfg, mem.asks, links, cfg.limits.links);
      mem, links := mem.(asks := asks), t;
      if slot.None? { return Limit; }
      BeginLinks(View(), at);
      st := Begin(at);
      if !st.Ok? { return; }
      Greet(slot.value, l);
      st := Finish();
    }

    method Greet(i: nat, l: LinkConfig)
      requires i < |links|
      modifies this`links, this`lastLink, this`msgs, this`mem
      ensures View() == EngineEvents.Greet(old(View()), i, l)
    {
      hide Engine.Queue;
      links := links[i := Some(NewLink(l))];
      lastLink := l.id;
      Queue(l.id, RouteRequest(None));
    }

    method RemoveLink(at: nat, id: u64) returns (st: Status)
      requires Valid()
      modifies this
      ensures Valid() && Outcome(st, None, View()) == Apply(old(View()), Unlink(at, id))
    {
      hide Apply, Core, EngineEvents.Begin, EngineEvents.Finish;
      ApplyKeeps(View(), Unlink(at, id));
      Unlinking(View(), at, id);
      st := Begin(at);
      if st.Ok? {
        Detach(id);
        st := Finish();
      }
    }

    method Detach(id: u64)
      modifies this`links, this`cands
      ensures View() == EngineEvents.Detach(old(View()), id)
    {
      ghost var t := EngineEvents.Detach(View(), id).cands;
      var li := FindLink(links, id);
      if li < |links| { links := links[li := None]; }
      ghost var rest := links;
      var i := 0;
      while i < |cands|
        invariant i <= |cands| == |old(cands)| && links == rest
        invariant forall k :: 0 <= k < |cands| ==> cands[k] == if k < i then t[k] else old(cands)[k]
      {
        if cands[i].Some? && cands[i].value.route.link == id {
          cands := cands[i := Some(cands[i].value.(advertised := INFINITY, expires := now + Hold(cfg.update)))];
        }
        i := i + 1;
      }
      assert cands == t;
    }

    method SetCost(at: nat, id: u64, cost: u16) returns (st: Status)
      requires Valid()
      modifies this
      ensures Valid() && Outcome(st, None, View()) == Apply(old(View()), Recost(at, id, cost))
    {
      hide Apply, Core, EngineEvents.Begin, EngineEvents.Finish;
      ApplyKeeps(View(), Recost(at, id, cost));
      Recosting(View(), at, id, cost);
      if cost == 0 { return Invalid; }
      st := Begin(at);
      if !st.Ok? { return; }
      var i := FindLink(links, id);
      if i < |links| {
        var l := links[i].value;
        links := links[i := Some(l.(config := l.config.(cost := cost)))];
      }
      st := Finish();
    }

    method Originate(at: nat, p: Prefix, metric: u16) returns (st: Status)
      requires Valid()
      modifies this
      ensures Valid() && Outcome(st, None, View()) == Apply(old(View()), Announce(at, p, metric))
    {
      hide Apply, Core, EngineEvents.Begin, EngineEvents.Finish, Admissible, Recordable, FreeSlot, Routable, ForgetDrop;
      CoreShape(View());
      ApplyKeeps(View(), Announce(at, p, metric));
      Announcing(View(), at, p, metric);
      if !Routable(p) || metric == INFINITY { return Invalid; }
      var k := FindLocal(locals, p);
      if k == |locals| {
        var room := IsAdmissible(p);
        if !room { return Limit; }
        var slot, t, asks := TakeSlot(cfg, mem.asks, locals, cfg.limits.routes);
        mem, locals := mem.(asks := asks), t;
        if slot.None? { return Limit; }
        k := slot.value;
      }
      var recordable := IsRecordable(p, cfg.router);
      if !recordable { return Limit; }
      BeginLinks(View(), at);
      st := Begin(at);
      if !st.Ok? { return; }
      locals := locals[k := Some(Local(p, metric))];
      Unsuppress(p);
      st := Finish();
    }

    method Unsuppress(p: Prefix)
      modifies this`drops
      ensures View() == old(View()).(drops := ForgetDrop(old(drops), p))
    {
      var i := 0;
      while i < |drops|
        invariant i <= |drops| == |old(drops)|
        invariant forall k :: 0 <= k < |drops| ==>
          drops[k] == if k < i && old(drops)[k].Some? && old(drops)[k].value.prefix == p then None else old(drops)[k]
      {
        if drops[i].Some? && drops[i].value.prefix == p { drops := drops[i := None]; }
        i := i + 1;
      }
      assert drops == ForgetDrop(old(drops), p);
    }

    method Withdraw(at: nat, p: Prefix) returns (st: Status)
      requires Valid()
      modifies this
      ensures Valid() && Outcome(st, None, View()) == Apply(old(View()), Retreat(at, p))
    {
      hide Apply, Core, EngineEvents.Begin, EngineEvents.Finish;
      ApplyKeeps(View(), Retreat(at, p));
      Retreating(View(), at, p);
      if !Prefixes.Valid(p) { return Invalid; }
      st := Begin(at);
      if !st.Ok? { return; }
      var i := FindLocal(locals, p);
      if i < |locals| { locals := locals[i := None]; }
      st := Finish();
    }

    method Receive(at: nat, id: u64, data: seq<byte>) returns (st: Status)
      requires Valid()
      modifies this
      ensures Valid() && Outcome(st, None, View()) == Apply(old(View()), Arrive(at, id, data))
    {
      hide Apply, Core, EngineEvents.Begin, EngineEvents.Finish, EngineEvents.ReceiveAll, Wire.Decode, Delivered;
      ApplyKeeps(View(), Arrive(at, id, data));
      Arriving(View(), at, id, data);
      BeginKeeps(View(), at);
      st := Begin(at);
      if !st.Ok? { return; }
      var li := FindLink(links, id);
      if li < |links| {
        var l := links[li].value.config;
        if |data| <= l.maxPacket {
          var ms := WireCode.Decode(data, l.peer);
          if ms.Some? {
            forall m | m in ms.value ensures Delivered(m) { DecodeDelivers(data, l.peer, m); }
            ReceiveAll(li, ms.value);
          }
        }
      }
      st := Finish();
    }

    method Commit(revision: nat, success: bool) returns (st: Status)
      requires Valid()
      modifies this
      ensures Valid() && Outcome(st, None, View()) == Apply(old(View()), Runs.Event.Settle(revision, success))
    {
      hide Apply, Core;
      ApplyKeeps(View(), Runs.Event.Settle(revision, success));
      Settling(View(), revision, success);
      if stopped { return Stopped; }
      if revision == 0 || revision != ctl.pending { return Invalid; }
      ctl := ctl.(pending := 0);
      if !success {
        stopped := true;
        ctl := ctl.(cursor := 0);
        msgs := [];
        mem := mem.(messages := 0);
        return Stopped;
      }
      ctl := ctl.(ready := true);
      st := Ok;
    }

    method RequestPrefix(p: Prefix) returns (st: Status)
      requires Valid()
      modifies this
      ensures Valid() && Outcome(st, None, View()) == Apply(old(View()), Enquire(p))
    {
      hide Apply, Core, Engine.QueueAll, Reserve, Routable, AttachedLinks;
      ApplyKeeps(View(), Enquire(p));
      Enquiring(View(), p);
      if !Routable(p) { return Invalid; }
      if stopped { return Stopped; }
      if ctl.pending != 0 || !ctl.ready || 0 < ctl.cursor < |msgs| { return Busy; }
      if ctl.cursor == |msgs| {
        msgs := [];
        mem := mem.(messages := 0);
        ctl := ctl.(cursor := 0);
      }
      var count := CountLinks(links);
      if count == 0 { return Busy; }
      if |msgs| + count > cfg.limits.messages { return Limit; }
      var ok, cap, asks := ReserveSlots(cfg, mem.asks, mem.messages, |msgs| + count, cfg.limits.messages);
      mem := mem.(asks := asks);
      if !ok { return Limit; }
      mem := mem.(messages := cap);
      AskLinks(RouteRequest(Some(p)));
      st := Ok;
    }

    method AskLinks(m: Message)
      modifies this`msgs, this`mem
      ensures View() == Engine.QueueAll(old(View()), AttachedLinks(old(links)), m)
    {
      hide Engine.Queue;
      var i := 0;
      while i < |links|
        invariant i <= |links|
        invariant Engine.QueueAll(View(), AttachedLinks(links[i..]), m) == Engine.QueueAll(old(View()), AttachedLinks(links), m)
      {
        assert links[i..][1..] == links[i + 1..];
        ghost var rest := AttachedLinks(links[i + 1..]);
        if links[i].Some? {
          assert AttachedLinks(links[i..]) == [links[i].value.config.id] + rest;
          assert ([links[i].value.config.id] + rest)[1..] == rest;
          Queue(links[i].value.config.id, m);
        } else {
          assert AttachedLinks(links[i..]) == [] + rest == rest;
        }
        i := i + 1;
      }
    }

    /** One packet into the caller's buffer: as many consecutive messages of one
        link as fit. */
    method NextPacket(out: array<byte>) returns (st: Status, id: u64, n: nat)
      requires Valid()
      modifies this, out
      ensures Valid()
      ensures var r := Apply(old(View()), Send(out.Length));
              && st == r.status && View() == r.state
              && (r.packet.Some? ==> id == r.packet.value.link && n <= out.Length && out[..n] == r.packet.value.bytes)
              && (r.packet.None? ==> n == 0)
    {
      hide Apply, Core, Packets.NextPacket;
      ApplyKeeps(View(), Send(out.Length));
      Emitting(View(), out.Length);
      st, id, n := Emit(out);
    }

    method Emit(out: array<byte>) returns (st: Status, id: u64, n: nat)
      modifies this`stopped, this`msgs, this`mem, this`ctl, out
      ensures var (status, packet, t) := Packets.NextPacket(old(View()), out.Length);
              && st == status && View() == t
              && (packet.Some? ==> id == packet.value.link && n <= out.Length && out[..n] == packet.value.bytes)
              && (packet.None? ==> n == 0)
    {
      hide Packets.NextPacket, Shipped, LinkAt;
      id, n := 0, 0;
      Shipping(View(), out.Length);
      if stopped { st := Stopped; return; }
      if ctl.pending != 0 || !ctl.ready { st := Busy; return; }
      if ctl.cursor >= |msgs| { st := Ok; return; }
      id := msgs[ctl.cursor].link;
      var li := FindLink(links, id);
      if li == |links| { st := Invalid; return; }
      var max := links[li].value.config.maxPacket;
      if out.Length < max { st := Invalid; return; }
      st, n := Ship(out, id, max);
    }

    method Ship(out: array<byte>, id: u64, max: nat) returns (st: Status, n: nat)
      requires ctl.cursor <= |msgs| && 4 <= max <= out.Length && max <= PACKET_MAX
      modifies this`stopped, this`msgs, this`mem, this`ctl, out
      ensures var (status, packet, t) := Shipped(old(View()), id, max);
              && st == status && View() == t
              && (packet.Some? ==> n <= out.Length && out[..n] == packet.value.bytes)
              && (packet.None? ==> n == 0)
    {
      hide Wire.Put, Fill;
      var ok;
      ok, n := Assemble(out, id, max);
      if !ok {
        stopped := true;
        return Stopped, 0;
      }
      if ctl.cursor == |msgs| { msgs, mem, ctl := [], mem.(messages := 0), ctl.(cursor := 0); }
      st := Ok;
    }

    /** The body, then the header with its length. */
    method Assemble(out: array<byte>, link: u64, max: nat) returns (ok: bool, n: nat)
      requires ctl.cursor <= |msgs| && 4 <= max <= out.Length && max <= PACKET_MAX
      modifies this`ctl, out
      ensures var (good, j, body) := Fill(msgs, old(ctl).cursor, link, 4, max);
              && ok == good && ctl == old(ctl).(cursor := j)
              && (ok ==> n <= out.Length && out[..n] == [42, 2] + Wire.Put(|body|, 2) + body)
    {
      hide Wire.Put, Fill;
      out[0], out[1] := 42, 2;
      ok, n := FillPacket(out, link, max);
      if ok {
        ghost var body := out[4..n];
        WireCode.PutTwo(n - 4);
        out[2], out[3] := (n - 4) / 256, (n - 4) % 256;
        assert out[..n] == [42, 2] + [(n - 4) / 256, (n - 4) % 256] + body;
      }
    }

    /** The loop of wb_next_packet: encode, check the size, copy. */
    method FillPacket(out: array<byte>, link: u64, max: nat) returns (ok: bool, n: nat)
      requires ctl.cursor <= |msgs| && 4 <= max <= out.Length
      modifies this`ctl, out
      ensures var (good, j, body) := Fill(msgs, old(ctl).cursor, link, 4, max);
              && ok == good && ctl == old(ctl).(cursor := j) && (ok ==> n == 4 + |body| && n <= max && out[4..n] == body)
      ensures out[..4] == old(out[..4])
    {
      hide Wire.Encoding, Fill;
      n := 4;
      ghost var start := ctl.cursor;
      ghost var goal := Fill(msgs, start, link, 4, max);
      ghost var head, body := out[..4], [];
      var buffer := new byte[WireCode.ROOM];
      assert [] + goal.2 == goal.2;
      while ctl.cursor < |msgs| && msgs[ctl.cursor].link == link
        invariant start <= ctl.cursor <= |msgs| && ctl == old(ctl).(cursor := ctl.cursor) && n == 4 + |body| <= max
        invariant out[..n] == head + body && fresh(buffer) && buffer.Length == WireCode.ROOM
        invariant Fitted(goal, body, Fill(msgs, ctl.cursor, link, n, max))
        decreases |msgs| - ctl.cursor
      {
        FillStep(msgs, ctl.cursor, link, n, max);
        var m := msgs[ctl.cursor].message;
        var size := WireCode.Encode(m, buffer);
        ghost var b := Wire.Encoding(m);
        assert buffer[..size] == b[..size] == b;
        if size == 0 || size + 4 > max { return false, n; }
        if n + size > max { break; }
        FittedOn(goal, body, b, Fill(msgs, ctl.cursor + 1, link, n + size, max));
        n := WireCode.Append(out, n, buffer[..size]);
        assert head + body + b == head + (body + b);
        body := body + b;
        ctl := ctl.(cursor := ctl.cursor + 1);
      }
      FillStep(msgs, ctl.cursor, link, n, max);
      assert out[4..n] == out[..n][4..] == body == body + [];
      assert out[..4] == out[..n][..4];
      ok := true;
    }

    // ----- Queries

    /** wb_has_usable_origin: a pass over the candidates that changes nothing. */
    method UsableOrigin(at: nat, p: Prefix, router: u64, wanted: u16) returns (r: bool)
      ensures r == HasUsableOrigin(View(), at, p, router, wanted)
    {
      hide CostAt, Routable;
      if stopped || ctl.pending != 0 || !ctl.ready || at < now || !Routable(p) || !RouterId(router) { return false; }
      var li := FindLocal(locals, p);
      if li < |locals| { return false; }
      var src := SourceOf(p, router);
      var i := 0;
      while i < |cands|
        invariant i <= |cands|
        invariant forall k :: 0 <= k < i && cands[k].Some? && Names(cands[k].value.route, p, router, wanted) ==> !UsableAt(View(), at, cands[k].value)
      {
        if cands[i].Some? && Names(cands[i].value.route, p, router, wanted) {
          var c := cands[i].value;
          var cost := Cost(c.route.link, at);
          if c.expires > at && c.advertised != INFINITY && cfg.allow(router, p, wanted) && AddCost(c.advertised, cost) != INFINITY
             && (src.None? || src.value.expires <= at || Newer(wanted, src.value.seqno)
                 || (wanted == src.value.seqno && c.advertised < src.value.metric)) {
            return true;
          }
        }
        i := i + 1;
      }
      r := false;
    }

    method Deadline() returns (r: nat)
      ensures r == NextDeadline(View())
    {
      hide LinksDue, CandsDue, SourcesDue, DropsDue, PendingsDue;
      if stopped || ctl.pending != 0 { return U64_MAX; }
      var next: nat := U64_MAX;
      next := LinksDeadline(now, next, links);
      next := CandsDeadline(now, next, cands);
      next := SourcesDeadline(now, next, sources);
      next := DropsDeadline(now, next, drops);
      next := PendingsDeadline(now, next, requests);
      if pace.on {
        if pace.at <= now { return now; }
        next := Sooner(now, next, pace.at);
      }
      r := next;
    }
  }

  // ----- Each public call as an event

  lemma Emitting(s: State, cap: nat)
    ensures var (st, packet, t) := Packets.NextPacket(s, cap); Apply(s, Send(cap)) == Outcome(st, packet, t)
  {
    hide Packets.NextPacket;
  }

  lemma Waking(s: State, at: nat)
    ensures var (st, t) := Completed(EngineEvents.Begin(s, at)); Apply(s, Wake(at)) == Outcome(st, None, t)
  {
    hide EngineEvents.Begin, Completed;
  }

  lemma Attaching(s: State, at: nat, l: LinkData)
    ensures var (st, t) := Completed(EngineEvents.AddLink(s, at, l)); Apply(s, Attach(at, l)) == Outcome(st, None, t)
  {
    hide EngineEvents.AddLink, Completed;
  }

  lemma Unlinking(s: State, at: nat, id: u64)
    ensures var (st, t) := Completed(EngineEvents.RemoveLink(s, at, id)); Apply(s, Unlink(at, id)) == Outcome(st, None, t)
  {
    hide EngineEvents.RemoveLink, Completed;
  }

  lemma Recosting(s: State, at: nat, id: u64, cost: u16)
    ensures var (st, t) := Completed(EngineEvents.SetCost(s, at, id, cost)); Apply(s, Recost(at, id, cost)) == Outcome(st, None, t)
  {
    hide EngineEvents.SetCost, Completed;
  }

  lemma Announcing(s: State, at: nat, p: Prefix, metric: u16)
    ensures var (st, t) := Completed(EngineEvents.Originate(s, at, p, metric)); Apply(s, Announce(at, p, metric)) == Outcome(st, None, t)
  {
    hide EngineEvents.Originate, Completed;
  }

  lemma Retreating(s: State, at: nat, p: Prefix)
    ensures var (st, t) := Completed(EngineEvents.Withdraw(s, at, p)); Apply(s, Retreat(at, p)) == Outcome(st, None, t)
  {
    hide EngineEvents.Withdraw, Completed;
  }

  lemma Arriving(s: State, at: nat, id: u64, data: seq<byte>)
    ensures var (st, t) := Completed(EngineEvents.Receive(s, at, id, data)); Apply(s, Arrive(at, id, data)) == Outcome(st, None, t)
  {
    hide EngineEvents.Receive, Completed;
  }

  lemma Settling(s: State, revision: nat, success: bool)
    ensures var (st, t) := EngineEvents.Commit(s, revision, success); Apply(s, Runs.Event.Settle(revision, success)) == Outcome(st, None, t)
  {
    hide EngineEvents.Commit, Completed;
  }

  lemma Enquiring(s: State, p: Prefix)
    ensures var (st, t) := EngineEvents.RequestPrefix(s, p); Apply(s, Enquire(p)) == Outcome(st, None, t)
  {
    hide EngineEvents.RequestPrefix, Completed;
  }

  lemma {:induction false} InsertAt(front: seq<Route>, r: Route, j: nat)
    requires j <= |front| && (j > 0 ==> !Less(r.prefix, front[j - 1].prefix))
    requires forall k :: j <= k < |front| ==> Less(r.prefix, front[k].prefix)
    ensures Insert(front, r) == front[..j] + [r] + front[j..]
    decreases |front|
  {
    hide Less;
    var m := |front| - 1;
    if j <= m {
      InsertAt(front[..m], r, j);
      assert front[..m][..j] == front[..j] && front[..m][j..] + [front[m]] == front[j..];
    } else {
      assert front[..j] == front && front[j..] == [];
    }
  }

  /** Shift larger entries up by one until entry i finds its place. */
  method InsertInPlace(a: array<Route>, i: nat)
    requires i < a.Length
    modifies a
    ensures a[..i + 1] == Insert(old(a[..i]), old(a[i])) && forall k :: i < k < a.Length ==> a[k] == old(a[k])
  {
    hide Less, Insert;
    ghost var front := a[..i];
    var r := a[i];
    var j := i;
    while j > 0 && Less(r.prefix, a[j - 1].prefix)
      invariant j <= i && (forall k :: 0 <= k < j ==> a[k] == front[k]) && (forall k :: j < k <= i ==> a[k] == front[k - 1])
      invariant forall k :: i < k < a.Length ==> a[k] == old(a[k])
      invariant forall k :: j <= k < i ==> Less(r.prefix, front[k].prefix)
    {
      a[j] := a[j - 1];
      j := j - 1;
    }
    a[j] := r;
    assert Inserted(front, r, j, a[..i + 1]);
    InsertedIs(front, r, j, a[..i + 1]);
  }

  /** u is front with r squeezed in at position j. */
  ghost predicate Inserted(front: seq<Route>, r: Route, j: nat, u: seq<Route>) {
    && |u| == |front| + 1 && j <= |front| && u[j] == r
    && (forall k :: 0 <= k < j ==> u[k] == front[k]) && (forall k :: j < k < |u| ==> u[k] == front[k - 1])
  }

  lemma InsertedIs(front: seq<Route>, r: Route, j: nat, u: seq<Route>)
    requires Inserted(front, r, j, u) && (j > 0 ==> !Less(r.prefix, front[j - 1].prefix))
    requires forall k :: j <= k < |front| ==> Less(r.prefix, front[k].prefix)
    ensures u == Insert(front, r)
  {
    hide Less, Insert;
    InsertAt(front, r, j);
    assert u == front[..j] + [r] + front[j..];
  }

  /** Insertion sort. */
  method SortInPlace(a: array<Route>)
    modifies a
    ensures a[..] == Sorted(old(a[..]))
  {
    hide Less, Insert;
    ghost var t := a[..];
    var i := 0;
    while i < a.Length
      invariant i <= a.Length && a[..i] == Sorted(t[..i]) && forall k :: i <= k < a.Length ==> a[k] == t[k]
    {
      assert t[..i + 1][..i] == t[..i];
      InsertInPlace(a, i);
      i := i + 1;
    }
    assert a[..i] == a[..] && t[..i] == t;
  }

  /** Entry by entry, did the selected table change? */
  method Changes(before: seq<Route>, routes: seq<Route>) returns (changed: bool)
    ensures changed == (before != routes)
  {
    changed := |before| != |routes|;
    var i := 0;
    while !changed && i < |routes|
      invariant i <= |routes| && (changed ==> before != routes)
      invariant !changed ==> |before| == |routes| && forall k :: 0 <= k < i ==> before[k] == routes[k]
    {
      changed := before[i] != routes[i];
      i := i + 1;
    }
  }

  /** Live slots move to the front; the table shrinks when at most half is live. */
  method Collected<T(!new)>(cfg: Config, asks: nat, t: seq<Option<T>>) returns (table: seq<Option<T>>, next: nat)
    ensures (table, next) == CollectTable(cfg, asks, t)
  {
    hide Live;
    var live: seq<Option<T>> := [];
    var i := 0;
    assert t[..0] == [];
    LiveEmpty<T>();
    while i < |t|
      invariant i <= |t| && live == Live(t[..i])
    {
      LiveStep(t, i);
      if t[i].Some? { live := live + [t[i]]; }
      i := i + 1;
    }
    assert t[..i] == t;
    if |live| == 0 { return [], asks; }
    if |live| > |t| / 2 { return Pad(live, |t|), asks; }
    if cfg.grant(asks) { return live, asks + 1; }
    return Pad(live, |t|), asks + 1;
  }

  method CountLinks(links: seq<Option<Link>>) returns (n: nat)
    ensures n == |AttachedLinks(links)|
  {
    n := 0;
    var i := 0;
    while i < |links|
      invariant i <= |links| && n + |AttachedLinks(links[i..])| == |AttachedLinks(links)|
    {
      assert links[i..][1..] == links[i + 1..];
      if links[i].Some? { n := n + 1; }
      i := i + 1;
    }
  }
}
