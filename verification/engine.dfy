/** The engine's operations as functions on its state, one per routine of
    engine.c, in the order in which that code touches the tables. */
module Engine {
  import opened Types
  import opened Prefixes
  import opened Seqno
  import opened EngineState

  // ----- Storage and jitter

  /** The capacity-doubling loop of every table. */
  function Grown(cap: nat, count: nat, max: nat): (r: nat)
    requires count <= max && (cap > 0 || max > 0)
    ensures count <= r && (cap <= max ==> r <= max)
    decreases count - cap
  {
    if cap >= count then cap
    else if cap == 0 then Grown(1, count, max)
    else if cap > max / 2 then max
    else Grown(cap * 2, count, max)
  }

  /** Ask for `count` slots: the new capacity and whether the table has them. */
  function Reserve(cfg: Config, asks: nat, cap: nat, count: nat, max: nat): (r: (bool, nat, nat))
    ensures r.0 ==> count <= r.1 && cap <= r.1 && (cap <= max ==> r.1 <= max)
    ensures !r.0 ==> r.1 == cap
    ensures asks <= r.2
    ensures !r.0 ==> count > max || (r.2 == asks + 1 && !cfg.grant(asks))
  {
    if count > max then (false, cap, asks)
    else if count <= cap then (true, cap, asks)
    else if cfg.grant(asks) then (true, Grown(cap, count, max), asks + 1)
    else (false, cap, asks + 1)
  }

  function Pad<T(!new)>(t: seq<Option<T>>, cap: nat): (r: seq<Option<T>>)
    requires |t| <= cap
    ensures |r| == cap && r[..|t|] == t
    ensures forall i :: |t| <= i < cap ==> r[i].None?
    ensures forall x :: Some(x) in r <==> Some(x) in t
  {
    var r := t + seq(cap - |t|, _ => None);
    assert forall i :: 0 <= i < |t| ==> r[i] == t[i];
    r
  }

  /** A free slot of table t, growing it when every slot is taken. */
  function FreeSlot<T(!new)>(cfg: Config, asks: nat, t: seq<Option<T>>, max: nat): (r: (Option<nat>, seq<Option<T>>, nat))
    ensures r.0.Some? ==> r.0.value < |r.1| && r.1[r.0.value].None?
    ensures forall x :: Some(x) in r.1 <==> Some(x) in t
    ensures |t| <= |r.1| && r.1[..|t|] == t && forall i :: |t| <= i < |r.1| ==> r.1[i].None?
    ensures asks <= r.2
    ensures |t| <= max ==> |r.1| <= max
    ensures r.0.None? ==> r.1 == t && ((|t| >= max && forall i :: 0 <= i < |t| ==> t[i].Some?) || (r.2 == asks + 1 && !cfg.grant(asks)))
  {
    var i := FirstFree(t, 0);
    if i < |t| then (Some(i), t, asks)
    else
      var (ok, cap, asks') := Reserve(cfg, asks, |t|, |t| + 1, max);
      if ok then (Some(i), Pad(t, cap), asks') else (None, t, asks')
  }

  /** One draw of the jitter generator, in 0..max. */
  function Jitter(s: State, max: nat): (r: nat)
    ensures r <= max
  {
    s.cfg.draw(s.pace.draws) % (max + 1)
  }

  function Drawn(s: State): (r: State) {
    s.(pace := s.pace.(draws := s.pace.draws + 1))
  }

  function Asked(s: State, asks: nat): (r: State) {
    s.(mem := s.mem.(asks := asks))
  }

  function Trigger(s: State, repeat: bool): (r: State)
    ensures r == s.(pace := r.pace)
  {
    var pace := if s.pace.on then s.pace
                else s.pace.(on := true, at := s.now + Jitter(s, 50), draws := s.pace.draws + 1);
    s.(pace := if repeat then pace.(repeats := 2) else pace)
  }

  // ----- Costs and feasibility

  function AtLeastOne(n: u16): (r: u16)
    ensures r > 0 && (n > 0 ==> r == n)
  {
    if n != 0 then n else 1
  }

  function CostAt(links: seq<Option<Link>>, id: u64, now: nat): (r: u16)
    ensures r > 0
  {
    var i := LinkAt(links, id);
    if i == |links| then INFINITY
    else
      var l := links[i].value;
      if l.ihuExpires <= now || l.tx == INFINITY || (l.multicast.expires <= now && l.unicast.expires <= now) then INFINITY
      else if l.config.cost > l.tx then l.config.cost
      else AtLeastOne(l.tx)
  }

  predicate Allowed(s: State, r: Route) {
    s.cfg.allow(r.router, r.prefix, r.seqno)
  }

  function Metric(s: State, c: Candidate): (r: u16)
    ensures r < INFINITY ==> Allowed(s, c.route) && c.advertised < r
  {
    if Allowed(s, c.route) then AddCost(c.advertised, CostAt(s.links, c.route.link, s.now)) else INFINITY
  }

  /** The feasibility condition against the recorded distance, if any. */
  predicate Feasible(sources: seq<Option<Source>>, c: Candidate) {
    var src := SourceFor(sources, c.route.prefix, c.route.router);
    || c.advertised == INFINITY
    || src.None?
    || Better(Distance(c.route.seqno, c.advertised), Distance(src.value.seqno, src.value.metric))
  }

  // ----- Output

  function Queue(s: State, id: u64, m: Message): (r: State)
    ensures r == s.(msgs := r.msgs, mem := r.mem)
    ensures r.msgs == s.msgs || (r.msgs == s.msgs + [Queued(id, m)] && HasLink(s.links, id))
    ensures s.mem.asks <= r.mem.asks
  {
    if !HasLink(s.links, id) || |s.msgs| >= s.cfg.limits.messages then s
    else
      var (ok, cap, asks) := Reserve(s.cfg, s.mem.asks, s.mem.messages, |s.msgs| + 1, s.cfg.limits.messages);
      if ok then s.(msgs := s.msgs + [Queued(id, m)], mem := s.mem.(messages := cap, asks := asks)) else Asked(s, asks)
  }

  function QueueAll(s: State, ids: seq<u64>, m: Message): (r: State)
    ensures r == s.(msgs := r.msgs, mem := r.mem)
    ensures s.mem.asks <= r.mem.asks
    decreases |ids|
  {
    if ids == [] then s else QueueAll(Queue(s, ids[0], m), ids[1..], m)
  }

  function Improved(x: Source, r: Route): (y: Source)
  {
    if Better(Distance(r.seqno, r.metric), Distance(x.seqno, x.metric)) then x.(seqno := r.seqno, metric := r.metric) else x
  }

  /** Record the distance of a route about to be exported, if there is room. */
  function Record(s: State, r: Route): (res: (bool, State))
    ensures res.1 == s.(sources := res.1.sources, mem := res.1.mem)
    ensures s.mem.asks <= res.1.mem.asks
  {
    var i := SourceAt(s.sources, r.prefix, r.router);
    if i < |s.sources| then
      (true, s.(sources := s.sources[i := Some(Improved(s.sources[i].value, r).(expires := s.now + s.cfg.source))]))
    else
      var (slot, t, asks) := FreeSlot(s.cfg, s.mem.asks, s.sources, s.cfg.limits.sources);
      if slot.None? then (false, Asked(s, asks))
      else
        (true, Asked(s, asks).(sources := t[slot.value := Some(Source(r.prefix, r.router, r.seqno, r.metric, s.now + s.cfg.source))]))
  }

  function Retraction(s: State, p: Prefix): (m: Message) {
    Update(Some(p), 0, 0, INFINITY, s.cfg.update / 10, false, NoAddress)
  }

  /** The update that announces r on a link whose IPv4 address is ipv4. */
  function Announcement(s: State, r: Route, ipv4: Bytes4): (m: Message) {
    var via6 := r.prefix.family == 4 && ZeroBytes(ipv4);
    Update(Some(r.prefix), r.router, r.seqno, r.metric, s.cfg.update / 10, via6,
           if r.prefix.family == 4 && !via6 then V4(ipv4) else NoAddress)
  }

  function Advertise(s: State, id: u64, p: Prefix, explicit: bool): (r: State)
    ensures r == s.(msgs := r.msgs, mem := r.mem, sources := r.sources)
    ensures s.mem.asks <= r.mem.asks
  {
    var li := LinkAt(s.links, id);
    var route := RouteFor(s.routes, p);
    if li == |s.links| then s
    else if route.None? || route.value.unreachable then Queue(s, id, Retraction(s, p))
    else
      var r := route.value;
      var ipv4 := s.links[li].value.config.ipv4;
      if !explicit && r.link == id then s
      else if p.family == 4 && ZeroBytes(ipv4) && !s.cfg.via6 then s
      else
        var (ok, t) := Record(s, r);
        if ok then Queue(t, id, Announcement(s, r, ipv4)) else t
  }

  function Dump(s: State, id: u64, explicit: bool, i: nat): (r: State)
    requires i <= |s.routes|
    ensures r == s.(msgs := r.msgs, mem := r.mem, sources := r.sources)
    ensures s.mem.asks <= r.mem.asks
    decreases |s.routes| - i
  {
    if i == |s.routes| then s else Dump(Advertise(s, id, s.routes[i].prefix, explicit), id, explicit, i + 1)
  }

  function Distinct(ids: seq<u64>): (r: seq<u64>)
    ensures |r| <= |ids|
    ensures forall x :: x in r <==> x in ids
  {
    if ids == [] then []
    else
      var rest := Distinct(ids[..|ids| - 1]);
      var x := ids[|ids| - 1];
      assert ids == ids[..|ids| - 1] + [x];
      if x in rest then rest else rest + [x]
  }

  function Asking(s: State, p: Prefix, router: u64, seqno: u16, ids: seq<u64>, from: u64, hops: byte): (q: Pending) {
    var targets := Distinct(if |ids| <= s.cfg.limits.links then ids else ids[..s.cfg.limits.links]);
    Pending(p, router, seqno, hops, targets, from, s.now + 1000, s.now + 4000, 2)
  }

  function Question(q: Pending): (m: Message) {
    SeqRequest(Some(q.prefix), q.router, q.seqno, q.hops)
  }

  /** The slot a request for router's route to p goes to. */
  function RequestSlot(s: State, p: Prefix, router: u64): (r: (Option<nat>, seq<Option<Pending>>, nat))
    ensures r.0.Some? ==> r.0.value < |r.1|
    ensures forall x :: Some(x) in r.1 <==> Some(x) in s.requests
    ensures s.mem.asks <= r.2 && (|s.requests| <= s.cfg.limits.requests ==> |r.1| <= s.cfg.limits.requests)
  {
    var i := RequestAt(s.requests, p, router);
    if i < |s.requests| then (Some(i), s.requests, s.mem.asks)
    else FreeSlot(s.cfg, s.mem.asks, s.requests, s.cfg.limits.requests)
  }

  /** Start or raise a sequence-number request and send its first copy. */
  function Request(s: State, p: Prefix, router: u64, seqno: u16, ids: seq<u64>, from: u64, hops: byte): (r: State)
    ensures r == s.(msgs := r.msgs, mem := r.mem, requests := r.requests)
    ensures s.mem.asks <= r.mem.asks
  {
    var i := RequestAt(s.requests, p, router);
    if i < |s.requests| && AtLeast(s.requests[i].value.seqno, seqno) then s
    else
      var (slot, t, asks) := RequestSlot(s, p, router);
      if slot.None? then Asked(s, asks)
      else
        var q := Asking(s, p, router, seqno, ids, from, hops);
        QueueAll(Asked(s, asks).(requests := t[slot.value := Some(q)]), q.targets, Question(q))
  }

  // ----- Route selection

  /** The selected table under construction. */
  datatype Build = Build(routes: seq<Route>, cap: nat, asks: nat)

  /** Append a route; a refused or over-long table ends the selection. */
  function AddRoute(cfg: Config, b: Build, r: Route): (res: (bool, Build))
    ensures b.asks <= res.1.asks
    ensures res.0 ==> res.1.routes == b.routes + [r]
    ensures !res.0 ==> res.1.routes == b.routes
  {
    var (ok, cap, asks) := Reserve(cfg, b.asks, b.cap, |b.routes| + 1, cfg.limits.routes);
    if ok then (true, Build(b.routes + [r], cap, asks)) else (false, b.(asks := asks))
  }

  function LocalRoute(s: State, l: Local): (r: Route) {
    Route(l.prefix, s.cfg.router, 0, s.seqno, l.metric, true, false, NoAddress)
  }

  function PickLocals(s: State, b: Build, i: nat): (res: (bool, Build))
    requires i <= |s.locals|
    ensures b.asks <= res.1.asks
    decreases |s.locals| - i
  {
    if i == |s.locals| then (true, b)
    else if s.locals[i].None? then PickLocals(s, b, i + 1)
    else
      var (ok, b') := AddRoute(s.cfg, b, LocalRoute(s, s.locals[i].value));
      if ok then PickLocals(s, b', i + 1) else (false, b')
  }

  /** A candidate that may be selected. */
  predicate Eligible(s: State, c: Candidate) {
    && !HasLocal(s.locals, c.route.prefix)
    && Metric(s, c) < INFINITY
    && Feasible(s.sources, c)
  }

  function Selected(s: State, c: Candidate): (r: Route) {
    c.route.(metric := Metric(s, c))
  }

  /** The tie-break: lower metric, then the previous link, then the lower link. */
  predicate Preferred(x: Route, y: Route, previous: u64) {
    || x.metric < y.metric
    || (x.metric == y.metric && (x.link == previous || (y.link != previous && x.link < y.link)))
  }

  function Previous(prior: seq<Route>, p: Prefix): (r: u64) {
    var o := RouteFor(prior, p);
    if o.Some? then o.value.link else 0
  }

  function PickCands(s: State, prior: seq<Route>, b: Build, i: nat): (res: (bool, Build))
    requires i <= |s.cands|
    ensures b.asks <= res.1.asks
    decreases |s.cands| - i
  {
    if i == |s.cands| then (true, b)
    else if s.cands[i].None? || !Eligible(s, s.cands[i].value) then PickCands(s, prior, b, i + 1)
    else
      var x := Selected(s, s.cands[i].value);
      var k := RouteAt(b.routes, x.prefix);
      if k == |b.routes| then
        var (ok, b') := AddRoute(s.cfg, b, x);
        if ok then PickCands(s, prior, b', i + 1) else (false, b')
      else if Preferred(x, b.routes[k], Previous(prior, x.prefix)) then
        PickCands(s, prior, b.(routes := b.routes[k := x]), i + 1)
      else PickCands(s, prior, b, i + 1)
  }

  /** Locals first, then the best candidate of every other prefix. */
  function Chosen(s: State, prior: seq<Route>, b: Build): (res: (bool, Build))
    ensures b.asks <= res.1.asks
  {
    var (ok, b') := PickLocals(s, b, 0);
    if ok then PickCands(s, prior, b', 0) else (false, b')
  }

  /** Keep a lost prefix unreachable for a while; stop rather than forget. */
  function DropRoute(s: State, p: Prefix): (r: State)
    ensures r == s.(drops := r.drops, mem := r.mem, stopped := r.stopped)
    ensures s.mem.asks <= r.mem.asks
  {
    var d := Some(Drop(p, s.now + Hold(s.cfg.update)));
    var i := DropAt(s.drops, p);
    if i < |s.drops| then s.(drops := s.drops[i := d])
    else
      var (slot, t, asks) := FreeSlot(s.cfg, s.mem.asks, s.drops, s.cfg.limits.routes);
      if slot.None? then Asked(s, asks).(stopped := true) else Asked(s, asks).(drops := t[slot.value := d])
  }

  /** Links over which a better sequence number for p can be asked for. */
  function Askable(s: State, p: Prefix, i: nat): (r: seq<u64>)
    requires i <= |s.cands|
    ensures forall x :: x in r ==> exists c :: Some(c) in s.cands && c.route.link == x
  {
    if i == 0 then []
    else
      var rest := Askable(s, p, i - 1);
      var c := s.cands[i - 1];
      if c.Some? && c.value.route.prefix == p && c.value.advertised != INFINITY
         && CostAt(s.links, c.value.route.link, s.now) != INFINITY && |rest| < s.cfg.limits.links
      then rest + [c.value.route.link] else rest
  }

  /** Ask whoever still announces the lost prefix for a newer sequence number. */
  function Seek(s: State, o: Route): (r: State)
    ensures r == s.(mem := r.mem, requests := r.requests, msgs := r.msgs)
    ensures s.mem.asks <= r.mem.asks
  {
    var src := SourceFor(s.sources, o.prefix, o.router);
    var ids := Askable(s, o.prefix, |s.cands|);
    if src.Some? && ids != [] then Request(s, o.prefix, o.router, (src.value.seqno + 1) % 0x1_0000, ids, 0, 64) else s
  }

  /** One previously reachable prefix that is no longer selected. */
  function Suppress(s: State, o: Route): (r: State)
    ensures r == s.(drops := r.drops, mem := r.mem, stopped := r.stopped, pace := r.pace, requests := r.requests, msgs := r.msgs)
    ensures s.mem.asks <= r.mem.asks
  {
    Seek(Trigger(DropRoute(s, o.prefix), true), o)
  }

  function SuppressLost(s: State, prior: seq<Route>, i: nat): (r: State)
    requires i <= |prior|
    ensures r == s.(drops := r.drops, mem := r.mem, stopped := r.stopped, pace := r.pace, requests := r.requests, msgs := r.msgs)
    ensures s.mem.asks <= r.mem.asks
    decreases |prior| - i
  {
    if i == |prior| then s
    else if !prior[i].unreachable && RouteFor(s.routes, prior[i].prefix).None? then
      SuppressLost(Suppress(s, prior[i]), prior, i + 1)
    else SuppressLost(s, prior, i + 1)
  }

  function UnreachableRoute(p: Prefix): (r: Route) {
    Route(p, 0, 0, 0, INFINITY, false, true, NoAddress)
  }

  /** Suppressed prefixes enter the table as unreachable until they lapse. */
  function KeepDrops(s: State, b: Build, drops: seq<Option<Drop>>, i: nat): (res: (bool, Build, seq<Option<Drop>>))
    requires i <= |drops|
    ensures b.asks <= res.1.asks && |res.2| == |drops|
    decreases |drops| - i
  {
    if i == |drops| then (true, b, drops)
    else if drops[i].None? then KeepDrops(s, b, drops, i + 1)
    else
      var d := drops[i].value;
      if RouteFor(b.routes, d.prefix).Some? || d.expires <= s.now then KeepDrops(s, b, drops[i := None], i + 1)
      else
        var (ok, b') := AddRoute(s.cfg, b, UnreachableRoute(d.prefix));
        if ok then KeepDrops(s, b', drops, i + 1) else (false, b', drops)
  }

  function Insert(t: seq<Route>, r: Route): (u: seq<Route>)
    ensures |u| == |t| + 1
  {
    if t == [] || !Less(r.prefix, t[|t| - 1].prefix) then t + [r]
    else Insert(t[..|t| - 1], r) + [t[|t| - 1]]
  }

  function Sorted(t: seq<Route>): (u: seq<Route>)
    ensures |u| == |t|
  {
    if t == [] then [] else Insert(Sorted(t[..|t| - 1]), t[|t| - 1])
  }

  /** Schedule triggered updates for what changed. */
  function NoteChanges(s: State, prior: seq<Route>, i: nat): (r: State)
    requires i <= |s.routes|
    ensures r == s.(pace := r.pace)
    decreases |s.routes| - i
  {
    if i == |s.routes| then s
    else
      var r := s.routes[i];
      var was := RouteFor(prior, r.prefix);
      if was.None? || was.value.router != r.router || was.value.unreachable != r.unreachable then
        NoteChanges(Trigger(s, true), prior, i + 1)
      else if was.value.metric != r.metric || was.value.seqno != r.seqno then
        NoteChanges(Trigger(s, false), prior, i + 1)
      else NoteChanges(s, prior, i + 1)
  }

  /** A request that the current table answers. */
  predicate Answered(routes: seq<Route>, q: Pending) {
    var r := RouteFor(routes, q.prefix);
    r.Some? && !r.value.unreachable && (r.value.router != q.router || AtLeast(r.value.seqno, q.seqno))
  }

  function SatisfyRequests(s: State, i: nat): (r: State)
    requires i <= |s.requests|
    ensures r == s.(msgs := r.msgs, mem := r.mem, sources := r.sources, requests := r.requests)
    ensures s.mem.asks <= r.mem.asks
    decreases |s.requests| - i
  {
    if i == |s.requests| then s
    else if s.requests[i].Some? && Answered(s.routes, s.requests[i].value) then
      var q := s.requests[i].value;
      var t := if q.from != 0 then Advertise(s, q.from, q.prefix, true) else s;
      SatisfyRequests(t.(requests := t.requests[i := None]), i + 1)
    else SatisfyRequests(s, i + 1)
  }

  /** The table as built, in state s; refusal leaves the engine stopped. */
  function Installed(s: State, ok: bool, b: Build): (r: State) {
    s.(routes := b.routes, mem := s.mem.(routes := b.cap, asks := b.asks, scratch := if ok then s.mem.scratch else 0),
       stopped := s.stopped || !ok)
  }

  /** Selection once locals and candidates are chosen: suppress what was lost. */
  function Suppressed(s: State, prior: seq<Route>): (res: (bool, State))
    ensures res.1 == s.(routes := res.1.routes, mem := res.1.mem, stopped := res.1.stopped, drops := res.1.drops,
                        pace := res.1.pace, requests := res.1.requests, msgs := res.1.msgs)
    ensures s.mem.asks <= res.1.mem.asks
  {
    var t := SuppressLost(s, prior, 0);
    var (ok, b, drops) := KeepDrops(t, Build(t.routes, t.mem.routes, t.mem.asks), t.drops, 0);
    (ok, Installed(t, ok, b).(drops := drops))
  }

  /** Selection once the table is complete: sort, schedule, answer. */
  function Publish(s: State, prior: seq<Route>): (r: State)
    ensures r == s.(routes := r.routes, mem := r.mem, pace := r.pace, requests := r.requests, msgs := r.msgs, sources := r.sources)
    ensures s.mem.asks <= r.mem.asks
  {
    SatisfyRequests(NoteChanges(s.(routes := Sorted(s.routes)), prior, 0), 0)
  }

  function SelectRoutes(s: State): (r: State)
    ensures r == s.(routes := r.routes, mem := r.mem, stopped := r.stopped, drops := r.drops, pace := r.pace,
                    requests := r.requests, msgs := r.msgs, sources := r.sources)
    ensures s.mem.asks <= r.mem.asks
  {
    if s.stopped then s
    else
      var (ok, cap, asks) := Reserve(s.cfg, s.mem.asks, s.mem.scratch, |s.routes|, s.cfg.limits.routes);
      if !ok then Asked(s, asks).(stopped := true)
      else
        var (ok1, b) := Chosen(s, s.routes, Build([], s.mem.routes, asks));
        var t1 := Installed(s.(mem := s.mem.(scratch := cap)), ok1, b);
        if !ok1 then t1
        else
          var (ok2, t2) := Suppressed(t1, s.routes);
          if !ok2 then t2
          else
            var t3 := Publish(t2, s.routes);
            if t3.stopped then t3.(mem := t3.mem.(scratch := 0)) else t3
  }
}
