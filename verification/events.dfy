/** Message handlers, timers and the public events of engine.c. Every event has
    the shape begin, expire, handle, select, timers, finish. */
module EngineEvents {
  import opened Types
  import opened Prefixes
  import opened Seqno
  import opened EngineState
  import opened Engine
  import opened Wire

  datatype Status = Ok | Changed | Invalid | Limit | Stopped | Busy

  // ----- Admission

  function CandPrefixes(cands: seq<Option<Candidate>>): (r: set<Prefix>)
    ensures forall c :: Some(c) in cands ==> c.route.prefix in r
    ensures forall p :: p in r ==> exists c :: Some(c) in cands && c.route.prefix == p
  {
    set i | 0 <= i < |cands| && cands[i].Some? :: cands[i].value.route.prefix
  }

  function LocalPrefixes(locals: seq<Option<Local>>): (r: set<Prefix>)
    ensures forall l :: Some(l) in locals ==> l.prefix in r
    ensures forall p :: p in r ==> exists l :: Some(l) in locals && l.prefix == p
  {
    set i | 0 <= i < |locals| && locals[i].Some? :: locals[i].value.prefix
  }

  function DropPrefixes(drops: seq<Option<Drop>>): (r: set<Prefix>)
    ensures forall d :: Some(d) in drops ==> d.prefix in r
    ensures forall p :: p in r ==> exists d :: Some(d) in drops && d.prefix == p
  {
    set i | 0 <= i < |drops| && drops[i].Some? :: drops[i].value.prefix
  }

  /** The prefixes that count against the route ceiling. */
  function Admitted(s: State): (r: set<Prefix>) {
    CandPrefixes(s.cands) + LocalPrefixes(s.locals) + DropPrefixes(s.drops)
  }

  predicate Admissible(s: State, p: Prefix) {
    p in Admitted(s) || |Admitted(s)| < s.cfg.limits.routes
  }

  /** Room remains to record the distance of router's route to p. */
  predicate Recordable(s: State, p: Prefix, router: u64) {
    || SourceFor(s.sources, p, router).Some?
    || FirstFree(s.sources, 0) < |s.sources|
    || |s.sources| < s.cfg.limits.sources
  }

  // ----- Received messages

  /** What no handler of a received packet touches. */
  ghost predicate Within(s: State, r: State) {
    && r.cfg == s.cfg && r.now == s.now && r.lastLink == s.lastLink && r.ctl == s.ctl
    && r.locals == s.locals && r.before == s.before
    && s.mem.asks <= r.mem.asks
  }

  /** Links keep their slots and configuration. */
  predicate SameLinks(a: seq<Option<Link>>, b: seq<Option<Link>>) {
    && |a| == |b|
    && forall i :: 0 <= i < |a| ==> a[i].Some? == b[i].Some? && (a[i].Some? ==> a[i].value.config == b[i].value.config)
  }

  /** A neighbour withdraws everything it announced. */
  function RetractLink(cands: seq<Option<Candidate>>, link: u64): (r: seq<Option<Candidate>>)
    ensures |r| == |cands|
    ensures forall i :: 0 <= i < |r| ==> r[i] == if cands[i].Some? && cands[i].value.route.link == link then Some(cands[i].value.(advertised := INFINITY)) else cands[i]
  {
    seq(|cands|, i requires 0 <= i < |cands| =>
      if cands[i].Some? && cands[i].value.route.link == link then Some(cands[i].value.(advertised := INFINITY)) else cands[i])
  }

  /** Reasons to ignore a finite update whatever is already known. */
  predicate Refused(s: State, l: LinkConfig, m: Message)
    requires m.Update? && m.target.Some?
  {
    || !Routable(m.target.value)
    || !s.cfg.allow(m.router, m.target.value, m.seqno)
    || m.router == s.cfg.router
    || (m.via6 && !s.cfg.via6)
    || (m.nextHop.V6? && m.nextHop.v6 != l.peer)
    || !Recordable(s, m.target.value, m.router)
  }

  function Learned(s: State, link: u64, m: Message): (c: Candidate)
    requires m.Update? && m.target.Some?
  {
    Candidate(Route(m.target.value, m.router, link, m.seqno, 0, false, false, m.nextHop), m.metric,
              s.now + Hold(m.interval * 10), m.interval * 10, false)
  }

  /** The slot an update goes to, creating it when the limits allow. */
  function CandSlot(s: State, p: Prefix, link: u64): (r: (Option<nat>, State))
    ensures r.1 == s.(cands := r.1.cands, mem := r.1.mem)
    ensures s.mem.asks <= r.1.mem.asks
    ensures r.0.Some? ==> r.0.value < |r.1.cands|
  {
    var i := CandAt(s.cands, p, link);
    if i < |s.cands| then (Some(i), s)
    else if !Admissible(s, p) then (None, s)
    else
      var (slot, t, asks) := FreeSlot(s.cfg, s.mem.asks, s.cands, s.cfg.limits.candidates);
      (slot, Asked(s, asks).(cands := t))
  }

  /** Ask the neighbour for a usable sequence number when its route would help. */
  function Chase(s: State, link: u64, c: Candidate): (r: State)
    ensures r == s.(msgs := r.msgs, mem := r.mem, requests := r.requests)
    ensures s.mem.asks <= r.mem.asks
  {
    var src := SourceFor(s.sources, c.route.prefix, c.route.router);
    var sel := RouteFor(s.routes, c.route.prefix);
    if !Feasible(s.sources, c) && src.Some?
       && (sel.None? || sel.value.unreachable || sel.value.link == link || Metric(s, c) < sel.value.metric)
    then Request(s, c.route.prefix, c.route.router, (src.value.seqno + 1) % 0x1_0000, [link], 0, 64)
    else s
  }

  function LearnUpdate(s: State, l: LinkConfig, m: Message): (r: State)
    requires m.Update?
    ensures r == s.(msgs := r.msgs, mem := r.mem, requests := r.requests, cands := r.cands, pace := r.pace)
    ensures s.mem.asks <= r.mem.asks
  {
    if m.target.None? then s.(cands := RetractLink(s.cands, l.id))
    else
      var p := m.target.value;
      var i := CandAt(s.cands, p, l.id);
      if m.metric == INFINITY then
        if i < |s.cands| then s.(cands := s.cands[i := Some(s.cands[i].value.(advertised := INFINITY))]) else s
      else if Refused(s, l, m) then s
      else
        var (slot, t) := CandSlot(s, p, l.id);
        if slot.None? then t
        else
          var k := slot.value;
          var t1 := if t.cands[k].Some? && t.cands[k].value.route.router != m.router then Trigger(t, true) else t;
          var c := Learned(s, l.id, m);
          Chase(t1.(cands := t1.cands[k := Some(c)]), l.id, c)
  }

  /** The neighbour best placed to answer a forwarded request. */
  predicate BetterRelay(s: State, x: Candidate, y: Candidate) {
    || (Feasible(s.sources, x) && !Feasible(s.sources, y))
    || (Feasible(s.sources, x) == Feasible(s.sources, y)
        && (Metric(s, x) < Metric(s, y) || (Metric(s, x) == Metric(s, y) && x.route.link < y.route.link)))
  }

  function Relay(s: State, p: Prefix, from: u64, i: nat): (r: Option<Candidate>)
    requires i <= |s.cands|
    ensures r.Some? ==> r in s.cands && r.value.route.prefix == p
  {
    if i == 0 then None
    else
      var best := Relay(s, p, from, i - 1);
      var c := s.cands[i - 1];
      if c.None? || c.value.route.prefix != p || c.value.route.link == from || Metric(s, c.value) == INFINITY then best
      else if best.None? || BetterRelay(s, c.value, best.value) then c
      else best
  }

  predicate Recorded(sources: seq<Option<Source>>, p: Prefix) {
    exists i :: 0 <= i < |sources| && sources[i].Some? && sources[i].value.prefix == p
  }

  /** Pass the request on towards the origin, one hop poorer. */
  function Forward(s: State, from: u64, m: Message): (r: State)
    requires m.SeqRequest? && m.target.Some?
    ensures r == s.(msgs := r.msgs, mem := r.mem, requests := r.requests)
    ensures s.mem.asks <= r.mem.asks
  {
    var p := m.target.value;
    if m.router == s.cfg.router || m.hops < 2 || !Recorded(s.sources, p) then s
    else
      var best := Relay(s, p, from, |s.cands|);
      if best.None? then s
      else Request(s, p, m.router, m.seqno, [best.value.route.link], from, m.hops - 1)
  }

  /** Raise our own sequence number and answer with the new one. */
  function Bump(s: State, from: u64, p: Prefix): (r: State)
    ensures Within(s, r) && r.links == s.links && r.cands == s.cands
  {
    Advertise(SelectRoutes(s.(seqno := (s.seqno + 1) % 0x1_0000)), from, p, true)
  }

  function AnswerSeqRequest(s: State, from: u64, m: Message): (r: State)
    requires m.SeqRequest? && m.target.Some?
    ensures Within(s, r) && r.links == s.links && r.cands == s.cands
  {
    var p := m.target.value;
    var r := RouteFor(s.routes, p);
    if r.Some? && !r.value.unreachable && (r.value.router != m.router || AtLeast(r.value.seqno, m.seqno)) then
      Advertise(s, from, p, true)
    else if r.Some? && !r.value.unreachable && r.value.local then Bump(s, from, p)
    else Forward(s, from, m)
  }

  function Hear(h: Heard, now: nat, m: Message): (r: Heard)
    requires m.Hello?
  {
    if !h.seen || h.expires <= now || Newer(m.seqno, h.seqno) then
      Heard(true, m.seqno, if m.interval != 0 then now + Hold(m.interval * 10) else h.expires)
    else h
  }

  predicate AddressedTo(l: LinkConfig, a: Address) {
    match a case NoAddress => true case V6(b) => b == l.local case V4(b) => b == l.ipv4
  }

  function HelloMs(cfg: Config, l: Link): (r: nat)
    ensures Interval(r, 327670)
  {
    if l.config.hello != 0 then l.config.hello else cfg.hello
  }

  function AnswerRequest(s: State, li: nat, target: Option<Prefix>): (r: State)
    requires li < |s.links| && s.links[li].Some?
    ensures Within(s, r) && SameLinks(s.links, r.links) && r.cands == s.cands
  {
    var t := SelectRoutes(s);
    var l := s.links[li].value;
    if target.Some? then Advertise(t, l.config.id, target.value, true)
    else if !l.dumped || s.now - l.lastDump >= HelloMs(s.cfg, l) then
      var u := Dump(t, l.config.id, true, 0);
      u.(links := u.links[li := Some(l.(lastDump := s.now, dumped := true))])
    else t
  }

  /** Hello and IHU only refresh what is known about the neighbour. */
  function HearNeighbour(l: Link, now: nat, m: Message): (r: Link)
    ensures r.config == l.config
  {
    match m
    case Hello(unicast, _, _) =>
      if unicast then l.(unicast := Hear(l.unicast, now, m)) else l.(multicast := Hear(l.multicast, now, m))
    case Ihu(metric, interval, a) =>
      if AddressedTo(l.config, a) then l.(tx := metric, ihuExpires := now + Hold(interval * 10)) else l
    case _ => l
  }

  function ReceiveMessage(s: State, li: nat, m: Message): (r: State)
    requires li < |s.links| && s.links[li].Some?
    ensures Within(s, r) && SameLinks(s.links, r.links)
  {
    var l := s.links[li].value;
    if s.stopped || (s.cfg.localOnly && m.SeqRequest? && m.router != s.cfg.router) then s
    else
      match m
      case Hello(_, _, _) => s.(links := s.links[li := Some(HearNeighbour(l, s.now, m))])
      case Ihu(_, _, _) => s.(links := s.links[li := Some(HearNeighbour(l, s.now, m))])
      case AckRequest(o, _) => Queue(s, l.config.id, Ack(o))
      case Ack(_) => s
      case Update(_, _, _, _, _, _, _) => if s.cfg.localOnly then s else LearnUpdate(s, l.config, m)
      case RouteRequest(target) => AnswerRequest(s, li, target)
      case SeqRequest(target, _, _, _) => if target.None? then s else AnswerSeqRequest(SelectRoutes(s), l.config.id, m)
  }

  function ReceiveAll(s: State, li: nat, ms: seq<Message>): (r: State)
    requires li < |s.links| && s.links[li].Some?
    ensures Within(s, r) && SameLinks(s.links, r.links)
    decreases |ms|
  {
    if ms == [] then s else ReceiveAll(ReceiveMessage(s, li, ms[0]), li, ms[1..])
  }

  // ----- Expiry and timers

  function Aged(c: Option<Candidate>, now: nat): (r: Option<Candidate>)
  {
    if c.None? || c.value.expires > now then c
    else if c.value.advertised == INFINITY then None
    else Some(c.value.(advertised := INFINITY, expires := now + Hold(c.value.interval)))
  }

  function Expire(s: State): (r: State)
    ensures r == s.(cands := r.cands, sources := r.sources, requests := r.requests)
    ensures |r.cands| == |s.cands| && |r.sources| == |s.sources| && |r.requests| == |s.requests|
    ensures forall i :: 0 <= i < |s.cands| ==> r.cands[i] == Aged(s.cands[i], s.now)
    ensures forall i :: 0 <= i < |s.sources| ==>
      r.sources[i] == if s.sources[i].Some? && s.sources[i].value.expires <= s.now then None else s.sources[i]
    ensures forall i :: 0 <= i < |s.requests| ==>
      r.requests[i] == if s.requests[i].Some? && s.requests[i].value.expires <= s.now then None else s.requests[i]
  {
    s.(cands := seq(|s.cands|, i requires 0 <= i < |s.cands| => Aged(s.cands[i], s.now)),
       sources := seq(|s.sources|, i requires 0 <= i < |s.sources| =>
         if s.sources[i].Some? && s.sources[i].value.expires <= s.now then None else s.sources[i]),
       requests := seq(|s.requests|, i requires 0 <= i < |s.requests| =>
         if s.requests[i].Some? && s.requests[i].value.expires <= s.now then None else s.requests[i]))
  }

  function HelloTimer(s: State, i: nat): (r: State)
    requires i < |s.links| && s.links[i].Some?
    ensures r == s.(msgs := r.msgs, mem := r.mem, links := r.links, pace := r.pace)
    ensures s.mem.asks <= r.mem.asks && |r.links| == |s.links|
  {
    var l := s.links[i].value;
    var hello := HelloMs(s.cfg, l);
    if l.nextHello > s.now then s
    else
      var t := Queue(s, l.config.id, Hello(false, l.helloSeq, hello / 10));
      t.(links := t.links[i := Some(l.(helloSeq := (l.helloSeq + 1) % 0x1_0000, nextHello := s.now + hello - Jitter(t, hello / 8)))],
         pace := Drawn(t).pace)
  }

  function IhuTimer(s: State, i: nat): (r: State)
    requires i < |s.links| && s.links[i].Some?
    ensures r == s.(msgs := r.msgs, mem := r.mem, links := r.links, pace := r.pace)
    ensures s.mem.asks <= r.mem.asks && |r.links| == |s.links|
  {
    var l := s.links[i].value;
    var hello := HelloMs(s.cfg, l);
    if l.nextIhu > s.now then s
    else
      var rx := if l.multicast.expires <= s.now && l.unicast.expires <= s.now then INFINITY else l.config.cost;
      var t := Queue(s, l.config.id, Ihu(rx, hello * 2 / 10, NoAddress));
      t.(links := t.links[i := Some(l.(nextIhu := s.now + hello * 2 - Jitter(t, hello / 8)))], pace := Drawn(t).pace)
  }

  function UpdateTimer(s: State, i: nat): (r: State)
    requires i < |s.links| && s.links[i].Some?
    ensures r == s.(msgs := r.msgs, mem := r.mem, links := r.links, pace := r.pace, sources := r.sources)
    ensures s.mem.asks <= r.mem.asks && |r.links| == |s.links|
  {
    var l := s.links[i].value;
    if l.nextUpdate > s.now then s
    else
      var t := Dump(s, l.config.id, false, 0);
      t.(links := t.links[i := Some(l.(nextUpdate := s.now + s.cfg.update - Jitter(t, s.cfg.update / 8)))], pace := Drawn(t).pace)
  }

  function LinkTimers(s: State, i: nat): (r: State)
    requires i <= |s.links|
    ensures r == s.(msgs := r.msgs, mem := r.mem, links := r.links, pace := r.pace, sources := r.sources)
    ensures s.mem.asks <= r.mem.asks && |r.links| == |s.links|
    decreases |s.links| - i
  {
    if i == |s.links| then s
    else if s.links[i].None? then LinkTimers(s, i + 1)
    else
      var t := HelloTimer(s, i);
      var u := if t.links[i].Some? then IhuTimer(t, i) else t;
      var v := if u.links[i].Some? then UpdateTimer(u, i) else u;
      LinkTimers(v, i + 1)
  }

  function DumpLinks(s: State, i: nat): (r: State)
    requires i <= |s.links|
    ensures r == s.(msgs := r.msgs, mem := r.mem, sources := r.sources)
    ensures s.mem.asks <= r.mem.asks
    decreases |s.links| - i
  {
    if i == |s.links| then s
    else if s.links[i].None? then DumpLinks(s, i + 1)
    else DumpLinks(Dump(s, s.links[i].value.config.id, false, 0), i + 1)
  }

  function TriggeredDump(s: State): (r: State)
    ensures r == s.(msgs := r.msgs, mem := r.mem, sources := r.sources, pace := r.pace)
    ensures s.mem.asks <= r.mem.asks
  {
    if !s.pace.on || s.pace.at > s.now then s
    else
      var t := DumpLinks(s, 0);
      if t.pace.repeats > 0 then
        t.(pace := t.pace.(repeats := t.pace.repeats - 1, at := t.now + 100 + Jitter(t, 50), draws := t.pace.draws + 1))
      else t.(pace := t.pace.(on := false))
  }

  function RequestTimers(s: State, i: nat): (r: State)
    requires i <= |s.requests|
    ensures r == s.(msgs := r.msgs, mem := r.mem, requests := r.requests)
    ensures s.mem.asks <= r.mem.asks && |r.requests| == |s.requests|
    decreases |s.requests| - i
  {
    if i == |s.requests| then s
    else if s.requests[i].Some? && s.requests[i].value.remaining > 0 && s.requests[i].value.next <= s.now then
      var q := s.requests[i].value;
      var t := QueueAll(s, q.targets, Question(q));
      RequestTimers(t.(requests := t.requests[i := Some(q.(remaining := q.remaining - 1, next := s.now + 1000))]), i + 1)
    else RequestTimers(s, i + 1)
  }

  /** The selected route is about to lapse and was not asked for yet. */
  predicate NeedsRefresh(routes: seq<Route>, now: nat, c: Candidate) {
    var r := RouteFor(routes, c.route.prefix);
    r.Some? && r.value.link == c.route.link && !c.refreshed && c.advertised != INFINITY && c.expires - now <= c.interval
  }

  function RefreshTimers(s: State, i: nat): (r: State)
    requires i <= |s.cands|
    ensures r == s.(msgs := r.msgs, mem := r.mem, cands := r.cands)
    ensures s.mem.asks <= r.mem.asks && |r.cands| == |s.cands|
    decreases |s.cands| - i
  {
    if i == |s.cands| then s
    else if s.cands[i].Some? && NeedsRefresh(s.routes, s.now, s.cands[i].value) then
      var c := s.cands[i].value;
      var t := Queue(s, c.route.link, RouteRequest(Some(c.route.prefix)));
      RefreshTimers(t.(cands := t.cands[i := Some(c.(refreshed := true))]), i + 1)
    else RefreshTimers(s, i + 1)
  }

  function Timers(s: State): (r: State)
    ensures r == s.(msgs := r.msgs, mem := r.mem, links := r.links, pace := r.pace, sources := r.sources, requests := r.requests, cands := r.cands)
    ensures s.mem.asks <= r.mem.asks
  {
    RefreshTimers(RequestTimers(TriggeredDump(LinkTimers(s, 0)), 0), 0)
  }

  // ----- Table collection

  function Live<T>(t: seq<Option<T>>): (r: seq<Option<T>>)
    ensures |r| <= |t|
  {
    if t == [] then [] else (if t[0].Some? then [t[0]] else []) + Live(t[1..])
  }

  /** Stable compaction; the table shrinks when at most half of it is live and
      the allocator agrees. */
  function CollectTable<T(!new)>(cfg: Config, asks: nat, t: seq<Option<T>>): (r: (seq<Option<T>>, nat))
    ensures asks <= r.1 && |r.0| <= |t|
  {
    var live := Live(t);
    if |live| == 0 then ([], asks)
    else if |live| <= |t| / 2 then
      (if cfg.grant(asks) then live else Pad(live, |t|), asks + 1)
    else (Pad(live, |t|), asks)
  }

  /** Shrink a route-sized array to the route count. */
  function CollectCap(cfg: Config, asks: nat, cap: nat, count: nat, keep: bool): (r: (nat, nat))
    ensures asks <= r.1
  {
    if !keep || count == 0 then (0, asks)
    else if count <= cap / 2 then (if cfg.grant(asks) then count else cap, asks + 1)
    else (cap, asks)
  }

  function Collect(s: State): (r: State)
    ensures r == s.(links := r.links, cands := r.cands, sources := r.sources, locals := r.locals, drops := r.drops,
                    requests := r.requests, mem := r.mem)
    ensures s.mem.asks <= r.mem.asks
  {
    var (links, a1) := CollectTable(s.cfg, s.mem.asks, s.links);
    var (cands, a2) := CollectTable(s.cfg, a1, s.cands);
    var (sources, a3) := CollectTable(s.cfg, a2, s.sources);
    var (locals, a4) := CollectTable(s.cfg, a3, s.locals);
    var (drops, a5) := CollectTable(s.cfg, a4, s.drops);
    var (requests, a6) := CollectTable(s.cfg, a5, s.requests);
    var (routesCap, a7) := CollectCap(s.cfg, a6, s.mem.routes, |s.routes|, true);
    var (beforeCap, a8) := CollectCap(s.cfg, a7, s.mem.before, |s.routes|, |links| > 0);
    var (scratchCap, a9) := CollectCap(s.cfg, a8, s.mem.scratch, |s.routes|, |links| > 0);
    s.(links := links, cands := cands, sources := sources, locals := locals, drops := drops, requests := requests,
       mem := s.mem.(routes := routesCap, before := beforeCap, scratch := scratchCap, asks := a9))
  }

  // ----- Event frame

  /** Time stops being accepted two days before the clock would wrap. */
  const LATEST: nat := U64_MAX - 172800000

  function Begin(s: State, now: nat): (r: (Status, State))
    ensures r.0.Ok? ==> !s.stopped && s.ctl.pending == 0 && s.ctl.cursor >= |s.msgs| && s.now <= now <= LATEST
    ensures !r.0.Ok? ==> r.1 == s.(mem := r.1.mem)
    ensures s.mem.asks <= r.1.mem.asks
  {
    if s.stopped then (Stopped, s)
    else if s.ctl.pending != 0 || s.ctl.cursor < |s.msgs| then (Busy, s)
    else if now < s.now || now > LATEST then (Invalid, s)
    else
      var (ok, cap, asks) := Reserve(s.cfg, s.mem.asks, s.mem.before, |s.routes|, s.cfg.limits.routes);
      if !ok then (Limit, Asked(s, asks))
      else
        (Ok, Expire(s.(mem := s.mem.(asks := asks, before := cap, messages := 0), before := s.routes, msgs := [],
                       ctl := s.ctl.(cursor := 0, ready := false), now := now)))
  }

  function Finish(s: State): (r: (Status, State))
    ensures s.mem.asks <= r.1.mem.asks
  {
    var t := Timers(SelectRoutes(s));
    if t.stopped then (Stopped, t.(mem := t.mem.(before := 0)))
    else
      var u := Collect(t.(before := []));
      if t.before != t.routes then 
        (Changed, u.(ctl := u.ctl.(revision := u.ctl.revision + 1, pending := u.ctl.revision + 1)))
      else (Ok, u.(ctl := u.ctl.(ready := true)))
  }

  // ----- Public events

  function Init(cfg: Config, seqno: u16): (r: State) {
    State(cfg, 0, Memory(0, 0, 0, 0, 0), Pace(false, 0, 0, 0), Control(0, 0, true, 0), 0, seqno, false,
          [], [], [], [], [], [], [], [], [])
  }

  /** An event is prepared (begun and handled) and then finished; a refused one
      only reports its status. */
  function Completed(p: (Status, State)): (r: (Status, State)) {
    if p.0.Ok? then Finish(p.1) else p
  }

  function Tick(s: State, now: nat): (r: (Status, State)) {
    Completed(Begin(s, now))
  }

  function NewLink(l: LinkConfig): (r: Link) {
    Link(l, Heard(false, 0, 0), Heard(false, 0, 0), 0, 0, 0, 0, 0, false, 0, INFINITY)
  }

  function AddLink(s: State, now: nat, l: LinkData): (r: (Status, State)) {
    if !Attachable(l) || l.id <= s.lastLink then (Invalid, s)
    else
      var (slot, links, asks) := FreeSlot(s.cfg, s.mem.asks, s.links, s.cfg.limits.links);
      if slot.None? then (Limit, Asked(s, asks))
      else
        var (st, t) := Begin(Asked(s, asks).(links := links), now);
        (st, if st.Ok? then Greet(t, slot.value, l) else t)
  }

  /** A new link starts by asking its neighbour for everything. */
  function Greet(s: State, i: nat, l: LinkConfig): (r: State)
    requires i < |s.links|
  {
    Queue(s.(links := s.links[i := Some(NewLink(l))], lastLink := l.id), l.id, RouteRequest(None))
  }

  /** Candidates of a removed link linger as retracted for one hold time. */
  function Detach(s: State, id: u64): (r: State)
    ensures r == s.(links := r.links, cands := r.cands)
    ensures |r.cands| == |s.cands|
    ensures forall i :: 0 <= i < |s.cands| ==>
      r.cands[i] == if s.cands[i].Some? && s.cands[i].value.route.link == id
                    then Some(s.cands[i].value.(advertised := INFINITY, expires := s.now + Hold(s.cfg.update))) else s.cands[i]
  {
    var i := LinkAt(s.links, id);
    s.(links := if i < |s.links| then s.links[i := None] else s.links,
       cands := seq(|s.cands|, k requires 0 <= k < |s.cands| =>
         if s.cands[k].Some? && s.cands[k].value.route.link == id
         then Some(s.cands[k].value.(advertised := INFINITY, expires := s.now + Hold(s.cfg.update))) else s.cands[k]))
  }

  function RemoveLink(s: State, now: nat, id: u64): (r: (Status, State)) {
    var (st, t) := Begin(s, now);
    (st, if st.Ok? then Detach(t, id) else t)
  }

  function Reprice(s: State, id: u64, cost: u16): (r: State)
    requires cost != 0
  {
    var i := LinkAt(s.links, id);
    if i == |s.links| then s
    else s.(links := s.links[i := Some(s.links[i].value.(config := s.links[i].value.config.(cost := cost)))])
  }

  function SetCost(s: State, now: nat, id: u64, cost: u16): (r: (Status, State)) {
    if cost == 0 then (Invalid, s)
    else
      var (st, t) := Begin(s, now);
      (st, if st.Ok? then Reprice(t, id, cost) else t)
  }

  function ForgetDrop(drops: seq<Option<Drop>>, p: Prefix): (r: seq<Option<Drop>>)
    ensures |r| == |drops|
    ensures forall i :: 0 <= i < |r| ==> r[i] == if drops[i].Some? && drops[i].value.prefix == p then None else drops[i]
  {
    seq(|drops|, i requires 0 <= i < |drops| => if drops[i].Some? && drops[i].value.prefix == p then None else drops[i])
  }

  function LocalSlot(s: State, p: Prefix): (r: (Option<nat>, State))
    ensures r.1 == s.(locals := r.1.locals, mem := r.1.mem)
    ensures r.0.Some? ==> r.0.value < |r.1.locals|
  {
    var i := LocalAt(s.locals, p);
    if i < |s.locals| then (Some(i), s)
    else if !Admissible(s, p) then (None, s)
    else
      var (slot, t, asks) := FreeSlot(s.cfg, s.mem.asks, s.locals, s.cfg.limits.routes);
      (slot, Asked(s, asks).(locals := t))
  }

  function Originate(s: State, now: nat, p: Prefix, metric: u16): (r: (Status, State)) {
    if !Routable(p) || metric == INFINITY then (Invalid, s)
    else
      var (slot, t) := LocalSlot(s, p);
      if slot.None? || !Recordable(t, p, t.cfg.router) then (Limit, t)
      else
        var (st, u) := Begin(t, now);
        (st, if st.Ok? then u.(locals := u.locals[slot.value := Some(Local(p, metric))], drops := ForgetDrop(u.drops, p)) else u)
  }

  function Retire(s: State, p: Prefix): (r: State) {
    var i := LocalAt(s.locals, p);
    if i < |s.locals| then s.(locals := s.locals[i := None]) else s
  }

  function Withdraw(s: State, now: nat, p: Prefix): (r: (Status, State)) {
    if !Valid(p) then (Invalid, s)
    else
      var (st, t) := Begin(s, now);
      (st, if st.Ok? then Retire(t, p) else t)
  }

  /** A malformed packet, or one from an unknown link, has no effect of its own. */
  function Take(s: State, id: u64, data: seq<byte>): (r: State) {
    var li := LinkAt(s.links, id);
    if li == |s.links| then s
    else
      var l := s.links[li].value.config;
      var ms := if |data| > l.maxPacket then None else Decode(data, l.peer);
      if ms.None? then s else ReceiveAll(s, li, ms.value)
  }

  function Receive(s: State, now: nat, id: u64, data: seq<byte>): (r: (Status, State)) {
    var (st, t) := Begin(s, now);
    (st, if st.Ok? then Take(t, id, data) else t)
  }

  function Commit(s: State, revision: nat, success: bool): (r: (Status, State)) {
    if s.stopped then (Stopped, s)
    else if revision == 0 || revision != s.ctl.pending then (Invalid, s)
    else if !success then
      (Stopped, s.(stopped := true, msgs := [], mem := s.mem.(messages := 0), ctl := s.ctl.(pending := 0, cursor := 0)))
    else (Ok, s.(ctl := s.ctl.(pending := 0, ready := true)))
  }

  function AttachedLinks(links: seq<Option<Link>>): (r: seq<u64>)
  {
    if links == [] then []
    else (if links[0].Some? then [links[0].value.config.id] else []) + AttachedLinks(links[1..])
  }

  function RequestPrefix(s: State, p: Prefix): (r: (Status, State)) {
    if !Routable(p) then (Invalid, s)
    else if s.stopped then (Stopped, s)
    else if s.ctl.pending != 0 || !s.ctl.ready || 0 < s.ctl.cursor < |s.msgs| then (Busy, s)
    else
      var t := if s.ctl.cursor == |s.msgs| then s.(msgs := [], mem := s.mem.(messages := 0), ctl := s.ctl.(cursor := 0)) else s;
      var ids := AttachedLinks(t.links);
      if ids == [] then (Busy, t)
      else if |t.msgs| + |ids| > t.cfg.limits.messages then (Limit, t)
      else
        var (ok, cap, asks) := Reserve(t.cfg, t.mem.asks, t.mem.messages, |t.msgs| + |ids|, t.cfg.limits.messages);
        if !ok then (Limit, Asked(t, asks))
        else (Ok, QueueAll(t.(mem := t.mem.(messages := cap, asks := asks)), ids, RouteRequest(Some(p))))
  }

  // ----- Queries

  /** A finite, authorised candidate over a live link that is feasible against
      the records that will still be there at time `now`. */
  predicate UsableAt(s: State, now: nat, c: Candidate) {
    var src := SourceFor(s.sources, c.route.prefix, c.route.router);
    && c.expires > now && c.advertised != INFINITY && Allowed(s, c.route)
    && AddCost(c.advertised, CostAt(s.links, c.route.link, now)) != INFINITY
    && (src.None? || src.value.expires <= now
        || Better(Distance(c.route.seqno, c.advertised), Distance(src.value.seqno, src.value.metric)))
  }

  predicate HasUsableOrigin(s: State, now: nat, p: Prefix, router: u64, seqno: u16) {
    && !s.stopped && s.ctl.pending == 0 && s.ctl.ready && now >= s.now
    && Routable(p) && RouterId(router) && !HasLocal(s.locals, p)
    && exists i :: 0 <= i < |s.cands| && s.cands[i].Some? && s.cands[i].value.route.prefix == p
                   && s.cands[i].value.route.router == router && s.cands[i].value.route.seqno == seqno
                   && UsableAt(s, now, s.cands[i].value)
  }

  /** Longest-prefix match; an unreachable entry overrides a covering default. */
  function Lookup(routes: seq<Route>, host: Prefix, i: nat): (r: Option<Route>)
    requires i <= |routes|
  {
    if i == 0 then None
    else
      var best := Lookup(routes, host, i - 1);
      var x := routes[i - 1];
      if Covers(x.prefix, host) && (best.None? || x.prefix.bits > best.value.prefix.bits) then Some(x) else best
  }

  // ----- The next deadline

  function Sooner(now: nat, next: nat, v: nat): (r: nat)
    ensures r <= next && (v > now ==> r <= v)
    ensures r == next || (r == v && v > now)
  {
    if now < v < next then v else next
  }

  function LinkDue(now: nat, next: nat, l: Link): (r: nat) {
    Sooner(now, Sooner(now, Sooner(now, Sooner(now, Sooner(now, Sooner(now, next, l.nextHello), l.nextIhu), l.nextUpdate),
      l.ihuExpires), l.multicast.expires), l.unicast.expires)
  }

  function CandDue(now: nat, next: nat, c: Candidate): (r: nat) {
    var n := Sooner(now, next, c.expires);
    if !c.refreshed && c.expires >= c.interval then Sooner(now, n, c.expires - c.interval) else n
  }

  function PendingDue(now: nat, next: nat, q: Pending): (r: nat) {
    var n := Sooner(now, next, q.expires);
    if q.remaining > 0 then Sooner(now, n, q.next) else n
  }

  function LinksDue(now: nat, next: nat, t: seq<Option<Link>>): (r: nat) {
    if t == [] then next else LinksDue(now, if t[0].Some? then LinkDue(now, next, t[0].value) else next, t[1..])
  }

  function CandsDue(now: nat, next: nat, t: seq<Option<Candidate>>): (r: nat) {
    if t == [] then next else CandsDue(now, if t[0].Some? then CandDue(now, next, t[0].value) else next, t[1..])
  }

  function SourcesDue(now: nat, next: nat, t: seq<Option<Source>>): (r: nat) {
    if t == [] then next else SourcesDue(now, if t[0].Some? then Sooner(now, next, t[0].value.expires) else next, t[1..])
  }

  function DropsDue(now: nat, next: nat, t: seq<Option<Drop>>): (r: nat) {
    if t == [] then next else DropsDue(now, if t[0].Some? then Sooner(now, next, t[0].value.expires) else next, t[1..])
  }

  function PendingsDue(now: nat, next: nat, t: seq<Option<Pending>>): (r: nat) {
    if t == [] then next else PendingsDue(now, if t[0].Some? then PendingDue(now, next, t[0].value) else next, t[1..])
  }

  function TablesDue(s: State): (r: nat) {
    PendingsDue(s.now, DropsDue(s.now, SourcesDue(s.now, CandsDue(s.now, LinksDue(s.now, U64_MAX, s.links), s.cands), s.sources), s.drops), s.requests)
  }

  function NextDeadline(s: State): (r: nat) {
    if s.stopped || s.ctl.pending != 0 then U64_MAX
    else if s.pace.on && s.pace.at <= s.now then s.now
    else if s.pace.on then Sooner(s.now, TablesDue(s), s.pace.at)
    else TablesDue(s)
  }
}
