/** What every step of an event keeps: well-formed tables, bounded times, and
    only messages that encode and decode back. */
module Invariant {
  import opened Types
  import opened Prefixes
  import opened Seqno
  import opened EngineState
  import opened Engine
  import opened EngineEvents
  import opened Selection
  import opened WireRoundTrip

  /** The longest lifetime any table entry is given. */
  const DAY := 86400000

  predicate LinkOk(l: Link, now: nat, lastLink: u64) {
    && l.config.id <= lastLink
    && l.multicast.expires <= now + DAY && l.unicast.expires <= now + DAY && l.ihuExpires <= now + DAY
    && l.nextHello <= now + DAY && l.nextIhu <= now + DAY && l.nextUpdate <= now + DAY && l.lastDump <= now
  }

  predicate DistinctLinks(t: seq<Option<Link>>) {
    forall i, j :: 0 <= i < j < |t| && t[i].Some? && t[j].Some? ==> t[i].value.config.id != t[j].value.config.id
  }

  ghost predicate LinksOk(links: seq<Option<Link>>, now: nat, lastLink: u64) {
    DistinctLinks(links) && forall l :: Some(l) in links ==> LinkOk(l, now, lastLink)
  }

  predicate CandOk(c: Candidate, router: u64, now: nat, lastLink: u64) {
    && Routable(c.route.prefix) && RouterId(c.route.router) && c.route.router != router
    && 0 < c.route.link <= lastLink && !c.route.local && !c.route.unreachable
    && 10 <= c.interval <= 655350 && now < c.expires <= now + DAY
  }

  ghost predicate CandsOk(cands: seq<Option<Candidate>>, router: u64, now: nat, lastLink: u64) {
    DistinctCands(cands) && forall c :: Some(c) in cands ==> CandOk(c, router, now, lastLink)
  }

  predicate SourceOk(x: Source, now: nat, source: nat) {
    Valid(x.prefix) && RouterId(x.router) && x.metric < INFINITY && now < x.expires <= now + source
  }

  predicate DistinctSources(t: seq<Option<Source>>) {
    forall i, j :: 0 <= i < j < |t| && t[i].Some? && t[j].Some? ==>
      !(t[i].value.prefix == t[j].value.prefix && t[i].value.router == t[j].value.router)
  }

  ghost predicate SourcesOk(sources: seq<Option<Source>>, now: nat, source: nat) {
    DistinctSources(sources) && forall x :: Some(x) in sources ==> SourceOk(x, now, source)
  }

  predicate LocalOk(l: Local) {
    Routable(l.prefix) && l.metric < INFINITY
  }

  ghost predicate LocalsOk(locals: seq<Option<Local>>) {
    DistinctLocals(locals) && forall l :: Some(l) in locals ==> LocalOk(l)
  }

  predicate DropOk(d: Drop, now: nat) {
    Valid(d.prefix) && d.expires <= now + DAY
  }

  ghost predicate DropsOk(drops: seq<Option<Drop>>, now: nat) {
    DistinctDrops(drops) && forall d :: Some(d) in drops ==> DropOk(d, now)
  }

  predicate PendingOk(q: Pending, now: nat) {
    Valid(q.prefix) && RouterId(q.router) && q.hops != 0 && now < q.expires <= now + DAY && q.next <= now + DAY
  }

  ghost predicate RequestsOk(requests: seq<Option<Pending>>, now: nat) {
    forall q :: Some(q) in requests ==> PendingOk(q, now)
  }

  predicate RouteOk(r: Route) {
    Valid(r.prefix) && (!r.unreachable ==> RouterId(r.router) && r.metric < INFINITY)
  }

  ghost predicate RoutesOk(routes: seq<Route>) {
    DistinctRoutes(routes) && forall r :: r in routes ==> RouteOk(r)
  }

  ghost predicate MsgsOk(msgs: seq<Queued>, links: seq<Option<Link>>) {
    forall q :: q in msgs ==> HasLink(links, q.link) && Sendable(q.message)
  }

  ghost predicate SizesOk(s: State) {
    && |s.links| <= s.cfg.limits.links && |s.cands| <= s.cfg.limits.candidates && |s.sources| <= s.cfg.limits.sources
    && |s.locals| <= s.cfg.limits.routes && |s.drops| <= s.cfg.limits.routes && |s.requests| <= s.cfg.limits.requests
  }

  ghost predicate Core(s: State) {
    && LinksOk(s.links, s.now, s.lastLink)
    && CandsOk(s.cands, s.cfg.router, s.now, s.lastLink)
    && SourcesOk(s.sources, s.now, s.cfg.source)
    && LocalsOk(s.locals)
    && DropsOk(s.drops, s.now)
    && RequestsOk(s.requests, s.now)
    && RoutesOk(s.routes)
    && MsgsOk(s.msgs, s.links)
    && SizesOk(s)
    && s.pace.at <= s.now + DAY
  }

  lemma CoreEntries(s: State)
    requires Core(s)
    ensures forall i :: 0 <= i < |s.links| && s.links[i].Some? ==> LinkOk(s.links[i].value, s.now, s.lastLink)
    ensures forall i :: 0 <= i < |s.routes| ==> RouteOk(s.routes[i])
    ensures forall i :: 0 <= i < |s.requests| && s.requests[i].Some? ==> PendingOk(s.requests[i].value, s.now)
  {
    forall i | 0 <= i < |s.links| && s.links[i].Some? ensures s.links[i] in s.links { }
    forall i | 0 <= i < |s.requests| && s.requests[i].Some? ensures s.requests[i] in s.requests { }
  }

  // ----- Slot tables

  lemma SetMembers<T(!new)>(t: seq<Option<T>>, k: nat, v: Option<T>)
    requires k < |t|
    ensures forall x :: Some(x) in t[k := v] ==> Some(x) in t || v == Some(x)
  {
  }

  lemma SetSource(t: seq<Option<Source>>, k: nat, x: Source, now: nat, source: nat)
    requires SourcesOk(t, now, source) && k < |t| && SourceOk(x, now, source)
    requires t[k].Some? ==> t[k].value.prefix == x.prefix && t[k].value.router == x.router
    requires t[k].None? ==> SourceFor(t, x.prefix, x.router).None?
    ensures SourcesOk(t[k := Some(x)], now, source)
  {
    SetMembers(t, k, Some(x));
    forall j | 0 <= j < |t| && j != k && t[j].Some? ensures !(t[j].value.prefix == x.prefix && t[j].value.router == x.router) {
      assert t[j] in t;
    }
  }

  // ----- Output

  lemma QueueKeeps(s: State, id: u64, m: Message)
    requires Core(s) && Sendable(m)
    ensures Core(Queue(s, id, m))
  {
    var r := Queue(s, id, m);
    assert forall q :: q in r.msgs ==> q in s.msgs || (q == Queued(id, m) && HasLink(s.links, id));
  }

  lemma {:induction false} QueueAllKeeps(s: State, ids: seq<u64>, m: Message)
    requires Core(s) && Sendable(m)
    ensures Core(QueueAll(s, ids, m))
    decreases |ids|
  {
    if ids != [] {
      QueueKeeps(s, ids[0], m);
      QueueAllKeeps(Queue(s, ids[0], m), ids[1..], m);
    }
  }

  lemma SourcesPadded(t: seq<Option<Source>>, u: seq<Option<Source>>, now: nat, source: nat)
    requires SourcesOk(t, now, source) && |t| <= |u| && u[..|t|] == t && forall i :: |t| <= i < |u| ==> u[i].None?
    ensures SourcesOk(u, now, source)
  {
    assert forall i :: 0 <= i < |t| ==> u[i] == t[i];
    forall x | Some(x) in u ensures Some(x) in t { }
  }

  lemma RecordKeeps(s: State, r: Route)
    requires Core(s) && RouteOk(r) && !r.unreachable
    ensures Core(Record(s, r).1)
  {
    var i := SourceAt(s.sources, r.prefix, r.router);
    if i < |s.sources| {
      assert s.sources[i] in s.sources;
      var y := Improved(s.sources[i].value, r).(expires := s.now + s.cfg.source);
      SetSource(s.sources, i, y, s.now, s.cfg.source);
    } else {
      var (slot, t, asks) := FreeSlot(s.cfg, s.mem.asks, s.sources, s.cfg.limits.sources);
      SourcesPadded(s.sources, t, s.now, s.cfg.source);
      if slot.Some? {
        var y := Source(r.prefix, r.router, r.seqno, r.metric, s.now + s.cfg.source);
        SetSource(t, slot.value, y, s.now, s.cfg.source);
      }
    }
  }

  lemma AnnouncementSendable(s: State, r: Route, ipv4: Bytes4)
    requires RouteOk(r) && !r.unreachable
    ensures Sendable(Announcement(s, r, ipv4))
  {
  }

  lemma AdvertiseKeeps(s: State, id: u64, p: Prefix, explicit: bool)
    requires Core(s) && Valid(p)
    ensures Core(Advertise(s, id, p, explicit))
  {
    hide Record, Queue, Announcement;
    var li := LinkAt(s.links, id);
    var route := RouteFor(s.routes, p);
    if li < |s.links| {
      if route.None? || route.value.unreachable {
        QueueKeeps(s, id, Retraction(s, p));
      } else {
        var r := route.value;
        var ipv4 := s.links[li].value.config.ipv4;
        RecordKeeps(s, r);
        AnnouncementSendable(s, r, ipv4);
        if Record(s, r).0 { QueueKeeps(Record(s, r).1, id, Announcement(s, r, ipv4)); }
      }
    }
  }

  lemma {:induction false} DumpKeeps(s: State, id: u64, explicit: bool, i: nat)
    requires Core(s) && i <= |s.routes|
    ensures Core(Dump(s, id, explicit, i))
    decreases |s.routes| - i
  {
    hide Core, Advertise;
    if i < |s.routes| {
      CoreEntries(s);
      AdvertiseKeeps(s, id, s.routes[i].prefix, explicit);
      DumpKeeps(Advertise(s, id, s.routes[i].prefix, explicit), id, explicit, i + 1);
    }
  }

  lemma RequestKeeps(s: State, p: Prefix, router: u64, seqno: u16, ids: seq<u64>, from: u64, hops: byte)
    requires Core(s) && Valid(p) && RouterId(router) && hops != 0
    ensures Core(Request(s, p, router, seqno, ids, from, hops))
  {
    hide QueueAll, RequestSlot, Distinct;
    var (slot, t, asks) := RequestSlot(s, p, router);
    var q := Asking(s, p, router, seqno, ids, from, hops);
    if slot.Some? {
      SetMembers(t, slot.value, Some(q));
      QueueAllKeeps(Asked(s, asks).(requests := t[slot.value := Some(q)]), q.targets, Question(q));
    }
  }

  // ----- Selection

  lemma DropsPadded(t: seq<Option<Drop>>, u: seq<Option<Drop>>, now: nat)
    requires DropsOk(t, now) && |t| <= |u| && u[..|t|] == t && forall i :: |t| <= i < |u| ==> u[i].None?
    ensures DropsOk(u, now)
  {
    assert forall i :: 0 <= i < |t| ==> u[i] == t[i];
    forall x | Some(x) in u ensures Some(x) in t { }
  }

  lemma DropRouteKeeps(s: State, p: Prefix)
    requires Core(s) && Valid(p)
    ensures Core(DropRoute(s, p))
  {
    hide Valid, LinksOk, CandsOk, SourcesOk, LocalsOk, RequestsOk, RoutesOk, MsgsOk;
    var d := Drop(p, s.now + Hold(s.cfg.update));
    var i := DropAt(s.drops, p);
    if i < |s.drops| {
      SetMembers(s.drops, i, Some(d));
      DropForSet(s.drops, i, d, p);
    } else {
      var (slot, t, asks) := FreeSlot(s.cfg, s.mem.asks, s.drops, s.cfg.limits.routes);
      if slot.Some? {
        DropsPadded(s.drops, t, s.now);
        DropForPadded(s.drops, t, p);
        SetMembers(t, slot.value, Some(d));
        DropForSet(t, slot.value, d, p);
      }
    }
  }

  lemma SeekKeeps(s: State, o: Route)
    requires Core(s) && RouteOk(o) && !o.unreachable
    ensures Core(Seek(s, o))
  {
    hide Request, Askable, Core;
    var src := SourceFor(s.sources, o.prefix, o.router);
    var ids := Askable(s, o.prefix, |s.cands|);
    if src.Some? && ids != [] {
      var n := (src.value.seqno + 1) % 0x1_0000;
      RequestKeeps(s, o.prefix, o.router, n, ids, 0, 64);
      assert Seek(s, o) == Request(s, o.prefix, o.router, n, ids, 0, 64);
    } else {
      assert Seek(s, o) == s;
    }
  }

  lemma SuppressKeeps(s: State, o: Route)
    requires Core(s) && RouteOk(o) && !o.unreachable
    ensures Core(Suppress(s, o))
  {
    hide DropRoute, Seek;
    DropRouteKeeps(s, o.prefix);
    SeekKeeps(Trigger(DropRoute(s, o.prefix), true), o);
  }

  lemma {:induction false} SuppressLostKeeps(s: State, prior: seq<Route>, i: nat)
    requires Core(s) && RoutesOk(prior) && i <= |prior|
    ensures Core(SuppressLost(s, prior, i))
    decreases |prior| - i
  {
    hide Core, Suppress;
    if i < |prior| {
      assert prior[i] in prior;
      if !prior[i].unreachable && RouteFor(s.routes, prior[i].prefix).None? {
        SuppressKeeps(s, prior[i]);
        SuppressLostKeeps(Suppress(s, prior[i]), prior, i + 1);
      } else {
        SuppressLostKeeps(s, prior, i + 1);
      }
    }
  }

  lemma AppendRouteOk(t: seq<Route>, r: Route)
    requires RoutesOk(t) && RouteOk(r) && RouteFor(t, r.prefix).None?
    ensures RoutesOk(t + [r])
  {
    RouteForAppend(t, r, r.prefix);
  }

  lemma {:induction false} PickLocalsKeeps(s: State, b: Build, i: nat)
    requires Core(s) && i <= |s.locals| && RoutesOk(b.routes) && LocalsTabled(s, i, b.routes)
    ensures RoutesOk(PickLocals(s, b, i).1.routes)
    decreases |s.locals| - i
  {
    if i < |s.locals| {
      if s.locals[i].None? {
        SkipOneLocal(s, i, b.routes);
        PickLocalsKeeps(s, b, i + 1);
      } else {
        assert s.locals[i] in s.locals;
        var r := LocalRoute(s, s.locals[i].value);
        var (ok, b') := AddRoute(s.cfg, b, r);
        PickOneLocal(s, i, b.routes);
        assert RouteFor(b.routes, r.prefix) == LocalAmong(s, i, r.prefix);
        AppendRouteOk(b.routes, r);
        if ok { PickLocalsKeeps(s, b', i + 1); }
      }
    }
  }

  lemma SelectedOk(s: State, c: Candidate)
    requires Core(s) && Some(c) in s.cands && Eligible(s, c)
    ensures RouteOk(Selected(s, c)) && Selected(s, c).prefix == c.route.prefix
  {
    hide Feasible, CostAt, Routable;
    assert Valid(c.route.prefix) by { RoutableIsValid(c.route.prefix, s, c); }
  }

  lemma RoutableIsValid(p: Prefix, s: State, c: Candidate)
    requires Core(s) && Some(c) in s.cands && p == c.route.prefix
    ensures Valid(p)
  {
    hide LinksOk, SourcesOk, LocalsOk, DropsOk, RequestsOk, RoutesOk, MsgsOk;
  }

  lemma ReplaceRouteOk(t: seq<Route>, k: nat, x: Route)
    requires RoutesOk(t) && k < |t| && t[k].prefix == x.prefix && RouteOk(x)
    ensures RoutesOk(t[k := x])
  {
    hide Valid;
  }

  lemma {:induction false} PickCandsKeeps(s: State, prior: seq<Route>, b: Build, i: nat)
    requires Core(s) && i <= |s.cands| && RoutesOk(b.routes)
    ensures RoutesOk(PickCands(s, prior, b, i).1.routes)
    decreases |s.cands| - i
  {
    hide Core, Eligible, Selected, RouteAt, Valid, Preferred;
    if i < |s.cands| {
      if s.cands[i].None? || !Eligible(s, s.cands[i].value) {
        PickCandsKeeps(s, prior, b, i + 1);
      } else {
        assert s.cands[i] in s.cands;
        var x := Selected(s, s.cands[i].value);
        SelectedOk(s, s.cands[i].value);
        var k := RouteAt(b.routes, x.prefix);
        if k == |b.routes| {
          AppendRouteOk(b.routes, x);
          var (ok, b') := AddRoute(s.cfg, b, x);
          if ok { PickCandsKeeps(s, prior, b', i + 1); }
        } else if Preferred(x, b.routes[k], Previous(prior, x.prefix)) {
          ReplaceRouteOk(b.routes, k, x);
          PickCandsKeeps(s, prior, b.(routes := b.routes[k := x]), i + 1);
        } else {
          PickCandsKeeps(s, prior, b, i + 1);
        }
      }
    }
  }

  lemma ChosenKeeps(s: State, prior: seq<Route>, b: Build)
    requires Core(s) && b.routes == []
    ensures RoutesOk(Chosen(s, prior, b).1.routes)
  {
    PickLocalsKeeps(s, b, 0);
    var (ok, b') := PickLocals(s, b, 0);
    if ok { PickCandsKeeps(s, prior, b', 0); }
  }

  lemma {:induction false} KeepDropsKeeps(s: State, b: Build, drops: seq<Option<Drop>>, i: nat)
    requires RoutesOk(b.routes) && DropsOk(drops, s.now) && i <= |drops|
    ensures RoutesOk(KeepDrops(s, b, drops, i).1.routes) && DropsOk(KeepDrops(s, b, drops, i).2, s.now)
    decreases |drops| - i
  {
    if i < |drops| {
      if drops[i].None? {
        KeepDropsKeeps(s, b, drops, i + 1);
      } else if RouteFor(b.routes, drops[i].value.prefix).Some? || drops[i].value.expires <= s.now {
        SetMembers(drops, i, None);
        KeepDropsKeeps(s, b, drops[i := None], i + 1);
      } else {
        assert drops[i] in drops;
        AppendRouteOk(b.routes, UnreachableRoute(drops[i].value.prefix));
        var (ok, b') := AddRoute(s.cfg, b, UnreachableRoute(drops[i].value.prefix));
        if ok { KeepDropsKeeps(s, b', drops, i + 1); }
      }
    }
  }

  lemma TriggerKeeps(s: State, repeat: bool)
    requires Core(s)
    ensures Core(Trigger(s, repeat))
  {
  }

  lemma {:induction false} NoteChangesKeeps(s: State, prior: seq<Route>, i: nat)
    requires Core(s) && i <= |s.routes|
    ensures Core(NoteChanges(s, prior, i))
    decreases |s.routes| - i
  {
    hide Core, Trigger;
    if i < |s.routes| {
      var r := s.routes[i];
      var was := RouteFor(prior, r.prefix);
      TriggerKeeps(s, true);
      TriggerKeeps(s, false);
      if was.None? || was.value.router != r.router || was.value.unreachable != r.unreachable {
        NoteChangesKeeps(Trigger(s, true), prior, i + 1);
      } else if was.value.metric != r.metric || was.value.seqno != r.seqno {
        NoteChangesKeeps(Trigger(s, false), prior, i + 1);
      } else {
        NoteChangesKeeps(s, prior, i + 1);
      }
    }
  }

  lemma ForgetRequest(s: State, i: nat)
    requires Core(s) && i < |s.requests|
    ensures Core(s.(requests := s.requests[i := None]))
  {
    SetMembers(s.requests, i, None);
  }

  lemma {:induction false} SatisfyRequestsKeeps(s: State, i: nat)
    requires Core(s) && i <= |s.requests|
    ensures Core(SatisfyRequests(s, i))
    decreases |s.requests| - i
  {
    hide Core, Advertise, Answered;
    if i < |s.requests| {
      if s.requests[i].Some? && Answered(s.routes, s.requests[i].value) {
        var q := s.requests[i].value;
        CoreEntries(s);
        AdvertiseKeeps(s, q.from, q.prefix, true);
        var t := if q.from != 0 then Advertise(s, q.from, q.prefix, true) else s;
        ForgetRequest(t, i);
        SatisfyRequestsKeeps(t.(requests := t.requests[i := None]), i + 1);
      } else {
        SatisfyRequestsKeeps(s, i + 1);
      }
    }
  }

  lemma SuppressedKeeps(s: State, prior: seq<Route>)
    requires Core(s) && RoutesOk(prior)
    ensures Core(Suppressed(s, prior).1)
  {
    hide SuppressLost, KeepDrops;
    SuppressLostKeeps(s, prior, 0);
    var t := SuppressLost(s, prior, 0);
    KeepDropsKeeps(t, Build(t.routes, t.mem.routes, t.mem.asks), t.drops, 0);
  }

  lemma PublishKeeps(s: State, prior: seq<Route>)
    requires Core(s)
    ensures Core(Publish(s, prior))
  {
    hide Sorted, NoteChanges, SatisfyRequests, Less;
    SortedSorts(s.routes);
    SortedIsDistinct(Sorted(s.routes));
    var t := s.(routes := Sorted(s.routes));
    NoteChangesKeeps(t, prior, 0);
    SatisfyRequestsKeeps(NoteChanges(t, prior, 0), 0);
  }

  lemma CoreRoutes(s: State)
    requires Core(s)
    ensures RoutesOk(s.routes)
  {
  }

  lemma InstalledKeeps(s: State, ok: bool, b: Build)
    requires Core(s) && RoutesOk(b.routes)
    ensures Core(Installed(s, ok, b))
  {
  }

  lemma SelectKeeps(s: State)
    requires Core(s)
    ensures Core(SelectRoutes(s))
  {
    hide Core, Chosen, Installed, Suppressed, Publish, RoutesOk;
    if !s.stopped {
      var (ok, cap, asks) := Reserve(s.cfg, s.mem.asks, s.mem.scratch, |s.routes|, s.cfg.limits.routes);
      CoreIgnoresMemory(s, Asked(s, asks).(stopped := true));
      ChosenKeeps(s, s.routes, Build([], s.mem.routes, asks));
      var (ok1, b) := Chosen(s, s.routes, Build([], s.mem.routes, asks));
      var s1 := s.(mem := s.mem.(scratch := cap));
      CoreIgnoresMemory(s, s1);
      InstalledKeeps(s1, ok1, b);
      assert RoutesOk(s.routes) by { CoreRoutes(s); }
      SuppressedKeeps(Installed(s1, ok1, b), s.routes);
      var t2 := Suppressed(Installed(s1, ok1, b), s.routes).1;
      PublishKeeps(t2, s.routes);
      var t3 := Publish(t2, s.routes);
      CoreIgnoresMemory(t3, t3.(mem := t3.mem.(scratch := 0)));
    }
  }

  lemma ChoiceIsReachable(s: State, p: Prefix)
    requires Core(s) && Choice(s, p).Some?
    ensures !Choice(s, p).value.unreachable
  {
    hide Eligible, Best;
    if !HasLocal(s.locals, p) { ChoiceIsWinner(s, p); }
  }

  // ----- Received messages

  /** What the parser guarantees about the messages it delivers. */
  predicate Delivered(m: Message) {
    match m
    case Update(target, router, _, metric, interval, _, _) =>
      interval != 0 && (target.None? ==> metric == INFINITY) && (target.Some? ==> Valid(target.value))
      && (metric != INFINITY ==> RouterId(router))
    case Ihu(_, interval, _) => interval != 0
    case RouteRequest(target) => target.Some? ==> Valid(target.value)
    case SeqRequest(target, router, _, hops) => target.Some? && Valid(target.value) && hops != 0 && RouterId(router)
    case _ => true
  }

  lemma CandsPadded(t: seq<Option<Candidate>>, u: seq<Option<Candidate>>, router: u64, now: nat, lastLink: u64)
    requires CandsOk(t, router, now, lastLink) && |t| <= |u| && u[..|t|] == t && forall i :: |t| <= i < |u| ==> u[i].None?
    ensures CandsOk(u, router, now, lastLink)
  {
    assert forall i :: 0 <= i < |t| ==> u[i] == t[i];
    forall x | Some(x) in u ensures Some(x) in t { }
  }

  lemma SetCand(t: seq<Option<Candidate>>, k: nat, c: Candidate, router: u64, now: nat, lastLink: u64)
    requires CandsOk(t, router, now, lastLink) && k < |t| && CandOk(c, router, now, lastLink)
    requires t[k].Some? ==> t[k].value.route.prefix == c.route.prefix && t[k].value.route.link == c.route.link
    requires t[k].None? ==> CandAt(t, c.route.prefix, c.route.link) == |t|
    ensures CandsOk(t[k := Some(c)], router, now, lastLink)
  {
    SetMembers(t, k, Some(c));
  }

  /** Retracting any set of candidates in place keeps the table well formed. */
  lemma RetractCands(t: seq<Option<Candidate>>, u: seq<Option<Candidate>>, router: u64, now: nat, lastLink: u64)
    requires CandsOk(t, router, now, lastLink) && |u| == |t|
    requires forall i :: 0 <= i < |t| ==>
      u[i] == t[i] || u[i].None? || (t[i].Some? && u[i].value.route == t[i].value.route && CandOk(u[i].value, router, now, lastLink))
    ensures CandsOk(u, router, now, lastLink)
  {
    forall c | Some(c) in u
      ensures CandOk(c, router, now, lastLink)
    {
      var i :| 0 <= i < |u| && u[i] == Some(c);
      if u[i] == t[i] { assert t[i] in t; }
    }
    forall i, j | 0 <= i < j < |u| && u[i].Some? && u[j].Some?
      ensures !(u[i].value.route.prefix == u[j].value.route.prefix && u[i].value.route.link == u[j].value.route.link)
    {
      assert t[i].Some? && t[j].Some? && t[i].value.route == u[i].value.route && t[j].value.route == u[j].value.route;
    }
  }

  lemma RetractLinkKeeps(s: State, link: u64)
    requires Core(s)
    ensures Core(s.(cands := RetractLink(s.cands, link)))
  {
    forall i | 0 <= i < |s.cands| && s.cands[i].Some? ensures s.cands[i] in s.cands { }
    RetractCands(s.cands, RetractLink(s.cands, link), s.cfg.router, s.now, s.lastLink);
  }

  lemma CandSlotKeeps(s: State, p: Prefix, link: u64)
    requires Core(s)
    ensures var (slot, t) := CandSlot(s, p, link);
            Core(t) && (slot.Some? && t.cands[slot.value].None? ==> CandAt(t.cands, p, link) == |t.cands|)
            && (slot.Some? && t.cands[slot.value].Some? ==> t.cands[slot.value].value.route.prefix == p && t.cands[slot.value].value.route.link == link)
  {
    hide Admissible, Routable, LinksOk, SourcesOk, LocalsOk, DropsOk, RequestsOk, RoutesOk, MsgsOk, CandOk;
    var i := CandAt(s.cands, p, link);
    if i == |s.cands| && Admissible(s, p) {
      var (slot, t, asks) := FreeSlot(s.cfg, s.mem.asks, s.cands, s.cfg.limits.candidates);
      CandsPadded(s.cands, t, s.cfg.router, s.now, s.lastLink);
      assert forall k :: 0 <= k < |s.cands| ==> t[k] == s.cands[k];
    }
  }

  lemma ChaseKeeps(s: State, link: u64, c: Candidate)
    requires Core(s) && Valid(c.route.prefix) && RouterId(c.route.router)
    ensures Core(Chase(s, link, c))
  {
    hide Request, Feasible, Metric;
    var src := SourceFor(s.sources, c.route.prefix, c.route.router);
    if src.Some? {
      RequestKeeps(s, c.route.prefix, c.route.router, (src.value.seqno + 1) % 0x1_0000, [link], 0, 64);
    }
  }

  lemma LearnedKeeps(s: State, k: nat, c: Candidate)
    requires Core(s) && k < |s.cands| && CandOk(c, s.cfg.router, s.now, s.lastLink)
    requires s.cands[k].Some? ==> s.cands[k].value.route.prefix == c.route.prefix && s.cands[k].value.route.link == c.route.link
    requires s.cands[k].None? ==> CandAt(s.cands, c.route.prefix, c.route.link) == |s.cands|
    ensures Core(s.(cands := s.cands[k := Some(c)]))
  {
    SetCand(s.cands, k, c, s.cfg.router, s.now, s.lastLink);
  }

  lemma LearnedOk(s: State, l: LinkConfig, m: Message)
    requires m.Update? && Delivered(m) && m.target.Some? && m.metric != INFINITY && l.id <= s.lastLink && !Refused(s, l, m)
    ensures CandOk(Learned(s, l.id, m), s.cfg.router, s.now, s.lastLink)
  {
    hide Routable, Recordable;
  }

  lemma LearnKeeps(s: State, l: LinkConfig, m: Message)
    requires Core(s) && m.Update? && Delivered(m) && m.target.Some? && m.metric != INFINITY && l.id <= s.lastLink
    ensures Core(LearnUpdate(s, l, m))
  {
    hide CandSlot, Chase, Refused, Core;
    var p := m.target.value;
    if !Refused(s, l, m) {
      assert CandOk(Learned(s, l.id, m), s.cfg.router, s.now, s.lastLink) by { LearnedOk(s, l, m); }
      CandSlotKeeps(s, p, l.id);
      var (slot, t) := CandSlot(s, p, l.id);
      if slot.Some? {
        var k := slot.value;
        var t1 := if t.cands[k].Some? && t.cands[k].value.route.router != m.router then Trigger(t, true) else t;
        var c := Learned(s, l.id, m);
        TriggerKeeps(t, true);
        LearnedKeeps(t1, k, c);
        ChaseKeeps(t1.(cands := t1.cands[k := Some(c)]), l.id, c);
      }
    }
  }

  lemma LearnUpdateKeeps(s: State, l: LinkConfig, m: Message)
    requires Core(s) && m.Update? && Delivered(m) && l.id <= s.lastLink
    ensures Core(LearnUpdate(s, l, m))
  {
    if m.target.None? {
      RetractLinkKeeps(s, l.id);
    } else if m.metric == INFINITY {
      var i := CandAt(s.cands, m.target.value, l.id);
      if i < |s.cands| {
        assert s.cands[i] in s.cands;
        SetCand(s.cands, i, s.cands[i].value.(advertised := INFINITY), s.cfg.router, s.now, s.lastLink);
      }
    } else {
      LearnKeeps(s, l, m);
    }
  }

  lemma ForwardKeeps(s: State, from: u64, m: Message)
    requires Core(s) && m.SeqRequest? && Delivered(m)
    ensures Core(Forward(s, from, m))
  {
    var p := m.target.value;
    var best := Relay(s, p, from, |s.cands|);
    if m.router == s.cfg.router || m.hops < 2 || !Recorded(s.sources, p) || best.None? {
      assert Forward(s, from, m) == s;
    } else {
      RequestKeeps(s, p, m.router, m.seqno, [best.value.route.link], from, m.hops - 1);
      assert Forward(s, from, m) == Request(s, p, m.router, m.seqno, [best.value.route.link], from, m.hops - 1);
    }
  }

  lemma AnswerSeqRequestKeeps(s: State, from: u64, m: Message)
    requires Core(s) && m.SeqRequest? && Delivered(m)
    ensures Core(AnswerSeqRequest(s, from, m))
  {
    hide SelectRoutes, Advertise, Forward;
    var p := m.target.value;
    var r := RouteFor(s.routes, p);
    if r.Some? && !r.value.unreachable && (r.value.router != m.router || AtLeast(r.value.seqno, m.seqno)) {
      AdvertiseKeeps(s, from, p, true);
      assert AnswerSeqRequest(s, from, m) == Advertise(s, from, p, true);
    } else if r.Some? && !r.value.unreachable && r.value.local {
      var s1 := s.(seqno := (s.seqno + 1) % 0x1_0000);
      SelectKeeps(s1);
      AdvertiseKeeps(SelectRoutes(s1), from, p, true);
      assert AnswerSeqRequest(s, from, m) == Bump(s, from, p);
    } else {
      ForwardKeeps(s, from, m);
      assert AnswerSeqRequest(s, from, m) == Forward(s, from, m);
    }
  }

  lemma SetLinkKeeps(s: State, i: nat, l: Link)
    requires Core(s) && i < |s.links| && s.links[i].Some? && l.config.id == s.links[i].value.config.id && LinkOk(l, s.now, s.lastLink)
    ensures Core(s.(links := s.links[i := Some(l)]))
  {
    var u := s.links[i := Some(l)];
    SetMembers(s.links, i, Some(l));
    forall q | q in s.msgs ensures HasLink(u, q.link) {
      var k := LinkAt(s.links, q.link);
      assert u[k].Some? && u[k].value.config.id == q.link;
    }
  }

  lemma AnswerRequestKeeps(s: State, li: nat, target: Option<Prefix>)
    requires Core(s) && li < |s.links| && s.links[li].Some? && (target.Some? ==> Valid(target.value))
    ensures Core(AnswerRequest(s, li, target))
  {
    hide SelectRoutes, Advertise, Dump, Core;
    SelectKeeps(s);
    var t := SelectRoutes(s);
    var l := s.links[li].value;
    CoreEntries(s);
    if target.Some? {
      AdvertiseKeeps(t, l.config.id, target.value, true);
    } else {
      DumpKeeps(t, l.config.id, true, 0);
      SetLinkKeeps(Dump(t, l.config.id, true, 0), li, l.(lastDump := s.now, dumped := true));
    }
  }

  lemma ReceiveMessageKeeps(s: State, li: nat, m: Message)
    requires Core(s) && li < |s.links| && s.links[li].Some? && Delivered(m)
    ensures Core(ReceiveMessage(s, li, m))
  {
    hide SelectRoutes, AnswerSeqRequest, AnswerRequest, LearnUpdate, Queue, Core;
    var l := s.links[li].value;
    CoreEntries(s);
    match m
    case Hello(_, _, _) => SetLinkKeeps(s, li, HearNeighbour(l, s.now, m));
    case Ihu(_, _, _) => SetLinkKeeps(s, li, HearNeighbour(l, s.now, m));
    case AckRequest(o, _) => QueueKeeps(s, l.config.id, Ack(o));
    case Ack(_) =>
    case Update(_, _, _, _, _, _, _) => LearnUpdateKeeps(s, l.config, m);
    case RouteRequest(target) => AnswerRequestKeeps(s, li, target);
    case SeqRequest(_, _, _, _) =>
      SelectKeeps(s);
      AnswerSeqRequestKeeps(SelectRoutes(s), l.config.id, m);
  }

  lemma {:induction false} ReceiveAllKeeps(s: State, li: nat, ms: seq<Message>)
    requires Core(s) && li < |s.links| && s.links[li].Some? && forall m :: m in ms ==> Delivered(m)
    ensures Core(ReceiveAll(s, li, ms))
    decreases |ms|
  {
    hide ReceiveMessage, Core, Delivered;
    if ms != [] {
      ReceiveMessageKeeps(s, li, ms[0]);
      ReceiveAllKeeps(ReceiveMessage(s, li, ms[0]), li, ms[1..]);
    }
  }

  // ----- Timers

  lemma DrawKeeps(s: State)
    requires Core(s)
    ensures Core(Drawn(s))
  {
  }

  lemma HelloTimerKeeps(s: State, i: nat)
    requires Core(s) && i < |s.links| && s.links[i].Some?
    ensures Core(HelloTimer(s, i))
  {
    hide Core, Queue, Jitter;
    var l := s.links[i].value;
    var hello := HelloMs(s.cfg, l);
    CoreEntries(s);
    QueueKeeps(s, l.config.id, Hello(false, l.helloSeq, hello / 10));
    var t := Queue(s, l.config.id, Hello(false, l.helloSeq, hello / 10));
    var l' := l.(helloSeq := (l.helloSeq + 1) % 0x1_0000, nextHello := s.now + hello - Jitter(t, hello / 8));
    SetLinkKeeps(t, i, l');
    DrawKeeps(t.(links := t.links[i := Some(l')]));
  }

  lemma IhuTimerKeeps(s: State, i: nat)
    requires Core(s) && i < |s.links| && s.links[i].Some?
    ensures Core(IhuTimer(s, i))
  {
    hide Core, Queue, Jitter;
    var l := s.links[i].value;
    var hello := HelloMs(s.cfg, l);
    CoreEntries(s);
    var rx := if l.multicast.expires <= s.now && l.unicast.expires <= s.now then INFINITY else l.config.cost;
    QueueKeeps(s, l.config.id, Ihu(rx, hello * 2 / 10, NoAddress));
    var t := Queue(s, l.config.id, Ihu(rx, hello * 2 / 10, NoAddress));
    var l' := l.(nextIhu := s.now + hello * 2 - Jitter(t, hello / 8));
    SetLinkKeeps(t, i, l');
    DrawKeeps(t.(links := t.links[i := Some(l')]));
  }

  lemma UpdateTimerKeeps(s: State, i: nat)
    requires Core(s) && i < |s.links| && s.links[i].Some?
    ensures Core(UpdateTimer(s, i))
  {
    hide Dump, Core, Jitter;
    var l := s.links[i].value;
    CoreEntries(s);
    DumpKeeps(s, l.config.id, false, 0);
    var t := Dump(s, l.config.id, false, 0);
    var l' := l.(nextUpdate := s.now + s.cfg.update - Jitter(t, s.cfg.update / 8));
    SetLinkKeeps(t, i, l');
    DrawKeeps(t.(links := t.links[i := Some(l')]));
  }

  lemma {:induction false} LinkTimersKeeps(s: State, i: nat)
    requires Core(s) && i <= |s.links|
    ensures Core(LinkTimers(s, i))
    decreases |s.links| - i
  {
    hide Core, HelloTimer, IhuTimer, UpdateTimer;
    if i < |s.links| {
      if s.links[i].None? {
        LinkTimersKeeps(s, i + 1);
      } else {
        HelloTimerKeeps(s, i);
        var t := HelloTimer(s, i);
        if t.links[i].Some? { IhuTimerKeeps(t, i); }
        var u := if t.links[i].Some? then IhuTimer(t, i) else t;
        if u.links[i].Some? { UpdateTimerKeeps(u, i); }
        var v := if u.links[i].Some? then UpdateTimer(u, i) else u;
        LinkTimersKeeps(v, i + 1);
      }
    }
  }

  lemma {:induction false} DumpLinksKeeps(s: State, i: nat)
    requires Core(s) && i <= |s.links|
    ensures Core(DumpLinks(s, i))
    decreases |s.links| - i
  {
    hide Core, Dump;
    if i < |s.links| {
      if s.links[i].None? {
        DumpLinksKeeps(s, i + 1);
      } else {
        DumpKeeps(s, s.links[i].value.config.id, false, 0);
        DumpLinksKeeps(Dump(s, s.links[i].value.config.id, false, 0), i + 1);
      }
    }
  }

  lemma TriggeredDumpKeeps(s: State)
    requires Core(s)
    ensures Core(TriggeredDump(s))
  {
    hide DumpLinks;
    DumpLinksKeeps(s, 0);
  }

  lemma {:induction false} RequestTimersKeeps(s: State, i: nat)
    requires Core(s) && i <= |s.requests|
    ensures Core(RequestTimers(s, i))
    decreases |s.requests| - i
  {
    hide QueueAll, LinksOk, CandsOk, SourcesOk, LocalsOk, DropsOk, RoutesOk, MsgsOk;
    if i < |s.requests| {
      if s.requests[i].Some? && s.requests[i].value.remaining > 0 && s.requests[i].value.next <= s.now {
        var q := s.requests[i].value;
        assert s.requests[i] in s.requests;
        QueueAllKeeps(s, q.targets, Question(q));
        var t := QueueAll(s, q.targets, Question(q));
        var q' := q.(remaining := q.remaining - 1, next := s.now + 1000);
        SetMembers(t.requests, i, Some(q'));
        RequestTimersKeeps(t.(requests := t.requests[i := Some(q')]), i + 1);
      } else {
        RequestTimersKeeps(s, i + 1);
      }
    }
  }

  lemma {:induction false} RefreshTimersKeeps(s: State, i: nat)
    requires Core(s) && i <= |s.cands|
    ensures Core(RefreshTimers(s, i))
    decreases |s.cands| - i
  {
    hide Queue, NeedsRefresh, LinksOk, SourcesOk, LocalsOk, DropsOk, RequestsOk, RoutesOk, MsgsOk, DistinctCands, Routable;
    if i < |s.cands| {
      if s.cands[i].Some? && NeedsRefresh(s.routes, s.now, s.cands[i].value) {
        var c := s.cands[i].value;
        assert s.cands[i] in s.cands;
        RoutableIsValid(c.route.prefix, s, c);
        QueueKeeps(s, c.route.link, RouteRequest(Some(c.route.prefix)));
        var t := Queue(s, c.route.link, RouteRequest(Some(c.route.prefix)));
        SetCand(t.cands, i, c.(refreshed := true), s.cfg.router, s.now, s.lastLink);
        RefreshTimersKeeps(t.(cands := t.cands[i := Some(c.(refreshed := true))]), i + 1);
      } else {
        RefreshTimersKeeps(s, i + 1);
      }
    }
  }

  lemma TimersKeeps(s: State)
    requires Core(s)
    ensures Core(Timers(s))
  {
    hide Core, LinkTimers, TriggeredDump, RequestTimers, RefreshTimers;
    LinkTimersKeeps(s, 0);
    var t := LinkTimers(s, 0);
    TriggeredDumpKeeps(t);
    RequestTimersKeeps(TriggeredDump(t), 0);
    RefreshTimersKeeps(RequestTimers(TriggeredDump(t), 0), 0);
  }

  // ----- Collection

  lemma {:induction false} LiveMembers<T(!new)>(t: seq<Option<T>>)
    ensures forall x :: x in Live(t) <==> x in t && x.Some?
  {
    if t != [] {
      LiveMembers(t[1..]);
      assert t == [t[0]] + t[1..];
    }
  }

  /** Live entries keep their relative order. */
  lemma {:induction false} LiveOrder<T(!new)>(t: seq<Option<T>>, i: nat, j: nat) returns (a: nat, b: nat)
    requires i < j < |Live(t)|
    ensures a < b < |t| && t[a] == Live(t)[i] && t[b] == Live(t)[j]
  {
    if t[0].None? {
      a, b := LiveOrder(t[1..], i, j);
      a, b := a + 1, b + 1;
    } else if i > 0 {
      a, b := LiveOrder(t[1..], i - 1, j - 1);
      a, b := a + 1, b + 1;
    } else {
      a := 0;
      b := LiveAt(t[1..], j - 1);
      b := b + 1;
    }
  }

  lemma {:induction false} LiveAt<T(!new)>(t: seq<Option<T>>, j: nat) returns (b: nat)
    requires j < |Live(t)|
    ensures b < |t| && t[b] == Live(t)[j]
  {
    if t[0].Some? && j == 0 {
      b := 0;
    } else {
      b := LiveAt(t[1..], if t[0].Some? then j - 1 else j);
      b := b + 1;
    }
  }

  /** Collection keeps exactly the live entries, in order, whether or not the
      allocator lets the table shrink. */
  lemma CollectedIsStable<T(!new)>(cfg: Config, asks: nat, t: seq<Option<T>>, i: nat, j: nat) returns (a: nat, b: nat)
    requires i < j < |CollectTable(cfg, asks, t).0| && CollectTable(cfg, asks, t).0[i].Some? && CollectTable(cfg, asks, t).0[j].Some?
    ensures a < b < |t| && t[a] == CollectTable(cfg, asks, t).0[i] && t[b] == CollectTable(cfg, asks, t).0[j]
  {
    var u := CollectTable(cfg, asks, t).0;
    assert j < |Live(t)| && u[i] == Live(t)[i] && u[j] == Live(t)[j];
    a, b := LiveOrder(t, i, j);
  }

  lemma CollectedMembers<T(!new)>(cfg: Config, asks: nat, t: seq<Option<T>>)
    ensures forall x :: Some(x) in CollectTable(cfg, asks, t).0 <==> Some(x) in t
  {
    LiveMembers(t);
    var u := CollectTable(cfg, asks, t).0;
    forall x ensures Some(x) in u <==> Some(x) in t {
      assert Some(x) in u <==> Some(x) in Live(t);
    }
  }

  lemma LinkMember(links: seq<Option<Link>>, id: u64)
    ensures HasLink(links, id) <==> exists l :: Some(l) in links && l.config.id == id
  {
    var i := LinkAt(links, id);
    if i < |links| { assert links[i] in links; }
  }

  lemma CollectedLinks(cfg: Config, asks: nat, t: seq<Option<Link>>, now: nat, lastLink: u64)
    requires LinksOk(t, now, lastLink)
    ensures LinksOk(CollectTable(cfg, asks, t).0, now, lastLink)
  {
    hide CollectTable;
    CollectedMembers(cfg, asks, t);
    var u := CollectTable(cfg, asks, t).0;
    forall i, j | 0 <= i < j < |u| && u[i].Some? && u[j].Some? ensures u[i].value.config.id != u[j].value.config.id {
      var a, b := CollectedIsStable(cfg, asks, t, i, j);
    }
  }

  lemma CollectedCands(cfg: Config, asks: nat, t: seq<Option<Candidate>>, router: u64, now: nat, lastLink: u64)
    requires CandsOk(t, router, now, lastLink)
    ensures CandsOk(CollectTable(cfg, asks, t).0, router, now, lastLink)
  {
    hide CollectTable;
    CollectedMembers(cfg, asks, t);
    var u := CollectTable(cfg, asks, t).0;
    forall i, j | 0 <= i < j < |u| && u[i].Some? && u[j].Some?
      ensures !(u[i].value.route.prefix == u[j].value.route.prefix && u[i].value.route.link == u[j].value.route.link)
    {
      var a, b := CollectedIsStable(cfg, asks, t, i, j);
    }
  }

  lemma CollectedSources(cfg: Config, asks: nat, t: seq<Option<Source>>, now: nat, source: nat)
    requires SourcesOk(t, now, source)
    ensures SourcesOk(CollectTable(cfg, asks, t).0, now, source)
  {
    hide CollectTable;
    CollectedMembers(cfg, asks, t);
    var u := CollectTable(cfg, asks, t).0;
    forall i, j | 0 <= i < j < |u| && u[i].Some? && u[j].Some?
      ensures !(u[i].value.prefix == u[j].value.prefix && u[i].value.router == u[j].value.router)
    {
      var a, b := CollectedIsStable(cfg, asks, t, i, j);
    }
  }

  lemma CollectedLocals(cfg: Config, asks: nat, t: seq<Option<Local>>)
    requires LocalsOk(t)
    ensures LocalsOk(CollectTable(cfg, asks, t).0)
  {
    hide CollectTable;
    CollectedMembers(cfg, asks, t);
    var u := CollectTable(cfg, asks, t).0;
    forall i, j | 0 <= i < j < |u| && u[i].Some? && u[j].Some? ensures u[i].value.prefix != u[j].value.prefix {
      var a, b := CollectedIsStable(cfg, asks, t, i, j);
    }
  }

  lemma CollectedDrops(cfg: Config, asks: nat, t: seq<Option<Drop>>, now: nat)
    requires DropsOk(t, now)
    ensures DropsOk(CollectTable(cfg, asks, t).0, now)
  {
    hide CollectTable;
    CollectedMembers(cfg, asks, t);
    var u := CollectTable(cfg, asks, t).0;
    forall i, j | 0 <= i < j < |u| && u[i].Some? && u[j].Some? ensures u[i].value.prefix != u[j].value.prefix {
      var a, b := CollectedIsStable(cfg, asks, t, i, j);
    }
  }

  /** The tables after collection hold the same entries. */
  ghost predicate SameEntries(s: State, r: State) {
    && (forall x :: Some(x) in r.links <==> Some(x) in s.links)
    && (forall x :: Some(x) in r.cands <==> Some(x) in s.cands)
    && (forall x :: Some(x) in r.sources <==> Some(x) in s.sources)
    && (forall x :: Some(x) in r.locals <==> Some(x) in s.locals)
    && (forall x :: Some(x) in r.drops <==> Some(x) in s.drops)
    && (forall x :: Some(x) in r.requests <==> Some(x) in s.requests)
  }

  lemma CollectSameEntries(s: State)
    ensures SameEntries(s, Collect(s))
  {
    hide CollectTable, CollectCap;
    var (links, a1) := CollectTable(s.cfg, s.mem.asks, s.links);
    var (cands, a2) := CollectTable(s.cfg, a1, s.cands);
    var (sources, a3) := CollectTable(s.cfg, a2, s.sources);
    var (locals, a4) := CollectTable(s.cfg, a3, s.locals);
    var (drops, a5) := CollectTable(s.cfg, a4, s.drops);
    CollectedMembers(s.cfg, s.mem.asks, s.links);
    CollectedMembers(s.cfg, a1, s.cands);
    CollectedMembers(s.cfg, a2, s.sources);
    CollectedMembers(s.cfg, a3, s.locals);
    CollectedMembers(s.cfg, a4, s.drops);
    CollectedMembers(s.cfg, a5, s.requests);
  }

  lemma CollectKeeps(s: State)
    requires Core(s)
    ensures Core(Collect(s))
  {
    hide CollectTable, CollectCap, HasLink;
    CollectSameEntries(s);
    var r := Collect(s);
    var (links, a1) := CollectTable(s.cfg, s.mem.asks, s.links);
    var (cands, a2) := CollectTable(s.cfg, a1, s.cands);
    var (sources, a3) := CollectTable(s.cfg, a2, s.sources);
    var (locals, a4) := CollectTable(s.cfg, a3, s.locals);
    var (drops, a5) := CollectTable(s.cfg, a4, s.drops);
    CollectedLinks(s.cfg, s.mem.asks, s.links, s.now, s.lastLink);
    CollectedCands(s.cfg, a1, s.cands, s.cfg.router, s.now, s.lastLink);
    CollectedSources(s.cfg, a2, s.sources, s.now, s.cfg.source);
    CollectedLocals(s.cfg, a3, s.locals);
    CollectedDrops(s.cfg, a4, s.drops, s.now);
    assert MsgsOk(r.msgs, r.links) by {
      forall q | q in r.msgs ensures HasLink(r.links, q.link) {
        assert HasLink(s.links, q.link);
        LinkMember(s.links, q.link);
        LinkMember(r.links, q.link);
      }
    }
  }

  // ----- Event frame

  lemma ExpiredCands(t: seq<Option<Candidate>>, u: seq<Option<Candidate>>, router: u64, before: nat, now: nat, lastLink: u64)
    requires CandsOk(t, router, before, lastLink) && before <= now && |u| == |t|
    requires forall i :: 0 <= i < |t| ==> u[i] == Aged(t[i], now)
    ensures CandsOk(u, router, now, lastLink)
  {
    hide Routable;
    forall c | Some(c) in u
      ensures CandOk(c, router, now, lastLink)
    {
      var i :| 0 <= i < |u| && u[i] == Some(c);
      assert t[i] in t;
    }
    forall i, j | 0 <= i < j < |u| && u[i].Some? && u[j].Some?
      ensures !(u[i].value.route.prefix == u[j].value.route.prefix && u[i].value.route.link == u[j].value.route.link)
    {
      assert t[i].Some? && t[j].Some? && t[i].value.route == u[i].value.route && t[j].value.route == u[j].value.route;
    }
  }

  lemma ExpiredSources(t: seq<Option<Source>>, u: seq<Option<Source>>, before: nat, now: nat, source: nat)
    requires SourcesOk(t, before, source) && before <= now && |u| == |t|
    requires forall i :: 0 <= i < |t| ==> u[i] == if t[i].Some? && t[i].value.expires <= now then None else t[i]
    ensures SourcesOk(u, now, source)
  {
    forall x | Some(x) in u
      ensures SourceOk(x, now, source)
    {
      var i :| 0 <= i < |u| && u[i] == Some(x);
      assert t[i] in t;
    }
  }

  lemma ExpireKeeps(s: State, t: State)
    requires Core(s) && s.now <= t.now && t == s.(now := t.now, mem := t.mem, ctl := t.ctl, before := t.before, msgs := [])
    ensures Core(Expire(t))
  {
    hide Routable, Valid;
    var r := Expire(t);
    ExpiredCands(s.cands, r.cands, s.cfg.router, s.now, t.now, s.lastLink);
    ExpiredSources(s.sources, r.sources, s.now, t.now, s.cfg.source);
    forall q | Some(q) in r.requests ensures PendingOk(q, t.now) {
      var i :| 0 <= i < |r.requests| && r.requests[i] == Some(q);
      assert s.requests[i] in s.requests;
    }
  }

  lemma BeginKeeps(s: State, now: nat)
    requires Core(s)
    ensures Core(Begin(s, now).1)
  {
    hide Core, Expire;
    var (st, t) := Begin(s, now);
    if st.Ok? {
      var (ok, cap, asks) := Reserve(s.cfg, s.mem.asks, s.mem.before, |s.routes|, s.cfg.limits.routes);
      ExpireKeeps(s, s.(mem := s.mem.(asks := asks, before := cap, messages := 0), before := s.routes, msgs := [],
                        ctl := s.ctl.(cursor := 0, ready := false), now := now));
    } else {
      CoreIgnoresMemory(s, t);
    }
  }

  lemma CoreIgnoresMemory(s: State, t: State)
    requires Core(s) && t == s.(mem := t.mem, ctl := t.ctl, before := t.before, stopped := t.stopped, seqno := t.seqno)
    ensures Core(t)
  {
  }

  lemma FinishKeeps(s: State)
    requires Core(s)
    ensures Core(Finish(s).1)
  {
    hide Core, SelectRoutes, Timers, Collect;
    SelectKeeps(s);
    TimersKeeps(SelectRoutes(s));
    var t := Timers(SelectRoutes(s));
    CoreIgnoresMemory(t, t.(before := []));
    CollectKeeps(t.(before := []));
    if t.stopped {
      CoreIgnoresMemory(t, Finish(s).1);
    } else {
      CoreIgnoresMemory(Collect(t.(before := [])), Finish(s).1);
    }
  }
}
