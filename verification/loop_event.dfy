/** One whole call of one engine, as the loop-freedom argument sees it. */
module LoopEvent {
  import opened Types
  import opened Prefixes
  import opened Seqno
  import opened EngineState
  import opened Engine
  import opened EngineEvents
  import opened Wire
  import opened Selection
  import opened Invariant
  import opened Records
  import opened Settled
  import opened Query
  import opened Runs
  import RunLimits
  import Suppression
  import opened LoopNode

  // ----- Timers

  lemma HelloTimerSafe(s: State, i: nat, k: Key, x0: Option<Source>)
    requires Safe(s, k, x0) && i < |s.links| && s.links[i].Some?
    ensures Safe(HelloTimer(s, i), k, x0)
  {
    hide Safe, Queue, Jitter;
    var l := s.links[i].value;
    if l.nextHello <= s.now {
      var m := Hello(false, l.helloSeq, HelloMs(s.cfg, l) / 10);
      QueueSafe(s, l.config.id, m, k, x0);
      SafeAlone(Queue(s, l.config.id, m), HelloTimer(s, i), k, x0);
    }
  }

  lemma IhuTimerSafe(s: State, i: nat, k: Key, x0: Option<Source>)
    requires Safe(s, k, x0) && i < |s.links| && s.links[i].Some?
    ensures Safe(IhuTimer(s, i), k, x0)
  {
    hide Safe, Queue, Jitter;
    var l := s.links[i].value;
    if l.nextIhu <= s.now {
      var rx := if l.multicast.expires <= s.now && l.unicast.expires <= s.now then INFINITY else l.config.cost;
      var m := Ihu(rx, HelloMs(s.cfg, l) * 2 / 10, NoAddress);
      QueueSafe(s, l.config.id, m, k, x0);
      SafeAlone(Queue(s, l.config.id, m), IhuTimer(s, i), k, x0);
    }
  }

  lemma UpdateTimerSafe(s: State, i: nat, k: Key, x0: Option<Source>)
    requires Core(s) && Safe(s, k, x0) && i < |s.links| && s.links[i].Some?
    ensures Safe(UpdateTimer(s, i), k, x0)
  {
    hide Core, Safe, Dump, Jitter;
    var l := s.links[i].value;
    DumpSafe(s, l.config.id, false, 0, k, x0);
    if l.nextUpdate <= s.now { SafeAlone(Dump(s, l.config.id, false, 0), UpdateTimer(s, i), k, x0); }
  }

  lemma {:induction false} LinkTimersSafe(s: State, i: nat, k: Key, x0: Option<Source>)
    requires Core(s) && Safe(s, k, x0) && i <= |s.links|
    ensures Safe(LinkTimers(s, i), k, x0)
    decreases |s.links| - i
  {
    hide Core, Safe, HelloTimer, IhuTimer, UpdateTimer;
    if i < |s.links| {
      if s.links[i].None? {
        LinkTimersSafe(s, i + 1, k, x0);
      } else {
        HelloTimerSafe(s, i, k, x0);
        HelloTimerKeeps(s, i);
        var t := HelloTimer(s, i);
        var u := if t.links[i].Some? then IhuTimer(t, i) else t;
        if t.links[i].Some? { IhuTimerSafe(t, i, k, x0); IhuTimerKeeps(t, i); }
        var v := if u.links[i].Some? then UpdateTimer(u, i) else u;
        if u.links[i].Some? { UpdateTimerSafe(u, i, k, x0); UpdateTimerKeeps(u, i); }
        LinkTimersSafe(v, i + 1, k, x0);
      }
    }
  }

  lemma {:induction false} DumpLinksSafe(s: State, i: nat, k: Key, x0: Option<Source>)
    requires Core(s) && Safe(s, k, x0) && i <= |s.links|
    ensures Safe(DumpLinks(s, i), k, x0)
    decreases |s.links| - i
  {
    hide Core, Safe, Dump;
    if i < |s.links| {
      if s.links[i].None? {
        DumpLinksSafe(s, i + 1, k, x0);
      } else {
        var id := s.links[i].value.config.id;
        DumpSafe(s, id, false, 0, k, x0);
        DumpKeeps(s, id, false, 0);
        DumpLinksSafe(Dump(s, id, false, 0), i + 1, k, x0);
      }
    }
  }

  lemma TriggeredDumpSafe(s: State, k: Key, x0: Option<Source>)
    requires Core(s) && Safe(s, k, x0)
    ensures Safe(TriggeredDump(s), k, x0)
  {
    hide Core, Safe, DumpLinks, Jitter;
    DumpLinksSafe(s, 0, k, x0);
    if s.pace.on && s.pace.at <= s.now { SafeAlone(DumpLinks(s, 0), TriggeredDump(s), k, x0); }
  }

  lemma {:induction false} RequestTimersSafe(s: State, i: nat, k: Key, x0: Option<Source>)
    requires Safe(s, k, x0) && i <= |s.requests|
    ensures Safe(RequestTimers(s, i), k, x0)
    decreases |s.requests| - i
  {
    hide Safe, QueueAll;
    if i < |s.requests| {
      if s.requests[i].Some? && s.requests[i].value.remaining > 0 && s.requests[i].value.next <= s.now {
        var q := s.requests[i].value;
        QueueAllSafe(s, q.targets, Question(q), k, x0);
        var t := QueueAll(s, q.targets, Question(q));
        var u := t.(requests := t.requests[i := Some(q.(remaining := q.remaining - 1, next := s.now + 1000))]);
        SafeAlone(t, u, k, x0);
        RequestTimersSafe(u, i + 1, k, x0);
      } else {
        RequestTimersSafe(s, i + 1, k, x0);
      }
    }
  }

  lemma {:induction false} RefreshTimersSafe(s: State, i: nat, k: Key, x0: Option<Source>)
    requires Safe(s, k, x0) && i <= |s.cands|
    ensures Safe(RefreshTimers(s, i), k, x0)
    decreases |s.cands| - i
  {
    hide Safe, Queue, NeedsRefresh;
    if i < |s.cands| {
      if s.cands[i].Some? && NeedsRefresh(s.routes, s.now, s.cands[i].value) {
        var c := s.cands[i].value;
        QueueSafe(s, c.route.link, RouteRequest(Some(c.route.prefix)), k, x0);
        var t := Queue(s, c.route.link, RouteRequest(Some(c.route.prefix)));
        assert t.cands[i] in t.cands;
        assert Concerns(c, k) ==> InWindow(k.base, c.route.seqno) by { SafeParts(t, k, x0); }
        SetCandSafe(t, i, c.(refreshed := true), k, x0);
        RefreshTimersSafe(t.(cands := t.cands[i := Some(c.(refreshed := true))]), i + 1, k, x0);
      } else {
        RefreshTimersSafe(s, i + 1, k, x0);
      }
    }
  }

  lemma TimersSafe(s: State, k: Key, x0: Option<Source>)
    requires Core(s) && Safe(s, k, x0)
    ensures Safe(Timers(s), k, x0)
  {
    hide Core, Safe, LinkTimers, TriggeredDump, RequestTimers, RefreshTimers;
    LinkTimersSafe(s, 0, k, x0);
    LinkTimersKeeps(s, 0);
    var t := LinkTimers(s, 0);
    TriggeredDumpSafe(t, k, x0);
    var u := TriggeredDump(t);
    RequestTimersSafe(u, 0, k, x0);
    RefreshTimersSafe(RequestTimers(u, 0), 0, k, x0);
  }

  lemma CollectSafe(s: State, r: State, k: Key, x0: Option<Source>)
    requires Safe(s, k, x0) && Core(s) && Core(r) && SameEntries(s, r)
    requires r.cfg == s.cfg && r.now == s.now && r.routes == s.routes && r.msgs == s.msgs
    ensures Safe(r, k, x0)
  {
    hide RoutesWithin, Vouched, Carries, Core;
    CoreShape(s);
    CoreShape(r);
    ReorderedSources(s.sources, r.sources, k.p, k.router);
    SameOrigins(s.locals, r.locals, k.p);
  }

  lemma SameOrigins(a: seq<Option<Local>>, b: seq<Option<Local>>, p: Prefix)
    requires forall x :: Some(x) in a <==> Some(x) in b
    ensures HasLocal(a, p) == HasLocal(b, p)
  {
    var i, j := LocalAt(a, p), LocalAt(b, p);
    assert i < |a| ==> a[i] in b;
    assert j < |b| ==> b[j] in a;
  }

  /** The second half of an event. */
  lemma FinishSafe(s: State, k: Key, x0: Option<Source>)
    requires Core(s) && Safe(s, k, x0) && !s.stopped && !Finish(s).0.Stopped?
    ensures Safe(Finish(s).1, k, x0)
  {
    hide Core, Safe, SelectRoutes, Timers, Collect, Finish;
    FinishStages(s);
    FinishKeeps(s);
    var r1 := SelectRoutes(s);
    SelectKeeps(s);
    SelectSafe(s, k, x0);
    TimersSafe(r1, k, x0);
    TimersKeeps(r1);
    var r2 := Timers(r1).(before := []);
    CoreIgnoresMemory(Timers(r1), r2);
    SafeAlone(Timers(r1), r2, k, x0);
    CollectSameEntries(r2);
    CollectKeeps(r2);
    CollectSafe(r2, Collect(r2), k, x0);
    SafeAlone(Collect(r2), Finish(s).1, k, x0);
  }

  // ----- The first half

  /** Every sequence number the engine knows for the source is in the window. */
  ghost predicate Watched(s: State, k: Key) {
    && Foreign(s.cfg, s.locals, k) && CandsWithin(s.cands, k) && RoutesWithin(s.routes, k) && RecordWithin(RecordOf(s, k), k)
  }

  /** The record that is left when the clock has moved to `now`. */
  function Surviving(s: State, k: Key, now: nat): (r: Option<Source>) {
    var x := RecordOf(s, k);
    if x.Some? && x.value.expires <= now then None else x
  }

  lemma WokenSafe(s: State, now: nat, k: Key)
    requires Core(s) && Watched(s, k) && Begin(s, now).0.Ok?
    ensures Safe(Begin(s, now).1, k, Surviving(s, k, now))
  {
    hide Core, Begin, InWindow;
    CoreShape(s);
    WokenTables(s, now);
    WokenSource(s, now, k.p, k.router);
    BeginClears(s, now);
    BeginFrame(s, now);
    var t := Begin(s, now).1;
    forall c | Some(c) in t.cands && Concerns(c, k) ensures InWindow(k.base, c.route.seqno) {
      var i :| 0 <= i < |t.cands| && t.cands[i] == Some(c);
      assert s.cands[i] in s.cands;
    }
  }

  lemma WatchedPadded(s: State, r: State, k: Key)
    requires Watched(s, k) && Padded(s, r)
    ensures Watched(r, k) && forall now :: Surviving(r, k, now) == Surviving(s, k, now)
  {
    PaddedMembers(s.locals, r.locals);
    SameOrigins(s.locals, r.locals, k.p);
  }

  /** Finite updates of the source in a packet are in the window. */
  ghost predicate PacketWithin(data: seq<byte>, k: Key) {
    forall source :: DecodesWithin(data, source, k)
  }

  ghost predicate DecodesWithin(data: seq<byte>, source: Bytes16, k: Key) {
    Decode(data, source).Some? ==> forall m :: m in Decode(data, source).value && Carries(m, k) ==> InWindow(k.base, m.seqno)
  }

  lemma TakeSafe(s: State, id: u64, data: seq<byte>, k: Key, x0: Option<Source>)
    requires Core(s) && Safe(s, k, x0) && !s.stopped && PacketWithin(data, k)
    ensures !Take(s, id, data).stopped ==> Safe(Take(s, id, data), k, x0)
  {
    hide Core, Safe, Decode, ReceiveAll, Delivered, InWindow;
    var li := LinkAt(s.links, id);
    if li < |s.links| {
      var l := s.links[li].value.config;
      var ms := Decode(data, l.peer);
      if ms.Some? {
        assert DecodesWithin(data, l.peer, k);
        forall m | m in ms.value ensures Delivered(m) && (Carries(m, k) ==> InWindow(k.base, m.seqno)) { DecodeDelivers(data, l.peer, m); }
        ReceiveAllSafe(s, li, ms.value, k, x0);
      }
    }
  }

  lemma GreetSafe(s: State, i: nat, l: LinkConfig, k: Key, x0: Option<Source>)
    requires Safe(s, k, x0) && i < |s.links|
    ensures Safe(Greet(s, i, l), k, x0)
  {
    hide Safe, Queue;
    var t := s.(links := s.links[i := Some(NewLink(l))], lastLink := l.id);
    SafeAlone(s, t, k, x0);
    QueueSafe(t, l.id, RouteRequest(None), k, x0);
  }

  lemma AddLinkSafe(s: State, now: nat, l: LinkData, k: Key)
    requires Core(s) && Watched(s, k) && AddLink(s, now, l).0.Ok?
    ensures Safe(AddLink(s, now, l).1, k, Surviving(s, k, now))
  {
    hide Core, Begin, Greet, Safe, Watched, Surviving;
    var (slot, links, asks) := FreeSlot(s.cfg, s.mem.asks, s.links, s.cfg.limits.links);
    var t := Asked(s, asks).(links := links);
    PaddedKeeps(s, t);
    WatchedPadded(s, t, k);
    WokenSafe(t, now, k);
    WokenTables(t, now);
    GreetSafe(Begin(t, now).1, slot.value, l, k, Surviving(s, k, now));
  }

  lemma OriginateSafe(s: State, now: nat, p: Prefix, metric: u16, k: Key)
    requires Core(s) && Watched(s, k) && Originate(s, now, p, metric).0.Ok? && (p == k.p ==> s.cfg.router != k.router)
    ensures Safe(Originate(s, now, p, metric).1, k, Surviving(s, k, now))
  {
    hide Core, Begin, Safe, Watched, Surviving, LocalSlot, Routable, Recordable, ForgetDrop;
    LocalSlotPads(s, p);
    var t := LocalSlot(s, p).1;
    PaddedKeeps(s, t);
    WatchedPadded(s, t, k);
    WokenSafe(t, now, k);
    RehomedSafe(Begin(t, now).1, Originate(s, now, p, metric).1, k, Surviving(s, k, now)) by {
      WokenTables(t, now);
      BeginFrame(t, now);
      var u := Begin(t, now).1;
      if p != k.p { SetOther(u.locals, LocalSlot(s, p).0.value, Local(p, metric), k.p); }
    }
  }

  /** Another prefix becomes local. */
  lemma SetOther(t: seq<Option<Local>>, i: nat, l: Local, p: Prefix)
    requires i < |t| && l.prefix != p
    ensures HasLocal(t[i := Some(l)], p) ==> HasLocal(t, p)
  {
    var u := t[i := Some(l)];
    var j := LocalAt(u, p);
    if j < |u| { assert t[j] == u[j] && t[j] in t; }
  }

  lemma RehomedSafe(s: State, t: State, k: Key, x0: Option<Source>)
    requires Safe(s, k, x0) && t == s.(locals := t.locals, drops := t.drops)
    requires s.cfg.router == k.router && HasLocal(t.locals, k.p) ==> HasLocal(s.locals, k.p)
    ensures Safe(t, k, x0)
  {
  }

  lemma RetireSafe(s: State, p: Prefix, k: Key, x0: Option<Source>)
    requires Safe(s, k, x0)
    ensures Safe(Retire(s, p), k, x0)
  {
    hide Safe;
    var t := Retire(s, p);
    var j := LocalAt(t.locals, k.p);
    if j < |t.locals| { assert s.locals[j] == t.locals[j] && s.locals[j] in s.locals; }
    RehomedSafe(s, t, k, x0);
  }

  lemma DetachSafe(s: State, id: u64, k: Key, x0: Option<Source>)
    requires Safe(s, k, x0)
    ensures Safe(Detach(s, id), k, x0)
  {
    hide Safe;
    RetractedSafe(s, Detach(s, id).cands, k, x0);
    SafeAlone(s.(cands := Detach(s, id).cands), Detach(s, id), k, x0);
  }

  /** The event does not make the engine an origin of the source, and a packet
      it brings stays inside the window. */
  ghost predicate Abroad(s: State, e: Event, k: Key) {
    && (e.Announce? && e.prefix == k.p ==> s.cfg.router != k.router)
    && (e.Arrive? ==> PacketWithin(e.data, k))
  }

  lemma PrepareSafe(s: State, e: Event, k: Key)
    requires Core(s) && Watched(s, k) && Timed(e) && Prepare(s, e).0.Ok? && Abroad(s, e, k)
    ensures var r := Prepare(s, e).1; !r.stopped ==> Safe(r, k, Surviving(s, k, e.now))
  {
    hide Core, Watched, Safe, Surviving, Begin, AddLink, Originate, Take, PacketWithin, Detach;
    if e.Attach? {
      AddLinkSafe(s, e.now, e.config, k);
    } else if e.Announce? {
      OriginateSafe(s, e.now, e.prefix, e.metric, k);
    } else {
      var x0 := Surviving(s, k, e.now);
      WokenSafe(s, e.now, k);
      BeginKeeps(s, e.now);
      var t := Begin(s, e.now).1;
      WokenTables(s, e.now);
      if e.Unlink? { DetachSafe(t, e.id, k, x0); }
      else if e.Recost? { SafeAlone(t, Reprice(t, e.id, e.cost), k, x0); }
      else if e.Retreat? { RetireSafe(t, e.prefix, k, x0); }
      else if e.Arrive? { TakeSafe(t, e.id, e.data, k, x0); }
    }
  }

  /** A completed event of a router that is not the origin: its record only
      improves, and every announcement it queued is vouched for. */
  lemma EventSafe(s: State, e: Event, k: Key)
    requires Core(s) && Watched(s, k) && Timed(e) && Prepare(s, e).0.Ok? && Abroad(s, e, k)
    requires !Apply(s, e).state.stopped
    ensures Safe(Apply(s, e).state, k, Surviving(s, k, e.now))
  {
    hide Core, Watched, Safe, Surviving, Prepare, Finish, Abroad;
    var t := Prepare(s, e).1;
    PrepareSafe(s, e, k);
    PrepareKeeps(s, e);
    RunLimits.FinishGrows(t);
    if t.stopped { RunLimits.StoppedFinish(t); } else { FinishSafe(t, k, Surviving(s, k, e.now)); }
  }

  // ----- Where finite candidates come from

  /** Candidate d was already there when the event began. */
  predicate Inherited(c: Candidate, d: Candidate) {
    c.route == d.route && c.advertised == d.advertised && c.expires == d.expires
  }

  /** Candidate d was learned from m at time now. */
  predicate LearnedFrom(m: Message, now: nat, d: Candidate)
    requires m.Update?
  {
    m.seqno == d.route.seqno && m.metric == d.advertised && d.expires == now + Hold(m.interval * 10)
  }

  ghost predicate Old(cands: seq<Option<Candidate>>, d: Candidate) {
    exists c :: Some(c) in cands && Inherited(c, d)
  }

  ghost predicate New(k: Key, link: u64, ms: seq<Message>, now: nat, d: Candidate) {
    d.route.link == link && exists m :: m in ms && Carries(m, k) && LearnedFrom(m, now, d)
  }

  /** Every finite candidate of the source is old or came with the packet. */
  ghost predicate Sourced(k: Key, cands: seq<Option<Candidate>>, link: u64, ms: seq<Message>, now: nat, after: seq<Option<Candidate>>) {
    forall d :: Some(d) in after && Concerns(d, k) && d.advertised != INFINITY ==> Old(cands, d) || New(k, link, ms, now, d)
  }

  lemma LearnSourced(s: State, l: LinkConfig, m: Message, k: Key, cands: seq<Option<Candidate>>, ms: seq<Message>)
    requires m.Update? && m in ms && Sourced(k, cands, l.id, ms, s.now, s.cands)
    ensures Sourced(k, cands, l.id, ms, s.now, LearnUpdate(s, l, m).cands)
  {
    hide CandSlot, Chase, Refused, Trigger, Old, New;
    if m.target.None? || m.metric == INFINITY {
      forall d | Some(d) in LearnUpdate(s, l, m).cands && d.advertised != INFINITY ensures Some(d) in s.cands { }
    } else if !Refused(s, l, m) {
      var p := m.target.value;
      SlotMembers(s, p, l.id);
      var (slot, t) := CandSlot(s, p, l.id);
      if slot.Some? {
        var c := Learned(s, l.id, m);
        SetMembers(t.cands, slot.value, Some(c));
        if Concerns(c, k) { LearnedIsNew(s, l.id, m, k, ms); }
      }
    }
  }

  lemma LearnedIsNew(s: State, link: u64, m: Message, k: Key, ms: seq<Message>)
    requires m.Update? && m in ms && m.target.Some? && m.metric != INFINITY && Concerns(Learned(s, link, m), k)
    ensures New(k, link, ms, s.now, Learned(s, link, m))
  {
    assert Carries(m, k) && LearnedFrom(m, s.now, Learned(s, link, m));
  }

  lemma SlotMembers(s: State, p: Prefix, link: u64)
    ensures forall x :: Some(x) in CandSlot(s, p, link).1.cands <==> Some(x) in s.cands
  {
  }

  lemma MessageSourced(s: State, li: nat, m: Message, k: Key, cands: seq<Option<Candidate>>, ms: seq<Message>)
    requires li < |s.links| && s.links[li].Some? && m in ms && Sourced(k, cands, s.links[li].value.config.id, ms, s.now, s.cands)
    ensures Sourced(k, cands, s.links[li].value.config.id, ms, s.now, ReceiveMessage(s, li, m).cands)
  {
    hide Sourced, LearnUpdate, SelectRoutes, Queue, HearNeighbour, AnswerRequest, AnswerSeqRequest;
    if m.Update? { LearnSourced(s, s.links[li].value.config, m, k, cands, ms); }
  }

  lemma {:induction false} ReceiveSourced(s: State, li: nat, rest: seq<Message>, k: Key, cands: seq<Option<Candidate>>, ms: seq<Message>)
    requires li < |s.links| && s.links[li].Some? && (forall m :: m in rest ==> m in ms)
    requires Sourced(k, cands, s.links[li].value.config.id, ms, s.now, s.cands)
    ensures Sourced(k, cands, s.links[li].value.config.id, ms, s.now, ReceiveAll(s, li, rest).cands)
    decreases |rest|
  {
    hide Sourced, ReceiveMessage;
    if rest != [] {
      MessageSourced(s, li, rest[0], k, cands, ms);
      ReceiveSourced(ReceiveMessage(s, li, rest[0]), li, rest[1..], k, cands, ms);
    }
  }

  /** The messages an arriving packet delivers; none for any other event. */
  function Delivery(s: State, e: Event): (r: seq<Message>) {
    if !e.Arrive? then []
    else
      var li := LinkAt(s.links, e.id);
      if li == |s.links| then []
      else
        var ms := Decode(e.data, s.links[li].value.config.peer);
        if ms.None? then [] else ms.value
  }

  function Arrival(e: Event): (r: u64) {
    if e.Arrive? then e.id else 0
  }

  lemma AgedSourced(t: seq<Option<Candidate>>, u: seq<Option<Candidate>>, now: nat, k: Key, link: u64, ms: seq<Message>)
    requires |u| == |t| && forall i :: 0 <= i < |t| ==> u[i] == Aged(t[i], now)
    ensures Sourced(k, t, link, ms, now, u)
  {
    hide New;
    forall d | Some(d) in u && d.advertised != INFINITY ensures Old(t, d) {
      var i :| 0 <= i < |u| && u[i] == Some(d);
      assert t[i] == Some(d);
      assert t[i] in t && Inherited(d, d);
    }
  }

  lemma RetractedSourced(t: seq<Option<Candidate>>, u: seq<Option<Candidate>>, k: Key, cands: seq<Option<Candidate>>, link: u64, ms: seq<Message>, now: nat)
    requires Sourced(k, cands, link, ms, now, t) && |u| == |t|
    requires forall i :: 0 <= i < |u| && u[i].Some? && u[i].value.advertised != INFINITY ==> u[i] == t[i]
    ensures Sourced(k, cands, link, ms, now, u)
  {
    hide New, Old;
    forall d | Some(d) in u && d.advertised != INFINITY ensures Some(d) in t { }
  }

  lemma TakeSourced(s: State, s0: State, e: Event, k: Key)
    requires e.Arrive? && s.links == s0.links && Sourced(k, s0.cands, e.id, Delivery(s0, e), s.now, s.cands)
    ensures Sourced(k, s0.cands, e.id, Delivery(s0, e), s.now, Take(s, e.id, e.data).cands)
  {
    hide Sourced, Decode, ReceiveAll;
    var li := LinkAt(s.links, e.id);
    if li < |s.links| && |e.data| <= s.links[li].value.config.maxPacket {
      var ms := Decode(e.data, s.links[li].value.config.peer);
      if ms.Some? { ReceiveSourced(s, li, ms.value, k, s0.cands, ms.value); }
    }
  }

  lemma BegunSourced(s: State, base: State, e: Event, k: Key)
    requires Timed(e) && base.cands == s.cands && Begin(base, e.now).0.Ok?
    ensures Sourced(k, s.cands, Arrival(e), Delivery(s, e), e.now, Begin(base, e.now).1.cands)
  {
    hide Begin, Delivery, Sourced, Aged;
    WokenTables(base, e.now);
    AgedSourced(s.cands, Begin(base, e.now).1.cands, e.now, k, Arrival(e), Delivery(s, e));
  }

  lemma AttachSourced(s: State, e: Event, k: Key)
    requires e.Attach? && Prepare(s, e).0.Ok?
    ensures Sourced(k, s.cands, Arrival(e), Delivery(s, e), e.now, Prepare(s, e).1.cands)
  {
    hide Begin, Delivery, Sourced, FreeSlot, Queue, Attachable;
    var (slot, links, asks) := FreeSlot(s.cfg, s.mem.asks, s.links, s.cfg.limits.links);
    BegunSourced(s, Asked(s, asks).(links := links), e, k);
  }

  lemma AnnounceSourced(s: State, e: Event, k: Key)
    requires e.Announce? && Prepare(s, e).0.Ok?
    ensures Sourced(k, s.cands, Arrival(e), Delivery(s, e), e.now, Prepare(s, e).1.cands)
  {
    hide Begin, Delivery, Sourced, LocalSlot, Routable, Recordable, ForgetDrop;
    BegunSourced(s, LocalSlot(s, e.prefix).1, e, k);
  }

  lemma PrepareSourced(s: State, e: Event, k: Key)
    requires Timed(e) && Prepare(s, e).0.Ok?
    ensures Sourced(k, s.cands, Arrival(e), Delivery(s, e), e.now, Prepare(s, e).1.cands)
  {
    hide Begin, Take, Delivery, Sourced, AddLink, Originate, Valid;
    match e
    case Attach(_, _) => AttachSourced(s, e, k);
    case Announce(_, _, _) => AnnounceSourced(s, e, k);
    case Unlink(now, id) =>
      BegunSourced(s, s, e, k);
      WokenTables(s, now);
      var t := Begin(s, now).1;
      RetractedSourced(t.cands, Detach(t, id).cands, k, s.cands, Arrival(e), Delivery(s, e), now);
    case Arrive(now, _, _) =>
      BegunSourced(s, s, e, k);
      WokenTables(s, now);
      TakeSourced(Begin(s, now).1, s, e, k);
    case _ => BegunSourced(s, s, e, k);
  }

  lemma StemmingSourced(t: seq<Option<Candidate>>, u: seq<Option<Candidate>>, k: Key, cands: seq<Option<Candidate>>, link: u64, ms: seq<Message>, now: nat)
    requires Sourced(k, cands, link, ms, now, t) && Stemming(t, u)
    ensures Sourced(k, cands, link, ms, now, u)
  {
    forall d | Some(d) in u && Concerns(d, k) && d.advertised != INFINITY ensures Old(cands, d) || New(k, link, ms, now, d) {
      var c :| Some(c) in t && Alike(c, d);
      if Old(cands, c) {
        var b :| Some(b) in cands && Inherited(b, c);
        assert Inherited(b, d);
      } else {
        var m :| m in ms && Carries(m, k) && LearnedFrom(m, now, c);
        assert LearnedFrom(m, now, d);
      }
    }
  }

  /** Finite candidates after an event are old ones or were just announced by
      the neighbour the packet came from. */
  lemma EventSourced(s: State, e: Event, k: Key)
    requires Core(s) && Timed(e) && Prepare(s, e).0.Ok? && !Apply(s, e).state.stopped
    ensures Sourced(k, s.cands, Arrival(e), Delivery(s, e), e.now, Apply(s, e).state.cands)
  {
    hide Core, Prepare, Finish, Sourced, Delivery, Followed, Stemming;
    var t := Prepare(s, e).1;
    PrepareSourced(s, e, k);
    PrepareKeeps(s, e);
    RunLimits.FinishGrows(t);
    if t.stopped { RunLimits.StoppedFinish(t); } else {
      FinishFollowed(t);
      RunLimits.FollowedCands(t, Finish(t).1);
      StemmingSourced(t.cands, Finish(t).1.cands, k, s.cands, Arrival(e), Delivery(s, e), e.now);
    }
  }

  // ----- Selected routes at rest

  /** r rests on a finite candidate that beats the engine's own record. */
  ghost predicate Justified(s: State, k: Key, r: Route) {
    exists c :: Some(c) in s.cands && Concerns(c, k) && c.route.link == r.link && c.advertised != INFINITY && Feasible(s.sources, c)
  }

  ghost predicate AllJustified(s: State, k: Key) {
    forall r :: r in s.routes && !r.unreachable && !r.local && r.prefix == k.p && r.router == k.router ==> Justified(s, k, r)
  }

  lemma FinishJustified(s: State, k: Key)
    requires Core(s) && !s.stopped && !Finish(s).0.Stopped?
    ensures AllJustified(Finish(s).1, k)
  {
    hide Core, Finish, Followed, Eligible, Justified;
    FinishFollowed(s);
    var t := Finish(s).1;
    CoreShape(t);
    forall r | r in t.routes && !r.unreachable && !r.local && r.prefix == k.p && r.router == k.router ensures Justified(t, k, r) {
      EntryJustified(s, t, k, r);
    }
  }

  lemma EntryJustified(s: State, t: State, k: Key, r: Route)
    requires Core(s) && Followed(s, t) && DistinctRoutes(t.routes) && DistinctLocals(t.locals)
    requires r in t.routes && !r.unreachable && !r.local && r.prefix == k.p && r.router == k.router
    ensures Justified(t, k, r)
  {
    hide Core, Eligible, Best, RecordedBy, SameCosts, SameCands, Remaining;
    RouteIsFor(t.routes, r);
    var p := k.p;
    assert RouteFor(t.routes, p) == Entry(s, p);
    if !HasLocal(s.locals, p) {
      ChoiceIsWinner(s, p);
      var c :| Winner(s, s.routes, c) && c.route.prefix == p && Choice(s, p).value == Selected(s, c);
      var d := TwinAfter(s.cands, t.cands, c);
      ChosenStaysEligible(s, t, c, d);
      EligibleIsJust(t, d);
    }
  }

  lemma EligibleIsJust(s: State, c: Candidate)
    requires Eligible(s, c)
    ensures c.advertised != INFINITY && Feasible(s.sources, c)
  {
  }

  lemma EventJustified(s: State, e: Event, k: Key)
    requires Core(s) && Timed(e) && Prepare(s, e).0.Ok? && !Apply(s, e).state.stopped
    ensures AllJustified(Apply(s, e).state, k)
  {
    hide Core, Prepare, Finish, AllJustified;
    var t := Prepare(s, e).1;
    PrepareKeeps(s, e);
    RunLimits.FinishGrows(t);
    Suppression.PreparedTime(s, e);
    if t.stopped { RunLimits.StoppedFinish(t); } else { FinishJustified(t, k); }
  }
}
