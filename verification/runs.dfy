/** Runs of one engine: every public call, in any order, from initialisation. */
module Runs {
  import opened Types
  import opened Prefixes
  import opened EngineState
  import opened Engine
  import opened EngineEvents
  import opened Wire
  import opened Invariant
  import opened Query
  import opened Admission
  import opened Packets

  datatype Event =
    | Wake(now: nat)
    | Attach(now: nat, config: LinkData)
    | Unlink(now: nat, id: u64)
    | Recost(now: nat, id: u64, cost: u16)
    | Announce(now: nat, prefix: Prefix, metric: u16)
    | Retreat(now: nat, prefix: Prefix)
    | Arrive(now: nat, id: u64, data: seq<byte>)
    | Settle(revision: nat, success: bool)
    | Send(cap: nat)
    | Enquire(prefix: Prefix)

  /** Events that advance the clock, select routes and run the timers. */
  predicate Timed(e: Event) {
    !e.Settle? && !e.Send? && !e.Enquire?
  }

  /** A timed event up to the point where selection takes over. */
  function Prepare(s: State, e: Event): (r: (Status, State))
    requires Timed(e)
  {
    match e
    case Wake(now) => Begin(s, now)
    case Attach(now, config) => AddLink(s, now, config)
    case Unlink(now, id) => RemoveLink(s, now, id)
    case Recost(now, id, cost) => SetCost(s, now, id, cost)
    case Announce(now, p, metric) => Originate(s, now, p, metric)
    case Retreat(now, p) => Withdraw(s, now, p)
    case Arrive(now, id, data) => Receive(s, now, id, data)
  }

  datatype Outcome = Outcome(status: Status, packet: Option<Parcel>, state: State)

  function Apply(s: State, e: Event): (r: Outcome) {
    match e
    case Settle(revision, success) => var (st, t) := Commit(s, revision, success); Outcome(st, None, t)
    case Send(cap) => var (st, packet, t) := NextPacket(s, cap); Outcome(st, packet, t)
    case Enquire(p) => var (st, t) := RequestPrefix(s, p); Outcome(st, None, t)
    case _ => var (st, t) := Completed(Prepare(s, e)); Outcome(st, None, t)
  }

  function Run(s: State, es: seq<Event>): (r: State)
    decreases |es|
  {
    if es == [] then s else Run(Apply(s, es[0]).state, es[1..])
  }

  // ----- What the parser delivers

  lemma InterpretDelivers(t: byte, p: seq<byte>, ctx: Context)
    requires Sound(ctx) && Interpret(t, p, ctx).1.Some?
    ensures Delivered(Interpret(t, p, ctx).1.value)
  {
    hide TakePrefix, TakeAddress, Get, Subs, RouterOf;
  }

  lemma {:induction false} MessagesDelivered(b: seq<byte>, ctx: Context, m: Message)
    requires Framed(b) && Sound(ctx) && m in Messages(b, ctx)
    ensures Delivered(m)
    decreases |b|
  {
    hide Interpret, Delivered;
    if b[0] == 0 {
      MessagesDelivered(b[1..], ctx, m);
    } else {
      var (ctx', got) := Interpret(b[0], b[2..2 + b[1]], ctx);
      if got.Some? { InterpretDelivers(b[0], b[2..2 + b[1]], ctx); }
      if m !in Deliver(got) { MessagesDelivered(b[2 + b[1]..], ctx', m); }
    }
  }

  lemma DecodeDelivers(data: seq<byte>, source: Bytes16, m: Message)
    requires Decode(data, source).Some? && m in Decode(data, source).value
    ensures Delivered(m)
  {
    hide Messages, Framed, Delivered;
    MessagesDelivered(data[4..4 + Get16(data[2..4])], Fresh(source), m);
  }

  lemma TakeKeeps(s: State, id: u64, data: seq<byte>)
    requires Core(s)
    ensures Core(Take(s, id, data))
  {
    hide Core, Decode, ReceiveAll, Delivered;
    var li := LinkAt(s.links, id);
    if li < |s.links| {
      var l := s.links[li].value.config;
      var ms := Decode(data, l.peer);
      if ms.Some? {
        forall m | m in ms.value ensures Delivered(m) { DecodeDelivers(data, l.peer, m); }
        ReceiveAllKeeps(s, li, ms.value);
      }
    }
  }

  lemma TakeFits(s: State, id: u64, data: seq<byte>)
    requires Core(s) && Fitting(s) && !s.stopped
    ensures FitsOrRefused(s, Take(s, id, data))
  {
    hide Core, Fitting, FitsOrRefused, Decode, ReceiveAll, Delivered;
    UncountedStep(s, s);
    var li := LinkAt(s.links, id);
    if li < |s.links| {
      var l := s.links[li].value.config;
      var ms := Decode(data, l.peer);
      if ms.Some? {
        forall m | m in ms.value ensures Delivered(m) { DecodeDelivers(data, l.peer, m); }
        ReceiveAllFits(s, li, ms.value);
      }
    }
  }

  // ----- Every call keeps the tables well formed

  /** Only capacities differ: some table got more free slots. */
  ghost predicate Padded(s: State, r: State) {
    && r == s.(mem := r.mem, links := r.links, locals := r.locals)
    && s.mem.asks <= r.mem.asks
    && |s.links| <= |r.links| && r.links[..|s.links|] == s.links && (forall i :: |s.links| <= i < |r.links| ==> r.links[i].None?)
    && |s.locals| <= |r.locals| && r.locals[..|s.locals|] == s.locals && (forall i :: |s.locals| <= i < |r.locals| ==> r.locals[i].None?)
    && (|s.links| <= s.cfg.limits.links ==> |r.links| <= s.cfg.limits.links)
    && (|s.locals| <= s.cfg.limits.routes ==> |r.locals| <= s.cfg.limits.routes)
  }

  lemma PaddedMembers<T(!new)>(t: seq<Option<T>>, u: seq<Option<T>>)
    requires |t| <= |u| && u[..|t|] == t && forall i :: |t| <= i < |u| ==> u[i].None?
    ensures forall x :: Some(x) in u <==> Some(x) in t
  {
    forall x | Some(x) in u ensures Some(x) in t { }
    forall x | Some(x) in t ensures Some(x) in u {
      var i :| 0 <= i < |t| && t[i] == Some(x);
      assert u[i] == t[i];
    }
  }

  lemma PaddedKeeps(s: State, r: State)
    requires Core(s) && Padded(s, r)
    ensures Core(r)
  {
    hide LinkOk, LocalOk, CandsOk, SourcesOk, DropsOk, RequestsOk, RoutesOk;
    PaddedMembers(s.links, r.links);
    PaddedMembers(s.locals, r.locals);
    forall q | q in r.msgs ensures HasLink(r.links, q.link) {
      LinkMember(s.links, q.link);
      LinkMember(r.links, q.link);
    }
  }

  lemma GreetKeeps(s: State, i: nat, l: LinkConfig)
    requires Core(s) && i < |s.links| && s.links[i].None? && l.id > s.lastLink
    ensures Core(Greet(s, i, l))
  {
    hide Queue, CandOk, SourcesOk, LocalsOk, DropsOk, RequestsOk, RoutesOk;
    var t := s.(links := s.links[i := Some(NewLink(l))], lastLink := l.id);
    SetMembers(s.links, i, Some(NewLink(l)));
    forall k | 0 <= k < |s.links| && s.links[k].Some? ensures s.links[k].value.config.id != l.id { assert s.links[k] in s.links; }
    assert DistinctLinks(t.links);
    NewerLinkSuits(s.cands, s.cfg.router, s.now, s.lastLink, l.id);
    forall q | q in t.msgs ensures HasLink(t.links, q.link) {
      LinkMember(s.links, q.link);
      LinkMember(t.links, q.link);
      var x :| Some(x) in s.links && x.config.id == q.link;
      var k :| 0 <= k < |s.links| && s.links[k] == Some(x);
      assert t.links[k] in t.links;
    }
    QueueKeeps(t, l.id, RouteRequest(None));
  }

  lemma NewerLinkSuits(cands: seq<Option<Candidate>>, router: u64, now: nat, last: u64, id: u64)
    requires CandsOk(cands, router, now, last) && last < id
    ensures CandsOk(cands, router, now, id)
  {
  }

  lemma AddLinkKeeps(s: State, now: nat, l: LinkData)
    requires Core(s)
    ensures Core(AddLink(s, now, l).1)
  {
    hide Core, Begin, Greet;
    if Attachable(l) && l.id > s.lastLink {
      var (slot, links, asks) := FreeSlot(s.cfg, s.mem.asks, s.links, s.cfg.limits.links);
      var t := Asked(s, asks).(links := links);
      PaddedKeeps(s, t);
      BeginKeeps(t, now);
      CoreIgnoresMemory(s, Asked(s, asks));
      if Begin(t, now).0.Ok? && slot.Some? {
        WokenTables(t, now);
        assert Begin(t, now).1.lastLink == s.lastLink by { BeginFrame(t, now); }
        GreetKeeps(Begin(t, now).1, slot.value, l);
      }
    }
  }

  lemma BeginFrame(s: State, now: nat)
    ensures Begin(s, now).1.lastLink == s.lastLink && Begin(s, now).1.cfg == s.cfg
  {
  }

  lemma DetachKeeps(s: State, id: u64)
    requires Core(s) && s.msgs == []
    ensures Core(Detach(s, id))
  {
    hide SourcesOk, LocalsOk, DropsOk, RequestsOk, RoutesOk;
    var r := Detach(s, id);
    var i := LinkAt(s.links, id);
    if i < |s.links| { SetMembers(s.links, i, None); }
    RetractCands(s.cands, r.cands, s.cfg.router, s.now, s.lastLink);
  }

  lemma RepriceKeeps(s: State, id: u64, cost: u16)
    requires Core(s) && cost != 0
    ensures Core(Reprice(s, id, cost))
  {
    hide Core;
    var i := LinkAt(s.links, id);
    if i < |s.links| {
      CoreEntries(s);
      SetLinkKeeps(s, i, s.links[i].value.(config := s.links[i].value.config.(cost := cost)));
    }
  }

  lemma LocalSlotPads(s: State, p: Prefix)
    ensures var (slot, t) := LocalSlot(s, p);
            Padded(s, t) && (slot.Some? ==> Admissible(s, p) && LocalAt(t.locals, p) == if t.locals[slot.value].Some? then slot.value else |t.locals|)
  {
    hide Admissible;
    var (slot, t) := LocalSlot(s, p);
    var i := LocalAt(s.locals, p);
    if i < |s.locals| { KnownIsAdmissible(s, i); } else if slot.Some? { StillAbsent(s.locals, t.locals, p); }
  }

  lemma KnownIsAdmissible(s: State, i: nat)
    requires i < |s.locals| && s.locals[i].Some?
    ensures Admissible(s, s.locals[i].value.prefix)
  {
    assert s.locals[i] in s.locals;
  }

  lemma StillAbsent(t: seq<Option<Local>>, u: seq<Option<Local>>, p: Prefix)
    requires |t| <= |u| && u[..|t|] == t && (forall i :: |t| <= i < |u| ==> u[i].None?) && LocalAt(t, p) == |t|
    ensures LocalAt(u, p) == |u|
  {
    PaddedMembers(t, u);
    assert forall j :: 0 <= j < |u| && u[j].Some? ==> u[j] in t;
  }

  lemma SetLocalKeeps(s: State, k: nat, p: Prefix, metric: u16)
    requires Core(s) && k < |s.locals| && Routable(p) && metric < INFINITY
    requires LocalAt(s.locals, p) == if s.locals[k].Some? then k else |s.locals|
    ensures Core(s.(locals := s.locals[k := Some(Local(p, metric))], drops := ForgetDrop(s.drops, p)))
  {
    hide LinksOk, CandsOk, SourcesOk, RequestsOk, RoutesOk, MsgsOk, Valid, Routable;
    var t := s.(locals := s.locals[k := Some(Local(p, metric))], drops := ForgetDrop(s.drops, p));
    SetMembers(s.locals, k, Some(Local(p, metric)));
    assert LocalsOk(t.locals) by {
      forall j | 0 <= j < |s.locals| && j != k && s.locals[j].Some? ensures s.locals[j].value.prefix != p { }
    }
    forall d | Some(d) in t.drops ensures Some(d) in s.drops { }
  }

  lemma OriginateKeeps(s: State, now: nat, p: Prefix, metric: u16)
    requires Core(s)
    ensures Core(Originate(s, now, p, metric).1)
  {
    hide Core, Begin, LocalSlot, Routable, Recordable, ForgetDrop;
    if Routable(p) && metric != INFINITY {
      LocalSlotPads(s, p);
      var (slot, t) := LocalSlot(s, p);
      PaddedKeeps(s, t);
      BeginKeeps(t, now);
      if Begin(t, now).0.Ok? && slot.Some? {
        WokenTables(t, now);
        SetLocalKeeps(Begin(t, now).1, slot.value, p, metric);
      }
    }
  }

  lemma RetireKeeps(s: State, p: Prefix)
    requires Core(s)
    ensures Core(Retire(s, p))
  {
    hide LinksOk, CandsOk, SourcesOk, RequestsOk, RoutesOk, MsgsOk, DropsOk;
    var i := LocalAt(s.locals, p);
    if i < |s.locals| { SetMembers(s.locals, i, None); }
  }

  lemma BeginClears(s: State, now: nat)
    requires Begin(s, now).0.Ok?
    ensures Begin(s, now).1.msgs == []
  {
  }

  lemma PrepareKeeps(s: State, e: Event)
    requires Core(s) && Timed(e)
    ensures Core(Prepare(s, e).1)
  {
    hide Core, Begin, AddLink, Originate, Detach, Reprice, Retire, Take;
    if e.Attach? {
      AddLinkKeeps(s, e.now, e.config);
    } else if e.Announce? {
      OriginateKeeps(s, e.now, e.prefix, e.metric);
    } else {
      BeginKeeps(s, e.now);
      var (st, t) := Begin(s, e.now);
      if st.Ok? {
        if e.Unlink? { BeginClears(s, e.now); DetachKeeps(t, e.id); }
        else if e.Recost? { if e.cost != 0 { RepriceKeeps(t, e.id, e.cost); } }
        else if e.Retreat? { RetireKeeps(t, e.prefix); }
        else if e.Arrive? { TakeKeeps(t, e.id, e.data); }
      }
    }
  }

  lemma CommitKeeps(s: State, revision: nat, success: bool)
    requires Core(s)
    ensures Core(Commit(s, revision, success).1)
  {
  }

  lemma NextPacketKeeps(s: State, cap: nat)
    requires Core(s)
    ensures Core(NextPacket(s, cap).2)
  {
    hide LinksOk, CandsOk, SourcesOk, RequestsOk, RoutesOk, DropsOk, LocalsOk, Fill;
  }

  lemma RequestPrefixKeeps(s: State, p: Prefix)
    requires Core(s)
    ensures Core(RequestPrefix(s, p).1)
  {
    hide LinksOk, CandsOk, SourcesOk, RequestsOk, RoutesOk, DropsOk, LocalsOk, QueueAll, AttachedLinks, Reserve, Routable, Valid;
    if Routable(p) && !s.stopped && s.ctl.pending == 0 && s.ctl.ready && !(0 < s.ctl.cursor < |s.msgs|) {
      var t := if s.ctl.cursor == |s.msgs| then s.(msgs := [], mem := s.mem.(messages := 0), ctl := s.ctl.(cursor := 0)) else s;
      assert Core(t);
      var ids := AttachedLinks(t.links);
      var (ok, cap, asks) := Reserve(t.cfg, t.mem.asks, t.mem.messages, |t.msgs| + |ids|, t.cfg.limits.messages);
      RequestSendable(p);
      CoreIgnoresMemory(t, t.(mem := t.mem.(messages := cap, asks := asks)));
      QueueAllKeeps(t.(mem := t.mem.(messages := cap, asks := asks)), ids, RouteRequest(Some(p)));
    }
  }

  lemma RequestSendable(p: Prefix)
    requires Routable(p)
    ensures WireRoundTrip.Sendable(RouteRequest(Some(p)))
  {
  }

  lemma ApplyKeeps(s: State, e: Event)
    requires Core(s)
    ensures Core(Apply(s, e).state)
  {
    hide Core, Prepare, Finish, Commit, NextPacket, RequestPrefix;
    match e
    case Settle(revision, success) => CommitKeeps(s, revision, success);
    case Send(cap) => NextPacketKeeps(s, cap);
    case Enquire(p) => RequestPrefixKeeps(s, p);
    case _ =>
      PrepareKeeps(s, e);
      if Prepare(s, e).0.Ok? { FinishKeeps(Prepare(s, e).1); }
  }
}
