/** Over every run: the ceilings hold, the output queue always drains, and the
    engine stops only on a refused allocation or a failed commit. */
module RunLimits {
  import opened Types
  import opened Prefixes
  import opened EngineState
  import opened Engine
  import opened EngineEvents
  import opened Selection
  import opened Invariant
  import opened Limits
  import opened Records
  import opened Settled
  import opened Query
  import opened Admission
  import opened Packets
  import opened Runs

  // ----- At rest, every route has something finite behind it

  /** A reachable route rests on a local prefix or a finite candidate, an
      unreachable one on a suppression record. */
  ghost predicate Supported(s: State, r: Route) {
    if r.unreachable then r.prefix in DropPrefixes(s.drops)
    else r.prefix in LocalPrefixes(s.locals) || exists c :: Some(c) in s.cands && c.route.prefix == r.prefix && c.advertised != INFINITY
  }

  ghost predicate RestBacked(s: State) {
    forall r :: r in s.routes ==> Supported(s, r)
  }

  /** What holds between calls of a live engine. */
  ghost predicate Steady(s: State) {
    |Admitted(s)| <= s.cfg.limits.routes && RestBacked(s)
  }

  /** Ageing removes no prefix that still has a finite candidate. */
  lemma AgedPrefixes(t: seq<Option<Candidate>>, u: seq<Option<Candidate>>, now: nat)
    requires |u| == |t| && forall i :: 0 <= i < |t| ==> u[i] == Aged(t[i], now)
    ensures CandPrefixes(u) <= CandPrefixes(t)
    ensures forall c :: Some(c) in t && c.advertised != INFINITY ==> c.route.prefix in CandPrefixes(u)
  {
    forall p | p in CandPrefixes(u) ensures p in CandPrefixes(t) {
      var i :| 0 <= i < |u| && u[i].Some? && u[i].value.route.prefix == p;
      assert t[i] in t;
    }
    forall c | Some(c) in t && c.advertised != INFINITY ensures c.route.prefix in CandPrefixes(u) {
      var i :| 0 <= i < |t| && t[i] == Some(c);
      assert u[i] in u;
    }
  }

  lemma WokenFits(s: State, now: nat)
    requires Steady(s) && Begin(s, now).0.Ok?
    ensures FitsOrRefused(s, Woken(s, now)) && !Woken(s, now).stopped && Admitted(Woken(s, now)) <= Admitted(s)
  {
    hide Begin, CandPrefixes, DropPrefixes, LocalPrefixes, Aged;
    WokenTables(s, now);
    BeginFrame(s, now);
    var t := Woken(s, now);
    AgedPrefixes(s.cands, t.cands, now);
    forall p | p in RoutePrefixes(t.routes) ensures p in Admitted(t) {
      var r :| r in s.routes && r.prefix == p;
      assert Supported(s, r);
    }
    SubsetSize(Admitted(t), Admitted(s));
  }

  lemma EntrySupported(s: State, t: State, r: Route)
    requires Followed(s, t) && Core(s) && DistinctRoutes(t.routes) && r in t.routes
    ensures Supported(t, r)
  {
    hide Core, Best, RecordedBy, SameCosts, SameCands;
    RouteIsFor(t.routes, r);
    var p := r.prefix;
    assert RouteFor(t.routes, p) == Entry(s, p) && DropFor(t.drops, p) == Remaining(s, p);
    if Choice(s, p).Some? {
      ChoiceIsReachable(s, p);
      if HasLocal(s.locals, p) {
        assert s.locals[LocalAt(s.locals, p)] in s.locals;
      } else {
        ChoiceIsWinner(s, p);
        var c :| Winner(s, s.routes, c) && c.route.prefix == p;
        EligibleIsFinite(s, c);
        var d := TwinAfter(s.cands, t.cands, c);
      }
    }
  }

  lemma EligibleIsFinite(s: State, c: Candidate)
    requires Eligible(s, c)
    ensures c.advertised != INFINITY
  {
  }

  lemma DropPrefixesOf(t: seq<Option<Drop>>, u: seq<Option<Drop>>)
    requires forall x :: Some(x) in t <==> Some(x) in u
    ensures DropPrefixes(t) == DropPrefixes(u)
  {
    forall p ensures p in DropPrefixes(t) <==> p in DropPrefixes(u) { }
  }

  lemma LocalPrefixesOf(t: seq<Option<Local>>, u: seq<Option<Local>>)
    requires forall x :: Some(x) in t <==> Some(x) in u
    ensures LocalPrefixes(t) == LocalPrefixes(u)
  {
    forall p ensures p in LocalPrefixes(t) <==> p in LocalPrefixes(u) { }
  }

  lemma AlikePrefixes(a: seq<Option<Candidate>>, b: seq<Option<Candidate>>)
    requires Stemming(a, b)
    ensures CandPrefixes(b) <= CandPrefixes(a)
  {
    forall p | p in CandPrefixes(b) ensures p in CandPrefixes(a) {
      var d :| Some(d) in b && d.route.prefix == p;
      var c :| Some(c) in a && Alike(c, d);
    }
  }

  /** The end of an event restores the resting invariant. */
  lemma FinishSteady(s: State)
    requires Core(s) && !s.stopped && Bounded(s) && !Finish(s).0.Stopped?
    ensures Steady(Finish(s).1)
  {
    hide Core, SelectRoutes, Timers, Collect, Finish, Supported, Followed, Carried, Bounded;
    FinishFollowed(s);
    var t := Finish(s).1;
    CoreShape(t);
    forall r | r in t.routes ensures Supported(t, r) { EntrySupported(s, t, r); }
    SelectFits(s);
    FinishStages(s);
    var r1 := SelectRoutes(s);
    CollectSameEntries(Timers(r1).(before := []));
    DropPrefixesOf(t.drops, r1.drops);
    LocalPrefixesOf(t.locals, s.locals);
    assert Stemming(s.cands, t.cands) by { FollowedCands(s, t); }
    AlikePrefixes(s.cands, t.cands);
    SubsetSize(Admitted(t), Claimed(s));
    BoundedMeans(s);
  }

  lemma FollowedCands(s: State, t: State)
    requires Followed(s, t)
    ensures Stemming(s.cands, t.cands)
  {
  }

  lemma BoundedMeans(s: State)
    requires Bounded(s)
    ensures |Claimed(s)| <= s.cfg.limits.routes
  {
  }

  lemma FinishStops(s: State)
    requires Core(s) && !s.stopped && Bounded(s) && Finish(s).0.Stopped?
    ensures Refusal(s.cfg, s.mem.asks, Finish(s).1.mem.asks)
  {
    hide Core, SelectRoutes, Timers, Collect, Bounded;
    SelectFits(s);
    var r := SelectRoutes(s);
    var k :| s.mem.asks <= k < r.mem.asks && !s.cfg.grant(k);
    assert s.mem.asks <= k < Finish(s).1.mem.asks;
  }

  // ----- Every call, as far as selection

  /** A prepared event may enter selection, or memory was already refused. */
  ghost predicate BoundedOrRefused(s: State, r: State) {
    && r.cfg == s.cfg && s.mem.asks <= r.mem.asks
    && (r.stopped ==> Refusal(s.cfg, s.mem.asks, r.mem.asks))
    && (!r.stopped ==> Bounded(r))
  }

  lemma FitsThenBounded(s: State, t: State, r: State)
    requires FitsOrRefused(s, t) && !t.stopped && FitsOrRefused(t, r)
    ensures BoundedOrRefused(s, r)
  {
    hide Fitting, Bounded;
    OutcomesCompose(s, t, r);
    if !r.stopped { FittingIsBounded(r); }
  }

  /** Claims only shrink. */
  lemma ShrinkingClaims(s: State, t: State, r: State)
    requires FitsOrRefused(s, t) && !t.stopped && r.cfg == t.cfg && t.mem.asks <= r.mem.asks && !r.stopped
    requires Claimed(r) <= Claimed(t)
    ensures BoundedOrRefused(s, r)
  {
    FittingIsBounded(t);
    SubsetSize(Claimed(r), Claimed(t));
  }

  lemma PaddedSteady(s: State, r: State)
    requires Steady(s) && Padded(s, r)
    ensures Steady(r) && Admitted(r) == Admitted(s)
  {
    hide Admitted;
    PaddedMembers(s.locals, r.locals);
    LocalPrefixesOf(s.locals, r.locals);
    AdmittedOf(s, r);
    forall x | x in r.routes ensures Supported(r, x) { assert Supported(s, x); }
  }

  lemma AdmittedOf(s: State, r: State)
    requires CandPrefixes(s.cands) == CandPrefixes(r.cands) && LocalPrefixes(s.locals) == LocalPrefixes(r.locals) && DropPrefixes(s.drops) == DropPrefixes(r.drops)
    ensures Admitted(s) == Admitted(r)
  {
  }

  lemma AddLinkFits(s: State, now: nat, l: LinkData)
    requires Steady(s) && AddLink(s, now, l).0.Ok?
    ensures BoundedOrRefused(s, AddLink(s, now, l).1)
  {
    hide Begin, Steady, FitsOrRefused, Fitting, Bounded, BoundedOrRefused, Queue;
    var (slot, links, asks) := FreeSlot(s.cfg, s.mem.asks, s.links, s.cfg.limits.links);
    var t := Asked(s, asks).(links := links);
    PaddedSteady(s, t);
    WokenFits(t, now);
    var u := Begin(t, now).1;
    FitsNow(t, u);
    var r := AddLink(s, now, l).1;
    UncountedStep(u, r);
    FitsThenBounded(t, u, r);
    Regard(s, t, r);
  }

  lemma Regard(s: State, t: State, r: State)
    requires t.cfg == s.cfg && s.mem.asks <= t.mem.asks && BoundedOrRefused(t, r)
    ensures BoundedOrRefused(s, r)
  {
    hide Bounded;
    if r.stopped {
      var k :| t.mem.asks <= k < r.mem.asks && !t.cfg.grant(k);
      assert s.mem.asks <= k < r.mem.asks && !s.cfg.grant(k);
    }
  }

  lemma DetachFits(s: State, t: State, id: u64)
    requires FitsOrRefused(s, t) && !t.stopped
    ensures BoundedOrRefused(s, Detach(t, id))
  {
    var r := Detach(t, id);
    PrefixesOfSame(t.cands, r.cands);
    ShrinkingClaims(s, t, r);
  }

  lemma RetireFits(s: State, t: State, p: Prefix)
    requires FitsOrRefused(s, t) && !t.stopped
    ensures BoundedOrRefused(s, Retire(t, p))
  {
    var r := Retire(t, p);
    var i := LocalAt(t.locals, p);
    if i < |t.locals| { SetMembers(t.locals, i, None); }
    forall q | q in LocalPrefixes(r.locals) ensures q in LocalPrefixes(t.locals) { }
    ShrinkingClaims(s, t, r);
  }

  lemma SetLocalPrefixes(t: seq<Option<Local>>, k: nat, l: Local)
    requires k < |t|
    ensures LocalPrefixes(t[k := Some(l)]) <= LocalPrefixes(t) + {l.prefix}
  {
    SetMembers(t, k, Some(l));
  }

  lemma ForgottenPrefixes(t: seq<Option<Drop>>, p: Prefix)
    ensures DropPrefixes(ForgetDrop(t, p)) <= DropPrefixes(t)
  {
    forall q | q in DropPrefixes(ForgetDrop(t, p)) ensures q in DropPrefixes(t) {
      var d :| Some(d) in ForgetDrop(t, p) && d.prefix == q;
      assert Some(d) in t;
    }
  }

  lemma PaddedAsks(s: State, t: State)
    requires Padded(s, t)
    ensures t.cfg == s.cfg && s.mem.asks <= t.mem.asks
  {
  }

  /** A new local prefix passes admission before the event begins. */
  lemma OriginateFits(s: State, now: nat, p: Prefix, metric: u16)
    requires Steady(s) && Originate(s, now, p, metric).0.Ok?
    ensures BoundedOrRefused(s, Originate(s, now, p, metric).1)
  {
    hide Begin, Steady, LocalSlot, LocalPrefixes, DropPrefixes, CandPrefixes, Recordable, Routable, ForgetDrop, RoutePrefixes, Admitted, BoundedOrRefused, FitsOrRefused, Padded, Admissible;
    LocalSlotPads(s, p);
    var (slot, t) := LocalSlot(s, p);
    PaddedSteady(s, t);
    PaddedAsks(s, t);
    WokenFits(t, now);
    WokenTables(t, now);
    var u := Begin(t, now).1;
    var r := Originate(s, now, p, metric).1;
    SetLocalPrefixes(u.locals, slot.value, Local(p, metric));
    ForgottenPrefixes(u.drops, p);
    AdmissibleRoom(s, p);
    OneMoreFits(s, t, u, r, p);
  }

  lemma OneMoreFits(s: State, t: State, u: State, r: State, p: Prefix)
    requires |Admitted(s) + {p}| <= s.cfg.limits.routes && Admitted(u) <= Admitted(s)
    requires t.cfg == s.cfg && s.mem.asks <= t.mem.asks && FitsOrRefused(t, u) && !u.stopped
    requires r == u.(locals := r.locals, drops := r.drops)
    requires LocalPrefixes(r.locals) <= LocalPrefixes(u.locals) + {p} && DropPrefixes(r.drops) <= DropPrefixes(u.drops)
    ensures BoundedOrRefused(s, r)
  {
    SubsetSize(Claimed(r), Admitted(s) + {p});
  }

  lemma AdmissibleRoom(s: State, p: Prefix)
    requires Steady(s) && Admissible(s, p)
    ensures |Admitted(s) + {p}| <= s.cfg.limits.routes
  {
    if p in Admitted(s) { assert Admitted(s) + {p} == Admitted(s); }
  }

  lemma PrepareFits(s: State, e: Event)
    requires Core(s) && Steady(s) && Timed(e) && Prepare(s, e).0.Ok?
    ensures BoundedOrRefused(s, Prepare(s, e).1)
  {
    hide Core, Steady, Begin, AddLink, Originate, Detach, Reprice, Retire, Take, FitsOrRefused, BoundedOrRefused, Fitting;
    if e.Attach? {
      AddLinkFits(s, e.now, e.config);
    } else if e.Announce? {
      OriginateFits(s, e.now, e.prefix, e.metric);
    } else {
      WokenFits(s, e.now);
      BeginKeeps(s, e.now);
      var t := Begin(s, e.now).1;
      FitsNow(s, t);
      if e.Unlink? { DetachFits(s, t, e.id); }
      else if e.Recost? { RepriceFits(s, t, e.id, e.cost); }
      else if e.Retreat? { RetireFits(s, t, e.prefix); }
      else if e.Arrive? { TakeFits(t, e.id, e.data); FitsThenBounded(s, t, Take(t, e.id, e.data)); }
      else { UncountedStep(t, t); FitsThenBounded(s, t, t); }
    }
  }

  lemma RepriceFits(s: State, t: State, id: u64, cost: u16)
    requires FitsOrRefused(s, t) && !t.stopped && cost != 0
    ensures BoundedOrRefused(s, Reprice(t, id, cost))
  {
    ShrinkingClaims(s, t, Reprice(t, id, cost));
  }

  // ----- Every call

  /** A call that is turned down changes at most capacities. */
  lemma RefusedPads(s: State, e: Event)
    requires Timed(e) && !Prepare(s, e).0.Ok?
    ensures Padded(s, Prepare(s, e).1)
  {
    hide Expire, Greet, Detach, Reprice, Retire, Take, ForgetDrop, LocalSlot, Recordable, Routable, Valid, Attachable, Begin, Padded;
    var r := Prepare(s, e).1;
    MemoryPads(s, s, r);
    if e.Announce? {
      LocalSlotPads(s, e.prefix);
      var t := LocalSlot(s, e.prefix).1;
      BeginRefused(t, e.now);
      MemoryPads(s, s, s);
      MemoryPads(s, t, r);
    } else if e.Attach? {
      var (slot, links, asks) := FreeSlot(s.cfg, s.mem.asks, s.links, s.cfg.limits.links);
      var t := Asked(s, asks).(links := links);
      LinksPad(s, t);
      BeginRefused(t, e.now);
      MemoryPads(s, t, r);
    } else {
      BeginRefused(s, e.now);
    }
  }

  lemma MemoryPads(s: State, t: State, r: State)
    requires t == s || Padded(s, t)
    ensures r == t.(mem := r.mem) && t.mem.asks <= r.mem.asks ==> Padded(s, r)
  {
  }

  lemma LinksPad(s: State, t: State)
    requires t == s.(links := t.links, mem := t.mem) && s.mem.asks <= t.mem.asks
    requires |s.links| <= |t.links| && t.links[..|s.links|] == s.links && (forall i :: |s.links| <= i < |t.links| ==> t.links[i].None?)
    requires |s.links| <= s.cfg.limits.links ==> |t.links| <= s.cfg.limits.links
    ensures Padded(s, t)
  {
  }

  lemma BeginRefused(s: State, now: nat)
    ensures !Begin(s, now).0.Ok? ==> Begin(s, now).1 == s.(mem := Begin(s, now).1.mem) && s.mem.asks <= Begin(s, now).1.mem.asks
  {
  }

  /** One call from a live, well-formed engine: it stays well formed and within
      its ceilings, or it stops for one of two reasons. */
  lemma ApplySteady(s: State, e: Event)
    requires Core(s) && Steady(s) && !s.stopped
    ensures var r := Apply(s, e).state;
            && r.cfg == s.cfg && s.mem.asks <= r.mem.asks
            && (!r.stopped ==> Steady(r))
            && (r.stopped ==> Refusal(s.cfg, s.mem.asks, r.mem.asks) || (e.Settle? && !e.success))
  {
    hide Core, Steady, Prepare, Commit, NextPacket, RequestPrefix, Refusal, Completed;
    match e
    case Settle(revision, success) => CommitSteady(s, revision, success);
    case Send(cap) => SendSteady(s, cap);
    case Enquire(p) => EnquireSteady(s, p);
    case _ => TimedSteady(s, e);
  }

  lemma TimedSteady(s: State, e: Event)
    requires Core(s) && Steady(s) && !s.stopped && Timed(e)
    ensures var r := Completed(Prepare(s, e)).1;
            && r.cfg == s.cfg && s.mem.asks <= r.mem.asks
            && (!r.stopped ==> Steady(r))
            && (r.stopped ==> Refusal(s.cfg, s.mem.asks, r.mem.asks))
  {
    hide Core, Steady, Prepare, Finish, Bounded, Refusal;
    var (st, t) := Prepare(s, e);
    if st.Ok? {
      PrepareFits(s, e);
      PrepareKeeps(s, e);
      FinishGrows(t);
      if t.stopped {
        StoppedFinish(t);
        WiderRefusal(s.cfg, s.mem.asks, s.mem.asks, t.mem.asks, Finish(t).1.mem.asks);
      } else if Finish(t).0.Stopped? {
        FinishStops(t);
        WiderRefusal(s.cfg, s.mem.asks, t.mem.asks, Finish(t).1.mem.asks, Finish(t).1.mem.asks);
      } else {
        FinishSteady(t);
      }
    } else {
      RefusedPads(s, e);
      PaddedSteady(s, t);
    }
  }

  lemma WiderRefusal(cfg: Config, a: nat, b: nat, c: nat, d: nat)
    requires a <= b && c <= d && Refusal(cfg, b, c)
    ensures Refusal(cfg, a, d)
  {
    var k :| b <= k < c && !cfg.grant(k);
    assert a <= k < d && !cfg.grant(k);
  }

  lemma FinishGrows(s: State)
    ensures Finish(s).1.cfg == s.cfg && s.mem.asks <= Finish(s).1.mem.asks && (Finish(s).1.stopped <==> Finish(s).0.Stopped?)
  {
    hide SelectRoutes, Timers, Collect;
  }

  lemma StoppedFinish(s: State)
    requires s.stopped
    ensures Finish(s).0.Stopped?
  {
    hide Timers, Collect;
  }

  lemma SteadyAlone(s: State, r: State)
    requires Steady(s) && r == s.(msgs := r.msgs, mem := r.mem, ctl := r.ctl, stopped := r.stopped)
    ensures Steady(r)
  {
    forall x | x in r.routes ensures Supported(r, x) { assert Supported(s, x); }
  }

  lemma CommitSteady(s: State, revision: nat, success: bool)
    requires Steady(s) && !s.stopped
    ensures var r := Commit(s, revision, success).1;
            r.cfg == s.cfg && s.mem.asks <= r.mem.asks && (!r.stopped ==> Steady(r)) && (r.stopped ==> !success)
  {
    hide Steady;
    SteadyAlone(s, Commit(s, revision, success).1);
  }

  /** Every queued message encodes and belongs to a live link, so sending never
      stops the engine. */
  lemma SendSteady(s: State, cap: nat)
    requires Core(s) && Steady(s) && !s.stopped
    ensures var r := NextPacket(s, cap).2;
            r.cfg == s.cfg && s.mem.asks <= r.mem.asks && !r.stopped && Steady(r)
  {
    hide Steady, Core, Fill;
    assert MsgsOk(s.msgs, s.links) by { CoreMsgs(s); }
    SteadyAlone(s, NextPacket(s, cap).2);
    if s.ctl.pending == 0 && s.ctl.ready && s.ctl.cursor < |s.msgs| {
      var link := s.msgs[s.ctl.cursor].link;
      assert s.msgs[s.ctl.cursor] in s.msgs;
      FillIsBatch(s.msgs, s.ctl.cursor, link, 4, s.links[LinkAt(s.links, link)].value.config.maxPacket);
    }
  }

  lemma CoreMsgs(s: State)
    requires Core(s)
    ensures MsgsOk(s.msgs, s.links)
  {
  }

  lemma EnquireSteady(s: State, p: Prefix)
    requires Steady(s) && !s.stopped
    ensures var r := RequestPrefix(s, p).1; r.cfg == s.cfg && s.mem.asks <= r.mem.asks && !r.stopped && Steady(r)
  {
    hide Steady, QueueAll, AttachedLinks, Routable, Reserve;
    SteadyAlone(s, RequestPrefix(s, p).1);
  }

  // ----- Every run

  /** A stopped engine sends nothing and keeps its table, whatever is called. */
  lemma StoppedApply(s: State, e: Event)
    requires s.stopped
    ensures var r := Apply(s, e);
            r.packet.None? && r.state.stopped && r.state.routes == s.routes && r.state.cfg == s.cfg && s.mem.asks <= r.state.mem.asks
  {
    hide Prepare, FreeSlot, Routable, Valid, Attachable, Padded;
    if Timed(e) {
      StoppedPrepare(s, e);
      RefusedPads(s, e);
      PaddedFrame(s, Prepare(s, e).1);
    }
  }

  lemma PaddedFrame(s: State, r: State)
    requires Padded(s, r)
    ensures r.stopped == s.stopped && r.routes == s.routes && r.cfg == s.cfg && s.mem.asks <= r.mem.asks
  {
  }

  lemma StoppedPrepare(s: State, e: Event)
    requires s.stopped && Timed(e)
    ensures !Prepare(s, e).0.Ok?
  {
    hide FreeSlot, Routable, Valid, Attachable, Expire, LocalSlot, Recordable;
  }

  lemma {:induction false} StoppedForever(s: State, es: seq<Event>)
    requires s.stopped
    ensures var r := Run(s, es); r.stopped && r.routes == s.routes && r.cfg == s.cfg && s.mem.asks <= r.mem.asks
    ensures forall e :: Apply(Run(s, es), e).packet.None?
    decreases |es|
  {
    hide Apply;
    forall e ensures Apply(s, e).packet.None? { StoppedApply(s, e); }
    if es != [] {
      StoppedApply(s, es[0]);
      StoppedForever(Apply(s, es[0]).state, es[1..]);
    }
  }

  /** Some commit in the run was reported as failed. */
  predicate CommitFailed(es: seq<Event>) {
    exists i :: 0 <= i < |es| && es[i].Settle? && !es[i].success
  }

  lemma {:induction false} RunKeeps(s: State, es: seq<Event>)
    requires Core(s)
    ensures Core(Run(s, es))
    decreases |es|
  {
    hide Core, Apply;
    if es != [] {
      ApplyKeeps(s, es[0]);
      RunKeeps(Apply(s, es[0]).state, es[1..]);
    }
  }

  /** In every run the engine keeps within its ceilings while it lives, and it
      dies only of a refused allocation or a failed commit. */
  lemma {:induction false} RunStaysSteady(s: State, es: seq<Event>)
    requires Core(s) && Steady(s) && !s.stopped
    ensures var r := Run(s, es);
            && r.cfg == s.cfg && s.mem.asks <= r.mem.asks
            && (!r.stopped ==> Steady(r))
            && (r.stopped ==> Refusal(s.cfg, s.mem.asks, r.mem.asks) || CommitFailed(es))
    decreases |es|
  {
    hide Core, Apply, Steady, Refusal;
    if es != [] {
      var t := Apply(s, es[0]).state;
      ApplySteady(s, es[0]);
      ApplyKeeps(s, es[0]);
      if t.stopped {
        StoppedForever(t, es[1..]);
        if Refusal(s.cfg, s.mem.asks, t.mem.asks) { WiderRefusal(s.cfg, s.mem.asks, s.mem.asks, t.mem.asks, Run(s, es).mem.asks); }
      } else {
        RunStaysSteady(t, es[1..]);
        var r := Run(s, es);
        if Refusal(s.cfg, t.mem.asks, r.mem.asks) { WiderRefusal(s.cfg, s.mem.asks, t.mem.asks, r.mem.asks, r.mem.asks); }
        assert CommitFailed(es[1..]) ==> CommitFailed(es);
      }
    }
  }

  lemma InitSteady(cfg: Config, seqno: u16)
    ensures Core(Init(cfg, seqno)) && Steady(Init(cfg, seqno))
  {
    assert Admitted(Init(cfg, seqno)) == {};
  }

  /** From initialisation on: at most WB_ROUTES distinct prefixes are ever
      admitted, every route rests on one of them, all queued output encodes for
      a live link, and limits alone never stop the engine. */
  lemma LimitsNeverKill(cfg: Config, seqno: u16, es: seq<Event>)
    ensures var r := Run(Init(cfg, seqno), es);
            && Core(r) && r.cfg == cfg
            && (!r.stopped ==> |Admitted(r)| <= cfg.limits.routes && Backed(r) && |r.routes| <= cfg.limits.routes)
            && (r.stopped ==> Refusal(cfg, 0, r.mem.asks) || CommitFailed(es))
  {
    hide Core, Run;
    InitSteady(cfg, seqno);
    RunStaysSteady(Init(cfg, seqno), es);
    RunKeeps(Init(cfg, seqno), es);
    var r := Run(Init(cfg, seqno), es);
    if !r.stopped {
      forall p | p in RoutePrefixes(r.routes) ensures p in Admitted(r) {
        var x :| x in r.routes && x.prefix == p;
        assert Supported(r, x);
      }
      assert Claimed(r) == Admitted(r);
      CoreRoutes(r);
      RoutesBounded(r);
    }
  }
}
