/** The read-only origin query foretells the next step exactly. */
module Query {
  import opened Types
  import opened Prefixes
  import opened EngineState
  import opened Engine
  import opened EngineEvents
  import opened Selection
  import opened Invariant

  /** The state in which a tick at `now` selects: time advanced, output cleared,
      expired entries removed. */
  function Woken(s: State, now: nat): (r: State) {
    Begin(s, now).1
  }

  lemma WokenTables(s: State, now: nat)
    requires Begin(s, now).0.Ok?
    ensures var t := Woken(s, now);
            && t.now == now && t.cfg == s.cfg && t.links == s.links && t.locals == s.locals && t.drops == s.drops && t.routes == s.routes && !t.stopped
            && |t.cands| == |s.cands| && |t.sources| == |s.sources|
            && (forall i :: 0 <= i < |s.cands| ==> t.cands[i] == Aged(s.cands[i], now))
            && (forall i :: 0 <= i < |s.sources| ==>
                  t.sources[i] == if s.sources[i].Some? && s.sources[i].value.expires <= now then None else s.sources[i])
  {
  }

  lemma WokenSource(s: State, now: nat, p: Prefix, router: u64)
    requires Begin(s, now).0.Ok? && DistinctSources(s.sources)
    ensures var a := SourceFor(s.sources, p, router);
            SourceFor(Woken(s, now).sources, p, router) == if a.Some? && a.value.expires <= now then None else a
  {
    hide Begin;
    WokenTables(s, now);
    var f, g := s.sources, Woken(s, now).sources;
    var i, j := SourceAt(f, p, router), SourceAt(g, p, router);
    assert j < |g| ==> f[j] == g[j];
    assert i < |f| && f[i].value.expires > now ==> g[i] == f[i];
  }

  /** Usable in the query's sense is eligible in the step's sense. */
  lemma UsableIsEligible(s: State, now: nat, c: Candidate)
    requires Begin(s, now).0.Ok? && DistinctSources(s.sources) && !HasLocal(s.locals, c.route.prefix) && c.expires > now
    ensures UsableAt(s, now, c) <==> Eligible(Woken(s, now), c)
  {
    hide Begin, CostAt, HasLocal;
    WokenTables(s, now);
    WokenSource(s, now, c.route.prefix, c.route.router);
  }

  lemma AgedSurvivor(s: State, now: nat, i: nat)
    requires Begin(s, now).0.Ok? && i < |s.cands| && Woken(s, now).cands[i].Some? && Eligible(Woken(s, now), Woken(s, now).cands[i].value)
    ensures s.cands[i] == Woken(s, now).cands[i] && s.cands[i].value.expires > now
  {
    hide Begin, CostAt, Feasible, HasLocal;
    WokenTables(s, now);
  }

  /** Some origin is usable at `now` exactly when the woken state has an eligible
      candidate for the prefix. */
  lemma UsableMeansChoice(s: State, now: nat, p: Prefix)
    requires Core(s) && Begin(s, now).0.Ok? && s.ctl.ready && Routable(p) && !HasLocal(s.locals, p)
    ensures (exists router, seqno :: HasUsableOrigin(s, now, p, router, seqno)) <==> Choice(Woken(s, now), p).Some?
  {
    hide HasUsableOrigin, Begin, Woken, Core;
    if router, seqno :| HasUsableOrigin(s, now, p, router, seqno) { UsableIsChosen(s, now, p, router, seqno); }
    if Choice(Woken(s, now), p).Some? { var router, seqno := ChosenIsUsable(s, now, p); }
  }

  lemma UsableIsChosen(s: State, now: nat, p: Prefix, router: u64, seqno: u16)
    requires Core(s) && Begin(s, now).0.Ok? && HasUsableOrigin(s, now, p, router, seqno)
    ensures Choice(Woken(s, now), p).Some?
  {
    hide Begin, Eligible, UsableAt, Woken, Partial;
    WokenTables(s, now);
    var t := Woken(s, now);
    ChoiceIsWinner(t, p);
    var i :| 0 <= i < |s.cands| && s.cands[i].Some? && s.cands[i].value.route.prefix == p && UsableAt(s, now, s.cands[i].value);
    assert s.cands[i].value.expires > now by { UsableLasts(s, now, s.cands[i].value); }
    UsableIsEligible(s, now, s.cands[i].value);
    assert t.cands[i] == s.cands[i];
    assert t.cands[i] in t.cands;
  }

  lemma ChosenIsUsable(s: State, now: nat, p: Prefix) returns (router: u64, seqno: u16)
    requires Core(s) && Begin(s, now).0.Ok? && s.ctl.ready && Routable(p) && !HasLocal(s.locals, p)
    requires Choice(Woken(s, now), p).Some?
    ensures HasUsableOrigin(s, now, p, router, seqno)
  {
    hide Begin, Eligible, UsableAt, Woken, Partial;
    WokenTables(s, now);
    var t := Woken(s, now);
    ChoiceIsWinner(t, p);
    var c :| Winner(t, t.routes, c) && c.route.prefix == p;
    var i :| 0 <= i < |t.cands| && t.cands[i] == Some(c);
    AgedSurvivor(s, now, i);
    UsableIsEligible(s, now, c);
    assert s.cands[i] in s.cands;
    BeginNeeds(s, now);
    router, seqno := c.route.router, c.route.seqno;
  }

  lemma UsableLasts(s: State, now: nat, c: Candidate)
    requires UsableAt(s, now, c)
    ensures c.expires > now
  {
  }

  lemma BeginNeeds(s: State, now: nat)
    requires Begin(s, now).0.Ok?
    ensures !s.stopped && s.ctl.pending == 0 && s.now <= now <= LATEST
  {
  }

  lemma FinishRoutes(s: State)
    requires !Finish(s).0.Stopped?
    ensures Finish(s).1.routes == SelectRoutes(s).routes && !SelectRoutes(s).stopped
  {
    hide SelectRoutes, Timers, Collect;
  }

  /** For a ready, drained engine, a routable prefix it does not originate and
      any later time: some origin satisfies the query at that time exactly when
      a tick at that time, granted its memory, leaves the prefix reachable. */
  lemma QueryForetellsTick(s: State, now: nat, p: Prefix)
    requires Core(s) && s.ctl.ready && Routable(p) && !HasLocal(s.locals, p)
    requires Tick(s, now).0.Ok? || Tick(s, now).0.Changed?
    ensures (exists router, seqno :: HasUsableOrigin(s, now, p, router, seqno)) <==> Reachable(Tick(s, now).1.routes, p)
  {
    hide Begin, Finish, Partial, HasUsableOrigin, SelectRoutes;
    assert Begin(s, now).0.Ok? by { TickBegins(s, now); }
    var t := Woken(s, now);
    UsableMeansChoice(s, now, p);
    FinishRoutes(t);
    BeginKeeps(s, now);
    assert !t.stopped by { WokenTables(s, now); }
    SelectMeetsSpec(t);
    assert RouteFor(SelectRoutes(t).routes, p) == Entry(t, p);
    assert Choice(t, p).Some? ==> !Choice(t, p).value.unreachable by { if Choice(t, p).Some? { ChoiceIsReachable(t, p); } }
  }

  lemma TickBegins(s: State, now: nat)
    requires Tick(s, now).0.Ok? || Tick(s, now).0.Changed?
    ensures Begin(s, now).0.Ok? && Tick(s, now) == Finish(Woken(s, now)) && !Finish(Woken(s, now)).0.Stopped?
  {
    hide Finish, Expire;
  }
}
