/** What a restored engine does first (history.c, engine.c). It comes back with
    suppression records and no table, so it is at rest only if there is nothing to
    suppress; its first tick shows what is suppressed and schedules updates. */
module Restart {
  import opened Types
  import opened Prefixes
  import opened EngineState
  import opened Engine
  import opened EngineEvents
  import opened Selection
  import opened Invariant
  import opened Settled
  import opened Query
  import opened Limits
  import opened RunLimits
  import opened Runs
  import opened Scenario
  import opened History

  /** Every record that came back lasts equally long. */
  lemma RebornDrop(s: State, t: State, p: Prefix)
    requires Core(s) && Reborn(s, t)
    ensures DropFor(t.drops, p) == if p in Withheld(s) then Some(Drop(p, DropMs(s))) else None
  {
    hide Core, Used, Longest, Withheld;
    var ps := Withheld(s);
    RebornDrops(s, t);
    forall x | Some(x) in t.drops ensures x.prefix in ps {
      var i :| 0 <= i < |t.drops| && t.drops[i] == Some(x);
      assert ps[i] == x.prefix;
    }
    if p in ps {
      var i :| 0 <= i < |ps| && ps[i] == p;
      assert t.drops[i] == Some(Drop(p, DropMs(s)));
      assert t.drops[i] in t.drops;
      DropIsFor(t.drops, Drop(p, DropMs(s)));
    }
  }

  lemma RebornChoice(s: State, t: State)
    requires Reborn(s, t)
    ensures forall p :: Choice(t, p).None?
  {
    hide Choice, Refilled;
    forall p ensures Choice(t, p).None? { ChoiceIsWinner(t, p); }
  }

  lemma LifeLeft(s: State)
    requires Core(s)
    ensures 0 < DropMs(s) <= DAY
  {
    hide Core;
    CoreDrops(s);
    DropMsBound(s);
  }

  /** At rest exactly when nothing is suppressed. */
  lemma RebornRest(s: State, t: State)
    requires Core(s) && Reborn(s, t)
    ensures AtRest(t) <==> Withheld(s) == []
  {
    hide Core, Reborn, Withheld, Choice, DropMs;
    RebornChoice(s, t);
    LifeLeft(s);
    RebornTables(s, t);
    forall p ensures DropFor(t.drops, p) == if p in Withheld(s) then Some(Drop(p, DropMs(s))) else None { RebornDrop(s, t, p); }
    if Withheld(s) != [] {
      var p := Withheld(s)[0];
      assert Entry(t, p) == Some(UnreachableRoute(p)) && RouteFor(t.routes, p).None?;
    }
  }

  lemma RebornTables(s: State, t: State)
    requires Core(s) && Reborn(s, t)
    ensures Quiet(t) && t.routes == [] && t.now == 0 && t.locals == [] && t.cands == [] && t.links == [] && t.requests == [] && !t.pace.on
    ensures t.cfg == s.cfg && !t.stopped && t.ctl == Control(0, 0, true, 0) && t.msgs == [] && DistinctDrops(t.drops)
  {
    hide Core, Refilled, Used, Withheld;
    RebornDrops(s, t);
  }

  // ----- The deadline it announces

  function Earlier(a: nat, b: nat): (r: nat) {
    if a < b then a else b
  }

  lemma {:induction false} SourcesAgree(next: nat, t: seq<Option<Source>>, e: nat)
    requires e > 0 && forall x :: Some(x) in t ==> x.expires == e
    ensures SourcesDue(0, next, t) == if exists x :: Some(x) in t then Earlier(next, e) else next
  {
    if t != [] {
      assert t == [t[0]] + t[1..];
      SourcesAgree(if t[0].Some? then Sooner(0, next, t[0].value.expires) else next, t[1..], e);
      assert t[0].Some? ==> Some(t[0].value) in t;
      assert forall x :: Some(x) in t[1..] ==> Some(x) in t;
    }
  }

  lemma {:induction false} DropsAgree(next: nat, t: seq<Option<Drop>>, e: nat)
    requires e > 0 && forall x :: Some(x) in t ==> x.expires == e
    ensures DropsDue(0, next, t) == if exists x :: Some(x) in t then Earlier(next, e) else next
  {
    if t != [] {
      assert t == [t[0]] + t[1..];
      DropsAgree(if t[0].Some? then Sooner(0, next, t[0].value.expires) else next, t[1..], e);
      assert t[0].Some? ==> Some(t[0].value) in t;
      assert forall x :: Some(x) in t[1..] ==> Some(x) in t;
    }
  }

  /** Until its first tick it asks to be woken only when records lapse. */
  lemma RebornDeadline(s: State, t: State)
    requires Core(s) && Reborn(s, t)
    ensures NextDeadline(t) == Earlier(if Used(s.sources) != [] then s.cfg.source else U64_MAX,
                                       if Withheld(s) != [] then DropMs(s) else U64_MAX)
  {
    hide Core, Used, Longest, Withheld, SourcesDue, DropsDue;
    LifeLeft(s);
    var xs, ps := Used(s.sources), Withheld(s);
    forall x | Some(x) in t.sources ensures x.expires == s.cfg.source { var i :| 0 <= i < |t.sources| && t.sources[i] == Some(x); }
    forall x | Some(x) in t.drops ensures x.expires == DropMs(s) { var i :| 0 <= i < |t.drops| && t.drops[i] == Some(x); }
    assert xs != [] ==> t.sources[0] in t.sources;
    assert ps != [] ==> t.drops[0] in t.drops;
    SourcesAgree(U64_MAX, t.sources, s.cfg.source);
    DropsAgree(SourcesDue(0, U64_MAX, t.sources), t.drops, DropMs(s));
  }

  // ----- The first tick

  /** What is scheduled with repeats stays so. */
  lemma {:induction false} NotedRepeats(s: State, i: nat)
    requires i <= |s.routes| && s.pace.on && s.pace.repeats == 2
    ensures NoteChanges(s, [], i).pace.repeats == 2
    decreases |s.routes| - i
  {
    if i < |s.routes| { NotedRepeats(Trigger(s, true), i + 1); }
  }

  /** A selection that starts from an empty table. */
  lemma SelectsAfresh(u: State)
    requires !u.stopped && !SelectRoutes(u).stopped && u.routes == [] && u.requests == [] && !u.pace.on
    ensures var r := SelectRoutes(u);
            && (r.routes != [] ==> r.pace.on && r.pace.repeats == 2 && u.now <= r.pace.at <= u.now + 50)
            && (r.routes == [] ==> r.pace == u.pace) && r.requests == []
  {
    hide SelectRoutes, Chosen, KeepDrops, NoteChanges, Sorted, Reserve, Jitter;
    SelectStages(u);
    var t1, t2 := Stage1(u), Stage2(u);
    assert SuppressLost(t1, [], 0) == t1;
    var t3 := t2.(routes := Sorted(t2.routes));
    PublishRoutes(t2, []);
    if t3.routes != [] {
      FirstNoted(t3);
      NotedPace(t3, [], 0);
      NotedFirst(t3);
      NotedRepeats(Trigger(t3, true), 1);
    } else {
      NothingNew(t3);
    }
  }

  lemma NothingNew(t: State)
    requires t.routes == []
    ensures NoteChanges(t, [], 0) == t
  {
  }

  /** Timers of an engine without neighbours, candidates or requests. */
  lemma LonelyTimers(r: State)
    requires r.links == [] && r.cands == [] && r.requests == []
    ensures Timers(r) == r.(pace := TriggeredDump(r).pace)
    ensures r.pace.on && r.pace.repeats == 2 && r.now <= r.pace.at <= r.now + 50 ==>
              Timers(r).pace.on && r.now < Timers(r).pace.at <= r.now + 150
  {
    hide Jitter;
    assert DumpLinks(r, 0) == r;
  }

  lemma WokenPace(t: State, now: nat)
    requires Begin(t, now).0.Ok?
    ensures Woken(t, now).pace == t.pace && |Woken(t, now).requests| == |t.requests| && Woken(t, now).ctl.revision == t.ctl.revision
    ensures Woken(t, now).before == t.routes
  {
    hide Reserve;
  }

  lemma FinishOfPlain(u: State)
    requires !Finish(u).0.Stopped?
    ensures var r := Finish(u).1;
            && r.routes == SelectRoutes(u).routes && !SelectRoutes(u).stopped && r.pace == Timers(SelectRoutes(u)).pace && r.now == u.now
            && (Finish(u).0.Changed? <==> u.before != r.routes)
  {
    hide SelectRoutes, Timers, Collect;
  }

  /** The first tick shows exactly the prefixes still suppressed, as unreachable;
      if there are any, the table has changed and an update is due within 150
      milliseconds. */
  lemma FirstTick(s: State, t: State, now: nat)
    requires Core(s) && Steady(s) && Reborn(s, t) && (Tick(t, now).0.Ok? || Tick(t, now).0.Changed?)
    ensures var (st, r) := Tick(t, now);
            && (forall p :: RouteFor(r.routes, p) == if p in Withheld(s) && now < DropMs(s) then Some(UnreachableRoute(p)) else None)
            && (st.Changed? <==> Withheld(s) != [] && now < DropMs(s))
            && (st.Changed? ==> r.pace.on && now < r.pace.at <= now + 150)
  {
    hide Core, Steady, Reborn, Withheld, Choice, DropMs, Begin, Finish, SelectRoutes, Timers, NoteChanges;
    RebornTables(s, t);
    assert Core(t) by { RebornCore(s, t); }
    TickBegins(t, now);
    WokenTables(t, now);
    WokenPace(t, now);
    BeginKeeps(t, now);
    var u := Woken(t, now);
    FinishOfPlain(u);
    CoreShape(u);
    SelectMeetsSpec(u);
    var r1 := SelectRoutes(u);
    forall p ensures RouteFor(r1.routes, p) == if p in Withheld(s) && now < DropMs(s) then Some(UnreachableRoute(p)) else None {
      RebornDrop(s, t, p);
      assert Choice(u, p).None? by { NothingChosen(u, p); }
      assert RouteFor(r1.routes, p) == Entry(u, p);
    }
    assert r1.routes != [] <==> Withheld(s) != [] && now < DropMs(s) by {
      if r1.routes != [] { RouteIsFor(r1.routes, r1.routes[0]); }
      if Withheld(s) != [] { assert Withheld(s)[0] in Withheld(s); }
    }
    SelectsAfresh(u);
    LonelyTimers(r1);
  }

  lemma NothingChosen(u: State, p: Prefix)
    requires u.locals == [] && u.cands == []
    ensures Choice(u, p).None?
  {
  }

  /** Once that change is committed, the deadline is the update's at the latest. */
  lemma FirstDeadline(s: State, t: State, now: nat)
    requires Core(s) && Steady(s) && Reborn(s, t) && Tick(t, now).0.Changed?
    ensures var r := Tick(t, now).1;
            NextDeadline(Apply(r, Runs.Event.Settle(r.ctl.pending, true)).state) <= now + 150
  {
    hide Core, Steady, Reborn, Withheld, DropMs, Tick, Apply, NextDeadline;
    FirstTick(s, t, now);
    var r := Tick(t, now).1;
    ChangedIsPending(t, now);
    Committed(r);
    PacedDeadline(r.(ctl := r.ctl.(pending := 0, ready := true)), now + 150);
  }

  lemma ChangedIsPending(t: State, now: nat)
    requires Tick(t, now).0.Changed?
    ensures var r := Tick(t, now).1; !r.stopped && r.ctl.pending != 0 && r.now == now
  {
    hide SelectRoutes, Timers, Collect, Reserve;
  }

  lemma PacedDeadline(x: State, at: nat)
    requires !x.stopped && x.ctl.pending == 0 && x.pace.on && x.now < x.pace.at <= at
    ensures NextDeadline(x) <= at
  {
  }
}
