/** Deadline soundness over runs: after any completed event, once its change is
    committed and its output drained. */
module DeadlineRuns {
  import opened Types
  import opened EngineState
  import opened Engine
  import opened EngineEvents
  import opened Selection
  import opened Invariant
  import opened Limits
  import opened Settled
  import opened Admission
  import opened Runs
  import opened RunLimits
  import opened Suppression
  import opened Deadline

  predicate Untimed(es: seq<Event>) {
    forall e :: e in es ==> !Timed(e)
  }

  lemma RestAlone(s: State, r: State)
    requires AtRest(s) && r == s.(msgs := r.msgs, mem := r.mem, ctl := r.ctl, stopped := r.stopped)
    ensures AtRest(r)
  {
    hide NeedsRefresh, Answered, LinkQuiet, PendingQuiet, StrictlySorted;
    forall p ensures RouteFor(r.routes, p) == Entry(r, p) && DropFor(r.drops, p) == Remaining(r, p) {
      BestAlone(s, r, p, |s.cands|);
      assert RouteFor(s.routes, p) == Entry(s, p) && DropFor(s.drops, p) == Remaining(s, p);
    }
  }

  lemma {:induction false} BestAlone(s: State, r: State, p: Prefixes.Prefix, i: nat)
    requires r == s.(msgs := r.msgs, mem := r.mem, ctl := r.ctl, stopped := r.stopped) && i <= |s.cands|
    ensures Best(r, r.routes, p, i) == Best(s, s.routes, p, i)
  {
    if i > 0 {
      BestAlone(s, r, p, i - 1);
      if s.cands[i - 1].Some? { EligibleAlone(s, r, s.cands[i - 1].value); }
    }
  }

  lemma EligibleAlone(s: State, r: State, c: Candidate)
    requires r == s.(msgs := r.msgs, mem := r.mem, ctl := r.ctl, stopped := r.stopped)
    ensures Eligible(r, c) == Eligible(s, c) && Selected(r, c) == Selected(s, c)
  {
    hide CostAt, Feasible;
  }

  lemma {:induction false} QuietRun(s: State, es: seq<Event>)
    requires Core(s) && Steady(s) && Untimed(es) && !Run(s, es).stopped
    ensures var r := Run(s, es); Core(r) && Steady(r)
    decreases |es|
  {
    hide Core, Steady, Apply;
    if es != [] {
      var t := Apply(s, es[0]).state;
      assert es[0] in es;
      UntimedFrame(s, es[0]);
      if t.stopped { StoppedForever(t, es[1..]); } else if s.stopped { StoppedApply(s, es[0]); } else {
        ApplyKeeps(s, es[0]);
        SteadyAlone(s, t);
        QuietRun(t, es[1..]);
      }
    }
  }

  lemma {:induction false} UntimedRun(s: State, es: seq<Event>)
    requires Untimed(es)
    ensures var r := Run(s, es); r == s.(msgs := r.msgs, mem := r.mem, ctl := r.ctl, stopped := r.stopped)
    decreases |es|
  {
    hide Apply;
    if es != [] {
      assert es[0] in es;
      UntimedFrame(s, es[0]);
      UntimedRun(Apply(s, es[0]).state, es[1..]);
    }
  }

  lemma UndisturbedAlone(s: State, r: State)
    requires r == s.(msgs := r.msgs, mem := r.mem, ctl := r.ctl, stopped := r.stopped)
    ensures Undisturbed(r) <==> Undisturbed(s)
  {
    hide Eligible, Selected;
    forall c | Some(c) in s.cands ensures Overtakes(r, c) == Overtakes(s, c) { EligibleAlone(s, r, c); }
  }

  /** What the deadline promises of an early tick. */
  ghost predicate Silent(x: State, now: nat) {
    var r := Apply(x, Wake(now));
    r.status.Ok? && r.state.msgs == [] && r.state.routes == x.routes
  }

  /** x is what a timed event left, once committed and drained, and now is
      strictly before its deadline. */
  ghost predicate Waiting(s: State, e: Event, es: seq<Event>, now: nat)
    requires Timed(e)
  {
    var x := Run(Apply(s, e).state, es);
    && Core(s) && Steady(s) && Prepare(s, e).0.Ok? && Untimed(es)
    && !x.stopped && x.ctl.pending == 0 && x.ctl.cursor >= |x.msgs|
    && x.now <= now < NextDeadline(x) && now <= LATEST
  }

  /** Unless the allocator refuses, an early tick queues nothing and leaves the
      table as it is exactly when no candidate has become able to overtake. */
  lemma DeadlineIsExact(s: State, e: Event, es: seq<Event>, now: nat)
    requires Timed(e) && Waiting(s, e, es, now)
    ensures var x := Run(Apply(s, e).state, es);
            Refusal(x.cfg, x.mem.asks, Apply(x, Wake(now)).state.mem.asks) || (Silent(x, now) <==> Undisturbed(x))
  {
    hide Core, Steady, AtRest, Apply, Run, Prepare, NextDeadline, Undisturbed, Refusal, Overtakes;
    var t := Apply(s, e).state;
    var x := Run(t, es);
    UntimedRun(t, es);
    UndisturbedAlone(t, x);
    WakeIsTick(x, now);
    CompletedKeeps(s, e, es);
    QuietRun(t, es);
    if Undisturbed(x) {
      CompletedAtRest(s, e, es);
      RestAlone(t, x);
      SilentOrRefused(x, now);
    } else {
      MovesOrRefused(x, now);
    }
  }

  /** With the sequence numbers of every source in a half circle none overtakes,
      so the deadline is sound. */
  lemma DeadlineIsSound(s: State, e: Event, es: seq<Event>, now: nat)
    requires Timed(e) && Waiting(s, e, es, now) && Windowed(Prepare(s, e).1)
    ensures var x := Run(Apply(s, e).state, es);
            Refusal(x.cfg, x.mem.asks, Apply(x, Wake(now)).state.mem.asks) || Silent(x, now)
  {
    hide Core, Steady, AtRest, Apply, Run, Prepare, NextDeadline, Windowed, Undisturbed, Refusal, Silent;
    var t := Apply(s, e).state;
    var x := Run(t, es);
    UntimedRun(t, es);
    UndisturbedAlone(t, x);
    CompletedUndisturbed(s, e, es);
    DeadlineIsExact(s, e, es, now);
  }

  lemma WakeIsTick(s: State, now: nat)
    ensures Apply(s, Wake(now)).status == Tick(s, now).0 && Apply(s, Wake(now)).state == Tick(s, now).1
  {
    hide Begin, Finish;
  }

  lemma CompletedKeeps(s: State, e: Event, es: seq<Event>)
    requires Core(s) && Steady(s) && Timed(e) && Prepare(s, e).0.Ok? && !Run(Apply(s, e).state, es).stopped
    ensures var u := Prepare(s, e).1;
            var t := Apply(s, e).state;
            !t.stopped && Core(t) && Steady(t) && Core(u) && !u.stopped && !Finish(u).0.Stopped? && t == Finish(u).1
  {
    hide Core, Steady, Run, Prepare, Finish;
    var t := Apply(s, e).state;
    var u := Prepare(s, e).1;
    if t.stopped { StoppedForever(t, es); } else {
      FinishGrows(u);
      if u.stopped { StoppedFinish(u); } else {
        PreparedLive(s, e);
        ApplyKeeps(s, e);
        ApplySteady(s, e);
        PrepareKeeps(s, e);
      }
    }
  }

  lemma CompletedAtRest(s: State, e: Event, es: seq<Event>)
    requires Core(s) && Steady(s) && Timed(e) && Prepare(s, e).0.Ok? && Undisturbed(Apply(s, e).state)
    requires !Run(Apply(s, e).state, es).stopped
    ensures var t := Apply(s, e).state; Core(t) && Steady(t) && AtRest(t)
  {
    hide Core, Steady, AtRest, Run, Prepare, Finish, Apply, Undisturbed;
    CompletedKeeps(s, e, es);
    FinishAtRest(Prepare(s, e).1);
  }

  lemma CompletedUndisturbed(s: State, e: Event, es: seq<Event>)
    requires Core(s) && Steady(s) && Timed(e) && Prepare(s, e).0.Ok? && Windowed(Prepare(s, e).1)
    requires !Run(Apply(s, e).state, es).stopped
    ensures Undisturbed(Apply(s, e).state)
  {
    hide Core, Steady, Run, Prepare, Finish, Apply, Windowed, Undisturbed;
    CompletedKeeps(s, e, es);
    FinishUndisturbed(Prepare(s, e).1);
  }

  lemma PreparedLive(s: State, e: Event)
    requires Timed(e) && Prepare(s, e).0.Ok?
    ensures !s.stopped
  {
    hide Prepare;
    if s.stopped { StoppedPrepare(s, e); }
  }

  lemma SilentOrRefused(x: State, now: nat)
    requires Core(x) && Steady(x) && AtRest(x) && !x.stopped && x.ctl.pending == 0 && x.ctl.cursor >= |x.msgs|
    requires x.now <= now < NextDeadline(x) && now <= LATEST
    ensures var (st, r) := Tick(x, now);
            || (st.Ok? && r.msgs == [] && r.routes == x.routes)
            || Refusal(x.cfg, x.mem.asks, r.mem.asks)
  {
    hide Core, Steady, AtRest, Begin, Finish, NextDeadline, Refusal;
    RefusedOrDone(x, now);
    var (st, r) := Tick(x, now);
    if st.Ok? || st.Changed? { EarlyTickIsSilent(x, now); }
  }

  /** A tick of a steady engine that is ready for one ends early only when the
      allocator refuses. */
  lemma RefusedOrDone(x: State, now: nat)
    requires Core(x) && Steady(x) && !x.stopped && x.ctl.pending == 0 && x.ctl.cursor >= |x.msgs|
    requires x.now <= now <= LATEST
    ensures var (st, r) := Tick(x, now);
            st.Ok? || st.Changed? || Refusal(x.cfg, x.mem.asks, r.mem.asks)
  {
    hide Core, Steady, Finish, Bounded, Refusal;
    var (st, t) := Begin(x, now);
    if !st.Ok? {
      SteadyRoutes(x);
      BeginOnlyLimit(x, now);
    } else if Finish(t).0.Stopped? {
      WokenFits(x, now);
      FitsNow(x, t);
      FittingIsBounded(t);
      BeginKeeps(x, now);
      FinishStops(t);
      WiderRefusal(x.cfg, x.mem.asks, t.mem.asks, Finish(t).1.mem.asks, Finish(t).1.mem.asks);
    } else {
      FinishOutcome(t);
    }
  }

  lemma MovesOrRefused(x: State, now: nat)
    requires Core(x) && Steady(x) && !Undisturbed(x) && !x.stopped && x.ctl.pending == 0 && x.ctl.cursor >= |x.msgs|
    requires x.now <= now < NextDeadline(x) && now <= LATEST
    ensures var (st, r) := Tick(x, now);
            r.routes != x.routes || Refusal(x.cfg, x.mem.asks, r.mem.asks)
  {
    hide Core, Steady, Finish, NextDeadline, Bounded, Refusal, Overtakes;
    RefusedOrDone(x, now);
    var (st, r) := Tick(x, now);
    if st.Ok? || st.Changed? {
      var d :| Some(d) in x.cands && Overtakes(x, d);
      OvertakenMoves(x, now, d);
    }
  }

  lemma FinishOutcome(s: State)
    requires !Finish(s).0.Stopped?
    ensures Finish(s).0.Ok? || Finish(s).0.Changed?
  {
    hide SelectRoutes, Timers, Collect;
  }

  lemma SteadyRoutes(s: State)
    requires Core(s) && Steady(s)
    ensures |s.routes| <= s.cfg.limits.routes
  {
    hide Core;
    forall p | p in RoutePrefixes(s.routes) ensures p in Admitted(s) {
      var x :| x in s.routes && x.prefix == p;
      assert Supported(s, x);
    }
    assert Claimed(s) == Admitted(s);
    CoreRoutes(s);
    RoutesBounded(s);
  }

  lemma BeginOnlyLimit(s: State, now: nat)
    requires !s.stopped && s.ctl.pending == 0 && s.ctl.cursor >= |s.msgs| && s.now <= now <= LATEST
    requires |s.routes| <= s.cfg.limits.routes && !Begin(s, now).0.Ok?
    ensures Refusal(s.cfg, s.mem.asks, Begin(s, now).1.mem.asks)
  {
    hide Expire, Grown;
  }
}
