/** Deadline soundness: a tick strictly before the announced deadline sends
    nothing and leaves the selected table as it was. */
module Deadline {
  import opened Types
  import opened Prefixes
  import opened EngineState
  import opened Engine
  import opened EngineEvents
  import opened Selection
  import opened Invariant
  import opened Settled
  import opened Query

  // ----- Before the deadline nothing that is not due now becomes due

  predicate NotYet(t: nat, now: nat, v: nat) {
    v > now ==> t < v
  }

  predicate LinkNotYet(t: nat, now: nat, l: Link) {
    && NotYet(t, now, l.nextHello) && NotYet(t, now, l.nextIhu) && NotYet(t, now, l.nextUpdate)
    && NotYet(t, now, l.ihuExpires) && NotYet(t, now, l.multicast.expires) && NotYet(t, now, l.unicast.expires)
  }

  predicate CandNotYet(t: nat, now: nat, c: Candidate) {
    NotYet(t, now, c.expires) && (!c.refreshed && c.expires >= c.interval ==> NotYet(t, now, c.expires - c.interval))
  }

  predicate PendingNotYet(t: nat, now: nat, q: Pending) {
    NotYet(t, now, q.expires) && (q.remaining > 0 ==> NotYet(t, now, q.next))
  }

  lemma {:induction false} LinksNotYet(t: nat, now: nat, next: nat, table: seq<Option<Link>>)
    requires t < LinksDue(now, next, table)
    ensures t < next && forall x :: Some(x) in table ==> LinkNotYet(t, now, x)
  {
    if table != [] {
      LinksNotYet(t, now, if table[0].Some? then LinkDue(now, next, table[0].value) else next, table[1..]);
      assert table == [table[0]] + table[1..];
    }
  }

  lemma {:induction false} CandsNotYet(t: nat, now: nat, next: nat, table: seq<Option<Candidate>>)
    requires t < CandsDue(now, next, table)
    ensures t < next && forall x :: Some(x) in table ==> CandNotYet(t, now, x)
  {
    if table != [] {
      CandsNotYet(t, now, if table[0].Some? then CandDue(now, next, table[0].value) else next, table[1..]);
      assert table == [table[0]] + table[1..];
    }
  }

  lemma {:induction false} SourcesNotYet(t: nat, now: nat, next: nat, table: seq<Option<Source>>)
    requires t < SourcesDue(now, next, table)
    ensures t < next && forall x :: Some(x) in table ==> NotYet(t, now, x.expires)
  {
    if table != [] {
      SourcesNotYet(t, now, if table[0].Some? then Sooner(now, next, table[0].value.expires) else next, table[1..]);
      assert table == [table[0]] + table[1..];
    }
  }

  lemma {:induction false} DropsNotYet(t: nat, now: nat, next: nat, table: seq<Option<Drop>>)
    requires t < DropsDue(now, next, table)
    ensures t < next && forall x :: Some(x) in table ==> NotYet(t, now, x.expires)
  {
    if table != [] {
      DropsNotYet(t, now, if table[0].Some? then Sooner(now, next, table[0].value.expires) else next, table[1..]);
      assert table == [table[0]] + table[1..];
    }
  }

  lemma {:induction false} PendingsNotYet(t: nat, now: nat, next: nat, table: seq<Option<Pending>>)
    requires t < PendingsDue(now, next, table)
    ensures t < next && forall x :: Some(x) in table ==> PendingNotYet(t, now, x)
  {
    if table != [] {
      PendingsNotYet(t, now, if table[0].Some? then PendingDue(now, next, table[0].value) else next, table[1..]);
      assert table == [table[0]] + table[1..];
    }
  }

  /** Nothing in the engine's tables comes due in (now, t]. */
  ghost predicate Undue(s: State, t: nat) {
    && (forall x :: Some(x) in s.links ==> LinkNotYet(t, s.now, x))
    && (forall x :: Some(x) in s.cands ==> CandNotYet(t, s.now, x))
    && (forall x :: Some(x) in s.sources ==> NotYet(t, s.now, x.expires))
    && (forall x :: Some(x) in s.drops ==> NotYet(t, s.now, x.expires))
    && (forall x :: Some(x) in s.requests ==> PendingNotYet(t, s.now, x))
    && (s.pace.on ==> NotYet(t, s.now, s.pace.at))
  }

  /** The announced deadline precedes every pending event of every table. */
  lemma DeadlineIsLowerBound(s: State, t: nat)
    requires s.now <= t < NextDeadline(s) && !s.stopped && s.ctl.pending == 0
    ensures Undue(s, t)
  {
    hide LinkNotYet, CandNotYet, PendingNotYet, LinkDue, CandDue, PendingDue;
    var d1 := LinksDue(s.now, U64_MAX, s.links);
    var d2 := CandsDue(s.now, d1, s.cands);
    var d3 := SourcesDue(s.now, d2, s.sources);
    var d4 := DropsDue(s.now, d3, s.drops);
    PendingsNotYet(t, s.now, d4, s.requests);
    DropsNotYet(t, s.now, d3, s.drops);
    SourcesNotYet(t, s.now, d2, s.sources);
    CandsNotYet(t, s.now, d1, s.cands);
    LinksNotYet(t, s.now, U64_MAX, s.links);
  }

  // ----- Waking early changes only the clock

  /** t is s with a later clock, cleared output and other bookkeeping. */
  ghost predicate Later(s: State, t: State) {
    t == s.(now := t.now, mem := t.mem, ctl := t.ctl, before := t.before, msgs := t.msgs)
  }

  lemma WokenUnchanged(s: State, now: nat)
    requires Core(s) && Undue(s, now) && Begin(s, now).0.Ok?
    ensures Later(s, Woken(s, now)) && Woken(s, now).msgs == [] && Woken(s, now).now == now && Woken(s, now).before == s.routes
  {
    hide Routable, Valid, DistinctCands, DistinctSources, DistinctDrops, DistinctLocals, DistinctRoutes, DistinctLinks, MsgsOk;
    WokenTables(s, now);
    var t := Woken(s, now);
    forall i | 0 <= i < |s.cands| ensures t.cands[i] == s.cands[i] {
      if s.cands[i].Some? { assert s.cands[i] in s.cands; }
    }
    forall i | 0 <= i < |s.sources| ensures t.sources[i] == s.sources[i] {
      if s.sources[i].Some? { assert s.sources[i] in s.sources; }
    }
    forall i | 0 <= i < |s.requests| ensures t.requests[i] == s.requests[i] {
      if s.requests[i].Some? { assert s.requests[i] in s.requests; }
    }
    assert t.cands == s.cands && t.sources == s.sources && t.requests == s.requests;
  }

  lemma LaterCosts(s: State, t: State, id: u64)
    requires Later(s, t) && s.now <= t.now && Undue(s, t.now)
    ensures CostAt(t.links, id, t.now) == CostAt(s.links, id, s.now)
  {
    var i := LinkAt(s.links, id);
    if i < |s.links| { assert s.links[i] in s.links; }
  }

  lemma LaterEligible(s: State, t: State, c: Candidate)
    requires Later(s, t) && s.now <= t.now && Undue(s, t.now)
    ensures Eligible(t, c) == Eligible(s, c) && Selected(t, c) == Selected(s, c)
  {
    hide CostAt, Undue;
    LaterCosts(s, t, c.route.link);
  }

  lemma {:induction false} LaterBest(s: State, t: State, p: Prefix, i: nat)
    requires Later(s, t) && s.now <= t.now && Undue(s, t.now) && i <= |s.cands|
    ensures Best(t, s.routes, p, i) == Best(s, s.routes, p, i)
  {
    hide Undue, Eligible, Selected;
    if i > 0 {
      LaterBest(s, t, p, i - 1);
      if s.cands[i - 1].Some? { LaterEligible(s, t, s.cands[i - 1].value); }
    }
  }

  lemma LaterEntry(s: State, t: State, p: Prefix)
    requires Later(s, t) && s.now <= t.now && Undue(s, t.now) && AtRest(s)
    ensures Choice(t, p) == Choice(s, p) && Entry(t, p) == RouteFor(s.routes, p) && Remaining(t, p) == DropFor(s.drops, p)
  {
    hide Best, NeedsRefresh, Answered, LinkQuiet, PendingQuiet, StrictlySorted;
    LaterBest(s, t, p, |s.cands|);
    assert RouteFor(s.routes, p) == Entry(s, p) && DropFor(s.drops, p) == Remaining(s, p);
    var d := DropFor(s.drops, p);
    assert d.Some? ==> NotYet(t.now, s.now, d.value.expires);
  }

  // ----- Selecting again changes nothing

  lemma {:induction false} NothingLost(s: State, prior: seq<Route>, i: nat)
    requires i <= |prior| && forall k :: 0 <= k < |prior| && !prior[k].unreachable ==> RouteFor(s.routes, prior[k].prefix).Some?
    ensures SuppressLost(s, prior, i) == s
    decreases |prior| - i
  {
    hide Suppress;
    if i < |prior| { NothingLost(s, prior, i + 1); }
  }

  lemma {:induction false} NothingNoted(s: State, i: nat)
    requires i <= |s.routes| && DistinctRoutes(s.routes)
    ensures NoteChanges(s, s.routes, i) == s
    decreases |s.routes| - i
  {
    hide Trigger;
    if i < |s.routes| {
      RouteIsFor(s.routes, s.routes[i]);
      NothingNoted(s, i + 1);
    }
  }

  lemma {:induction false} NothingAnswered(s: State, i: nat)
    requires i <= |s.requests| && Unanswered(s.requests, s.routes)
    ensures SatisfyRequests(s, i) == s
    decreases |s.requests| - i
  {
    hide Advertise, Answered;
    if i < |s.requests| {
      assert s.requests[i].Some? ==> s.requests[i] in s.requests;
      NothingAnswered(s, i + 1);
    }
  }

  /** A second selection of a settled table: only capacities may differ. */
  lemma SelectAgain(s: State, t: State)
    requires Later(s, t) && s.now <= t.now && Undue(s, t.now) && AtRest(s) && Core(t) && !t.stopped && !SelectRoutes(t).stopped
    ensures SelectRoutes(t) == t.(mem := SelectRoutes(t).mem, drops := SelectRoutes(t).drops)
  {
    hide SelectRoutes, AtRest, Core, Undue, Stage1, SuppressLost, KeepDrops, NoteChanges, SatisfyRequests, Sorted, Partial, StrictlySorted;
    SelectStages(t);
    CoreShape(t);
    SelectMeetsSpec(t);
    ChosenMeetsSpec(t, t.routes, Start(t));
    forall p ensures RouteFor(SelectRoutes(t).routes, p) == RouteFor(t.routes, p) { LaterEntry(s, t, p); }
    assert StrictlySorted(t.routes) by { RestSorted(s); }
    EntriesDetermine(SelectRoutes(t).routes, t.routes);
    var t1, t2 := Stage1(t), Stage2(t);
    forall k | 0 <= k < |t.routes| && !t.routes[k].unreachable
      ensures RouteFor(t1.routes, t.routes[k].prefix).Some?
    {
      var p := t.routes[k].prefix;
      LaterEntry(s, t, p);
      RouteIsFor(t.routes, t.routes[k]);
      assert RouteFor(t1.routes, p) == Choice(t, p);
      assert Entry(t, p) == Some(t.routes[k]);
    }
    NothingLost(t1, t.routes, 0);
    PublishRoutes(t2, t.routes);
    var t3 := t2.(routes := Sorted(t2.routes));
    NothingNoted(t3, 0);
    assert Unanswered(t3.requests, t3.routes) by { RestUnanswered(s); }
    NothingAnswered(t3, 0);
  }

  lemma RestSorted(s: State)
    requires AtRest(s)
    ensures StrictlySorted(s.routes)
  {
  }

  lemma RestUnanswered(s: State)
    requires AtRest(s)
    ensures Unanswered(s.requests, s.routes)
  {
  }

  // ----- The timers find nothing to do

  lemma {:induction false} LinkTimersIdle(s: State, i: nat)
    requires i <= |s.links| && forall k :: 0 <= k < |s.links| && s.links[k].Some? ==> LinkQuiet(s.links[k].value, s.now)
    ensures LinkTimers(s, i) == s
    decreases |s.links| - i
  {
    if i < |s.links| { LinkTimersIdle(s, i + 1); }
  }

  lemma {:induction false} RequestTimersIdle(s: State, i: nat)
    requires i <= |s.requests| && forall k :: 0 <= k < |s.requests| && s.requests[k].Some? ==> PendingQuiet(s.requests[k].value, s.now)
    ensures RequestTimers(s, i) == s
    decreases |s.requests| - i
  {
    if i < |s.requests| { RequestTimersIdle(s, i + 1); }
  }

  lemma {:induction false} RefreshTimersIdle(s: State, i: nat)
    requires i <= |s.cands| && forall k :: 0 <= k < |s.cands| && s.cands[k].Some? ==> !NeedsRefresh(s.routes, s.now, s.cands[k].value)
    ensures RefreshTimers(s, i) == s
    decreases |s.cands| - i
  {
    hide NeedsRefresh;
    if i < |s.cands| { RefreshTimersIdle(s, i + 1); }
  }

  lemma RefreshNotYet(routes: seq<Route>, now: nat, t: nat, c: Candidate)
    requires now <= t && CandNotYet(t, now, c) && !NeedsRefresh(routes, now, c)
    ensures !NeedsRefresh(routes, t, c)
  {
  }

  lemma TimersIdle(s: State, t: State)
    requires AtRest(s) && Undue(s, t.now) && s.now <= t.now && !(t.pace.on && t.pace.at <= t.now)
    requires t.links == s.links && t.cands == s.cands && t.requests == s.requests && t.routes == s.routes
    ensures Timers(t) == t
  {
    hide SelectionOf, Unanswered, NeedsRefresh, CandNotYet;
    forall k | 0 <= k < |t.links| && t.links[k].Some? ensures LinkQuiet(t.links[k].value, t.now) { assert s.links[k] in s.links; }
    LinkTimersIdle(t, 0);
    forall k | 0 <= k < |t.requests| && t.requests[k].Some? ensures PendingQuiet(t.requests[k].value, t.now) { assert s.requests[k] in s.requests; }
    RequestTimersIdle(t, 0);
    forall k | 0 <= k < |t.cands| && t.cands[k].Some? ensures !NeedsRefresh(t.routes, t.now, t.cands[k].value) {
      assert s.cands[k] in s.cands;
      RefreshNotYet(s.routes, s.now, t.now, s.cands[k].value);
    }
    RefreshTimersIdle(t, 0);
  }

  lemma PaceNotYet(s: State, t: nat)
    requires AtRest(s) && Undue(s, t)
    ensures !(s.pace.on && s.pace.at <= t)
  {
  }

  /** The rest of an event after nothing happened: the same table, no output. */
  lemma IdleFinish(s: State, t: State)
    requires Later(s, t) && t.msgs == [] && t.before == s.routes && s.now <= t.now && Undue(s, t.now)
    requires AtRest(s) && Core(t) && !t.stopped && !Finish(t).0.Stopped?
    ensures Finish(t).0.Ok? && Finish(t).1.msgs == [] && Finish(t).1.routes == s.routes && Finish(t).1.ctl.ready
  {
    hide SelectRoutes, AtRest, Core, Undue, Timers, Collect;
    SelectAgain(s, t);
    PaceNotYet(s, t.now);
    TimersIdle(s, SelectRoutes(t));
  }

  /** What overtakes now does so at the next tick: the table changes. */
  lemma OvertakenMoves(s: State, now: nat, d: Candidate)
    requires Core(s) && Some(d) in s.cands && Overtakes(s, d) && s.now <= now < NextDeadline(s)
    requires Tick(s, now).0.Ok? || Tick(s, now).0.Changed?
    ensures Tick(s, now).1.routes != s.routes
  {
    hide Begin, Finish, Core, Undue, Later, NextDeadline, Eligible, SelectRoutes, Partial;
    TickBegins(s, now);
    BeginNeeds(s, now);
    DeadlineIsLowerBound(s, now);
    WokenUnchanged(s, now);
    BeginKeeps(s, now);
    WokenTables(s, now);
    var t := Woken(s, now);
    FinishRoutes(t);
    CoreShape(t);
    SelectMeetsSpec(t);
    assert t.cands == s.cands && t.routes == s.routes by { LaterTables(s, t); }
    LaterEligible(s, t, d);
    var p := d.route.prefix;
    assert !HasLocal(t.locals, p) by { EligibleIsForeign(t, d); }
    ChoiceIsWinner(t, p);
    var w :| Winner(t, t.routes, w) && w.route.prefix == p && Choice(t, p).value == Selected(t, w);
    ChoiceIsReachable(t, p);
    assert RouteFor(SelectRoutes(t).routes, p) == Entry(t, p) == Some(Selected(t, w));
  }

  lemma LaterTables(s: State, t: State)
    requires Later(s, t)
    ensures t.cands == s.cands && t.routes == s.routes
  {
  }

  /** A tick strictly before the deadline sends nothing and changes no route. */
  lemma EarlyTickIsSilent(s: State, now: nat)
    requires Core(s) && AtRest(s) && s.now <= now < NextDeadline(s)
    requires Tick(s, now).0.Ok? || Tick(s, now).0.Changed?
    ensures Tick(s, now).0.Ok? && Tick(s, now).1.msgs == [] && Tick(s, now).1.routes == s.routes && Tick(s, now).1.ctl.ready
  {
    hide Begin, Finish, AtRest, Core, Undue, Later, NextDeadline;
    TickBegins(s, now);
    BeginNeeds(s, now);
    DeadlineIsLowerBound(s, now);
    WokenUnchanged(s, now);
    BeginKeeps(s, now);
    WokenTables(s, now);
    IdleFinish(s, Woken(s, now));
  }
}
