/** After every completed event the engine is settled: its table is a fixed
    point of selection, nothing due is left undone, and no answered request is
    still pending. */
module Settled {
  import opened Types
  import opened Prefixes
  import opened Seqno
  import opened EngineState
  import opened Engine
  import opened EngineEvents
  import opened Selection
  import opened Invariant
  import opened Records

  // ----- The half-circle assumption

  /** All sequence numbers known for one source lie in the half circle at base. */
  ghost predicate WindowFor(base: u16, s: State, p: Prefix, router: u64) {
    && (forall c :: Some(c) in s.cands && c.route.prefix == p && c.route.router == router ==> InWindow(base, c.route.seqno))
    && (forall x :: Some(x) in s.sources && x.prefix == p && x.router == router ==> InWindow(base, x.seqno))
  }

  ghost predicate HalfCircle(s: State, p: Prefix, router: u64) {
    exists base :: WindowFor(base, s, p, router)
  }

  ghost predicate Windowed(s: State) {
    forall p, router :: HalfCircle(s, p, router)
  }

  // ----- Relating the state before selection to the state at rest

  ghost predicate SameCosts(a: seq<Option<Link>>, b: seq<Option<Link>>, now: nat) {
    forall id :: CostAt(a, id, now) == CostAt(b, id, now)
  }

  /** The same announcement, whether or not a refresh was asked for. */
  predicate Alike(c: Candidate, d: Candidate) {
    d == c || d == c.(refreshed := true)
  }

  ghost predicate Carried(a: seq<Option<Candidate>>, b: seq<Option<Candidate>>) {
    forall c :: Some(c) in a ==> exists d :: Some(d) in b && Alike(c, d)
  }

  ghost predicate Stemming(a: seq<Option<Candidate>>, b: seq<Option<Candidate>>) {
    forall d :: Some(d) in b ==> exists c :: Some(c) in a && Alike(c, d)
  }

  ghost predicate SameCands(a: seq<Option<Candidate>>, b: seq<Option<Candidate>>) {
    Carried(a, b) && Stemming(a, b)
  }

  lemma TwinAfter(a: seq<Option<Candidate>>, b: seq<Option<Candidate>>, c: Candidate) returns (d: Candidate)
    requires SameCands(a, b) && Some(c) in a
    ensures Some(d) in b && Alike(c, d)
  {
    hide Stemming;
    d :| Some(d) in b && Alike(c, d);
  }

  lemma TwinBefore(a: seq<Option<Candidate>>, b: seq<Option<Candidate>>, d: Candidate) returns (c: Candidate)
    requires SameCands(a, b) && Some(d) in b
    ensures Some(c) in a && Alike(c, d)
  {
    hide Carried;
    c :| Some(c) in a && Alike(c, d);
  }

  /** t is what selection in s and the timers after it leave behind. */
  ghost predicate Followed(s: State, t: State) {
    && t.cfg == s.cfg && t.now == s.now && t.seqno == s.seqno
    && SameCosts(s.links, t.links, s.now)
    && SameCands(s.cands, t.cands)
    && (forall l :: Some(l) in s.locals <==> Some(l) in t.locals)
    && RecordedBy(s.sources, t.sources, t.routes)
    && StrictlySorted(t.routes) && DistinctDrops(t.drops)
    && (forall p :: RouteFor(t.routes, p) == Entry(s, p) && DropFor(t.drops, p) == Remaining(s, p))
  }

  lemma SameLocal(s: State, t: State, p: Prefix)
    requires Followed(s, t) && DistinctLocals(s.locals) && DistinctLocals(t.locals)
    ensures HasLocal(s.locals, p) == HasLocal(t.locals, p)
    ensures HasLocal(s.locals, p) ==> Choice(s, p) == Choice(t, p)
  {
    hide RecordedBy, SameCands, SameCosts, Entry, Remaining;
    var i, j := LocalAt(s.locals, p), LocalAt(t.locals, p);
    assert i < |s.locals| ==> s.locals[i] in t.locals;
    assert j < |t.locals| ==> t.locals[j] in s.locals;
  }

  lemma SameMetric(s: State, t: State, c: Candidate, d: Candidate)
    requires Followed(s, t) && Alike(c, d)
    ensures Metric(t, d) == Metric(s, c) && Selected(t, d) == Selected(s, c)
  {
    hide RecordedBy, SameCands, CostAt, Entry, Remaining;
  }

  lemma EntryOfChoice(s: State, t: State, p: Prefix)
    requires Followed(s, t)
    ensures Choice(s, p).Some? ==> RouteFor(t.routes, p) == Choice(s, p)
  {
    hide RecordedBy, SameCands, SameCosts, Partial;
    assert RouteFor(t.routes, p) == Entry(s, p);
  }

  /** The chosen candidate is still feasible after its route was exported. */
  lemma ChosenStaysEligible(s: State, t: State, c: Candidate, d: Candidate)
    requires Followed(s, t) && Core(s) && DistinctLocals(t.locals) && Alike(c, d)
    requires Eligible(s, c) && Choice(s, c.route.prefix) == Some(Selected(s, c))
    ensures Eligible(t, d)
  {
    hide SameCands, Partial, Core, Remaining, SameCosts, Best;
    var p, router := c.route.prefix, c.route.router;
    assert DistinctLocals(s.locals) by { CoreShape(s); }
    SameLocal(s, t, p);
    SameMetric(s, t, c, d);
    EntryOfChoice(s, t, p);
    assert KeyRecorded(s.sources, t.sources, t.routes, p, router);
    SelectedStaysFeasible(SourceFor(s.sources, p, router), c.route.seqno, c.advertised, Selected(s, c));
  }

  lemma CoreShape(s: State)
    requires Core(s)
    ensures DistinctLocals(s.locals) && DistinctCands(s.cands) && DistinctRoutes(s.routes) && DistinctDrops(s.drops) && DistinctSources(s.sources)
    ensures DistinctLinks(s.links)
    ensures forall c :: Some(c) in s.cands ==> CandOk(c, s.cfg.router, s.now, s.lastLink)
  {
  }

  /** Nothing becomes eligible by exports inside a half circle. */
  lemma EligibleWasEligible(s: State, t: State, c: Candidate, d: Candidate, base: u16)
    requires Followed(s, t) && Core(s) && DistinctLocals(t.locals) && Alike(c, d) && Some(c) in s.cands
    requires WindowFor(base, s, c.route.prefix, c.route.router) && Eligible(t, d)
    ensures Eligible(s, c)
  {
    hide SameCands, Core, Remaining, SameCosts, Best, InWindow, Better, Partial;
    var p, router := c.route.prefix, c.route.router;
    CoreShape(s);
    SameLocal(s, t, p);
    SameMetric(s, t, c, d);
    assert KeyRecorded(s.sources, t.sources, t.routes, p, router);
    var a, b, e := SourceFor(s.sources, p, router), SourceFor(t.sources, p, router), RouteFor(t.routes, p);
    if a.Some? && DistanceOf(b.value) != DistanceOf(a.value) {
      EntrySource(s, t, p, router);
      FeasibleShrinks(base, a.value, e.value, Distance(c.route.seqno, c.advertised));
    }
  }

  /** A reachable entry with a foreign router-id stems from a candidate. */
  lemma EntrySource(s: State, t: State, p: Prefix, router: u64)
    requires Followed(s, t) && Core(s) && router != s.cfg.router
    requires RouteFor(t.routes, p).Some? && !RouteFor(t.routes, p).value.unreachable && RouteFor(t.routes, p).value.router == router
    ensures exists c :: Some(c) in s.cands && c.route.prefix == p && c.route.router == router && c.route.seqno == RouteFor(t.routes, p).value.seqno
  {
    hide RecordedBy, SameCands, SameCosts, Core, Remaining, Eligible, Best;
    assert RouteFor(t.routes, p) == Entry(s, p);
    if !HasLocal(s.locals, p) { ChoiceIsWinner(s, p); }
  }

  lemma NoWorseOnOwnLink(x: Route, y: Route, previous: u64)
    requires NoWorse(x, y, previous)
    ensures NoWorse(x, y, x.link)
  {
  }

  /** Candidate d would displace what the table holds for its prefix. */
  ghost predicate Overtakes(t: State, d: Candidate) {
    var e := RouteFor(t.routes, d.route.prefix);
    Eligible(t, d) && (e.None? || e.value.unreachable || !NoWorse(e.value, Selected(t, d), e.value.link))
  }

  /** No candidate does. */
  ghost predicate Undisturbed(t: State) {
    forall d :: Some(d) in t.cands ==> !Overtakes(t, d)
  }

  lemma WinnerStays(s: State, t: State, p: Prefix)
    requires Followed(s, t) && Core(s) && Undisturbed(t) && DistinctLocals(t.locals) && DistinctCands(t.cands)
    requires !HasLocal(s.locals, p) && Choice(s, p).Some?
    ensures Choice(t, p) == Choice(s, p)
  {
    hide RecordedBy, SameCosts, SameCands, Core, Eligible, Partial, Remaining, Entry, Metric;
    ChoiceIsWinner(s, p);
    var c :| Winner(s, s.routes, c) && c.route.prefix == p && Choice(s, p).value == Selected(s, c);
    var d := TwinAfter(s.cands, t.cands, c);
    ChosenStaysEligible(s, t, c, d);
    SameMetric(s, t, c, d);
    EntryOfChoice(s, t, p);
    assert forall d' :: Some(d') in t.cands ==> !Overtakes(t, d');
    assert Winner(t, t.routes, d);
    CoreShape(s);
    SameLocal(s, t, p);
    ChoiceIsWinner(t, p);
    var w :| Winner(t, t.routes, w) && w.route.prefix == p && Choice(t, p).value == Selected(t, w);
    WinnerIsUnique(t, d, w);
  }

  lemma AbsenceStays(s: State, t: State, p: Prefix)
    requires Followed(s, t) && Core(s) && Undisturbed(t) && DistinctLocals(t.locals)
    requires !HasLocal(s.locals, p) && Choice(s, p).None?
    ensures Choice(t, p).None?
  {
    hide RecordedBy, SameCosts, SameCands, Core, Eligible, Partial, Remaining, Metric;
    CoreShape(s);
    SameLocal(s, t, p);
    ChoiceIsWinner(t, p);
    assert RouteFor(t.routes, p) == Entry(s, p);
  }

  /** Within half circles nothing overtakes: exports only tighten the records. */
  lemma WindowUndisturbed(s: State, t: State)
    requires Followed(s, t) && Core(s) && Windowed(s) && DistinctLocals(t.locals)
    ensures Undisturbed(t)
  {
    hide RecordedBy, SameCosts, SameCands, Core, Eligible, Partial, Remaining, Entry, WindowFor, Metric;
    forall d | Some(d) in t.cands && Eligible(t, d) ensures !Overtakes(t, d) {
      var p := d.route.prefix;
      var c := TwinBefore(s.cands, t.cands, d);
      assert HalfCircle(s, p, c.route.router);
      var base :| WindowFor(base, s, p, c.route.router);
      EligibleWasEligible(s, t, c, d, base);
      SameMetric(s, t, c, d);
      assert !HasLocal(s.locals, p) by { EligibleIsForeign(s, c); }
      ChoiceIsWinner(s, p);
      var w :| Winner(s, s.routes, w) && w.route.prefix == p && Choice(s, p).value == Selected(s, w);
      NoWorseOnOwnLink(Selected(s, w), Selected(s, c), Previous(s.routes, p));
      EntryOfChoice(s, t, p);
      ChoiceIsReachable(s, p);
    }
  }

  lemma EligibleIsForeign(s: State, c: Candidate)
    requires Eligible(s, c)
    ensures !HasLocal(s.locals, c.route.prefix)
  {
  }

  /** The table at rest is a fixed point of selection. */
  lemma FollowedIsFixed(s: State, t: State)
    requires Followed(s, t) && Core(s) && Undisturbed(t) && DistinctLocals(t.locals) && DistinctCands(t.cands)
    ensures SelectionOf(t, t.routes, t.drops)
  {
    hide RecordedBy, SameCosts, SameCands, Core, Partial, Undisturbed;
    forall p
      ensures RouteFor(t.routes, p) == Entry(t, p) && DropFor(t.drops, p) == Remaining(t, p)
    {
      assert Choice(t, p) == Choice(s, p) by {
        if HasLocal(s.locals, p) { CoreShape(s); SameLocal(s, t, p); }
        else if Choice(s, p).Some? { WinnerStays(s, t, p); }
        else { AbsenceStays(s, t, p); }
      }
      assert RouteFor(t.routes, p) == Entry(s, p) && DropFor(t.drops, p) == Remaining(s, p);
      if Choice(s, p).Some? { ChoiceIsReachable(s, p); }
    }
  }

  // ----- Timers leave costs, announcements and routes alone

  /** Only schedule fields of a link differ. */
  predicate Rescheduled(a: Link, b: Link) {
    b == a.(nextHello := b.nextHello, nextIhu := b.nextIhu, nextUpdate := b.nextUpdate, helloSeq := b.helloSeq)
  }

  predicate AllRescheduled(a: seq<Option<Link>>, b: seq<Option<Link>>) {
    |a| == |b| && forall i :: 0 <= i < |a| ==> a[i].Some? == b[i].Some? && (a[i].Some? ==> Rescheduled(a[i].value, b[i].value))
  }

  lemma RescheduledCosts(a: seq<Option<Link>>, b: seq<Option<Link>>, now: nat)
    requires AllRescheduled(a, b)
    ensures SameCosts(a, b, now)
  {
    forall id ensures CostAt(a, id, now) == CostAt(b, id, now) {
      var i, j := LinkAt(a, id), LinkAt(b, id);
      assert i == j;
    }
  }

  lemma HelloRescheduled(s: State, i: nat)
    requires i < |s.links| && s.links[i].Some?
    ensures var r := HelloTimer(s, i).links;
            && AllRescheduled(s.links, r) && r[i].Some? && r[i].value.nextHello > s.now
            && forall k :: 0 <= k < |s.links| && k != i ==> r[k] == s.links[k]
  {
    hide Queue, Jitter;
  }

  lemma IhuRescheduled(s: State, i: nat)
    requires i < |s.links| && s.links[i].Some?
    ensures var r := IhuTimer(s, i).links;
            && AllRescheduled(s.links, r) && r[i].Some? && r[i].value.nextIhu > s.now
            && r[i].value.nextHello == s.links[i].value.nextHello
            && forall k :: 0 <= k < |s.links| && k != i ==> r[k] == s.links[k]
  {
    hide Queue, Jitter;
  }

  lemma UpdateRescheduled(s: State, i: nat)
    requires i < |s.links| && s.links[i].Some?
    ensures var r := UpdateTimer(s, i).links;
            && AllRescheduled(s.links, r) && r[i].Some? && r[i].value.nextUpdate > s.now
            && r[i].value.nextHello == s.links[i].value.nextHello && r[i].value.nextIhu == s.links[i].value.nextIhu
            && forall k :: 0 <= k < |s.links| && k != i ==> r[k] == s.links[k]
  {
    hide Dump, Jitter;
  }

  predicate LinkQuiet(l: Link, now: nat) {
    l.nextHello > now && l.nextIhu > now && l.nextUpdate > now
  }

  lemma OneLinkQuiet(s: State, i: nat)
    requires i < |s.links| && s.links[i].Some?
    ensures HelloTimer(s, i).links[i].Some? && IhuTimer(HelloTimer(s, i), i).links[i].Some?
    ensures var v := UpdateTimer(IhuTimer(HelloTimer(s, i), i), i);
            && AllRescheduled(s.links, v.links) && v.links[i].Some? && LinkQuiet(v.links[i].value, s.now) && v.now == s.now
            && forall k :: 0 <= k < |s.links| && k != i ==> v.links[k] == s.links[k]
  {
    hide HelloTimer, IhuTimer, UpdateTimer;
    HelloRescheduled(s, i);
    var t := HelloTimer(s, i);
    IhuRescheduled(t, i);
    UpdateRescheduled(IhuTimer(t, i), i);
  }

  lemma {:induction false} LinkTimersQuiet(s: State, i: nat)
    requires i <= |s.links| && forall k :: 0 <= k < i && s.links[k].Some? ==> LinkQuiet(s.links[k].value, s.now)
    ensures var r := LinkTimers(s, i);
            AllRescheduled(s.links, r.links) && forall k :: 0 <= k < |r.links| && r.links[k].Some? ==> LinkQuiet(r.links[k].value, s.now)
    decreases |s.links| - i
  {
    hide HelloTimer, IhuTimer, UpdateTimer, LinkQuiet;
    if i < |s.links| {
      if s.links[i].None? {
        LinkTimersQuiet(s, i + 1);
      } else {
        OneLinkQuiet(s, i);
        LinkTimersQuiet(UpdateTimer(IhuTimer(HelloTimer(s, i), i), i), i + 1);
      }
    }
  }

  lemma TriggeredQuiet(s: State)
    ensures TriggeredDump(s).pace.on ==> TriggeredDump(s).pace.at > s.now
  {
    hide DumpLinks;
  }

  predicate PendingQuiet(q: Pending, now: nat) {
    q.remaining > 0 ==> q.next > now
  }

  predicate Retimed(a: Option<Pending>, b: Option<Pending>) {
    a.Some? == b.Some? && (a.Some? ==> b.value == a.value.(remaining := b.value.remaining, next := b.value.next))
  }

  lemma {:induction false} RequestTimersQuiet(s: State, i: nat)
    requires i <= |s.requests| && forall k :: 0 <= k < i && s.requests[k].Some? ==> PendingQuiet(s.requests[k].value, s.now)
    ensures var r := RequestTimers(s, i);
            && (forall k :: 0 <= k < |r.requests| && r.requests[k].Some? ==> PendingQuiet(r.requests[k].value, s.now))
            && (forall k :: 0 <= k < |r.requests| ==> Retimed(s.requests[k], r.requests[k]))
    decreases |s.requests| - i
  {
    hide QueueAll;
    if i < |s.requests| {
      if s.requests[i].Some? && s.requests[i].value.remaining > 0 && s.requests[i].value.next <= s.now {
        var q := s.requests[i].value;
        var t := QueueAll(s, q.targets, Question(q));
        RequestTimersQuiet(t.(requests := t.requests[i := Some(q.(remaining := q.remaining - 1, next := s.now + 1000))]), i + 1);
      } else {
        RequestTimersQuiet(s, i + 1);
      }
    }
  }

  lemma RefreshOnce(routes: seq<Route>, now: nat, c: Candidate)
    ensures !NeedsRefresh(routes, now, c.(refreshed := true))
  {
  }

  lemma {:induction false} RefreshTimersQuiet(s: State, i: nat)
    requires i <= |s.cands| && forall k :: 0 <= k < i && s.cands[k].Some? ==> !NeedsRefresh(s.routes, s.now, s.cands[k].value)
    ensures var r := RefreshTimers(s, i);
            && (forall k :: 0 <= k < |r.cands| && r.cands[k].Some? ==> !NeedsRefresh(s.routes, s.now, r.cands[k].value))
            && (forall k :: 0 <= k < |r.cands| ==> r.cands[k].Some? == s.cands[k].Some? && (r.cands[k].Some? ==> Alike(s.cands[k].value, r.cands[k].value)))
    decreases |s.cands| - i
  {
    hide Queue, NeedsRefresh;
    if i < |s.cands| {
      if s.cands[i].Some? && NeedsRefresh(s.routes, s.now, s.cands[i].value) {
        var c := s.cands[i].value;
        var t := Queue(s, c.route.link, RouteRequest(Some(c.route.prefix)));
        var u := t.(cands := t.cands[i := Some(c.(refreshed := true))]);
        assert !NeedsRefresh(s.routes, s.now, c.(refreshed := true)) by { RefreshOnce(s.routes, s.now, c); }
        RefreshTimersQuiet(u, i + 1);
      } else {
        RefreshTimersQuiet(s, i + 1);
      }
    }
  }

  // ----- At rest

  /** No request that the table answers is left. */
  ghost predicate Unanswered(requests: seq<Option<Pending>>, routes: seq<Route>) {
    forall q :: Some(q) in requests ==> !Answered(routes, q)
  }

  lemma {:induction false} SatisfiedUnanswered(s: State, i: nat)
    requires i <= |s.requests| && forall k :: 0 <= k < i && s.requests[k].Some? ==> !Answered(s.routes, s.requests[k].value)
    ensures Unanswered(SatisfyRequests(s, i).requests, s.routes)
    decreases |s.requests| - i
  {
    hide Advertise, Answered;
    if i < |s.requests| {
      if s.requests[i].Some? && Answered(s.routes, s.requests[i].value) {
        var q := s.requests[i].value;
        var t := if q.from != 0 then Advertise(s, q.from, q.prefix, true) else s;
        SatisfiedUnanswered(t.(requests := t.requests[i := None]), i + 1);
      } else {
        SatisfiedUnanswered(s, i + 1);
      }
    }
  }

  lemma SelectUnanswered(s: State)
    requires !s.stopped && !SelectRoutes(s).stopped
    ensures Unanswered(SelectRoutes(s).requests, SelectRoutes(s).routes)
  {
    hide SelectRoutes, Stage2, NoteChanges, SatisfyRequests, Answered, Sorted;
    SelectStages(s);
    var t := Stage2(s);
    SatisfiedUnanswered(NoteChanges(t.(routes := Sorted(t.routes)), s.routes, 0), 0);
  }

  /** Nothing is due and the table is a fixed point. */
  ghost predicate AtRest(s: State) {
    Quiet(s) && SelectionOf(s, s.routes, s.drops)
  }

  lemma TimersQuiet(s: State)
    requires Unanswered(s.requests, s.routes)
    ensures var r := Timers(s);
            && (forall l :: Some(l) in r.links ==> LinkQuiet(l, s.now))
            && (r.pace.on ==> r.pace.at > s.now)
            && (forall q :: Some(q) in r.requests ==> PendingQuiet(q, s.now) && !Answered(s.routes, q))
            && (forall c :: Some(c) in r.cands ==> !NeedsRefresh(s.routes, s.now, c))
            && SameCosts(s.links, r.links, s.now) && SameCands(s.cands, r.cands)
  {
    hide LinkTimers, TriggeredDump, RequestTimers, RefreshTimers, NeedsRefresh, Answered, SameCosts, Carried, Stemming;
    var t := LinkTimers(s, 0);
    LinkTimersQuiet(s, 0);
    RescheduledCosts(s.links, t.links, s.now);
    var u := TriggeredDump(t);
    TriggeredQuiet(t);
    var v := RequestTimers(u, 0);
    RequestTimersQuiet(u, 0);
    var w := RefreshTimers(v, 0);
    RefreshTimersQuiet(v, 0);
    AlikeSlots(v.cands, w.cands);
    forall q | Some(q) in w.requests ensures PendingQuiet(q, s.now) && !Answered(s.routes, q) {
      var k :| 0 <= k < |w.requests| && w.requests[k] == Some(q);
      assert Retimed(u.requests[k], v.requests[k]);
      assert u.requests[k] in s.requests;
      SameQuestion(s.routes, u.requests[k].value, q);
    }
  }

  lemma SameQuestion(routes: seq<Route>, q: Pending, r: Pending)
    requires r == q.(remaining := r.remaining, next := r.next)
    ensures Answered(routes, q) == Answered(routes, r)
  {
  }

  lemma AlikeSlots(a: seq<Option<Candidate>>, b: seq<Option<Candidate>>)
    requires |a| == |b| && forall k :: 0 <= k < |a| ==> a[k].Some? == b[k].Some? && (a[k].Some? ==> Alike(a[k].value, b[k].value))
    ensures SameCands(a, b)
  {
    assert Carried(a, b) by {
      hide Stemming;
      forall c | Some(c) in a ensures exists d :: Some(d) in b && Alike(c, d) {
        var k :| 0 <= k < |a| && a[k] == Some(c);
        assert b[k] in b;
      }
    }
    assert Stemming(a, b) by {
      hide Carried;
      forall d | Some(d) in b ensures exists c :: Some(c) in a && Alike(c, d) {
        var k :| 0 <= k < |b| && b[k] == Some(d);
        assert a[k] in a;
      }
    }
  }

  lemma ReorderedCosts(a: seq<Option<Link>>, b: seq<Option<Link>>, now: nat)
    requires DistinctLinks(a) && DistinctLinks(b) && forall l :: Some(l) in a <==> Some(l) in b
    ensures SameCosts(a, b, now)
  {
    forall id ensures CostAt(a, id, now) == CostAt(b, id, now) {
      var i, j := LinkAt(a, id), LinkAt(b, id);
      assert i < |a| ==> a[i] in b;
      assert j < |b| ==> b[j] in a;
    }
  }

  lemma ReorderedSources(a: seq<Option<Source>>, b: seq<Option<Source>>, p: Prefix, router: u64)
    requires DistinctSources(a) && DistinctSources(b) && forall x :: Some(x) in a <==> Some(x) in b
    ensures SourceFor(a, p, router) == SourceFor(b, p, router)
  {
    var i, j := SourceAt(a, p, router), SourceAt(b, p, router);
    assert i < |a| ==> a[i] in b;
    assert j < |b| ==> b[j] in a;
  }

  lemma ReorderedRecords(f: seq<Option<Source>>, a: seq<Option<Source>>, b: seq<Option<Source>>, routes: seq<Route>)
    requires DistinctSources(a) && DistinctSources(b) && forall x :: Some(x) in a <==> Some(x) in b
    requires RecordedBy(f, a, routes)
    ensures RecordedBy(f, b, routes)
  {
    forall p, router ensures KeyRecorded(f, b, routes, p, router) {
      ReorderedSources(a, b, p, router);
      assert KeyRecorded(f, a, routes, p, router);
    }
  }

  lemma ReorderedDrops(a: seq<Option<Drop>>, b: seq<Option<Drop>>, p: Prefix)
    requires DistinctDrops(a) && DistinctDrops(b) && forall x :: Some(x) in a <==> Some(x) in b
    ensures DropFor(a, p) == DropFor(b, p)
  {
    if DropFor(a, p).Some? { DropIsFor(b, DropFor(a, p).value); }
  }

  lemma CarriedReordered(a: seq<Option<Candidate>>, b: seq<Option<Candidate>>, c: seq<Option<Candidate>>)
    requires Carried(a, b) && forall x :: Some(x) in b <==> Some(x) in c
    ensures Carried(a, c)
  {
    forall x | Some(x) in a ensures exists d :: Some(d) in c && Alike(x, d) {
      var d :| Some(d) in b && Alike(x, d);
      assert Some(d) in c;
    }
  }

  lemma StemmingReordered(a: seq<Option<Candidate>>, b: seq<Option<Candidate>>, c: seq<Option<Candidate>>)
    requires Stemming(a, b) && forall x :: Some(x) in b <==> Some(x) in c
    ensures Stemming(a, c)
  {
  }

  lemma SameCandsReordered(a: seq<Option<Candidate>>, b: seq<Option<Candidate>>, c: seq<Option<Candidate>>)
    requires SameCands(a, b) && forall x :: Some(x) in b <==> Some(x) in c
    ensures SameCands(a, c)
  {
    hide Carried, Stemming;
    CarriedReordered(a, b, c);
    StemmingReordered(a, b, c);
  }

  /** The end of an event, stage by stage. */
  lemma FinishStages(s: State)
    requires !Finish(s).0.Stopped?
    ensures !SelectRoutes(s).stopped
    ensures var r2 := Timers(SelectRoutes(s));
            var r3 := Collect(r2.(before := []));
            Finish(s).1 == r3.(ctl := Finish(s).1.ctl)
  {
    hide SelectRoutes, Timers, Collect;
  }

  lemma FinishFollowed(s: State)
    requires Core(s) && !s.stopped && !Finish(s).0.Stopped?
    ensures Followed(s, Finish(s).1) && Core(Finish(s).1)
  {
    hide Core, SelectRoutes, Timers, Collect, Finish, RecordedBy, SameCosts, SameCands, Entry, Remaining, StrictlySorted;
    FinishStages(s);
    FinishKeeps(s);
    var r1 := SelectRoutes(s);
    var r2 := Timers(r1);
    var r3 := Collect(r2.(before := []));
    SelectKeeps(s);
    TimersKeeps(r1);
    CoreIgnoresMemory(r2, r2.(before := []));
    CollectKeeps(r2.(before := []));
    CollectSameEntries(r2.(before := []));
    CoreShape(s);
    CoreShape(r2);
    CoreShape(r3);
    SelectMeetsSpec(s);
    SelectUnanswered(s);
    TimersQuiet(r1);
    SelectKeepsRecorded(s);
    TimersKeepsRecorded(s.sources, r1);
    ReorderedRecords(s.sources, r2.sources, r3.sources, r3.routes);
    ReorderedCosts(r2.links, r3.links, s.now);
    CostsCompose(s.links, r2.links, r3.links, s.now);
    SameCandsReordered(s.cands, r2.cands, r3.cands);
    forall p ensures RouteFor(r3.routes, p) == Entry(s, p) && DropFor(r3.drops, p) == Remaining(s, p) {
      ReorderedDrops(r2.drops, r3.drops, p);
    }
  }

  lemma CostsCompose(a: seq<Option<Link>>, b: seq<Option<Link>>, c: seq<Option<Link>>, now: nat)
    requires SameCosts(a, b, now) && SameCosts(b, c, now)
    ensures SameCosts(a, c, now)
  {
  }

  /** A completed event leaves the engine at rest unless its own exports let
      another candidate overtake. */
  lemma FinishAtRest(s: State)
    requires Core(s) && !s.stopped && !Finish(s).0.Stopped? && Undisturbed(Finish(s).1)
    ensures AtRest(Finish(s).1)
  {
    hide Core, SelectRoutes, Timers, Collect, Finish, Followed, Undisturbed, SelectionOf, NeedsRefresh, Answered, SameCands, SameCosts, LinkQuiet, PendingQuiet;
    FinishFollowed(s);
    CoreShape(Finish(s).1);
    FollowedIsFixed(s, Finish(s).1);
    FinishQuiet(s);
  }

  /** Nothing that is due is left undone. */
  ghost predicate Quiet(s: State) {
    && (forall l :: Some(l) in s.links ==> LinkQuiet(l, s.now))
    && (s.pace.on ==> s.pace.at > s.now)
    && (forall q :: Some(q) in s.requests ==> PendingQuiet(q, s.now))
    && (forall c :: Some(c) in s.cands ==> !NeedsRefresh(s.routes, s.now, c))
    && Unanswered(s.requests, s.routes)
  }

  lemma FinishQuiet(s: State)
    requires Core(s) && !s.stopped && !Finish(s).0.Stopped?
    ensures Quiet(Finish(s).1)
  {
    hide Core, SelectRoutes, Timers, Collect, Finish, SelectionOf, NeedsRefresh, Answered, SameCands, SameCosts, LinkQuiet, PendingQuiet;
    FinishStages(s);
    SelectUnanswered(s);
    var r1 := SelectRoutes(s);
    TimersQuiet(r1);
    CollectSameEntries(Timers(r1).(before := []));
  }

  lemma FinishUndisturbed(s: State)
    requires Core(s) && !s.stopped && Windowed(s) && !Finish(s).0.Stopped?
    ensures Undisturbed(Finish(s).1)
  {
    hide Core, Finish, Followed, Undisturbed, Windowed;
    FinishFollowed(s);
    CoreShape(Finish(s).1);
    WindowUndisturbed(s, Finish(s).1);
  }
}
