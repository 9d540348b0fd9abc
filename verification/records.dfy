/** Feasibility records under export: advertising the selected table moves a
    record only to the distance of the selected route, never makes that route
    infeasible, and, inside a half circle of sequence numbers, never makes
    anything else feasible. */
module Records {
  import opened Types
  import opened Prefixes
  import opened Seqno
  import opened EngineState
  import opened Engine
  import opened EngineEvents
  import opened Selection
  import opened Invariant

  function DistanceOf(x: Source): (d: Distance) {
    Distance(x.seqno, x.metric)
  }

  /** The distance recorded once r has been exported over record a. */
  function Exported(a: Option<Source>, r: Route): (d: Distance) {
    if a.None? then Distance(r.seqno, r.metric) else DistanceOf(Improved(a.value, r))
  }

  /** From table f0, exporting entries of `routes` led to record f for one key. */
  ghost predicate KeyRecorded(f0: seq<Option<Source>>, f: seq<Option<Source>>, routes: seq<Route>, p: Prefix, router: u64) {
    var a, b, e := SourceFor(f0, p, router), SourceFor(f, p, router), RouteFor(routes, p);
    if b.None? then a.None?
    else
      || (a.Some? && DistanceOf(b.value) == DistanceOf(a.value))
      || (e.Some? && !e.value.unreachable && e.value.router == router && DistanceOf(b.value) == Exported(a, e.value))
  }

  ghost predicate RecordedBy(f0: seq<Option<Source>>, f: seq<Option<Source>>, routes: seq<Route>) {
    forall p, router :: KeyRecorded(f0, f, routes, p, router)
  }

  lemma SourceForSet(t: seq<Option<Source>>, k: nat, x: Source, p: Prefix, router: u64)
    requires DistinctSources(t) && k < |t|
    requires t[k].Some? ==> t[k].value.prefix == x.prefix && t[k].value.router == x.router
    requires t[k].None? ==> SourceFor(t, x.prefix, x.router).None?
    ensures SourceFor(t[k := Some(x)], p, router) == if p == x.prefix && router == x.router then Some(x) else SourceFor(t, p, router)
  {
    var u := t[k := Some(x)];
    forall j | 0 <= j < |t| && j != k && t[j].Some? ensures !(t[j].value.prefix == x.prefix && t[j].value.router == x.router) {
      assert t[j] in t;
    }
    var i, j := SourceAt(t, p, router), SourceAt(u, p, router);
    assert u[k] == Some(x);
    assert forall n :: 0 <= n < |t| && n != k ==> u[n] == t[n];
    if p == x.prefix && router == x.router {
      assert j == k;
    }
  }

  lemma SourceForPadded(t: seq<Option<Source>>, u: seq<Option<Source>>, p: Prefix, router: u64)
    requires |t| <= |u| && u[..|t|] == t && forall i :: |t| <= i < |u| ==> u[i].None?
    ensures SourceFor(u, p, router) == SourceFor(t, p, router)
  {
    assert forall i :: 0 <= i < |t| ==> u[i] == t[i];
    var i, j := SourceAt(t, p, router), SourceAt(u, p, router);
  }

  /** The record of every key after an export of r. */
  lemma RecordMeetsSpec(s: State, r: Route, p: Prefix, router: u64)
    requires DistinctSources(s.sources) && Record(s, r).0
    ensures var a := SourceFor(s.sources, p, router);
            var b := SourceFor(Record(s, r).1.sources, p, router);
            if p == r.prefix && router == r.router then
              b.Some? && DistanceOf(b.value) == Exported(a, r) && b.value.expires == s.now + s.cfg.source
            else b == a
  {
    var i := SourceAt(s.sources, r.prefix, r.router);
    if i < |s.sources| {
      SourceForSet(s.sources, i, Improved(s.sources[i].value, r).(expires := s.now + s.cfg.source), p, router);
    } else {
      var (slot, t, asks) := FreeSlot(s.cfg, s.mem.asks, s.sources, s.cfg.limits.sources);
      assert DistinctSources(t) by { assert forall i :: 0 <= i < |s.sources| ==> t[i] == s.sources[i]; }
      SourceForPadded(s.sources, t, p, router);
      SourceForPadded(s.sources, t, r.prefix, r.router);
      SourceForSet(t, slot.value, Source(r.prefix, r.router, r.seqno, r.metric, s.now + s.cfg.source), p, router);
    }
  }

  lemma RecordFails(s: State, r: Route)
    requires !Record(s, r).0
    ensures Record(s, r).1.sources == s.sources
  {
  }

  /** Exporting the same entry again changes nothing. */
  lemma ExportedTwice(a: Option<Source>, b: Source, r: Route)
    requires (a.Some? && DistanceOf(b) == DistanceOf(a.value)) || DistanceOf(b) == Exported(a, r)
    ensures Exported(Some(b), r) == Exported(a, r)
  {
  }

  lemma RecordKeepsRecorded(f0: seq<Option<Source>>, s: State, r: Route)
    requires DistinctSources(s.sources) && RecordedBy(f0, s.sources, s.routes)
    requires RouteFor(s.routes, r.prefix) == Some(r) && !r.unreachable
    ensures RecordedBy(f0, Record(s, r).1.sources, s.routes)
  {
    hide Record, Improved;
    if Record(s, r).0 {
      forall p, router
        ensures KeyRecorded(f0, Record(s, r).1.sources, s.routes, p, router)
      {
        RecordMeetsSpec(s, r, p, router);
        assert KeyRecorded(f0, s.sources, s.routes, p, router);
        var a, b := SourceFor(f0, p, router), SourceFor(s.sources, p, router);
        if p == r.prefix && router == r.router && b.Some? { ExportedTwice(a, b.value, r); }
      }
    } else {
      RecordFails(s, r);
    }
  }

  lemma AdvertiseKeepsRecorded(f0: seq<Option<Source>>, s: State, id: u64, p: Prefix, explicit: bool)
    requires DistinctSources(s.sources) && RecordedBy(f0, s.sources, s.routes)
    ensures RecordedBy(f0, Advertise(s, id, p, explicit).sources, s.routes)
  {
    hide Record, RecordedBy, Queue;
    var route := RouteFor(s.routes, p);
    if route.Some? && !route.value.unreachable { RecordKeepsRecorded(f0, s, route.value); }
  }

  lemma CoreSources(s: State)
    requires Core(s)
    ensures DistinctSources(s.sources)
  {
  }

  lemma {:induction false} DumpKeepsRecorded(f0: seq<Option<Source>>, s: State, id: u64, explicit: bool, i: nat)
    requires Core(s) && i <= |s.routes| && RecordedBy(f0, s.sources, s.routes)
    ensures RecordedBy(f0, Dump(s, id, explicit, i).sources, s.routes)
    decreases |s.routes| - i
  {
    hide Core, Advertise, RecordedBy;
    if i < |s.routes| {
      CoreEntries(s);
      CoreSources(s);
      AdvertiseKeepsRecorded(f0, s, id, s.routes[i].prefix, explicit);
      AdvertiseKeeps(s, id, s.routes[i].prefix, explicit);
      DumpKeepsRecorded(f0, Advertise(s, id, s.routes[i].prefix, explicit), id, explicit, i + 1);
    }
  }

  lemma {:induction false} SatisfyKeepsRecorded(f0: seq<Option<Source>>, s: State, i: nat)
    requires Core(s) && i <= |s.requests| && RecordedBy(f0, s.sources, s.routes)
    ensures RecordedBy(f0, SatisfyRequests(s, i).sources, s.routes)
    decreases |s.requests| - i
  {
    hide Core, Advertise, RecordedBy, Answered;
    if i < |s.requests| {
      if s.requests[i].Some? && Answered(s.routes, s.requests[i].value) {
        var q := s.requests[i].value;
        CoreEntries(s);
        CoreSources(s);
        AdvertiseKeepsRecorded(f0, s, q.from, q.prefix, true);
        AdvertiseKeeps(s, q.from, q.prefix, true);
        var t := if q.from != 0 then Advertise(s, q.from, q.prefix, true) else s;
        ForgetRequest(t, i);
        SatisfyKeepsRecorded(f0, t.(requests := t.requests[i := None]), i + 1);
      } else {
        SatisfyKeepsRecorded(f0, s, i + 1);
      }
    }
  }

  lemma {:induction false} LinkTimersKeepsRecorded(f0: seq<Option<Source>>, s: State, i: nat)
    requires Core(s) && i <= |s.links| && RecordedBy(f0, s.sources, s.routes)
    ensures RecordedBy(f0, LinkTimers(s, i).sources, s.routes)
    decreases |s.links| - i
  {
    hide Core, HelloTimer, IhuTimer, UpdateTimer, RecordedBy;
    if i < |s.links| {
      if s.links[i].None? {
        LinkTimersKeepsRecorded(f0, s, i + 1);
      } else {
        HelloTimerKeeps(s, i);
        var t := HelloTimer(s, i);
        if t.links[i].Some? { IhuTimerKeeps(t, i); }
        var u := if t.links[i].Some? then IhuTimer(t, i) else t;
        if u.links[i].Some? {
          UpdateTimerKeeps(u, i);
          UpdateTimerKeepsRecorded(f0, u, i);
        }
        var v := if u.links[i].Some? then UpdateTimer(u, i) else u;
        LinkTimersKeepsRecorded(f0, v, i + 1);
      }
    }
  }

  lemma UpdateTimerKeepsRecorded(f0: seq<Option<Source>>, s: State, i: nat)
    requires Core(s) && i < |s.links| && s.links[i].Some? && RecordedBy(f0, s.sources, s.routes)
    ensures RecordedBy(f0, UpdateTimer(s, i).sources, s.routes)
  {
    hide Core, Dump, RecordedBy;
    DumpKeepsRecorded(f0, s, s.links[i].value.config.id, false, 0);
  }

  lemma {:induction false} DumpLinksKeepsRecorded(f0: seq<Option<Source>>, s: State, i: nat)
    requires Core(s) && i <= |s.links| && RecordedBy(f0, s.sources, s.routes)
    ensures RecordedBy(f0, DumpLinks(s, i).sources, s.routes)
    decreases |s.links| - i
  {
    hide Core, Dump, RecordedBy;
    if i < |s.links| {
      if s.links[i].None? {
        DumpLinksKeepsRecorded(f0, s, i + 1);
      } else {
        var id := s.links[i].value.config.id;
        DumpKeepsRecorded(f0, s, id, false, 0);
        DumpKeeps(s, id, false, 0);
        DumpLinksKeepsRecorded(f0, Dump(s, id, false, 0), i + 1);
      }
    }
  }

  lemma TimersKeepsRecorded(f0: seq<Option<Source>>, s: State)
    requires Core(s) && RecordedBy(f0, s.sources, s.routes)
    ensures RecordedBy(f0, Timers(s).sources, s.routes)
  {
    hide Core, LinkTimers, DumpLinks, RequestTimers, RefreshTimers, RecordedBy;
    LinkTimersKeepsRecorded(f0, s, 0);
    LinkTimersKeeps(s, 0);
    DumpLinksKeepsRecorded(f0, LinkTimers(s, 0), 0);
  }

  lemma RecordedAtFirst(f: seq<Option<Source>>, routes: seq<Route>)
    ensures RecordedBy(f, f, routes)
  {
  }

  lemma PublishKeepsRecorded(s: State, prior: seq<Route>)
    requires Core(s)
    ensures RecordedBy(s.sources, Publish(s, prior).sources, Publish(s, prior).routes)
  {
    hide Core, Sorted, NoteChanges, SatisfyRequests, RecordedBy;
    var t := s.(routes := Sorted(s.routes));
    assert Core(t) by { SortedKeeps(s); }
    NoteChangesKeeps(t, prior, 0);
    RecordedAtFirst(s.sources, t.routes);
    SatisfyKeepsRecorded(s.sources, NoteChanges(t, prior, 0), 0);
  }

  lemma SortedKeeps(s: State)
    requires Core(s)
    ensures Core(s.(routes := Sorted(s.routes)))
  {
    hide Sorted, Less;
    SortedSorts(s.routes);
    SortedIsDistinct(Sorted(s.routes));
  }

  /** One selection exports only entries of the table it selected. */
  lemma SelectKeepsRecorded(s: State)
    requires Core(s) && !s.stopped && !SelectRoutes(s).stopped
    ensures RecordedBy(s.sources, SelectRoutes(s).sources, SelectRoutes(s).routes)
  {
    hide Core, SelectRoutes, Publish, Stage2, RecordedBy;
    SelectStages(s);
    StagesKeep(s);
    PublishKeepsRecorded(Stage2(s), s.routes);
  }

  lemma StagesKeep(s: State)
    requires Core(s)
    ensures Core(Stage1(s)) && Core(Stage2(s))
  {
    hide Core, Chosen, Suppressed, RoutesOk;
    ChosenKeeps(s, s.routes, Start(s));
    var (ok, b) := Chosen(s, s.routes, Start(s));
    var s1 := s.(mem := s.mem.(scratch := Reserve(s.cfg, s.mem.asks, s.mem.scratch, |s.routes|, s.cfg.limits.routes).1));
    CoreIgnoresMemory(s, s1);
    InstalledKeeps(s1, ok, b);
    assert RoutesOk(s.routes) by { CoreRoutes(s); }
    SuppressedKeeps(Stage1(s), s.routes);
  }

  // ----- What records do to feasibility

  /** Exporting a selected route never makes it infeasible: its metric exceeds
      the advertised one by a link cost of at least one. */
  lemma SelectedStaysFeasible(a: Option<Source>, seqno: u16, advertised: u16, r: Route)
    requires r.seqno == seqno && advertised < r.metric
    requires a.Some? ==> Better(Distance(seqno, advertised), DistanceOf(a.value))
    ensures Better(Distance(seqno, advertised), Exported(a, r))
  {
  }

  /** Inside a half circle a record only tightens: what is feasible after an
      export was feasible before it. */
  lemma FeasibleShrinks(base: u16, a: Source, r: Route, d: Distance)
    requires InWindow(base, a.seqno) && InWindow(base, r.seqno) && InWindow(base, d.seqno)
    requires Better(d, Exported(Some(a), r))
    ensures Better(d, DistanceOf(a))
  {
    var e := Exported(Some(a), r);
    BetterIsRank(base, d, e);
    BetterIsRank(base, d, DistanceOf(a));
    BetterIsRank(base, Distance(r.seqno, r.metric), DistanceOf(a));
  }
}
