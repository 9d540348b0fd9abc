/** The ceilings never stop the engine: the prefixes that claim a place in the
    route table stay within its bound, so every append and every suppression
    record finds room unless the allocator refuses. */
module Limits {
  import opened Types
  import opened Prefixes
  import opened EngineState
  import opened Engine
  import opened EngineEvents
  import opened Selection
  import opened Invariant

  /** Some request for memory between two points was turned down. */
  ghost predicate Refusal(cfg: Config, from: nat, to: nat) {
    exists k :: from <= k < to && !cfg.grant(k)
  }

  function RoutePrefixes(routes: seq<Route>): (r: set<Prefix>)
    ensures forall x :: x in routes ==> x.prefix in r
    ensures forall p :: p in r ==> exists x :: x in routes && x.prefix == p
  {
    set i | 0 <= i < |routes| :: routes[i].prefix
  }

  /** Prefixes that hold or may need a place in the route table. */
  function Claimed(s: State): (r: set<Prefix>) {
    Admitted(s) + RoutePrefixes(s.routes)
  }

  ghost predicate Bounded(s: State) {
    |Claimed(s)| <= s.cfg.limits.routes
  }

  /** Every route rests on a candidate, a local prefix or a suppression record. */
  ghost predicate Backed(s: State) {
    RoutePrefixes(s.routes) <= Admitted(s)
  }

  // ----- Pigeonholes

  lemma SubsetSize<T>(a: set<T>, b: set<T>)
    requires a <= b
    ensures |a| <= |b|
  {
    assert b == a + (b - a);
  }

  lemma {:induction false} RoutesFit(t: seq<Route>, a: set<Prefix>)
    requires DistinctRoutes(t) && forall r :: r in t ==> r.prefix in a
    ensures |t| <= |a|
  {
    if t != [] {
      var m := |t| - 1;
      forall r | r in t[..m] ensures r.prefix in a - {t[m].prefix} { }
      RoutesFit(t[..m], a - {t[m].prefix});
    }
  }

  lemma {:induction false} DropsFit(t: seq<Option<Drop>>, a: set<Prefix>)
    requires DistinctDrops(t) && forall i :: 0 <= i < |t| ==> t[i].Some? && t[i].value.prefix in a
    ensures |t| <= |a|
  {
    if t != [] {
      var m := |t| - 1;
      DropsFit(t[..m], a - {t[m].value.prefix});
    }
  }

  ghost predicate InSet(t: seq<Route>, a: set<Prefix>) {
    forall r :: r in t ==> r.prefix in a
  }

  /** A prefix of the set that is not in the table yet always fits. */
  lemma AddFits(cfg: Config, b: Build, r: Route, a: set<Prefix>)
    requires DistinctRoutes(b.routes) && InSet(b.routes, a) && r.prefix in a && |a| <= cfg.limits.routes
    requires RouteFor(b.routes, r.prefix).None?
    ensures var (ok, b') := AddRoute(cfg, b, r);
            InSet(b'.routes, a) && (!ok ==> Refusal(cfg, b.asks, b'.asks))
  {
    RoutesFit(b.routes, a - {r.prefix});
  }

  // ----- Selection

  lemma {:induction false} PickLocalsFits(s: State, b: Build, i: nat, a: set<Prefix>)
    requires Core(s) && i <= |s.locals| && LocalsTabled(s, i, b.routes) && InSet(b.routes, a)
    requires LocalPrefixes(s.locals) <= a && |a| <= s.cfg.limits.routes
    ensures var (ok, b') := PickLocals(s, b, i); InSet(b'.routes, a) && (!ok ==> Refusal(s.cfg, b.asks, b'.asks))
    decreases |s.locals| - i
  {
    hide Core, AddRoute;
    assert LocalsOk(s.locals) by { CoreLocals(s); }
    if i < |s.locals| {
      if s.locals[i].None? {
        SkipOneLocal(s, i, b.routes);
        PickLocalsFits(s, b, i + 1, a);
      } else {
        assert s.locals[i] in s.locals;
        var r := LocalRoute(s, s.locals[i].value);
        PickOneLocal(s, i, b.routes);
        assert RouteFor(b.routes, r.prefix) == LocalAmong(s, i, r.prefix);
        AddFits(s.cfg, b, r, a);
        var (ok, b') := AddRoute(s.cfg, b, r);
        if ok { PickLocalsFits(s, b', i + 1, a); }
      }
    }
  }

  lemma CoreLocals(s: State)
    requires Core(s)
    ensures LocalsOk(s.locals)
  {
  }

  lemma {:induction false} PickCandsFits(s: State, prior: seq<Route>, b: Build, i: nat, a: set<Prefix>)
    requires i <= |s.cands| && DistinctRoutes(b.routes) && InSet(b.routes, a)
    requires CandPrefixes(s.cands) <= a && |a| <= s.cfg.limits.routes
    ensures var (ok, b') := PickCands(s, prior, b, i); InSet(b'.routes, a) && (!ok ==> Refusal(s.cfg, b.asks, b'.asks))
    decreases |s.cands| - i
  {
    hide AddRoute, Eligible, Preferred, Selected;
    if i < |s.cands| {
      if s.cands[i].None? || !Eligible(s, s.cands[i].value) {
        PickCandsFits(s, prior, b, i + 1, a);
      } else {
        assert s.cands[i] in s.cands;
        var x := Selected(s, s.cands[i].value);
        SelectedPrefix(s, s.cands[i].value);
        var k := RouteAt(b.routes, x.prefix);
        if k == |b.routes| {
          AddFits(s.cfg, b, x, a);
          RouteForAppend(b.routes, x, x.prefix);
          var (ok, b') := AddRoute(s.cfg, b, x);
          if ok { PickCandsFits(s, prior, b', i + 1, a); }
        } else if Preferred(x, b.routes[k], Previous(prior, x.prefix)) {
          RouteForReplace(b.routes, k, x, x.prefix);
          PickCandsFits(s, prior, b.(routes := b.routes[k := x]), i + 1, a);
        } else {
          PickCandsFits(s, prior, b, i + 1, a);
        }
      }
    }
  }

  lemma SelectedPrefix(s: State, c: Candidate)
    ensures Selected(s, c).prefix == c.route.prefix
  {
  }

  lemma ChosenFits(s: State, prior: seq<Route>, b: Build, a: set<Prefix>)
    requires Core(s) && b.routes == [] && CandPrefixes(s.cands) + LocalPrefixes(s.locals) <= a && |a| <= s.cfg.limits.routes
    ensures var (ok, b') := Chosen(s, prior, b); InSet(b'.routes, a) && (!ok ==> Refusal(s.cfg, b.asks, b'.asks))
  {
    PickLocalsFits(s, b, 0, a);
    PickLocalsMeetsSpec(s, b, 0);
    var (ok, b') := PickLocals(s, b, 0);
    if ok { PickCandsFits(s, prior, b', 0, a); }
  }

  lemma DropFits(s: State, p: Prefix, a: set<Prefix>)
    requires DistinctDrops(s.drops) && DropPrefixes(s.drops) <= a && p in a && |a| <= s.cfg.limits.routes
    ensures var r := DropRoute(s, p);
            DropPrefixes(r.drops) <= a && (r.stopped && !s.stopped ==> Refusal(s.cfg, s.mem.asks, r.mem.asks))
  {
    var d := Drop(p, s.now + Hold(s.cfg.update));
    var i := DropAt(s.drops, p);
    if i < |s.drops| {
      SetMembers(s.drops, i, Some(d));
    } else {
      var (slot, t, asks) := FreeSlot(s.cfg, s.mem.asks, s.drops, s.cfg.limits.routes);
      if slot.Some? {
        SetMembers(t, slot.value, Some(d));
      } else if forall i :: 0 <= i < |s.drops| ==> s.drops[i].Some? {
        forall i | 0 <= i < |s.drops| ensures s.drops[i].value.prefix in a - {p} { assert s.drops[i] in s.drops; }
        DropsFit(s.drops, a - {p});
      }
    }
  }

  lemma SuppressFits(s: State, o: Route, a: set<Prefix>)
    requires Core(s) && DropPrefixes(s.drops) <= a && o.prefix in a && |a| <= s.cfg.limits.routes
    ensures var r := Suppress(s, o);
            DropPrefixes(r.drops) <= a && (r.stopped && !s.stopped ==> Refusal(s.cfg, s.mem.asks, r.mem.asks))
  {
    hide Core, DropRoute, Seek, Trigger;
    assert DistinctDrops(s.drops) by { CoreDrops(s); }
    DropFits(s, o.prefix, a);
  }

  lemma {:induction false} SuppressLostFits(s: State, prior: seq<Route>, i: nat, a: set<Prefix>)
    requires Core(s) && RoutesOk(prior) && i <= |prior|
    requires DropPrefixes(s.drops) <= a && RoutePrefixes(prior) <= a && |a| <= s.cfg.limits.routes
    ensures var r := SuppressLost(s, prior, i);
            DropPrefixes(r.drops) <= a && (r.stopped && !s.stopped ==> Refusal(s.cfg, s.mem.asks, r.mem.asks))
    decreases |prior| - i
  {
    hide Core, Suppress, RouteOk;
    if i < |prior| {
      assert prior[i] in prior;
      if !prior[i].unreachable && RouteFor(s.routes, prior[i].prefix).None? {
        SuppressFits(s, prior[i], a);
        SuppressKeeps(s, prior[i]);
        SuppressLostFits(Suppress(s, prior[i]), prior, i + 1, a);
      } else {
        SuppressLostFits(s, prior, i + 1, a);
      }
    }
  }

  lemma CoreDrops(s: State)
    requires Core(s)
    ensures DropsOk(s.drops, s.now)
  {
  }

  lemma {:induction false} KeepDropsFits(s: State, b: Build, drops: seq<Option<Drop>>, i: nat, a: set<Prefix>)
    requires DistinctRoutes(b.routes) && InSet(b.routes, a) && i <= |drops| && DropPrefixes(drops) <= a && |a| <= s.cfg.limits.routes
    ensures var (ok, b', kept) := KeepDrops(s, b, drops, i);
            InSet(b'.routes, a) && DropPrefixes(kept) <= a && (!ok ==> Refusal(s.cfg, b.asks, b'.asks))
    decreases |drops| - i
  {
    hide AddRoute;
    if i < |drops| {
      if drops[i].None? {
        KeepDropsFits(s, b, drops, i + 1, a);
      } else if RouteFor(b.routes, drops[i].value.prefix).Some? || drops[i].value.expires <= s.now {
        SetMembers(drops, i, None);
        KeepDropsFits(s, b, drops[i := None], i + 1, a);
      } else {
        assert drops[i] in drops;
        var r := UnreachableRoute(drops[i].value.prefix);
        AddFits(s.cfg, b, r, a);
        RouteForAppend(b.routes, r, r.prefix);
        var (ok, b') := AddRoute(s.cfg, b, r);
        if ok { KeepDropsFits(s, b', drops, i + 1, a); }
      }
    }
  }

  lemma SuppressedFits(s: State, prior: seq<Route>, a: set<Prefix>)
    requires Core(s) && RoutesOk(prior) && InSet(s.routes, a)
    requires DropPrefixes(s.drops) <= a && RoutePrefixes(prior) <= a && |a| <= s.cfg.limits.routes
    ensures var (ok, r) := Suppressed(s, prior);
            && InSet(r.routes, a) && DropPrefixes(r.drops) <= a
            && ((!ok || r.stopped) && !s.stopped ==> Refusal(s.cfg, s.mem.asks, r.mem.asks))
  {
    hide Core, SuppressLost, KeepDrops;
    SuppressLostFits(s, prior, 0, a);
    var t := SuppressLost(s, prior, 0);
    assert DistinctRoutes(t.routes) by { CoreRoutes(s); }
    KeepDropsFits(t, Build(t.routes, t.mem.routes, t.mem.asks), t.drops, 0, a);
  }

  lemma SortedInSet(t: seq<Route>, a: set<Prefix>)
    requires DistinctRoutes(t) && InSet(t, a)
    ensures InSet(Sorted(t), a)
  {
    SortedSorts(t);
  }

  /** Selection claims no new prefix and stops only when memory is refused. */
  lemma SelectFits(s: State)
    requires Core(s) && Bounded(s) && !s.stopped
    ensures var r := SelectRoutes(s);
            && (r.stopped ==> Refusal(s.cfg, s.mem.asks, r.mem.asks))
            && (!r.stopped ==> InSet(r.routes, Claimed(s)) && DropPrefixes(r.drops) <= Claimed(s))
  {
    hide Core, Chosen, Suppressed, Publish, InSet;
    var a := Claimed(s);
    assert RoutesOk(s.routes) by { CoreRoutes(s); }
    RoutesBounded(s);
    var (ok, cap, asks) := Reserve(s.cfg, s.mem.asks, s.mem.scratch, |s.routes|, s.cfg.limits.routes);
    ChosenFits(s, s.routes, Build([], s.mem.routes, asks), a);
    ChosenKeeps(s, s.routes, Build([], s.mem.routes, asks));
    var (ok1, b) := Chosen(s, s.routes, Build([], s.mem.routes, asks));
    var s1 := s.(mem := s.mem.(scratch := cap));
    CoreIgnoresMemory(s, s1);
    InstalledKeeps(s1, ok1, b);
    var t1 := Installed(s1, ok1, b);
    SuppressedFits(t1, s.routes, a);
    SuppressedKeeps(t1, s.routes);
    var (ok2, t2) := Suppressed(t1, s.routes);
    assert DistinctRoutes(t2.routes) by { CoreRoutes(t2); }
    SortedInSet(t2.routes, a);
    PublishRoutes(t2, s.routes);
  }

  lemma RoutesBounded(s: State)
    requires RoutesOk(s.routes) && Bounded(s)
    ensures |s.routes| <= s.cfg.limits.routes
  {
    RoutesFit(s.routes, Claimed(s));
  }
}
