/** Route selection equals its specification: the loops, appends and in-place
    replacements of select_routes compute, for every prefix, the entry defined
    here by minimality, whatever order the tables are in. */
module Selection {
  import opened Types
  import opened Prefixes
  import opened EngineState
  import opened Engine

  // ----- Tables as maps

  predicate DistinctRoutes(t: seq<Route>) {
    forall i, j :: 0 <= i < j < |t| ==> t[i].prefix != t[j].prefix
  }

  predicate StrictlySorted(t: seq<Route>) {
    forall i, j :: 0 <= i < j < |t| ==> Less(t[i].prefix, t[j].prefix)
  }

  predicate DistinctDrops(t: seq<Option<Drop>>) {
    forall i, j :: 0 <= i < j < |t| && t[i].Some? && t[j].Some? ==> t[i].value.prefix != t[j].value.prefix
  }

  predicate DistinctLocals(t: seq<Option<Local>>) {
    forall i, j :: 0 <= i < j < |t| && t[i].Some? && t[j].Some? ==> t[i].value.prefix != t[j].value.prefix
  }

  predicate DistinctCands(t: seq<Option<Candidate>>) {
    forall i, j :: 0 <= i < j < |t| && t[i].Some? && t[j].Some? ==>
      !(t[i].value.route.prefix == t[j].value.route.prefix && t[i].value.route.link == t[j].value.route.link)
  }

  function DropFor(drops: seq<Option<Drop>>, p: Prefix): (r: Option<Drop>)
    ensures r.Some? ==> r in drops && r.value.prefix == p
    ensures r.None? ==> forall d :: Some(d) in drops ==> d.prefix != p
  {
    var i := DropAt(drops, p);
    if i < |drops| then drops[i] else None
  }

  lemma RouteIsFor(t: seq<Route>, r: Route)
    requires DistinctRoutes(t) && r in t
    ensures RouteFor(t, r.prefix) == Some(r)
  {
  }

  lemma DropIsFor(t: seq<Option<Drop>>, d: Drop)
    requires DistinctDrops(t) && Some(d) in t
    ensures DropFor(t, d.prefix) == Some(d)
  {
  }

  lemma RouteForAppend(t: seq<Route>, r: Route, p: Prefix)
    requires RouteFor(t, r.prefix).None?
    ensures RouteFor(t + [r], p) == if p == r.prefix then Some(r) else RouteFor(t, p)
    ensures DistinctRoutes(t) ==> DistinctRoutes(t + [r])
  {
    var u := t + [r];
    assert forall x :: x in u <==> x in t || x == r;
    assert forall k :: 0 <= k < |t| ==> u[k] == t[k];
    var i, j := RouteAt(t, p), RouteAt(u, p);
  }

  lemma RouteForReplace(t: seq<Route>, k: nat, r: Route, p: Prefix)
    requires DistinctRoutes(t) && k < |t| && t[k].prefix == r.prefix
    ensures DistinctRoutes(t[k := r])
    ensures RouteFor(t[k := r], p) == if p == r.prefix then Some(r) else RouteFor(t, p)
  {
    var u := t[k := r];
    assert u[k] in u;
    RouteIsFor(u, u[k]);
    if p != r.prefix {
      var i, j := RouteAt(t, p), RouteAt(u, p);
      if i < |t| { assert u[i] == t[i]; }
      if j < |u| { assert t[j] == u[j]; }
    }
  }

  // ----- The declarative choice

  /** Lexicographic preference: metric, then staying on the previous link, then
      the lower link identifier. */
  predicate NoWorse(x: Route, y: Route, previous: u64) {
    || x.metric < y.metric
    || (x.metric == y.metric
        && (if (x.link == previous) != (y.link == previous) then x.link == previous else x.link <= y.link))
  }

  /** c is usable and no usable candidate for its prefix is preferable. */
  ghost predicate Winner(s: State, prior: seq<Route>, c: Candidate) {
    && Some(c) in s.cands
    && Eligible(s, c)
    && forall d :: Some(d) in s.cands && d.route.prefix == c.route.prefix && Eligible(s, d)
         ==> NoWorse(Selected(s, c), Selected(s, d), Previous(prior, c.route.prefix))
  }

  /** The best of the first i candidate slots for prefix p. */
  function Best(s: State, prior: seq<Route>, p: Prefix, i: nat): (r: Option<Route>)
    requires i <= |s.cands|
    ensures r.Some? ==> r.value.prefix == p
  {
    if i == 0 then None
    else
      var b := Best(s, prior, p, i - 1);
      var c := s.cands[i - 1];
      if c.None? || c.value.route.prefix != p || !Eligible(s, c.value) then b
      else if b.None? || Preferred(Selected(s, c.value), b.value, Previous(prior, p)) then Some(Selected(s, c.value))
      else b
  }

  lemma PreferenceIsTotal(x: Route, y: Route, z: Route, previous: u64)
    ensures Preferred(x, y, previous) ==> NoWorse(x, y, previous)
    ensures !Preferred(x, y, previous) ==> NoWorse(y, x, previous)
    ensures NoWorse(x, y, previous) && NoWorse(y, z, previous) ==> NoWorse(x, z, previous)
    ensures NoWorse(x, y, previous) && NoWorse(y, x, previous) ==> x.link == y.link
  {
  }

  lemma {:induction false} BestIsEligible(s: State, prior: seq<Route>, p: Prefix, i: nat)
    requires i <= |s.cands| && Best(s, prior, p, i).Some?
    ensures exists c :: Some(c) in s.cands && c.route.prefix == p && Eligible(s, c) && Best(s, prior, p, i).value == Selected(s, c)
  {
    var c := s.cands[i - 1];
    if c.Some? && Best(s, prior, p, i) == Some(Selected(s, c.value)) && c.value.route.prefix == p && Eligible(s, c.value) {
      assert c in s.cands;
    } else {
      BestIsEligible(s, prior, p, i - 1);
    }
  }

  /** Scanning finds a minimum of the preference among the slots seen. */
  lemma {:induction false} BestIsMinimal(s: State, prior: seq<Route>, p: Prefix, i: nat, k: nat)
    requires k < i <= |s.cands| && s.cands[k].Some? && s.cands[k].value.route.prefix == p && Eligible(s, s.cands[k].value)
    ensures Best(s, prior, p, i).Some?
    ensures NoWorse(Best(s, prior, p, i).value, Selected(s, s.cands[k].value), Previous(prior, p))
  {
    if k < i - 1 {
      BestIsMinimal(s, prior, p, i - 1, k);
      var b, c := Best(s, prior, p, i - 1).value, s.cands[i - 1];
      if c.Some? { PreferenceIsTotal(Selected(s, c.value), b, Selected(s, s.cands[k].value), Previous(prior, p)); }
    } else {
      var b, x := Best(s, prior, p, k), Selected(s, s.cands[k].value);
      PreferenceIsTotal(x, x, x, Previous(prior, p));
      if b.Some? { PreferenceIsTotal(x, b.value, x, Previous(prior, p)); }
    }
  }

  // ----- The choosing loops

  function LocalAmong(s: State, i: nat, p: Prefix): (r: Option<Route>)
    requires i <= |s.locals|
    ensures r.Some? ==> r.value.prefix == p
  {
    var l := LocalAt(s.locals, p);
    if l < i then Some(LocalRoute(s, s.locals[l].value)) else None
  }

  ghost predicate LocalsTabled(s: State, i: nat, t: seq<Route>)
    requires i <= |s.locals|
  {
    DistinctRoutes(t) && forall p :: RouteFor(t, p) == LocalAmong(s, i, p)
  }

  lemma PickOneLocal(s: State, i: nat, t: seq<Route>)
    requires i < |s.locals| && s.locals[i].Some? && DistinctLocals(s.locals) && LocalsTabled(s, i, t)
    ensures LocalsTabled(s, i + 1, t + [LocalRoute(s, s.locals[i].value)])
  {
    var r := LocalRoute(s, s.locals[i].value);
    assert LocalAt(s.locals, r.prefix) == i;
    assert RouteFor(t, r.prefix) == LocalAmong(s, i, r.prefix);
    RouteForAppend(t, r, r.prefix);
    forall p
      ensures RouteFor(t + [r], p) == LocalAmong(s, i + 1, p)
    {
      RouteForAppend(t, r, p);
      assert RouteFor(t, p) == LocalAmong(s, i, p);
    }
  }

  lemma SkipOneLocal(s: State, i: nat, t: seq<Route>)
    requires i < |s.locals| && s.locals[i].None? && LocalsTabled(s, i, t)
    ensures LocalsTabled(s, i + 1, t)
  {
    forall p ensures RouteFor(t, p) == LocalAmong(s, i + 1, p) { assert RouteFor(t, p) == LocalAmong(s, i, p); }
  }

  lemma {:induction false} PickLocalsMeetsSpec(s: State, b: Build, i: nat)
    requires i <= |s.locals| && DistinctLocals(s.locals) && LocalsTabled(s, i, b.routes)
    ensures PickLocals(s, b, i).0 ==> LocalsTabled(s, |s.locals|, PickLocals(s, b, i).1.routes)
    decreases |s.locals| - i
  {
    if i < |s.locals| {
      if s.locals[i].None? {
        SkipOneLocal(s, i, b.routes);
        PickLocalsMeetsSpec(s, b, i + 1);
      } else {
        PickOneLocal(s, i, b.routes);
        var (ok, b') := AddRoute(s.cfg, b, LocalRoute(s, s.locals[i].value));
        if ok { PickLocalsMeetsSpec(s, b', i + 1); }
      }
    }
  }

  /** The entry for p once i candidate slots have been looked at: the local
      prefix if there is one, otherwise the best candidate so far. */
  function Partial(s: State, prior: seq<Route>, i: nat, p: Prefix): (r: Option<Route>)
    requires i <= |s.cands|
    ensures r.Some? ==> r.value.prefix == p
  {
    var l := LocalAt(s.locals, p);
    if l < |s.locals| then Some(LocalRoute(s, s.locals[l].value)) else Best(s, prior, p, i)
  }

  ghost predicate Tabled(s: State, prior: seq<Route>, i: nat, t: seq<Route>)
    requires i <= |s.cands|
  {
    DistinctRoutes(t) && forall p :: RouteFor(t, p) == Partial(s, prior, i, p)
  }

  /** What one usable candidate does to the table: append, replace or keep. */
  function Placed(t: seq<Route>, x: Route, previous: u64): (u: seq<Route>) {
    var k := RouteAt(t, x.prefix);
    if k == |t| then t + [x] else if Preferred(x, t[k], previous) then t[k := x] else t
  }

  lemma PlacedFor(t: seq<Route>, x: Route, previous: u64, p: Prefix)
    requires DistinctRoutes(t)
    ensures DistinctRoutes(Placed(t, x, previous))
    ensures RouteFor(Placed(t, x, previous), p)
         == if p == x.prefix && (RouteFor(t, p).None? || Preferred(x, RouteFor(t, p).value, previous)) then Some(x) else RouteFor(t, p)
  {
    var k := RouteAt(t, x.prefix);
    if k == |t| { RouteForAppend(t, x, p); } else { RouteForReplace(t, k, x, p); }
  }

  lemma PickOne(s: State, prior: seq<Route>, i: nat, t: seq<Route>)
    requires i < |s.cands| && s.cands[i].Some? && Eligible(s, s.cands[i].value) && Tabled(s, prior, i, t)
    ensures var x := Selected(s, s.cands[i].value); Tabled(s, prior, i + 1, Placed(t, x, Previous(prior, x.prefix)))
  {
    var x := Selected(s, s.cands[i].value);
    forall p
      ensures DistinctRoutes(Placed(t, x, Previous(prior, x.prefix)))
      ensures RouteFor(Placed(t, x, Previous(prior, x.prefix)), p) == Partial(s, prior, i + 1, p)
    {
      PlacedFor(t, x, Previous(prior, x.prefix), p);
      assert RouteFor(t, p) == Partial(s, prior, i, p);
    }
  }

  lemma SkipOne(s: State, prior: seq<Route>, i: nat, t: seq<Route>)
    requires i < |s.cands| && (s.cands[i].None? || !Eligible(s, s.cands[i].value)) && Tabled(s, prior, i, t)
    ensures Tabled(s, prior, i + 1, t)
  {
    forall p
      ensures RouteFor(t, p) == Partial(s, prior, i + 1, p)
    {
      assert RouteFor(t, p) == Partial(s, prior, i, p);
    }
  }

  lemma {:induction false} PickCandsMeetsSpec(s: State, b: Build, prior: seq<Route>, i: nat)
    requires i <= |s.cands| && Tabled(s, prior, i, b.routes)
    ensures PickCands(s, prior, b, i).0 ==> Tabled(s, prior, |s.cands|, PickCands(s, prior, b, i).1.routes)
    decreases |s.cands| - i
  {
    if i < |s.cands| {
      if s.cands[i].None? || !Eligible(s, s.cands[i].value) {
        SkipOne(s, prior, i, b.routes);
        PickCandsMeetsSpec(s, b, prior, i + 1);
      } else {
        PickOne(s, prior, i, b.routes);
        var x := Selected(s, s.cands[i].value);
        var k := RouteAt(b.routes, x.prefix);
        if k == |b.routes| {
          var (ok, b') := AddRoute(s.cfg, b, x);
          if ok { PickCandsMeetsSpec(s, b', prior, i + 1); }
        } else {
          PickCandsMeetsSpec(s, b.(routes := Placed(b.routes, x, Previous(prior, x.prefix))), prior, i + 1);
        }
      }
    }
  }

  /** The local and candidate loops together compute the choice for every prefix. */
  lemma ChosenMeetsSpec(s: State, prior: seq<Route>, b: Build)
    requires DistinctLocals(s.locals) && b.routes == []
    ensures Chosen(s, prior, b).0 ==> Tabled(s, prior, |s.cands|, Chosen(s, prior, b).1.routes)
  {
    PickLocalsMeetsSpec(s, b, 0);
    var (ok, b') := PickLocals(s, b, 0);
    if ok {
      forall p
        ensures RouteFor(b'.routes, p) == Partial(s, prior, 0, p)
      {
        assert RouteFor(b'.routes, p) == LocalAmong(s, |s.locals|, p);
      }
      PickCandsMeetsSpec(s, b', prior, 0);
    }
  }

  // ----- Suppression

  lemma DropForSet(t: seq<Option<Drop>>, k: nat, d: Drop, p: Prefix)
    requires DistinctDrops(t) && k < |t|
    requires t[k].Some? ==> t[k].value.prefix == d.prefix
    requires t[k].None? ==> DropFor(t, d.prefix).None?
    ensures DistinctDrops(t[k := Some(d)])
    ensures DropFor(t[k := Some(d)], p) == if p == d.prefix then Some(d) else DropFor(t, p)
  {
    var u := t[k := Some(d)];
    forall j | 0 <= j < |t| && j != k && t[j].Some? ensures t[j].value.prefix != d.prefix {
      assert t[j] in t;
    }
    assert u[k] in u;
    DropIsFor(u, d);
    if p != d.prefix {
      var i, j := DropAt(t, p), DropAt(u, p);
      if i < |t| { assert u[i] == t[i]; }
      if j < |u| { assert t[j] == u[j]; }
    }
  }

  lemma DropForPadded(t: seq<Option<Drop>>, u: seq<Option<Drop>>, p: Prefix)
    requires |t| <= |u| && u[..|t|] == t && forall i :: |t| <= i < |u| ==> u[i].None?
    ensures DistinctDrops(t) ==> DistinctDrops(u)
    ensures DropFor(u, p) == DropFor(t, p)
  {
    assert forall i :: 0 <= i < |t| ==> u[i] == t[i];
    var i, j := DropAt(t, p), DropAt(u, p);
  }

  lemma DropRouteMeetsSpec(s: State, p: Prefix, q: Prefix)
    requires DistinctDrops(s.drops) && !DropRoute(s, p).stopped
    ensures DistinctDrops(DropRoute(s, p).drops)
    ensures DropFor(DropRoute(s, p).drops, q)
         == if q == p then Some(Drop(p, s.now + Hold(s.cfg.update))) else DropFor(s.drops, q)
  {
    var d := Drop(p, s.now + Hold(s.cfg.update));
    var i := DropAt(s.drops, p);
    if i < |s.drops| {
      DropForSet(s.drops, i, d, q);
    } else {
      var (slot, t, asks) := FreeSlot(s.cfg, s.mem.asks, s.drops, s.cfg.limits.routes);
      DropForPadded(s.drops, t, p);
      DropForPadded(s.drops, t, q);
      DropForSet(t, slot.value, d, q);
    }
  }

  /** p is in the first i entries of the previous table as reachable, and was
      not selected again. */
  ghost predicate LostAmong(prior: seq<Route>, routes: seq<Route>, i: nat, p: Prefix)
    requires i <= |prior|
  {
    RouteFor(routes, p).None? && exists k :: 0 <= k < i && prior[k].prefix == p && !prior[k].unreachable
  }

  ghost predicate DropsTabled(s: State, prior: seq<Route>, i: nat, drops: seq<Option<Drop>>)
    requires i <= |prior|
  {
    && DistinctDrops(drops)
    && forall p :: DropFor(drops, p)
                == if LostAmong(prior, s.routes, i, p) then Some(Drop(p, s.now + Hold(s.cfg.update))) else DropFor(s.drops, p)
  }

  lemma SuppressOne(s: State, t: State, prior: seq<Route>, i: nat)
    requires i < |prior| && t.routes == s.routes && t.now == s.now && t.cfg == s.cfg && DropsTabled(s, prior, i, t.drops)
    requires var lost := !prior[i].unreachable && RouteFor(t.routes, prior[i].prefix).None?;
             lost ==> !Suppress(t, prior[i]).stopped
    ensures var lost := !prior[i].unreachable && RouteFor(t.routes, prior[i].prefix).None?;
            DropsTabled(s, prior, i + 1, if lost then Suppress(t, prior[i]).drops else t.drops)
  {
    hide DropRoute, Seek, RouteFor, DropFor, Trigger;
    var o := prior[i];
    var lost := !o.unreachable && RouteFor(t.routes, o.prefix).None?;
    var u := if lost then Suppress(t, o).drops else t.drops;
    if lost { DropRouteMeetsSpec(t, o.prefix, o.prefix); }
    forall p
      ensures DropFor(u, p) == if LostAmong(prior, s.routes, i + 1, p) then Some(Drop(p, s.now + Hold(s.cfg.update))) else DropFor(s.drops, p)
    {
      if lost { DropRouteMeetsSpec(t, o.prefix, p); }
      assert DropFor(t.drops, p) == if LostAmong(prior, s.routes, i, p) then Some(Drop(p, s.now + Hold(s.cfg.update))) else DropFor(s.drops, p);
    }
  }

  lemma {:induction false} SuppressLostStops(s: State, prior: seq<Route>, i: nat)
    requires i <= |prior|
    ensures s.stopped ==> SuppressLost(s, prior, i).stopped
    decreases |prior| - i
  {
    if i < |prior| {
      if !prior[i].unreachable && RouteFor(s.routes, prior[i].prefix).None? {
        SuppressLostStops(Suppress(s, prior[i]), prior, i + 1);
      } else {
        SuppressLostStops(s, prior, i + 1);
      }
    }
  }

  lemma {:induction false} SuppressLostMeetsSpec(s: State, t: State, prior: seq<Route>, i: nat)
    requires i <= |prior| && t.routes == s.routes && t.now == s.now && t.cfg == s.cfg && DropsTabled(s, prior, i, t.drops)
    requires !SuppressLost(t, prior, i).stopped
    ensures DropsTabled(s, prior, |prior|, SuppressLost(t, prior, i).drops)
    decreases |prior| - i
  {
    if i < |prior| {
      var lost := !prior[i].unreachable && RouteFor(t.routes, prior[i].prefix).None?;
      if lost {
        SuppressLostStops(Suppress(t, prior[i]), prior, i + 1);
        SuppressOne(s, t, prior, i);
        SuppressLostMeetsSpec(s, Suppress(t, prior[i]), prior, i + 1);
      } else {
        SuppressOne(s, t, prior, i);
        SuppressLostMeetsSpec(s, t, prior, i + 1);
      }
    }
  }

  /** A suppressed prefix that still has no route and has not lapsed. */
  predicate Standing(routes: seq<Route>, now: nat, d: Drop) {
    RouteFor(routes, d.prefix).None? && d.expires > now
  }

  /** The table and the suppression records after i slots of `drops`. */
  ghost predicate KeptTabled(s: State, routes: seq<Route>, drops: seq<Option<Drop>>, i: nat, t: seq<Route>, kept: seq<Option<Drop>>)
    requires i <= |drops|
  {
    && DistinctRoutes(t) && |kept| == |drops|
    && (forall k :: 0 <= k < |drops| ==>
          kept[k] == if k < i && drops[k].Some? && !Standing(routes, s.now, drops[k].value) then None else drops[k])
    && (forall p :: RouteFor(t, p)
                 == if DropAt(drops, p) < i && Standing(routes, s.now, drops[DropAt(drops, p)].value) then Some(UnreachableRoute(p))
                    else RouteFor(routes, p))
  }

  lemma KeptAhead(s: State, routes: seq<Route>, drops: seq<Option<Drop>>, i: nat, t: seq<Route>, kept: seq<Option<Drop>>)
    requires i <= |drops| && KeptTabled(s, routes, drops, i, t, kept)
    ensures |kept| == |drops| && (i < |drops| ==> kept[i] == drops[i])
  {
  }

  lemma KeepOne(s: State, routes: seq<Route>, drops: seq<Option<Drop>>, i: nat, t: seq<Route>, kept: seq<Option<Drop>>)
    requires i < |drops| && DistinctDrops(drops) && KeptTabled(s, routes, drops, i, t, kept)
    ensures drops[i].None? ==> KeptTabled(s, routes, drops, i + 1, t, kept)
    ensures drops[i].Some? && !Standing(routes, s.now, drops[i].value) ==> KeptTabled(s, routes, drops, i + 1, t, kept[i := None])
    ensures drops[i].Some? && Standing(routes, s.now, drops[i].value) ==>
      KeptTabled(s, routes, drops, i + 1, t + [UnreachableRoute(drops[i].value.prefix)], kept)
    ensures drops[i].Some? ==> RouteFor(t, drops[i].value.prefix).Some? == RouteFor(routes, drops[i].value.prefix).Some?
  {
    if drops[i].Some? {
      var d := drops[i].value;
      assert drops[i] in drops;
      DropIsFor(drops, d);
      assert DropAt(drops, d.prefix) == i;
      assert RouteFor(t, d.prefix) == RouteFor(routes, d.prefix);
      if Standing(routes, s.now, d) {
        RouteForAppend(t, UnreachableRoute(d.prefix), d.prefix);
        forall p { RouteForAppend(t, UnreachableRoute(d.prefix), p); }
      }
    }
  }

  lemma {:induction false} KeepDropsMeetsSpec(s: State, routes: seq<Route>, drops: seq<Option<Drop>>, b: Build, kept: seq<Option<Drop>>, i: nat)
    requires i <= |drops| && DistinctDrops(drops) && KeptTabled(s, routes, drops, i, b.routes, kept)
    ensures var (ok, b', kept') := KeepDrops(s, b, kept, i); ok ==> KeptTabled(s, routes, drops, |drops|, b'.routes, kept')
    decreases |drops| - i
  {
    hide KeptTabled, DistinctDrops;
    KeptAhead(s, routes, drops, i, b.routes, kept);
    if i < |drops| {
      KeepOne(s, routes, drops, i, b.routes, kept);
      if kept[i].None? {
        KeepDropsMeetsSpec(s, routes, drops, b, kept, i + 1);
      } else if Standing(routes, s.now, kept[i].value) {
        var (ok, b') := AddRoute(s.cfg, b, UnreachableRoute(kept[i].value.prefix));
        if ok { KeepDropsMeetsSpec(s, routes, drops, b', kept, i + 1); }
      } else {
        KeepDropsMeetsSpec(s, routes, drops, b, kept[i := None], i + 1);
      }
    }
  }

  // ----- Sorting

  lemma AppendSorts(t: seq<Route>, r: Route)
    requires StrictlySorted(t) && forall x :: x in t ==> Less(x.prefix, r.prefix)
    ensures StrictlySorted(t + [r])
  {
    hide Less;
    var u := t + [r];
    forall i, j | 0 <= i < j < |u| ensures Less(u[i].prefix, u[j].prefix) {
      if j == |t| { assert t[i] in t; }
    }
  }

  lemma {:induction false} InsertSorts(t: seq<Route>, r: Route)
    requires StrictlySorted(t) && RouteFor(t, r.prefix).None?
    ensures StrictlySorted(Insert(t, r))
    ensures forall x :: x in Insert(t, r) <==> x in t || x == r
  {
    hide Less;
    if t != [] {
      var m := |t| - 1;
      var last := t[m];
      assert t == t[..m] + [last];
      forall x | x in t[..m] ensures Less(x.prefix, last.prefix) { }
      if Less(r.prefix, last.prefix) {
        InsertSorts(t[..m], r);
        AppendSorts(Insert(t[..m], r), last);
      } else {
        LessIsStrictTotal(r.prefix, last.prefix, r.prefix);
        forall x | x in t ensures Less(x.prefix, r.prefix) { LessIsStrictTotal(x.prefix, last.prefix, r.prefix); }
        AppendSorts(t, r);
      }
    }
  }

  lemma {:induction false} SortedSorts(t: seq<Route>)
    requires DistinctRoutes(t)
    ensures StrictlySorted(Sorted(t))
    ensures forall x :: x in Sorted(t) <==> x in t
  {
    hide Less, Insert;
    if t != [] {
      var m := |t| - 1;
      SortedSorts(t[..m]);
      forall x | x in Sorted(t[..m]) ensures x.prefix != t[m].prefix { }
      InsertSorts(Sorted(t[..m]), t[m]);
      assert t == t[..m] + [t[m]];
    }
  }

  lemma SortedIsDistinct(t: seq<Route>)
    requires StrictlySorted(t)
    ensures DistinctRoutes(t)
  {
    forall i, j | 0 <= i < j < |t| ensures t[i].prefix != t[j].prefix { LessIsStrictTotal(t[i].prefix, t[j].prefix, t[i].prefix); }
  }

  lemma SortingKeepsEntries(t: seq<Route>, p: Prefix)
    requires DistinctRoutes(t)
    ensures StrictlySorted(Sorted(t)) && RouteFor(Sorted(t), p) == RouteFor(t, p)
  {
    SortedSorts(t);
    SortedIsDistinct(Sorted(t));
    if RouteFor(t, p).Some? { RouteIsFor(Sorted(t), RouteFor(t, p).value); }
  }

  /** A strictly sorted table is determined by its entries. */
  lemma {:induction false} SortedTablesEqual(t: seq<Route>, u: seq<Route>)
    requires StrictlySorted(t) && StrictlySorted(u)
    requires forall x :: x in t <==> x in u
    ensures t == u
  {
    hide Less;
    assert |u| > 0 ==> u[0] in u;
    if t != [] {
      assert t[0] in t;
      var k :| 0 <= k < |u| && u[k] == t[0];
      var j :| 0 <= j < |t| && t[j] == u[0];
      LessIsStrictTotal(u[0].prefix, t[0].prefix, u[0].prefix);
      assert k == 0;
      forall x ensures x in t[1..] <==> x in u[1..] {
        if x in t[1..] { TailExcludesHead(t, x); assert x in u; }
        if x in u[1..] { TailExcludesHead(u, x); assert x in t; }
      }
      SortedTablesEqual(t[1..], u[1..]);
      assert t == [t[0]] + t[1..] && u == [u[0]] + u[1..];
    }
  }

  lemma TailExcludesHead(t: seq<Route>, x: Route)
    requires StrictlySorted(t) && t != [] && x in t[1..]
    ensures x in t && x != t[0]
  {
    var k :| 0 <= k < |t| - 1 && t[1..][k] == x;
    assert t[k + 1] == x;
    LessIsStrictTotal(t[0].prefix, x.prefix, x.prefix);
  }

  // ----- The whole selection

  lemma PublishRoutes(s: State, prior: seq<Route>)
    ensures Publish(s, prior).routes == Sorted(s.routes) && Publish(s, prior).drops == s.drops && Publish(s, prior).stopped == s.stopped
  {
  }

  function Choice(s: State, p: Prefix): (r: Option<Route>)
    ensures r.Some? ==> r.value.prefix == p
  {
    Partial(s, s.routes, |s.cands|, p)
  }

  predicate Reachable(routes: seq<Route>, p: Prefix) {
    var r := RouteFor(routes, p);
    r.Some? && !r.value.unreachable
  }

  /** The suppression record for p after selection. */
  function Remaining(s: State, p: Prefix): (r: Option<Drop>) {
    var d := if Reachable(s.routes, p) then Some(Drop(p, s.now + Hold(s.cfg.update))) else DropFor(s.drops, p);
    if Choice(s, p).None? && d.Some? && d.value.expires > s.now then d else None
  }

  /** The selected entry for p: chosen, suppressed or absent. */
  function Entry(s: State, p: Prefix): (r: Option<Route>) {
    if Choice(s, p).Some? then Choice(s, p)
    else if Remaining(s, p).Some? then Some(UnreachableRoute(p))
    else None
  }

  ghost predicate SelectionOf(s: State, routes: seq<Route>, drops: seq<Option<Drop>>) {
    && StrictlySorted(routes) && DistinctDrops(drops)
    && forall p :: RouteFor(routes, p) == Entry(s, p) && DropFor(drops, p) == Remaining(s, p)
  }

  lemma SuppressedMeetsSpec(s: State, t: State)
    requires Tabled(s, s.routes, |s.cands|, t.routes) && t.cfg == s.cfg && t.now == s.now && t.drops == s.drops
    requires DistinctRoutes(s.routes) && DistinctDrops(s.drops)
    requires Suppressed(t, s.routes).0 && !Suppressed(t, s.routes).1.stopped
    ensures var u := Suppressed(t, s.routes).1;
            DistinctRoutes(u.routes) && DistinctDrops(u.drops)
            && forall p :: RouteFor(u.routes, p) == Entry(s, p) && DropFor(u.drops, p) == Remaining(s, p)
  {
    hide SuppressLost, KeepDrops, Choice, Tabled, DropsTabled, KeptTabled, Remaining;
    var t1 := SuppressLost(t, s.routes, 0);
    NoneSuppressed(t, s.routes);
    SuppressLostMeetsSpec(t, t, s.routes, 0);
    var b := Build(t1.routes, t1.mem.routes, t1.mem.asks);
    NoneKept(s, t, t1, s.routes);
    KeepDropsMeetsSpec(t1, t1.routes, t1.drops, b, t1.drops, 0);
    var (ok, b', kept) := KeepDrops(t1, b, t1.drops, 0);
    KeptDistinct(t1, t, t1.routes, t1.drops, b'.routes, kept);
    forall p
      ensures RouteFor(b'.routes, p) == Entry(s, p) && DropFor(kept, p) == Remaining(s, p)
    {
      SuppressedEntry(s, t, t1.drops, b'.routes, kept, p);
    }
  }

  lemma NoneSuppressed(t: State, prior: seq<Route>)
    requires DistinctDrops(t.drops)
    ensures DropsTabled(t, prior, 0, t.drops)
  {
  }

  lemma NoneKept(s: State, t: State, t1: State, prior: seq<Route>)
    requires Tabled(s, s.routes, |s.cands|, t.routes) && DropsTabled(t, prior, |prior|, t1.drops) && t1.routes == t.routes
    ensures DistinctDrops(t1.drops) && KeptTabled(t1, t1.routes, t1.drops, 0, t1.routes, t1.drops)
  {
  }

  lemma KeptDistinct(s: State, u: State, routes: seq<Route>, drops: seq<Option<Drop>>, t: seq<Route>, kept: seq<Option<Drop>>)
    requires KeptTabled(s, routes, drops, |drops|, t, kept) && u.now == s.now && DistinctDrops(drops)
    ensures DistinctRoutes(t) && DistinctDrops(kept) && KeptTabled(u, routes, drops, |drops|, t, kept)
  {
  }

  lemma TabledChoice(s: State, routes: seq<Route>, p: Prefix)
    requires Tabled(s, s.routes, |s.cands|, routes)
    ensures RouteFor(routes, p) == Choice(s, p)
  {
    hide Partial;
  }

  lemma SuppressedEntry(s: State, t: State, drops: seq<Option<Drop>>, routes: seq<Route>, kept: seq<Option<Drop>>, p: Prefix)
    requires Tabled(s, s.routes, |s.cands|, t.routes) && t.cfg == s.cfg && t.now == s.now && t.drops == s.drops && DistinctRoutes(s.routes)
    requires DropsTabled(t, s.routes, |s.routes|, drops) && KeptTabled(t, t.routes, drops, |drops|, routes, kept)
    ensures RouteFor(routes, p) == Entry(s, p) && DropFor(kept, p) == Remaining(s, p) && DistinctDrops(kept)
  {
    hide Choice, DistinctRoutes;
    assert RouteFor(t.routes, p) == Choice(s, p) by { TabledChoice(s, t.routes, p); }
    var d := DropFor(drops, p);
    assert LostAmong(s.routes, t.routes, |s.routes|, p) <==> Choice(s, p).None? && Reachable(s.routes, p) by {
      if k :| 0 <= k < |s.routes| && s.routes[k].prefix == p && !s.routes[k].unreachable { RouteIsFor(s.routes, s.routes[k]); }
    }
    assert RouteFor(routes, p) == if d.Some? && Standing(t.routes, t.now, d.value) then Some(UnreachableRoute(p)) else RouteFor(t.routes, p);
    var i := DropAt(drops, p);
    if d.Some? && Standing(t.routes, t.now, d.value) {
      assert kept[i] == drops[i];
      DropIsFor(kept, d.value);
    } else {
      forall x | Some(x) in kept ensures x.prefix != p {
        var k :| 0 <= k < |kept| && kept[k] == Some(x);
        if x.prefix == p { DropIsFor(drops, x); }
      }
    }
  }

  /** The stages of a selection that is not cut short. */
  function Start(s: State): (b: Build) {
    Build([], s.mem.routes, Reserve(s.cfg, s.mem.asks, s.mem.scratch, |s.routes|, s.cfg.limits.routes).2)
  }

  function Stage1(s: State): (r: State)
    ensures r == s.(routes := r.routes, mem := r.mem, stopped := r.stopped)
  {
    var cap := Reserve(s.cfg, s.mem.asks, s.mem.scratch, |s.routes|, s.cfg.limits.routes).1;
    var (ok, b) := Chosen(s, s.routes, Start(s));
    Installed(s.(mem := s.mem.(scratch := cap)), ok, b)
  }

  function Stage2(s: State): (r: State)
    ensures r == s.(routes := r.routes, mem := r.mem, stopped := r.stopped, drops := r.drops, pace := r.pace,
                    requests := r.requests, msgs := r.msgs)
  {
    Suppressed(Stage1(s), s.routes).1
  }

  lemma SelectStages(s: State)
    requires !s.stopped && !SelectRoutes(s).stopped
    ensures Chosen(s, s.routes, Start(s)).0 && Stage1(s).routes == Chosen(s, s.routes, Start(s)).1.routes && !Stage1(s).stopped
    ensures Suppressed(Stage1(s), s.routes).0 && !Stage2(s).stopped
    ensures SelectRoutes(s) == Publish(Stage2(s), s.routes)
  {
    hide Chosen, SuppressLost, KeepDrops, Publish, Reserve;
    assert Publish(Stage2(s), s.routes).stopped == Stage2(s).stopped;
  }

  /** After selection the table is strictly sorted with at most one entry per
      prefix, and every entry and suppression record is the specified one. */
  lemma SelectMeetsSpec(s: State)
    requires !s.stopped && DistinctLocals(s.locals) && DistinctRoutes(s.routes) && DistinctDrops(s.drops)
    requires !SelectRoutes(s).stopped
    ensures SelectionOf(s, SelectRoutes(s).routes, SelectRoutes(s).drops)
  {
    hide Chosen, Suppressed, Publish, Sorted, SelectRoutes, Partial, Less;
    SelectStages(s);
    ChosenMeetsSpec(s, s.routes, Start(s));
    SuppressedMeetsSpec(s, Stage1(s));
    var t2 := Stage2(s);
    SortedSorts(t2.routes);
    PublishRoutes(t2, s.routes);
    forall p
      ensures RouteFor(Sorted(t2.routes), p) == Entry(s, p)
    {
      SortingKeepsEntries(t2.routes, p);
    }
  }

  // ----- What the specification says

  /** The chosen candidate is usable and beats every usable rival; when nothing
      is chosen, nothing was usable. */
  lemma ChoiceIsWinner(s: State, p: Prefix)
    requires !HasLocal(s.locals, p)
    ensures Choice(s, p).Some? ==>
      exists c :: Winner(s, s.routes, c) && c.route.prefix == p && Choice(s, p).value == Selected(s, c)
    ensures Choice(s, p).None? ==> forall c :: Some(c) in s.cands && c.route.prefix == p ==> !Eligible(s, c)
  {
    var n := |s.cands|;
    if Choice(s, p).Some? {
      BestIsEligible(s, s.routes, p, n);
      var c :| Some(c) in s.cands && c.route.prefix == p && Eligible(s, c) && Best(s, s.routes, p, n).value == Selected(s, c);
      forall d | Some(d) in s.cands && d.route.prefix == p && Eligible(s, d)
        ensures NoWorse(Selected(s, c), Selected(s, d), Previous(s.routes, p))
      {
        var k :| 0 <= k < n && s.cands[k] == Some(d);
        BestIsMinimal(s, s.routes, p, n, k);
      }
      assert Winner(s, s.routes, c);
    } else {
      forall c | Some(c) in s.cands && c.route.prefix == p
        ensures !Eligible(s, c)
      {
        var k :| 0 <= k < n && s.cands[k] == Some(c);
        if Eligible(s, c) { BestIsMinimal(s, s.routes, p, n, k); }
      }
    }
  }

  /** Two winners for one prefix are the same candidate. */
  lemma WinnerIsUnique(s: State, c: Candidate, d: Candidate)
    requires DistinctCands(s.cands) && Winner(s, s.routes, c) && Winner(s, s.routes, d) && c.route.prefix == d.route.prefix
    ensures c == d
  {
    PreferenceIsTotal(Selected(s, c), Selected(s, d), Selected(s, c), Previous(s.routes, c.route.prefix));
    var i :| 0 <= i < |s.cands| && s.cands[i] == Some(c);
    var j :| 0 <= j < |s.cands| && s.cands[j] == Some(d);
  }

  /** t holds the same entries as s, possibly in other slots. */
  ghost predicate Reordered(s: State, t: State) {
    && t == s.(cands := t.cands, locals := t.locals, drops := t.drops, mem := t.mem)
    && (forall c :: Some(c) in s.cands <==> Some(c) in t.cands)
    && (forall l :: Some(l) in s.locals <==> Some(l) in t.locals)
    && (forall d :: Some(d) in s.drops <==> Some(d) in t.drops)
  }

  lemma SameDrops(s: State, t: State)
    requires Reordered(s, t)
    ensures t.now == s.now && t.cfg == s.cfg && t.routes == s.routes && forall d :: Some(d) in s.drops <==> Some(d) in t.drops
  {
  }

  lemma ReorderedChoice(s: State, t: State, p: Prefix)
    requires Reordered(s, t) && DistinctCands(s.cands) && DistinctCands(t.cands) && DistinctLocals(s.locals) && DistinctLocals(t.locals)
    ensures Choice(s, p) == Choice(t, p)
  {
    var i, j := LocalAt(s.locals, p), LocalAt(t.locals, p);
    if i < |s.locals| { assert s.locals[i] in t.locals; }
    if j < |t.locals| { assert t.locals[j] in s.locals; }
    forall q ensures HasLocal(s.locals, q) == HasLocal(t.locals, q) {
      var a, b := LocalAt(s.locals, q), LocalAt(t.locals, q);
      if a < |s.locals| { assert s.locals[a] in t.locals; }
      if b < |t.locals| { assert t.locals[b] in s.locals; }
    }
    forall c ensures Eligible(s, c) == Eligible(t, c) && Selected(s, c) == Selected(t, c) { }
    if !HasLocal(s.locals, p) {
      ChoiceIsWinner(s, p);
      ChoiceIsWinner(t, p);
      if Choice(s, p).Some? && Choice(t, p).Some? {
        var c :| Winner(s, s.routes, c) && c.route.prefix == p && Choice(s, p).value == Selected(s, c);
        var d :| Winner(t, t.routes, d) && d.route.prefix == p && Choice(t, p).value == Selected(t, d);
        assert Winner(s, s.routes, d);
        WinnerIsUnique(s, c, d);
      }
    }
  }

  /** The selected table does not depend on the order of the tables. */
  lemma SelectionIgnoresOrder(s: State, t: State, a: seq<Route>, da: seq<Option<Drop>>, b: seq<Route>, db: seq<Option<Drop>>)
    requires Reordered(s, t) && DistinctCands(s.cands) && DistinctCands(t.cands) && DistinctLocals(s.locals) && DistinctLocals(t.locals)
    requires DistinctDrops(s.drops) && DistinctDrops(t.drops)
    requires SelectionOf(s, a, da) && SelectionOf(t, b, db)
    ensures a == b
  {
    hide Reordered, Choice;
    forall p ensures Entry(s, p) == Entry(t, p) {
      SameDrops(s, t);
      ReorderedChoice(s, t, p);
      if DropFor(s.drops, p).Some? { DropIsFor(t.drops, DropFor(s.drops, p).value); }
      if DropFor(t.drops, p).Some? { DropIsFor(s.drops, DropFor(t.drops, p).value); }
    }
    EntriesDetermine(a, b);
  }

  lemma EntriesDetermine(a: seq<Route>, b: seq<Route>)
    requires StrictlySorted(a) && StrictlySorted(b) && forall p :: RouteFor(a, p) == RouteFor(b, p)
    ensures a == b
  {
    SortedIsDistinct(a);
    SortedIsDistinct(b);
    forall x ensures x in a <==> x in b {
      if x in a { RouteIsFor(a, x); }
      if x in b { RouteIsFor(b, x); }
    }
    SortedTablesEqual(a, b);
  }
}
