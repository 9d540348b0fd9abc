/** The loops over tables that engine.c repeats: searches, free slots, capacity
    and the count of admitted prefixes, each proved against its specification. */
module TableCode {
  import opened Types
  import opened Prefixes
  import opened EngineState
  import opened Engine
  import opened EngineEvents
  import opened Selection

  method Search<T>(t: seq<Option<T>>, p: T -> bool) returns (i: nat)
    ensures i == Find(t, p, 0)
  {
    i := 0;
    while i < |t| && !(t[i].Some? && p(t[i].value))
      invariant i <= |t| && Find(t, p, i) == Find(t, p, 0)
    {
      i := i + 1;
    }
  }

  method FindLink(links: seq<Option<Link>>, id: u64) returns (i: nat)
    ensures i == LinkAt(links, id)
  {
    i := Search(links, (l: Link) => l.config.id == id);
  }

  method FindSource(sources: seq<Option<Source>>, p: Prefix, router: u64) returns (i: nat)
    ensures i == SourceAt(sources, p, router)
  {
    i := Search(sources, (x: Source) => x.prefix == p && x.router == router);
  }

  method FindLocal(locals: seq<Option<Local>>, p: Prefix) returns (i: nat)
    ensures i == LocalAt(locals, p)
  {
    i := Search(locals, (l: Local) => l.prefix == p);
  }

  method FindDrop(drops: seq<Option<Drop>>, p: Prefix) returns (i: nat)
    ensures i == DropAt(drops, p)
  {
    i := Search(drops, (d: Drop) => d.prefix == p);
  }

  method FindRoute(routes: seq<Route>, p: Prefix) returns (i: nat)
    ensures i == RouteAt(routes, p)
  {
    i := 0;
    while i < |routes| && routes[i].prefix != p
      invariant i <= |routes| && RouteFrom(routes, p, i) == RouteFrom(routes, p, 0)
    {
      i := i + 1;
    }
  }

  function FreeIn<T>(t: seq<Option<T>>): (r: Option<nat>) {
    if FirstFree(t, 0) < |t| then Some(FirstFree(t, 0)) else None
  }

  /** One pass for a request: its slot, or else the first free one. */
  method FindRequest(requests: seq<Option<Pending>>, p: Prefix, router: u64) returns (i: nat, free: Option<nat>)
    ensures i == RequestAt(requests, p, router)
    ensures i == |requests| ==> free == FreeIn(requests)
  {
    i, free := 0, None;
    while i < |requests| && !(requests[i].Some? && requests[i].value.router == router && requests[i].value.prefix == p)
      invariant i <= |requests|
      invariant forall j :: 0 <= j < i && requests[j].Some? ==> !(requests[j].value.prefix == p && requests[j].value.router == router)
      invariant free.None? ==> forall j :: 0 <= j < i ==> requests[j].Some?
      invariant free.Some? ==> free.value < i && requests[free.value].None? && forall j :: 0 <= j < free.value ==> requests[j].Some?
    {
      if requests[i].None? && free.None? { free := Some(i); }
      i := i + 1;
    }
  }

  /** The capacity a table gets when `count` slots are asked for. */
  method ReserveSlots(cfg: Config, asks: nat, cap: nat, count: nat, max: nat) returns (ok: bool, size: nat, next: nat)
    ensures (ok, size, next) == Reserve(cfg, asks, cap, count, max)
  {
    if count > max { return false, cap, asks; }
    if count <= cap { return true, cap, asks; }
    size := if cap != 0 then cap else 1;
    while size < count
      invariant 0 < size && Grown(size, count, max) == Grown(cap, count, max)
      decreases count - size
    {
      size := if size > max / 2 then max else size * 2;
    }
    if !cfg.grant(asks) { return false, cap, asks + 1; }
    return true, size, asks + 1;
  }

  method GrowIfFull<T(!new)>(cfg: Config, asks: nat, t: seq<Option<T>>, max: nat, free: Option<nat>)
    returns (slot: Option<nat>, table: seq<Option<T>>, next: nat)
    requires free == FreeIn(t)
    ensures (slot, table, next) == FreeSlot(cfg, asks, t, max)
  {
    if free.Some? { return free, t, asks; }
    var ok, cap;
    ok, cap, next := ReserveSlots(cfg, asks, |t|, |t| + 1, max);
    if ok { slot, table := Some(|t|), Pad(t, cap); } else { slot, table := None, t; }
  }

  method TakeSlot<T(!new)>(cfg: Config, asks: nat, t: seq<Option<T>>, max: nat)
    returns (slot: Option<nat>, table: seq<Option<T>>, next: nat)
    ensures (slot, table, next) == FreeSlot(cfg, asks, t, max)
  {
    var i := 0;
    while i < |t| && t[i].Some?
      invariant i <= |t| && FirstFree(t, i) == FirstFree(t, 0)
    {
      i := i + 1;
    }
    slot, table, next := GrowIfFull(cfg, asks, t, max, if i < |t| then Some(i) else None);
  }

  // ----- Admission

  /** The same sets without their membership facts, which would only distract the
      proofs of the counting loops. */
  function CandNames(cands: seq<Option<Candidate>>): (r: set<Prefix>) {
    CandPrefixes(cands)
  }

  function LocalNames(locals: seq<Option<Local>>): (r: set<Prefix>) {
    LocalPrefixes(locals)
  }

  function DropNames(drops: seq<Option<Drop>>): (r: set<Prefix>) {
    DropPrefixes(drops)
  }

  lemma CandPrefixStep(cands: seq<Option<Candidate>>, i: nat)
    requires i < |cands|
    ensures CandNames(cands[..i + 1]) == CandNames(cands[..i]) + if cands[i].Some? then {cands[i].value.route.prefix} else {}
  {
    var a, b := cands[..i], cands[..i + 1];
    forall p | p in CandNames(b) ensures p in CandNames(a) || (cands[i].Some? && p == cands[i].value.route.prefix) {
      var c :| Some(c) in b && c.route.prefix == p;
      assert b == a + [cands[i]];
    }
    forall p | p in CandNames(a) ensures p in CandNames(b) {
      var c :| Some(c) in a && c.route.prefix == p;
      assert b == a + [cands[i]];
    }
    assert cands[i].Some? ==> cands[i] == b[i];
  }

  method KnownToCands(cands: seq<Option<Candidate>>, p: Prefix) returns (r: bool)
    ensures r == (p in CandNames(cands))
  {
    var j := Search(cands, (c: Candidate) => c.route.prefix == p);
    r := j < |cands|;
    assert r ==> cands[j] in cands;
  }

  method KnownToLocals(locals: seq<Option<Local>>, p: Prefix) returns (r: bool)
    ensures r == (p in LocalNames(locals))
  {
    var j := FindLocal(locals, p);
    r := j < |locals|;
    assert r ==> locals[j] in locals;
  }

  method KnownToDrops(drops: seq<Option<Drop>>, p: Prefix) returns (r: bool)
    ensures r == (p in DropNames(drops))
  {
    var j := FindDrop(drops, p);
    r := j < |drops|;
    assert r ==> drops[j] in drops;
  }

  /** Distinct prefixes among the candidates: one counts when no earlier one
      has the same prefix. */
  method CountCands(cands: seq<Option<Candidate>>) returns (n: nat)
    ensures n == |CandNames(cands)|
  {
    hide CandNames;
    n := 0;
    var i := 0;
    NoPrefixes();
    assert cands[..0] == [];
    while i < |cands|
      invariant i <= |cands| && n == |CandNames(cands[..i])|
    {
      CandPrefixStep(cands, i);
      if cands[i].Some? {
        var p := cands[i].value.route.prefix;
        var seen := KnownToCands(cands[..i], p);
        CountedOnce(CandNames(cands[..i]), p);
        if !seen { n := n + 1; }
      } else {
        assert CandNames(cands[..i]) + {} == CandNames(cands[..i]);
      }
      i := i + 1;
    }
    assert cands[..i] == cands;
  }

  lemma CountedOnce(some: set<Prefix>, p: Prefix)
    ensures |some + {p}| == |some| + if p in some then 0 else 1
  {
    assert p in some ==> some + {p} == some;
  }

  lemma LocalPrefixStep(locals: seq<Option<Local>>, i: nat)
    requires i < |locals| && DistinctLocals(locals)
    ensures LocalNames(locals[..i + 1]) == LocalNames(locals[..i]) + if locals[i].Some? then {locals[i].value.prefix} else {}
    ensures locals[i].Some? ==> locals[i].value.prefix !in LocalNames(locals[..i])
  {
    var a, b := locals[..i], locals[..i + 1];
    assert b == a + [locals[i]];
    forall p | p in LocalNames(b) ensures p in LocalNames(a) || (locals[i].Some? && p == locals[i].value.prefix) {
      var c :| Some(c) in b && c.prefix == p;
    }
    forall p | p in LocalNames(a) ensures p in LocalNames(b) {
      var c :| Some(c) in a && c.prefix == p;
    }
    assert locals[i].Some? ==> locals[i] == b[i];
  }

  lemma DropPrefixStep(drops: seq<Option<Drop>>, i: nat)
    requires i < |drops| && DistinctDrops(drops)
    ensures DropNames(drops[..i + 1]) == DropNames(drops[..i]) + if drops[i].Some? then {drops[i].value.prefix} else {}
    ensures drops[i].Some? ==> drops[i].value.prefix !in DropNames(drops[..i])
  {
    var a, b := drops[..i], drops[..i + 1];
    assert b == a + [drops[i]];
    forall p | p in DropNames(b) ensures p in DropNames(a) || (drops[i].Some? && p == drops[i].value.prefix) {
      var c :| Some(c) in b && c.prefix == p;
    }
    forall p | p in DropNames(a) ensures p in DropNames(b) {
      var c :| Some(c) in a && c.prefix == p;
    }
    assert drops[i].Some? ==> drops[i] == b[i];
  }

  /** A member that is not yet counted adds one. */
  lemma Counted(base: set<Prefix>, some: set<Prefix>, p: Prefix)
    requires p !in some
    ensures |base + (some + {p})| == |base + some| + if p in base then 0 else 1
  {
    CountedOnce(base + some, p);
    assert base + (some + {p}) == (base + some) + {p};
  }

  method CountLocals(cands: seq<Option<Candidate>>, locals: seq<Option<Local>>, start: nat) returns (n: nat)
    requires DistinctLocals(locals) && start == |CandNames(cands)|
    ensures n == |CandNames(cands) + LocalNames(locals)|
  {
    hide CandNames, LocalNames, DistinctLocals;
    n := start;
    ghost var base := CandNames(cands);
    NoPrefixes();
    assert base + {} == base && locals[..0] == [];
    var i := 0;
    while i < |locals|
      invariant i <= |locals| && n == |base + LocalNames(locals[..i])|
    {
      LocalPrefixStep(locals, i);
      if locals[i].Some? {
        Counted(base, LocalNames(locals[..i]), locals[i].value.prefix);
        var seen := KnownToCands(cands, locals[i].value.prefix);
        if !seen { n := n + 1; }
      } else {
        assert LocalNames(locals[..i]) + {} == LocalNames(locals[..i]);
      }
      i := i + 1;
    }
    assert locals[..i] == locals;
  }

  method CountDrops(cands: seq<Option<Candidate>>, locals: seq<Option<Local>>, drops: seq<Option<Drop>>, start: nat) returns (n: nat)
    requires DistinctDrops(drops) && start == |CandNames(cands) + LocalNames(locals)|
    ensures n == |CandNames(cands) + LocalNames(locals) + DropNames(drops)|
  {
    hide CandNames, LocalNames, DropNames, DistinctDrops;
    n := start;
    ghost var base := CandNames(cands) + LocalNames(locals);
    NoPrefixes();
    assert base + {} == base && drops[..0] == [];
    var i := 0;
    while i < |drops|
      invariant i <= |drops| && n == |base + DropNames(drops[..i])|
    {
      DropPrefixStep(drops, i);
      if drops[i].Some? {
        Counted(base, DropNames(drops[..i]), drops[i].value.prefix);
        var seen := KnownToCands(cands, drops[i].value.prefix);
        var mine := KnownToLocals(locals, drops[i].value.prefix);
        if !(seen || mine) { n := n + 1; }
      } else {
        assert DropNames(drops[..i]) + {} == DropNames(drops[..i]);
      }
      i := i + 1;
    }
    assert drops[..i] == drops;
  }

  /** Distinct prefixes over all three tables. A local is compared with the
      candidates only, a suppressed prefix with both, which suffices because
      each of those tables holds a prefix once. */
  method AdmissionCount(cands: seq<Option<Candidate>>, locals: seq<Option<Local>>, drops: seq<Option<Drop>>) returns (n: nat)
    requires DistinctLocals(locals) && DistinctDrops(drops)
    ensures n == |CandPrefixes(cands) + LocalPrefixes(locals) + DropPrefixes(drops)|
  {
    n := CountCands(cands);
    n := CountLocals(cands, locals, n);
    n := CountDrops(cands, locals, drops, n);
  }

  lemma NoPrefixes()
    ensures CandNames([]) == LocalNames([]) == DropNames([]) == {}
  {
  }

  // ----- Lookup

  /** The routes that cover a host, longest first in effect. */
  method LookUp(routes: seq<Route>, host: Prefix) returns (best: Option<Route>)
    ensures best == Lookup(routes, host, |routes|)
  {
    best := None;
    var i := 0;
    while i < |routes|
      invariant i <= |routes| && best == Lookup(routes, host, i)
    {
      var r := routes[i];
      if Covers(r.prefix, host) && (best.None? || r.prefix.bits > best.value.prefix.bits) { best := Some(r); }
      i := i + 1;
    }
  }

  /** Longest-prefix match, an unreachable entry included: the result covers the
      host and nothing longer in the table does. */
  lemma {:induction false} LookupIsLongest(routes: seq<Route>, host: Prefix, i: nat)
    requires i <= |routes|
    ensures var r := Lookup(routes, host, i);
            && (r.Some? ==> r.value in routes[..i] && Covers(r.value.prefix, host))
            && (forall k :: 0 <= k < i && Covers(routes[k].prefix, host) ==> r.Some? && routes[k].prefix.bits <= r.value.prefix.bits)
  {
    if i > 0 {
      LookupIsLongest(routes, host, i - 1);
      assert routes[..i] == routes[..i - 1] + [routes[i - 1]];
    }
  }

  /** Two covering entries of one length are one entry, so the match is unique. */
  lemma LookupIsUnique(routes: seq<Route>, host: Prefix, x: Route)
    requires DistinctRoutes(routes) && x in routes && Covers(x.prefix, host)
    requires forall y :: y in routes && Covers(y.prefix, host) ==> y.prefix.bits <= x.prefix.bits
    ensures Lookup(routes, host, |routes|) == Some(x)
  {
    hide Lookup;
    LookupIsLongest(routes, host, |routes|);
    assert routes[..|routes|] == routes;
    var r := Lookup(routes, host, |routes|);
    var k :| 0 <= k < |routes| && routes[k] == x;
    var j :| 0 <= j < |routes| && routes[j] == r.value;
    assert r.value.prefix == x.prefix;
  }

  // ----- Deadlines

  method LinksDeadline(now: nat, next0: nat, t: seq<Option<Link>>) returns (next: nat)
    ensures next == LinksDue(now, next0, t)
  {
    next := next0;
    var i := 0;
    while i < |t|
      invariant i <= |t| && LinksDue(now, next, t[i..]) == LinksDue(now, next0, t)
    {
      if t[i].Some? { next := LinkDue(now, next, t[i].value); }
      i := i + 1;
    }
  }

  method CandsDeadline(now: nat, next0: nat, t: seq<Option<Candidate>>) returns (next: nat)
    ensures next == CandsDue(now, next0, t)
  {
    next := next0;
    var i := 0;
    while i < |t|
      invariant i <= |t| && CandsDue(now, next, t[i..]) == CandsDue(now, next0, t)
    {
      if t[i].Some? { next := CandDue(now, next, t[i].value); }
      i := i + 1;
    }
  }

  method SourcesDeadline(now: nat, next0: nat, t: seq<Option<Source>>) returns (next: nat)
    ensures next == SourcesDue(now, next0, t)
  {
    next := next0;
    var i := 0;
    while i < |t|
      invariant i <= |t| && SourcesDue(now, next, t[i..]) == SourcesDue(now, next0, t)
    {
      if t[i].Some? { next := Sooner(now, next, t[i].value.expires); }
      i := i + 1;
    }
  }

  method DropsDeadline(now: nat, next0: nat, t: seq<Option<Drop>>) returns (next: nat)
    ensures next == DropsDue(now, next0, t)
  {
    next := next0;
    var i := 0;
    while i < |t|
      invariant i <= |t| && DropsDue(now, next, t[i..]) == DropsDue(now, next0, t)
    {
      if t[i].Some? { next := Sooner(now, next, t[i].value.expires); }
      i := i + 1;
    }
  }

  method PendingsDeadline(now: nat, next0: nat, t: seq<Option<Pending>>) returns (next: nat)
    ensures next == PendingsDue(now, next0, t)
  {
    next := next0;
    var i := 0;
    while i < |t|
      invariant i <= |t| && PendingsDue(now, next, t[i..]) == PendingsDue(now, next0, t)
    {
      if t[i].Some? { next := PendingDue(now, next, t[i].value); }
      i := i + 1;
    }
  }
}
