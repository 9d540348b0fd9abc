/** An engine that saves a checkpoint it cannot restore: a run from initialisation
    that originates 65536 prefixes, in a build whose ceiling allows them. */
module HistoryExample {
  import opened Types
  import opened Prefixes
  import opened EngineState
  import opened Engine
  import opened EngineEvents
  import opened Selection
  import opened Invariant
  import opened Limits
  import opened Settled
  import opened Runs
  import opened RunLimits
  import opened Suppression
  import opened DeadlineRuns
  import opened Scenario
  import opened History
  import TableCode

  const MANY: nat := 0x1_0000

  function Settings(): (c: Config) {
    ConfigData(1, 4000, 16000, 180000, true, false, Limits(4, MANY, 768, 512, 64, 1024), (r, p, s) => true, k => true, k => 10)
  }

  function P(i: nat): (p: Prefix)
    requires i < MANY
  {
    Prefix(ZERO16[0 := 0x20][1 := i / 256][2 := i % 256], 24, 6)
  }

  lemma PIsRoutable(i: nat)
    requires i < MANY
    ensures Routable(P(i))
  {
    var p := P(i);
    assert p.bytes[0] == 0x20;
    assert forall k :: 3 <= k < 16 ==> p.bytes[k] == 0;
    assert MaskBytes(p.bytes, 24) == p.bytes;
    assert p.bytes[..15][0] == 0x20 && p.bytes[..10][0] == 0x20;
  }

  lemma PDiffers(i: nat, j: nat)
    requires i < MANY && j < MANY && P(i) == P(j)
    ensures i == j
  {
    assert P(i).bytes[1] == P(j).bytes[1] && P(i).bytes[2] == P(j).bytes[2];
  }

  /** The first n prefixes. */
  function Names(n: nat): (r: set<Prefix>)
    requires n <= MANY
  {
    if n == 0 then {} else Names(n - 1) + {P(n - 1)}
  }

  lemma {:induction false} NamesAre(n: nat, p: Prefix)
    requires n <= MANY
    ensures p in Names(n) <==> exists i :: 0 <= i < n && p == P(i)
  {
    if n > 0 { NamesAre(n - 1, p); }
  }

  lemma NextIsNew(n: nat)
    requires n < MANY
    ensures P(n) !in Names(n)
  {
    hide Names;
    NamesAre(n, P(n));
    if P(n) in Names(n) {
      var i :| 0 <= i < n && P(n) == P(i);
      PDiffers(n, i);
    }
  }

  lemma {:induction false} NamesCount(n: nat)
    requires n <= MANY
    ensures |Names(n)| == n
  {
    hide P;
    if n > 0 {
      NamesCount(n - 1);
      NextIsNew(n - 1);
    }
  }

  // ----- One more prefix

  /** An engine without neighbours that originates the first n prefixes. */
  ghost predicate Hosting(s: State, n: nat)
    requires n <= MANY
  {
    && Core(s) && Steady(s) && Free(s) && Quiet(s) && s.cfg == Settings() && s.now == 0
    && s.links == [] && s.cands == [] && s.sources == [] && s.drops == [] && s.requests == []
    && LocalPrefixes(s.locals) == Names(n) && forall p :: RouteFor(s.routes, p).Some? <==> p in Names(n)
  }

  lemma HostsNone()
    ensures Hosting(Init(Settings(), 0), 0)
  {
    InitSteady(Settings(), 0);
  }

  lemma {:induction false} CountUsed(t: seq<Option<Local>>, i: nat)
    requires i <= |t| && DistinctLocals(t) && Full(t)
    ensures |LocalPrefixes(t[..i])| == i
  {
    if i > 0 {
      CountUsed(t, i - 1);
      TableCode.LocalPrefixStep(t, i - 1);
    } else {
      assert t[..0] == [];
    }
  }

  /** A slot is free or to be had. */
  lemma RoomForOne(s: State, n: nat)
    requires n < MANY && Hosting(s, n)
    ensures var (slot, t) := LocalSlot(s, P(n));
            slot.Some? && slot.value < |t.locals| && t.locals[slot.value].None? && t == s.(mem := t.mem, locals := t.locals)
            && LocalPrefixes(t.locals) == Names(n) && Core(t) && |Admitted(s) + {P(n)}| <= MANY
  {
    hide Core, Steady, Quiet, P, Names, Padded, LocalPrefixes;
    CoreShape(s);
    NamesCount(n);
    NextIsNew(n);
    assert LocalAt(s.locals, P(n)) == |s.locals| by { NotLocal(s, P(n)); }
    assert Admitted(s) == Names(n) by { OnlyLocals(s); }
    var (slot, t, asks) := FreeSlot(s.cfg, s.mem.asks, s.locals, MANY);
    assert s.locals[..|s.locals|] == s.locals;
    if Full(s.locals) { CountUsed(s.locals, |s.locals|); }
    LocalSlotPads(s, P(n));
    PaddedKeeps(s, LocalSlot(s, P(n)).1);
    LocalPrefixesOf(s.locals, t);
  }

  lemma NotLocal(s: State, p: Prefix)
    requires p !in LocalPrefixes(s.locals)
    ensures LocalAt(s.locals, p) == |s.locals|
  {
    assert forall i :: 0 <= i < |s.locals| ==> s.locals[i] in s.locals;
  }

  lemma OnlyLocals(s: State)
    requires s.cands == [] && s.drops == []
    ensures Admitted(s) == LocalPrefixes(s.locals)
  {
  }

  lemma PlantedPrefixes(t: seq<Option<Local>>, k: nat, l: Local)
    requires k < |t| && t[k].None?
    ensures LocalPrefixes(t[k := Some(l)]) == LocalPrefixes(t) + {l.prefix}
  {
    var u := t[k := Some(l)];
    SetMembers(t, k, Some(l));
    assert u[k] in u;
    forall p | p in LocalPrefixes(t) ensures p in LocalPrefixes(u) {
      var x :| Some(x) in t && x.prefix == p;
      var i :| 0 <= i < |t| && t[i] == Some(x);
      assert u[i] in u;
    }
  }

  /** The state in which the origination is finished. */
  lemma Originates(s: State, n: nat) returns (t: State)
    requires n < MANY && Hosting(s, n)
    ensures Originate(s, 0, P(n), 0) == (Ok, t) && LocalPrefixes(t.locals) == Names(n) + {P(n)}
    ensures t == s.(locals := t.locals, mem := t.mem, before := s.routes, msgs := [], ctl := t.ctl)
  {
    hide Core, Steady, Quiet, P, Begin, LocalPrefixes, LocalSlot, Routable, Originate, ForgetDrop, Recordable, Names, RouteFor;
    RoomForOne(s, n);
    PIsRoutable(n);
    var (slot, a) := LocalSlot(s, P(n));
    SteadyRoutes(s);
    WakesAtOnce(a);
    var u := Begin(a, 0).1;
    PlantedPrefixes(a.locals, slot.value, Local(P(n), 0));
    t := u.(locals := u.locals[slot.value := Some(Local(P(n), 0))]);
    assert ForgetDrop([], P(n)) == [] by { NothingForgotten(P(n)); }
    Planted(s, a, u, slot, P(n));
  }

  lemma NothingForgotten(p: Prefix)
    ensures ForgetDrop([], p) == []
  {
  }

  lemma Planted(s: State, a: State, u: State, slot: Option<nat>, p: Prefix)
    requires Routable(p) && LocalSlot(s, p) == (slot, a) && slot.Some? && Begin(a, 0) == (Ok, u) && slot.value < |u.locals|
    requires a.sources == [] && a.cfg == Settings()
    ensures Originate(s, 0, p, 0) == (Ok, u.(locals := u.locals[slot.value := Some(Local(p, 0))], drops := ForgetDrop(u.drops, p)))
  {
    hide Begin, LocalSlot, Routable, ForgetDrop;
    assert Recordable(a, p, 1);
  }

  lemma LocalsChosen(t: State, p: Prefix)
    requires t.cands == []
    ensures Choice(t, p).Some? <==> p in LocalPrefixes(t.locals)
  {
    hide Choice;
    if p in LocalPrefixes(t.locals) {
      var l :| Some(l) in t.locals && l.prefix == p;
      assert HasLocal(t.locals, p);
      LocalIsChosen(t, p);
    } else {
      NotLocal(t, p);
      ChoiceIsWinner(t, p);
    }
  }

  lemma ClaimsNames(t: State, n: nat)
    requires n <= MANY && t.cfg == Settings() && t.cands == [] && t.drops == [] && LocalPrefixes(t.locals) == Names(n)
    requires forall p :: RouteFor(t.routes, p).Some? ==> p in Names(n)
    ensures Bounded(t)
  {
    hide Names;
    NamesCount(n);
    forall p | p in RoutePrefixes(t.routes) ensures p in Names(n) {
      var x :| x in t.routes && x.prefix == p;
      assert RouteFor(t.routes, p).Some?;
    }
    assert Claimed(t) <= Names(n);
    SubsetSize(Claimed(t), Names(n));
  }

  /** Collection without neighbours leaves everything but spare slots. */
  lemma CollectsLocals(s: State)
    requires s.links == [] && s.cands == [] && s.sources == [] && s.drops == [] && s.requests == []
    ensures var r := Collect(s); r == s.(locals := r.locals, mem := r.mem) && LocalPrefixes(r.locals) == LocalPrefixes(s.locals)
  {
    hide CollectCap, LocalPrefixes;
    CollectedMembers(s.cfg, s.mem.asks, s.locals);
    LocalPrefixesOf(CollectTable(s.cfg, s.mem.asks, s.locals).0, s.locals);
  }

  lemma HostsOneMore(s: State, n: nat)
    requires n < MANY && Hosting(s, n)
    ensures var t := Apply(s, Announce(0, P(n), 0)).state;
            !t.stopped && (t.ctl.pending != 0 || t.ctl.ready) && Steady(t) && forall x :: Resting(t, x) ==> Hosting(x, n + 1)
  {
    hide Core, Finish, Quiet, SelectRoutes, Collect, Choice, SelectionOf, P, Names, LocalPrefixes, Bounded, Steady, Originate;
    var t := Originates(s, n);
    PrepareKeeps(s, Announce(0, P(n), 0));
    MoreNames(n);
    forall p ensures Choice(t, p).Some? <==> p in Names(n + 1) { LocalsChosen(t, p); }
    ClaimsNames(t, n + 1);
    QuietPace(s);
    PlainFinish(t);
    var r1, r := SelectRoutes(t), Finish(t).1;
    assert LinkTimers(r1, 0) == r1;
    CollectsLocals(r1.(before := []));
    forall p ensures RouteFor(r.routes, p).Some? <==> p in Names(n + 1) { Tabled(t, r1.routes, p); }
    FinishQuiet(t);
    FinishKeeps(t);
    ApplySteady(s, Announce(0, P(n), 0));
    forall x | Resting(r, x) ensures Hosting(x, n + 1) {
      QuietAlone(r, x);
      assert Steady(x) by { SteadyAlone(r, x); }
    }
  }

  lemma MoreNames(n: nat)
    requires n < MANY
    ensures Names(n + 1) == Names(n) + {P(n)}
  {
  }

  lemma QuietPace(s: State)
    requires Quiet(s)
    ensures s.pace.on ==> s.pace.at > s.now
  {
  }

  lemma Tabled(t: State, routes: seq<Route>, p: Prefix)
    requires SelectionOf(t, routes, []) && t.drops == [] && (Reachable(t.routes, p) ==> Choice(t, p).Some?)
    ensures RouteFor(routes, p).Some? <==> Choice(t, p).Some?
  {
    hide Choice;
    assert RouteFor(routes, p) == Entry(t, p);
  }

  lemma {:induction false} CanHost(n: nat) returns (es: seq<Event>)
    requires n <= MANY
    ensures Hosting(Run(Init(Settings(), 0), es), n)
  {
    hide Core, Apply, Run, Hosting, Settings, P;
    var s := Init(Settings(), 0);
    if n == 0 {
      es := [];
      assert Run(s, es) == s by { NoEvents(s); }
      HostsNone();
    } else {
      var less := CanHost(n - 1);
      HostsOneMore(Run(s, less), n - 1);
      assert Core(s) by { InitSteady(Settings(), 0); }
      es := Continue(s, less, Announce(0, P(n - 1), 0));
    }
  }

  // ----- The checkpoint

  lemma {:induction false} DistinctIn<T>(xs: seq<T>)
    ensures |set x | x in xs| <= |xs|
  {
    if xs != [] {
      var m := |xs| - 1;
      DistinctIn(xs[..m]);
      assert (set x | x in xs) == (set x | x in xs[..m]) + {xs[m]} by { assert xs == xs[..m] + [xs[m]]; }
    }
  }

  lemma ManyWithheld(s: State)
    requires Hosting(s, MANY)
    ensures |Withheld(s)| >= MANY
  {
    hide Core, Steady, Quiet, P, Names, Leftover;
    NamesCount(MANY);
    var ws := Withheld(s);
    forall p | p in Names(MANY) ensures p in ws {
      var i := RouteAt(s.routes, p);
      assert Routed(s.routes)[i] == p;
      assert ws[i] == p;
    }
    SubsetSize(Names(MANY), set p | p in ws);
    DistinctIn(ws);
  }

  /** A live engine, reached from initialisation, whose own image is refused under
      its own configuration. */
  lemma SavedButLost() returns (es: seq<Event>)
    ensures var s := Run(Init(Settings(), 0), es); !s.stopped && Restore(s.cfg, Image(s)) == (Invalid, None)
  {
    hide Core, Run, Settings, P, Withheld, Restore, Image, Quiet, Steady, Names, Used;
    es := CanHost(MANY);
    var s := Run(Init(Settings(), 0), es);
    ManyWithheld(s);
    RestoreIsExact(s);
  }
}
