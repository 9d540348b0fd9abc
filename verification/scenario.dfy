/** Uneventful events: what a completed event leaves behind when nothing was lost,
    asked for or suppressed. With these, engines that a run from initialisation
    reaches can be described exactly. */
module Scenario {
  import opened Types
  import opened EngineState
  import opened Engine
  import opened EngineEvents
  import opened Selection
  import opened Invariant
  import opened Limits
  import opened Settled
  import opened Packets
  import opened Runs
  import opened RunLimits
  import opened Deadline
  import opened DeadlineRuns
  import Storage

  // ----- Selection

  /** Nothing is suppressed or asked for, and nothing selected is about to be. */
  ghost predicate Plain(t: State) {
    && Core(t) && !t.stopped && t.drops == [] && t.requests == []
    && forall p :: Reachable(t.routes, p) ==> Choice(t, p).Some?
  }

  lemma NothingKept(s: State, b: Build)
    ensures KeepDrops(s, b, [], 0) == (true, b, [])
  {
  }

  lemma PlainStage2(t: State)
    requires Plain(t) && !SelectRoutes(t).stopped
    ensures var r := Stage2(t); r == t.(routes := r.routes, mem := r.mem) && Sorted(r.routes) == SelectRoutes(t).routes
  {
    hide Core, SelectRoutes, SuppressLost, KeepDrops, Chosen, Publish, Sorted, Choice;
    SelectStages(t);
    CoreShape(t);
    ChosenMeetsSpec(t, t.routes, Start(t));
    var t1 := Stage1(t);
    forall k | 0 <= k < |t.routes| && !t.routes[k].unreachable ensures RouteFor(t1.routes, t.routes[k].prefix).Some? {
      RouteIsFor(t.routes, t.routes[k]);
      assert Reachable(t.routes, t.routes[k].prefix);
      TabledChoice(t, t1.routes, t.routes[k].prefix);
    }
    NothingLost(t1, t.routes, 0);
    NothingKept(t1, Build(t1.routes, t1.mem.routes, t1.mem.asks));
    PublishRoutes(Stage2(t), t.routes);
  }

  /** Such a selection touches the table and the pace only. */
  lemma PlainSelect(t: State)
    requires Plain(t) && !SelectRoutes(t).stopped
    ensures var r := SelectRoutes(t);
            && r == t.(routes := r.routes, mem := r.mem, pace := r.pace)
            && r.pace == NoteChanges(t.(routes := r.routes), t.routes, 0).pace
            && SelectionOf(t, r.routes, [])
  {
    hide Core, SelectRoutes, Stage2, NoteChanges, Sorted, Choice, SelectionOf;
    SelectStages(t);
    PlainStage2(t);
    CoreShape(t);
    SelectMeetsSpec(t);
    var t2 := Stage2(t);
    var t3 := t2.(routes := Sorted(t2.routes));
    NotedAlone(t3, t.(routes := t3.routes), t.routes, 0);
  }

  /** What is noted depends on tables, clock and pace alone. */
  lemma {:induction false} NotedAlone(s: State, t: State, prior: seq<Route>, i: nat)
    requires i <= |s.routes| && t == s.(mem := t.mem)
    ensures NoteChanges(t, prior, i).pace == NoteChanges(s, prior, i).pace
    decreases |s.routes| - i
  {
    hide Trigger, RouteFor;
    if i < |s.routes| {
      var r := s.routes[i];
      var was := RouteFor(prior, r.prefix);
      if was.None? || was.value.router != r.router || was.value.unreachable != r.unreachable {
        TriggerAlone(s, t, true);
        NotedAlone(Trigger(s, true), Trigger(t, true), prior, i + 1);
      } else if was.value.metric != r.metric || was.value.seqno != r.seqno {
        TriggerAlone(s, t, false);
        NotedAlone(Trigger(s, false), Trigger(t, false), prior, i + 1);
      } else {
        NotedAlone(s, t, prior, i + 1);
      }
    }
  }

  lemma TriggerAlone(s: State, t: State, repeat: bool)
    requires t == s.(mem := t.mem)
    ensures Trigger(t, repeat) == Trigger(s, repeat).(mem := t.mem)
  {
  }

  /** A scheduled update stays scheduled; a new one comes one jitter later. */
  ghost predicate Paced(s: State, pace: Pace) {
    if s.pace.on then pace.on && pace.at == s.pace.at
    else pace.on ==> pace.at == s.now + Jitter(s, 50)
  }

  lemma {:induction false} NotedPace(s: State, prior: seq<Route>, i: nat)
    requires i <= |s.routes|
    ensures Paced(s, NoteChanges(s, prior, i).pace)
    decreases |s.routes| - i
  {
    if i < |s.routes| {
      NotedPace(s, prior, i + 1);
      NotedPace(Trigger(s, true), prior, i + 1);
      NotedPace(Trigger(s, false), prior, i + 1);
    }
  }

  lemma {:induction false} NotedStays(s: State, prior: seq<Route>, i: nat)
    requires i <= |s.routes| && s.pace.on
    ensures NoteChanges(s, prior, i).pace.on && NoteChanges(s, prior, i).pace.at == s.pace.at
  {
    NotedPace(s, prior, i);
  }

  /** A first table is worth an update. */
  lemma FirstNoted(s: State)
    requires s.routes != []
    ensures NoteChanges(s, [], 0).pace.on
  {
    hide NoteChanges;
    NotedFirst(s);
    NotedStays(Trigger(s, true), [], 1);
  }

  lemma NotedFirst(s: State)
    requires s.routes != []
    ensures NoteChanges(s, [], 0) == NoteChanges(Trigger(s, true), [], 1)
  {
    hide Trigger;
  }

  lemma {:induction false} SuppressLostPace(s: State, prior: seq<Route>, i: nat)
    requires i <= |prior| && s.pace.on
    ensures SuppressLost(s, prior, i).pace.on && SuppressLost(s, prior, i).pace.at == s.pace.at
    decreases |prior| - i
  {
    hide DropRoute, Seek, RouteFor;
    if i < |prior| {
      if !prior[i].unreachable && RouteFor(s.routes, prior[i].prefix).None? {
        SuppressLostPace(Suppress(s, prior[i]), prior, i + 1);
      } else {
        SuppressLostPace(s, prior, i + 1);
      }
    }
  }

  /** No selection moves a scheduled update. */
  lemma SelectPace(s: State)
    requires !s.stopped && !SelectRoutes(s).stopped && s.pace.on
    ensures SelectRoutes(s).pace.on && SelectRoutes(s).pace.at == s.pace.at
  {
    hide SelectRoutes, Chosen, SuppressLost, KeepDrops, NoteChanges, SatisfyRequests, Sorted, Reserve;
    SelectStages(s);
    SuppressLostPace(Stage1(s), s.routes, 0);
    var t2 := Stage2(s);
    NotedStays(t2.(routes := Sorted(t2.routes)), s.routes, 0);
  }

  // ----- Timers

  /** No candidate is near the end of its life. */
  ghost predicate Young(cands: seq<Option<Candidate>>, now: nat) {
    forall c :: Some(c) in cands ==> c.expires - now > c.interval
  }

  lemma HelloPace(s: State, i: nat)
    requires i < |s.links| && s.links[i].Some?
    ensures var r := HelloTimer(s, i); r.pace == s.pace.(draws := r.pace.draws)
  {
    hide Queue, Jitter;
  }

  lemma IhuPace(s: State, i: nat)
    requires i < |s.links| && s.links[i].Some?
    ensures var r := IhuTimer(s, i); r.pace == s.pace.(draws := r.pace.draws)
  {
    hide Queue, Jitter;
  }

  lemma UpdatePace(s: State, i: nat)
    requires i < |s.links| && s.links[i].Some?
    ensures var r := UpdateTimer(s, i); r.pace == s.pace.(draws := r.pace.draws)
  {
    hide Dump, Jitter;
  }

  lemma {:induction false} LinkTimersPace(s: State, i: nat)
    requires i <= |s.links|
    ensures LinkTimers(s, i).pace == s.pace.(draws := LinkTimers(s, i).pace.draws)
    decreases |s.links| - i
  {
    hide HelloTimer, IhuTimer, UpdateTimer;
    if i < |s.links| && s.links[i].Some? {
      var t := HelloTimer(s, i);
      HelloPace(s, i);
      var u := if t.links[i].Some? then IhuTimer(t, i) else t;
      if t.links[i].Some? { IhuPace(t, i); }
      var v := if u.links[i].Some? then UpdateTimer(u, i) else u;
      if u.links[i].Some? { UpdatePace(u, i); }
      LinkTimersPace(v, i + 1);
    } else if i < |s.links| {
      LinkTimersPace(s, i + 1);
    }
  }

  /** Only the links' own timers have anything to do. */
  lemma PlainTimers(r: State)
    requires r.requests == [] && Young(r.cands, r.now) && (r.pace.on ==> r.pace.at > r.now)
    ensures Timers(r) == LinkTimers(r, 0)
  {
    hide LinkTimers, DumpLinks, RefreshTimers;
    LinkTimersPace(r, 0);
    var v := LinkTimers(r, 0);
    forall k | 0 <= k < |v.cands| && v.cands[k].Some? ensures !NeedsRefresh(v.routes, v.now, v.cands[k].value) { assert v.cands[k] in v.cands; }
    RefreshTimersIdle(v, 0);
  }

  // ----- Collection

  predicate Full<T>(t: seq<Option<T>>) {
    forall i :: 0 <= i < |t| ==> t[i].Some?
  }

  lemma FullStays<T(!new)>(cfg: Config, asks: nat, t: seq<Option<T>>)
    requires Full(t)
    ensures CollectTable(cfg, asks, t).0 == t
  {
    Storage.LiveFixed(t);
    assert |t| > 0 ==> |t| / 2 < |t|;
    assert Pad(t, |t|) == t;
  }

  lemma CollectFull(s: State)
    requires Full(s.links) && Full(s.cands) && Full(s.sources) && Full(s.locals) && s.drops == [] && s.requests == []
    ensures Collect(s) == s.(mem := Collect(s).mem)
  {
    hide CollectTable, CollectCap;
    var (links, a1) := CollectTable(s.cfg, s.mem.asks, s.links);
    var (cands, a2) := CollectTable(s.cfg, a1, s.cands);
    var (sources, a3) := CollectTable(s.cfg, a2, s.sources);
    var (locals, a4) := CollectTable(s.cfg, a3, s.locals);
    var (drops, a5) := CollectTable(s.cfg, a4, s.drops);
    FullStays(s.cfg, s.mem.asks, s.links);
    FullStays(s.cfg, a1, s.cands);
    FullStays(s.cfg, a2, s.sources);
    FullStays(s.cfg, a3, s.locals);
    FullStays(s.cfg, a4, s.drops);
    FullStays(s.cfg, a5, s.requests);
  }

  // ----- The whole event

  ghost predicate AlwaysGranted(cfg: Config) {
    forall k :: cfg.grant(k)
  }

  lemma GrantedSelects(t: State)
    requires Core(t) && !t.stopped && Bounded(t) && AlwaysGranted(t.cfg)
    ensures !SelectRoutes(t).stopped
  {
    hide Core, SelectRoutes, Bounded, InSet;
    SelectFits(t);
  }

  /** Finishing a plain event: the table is selected, the links' timers run, and
      every other table stays as it is. */
  lemma PlainFinish(t: State)
    requires Plain(t) && Bounded(t) && AlwaysGranted(t.cfg) && Young(t.cands, t.now)
    requires (t.pace.on ==> t.pace.at > t.now) && Jitter(t, 50) > 0
    ensures var r1, r := SelectRoutes(t), Finish(t).1;
            var v := LinkTimers(r1, 0);
            && !r1.stopped && r1 == t.(routes := r1.routes, mem := r1.mem, pace := r1.pace)
            && SelectionOf(t, r1.routes, []) && Paced(t, r1.pace) && r1.pace == NoteChanges(t.(routes := r1.routes), t.routes, 0).pace
            && r == Collect(v.(before := [])).(ctl := r.ctl)
            && (if t.before != r1.routes then Finish(t).0.Changed? && r.ctl == t.ctl.(revision := t.ctl.revision + 1, pending := t.ctl.revision + 1)
                else Finish(t).0.Ok? && r.ctl == t.ctl.(ready := true))
  {
    hide Core, SelectRoutes, LinkTimers, Collect, SelectionOf, NoteChanges, Choice, Bounded, Young, Timers;
    GrantedSelects(t);
    PlainSelect(t);
    var r1 := SelectRoutes(t);
    NotedPace(t.(routes := r1.routes), t.routes, 0);
    PlainTimers(r1);
  }

  // ----- Between events

  lemma {:induction false} RunJoins(s: State, a: seq<Event>, b: seq<Event>)
    ensures Run(s, a + b) == Run(Run(s, a), b)
    decreases |a|
  {
    hide Apply;
    if a == [] {
      assert a + b == b;
    } else {
      assert (a + b)[1..] == a[1..] + b;
      RunJoins(Apply(s, a[0]).state, a[1..], b);
    }
  }

  /** Sending until nothing is left. */
  lemma {:induction false} CanDrain(s: State) returns (es: seq<Event>)
    requires Core(s) && !s.stopped && s.ctl.pending == 0 && s.ctl.ready
    ensures Untimed(es)
    ensures var x := Run(s, es); !x.stopped && x.ctl.pending == 0 && x.ctl.ready && x.ctl.cursor >= |x.msgs|
    decreases |s.msgs| - s.ctl.cursor
  {
    hide Core, NextPacket;
    if s.ctl.cursor >= |s.msgs| {
      es := [];
    } else {
      assert Sending(s) by { CoreMsgs(s); }
      PacketIsBatch(s, PACKET_MAX);
      ApplyKeeps(s, Send(PACKET_MAX));
      var t := NextPacket(s, PACKET_MAX).2;
      var rest := CanDrain(t);
      es := [Send(PACKET_MAX)] + rest;
      assert es[1..] == rest;
    }
  }

  /** Ready for the next event. */
  ghost predicate Free(s: State) {
    !s.stopped && s.ctl.pending == 0 && s.ctl.ready && s.ctl.cursor >= |s.msgs|
  }

  /** A completed event is committed and its output drained. */
  lemma CanRest(s: State) returns (es: seq<Event>)
    requires Core(s) && !s.stopped && (s.ctl.pending != 0 || s.ctl.ready)
    ensures Untimed(es) && Free(Run(s, es)) && Core(Run(s, es))
    ensures var x := Run(s, es); x == s.(msgs := x.msgs, mem := x.mem, ctl := x.ctl)
  {
    hide Core, Apply;
    if s.ctl.pending != 0 {
      var e := Runs.Event.Settle(s.ctl.pending, true);
      Committed(s);
      ApplyKeeps(s, e);
      var rest := CanDrain(Apply(s, e).state);
      es := [e] + rest;
      assert es[1..] == rest;
    } else {
      es := CanDrain(s);
    }
    UntimedRun(s, es);
    RunKeeps(s, es);
  }

  lemma Committed(t: State)
    requires !t.stopped && t.ctl.pending != 0
    ensures Apply(t, Runs.Event.Settle(t.ctl.pending, true)).state == t.(ctl := t.ctl.(pending := 0, ready := true))
  {
    hide Prepare, NextPacket, RequestPrefix;
  }

  /** An event at the current time finds its tables as they were. */
  lemma WakesAtOnce(s: State)
    requires Core(s) && Free(s) && AlwaysGranted(s.cfg) && s.now <= LATEST && |s.routes| <= s.cfg.limits.routes
    ensures var (st, u) := Begin(s, s.now);
            && st.Ok? && Core(u) && u == s.(mem := u.mem, before := s.routes, msgs := [], ctl := s.ctl.(cursor := 0, ready := false))
  {
    hide Core, Expire;
    assert Begin(s, s.now).0.Ok?;
    NothingYet(s);
    WokenUnchanged(s, s.now);
    BeginKeeps(s, s.now);
    BeginControl(s, s.now);
  }

  lemma BeginControl(s: State, now: nat)
    requires Begin(s, now).0.Ok?
    ensures Begin(s, now).1.ctl == s.ctl.(cursor := 0, ready := false) && Begin(s, now).1.pace == s.pace
  {
    hide Expire;
  }

  lemma NothingYet(s: State)
    ensures Undue(s, s.now)
  {
  }

  /** x is t once its change is committed and its output sent. */
  ghost predicate Resting(t: State, x: State) {
    Core(x) && Free(x) && x == t.(msgs := x.msgs, mem := x.mem, ctl := x.ctl)
  }

  lemma QuietAlone(t: State, x: State)
    requires Quiet(t) && x == t.(msgs := x.msgs, mem := x.mem, ctl := x.ctl)
    ensures Quiet(x)
  {
    hide LinkQuiet, PendingQuiet, NeedsRefresh, Unanswered;
  }

  lemma NoEvents(s: State)
    ensures Run(s, []) == s
  {
  }

  /** One more timed event, and back to rest. */
  lemma Continue(s: State, es: seq<Event>, e: Event) returns (more: seq<Event>)
    requires Timed(e) && Core(s)
    requires var t := Apply(Run(s, es), e).state; !t.stopped && (t.ctl.pending != 0 || t.ctl.ready)
    ensures var t := Apply(Run(s, es), e).state;
            Resting(t, Run(s, more))
  {
    hide Core, Apply, Free;
    var r := Run(s, es);
    var t := Apply(r, e).state;
    RunKeeps(s, es);
    ApplyKeeps(r, e);
    var rest := CanRest(t);
    more := es + ([e] + rest);
    RunJoins(s, es, [e] + rest);
    assert ([e] + rest)[1..] == rest;
  }
}
