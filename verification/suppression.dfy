/** Suppression continuity (section 3.5.4 of RFC 8966): a prefix that was
    reachable leaves the table only after a full hold time as unreachable. */
module Suppression {
  import opened Types
  import opened Prefixes
  import opened Wire
  import opened EngineState
  import opened Engine
  import opened EngineEvents
  import opened Selection
  import opened Invariant
  import opened Settled
  import opened Query
  import opened Packets
  import opened Runs
  import opened RunLimits

  /** Until time t the prefix is held: it is selected, or a suppression record
      that lasts at least that long stands in for it. */
  ghost predicate HeldAt(s: State, now: nat, p: Prefix, t: nat) {
    && t <= now + Hold(s.cfg.update)
    && (t <= now || Reachable(s.routes, p) || (DropFor(s.drops, p).Some? && DropFor(s.drops, p).value.expires >= t))
  }

  ghost predicate Held(s: State, p: Prefix, t: nat) {
    HeldAt(s, s.now, p, t)
  }

  /** Between calls, what is held is in the table. */
  ghost predicate Shown(s: State, p: Prefix, t: nat) {
    Held(s, p, t) && (s.now < t ==> RouteFor(s.routes, p).Some?)
  }

  /** Before selection, a freshly originated prefix is held by its local entry. */
  ghost predicate HeldOrLocal(s: State, p: Prefix, t: nat) {
    Held(s, p, t) || (t <= s.now + Hold(s.cfg.update) && HasLocal(s.locals, p))
  }

  lemma LocalIsChosen(s: State, p: Prefix)
    requires HasLocal(s.locals, p)
    ensures Choice(s, p).Some?
  {
    hide Best;
  }

  lemma SelectHolds(s: State, p: Prefix, t: nat)
    requires Core(s) && HeldOrLocal(s, p, t) && !s.stopped && !SelectRoutes(s).stopped
    ensures Shown(SelectRoutes(s), p, t)
  {
    hide Core, SelectRoutes, StrictlySorted, Partial;
    CoreShape(s);
    SelectMeetsSpec(s);
    var r := SelectRoutes(s);
    assert RouteFor(r.routes, p) == Entry(s, p) && DropFor(r.drops, p) == Remaining(s, p);
    if Choice(s, p).Some? { ChoiceIsReachable(s, p); }
    if HasLocal(s.locals, p) { LocalIsChosen(s, p); }
  }

  // ----- Through an event

  lemma HeldAlone(s: State, r: State, p: Prefix, t: nat)
    requires Held(s, p, t) && r.now == s.now && r.cfg == s.cfg && r.routes == s.routes && r.drops == s.drops
    ensures Held(r, p, t)
  {
  }

  lemma AnswerRequestHolds(s: State, li: nat, target: Option<Prefix>, p: Prefix, t: nat)
    requires Core(s) && Held(s, p, t) && !s.stopped && li < |s.links| && s.links[li].Some?
    ensures var r := AnswerRequest(s, li, target); !r.stopped ==> Held(r, p, t)
  {
    hide Core, SelectRoutes, Advertise, Dump, Held;
    var r := AnswerRequest(s, li, target);
    if !SelectRoutes(s).stopped {
      SelectHolds(s, p, t);
      HeldAlone(SelectRoutes(s), r, p, t);
    }
  }

  lemma BumpHolds(s: State, from: u64, q: Prefix, p: Prefix, t: nat)
    requires Core(s) && Held(s, p, t) && !s.stopped
    ensures var r := Bump(s, from, q); !r.stopped ==> Held(r, p, t)
  {
    hide Core, SelectRoutes, Advertise, Held;
    var s1 := s.(seqno := (s.seqno + 1) % 0x1_0000);
    CoreIgnoresMemory(s, s1);
    HeldAlone(s, s1, p, t);
    if !SelectRoutes(s1).stopped {
      SelectHolds(s1, p, t);
      HeldAlone(SelectRoutes(s1), Bump(s, from, q), p, t);
    }
  }

  lemma AnswerSeqRequestHolds(s: State, from: u64, m: Message, p: Prefix, t: nat)
    requires Core(s) && Held(s, p, t) && !s.stopped && m.SeqRequest? && m.target.Some?
    ensures var r := AnswerSeqRequest(s, from, m); !r.stopped ==> Held(r, p, t)
  {
    hide Core, Advertise, Forward, Bump, Held;
    HeldAlone(s, Advertise(s, from, m.target.value, true), p, t);
    HeldAlone(s, Forward(s, from, m), p, t);
    BumpHolds(s, from, m.target.value, p, t);
  }

  lemma SeqRequestHolds(s: State, from: u64, m: Message, p: Prefix, t: nat)
    requires Core(s) && Held(s, p, t) && !s.stopped && m.SeqRequest? && m.target.Some?
    ensures var r := AnswerSeqRequest(SelectRoutes(s), from, m); !r.stopped ==> Held(r, p, t)
  {
    hide Core, SelectRoutes, AnswerSeqRequest, Held;
    SelectKeeps(s);
    var u := SelectRoutes(s);
    if u.stopped {
      Admission.StoppedAnswers(u, from, m);
    } else {
      SelectHolds(s, p, t);
      AnswerSeqRequestHolds(u, from, m, p, t);
    }
  }

  lemma ReceiveMessageHolds(s: State, li: nat, m: Message, p: Prefix, t: nat)
    requires Core(s) && Held(s, p, t) && !s.stopped && li < |s.links| && s.links[li].Some? && Delivered(m)
    ensures var r := ReceiveMessage(s, li, m); !r.stopped ==> Held(r, p, t)
  {
    hide Core, Held, SelectRoutes, LearnUpdate, AnswerRequest, AnswerSeqRequest, Queue, HearNeighbour;
    var l := s.links[li].value;
    if !(s.cfg.localOnly && m.SeqRequest? && m.router != s.cfg.router) {
      match m
      case RouteRequest(target) => AnswerRequestHolds(s, li, target, p, t);
      case SeqRequest(target, _, _, _) => SeqRequestHolds(s, l.config.id, m, p, t);
      case _ => HeldAlone(s, ReceiveMessage(s, li, m), p, t);
    }
  }

  lemma {:induction false} ReceiveAllHolds(s: State, li: nat, ms: seq<Message>, p: Prefix, t: nat)
    requires Core(s) && Held(s, p, t) && !s.stopped && li < |s.links| && s.links[li].Some? && forall m :: m in ms ==> Delivered(m)
    ensures var r := ReceiveAll(s, li, ms); !r.stopped ==> Held(r, p, t)
    decreases |ms|
  {
    hide Core, Held, ReceiveMessage, Delivered;
    if ms != [] {
      ReceiveMessageHolds(s, li, ms[0], p, t);
      ReceiveMessageKeeps(s, li, ms[0]);
      var u := ReceiveMessage(s, li, ms[0]);
      if u.stopped { Admission.StoppedReceives(u, li, ms[1..]); } else { ReceiveAllHolds(u, li, ms[1..], p, t); }
    }
  }

  lemma TakeHolds(s: State, id: u64, data: seq<byte>, p: Prefix, t: nat)
    requires Core(s) && Held(s, p, t) && !s.stopped
    ensures var r := Take(s, id, data); !r.stopped ==> Held(r, p, t)
  {
    hide Core, Held, Decode, ReceiveAll, Delivered;
    var li := LinkAt(s.links, id);
    if li < |s.links| {
      var l := s.links[li].value.config;
      var ms := Decode(data, l.peer);
      if ms.Some? {
        forall m | m in ms.value ensures Delivered(m) { DecodeDelivers(data, l.peer, m); }
        ReceiveAllHolds(s, li, ms.value, p, t);
      }
    }
  }

  lemma WokenHolds(s: State, now: nat, p: Prefix, t: nat)
    requires HeldAt(s, now, p, t) && Begin(s, now).0.Ok?
    ensures Held(Begin(s, now).1, p, t)
  {
    hide Begin;
    WokenTables(s, now);
  }

  lemma HeldLater(s: State, now: nat, p: Prefix, t: nat)
    requires Held(s, p, t) && s.now <= now
    ensures HeldAt(s, now, p, t)
  {
  }

  /** Originating p forgets its suppression record, but then p is local. */
  lemma OriginateHolds(s: State, now: nat, q: Prefix, metric: u16, p: Prefix, t: nat)
    requires Core(s) && HeldAt(s, now, p, t) && Originate(s, now, q, metric).0.Ok?
    ensures HeldOrLocal(Originate(s, now, q, metric).1, p, t)
  {
    hide Begin, Core, Routable, Recordable, LocalSlot, HeldAt;
    LocalSlotPads(s, q);
    var (slot, u) := LocalSlot(s, q);
    PaddedKeeps(s, u);
    assert HeldAt(u, now, p, t) by { HeldPadded(s, u, now, p, t); }
    WokenHolds(u, now, p, t);
    BeginKeeps(u, now);
    WokenTables(u, now);
    PlantHolds(Begin(u, now).1, slot.value, q, metric, p, t);
  }

  lemma HeldPadded(s: State, u: State, now: nat, p: Prefix, t: nat)
    requires HeldAt(s, now, p, t) && Padded(s, u)
    ensures HeldAt(u, now, p, t)
  {
  }

  /** A new local entry lifts the suppression of its own prefix only. */
  lemma PlantHolds(v: State, k: nat, q: Prefix, metric: u16, p: Prefix, t: nat)
    requires Core(v) && k < |v.locals| && Held(v, p, t)
    ensures HeldOrLocal(v.(locals := v.locals[k := Some(Local(q, metric))], drops := ForgetDrop(v.drops, q)), p, t)
  {
    hide Core;
    var r := v.locals[k := Some(Local(q, metric))];
    if p == q {
      assert r[k] in r;
    } else {
      CoreShape(v);
      ForgetOther(v.drops, q, p);
    }
  }

  lemma ForgetOther(drops: seq<Option<Drop>>, q: Prefix, p: Prefix)
    requires DistinctDrops(drops) && p != q
    ensures DropFor(ForgetDrop(drops, q), p) == DropFor(drops, p)
  {
    var r := ForgetDrop(drops, q);
    var i, j := DropAt(drops, p), DropAt(r, p);
    assert i < |drops| ==> r[i] == drops[i];
    assert j < |r| ==> r[j] == drops[j];
  }

  lemma PrepareHolds(s: State, e: Event, p: Prefix, t: nat)
    requires Core(s) && Timed(e) && HeldAt(s, e.now, p, t) && Prepare(s, e).0.Ok?
    ensures var r := Prepare(s, e).1; !r.stopped ==> HeldOrLocal(r, p, t)
  {
    hide Core, Held, Begin, Originate, Detach, Reprice, Retire, Take, Queue, FreeSlot;
    if e.Attach? {
      var (slot, links, asks) := FreeSlot(s.cfg, s.mem.asks, s.links, s.cfg.limits.links);
      var u := Asked(s, asks).(links := links);
      WokenHolds(u, e.now, p, t);
      HeldAlone(Begin(u, e.now).1, Prepare(s, e).1, p, t);
    } else if e.Announce? {
      OriginateHolds(s, e.now, e.prefix, e.metric, p, t);
    } else {
      WokenHolds(s, e.now, p, t);
      if e.Arrive? {
        BeginKeeps(s, e.now);
        WokenTables(s, e.now);
        TakeHolds(Begin(s, e.now).1, e.id, e.data, p, t);
      } else if !e.Wake? {
        UncountedFrame(Begin(s, e.now).1, e);
        HeldAlone(Begin(s, e.now).1, Prepare(s, e).1, p, t);
      }
    }
  }

  lemma UncountedFrame(s: State, e: Event)
    requires e.Unlink? || (e.Recost? && e.cost != 0) || e.Retreat?
    ensures var r := match e case Unlink(_, id) => Detach(s, id) case Recost(_, id, cost) => Reprice(s, id, cost) case Retreat(_, q) => Retire(s, q);
            r.now == s.now && r.cfg == s.cfg && r.routes == s.routes && r.drops == s.drops
  {
  }

  lemma FinishHolds(s: State, p: Prefix, t: nat)
    requires Core(s) && HeldOrLocal(s, p, t) && !s.stopped && !Finish(s).0.Stopped?
    ensures Shown(Finish(s).1, p, t)
  {
    hide Core, SelectRoutes, Timers, Collect, Finish, HeldOrLocal, Followed;
    FinishStages(s);
    SelectHolds(s, p, t);
    SelectKeeps(s);
    FinishFollowed(s);
    var r1, r := SelectRoutes(s), Finish(s).1;
    CollectSameEntries(Timers(r1).(before := []));
    CoreShape(r1);
    CoreShape(r);
    ReorderedDrops(r1.drops, r.drops, p);
  }

  /** One call: what was shown until t stays shown until t. */
  lemma ApplyHolds(s: State, e: Event, p: Prefix, t: nat)
    requires Core(s) && Shown(s, p, t) && !Apply(s, e).state.stopped
    ensures Shown(Apply(s, e).state, p, t)
  {
    hide Core, Prepare, Finish, NextPacket, RequestPrefix, Commit, HeldOrLocal;
    if Timed(e) {
      var (st, u) := Prepare(s, e);
      if st.Ok? {
        PreparedTime(s, e);
        FinishGrows(u);
        HeldLater(s, e.now, p, t);
        TimedHolds(s, e, p, t);
      } else {
        RefusedPads(s, e);
      }
    } else {
      UntimedFrame(s, e);
    }
  }

  /** An accepted event moves the clock forward to its own time and keeps it. */
  lemma PreparedTime(s: State, e: Event)
    requires Timed(e) && Prepare(s, e).0.Ok?
    ensures s.now <= e.now == Prepare(s, e).1.now && Prepare(s, e).1.cfg == s.cfg
  {
    hide ReceiveAll, Decode, FreeSlot, Queue, Routable, Valid, Attachable, Recordable, ForgetDrop, Expire, LocalSlot;
  }

  lemma FinishTime(s: State)
    ensures Finish(s).1.now == s.now
  {
    hide SelectRoutes, Timers, Collect;
  }

  lemma TimedHolds(s: State, e: Event, p: Prefix, t: nat)
    requires Core(s) && Timed(e) && HeldAt(s, e.now, p, t) && Prepare(s, e).0.Ok? && !Finish(Prepare(s, e).1).0.Stopped?
    ensures Shown(Finish(Prepare(s, e).1).1, p, t)
  {
    hide Core, Prepare, Finish, HeldAt, Shown, HeldOrLocal;
    var u := Prepare(s, e).1;
    PrepareHolds(s, e, p, t);
    PrepareKeeps(s, e);
    if u.stopped { StoppedFinish(u); } else { FinishHolds(u, p, t); }
  }

  lemma UntimedFrame(s: State, e: Event)
    requires !Timed(e)
    ensures var r := Apply(s, e).state; r == s.(msgs := r.msgs, mem := r.mem, ctl := r.ctl, stopped := r.stopped)
    ensures Apply(s, e).packet.Some? ==> !Apply(s, e).state.stopped
  {
    hide Fill, QueueAll, AttachedLinks, Routable, Reserve;
  }

  lemma {:induction false} RunHolds(s: State, es: seq<Event>, p: Prefix, t: nat)
    requires Core(s) && Shown(s, p, t) && !Run(s, es).stopped
    ensures Shown(Run(s, es), p, t)
    decreases |es|
  {
    hide Core, Apply, Shown;
    if es != [] {
      var u := Apply(s, es[0]).state;
      if u.stopped {
        StoppedForever(u, es[1..]);
      } else {
        ApplyHolds(s, es[0], p, t);
        ApplyKeeps(s, es[0]);
        RunHolds(u, es[1..], p, t);
      }
    }
  }

  /** If p was reachable before some call, then in every later state of a live
      run less than a hold time (3.5 update intervals) after that call, p is in
      the table, reachable or unreachable. So p can vanish only after a hold
      time without reachability, and is shown as unreachable all that while. */
  lemma SuppressionContinuity(s: State, e: Event, es: seq<Event>, p: Prefix)
    requires Core(s) && Reachable(s.routes, p) && !Run(Apply(s, e).state, es).stopped
    ensures var lost := Apply(s, e).state.now;
            var r := Run(Apply(s, e).state, es);
            r.now < lost + Hold(r.cfg.update) ==> RouteFor(r.routes, p).Some?
  {
    hide Core, Apply, Run;
    var u := Apply(s, e).state;
    var t := u.now + Hold(s.cfg.update);
    if u.stopped {
      StoppedForever(u, es);
    } else {
      LossIsHeld(s, e, p);
      ApplyKeeps(s, e);
      RunHolds(u, es, p, t);
      RunStaysConfigured(u, es);
    }
  }

  lemma {:induction false} RunStaysConfigured(s: State, es: seq<Event>)
    ensures Run(s, es).cfg == s.cfg
    decreases |es|
  {
    hide Apply;
    if es != [] {
      ApplyConfigured(s, es[0]);
      RunStaysConfigured(Apply(s, es[0]).state, es[1..]);
    }
  }

  lemma ApplyConfigured(s: State, e: Event)
    ensures Apply(s, e).state.cfg == s.cfg
  {
    hide Prepare, Finish, NextPacket, RequestPrefix, Padded;
    if Timed(e) {
      if Prepare(s, e).0.Ok? {
        PreparedTime(s, e);
        FinishGrows(Prepare(s, e).1);
      } else {
        RefusedPads(s, e);
        PaddedFrame(s, Prepare(s, e).1);
      }
    } else {
      UntimedFrame(s, e);
    }
  }

  lemma LossIsHeld(s: State, e: Event, p: Prefix)
    requires Core(s) && Reachable(s.routes, p) && !Apply(s, e).state.stopped
    ensures var r := Apply(s, e).state; r.cfg == s.cfg && Shown(r, p, r.now + Hold(r.cfg.update))
  {
    hide Core, Prepare, Finish, NextPacket, RequestPrefix, Commit;
    if Timed(e) {
      var (st, u) := Prepare(s, e);
      if st.Ok? {
        PreparedTime(s, e);
        FinishGrows(u);
        FinishTime(u);
        TimedHolds(s, e, p, e.now + Hold(s.cfg.update));
      } else {
        RefusedPads(s, e);
      }
    } else {
      UntimedFrame(s, e);
    }
  }
}
