/** Transactional export: packets leave only while the selected table is the one
    the host has installed. */
module Export {
  import opened Types
  import opened Prefixes
  import opened Wire
  import opened EngineState
  import opened Engine
  import opened EngineEvents
  import opened Packets
  import opened Runs
  import opened RunLimits

  /** The table the host holds after a run: it takes over the engine's table at
      every commit that succeeds and starts from `table`. */
  function Host(s: State, table: seq<Route>, es: seq<Event>): (r: seq<Route>)
    decreases |es|
  {
    if es == [] then table
    else Host(Apply(s, es[0]).state, Taken(s, table, es[0]), es[1..])
  }

  function Taken(s: State, table: seq<Route>, e: Event): (r: seq<Route>) {
    if e.Settle? && e.success && Apply(s, e).status.Ok? then s.routes else table
  }

  /** A live engine either waits for a commit and keeps silent, or shows the
      host's table. */
  predicate InStep(s: State, table: seq<Route>) {
    !s.stopped ==> if s.ctl.pending == 0 then s.ctl.ready && s.routes == table else !s.ctl.ready && s.ctl.pending == s.ctl.revision
  }

  /** An accepted event found the engine committed and drained, and remembers
      the table it started from. */
  lemma PreparedFrom(s: State, e: Event)
    requires Timed(e) && Prepare(s, e).0.Ok?
    ensures !s.stopped && s.ctl.pending == 0 && s.ctl.cursor >= |s.msgs|
    ensures var t := Prepare(s, e).1;
            t.before == s.routes && t.ctl == s.ctl.(cursor := 0, ready := false)
  {
    hide ReceiveAll, Decode, FreeSlot, Queue, Routable, Valid, Attachable, Recordable, ForgetDrop, Expire, LocalSlot;
  }

  lemma FinishInStep(s: State)
    requires s.ctl.pending == 0 && !Finish(s).0.Stopped?
    ensures var (st, r) := Finish(s);
            && (st.Ok? ==> r.ctl.pending == 0 && r.ctl.ready && r.routes == s.before)
            && (st.Changed? ==> r.ctl == s.ctl.(revision := s.ctl.revision + 1, pending := s.ctl.revision + 1))
            && (st.Ok? || st.Changed?)
  {
    hide SelectRoutes, Timers, Collect;
  }

  lemma ApplyInStep(s: State, table: seq<Route>, e: Event)
    requires InStep(s, table)
    ensures InStep(Apply(s, e).state, Taken(s, table, e))
  {
    hide Prepare, Finish, Fill, Padded;
    if s.stopped {
      StoppedApply(s, e);
    } else if Timed(e) {
      var (st, t) := Prepare(s, e);
      if st.Ok? {
        PreparedFrom(s, e);
        FinishGrows(t);
        if !Finish(t).0.Stopped? { FinishInStep(t); }
      } else {
        RefusedPads(s, e);
        PaddedInStep(s, table, t);
      }
    } else {
      UntimedInStep(s, table, e);
    }
  }

  lemma PaddedInStep(s: State, table: seq<Route>, r: State)
    requires InStep(s, table) && Padded(s, r)
    ensures InStep(r, table)
  {
  }

  lemma UntimedInStep(s: State, table: seq<Route>, e: Event)
    requires InStep(s, table) && !Timed(e) && !s.stopped
    ensures InStep(Apply(s, e).state, Taken(s, table, e))
  {
    hide Fill, QueueAll, AttachedLinks, Routable, Reserve;
  }

  lemma {:induction false} RunInStep(s: State, table: seq<Route>, es: seq<Event>)
    requires InStep(s, table)
    ensures InStep(Run(s, es), Host(s, table, es))
    decreases |es|
  {
    hide Apply, InStep;
    if es != [] {
      ApplyInStep(s, table, es[0]);
      RunInStep(Apply(s, es[0]).state, Taken(s, table, es[0]), es[1..]);
    }
  }

  /** Over every sequence of calls from initialisation, a packet is produced only
      while the engine's table equals the host's. */
  lemma PacketsMatchHost(cfg: Config, seqno: u16, es: seq<Event>, e: Event)
    requires Apply(Run(Init(cfg, seqno), es), e).packet.Some?
    ensures Run(Init(cfg, seqno), es).routes == Host(Init(cfg, seqno), [], es)
  {
    hide Run, Host, Fill, Prepare, RequestPrefix, Finish;
    RunInStep(Init(cfg, seqno), [], es);
  }

  /** No event is accepted while a commit is pending or output is undrained. */
  lemma NoEventWhileBusy(s: State, e: Event)
    requires Timed(e) && (s.ctl.pending != 0 || s.ctl.cursor < |s.msgs|)
    ensures var r := Apply(s, e);
            !r.status.Ok? && !r.status.Changed? && r.packet.None? && Padded(s, r.state)
  {
    hide Padded, Finish, Prepare;
    if Prepare(s, e).0.Ok? { PreparedFrom(s, e); }
    RefusedPads(s, e);
    RefusedStatus(s, e);
  }

  lemma RefusedStatus(s: State, e: Event)
    requires Timed(e) && !Prepare(s, e).0.Ok?
    ensures !Prepare(s, e).0.Changed?
  {
    hide ReceiveAll, Decode, FreeSlot, Queue, Routable, Valid, Attachable, Recordable, ForgetDrop, Expire, LocalSlot;
  }

  /** After a failed commit no later call yields a packet or changes a route. */
  lemma FailedCommitIsFinal(s: State, es: seq<Event>, e: Event)
    requires !s.stopped && s.ctl.pending != 0
    ensures var t := Apply(s, Settle(s.ctl.pending, false)).state;
            var r := Run(t, es);
            r.stopped && r.routes == s.routes && Apply(r, e).packet.None? && Apply(r, e).state.routes == s.routes
  {
    hide Run, Prepare, NextPacket, RequestPrefix, Finish;
    var t := Apply(s, Settle(s.ctl.pending, false)).state;
    StoppedForever(t, es);
    StoppedApply(Run(t, es), e);
  }

  // ----- Every reachable queue

  /** The cursor stays inside the queue. */
  lemma CursorStays(s: State, e: Event)
    requires s.ctl.cursor <= |s.msgs|
    ensures Apply(s, e).state.ctl.cursor <= |Apply(s, e).state.msgs|
  {
    hide Prepare, Finish, Fill, Padded;
    if Timed(e) {
      var (st, t) := Prepare(s, e);
      if st.Ok? {
        PreparedFrom(s, e);
        FinishCursor(t);
      } else {
        RefusedPads(s, e);
        PaddedQueue(s, t);
      }
    } else {
      UntimedCursor(s, e);
    }
  }

  lemma FinishCursor(t: State)
    ensures Finish(t).1.ctl.cursor == t.ctl.cursor
  {
    hide SelectRoutes, Timers, Collect;
  }

  lemma PaddedQueue(s: State, r: State)
    requires Padded(s, r)
    ensures r.ctl == s.ctl && r.msgs == s.msgs
  {
  }

  lemma UntimedCursor(s: State, e: Event)
    requires s.ctl.cursor <= |s.msgs| && !Timed(e)
    ensures Apply(s, e).state.ctl.cursor <= |Apply(s, e).state.msgs|
  {
    hide Fill, QueueAll, AttachedLinks, Routable, Reserve, Prepare;
    if e.Enquire? && s.ctl.cursor < |s.msgs| {
      var (ok, cap, asks) := Reserve(s.cfg, s.mem.asks, s.mem.messages, |s.msgs| + |AttachedLinks(s.links)|, s.cfg.limits.messages);
      QueueGrows(s.(mem := s.mem.(messages := cap, asks := asks)), AttachedLinks(s.links), RouteRequest(Some(e.prefix)));
    }
  }

  lemma {:induction false} QueueGrows(s: State, ids: seq<u64>, m: Message)
    ensures |QueueAll(s, ids, m).msgs| >= |s.msgs|
    decreases |ids|
  {
    if ids != [] { QueueGrows(Queue(s, ids[0], m), ids[1..], m); }
  }

  lemma {:induction false} CursorInRuns(s: State, es: seq<Event>)
    requires s.ctl.cursor <= |s.msgs|
    ensures Run(s, es).ctl.cursor <= |Run(s, es).msgs|
    decreases |es|
  {
    hide Apply;
    if es != [] {
      CursorStays(s, es[0]);
      CursorInRuns(Apply(s, es[0]).state, es[1..]);
    }
  }

  /** In every run from initialisation, once the table is committed, draining the
      queue gives every neighbour exactly the messages queued for it, in order. */
  lemma EveryQueueArrives(cfg: Config, seqno: u16, es: seq<Event>, link: u64, source: Bytes16)
    requires var s := Run(Init(cfg, seqno), es); !s.stopped && s.ctl.pending == 0
    ensures var s := Run(Init(cfg, seqno), es);
            && s.ctl.cursor <= |s.msgs| && (Sending(s) || s.ctl.cursor == |s.msgs|)
            && (forall p :: p in Drain(s) ==> Fits(s, p))
            && var got := DecodedOn(Drain(s), link, source);
               got.Some? && Faithful(OnLink(s.msgs[s.ctl.cursor..], link), got.value, source)
  {
    hide Run, Host, Drain, DecodedOn, Faithful, OnLink, Fits, Invariant.Core;
    var i := Init(cfg, seqno);
    InitSteady(cfg, seqno);
    RunKeeps(i, es);
    CoreMsgs(Run(i, es));
    RunInStep(i, [], es);
    CursorInRuns(i, es);
    DrainDelivers(Run(i, es), link, source);
  }
}
