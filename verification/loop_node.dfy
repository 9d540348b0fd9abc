/** One engine's part in loop freedom, for one source (a prefix and the router
    that originates it): its feasibility record only improves, and it never
    sends an update that the record does not cover. */
module LoopNode {
  import opened Types
  import opened Prefixes
  import opened Seqno
  import opened EngineState
  import opened Engine
  import opened EngineEvents
  import opened Selection
  import opened Invariant
  import opened Records
  import opened Settled
  import Admission

  /** A source, and the base of the half circle its sequence numbers lie in. */
  datatype Key = Key(p: Prefix, router: u64, base: u16)

  predicate Carries(m: Message, k: Key) {
    m.Update? && m.target == Some(k.p) && m.router == k.router && m.metric != INFINITY
  }

  /** Announces the source of k, finite or retracted. */
  predicate Concerns(c: Candidate, k: Key) {
    c.route.prefix == k.p && c.route.router == k.router
  }

  function RecordOf(s: State, k: Key): (r: Option<Source>) {
    SourceFor(s.sources, k.p, k.router)
  }

  /** Smaller is better; only meaningful inside the window. */
  function RankOf(k: Key, x: Source): (r: nat)
    requires InWindow(k.base, x.seqno)
  {
    Rank(k.base, DistanceOf(x))
  }

  ghost predicate CandsWithin(cands: seq<Option<Candidate>>, k: Key) {
    forall c :: Some(c) in cands && Concerns(c, k) ==> InWindow(k.base, c.route.seqno)
  }

  ghost predicate RoutesWithin(routes: seq<Route>, k: Key) {
    forall r :: r in routes && !r.unreachable && r.prefix == k.p && r.router == k.router ==> InWindow(k.base, r.seqno)
  }

  ghost predicate RecordWithin(x: Option<Source>, k: Key) {
    x.Some? ==> InWindow(k.base, x.value.seqno)
  }

  /** Record x is at least as good as update m, and was refreshed with it. */
  ghost predicate Vouched(cfg: Config, now: nat, x: Option<Source>, k: Key, m: Message)
    requires m.Update? && RecordWithin(x, k)
  {
    && x.Some? && InWindow(k.base, m.seqno)
    && RankOf(k, x.value) <= Rank(k.base, Distance(m.seqno, m.metric))
    && x.value.expires >= now + cfg.source
    && m.interval * 10 == cfg.update
  }

  ghost predicate MsgsVouched(cfg: Config, now: nat, x: Option<Source>, k: Key, msgs: seq<Queued>)
    requires RecordWithin(x, k)
  {
    forall q :: q in msgs && Carries(q.message, k) ==> Vouched(cfg, now, x, k, q.message)
  }

  /** The record is no worse and lasts no shorter than x0 was. */
  ghost predicate Improves(x0: Option<Source>, x: Option<Source>, k: Key)
    requires RecordWithin(x, k) && RecordWithin(x0, k)
  {
    x0.Some? ==> x.Some? && RankOf(k, x.value) <= RankOf(k, x0.value) && x.value.expires >= x0.value.expires
  }

  /** The engine is not an origin of the source. */
  predicate Foreign(cfg: Config, locals: seq<Option<Local>>, k: Key) {
    cfg.router != k.router || !HasLocal(locals, k.p)
  }

  /** What every step inside an event keeps, for an engine that is not the
      origin; x0 is the record at the start of the event. */
  ghost predicate Safe(s: State, k: Key, x0: Option<Source>) {
    && Foreign(s.cfg, s.locals, k)
    && CandsWithin(s.cands, k) && RoutesWithin(s.routes, k)
    && RecordWithin(RecordOf(s, k), k) && RecordWithin(x0, k)
    && Improves(x0, RecordOf(s, k), k)
    && MsgsVouched(s.cfg, s.now, RecordOf(s, k), k, s.msgs)
  }

  // ----- Output

  lemma QueueSafe(s: State, id: u64, m: Message, k: Key, x0: Option<Source>)
    requires Safe(s, k, x0) && !Carries(m, k)
    ensures Safe(Queue(s, id, m), k, x0)
  {
    hide CandsWithin, RoutesWithin;
  }

  lemma {:induction false} QueueAllSafe(s: State, ids: seq<u64>, m: Message, k: Key, x0: Option<Source>)
    requires Safe(s, k, x0) && !Carries(m, k)
    ensures Safe(QueueAll(s, ids, m), k, x0)
    decreases |ids|
  {
    hide Safe, Queue;
    if ids != [] {
      QueueSafe(s, ids[0], m, k, x0);
      QueueAllSafe(Queue(s, ids[0], m), ids[1..], m, k, x0);
    }
  }

  /** Recording a route that is about to be announced. */
  lemma RecordSafe(s: State, r: Route, k: Key, x0: Option<Source>)
    requires Core(s) && Safe(s, k, x0) && r in s.routes && !r.unreachable
    ensures var (ok, t) := Record(s, r);
            && Safe(t, k, x0)
            && (ok && r.prefix == k.p && r.router == k.router ==>
                  RecordOf(t, k).Some? && InWindow(k.base, r.seqno) && RankOf(k, RecordOf(t, k).value) <= Rank(k.base, Distance(r.seqno, r.metric))
                  && RecordOf(t, k).value.expires == s.now + s.cfg.source)
  {
    hide Core, Record, CandsWithin, Rank, Newer, InWindow;
    CoreSources(s);
    var (ok, t) := Record(s, r);
    if !ok {
      RecordFails(s, r);
    } else {
      RecordMeetsSpec(s, r, k.p, k.router);
      if r.prefix == k.p && r.router == k.router {
        assert InWindow(k.base, r.seqno);
        var a := RecordOf(s, k);
        if a.Some? {
          BetterIsRank(k.base, Distance(r.seqno, r.metric), DistanceOf(a.value));
          RecordLasts(s, k);
        }
      }
    }
  }

  lemma RecordLasts(s: State, k: Key)
    requires Core(s) && RecordOf(s, k).Some?
    ensures RecordOf(s, k).value.expires <= s.now + s.cfg.source
  {
  }

  /** The announcement of a recorded route is vouched for. */
  lemma QueueAnnouncementSafe(s: State, id: u64, m: Message, k: Key, x0: Option<Source>)
    requires Safe(s, k, x0) && (Carries(m, k) ==> Vouched(s.cfg, s.now, RecordOf(s, k), k, m))
    ensures Safe(Queue(s, id, m), k, x0)
  {
    hide CandsWithin, RoutesWithin;
  }

  lemma AdvertiseSafe(s: State, id: u64, p: Prefix, explicit: bool, k: Key, x0: Option<Source>)
    requires Core(s) && Safe(s, k, x0)
    ensures Safe(Advertise(s, id, p, explicit), k, x0)
  {
    hide Core, Safe, Record, Queue, ZeroBytes;
    var li := LinkAt(s.links, id);
    var route := RouteFor(s.routes, p);
    if li < |s.links| {
      if route.None? || route.value.unreachable {
        QueueSafe(s, id, Retraction(s, p), k, x0);
      } else {
        var r := route.value;
        RecordSafe(s, r, k, x0);
        var (ok, t) := Record(s, r);
        if ok {
          AnnouncementVouched(s, t, r, s.links[li].value.config.ipv4, k, x0);
          QueueAnnouncementSafe(t, id, Announcement(s, r, s.links[li].value.config.ipv4), k, x0);
        }
      }
    }
  }

  lemma AnnouncementVouched(s: State, t: State, r: Route, ipv4: Bytes4, k: Key, x0: Option<Source>)
    requires Safe(t, k, x0) && t.cfg == s.cfg && t.now == s.now
    requires r.prefix == k.p && r.router == k.router ==>
               RecordOf(t, k).Some? && InWindow(k.base, r.seqno) && RankOf(k, RecordOf(t, k).value) <= Rank(k.base, Distance(r.seqno, r.metric))
               && RecordOf(t, k).value.expires == s.now + s.cfg.source
    ensures Carries(Announcement(s, r, ipv4), k) ==> Vouched(t.cfg, t.now, RecordOf(t, k), k, Announcement(s, r, ipv4))
  {
    hide Rank, ZeroBytes;
  }

  lemma {:induction false} DumpSafe(s: State, id: u64, explicit: bool, i: nat, k: Key, x0: Option<Source>)
    requires Core(s) && Safe(s, k, x0) && i <= |s.routes|
    ensures Safe(Dump(s, id, explicit, i), k, x0)
    decreases |s.routes| - i
  {
    hide Core, Safe, Advertise;
    if i < |s.routes| {
      var p := s.routes[i].prefix;
      AdvertiseSafe(s, id, p, explicit, k, x0);
      assert Valid(p) by { CoreEntries(s); }
      AdvertiseKeeps(s, id, p, explicit);
      DumpSafe(Advertise(s, id, p, explicit), id, explicit, i + 1, k, x0);
    }
  }

  lemma RequestSafe(s: State, p: Prefix, router: u64, seqno: u16, ids: seq<u64>, from: u64, hops: byte, k: Key, x0: Option<Source>)
    requires Safe(s, k, x0)
    ensures Safe(Request(s, p, router, seqno, ids, from, hops), k, x0)
  {
    hide Safe, QueueAll, Asking, RequestSlot;
    var i := RequestAt(s.requests, p, router);
    if !(i < |s.requests| && AtLeast(s.requests[i].value.seqno, seqno)) {
      var (slot, t, asks) := RequestSlot(s, p, router);
      SafeAlone(s, Asked(s, asks), k, x0);
      if slot.Some? {
        var q := Asking(s, p, router, seqno, ids, from, hops);
        var u := Asked(s, asks).(requests := t[slot.value := Some(q)]);
        SafeAlone(s, u, k, x0);
        QueueAllSafe(u, q.targets, Question(q), k, x0);
      }
    }
  }

  /** Safe reads only some of the state. */
  lemma SafeAlone(s: State, t: State, k: Key, x0: Option<Source>)
    requires Safe(s, k, x0) && t.cfg == s.cfg && t.now == s.now && t.cands == s.cands && t.routes == s.routes && t.sources == s.sources && t.msgs == s.msgs && t.locals == s.locals
    ensures Safe(t, k, x0)
  {
  }

  // ----- Selection

  /** Only messages that announce nothing about the source were added. */
  ghost predicate NoNews(a: seq<Queued>, b: seq<Queued>, k: Key) {
    forall q :: q in b ==> q in a || !Carries(q.message, k)
  }

  lemma {:induction false} QueueAllNoNews(s: State, ids: seq<u64>, m: Message, k: Key)
    requires !Carries(m, k)
    ensures NoNews(s.msgs, QueueAll(s, ids, m).msgs, k)
    decreases |ids|
  {
    hide Carries;
    if ids != [] { QueueAllNoNews(Queue(s, ids[0], m), ids[1..], m, k); }
  }

  lemma SuppressNoNews(s: State, o: Route, k: Key)
    ensures NoNews(s.msgs, Suppress(s, o).msgs, k)
  {
    hide QueueAll, Asking, RequestSlot, DropRoute, Askable;
    var t := Trigger(DropRoute(s, o.prefix), true);
    var src := SourceFor(t.sources, o.prefix, o.router);
    var ids := Askable(t, o.prefix, |t.cands|);
    if src.Some? && ids != [] {
      var (slot, u, asks) := RequestSlot(t, o.prefix, o.router);
      if slot.Some? {
        var q := Asking(t, o.prefix, o.router, (src.value.seqno + 1) % 0x1_0000, ids, 0, 64);
        QueueAllNoNews(Asked(t, asks).(requests := u[slot.value := Some(q)]), q.targets, Question(q), k);
      }
    }
  }

  lemma {:induction false} SuppressLostNoNews(s: State, prior: seq<Route>, i: nat, k: Key)
    requires i <= |prior|
    ensures NoNews(s.msgs, SuppressLost(s, prior, i).msgs, k)
    decreases |prior| - i
  {
    hide Suppress;
    if i < |prior| {
      if !prior[i].unreachable && RouteFor(s.routes, prior[i].prefix).None? {
        SuppressNoNews(s, prior[i], k);
        SuppressLostNoNews(Suppress(s, prior[i]), prior, i + 1, k);
      } else {
        SuppressLostNoNews(s, prior, i + 1, k);
      }
    }
  }

  lemma Stage2NoNews(s: State, k: Key)
    ensures NoNews(s.msgs, Stage2(s).msgs, k)
  {
    hide SuppressLost, KeepDrops, Chosen;
    SuppressLostNoNews(Stage1(s), s.routes, 0, k);
  }

  /** A selected route of the source has a candidate behind it. */
  lemma EntryWithin(s: State, r: Route, k: Key)
    requires CandsWithin(s.cands, k) && Foreign(s.cfg, s.locals, k)
    requires Entry(s, k.p) == Some(r) && !r.unreachable && r.router == k.router
    ensures InWindow(k.base, r.seqno)
  {
    hide Eligible, Best, InWindow, Remaining;
    if !HasLocal(s.locals, k.p) { ChoiceIsWinner(s, k.p); }
  }

  lemma SelectedWithin(s: State, k: Key)
    requires Core(s) && CandsWithin(s.cands, k) && Foreign(s.cfg, s.locals, k) && !s.stopped && !SelectRoutes(s).stopped
    ensures RoutesWithin(SelectRoutes(s).routes, k)
  {
    hide Core, SelectRoutes, CandsWithin, StrictlySorted, Entry, Remaining;
    CoreShape(s);
    SelectMeetsSpec(s);
    SelectKeeps(s);
    CoreShape(SelectRoutes(s));
    var routes := SelectRoutes(s).routes;
    forall r | r in routes && !r.unreachable && r.prefix == k.p && r.router == k.router ensures InWindow(k.base, r.seqno) {
      RouteIsFor(routes, r);
      assert RouteFor(routes, k.p) == Entry(s, k.p);
      EntryWithin(s, r, k);
    }
  }

  lemma {:induction false} SatisfySafe(s: State, i: nat, k: Key, x0: Option<Source>)
    requires Core(s) && Safe(s, k, x0) && i <= |s.requests|
    ensures Safe(SatisfyRequests(s, i), k, x0)
    decreases |s.requests| - i
  {
    hide Core, Safe, Advertise, Answered;
    if i < |s.requests| {
      if s.requests[i].Some? && Answered(s.routes, s.requests[i].value) {
        var q := s.requests[i].value;
        var t := if q.from != 0 then Advertise(s, q.from, q.prefix, true) else s;
        assert Valid(q.prefix) by { CoreEntries(s); }
        AdvertiseSafe(s, q.from, q.prefix, true, k, x0);
        AdvertiseKeeps(s, q.from, q.prefix, true);
        ForgetRequest(t, i);
        SafeAlone(t, t.(requests := t.requests[i := None]), k, x0);
        SatisfySafe(t.(requests := t.requests[i := None]), i + 1, k, x0);
      } else {
        SatisfySafe(s, i + 1, k, x0);
      }
    }
  }

  lemma NewsSafe(s: State, t: State, k: Key, x0: Option<Source>)
    requires Safe(s, k, x0) && t.cfg == s.cfg && t.now == s.now && t.cands == s.cands && t.sources == s.sources && t.locals == s.locals
    requires RoutesWithin(t.routes, k) && NoNews(s.msgs, t.msgs, k)
    ensures Safe(t, k, x0)
  {
    hide CandsWithin, RoutesWithin, Vouched, Carries;
  }

  lemma SelectSafe(s: State, k: Key, x0: Option<Source>)
    requires Core(s) && Safe(s, k, x0) && !s.stopped && !SelectRoutes(s).stopped
    ensures Safe(SelectRoutes(s), k, x0)
  {
    hide Core, Safe, SelectRoutes, Stage2, NoteChanges, SatisfyRequests, Sorted, RoutesWithin, CandsWithin, NoNews;
    SelectStages(s);
    SafeParts(s, k, x0);
    SelectedWithin(s, k);
    StagesKeep(s);
    Stage2NoNews(s, k);
    var t := Stage2(s);
    var u := t.(routes := Sorted(t.routes));
    PublishRoutes(t, s.routes);
    NewsSafe(s, u, k, x0);
    SortedKeeps(t);
    NoteChangesKeeps(u, s.routes, 0);
    var v := NoteChanges(u, s.routes, 0);
    SafeAlone(u, v, k, x0);
    SatisfySafe(v, 0, k, x0);
  }

  lemma SafeParts(s: State, k: Key, x0: Option<Source>)
    requires Safe(s, k, x0)
    ensures CandsWithin(s.cands, k) && RoutesWithin(s.routes, k) && Foreign(s.cfg, s.locals, k)
  {
  }

  // ----- Received messages

  lemma ChaseSafe(s: State, link: u64, c: Candidate, k: Key, x0: Option<Source>)
    requires Safe(s, k, x0)
    ensures Safe(Chase(s, link, c), k, x0)
  {
    hide Safe, Request, Feasible, Metric;
    var src := SourceFor(s.sources, c.route.prefix, c.route.router);
    if src.Some? { RequestSafe(s, c.route.prefix, c.route.router, (src.value.seqno + 1) % 0x1_0000, [link], 0, 64, k, x0); }
  }

  lemma SetCandSafe(s: State, i: nat, c: Candidate, k: Key, x0: Option<Source>)
    requires Safe(s, k, x0) && i < |s.cands| && (Concerns(c, k) ==> InWindow(k.base, c.route.seqno))
    ensures Safe(s.(cands := s.cands[i := Some(c)]), k, x0)
  {
    hide RoutesWithin, MsgsVouched, InWindow;
    SetMembers(s.cands, i, Some(c));
  }

  lemma SlotSafe(s: State, p: Prefix, link: u64, k: Key, x0: Option<Source>)
    requires Safe(s, k, x0)
    ensures Safe(CandSlot(s, p, link).1, k, x0)
  {
    hide RoutesWithin, MsgsVouched, InWindow, Admissible;
  }

  lemma RetractedSafe(s: State, cands: seq<Option<Candidate>>, k: Key, x0: Option<Source>)
    requires Safe(s, k, x0) && |cands| == |s.cands|
    requires forall i :: 0 <= i < |cands| ==> cands[i].Some? ==> s.cands[i].Some? && cands[i].value.route == s.cands[i].value.route
    ensures Safe(s.(cands := cands), k, x0)
  {
    hide RoutesWithin, MsgsVouched, InWindow;
    forall c | Some(c) in cands && Concerns(c, k) ensures InWindow(k.base, c.route.seqno) {
      var i :| 0 <= i < |cands| && cands[i] == Some(c);
      assert s.cands[i] in s.cands;
    }
  }

  lemma LearnUpdateSafe(s: State, l: LinkConfig, m: Message, k: Key, x0: Option<Source>)
    requires Safe(s, k, x0) && m.Update? && (Carries(m, k) ==> InWindow(k.base, m.seqno))
    requires m.target.None? ==> m.metric == INFINITY
    ensures Safe(LearnUpdate(s, l, m), k, x0)
  {
    hide Safe, CandSlot, Chase, Refused, Trigger, InWindow;
    if m.target.None? || m.metric == INFINITY {
      RetractedSafe(s, LearnUpdate(s, l, m).cands, k, x0);
    } else if !Refused(s, l, m) {
      var p := m.target.value;
      SlotSafe(s, p, l.id, k, x0);
      var (slot, t) := CandSlot(s, p, l.id);
      if slot.Some? {
        var i := slot.value;
        var t1 := if t.cands[i].Some? && t.cands[i].value.route.router != m.router then Trigger(t, true) else t;
        SafeAlone(t, t1, k, x0);
        var c := Learned(s, l.id, m);
        SetCandSafe(t1, i, c, k, x0);
        ChaseSafe(t1.(cands := t1.cands[i := Some(c)]), l.id, c, k, x0);
      }
    }
  }

  lemma ForwardSafe(s: State, from: u64, m: Message, k: Key, x0: Option<Source>)
    requires Safe(s, k, x0) && m.SeqRequest? && m.target.Some?
    ensures Safe(Forward(s, from, m), k, x0)
  {
    hide Safe, Request, Relay, Recorded;
    var p := m.target.value;
    var best := Relay(s, p, from, |s.cands|);
    if best.Some? && m.hops >= 2 { RequestSafe(s, p, m.router, m.seqno, [best.value.route.link], from, m.hops - 1, k, x0); }
  }

  lemma BumpSafe(s: State, from: u64, p: Prefix, k: Key, x0: Option<Source>)
    requires Core(s) && Safe(s, k, x0) && !s.stopped && Valid(p)
    ensures !Bump(s, from, p).stopped ==> Safe(Bump(s, from, p), k, x0)
  {
    hide Core, Safe, SelectRoutes, Advertise;
    var s1 := s.(seqno := (s.seqno + 1) % 0x1_0000);
    CoreIgnoresMemory(s, s1);
    SafeAlone(s, s1, k, x0);
    if !SelectRoutes(s1).stopped {
      SelectSafe(s1, k, x0);
      SelectKeeps(s1);
      AdvertiseSafe(SelectRoutes(s1), from, p, true, k, x0);
    }
  }

  lemma SeqRequestSafe(s: State, from: u64, m: Message, k: Key, x0: Option<Source>)
    requires Core(s) && Safe(s, k, x0) && !s.stopped && m.SeqRequest? && Delivered(m)
    ensures var r := AnswerSeqRequest(SelectRoutes(s), from, m); !r.stopped ==> Safe(r, k, x0)
  {
    hide Core, Safe, SelectRoutes, Advertise, Bump, Forward;
    var t := SelectRoutes(s);
    SelectKeeps(s);
    if t.stopped {
      Admission.StoppedAnswers(t, from, m);
    } else {
      SelectSafe(s, k, x0);
      AdvertiseSafe(t, from, m.target.value, true, k, x0);
      BumpSafe(t, from, m.target.value, k, x0);
      ForwardSafe(t, from, m, k, x0);
    }
  }

  lemma AnswerRequestSafe(s: State, li: nat, target: Option<Prefix>, k: Key, x0: Option<Source>)
    requires Core(s) && Safe(s, k, x0) && !s.stopped && li < |s.links| && s.links[li].Some?
    ensures var r := AnswerRequest(s, li, target); !r.stopped ==> Safe(r, k, x0)
  {
    hide Core, Safe, SelectRoutes, Advertise, Dump;
    var t := SelectRoutes(s);
    SelectKeeps(s);
    if !t.stopped {
      SelectSafe(s, k, x0);
      var l := s.links[li].value;
      if target.Some? {
        AdvertiseSafe(t, l.config.id, target.value, true, k, x0);
      } else {
        DumpSafe(t, l.config.id, true, 0, k, x0);
        SafeAlone(Dump(t, l.config.id, true, 0), Dump(t, l.config.id, true, 0).(links := t.links[li := Some(l.(lastDump := s.now, dumped := true))]), k, x0);
      }
    }
  }

  lemma ReceiveMessageSafe(s: State, li: nat, m: Message, k: Key, x0: Option<Source>)
    requires Core(s) && Safe(s, k, x0) && !s.stopped && li < |s.links| && s.links[li].Some? && Delivered(m)
    requires Carries(m, k) ==> InWindow(k.base, m.seqno)
    ensures var r := ReceiveMessage(s, li, m); !r.stopped ==> Safe(r, k, x0)
  {
    hide Core, Safe, SelectRoutes, LearnUpdate, AnswerRequest, AnswerSeqRequest, Queue, HearNeighbour, Carries;
    var l := s.links[li].value;
    if !(s.cfg.localOnly && m.SeqRequest? && m.router != s.cfg.router) {
      match m
      case AckRequest(o, _) => AckCarriesNothing(o, k); QueueSafe(s, l.config.id, Ack(o), k, x0);
      case Update(_, _, _, _, _, _, _) => LearnUpdateSafe(s, l.config, m, k, x0);
      case RouteRequest(target) => AnswerRequestSafe(s, li, target, k, x0);
      case SeqRequest(target, _, _, _) => SeqRequestSafe(s, l.config.id, m, k, x0);
      case _ => SafeAlone(s, ReceiveMessage(s, li, m), k, x0);
    }
  }

  lemma AckCarriesNothing(o: u16, k: Key)
    ensures !Carries(Ack(o), k)
  {
  }

  lemma {:induction false} ReceiveAllSafe(s: State, li: nat, ms: seq<Message>, k: Key, x0: Option<Source>)
    requires Core(s) && Safe(s, k, x0) && !s.stopped && li < |s.links| && s.links[li].Some?
    requires forall m :: m in ms ==> Delivered(m) && (Carries(m, k) ==> InWindow(k.base, m.seqno))
    ensures var r := ReceiveAll(s, li, ms); !r.stopped ==> Safe(r, k, x0)
    decreases |ms|
  {
    hide Core, Safe, ReceiveMessage, Delivered, Carries, InWindow;
    if ms != [] {
      ReceiveMessageSafe(s, li, ms[0], k, x0);
      ReceiveMessageKeeps(s, li, ms[0]);
      var t := ReceiveMessage(s, li, ms[0]);
      if t.stopped { Admission.StoppedReceives(t, li, ms[1..]); } else { ReceiveAllSafe(t, li, ms[1..], k, x0); }
    }
  }
}
