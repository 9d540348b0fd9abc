/** Why the deadline needs the half circle. Sequence numbers compare cyclically:
    0x5000 is newer than 0 and 0xA000 newer than 0x5000, but 0xA000 is not newer
    than 0. A run from initialisation leads to an engine that has 0 on record,
    selects 0x5000 and exports it, which makes a shorter route at 0xA000 feasible;
    a tick before the deadline takes it. */
module DeadlineExample {
  import opened Types
  import opened Prefixes
  import opened Seqno
  import opened EngineState
  import opened Engine
  import opened EngineEvents
  import opened Wire
  import opened WireRoundTrip
  import opened Selection
  import opened Invariant
  import opened Records
  import opened Limits
  import opened Settled
  import opened Runs
  import opened RunLimits
  import opened Suppression
  import opened Deadline
  import opened DeadlineRuns
  import opened Scenario

  // ----- The engine, its two neighbours and what they say

  function P(): (p: Prefix) {
    Prefix(ZERO16[0 := 0x20], 8, 6)
  }

  /** Every request for memory is granted, and every draw is ten. */
  function Settings(): (c: Config) {
    ConfigData(1, 4000, 16000, 180000, true, false, Limits(4, 128, 768, 512, 64, 1024), (r, p, s) => true, k => true, k => 10)
  }

  function Ours(): (a: Bytes16) {
    ZERO16[0 := 0xfe][1 := 0x80]
  }

  function Theirs(): (a: Bytes16) {
    ZERO16[0 := 0xfe][1 := 0x80][15 := 1]
  }

  function Cable(id: u64): (l: LinkConfig)
    requires id != 0
  {
    assert Ours()[15] != Theirs()[15];
    LinkData(id, Ours(), Theirs(), [0, 0, 0, 0], 1, 512, 0)
  }

  /** An announcement of P by router 9, valid for 56 seconds. */
  function Says(seqno: u16, metric: u16): (m: Message) {
    Update(Some(P()), 9, seqno, metric, 1600, false, NoAddress)
  }

  function Hears(seqno: u16, metric: u16): (m: Message) {
    Update(Some(P()), 9, seqno, metric, 1600, false, V6(Theirs()))
  }

  function Greeting(): (ms: seq<Message>) {
    [Hello(false, 0, 1600), Ihu(1, 1600, NoAddress)]
  }

  /** What it makes of an announcement heard at time now. */
  function Learnt(link: u64, now: nat, seqno: u16, metric: u16): (c: Candidate) {
    Candidate(Route(P(), 9, link, seqno, 0, false, false, V6(Theirs())), metric, now + 56000, 16000, false)
  }

  function Entered(link: u64, seqno: u16, metric: u16): (r: Route) {
    Route(P(), 9, link, seqno, metric, false, false, V6(Theirs()))
  }

  /** A neighbour whose greeting was heard at time now. */
  predicate Alive(l: Link, id: u64, now: nat)
    requires id != 0
  {
    l.config == Cable(id) && l.tx == 1 && l.ihuExpires == now + 56000 && l.multicast.expires == now + 56000
  }

  lemma PrefixIsRoutable()
    ensures Routable(P()) && Valid(P())
  {
    var p := P();
    assert MaskBytes(p.bytes, 8) == p.bytes;
    assert p.bytes[0] == 0x20;
    assert p.bytes[..15][0] == 0x20 && p.bytes[..10][0] == 0x20;
  }

  lemma SaysIsSendable(seqno: u16, metric: u16)
    requires metric < INFINITY
    ensures Sendable(Says(seqno, metric))
  {
    PrefixIsRoutable();
  }

  /** A packet of one announcement, with or without a greeting before it. */
  function Bytes(greet: bool, seqno: u16, metric: u16): (b: seq<byte>) {
    Packet((if greet then Greeting() else []) + [Says(seqno, metric)])
  }

  lemma BytesArrive(greet: bool, seqno: u16, metric: u16)
    requires metric < INFINITY
    ensures |Bytes(greet, seqno, metric)| <= 512
    ensures Decode(Bytes(greet, seqno, metric), Theirs()) == Some((if greet then Greeting() else []) + [Hears(seqno, metric)])
  {
    hide Encoding, Decode, Sendable, P;
    var batch := (if greet then Greeting() else []) + [Says(seqno, metric)];
    SaysIsSendable(seqno, metric);
    assert forall m :: m in batch ==> Sendable(m) by { GreetingIsSendable(); }
    ShortBody(batch);
    PacketDecodes(batch, Theirs());
    var got := Decode(Packet(batch), Theirs()).value;
    assert forall i :: 0 <= i < |batch| ==> got[i] == Received(batch[i], Theirs());
    assert got == (if greet then Greeting() else []) + [Hears(seqno, metric)];
  }

  lemma GreetingIsSendable()
    ensures forall m :: m in Greeting() ==> Sendable(m)
  {
  }

  lemma {:induction false} ShortBody(batch: seq<Message>)
    ensures |Body(batch)| <= 60 * |batch|
  {
    hide Encoding;
    if batch != [] { ShortBody(batch[1..]); }
  }

  // ----- Hearing the neighbours

  /** What an announcement touches. */
  ghost predicate Touched(u: State, t: State) {
    t == u.(links := t.links, cands := t.cands, mem := t.mem, msgs := t.msgs, requests := t.requests)
  }

  /** A greeting brings the link to life and changes nothing else. */
  lemma Greeted(u: State, li: nat, id: u64)
    requires li < |u.links| && u.links[li].Some? && id != 0 && u.links[li].value.config == Cable(id) && !u.stopped
    requires !u.links[li].value.multicast.seen
    ensures var t := ReceiveMessage(ReceiveMessage(u, li, Greeting()[0]), li, Greeting()[1]);
            t == u.(links := t.links) && |t.links| == |u.links| && t.links[li].Some? && Alive(t.links[li].value, id, u.now)
            && forall k :: 0 <= k < |u.links| && k != li ==> t.links[k] == u.links[k]
  {
  }

  lemma GreetingReceived(u: State, li: nat, m: Message)
    requires li < |u.links| && u.links[li].Some?
    ensures var v := ReceiveMessage(ReceiveMessage(u, li, Greeting()[0]), li, Greeting()[1]);
            li < |v.links| && v.links[li].Some? && ReceiveAll(u, li, Greeting() + [m]) == ReceiveMessage(v, li, m)
  {
    hide ReceiveMessage;
    var ms := Greeting() + [m];
    var a := ReceiveMessage(u, li, Greeting()[0]);
    var b := ReceiveMessage(a, li, Greeting()[1]);
    assert ms[1..] == [Greeting()[1], m] && ms[1..][1..] == [m];
    assert ReceiveAll(u, li, ms) == ReceiveAll(a, li, ms[1..]) == ReceiveAll(b, li, ms[1..][1..]);
    OneReceived(b, li, m);
  }

  lemma OneReceived(u: State, li: nat, m: Message)
    requires li < |u.links| && u.links[li].Some?
    ensures ReceiveAll(u, li, [m]) == ReceiveMessage(u, li, m)
  {
    hide ReceiveMessage;
    assert [m][1..] == [];
  }

  /** The configuration asks no more of an announcement than it offers. */
  ghost predicate Listening(u: State) {
    u.cfg == Settings() && !u.stopped && u.locals == [] && u.drops == []
  }

  lemma NotRefused(u: State, id: u64, seqno: u16, metric: u16)
    requires Listening(u) && id != 0 && |u.sources| < 512
    ensures !Refused(u, Cable(id), Hears(seqno, metric))
  {
    PrefixIsRoutable();
    hide Routable;
  }

  /** A first announcement of the link takes the next slot. */
  lemma LearnsNew(u: State, id: u64, seqno: u16, metric: u16)
    requires Listening(u) && id != 0 && |u.sources| < 512 && metric < INFINITY && |u.cands| <= 1 && Full(u.cands)
    requires forall c :: Some(c) in u.cands ==> c.route.prefix == P() && c.route.link != id
    ensures var t := LearnUpdate(u, Cable(id), Hears(seqno, metric));
            Touched(u, t) && t.links == u.links && t.cands == u.cands + [Some(Learnt(id, u.now, seqno, metric))]
    ensures Feasible(u.sources, Learnt(id, u.now, seqno, metric)) ==>
              LearnUpdate(u, Cable(id), Hears(seqno, metric)).requests == u.requests
  {
    hide Refused, Chase, Feasible, Admissible;
    NotRefused(u, id, seqno, metric);
    assert forall i :: 0 <= i < |u.cands| ==> u.cands[i] in u.cands;
    assert CandAt(u.cands, P(), id) == |u.cands|;
    assert Admissible(u, P()) by { OneAdmitted(u); }
    var n := |u.cands|;
    var (slot, t, asks) := FreeSlot(u.cfg, u.mem.asks, u.cands, 768);
    NextSlot(u);
    var c := Learnt(id, u.now, seqno, metric);
    assert t[n := Some(c)] == u.cands + [Some(c)];
    ChaseFeasible(Asked(u, asks).(cands := t[n := Some(c)]), id, c);
  }

  lemma ChaseFeasible(s: State, link: u64, c: Candidate)
    ensures Feasible(s.sources, c) ==> Chase(s, link, c) == s
  {
    hide Feasible, Request;
  }

  lemma NextSlot(u: State)
    requires u.cfg == Settings() && |u.cands| <= 1 && Full(u.cands)
    ensures var (slot, t, asks) := FreeSlot(u.cfg, u.mem.asks, u.cands, 768);
            slot == Some(|u.cands|) && |t| == |u.cands| + 1 && t[..|u.cands|] == u.cands && t[|u.cands|].None?
  {
    assert FirstFree(u.cands, 0) == |u.cands|;
  }

  lemma OneAdmitted(u: State)
    requires Listening(u) && forall c :: Some(c) in u.cands ==> c.route.prefix == P()
    ensures Admissible(u, P())
  {
    assert Admitted(u) <= {P()};
    SubsetSize(Admitted(u), {P()});
  }

  /** A later announcement of the link replaces the earlier one. */
  lemma LearnsAgain(u: State, id: u64, was: Candidate, seqno: u16, metric: u16)
    requires Listening(u) && id != 0 && |u.sources| < 512 && metric < INFINITY && u.cands == [Some(was)]
    requires was.route.prefix == P() && was.route.link == id && was.route.router == 9
    requires Feasible(u.sources, Learnt(id, u.now, seqno, metric))
    ensures LearnUpdate(u, Cable(id), Hears(seqno, metric)) == u.(cands := [Some(Learnt(id, u.now, seqno, metric))])
  {
    hide Refused, Chase, Feasible, Admissible;
    NotRefused(u, id, seqno, metric);
    assert u.cands[0] == Some(was);
    assert CandAt(u.cands, P(), id) == 0;
    var c := Learnt(id, u.now, seqno, metric);
    assert u.cands[0 := Some(c)] == [Some(c)];
    ChaseFeasible(u.(cands := [Some(c)]), id, c);
  }

  // ----- Between the events

  /** Committed, drained, and nothing pending anywhere. */
  ghost predicate Common(s: State) {
    && Core(s) && Free(s) && Quiet(s) && s.cfg == Settings() && s.now == 0
    && s.locals == [] && s.drops == [] && s.requests == [] && |s.routes| <= 1
  }

  /** Where an event at the same time starts from. */
  ghost predicate Opened(s: State, u: State) {
    && Core(u) && !u.stopped
    && u == s.(mem := u.mem, before := s.routes, msgs := [], ctl := s.ctl.(cursor := 0, ready := false))
  }

  lemma Opens(s: State)
    requires Core(s) && Free(s) && s.cfg == Settings() && s.now == 0 && |s.routes| <= 1
    ensures Begin(s, 0).0.Ok? && Opened(s, Begin(s, 0).1)
  {
    hide Core, Begin;
    WakesAtOnce(s);
  }

  /** A new link takes the next slot. */
  lemma Attaches(s: State, id: u64)
    requires Common(s) && |s.links| <= 1 && Full(s.links) && s.lastLink < id
    ensures var (st, t) := Prepare(s, Attach(0, Cable(id)));
            && st.Ok? && Core(t) && !t.stopped
            && t == s.(links := s.links + [Some(NewLink(Cable(id)))], lastLink := id, mem := t.mem, msgs := t.msgs,
                       before := s.routes, ctl := s.ctl.(cursor := 0, ready := false))
  {
    hide Core, Begin, Quiet, Settings, FreeSlot, Queue;
    var n := |s.links|;
    var (slot, links, asks) := FreeSlot(s.cfg, s.mem.asks, s.links, s.cfg.limits.links);
    NextLink(s);
    var p := Asked(s, asks).(links := links);
    assert Padded(s, p);
    PaddedKeeps(s, p);
    Opens(p);
    PrepareKeeps(s, Attach(0, Cable(id)));
    assert AddLink(s, 0, Cable(id)) == (Ok, Greet(Begin(p, 0).1, n, Cable(id)));
    assert links[n := Some(NewLink(Cable(id)))] == s.links + [Some(NewLink(Cable(id)))];
  }

  lemma NextLink(s: State)
    requires s.cfg == Settings() && |s.links| <= 1 && Full(s.links)
    ensures var (slot, t, asks) := FreeSlot(s.cfg, s.mem.asks, s.links, s.cfg.limits.links);
            slot == Some(|s.links|) && |t| == |s.links| + 1 && t[..|s.links|] == s.links && t[|s.links|].None?
  {
    assert FirstFree(s.links, 0) == |s.links|;
  }

  /** A packet of neighbour `id` is taken message by message. */
  lemma Hearing(s: State, u: State, id: u64, li: nat, greet: bool, seqno: u16, metric: u16)
    requires Core(u) && Begin(s, u.now) == (Ok, u) && id != 0 && metric < INFINITY
    requires li < |u.links| && u.links[li].Some? && u.links[li].value.config == Cable(id)
    ensures Prepare(s, Arrive(u.now, id, Bytes(greet, seqno, metric)))
         == (Ok, ReceiveAll(u, li, (if greet then Greeting() else []) + [Hears(seqno, metric)]))
    ensures Core(s) ==> Core(ReceiveAll(u, li, (if greet then Greeting() else []) + [Hears(seqno, metric)]))
  {
    hide Core, Begin, Decode, ReceiveAll, Bytes, Greeting, Hears;
    BytesArrive(greet, seqno, metric);
    OnlyLink(u, li, id);
    if Core(s) { PrepareKeeps(s, Arrive(u.now, id, Bytes(greet, seqno, metric))); }
  }

  lemma OnlyLink(u: State, li: nat, id: u64)
    requires Core(u) && li < |u.links| && u.links[li].Some? && u.links[li].value.config.id == id
    ensures LinkAt(u.links, id) == li
  {
    hide Core;
    CoreShape(u);
  }

  lemma AliveCosts(u: State, li: nat, id: u64, heard: nat)
    requires Core(u) && li < |u.links| && u.links[li].Some? && id != 0 && Alive(u.links[li].value, id, heard) && u.now < heard + 56000
    ensures CostAt(u.links, id, u.now) == 1
  {
    hide Core;
    OnlyLink(u, li, id);
  }

  // ----- Selection among the announcements of P

  ghost predicate AllP(cands: seq<Option<Candidate>>) {
    forall c :: Some(c) in cands ==> c.route.prefix == P()
  }

  lemma OnlyChoice(t: State, c: Candidate)
    requires t.locals == [] && AllP(t.cands) && Some(c) in t.cands && Eligible(t, c)
    requires forall d :: Some(d) in t.cands && d != c ==> !Eligible(t, d)
    ensures Choice(t, P()) == Some(Selected(t, c)) && forall q :: q != P() ==> Choice(t, q).None?
  {
    hide Choice, Eligible;
    ChoiceIsWinner(t, P());
    forall q | q != P() ensures Choice(t, q).None? { ChoiceIsWinner(t, q); }
  }

  lemma NoChoice(t: State)
    requires t.locals == [] && t.cands == []
    ensures forall q :: Choice(t, q).None?
  {
    hide Choice, Eligible;
    forall q ensures Choice(t, q).None? { ChoiceIsWinner(t, q); }
  }

  /** The table of such a selection. */
  lemma Tables(t: State, r: seq<Route>, ds: seq<Option<Drop>>, x: Route)
    requires SelectionOf(t, r, ds) && t.drops == [] && x.prefix == P()
    requires Choice(t, P()) == Some(x) && forall q :: q != P() ==> Choice(t, q).None? && !Reachable(t.routes, q)
    ensures r == [x]
  {
    hide Choice;
    assert forall q :: RouteFor([x], q) == if q == P() then Some(x) else None by { LoneEntry(x); }
    forall q ensures RouteFor(r, q) == RouteFor([x], q) { assert RouteFor(r, q) == Entry(t, q); }
    EntriesDetermine(r, [x]);
  }

  lemma LoneEntry(x: Route)
    ensures forall q :: RouteFor([x], q) == if q == x.prefix then Some(x) else None
  {
    assert [x][0] == x;
  }

  lemma EmptyTable(t: State, r: seq<Route>)
    requires SelectionOf(t, r, []) && t.drops == [] && t.routes == [] && forall q :: Choice(t, q).None?
    ensures r == []
  {
    hide Choice;
    forall q ensures RouteFor(r, q) == RouteFor([], q) { assert RouteFor(r, q) == Entry(t, q); }
    EntriesDetermine(r, []);
  }

  lemma FewClaims(t: State)
    requires t.cfg == Settings() && t.locals == [] && t.drops == [] && AllP(t.cands) && forall r :: r in t.routes ==> r.prefix == P()
    ensures Bounded(t)
  {
    assert Claimed(t) <= {P()};
    SubsetSize(Claimed(t), {P()});
  }

  // ----- First event: a link

  ghost predicate Stage1(s: State) {
    && Common(s) && s.cands == [] && s.sources == [] && s.routes == [] && !s.pace.on && s.lastLink == 1
    && |s.links| == 1 && s.links[0].Some? && s.links[0].value.config == Cable(1) && !s.links[0].value.multicast.seen
  }

  lemma StartIsCommon()
    ensures Common(Init(Settings(), 0))
  {
    InitSteady(Settings(), 0);
  }

  lemma NothingUpdated(s: State, i: nat)
    requires i < |s.links| && s.links[i].Some? && s.routes == []
    ensures UpdateTimer(s, i).sources == s.sources
  {
    hide Jitter;
  }

  lemma {:induction false} NothingExported(s: State, i: nat)
    requires i <= |s.links| && s.routes == []
    ensures LinkTimers(s, i).sources == s.sources
    decreases |s.links| - i
  {
    hide HelloTimer, IhuTimer, UpdateTimer;
    if i < |s.links| && s.links[i].Some? {
      var t := HelloTimer(s, i);
      var u := if t.links[i].Some? then IhuTimer(t, i) else t;
      var v := if u.links[i].Some? then UpdateTimer(u, i) else u;
      if u.links[i].Some? { NothingUpdated(u, i); }
      NothingExported(v, i + 1);
    } else if i < |s.links| {
      NothingExported(s, i + 1);
    }
  }

  lemma FirstLinkUp()
    ensures var t := Apply(Init(Settings(), 0), Attach(0, Cable(1))).state;
            !t.stopped && (t.ctl.pending != 0 || t.ctl.ready) && forall x :: Resting(t, x) ==> Stage1(x)
  {
    hide Core, Finish, LinkTimers, Quiet, SelectRoutes, Collect, Prepare, Choice, Cable, SelectionOf;
    var s := Init(Settings(), 0);
    StartIsCommon();
    Attaches(s, 1);
    var t := Prepare(s, Attach(0, Cable(1))).1;
    NoChoice(t);
    FewClaims(t);
    PlainFinish(t);
    var r1 := SelectRoutes(t);
    EmptyTable(t, r1.routes);
    var v := LinkTimers(r1, 0);
    NothingExported(r1, 0);
    LinkTimersPace(r1, 0);
    LinkTimersQuiet(r1, 0);
    CollectFull(v.(before := []));
    NothingToNote(t);
    FinishQuiet(t);
    FinishKeeps(t);
    forall x | Resting(Finish(t).1, x) ensures Stage1(x) { QuietAlone(Finish(t).1, x); }
  }

  lemma NothingToNote(t: State)
    requires t.routes == []
    ensures NoteChanges(t, [], 0) == t
  {
  }

  // ----- Second event: the neighbour announces P at sequence number 0

  ghost predicate Settling(t: State, c: Candidate) {
    && Core(t) && !t.stopped && t.cfg == Settings() && t.now == 0 && t.locals == [] && t.drops == [] && t.requests == []
    && t.cands == [Some(c)] && c.route.prefix == P() && Eligible(t, c) && c.expires == 56000 && c.interval == 16000
    && (forall r :: r in t.routes ==> r.prefix == P())
    && Full(t.links) && Full(t.sources) && (t.pace.on ==> t.pace.at == 10)
  }

  /** The lone candidate is selected; only the links' timers do anything else. */
  lemma SelectsLone(t: State, c: Candidate)
    requires Settling(t, c)
    ensures var r1, r, v := SelectRoutes(t), Finish(t).1, LinkTimers(SelectRoutes(t), 0);
            && r1 == t.(routes := [Selected(t, c)], mem := r1.mem, pace := r1.pace) && !r1.stopped
            && Soon(r1.pace) == (r1.pace.on) && (t.pace.on || t.routes == [] ==> r1.pace.on)
            && Core(r) && Quiet(r) && !r.stopped && (r.ctl.pending != 0 || r.ctl.ready) && r == Collect(v.(before := [])).(ctl := r.ctl)
  {
    hide Core, Finish, LinkTimers, Quiet, SelectRoutes, Collect, Choice, SelectionOf, Eligible, NoteChanges, Selected, Plain, Young, AllP;
    LonePlain(t, c);
    FewClaims(t);
    PlainFinish(t);
    var r1 := SelectRoutes(t);
    Tables(t, r1.routes, [], Selected(t, c));
    if t.routes == [] { FirstNoted(t.(routes := r1.routes)); }
    FinishQuiet(t);
    FinishKeeps(t);
  }

  lemma LonePlain(t: State, c: Candidate)
    requires Settling(t, c)
    ensures Plain(t) && Young(t.cands, 0) && AllP(t.cands) && Selected(t, c).prefix == P()
    ensures Choice(t, P()) == Some(Selected(t, c)) && forall q :: q != P() ==> Choice(t, q).None? && !Reachable(t.routes, q)
  {
    hide Core, Choice, Eligible;
    assert t.cands[0] == Some(c);
    OnlyChoice(t, c);
  }

  predicate Soon(pace: Pace) {
    pace.on && pace.at == 10
  }

  /** With every link quiet, nothing but the table and the pace changes. */
  lemma SelectsQuietly(t: State, c: Candidate)
    requires Settling(t, c) && forall k :: 0 <= k < |t.links| ==> LinkQuiet(t.links[k].value, 0)
    ensures var r := Finish(t).1;
            && r == t.(routes := [Selected(t, c)], mem := r.mem, pace := r.pace, before := [], ctl := r.ctl)
            && (t.pace.on || t.routes == [] ==> Soon(r.pace))
            && Core(r) && Quiet(r) && !r.stopped && (r.ctl.pending != 0 || r.ctl.ready)
  {
    hide Core, Finish, Quiet, SelectRoutes, Collect, Eligible, Selected, LinkTimers, LinkQuiet;
    SelectsLone(t, c);
    var r1 := SelectRoutes(t);
    LinkTimersIdle(r1, 0);
    CollectFull(r1.(before := []));
  }

  ghost predicate Stage2(s: State) {
    && Common(s) && s.cands == [Some(Learnt(1, 0, 0, 99))] && s.sources == [] && s.routes == [Entered(1, 0, 100)] && Soon(s.pace)
    && s.lastLink == 1 && |s.links| == 1 && s.links[0].Some? && Alive(s.links[0].value, 1, 0)
  }

  lemma QuietLink(s: State, k: nat)
    requires Quiet(s) && k < |s.links| && s.links[k].Some?
    ensures LinkQuiet(s.links[k].value, s.now)
  {
    hide LinkQuiet, PendingQuiet, NeedsRefresh, Unanswered;
    assert s.links[k] in s.links;
  }

  /** The announcement as the engine takes it. */
  lemma HearsFirst(s: State) returns (t: State)
    requires Stage1(s)
    ensures Prepare(s, Arrive(0, 1, Bytes(true, 0, 99))) == (Ok, t)
    ensures Core(t) && !t.stopped && t == s.(links := t.links, cands := [Some(Learnt(1, 0, 0, 99))], mem := t.mem, msgs := t.msgs, before := [], ctl := t.ctl)
    ensures |t.links| == 1 && t.links[0].Some? && Alive(t.links[0].value, 1, 0) && LinkQuiet(t.links[0].value, 0)
  {
    hide Core, Begin, Prepare, Quiet, ReceiveAll, ReceiveMessage, LearnUpdate, LinkQuiet, Settings;
    Opens(s);
    var u := Begin(s, 0).1;
    Hearing(s, u, 1, 0, true, 0, 99);
    t := ReceiveAll(u, 0, Greeting() + [Hears(0, 99)]);
    GreetingReceived(u, 0, Hears(0, 99));
    Greeted(u, 0, 1);
    var v := ReceiveMessage(ReceiveMessage(u, 0, Greeting()[0]), 0, Greeting()[1]);
    QuietLink(s, 0);
    GreetingKeepsTimers(u, 0);
    Receives(v, 0, 1, 0, 99);
    LearnsNew(v, 1, 0, 99);
    assert Feasible(v.sources, Learnt(1, 0, 0, 99)) by { NoRecord(Learnt(1, 0, 0, 99)); }
  }

  lemma NoRecord(c: Candidate)
    ensures Feasible([], c)
  {
  }

  lemma GreetingKeepsTimers(u: State, li: nat)
    requires li < |u.links| && u.links[li].Some? && LinkQuiet(u.links[li].value, u.now) && !u.stopped
    ensures var v := ReceiveMessage(ReceiveMessage(u, li, Greeting()[0]), li, Greeting()[1]);
            li < |v.links| && v.links[li].Some? && LinkQuiet(v.links[li].value, u.now)
  {
  }

  lemma Receives(v: State, li: nat, id: u64, seqno: u16, metric: u16)
    requires li < |v.links| && v.links[li].Some? && id != 0 && v.links[li].value.config == Cable(id) && !v.stopped && v.cfg == Settings()
    ensures ReceiveMessage(v, li, Hears(seqno, metric)) == LearnUpdate(v, Cable(id), Hears(seqno, metric))
  {
    hide LearnUpdate, SelectRoutes;
  }

  lemma FirstHeard(s: State)
    requires Stage1(s)
    ensures var t := Apply(s, Arrive(0, 1, Bytes(true, 0, 99))).state;
            !t.stopped && (t.ctl.pending != 0 || t.ctl.ready) && forall x :: Resting(t, x) ==> Stage2(x)
  {
    hide Core, Finish, Quiet, Prepare, LinkQuiet;
    var t := HearsFirst(s);
    var c := Learnt(1, 0, 0, 99);
    AliveCosts(t, 0, 1, 0);
    assert Eligible(t, c) && Selected(t, c) == Entered(1, 0, 100) by { NoRecord(c); Weighs(t, c); }
    SelectsQuietly(t, c);
    forall x | Resting(Finish(t).1, x) ensures Stage2(x) { QuietAlone(Finish(t).1, x); }
  }

  /** What a candidate is worth over a link of cost one. */
  lemma Weighs(t: State, c: Candidate)
    requires t.cfg == Settings() && CostAt(t.links, c.route.link, t.now) == 1 && c.advertised < INFINITY - 1 && t.locals == []
    ensures Metric(t, c) == c.advertised + 1 && (Eligible(t, c) <==> Feasible(t.sources, c))
  {
    hide CostAt, Feasible;
  }

  // ----- Third event: a second link, on which the route is exported

  function Kept(): (x: Source) {
    Source(P(), 9, 0, 100, 180000)
  }

  /** The first neighbour is heard, the second attached. */
  ghost predicate TwoLinks(links: seq<Option<Link>>) {
    && |links| == 2 && links[0].Some? && links[1].Some? && Alive(links[0].value, 1, 0)
    && links[1].value.config == Cable(2) && !links[1].value.multicast.seen
  }

  ghost predicate Stage3(s: State) {
    && Common(s) && s.cands == [Some(Learnt(1, 0, 0, 99))] && s.sources == [Some(Kept())] && s.routes == [Entered(1, 0, 100)] && Soon(s.pace)
    && TwoLinks(s.links)
  }

  /** A full update of a one-entry table is one announcement. */
  lemma DumpsOne(a: State, id: u64)
    requires |a.routes| == 1
    ensures Dump(a, id, false, 0) == Advertise(a, id, a.routes[0].prefix, false)
  {
    hide Advertise;
  }

  lemma AdvertisesFirst(a: State, x: Route, li: nat)
    requires Core(a) && li < |a.links| && a.links[li].Some?
    requires a.routes == [x] && x.prefix == P() && x.link != a.links[li].value.config.id && !x.unreachable
    ensures Record(a, x).0 ==> Advertise(a, a.links[li].value.config.id, P(), false).sources == Record(a, x).1.sources
  {
    hide Core, Record, Queue;
    OnlyLink(a, li, a.links[li].value.config.id);
    LoneEntry(x);
  }

  lemma RecordsFirst(a: State, x: Route)
    requires a.cfg == Settings() && a.sources == [] && a.now == 0 && x == Entered(1, 0, 100)
    ensures Record(a, x).0 && Record(a, x).1.sources == [Some(Kept())]
  {
    var (slot, t, asks) := FreeSlot(a.cfg, a.mem.asks, a.sources, a.cfg.limits.sources);
    assert slot == Some(0) && |t| == 1;
    assert t[0 := Some(Kept())] == [Some(Kept())];
  }

  /** The quiet link does nothing; the new one greets, and exports the table. */
  lemma NewLinkExports(r: State)
    requires Core(r) && r.cfg == Settings() && r.now == 0 && r.sources == [] && r.routes == [Entered(1, 0, 100)]
    requires |r.links| == 2 && r.links[0].Some? && LinkQuiet(r.links[0].value, 0) && r.links[1] == Some(NewLink(Cable(2)))
    ensures LinkTimers(r, 0).sources == [Some(Kept())]
  {
    hide Core, HelloTimer, IhuTimer, UpdateTimer, Settings;
    var x := Entered(1, 0, 100);
    IdleLink(r, 0);
    BusyLink(r);
    var a := IhuTimer(HelloTimer(r, 1), 1);
    HelloTimerKeeps(r, 1);
    HelloRescheduled(r, 1);
    IhuTimerKeeps(HelloTimer(r, 1), 1);
    IhuRescheduled(HelloTimer(r, 1), 1);
    LateUpdate(r);
    DumpsOne(a, 2);
    AdvertisesFirst(a, x, 1);
    RecordsFirst(a, x);
  }

  lemma IdleLink(r: State, i: nat)
    requires i < |r.links| && r.links[i].Some? && LinkQuiet(r.links[i].value, r.now)
    ensures LinkTimers(r, i) == LinkTimers(r, i + 1)
  {
  }

  lemma BusyLink(r: State)
    requires |r.links| == 2 && r.links[1].Some?
    ensures var t := HelloTimer(r, 1);
            t.links[1].Some? && IhuTimer(t, 1).links[1].Some? && LinkTimers(r, 1) == UpdateTimer(IhuTimer(t, 1), 1)
  {
    hide HelloTimer, IhuTimer, UpdateTimer;
    OneLinkQuiet(r, 1);
    assert LinkTimers(UpdateTimer(IhuTimer(HelloTimer(r, 1), 1), 1), 2) == UpdateTimer(IhuTimer(HelloTimer(r, 1), 1), 1);
  }

  lemma LateUpdate(r: State)
    requires |r.links| == 2 && r.links[1].Some? && r.links[1].value.nextUpdate <= r.now
    ensures var t := HelloTimer(r, 1);
            t.links[1].Some? && IhuTimer(t, 1).links[1].Some?
            && UpdateTimer(IhuTimer(t, 1), 1).sources == Dump(IhuTimer(t, 1), r.links[1].value.config.id, false, 0).sources
  {
    hide Queue, Dump, Jitter;
  }

  lemma SecondLinkUp(s: State)
    requires Stage2(s)
    ensures var t := Apply(s, Attach(0, Cable(2))).state;
            !t.stopped && (t.ctl.pending != 0 || t.ctl.ready) && forall x :: Resting(t, x) ==> Stage3(x)
  {
    hide Core, Finish, LinkTimers, Quiet, SelectRoutes, Collect, Prepare, LinkQuiet, Settings;
    Attaches(s, 2);
    var t := Prepare(s, Attach(0, Cable(2))).1;
    var c := Learnt(1, 0, 0, 99);
    QuietLink(s, 0);
    AliveCosts(t, 0, 1, 0);
    assert Eligible(t, c) && Selected(t, c) == Entered(1, 0, 100) by { NoRecord(c); Weighs(t, c); }
    SelectsLone(t, c);
    var r1 := SelectRoutes(t);
    SelectKeeps(t);
    NewLinkExports(r1);
    var v := LinkTimers(r1, 0);
    LinkTimersPace(r1, 0);
    assert AllRescheduled(r1.links, v.links) by { LinkTimersQuiet(r1, 0); }
    CollectFull(v.(before := []));
    forall x | Resting(Finish(t).1, x) ensures Stage3(x) { QuietAlone(Finish(t).1, x); }
  }

  // ----- Fourth event: the first neighbour moves to 0x5000

  ghost predicate Stage4(s: State) {
    && Common(s) && s.cands == [Some(Learnt(1, 0, 0x5000, 50))] && s.sources == [Some(Kept())] && s.routes == [Entered(1, 0x5000, 51)]
    && Soon(s.pace) && TwoLinks(s.links)
  }

  lemma OldRecord(c: Candidate)
    requires c.route.prefix == P() && c.route.router == 9
    ensures Feasible([Some(Kept())], c) <==> c.advertised == INFINITY || Better(Distance(c.route.seqno, c.advertised), Distance(0, 100))
  {
    assert [Some(Kept())][0] == Some(Kept());
    assert SourceAt([Some(Kept())], P(), 9) == 0;
  }

  lemma HearsSecond(s: State) returns (t: State)
    requires Stage3(s)
    ensures Prepare(s, Arrive(0, 1, Bytes(false, 0x5000, 50))) == (Ok, t) && Core(t) && !t.stopped
    ensures t == s.(cands := [Some(Learnt(1, 0, 0x5000, 50))], mem := t.mem, msgs := t.msgs, before := s.routes, ctl := t.ctl)
  {
    hide Core, Prepare, Quiet, Begin, ReceiveAll, ReceiveMessage, LearnUpdate, Settings;
    Opens(s);
    var u := Begin(s, 0).1;
    Hearing(s, u, 1, 0, false, 0x5000, 50);
    assert [] + [Hears(0x5000, 50)] == [Hears(0x5000, 50)];
    OneReceived(u, 0, Hears(0x5000, 50));
    Receives(u, 0, 1, 0x5000, 50);
    OldRecord(Learnt(1, 0, 0x5000, 50));
    LearnsAgain(u, 1, Learnt(1, 0, 0, 99), 0x5000, 50);
    t := u.(cands := [Some(Learnt(1, 0, 0x5000, 50))]);
  }

  lemma SecondHeard(s: State)
    requires Stage3(s)
    ensures var t := Apply(s, Arrive(0, 1, Bytes(false, 0x5000, 50))).state;
            !t.stopped && (t.ctl.pending != 0 || t.ctl.ready) && forall x :: Resting(t, x) ==> Stage4(x)
  {
    hide Core, Finish, Quiet, Prepare, LinkQuiet, Settings;
    var t := HearsSecond(s);
    var c := Learnt(1, 0, 0x5000, 50);
    OldRecord(c);
    AliveCosts(t, 0, 1, 0);
    assert Eligible(t, c) && Selected(t, c) == Entered(1, 0x5000, 51) by { Weighs(t, c); }
    QuietLink(s, 0);
    QuietLink(s, 1);
    SelectsQuietly(t, c);
    forall x | Resting(Finish(t).1, x) ensures Stage4(x) { QuietAlone(Finish(t).1, x); }
  }

  // ----- Fifth event: the second neighbour, at 0xA000 and nearer

  function Near(): (c: Candidate) {
    Learnt(1, 0, 0x5000, 50)
  }

  function Far(): (c: Candidate) {
    Learnt(2, 100, 0xA000, 10)
  }

  lemma OpensLate(s: State)
    requires Stage4(s)
    ensures var (st, u) := Begin(s, 100);
            && st.Ok? && Core(u) && u == s.(mem := u.mem, before := s.routes, msgs := [], ctl := s.ctl.(cursor := 0, ready := false), now := 100)
  {
    hide Core, Quiet;
    BeginKeeps(s, 100);
    var u := Begin(s, 100).1;
    assert u.cands == s.cands && u.sources == s.sources && u.requests == s.requests;
  }

  /** Both announcements are known, and only the record of 0 stands. */
  ghost predicate Heard(t: State) {
    && Core(t) && !t.stopped && t.cfg == Settings() && t.now == 100 && t.locals == [] && t.drops == []
    && t.cands == [Some(Near()), Some(Far())] && t.sources == [Some(Kept())] && t.routes == [Entered(1, 0x5000, 51)] && Soon(t.pace)
    && |t.links| == 2 && t.links[0].Some? && t.links[1].Some? && Alive(t.links[0].value, 1, 0) && Alive(t.links[1].value, 2, 100)
  }

  lemma HearsBoth(s: State) returns (t: State)
    requires Stage4(s)
    ensures Prepare(s, Arrive(100, 2, Bytes(true, 0xA000, 10))) == (Ok, t) && Heard(t)
  {
    hide Core, Begin, Prepare, Quiet, ReceiveAll, ReceiveMessage, LearnUpdate, Settings;
    OpensLate(s);
    var u := Begin(s, 100).1;
    Hearing(s, u, 2, 1, true, 0xA000, 10);
    t := ReceiveAll(u, 1, Greeting() + [Hears(0xA000, 10)]);
    GreetingReceived(u, 1, Hears(0xA000, 10));
    Greeted(u, 1, 2);
    var v := ReceiveMessage(ReceiveMessage(u, 1, Greeting()[0]), 1, Greeting()[1]);
    Receives(v, 1, 2, 0xA000, 10);
    LearnsNew(v, 2, 0xA000, 10);
    assert [Some(Near())] + [Some(Far())] == [Some(Near()), Some(Far())];
  }

  lemma BothWeigh(t: State)
    requires Heard(t)
    ensures Metric(t, Near()) == 51 && Metric(t, Far()) == 11 && Eligible(t, Near()) && !Eligible(t, Far())
  {
    hide Core, Settings;
    AliveCosts(t, 0, 1, 0);
    AliveCosts(t, 1, 2, 100);
    OldRecord(Near());
    OldRecord(Far());
    Weighs(t, Near());
    Weighs(t, Far());
  }

  lemma NearIsChosen(t: State)
    requires Heard(t)
    ensures Choice(t, P()) == Some(Entered(1, 0x5000, 51)) && forall q :: q != P() ==> Choice(t, q).None? && !Reachable(t.routes, q)
  {
    hide Core, Settings, Choice, Eligible, Metric;
    BothWeigh(t);
    assert t.cands[0] == Some(Near());
    OnlyChoice(t, Near());
    LoneEntry(Entered(1, 0x5000, 51));
  }

  lemma NearIsSelected(t: State)
    requires Heard(t)
    ensures !SelectRoutes(t).stopped && SelectRoutes(t).routes == [Entered(1, 0x5000, 51)]
  {
    hide Core, SelectRoutes, Choice, SelectionOf;
    FewClaims(t);
    GrantedSelects(t);
    CoreShape(t);
    SelectMeetsSpec(t);
    NearIsChosen(t);
    Tables(t, SelectRoutes(t).routes, SelectRoutes(t).drops, Entered(1, 0x5000, 51));
  }

  // ----- The export

  /** The record once the selected route has been exported. */
  ghost predicate Exported(f: seq<Option<Source>>) {
    SourceFor(f, P(), 9).Some? && DistanceOf(SourceFor(f, P(), 9).value) == Distance(0x5000, 51)
  }

  lemma RecordsNear(a: State)
    requires Core(a) && a.routes == [Entered(1, 0x5000, 51)] && RecordedBy([Some(Kept())], a.sources, a.routes)
    ensures Record(a, Entered(1, 0x5000, 51)).0 && Exported(Record(a, Entered(1, 0x5000, 51)).1.sources)
  {
    hide Core;
    var x := Entered(1, 0x5000, 51);
    CoreShape(a);
    LoneEntry(x);
    var f := [Some(Kept())];
    assert f[0] == Some(Kept()) && SourceAt(f, P(), 9) == 0;
    assert KeyRecorded(f, a.sources, a.routes, P(), 9);
    RecordMeetsSpec(a, x, P(), 9);
  }

  /** Split horizon on the first link, the record on the second. */
  lemma DumpExports(v: State)
    requires Core(v) && v.routes == [Entered(1, 0x5000, 51)] && RecordedBy([Some(Kept())], v.sources, v.routes)
    requires |v.links| == 2 && v.links[0].Some? && v.links[1].Some? && v.links[0].value.config == Cable(1) && v.links[1].value.config == Cable(2)
    ensures Exported(DumpLinks(v, 0).sources)
  {
    hide Core, Dump, Record, RecordedBy, Exported;
    var x := Entered(1, 0x5000, 51);
    DumpsOne(v, 1);
    DumpsOne(v, 2);
    assert Advertise(v, 1, P(), false) == v by { OnlyLink(v, 0, 1); LoneEntry(x); }
    RecordsNear(v);
    AdvertisesFirst(v, x, 1);
    assert DumpLinks(v, 0) == DumpLinks(v, 1) == DumpLinks(Dump(v, 2, false, 0), 2) == Dump(v, 2, false, 0);
  }

  lemma TimersExport(r: State)
    requires Core(r) && r.now == 100 && r.routes == [Entered(1, 0x5000, 51)] && RecordedBy([Some(Kept())], r.sources, r.routes) && Soon(r.pace)
    requires |r.links| == 2 && r.links[0].Some? && r.links[1].Some? && r.links[0].value.config == Cable(1) && r.links[1].value.config == Cable(2)
    ensures Exported(Timers(r).sources)
  {
    hide Core, LinkTimers, DumpLinks, RequestTimers, RefreshTimers, RecordedBy, Exported;
    var v := LinkTimers(r, 0);
    LinkTimersKeepsRecorded([Some(Kept())], r, 0);
    LinkTimersKeeps(r, 0);
    LinkTimersPace(r, 0);
    assert AllRescheduled(r.links, v.links) by { LinkTimersQuiet(r, 0); }
    DumpExports(v);
  }

  lemma EventExports(t: State)
    requires Heard(t)
    ensures !Finish(t).0.Stopped? && Exported(Finish(t).1.sources)
  {
    hide Core, SelectRoutes, Timers, Collect, RecordedBy, Exported;
    NearIsSelected(t);
    SelectKeeps(t);
    SelectKeepsRecorded(t);
    SelectPace(t);
    var r1 := SelectRoutes(t);
    TimersExport(r1);
    var r2 := Timers(r1).(before := []);
    TimersKeeps(r1);
    CoreIgnoresMemory(Timers(r1), r2);
    CollectKeeps(r2);
    CollectSameEntries(r2);
    CoreShape(r2);
    CoreShape(Collect(r2));
    SameRecords(r2.sources, Collect(r2).sources);
  }

  lemma SameRecords(a: seq<Option<Source>>, b: seq<Option<Source>>)
    requires DistinctSources(a) && DistinctSources(b) && (forall x :: Some(x) in a <==> Some(x) in b) && Exported(a)
    ensures Exported(b)
  {
    ReorderedSources(a, b, P(), 9);
  }

  /** The export makes the farther sequence number feasible, and its route is
      shorter. */
  lemma FarOvertakes(t: State)
    requires Heard(t)
    ensures !Undisturbed(Finish(t).1)
  {
    hide Core, Finish, RecordedBy, SameCosts, Carried, Stemming, Settings, Metric, Remaining, StrictlySorted, Choice;
    EventExports(t);
    var f := Finish(t).1;
    FinishFollowed(t);
    NearIsChosen(t);
    EntryOfChoice(t, f, P());
    BothWeigh(t);
    assert t.cands[1] == Some(Far());
    var d := TwinAfter(t.cands, f.cands, Far());
    SameMetric(t, f, Far(), d);
    assert Feasible(f.sources, d);
    assert !HasLocal(f.locals, P()) by { NoLocals(t, f); }
    assert Overtakes(f, d);
  }

  lemma NoLocals(u: State, t: State)
    requires Followed(u, t) && u.locals == []
    ensures !HasLocal(t.locals, P())
  {
    hide SameCands, SameCosts, RecordedBy, Entry, Remaining, StrictlySorted;
    assert forall i :: 0 <= i < |t.locals| ==> t.locals[i] in t.locals;
  }

  lemma FinishControl(t: State)
    requires !Finish(t).0.Stopped?
    ensures !Finish(t).1.stopped && (Finish(t).1.ctl.pending != 0 || Finish(t).1.ctl.ready)
  {
    hide SelectRoutes, Timers, Collect;
  }

  // ----- The run

  /** The run from initialisation up to the fifth event. */
  lemma ReachesStage4() returns (es: seq<Event>)
    ensures Stage4(Run(Init(Settings(), 0), es))
  {
    hide Core, Apply, Run, Stage1, Stage2, Stage3, Stage4, Free, Settings, Cable, Bytes;
    var s := Init(Settings(), 0);
    assert Core(s) by { InitSteady(Settings(), 0); }
    es := [];
    assert Run(s, es) == s by { NoEvents(s); }
    FirstLinkUp();
    es := Continue(s, es, Attach(0, Cable(1)));
    FirstHeard(Run(s, es));
    es := Continue(s, es, Arrive(0, 1, Bytes(true, 0, 99)));
    SecondLinkUp(Run(s, es));
    es := Continue(s, es, Attach(0, Cable(2)));
    SecondHeard(Run(s, es));
    es := Continue(s, es, Arrive(0, 1, Bytes(false, 0x5000, 50)));
  }

  /** What the fifth event leaves. */
  lemma FifthEvent(s: State)
    requires Stage4(s)
    ensures var e := Arrive(100, 2, Bytes(true, 0xA000, 10));
            var t := Apply(s, e).state;
            && Prepare(s, e).0.Ok? && Core(t) && Quiet(t) && !Undisturbed(t) && !t.stopped && (t.ctl.pending != 0 || t.ctl.ready)
            && t.cfg == Settings() && t.now == 100
  {
    hide Core, Finish, Prepare, Undisturbed, Quiet, Settings, Bytes, Stage4;
    var t := HearsBoth(s);
    EventExports(t);
    FarOvertakes(t);
    FinishControl(t);
    FinishKeeps(t);
    FinishQuiet(t);
    FinishTime(t);
    FinishFollowed(t);
  }

  lemma QuietAwaits(x: State)
    requires Quiet(x) && !x.stopped && x.ctl.pending == 0 && x.now < U64_MAX
    ensures NextDeadline(x) > x.now
  {
    hide LinkQuiet, PendingQuiet, NeedsRefresh, Unanswered, LinksDue, CandsDue, SourcesDue, DropsDue, PendingsDue;
    TablesAhead(x);
  }

  lemma TablesAhead(x: State)
    requires x.now < U64_MAX
    ensures TablesDue(x) > x.now
  {
    hide LinksDue, CandsDue, SourcesDue, DropsDue, PendingsDue;
    var d1 := LinksDue(x.now, U64_MAX, x.links);
    LinksAhead(x.now, U64_MAX, x.links);
    var d2 := CandsDue(x.now, d1, x.cands);
    CandsAhead(x.now, d1, x.cands);
    var d3 := SourcesDue(x.now, d2, x.sources);
    SourcesAhead(x.now, d2, x.sources);
    var d4 := DropsDue(x.now, d3, x.drops);
    DropsAhead(x.now, d3, x.drops);
    PendingsAhead(x.now, d4, x.requests);
  }

  lemma {:induction false} LinksAhead(now: nat, next: nat, t: seq<Option<Link>>)
    requires next > now
    ensures LinksDue(now, next, t) > now
  {
    if t != [] { LinksAhead(now, if t[0].Some? then LinkDue(now, next, t[0].value) else next, t[1..]); }
  }

  lemma {:induction false} CandsAhead(now: nat, next: nat, t: seq<Option<Candidate>>)
    requires next > now
    ensures CandsDue(now, next, t) > now
  {
    if t != [] { CandsAhead(now, if t[0].Some? then CandDue(now, next, t[0].value) else next, t[1..]); }
  }

  lemma {:induction false} SourcesAhead(now: nat, next: nat, t: seq<Option<Source>>)
    requires next > now
    ensures SourcesDue(now, next, t) > now
  {
    if t != [] { SourcesAhead(now, if t[0].Some? then Sooner(now, next, t[0].value.expires) else next, t[1..]); }
  }

  lemma {:induction false} DropsAhead(now: nat, next: nat, t: seq<Option<Drop>>)
    requires next > now
    ensures DropsDue(now, next, t) > now
  {
    if t != [] { DropsAhead(now, if t[0].Some? then Sooner(now, next, t[0].value.expires) else next, t[1..]); }
  }

  lemma {:induction false} PendingsAhead(now: nat, next: nat, t: seq<Option<Pending>>)
    requires next > now
    ensures PendingsDue(now, next, t) > now
  {
    if t != [] { PendingsAhead(now, if t[0].Some? then PendingDue(now, next, t[0].value) else next, t[1..]); }
  }

  lemma NeverRefused(cfg: Config, from: nat, to: nat)
    requires cfg == Settings()
    ensures !Refusal(cfg, from, to)
  {
  }

  /** A run from initialisation to an engine that has completed an event, been
      committed and drained, and is strictly before its deadline: its tick
      changes the table. */
  lemma EarlyTickCanMove() returns (before: seq<Event>, e: Event, es: seq<Event>, now: nat)
    ensures var s := Run(Init(Settings(), 0), before);
            Timed(e) && Waiting(s, e, es, now) && !Silent(Run(Apply(s, e).state, es), now)
  {
    hide Core, Steady, Apply, Prepare, Run, NextDeadline, Undisturbed, Refusal, Quiet, Settings, Silent, Untimed, Free, Bytes;
    before := ReachesStage4();
    var s := Run(Init(Settings(), 0), before);
    assert !s.stopped && Core(s) by { Awake(s); }
    assert Steady(s) by { InitSteady(Settings(), 0); RunStaysSteady(Init(Settings(), 0), before); }
    FifthEvent(s);
    e, now := Arrive(100, 2, Bytes(true, 0xA000, 10)), 100;
    var t := Apply(s, e).state;
    es := CanRest(t);
    var x := Run(t, es);
    assert !x.stopped && x.ctl.pending == 0 && x.ctl.cursor >= |x.msgs| by { Rested(x); }
    QuietAlone(t, x);
    QuietAwaits(x);
    UndisturbedAlone(t, x);
    NeverRefused(x.cfg, x.mem.asks, Apply(x, Wake(now)).state.mem.asks);
    DeadlineIsExact(s, e, es, now);
  }

  lemma Awake(s: State)
    requires Stage4(s)
    ensures !s.stopped && Core(s)
  {
    hide Core;
  }

  lemma Rested(x: State)
    requires Free(x)
    ensures !x.stopped && x.ctl.pending == 0 && x.ctl.cursor >= |x.msgs|
  {
  }
}
