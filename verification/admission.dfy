/** Admission control over whole events: the ceilings of engine.c never stop the
    engine, only a refused allocation does. */
module Admission {
  import opened Types
  import opened Prefixes
  import opened Seqno
  import opened EngineState
  import opened Engine
  import opened EngineEvents
  import opened Selection
  import opened Invariant
  import opened Limits
  import opened Settled

  /** What admission control maintains in the middle of an event. */
  ghost predicate Fitting(s: State) {
    |Admitted(s)| <= s.cfg.limits.routes && Backed(s)
  }

  lemma FittingIsBounded(s: State)
    requires Fitting(s)
    ensures Bounded(s)
  {
    assert Claimed(s) == Admitted(s);
  }

  /** The outcome of a step: it fits again, or memory was refused on the way. */
  ghost predicate FitsOrRefused(s: State, r: State) {
    && r.cfg == s.cfg && s.mem.asks <= r.mem.asks
    && (r.stopped ==> Refusal(s.cfg, s.mem.asks, r.mem.asks))
    && (!r.stopped ==> Fitting(r))
  }

  lemma OutcomesCompose(s: State, t: State, r: State)
    requires FitsOrRefused(s, t) && (!t.stopped ==> FitsOrRefused(t, r))
    requires t.stopped ==> r.stopped && r.cfg == s.cfg && t.mem.asks <= r.mem.asks
    ensures FitsOrRefused(s, r)
  {
    hide Fitting;
    if t.stopped {
      var k :| s.mem.asks <= k < t.mem.asks && !s.cfg.grant(k);
      assert s.mem.asks <= k < r.mem.asks && !s.cfg.grant(k);
    } else if r.stopped {
      var k :| t.mem.asks <= k < r.mem.asks && !s.cfg.grant(k);
      assert s.mem.asks <= k < r.mem.asks && !s.cfg.grant(k);
    }
  }

  /** Every entry of a fresh selection rests on an entry of another table. */
  lemma EntryIsBacked(s: State, r: State, p: Prefix)
    requires SelectionOf(s, r.routes, r.drops) && r.cands == s.cands && r.locals == s.locals && RouteFor(r.routes, p).Some?
    ensures p in Admitted(r)
  {
    hide Eligible, Best;
    assert RouteFor(r.routes, p) == Entry(s, p) && DropFor(r.drops, p) == Remaining(s, p);
    if HasLocal(s.locals, p) {
      assert s.locals[LocalAt(s.locals, p)] in s.locals;
    } else if Choice(s, p).Some? {
      ChoiceIsWinner(s, p);
    }
  }

  lemma SelectFitting(s: State)
    requires Core(s) && Bounded(s) && !s.stopped
    ensures FitsOrRefused(s, SelectRoutes(s))
  {
    hide Core, SelectRoutes, InSet, RoutePrefixes, CandPrefixes, LocalPrefixes, DropPrefixes, Refusal;
    var r := SelectRoutes(s);
    SelectFits(s);
    if !r.stopped {
      SelectBacked(s);
      assert Admitted(r) <= Claimed(s);
      SubsetSize(Admitted(r), Claimed(s));
    }
  }

  lemma SelectBacked(s: State)
    requires Core(s) && !s.stopped && !SelectRoutes(s).stopped
    ensures RoutePrefixes(SelectRoutes(s).routes) <= Admitted(SelectRoutes(s))
  {
    hide Core, SelectRoutes, SelectionOf, Admitted;
    var r := SelectRoutes(s);
    CoreShape(s);
    SelectMeetsSpec(s);
    forall p | p in RoutePrefixes(r.routes) ensures p in Admitted(r) {
      assert RouteFor(r.routes, p).Some?;
      EntryIsBacked(s, r, p);
    }
  }

  /** Steps that leave the counted tables and the routes alone. */
  lemma UncountedStep(s: State, r: State)
    requires Fitting(s) && !s.stopped && r.cfg == s.cfg && s.mem.asks <= r.mem.asks && !r.stopped
    requires r.cands == s.cands && r.locals == s.locals && r.drops == s.drops && r.routes == s.routes
    ensures FitsOrRefused(s, r)
  {
  }

  // ----- Learning a route

  lemma PrefixesOfSet(t: seq<Option<Candidate>>, k: nat, c: Candidate)
    requires k < |t| && (t[k].Some? ==> t[k].value.route.prefix == c.route.prefix)
    ensures CandPrefixes(t[k := Some(c)]) == CandPrefixes(t) + {c.route.prefix}
  {
    var u := t[k := Some(c)];
    forall p | p in CandPrefixes(u) ensures p in CandPrefixes(t) + {c.route.prefix} {
      var i :| 0 <= i < |u| && u[i].Some? && u[i].value.route.prefix == p;
      assert i != k ==> t[i] in t;
    }
    forall p | p in CandPrefixes(t) + {c.route.prefix} ensures p in CandPrefixes(u) {
      if p != c.route.prefix {
        var i :| 0 <= i < |t| && t[i].Some? && t[i].value.route.prefix == p;
        assert u[i] in u;
      } else {
        assert u[k] in u;
      }
    }
  }

  lemma PrefixesOfSame(t: seq<Option<Candidate>>, u: seq<Option<Candidate>>)
    requires |t| == |u| && forall i :: 0 <= i < |t| ==> t[i].Some? == u[i].Some? && (t[i].Some? ==> t[i].value.route.prefix == u[i].value.route.prefix)
    ensures CandPrefixes(t) == CandPrefixes(u)
  {
  }

  lemma PrefixesOfMembers(t: seq<Option<Candidate>>, u: seq<Option<Candidate>>)
    requires forall x :: Some(x) in t <==> Some(x) in u
    ensures CandPrefixes(t) == CandPrefixes(u)
  {
    forall p ensures p in CandPrefixes(t) <==> p in CandPrefixes(u) { }
  }

  lemma AddedFits(s: State, r: State, p: Prefix)
    requires Fitting(s) && Admissible(s, p) && !s.stopped && !r.stopped && r.cfg == s.cfg && s.mem.asks <= r.mem.asks
    requires Admitted(s) <= Admitted(r) <= Admitted(s) + {p} && r.routes == s.routes
    ensures FitsOrRefused(s, r)
  {
    SubsetSize(Admitted(r), Admitted(s) + {p});
  }

  lemma SlotIsAdmissible(s: State, p: Prefix, link: u64)
    ensures var (slot, t) := CandSlot(s, p, link);
            && CandPrefixes(t.cands) == CandPrefixes(s.cands)
            && (slot.Some? ==> Admissible(s, p) && (t.cands[slot.value].Some? ==> t.cands[slot.value].value.route.prefix == p))
  {
    var i := CandAt(s.cands, p, link);
    if i < |s.cands| {
      assert s.cands[i] in s.cands;
    } else if Admissible(s, p) {
      var (slot, t, asks) := FreeSlot(s.cfg, s.mem.asks, s.cands, s.cfg.limits.candidates);
      PrefixesOfMembers(t, s.cands);
    }
  }

  lemma LearnFits(s: State, l: LinkConfig, m: Message)
    requires Fitting(s) && !s.stopped && m.Update? && m.target.Some? && m.metric != INFINITY
    ensures FitsOrRefused(s, LearnUpdate(s, l, m))
  {
    hide CandSlot, Chase, Refused, Trigger, Fitting, FitsOrRefused;
    var p := m.target.value;
    if Refused(s, l, m) {
      UncountedStep(s, s);
    } else {
      SlotIsAdmissible(s, p, l.id);
      var (slot, t) := CandSlot(s, p, l.id);
      if slot.None? {
        AdmittedSame(s, t);
        SameAdmissions(s, t);
      } else {
        PrefixesOfSet(t.cands, slot.value, Learned(s, l.id, m));
        AddedFits(s, LearnUpdate(s, l, m), p);
      }
    }
  }

  lemma AdmittedSame(s: State, r: State)
    requires CandPrefixes(r.cands) == CandPrefixes(s.cands) && r.locals == s.locals && r.drops == s.drops
    ensures Admitted(r) == Admitted(s)
  {
  }

  lemma SameAdmissions(s: State, r: State)
    requires Fitting(s) && !s.stopped && r.cfg == s.cfg && s.mem.asks <= r.mem.asks && !r.stopped
    requires Admitted(r) == Admitted(s) && r.routes == s.routes
    ensures FitsOrRefused(s, r)
  {
  }

  lemma LearnUpdateFits(s: State, l: LinkConfig, m: Message)
    requires Fitting(s) && !s.stopped && m.Update? && (m.target.None? ==> m.metric == INFINITY)
    ensures FitsOrRefused(s, LearnUpdate(s, l, m))
  {
    hide Fitting, FitsOrRefused, Refused, CandSlot, Chase, Trigger;
    if m.target.Some? && m.metric != INFINITY {
      LearnFits(s, l, m);
    } else {
      var r := LearnUpdate(s, l, m);
      PrefixesOfSame(s.cands, r.cands);
      AdmittedSame(s, r);
      SameAdmissions(s, r);
    }
  }

  // ----- Received messages

  lemma AnswerRequestFits(s: State, li: nat, target: Option<Prefix>)
    requires Core(s) && Fitting(s) && !s.stopped && li < |s.links| && s.links[li].Some?
    ensures FitsOrRefused(s, AnswerRequest(s, li, target))
  {
    hide Core, Fitting, SelectRoutes, Advertise, Dump;
    FittingIsBounded(s);
    SelectFitting(s);
    var t := SelectRoutes(s);
    var r := AnswerRequest(s, li, target);
    if !t.stopped { UncountedStep(t, r); }
    OutcomesCompose(s, t, r);
  }

  lemma BumpSteps(s: State, from: u64, p: Prefix)
    ensures var t := SelectRoutes(s.(seqno := (s.seqno + 1) % 0x1_0000));
            var r := Bump(s, from, p);
            r == t.(msgs := r.msgs, mem := r.mem, sources := r.sources) && t.mem.asks <= r.mem.asks
  {
    hide SelectRoutes, Advertise;
  }

  lemma BumpFits(s: State, from: u64, p: Prefix)
    requires Core(s) && Fitting(s) && !s.stopped
    ensures FitsOrRefused(s, Bump(s, from, p))
  {
    hide Core, Fitting, SelectRoutes, Advertise, FitsOrRefused, Bump, Bounded;
    BumpSteps(s, from, p);
    var s1 := s.(seqno := (s.seqno + 1) % 0x1_0000);
    CoreIgnoresMemory(s, s1);
    UncountedStep(s, s1);
    FitsNow(s, s1);
    FittingIsBounded(s1);
    SelectFitting(s1);
    var t := SelectRoutes(s1);
    Then(s1, t, Bump(s, from, p));
    Rebase(s, s1, Bump(s, from, p));
  }

  lemma FitsNow(s: State, r: State)
    requires FitsOrRefused(s, r) && !r.stopped
    ensures Fitting(r)
  {
  }

  lemma Rebase(s: State, t: State, r: State)
    requires t.cfg == s.cfg && t.mem == s.mem && FitsOrRefused(t, r)
    ensures FitsOrRefused(s, r)
  {
  }

  /** A selection followed by output only. */
  lemma Then(s: State, t: State, r: State)
    requires FitsOrRefused(s, t) && r.cfg == t.cfg && t.mem.asks <= r.mem.asks && r.stopped == t.stopped
    requires r.cands == t.cands && r.locals == t.locals && r.drops == t.drops && r.routes == t.routes
    ensures FitsOrRefused(s, r)
  {
    hide Fitting;
    if !t.stopped { UncountedStep(t, r); }
    OutcomesCompose(s, t, r);
  }

  lemma AnswerSeqRequestFits(s: State, from: u64, m: Message)
    requires Core(s) && Fitting(s) && !s.stopped && m.SeqRequest? && m.target.Some?
    ensures FitsOrRefused(s, AnswerSeqRequest(s, from, m))
  {
    hide Core, Fitting, Bump, Advertise, Forward, FitsOrRefused;
    var p := m.target.value;
    var r := RouteFor(s.routes, p);
    if r.Some? && !r.value.unreachable && (r.value.router != m.router || AtLeast(r.value.seqno, m.seqno)) {
      UncountedStep(s, Advertise(s, from, p, true));
    } else if r.Some? && !r.value.unreachable && r.value.local {
      BumpFits(s, from, p);
    } else {
      UncountedStep(s, Forward(s, from, m));
    }
  }

  /** A stopped engine stays stopped, whatever else a request does to it. */
  lemma StoppedAnswers(s: State, from: u64, m: Message)
    requires s.stopped && m.SeqRequest? && m.target.Some?
    ensures AnswerSeqRequest(s, from, m).stopped
  {
    hide Advertise, Forward;
  }

  lemma SeqRequestFits(s: State, from: u64, m: Message)
    requires Core(s) && Fitting(s) && !s.stopped && m.SeqRequest? && m.target.Some?
    ensures FitsOrRefused(s, AnswerSeqRequest(SelectRoutes(s), from, m))
  {
    hide Core, Fitting, SelectRoutes, AnswerSeqRequest;
    FittingIsBounded(s);
    SelectFitting(s);
    SelectKeeps(s);
    var t := SelectRoutes(s);
    var r := AnswerSeqRequest(t, from, m);
    if t.stopped { StoppedAnswers(t, from, m); } else { AnswerSeqRequestFits(t, from, m); }
    OutcomesCompose(s, t, r);
  }

  lemma ReceiveMessageFits(s: State, li: nat, m: Message)
    requires Core(s) && Fitting(s) && !s.stopped && li < |s.links| && s.links[li].Some? && Delivered(m)
    ensures FitsOrRefused(s, ReceiveMessage(s, li, m))
  {
    hide Core, Fitting, FitsOrRefused, SelectRoutes, LearnUpdate, AnswerRequest, AnswerSeqRequest, Queue, HearNeighbour;
    var l := s.links[li].value;
    UncountedStep(s, s);
    if !(s.cfg.localOnly && m.SeqRequest? && m.router != s.cfg.router) {
      match m
      case Hello(_, _, _) => UncountedStep(s, ReceiveMessage(s, li, m));
      case Ihu(_, _, _) => UncountedStep(s, ReceiveMessage(s, li, m));
      case AckRequest(o, _) => UncountedStep(s, ReceiveMessage(s, li, m));
      case Ack(_) =>
      case Update(_, _, _, _, _, _, _) => LearnUpdateFits(s, l.config, m);
      case RouteRequest(target) => AnswerRequestFits(s, li, target);
      case SeqRequest(target, _, _, _) => SeqRequestFits(s, l.config.id, m);
    }
  }

  lemma {:induction false} StoppedReceives(s: State, li: nat, ms: seq<Message>)
    requires s.stopped && li < |s.links| && s.links[li].Some?
    ensures ReceiveAll(s, li, ms) == s
    decreases |ms|
  {
    if ms != [] { StoppedReceives(s, li, ms[1..]); }
  }

  lemma {:induction false} ReceiveAllFits(s: State, li: nat, ms: seq<Message>)
    requires Core(s) && Fitting(s) && !s.stopped && li < |s.links| && s.links[li].Some? && forall m :: m in ms ==> Delivered(m)
    ensures FitsOrRefused(s, ReceiveAll(s, li, ms))
    decreases |ms|
  {
    hide Core, Fitting, ReceiveMessage, Delivered;
    if ms == [] {
      UncountedStep(s, s);
    } else {
      ReceiveMessageFits(s, li, ms[0]);
      ReceiveMessageKeeps(s, li, ms[0]);
      var t := ReceiveMessage(s, li, ms[0]);
      if t.stopped { StoppedReceives(t, li, ms[1..]); } else { ReceiveAllFits(t, li, ms[1..]); }
      OutcomesCompose(s, t, ReceiveAll(s, li, ms));
    }
  }
}
