/** The binary checkpoint (history.c): what is saved, what is restored, and why
    a restart neither forgets a feasibility verdict nor reuses a prefix early. */
module History {
  import opened Types
  import opened Prefixes
  import opened EngineState
  import opened Engine
  import opened EngineEvents
  import opened Wire
  import opened Selection
  import opened Invariant
  import opened Limits
  import opened RunLimits
  import opened Network

  // ----- What is saved

  const HEADER := 40
  const SOURCE_SIZE := 30
  const PREFIX_SIZE := 18

  function PrefixImage(p: Prefix): (r: seq<byte>)
    ensures |r| == PREFIX_SIZE
  {
    p.bytes + [p.bits, p.family]
  }

  function SourceImage(x: Source): (r: seq<byte>)
    ensures |r| == SOURCE_SIZE
  {
    PrefixImage(x.prefix) + Put(x.router, 8) + Put(x.seqno, 2) + Put(x.metric, 2)
  }

  /** The entries of a table in slot order. */
  function Used<T>(t: seq<Option<T>>): (r: seq<T>)
    ensures |r| <= |t|
  {
    if t == [] then [] else Used(t[..|t| - 1]) + (if t[|t| - 1].Some? then [t[|t| - 1].value] else [])
  }

  /** Prefixes of suppression records that have no selected entry. */
  function Leftover(drops: seq<Option<Drop>>, routes: seq<Route>): (r: seq<Prefix>) {
    if drops == [] then []
    else
      var rest := Leftover(drops[..|drops| - 1], routes);
      var d := drops[|drops| - 1];
      if d.Some? && RouteFor(routes, d.value.prefix).None? then rest + [d.value.prefix] else rest
  }

  function Routed(routes: seq<Route>): (r: seq<Prefix>)
    ensures |r| == |routes| && forall i :: 0 <= i < |r| ==> r[i] == routes[i].prefix
  {
    seq(|routes|, i requires 0 <= i < |routes| => routes[i].prefix)
  }

  /** Everything that must stay suppressed after a restart. */
  function Withheld(s: State): (r: seq<Prefix>) {
    Routed(s.routes) + Leftover(s.drops, s.routes)
  }

  function SourceImages(xs: seq<Source>): (r: seq<byte>)
    ensures |r| == SOURCE_SIZE * |xs|
  {
    if xs == [] then [] else SourceImages(xs[..|xs| - 1]) + SourceImage(xs[|xs| - 1])
  }

  function PrefixImages(ps: seq<Prefix>): (r: seq<byte>)
    ensures |r| == PREFIX_SIZE * |ps|
  {
    if ps == [] then [] else PrefixImages(ps[..|ps| - 1]) + PrefixImage(ps[|ps| - 1])
  }

  /** The longest suppression still to run, at least one hold time. */
  function Longest(drops: seq<Option<Drop>>, now: nat, least: nat): (r: nat)
    ensures r >= least
  {
    if drops == [] then least
    else
      var rest := Longest(drops[..|drops| - 1], now, least);
      var d := drops[|drops| - 1];
      if d.Some? && d.value.expires > now && d.value.expires - now > rest then d.value.expires - now else rest
  }

  function DropMs(s: State): (r: nat) {
    Longest(s.drops, s.now, Hold(s.cfg.update))
  }

  const MAGIC: seq<byte> := [0x57, 0x42, 0x43, 0x31]

  function HeaderImage(s: State, sources: nat, drops: nat): (r: seq<byte>)
    ensures |r| == HEADER
  {
    MAGIC + Put(s.cfg.router, 8) + Put(s.seqno, 2) + Put(s.lastLink, 8) + Put(sources, 2) + Put(drops, 2)
    + Put(s.cfg.source, 4) + Put(DropMs(s), 4) + [0, 0, 0, 0, 0, 0]
  }

  function Image(s: State): (r: seq<byte>)
    ensures |r| == HEADER + SOURCE_SIZE * |Used(s.sources)| + PREFIX_SIZE * |Withheld(s)|
  {
    HeaderImage(s, |Used(s.sources)|, |Withheld(s)|) + SourceImages(Used(s.sources)) + PrefixImages(Withheld(s))
  }

  // ----- What is restored

  function Get32(s: seq<byte>): (r: u32)
    requires |s| == 4
  {
    GetBound(s); Powers();
    Get(s)
  }

  function ReadPrefix(b: seq<byte>): (r: Prefix)
    requires |b| == PREFIX_SIZE
  {
    Prefix(b[..16], b[16], b[17])
  }

  function ReadSource(b: seq<byte>, expires: nat): (r: Source)
    requires |b| == SOURCE_SIZE
  {
    Source(ReadPrefix(b[..18]), Get64(b[18..26]), Get16(b[26..28]), Get16(b[28..30]), expires)
  }

  /** A record that may join those already read. */
  predicate Admits(xs: seq<Source>, x: Source) {
    && Valid(x.prefix) && RouterId(x.router) && x.metric != INFINITY
    && forall i :: 0 <= i < |xs| ==> !(xs[i].router == x.router && xs[i].prefix == x.prefix)
  }

  function ReadSources(b: seq<byte>, count: nat, expires: nat, xs: seq<Source>): (r: (bool, seq<Source>))
    requires |xs| <= count && SOURCE_SIZE * count <= |b|
    ensures |r.1| <= count && (r.0 ==> |r.1| == count)
    decreases count - |xs|
  {
    if |xs| == count then (true, xs)
    else
      var x := ReadSource(b[SOURCE_SIZE * |xs|..SOURCE_SIZE * |xs| + SOURCE_SIZE], expires);
      if Admits(xs, x) then ReadSources(b, count, expires, xs + [x]) else (false, xs)
  }

  function ReadDrops(b: seq<byte>, count: nat, expires: nat, ds: seq<Drop>): (r: (bool, seq<Drop>))
    requires |ds| <= count && PREFIX_SIZE * count <= |b|
    ensures |r.1| <= count && (r.0 ==> |r.1| == count)
    decreases count - |ds|
  {
    if |ds| == count then (true, ds)
    else
      var p := ReadPrefix(b[PREFIX_SIZE * |ds|..PREFIX_SIZE * |ds| + PREFIX_SIZE]);
      if Valid(p) && forall i :: 0 <= i < |ds| ==> ds[i].prefix != p then ReadDrops(b, count, expires, ds + [Drop(p, expires)]) else (false, ds)
  }

  /** A table of the given capacity whose first slots are xs. */
  function Slots<T(!new)>(xs: seq<T>, cap: nat): (r: seq<Option<T>>)
    requires |xs| <= cap
    ensures |r| == cap && forall i :: 0 <= i < cap ==> r[i] == if i < |xs| then Some(xs[i]) else None
  {
    seq(cap, i => if 0 <= i < |xs| then Some(xs[i]) else None)
  }

  predicate Headed(cfg: ConfigData, data: seq<byte>) {
    && |data| >= HEADER && data[..4] == MAGIC && Get64(data[4..12]) == cfg.router && data[34..40] == [0, 0, 0, 0, 0, 0]
    && Get16(data[22..24]) <= cfg.limits.sources && Get16(data[24..26]) <= cfg.limits.routes
    && |data| == HEADER + SOURCE_SIZE * Get16(data[22..24]) + PREFIX_SIZE * Get16(data[24..26])
    && 180000 <= Get32(data[26..30]) <= 86400000 && 0 < Get32(data[30..34]) <= 86400000
  }

  /** The configuration a restored engine runs with: source records never live
      shorter than they were promised to. */
  function Raised(cfg: ConfigData, source: nat): (r: ConfigData) {
    if cfg.source < source then cfg.(source := source) else cfg
  }

  /** None when the engine was not touched. */
  function Restore(cfg: ConfigData, data: seq<byte>): (r: (Status, Option<State>)) {
    if !Headed(cfg, data) then (Invalid, None)
    else
      var c := Raised(cfg, Get32(data[26..30]));
      if !Accepted(c) then (Invalid, None)
      else Refill(Init(c, Get16(data[12..14])), data)
  }

  function DropLife(c: Config, data: seq<byte>): (r: nat)
    requires |data| >= HEADER
  {
    if Get32(data[30..34]) > Hold(c.update) then Get32(data[30..34]) else Hold(c.update)
  }

  function Refill(e: State, data: seq<byte>): (r: (Status, Option<State>))
    requires Headed(e.cfg, data)
  {
    var c := e.cfg;
    var sources, drops := Get16(data[22..24]), Get16(data[24..26]);
    var (ok1, cap1, a1) := Reserve(c, e.mem.asks, |e.sources|, sources, c.limits.sources);
    var (ok2, cap2, a2) := if ok1 then Reserve(c, a1, |e.drops|, drops, c.limits.routes) else (false, |e.drops|, a1);
    var e1 := Asked(e, a2).(sources := if ok1 then Slots([], cap1) else e.sources);
    if !ok1 || !ok2 then (Limit, Some(e1.(stopped := true)))
    else
      var body := data[HEADER..];
      var (good1, xs) := ReadSources(body[..SOURCE_SIZE * sources], sources, c.source, []);
      var e2 := e1.(sources := Slots(xs, cap1), drops := Slots([], cap2), lastLink := Get64(data[14..22]));
      if !good1 then (Invalid, Some(e2.(stopped := true)))
      else
        var (good2, ds) := ReadDrops(body[SOURCE_SIZE * sources..], drops, DropLife(c, data), []);
        var e3 := e2.(drops := Slots(ds, cap2));
        (if good2 then Ok else Invalid, Some(if good2 then e3 else e3.(stopped := true)))
  }

  // ----- Reading inverts writing

  lemma ReadsPrefix(p: Prefix)
    ensures ReadPrefix(PrefixImage(p)) == p
  {
    assert PrefixImage(p)[..16] == p.bytes;
  }

  lemma ReadsSource(x: Source, expires: nat)
    ensures ReadSource(SourceImage(x), expires) == x.(expires := expires)
  {
    hide PrefixImage, Put, Get;
    var b := SourceImage(x);
    assert b[..18] == PrefixImage(x.prefix) && b[18..26] == Put(x.router, 8) && b[26..28] == Put(x.seqno, 2) && b[28..30] == Put(x.metric, 2);
    ReadsPrefix(x.prefix);
    RoundTrip64(x.router);
    RoundTrip16(x.seqno);
    RoundTrip16(x.metric);
  }

  lemma {:induction false} SourceImageAt(xs: seq<Source>, i: nat)
    requires i < |xs|
    ensures SourceImages(xs)[SOURCE_SIZE * i..SOURCE_SIZE * i + SOURCE_SIZE] == SourceImage(xs[i])
    decreases |xs|
  {
    var m := |xs| - 1;
    if i < m {
      SourceImageAt(xs[..m], i);
      assert SourceImages(xs)[SOURCE_SIZE * i..SOURCE_SIZE * i + SOURCE_SIZE] == SourceImages(xs[..m])[SOURCE_SIZE * i..SOURCE_SIZE * i + SOURCE_SIZE];
    }
  }

  lemma {:induction false} PrefixImageAt(ps: seq<Prefix>, i: nat)
    requires i < |ps|
    ensures PrefixImages(ps)[PREFIX_SIZE * i..PREFIX_SIZE * i + PREFIX_SIZE] == PrefixImage(ps[i])
    decreases |ps|
  {
    var m := |ps| - 1;
    if i < m {
      PrefixImageAt(ps[..m], i);
      assert PrefixImages(ps)[PREFIX_SIZE * i..PREFIX_SIZE * i + PREFIX_SIZE] == PrefixImages(ps[..m])[PREFIX_SIZE * i..PREFIX_SIZE * i + PREFIX_SIZE];
    }
  }

  /** xs with every lifetime set to `expires`. */
  function Renewed(xs: seq<Source>, expires: nat): (r: seq<Source>)
    ensures |r| == |xs| && forall i :: 0 <= i < |xs| ==> r[i] == xs[i].(expires := expires)
  {
    seq(|xs|, i requires 0 <= i < |xs| => xs[i].(expires := expires))
  }

  predicate Storable(xs: seq<Source>) {
    && (forall i :: 0 <= i < |xs| ==> Valid(xs[i].prefix) && RouterId(xs[i].router) && xs[i].metric != INFINITY)
    && (forall i, j :: 0 <= i < j < |xs| ==> !(xs[i].router == xs[j].router && xs[i].prefix == xs[j].prefix))
  }

  lemma {:induction false} ReadsSources(xs: seq<Source>, expires: nat, i: nat)
    requires Storable(xs) && i <= |xs|
    ensures ReadSources(SourceImages(xs), |xs|, expires, Renewed(xs, expires)[..i]) == (true, Renewed(xs, expires))
    decreases |xs| - i
  {
    hide SourceImages, SourceImage, ReadSource, Valid;
    var ys := Renewed(xs, expires);
    if i == |xs| {
      assert ys[..i] == ys;
    } else {
      SourceImageAt(xs, i);
      ReadsSource(xs[i], expires);
      assert ys[..i] + [ys[i]] == ys[..i + 1];
      ReadsSources(xs, expires, i + 1);
    }
  }

  function Shelved(ps: seq<Prefix>, expires: nat): (r: seq<Drop>)
    ensures |r| == |ps| && forall i :: 0 <= i < |ps| ==> r[i] == Drop(ps[i], expires)
  {
    seq(|ps|, i requires 0 <= i < |ps| => Drop(ps[i], expires))
  }

  predicate Distinguished(ps: seq<Prefix>) {
    Unrepeated(ps) && forall i :: 0 <= i < |ps| ==> Valid(ps[i])
  }

  predicate Unrepeated(ps: seq<Prefix>) {
    forall i, j :: 0 <= i < j < |ps| ==> ps[i] != ps[j]
  }

  lemma Joined(a: seq<Prefix>, b: seq<Prefix>)
    requires Unrepeated(a) && Unrepeated(b) && forall p :: p in b ==> p !in a
    ensures Unrepeated(a + b)
  {
    var r := a + b;
    forall i, j | 0 <= i < j < |r| ensures r[i] != r[j] {
      if i < |a| <= j {
        assert b[j - |a|] in b && a[i] in a;
      }
    }
  }

  lemma {:induction false} ReadsDrops(ps: seq<Prefix>, expires: nat, i: nat)
    requires Distinguished(ps) && i <= |ps|
    ensures ReadDrops(PrefixImages(ps), |ps|, expires, Shelved(ps, expires)[..i]) == (true, Shelved(ps, expires))
    decreases |ps| - i
  {
    hide PrefixImages, PrefixImage, ReadPrefix, Valid;
    var ds := Shelved(ps, expires);
    if i == |ps| {
      assert ds[..i] == ds;
    } else {
      PrefixImageAt(ps, i);
      ReadsPrefix(ps[i]);
      assert ds[..i] + [ds[i]] == ds[..i + 1];
      ReadsDrops(ps, expires, i + 1);
    }
  }

  // ----- What is saved is storable

  lemma {:induction false} UsedMembers<T(!new)>(t: seq<Option<T>>)
    ensures forall x :: x in Used(t) <==> Some(x) in t
  {
    if t != [] {
      var m := |t| - 1;
      UsedMembers(t[..m]);
      assert t == t[..m] + [t[m]];
    }
  }

  lemma {:induction false} UsedOrder<T(!new)>(t: seq<Option<T>>, i: nat, j: nat) returns (a: nat, b: nat)
    requires i < j < |Used(t)|
    ensures a < b < |t| && t[a] == Some(Used(t)[i]) && t[b] == Some(Used(t)[j])
    decreases |t|
  {
    var m := |t| - 1;
    if j < |Used(t[..m])| {
      a, b := UsedOrder(t[..m], i, j);
    } else {
      UsedMembers(t[..m]);
      assert Used(t)[i] == Used(t[..m])[i];
      a :| 0 <= a < m && t[..m][a] == Some(Used(t[..m])[i]);
      b := m;
    }
  }

  lemma SourcesStorable(s: State)
    requires SourcesOk(s.sources, s.now, s.cfg.source)
    ensures Storable(Used(s.sources))
  {
    var xs := Used(s.sources);
    UsedMembers(s.sources);
    forall i | 0 <= i < |xs| ensures SourceOk(xs[i], s.now, s.cfg.source) { assert xs[i] in xs; }
    forall i, j | 0 <= i < j < |xs| ensures !(xs[i].router == xs[j].router && xs[i].prefix == xs[j].prefix) {
      var a, b := UsedOrder(s.sources, i, j);
    }
  }

  lemma {:induction false} LeftoverMembers(drops: seq<Option<Drop>>, routes: seq<Route>)
    ensures forall p :: p in Leftover(drops, routes) <==> RouteFor(routes, p).None? && exists d :: Some(d) in drops && d.prefix == p
  {
    if drops != [] {
      var m := |drops| - 1;
      LeftoverMembers(drops[..m], routes);
      assert drops == drops[..m] + [drops[m]];
    }
  }

  lemma {:induction false} LeftoverDistinct(drops: seq<Option<Drop>>, routes: seq<Route>)
    requires DistinctDrops(drops)
    ensures Unrepeated(Leftover(drops, routes))
  {
    if drops != [] {
      var m := |drops| - 1;
      LeftoverDistinct(drops[..m], routes);
      LeftoverMembers(drops[..m], routes);
      var rest := Leftover(drops[..m], routes);
      if drops[m].Some? && RouteFor(routes, drops[m].value.prefix).None? {
        var p := drops[m].value.prefix;
        assert p !in rest;
        Joined(rest, [p]);
      }
    }
  }

  lemma WithheldMembers(s: State, p: Prefix)
    ensures p in Withheld(s) <==> RouteFor(s.routes, p).Some? || DropFor(s.drops, p).Some?
  {
    LeftoverMembers(s.drops, s.routes);
    if RouteFor(s.routes, p).Some? {
      var i := RouteAt(s.routes, p);
      assert Withheld(s)[i] == p;
    }
    if p in Routed(s.routes) {
      var i :| 0 <= i < |s.routes| && Routed(s.routes)[i] == p;
      assert s.routes[i] in s.routes;
    }
  }

  lemma WithheldDistinguished(s: State)
    requires RoutesOk(s.routes) && DropsOk(s.drops, s.now)
    ensures Distinguished(Withheld(s))
  {
    hide Valid;
    var a, b, ps := Routed(s.routes), Leftover(s.drops, s.routes), Withheld(s);
    LeftoverMembers(s.drops, s.routes);
    LeftoverDistinct(s.drops, s.routes);
    assert Unrepeated(a) by {
      forall i, j | 0 <= i < j < |a| ensures a[i] != a[j] { assert s.routes[i].prefix != s.routes[j].prefix; }
    }
    forall p | p in b ensures p !in a && Valid(p) {
      forall i | 0 <= i < |a| ensures a[i] != p { assert s.routes[i] in s.routes; }
    }
    Joined(a, b);
    forall i | 0 <= i < |ps| ensures Valid(ps[i]) {
      if i < |a| { assert s.routes[i] in s.routes; } else { assert ps[i] == b[i - |a|] && b[i - |a|] in b; }
    }
  }

  /** Everything withheld has a claim on the route table, so it fits. */
  lemma {:induction false} PrefixesFit(ps: seq<Prefix>, a: set<Prefix>)
    requires Distinguished(ps) && forall p :: p in ps ==> p in a
    ensures |ps| <= |a|
  {
    if ps != [] {
      var m := |ps| - 1;
      PrefixesFit(ps[..m], a - {ps[m]});
    }
  }

  lemma WithheldFits(s: State)
    requires Core(s) && Steady(s)
    ensures |Withheld(s)| <= s.cfg.limits.routes
  {
    hide Core;
    var ps := Withheld(s);
    assert RoutesOk(s.routes) && DropsOk(s.drops, s.now) by { CoreRoutes(s); CoreDrops(s); }
    WithheldDistinguished(s);
    forall p | p in ps ensures p in Admitted(s) {
      WithheldMembers(s, p);
      if RouteFor(s.routes, p).Some? { assert Supported(s, RouteFor(s.routes, p).value); }
    }
    PrefixesFit(ps, Admitted(s));
  }

  lemma {:induction false} LongestBound(drops: seq<Option<Drop>>, now: nat, least: nat, most: nat)
    requires least <= most && forall d :: Some(d) in drops ==> d.expires <= now + most
    ensures Longest(drops, now, least) <= most
    ensures forall d :: Some(d) in drops ==> d.expires <= now + Longest(drops, now, least)
  {
    if drops != [] {
      var m := |drops| - 1;
      LongestBound(drops[..m], now, least, most);
      assert drops == drops[..m] + [drops[m]];
    }
  }

  // ----- The round trip

  /** What a checkpoint needs of the engine: its counters are 16 bits wide. */
  predicate Countable(s: State) {
    |Used(s.sources)| < 0x1_0000 && |Withheld(s)| < 0x1_0000
  }

  /** The allocator gives the restored engine the two tables it needs. */
  predicate Granted(s: State) {
    && (Used(s.sources) != [] ==> s.cfg.grant(0))
    && (Withheld(s) != [] ==> s.cfg.grant(if Used(s.sources) != [] then 1 else 0))
  }

  lemma HeaderFields(s: State, data: seq<byte>, sources: u16, drops: u16)
    requires |data| >= HEADER && data[..HEADER] == HeaderImage(s, sources, drops) && DropMs(s) <= DAY
    ensures data[..4] == MAGIC && Get64(data[4..12]) == s.cfg.router && Get16(data[12..14]) == s.seqno && Get64(data[14..22]) == s.lastLink
    ensures Get16(data[22..24]) == sources && Get16(data[24..26]) == drops && Get32(data[26..30]) == s.cfg.source && Get32(data[30..34]) == DropMs(s)
    ensures data[34..40] == [0, 0, 0, 0, 0, 0]
  {
    hide Put, Get, Longest;
    var h := HeaderImage(s, sources, drops);
    assert data[..4] == h[..4] && data[4..12] == h[4..12] && data[12..14] == h[12..14] && data[14..22] == h[14..22];
    assert data[22..24] == h[22..24] && data[24..26] == h[24..26] && data[26..30] == h[26..30] && data[30..34] == h[30..34] && data[34..40] == h[34..40];
    assert h[..4] == MAGIC && h[4..12] == Put(s.cfg.router, 8) && h[12..14] == Put(s.seqno, 2) && h[14..22] == Put(s.lastLink, 8);
    assert h[22..24] == Put(sources, 2) && h[24..26] == Put(drops, 2) && h[26..30] == Put(s.cfg.source, 4) && h[30..34] == Put(DropMs(s), 4);
    RoundTrip64(s.cfg.router); RoundTrip16(s.seqno); RoundTrip64(s.lastLink); RoundTrip16(sources); RoundTrip16(drops);
    Powers(); GetPut(s.cfg.source, 4); GetPut(DropMs(s), 4);
  }

  lemma ImageParts(s: State)
    ensures var data := Image(s);
            var n := SOURCE_SIZE * |Used(s.sources)|;
            && data[..HEADER] == HeaderImage(s, |Used(s.sources)|, |Withheld(s)|)
            && data[HEADER..][..n] == SourceImages(Used(s.sources)) && data[HEADER..][n..] == PrefixImages(Withheld(s))
  {
    hide HeaderImage, SourceImages, PrefixImages, Withheld, Used;
  }

  lemma DropMsBound(s: State)
    requires DropsOk(s.drops, s.now)
    ensures 0 < Hold(s.cfg.update) <= DropMs(s) <= DAY && forall d :: Some(d) in s.drops ==> d.expires - s.now <= DropMs(s)
  {
    LongestBound(s.drops, s.now, Hold(s.cfg.update), DAY);
  }

  lemma SavedIsHeaded(s: State)
    requires Core(s) && Steady(s) && Countable(s)
    ensures Headed(s.cfg, Image(s)) && Get32(Image(s)[26..30]) == s.cfg.source && Get32(Image(s)[30..34]) == DropMs(s)
    ensures Get16(Image(s)[12..14]) == s.seqno && Get64(Image(s)[14..22]) == s.lastLink
    ensures Get16(Image(s)[22..24]) == |Used(s.sources)| && Get16(Image(s)[24..26]) == |Withheld(s)|
  {
    hide Core, HeaderImage, Steady, Withheld, Used, Get, Image, Longest;
    CoreDrops(s);
    DropMsBound(s);
    WithheldFits(s);
    ImageParts(s);
    assert |s.sources| <= s.cfg.limits.sources by { CoreSizes(s); }
    HeaderFields(s, Image(s), |Used(s.sources)|, |Withheld(s)|);
  }

  lemma LowPart(v: nat)
    ensures Get16(Put(v, 2)) == v % 0x1_0000
  {
    assert Put(v / 256, 1) == Put(v / 256 / 256, 0) + [v / 256 % 256];
    assert Put(v, 2) == [v / 256 % 256, v % 256];
    var b := Put(v, 2);
    assert b[..1] == [b[0]] && [b[0]][..0] == [];
    assert Get(b) == Get(b[..1]) * 256 + b[1] && Get([b[0]]) == Get([]) * 256 + b[0];
  }

  lemma HeaderCounts(s: State, data: seq<byte>, sources: nat, drops: nat)
    requires |data| >= HEADER && data[..HEADER] == HeaderImage(s, sources, drops)
    ensures Get16(data[22..24]) == sources % 0x1_0000 && Get16(data[24..26]) == drops % 0x1_0000
  {
    hide Put, Get, Longest;
    var h := HeaderImage(s, sources, drops);
    assert data[22..24] == h[22..24] && data[24..26] == h[24..26];
    assert h[22..24] == Put(sources, 2) && h[24..26] == Put(drops, 2);
    LowPart(sources);
    LowPart(drops);
  }

  /** A count that does not fit makes the header disagree with the length. */
  lemma SavedIsMisheaded(s: State)
    requires !Countable(s)
    ensures !Headed(s.cfg, Image(s))
  {
    hide HeaderImage, Withheld, Used, Get, Longest;
    ImageParts(s);
    HeaderCounts(s, Image(s), |Used(s.sources)|, |Withheld(s)|);
  }

  lemma CoreSizes(s: State)
    requires Core(s)
    ensures |s.sources| <= s.cfg.limits.sources
  {
  }

  /** The engine that a checkpoint of s brings back. */
  ghost predicate Reborn(s: State, t: State) {
    && t.cfg == s.cfg && t.seqno == s.seqno && t.lastLink == s.lastLink && t.now == 0 && !t.stopped
    && t.links == [] && t.cands == [] && t.locals == [] && t.requests == [] && t.routes == [] && t.before == [] && t.msgs == []
    && t.ctl == Control(0, 0, true, 0) && t.pace == Pace(false, 0, 0, 0)
    && (exists cap :: Refilled(t.sources, Renewed(Used(s.sources), s.cfg.source), cap, s.cfg.limits.sources))
    && (exists cap :: Refilled(t.drops, Shelved(Withheld(s), DropMs(s)), cap, s.cfg.limits.routes))
  }

  ghost predicate Refilled<T(!new)>(t: seq<Option<T>>, xs: seq<T>, cap: nat, max: nat) {
    |xs| <= cap <= max && t == Slots(xs, cap)
  }

  /** Saving and restoring under the same configuration succeeds when the counts
      fit and the allocator agrees. */
  lemma RestoreSucceeds(s: State)
    requires Core(s) && Steady(s) && Countable(s) && Granted(s)
    ensures var (st, t) := Restore(s.cfg, Image(s)); st.Ok? && t.Some? && Reborn(s, t.value)
  {
    hide Core, Steady, Withheld, Used, Get, Image, Longest, ReadSources, ReadDrops, SourceImages, PrefixImages, Grown, Headed;
    var data := Image(s);
    SavedIsHeaded(s);
    ImageParts(s);
    assert SourcesOk(s.sources, s.now, s.cfg.source) by { CoreSourcesOk(s); }
    SourcesStorable(s);
    CoreRoutes(s);
    CoreDrops(s);
    DropMsBound(s);
    WithheldDistinguished(s);
    var xs, ps := Used(s.sources), Withheld(s);
    ReadsSources(xs, s.cfg.source, 0);
    ReadsDrops(ps, DropMs(s), 0);
    assert Renewed(xs, s.cfg.source)[..0] == [] && Shelved(ps, DropMs(s))[..0] == [];
    RefillSucceeds(s, data);
  }

  /** It succeeds only then: a count of 2^16 or more is refused as malformed. */
  lemma RestoreIsExact(s: State)
    requires Core(s) && Steady(s)
    ensures Restore(s.cfg, Image(s)).0.Ok? <==> Countable(s) && Granted(s)
    ensures !Countable(s) ==> Restore(s.cfg, Image(s)) == (Invalid, None)
  {
    hide Core, Steady, Withheld, Used, Image, Headed, Refill, Granted;
    if !Countable(s) {
      SavedIsMisheaded(s);
    } else if Granted(s) {
      RestoreSucceeds(s);
    } else {
      SavedIsHeaded(s);
      RefillRefused(s, Image(s));
    }
  }

  lemma RefillRefused(s: State, data: seq<byte>)
    requires Headed(s.cfg, data) && !Granted(s) && Get32(data[26..30]) == s.cfg.source
    requires Get16(data[22..24]) == |Used(s.sources)| && Get16(data[24..26]) == |Withheld(s)|
    ensures Restore(s.cfg, data).0.Limit?
  {
    hide Withheld, Used, Get, ReadSources, ReadDrops, Grown;
    assert Raised(s.cfg, s.cfg.source) == s.cfg;
  }

  lemma CoreSourcesOk(s: State)
    requires Core(s)
    ensures SourcesOk(s.sources, s.now, s.cfg.source)
  {
  }

  lemma RefillSucceeds(s: State, data: seq<byte>)
    requires Headed(s.cfg, data) && Granted(s)
    requires Get32(data[26..30]) == s.cfg.source && Get32(data[30..34]) == DropMs(s) && Get16(data[12..14]) == s.seqno && Get64(data[14..22]) == s.lastLink
    requires Get16(data[22..24]) == |Used(s.sources)| && Get16(data[24..26]) == |Withheld(s)|
    requires var n := SOURCE_SIZE * |Used(s.sources)|;
             && ReadSources(data[HEADER..][..n], |Used(s.sources)|, s.cfg.source, []) == (true, Renewed(Used(s.sources), s.cfg.source))
             && ReadDrops(data[HEADER..][n..], |Withheld(s)|, DropMs(s), []) == (true, Shelved(Withheld(s), DropMs(s)))
    ensures var (st, t) := Restore(s.cfg, data); st.Ok? && t.Some? && Reborn(s, t.value)
  {
    hide Withheld, Used, Get, Longest, ReadSources, ReadDrops, Grown, Renewed, Shelved;
    assert Raised(s.cfg, s.cfg.source) == s.cfg;
    var c := s.cfg;
    var e := Init(c, s.seqno);
    var (ok1, cap1, a1) := Reserve(c, 0, 0, |Used(s.sources)|, c.limits.sources);
    var (ok2, cap2, a2) := Reserve(c, a1, 0, |Withheld(s)|, c.limits.routes);
    assert DropLife(c, data) == DropMs(s);
    var t := Restore(c, data).1.value;
    assert Refilled(t.sources, Renewed(Used(s.sources), c.source), cap1, c.limits.sources);
    assert Refilled(t.drops, Shelved(Withheld(s), DropMs(s)), cap2, c.limits.routes);
  }

  // ----- What survives

  lemma RebornRecord(s: State, t: State, p: Prefix, router: u64)
    requires Core(s) && Reborn(s, t)
    ensures SameRecord(SourceFor(s.sources, p, router), SourceFor(t.sources, p, router), t.cfg.source)
  {
    hide Core, Withheld, Longest;
    CoreSourcesOk(s);
    UsedMembers(s.sources);
    var xs := Used(s.sources);
    var a, b := SourceFor(s.sources, p, router), SourceFor(t.sources, p, router);
    if a.Some? {
      assert a.value in xs;
      var i :| 0 <= i < |xs| && xs[i] == a.value;
      assert t.sources[i] in t.sources;
    }
    if b.Some? {
      var i :| 0 <= i < |t.sources| && t.sources[i] == b;
      assert xs[i] in xs;
      assert Some(xs[i]) in s.sources;
      OnlyRecord(s.sources, xs[i], a);
    }
  }

  lemma OnlyRecord(t: seq<Option<Source>>, x: Source, a: Option<Source>)
    requires DistinctSources(t) && Some(x) in t && a == SourceFor(t, x.prefix, x.router)
    ensures a == Some(x)
  {
  }

  /** Every feasibility verdict is the same after the restart. */
  lemma VerdictsSurvive(s: State, t: State, c: Candidate)
    requires Core(s) && Reborn(s, t)
    ensures Feasible(t.sources, c) == Feasible(s.sources, c)
  {
    hide Core, Reborn;
    RebornRecord(s, t, c.route.prefix, c.route.router);
  }

  /** Exactly the selected and suppressed prefixes are suppressed, none for less
      than was left to it and none for less than a hold time. */
  lemma SuppressionSurvives(s: State, t: State, p: Prefix)
    requires Core(s) && Reborn(s, t)
    ensures DropFor(t.drops, p).Some? <==> RouteFor(s.routes, p).Some? || DropFor(s.drops, p).Some?
    ensures DropFor(t.drops, p).Some? ==>
              DropFor(t.drops, p).value.expires >= Hold(s.cfg.update)
              && (DropFor(s.drops, p).Some? ==> DropFor(t.drops, p).value.expires >= DropFor(s.drops, p).value.expires - s.now)
  {
    hide Core, Used, Longest;
    CoreDrops(s);
    DropMsBound(s);
    WithheldMembers(s, p);
    var ps := Withheld(s);
    if p in ps {
      var i :| 0 <= i < |ps| && ps[i] == p;
      assert t.drops[i] in t.drops;
    }
    if DropFor(t.drops, p).Some? {
      var i :| 0 <= i < |t.drops| && t.drops[i] == DropFor(t.drops, p);
      assert ps[i] == p;
    }
  }

  lemma RebornSources(s: State, t: State)
    requires Core(s) && Reborn(s, t)
    ensures SourcesOk(t.sources, 0, t.cfg.source) && |t.sources| <= t.cfg.limits.sources
  {
    hide Core, Withheld, Used, Longest, Valid;
    CoreSourcesOk(s);
    SourcesStorable(s);
    UsedMembers(s.sources);
    var xs := Used(s.sources);
    forall x | Some(x) in t.sources ensures SourceOk(x, 0, t.cfg.source) {
      var i :| 0 <= i < |t.sources| && t.sources[i] == Some(x);
      assert xs[i] in xs;
    }
  }

  lemma RebornDrops(s: State, t: State)
    requires Core(s) && Reborn(s, t)
    ensures DropsOk(t.drops, 0) && |t.drops| <= t.cfg.limits.routes
  {
    hide Core, Withheld, Used, Longest, Valid;
    CoreRoutes(s);
    CoreDrops(s);
    WithheldDistinguished(s);
    DropMsBound(s);
    var ps := Withheld(s);
    forall d | Some(d) in t.drops ensures DropOk(d, 0) { var i :| 0 <= i < |t.drops| && t.drops[i] == Some(d); }
    forall i, j | 0 <= i < j < |t.drops| && t.drops[i].Some? && t.drops[j].Some? ensures t.drops[i].value.prefix != t.drops[j].value.prefix {
      assert ps[i] != ps[j];
    }
  }

  lemma RebornCore(s: State, t: State)
    requires Core(s) && Steady(s) && Reborn(s, t)
    ensures Core(t) && Steady(t)
  {
    hide Core, SourcesOk, DropsOk, Withheld, Used, Longest, Refilled, Steady;
    RebornSources(s, t);
    RebornDrops(s, t);
    RebornSteady(s, t);
    EmptyCore(t);
  }

  lemma EmptyCore(t: State)
    requires t.links == [] && t.cands == [] && t.locals == [] && t.requests == [] && t.routes == [] && t.msgs == [] && t.now == 0 && t.pace.at == 0
    requires SourcesOk(t.sources, 0, t.cfg.source) && |t.sources| <= t.cfg.limits.sources && DropsOk(t.drops, 0) && |t.drops| <= t.cfg.limits.routes
    ensures Core(t)
  {
    hide SourcesOk, DropsOk;
  }

  lemma RebornSteady(s: State, t: State)
    requires Core(s) && Steady(s) && Reborn(s, t)
    ensures Steady(t)
  {
    hide Core, Refilled, Admitted, Used, Longest, Withheld;
    forall p | p in Admitted(t) ensures p in Admitted(s) { RebornAdmits(s, t, p); }
    SubsetSize(Admitted(t), Admitted(s));
  }

  lemma RebornAdmits(s: State, t: State, p: Prefix)
    requires Core(s) && Steady(s) && Reborn(s, t) && p in Admitted(t)
    ensures p in Admitted(s)
  {
    hide Core, Refilled, Used, Longest, Withheld;
    assert DropFor(t.drops, p).Some?;
    SuppressionSurvives(s, t, p);
    if RouteFor(s.routes, p).Some? { assert Supported(s, RouteFor(s.routes, p).value); }
  }

  /** Restarting from a checkpoint is the crash step of the network model. */
  lemma RestoreRecovers(s: State)
    requires Core(s) && Steady(s) && Countable(s) && Granted(s)
    ensures var (st, t) := Restore(s.cfg, Image(s)); st.Ok? && t.Some? && Recovers(s, t.value)
  {
    hide Core, Steady, Restore, Image;
    RestoreSucceeds(s);
    var t := Restore(s.cfg, Image(s)).1.value;
    RebornCore(s, t);
    forall p, router ensures SameRecord(SourceFor(s.sources, p, router), SourceFor(t.sources, p, router), t.cfg.source) {
      RebornRecord(s, t, p, router);
    }
  }
}
