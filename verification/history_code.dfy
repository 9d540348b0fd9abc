/** wb_save and wb_restore as they run: a buffer written at a moving offset, and
    tables filled slot by slot, proved against the images of module History. */
module HistoryCode {
  import opened Types
  import opened Prefixes
  import opened EngineState
  import opened Engine
  import opened EngineEvents
  import opened Wire
  import opened History

  method Write(out: array<byte>, at: nat, b: seq<byte>)
    requires at + |b| <= out.Length
    modifies out
    ensures out[..] == old(out[..])[..at] + b + old(out[..])[at + |b|..]
  {
    var i := 0;
    while i < |b|
      invariant i <= |b|
      invariant forall k :: 0 <= k < out.Length ==> out[k] == if at <= k < at + i then b[k - at] else old(out[k])
    {
      out[at + i] := b[i];
      i := i + 1;
    }
  }

  /** Continue a buffer that is filled up to n. */
  method Append(out: array<byte>, n: nat, b: seq<byte>)
    requires n + |b| <= out.Length
    modifies out
    ensures out[..n + |b|] == old(out[..n]) + b
  {
    Write(out, n, b);
  }

  lemma {:induction false} UsedGrows<T>(t: seq<Option<T>>, i: nat)
    requires i <= |t|
    ensures |Used(t[..i])| <= |Used(t)|
    decreases |t|
  {
    if i < |t| {
      UsedGrows(t[..|t| - 1], i);
      assert t[..|t| - 1][..i] == t[..i];
    } else {
      assert t[..i] == t;
    }
  }

  lemma UsedStep<T>(t: seq<Option<T>>, i: nat)
    requires i < |t|
    ensures Used(t[..i + 1]) == if t[i].Some? then Used(t[..i]) + [t[i].value] else Used(t[..i])
  {
    assert t[..i + 1][..i] == t[..i];
    assert Used(t[..i]) + [] == Used(t[..i]);
  }

  lemma SourceImagesStep(xs: seq<Source>, x: Source)
    ensures SourceImages(xs + [x]) == SourceImages(xs) + SourceImage(x)
  {
    assert (xs + [x])[..|xs|] == xs;
  }

  lemma PrefixImagesStep(ps: seq<Prefix>, p: Prefix)
    ensures PrefixImages(ps + [p]) == PrefixImages(ps) + PrefixImage(p)
  {
    assert (ps + [p])[..|ps|] == ps;
  }

  method SaveSources(t: seq<Option<Source>>, out: array?<byte>) returns (ok: bool, n: nat)
    requires out != null ==> out.Length >= HEADER
    modifies out
    ensures ok <==> out == null || HEADER + |SourceImages(Used(t))| <= out.Length
    ensures ok ==> n == HEADER + |SourceImages(Used(t))|
    ensures out != null ==> (ok ==> out[..n] == old(out[..HEADER]) + SourceImages(Used(t)))
  {
    hide Used, SourceImages, SourceImage;
    n := HEADER;
    assert Used(t[..0]) == [] && SourceImages([]) == [] by { NothingUsed(t); }
    ghost var base := if out != null then out[..HEADER] else [];
    var i := 0;
    while i < |t|
      invariant i <= |t| && n == HEADER + |SourceImages(Used(t[..i]))|
      invariant out != null ==> n <= out.Length && out[..n] == base + SourceImages(Used(t[..i]))
    {
      UsedStep(t, i);
      if t[i].Some? {
        UsedGrows(t, i + 1);
        SourceImagesStep(Used(t[..i]), t[i].value);
        if out != null && out.Length - n < SOURCE_SIZE { return false, n; }
        if out != null {
          Regroup(base, SourceImages(Used(t[..i])), SourceImage(t[i].value));
          Append(out, n, SourceImage(t[i].value));
        }
        n := n + SOURCE_SIZE;
      }
      i := i + 1;
    }
    assert t[..|t|] == t;
    ok := true;
  }

  lemma NothingUsed(t: seq<Option<Source>>)
    ensures Used(t[..0]) == [] && SourceImages([]) == []
  {
  }

  lemma NothingImaged(routes: seq<Route>, drops: seq<Option<Drop>>)
    ensures Leftover(drops[..0], routes) == [] && Routed(routes[..0]) == [] && PrefixImages([]) == []
  {
  }

  method SaveSelected(routes: seq<Route>, out: array?<byte>, start: nat) returns (ok: bool, n: nat)
    requires out != null ==> start <= out.Length
    modifies out
    ensures ok <==> out == null || start + |PrefixImages(Routed(routes))| <= out.Length
    ensures ok ==> n == start + |PrefixImages(Routed(routes))|
    ensures out != null ==> (ok ==> out[..n] == old(out[..start]) + PrefixImages(Routed(routes)))
  {
    hide PrefixImages, PrefixImage;
    n := start;
    NothingImaged(routes, []);
    ghost var base := if out != null then out[..start] else [];
    var i := 0;
    while i < |routes|
      invariant i <= |routes| && n == start + |PrefixImages(Routed(routes[..i]))|
      invariant out != null ==> n <= out.Length && out[..n] == base + PrefixImages(Routed(routes[..i]))
    {
      assert Routed(routes[..i + 1]) == Routed(routes[..i]) + [routes[i].prefix];
      PrefixImagesStep(Routed(routes[..i]), routes[i].prefix);
      if out != null && out.Length - n < PREFIX_SIZE { return false, n; }
      if out != null {
        Regroup(base, PrefixImages(Routed(routes[..i])), PrefixImage(routes[i].prefix));
        Append(out, n, PrefixImage(routes[i].prefix));
      }
      n := n + PREFIX_SIZE;
      i := i + 1;
    }
    assert routes[..|routes|] == routes;
    ok := true;
  }

  lemma LeftoverStep(drops: seq<Option<Drop>>, routes: seq<Route>, i: nat)
    requires i < |drops|
    ensures Leftover(drops[..i + 1], routes)
         == if drops[i].Some? && RouteFor(routes, drops[i].value.prefix).None? then Leftover(drops[..i], routes) + [drops[i].value.prefix]
            else Leftover(drops[..i], routes)
  {
    assert drops[..i + 1][..i] == drops[..i];
  }

  lemma {:induction false} LeftoverGrows(drops: seq<Option<Drop>>, routes: seq<Route>, i: nat)
    requires i <= |drops|
    ensures |Leftover(drops[..i], routes)| <= |Leftover(drops, routes)|
    decreases |drops|
  {
    if i < |drops| {
      LeftoverGrows(drops[..|drops| - 1], routes, i);
      assert drops[..|drops| - 1][..i] == drops[..i];
    } else {
      assert drops[..i] == drops;
    }
  }

  /** Whether some selected entry has this prefix, looked up one by one. */
  method Found(routes: seq<Route>, p: Prefix) returns (found: bool)
    ensures found == RouteFor(routes, p).Some?
  {
    found := false;
    var j := 0;
    while j < |routes|
      invariant j <= |routes| && found == exists k :: 0 <= k < j && routes[k].prefix == p
    {
      found := found || routes[j].prefix == p;
      j := j + 1;
    }
  }

  method SaveLeftover(drops: seq<Option<Drop>>, routes: seq<Route>, out: array?<byte>, start: nat, max: nat) returns (ok: bool, n: nat)
    requires (out != null ==> start <= out.Length) && |routes| <= max
    modifies out
    ensures ok <==> |routes| + |Leftover(drops, routes)| <= max && (out == null || start + |PrefixImages(Leftover(drops, routes))| <= out.Length)
    ensures ok ==> n == start + |PrefixImages(Leftover(drops, routes))|
    ensures out != null ==> (ok ==> out[..n] == old(out[..start]) + PrefixImages(Leftover(drops, routes)))
  {
    hide PrefixImages, PrefixImage, Leftover, RouteFor;
    n := start;
    var count := |routes|;
    NothingImaged(routes, drops);
    ghost var base := if out != null then out[..start] else [];
    var i := 0;
    while i < |drops|
      invariant i <= |drops| && n == start + |PrefixImages(Leftover(drops[..i], routes))|
      invariant count == |routes| + |Leftover(drops[..i], routes)| <= max
      invariant out != null ==> n <= out.Length && out[..n] == base + PrefixImages(Leftover(drops[..i], routes))
    {
      LeftoverStep(drops, routes, i);
      if drops[i].Some? {
        var p := drops[i].value.prefix;
        var found := Found(routes, p);
        if !found {
          LeftoverGrows(drops, routes, i + 1);
          PrefixImagesStep(Leftover(drops[..i], routes), p);
          if count == max || (out != null && out.Length - n < PREFIX_SIZE) { return false, n; }
          if out != null {
            Regroup(base, PrefixImages(Leftover(drops[..i], routes)), PrefixImage(p));
            Append(out, n, PrefixImage(p));
          }
          n := n + PREFIX_SIZE;
          count := count + 1;
        }
      }
      i := i + 1;
    }
    assert drops[..|drops|] == drops;
    ok := true;
  }

  method LongestDrop(drops: seq<Option<Drop>>, now: nat, least: nat) returns (r: nat)
    ensures r == Longest(drops, now, least)
  {
    r := least;
    var i := 0;
    while i < |drops|
      invariant i <= |drops| && r == Longest(drops[..i], now, least)
    {
      assert drops[..i + 1][..i] == drops[..i];
      if drops[i].Some? && drops[i].value.expires > now && drops[i].value.expires - now > r { r := drops[i].value.expires - now; }
      i := i + 1;
    }
    assert drops[..|drops|] == drops;
  }

  lemma PrefixImagesJoin(a: seq<Prefix>, b: seq<Prefix>)
    ensures PrefixImages(a + b) == PrefixImages(a) + PrefixImages(b)
  {
    if b != [] {
      var m := |b| - 1;
      PrefixImagesJoin(a, b[..m]);
      assert (a + b)[..|a + b| - 1] == a + b[..m];
      assert PrefixImages(a + b) == PrefixImages(a) + PrefixImages(b);
    } else {
      assert a + b == a;
    }
  }

  ghost function Content(s: State): (r: seq<byte>) {
    SourceImages(Used(s.sources)) + PrefixImages(Withheld(s))
  }

  /** Everything behind the header. */
  method SaveBody(s: State, out: array?<byte>) returns (ok: bool, a: nat, c: nat)
    requires |s.routes| <= s.cfg.limits.routes && (out != null ==> out.Length >= HEADER)
    modifies out
    ensures ok <==> |Withheld(s)| <= s.cfg.limits.routes && (out == null || HEADER + |Content(s)| <= out.Length)
    ensures ok ==> a == HEADER + |SourceImages(Used(s.sources))| && c == a + |PrefixImages(Withheld(s))|
    ensures ok && out != null ==> out[..c] == old(out[..HEADER]) + Content(s)
  {
    hide Used, SourceImages, PrefixImages, Leftover, Routed;
    PrefixImagesJoin(Routed(s.routes), Leftover(s.drops, s.routes));
    ghost var base := if out != null then out[..HEADER] else [];
    var ok1, a1 := SaveSources(s.sources, out);
    if !ok1 { return false, 0, 0; }
    var ok2, b := SaveSelected(s.routes, out, a1);
    if !ok2 { return false, 0, 0; }
    var ok3, c1 := SaveLeftover(s.drops, s.routes, out, b, s.cfg.limits.routes);
    if !ok3 { return false, 0, 0; }
    if out != null {
      Threefold(base, SourceImages(Used(s.sources)), PrefixImages(Routed(s.routes)), PrefixImages(Leftover(s.drops, s.routes)));
    }
    ok, a, c := true, a1, c1;
  }

  lemma Threefold(base: seq<byte>, x: seq<byte>, y: seq<byte>, z: seq<byte>)
    ensures base + x + y + z == base + (x + (y + z))
  {
  }

  ghost function Lead(s: State): (r: seq<byte>)
    ensures |r| == 22
  {
    MAGIC + Put(s.cfg.router, 8) + Put(s.seqno, 2) + Put(s.lastLink, 8)
  }

  const BLANK: seq<byte> := [0, 0, 0, 0, 0, 0, 0, 0, 0, 0, 0, 0, 0, 0, 0, 0, 0, 0]

  /** The counters and lifetimes, once they are known. */
  method FinishHeader(s: State, out: array<byte>, a: nat, c: nat)
    requires a == HEADER + |SourceImages(Used(s.sources))| && c == a + |PrefixImages(Withheld(s))| && c <= out.Length
    requires out[..c] == Lead(s) + BLANK + Content(s)
    modifies out
    ensures out[..c] == Image(s)
  {
    hide Used, SourceImages, PrefixImages, Withheld, Put, Longest, Lead;
    Counted(s, a, c);
    var longest := LongestDrop(s.drops, s.now, Hold(s.cfg.update));
    var tail := Put((a - HEADER) / SOURCE_SIZE, 2) + Put((c - a) / PREFIX_SIZE, 2) + Put(s.cfg.source, 4) + Put(longest, 4);
    ghost var z := out[..];
    Write(out, 22, tail);
    Patched(z, out[..], c, Lead(s), tail, Content(s));
    Headline(s, |Used(s.sources)|, |Withheld(s)|);
  }

  lemma Headline(s: State, sources: nat, drops: nat)
    ensures Lead(s) + (Put(sources, 2) + Put(drops, 2) + Put(s.cfg.source, 4) + Put(DropMs(s), 4)) + [0, 0, 0, 0, 0, 0] == HeaderImage(s, sources, drops)
    ensures Lead(s) + (Put(sources, 2) + Put(drops, 2) + Put(s.cfg.source, 4) + Put(DropMs(s), 4)) + [0, 0, 0, 0, 0, 0] + Content(s)
         == HeaderImage(s, sources, drops) + SourceImages(Used(s.sources)) + PrefixImages(Withheld(s))
  {
    hide Put, Used, SourceImages, PrefixImages, Withheld, Longest;
  }

  /** The checkpoint, or with no buffer just its size: both are those of Image. */
  method Save(s: State, out: array?<byte>) returns (st: Status, n: nat)
    requires |s.routes| <= s.cfg.limits.routes
    modifies out
    ensures st.Invalid? <==> s.stopped || (out != null && out.Length < HEADER)
    ensures st.Ok? <==> !st.Invalid? && |Withheld(s)| <= s.cfg.limits.routes && (out == null || |Image(s)| <= out.Length)
    ensures st.Ok? ==> n == |Image(s)| && (out != null ==> out[..n] == Image(s))
    ensures st.Ok? || st.Invalid? || st.Limit?
  {
    hide Used, SourceImages, PrefixImages, Withheld, Put, Longest;
    if s.stopped || (out != null && out.Length < HEADER) { return Invalid, 0; }
    if out != null { Append(out, 0, MAGIC + Put(s.cfg.router, 8) + Put(s.seqno, 2) + Put(s.lastLink, 8) + BLANK); }
    var ok, a, c := SaveBody(s, out);
    if !ok { return Limit, 0; }
    if out != null { FinishHeader(s, out, a, c); }
    st, n := Ok, c;
  }

  lemma Counted(s: State, a: nat, c: nat)
    requires a == HEADER + |SourceImages(Used(s.sources))| && c == a + |PrefixImages(Withheld(s))|
    ensures (a - HEADER) / SOURCE_SIZE == |Used(s.sources)| && (c - a) / PREFIX_SIZE == |Withheld(s)|
  {
  }

  /** Filling in the counters leaves the rest of the image alone. */
  lemma Patched(z: seq<byte>, out: seq<byte>, c: nat, lead: seq<byte>, tail: seq<byte>, body: seq<byte>)
    requires |lead| == 22 && |tail| == 12 && HEADER <= c <= |z|
    requires z[..c] == lead + BLANK + body && out == z[..22] + tail + z[34..]
    ensures out[..c] == lead + tail + [0, 0, 0, 0, 0, 0] + body
  {
    assert z[..22] == z[..c][..22] == lead;
    assert z[34..c] == z[..c][34..] == [0, 0, 0, 0, 0, 0] + body;
    assert out[..c] == z[..22] + tail + z[34..c];
  }

  /** Whether a record read back repeats one of the first i slots. */
  method Repeats(t: seq<Option<Source>>, i: nat, x: Source, ghost xs: seq<Source>) returns (r: bool)
    requires i == |xs| <= |t| && t == Slots(xs, |t|)
    ensures r <==> exists k :: 0 <= k < |xs| && xs[k].router == x.router && xs[k].prefix == x.prefix
  {
    var j := 0;
    while j < i
      invariant j <= i && forall k :: 0 <= k < j ==> !(xs[k].router == x.router && xs[k].prefix == x.prefix)
    {
      if t[j].value.router == x.router && t[j].value.prefix == x.prefix { return true; }
      j := j + 1;
    }
    r := false;
  }

  method RestoreSources(b: seq<byte>, count: nat, expires: nat, cap: nat) returns (ok: bool, t: seq<Option<Source>>)
    requires SOURCE_SIZE * count <= |b| && count <= cap
    ensures ok == ReadSources(b, count, expires, []).0 && t == Slots(ReadSources(b, count, expires, []).1, cap)
  {
    hide ReadSource, Valid, RouterId;
    t := Slots([], cap);
    ghost var xs: seq<Source> := [];
    var i := 0;
    while i < count
      invariant i == |xs| <= count && t == Slots(xs, cap)
      invariant ReadSources(b, count, expires, xs) == ReadSources(b, count, expires, [])
    {
      var x := ReadSource(b[SOURCE_SIZE * i..SOURCE_SIZE * i + SOURCE_SIZE], expires);
      if !Valid(x.prefix) || !RouterId(x.router) || x.metric == INFINITY { return false, t; }
      var twice := Repeats(t, i, x, xs);
      if twice { return false, t; }
      t := t[i := Some(x)];
      xs := xs + [x];
      assert t == Slots(xs, cap);
      i := i + 1;
    }
    ok := true;
  }

  method RestoreDrops(b: seq<byte>, count: nat, expires: nat, cap: nat) returns (ok: bool, t: seq<Option<Drop>>)
    requires PREFIX_SIZE * count <= |b| && count <= cap
    ensures ok == ReadDrops(b, count, expires, []).0 && t == Slots(ReadDrops(b, count, expires, []).1, cap)
  {
    hide ReadPrefix, Valid;
    t := Slots([], cap);
    ghost var ds: seq<Drop> := [];
    var i := 0;
    while i < count
      invariant i == |ds| <= count && t == Slots(ds, cap)
      invariant ReadDrops(b, count, expires, ds) == ReadDrops(b, count, expires, [])
    {
      var p := ReadPrefix(b[PREFIX_SIZE * i..PREFIX_SIZE * i + PREFIX_SIZE]);
      if !Valid(p) { return false, t; }
      var j := 0;
      while j < i
        invariant j <= i && forall k :: 0 <= k < j ==> ds[k].prefix != p
      {
        if t[j].value.prefix == p { return false, t; }
        j := j + 1;
      }
      t := t[i := Some(Drop(p, expires))];
      ds := ds + [Drop(p, expires)];
      assert t == Slots(ds, cap);
      i := i + 1;
    }
    ok := true;
  }

  /** Restoring an image, whatever bytes it is made of. */
  method RestoreEngine(cfg: ConfigData, data: seq<byte>) returns (st: Status, e: Option<State>)
    ensures (st, e) == Restore(cfg, data)
  {
    hide ReadSources, ReadDrops, Get, Grown;
    if !Headed(cfg, data) { return Invalid, None; }
    var c := Raised(cfg, Get32(data[26..30]));
    if !Accepted(c) { return Invalid, None; }
    var s := Init(c, Get16(data[12..14]));
    var sources, drops := Get16(data[22..24]), Get16(data[24..26]);
    var (ok1, cap1, a1) := Reserve(s.cfg, 0, 0, sources, s.cfg.limits.sources);
    if !ok1 { return Limit, Some(Asked(s, a1).(stopped := true)); }
    var (ok2, cap2, a2) := Reserve(s.cfg, a1, 0, drops, s.cfg.limits.routes);
    s := Asked(s, a2).(sources := Slots([], cap1));
    if !ok2 { return Limit, Some(s.(stopped := true)); }
    var body := data[HEADER..];
    var good1, t1 := RestoreSources(body[..SOURCE_SIZE * sources], sources, s.cfg.source, cap1);
    s := s.(sources := t1, drops := Slots([], cap2), lastLink := Get64(data[14..22]));
    if !good1 { return Invalid, Some(s.(stopped := true)); }
    var good2, t2 := RestoreDrops(body[SOURCE_SIZE * sources..], drops, DropLife(s.cfg, data), cap2);
    s := s.(drops := t2);
    if !good2 { return Invalid, Some(s.(stopped := true)); }
    st, e := Ok, Some(s);
  }
}
