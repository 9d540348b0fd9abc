/** Draining the output queue (engine.c, wb_next_packet): one packet per call,
    consecutive messages of one link, in queue order. */
module Packets {
  import opened Types
  import opened EngineState
  import opened EngineEvents
  import opened Wire
  import opened WireRoundTrip
  import Invariant

  /** The messages that follow the first n bytes of a packet for `link`: whether
      all of them encode, where the next packet starts, and their bytes. */
  function Fill(msgs: seq<Queued>, i: nat, link: u64, n: nat, max: nat): (r: (bool, nat, seq<byte>))
    requires i <= |msgs|
    ensures i <= r.1 <= |msgs|
    decreases |msgs| - i
  {
    if i == |msgs| || msgs[i].link != link then (true, i, [])
    else
      var b := Encoding(msgs[i].message);
      if b == [] || |b| + 4 > max then (false, i, [])
      else if n + |b| > max then (true, i, [])
      else
        var (ok, j, rest) := Fill(msgs, i + 1, link, n + |b|, max);
        (ok, j, b + rest)
  }

  /** Everything sent: the queue is released. */
  function Advanced(s: State, j: nat): (r: State) {
    if j == |s.msgs| then s.(msgs := [], mem := s.mem.(messages := 0), ctl := s.ctl.(cursor := 0))
    else s.(ctl := s.ctl.(cursor := j))
  }

  datatype Parcel = Parcel(link: u64, bytes: seq<byte>)

  /** The next packet, for a buffer of `cap` bytes. */
  function NextPacket(s: State, cap: nat): (r: (Status, Option<Parcel>, State))
    ensures r.1.Some? ==> r.0.Ok?
    ensures r.2 == s.(msgs := r.2.msgs, mem := r.2.mem, ctl := r.2.ctl, stopped := r.2.stopped)
  {
    if s.stopped then (Stopped, None, s)
    else if s.ctl.pending != 0 || !s.ctl.ready then (Busy, None, s)
    else if s.ctl.cursor >= |s.msgs| then (Ok, None, s)
    else
      var link := s.msgs[s.ctl.cursor].link;
      var li := LinkAt(s.links, link);
      if li == |s.links| then (Invalid, None, s)
      else
        var max := s.links[li].value.config.maxPacket;
        if cap < max then (Invalid, None, s)
        else
          var (ok, j, body) := Fill(s.msgs, s.ctl.cursor, link, 4, max);
          if !ok then (Stopped, None, s.(stopped := true, ctl := s.ctl.(cursor := j)))
          else (Ok, Some(Parcel(link, [42, 2] + Put(|body|, 2) + body)), Advanced(s, j))
  }

  // ----- One packet

  /** The messages of a stretch of the queue. */
  function Stretch(msgs: seq<Queued>, i: nat, j: nat): (r: seq<Message>)
    requires i <= j <= |msgs|
    ensures |r| == j - i && forall k :: 0 <= k < j - i ==> r[k] == msgs[i + k].message
  {
    seq(j - i, k requires 0 <= k < j - i => msgs[i + k].message)
  }

  lemma SendableEncodes(m: Message)
    requires Sendable(m)
    ensures Encoding(m) != []
  {
  }

  lemma {:induction false} FillIsBatch(msgs: seq<Queued>, i: nat, link: u64, n: nat, max: nat)
    requires i <= |msgs| && 4 <= n <= max && 64 <= max && forall q :: q in msgs ==> Sendable(q.message)
    ensures var (ok, j, body) := Fill(msgs, i, link, n, max);
            && ok && n + |body| <= max
            && body == Body(Stretch(msgs, i, j))
            && (forall k :: i <= k < j ==> msgs[k].link == link)
            && (i < |msgs| && msgs[i].link == link && n == 4 ==> i < j)
    decreases |msgs| - i
  {
    hide Encoding, Sendable, Stretch;
    if i < |msgs| && msgs[i].link == link {
      assert msgs[i] in msgs;
      SendableEncodes(msgs[i].message);
      var b := Encoding(msgs[i].message);
      if n + |b| <= max {
        FillIsBatch(msgs, i + 1, link, n + |b|, max);
        var j := Fill(msgs, i + 1, link, n + |b|, max).1;
        assert Stretch(msgs, i, j)[1..] == Stretch(msgs, i + 1, j);
      } else {
        assert Stretch(msgs, i, i) == [];
      }
    } else {
      assert Stretch(msgs, i, i) == [];
    }
  }

  ghost predicate Sending(s: State) {
    !s.stopped && s.ctl.pending == 0 && s.ctl.ready && s.ctl.cursor < |s.msgs| && Invariant.MsgsOk(s.msgs, s.links)
  }

  /** A ready engine with output yields a packet that fits its link, carries
      exactly the next messages of the queue, and makes progress. */
  lemma PacketIsBatch(s: State, cap: nat)
    requires Sending(s) && cap >= PACKET_MAX
    ensures var (st, out, t) := NextPacket(s, cap);
            var i := s.ctl.cursor;
            var link := s.msgs[i].link;
            && st.Ok? && out.Some? && out.value.link == link && HasLink(s.links, link)
            && |out.value.bytes| <= s.links[LinkAt(s.links, link)].value.config.maxPacket
            && exists j :: i < j <= |s.msgs| && t == Advanced(s, j) && (forall k :: i <= k < j ==> s.msgs[k].link == link)
                           && out.value.bytes == Packet(Stretch(s.msgs, i, j))
  {
    hide Sendable;
    var i := s.ctl.cursor;
    var link := s.msgs[i].link;
    assert s.msgs[i] in s.msgs;
    var max := s.links[LinkAt(s.links, link)].value.config.maxPacket;
    FillIsBatch(s.msgs, i, link, 4, max);
    var j := Fill(s.msgs, i, link, 4, max).1;
    assert NextPacket(s, cap).2 == Advanced(s, j);
  }

  // ----- The whole queue

  /** Packets from repeated calls until the queue is empty. */
  ghost function Drain(s: State): (r: seq<Parcel>)
    requires Sending(s) || s.ctl.cursor >= |s.msgs|
    decreases |s.msgs| - s.ctl.cursor
  {
    if s.ctl.cursor >= |s.msgs| then []
    else
      PacketIsBatch(s, PACKET_MAX);
      var (st, out, t) := NextPacket(s, PACKET_MAX);
      [out.value] + Drain(t)
  }

  /** The messages queued for one link, in order. */
  function OnLink(msgs: seq<Queued>, link: u64): (r: seq<Message>) {
    if msgs == [] then []
    else (if msgs[0].link == link then [msgs[0].message] else []) + OnLink(msgs[1..], link)
  }

  /** What the far end of a link with local address `source` decodes. */
  function DecodedOn(parcels: seq<Parcel>, link: u64, source: Bytes16): (r: Option<seq<Message>>) {
    if parcels == [] then Some([])
    else
      var rest := DecodedOn(parcels[1..], link, source);
      if parcels[0].link != link then rest
      else
        var head := Decode(parcels[0].bytes, source);
        if head.None? || rest.None? then None else Some(head.value + rest.value)
  }

  /** Message for message, the fields a receiver reads. */
  ghost predicate Faithful(sent: seq<Message>, got: seq<Message>, source: Bytes16) {
    |got| == |sent| && forall i :: 0 <= i < |sent| ==> Reads(got[i]) == Received(sent[i], source)
  }

  lemma {:induction false} OnLinkSplit(a: seq<Queued>, b: seq<Queued>, link: u64)
    ensures OnLink(a + b, link) == OnLink(a, link) + OnLink(b, link)
  {
    if a == [] {
      assert a + b == b;
    } else {
      var head := if a[0].link == link then [a[0].message] else [];
      assert (a + b)[1..] == a[1..] + b;
      OnLinkSplit(a[1..], b, link);
      assert OnLink(a + b, link) == head + OnLink(a[1..] + b, link);
      assert head + (OnLink(a[1..], link) + OnLink(b, link)) == (head + OnLink(a[1..], link)) + OnLink(b, link);
    }
  }

  lemma {:induction false} OnLinkUniform(msgs: seq<Queued>, i: nat, j: nat, link: u64, id: u64)
    requires i <= j <= |msgs| && forall k :: i <= k < j ==> msgs[k].link == link
    ensures OnLink(msgs[i..j], id) == if id == link then Stretch(msgs, i, j) else []
    decreases j - i
  {
    if i < j {
      assert msgs[i..j][1..] == msgs[i + 1..j];
      OnLinkUniform(msgs, i + 1, j, link, id);
      assert id == link ==> Stretch(msgs, i, j) == [msgs[i].message] + Stretch(msgs, i + 1, j);
    }
  }

  lemma BatchArrives(msgs: seq<Queued>, i: nat, j: nat, source: Bytes16)
    requires i <= j <= |msgs| && (forall q :: q in msgs ==> Sendable(q.message)) && |Packet(Stretch(msgs, i, j))| <= PACKET_MAX
    ensures var got := Decode(Packet(Stretch(msgs, i, j)), source); got.Some? && Faithful(Stretch(msgs, i, j), got.value, source)
  {
    hide Sendable, Decode;
    forall m | m in Stretch(msgs, i, j) ensures Sendable(m) {
      var k :| 0 <= k < j - i && Stretch(msgs, i, j)[k] == m;
      assert msgs[i + k] in msgs;
    }
    PacketDecodes(Stretch(msgs, i, j), source);
  }

  lemma FaithfulJoins(a: seq<Message>, x: seq<Message>, b: seq<Message>, y: seq<Message>, source: Bytes16)
    requires Faithful(a, x, source) && Faithful(b, y, source)
    ensures Faithful(a + b, x + y, source)
  {
  }

  /** Queue messages i..j as the first packet, the rest as later packets. */
  lemma DrainJoins(msgs: seq<Queued>, i: nat, j: nat, rest: seq<Parcel>, head: Parcel, link: u64, source: Bytes16)
    requires i < j <= |msgs| && (forall q :: q in msgs ==> Sendable(q.message))
    requires head == Parcel(msgs[i].link, Packet(Stretch(msgs, i, j))) && |head.bytes| <= PACKET_MAX
    requires forall k :: i <= k < j ==> msgs[k].link == msgs[i].link
    requires DecodedOn(rest, link, source).Some? && Faithful(OnLink(msgs[j..], link), DecodedOn(rest, link, source).value, source)
    ensures var got := DecodedOn([head] + rest, link, source); got.Some? && Faithful(OnLink(msgs[i..], link), got.value, source)
  {
    hide Sendable, Decode, Packet, Faithful, Stretch, OnLink;
    assert msgs[i..] == msgs[i..j] + msgs[j..];
    OnLinkSplit(msgs[i..j], msgs[j..], link);
    OnLinkUniform(msgs, i, j, msgs[i].link, link);
    assert ([head] + rest)[1..] == rest;
    if msgs[i].link == link {
      BatchArrives(msgs, i, j, source);
      FaithfulJoins(Stretch(msgs, i, j), Decode(head.bytes, source).value, OnLink(msgs[j..], link), DecodedOn(rest, link, source).value, source);
    } else {
      assert [] + OnLink(msgs[j..], link) == OnLink(msgs[j..], link);
    }
  }

  ghost predicate Fits(s: State, p: Parcel) {
    HasLink(s.links, p.link) && |p.bytes| <= s.links[LinkAt(s.links, p.link)].value.config.maxPacket
  }

  /** Draining terminates, every packet fits its link, and decoding a link's
      packets in order gives exactly that link's messages in order. */
  lemma {:induction false} DrainDelivers(s: State, link: u64, source: Bytes16)
    requires Sending(s) || s.ctl.cursor == |s.msgs|
    ensures forall p :: p in Drain(s) ==> Fits(s, p)
    ensures var got := DecodedOn(Drain(s), link, source);
            got.Some? && Faithful(OnLink(s.msgs[s.ctl.cursor..], link), got.value, source)
    decreases |s.msgs| - s.ctl.cursor
  {
    hide Sendable, Decode, NextPacket, Packet, Faithful, OnLink, DecodedOn, Stretch;
    var i := s.ctl.cursor;
    if i < |s.msgs| {
      PacketIsBatch(s, PACKET_MAX);
      var (st, out, t) := NextPacket(s, PACKET_MAX);
      var j :| i < j <= |s.msgs| && t == Advanced(s, j) && (forall k :: i <= k < j ==> s.msgs[k].link == s.msgs[i].link)
               && out.value.bytes == Packet(Stretch(s.msgs, i, j));
      DrainDelivers(t, link, source);
      assert t.msgs[t.ctl.cursor..] == s.msgs[j..];
      DrainJoins(s.msgs, i, j, Drain(t), out.value, link, source);
    } else {
      NothingToDrain(s, link, source);
    }
  }

  lemma NothingToDrain(s: State, link: u64, source: Bytes16)
    requires s.ctl.cursor == |s.msgs|
    ensures Drain(s) == [] && DecodedOn([], link, source) == Some([]) && Faithful(OnLink(s.msgs[s.ctl.cursor..], link), [], source)
  {
  }
}
