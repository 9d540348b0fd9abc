/** The BLE mesh pipe: a receive window that can never overrun its ring, and a
    one-chunk transmit slot that never loses or repeats a byte. Host events and
    actor calls are atomic steps; between them anything may interleave. */
module MeshPipe {
  import opened Types

  // ----- The receive window

  /** How many receive slots may be armed again (mesh_rx_window.h). */
  function RearmBudget(slots: nat, owed: nat, room: nat, mtu: nat): (r: nat)
    ensures r <= owed
  {
    if mtu == 0 || owed > slots then 0
    else
      var armed := slots - owed;
      var capacity := room / mtu;
      if capacity <= armed then 0 else if capacity - armed < owed then capacity - armed else owed
  }

  lemma LessFactor(a: nat, b: nat, m: nat)
    requires a * m < b * m
    ensures a < b
  {
    assert (b - a) * m == b * m - a * m;
  }

  /** Every armed slot, old or new, keeps a full MTU of room, and one more slot
      would not fit. */
  lemma BudgetIsExact(slots: nat, owed: nat, room: nat, mtu: nat)
    requires mtu > 0 && owed <= slots && (slots - owed) * mtu <= room
    ensures var b := RearmBudget(slots, owed, room, mtu);
            (slots - owed + b) * mtu <= room && (b < owed ==> (slots - owed + b + 1) * mtu > room)
  {
    var capacity := room / mtu;
    assert capacity * mtu <= room < (capacity + 1) * mtu;
    var b := RearmBudget(slots, owed, room, mtu);
    LessFactor(slots - owed, capacity + 1, mtu);
    assert slots - owed + b <= capacity;
    assert (slots - owed + b) * mtu <= capacity * mtu;
    if b < owed { assert slots - owed + b == capacity; }
  }

  /** `arming` is the batch the host thread is submitting and `stack` says that
      the channel still exists; `received` and `taken`
      are the bytes that came in and went out over the pipe's whole life. */
  datatype Window = Window(
    slots: nat, mtu: nat, cap: nat, ring: seq<byte>, owed: nat, arming: nat, stack: bool, connected: bool, closing: bool, rejected: bool,
    received: seq<byte>, taken: seq<byte>)

  datatype RxStep =
    | Accepted
    | Dialled
    | Connected
    | Rearm
    | Submitted
    | SubmitFailed(fatal: bool)
    | Arrives(sdu: seq<byte>)
    | Reads(size: nat)
    | Closes
    | Disconnects

  predicate Open(w: Window) {
    w.connected && !w.closing
  }

  /** A pipe whose first buffers are still to be lent to the stack. */
  predicate Untouched(w: Window) {
    w.stack && !w.connected && w.arming == 0 && w.owed == w.slots && w.ring == []
  }

  /** The host thread runs one callback at a time; the stack delivers an SDU only
      over a channel, into an armed slot and no larger than the MTU it was told.
      A pipe serves one channel: it is never connected again. */
  predicate RxEnabled(w: Window, step: RxStep) {
    match step
    case Accepted => Untouched(w)
    case Dialled => Untouched(w) && w.slots > 0
    case Connected => w.stack
    case Rearm => w.arming == 0
    case Submitted => w.arming > 0
    case SubmitFailed(_) => w.arming > 0
    case Arrives(sdu) => w.stack && w.arming == 0 && w.owed < w.slots && |sdu| <= w.mtu
    case Disconnects => w.stack && w.arming == 0
    case _ => true
  }

  /** The copy of an SDU into the ring, or the refusal that closes the pipe. */
  function Deliver(w: Window, sdu: seq<byte>): (r: Window) {
    if |sdu| > w.mtu || |sdu| + |w.ring| > w.cap then w.(closing := true, rejected := true)
    else
      w.(ring := w.ring + sdu, received := w.received + sdu,
         owed := if w.owed < w.slots then w.owed + 1 else w.owed, closing := w.closing || w.owed >= w.slots)
  }

  function Least(a: nat, b: nat): (r: nat) {
    if a < b then a else b
  }

  function RxNext(w: Window, step: RxStep): (r: Window)
    requires RxEnabled(w, step) && |w.ring| <= w.cap
  {
    match step
    case Accepted => w.(arming := w.slots)
    case Dialled => w.(owed := w.slots - 1, arming := w.slots - 1)
    case Connected => w.(connected := true)
    case Rearm => w.(arming := if Open(w) then RearmBudget(w.slots, w.owed, w.cap - |w.ring|, w.mtu) else 0)
    case Submitted => w.(arming := w.arming - 1, owed := if w.owed > 0 then w.owed - 1 else 0)
    case SubmitFailed(fatal) => w.(arming := 0, closing := w.closing || fatal)
    case Arrives(sdu) => if Open(w) then Deliver(w, sdu) else w
    case Reads(size) =>
      var n := Least(size, |w.ring|);
      w.(ring := w.ring[n..], taken := w.taken + w.ring[..n])
    case Closes => w.(closing := true)
    case Disconnects => w.(stack := false, connected := false, owed := 0)
  }

  /** Room for every armed slot and every slot about to be armed. */
  ghost predicate WindowInv(w: Window) {
    && w.mtu > 0 && w.arming <= w.owed <= w.slots <= 2 && |w.ring| <= w.cap == 2 * w.mtu
    && (w.stack ==> (w.slots - w.owed + w.arming) * w.mtu <= w.cap - |w.ring|)
    && (w.connected ==> w.stack) && !w.rejected
    && w.received == w.taken + w.ring
  }

  lemma ArrivalFits(w: Window, sdu: seq<byte>)
    requires WindowInv(w) && w.stack && w.arming == 0 && w.owed < w.slots && |sdu| <= w.mtu
    ensures |sdu| + |w.ring| <= w.cap && (w.slots - (w.owed + 1)) * w.mtu <= w.cap - |w.ring| - |sdu|
  {
    assert (w.slots - w.owed) * w.mtu == (w.slots - w.owed - 1) * w.mtu + w.mtu;
    assert (w.slots - w.owed - 1) * w.mtu >= 0;
  }

  lemma RxStepKeeps(w: Window, step: RxStep)
    requires WindowInv(w) && RxEnabled(w, step)
    ensures WindowInv(RxNext(w, step))
  {
    match step
    case Accepted => assert w.slots * w.mtu <= 2 * w.mtu;
    case Dialled => assert w.slots * w.mtu <= 2 * w.mtu;
    case Connected =>
    case Rearm => RearmKeeps(w);
    case Submitted => assert w.slots - (w.owed - 1) + (w.arming - 1) == w.slots - w.owed + w.arming;
    case SubmitFailed(_) => assert (w.slots - w.owed) * w.mtu <= (w.slots - w.owed + w.arming) * w.mtu;
    case Arrives(sdu) => ArrivalKeeps(w, sdu);
    case Reads(size) => ReadKeeps(w, size);
    case Closes =>
    case Disconnects =>
  }

  lemma RearmKeeps(w: Window)
    requires WindowInv(w) && w.arming == 0
    ensures WindowInv(RxNext(w, Rearm))
  {
    assert (w.slots - w.owed + 0) * w.mtu == (w.slots - w.owed) * w.mtu;
    if Open(w) { BudgetIsExact(w.slots, w.owed, w.cap - |w.ring|, w.mtu); }
  }

  lemma ArrivalKeeps(w: Window, sdu: seq<byte>)
    requires WindowInv(w) && RxEnabled(w, Arrives(sdu))
    ensures WindowInv(RxNext(w, Arrives(sdu)))
  {
    ArrivalFits(w, sdu);
    assert w.taken + (w.ring + sdu) == (w.taken + w.ring) + sdu;
  }

  lemma ReadKeeps(w: Window, size: nat)
    requires WindowInv(w)
    ensures WindowInv(RxNext(w, Reads(size)))
  {
    var n := Least(size, |w.ring|);
    assert w.taken + w.ring == (w.taken + w.ring[..n]) + w.ring[n..];
  }

  ghost predicate RxRun(w: Window, steps: seq<RxStep>)
    decreases |steps|
  {
    steps == [] || (|w.ring| <= w.cap && RxEnabled(w, steps[0]) && RxRun(RxNext(w, steps[0]), steps[1..]))
  }

  ghost function RxAfter(w: Window, steps: seq<RxStep>): (r: Window)
    requires RxRun(w, steps)
    decreases |steps|
  {
    if steps == [] then w else RxAfter(RxNext(w, steps[0]), steps[1..])
  }

  /** A pipe as made: every slot owed, an empty ring of twice the MTU, at most two
      slots. */
  ghost predicate NewWindow(w: Window) {
    && w.mtu > 0 && w.slots <= 2 && w.cap == 2 * w.mtu && w.ring == [] && w.owed == w.slots && w.arming == 0
    && w.stack && !w.connected && !w.closing && !w.rejected && w.received == [] && w.taken == []
  }

  lemma {:induction false} RxRunKeeps(w: Window, steps: seq<RxStep>)
    requires WindowInv(w) && RxRun(w, steps)
    ensures WindowInv(RxAfter(w, steps))
    decreases |steps|
  {
    hide WindowInv, RxNext, RxEnabled;
    if steps != [] {
      RxStepKeeps(w, steps[0]);
      RxRunKeeps(RxNext(w, steps[0]), steps[1..]);
    }
  }

  /** In every interleaving the armed slots fit the free space while the channel
      lasts, no SDU within the MTU is ever refused, and the bytes read are the
      bytes received, in order, before and after a disconnection. */
  lemma WindowIsSafe(w: Window, steps: seq<RxStep>)
    requires NewWindow(w) && RxRun(w, steps)
    ensures var r := RxAfter(w, steps);
            && (r.stack ==> (r.slots - r.owed) * r.mtu <= r.cap - |r.ring|)
            && !r.rejected && r.taken <= r.received && r.received == r.taken + r.ring
  {
    hide RxRun, RxAfter;
    RxRunKeeps(w, steps);
    var r := RxAfter(w, steps);
    assert (r.slots - r.owed) * r.mtu <= (r.slots - r.owed + r.arming) * r.mtu;
  }

  // ----- The transmit slot

  /** What the stack does with an SDU it is offered. */
  datatype Outcome = Through | Stalled | Busy | NoMemory | Failed(sent: bool)

  /** The host thread in the middle of sending. */
  datatype Phase = Idle | Sending | Called(outcome: Outcome)

  /** `chunk` is the retained transmit buffer. `accepted` is everything the
      producer was told is taken, `sent` everything the peer will get, and `held`
      an SDU the stack took without being able to finish it. */
  datatype Slot = Slot(
    chunk: seq<byte>, pending: bool, stalled: bool, open: bool, owned: bool, mtu: nat, phase: Phase,
    accepted: seq<byte>, sent: seq<byte>, held: bool)

  const TX_MAX := 240

  datatype TxStep =
    | Writes(data: seq<byte>)
    | Offer
    | Takes(outcome: Outcome)
    | Settles
    | Unstalled(status: Unstall)
    | Shuts
    | Severed

  datatype Unstall = Clear | Dropped | Broken(sent: bool)

  /** Callbacks of the host thread exclude each other; the stack reports the end
      of a stall only while one lasts. */
  predicate TxEnabled(t: Slot, step: TxStep) {
    match step
    case Offer => t.phase.Idle? && t.open && t.pending && !t.stalled
    case Takes(_) => t.phase.Sending?
    case Settles => t.phase.Called?
    case Unstalled(_) => t.phase.Idle? && t.stalled
    case Severed => t.phase.Idle?
    case _ => true
  }

  /** How many bytes a write takes; zero when it takes none. */
  function WriteSize(t: Slot, size: nat): (r: nat)
    ensures r <= size
  {
    if !t.open || t.pending || t.stalled then 0 else Least(Least(size, TX_MAX), t.mtu)
  }

  function Wrote(t: Slot, data: seq<byte>): (r: Slot) {
    var n := WriteSize(t, |data|);
    if n == 0 then t else t.(chunk := data[..n], pending := true, accepted := t.accepted + data[..n])
  }

  /** The stack's side of an offer. */
  function Taken(t: Slot, outcome: Outcome): (r: Slot) {
    t.(phase := Called(outcome),
       sent := if outcome.Through? || (outcome.Failed? && outcome.sent) then t.sent + t.chunk else t.sent,
       held := outcome.Stalled?)
  }

  /** The pipe's side, under its lock. */
  function Settled(t: Slot, outcome: Outcome): (r: Slot) {
    var idle := t.(phase := Idle);
    match outcome
    case Through => idle.(pending := false, stalled := false)
    case Stalled => idle.(pending := false, stalled := true)
    case Busy => idle.(stalled := true)
    case NoMemory => idle
    case Failed(_) => idle.(open := false)
  }

  /** The stack finishes, drops or breaks off a stalled SDU. */
  function Resumed(t: Slot, status: Unstall): (r: Slot) {
    var done := t.(held := false);
    match status
    case Clear => done.(stalled := false, sent := if t.held then t.sent + t.chunk else t.sent)
    case Dropped => done.(stalled := false, pending := true)
    case Broken(sent) => done.(open := false, sent := if t.held && sent then t.sent + t.chunk else t.sent)
  }

  function TxNext(t: Slot, step: TxStep): (r: Slot)
    requires TxEnabled(t, step)
  {
    match step
    case Writes(data) => Wrote(t, data)
    case Offer => t.(phase := Sending)
    case Takes(outcome) => Taken(t, outcome)
    case Settles => Settled(t, t.phase.outcome)
    case Unstalled(status) => Resumed(t, status)
    case Shuts => t.(open := false)
    case Severed => t.(open := false, pending := false)
  }

  /** The retained chunk is what separates what was accepted from what was sent,
      exactly while it is still owed to the peer. */
  predicate Outstanding(t: Slot) {
    match t.phase
    case Called(Through) => false
    case Called(Failed(sent)) => !sent
    case Called(_) => true
    case _ => t.pending || t.held
  }

  ghost predicate SlotInv(t: Slot) {
    && (!t.phase.Idle? ==> t.pending && !t.stalled)
    && (t.held ==> t.phase == Called(Stalled) || (t.phase.Idle? && t.stalled && !t.pending))
    && (t.phase == Called(Stalled) ==> t.held)
    && (t.open && t.stalled && !t.pending ==> t.held)
    && t.sent <= t.accepted
    && (t.open || !t.phase.Idle? || t.held ==> t.accepted == t.sent + if Outstanding(t) then t.chunk else [])
  }

  lemma ResumedKeeps(t: Slot, status: Unstall)
    requires SlotInv(t) && TxEnabled(t, Unstalled(status))
    ensures SlotInv(Resumed(t, status))
  {
    assert t.sent + [] == t.sent && (t.sent + t.chunk) + [] == t.sent + t.chunk;
  }

  lemma TxStepKeeps(t: Slot, step: TxStep)
    requires SlotInv(t) && TxEnabled(t, step)
    ensures SlotInv(TxNext(t, step))
  {
    match step
    case Writes(data) =>
      var n := WriteSize(t, |data|);
      if n > 0 { assert t.accepted == t.sent; }
    case Unstalled(status) => ResumedKeeps(t, status);
    case Takes(outcome) => assert t.sent + [] == t.sent && (t.sent + t.chunk) + [] == t.sent + t.chunk;
    case Settles => assert t.sent + [] == t.sent;
    case _ =>
  }

  ghost predicate TxRun(t: Slot, steps: seq<TxStep>)
    decreases |steps|
  {
    steps == [] || (TxEnabled(t, steps[0]) && TxRun(TxNext(t, steps[0]), steps[1..]))
  }

  ghost function TxAfter(t: Slot, steps: seq<TxStep>): (r: Slot)
    requires TxRun(t, steps)
    decreases |steps|
  {
    if steps == [] then t else TxAfter(TxNext(t, steps[0]), steps[1..])
  }

  lemma {:induction false} TxRunKeeps(t: Slot, steps: seq<TxStep>)
    requires SlotInv(t) && TxRun(t, steps)
    ensures SlotInv(TxAfter(t, steps))
    decreases |steps|
  {
    hide SlotInv, TxNext, TxEnabled;
    if steps != [] {
      TxStepKeeps(t, steps[0]);
      TxRunKeeps(TxNext(t, steps[0]), steps[1..]);
    }
  }

  /** The owner may believe that nothing is in flight. */
  predicate Drained(t: Slot) {
    t.owned && t.open && !t.pending && !t.stalled
  }

  predicate NewSlot(t: Slot) {
    !t.pending && !t.stalled && !t.held && t.phase.Idle? && t.accepted == [] && t.sent == []
  }

  /** Whatever the stack answers, the peer gets a prefix of what the producer was
      told is accepted: nothing is lost, repeated or reordered. When the pipe
      reports itself drained, the peer gets all of it. */
  lemma SentExactlyOnce(t: Slot, steps: seq<TxStep>)
    requires NewSlot(t) && TxRun(t, steps)
    ensures var r := TxAfter(t, steps);
            r.sent <= r.accepted && (Drained(r) ==> r.sent == r.accepted)
  {
    hide TxRun, TxAfter;
    assert t.sent + [] == t.accepted;
    TxRunKeeps(t, steps);
    var r := TxAfter(t, steps);
    assert r.sent + [] == r.sent;
  }

  /** At any moment at most one chunk separates the two. */
  lemma OneChunkOutstanding(t: Slot, steps: seq<TxStep>)
    requires NewSlot(t) && TxRun(t, steps) && TxAfter(t, steps).open
    ensures var r := TxAfter(t, steps); r.accepted == r.sent || r.accepted == r.sent + r.chunk
  {
    hide TxRun, TxAfter;
    assert t.sent + [] == t.accepted;
    TxRunKeeps(t, steps);
    var r := TxAfter(t, steps);
    assert r.sent + [] == r.sent;
  }

  // ----- The ring itself

  /** A position less than two turns in, brought back into the ring. */
  function Wrap(i: nat, length: nat): (r: nat)
    requires i < 2 * length
    ensures r < length
  {
    if i < length then i else i - length
  }

  /** n bytes of a ring from position head on. */
  function Circular(data: seq<byte>, head: nat, n: nat): (r: seq<byte>)
    requires head < |data| && n <= |data|
    ensures |r| == n
  {
    seq(n, k requires 0 <= k < n => data[Wrap(head + k, |data|)])
  }

  lemma CircularAt(data: seq<byte>, head: nat, n: nat)
    requires head < |data| && n <= |data|
    ensures forall k :: 0 <= k < n ==> Circular(data, head, n)[k] == data[Wrap(head + k, |data|)]
  {
  }

  /** The first n bytes, copied in two pieces, and what is left behind them. */
  lemma Divided(data: seq<byte>, head: nat, size: nat, n: nat, first: nat)
    requires head < |data| && n <= size <= |data| && first == Least(n, |data| - head)
    ensures var out := data[head..head + first] + data[..n - first];
            |out| == n && out + Circular(data, Wrap(head + n, |data|), size - n) == Circular(data, head, size)
  {
    var out := data[head..head + first] + data[..n - first];
    var rest, whole := Circular(data, Wrap(head + n, |data|), size - n), Circular(data, head, size);
    CircularAt(data, Wrap(head + n, |data|), size - n);
    CircularAt(data, head, size);
    forall k | 0 <= k < n ensures out[k] == whole[k] { }
    forall k | 0 <= k < size - n ensures rest[k] == whole[n + k] { }
  }

  /** A byte ring written by the host thread and read by the actor. */
  class Ring {
    var data: array<byte>
    var head: nat
    var size: nat

    ghost predicate Valid()
      reads this
    {
      data.Length > 0 && head < data.Length && size <= data.Length
    }

    /** The bytes in the ring, oldest first. */
    ghost function Contents(): (r: seq<byte>)
      requires Valid()
      reads this, data
      ensures |r| == size
    {
      Circular(data[..], head, size)
    }

    constructor (capacity: nat)
      requires capacity > 0
      ensures Valid() && fresh(data) && data.Length == capacity && Contents() == []
    {
      data := new byte[capacity];
      head, size := 0, 0;
    }

    method Copy(sdu: seq<byte>, at: nat)
      requires Valid() && at + |sdu| <= data.Length
      modifies data
      ensures forall k :: 0 <= k < data.Length ==> data[k] == if at <= k < at + |sdu| then sdu[k - at] else old(data[k])
    {
      var i := 0;
      while i < |sdu|
        invariant i <= |sdu|
        invariant forall k :: 0 <= k < data.Length ==> data[k] == if at <= k < at + i then sdu[k - at] else old(data[k])
      {
        data[at + i] := sdu[i];
        i := i + 1;
      }
    }

    /** Up to the end of the array, then from its start. */
    method Append(sdu: seq<byte>)
      requires Valid() && size + |sdu| <= data.Length
      modifies this, data
      ensures Valid() && data == old(data) && head == old(head)
      ensures Contents() == old(Contents()) + sdu
    {
      ghost var before := Contents();
      CircularAt(data[..], head, size);
      var tail := if head + size < data.Length then head + size else head + size - data.Length;
      var first := if |sdu| < data.Length - tail then |sdu| else data.Length - tail;
      Copy(sdu[..first], tail);
      if |sdu| > first { Copy(sdu[first..], 0); }
      size := size + |sdu|;
      CircularAt(data[..], head, size);
      assert Contents() == before + sdu;
    }

    method Take(want: nat) returns (out: seq<byte>)
      requires Valid()
      modifies this
      ensures Valid() && data == old(data)
      ensures |out| == Least(want, |old(Contents())|) && out + Contents() == old(Contents())
    {
      hide Wrap, Circular;
      var n := if want < size then want else size;
      var first := if n < data.Length - head then n else data.Length - head;
      Divided(data[..], head, size, n, first);
      out := data[..][head..head + first] + data[..][..n - first];
      head := Wrap(head + n, data.Length);
      size := size - n;
    }
  }

  // ----- The pipe

  /** The pipe's fields, each method one region under its lock. The window and
      slot it stands for are RxView and TxView. */
  class Pipe {
    const slots: nat
    const mtu: nat
    const ring: Ring
    var owed: nat
    var arming: nat
    var stack: bool
    var connected: bool
    var closing: bool
    var rejected: bool
    var owned: bool
    var tx: seq<byte>
    var txMtu: nat
    var txPending: bool
    var stalled: bool
    ghost var received: seq<byte>
    ghost var taken: seq<byte>
    ghost var accepted: seq<byte>
    ghost var sent: seq<byte>
    ghost var held: bool
    ghost var phase: Phase

    /** A new pipe owes every receive slot and has nothing to send. */
    constructor (slots: nat, mtu: nat)
      requires 0 < mtu && slots <= 2
      ensures Valid() && fresh(ring) && fresh(ring.data) && NewSlot(TxView())
      ensures NewWindow(RxView()) && RxView().slots == slots && RxView().mtu == mtu
    {
      this.slots, this.mtu := slots, mtu;
      ring := new Ring(2 * mtu);
      owed, arming := slots, 0;
      stack, connected, closing, rejected, owned := true, false, false, false, false;
      tx, txMtu, txPending, stalled := [], mtu, false, false;
      received, taken, accepted, sent, held, phase := [], [], [], [], false, Idle;
    }

    ghost predicate Valid()
      reads this, ring
    {
      ring.Valid() && mtu > 0
    }

    predicate Usable()
      reads this
    {
      connected && !closing
    }

    ghost function RxView(): (w: Window)
      requires Valid()
      reads this, ring, ring.data
    {
      Window(slots, mtu, ring.data.Length, ring.Contents(), owed, arming, stack, connected, closing, rejected, received, taken)
    }

    ghost function TxView(): (t: Slot)
      reads this
    {
      Slot(tx, txPending, stalled, Usable(), owned, txMtu, phase, accepted, sent, held)
    }

    /** An SDU for an open pipe. */
    method Receive(sdu: seq<byte>)
      requires Valid() && Usable()
      modifies this, ring, ring.data
      ensures Valid() && ring.data == old(ring.data)
      ensures RxView() == Deliver(old(RxView()), sdu)
    {
      if |sdu| > mtu || |sdu| > ring.data.Length - ring.size {
        rejected, closing := true, true;
      } else {
        ring.Append(sdu);
        received := received + sdu;
        if owed < slots { owed := owed + 1; } else { closing := true; }
      }
    }

    /** The start of the host callback: how many slots to arm. */
    method PlanArming()
      requires Valid() && RxEnabled(RxView(), Rearm)
      modifies this`arming
      ensures Valid() && RxView() == RxNext(old(RxView()), Rearm)
      ensures WindowInv(old(RxView())) ==> WindowInv(RxView())
    {
      ghost var before := RxView();
      arming := if Usable() then RearmBudget(slots, owed, ring.data.Length - ring.size, mtu) else 0;
      if WindowInv(before) { RxStepKeeps(before, Rearm); }
    }

    /** The stack reports that the channel is gone: slots and chunk with it. */
    method Disconnect()
      requires Valid() && RxEnabled(RxView(), Disconnects) && phase.Idle?
      modifies this`stack, this`connected, this`owed, this`txPending
      ensures Valid() && RxView() == RxNext(old(RxView()), Disconnects) && TxView() == TxNext(old(TxView()), Severed)
    {
      hide Circular;
      stack, connected, txPending, owed := false, false, false, 0;
    }

    /** The stack's answer to one submitted buffer. */
    method RecordSubmit(ok: bool, outOfMemory: bool)
      requires Valid() && arming > 0
      modifies this`arming, this`owed, this`closing
      ensures Valid() && RxView() == RxNext(old(RxView()), if ok then Submitted else SubmitFailed(!outOfMemory))
    {
      if ok {
        arming := arming - 1;
        if owed > 0 { owed := owed - 1; }
      } else {
        arming := 0;
        if !outOfMemory { closing := true; }
      }
    }

    method Read(size: nat) returns (out: seq<byte>)
      requires Valid()
      modifies this`taken, ring
      ensures Valid() && ring.data == old(ring.data)
      ensures RxView() == RxNext(old(RxView()), Reads(size)) && out == old(ring.Contents())[..Least(size, |old(ring.Contents())|)]
    {
      ghost var before := ring.Contents();
      out := ring.Take(size);
      assert before[..|out|] == out && before[|out|..] == ring.Contents();
      taken := taken + out;
    }

    /** A producer's write: the number of bytes taken. */
    method Write(data: seq<byte>) returns (n: nat)
      modifies this`tx, this`txPending, this`accepted
      ensures n == WriteSize(old(TxView()), |data|) && TxView() == Wrote(old(TxView()), data)
    {
      n := 0;
      if Usable() && !txPending && !stalled {
        n := if |data| < TX_MAX then |data| else TX_MAX;
        if n > txMtu { n := txMtu; }
        if n > 0 {
          tx := data[..n];
          txPending := true;
          accepted := accepted + tx;
        }
      }
    }

    /** The host thread records what became of the SDU it offered. */
    method RecordSend(outcome: Outcome)
      requires phase == Called(outcome)
      modifies this`txPending, this`stalled, this`closing, this`phase
      ensures TxView() == TxNext(old(TxView()), Settles)
    {
      match outcome {
        case Through => txPending, stalled := false, false;
        case Stalled => txPending, stalled := false, true;
        case Busy => stalled := true;
        case NoMemory =>
        case Failed(_) => closing := true;
      }
      phase := Idle;
    }

    /** The stack reports the end of a stall. */
    method Resume(status: Unstall)
      requires phase.Idle? && stalled
      modifies this`txPending, this`stalled, this`closing, this`held, this`sent
      ensures TxView() == TxNext(old(TxView()), Unstalled(status))
    {
      match status {
        case Clear =>
          stalled := false;
          sent := if held then sent + tx else sent;
        case Dropped => stalled, txPending := false, true;
        case Broken(out) =>
          closing := true;
          sent := if held && out then sent + tx else sent;
      }
      held := false;
    }

    /** Whether everything accepted has left. */
    method OutputDrained() returns (r: bool)
      ensures r == Drained(TxView())
      ensures SlotInv(TxView()) && r ==> sent == accepted
    {
      r := owned && connected && !closing && !txPending && !stalled;
      assert sent + [] == sent;
    }
  }
}
