/** The timer hub behind WendyClock.sleep: sleepers wait sorted by deadline, one
    host timer is armed for the earliest, and each sleeper is resumed once. */
module TimerHub {
  import opened Types

  // ----- Durations, in attoseconds

  const MS: int := 1_000_000_000_000_000
  const SECOND: int := 1_000_000_000_000_000_000
  const INT64_MAX: int := 0x7FFF_FFFF_FFFF_FFFF

  /** Whole milliseconds, rounded up and saturated. */
  function CeilMs(d: int): (r: nat)
  {
    if d <= 0 then 0
    else
      var ms := (d + MS - 1) / MS;
      if ms > INT64_MAX then INT64_MAX else ms
  }

  /** The conversion as it is written: seconds and attoseconds apart, with an
      overflow check before each step. */
  method MillisecondsRoundedUp(d: int) returns (ms: int)
    ensures ms == CeilMs(d)
  {
    if d <= 0 { return 0; }
    var seconds, atto := d / SECOND, d % SECOND;
    if seconds > INT64_MAX / 1000 {
      Apart(d, seconds, atto);
      return INT64_MAX;
    }
    ms := seconds * 1000;
    if atto > 0 {
      var extra := (atto + MS - 1) / MS;
      Apart(d, seconds, atto);
      if ms > INT64_MAX - extra { return INT64_MAX; }
      ms := ms + extra;
    } else {
      assert d + MS - 1 == MS * (seconds * 1000) + (MS - 1);
      assert (d + MS - 1) / MS == seconds * 1000;
    }
  }

  lemma Apart(d: int, seconds: int, atto: int)
    requires d == seconds * SECOND + atto
    ensures (d + MS - 1) / MS == seconds * 1000 + (atto + MS - 1) / MS
  {
    assert d + MS - 1 == (atto + MS - 1) + MS * (seconds * 1000);
  }

  const INT32_MAX: int := 0x7FFF_FFFF

  /** The delay handed to the host: at least one millisecond, and narrowed to 32
      bits, which traps when it does not fit. */
  function Delay(now: int, deadline: int): (r: Option<nat>)
  {
    var ms := if CeilMs(deadline - now) > 1 then CeilMs(deadline - now) else 1;
    if ms > INT32_MAX then None else Some(ms)
  }

  /** Whatever arms is safe: the delay never ends before the deadline, and is at
      most a millisecond too long. */
  lemma NeverEarly(now: int, deadline: int)
    requires now < deadline && Delay(now, deadline).Some?
    ensures var ms := Delay(now, deadline).value;
            1 <= ms <= INT32_MAX && deadline <= now + ms * MS && now + (ms - 1) * MS < deadline
  {
    var d := deadline - now;
    var ms := (d + MS - 1) / MS;
    assert ms * MS <= d + MS - 1 < (ms + 1) * MS;
  }

  /** Arming traps exactly for deadlines more than 2^31 - 1 milliseconds away. */
  lemma TrapsBeyondRange(now: int, deadline: int)
    ensures Delay(now, deadline).None? <==> deadline - now > INT32_MAX * MS
  {
    var d := deadline - now;
    if d > 0 {
      var ms := (d + MS - 1) / MS;
      assert ms * MS <= d + MS - 1 < (ms + 1) * MS;
    }
  }

  // ----- The hub's tables

  datatype Waiter = Waiter(id: nat, deadline: int)

  /** `timer` is the host's identifier, zero for none; a negative one means the
      host could not start the timer. `armed` is the deadline it stands for. */
  datatype Hub = Hub(waiters: seq<Waiter>, ready: seq<Waiter>, timer: int, armed: Option<int>, nextId: nat)

  predicate Sorted(ws: seq<Waiter>) {
    forall i, j :: 0 <= i < j < |ws| ==> ws[i].deadline <= ws[j].deadline
  }

  /** The first waiter with a later deadline, or the end. */
  function Later(ws: seq<Waiter>, deadline: int, i: nat): (r: nat)
    requires i <= |ws|
    ensures i <= r <= |ws| && (r < |ws| ==> deadline < ws[r].deadline)
    ensures forall j :: i <= j < r ==> ws[j].deadline <= deadline
    decreases |ws| - i
  {
    if i == |ws| || deadline < ws[i].deadline then i else Later(ws, deadline, i + 1)
  }

  function Inserted(ws: seq<Waiter>, w: Waiter): (r: seq<Waiter>)
    ensures |r| == |ws| + 1
  {
    var i := Later(ws, w.deadline, 0);
    ws[..i] + [w] + ws[i..]
  }

  function IndexOf(ws: seq<Waiter>, id: nat, i: nat): (r: nat)
    requires i <= |ws|
    ensures i <= r <= |ws| && (r < |ws| ==> ws[r].id == id)
    ensures forall j :: i <= j < r ==> ws[j].id != id
    decreases |ws| - i
  {
    if i == |ws| || ws[i].id == id then i else IndexOf(ws, id, i + 1)
  }

  function Without(ws: seq<Waiter>, i: nat): (r: seq<Waiter>)
    requires i < |ws|
  {
    ws[..i] + ws[i + 1..]
  }

  /** A host timer has to be started: somebody waits, and no timer stands for the
      earliest deadline. */
  predicate MustArm(h: Hub) {
    h.waiters != [] && !(h.timer != 0 && h.armed == Some(h.waiters[0].deadline))
  }

  /** The hub once its timer stands for the earliest waiter; `handle` is the
      identifier the host returns if it is asked. */
  function Rearmed(h: Hub, handle: int): (r: Hub)
    ensures r == h.(timer := r.timer, armed := r.armed)
  {
    if h.waiters == [] then h.(timer := 0, armed := None)
    else if MustArm(h) then h.(timer := handle, armed := Some(h.waiters[0].deadline))
    else h
  }

  /** Arming at time now; nothing when the program traps. */
  function Rescheduled(h: Hub, now: int, handle: int): (r: Option<Hub>) {
    if MustArm(h) && Delay(now, h.waiters[0].deadline).None? then None else Some(Rearmed(h, handle))
  }

  /** A new sleeper, before the timer is looked at. */
  function Joined(h: Hub, deadline: int): (r: Hub) {
    h.(waiters := Inserted(h.waiters, Waiter(h.nextId, deadline)), nextId := h.nextId + 1)
  }

  function Parked(h: Hub, deadline: int, handle: int): (r: Hub) {
    Rearmed(Joined(h, deadline), handle)
  }

  /** One sleeper fewer, likewise. */
  function Parted(h: Hub, i: nat): (r: Hub)
    requires i < |h.waiters|
  {
    h.(waiters := Without(h.waiters, i))
  }

  /** Take a sleeper out wherever it waits; nothing happens when it is gone. */
  function Removed(h: Hub, id: nat, handle: int): (r: (Hub, Option<Waiter>)) {
    var i := IndexOf(h.waiters, id, 0);
    if i < |h.waiters| then (Rearmed(Parted(h, i), handle), Some(h.waiters[i]))
    else
      var j := IndexOf(h.ready, id, 0);
      if j < |h.ready| then (h.(ready := Without(h.ready, j)), Some(h.ready[j])) else (h, None)
  }

  function Due(ws: seq<Waiter>, now: int): (r: seq<Waiter>)
    ensures |r| <= |ws|
  {
    if ws == [] then []
    else
      var w := ws[|ws| - 1];
      Due(ws[..|ws| - 1], now) + if w.deadline <= now then [w] else []
  }

  function NotDue(ws: seq<Waiter>, now: int): (r: seq<Waiter>)
    ensures |r| <= |ws|
  {
    if ws == [] then []
    else
      var w := ws[|ws| - 1];
      NotDue(ws[..|ws| - 1], now) + if w.deadline <= now then [] else [w]
  }

  /** The host timer went off: expired sleepers are ready. */
  function Rung(h: Hub, now: int): (r: Hub) {
    h.(timer := 0, armed := None, ready := h.ready + Due(h.waiters, now), waiters := NotDue(h.waiters, now))
  }

  function Fired(h: Hub, now: int, handle: int): (r: Hub) {
    Rearmed(Rung(h, now), handle)
  }

  // ----- What every hub operation keeps

  /** Sorted waiters, and the timer stands for the earliest of them. */
  predicate HubInv(h: Hub) {
    && Sorted(h.waiters)
    && (h.waiters == [] ==> h.timer == 0 && h.armed.None?)
    && (h.waiters != [] ==> h.armed == Some(h.waiters[0].deadline))
  }

  lemma InsertedSorted(ws: seq<Waiter>, w: Waiter)
    requires Sorted(ws)
    ensures Sorted(Inserted(ws, w))
  {
    var i := Later(ws, w.deadline, 0);
    var r := Inserted(ws, w);
    forall a, b | 0 <= a < b < |r| ensures r[a].deadline <= r[b].deadline {
      assert r[a] == if a < i then ws[a] else if a == i then w else ws[a - 1];
      assert r[b] == if b < i then ws[b] else if b == i then w else ws[b - 1];
      if i < b { assert ws[i].deadline <= ws[b - 1].deadline; }
    }
  }

  lemma InsertedOne(ws: seq<Waiter>, w: Waiter)
    ensures multiset(Inserted(ws, w)) == multiset(ws) + multiset{w}
  {
    hide Later;
    var i := Later(ws, w.deadline, 0);
    assert ws == ws[..i] + ws[i..];
  }

  lemma WithoutSorted(ws: seq<Waiter>, i: nat)
    requires Sorted(ws) && i < |ws|
    ensures Sorted(Without(ws, i))
  {
  }

  lemma WithoutOne(ws: seq<Waiter>, i: nat)
    requires i < |ws|
    ensures multiset(Without(ws, i)) + multiset{ws[i]} == multiset(ws)
  {
    assert ws == ws[..i] + [ws[i]] + ws[i + 1..];
  }

  lemma {:induction false} Partitioned(ws: seq<Waiter>, now: int)
    ensures multiset(Due(ws, now)) + multiset(NotDue(ws, now)) == multiset(ws)
  {
    if ws != [] {
      var m := |ws| - 1;
      var w, a, b := ws[m], Due(ws[..m], now), NotDue(ws[..m], now);
      Partitioned(ws[..m], now);
      assert ws == ws[..m] + [w];
      Added(ws[..m], w);
      Added(a, w);
      Added(b, w);
      if w.deadline <= now {
        assert Due(ws, now) == a + [w] && NotDue(ws, now) == b + [] == b;
      } else {
        assert Due(ws, now) == a + [] == a && NotDue(ws, now) == b + [w];
      }
    }
  }

  /** The loop that separates expired sleepers from the rest. */
  method Divide(ws: seq<Waiter>, now: int) returns (due: seq<Waiter>, remaining: seq<Waiter>)
    ensures due == Due(ws, now) && remaining == NotDue(ws, now)
  {
    due, remaining := [], [];
    var i := 0;
    while i < |ws|
      invariant i <= |ws| && due == Due(ws[..i], now) && remaining == NotDue(ws[..i], now)
    {
      DueStep(ws, now, i);
      if ws[i].deadline <= now { due := due + [ws[i]]; } else { remaining := remaining + [ws[i]]; }
      i := i + 1;
    }
    assert ws[..i] == ws;
  }

  lemma DueStep(ws: seq<Waiter>, now: int, i: nat)
    requires i < |ws|
    ensures Due(ws[..i + 1], now) == if ws[i].deadline <= now then Due(ws[..i], now) + [ws[i]] else Due(ws[..i], now)
    ensures NotDue(ws[..i + 1], now) == if ws[i].deadline <= now then NotDue(ws[..i], now) else NotDue(ws[..i], now) + [ws[i]]
  {
    assert ws[..i + 1][..i] == ws[..i];
  }

  lemma Added(ws: seq<Waiter>, w: Waiter)
    ensures multiset(ws + [w]) == multiset(ws) + multiset{w}
  {
  }

  lemma {:induction false} DueMembers(ws: seq<Waiter>, now: int)
    ensures forall w :: w in Due(ws, now) ==> w.deadline <= now
    ensures forall w :: w in NotDue(ws, now) ==> w in ws && now < w.deadline
  {
    if ws != [] {
      var m := |ws| - 1;
      DueMembers(ws[..m], now);
      assert ws == ws[..m] + [ws[m]];
    }
  }

  lemma {:induction false} NotDueSorted(ws: seq<Waiter>, now: int)
    requires Sorted(ws)
    ensures Sorted(NotDue(ws, now))
  {
    if ws != [] {
      var m := |ws| - 1;
      NotDueSorted(ws[..m], now);
      DueMembers(ws[..m], now);
      var rest := NotDue(ws[..m], now);
      forall i | 0 <= i < |rest| ensures rest[i].deadline <= ws[m].deadline { assert rest[i] in ws[..m]; }
    }
  }

  lemma HubKeeps(h: Hub, deadline: int, id: nat, now: int, handle: int)
    requires HubInv(h)
    ensures HubInv(Parked(h, deadline, handle)) && HubInv(Removed(h, id, handle).0) && HubInv(Fired(h, now, handle))
  {
    InsertedSorted(h.waiters, Waiter(h.nextId, deadline));
    var i := IndexOf(h.waiters, id, 0);
    if i < |h.waiters| { WithoutSorted(h.waiters, i); }
    NotDueSorted(h.waiters, now);
  }

  // ----- Sleepers, cancellation and interleaving

  /** Where a sleep call is: not registered yet; inside the locked region, past
      its insertion; told to remove itself; suspended. */
  datatype Pc = Unregistered | Registering | MustCancel | Suspended

  /** Where its cancellation handler is. */
  datatype Handler = NotRun | MustRemove | Finished

  datatype Call = Call(deadline: int, id: Option<nat>, cancelled: bool, pc: Pc, handler: Handler)

  /** `lock` is the call inside the hub's locked region between two of its steps;
      `leaving` holds waiters taken out but not yet resumed; `running` names the
      host timers that were started for the hub and have neither elapsed nor been
      cancelled, whether or not the hub still knows them; `posted` counts the
      callbacks of elapsed timers that are still to be delivered; `trapped` says
      that the program is dead. */
  datatype World = World(
    hub: Hub, now: int, calls: seq<Call>, lock: Option<nat>, leaving: seq<Waiter>, resumed: seq<Waiter>,
    running: set<int>, posted: nat, trapped: bool)

  datatype Step =
    | Sleep(deadline: int)
    | Register(call: nat, handle: int)
    | Check(call: nat)
    | CancelSelf(call: nat, handle: int)
    | MarkCancelled(call: nat)
    | CancelOther(call: nat, handle: int)
    | Elapse(timer: int)
    | Lose(timer: int)
    | Fire(at: int, handle: int)
    | Drain
    | Resume(k: nat)
    | Pass(now: int)

  const MAX_TIMERS := 8

  /** The host names its timers 1 to 8 and answers -1 when it cannot start one; a
      name is free again once its timer has elapsed or been cancelled. */
  predicate HostId(running: set<int>, handle: int) {
    handle == -1 || (0 < handle <= MAX_TIMERS && handle !in running)
  }

  function Stopped(running: set<int>, timer: int): (r: set<int>) {
    if timer != 0 then running - {timer} else running
  }

  /** The host timers after the hub's own has been looked at: re-arming cancels
      the timer the hub knows and starts another. */
  function Hosted(running: set<int>, h: Hub, handle: int): (r: set<int>) {
    if h.waiters == [] then Stopped(running, h.timer)
    else if MustArm(h) then Stopped(running, h.timer) + (if handle > 0 then {handle} else {})
    else running
  }

  /** Any running timer may elapse. Its callback is queued, or lost when the queue
      stays full, and a queued one is delivered later, even if the timer has been
      cancelled in between. The clock is read before a callback takes the lock. */
  predicate Enabled(w: World, step: Step) {
    !w.trapped
    && match step
    case Sleep(deadline) => w.now < deadline
    case Register(i, handle) => HostId(Stopped(w.running, w.hub.timer), handle) && i < |w.calls| && w.calls[i].pc.Unregistered? && w.lock.None?
    case Check(i) => i < |w.calls| && w.lock == Some(i) && w.calls[i].pc.Registering?
    case CancelSelf(i, handle) => HostId(Stopped(w.running, w.hub.timer), handle) && i < |w.calls| && w.calls[i].pc.MustCancel? && w.calls[i].id.Some? && w.lock.None?
    case MarkCancelled(i) => i < |w.calls| && !w.calls[i].cancelled
    case CancelOther(i, handle) => HostId(Stopped(w.running, w.hub.timer), handle) && i < |w.calls| && w.calls[i].handler.MustRemove? && w.calls[i].id.Some? && w.lock.None?
    case Elapse(timer) => timer in w.running
    case Lose(timer) => timer in w.running
    case Fire(at, handle) => HostId(w.running, handle) && w.lock.None? && w.posted > 0 && at <= w.now
    case Drain => w.lock.None?
    case Resume(k) => k < |w.leaving|
    case Pass(now) => w.now <= now
  }

  function TakeOut(w: World, id: nat, handle: int): (r: World) {
    var (h, gone) := Removed(w.hub, id, handle);
    var i := IndexOf(w.hub.waiters, id, 0);
    w.(hub := h, running := if i < |w.hub.waiters| then Hosted(w.running, Parted(w.hub, i), handle) else w.running,
       leaving := if gone.Some? then w.leaving + [gone.value] else w.leaving)
  }

  /** The step asks the host for a delay that does not fit 32 bits. */
  predicate Fatal(w: World, step: Step)
    requires Enabled(w, step)
  {
    match step
    case Register(i, handle) => Rescheduled(Joined(w.hub, w.calls[i].deadline), w.now, handle).None?
    case CancelSelf(i, handle) => PartingTraps(w, w.calls[i].id.value, handle)
    case CancelOther(i, handle) => PartingTraps(w, w.calls[i].id.value, handle)
    case Fire(at, handle) => Rescheduled(Rung(w.hub, at), w.now, handle).None?
    case _ => false
  }

  predicate PartingTraps(w: World, id: nat, handle: int) {
    var i := IndexOf(w.hub.waiters, id, 0);
    i < |w.hub.waiters| && Rescheduled(Parted(w.hub, i), w.now, handle).None?
  }

  function Next(w: World, step: Step): (r: World)
    requires Enabled(w, step)
  {
    if Fatal(w, step) then w.(trapped := true) else Moved(w, step)
  }

  /** A step that does not trap. */
  function Moved(w: World, step: Step): (r: World)
    requires Enabled(w, step)
  {
    match step
    case Sleep(deadline) => w.(calls := w.calls + [Call(deadline, None, false, Unregistered, NotRun)])
    case Register(i, handle) =>
      w.(hub := Parked(w.hub, w.calls[i].deadline, handle), lock := Some(i),
         running := Hosted(w.running, Joined(w.hub, w.calls[i].deadline), handle),
         calls := w.calls[i := w.calls[i].(id := Some(w.hub.nextId), pc := Registering)])
    case Check(i) =>
      w.(lock := None, calls := w.calls[i := w.calls[i].(pc := if w.calls[i].cancelled then MustCancel else Suspended)])
    case CancelSelf(i, handle) =>
      TakeOut(w, w.calls[i].id.value, handle).(calls := w.calls[i := w.calls[i].(pc := Suspended)])
    case MarkCancelled(i) =>
      w.(calls := w.calls[i := w.calls[i].(cancelled := true, handler := if w.calls[i].id.Some? then MustRemove else Finished)])
    case CancelOther(i, handle) =>
      TakeOut(w, w.calls[i].id.value, handle).(calls := w.calls[i := w.calls[i].(handler := Finished)])
    case Elapse(timer) => w.(running := w.running - {timer}, posted := w.posted + 1)
    case Lose(timer) => w.(running := w.running - {timer})
    case Fire(at, handle) =>
      w.(hub := Fired(w.hub, at, handle), running := Hosted(w.running, Rung(w.hub, at), handle), posted := w.posted - 1)
    case Drain => w.(leaving := w.leaving + w.hub.ready, hub := w.hub.(ready := []))
    case Resume(k) => w.(resumed := w.resumed + [w.leaving[k]], leaving := Without(w.leaving, k))
    case Pass(now) => w.(now := now)
  }

  /** Every waiter, wherever it is. */
  ghost function Everyone(w: World): (r: multiset<Waiter>) {
    multiset(w.hub.waiters) + multiset(w.hub.ready) + multiset(w.leaving) + multiset(w.resumed)
  }

  ghost predicate Owns(c: Call, x: Waiter) {
    c.id == Some(x.id) && c.deadline == x.deadline
  }

  ghost predicate Registered(calls: seq<Call>, x: Waiter) {
    exists i :: 0 <= i < |calls| && Owns(calls[i], x)
  }

  /** A registered sleeper is in exactly one place, exactly once. */
  ghost predicate Conserved(w: World) {
    forall x :: Everyone(w)[x] == if Registered(w.calls, x) then 1 else 0
  }

  ghost predicate IdsDiffer(w: World) {
    && (forall i :: 0 <= i < |w.calls| && w.calls[i].id.Some? ==> w.calls[i].id.value < w.hub.nextId)
    && (forall i, j :: 0 <= i < j < |w.calls| && w.calls[i].id.Some? ==> w.calls[i].id != w.calls[j].id)
    && (forall i :: 0 <= i < |w.calls| ==> (w.calls[i].pc.Unregistered? <==> w.calls[i].id.None?))
  }

  ghost predicate CancelledOwner(calls: seq<Call>, x: Waiter) {
    exists i :: 0 <= i < |calls| && Owns(calls[i], x) && calls[i].cancelled
  }

  /** Nobody leaves before the deadline unless cancelled. */
  ghost predicate Punctual(w: World) {
    && (forall x :: x in w.hub.ready ==> x.deadline <= w.now)
    && (forall x :: x in w.leaving || x in w.resumed ==> x.deadline <= w.now || CancelledOwner(w.calls, x))
  }

  predicate Listed(h: Hub, id: nat) {
    IndexOf(h.waiters, id, 0) < |h.waiters| || IndexOf(h.ready, id, 0) < |h.ready|
  }

  /** Somebody will still remove a cancelled sleeper that is listed. */
  predicate Attended(h: Hub, c: Call) {
    c.cancelled && c.id.Some? && Listed(h, c.id.value) ==> c.pc.Registering? || c.pc.MustCancel? || c.handler.MustRemove?
  }

  /** Only a cancelled call is ever told to remove itself. */
  predicate Flagged(c: Call) {
    (c.pc.MustCancel? ==> c.cancelled) && (c.handler.MustRemove? ==> c.cancelled && c.id.Some?)
  }

  ghost predicate WorldInv(w: World) {
    && HubInv(w.hub) && Conserved(w) && IdsDiffer(w) && Punctual(w)
    && (forall i :: 0 <= i < |w.calls| ==> Flagged(w.calls[i]))
    && (forall i :: 0 <= i < |w.calls| ==> Attended(w.hub, w.calls[i]))
  }

  // ----- Every step keeps it

  lemma RegisteredElsewhere(calls: seq<Call>, i: nat, c: Call, x: Waiter)
    requires i < |calls| && Owns(c, x) == Owns(calls[i], x)
    ensures Registered(calls[i := c], x) == Registered(calls, x)
  {
    var r := calls[i := c];
    if Registered(calls, x) {
      var j :| 0 <= j < |calls| && Owns(calls[j], x);
      assert Owns(r[j], x);
    }
    if Registered(r, x) {
      var j :| 0 <= j < |r| && Owns(r[j], x);
      assert Owns(calls[j], x);
    }
  }

  /** A waiter has one owner. */
  lemma OneOwner(w: World, i: nat, x: Waiter)
    requires IdsDiffer(w) && i < |w.calls| && w.calls[i].id == Some(x.id) && Registered(w.calls, x)
    ensures Owns(w.calls[i], x)
  {
    var j :| 0 <= j < |w.calls| && Owns(w.calls[j], x);
    assert i == j;
  }

  /** Once taken out, a sleeper is listed nowhere. */
  lemma TakenOutIsGone(w: World, id: nat, handle: int, i: nat)
    requires Conserved(w) && IdsDiffer(w) && i < |w.calls| && w.calls[i].id == Some(id)
    ensures !Listed(TakeOut(w, id, handle).hub, id)
  {
    var x := Waiter(id, w.calls[i].deadline);
    forall y | y in w.hub.waiters || y in w.hub.ready ensures y.id == id ==> y == x {
      assert Everyone(w)[y] > 0;
      if y.id == id { OneOwner(w, i, y); }
    }
    var h := TakeOut(w, id, handle).hub;
    AtMostOne(w, x);
    StillGone(w.hub, id, handle, x);
  }

  lemma AtMostOne(w: World, x: Waiter)
    requires Conserved(w)
    ensures multiset(w.hub.waiters)[x] + multiset(w.hub.ready)[x] <= 1
  {
    assert Everyone(w)[x] <= 1;
  }

  lemma StillGone(h: Hub, id: nat, handle: int, x: Waiter)
    requires multiset(h.waiters)[x] + multiset(h.ready)[x] <= 1 && forall y :: (y in h.waiters || y in h.ready) && y.id == id ==> y == x
    ensures !Listed(Removed(h, id, handle).0, id)
  {
    var i, j := IndexOf(h.waiters, id, 0), IndexOf(h.ready, id, 0);
    var r := Removed(h, id, handle).0;
    if i < |h.waiters| {
      WithoutOne(h.waiters, i);
      assert h.waiters[i] in h.waiters;
      assert multiset(h.waiters)[x] >= 1;
      NotListed(r.waiters, id, x);
      NotListed(r.ready, id, x);
    } else if j < |h.ready| {
      WithoutOne(h.ready, j);
      assert h.ready[j] in h.ready;
      NotListed(r.ready, id, x);
    }
  }

  lemma NotListed(ws: seq<Waiter>, id: nat, x: Waiter)
    requires x !in multiset(ws) && forall y :: y in multiset(ws) && y.id == id ==> y == x
    ensures IndexOf(ws, id, 0) == |ws|
  {
    assert forall y :: y in ws ==> y in multiset(ws);
  }

  /** Taking out moves at most one waiter, from a list to `leaving`. */
  lemma TakeOutConserves(w: World, id: nat, handle: int)
    ensures Everyone(TakeOut(w, id, handle)) == Everyone(w)
  {
    hide IndexOf, Rearmed;
    var i := IndexOf(w.hub.waiters, id, 0);
    if i < |w.hub.waiters| {
      WithoutOne(w.hub.waiters, i);
    } else {
      var j := IndexOf(w.hub.ready, id, 0);
      if j < |w.hub.ready| { WithoutOne(w.hub.ready, j); }
    }
  }

  lemma RegisterConserves(w: World, i: nat, handle: int)
    requires Conserved(w) && IdsDiffer(w) && Enabled(w, Register(i, handle))
    ensures Conserved(Moved(w, Register(i, handle)))
  {
    hide Later, Rearmed;
    var r := Moved(w, Register(i, handle));
    var x0 := Waiter(w.hub.nextId, w.calls[i].deadline);
    InsertedOne(w.hub.waiters, x0);
    assert Everyone(r) == Everyone(w) + multiset{x0};
    forall x ensures Everyone(r)[x] == if Registered(r.calls, x) then 1 else 0 {
      if x == x0 {
        assert Owns(r.calls[i], x);
        assert forall j :: 0 <= j < |w.calls| ==> !Owns(w.calls[j], x);
      } else {
        assert Owns(r.calls[i], x) == Owns(w.calls[i], x);
        RegisteredElsewhere(w.calls, i, r.calls[i], x);
      }
    }
  }

  lemma SleepConserves(w: World, deadline: int)
    requires Conserved(w) && Enabled(w, Sleep(deadline))
    ensures Conserved(Moved(w, Sleep(deadline)))
  {
    var r := Moved(w, Sleep(deadline));
    forall x ensures Registered(r.calls, x) == Registered(w.calls, x) {
      if Registered(w.calls, x) {
        var j :| 0 <= j < |w.calls| && Owns(w.calls[j], x);
        assert Owns(r.calls[j], x);
      }
      if Registered(r.calls, x) {
        var j :| 0 <= j < |r.calls| && Owns(r.calls[j], x);
        assert Owns(w.calls[j], x);
      }
    }
    assert Everyone(r) == Everyone(w);
  }

  /** Steps that touch one call's flags and move waiters around. */
  lemma MoveConserves(w: World, r: World, i: nat, c: Call)
    requires Conserved(w) && i < |w.calls| && r.calls == w.calls[i := c] && c.id == w.calls[i].id && c.deadline == w.calls[i].deadline
    requires Everyone(r) == Everyone(w)
    ensures Conserved(r)
  {
    forall x ensures Registered(r.calls, x) == Registered(w.calls, x) { RegisteredElsewhere(w.calls, i, c, x); }
  }

  lemma ResumeConserves(w: World, k: nat)
    requires Enabled(w, Resume(k))
    ensures Everyone(Moved(w, Resume(k))) == Everyone(w)
  {
    WithoutOne(w.leaving, k);
    Added(w.resumed, w.leaving[k]);
  }

  lemma FireConserves(w: World, at: int, handle: int)
    requires Enabled(w, Fire(at, handle))
    ensures Everyone(Moved(w, Fire(at, handle))) == Everyone(w)
  {
    hide Rearmed, Due, NotDue;
    Partitioned(w.hub.waiters, at);
    assert multiset(w.hub.ready + Due(w.hub.waiters, at)) == multiset(w.hub.ready) + multiset(Due(w.hub.waiters, at));
  }

  lemma StepConserves(w: World, step: Step)
    requires Conserved(w) && IdsDiffer(w) && Enabled(w, step)
    ensures Conserved(Moved(w, step))
  {
    hide Conserved, IdsDiffer, Removed, Fired, Parked, Without;
    var r := Moved(w, step);
    match step
    case Sleep(deadline) => SleepConserves(w, deadline);
    case Register(i, handle) => RegisterConserves(w, i, handle);
    case Check(i) => MoveConserves(w, r, i, r.calls[i]);
    case CancelSelf(i, handle) => TakeOutConserves(w, w.calls[i].id.value, handle); MoveConserves(w, r, i, r.calls[i]);
    case MarkCancelled(i) => MoveConserves(w, r, i, r.calls[i]);
    case CancelOther(i, handle) => TakeOutConserves(w, w.calls[i].id.value, handle); MoveConserves(w, r, i, r.calls[i]);
    case Fire(at, handle) =>
      FireConserves(w, at, handle);
      SameConserved(w, r);
    case Drain =>
      assert multiset(w.leaving + w.hub.ready) == multiset(w.leaving) + multiset(w.hub.ready);
      SameConserved(w, r);
    case Resume(k) =>
      ResumeConserves(w, k);
      SameConserved(w, r);
    case Elapse(_) => SameConserved(w, r);
    case Lose(_) => SameConserved(w, r);
    case Pass(_) => SameConserved(w, r);
  }

  lemma SameConserved(w: World, r: World)
    requires Conserved(w) && Everyone(r) == Everyone(w) && r.calls == w.calls
    ensures Conserved(r)
  {
  }

  lemma StepIds(w: World, step: Step)
    requires IdsDiffer(w) && Enabled(w, step)
    ensures IdsDiffer(Moved(w, step))
  {
    hide Inserted, IndexOf, Due, NotDue;
  }

  lemma StepFlagged(w: World, step: Step)
    requires Enabled(w, step) && forall i :: 0 <= i < |w.calls| ==> Flagged(w.calls[i])
    ensures forall i :: 0 <= i < |Moved(w, step).calls| ==> Flagged(Moved(w, step).calls[i])
  {
    hide Parked, Removed, Fired;
  }

  lemma StepHub(w: World, step: Step)
    requires HubInv(w.hub) && Enabled(w, step)
    ensures HubInv(Moved(w, step).hub)
  {
    hide Parked, Removed, Fired;
    match step
    case Register(i, handle) => HubKeeps(w.hub, w.calls[i].deadline, 0, 0, handle);
    case CancelSelf(i, handle) => HubKeeps(w.hub, 0, w.calls[i].id.value, 0, handle);
    case CancelOther(i, handle) => HubKeeps(w.hub, 0, w.calls[i].id.value, 0, handle);
    case Fire(at, handle) => HubKeeps(w.hub, 0, 0, at, handle);
    case _ =>
  }

  // ----- Nobody early

  lemma OwnersStay(w: World, step: Step, x: Waiter)
    requires Enabled(w, step) && IdsDiffer(w) && CancelledOwner(w.calls, x)
    ensures CancelledOwner(Moved(w, step).calls, x)
  {
    hide Parked, Removed, Fired;
    var j :| 0 <= j < |w.calls| && Owns(w.calls[j], x) && w.calls[j].cancelled;
    assert Owns(Moved(w, step).calls[j], x);
  }

  /** Whoever is taken out for a cancelled call belongs to it. */
  lemma TakenOutIsOwned(w: World, i: nat, handle: int, x: Waiter)
    requires Conserved(w) && IdsDiffer(w) && i < |w.calls| && w.calls[i].id.Some? && w.calls[i].cancelled
    requires x in TakeOut(w, w.calls[i].id.value, handle).leaving && x !in w.leaving
    ensures CancelledOwner(w.calls, x)
  {
    hide Rearmed;
    assert x.id == w.calls[i].id.value && (x in w.hub.waiters || x in w.hub.ready);
    assert Everyone(w)[x] > 0;
    OneOwner(w, i, x);
  }

  lemma TakeOutPunctual(w: World, i: nat, handle: int, c: Call)
    requires Conserved(w) && IdsDiffer(w) && Punctual(w) && i < |w.calls| && w.calls[i].id.Some? && w.calls[i].cancelled
    requires c.id == w.calls[i].id && c.deadline == w.calls[i].deadline && c.cancelled
    ensures Punctual(TakeOut(w, w.calls[i].id.value, handle).(calls := w.calls[i := c]))
  {
    hide Conserved, IdsDiffer, Everyone;
    var u := TakeOut(w, w.calls[i].id.value, handle);
    var r := u.(calls := w.calls[i := c]);
    assert r.resumed == w.resumed && r.now == w.now;
    forall x | x in r.leaving || x in r.resumed ensures x.deadline <= r.now || CancelledOwner(r.calls, x) {
      if x !in w.leaving && x !in w.resumed { TakenOutIsOwned(w, i, handle, x); }
      if CancelledOwner(w.calls, x) { OwnerKept(w.calls, i, c, x); }
    }
    forall x | x in r.hub.ready ensures x in w.hub.ready { }
  }

  lemma OwnerKept(calls: seq<Call>, i: nat, c: Call, x: Waiter)
    requires i < |calls| && CancelledOwner(calls, x) && c.id == calls[i].id && c.deadline == calls[i].deadline && (calls[i].cancelled ==> c.cancelled)
    ensures CancelledOwner(calls[i := c], x)
  {
    var j :| 0 <= j < |calls| && Owns(calls[j], x) && calls[j].cancelled;
    assert Owns(calls[i := c][j], x);
  }

  lemma StepPunctual(w: World, step: Step)
    requires WorldInv(w) && Enabled(w, step)
    ensures Punctual(Moved(w, step))
  {
    hide Conserved, IdsDiffer, HubInv, Parked, Removed, CancelledOwner, Attended;
    var r := Moved(w, step);
    forall x | CancelledOwner(w.calls, x) ensures CancelledOwner(r.calls, x) { OwnersStay(w, step, x); }
    match step
    case CancelSelf(i, handle) =>
      assert Flagged(w.calls[i]);
      TakeOutPunctual(w, i, handle, r.calls[i]);
    case CancelOther(i, handle) =>
      assert Flagged(w.calls[i]);
      TakeOutPunctual(w, i, handle, r.calls[i]);
    case Register(i, handle) => ParkedReady(w.hub, w.calls[i].deadline, handle);
    case Fire(at, _) => DueMembers(w.hub.waiters, at);
    case Resume(k) =>
      forall x | x in r.leaving ensures x in w.leaving { }
      assert w.leaving[k] in w.leaving;
    case _ =>
  }

  lemma ParkedReady(h: Hub, deadline: int, handle: int)
    ensures Parked(h, deadline, handle).ready == h.ready
  {
  }

  // ----- Cancelled sleepers are removed

  lemma ListedMember(h: Hub, id: nat)
    ensures Listed(h, id) <==> exists y :: (y in h.waiters || y in h.ready) && y.id == id
  {
    var i, j := IndexOf(h.waiters, id, 0), IndexOf(h.ready, id, 0);
    if i < |h.waiters| { assert h.waiters[i] in h.waiters; }
    if j < |h.ready| { assert h.ready[j] in h.ready; }
  }

  lemma ListedBefore(h: Hub, g: Hub, id: nat)
    requires Listed(g, id) && forall y :: (y in g.waiters || y in g.ready) && y.id == id ==> y in h.waiters || y in h.ready
    ensures Listed(h, id)
  {
    hide Listed;
    ListedMember(h, id);
    ListedMember(g, id);
  }

  lemma FiredMembers(h: Hub, now: int, handle: int)
    ensures var g := Fired(h, now, handle); forall y :: y in g.waiters || y in g.ready ==> y in h.waiters || y in h.ready
  {
    hide Rearmed;
    Partitioned(h.waiters, now);
    var g := Fired(h, now, handle);
    forall y | y in g.waiters || y in g.ready ensures y in h.waiters || y in h.ready {
      assert y in Due(h.waiters, now) ==> y in multiset(h.waiters);
      assert y in NotDue(h.waiters, now) ==> y in multiset(h.waiters);
    }
  }

  lemma StepListed(w: World, step: Step, id: nat)
    requires Enabled(w, step) && Listed(Moved(w, step).hub, id) && (step.Register? ==> id != w.hub.nextId)
    ensures Listed(w.hub, id)
  {
    hide Listed, Rearmed, Fired;
    var g := Moved(w, step).hub;
    match step
    case Fire(at, handle) =>
      FiredMembers(w.hub, at, handle);
      ListedBefore(w.hub, g, id);
    case _ => ListedBefore(w.hub, g, id);
  }

  lemma StepAttended(w: World, step: Step, j: nat)
    requires WorldInv(w) && Enabled(w, step) && j < |Moved(w, step).calls|
    ensures Attended(Moved(w, step).hub, Moved(w, step).calls[j])
  {
    hide Conserved, HubInv, Punctual, Listed, Parked, Removed, Fired;
    var r := Moved(w, step);
    if j < |w.calls| {
      assert Attended(w.hub, w.calls[j]);
      var c := r.calls[j];
      if c.cancelled && c.id.Some? && Listed(r.hub, c.id.value) {
        if step.CancelSelf? && step.call == j {
          TakenOutIsGone(w, c.id.value, step.handle, j);
        } else if step.CancelOther? && step.call == j {
          TakenOutIsGone(w, c.id.value, step.handle, j);
        } else if !(step.Register? && step.call == j) {
          StepListed(w, step, c.id.value);
        }
      }
    }
  }

  lemma MoveKeeps(w: World, step: Step)
    requires WorldInv(w) && Enabled(w, step)
    ensures WorldInv(Moved(w, step))
  {
    hide Conserved, IdsDiffer, HubInv, Punctual, Attended, Flagged, Moved;
    StepHub(w, step);
    StepConserves(w, step);
    StepIds(w, step);
    StepPunctual(w, step);
    StepFlagged(w, step);
    forall j | 0 <= j < |Moved(w, step).calls| ensures Attended(Moved(w, step).hub, Moved(w, step).calls[j]) { StepAttended(w, step, j); }
  }

  lemma StepKeeps(w: World, step: Step)
    requires WorldInv(w) && Enabled(w, step)
    ensures WorldInv(Next(w, step))
  {
    hide WorldInv, Moved, Enabled, Fatal;
    MoveKeeps(w, step);
    TrapKeeps(w);
  }

  lemma TrapKeeps(w: World)
    requires WorldInv(w)
    ensures WorldInv(w.(trapped := true))
  {
    hide Conserved, HubInv, Attended, Flagged;
    SameConserved(w, w.(trapped := true));
  }

  // ----- Every interleaving

  ghost predicate Possible(w: World, steps: seq<Step>)
    decreases |steps|
  {
    steps == [] || (Enabled(w, steps[0]) && Possible(Next(w, steps[0]), steps[1..]))
  }

  ghost function After(w: World, steps: seq<Step>): (r: World)
    requires Possible(w, steps)
    decreases |steps|
  {
    if steps == [] then w else After(Next(w, steps[0]), steps[1..])
  }

  lemma {:induction false} RunKeeps(w: World, steps: seq<Step>)
    requires WorldInv(w) && Possible(w, steps)
    ensures WorldInv(After(w, steps))
    decreases |steps|
  {
    hide WorldInv, Enabled, Next;
    if steps != [] {
      StepKeeps(w, steps[0]);
      RunKeeps(Next(w, steps[0]), steps[1..]);
    }
  }

  function Start(now: int): (w: World) {
    World(Hub([], [], 0, None, 1), now, [], None, [], [], {}, 0, false)
  }

  lemma StartInv(now: int)
    ensures WorldInv(Start(now))
  {
    assert Everyone(Start(now)) == multiset{};
  }

  /** Over every interleaving: each sleeper is resumed at most once, and not
      before its deadline unless it was cancelled; the waiters stay sorted, and
      while any wait the armed deadline is the earliest. */
  lemma ResumedOnce(now: int, steps: seq<Step>, x: Waiter)
    requires Possible(Start(now), steps)
    ensures var w := After(Start(now), steps);
            && multiset(w.resumed)[x] <= 1
            && (x in w.resumed ==> x.deadline <= w.now || CancelledOwner(w.calls, x))
            && Sorted(w.hub.waiters) && (w.hub.waiters != [] ==> w.hub.armed == Some(w.hub.waiters[0].deadline))
  {
    hide Possible, After, CancelledOwner, Attended, IdsDiffer, Registered;
    StartInv(now);
    RunKeeps(Start(now), steps);
    var w := After(Start(now), steps);
    assert Everyone(w)[x] <= 1;
  }

  /** A cancelled sleeper whose call and handler have done their part is gone from
      both lists, whenever the cancellation came: it was resumed or is about to
      be. */
  lemma CancelledIsRemoved(now: int, steps: seq<Step>, i: nat)
    requires Possible(Start(now), steps) && i < |After(Start(now), steps).calls|
    requires var c := After(Start(now), steps).calls[i]; c.cancelled && c.pc.Suspended? && c.handler.Finished?
    ensures var w := After(Start(now), steps);
            var c := w.calls[i];
            c.id.Some? && !Listed(w.hub, c.id.value) && (Waiter(c.id.value, c.deadline) in w.leaving || Waiter(c.id.value, c.deadline) in w.resumed)
  {
    hide Possible, After, CancelledOwner, Punctual, HubInv;
    StartInv(now);
    RunKeeps(Start(now), steps);
    var w := After(Start(now), steps);
    var c := w.calls[i];
    assert Attended(w.hub, c);
    var x := Waiter(c.id.value, c.deadline);
    assert Owns(c, x);
    assert Registered(w.calls, x);
    ListedMember(w.hub, x.id);
    assert Everyone(w)[x] == 1;
  }

  // ----- The trap

  /** Starting a timer traps exactly when the earliest deadline is more than
      2^31 - 1 milliseconds away; no other part of the hub traps. */
  lemma ArmingTraps(h: Hub, now: int, handle: int)
    ensures Rescheduled(h, now, handle).None? <==> MustArm(h) && h.waiters[0].deadline - now > INT32_MAX * MS
  {
    if MustArm(h) { TrapsBeyondRange(now, h.waiters[0].deadline); }
  }

  /** The first sleeper, which a caller can check before it sleeps. */
  lemma LoneSleepTraps(now: int, deadline: int, handle: int)
    requires now < deadline && HostId({}, handle)
    ensures var steps := [Sleep(deadline), Register(0, handle)];
            Possible(Start(now), steps) && (After(Start(now), steps).trapped <==> deadline - now > INT32_MAX * MS)
  {
    var a := Start(now);
    var b := Next(a, Sleep(deadline));
    var c := Next(b, Register(0, handle));
    var steps := [Sleep(deadline), Register(0, handle)];
    assert steps[1..] == [Register(0, handle)] && steps[1..][1..] == [];
    assert Possible(c, []);
    assert Possible(b, steps[1..]);
    assert After(a, steps) == After(b, steps[1..]) == After(c, steps[1..][1..]) == c;
    LoneJoins(deadline);
    ArmingTraps(Joined(b.hub, deadline), now, handle);
  }

  lemma LoneJoins(deadline: int)
    ensures Joined(Hub([], [], 0, None, 1), deadline).waiters == [Waiter(1, deadline)]
  {
  }

  /** Twenty-five days are too long. */
  lemma LongSleepTraps()
    ensures var steps := [Sleep(25 * 24 * 3600 * SECOND), Register(0, 1)];
            Possible(Start(0), steps) && After(Start(0), steps).trapped
  {
    LoneSleepTraps(0, 25 * 24 * 3600 * SECOND, 1);
  }

  /** Every sleep of the run was asked for at most 2^31 - 1 milliseconds ahead. */
  ghost predicate InRange(w: World, steps: seq<Step>)
    requires Possible(w, steps)
    decreases |steps|
  {
    steps == [] || ((steps[0].Sleep? ==> steps[0].deadline - w.now <= INT32_MAX * MS) && InRange(Next(w, steps[0]), steps[1..]))
  }

  /** Nobody asks for or awaits a deadline out of range. */
  ghost predicate Near(w: World) {
    && (forall i :: 0 <= i < |w.calls| ==> w.calls[i].deadline - w.now <= INT32_MAX * MS)
    && (forall x :: x in w.hub.waiters ==> x.deadline - w.now <= INT32_MAX * MS)
  }

  lemma NearArms(h: Hub, now: int, handle: int)
    requires forall x :: x in h.waiters ==> x.deadline - now <= INT32_MAX * MS
    ensures Rescheduled(h, now, handle).Some?
  {
    ArmingTraps(h, now, handle);
    assert MustArm(h) ==> h.waiters[0] in h.waiters;
  }

  lemma NearStep(w: World, step: Step)
    requires Near(w) && Enabled(w, step) && (step.Sleep? ==> step.deadline - w.now <= INT32_MAX * MS)
    ensures !Next(w, step).trapped && Near(Next(w, step))
  {
    hide Rearmed, Rescheduled, Due, NotDue, IndexOf, Later;
    match step
    case Register(i, handle) => NearArms(Joined(w.hub, w.calls[i].deadline), w.now, handle);
    case CancelSelf(i, handle) => NearParting(w, w.calls[i].id.value, handle);
    case CancelOther(i, handle) => NearParting(w, w.calls[i].id.value, handle);
    case Fire(at, handle) =>
      NotDueKept(w.hub.waiters, at);
      NearArms(Rung(w.hub, at), w.now, handle);
    case _ =>
  }

  lemma NearParting(w: World, id: nat, handle: int)
    requires Near(w)
    ensures !PartingTraps(w, id, handle) && forall x :: x in Removed(w.hub, id, handle).0.waiters ==> x in w.hub.waiters
  {
    hide Rearmed, Rescheduled;
    var i := IndexOf(w.hub.waiters, id, 0);
    if i < |w.hub.waiters| { NearArms(Parted(w.hub, i), w.now, handle); }
  }

  lemma NotDueKept(ws: seq<Waiter>, now: int)
    ensures forall x :: x in NotDue(ws, now) ==> x in ws
  {
    Partitioned(ws, now);
    assert forall x :: x in NotDue(ws, now) ==> x in multiset(ws);
  }

  lemma {:induction false} NearRun(w: World, steps: seq<Step>)
    requires Near(w) && !w.trapped && Possible(w, steps) && InRange(w, steps)
    ensures !After(w, steps).trapped
    decreases |steps|
  {
    hide Near, Enabled, Next;
    if steps != [] {
      NearStep(w, steps[0]);
      NearRun(Next(w, steps[0]), steps[1..]);
    }
  }

  /** Callers that stay in range never make the program trap, whatever else
      happens. */
  lemma InRangeNeverTraps(now: int, steps: seq<Step>)
    requires Possible(Start(now), steps) && InRange(Start(now), steps)
    ensures !After(Start(now), steps).trapped
  {
    NearRun(Start(now), steps);
  }

  // ----- The stall

  /** Somebody waits, no host timer runs, and no callback is on its way. */
  predicate Stuck(w: World) {
    w.hub.waiters != [] && w.running == {} && w.posted == 0
  }

  /** While somebody waits, a timer was asked for, for the earliest deadline. */
  predicate Asked(h: Hub) {
    h.waiters != [] ==> h.timer != 0 && h.armed == Some(h.waiters[0].deadline)
  }

  /** A step that leaves the earliest deadline alone leaves the hub stuck: nobody
      becomes ready. */
  lemma StuckStays(w: World, step: Step)
    requires Stuck(w) && Asked(w.hub) && Enabled(w, step)
    requires var r := Next(w, step).hub.waiters; r != [] && r[0].deadline == w.hub.waiters[0].deadline
    ensures Stuck(Next(w, step)) && Asked(Next(w, step).hub) && forall x :: x in Next(w, step).hub.ready ==> x in w.hub.ready
  {
    hide IndexOf, Later, Due, NotDue;
  }

  /** The earliest deadline never changes along the run. */
  ghost predicate SameEarliest(w: World, steps: seq<Step>, deadline: int)
    requires Possible(w, steps)
    decreases |steps|
  {
    && w.hub.waiters != [] && w.hub.waiters[0].deadline == deadline
    && (steps == [] || SameEarliest(Next(w, steps[0]), steps[1..], deadline))
  }

  lemma {:induction false} StuckRun(w: World, steps: seq<Step>, deadline: int)
    requires Stuck(w) && Asked(w.hub) && Possible(w, steps) && SameEarliest(w, steps, deadline)
    ensures Stuck(After(w, steps)) && forall x :: x in After(w, steps).hub.ready ==> x in w.hub.ready
    decreases |steps|
  {
    hide Enabled, Next, Stuck, Asked;
    if steps != [] {
      var v := Next(w, steps[0]);
      assert SameEarliest(v, steps[1..], deadline);
      StuckStays(w, steps[0]);
      StuckRun(v, steps[1..], deadline);
    }
  }

  /** Time, the host and the executor alone: no task calls the hub. */
  predicate Unattended(steps: seq<Step>) {
    forall s :: s in steps ==> s.Elapse? || s.Lose? || s.Fire? || s.Drain? || s.Resume? || s.Pass?
  }

  /** Some sleeper leaves the waiting list without anybody calling. */
  ghost predicate Wakes(w: World, steps: seq<Step>) {
    Unattended(steps) && Possible(w, steps) && After(w, steps).hub.waiters != w.hub.waiters
  }

  lemma {:induction false} StuckAlone(w: World, steps: seq<Step>)
    requires Stuck(w) && Unattended(steps) && Possible(w, steps)
    ensures After(w, steps).hub.waiters == w.hub.waiters
    decreases |steps|
  {
    if steps != [] {
      assert steps[0] in steps;
      assert !steps[0].Elapse? && !steps[0].Lose? && !steps[0].Fire?;
      StuckAlone(Next(w, steps[0]), steps[1..]);
    }
  }

  /** Late enough, one callback makes every waiter ready, and no timer is needed
      any more. */
  lemma RingsForAll(w: World, handle: int)
    requires Sorted(w.hub.waiters) && w.hub.waiters != [] && w.hub.waiters[|w.hub.waiters| - 1].deadline <= w.now
    requires Enabled(w, Fire(w.now, handle))
    ensures Next(w, Fire(w.now, handle)).hub.waiters == []
  {
    AllDue(w.hub.waiters, w.now);
  }

  lemma {:induction false} AllDue(ws: seq<Waiter>, now: int)
    requires forall x :: x in ws ==> x.deadline <= now
    ensures NotDue(ws, now) == []
  {
    if ws != [] {
      var m := |ws| - 1;
      assert ws[m] in ws;
      AllDue(ws[..m], now);
    }
  }

  /** One step, then the others. */
  lemma Chained(w: World, step: Step, rest: seq<Step>)
    requires Enabled(w, step) && Possible(Next(w, step), rest)
    ensures Possible(w, [step] + rest) && After(w, [step] + rest) == After(Next(w, step), rest)
  {
    hide Enabled, Next;
    assert ([step] + rest)[1..] == rest;
  }

  /** A callback that is on its way, delivered late, wakes everybody. */
  lemma DeliveryWakes(w: World, late: int)
    requires HubInv(w.hub) && !w.trapped && w.lock.None? && w.hub.waiters != [] && w.posted > 0
    requires w.now <= late && w.hub.waiters[|w.hub.waiters| - 1].deadline <= late
    ensures var steps := [Pass(late)] + ([Fire(late, -1)] + []);
            Possible(w, steps) && After(w, steps).hub.waiters == []
  {
    hide NotDue, Due;
    var a := Next(w, Pass(late));
    RingsForAll(a, -1);
    Chained(a, Fire(late, -1), []);
    Chained(w, Pass(late), [Fire(late, -1)] + []);
  }

  lemma SomeTimer(running: set<int>) returns (timer: int)
    requires running != {}
    ensures timer in running
  {
    assert (forall t: int :: t !in running) ==> running == {};
    timer :| timer in running;
  }

  lemma Awakening(w: World) returns (steps: seq<Step>)
    requires HubInv(w.hub) && !w.trapped && w.lock.None? && w.hub.waiters != [] && (w.running != {} || w.posted > 0)
    ensures Wakes(w, steps)
  {
    hide NotDue, Due, Possible, After, HubInv;
    var last := w.hub.waiters[|w.hub.waiters| - 1].deadline;
    var late := if last > w.now then last else w.now;
    var rest := [Pass(late)] + ([Fire(late, -1)] + []);
    if w.posted > 0 {
      DeliveryWakes(w, late);
      steps := rest;
    } else {
      var timer := SomeTimer(w.running);
      DeliveryWakes(Next(w, Elapse(timer)), late);
      Chained(w, Elapse(timer), rest);
      steps := [Elapse(timer)] + rest;
    }
  }

  /** Left alone, sleepers can wake if and only if a host timer still runs, known
      to the hub or not, or a callback is already on its way. */
  lemma StallIsExact(w: World)
    requires HubInv(w.hub) && !w.trapped && w.lock.None? && w.hub.waiters != []
    ensures (exists steps :: Wakes(w, steps)) <==> w.running != {} || w.posted > 0
  {
    hide Possible, After;
    if w.running != {} || w.posted > 0 {
      var steps := Awakening(w);
    } else {
      assert Stuck(w);
      forall steps | Unattended(steps) && Possible(w, steps) ensures !Wakes(w, steps) { StuckAlone(w, steps); }
    }
  }

  /** So it is in every reachable world with waiters and a free lock; and as long
      as the earliest deadline stays, a stuck one stays stuck. */
  lemma StallsInRuns(now: int, steps: seq<Step>)
    requires Possible(Start(now), steps)
    requires var w := After(Start(now), steps); !w.trapped && w.lock.None? && w.hub.waiters != []
    ensures var w := After(Start(now), steps);
            Asked(w.hub) && ((exists more :: Wakes(w, more)) <==> !Stuck(w))
  {
    hide Possible, After, Wakes, Conserved, IdsDiffer, Punctual, Attended, Flagged;
    StartInv(now);
    RunKeeps(Start(now), steps);
    TimerAsked(Start(now), steps);
    StallIsExact(After(Start(now), steps));
  }

  lemma AskedStep(w: World, step: Step)
    requires Enabled(w, step) && (w.hub.waiters != [] ==> w.hub.timer != 0)
    ensures var r := Next(w, step); r.hub.waiters != [] ==> r.hub.timer != 0
  {
    hide Inserted, Due, NotDue, IndexOf, Delay, Hosted, Rescheduled, Stopped;
  }

  lemma {:induction false} TimerAsked(w: World, steps: seq<Step>)
    requires Possible(w, steps) && (w.hub.waiters != [] ==> w.hub.timer != 0)
    ensures var r := After(w, steps); r.hub.waiters != [] ==> r.hub.timer != 0
    decreases |steps|
  {
    hide Enabled, Next;
    if steps != [] {
      AskedStep(w, steps[0]);
      TimerAsked(Next(w, steps[0]), steps[1..]);
    }
  }

  // ----- When nobody is ever stuck

  /** The step asks the host for a timer and is refused. */
  predicate Refuses(w: World, step: Step)
    requires Enabled(w, step)
  {
    match step
    case Register(i, handle) => handle == -1 && MustArm(Joined(w.hub, w.calls[i].deadline))
    case CancelSelf(i, handle) => handle == -1 && PartingArms(w.hub, w.calls[i].id.value)
    case CancelOther(i, handle) => handle == -1 && PartingArms(w.hub, w.calls[i].id.value)
    case Fire(at, handle) => handle == -1 && MustArm(Rung(w.hub, at))
    case _ => false
  }

  predicate PartingArms(h: Hub, id: nat) {
    var i := IndexOf(h.waiters, id, 0);
    i < |h.waiters| && MustArm(Parted(h, i))
  }

  /** The host never refuses a timer and no callback is lost. */
  ghost predicate Smooth(w: World, steps: seq<Step>)
    requires Possible(w, steps)
    decreases |steps|
  {
    steps == [] || (!Refuses(w, steps[0]) && !steps[0].Lose? && Smooth(Next(w, steps[0]), steps[1..]))
  }

  /** The timer the hub knows is running, or a callback is on its way. */
  predicate Covered(w: World) {
    w.hub.waiters != [] ==> w.hub.timer in w.running || w.posted > 0
  }

  /** Re-arming that is not refused leaves the hub's timer running. */
  lemma HostedCovers(running: set<int>, h: Hub, handle: int)
    requires handle != -1 ==> handle > 0
    requires h.waiters != [] && (MustArm(h) ==> handle != -1) && (!MustArm(h) ==> h.timer in running)
    ensures Rearmed(h, handle).timer in Hosted(running, h, handle)
  {
  }

  lemma CoveredJoining(h: Hub, running: set<int>, deadline: int, handle: int)
    requires HubInv(h) && HostId(Stopped(running, h.timer), handle)
    requires h.waiters != [] ==> h.timer in running
    requires MustArm(Joined(h, deadline)) ==> handle != -1
    ensures Parked(h, deadline, handle).timer in Hosted(running, Joined(h, deadline), handle)
  {
    hide Later, Sorted, Inserted, Hosted, Rearmed;
    HostedCovers(running, Joined(h, deadline), handle);
  }

  lemma CoveredRinging(h: Hub, running: set<int>, at: int, handle: int)
    requires HostId(running, handle) && (MustArm(Rung(h, at)) ==> handle != -1) && Rung(h, at).waiters != []
    ensures Fired(h, at, handle).timer in Hosted(running, Rung(h, at), handle)
  {
    hide Due, NotDue, Hosted, Rearmed;
    HostedCovers(running, Rung(h, at), handle);
  }

  lemma CoveredStep(w: World, step: Step)
    requires HubInv(w.hub) && Covered(w) && Enabled(w, step) && !Refuses(w, step) && !step.Lose?
    ensures Covered(Next(w, step))
  {
    hide IndexOf, Delay, HubInv, Hosted, Rescheduled, Removed, Joined, Rung, Parted, MustArm, TakeOut, Stopped, HostId, PartingTraps, PartingArms;
    match step
    case Register(i, handle) =>
      if w.posted == 0 { CoveredJoining(w.hub, w.running, w.calls[i].deadline, handle); }
    case CancelSelf(i, handle) => CoveredParting(w, w.calls[i].id.value, handle);
    case CancelOther(i, handle) => CoveredParting(w, w.calls[i].id.value, handle);
    case Fire(at, handle) =>
      if Rung(w.hub, at).waiters != [] { CoveredRinging(w.hub, w.running, at, handle); }
    case _ =>
  }

  lemma CoveredParting(w: World, id: nat, handle: int)
    requires Covered(w) && HostId(Stopped(w.running, w.hub.timer), handle) && (PartingArms(w.hub, id) ==> handle != -1)
    ensures Covered(TakeOut(w, id, handle))
  {
    hide IndexOf;
    var i := IndexOf(w.hub.waiters, id, 0);
    if i < |w.hub.waiters| && w.posted == 0 && Parted(w.hub, i).waiters != [] { HostedCovers(w.running, Parted(w.hub, i), handle); }
  }

  lemma {:induction false} CoveredRun(w: World, steps: seq<Step>)
    requires HubInv(w.hub) && Covered(w) && Possible(w, steps) && Smooth(w, steps)
    ensures Covered(After(w, steps))
    decreases |steps|
  {
    hide Enabled, Next, HubInv, Covered;
    if steps != [] {
      CoveredStep(w, steps[0]);
      NextHub(w, steps[0]);
      CoveredRun(Next(w, steps[0]), steps[1..]);
    }
  }

  lemma NextHub(w: World, step: Step)
    requires HubInv(w.hub) && Enabled(w, step)
    ensures HubInv(Next(w, step).hub)
  {
    hide Moved, HubInv, Enabled, Fatal;
    StepHub(w, step);
  }

  /** If the host never refuses a timer and no callback is lost, nobody is ever
      stuck: whoever waits can wake without anybody calling. */
  lemma SmoothRunsWake(now: int, steps: seq<Step>)
    requires Possible(Start(now), steps) && Smooth(Start(now), steps)
    requires var w := After(Start(now), steps); !w.trapped && w.lock.None? && w.hub.waiters != []
    ensures var w := After(Start(now), steps); !Stuck(w) && exists more :: Wakes(w, more)
  {
    hide Possible, After, Smooth, Wakes;
    CoveredRun(Start(now), steps);
    StallsInRuns(now, steps);
  }

  // ----- Three runs

  /** One sleeper, parked with the host's answer `handle`. */
  function Lone(now: int, deadline: int, handle: int): (w: World) {
    World(Hub([Waiter(1, deadline)], [], handle, Some(deadline), 2), now, [Call(deadline, Some(1), false, Suspended, NotRun)], None,
          [], [], if handle > 0 then {handle} else {}, 0, false)
  }

  function LoneSteps(deadline: int, handle: int): (steps: seq<Step>) {
    [Sleep(deadline)] + ([Register(0, handle)] + ([Check(0)] + []))
  }

  lemma ParksLone(now: int, deadline: int, handle: int)
    requires now < deadline && deadline - now <= INT32_MAX * MS && HostId({}, handle)
    ensures Possible(Start(now), LoneSteps(deadline, handle)) && After(Start(now), LoneSteps(deadline, handle)) == Lone(now, deadline, handle)
  {
    var a := Start(now);
    var b := Next(a, Sleep(deadline));
    LoneJoins(deadline);
    ArmingTraps(Joined(b.hub, deadline), now, handle);
    var c := Next(b, Register(0, handle));
    assert Next(c, Check(0)) == Lone(now, deadline, handle);
    Chained(c, Check(0), []);
    Chained(b, Register(0, handle), [Check(0)] + []);
    Chained(a, Sleep(deadline), [Register(0, handle)] + ([Check(0)] + []));
  }

  /** A refused timer: the sleeper is stuck. */
  lemma RefusedSleepStalls(now: int, deadline: int)
    requires now < deadline && deadline - now <= INT32_MAX * MS
    ensures var steps := LoneSteps(deadline, -1);
            Possible(Start(now), steps) && Stuck(After(Start(now), steps))
  {
    ParksLone(now, deadline, -1);
  }

  lemma {:induction false} Joins(w: World, a: seq<Step>, b: seq<Step>)
    requires Possible(w, a) && Possible(After(w, a), b)
    ensures Possible(w, a + b) && After(w, a + b) == After(After(w, a), b)
    decreases |a|
  {
    hide Enabled, Next;
    if a == [] {
      assert a + b == b;
    } else {
      Joins(Next(w, a[0]), a[1..], b);
      assert (a + b)[1..] == a[1..] + b;
    }
  }

  /** An accepted timer whose callback is lost to a full queue: the hub still
      knows a timer, and the sleeper is stuck all the same. */
  lemma LostCallbackStalls(now: int, deadline: int)
    requires now < deadline && deadline - now <= INT32_MAX * MS
    ensures var steps := LoneSteps(deadline, 1) + ([Lose(1)] + []);
            Possible(Start(now), steps) && Stuck(After(Start(now), steps)) && After(Start(now), steps).hub.timer > 0
  {
    ParksLone(now, deadline, 1);
    var w := Lone(now, deadline, 1);
    Chained(w, Lose(1), []);
    Joins(Start(now), LoneSteps(deadline, 1), [Lose(1)] + []);
  }

  /** Two sleepers, the timer standing for the first. */
  function Pair(now: int, d1: int, d2: int): (w: World) {
    World(Hub([Waiter(1, d1), Waiter(2, d2)], [], 5, Some(d1), 3), now,
          [Call(d1, Some(1), false, Suspended, NotRun), Call(d2, Some(2), false, Suspended, NotRun)], None, [], [], {5}, 0, false)
  }

  function PairSteps(d2: int): (steps: seq<Step>) {
    [Sleep(d2)] + ([Register(1, 7)] + ([Check(1)] + []))
  }

  lemma ParksPair(now: int, d1: int, d2: int)
    requires now < d1 < d2
    ensures Possible(Lone(now, d1, 5), PairSteps(d2)) && After(Lone(now, d1, 5), PairSteps(d2)) == Pair(now, d1, d2)
  {
    var a := Lone(now, d1, 5);
    var b := Next(a, Sleep(d2));
    assert Joined(b.hub, d2).waiters == [Waiter(1, d1), Waiter(2, d2)] by { SecondJoins(d1, d2); }
    var c := Next(b, Register(1, 7));
    assert c.hub == Pair(now, d1, d2).hub && c.running == {5};
    assert Next(c, Check(1)) == Pair(now, d1, d2);
    Chained(c, Check(1), []);
    Chained(b, Register(1, 7), [Check(1)] + []);
    Chained(a, Sleep(d2), [Register(1, 7)] + ([Check(1)] + []));
  }

  lemma SecondJoins(d1: int, d2: int)
    requires d1 < d2
    ensures Inserted([Waiter(1, d1)], Waiter(2, d2)) == [Waiter(1, d1), Waiter(2, d2)]
  {
  }

  /** The first timer has elapsed, and its sleeper is being cancelled before the
      callback arrives. */
  function Late(d1: int, d2: int): (w: World) {
    World(Hub([Waiter(1, d1), Waiter(2, d2)], [], 5, Some(d1), 3), d1,
          [Call(d1, Some(1), true, Suspended, MustRemove), Call(d2, Some(2), false, Suspended, NotRun)], None, [], [], {}, 1, false)
  }

  function LateSteps(d1: int): (steps: seq<Step>) {
    [Pass(d1)] + ([Elapse(5)] + ([MarkCancelled(0)] + []))
  }

  lemma RunsLate(now: int, d1: int, d2: int)
    requires now < d1 < d2
    ensures Possible(Pair(now, d1, d2), LateSteps(d1)) && After(Pair(now, d1, d2), LateSteps(d1)) == Late(d1, d2)
  {
    var a := Pair(now, d1, d2);
    var b := Next(a, Pass(d1));
    var c := Next(b, Elapse(5));
    assert Next(c, MarkCancelled(0)) == Late(d1, d2);
    Chained(c, MarkCancelled(0), []);
    Chained(b, Elapse(5), [MarkCancelled(0)] + []);
    Chained(a, Pass(d1), [Elapse(5)] + ([MarkCancelled(0)] + []));
  }

  /** The cancelled sleeper is gone and timer 6 stands for the other one. */
  function Left(d1: int, d2: int): (w: World) {
    Late(d1, d2).(hub := Hub([Waiter(2, d2)], [], 6, Some(d2), 3), running := {6}, leaving := [Waiter(1, d1)],
                  calls := [Call(d1, Some(1), true, Suspended, Finished),
                            Call(d2, Some(2), false, Suspended, NotRun)])
  }

  lemma LeavesOne(d1: int, d2: int)
    requires d1 < d2 && d2 - d1 <= INT32_MAX * MS
    ensures Enabled(Late(d1, d2), CancelOther(0, 6)) && Next(Late(d1, d2), CancelOther(0, 6)) == Left(d1, d2)
  {
    var a := Late(d1, d2);
    var h := Parted(a.hub, 0);
    assert h.waiters == [Waiter(2, d2)];
    ArmingTraps(h, d1, 6);
  }

  /** The stale callback makes the hub forget a timer that runs on. */
  lemma ForgetsTimer(d1: int, d2: int)
    requires d1 < d2 && d2 - d1 <= INT32_MAX * MS
    ensures var w := Left(d1, d2);
            Enabled(w, Fire(d1, -1))
            && Next(w, Fire(d1, -1)) == w.(hub := Hub([Waiter(2, d2)], [], -1, Some(d2), 3), posted := 0)
  {
    var w := Left(d1, d2);
    NoneDueYet(d1, d2);
    ArmingTraps(Rung(w.hub, d1), d1, -1);
  }

  lemma ForgottenRun(d1: int, d2: int)
    requires d1 < d2 && d2 - d1 <= INT32_MAX * MS
    ensures var steps := [CancelOther(0, 6)] + ([Fire(d1, -1)] + []);
            Possible(Late(d1, d2), steps)
            && After(Late(d1, d2), steps) == Left(d1, d2).(hub := Hub([Waiter(2, d2)], [], -1, Some(d2), 3), posted := 0)
  {
    hide Enabled, Next;
    LeavesOne(d1, d2);
    ForgetsTimer(d1, d2);
    Chained(Left(d1, d2), Fire(d1, -1), []);
    Chained(Late(d1, d2), CancelOther(0, 6), [Fire(d1, -1)] + []);
  }

  lemma NoneDueYet(d1: int, d2: int)
    requires d1 < d2
    ensures NotDue([Waiter(2, d2)], d1) == [Waiter(2, d2)] && Due([Waiter(2, d2)], d1) == []
  {
    var ws := [Waiter(2, d2)];
    assert ws[..0] == [];
  }

  /** A refused timer that stalls nobody: a stale callback had made the hub forget
      timer 6, which runs on and wakes the sleeper. */
  lemma ForgottenTimerWakes(now: int, d1: int, d2: int)
    requires now < d1 < d2 && d2 - now <= INT32_MAX * MS
    ensures var steps := LoneSteps(d1, 5) + PairSteps(d2) + LateSteps(d1) + ([CancelOther(0, 6)] + ([Fire(d1, -1)] + []));
            Possible(Start(now), steps)
            && var w := After(Start(now), steps);
               w.hub.waiters != [] && w.hub.timer < 0 && w.posted == 0 && exists more :: Wakes(w, more)
  {
    hide Possible, After, Wakes;
    var s := Start(now);
    ParksLone(now, d1, 5);
    ParksPair(now, d1, d2);
    Joins(s, LoneSteps(d1, 5), PairSteps(d2));
    RunsLate(now, d1, d2);
    Joins(s, LoneSteps(d1, 5) + PairSteps(d2), LateSteps(d1));
    var rest := [CancelOther(0, 6)] + ([Fire(d1, -1)] + []);
    ForgottenRun(d1, d2);
    Joins(s, LoneSteps(d1, 5) + PairSteps(d2) + LateSteps(d1), rest);
    StallsInRuns(now, LoneSteps(d1, 5) + PairSteps(d2) + LateSteps(d1) + rest);
  }

  // ----- The object

  /** The hub's locked state, updated in place, with the host timers its calls
      start and cancel. The identifier the host would give a new timer is an
      argument of the calls that may arm one. */
  class LockedHub {
    var waiters: seq<Waiter>
    var ready: seq<Waiter>
    var timer: int
    var armed: Option<int>
    var nextId: nat
    ghost var running: set<int>

    function View(): (h: Hub)
      reads this
    {
      Hub(waiters, ready, timer, armed, nextId)
    }

    constructor ()
      ensures View() == Hub([], [], 0, None, 1) && running == {}
    {
      waiters, ready, timer, armed, nextId, running := [], [], 0, None, 1, {};
    }

    method CancelActive()
      modifies this`timer, this`armed, this`running
      ensures View() == old(View()).(timer := 0, armed := None)
      ensures running == Stopped(old(running), old(timer))
    {
      if timer != 0 {
        running := running - {timer};
        timer := 0;
      }
      armed := None;
    }

    /** False when the narrowing of the delay traps. */
    method Reschedule(now: int, handle: int) returns (ok: bool)
      modifies this`timer, this`armed, this`running
      ensures ok <==> Rescheduled(old(View()), now, handle).Some?
      ensures ok ==> Some(View()) == Rescheduled(old(View()), now, handle) && running == Hosted(old(running), old(View()), handle)
    {
      if waiters == [] {
        CancelActive();
        return true;
      }
      var next := waiters[0].deadline;
      if timer != 0 && armed == Some(next) { return true; }
      CancelActive();
      var ms := MillisecondsRoundedUp(next - now);
      if ms < 1 { ms := 1; }
      if ms > INT32_MAX { return false; }
      timer := handle;
      running := running + if handle > 0 then {handle} else {};
      armed := Some(next);
      ok := true;
    }

    method Insert(w: Waiter)
      modifies this`waiters
      ensures View() == old(View()).(waiters := Inserted(old(waiters), w))
    {
      var i := 0;
      while i < |waiters| && !(w.deadline < waiters[i].deadline)
        invariant i <= |waiters| && Later(waiters, w.deadline, i) == Later(waiters, w.deadline, 0)
      {
        i := i + 1;
      }
      waiters := waiters[..i] + [w] + waiters[i..];
    }

    method Park(deadline: int, now: int, handle: int) returns (ok: bool, id: nat)
      modifies this
      ensures ok <==> Rescheduled(Joined(old(View()), deadline), now, handle).Some?
      ensures id == old(nextId) && (ok ==> View() == Parked(old(View()), deadline, handle))
      ensures ok ==> running == Hosted(old(running), Joined(old(View()), deadline), handle)
    {
      id := nextId;
      nextId := nextId + 1;
      Insert(Waiter(id, deadline));
      ok := Reschedule(now, handle);
    }

    method Cancel(id: nat, now: int, handle: int) returns (ok: bool, gone: Option<Waiter>)
      modifies this
      ensures !ok <==> var i := IndexOf(old(waiters), id, 0);
                       i < |old(waiters)| && Rescheduled(Parted(old(View()), i), now, handle).None?
      ensures ok ==> (View(), gone) == Removed(old(View()), id, handle)
      ensures ok ==> var i := IndexOf(old(waiters), id, 0);
                     running == if i < |old(waiters)| then Hosted(old(running), Parted(old(View()), i), handle) else old(running)
    {
      ok := true;
      var i := 0;
      while i < |waiters| && waiters[i].id != id
        invariant i <= |waiters| && IndexOf(waiters, id, i) == IndexOf(waiters, id, 0)
      {
        i := i + 1;
      }
      if i < |waiters| {
        gone := Some(waiters[i]);
        waiters := waiters[..i] + waiters[i + 1..];
        ok := Reschedule(now, handle);
        return;
      }
      var j := 0;
      while j < |ready| && ready[j].id != id
        invariant j <= |ready| && IndexOf(ready, id, j) == IndexOf(ready, id, 0)
      {
        j := j + 1;
      }
      if j == |ready| { return true, None; }
      gone := Some(ready[j]);
      ready := ready[..j] + ready[j + 1..];
    }

    /** The clock is read before the lock is taken, and again to re-arm. The hub
        forgets its timer without cancelling it. */
    method TimerFired(at: int, now: int, handle: int) returns (ok: bool)
      modifies this
      ensures ok <==> Rescheduled(Rung(old(View()), at), now, handle).Some?
      ensures ok ==> View() == Fired(old(View()), at, handle) && running == Hosted(old(running), Rung(old(View()), at), handle)
    {
      timer, armed := 0, None;
      var due, remaining := Divide(waiters, at);
      ready := ready + due;
      waiters := remaining;
      ok := Reschedule(now, handle);
    }

    method DrainReady() returns (out: seq<Waiter>)
      modifies this`ready
      ensures out == old(ready) && View() == old(View()).(ready := [])
    {
      out := ready;
      ready := [];
    }
  }
}
