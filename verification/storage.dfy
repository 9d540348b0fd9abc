/** Lazy bounded tables (storage.c): growth by doubling, in-place compaction and
    exact byte accounting, proved to be what the engine model assumes. */
module Storage {
  import opened Types
  import opened EngineState
  import opened Engine
  import opened EngineEvents

  /** Bytes in use, their peak, and the number of allocator calls so far. */
  class Ledger {
    const cfg: Config
    var inUse: nat
    var peak: nat
    var asks: nat

    constructor (cfg: Config)
      ensures this.cfg == cfg && inUse == 0 && peak == 0 && asks == 0
    {
      this.cfg := cfg;
      inUse, peak, asks := 0, 0, 0;
    }

    predicate Valid()
      reads this
    {
      inUse <= peak
    }

    /** One allocator call; a granted block counts at once. */
    method Allocate(bytes: nat) returns (ok: bool)
      requires Valid()
      modifies this
      ensures Valid() && asks == old(asks) + 1 && peak >= old(peak)
      ensures ok == cfg.grant(old(asks)) && inUse == old(inUse) + if ok then bytes else 0
      ensures peak == old(peak) || peak == inUse
    {
      ok := cfg.grant(asks);
      asks := asks + 1;
      if ok {
        inUse := inUse + bytes;
        if inUse > peak { peak := inUse; }
      }
    }

    method Release(bytes: nat)
      requires Valid() && bytes <= inUse
      modifies this
      ensures Valid() && inUse == old(inUse) - bytes && peak == old(peak) && asks == old(asks)
    {
      inUse := inUse - bytes;
    }
  }

  /** One table: its slots, the size of an item and the most it may hold. */
  class Table<T(!new)> {
    const ledger: Ledger
    const item: nat
    const max: nat
    var slots: array<Option<T>>

    constructor (ledger: Ledger, item: nat, max: nat)
      ensures this.ledger == ledger && this.item == item && this.max == max && slots.Length == 0 && fresh(slots)
    {
      this.ledger, this.item, this.max := ledger, item, max;
      slots := new Option<T>[0];
    }

    predicate Valid()
      reads this, ledger
    {
      ledger.Valid() && slots.Length <= max && Bytes() <= ledger.inUse
    }

    function Bytes(): (r: nat)
      reads this
    {
      slots.Length * item
    }

    /** A new block of `count` slots with the old contents; the old block is
        released once the new one is filled. */
    method Resize(count: nat) returns (ok: bool)
      requires Valid() && 0 < count <= max
      modifies this, slots, ledger
      ensures Valid() && ledger.asks == old(ledger.asks) + 1 && ok == ledger.cfg.grant(old(ledger.asks))
      ensures !ok ==> slots == old(slots) && slots[..] == old(slots[..])
      ensures ok ==> fresh(slots) && slots.Length == count
      ensures ok ==> forall i :: 0 <= i < count ==> slots[i] == if i < old(slots.Length) then old(slots[i]) else None
      ensures ledger.inUse + old(Bytes()) == old(ledger.inUse) + Bytes()
      ensures ledger.peak >= old(ledger.peak)
    {
      ok := ledger.Allocate(count * item);
      if ok {
        var was := slots;
        var p := new Option<T>[count](i requires 0 <= i reads was => if i < was.Length then was[i] else None);
        var before := Bytes();
        slots := p;
        ledger.Release(before);
      }
    }

    method Free()
      requires Valid()
      modifies this, slots, ledger
      ensures Valid() && slots.Length == 0 && fresh(slots) && ledger.asks == old(ledger.asks) && ledger.peak == old(ledger.peak)
      ensures ledger.inUse + old(Bytes()) == old(ledger.inUse) + Bytes()
    {
      var before := Bytes();
      slots := new Option<T>[0];
      ledger.Release(before);
    }

    /** Room for `count` items: doubled capacities, clamped to the maximum. */
    method Reserve(count: nat) returns (ok: bool)
      requires Valid()
      modifies this, slots, ledger
      ensures Valid() && (slots == old(slots) || fresh(slots))
      ensures (ok, slots.Length, ledger.asks) == Engine.Reserve(ledger.cfg, old(ledger.asks), old(slots.Length), count, max)
      ensures slots[..] == Pad(old(slots[..]), slots.Length)
      ensures ledger.inUse + old(Bytes()) == old(ledger.inUse) + Bytes() && ledger.peak >= old(ledger.peak)
    {
      if count > max { assert slots[..] == Pad(slots[..], slots.Length); return false; }
      if count <= slots.Length { assert slots[..] == Pad(slots[..], slots.Length); return true; }
      var cap := if slots.Length != 0 then slots.Length else 1;
      ghost var goal := Grown(slots.Length, count, max);
      while cap < count
        invariant 0 < cap <= max && Grown(cap, count, max) == goal
        decreases max - cap
      {
        cap := if cap > max / 2 then max else cap * 2;
      }
      ghost var before := slots[..];
      ok := Resize(cap);
      assert slots[..] == Pad(before, slots.Length);
    }

    /** Move the live slots to the front, in order, and clear the rest. */
    method Compact() returns (n: nat)
      requires Valid()
      modifies slots
      ensures slots == old(slots) && n == |Live(old(slots[..]))| <= slots.Length
      ensures slots[..] == Pad(Live(old(slots[..])), slots.Length)
    {
      hide Live;
      ghost var before := slots[..];
      n := Gather(slots);
      Clear(slots, n);
      assert slots[..] == Pad(Live(before), slots.Length);
    }

    /** Compaction, then a smaller block when at most half is live. A refused
        shrink leaves the compacted table as it is. */
    method Collect()
      requires Valid()
      modifies this, slots, ledger
      ensures Valid() && (slots == old(slots) || fresh(slots))
      ensures (slots[..], ledger.asks) == CollectTable(ledger.cfg, old(ledger.asks), old(slots[..]))
      ensures ledger.inUse + old(Bytes()) == old(ledger.inUse) + Bytes() && ledger.peak >= old(ledger.peak)
    {
      ghost var before := slots[..];
      var n := Compact();
      if n == 0 {
        Free();
        assert slots[..] == [];
      } else if n <= slots.Length / 2 {
        var ok := Resize(n);
        assert ok ==> slots[..] == Live(before);
      }
    }
  }

  method Gather<T(!new)>(a: array<Option<T>>) returns (n: nat)
    modifies a
    ensures n == |Live(old(a[..]))| <= a.Length && a[..n] == Live(old(a[..]))
  {
    hide Live;
    ghost var before := a[..];
    n := 0;
    var i := 0;
    assert before[..0] == [] && Live<T>([]) == [] by { LiveEmpty<T>(); }
    while i < a.Length
      invariant n <= i <= a.Length
      invariant a[..n] == Live(before[..i]) && forall k :: i <= k < a.Length ==> a[k] == before[k]
    {
      LiveStep(before, i);
      if a[i].Some? {
        ghost var front := a[..n];
        a[n] := a[i];
        assert a[..n + 1] == front + [before[i]];
        n := n + 1;
      }
      i := i + 1;
    }
    assert before[..i] == before;
  }

  method Clear<T(!new)>(a: array<Option<T>>, n: nat)
    requires n <= a.Length
    modifies a
    ensures a[..n] == old(a[..n]) && forall j :: n <= j < a.Length ==> a[j].None?
  {
    var k := n;
    while k < a.Length
      invariant n <= k <= a.Length && (forall j :: 0 <= j < n ==> a[j] == old(a[j])) && forall j :: n <= j < k ==> a[j].None?
    {
      a[k] := None;
      k := k + 1;
    }
  }

  lemma LiveEmpty<T>()
    ensures Live<T>([]) == []
  {
  }

  lemma LiveCons<T>(x: Option<T>, t: seq<Option<T>>)
    ensures Live([x] + t) == (if x.Some? then [x] else []) + Live(t)
  {
    assert ([x] + t)[1..] == t;
  }

  lemma {:induction false} LiveSnoc<T>(t: seq<Option<T>>, x: Option<T>)
    ensures Live(t + [x]) == Live(t) + if x.Some? then [x] else []
  {
    hide Live;
    LiveEmpty<T>();
    if t == [] {
      LiveCons(x, []);
      assert t + [x] == [x] + [] == [x];
    } else {
      LiveSnoc(t[1..], x);
      LiveCons(t[0], t[1..]);
      LiveCons(t[0], t[1..] + [x]);
      assert t == [t[0]] + t[1..] && t + [x] == [t[0]] + (t[1..] + [x]);
    }
  }

  lemma LiveStep<T>(t: seq<Option<T>>, i: nat)
    requires i < |t|
    ensures Live(t[..i + 1]) == if t[i].Some? then Live(t[..i]) + [t[i]] else Live(t[..i])
  {
    hide Live;
    assert t[..i + 1] == t[..i] + [t[i]];
    LiveSnoc(t[..i], t[i]);
    assert Live(t[..i]) + [] == Live(t[..i]);
  }

  // ----- All tables of one engine

  function Sum(sizes: seq<nat>): (r: nat) {
    if sizes == [] then 0 else Sum(sizes[..|sizes| - 1]) + sizes[|sizes| - 1]
  }

  lemma {:induction false} SumUpdate(sizes: seq<nat>, k: nat, v: nat)
    requires k < |sizes|
    ensures Sum(sizes[k := v]) + sizes[k] == Sum(sizes) + v
  {
    var m := |sizes| - 1;
    if k < m {
      assert sizes[k := v][..m] == sizes[..m][k := v];
      SumUpdate(sizes[..m], k, v);
    } else {
      assert sizes[k := v][..m] == sizes[..m];
    }
  }

  lemma {:induction false} SumPart(sizes: seq<nat>, k: nat)
    requires k < |sizes|
    ensures sizes[k] <= Sum(sizes)
  {
    var m := |sizes| - 1;
    if k < m { SumPart(sizes[..m], k); }
  }

  function Sizes<T(!new)>(tables: seq<Table<T>>): (r: seq<nat>)
    reads tables
    ensures |r| == |tables| && forall i :: 0 <= i < |tables| ==> r[i] == tables[i].Bytes()
  {
    seq(|tables|, i requires 0 <= i < |tables| reads tables => tables[i].Bytes())
  }

  predicate Disjoint<T(!new)>(tables: seq<Table<T>>, ledger: Ledger)
    reads tables
  {
    && (forall i :: 0 <= i < |tables| ==> tables[i].ledger == ledger && tables[i].slots.Length <= tables[i].max)
    && (forall i, j :: 0 <= i < j < |tables| ==> tables[i] != tables[j])
    && (forall i, j :: 0 <= i < j < |tables| ==> tables[i].slots != tables[j].slots)
  }

  /** The books balance: what is counted is exactly what the tables hold. */
  class Store<T(!new)> {
    const ledger: Ledger
    const tables: seq<Table<T>>

    ghost predicate Balanced()
      reads this, ledger, tables
    {
      Disjoint(tables, ledger) && ledger.inUse == Sum(Sizes(tables)) && ledger.Valid()
    }

    constructor (ledger: Ledger, tables: seq<Table<T>>)
      requires Disjoint(tables, ledger) && ledger.inUse == Sum(Sizes(tables)) && ledger.Valid()
      ensures this.ledger == ledger && this.tables == tables && Balanced()
    {
      this.ledger, this.tables := ledger, tables;
    }

    /** Other tables keep their slots when table k is touched. */
    twostate predicate Others(k: nat)
      requires k < |tables|
      reads this, tables, set i | 0 <= i < |tables| :: tables[i].slots
    {
      forall i :: 0 <= i < |tables| && i != k ==> tables[i].slots == old(tables[i].slots) && tables[i].slots[..] == old(tables[i].slots[..])
    }

    method Reserve(k: nat, count: nat) returns (ok: bool)
      requires Balanced() && k < |tables|
      modifies tables[k], tables[k].slots, ledger
      ensures Balanced() && ledger.peak >= old(ledger.peak) && Others(k)
      ensures (ok, tables[k].slots.Length, ledger.asks)
           == Engine.Reserve(ledger.cfg, old(ledger.asks), old(tables[k].slots.Length), count, tables[k].max)
      ensures tables[k].slots[..] == Pad(old(tables[k].slots[..]), tables[k].slots.Length)
    {
      hide Sum, Live, CollectTable, Engine.Reserve, Pad;
      ghost var sizes := Sizes(tables);
      SumPart(sizes, k);
      ok := tables[k].Reserve(count);
      SumUpdate(sizes, k, tables[k].Bytes());
      assert Sizes(tables) == sizes[k := tables[k].Bytes()];
    }

    method Collect(k: nat)
      requires Balanced() && k < |tables|
      modifies tables[k], tables[k].slots, ledger
      ensures Balanced() && ledger.peak >= old(ledger.peak) && Others(k)
      ensures (tables[k].slots[..], ledger.asks) == CollectTable(ledger.cfg, old(ledger.asks), old(tables[k].slots[..]))
    {
      hide Sum, Live, CollectTable, Engine.Reserve, Pad;
      ghost var sizes := Sizes(tables);
      SumPart(sizes, k);
      tables[k].Collect();
      SumUpdate(sizes, k, tables[k].Bytes());
      assert Sizes(tables) == sizes[k := tables[k].Bytes()];
    }

    method Free(k: nat)
      requires Balanced() && k < |tables|
      modifies tables[k], tables[k].slots, ledger
      ensures Balanced() && ledger.peak == old(ledger.peak) && ledger.asks == old(ledger.asks) && Others(k)
      ensures tables[k].slots.Length == 0
    {
      hide Sum, Live, CollectTable, Engine.Reserve, Pad;
      ghost var sizes := Sizes(tables);
      SumPart(sizes, k);
      tables[k].Free();
      SumUpdate(sizes, k, tables[k].Bytes());
      assert Sizes(tables) == sizes[k := tables[k].Bytes()];
    }
  }

  // ----- Invisible to the protocol

  /** The doubling loop ends within the maximum, at a capacity that suffices. */
  lemma ReserveSuffices(cfg: Config, asks: nat, cap: nat, count: nat, max: nat)
    requires cap <= max
    ensures var (ok, cap', asks') := Engine.Reserve(cfg, asks, cap, count, max);
            cap <= cap' <= max && (ok ==> count <= cap') && (!ok && count <= max ==> !cfg.grant(asks))
  {
  }

  /** Collection keeps exactly the live entries, in their old order, whether or
      not the shrink succeeds. */
  lemma CollectIsInvisible<T(!new)>(cfg: Config, asks: nat, t: seq<Option<T>>)
    ensures Live(CollectTable(cfg, asks, t).0) == Live(t) && |CollectTable(cfg, asks, t).0| <= |t|
  {
    var live := Live(t);
    LiveAll(t);
    LiveFixed(live);
    LivePadded(live, |t| - |live|);
    assert Pad(live, |t|) == live + seq(|t| - |live|, _ => None);
  }

  lemma {:induction false} LiveAll<T(!new)>(t: seq<Option<T>>)
    ensures forall i :: 0 <= i < |Live(t)| ==> Live(t)[i].Some?
  {
    if t != [] { LiveAll(t[1..]); }
  }

  lemma {:induction false} LiveFixed<T(!new)>(t: seq<Option<T>>)
    requires forall i :: 0 <= i < |t| ==> t[i].Some?
    ensures Live(t) == t
  {
    if t != [] {
      LiveFixed(t[1..]);
      assert t == [t[0]] + t[1..];
    }
  }

  lemma {:induction false} LivePadded<T(!new)>(t: seq<Option<T>>, n: nat)
    ensures Live(t + seq(n, _ => None)) == Live(t)
    decreases n
  {
    if n == 0 {
      assert t + seq(0, _ => None) == t;
    } else {
      LivePadded(t, n - 1);
      assert t + seq(n, _ => None) == (t + seq(n - 1, _ => None)) + [None];
      LiveSnoc(t + seq(n - 1, _ => None), None);
      assert Live(t) + [] == Live(t);
    }
  }
}
