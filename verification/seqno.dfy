/** Sequence-number arithmetic modulo 2^16 and the order on feasibility
    distances (sections 3.2.1 and 3.5.1 of RFC 8966). */
module Seqno {
  import opened Types

  predicate Newer(a: u16, b: u16) {
    0 < (a - b) % 0x1_0000 < 0x8000
  }

  predicate AtLeast(a: u16, b: u16) {
    a == b || Newer(a, b)
  }

  /** Saturating metric addition. */
  function AddCost(a: u16, b: u16): (r: u16)
    ensures b > 0 && r < INFINITY ==> a < r
    ensures r < INFINITY ==> b < INFINITY && r == a + b
  {
    if a + b >= INFINITY then INFINITY else a + b
  }

  /** A sequence number paired with a metric: what a source record stores and
      what an update carries. */
  datatype Distance = Distance(seqno: u16, metric: u16)

  /** The engine's own comparison: a strictly better than b. */
  predicate Better(a: Distance, b: Distance) {
    Newer(a.seqno, b.seqno) || (a.seqno == b.seqno && a.metric < b.metric)
  }

  /** Position of a sequence number counted up from the base of a window. */
  function Offset(base: u16, s: u16): (r: nat)
    ensures r < 0x1_0000
  {
    (s - base) % 0x1_0000
  }

  /** s lies in the half circle that starts at base. */
  predicate InWindow(base: u16, s: u16) {
    Offset(base, s) < 0x8000
  }

  /** Linearised distance: smaller is better. */
  function Rank(base: u16, d: Distance): (r: nat)
    requires InWindow(base, d.seqno)
  {
    (0x7FFF - Offset(base, d.seqno)) * 0x1_0000 + d.metric
  }

  lemma OffsetInjective(base: u16, a: u16, b: u16)
    requires Offset(base, a) == Offset(base, b)
    ensures a == b
  {
    assert (a - base) == 0x1_0000 * ((a - base) / 0x1_0000) + Offset(base, a);
    assert (b - base) == 0x1_0000 * ((b - base) / 0x1_0000) + Offset(base, b);
  }

  lemma OffsetDifference(base: u16, a: u16, b: u16)
    ensures (a - b) % 0x1_0000 == (Offset(base, a) - Offset(base, b)) % 0x1_0000
  {
    var x: int, y: int := Offset(base, a), Offset(base, b);
    var p, q := (a - base) / 0x1_0000, (b - base) / 0x1_0000;
    assert a - b == (x - y) + 0x1_0000 * (p - q);
  }

  /** Inside a half circle the cyclic comparison is the linear one, so there the
      engine's relation is a strict total order; outside it is not transitive. */
  lemma BetterIsRank(base: u16, a: Distance, b: Distance)
    requires InWindow(base, a.seqno) && InWindow(base, b.seqno)
    ensures Better(a, b) <==> Rank(base, a) < Rank(base, b)
    ensures Rank(base, a) == Rank(base, b) <==> a == b
  {
    OffsetDifference(base, a.seqno, b.seqno);
    var x: int, y: int := Offset(base, a.seqno), Offset(base, b.seqno);
    if x == y {
      OffsetInjective(base, a.seqno, b.seqno);
    } else if x > y {
      assert (x - y) % 0x1_0000 == x - y;
    } else {
      assert (x - y) % 0x1_0000 == x - y + 0x1_0000;
    }
  }

  /** Without the half-circle assumption the comparison runs in a circle. */
  lemma NewerIsCyclic()
    ensures Newer(20000, 0) && Newer(40000, 20000) && Newer(0, 40000)
  {
    assert (0 - 40000) % 0x1_0000 == 25536;
  }
}
