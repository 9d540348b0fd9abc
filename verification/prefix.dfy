/** Address prefixes: masking, validity, the table order and longest-prefix
    coverage (wire.c and the prefix helpers of engine.c). */
module Prefixes {
  import opened Types

  /** IPv4 bytes occupy the first four positions. */
  datatype Prefix = Prefix(bytes: Bytes16, bits: byte, family: byte)

  /** 2^k for the low bits of one byte. */
  function Unit(k: nat): (r: nat)
    requires k <= 8
    ensures 1 <= r <= 256
  {
    [1, 2, 4, 8, 16, 32, 64, 128, 256][k]
  }

  /** Byte b with only its `keep` leading bits retained. */
  function Kept(b: byte, keep: int): (r: byte)
  {
    if keep >= 8 then b
    else if keep <= 0 then 0
    else b - b % Unit(8 - keep)
  }

  function MaskBytes(bytes: Bytes16, bits: int): (r: Bytes16)
    ensures forall i :: 0 <= i < 16 ==> r[i] == Kept(bytes[i], bits - 8 * i)
  {
    seq(16, i requires 0 <= i < 16 => Kept(bytes[i], bits - 8 * i))
  }

  function Mask(p: Prefix): (r: Prefix) {
    p.(bytes := MaskBytes(p.bytes, p.bits))
  }

  function WidthOf(family: byte): (r: nat) {
    if family == 4 then 32 else 128
  }

  predicate Valid(p: Prefix) {
    (p.family == 4 || p.family == 6) && p.bits <= WidthOf(p.family) && Mask(p) == p
  }

  /** The in-place masking loop: a running count of bits still to keep. */
  method MaskInPlace(bytes: array<byte>, bits: byte)
    requires bytes.Length == 16
    modifies bytes
    ensures bytes[..] == MaskBytes(old(bytes[..]), bits)
  {
    var left := bits;
    for i := 0 to 16
      invariant left == if bits >= 8 * i then bits - 8 * i else 0
      invariant forall k :: 0 <= k < i ==> bytes[k] == Kept(old(bytes[k]), bits - 8 * k)
      invariant forall k :: i <= k < 16 ==> bytes[k] == old(bytes[k])
    {
      if left >= 8 {
        left := left - 8;
      } else {
        bytes[i] := if left != 0 then bytes[i] - bytes[i] % Unit(8 - left) else 0;
        left := 0;
      }
    }
  }

  lemma KeptTwice(b: byte, k: int)
    ensures Kept(Kept(b, k), k) == Kept(b, k)
  {
    if 0 < k < 8 {
      var u := Unit(8 - k);
      assert b - b % u == u * (b / u);
    }
  }

  /** Masking is idempotent, so every masked prefix of a sound length is valid. */
  lemma MaskIsValid(p: Prefix)
    requires (p.family == 4 || p.family == 6) && p.bits <= WidthOf(p.family)
    ensures Valid(Mask(p))
  {
    forall i | 0 <= i < 16
      ensures Kept(Kept(p.bytes[i], p.bits - 8 * i), p.bits - 8 * i) == Kept(p.bytes[i], p.bits - 8 * i)
    {
      KeptTwice(p.bytes[i], p.bits - 8 * i);
    }
  }

  predicate ZeroBytes(s: seq<byte>) {
    forall i :: 0 <= i < |s| ==> s[i] == 0
  }

  /** Prefixes the engine may admit: not link-local, multicast, loopback,
      mapped or the unspecified host. */
  predicate Routable(p: Prefix) {
    && Valid(p)
    && (if p.family == 6 then
          && !(p.bytes[0] == 0xfe && 0x80 <= p.bytes[1] < 0xc0)
          && p.bytes[0] != 0xff
          && !(ZeroBytes(p.bytes[..15]) && p.bytes[15] == 1)
          && !(ZeroBytes(p.bytes[..10]) && p.bytes[10] == 0xff && p.bytes[11] == 0xff)
        else
          && p.bytes[0] != 127
          && !(p.bytes[0] == 169 && p.bytes[1] == 254)
          && !(0xe0 <= p.bytes[0] < 0xf0))
    && !(ZeroBytes(p.bytes) && p.bits == WidthOf(p.family))
  }

  /** memcmp on equally long byte strings, as a three-way comparison. */
  function Compare(a: seq<byte>, b: seq<byte>): (r: int)
    requires |a| == |b|
    ensures r == 0 <==> a == b
  {
    if a == [] then 0
    else if a[0] != b[0] then a[0] - b[0]
    else
      assert a == [a[0]] + a[1..] && b == [b[0]] + b[1..];
      Compare(a[1..], b[1..])
  }

  /** The order of the selected table: family, then bytes, then length. */
  predicate Less(a: Prefix, b: Prefix) {
    if a.family != b.family then a.family < b.family
    else if Compare(a.bytes, b.bytes) != 0 then Compare(a.bytes, b.bytes) < 0
    else a.bits < b.bits
  }

  lemma {:induction false} CompareTransitive(a: seq<byte>, b: seq<byte>, c: seq<byte>)
    requires |a| == |b| == |c|
    ensures Compare(a, b) < 0 && Compare(b, c) < 0 ==> Compare(a, c) < 0
    ensures (Compare(a, b) < 0) == (Compare(b, a) > 0)
  {
    if a != [] {
      CompareTransitive(a[1..], b[1..], c[1..]);
    }
  }

  /** The table order is a strict total order on prefixes. */
  lemma LessIsStrictTotal(a: Prefix, b: Prefix, c: Prefix)
    ensures !Less(a, a)
    ensures Less(a, b) || Less(b, a) || a == b
    ensures !(Less(a, b) && Less(b, a))
    ensures Less(a, b) && Less(b, c) ==> Less(a, c)
  {
    CompareTransitive(a.bytes, b.bytes, c.bytes);
    CompareTransitive(b.bytes, a.bytes, c.bytes);
    CompareTransitive(b.bytes, c.bytes, a.bytes);
    CompareTransitive(c.bytes, a.bytes, b.bytes);
  }

  /** p covers every address of host. */
  predicate Covers(p: Prefix, host: Prefix) {
    && p.family == host.family
    && p.bits <= host.bits
    && MaskBytes(host.bytes, p.bits) == p.bytes
  }
}
