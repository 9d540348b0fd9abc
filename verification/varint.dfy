/** Base-128 varints of nanopb (pb_encode.c, pb_decode.c): a 32-bit-split
    encoder, a 64-bit and a 32-bit decoder, and zig-zag. */
module Varint {
  import opened Types

  const TWO32: nat := 0x1_0000_0000
  const TWO63: nat := 0x8000_0000_0000_0000
  const TWO64: nat := 0x1_0000_0000_0000_0000

  type s64 = n: int | -0x8000_0000_0000_0000 <= n < 0x8000_0000_0000_0000

  /** The canonical form: seven bits a byte, lowest first, no padding. */
  function Canonical(v: nat): (r: seq<byte>)
    ensures |r| >= 1
  {
    if v < 128 then [v] else [128 + v % 128] + Canonical(v / 128)
  }

  /** 128 to the n. */
  function Place(n: nat): (r: nat)
    ensures r >= 1
  {
    if n == 0 then 1 else 128 * Place(n - 1)
  }

  /** What v is worth when its lowest group is group number n. */
  function Worth(v: nat, n: nat): (r: nat) {
    v * Place(n)
  }

  lemma Places()
    ensures Place(1) == 0x80 && Place(2) == 0x4000 && Place(3) == 0x20_0000 && Place(4) == 0x1000_0000
    ensures Place(5) == 0x8_0000_0000 && Place(9) == TWO63 && Place(10) == 2 * TWO64 * 32
  {
    assert Place(6) == 128 * Place(5) && Place(7) == 128 * Place(6) && Place(8) == 128 * Place(7);
  }

  lemma {:induction false} CanonicalLength(v: nat, n: nat)
    requires n >= 1 && v < Place(n)
    ensures |Canonical(v)| <= n
  {
    if v >= 128 { CanonicalLength(v / 128, n - 1); }
  }

  /** Every 64-bit value takes at most ten bytes. */
  lemma TenBytes(v: u64)
    ensures |Canonical(v)| <= 10
  {
    Places();
    CanonicalLength(v, 10);
  }

  // ----- The encoder

  /** One more group of `rest` is written. */
  lemma Unfold(value: nat, buffer: seq<byte>, rest: nat)
    requires Canonical(value) == buffer + Canonical(rest) && rest >= 128
    ensures Canonical(value) == (buffer + [128 + rest % 128]) + Canonical(rest / 128)
  {
  }

  lemma Last(value: nat, buffer: seq<byte>, rest: nat)
    requires Canonical(value) == buffer + Canonical(rest) && rest < 128
    ensures Canonical(value) == buffer + [rest]
  {
  }

  /** The weight of the high half once i groups of the low half are written. */
  function Shift(i: nat): (r: nat) {
    if i == 0 then TWO32 else if i == 1 then 0x200_0000 else if i == 2 then 0x4_0000 else if i == 3 then 0x800 else 0x10
  }

  /** What is left to write: the group in hand, then both halves. */
  function Rest(b: nat, low: nat, high: nat, i: nat): (r: nat) {
    b + 128 * low + high * Shift(i)
  }

  /** The encoder that never shifts a 64-bit word: four groups from the low half,
      one that straddles both halves, the rest from the high half. */
  method EncodeSplit(low0: u32, high0: u32) returns (buffer: seq<byte>)
    ensures buffer == Canonical(low0 + high0 * 0x1_0000_0000)
  {
    hide Canonical, Rest;
    var low: nat := low0 / 128;
    var high: nat := high0;
    var i := 0;
    ghost var value: nat := low0 + high0 * TWO32;
    var b: nat := low0 % 128;
    buffer := [];
    Whole(low0, high0);
    assert buffer + Canonical(value) == Canonical(value);
    while i < 4 && (low != 0 || high != 0)
      invariant i <= 4 && b < 128 && b + 128 * low < Shift(i)
      invariant Canonical(value) == buffer + Canonical(Rest(b, low, high, i))
    {
      Group(b, low, high, i);
      Unfold(value, buffer, Rest(b, low, high, i));
      buffer := buffer + [128 + b];
      b := low % 128;
      low := low / 128;
      i := i + 1;
    }
    if high != 0 {
      Straddle(b, high);
      buffer := EncodeHigh(b + high % 8 * 16, high / 8, value, buffer);
    } else {
      Spent(b, low, i);
      Last(value, buffer, b);
      buffer := buffer + [b];
    }
  }

  method EncodeHigh(b0: nat, high0: nat, ghost value: nat, buffer0: seq<byte>) returns (buffer: seq<byte>)
    requires b0 < 128 && Canonical(value) == buffer0 + Canonical(b0 + 128 * high0)
    ensures buffer == Canonical(value)
  {
    hide Canonical;
    var b, high := b0, high0;
    buffer := buffer0;
    while high != 0
      invariant b < 128 && Canonical(value) == buffer + Canonical(b + 128 * high)
    {
      Unfold(value, buffer, b + 128 * high);
      buffer := buffer + [128 + b];
      b := high % 128;
      high := high / 128;
    }
    Last(value, buffer, b);
    buffer := buffer + [b];
  }

  lemma Whole(low: u32, high: u32)
    ensures Rest(low % 128, low / 128, high, 0) == low + high * TWO32
  {
  }

  /** One group leaves the low half. */
  lemma Group(b: nat, low: nat, high: nat, i: nat)
    requires b < 128 && b + 128 * low < Shift(i) && i < 4 && (low != 0 || high != 0)
    ensures var rest := Rest(b, low, high, i);
            rest >= 128 && rest % 128 == b && rest / 128 == Rest(low % 128, low / 128, high, i + 1) && low < Shift(i + 1)
  {
    var q := low + high * Shift(i + 1);
    assert Shift(i) == 128 * Shift(i + 1);
    assert high * Shift(i) == 128 * (high * Shift(i + 1));
    assert Rest(b, low, high, i) == b + 128 * q;
  }

  /** The fifth group takes four bits of the low half and three of the high. */
  lemma Straddle(b: nat, high: nat)
    requires b < 16
    ensures b + high % 8 * 16 < 128 && Rest(b, 0, high, 4) == (b + high % 8 * 16) + 128 * (high / 8)
  {
  }

  lemma Spent(b: nat, low: nat, i: nat)
    requires low == 0
    ensures Rest(b, low, 0, i) == b
  {
  }

  /** The entry point, with its single-byte fast path. */
  method EncodeVarint(value: u64) returns (buffer: seq<byte>)
    ensures buffer == Canonical(value) && |buffer| <= 10
  {
    TenBytes(value);
    if value <= 0x7F {
      buffer := [value];
    } else {
      buffer := EncodeSplit(value % 0x1_0000_0000, value / 0x1_0000_0000);
    }
  }

  // ----- The 64-bit decoder

  /** Bytes from `pos` on, added to what the earlier ones gave: the value and the
      number of bytes read, or nothing on overflow or a short stream. */
  function Decode64From(b: seq<byte>, pos: nat, acc: nat): (r: Option<(nat, nat)>)
    ensures r.Some? ==> pos < r.value.1 <= |b|
    decreases |b| - pos
  {
    if pos >= |b| then None
    else if pos >= 9 && b[pos] >= 2 then None
    else
      var result := acc + Worth(b[pos] % 128, pos);
      if b[pos] >= 128 then Decode64From(b, pos + 1, result) else Some((result, pos + 1))
  }

  function Decode64(b: seq<byte>): (r: Option<(nat, nat)>)
    ensures r.Some? ==> 0 < r.value.1 <= |b|
  {
    Decode64From(b, 0, 0)
  }

  method DecodeVarint(b: seq<byte>) returns (r: Option<(nat, nat)>)
    ensures r == Decode64(b)
  {
    var pos, result: nat, scale: nat := 0, 0, 1;
    while true
      invariant pos <= |b| && scale == Place(pos) && Decode64From(b, pos, result) == Decode64(b)
      decreases |b| - pos
    {
      if pos == |b| { return None; }
      var x := b[pos];
      if 7 * pos >= 63 && x / 2 != 0 { return None; }
      result := result + x % 128 * scale;
      pos, scale := pos + 1, scale * 128;
      if x < 128 { return Some((result, pos)); }
    }
  }

  /** Canonical(v) stands at position pos of b. */
  predicate Stands(b: seq<byte>, v: nat, pos: nat) {
    pos + |Canonical(v)| <= |b| && b[pos..pos + |Canonical(v)|] == Canonical(v)
  }

  lemma StandsStep(b: seq<byte>, v: nat, pos: nat)
    requires Stands(b, v, pos)
    ensures pos < |b| && b[pos] == (if v < 128 then v else 128 + v % 128)
    ensures v < 128 ==> |Canonical(v)| == 1
    ensures v >= 128 ==> Stands(b, v / 128, pos + 1) && |Canonical(v)| == 1 + |Canonical(v / 128)|
  {
    var c := Canonical(v);
    assert b[pos] == c[0];
    if v >= 128 { assert b[pos + 1..pos + 1 + |Canonical(v / 128)|] == c[1..]; }
  }

  /** The decoder undoes the encoder, whatever follows. */
  lemma {:induction false} Decode64Canonical(b: seq<byte>, v: nat, pos: nat, acc: nat)
    requires Stands(b, v, pos) && Worth(v, pos) < TWO64
    ensures Decode64From(b, pos, acc) == Some((acc + Worth(v, pos), pos + |Canonical(v)|))
    decreases v
  {
    hide Canonical, Worth, Stands;
    StandsStep(b, v, pos);
    PlaceLimit(v, pos);
    if v >= 128 {
      Split(v, pos);
      Decode64Canonical(b, v / 128, pos + 1, acc + Worth(v % 128, pos));
    }
  }

  lemma Split(v: nat, pos: nat)
    ensures Worth(v, pos) == Worth(v % 128, pos) + Worth(v / 128, pos + 1)
  {
    assert v == v % 128 + 128 * (v / 128);
    assert (v / 128 * 128) * Place(pos) == v / 128 * (128 * Place(pos));
  }

  /** The tenth byte of a 64-bit value is a single bit. */
  lemma PlaceLimit(v: nat, pos: nat)
    requires Worth(v, pos) < TWO64
    ensures pos >= 9 ==> v < 2
  {
    if pos >= 9 {
      Places();
      PlaceGrows(9, pos);
      assert v * Place(9) <= v * Place(pos);
    }
  }

  lemma {:induction false} PlaceGrows(a: nat, b: nat)
    requires a <= b
    ensures Place(a) <= Place(b)
    decreases b
  {
    if a < b { PlaceGrows(a, b - 1); }
  }

  lemma Decode64Inverts(v: u64, rest: seq<byte>)
    ensures Decode64(Canonical(v) + rest) == Some((v, |Canonical(v)|)) && |Canonical(v)| <= 10
  {
    TenBytes(v);
    var b := Canonical(v) + rest;
    assert Stands(b, v, 0) && Worth(v, 0) == v;
    Decode64Canonical(b, v, 0, 0);
  }

  // ----- The 32-bit decoder

  function Decode32From(b: seq<byte>, pos: nat, result: nat): (r: Option<(nat, nat)>)
    ensures r.Some? ==> pos < r.value.1 <= |b|
    decreases |b| - pos
  {
    if pos >= |b| then None
    else
      var x := b[pos];
      if 7 * pos >= 32 then
        var sign := if 7 * pos < 63 then 0xFF else 0x01;
        if 7 * pos >= 64 || !(x % 128 == 0 || (result >= 0x8000_0000 && x == sign)) then None
        else if x >= 128 then Decode32From(b, pos + 1, result) else Some((result, pos + 1))
      else if 7 * pos == 28 then
        if x / 16 % 8 != 0 && x / 8 % 16 != 15 then None
        else
          var next := result + (x % 16) as nat * 0x1000_0000;
          if x >= 128 then Decode32From(b, pos + 1, next) else Some((next, pos + 1))
      else
        var next := result + Worth(x % 128, pos);
        if x >= 128 then Decode32From(b, pos + 1, next) else Some((next, pos + 1))
  }

  function Decode32(b: seq<byte>): (r: Option<(nat, nat)>)
    ensures r.Some? ==> 0 < r.value.1 <= |b|
  {
    Decode32From(b, 0, 0)
  }

  method DecodeVarint32(b: seq<byte>) returns (r: Option<(nat, nat)>)
    ensures r == Decode32(b)
  {
    if |b| == 0 { return None; }
    var x := b[0];
    if x < 128 { return Some((x, 1)); }
    var pos, result: nat, scale: nat := 1, x % 128, 128;
    while true
      invariant 1 <= pos <= |b| && scale == Place(pos) && Decode32From(b, pos, result) == Decode32(b)
      decreases |b| - pos
    {
      if pos == |b| { return None; }
      x := b[pos];
      if 7 * pos >= 32 {
        var sign: nat := if 7 * pos < 63 then 0xFF else 0x01;
        if 7 * pos >= 64 || !(x % 128 == 0 || (result >= 0x8000_0000 && x == sign)) { return None; }
      } else if 7 * pos == 28 {
        if x / 16 % 8 != 0 && x / 8 % 16 != 15 { return None; }
        result := result + x % 16 * 0x1000_0000;
      } else {
        result := result + x % 128 * scale;
      }
      pos, scale := pos + 1, scale * 128;
      if x < 128 { return Some((result, pos)); }
    }
  }

  /** From the sixth byte on a group adds a multiple of 2^35. */
  lemma {:induction false} HighPlace(pos: nat)
    requires pos >= 5
    ensures Place(pos) % TWO32 == 0
  {
    Places();
    if pos > 5 {
      HighPlace(pos - 1);
      assert 128 * Place(pos - 1) == 128 * (Place(pos - 1) / TWO32) * TWO32;
    }
  }

  lemma AddMultiple(a: nat, k: nat, p: nat)
    requires p % TWO32 == 0
    ensures (a + k * p) % TWO32 == a % TWO32
  {
    assert k * p == TWO32 * (k * (p / TWO32));
  }

  /** One byte that both decoders accept: the 64-bit sum stays congruent to the
      32-bit one. */
  lemma SameGroup(pos: nat, acc: nat, result: nat, x: byte)
    requires acc % TWO32 == result % TWO32 && (pos <= 4 ==> acc == result)
    ensures pos >= 5 ==> (acc + Worth(x % 128, pos)) % TWO32 == result % TWO32
    ensures pos == 4 ==> (acc + Worth(x % 128, pos)) % TWO32 == (result + x % 16 * 0x1000_0000) % TWO32
  {
    hide Place;
    if pos >= 5 {
      HighPlace(pos);
      AddMultiple(acc, x % 128, Place(pos));
    } else if pos == 4 {
      assert Place(4) == 0x1000_0000 by { Places(); }
      assert x % 128 == x % 16 + 16 * (x / 16 % 8);
      AddMultiple(acc + x % 16 * 0x1000_0000, x / 16 % 8, TWO32);
    }
  }

  /** The two decoders walk the same bytes with results equal modulo 2^32. */
  lemma {:induction false} Agree(b: seq<byte>, pos: nat, acc: nat, result: nat)
    requires Decode32From(b, pos, result).Some? && acc % TWO32 == result % TWO32 && (pos <= 4 ==> acc == result)
    ensures var (v, n) := Decode32From(b, pos, result).value;
            var r := Decode64From(b, pos, acc);
            r.Some? && r.value.1 == n && r.value.0 % TWO32 == v % TWO32
    decreases |b| - pos
  {
    hide Worth;
    var x := b[pos];
    var acc' := acc + Worth(x % 128, pos);
    SameGroup(pos, acc, result, x);
    if x >= 128 {
      Agree(b, pos + 1, acc', if pos >= 5 then result else if pos == 4 then result + (x % 16) as nat * 0x1000_0000 else acc');
    }
  }

  /** Whatever the 32-bit decoder accepts, the 64-bit one accepts too, at the
      same length and with the same low word. */
  lemma DecodersAgree(b: seq<byte>)
    requires Decode32(b).Some?
    ensures Decode64(b).Some? && Decode64(b).value.1 == Decode32(b).value.1
    ensures Decode64(b).value.0 % TWO32 == Decode32(b).value.0 % TWO32
  {
    Agree(b, 0, 0, 0);
  }

  lemma {:induction false} Decode32Canonical(b: seq<byte>, v: nat, pos: nat, acc: nat)
    requires Stands(b, v, pos) && Worth(v, pos) < TWO32 && pos <= 4
    ensures Decode32From(b, pos, acc) == Some((acc + Worth(v, pos), pos + |Canonical(v)|))
    decreases v
  {
    hide Canonical, Worth, Stands;
    StandsStep(b, v, pos);
    FifthGroup(v, pos);
    if v >= 128 {
      Split(v, pos);
      Decode32Canonical(b, v / 128, pos + 1, acc + Worth(v % 128, pos));
    }
  }

  /** The fifth byte of a 32-bit value holds four bits. */
  lemma FifthGroup(v: nat, pos: nat)
    requires Worth(v, pos) < TWO32 && pos <= 4
    ensures pos == 4 ==> v < 16 && Worth(v, 4) == v * 0x1000_0000
  {
    Places();
  }

  lemma Decode32Inverts(v: u32, rest: seq<byte>)
    ensures Decode32(Canonical(v) + rest) == Some((v, |Canonical(v)|))
  {
    var b := Canonical(v) + rest;
    assert Stands(b, v, 0) && Worth(v, 0) == v;
    Decode32Canonical(b, v, 0, 0);
  }

  // ----- Zig-zag

  /** The bit operations of the encoder: mask off the sign, shift, complement. */
  function Zig(v: s64): (r: u64)
  {
    if v < 0 then 0xFFFF_FFFF_FFFF_FFFF - (v + TWO64) % TWO63 * 2 else v * 2
  }

  function Zag(z: u64): (r: s64)
  {
    if z % 2 == 1 then AsSigned(0xFFFF_FFFF_FFFF_FFFF - z / 2) else AsSigned(z / 2)
  }

  /** A 64-bit pattern read as two's complement. */
  function AsSigned(u: u64): (r: s64) {
    if u < TWO63 then u else u - TWO64
  }

  lemma ZigZag(v: s64, z: u64)
    ensures Zag(Zig(v)) == v && Zig(Zag(z)) == z
  {
    if v < 0 { assert (v + TWO64) % TWO63 == v + TWO63; }
    if z % 2 == 1 { assert (Zag(z) + TWO64) % TWO63 == Zag(z) + TWO63; }
  }
}
