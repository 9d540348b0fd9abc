/** Machine-width integers, fixed-size byte strings and the optional value every
    table slot holds. Integers are mathematical; widths are subset types, so a
    value that would not fit the original field is a verification error. */
module Types {
  type byte = x: int | 0 <= x < 0x100
  type u16 = x: int | 0 <= x < 0x1_0000
  type u32 = x: int | 0 <= x < 0x1_0000_0000
  type u64 = x: int | 0 <= x < 0x1_0000_0000_0000_0000

  /** WB_INFINITY: the metric of a retracted or unreachable route. */
  const INFINITY: u16 := 0xFFFF
  const U64_MAX: u64 := 0xFFFF_FFFF_FFFF_FFFF

  type Bytes4 = s: seq<byte> | |s| == 4 witness [0, 0, 0, 0]
  type Bytes16 = s: seq<byte> | |s| == 16 witness [0, 0, 0, 0, 0, 0, 0, 0, 0, 0, 0, 0, 0, 0, 0, 0]

  const ZERO16: Bytes16 := [0, 0, 0, 0, 0, 0, 0, 0, 0, 0, 0, 0, 0, 0, 0, 0]

  datatype Option<+T> = None | Some(value: T)

  lemma Regroup(a: seq<byte>, b: seq<byte>, c: seq<byte>)
    ensures (a + b) + c == a + (b + c)
  {
  }
}
