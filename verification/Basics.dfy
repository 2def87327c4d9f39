/** What every part of the model shares: options, the machine integers of the source, and the
    refusals a host call or a stream ends with. */
module Basics {

  datatype Option<+T> = None | Some(value: T)

  datatype Result<+T, +E> = Ok(value: T) | Err(error: E)

  const U32_MAX: nat := 0xFFFF_FFFF
  const U64_MAX: nat := 0xFFFF_FFFF_FFFF_FFFF

  type u8 = x: nat | x < 0x100
  type u16 = x: nat | x < 0x1_0000
  type u32 = x: nat | x <= U32_MAX
  type u64 = x: nat | x <= U64_MAX

  type i32 = x: int | -0x8000_0000 <= x < 0x8000_0000

  type Bytes = seq<u8>

  /** An IPv4 address. */
  type Octets = s: seq<u8> | |s| == 4 witness [0, 0, 0, 0]

  /** `saturating_add` at width 32. */
  function SatAdd32(a: u32, b: nat): (r: u32)
    ensures a <= r
    ensures r < U32_MAX ==> r == a + b
  {
    if a + b <= U32_MAX then a + b else U32_MAX
  }

  /** `saturating_add` at width 64. */
  function SatAdd64(a: u64, b: nat): (r: u64)
    ensures a <= r
    ensures r < U64_MAX ==> r == a + b
  {
    if a + b <= U64_MAX then a + b else U64_MAX
  }

  function Min(a: nat, b: nat): nat {
    if a <= b then a else b
  }

  datatype Refused =
    | Ungranted
    | Limit(what: string)
    | Policy(what: string)
    | Unavailable(what: string)

  ghost predicate Ascending(s: seq<nat>) {
    forall a, b :: 0 <= a < b < |s| ==> s[a] < s[b]
  }
}
