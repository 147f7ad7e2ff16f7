/** Values shared by every module: optional values, bytes and conversation ids. */
module Base {

  datatype Option<+T> = None | Some(value: T)

  type Byte = b: int | 0 <= b < 0x100

  type Bytes = seq<Byte>

  type U16 = n: int | 0 <= n < 0x1_0000

  type U32 = n: int | 0 <= n < 0x1_0000_0000

  /** A KCP conversation id: the `conv_id` of a session. */
  type Conv = U32

  function Min(a: nat, b: nat): nat {
    if a <= b then a else b
  }

  /** `u64::saturating_sub` on millisecond clocks. */
  function Elapsed(now: nat, since: nat): nat {
    if now >= since then now - since else 0
  }
}
