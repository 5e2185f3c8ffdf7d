/** The ARM coprocessor seen from outside: what its program leaves in the memories it can reach is arbitrary. */
module Coprocessor {
  import opened Words

  /** The bytes left behind, by segment and offset. */
  type Arm = (nat, nat) -> u8

  function Left(arm: Arm, segment: nat, before: seq<u8>): (r: seq<u8>)
    ensures |r| == |before|
  {
    seq(|before|, i requires 0 <= i < |before| => arm(segment, i))
  }

  /** A 32-bit word left behind. */
  function LeftWord(arm: Arm, segment: nat, at: nat): u32
  {
    arm(segment, at) + 0x100 * arm(segment, at + 1)
      + 0x1_0000 * arm(segment, at + 2) + 0x100_0000 * arm(segment, at + 3)
  }
}
