/** Machine words as bounded integers, with the wrapping operations of the fixed-width types. */
module Words {
  const U16: nat := 0x1_0000
  const U32: nat := 0x1_0000_0000
  const U64: nat := 0x1_0000_0000_0000_0000

  type u8 = x: int | 0 <= x < 0x100
  type u16 = x: int | 0 <= x < 0x1_0000
  type u32 = x: int | 0 <= x < 0x1_0000_0000
  type u64 = x: int | 0 <= x < 0x1_0000_0000_0000_0000

  function Add8(a: u8, b: int): u8 { (a + b) % 0x100 }

  /** `wrapping_add` and `wrapping_sub` on bytes and addresses. */
  function Sum8(a: u8, b: u8): u8 { if a + b < 0x100 then a + b else a + b - 0x100 }

  function Sub8(a: u8, b: u8): u8 { if a >= b then a - b else 0x100 + a - b }

  function Sum16(a: u16, b: u16): u16 { if a + b < 0x1_0000 then a + b else a + b - 0x1_0000 }

  function Sub16(a: u16, b: u16): u16 { if a >= b then a - b else 0x1_0000 + a - b }

  function Add16(a: u16, b: int): u16 { (a + b) % 0x1_0000 }

  function Add32(a: u32, b: int): u32 { (a + b) % 0x1_0000_0000 }

  function Add64(a: u64, b: int): u64 { (a + b) % 0x1_0000_0000_0000_0000 }

  /** A counter that has passed its range at most once, back in it. */
  function Wrap64(x: nat): u64
    requires x < 2 * U64
  {
    if x < U64 then x else x - U64
  }

  /** What a 64-bit counter shows after n steps of one. */
  function Shown64(n: nat): u64
  {
    if n < U64 then n else Shown64(n - U64)
  }

  lemma {:induction false} Shown64Is(n: nat)
    ensures Shown64(n) == n % U64
  {
    if n >= U64 {
      Shown64Is(n - U64);
      assert n == n - U64 + U64 * 1;
    }
  }

  lemma {:induction false} Shown64Steps(n: nat, k: nat)
    requires k < U64
    ensures Wrap64(Shown64(n) + k) == Shown64(n + k)
  {
    if n >= U64 {
      Shown64Steps(n - U64, k);
    } else if n + k >= U64 {
      assert Shown64(n + k) == Shown64(n + k - U64) == n + k - U64;
    }
  }

  /** `x as u8`. */
  function Byte(x: int): u8 { x % 0x100 }

  /** `u16::from(lo) | (u16::from(hi) << 8)`. */
  function Word(lo: u8, hi: u8): u16 { lo + 0x100 * hi }

  function Lo(w: u16): u8 { w % 0x100 }

  function Hi(w: u16): u8 { w / 0x100 }

  function Min(a: nat, b: nat): nat { if a < b then a else b }

  function Max(a: nat, b: nat): nat { if a < b then b else a }

  lemma AddThree(a: u8, b: u8, c: u8)
    ensures Add8(Add8(Add8(0, a), b), c) == (a + b + c) % 0x100
  {
  }
}
