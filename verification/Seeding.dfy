/** Power-on seeding: the SplitMix64 generator and the RAM image it fills. */
module Seeding {
  import opened Words
  import opened Bits
  import opened Bytes

  const GAMMA: u64 := 0x9E37_79B9_7F4A_7C15
  const MUL_1: u64 := 0xBF58_476D_1CE4_E5B9
  const MUL_2: u64 := 0x94D0_49BB_1331_11EB
  const RAM_SIZE: nat := 128
  const CHUNKS: nat := 16

  // Inverses of the three odd constants modulo 2^64.
  const GAMMA_INV: u64 := 0xF1DE_83E1_9937_733D
  const MUL_1_INV: u64 := 0x96DE_1B17_3F11_9089
  const MUL_2_INV: u64 := 0x3196_42B2_D24D_8EC3

  /** `z ^ (z >> k)`. */
  function XorShift(z: nat, k: nat): nat
  {
    Xor(z, Shr(z, k))
  }

  function MulMod(z: int, c: int, m: int): (r: int)
    requires m > 0
    ensures 0 <= r < m
  {
    z * c % m
  }

  /** One xor-shift-and-multiply round modulo m. */
  function Round(z: nat, k: nat, c: nat, m: nat): (r: nat)
    requires m > 0
    ensures r < m
  {
    MulMod(XorShift(z, k), c, m)
  }

  /** The output function of the generator, applied to its advanced state. */
  function Mix(z: u64): u64
  {
    var w := Round(Round(z, 30, MUL_1, U64), 27, MUL_2, U64);
    XorShiftBound(w, 31);
    XorShift(w, 31)
  }

  lemma XorShiftBound(z: u64, k: nat)
    ensures XorShift(z, k) < U64
  {
    assert Pow2(64) == U64 by { Pow2At64(); }
    XorBound(z, Shr(z, k), 64);
  }

  class SplitMix64 {
    var state: u64

    constructor (seed: u64)
      ensures state == seed
    {
      state := seed;
    }

    method NextU64() returns (r: u64)
      modifies this
      ensures state == Add64(old(state), GAMMA)
      ensures r == Mix(state)
    {
      state := (state + GAMMA) % U64;
      var z: int := state;
      z := Xor(z, Shr(z, 30)) * MUL_1 % U64;
      z := Xor(z, Shr(z, 27)) * MUL_2 % U64;
      XorShiftBound(z, 31);
      r := Xor(z, Shr(z, 31));
    }
  }

  /** The generator state after its (i+1)-th call from a seed. */
  function StateAt(seed: u64, i: nat): u64
  {
    Advanced(seed, i + 1)
  }

  function Advanced(seed: u64, i: nat): u64
  {
    Add64(seed, i * GAMMA)
  }

  function Chunk(seed: u64, i: nat): (r: seq<u8>)
    ensures |r| == 8
  {
    LeBytes(Mix(StateAt(seed, i)), 8)
  }

  /** Copies eight bytes into chunk i of RAM. */
  method StoreChunk(ram: array<u8>, i: nat, bytes: seq<u8>)
    requires ram.Length == RAM_SIZE && i < CHUNKS && |bytes| == 8
    modifies ram
    ensures ram[8 * i..8 * i + 8] == bytes
    ensures forall k | 0 <= k < CHUNKS && k != i :: ram[8 * k..8 * k + 8] == old(ram[8 * k..8 * k + 8])
  {
    forall j | 0 <= j < 8 {
      ram[8 * i + j] := bytes[j];
    }
  }

  /** Power-on: RAM contents, the A/X/Y bytes and the clock phase for a seed. */
  method PowerOn(seed: u64) returns (ram: array<u8>, a: u8, x: u8, y: u8, phase: u8)
    ensures fresh(ram) && ram.Length == RAM_SIZE
    ensures forall i | 0 <= i < CHUNKS :: ram[8 * i..8 * i + 8] == Chunk(seed, i)
    ensures [a, x, y] == Chunk(seed, CHUNKS)[..3]
    ensures phase == seed % 3
  {
    hide Mix, Add64, Chunk, Advanced, LeBytes;
    FirstState(seed);
    ram := new u8[RAM_SIZE](_ => 0);
    var rng := new SplitMix64(seed);
    var i := 0;
    while i < CHUNKS
      invariant 0 <= i <= CHUNKS
      invariant rng.state == Advanced(seed, i)
      invariant forall k | 0 <= k < i :: ram[8 * k..8 * k + 8] == Chunk(seed, k)
      modifies ram, rng
    {
      NextState(seed, i);
      var word := rng.NextU64();
      StoreChunk(ram, i, LeBytes(word, 8));
      i := i + 1;
    }
    NextState(seed, CHUNKS);
    var word := rng.NextU64();
    var axy := LeBytes(word, 8);
    a, x, y := axy[0], axy[1], axy[2];
    phase := seed % 3;
  }

  lemma NextState(seed: u64, i: nat)
    ensures Add64(Advanced(seed, i), GAMMA) == Advanced(seed, i + 1)
    ensures Chunk(seed, i) == LeBytes(Mix(Advanced(seed, i + 1)), 8)
  {
    hide Mix, LeBytes;
    var before := seed + i * GAMMA;
    AddReduced(before, GAMMA, U64);
    assert before + GAMMA == seed + (i + 1) * GAMMA;
  }

  lemma FirstState(seed: u64)
    ensures Advanced(seed, 0) == seed
  {
  }

  // ---- The output function is a bijection on the 2^64 states ----

  function UnXorShift(y: nat, k: nat): nat
    requires k > 0
  {
    if y == 0 then 0 else
    ShrLess(y, k);
    Xor(y, UnXorShift(Shr(y, k), k))
  }

  lemma ShrLess(y: nat, k: nat)
    requires y > 0 && k > 0
    ensures Shr(y, k) < y
  {
  }

  lemma {:induction false} UnXorShiftLeft(z: nat, k: nat)
    requires k > 0
    ensures UnXorShift(XorShift(z, k), k) == z
  {
    if z > 0 {
      ShrLess(z, k);
      var s := Shr(z, k);
      UnXorShiftLeft(s, k);
      XorShr(z, s, k);
      XorTwice(z, s);
    }
  }

  lemma {:induction false} UnXorShiftRight(y: nat, k: nat)
    requires k > 0
    ensures XorShift(UnXorShift(y, k), k) == y
  {
    if y > 0 {
      ShrLess(y, k);
      var u := UnXorShift(Shr(y, k), k);
      UnXorShiftRight(Shr(y, k), k);
      XorShr(y, u, k);
      XorTwice(u, Shr(u, k));
      XorTwice(y, u);
    }
  }

  lemma {:induction false} UnXorShiftBound(y: nat, k: nat, n: nat)
    requires k > 0 && y < Pow2(n)
    ensures UnXorShift(y, k) < Pow2(n)
  {
    if y > 0 {
      ShrLess(y, k);
      UnXorShiftBound(Shr(y, k), k, n);
      XorBound(y, UnXorShift(Shr(y, k), k), n);
    }
  }

  /** Multiplying by c and then by its inverse modulo m is the identity. */
  lemma MulInverse(z: int, c: int, d: int, m: int)
    requires m > 1 && 0 <= z < m && c * d % m == 1
    ensures MulMod(MulMod(z, c, m), d, m) == z
  {
    var q, r := z * c / m, z * c % m;
    var e := c * d / m;
    calc {
      r * d;
    == { assert r == z * c - m * q; }
      (z * c - m * q) * d;
    ==
      z * (c * d) - m * (q * d);
    == { assert c * d == m * e + 1; }
      z * (m * e + 1) - m * (q * d);
    == { assert z * (m * e + 1) == m * (z * e) + z; }
      m * (z * e) + z - m * (q * d);
    == { assert m * (z * e) - m * (q * d) == m * (z * e - q * d); }
      m * (z * e - q * d) + z;
    }
    ModUnique(r * d, m, z * e - q * d, z);
  }

  function UnRound(w: nat, k: nat, d: nat, m: nat): nat
    requires m > 0 && k > 0
  {
    UnXorShift(MulMod(w, d, m), k)
  }

  lemma UnRoundRound(z: nat, k: nat, c: nat, d: nat, m: nat)
    requires m > 1 && k > 0 && c * d % m == 1 && XorShift(z, k) < m
    ensures UnRound(Round(z, k, c, m), k, d, m) == z
  {
    MulInverse(XorShift(z, k), c, d, m);
    UnXorShiftLeft(z, k);
  }

  lemma RoundUnRound(w: nat, k: nat, c: nat, d: nat, m: nat)
    requires m > 1 && k > 0 && d * c % m == 1 && w < m
    ensures Round(UnRound(w, k, d, m), k, c, m) == w
  {
    UnXorShiftRight(MulMod(w, d, m), k);
    MulInverse(w, d, c, m);
  }

  lemma ConstantsInvert()
    ensures MUL_1 * MUL_1_INV % U64 == 1 && MUL_1_INV * MUL_1 % U64 == 1
    ensures MUL_2 * MUL_2_INV % U64 == 1 && MUL_2_INV * MUL_2 % U64 == 1
    ensures GAMMA * GAMMA_INV % U64 == 1
  {
  }

  function Unmix(w: u64): u64
  {
    var z := UnRound(UnRound(UnXorShift(w, 31), 27, MUL_2_INV, U64), 30, MUL_1_INV, U64);
    UnXorShiftBound64(MulMod(UnRound(UnXorShift(w, 31), 27, MUL_2_INV, U64), MUL_1_INV, U64), 30);
    z
  }

  lemma UnXorShiftBound64(y: u64, k: nat)
    requires k > 0
    ensures UnXorShift(y, k) < U64
  {
    Pow2At64();
    UnXorShiftBound(y, k, 64);
  }

  lemma UnmixMix(z: u64)
    ensures Unmix(Mix(z)) == z
  {
    ConstantsInvert();
    var z1 := Round(z, 30, MUL_1, U64);
    var z2 := Round(z1, 27, MUL_2, U64);
    UnXorShiftLeft(z2, 31);
    XorShiftBound(z1, 27);
    UnRoundRound(z1, 27, MUL_2, MUL_2_INV, U64);
    XorShiftBound(z, 30);
    UnRoundRound(z, 30, MUL_1, MUL_1_INV, U64);
  }

  lemma MixUnmix(w: u64)
    ensures Mix(Unmix(w)) == w
  {
    ConstantsInvert();
    var z2 := UnXorShift(w, 31);
    UnXorShiftBound64(w, 31);
    var z1 := UnRound(z2, 27, MUL_2_INV, U64);
    UnXorShiftBound64(MulMod(z2, MUL_2_INV, U64), 27);
    RoundUnRound(z1, 30, MUL_1, MUL_1_INV, U64);
    RoundUnRound(z2, 27, MUL_2, MUL_2_INV, U64);
    UnXorShiftRight(w, 31);
  }

  /** The seed that makes chunk i of power-on RAM spell a given word. */
  function SeedOf(w: u64, i: nat): u64
  {
    Add64(Unmix(w), -(i + 1) * GAMMA)
  }

  lemma ChunkValue(seed: u64, i: nat)
    ensures LeValue(Chunk(seed, i)) == Mix(StateAt(seed, i))
  {
    Pow2At64();
    LeRoundTrip(Mix(StateAt(seed, i)), 8);
  }

  /** Any one 8-byte chunk of power-on RAM gives the seed back. */
  lemma SeedRecovered(seed: u64, i: nat)
    ensures LeValue(Chunk(seed, i)) < U64
    ensures SeedOf(LeValue(Chunk(seed, i)), i) == seed
  {
    ChunkValue(seed, i);
    UnmixMix(StateAt(seed, i));
    var g := (i + 1) * GAMMA;
    assert -(i + 1) * GAMMA == -g;
    UndoAdd(seed, g);
  }

  lemma UndoAdd(a: u64, g: int)
    ensures Add64(Add64(a, g), -g) == a
    ensures Add64(Add64(a, -g), g) == a
  {
  }

  /** Every word is the i-th chunk of some seed's power-on RAM. */
  lemma EveryChunkOccurs(w: u64, i: nat)
    ensures LeValue(Chunk(SeedOf(w, i), i)) == w
  {
    var g := (i + 1) * GAMMA;
    assert -(i + 1) * GAMMA == -g;
    UndoAdd(Unmix(w), g);
    assert StateAt(SeedOf(w, i), i) == Unmix(w);
    MixUnmix(w);
    ChunkValue(SeedOf(w, i), i);
  }

  /** Different seeds differ in every single chunk of RAM, and in the A/X/Y word. */
  lemma SeedsDiffer(s: u64, t: u64, i: nat)
    requires s != t
    ensures Chunk(s, i) != Chunk(t, i)
  {
    SeedRecovered(s, i);
    SeedRecovered(t, i);
  }

  /** Within one power-on no two chunks are equal. */
  lemma ChunksDiffer(seed: u64, i: nat, j: nat)
    requires i < j <= CHUNKS
    ensures Chunk(seed, i) != Chunk(seed, j)
  {
    if Chunk(seed, i) == Chunk(seed, j) {
      SameChunkSameState(seed, i, j);
      ConstantsInvert();
      var d := j - i;
      EqualMultiples(seed, i + 1, d, GAMMA, GAMMA_INV, U64);
    }
  }

  lemma SameChunkSameState(seed: u64, i: nat, j: nat)
    requires Chunk(seed, i) == Chunk(seed, j)
    ensures StateAt(seed, i) == StateAt(seed, j)
  {
    hide Mix, Unmix, StateAt, Chunk;
    ChunkValue(seed, i);
    ChunkValue(seed, j);
    UnmixMix(StateAt(seed, i));
    UnmixMix(StateAt(seed, j));
  }

  lemma EqualMultiples(s: nat, i: nat, d: nat, g: nat, inv: nat, m: nat)
    requires m > 1 && d < m && g * inv % m == 1
    requires (s + i * g) % m == (s + (i + d) * g) % m
    ensures d == 0
  {
    assert (i + d) * g == i * g + d * g;
    EqualSteps(s + i * g, d * g, d, g, inv, m);
  }

  lemma EqualSteps(a: int, x: int, d: nat, g: nat, inv: nat, m: nat)
    requires m > 1 && d < m && MulMod(g, inv, m) == 1 && x == d * g
    requires a % m == (a + x) % m
    ensures d == 0
  {
    AddReduced(a, x, m);
    SameResidue(a % m, x, m);
    MulInverse(d, g, inv, m);
    assert MulMod(d, g, m) == 0;
    assert MulMod(0, inv, m) == 0;
  }

  lemma SameResidue(r: nat, x: int, m: nat)
    requires r < m && (r + x) % m == r
    ensures x % m == 0
  {
    ModUnique(x, m, (r + x) / m, 0);
  }
}
