/** The DPC board: shift-register noise and eight self-decrementing data fetchers. */
module Dpc {
  import opened Bits
  import opened Words

  const FETCHERS: nat := 8
  const DISPLAY_SIZE: nat := 0x800
  const PROGRAM_SIZE: nat := 0x2000

  datatype Registers = Registers(
    bank: nat,
    tops: seq<u8>,
    bottoms: seq<u8>,
    low: seq<u8>,
    hi: seq<u8>,
    flags: seq<bool>,
    music: seq<bool>,
    rng: bv8)
  {
    ghost predicate Valid()
    {
      && bank < 2 && |tops| == FETCHERS && |bottoms| == FETCHERS && |low| == FETCHERS && |hi| == FETCHERS
      && |flags| == FETCHERS && |music| == 3
    }

    predicate MusicOn(i: nat)
      requires i < FETCHERS && |music| == 3
    {
      i >= 5 && music[i - 5]
    }
  }

  datatype Rom = Rom(program: seq<u8>, display: seq<u8>)
  {
    ghost predicate Valid()
    {
      |program| == PROGRAM_SIZE && |display| == DISPLAY_SIZE
    }
  }

  /** The board built from the first 10 KiB of an image. */
  function New(image: seq<u8>): (r: (Rom, Registers))
    requires |image| >= PROGRAM_SIZE + DISPLAY_SIZE
    ensures r.0.Valid() && r.1.Valid()
  {
    (Rom(image[..PROGRAM_SIZE], image[PROGRAM_SIZE..PROGRAM_SIZE + DISPLAY_SIZE]),
     Registers(1, seq(FETCHERS, i => 0 as u8), seq(FETCHERS, i => 0 as u8), seq(FETCHERS, i => 0 as u8),
               seq(FETCHERS, i => 0 as u8), seq(FETCHERS, i => false), seq(3, i => false), 1))
  }

  datatype Access = Read(addr: u16) | Write(addr: u16, val: u8)

  function Offset(addr: u16): nat { addr % 0x1000 }

  function Index(addr: u16): (r: nat) ensures r < FETCHERS { addr % 8 }

  function Function(addr: u16): (r: nat) ensures r < 8 { addr / 8 % 8 }

  predicate RegisterRead(addr: u16) { Offset(addr) < 0x80 }

  predicate RegisterWrite(addr: u16) { 0x40 <= Offset(addr) < 0x80 }

  /** The shift register's next value: the new bit is the NOT of the XOR of bits 7, 5, 4 and 3. */
  function Clock(r: bv8): bv8
  {
    var bit := ((r >> 3) & 1) ^ ((r >> 4) & 1) ^ ((r >> 5) & 1) ^ ((r >> 7) & 1) ^ 1;
    (r << 1) | bit
  }

  function Hotspot(s: Registers, addr: u16): Registers
  {
    match addr % 0x2000
    case 0x1FF8 => s.(bank := 0)
    case 0x1FF9 => s.(bank := 1)
    case _ => s
  }

  /** What every access does first. */
  function Touch(s: Registers, addr: u16): Registers
  {
    var h := Hotspot(s, addr);
    h.(rng := Clock(h.rng))
  }

  function SetFlag(s: Registers, i: nat): Registers
    requires s.Valid() && i < FETCHERS
  {
    if s.low[i] == s.tops[i] then s.(flags := s.flags[i := true])
    else if s.low[i] == s.bottoms[i] then s.(flags := s.flags[i := false])
    else s
  }

  function FetcherClock(s: Registers, i: nat): Registers
    requires s.Valid() && i < FETCHERS
  {
    var low := Add8(s.low[i], -1);
    if low == 0xFF then
      s.(low := s.low[i := if s.MusicOn(i) then s.tops[i] else low], hi := s.hi[i := Add8(s.hi[i], -1)])
    else s.(low := s.low[i := low])
  }

  /** A fetcher's `hi:low` pair as one 16-bit counter. */
  function Counter(s: Registers, i: nat): u16
    requires s.Valid() && i < FETCHERS
  {
    Word(s.low[i], s.hi[i])
  }

  /** The display byte a fetcher points at, counted down from the end of the display memory. */
  function GfxAddr(counter: u16): (r: nat)
    ensures r < DISPLAY_SIZE
  {
    0x7FF - counter % 0x800
  }

  function Mix(s: Registers): u8
    requires s.Valid()
  {
    (if s.music[0] && s.flags[5] then 4 else 0) + (if s.music[1] && s.flags[6] then 5 else 0)
      + (if s.music[2] && s.flags[7] then 6 else 0)
  }

  function Answer(rom: Rom, s: Registers, addr: u16): u8
    requires rom.Valid() && s.Valid()
  {
    var i := Index(addr);
    match Function(addr)
    case 0 => if i < 4 then s.rng as int else Mix(s)
    case 1 => rom.display[GfxAddr(Counter(s, i))]
    case 2 => if s.flags[i] then rom.display[GfxAddr(Counter(s, i))] else 0
    case 7 => if s.flags[i] then 0xFF else 0
    case _ => 0
  }

  function CpuRead(rom: Rom, s: Registers, addr: u16): (Registers, u8)
    requires rom.Valid() && s.Valid()
  {
    var t := Touch(s, addr);
    if !RegisterRead(addr) then (t, rom.program[t.bank * 0x1000 + Offset(addr)]) else
    var i := Index(addr);
    var u := SetFlag(t, i);
    (if u.MusicOn(i) then u else FetcherClock(u, i), Answer(rom, u, addr))
  }

  function CpuWrite(s: Registers, addr: u16, val: u8): Registers
    requires s.Valid()
  {
    var t := Touch(s, addr);
    if !RegisterWrite(addr) then t else
    var i := Index(addr);
    match Function(addr)
    case 0 => t.(tops := t.tops[i := val], flags := t.flags[i := false])
    case 1 => t.(bottoms := t.bottoms[i := val])
    case 2 => t.(low := t.low[i := if t.MusicOn(i) then t.tops[i] else val])
    case 3 => t.(hi := t.hi[i := val], music := if i >= 5 then t.music[i - 5 := val / 16 % 2 == 1] else t.music)
    case 6 => t.(rng := 1)
    case _ => t
  }

  lemma AccessKeepsValid(rom: Rom, s: Registers, a: Access)
    requires rom.Valid() && s.Valid()
    ensures match a
            case Read(addr) => CpuRead(rom, s, addr).0.Valid()
            case Write(addr, val) => CpuWrite(s, addr, val).Valid()
  {
    hide Touch, Answer;
    TouchKeeps(s, a.addr);
  }

  function Step(rom: Rom, s: Registers, a: Access): (r: Registers)
    requires rom.Valid() && s.Valid()
    ensures r.Valid()
  {
    AccessKeepsValid(rom, s, a);
    match a
    case Read(addr) => CpuRead(rom, s, addr).0
    case Write(addr, val) => CpuWrite(s, addr, val)
  }

  function Run(rom: Rom, s: Registers, h: seq<Access>): (r: Registers)
    requires rom.Valid() && s.Valid()
    ensures r.Valid()
  {
    if h == [] then s else
    Step(rom, Run(rom, s, h[..|h| - 1]), h[|h| - 1])
  }

  // ---- Streaming ----

  predicate Names(a: Access, i: nat) { a.Read? && RegisterRead(a.addr) && Index(a.addr) == i }

  /** How many register reads of the history name fetcher i. */
  function ReadsNaming(h: seq<Access>, i: nat): nat
  {
    if h == [] then 0 else ReadsNaming(h[..|h| - 1], i) + if Names(h[|h| - 1], i) then 1 else 0
  }

  /** A write of fetcher i's low or high byte (the latter also its music mode). */
  predicate SetsCounter(a: Access, i: nat)
  {
    a.Write? && RegisterWrite(a.addr) && Index(a.addr) == i && Function(a.addr) in {2, 3}
  }

  predicate LeavesCounter(h: seq<Access>, i: nat) { forall k | 0 <= k < |h| :: !SetsCounter(h[k], i) }

  lemma StepCounts(rom: Rom, s: Registers, a: Access, i: nat)
    requires rom.Valid() && s.Valid() && i < FETCHERS && !s.MusicOn(i) && !SetsCounter(a, i)
    ensures var t := Step(rom, s, a);
      Counter(t, i) == (Counter(s, i) - if Names(a, i) then 1 else 0) % U16 && !t.MusicOn(i)
  {
    hide Touch, Answer, Word;
    match a
    case Read(addr) =>
      TouchKeeps(s, addr);
      if Names(a, i) {
        BorrowIsDecrement(s.low[i], s.hi[i]);
      }
    case Write(addr, val) => TouchKeeps(s, addr);
  }

  lemma TouchKeeps(s: Registers, addr: u16)
    requires s.Valid()
    ensures var t := Touch(s, addr); t == s.(bank := t.bank, rng := Clock(s.rng)) && t.Valid()
  {
    hide Clock;
  }

  lemma BorrowIsDecrement(low: u8, hi: u8)
    ensures var l := Add8(low, -1);
      Word(l, if l == 0xFF then Add8(hi, -1) else hi) == (Word(low, hi) - 1) % U16
  {
  }

  /** Whatever else happens, the counter has gone down by one for each register read naming the fetcher. */
  lemma {:induction false} CounterTracksReads(rom: Rom, s: Registers, h: seq<Access>, i: nat)
    requires rom.Valid() && s.Valid() && i < FETCHERS && !s.MusicOn(i) && LeavesCounter(h, i)
    ensures var t := Run(rom, s, h);
      Counter(t, i) == (Counter(s, i) - ReadsNaming(h, i)) % U16 && !t.MusicOn(i)
  {
    hide Step, Counter, SetsCounter, Names;
    if h != [] {
      var before, a := h[..|h| - 1], h[|h| - 1];
      CounterTracksReads(rom, s, before, i);
      StepCounts(rom, Run(rom, s, before), a, i);
      DecrementReduced(Counter(s, i) - ReadsNaming(before, i), if Names(a, i) then 1 else 0);
    }
  }

  lemma DecrementReduced(x: int, d: nat)
    requires d <= 1
    ensures (x % U16 - d) % U16 == (x - d) % U16
  {
  }

  /** The next display read after h, any accesses interleaved: the byte r places on from the start. */
  lemma DisplayStream(rom: Rom, s: Registers, h: seq<Access>, addr: u16)
    requires rom.Valid() && s.Valid() && RegisterRead(addr) && Function(addr) == 1
    requires !s.MusicOn(Index(addr)) && LeavesCounter(h, Index(addr))
    ensures var i := Index(addr);
      CpuRead(rom, Run(rom, s, h), addr).1
      == rom.display[(0x7FF - Counter(s, i) + ReadsNaming(h, i)) % DISPLAY_SIZE]
  {
    hide Run, Counter, LeavesCounter, Registers.MusicOn, ReadsNaming;
    var i := Index(addr);
    var t := Run(rom, s, h);
    CounterTracksReads(rom, s, h, i);
    DisplayRead(rom, t, addr);
    EndRelative(Counter(s, i), ReadsNaming(h, i));
  }

  lemma DisplayRead(rom: Rom, s: Registers, addr: u16)
    requires rom.Valid() && s.Valid() && RegisterRead(addr) && Function(addr) == 1
    ensures CpuRead(rom, s, addr).1 == rom.display[GfxAddr(Counter(s, Index(addr)))]
  {
    hide Touch, FetcherClock;
    TouchKeeps(s, addr);
  }

  lemma EndRelative(c: u16, r: nat)
    ensures 0x7FF - (c - r) % U16 % 0x800 == (0x7FF - c + r) % 0x800
  {
    ModOfMod(c - r, 0x800, 0x20);
    Complement(c - r, 0x800);
  }

  lemma Complement(x: int, m: nat)
    requires m > 0
    ensures (m - 1 - x) % m == m - 1 - x % m
  {
    ModUnique(m - 1 - x, m, -(x / m), m - 1 - x % m);
  }

  // ---- The flag register ----

  /** The flag a fetcher's comparisons leave: set at top, cleared at bottom, held in between. */
  function FlagAfter(flag: bool, low: u8, top: u8, bottom: u8): bool
  {
    if low == top then true else if low == bottom then false else flag
  }

  /** A flag is moved only by register reads naming its fetcher and by writes of its top. */
  lemma FlagStep(rom: Rom, s: Registers, a: Access, i: nat)
    requires rom.Valid() && s.Valid() && i < FETCHERS
    ensures Step(rom, s, a).flags[i]
            == if Names(a, i) then FlagAfter(s.flags[i], s.low[i], s.tops[i], s.bottoms[i])
               else if a.Write? && RegisterWrite(a.addr) && Index(a.addr) == i && Function(a.addr) == 0 then false
               else s.flags[i]
  {
    hide Touch, Answer;
    TouchKeeps(s, a.addr);
  }

  /** A write of fetcher i's top, bottom, low or high byte. */
  predicate SetsFetcher(a: Access, i: nat)
  {
    a.Write? && RegisterWrite(a.addr) && Index(a.addr) == i && Function(a.addr) < 4
  }

  predicate LeavesFetcher(h: seq<Access>, i: nat) { forall k | 0 <= k < |h| :: !SetsFetcher(h[k], i) }

  /**
   The flag after n reads naming a fetcher whose low byte started at `low`: unmoved until top or bottom has been
   met, and then set exactly if top was met no longer ago than bottom.
   */
  function FlagAfterReads(flag: bool, low: u8, top: u8, bottom: u8, n: nat): bool
  {
    if n == 0 then flag else
    var last := low - (n - 1);
    var sinceTop, sinceBottom := (top - last) % 0x100, (bottom - last) % 0x100;
    if sinceTop >= n && sinceBottom >= n then flag else sinceTop <= sinceBottom
  }

  lemma FlagReadStep(flag: bool, low: u8, top: u8, bottom: u8, n: nat)
    ensures FlagAfter(FlagAfterReads(flag, low, top, bottom, n), (low - n) % 0x100, top, bottom)
            == FlagAfterReads(flag, low, top, bottom, n + 1)
  {
    OneFurther(low - n, top);
    OneFurther(low - n, bottom);
  }

  /** How long ago a value was met, one step further down. */
  lemma OneFurther(last: int, value: u8)
    ensures (value - last) % 0x100 == if last % 0x100 == value then 0 else (value - (last + 1)) % 0x100 + 1
  {
  }

  /** A fetcher between writes of its registers: its low byte and its flag after any history. */
  lemma {:induction false} FlagTracksReads(rom: Rom, s: Registers, h: seq<Access>, i: nat)
    requires rom.Valid() && s.Valid() && i < FETCHERS && !s.MusicOn(i) && LeavesFetcher(h, i)
    ensures var t, n := Run(rom, s, h), ReadsNaming(h, i);
      && t.tops[i] == s.tops[i] && t.bottoms[i] == s.bottoms[i] && !t.MusicOn(i)
      && t.low[i] == (s.low[i] - n) % 0x100
      && t.flags[i] == FlagAfterReads(s.flags[i], s.low[i], s.tops[i], s.bottoms[i], n)
  {
    hide Step, SetsFetcher, Names, FlagAfter, FlagAfterReads;
    if h == [] {
      NothingRead(s.flags[i], s.low[i], s.tops[i], s.bottoms[i]);
    } else {
      var before, a := h[..|h| - 1], h[|h| - 1];
      FlagTracksReads(rom, s, before, i);
      var t, n := Run(rom, s, before), ReadsNaming(before, i);
      FlagStep(rom, t, a, i);
      FetcherStep(rom, t, a, i);
      FlagReadStep(s.flags[i], s.low[i], s.tops[i], s.bottoms[i], n);
      LowSteps(s.low[i], n);
    }
  }

  lemma NothingRead(flag: bool, low: u8, top: u8, bottom: u8)
    ensures FlagAfterReads(flag, low, top, bottom, 0) == flag
  {
  }

  lemma LowSteps(low: u8, n: nat)
    ensures Add8((low - n) % 0x100, -1) == (low - (n + 1)) % 0x100
    ensures low % 0x100 == low
  {
  }

  lemma FetcherStep(rom: Rom, s: Registers, a: Access, i: nat)
    requires rom.Valid() && s.Valid() && i < FETCHERS && !s.MusicOn(i) && !SetsFetcher(a, i)
    ensures var t := Step(rom, s, a);
      && t.tops[i] == s.tops[i] && t.bottoms[i] == s.bottoms[i] && !t.MusicOn(i)
      && t.low[i] == (if Names(a, i) then Add8(s.low[i], -1) else s.low[i])
      && (a.Write? && RegisterWrite(a.addr) && Index(a.addr) == i ==> Function(a.addr) != 0)
  {
    hide Touch, Answer;
    TouchKeeps(s, a.addr);
  }

  /** The next windowed read after h, any accesses interleaved: the streamed byte if the window is open, else 0. */
  lemma WindowedStream(rom: Rom, s: Registers, h: seq<Access>, addr: u16)
    requires rom.Valid() && s.Valid() && RegisterRead(addr) && Function(addr) == 2
    requires !s.MusicOn(Index(addr)) && LeavesFetcher(h, Index(addr))
    ensures var i, r := Index(addr), ReadsNaming(h, Index(addr));
      CpuRead(rom, Run(rom, s, h), addr).1
      == if FlagAfterReads(s.flags[i], s.low[i], s.tops[i], s.bottoms[i], r + 1)
         then rom.display[(0x7FF - Counter(s, i) + r) % DISPLAY_SIZE] else 0
  {
    hide Run, CpuRead, Counter, LeavesFetcher, Registers.MusicOn, ReadsNaming, FlagAfter, FlagAfterReads;
    var i, r := Index(addr), ReadsNaming(h, Index(addr));
    LeavesBoth(h, i);
    CounterTracksReads(rom, s, h, i);
    FlagTracksReads(rom, s, h, i);
    WindowedRead(rom, Run(rom, s, h), addr);
    FlagReadStep(s.flags[i], s.low[i], s.tops[i], s.bottoms[i], r);
    EndRelative(Counter(s, i), r);
  }

  lemma LeavesBoth(h: seq<Access>, i: nat)
    requires LeavesFetcher(h, i)
    ensures LeavesCounter(h, i)
  {
    assert forall k | 0 <= k < |h| :: SetsCounter(h[k], i) ==> SetsFetcher(h[k], i);
  }

  lemma WindowedRead(rom: Rom, s: Registers, addr: u16)
    requires rom.Valid() && s.Valid() && RegisterRead(addr) && Function(addr) == 2
    ensures var i := Index(addr);
      CpuRead(rom, s, addr).1
      == if FlagAfter(s.flags[i], s.low[i], s.tops[i], s.bottoms[i]) then rom.display[GfxAddr(Counter(s, i))] else 0
  {
    hide Touch, FetcherClock;
    TouchKeeps(s, addr);
  }

  // ---- The noise generator ----

  function Iterate(n: nat, r: bv8): bv8
  {
    if n == 0 then r else Clock(Iterate(n - 1, r))
  }

  predicate ResetsNoise(a: Access) { a.Write? && RegisterWrite(a.addr) && Function(a.addr) == 6 }

  /** Accesses since the noise generator was last reset, or since the start. */
  function SinceReset(h: seq<Access>): nat
  {
    if h == [] || ResetsNoise(h[|h| - 1]) then 0 else SinceReset(h[..|h| - 1]) + 1
  }

  /** Every access clocks the generator once, so its value depends only on how many there were. */
  lemma {:induction false} NoiseCountsAccesses(rom: Rom, s: Registers, h: seq<Access>)
    requires rom.Valid() && s.Valid() && s.rng == 1
    ensures Run(rom, s, h).rng == Iterate(SinceReset(h), 1)
  {
    hide Clock, Step;
    if h != [] {
      NoiseCountsAccesses(rom, s, h[..|h| - 1]);
      NoiseStep(rom, Run(rom, s, h[..|h| - 1]), h[|h| - 1]);
    }
  }

  lemma NoiseStep(rom: Rom, s: Registers, a: Access)
    requires rom.Valid() && s.Valid()
    ensures Step(rom, s, a).rng == if ResetsNoise(a) then 1 else Clock(s.rng)
  {
    hide Touch, Clock, Answer;
    TouchKeeps(s, a.addr);
  }

  /** The lock-up value is reached only from itself. */
  lemma {:induction false} NeverLocksUp(n: nat, r: bv8)
    requires r != 0xFF
    ensures Iterate(n, r) != 0xFF
  {
    if n > 0 {
      NeverLocksUp(n - 1, r);
    }
  }

  lemma {:induction false} IterateAdds(a: nat, b: nat, r: bv8)
    ensures Iterate(a + b, r) == Iterate(a, Iterate(b, r))
  {
    if a > 0 {
      IterateAdds(a - 1, b, r);
    }
  }

  lemma ClockInjective(x: bv8, y: bv8)
    requires Clock(x) == Clock(y)
    ensures x == y
  {
  }

  lemma {:induction false} IterateInjective(n: nat, x: bv8, y: bv8)
    requires Iterate(n, x) == Iterate(n, y)
    ensures x == y
  {
    hide Clock;
    if n > 0 {
      ClockInjective(Iterate(n - 1, x), Iterate(n - 1, y));
      IterateInjective(n - 1, x, y);
    }
  }

  const PERIOD: nat := 255

  /** The value after each fifteen clocks of one period, from 1 back to 1. */
  const EVERY_FIFTEENTH: seq<bv8> := [
    0x01, 0x39, 0xB8, 0x8F, 0xD9, 0xF5, 0x9A, 0x12, 0x2E, 0x38, 0x9D, 0xEB, 0x11, 0x40, 0x95, 0xC5, 0x35, 0x01]

  function Clock3(r: bv8): bv8 { Clock(Clock(Clock(r))) }

  function Clock15(r: bv8): bv8 { Clock3(Clock3(Clock3(Clock3(Clock3(r))))) }

  lemma IterateThree(r: bv8)
    ensures Iterate(3, r) == Clock3(r)
  {
    hide Clock;
    assert Iterate(1, r) == Clock(Iterate(0, r));
  }

  lemma IterateFifteen(r: bv8)
    ensures Iterate(15, r) == Clock15(r)
  {
    hide Clock3, Clock;
    var a := Clock3(r);
    IterateThree(r);
    IterateThree(a);
    IterateAdds(3, 3, r);
    IterateThree(Clock3(a));
    IterateAdds(3, 6, r);
    IterateThree(Clock3(Clock3(a)));
    IterateAdds(3, 9, r);
    IterateThree(Clock3(Clock3(Clock3(a))));
    IterateAdds(3, 12, r);
  }

  lemma FifteenClocks(k: nat)
    requires k < 17
    ensures Iterate(15, EVERY_FIFTEENTH[k]) == EVERY_FIFTEENTH[k + 1]
  {
    hide Clock, Clock15, Iterate;
    IterateFifteen(EVERY_FIFTEENTH[k]);
    Orbit();
  }

  lemma Orbit()
    ensures Clock15(0x01) == 0x39 && Clock15(0x39) == 0xB8 && Clock15(0xB8) == 0x8F
    ensures Clock15(0x8F) == 0xD9 && Clock15(0xD9) == 0xF5 && Clock15(0xF5) == 0x9A
    ensures Clock15(0x9A) == 0x12 && Clock15(0x12) == 0x2E && Clock15(0x2E) == 0x38
    ensures Clock15(0x38) == 0x9D && Clock15(0x9D) == 0xEB && Clock15(0xEB) == 0x11
    ensures Clock15(0x11) == 0x40 && Clock15(0x40) == 0x95 && Clock15(0x95) == 0xC5
    ensures Clock15(0xC5) == 0x35 && Clock15(0x35) == 0x01
  {
  }

  lemma {:induction false} Fifteens(k: nat)
    requires k <= 17
    ensures Iterate(15 * k, 1) == EVERY_FIFTEENTH[k]
  {
    hide Clock;
    if k > 0 {
      Fifteens(k - 1);
      FifteenClocks(k - 1);
      IterateAdds(15, 15 * (k - 1), 1);
    }
  }

  lemma PeriodReturns()
    ensures Iterate(PERIOD, 1) == 1
  {
    Fifteens(17);
  }

  /** 255 = 3 * 5 * 17: none of its largest proper divisors is a period. */
  lemma NoShorterPeriod()
    ensures Iterate(15, 1) != 1 && Iterate(51, 1) != 1 && Iterate(85, 1) != 1
  {
    hide Clock, Iterate;
    Fifteens(1);
    Fifteens(3);
    IterateAdds(6, 45, 1);
    SixClocks();
    Fifteens(5);
    IterateAdds(10, 75, 1);
    TenClocks();
  }

  lemma SixClocks()
    ensures Iterate(6, EVERY_FIFTEENTH[3]) == 0xF3
  {
    assert Iterate(6, 0x8F) == 0xF3;
  }

  lemma TenClocks()
    ensures Iterate(10, EVERY_FIFTEENTH[5]) == 0x94
  {
    assert Iterate(10, 0xF5) == 0x94;
  }

  lemma {:induction false} WholePeriods(n: nat, p: nat)
    requires p > 0 && n % p == 0 && Iterate(p, 1) == 1
    ensures Iterate(n, 1) == 1
  {
    hide Clock;
    if n > 0 {
      ModShift(n - p, p, 1);
      MultipleIsLarge(n, p);
      WholePeriods(n - p, p);
      IterateAdds(p, n - p, 1);
    }
  }

  lemma MultipleIsLarge(n: nat, p: nat)
    requires 0 < n && 0 < p && n % p == 0
    ensures n >= p
  {
  }

  lemma {:induction false} NoisePeriod(n: nat)
    ensures Iterate(n, 1) == Iterate(n % PERIOD, 1)
  {
    hide Clock;
    if n >= PERIOD {
      PeriodReturns();
      IterateAdds(n - PERIOD, PERIOD, 1);
      NoisePeriod(n - PERIOD);
    }
  }

  function Gcd(a: nat, b: nat): (r: nat)
    requires a > 0 && b > 0
    ensures 0 < r <= a && r <= b && a % r == 0 && b % r == 0
    decreases a + b
  {
    if a == b then a
    else if a < b then
      var r := Gcd(a, b - a);
      DividesSum(a, b - a, r);
      r
    else
      var r := Gcd(a - b, b);
      DividesSum(a - b, b, r);
      r
  }

  lemma DividesSum(a: nat, b: nat, r: nat)
    requires r > 0 && a % r == 0 && b % r == 0
    ensures (a + b) % r == 0
  {
    assert a + b == r * (a / r + b / r);
    ModUnique(a + b, r, a / r + b / r, 0);
  }

  /** If a and b clocks both come back to 1, so do gcd(a, b). */
  lemma {:induction false} CommonPeriod(a: nat, b: nat)
    requires a > 0 && b > 0 && Iterate(a, 1) == 1 && Iterate(b, 1) == 1
    ensures Iterate(Gcd(a, b), 1) == 1
    decreases a + b
  {
    hide Clock;
    if a < b {
      IterateAdds(a, b - a, 1);
      IterateInjective(a, Iterate(b - a, 1), 1);
      CommonPeriod(a, b - a);
    } else if a > b {
      IterateAdds(b, a - b, 1);
      IterateInjective(b, Iterate(a - b, 1), 1);
      CommonPeriod(a - b, b);
    }
  }

  /** A proper divisor of 255 divides 15, 51 or 85. */
  lemma ProperDivisor(g: nat)
    requires 0 < g < PERIOD && PERIOD % g == 0
    ensures 15 % g == 0 || 51 % g == 0 || 85 % g == 0
  {
    assert g <= 85;
  }

  /** The full cycle: two counts of clocks give the same noise if and only if they agree modulo 255. */
  lemma FullPeriod(a: nat, b: nat)
    ensures Iterate(a, 1) == Iterate(b, 1) <==> a % PERIOD == b % PERIOD
  {
    hide Clock;
    NoisePeriod(a);
    NoisePeriod(b);
    if a % PERIOD < b % PERIOD && Iterate(a, 1) == Iterate(b, 1) {
      NoEarlyReturn(a % PERIOD, b % PERIOD);
    } else if b % PERIOD < a % PERIOD && Iterate(a, 1) == Iterate(b, 1) {
      NoEarlyReturn(b % PERIOD, a % PERIOD);
    }
  }

  lemma NoEarlyReturn(a: nat, b: nat)
    requires a < b < PERIOD
    ensures Iterate(a, 1) != Iterate(b, 1)
  {
    hide Clock, Gcd;
    if Iterate(a, 1) == Iterate(b, 1) {
      var d := b - a;
      IterateAdds(a, d, 1);
      IterateInjective(a, 1, Iterate(d, 1));
      PeriodReturns();
      CommonPeriod(d, PERIOD);
      var g := Gcd(d, PERIOD);
      ProperDivisor(g);
      NoShorterPeriod();
      if 15 % g == 0 {
        WholePeriods(15, g);
      } else if 51 % g == 0 {
        WholePeriods(51, g);
      } else {
        WholePeriods(85, g);
      }
    }
  }
}
