/** The DPC+ board's registers: data fetchers as counters split over two bytes, fractional fetchers, noise. */
module DpcPlus {
  import opened Bytes
  import opened Coprocessor
  import opened Words

  const DATA_SIZE: nat := 0x1000
  const FETCHERS: nat := 8

  /** A pointer masked to the size of the data. */
  function InData(p: nat): (r: nat)
    ensures r < DATA_SIZE
  {
    if p < DATA_SIZE then p else InData(p - DATA_SIZE)
  }

  /** A data fetcher: `low` and `hi` hold a 16-bit pointer, `top` and `bottom` its window. */
  datatype Fetcher = Fetcher(low: u8, hi: u8, top: u8, bottom: u8)
  {
    function Inc(): Fetcher
    {
      var l := Sum8(low, 1);
      this.(low := l, hi := if l == 0 then Sum8(hi, 1) else hi)
    }

    function Dec(): Fetcher
    {
      var l := Sub8(low, 1);
      this.(low := l, hi := if l == 0xFF then Sub8(hi, 1) else hi)
    }

    function Pointer(): u16 { Word(low, hi) }

    function Addr(): (r: nat)
      ensures r < DATA_SIZE
    {
      InData(Pointer())
    }

    predicate InWindow()
    {
      Sub8(top, low) > Sub8(top, bottom)
    }

    function At(pointer: u16): Fetcher { this.(low := Lo(pointer), hi := Hi(pointer)) }
  }

  /** A fractional fetcher: a 12-bit pointer and an 8-bit accumulator of fractions. */
  datatype Fractional = Fractional(low: u8, hi: u8, increment: u8, count: u8)
  {
    function Inc(): Fractional
    {
      var overflowed, c := count + increment > 0xFF, Sum8(count, increment);
      if overflowed || c < increment then
        var l := Sum8(low, 1);
        this.(count := c, low := l, hi := if l == 0 then Sum8(hi, 1) % 0x10 else hi)
      else this.(count := c)
    }

    function Addr(): (r: nat)
      ensures r < DATA_SIZE
    {
      InData(Word(low, hi))
    }
  }

  datatype Music = Music(waveform: u8, freq: u32, count: u32)

  datatype Registers = Registers(
    data: seq<u8>,
    freqTable: seq<u8>,
    fetchers: seq<Fetcher>,
    fractionals: seq<Fractional>,
    music: seq<Music>,
    rng: bv32,
    fastFetch: bool,
    beats: u32)
  {
    ghost predicate Valid()
    {
      && |data| == DATA_SIZE && |freqTable| == 1024
      && |fetchers| == FETCHERS && |fractionals| == FETCHERS && |music| == 3
      && beats < 59
      && (forall i | 0 <= i < FETCHERS :: fractionals[i].hi < 0x10)
    }
  }

  // ---- The noise generator ----

  const MAGIC: bv32 := 0x10AD_AB1E
  const SEED: bv32 := 0x2B43_5044

  function Next(v: bv32): bv32
  {
    if v & 0x400 != 0 then MAGIC ^ ((v >> 11) | (v << 21)) else (v >> 11) | (v << 21)
  }

  function Prev(v: bv32): bv32
  {
    if v & 0x8000_0000 != 0 then ((MAGIC & v) << 11) | ((MAGIC ^ v) >> 21) else (v << 11) | (v >> 21)
  }

  // ---- Registers ----

  function MusicSum(s: Registers): u8
    requires s.Valid()
  {
    (MusicSample(s, 0) + MusicSample(s, 1) + MusicSample(s, 2)) % 0x100
  }

  function MusicSample(s: Registers, k: nat): u8
    requires s.Valid() && k < 3
  {
    s.data[(s.music[k].waveform * 32 + s.music[k].count / 0x800_0000) % DATA_SIZE]
  }

  function ReadRegister(s: Registers, a: nat): (Registers, u8)
    requires s.Valid()
  {
    var i := a % 8;
    if a == 0x00 then (s.(rng := Next(s.rng)), NoiseByte(Next(s.rng), 0))
    else if a == 0x01 then (s.(rng := Prev(s.rng)), NoiseByte(Prev(s.rng), 0))
    else if 0x02 <= a <= 0x04 then (s, NoiseByte(s.rng, a - 1))
    else if a == 0x05 then (s, MusicSum(s))
    else if 0x08 <= a <= 0x0F then
      (s.(fetchers := s.fetchers[i := s.fetchers[i].Inc()]), s.data[s.fetchers[i].Addr()])
    else if 0x10 <= a <= 0x17 then
      (s.(fetchers := s.fetchers[i := s.fetchers[i].Inc()]),
       if s.fetchers[i].InWindow() then s.data[s.fetchers[i].Addr()] else 0)
    else if 0x18 <= a <= 0x1F then
      (s.(fractionals := s.fractionals[i := s.fractionals[i].Inc()]), s.data[s.fractionals[i].Addr()])
    else if 0x20 <= a <= 0x23 then (s, if s.fetchers[i].InWindow() then 0xFF else 0)
    else (s, 0)
  }

  /** Byte k of the noise register, least significant first. */
  function NoiseByte(v: bv32, k: nat): u8
    requires k < 4
  {
    var shifted := if k == 0 then v else if k == 1 then v >> 8 else if k == 2 then v >> 16 else v >> 24;
    (shifted & 0xFF) as int
  }

  function WithNoiseByte(v: bv32, k: nat, val: u8): bv32
    requires k < 4
  {
    var b := val as bv32;
    if k == 0 then (v & 0xFFFF_FF00) | b
    else if k == 1 then (v & 0xFFFF_00FF) | (b << 8)
    else if k == 2 then (v & 0xFF00_FFFF) | (b << 16)
    else (v & 0x00FF_FFFF) | (b << 24)
  }

  /** Little-endian word of the frequency table. */
  function Frequency(table: seq<u8>, index: u8): u32
    requires |table| == 1024
  {
    var word := table[index * 4..index * 4 + 4];
    WordBound(word);
    LeValue(word)
  }

  /** What a register write does to the registers; $59 and $5A, the service calls, are the board's. */
  function WriteRegister(s: Registers, a: nat, val: u8): Registers
    requires s.Valid()
  {
    var i := a % 8;
    if 0x28 <= a <= 0x2F then s.(fractionals := s.fractionals[i := s.fractionals[i].(low := val, count := 0)])
    else if 0x30 <= a <= 0x37 then s.(fractionals := s.fractionals[i := s.fractionals[i].(hi := val % 0x10)])
    else if 0x38 <= a <= 0x3F then
      s.(fractionals := s.fractionals[i := s.fractionals[i].(increment := val, count := 0)])
    else if 0x40 <= a <= 0x47 then s.(fetchers := s.fetchers[i := s.fetchers[i].(top := val)])
    else if 0x48 <= a <= 0x4F then s.(fetchers := s.fetchers[i := s.fetchers[i].(bottom := val)])
    else if 0x50 <= a <= 0x57 then s.(fetchers := s.fetchers[i := s.fetchers[i].(low := val)])
    else if a == 0x58 then s.(fastFetch := val == 0)
    else if 0x5D <= a <= 0x5F then s.(music := s.music[a - 0x5D := s.music[a - 0x5D].(waveform := val % 0x80)])
    else if 0x60 <= a <= 0x67 then
      var f := s.fetchers[i].Dec();
      s.(fetchers := s.fetchers[i := f], data := s.data[f.Addr() := val])
    else if 0x68 <= a <= 0x6F then s.(fetchers := s.fetchers[i := s.fetchers[i].(hi := val)])
    else if a == 0x70 then s.(rng := SEED)
    else if 0x71 <= a <= 0x74 then s.(rng := WithNoiseByte(s.rng, a - 0x71, val))
    else if 0x75 <= a <= 0x77 then
      s.(music := s.music[a - 0x75 := s.music[a - 0x75].(freq := Frequency(s.freqTable, val))])
    else if 0x78 <= a <= 0x7F then
      s.(fetchers := s.fetchers[i := s.fetchers[i].Inc()], data := s.data[s.fetchers[i].Addr() := val])
    else s
  }

  /** One CPU cycle: every 59th advances the three music fetchers. */
  function Tick(s: Registers): Registers
    requires s.Valid()
  {
    var beats := Add32(s.beats, 1);
    if beats % 59 == 0 then
      s.(beats := 0, music := seq(3, k requires 0 <= k < 3 => Advanced(s.music[k])))
    else s.(beats := beats)
  }

  function Advanced(m: Music): Music { m.(count := Add32(m.count, m.freq)) }

  // ---- The board around the registers ----

  const DRIVER_SIZE: nat := 3072
  const FREQ_SIZE: nat := 1024
  const BANK_SIZE: nat := 4096
  const OVERHEAD: nat := DRIVER_SIZE + DATA_SIZE + FREQ_SIZE

  /** The four segments of the image. */
  datatype Flash = Flash(driver: seq<u8>, custom: seq<u8>, data: seq<u8>, freq: seq<u8>)

  datatype Board = Board(
    flash: Flash,
    driverRam: seq<u8>,
    regs: Registers,
    bank: nat,
    ldaPending: bool,
    parameters: seq<u8>)
  {
    ghost predicate Valid()
    {
      && |flash.driver| == DRIVER_SIZE == |driverRam| && |flash.data| == DATA_SIZE && |flash.freq| == FREQ_SIZE
      && |flash.custom| % BANK_SIZE == 0 && regs.Valid() && bank < 6 && |parameters| <= 4
    }
  }

  predicate Accepts(size: nat)
  {
    size > OVERHEAD && (size - OVERHEAD) % BANK_SIZE == 0 && (size - OVERHEAD) / BANK_SIZE <= 8
  }

  function Split(rom: seq<u8>): Flash
    requires Accepts(|rom|)
  {
    var end := |rom| - DATA_SIZE - FREQ_SIZE;
    Flash(rom[..DRIVER_SIZE], rom[DRIVER_SIZE..end], rom[end..end + DATA_SIZE], rom[end + DATA_SIZE..])
  }

  function New(rom: seq<u8>): Board
    requires Accepts(|rom|)
  {
    var flash := Split(rom);
    Board(flash, flash.driver,
          Registers(flash.data, flash.freq, seq(8, i => Fetcher(0, 0, 0, 0)), seq(8, i => Fractional(0, 0, 0, 0)),
                    seq(3, i => Music(0, 0, 0)), SEED, false, 0),
          0, false, [])
  }

  function Get(s: seq<u8>, i: nat): u8 { if i < |s| then s[i] else 0 }

  predicate IsHotspot(addr: u16) { 0x1FF6 <= addr % 0x2000 <= 0x1FFB }

  function Switched(b: Board, addr: u16): Board
    requires IsHotspot(addr)
  {
    b.(bank := addr % 0x2000 - 0x1FF6)
  }

  /** Reads through the window: bank hotspots answer 0, ROM bytes may redirect to a register, the rest are registers. */
  function CpuRead(b: Board, addr: u16): (Board, u8)
    requires b.Valid()
  {
    var a := addr % 0x1000;
    if IsHotspot(addr) then (Switched(b, addr), 0)
    else if a < 0x80 then
      var (r, v) := ReadRegister(b.regs, a);
      (b.(regs := r), v)
    else
      var data := Get(b.flash.custom, b.bank * BANK_SIZE + a);
      if b.regs.fastFetch && b.ldaPending && data < 0x28 then
        var (r, v) := ReadRegister(b.regs, data);
        (b.(regs := r, ldaPending := false), v)
      else (b.(ldaPending := b.regs.fastFetch && data == 0xA9), data)
  }

  /** `$5A`, service 1: data ROM to data RAM, whatever lies inside the data ROM. */
  function Copied(data: seq<u8>, rom: seq<u8>, src: nat, base: nat, n: nat): (r: seq<u8>)
    requires |data| == DATA_SIZE
    ensures |r| == DATA_SIZE
  {
    if n == 0 then data else
    var before := Copied(data, rom, src, base, n - 1);
    if src + (n - 1) < |rom| then before[(base + (n - 1)) % DATA_SIZE := rom[src + (n - 1)]] else before
  }

  /** Where service 2 stores its i-th byte: both bytes of the pointer advance. */
  function FillAddr(f: Fetcher, i: nat): (r: nat)
    ensures r < DATA_SIZE
  {
    Word(Add8(f.low, i), Add8(f.hi, i)) % DATA_SIZE
  }

  function Filled(data: seq<u8>, f: Fetcher, val: u8, n: nat): (r: seq<u8>)
    requires |data| == DATA_SIZE
    ensures |r| == DATA_SIZE
  {
    if n == 0 then data else Filled(data, f, val, n - 1)[FillAddr(f, n - 1) := val]
  }

  /** The board after the ARM ran: it reaches every segment, the ROM ones included, and nothing else. */
  function ArmRan(b: Board, arm: Arm): Board
  {
    b.(flash := Flash(Left(arm, 0, b.flash.driver), Left(arm, 1, b.flash.custom), Left(arm, 2, b.flash.data),
                      Left(arm, 3, b.flash.freq)),
       driverRam := Left(arm, 4, b.driverRam),
       regs := b.regs.(data := Left(arm, 5, b.regs.data), freqTable := Left(arm, 6, b.regs.freqTable)))
  }

  /** A service call: clear, copy, fill, or run the ARM; other codes are ignored. */
  function Serve(b: Board, code: u8, arm: Arm): Board
    requires b.Valid()
  {
    if code >= 254 then ArmRan(b, arm)
    else if code > 2 then b
    else if code == 0 || |b.parameters| != 4 then b.(parameters := [])
    else
      var p, f := b.parameters, b.regs.fetchers[b.parameters[2] % 8];
      var data :=
        if code == 1 then
          Copied(b.regs.data, b.flash.data, Max(Word(p[0], p[1]), |b.flash.custom|) - |b.flash.custom|, f.Addr(), p[3])
        else Filled(b.regs.data, f, p[0], p[3]);
      b.(regs := b.regs.(data := data), parameters := [])
  }

  /** A register write: a parameter byte, a service call, or one that concerns the registers alone. */
  function RegisterWritten(b: Board, a: nat, val: u8, arm: Arm): Board
    requires b.Valid()
  {
    if a == 0x59 then (if |b.parameters| < 4 then b.(parameters := b.parameters + [val]) else b)
    else if a == 0x5A then Serve(b, val, arm)
    else b.(regs := WriteRegister(b.regs, a, val))
  }

  function CpuWrite(b: Board, addr: u16, val: u8, arm: Arm): Board
    requires b.Valid()
  {
    var a := addr % 0x1000;
    if IsHotspot(addr) then Switched(b, addr)
    else if 0x28 <= a <= 0x7F then RegisterWritten(b, a, val, arm)
    else b
  }

  /** Writes that start the ARM. */
  predicate StartsArm(addr: u16, val: u8) { addr % 0x1000 == 0x5A && val >= 254 }
}

module DpcPlusTheorems {
  import opened Bits
  import opened Coprocessor
  import opened Words
  import opened DpcPlus
  import opened RingMemory

  // ---- Fetcher pointers count in 16 bits ----

  lemma IncIsPlusOne(f: Fetcher)
    ensures f.Inc() == f.At(Sum16(f.Pointer(), 1))
  {
  }

  lemma DecIsMinusOne(f: Fetcher)
    ensures f.Dec() == f.At(Sub16(f.Pointer(), 1))
  {
  }

  lemma AtPointer(f: Fetcher, p: u16)
    ensures f.At(p).Pointer() == p && f.At(f.Pointer()) == f
  {
  }

  // ---- The board's hooks ----

  lemma NewIsValid(rom: seq<u8>)
    requires Accepts(|rom|)
    ensures New(rom).Valid()
  {
    var flash := Split(rom);
    assert |flash.custom| == |rom| - OVERHEAD;
  }

  /** The segments of a new board are the image. */
  lemma SplitJoins(rom: seq<u8>)
    requires Accepts(|rom|)
    ensures var f := New(rom).flash; f.driver + f.custom + f.data + f.freq == rom
  {
  }

  lemma CpuReadKeepsValid(b: Board, addr: u16)
    requires b.Valid()
    ensures CpuRead(b, addr).0.Valid() && CpuRead(b, addr).0.flash == b.flash
  {
    hide ReadRegister, Registers.Valid, Get;
    var a, data := addr % 0x1000, Get(b.flash.custom, b.bank * BANK_SIZE + addr % 0x1000);
    ReadKeepsValid(b.regs, a);
    ReadKeepsValid(b.regs, data);
  }

  /** Whatever the ARM leaves behind; only it can touch the image. */
  lemma CpuWriteKeepsValid(b: Board, addr: u16, val: u8, arm: Arm)
    requires b.Valid()
    ensures CpuWrite(b, addr, val, arm).Valid()
    ensures !StartsArm(addr, val) ==> CpuWrite(b, addr, val, arm).flash == b.flash
  {
    hide WriteRegister, Copied, Filled, Left;
    RegisterWriteKeepsValid(b.regs, addr % 0x1000, val);
  }

  /** FastFetch: once the opcode byte $A9 was read, whatever was pending, the next ROM byte below $28 is answered by
      that register. */
  lemma FastFetchRedirects(b: Board, addr: u16, next: u16)
    requires b.Valid() && b.regs.fastFetch && !IsHotspot(addr) && !IsHotspot(next)
    requires addr % 0x1000 >= 0x80 && next % 0x1000 >= 0x80
    requires Get(b.flash.custom, b.bank * BANK_SIZE + addr % 0x1000) == 0xA9
    ensures var c, operand := CpuRead(b, addr).0, Get(b.flash.custom, b.bank * BANK_SIZE + next % 0x1000);
      && c.Valid() && c.regs == b.regs
      && (operand < 0x28 ==> (CpuRead(c, next).0.regs, CpuRead(c, next).1) == ReadRegister(b.regs, operand))
      && (operand >= 0x28 ==> CpuRead(c, next).0.regs == b.regs && CpuRead(c, next).1 == operand)
  {
    hide ReadRegister, Get;
    CpuReadKeepsValid(b, addr);
  }

  /** The copy service: the n bytes from the source that exist, at consecutive addresses; nothing else moves. */
  lemma {:induction false} CopiedExactly(data: seq<u8>, rom: seq<u8>, src: nat, base: nat, n: nat, x: nat)
    requires |data| == DATA_SIZE && n <= 255 && x < DATA_SIZE
    ensures var k := (x - base) % DATA_SIZE;
      Copied(data, rom, src, base, n)[x] == if k < n && src + k < |rom| then rom[src + k] else data[x]
  {
    if n > 0 {
      CopiedExactly(data, rom, src, base, n - 1, x);
      var at := (base + (n - 1)) % DATA_SIZE;
      AddReduced(base + (n - 1), 0 - base, DATA_SIZE);
      if x != at && (x - base) % DATA_SIZE == n - 1 {
        SameResidueNear(x - base, at - base, DATA_SIZE);
      }
    }
  }

  /** The fill service: exactly the addresses of its n steps hold the value, the others keep theirs. */
  lemma {:induction false} FilledExactly(data: seq<u8>, f: Fetcher, val: u8, n: nat, x: nat)
    requires |data| == DATA_SIZE && x < DATA_SIZE
    ensures Filled(data, f, val, n)[x] == if exists i: nat :: i < n && FillAddr(f, i) == x then val else data[x]
  {
    hide FillAddr;
    if n > 0 {
      FilledExactly(data, f, val, n - 1, x);
      if FillAddr(f, n - 1) != x && exists i: nat :: i < n && FillAddr(f, i) == x {
        var i: nat :| i < n && FillAddr(f, i) == x;
        assert i < n - 1;
      }
    }
  }

  // ---- Push, write and read as whole sequences ----

  lemma RegisterWriteKeepsValid(s: Registers, a: nat, val: u8)
    requires s.Valid()
    ensures WriteRegister(s, a, val).Valid()
  {
    hide Fetcher.Inc, Fetcher.Dec, WithNoiseByte, Frequency;
  }

  /** Writes of vs through one register, in order. */
  function WriteAll(s: Registers, a: nat, vs: seq<u8>): (r: Registers)
    requires s.Valid()
    ensures r.Valid()
  {
    if vs == [] then s else
    var t := WriteAll(s, a, vs[..|vs| - 1]);
    RegisterWriteKeepsValid(t, a, vs[|vs| - 1]);
    WriteRegister(t, a, vs[|vs| - 1])
  }

  /** The state after n reads through a register, and the bytes they gave. */
  function ReadAll(s: Registers, a: nat, n: nat): (r: (Registers, seq<u8>))
    requires s.Valid()
    ensures r.0.Valid() && |r.1| == n
  {
    if n == 0 then (s, []) else
    var (t, vs) := ReadAll(s, a, n - 1);
    ReadKeepsValid(t, a);
    var (u, v) := ReadRegister(t, a);
    (u, vs + [v])
  }

  lemma ReadKeepsValid(s: Registers, a: nat)
    requires s.Valid()
    ensures ReadRegister(s, a).0.Valid()
  {
    hide Next, Prev, NoiseByte, MusicSum, Fetcher.Inc, Fetcher.InWindow;
  }

  // ---- A fetcher stepped many times ----

  /** A fetcher after n steps up. */
  function Incs(f: Fetcher, n: nat): Fetcher { if n == 0 then f else Incs(f, n - 1).Inc() }

  /** A fetcher after n steps down. */
  function Decs(f: Fetcher, n: nat): Fetcher { if n == 0 then f else Decs(f, n - 1).Dec() }

  lemma AddNothing(p: u16)
    ensures Add16(p, 0) == p
  {
  }

  lemma AtTwice(f: Fetcher, p: u16, q: u16)
    ensures f.At(p).At(q) == f.At(q)
  {
  }

  lemma OneMore(p: u16, n: nat)
    ensures Sum16(Add16(p, n), 1) == Add16(p, n + 1)
  {
    AddReduced(p + n, 1, U16);
  }

  lemma {:induction false} IncsAt(f: Fetcher, n: nat)
    ensures Incs(f, n) == f.At(Add16(f.Pointer(), n))
  {
    hide Fetcher.Inc, Fetcher.At, Fetcher.Pointer, Add16, Sum16;
    var p := f.Pointer();
    AddNothing(p);
    AtPointer(f, p);
    if n > 0 {
      IncsAt(f, n - 1);
      var q := Add16(p, n - 1);
      IncIsPlusOne(f.At(q));
      AtPointer(f, q);
      AtTwice(f, q, Sum16(q, 1));
      OneMore(p, n - 1);
    }
  }

  lemma {:induction false} InDataIs(p: nat)
    ensures InData(p) == p % DATA_SIZE
  {
    if p >= DATA_SIZE {
      InDataIs(p - DATA_SIZE);
    }
  }

  lemma NextAddr(p: u16)
    ensures Sum16(p, 1) % DATA_SIZE == if p % DATA_SIZE == DATA_SIZE - 1 then 0 else p % DATA_SIZE + 1
    ensures Sub16(p, 1) % DATA_SIZE == if p % DATA_SIZE == 0 then DATA_SIZE - 1 else p % DATA_SIZE - 1
  {
    ModOfMod(p + 1, DATA_SIZE, 0x10);
    ModOfMod(p - 1, DATA_SIZE, 0x10);
  }

  lemma IncAddr(f: Fetcher)
    ensures f.Inc().Addr() == if f.Addr() == DATA_SIZE - 1 then 0 else f.Addr() + 1
  {
    hide Fetcher.Inc, Fetcher.At, Fetcher.Pointer, Sum16, InData;
    IncIsPlusOne(f);
    InDataIs(f.Pointer());
    InDataIs(Sum16(f.Pointer(), 1));
    AtPointer(f, Sum16(f.Pointer(), 1));
    NextAddr(f.Pointer());
  }

  lemma DecAddr(f: Fetcher)
    ensures f.Dec().Addr() == if f.Addr() == 0 then DATA_SIZE - 1 else f.Addr() - 1
  {
    hide Fetcher.Dec, Fetcher.At, Fetcher.Pointer, Sub16, InData;
    DecIsMinusOne(f);
    InDataIs(f.Pointer());
    InDataIs(Sub16(f.Pointer(), 1));
    AtPointer(f, Sub16(f.Pointer(), 1));
    NextAddr(f.Pointer());
  }

  lemma {:induction false} IncsAddr(f: Fetcher, n: nat)
    ensures Incs(f, n).Addr() == Walk(f.Addr(), false, n)
  {
    hide Fetcher.Inc, Fetcher.Addr;
    if n > 0 {
      IncsAddr(f, n - 1);
      IncAddr(Incs(f, n - 1));
    }
  }

  lemma {:induction false} DecsAddr(f: Fetcher, n: nat)
    ensures Decs(f, n).Addr() == Walk(f.Addr(), true, n)
  {
    hide Fetcher.Dec, Fetcher.Addr;
    if n > 0 {
      DecsAddr(f, n - 1);
      DecAddr(Decs(f, n - 1));
    }
  }

  lemma DecThenInc(f: Fetcher)
    ensures f.Dec().Inc() == f
  {
  }

  lemma {:induction false} IncsFront(f: Fetcher, n: nat)
    requires n > 0
    ensures Incs(f, n) == Incs(f.Inc(), n - 1)
  {
    hide Fetcher.Inc;
    if n > 1 {
      IncsFront(f, n - 1);
    }
  }

  lemma {:induction false} UpAgain(f: Fetcher, n: nat)
    ensures Incs(Decs(f, n), n) == f
  {
    hide Fetcher.Inc, Fetcher.Dec;
    if n > 0 {
      IncsFront(Decs(f, n), n);
      DecThenInc(Decs(f, n - 1));
      UpAgain(f, n - 1);
    }
  }

  // ---- The registers step their fetchers ----

  lemma {:induction false} RegisterPushes(s: Registers, i: nat, vs: seq<u8>)
    requires s.Valid() && i < FETCHERS
    ensures var f := s.fetchers[i];
      WriteAll(s, 0x60 + i, vs)
      == s.(fetchers := s.fetchers[i := Decs(f, |vs|)], data := Written(s.data, f.Addr(), true, vs))
  {
    hide Fetcher.Dec, Fetcher.Addr, WithNoiseByte, Frequency, Walk;
    if vs != [] {
      RegisterPushes(s, i, vs[..|vs| - 1]);
      DecsAddr(s.fetchers[i], |vs|);
      assert (0x60 + i) % 8 == i;
    }
  }

  lemma {:induction false} RegisterWrites(s: Registers, i: nat, vs: seq<u8>)
    requires s.Valid() && i < FETCHERS
    ensures var f := s.fetchers[i];
      WriteAll(s, 0x78 + i, vs)
      == s.(fetchers := s.fetchers[i := Incs(f, |vs|)], data := Written(s.data, f.Addr(), false, vs))
  {
    hide Fetcher.Inc, Fetcher.Addr, WithNoiseByte, Frequency, Walk;
    if vs != [] {
      RegisterWrites(s, i, vs[..|vs| - 1]);
      IncsAddr(s.fetchers[i], |vs| - 1);
      assert (0x78 + i) % 8 == i;
    }
  }

  lemma {:induction false} RegisterReads(s: Registers, i: nat, n: nat)
    requires s.Valid() && i < FETCHERS
    ensures var (t, vs) := ReadAll(s, 0x08 + i, n); var f := s.fetchers[i];
      && t == s.(fetchers := s.fetchers[i := Incs(f, n)])
      && forall k: nat | k < n :: vs[k] == s.data[Walk(f.Addr(), false, k)]
  {
    hide Fetcher.Inc, Fetcher.Addr, NoiseByte, Next, Prev, MusicSum, Walk;
    if n > 0 {
      RegisterReads(s, i, n - 1);
      IncsAddr(s.fetchers[i], n - 1);
      assert (0x08 + i) % 8 == i;
    }
  }

  lemma {:induction false} RegisterWindowReads(s: Registers, i: nat, n: nat)
    requires s.Valid() && i < FETCHERS
    ensures var (t, vs) := ReadAll(s, 0x10 + i, n); var f := s.fetchers[i];
      && t == s.(fetchers := s.fetchers[i := Incs(f, n)])
      && forall k: nat | k < n :: vs[k] == if Incs(f, k).InWindow() then s.data[Walk(f.Addr(), false, k)] else 0
  {
    hide Fetcher.Inc, Fetcher.Addr, Fetcher.InWindow, NoiseByte, Next, Prev, MusicSum, Walk;
    if n > 0 {
      RegisterWindowReads(s, i, n - 1);
      IncsAddr(s.fetchers[i], n - 1);
      assert (0x10 + i) % 8 == i;
    }
  }

  // ---- Stack ----

  /**
   A fetcher as a stack, for any number of pushes: as many reads give the bytes back in reverse, except that
   past 4096 entries the oldest are overwritten by the newest sharing their address; the pointer and every other
   register are exactly restored.
   */
  lemma StackRoundTrip(s: Registers, i: nat, vs: seq<u8>)
    requires s.Valid() && i < FETCHERS
    ensures var (t, rs) := ReadAll(WriteAll(s, 0x60 + i, vs), 0x08 + i, |vs|); var n := |vs|;
      && t == s.(data := t.data)
      && (forall k: nat | k < n :: rs[k] == vs[Newest(n, n - 1 - k)])
      && (n <= DATA_SIZE ==> forall k: nat | k < n :: rs[k] == vs[n - 1 - k])
  {
    hide Newest, WriteAll, ReadAll, Incs, Decs, Written, Holds, Walk, Fetcher.Addr;
    var f, n := s.fetchers[i], |vs|;
    RegisterPushes(s, i, vs);
    var u := WriteAll(s, 0x60 + i, vs);
    RegisterReads(u, i, n);
    UpAgain(f, n);
    DecsAddr(f, n);
    WrittenHolds(s.data, f.Addr(), true, vs);
    StackReads(u.data, s.data, vs, f.Addr(), ReadAll(u, 0x08 + i, n).1);
  }

  // ---- Queue ----

  /** Writes of a pointer's two bytes through `$50+i` and `$68+i`. */
  function SetPointer(s: Registers, i: nat, low: u8, hi: u8): (r: Registers)
    requires s.Valid() && i < FETCHERS
  {
    WriteRegister(WriteRegister(s, 0x50 + i, low), 0x68 + i, hi)
  }

  lemma PointerIsSet(s: Registers, i: nat, low: u8, hi: u8)
    requires s.Valid() && i < FETCHERS
    ensures SetPointer(s, i, low, hi) == s.(fetchers := s.fetchers[i := s.fetchers[i].(low := low, hi := hi)])
  {
    assert (0x50 + i) % 8 == i && (0x68 + i) % 8 == i;
  }

  lemma {:induction false} IncsKeepWindow(f: Fetcher, n: nat)
    ensures Incs(f, n).top == f.top && Incs(f, n).bottom == f.bottom
  {
    hide Add8;
    if n > 0 {
      IncsKeepWindow(f, n - 1);
    }
  }

  /** The registers after writing vs and putting the pointer back. */
  function Rewound(s: Registers, i: nat, vs: seq<u8>): Registers
    requires s.Valid() && i < FETCHERS
  {
    SetPointer(WriteAll(s, 0x78 + i, vs), i, s.fetchers[i].low, s.fetchers[i].hi)
  }

  /** Rewinding leaves nothing changed but the data. */
  lemma RewoundIs(s: Registers, i: nat, vs: seq<u8>)
    requires s.Valid() && i < FETCHERS
    ensures Rewound(s, i, vs) == s.(data := WriteAll(s, 0x78 + i, vs).data)
    ensures Rewound(s, i, vs).Valid()
  {
    hide WriteAll, SetPointer, Incs, Written;
    var w, f := WriteAll(s, 0x78 + i, vs), s.fetchers[i];
    RegisterWrites(s, i, vs);
    PointerIsSet(w, i, f.low, f.hi);
    IncsKeepWindow(f, |vs|);
    UpdateTwice(s.fetchers, i, Incs(f, |vs|));
  }

  lemma UpdateTwice(fs: seq<Fetcher>, i: nat, f: Fetcher)
    requires i < |fs|
    ensures fs[i := f][i] == f && fs[i := f][i := fs[i]] == fs
  {
  }

  /** A fetcher as a queue: write, put the pointer back, and read the bytes in the order written. */
  lemma QueueRoundTrip(s: Registers, i: nat, vs: seq<u8>)
    requires s.Valid() && i < FETCHERS
    ensures Rewound(s, i, vs).Valid()
    ensures ReadAll(Rewound(s, i, vs), 0x08 + i, |vs|).0 == WriteAll(s, 0x78 + i, vs)
    ensures var rs, n := ReadAll(Rewound(s, i, vs), 0x08 + i, |vs|).1, |vs|;
      && (forall k: nat | k < n :: rs[k] == vs[Newest(n, k)])
      && (n <= DATA_SIZE ==> rs == vs)
  {
    hide Newest, WriteAll, ReadAll, Incs, Written, Holds, Rewound, Walk, Fetcher.Addr;
    var f, n := s.fetchers[i], |vs|;
    RegisterWrites(s, i, vs);
    RewoundIs(s, i, vs);
    var u := Rewound(s, i, vs);
    RegisterReads(u, i, n);
    WrittenHolds(s.data, f.Addr(), false, vs);
    RingReads(u.data, s.data, vs, f.Addr(), ReadAll(u, 0x08 + i, n).1);
  }

  // ---- The window ----

  /** Whether a pointer's low byte, counted on without wrapping, lies in a fetcher's window. */
  predicate Inside(f: Fetcher, low: int) { (f.top - low) % 0x100 > (f.top - f.bottom) % 0x100 }

  /** Windowed reads advance like plain ones, and give exactly the bytes whose pointer's low byte is inside. */
  lemma WindowStream(s: Registers, i: nat, n: nat)
    requires s.Valid() && i < FETCHERS
    ensures var (t, vs) := ReadAll(s, 0x10 + i, n); var f := s.fetchers[i];
      && t == s.(fetchers := s.fetchers[i := f.At(Add16(f.Pointer(), n))])
      && forall k: nat | k < n :: vs[k] == if Inside(f, f.low + k) then s.data[(f.Addr() + k) % DATA_SIZE] else 0
  {
    hide ReadAll, Add16, Incs, Fetcher.At, Fetcher.Pointer, Fetcher.Addr, Fetcher.InWindow, Inside, Registers.Valid;
    hide Walk;
    FetcherCount(s);
    var f, vs := s.fetchers[i], ReadAll(s, 0x10 + i, n).1;
    RegisterWindowReads(s, i, n);
    IncsAt(f, n);
    forall k: nat | k < n
      ensures vs[k] == if Inside(f, f.low + k) then s.data[(f.Addr() + k) % DATA_SIZE] else 0
    {
      WalkUp(f.Addr(), k);
      InsideAfter(f, k);
    }
  }

  lemma FetcherCount(s: Registers)
    requires s.Valid()
    ensures |s.fetchers| == FETCHERS && |s.data| == DATA_SIZE
  {
  }

  lemma InsideAfter(f: Fetcher, k: nat)
    ensures Incs(f, k).InWindow() == Inside(f, f.low + k)
  {
    hide Incs;
    IncsLow(f, k);
    IncsKeepWindow(f, k);
    DifferenceReduced(f.top, f.low + k, 0x100);
  }

  lemma DifferenceReduced(a: int, b: int, m: nat)
    requires m > 0
    ensures (a - b % m) % m == (a - b) % m
  {
    ModShift(a - b % m, m, 0 - b / m);
  }

  lemma {:induction false} IncsLow(f: Fetcher, k: nat)
    ensures Incs(f, k).low == (f.low + k) % 0x100
  {
    if k > 0 {
      IncsLow(f, k - 1);
      AddReduced(f.low + (k - 1), 1, 0x100);
    }
  }

  // ---- Fractional fetchers ----

  function FractionalPointer(f: Fractional): nat { Word(f.low, f.hi) }

  /** Where a fractional fetcher stands after n reads. */
  function After(f: Fractional, n: nat): (r: Fractional)
  {
    if n == 0 then f else After(f, n - 1).Inc()
  }

  /** The accumulator and n increments, unreduced. */
  function Total(f: Fractional, n: nat): nat { f.count + n * f.increment }

  /** Closed form: the pointer has advanced by the whole part of what the increments add up to. */
  lemma {:induction false} FractionalClosedForm(f: Fractional, n: nat)
    requires f.hi < 0x10
    ensures var g := After(f, n);
      && g.increment == f.increment && g.hi < 0x10
      && g.count == Total(f, n) % 0x100
      && FractionalPointer(g) == (FractionalPointer(f) + Total(f, n) / 0x100) % DATA_SIZE
  {
    hide Fractional.Inc, FractionalPointer, Total;
    TotalSteps(f, n);
    if n == 0 {
      PointerInRange(f);
    } else {
      FractionalClosedForm(f, n - 1);
      FractionalStep(After(f, n - 1));
      Accumulate(FractionalPointer(f), Total(f, n - 1), f.increment);
    }
  }

  lemma TotalSteps(f: Fractional, n: nat)
    ensures if n == 0 then Total(f, n) == f.count else Total(f, n) == Total(f, n - 1) + f.increment
  {
  }

  lemma Accumulate(p: nat, sum: nat, b: nat)
    requires b < 0x100
    ensures ((p + sum / 0x100) % DATA_SIZE + (sum % 0x100 + b) / 0x100) % DATA_SIZE
            == (p + (sum + b) / 0x100) % DATA_SIZE
    ensures (sum % 0x100 + b) % 0x100 == (sum + b) % 0x100
  {
    CarryOut(sum, b);
    AddReduced(p + sum / 0x100, (sum % 0x100 + b) / 0x100, DATA_SIZE);
  }

  lemma PointerInRange(f: Fractional)
    requires f.hi < 0x10
    ensures FractionalPointer(f) < DATA_SIZE
  {
  }

  lemma AddrIsPointer(f: Fractional)
    requires f.hi < 0x10
    ensures f.Addr() == FractionalPointer(f)
  {
    InDataIs(Word(f.low, f.hi));
  }

  lemma FractionalStep(g: Fractional)
    requires g.hi < 0x10
    ensures var h, sum := g.Inc(), g.count + g.increment;
      && h.increment == g.increment && h.hi < 0x10 && h.count == sum % 0x100
      && FractionalPointer(h) == (FractionalPointer(g) + sum / 0x100) % DATA_SIZE
  {
    hide Sum8, Word;
    CarryFlag(g.count, g.increment);
    FractionalNext(g.low, g.hi);
    PointerInRange(g);
  }

  lemma CarryFlag(count: u8, increment: u8)
    ensures var c, sum := Sum8(count, increment), count + increment;
      && c == sum % 0x100
      && (sum > 0xFF || c < increment <==> sum / 0x100 == 1)
      && (sum <= 0xFF <==> sum / 0x100 == 0)
  {
  }

  lemma FractionalNext(l: u8, h: u8)
    requires h < 0x10
    ensures (Word(l, h) + 1) % DATA_SIZE == Word(Sum8(l, 1), if l == 0xFF then Sum8(h, 1) % 0x10 else h)
    ensures Sum8(l, 1) == 0 <==> l == 0xFF
  {
    hide Sum8;
    ByteNext(l);
    ByteNext(h);
  }

  lemma ByteNext(x: u8)
    ensures Sum8(x, 1) == if x == 0xFF then 0 else x + 1
  {
  }

  lemma CarryOut(sum: nat, b: nat)
    requires b < 0x100
    ensures (sum + b) % 0x100 == (sum % 0x100 + b) % 0x100
    ensures (sum + b) / 0x100 == sum / 0x100 + (sum % 0x100 + b) / 0x100
  {
  }

  lemma {:induction false} FractionalReads(s: Registers, i: nat, n: nat)
    requires s.Valid() && i < FETCHERS
    ensures var (t, vs) := ReadAll(s, 0x18 + i, n);
      && t == s.(fractionals := s.fractionals[i := After(s.fractionals[i], n)])
      && forall k: nat | k < n :: vs[k] == s.data[After(s.fractionals[i], k).Addr()]
  {
    hide Fractional.Inc, Fractional.Addr, NoiseByte, Next, Prev, MusicSum;
    if n > 0 {
      FractionalReads(s, i, n - 1);
      assert (0x18 + i) % 8 == i;
    }
  }

  /** The k-th fractional read, from any accumulator and with any increment. */
  lemma FractionalStream(s: Registers, i: nat, n: nat)
    requires s.Valid() && i < FETCHERS
    ensures var vs, f := ReadAll(s, 0x18 + i, n).1, s.fractionals[i];
      forall k: nat | k < n ::
        vs[k] == s.data[(FractionalPointer(f) + Total(f, k) / 0x100) % DATA_SIZE]
  {
    hide ReadAll, After, Total, FractionalPointer;
    FractionalReads(s, i, n);
    var vs, f := ReadAll(s, 0x18 + i, n).1, s.fractionals[i];
    forall k: nat | k < n
      ensures vs[k] == s.data[(FractionalPointer(f) + Total(f, k) / 0x100) % DATA_SIZE]
    {
      FractionalClosedForm(f, k);
      AddrIsPointer(After(f, k));
    }
  }

  // ---- Noise ----

  /** The true inverse of a noise step. */
  function Inverse(v: bv32): bv32
  {
    if v & 0x8000_0000 != 0 then ((MAGIC ^ v) << 11) | ((MAGIC ^ v) >> 21) else (v << 11) | (v >> 21)
  }

  /** A noise step is a bijection on all 2^32 states. */
  lemma NextIsBijection(v: bv32)
    ensures Inverse(Next(v)) == v && Next(Inverse(v)) == v
  {
    Undone(v);
    Redone(v);
  }

  lemma Undone(v: bv32)
    ensures Inverse(Next(v)) == v
  {
  }

  lemma Redone(v: bv32)
    ensures Next(Inverse(v)) == v
  {
    hide Next, Inverse;
    if v & 0x8000_0000 != 0 {
      RedoneSet(v);
    } else {
      RedoneClear(v);
    }
  }

  lemma RedoneSet(v: bv32)
    requires v & 0x8000_0000 != 0
    ensures Next(Inverse(v)) == v
  {
  }

  lemma RedoneClear(v: bv32)
    requires v & 0x8000_0000 == 0
    ensures Next(Inverse(v)) == v
  {
  }

  /** `$01` undoes `$00` exactly for states with bit 10 clear. */
  lemma PrevUndoesNextExactly(v: bv32)
    ensures Prev(Next(v)) == v <==> v & 0x400 == 0
  {
  }

  /** Even where it fails, the low eleven bits come back. */
  lemma PrevRecoversLowBits(v: bv32)
    ensures Prev(Next(v)) & 0x7FF == v & 0x7FF
  {
  }

  lemma NextUndoesPrevExactly(v: bv32)
    ensures Next(Prev(v)) == v <==> v & 0x8000_0000 == 0
  {
  }

  /** A state `$01` does not step back to. */
  lemma PrevCounterexample()
    ensures Prev(Next(0x400)) != 0x400
  {
  }

  // ---- Music ----

  function Ticks(s: Registers, n: nat): (r: Registers)
    requires s.Valid()
    ensures r.Valid()
  {
    if n == 0 then s else Tick(Ticks(s, n - 1))
  }

  /** Every music fetcher's phase after n CPU cycles: one step of its frequency per 59. */
  lemma {:induction false} MusicClosedForm(s: Registers, n: nat, k: nat)
    requires s.Valid() && k < 3
    ensures var t, beats := Ticks(s, n), s.beats + n;
      && t.beats == beats % 59
      && t.music[k] == s.music[k].(count := (s.music[k].count + beats / 59 * s.music[k].freq) % U32)
      && t == s.(beats := t.beats, music := t.music)
  {
    hide Tick, Add32, Advanced, Registers.Valid;
    MusicCount(s);
    MusicCount(Ticks(s, n));
    if n > 0 {
      MusicCount(Ticks(s, n - 1));
      MusicClosedForm(s, n - 1, k);
      var t, beats, m := Ticks(s, n - 1), s.beats + n - 1, s.music[k];
      OneTick(t, k);
      NextBeat(beats);
      NextPhase(m.count, beats / 59, m.freq);
    }
  }

  lemma MusicCount(s: Registers)
    requires s.Valid()
    ensures |s.music| == 3 && s.beats < 59
  {
  }

  lemma OneTick(s: Registers, k: nat)
    requires s.Valid() && k < 3
    ensures var t := Tick(s);
      && t == s.(beats := t.beats, music := t.music) && |t.music| == 3
      && t.beats == (if s.beats == 58 then 0 else s.beats + 1)
      && t.music[k] == if s.beats == 58 then s.music[k].(count := Add32(s.music[k].count, s.music[k].freq))
                       else s.music[k]
  {
  }

  lemma NextPhase(count: u32, steps: nat, freq: u32)
    ensures Add32((count + steps * freq) % U32, freq) == (count + (steps + 1) * freq) % U32
  {
    assert (steps + 1) * freq == steps * freq + freq;
    AddReduced(count + steps * freq, freq, U32);
  }

  lemma NextBeat(b: nat)
    ensures (b + 1) % 59 == if b % 59 == 58 then 0 else b % 59 + 1
    ensures (b + 1) / 59 == b / 59 + if b % 59 == 58 then 1 else 0
  {
  }
}
