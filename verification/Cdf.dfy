/** The CDF datastreams: pointers and increments kept as little-endian words inside the driver's RAM. */
module Cdf {
  import opened Bits
  import opened Bytes
  import opened Coprocessor
  import opened Words

  const DRIVER_SIZE: nat := 2048
  const DS_COMM: nat := 32

  datatype Kind = Cdf0 | Cdf1 | Cdfj | CdfjPlus

  /**
   Per-version constants. Shifts are given as the power of two they multiply by; `keep` is the lowest bit of
   the mask a pointer write applies, so that masking subtracts the remainder modulo `keep`.
   */
  datatype Version = Version(
    fetcherBase: nat,
    incrementBase: nat,
    musicBase: nat,
    fetcherUnit: nat,
    incrementUnit: nat,
    keep: nat,
    streams: nat,
    dataSize: nat)

  function VersionOf(kind: Kind): Version
  {
    match kind
    case Cdf0 => Version(0x06E0, 0x0768, 0x07F0, 0x10_0000, 0x1000, 0x1000_0000, 34, 0x1000)
    case Cdf1 => Version(0x00A0, 0x0128, 0x01B0, 0x10_0000, 0x1000, 0x1000_0000, 34, 0x1000)
    case Cdfj => Version(0x0098, 0x0124, 0x01B0, 0x10_0000, 0x1000, 0x1000_0000, 35, 0x1000)
    case CdfjPlus => Version(0x0098, 0x0124, 0x01B0, 0x1_0000, 0x100, 0x100_0000, 35, 0x7800)
  }

  datatype State = State(driver: seq<u8>, data: seq<u8>)
  {
    ghost predicate Valid(kind: Kind)
    {
      |driver| == DRIVER_SIZE && |data| == VersionOf(kind).dataSize
    }
  }

  // ---- Words inside a byte buffer ----

  function Read32(buf: seq<u8>, at: nat): u32
  {
    if at + 4 > |buf| then 0 else
    WordBound(buf[at..at + 4]);
    LeValue(buf[at..at + 4])
  }

  function Write32(buf: seq<u8>, at: nat, w: u32): (r: seq<u8>)
    ensures |r| == |buf|
  {
    if at + 4 > |buf| then buf else
    buf[..at] + LeBytes(w, 4) + buf[at + 4..]
  }

  // ---- Streams ----

  function PointerAt(kind: Kind, reg: nat): nat { VersionOf(kind).fetcherBase + reg * 4 }

  function IncrementAt(kind: Kind, reg: nat): nat { VersionOf(kind).incrementBase + reg * 4 }

  function Pointer(kind: Kind, s: State, reg: nat): u32 { Read32(s.driver, PointerAt(kind, reg)) }

  function Increment(kind: Kind, s: State, reg: nat): u32 { Read32(s.driver, IncrementAt(kind, reg)) }

  function MusicBase(kind: Kind, s: State, k: nat): u32
  {
    Read32(s.driver, VersionOf(kind).musicBase + k * 4)
  }

  function WithPointer(kind: Kind, s: State, reg: nat, p: u32): State
  {
    s.(driver := Write32(s.driver, PointerAt(kind, reg), p))
  }

  function Get(data: seq<u8>, i: nat): u8 { if i < |data| then data[i] else 0 }

  /** What one read adds to a stream's pointer. */
  function StepOf(kind: Kind, increment: u32): u32 { increment * VersionOf(kind).incrementUnit % U32 }

  function StreamData(kind: Kind, s: State, reg: nat): (State, u8)
  {
    var p := Pointer(kind, s, reg);
    var next := Add32(p, StepOf(kind, Increment(kind, s, reg)));
    (WithPointer(kind, s, reg, next), Get(s.data, p / VersionOf(kind).fetcherUnit))
  }

  // ---- The communication stream's registers ----

  function DsWrite(kind: Kind, s: State, val: u8): State
  {
    var v := VersionOf(kind);
    var p := Pointer(kind, s, DS_COMM);
    var i := p / v.fetcherUnit;
    if i >= |s.data| then s else WithPointer(kind, s.(data := s.data[i := val]), DS_COMM, Add32(p, v.fetcherUnit))
  }

  /** The pointer after one of its bytes is written: shifted up, masked, the byte merged in below. */
  function Shifted(kind: Kind, p: u32, val: u8): u32
  {
    var up := p * 0x100 % U32;
    up - up % VersionOf(kind).keep + val * VersionOf(kind).fetcherUnit
  }

  function DsPtr(kind: Kind, s: State, val: u8): State
  {
    WithPointer(kind, s, DS_COMM, Shifted(kind, Pointer(kind, s, DS_COMM), val))
  }

  // ---- The board around the streams ----

  const CUSTOM_SIZE: nat := 2048
  const BANK_SIZE: nat := 4096
  const BANKS: nat := 7
  const VARIABLES_SIZE: nat := 0x800
  const DS_JMP: nat := 33

  /** A version and, for CDFJ+, what the scan of the driver found. */
  datatype Layout = Layout(kind: Kind, fastLdx: bool, fastLdy: bool, offset: u8)
  {
    function Amplitude(): u8 { if kind == Cdf0 || kind == Cdf1 then 34 else 35 }

    /** A jump's low operand byte arms FastJMP when it is 0, or 1 where bit 0 is masked off. */
    predicate JumpsFast(lo: u8) { lo == 0 || (lo == 1 && (kind == Cdfj || kind == CdfjPlus)) }

    function MusicShift(): nat { if kind == CdfjPlus then 12 else 20 }
  }

  datatype Music = Music(waveform: u8, freq: u32, count: u32)

  datatype Board = Board(
    layout: Layout,
    driverRom: seq<u8>,
    custom: seq<u8>,
    s: State,
    variables: seq<u8>,
    bank: nat,
    fastFetch: bool,
    sampleMode: bool,
    fastLoad: nat,
    fastJmp: nat,
    music: seq<Music>,
    beats: u32)
  {
    ghost predicate Valid()
    {
      && s.Valid(layout.kind) && |driverRom| == DRIVER_SIZE && bank < 8 && |music| == 3 && beats < 59
      && fastLoad <= 2 && fastJmp <= 2
    }

    /** Where the current bank's window starts; the other versions skip the shared code. */
    function Window(): nat { bank * BANK_SIZE + if layout.kind == CdfjPlus then 0 else CUSTOM_SIZE }
  }

  predicate Accepts(size: nat, kind: Kind)
  {
    size >= DRIVER_SIZE + (if kind == CdfjPlus then 0 else CUSTOM_SIZE) + BANKS * BANK_SIZE
  }

  function New(rom: seq<u8>, layout: Layout): Board
    requires Accepts(|rom|, layout.kind)
  {
    Board(layout, rom[..DRIVER_SIZE], rom[DRIVER_SIZE..],
          State(rom[..DRIVER_SIZE], seq(VersionOf(layout.kind).dataSize, i => 0 as u8)),
          if layout.kind == CdfjPlus then [] else seq(VARIABLES_SIZE, i => 0 as u8),
          0, false, false, 0, 0, seq(3, i => Music(0x1B, 0, 0)), 0)
  }

  predicate IsHotspot(addr: u16) { 0xFF4 <= addr % 0x1000 <= 0xFFB }

  const STANDARD_BANKS: seq<nat> := [6, 0, 1, 2, 3, 4, 5, 6]

  function Switched(b: Board, addr: u16): Board
    requires IsHotspot(addr)
  {
    var i := addr % 0x1000 - 0xFF4;
    b.(bank := if b.layout.kind == CdfjPlus then i else STANDARD_BANKS[i])
  }

  /** A byte of the flash, or the default past either end. */
  function Flash(custom: seq<u8>, i: int, missing: u8): u8 { if 0 <= i < |custom| then custom[i] else missing }

  /** How a read ends: answered, or passed on to the next stage of the decoding. */
  datatype Outcome = Passed(board: Board) | Answered(board: Board, value: u8)

  /** The two reads after a fast jump's opcode come from the jump streams, unless the opcode was a phantom. */
  function FastJump(b: Board, a: nat): Outcome
  {
    var before := b.Window() + a - 1;
    if !b.fastFetch || b.fastJmp == 0 then Passed(b)
    else if b.fastJmp >= 2 && Flash(b.custom, before, 0) != 0x4C then Passed(b.(fastJmp := 0))
    else
      var left := b.fastJmp - 1;
      var reg := Flash(b.custom, before + left, 0) + DS_JMP;
      var p, unit := Pointer(b.layout.kind, b.s, reg), VersionOf(b.layout.kind).fetcherUnit;
      if p / unit >= |b.s.data| then Answered(b.(fastJmp := left), 0)
      else Answered(b.(fastJmp := left, s := WithPointer(b.layout.kind, b.s, reg, Add32(p, unit))), b.s.data[p / unit])
  }

  /** One channel's waveform byte; the shift amount is taken modulo 32. */
  function WaveByte(b: Board, k: nat): u8
    requires k < |b.music|
  {
    Get(b.s.data, Add32(MusicBase(b.layout.kind, b.s, k), Shr(b.music[k].count, b.music[k].waveform % 32)))
  }

  /** The amplitude register: a packed digitised sample, or the sum of the three channels. */
  function AmplitudeOf(b: Board): u8
    requires |b.music| == 3
  {
    var shift := b.layout.MusicShift();
    if b.sampleMode then
      var sample := Get(b.s.data, Add32(MusicBase(b.layout.kind, b.s, 0), Shr(b.music[0].count, shift + 1)));
      if Shr(b.music[0].count, shift) % 2 == 0 then sample / 16 else sample
    else (WaveByte(b, 0) + WaveByte(b, 1) + WaveByte(b, 2)) % 0x100
  }

  /** An operand read in time is answered by the stream it names. */
  function FastLoad(b: Board, data: u8): Outcome
    requires |b.music| == 3
  {
    if !b.fastFetch || b.fastLoad == 0 then Passed(b) else
    var c, offset := b.(fastLoad := b.fastLoad - 1), b.layout.offset;
    if offset <= data <= Add8(offset, DS_COMM) then
      var (s, v) := StreamData(b.layout.kind, b.s, data - offset);
      Answered(c.(s := s), v)
    else if data == Add8(b.layout.Amplitude(), offset) then Answered(c, AmplitudeOf(b))
    else Passed(c)
  }

  /** What a plain opcode byte arms for the reads after it. */
  function Arming(b: Board, a: nat, data: u8): Board
  {
    if !b.fastFetch then b
    else if data == 0x4C then
      var lo := Flash(b.custom, b.Window() + (a + 1) % 0x1000, 0xFF);
      var hi := Flash(b.custom, b.Window() + (a + 2) % 0x1000, 0xFF);
      if b.layout.JumpsFast(lo) && hi == 0 then b.(fastJmp := 2) else b
    else if data == 0xA9 || (data == 0xA2 && b.layout.fastLdx) || (data == 0xA0 && b.layout.fastLdy) then
      b.(fastLoad := 2)
    else b
  }

  function CpuRead(b: Board, addr: u16): (Board, u8)
    requires |b.music| == 3
  {
    if IsHotspot(addr) then (Switched(b, addr), 0) else
    var a := addr % 0x1000;
    var data := Flash(b.custom, b.Window() + a, 0);
    match FastJump(b, a)
    case Answered(c, v) => (c, v)
    case Passed(c) =>
      match FastLoad(c, data)
      case Answered(d, v) => (d, v)
      case Passed(d) => (Arming(d, a, data), data)
  }

  /** The board after the ARM ran: any bytes in the segments it maps, and the music registers it services. */
  function ArmRan(b: Board, arm: Arm): Board
    requires |b.music| == 3
  {
    b.(driverRom := Left(arm, 0, b.driverRom), custom := Left(arm, 1, b.custom),
       s := State(Left(arm, 2, b.s.driver), Left(arm, 3, b.s.data)), variables := Left(arm, 4, b.variables),
       music := seq(3, k requires 0 <= k < 3 =>
         Music(arm(5, k), LeftWord(arm, 6, 4 * k), if arm(7, k) == 0 then 0 else b.music[k].count)))
  }

  predicate StartsArm(addr: u16, val: u8) { addr % 0x1000 == 0xFF3 && val >= 0xFE }

  function CpuWrite(b: Board, addr: u16, val: u8, arm: Arm): Board
    requires |b.music| == 3
  {
    if IsHotspot(addr) then Switched(b, addr)
    else match addr % 0x1000
      case 0xFF0 => b.(s := DsWrite(b.layout.kind, b.s, val))
      case 0xFF1 => b.(s := DsPtr(b.layout.kind, b.s, val))
      case 0xFF2 =>
        var fast := val % 0x10 != 0xF;
        b.(fastFetch := fast, sampleMode := val / 0x10 != 0xF,
           fastLoad := if fast then b.fastLoad else 0, fastJmp := if fast then b.fastJmp else 0)
      case 0xFF3 => if val >= 0xFE then ArmRan(b, arm) else b
      case _ => b
  }

  /** One CPU cycle: the operand's deadline, and every 59th cycle the music. */
  function Tick(b: Board): Board
    requires |b.music| == 3
  {
    var c, beats := b.(fastLoad := if b.fastLoad > 0 then b.fastLoad - 1 else 0), Add32(b.beats, 1);
    if beats % 59 == 0 then
      c.(beats := 0, music := seq(3, k requires 0 <= k < 3 =>
        b.music[k].(count := Add32(b.music[k].count, b.music[k].freq))))
    else c.(beats := beats)
  }
}

module CdfTheorems {
  import opened Bits
  import opened Bytes
  import opened Coprocessor
  import opened Words
  import opened Cdf
  import Ring = RingMemory

  // ---- Words in a buffer are independent ----

  lemma ReadBack(buf: seq<u8>, at: nat, w: u32)
    requires at + 4 <= |buf|
    ensures Read32(Write32(buf, at, w), at) == w
  {
    Pow2At32();
    LeRoundTrip(w, 4);
    assert Write32(buf, at, w)[at..at + 4] == LeBytes(w, 4);
  }

  lemma ReadElsewhere(buf: seq<u8>, at: nat, w: u32, from: nat)
    requires from + 4 <= at || at + 4 <= from
    ensures Read32(Write32(buf, at, w), from) == Read32(buf, from)
  {
    if at + 4 <= |buf| && from + 4 <= |buf| {
      assert Write32(buf, at, w)[from..from + 4] == buf[from..from + 4];
    }
  }

  /** The three tables do not overlap and lie inside the driver's RAM. */
  lemma TablesApart(kind: Kind, reg: nat)
    requires reg < VersionOf(kind).streams
    ensures var v := VersionOf(kind);
      && v.fetcherBase + v.streams * 4 <= v.incrementBase
      && v.incrementBase + v.streams * 4 <= v.musicBase && v.musicBase + 12 <= DRIVER_SIZE
      && PointerAt(kind, reg) + 4 <= v.incrementBase && DS_COMM < v.streams
  {
  }

  /** A pointer update is seen by its own stream and by nothing else: no other pointer, no increment, no music base. */
  lemma PointerUpdateIsLocal(kind: Kind, s: State, reg: nat, p: u32)
    requires s.Valid(kind) && reg < VersionOf(kind).streams
    ensures var t := WithPointer(kind, s, reg, p);
      && t.Valid(kind) && t.data == s.data
      && Pointer(kind, t, reg) == p
      && (forall r: nat | r < VersionOf(kind).streams && r != reg :: Pointer(kind, t, r) == Pointer(kind, s, r))
      && (forall r: nat | r < VersionOf(kind).streams :: Increment(kind, t, r) == Increment(kind, s, r))
      && (forall k: nat | k < 3 :: MusicBase(kind, t, k) == MusicBase(kind, s, k))
  {
    hide Read32, Write32, VersionOf;
    TablesApart(kind, reg);
    var at := PointerAt(kind, reg);
    ReadBack(s.driver, at, p);
    var t := WithPointer(kind, s, reg, p);
    forall r: nat | r < VersionOf(kind).streams && r != reg
      ensures Pointer(kind, t, r) == Pointer(kind, s, r)
    {
      ReadElsewhere(s.driver, at, p, PointerAt(kind, r));
    }
    forall r: nat | r < VersionOf(kind).streams
      ensures Increment(kind, t, r) == Increment(kind, s, r)
    {
      ReadElsewhere(s.driver, at, p, IncrementAt(kind, r));
    }
    forall k: nat | k < 3
      ensures MusicBase(kind, t, k) == MusicBase(kind, s, k)
    {
      ReadElsewhere(s.driver, at, p, VersionOf(kind).musicBase + k * 4);
    }
  }

  // ---- Any interleaving of stream reads ----

  /** The state after reading the streams of h in order. */
  function Reads(kind: Kind, s: State, h: seq<nat>): State
  {
    if h == [] then s else StreamData(kind, Reads(kind, s, h[..|h| - 1]), h[|h| - 1]).0
  }

  function Times(h: seq<nat>, reg: nat): nat
  {
    if h == [] then 0 else Times(h[..|h| - 1], reg) + if h[|h| - 1] == reg then 1 else 0
  }

  predicate InTable(kind: Kind, h: seq<nat>) { forall k | 0 <= k < |h| :: h[k] < VersionOf(kind).streams }

  /** A stream's pointer after any interleaving depends only on how often it was read itself. */
  lemma {:induction false} PointersAdvanceAlone(kind: Kind, s: State, h: seq<nat>, reg: nat)
    requires s.Valid(kind) && InTable(kind, h) && reg < VersionOf(kind).streams
    ensures var t := Reads(kind, s, h);
      && t.Valid(kind) && t.data == s.data
      && Pointer(kind, t, reg)
         == (Pointer(kind, s, reg) + Times(h, reg) * StepOf(kind, Increment(kind, s, reg))) % U32
      && Increment(kind, t, reg) == Increment(kind, s, reg)
  {
    hide Pointer, Increment, WithPointer, StepOf, VersionOf;
    if h != [] {
      var before, last := h[..|h| - 1], h[|h| - 1];
      assert InTable(kind, before) && last < VersionOf(kind).streams;
      PointersAdvanceAlone(kind, s, before, reg);
      var t := Reads(kind, s, before);
      var next := Add32(Pointer(kind, t, last), StepOf(kind, Increment(kind, t, last)));
      PointerUpdateIsLocal(kind, t, last, next);
      if last == reg {
        Advance(Pointer(kind, s, reg), Times(before, reg), StepOf(kind, Increment(kind, s, reg)));
      }
    }
  }

  lemma Advance(p: u32, n: nat, step: u32)
    ensures Add32((p + n * step) % U32, step) == (p + (n + 1) * step) % U32
  {
    assert (n + 1) * step == n * step + step;
    AddReduced(p + n * step, step, U32);
  }

  /** Closed form of every stream read, all increments and all interleavings of the streams included. */
  lemma StreamClosedForm(kind: Kind, s: State, h: seq<nat>, reg: nat)
    requires s.Valid(kind) && InTable(kind, h) && reg < VersionOf(kind).streams
    ensures var p := (Pointer(kind, s, reg) + Times(h, reg) * StepOf(kind, Increment(kind, s, reg))) % U32;
      StreamData(kind, Reads(kind, s, h), reg).1 == Get(s.data, p / VersionOf(kind).fetcherUnit)
  {
    hide Pointer, Increment, StepOf, VersionOf, Reads;
    PointersAdvanceAlone(kind, s, h, reg);
  }

  // ---- The communication stream as a queue ----

  predicate Standard(kind: Kind) { kind != CdfjPlus }

  /** The address two pointer bytes select. */
  function Selected(hi: u8, lo: u8): (r: nat)
    ensures r < 0x1000
  {
    hi % 0x10 * 0x100 + lo
  }

  function SetPointer(kind: Kind, s: State, hi: u8, lo: u8): State
  {
    DsPtr(kind, DsPtr(kind, s, hi), lo)
  }

  lemma ShiftedParts(kind: Kind, q: nat, r: nat, val: u8)
    requires Standard(kind) && q < 0x1000 && r < 0x10_0000
    ensures Shifted(kind, q * 0x10_0000 + r, val) == (q % 0x10 * 0x100 + val) * 0x10_0000
  {
    var p, m := q * 0x10_0000 + r, 0x1000_0000;
    var top, rest := q % 0x10, q / 0x10 % 0x10;
    assert p * 0x100 == (q / 0x10) * U32 + (top * m + r * 0x100);
    ModUnique(p * 0x100, U32, q / 0x10, top * m + r * 0x100);
    ModUnique(top * m + r * 0x100, m, top, r * 0x100);
  }

  lemma ShiftedTwice(kind: Kind, p: u32, hi: u8, lo: u8)
    requires Standard(kind)
    ensures Shifted(kind, Shifted(kind, p, hi), lo) == Selected(hi, lo) * 0x10_0000
  {
    hide Shifted;
    ShiftedParts(kind, p / 0x10_0000, p % 0x10_0000, hi);
    var q := p / 0x10_0000 % 0x10 * 0x100 + hi;
    ShiftedParts(kind, q, 0, lo);
    assert q % 0x10 == hi % 0x10;
  }

  /** Writing high then low byte makes the pointer exactly the selected address, whatever it was. */
  lemma PointerIsSelected(kind: Kind, s: State, hi: u8, lo: u8)
    requires s.Valid(kind) && Standard(kind)
    ensures var t := SetPointer(kind, s, hi, lo);
      && t.Valid(kind) && t.data == s.data
      && Pointer(kind, t, DS_COMM) == Selected(hi, lo) * 0x10_0000
      && Increment(kind, t, DS_COMM) == Increment(kind, s, DS_COMM)
  {
    hide Pointer, Increment, WithPointer, Shifted, VersionOf, Selected;
    var p := Pointer(kind, s, DS_COMM);
    TablesApart(kind, 0) by { StreamsPositive(kind); }
    PointerUpdateIsLocal(kind, s, DS_COMM, Shifted(kind, p, hi));
    PointerUpdateIsLocal(kind, DsPtr(kind, s, hi), DS_COMM, Shifted(kind, Shifted(kind, p, hi), lo));
    ShiftedTwice(kind, p, hi, lo);
  }

  lemma StreamsPositive(kind: Kind)
    ensures 0 < VersionOf(kind).streams
  {
  }

  function WriteAll(kind: Kind, s: State, vs: seq<u8>): State
  {
    if vs == [] then s else DsWrite(kind, WriteAll(kind, s, vs[..|vs| - 1]), vs[|vs| - 1])
  }

  function ReadAll(kind: Kind, s: State, n: nat): (r: (State, seq<u8>))
    ensures |r.1| == n
  {
    if n == 0 then (s, []) else
    var (t, vs) := ReadAll(kind, s, n - 1);
    var (u, v) := StreamData(kind, t, DS_COMM);
    (u, vs + [v])
  }

  /** A pointer that is a whole address. */
  function Whole(a: nat): u32 { a % 0x1000 * 0x10_0000 }

  lemma NextWhole(a: nat)
    ensures Add32(Whole(a), 0x10_0000) == Whole(a + 1)
    ensures Whole(a) / 0x10_0000 == a % 0x1000
  {
    var x := a % 0x1000;
    assert (a + 1) % 0x1000 == if x == 0xFFF then 0 else x + 1;
  }

  lemma OneWrite(kind: Kind, s: State, a: nat, v: u8)
    requires s.Valid(kind) && Standard(kind) && Pointer(kind, s, DS_COMM) == Whole(a)
    ensures var t := DsWrite(kind, s, v);
      && t.Valid(kind) && t.data == s.data[a % 0x1000 := v]
      && Pointer(kind, t, DS_COMM) == Whole(a + 1)
      && Increment(kind, t, DS_COMM) == Increment(kind, s, DS_COMM)
  {
    hide Pointer, Increment, WithPointer, Whole, Add32;
    NextWhole(a);
    TablesApart(kind, 0);
    PointerUpdateIsLocal(kind, s.(data := s.data[a % 0x1000 := v]), DS_COMM, Whole(a + 1));
    SameDriver(kind, s, s.data[a % 0x1000 := v]);
  }

  lemma SameDriver(kind: Kind, s: State, data: seq<u8>)
    ensures Increment(kind, s.(data := data), DS_COMM) == Increment(kind, s, DS_COMM)
  {
  }

  lemma {:induction false} AfterWrites(kind: Kind, s: State, a: nat, vs: seq<u8>)
    requires s.Valid(kind) && Standard(kind) && a < 0x1000 && Pointer(kind, s, DS_COMM) == Whole(a)
    ensures var t := WriteAll(kind, s, vs);
      && t.Valid(kind) && Pointer(kind, t, DS_COMM) == Whole(a + |vs|)
      && Increment(kind, t, DS_COMM) == Increment(kind, s, DS_COMM)
      && t.data == Ring.Written(s.data, a, false, vs)
  {
    hide Pointer, Increment, DsWrite, Whole, Ring.Walk;
    if vs != [] {
      var before, v := vs[..|vs| - 1], vs[|vs| - 1];
      AfterWrites(kind, s, a, before);
      OneWrite(kind, WriteAll(kind, s, before), a + |before|, v);
      Ring.WalkUp(a, |before|);
    }
  }

  /** With increment $100 each read steps one byte. */
  lemma OneRead(kind: Kind, s: State, a: nat)
    requires s.Valid(kind) && Standard(kind) && Pointer(kind, s, DS_COMM) == Whole(a)
    requires Increment(kind, s, DS_COMM) == 0x100
    ensures var (t, v) := StreamData(kind, s, DS_COMM);
      && t.Valid(kind) && t.data == s.data && v == s.data[a % 0x1000]
      && Pointer(kind, t, DS_COMM) == Whole(a + 1) && Increment(kind, t, DS_COMM) == 0x100
  {
    hide Pointer, Increment, WithPointer, Whole, Add32;
    NextWhole(a);
    TablesApart(kind, 0);
    PointerUpdateIsLocal(kind, s, DS_COMM, Whole(a + 1));
    assert StepOf(kind, 0x100) == 0x10_0000;
  }

  lemma {:induction false} AfterReads(kind: Kind, s: State, a: nat, n: nat)
    requires s.Valid(kind) && Standard(kind) && Pointer(kind, s, DS_COMM) == Whole(a)
    requires Increment(kind, s, DS_COMM) == 0x100
    ensures var (t, vs) := ReadAll(kind, s, n);
      && t.Valid(kind) && t.data == s.data && Pointer(kind, t, DS_COMM) == Whole(a + n)
      && Increment(kind, t, DS_COMM) == 0x100
      && forall k: nat | k < n :: vs[k] == s.data[(a + k) % 0x1000]
  {
    hide Pointer, Increment, StreamData, Whole;
    if n > 0 {
      AfterReads(kind, s, a, n - 1);
      OneRead(kind, ReadAll(kind, s, n - 1).0, a + n - 1);
    }
  }

  /**
   CDF0, CDF1 and CDFJ: set the pointer, write vs, set the pointer again, and read as many bytes with
   increment $100: they come back in order, except that past 4096 bytes only the newest of those sharing
   an address survives. Bytes the writes did not reach are unchanged.
   */
  lemma CommunicationRoundTrip(kind: Kind, s: State, hi: u8, lo: u8, vs: seq<u8>)
    requires s.Valid(kind) && Standard(kind) && Increment(kind, s, DS_COMM) == 0x100
    ensures var written := WriteAll(kind, SetPointer(kind, s, hi, lo), vs);
      var rs := ReadAll(kind, SetPointer(kind, written, hi, lo), |vs|).1; var n := |vs|;
      && (forall k: nat | k < n :: rs[k] == vs[Ring.Newest(n, k)])
      && (n <= 0x1000 ==> rs == vs)
      && |written.data| == 0x1000
      && forall x: nat | x < 0x1000 && (x - Selected(hi, lo)) % 0x1000 >= n :: written.data[x] == s.data[x]
  {
    hide Pointer, Increment, SetPointer, WriteAll, ReadAll, Ring.Newest, Ring.Written, Selected;
    var a, n := Selected(hi, lo), |vs|;
    var t := SetPointer(kind, s, hi, lo);
    PointerIsSelected(kind, s, hi, lo);
    SelectedIsWhole(a);
    AfterWrites(kind, t, a, vs);
    var written := WriteAll(kind, t, vs);
    var u := SetPointer(kind, written, hi, lo);
    PointerIsSelected(kind, written, hi, lo);
    AfterReads(kind, u, a, n);
    RingReads(s.data, vs, a, ReadAll(kind, u, n).1);
  }

  lemma SelectedIsWhole(a: nat)
    requires a < 0x1000
    ensures Whole(a) == a * 0x10_0000
  {
  }

  /** Reading a written ring from its start, and what the writes did not reach. */
  lemma RingReads(before: seq<u8>, vs: seq<u8>, a: nat, rs: seq<u8>)
    requires a < 0x1000 && |before| == 0x1000 && |rs| == |vs|
    requires forall k: nat | k < |vs| :: rs[k] == Ring.Written(before, a, false, vs)[(a + k) % 0x1000]
    ensures var n, data := |vs|, Ring.Written(before, a, false, vs);
      && (forall k: nat | k < n :: rs[k] == vs[Ring.Newest(n, k)])
      && (n <= 0x1000 ==> rs == vs)
      && forall x: nat | x < 0x1000 && (x - a) % 0x1000 >= n :: data[x] == before[x]
  {
    hide Ring.Newest, Ring.Written, Ring.Walk;
    var data := Ring.Written(before, a, false, vs);
    Ring.WrittenHolds(before, a, false, vs);
    forall k: nat | k < |vs|
      ensures rs[k] == data[Ring.Walk(a, false, k)]
    {
      Ring.WalkUp(a, k);
    }
    Ring.RingReads(data, before, vs, a, rs);
    forall x: nat | x < 0x1000 && (x - a) % 0x1000 >= |vs|
      ensures data[x] == before[x]
    {
      Ring.SlotUp(a, x);
    }
  }

  // ---- The same for CDFJ+, whose 30 KiB of data do not wrap ----

  lemma ShiftedPlus(p: u32, hi: u8, lo: u8)
    ensures Shifted(CdfjPlus, Shifted(CdfjPlus, p, hi), lo) == Word(lo, hi) * 0x1_0000
  {
    hide Shifted;
    ShiftedPlusParts(p / 0x1_0000, p % 0x1_0000, hi);
    ShiftedPlusParts(p / 0x1_0000 % 0x100 * 0x100 + hi, 0, lo);
  }

  lemma ShiftedPlusParts(q: nat, r: nat, val: u8)
    requires q < 0x1_0000 && r < 0x1_0000
    ensures Shifted(CdfjPlus, q * 0x1_0000 + r, val) == (q % 0x100 * 0x100 + val) * 0x1_0000
  {
    var p, m, top := q * 0x1_0000 + r, 0x100_0000, q % 0x100;
    assert p * 0x100 == (q / 0x100) * U32 + (top * m + r * 0x100);
    ModUnique(p * 0x100, U32, q / 0x100, top * m + r * 0x100);
    ModUnique(top * m + r * 0x100, m, top, r * 0x100);
  }

  lemma PointerIsSelectedPlus(s: State, hi: u8, lo: u8)
    requires s.Valid(CdfjPlus)
    ensures var t := SetPointer(CdfjPlus, s, hi, lo);
      && t.Valid(CdfjPlus) && t.data == s.data
      && Pointer(CdfjPlus, t, DS_COMM) == Word(lo, hi) * 0x1_0000
      && Increment(CdfjPlus, t, DS_COMM) == Increment(CdfjPlus, s, DS_COMM)
  {
    hide Pointer, Increment, WithPointer, Shifted, VersionOf, Word;
    var p := Pointer(CdfjPlus, s, DS_COMM);
    TablesApart(CdfjPlus, 0) by { StreamsPositive(CdfjPlus); }
    PointerUpdateIsLocal(CdfjPlus, s, DS_COMM, Shifted(CdfjPlus, p, hi));
    PointerUpdateIsLocal(CdfjPlus, DsPtr(CdfjPlus, s, hi), DS_COMM, Shifted(CdfjPlus, Shifted(CdfjPlus, p, hi), lo));
    ShiftedPlus(p, hi, lo);
  }

  lemma OneWritePlus(s: State, a: nat, v: u8)
    requires s.Valid(CdfjPlus) && a < 0x7800 && Pointer(CdfjPlus, s, DS_COMM) == a * 0x1_0000
    ensures var t := DsWrite(CdfjPlus, s, v);
      && t.Valid(CdfjPlus) && t.data == s.data[a := v]
      && Pointer(CdfjPlus, t, DS_COMM) == (a + 1) * 0x1_0000
      && Increment(CdfjPlus, t, DS_COMM) == Increment(CdfjPlus, s, DS_COMM)
  {
    hide Pointer, Increment, WithPointer;
    TablesApart(CdfjPlus, 0);
    PointerUpdateIsLocal(CdfjPlus, s.(data := s.data[a := v]), DS_COMM, (a + 1) * 0x1_0000);
    SameDriver(CdfjPlus, s, s.data[a := v]);
  }

  /** A write is dropped, and leaves the pointer where it is, if and only if it is past the end of the data. */
  lemma WritePastEndIsDropped(s: State, v: u8)
    requires s.Valid(CdfjPlus)
    ensures DsWrite(CdfjPlus, s, v) == s <==> Pointer(CdfjPlus, s, DS_COMM) / 0x1_0000 >= 0x7800
  {
    hide Pointer, WithPointer;
    var p := Pointer(CdfjPlus, s, DS_COMM);
    var i := p / 0x1_0000;
    if i < 0x7800 {
      TablesApart(CdfjPlus, 0);
      PointerUpdateIsLocal(CdfjPlus, s.(data := s.data[i := v]), DS_COMM, p + 0x1_0000);
    }
  }

  /** How many of n bytes written from address a land in the data. */
  function Landed(a: nat, n: nat): (r: nat)
    ensures r <= n
  {
    if a >= 0x7800 then 0 else Min(n, 0x7800 - a)
  }

  function Spliced(data: seq<u8>, a: nat, vs: seq<u8>): seq<u8>
    requires vs != [] ==> a + |vs| <= |data|
  {
    if vs == [] then data else data[..a] + vs + data[a + |vs|..]
  }

  lemma SpliceOneMore(data: seq<u8>, a: nat, vs: seq<u8>, v: u8)
    requires a + |vs| < |data|
    ensures Spliced(data, a, vs)[a + |vs| := v] == Spliced(data, a, vs + [v])
  {
  }

  lemma SplicedAt(data: seq<u8>, a: nat, vs: seq<u8>, k: nat)
    requires k < |vs| && a + |vs| <= |data|
    ensures Spliced(data, a, vs)[a + k] == vs[k]
  {
  }

  lemma {:induction false} AfterWritesPlus(s: State, a: nat, vs: seq<u8>)
    requires s.Valid(CdfjPlus) && a < 0x1_0000 && Pointer(CdfjPlus, s, DS_COMM) == a * 0x1_0000
    ensures var t, m := WriteAll(CdfjPlus, s, vs), Landed(a, |vs|);
      && t.Valid(CdfjPlus) && Pointer(CdfjPlus, t, DS_COMM) == (a + m) * 0x1_0000
      && Increment(CdfjPlus, t, DS_COMM) == Increment(CdfjPlus, s, DS_COMM)
      && t.data == Spliced(s.data, a, vs[..m])
  {
    hide Pointer, Increment, DsWrite, Spliced;
    if vs == [] {
      NothingSpliced(s.data, a);
    } else {
      var before, v := vs[..|vs| - 1], vs[|vs| - 1];
      AfterWritesPlus(s, a, before);
      var t, m := WriteAll(CdfjPlus, s, before), Landed(a, |before|);
      if a + m < 0x7800 {
        OneWritePlus(t, a + m, v);
        SpliceOneMore(s.data, a, before[..m], v);
        assert before[..m] + [v] == vs[..m + 1];
      } else {
        WritePastEndIsDropped(t, v);
        assert before[..m] == vs[..m];
      }
    }
  }

  lemma NothingSpliced(data: seq<u8>, a: nat)
    ensures Spliced(data, a, []) == data
  {
  }

  /** With increment $100 each read steps one byte of the 64 KiB the pointer spans; past the data it answers 0. */
  lemma {:induction false} AfterReadsPlus(s: State, a: nat, n: nat)
    requires s.Valid(CdfjPlus) && a < 0x1_0000 && Pointer(CdfjPlus, s, DS_COMM) == a * 0x1_0000
    requires Increment(CdfjPlus, s, DS_COMM) == 0x100
    ensures var (t, vs) := ReadAll(CdfjPlus, s, n);
      && t.Valid(CdfjPlus) && t.data == s.data && Pointer(CdfjPlus, t, DS_COMM) == (a + n) % 0x1_0000 * 0x1_0000
      && Increment(CdfjPlus, t, DS_COMM) == 0x100
      && forall k: nat | k < n :: vs[k] == Get(s.data, (a + k) % 0x1_0000)
  {
    hide Pointer, Increment, StreamData, Get;
    if n > 0 {
      AfterReadsPlus(s, a, n - 1);
      OneReadPlus(ReadAll(CdfjPlus, s, n - 1).0, (a + n - 1) % 0x1_0000);
      AddReduced(a + n - 1, 1, 0x1_0000);
    }
  }

  lemma OneReadPlus(s: State, a: nat)
    requires s.Valid(CdfjPlus) && a < 0x1_0000 && Pointer(CdfjPlus, s, DS_COMM) == a * 0x1_0000
    requires Increment(CdfjPlus, s, DS_COMM) == 0x100
    ensures var (t, v) := StreamData(CdfjPlus, s, DS_COMM);
      && t.Valid(CdfjPlus) && t.data == s.data && v == Get(s.data, a)
      && Pointer(CdfjPlus, t, DS_COMM) == (a + 1) % 0x1_0000 * 0x1_0000 && Increment(CdfjPlus, t, DS_COMM) == 0x100
  {
    hide Pointer, Increment, WithPointer, Get;
    TablesApart(CdfjPlus, 0);
    assert StepOf(CdfjPlus, 0x100) == 0x1_0000;
    PointerUpdateIsLocal(CdfjPlus, s, DS_COMM, (a + 1) % 0x1_0000 * 0x1_0000);
  }

  /**
   CDFJ+, any number of bytes from any address: those below the end of the data are stored and come back, the
   rest are dropped, and reads continue past the end with zeros until the pointer wraps. All of them come back
   if and only if each one beyond the end happens to be what is read there.
   */
  lemma CommunicationRoundTripPlus(s: State, hi: u8, lo: u8, vs: seq<u8>)
    requires s.Valid(CdfjPlus) && Increment(CdfjPlus, s, DS_COMM) == 0x100
    ensures var written := WriteAll(CdfjPlus, SetPointer(CdfjPlus, s, hi, lo), vs);
      var rs := ReadAll(CdfjPlus, SetPointer(CdfjPlus, written, hi, lo), |vs|).1;
      var a, n := Word(lo, hi), |vs|;
      && written.data == Spliced(s.data, a, vs[..Landed(a, n)])
      && (forall k: nat | k < n && a + k < 0x7800 :: rs[k] == vs[k])
      && (forall k: nat | k < n && 0x7800 <= a + k < 0x1_0000 :: rs[k] == 0)
      && (forall k: nat | k < n && 0x1_0000 <= a + k :: rs[k] == Get(written.data, (a + k) % 0x1_0000))
      && (rs == vs <==> forall k: nat | k < n && 0x7800 <= a + k :: vs[k] == Get(written.data, (a + k) % 0x1_0000))
  {
    hide Pointer, Increment, SetPointer, WriteAll, ReadAll, Word, Spliced, Landed, Get;
    PointerIsSelectedPlus(s, hi, lo);
    var a, n := Word(lo, hi), |vs|;
    var t := SetPointer(CdfjPlus, s, hi, lo);
    AfterWritesPlus(t, a, vs);
    var written := WriteAll(CdfjPlus, t, vs);
    PointerIsSelectedPlus(written, hi, lo);
    AfterReadsPlus(SetPointer(CdfjPlus, written, hi, lo), a, n);
    ReadsOfSplice(s.data, written.data, a, vs, ReadAll(CdfjPlus, SetPointer(CdfjPlus, written, hi, lo), n).1);
  }

  lemma ReadsOfSplice(data: seq<u8>, written: seq<u8>, a: nat, vs: seq<u8>, rs: seq<u8>)
    requires |data| == 0x7800 && a < 0x1_0000 && |rs| == |vs|
    requires written == Spliced(data, a, vs[..Landed(a, |vs|)]) && |written| == 0x7800
    requires forall k: nat | k < |vs| :: rs[k] == Get(written, (a + k) % 0x1_0000)
    ensures forall k: nat | k < |vs| && a + k < 0x7800 :: rs[k] == vs[k]
    ensures forall k: nat | k < |vs| && 0x7800 <= a + k < 0x1_0000 :: rs[k] == 0
    ensures rs == vs <==> forall k: nat | k < |vs| && 0x7800 <= a + k :: vs[k] == Get(written, (a + k) % 0x1_0000)
  {
    hide Spliced;
    forall k: nat | k < |vs| && a + k < 0x7800
      ensures rs[k] == vs[k]
    {
      SplicedAt(data, a, vs[..Landed(a, |vs|)], k);
    }
  }

  /** Below the wrap, the bytes come back if and only if those past the end of the data are all zero. */
  lemma RoundTripPlusExactly(s: State, hi: u8, lo: u8, vs: seq<u8>)
    requires s.Valid(CdfjPlus) && Increment(CdfjPlus, s, DS_COMM) == 0x100 && Word(lo, hi) + |vs| <= 0x1_0000
    ensures var written := WriteAll(CdfjPlus, SetPointer(CdfjPlus, s, hi, lo), vs);
      var rs := ReadAll(CdfjPlus, SetPointer(CdfjPlus, written, hi, lo), |vs|).1;
      rs == vs <==> forall k: nat | k < |vs| && 0x7800 <= Word(lo, hi) + k :: vs[k] == 0
  {
    hide SetPointer, WriteAll, ReadAll, Word, Increment, Spliced, Landed;
    CommunicationRoundTripPlus(s, hi, lo, vs);
  }

  /** One non-zero byte at the first address past the data is lost. */
  lemma LostByte(s: State, v: u8)
    requires s.Valid(CdfjPlus) && Increment(CdfjPlus, s, DS_COMM) == 0x100 && v != 0
    ensures var written := WriteAll(CdfjPlus, SetPointer(CdfjPlus, s, 0x78, 0x00), [v]);
      ReadAll(CdfjPlus, SetPointer(CdfjPlus, written, 0x78, 0x00), 1).1 == [0]
  {
    hide SetPointer, WriteAll, ReadAll, Increment, Spliced, Landed;
    CommunicationRoundTripPlus(s, 0x78, 0x00, [v]);
  }

  // ---- The board's hooks ----

  lemma NewIsValid(rom: seq<u8>, layout: Layout)
    requires Accepts(|rom|, layout.kind)
    ensures New(rom, layout).Valid()
  {
  }

  lemma NewHoldsDump(rom: seq<u8>, layout: Layout)
    requires Accepts(|rom|, layout.kind)
    ensures var b := New(rom, layout); b.driverRom + b.custom == rom
  {
  }

  ghost predicate ImageKept(b: Board, c: Board) { c.Valid() && c.driverRom == b.driverRom && c.custom == b.custom }

  lemma FastJumpKeeps(b: Board, a: nat)
    requires b.Valid()
    ensures ImageKept(b, FastJump(b, a).board)
  {
    hide Write32, Read32, Flash, PointerAt;
  }

  lemma FastLoadKeeps(b: Board, data: u8)
    requires b.Valid()
    ensures ImageKept(b, FastLoad(b, data).board)
  {
    hide Write32, Read32, AmplitudeOf, PointerAt, IncrementAt, StepOf, Get;
  }

  lemma CpuReadKeeps(b: Board, addr: u16)
    requires b.Valid()
    ensures ImageKept(b, CpuRead(b, addr).0)
  {
    hide FastJump, FastLoad, Flash;
    var a := addr % 0x1000;
    FastJumpKeeps(b, a);
    FastLoadKeeps(FastJump(b, a).board, Flash(b.custom, b.Window() + a, 0));
  }

  /** Whatever the ARM leaves behind; only it can touch the image. */
  lemma CpuWriteKeeps(b: Board, addr: u16, val: u8, arm: Arm)
    requires b.Valid()
    ensures CpuWrite(b, addr, val, arm).Valid()
    ensures !StartsArm(addr, val) ==> ImageKept(b, CpuWrite(b, addr, val, arm))
  {
    hide Write32, Read32, Left, LeftWord, Shifted;
  }

  lemma TickKeeps(b: Board)
    requires b.Valid()
    ensures ImageKept(b, Tick(b))
  {
  }

  function Ticks(b: Board, n: nat): (r: Board)
    requires b.Valid()
    ensures r.Valid()
  {
    if n == 0 then b else
    TickKeeps(Ticks(b, n - 1));
    Tick(Ticks(b, n - 1))
  }

  /** Cycles touch the deadline and the music only. */
  lemma {:induction false} TicksOnly(b: Board, n: nat)
    requires b.Valid()
    ensures var t := Ticks(b, n);
      && t == b.(fastLoad := t.fastLoad, music := t.music, beats := t.beats)
      && t.fastLoad == if b.fastLoad > n then b.fastLoad - n else 0
  {
    hide Board.Valid;
    if n > 0 {
      TicksOnly(b, n - 1);
      TickOnly(Ticks(b, n - 1));
    }
  }

  lemma TickOnly(b: Board)
    requires b.Valid()
    ensures var t := Tick(b);
      && t == b.(fastLoad := t.fastLoad, music := t.music, beats := t.beats)
      && t.fastLoad == if b.fastLoad > 0 then b.fastLoad - 1 else 0
  {
  }

  /** A read that no armed redirect answers: it gives the byte of the flash itself. */
  ghost predicate PlainRead(b: Board, addr: u16)
    requires |b.music| == 3
  {
    var a := addr % 0x1000;
    && !IsHotspot(addr) && FastJump(b, a).Passed?
    && FastLoad(FastJump(b, a).board, Flash(b.custom, b.Window() + a, 0)).Passed?
  }

  /**
   FastFetch from opcode to operand. After a plain read of the byte $A9, whatever was armed before, an operand
   naming a stream is answered by that stream, and its pointer advances, exactly when it is read within one cycle;
   later it is a plain byte.
   */
  lemma OperandInTime(b: Board, addr: u16, n: nat, next: u16)
    requires b.Valid() && b.fastFetch && |b.music| == 3 && PlainRead(b, addr) && !IsHotspot(next)
    requires Flash(b.custom, b.Window() + addr % 0x1000, 0) == 0xA9
    ensures CpuRead(b, addr).1 == 0xA9 && ImageKept(b, CpuRead(b, addr).0)
    ensures var c, operand := Ticks(CpuRead(b, addr).0, n), Flash(b.custom, b.Window() + next % 0x1000, 0);
      var (d, v) := CpuRead(c, next);
      b.layout.offset <= operand <= Add8(b.layout.offset, DS_COMM) ==>
        if n <= 1 then (d.s, v) == StreamData(b.layout.kind, b.s, operand - b.layout.offset)
        else d.s == b.s && v == operand
  {
    hide StreamData, AmplitudeOf, Flash, Board.Valid, Tick, Ticks;
    CpuReadKeeps(b, addr);
    var c := CpuRead(b, addr).0;
    assert c == b.(fastLoad := 2, fastJmp := 0);
    TicksOnly(c, n);
    ThreeChannels(Ticks(c, n));
  }

  lemma ThreeChannels(b: Board)
    requires b.Valid()
    ensures |b.music| == 3
  {
  }
}

/** The CDF board updated in place. */
module CdfBoard {
  import opened Bits
  import opened Bytes
  import opened Coprocessor
  import opened Words
  import C = Cdf
  import T = CdfTheorems

  class BankCdf {
    const layout: C.Layout
    var driverRom: seq<u8>
    var customRom: seq<u8>
    var variablesRam: seq<u8>
    const driverRam: array<u8>
    const dataRam: array<u8>
    const music: array<C.Music>
    var bank: nat
    var fastFetch: bool
    var sampleMode: bool
    var fastLoad: nat
    var fastJmp: nat
    var beats: u32

    ghost function S(): C.State
      reads driverRam, dataRam
    {
      C.State(driverRam[..], dataRam[..])
    }

    ghost function B(): C.Board
      reads this, driverRam, dataRam, music
    {
      C.Board(layout, driverRom, customRom, S(), variablesRam, bank, fastFetch, sampleMode, fastLoad, fastJmp,
              music[..], beats)
    }

    ghost predicate Valid()
      reads this, driverRam, dataRam, music
    {
      B().Valid() && driverRam != dataRam
    }

    constructor (rom: seq<u8>, layout: C.Layout)
      requires C.Accepts(|rom|, layout.kind)
      ensures Valid() && fresh(driverRam) && fresh(dataRam) && fresh(music) && B() == C.New(rom, layout)
    {
      hide C.Board.Valid;
      this.layout := layout;
      driverRom, customRom := rom[..C.DRIVER_SIZE], rom[C.DRIVER_SIZE..];
      variablesRam := if layout.kind == C.CdfjPlus then [] else seq(C.VARIABLES_SIZE, i => 0 as u8);
      driverRam := new u8[C.DRIVER_SIZE](k requires 0 <= k < C.DRIVER_SIZE => rom[k]);
      dataRam := new u8[C.VersionOf(layout.kind).dataSize](_ => 0);
      music := new C.Music[3](_ => C.Music(0x1B, 0, 0));
      bank, fastFetch, sampleMode, fastLoad, fastJmp, beats := 0, false, false, 0, 0, 0;
      new;
      T.NewIsValid(rom, layout);
      assert driverRam[..] == rom[..C.DRIVER_SIZE];
      assert dataRam[..] == C.New(rom, layout).s.data;
      assert music[..] == C.New(rom, layout).music;
    }

    function ReadU32(at: nat): (r: u32)
      reads driverRam
      ensures r == C.Read32(driverRam[..], at)
    {
      C.Read32(driverRam[..], at)
    }

    method WriteU32(at: nat, w: u32)
      requires Valid()
      modifies driverRam
      ensures Valid() && driverRam[..] == C.Write32(old(driverRam[..]), at, w)
    {
      if at + 4 <= driverRam.Length {
        var bytes := LeBytes(w, 4);
        for k := 0 to 4
          invariant driverRam[..] == old(driverRam[..])[..at] + bytes[..k] + old(driverRam[..])[at + k..]
        {
          driverRam[at + k] := bytes[k];
        }
      }
    }

    method UpdateDatastreamPointer(reg: nat, p: u32)
      requires Valid()
      modifies driverRam
      ensures Valid() && S() == C.WithPointer(layout.kind, old(S()), reg, p)
    {
      WriteU32(C.PointerAt(layout.kind, reg), p);
    }

    method StreamData(reg: nat) returns (output: u8)
      requires Valid()
      modifies driverRam
      ensures Valid() && (S(), output) == C.StreamData(layout.kind, old(S()), reg)
    {
      hide C.Read32, C.WithPointer;
      var ptr := ReadU32(C.PointerAt(layout.kind, reg));
      var inc := ReadU32(C.IncrementAt(layout.kind, reg));
      var idx := ptr / C.VersionOf(layout.kind).fetcherUnit;
      output := if idx < dataRam.Length then dataRam[idx] else 0;
      UpdateDatastreamPointer(reg, Add32(ptr, C.StepOf(layout.kind, inc)));
    }

    /** Bank hotspots consume the access. */
    method Bankswitch(addr: u16) returns (hit: bool)
      requires Valid()
      modifies this`bank
      ensures Valid() && hit == C.IsHotspot(addr)
      ensures B() == if hit then C.Switched(old(B()), addr) else old(B())
    {
      var a := addr % 0x1000;
      hit := 0xFF4 <= a <= 0xFFB;
      if hit {
        bank := if layout.kind == C.CdfjPlus then a - 0xFF4 else C.STANDARD_BANKS[a - 0xFF4];
      }
    }

    function WindowOffset(): (r: nat)
      reads this, driverRam, dataRam, music
      ensures r == B().Window()
    {
      bank * C.BANK_SIZE + if layout.kind == C.CdfjPlus then 0 else C.CUSTOM_SIZE
    }

    /** The two reads after a fast jump's opcode. */
    method FastJump(a: nat) returns (answered: bool, v: u8)
      requires Valid()
      modifies this`fastJmp, driverRam
      ensures Valid()
      ensures C.FastJump(old(B()), a) == if answered then C.Answered(B(), v) else C.Passed(B())
    {
      hide C.Read32, C.WithPointer, C.Flash;
      answered, v := false, 0;
      if fastFetch && fastJmp > 0 {
        var before := WindowOffset() + a - 1;
        if fastJmp < 2 || C.Flash(customRom, before, 0) == 0x4C {
          fastJmp := fastJmp - 1;
          answered := true;
          var reg := C.Flash(customRom, before + fastJmp, 0) + C.DS_JMP;
          var ptr := ReadU32(C.PointerAt(layout.kind, reg));
          var idx := ptr / C.VersionOf(layout.kind).fetcherUnit;
          if idx < dataRam.Length {
            v := dataRam[idx];
            UpdateDatastreamPointer(reg, Add32(ptr, C.VersionOf(layout.kind).fetcherUnit));
          }
        } else {
          fastJmp := 0;
        }
      }
    }

    /** The music sum of the amplitude register, channel by channel. */
    method Amplitude() returns (v: u8)
      requires Valid()
      ensures v == C.AmplitudeOf(B())
    {
      hide C.WaveByte, C.MusicBase, Shr, C.Get;
      if sampleMode {
        var base := ReadU32(C.VersionOf(layout.kind).musicBase);
        var shift := layout.MusicShift();
        FirstBase(layout.kind, S());
        v := C.Get(dataRam[..], Add32(base, Shr(music[0].count, shift + 1)));
        if Shr(music[0].count, shift) % 2 == 0 {
          v := v / 16;
        }
      } else {
        v := 0;
        for i := 0 to 3
          invariant v == PartialSum(B(), i)
        {
          WaveByteIs(B(), i);
          var base := ReadU32(C.VersionOf(layout.kind).musicBase + i * 4);
          v := Add8(v, C.Get(dataRam[..], Add32(base, Shr(music[i].count, music[i].waveform % 32))));
        }
        SumOfThree(B());
      }
    }

    static lemma FirstBase(kind: C.Kind, s: C.State)
      ensures C.MusicBase(kind, s, 0) == C.Read32(s.driver, C.VersionOf(kind).musicBase)
    {
    }

    static ghost function PartialSum(b: C.Board, k: nat): u8
      requires |b.music| == 3 && k <= 3
    {
      if k == 0 then 0 else Add8(PartialSum(b, k - 1), C.WaveByte(b, k - 1))
    }

    static lemma WaveByteIs(b: C.Board, k: nat)
      requires k < |b.music|
      ensures C.WaveByte(b, k)
              == C.Get(b.s.data, Add32(C.Read32(b.s.driver, C.VersionOf(b.layout.kind).musicBase + k * 4),
                                       Shr(b.music[k].count, b.music[k].waveform % 32)))
    {
    }

    static lemma SumOfThree(b: C.Board)
      requires |b.music| == 3
      ensures PartialSum(b, 3) == (C.WaveByte(b, 0) + C.WaveByte(b, 1) + C.WaveByte(b, 2)) % 0x100
    {
      hide C.WaveByte;
      AddThree(C.WaveByte(b, 0), C.WaveByte(b, 1), C.WaveByte(b, 2));
      assert PartialSum(b, 1) == Add8(0, C.WaveByte(b, 0));
      assert PartialSum(b, 2) == Add8(PartialSum(b, 1), C.WaveByte(b, 1));
    }

    /** An operand read in time. */
    method FastLoad(data: u8) returns (answered: bool, v: u8)
      requires Valid()
      modifies this`fastLoad, driverRam
      ensures Valid()
      ensures C.FastLoad(old(B()), data) == if answered then C.Answered(B(), v) else C.Passed(B())
    {
      hide C.StreamData, C.AmplitudeOf;
      answered, v := false, 0;
      if fastFetch && fastLoad > 0 {
        ghost var b := B();
        var offset := layout.offset;
        if offset <= data <= Add8(offset, C.DS_COMM) {
          answered := true;
          v := StreamData(data - offset);
        } else if data == Add8(layout.Amplitude(), offset) {
          answered := true;
          v := Amplitude();
        }
        fastLoad := fastLoad - 1;
      }
    }

    /** What an opcode byte arms. */
    method Arm(a: nat, data: u8)
      requires Valid()
      modifies this`fastLoad, this`fastJmp
      ensures Valid() && B() == C.Arming(old(B()), a, data)
    {
      hide C.Flash;
      if fastFetch {
        match data
        case 0x4C =>
          var lo := C.Flash(customRom, WindowOffset() + (a + 1) % 0x1000, 0xFF);
          var hi := C.Flash(customRom, WindowOffset() + (a + 2) % 0x1000, 0xFF);
          if layout.JumpsFast(lo) && hi == 0 {
            fastJmp := 2;
          }
        case 0xA9 => fastLoad := 2;
        case 0xA2 => if layout.fastLdx { fastLoad := 2; }
        case 0xA0 => if layout.fastLdy { fastLoad := 2; }
        case _ =>
      }
    }

    method CpuRead(addr: u16) returns (v: u8)
      requires Valid()
      modifies this`bank, this`fastLoad, this`fastJmp, driverRam
      ensures Valid() && (B(), v) == C.CpuRead(old(B()), addr)
    {
      hide C.FastJump, C.FastLoad, C.Arming, C.Flash, C.Board.Window;
      var hit := Bankswitch(addr);
      if hit {
        return 0;
      }
      var a := addr % 0x1000;
      var data := C.Flash(customRom, WindowOffset() + a, 0);
      var answered;
      answered, v := FastJump(a);
      if answered {
        return;
      }
      answered, v := FastLoad(data);
      if answered {
        return;
      }
      Arm(a, data);
      v := data;
    }

    /** `DSWRITE` at $1FF0. */
    method DsWrite(val: u8)
      requires Valid()
      modifies driverRam, dataRam
      ensures Valid() && S() == C.DsWrite(layout.kind, old(S()), val)
    {
      hide C.Read32, C.WithPointer;
      var v := ReadU32(C.PointerAt(layout.kind, C.DS_COMM));
      var idx := v / C.VersionOf(layout.kind).fetcherUnit;
      if idx >= dataRam.Length {
        return;
      }
      dataRam[idx] := val;
      UpdateDatastreamPointer(C.DS_COMM, Add32(v, C.VersionOf(layout.kind).fetcherUnit));
    }

    /** `DSPTR` at $1FF1. */
    method DsPtr(val: u8)
      requires Valid()
      modifies driverRam
      ensures Valid() && S() == C.DsPtr(layout.kind, old(S()), val)
    {
      hide C.Read32, C.WithPointer, C.Shifted;
      var v := ReadU32(C.PointerAt(layout.kind, C.DS_COMM));
      UpdateDatastreamPointer(C.DS_COMM, C.Shifted(layout.kind, v, val));
    }

    /** Every segment the ARM maps, and the music registers it services, hold what its program left there. */
    method RunArm(arm: Arm)
      requires Valid()
      modifies this`driverRom, this`customRom, this`variablesRam, driverRam, dataRam, music
      ensures Valid() && B() == C.ArmRan(old(B()), arm)
    {
      hide LeftWord, C.VersionOf;
      ghost var b := B();
      ServiceMusic(arm);
      driverRom, customRom := Left(arm, 0, driverRom), Left(arm, 1, customRom);
      variablesRam := Left(arm, 4, variablesRam);
      forall i | 0 <= i < driverRam.Length {
        driverRam[i] := arm(2, i);
      }
      forall i | 0 <= i < dataRam.Length {
        dataRam[i] := arm(3, i);
      }
      assert driverRam[..] == Left(arm, 2, b.s.driver) && dataRam[..] == Left(arm, 3, b.s.data);
    }

    /** The interrupts that set notes and waveforms and restart them. */
    method ServiceMusic(arm: Arm)
      requires Valid()
      modifies music
      ensures Valid() && B() == old(B()).(music := C.ArmRan(old(B()), arm).music)
    {
      hide LeftWord, Left;
      ghost var b := B();
      for k := 0 to 3
        modifies music
        invariant forall j | 0 <= j < 3 :: music[j] == if j < k then C.ArmRan(b, arm).music[j] else b.music[j]
      {
        music[k] := C.Music(arm(5, k), LeftWord(arm, 6, 4 * k), if arm(7, k) == 0 then 0 else music[k].count);
      }
      assert music[..] == C.ArmRan(b, arm).music;
    }

    /** `arm` is what the coprocessor leaves behind, should the write start it. */
    method CpuWrite(addr: u16, val: u8, arm: Arm)
      requires Valid()
      modifies this, driverRam, dataRam, music
      ensures Valid() && B() == C.CpuWrite(old(B()), addr, val, arm)
    {
      hide C.DsWrite, C.DsPtr, C.ArmRan;
      var hit := Bankswitch(addr);
      if hit {
        return;
      }
      match addr % 0x1000
      case 0xFF0 => DsWrite(val);
      case 0xFF1 => DsPtr(val);
      case 0xFF2 =>
        fastFetch := val % 0x10 != 0xF;
        sampleMode := val / 0x10 != 0xF;
        if !fastFetch {
          fastLoad := 0;
          fastJmp := 0;
        }
      case 0xFF3 =>
        if val >= 0xFE {
          RunArm(arm);
        }
      case _ =>
    }

    method Tick()
      requires Valid()
      modifies this`fastLoad, this`beats, music
      ensures Valid() && B() == C.Tick(old(B()))
    {
      if fastLoad > 0 {
        fastLoad := fastLoad - 1;
      }
      beats := Add32(beats, 1);
      if beats % 59 == 0 {
        beats := 0;
        ghost var before := music[..];
        for k := 0 to 3
          modifies music
          invariant forall j | 0 <= j < 3 ::
            music[j] == if j < k then before[j].(count := Add32(before[j].count, before[j].freq)) else before[j]
        {
          music[k] := music[k].(count := Add32(music[k].count, music[k].freq));
        }
        assert music[..] == C.Tick(old(B())).music;
      }
    }
  }
}
