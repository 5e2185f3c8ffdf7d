/** The 4A50 board: three relocatable segments, switched by hotspots armed by the previous access. */
module FourA50 {
  import opened Bits
  import opened Words

  const IMAGE_SIZE: nat := 0x2_0000
  const RAM_SIZE: nat := 0x8000

  /** Where a segment starts and whether it reads the image or the RAM. */
  datatype Segment = Segment(rom: bool, slice: nat)

  datatype Mapping = Mapping(low: Segment, middle: Segment, high: Segment)
  {
    ghost predicate Valid()
    {
      Fits(low, 0x800) && Fits(middle, 0x800) && Fits(high, 0x100)
    }
  }

  /** Aligned to its unit, inside 64 KiB of image or 32 KiB of RAM. */
  predicate Fits(s: Segment, unit: nat)
    requires unit > 0
  {
    s.slice % unit == 0 && s.slice < if s.rom then 0x1_0000 else RAM_SIZE
  }

  datatype Board = Board(rom: seq<u8>, ram: seq<u8>, mapping: Mapping, lastData: u8, lastAddress: u16)
  {
    ghost predicate Valid()
    {
      |rom| == IMAGE_SIZE && |ram| == RAM_SIZE && mapping.Valid()
    }
  }

  // ---- The image ----

  predicate Accepts(size: nat) { size == 0x8000 || size == 0x1_0000 || size == IMAGE_SIZE }

  /** The image a dump is tiled into. */
  ghost predicate Tiles(rom: seq<u8>, dump: seq<u8>)
  {
    Accepts(|dump|) && |rom| == IMAGE_SIZE && forall i: nat | i < IMAGE_SIZE :: rom[i] == dump[i % |dump|]
  }

  const POWER_ON: Mapping := Mapping(Segment(true, 0), Segment(true, 0), Segment(true, 0))

  /** The board at power-on: the dump tiled over the image, hotspots unarmed. */
  function New(dump: seq<u8>): (b: Board)
    requires Accepts(|dump|)
    ensures b.Valid() && Tiles(b.rom, dump)
  {
    Board(seq(IMAGE_SIZE, i requires 0 <= i < IMAGE_SIZE => dump[i % |dump|]), seq(RAM_SIZE, i => 0 as u8),
          POWER_ON, 0xFF, 0xFFFF)
  }

  // ---- Windows ----

  datatype Window = LowWindow | MiddleWindow | HighWindow | FixedWindow

  /** The window a 13-bit cartridge address falls in. */
  function WindowOf(a: u16): Window
  {
    if a / 0x800 % 4 == 2 then LowWindow
    else if 0x1800 <= a <= 0x1DFF then MiddleWindow
    else if a / 0x100 % 0x20 == 0x1E then HighWindow
    else FixedWindow
  }

  function SegmentOf(m: Mapping, w: Window): Segment
  {
    match w
    case LowWindow => m.low
    case MiddleWindow => m.middle
    case HighWindow => m.high
    case FixedWindow => Segment(true, 0xFF00)
  }

  /** Whether an address reads the image, and at which index of the image or the RAM. */
  function Locate(m: Mapping, a: u16): (bool, nat)
  {
    var w := WindowOf(a);
    var s := SegmentOf(m, w);
    var offset := if w.LowWindow? || w.MiddleWindow? then a % 0x800 else a % 0x100;
    (s.rom, offset + s.slice + if s.rom && !w.LowWindow? then 0x1_0000 else 0)
  }

  lemma LocateInRange(m: Mapping, a: u16)
    requires m.Valid()
    ensures var (rom, i) := Locate(m, a); i < if rom then IMAGE_SIZE else RAM_SIZE
  {
    AlignedRoom(m.low, 0x800);
    AlignedRoom(m.middle, 0x800);
    AlignedRoom(m.high, 0x100);
  }

  lemma AlignedRoom(s: Segment, unit: nat)
    requires unit in {0x100, 0x800} && Fits(s, unit)
    ensures s.slice + unit <= if s.rom then 0x1_0000 else RAM_SIZE
  {
  }

  function Peek(b: Board, a: u16): u8
    requires b.Valid()
  {
    LocateInRange(b.mapping, a);
    var (rom, i) := Locate(b.mapping, a);
    if rom then b.rom[i] else b.ram[i]
  }

  // ---- Hotspots ----

  predicate Arming(value: u8, address: u16)
  {
    value / 0x20 == 3 && (address >= 0x1000 || address < 0x200)
  }

  predicate HotspotsActive(b: Board) { Arming(b.lastData, b.lastAddress) }

  predicate BitSet(address: u16, unit: nat)
    requires unit > 0
  {
    address / unit % 2 == 1
  }

  /** The segment selects and bit-toggle helpers, decided by the accessed address. */
  function SelectByAddress(m: Mapping, address: u16): Mapping
  {
    match address / 0x100 % 0x10
    case 0xC => m.(high := Segment(true, address % 0x100 * 0x100))
    case 0xD => m.(high := Segment(false, address % 0x80 * 0x100))
    case 0xE =>
      if !BitSet(address, 0x40) then m.(low := Segment(true, address % 0x20 * 0x800))
      else m.(low := Segment(false, address % 0x10 * 0x800))
    case 0xF =>
      if !BitSet(address, 0x40) then m.(middle := Segment(true, address % 0x20 * 0x800))
      else if !BitSet(address, 0x10) then m.(middle := Segment(false, address % 0x10 * 0x800))
      else m
    case 0x4 => m.(low := m.low.(slice := Xor(m.low.slice, 0x800)))
    case 0x5 => m.(low := m.low.(slice := Xor(m.low.slice, 0x1000)))
    case 0x8 => m.(middle := m.middle.(slice := Xor(m.middle.slice, 0x800)))
    case 0x9 => m.(middle := m.middle.(slice := Xor(m.middle.slice, 0x1000)))
    case _ => m
  }

  /** `address & 0xf75` is $74 or $75, but for its lowest bit. */
  predicate HighByValue(address: u16)
  {
    address / 0x100 % 0x10 == 0 && address / 0x10 % 8 == 7 && BitSet(address, 4)
  }

  /** `address & 0xf7c == 0x78`. */
  predicate OthersByValue(address: u16)
  {
    address / 0x100 % 0x10 == 0 && address / 8 % 0x10 == 0xF && !BitSet(address, 4)
  }

  /** The zero-page hotspots, decided by the accessed value. */
  function SelectByValue(m: Mapping, address: u16, value: u8): Mapping
  {
    if HighByValue(address) then
      m.(high := if address % 2 == 0 then Segment(true, value * 0x100) else Segment(false, value % 0x80 * 0x100))
    else if OthersByValue(address) then
      match value / 0x10
      case 0x0 => m.(low := Segment(true, value % 0x10 * 0x800))
      case 0x4 => m.(low := Segment(false, value % 0x10 * 0x800))
      case 0x9 => m.(middle := Segment(true, (value % 0x10 + 0x10) * 0x800))
      case 0xC => m.(middle := Segment(false, value % 0x10 * 0x800))
      case _ => m
    else m
  }

  function CheckBankSwitch(b: Board, address: u16, value: u8): Board
  {
    var m := if HotspotsActive(b) then SelectByAddress(b.mapping, address) else b.mapping;
    b.(mapping := SelectByValue(m, address, value))
  }

  /** The $1F00 hotspot replaces bits 8-11 of the high slice by bits of the address. */
  function Rewindow(m: Mapping, a: u16): Mapping
  {
    var s := m.high.slice;
    m.(high := m.high.(slice := s - s / 0x100 % 0x10 * 0x100 + a / 8 % 2 * 0x800 + a / 0x10 % 8 * 0x100))
  }

  function Record(b: Board, address: u16, value: u8): Board
  {
    b.(lastData := value, lastAddress := address % 0x2000)
  }

  function TouchFixed(b: Board, a: u16): Board
  {
    if WindowOf(a).FixedWindow? && HotspotsActive(b) then b.(mapping := Rewindow(b.mapping, a)) else b
  }

  function CpuRead(b: Board, addr: u16): (Board, u8)
    requires b.Valid()
  {
    var a := addr % 0x2000;
    var value := Peek(b, a);
    (Record(TouchFixed(b, a), a, value), value)
  }

  function CpuWrite(b: Board, addr: u16, val: u8): Board
    requires b.Valid()
  {
    var a := addr % 0x2000;
    LocateInRange(b.mapping, a);
    var (rom, i) := Locate(b.mapping, a);
    var stored := if rom then b else b.(ram := b.ram[i := val]);
    Record(TouchFixed(stored, a), a, val)
  }

  function Snoop(b: Board, addr: u16, val: u8): Board
  {
    Record(CheckBankSwitch(b, addr, val), addr, val)
  }

  /** A CPU access as the bus hands it to the board: its 13-bit address and the byte on the bus. */
  datatype Access = Read(addr: u16) | Write(addr: u16, val: u8) | Console(addr: u16, val: u8)

  function Step(b: Board, x: Access): Board
    requires b.Valid()
  {
    match x
    case Read(addr) => CpuRead(b, addr).0
    case Write(addr, val) => CpuWrite(b, addr, val)
    case Console(addr, val) => Snoop(b, addr, val)
  }
}

module FourA50Theorems {
  import opened Bits
  import opened Words
  import opened FourA50

  // ---- The mapping invariant ----

  /** Toggling bit k. */
  lemma {:induction false} XorToggles(x: nat, k: nat)
    ensures Xor(x, Pow2(k)) == if x / Pow2(k) % 2 == 1 then x - Pow2(k) else x + Pow2(k)
  {
    hide Xor, Pow2;
    XorHalf(x, Pow2(k));
    PowerHalves(k);
    if k > 0 {
      XorToggles(x / 2, k - 1);
      DivTwice(x, Pow2(k - 1));
      Halves(Xor(x, Pow2(k)), x, Pow2(k - 1));
    } else {
      XorZero(x / 2);
    }
  }

  lemma PowerHalves(k: nat)
    ensures if k == 0 then Pow2(k) == 1 else Pow2(k) == 2 * Pow2(k - 1) && Pow2(k - 1) > 0
  {
  }

  lemma XorZero(y: nat)
    ensures Xor(y, 0) == y
  {
  }

  /** A number from its half and its lowest bit, when the half was toggled by p. */
  lemma Halves(y: nat, x: nat, p: nat)
    requires p > 0 && y % 2 == x % 2
    requires y / 2 == if x / 2 / p % 2 == 1 then x / 2 - p else x / 2 + p
    ensures y == if x / 2 / p % 2 == 1 then x - 2 * p else x + 2 * p
  {
  }

  lemma SliceBits()
    ensures Pow2(11) == 0x800 && Pow2(12) == 0x1000
  {
    assert Pow2(6) == 0x40;
  }

  lemma ToggleFits(s: Segment, k: nat)
    requires Fits(s, 0x800) && (k == 11 || k == 12)
    ensures Pow2(11) == 0x800 && Pow2(12) == 0x1000
    ensures Fits(s.(slice := Xor(s.slice, Pow2(k))), 0x800)
  {
    hide Xor, Pow2;
    SliceBits();
    XorToggles(s.slice, k);
    AlignedToggle(s.slice, if s.rom then 0x1_0000 else RAM_SIZE, if k == 11 then 0x800 else 0x1000);
  }

  lemma AlignedToggle(x: nat, limit: nat, bit: nat)
    requires x % 0x800 == 0 && x < limit && limit in {0x1_0000, RAM_SIZE} && bit in {0x800, 0x1000}
    ensures var y := if x / bit % 2 == 1 then x - bit else x + bit; 0 <= y < limit && y % 0x800 == 0
  {
  }

  lemma SelectByAddressFits(m: Mapping, address: u16)
    requires m.Valid()
    ensures SelectByAddress(m, address).Valid()
  {
    hide Xor;
    ToggleFits(m.low, 11);
    ToggleFits(m.low, 12);
    ToggleFits(m.middle, 11);
    ToggleFits(m.middle, 12);
    ScaledFits(address % 0x100, 0x100);
    ScaledFits(address % 0x80, 0x100);
    ScaledFits(address % 0x20, 0x800);
    ScaledFits(address % 0x10, 0x800);
  }

  lemma ScaledFits(n: nat, unit: nat)
    requires unit > 0
    ensures n * unit % unit == 0
  {
    ModUnique(n * unit, unit, n, 0);
  }

  lemma SelectByValueFits(m: Mapping, address: u16, value: u8)
    requires m.Valid()
    ensures SelectByValue(m, address, value).Valid()
  {
    ScaledFits(value, 0x100);
    ScaledFits(value % 0x80, 0x100);
    ScaledFits(value % 0x10, 0x800);
    ScaledFits(value % 0x10 + 0x10, 0x800);
  }

  lemma RewindowFits(m: Mapping, a: u16)
    requires m.Valid()
    ensures Rewindow(m, a).Valid()
  {
    var s := m.high.slice;
    var n := s / 0x100;
    var kept := n - n % 0x10;
    var field := a / 8 % 2 * 8 + a / 0x10 % 8;
    assert s == n * 0x100;
    assert Rewindow(m, a).high.slice == (kept + field) * 0x100;
    ScaledFits(kept + field, 0x100);
    KeptBelow(n, field, if m.high.rom then 0x100 else 0x80);
  }

  lemma KeptBelow(n: nat, field: nat, limit: nat)
    requires n < limit && field < 0x10 && limit in {0x100, 0x80}
    ensures n - n % 0x10 + field < limit
  {
  }

  /** Whatever the access, slices stay aligned and inside their memory, and the image is not touched. */
  lemma StepKeepsValid(b: Board, x: Access)
    requires b.Valid()
    ensures Step(b, x).Valid() && Step(b, x).rom == b.rom
  {
    hide SelectByAddress, SelectByValue, Rewindow, Locate, Mapping.Valid;
    match x
    case Read(addr) => RewindowFits(b.mapping, addr % 0x2000);
    case Write(addr, val) =>
      var a := addr % 0x2000;
      LocateInRange(b.mapping, a);
      var (rom, i) := Locate(b.mapping, a);
      var stored := if rom then b else b.(ram := b.ram[i := val]);
      RewindowFits(b.mapping, a);
      assert stored.Valid() && TouchFixed(stored, a).Valid();
    case Console(addr, val) =>
      SelectByAddressFits(b.mapping, addr);
      SelectByValueFits(b.mapping, addr, val);
      SelectByValueFits(SelectByAddress(b.mapping, addr), addr, val);
  }

  function Run(b: Board, h: seq<Access>): (r: Board)
    requires b.Valid()
    ensures r.Valid()
  {
    if h == [] then b else
    StepKeepsValid(Run(b, h[..|h| - 1]), h[|h| - 1]);
    Step(Run(b, h[..|h| - 1]), h[|h| - 1])
  }

  /** Over every run of reads, writes and console accesses the mapping invariant holds and the image is unchanged. */
  lemma {:induction false} RunKeepsImage(b: Board, h: seq<Access>)
    requires b.Valid()
    ensures Run(b, h).rom == b.rom && Run(b, h).mapping.Valid()
  {
    hide Step;
    if h != [] {
      RunKeepsImage(b, h[..|h| - 1]);
      StepKeepsValid(Run(b, h[..|h| - 1]), h[|h| - 1]);
    }
  }

  /** After any run, $1F00+k reads byte size-256+k of the dump. */
  lemma LastPageIsFixed(b: Board, dump: seq<u8>, h: seq<Access>, k: u8)
    requires b.Valid() && Tiles(b.rom, dump)
    ensures CpuRead(Run(b, h), 0x1F00 + k as int).1 == dump[|dump| - 0x100 + k]
  {
    hide Run, Mapping.Valid;
    RunKeepsImage(b, h);
    var a := 0x1F00 + k as int;
    assert WindowOf(a) == FixedWindow;
    assert a % 0x100 == k;
    LastPageOfTiling(|dump|, k);
  }

  lemma LastPageOfTiling(size: nat, k: u8)
    requires Accepts(size)
    ensures (0x1_FF00 + k) % size == size - 0x100 + k
  {
  }

  // ---- The gate ----

  predicate ValueHotspot(addr: u16) { HighByValue(addr) || OthersByValue(addr) }

  /** The mapping moves only when the gate is open, or on the zero-page value hotspots. */
  lemma MappingMovesOnlyWhenArmed(b: Board, x: Access)
    requires b.Valid() && !HotspotsActive(b)
    ensures Step(b, x).mapping == b.mapping || (x.Console? && ValueHotspot(x.addr))
  {
    hide Locate, Peek, Rewindow, SelectByAddress;
  }

  // ---- On-cart RAM ----

  /** A write is seen through every window located at the same RAM byte, and through no other. */
  lemma WriteThenRead(b: Board, at: u16, val: u8, from: u16)
    requires b.Valid() && at < 0x2000 && from < 0x2000 && !WindowOf(at).FixedWindow?
    ensures var c := CpuWrite(b, at, val);
      && c.Valid() && c.mapping == b.mapping
      && CpuRead(c, from).1
         == (if !Locate(b.mapping, at).0 && Locate(b.mapping, from) == Locate(b.mapping, at) then val
             else CpuRead(b, from).1)
  {
    hide Locate, Mapping.Valid, Rewindow;
    LocateInRange(b.mapping, at);
    LocateInRange(b.mapping, from);
    StepKeepsValid(b, Write(at, val));
  }
}

/** The 4A50 board updated in place. */
module FourA50Board {
  import opened Bits
  import opened Words
  import F = FourA50
  import T = FourA50Theorems

  class Bank4A50 {
    const rom: array<u8>
    const ram: array<u8>
    var sliceLow: nat
    var sliceMiddle: nat
    var sliceHigh: nat
    var isRomLow: bool
    var isRomMiddle: bool
    var isRomHigh: bool
    var lastData: u8
    var lastAddress: u16

    ghost function Map(): F.Mapping
      reads this
    {
      F.Mapping(F.Segment(isRomLow, sliceLow), F.Segment(isRomMiddle, sliceMiddle), F.Segment(isRomHigh, sliceHigh))
    }

    ghost function B(): F.Board
      reads this, rom, ram
    {
      F.Board(rom[..], ram[..], Map(), lastData, lastAddress)
    }

    ghost predicate Valid()
      reads this, rom, ram
    {
      B().Valid() && rom != ram
    }

    constructor (dump: seq<u8>)
      requires F.Accepts(|dump|)
      ensures Valid() && fresh(rom) && fresh(ram)
      ensures B() == F.New(dump) && F.Tiles(rom[..], dump) && !F.HotspotsActive(B())
    {
      rom := new u8[F.IMAGE_SIZE](_ => 0);
      ram := new u8[F.RAM_SIZE](_ => 0);
      sliceLow, sliceMiddle, sliceHigh := 0, 0, 0;
      isRomLow, isRomMiddle, isRomHigh := true, true, true;
      lastData, lastAddress := 0xFF, 0xFFFF;
      new;
      Tile(rom, dump);
      assert rom[..] == F.New(dump).rom && ram[..] == F.New(dump).ram;
    }

    /** Fills the image with copies of the dump, chunk by chunk. */
    static method Tile(image: array<u8>, dump: seq<u8>)
      requires F.Accepts(|dump|) && image.Length == F.IMAGE_SIZE
      modifies image
      ensures F.Tiles(image[..], dump)
    {
      var size := |dump|;
      var at := 0;
      while at < F.IMAGE_SIZE
        invariant 0 <= at <= F.IMAGE_SIZE && at % size == 0
        invariant forall i: nat | i < at :: image[i] == dump[i % size]
        decreases F.IMAGE_SIZE - at
      {
        ChunkFits(at, size);
        forall k | 0 <= k < size {
          image[at + k] := dump[k];
        }
        forall i: nat | at <= i < at + size
          ensures image[i] == dump[i % size]
        {
          ModUnique(i, size, at / size, i - at);
        }
        ModShift(at, size, 1);
        at := at + size;
      }
    }

    static lemma ChunkFits(at: nat, size: nat)
      requires F.Accepts(size) && at % size == 0 && at < F.IMAGE_SIZE
      ensures at + size <= F.IMAGE_SIZE && at == size * (at / size)
    {
    }

    predicate HotspotsActive()
      reads this
    {
      lastData / 0x20 == 3 && (lastAddress >= 0x1000 || lastAddress < 0x200)
    }

    method CheckBankSwitch(address: u16, value: u8)
      requires Valid()
      modifies this
      ensures B() == F.CheckBankSwitch(old(B()), address, value)
    {
      hide Xor, F.BitSet, F.HighByValue, F.OthersByValue;
      if HotspotsActive() {
        match address / 0x100 % 0x10
        case 0xC => isRomHigh, sliceHigh := true, address % 0x100 * 0x100;
        case 0xD => isRomHigh, sliceHigh := false, address % 0x80 * 0x100;
        case 0xE =>
          if !F.BitSet(address, 0x40) {
            isRomLow, sliceLow := true, address % 0x20 * 0x800;
          } else {
            isRomLow, sliceLow := false, address % 0x10 * 0x800;
          }
        case 0xF =>
          if !F.BitSet(address, 0x40) {
            isRomMiddle, sliceMiddle := true, address % 0x20 * 0x800;
          } else if !F.BitSet(address, 0x10) {
            isRomMiddle, sliceMiddle := false, address % 0x10 * 0x800;
          }
        case 0x4 => sliceLow := Xor(sliceLow, 0x800);
        case 0x5 => sliceLow := Xor(sliceLow, 0x1000);
        case 0x8 => sliceMiddle := Xor(sliceMiddle, 0x800);
        case 0x9 => sliceMiddle := Xor(sliceMiddle, 0x1000);
        case _ =>
      }
      if F.HighByValue(address) {
        if address % 2 == 0 {
          isRomHigh, sliceHigh := true, value * 0x100;
        } else {
          isRomHigh, sliceHigh := false, value % 0x80 * 0x100;
        }
      } else if F.OthersByValue(address) {
        match value / 0x10
        case 0x0 => isRomLow, sliceLow := true, value % 0x10 * 0x800;
        case 0x4 => isRomLow, sliceLow := false, value % 0x10 * 0x800;
        case 0x9 => isRomMiddle, sliceMiddle := true, (value % 0x10 + 0x10) * 0x800;
        case 0xC => isRomMiddle, sliceMiddle := false, value % 0x10 * 0x800;
        case _ =>
      }
    }

    method RecordAccess(address: u16, value: u8)
      modifies this`lastData, this`lastAddress
      ensures B() == F.Record(old(B()), address, value)
    {
      lastData := value;
      lastAddress := address % 0x2000;
    }

    /** The $1F00 page's own hotspot. */
    method RewindowHigh(a: u16)
      requires Valid()
      modifies this`sliceHigh
      ensures B() == old(B()).(mapping := F.Rewindow(old(Map()), a))
    {
      sliceHigh := sliceHigh - sliceHigh / 0x100 % 0x10 * 0x100 + a / 8 % 2 * 0x800 + a / 0x10 % 8 * 0x100;
    }

    method CpuRead(addr: u16) returns (value: u8)
      requires Valid()
      modifies this
      ensures Valid() && (B(), value) == F.CpuRead(old(B()), addr)
    {
      hide F.Rewindow, F.Mapping.Valid;
      T.StepKeepsValid(B(), F.Read(addr));
      var a := addr % 0x2000;
      F.LocateInRange(Map(), a);
      if a / 0x800 % 4 == 2 {
        value := if isRomLow then rom[a % 0x800 + sliceLow] else ram[a % 0x800 + sliceLow];
      } else if 0x1800 <= a <= 0x1DFF {
        value := if isRomMiddle then rom[a % 0x800 + sliceMiddle + 0x1_0000] else ram[a % 0x800 + sliceMiddle];
      } else if a / 0x100 % 0x20 == 0x1E {
        value := if isRomHigh then rom[a % 0x100 + sliceHigh + 0x1_0000] else ram[a % 0x100 + sliceHigh];
      } else {
        value := rom[a % 0x100 + 0x1_FF00];
        if HotspotsActive() {
          RewindowHigh(a);
        }
      }
      RecordAccess(a, value);
    }

    method CpuWrite(addr: u16, val: u8)
      requires Valid()
      modifies this, ram
      ensures Valid() && B() == F.CpuWrite(old(B()), addr, val)
    {
      hide F.Rewindow, F.Mapping.Valid;
      T.StepKeepsValid(B(), F.Write(addr, val));
      var a := addr % 0x2000;
      F.LocateInRange(Map(), a);
      if a / 0x800 % 4 == 2 {
        if !isRomLow {
          ram[a % 0x800 + sliceLow] := val;
        }
      } else if 0x1800 <= a <= 0x1DFF {
        if !isRomMiddle {
          ram[a % 0x800 + sliceMiddle] := val;
        }
      } else if a / 0x100 % 0x20 == 0x1E {
        if !isRomHigh {
          ram[a % 0x100 + sliceHigh] := val;
        }
      } else if HotspotsActive() {
        RewindowHigh(a);
      }
      RecordAccess(a, val);
    }

    method SnoopRead(addr: u16, val: u8)
      requires Valid()
      modifies this
      ensures Valid() && B() == F.Snoop(old(B()), addr, val)
    {
      hide F.CheckBankSwitch, F.Mapping.Valid;
      T.StepKeepsValid(B(), F.Console(addr, val));
      CheckBankSwitch(addr, val);
      RecordAccess(addr, val);
    }

    method SnoopWrite(addr: u16, val: u8)
      requires Valid()
      modifies this
      ensures Valid() && B() == F.Snoop(old(B()), addr, val)
    {
      hide F.CheckBankSwitch, F.Mapping.Valid;
      T.StepKeepsValid(B(), F.Console(addr, val));
      CheckBankSwitch(addr, val);
      RecordAccess(addr, val);
    }
  }
}
