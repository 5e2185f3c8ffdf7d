/** Every bank-switched board `detect` can build besides the stateful ones: which byte each access reaches. */
module Boards {
  import opened Words

  datatype Option<T> = None | Some(value: T)

  /** The hotspot-range boards, which differ in range and bank count only. */
  datatype Family = F8 | F6 | F4 | EF | DF | BF

  function HotspotBase(f: Family): nat
  {
    match f
    case F8 => 0x1FF8 case F6 => 0x1FF6 case F4 => 0x1FF4
    case EF => 0x1FE0 case DF => 0x1FC0 case BF => 0x1F80
  }

  function BankCount(f: Family): nat
  {
    match f
    case F8 => 2 case F6 => 4 case F4 => 8 case EF => 16 case DF => 32 case BF => 64
  }

  datatype Board =
    | Rom2K
    | Rom4K
    | Ranged(family: Family, superchip: bool, bank: nat)
    | CV
    | FA(bank: nat)
    | E7(bank0: nat, ramBank: nat)
    | F0(bank: nat)
    | E0(segments: seq<nat>)
    | ThreeF(romBanks: nat, bank: nat)
    | ThreeE(romBanks: nat, romBank: nat, ramBanks: nat, ram: Option<nat>)
    | UA(bank: nat)
    | B0840(bank: nat)
    | FE(bank: nat, armed: bool)
    | SB(banks: nat, bank: nat)
    | X07(bank: nat)

  datatype Cart = Cart(board: Board, rom: seq<u8>, ram: seq<u8>)

  /** Where a cartridge read goes; `Nowhere` is a branch the code declares unreachable. */
  datatype Place = Rom(at: nat) | Ram(at: nat) | Fixed(value: u8) | Nowhere

  const E7_RAM_BANK: nat := 7
  const E7_SMALL: nat := 0x400

  // ---- Hotspots inside the cartridge window ----

  function Hotspot(b: Board, addr: u16): Board
  {
    match b
    case Ranged(f, superchip, _) =>
      if HotspotBase(f) <= addr < HotspotBase(f) + BankCount(f) then Ranged(f, superchip, addr - HotspotBase(f)) else b
    case FA(_) => if 0x1FF8 <= addr <= 0x1FFA then FA(addr - 0x1FF8) else b
    case E7(_, _) =>
      if 0x1FE0 <= addr <= 0x1FE7 then b.(bank0 := addr - 0x1FE0)
      else if 0x1FE8 <= addr <= 0x1FEB then b.(ramBank := addr - 0x1FE8)
      else b
    case F0(bank) => if addr == 0x1FF0 then F0((bank + 1) % 0x10) else b
    case E0(segments) =>
      if |segments| == 3 && 0x1FE0 <= addr <= 0x1FF7 then E0(segments[(addr - 0x1FE0) / 8 := addr % 8]) else b
    case _ => b
  }

  function ReadPlace(b: Board, addr: u16): Place
  {
    var a := addr % 0x1000;
    match b
    case Rom2K => Rom(addr % 0x800)
    case Rom4K => Rom(a)
    case Ranged(_, superchip, bank) =>
      if superchip && 0x80 <= a < 0x100 then Ram(a % 0x80) else Rom(bank * 0x1000 + a)
    case CV =>
      if 0x1000 <= addr <= 0x13FF then Ram(addr % 0x400)
      else if 0x1400 <= addr < 0x1800 then Fixed(0)
      else if 0x1800 <= addr <= 0x1FFF then Rom(addr % 0x800)
      else Nowhere
    case FA(bank) => if 0x100 <= a < 0x200 then Ram(a % 0x100) else Rom(bank * 0x1000 + a)
    case E7(bank0, ramBank) =>
      if a < 0x800 then (if bank0 == E7_RAM_BANK then Ram(a % 0x400) else Rom(bank0 * 0x800 + a))
      else if a < 0xA00 then Ram(E7_SMALL + ramBank * 0x100 + a % 0x100)
      else Rom(E7_RAM_BANK * 0x800 + a % 0x800)
    case F0(bank) => Rom(bank * 0x1000 + a)
    case E0(segments) => Rom((if a / 0x400 < |segments| then segments[a / 0x400] else 7) * 0x400 + a % 0x400)
    case ThreeF(banks, bank) => Rom((if a < 0x800 then bank else (banks + 255) % 256) * 0x800 + a % 0x800)
    case ThreeE(romBanks, romBank, _, ram) =>
      if a >= 0x800 then Rom((romBanks + 255) % 256 * 0x800 + a % 0x800)
      else if ram.Some? then Ram(ram.value * 0x400 + a % 0x400)
      else Rom(romBank * 0x800 + a)
    case UA(bank) => Rom(bank * 0x1000 + a)
    case B0840(bank) => Rom(bank * 0x1000 + a)
    case FE(bank, _) => Rom(bank * 0x1000 + a)
    case SB(_, bank) => Rom(bank * 0x1000 + a)
    case X07(bank) => Rom(bank * 0x1000 + a)
  }

  /** The RAM byte a cartridge write reaches, if any. */
  function WritePlace(b: Board, addr: u16): Option<nat>
  {
    var a := addr % 0x1000;
    match b
    case Ranged(_, superchip, _) => if superchip && a < 0x80 then Some(a) else None
    case CV => if 0x1400 <= addr <= 0x17FF then Some(addr % 0x400) else None
    case FA(_) => if a < 0x100 then Some(a) else None
    case E7(bank0, ramBank) =>
      if a < 0x400 && bank0 == E7_RAM_BANK then Some(a)
      else if 0x800 <= a < 0x900 then Some(E7_SMALL + ramBank * 0x100 + a % 0x100)
      else None
    case ThreeE(_, _, _, ram) => if ram.Some? && a < 0x400 then Some(ram.value * 0x400 + a) else None
    case _ => None
  }

  /** FE watches every access for the one after $01FE. */
  function Watch(b: Board, addr: u16, val: u8): Board
  {
    match b
    case FE(bank, armed) => if armed then FE(1 - val / 0x20 % 2, false) else FE(bank, addr == 0x01FE)
    case _ => b
  }

  predicate Bit(addr: u16, unit: nat)
    requires unit > 0
  {
    addr / unit % 2 == 1
  }

  /** 3F and 3E take a written byte modulo their bank counts. */
  predicate SnoopSafe(b: Board, addr: u16, write: bool)
  {
    match b
    case ThreeF(banks, _) => write && addr % 0x100 == 0x3F ==> banks != 0
    case ThreeE(romBanks, _, ramBanks, _) =>
      (write && addr % 0x100 == 0x3F ==> romBanks != 0) && (write && addr % 0x100 == 0x3E ==> ramBanks != 0)
    case _ => true
  }

  /** Console accesses the board observes. */
  function Observe(b: Board, addr: u16, val: u8, write: bool): Board
    requires SnoopSafe(b, addr, write)
  {
    match b
    case ThreeF(banks, _) => if write && addr % 0x100 == 0x3F then ThreeF(banks, val % banks) else b
    case ThreeE(romBanks, _, ramBanks, _) =>
      if write && addr % 0x100 == 0x3F then b.(romBank := val % romBanks, ram := None)
      else if write && addr % 0x100 == 0x3E then b.(ram := Some(val % ramBanks))
      else b
    case UA(_) =>
      if Bit(addr, 0x1000) || !Bit(addr, 0x200) || Bit(addr, 0x40) == Bit(addr, 0x20) then b
      else UA(if Bit(addr, 0x20) then 0 else 1)
    case B0840(_) =>
      if Bit(addr, 0x1000) || !Bit(addr, 0x800) then b else B0840(if Bit(addr, 0x40) then 1 else 0)
    case SB(banks, _) =>
      if banks > 0 && !Bit(addr, 0x1000) && Bit(addr, 0x800) then SB(banks, addr % 0x100 % banks) else b
    case X07(bank) =>
      if !Bit(addr, 0x1000) && Bit(addr, 0x800) && addr % 0x10 == 0xD then X07(addr / 0x10 % 0x10)
      else if !Bit(addr, 0x1000) && !Bit(addr, 0x800) && !Bit(addr, 0x80) && 14 <= bank <= 15 then
        X07(14 + addr / 0x40 % 2)
      else b
    case _ => Watch(b, addr, val)
  }

  // ---- What keeps every index in range ----

  ghost predicate Fits(b: Board, romSize: nat, ramSize: nat)
  {
    match b
    case Rom2K => romSize == 0x800
    case Rom4K => romSize == 0x1000
    case Ranged(f, _, bank) => bank < BankCount(f) && romSize == BankCount(f) * 0x1000 && ramSize == 0x80
    case CV => romSize == 0x800 && ramSize == 0x400
    case FA(bank) => bank < 3 && romSize == 0x3000 && ramSize == 0x100
    case E7(bank0, ramBank) => bank0 < 8 && ramBank < 4 && romSize == 0x4000 && ramSize == 0x800
    case F0(bank) => bank < 16 && romSize == 0x1_0000
    case E0(segments) => |segments| == 3 && (forall i | 0 <= i < 3 :: segments[i] < 8) && romSize == 0x2000
    case ThreeF(banks, bank) => bank < banks < 256 && romSize >= banks * 0x800
    case ThreeE(romBanks, romBank, ramBanks, ram) =>
      && romBank < romBanks < 256 && romSize >= romBanks * 0x800
      && 0 < ramBanks && ramSize == ramBanks * 0x400 && (ram.Some? ==> ram.value < ramBanks)
    case UA(bank) => bank < 2 && romSize == 0x2000
    case B0840(bank) => bank < 2 && romSize == 0x2000
    case FE(bank, _) => bank < 2 && romSize == 0x2000
    case SB(banks, bank) => bank < banks && romSize == banks * 0x1000
    case X07(bank) => bank < 16 && romSize == 0x1_0000
  }

  ghost predicate Valid(c: Cart) { Fits(c.board, |c.rom|, |c.ram|) }

  /** Reads land inside ROM or RAM and never in an unreachable branch; writes land inside RAM. */
  lemma PlacesInRange(c: Cart, addr: u16)
    requires Valid(c) && 0x1000 <= addr < 0x2000
    ensures Lands(c, ReadPlace(c.board, addr))
    ensures var w := WritePlace(c.board, addr); w.Some? ==> w.value < |c.ram|
  {
    match c.board
    case Ranged(f, _, bank) => BankRoom(bank, BankCount(f), addr % 0x1000);
    case SB(banks, bank) => BankRoom(bank, banks, addr % 0x1000);
    case ThreeF(banks, bank) => HalfBankRoom(bank, banks);
    case ThreeE(romBanks, romBank, ramBanks, ram) => HalfBankRoom(romBank, romBanks);
    case _ =>
  }

  lemma BankRoom(bank: nat, banks: nat, a: nat)
    requires bank < banks && a < 0x1000
    ensures bank * 0x1000 + a < banks * 0x1000
  {
  }

  lemma HalfBankRoom(bank: nat, banks: nat)
    requires bank < banks < 256
    ensures bank * 0x800 + 0x800 <= banks * 0x800 && (banks + 255) % 256 == banks - 1
  {
  }

  lemma HotspotFits(b: Board, romSize: nat, ramSize: nat, addr: u16)
    requires Fits(b, romSize, ramSize)
    ensures Fits(Hotspot(b, addr), romSize, ramSize)
  {
  }

  lemma WatchFits(b: Board, romSize: nat, ramSize: nat, addr: u16, val: u8)
    requires Fits(b, romSize, ramSize)
    ensures Fits(Watch(b, addr, val), romSize, ramSize)
  {
  }

  lemma ObserveFits(b: Board, romSize: nat, ramSize: nat, addr: u16, val: u8, write: bool)
    requires Fits(b, romSize, ramSize)
    ensures SnoopSafe(b, addr, write) && Fits(Observe(b, addr, val, write), romSize, ramSize)
  {
    hide Bit;
  }

  // ---- The hooks, each defined exactly where the code does not panic ----

  predicate Lands(c: Cart, place: Place)
  {
    match place
    case Rom(at) => at < |c.rom|
    case Ram(at) => at < |c.ram|
    case Fixed(_) => true
    case Nowhere => false
  }

  predicate ReadSafe(c: Cart, addr: u16) { Lands(c, ReadPlace(Hotspot(c.board, addr), addr)) }

  predicate WriteSafe(c: Cart, addr: u16)
  {
    var w := WritePlace(Hotspot(c.board, addr), addr); w.Some? ==> w.value < |c.ram|
  }

  function Fetch(c: Cart, place: Place): u8
    requires Lands(c, place)
  {
    match place
    case Rom(at) => c.rom[at]
    case Ram(at) => c.ram[at]
    case Fixed(v) => v
  }

  function CpuRead(c: Cart, addr: u16): (Cart, u8)
    requires ReadSafe(c, addr)
  {
    var board := Hotspot(c.board, addr);
    var val := Fetch(c, ReadPlace(board, addr));
    (c.(board := Watch(board, addr, val)), val)
  }

  function CpuWrite(c: Cart, addr: u16, val: u8): Cart
    requires WriteSafe(c, addr)
  {
    var board := Hotspot(c.board, addr);
    var at := WritePlace(board, addr);
    Cart(Watch(board, addr, val), c.rom, if at.Some? then c.ram[at.value := val] else c.ram)
  }

  function Snoop(c: Cart, addr: u16, val: u8, write: bool): Cart
    requires SnoopSafe(c.board, addr, write)
  {
    c.(board := Observe(c.board, addr, val, write))
  }

  /** What every hook leaves as it was. */
  ghost predicate RomKept(c: Cart, d: Cart) { Valid(d) && d.rom == c.rom }

  lemma ReadKeeps(c: Cart, addr: u16)
    requires Valid(c) && 0x1000 <= addr < 0x2000
    ensures ReadSafe(c, addr) && RomKept(c, CpuRead(c, addr).0)
  {
    hide ReadPlace, Hotspot, Watch, Fits;
    HotspotFits(c.board, |c.rom|, |c.ram|, addr);
    var d := c.(board := Hotspot(c.board, addr));
    PlacesInRange(d, addr);
    WatchFits(d.board, |d.rom|, |d.ram|, addr, Fetch(c, ReadPlace(d.board, addr)));
  }

  lemma WriteKeeps(c: Cart, addr: u16, val: u8)
    requires Valid(c) && 0x1000 <= addr < 0x2000
    ensures WriteSafe(c, addr) && RomKept(c, CpuWrite(c, addr, val))
  {
    hide WritePlace, Hotspot, Watch, Fits;
    HotspotFits(c.board, |c.rom|, |c.ram|, addr);
    var d := c.(board := Hotspot(c.board, addr));
    PlacesInRange(d, addr);
    WatchFits(d.board, |d.rom|, |d.ram|, addr, val);
  }

  lemma SnoopKeeps(c: Cart, addr: u16, val: u8, write: bool)
    requires Valid(c)
    ensures SnoopSafe(c.board, addr, write) && RomKept(c, Snoop(c, addr, val, write))
  {
    hide Observe, Fits, SnoopSafe;
    ObserveFits(c.board, |c.rom|, |c.ram|, addr, val, write);
  }

  // ---- Runs that stop at a panic ----

  /** An access as the bus routes it; `io` is what the console answers to a read. */
  datatype Access = Read(addr: u16, io: u8) | Write(addr: u16, val: u8)
  {
    function Line(): u16 { addr % 0x2000 }
  }

  /** The board after the access, or nothing where the code panics. */
  function Try(c: Cart, x: Access): Option<Cart>
  {
    var addr := x.Line();
    if addr < 0x1000 then
      if !SnoopSafe(c.board, addr, x.Write?) then None
      else Some(Snoop(c, addr, if x.Read? then x.io else x.val, x.Write?))
    else if x.Read? then (if ReadSafe(c, addr) then Some(CpuRead(c, addr).0) else None)
    else (if WriteSafe(c, addr) then Some(CpuWrite(c, addr, x.val)) else None)
  }

  function TryRun(c: Cart, h: seq<Access>): Option<Cart>
  {
    if h == [] then Some(c) else
    match TryRun(c, h[..|h| - 1])
    case None => None
    case Some(d) => Try(d, h[|h| - 1])
  }

  /** From a valid board no run panics, and the ROM stays as it was. */
  lemma {:induction false} RunsSafely(c: Cart, h: seq<Access>)
    requires Valid(c)
    ensures TryRun(c, h).Some? && RomKept(c, TryRun(c, h).value)
  {
    hide CpuRead, CpuWrite, Snoop, ReadSafe, WriteSafe, SnoopSafe, Valid;
    if h != [] {
      RunsSafely(c, h[..|h| - 1]);
      var d, x := TryRun(c, h[..|h| - 1]).value, h[|h| - 1];
      if x.Line() < 0x1000 {
        SnoopKeeps(d, x.Line(), if x.Read? then x.io else x.val, x.Write?);
      } else if x.Read? {
        ReadKeeps(d, x.Line());
      } else {
        WriteKeeps(d, x.Line(), x.val);
      }
    }
  }
}
