/**
 The AR / Supercharger board on values: two bank windows over 6 KiB of RAM and a 2 KiB BIOS, a delayed
 write counted in bus accesses, and the fast loader.
 */
module Supercharger {
  import opened SuperchargerBios
  import opened Words

  const BANK: nat := 0x800
  const RAM: nat := 3 * BANK
  const IMAGE: nat := 4 * BANK
  const LOAD_SIZE: nat := 8448
  const PAGE: nat := 256
  const CONFIG: u16 := 0x1FF8
  const LOAD_HOTSPOT: u16 := 0x1850

  // ---- The latch: bank configuration and the delayed write ----

  datatype Latch = Latch(
    offset0: nat,
    offset1: nat,
    writeEnabled: bool,
    power: bool,
    bank: u8,
    hold: u8,
    count: u32,
    atHold: u32,
    pending: bool)
  {
    /** Window 0 maps RAM only; window 1 may map the BIOS. */
    ghost predicate Valid()
    {
      && offset0 in {0, BANK, 2 * BANK}
      && offset1 in {0, BANK, 2 * BANK, RAM}
    }

    function Index(addr: u16): nat
    {
      addr % 0x800 + if addr / 0x800 % 2 == 1 then offset1 else offset0
    }
  }

  const OFFSET_0: seq<nat> := [2 * BANK, 0, 2 * BANK, 0, 2 * BANK, BANK, 2 * BANK, BANK]
  const OFFSET_1: seq<nat> := [3 * BANK, 3 * BANK, 0, 2 * BANK, 3 * BANK, 3 * BANK, BANK, 2 * BANK]

  function Configure(l: Latch, configuration: u8): Latch
  {
    var config := configuration / 4 % 8;
    l.(bank := configuration % 0x20, power := configuration % 2 == 0, writeEnabled := configuration / 2 % 2 == 1,
       offset0 := OFFSET_0[config], offset1 := OFFSET_1[config])
  }

  /** One more bus access; a write pending for more than five is dropped. */
  function Note(l: Latch): Latch
  {
    var count := Add32(l.count, 1);
    l.(count := count, pending := l.pending && !(count > Add32(l.atHold, 5)))
  }

  predicate InHoldPage(addr: u16) { addr / 0x100 % 0x10 == 0 }

  predicate Latches(l: Latch, addr: u16)
  {
    InHoldPage(addr) && (!l.writeEnabled || !l.pending)
  }

  predicate Due(l: Latch, addr: u16)
  {
    !Latches(l, addr) && addr != CONFIG && l.writeEnabled && l.pending && l.count == Add32(l.atHold, 5)
  }

  predicate WindowIsRam(l: Latch, addr: u16)
  {
    addr / 0x800 % 2 == 0 || l.offset1 != RAM
  }

  predicate Stores(l: Latch, addr: u16)
  {
    Due(l, addr) && WindowIsRam(l, addr)
  }

  function Handle(l: Latch, addr: u16): Latch
  {
    if Latches(l, addr) then l.(hold := addr % 0x100, atHold := l.count, pending := true)
    else if addr == CONFIG then Configure(l.(pending := false), l.hold)
    else if Due(l, addr) then l.(pending := false)
    else l
  }

  // ---- The board ----

  datatype Board = Board(latch: Latch, image: seq<u8>, loads: seq<u8>, zp80: u8, pokes: seq<(u16, u8)>)
  {
    ghost predicate Valid()
    {
      latch.Valid() && |image| == IMAGE && ValidLoads(loads)
    }
  }

  predicate ValidLoads(rom: seq<u8>)
  {
    rom != [] && |rom| % LOAD_SIZE == 0 && |rom| / LOAD_SIZE <= 32
  }

  function NumLoads(loads: seq<u8>): nat { |loads| / LOAD_SIZE }

  const RESET_LATCH: Latch := Configure(Latch(0, 0, false, true, 0, 0, 0, 0, false), 0)

  /** The board after reset. */
  function Fresh(loads: seq<u8>): Board
  {
    Board(RESET_LATCH, seq(RAM, i => 0 as u8) + Bios(0x00, 0x00), loads, 0, [])
  }

  lemma FreshIsValid(loads: seq<u8>)
    requires ValidLoads(loads)
    ensures var b := Fresh(loads); b.Valid() && b.pokes == [] && b.loads == loads
  {
    hide Bios, ValidLoads;
  }

  function HandleHotspot(b: Board, addr: u16): Board
    requires b.Valid()
  {
    IndexInRange(b.latch, addr);
    b.(latch := Handle(b.latch, addr),
       image := if Stores(b.latch, addr) then b.image[b.latch.Index(addr) := b.latch.hold] else b.image)
  }

  lemma IndexInRange(l: Latch, addr: u16)
    requires l.Valid()
    ensures l.Index(addr) < IMAGE
    ensures WindowIsRam(l, addr) ==> l.Index(addr) < RAM
  {
  }

  // ---- The loader ----

  function HeaderAt(load: nat): nat { load * LOAD_SIZE + IMAGE }

  lemma LoadInRange(loads: seq<u8>, load: nat)
    requires ValidLoads(loads) && load < NumLoads(loads)
    ensures load * LOAD_SIZE + LOAD_SIZE <= |loads|
  {
    assert |loads| == LOAD_SIZE * NumLoads(loads);
    assert LOAD_SIZE * (load + 1) <= LOAD_SIZE * NumLoads(loads);
  }

  /** The first load from `from` on whose header carries this number, or the number of loads. */
  function FindLoad(loads: seq<u8>, number: u8, from: nat): (r: nat)
    requires ValidLoads(loads) && from <= NumLoads(loads)
    ensures from <= r <= NumLoads(loads)
    decreases NumLoads(loads) - from
  {
    if from == NumLoads(loads) then from else
    LoadInRange(loads, from);
    if loads[HeaderAt(from) + 5] == number then from else FindLoad(loads, number, from + 1)
  }

  /** Where a page-map byte sends a page: the bank in bits 0-1, the page within it in bits 2-4. */
  function PageTarget(mapByte: u8): nat
  {
    mapByte % 4 * BANK + mapByte / 4 % 8 * PAGE
  }

  predicate TargetsRam(mapByte: u8) { mapByte % 4 < 3 }

  function MapByte(loads: seq<u8>, load: nat, j: nat): u8
    requires ValidLoads(loads) && load < NumLoads(loads) && j < 24
  {
    LoadInRange(loads, load);
    loads[HeaderAt(load) + 16 + j]
  }

  function SourcePage(loads: seq<u8>, load: nat, j: nat): (r: seq<u8>)
    requires ValidLoads(loads) && load < NumLoads(loads) && j < 24
    ensures |r| == PAGE
  {
    LoadInRange(loads, load);
    loads[load * LOAD_SIZE + j * PAGE..load * LOAD_SIZE + j * PAGE + PAGE]
  }

  function Overwrite(image: seq<u8>, at: nat, page: seq<u8>): (r: seq<u8>)
    requires at + |page| <= |image|
    ensures |r| == |image|
  {
    image[..at] + page + image[at + |page|..]
  }

  lemma TargetInRam(mapByte: u8)
    requires TargetsRam(mapByte)
    ensures PageTarget(mapByte) + PAGE <= RAM
  {
  }

  /** The image after the first k pages of a load. */
  function CopyPages(image: seq<u8>, loads: seq<u8>, load: nat, k: nat): (r: seq<u8>)
    requires |image| == IMAGE && ValidLoads(loads) && load < NumLoads(loads) && k <= 24
    ensures |r| == IMAGE
  {
    if k == 0 then image else
    var before := CopyPages(image, loads, load, k - 1);
    var mapByte := MapByte(loads, load, k - 1);
    if !TargetsRam(mapByte) then before else
    TargetInRam(mapByte);
    Overwrite(before, PageTarget(mapByte), SourcePage(loads, load, k - 1))
  }

  function PageCount(loads: seq<u8>, load: nat): (r: nat)
    requires ValidLoads(loads) && load < NumLoads(loads)
    ensures r <= 24
  {
    LoadInRange(loads, load);
    Min(loads[HeaderAt(load) + 3], 24)
  }

  function StagedPokes(loads: seq<u8>, load: nat): seq<(u16, u8)>
    requires ValidLoads(loads) && load < NumLoads(loads)
  {
    LoadInRange(loads, load);
    var header := HeaderAt(load);
    [(0x00FE, loads[header]), (0x00FF, loads[header + 1]), (0x0080, loads[header + 2])]
  }

  function LoadIntoRam(b: Board, number: u8): Board
    requires b.Valid()
  {
    var load := FindLoad(b.loads, number, 0);
    if load == NumLoads(b.loads) then b else
    b.(image := CopyPages(b.image, b.loads, load, PageCount(b.loads, load)),
       pokes := b.pokes + StagedPokes(b.loads, load))
  }

  // ---- The four hooks ----

  function Noted(b: Board): Board { b.(latch := Note(b.latch)) }

  predicate LoadsNow(b: Board, addr: u16)
  {
    addr == LOAD_HOTSPOT && b.latch.offset1 == RAM
  }

  /** The board as the hotspot logic of a read sees it. */
  function BeforeHotspot(b: Board, addr: u16): (r: Board)
    requires b.Valid()
    ensures r.Valid() && r.latch == Note(b.latch)
  {
    NoteKeepsValid(b.latch);
    var n := Noted(b);
    if LoadsNow(n, addr) then LoadIntoRam(n, n.zp80) else n
  }

  function CpuRead(b: Board, addr: u16): (Board, u8)
    requires b.Valid()
  {
    var c := HandleHotspot(BeforeHotspot(b, addr), addr);
    HandleKeepsValid(Note(b.latch), addr);
    IndexInRange(c.latch, addr);
    (c, c.image[c.latch.Index(addr)])
  }

  function CpuWrite(b: Board, addr: u16): Board
    requires b.Valid()
  {
    NoteKeepsValid(b.latch);
    HandleHotspot(Noted(b), addr)
  }

  function Snoop(b: Board, addr: u16, val: u8): Board
  {
    var n := Noted(b);
    if addr == 0x0080 then n.(zp80 := val) else n
  }

  lemma NoteKeepsValid(l: Latch)
    requires l.Valid()
    ensures Note(l).Valid()
  {
  }

  lemma HandleKeepsValid(l: Latch, addr: u16)
    requires l.Valid()
    ensures Handle(l, addr).Valid()
  {
  }

  // ---- The bus around the board ----

  /** The bus with this board plugged in: RIOT RAM and the last driven value. */
  datatype Console = Console(board: Board, ram: seq<u8>, openBus: u8)
  {
    /** Nothing stays staged between accesses. */
    ghost predicate Valid()
    {
      board.Valid() && |ram| == 128 && board.pokes == []
    }
  }

  /** A CPU access; `io` is what the TIA or the RIOT ports would answer to a read. */
  datatype Access = Read(addr: u16, io: u8) | Write(addr: u16, val: u8)
  {
    function Line(): u16 { addr % 0x2000 }
  }

  predicate IsCart(a: Access) { a.Line() >= 0x1000 }

  predicate IsRiotRam(addr: u16) { addr / 0x80 % 2 == 1 && addr / 0x200 % 2 == 0 }

  function ApplyPokes(ram: seq<u8>, pokes: seq<(u16, u8)>): (r: seq<u8>)
    requires |ram| == 128
    ensures |r| == 128
  {
    if pokes == [] then ram else
    var last := pokes[|pokes| - 1];
    ApplyPokes(ram, pokes[..|pokes| - 1])[last.0 % 0x80 := last.1]
  }

  function Access1(s: Console, a: Access): (Console, u8)
    requires s.Valid()
  {
    var addr := a.Line();
    match a
    case Read(_, io) =>
      if IsCart(a) then
        var (b, v) := CpuRead(s.board, addr);
        (Console(b.(pokes := []), ApplyPokes(s.ram, b.pokes), v), v)
      else
        var v := if IsRiotRam(addr) then s.ram[addr % 0x80] else io;
        (Console(Snoop(s.board, addr, v), s.ram, v), v)
    case Write(_, val) =>
      if IsCart(a) then
        var b := CpuWrite(s.board, addr);
        (Console(b.(pokes := []), ApplyPokes(s.ram, b.pokes), val), val)
      else
        (Console(Snoop(s.board, addr, val), if IsRiotRam(addr) then s.ram[addr % 0x80 := val] else s.ram, val), val)
  }

  function Run(s: Console, h: seq<Access>): (r: Console)
    requires s.Valid()
    ensures r.Valid()
  {
    if h == [] then s else
    AccessKeepsValid(Run(s, h[..|h| - 1]), h[|h| - 1]);
    Access1(Run(s, h[..|h| - 1]), h[|h| - 1]).0
  }

  lemma AccessKeepsValid(s: Console, a: Access)
    requires s.Valid()
    ensures Access1(s, a).0.Valid()
  {
    hide Note, Handle, Stores, ApplyPokes, LoadIntoRam;
    NoteKeepsValid(s.board.latch);
    HandleKeepsValid(Note(s.board.latch), a.Line());
  }
}

/** What every run of bus accesses does to the Supercharger's memory. */
module SuperchargerTheorems {
  import opened Words
  import opened Supercharger
  import opened DelayedWrite

  ghost predicate TriggersLoad(s: Console, a: Access)
    requires s.Valid()
  {
    a.Read? && IsCart(a) && LoadsNow(Noted(s.board), a.Line())
  }

  /** From a fresh board, over every run: outside loads, the image changes only by a store that is due, in one byte. */
  lemma ImageChangesOnlyByDelayedWrite(s: Console, h: seq<Access>, a: Access)
    requires s.Valid() && s.board.latch == RESET_LATCH && !TriggersLoad(Run(s, h), a)
    ensures var before, after := Run(s, h).board, Access1(Run(s, h), a).0.board;
      after.image == if IsCart(a) && StoreDue(RESET_LATCH, h, a)
                     then before.image[before.latch.Index(a.Line()) := h[LastArmed(RESET_LATCH, h)].Line() % 0x100]
                     else before.image
  {
    hide Run, StoreDue, LatchRun, LastArmed, Note, Stores, Handle, ApplyPokes, Latch.Index, Latch.Valid;
    LatchFollows(s, h);
    var before := Run(s, h).board;
    NoteKeepsMapping(before.latch, a.Line());
    NoteKeepsValid(before.latch);
    IndexInRange(before.latch, a.Line());
    if IsCart(a) {
      StoresExactly(RESET_LATCH, h, a);
      HandleKeepsValid(Note(before.latch), a.Line());
    }
  }

  lemma NoteKeepsMapping(l: Latch, addr: u16)
    ensures Note(l).Index(addr) == l.Index(addr) && Note(l).hold == l.hold
  {
  }

  // ---- The loader and the BIOS ----

  /** The last of the first k pages mapped to image offset `at`, or -1. */
  function LastMapped(loads: seq<u8>, load: nat, k: nat, at: nat): (r: int)
    requires ValidLoads(loads) && load < NumLoads(loads) && k <= 24
    ensures -1 <= r < k
    ensures r >= 0 ==> TargetsRam(MapByte(loads, load, r)) && PageTarget(MapByte(loads, load, r)) == at
    ensures forall j: nat | r < j < k ::
              !(TargetsRam(MapByte(loads, load, j)) && PageTarget(MapByte(loads, load, j)) == at)
  {
    if k == 0 then -1
    else if TargetsRam(MapByte(loads, load, k - 1)) && PageTarget(MapByte(loads, load, k - 1)) == at then k - 1
    else LastMapped(loads, load, k - 1, at)
  }

  lemma TargetIsPage(mapByte: u8)
    ensures PageTarget(mapByte) % PAGE == 0
  {
    assert PageTarget(mapByte) == (mapByte % 4 * 8 + mapByte / 4 % 8) * PAGE;
  }

  lemma OverwriteAt(image: seq<u8>, at: nat, page: seq<u8>, q: nat)
    requires at + PAGE <= |image| && q + PAGE <= |image| && |page| == PAGE && at % PAGE == 0 && q % PAGE == 0
    ensures Overwrite(image, at, page)[q..q + PAGE] == if at == q then page else image[q..q + PAGE]
  {
    var r := Overwrite(image, at, page);
    if at == q {
      assert r[q..q + PAGE] == page;
    } else {
      PagesApart(at, q);
      assert r[q..q + PAGE] == image[q..q + PAGE];
    }
  }

  lemma PagesApart(p: nat, q: nat)
    requires p % PAGE == 0 && q % PAGE == 0 && p != q
    ensures p + PAGE <= q || q + PAGE <= p
  {
  }

  /** After k page copies, every page of the image holds the last source page mapped to it, or is unchanged. */
  lemma {:induction false} LoadedPages(image: seq<u8>, loads: seq<u8>, load: nat, k: nat, q: nat)
    requires |image| == IMAGE && ValidLoads(loads) && load < NumLoads(loads) && k <= 24
    requires q % PAGE == 0 && q + PAGE <= IMAGE
    ensures var j := LastMapped(loads, load, k, q);
      CopyPages(image, loads, load, k)[q..q + PAGE] == if j >= 0 then SourcePage(loads, load, j) else image[q..q + PAGE]
    decreases k
  {
    hide SourcePage, PageTarget, Overwrite, TargetsRam;
    if k > 0 {
      LoadedPages(image, loads, load, k - 1, q);
      var mapByte := MapByte(loads, load, k - 1);
      if TargetsRam(mapByte) {
        TargetInRam(mapByte);
        TargetIsPage(mapByte);
        OverwriteAt(CopyPages(image, loads, load, k - 1), PageTarget(mapByte), SourcePage(loads, load, k - 1), q);
      }
    }
  }

  /** The access that triggers a load: every page of the image holds the last source page mapped to it among the
      pages the header counts, at most 24, of the first load with the staged number; other pages are unchanged. */
  lemma LoadFillsPages(s: Console, a: Access, q: nat)
    requires s.Valid() && TriggersLoad(s, a) && q % PAGE == 0 && q + PAGE <= IMAGE
    ensures var before, after, load := s.board, Access1(s, a).0.board, FindLoad(s.board.loads, s.board.zp80, 0);
      var j := if load < NumLoads(before.loads) then LastMapped(before.loads, load, PageCount(before.loads, load), q)
               else -1;
      && |after.image| == IMAGE
      && after.image[q..q + PAGE] == if j >= 0 then SourcePage(before.loads, load, j) else before.image[q..q + PAGE]
  {
    hide Handle, ApplyPokes, CopyPages, PageCount, Latch.Index, FindLoad, StagedPokes, LastMapped, Note;
    NoteKeepsValid(s.board.latch);
    NoStoreAtLoad(Note(s.board.latch));
    var load := FindLoad(s.board.loads, s.board.zp80, 0);
    if load < NumLoads(s.board.loads) {
      LoadedPages(s.board.image, s.board.loads, load, PageCount(s.board.loads, load), q);
    }
  }

  lemma NoStoreAtLoad(l: Latch)
    requires l.offset1 == RAM
    ensures !Stores(l, LOAD_HOTSPOT)
  {
  }

  /** The load a number selects is the first one carrying it, if any does. */
  lemma {:induction false} FindLoadIsFirst(loads: seq<u8>, number: u8, from: nat)
    requires ValidLoads(loads) && from <= NumLoads(loads)
    ensures var r := FindLoad(loads, number, from);
      && (r < NumLoads(loads) ==> HeaderAt(r) + 5 < |loads| && loads[HeaderAt(r) + 5] == number)
      && (forall i | from <= i < r :: HeaderAt(i) + 5 < |loads| && loads[HeaderAt(i) + 5] != number)
    decreases NumLoads(loads) - from
  {
    if from < NumLoads(loads) {
      LoadInRange(loads, from);
      if loads[HeaderAt(from) + 5] != number {
        FindLoadIsFirst(loads, number, from + 1);
      }
    }
  }

  lemma LoadKeepsRom(b: Board, number: u8)
    requires b.Valid()
    ensures LoadIntoRam(b, number).image[RAM..] == b.image[RAM..]
  {
    var load := FindLoad(b.loads, number, 0);
    if load < NumLoads(b.loads) {
      CopyKeepsRom(b.image, b.loads, load, PageCount(b.loads, load));
    }
  }

  lemma {:induction false} CopyKeepsRom(image: seq<u8>, loads: seq<u8>, load: nat, k: nat)
    requires |image| == IMAGE && ValidLoads(loads) && load < NumLoads(loads) && k <= 24
    ensures CopyPages(image, loads, load, k)[RAM..] == image[RAM..]
  {
    hide PageTarget, SourcePage, TargetsRam;
    if k > 0 {
      CopyKeepsRom(image, loads, load, k - 1);
      var mapByte := MapByte(loads, load, k - 1);
      if TargetsRam(mapByte) {
        TargetInRam(mapByte);
      }
    }
  }

  /** A cartridge read leaves the BIOS bank and the tape image as they were. */
  lemma ReadKeepsRom(b: Board, addr: u16)
    requires b.Valid()
    ensures var c := CpuRead(b, addr).0; c.Valid() && c.image[RAM..] == b.image[RAM..] && c.loads == b.loads
  {
    hide Note, Handle, Due, LoadIntoRam, Latch.Index, Latch.Valid, WindowIsRam, Latches;
    var n := Note(b.latch);
    NoteKeepsValid(b.latch);
    HandleKeepsValid(n, addr);
    IndexInRange(n, addr);
    LoadKeepsRom(Noted(b), b.zp80);
    LoadKeepsLoads(Noted(b), b.zp80);
  }

  lemma WriteKeepsRom(b: Board, addr: u16)
    requires b.Valid()
    ensures var c := CpuWrite(b, addr); c.Valid() && c.image[RAM..] == b.image[RAM..] && c.loads == b.loads
  {
    hide Note, Handle, Due, Latch.Index, Latch.Valid, WindowIsRam, Latches;
    var n := Note(b.latch);
    NoteKeepsValid(b.latch);
    HandleKeepsValid(n, addr);
    IndexInRange(n, addr);
  }

  /** One access leaves the BIOS bank as it was. */
  lemma AccessKeepsRom(s: Console, a: Access)
    requires s.Valid()
    ensures Access1(s, a).0.board.image[RAM..] == s.board.image[RAM..]
    ensures Access1(s, a).0.board.loads == s.board.loads
  {
    hide Note, CpuRead, CpuWrite, ApplyPokes, Latch.Valid;
    NoteKeepsValid(s.board.latch);
    ReadKeepsRom(s.board, a.Line());
    WriteKeepsRom(s.board, a.Line());
  }

  lemma LoadKeepsLoads(b: Board, number: u8)
    requires b.Valid()
    ensures LoadIntoRam(b, number).loads == b.loads
  {
  }

  /** Over every run, the BIOS bank and the tape image never change, and nothing stays staged. */
  lemma {:induction false} RomIsNeverModified(s: Console, h: seq<Access>)
    requires s.Valid()
    ensures Run(s, h).board.image[RAM..] == s.board.image[RAM..]
    ensures Run(s, h).board.loads == s.board.loads
    ensures Run(s, h).board.pokes == []
  {
    hide Access1;
    if h != [] {
      RomIsNeverModified(s, h[..|h| - 1]);
      AccessKeepsRom(Run(s, h[..|h| - 1]), h[|h| - 1]);
    }
  }

  /** A triggered load hands the BIOS its header: bank byte and start address land in RIOT RAM at once. */
  lemma LoadReachesRiot(s: Console, a: Access)
    requires s.Valid() && TriggersLoad(s, a)
    requires FindLoad(s.board.loads, s.board.zp80, 0) < NumLoads(s.board.loads)
    ensures var load, after := FindLoad(s.board.loads, s.board.zp80, 0), Access1(s, a).0;
      var staged := StagedPokes(s.board.loads, load);
      && after.ram == s.ram[0x7E := staged[0].1][0x7F := staged[1].1][0x00 := staged[2].1]
      && after.board.pokes == []
  {
    hide Note, Handle, Stores, CopyPages, PageCount, Latch.Index, Latch.Valid, FindLoad;
    NoteKeepsValid(s.board.latch);
    var load := FindLoad(s.board.loads, s.board.zp80, 0);
    var staged := StagedPokes(s.board.loads, load);
    assert s.board.pokes + staged == staged;
    ThreePokes(s.ram, staged);
  }

  lemma ThreePokes(ram: seq<u8>, pokes: seq<(u16, u8)>)
    requires |ram| == 128 && |pokes| == 3
    ensures ApplyPokes(ram, pokes)
            == ram[pokes[0].0 % 0x80 := pokes[0].1][pokes[1].0 % 0x80 := pokes[1].1][pokes[2].0 % 0x80 := pokes[2].1]
  {
    assert pokes[..2][..1] == pokes[..1] && pokes[..1][..0] == [];
    assert ApplyPokes(ram, pokes[..1]) == ram[pokes[0].0 % 0x80 := pokes[0].1];
    assert ApplyPokes(ram, pokes[..2]) == ApplyPokes(ram, pokes[..1])[pokes[1].0 % 0x80 := pokes[1].1];
  }
}
