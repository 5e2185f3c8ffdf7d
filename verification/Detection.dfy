/** The size and signature dispatch that picks a board for an image and builds it. */
module Detection {
  import opened Words
  import opened Boards
  import opened CartridgeBus
  import opened Cartridges

  import C = Cdf
  import CT = CdfTheorems
  import D = Dpc
  import F = FourA50
  import P = DpcPlus
  import PT = DpcPlusTheorems
  import S = Supercharger

  /** The answers of the signature searches; for CDF, the version and what the driver scan of CDFJ+ found. */
  datatype Signs = Signs(
    cv: bool, superchip: bool, e0: bool, threeE: bool, threeF: bool, ua: bool, fe: bool, f8: bool, b0840: bool,
    e7: bool, fourA50: bool, efTail: Option<bool>, dfTail: Option<bool>, bfTail: Option<bool>, efOpcode: bool,
    x07: bool, dpcPlus: bool, cdf: Option<C.Layout>)

  function Zeros(n: nat): seq<u8> { seq(n, i => 0 as u8) }

  // ---- Constructors: each accepts its own sizes only ----

  function NewRanged(f: Family, superchip: bool, rom: seq<u8>): Option<Cart>
  {
    var start := match f case F8 => 1 case F6 => 3 case F4 => 7 case _ => 0;
    if |rom| == BankCount(f) * 0x1000 then Some(Cart(Ranged(f, superchip, start), rom, Zeros(0x80))) else None
  }

  function NewCV(image: seq<u8>): Option<Cart>
  {
    if |image| == 0x800 then Some(Cart(CV, image, Zeros(0x400)))
    else if |image| == 0x1000 then Some(Cart(CV, image[0x800..], image[..0x400]))
    else None
  }

  function NewSized(board: Board, size: nat, rom: seq<u8>, ram: nat): Option<Cart>
  {
    if |rom| == size then Some(Cart(board, rom, Zeros(ram))) else None
  }

  /** Bank counts are cast to a byte. */
  function NewThreeF(rom: seq<u8>): Option<Cart>
  {
    if rom == [] || |rom| % 0x800 != 0 then None else Some(Cart(ThreeF(|rom| / 0x800 % 256, 0), rom, []))
  }

  function NewThreeE(rom: seq<u8>, ramKib: nat): Option<Cart>
  {
    if rom == [] || |rom| % 0x800 != 0 || ramKib == 0 then None
    else Some(Cart(ThreeE(|rom| / 0x800 % 256, 0, ramKib % 256, Option.None), rom, Zeros(ramKib * 0x400)))
  }

  function NewSB(rom: seq<u8>): Option<Cart>
  {
    if |rom| == 0x2_0000 then Some(Cart(SB(32, 0), rom, []))
    else if |rom| == 0x4_0000 then Some(Cart(SB(64, 0), rom, []))
    else None
  }

  /** The first 10 KiB of an image that holds at least as much. */
  function NewDpc(rom: seq<u8>): Option<Cartridge>
  {
    if |rom| < D.PROGRAM_SIZE + D.DISPLAY_SIZE then Option.None else
    var (fixed, registers) := D.New(rom);
    Some(Dpc(fixed, registers))
  }

  /** The scan of the driver matters to CDFJ+ only. */
  function Scanned(layout: C.Layout): C.Layout
  {
    if layout.kind == C.CdfjPlus then layout else C.Layout(layout.kind, false, false, 0)
  }

  function NewFourA50(rom: seq<u8>): Option<Cartridge>
  {
    if F.Accepts(|rom|) then Some(FourA50(F.New(rom))) else Option.None
  }

  function Carted(c: Option<Cart>): Option<Cartridge>
  {
    match c case None => None case Some(cart) => Some(Plain(cart))
  }

  /** The size match, first-level schemes already ruled out. */
  function BySize(rom: seq<u8>, s: Signs): Option<Cartridge>
  {
    var size := |rom|;
    if size == 0x800 then Carted(if s.cv then NewCV(rom) else NewSized(Rom2K, 0x800, rom, 0))
    else if size == 0x1000 then Carted(if s.cv then NewCV(rom) else NewSized(Rom4K, 0x1000, rom, 0))
    else if size == 0x2000 then Carted(EightK(rom, s))
    else if 0x2800 <= size <= 0x2900 then NewDpc(rom)
    else if size == 0x3000 then Carted(NewSized(FA(2), 0x3000, rom, 0x100))
    else if size == 0x4000 then
      Carted(if s.e7 then NewSized(E7(0, 0), 0x4000, rom, 0x800) else NewRanged(F6, s.superchip, rom))
    else if size == 0x8000 then
      Carted(if s.superchip then NewRanged(F4, true, rom)
             else if s.threeE then NewThreeE(rom, 32)
             else if s.threeF then NewThreeF(rom)
             else NewRanged(F4, false, rom))
    else if size == 0x1_0000 then SixtyFourK(rom, s)
    else if size == 0x2_0000 then
      if s.threeE then Carted(NewThreeE(rom, 32))
      else if s.dfTail.Some? then Carted(NewRanged(DF, s.dfTail.value, rom))
      else if s.threeF then Carted(NewThreeF(rom))
      else if s.fourA50 then NewFourA50(rom)
      else Carted(NewSB(rom))
    else if size == 0x4_0000 then
      Carted(if s.threeE then NewThreeE(rom, 32)
             else if s.bfTail.Some? then NewRanged(BF, s.bfTail.value, rom)
             else if s.threeF then NewThreeF(rom)
             else NewSB(rom))
    else None
  }

  function EightK(rom: seq<u8>, s: Signs): Option<Cart>
  {
    if s.superchip then NewRanged(F8, true, rom)
    else if s.e0 then NewSized(E0([4, 5, 6]), 0x2000, rom, 0)
    else if s.threeE then NewThreeE(rom, 32)
    else if s.threeF then NewThreeF(rom)
    else if s.ua then NewSized(UA(0), 0x2000, rom, 0)
    else if s.fe && !s.f8 then NewSized(FE(0, false), 0x2000, rom, 0)
    else if s.b0840 then NewSized(B0840(0), 0x2000, rom, 0)
    else NewRanged(F8, false, rom)
  }

  function SixtyFourK(rom: seq<u8>, s: Signs): Option<Cartridge>
  {
    if s.threeE then Carted(NewThreeE(rom, 32))
    else if s.threeF then Carted(NewThreeF(rom))
    else if s.fourA50 then NewFourA50(rom)
    else if s.efTail.Some? then Carted(NewRanged(EF, s.efTail.value, rom))
    else if s.efOpcode then Carted(NewRanged(EF, false, rom))
    else if s.x07 then Carted(NewSized(X07(0), 0x1_0000, rom, 0))
    else Carted(NewSized(F0(15), 0x1_0000, rom, 0))
  }

  function Detect(rom: seq<u8>, s: Signs): Option<Cartridge>
  {
    if S.ValidLoads(rom) then Some(Ar(S.Fresh(rom)))
    else if s.dpcPlus && P.Accepts(|rom|) then Some(DpcPlus(P.New(rom)))
    else if s.cdf.Some? && C.Accepts(|rom|, s.cdf.value.kind) then Some(Cdf(C.New(rom, Scanned(s.cdf.value))))
    else BySize(rom, s)
  }

  predicate Listed(size: nat)
  {
    size in {0x800, 0x1000, 0x2000, 0x3000, 0x4000, 0x8000, 0x1_0000, 0x2_0000, 0x4_0000} || 0x2800 <= size <= 0x2900
  }

  /** Whatever the signatures say, a board is found for exactly the listed sizes, the tape images, and the
      two signature-gated coprocessor layouts. */
  lemma DetectFindsExactly(rom: seq<u8>, s: Signs)
    ensures Detect(rom, s).Some? <==>
              Listed(|rom|) || S.ValidLoads(rom) || (s.dpcPlus && P.Accepts(|rom|))
              || (s.cdf.Some? && C.Accepts(|rom|, s.cdf.value.kind))
  {
    hide S.Fresh, P.New, C.New, F.New;
  }

  ghost predicate Sound(c: Option<Cart>) { c.Some? ==> Boards.Valid(c.value) }

  ghost predicate Ready(c: Option<Cartridge>)
  {
    c.Some? ==> Cartridges.Valid(c.value) && Staged(c.value) == []
  }

  lemma NewHistoryBoardsAreReady(rom: seq<u8>)
    ensures Ready(NewDpc(rom)) && Ready(NewFourA50(rom))
  {
    hide F.New, F.Board.Valid;
    if F.Accepts(|rom|) {
      assert F.New(rom).Valid();
    }
  }

  lemma NewBoardsAreValid(rom: seq<u8>, superchip: bool)
    ensures forall f :: Sound(NewRanged(f, superchip, rom))
    ensures Sound(NewCV(rom)) && Sound(NewSB(rom))
    ensures |rom| / 0x800 % 256 != 0 ==> Sound(NewThreeF(rom)) && Sound(NewThreeE(rom, 32))
  {
  }

  lemma EightKIsValid(rom: seq<u8>, s: Signs)
    requires |rom| == 0x2000
    ensures Sound(EightK(rom, s))
  {
    hide NewRanged, NewThreeE, NewThreeF;
    NewBoardsAreValid(rom, true);
    NewBoardsAreValid(rom, false);
  }

  lemma SixtyFourKIsValid(rom: seq<u8>, s: Signs)
    requires |rom| == 0x1_0000
    ensures Ready(SixtyFourK(rom, s))
  {
    hide NewRanged, NewThreeE, NewThreeF, NewSized, NewFourA50, Boards.Valid;
    NewBoardsAreValid(rom, false);
    if s.efTail.Some? {
      NewBoardsAreValid(rom, s.efTail.value);
    }
    FreshF0X07(rom);
    NewHistoryBoardsAreReady(rom);
  }

  lemma FreshF0X07(rom: seq<u8>)
    ensures Sound(NewSized(X07(0), 0x1_0000, rom, 0)) && Sound(NewSized(F0(15), 0x1_0000, rom, 0))
    ensures Sound(NewSized(Rom2K, 0x800, rom, 0)) && Sound(NewSized(Rom4K, 0x1000, rom, 0))
    ensures Sound(NewSized(FA(2), 0x3000, rom, 0x100)) && Sound(NewSized(E7(0, 0), 0x4000, rom, 0x800))
  {
  }

  lemma SmallIsValid(rom: seq<u8>, s: Signs)
    requires |rom| in {0x800, 0x1000, 0x2000, 0x3000, 0x4000, 0x8000}
    ensures Ready(BySize(rom, s))
  {
    hide Boards.Valid, NewRanged, NewThreeE, NewThreeF, NewCV, NewSB, NewSized, EightK, SixtyFourK;
    NewBoardsAreValid(rom, s.superchip);
    NewBoardsAreValid(rom, true);
    NewBoardsAreValid(rom, false);
    FreshF0X07(rom);
    if |rom| == 0x2000 {
      EightKIsValid(rom, s);
    }
  }

  lemma LargeIsValid(rom: seq<u8>, s: Signs)
    requires |rom| in {0x2_0000, 0x4_0000}
    ensures Ready(BySize(rom, s))
  {
    hide Boards.Valid, NewRanged, NewThreeE, NewThreeF, NewCV, NewSB, NewSized, EightK, SixtyFourK, NewFourA50;
    NewBoardsAreValid(rom, s.dfTail.Some? && s.dfTail.value);
    NewBoardsAreValid(rom, s.bfTail.Some? && s.bfTail.value);
    NewHistoryBoardsAreReady(rom);
  }

  lemma BySizeIsValid(rom: seq<u8>, s: Signs)
    ensures Ready(BySize(rom, s))
  {
    hide Ready, EightK, SixtyFourK, NewDpc;
    var size := |rom|;
    if size in {0x800, 0x1000, 0x2000, 0x3000, 0x4000, 0x8000} {
      SmallIsValid(rom, s);
    } else if size == 0x1_0000 {
      SixtyFourKIsValid(rom, s);
    } else if size in {0x2_0000, 0x4_0000} {
      LargeIsValid(rom, s);
    } else {
      NewHistoryBoardsAreReady(rom);
      NothingIsReady();
    }
  }

  lemma NothingIsReady()
    ensures Ready(None)
  {
  }

  /** Every cartridge detected starts in its board's invariant, with nothing staged. */
  lemma DetectedIsValid(rom: seq<u8>, s: Signs)
    requires Detect(rom, s).Some?
    ensures Ready(Detect(rom, s))
  {
    hide BySize, Boards.Valid, S.Fresh, S.Board.Valid, P.New, P.Board.Valid, C.New, C.Board.Valid;
    if S.ValidLoads(rom) {
      S.FreshIsValid(rom);
    } else if s.dpcPlus && P.Accepts(|rom|) {
      PT.NewIsValid(rom);
    } else if s.cdf.Some? && C.Accepts(|rom|, s.cdf.value.kind) {
      CT.NewIsValid(rom, Scanned(s.cdf.value));
    } else {
      BySizeIsValid(rom, s);
    }
  }

  /** What the image a board keeps is of the dump it was built from. */
  ghost predicate Holds(c: Cartridge, rom: seq<u8>)
  {
    match c
    case Plain(b) => b.rom == rom || (b.board.CV? && |rom| == 0x1000 && b.rom == rom[0x800..])
    case Dpc(r, _) => |rom| >= 0x2800 && r.program + r.display == rom[..0x2800]
    case DpcPlus(b) => b.flash.driver + b.flash.custom + b.flash.data + b.flash.freq == rom
    case Cdf(b) => b.driverRom + b.custom == rom
    case Ar(b) => b.loads == rom
    case FourA50(b) => F.Tiles(b.rom, rom)
  }

  lemma DetectedHoldsDump(rom: seq<u8>, s: Signs)
    requires Detect(rom, s).Some?
    ensures Holds(Detect(rom, s).value, rom)
  {
    hide F.Tiles, S.Fresh, P.New, C.New, BySize;
    if S.ValidLoads(rom) {
      S.FreshIsValid(rom);
    } else if s.dpcPlus && P.Accepts(|rom|) {
      PT.SplitJoins(rom);
    } else if s.cdf.Some? && C.Accepts(|rom|, s.cdf.value.kind) {
      CT.NewHoldsDump(rom, Scanned(s.cdf.value));
    } else {
      BySizeHoldsDump(rom, s);
    }
  }

  ghost predicate CartHolds(c: Option<Cart>, rom: seq<u8>)
  {
    c.Some? ==> c.value.rom == rom || (c.value.board.CV? && |rom| == 0x1000 && c.value.rom == rom[0x800..])
  }

  lemma EightKHoldsDump(rom: seq<u8>, s: Signs)
    ensures CartHolds(EightK(rom, s), rom)
  {
  }

  lemma SixtyFourKHoldsDump(rom: seq<u8>, s: Signs)
    requires SixtyFourK(rom, s).Some?
    ensures Holds(SixtyFourK(rom, s).value, rom)
  {
    hide F.Tiles, F.New;
    if F.Accepts(|rom|) {
      assert F.Tiles(F.New(rom).rom, rom);
    }
  }

  lemma BySizeHoldsDump(rom: seq<u8>, s: Signs)
    requires BySize(rom, s).Some?
    ensures Holds(BySize(rom, s).value, rom)
  {
    hide F.Tiles, F.New, EightK, SixtyFourK;
    EightKHoldsDump(rom, s);
    if |rom| == 0x1_0000 {
      SixtyFourKHoldsDump(rom, s);
    } else if F.Accepts(|rom|) {
      assert F.Tiles(F.New(rom).rom, rom);
    }
  }

  /**
   The safety of every cartridge `detect` builds, over every run of bus accesses and cycles: it stays a valid
   cartridge of its kind with nothing staged, no next access can index outside its memory, divide by zero or reach
   an unreachable branch, and unless its coprocessor was called its image is byte for byte what it was.
   */
  lemma DetectedBoardsStaySafe(rom: seq<u8>, s: Signs, ram: seq<u8>, openBus: u8, h: seq<Event>)
    requires Detect(rom, s).Some? && |ram| == 128
    ensures var c := Detect(rom, s).value;
      var t := Console(Some(c), ram, openBus);
      && t.Valid() && Run(t, h).Valid() && Run(t, h).slot.Some?
      && var d := Run(t, h).slot.value;
        && Staged(d) == [] && SameKind(c, d)
        && (!ArmCalled(c, h) ==> RomOf(d) == RomOf(c))
        && (forall addr: u16, write: bool :: SnoopLands(d, addr, write))
        && (forall addr: u16 | 0x1000 <= addr < 0x2000 :: ReadLands(d, addr) && WriteLands(d, addr))
  {
    hide Run, ReadLands, WriteLands, SnoopLands, Cartridges.Valid, Detect;
    DetectedIsValid(rom, s);
    var t := Console(Some(Detect(rom, s).value), ram, openBus);
    RunKeeps(t, h);
    forall addr: u16, write: bool
      ensures SnoopLands(Run(t, h).slot.value, addr, write)
    {
      EveryAccessLands(t, h, addr, write);
    }
    forall addr: u16 | 0x1000 <= addr < 0x2000
      ensures ReadLands(Run(t, h).slot.value, addr) && WriteLands(Run(t, h).slot.value, addr)
    {
      EveryAccessLands(t, h, addr, false);
    }
  }

  /** A 3F or 3E image runs without a panic, whatever is accessed, if and only if its bank count is not a multiple
      of 256: there the byte holding the count is zero, and the first bank write divides by it. */
  lemma ThreeFSafeExactly(rom: seq<u8>)
    requires NewThreeF(rom).Some?
    ensures (forall h: seq<Boards.Access> :: TryRun(NewThreeF(rom).value, h).Some?) <==> |rom| / 0x800 % 256 != 0
    ensures NewThreeE(rom, 32).Some?
    ensures (forall h: seq<Boards.Access> :: TryRun(NewThreeE(rom, 32).value, h).Some?) <==> |rom| / 0x800 % 256 != 0
  {
    var f, e := NewThreeF(rom).value, NewThreeE(rom, 32).value;
    if |rom| / 0x800 % 256 != 0 {
      assert Boards.Valid(f) && Boards.Valid(e);
      forall h: seq<Boards.Access>
        ensures TryRun(f, h).Some? && TryRun(e, h).Some?
      {
        RunsSafely(f, h);
        RunsSafely(e, h);
      }
    } else {
      BankWriteDivides(f, 0);
      BankWriteDivides(e, 0);
    }
  }

  lemma BankWriteDivides(c: Cart, v: u8)
    requires c.board.ThreeF? || c.board.ThreeE?
    requires c.board.romBanks == 0
    ensures TryRun(c, [Access.Write(0x3F, v)]) == None
  {
    assert [Access.Write(0x3F, v)][..0] == [];
    assert TryRun(c, []) == Some(c);
  }

  /** A 512 KiB image, the largest size the scheme is documented for, is such a one. */
  lemma HalfMegabyteDivides(v: u8)
    ensures var f := NewThreeF(Zeros(0x8_0000)); f.Some? && TryRun(f.value, [Access.Write(0x3F, v)]) == None
  {
    BankWriteDivides(NewThreeF(Zeros(0x8_0000)).value, v);
  }
}
