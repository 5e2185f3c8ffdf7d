/** Every cartridge `detect` can build, its hooks, and the console bus around the slot. */
module Cartridges {
  import opened Coprocessor
  import opened Words

  import B = Boards
  import C = Cdf
  import CT = CdfTheorems
  import D = Dpc
  import F = FourA50
  import FT = FourA50Theorems
  import P = DpcPlus
  import PT = DpcPlusTheorems
  import S = Supercharger
  import ST = SuperchargerTheorems

  datatype Cartridge =
    | Plain(cart: B.Cart)
    | Dpc(rom: D.Rom, regs: D.Registers)
    | DpcPlus(plus: P.Board)
    | Cdf(cdf: C.Board)
    | Ar(ar: S.Board)
    | FourA50(fifty: F.Board)

  ghost predicate Valid(c: Cartridge)
  {
    match c
    case Plain(b) => B.Valid(b)
    case Dpc(rom, regs) => rom.Valid() && regs.Valid()
    case DpcPlus(b) => b.Valid()
    case Cdf(b) => b.Valid()
    case Ar(b) => b.Valid()
    case FourA50(b) => b.Valid()
  }

  /** The bytes no 6507 access may alter. */
  ghost function RomOf(c: Cartridge): seq<seq<u8>>
  {
    match c
    case Plain(b) => [b.rom]
    case Dpc(rom, _) => [rom.program, rom.display]
    case DpcPlus(b) => [b.flash.driver, b.flash.custom, b.flash.data, b.flash.freq]
    case Cdf(b) => [b.driverRom, b.custom]
    case Ar(b) => [if |b.image| >= S.RAM then b.image[S.RAM..] else [], b.loads]
    case FourA50(b) => [b.rom]
  }

  // ---- The hooks ----

  ghost function CpuRead(c: Cartridge, addr: u16): (Cartridge, u8)
    requires Valid(c) && 0x1000 <= addr < 0x2000
  {
    match c
    case Plain(b) => B.ReadKeeps(b, addr); var (d, v) := B.CpuRead(b, addr); (Plain(d), v)
    case Dpc(rom, regs) => var (r, v) := D.CpuRead(rom, regs, addr); (Dpc(rom, r), v)
    case DpcPlus(b) => var (d, v) := P.CpuRead(b, addr); (DpcPlus(d), v)
    case Cdf(b) => var (d, v) := C.CpuRead(b, addr); (Cdf(d), v)
    case Ar(b) => var (d, v) := S.CpuRead(b, addr); (Ar(d), v)
    case FourA50(b) => var (d, v) := F.CpuRead(b, addr); (FourA50(d), v)
  }

  /** `arm` is what the coprocessor leaves behind, should the write start it. */
  ghost function CpuWrite(c: Cartridge, addr: u16, val: u8, arm: Arm): Cartridge
    requires Valid(c) && 0x1000 <= addr < 0x2000
  {
    match c
    case Plain(b) => B.WriteKeeps(b, addr, val); Plain(B.CpuWrite(b, addr, val))
    case Dpc(rom, regs) => Dpc(rom, D.CpuWrite(regs, addr, val))
    case DpcPlus(b) => DpcPlus(P.CpuWrite(b, addr, val, arm))
    case Cdf(b) => Cdf(C.CpuWrite(b, addr, val, arm))
    case Ar(b) => Ar(S.CpuWrite(b, addr))
    case FourA50(b) => FourA50(F.CpuWrite(b, addr, val))
  }

  /** An access the console answers, observed by the board. */
  ghost function Snoop(c: Cartridge, addr: u16, val: u8, write: bool): Cartridge
    requires Valid(c)
  {
    match c
    case Plain(b) => B.SnoopKeeps(b, addr, val, write); Plain(B.Snoop(b, addr, val, write))
    case Ar(b) => Ar(S.Snoop(b, addr, val))
    case FourA50(b) => FourA50(F.Snoop(b, addr, val))
    case _ => c
  }

  ghost function Tick(c: Cartridge): Cartridge
    requires Valid(c)
  {
    match c
    case DpcPlus(b) => DpcPlus(b.(regs := P.Tick(b.regs)))
    case Cdf(b) => Cdf(C.Tick(b))
    case _ => c
  }

  /** Pokes a board stages for RIOT RAM. */
  ghost function Staged(c: Cartridge): seq<(u16, u8)> { if c.Ar? then c.ar.pokes else [] }

  ghost function Drained(c: Cartridge): Cartridge { if c.Ar? then Ar(c.ar.(pokes := [])) else c }

  predicate StartsArm(c: Cartridge, addr: u16, val: u8)
  {
    match c
    case DpcPlus(_) => P.StartsArm(addr, val)
    case Cdf(_) => C.StartsArm(addr, val)
    case _ => false
  }

  predicate SameKind(c: Cartridge, d: Cartridge)
  {
    c.Plain? == d.Plain? && c.Dpc? == d.Dpc? && c.DpcPlus? == d.DpcPlus? && c.Cdf? == d.Cdf? && c.Ar? == d.Ar?
  }

  /** What an access leaves as it was. */
  ghost predicate Kept(c: Cartridge, d: Cartridge) { Valid(d) && SameKind(c, d) && RomOf(d) == RomOf(c) }

  lemma CpuReadKeeps(c: Cartridge, addr: u16)
    requires Valid(c) && 0x1000 <= addr < 0x2000
    ensures Kept(c, CpuRead(c, addr).0)
  {
    hide B.Valid, B.CpuRead, D.CpuRead, D.Registers.Valid, P.CpuRead, P.Board.Valid, C.CpuRead, C.Board.Valid;
    hide S.CpuRead, F.CpuRead, F.Mapping.Valid;
    match c
    case Plain(b) => B.ReadKeeps(b, addr);
    case Dpc(rom, regs) => D.AccessKeepsValid(rom, regs, D.Read(addr));
    case DpcPlus(b) => PT.CpuReadKeepsValid(b, addr);
    case Cdf(b) => CT.CpuReadKeeps(b, addr);
    case Ar(b) => ST.ReadKeepsRom(b, addr);
    case FourA50(b) => FT.StepKeepsValid(b, F.Read(addr));
  }

  /** Whatever the coprocessor leaves behind the board stays valid; only it can touch the image. */
  lemma CpuWriteKeeps(c: Cartridge, addr: u16, val: u8, arm: Arm)
    requires Valid(c) && 0x1000 <= addr < 0x2000
    ensures Valid(CpuWrite(c, addr, val, arm)) && SameKind(c, CpuWrite(c, addr, val, arm))
    ensures !StartsArm(c, addr, val) ==> Kept(c, CpuWrite(c, addr, val, arm))
  {
    hide B.Valid, B.CpuWrite, D.CpuWrite, D.Registers.Valid, P.CpuWrite, P.Board.Valid, C.CpuWrite, C.Board.Valid;
    hide S.CpuWrite, F.CpuWrite, F.Mapping.Valid, P.StartsArm, C.StartsArm;
    match c
    case Plain(b) => B.WriteKeeps(b, addr, val);
    case Dpc(rom, regs) => D.AccessKeepsValid(rom, regs, D.Write(addr, val));
    case DpcPlus(b) => PT.CpuWriteKeepsValid(b, addr, val, arm);
    case Cdf(b) => CT.CpuWriteKeeps(b, addr, val, arm);
    case Ar(b) => ST.WriteKeepsRom(b, addr);
    case FourA50(b) => FT.StepKeepsValid(b, F.Write(addr, val));
  }

  lemma SnoopKeeps(c: Cartridge, addr: u16, val: u8, write: bool)
    requires Valid(c)
    ensures Kept(c, Snoop(c, addr, val, write))
  {
    hide B.Valid, B.Snoop, D.Registers.Valid, P.Board.Valid, C.Board.Valid, S.Note, S.Latch.Valid, F.Snoop;
    hide F.Mapping.Valid;
    match c
    case Plain(b) => B.SnoopKeeps(b, addr, val, write);
    case Ar(b) => S.NoteKeepsValid(b.latch);
    case FourA50(b) => FT.StepKeepsValid(b, F.Console(addr, val));
    case _ =>
  }

  lemma TickKeeps(c: Cartridge)
    requires Valid(c)
    ensures Kept(c, Tick(c))
  {
    hide B.Valid, D.Registers.Valid, C.Board.Valid, C.Tick, S.Board.Valid, F.Board.Valid;
    match c
    case Cdf(b) => CT.TickKeeps(b);
    case _ =>
  }

  // ---- What each access indexes ----

  /** Everything a cartridge read indexes is inside its memory. */
  predicate ReadLands(c: Cartridge, addr: u16)
  {
    match c
    case Plain(b) => B.ReadSafe(b, addr)
    case Dpc(rom, regs) =>
      if !D.RegisterRead(addr) then D.Hotspot(regs, addr).bank * 0x1000 + D.Offset(addr) < |rom.program|
      else
        var i := D.Index(addr);
        && i < |regs.low| && i < |regs.hi| && i < |regs.tops| && i < |regs.bottoms| && i < |regs.flags|
        && (i >= 5 ==> i - 5 < |regs.music|) && D.GfxAddr(Word(regs.low[i], regs.hi[i])) < |rom.display|
    case DpcPlus(b) => 8 <= |b.regs.fetchers| && 8 <= |b.regs.fractionals| && 3 <= |b.regs.music|
    case Cdf(b) => 3 <= |b.music|
    case Ar(b) =>
      var n := S.Note(b.latch);
      S.Handle(n, addr).Index(addr) < |b.image| && (S.Stores(n, addr) ==> n.Index(addr) < S.RAM <= |b.image|)
    case FourA50(b) =>
      var (rom, i) := F.Locate(b.mapping, addr);
      i < if rom then |b.rom| else |b.ram|
  }

  /** And everything a cartridge write indexes. */
  predicate WriteLands(c: Cartridge, addr: u16)
  {
    match c
    case Plain(b) => B.WriteSafe(b, addr)
    case Dpc(_, regs) =>
      var i := D.Index(addr);
      && i < |regs.low| && i < |regs.hi| && i < |regs.tops| && i < |regs.bottoms| && i < |regs.flags|
      && (i >= 5 ==> i - 5 < |regs.music|)
    case DpcPlus(b) => 8 <= |b.regs.fetchers| && 8 <= |b.regs.fractionals| && 3 <= |b.regs.music|
    case Cdf(b) => 3 <= |b.music|
    case Ar(b) =>
      var n := S.Note(b.latch);
      S.Stores(n, addr) ==> n.Index(addr) < S.RAM <= |b.image|
    case FourA50(b) =>
      var (rom, i) := F.Locate(b.mapping, addr);
      !rom ==> i < |b.ram|
  }

  /** Console accesses index nothing; 3F and 3E divide by their bank counts. */
  predicate SnoopLands(c: Cartridge, addr: u16, write: bool)
  {
    c.Plain? ==> B.SnoopSafe(c.cart.board, addr, write)
  }

  lemma ValidLands(c: Cartridge, addr: u16, write: bool)
    requires Valid(c)
    ensures SnoopLands(c, addr, write)
    ensures 0x1000 <= addr < 0x2000 ==> ReadLands(c, addr) && WriteLands(c, addr)
  {
    hide B.ReadSafe, B.WriteSafe, B.SnoopSafe, B.Valid, S.Note, S.Handle, S.Stores, S.Latch.Valid, S.Latch.Index;
    hide F.Locate, F.Mapping.Valid;
    match c
    case Plain(b) => PlainLands(b, addr, write);
    case Ar(b) =>
      var n := S.Note(b.latch);
      S.NoteKeepsValid(b.latch);
      S.HandleKeepsValid(n, addr);
      S.IndexInRange(n, addr);
      S.IndexInRange(S.Handle(n, addr), addr);
      StoresInRam(n, addr);
    case FourA50(b) => F.LocateInRange(b.mapping, addr);
    case _ =>
  }

  lemma PlainLands(b: B.Cart, addr: u16, write: bool)
    requires B.Valid(b)
    ensures B.SnoopSafe(b.board, addr, write)
    ensures 0x1000 <= addr < 0x2000 ==> B.ReadSafe(b, addr) && B.WriteSafe(b, addr)
  {
    B.ObserveFits(b.board, |b.rom|, |b.ram|, addr, 0, write);
    if 0x1000 <= addr < 0x2000 {
      B.ReadKeeps(b, addr);
      B.WriteKeeps(b, addr, 0);
    }
  }

  lemma StoresInRam(l: S.Latch, addr: u16)
    ensures S.Stores(l, addr) ==> S.WindowIsRam(l, addr)
  {
  }
}

/** The bus with a slot: what every run of accesses and cycles does to whichever cartridge is in it. */
module CartridgeBus {
  import opened Coprocessor
  import opened Words
  import opened Cartridges

  import B = Boards
  import S = Supercharger

  datatype Console = Console(slot: B.Option<Cartridge>, ram: seq<u8>, openBus: u8)
  {
    ghost predicate Valid()
    {
      |ram| == 128 && (slot.Some? ==> Cartridges.Valid(slot.value) && Staged(slot.value) == [])
    }
  }

  /** A CPU access, or a CPU cycle. `io` is what the TIA or the RIOT ports would answer to a read. */
  datatype Event = Read(addr: u16, io: u8) | Write(addr: u16, val: u8, arm: Arm) | Cycle
  {
    predicate IsCart() { !Cycle? && addr % 0x2000 >= 0x1000 }
  }

  /** Pokes reach RIOT RAM before the access ends. */
  ghost function Settled(s: Console, c: Cartridge, v: u8): Console
    requires s.Valid()
  {
    Console(B.Some(Drained(c)), S.ApplyPokes(s.ram, Staged(c)), v)
  }

  ghost function Step(s: Console, e: Event): Console
    requires s.Valid()
  {
    match e
    case Cycle => if s.slot.Some? then s.(slot := B.Some(Tick(s.slot.value))) else s
    case Read(full, io) =>
      var addr := full % 0x2000;
      if addr >= 0x1000 then
        if s.slot.None? then s else
        var (c, v) := CpuRead(s.slot.value, addr);
        Settled(s, c, v)
      else
        var v := if S.IsRiotRam(addr) then s.ram[addr % 0x80] else io;
        Console(if s.slot.Some? then B.Some(Snoop(s.slot.value, addr, v, false)) else B.None, s.ram, v)
    case Write(full, val, arm) =>
      var addr := full % 0x2000;
      if addr >= 0x1000 then
        if s.slot.None? then s.(openBus := val) else Settled(s, CpuWrite(s.slot.value, addr, val, arm), val)
      else
        Console(if s.slot.Some? then B.Some(Snoop(s.slot.value, addr, val, true)) else B.None,
                if S.IsRiotRam(addr) then s.ram[addr % 0x80 := val] else s.ram, val)
  }

  /** Whether an event starts a coprocessor. */
  predicate CallsArm(c: Cartridge, e: Event)
  {
    e.Write? && e.IsCart() && StartsArm(c, e.addr % 0x2000, e.val)
  }

  /** The slot holds the same kind of cartridge, and unless a coprocessor ran, with the same image. */
  ghost predicate SlotKept(s: Console, t: Console, armRan: bool)
    requires s.slot.Some?
  {
    t.slot.Some? && SameKind(s.slot.value, t.slot.value) && (armRan || RomOf(t.slot.value) == RomOf(s.slot.value))
  }

  lemma DrainedKeeps(c: Cartridge)
    requires Cartridges.Valid(c)
    ensures Kept(c, Drained(c)) && Staged(Drained(c)) == []
  {
  }

  lemma StepKeeps(s: Console, e: Event)
    requires s.Valid()
    ensures Step(s, e).Valid() && Step(s, e).slot.Some? == s.slot.Some?
    ensures s.slot.Some? ==> SlotKept(s, Step(s, e), CallsArm(s.slot.value, e))
  {
    hide Cartridges.Valid, CpuRead, CpuWrite, Snoop, Tick, StartsArm, Drained, S.ApplyPokes, RomOf, Staged, SameKind;
    if s.slot.Some? {
      var c := s.slot.value;
      KindsAgree(c);
      match e
      case Cycle =>
        TickKeeps(c);
        QuietHooks(c, 0, 0, true);
      case Read(full, io) =>
        var addr := full % 0x2000;
        if addr >= 0x1000 {
          CpuReadKeeps(c, addr);
          DrainedKeeps(CpuRead(c, addr).0);
          KindsChain(c, CpuRead(c, addr).0, Drained(CpuRead(c, addr).0));
        } else {
          var v := if S.IsRiotRam(addr) then s.ram[addr % 0x80] else io;
          SnoopKeeps(c, addr, v, false);
          QuietHooks(c, addr, v, false);
        }
      case Write(full, val, arm) =>
        var addr := full % 0x2000;
        if addr >= 0x1000 {
          CpuWriteKeeps(c, addr, val, arm);
          DrainedKeeps(CpuWrite(c, addr, val, arm));
          KindsChain(c, CpuWrite(c, addr, val, arm), Drained(CpuWrite(c, addr, val, arm)));
        } else {
          SnoopKeeps(c, addr, val, true);
          QuietHooks(c, addr, val, true);
        }
    }
  }

  lemma KindsAgree(c: Cartridge)
    ensures SameKind(c, c)
  {
  }

  lemma KindsChain(c: Cartridge, d: Cartridge, e: Cartridge)
    requires SameKind(c, d) && SameKind(d, e)
    ensures SameKind(c, e)
  {
  }

  /** Console accesses and cycles stage nothing. */
  lemma QuietHooks(c: Cartridge, addr: u16, val: u8, write: bool)
    requires Cartridges.Valid(c) && Staged(c) == []
    ensures Staged(Snoop(c, addr, val, write)) == [] && Staged(Tick(c)) == []
  {
    hide B.Snoop, S.Note;
  }

  ghost function Run(s: Console, h: seq<Event>): (r: Console)
    requires s.Valid()
    ensures r.Valid()
  {
    if |h| == 0 then s else
    StepKeeps(Run(s, h[..|h| - 1]), h[|h| - 1]);
    Step(Run(s, h[..|h| - 1]), h[|h| - 1])
  }

  /** Whether any event of a history starts the coprocessor of a cartridge of this kind. */
  predicate ArmCalled(c: Cartridge, h: seq<Event>)
  {
    exists k | 0 <= k < |h| :: CallsArm(c, h[k])
  }

  lemma SameKindSameCalls(c: Cartridge, d: Cartridge, e: Event)
    requires SameKind(c, d)
    ensures CallsArm(c, e) == CallsArm(d, e)
  {
  }

  /** Over every run the cartridge stays valid and of its kind; unless its coprocessor ran, its image is unchanged. */
  lemma {:induction false} RunKeeps(s: Console, h: seq<Event>)
    requires s.Valid() && s.slot.Some?
    ensures Run(s, h).Valid() && SlotKept(s, Run(s, h), ArmCalled(s.slot.value, h))
  {
    hide Step, Cartridges.Valid, SameKind, RomOf, CallsArm;
    KindsAgree(s.slot.value);
    if |h| > 0 {
      var before, e := h[..|h| - 1], h[|h| - 1];
      RunKeeps(s, before);
      var t := Run(s, before);
      StepKeeps(t, e);
      SameKindSameCalls(s.slot.value, t.slot.value, e);
      KindsChain(s.slot.value, t.slot.value, Step(t, e).slot.value);
      assert CallsArm(s.slot.value, h[|h| - 1]) || ArmCalled(s.slot.value, before) ==> ArmCalled(s.slot.value, h);
    }
  }

  /** No reachable access panics: after every run, whatever is accessed next indexes inside its memory. */
  lemma EveryAccessLands(s: Console, h: seq<Event>, addr: u16, write: bool)
    requires s.Valid() && s.slot.Some?
    ensures var t := Run(s, h);
      && t.slot.Some? && SnoopLands(t.slot.value, addr, write)
      && (0x1000 <= addr < 0x2000 ==> ReadLands(t.slot.value, addr) && WriteLands(t.slot.value, addr))
  {
    hide Run, ReadLands, WriteLands, SnoopLands;
    RunKeeps(s, h);
    ValidLands(Run(s, h).slot.value, addr, write);
  }
}

/** The history-dependent boards run on the bus exactly as their own modules say. */
module BusRuns {
  import opened Words
  import opened Cartridges
  import opened CartridgeBus

  import B = Boards
  import D = Dpc
  import F = FourA50
  import FT = FourA50Theorems
  import S = Supercharger

  // ---- Supercharger ----

  function Lifted(s: S.Console): Console { Console(B.Some(Ar(s.board)), s.ram, s.openBus) }

  ghost function Lowered(e: Event): S.Access
    requires !e.Cycle?
  {
    if e.Read? then S.Read(e.addr, e.io) else S.Write(e.addr, e.val)
  }

  /** The accesses of a history, its bare cycles dropped. */
  ghost function Accesses(h: seq<Event>): seq<S.Access>
  {
    if |h| == 0 then []
    else Accesses(h[..|h| - 1]) + if h[|h| - 1].Cycle? then [] else [Lowered(h[|h| - 1])]
  }

  lemma LiftedIsValid(s: S.Console)
    requires s.Valid()
    ensures Lifted(s).Valid()
  {
  }

  lemma ArSteps(s: S.Console, e: Event)
    requires s.Valid()
    ensures Lifted(s).Valid()
    ensures Step(Lifted(s), e) == if e.Cycle? then Lifted(s) else Lifted(S.Access1(s, Lowered(e)).0)
  {
    hide S.CpuRead, S.CpuWrite, S.Snoop, S.ApplyPokes, S.Board.Valid;
  }

  lemma {:induction false} ArRuns(s: S.Console, h: seq<Event>)
    requires s.Valid()
    ensures Lifted(s).Valid() && Run(Lifted(s), h) == Lifted(S.Run(s, Accesses(h)))
  {
    hide Step, S.Access1, S.Board.Valid;
    LiftedIsValid(s);
    if |h| > 0 {
      var before, e := h[..|h| - 1], h[|h| - 1];
      ArRuns(s, before);
      var g := Accesses(before);
      ArSteps(S.Run(s, g), e);
      if !e.Cycle? {
        assert (g + [Lowered(e)])[..|g|] == g;
      } else {
        assert g + [] == g;
      }
    }
  }

  // ---- DPC ----

  ghost function CartAccess(e: Event): D.Access
    requires e.IsCart()
  {
    if e.Read? then D.Read(e.addr % 0x2000) else D.Write(e.addr % 0x2000, e.val)
  }

  /** The accesses of a history that reach the cartridge. */
  ghost function CartAccesses(h: seq<Event>): seq<D.Access>
  {
    if |h| == 0 then []
    else
      var e := h[|h| - 1];
      CartAccesses(h[..|h| - 1]) + if e.IsCart() then [CartAccess(e)] else []
  }

  lemma DpcSteps(rom: D.Rom, regs: D.Registers, s: Console, e: Event)
    requires rom.Valid() && regs.Valid() && s.Valid() && s.slot == B.Some(Dpc(rom, regs))
    ensures Step(s, e).slot == B.Some(Dpc(rom, if e.IsCart() then D.Step(rom, regs, CartAccess(e)) else regs))
  {
    hide D.CpuRead, D.CpuWrite, S.ApplyPokes;
  }

  lemma {:induction false} DpcRuns(rom: D.Rom, regs: D.Registers, ram: seq<u8>, openBus: u8, h: seq<Event>)
    requires rom.Valid() && regs.Valid() && |ram| == 128
    ensures var s := Console(B.Some(Dpc(rom, regs)), ram, openBus);
      s.Valid() && Run(s, h).slot == B.Some(Dpc(rom, D.Run(rom, regs, CartAccesses(h))))
  {
    hide Step, D.Step, D.Registers.Valid;
    if |h| > 0 {
      var before, e := h[..|h| - 1], h[|h| - 1];
      DpcRuns(rom, regs, ram, openBus, before);
      var g := CartAccesses(before);
      DpcSteps(rom, D.Run(rom, regs, g), Run(Console(B.Some(Dpc(rom, regs)), ram, openBus), before), e);
      if e.IsCart() {
        assert (g + [CartAccess(e)])[..|g|] == g;
      } else {
        assert g + [] == g;
      }
    }
  }

  // ---- 4A50 ----

  /** An access as the 4A50 board gets it: its own window, or a console address with the byte on the bus. */
  ghost function BoardAccess(t: Console, e: Event): F.Access
    requires t.Valid() && !e.Cycle?
  {
    var addr := e.addr % 0x2000;
    if e.IsCart() then (if e.Read? then F.Read(addr) else F.Write(addr, e.val))
    else F.Console(addr, if e.Write? then e.val else if S.IsRiotRam(addr) then t.ram[addr % 0x80] else e.io)
  }

  /** Every access of a history, in order, bare cycles dropped. */
  ghost function BoardAccesses(s: Console, h: seq<Event>): seq<F.Access>
    requires s.Valid()
  {
    if |h| == 0 then []
    else
      var before, e := h[..|h| - 1], h[|h| - 1];
      BoardAccesses(s, before) + if e.Cycle? then [] else [BoardAccess(Run(s, before), e)]
  }

  lemma FourA50Steps(b: F.Board, s: Console, e: Event)
    requires b.Valid() && s.Valid() && s.slot == B.Some(FourA50(b))
    ensures Step(s, e).slot == B.Some(FourA50(if e.Cycle? then b else F.Step(b, BoardAccess(s, e))))
  {
    hide F.CpuRead, F.CpuWrite, F.Snoop, F.Mapping.Valid, S.ApplyPokes;
  }

  lemma {:induction false} FourA50Runs(b: F.Board, ram: seq<u8>, openBus: u8, h: seq<Event>)
    requires b.Valid() && |ram| == 128
    ensures var s := Console(B.Some(FourA50(b)), ram, openBus);
      s.Valid() && Run(s, h).slot == B.Some(FourA50(FT.Run(b, BoardAccesses(s, h))))
  {
    hide Step, F.Step, F.Board.Valid, BoardAccess;
    var s := Console(B.Some(FourA50(b)), ram, openBus);
    if |h| > 0 {
      var before, e := h[..|h| - 1], h[|h| - 1];
      FourA50Runs(b, ram, openBus, before);
      var t, g := Run(s, before), BoardAccesses(s, before);
      FourA50Steps(FT.Run(b, g), t, e);
      if e.Cycle? {
        assert g + [] == g;
      } else {
        assert (g + [BoardAccess(t, e)])[..|g|] == g;
      }
    }
  }

  /** On the bus too, $1F00+k reads byte size-256+k of a 4A50 dump after every run. */
  lemma LastPageOnTheBus(dump: seq<u8>, ram: seq<u8>, openBus: u8, h: seq<Event>, k: u8)
    requires F.Accepts(|dump|) && |ram| == 128
    ensures var s := Console(B.Some(FourA50(F.New(dump))), ram, openBus);
      && s.Valid() && Run(s, h).slot.Some?
      && CpuRead(Run(s, h).slot.value, 0x1F00 + k as int).1 == dump[|dump| - 0x100 + k]
  {
    hide F.CpuRead, F.Mapping.Valid, F.New, Run;
    var b := F.New(dump);
    FourA50Runs(b, ram, openBus, h);
    FT.LastPageIsFixed(b, dump, BoardAccesses(Console(B.Some(FourA50(b)), ram, openBus), h), k);
  }
}
