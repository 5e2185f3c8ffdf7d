/** The scheduler's view of the bus: the TIA beam, the clock counter, and whatever the rest answers. */
module SchedulerBus {
  import opened Bits
  import opened Words
  import S = SystemState

  class CpuView {
    /** What cartridge, RIOT and TIA answer: the value of the k-th access. */
    const data: nat -> u8
    var beamClock: u16
    var rdy: bool
    var colorClocks: u64
    var accesses: nat
    ghost var log: seq<S.Access>
    ghost var ticks: nat
    ghost var stalls: nat
    ghost var extra: nat

    constructor (data: nat -> u8)
      ensures Valid() && W() == S.World(S.Beam(0, false), 0, data, [], 0, 0, 0)
    {
      this.data := data;
      beamClock, rdy, colorClocks, accesses := 0, false, 0, 0;
      log, ticks, stalls, extra := [], 0, 0, 0;
    }

    ghost function W(): S.World
      reads this
    {
      S.World(S.Beam(beamClock, rdy), colorClocks, data, log, ticks, stalls, extra)
    }

    ghost predicate Valid()
      reads this
    {
      accesses == |log|
    }

    method TickColorClock()
      requires Valid()
      modifies this`beamClock, this`rdy
      ensures Valid() && S.Beam(beamClock, rdy) == S.ColorClock(old(S.Beam(beamClock, rdy)))
    {
      var next: nat := beamClock + 1;
      if next >= S.LINE {
        next := 0;
        rdy := false;
      }
      beamClock := next;
    }

    method TickCycle()
      requires Valid()
      modifies this
      ensures Valid() && W() == S.TickCycle(old(W()))
    {
      TickColorClock();
      TickColorClock();
      TickColorClock();
      colorClocks := Wrap64(colorClocks + 3);
      ticks := ticks + 1;
    }

    method Read(addr: u16) returns (v: u8)
      requires Valid()
      modifies this
      ensures Valid() && W() == S.BusRead(old(W()), addr)
      ensures v == data(|old(log)|)
    {
      v := data(accesses);
      accesses := accesses + 1;
      log := log + [S.Read(addr, v)];
    }

    method Write(addr: u16, v: u8)
      requires Valid()
      modifies this
      ensures Valid() && W() == S.BusWrite(old(W()), addr, v)
    {
      if S.SelectsTia(addr) {
        var reg := And(addr, 0x3F);
        if reg == S.WSYNC {
          if beamClock != 0 {
            rdy := true;
          }
        } else if reg == S.RSYNC {
          beamClock := 0;
        }
      }
      accesses := accesses + 1;
      log := log + [S.Write(addr, v)];
    }
  }
}

/** The 6507 itself: registers updated step by step, one bus cycle at a time. */
module Cpu6507 {
  import opened Words
  import opened StatusRegister
  import opened SchedulerBus
  import Alu
  import I = InstructionSet
  import S = SystemState
  import T = OpcodeTable

  const STACK_BASE: u16 := 0x0100

  // ---- Facts that tie the code's page tests to the reference ----

  lemma ReadGives(m: S.Machine, addr: u16)
    ensures var (n, v) := S.Read1(m, addr);
      && v == m.w.data(|m.w.log|) && |n.w.log| == |m.w.log| + 1 && n.w.data == m.w.data
      && n.r == m.r.(emitted := n.r.emitted, cycles := n.r.cycles)
  {
    S.SpinKeepsLog(m.w);
  }

  lemma FetchGives(m: S.Machine)
    ensures var (n, v) := I.Fetch(m);
      && v == m.w.data(|m.w.log|) && |n.w.log| == |m.w.log| + 1 && n.w.data == m.w.data
      && n.r == m.r.(pc := Sum16(m.r.pc, 1), emitted := n.r.emitted, cycles := n.r.cycles)
  {
    ReadGives(m, m.r.pc);
  }

  lemma Fetch16Gives(m: S.Machine)
    ensures var (n, base) := I.Fetch16(m);
      && base == Word(m.w.data(|m.w.log|), m.w.data(|m.w.log| + 1))
      && n.r.x == m.r.x && n.r.y == m.r.y
  {
    hide I.Fetch;
    FetchGives(m);
    FetchGives(I.Fetch(m).0);
  }

  lemma IndirectGives(m: S.Machine)
    ensures var (n, ptr) := I.Fetch(m);
      var (o, base) := I.ReadPointer(n, ptr);
      && base == Word(m.w.data(|m.w.log| + 1), m.w.data(|m.w.log| + 2))
      && o.r.y == m.r.y
  {
    hide I.Fetch, S.Read1;
    FetchGives(m);
    var (n, ptr) := I.Fetch(m);
    ReadGives(n, ptr);
    ReadGives(S.Read1(n, ptr).0, I.NextInPage(ptr));
  }

  lemma UnfixedIsFixed(base: u16, index: u8)
    ensures !I.PageCrossed(base, index) ==> I.Unfixed(base, index) == Sum16(base, index)
    ensures I.PageCrossed(base, index) <==> I.Page(base) != I.Page(Sum16(base, index))
    ensures base - base % 0x100 + Sum16(base, index) % 0x100 == I.Unfixed(base, index)
  {
  }

  lemma FixedUp(base: u16, index: u8)
    ensures Lo(I.Unfixed(base, index)) == Lo(Sum16(base, index))
    ensures I.PageCrossed(base, index) ==> Sub16(Sum16(base, index), 0x100) == I.Unfixed(base, index)
  {
    hide Lo, Hi, Sum16;
    var h, sum := base / 0x100, base % 0x100 + index;
    SumOfPage(h, base % 0x100, index);
    if sum >= 0x100 {
      var t, h1 := sum - 0x100, if h == 0xFF then 0 else h + 1;
      PageParts(h, t);
      PageParts(h1, t);
      PageBack(h1, t);
    } else {
      PageParts(h, sum);
    }
  }

  lemma SumOfPage(h: u8, l: u8, index: u8)
    ensures var base, sum := 0x100 * h + l, l + index;
      && (sum < 0x100 ==> Sum16(base, index) == 0x100 * h + sum == I.Unfixed(base, index))
      && (sum >= 0x100 ==> Sum16(base, index) == 0x100 * (if h == 0xFF then 0 else h + 1) + (sum - 0x100)
                           && I.Unfixed(base, index) == 0x100 * h + (sum - 0x100))
  {
  }

  lemma PageBack(h: u8, l: u8)
    ensures Sub16(0x100 * h + l, 0x100) == 0x100 * (if h == 0 then 0xFF else h - 1) + l
  {
  }

  lemma PageParts(h: u8, l: u8)
    ensures Lo(0x100 * h + l) == l && Hi(0x100 * h + l) == h
  {
  }

  lemma NextInZeroPage(ptr: u8)
    ensures Sum8(ptr, 1) == I.NextInPage(ptr)
  {
  }

  lemma NextInPageIs(addr: u16)
    ensures addr - addr % 0x100 + (addr + 1) % 0x100 == I.NextInPage(addr)
  {
    if addr % 0x100 == 0xFF {
      assert (addr + 1) % 0x100 == 0;
    } else {
      assert (addr + 1) % 0x100 == addr % 0x100 + 1;
    }
  }

  /** A pointer in the zero page, read byte by byte. */
  lemma ZeroPagePointer(m: S.Machine, ptr: u8)
    ensures var (n, lo) := S.Read1(m, ptr);
      var (o, hi) := S.Read1(n, Sum8(ptr, 1));
      I.ReadPointer(m, ptr) == (o, Word(lo, hi))
  {
    hide S.Read1;
    NextInZeroPage(ptr);
  }

  /** Without a page cross, reading the final address is the unconditional dummy read. */
  lemma DummyAtFinalAddress(m: S.Machine, mode: I.Mode)
    requires mode == I.AbsX || mode == I.AbsY || mode == I.IndY
    ensures var (n, addr) := I.EffectiveAddress(m, mode, I.OnCross);
      I.EffectiveAddress(m, mode, I.Always) == if I.Crosses(mode, m) then (n, addr) else (S.Read1(n, addr).0, addr)
  {
    hide I.Fetch, I.Fetch16, I.ReadPointer, S.Read1, I.PageCrossed, I.Unfixed;
    Fetch16Gives(m);
    IndirectGives(m);
    var (n, base) := I.Fetch16(m);
    UnfixedIsFixed(base, m.r.x);
    UnfixedIsFixed(base, m.r.y);
    var (f, ptr) := I.Fetch(m);
    UnfixedIsFixed(I.ReadPointer(f, ptr).1, m.r.y);
  }

  /** A write cycle changes no register but the cycle counters, and reads no other. */
  lemma WriteKeepsRegs(m: S.Machine, r: S.Regs, addr: u16, value: u8)
    requires r.emitted == m.r.emitted && r.cycles == m.r.cycles
    ensures var n := S.Write1(m, addr, value);
      && n.r == m.r.(emitted := n.r.emitted, cycles := n.r.cycles)
      && S.Write1(m.(r := r), addr, value) == n.(r := r.(emitted := n.r.emitted, cycles := n.r.cycles))
  {
  }

  /** From m, an opcode's operation ends in n and takes this many cycles, its fetch included. */
  ghost predicate Performs(op: u8, m: S.Machine, n: S.Machine, cycles: nat)
  {
    n == I.Exec(I.Decode(op), m) && cycles == I.Cycles(I.Decode(op), m)
  }

  ghost function Loaded(op: I.LoadOp, m: S.Machine, mode: I.Mode): S.Machine
  {
    var (n, v) := I.Operand(m, mode);
    n.(r := I.LoadEffect(op, n.r, v))
  }

  ghost function OperandAt(m: S.Machine, mode: I.Mode): (S.Machine, u8)
  {
    var (n, addr) := I.EffectiveAddress(m, mode, I.OnCross);
    S.Read1(n, addr)
  }

  ghost function AfterDummyRead(op: I.ImpliedOp, n: S.Machine): S.Machine
  {
    n.(r := I.ImpliedEffect(op, n.r))
  }

  ghost function Stored(m: S.Machine, value: u8, mode: I.Mode): S.Machine
  {
    var (n, addr) := I.EffectiveAddress(m, mode, I.Always);
    S.Write1(n, addr, value)
  }

  /** How a store runs: its address, dummy read always spent, then the write. */
  lemma StoreRule(op: I.StoreOp, m: S.Machine)
    ensures forall mode :: I.Exec(I.Store(op, mode), m) == Stored(m, I.StoreValue(op, m.r), mode)
    ensures forall mode :: I.Cycles(I.Store(op, mode), m) == I.StoreCycles(mode)
  {
  }

  lemma HighStoreRule(op: I.HighOp, m: S.Machine)
    ensures forall mode :: I.Exec(I.HighStore(op, mode), m) == I.ExecHighStore(m, op, mode)
    ensures forall mode :: I.Cycles(I.HighStore(op, mode), m) == I.StoreCycles(mode)
  {
  }

  ghost function Modified(op: I.ModifyOp, m: S.Machine, mode: I.Mode): S.Machine
  {
    var (n, addr) := I.EffectiveAddress(m, mode, I.Always);
    I.ModifyAt(n, op, addr)
  }

  /** How a read-modify-write runs: its address, dummy read always spent, then the three accesses. */
  lemma ModifyRule(op: I.ModifyOp, m: S.Machine)
    ensures forall mode :: I.Exec(I.Modify(op, mode), m) == Modified(op, m, mode)
    ensures forall mode :: I.Cycles(I.Modify(op, mode), m) == I.StoreCycles(mode) + 2
  {
  }

  /** How an instruction of the load group runs: its operand, then its effect on the registers. */
  lemma LoadRule(op: I.LoadOp, m: S.Machine)
    ensures forall mode :: I.Exec(I.Load(op, mode), m) == Loaded(op, m, mode)
    ensures forall mode :: I.Cycles(I.Load(op, mode), m) == I.LoadCycles(mode) + Bit(I.Crosses(mode, m))
    ensures I.Operand(m, I.Imm) == I.Fetch(m)
    ensures forall mode | mode != I.Imm :: I.Operand(m, mode) == OperandAt(m, mode)
    ensures forall mode | mode != I.AbsX && mode != I.AbsY && mode != I.IndY :: !I.Crosses(mode, m)
  {
  }

  lemma ImpliedRule(m: S.Machine)
    ensures forall op :: I.Exec(I.Implied(op), m) == AfterDummyRead(op, S.Read1(m, m.r.pc).0)
    ensures forall op :: I.Cycles(I.Implied(op), m) == 2
  {
  }

  lemma FlagsKeepMode(p: Status, value: u8, v: bool)
    ensures p.SetNZ(value).SetV(v).d == p.d
  {
  }

  lemma IdleTickEmits(m: S.Machine)
    ensures S.IdleTick(m).r.emitted == Min(0xFF, m.r.emitted + 1)
  {
  }

  lemma AdcKeepsCounters(r: S.Regs, q: S.Regs, value: u8)
    requires q == r.(emitted := q.emitted, cycles := q.cycles)
    ensures Alu.Adc(q, value) == Alu.Adc(r, value).(emitted := q.emitted, cycles := q.cycles)
  {
  }

  lemma SbcKeepsCounters(r: S.Regs, q: S.Regs, value: u8)
    requires q == r.(emitted := q.emitted, cycles := q.cycles)
    ensures Alu.Sbc(q, value) == Alu.Sbc(r, value).(emitted := q.emitted, cycles := q.cycles)
  {
  }

  class Cpu {
    var a: u8
    var x: u8
    var y: u8
    var s: u8
    var pc: u16
    var p: Status
    var jammed: bool
    var cyclesEmitted: u8
    var cycles: u64

    constructor ()
      ensures R() == S.Regs(0, 0, 0, 0xFD, 0, POWER_ON, false, 0, 0)
    {
      a, x, y, s, pc, p := 0, 0, 0, 0xFD, 0, POWER_ON;
      jammed, cyclesEmitted, cycles := false, 0, 0;
    }

    ghost function R(): S.Regs
      reads this
    {
      S.Regs(a, x, y, s, pc, p, jammed, cyclesEmitted, cycles)
    }

    ghost function M(bus: CpuView): S.Machine
      reads this, bus
    {
      S.Machine(R(), bus.W())
    }

    // ---- Bus cycles ----

    method IdleTick(bus: CpuView)
      requires bus.Valid()
      modifies this`cyclesEmitted, this`cycles, bus
      ensures bus.Valid() && M(bus) == S.IdleTick(old(M(bus)))
    {
      while bus.rdy
        invariant bus.Valid()
        invariant S.Spin(bus.W()) == S.Spin(old(bus.W()))
        invariant R() == old(R())
        decreases if bus.rdy then 1 + Max(0, if bus.beamClock < S.LINE then S.LINE - bus.beamClock else 0) else 0
      {
        bus.TickCycle();
        bus.stalls := bus.stalls + 1;
      }
      bus.TickCycle();
      cyclesEmitted := Min(0xFF, cyclesEmitted + 1);
      cycles := Wrap64(cycles + 1);
    }

    method Read1(bus: CpuView, addr: u16) returns (v: u8)
      requires bus.Valid()
      modifies this`cyclesEmitted, this`cycles, bus
      ensures bus.Valid() && (M(bus), v) == S.Read1(old(M(bus)), addr)
    {
      hide S.IdleTick;
      IdleTick(bus);
      v := bus.Read(addr);
    }

    method Write1(bus: CpuView, addr: u16, value: u8)
      requires bus.Valid()
      modifies this`cyclesEmitted, this`cycles, bus
      ensures bus.Valid() && M(bus) == S.Write1(old(M(bus)), addr, value)
    {
      hide S.IdleTick;
      IdleTick(bus);
      bus.Write(addr, value);
    }

    method ImpliedDummyRead(bus: CpuView)
      requires bus.Valid()
      modifies this`cyclesEmitted, this`cycles, bus
      ensures bus.Valid() && M(bus) == S.Read1(old(M(bus)), old(pc)).0
    {
      hide S.Read1;
      var _ := Read1(bus, pc);
    }

    method FetchPc(bus: CpuView) returns (v: u8)
      requires bus.Valid()
      modifies this`pc, this`cyclesEmitted, this`cycles, bus
      ensures bus.Valid() && (M(bus), v) == I.Fetch(old(M(bus)))
    {
      hide S.Read1;
      v := Read1(bus, pc);
      pc := Sum16(pc, 1);
    }

    method FetchPcU16(bus: CpuView) returns (w: u16)
      requires bus.Valid()
      modifies this`pc, this`cyclesEmitted, this`cycles, bus
      ensures bus.Valid() && (M(bus), w) == I.Fetch16(old(M(bus)))
    {
      hide I.Fetch;
      var lo := FetchPc(bus);
      var hi := FetchPc(bus);
      w := Word(lo, hi);
    }

    method ReadU16WithWrap(bus: CpuView, addr: u16) returns (w: u16)
      requires bus.Valid()
      modifies this`cyclesEmitted, this`cycles, bus
      ensures bus.Valid() && (M(bus), w) == I.ReadPointer(old(M(bus)), addr)
    {
      hide S.Read1;
      var lo := Read1(bus, addr);
      NextInPageIs(addr);
      var hi := Read1(bus, addr - addr % 0x100 + (addr + 1) % 0x100);
      w := Word(lo, hi);
    }

    method Push(bus: CpuView, value: u8)
      requires bus.Valid()
      modifies this`s, this`cyclesEmitted, this`cycles, bus
      ensures bus.Valid() && M(bus) == I.Push(old(M(bus)), value)
    {
      hide S.Write1;
      Write1(bus, STACK_BASE + s, value);
      s := Sub8(s, 1);
    }

    method Pull(bus: CpuView) returns (v: u8)
      requires bus.Valid()
      modifies this`s, this`cyclesEmitted, this`cycles, bus
      ensures bus.Valid() && (M(bus), v) == I.Pull(old(M(bus)))
    {
      hide S.Read1;
      s := Sum8(s, 1);
      v := Read1(bus, STACK_BASE + s);
    }

    method PushU16(bus: CpuView, value: u16)
      requires bus.Valid()
      modifies this`s, this`cyclesEmitted, this`cycles, bus
      ensures bus.Valid() && M(bus) == I.Push(I.Push(old(M(bus)), Hi(value)), Lo(value))
    {
      hide I.Push;
      Push(bus, Hi(value));
      Push(bus, Lo(value));
    }

    method PullU16(bus: CpuView) returns (w: u16)
      requires bus.Valid()
      modifies this`s, this`cyclesEmitted, this`cycles, bus
      ensures bus.Valid() && (M(bus), w) == I.Pull16(old(M(bus)))
    {
      hide I.Pull;
      var lo := Pull(bus);
      var hi := Pull(bus);
      w := Word(lo, hi);
    }

    /** The two dummy reads before a pull. */
    method BeforePull(bus: CpuView)
      requires bus.Valid()
      modifies this`cyclesEmitted, this`cycles, bus
      ensures bus.Valid() && M(bus) == I.BeforePull(old(M(bus)))
    {
      hide S.Read1;
      ghost var m := M(bus);
      ReadGives(m, pc);
      var _ := Read1(bus, pc);
      var _ := Read1(bus, STACK_BASE + s);
    }

    method ShStore(bus: CpuView, base: u16, index: u8, value: u8)
      requires bus.Valid()
      modifies this`cyclesEmitted, this`cycles, bus
      ensures bus.Valid() && M(bus) == I.HighStoreAt(old(M(bus)), base, index, value)
    {
      hide S.Read1, S.Write1, I.Unfixed, I.PageCrossed, I.Page, Sum16, Alu.And8, Word;
      UnfixedIsFixed(base, index);
      FixedUp(base, index);
      var unfixed := Sum16(base, index);
      var crossed := I.Page(base) != I.Page(unfixed);
      var dummy := if crossed then Sub16(unfixed, 0x100) else unfixed;
      assert dummy == I.Unfixed(base, index);
      var _ := Read1(bus, dummy);
      var stored := Alu.And8(value, Sum8(Hi(dummy), 1));
      var target := if crossed then Word(Lo(unfixed), stored) else unfixed;
      Write1(bus, target, stored);
    }

    // ---- Addressing modes ----

    method AddrZp(bus: CpuView) returns (addr: u16)
      requires bus.Valid()
      modifies this`pc, this`cyclesEmitted, this`cycles, bus
      ensures bus.Valid()
      ensures forall dummy :: (M(bus), addr) == I.EffectiveAddress(old(M(bus)), I.Zp, dummy)
    {
      hide I.Fetch;
      addr := FetchPc(bus);
    }

    method AddrZpX(bus: CpuView) returns (addr: u16)
      requires bus.Valid()
      modifies this`pc, this`cyclesEmitted, this`cycles, bus
      ensures bus.Valid()
      ensures forall dummy :: (M(bus), addr) == I.EffectiveAddress(old(M(bus)), I.ZpX, dummy)
    {
      hide I.Fetch, S.Read1;
      FetchGives(M(bus));
      var base := FetchPc(bus);
      ReadGives(M(bus), base);
      var _ := Read1(bus, base);
      addr := Sum8(base, x);
    }

    method AddrZpY(bus: CpuView) returns (addr: u16)
      requires bus.Valid()
      modifies this`pc, this`cyclesEmitted, this`cycles, bus
      ensures bus.Valid()
      ensures forall dummy :: (M(bus), addr) == I.EffectiveAddress(old(M(bus)), I.ZpY, dummy)
    {
      hide I.Fetch, S.Read1;
      FetchGives(M(bus));
      var base := FetchPc(bus);
      ReadGives(M(bus), base);
      var _ := Read1(bus, base);
      addr := Sum8(base, y);
    }

    method AddrAbs(bus: CpuView) returns (addr: u16)
      requires bus.Valid()
      modifies this`pc, this`cyclesEmitted, this`cycles, bus
      ensures bus.Valid()
      ensures forall dummy :: (M(bus), addr) == I.EffectiveAddress(old(M(bus)), I.Abs, dummy)
    {
      hide I.Fetch16;
      addr := FetchPcU16(bus);
    }

    method AddrAbsX(bus: CpuView) returns (addr: u16, crossed: bool)
      requires bus.Valid()
      modifies this`pc, this`cyclesEmitted, this`cycles, bus
      ensures bus.Valid() && (M(bus), addr) == I.EffectiveAddress(old(M(bus)), I.AbsX, I.OnCross)
      ensures crossed == I.Crosses(I.AbsX, old(M(bus)))
    {
      hide I.Fetch16, S.Read1, I.PageCrossed, I.Unfixed;
      Fetch16Gives(M(bus));
      var base := FetchPcU16(bus);
      UnfixedIsFixed(base, x);
      addr := Sum16(base, x);
      crossed := I.Page(base) != I.Page(addr);
      if crossed {
        var _ := Read1(bus, base - base % 0x100 + addr % 0x100);
      }
    }

    method AddrAbsY(bus: CpuView) returns (addr: u16, crossed: bool)
      requires bus.Valid()
      modifies this`pc, this`cyclesEmitted, this`cycles, bus
      ensures bus.Valid() && (M(bus), addr) == I.EffectiveAddress(old(M(bus)), I.AbsY, I.OnCross)
      ensures crossed == I.Crosses(I.AbsY, old(M(bus)))
    {
      hide I.Fetch16, S.Read1, I.PageCrossed, I.Unfixed;
      Fetch16Gives(M(bus));
      var base := FetchPcU16(bus);
      UnfixedIsFixed(base, y);
      addr := Sum16(base, y);
      crossed := I.Page(base) != I.Page(addr);
      if crossed {
        var _ := Read1(bus, base - base % 0x100 + addr % 0x100);
      }
    }

    method AddrAbsXRmw(bus: CpuView) returns (addr: u16)
      requires bus.Valid()
      modifies this`pc, this`cyclesEmitted, this`cycles, bus
      ensures bus.Valid() && (M(bus), addr) == I.EffectiveAddress(old(M(bus)), I.AbsX, I.Always)
    {
      hide I.Fetch16, S.Read1, I.PageCrossed, I.Unfixed;
      var base := FetchPcU16(bus);
      UnfixedIsFixed(base, x);
      addr := Sum16(base, x);
      var _ := Read1(bus, base - base % 0x100 + addr % 0x100);
    }

    method AddrAbsYRmw(bus: CpuView) returns (addr: u16)
      requires bus.Valid()
      modifies this`pc, this`cyclesEmitted, this`cycles, bus
      ensures bus.Valid() && (M(bus), addr) == I.EffectiveAddress(old(M(bus)), I.AbsY, I.Always)
    {
      hide I.Fetch16, S.Read1, I.PageCrossed, I.Unfixed;
      var base := FetchPcU16(bus);
      UnfixedIsFixed(base, y);
      addr := Sum16(base, y);
      var _ := Read1(bus, base - base % 0x100 + addr % 0x100);
    }

    method AddrIndX(bus: CpuView) returns (addr: u16)
      requires bus.Valid()
      modifies this`pc, this`cyclesEmitted, this`cycles, bus
      ensures bus.Valid()
      ensures forall dummy :: (M(bus), addr) == I.EffectiveAddress(old(M(bus)), I.IndX, dummy)
    {
      hide I.Fetch, S.Read1, I.ReadPointer, Word, Sum8, Sub8;
      FetchGives(M(bus));
      var base := FetchPc(bus);
      ReadGives(M(bus), base);
      var _ := Read1(bus, base);
      var ptr := Sum8(base, x);
      ZeroPagePointer(M(bus), ptr);
      var lo := Read1(bus, ptr);
      var hi := Read1(bus, Sum8(ptr, 1));
      addr := Word(lo, hi);
    }

    method AddrIndY(bus: CpuView) returns (addr: u16, crossed: bool)
      requires bus.Valid()
      modifies this`pc, this`cyclesEmitted, this`cycles, bus
      ensures bus.Valid() && (M(bus), addr) == I.EffectiveAddress(old(M(bus)), I.IndY, I.OnCross)
      ensures crossed == I.Crosses(I.IndY, old(M(bus)))
    {
      hide I.Fetch, S.Read1, I.ReadPointer, I.PageCrossed, I.Unfixed;
      IndirectGives(M(bus));
      var ptr := FetchPc(bus);
      ZeroPagePointer(M(bus), ptr);
      var lo := Read1(bus, ptr);
      var hi := Read1(bus, Sum8(ptr, 1));
      var base := Word(lo, hi);
      UnfixedIsFixed(base, y);
      addr := Sum16(base, y);
      crossed := I.Page(base) != I.Page(addr);
      if crossed {
        var _ := Read1(bus, base - base % 0x100 + addr % 0x100);
      }
    }

    method AddrIndYRmw(bus: CpuView) returns (addr: u16)
      requires bus.Valid()
      modifies this`pc, this`cyclesEmitted, this`cycles, bus
      ensures bus.Valid() && (M(bus), addr) == I.EffectiveAddress(old(M(bus)), I.IndY, I.Always)
    {
      hide I.Fetch, S.Read1, I.ReadPointer, I.PageCrossed, I.Unfixed;
      var ptr := FetchPc(bus);
      ZeroPagePointer(M(bus), ptr);
      var lo := Read1(bus, ptr);
      var hi := Read1(bus, Sum8(ptr, 1));
      var base := Word(lo, hi);
      UnfixedIsFixed(base, y);
      addr := Sum16(base, y);
      var _ := Read1(bus, base - base % 0x100 + addr % 0x100);
    }

    // ---- Register micro-operations ----

    method Lda(value: u8)
      modifies this`a, this`p
      ensures R() == Alu.SetA(old(R()), value)
    {
      a := value;
      p := p.SetNZ(value);
    }

    method LdaAddr(bus: CpuView, addr: u16)
      requires bus.Valid()
      modifies this`a, this`p, this`cyclesEmitted, this`cycles, bus
      ensures bus.Valid()
      ensures var (n, v) := S.Read1(old(M(bus)), addr); M(bus) == n.(r := Alu.SetA(n.r, v))
    {
      hide S.Read1;
      var v := Read1(bus, addr);
      Lda(v);
    }

    method Ldx(value: u8)
      modifies this`x, this`p
      ensures R() == Alu.SetX(old(R()), value)
    {
      x := value;
      p := p.SetNZ(value);
    }

    method Ldy(value: u8)
      modifies this`y, this`p
      ensures R() == Alu.SetY(old(R()), value)
    {
      y := value;
      p := p.SetNZ(value);
    }

    method And(value: u8)
      modifies this`a, this`p
      ensures R() == Alu.SetA(old(R()), Alu.And8(old(a), value))
      ensures R() == I.LoadEffect(I.AND, old(R()), value)
    {
      a := Alu.And8(a, value);
      p := p.SetNZ(a);
    }

    method Ora(value: u8)
      modifies this`a, this`p
      ensures R() == Alu.SetA(old(R()), Alu.Or8(old(a), value))
      ensures R() == I.LoadEffect(I.ORA, old(R()), value)
    {
      a := Alu.Or8(a, value);
      p := p.SetNZ(a);
    }

    method Eor(value: u8)
      modifies this`a, this`p
      ensures R() == Alu.SetA(old(R()), Alu.Xor8(old(a), value))
      ensures R() == I.LoadEffect(I.EOR, old(R()), value)
    {
      a := Alu.Xor8(a, value);
      p := p.SetNZ(a);
    }

    method BitTest(value: u8)
      modifies this`p
      ensures R() == Alu.BitTest(old(R()), value)
      ensures R() == I.LoadEffect(I.BIT, old(R()), value)
    {
      var result := Alu.And8(a, value);
      p := p.SetZ(result == 0);
      p := p.SetN(Alu.Negative(value));
      p := p.SetV(value / 0x40 % 2 == 1);
    }

    method Adc(value: u8)
      modifies this`a, this`p
      ensures (a, p) == Alu.Added(old(a), old(p), value) && R() == Alu.Adc(old(R()), value)
      ensures R() == I.LoadEffect(I.ADC, old(R()), value)
    {
      hide Byte, Alu.Negative, Alu.SignsDiffer, Alu.LowNibble, Alu.HighNibble;
      hide Status.SetC, Status.SetZ, Status.SetV, Status.SetN, Status.SetNZ;
      var carryIn := Bit(p.c);
      if p.d {
        var binSum := a + value + carryIn;
        p := p.SetZ(Byte(binSum) == 0);
        var al := Alu.LowNibble(a) + Alu.LowNibble(value) + carryIn;
        if al > 0x09 {
          al := (al + 0x06) % 0x10 + 0x10;
        }
        var intermediate := Byte(Alu.HighNibble(a) + Alu.HighNibble(value) + al);
        p := p.SetN(Alu.Negative(intermediate));
        p := p.SetV(Alu.SignsDiffer(a, intermediate) && Alu.SignsDiffer(value, intermediate));
        var result := Alu.HighNibble(a) + Alu.HighNibble(value) + al;
        if result >= 0xA0 {
          result := result + 0x60;
        }
        p := p.SetC(result >= 0x100);
        a := Byte(result);
      } else {
        var sum := a + value + carryIn;
        var result := Byte(sum);
        p := p.SetC(sum > 0xFF);
        p := p.SetV(Alu.SignsDiffer(a, result) && Alu.SignsDiffer(value, result));
        a := result;
        p := p.SetNZ(a);
      }
    }

    method Sbc(value: u8)
      modifies this`a, this`p
      ensures (a, p) == Alu.Subtracted(old(a), old(p), value) && R() == Alu.Sbc(old(R()), value)
      ensures R() == I.LoadEffect(I.SBC, old(R()), value)
    {
      hide Byte, Alu.Negative, Alu.SignsDiffer, Alu.LowNibble, Alu.Nibbles, Sub8, Alu.AdcBinary;
      hide Status.SetC, Status.SetZ, Status.SetV, Status.SetN;
      if p.d {
        var carry: int := Bit(p.c);
        var binResult := Byte(a + (0xFF - value) + carry);
        p := p.SetZ(binResult == 0);
        p := p.SetN(Alu.Negative(binResult));
        p := p.SetV(Alu.SignsDiffer(a, binResult) && Alu.SignsDiffer(0xFF - value, binResult));
        var al := Sub8(Sub8(Alu.LowNibble(a), Alu.LowNibble(value)), 1 - carry);
        var ah := Sub8(a / 0x10, value / 0x10);
        if Alu.Negative(al) {
          al := Sub8(al, 0x06);
          ah := Sub8(ah, 1);
        }
        if Alu.Negative(ah) {
          ah := Sub8(ah, 0x06);
          p := p.SetC(false);
        } else {
          p := p.SetC(true);
        }
        a := Alu.Nibbles(ah, al);
      } else {
        Adc(0xFF - value);
      }
    }

    method CmpWith(lhs: u8, rhs: u8)
      modifies this`p
      ensures R() == Alu.Compare(old(R()), lhs, rhs)
      ensures lhs == old(a) ==> R() == I.LoadEffect(I.CMP, old(R()), rhs)
    {
      p := p.SetC(lhs >= rhs);
      p := p.SetNZ(Sub8(lhs, rhs));
    }

    method Lax(value: u8)
      modifies this`a, this`x, this`p
      ensures R() == Alu.Lax(old(R()), value)
      ensures R() == I.LoadEffect(I.LAX, old(R()), value)
    {
      a := value;
      x := value;
      p := p.SetNZ(value);
    }

    method AslValue(value: u8) returns (r: u8)
      modifies this`p
      ensures (r, p) == Alu.Asl(old(p), value)
    {
      p := p.SetC(Alu.Negative(value));
      r := value * 2 % 0x100;
      p := p.SetNZ(r);
    }

    method LsrValue(value: u8) returns (r: u8)
      modifies this`p
      ensures (r, p) == Alu.Lsr(old(p), value)
    {
      p := p.SetC(value % 2 == 1);
      r := value / 2;
      p := p.SetNZ(r);
    }

    method RolValue(value: u8) returns (r: u8)
      modifies this`p
      ensures (r, p) == Alu.Rol(old(p), value)
    {
      var carryIn := Bit(p.c);
      p := p.SetC(Alu.Negative(value));
      r := value * 2 % 0x100 + carryIn;
      p := p.SetNZ(r);
    }

    method RorValue(value: u8) returns (r: u8)
      modifies this`p
      ensures (r, p) == Alu.Ror(old(p), value)
    {
      var carryIn := 0x80 * Bit(p.c);
      p := p.SetC(value % 2 == 1);
      r := value / 2 + carryIn;
      p := p.SetNZ(r);
    }

    // ---- Read-modify-write ----

    /** Read, then write the byte back unchanged. */
    method ReadBack(bus: CpuView, addr: u16) returns (v: u8)
      requires bus.Valid()
      modifies this`cyclesEmitted, this`cycles, bus
      ensures bus.Valid()
      ensures var (n, x) := S.Read1(old(M(bus)), addr); (M(bus), v) == (S.Write1(n, addr, x), x)
    {
      hide S.Read1, S.Write1;
      v := Read1(bus, addr);
      Write1(bus, addr, v);
    }

    method IncAddr(bus: CpuView, addr: u16)
      requires bus.Valid()
      modifies this`p, this`cyclesEmitted, this`cycles, bus
      ensures bus.Valid() && M(bus) == I.ModifyAt(old(M(bus)), I.INC, addr)
    {
      hide S.Read1, S.Write1;
      var v := ReadBack(bus, addr);
      ghost var m := M(bus);
      var r := Sum8(v, 1);
      WriteKeepsRegs(m, R(), addr, r);
      Write1(bus, addr, r);
      p := p.SetNZ(r);
    }

    method DecAddr(bus: CpuView, addr: u16)
      requires bus.Valid()
      modifies this`p, this`cyclesEmitted, this`cycles, bus
      ensures bus.Valid() && M(bus) == I.ModifyAt(old(M(bus)), I.DEC, addr)
    {
      hide S.Read1, S.Write1;
      var v := ReadBack(bus, addr);
      ghost var m := M(bus);
      var r := Sub8(v, 1);
      WriteKeepsRegs(m, R(), addr, r);
      Write1(bus, addr, r);
      p := p.SetNZ(r);
    }

    method AslAddr(bus: CpuView, addr: u16)
      requires bus.Valid()
      modifies this`p, this`cyclesEmitted, this`cycles, bus
      ensures bus.Valid() && M(bus) == I.ModifyAt(old(M(bus)), I.ASL, addr)
    {
      hide S.Read1, S.Write1, Alu.Asl, Alu.Lsr, Alu.Rol, Alu.Ror;
      var v := ReadBack(bus, addr);
      ghost var m := M(bus);
      var r := AslValue(v);
      WriteKeepsRegs(m, R(), addr, r);
      Write1(bus, addr, r);
    }

    method LsrAddr(bus: CpuView, addr: u16)
      requires bus.Valid()
      modifies this`p, this`cyclesEmitted, this`cycles, bus
      ensures bus.Valid() && M(bus) == I.ModifyAt(old(M(bus)), I.LSR, addr)
    {
      hide S.Read1, S.Write1, Alu.Asl, Alu.Lsr, Alu.Rol, Alu.Ror;
      var v := ReadBack(bus, addr);
      ghost var m := M(bus);
      var r := LsrValue(v);
      WriteKeepsRegs(m, R(), addr, r);
      Write1(bus, addr, r);
    }

    method RolAddr(bus: CpuView, addr: u16)
      requires bus.Valid()
      modifies this`p, this`cyclesEmitted, this`cycles, bus
      ensures bus.Valid() && M(bus) == I.ModifyAt(old(M(bus)), I.ROL, addr)
    {
      hide S.Read1, S.Write1, Alu.Asl, Alu.Lsr, Alu.Rol, Alu.Ror;
      var v := ReadBack(bus, addr);
      ghost var m := M(bus);
      var r := RolValue(v);
      WriteKeepsRegs(m, R(), addr, r);
      Write1(bus, addr, r);
    }

    method RorAddr(bus: CpuView, addr: u16)
      requires bus.Valid()
      modifies this`p, this`cyclesEmitted, this`cycles, bus
      ensures bus.Valid() && M(bus) == I.ModifyAt(old(M(bus)), I.ROR, addr)
    {
      hide S.Read1, S.Write1, Alu.Asl, Alu.Lsr, Alu.Rol, Alu.Ror;
      var v := ReadBack(bus, addr);
      ghost var m := M(bus);
      var r := RorValue(v);
      WriteKeepsRegs(m, R(), addr, r);
      Write1(bus, addr, r);
    }

    method DcpAddr(bus: CpuView, addr: u16)
      requires bus.Valid()
      modifies this`p, this`cyclesEmitted, this`cycles, bus
      ensures bus.Valid() && M(bus) == I.ModifyAt(old(M(bus)), I.DCP, addr)
    {
      hide S.Read1, S.Write1;
      var v := ReadBack(bus, addr);
      ghost var m := M(bus);
      var r := Sub8(v, 1);
      WriteKeepsRegs(m, R(), addr, r);
      Write1(bus, addr, r);
      CmpWith(a, r);
    }

    method IscAddr(bus: CpuView, addr: u16)
      requires bus.Valid()
      modifies this`a, this`p, this`cyclesEmitted, this`cycles, bus
      ensures bus.Valid() && M(bus) == I.ModifyAt(old(M(bus)), I.ISC, addr)
    {
      hide S.Read1, S.Write1, Alu.Subtracted;
      var v := ReadBack(bus, addr);
      ghost var m := M(bus);
      var r := Sum8(v, 1);
      WriteKeepsRegs(m, R(), addr, r);
      Write1(bus, addr, r);
      SbcKeepsCounters(m.r, R(), r);
      Sbc(r);
    }

    method SloAddr(bus: CpuView, addr: u16)
      requires bus.Valid()
      modifies this`a, this`p, this`cyclesEmitted, this`cycles, bus
      ensures bus.Valid() && M(bus) == I.ModifyAt(old(M(bus)), I.SLO, addr)
    {
      hide S.Read1, S.Write1, Alu.Asl, Alu.Lsr, Alu.Rol, Alu.Ror;
      var v := ReadBack(bus, addr);
      ghost var m := M(bus);
      var r := AslValue(v);
      WriteKeepsRegs(m, R(), addr, r);
      Write1(bus, addr, r);
      a := Alu.Or8(a, r);
      p := p.SetNZ(a);
    }

    method RlaAddr(bus: CpuView, addr: u16)
      requires bus.Valid()
      modifies this`a, this`p, this`cyclesEmitted, this`cycles, bus
      ensures bus.Valid() && M(bus) == I.ModifyAt(old(M(bus)), I.RLA, addr)
    {
      hide S.Read1, S.Write1, Alu.Asl, Alu.Lsr, Alu.Rol, Alu.Ror;
      var v := ReadBack(bus, addr);
      ghost var m := M(bus);
      var r := RolValue(v);
      WriteKeepsRegs(m, R(), addr, r);
      Write1(bus, addr, r);
      a := Alu.And8(a, r);
      p := p.SetNZ(a);
    }

    method SreAddr(bus: CpuView, addr: u16)
      requires bus.Valid()
      modifies this`a, this`p, this`cyclesEmitted, this`cycles, bus
      ensures bus.Valid() && M(bus) == I.ModifyAt(old(M(bus)), I.SRE, addr)
    {
      hide S.Read1, S.Write1, Alu.Asl, Alu.Lsr, Alu.Rol, Alu.Ror;
      var v := ReadBack(bus, addr);
      ghost var m := M(bus);
      var r := LsrValue(v);
      WriteKeepsRegs(m, R(), addr, r);
      Write1(bus, addr, r);
      a := Alu.Xor8(a, r);
      p := p.SetNZ(a);
    }

    method RraAddr(bus: CpuView, addr: u16)
      requires bus.Valid()
      modifies this`a, this`p, this`cyclesEmitted, this`cycles, bus
      ensures bus.Valid() && M(bus) == I.ModifyAt(old(M(bus)), I.RRA, addr)
    {
      hide S.Read1, S.Write1, Alu.Asl, Alu.Lsr, Alu.Rol, Alu.Ror, Alu.Added;
      var v := ReadBack(bus, addr);
      ghost var m := M(bus);
      var r := RorValue(v);
      WriteKeepsRegs(m, R(), addr, r);
      Write1(bus, addr, r);
      AdcKeepsCounters(m.r.(p := p), R(), r);
      Adc(r);
    }

    method Branch(bus: CpuView, offset: u8, condition: bool) returns (cycles: nat)
      requires bus.Valid()
      modifies this`pc, this`cyclesEmitted, this`cycles, bus
      ensures bus.Valid() && M(bus) == I.BranchTo(old(M(bus)), offset, condition)
      ensures cycles == if !condition then 2
                        else if I.Page(old(pc)) != I.Page(I.BranchTarget(old(pc), offset)) then 4 else 3
    {
      hide S.Read1, I.BranchTarget, I.Page;
      if !condition {
        return 2;
      }
      ReadGives(M(bus), pc);
      var _ := Read1(bus, pc);
      var newPc := I.BranchTarget(pc, offset);
      var crossed := I.Page(pc) != I.Page(newPc);
      if crossed {
        var _ := Read1(bus, pc - pc % 0x100 + newPc % 0x100);
      }
      pc := newPc;
      cycles := if crossed then 4 else 3;
    }

    method Arr(value: u8)
      modifies this`a, this`p
      ensures R() == Alu.Arr(old(R()), value)
    {
      hide Alu.And8, Alu.ArrHighSum, Alu.Nibbles, Sum8, Sub8, Byte;
      hide Status.SetC, Status.SetV, Status.SetNZ;
      var t := Alu.And8(a, value);
      var ror: u8 := t / 2 + 0x80 * Bit(p.c);
      var bit6, bit5 := ror / 0x40 % 2 == 1, ror / 0x20 % 2 == 1;
      FlagsKeepMode(p, ror, bit6 != bit5);
      p := p.SetNZ(ror);
      p := p.SetV(bit6 != bit5);
      if p.d {
        var result := ror;
        if t % 16 + t % 2 > 5 {
          result := Alu.Nibbles(result / 16, Sum8(result, 6));
        }
        var carry := Byte(Alu.ArrHighSum(t)) > 0x50;
        if carry {
          result := Sum8(result, 0x60);
        }
        p := p.SetC(carry);
        a := result;
      } else {
        p := p.SetC(bit6);
        a := ror;
      }
    }

    method Jsr(bus: CpuView)
      requires bus.Valid()
      modifies this, bus
      ensures bus.Valid() && M(bus) == I.ExecJsr(old(M(bus)))
    {
      hide S.Read1, I.Fetch, I.Push;
      var lo := FetchPc(bus);
      var _ := Read1(bus, STACK_BASE + s);
      var returnMinusOne := pc;
      Push(bus, Hi(returnMinusOne));
      Push(bus, Lo(returnMinusOne));
      var hi := FetchPc(bus);
      pc := Word(lo, hi);
    }

    method Rts(bus: CpuView)
      requires bus.Valid()
      modifies this, bus
      ensures bus.Valid() && M(bus) == I.ExecRts(old(M(bus)))
    {
      hide S.Read1, I.BeforePull, I.Pull16;
      BeforePull(bus);
      var v := PullU16(bus);
      var _ := Read1(bus, v);
      pc := Sum16(v, 1);
    }

    method Rti(bus: CpuView)
      requires bus.Valid()
      modifies this, bus
      ensures bus.Valid() && M(bus) == I.ExecRti(old(M(bus)))
    {
      hide S.Read1, I.BeforePull, I.Pull, I.Pull16, Pulled;
      BeforePull(bus);
      var v := Pull(bus);
      p := Pulled(v);
      pc := PullU16(bus);
    }

    method Brk(bus: CpuView)
      requires bus.Valid()
      modifies this, bus
      ensures bus.Valid() && M(bus) == I.ExecBrk(old(M(bus)))
    {
      hide S.Read1, I.Push, Status.ToByte;
      var _ := Read1(bus, pc);
      pc := Sum16(pc, 1);
      PushU16(bus, pc);
      Push(bus, p.(b := true).ToByte());
      p := p.SetI(true);
      var lo := Read1(bus, 0xFFFE);
      var hi := Read1(bus, 0xFFFF);
      pc := Word(lo, hi);
    }

    method JamUp(bus: CpuView)
      requires bus.Valid()
      modifies this, bus
      ensures bus.Valid() && M(bus) == I.ExecJam(old(M(bus)))
    {
      hide S.Read1;
      var _ := Read1(bus, pc);
      var _ := Read1(bus, 0xFFFF);
      var _ := Read1(bus, 0xFFFE);
      var _ := Read1(bus, 0xFFFE);
      ghost var m := M(bus);
      for i := 0 to 6
        invariant bus.Valid() && M(bus) == I.ReadTimes(m, 0xFFFF, i)
      {
        var _ := Read1(bus, 0xFFFF);
      }
      jammed := true;
    }

    // ---- Dispatch: the opcode table, section by section ----

    method LoadsA(bus: CpuView, op: u8) returns (cycles: nat)
      requires bus.Valid() && T.IsLoadsA(op)
      modifies this, bus
      ensures bus.Valid() && Performs(op, old(M(bus)), M(bus), cycles)
    {
      hide I.Decode, S.Read1, S.Write1, I.Fetch, I.Fetch16, I.EffectiveAddress, I.ReadPointer;
      hide I.Push, I.Pull, I.Crosses, I.ModifyAt, I.Exec, I.Cycles, I.Operand;
      hide Alu.SetA, Alu.SetX, Alu.SetY, Alu.Adc, Alu.Sbc, Status.SetNZ;
      hide R;
      LoadRule(I.LDA, M(bus));
      T.LoadsA();
      match op
      case 0xA9 => var v := FetchPc(bus); Lda(v); cycles := 2;
      case 0xA5 => var o := AddrZp(bus); LdaAddr(bus, o); cycles := 3;
      case 0xB5 => var o := AddrZpX(bus); LdaAddr(bus, o); cycles := 4;
      case 0xAD => var o := AddrAbs(bus); LdaAddr(bus, o); cycles := 4;
      case 0xBD => var o, crossed := AddrAbsX(bus); LdaAddr(bus, o); cycles := 4 + Bit(crossed);
      case 0xB9 => var o, crossed := AddrAbsY(bus); LdaAddr(bus, o); cycles := 4 + Bit(crossed);
      case 0xA1 => var o := AddrIndX(bus); LdaAddr(bus, o); cycles := 6;
      case 0xB1 => var o, crossed := AddrIndY(bus); LdaAddr(bus, o); cycles := 5 + Bit(crossed);
      case _ => assert false;
    }

    method LoadsX(bus: CpuView, op: u8) returns (cycles: nat)
      requires bus.Valid() && T.IsLoadsX(op)
      modifies this, bus
      ensures bus.Valid() && Performs(op, old(M(bus)), M(bus), cycles)
    {
      hide I.Decode, S.Read1, S.Write1, I.Fetch, I.Fetch16, I.EffectiveAddress, I.ReadPointer;
      hide I.Push, I.Pull, I.Crosses, I.ModifyAt, I.Exec, I.Cycles, I.Operand;
      hide Alu.SetA, Alu.SetX, Alu.SetY, Alu.Adc, Alu.Sbc, Status.SetNZ;
      LoadRule(I.LDX, M(bus));
      T.LoadsX();
      match op
      case 0xA2 => var v := FetchPc(bus); Ldx(v); cycles := 2;
      case 0xA6 => var o := AddrZp(bus); var v := Read1(bus, o); Ldx(v); cycles := 3;
      case 0xB6 => var o := AddrZpY(bus); var v := Read1(bus, o); Ldx(v); cycles := 4;
      case 0xAE => var o := AddrAbs(bus); var v := Read1(bus, o); Ldx(v); cycles := 4;
      case 0xBE => var o, crossed := AddrAbsY(bus); var v := Read1(bus, o); Ldx(v); cycles := 4 + Bit(crossed);
      case _ => assert false;
    }

    method LoadsY(bus: CpuView, op: u8) returns (cycles: nat)
      requires bus.Valid() && T.IsLoadsY(op)
      modifies this, bus
      ensures bus.Valid() && Performs(op, old(M(bus)), M(bus), cycles)
    {
      hide I.Decode, S.Read1, S.Write1, I.Fetch, I.Fetch16, I.EffectiveAddress, I.ReadPointer;
      hide I.Push, I.Pull, I.Crosses, I.ModifyAt, I.Exec, I.Cycles, I.Operand;
      hide Alu.SetA, Alu.SetX, Alu.SetY, Alu.Adc, Alu.Sbc, Status.SetNZ;
      LoadRule(I.LDY, M(bus));
      T.LoadsY();
      match op
      case 0xA0 => var v := FetchPc(bus); Ldy(v); cycles := 2;
      case 0xA4 => var o := AddrZp(bus); var v := Read1(bus, o); Ldy(v); cycles := 3;
      case 0xB4 => var o := AddrZpX(bus); var v := Read1(bus, o); Ldy(v); cycles := 4;
      case 0xAC => var o := AddrAbs(bus); var v := Read1(bus, o); Ldy(v); cycles := 4;
      case 0xBC => var o, crossed := AddrAbsX(bus); var v := Read1(bus, o); Ldy(v); cycles := 4 + Bit(crossed);
      case _ => assert false;
    }

    method StoresA(bus: CpuView, op: u8) returns (cycles: nat)
      requires bus.Valid() && T.IsStoresA(op)
      modifies this, bus
      ensures bus.Valid() && Performs(op, old(M(bus)), M(bus), cycles)
    {
      hide I.Decode, S.Read1, S.Write1, I.Fetch, I.Fetch16, I.EffectiveAddress, I.ReadPointer;
      hide I.Push, I.Pull, I.Crosses, I.ModifyAt, I.Exec, I.Cycles;
      assert I.StoreValue(I.STA, M(bus).r) == a;
      hide M, R;
      StoreRule(I.STA, M(bus));
      T.StoresA();
      match op
      case 0x85 => var o := AddrZp(bus); Write1(bus, o, a); cycles := 3;
      case 0x95 => var o := AddrZpX(bus); Write1(bus, o, a); cycles := 4;
      case 0x8D => var o := AddrAbs(bus); Write1(bus, o, a); cycles := 4;
      case 0x81 => var o := AddrIndX(bus); Write1(bus, o, a); cycles := 6;
      case _ => assert false;
    }

    /** Indexed stores read their final address where no page cross already cost them a dummy read. */
    method StoresAIndexed(bus: CpuView, op: u8) returns (cycles: nat)
      requires bus.Valid() && T.IsStoresAIndexed(op)
      modifies this, bus
      ensures bus.Valid() && Performs(op, old(M(bus)), M(bus), cycles)
    {
      hide I.Decode, S.Read1, S.Write1, I.Fetch, I.Fetch16, I.EffectiveAddress, I.ReadPointer;
      hide I.Push, I.Pull, I.Crosses, I.ModifyAt, I.Exec, I.Cycles;
      assert I.StoreValue(I.STA, M(bus).r) == a;
      hide M, R;
      StoreRule(I.STA, M(bus));
      T.StoresAIndexed();
      match op
      case 0x9D =>
        DummyAtFinalAddress(M(bus), I.AbsX);
        var o, crossed := AddrAbsX(bus);
        if !crossed {
          var _ := Read1(bus, o);
        }
        Write1(bus, o, a);
        cycles := 5;
      case 0x99 =>
        DummyAtFinalAddress(M(bus), I.AbsY);
        var o, crossed := AddrAbsY(bus);
        if !crossed {
          var _ := Read1(bus, o);
        }
        Write1(bus, o, a);
        cycles := 5;
      case 0x91 =>
        DummyAtFinalAddress(M(bus), I.IndY);
        var o, crossed := AddrIndY(bus);
        if !crossed {
          var _ := Read1(bus, o);
        }
        Write1(bus, o, a);
        cycles := 6;
      case _ => assert false;
    }

    method StoresXY(bus: CpuView, op: u8) returns (cycles: nat)
      requires bus.Valid() && T.IsStoresXY(op)
      modifies this, bus
      ensures bus.Valid() && Performs(op, old(M(bus)), M(bus), cycles)
    {
      hide I.Decode, S.Read1, S.Write1, I.Fetch, I.Fetch16, I.EffectiveAddress, I.ReadPointer;
      hide I.Push, I.Pull, I.Crosses, I.ModifyAt;
      T.StoresXY();
      match op
      case 0x86 => var o := AddrZp(bus); Write1(bus, o, x); cycles := 3;
      case 0x96 => var o := AddrZpY(bus); Write1(bus, o, x); cycles := 4;
      case 0x8E => var o := AddrAbs(bus); Write1(bus, o, x); cycles := 4;
      case 0x84 => var o := AddrZp(bus); Write1(bus, o, y); cycles := 3;
      case 0x94 => var o := AddrZpX(bus); Write1(bus, o, y); cycles := 4;
      case 0x8C => var o := AddrAbs(bus); Write1(bus, o, y); cycles := 4;
      case _ => assert false;
    }

    method Transfers(bus: CpuView, op: u8) returns (cycles: nat)
      requires bus.Valid() && T.IsTransfers(op)
      modifies this, bus
      ensures bus.Valid() && Performs(op, old(M(bus)), M(bus), cycles)
    {
      hide I.Decode, S.Read1, S.Write1, I.Fetch, I.Fetch16, I.EffectiveAddress, I.ReadPointer;
      hide I.Push, I.Pull, I.Crosses, I.ModifyAt, I.Exec, I.Cycles;
      ImpliedRule(M(bus));
      T.Transfers();
      match op
      case 0xAA => ImpliedDummyRead(bus); x := a; p := p.SetNZ(x); cycles := 2;
      case 0xA8 => ImpliedDummyRead(bus); y := a; p := p.SetNZ(y); cycles := 2;
      case 0xBA => ImpliedDummyRead(bus); x := s; p := p.SetNZ(x); cycles := 2;
      case 0x8A => ImpliedDummyRead(bus); a := x; p := p.SetNZ(a); cycles := 2;
      case 0x9A => ImpliedDummyRead(bus); s := x; cycles := 2;
      case 0x98 => ImpliedDummyRead(bus); a := y; p := p.SetNZ(a); cycles := 2;
      case _ => assert false;
    }

    method StackOps(bus: CpuView, op: u8) returns (cycles: nat)
      requires bus.Valid() && T.IsStackOps(op)
      modifies this, bus
      ensures bus.Valid() && Performs(op, old(M(bus)), M(bus), cycles)
    {
      hide I.Decode, S.Read1, S.Write1, I.Fetch, I.Fetch16, I.EffectiveAddress, I.ReadPointer;
      hide I.Push, I.Pull, I.Crosses, I.ModifyAt, I.BeforePull, Status.ToByte, Pulled;
      T.StackOps();
      match op
      case 0x48 => var _ := Read1(bus, pc); Push(bus, a); cycles := 3;
      case 0x08 => var _ := Read1(bus, pc); Push(bus, p.(b := true, u := true).ToByte()); cycles := 3;
      case 0x68 => BeforePull(bus); a := Pull(bus); p := p.SetNZ(a); cycles := 4;
      case 0x28 => BeforePull(bus); var v := Pull(bus); p := Pulled(v); cycles := 4;
      case _ => assert false;
    }

    method Ands(bus: CpuView, op: u8) returns (cycles: nat)
      requires bus.Valid() && T.IsAnds(op)
      modifies this, bus
      ensures bus.Valid() && Performs(op, old(M(bus)), M(bus), cycles)
    {
      hide I.Decode, S.Read1, S.Write1, I.Fetch, I.Fetch16, I.EffectiveAddress, I.ReadPointer;
      hide I.Push, I.Pull, I.Crosses, I.ModifyAt, Alu.And8, I.Exec, I.Cycles, I.Operand;
      hide Alu.SetA, Alu.SetX, Alu.SetY, Alu.Adc, Alu.Sbc, Status.SetNZ;
      hide R, I.LoadEffect;
      LoadRule(I.AND, M(bus));
      T.Ands();
      match op
      case 0x29 => var v := FetchPc(bus); And(v); cycles := 2;
      case 0x25 => var o := AddrZp(bus); var v := Read1(bus, o); And(v); cycles := 3;
      case 0x35 => var o := AddrZpX(bus); var v := Read1(bus, o); And(v); cycles := 4;
      case 0x2D => var o := AddrAbs(bus); var v := Read1(bus, o); And(v); cycles := 4;
      case 0x3D => var o, crossed := AddrAbsX(bus); var v := Read1(bus, o); And(v); cycles := 4 + Bit(crossed);
      case 0x39 => var o, crossed := AddrAbsY(bus); var v := Read1(bus, o); And(v); cycles := 4 + Bit(crossed);
      case 0x21 => var o := AddrIndX(bus); var v := Read1(bus, o); And(v); cycles := 6;
      case 0x31 => var o, crossed := AddrIndY(bus); var v := Read1(bus, o); And(v); cycles := 5 + Bit(crossed);
      case _ => assert false;
    }

    method Ors(bus: CpuView, op: u8) returns (cycles: nat)
      requires bus.Valid() && T.IsOrs(op)
      modifies this, bus
      ensures bus.Valid() && Performs(op, old(M(bus)), M(bus), cycles)
    {
      hide I.Decode, S.Read1, S.Write1, I.Fetch, I.Fetch16, I.EffectiveAddress, I.ReadPointer;
      hide I.Push, I.Pull, I.Crosses, I.ModifyAt, Alu.Or8, I.Exec, I.Cycles, I.Operand;
      hide Alu.SetA, Alu.SetX, Alu.SetY, Alu.Adc, Alu.Sbc, Status.SetNZ;
      hide R, I.LoadEffect;
      LoadRule(I.ORA, M(bus));
      T.Ors();
      match op
      case 0x09 => var v := FetchPc(bus); Ora(v); cycles := 2;
      case 0x05 => var o := AddrZp(bus); var v := Read1(bus, o); Ora(v); cycles := 3;
      case 0x15 => var o := AddrZpX(bus); var v := Read1(bus, o); Ora(v); cycles := 4;
      case 0x0D => var o := AddrAbs(bus); var v := Read1(bus, o); Ora(v); cycles := 4;
      case 0x1D => var o, crossed := AddrAbsX(bus); var v := Read1(bus, o); Ora(v); cycles := 4 + Bit(crossed);
      case 0x19 => var o, crossed := AddrAbsY(bus); var v := Read1(bus, o); Ora(v); cycles := 4 + Bit(crossed);
      case 0x01 => var o := AddrIndX(bus); var v := Read1(bus, o); Ora(v); cycles := 6;
      case 0x11 => var o, crossed := AddrIndY(bus); var v := Read1(bus, o); Ora(v); cycles := 5 + Bit(crossed);
      case _ => assert false;
    }

    method Xors(bus: CpuView, op: u8) returns (cycles: nat)
      requires bus.Valid() && T.IsXors(op)
      modifies this, bus
      ensures bus.Valid() && Performs(op, old(M(bus)), M(bus), cycles)
    {
      hide I.Decode, S.Read1, S.Write1, I.Fetch, I.Fetch16, I.EffectiveAddress, I.ReadPointer;
      hide I.Push, I.Pull, I.Crosses, I.ModifyAt, Alu.Xor8, I.Exec, I.Cycles, I.Operand;
      hide Alu.SetA, Alu.SetX, Alu.SetY, Alu.Adc, Alu.Sbc, Status.SetNZ;
      hide R, I.LoadEffect;
      LoadRule(I.EOR, M(bus));
      T.Xors();
      match op
      case 0x49 => var v := FetchPc(bus); Eor(v); cycles := 2;
      case 0x45 => var o := AddrZp(bus); var v := Read1(bus, o); Eor(v); cycles := 3;
      case 0x55 => var o := AddrZpX(bus); var v := Read1(bus, o); Eor(v); cycles := 4;
      case 0x4D => var o := AddrAbs(bus); var v := Read1(bus, o); Eor(v); cycles := 4;
      case 0x5D => var o, crossed := AddrAbsX(bus); var v := Read1(bus, o); Eor(v); cycles := 4 + Bit(crossed);
      case 0x59 => var o, crossed := AddrAbsY(bus); var v := Read1(bus, o); Eor(v); cycles := 4 + Bit(crossed);
      case 0x41 => var o := AddrIndX(bus); var v := Read1(bus, o); Eor(v); cycles := 6;
      case 0x51 => var o, crossed := AddrIndY(bus); var v := Read1(bus, o); Eor(v); cycles := 5 + Bit(crossed);
      case _ => assert false;
    }

    method Bits(bus: CpuView, op: u8) returns (cycles: nat)
      requires bus.Valid() && T.IsBits(op)
      modifies this, bus
      ensures bus.Valid() && Performs(op, old(M(bus)), M(bus), cycles)
    {
      hide I.Decode, S.Read1, S.Write1, I.Fetch, I.Fetch16, I.EffectiveAddress, I.ReadPointer;
      hide I.Push, I.Pull, I.Crosses, I.ModifyAt, Alu.BitTest, I.Exec, I.Cycles, I.Operand;
      hide R, I.LoadEffect;
      LoadRule(I.BIT, M(bus));
      T.Bits();
      match op
      case 0x24 => var o := AddrZp(bus); var v := Read1(bus, o); BitTest(v); cycles := 3;
      case 0x2C => var o := AddrAbs(bus); var v := Read1(bus, o); BitTest(v); cycles := 4;
      case _ => assert false;
    }

    method Additions(bus: CpuView, op: u8) returns (cycles: nat)
      requires bus.Valid() && T.IsAdditions(op)
      modifies this, bus
      ensures bus.Valid() && Performs(op, old(M(bus)), M(bus), cycles)
    {
      hide I.Decode, S.Read1, S.Write1, I.Fetch, I.Fetch16, I.EffectiveAddress, I.ReadPointer;
      hide I.Push, I.Pull, I.Crosses, I.ModifyAt, Alu.Added, I.Exec, I.Cycles, I.Operand;
      hide Alu.SetA, Alu.SetX, Alu.SetY, Alu.Adc, Alu.Sbc, Status.SetNZ;
      hide R, I.LoadEffect;
      LoadRule(I.ADC, M(bus));
      T.Additions();
      match op
      case 0x69 => var v := FetchPc(bus); Adc(v); cycles := 2;
      case 0x65 => var o := AddrZp(bus); var v := Read1(bus, o); Adc(v); cycles := 3;
      case 0x75 => var o := AddrZpX(bus); var v := Read1(bus, o); Adc(v); cycles := 4;
      case 0x6D => var o := AddrAbs(bus); var v := Read1(bus, o); Adc(v); cycles := 4;
      case 0x7D => var o, crossed := AddrAbsX(bus); var v := Read1(bus, o); Adc(v); cycles := 4 + Bit(crossed);
      case 0x79 => var o, crossed := AddrAbsY(bus); var v := Read1(bus, o); Adc(v); cycles := 4 + Bit(crossed);
      case 0x61 => var o := AddrIndX(bus); var v := Read1(bus, o); Adc(v); cycles := 6;
      case 0x71 => var o, crossed := AddrIndY(bus); var v := Read1(bus, o); Adc(v); cycles := 5 + Bit(crossed);
      case _ => assert false;
    }

    method Subtractions(bus: CpuView, op: u8) returns (cycles: nat)
      requires bus.Valid() && T.IsSubtractions(op)
      modifies this, bus
      ensures bus.Valid() && Performs(op, old(M(bus)), M(bus), cycles)
    {
      hide I.Decode, S.Read1, S.Write1, I.Fetch, I.Fetch16, I.EffectiveAddress, I.ReadPointer;
      hide I.Push, I.Pull, I.Crosses, I.ModifyAt, Alu.Subtracted, I.Exec, I.Cycles, I.Operand;
      hide Alu.SetA, Alu.SetX, Alu.SetY, Alu.Adc, Alu.Sbc, Status.SetNZ;
      hide R, I.LoadEffect;
      LoadRule(I.SBC, M(bus));
      T.Subtractions();
      match op
      case 0xE9 | 0xEB => var v := FetchPc(bus); Sbc(v); cycles := 2;
      case 0xE5 => var o := AddrZp(bus); var v := Read1(bus, o); Sbc(v); cycles := 3;
      case 0xF5 => var o := AddrZpX(bus); var v := Read1(bus, o); Sbc(v); cycles := 4;
      case 0xED => var o := AddrAbs(bus); var v := Read1(bus, o); Sbc(v); cycles := 4;
      case 0xFD => var o, crossed := AddrAbsX(bus); var v := Read1(bus, o); Sbc(v); cycles := 4 + Bit(crossed);
      case 0xF9 => var o, crossed := AddrAbsY(bus); var v := Read1(bus, o); Sbc(v); cycles := 4 + Bit(crossed);
      case 0xE1 => var o := AddrIndX(bus); var v := Read1(bus, o); Sbc(v); cycles := 6;
      case 0xF1 => var o, crossed := AddrIndY(bus); var v := Read1(bus, o); Sbc(v); cycles := 5 + Bit(crossed);
      case _ => assert false;
    }

    method ComparesA(bus: CpuView, op: u8) returns (cycles: nat)
      requires bus.Valid() && T.IsComparesA(op)
      modifies this, bus
      ensures bus.Valid() && Performs(op, old(M(bus)), M(bus), cycles)
    {
      hide I.Decode, S.Read1, S.Write1, I.Fetch, I.Fetch16, I.EffectiveAddress, I.ReadPointer;
      hide I.Push, I.Pull, I.Crosses, I.ModifyAt, Alu.Compare, I.Exec, I.Cycles, I.Operand;
      hide R, I.LoadEffect;
      LoadRule(I.CMP, M(bus));
      T.ComparesA();
      match op
      case 0xC9 => var v := FetchPc(bus); CmpWith(a, v); cycles := 2;
      case 0xC5 => var o := AddrZp(bus); var v := Read1(bus, o); CmpWith(a, v); cycles := 3;
      case 0xD5 => var o := AddrZpX(bus); var v := Read1(bus, o); CmpWith(a, v); cycles := 4;
      case 0xCD => var o := AddrAbs(bus); var v := Read1(bus, o); CmpWith(a, v); cycles := 4;
      case 0xDD => var o, crossed := AddrAbsX(bus); var v := Read1(bus, o); CmpWith(a, v); cycles := 4 + Bit(crossed);
      case 0xD9 => var o, crossed := AddrAbsY(bus); var v := Read1(bus, o); CmpWith(a, v); cycles := 4 + Bit(crossed);
      case 0xC1 => var o := AddrIndX(bus); var v := Read1(bus, o); CmpWith(a, v); cycles := 6;
      case 0xD1 => var o, crossed := AddrIndY(bus); var v := Read1(bus, o); CmpWith(a, v); cycles := 5 + Bit(crossed);
      case _ => assert false;
    }

    method ComparesX(bus: CpuView, op: u8) returns (cycles: nat)
      requires bus.Valid() && T.IsComparesX(op)
      modifies this, bus
      ensures bus.Valid() && Performs(op, old(M(bus)), M(bus), cycles)
    {
      hide I.Decode, S.Read1, S.Write1, I.Fetch, I.Fetch16, I.EffectiveAddress, I.ReadPointer;
      hide I.Push, I.Pull, I.Crosses, I.ModifyAt, Alu.Compare, I.Exec, I.Cycles, I.Operand;
      LoadRule(I.CPX, M(bus));
      T.ComparesX();
      match op
      case 0xE0 => var v := FetchPc(bus); CmpWith(x, v); cycles := 2;
      case 0xE4 => var o := AddrZp(bus); var v := Read1(bus, o); CmpWith(x, v); cycles := 3;
      case 0xEC => var o := AddrAbs(bus); var v := Read1(bus, o); CmpWith(x, v); cycles := 4;
      case _ => assert false;
    }

    method ComparesY(bus: CpuView, op: u8) returns (cycles: nat)
      requires bus.Valid() && T.IsComparesY(op)
      modifies this, bus
      ensures bus.Valid() && Performs(op, old(M(bus)), M(bus), cycles)
    {
      hide I.Decode, S.Read1, S.Write1, I.Fetch, I.Fetch16, I.EffectiveAddress, I.ReadPointer;
      hide I.Push, I.Pull, I.Crosses, I.ModifyAt, Alu.Compare, I.Exec, I.Cycles, I.Operand;
      LoadRule(I.CPY, M(bus));
      T.ComparesY();
      match op
      case 0xC0 => var v := FetchPc(bus); CmpWith(y, v); cycles := 2;
      case 0xC4 => var o := AddrZp(bus); var v := Read1(bus, o); CmpWith(y, v); cycles := 3;
      case 0xCC => var o := AddrAbs(bus); var v := Read1(bus, o); CmpWith(y, v); cycles := 4;
      case _ => assert false;
    }

    method MemoryCounts(bus: CpuView, op: u8) returns (cycles: nat)
      requires bus.Valid() && T.IsMemoryCounts(op)
      modifies this, bus
      ensures bus.Valid() && Performs(op, old(M(bus)), M(bus), cycles)
    {
      hide I.Decode, S.Read1, S.Write1, I.Fetch, I.Fetch16, I.EffectiveAddress, I.ReadPointer;
      hide I.Push, I.Pull, I.Crosses, I.ModifyAt, I.Exec, I.Cycles, M, R;
      ModifyRule(I.INC, M(bus));
      ModifyRule(I.DEC, M(bus));
      T.MemoryCounts();
      match op
      case 0xE6 => var o := AddrZp(bus); IncAddr(bus, o); cycles := 5;
      case 0xF6 => var o := AddrZpX(bus); IncAddr(bus, o); cycles := 6;
      case 0xEE => var o := AddrAbs(bus); IncAddr(bus, o); cycles := 6;
      case 0xFE => var addr := AddrAbsXRmw(bus); IncAddr(bus, addr); cycles := 7;
      case 0xC6 => var o := AddrZp(bus); DecAddr(bus, o); cycles := 5;
      case 0xD6 => var o := AddrZpX(bus); DecAddr(bus, o); cycles := 6;
      case 0xCE => var o := AddrAbs(bus); DecAddr(bus, o); cycles := 6;
      case 0xDE => var addr := AddrAbsXRmw(bus); DecAddr(bus, addr); cycles := 7;
      case _ => assert false;
    }

    method RegisterCounts(bus: CpuView, op: u8) returns (cycles: nat)
      requires bus.Valid() && T.IsRegisterCounts(op)
      modifies this, bus
      ensures bus.Valid() && Performs(op, old(M(bus)), M(bus), cycles)
    {
      hide I.Decode, S.Read1, S.Write1, I.Fetch, I.Fetch16, I.EffectiveAddress, I.ReadPointer;
      hide I.Push, I.Pull, I.Crosses, I.ModifyAt, I.Exec, I.Cycles;
      ImpliedRule(M(bus));
      T.RegisterCounts();
      match op
      case 0xE8 => ImpliedDummyRead(bus); x := Sum8(x, 1); p := p.SetNZ(x); cycles := 2;
      case 0xCA => ImpliedDummyRead(bus); x := Sub8(x, 1); p := p.SetNZ(x); cycles := 2;
      case 0xC8 => ImpliedDummyRead(bus); y := Sum8(y, 1); p := p.SetNZ(y); cycles := 2;
      case 0x88 => ImpliedDummyRead(bus); y := Sub8(y, 1); p := p.SetNZ(y); cycles := 2;
      case _ => assert false;
    }

    method ShiftsLeft(bus: CpuView, op: u8) returns (cycles: nat)
      requires bus.Valid() && T.IsShiftsLeft(op)
      modifies this, bus
      ensures bus.Valid() && Performs(op, old(M(bus)), M(bus), cycles)
    {
      hide I.Decode, S.Read1, S.Write1, I.Fetch, I.Fetch16, I.EffectiveAddress, I.ReadPointer;
      hide I.Push, I.Pull, I.Crosses, I.ModifyAt, Alu.Asl, I.Exec, I.Cycles;
      ModifyRule(I.ASL, M(bus));
      ImpliedRule(M(bus));
      T.ShiftsLeft();
      match op
      case 0x0A => ImpliedDummyRead(bus); a := AslValue(a); cycles := 2;
      case 0x06 => var o := AddrZp(bus); AslAddr(bus, o); cycles := 5;
      case 0x16 => var o := AddrZpX(bus); AslAddr(bus, o); cycles := 6;
      case 0x0E => var o := AddrAbs(bus); AslAddr(bus, o); cycles := 6;
      case 0x1E => var addr := AddrAbsXRmw(bus); AslAddr(bus, addr); cycles := 7;
      case _ => assert false;
    }

    method ShiftsRight(bus: CpuView, op: u8) returns (cycles: nat)
      requires bus.Valid() && T.IsShiftsRight(op)
      modifies this, bus
      ensures bus.Valid() && Performs(op, old(M(bus)), M(bus), cycles)
    {
      hide I.Decode, S.Read1, S.Write1, I.Fetch, I.Fetch16, I.EffectiveAddress, I.ReadPointer;
      hide I.Push, I.Pull, I.Crosses, I.ModifyAt, Alu.Lsr, I.Exec, I.Cycles;
      ModifyRule(I.LSR, M(bus));
      ImpliedRule(M(bus));
      T.ShiftsRight();
      match op
      case 0x4A => ImpliedDummyRead(bus); a := LsrValue(a); cycles := 2;
      case 0x46 => var o := AddrZp(bus); LsrAddr(bus, o); cycles := 5;
      case 0x56 => var o := AddrZpX(bus); LsrAddr(bus, o); cycles := 6;
      case 0x4E => var o := AddrAbs(bus); LsrAddr(bus, o); cycles := 6;
      case 0x5E => var addr := AddrAbsXRmw(bus); LsrAddr(bus, addr); cycles := 7;
      case _ => assert false;
    }

    method RotatesLeft(bus: CpuView, op: u8) returns (cycles: nat)
      requires bus.Valid() && T.IsRotatesLeft(op)
      modifies this, bus
      ensures bus.Valid() && Performs(op, old(M(bus)), M(bus), cycles)
    {
      hide I.Decode, S.Read1, S.Write1, I.Fetch, I.Fetch16, I.EffectiveAddress, I.ReadPointer;
      hide I.Push, I.Pull, I.Crosses, I.ModifyAt, Alu.Rol, I.Exec, I.Cycles;
      ModifyRule(I.ROL, M(bus));
      ImpliedRule(M(bus));
      T.RotatesLeft();
      match op
      case 0x2A => ImpliedDummyRead(bus); a := RolValue(a); cycles := 2;
      case 0x26 => var o := AddrZp(bus); RolAddr(bus, o); cycles := 5;
      case 0x36 => var o := AddrZpX(bus); RolAddr(bus, o); cycles := 6;
      case 0x2E => var o := AddrAbs(bus); RolAddr(bus, o); cycles := 6;
      case 0x3E => var addr := AddrAbsXRmw(bus); RolAddr(bus, addr); cycles := 7;
      case _ => assert false;
    }

    method RotatesRight(bus: CpuView, op: u8) returns (cycles: nat)
      requires bus.Valid() && T.IsRotatesRight(op)
      modifies this, bus
      ensures bus.Valid() && Performs(op, old(M(bus)), M(bus), cycles)
    {
      hide I.Decode, S.Read1, S.Write1, I.Fetch, I.Fetch16, I.EffectiveAddress, I.ReadPointer;
      hide I.Push, I.Pull, I.Crosses, I.ModifyAt, Alu.Ror, I.Exec, I.Cycles;
      ModifyRule(I.ROR, M(bus));
      ImpliedRule(M(bus));
      T.RotatesRight();
      match op
      case 0x6A => ImpliedDummyRead(bus); a := RorValue(a); cycles := 2;
      case 0x66 => var o := AddrZp(bus); RorAddr(bus, o); cycles := 5;
      case 0x76 => var o := AddrZpX(bus); RorAddr(bus, o); cycles := 6;
      case 0x6E => var o := AddrAbs(bus); RorAddr(bus, o); cycles := 6;
      case 0x7E => var addr := AddrAbsXRmw(bus); RorAddr(bus, addr); cycles := 7;
      case _ => assert false;
    }

    method Branches(bus: CpuView, op: u8) returns (cycles: nat)
      requires bus.Valid() && T.IsBranches(op)
      modifies this, bus
      ensures bus.Valid() && Performs(op, old(M(bus)), M(bus), cycles)
    {
      hide I.Decode, S.Read1, S.Write1, I.Fetch, I.Fetch16, I.EffectiveAddress, I.ReadPointer;
      hide I.Push, I.Pull, I.Crosses, I.ModifyAt, I.BranchTo, I.BranchTarget, I.Page;
      FetchGives(M(bus));
      T.Branches();
      match op
      case 0x10 => var off := FetchPc(bus); cycles := Branch(bus, off, !p.n);
      case 0x30 => var off := FetchPc(bus); cycles := Branch(bus, off, p.n);
      case 0x50 => var off := FetchPc(bus); cycles := Branch(bus, off, !p.v);
      case 0x70 => var off := FetchPc(bus); cycles := Branch(bus, off, p.v);
      case 0x90 => var off := FetchPc(bus); cycles := Branch(bus, off, !p.c);
      case 0xB0 => var off := FetchPc(bus); cycles := Branch(bus, off, p.c);
      case 0xD0 => var off := FetchPc(bus); cycles := Branch(bus, off, !p.z);
      case 0xF0 => var off := FetchPc(bus); cycles := Branch(bus, off, p.z);
      case _ => assert false;
    }

    method Jumps(bus: CpuView, op: u8) returns (cycles: nat)
      requires bus.Valid() && T.IsJumps(op)
      modifies this, bus
      ensures bus.Valid() && Performs(op, old(M(bus)), M(bus), cycles)
    {
      hide I.Decode, S.Read1, S.Write1, I.Fetch, I.Fetch16, I.EffectiveAddress, I.ReadPointer;
      hide I.Push, I.Pull, I.Crosses, I.ModifyAt, I.ExecJsr, I.ExecRts, I.ExecRti, I.ExecBrk;
      T.Jumps();
      match op
      case 0x4C => pc := FetchPcU16(bus); cycles := 3;
      case 0x6C => var ptr := FetchPcU16(bus); pc := ReadU16WithWrap(bus, ptr); cycles := 5;
      case 0x20 => Jsr(bus); cycles := 6;
      case _ => assert false;
    }

    method Returns(bus: CpuView, op: u8) returns (cycles: nat)
      requires bus.Valid() && T.IsReturns(op)
      modifies this, bus
      ensures bus.Valid() && Performs(op, old(M(bus)), M(bus), cycles)
    {
      hide I.Decode, S.Read1, S.Write1, I.Fetch, I.Fetch16, I.EffectiveAddress, I.ReadPointer;
      hide I.Push, I.Pull, I.Crosses, I.ModifyAt, I.ExecJsr, I.ExecRts, I.ExecRti, I.ExecBrk;
      T.Returns();
      match op
      case 0x60 => Rts(bus); cycles := 6;
      case 0x40 => Rti(bus); cycles := 6;
      case 0x00 => Brk(bus); cycles := 7;
      case 0xEA => ImpliedDummyRead(bus); cycles := 2;
      case _ => assert false;
    }

    method FlagsCI(bus: CpuView, op: u8) returns (cycles: nat)
      requires bus.Valid() && T.IsFlagsCI(op)
      modifies this, bus
      ensures bus.Valid() && Performs(op, old(M(bus)), M(bus), cycles)
    {
      hide I.Decode, S.Read1, S.Write1, I.Fetch, I.Fetch16, I.EffectiveAddress, I.ReadPointer;
      hide I.Push, I.Pull, I.Crosses, I.ModifyAt, I.Exec, I.Cycles;
      hide Status.SetC, Status.SetI, Status.SetD, Status.SetV;
      ImpliedRule(M(bus));
      T.FlagsCI();
      match op
      case 0x18 => ImpliedDummyRead(bus); p := p.SetC(false); cycles := 2;
      case 0x38 => ImpliedDummyRead(bus); p := p.SetC(true); cycles := 2;
      case 0x58 => ImpliedDummyRead(bus); p := p.SetI(false); cycles := 2;
      case 0x78 => ImpliedDummyRead(bus); p := p.SetI(true); cycles := 2;
      case _ => assert false;
    }

    method FlagsVD(bus: CpuView, op: u8) returns (cycles: nat)
      requires bus.Valid() && T.IsFlagsVD(op)
      modifies this, bus
      ensures bus.Valid() && Performs(op, old(M(bus)), M(bus), cycles)
    {
      hide I.Decode, S.Read1, S.Write1, I.Fetch, I.Fetch16, I.EffectiveAddress, I.ReadPointer;
      hide I.Push, I.Pull, I.Crosses, I.ModifyAt, I.Exec, I.Cycles;
      hide Status.SetC, Status.SetI, Status.SetD, Status.SetV;
      ImpliedRule(M(bus));
      T.FlagsVD();
      match op
      case 0xB8 => ImpliedDummyRead(bus); p := p.SetV(false); cycles := 2;
      case 0xD8 => ImpliedDummyRead(bus); p := p.SetD(false); cycles := 2;
      case 0xF8 => ImpliedDummyRead(bus); p := p.SetD(true); cycles := 2;
      case _ => assert false;
    }

    method ShortNops(bus: CpuView, op: u8) returns (cycles: nat)
      requires bus.Valid() && T.IsShortNops(op)
      modifies this, bus
      ensures bus.Valid() && Performs(op, old(M(bus)), M(bus), cycles)
    {
      hide I.Decode, S.Read1, S.Write1, I.Fetch, I.Fetch16, I.EffectiveAddress, I.ReadPointer;
      hide I.Push, I.Pull, I.Crosses, I.ModifyAt, I.Exec, I.Cycles, I.Operand;
      ImpliedRule(M(bus));
      LoadRule(I.NOP, M(bus));
      T.ShortNops();
      match op
      case 0x1A | 0x3A | 0x5A | 0x7A | 0xDA | 0xFA => ImpliedDummyRead(bus); cycles := 2;
      case 0x80 | 0x82 | 0x89 | 0xC2 | 0xE2 => var _ := FetchPc(bus); cycles := 2;
      case _ => assert false;
    }

    method MemoryNops(bus: CpuView, op: u8) returns (cycles: nat)
      requires bus.Valid() && T.IsMemoryNops(op)
      modifies this, bus
      ensures bus.Valid() && Performs(op, old(M(bus)), M(bus), cycles)
    {
      hide I.Decode, S.Read1, S.Write1, I.Fetch, I.Fetch16, I.EffectiveAddress, I.ReadPointer;
      hide I.Push, I.Pull, I.Crosses, I.ModifyAt, I.Exec, I.Cycles, I.Operand, M, R;
      LoadRule(I.NOP, M(bus));
      T.MemoryNops();
      match op
      case 0x04 | 0x44 | 0x64 => var o := AddrZp(bus); var _ := Read1(bus, o); cycles := 3;
      case 0x14 | 0x34 | 0x54 | 0x74 | 0xD4 | 0xF4 => var o := AddrZpX(bus); var _ := Read1(bus, o); cycles := 4;
      case 0x0C => var o := AddrAbs(bus); var _ := Read1(bus, o); cycles := 4;
      case 0x1C | 0x3C | 0x5C | 0x7C | 0xDC | 0xFC =>
        var o, crossed := AddrAbsX(bus);
        var _ := Read1(bus, o);
        cycles := 4 + Bit(crossed);
      case _ => assert false;
    }

    method LoadsAX(bus: CpuView, op: u8) returns (cycles: nat)
      requires bus.Valid() && T.IsLoadsAX(op)
      modifies this, bus
      ensures bus.Valid() && Performs(op, old(M(bus)), M(bus), cycles)
    {
      hide I.Decode, S.Read1, S.Write1, I.Fetch, I.Fetch16, I.EffectiveAddress, I.ReadPointer;
      hide I.Push, I.Pull, I.Crosses, I.ModifyAt, I.Exec, I.Cycles, I.Operand;
      hide R, I.LoadEffect;
      LoadRule(I.LAX, M(bus));
      T.LoadsAX();
      match op
      case 0xA7 => var o := AddrZp(bus); var v := Read1(bus, o); Lax(v); cycles := 3;
      case 0xB7 => var o := AddrZpY(bus); var v := Read1(bus, o); Lax(v); cycles := 4;
      case 0xAF => var o := AddrAbs(bus); var v := Read1(bus, o); Lax(v); cycles := 4;
      case _ => assert false;
    }

    method LoadsAXIndexed(bus: CpuView, op: u8) returns (cycles: nat)
      requires bus.Valid() && T.IsLoadsAXIndexed(op)
      modifies this, bus
      ensures bus.Valid() && Performs(op, old(M(bus)), M(bus), cycles)
    {
      hide I.Decode, S.Read1, S.Write1, I.Fetch, I.Fetch16, I.EffectiveAddress, I.ReadPointer;
      hide I.Push, I.Pull, I.Crosses, I.ModifyAt, I.Exec, I.Cycles, I.Operand;
      hide R, I.LoadEffect;
      LoadRule(I.LAX, M(bus));
      T.LoadsAXIndexed();
      match op
      case 0xBF => var o, crossed := AddrAbsY(bus); var v := Read1(bus, o); Lax(v); cycles := 4 + Bit(crossed);
      case 0xA3 => var o := AddrIndX(bus); var v := Read1(bus, o); Lax(v); cycles := 6;
      case 0xB3 => var o, crossed := AddrIndY(bus); var v := Read1(bus, o); Lax(v); cycles := 5 + Bit(crossed);
      case _ => assert false;
    }

    method LoadsLXA(bus: CpuView, op: u8) returns (cycles: nat)
      requires bus.Valid() && T.IsLoadsLXA(op)
      modifies this, bus
      ensures bus.Valid() && Performs(op, old(M(bus)), M(bus), cycles)
    {
      hide I.Decode, S.Read1, S.Write1, I.Fetch, I.Fetch16, I.EffectiveAddress, I.ReadPointer;
      hide I.Push, I.Pull, I.Crosses, I.ModifyAt, Alu.And8, Alu.Or8, I.Exec, I.Cycles, I.Operand;
      LoadRule(I.LXA, M(bus));
      T.LoadsLXA();
      match op
      case 0xAB =>
        var v := FetchPc(bus);
        var r := Alu.And8(Alu.Or8(a, Alu.UNSTABLE), v);
        a := r;
        x := r;
        p := p.SetNZ(r);
        cycles := 2;
      case _ => assert false;
    }

    method StoresAX(bus: CpuView, op: u8) returns (cycles: nat)
      requires bus.Valid() && T.IsStoresAX(op)
      modifies this, bus
      ensures bus.Valid() && Performs(op, old(M(bus)), M(bus), cycles)
    {
      hide I.Decode, S.Read1, S.Write1, I.Fetch, I.Fetch16, I.EffectiveAddress, I.ReadPointer;
      hide I.Push, I.Pull, I.Crosses, I.ModifyAt, Alu.And8;
      T.StoresAX();
      match op
      case 0x87 => var o := AddrZp(bus); Write1(bus, o, Alu.And8(a, x)); cycles := 3;
      case 0x97 => var o := AddrZpY(bus); Write1(bus, o, Alu.And8(a, x)); cycles := 4;
      case 0x8F => var o := AddrAbs(bus); Write1(bus, o, Alu.And8(a, x)); cycles := 4;
      case 0x83 => var o := AddrIndX(bus); Write1(bus, o, Alu.And8(a, x)); cycles := 6;
      case _ => assert false;
    }

    method DcpOps(bus: CpuView, op: u8) returns (cycles: nat)
      requires bus.Valid() && T.IsDcpOps(op)
      modifies this, bus
      ensures bus.Valid() && Performs(op, old(M(bus)), M(bus), cycles)
    {
      hide I.Decode, S.Read1, S.Write1, I.Fetch, I.Fetch16, I.EffectiveAddress, I.ReadPointer;
      hide I.Push, I.Pull, I.Crosses, I.ModifyAt, I.Exec, I.Cycles, M, R;
      ModifyRule(I.DCP, M(bus));
      T.DcpOps();
      match op
      case 0xC7 => var o := AddrZp(bus); DcpAddr(bus, o); cycles := 5;
      case 0xD7 => var o := AddrZpX(bus); DcpAddr(bus, o); cycles := 6;
      case 0xCF => var o := AddrAbs(bus); DcpAddr(bus, o); cycles := 6;
      case 0xDF => var addr := AddrAbsXRmw(bus); DcpAddr(bus, addr); cycles := 7;
      case 0xDB => var addr := AddrAbsYRmw(bus); DcpAddr(bus, addr); cycles := 7;
      case 0xC3 => var o := AddrIndX(bus); DcpAddr(bus, o); cycles := 8;
      case 0xD3 => var addr := AddrIndYRmw(bus); DcpAddr(bus, addr); cycles := 8;
      case _ => assert false;
    }

    method IscOps(bus: CpuView, op: u8) returns (cycles: nat)
      requires bus.Valid() && T.IsIscOps(op)
      modifies this, bus
      ensures bus.Valid() && Performs(op, old(M(bus)), M(bus), cycles)
    {
      hide I.Decode, S.Read1, S.Write1, I.Fetch, I.Fetch16, I.EffectiveAddress, I.ReadPointer;
      hide I.Push, I.Pull, I.Crosses, I.ModifyAt, I.Exec, I.Cycles, M, R;
      ModifyRule(I.ISC, M(bus));
      T.IscOps();
      match op
      case 0xE7 => var o := AddrZp(bus); IscAddr(bus, o); cycles := 5;
      case 0xF7 => var o := AddrZpX(bus); IscAddr(bus, o); cycles := 6;
      case 0xEF => var o := AddrAbs(bus); IscAddr(bus, o); cycles := 6;
      case 0xFF => var addr := AddrAbsXRmw(bus); IscAddr(bus, addr); cycles := 7;
      case 0xFB => var addr := AddrAbsYRmw(bus); IscAddr(bus, addr); cycles := 7;
      case 0xE3 => var o := AddrIndX(bus); IscAddr(bus, o); cycles := 8;
      case 0xF3 => var addr := AddrIndYRmw(bus); IscAddr(bus, addr); cycles := 8;
      case _ => assert false;
    }

    method SloOps(bus: CpuView, op: u8) returns (cycles: nat)
      requires bus.Valid() && T.IsSloOps(op)
      modifies this, bus
      ensures bus.Valid() && Performs(op, old(M(bus)), M(bus), cycles)
    {
      hide I.Decode, S.Read1, S.Write1, I.Fetch, I.Fetch16, I.EffectiveAddress, I.ReadPointer;
      hide I.Push, I.Pull, I.Crosses, I.ModifyAt, I.Exec, I.Cycles, M, R;
      ModifyRule(I.SLO, M(bus));
      T.SloOps();
      match op
      case 0x07 => var o := AddrZp(bus); SloAddr(bus, o); cycles := 5;
      case 0x17 => var o := AddrZpX(bus); SloAddr(bus, o); cycles := 6;
      case 0x0F => var o := AddrAbs(bus); SloAddr(bus, o); cycles := 6;
      case 0x1F => var addr := AddrAbsXRmw(bus); SloAddr(bus, addr); cycles := 7;
      case 0x1B => var addr := AddrAbsYRmw(bus); SloAddr(bus, addr); cycles := 7;
      case 0x03 => var o := AddrIndX(bus); SloAddr(bus, o); cycles := 8;
      case 0x13 => var addr := AddrIndYRmw(bus); SloAddr(bus, addr); cycles := 8;
      case _ => assert false;
    }

    method RlaOps(bus: CpuView, op: u8) returns (cycles: nat)
      requires bus.Valid() && T.IsRlaOps(op)
      modifies this, bus
      ensures bus.Valid() && Performs(op, old(M(bus)), M(bus), cycles)
    {
      hide I.Decode, S.Read1, S.Write1, I.Fetch, I.Fetch16, I.EffectiveAddress, I.ReadPointer;
      hide I.Push, I.Pull, I.Crosses, I.ModifyAt, I.Exec, I.Cycles, M, R;
      ModifyRule(I.RLA, M(bus));
      T.RlaOps();
      match op
      case 0x27 => var o := AddrZp(bus); RlaAddr(bus, o); cycles := 5;
      case 0x37 => var o := AddrZpX(bus); RlaAddr(bus, o); cycles := 6;
      case 0x2F => var o := AddrAbs(bus); RlaAddr(bus, o); cycles := 6;
      case 0x3F => var addr := AddrAbsXRmw(bus); RlaAddr(bus, addr); cycles := 7;
      case 0x3B => var addr := AddrAbsYRmw(bus); RlaAddr(bus, addr); cycles := 7;
      case 0x23 => var o := AddrIndX(bus); RlaAddr(bus, o); cycles := 8;
      case 0x33 => var addr := AddrIndYRmw(bus); RlaAddr(bus, addr); cycles := 8;
      case _ => assert false;
    }

    method SreOps(bus: CpuView, op: u8) returns (cycles: nat)
      requires bus.Valid() && T.IsSreOps(op)
      modifies this, bus
      ensures bus.Valid() && Performs(op, old(M(bus)), M(bus), cycles)
    {
      hide I.Decode, S.Read1, S.Write1, I.Fetch, I.Fetch16, I.EffectiveAddress, I.ReadPointer;
      hide I.Push, I.Pull, I.Crosses, I.ModifyAt, I.Exec, I.Cycles, M, R;
      ModifyRule(I.SRE, M(bus));
      T.SreOps();
      match op
      case 0x47 => var o := AddrZp(bus); SreAddr(bus, o); cycles := 5;
      case 0x57 => var o := AddrZpX(bus); SreAddr(bus, o); cycles := 6;
      case 0x4F => var o := AddrAbs(bus); SreAddr(bus, o); cycles := 6;
      case 0x5F => var addr := AddrAbsXRmw(bus); SreAddr(bus, addr); cycles := 7;
      case 0x5B => var addr := AddrAbsYRmw(bus); SreAddr(bus, addr); cycles := 7;
      case 0x43 => var o := AddrIndX(bus); SreAddr(bus, o); cycles := 8;
      case 0x53 => var addr := AddrIndYRmw(bus); SreAddr(bus, addr); cycles := 8;
      case _ => assert false;
    }

    method RraOps(bus: CpuView, op: u8) returns (cycles: nat)
      requires bus.Valid() && T.IsRraOps(op)
      modifies this, bus
      ensures bus.Valid() && Performs(op, old(M(bus)), M(bus), cycles)
    {
      hide I.Decode, S.Read1, S.Write1, I.Fetch, I.Fetch16, I.EffectiveAddress, I.ReadPointer;
      hide I.Push, I.Pull, I.Crosses, I.ModifyAt, I.Exec, I.Cycles, M, R;
      ModifyRule(I.RRA, M(bus));
      T.RraOps();
      match op
      case 0x67 => var o := AddrZp(bus); RraAddr(bus, o); cycles := 5;
      case 0x77 => var o := AddrZpX(bus); RraAddr(bus, o); cycles := 6;
      case 0x6F => var o := AddrAbs(bus); RraAddr(bus, o); cycles := 6;
      case 0x7F => var addr := AddrAbsXRmw(bus); RraAddr(bus, addr); cycles := 7;
      case 0x7B => var addr := AddrAbsYRmw(bus); RraAddr(bus, addr); cycles := 7;
      case 0x63 => var o := AddrIndX(bus); RraAddr(bus, o); cycles := 8;
      case 0x73 => var addr := AddrIndYRmw(bus); RraAddr(bus, addr); cycles := 8;
      case _ => assert false;
    }

    method Ancs(bus: CpuView, op: u8) returns (cycles: nat)
      requires bus.Valid() && T.IsAncs(op)
      modifies this, bus
      ensures bus.Valid() && Performs(op, old(M(bus)), M(bus), cycles)
    {
      hide I.Decode, S.Read1, S.Write1, I.Fetch, I.Fetch16, I.EffectiveAddress, I.ReadPointer;
      hide I.Push, I.Pull, I.Crosses, I.ModifyAt, Alu.And8, I.Exec, I.Cycles, I.Operand;
      LoadRule(I.ANC, M(bus));
      T.Ancs();
      match op
      case 0x0B | 0x2B =>
        var v := FetchPc(bus);
        a := Alu.And8(a, v);
        p := p.SetNZ(a);
        p := p.SetC(Alu.Negative(a));
        cycles := 2;
      case _ => assert false;
    }

    method Alrs(bus: CpuView, op: u8) returns (cycles: nat)
      requires bus.Valid() && T.IsAlrs(op)
      modifies this, bus
      ensures bus.Valid() && Performs(op, old(M(bus)), M(bus), cycles)
    {
      hide I.Decode, S.Read1, S.Write1, I.Fetch, I.Fetch16, I.EffectiveAddress, I.ReadPointer;
      hide I.Push, I.Pull, I.Crosses, I.ModifyAt, Alu.And8, I.Exec, I.Cycles, I.Operand;
      LoadRule(I.ALR, M(bus));
      T.Alrs();
      match op
      case 0x4B =>
        var v := FetchPc(bus);
        a := Alu.And8(a, v);
        var newCarry := a % 2 == 1;
        a := a / 2;
        p := p.SetNZ(a);
        p := p.SetC(newCarry);
        cycles := 2;
      case _ => assert false;
    }

    method Arrs(bus: CpuView, op: u8) returns (cycles: nat)
      requires bus.Valid() && T.IsArrs(op)
      modifies this, bus
      ensures bus.Valid() && Performs(op, old(M(bus)), M(bus), cycles)
    {
      hide I.Decode, S.Read1, S.Write1, I.Fetch, I.Fetch16, I.EffectiveAddress, I.ReadPointer;
      hide I.Push, I.Pull, I.Crosses, I.ModifyAt, Alu.Arr, I.Exec, I.Cycles, I.Operand;
      LoadRule(I.ARR, M(bus));
      T.Arrs();
      match op
      case 0x6B => var v := FetchPc(bus); Arr(v); cycles := 2;
      case _ => assert false;
    }

    method ImmediatesX(bus: CpuView, op: u8) returns (cycles: nat)
      requires bus.Valid() && T.IsImmediatesX(op)
      modifies this, bus
      ensures bus.Valid() && Performs(op, old(M(bus)), M(bus), cycles)
    {
      hide I.Decode, S.Read1, S.Write1, I.Fetch, I.Fetch16, I.EffectiveAddress, I.ReadPointer;
      hide I.Push, I.Pull, I.Crosses, I.ModifyAt, Alu.And8, I.Exec, I.Cycles, I.Operand;
      LoadRule(I.AXS, M(bus));
      T.ImmediatesX();
      match op
      case 0xCB =>
        var v := FetchPc(bus);
        var ax := Alu.And8(a, x);
        var res := Sub8(ax, v);
        x := res;
        p := p.SetC(ax >= v);
        p := p.SetNZ(x);
        cycles := 2;
      case _ => assert false;
    }

    method Xaas(bus: CpuView, op: u8) returns (cycles: nat)
      requires bus.Valid() && T.IsXaas(op)
      modifies this, bus
      ensures bus.Valid() && Performs(op, old(M(bus)), M(bus), cycles)
    {
      hide I.Decode, S.Read1, S.Write1, I.Fetch, I.Fetch16, I.EffectiveAddress, I.ReadPointer;
      hide I.Push, I.Pull, I.Crosses, I.ModifyAt, Alu.And8, Alu.Or8, I.Exec, I.Cycles, I.Operand;
      LoadRule(I.XAA, M(bus));
      T.Xaas();
      match op
      case 0x8B =>
        var v := FetchPc(bus);
        a := Alu.And8(Alu.And8(Alu.Or8(a, Alu.UNSTABLE), x), v);
        p := p.SetNZ(a);
        cycles := 2;
      case _ => assert false;
    }

    method Lass(bus: CpuView, op: u8) returns (cycles: nat)
      requires bus.Valid() && T.IsLass(op)
      modifies this, bus
      ensures bus.Valid() && Performs(op, old(M(bus)), M(bus), cycles)
    {
      hide I.Decode, S.Read1, S.Write1, I.Fetch, I.Fetch16, I.EffectiveAddress, I.ReadPointer;
      hide I.Push, I.Pull, I.Crosses, I.ModifyAt, Alu.And8, I.Exec, I.Cycles, I.Operand;
      LoadRule(I.LAS, M(bus));
      T.Lass();
      match op
      case 0xBB =>
        var o, crossed := AddrAbsY(bus);
        var v := Read1(bus, o);
        var r := Alu.And8(s, v);
        a := r;
        x := r;
        s := r;
        p := p.SetNZ(r);
        cycles := 4 + Bit(crossed);
      case _ => assert false;
    }

    method UnstableStores(bus: CpuView, op: u8) returns (cycles: nat)
      requires bus.Valid() && T.IsUnstableStores(op)
      modifies this, bus
      ensures bus.Valid() && Performs(op, old(M(bus)), M(bus), cycles)
    {
      hide I.Decode, S.Read1, S.Write1, I.Fetch, I.Fetch16, I.EffectiveAddress, I.ReadPointer;
      hide I.Push, I.Pull, I.Crosses, I.ModifyAt, I.HighStoreAt, Alu.And8, Alu.Or8, Word, Sum8, Sub8, I.Exec, I.Cycles;
      HighStoreRule(I.TAS, M(bus));
      HighStoreRule(I.SHA, M(bus));
      T.UnstableStores();
      match op
      case 0x9B => var base := FetchPcU16(bus); s := Alu.And8(a, x); ShStore(bus, base, y, s); cycles := 5;
      case 0x9F => var base := FetchPcU16(bus); ShStore(bus, base, y, Alu.And8(a, x)); cycles := 5;
      case 0x93 =>
        var zp := FetchPc(bus);
        ZeroPagePointer(M(bus), zp);
        var lo := Read1(bus, zp);
        var hi := Read1(bus, Sum8(zp, 1));
        ShStore(bus, Word(lo, hi), y, Alu.And8(a, x));
        cycles := 6;
      case _ => assert false;
    }

    method UnstableIndexStores(bus: CpuView, op: u8) returns (cycles: nat)
      requires bus.Valid() && T.IsUnstableIndexStores(op)
      modifies this, bus
      ensures bus.Valid() && Performs(op, old(M(bus)), M(bus), cycles)
    {
      hide I.Decode, S.Read1, S.Write1, I.Fetch, I.Fetch16, I.EffectiveAddress, I.ReadPointer;
      hide I.Push, I.Pull, I.Crosses, I.ModifyAt, I.HighStoreAt, Alu.And8, Alu.Or8, Word, Sum8, Sub8;
      T.UnstableIndexStores();
      match op
      case 0x9E => var base := FetchPcU16(bus); ShStore(bus, base, y, x); cycles := 5;
      case 0x9C => var base := FetchPcU16(bus); ShStore(bus, base, x, y); cycles := 5;
      case _ => assert false;
    }

    method Jams(bus: CpuView, op: u8) returns (cycles: nat)
      requires bus.Valid() && T.IsJams(op)
      modifies this, bus
      ensures bus.Valid() && Performs(op, old(M(bus)), M(bus), cycles)
    {
      hide I.Decode, S.Read1, S.Write1, I.Fetch, I.Fetch16, I.EffectiveAddress, I.ReadPointer;
      hide I.Push, I.Pull, I.Crosses, I.ModifyAt, I.ExecJam;
      T.Jams();
      match op
      case 0x02 | 0x12 | 0x22 | 0x32 | 0x42 | 0x52 | 0x62 | 0x72 | 0x92 | 0xB2 | 0xD2 | 0xF2 =>
        JamUp(bus);
        cycles := 11;
      case _ => assert false;
    }

    method Dispatch(bus: CpuView, op: u8) returns (cycles: nat)
      requires bus.Valid()
      modifies this, bus
      ensures bus.Valid() && Performs(op, old(M(bus)), M(bus), cycles)
    {
      hide Performs;
      if T.IsLoadsA(op) {
        cycles := LoadsA(bus, op);
      } else if T.IsLoadsX(op) {
        cycles := LoadsX(bus, op);
      } else if T.IsLoadsY(op) {
        cycles := LoadsY(bus, op);
      } else if T.IsStoresA(op) {
        cycles := StoresA(bus, op);
      } else if T.IsStoresAIndexed(op) {
        cycles := StoresAIndexed(bus, op);
      } else if T.IsStoresXY(op) {
        cycles := StoresXY(bus, op);
      } else if T.IsTransfers(op) {
        cycles := Transfers(bus, op);
      } else if T.IsStackOps(op) {
        cycles := StackOps(bus, op);
      } else if T.IsAnds(op) {
        cycles := Ands(bus, op);
      } else if T.IsOrs(op) {
        cycles := Ors(bus, op);
      } else if T.IsXors(op) {
        cycles := Xors(bus, op);
      } else if T.IsBits(op) {
        cycles := Bits(bus, op);
      } else if T.IsAdditions(op) {
        cycles := Additions(bus, op);
      } else if T.IsSubtractions(op) {
        cycles := Subtractions(bus, op);
      } else if T.IsComparesA(op) {
        cycles := ComparesA(bus, op);
      } else if T.IsComparesX(op) {
        cycles := ComparesX(bus, op);
      } else if T.IsComparesY(op) {
        cycles := ComparesY(bus, op);
      } else if T.IsMemoryCounts(op) {
        cycles := MemoryCounts(bus, op);
      } else if T.IsRegisterCounts(op) {
        cycles := RegisterCounts(bus, op);
      } else if T.IsShiftsLeft(op) {
        cycles := ShiftsLeft(bus, op);
      } else if T.IsShiftsRight(op) {
        cycles := ShiftsRight(bus, op);
      } else if T.IsRotatesLeft(op) {
        cycles := RotatesLeft(bus, op);
      } else if T.IsRotatesRight(op) {
        cycles := RotatesRight(bus, op);
      } else if T.IsBranches(op) {
        cycles := Branches(bus, op);
      } else if T.IsJumps(op) {
        cycles := Jumps(bus, op);
      } else if T.IsReturns(op) {
        cycles := Returns(bus, op);
      } else if T.IsFlagsCI(op) {
        cycles := FlagsCI(bus, op);
      } else if T.IsFlagsVD(op) {
        cycles := FlagsVD(bus, op);
      } else if T.IsShortNops(op) {
        cycles := ShortNops(bus, op);
      } else if T.IsMemoryNops(op) {
        cycles := MemoryNops(bus, op);
      } else if T.IsLoadsAX(op) {
        cycles := LoadsAX(bus, op);
      } else if T.IsLoadsAXIndexed(op) {
        cycles := LoadsAXIndexed(bus, op);
      } else if T.IsLoadsLXA(op) {
        cycles := LoadsLXA(bus, op);
      } else if T.IsStoresAX(op) {
        cycles := StoresAX(bus, op);
      } else if T.IsDcpOps(op) {
        cycles := DcpOps(bus, op);
      } else if T.IsIscOps(op) {
        cycles := IscOps(bus, op);
      } else if T.IsSloOps(op) {
        cycles := SloOps(bus, op);
      } else if T.IsRlaOps(op) {
        cycles := RlaOps(bus, op);
      } else if T.IsSreOps(op) {
        cycles := SreOps(bus, op);
      } else if T.IsRraOps(op) {
        cycles := RraOps(bus, op);
      } else if T.IsAncs(op) {
        cycles := Ancs(bus, op);
      } else if T.IsAlrs(op) {
        cycles := Alrs(bus, op);
      } else if T.IsArrs(op) {
        cycles := Arrs(bus, op);
      } else if T.IsImmediatesX(op) {
        cycles := ImmediatesX(bus, op);
      } else if T.IsXaas(op) {
        cycles := Xaas(bus, op);
      } else if T.IsLass(op) {
        cycles := Lass(bus, op);
      } else if T.IsUnstableStores(op) {
        cycles := UnstableStores(bus, op);
      } else if T.IsUnstableIndexStores(op) {
        cycles := UnstableIndexStores(bus, op);
      } else {
        T.EveryOpcodeIsListed(op);
        cycles := Jams(bus, op);
      }
    }

    /** One instruction; the loop would make up cycles a table entry left unspent. */
    method Step(bus: CpuView) returns (cycles: nat)
      requires bus.Valid()
      modifies this, bus
      ensures bus.Valid() && (M(bus), cycles) == I.Step(old(M(bus)))
    {
      hide I.Fetch, S.IdleTick, I.Exec, I.Cycles, I.Decode;
      if jammed {
        return 0;
      }
      cyclesEmitted := 0;
      var opcode := FetchPc(bus);
      ghost var m := M(bus);
      cycles := Dispatch(bus, opcode);
      I.CyclesBound(I.Decode(opcode), m);
      ghost var done := M(bus);
      while cyclesEmitted < cycles
        invariant bus.Valid()
        invariant I.Pad(M(bus), cycles) == I.Pad(done, cycles)
        decreases cycles - cyclesEmitted
      {
        IdleTickEmits(M(bus));
        IdleTick(bus);
      }
    }

    method Reset(bus: CpuView)
      requires bus.Valid()
      modifies this, bus
      ensures bus.Valid() && M(bus) == I.Reset(old(M(bus)))
    {
      hide S.Read1, S.IdleTick;
      s := Sub8(s, 3);
      p := p.SetI(true);
      jammed := false;
      cyclesEmitted := 0;
      ghost var m := M(bus);
      for i := 0 to 6
        invariant bus.Valid() && M(bus) == I.IdleTimes(m, i)
      {
        IdleTick(bus);
      }
      var lo := Read1(bus, I.RESET_VECTOR);
      var hi := Read1(bus, I.RESET_VECTOR + 1);
      pc := Word(lo, hi);
    }
  }
}
