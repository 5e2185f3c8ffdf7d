/** The master clock: power-on phase, resets and instructions, and the exact time they add up to. */
module Scheduler {
  import opened Words
  import opened StatusRegister
  import opened SystemState
  import opened InstructionSet
  import opened CycleExactness
  import Cpu6507
  import DelayedWrite
  import SchedulerBus
  import Seeding
  import Supercharger

  /** One color clock of the TIA with no CPU involvement. */
  function LoneColorClock(w: World): World
  {
    w.(beam := ColorClock(w.beam), colorClocks := Wrap64(w.colorClocks + 1), extra := w.extra + 1)
  }

  function LoneColorClocks(w: World, k: nat): World
  {
    if k == 0 then w else LoneColorClock(LoneColorClocks(w, k - 1))
  }

  const DIVISOR: nat := 3

  /** The power-on phase a seed selects. */
  function Phase(seed: u64): (r: nat)
    ensures r < DIVISOR
  {
    seed % DIVISOR
  }

  datatype Event = ResetSwitch | Instruction | ColorClockAlone

  /** An event on the whole system: the machine after it and the cycles an instruction returned. */
  function Happen(phase: nat, e: Event, m: Machine): (Machine, nat)
  {
    match e
    case ResetSwitch => (Reset(m.(w := LoneColorClocks(m.w, phase))), 0)
    case Instruction => Step(m)
    case ColorClockAlone => (m.(w := LoneColorClock(m.w)), 0)
  }

  function Run(phase: nat, es: seq<Event>, m: Machine): (Machine, nat)
  {
    if es == [] then (m, 0) else
    var (n, c) := Run(phase, es[..|es| - 1], m);
    var (o, d) := Happen(phase, es[|es| - 1], n);
    (o, c + d)
  }

  function Count(es: seq<Event>, e: Event): nat
  {
    if es == [] then 0 else Count(es[..|es| - 1], e) + Bit(es[|es| - 1] == e)
  }

  // ---- Exact time over whole runs ----

  /** Time and history from m to n: `cpu` unstalled cycles, `accesses` on the bus, `alone` lone color clocks. */
  ghost predicate Elapsed(m: Machine, n: Machine, cpu: nat, accesses: nat, alone: nat)
  {
    && TimeOk(n)
    && n.w.ticks - n.w.stalls == m.w.ticks - m.w.stalls + cpu
    && m.w.stalls <= n.w.stalls <= m.w.stalls + 76 * cpu
    && m.w.log <= n.w.log && |n.w.log| == |m.w.log| + accesses
    && n.w.extra == m.w.extra + alone
    && n.w.data == m.w.data
  }

  lemma ElapsedThen(a: Machine, b: Machine, c: Machine, cpu: nat, acc: nat, alone: nat,
                    cpu': nat, acc': nat, alone': nat)
    requires Elapsed(a, b, cpu, acc, alone) && Elapsed(b, c, cpu', acc', alone')
    ensures Elapsed(a, c, cpu + cpu', acc + acc', alone + alone')
  {
    hide TimeOk;
  }

  lemma LoneClockElapses(m: Machine)
    requires TimeOk(m)
    ensures Elapsed(m, m.(w := LoneColorClock(m.w)), 0, 0, 1)
  {
    Shown64Steps(m.w.extra + 3 * m.w.ticks, 1);
  }

  lemma NothingElapsed(m: Machine)
    requires TimeOk(m)
    ensures Elapsed(m, m, 0, 0, 0)
  {
  }

  lemma {:induction false} LoneClocksElapse(m: Machine, k: nat)
    requires TimeOk(m)
    ensures Elapsed(m, m.(w := LoneColorClocks(m.w, k)), 0, 0, k)
  {
    hide Elapsed, TimeOk, LoneColorClock;
    if k == 0 {
      NothingElapsed(m);
    } else {
      LoneClocksElapse(m, k - 1);
      var n := m.(w := LoneColorClocks(m.w, k - 1));
      ElapsedIsTimed(m, n, 0, 0, k - 1);
      LoneClockElapses(n);
      ElapsedThen(m, n, n.(w := LoneColorClock(n.w)), 0, 0, k - 1, 0, 0, 1);
    }
  }

  lemma ElapsedIsTimed(m: Machine, n: Machine, cpu: nat, acc: nat, alone: nat)
    requires Elapsed(m, n, cpu, acc, alone)
    ensures TimeOk(n)
  {
  }

  lemma IdleElapses(m: Machine)
    requires TimeOk(m)
    ensures Elapsed(m, IdleTick(m), 1, 0, 0)
  {
    hide IdleTick, TimeOk;
    IdleTickWaits(m);
  }

  lemma {:induction false} IdleTimesElapse(m: Machine, k: nat)
    requires TimeOk(m)
    ensures Elapsed(m, IdleTimes(m, k), k, 0, 0)
  {
    hide Elapsed, TimeOk, IdleTick;
    if k == 0 {
      NothingElapsed(m);
    } else {
      IdleTimesElapse(m, k - 1);
      var n := IdleTimes(m, k - 1);
      ElapsedIsTimed(m, n, k - 1, 0, 0);
      IdleElapses(n);
      ElapsedThen(m, n, IdleTick(n), k - 1, 0, 0, 1, 0, 0);
    }
  }

  lemma ReadElapses(m: Machine, addr: u16)
    requires TimeOk(m)
    ensures Elapsed(m, Read1(m, addr).0, 1, 1, 0)
  {
    hide Read1, TimeOk;
    ReadTakesOne(m, addr);
  }

  /** Registers outside the cycle counter carry no time. */
  lemma RegsElapseNothing(m: Machine, n: Machine, cpu: nat, acc: nat, r: Regs)
    requires Elapsed(m, n, cpu, acc, 0) && r.cycles == n.r.cycles
    ensures Elapsed(m, n.(r := r), cpu, acc, 0)
  {
  }

  /** A reset takes eight cycles, the last two of which read the vector. */
  lemma ResetElapses(m: Machine)
    requires TimeOk(m)
    ensures Elapsed(m, Reset(m), 8, 2, 0)
  {
    hide Elapsed, TimeOk, Read1, IdleTimes;
    var r := m.r.(s := Sub8(m.r.s, 3), p := m.r.p.(i := true), jammed := false, emitted := 0);
    NothingElapsed(m);
    RegsElapseNothing(m, m, 0, 0, r);
    var m0 := m.(r := r);
    ElapsedIsTimed(m, m0, 0, 0, 0);
    IdleTimesElapse(m0, 6);
    var m1 := IdleTimes(m0, 6);
    ElapsedIsTimed(m0, m1, 6, 0, 0);
    ReadElapses(m1, RESET_VECTOR);
    var (m2, lo) := Read1(m1, RESET_VECTOR);
    ElapsedIsTimed(m1, m2, 1, 1, 0);
    ReadElapses(m2, RESET_VECTOR + 1);
    var (m3, hi) := Read1(m2, RESET_VECTOR + 1);
    ElapsedThen(m, m0, m1, 0, 0, 0, 6, 0, 0);
    ElapsedThen(m, m1, m2, 6, 0, 0, 1, 1, 0);
    ElapsedThen(m, m2, m3, 7, 1, 0, 1, 1, 0);
    RegsElapseNothing(m, m3, 8, 2, m3.r.(pc := Word(lo, hi)));
  }

  lemma StepElapses(m: Machine)
    requires TimeOk(m)
    ensures Elapsed(m, Step(m).0, Step(m).1, Step(m).1, 0)
  {
    hide TimeOk, Exec, Decode, Cycles, Fetch, Pad;
    if m.r.jammed {
      NothingElapsed(m);
    } else {
      StepIsCycleExact(m);
    }
  }

  function ResetCycles(e: Event): nat { 8 * Bit(e == ResetSwitch) }

  function ResetReads(e: Event): nat { 2 * Bit(e == ResetSwitch) }

  function Alone(phase: nat, e: Event): nat
  {
    match e case ResetSwitch => phase case Instruction => 0 case ColorClockAlone => 1
  }

  lemma HappenElapses(phase: nat, e: Event, m: Machine)
    requires TimeOk(m)
    ensures var (n, c) := Happen(phase, e, m);
      Elapsed(m, n, ResetCycles(e) + c, ResetReads(e) + c, Alone(phase, e))
  {
    hide Elapsed, TimeOk, Step, Reset, LoneColorClock, LoneColorClocks;
    match e
    case ResetSwitch =>
      LoneClocksElapse(m, phase);
      var n := m.(w := LoneColorClocks(m.w, phase));
      ElapsedIsTimed(m, n, 0, 0, phase);
      ResetElapses(n);
      ElapsedThen(m, n, Reset(n), 0, 0, phase, 8, 2, 0);
    case Instruction => StepElapses(m);
    case ColorClockAlone => LoneClockElapses(m);
  }

  /**
   Any run of resets, instructions and lone color clocks: CPU time is eight cycles a reset plus the
   counts the instructions returned, stalls excluded; each such cycle but six of every reset made
   one bus access; and stalls cost at most 76 ticks a cycle.
   */
  lemma {:induction false} RunElapses(phase: nat, es: seq<Event>, m: Machine)
    requires TimeOk(m)
    ensures var (n, total) := Run(phase, es, m);
      Elapsed(m, n, 8 * Count(es, ResetSwitch) + total, 2 * Count(es, ResetSwitch) + total,
              phase * Count(es, ResetSwitch) + Count(es, ColorClockAlone))
  {
    hide Elapsed, TimeOk, Happen;
    if es == [] {
      NothingElapsed(m);
    } else {
      var before, e := es[..|es| - 1], es[|es| - 1];
      RunElapses(phase, before, m);
      var (n, c) := Run(phase, before, m);
      var resets, clocks := Count(before, ResetSwitch), Count(before, ColorClockAlone);
      ElapsedIsTimed(m, n, 8 * resets + c, 2 * resets + c, phase * resets + clocks);
      HappenElapses(phase, e, n);
      var (o, d) := Happen(phase, e, n);
      ElapsedThen(m, n, o, 8 * resets + c, 2 * resets + c, phase * resets + clocks,
                  ResetCycles(e) + d, ResetReads(e) + d, Alone(phase, e));
      PhaseTimes(phase, resets, Bit(e == ResetSwitch));
    }
  }

  lemma PhaseTimes(phase: nat, resets: nat, more: nat)
    requires more <= 1
    ensures phase * (resets + more) == phase * resets + (if more == 1 then phase else 0)
  {
  }

  /** A machine no time has passed for. */
  ghost predicate PowerOn(m: Machine)
  {
    && m.w.beam == Beam(0, false) && m.w.colorClocks == 0
    && m.w.log == [] && m.w.ticks == 0 && m.w.stalls == 0 && m.w.extra == 0
    && m.r.cycles == 0
  }

  /** The lockstep, from power-on: clocks and cycles are determined by ticks and stalls, wrap-around included. */
  lemma Lockstep(seed: u64, es: seq<Event>, m: Machine)
    requires PowerOn(m)
    ensures var (n, total) := Run(Phase(seed), es, m);
      var resets, alone := Count(es, ResetSwitch), Count(es, ColorClockAlone);
      && n.w.colorClocks == (Phase(seed) * resets + alone + 3 * n.w.ticks) % U64
      && n.r.cycles == (8 * resets + total) % U64
      && n.w.ticks - n.w.stalls == 8 * resets + total == |n.w.log| + 6 * resets
      && n.w.stalls <= 76 * (8 * resets + total)
  {
    hide Run, Count, Phase;
    RunElapses(Phase(seed), es, m);
    var (n, total) := Run(Phase(seed), es, m);
    Shown64Is(n.w.extra + 3 * n.w.ticks);
    Shown64Is(n.w.ticks - n.w.stalls);
  }

  /** One reset, then instructions only: the seed's phase is the color clock's residue for as long as
      the counters have not wrapped. */
  lemma PhaseIsKept(seed: u64, k: nat, m: Machine)
    requires PowerOn(m)
    requires var n := Run(Phase(seed), [ResetSwitch] + Instructions(k), m).0; DIVISOR + 3 * n.w.ticks < U64
    ensures var (n, total) := Run(Phase(seed), [ResetSwitch] + Instructions(k), m);
      && n.w.colorClocks == Phase(seed) + 3 * n.w.ticks
      && n.w.colorClocks % 3 == Phase(seed)
      && n.r.cycles == 8 + total == n.w.ticks - n.w.stalls
      && |n.w.log| == 2 + total
  {
    hide Run, Phase;
    CountOneReset(k);
    Lockstep(seed, [ResetSwitch] + Instructions(k), m);
  }

  function Instructions(k: nat): seq<Event> { seq(k, i => Instruction) }

  lemma {:induction false} CountOneReset(k: nat)
    ensures Count([ResetSwitch] + Instructions(k), ResetSwitch) == 1
    ensures Count([ResetSwitch] + Instructions(k), ColorClockAlone) == 0
  {
    var es := [ResetSwitch] + Instructions(k);
    if k > 0 {
      CountOneReset(k - 1);
      assert es[..k] == [ResetSwitch] + Instructions(k - 1);
    } else {
      assert es[..0] == [];
    }
  }

  // ---- The WSYNC stall ----

  /** How many ticks a stall lasts when the beam is at this clock. */
  function StallTicks(clock: nat): nat
    requires clock < LINE
  {
    (LINE - clock + 2) / 3
  }

  /** Exact length of a stall: RDY is released in the first three clocks of the next line. */
  lemma {:induction false} StallEndsAtLineStart(w: World)
    requires w.beam.stalled && w.beam.clock < LINE
    ensures var k := StallTicks(w.beam.clock);
      && Spin(w) == w.(beam := Beam(w.beam.clock + 3 * k - LINE, false),
                       colorClocks := Wrap64(w.colorClocks + 3 * k), ticks := w.ticks + k, stalls := w.stalls + k)
      && w.beam.clock + 3 * k - LINE < 3
    decreases LINE - w.beam.clock
  {
    var v := TickCycle(w).(stalls := w.stalls + 1);
    if w.beam.clock + 3 < LINE {
      StallEndsAtLineStart(v);
      AddTwice64(w.colorClocks, 3, 3 * StallTicks(v.beam.clock));
    } else {
      assert !v.beam.stalled && Spin(v) == v;
    }
  }

  lemma AddTwice64(a: u64, b: nat, c: nat)
    requires b + c < U64
    ensures Wrap64(Wrap64(a + b) + c) == Wrap64(a + b + c)
  {
  }

  /** After a `WSYNC` write that armed the stall, the next cycle begins at most two clocks into the
      following line; a write landing on the line boundary costs nothing. */
  lemma NextCycleAfterWsync(m: Machine, value: u8)
    requires TimeOk(m)
    ensures var n := Write1(m, WSYNC, value); var b := IdleTick(n).w.beam;
      && !b.stalled
      && (n.w.beam.stalled <==> n.w.beam.clock != 0)
      && (if n.w.beam.stalled then 3 <= b.clock <= 5 else b.clock == 3)
  {
    hide Wrap64;
    var t := IdleTick(m);
    IdleTickWaits(m);
    var n := Write1(m, WSYNC, value);
    assert !t.w.beam.stalled && t.w.beam.clock < LINE;
    if n.w.beam.stalled {
      StallEndsAtLineStart(n.w);
    }
  }

  // ---- The cartridge's own count ----

  /** The CPU's accesses as the Supercharger's bus sees them. */
  function OnTheBus(log: seq<Access>): seq<Supercharger.Access>
  {
    seq(|log|, k requires 0 <= k < |log| =>
      if log[k].Read? then Supercharger.Read(log[k].addr, log[k].value)
      else Supercharger.Write(log[k].addr, log[k].value))
  }

  /** The count a Supercharger builds from the hooks it gets is the CPU's cycle count but for the six idle cycles of
      each reset, stalls costing it nothing: an instruction of n cycles is n accesses. */
  lemma BoardCountsCycles(seed: u64, es: seq<Event>, m: Machine, l: Supercharger.Latch)
    requires PowerOn(m) && l.count == 0
    ensures var (n, total) := Run(Phase(seed), es, m); var resets := Count(es, ResetSwitch);
      && DelayedWrite.LatchRun(l, OnTheBus(n.w.log)).count == (2 * resets + total) % U32
      && n.r.cycles == (8 * resets + total) % U64
  {
    hide Run, Count, Phase, DelayedWrite.LatchRun;
    Lockstep(seed, es, m);
    DelayedWrite.CounterCountsAccesses(l, OnTheBus(Run(Phase(seed), es, m).0.w.log));
  }

  // ---- The system the front end drives ----

  class System {
    const phase: nat
    const cpu: Cpu6507.Cpu
    const bus: SchedulerBus.CpuView
    const riotRam: array<u8>

    /** Power-on from a seed: RAM, A, X, Y and the phase; `data` is what the bus will answer. */
    constructor (seed: u64, data: nat -> u8)
      ensures Valid() && fresh(cpu) && fresh(bus) && fresh(riotRam) && phase == Phase(seed)
      ensures PowerOn(M()) && M().w.data == data
      ensures riotRam.Length == Seeding.RAM_SIZE
      ensures forall i | 0 <= i < Seeding.CHUNKS :: riotRam[8 * i..8 * i + 8] == Seeding.Chunk(seed, i)
      ensures [M().r.a, M().r.x, M().r.y] == Seeding.Chunk(seed, Seeding.CHUNKS)[..3]
    {
      var ram, a, x, y, p := Seeding.PowerOn(seed);
      riotRam, phase := ram, p;
      var c := new Cpu6507.Cpu();
      c.a, c.x, c.y := a, x, y;
      cpu := c;
      bus := new SchedulerBus.CpuView(data);
    }

    ghost predicate Valid()
      reads bus
    {
      bus.Valid()
    }

    ghost function M(): Machine
      reads cpu, bus
    {
      cpu.M(bus)
    }

    method TickOneColorClock()
      requires Valid()
      modifies bus
      ensures Valid() && M() == Happen(phase, ColorClockAlone, old(M())).0
    {
      bus.TickColorClock();
      bus.colorClocks := Wrap64(bus.colorClocks + 1);
      bus.extra := bus.extra + 1;
    }

    method ResetSystem()
      requires Valid()
      modifies cpu, bus
      ensures Valid() && M() == Happen(phase, ResetSwitch, old(M())).0
    {
      ghost var m := M();
      for i := 0 to phase
        invariant Valid() && M() == m.(w := LoneColorClocks(m.w, i))
      {
        bus.TickColorClock();
        bus.colorClocks := Wrap64(bus.colorClocks + 1);
        bus.extra := bus.extra + 1;
      }
      cpu.Reset(bus);
    }

    method StepInstruction() returns (cycles: nat)
      requires Valid()
      modifies cpu, bus
      ensures Valid() && (M(), cycles) == Happen(phase, Instruction, old(M()))
    {
      cycles := cpu.Step(bus);
    }
  }
}
