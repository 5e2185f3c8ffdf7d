/** The 6507 status register `P`: eight flags and their byte form. */
module StatusRegister {
  import opened Words

  datatype Status = Status(c: bool, z: bool, i: bool, d: bool, b: bool, u: bool, v: bool, n: bool)
  {
    function ToByte(): u8
    {
      Nibble(c, z, i, d) + 16 * Nibble(b, u, v, n)
    }

    function SetC(on: bool): Status { this.(c := on) }

    function SetZ(on: bool): Status { this.(z := on) }

    function SetI(on: bool): Status { this.(i := on) }

    function SetD(on: bool): Status { this.(d := on) }

    function SetV(on: bool): Status { this.(v := on) }

    function SetN(on: bool): Status { this.(n := on) }

    function SetNZ(value: u8): Status
    {
      this.(z := value == 0, n := value >= 0x80)
    }
  }

  const POWER_ON := Status(false, false, true, false, false, true, false, false)

  function Bit(b: bool): nat { if b then 1 else 0 }

  function Nibble(b0: bool, b1: bool, b2: bool, b3: bool): (r: nat)
    ensures r < 16
  {
    Bit(b0) + 2 * Bit(b1) + 4 * Bit(b2) + 8 * Bit(b3)
  }

  /** Bit k of a nibble. */
  predicate BitOf(x: nat, k: nat)
    requires k < 4
  {
    x / [1, 2, 4, 8][k] % 2 == 1
  }

  function FromByte(x: u8): Status
  {
    var lo, hi := x % 16, x / 16;
    Status(BitOf(lo, 0), BitOf(lo, 1), BitOf(lo, 2), BitOf(lo, 3),
           BitOf(hi, 0), BitOf(hi, 1), BitOf(hi, 2), BitOf(hi, 3))
  }

  /** The byte `PLP` and `RTI` pull: BREAK is dropped and UNUSED reads as 1. */
  function Pulled(x: u8): Status
  {
    FromByte(x).(b := false, u := true)
  }

  /** Every status byte survives a push and a pull, but for the two bits a pull forces. */
  lemma StatusSurvivesStack(p: Status)
    ensures Pulled(p.(b := true, u := true).ToByte()) == p.(b := false, u := true)
    ensures FromByte(p.ToByte()) == p
  {
    ByteRoundTrip(p);
    ByteRoundTrip(p.(b := true, u := true));
  }

  lemma ByteRoundTrip(p: Status)
    ensures FromByte(p.ToByte()) == p
  {
    hide BitOf, Nibble;
    var lo, hi := Nibble(p.c, p.z, p.i, p.d), Nibble(p.b, p.u, p.v, p.n);
    NibbleBits(p.c, p.z, p.i, p.d);
    NibbleBits(p.b, p.u, p.v, p.n);
    assert p.ToByte() % 16 == lo && p.ToByte() / 16 == hi;
  }

  lemma NibbleBits(b0: bool, b1: bool, b2: bool, b3: bool)
    ensures var x := Nibble(b0, b1, b2, b3);
      BitOf(x, 0) == b0 && BitOf(x, 1) == b1 && BitOf(x, 2) == b2 && BitOf(x, 3) == b3
  {
  }
}

/** The state the CPU and the scheduler advance together: registers, beam, clocks and bus history. */
module SystemState {
  import opened Bits
  import opened Words
  import opened StatusRegister

  const LINE: nat := 228

  /** TIA beam position within the scanline and the RDY latch `WSYNC` sets. */
  datatype Beam = Beam(clock: u16, stalled: bool)

  datatype Access = Read(addr: u16, value: u8) | Write(addr: u16, value: u8)

  /**
   Everything outside the CPU. `data` is what the bus answers: the value of its k-th access.
   An arbitrary stream stands for an arbitrary cartridge, RIOT and TIA. `log`, `ticks`, `stalls` and
   `extra` record history: accesses, calls of the cycle tick, those made while RDY was held,
   and the color clocks of the power-on phase.
   */
  datatype World = World(
    beam: Beam,
    colorClocks: u64,
    data: nat -> u8,
    log: seq<Access>,
    ticks: nat,
    stalls: nat,
    extra: nat)

  datatype Regs = Regs(a: u8, x: u8, y: u8, s: u8, pc: u16, p: Status, jammed: bool, emitted: u8, cycles: u64)

  datatype Machine = Machine(r: Regs, w: World)

  /** One color clock: the beam wraps at the end of the line and releases RDY. */
  function ColorClock(b: Beam): Beam
  {
    if b.clock + 1 >= LINE then Beam(0, false) else Beam(b.clock + 1, b.stalled)
  }

  /** One CPU cycle of real time: three color clocks. */
  function TickCycle(w: World): World
  {
    w.(beam := ColorClock(ColorClock(ColorClock(w.beam))),
       colorClocks := Wrap64(w.colorClocks + 3),
       ticks := w.ticks + 1)
  }

  /** Ticks while RDY is held; the beam bounds how long that can last. */
  function Spin(w: World): World
    decreases if w.beam.stalled then 1 + Max(0, if w.beam.clock < LINE then LINE - w.beam.clock else 0) else 0
  {
    if !w.beam.stalled then w else Spin(TickCycle(w).(stalls := w.stalls + 1))
  }

  function IdleTick(m: Machine): Machine
  {
    Machine(m.r.(emitted := Min(0xFF, m.r.emitted + 1), cycles := Wrap64(m.r.cycles + 1)),
            TickCycle(Spin(m.w)))
  }

  /** Whether a 16-bit address reaches the TIA: A12 and A7 clear. */
  predicate SelectsTia(addr: u16)
  {
    And(addr, 0x1080) == 0
  }

  const WSYNC: nat := 0x02
  const RSYNC: nat := 0x03

  /** What a write does to the beam: `WSYNC` holds RDY except at the line boundary, `RSYNC` restarts the line. */
  function WriteBeam(b: Beam, addr: u16): Beam
  {
    if !SelectsTia(addr) then b
    else if And(addr, 0x3F) == WSYNC then (if b.clock != 0 then b.(stalled := true) else b)
    else if And(addr, 0x3F) == RSYNC then b.(clock := 0)
    else b
  }

  function BusRead(w: World, addr: u16): World
  {
    w.(log := w.log + [Read(addr, w.data(|w.log|))])
  }

  function BusWrite(w: World, addr: u16, value: u8): World
  {
    w.(log := w.log + [Write(addr, value)], beam := WriteBeam(w.beam, addr))
  }

  /** A read cycle: the machine after it, and the value the bus answered. */
  function Read1(m: Machine, addr: u16): (Machine, u8)
  {
    var t := IdleTick(m);
    (t.(w := BusRead(t.w, addr)), t.w.data(|t.w.log|))
  }

  function Write1(m: Machine, addr: u16, value: u8): Machine
  {
    var t := IdleTick(m);
    t.(w := BusWrite(t.w, addr, value))
  }

  // ---- Exact time ----

  lemma {:induction false} SpinKeepsLog(w: World)
    ensures Spin(w).log == w.log && Spin(w).data == w.data
    decreases if w.beam.stalled then 1 + Max(0, if w.beam.clock < LINE then LINE - w.beam.clock else 0) else 0
  {
    if w.beam.stalled {
      SpinKeepsLog(TickCycle(w).(stalls := w.stalls + 1));
    }
  }

  /** Beam and clock counters agree with the recorded history. */
  ghost predicate TimeOk(m: Machine)
  {
    && m.w.beam.clock < LINE
    && (m.w.beam.stalled ==> m.w.beam.clock > 0)
    && m.w.stalls <= m.w.ticks
    && m.w.colorClocks == Shown64(m.w.extra + 3 * m.w.ticks)
    && m.r.cycles == Shown64(m.w.ticks - m.w.stalls)
  }

  /** How many accesses of a history are writes. */
  function Writes(log: seq<Access>): nat
  {
    if log == [] then 0 else Writes(log[..|log| - 1]) + Bit(log[|log| - 1].Write?)
  }

  /** From m to n in exactly k CPU cycles, each of which is one bus access, w of them writes. */
  ghost predicate Took(m: Machine, n: Machine, k: nat, w: nat)
  {
    && m.w.log <= n.w.log && |n.w.log| == |m.w.log| + k && Writes(n.w.log) == Writes(m.w.log) + w
    && n.w.data == m.w.data
    && (TimeOk(m) ==> Waited(m, n, k))
  }

  /** From m to n in exactly k CPU cycles, whether or not they access the bus. */
  ghost predicate Waited(m: Machine, n: Machine, k: nat)
  {
    && n.w.ticks - n.w.stalls == m.w.ticks - m.w.stalls + k
    && m.w.stalls <= n.w.stalls <= m.w.stalls + 76 * k
    && n.r.emitted == Min(0xFF, m.r.emitted + k)
    && n.w.data == m.w.data && n.w.extra == m.w.extra
    && TimeOk(n)
  }

  lemma {:induction false} SpinEnds(m: Machine)
    requires TimeOk(m)
    ensures var w := Spin(m.w);
      && !w.beam.stalled
      && w.ticks - w.stalls == m.w.ticks - m.w.stalls
      && m.w.stalls <= w.stalls && 3 * (w.stalls - m.w.stalls) <= LINE + 2 - m.w.beam.clock
      && (!m.w.beam.stalled ==> w == m.w)
      && w.log == m.w.log && w.data == m.w.data && w.extra == m.w.extra
      && TimeOk(m.(w := w))
    decreases if m.w.beam.stalled then 1 + LINE - m.w.beam.clock else 0
  {
    if m.w.beam.stalled {
      TickAdvances(m.w);
      var w := TickCycle(m.w).(stalls := m.w.stalls + 1);
      SpinEnds(m.(w := w));
    }
  }

  /** A tick moves the world exactly three color clocks. */
  lemma TickAdvances(w: World)
    requires w.colorClocks == Shown64(w.extra + 3 * w.ticks)
    ensures TickCycle(w).colorClocks == Shown64(w.extra + 3 * (w.ticks + 1))
  {
    Shown64Steps(w.extra + 3 * w.ticks, 3);
  }

  lemma IdleTickWaits(m: Machine)
    requires TimeOk(m)
    ensures Waited(m, IdleTick(m), 1) && IdleTick(m).w.log == m.w.log
    ensures !IdleTick(m).w.beam.stalled
  {
    hide Spin, ColorClock, Wrap64, Shown64;
    SpinEnds(m);
    var w := Spin(m.w);
    TickAdvances(w);
    BeamAdvances(w.beam);
    BeamAdvances(ColorClock(w.beam));
    BeamAdvances(ColorClock(ColorClock(w.beam)));
    Shown64Steps(m.w.ticks - m.w.stalls, 1);
  }

  lemma BeamAdvances(b: Beam)
    requires b.clock < LINE && !b.stalled
    ensures ColorClock(b).clock < LINE && !ColorClock(b).stalled
  {
  }

  lemma IdleKeepsLog(m: Machine)
    ensures IdleTick(m).w.log == m.w.log && IdleTick(m).w.data == m.w.data
    ensures IdleTick(m).r == m.r.(emitted := IdleTick(m).r.emitted, cycles := IdleTick(m).r.cycles)
  {
    SpinKeepsLog(m.w);
  }

  lemma OneMoreAccess(log: seq<Access>, a: Access)
    ensures Writes(log + [a]) == Writes(log) + Bit(a.Write?)
  {
    assert (log + [a])[..|log|] == log;
  }

  lemma ReadTakesOne(m: Machine, addr: u16)
    ensures var (n, v) := Read1(m, addr);
      && Took(m, n, 1, 0) && v == m.w.data(|m.w.log|) && n.w.log == m.w.log + [Read(addr, v)]
      && n.r == m.r.(emitted := n.r.emitted, cycles := n.r.cycles)
  {
    hide IdleTick, TimeOk, Writes;
    IdleKeepsLog(m);
    OneMoreAccess(m.w.log, Read(addr, m.w.data(|m.w.log|)));
    if TimeOk(m) {
      IdleTickWaits(m);
      SameTime(IdleTick(m), Read1(m, addr).0);
    }
  }

  lemma WriteTakesOne(m: Machine, addr: u16, value: u8)
    ensures var n := Write1(m, addr, value);
      && Took(m, n, 1, 1) && n.w.log == m.w.log + [Write(addr, value)]
      && n.r == m.r.(emitted := n.r.emitted, cycles := n.r.cycles)
  {
    hide IdleTick, TimeOk, Writes, WriteBeam;
    IdleKeepsLog(m);
    OneMoreAccess(m.w.log, Write(addr, value));
    if TimeOk(m) {
      IdleTickWaits(m);
      BeamWritten(IdleTick(m), addr, value);
    }
  }

  lemma SameTime(m: Machine, n: Machine)
    requires TimeOk(m) && n == m.(w := m.w.(log := n.w.log))
    ensures TimeOk(n)
  {
  }

  lemma BeamWritten(m: Machine, addr: u16, value: u8)
    requires TimeOk(m) && !m.w.beam.stalled
    ensures TimeOk(m.(w := BusWrite(m.w, addr, value)))
  {
  }

  lemma TookThen(a: Machine, b: Machine, c: Machine, j: nat, v: nat, k: nat, w: nat)
    requires Took(a, b, j, v) && Took(b, c, k, w)
    ensures Took(a, c, j + k, v + w)
  {
    hide TimeOk, Writes;
  }

  /** Changing registers other than the cycle counters takes no time. */
  lemma TookRegs(a: Machine, b: Machine, k: nat, w: nat, r: Regs)
    requires Took(a, b, k, w) && r.emitted == b.r.emitted && r.cycles == b.r.cycles
    ensures Took(a, b.(r := r), k, w)
  {
  }
}
