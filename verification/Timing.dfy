/** Every instruction makes exactly one bus access per cycle of the cycle table. */
module CycleExactness {
  import opened Words
  import opened StatusRegister
  import opened SystemState
  import opened Alu
  import opened InstructionSet

  /** Registers unchanged but for the program counter and the cycle counters. */
  ghost predicate SameButPc(m: Machine, n: Machine)
  {
    n.r == m.r.(pc := n.r.pc, emitted := n.r.emitted, cycles := n.r.cycles)
  }

  lemma ReadStep(m: Machine, addr: u16)
    ensures Took(m, Read1(m, addr).0, 1, 0)
    ensures SameButPc(m, Read1(m, addr).0) && Read1(m, addr).0.r.pc == m.r.pc
    ensures Read1(m, addr).1 == m.w.data(|m.w.log|)
    ensures Read1(m, addr).0.w.data == m.w.data && |Read1(m, addr).0.w.log| == |m.w.log| + 1
  {
    ReadTakesOne(m, addr);
  }

  lemma WriteStep(m: Machine, addr: u16, value: u8)
    ensures Took(m, Write1(m, addr, value), 1, 1)
  {
    WriteTakesOne(m, addr, value);
  }

  lemma FetchStep(m: Machine)
    ensures Took(m, Fetch(m).0, 1, 0) && SameButPc(m, Fetch(m).0)
    ensures Fetch(m).0.r.pc == Sum16(m.r.pc, 1)
    ensures Fetch(m).1 == m.w.data(|m.w.log|)
    ensures Fetch(m).0.w.data == m.w.data && |Fetch(m).0.w.log| == |m.w.log| + 1
  {
    ReadStep(m, m.r.pc);
  }

  lemma Fetch16Step(m: Machine)
    ensures Took(m, Fetch16(m).0, 2, 0) && SameButPc(m, Fetch16(m).0)
    ensures Fetch16(m).1 == Word(m.w.data(|m.w.log|), m.w.data(|m.w.log| + 1))
  {
    hide Fetch, Took;
    FetchStep(m);
    FetchStep(Fetch(m).0);
    TookThen(m, Fetch(m).0, Fetch16(m).0, 1, 0, 1, 0);
  }

  lemma PointerStep(m: Machine, addr: u16)
    ensures Took(m, ReadPointer(m, addr).0, 2, 0)
    ensures SameButPc(m, ReadPointer(m, addr).0)
    ensures ReadPointer(m, addr).1 == Word(m.w.data(|m.w.log|), m.w.data(|m.w.log| + 1))
  {
    hide Read1, Took;
    ReadStep(m, addr);
    var n := Read1(m, addr).0;
    var next := NextInPage(addr);
    ReadStep(n, next);
    TookThen(m, n, Read1(n, next).0, 1, 0, 1, 0);
  }

  lemma ZeroPageStep(m: Machine, index: u8)
    ensures Took(m, ZeroPageIndexed(m, index).0, 2, 0)
    ensures SameButPc(m, ZeroPageIndexed(m, index).0)
  {
    hide Read1, Fetch, Took;
    FetchStep(m);
    var (n, base) := Fetch(m);
    ReadStep(n, base);
    TookThen(m, n, Read1(n, base).0, 1, 0, 1, 0);
  }

  /** Cycles of the indexed step: one if the dummy read is spent. */
  function IndexCycles(base: u16, index: u8, dummy: Dummy): nat
  {
    if dummy.Always? || PageCrossed(base, index) then 1 else 0
  }

  lemma IndexedStep(a: Machine, k: nat, m: Machine, base: u16, index: u8, dummy: Dummy)
    requires Took(a, m, k, 0)
    ensures var n := Indexed(m, base, index, dummy).0;
      Took(a, n, k + IndexCycles(base, index, dummy), 0)
  {
    hide Read1, Took;
    ReadStep(m, Unfixed(base, index));
    TookThen(a, m, Read1(m, Unfixed(base, index)).0, k, 0, 1, 0);
  }

  /** Cycles an addressing mode spends before its operand is accessed. */
  function AddressCycles(mode: Mode, m: Machine, dummy: Dummy): nat
  {
    (match mode
     case Imm => 0 case Zp => 1 case ZpX => 2 case ZpY => 2 case Abs => 2
     case AbsX => 2 case AbsY => 2 case IndX => 4 case IndY => 3)
    + (match mode
       case AbsX => Bit(dummy.Always? || Crosses(mode, m))
       case AbsY => Bit(dummy.Always? || Crosses(mode, m))
       case IndY => Bit(dummy.Always? || Crosses(mode, m))
       case _ => 0)
  }

  lemma AddressStep(m: Machine, mode: Mode, dummy: Dummy)
    ensures var n := EffectiveAddress(m, mode, dummy).0;
      Took(m, n, AddressCycles(mode, m, dummy), 0)
  {
    hide Read1, Fetch, Fetch16, ReadPointer, ZeroPageIndexed, Indexed, PageCrossed, Took, Word;
    match mode
    case Imm => NothingTook(m);
    case Zp => FetchStep(m);
    case ZpX => ZeroPageStep(m, m.r.x);
    case ZpY => ZeroPageStep(m, m.r.y);
    case Abs => Fetch16Step(m);
    case AbsX =>
      Fetch16Step(m);
      IndexedStep(m, 2, Fetch16(m).0, Fetch16(m).1, m.r.x, dummy);
    case AbsY =>
      Fetch16Step(m);
      IndexedStep(m, 2, Fetch16(m).0, Fetch16(m).1, m.r.y, dummy);
    case IndX =>
      ZeroPageStep(m, m.r.x);
      var (n, ptr) := ZeroPageIndexed(m, m.r.x);
      PointerStep(n, ptr);
      TookThen(m, n, ReadPointer(n, ptr).0, 2, 0, 2, 0);
    case IndY =>
      FetchStep(m);
      var (n, ptr) := Fetch(m);
      PointerStep(n, ptr);
      var (o, base) := ReadPointer(n, ptr);
      TookThen(m, n, o, 1, 0, 2, 0);
      IndexedStep(m, 3, o, base, o.r.y, dummy);
  }

  lemma ModifyAfter(a: Machine, m: Machine, k: nat, op: ModifyOp, addr: u16)
    requires Took(a, m, k, 0)
    ensures Took(a, ModifyAt(m, op, addr), k + 3, 2)
  {
    hide Write1, Read1, Took, ModifyEffect;
    ReadAfter(a, m, k, 0, addr);
    var (n1, v) := Read1(m, addr);
    WriteAfter(a, n1, k + 1, 0, addr, v);
    var n2 := Write1(n1, addr, v);
    var x := ModifyEffect(op, n2.r, v).0;
    WriteAfter(a, n2, k + 2, 1, addr, x);
    var n3 := Write1(n2, addr, x);
    EffectsKeepCounters(op, n3.r, v);
    RegsStep(a, n3, k + 3, 2, ModifyEffect(op, n3.r, v).1);
  }

  lemma EffectsKeepCounters(op: ModifyOp, r: Regs, v: u8)
    ensures var q := ModifyEffect(op, r, v).1; q.emitted == r.emitted && q.cycles == r.cycles
  {
    hide Or8, And8, Xor8;
  }

  lemma LoadsKeepCounters(op: LoadOp, r: Regs, v: u8)
    ensures var q := LoadEffect(op, r, v); q.emitted == r.emitted && q.cycles == r.cycles
  {
    hide Or8, And8, Xor8;
  }

  lemma ImpliedKeepsCounters(op: ImpliedOp, r: Regs)
    ensures var q := ImpliedEffect(op, r); q.emitted == r.emitted && q.cycles == r.cycles
  {
  }

  /** A register update after k cycles that leaves the cycle counters alone. */
  lemma RegsStep(a: Machine, m: Machine, k: nat, w: nat, r: Regs)
    requires Took(a, m, k, w) && r.emitted == m.r.emitted && r.cycles == m.r.cycles
    ensures Took(a, m.(r := r), k, w)
  {
    TookRegs(a, m, k, w, r);
  }

  lemma ReadAfter(a: Machine, m: Machine, k: nat, w: nat, addr: u16)
    requires Took(a, m, k, w)
    ensures var n := Read1(m, addr).0; Took(a, n, k + 1, w) && SameButPc(m, n) && n.r.pc == m.r.pc
  {
    ReadStep(m, addr);
    TookThen(a, m, Read1(m, addr).0, k, w, 1, 0);
  }

  lemma WriteAfter(a: Machine, m: Machine, k: nat, w: nat, addr: u16, value: u8)
    requires Took(a, m, k, w)
    ensures var n := Write1(m, addr, value); Took(a, n, k + 1, w + 1)
  {
    WriteStep(m, addr, value);
    TookThen(a, m, Write1(m, addr, value), k, w, 1, 1);
  }

  lemma FetchAfter(a: Machine, m: Machine, k: nat, w: nat)
    requires Took(a, m, k, w)
    ensures var n := Fetch(m).0; Took(a, n, k + 1, w)
  {
    FetchStep(m);
    TookThen(a, m, Fetch(m).0, k, w, 1, 0);
  }

  lemma PushAfter(a: Machine, m: Machine, k: nat, w: nat, value: u8)
    requires Took(a, m, k, w)
    ensures var n := Push(m, value); Took(a, n, k + 1, w + 1)
  {
    hide Write1, Took;
    WriteAfter(a, m, k, w, 0x100 + m.r.s, value);
    var n := Write1(m, 0x100 + m.r.s, value);
    RegsStep(a, n, k + 1, w + 1, n.r.(s := Sub8(n.r.s, 1)));
  }

  lemma PullAfter(a: Machine, m: Machine, k: nat, w: nat)
    requires Took(a, m, k, w)
    ensures var n := Pull(m).0; Took(a, n, k + 1, w)
  {
    hide Read1, Took;
    var q := m.r.(s := Sum8(m.r.s, 1));
    RegsStep(a, m, k, w, q);
    ReadAfter(a, m.(r := q), k, w, 0x100 + q.s);
  }

  lemma NothingTook(m: Machine)
    ensures Took(m, m, 0, 0)
  {
  }

  lemma BeforePullStep(m: Machine)
    ensures Took(m, BeforePull(m), 2, 0)
  {
    hide Read1, Took;
    NothingTook(m);
    ReadAfter(m, m, 0, 0, m.r.pc);
    var n := Read1(m, m.r.pc).0;
    ReadAfter(m, n, 1, 0, 0x100 + n.r.s);
  }

  lemma Pull16After(a: Machine, m: Machine, k: nat, w: nat)
    requires Took(a, m, k, w)
    ensures var n := Pull16(m).0; Took(a, n, k + 2, w)
  {
    hide Pull, Took;
    PullAfter(a, m, k, w);
    PullAfter(a, Pull(m).0, k + 1, w);
  }

  lemma HighBaseStep(m: Machine, mode: Mode)
    requires mode == AbsX || mode == AbsY || mode == IndY
    ensures Took(m, HighStoreBase(m, mode).0, StoreCycles(mode) - 3, 0)
  {
    hide Read1, Fetch, Fetch16, ReadPointer, Took;
    if mode == IndY {
      FetchStep(m);
      var (n, ptr) := Fetch(m);
      PointerStep(n, ptr);
      TookThen(m, n, ReadPointer(n, ptr).0, 1, 0, 2, 0);
    } else {
      Fetch16Step(m);
    }
  }

  lemma HighStoreAfter(a: Machine, m: Machine, k: nat, base: u16, index: u8, value: u8)
    requires Took(a, m, k, 0)
    ensures Took(a, HighStoreAt(m, base, index, value), k + 2, 1)
  {
    hide Read1, Write1, Took, And8, PageCrossed, Word, Hi, Lo, Sum8, Sub8;
    var at := Unfixed(base, index);
    ReadAfter(a, m, k, 0, at);
    var stored := And8(value, Sum8(Hi(at), 1));
    WriteAfter(a, Read1(m, at).0, k + 1, 0, if PageCrossed(base, index) then Word(Lo(at), stored) else at, stored);
  }

  lemma BranchStep(m: Machine, flag: Flag, when: bool)
    ensures var n := Exec(Branch(flag, when), m); Took(m, n, Cycles(Branch(flag, when), m) - 1, 0)
  {
    hide Read1, Fetch, Took;
    FetchStep(m);
    var (n, offset) := Fetch(m);
    if FlagOf(flag, n.r.p) == when {
      ReadAfter(m, n, 1, 0, n.r.pc);
      var o := Read1(n, n.r.pc).0;
      var target := BranchTarget(o.r.pc, offset);
      var dummy := o.r.pc - o.r.pc % 0x100 + target % 0x100;
      ReadAfter(m, o, 2, 0, dummy);
      RegsStep(m, o, 2, 0, o.r.(pc := target));
      var q := Read1(o, dummy).0;
      RegsStep(m, q, 3, 0, q.r.(pc := target));
    }
  }

  lemma JumpSteps(m: Machine)
    ensures Took(m, Exec(Jmp, m), 2, 0)
    ensures Took(m, Exec(JmpInd, m), 4, 0)
  {
    hide Fetch16, ReadPointer, Took;
    Fetch16Step(m);
    var (n, target) := Fetch16(m);
    RegsStep(m, n, 2, 0, n.r.(pc := target));
    PointerStep(n, target);
    var (o, pc) := ReadPointer(n, target);
    TookThen(m, n, o, 2, 0, 2, 0);
    RegsStep(m, o, 4, 0, o.r.(pc := pc));
  }

  lemma JsrStep(m: Machine)
    ensures Took(m, ExecJsr(m), 5, 2)
  {
    hide Fetch, Read1, Push, Took;
    NothingTook(m);
    FetchAfter(m, m, 0, 0);
    var (n1, lo) := Fetch(m);
    ReadAfter(m, n1, 1, 0, 0x100 + n1.r.s);
    var n2 := Read1(n1, 0x100 + n1.r.s).0;
    PushAfter(m, n2, 2, 0, Hi(n2.r.pc));
    var n3 := Push(n2, Hi(n2.r.pc));
    PushAfter(m, n3, 3, 1, Lo(n2.r.pc));
    var n4 := Push(n3, Lo(n2.r.pc));
    FetchAfter(m, n4, 4, 2);
    var (n5, hi) := Fetch(n4);
    RegsStep(m, n5, 5, 2, n5.r.(pc := Word(lo, hi)));
  }

  lemma RtsStep(m: Machine)
    ensures Took(m, ExecRts(m), 5, 0)
  {
    hide Read1, Pull16, BeforePull, Took;
    BeforePullStep(m);
    Pull16After(m, BeforePull(m), 2, 0);
    var (n, v) := Pull16(BeforePull(m));
    ReadAfter(m, n, 4, 0, v);
    var o := Read1(n, v).0;
    RegsStep(m, o, 5, 0, o.r.(pc := Sum16(v, 1)));
  }

  lemma RtiStep(m: Machine)
    ensures Took(m, ExecRti(m), 5, 0)
  {
    hide Pull, Pull16, BeforePull, Pulled, Took;
    BeforePullStep(m);
    PullAfter(m, BeforePull(m), 2, 0);
    var (n, p) := Pull(BeforePull(m));
    RegsStep(m, n, 3, 0, n.r.(p := Pulled(p)));
    var n1 := n.(r := n.r.(p := Pulled(p)));
    Pull16After(m, n1, 3, 0);
    var (o, pc) := Pull16(n1);
    RegsStep(m, o, 5, 0, o.r.(pc := pc));
  }

  lemma BrkStep(m: Machine)
    ensures Took(m, ExecBrk(m), 6, 3)
  {
    hide Read1, Push, Took;
    NothingTook(m);
    ReadAfter(m, m, 0, 0, m.r.pc);
    var n := Read1(m, m.r.pc).0;
    RegsStep(m, n, 1, 0, n.r.(pc := Sum16(n.r.pc, 1)));
    var n1 := n.(r := n.r.(pc := Sum16(n.r.pc, 1)));
    PushAfter(m, n1, 1, 0, Hi(n1.r.pc));
    PushAfter(m, Push(n1, Hi(n1.r.pc)), 2, 1, Lo(n1.r.pc));
    var n2 := Push(Push(n1, Hi(n1.r.pc)), Lo(n1.r.pc));
    PushAfter(m, n2, 3, 2, n2.r.p.(b := true).ToByte());
    var n3 := Push(n2, n2.r.p.(b := true).ToByte());
    RegsStep(m, n3, 4, 3, n3.r.(p := n3.r.p.(i := true)));
    var n4 := n3.(r := n3.r.(p := n3.r.p.(i := true)));
    ReadAfter(m, n4, 4, 3, 0xFFFE);
    var (n5, lo) := Read1(n4, 0xFFFE);
    ReadAfter(m, n5, 5, 3, 0xFFFF);
    var (n6, hi) := Read1(n5, 0xFFFF);
    RegsStep(m, n6, 6, 3, n6.r.(pc := Word(lo, hi)));
  }

  lemma {:induction false} ReadTimesAfter(a: Machine, m: Machine, k: nat, w: nat, addr: u16, times: nat)
    requires Took(a, m, k, w)
    ensures var n := ReadTimes(m, addr, times); Took(a, n, k + times, w)
  {
    hide Read1, Took;
    if times > 0 {
      ReadTimesAfter(a, m, k, w, addr, times - 1);
      ReadAfter(a, ReadTimes(m, addr, times - 1), k + times - 1, w, addr);
    }
  }

  lemma JamStep(m: Machine)
    ensures Took(m, ExecJam(m), 10, 0)
  {
    hide Read1, ReadTimes, Took;
    NothingTook(m);
    ReadAfter(m, m, 0, 0, m.r.pc);
    var n1 := Read1(m, m.r.pc).0;
    ReadAfter(m, n1, 1, 0, 0xFFFF);
    var n2 := Read1(n1, 0xFFFF).0;
    ReadAfter(m, n2, 2, 0, 0xFFFE);
    var n3 := Read1(n2, 0xFFFE).0;
    ReadAfter(m, n3, 3, 0, 0xFFFE);
    var n4 := Read1(n3, 0xFFFE).0;
    ReadTimesAfter(m, n4, 4, 0, 0xFFFF, 6);
    var n5 := ReadTimes(n4, 0xFFFF, 6);
    RegsStep(m, n5, 10, 0, n5.r.(jammed := true));
  }

  lemma StackOpsTake(m: Machine)
    ensures Took(m, Exec(Pha, m), 2, 1)
    ensures Took(m, Exec(Php, m), 2, 1)
    ensures Took(m, Exec(Pla, m), 3, 0)
    ensures Took(m, Exec(Plp, m), 3, 0)
  {
    hide Read1, Push, Pull, BeforePull, Pulled, Took;
    NothingTook(m);
    ReadAfter(m, m, 0, 0, m.r.pc);
    var n := Read1(m, m.r.pc).0;
    PushAfter(m, n, 1, 0, m.r.a);
    PushAfter(m, n, 1, 0, m.r.p.(b := true, u := true).ToByte());
    BeforePullStep(m);
    PullAfter(m, BeforePull(m), 2, 0);
    var (o, v) := Pull(BeforePull(m));
    RegsStep(m, o, 3, 0, SetA(o.r, v));
    RegsStep(m, o, 3, 0, o.r.(p := Pulled(v)));
  }

  /** Instructions the decoder can yield: only loads have an immediate form. */
  predicate WellFormed(i: Instr)
  {
    match i
    case Store(_, mode) => mode != Imm
    case Modify(_, mode) => mode != Imm
    case HighStore(_, mode) => mode == AbsX || mode == AbsY || mode == IndY
    case _ => true
  }

  lemma DecodeWellFormed(op: u8)
    ensures WellFormed(Decode(op))
  {
  }

  /** Writes an instruction makes: loads, branches, pulls and jumps none; a read-modify-write two. */
  function WriteCount(i: Instr): nat
  {
    match i
    case Store(_, _) => 1
    case HighStore(_, _) => 1
    case Modify(_, _) => 2
    case Pha => 1
    case Php => 1
    case Jsr => 2
    case Brk => 3
    case _ => 0
  }

  /** After the opcode fetch an instruction makes its table's cycles minus one accesses, and no more ticks; how many
      of them are writes depends on the instruction alone. */
  lemma ExecTakesItsCycles(i: Instr, m: Machine)
    requires WellFormed(i)
    ensures Took(m, Exec(i, m), Cycles(i, m) - 1, WriteCount(i))
  {
    hide Took, LoadEffect, ImpliedEffect, Read1, Write1, Fetch, EffectiveAddress;
    hide ModifyAt, HighStoreBase, HighStoreAt, And8;
    match i
    case Load(op, mode) =>
      FetchStep(m);
      AddressStep(m, mode, OnCross);
      var (o, addr) := EffectiveAddress(m, mode, OnCross);
      ReadAfter(m, o, AddressCycles(mode, m, OnCross), 0, addr);
      var (n, v) := Operand(m, mode);
      LoadsKeepCounters(op, n.r, v);
      RegsStep(m, n, Cycles(i, m) - 1, 0, LoadEffect(op, n.r, v));
    case Store(op, mode) =>
      AddressStep(m, mode, Always);
      var (n, addr) := EffectiveAddress(m, mode, Always);
      WriteAfter(m, n, AddressCycles(mode, m, Always), 0, addr, StoreValue(op, m.r));
    case Modify(op, mode) =>
      AddressStep(m, mode, Always);
      var (n, addr) := EffectiveAddress(m, mode, Always);
      ModifyAfter(m, n, AddressCycles(mode, m, Always), op, addr);
    case Implied(op) =>
      NothingTook(m);
      ReadAfter(m, m, 0, 0, m.r.pc);
      var n := Read1(m, m.r.pc).0;
      ImpliedKeepsCounters(op, n.r);
      RegsStep(m, n, 1, 0, ImpliedEffect(op, n.r));
    case HighStore(op, mode) =>
      var (n, base) := HighStoreBase(m, mode);
      var o := if op == TAS then n.(r := n.r.(s := And8(n.r.a, n.r.x))) else n;
      HighBaseStep(m, mode);
      RegsStep(m, n, StoreCycles(mode) - 3, 0, o.r);
      HighStoreAfter(m, o, StoreCycles(mode) - 3, base, if mode == AbsX then o.r.x else o.r.y, HighValue(op, o.r));
    case Branch(flag, when) => BranchStep(m, flag, when);
    case Pha => StackOpsTake(m);
    case Php => StackOpsTake(m);
    case Pla => StackOpsTake(m);
    case Plp => StackOpsTake(m);
    case Jmp => JumpSteps(m);
    case JmpInd => JumpSteps(m);
    case Jsr => JsrStep(m);
    case Rts => RtsStep(m);
    case Rti => RtiStep(m);
    case Brk => BrkStep(m);
    case Jam => JamStep(m);
  }

  /** For every state, every bus and all 256 opcodes: a step that is not jammed makes exactly as many
      bus accesses as the cycles it returns, ends with that many emitted, and never pads. */
  lemma StepIsCycleExact(m: Machine)
    requires TimeOk(m) && !m.r.jammed
    ensures var (n, cycles) := Step(m);
      var (f, op) := Fetch(m.(r := m.r.(emitted := 0)));
      && op == m.w.data(|m.w.log|)
      && n == Exec(Decode(op), f)
      && cycles == Cycles(Decode(op), f) && 2 <= cycles <= 11
      && |n.w.log| == |m.w.log| + cycles && m.w.log <= n.w.log
      && Writes(n.w.log) == Writes(m.w.log) + WriteCount(Decode(op))
      && n.r.emitted == cycles
      && n.w.ticks - n.w.stalls == m.w.ticks - m.w.stalls + cycles
      && m.w.stalls <= n.w.stalls <= m.w.stalls + 76 * cycles
      && n.w.data == m.w.data && n.w.extra == m.w.extra
      && TimeOk(n)
  {
    hide Exec, Fetch, Cycles, Decode, WriteCount;
    var m0 := m.(r := m.r.(emitted := 0));
    NothingTook(m0);
    FetchStep(m0);
    var (f, op) := Fetch(m0);
    DecodeWellFormed(op);
    ExecTakesItsCycles(Decode(op), f);
    CyclesBound(Decode(op), f);
    TookThen(m0, f, Exec(Decode(op), f), 1, 0, Cycles(Decode(op), f) - 1, WriteCount(Decode(op)));
  }
}
