/**
 The 6507 instruction set as a reference: an opcode's bit fields select an operation and an
 addressing mode, and each pair of those has one bus pattern and one entry in the cycle table.
 */
module InstructionSet {
  import opened Words
  import opened StatusRegister
  import opened SystemState
  import opened Alu

  datatype Mode = Imm | Zp | ZpX | ZpY | Abs | AbsX | AbsY | IndX | IndY

  datatype LoadOp =
    | LDA | LDX | LDY | AND | ORA | EOR | BIT | ADC | SBC | CMP | CPX | CPY
    | NOP | LAX | LAS | ANC | ALR | ARR | AXS | XAA | LXA

  datatype StoreOp = STA | STX | STY | SAX

  datatype ModifyOp = ASL | LSR | ROL | ROR | INC | DEC | SLO | RLA | SRE | RRA | DCP | ISC

  datatype ImpliedOp =
    | TAX | TAY | TSX | TXA | TXS | TYA | INX | DEX | INY | DEY
    | ASLA | LSRA | ROLA | RORA | CLC | SEC | CLI | SEI | CLV | CLD | SED | NOPI

  datatype HighOp = TAS | SHA | SHX | SHY

  datatype Flag = FlagN | FlagV | FlagC | FlagZ

  datatype Instr =
    | Load(load: LoadOp, mode: Mode)
    | Store(store: StoreOp, mode: Mode)
    | Modify(rmw: ModifyOp, mode: Mode)
    | Implied(implied: ImpliedOp)
    | HighStore(high: HighOp, mode: Mode)
    | Branch(flag: Flag, when: bool)
    | Pha | Php | Pla | Plp | Jmp | JmpInd | Jsr | Rts | Rti | Brk | Jam

  // ---- Decoding by the opcode's aaa-bbb-cc fields ----

  function Column0(a: nat, b: nat): Instr
  {
    match b
    case 0 =>
      (match a
       case 0 => Brk case 1 => Jsr case 2 => Rti case 3 => Rts
       case 4 => Load(NOP, Imm) case 5 => Load(LDY, Imm) case 6 => Load(CPY, Imm) case _ => Load(CPX, Imm))
    case 1 => Column0Memory(a, Zp)
    case 2 =>
      (match a
       case 0 => Php case 1 => Plp case 2 => Pha case 3 => Pla
       case 4 => Implied(DEY) case 5 => Implied(TAY) case 6 => Implied(INY) case _ => Implied(INX))
    case 3 => if a == 2 then Jmp else if a == 3 then JmpInd else Column0Memory(a, Abs)
    case 4 => Branch([FlagN, FlagV, FlagC, FlagZ][if a / 2 < 4 then a / 2 else 3], a % 2 == 1)
    case 5 => if a == 4 || a == 5 then Column0Memory(a, ZpX) else Load(NOP, ZpX)
    case 6 =>
      (match a
       case 0 => Implied(CLC) case 1 => Implied(SEC) case 2 => Implied(CLI) case 3 => Implied(SEI)
       case 4 => Implied(TYA) case 5 => Implied(CLV) case 6 => Implied(CLD) case _ => Implied(SED))
    case _ => if a == 4 then HighStore(SHY, AbsX) else if a == 5 then Load(LDY, AbsX) else Load(NOP, AbsX)
  }

  function Column0Memory(a: nat, mode: Mode): Instr
  {
    match a
    case 1 => Load(BIT, mode)
    case 4 => Store(STY, mode)
    case 5 => Load(LDY, mode)
    case 6 => Load(CPY, mode)
    case 7 => Load(CPX, mode)
    case _ => Load(NOP, mode)
  }

  function Column1Mode(b: nat): Mode
  {
    match b
    case 0 => IndX case 1 => Zp case 2 => Imm case 3 => Abs
    case 4 => IndY case 5 => ZpX case 6 => AbsY case _ => AbsX
  }

  function Column1(a: nat, b: nat): Instr
  {
    match a
    case 0 => Load(ORA, Column1Mode(b))
    case 1 => Load(AND, Column1Mode(b))
    case 2 => Load(EOR, Column1Mode(b))
    case 3 => Load(ADC, Column1Mode(b))
    case 4 => if b == 2 then Load(NOP, Imm) else Store(STA, Column1Mode(b))
    case 5 => Load(LDA, Column1Mode(b))
    case 6 => Load(CMP, Column1Mode(b))
    case _ => Load(SBC, Column1Mode(b))
  }

  function Column2Memory(a: nat, mode: Mode): Instr
  {
    var swapped := if mode == ZpX then ZpY else if mode == AbsX then AbsY else mode;
    match a
    case 0 => Modify(ASL, mode)
    case 1 => Modify(ROL, mode)
    case 2 => Modify(LSR, mode)
    case 3 => Modify(ROR, mode)
    case 4 => if mode == AbsX then HighStore(SHX, swapped) else Store(STX, swapped)
    case 5 => Load(LDX, swapped)
    case 6 => Modify(DEC, mode)
    case _ => Modify(INC, mode)
  }

  function Column2(a: nat, b: nat): Instr
  {
    match b
    case 0 => if a < 4 then Jam else if a == 5 then Load(LDX, Imm) else Load(NOP, Imm)
    case 1 => Column2Memory(a, Zp)
    case 2 =>
      (match a
       case 0 => Implied(ASLA) case 1 => Implied(ROLA) case 2 => Implied(LSRA) case 3 => Implied(RORA)
       case 4 => Implied(TXA) case 5 => Implied(TAX) case 6 => Implied(DEX) case _ => Implied(NOPI))
    case 3 => Column2Memory(a, Abs)
    case 4 => Jam
    case 5 => Column2Memory(a, ZpX)
    case 6 => if a == 4 then Implied(TXS) else if a == 5 then Implied(TSX) else Implied(NOPI)
    case _ => Column2Memory(a, AbsX)
  }

  /** The undocumented column: each operation of column 2 fused with the one of column 1. */
  function Column3(a: nat, b: nat): Instr
  {
    if b == 2 then
      (match a
       case 0 => Load(ANC, Imm) case 1 => Load(ANC, Imm) case 2 => Load(ALR, Imm) case 3 => Load(ARR, Imm)
       case 4 => Load(XAA, Imm) case 5 => Load(LXA, Imm) case 6 => Load(AXS, Imm) case _ => Load(SBC, Imm))
    else
      var mode := Column1Mode(b);
      var swapped := if mode == ZpX then ZpY else if mode == AbsX then AbsY else mode;
      match a
      case 0 => Modify(SLO, mode)
      case 1 => Modify(RLA, mode)
      case 2 => Modify(SRE, mode)
      case 3 => Modify(RRA, mode)
      case 4 =>
        if b == 6 then HighStore(TAS, AbsY)
        else if b == 4 || b == 7 then HighStore(SHA, swapped)
        else Store(SAX, swapped)
      case 5 => if b == 6 then Load(LAS, AbsY) else Load(LAX, swapped)
      case 6 => Modify(DCP, mode)
      case _ => Modify(ISC, mode)
  }

  function Decode(op: u8): Instr
  {
    var a, b := op / 32, op / 4 % 8;
    match op % 4
    case 0 => Column0(a, b)
    case 1 => Column1(a, b)
    case 2 => Column2(a, b)
    case _ => Column3(a, b)
  }

  // ---- Bus patterns ----

  function Fetch(m: Machine): (Machine, u8)
  {
    var (n, v) := Read1(m, m.r.pc);
    (n.(r := n.r.(pc := Sum16(n.r.pc, 1))), v)
  }

  function Fetch16(m: Machine): (Machine, u16)
  {
    var (n, lo) := Fetch(m);
    var (o, hi) := Fetch(n);
    (o, Word(lo, hi))
  }

  /** The next address, wrapping within its page. */
  function NextInPage(addr: u16): u16 { if addr % 0x100 == 0xFF then addr - 0xFF else addr + 1 }

  /** A 16-bit pointer read whose second byte wraps within the page. */
  function ReadPointer(m: Machine, addr: u16): (Machine, u16)
  {
    var (n, lo) := Read1(m, addr);
    var (o, hi) := Read1(n, NextInPage(addr));
    (o, Word(lo, hi))
  }

  /** The indexed address before its high byte is fixed. */
  function Unfixed(base: u16, index: u8): u16
  {
    if PageCrossed(base, index) then base + index - 0x100 else base + index
  }

  predicate PageCrossed(base: u16, index: u8)
  {
    base % 0x100 + index >= 0x100
  }

  /** When an indexed mode spends its dummy read at the unfixed address. */
  datatype Dummy = Always | OnCross

  function Indexed(m: Machine, base: u16, index: u8, dummy: Dummy): (Machine, u16)
  {
    var addr := Sum16(base, index);
    if dummy.Always? || PageCrossed(base, index) then (Read1(m, Unfixed(base, index)).0, addr) else (m, addr)
  }

  function ZeroPageIndexed(m: Machine, index: u8): (Machine, u16)
  {
    var (n, base) := Fetch(m);
    (Read1(n, base).0, Sum8(base, index))
  }

  function EffectiveAddress(m: Machine, mode: Mode, dummy: Dummy): (Machine, u16)
  {
    match mode
    case Imm => (m, m.r.pc)
    case Zp => Fetch(m)
    case ZpX => ZeroPageIndexed(m, m.r.x)
    case ZpY => ZeroPageIndexed(m, m.r.y)
    case Abs => Fetch16(m)
    case AbsX => var (n, base) := Fetch16(m); Indexed(n, base, n.r.x, dummy)
    case AbsY => var (n, base) := Fetch16(m); Indexed(n, base, n.r.y, dummy)
    case IndX => var (n, ptr) := ZeroPageIndexed(m, m.r.x); ReadPointer(n, ptr)
    case IndY =>
      var (n, ptr) := Fetch(m);
      var (o, base) := ReadPointer(n, ptr);
      Indexed(o, base, o.r.y, dummy)
  }

  function Operand(m: Machine, mode: Mode): (Machine, u8)
  {
    if mode == Imm then Fetch(m)
    else
      var (n, addr) := EffectiveAddress(m, mode, OnCross);
      Read1(n, addr)
  }

  function Push(m: Machine, value: u8): Machine
  {
    var n := Write1(m, 0x100 + m.r.s, value);
    n.(r := n.r.(s := Sub8(n.r.s, 1)))
  }

  function Pull(m: Machine): (Machine, u8)
  {
    var s := Sum8(m.r.s, 1);
    Read1(m.(r := m.r.(s := s)), 0x100 + s)
  }

  // ---- Effects on registers ----

  function LoadEffect(op: LoadOp, r: Regs, v: u8): Regs
  {
    match op
    case LDA => SetA(r, v)
    case LDX => SetX(r, v)
    case LDY => SetY(r, v)
    case AND => SetA(r, And8(r.a, v))
    case ORA => SetA(r, Or8(r.a, v))
    case EOR => SetA(r, Xor8(r.a, v))
    case BIT => BitTest(r, v)
    case ADC => Adc(r, v)
    case SBC => Sbc(r, v)
    case CMP => Compare(r, r.a, v)
    case CPX => Compare(r, r.x, v)
    case CPY => Compare(r, r.y, v)
    case NOP => r
    case LAX => Lax(r, v)
    case LAS => Las(r, v)
    case ANC => Anc(r, v)
    case ALR => Alr(r, v)
    case ARR => Arr(r, v)
    case AXS => Axs(r, v)
    case XAA => Xaa(r, v)
    case LXA => Lxa(r, v)
  }

  function StoreValue(op: StoreOp, r: Regs): u8
  {
    match op
    case STA => r.a
    case STX => r.x
    case STY => r.y
    case SAX => And8(r.a, r.x)
  }

  /** The byte written back, and the registers after it. */
  function ModifyEffect(op: ModifyOp, r: Regs, v: u8): (u8, Regs)
  {
    match op
    case ASL => var (x, p) := Asl(r.p, v); (x, r.(p := p))
    case LSR => var (x, p) := Lsr(r.p, v); (x, r.(p := p))
    case ROL => var (x, p) := Rol(r.p, v); (x, r.(p := p))
    case ROR => var (x, p) := Ror(r.p, v); (x, r.(p := p))
    case INC => var x := Sum8(v, 1); (x, r.(p := r.p.SetNZ(x)))
    case DEC => var x := Sub8(v, 1); (x, r.(p := r.p.SetNZ(x)))
    case SLO => var (x, p) := Asl(r.p, v); (x, SetA(r.(p := p), Or8(r.a, x)))
    case RLA => var (x, p) := Rol(r.p, v); (x, SetA(r.(p := p), And8(r.a, x)))
    case SRE => var (x, p) := Lsr(r.p, v); (x, SetA(r.(p := p), Xor8(r.a, x)))
    case RRA => var (x, p) := Ror(r.p, v); (x, Adc(r.(p := p), x))
    case DCP => var x := Sub8(v, 1); (x, Compare(r, r.a, x))
    case ISC => var x := Sum8(v, 1); (x, Sbc(r, x))
  }

  function ImpliedEffect(op: ImpliedOp, r: Regs): Regs
  {
    match op
    case TAX => SetX(r, r.a)
    case TAY => SetY(r, r.a)
    case TSX => SetX(r, r.s)
    case TXA => SetA(r, r.x)
    case TXS => r.(s := r.x)
    case TYA => SetA(r, r.y)
    case INX => SetX(r, Sum8(r.x, 1))
    case DEX => SetX(r, Sub8(r.x, 1))
    case INY => SetY(r, Sum8(r.y, 1))
    case DEY => SetY(r, Sub8(r.y, 1))
    case ASLA => var (x, p) := Asl(r.p, r.a); r.(a := x, p := p)
    case LSRA => var (x, p) := Lsr(r.p, r.a); r.(a := x, p := p)
    case ROLA => var (x, p) := Rol(r.p, r.a); r.(a := x, p := p)
    case RORA => var (x, p) := Ror(r.p, r.a); r.(a := x, p := p)
    case CLC => r.(p := r.p.SetC(false))
    case SEC => r.(p := r.p.SetC(true))
    case CLI => r.(p := r.p.SetI(false))
    case SEI => r.(p := r.p.SetI(true))
    case CLV => r.(p := r.p.SetV(false))
    case CLD => r.(p := r.p.SetD(false))
    case SED => r.(p := r.p.SetD(true))
    case NOPI => r
  }

  predicate FlagOf(flag: Flag, p: Status)
  {
    match flag
    case FlagN => p.n
    case FlagV => p.v
    case FlagC => p.c
    case FlagZ => p.z
  }

  function SignedByte(x: u8): int { if x >= 0x80 then x - 0x100 else x }

  function Page(addr: u16): nat { addr / 0x100 }

  // ---- Executing a decoded instruction, the opcode already fetched ----

  function ExecStore(m: Machine, value: u8, mode: Mode): Machine
  {
    var (n, addr) := EffectiveAddress(m, mode, Always);
    Write1(n, addr, value)
  }

  function ExecModify(m: Machine, op: ModifyOp, mode: Mode): Machine
  {
    var (n, addr) := EffectiveAddress(m, mode, Always);
    ModifyAt(n, op, addr)
  }

  /** Read, write the byte back unchanged, then write the result. */
  function ModifyAt(m: Machine, op: ModifyOp, addr: u16): Machine
  {
    var (n, v) := Read1(m, addr);
    var o := Write1(n, addr, v);
    var q := Write1(o, addr, ModifyEffect(op, o.r, v).0);
    q.(r := ModifyEffect(op, q.r, v).1)
  }

  function HighValue(op: HighOp, r: Regs): u8
  {
    match op
    case TAS => r.s
    case SHA => And8(r.a, r.x)
    case SHX => r.x
    case SHY => r.y
  }

  /** The unstable stores: the value is ANDed with the address high byte plus one, which may corrupt the page. */
  function HighStoreAt(m: Machine, base: u16, index: u8, value: u8): Machine
  {
    var unfixed := Unfixed(base, index);
    var n := Read1(m, unfixed).0;
    var stored := And8(value, Sum8(Hi(unfixed), 1));
    Write1(n, if PageCrossed(base, index) then Word(Lo(unfixed), stored) else unfixed, stored)
  }

  function HighStoreBase(m: Machine, mode: Mode): (Machine, u16)
  {
    if mode == IndY then
      var (n, ptr) := Fetch(m);
      ReadPointer(n, ptr)
    else Fetch16(m)
  }

  function ExecHighStore(m: Machine, op: HighOp, mode: Mode): Machine
  {
    var (n, base) := HighStoreBase(m, mode);
    var o := if op == TAS then n.(r := n.r.(s := And8(n.r.a, n.r.x))) else n;
    HighStoreAt(o, base, if mode == AbsX then o.r.x else o.r.y, HighValue(op, o.r))
  }

  function BranchTarget(pc: u16, offset: u8): u16
  {
    Add16(pc, SignedByte(offset))
  }

  function BranchTo(m: Machine, offset: u8, condition: bool): Machine
  {
    if !condition then m else
    var n := Read1(m, m.r.pc).0;
    var target := BranchTarget(n.r.pc, offset);
    var o := if Page(n.r.pc) != Page(target)
             then Read1(n, n.r.pc - n.r.pc % 0x100 + target % 0x100).0 else n;
    o.(r := o.r.(pc := target))
  }

  function ExecJsr(m: Machine): Machine
  {
    var (n1, lo) := Fetch(m);
    var n2 := Read1(n1, 0x100 + n1.r.s).0;
    var n3 := Push(n2, Hi(n2.r.pc));
    var n4 := Push(n3, Lo(n2.r.pc));
    var (n5, hi) := Fetch(n4);
    n5.(r := n5.r.(pc := Word(lo, hi)))
  }

  /** The dummy reads that open every pull. */
  function BeforePull(m: Machine): Machine
  {
    var n := Read1(m, m.r.pc).0;
    Read1(n, 0x100 + n.r.s).0
  }

  function Pull16(m: Machine): (Machine, u16)
  {
    var (n, lo) := Pull(m);
    var (o, hi) := Pull(n);
    (o, Word(lo, hi))
  }

  function ExecRts(m: Machine): Machine
  {
    var (n, v) := Pull16(BeforePull(m));
    var o := Read1(n, v).0;
    o.(r := o.r.(pc := Sum16(v, 1)))
  }

  function ExecRti(m: Machine): Machine
  {
    var (n, p) := Pull(BeforePull(m));
    var (o, pc) := Pull16(n.(r := n.r.(p := Pulled(p))));
    o.(r := o.r.(pc := pc))
  }

  function ExecBrk(m: Machine): Machine
  {
    var n := Read1(m, m.r.pc).0;
    var n1 := n.(r := n.r.(pc := Sum16(n.r.pc, 1)));
    var n2 := Push(Push(n1, Hi(n1.r.pc)), Lo(n1.r.pc));
    var n3 := Push(n2, n2.r.p.(b := true).ToByte());
    var n4 := n3.(r := n3.r.(p := n3.r.p.(i := true)));
    var (n5, lo) := Read1(n4, 0xFFFE);
    var (n6, hi) := Read1(n5, 0xFFFF);
    n6.(r := n6.r.(pc := Word(lo, hi)))
  }

  function ReadTimes(m: Machine, addr: u16, k: nat): Machine
  {
    if k == 0 then m else Read1(ReadTimes(m, addr, k - 1), addr).0
  }

  function ExecJam(m: Machine): Machine
  {
    var n := Read1(Read1(m, m.r.pc).0, 0xFFFF).0;
    var o := Read1(Read1(n, 0xFFFE).0, 0xFFFE).0;
    var q := ReadTimes(o, 0xFFFF, 6);
    q.(r := q.r.(jammed := true))
  }

  function Exec(i: Instr, m: Machine): Machine
  {
    match i
    case Load(op, mode) => var (n, v) := Operand(m, mode); n.(r := LoadEffect(op, n.r, v))
    case Store(op, mode) => ExecStore(m, StoreValue(op, m.r), mode)
    case Modify(op, mode) => ExecModify(m, op, mode)
    case Implied(op) => var n := Read1(m, m.r.pc).0; n.(r := ImpliedEffect(op, n.r))
    case HighStore(op, mode) => ExecHighStore(m, op, mode)
    case Branch(flag, when) => var (n, offset) := Fetch(m); BranchTo(n, offset, FlagOf(flag, n.r.p) == when)
    case Pha => Push(Read1(m, m.r.pc).0, m.r.a)
    case Php => Push(Read1(m, m.r.pc).0, m.r.p.(b := true, u := true).ToByte())
    case Pla => var (n, v) := Pull(BeforePull(m)); n.(r := SetA(n.r, v))
    case Plp => var (n, v) := Pull(BeforePull(m)); n.(r := n.r.(p := Pulled(v)))
    case Jmp => var (n, target) := Fetch16(m); n.(r := n.r.(pc := target))
    case JmpInd =>
      var (n, ptr) := Fetch16(m);
      var (o, target) := ReadPointer(n, ptr);
      o.(r := o.r.(pc := target))
    case Jsr => ExecJsr(m)
    case Rts => ExecRts(m)
    case Rti => ExecRti(m)
    case Brk => ExecBrk(m)
    case Jam => ExecJam(m)
  }

  // ---- The cycle table ----

  /** Whether the operand bytes the bus is about to give make an indexed mode cross a page. */
  predicate Crosses(mode: Mode, m: Machine)
  {
    var k := |m.w.log|;
    match mode
    case AbsX => PageCrossed(Word(m.w.data(k), m.w.data(k + 1)), m.r.x)
    case AbsY => PageCrossed(Word(m.w.data(k), m.w.data(k + 1)), m.r.y)
    case IndY => PageCrossed(Word(m.w.data(k + 1), m.w.data(k + 2)), m.r.y)
    case _ => false
  }

  function LoadCycles(mode: Mode): nat
  {
    match mode
    case Imm => 2 case Zp => 3 case ZpX => 4 case ZpY => 4 case Abs => 4
    case AbsX => 4 case AbsY => 4 case IndX => 6 case IndY => 5
  }

  function StoreCycles(mode: Mode): nat
  {
    match mode
    case Imm => 2 case Zp => 3 case ZpX => 4 case ZpY => 4 case Abs => 4
    case AbsX => 5 case AbsY => 5 case IndX => 6 case IndY => 6
  }

  function BranchCycles(m: Machine, taken: bool): nat
  {
    var pc := Sum16(m.r.pc, 1);
    if !taken then 2
    else if Page(pc) != Page(BranchTarget(pc, m.w.data(|m.w.log|))) then 4 else 3
  }

  /** Cycles of a decoded instruction, its opcode fetch included. */
  function Cycles(i: Instr, m: Machine): nat
  {
    match i
    case Load(_, mode) => LoadCycles(mode) + Bit(Crosses(mode, m))
    case Store(_, mode) => StoreCycles(mode)
    case Modify(_, mode) => StoreCycles(mode) + 2
    case Implied(_) => 2
    case HighStore(_, mode) => StoreCycles(mode)
    case Branch(flag, when) => BranchCycles(m, FlagOf(flag, m.r.p) == when)
    case Pha => 3 case Php => 3 case Pla => 4 case Plp => 4
    case Jmp => 3 case JmpInd => 5 case Jsr => 6 case Rts => 6 case Rti => 6 case Brk => 7
    case Jam => 11
  }

  // ---- Whole steps ----

  /** Idle ticks up to a cycle count, were an instruction to fall short of it. */
  function Pad(m: Machine, cycles: nat): Machine
    requires cycles <= 0xFF
    decreases cycles - m.r.emitted
  {
    if m.r.emitted < cycles then Pad(IdleTick(m), cycles) else m
  }

  lemma CyclesBound(i: Instr, m: Machine)
    ensures 2 <= Cycles(i, m) <= 11
  {
  }

  /** One instruction: the machine after it and the cycle count returned; nothing happens once jammed. */
  function Step(m: Machine): (Machine, nat)
  {
    if m.r.jammed then (m, 0) else
    var (n, op) := Fetch(m.(r := m.r.(emitted := 0)));
    CyclesBound(Decode(op), n);
    var cycles := Cycles(Decode(op), n);
    (Pad(Exec(Decode(op), n), cycles), cycles)
  }

  function IdleTimes(m: Machine, k: nat): Machine
  {
    if k == 0 then m else IdleTick(IdleTimes(m, k - 1))
  }

  const RESET_VECTOR: u16 := 0xFFFC

  function Reset(m: Machine): Machine
  {
    var r := m.r.(s := Sub8(m.r.s, 3), p := m.r.p.(i := true), jammed := false, emitted := 0);
    var (n, lo) := Read1(IdleTimes(m.(r := r), 6), RESET_VECTOR);
    var (o, hi) := Read1(n, RESET_VECTOR + 1);
    o.(r := o.r.(pc := Word(lo, hi)))
  }
}
