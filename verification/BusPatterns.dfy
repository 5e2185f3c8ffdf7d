/** What instructions put on the bus: how often each writes, read-modify-write, and calls undone by returns. */
module BusPatterns {
  import opened Words
  import opened StatusRegister
  import opened SystemState
  import opened Alu
  import opened InstructionSet
  import opened CycleExactness

  /** Every read-modify-write reads its address, writes the old byte back, then writes the new one. */
  lemma ModifyPattern(m: Machine, op: ModifyOp, mode: Mode)
    ensures var (n, addr) := EffectiveAddress(m, mode, Always);
      var v := n.w.data(|n.w.log|);
      ExecModify(m, op, mode).w.log
      == n.w.log + [Read(addr, v), Write(addr, v), Write(addr, ModifyEffect(op, n.r, v).0)]
  {
    hide Read1, Write1, EffectiveAddress, ModifyEffect, Took;
    var (n, addr) := EffectiveAddress(m, mode, Always);
    ReadTakesOne(n, addr);
    var (n1, v) := Read1(n, addr);
    WriteTakesOne(n1, addr, v);
    var n2 := Write1(n1, addr, v);
    EffectIgnoresCounters(op, n.r, n2.r, v);
    WriteTakesOne(n2, addr, ModifyEffect(op, n.r, v).0);
  }

  lemma EffectIgnoresCounters(op: ModifyOp, r: Regs, q: Regs, v: u8)
    requires q == r.(emitted := q.emitted, cycles := q.cycles)
    ensures ModifyEffect(op, q, v).0 == ModifyEffect(op, r, v).0
  {
  }

  /** For every opcode, state and bus: the number of writes depends on the opcode alone. */
  lemma InstructionWrites(op: u8, m: Machine)
    ensures Writes(Exec(Decode(op), m).w.log) == Writes(m.w.log) + WriteCount(Decode(op))
  {
    hide Exec, Decode, Cycles, WriteCount;
    DecodeWellFormed(op);
    CyclesBound(Decode(op), m);
    ExecTakesItsCycles(Decode(op), m);
  }

  // ---- A call and its return ----

  lemma PushLogs(m: Machine, value: u8)
    ensures var n := Push(m, value);
      && n.w.log == m.w.log + [Write(0x100 + m.r.s, value)] && n.w.data == m.w.data
      && n.r == m.r.(s := Sub8(m.r.s, 1), emitted := n.r.emitted, cycles := n.r.cycles)
  {
    hide Write1;
    WriteTakesOne(m, 0x100 + m.r.s, value);
  }

  lemma PullLogs(m: Machine)
    ensures var (n, v) := Pull(m); var s := Sum8(m.r.s, 1);
      && v == m.w.data(|m.w.log|)
      && n.w.log == m.w.log + [Read(0x100 + s, v)] && n.w.data == m.w.data
      && n.r == m.r.(s := s, emitted := n.r.emitted, cycles := n.r.cycles)
  {
    hide Read1;
    var n := m.(r := m.r.(s := Sum8(m.r.s, 1)));
    ReadTakesOne(n, 0x100 + n.r.s);
  }

  lemma FetchLogs(m: Machine)
    ensures var (n, v) := Fetch(m);
      && v == m.w.data(|m.w.log|)
      && n.w.log == m.w.log + [Read(m.r.pc, v)] && n.w.data == m.w.data
      && n.r == m.r.(pc := Sum16(m.r.pc, 1), emitted := n.r.emitted, cycles := n.r.cycles)
  {
    hide Read1;
    ReadTakesOne(m, m.r.pc);
  }

  /** The five accesses of a call: `JSR` pushes the address of its own last byte, high byte first, and fetches that
      byte afterwards. */
  function CallAccesses(m: Machine): (r: seq<Access>)
    ensures |r| == 5
  {
    var k, d, s, back := |m.w.log|, m.w.data, m.r.s, Sum16(m.r.pc, 1);
    [Read(m.r.pc, d(k)), Read(0x100 + s, d(k + 1)), Write(0x100 + s, Hi(back)),
     Write(0x100 + Sub8(s, 1), Lo(back)), Read(back, d(k + 4))]
  }

  /** The five accesses of a return: two dummy reads, the two pulls, and a read of the address pulled. */
  function ReturnAccesses(m: Machine): (r: seq<Access>)
    ensures |r| == 5
  {
    var k, d, s := |m.w.log|, m.w.data, Sum8(m.r.s, 1);
    [Read(m.r.pc, d(k)), Read(0x100 + m.r.s, d(k + 1)), Read(0x100 + s, d(k + 2)),
     Read(0x100 + Sum8(s, 1), d(k + 3)), Read(Word(d(k + 2), d(k + 3)), d(k + 4))]
  }

  lemma CallPattern(m: Machine)
    ensures var n, k, d := ExecJsr(m), |m.w.log|, m.w.data;
      && n.w.log == m.w.log + CallAccesses(m)
      && n.r.pc == Word(d(k), d(k + 4)) && n.r.s == Sub8(Sub8(m.r.s, 1), 1)
  {
    hide Read1, Fetch, Push, Hi, Lo, Word;
    FetchLogs(m);
    var n1 := Fetch(m).0;
    ReadTakesOne(n1, 0x100 + n1.r.s);
    var n2 := Read1(n1, 0x100 + n1.r.s).0;
    PushLogs(n2, Hi(n2.r.pc));
    var n3 := Push(n2, Hi(n2.r.pc));
    PushLogs(n3, Lo(n2.r.pc));
    FetchLogs(Push(n3, Lo(n2.r.pc)));
  }

  lemma ReturnPattern(m: Machine)
    ensures var n, k, d := ExecRts(m), |m.w.log|, m.w.data;
      && n.w.log == m.w.log + ReturnAccesses(m)
      && n.r.pc == Sum16(Word(d(k + 2), d(k + 3)), 1) && n.r.s == Sum8(Sum8(m.r.s, 1), 1)
  {
    hide Read1, Pull, Word;
    ReadTakesOne(m, m.r.pc);
    var n1 := Read1(m, m.r.pc).0;
    ReadTakesOne(n1, 0x100 + n1.r.s);
    var n2 := Read1(n1, 0x100 + n1.r.s).0;
    PullLogs(n2);
    var (n3, lo) := Pull(n2);
    PullLogs(n3);
    var (n4, hi) := Pull(n3);
    ReadTakesOne(n4, Word(lo, hi));
  }

  /** The stack pointer a call leaves. */
  predicate StackAfterCall(m: Machine, n: Machine) { n.r.s == Sub8(Sub8(m.r.s, 1), 1) }

  /**
   A return undoes its call: when the stack answers with the two bytes the call wrote, `RTS` reads them
   from the very addresses they were written to, resumes right after the `JSR`, and restores the stack
   pointer; all of it for any stack pointer, wrap-around in the stack page included.
   */
  lemma ReturnUndoesCall(m: Machine, n: Machine)
    requires StackAfterCall(m, n)
    requires n.w.data(|n.w.log| + 2) == Lo(Sum16(m.r.pc, 1)) && n.w.data(|n.w.log| + 3) == Hi(Sum16(m.r.pc, 1))
    ensures ReturnAccesses(n)[2].addr == CallAccesses(m)[3].addr && ReturnAccesses(n)[3].addr == CallAccesses(m)[2].addr
    ensures ExecRts(n).r.pc == Sum16(m.r.pc, 2) && ExecRts(n).r.s == m.r.s
  {
    hide ExecRts;
    ReturnPattern(n);
    PushesUndone(m.r.s);
    WordOfParts(Sum16(m.r.pc, 1));
    NextTwice(m.r.pc);
  }

  lemma PushesUndone(s: u8)
    ensures Sum8(Sub8(Sub8(s, 1), 1), 1) == Sub8(s, 1)
    ensures Sum8(Sub8(s, 1), 1) == s
  {
    hide Sum8, Sub8;
    DownThenUp(s);
    DownThenUp(Sub8(s, 1));
  }

  lemma DownThenUp(s: u8)
    ensures Sum8(Sub8(s, 1), 1) == s
  {
    if s == 0 {
      assert Sub8(s, 1) == 0xFF;
    } else {
      assert Sub8(s, 1) == s - 1;
    }
  }

  lemma WordOfParts(w: u16)
    ensures Word(Lo(w), Hi(w)) == w
  {
  }

  lemma NextTwice(pc: u16)
    ensures Sum16(Sum16(pc, 1), 1) == Sum16(pc, 2)
  {
  }
}

/** Calls and returns on the console's own memory: which stack bytes are RIOT RAM, and what follows for the return. */
module CallsOnRam {
  import opened Words
  import opened SystemState
  import opened InstructionSet
  import opened BusPatterns

  /** Addresses the bus routes to RIOT RAM, and the cell they select. */
  predicate InRam(addr: u16) { addr / 0x1000 % 2 == 0 && addr / 0x80 % 2 == 1 && addr / 0x200 % 2 == 0 }

  function Cell(addr: u16): nat { addr % 0x80 }

  predicate Stores(a: Access, cell: nat) { a.Write? && InRam(a.addr) && Cell(a.addr) == cell }

  /** The index of the last write of a cell, or -1. */
  function LastStore(log: seq<Access>, cell: nat): (k: int)
    ensures -1 <= k < |log| && (k >= 0 ==> Stores(log[k], cell))
  {
    if log == [] then -1
    else if Stores(log[|log| - 1], cell) then |log| - 1
    else LastStore(log[..|log| - 1], cell)
  }

  /** RIOT RAM answers every read with what was last written to the cell; what else answers is left open. */
  ghost predicate Remembers(log: seq<Access>)
  {
    forall k | 0 <= k < |log| && log[k].Read? && InRam(log[k].addr) ::
      var j := LastStore(log[..k], Cell(log[k].addr)); j >= 0 ==> log[k].value == log[j].value
  }

  lemma {:induction false} StoreSurvives(log: seq<Access>, j: nat, cell: nat)
    requires j < |log| && Stores(log[j], cell) && forall k | j < k < |log| :: !Stores(log[k], cell)
    ensures LastStore(log, cell) == j
  {
    if j < |log| - 1 {
      StoreSurvives(log[..|log| - 1], j, cell);
    }
  }

  /** A byte stored at j and not overwritten is what a later read of its cell gives. */
  lemma ReadsBack(log: seq<Access>, j: nat, k: nat)
    requires Remembers(log) && j < k < |log| && log[k].Read? && log[k].addr == log[j].addr
    requires Stores(log[j], Cell(log[j].addr)) && forall i | j < i < k :: !Stores(log[i], Cell(log[j].addr))
    ensures log[k].value == log[j].value
  {
    StoreSurvives(log[..k], j, Cell(log[j].addr));
  }

  /** Which of the two bytes a call pushes are in RIOT RAM: bit 7 of the stack pointer decides. */
  lemma StackBytesInRam(s: u8)
    ensures InRam(0x100 + s) <==> s >= 0x80
    ensures InRam(0x100 + Sub8(s, 1)) <==> s >= 0x81 || s == 0
    ensures Cell(0x100 + s) != Cell(0x100 + Sub8(s, 1))
  {
  }

  /** Nothing after the call wrote the two cells its return address went to. */
  ghost predicate StackKept(log: seq<Access>, from: nat, s: u8)
  {
    forall k | from <= k < |log| ::
      !Stores(log[k], Cell(0x100 + s)) && !Stores(log[k], Cell(0x100 + Sub8(s, 1)))
  }

  /** A subroutine entered by `JSR` from m is about to return, its stack pointer back where the call left it and its
      return address not overwritten; RIOT RAM answers as it must, the return's own reads included. */
  ghost predicate AboutToReturn(m: Machine, n: Machine)
  {
    && m.w.log + CallAccesses(m) <= n.w.log && StackAfterCall(m, n)
    && StackKept(n.w.log, |m.w.log| + 5, m.r.s) && Remembers(n.w.log + ReturnAccesses(n))
  }

  /** Where the two pushes of a call and the two pulls of its return are in the history. */
  lemma PushesAndPulls(m: Machine, n: Machine)
    requires m.w.log + CallAccesses(m) <= n.w.log && StackAfterCall(m, n)
    ensures var s, back, j, k, log := m.r.s, Sum16(m.r.pc, 1), |m.w.log|, |n.w.log|, n.w.log + ReturnAccesses(n);
      && j + 5 <= k && |log| == k + 5
      && log[j + 2] == Write(0x100 + s, Hi(back)) && log[j + 3] == Write(0x100 + Sub8(s, 1), Lo(back))
      && log[j + 4].Read? && log[k].Read? && log[k + 1].Read?
      && log[k + 2] == Read(0x100 + Sub8(s, 1), n.w.data(k + 2))
      && log[k + 3] == Read(0x100 + s, n.w.data(k + 3))
  {
    hide Lo, Hi, Word, Sum16, Sum8, Sub8;
    PushesUndone(m.r.s);
    var j := |m.w.log|;
    assert forall i | 0 <= i < 5 :: n.w.log[j + i] == (m.w.log + CallAccesses(m))[j + i] == CallAccesses(m)[i];
    assert n.w.log[j + 2] == CallAccesses(m)[2] && n.w.log[j + 3] == CallAccesses(m)[3];
    assert n.w.log[j + 4] == CallAccesses(m)[4];
  }

  /** The pushed bytes come back wherever they went to RIOT RAM. */
  lemma PulledBytes(m: Machine, n: Machine)
    requires AboutToReturn(m, n)
    ensures var s, back, k := m.r.s, Sum16(m.r.pc, 1), |n.w.log|;
      && (InRam(0x100 + Sub8(s, 1)) ==> n.w.data(k + 2) == Lo(back))
      && (InRam(0x100 + s) ==> n.w.data(k + 3) == Hi(back))
  {
    hide Remembers, LastStore, Lo, Hi, InRam, Cell, Sum8, Sub8, Sum16, Word, CallAccesses, ReturnAccesses;
    PushesAndPulls(m, n);
    StackBytesInRam(m.r.s);
    var j, k, log := |m.w.log|, |n.w.log|, n.w.log + ReturnAccesses(n);
    assert forall i | j + 5 <= i < k :: log[i] == n.w.log[i];
    if InRam(0x100 + Sub8(m.r.s, 1)) {
      ReadsBack(log, j + 3, k + 2);
    }
    if InRam(0x100 + m.r.s) {
      ReadsBack(log, j + 2, k + 3);
    }
  }

  /**
   A return resumes after its call if and only if each pushed byte that did not go to RIOT RAM happens to be
   answered; from $81 up both bytes are RAM and it always does. The stack pointer comes back in any case.
   */
  lemma ReturnOnRam(m: Machine, n: Machine)
    requires AboutToReturn(m, n)
    ensures var s, back, k, r := m.r.s, Sum16(m.r.pc, 1), |n.w.log|, ExecRts(n).r;
      && r.s == s
      && (r.pc == Sum16(m.r.pc, 2) <==>
           (s >= 0x81 || s == 0 || n.w.data(k + 2) == Lo(back)) && (s >= 0x80 || n.w.data(k + 3) == Hi(back)))
      && (s >= 0x81 ==> r.pc == Sum16(m.r.pc, 2))
  {
    hide ExecRts, Remembers, StackKept, Sum8, Sub8, CallAccesses, ReturnAccesses;
    ReturnPattern(n);
    PushesUndone(m.r.s);
    PulledBytes(m, n);
    StackBytesInRam(m.r.s);
    var k, back := |n.w.log|, Sum16(m.r.pc, 1);
    ResumesExactly(n.w.data(k + 2), n.w.data(k + 3), back, m.r.pc);
  }

  lemma ResumesExactly(lo: u8, hi: u8, back: u16, pc: u16)
    requires back == Sum16(pc, 1)
    ensures Sum16(Word(lo, hi), 1) == Sum16(pc, 2) <==> lo == Lo(back) && hi == Hi(back)
  {
    hide Sum16, Word, Lo, Hi;
    NextTwice(pc);
    SameNext(Word(lo, hi), back);
    SameWord(lo, hi, back);
  }

  lemma SameNext(v: u16, w: u16)
    ensures Sum16(v, 1) == Sum16(w, 1) <==> v == w
  {
  }

  lemma SameWord(lo: u8, hi: u8, w: u16)
    ensures Word(lo, hi) == w <==> lo == Lo(w) && hi == Hi(w)
  {
  }
}
