/** The DPC board updated in place. */
module DpcBoard {
  import opened Words
  import D = Dpc

  class BankDpc {
    const program: seq<u8>
    const display: seq<u8>
    var bank: nat
    const tops: array<u8>
    const bottoms: array<u8>
    const low: array<u8>
    const hi: array<u8>
    const flags: array<bool>
    const musicMode: array<bool>
    var randomNumber: bv8

    ghost function Rom(): D.Rom { D.Rom(program, display) }

    ghost function Regs(): D.Registers
      reads this, tops, bottoms, low, hi, flags, musicMode
    {
      D.Registers(bank, tops[..], bottoms[..], low[..], hi[..], flags[..], musicMode[..], randomNumber)
    }

    ghost predicate Apart()
    {
      && tops != bottoms && tops != low && tops != hi && bottoms != low && bottoms != hi && low != hi
      && flags != musicMode
    }

    ghost predicate Valid()
      reads this, tops, bottoms, low, hi, flags, musicMode
    {
      Rom().Valid() && Regs().Valid() && Apart()
    }

    constructor (rom: seq<u8>)
      requires |rom| >= D.PROGRAM_SIZE + D.DISPLAY_SIZE
      ensures Valid() && fresh(tops) && fresh(low) && fresh(flags) && (Rom(), Regs()) == D.New(rom)
    {
      program, display := rom[..D.PROGRAM_SIZE], rom[D.PROGRAM_SIZE..D.PROGRAM_SIZE + D.DISPLAY_SIZE];
      bank, randomNumber := 1, 1;
      tops := new u8[8](_ => 0);
      bottoms := new u8[8](_ => 0);
      low := new u8[8](_ => 0);
      hi := new u8[8](_ => 0);
      flags := new bool[8](_ => false);
      musicMode := new bool[3](_ => false);
      new;
      ghost var r := D.New(rom).1;
      assert tops[..] == r.tops && bottoms[..] == r.bottoms && low[..] == r.low && hi[..] == r.hi;
      assert flags[..] == r.flags && musicMode[..] == r.music;
    }

    method Hotspot(addr: u16)
      requires Valid()
      modifies this`bank
      ensures Valid() && Regs() == D.Hotspot(old(Regs()), addr)
    {
      match addr % 0x2000
      case 0x1FF8 => bank := 0;
      case 0x1FF9 => bank := 1;
      case _ =>
    }

    method ClockRng()
      requires Valid()
      modifies this`randomNumber
      ensures Valid() && Regs() == old(Regs()).(rng := D.Clock(old(randomNumber)))
    {
      var r := randomNumber;
      var bit := ((r >> 3) & 1) ^ ((r >> 4) & 1) ^ ((r >> 5) & 1) ^ ((r >> 7) & 1) ^ 1;
      randomNumber := (r << 1) | bit;
    }

    method FetcherClock(i: nat)
      requires Valid() && i < D.FETCHERS
      modifies low, hi
      ensures Valid() && Regs() == D.FetcherClock(old(Regs()), i)
    {
      low[i] := Add8(low[i], -1);
      if low[i] == 0xFF {
        hi[i] := Add8(hi[i], -1);
        if i >= 5 && musicMode[i - 5] {
          low[i] := tops[i];
        }
      }
    }

    method FetcherSetFlag(i: nat)
      requires Valid() && i < D.FETCHERS
      modifies flags
      ensures Valid() && Regs() == D.SetFlag(old(Regs()), i)
    {
      if low[i] == tops[i] {
        flags[i] := true;
      } else if low[i] == bottoms[i] {
        flags[i] := false;
      }
    }

    function GfxAddr(i: nat): (r: nat)
      requires Valid() && i < D.FETCHERS
      reads this, tops, bottoms, low, hi, flags, musicMode
      ensures r == D.GfxAddr(D.Counter(Regs(), i))
    {
      0x7FF - Word(low[i], hi[i]) % 0x800
    }

    /** The byte of a register read, the flag already updated. */
    method RegisterValue(addr: u16) returns (result: u8)
      requires Valid()
      ensures result == D.Answer(Rom(), Regs(), addr)
    {
      hide D.GfxAddr;
      var index, func := D.Index(addr), D.Function(addr);
      match func {
        case 0 =>
          if index < 4 {
            result := randomNumber as int;
          } else {
            result := 0;
            if musicMode[0] && flags[5] { result := result + 4; }
            if musicMode[1] && flags[6] { result := result + 5; }
            if musicMode[2] && flags[7] { result := result + 6; }
          }
        case 1 => result := display[GfxAddr(index)];
        case 2 => result := if flags[index] then display[GfxAddr(index)] else 0;
        case 7 => result := if flags[index] then 0xFF else 0;
        case _ => result := 0;
      }
    }

    method CpuRead(addr: u16) returns (result: u8)
      requires Valid()
      modifies this`bank, this`randomNumber, low, hi, flags
      ensures Valid() && (Regs(), result) == D.CpuRead(Rom(), old(Regs()), addr)
    {
      hide D.Clock, D.Hotspot, D.SetFlag, D.FetcherClock, D.Answer;
      Hotspot(addr);
      ClockRng();
      var a := D.Offset(addr);
      if a >= 0x80 {
        return program[bank * 0x1000 + a];
      }
      var index := D.Index(addr);
      FetcherSetFlag(index);
      result := RegisterValue(addr);
      if index < 5 || !musicMode[index - 5] {
        FetcherClock(index);
      }
    }

    method CpuWrite(addr: u16, val: u8)
      requires Valid()
      modifies this`bank, this`randomNumber, tops, bottoms, low, hi, flags, musicMode
      ensures Valid() && Regs() == D.CpuWrite(old(Regs()), addr, val)
    {
      hide D.Clock, D.Hotspot;
      Hotspot(addr);
      ClockRng();
      if !D.RegisterWrite(addr) {
        return;
      }
      var index, func := D.Index(addr), D.Function(addr);
      match func
      case 0 =>
        tops[index] := val;
        flags[index] := false;
      case 1 => bottoms[index] := val;
      case 2 =>
        if index >= 5 && musicMode[index - 5] {
          low[index] := tops[index];
        } else {
          low[index] := val;
        }
      case 3 =>
        hi[index] := val;
        if index >= 5 {
          musicMode[index - 5] := val / 0x10 % 2 == 1;
        }
      case 6 => randomNumber := 1;
      case _ =>
    }
  }
}
