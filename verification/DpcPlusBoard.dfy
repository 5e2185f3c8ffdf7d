/** The DPC+ board updated in place. */
module DpcPlusBoard {
  import opened Coprocessor
  import opened Words
  import P = DpcPlus
  import T = DpcPlusTheorems

  class BankDpcPlus {
    var flash: P.Flash
    var driverRam: seq<u8>
    var freqRam: seq<u8>
    const dataRam: array<u8>
    const fetcher: array<P.Fetcher>
    const fracFetcher: array<P.Fractional>
    const music: array<P.Music>
    var bank: nat
    var rng: bv32
    var fastFetch: bool
    var ldaPending: bool
    var parameters: seq<u8>
    var beats: u32

    ghost function Regs(): P.Registers
      reads this, dataRam, fetcher, fracFetcher, music
    {
      P.Registers(dataRam[..], freqRam, fetcher[..], fracFetcher[..], music[..], rng, fastFetch, beats)
    }

    ghost function B(): P.Board
      reads this, dataRam, fetcher, fracFetcher, music
    {
      P.Board(flash, driverRam, Regs(), bank, ldaPending, parameters)
    }

    ghost predicate Valid()
      reads this, dataRam, fetcher, fracFetcher, music
    {
      B().Valid()
    }

    constructor (rom: seq<u8>)
      requires P.Accepts(|rom|)
      ensures Valid() && fresh(dataRam) && fresh(fetcher) && fresh(fracFetcher) && fresh(music)
      ensures B() == P.New(rom)
    {
      var split := P.Split(rom);
      flash, driverRam, freqRam := split, split.driver, split.freq;
      dataRam := new u8[P.DATA_SIZE](k requires 0 <= k < P.DATA_SIZE => split.data[k]);
      fetcher := new P.Fetcher[8](_ => P.Fetcher(0, 0, 0, 0));
      fracFetcher := new P.Fractional[8](_ => P.Fractional(0, 0, 0, 0));
      music := new P.Music[3](_ => P.Music(0, 0, 0));
      rng, fastFetch, beats := P.SEED, false, 0;
      bank, ldaPending, parameters := 0, false, [];
      new;
      T.NewIsValid(rom);
      assert dataRam[..] == split.data;
      assert fetcher[..] == P.New(rom).regs.fetchers && fracFetcher[..] == P.New(rom).regs.fractionals;
      assert music[..] == P.New(rom).regs.music;
    }

    method ReadRegister(a: nat) returns (v: u8)
      requires Valid()
      modifies this`rng, fetcher, fracFetcher
      ensures Valid() && (Regs(), v) == P.ReadRegister(old(Regs()), a) && B() == old(B()).(regs := Regs())
    {
      hide P.Next, P.Prev, P.NoiseByte, P.Fetcher.Inc, P.Fractional.Inc;
      T.ReadKeepsValid(Regs(), a);
      ghost var s := Regs();
      v := 0;
      var i := a % 8;
      if a == 0x00 {
        rng := P.Next(rng);
        v := P.NoiseByte(rng, 0);
      } else if a == 0x01 {
        rng := P.Prev(rng);
        v := P.NoiseByte(rng, 0);
      } else if 0x02 <= a <= 0x04 {
        v := P.NoiseByte(rng, a - 1);
      } else if a == 0x05 {
        v := MusicSum();
      } else if 0x08 <= a <= 0x0F {
        v := dataRam[fetcher[i].Addr()];
        fetcher[i] := fetcher[i].Inc();
      } else if 0x10 <= a <= 0x17 {
        if fetcher[i].InWindow() {
          v := dataRam[fetcher[i].Addr()];
        }
        fetcher[i] := fetcher[i].Inc();
      } else if 0x18 <= a <= 0x1F {
        v := dataRam[fracFetcher[i].Addr()];
        fracFetcher[i] := fracFetcher[i].Inc();
      } else if 0x20 <= a <= 0x23 {
        v := if fetcher[i].InWindow() then 0xFF else 0x00;
      }
    }

    method MusicSum() returns (sum: u8)
      requires Valid()
      ensures sum == P.MusicSum(Regs())
    {
      hide P.MusicSample, Add8;
      sum := 0;
      ghost var s := Regs();
      for k := 0 to 3
        invariant sum == PartialSum(s, k)
      {
        var idx := music[k].waveform * 32 + music[k].count / 0x800_0000;
        MusicSampleIs(s, k);
        sum := Add8(sum, dataRam[idx % P.DATA_SIZE]);
      }
      SumOfThree(s);
    }

    static ghost function PartialSum(s: P.Registers, k: nat): u8
      requires s.Valid() && k <= 3
    {
      if k == 0 then 0 else Add8(PartialSum(s, k - 1), P.MusicSample(s, k - 1))
    }

    static lemma MusicSampleIs(s: P.Registers, k: nat)
      requires s.Valid() && k < 3
      ensures P.MusicSample(s, k) == s.data[(s.music[k].waveform * 32 + s.music[k].count / 0x800_0000) % P.DATA_SIZE]
    {
    }

    static lemma SumOfThree(s: P.Registers)
      requires s.Valid()
      ensures PartialSum(s, 3) == P.MusicSum(s)
    {
      hide P.MusicSample;
      AddThree(P.MusicSample(s, 0), P.MusicSample(s, 1), P.MusicSample(s, 2));
      assert PartialSum(s, 1) == Add8(0, P.MusicSample(s, 0));
      assert PartialSum(s, 2) == Add8(PartialSum(s, 1), P.MusicSample(s, 1));
    }

    /** The bank hotspots; a hit consumes the access. */
    method Hotspot(addr: u16) returns (hit: bool)
      requires Valid()
      modifies this`bank
      ensures Valid() && hit == P.IsHotspot(addr)
      ensures B() == if hit then P.Switched(old(B()), addr) else old(B())
    {
      var a := addr % 0x2000;
      hit := 0x1FF6 <= a <= 0x1FFB;
      if hit {
        bank := a - 0x1FF6;
      }
    }

    method CpuRead(addr: u16) returns (v: u8)
      requires Valid()
      modifies this`bank, this`rng, this`ldaPending, fetcher, fracFetcher
      ensures Valid() && (B(), v) == P.CpuRead(old(B()), addr)
    {
      hide P.ReadRegister, P.Registers.Valid;
      var hit := Hotspot(addr);
      if hit {
        return 0;
      }
      var a := addr % 0x1000;
      if a >= 0x80 {
        var data := P.Get(flash.custom, bank * P.BANK_SIZE + a);
        if fastFetch && ldaPending && data < 0x28 {
          ldaPending := false;
          v := ReadRegister(data);
          return;
        }
        ldaPending := fastFetch && data == 0xA9;
        return data;
      }
      v := ReadRegister(a);
    }

    /** Service 1: bytes of the data ROM to the memory a fetcher points at. */
    method Copy(src: nat, base: nat, count: u8)
      requires Valid()
      modifies dataRam
      ensures Valid() && dataRam[..] == P.Copied(old(dataRam[..]), flash.data, src, base, count)
    {
      for i := 0 to count
        invariant dataRam[..] == P.Copied(old(dataRam[..]), flash.data, src, base, i)
      {
        if src + i < |flash.data| {
          dataRam[(base + i) % P.DATA_SIZE] := flash.data[src + i];
        }
      }
    }

    /** Service 2: one value, both bytes of the pointer advancing. */
    method Fill(f: P.Fetcher, val: u8, count: u8)
      requires Valid()
      modifies dataRam
      ensures Valid() && dataRam[..] == P.Filled(old(dataRam[..]), f, val, count)
    {
      for i := 0 to count
        invariant dataRam[..] == P.Filled(old(dataRam[..]), f, val, i)
      {
        dataRam[Word(Add8(f.low, i), Add8(f.hi, i)) % P.DATA_SIZE] := val;
      }
    }

    /** Every segment the ARM maps, the ROM ones included, holds what its program left there. */
    method RunArm(arm: Arm)
      requires Valid()
      modifies this`flash, this`driverRam, this`freqRam, dataRam
      ensures Valid() && B() == P.ArmRan(old(B()), arm)
    {
      ghost var b := B();
      flash := P.Flash(Left(arm, 0, flash.driver), Left(arm, 1, flash.custom), Left(arm, 2, flash.data),
                       Left(arm, 3, flash.freq));
      driverRam, freqRam := Left(arm, 4, driverRam), Left(arm, 6, freqRam);
      forall i | 0 <= i < dataRam.Length {
        dataRam[i] := arm(5, i);
      }
      assert dataRam[..] == Left(arm, 5, b.regs.data);
    }

    /** The service codes of `$5A`. */
    method DispatchFunctionCall(code: u8, arm: Arm)
      requires Valid()
      modifies this`flash, this`driverRam, this`freqRam, this`parameters, dataRam
      ensures Valid() && B() == P.Serve(old(B()), code, arm)
    {
      hide P.Copied, P.Filled, P.Fetcher.Addr, P.ArmRan, Left;
      if code <= 2 {
        if code != 0 && |parameters| == 4 {
          var f, count := fetcher[parameters[2] % 8], parameters[3];
          if code == 1 {
            var addr := Word(parameters[0], parameters[1]);
            Copy(Max(addr, |flash.custom|) - |flash.custom|, f.Addr(), count);
          } else {
            Fill(f, parameters[0], count);
          }
        }
        parameters := [];
      } else if code >= 254 {
        RunArm(arm);
      }
    }

    /** `arm` is what the coprocessor leaves behind, should the write start it. */
    method CpuWrite(addr: u16, val: u8, arm: Arm)
      requires Valid()
      modifies this, dataRam, fetcher, fracFetcher, music
      ensures Valid() && B() == P.CpuWrite(old(B()), addr, val, arm)
    {
      hide P.RegisterWritten, P.Registers.Valid;
      var hit := Hotspot(addr);
      if hit {
        return;
      }
      var a := addr % 0x1000;
      if 0x28 <= a <= 0x7F {
        WriteRegister(a, val, arm);
      }
    }

    /** A parameter byte, a service call, or a write that concerns the registers alone. */
    method WriteRegister(a: nat, val: u8, arm: Arm)
      requires Valid()
      modifies this, dataRam, fetcher, fracFetcher, music
      ensures Valid() && B() == P.RegisterWritten(old(B()), a, val, arm)
    {
      hide P.WriteRegister, P.Serve, P.Registers.Valid;
      if a == 0x59 {
        if |parameters| < 4 {
          parameters := parameters + [val];
        }
      } else if a == 0x5A {
        DispatchFunctionCall(val, arm);
      } else {
        SetRegister(a, val);
      }
    }

    /** The arms that concern fetchers, music, noise and data. */
    method SetRegister(a: nat, val: u8)
      requires Valid()
      modifies this`rng, this`fastFetch, dataRam, fetcher, fracFetcher, music
      ensures Valid() && B() == old(B()).(regs := P.WriteRegister(old(Regs()), a, val))
    {
      hide P.WithNoiseByte, P.Fetcher.Inc, P.Fetcher.Dec, P.Frequency;
      T.RegisterWriteKeepsValid(Regs(), a, val);
      var i := a % 8;
      if 0x28 <= a <= 0x2F {
        fracFetcher[i] := fracFetcher[i].(low := val, count := 0);
      } else if 0x30 <= a <= 0x37 {
        fracFetcher[i] := fracFetcher[i].(hi := val % 0x10);
      } else if 0x38 <= a <= 0x3F {
        fracFetcher[i] := fracFetcher[i].(increment := val, count := 0);
      } else if 0x40 <= a <= 0x47 {
        fetcher[i] := fetcher[i].(top := val);
      } else if 0x48 <= a <= 0x4F {
        fetcher[i] := fetcher[i].(bottom := val);
      } else if 0x50 <= a <= 0x57 {
        fetcher[i] := fetcher[i].(low := val);
      } else if a == 0x58 {
        fastFetch := val == 0;
      } else if 0x5D <= a <= 0x5F {
        music[a - 0x5D] := music[a - 0x5D].(waveform := val % 0x80);
      } else if 0x60 <= a <= 0x67 {
        fetcher[i] := fetcher[i].Dec();
        dataRam[fetcher[i].Addr()] := val;
      } else if 0x68 <= a <= 0x6F {
        fetcher[i] := fetcher[i].(hi := val);
      } else if a == 0x70 {
        rng := P.SEED;
      } else if 0x71 <= a <= 0x74 {
        rng := P.WithNoiseByte(rng, a - 0x71, val);
      } else if 0x75 <= a <= 0x77 {
        music[a - 0x75] := music[a - 0x75].(freq := P.Frequency(freqRam, val));
      } else if 0x78 <= a <= 0x7F {
        dataRam[fetcher[i].Addr()] := val;
        fetcher[i] := fetcher[i].Inc();
      }
    }

    method Tick()
      requires Valid()
      modifies this`beats, music
      ensures Valid() && B() == old(B()).(regs := P.Tick(old(Regs())))
    {
      beats := Add32(beats, 1);
      if beats % 59 == 0 {
        beats := 0;
        ghost var before := music[..];
        for k := 0 to 3
          modifies music
          invariant forall j | 0 <= j < 3 :: music[j] == if j < k then P.Advanced(before[j]) else before[j]
        {
          music[k] := music[k].(count := Add32(music[k].count, music[k].freq));
        }
        assert music[..] == P.Tick(old(Regs())).music;
      }
    }
  }
}
