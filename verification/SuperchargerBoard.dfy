/** The Supercharger board and the bus around it, updated in place. */
module SuperchargerBoard {
  import opened SuperchargerBios
  import opened Words
  import S = Supercharger

  class BankAr {
    const image: array<u8>
    const loadImages: seq<u8>
    var imageOffset0: nat
    var imageOffset1: nat
    var writeEnabled: bool
    var power: bool
    var currentBank: u8
    var dataHoldRegister: u8
    var distinctAccessCount: u32
    var accessesAtHold: u32
    var writePending: bool
    var lastZp80: u8
    var pendingOobPokes: seq<(u16, u8)>

    ghost function L(): S.Latch
      reads this
    {
      S.Latch(imageOffset0, imageOffset1, writeEnabled, power, currentBank, dataHoldRegister,
              distinctAccessCount, accessesAtHold, writePending)
    }

    ghost function B(): S.Board
      reads this, image
    {
      S.Board(L(), image[..], loadImages, lastZp80, pendingOobPokes)
    }

    ghost predicate Valid()
      reads this, image
    {
      B().Valid() && image.Length == S.IMAGE
    }

    constructor (rom: seq<u8>)
      requires S.ValidLoads(rom)
      ensures Valid() && fresh(image) && B() == S.Fresh(rom)
    {
      hide Bios;
      var bios := Bios(0x00, 0x00);
      image := new u8[S.IMAGE](k => if 0 <= k < S.RAM then 0 else if S.RAM <= k < S.IMAGE then bios[k - S.RAM] else 0);
      loadImages := rom;
      writeEnabled, power, dataHoldRegister := false, true, 0;
      distinctAccessCount, accessesAtHold, writePending, currentBank := 0, 0, false, 0;
      imageOffset0, imageOffset1 := 0, 0;
      lastZp80, pendingOobPokes := 0, [];
      new;
      BankConfiguration(0);
      assert image[..] == seq(S.RAM, i => 0 as u8) + bios;
    }

    method BankConfiguration(configuration: u8)
      modifies this
      ensures L() == S.Configure(old(L()), configuration)
      ensures lastZp80 == old(lastZp80) && pendingOobPokes == old(pendingOobPokes)
    {
      var bankConfig := configuration / 4 % 8;
      currentBank := configuration % 0x20;
      power := configuration % 2 == 0;
      writeEnabled := configuration / 2 % 2 == 1;
      imageOffset0, imageOffset1 := S.OFFSET_0[bankConfig], S.OFFSET_1[bankConfig];
    }

    method NoteAccess()
      requires Valid()
      modifies this`distinctAccessCount, this`writePending
      ensures Valid() && B() == S.Noted(old(B()))
    {
      S.NoteKeepsValid(L());
      distinctAccessCount := Add32(distinctAccessCount, 1);
      if writePending && distinctAccessCount > Add32(accessesAtHold, 5) {
        writePending := false;
      }
    }

    method HandleHotspot(addr: u16) returns (written: bool)
      requires Valid()
      modifies this, image
      ensures Valid() && B() == S.HandleHotspot(old(B()), addr) && written == S.Stores(old(L()), addr)
    {
      hide S.Configure, S.InHoldPage;
      S.IndexInRange(L(), addr);
      S.HandleKeepsValid(L(), addr);
      written := false;
      if S.InHoldPage(addr) && (!writeEnabled || !writePending) {
        dataHoldRegister := addr % 0x100;
        accessesAtHold := distinctAccessCount;
        writePending := true;
      } else if addr == S.CONFIG {
        writePending := false;
        BankConfiguration(dataHoldRegister);
      } else if writeEnabled && writePending && distinctAccessCount == Add32(accessesAtHold, 5) {
        if addr / 0x800 % 2 == 0 {
          image[addr % 0x800 + imageOffset0] := dataHoldRegister;
          written := true;
        } else if imageOffset1 != S.RAM {
          image[addr % 0x800 + imageOffset1] := dataHoldRegister;
          written := true;
        }
        writePending := false;
      }
    }

    /** The page-copy loop of one load. */
    method CopyLoadPages(load: nat)
      requires Valid() && load < S.NumLoads(loadImages)
      modifies image
      ensures Valid()
      ensures image[..] == S.CopyPages(old(image[..]), loadImages, load, S.PageCount(loadImages, load))
    {
      var numPages := S.PageCount(loadImages, load);
      ghost var before := image[..];
      for j := 0 to numPages
        invariant image[..] == S.CopyPages(before, loadImages, load, j)
      {
        hide S.CopyPages, S.SourcePage, S.PageTarget, S.TargetsRam;
        var mapByte := S.MapByte(loadImages, load, j);
        NextPage(before, load, j);
        if S.TargetsRam(mapByte) {
          S.TargetInRam(mapByte);
          var src, dst := S.SourcePage(loadImages, load, j), S.PageTarget(mapByte);
          ghost var was := image[..];
          forall k | 0 <= k < S.PAGE {
            image[dst + k] := src[k];
          }
          assert image[..] == S.Overwrite(was, dst, src);
        }
      }
    }

    lemma NextPage(before: seq<u8>, load: nat, j: nat)
      requires |before| == S.IMAGE && S.ValidLoads(loadImages) && load < S.NumLoads(loadImages) && j < 24
      ensures var mapByte, was := S.MapByte(loadImages, load, j), S.CopyPages(before, loadImages, load, j);
        S.CopyPages(before, loadImages, load, j + 1)
        == if S.TargetsRam(mapByte)
           then (S.TargetInRam(mapByte); S.Overwrite(was, S.PageTarget(mapByte), S.SourcePage(loadImages, load, j)))
           else was
    {
    }

    method LoadIntoRam(load: u8)
      requires Valid()
      modifies this`pendingOobPokes, image
      ensures Valid() && B() == S.LoadIntoRam(old(B()), load)
    {
      hide S.CopyPages, S.PageCount, S.Latch.Valid;
      for i := 0 to S.NumLoads(loadImages)
        invariant B() == old(B())
        invariant S.FindLoad(loadImages, load, 0) == S.FindLoad(loadImages, load, i)
      {
        S.LoadInRange(loadImages, i);
        if loadImages[S.HeaderAt(i) + 5] == load {
          CopyLoadPages(i);
          pendingOobPokes := pendingOobPokes + S.StagedPokes(loadImages, i);
          return;
        }
      }
    }

    function ImageIndex(addr: u16): nat
      reads this
    {
      if addr / 0x800 % 2 == 1 then addr % 0x800 + imageOffset1 else addr % 0x800 + imageOffset0
    }

    method CpuRead(addr: u16) returns (v: u8)
      requires Valid()
      modifies this, image
      ensures Valid() && (B(), v) == S.CpuRead(old(B()), addr)
    {
      hide S.Noted, S.LoadIntoRam, S.HandleHotspot;
      ghost var b := B();
      NoteAccess();
      NotedOnly(b);
      if addr == S.LOAD_HOTSPOT && imageOffset1 == S.RAM {
        var load := lastZp80;
        LoadIntoRam(load);
      }
      var _ := HandleHotspot(addr);
      S.IndexInRange(L(), addr);
      v := image[ImageIndex(addr)];
    }

    lemma NotedOnly(b: S.Board)
      ensures var n := S.Noted(b); n.zp80 == b.zp80 && n == b.(latch := S.Note(b.latch))
    {
    }

    method CpuWrite(addr: u16, val: u8)
      requires Valid()
      modifies this, image
      ensures Valid() && B() == S.CpuWrite(old(B()), addr)
    {
      hide S.Noted, S.HandleHotspot;
      NoteAccess();
      var _ := HandleHotspot(addr);
    }

    method SnoopRead(addr: u16, val: u8)
      requires Valid()
      modifies this
      ensures Valid() && B() == S.Snoop(old(B()), addr, val)
    {
      NoteAccess();
      if addr == 0x0080 {
        lastZp80 := val;
      }
    }

    method SnoopWrite(addr: u16, val: u8)
      requires Valid()
      modifies this
      ensures Valid() && B() == S.Snoop(old(B()), addr, val)
    {
      NoteAccess();
      if addr == 0x0080 {
        lastZp80 := val;
      }
    }

    method TakeOobPokes() returns (pokes: seq<(u16, u8)>)
      requires Valid()
      modifies this`pendingOobPokes
      ensures Valid() && pokes == old(pendingOobPokes) && B() == old(B()).(pokes := [])
    {
      pokes := pendingOobPokes;
      pendingOobPokes := [];
    }
  }

  /** The bus with a Supercharger plugged in. `io` stands for what the TIA and the RIOT ports answer. */
  class Bus {
    const board: BankAr
    const riotRam: array<u8>
    var openBus: u8

    ghost function C(): S.Console
      reads this, board, board.image, riotRam
    {
      S.Console(board.B(), riotRam[..], openBus)
    }

    ghost predicate Valid()
      reads this, board, board.image, riotRam
    {
      board.Valid() && C().Valid() && riotRam.Length == 128 && riotRam != board.image
    }

    constructor (board: BankAr)
      requires board.Valid() && board.pendingOobPokes == []
      ensures Valid() && fresh(riotRam) && this.board == board && C().board == old(board.B())
    {
      this.board := board;
      riotRam := new u8[128](_ => 0);
      openBus := 0;
    }

    method CpuRead(fullAddr: u16, io: u8) returns (val: u8)
      requires Valid()
      modifies this, board, board.image, riotRam
      ensures Valid() && (C(), val) == S.Access1(old(C()), S.Read(fullAddr, io))
    {
      hide S.CpuRead, S.Snoop, S.ApplyPokes;
      ghost var s := C();
      S.AccessKeepsValid(s, S.Read(fullAddr, io));
      var addr := fullAddr % 0x2000;
      if addr >= 0x1000 {
        val := board.CpuRead(addr);
        ApplyOobPokes();
      } else {
        val := if S.IsRiotRam(addr) then riotRam[addr % 0x80] else io;
        board.SnoopRead(addr, val);
      }
      openBus := val;
    }

    method CpuWrite(fullAddr: u16, val: u8)
      requires Valid()
      modifies this, board, board.image, riotRam
      ensures Valid() && C() == S.Access1(old(C()), S.Write(fullAddr, val)).0
    {
      hide S.CpuWrite, S.Snoop, S.ApplyPokes;
      ghost var s := C();
      S.AccessKeepsValid(s, S.Write(fullAddr, val));
      var addr := fullAddr % 0x2000;
      openBus := val;
      if addr >= 0x1000 {
        board.CpuWrite(addr, val);
        ApplyOobPokes();
      } else {
        board.SnoopWrite(addr, val);
        if S.IsRiotRam(addr) {
          riotRam[addr % 0x80] := val;
        }
      }
    }

    method ApplyOobPokes()
      requires board.Valid() && riotRam.Length == 128 && riotRam != board.image
      modifies board`pendingOobPokes, riotRam
      ensures board.Valid() && board.B() == old(board.B()).(pokes := [])
      ensures riotRam[..] == S.ApplyPokes(old(riotRam[..]), old(board.pendingOobPokes))
    {
      var pokes := board.TakeOobPokes();
      ghost var before := riotRam[..];
      assert pokes[..0] == [];
      for i := 0 to |pokes|
        invariant riotRam[..] == S.ApplyPokes(before, pokes[..i])
        invariant board.B() == old(board.B()).(pokes := [])
      {
        var (addr, val) := pokes[i];
        assert pokes[..i + 1][..i] == pokes[..i];
        riotRam[addr % 0x80] := val;
      }
      assert pokes[..|pokes|] == pokes;
    }
  }
}
