/** The stand-in BIOS synthesized into the Supercharger's ROM bank. */
module SuperchargerBios {
  import opened Words

  const BIOS_SIZE: nat := 0x800
  const CODE_SIZE: nat := 294
  const PART: nat := 42

  /** The stub in seven equal parts. */
  function Part(k: nat): (r: seq<u8>)
    ensures |r| == PART
  {
    match k
    case 0 =>
      [0xA5, 0xFA, 0x85, 0x80, 0x4C, 0x18, 0xF8, 0xFF, 0xFF, 0xFF, 0x78, 0xD8, 0xA0, 0x00,
       0xA2, 0x00, 0x94, 0x00, 0xE8, 0xD0, 0xFB, 0x4C, 0x50, 0xF8, 0xA2, 0x00, 0xBD, 0x06,
       0xF0, 0xAD, 0xF8, 0xFF, 0xA2, 0x00, 0xAD, 0x00, 0xF0, 0xEA, 0xBD, 0x00, 0xF7, 0xCA]
    case 1 =>
      [0xD0, 0xF6, 0x4C, 0x50, 0xF8, 0xFF, 0xFF, 0xFF, 0xFF, 0xFF, 0xFF, 0xFF, 0xFF, 0xFF,
       0xFF, 0xFF, 0xFF, 0xFF, 0xFF, 0xFF, 0xFF, 0xFF, 0xFF, 0xFF, 0xFF, 0xFF, 0xFF, 0xFF,
       0xFF, 0xFF, 0xFF, 0xFF, 0xFF, 0xFF, 0xFF, 0xFF, 0xFF, 0xFF, 0xA2, 0x03, 0xBC, 0x22]
    case 2 =>
      [0xF9, 0x94, 0xFA, 0xCA, 0x10, 0xF8, 0xA0, 0x00, 0xA2, 0x28, 0x94, 0x04, 0xCA, 0x10,
       0xFB, 0xA2, 0x1C, 0x94, 0x81, 0xCA, 0x10, 0xFB, 0xA9, 0xFF, 0xC9, 0x00, 0xD0, 0x03,
       0x4C, 0x13, 0xF9, 0xA9, 0x00, 0x85, 0x1B, 0x85, 0x1C, 0x85, 0x1D, 0x85, 0x1E, 0x85]
    case 3 =>
      [0x1F, 0x85, 0x19, 0x85, 0x1A, 0x85, 0x08, 0x85, 0x01, 0xA9, 0x10, 0x85, 0x21, 0x85,
       0x02, 0xA2, 0x07, 0xCA, 0xCA, 0xD0, 0xFD, 0xA9, 0x00, 0x85, 0x20, 0x85, 0x10, 0x85,
       0x11, 0x85, 0x02, 0x85, 0x2A, 0xA9, 0x05, 0x85, 0x0A, 0xA9, 0xFF, 0x85, 0x0D, 0x85]
    case 4 =>
      [0x0E, 0x85, 0x0F, 0x85, 0x84, 0x85, 0x85, 0xA9, 0xF0, 0x85, 0x83, 0xA9, 0x74, 0x85,
       0x09, 0xA9, 0x0C, 0x85, 0x15, 0xA9, 0x1F, 0x85, 0x17, 0x85, 0x82, 0xA9, 0x07, 0x85,
       0x19, 0xA2, 0x08, 0xA0, 0x00, 0x85, 0x02, 0x88, 0xD0, 0xFB, 0x85, 0x02, 0x85, 0x02]
    case 5 =>
      [0xA9, 0x02, 0x85, 0x02, 0x85, 0x00, 0x85, 0x02, 0x85, 0x02, 0x85, 0x02, 0xA9, 0x00,
       0x85, 0x00, 0xCA, 0x10, 0xE4, 0x06, 0x83, 0x66, 0x84, 0x26, 0x85, 0xA5, 0x83, 0x85,
       0x0D, 0xA5, 0x84, 0x85, 0x0E, 0xA5, 0x85, 0x85, 0x0F, 0xA6, 0x82, 0xCA, 0x86, 0x82]
    case _ =>
      [0x86, 0x17, 0xE0, 0x0A, 0xD0, 0xC3, 0xA9, 0x02, 0x85, 0x01, 0xA2, 0x1C, 0xA0, 0x00,
       0x84, 0x19, 0x84, 0x09, 0x94, 0x81, 0xCA, 0x10, 0xFB, 0xA6, 0x80, 0xDD, 0x00, 0xF0,
       0xA9, 0x9A, 0xA2, 0xFF, 0xA0, 0x00, 0x9A, 0x4C, 0xFA, 0x00, 0xCD, 0xF8, 0xFF, 0x4C]
  }

  /** The stub with its two patches: whether to skip the progress bars, and the accumulator it leaves. */
  function Code(skip: u8, exit: u8): (r: seq<u8>)
    ensures |r| == CODE_SIZE
  {
    hide Part;
    (Part(0) + Part(1) + Part(2) + Part(3) + Part(4) + Part(5) + Part(6))[109 := skip][281 := exit]
  }

  const ENTRY: seq<u8> := [0x0A, 0xF8]

  /** The code, and a jamming opcode up to the vectors. */
  function Body(skip: u8, exit: u8): (r: seq<u8>)
    ensures |r| == BIOS_SIZE - 4
  {
    hide Code;
    Code(skip, exit) + seq(BIOS_SIZE - 4 - CODE_SIZE, i => 0x02 as u8)
  }

  /** Reset and interrupt vectors at the end, both to $F80A. */
  function Bios(skip: u8, exit: u8): (r: seq<u8>)
    ensures |r| == BIOS_SIZE
    ensures r[BIOS_SIZE - 4..BIOS_SIZE - 2] == ENTRY == r[BIOS_SIZE - 2..]
  {
    hide Body;
    Body(skip, exit) + ENTRY + ENTRY
  }
}
