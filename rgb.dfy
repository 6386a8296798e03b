/**
 * The 64-entry NES master palette (nes/src/ppu/rgb.rs) and the lookup the
 * PPU makes for every pixel, which panics on a palette byte of 0x40 or more.
 */
module PpuColors {
  import opened Types

  datatype Rgb = Rgb(r: u8, g: u8, b: u8)

  const BLACK := Rgb(0, 0, 0)

  /** Palette indices 0x00-0x0F. */
  const DARK: seq<Rgb> := [
    Rgb(84, 84, 84), Rgb(0, 30, 116), Rgb(8, 16, 144), Rgb(48, 0, 136),
    Rgb(68, 0, 100), Rgb(92, 0, 48), Rgb(84, 4, 0), Rgb(60, 24, 0),
    Rgb(32, 42, 0), Rgb(8, 58, 0), Rgb(0, 64, 0), Rgb(0, 60, 0),
    Rgb(0, 50, 60), Rgb(0, 0, 0), Rgb(0, 0, 0), Rgb(0, 0, 0)
  ]

  /** Palette indices 0x10-0x1F. */
  const MEDIUM: seq<Rgb> := [
    Rgb(152, 150, 152), Rgb(8, 76, 196), Rgb(48, 50, 236), Rgb(92, 30, 228),
    Rgb(136, 20, 176), Rgb(160, 20, 100), Rgb(152, 34, 32), Rgb(120, 60, 0),
    Rgb(84, 90, 0), Rgb(40, 114, 0), Rgb(8, 124, 0), Rgb(0, 118, 40),
    Rgb(0, 102, 120), Rgb(0, 0, 0), Rgb(0, 0, 0), Rgb(0, 0, 0)
  ]

  /** Palette indices 0x20-0x2F. */
  const LIGHT: seq<Rgb> := [
    Rgb(236, 238, 236), Rgb(76, 154, 236), Rgb(120, 124, 236), Rgb(176, 98, 236),
    Rgb(228, 84, 236), Rgb(236, 88, 180), Rgb(236, 106, 100), Rgb(212, 136, 32),
    Rgb(160, 170, 0), Rgb(116, 196, 0), Rgb(76, 208, 32), Rgb(56, 204, 108),
    Rgb(56, 180, 204), Rgb(60, 60, 60), Rgb(0, 0, 0), Rgb(0, 0, 0)
  ]

  /** Palette indices 0x30-0x3F. */
  const PALE: seq<Rgb> := [
    Rgb(255, 255, 255), Rgb(168, 204, 236), Rgb(188, 188, 236), Rgb(212, 178, 236),
    Rgb(236, 174, 236), Rgb(236, 174, 212), Rgb(236, 180, 176), Rgb(228, 196, 144),
    Rgb(204, 210, 120), Rgb(180, 222, 120), Rgb(168, 226, 144), Rgb(152, 226, 180),
    Rgb(160, 214, 228), Rgb(160, 162, 160), Rgb(0, 0, 0), Rgb(0, 0, 0)
  ]

  /** COLORS: the RGB value of each of the 64 palette indices, four rows of sixteen. */
  const COLORS: seq<Rgb> := DARK + MEDIUM + LIGHT + PALE

  /** from_byte: the table entry for indices below 0x40; None where the source panics. */
  function FromByte(byte: u8): (r: Option<Rgb>)
    ensures r.Some? <==> byte < 0x40
    ensures r.Some? ==> r.value == COLORS[byte]
  {
    if byte >= 0x40 then None else Some(COLORS[byte])
  }

  /** The table has exactly 0x40 entries: grey at 0x00, black at 0x0D-0x0F, white at 0x30. */
  lemma ColorsLandmarks()
    ensures |COLORS| == 0x40
    ensures COLORS[0x00] == Rgb(84, 84, 84)
    ensures COLORS[0x0D] == BLACK && COLORS[0x0E] == BLACK && COLORS[0x0F] == BLACK
    ensures COLORS[0x30] == Rgb(255, 255, 255)
  {
  }
}
