/**
 * Loading an iNES image (nes/src/rom.rs): a 16-byte header whose first four
 * bytes must be "NES" 0x1A, then prg_rom_size 16 KiB units of PRG-ROM and
 * chr_rom_size 8 KiB units of CHR-ROM, each read with `read_to_buf`.
 *
 * The byte source (`std::io::Read`) is a parameter: a `Reader` delivers its
 * remaining stream in pieces whose sizes, and any I/O failure, come from a
 * `plan` fixed in advance.
 */
module Rom {
  import opened Types
  import opened Bytes

  const HEADER_LEN: nat := 16
  const PRG_BANK_LEN: nat := 16384
  const CHR_BANK_LEN: nat := 8192

  /** The magic number "NES" 0x1A. */
  const MAGIC: seq<u8> := [0x4E, 0x45, 0x53, 0x1A]

  datatype RomLoadError = IoError | FormatError

  datatype RomRegion = Pal | Ntsc

  datatype INesHeader = INesHeader(
    magic: seq<u8>, prgRomSize: u8, chrRomSize: u8, flags6: u8, flags7: u8,
    prgRamSize: u8, flags9: u8, flags10: u8, zero: seq<u8>)

  datatype Rom = Rom(header: INesHeader, prg: seq<u8>, chr: seq<u8>)

  datatype Result<T> = Ok(value: T) | Err(error: RomLoadError)

  /** ines_mapper: the high nibble of flags 6, the low nibble of the mapper number. */
  function InesMapper(h: INesHeader): (r: u8)
    ensures r < 16
  {
    h.flags6 >> 4
  }

  /** trainer: bit 2 of flags 6. */
  predicate Trainer(h: INesHeader) {
    h.flags6 & 0x04 != 0
  }

  /** region: PAL when bit 0 of flags 9 is set. */
  function Region(h: INesHeader): RomRegion {
    if h.flags9 & 1 == 1 then Pal else Ntsc
  }

  /**
   * mapper() as written: flags 7 is multiplied by 0xF0 in u8 arithmetic, which
   * overflows (a panic in a debug build) for flags 7 of 2 and above; None there.
   */
  function MapperAsWritten(h: INesHeader): Option<u8> {
    if h.flags7 as int * 0xF0 >= 0x100 then None
    else Some((h.flags7 * 0xF0) | (h.flags6 >> 4))
  }

  /** The mapper number the header format defines: high nibble from flags 7, low nibble from flags 6. */
  function Mapper(h: INesHeader): u8 {
    (h.flags7 & 0xF0) | (h.flags6 >> 4)
  }

  /** The mapper number joins the two nibbles, and agrees with ines_mapper in its low nibble. */
  lemma MapperNibbles(h: INesHeader)
    ensures Mapper(h) >> 4 == h.flags7 >> 4
    ensures Mapper(h) & 0x0F == InesMapper(h)
  {
  }

  /** A header whose flags 7 carry mapper high nibble 1 breaks mapper() as written. */
  lemma MapperAsWrittenOverflows()
    ensures var h := INesHeader(MAGIC, 1, 1, 0x00, 0x10, 0, 0, 0, [0, 0, 0, 0, 0]);
      MapperAsWritten(h).None? && Mapper(h) == 0x10
  {
  }

  /** Even flags 7 = 1 (a VS Unisystem cartridge, mapper 0) reads as mapper 0xF0 as written. */
  lemma MapperAsWrittenMisreadsFlag()
    ensures var h := INesHeader(MAGIC, 1, 1, 0x00, 0x01, 0, 0, 0, [0, 0, 0, 0, 0]);
      MapperAsWritten(h) == Some(0xF0) && Mapper(h) == 0
  {
  }

  /** The header built from the first 16 bytes: bytes 0-10 verbatim, `zero` always five zeros. */
  function HeaderOf(bytes: seq<u8>): (h: INesHeader)
    requires |bytes| >= HEADER_LEN
  {
    INesHeader(bytes[0..4], bytes[4], bytes[5], bytes[6], bytes[7], bytes[8], bytes[9], bytes[10],
      [0, 0, 0, 0, 0])
  }

  /** The PRG-ROM size in bytes: prg_rom_size units of 16 KiB. */
  function PrgBytes(h: INesHeader): nat {
    h.prgRomSize as nat * PRG_BANK_LEN
  }

  /** The CHR-ROM size in bytes: chr_rom_size units of 8 KiB. */
  function ChrBytes(h: INesHeader): nat {
    h.chrRomSize as nat * CHR_BANK_LEN
  }

  /**
   * What from_path yields when every read succeeds: the header, the magic
   * check, then PRG and CHR in that order; a stream that ends early is an I/O error.
   */
  function ParseRom(stream: seq<u8>): Result<Rom> {
    if |stream| < HEADER_LEN then Err(IoError)
    else
      var h := HeaderOf(stream);
      if h.magic != MAGIC then Err(FormatError)
      else
        var prgEnd := HEADER_LEN + PrgBytes(h);
        var chrEnd := prgEnd + ChrBytes(h);
        if |stream| < prgEnd then Err(IoError)
        else if |stream| < chrEnd then Err(IoError)
        else Ok(Rom(h, stream[HEADER_LEN..prgEnd], stream[prgEnd..chrEnd]))
  }

  /** A parsed ROM has exactly the declared sizes, taken in order right after the header. */
  lemma ParseRomLayout(stream: seq<u8>)
    requires ParseRom(stream).Ok?
    ensures ParseRom(stream).value.header == HeaderOf(stream)
    ensures ParseRom(stream).value.header.magic == MAGIC
    ensures ParseRom(stream).value.prg == stream[HEADER_LEN..HEADER_LEN + PrgBytes(HeaderOf(stream))]
    ensures ParseRom(stream).value.chr ==
      stream[HEADER_LEN + PrgBytes(HeaderOf(stream))..HEADER_LEN + PrgBytes(HeaderOf(stream)) + ChrBytes(HeaderOf(stream))]
  {
  }

  /** Parsing fails with FormatError exactly when a full header does not start with the magic number. */
  lemma ParseRomFormatError(stream: seq<u8>)
    ensures ParseRom(stream) == Err(FormatError) <==> |stream| >= HEADER_LEN && stream[..4] != MAGIC
  {
  }

  /** Parsing succeeds exactly when the magic matches and the stream holds every declared byte. */
  lemma ParseRomSucceeds(stream: seq<u8>)
    ensures ParseRom(stream).Ok? <==>
      && |stream| >= HEADER_LEN && stream[..4] == MAGIC
      && |stream| >= HEADER_LEN + PrgBytes(HeaderOf(stream)) + ChrBytes(HeaderOf(stream))
  {
  }

  /** One step of a reader's plan: deliver at most `max` bytes, or fail. */
  datatype Piece = Take(max: nat) | Fail

  /** The byte source: the bytes still to come and the plan for the coming reads. */
  class Reader {
    var stream: seq<u8>
    var plan: seq<Piece>

    constructor (stream: seq<u8>, plan: seq<Piece>)
      ensures this.stream == stream && this.plan == plan
    {
      this.stream := stream;
      this.plan := plan;
    }

    /** How many bytes the next read into `room` free bytes delivers (0 is end of stream). */
    function NextCount(room: nat): (k: nat)
      reads this
      requires plan == [] || plan[0].Take?
      ensures k <= room && k <= |stream|
    {
      var limit := if plan == [] then room else plan[0].max;
      Min(Min(room, |stream|), limit)
    }

    /**
     * read(&mut buf[start..]): Err when the plan says so; otherwise the next
     * bytes of the stream land at buf[start..], and their number is returned.
     * With no plan left, every read delivers as much as fits.
     */
    method Read(buf: array<u8>, start: nat) returns (ok: bool, count: nat)
      requires start <= buf.Length
      modifies this, buf
      ensures plan == if old(plan) == [] then [] else old(plan)[1..]
      ensures ok == (old(plan) == [] || old(plan)[0].Take?)
      ensures ok ==> count <= buf.Length - start && count <= |old(stream)|
      ensures ok ==> stream == old(stream)[count..]
      ensures ok ==> buf[..] == old(buf[..start]) + old(stream)[..count] + old(buf[start + count..])
      ensures ok && old(plan) == [] ==> count == Min(buf.Length - start, |old(stream)|)
      ensures !ok ==> stream == old(stream) && buf[..] == old(buf[..])
    {
      if plan != [] && plan[0].Fail? {
        plan := plan[1..];
        return false, 0;
      }
      ok := true;
      count := NextCount(buf.Length - start);
      var i := 0;
      while i < count
        invariant 0 <= i <= count && count <= buf.Length - start && count <= |stream|
        invariant stream == old(stream) && plan == old(plan)
        invariant buf[..] == old(buf[..start]) + stream[..i] + old(buf[start + i..])
      {
        buf[start + i] := stream[i];
        i := i + 1;
      }
      stream := stream[count..];
      plan := if plan == [] then [] else plan[1..];
    }
  }

  function Min(a: nat, b: nat): nat {
    if a <= b then a else b
  }

  /**
   * read_to_buf: read until the buffer is full; a read of 0 bytes is an
   * unexpected end of stream and any failed read an error. On success the
   * buffer holds the next buf.Length bytes of the stream. A stream too short
   * to fill it always fails, and a reader with no plan left always fills it
   * when the bytes are there.
   */
  method ReadToBuf(buf: array<u8>, reader: Reader) returns (ok: bool)
    modifies buf, reader
    ensures ok ==> buf.Length <= |old(reader.stream)|
    ensures ok ==> buf[..] == old(reader.stream)[..buf.Length]
    ensures ok ==> reader.stream == old(reader.stream)[buf.Length..]
    ensures ok ==> (old(reader.plan) == [] ==> reader.plan == [])
    ensures old(reader.plan) == [] ==> ok == (buf.Length <= |old(reader.stream)|)
  {
    var total := 0;
    while total < buf.Length
      invariant total <= buf.Length && total <= |old(reader.stream)|
      invariant buf[..total] == old(reader.stream)[..total]
      invariant reader.stream == old(reader.stream)[total..]
      invariant old(reader.plan) == [] ==> reader.plan == []
      decreases buf.Length - total
    {
      var readOk, count := reader.Read(buf, total);
      if !readOk || count == 0 {
        return false;
      }
      assert buf[..total + count] == old(reader.stream)[..total] + old(reader.stream)[total..][..count];
      total := total + count;
    }
    return true;
  }

  /** A fresh zeroed buffer of `len` bytes, filled by read_to_buf; its contents on success. */
  method ReadSection(reader: Reader, len: nat) returns (ok: bool, bytes: seq<u8>)
    modifies reader
    ensures ok ==> len <= |old(reader.stream)|
    ensures ok ==> bytes == old(reader.stream)[..len]
    ensures ok ==> reader.stream == old(reader.stream)[len..]
    ensures ok ==> (old(reader.plan) == [] ==> reader.plan == [])
    ensures old(reader.plan) == [] ==> ok == (len <= |old(reader.stream)|)
  {
    var buf := new u8[len](_ => 0);
    ok := ReadToBuf(buf, reader);
    bytes := buf[..];
  }

  /**
   * from_path: the header, the magic check, PRG, then CHR. Whatever the
   * reader's plan, a success is exactly what ParseRom gives, and a stream
   * ParseRom rejects is rejected; with no plan left the result is ParseRom's.
   */
  method FromPath(reader: Reader) returns (r: Result<Rom>)
    modifies reader
    ensures r.Ok? ==> r == ParseRom(old(reader.stream))
    ensures ParseRom(old(reader.stream)).Err? ==> r.Err?
    ensures old(reader.plan) == [] ==> r == ParseRom(old(reader.stream))
  {
    ghost var s := old(reader.stream);
    var ok, header := ReadSection(reader, HEADER_LEN);
    if !ok {
      return Err(IoError);
    }
    var h := HeaderOf(header);
    assert h == HeaderOf(s);
    if h.magic != MAGIC {
      return Err(FormatError);
    }
    var prg, chr;
    ok, prg := ReadSection(reader, PrgBytes(h));
    if !ok {
      return Err(IoError);
    }
    ok, chr := ReadSection(reader, ChrBytes(h));
    if !ok {
      return Err(IoError);
    }
    ghost var prgEnd := HEADER_LEN + PrgBytes(h);
    assert s[HEADER_LEN..][..PrgBytes(h)] == s[HEADER_LEN..prgEnd];
    assert s[prgEnd..][..ChrBytes(h)] == s[prgEnd..prgEnd + ChrBytes(h)];
    r := Ok(Rom(h, prg, chr));
  }
}
