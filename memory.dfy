/**
 * The `Mem` contract of nes/src/mem.rs (peekb, peekw, loadb, storeb, loadw,
 * storew) over the flat 64 KiB byte memory that the CPU tests plug into the CPU.
 */
module Memory {
  import opened Types
  import opened Bytes

  /** The number of addressable bytes. */
  const SIZE: nat := 0x1_0000

  /** A memory image: one byte for every 16-bit address. */
  type Image = m: seq<u8> | |m| == SIZE witness seq(SIZE, _ => 0)

  /** One store, as recorded in the write log. */
  datatype Write = Write(addr: u16, val: u8)

  /** The byte at `addr`. */
  function Read(m: Image, addr: u16): u8 {
    m[addr as int]
  }

  /** The image with `addr` holding `val`; every other address keeps its byte. */
  function Update(m: Image, addr: u16, val: u8): (r: Image)
    ensures Read(r, addr) == val
    ensures forall b: u16 :: b != addr ==> Read(r, b) == Read(m, b)
  {
    forall b: u16 | b != addr ensures Read(m[addr as int := val], b) == Read(m, b) {
      WordAsIntInjective(addr, b);
    }
    m[addr as int := val]
  }

  /** The little-endian word at `addr`; `addr + 1` is not wrapped, so `addr` must not be 0xFFFF. */
  function ReadWord(m: Image, addr: u16): (r: u16)
    requires addr != 0xFFFF
    ensures Lo(r) == Read(m, addr) && Hi(r) == Read(m, addr + 1)
  {
    Word(Read(m, addr), Read(m, addr + 1))
  }

  /** storew's effect on an image: low byte at `addr`, then high byte at `addr + 1`. */
  function UpdateWord(m: Image, addr: u16, val: u16): Image
    requires addr != 0xFFFF
  {
    Update(Update(m, addr, Lo(val)), addr + 1, Hi(val))
  }

  /** A word stored with storew is read back unchanged by loadw. */
  lemma StoreWordThenRead(m: Image, addr: u16, val: u16)
    requires addr != 0xFFFF
    ensures ReadWord(UpdateWord(m, addr, val), addr) == val
  {
    var r := UpdateWord(m, addr, val);
    assert Read(r, addr) == Lo(val);
    assert Read(r, addr + 1) == Hi(val);
    WordOfBytes(val);
  }

  /** storew changes only `addr` and `addr + 1`. */
  lemma StoreWordFrame(m: Image, addr: u16, val: u16, b: u16)
    requires addr != 0xFFFF && b != addr && b != addr + 1
    ensures Read(UpdateWord(m, addr, val), b) == Read(m, b)
  {
  }

  /**
   * The plain vector memory: every load is the default `loadb`, i.e. `peekb`,
   * and every store writes one cell. `log` records the stores in order.
   */
  class VecMem {
    var cells: Image
    ghost var log: seq<Write>

    constructor (init: Image)
      ensures cells == init && log == []
    {
      cells := init;
      log := [];
    }

    /** peekb: the byte at `addr`, without side effects. */
    function Peekb(addr: u16): u8
      reads this
    {
      Read(cells, addr)
    }

    /** peekw: the word at `addr`, built from two peekb calls. */
    function Peekw(addr: u16): (r: u16)
      reads this
      requires addr != 0xFFFF
      ensures Lo(r) == Peekb(addr) && Hi(r) == Peekb(addr + 1)
    {
      Word(Peekb(addr), Peekb(addr + 1))
    }

    /** loadb: the default implementation, equal to peekb and free of side effects. */
    method Loadb(addr: u16) returns (v: u8)
      ensures v == Peekb(addr)
    {
      v := cells[addr as int];
    }

    /** storeb: sets exactly one cell. */
    method Storeb(addr: u16, val: u8)
      modifies this
      ensures cells == Update(old(cells), addr, val)
      ensures log == old(log) + [Write(addr, val)]
    {
      cells := Update(cells, addr, val);
      log := log + [Write(addr, val)];
    }

    /** loadw: low byte from `addr`, high byte from `addr + 1`. */
    method Loadw(addr: u16) returns (w: u16)
      requires addr != 0xFFFF
      ensures w == Peekw(addr)
    {
      var lo := Loadb(addr);
      var hi := Loadb(addr + 1);
      w := Word(lo, hi);
    }

    /** storew: the low byte at `addr`, then the high byte at `addr + 1`. */
    method Storew(addr: u16, val: u16)
      requires addr != 0xFFFF
      modifies this
      ensures cells == UpdateWord(old(cells), addr, val)
      ensures log == old(log) + [Write(addr, Lo(val)), Write(addr + 1, Hi(val))]
    {
      Storeb(addr, (val & 0xFF) as u8);
      Storeb(addr + 1, ((val >> 8) & 0xFF) as u8);
    }
  }
}
