/**
 * Work RAM (nes/src/ram.rs): a vector of bytes, zeroed at creation, read and
 * written one byte at a time. Reads and writes outside it panic in the
 * source; here they are excluded by preconditions.
 */
module Ram {
  import opened Types

  class Ram {
    var cells: seq<u8>

    /** new: `size` zero bytes. */
    constructor (size: nat)
      ensures |cells| == size && forall i :: 0 <= i < size ==> cells[i] == 0
    {
      cells := seq(size, _ => 0);
    }

    /** peekb: the byte at `addr`. */
    function Peekb(addr: u16): u8
      reads this
      requires (addr as nat) < |cells|
    {
      cells[addr]
    }

    /** loadb is the default of the memory interface: peekb, with no side effect. */
    method Loadb(addr: u16) returns (r: u8)
      requires (addr as nat) < |cells|
      ensures r == Peekb(addr) && r == cells[addr as nat]
    {
      r := cells[addr];
    }

    /**
     * storeb: the byte at `addr` becomes `val` and no other byte changes, so a
     * load there returns `val`.
     */
    method Storeb(addr: u16, val: u8)
      requires (addr as nat) < |cells|
      modifies this
      ensures cells == old(cells)[addr as nat := val]
      ensures Peekb(addr) == val
    {
      cells := cells[addr as nat := val];
    }
  }
}
