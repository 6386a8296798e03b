/** Machine integer widths and small wrappers shared by every unit of the emulator. */
module Types {
  /** An unsigned 8-bit value (Rust `u8`); arithmetic on it wraps. */
  type u8 = bv8
  /** An unsigned 16-bit value (Rust `u16`); arithmetic on it wraps. */
  type u16 = bv16
  /** An 8-bit counter used arithmetically rather than bitwise. */
  type nat8 = x: nat | x < 0x100
  /** A 16-bit counter used arithmetically rather than bitwise. */
  type nat16 = x: nat | x < 0x1_0000

  datatype Option<T> = None | Some(value: T)

  /** Two to the power n, for stating bit positions arithmetically. */
  function Pow2(n: nat): (r: nat)
    ensures r >= 1
  {
    if n == 0 then 1 else 2 * Pow2(n - 1)
  }

  /** Distinct words stay distinct as numbers (used to index sequences by address). */
  lemma WordAsIntInjective(a: u16, b: u16)
    requires a != b
    ensures a as int != b as int
  {
    assert (a as int) as u16 == a;
    assert (b as int) as u16 == b;
  }
}
