/**
 * The disassembler (disasm/src/disassembler.rs): cartridge space
 * 0x4020-0xFFFF is decoded by following control flow from the NMI, reset
 * and IRQ vectors; every byte ends up as an instruction, a vector operand,
 * an undecoded byte, or nothing (an operand byte of a decoded instruction).
 */
module Disassembler {
  import opened Types
  import Bytes
  import A = DisasmAddress
  import O = DisasmOperation

  /** The bytes from PRG_ROM_BASE (0x4020) to 0xFFFF. */
  const ROM_SPAN: nat := 0xBFE0

  /** The three interrupt vectors, NMI, reset and IRQ/BRK. */
  const VECTORS: seq<nat> := [0xFFFA, 0xFFFC, 0xFFFE]

  /** What one byte of cartridge space is taken to be. */
  datatype AddressOrOp = Address(address: A.Address) | Op(op: O.Op) | Unknown(byte: u8)

  /** parse_ops' table: one slot per byte of cartridge space; None for operand bytes. */
  type Slots = seq<Option<AddressOrOp>>

  /** src_addr: the byte at CPU address `addr`; an address outside the span panics in the source. */
  function SrcAddr(src: seq<u8>, addr: nat): u8
    requires O.PRG_ROM_BASE <= addr < O.PRG_ROM_BASE + |src|
  {
    src[addr - O.PRG_ROM_BASE]
  }

  /**
   * populate_vector: the little-endian word stored at `base`, both as a
   * number (the root to decode from) and as an absolute operand whose bytes
   * are the two stored bytes.
   */
  function PopulateVector(base: nat, src: seq<u8>): (r: (nat, AddressOrOp))
    requires O.PRG_ROM_BASE <= base && base + 1 < O.PRG_ROM_BASE + |src|
    ensures r.0 < 0x1_0000
    ensures r.1.Address? && r.1.address.Absolute? && r.1.address.addr as int == r.0
    ensures A.Byte1(r.1.address) == Some(SrcAddr(src, base))
    ensures A.Byte2(r.1.address) == Some(SrcAddr(src, base + 1))
  {
    var lo := SrcAddr(src, base);
    var hi := SrcAddr(src, base + 1);
    (Bytes.Word(lo, hi) as int, Address(A.AbsoluteFromLe(lo, hi)))
  }

  /** The root a vector slot names. */
  function VectorWord(src: seq<u8>, k: nat): nat
    requires k < 3 && |src| == ROM_SPAN
  {
    PopulateVector(VECTORS[k], src).0
  }

  /** The slot of a vector's low byte. */
  predicate IsVectorSlot(i: nat) {
    i + O.PRG_ROM_BASE == 0xFFFA || i + O.PRG_ROM_BASE == 0xFFFC || i + O.PRG_ROM_BASE == 0xFFFE
  }

  /**
   * What a slot may hold: the byte itself while undecoded, a vector's
   * operand at a vector slot, the instruction decoded from the three bytes
   * at the slot, or nothing.
   */
  predicate SlotSound(src: seq<u8>, i: nat, slot: Option<AddressOrOp>)
    requires i < |src|
  {
    match slot
    case None => true
    case Some(Unknown(b)) => b == src[i]
    case Some(Address(a)) => IsVectorSlot(i) && i + 1 < |src| && a == A.AbsoluteFromLe(src[i], src[i + 1])
    case Some(Op(op)) => i + 2 < |src| && op == O.OpFromBytes(src[i], src[i + 1], src[i + 2])
  }

  predicate Sound(src: seq<u8>, ret: Slots) {
    |ret| == |src| && forall i :: 0 <= i < |ret| ==> SlotSound(src, i, ret[i])
  }

  /** A slot holding a decoded instruction or a vector operand. */
  predicate Decoded(x: Option<AddressOrOp>) {
    x.Some? && !x.value.Unknown?
  }

  /** A slot no longer holding its raw byte: decoded, or taken as an operand byte. */
  predicate Reached(ret: Slots, s: nat) {
    O.PRG_ROM_BASE <= s < O.PRG_ROM_BASE + |ret| &&
    !(ret[s - O.PRG_ROM_BASE].Some? && ret[s - O.PRG_ROM_BASE].value.Unknown?)
  }

  /** The addresses a next_addresses result names. */
  function Targets(next: Option<(Option<nat>, Option<nat>)>): set<nat> {
    if next.None? then {}
    else
      (if next.value.0.Some? then {next.value.0.value} else {}) +
      (if next.value.1.Some? then {next.value.1.value} else {})
  }

  /** Every decoded instruction's successors are pending in `roots` or already reached. */
  predicate Closed(ret: Slots, roots: seq<nat>) {
    forall i :: 0 <= i < |ret| && ret[i].Some? && ret[i].value.Op? ==>
      O.NextAddresses(ret[i].value.op, i + O.PRG_ROM_BASE).Some? &&
      forall s :: s in Targets(O.NextAddresses(ret[i].value.op, i + O.PRG_ROM_BASE)) ==> s in roots || Reached(ret, s)
  }

  /** The three vectors' roots are pending or reached. */
  predicate VectorsReached(src: seq<u8>, ret: Slots, roots: seq<nat>)
    requires |src| == ROM_SPAN
  {
    forall k :: 0 <= k < 3 ==> VectorWord(src, k) in roots || Reached(ret, VectorWord(src, k))
  }

  // ------------------------------------------------------------ termination

  /**
   * The undecoded slots read as a binary number, the first slot being the
   * most significant bit. Decoding a root clears its bit and may only set
   * bits after it, so the number falls.
   */
  function Weight(s: Slots): nat
    decreases |s|
  {
    if |s| == 0 then 0 else (if Decoded(s[0]) then 0 else Pow2(|s| - 1)) + Weight(s[1..])
  }

  lemma {:induction false} WeightBelow(s: Slots)
    ensures Weight(s) < Pow2(|s|)
    decreases |s|
  {
    if |s| > 0 {
      WeightBelow(s[1..]);
    }
  }

  /** Decoding slot r, with the slots before it unchanged, lowers the weight. */
  lemma {:induction false} WeightDrop(a: Slots, b: Slots, r: nat)
    requires |a| == |b| && r < |a|
    requires forall j :: 0 <= j < r ==> a[j] == b[j]
    requires !Decoded(a[r]) && Decoded(b[r])
    ensures Weight(b) < Weight(a)
    decreases r
  {
    if r == 0 {
      WeightBelow(b[1..]);
    } else {
      WeightDrop(a[1..], b[1..], r - 1);
    }
  }

  // ------------------------------------------------------------- parse_ops

  /** No slot goes back to holding its raw byte. */
  predicate Grows(ret0: Slots, ret: Slots) {
    |ret0| == |ret| &&
    forall j :: 0 <= j < |ret| && ret[j].Some? && ret[j].value.Unknown? ==> ret0[j] == ret[j]
  }

  lemma ReachedGrows(ret0: Slots, ret: Slots, s: nat)
    requires Grows(ret0, ret) && Reached(ret0, s)
    ensures Reached(ret, s)
  {
  }

  /** A root popped at an already decoded slot: the invariants hold for the rest of the stack. */
  lemma KeepAfterSkip(src: seq<u8>, ret: Slots, pending: seq<nat>, roots: seq<nat>, root: nat)
    requires |src| == ROM_SPAN
    requires Closed(ret, pending) && VectorsReached(src, ret, pending)
    requires forall s :: s in pending ==> s in roots || s == root
    requires Reached(ret, root)
    ensures Closed(ret, roots) && VectorsReached(src, ret, roots)
  {
  }

  /**
   * A root decoded at slot idx, whose successors were pushed: the invariants
   * hold for the new stack.
   */
  lemma KeepAfterDecode(src: seq<u8>, ret0: Slots, ret: Slots, pending: seq<nat>, roots: seq<nat>, idx: nat)
    requires |src| == ROM_SPAN
    requires Closed(ret0, pending) && VectorsReached(src, ret0, pending)
    requires Grows(ret0, ret) && idx < |ret|
    requires forall s :: s in pending ==> s in roots || s == idx + O.PRG_ROM_BASE
    requires ret[idx].Some? && ret[idx].value.Op?
    requires O.NextAddresses(ret[idx].value.op, idx + O.PRG_ROM_BASE).Some?
    requires forall s :: s in Targets(O.NextAddresses(ret[idx].value.op, idx + O.PRG_ROM_BASE)) ==> s in roots
    requires forall j :: 0 <= j < |ret| && j != idx && ret[j].Some? && ret[j].value.Op? ==> ret[j] == ret0[j]
    ensures Closed(ret, roots) && VectorsReached(src, ret, roots)
  {
    hide O.NextAddresses, O.OpFromBytes;
    assert Reached(ret, idx + O.PRG_ROM_BASE);
    forall i | 0 <= i < |ret| && i != idx && ret[i].Some? && ret[i].value.Op?
      ensures forall s :: s in Targets(O.NextAddresses(ret[i].value.op, i + O.PRG_ROM_BASE)) ==> s in roots || Reached(ret, s)
    {
      forall s | s in Targets(O.NextAddresses(ret[i].value.op, i + O.PRG_ROM_BASE)) && s !in roots
        ensures Reached(ret, s)
      {
        assert ret0[i] == ret[i];
        if s != idx + O.PRG_ROM_BASE {
          ReachedGrows(ret0, ret, s);
        }
      }
    }
    forall k | 0 <= k < 3 && VectorWord(src, k) !in roots
      ensures Reached(ret, VectorWord(src, k))
    {
      if VectorWord(src, k) != idx + O.PRG_ROM_BASE {
        ReachedGrows(ret0, ret, VectorWord(src, k));
      }
    }
  }

  /**
   * The first half of parse_ops: every byte undecoded, then each vector slot
   * set to its absolute operand and its high byte to nothing, the three
   * vector words pushed in order.
   */
  method SeedVectors(src: seq<u8>) returns (ret: Slots, roots: seq<nat>)
    requires |src| == ROM_SPAN
    ensures Sound(src, ret)
    ensures |roots| == 3 && forall k :: 0 <= k < 3 ==> roots[k] == VectorWord(src, k)
    ensures Closed(ret, roots) && VectorsReached(src, ret, roots)
  {
    roots := [];
    ret := seq(|src|, i requires 0 <= i < |src| => Some(Unknown(src[i])));
    for k := 0 to 3
      invariant Sound(src, ret)
      invariant |roots| == k && forall j :: 0 <= j < k ==> roots[j] == VectorWord(src, j)
      invariant forall i :: 0 <= i < |ret| ==> !(ret[i].Some? && ret[i].value.Op?)
    {
      var vec := VECTORS[k];
      var (root, addr) := PopulateVector(vec, src);
      roots := roots + [root];
      ret := ret[vec - O.PRG_ROM_BASE := Some(addr)];
      ret := ret[vec + 1 - O.PRG_ROM_BASE := None];
    }
    assert VectorsReached(src, ret, roots) by {
      forall k | 0 <= k < 3
        ensures VectorWord(src, k) in roots
      {
        assert roots[k] == VectorWord(src, k);
      }
    }
  }

  /**
   * parse_ops: after SeedVectors, Step until the stack of roots is empty.
   * `ok` is false where the source panics. On success every slot is sound
   * and every reachable instruction's successors, and the vectors' roots,
   * have been reached.
   */
  method ParseOps(src: seq<u8>) returns (ok: bool, ret: Slots)
    requires |src| == ROM_SPAN
    ensures ok ==> Sound(src, ret) && Closed(ret, []) && VectorsReached(src, ret, [])
  {
    var roots: seq<nat>;
    ret, roots := SeedVectors(src);
    while |roots| > 0
      invariant Sound(src, ret)
      invariant Closed(ret, roots)
      invariant VectorsReached(src, ret, roots)
      decreases Weight(ret), |roots|
    {
      var stepOk;
      stepOk, ret, roots := Step(src, ret, roots);
      if !stepOk {
        return false, ret;
      }
    }
    ok := true;
  }

  /**
   * One turn of parse_ops' loop: the root on top of the stack is popped; a
   * slot that is already an operand or instruction is skipped; otherwise the
   * slot becomes the instruction decoded there, its operand bytes become
   * nothing and its successors are pushed. `ok` is false where the source
   * panics: a root outside cartridge space, an instruction whose three bytes
   * run past 0xFFFF, or a panic of next_addresses. Either the undecoded
   * slots fall, read as a binary number, or only the stack shrinks.
   */
  method Step(src: seq<u8>, ret0: Slots, roots0: seq<nat>) returns (ok: bool, ret: Slots, roots: seq<nat>)
    requires |src| == ROM_SPAN && |roots0| > 0
    requires Sound(src, ret0) && Closed(ret0, roots0) && VectorsReached(src, ret0, roots0)
    ensures ok ==> Sound(src, ret) && Closed(ret, roots) && VectorsReached(src, ret, roots)
    ensures ok ==> Weight(ret) < Weight(ret0) || (ret == ret0 && |roots| < |roots0|)
  {
    hide O.NextAddresses, O.OpFromBytes, O.OpByteLen, Sound, Closed, VectorsReached, Weight;
    ret := ret0;
    var root := roots0[|roots0| - 1];
    roots := roots0[..|roots0| - 1];
    assert forall s :: s in roots0 ==> s in roots || s == root by {
      assert roots0 == roots + [root];
    }
    if root < O.PRG_ROM_BASE || root - O.PRG_ROM_BASE >= |ret| {
      return false, ret, roots;
    }
    var idx := root - O.PRG_ROM_BASE;
    if Decoded(ret[idx]) {
      KeepAfterSkip(src, ret, roots0, roots, root);
      return true, ret, roots;
    }
    if root + 2 >= O.PRG_ROM_BASE + |src| {
      return false, ret, roots;
    }
    var b0, b1, b2 := SrcAddr(src, root), SrcAddr(src, root + 1), SrcAddr(src, root + 2);
    assert b0 == src[idx] && b1 == src[idx + 1] && b2 == src[idx + 2];
    var op := O.OpFromBytes(b0, b1, b2);
    var next := O.NextAddresses(op, root);
    if next.None? {
      return false, ret, roots;
    }
    ret := DecodeAt(src, ret0, idx, op);
    WeightDrop(ret0, ret, idx);
    roots := PushTargets(roots, next);
    KeepAfterDecode(src, ret0, ret, roots0, roots, idx);
    ok := true;
  }

  /** Step's pushes: the first successor, then the second, each when present. */
  method PushTargets(popped: seq<nat>, next: Option<(Option<nat>, Option<nat>)>) returns (roots: seq<nat>)
    requires next.Some?
    ensures forall s :: s in popped ==> s in roots
    ensures forall s :: s in Targets(next) ==> s in roots
  {
    roots := popped;
    var (next1, next2) := next.value;
    if next1.Some? {
      roots := roots + [next1.value];
    }
    if next2.Some? {
      roots := roots + [next2.value];
    }
  }

  /**
   * One decoding step of parse_ops: slot `idx` becomes `op` and the slots of
   * its operand bytes become nothing (the source's `for i in 1..byte_len`).
   */
  method DecodeAt(src: seq<u8>, ret0: Slots, idx: nat, op: O.Op) returns (ret: Slots)
    requires Sound(src, ret0) && idx + 2 < |src|
    requires op == O.OpFromBytes(src[idx], src[idx + 1], src[idx + 2])
    ensures Sound(src, ret) && Grows(ret0, ret)
    ensures ret[idx] == Some(Op(op))
    ensures forall j :: 0 <= j < |ret| && (j < idx || j >= idx + O.OpByteLen(op)) ==> ret[j] == ret0[j]
    ensures forall j :: idx < j < idx + O.OpByteLen(op) ==> ret[j] == None
  {
    hide O.OpFromBytes, A.AbsoluteFromLe;
    ret := ret0[idx := Some(Op(op))];
    var byteLen := O.OpByteLen(op);
    for i := 1 to byteLen
      invariant Sound(src, ret) && ret[idx] == Some(Op(op))
      invariant forall j :: 0 <= j < |ret| && (j < idx || j >= idx + i) ==> ret[j] == ret0[j]
      invariant forall j :: idx < j < idx + i ==> ret[j] == None
    {
      ret := ret[idx + i := None];
    }
  }

  // ---------------------------------------------------- the decoded listing

  /** Entries in strictly increasing address order. */
  predicate Increasing(ops: seq<(nat, AddressOrOp)>) {
    forall j, k :: 0 <= j < k < |ops| ==> ops[j].0 < ops[k].0
  }

  /**
   * new's pipeline: every slot that holds something, paired with its
   * address (the slot's index plus `addr`), in slot order.
   */
  function Collect(slots: Slots, addr: nat): (r: seq<(nat, AddressOrOp)>)
    ensures forall k :: 0 <= k < |r| ==> addr <= r[k].0 < addr + |slots| && slots[r[k].0 - addr] == Some(r[k].1)
    ensures Increasing(r)
    decreases |slots|
  {
    if |slots| == 0 then []
    else
      var rest := Collect(slots[1..], addr + 1);
      match slots[0]
      case None => rest
      case Some(e) => [(addr, e)] + rest
  }

  /** The entry at an address, looked up one entry at a time. */
  function Lookup(ops: seq<(nat, AddressOrOp)>, a: nat): Option<AddressOrOp>
    decreases |ops|
  {
    if |ops| == 0 then None else if ops[0].0 == a then Some(ops[0].1) else Lookup(ops[1..], a)
  }

  /** The listing holds exactly the slots that hold something, each at its own address. */
  lemma {:induction false} LookupCollect(slots: Slots, addr: nat, a: nat)
    ensures Lookup(Collect(slots, addr), a) == if addr <= a < addr + |slots| then slots[a - addr] else None
    decreases |slots|
  {
    if |slots| > 0 {
      LookupCollect(slots[1..], addr + 1, a);
      if slots[0].Some? && a != addr {
        assert ([(addr, slots[0].value)] + Collect(slots[1..], addr + 1))[1..] == Collect(slots[1..], addr + 1);
      }
    }
  }

  /** In an increasing listing every entry is what Lookup finds at its address. */
  lemma {:induction false} LookupAt(ops: seq<(nat, AddressOrOp)>, k: nat)
    requires Increasing(ops) && k < |ops|
    ensures Lookup(ops, ops[k].0) == Some(ops[k].1)
    decreases k
  {
    if k > 0 {
      LookupAt(ops[1..], k - 1);
    }
  }

  /** What Lookup finds is an entry of the listing. */
  lemma {:induction false} LookupFound(ops: seq<(nat, AddressOrOp)>, a: nat) returns (k: nat)
    requires Lookup(ops, a).Some?
    ensures k < |ops| && ops[k].0 == a && Lookup(ops, a) == Some(ops[k].1)
    decreases |ops|
  {
    if ops[0].0 == a {
      k := 0;
    } else {
      var k' := LookupFound(ops[1..], a);
      k := k' + 1;
    }
  }

  /** Every entry of the listing is a sound slot of cartridge space. */
  predicate EntriesSound(src: seq<u8>, ops: seq<(nat, AddressOrOp)>) {
    forall k :: 0 <= k < |ops| ==>
      O.PRG_ROM_BASE <= ops[k].0 < O.PRG_ROM_BASE + |src| &&
      SlotSound(src, ops[k].0 - O.PRG_ROM_BASE, Some(ops[k].1))
  }

  /** An address of cartridge space whose byte was never decoded nor taken as an operand. */
  predicate Listed(ops: seq<(nat, AddressOrOp)>, src: seq<u8>, s: nat) {
    O.PRG_ROM_BASE <= s < O.PRG_ROM_BASE + |src| &&
    !(Lookup(ops, s).Some? && Lookup(ops, s).value.Unknown?)
  }

  /** Every listed instruction's successors, and the vectors' roots, were reached. */
  predicate EntriesClosed(src: seq<u8>, ops: seq<(nat, AddressOrOp)>)
    requires |src| == ROM_SPAN
  {
    (forall k :: 0 <= k < |ops| && ops[k].1.Op? ==>
      O.NextAddresses(ops[k].1.op, ops[k].0).Some? &&
      forall s :: s in Targets(O.NextAddresses(ops[k].1.op, ops[k].0)) ==> Listed(ops, src, s)) &&
    forall v :: 0 <= v < 3 ==> Listed(ops, src, VectorWord(src, v))
  }

  /** The disassembled listing. */
  datatype Disassembler = Disassembler(ops: seq<(nat, AddressOrOp)>)
  {
    /** len */
    function Len(): (r: nat)
      ensures r == |ops|
    {
      |ops|
    }

    /** is_empty */
    predicate IsEmpty()
      ensures IsEmpty() <==> Len() == 0
    {
      |ops| == 0
    }

    /**
     * get: the entry at a listing index with its address cut to 16 bits
     * (a number below 0x10000), None past the end.
     */
    function Get(index: nat): (r: Option<(nat16, AddressOrOp)>)
      ensures r.Some? <==> index < Len()
      ensures r.Some? ==> r.value.1 == ops[index].1 && (ops[index].0 < 0x1_0000 ==> r.value.0 == ops[index].0)
    {
      if index < |ops| then Some((ops[index].0 % 0x1_0000, ops[index].1)) else None
    }

    /**
     * index_of, with the search corrected: the listing index of the entry at
     * `addr`, or else of the last entry before it (the first entry when none
     * is before it). An empty listing panics in the source, as here.
     */
    method IndexOf(addr: nat16) returns (r: nat)
      requires |ops| > 0 && Increasing(ops)
      ensures r < |ops| && (ops[r].0 <= addr || r == 0)
      ensures forall k :: r < k < |ops| ==> ops[k].0 > addr
      ensures Lookup(ops, addr).Some? ==> ops[r].0 == addr && Lookup(ops, addr) == Some(ops[r].1)
    {
      var lo := 0;
      var hi := |ops| - 1;
      while lo < hi
        invariant 0 <= lo <= hi < |ops|
        invariant lo == 0 || ops[lo].0 <= addr
        invariant forall k :: 0 <= k < lo ==> ops[k].0 < addr
        invariant forall k :: hi < k < |ops| ==> ops[k].0 > addr
      {
        var mid := lo + (hi - lo + 1) / 2;
        if addr < ops[mid].0 {
          hi := mid - 1;
        } else if addr == ops[mid].0 {
          LookupAt(ops, mid);
          return mid;
        } else {
          lo := mid;
        }
      }
      r := lo;
      if Lookup(ops, addr).Some? {
        var k := LookupFound(ops, addr);
        LookupAt(ops, r);
      }
    }

    /**
     * index_of as written: the midpoint rounds down, a larger midpoint is
     * added to `lo` rather than assigned, and `mid - 1` runs below zero.
     * None where the source panics.
     */
    function IndexOfAsWritten(addr: nat16): Option<nat> {
      if |ops| == 0 then None else SearchAsWritten(addr, 0, |ops| - 1)
    }

    function SearchAsWritten(addr: nat, lo: nat, hi: nat): Option<nat>
      requires hi < |ops|
      decreases hi - lo
    {
      if lo >= hi then Some(lo)
      else
        var mid := lo + (hi - lo) / 2;
        if addr < ops[mid].0 then
          if mid == 0 then None else SearchAsWritten(addr, lo, mid - 1)
        else if addr == ops[mid].0 then Some(mid)
        else SearchAsWritten(addr, lo + mid + 1, hi)
    }
  }

  /** On a listing of cartridge space get cuts nothing off, and what it returns is what Lookup finds there. */
  lemma GetListed(src: seq<u8>, d: Disassembler, index: nat)
    requires |src| == ROM_SPAN && Increasing(d.ops) && EntriesSound(src, d.ops) && index < d.Len()
    ensures d.Get(index).Some? && d.Get(index).value.0 == d.ops[index].0
    ensures Lookup(d.ops, d.Get(index).value.0) == Some(d.Get(index).value.1)
  {
    LookupAt(d.ops, index);
  }

  /**
   * new: parse_ops, then the slots that hold something with their
   * addresses. None where the source panics. The listing is in increasing
   * address order, every entry is a sound slot of cartridge space, and every
   * listed instruction's successors and the vectors' roots are listed and
   * not raw bytes.
   */
  method New(src: seq<u8>) returns (r: Option<Disassembler>)
    requires |src| == ROM_SPAN
    ensures r.Some? ==> Increasing(r.value.ops) && EntriesSound(src, r.value.ops) && EntriesClosed(src, r.value.ops)
  {
    var ok, slots := ParseOps(src);
    if !ok {
      return None;
    }
    var ops := Collect(slots, O.PRG_ROM_BASE);
    CollectKeeps(src, slots, ops);
    return Some(Disassembler(ops));
  }

  lemma CollectKeeps(src: seq<u8>, slots: Slots, ops: seq<(nat, AddressOrOp)>)
    requires |src| == ROM_SPAN
    requires Sound(src, slots) && Closed(slots, []) && VectorsReached(src, slots, [])
    requires ops == Collect(slots, O.PRG_ROM_BASE)
    ensures EntriesSound(src, ops) && EntriesClosed(src, ops)
  {
    forall s | Reached(slots, s)
      ensures Listed(ops, src, s)
    {
      LookupCollect(slots, O.PRG_ROM_BASE, s);
    }
    forall k | 0 <= k < |ops| && ops[k].1.Op?
      ensures O.NextAddresses(ops[k].1.op, ops[k].0).Some? &&
        forall s :: s in Targets(O.NextAddresses(ops[k].1.op, ops[k].0)) ==> Listed(ops, src, s)
    {
      var i := ops[k].0 - O.PRG_ROM_BASE;
      assert slots[i] == Some(ops[k].1);
    }
  }

  /** A listing of n consecutive one-byte entries from 0x8000. */
  function Ramp(n: nat): seq<(nat, AddressOrOp)> {
    seq(n, k requires 0 <= k < n => (0x8000 + k, Unknown(0)))
  }

  /**
   * index_of as written overshoots: in a listing of seven consecutive
   * entries, the entry at 0x8006 is the seventh, but the search answers 10,
   * an index past the end (`lo += mid + 1` adds 5 to a `lo` of 4). The
   * corrected IndexOf answers 6.
   */
  lemma IndexOfAsWrittenOvershoots()
    ensures Lookup(Ramp(7), 0x8006).Some? && Ramp(7)[6].0 == 0x8006
    ensures Disassembler(Ramp(7)).IndexOfAsWritten(0x8006) == Some(10)
    ensures Disassembler(Ramp(7)).Get(10).None?
  {
    var d := Disassembler(Ramp(7));
    assert d.ops[3].0 == 0x8003 && d.ops[5].0 == 0x8005 && d.ops[6].0 == 0x8006;
    assert d.SearchAsWritten(0x8006, 0, 6) == d.SearchAsWritten(0x8006, 4, 6);
    assert d.SearchAsWritten(0x8006, 4, 6) == d.SearchAsWritten(0x8006, 10, 6);
    LookupAt(d.ops, 6);
  }

  /**
   * index_of as written panics on an address before the first entry once
   * the midpoint reaches index 0 (`mid - 1` with mid 0); the corrected
   * IndexOf answers index 0.
   */
  lemma IndexOfAsWrittenUnderflows()
    ensures Disassembler(Ramp(2)).IndexOfAsWritten(0x7000).None?
  {
    var d := Disassembler(Ramp(2));
    assert d.ops[0].0 == 0x8000;
  }
}
