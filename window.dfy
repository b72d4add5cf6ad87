/**
 * The watchdog's register window as plain memory: a map from byte offset
 * to 32-bit word, and the log of writes made to it.
 */
module RegisterWindow {

  type Window = map<nat, bv32>

  /** One 32-bit store: the value written and the offset it went to. */
  datatype Access = Write(offset: nat, value: bv32)

  /** The window after performing the writes `ws` in order, starting from `w`. */
  function Replay(w: Window, ws: seq<Access>): (r: Window)
    ensures forall o | o in w :: o in r
    decreases |ws|
  {
    if ws == [] then w
    else
      Replay(w[ws[0].offset := ws[0].value], ws[1..])
  }

  /** `r` holds a register at exactly the offsets where `w` does. */
  ghost predicate SameOffsets(w: Window, r: Window)
  {
    forall o :: o in r <==> o in w
  }

  /** Performing `a` and then `b` is performing their concatenation. */
  lemma {:induction false} ReplayConcat(w: Window, a: seq<Access>, b: seq<Access>)
    ensures Replay(w, a + b) == Replay(Replay(w, a), b)
    decreases |a|
  {
    if a == [] {
      assert a + b == b;
    } else {
      assert (a + b)[0] == a[0];
      assert (a + b)[1..] == a[1..] + b;
      ReplayConcat(w[a[0].offset := a[0].value], a[1..], b);
    }
  }

  /** A single write is a single map update. */
  lemma ReplayOne(w: Window, a: Access)
    ensures Replay(w, [a]) == w[a.offset := a.value]
  {
    assert [a][1..] == [];
  }

  /** Four writes are four map updates, in order. */
  lemma ReplayFour(w: Window, a: Access, b: Access, c: Access, d: Access)
    ensures Replay(w, [a, b, c, d])
         == w[a.offset := a.value][b.offset := b.value][c.offset := c.value][d.offset := d.value]
  {
    var w1 := w[a.offset := a.value];
    var w2 := w1[b.offset := b.value];
    var w3 := w2[c.offset := c.value];
    assert [a, b, c, d][1..] == [b, c, d];
    assert [b, c, d][1..] == [c, d];
    assert [c, d][1..] == [d];
    assert Replay(w, [a, b, c, d]) == Replay(w1, [b, c, d]);
    assert Replay(w1, [b, c, d]) == Replay(w2, [c, d]);
    assert Replay(w2, [c, d]) == Replay(w3, [d]);
    ReplayOne(w3, d);
  }

  /** Logging four writes one at a time logs the four of them in order. */
  lemma AppendFour(log: seq<Access>, a: Access, b: Access, c: Access, d: Access)
    ensures log + [a] + [b] + [c] + [d] == log + [a, b, c, d]
  {
  }

  /** The read-modify-write `reg &= ~mask; reg |= bits` of a 32-bit register. */
  function ClearSet(reg: bv32, mask: bv32, bits: bv32): bv32
  {
    (reg & !mask) | bits
  }

  /** With `bits` inside `mask`, the masked bits of the result are `bits`. */
  lemma ClearSetInside(reg: bv32, mask: bv32, bits: bv32)
    requires bits & !mask == 0
    ensures ClearSet(reg, mask, bits) & mask == bits
  {
  }

  /** With `bits` inside `mask`, every bit outside `mask` keeps its old value. */
  lemma ClearSetOutside(reg: bv32, mask: bv32, bits: bv32)
    requires bits & !mask == 0
    ensures ClearSet(reg, mask, bits) & !mask == reg & !mask
  {
  }

  /** The read-modify-write `reg |= bits` of a 32-bit register. */
  function SetBits(reg: bv32, bits: bv32): bv32
  {
    reg | bits
  }

  /** After `reg |= bits`, every bit of `bits` is set. */
  lemma SetBitsSets(reg: bv32, bits: bv32)
    ensures SetBits(reg, bits) & bits == bits
  {
  }

  /** After `reg |= bits`, every bit outside `bits` keeps its old value. */
  lemma SetBitsKeeps(reg: bv32, bits: bv32)
    ensures SetBits(reg, bits) & !bits == reg & !bits
  {
  }
}
