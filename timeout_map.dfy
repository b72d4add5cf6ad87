/** The sparse table from timeout seconds to the 4-bit hardware code. */
module SunxiTimeout {
  import opened Wrappers
  import opened SunxiLayout

  /**
   * The driver's table as the C array holds it: 17 entries, indexed by
   * seconds, with the entries that have no designated initialiser equal to 0.
   */
  const WdtTimeoutMap: seq<bv32> :=
    [0x0, 0x1, 0x2, 0x3, 0x4, 0x5, 0x6, 0x0, 0x7, 0x0, 0x8, 0x0, 0x9, 0x0, 0xA, 0x0, 0xB]

  /** The timeouts, in seconds, that the hardware can encode, in increasing order. */
  const SupportedTimeouts: seq<int> := [1, 2, 3, 4, 5, 6, 8, 10, 12, 14, 16]

  /**
   * The hardware code for a timeout of `seconds`, or None when the table has
   * no entry for it: a hole (code 0 is never a designated entry) or an index
   * outside the array.
   */
  function TimeoutCode(seconds: int): (r: Option<bv32>)
    ensures r.Some? <==> seconds in SupportedTimeouts
    ensures r.Some? ==> 0x1 <= r.value <= 0xB && r.value & !TimeoutMask == 0
    ensures r.Some? ==> r.value == WdtTimeoutMap[seconds]
  {
    if 0 <= seconds < |WdtTimeoutMap| && WdtTimeoutMap[seconds] != 0
    then Some(WdtTimeoutMap[seconds])
    else None
  }

  /** The i-th supported timeout encodes as i + 1, so 1..6 s give 0x1..0x6 and 8..16 s give 0x7..0xB. */
  lemma TimeoutCodeListed(i: nat)
    requires i < |SupportedTimeouts|
    ensures TimeoutCode(SupportedTimeouts[i]) == Some((i + 1) as bv32)
  {
    if i < 6 {
      assert SupportedTimeouts[i] == i + 1;
    } else {
      assert SupportedTimeouts[i] == 2 * i - 4;
    }
  }

  /** The values without an entry, among them 0, 7, 9, 11, 13, 15 and everything above 16. */
  lemma TimeoutCodeHoles(seconds: int)
    requires seconds <= 0 || seconds > 16 || (seconds > 6 && seconds % 2 == 1)
    ensures TimeoutCode(seconds) == None
  {
  }

  /** The encoding is strictly increasing on the supported timeouts. */
  lemma TimeoutCodeIncreasing(a: int, b: int)
    requires TimeoutCode(a).Some? && TimeoutCode(b).Some?
    requires a < b
    ensures TimeoutCode(a).value < TimeoutCode(b).value
  {
  }

  /** Hence two supported timeouts with the same code are the same timeout. */
  lemma TimeoutCodeInjective(a: int, b: int)
    requires TimeoutCode(a).Some? && TimeoutCode(a) == TimeoutCode(b)
    ensures a == b
  {
    if a < b {
      TimeoutCodeIncreasing(a, b);
    } else if b < a {
      TimeoutCodeIncreasing(b, a);
    }
  }

  /** A code shifted into place stays inside the timeout field. */
  lemma ShiftedCodeInField(l: RegLayout, code: bv32)
    requires l.timeoutShift < 28
    requires code & !TimeoutMask == 0
    ensures (code << l.timeoutShift) & !TimeoutField(l) == 0
  {
  }
}
