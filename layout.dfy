/**
 * The two register layouts of the sunxi watchdog block and the constants
 * shared by both generations.
 */
module SunxiLayout {

  /** Restart bit of the control register (bit 0). */
  const CtrlRestart: bv32 := 0x1 << 0
  /** Authorisation key that must accompany a restart, in bits 1 and up. */
  const CtrlKey: bv32 := 0x0a57 << 1
  /** Width of the timeout field of the mode register, before shifting. */
  const TimeoutMask: bv32 := 0xf

  /** The word written to the control register to reload the countdown. */
  const ReloadValue: bv32 := CtrlKey | CtrlRestart

  /**
   * Byte offsets of the control, config and mode registers inside the
   * watchdog window, the position of the timeout field in the mode register,
   * and the mask/value pair that selects "reset the system" on expiry.
   */
  datatype RegLayout = RegLayout(
    ctrl: nat,
    cfg: nat,
    mode: nat,
    timeoutShift: bv32,
    resetMask: bv32,
    resetVal: bv32)

  /** First generation: config and mode share the word at offset 0x04. */
  const Sun4iDogRegs := RegLayout(0x00, 0x04, 0x04, 3, 0x02, 0x02)

  /** Second generation: three separate registers. */
  const Sun6iDogRegs := RegLayout(0x10, 0x14, 0x18, 4, 0x03, 0x01)

  /** The bits of the mode register that hold the encoded timeout. */
  function TimeoutField(l: RegLayout): bv32
    requires l.timeoutShift <= 32
  {
    TimeoutMask << l.timeoutShift
  }

  /**
   * What the driver relies on in a layout: the timeout field lies in the low
   * 31 bits (the C shift is on a signed int), the reset value lies within its
   * mask, the timeout field and the reset mask are disjoint, the three
   * offsets are 32-bit aligned, and the control register is neither the
   * config nor the mode register (so two distinct offsets never share a byte).
   */
  predicate LayoutInvariant(l: RegLayout)
  {
    && l.timeoutShift < 28
    && l.resetVal & !l.resetMask == 0
    && TimeoutField(l) & l.resetMask == 0
    && l.ctrl % 4 == 0 && l.cfg % 4 == 0 && l.mode % 4 == 0
    && l.ctrl != l.cfg
    && l.ctrl != l.mode
  }

  /**
   * What the driver relies on in the enable bit of the mode register, whose
   * value is defined outside the driver: a single bit, outside the timeout
   * field, and outside the reset mask where the config register is the mode
   * register.
   */
  predicate ModeEnCompatible(l: RegLayout, modeEn: bv32)
    requires l.timeoutShift <= 32
  {
    && modeEn != 0
    && modeEn & (modeEn - 1) == 0
    && TimeoutField(l) & modeEn == 0
    && (l.cfg == l.mode ==> l.resetMask & modeEn == 0)
  }

  /**
   * The layout chosen at build time: the second generation's when the
   * sun6i generation is configured, the first generation's otherwise.
   */
  function SelectLayout(genSun6i: bool): (l: RegLayout)
    ensures LayoutInvariant(l)
    ensures ModeEnCompatible(l, 0x1)
    ensures genSun6i ==> l.ctrl == 0x10 && l.cfg == 0x14 && l.mode == 0x18 && l.timeoutShift == 4
    ensures genSun6i ==> l.resetMask == 0x03 && l.resetVal == 0x01
    ensures !genSun6i ==> l.ctrl == 0x00 && l.cfg == 0x04 && l.mode == 0x04 && l.timeoutShift == 3
    ensures !genSun6i ==> l.resetMask == 0x02 && l.resetVal == 0x02
  {
    if genSun6i then Sun6iDogRegs else Sun4iDogRegs
  }

  /** The reload word is the key 0x0a57 in bits 1..12 with the restart bit set. */
  lemma ReloadValueIsKeyAndRestart()
    ensures ReloadValue == 0x14AF
    ensures ReloadValue & 1 == 1
    ensures ReloadValue >> 1 == 0x0a57
  {
  }

  /** Only the first generation aliases the config and mode registers. */
  lemma AliasingOnlyInSun4i()
    ensures Sun4iDogRegs.cfg == Sun4iDogRegs.mode
    ensures Sun6iDogRegs.cfg != Sun6iDogRegs.mode
    ensures Sun6iDogRegs.cfg != Sun6iDogRegs.ctrl
  {
  }
}
