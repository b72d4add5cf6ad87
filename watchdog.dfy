/**
 * The watchdog driver: the writes each operation makes to the register
 * window, what those writes leave in the window, and a device object that
 * performs them through 32-bit reads and writes.
 */
module SunxiWdt {
  import opened Wrappers
  import opened SunxiLayout
  import opened SunxiTimeout
  import opened RegisterWindow

  /** The register window holds the layout's three registers. */
  predicate HasRegisters(l: RegLayout, w: Window)
  {
    l.ctrl in w && l.cfg in w && l.mode in w
  }

  /** Reload: the key and restart bit stored in the control register. */
  function ResetWrites(l: RegLayout): seq<Access>
  {
    [Write(l.ctrl, ReloadValue)]
  }

  /** Disable: the whole mode register cleared. */
  function DisableWrites(l: RegLayout): seq<Access>
  {
    [Write(l.mode, 0)]
  }

  /** Init's first word: the mode register with the timeout field cleared and set to `bits`. */
  function TimeoutWord(l: RegLayout, field: bv32, bits: bv32, w: Window): bv32
    requires l.mode in w
  {
    ClearSet(w[l.mode], field, bits)
  }

  /** The window after init's first two stores: the timeout word, then the reload. */
  function Reloaded(l: RegLayout, field: bv32, bits: bv32, w: Window): Window
    requires l.mode in w
  {
    w[l.mode := TimeoutWord(l, field, bits, w)][l.ctrl := ReloadValue]
  }

  /** Init's third word: the config register as the first two stores left it, reset action selected. */
  function ResetWord(l: RegLayout, field: bv32, bits: bv32, w: Window): bv32
    requires HasRegisters(l, w)
  {
    ClearSet(Reloaded(l, field, bits, w)[l.cfg], l.resetMask, l.resetVal)
  }

  /** Init's last word: the mode register as the first three stores left it, enable bit set. */
  function EnableWord(l: RegLayout, modeEn: bv32, field: bv32, bits: bv32, w: Window): bv32
    requires HasRegisters(l, w)
  {
    SetBits(Reloaded(l, field, bits, w)[l.cfg := ResetWord(l, field, bits, w)][l.mode], modeEn)
  }

  /**
   * Init's stores to window `w`, with `field` the timeout field of the mode
   * register and `bits` the shifted code to put there: the timeout field,
   * the reload, the reset action in the config register and the enable bit
   * of the mode register, each read-modify-write reading the word as the
   * previous stores left it.
   */
  function FieldInitWrites(l: RegLayout, modeEn: bv32, field: bv32, bits: bv32, w: Window): seq<Access>
    requires HasRegisters(l, w)
  {
    [Write(l.mode, TimeoutWord(l, field, bits, w)), Write(l.ctrl, ReloadValue),
     Write(l.cfg, ResetWord(l, field, bits, w)), Write(l.mode, EnableWord(l, modeEn, field, bits, w))]
  }

  /** The window init leaves, as the four words stored over the old window one after another. */
  function InitWindow(l: RegLayout, modeEn: bv32, field: bv32, bits: bv32, w: Window): Window
    requires HasRegisters(l, w)
  {
    Reloaded(l, field, bits, w)[l.cfg := ResetWord(l, field, bits, w)][l.mode := EnableWord(l, modeEn, field, bits, w)]
  }

  /** Init's stores for hardware code `code`, shifted into the layout's timeout field. */
  function InitWrites(l: RegLayout, modeEn: bv32, code: bv32, w: Window): seq<Access>
    requires l.timeoutShift <= 32
    requires HasRegisters(l, w)
  {
    FieldInitWrites(l, modeEn, TimeoutField(l), code << l.timeoutShift, w)
  }

  /**
   * What init relies on in the placement of its bits: `bits` inside `field`,
   * the field clear of the reset mask and of the enable bit, the reset value
   * inside its mask, the enable bit clear of the reset mask where config and
   * mode are one register, and the control register apart from both.
   */
  predicate Placement(l: RegLayout, modeEn: bv32, field: bv32, bits: bv32)
  {
    && bits & !field == 0
    && field & l.resetMask == 0
    && field & modeEn == 0
    && l.resetVal & !l.resetMask == 0
    && (l.cfg == l.mode ==> l.resetMask & modeEn == 0)
    && l.ctrl != l.cfg
    && l.ctrl != l.mode
  }

  /**
   * The mode-register bits that init may change: the timeout field, the
   * enable bit and, where config and mode are one register, the reset mask.
   */
  function Touched(l: RegLayout, modeEn: bv32, field: bv32): bv32
  {
    field | modeEn | (if l.cfg == l.mode then l.resetMask else 0)
  }

  /**
   * An armed watchdog, comparing the window `r` after init with the window
   * `w` before it: only the three registers change; the control register
   * holds the reload word; the timeout field holds `bits` and the enable bit
   * is set; the reset bits hold the reset value; every other bit of the mode
   * register, and of a config register of its own, is as it was.
   */
  ghost predicate FieldArmed(l: RegLayout, modeEn: bv32, field: bv32, bits: bv32, w: Window, r: Window)
    requires HasRegisters(l, w)
  {
    && SameOffsets(w, r)
    && (forall o | o in w && o != l.ctrl && o != l.cfg && o != l.mode :: r[o] == w[o])
    && r[l.ctrl] == ReloadValue
    && r[l.mode] & field == bits
    && r[l.mode] & modeEn == modeEn
    && r[l.mode] & !Touched(l, modeEn, field) == w[l.mode] & !Touched(l, modeEn, field)
    && r[l.cfg] & l.resetMask == l.resetVal
    && (l.cfg != l.mode ==> r[l.cfg] & !l.resetMask == w[l.cfg] & !l.resetMask)
  }

  /** An armed watchdog with hardware code `code` in the layout's timeout field. */
  ghost predicate InitArmed(l: RegLayout, modeEn: bv32, code: bv32, w: Window, r: Window)
    requires l.timeoutShift <= 32
    requires HasRegisters(l, w)
  {
    FieldArmed(l, modeEn, TimeoutField(l), code << l.timeoutShift, w, r)
  }

  /** Reload stores exactly the reload word at the control offset and nothing else. */
  lemma ResetReloads(l: RegLayout, w: Window)
    requires l.ctrl in w
    ensures Replay(w, ResetWrites(l)) == w[l.ctrl := ReloadValue]
    ensures SameOffsets(w, Replay(w, ResetWrites(l)))
    ensures forall o | o in w && o != l.ctrl :: Replay(w, ResetWrites(l))[o] == w[o]
  {
    ReplayOne(w, Write(l.ctrl, ReloadValue));
  }

  /** Two reloads leave the window as one does. */
  lemma ResetIdempotent(l: RegLayout, w: Window)
    ensures Replay(Replay(w, ResetWrites(l)), ResetWrites(l)) == Replay(w, ResetWrites(l))
  {
    ReplayOne(w, Write(l.ctrl, ReloadValue));
    ReplayOne(Replay(w, ResetWrites(l)), Write(l.ctrl, ReloadValue));
  }

  /**
   * Disable leaves the mode register 0 and every other offset as it was;
   * where config and mode are one register, the config register is 0 too.
   */
  lemma DisableClearsMode(l: RegLayout, w: Window)
    requires l.mode in w
    ensures SameOffsets(w, Replay(w, DisableWrites(l)))
    ensures Replay(w, DisableWrites(l))[l.mode] == 0
    ensures l.cfg == l.mode ==> Replay(w, DisableWrites(l))[l.cfg] == 0
    ensures forall o | o in w && o != l.mode :: Replay(w, DisableWrites(l))[o] == w[o]
  {
    ReplayOne(w, Write(l.mode, 0));
  }

  /**
   * Init's four stores, each word read back from the window the earlier
   * stores left: the offsets in order, and each word a read-modify-write of
   * what was there.
   */
  lemma InitStores(l: RegLayout, modeEn: bv32, field: bv32, bits: bv32, w: Window)
    requires HasRegisters(l, w)
    ensures var ws := FieldInitWrites(l, modeEn, field, bits, w);
      var w1 := w[l.mode := ws[0].value][l.ctrl := ReloadValue];
      && |ws| == 4
      && ws[0] == Write(l.mode, ClearSet(w[l.mode], field, bits))
      && ws[1] == Write(l.ctrl, ReloadValue)
      && ws[2] == Write(l.cfg, ClearSet(w1[l.cfg], l.resetMask, l.resetVal))
      && ws[3] == Write(l.mode, SetBits(w1[l.cfg := ws[2].value][l.mode], modeEn))
  {
  }

  /** Replaying init's stores leaves exactly the window `InitWindow` describes. */
  lemma InitReplays(l: RegLayout, modeEn: bv32, field: bv32, bits: bv32, w: Window)
    requires HasRegisters(l, w)
    ensures Replay(w, FieldInitWrites(l, modeEn, field, bits, w)) == InitWindow(l, modeEn, field, bits, w)
  {
    var ws := FieldInitWrites(l, modeEn, field, bits, w);
    ReplayFour(w, ws[0], ws[1], ws[2], ws[3]);
  }

  /** Init stores only at offsets the window already holds. */
  lemma InitKeepsOffsets(l: RegLayout, modeEn: bv32, field: bv32, bits: bv32, w: Window)
    requires HasRegisters(l, w)
    ensures SameOffsets(w, InitWindow(l, modeEn, field, bits, w))
  {
  }

  /** Init leaves every offset other than its three registers as it was. */
  lemma InitLeavesOthers(l: RegLayout, modeEn: bv32, field: bv32, bits: bv32, w: Window)
    requires HasRegisters(l, w)
    ensures var r := InitWindow(l, modeEn, field, bits, w);
      forall o | o in w && o != l.ctrl && o != l.cfg && o != l.mode :: o in r && r[o] == w[o]
  {
  }

  /** After init the control register holds the reload word. */
  lemma InitReloads(l: RegLayout, modeEn: bv32, field: bv32, bits: bv32, w: Window)
    requires l.ctrl != l.cfg && l.ctrl != l.mode
    requires HasRegisters(l, w)
    ensures var r := InitWindow(l, modeEn, field, bits, w);
      l.ctrl in r && r[l.ctrl] == ReloadValue
  {
  }

  /** Config and mode one register: the timeout field holds the shifted code. */
  lemma AliasedTimeoutField(l: RegLayout, modeEn: bv32, field: bv32, bits: bv32, w: Window)
    requires Placement(l, modeEn, field, bits) && l.cfg == l.mode
    requires HasRegisters(l, w)
    ensures var r := InitWindow(l, modeEn, field, bits, w);
      l.mode in r && r[l.mode] & field == bits
  {
  }

  /** Config a register of its own: the timeout field holds the shifted code. */
  lemma SeparateTimeoutField(l: RegLayout, modeEn: bv32, field: bv32, bits: bv32, w: Window)
    requires Placement(l, modeEn, field, bits) && l.cfg != l.mode
    requires HasRegisters(l, w)
    ensures var r := InitWindow(l, modeEn, field, bits, w);
      l.mode in r && r[l.mode] & field == bits
  {
  }

  /** After init the timeout field of the mode register holds the shifted code. */
  lemma InitTimeoutField(l: RegLayout, modeEn: bv32, field: bv32, bits: bv32, w: Window)
    requires Placement(l, modeEn, field, bits)
    requires HasRegisters(l, w)
    ensures var r := InitWindow(l, modeEn, field, bits, w);
      l.mode in r && r[l.mode] & field == bits
  {
    if l.cfg == l.mode {
      AliasedTimeoutField(l, modeEn, field, bits, w);
    } else {
      SeparateTimeoutField(l, modeEn, field, bits, w);
    }
  }

  /** After init the enable bit of the mode register is set. */
  lemma InitEnables(l: RegLayout, modeEn: bv32, field: bv32, bits: bv32, w: Window)
    requires Placement(l, modeEn, field, bits)
    requires HasRegisters(l, w)
    ensures var r := InitWindow(l, modeEn, field, bits, w);
      l.mode in r && r[l.mode] & modeEn == modeEn
  {
  }

  /**
   * Config and mode one register: the reset word is read back from the
   * timeout word, the enable word from the reset word, and the mode register
   * ends up holding the enable word.
   */
  lemma AliasedWords(l: RegLayout, modeEn: bv32, field: bv32, bits: bv32, w: Window)
    requires l.ctrl != l.mode && l.cfg == l.mode
    requires HasRegisters(l, w)
    ensures ResetWord(l, field, bits, w) == ClearSet(TimeoutWord(l, field, bits, w), l.resetMask, l.resetVal)
    ensures EnableWord(l, modeEn, field, bits, w) == SetBits(ResetWord(l, field, bits, w), modeEn)
    ensures l.mode in InitWindow(l, modeEn, field, bits, w)
    ensures InitWindow(l, modeEn, field, bits, w)[l.mode] == EnableWord(l, modeEn, field, bits, w)
  {
  }

  /** Config and mode one register: the three read-modify-writes keep every untouched bit of the old word. */
  lemma AliasedKeepWord(l: RegLayout, modeEn: bv32, field: bv32, bits: bv32, w: Window)
    requires HasRegisters(l, w)
    ensures Placement(l, modeEn, field, bits) && l.cfg == l.mode
      ==> SetBits(ClearSet(TimeoutWord(l, field, bits, w), l.resetMask, l.resetVal), modeEn) & !Touched(l, modeEn, field)
          == w[l.mode] & !Touched(l, modeEn, field)
  {
  }

  /** Config and mode one register: the untouched mode bits are kept. */
  lemma AliasedKeepsModeBits(l: RegLayout, modeEn: bv32, field: bv32, bits: bv32, w: Window)
    requires Placement(l, modeEn, field, bits) && l.cfg == l.mode
    requires HasRegisters(l, w)
    ensures var r := InitWindow(l, modeEn, field, bits, w);
      l.mode in r && r[l.mode] & !Touched(l, modeEn, field) == w[l.mode] & !Touched(l, modeEn, field)
  {
    AliasedWords(l, modeEn, field, bits, w);
    AliasedKeepWord(l, modeEn, field, bits, w);
  }

  /** Config a register of its own: the untouched mode bits are kept. */
  lemma SeparateKeepsModeBits(l: RegLayout, modeEn: bv32, field: bv32, bits: bv32, w: Window)
    requires Placement(l, modeEn, field, bits) && l.cfg != l.mode
    requires HasRegisters(l, w)
    ensures var r := InitWindow(l, modeEn, field, bits, w);
      l.mode in r && r[l.mode] & !Touched(l, modeEn, field) == w[l.mode] & !Touched(l, modeEn, field)
  {
  }

  /** Init changes no mode-register bit outside the ones it is meant to set. */
  lemma InitKeepsModeBits(l: RegLayout, modeEn: bv32, field: bv32, bits: bv32, w: Window)
    requires Placement(l, modeEn, field, bits)
    requires HasRegisters(l, w)
    ensures var r := InitWindow(l, modeEn, field, bits, w);
      l.mode in r && r[l.mode] & !Touched(l, modeEn, field) == w[l.mode] & !Touched(l, modeEn, field)
  {
    if l.cfg == l.mode {
      AliasedKeepsModeBits(l, modeEn, field, bits, w);
    } else {
      SeparateKeepsModeBits(l, modeEn, field, bits, w);
    }
  }

  /** Config and mode one register: the reset bits hold the reset value. */
  lemma AliasedSelectsReset(l: RegLayout, modeEn: bv32, field: bv32, bits: bv32, w: Window)
    requires Placement(l, modeEn, field, bits) && l.cfg == l.mode
    requires HasRegisters(l, w)
    ensures var r := InitWindow(l, modeEn, field, bits, w);
      l.cfg in r && r[l.cfg] & l.resetMask == l.resetVal
  {
  }

  /** Config a register of its own: the reset bits hold the reset value. */
  lemma SeparateSelectsReset(l: RegLayout, modeEn: bv32, field: bv32, bits: bv32, w: Window)
    requires Placement(l, modeEn, field, bits) && l.cfg != l.mode
    requires HasRegisters(l, w)
    ensures var r := InitWindow(l, modeEn, field, bits, w);
      l.cfg in r && r[l.cfg] & l.resetMask == l.resetVal
  {
  }

  /** After init the reset-action bits of the config register hold the reset value. */
  lemma InitSelectsReset(l: RegLayout, modeEn: bv32, field: bv32, bits: bv32, w: Window)
    requires Placement(l, modeEn, field, bits)
    requires HasRegisters(l, w)
    ensures var r := InitWindow(l, modeEn, field, bits, w);
      l.cfg in r && r[l.cfg] & l.resetMask == l.resetVal
  {
    if l.cfg == l.mode {
      AliasedSelectsReset(l, modeEn, field, bits, w);
    } else {
      SeparateSelectsReset(l, modeEn, field, bits, w);
    }
  }

  /** A config register of its own keeps every bit outside the reset mask. */
  lemma InitKeepsCfgBits(l: RegLayout, modeEn: bv32, field: bv32, bits: bv32, w: Window)
    requires Placement(l, modeEn, field, bits)
    requires l.cfg != l.mode
    requires HasRegisters(l, w)
    ensures var r := InitWindow(l, modeEn, field, bits, w);
      l.cfg in r && r[l.cfg] & !l.resetMask == w[l.cfg] & !l.resetMask
  {
  }

  /** Init's stores arm the watchdog whenever its bits are placed as it relies on. */
  lemma FieldInitArms(l: RegLayout, modeEn: bv32, field: bv32, bits: bv32, w: Window)
    requires Placement(l, modeEn, field, bits)
    requires HasRegisters(l, w)
    ensures FieldArmed(l, modeEn, field, bits, w, InitWindow(l, modeEn, field, bits, w))
  {
    InitKeepsOffsets(l, modeEn, field, bits, w);
    InitLeavesOthers(l, modeEn, field, bits, w);
    InitReloads(l, modeEn, field, bits, w);
    InitTimeoutField(l, modeEn, field, bits, w);
    InitEnables(l, modeEn, field, bits, w);
    InitKeepsModeBits(l, modeEn, field, bits, w);
    InitSelectsReset(l, modeEn, field, bits, w);
    if l.cfg != l.mode {
      InitKeepsCfgBits(l, modeEn, field, bits, w);
    }
  }

  /** A layout and enable bit that meet the driver's assumptions place every hardware code as init relies on. */
  lemma CodePlacement(l: RegLayout, modeEn: bv32, code: bv32)
    requires LayoutInvariant(l) && ModeEnCompatible(l, modeEn)
    requires code & !TimeoutMask == 0
    ensures Placement(l, modeEn, TimeoutField(l), code << l.timeoutShift)
  {
    ShiftedCodeInField(l, code);
  }

  /**
   * Init arms the watchdog: the timeout field holds the code, the enable bit
   * is set, the reset action is selected, the reload word is in the control
   * register, and no other bit or offset changes.
   */
  lemma InitArms(l: RegLayout, modeEn: bv32, code: bv32, w: Window)
    requires LayoutInvariant(l) && ModeEnCompatible(l, modeEn)
    requires code & !TimeoutMask == 0
    requires HasRegisters(l, w)
    ensures InitArmed(l, modeEn, code, w, Replay(w, InitWrites(l, modeEn, code, w)))
  {
    CodePlacement(l, modeEn, code);
    InitReplays(l, modeEn, TimeoutField(l), code << l.timeoutShift, w);
    FieldInitArms(l, modeEn, TimeoutField(l), code << l.timeoutShift, w);
  }

  /** Disabling an armed watchdog leaves its mode register 0. */
  lemma InitThenDisable(l: RegLayout, modeEn: bv32, code: bv32, w: Window)
    requires l.timeoutShift <= 32
    requires HasRegisters(l, w)
    ensures Replay(Replay(w, InitWrites(l, modeEn, code, w)), DisableWrites(l))[l.mode] == 0
  {
    ReplayOne(Replay(w, InitWrites(l, modeEn, code, w)), Write(l.mode, 0));
  }

  /**
   * A second-generation watchdog armed for 10 s, with the enable bit at
   * bit 0: code 0x8 in bits 4..7 and bit 0 of the mode register, and reset
   * action 0x1 in the two low bits of the config register.
   */
  lemma Sun6iTenSeconds(w: Window)
    requires HasRegisters(Sun6iDogRegs, w)
    ensures TimeoutCode(10) == Some(0x8)
    ensures var r := Replay(w, InitWrites(Sun6iDogRegs, 0x1, 0x8, w));
      && (r[0x18] >> 4) & 0xf == 0x8
      && r[0x18] & 0x1 == 0x1
      && r[0x14] & 0x3 == 0x1
  {
    InitArms(Sun6iDogRegs, 0x1, 0x8, w);
  }

  /**
   * The watchdog block seen through its register window, with the layout
   * and the enable bit fixed when the device is set up. `writes` logs every
   * store in order; `powerOn` is the window before the first of them.
   */
  class WatchdogDevice {
    const layout: RegLayout
    const modeEn: bv32
    var window: Window
    ghost var writes: seq<Access>
    ghost var powerOn: Window

    ghost predicate Valid()
      reads this
    {
      && LayoutInvariant(layout)
      && ModeEnCompatible(layout, modeEn)
      && HasRegisters(layout, powerOn)
      && window == Replay(powerOn, writes)
    }

    constructor (layout: RegLayout, modeEn: bv32, window: Window)
      requires LayoutInvariant(layout) && ModeEnCompatible(layout, modeEn)
      requires HasRegisters(layout, window)
      ensures Valid()
      ensures this.layout == layout && this.modeEn == modeEn
      ensures this.window == window && writes == []
    {
      this.layout := layout;
      this.modeEn := modeEn;
      this.window := window;
      writes := [];
      powerOn := window;
    }

    /** A 32-bit read of the register at `offset`. */
    method ReadL(offset: nat) returns (v: bv32)
      requires offset in window
      ensures v == window[offset]
    {
      v := window[offset];
    }

    /** A 32-bit store of `v` to the register at `offset`, logged. */
    method WriteL(offset: nat, v: bv32)
      requires Valid()
      modifies this
      ensures Valid()
      ensures window == old(window)[offset := v]
      ensures writes == old(writes) + [Write(offset, v)]
      ensures powerOn == old(powerOn)
    {
      ReplayConcat(powerOn, writes, [Write(offset, v)]);
      ReplayOne(window, Write(offset, v));
      window := window[offset := v];
      writes := writes + [Write(offset, v)];
    }

    /** Reload the countdown: store the key and restart bit in the control register. */
    method Reset()
      requires Valid()
      modifies this
      ensures Valid() && powerOn == old(powerOn)
      ensures writes == old(writes) + ResetWrites(layout)
      ensures window == old(window)[layout.ctrl := ReloadValue]
      ensures window == Replay(old(window), ResetWrites(layout))
      ensures window[layout.ctrl] == ReloadValue && SameOffsets(old(window), window)
      ensures forall o | o in old(window) && o != layout.ctrl :: window[o] == old(window)[o]
    {
      ResetReloads(layout, window);
      WriteL(layout.ctrl, CtrlKey | CtrlRestart);
    }

    /** Stop the watchdog: clear the whole mode register. */
    method Disable()
      requires Valid()
      modifies this
      ensures Valid() && powerOn == old(powerOn)
      ensures writes == old(writes) + DisableWrites(layout)
      ensures window == Replay(old(window), DisableWrites(layout))
      ensures window[layout.mode] == 0 && SameOffsets(old(window), window)
      ensures layout.cfg == layout.mode ==> window[layout.cfg] == 0
      ensures forall o | o in old(window) && o != layout.mode :: window[o] == old(window)[o]
    {
      DisableClearsMode(layout, window);
      WriteL(layout.mode, 0);
    }

    /** Init's first store: the timeout field of the mode register set to hardware code `code`. */
    method WriteTimeout(code: bv32)
      requires Valid()
      modifies this
      ensures Valid() && powerOn == old(powerOn)
      ensures var word := ClearSet(old(window)[layout.mode], TimeoutField(layout), code << layout.timeoutShift);
        && window == old(window)[layout.mode := word]
        && writes == old(writes) + [Write(layout.mode, word)]
    {
      var reg := ReadL(layout.mode);
      reg := reg & !(TimeoutMask << layout.timeoutShift);
      reg := reg | (code << layout.timeoutShift);
      WriteL(layout.mode, reg);
    }

    /** Init's third store: the reset action selected in the config register. */
    method WriteResetAction()
      requires Valid()
      modifies this
      ensures Valid() && powerOn == old(powerOn)
      ensures var word := ClearSet(old(window)[layout.cfg], layout.resetMask, layout.resetVal);
        && window == old(window)[layout.cfg := word]
        && writes == old(writes) + [Write(layout.cfg, word)]
    {
      var reg := ReadL(layout.cfg);
      reg := reg & !layout.resetMask;
      reg := reg | layout.resetVal;
      WriteL(layout.cfg, reg);
    }

    /** Init's last store: the enable bit set in the mode register. */
    method WriteEnable()
      requires Valid()
      modifies this
      ensures Valid() && powerOn == old(powerOn)
      ensures var word := SetBits(old(window)[layout.mode], modeEn);
        && window == old(window)[layout.mode := word]
        && writes == old(writes) + [Write(layout.mode, word)]
    {
      var reg := ReadL(layout.mode);
      reg := reg | modeEn;
      WriteL(layout.mode, reg);
    }

    /**
     * Arm the watchdog for `timeout` seconds. A timeout without a hardware
     * code is refused and nothing is written; otherwise the four stores
     * happen in order: timeout field, reload, reset action, enable.
     */
    method Init(timeout: int) returns (ok: bool)
      requires Valid()
      modifies this
      ensures Valid() && powerOn == old(powerOn)
      ensures ok <==> TimeoutCode(timeout).Some?
      ensures !ok ==> window == old(window) && writes == old(writes)
      ensures ok ==> writes == old(writes) + InitWrites(layout, modeEn, TimeoutCode(timeout).value, old(window))
      ensures ok ==> window == Replay(old(window), InitWrites(layout, modeEn, TimeoutCode(timeout).value, old(window)))
    {
      var code := TimeoutCode(timeout);
      if code.None? {
        return false;
      }
      ghost var before, logged := window, writes;
      ghost var ws := InitWrites(layout, modeEn, code.value, before);
      InitStores(layout, modeEn, TimeoutField(layout), code.value << layout.timeoutShift, before);

      WriteTimeout(code.value);
      Reset();
      WriteResetAction();
      WriteEnable();
      ok := true;

      AppendFour(logged, ws[0], ws[1], ws[2], ws[3]);
      assert ws == [ws[0], ws[1], ws[2], ws[3]];
      ReplayConcat(powerOn, logged, ws);
    }
  }
}
