# sunxi watchdog driver, modelled in Dafny

This project models the U-Boot watchdog driver for Allwinner (sunxi) SoCs,
`drivers/watchdog/sunxi_wdt.c`. The driver knows two register layouts:

- the first generation (sun4i), where the config and mode registers are the
  same word at offset 0x04;
- the second generation (sun6i), with separate ctrl, cfg and mode registers
  at 0x10, 0x14 and 0x18.

It offers three operations on the watchdog's 32-bit register window:

- reload (`hw_watchdog_reset`): one keyed store to the control register;
- disable (`hw_watchdog_disable`): clears the mode register;
- init (`hw_watchdog_init`): three read-modify-writes with a reload between
  the first and the second.

The model has five modules:

- `Wrappers` (`wrappers.dfy`): the `Option` type.
- `SunxiLayout` (`layout.dfy`):
  - the `WDT_CTRL_*` and `WDT_TIMEOUT_MASK` constants;
  - the `struct sunxi_wdt_reg` record and its two instances;
  - the build-time choice between them;
  - the assumptions the driver makes about a layout and about the enable bit.
- `SunxiTimeout` (`timeout_map.dfy`): the `wdt_timeout_map` table as the C
  array holds it, and the encoder `TimeoutCode`, which returns `None` for
  the holes of the table and for indices outside it.
- `RegisterWindow` (`window.dfy`):
  - the register window is a map from byte offset to 32-bit word;
  - a store is an `Access`;
  - `Replay` performs a log of stores on a window;
  - `ClearSet` and `SetBits` are the `reg &= ~mask; reg |= bits` and
    `reg |= bits` idioms.
- `SunxiWdt` (`watchdog.dfy`):
  - each operation's stores as a function of the layout and the window it
    reads: `ResetWrites`, `DisableWrites`, and `InitWrites`, which is
    `FieldInitWrites` with the layout's timeout field and the shifted code;
  - init's three computed words `TimeoutWord`, `ResetWord` and `EnableWord`,
    each read back from the window the earlier stores left;
  - `InitWindow`, the window after init as four map updates, and the lemma
    `InitReplays` that replaying init's stores gives exactly that window;
  - lemmas on what those stores leave in the window;
  - the class `WatchdogDevice`, which performs them through `ReadL`/`WriteL`
    the way the C code does.

The device keeps the window in a field and every store in a ghost write log. Its
invariant `Valid()` says the window is the power-on window with the log
replayed on it. So each method's `ensures` names both its stores and the new
window, and the lemmas about `Replay` of those stores say what the
registers then hold.

For init, the central statement is `InitArmed` (`FieldArmed` for an
arbitrary field and bits). It compares the window after init with the window
before it:

- only the three registers change;
- the control register holds the reload word 0x14AF;
- the timeout field `0xf << shift` of the mode register holds the shifted
  code;
- the enable bit is set;
- the reset-mask bits of the config register hold the reset value;
- every other mode bit is unchanged. On sun4i the reset mask counts as
  changed too, because it lies in the same word.
- A config register of its own (sun6i) keeps every bit outside the reset
  mask.

`InitArms` proves this for every layout and enable bit that meet the
driver's assumptions and for every code that fits the 4-bit field.
`SelectLayout` proves that both layouts meet those assumptions with the
enable bit at bit 0.

## Model

| member | source | states |
|---|---|---|
| SunxiLayout.CtrlRestart | drivers/watchdog/sunxi_wdt.c:14 | the restart bit of the control register, bit 0 |
| SunxiLayout.CtrlKey | drivers/watchdog/sunxi_wdt.c:15 | the key 0x0a57 shifted left by one |
| SunxiLayout.TimeoutMask | drivers/watchdog/sunxi_wdt.c:16 | the 4-bit timeout field mask 0xf, before shifting |
| SunxiLayout.ReloadValue | drivers/watchdog/sunxi_wdt.c:70 | the word a reload stores, key or-ed with the restart bit |
| SunxiLayout.ReloadValueIsKeyAndRestart | drivers/watchdog/sunxi_wdt.c:14-15 | the reload word is 0x14AF: the restart bit 0 set and the key 0x0a57 in the bits above it |
| SunxiLayout.RegLayout | drivers/watchdog/sunxi_wdt.c:18-25 | the `struct sunxi_wdt_reg` record: the ctrl, cfg and mode offsets, the timeout shift, and the reset mask and value, in struct order |
| SunxiLayout.TimeoutField | drivers/watchdog/sunxi_wdt.c:85 | the mode-register bits init clears for the timeout: `WDT_TIMEOUT_MASK` shifted by the layout's timeout shift |
| SunxiLayout.Sun4iDogRegs | drivers/watchdog/sunxi_wdt.c:27-34 | the first-generation layout: ctrl 0x00, cfg and mode both 0x04, shift 3, reset mask 0x02, reset value 0x02 |
| SunxiLayout.Sun6iDogRegs | drivers/watchdog/sunxi_wdt.c:36-43 | the second-generation layout: ctrl 0x10, cfg 0x14, mode 0x18, shift 4, reset mask 0x03, reset value 0x01 |
| SunxiLayout.SelectLayout | drivers/watchdog/sunxi_wdt.c:27-43 | the build flag selects the sun6i offsets 0x10/0x14/0x18, shift 4 and mask/value 0x03/0x01, or the sun4i offsets 0x00/0x04/0x04, shift 3 and mask/value 0x02/0x02. Either layout has its reset value inside its mask, its timeout field clear of the mask and of enable bit 0, word-aligned offsets, and ctrl apart from cfg and mode |
| SunxiLayout.AliasingOnlyInSun4i | drivers/watchdog/sunxi_wdt.c:27-43 | config and mode are one register in the sun4i layout only |
| SunxiTimeout.WdtTimeoutMap | drivers/watchdog/sunxi_wdt.c:45-57 | the C array as initialised: 17 entries indexed by seconds, 0x1..0x6 at 1..6, 0x7..0xB at 8, 10, 12, 14, 16, and 0 at every index without a designated initialiser |
| SunxiTimeout.TimeoutCode | drivers/watchdog/sunxi_wdt.c:45-57 | a timeout has a code exactly when it is one of 1, 2, 3, 4, 5, 6, 8, 10, 12, 14, 16 s. The code is the table entry, lies in 0x1..0xB and fits in the 4-bit mask |
| SunxiTimeout.TimeoutCodeListed | drivers/watchdog/sunxi_wdt.c:45-57 | the i-th supported timeout encodes as i + 1, so 1..6 s give 0x1..0x6 and 8..16 s give 0x7..0xB |
| SunxiTimeout.TimeoutCodeHoles | drivers/watchdog/sunxi_wdt.c:45-57 | 0 or less, 7, 9, 11, 13, 15 and every value above 16 have no code |
| SunxiTimeout.TimeoutCodeIncreasing | drivers/watchdog/sunxi_wdt.c:45-57 | a longer supported timeout has a strictly larger code |
| SunxiTimeout.TimeoutCodeInjective | drivers/watchdog/sunxi_wdt.c:45-57 | two supported timeouts with the same code are equal |
| SunxiTimeout.ShiftedCodeInField | drivers/watchdog/sunxi_wdt.c:85-86 | a 4-bit code shifted by the layout's shift sets no bit outside `0xf << shift` |
| RegisterWindow.ClearSet | drivers/watchdog/sunxi_wdt.c:85-86 | the `reg &= ~mask; reg \|= bits` read-modify-write, also at lines 93-94 |
| RegisterWindow.ClearSetInside | drivers/watchdog/sunxi_wdt.c:93-94 | with the bits inside the mask, the masked bits of the result are those bits, for any old word |
| RegisterWindow.ClearSetOutside | drivers/watchdog/sunxi_wdt.c:93-94 | with the bits inside the mask, every bit outside the mask keeps its old value, for any old word |
| RegisterWindow.SetBits | drivers/watchdog/sunxi_wdt.c:99 | the `reg \|= bits` read-modify-write |
| RegisterWindow.SetBitsSets | drivers/watchdog/sunxi_wdt.c:99 | after or-ing, every one of the bits is set |
| RegisterWindow.SetBitsKeeps | drivers/watchdog/sunxi_wdt.c:99 | after or-ing, every other bit keeps its old value |
| SunxiWdt.ResetWrites | drivers/watchdog/sunxi_wdt.c:70 | a reload is one store of the reload word at the ctrl offset |
| SunxiWdt.DisableWrites | drivers/watchdog/sunxi_wdt.c:76 | a disable is one store of 0 at the mode offset |
| SunxiWdt.TimeoutWord | drivers/watchdog/sunxi_wdt.c:84-86 | init's first word: the mode register read, its timeout field cleared and the shifted code or-ed in |
| SunxiWdt.Reloaded | drivers/watchdog/sunxi_wdt.c:87-89 | the window after init's first two stores: the timeout word at mode, then the reload word at ctrl; the cfg read at line 92 reads from it |
| SunxiWdt.ResetWord | drivers/watchdog/sunxi_wdt.c:92-94 | init's third word: the cfg register as the timeout store and the reload left it, reset mask cleared and reset value or-ed in |
| SunxiWdt.EnableWord | drivers/watchdog/sunxi_wdt.c:98-99 | init's last word: the mode register as the first three stores left it, the enable bit or-ed in |
| SunxiWdt.FieldInitWrites | drivers/watchdog/sunxi_wdt.c:84-100 | init's four stores in order: the timeout word at mode, the reload word at ctrl, the reset word at cfg, the enable word at mode |
| SunxiWdt.InitWrites | drivers/watchdog/sunxi_wdt.c:84-100 | init's stores for a hardware code, with the field `0xf << shift` and the code shifted by the layout's shift |
| SunxiWdt.InitWindow | drivers/watchdog/sunxi_wdt.c:84-100 | the window after init: the four words stored over the old window one after another |
| SunxiWdt.InitReplays | drivers/watchdog/sunxi_wdt.c:84-100 | replaying init's four stores on a window gives exactly `InitWindow` |
| SunxiWdt.ResetReloads | drivers/watchdog/sunxi_wdt.c:67-71 | a reload stores the reload word at the ctrl offset and changes no other offset |
| SunxiWdt.ResetIdempotent | drivers/watchdog/sunxi_wdt.c:67-71 | two reloads leave the window as one does |
| SunxiWdt.DisableClearsMode | drivers/watchdog/sunxi_wdt.c:73-77 | disable leaves the mode register 0 and every other offset unchanged. Where cfg and mode alias (sun4i), the cfg register is 0 too |
| SunxiWdt.InitStores | drivers/watchdog/sunxi_wdt.c:84-100 | init stores four words in this order: (1) mode, with the timeout field cleared and set; (2) ctrl, the reload word; (3) cfg, with the reset mask cleared and the reset value set, read after the first two stores; (4) mode, with the enable bit or-ed into the word the earlier stores left |
| SunxiWdt.InitKeepsOffsets | drivers/watchdog/sunxi_wdt.c:84-100 | init adds no register and removes none |
| SunxiWdt.InitLeavesOthers | drivers/watchdog/sunxi_wdt.c:84-100 | init changes no offset other than ctrl, cfg and mode |
| SunxiWdt.InitReloads | drivers/watchdog/sunxi_wdt.c:89 | after init the ctrl register holds the reload word |
| SunxiWdt.InitTimeoutField | drivers/watchdog/sunxi_wdt.c:84-87 | after init the timeout field of the mode register holds the shifted code, even where the later cfg store lands in the same word |
| SunxiWdt.InitEnables | drivers/watchdog/sunxi_wdt.c:98-100 | after init the enable bit of the mode register is set |
| SunxiWdt.AliasedWords | drivers/watchdog/sunxi_wdt.c:92-99 | where cfg and mode are one register (sun4i), the cfg read sees the timeout word, the second mode read sees the reset word, and the register ends up holding the enable word |
| SunxiWdt.InitKeepsModeBits | drivers/watchdog/sunxi_wdt.c:84-100 | init changes no mode bit outside the timeout field and the enable bit, and, on sun4i, the reset mask |
| SunxiWdt.InitSelectsReset | drivers/watchdog/sunxi_wdt.c:91-95 | after init the reset-mask bits of the cfg register equal the reset value, even where the later enable store lands in the same word |
| SunxiWdt.InitKeepsCfgBits | drivers/watchdog/sunxi_wdt.c:91-95 | a cfg register of its own keeps every bit outside the reset mask |
| SunxiWdt.FieldInitArms | drivers/watchdog/sunxi_wdt.c:84-100 | the window init leaves is armed (all of the above together) whenever the field, the bits placed in it, the reset mask and the enable bit do not overlap as the driver relies on |
| SunxiWdt.CodePlacement | drivers/watchdog/sunxi_wdt.c:85-86 | in a layout meeting the driver's assumptions, every 4-bit code shifted into place meets init's placement conditions |
| SunxiWdt.InitArms | drivers/watchdog/sunxi_wdt.c:79-100 | for any such layout, enable bit and code, and any window holding the three registers, init's stores arm the watchdog with that code |
| SunxiWdt.InitThenDisable | drivers/watchdog/sunxi_wdt.c:73-77 | disable after init leaves the mode register 0 |
| SunxiWdt.Sun6iTenSeconds | drivers/watchdog/sunxi_wdt.c:36-43 | on sun6i with enable bit 0, a 10 s init puts code 0x8 in bits 4..7 of the mode register at 0x18, sets its bit 0, and puts 0x1 in the two low bits of the cfg register at 0x14 |
| SunxiWdt.WatchdogDevice.constructor | drivers/watchdog/sunxi_wdt.c:59-65 | a device over a window holding the layout's registers starts with an empty write log |
| SunxiWdt.WatchdogDevice.ReadL | drivers/watchdog/sunxi_wdt.c:84 | a 32-bit read returns the word at the offset |
| SunxiWdt.WatchdogDevice.WriteL | drivers/watchdog/sunxi_wdt.c:87 | a 32-bit store updates that one offset and appends itself to the log |
| SunxiWdt.WatchdogDevice.Reset | drivers/watchdog/sunxi_wdt.c:67-71 | the window afterwards is the old one with the reload word at ctrl; the log gains exactly that store |
| SunxiWdt.WatchdogDevice.Disable | drivers/watchdog/sunxi_wdt.c:73-77 | the mode register is 0 and nothing else changes (the cfg register too on sun4i); the log gains exactly that store |
| SunxiWdt.WatchdogDevice.WriteTimeout | drivers/watchdog/sunxi_wdt.c:84-87 | the mode word is read, its timeout field cleared and set to the shifted code, and stored back |
| SunxiWdt.WatchdogDevice.WriteResetAction | drivers/watchdog/sunxi_wdt.c:91-95 | the cfg word is read, its reset mask cleared and set to the reset value, and stored back |
| SunxiWdt.WatchdogDevice.WriteEnable | drivers/watchdog/sunxi_wdt.c:97-100 | the mode word is read, the enable bit or-ed in, and stored back |
| SunxiWdt.WatchdogDevice.Init | drivers/watchdog/sunxi_wdt.c:79-100 | init succeeds exactly when the timeout has a code. On success the log gains init's four stores and the window is the old one with them performed, so `InitArms` applies; on failure nothing changes |

## Left out

- Memory-mapped I/O semantics: the window is plain memory. `readl`/`writel`
  have no volatility and no barriers, and what the hardware does with a
  control-register store (key check, countdown restart) is not modelled.
- The base address `wdt_base` (drivers/watchdog/sunxi_wdt.c:65): it comes
  from headers that are not part of this model, so the window is indexed by
  the offsets alone.
- Build-time configuration: `CONFIG_SUNXI_GEN_SUN6I` becomes the argument of
  `SelectLayout`, and `CONFIG_SUNXI_WDT_TIMEOUT` becomes the argument of
  `Init`.
- The value of `WDT_MODE_EN`: it is defined in a header that is not part of
  this model, so it is the device's `modeEn`. `ModeEnCompatible` constrains
  it to a single bit outside the timeout field. For sun4i, it must also be
  outside the reset mask, because config and mode are one word there.
  `SelectLayout` proves both layouts meet this with bit 0.
- SunxiWdt.WatchdogDevice.Init: when the timeout has no table entry, the
  model refuses it and writes nothing. The C code performs the stores
  anyway: for a hole it writes code 0, and for an index above 16 it reads
  past the end of the array. The timeout is a build constant, so this is
  the configured value's domain, not a run-time path.
- SunxiWdt.WatchdogDevice.Init: the `ensures` states the new window as init's
  stores replayed on the old one. The armed-watchdog property is the lemma
  `InitArms` about that window, not a clause of the method.
- Integer widths:
  - The `u32` offsets of `struct sunxi_wdt_reg` are `nat` offsets, and the
    shift is a 32-bit word.
  - The C shift of the table entry happens on a signed `int`. The
    `LayoutInvariant` bound (shift below 28) keeps a 4-bit code clear of the
    sign bit, so the model shifts in 32 bits.
- Sub-word overlap: the window maps each offset to a whole 32-bit word, so
  two distinct offsets never share a byte. `LayoutInvariant` demands
  word-aligned offsets, which makes this match memory for every layout it
  admits, including the two real ones.
- Concurrency and interrupt-context reloads: the driver is single-threaded.
- State between calls: the driver keeps none beyond the registers.
