# pac25-hal in Dafny

This project models the core of `pac25-hal`, the hardware abstraction layer for the PAC25
family of microcontrollers, and proves properties of the model. It covers six parts.

- **The clock tree** (`src/scc/config.rs`, `src/scc/mod.rs`).
  - `Config` and `PllConfig` are builders made of field-replacing setters. The PLL
    divider setters abort on out-of-range values.
  - The PLL's VCO and output frequencies are computed from the divider values.
  - `Scc::freeze` runs its stages in a fixed order: FRCLK, then SCLK (through the PLL
    after waiting for lock when selected), then HCLK, ACLK and PCLK. It derives the four
    clocks and programs the matching CCSCTL and CCSPLLCTL register fields.
- **GPIO pin logic** (`src/gpio.rs`).
  - Modes and the capability each mode grants. An `Input` pin is *active* (its pulls may
    be changed) and *readable*. An open-drain output is readable. Output modes may drive
    the latch.
  - Port and pin ids, the split of a port into pins, and the `Debug` text of a pin.
  - The pull-up/pull-down register sequence of `set_internal_resistor`. It never enables
    both pulls of one pin at the same time, and it leaves every other pin alone.
  - The set/clear/toggle writes on the output latch, and the latch and input read-backs.
- **The window watchdog** (`src/watchdog.rs`).
  - The prescaler search and the count-down value `setup` computes, with the timeout
    arithmetic and its `u32` bounds.
  - The register sequence of `setup` and `start`: the unprotect key first, the protect
    key last.
  - Two places where a `write` (which starts from the register's reset value) undoes an
    earlier write; see "Findings".
- **The SPI configuration builder** (`src/ssp/config.rs`), with its data-size bounds.
- **The UART configuration builder** (`src/uart.rs`), with its default and `From<Bps>`.
- **`stripped_type_name`** (`src/lib.rs`): the last `::`-separated piece of a type
  name. The pin `Debug` text uses it.

How the model is built:
- One module per source file, plus `Common` (integer widths, `Option`, `Result`),
  `Arith` (facts about rounded-down division) and `Bits` (single-bit register updates).
- The builders are pure, so they are datatypes and functions.
- The register blocks that the drivers change step by step are classes:
  - `Scc.SccRegisters`, `Gpio.Port` and `Watchdog.Wwdt` each have one field per register
    field they touch.
  - `Scc.SccRegisters` and `Watchdog.Wwdt` also keep a ghost trace of their register
    accesses, oldest first, so that the order of writes can be stated.
  - `Gpio.Port` keeps a ghost history of the pull registers only: one snapshot of the
    PUEN/PDEN pair after each write of `set_internal_resistor`. The output-latch writes of
    `set_high`, `set_low`, `set_state` and `toggle` are not traced; their contracts state
    only the latch after the call.
- A Rust `assert!` that aborts becomes an `Err` result.
- The PLL lock busy-wait is a loop. The hardware's behaviour is the `lockPolls` parameter:
  the number of reads that see the lock bit clear before it is set.

## Model

| member | source | states |
|---|---|---|
| Lib.Split | src/lib.rs:29 | `split("::")` yields at least one piece, and the first piece is a prefix of the input |
| Lib.JoinSplit | src/lib.rs:29 | joining the pieces with `::` gives the input back |
| Lib.SplitPiecesHaveNoDelim | src/lib.rs:29 | no piece contains `::` |
| Lib.SplitWithoutDelim | src/lib.rs:29 | a string without `::` splits into itself alone |
| Lib.SplitAround | src/lib.rs:29 | splitting `a::t` splits `a` and `t` separately when `a` does not end in `:` |
| Lib.JoinEndsWithLast | src/lib.rs:30 | the joined string ends with the last piece |
| Lib.StrippedTypeName | src/lib.rs:27-31 | the result is a suffix of the type name, contains no `::`, and is the whole name when the name has no `::` |
| Lib.StrippedAfterLastDelim | src/lib.rs:27-31 | after a final `::` the remainder is the stripped name |
| SccConfig.Divisor | src/scc/mod.rs:89-103 | prescaler code `c` divides by `c + 1`, between 1 and 16 |
| SccConfig.DefaultConfig | src/scc/config.rs:48-62 | the default clock tree; every field is stated by `DefaultConfigFields` |
| SccConfig.DefaultConfigFields | src/scc/config.rs:48-62 | the default tree: all divisors 1, ACLK/PCLK/ROSC enabled, SCLK from FRCLK, FRCLK from the ring oscillator, default PLL |
| SccConfig.Hclk | src/scc/config.rs:66-69 | sets the HCLK divider and changes no other field |
| SccConfig.AclkEnable | src/scc/config.rs:72-75 | sets the ACLK enable and changes no other field |
| SccConfig.Aclk | src/scc/config.rs:78-81 | sets the ACLK divider and changes no other field |
| SccConfig.PclkEnable | src/scc/config.rs:84-87 | sets the PCLK enable and changes no other field |
| SccConfig.Pclk | src/scc/config.rs:90-93 | sets the PCLK divider and changes no other field |
| SccConfig.Sclk | src/scc/config.rs:96-99 | sets the SCLK input and changes no other field |
| SccConfig.RoscEnable | src/scc/config.rs:102-105 | sets the ROSC enable and changes no other field |
| SccConfig.Frclk | src/scc/config.rs:108-111 | sets the FRCLK source and changes no other field |
| SccConfig.Pll | src/scc/config.rs:114-117 | sets the PLL configuration and changes no other field |
| SccConfig.ConfigSetterLaws | src/scc/config.rs:64-118 | for every one of the nine setters a second call overrides the first; the HCLK and PCLK dividers commute, and so do the SCLK and FRCLK multiplexers |
| SccConfig.PllSetterLaws | src/scc/config.rs:145-182 | for every one of the five PLL setters a second call overrides the first, the range-checked `fbdiv` and `indiv` when both calls pass their check |
| SccConfig.DefaultPll | src/scc/config.rs:133-143 | the default PLL configuration; every field and its 0 Hz output are stated by `DefaultPllOutputsNothing` |
| SccConfig.DefaultPllOutputsNothing | src/scc/config.rs:133-143 | the default PLL has zero dividers, divide-by-1 output, no bypass, is disabled, and outputs 0 Hz for every input |
| SccConfig.Fbdiv | src/scc/config.rs:149-154 | accepted exactly for 4..16383, then sets only `fbdiv`; otherwise aborts |
| SccConfig.Indiv | src/scc/config.rs:159-164 | accepted exactly for 1..15, then sets only `indiv`; otherwise aborts |
| SccConfig.Outdiv | src/scc/config.rs:167-170 | sets the output divider and changes no other field |
| SccConfig.Bypass | src/scc/config.rs:173-176 | sets the bypass flag and changes no other field |
| SccConfig.Enabled | src/scc/config.rs:179-182 | sets the enable flag and changes no other field |
| SccConfig.BuilderKeepsBuildable | src/scc/config.rs:133-182 | starting from the default, every setter keeps `fbdiv` at 0 or in 4..16383 and `indiv` at most 15 |
| SccConfig.VcoFreq | src/scc/config.rs:185-190 | `input * fbdiv / indiv` rounded down unless it saturates; saturation at `u32::MAX` happens exactly at `UINT32_MAX * indiv`; with `indiv == 0` the result is `u32::MAX` for nonzero input and `fbdiv`, else 0 |
| SccConfig.OutFreq | src/scc/config.rs:193-198 | the VCO frequency divided by `outdiv + 1`, rounded down |
| SccConfig.OutFreqExact | src/scc/config.rs:185-198 | without saturation the output is `input * fbdiv / (indiv * (outdiv + 1))` rounded down |
| SccConfig.OutFreqAtMostVco | src/scc/config.rs:193-198 | the PLL output never exceeds the VCO frequency |
| Scc.DefaultClocks | src/scc/mod.rs:23-31 | all four clocks at 0 Hz; `Scc.Scc.Constain` starts from it |
| Scc.FrclkFreq | src/scc/mod.rs:44-58 | 16 MHz for the ring oscillator, 4 MHz for the reference clock, the given frequency for an external clock; used by `ClocksForPaths` and `ApplyFrclk` |
| Scc.DividedClock | src/scc/mod.rs:89-104 | a divided clock is its parent divided by the divisor, rounded down, and at most the parent |
| Scc.ClocksOrdered | src/scc/mod.rs:88-114 | HCLK and ACLK are at most SCLK, PCLK at most HCLK |
| Scc.ClocksForPaths | src/scc/mod.rs:60-104 | SCLK is FRCLK or the PLL output of FRCLK; HCLK, ACLK and PCLK are the source's `u32` divisions |
| Scc.PclkFromSclk | src/scc/mod.rs:102-104 | PCLK is SCLK divided by the product of the HCLK and PCLK divisors |
| Scc.EnableFlagsIgnored | src/scc/mod.rs:42-117 | the ACLK, PCLK and ROSC enable flags do not change the derived clocks |
| Scc.FreezeFieldsMatchConfig | src/scc/mod.rs:42-107 | after `freeze` the dividers and multiplexers hold the configuration; CCSPLLCTL is untouched on the FRCLK path and holds the PLL configuration with lock set on the PLL path; ROSCEN is only ever set |
| Scc.FreezeIdempotent | src/scc/mod.rs:42-107 | applying a configuration twice leaves the registers as one application does |
| Scc.FreezeStageOrder | src/scc/mod.rs:43-107 | FRCLK is selected before SCLK, SCLK before HCLK, HCLK before ACLK, ACLK before PCLK, and the three divider writes close the sequence |
| Scc.PllSwitchFollowsLock | src/scc/mod.rs:66-82 | on the PLL path the control word is written first, the lock bit is read until it is set, and SCLK switches to the PLL only in the access right after the read that saw lock |
| Scc.FrclkPathLeavesPllAlone | src/scc/mod.rs:61-65 | on the FRCLK path the PLL is neither written nor polled |
| Scc.SccRegisters.WaitForLock | src/scc/mod.rs:80 | the busy-wait ends with lock set and records `lockPolls` clear reads and one set read; nothing else changes |
| Scc.SccRegisters.ApplyFrclk | src/scc/mod.rs:44-58 | returns the FRCLK frequency of the source, enables ROSC only for the ring oscillator, selects the multiplexer, and records those writes |
| Scc.SccRegisters.ApplySclk | src/scc/mod.rs:61-86 | returns the given FRCLK on the FRCLK path and the PLL output of it on the PLL path, programs and locks the PLL only on the PLL path, selects the multiplexer, and records those accesses |
| Scc.SccRegisters.ProgramPll | src/scc/mod.rs:67-80 | replaces exactly the five PLL configuration fields, then waits for lock |
| Scc.SccRegisters.ApplyDividers | src/scc/mod.rs:88-107 | returns HCLK and ACLK divided from SCLK and PCLK divided from HCLK, writing the three divider fields in that order |
| Scc.Scc.Constain | src/scc/mod.rs:129-134 | keeps the register block with all clocks at 0 Hz |
| Scc.Scc.Freeze | src/scc/mod.rs:42-117 | records the four derived clocks, leaves the registers as the stage-by-stage field updates describe, and issues the accesses in that order |
| Scc.FreezePeripheral | src/scc/mod.rs:136-138 | `constain` followed by `freeze` |
| Scc.BlinkyScenario | examples/blinky.rs:24-35 | reference clock, PLL with `indiv = 1`, `fbdiv = 75` and divide-by-2 output: all four clocks run at 150 MHz and the PLL is selected, enabled and locked |
| Scc.RingOscHalfHclk | src/scc/mod.rs:88-93 | with the default tree and HCLK divided by 2, SCLK is 16 MHz and HCLK 8 MHz |
| Scc.FbdivThreeRejected | src/scc/config.rs:149-154 | a feedback divider of 3 aborts |
| Gpio.CapabilityRules | src/gpio.rs:93-95 | only `Input` is active and it is readable; an open-drain output is readable; a push-pull output is not readable; alternate modes, the debugger pins among them, have no capability |
| Gpio.PinId | src/gpio.rs:168-170 | the pin number, below 8 |
| Gpio.PortId | src/gpio.rs:172-174 | the port letter's offset from `A`, below 7 |
| Gpio.PortIdRoundTrip | src/gpio.rs:172-174 | `A` plus the port id gives the letter back; `A` is 0 and `G` is 6 |
| Gpio.PinIdsIdentifyPin | src/gpio.rs:164-175 | equal port and pin ids exactly when the pins are the same pin of the same port |
| Gpio.SplitPort | src/gpio.rs:393-399 | one pin per table row, of that port and number, in the row's mode or in `Input` by default |
| Gpio.SplitGivesDistinctPins | src/gpio.rs:393-399 | the split pins are distinct, and pins left in the default mode may have their pulls set and be read |
| Gpio.DebugText | src/gpio.rs:146-154 | `P`, the port letter, the pin number, then the stripped mode type name in angle brackets; its text for every mode is given by `DebugTextOfModes` |
| Gpio.DebugTextOfModes | src/gpio.rs:146-154 | an input pin prints as `P<port><n><Input>`; an output or alternate pin prints as `P<port><n><PushPull>>` or `...<OpenDrain>>` |
| Gpio.PullSteps | src/gpio.rs:203-223 | two register states (both pulls cleared) for `None`, three (then one pull set) for `Up` and `Down` |
| Gpio.ApplyPullBits | src/gpio.rs:203-223 | afterwards the pull-up bit is set exactly for `Up` and the pull-down bit exactly for `Down`; every other bit of both registers is kept |
| Gpio.PullNeverBoth | src/gpio.rs:206-221 | no register state after any of the writes has both pulls of the pin enabled, whatever the registers held before |
| Gpio.PullOtherPinKept | src/gpio.rs:210-218 | the pull bits of every other pin are unchanged |
| Gpio.Port.SetInternalResistor | src/gpio.rs:203-223 | the pull registers become `ApplyPull` of the old ones, through exactly the `PullSteps` states |
| Gpio.Port.InternalResistor | src/gpio.rs:226-229 | the same, returning the pin |
| Gpio.Port.InternalPullUp | src/gpio.rs:232-238 | pull-up when on, no pull when off, through exactly the `PullSteps` states of `set_internal_resistor` |
| Gpio.Port.InternalPullDown | src/gpio.rs:241-247 | pull-down when on, no pull when off, through exactly the `PullSteps` states of `set_internal_resistor` |
| Gpio.Port.SetHigh | src/gpio.rs:263-289 | sets the pin's latch bit |
| Gpio.Port.SetLow | src/gpio.rs:268-295 | clears the pin's latch bit |
| Gpio.Port.SetState | src/gpio.rs:309-314 | the pin's latch bit is set exactly for `High`; the other bits are kept |
| Gpio.Port.Toggle | src/gpio.rs:330-336 | the pin's latch bit is inverted and its state read-back changes |
| Gpio.Port.IsSetLow | src/gpio.rs:324-327 | the pin's latch bit is clear; pinned down by `PinReadback` |
| Gpio.Port.IsSetHigh | src/gpio.rs:318-321 | the negation of `is_set_low`; pinned down by `PinReadback` |
| Gpio.Port.GetState | src/gpio.rs:299-306 | `Low` exactly when `is_set_low`; pinned down by `PinReadback` and the state change of `Toggle` |
| Gpio.Port.IsLow | src/gpio.rs:369-371 | the pin's input-register bit is clear; pinned down by `PinReadback` |
| Gpio.Port.IsHigh | src/gpio.rs:363-366 | the negation of `is_low`; pinned down by `PinReadback` |
| Gpio.PinReadback | src/gpio.rs:273-371 | `get_state` is `Low` exactly when the latch bit is clear and `is_set_high` is the latch bit; `is_high` is the negation of `is_low` and reads the input register |
| Bits.SetBit | src/gpio.rs:215 | the pin's bit is set and every other bit kept |
| Bits.ClearBit | src/gpio.rs:210-211 | the pin's bit is clear and every other bit kept |
| Bits.Toggled | src/gpio.rs:330-336 | the pin's bit is inverted and every other bit kept |
| Bits.ToggleTwice | src/gpio.rs:330-336 | toggling twice restores the latch |
| Bits.DriveLaws | src/gpio.rs:263-271 | setting twice is setting once; clearing twice is clearing once |
| Bits.OtherPinKept | src/gpio.rs:210-218 | a write that keeps all bits but one pin's keeps every other pin's bit |
| Watchdog.TimeoutProductFits | src/watchdog.rs:73 | `(cdv + 1) * 2^clkdiv` is at most `2^31`, so it does not overflow `u32` |
| Watchdog.TimeoutPeriod | src/watchdog.rs:70-74 | the time of `cdv + 1` ticks of 16 MHz divided by `2^clkdiv`, in whole milliseconds rounded down |
| Watchdog.TimeoutPeriodMonotone | src/watchdog.rs:70-74 | the period grows with the count-down value |
| Watchdog.TimeoutPeriodMonotoneInDivider | src/watchdog.rs:70-74 | the period grows with the prescaler |
| Watchdog.MaxPeriod | src/watchdog.rs:48 | the longest period of every prescaler is at least 4 ms, so `setup` never divides by zero |
| Watchdog.ClkdivFrom | src/watchdog.rs:40-46 | the first position from `i` below 14 that fits the timeout, or 15 when none does |
| Watchdog.Prescaler | src/watchdog.rs:40-46 | the least `i` below 14 with `t <= 16 * 2^i / 16000`, or 15 when there is none |
| Watchdog.SelectClkdiv | src/watchdog.rs:40-46 | the search loop with its `break` returns `Prescaler(t)` |
| Watchdog.PrescalerTable | src/watchdog.rs:40-46 | prescaler 0 for 0 ms, 10 for 1 ms, 11 for 2 ms, 12 for 3-4 ms, 13 for 5-8 ms, 15 from 9 ms on |
| Watchdog.CdvProductFits | src/watchdog.rs:50 | `t * 65535` does not overflow `u32` for `t < 2^15` |
| Watchdog.Cdv | src/watchdog.rs:48-50 | below 65535 it is `t * 65535 / max_period` rounded down; it is 65535 exactly when `t` reaches the longest period |
| Watchdog.IntervalAccuracy | src/watchdog.rs:27-56 | with the chosen prescaler and count-down value the period is within 1 ms below and 2 ms above the requested timeout |
| Watchdog.StartTraceOrder | src/watchdog.rs:88-94 | `start` writes the unprotect key first and the protect key last, with the enable write just before it and no other key write in between |
| Watchdog.WindowWatchdog.New | src/watchdog.rs:22-24 | keeps the registers, touching none |
| Watchdog.WindowWatchdog.Interval | src/watchdog.rs:59-64 | the period of the prescaler and count-down value stored in the registers |
| Watchdog.WindowWatchdog.WriteUnprotect | src/watchdog.rs:76-80 | writes the read-write key to LOCK |
| Watchdog.WindowWatchdog.WriteProtect | src/watchdog.rs:82-86 | writes the read-only key to LOCK |
| Watchdog.WindowWatchdog.Prescale | src/watchdog.rs:40-50 | returns `Prescaler(t)` and the matching count-down value |
| Watchdog.WindowWatchdog.SetupAsWritten | src/watchdog.rs:27-56 | aborts with nothing written exactly when `t >= 2^15`; otherwise CTL holds its reset value with RSTEN and the prescaler, and CDCTL holds window 0 and the count-down value |
| Watchdog.WindowWatchdog.Setup | src/watchdog.rs:27-56 | as above, with CTL also selecting the ring oscillator |
| Watchdog.WindowWatchdog.StartAsWritten | src/watchdog.rs:88-94 | aborts exactly when `setup` does; otherwise CTL holds its reset value with only EN set, and LOCK holds the read-only key |
| Watchdog.WindowWatchdog.Start | src/watchdog.rs:88-94 | as above, with CTL keeping the ring oscillator, RSTEN and the prescaler from `setup` |
| Watchdog.WindowWatchdog.Feed | src/watchdog.rs:96-99 | writes `0b0101` to CLEAR and nothing else |
| Watchdog.SetupAsWrittenClockSelect | src/watchdog.rs:33-37 | as written, `setup` leaves CLKSEL at a reset value other than the ring oscillator |
| Watchdog.SetupKeepsRoscclk | src/watchdog.rs:33-37 | the corrected `setup` selects the ring oscillator and enables the reset, and its period is within the accuracy of `IntervalAccuracy` |
| Watchdog.StartAsWrittenMissesTimeout | src/watchdog.rs:91 | as written, `start` leaves CLKDIV and RSTEN at their reset values, and for every reset value `start(1)` does not give 1 ms or `start(1000)` gives at most 500 ms |
| Watchdog.StartIntervalAccurate | src/watchdog.rs:88-94 | the corrected `start` leaves the watchdog enabled, resetting on expiry, clocked from the ring oscillator, with a period within 1 ms below and 2 ms above the request |
| Watchdog.ExampleStart | examples/watchdog.rs:22 | the corrected `start(1000)` selects prescaler 15 and count-down value 488, a period of 1001 ms (the code as written keeps the reset CLKDIV; see "Findings") |
| SspConfig.M | src/ssp/config.rs:38-41 | sets M and changes no other field |
| SspConfig.N | src/ssp/config.rs:44-47 | sets N and changes no other field |
| SspConfig.SetFrameFormat | src/ssp/config.rs:50-53 | sets the frame format and changes no other field |
| SspConfig.SetMode | src/ssp/config.rs:56-59 | sets master/slave and changes no other field |
| SspConfig.LsbFirst | src/ssp/config.rs:62-65 | sets the bit order and changes no other field |
| SspConfig.Loopback | src/ssp/config.rs:68-71 | sets loopback and changes no other field |
| SspConfig.ClockOutPhase | src/ssp/config.rs:74-77 | sets the clock phase and changes no other field |
| SspConfig.SetClockPolarity | src/ssp/config.rs:80-83 | sets the clock polarity and changes no other field |
| SspConfig.DataSize | src/ssp/config.rs:88-94 | accepted exactly for 4..32, then sets only the data size; otherwise aborts at the first failing bound |
| SspConfig.Apply | src/ssp/config.rs:36-95 | a setter aborts exactly when it is a rejected data size, and keeps the data size in 4..32 |
| SspConfig.Build | src/ssp/config.rs:36-95 | a chain of setters keeps the data size in 4..32 |
| SspConfig.BuildAbortsIffRejected | src/ssp/config.rs:88-94 | a chain aborts exactly when one of its setters is a rejected data size |
| SspConfig.BuiltFromDefaultIsBuildable | src/ssp/mod.rs:38 | every configuration built from the default has a data size in 4..32, so `data_size - 1` does not wrap |
| SspConfig.SetterLaws | src/ssp/config.rs:38-94 | the named instances: M twice, N twice and two accepted data sizes keep the last value; M and N commute, and so do mode and clock phase |
| SspConfig.SettersCommute | src/ssp/config.rs:36-95 | any two setters of different fields give the same configuration, or the same abort, in either order |
| SspConfig.LastSetterWins | src/ssp/config.rs:36-95 | of two setters of the same field the second decides the result, unless the first is a rejected data size, which aborts the chain |
| SspConfig.DefaultConfig | src/ssp/config.rs:19-34 | the default SPI configuration; every field is stated by `DefaultConfigFields` |
| SspConfig.DefaultConfigFields | src/ssp/config.rs:19-34 | the defaults: M 2, N 254, SPI frames, master, MSB first, no loopback, first-edge phase, active-high polarity, 8-bit data, slave output disabled; they pass the data-size check |
| Uart.DefaultConfig | src/uart.rs:53-63 | the default UART configuration; every field is stated by `DefaultConfigFields` |
| Uart.FromBps | src/uart.rs:65-72 | the default with only the baud rate replaced |
| Uart.Baudrate | src/uart.rs:17-20 | sets the baud rate and changes no other field |
| Uart.ParityNone | src/uart.rs:23-26 | no parity, and no other field changes |
| Uart.ParityEven | src/uart.rs:29-32 | even parity, and no other field changes |
| Uart.ParityOdd | src/uart.rs:35-38 | odd parity, and no other field changes |
| Uart.SetStopBits | src/uart.rs:41-44 | sets the stop bits and changes no other field |
| Uart.SetWordLength | src/uart.rs:47-50 | sets the word length and changes no other field |
| Uart.DefaultConfigFields | src/uart.rs:53-72 | the default is 115200 bps, no parity, one stop bit, 8-bit words; `From<Bps>` of 115200 is the default |
| Uart.ParityLastWins | src/uart.rs:22-38 | the last parity setter decides, and `parity_none` undoes the others |
| Uart.SetterLaws | src/uart.rs:16-72 | the last baud rate wins, also over `From<Bps>`; stop bits and word length commute, and so do even parity and the baud rate |

## Left out

- Register addresses and raw pointer access (`Gpio::ptr` and the per-port `scc_puen_ptr`/`scc_pden_ptr` in `src/gpio.rs`, and the `pac25` port tables). Each register is a field of a class, so which addresses the ports use is not modelled.
- The mode-changing `into_*` conversions of `src/gpio.rs` and the per-port pin tables. They are not part of this model. `SplitPort` takes the table as a parameter.
- `_set_state` (`src/gpio.rs:256-261`) is not modelled separately. It is the same dispatch as `set_state`, without the output-mode restriction.
- A write of `1 << N` to DOSET or DOCLEAR is taken to set or clear bit `N` of the output latch. That is the hardware's documented behaviour, not the bus semantics.
- Port letters are `A` to `G` and alternate functions are `0..8`, the ranges the part has. Pin numbers are `0..8`, as the `Pin` documentation says, although the const parameter is a `u8`.
- `core::any::type_name` is outside the program: the `Debug` text is built from the type names the compiler would render.
- The `defmt` formatting duplicates the `Debug` text and is left out.
- SccConfig.VcoFreq: does not model `f32` rounding. It uses the exact quotient rounded down, and keeps the saturating `as u32` cast and the `indiv == 0` cases (infinity casts to `u32::MAX`, NaN to 0). `OutFreq` likewise divides exactly.
- Scc.SccRegisters.WaitForLock: the PLL's lock time is the `lockPolls` parameter. A PLL that never locks (the busy-wait never ends) is not modelled.
- The enumerations of the chip description (prescaler codes, FRF, PSEL, SBS, WLS) are modelled only by the variants the driver names, plus numeric codes. The chip description is not part of this model.
- Watchdog register reset values: CTL and CDCTL reset values are parameters of `Watchdog.Wwdt`. The LOCK key protection hardware, the window function and the chip reset on expiry are not modelled.
- The prescaler search is modelled as written. It compares against `(MAX_CLKDIV + 1) * 2^i / 16000`, so prescaler 15 is chosen for every timeout from 9 ms on and 14 is never chosen. `IntervalAccuracy` shows the period is still within 1 ms below and 2 ms above the request.
- `src/ssp/mod.rs` (SPI FIFO transfers), `src/crc.rs` and the UART byte transfers are device I/O loops over status bits and are not modelled. `src/time.rs`, `src/prelude.rs` and `src/gpio/pac25.rs` are not part of this model.
- `src/lib.rs` does not declare the `scc`, `ssp` and `watchdog` modules. They are modelled as written.
- Concurrency: the drivers' unsynchronised read-modify-writes of shared registers, and interrupts, are not modelled.

## Findings

| source | as written | input that shows it | evidently intended | confidence | as-written member | corrected member |
|---|---|---|---|---|---|---|
| src/watchdog.rs:37 | `ctl.write(rsten)` starts from the CTL reset value, so it drops the ring-oscillator selection written at line 35 | `setup(t)` on a part whose CTL reset value does not select the ring oscillator | RSTEN set by a read-modify-write (`modify`) that keeps CLKSEL | not executed; depends on the CTL reset value | Watchdog.SetupAsWrittenClockSelect | Watchdog.SetupKeepsRoscclk |
| src/watchdog.rs:91 | `ctl.write(en)` in `start` starts from the CTL reset value, so it drops the prescaler and RSTEN that `setup` stored | for every CTL reset value, `start(1)` or `start(1000)`: with reset prescaler 15, `start(1)` gives 32 ms; otherwise `start(1000)` gives at most 500 ms | EN set by `modify`, keeping the configuration from `setup` | not executed; holds for every reset value | Watchdog.StartAsWrittenMissesTimeout | Watchdog.StartIntervalAccurate |
