/** The window watchdog (`src/watchdog.rs`): the prescaler and count-down arithmetic of
    `setup`, and the key-protected register sequence of `start`. */
module Watchdog {
  import opened Common
  import Arith

  const KEY_READ_WRITE: uint32 := 0x55AA_6699
  const KEY_READ_ONLY: uint32 := 0x55AA_6698
  const MAX_CLKDIV: nat := 15
  const MAX_CDV: uint16 := 0xFFFF
  const ROSC_KHZ: nat := 16_000

  /** The 4-bit CLKDIV field of CTL: the count-down clock is divided by `2^clkdiv`. */
  type ClkDiv = c: nat | c <= 15

  function Pow2(k: nat): (r: nat)
    ensures r >= 1
  {
    if k == 0 then 1 else 2 * Pow2(k - 1)
  }

  lemma {:induction false} Pow2Monotone(a: nat, b: nat)
    requires a <= b
    ensures Pow2(a) <= Pow2(b)
    decreases b
  {
    if a < b {
      Pow2Monotone(a, b - 1);
    }
  }

  lemma Pow2Table()
    ensures Pow2(9) == 512 && Pow2(10) == 1024 && Pow2(11) == 2048
    ensures Pow2(12) == 4096 && Pow2(13) == 8192 && Pow2(14) == 16384 && Pow2(15) == 32768
  {
  }

  // ---------------------------------------------------------------------------
  // Timeout arithmetic

  /** The product in `timeout_period` never exceeds `2^31`, so it fits in a `u32`. */
  lemma TimeoutProductFits(clkdiv: ClkDiv, cdv: uint16)
    ensures (cdv + 1) * Pow2(clkdiv) <= 0x8000_0000
  {
    Pow2Monotone(clkdiv, 15);
    Pow2Table();
    Arith.MulLe(cdv + 1, 0x1_0000, Pow2(clkdiv));
    Arith.MulLe(Pow2(clkdiv), 32768, 0x1_0000);
  }

  /** `timeout_period`: the time in milliseconds for `cdv + 1` ticks of the 16 MHz ring
      oscillator divided by `2^clkdiv`, rounded down. */
  function TimeoutPeriod(clkdiv: ClkDiv, cdv: uint16): (ms: uint32)
    ensures ms * ROSC_KHZ <= (cdv + 1) * Pow2(clkdiv) < ms * ROSC_KHZ + ROSC_KHZ
  {
    TimeoutProductFits(clkdiv, cdv);
    Arith.Quotient((cdv + 1) * Pow2(clkdiv), ROSC_KHZ)
  }

  /** Two numbers with the same rounded-down quotient bounds are ordered as their
      dividends are. */
  lemma FloorMonotone(a: nat, b: nat, x: nat, y: nat)
    requires x <= y
    requires a * ROSC_KHZ <= x && y < b * ROSC_KHZ + ROSC_KHZ
    ensures a <= b
  {
  }

  /** `timeout_period` grows with the count-down value. */
  lemma TimeoutPeriodMonotone(clkdiv: ClkDiv, v: uint16, w: uint16)
    requires v <= w
    ensures TimeoutPeriod(clkdiv, v) <= TimeoutPeriod(clkdiv, w)
  {
    Arith.MulLe(v + 1, w + 1, Pow2(clkdiv));
    FloorMonotone(TimeoutPeriod(clkdiv, v), TimeoutPeriod(clkdiv, w),
      (v + 1) * Pow2(clkdiv), (w + 1) * Pow2(clkdiv));
  }

  /** `timeout_period` grows with the prescaler. */
  lemma TimeoutPeriodMonotoneInDivider(c: ClkDiv, d: ClkDiv, v: uint16)
    requires c <= d
    ensures TimeoutPeriod(c, v) <= TimeoutPeriod(d, v)
  {
    Pow2Monotone(c, d);
    Arith.MulLe(Pow2(c), Pow2(d), v + 1);
    assert Pow2(c) * (v + 1) == (v + 1) * Pow2(c) && Pow2(d) * (v + 1) == (v + 1) * Pow2(d);
    FloorMonotone(TimeoutPeriod(c, v), TimeoutPeriod(d, v), (v + 1) * Pow2(c), (v + 1) * Pow2(d));
  }

  /** The longest period of a prescaler; at least 4 ms, so the division in `setup` is
      never by zero. */
  function MaxPeriod(clkdiv: ClkDiv): (ms: uint32)
    ensures ms >= 4
  {
    TimeoutPeriodMonotoneInDivider(0, clkdiv, MAX_CDV);
    TimeoutPeriod(clkdiv, MAX_CDV)
  }

  // ---------------------------------------------------------------------------
  // The prescaler search

  /** The bound the search compares the timeout with: `(MAX_CLKDIV + 1) * 2^i / ROSC_KHZ`. */
  function Threshold(i: nat): nat {
    (MAX_CLKDIV + 1) * Pow2(i) / ROSC_KHZ
  }

  predicate Fits(t: nat, i: nat) {
    t <= Threshold(i)
  }

  /** The search from position `i` on: the first position below 14 that fits, or 15 when
      none does. */
  function ClkdivFrom(t: nat, i: nat): (c: ClkDiv)
    requires i <= 14
    ensures c == 15 || (i <= c < 14 && Fits(t, c))
    ensures forall j :: i <= j < 14 && j < c ==> !Fits(t, j)
    decreases 14 - i
  {
    if i == 14 then 15 else if Fits(t, i) then i else ClkdivFrom(t, i + 1)
  }

  /** The prescaler `setup` selects for a timeout of `t` milliseconds. */
  function Prescaler(t: nat): (c: ClkDiv)
    ensures c == 15 || (c < 14 && Fits(t, c))
    ensures forall j :: 0 <= j < 14 && j < c ==> !Fits(t, j)
  {
    ClkdivFrom(t, 0)
  }

  /** The loop of `setup`: the least `i` in `0..14` with `t <= 16 * 2^i / 16000`, or 15
      when there is none. */
  method SelectClkdiv(t: uint32) returns (clkdiv: ClkDiv)
    ensures clkdiv == Prescaler(t)
  {
    clkdiv := 15;
    for i := 0 to 14
      invariant ClkdivFrom(t, i) == Prescaler(t)
    {
      if Fits(t, i) {
        clkdiv := i;
        break;
      }
    }
  }

  lemma ThresholdMonotone(i: nat, j: nat)
    requires i <= j
    ensures Threshold(i) <= Threshold(j)
  {
    Pow2Monotone(i, j);
    Arith.MulLe(Pow2(i), Pow2(j), MAX_CLKDIV + 1);
    assert (MAX_CLKDIV + 1) * Pow2(i) == Pow2(i) * (MAX_CLKDIV + 1);
    assert (MAX_CLKDIV + 1) * Pow2(j) == Pow2(j) * (MAX_CLKDIV + 1);
  }

  lemma ThresholdTable()
    ensures Threshold(9) == 0 && Threshold(10) == 1 && Threshold(11) == 2
    ensures Threshold(12) == 4 && Threshold(13) == 8
  {
    Pow2Table();
  }

  lemma ThresholdsUpTo(k: nat)
    ensures forall j: nat :: j <= k ==> Threshold(j) <= Threshold(k)
  {
    forall j: nat | j <= k
      ensures Threshold(j) <= Threshold(k)
    {
      ThresholdMonotone(j, k);
    }
  }

  /** The prescaler for each timeout: 0 for 0 ms, 10 for 1 ms, 11 for 2 ms, 12 for 3 and
      4 ms, 13 for 5 to 8 ms, and 15 from 9 ms on; 14 is never chosen. */
  lemma PrescalerTable(t: nat)
    ensures t == 0 ==> Prescaler(t) == 0
    ensures t == 1 ==> Prescaler(t) == 10
    ensures t == 2 ==> Prescaler(t) == 11
    ensures 3 <= t <= 4 ==> Prescaler(t) == 12
    ensures 5 <= t <= 8 ==> Prescaler(t) == 13
    ensures t >= 9 ==> Prescaler(t) == 15
  {
    ThresholdTable();
    ThresholdsUpTo(9);
    ThresholdsUpTo(13);
    if t == 0 {
      assert Fits(t, 0);
    } else if t == 1 {
      assert Fits(t, 10);
    } else if t == 2 {
      assert Fits(t, 11);
    } else if t <= 4 {
      assert Fits(t, 12);
    } else if t <= 8 {
      assert Fits(t, 13);
    }
  }

  // ---------------------------------------------------------------------------
  // The count-down value

  /** The product `t * 65535` of `setup` fits in a `u32` once `t < 2^15`. */
  lemma CdvProductFits(t: nat)
    requires t < 0x8000
    ensures t * MAX_CDV <= UINT32_MAX
  {
  }

  /** The count-down value `setup` computes: `t * 65535 / MaxPeriod(clkdiv)`, capped at
      65535. Below the cap it is the rounded-down quotient; it reaches the cap exactly when
      the timeout is at least the prescaler's longest period. */
  function Cdv(t: nat, clkdiv: ClkDiv): (cdv: uint16)
    requires t < 0x8000
    ensures cdv < MAX_CDV ==>
      cdv * MaxPeriod(clkdiv) <= t * MAX_CDV < cdv * MaxPeriod(clkdiv) + MaxPeriod(clkdiv)
    ensures cdv == MAX_CDV <==> t >= MaxPeriod(clkdiv)
  {
    CdvProductFits(t);
    var maxPeriod := MaxPeriod(clkdiv);
    var q := Arith.Quotient(t * MAX_CDV, maxPeriod);
    CdvSaturates(t, maxPeriod, q);
    Min(q, MAX_CDV)
  }

  /** The quotient `t * 65535 / m` reaches 65535 exactly when `t` reaches `m`. */
  lemma CdvSaturates(t: nat, m: nat, q: nat)
    requires m > 0 && q * m <= t * 65535 < q * m + m
    ensures q >= 65535 <==> t >= m
  {
    Arith.DivUnique(t * 65535, m, q, t * 65535 - q * m);
    Arith.DivAtLeast(t * 65535, m, 65535);
  }

  /** With the selected prescaler and count-down value, the watchdog interval is within
      one millisecond below and two above the requested timeout. */
  lemma IntervalAccuracy(t: nat)
    requires t < 0x8000
    ensures var c := Prescaler(t);
      t - 1 <= TimeoutPeriod(c, Cdv(t, c)) <= t + 2
  {
    PrescalerTable(t);
    if t == 0 {
      ShortTimeoutAccuracy(0, 0);
    } else if t == 1 {
      ShortTimeoutAccuracy(1, 10);
    } else if t == 2 {
      ShortTimeoutAccuracy(2, 11);
    } else if t <= 4 {
      ShortTimeoutAccuracy(t, 12);
    } else if t <= 8 {
      ShortTimeoutAccuracy(t, 13);
    } else {
      LongTimeoutAccuracy(t);
    }
  }

  /** Below 9 ms the timeout is under the longest period of its prescaler. */
  lemma ShortTimeoutAccuracy(t: nat, c: ClkDiv)
    requires t <= 8 && c == Prescaler(t)
    ensures t - 1 <= TimeoutPeriod(c, Cdv(t, c)) <= t + 2
  {
    PrescalerTable(t);
    Pow2Table();
    var m := MaxPeriod(c);
    var cdv := Cdv(t, c);
    var ms := TimeoutPeriod(c, cdv);
    if t == 0 {
      assert c == 0 && cdv == 0 && ms == 0;
    } else if t == 1 {
      assert c == 10 && m == 4194 && cdv == 15 && ms == 1;
    } else if t == 2 {
      assert c == 11 && m == 8388 && cdv == 15 && ms == 2;
    } else if t <= 4 {
      assert c == 12 && m == 16777;
      assert cdv * 16777 <= t * 65535 < cdv * 16777 + 16777;
      assert ms * 16000 <= (cdv + 1) * 4096 < ms * 16000 + 16000;
    } else {
      assert c == 13 && m == 33554;
      assert cdv * 33554 <= t * 65535 < cdv * 33554 + 33554;
      assert ms * 16000 <= (cdv + 1) * 8192 < ms * 16000 + 16000;
    }
  }

  /** From 9 ms on the largest prescaler is used and its count-down value rounds the
      timeout down to a multiple of about 2 ms. */
  lemma LongTimeoutAccuracy(t: nat)
    requires 9 <= t < 0x8000
    ensures t - 1 <= TimeoutPeriod(15, Cdv(t, 15)) <= t + 2
  {
    Pow2Table();
    assert MaxPeriod(15) == 134217;
    var cdv := Cdv(t, 15);
    assert cdv < MAX_CDV;
    var ms := TimeoutPeriod(15, cdv);
    assert cdv * 134217 <= t * 65535 < cdv * 134217 + 134217;
    assert ms * 16000 <= (cdv + 1) * 32768 < ms * 16000 + 16000;
  }

  // ---------------------------------------------------------------------------
  // Registers

  /** Clock sources of the count-down clock; only the ring oscillator is named by the
      driver. */
  datatype ClkSel = Roscclk | OtherClock

  /** The fields of CTL that the driver touches. */
  datatype Ctl = Ctl(en: bool, rsten: bool, clksel: ClkSel, clkdiv: ClkDiv)

  /** The fields of CDCTL that the driver touches. */
  datatype Cdctl = Cdctl(window: nat, cdv: uint16)

  /** One register write: the key register LOCK, CTL, CDCTL, or CLEAR. */
  datatype WwdtAccess = LockWrite(key: uint32) | CtlWrite | CdctlWrite | ClearWrite(value: uint32)

  /** The watchdog period that a CTL/CDCTL pair configures. */
  function PeriodOf(ctl: Ctl, cdctl: Cdctl): uint32 {
    TimeoutPeriod(ctl.clkdiv, cdctl.cdv)
  }

  /** CTL after `setup(t)` as written: the RSTEN write starts from the reset value, so
      the clock selection written just before is lost. */
  function SetupCtlAsWritten(reset: Ctl, t: nat): Ctl {
    reset.(rsten := true, clkdiv := Prescaler(t))
  }

  /** CTL after the corrected `setup(t)`. */
  function SetupCtl(reset: Ctl, t: nat): Ctl {
    reset.(clksel := Roscclk, rsten := true, clkdiv := Prescaler(t))
  }

  /** CDCTL after `setup(t)`: the window is written as 0, then the count-down value. */
  function SetupCdctl(reset: Cdctl, t: nat): Cdctl
    requires t < 0x8000
  {
    reset.(window := 0, cdv := Cdv(t, Prescaler(t)))
  }

  /** CTL after `start` as written: the EN write starts from the reset value. */
  function StartCtlAsWritten(reset: Ctl): Ctl {
    reset.(en := true)
  }

  /** CTL after the corrected `start(t)`. */
  function StartCtl(reset: Ctl, t: nat): Ctl {
    SetupCtl(reset, t).(en := true)
  }

  /** The writes of `setup`: the unprotect key, CTL, CDCTL, CTL, then CTL and CDCTL again
      for the prescaler and the count-down value. */
  function SetupTrace(): seq<WwdtAccess> {
    [LockWrite(KEY_READ_WRITE), CtlWrite, CdctlWrite, CtlWrite, CtlWrite, CdctlWrite]
  }

  function StartTrace(): seq<WwdtAccess> {
    SetupTrace() + [CtlWrite, LockWrite(KEY_READ_ONLY)]
  }

  /** `start` writes the unprotect key first and the protect key last, and enables the
      watchdog in the write just before; no other key is written in between. */
  lemma StartTraceOrder()
    ensures var t := StartTrace();
      && t[0] == LockWrite(KEY_READ_WRITE)
      && t[|t| - 1] == LockWrite(KEY_READ_ONLY)
      && t[|t| - 2] == CtlWrite
      && forall i :: 0 < i < |t| - 1 ==> !t[i].LockWrite?
  {
  }

  /** The watchdog's registers. The reset values come from the chip description and are
      parameters here. */
  class Wwdt {
    const ctlReset: Ctl
    const cdctlReset: Cdctl
    var lock: uint32
    var ctl: Ctl
    var cdctl: Cdctl
    ghost var trace: seq<WwdtAccess>

    constructor (ctlReset: Ctl, cdctlReset: Cdctl)
      ensures this.ctlReset == ctlReset && this.cdctlReset == cdctlReset
      ensures ctl == ctlReset && cdctl == cdctlReset && trace == []
    {
      this.ctlReset, this.cdctlReset := ctlReset, cdctlReset;
      lock, ctl, cdctl := 0, ctlReset, cdctlReset;
      trace := [];
    }

    method WriteLock(key: uint32)
      modifies this`lock, this`trace
      ensures lock == key && trace == old(trace) + [LockWrite(key)]
    {
      lock := key;
      trace := trace + [LockWrite(key)];
    }

    method WriteCtl(value: Ctl)
      modifies this`ctl, this`trace
      ensures ctl == value && trace == old(trace) + [CtlWrite]
    {
      ctl := value;
      trace := trace + [CtlWrite];
    }

    method WriteCdctl(value: Cdctl)
      modifies this`cdctl, this`trace
      ensures cdctl == value && trace == old(trace) + [CdctlWrite]
    {
      cdctl := value;
      trace := trace + [CdctlWrite];
    }

    method WriteClear(value: uint32)
      modifies this`trace
      ensures trace == old(trace) + [ClearWrite(value)]
    {
      trace := trace + [ClearWrite(value)];
    }
  }

  /** `setup` aborts through its `assert!` on a timeout of `2^15` ms or more. */
  datatype WatchdogPanic = TimeoutTooHigh

  class WindowWatchdog {
    const wwdt: Wwdt

    /** `new`: takes the registers without starting the watchdog. */
    constructor New(wwdt: Wwdt)
      ensures this.wwdt == wwdt
    {
      this.wwdt := wwdt;
    }

    /** `interval`: the period of the prescaler and count-down value in the registers. */
    function Interval(): (ms: uint32)
      reads this, wwdt
      ensures ms * ROSC_KHZ <= (wwdt.cdctl.cdv + 1) * Pow2(wwdt.ctl.clkdiv) < ms * ROSC_KHZ + ROSC_KHZ
    {
      PeriodOf(wwdt.ctl, wwdt.cdctl)
    }

    method WriteUnprotect()
      modifies wwdt`lock, wwdt`trace
      ensures wwdt.lock == KEY_READ_WRITE && wwdt.trace == old(wwdt.trace) + [LockWrite(KEY_READ_WRITE)]
    {
      wwdt.WriteLock(KEY_READ_WRITE);
    }

    method WriteProtect()
      modifies wwdt`lock, wwdt`trace
      ensures wwdt.lock == KEY_READ_ONLY && wwdt.trace == old(wwdt.trace) + [LockWrite(KEY_READ_ONLY)]
    {
      wwdt.WriteLock(KEY_READ_ONLY);
    }

    /** The prescaler and count-down value for `t`, computed as `setup` does. */
    method Prescale(t: uint32) returns (clkdiv: ClkDiv, cdv: uint16)
      requires t < 0x8000
      ensures clkdiv == Prescaler(t) && cdv == Cdv(t, clkdiv)
    {
      clkdiv := SelectClkdiv(t);
      cdv := Cdv(t, clkdiv);
    }

    /** `setup` as written: the RSTEN write at the third step replaces all of CTL. */
    method SetupAsWritten(t: uint32) returns (r: Result<(), WatchdogPanic>)
      modifies wwdt`lock, wwdt`ctl, wwdt`cdctl, wwdt`trace
      ensures r.Err? <==> t >= 0x8000
      ensures r.Err? ==> r.error == TimeoutTooHigh && unchanged(wwdt)
      ensures r.Ok? ==> wwdt.lock == KEY_READ_WRITE
      ensures r.Ok? ==> wwdt.ctl == SetupCtlAsWritten(wwdt.ctlReset, t)
      ensures r.Ok? ==> wwdt.cdctl == SetupCdctl(wwdt.cdctlReset, t)
      ensures r.Ok? ==> wwdt.trace == old(wwdt.trace) + SetupTrace()
    {
      if t >= 0x8000 {
        return Err(TimeoutTooHigh);
      }
      WriteUnprotect();
      wwdt.WriteCtl(wwdt.ctlReset.(clksel := Roscclk));
      wwdt.WriteCdctl(wwdt.cdctlReset.(window := 0));
      wwdt.WriteCtl(wwdt.ctlReset.(rsten := true));
      var clkdiv, cdv := Prescale(t);
      wwdt.WriteCtl(wwdt.ctl.(clkdiv := clkdiv));
      wwdt.WriteCdctl(wwdt.cdctl.(cdv := cdv));
      r := Ok(());
    }

    /** `setup` with RSTEN set by a read-modify-write, which keeps the clock selection. */
    method Setup(t: uint32) returns (r: Result<(), WatchdogPanic>)
      modifies wwdt`lock, wwdt`ctl, wwdt`cdctl, wwdt`trace
      ensures r.Err? <==> t >= 0x8000
      ensures r.Err? ==> r.error == TimeoutTooHigh && unchanged(wwdt)
      ensures r.Ok? ==> wwdt.lock == KEY_READ_WRITE
      ensures r.Ok? ==> wwdt.ctl == SetupCtl(wwdt.ctlReset, t)
      ensures r.Ok? ==> wwdt.cdctl == SetupCdctl(wwdt.cdctlReset, t)
      ensures r.Ok? ==> wwdt.trace == old(wwdt.trace) + SetupTrace()
    {
      if t >= 0x8000 {
        return Err(TimeoutTooHigh);
      }
      WriteUnprotect();
      wwdt.WriteCtl(wwdt.ctlReset.(clksel := Roscclk));
      wwdt.WriteCdctl(wwdt.cdctlReset.(window := 0));
      wwdt.WriteCtl(wwdt.ctl.(rsten := true));
      var clkdiv, cdv := Prescale(t);
      wwdt.WriteCtl(wwdt.ctl.(clkdiv := clkdiv));
      wwdt.WriteCdctl(wwdt.cdctl.(cdv := cdv));
      r := Ok(());
    }

    /** `start` as written: `setup`, then an EN write that replaces all of CTL, then the
        protect key. */
    method StartAsWritten(period: uint32) returns (r: Result<(), WatchdogPanic>)
      modifies wwdt`lock, wwdt`ctl, wwdt`cdctl, wwdt`trace
      ensures r.Err? <==> period >= 0x8000
      ensures r.Err? ==> unchanged(wwdt)
      ensures r.Ok? ==> wwdt.lock == KEY_READ_ONLY
      ensures r.Ok? ==> wwdt.ctl == StartCtlAsWritten(wwdt.ctlReset)
      ensures r.Ok? ==> wwdt.cdctl == SetupCdctl(wwdt.cdctlReset, period)
      ensures r.Ok? ==> wwdt.trace == old(wwdt.trace) + StartTrace()
    {
      r := SetupAsWritten(period);
      if r.Ok? {
        wwdt.WriteCtl(wwdt.ctlReset.(en := true));
        WriteProtect();
      }
    }

    /** `start` with EN set by a read-modify-write, on top of the corrected `setup`. */
    method Start(period: uint32) returns (r: Result<(), WatchdogPanic>)
      modifies wwdt`lock, wwdt`ctl, wwdt`cdctl, wwdt`trace
      ensures r.Err? <==> period >= 0x8000
      ensures r.Err? ==> unchanged(wwdt)
      ensures r.Ok? ==> wwdt.lock == KEY_READ_ONLY
      ensures r.Ok? ==> wwdt.ctl == StartCtl(wwdt.ctlReset, period)
      ensures r.Ok? ==> wwdt.cdctl == SetupCdctl(wwdt.cdctlReset, period)
      ensures r.Ok? ==> wwdt.trace == old(wwdt.trace) + StartTrace()
    {
      r := Setup(period);
      if r.Ok? {
        wwdt.WriteCtl(wwdt.ctl.(en := true));
        WriteProtect();
      }
    }

    /** `feed`: any write to CLEAR restarts the count; the driver writes `0b0101`. */
    method Feed()
      modifies wwdt`trace
      ensures wwdt.trace == old(wwdt.trace) + [ClearWrite(0x5)]
    {
      wwdt.WriteClear(0x5);
    }
  }

  /** As written, whatever the reset value of CTL, `setup` leaves the clock selection at
      its reset value rather than the ring oscillator. */
  lemma SetupAsWrittenClockSelect(reset: Ctl, t: nat)
    requires reset.clksel != Roscclk
    ensures SetupCtlAsWritten(reset, t).clksel != Roscclk
  {
  }

  /** The corrected `setup` selects the ring oscillator, enables the reset and stores the
      selected prescaler, and its interval is within the accuracy of `IntervalAccuracy`. */
  lemma SetupKeepsRoscclk(reset: Ctl, cr: Cdctl, t: nat)
    requires t < 0x8000
    ensures SetupCtl(reset, t).clksel == Roscclk && SetupCtl(reset, t).rsten
    ensures t - 1 <= PeriodOf(SetupCtl(reset, t), SetupCdctl(cr, t)) <= t + 2
  {
    IntervalAccuracy(t);
  }

  /** As written, `start` leaves CLKDIV and RSTEN at their reset values, so the interval no
      longer depends on the prescaler `setup` chose. For every reset value either
      `start(1)` or `start(1000)` ends with an interval far from the request. */
  lemma StartAsWrittenMissesTimeout(reset: Ctl, cr: Cdctl)
    ensures StartCtlAsWritten(reset).clkdiv == reset.clkdiv
    ensures StartCtlAsWritten(reset).rsten == reset.rsten
    ensures PeriodOf(StartCtlAsWritten(reset), SetupCdctl(cr, 1)) != 1
         || PeriodOf(StartCtlAsWritten(reset), SetupCdctl(cr, 1000)) <= 500
  {
    PrescalerTable(1);
    PrescalerTable(1000);
    Pow2Table();
    assert MaxPeriod(10) == 4194 && Cdv(1, 10) == 15;
    assert MaxPeriod(15) == 134217 && Cdv(1000, 15) == 488;
    if reset.clkdiv == 15 {
      assert TimeoutPeriod(15, 15) == 32;
    } else {
      TimeoutPeriodMonotoneInDivider(reset.clkdiv, 14, 488);
      assert TimeoutPeriod(14, 488) == 500;
    }
  }

  /** The corrected `start` leaves the watchdog enabled, resetting the chip on expiry,
      with an interval within a millisecond below and two above the request. */
  lemma StartIntervalAccurate(reset: Ctl, cr: Cdctl, t: nat)
    requires t < 0x8000
    ensures StartCtl(reset, t).en && StartCtl(reset, t).rsten && StartCtl(reset, t).clksel == Roscclk
    ensures t - 1 <= PeriodOf(StartCtl(reset, t), SetupCdctl(cr, t)) <= t + 2
  {
    IntervalAccuracy(t);
  }

  /** The watchdog example: `start(1000)` with the corrected sequence gives a 1001 ms
      interval on the largest prescaler. */
  lemma ExampleStart(reset: Ctl, cr: Cdctl)
    ensures StartCtl(reset, 1000).clkdiv == 15 && SetupCdctl(cr, 1000).cdv == 488
    ensures PeriodOf(StartCtl(reset, 1000), SetupCdctl(cr, 1000)) == 1001
  {
    PrescalerTable(1000);
    Pow2Table();
    assert MaxPeriod(15) == 134217;
  }
}
