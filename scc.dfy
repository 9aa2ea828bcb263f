/** The clock tree engine (`src/scc/mod.rs`): `freeze` programs the CCSCTL and CCSPLLCTL
    registers of the system and clock control block in a fixed order and records the four
    derived frequencies. */
module Scc {
  import opened Common
  import opened SccConfig
  import Arith

  /** The derived clock frequencies. */
  datatype Clocks = Clocks(sclk: Hertz, hclk: Hertz, aclk: Hertz, pclk: Hertz)

  function DefaultClocks(): Clocks {
    Clocks(0, 0, 0, 0)
  }

  /** Frequency of FRCLK for each source; an external clock is trusted as given. */
  function FrclkFreq(src: ClockSource): Hertz {
    match src
    case RingOsc => RING_OSC_HZ
    case RefClock => REF_CLOCK_HZ
    case External(freq) => freq
  }

  /** SCLK is FRCLK itself or the PLL output fed by FRCLK. */
  function SclkFreq(c: Config): Hertz {
    match c.sclkMux
    case FRCLK => FrclkFreq(c.frclkMux)
    case PLLCLK => OutFreq(c.pll, FrclkFreq(c.frclkMux))
  }

  /** A clock derived from `parent` through a prescaler, in the source's `u32` division. */
  function DividedClock(parent: Hertz, code: PrescalerCode): (r: Hertz)
    ensures r <= parent
    ensures r * Divisor(code) <= parent < r * Divisor(code) + Divisor(code)
  {
    Arith.Quotient(parent, Divisor(code))
  }

  /** The clocks `freeze` computes: HCLK and ACLK are divided from SCLK, PCLK from HCLK.
      None of the enable flags takes part. */
  function ClocksFor(c: Config): Clocks {
    var sclk := SclkFreq(c);
    var hclk := DividedClock(sclk, c.hclk);
    Clocks(sclk, hclk, DividedClock(sclk, c.aclk), DividedClock(hclk, c.pclk))
  }

  /** Each derived clock is at most its parent; PCLK's parent is HCLK. */
  lemma ClocksOrdered(c: Config)
    ensures var k := ClocksFor(c);
      k.hclk <= k.sclk && k.aclk <= k.sclk && k.pclk <= k.hclk && k.pclk <= k.sclk
  {
  }

  /** The frequencies on both SCLK paths, and the exact divisions below SCLK. */
  lemma ClocksForPaths(c: Config)
    ensures c.sclkMux == FRCLK ==> ClocksFor(c).sclk == FrclkFreq(c.frclkMux)
    ensures c.sclkMux == PLLCLK ==> ClocksFor(c).sclk == OutFreq(c.pll, FrclkFreq(c.frclkMux))
    ensures ClocksFor(c).hclk == ClocksFor(c).sclk / (c.hclk + 1)
    ensures ClocksFor(c).aclk == ClocksFor(c).sclk / (c.aclk + 1)
    ensures ClocksFor(c).pclk == ClocksFor(c).hclk / (c.pclk + 1)
  {
  }

  /** PCLK is SCLK divided by the product of the HCLK and PCLK divisors. */
  lemma PclkFromSclk(c: Config)
    ensures ClocksFor(c).pclk == ClocksFor(c).sclk / (Divisor(c.hclk) * Divisor(c.pclk))
  {
    Arith.DivDiv(SclkFreq(c), Divisor(c.hclk), Divisor(c.pclk));
  }

  /** The enable flags are never read: they do not change the clocks. */
  lemma EnableFlagsIgnored(c: Config, a: bool, p: bool, r: bool)
    ensures ClocksFor(AclkEnable(PclkEnable(RoscEnable(c, r), p), a)) == ClocksFor(c)
  {
  }

  // ---------------------------------------------------------------------------
  // Registers

  datatype FrclkMuxSel = FrclkFromRosc | FrclkFromClkref | FrclkFromExtclk
  datatype SclkMuxSel = SclkFromFrclk | SclkFromPll

  /** The fields of CCSCTL and CCSPLLCTL that the driver touches. */
  datatype SccFields = SccFields(
    // CCSCTL
    roscen: bool,
    frclkmuxsel: FrclkMuxSel,
    sclkmuxsel: SclkMuxSel,
    hclkdiv: PrescalerCode,
    aclkdiv: PrescalerCode,
    pclkdiv: PrescalerCode,
    // CCSPLLCTL
    plloutdiv: PrescalerCode,
    pllindiv: uint8,
    pllfbdiv: uint16,
    pllbp: bool,
    pllen: bool,
    plllock: bool)

  /** One register access, in the order the driver issues them. */
  datatype SccAccess =
    | RoscEnableWrite
    | FrclkSelect(frclk: FrclkMuxSel)
    | SclkSelect(sclk: SclkMuxSel)
    | PllControlWrite(pll: PllConfig)
    | LockPoll(locked: bool)
    | HclkDivWrite(hclk: PrescalerCode)
    | AclkDivWrite(aclk: PrescalerCode)
    | PclkDivWrite(pclk: PrescalerCode)

  function FrclkMuxFor(src: ClockSource): FrclkMuxSel {
    match src
    case RingOsc => FrclkFromRosc
    case RefClock => FrclkFromClkref
    case External(_) => FrclkFromExtclk
  }

  function SclkMuxFor(mux: SystemClock): SclkMuxSel {
    match mux
    case FRCLK => SclkFromFrclk
    case PLLCLK => SclkFromPll
  }

  /** CCSCTL after the FRCLK stage: the ring oscillator is enabled only when selected. */
  function FrclkFields(f: SccFields, src: ClockSource): SccFields {
    var f1 := if src.RingOsc? then f.(roscen := true) else f;
    f1.(frclkmuxsel := FrclkMuxFor(src))
  }

  /** The SCLK stage: on the PLL path the read-modify-write of CCSPLLCTL replaces the five
      configuration fields, and the stage ends once lock is reported. */
  function SclkFields(f: SccFields, c: Config): SccFields {
    var f1 :=
      if c.sclkMux == FRCLK then f
      else f.(plloutdiv := c.pll.outdiv, pllindiv := c.pll.indiv, pllfbdiv := c.pll.fbdiv,
              pllbp := c.pll.bypass, pllen := c.pll.enabled, plllock := true);
    f1.(sclkmuxsel := SclkMuxFor(c.sclkMux))
  }

  function DividerFields(f: SccFields, c: Config): SccFields {
    f.(hclkdiv := c.hclk, aclkdiv := c.aclk, pclkdiv := c.pclk)
  }

  /** Register fields after `freeze(c)`, starting from `f`: each `modify` replaces only
      the fields it names. */
  function FreezeFields(f: SccFields, c: Config): SccFields {
    DividerFields(SclkFields(FrclkFields(f, c.frclkMux), c), c)
  }

  /** After `freeze` the divider fields hold the configuration's codes, the multiplexers
      its selections; on the FRCLK path CCSPLLCTL is untouched, on the PLL path it holds
      the PLL configuration and reports lock. ROSCEN is only ever set. */
  lemma FreezeFieldsMatchConfig(f: SccFields, c: Config)
    ensures var g := FreezeFields(f, c);
      && g.hclkdiv == c.hclk && g.aclkdiv == c.aclk && g.pclkdiv == c.pclk
      && g.frclkmuxsel == FrclkMuxFor(c.frclkMux) && g.sclkmuxsel == SclkMuxFor(c.sclkMux)
      && g.roscen == (f.roscen || c.frclkMux == RingOsc)
      && (c.sclkMux == FRCLK ==>
            g.plloutdiv == f.plloutdiv && g.pllindiv == f.pllindiv && g.pllfbdiv == f.pllfbdiv
            && g.pllbp == f.pllbp && g.pllen == f.pllen && g.plllock == f.plllock)
      && (c.sclkMux == PLLCLK ==>
            g.plloutdiv == c.pll.outdiv && g.pllindiv == c.pll.indiv && g.pllfbdiv == c.pll.fbdiv
            && g.pllbp == c.pll.bypass && g.pllen == c.pll.enabled && g.plllock)
  {
  }

  /** Applying the same configuration twice leaves the registers as one application does. */
  lemma FreezeIdempotent(f: SccFields, c: Config)
    ensures FreezeFields(FreezeFields(f, c), c) == FreezeFields(f, c)
  {
  }

  function FrclkTrace(src: ClockSource): seq<SccAccess> {
    (if src.RingOsc? then [RoscEnableWrite] else []) + [FrclkSelect(FrclkMuxFor(src))]
  }

  function UnlockedPolls(n: nat): (t: seq<SccAccess>)
    ensures |t| == n && forall m :: 0 <= m < n ==> t[m] == LockPoll(false)
  {
    seq(n, _ => LockPoll(false))
  }

  /** The busy-wait reads the lock bit until it is set: `n` reads that see it clear, then
      one that sees it set. */
  function LockPolls(n: nat): seq<SccAccess> {
    UnlockedPolls(n) + [LockPoll(true)]
  }

  function SclkTrace(c: Config, lockPolls: nat): seq<SccAccess> {
    match c.sclkMux
    case FRCLK => [SclkSelect(SclkFromFrclk)]
    case PLLCLK => [PllControlWrite(c.pll)] + LockPolls(lockPolls) + [SclkSelect(SclkFromPll)]
  }

  /** The register accesses of `freeze(c)` when the PLL needs `lockPolls` clear reads
      before it reports lock. */
  function FreezeTrace(c: Config, lockPolls: nat): seq<SccAccess> {
    FrclkTrace(c.frclkMux) + SclkTrace(c, lockPolls)
      + [HclkDivWrite(c.hclk), AclkDivWrite(c.aclk), PclkDivWrite(c.pclk)]
  }

  ghost predicate Before(t: seq<SccAccess>, a: SccAccess, b: SccAccess) {
    exists i, j :: 0 <= i < j < |t| && t[i] == a && t[j] == b
  }

  /** FRCLK is selected before SCLK, SCLK before the HCLK divider, HCLK before ACLK and
      ACLK before PCLK; the three divider writes close the sequence. */
  lemma FreezeStageOrder(c: Config, n: nat)
    ensures var t := FreezeTrace(c, n);
      && Before(t, FrclkSelect(FrclkMuxFor(c.frclkMux)), SclkSelect(SclkMuxFor(c.sclkMux)))
      && Before(t, SclkSelect(SclkMuxFor(c.sclkMux)), HclkDivWrite(c.hclk))
      && Before(t, HclkDivWrite(c.hclk), AclkDivWrite(c.aclk))
      && Before(t, AclkDivWrite(c.aclk), PclkDivWrite(c.pclk))
      && t[|t| - 3..] == [HclkDivWrite(c.hclk), AclkDivWrite(c.aclk), PclkDivWrite(c.pclk)]
  {
    var t := FreezeTrace(c, n);
    var fr := FrclkTrace(c.frclkMux);
    var sc := SclkTrace(c, n);
    var i := |fr| - 1;
    var j := |fr| + |sc| - 1;
    assert t[i] == FrclkSelect(FrclkMuxFor(c.frclkMux));
    assert t[j] == SclkSelect(SclkMuxFor(c.sclkMux));
    assert t[j + 1] == HclkDivWrite(c.hclk);
    assert t[j + 2] == AclkDivWrite(c.aclk);
    assert t[j + 3] == PclkDivWrite(c.pclk);
  }

  /** On the PLL path the control word is written first, the lock bit is then read until
      it is seen set, and only the access right after that read switches SCLK to the PLL. */
  lemma PllSwitchFollowsLock(c: Config, n: nat)
    requires c.sclkMux == PLLCLK
    ensures var t := FreezeTrace(c, n);
      var w := |FrclkTrace(c.frclkMux)|;
      && t[w] == PllControlWrite(c.pll)
      && t[w + n + 1] == LockPoll(true)
      && t[w + n + 2] == SclkSelect(SclkFromPll)
      && (forall m :: w < m < w + n + 1 ==> t[m] == LockPoll(false))
      && (forall m :: 0 <= m < |t| && t[m].LockPoll? ==> w < m)
      && (forall m :: 0 <= m < |t| && t[m] == SclkSelect(SclkFromPll) ==> m == w + n + 2)
  {
    var t := FreezeTrace(c, n);
    var w := |FrclkTrace(c.frclkMux)|;
    var u := UnlockedPolls(n);
    assert t == FrclkTrace(c.frclkMux) + [PllControlWrite(c.pll)] + u + [LockPoll(true)]
      + [SclkSelect(SclkFromPll)] + [HclkDivWrite(c.hclk), AclkDivWrite(c.aclk), PclkDivWrite(c.pclk)];
    forall m | w < m < w + n + 1
      ensures t[m] == LockPoll(false)
    {
      assert t[m] == u[m - w - 1];
    }
  }

  /** On the FRCLK path the PLL is neither written nor polled. */
  lemma FrclkPathLeavesPllAlone(c: Config, n: nat)
    requires c.sclkMux == FRCLK
    ensures forall a :: a in FreezeTrace(c, n) ==> !a.PllControlWrite? && !a.LockPoll?
  {
  }

  /** The SCC register block: one field per register field, and the accesses made so far. */
  class SccRegisters {
    // CCSCTL
    var roscen: bool
    var frclkmuxsel: FrclkMuxSel
    var sclkmuxsel: SclkMuxSel
    var hclkdiv: PrescalerCode
    var aclkdiv: PrescalerCode
    var pclkdiv: PrescalerCode
    // CCSPLLCTL
    var plloutdiv: PrescalerCode
    var pllindiv: uint8
    var pllfbdiv: uint16
    var pllbp: bool
    var pllen: bool
    /** Lock status, set by the hardware. */
    var plllock: bool
    ghost var trace: seq<SccAccess>

    function Fields(): SccFields
      reads this
    {
      SccFields(roscen, frclkmuxsel, sclkmuxsel, hclkdiv, aclkdiv, pclkdiv,
                plloutdiv, pllindiv, pllfbdiv, pllbp, pllen, plllock)
    }

    constructor (initial: SccFields)
      ensures Fields() == initial && trace == []
    {
      roscen, frclkmuxsel, sclkmuxsel := initial.roscen, initial.frclkmuxsel, initial.sclkmuxsel;
      hclkdiv, aclkdiv, pclkdiv := initial.hclkdiv, initial.aclkdiv, initial.pclkdiv;
      plloutdiv, pllindiv, pllfbdiv := initial.plloutdiv, initial.pllindiv, initial.pllfbdiv;
      pllbp, pllen, plllock := initial.pllbp, initial.pllen, initial.plllock;
      trace := [];
    }

    /** Waits for the PLL to lock. The hardware is taken to report the lock bit clear for
        `lockPolls` reads and set from then on. */
    method WaitForLock(lockPolls: nat)
      modifies this`plllock, this`trace
      ensures Fields() == old(Fields()).(plllock := true)
      ensures trace == old(trace) + LockPolls(lockPolls)
    {
      var remaining: nat := lockPolls;
      plllock := remaining == 0;
      trace := trace + [LockPoll(plllock)];
      while !plllock
        invariant remaining <= lockPolls
        invariant plllock <==> remaining == 0
        invariant trace == old(trace) + UnlockedPolls(lockPolls - remaining) + [LockPoll(plllock)]
        decreases remaining
      {
        ghost var k := lockPolls - remaining;
        assert UnlockedPolls(k) + [LockPoll(false)] == UnlockedPolls(k + 1);
        remaining := remaining - 1;
        plllock := remaining == 0;
        trace := trace + [LockPoll(plllock)];
      }
    }

    /** The FRCLK stage; returns the FRCLK frequency. */
    method ApplyFrclk(src: ClockSource) returns (frclk: Hertz)
      modifies this
      ensures frclk == FrclkFreq(src)
      ensures Fields() == FrclkFields(old(Fields()), src)
      ensures trace == old(trace) + FrclkTrace(src)
    {
      match src {
        case RingOsc =>
          roscen := true;
          trace := trace + [RoscEnableWrite];
          frclkmuxsel := FrclkFromRosc;
          trace := trace + [FrclkSelect(FrclkFromRosc)];
          frclk := RING_OSC_HZ;
        case RefClock =>
          frclkmuxsel := FrclkFromClkref;
          trace := trace + [FrclkSelect(FrclkFromClkref)];
          frclk := REF_CLOCK_HZ;
        case External(freq) =>
          frclkmuxsel := FrclkFromExtclk;
          trace := trace + [FrclkSelect(FrclkFromExtclk)];
          frclk := freq;
      }
    }

    /** The SCLK stage, fed by FRCLK at `frclk`; returns the SCLK frequency. */
    method ApplySclk(c: Config, frclk: Hertz, lockPolls: nat) returns (sclk: Hertz)
      modifies this
      ensures sclk == (if c.sclkMux == FRCLK then frclk else OutFreq(c.pll, frclk))
      ensures frclk == FrclkFreq(c.frclkMux) ==> sclk == SclkFreq(c)
      ensures Fields() == SclkFields(old(Fields()), c)
      ensures trace == old(trace) + SclkTrace(c, lockPolls)
    {
      match c.sclkMux {
        case FRCLK =>
          sclkmuxsel := SclkFromFrclk;
          trace := trace + [SclkSelect(SclkFromFrclk)];
          sclk := frclk;
        case PLLCLK =>
          ProgramPll(c.pll, lockPolls);
          sclkmuxsel := SclkFromPll;
          trace := trace + [SclkSelect(SclkFromPll)];
          sclk := OutFreq(c.pll, frclk);
      }
    }

    /** The read-modify-write of CCSPLLCTL with the five configuration fields, then the
        wait for lock. */
    method ProgramPll(p: PllConfig, lockPolls: nat)
      modifies this
      ensures Fields() == old(Fields()).(plloutdiv := p.outdiv, pllindiv := p.indiv,
        pllfbdiv := p.fbdiv, pllbp := p.bypass, pllen := p.enabled, plllock := true)
      ensures trace == old(trace) + [PllControlWrite(p)] + LockPolls(lockPolls)
    {
      plloutdiv, pllindiv, pllfbdiv := p.outdiv, p.indiv, p.fbdiv;
      pllbp, pllen := p.bypass, p.enabled;
      trace := trace + [PllControlWrite(p)];
      ghost var written := Fields();
      WaitForLock(lockPolls);
      assert Fields() == written.(plllock := true);
    }

    /** The HCLK, ACLK and PCLK stages, in that order; returns the three frequencies. */
    method ApplyDividers(c: Config, sclk: Hertz) returns (hclk: Hertz, aclk: Hertz, pclk: Hertz)
      modifies this
      ensures hclk == DividedClock(sclk, c.hclk) && aclk == DividedClock(sclk, c.aclk)
      ensures pclk == DividedClock(hclk, c.pclk)
      ensures Fields() == DividerFields(old(Fields()), c)
      ensures trace == old(trace) + [HclkDivWrite(c.hclk), AclkDivWrite(c.aclk), PclkDivWrite(c.pclk)]
    {
      hclk := DividedClock(sclk, c.hclk);
      hclkdiv := c.hclk;
      trace := trace + [HclkDivWrite(c.hclk)];
      aclk := DividedClock(sclk, c.aclk);
      aclkdiv := c.aclk;
      trace := trace + [AclkDivWrite(c.aclk)];
      pclk := DividedClock(hclk, c.pclk);
      pclkdiv := c.pclk;
      trace := trace + [PclkDivWrite(c.pclk)];
    }
  }

  /** System and clock control: the derived clocks and the register block. */
  class Scc {
    var clocks: Clocks
    const reg: SccRegisters

    /** `SccExt::constain` (the source's spelling): all clocks start at 0 Hz. */
    constructor Constain(reg: SccRegisters)
      ensures this.reg == reg && clocks == DefaultClocks()
    {
      this.reg := reg;
      clocks := DefaultClocks();
    }

    /** Applies a clock configuration: FRCLK, then SCLK (through the PLL if selected,
        after waiting for lock), then HCLK, ACLK and PCLK. */
    method Freeze(config: Config, lockPolls: nat)
      modifies this, reg
      ensures clocks == ClocksFor(config)
      ensures reg.Fields() == FreezeFields(old(reg.Fields()), config)
      ensures reg.trace == old(reg.trace) + FreezeTrace(config, lockPolls)
    {
      var frclk := reg.ApplyFrclk(config.frclkMux);
      var sclk := reg.ApplySclk(config, frclk, lockPolls);
      var hclk, aclk, pclk := reg.ApplyDividers(config, sclk);
      clocks := Clocks(sclk, hclk, aclk, pclk);
    }
  }

  /** `SccExt::freeze`: `constain` followed by `freeze`. */
  method FreezePeripheral(reg: SccRegisters, config: Config, lockPolls: nat) returns (scc: Scc)
    modifies reg
    ensures fresh(scc) && scc.reg == reg
    ensures scc.clocks == ClocksFor(config)
    ensures reg.Fields() == FreezeFields(old(reg.Fields()), config)
    ensures reg.trace == old(reg.trace) + FreezeTrace(config, lockPolls)
  {
    scc := new Scc.Constain(reg);
    scc.Freeze(config, lockPolls);
  }

  /** The blinky example: reference clock, PLL with `indiv = 1`, `fbdiv = 75` and the
      divide-by-2 output, default dividers: all four clocks run at 150 MHz. */
  method BlinkyScenario(initial: SccFields, lockPolls: nat) returns (clocks: Clocks, fields: SccFields)
    ensures clocks == Clocks(150_000_000, 150_000_000, 150_000_000, 150_000_000)
    ensures fields.sclkmuxsel == SclkFromPll && fields.frclkmuxsel == FrclkFromClkref
    ensures fields.pllindiv == 1 && fields.pllfbdiv == 75 && fields.plloutdiv == PLL_DIV2
    ensures fields.pllen && fields.plllock
  {
    var p := Enabled(DefaultPll(), true);
    var r1 := Indiv(p, 1);
    var r2 := Fbdiv(r1.value, 75);
    var pll := Outdiv(r2.value, PLL_DIV2);
    var config := Pll(Sclk(Frclk(DefaultConfig(), RefClock), PLLCLK), pll);
    assert VcoFreq(pll, REF_CLOCK_HZ) == 300_000_000;
    var reg := new SccRegisters(initial);
    var scc := FreezePeripheral(reg, config, lockPolls);
    clocks := scc.clocks;
    fields := reg.Fields();
  }

  /** Ring oscillator, FRCLK path, HCLK divided by 2: HCLK runs at 8 MHz. */
  lemma RingOscHalfHclk()
    ensures ClocksFor(Hclk(DefaultConfig(), 1)).sclk == 16_000_000
    ensures ClocksFor(Hclk(DefaultConfig(), 1)).hclk == 8_000_000
  {
  }

  /** A feedback divider below 4 is refused before any register is written. */
  lemma FbdivThreeRejected(p: PllConfig)
    ensures Fbdiv(p, 3) == Err(FbdivOutOfRange)
  {
  }
}
