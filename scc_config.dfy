/** The clock tree description: a pure builder of multiplexer and divider choices
    (`src/scc/config.rs`). Building a configuration touches no register. */
module SccConfig {
  import opened Common
  import Arith

  /** A frequency in whole hertz, held in a `u32` like the crate's `Hertz`. */
  type Hertz = uint32

  const RING_OSC_HZ: Hertz := 16_000_000
  const REF_CLOCK_HZ: Hertz := 4_000_000

  /** Source of the free-running clock FRCLK. */
  datatype ClockSource = RingOsc | RefClock | External(freq: Hertz)

  /** Input of the system clock SCLK. */
  datatype SystemClock = FRCLK | PLLCLK

  /** The HCLKDIV, ACLKDIV, PCLKDIV and PLLOUTDIV enumerations are represented by
      their numeric code: code `c` divides by `c + 1`. */
  type PrescalerCode = c: nat | c < 16

  const SCLK_DIV1: PrescalerCode := 0
  const HCLK_DIV1: PrescalerCode := 0
  const PLL_DIV1: PrescalerCode := 0
  const PLL_DIV2: PrescalerCode := 1

  /** Divisor selected by a prescaler code. */
  function Divisor(code: PrescalerCode): (d: nat)
    ensures 1 <= d <= 16
  {
    code + 1
  }

  datatype PllConfig = PllConfig(
    fbdiv: uint16,
    indiv: uint8,
    outdiv: PrescalerCode,
    bypass: bool,
    enabled: bool)

  /** The clock tree configuration. `pclkEnbable` keeps the source's spelling. */
  datatype Config = Config(
    hclk: PrescalerCode,
    aclkEnable: bool,
    aclk: PrescalerCode,
    pclkEnbable: bool,
    pclk: PrescalerCode,
    sclkMux: SystemClock,
    roscEnable: bool,
    frclkMux: ClockSource,
    pll: PllConfig)

  /** The `assert!`s of the PLL builder, each of which aborts the program. */
  datatype ConfigPanic = FbdivOutOfRange | IndivOutOfRange

  function DefaultConfig(): Config {
    Config(
      hclk := SCLK_DIV1,
      aclkEnable := true,
      aclk := SCLK_DIV1,
      pclkEnbable := true,
      pclk := HCLK_DIV1,
      sclkMux := FRCLK,
      roscEnable := true,
      frclkMux := RingOsc,
      pll := DefaultPll())
  }

  lemma DefaultConfigFields()
    ensures var c := DefaultConfig();
      && Divisor(c.hclk) == 1 && Divisor(c.aclk) == 1 && Divisor(c.pclk) == 1
      && c.aclkEnable && c.pclkEnbable && c.roscEnable
      && c.sclkMux == FRCLK && c.frclkMux == RingOsc && c.pll == DefaultPll()
  {
  }

  // Each setter replaces one field: the result carries the new value, and
  // putting the old value back gives the original configuration.

  function Hclk(c: Config, value: PrescalerCode): (r: Config)
    ensures r.hclk == value && r.(hclk := c.hclk) == c
  {
    c.(hclk := value)
  }

  function AclkEnable(c: Config, enabled: bool): (r: Config)
    ensures r.aclkEnable == enabled && r.(aclkEnable := c.aclkEnable) == c
  {
    c.(aclkEnable := enabled)
  }

  function Aclk(c: Config, value: PrescalerCode): (r: Config)
    ensures r.aclk == value && r.(aclk := c.aclk) == c
  {
    c.(aclk := value)
  }

  function PclkEnable(c: Config, enabled: bool): (r: Config)
    ensures r.pclkEnbable == enabled && r.(pclkEnbable := c.pclkEnbable) == c
  {
    c.(pclkEnbable := enabled)
  }

  function Pclk(c: Config, value: PrescalerCode): (r: Config)
    ensures r.pclk == value && r.(pclk := c.pclk) == c
  {
    c.(pclk := value)
  }

  function Sclk(c: Config, mux: SystemClock): (r: Config)
    ensures r.sclkMux == mux && r.(sclkMux := c.sclkMux) == c
  {
    c.(sclkMux := mux)
  }

  function RoscEnable(c: Config, enabled: bool): (r: Config)
    ensures r.roscEnable == enabled && r.(roscEnable := c.roscEnable) == c
  {
    c.(roscEnable := enabled)
  }

  function Frclk(c: Config, mux: ClockSource): (r: Config)
    ensures r.frclkMux == mux && r.(frclkMux := c.frclkMux) == c
  {
    c.(frclkMux := mux)
  }

  function Pll(c: Config, config: PllConfig): (r: Config)
    ensures r.pll == config && r.(pll := c.pll) == c
  {
    c.(pll := config)
  }

  /** Every setter called twice keeps the last value; the HCLK and PCLK dividers, and the
      SCLK and FRCLK multiplexers, may be set in either order. */
  lemma ConfigSetterLaws(c: Config, a: PrescalerCode, b: PrescalerCode, mux: SystemClock, src: ClockSource,
                         mux0: SystemClock, src0: ClockSource, x: bool, y: bool, p: PllConfig, q: PllConfig)
    ensures Hclk(Hclk(c, a), b) == Hclk(c, b)
    ensures Aclk(Aclk(c, a), b) == Aclk(c, b)
    ensures Pclk(Pclk(c, a), b) == Pclk(c, b)
    ensures AclkEnable(AclkEnable(c, x), y) == AclkEnable(c, y)
    ensures PclkEnable(PclkEnable(c, x), y) == PclkEnable(c, y)
    ensures RoscEnable(RoscEnable(c, x), y) == RoscEnable(c, y)
    ensures Sclk(Sclk(c, mux0), mux) == Sclk(c, mux)
    ensures Frclk(Frclk(c, src0), src) == Frclk(c, src)
    ensures Pll(Pll(c, p), q) == Pll(c, q)
    ensures Hclk(Pclk(c, a), b) == Pclk(Hclk(c, b), a)
    ensures Sclk(Frclk(c, src), mux) == Frclk(Sclk(c, mux), src)
  {
  }

  function DefaultPll(): PllConfig {
    PllConfig(fbdiv := 0, indiv := 0, outdiv := PLL_DIV1, bypass := false, enabled := false)
  }

  /** The default PLL has zero dividers and is disabled; its output frequency is 0 Hz
      whatever the input, so `indiv` must be set before the PLL path is meaningful. */
  lemma DefaultPllOutputsNothing(input: Hertz)
    ensures DefaultPll().fbdiv == 0 && DefaultPll().indiv == 0
    ensures Divisor(DefaultPll().outdiv) == 1 && !DefaultPll().bypass && !DefaultPll().enabled
    ensures OutFreq(DefaultPll(), input) == 0
  {
  }

  /** Feedback divider; the source aborts unless 4 <= divider <= 16383. */
  function Fbdiv(p: PllConfig, divider: uint16): (r: Result<PllConfig, ConfigPanic>)
    ensures r.Ok? <==> 4 <= divider <= 16383
    ensures r.Ok? ==> r.value.fbdiv == divider && r.value.(fbdiv := p.fbdiv) == p
    ensures r.Err? ==> r.error == FbdivOutOfRange
  {
    if divider < 4 || divider > 16383 then Err(FbdivOutOfRange)
    else Ok(p.(fbdiv := divider))
  }

  /** Input divider; the source aborts unless 1 <= divider <= 15. */
  function Indiv(p: PllConfig, divider: uint8): (r: Result<PllConfig, ConfigPanic>)
    ensures r.Ok? <==> 1 <= divider <= 15
    ensures r.Ok? ==> r.value.indiv == divider && r.value.(indiv := p.indiv) == p
    ensures r.Err? ==> r.error == IndivOutOfRange
  {
    if divider < 1 || divider > 15 then Err(IndivOutOfRange)
    else Ok(p.(indiv := divider))
  }

  function Outdiv(p: PllConfig, divider: PrescalerCode): (r: PllConfig)
    ensures r.outdiv == divider && r.(outdiv := p.outdiv) == p
  {
    p.(outdiv := divider)
  }

  function Bypass(p: PllConfig, enabled: bool): (r: PllConfig)
    ensures r.bypass == enabled && r.(bypass := p.bypass) == p
  {
    p.(bypass := enabled)
  }

  function Enabled(p: PllConfig, enabled: bool): (r: PllConfig)
    ensures r.enabled == enabled && r.(enabled := p.enabled) == p
  {
    p.(enabled := enabled)
  }

  /** Every PLL setter called twice keeps the last value; the range-checked ones do so
      when both calls pass their check. */
  lemma PllSetterLaws(p: PllConfig, f: uint16, g: uint16, i: uint8, j: uint8,
                      a: PrescalerCode, b: PrescalerCode, x: bool, y: bool)
    ensures Fbdiv(p, f).Ok? && Fbdiv(p, g).Ok? ==> Fbdiv(Fbdiv(p, f).value, g) == Fbdiv(p, g)
    ensures Indiv(p, i).Ok? && Indiv(p, j).Ok? ==> Indiv(Indiv(p, i).value, j) == Indiv(p, j)
    ensures Outdiv(Outdiv(p, a), b) == Outdiv(p, b)
    ensures Bypass(Bypass(p, x), y) == Bypass(p, y)
    ensures Enabled(Enabled(p, x), y) == Enabled(p, y)
  {
  }

  /** Every PLL configuration the builder can produce has `fbdiv` either 0 (the
      default) or in 4..16383, and `indiv` either 0 or in 1..15. */
  ghost predicate Buildable(p: PllConfig) {
    && (p.fbdiv == 0 || 4 <= p.fbdiv <= 16383)
    && p.indiv <= 15
  }

  lemma BuilderKeepsBuildable(p: PllConfig, fb: uint16, ind: uint8, out: PrescalerCode, b: bool)
    requires Buildable(p)
    ensures Buildable(DefaultPll())
    ensures Fbdiv(p, fb).Ok? ==> Buildable(Fbdiv(p, fb).value)
    ensures Indiv(p, ind).Ok? ==> Buildable(Indiv(p, ind).value)
    ensures Buildable(Outdiv(p, out)) && Buildable(Bypass(p, b)) && Buildable(Enabled(p, b))
  {
  }

  /** VCO frequency `input * fbdiv / indiv`. The source computes it in `f32` and casts to
      `u32`; the model takes the exact quotient rounded down, which abstracts the `f32`
      rounding, and keeps the cast's saturation at `u32::MAX`. With `indiv == 0` the
      `f32` division yields infinity (cast to `u32::MAX`) or NaN (cast to 0). */
  function VcoFreq(p: PllConfig, input: Hertz): (r: Hertz)
    ensures p.indiv > 0 && r < UINT32_MAX ==> r * p.indiv <= input * p.fbdiv < r * p.indiv + p.indiv
    ensures p.indiv > 0 ==> (r == UINT32_MAX <==> input * p.fbdiv >= UINT32_MAX * p.indiv)
    ensures p.indiv == 0 ==> (r == UINT32_MAX <==> input > 0 && p.fbdiv > 0)
    ensures p.indiv == 0 ==> (r == 0 <==> input == 0 || p.fbdiv == 0)
  {
    if p.indiv == 0 then
      (if input > 0 && p.fbdiv > 0 then UINT32_MAX else 0)
    else
      Arith.SaturatedQuotient(input * p.fbdiv, p.indiv, UINT32_MAX)
  }

  /** PLL output frequency: the VCO frequency divided by `outdiv + 1`, rounded down. */
  function OutFreq(p: PllConfig, input: Hertz): (r: Hertz)
    ensures r * Divisor(p.outdiv) <= VcoFreq(p, input) < r * Divisor(p.outdiv) + Divisor(p.outdiv)
  {
    Arith.Quotient(VcoFreq(p, input), Divisor(p.outdiv))
  }

  /** When the VCO does not saturate, the PLL output is `input * fbdiv / (indiv * (outdiv + 1))`
      truncated to whole hertz. */
  lemma OutFreqExact(p: PllConfig, input: Hertz)
    requires p.indiv > 0 && input * p.fbdiv < UINT32_MAX * p.indiv
    ensures OutFreq(p, input) == input * p.fbdiv / (p.indiv * Divisor(p.outdiv))
  {
    Arith.DivAtLeast(input * p.fbdiv, p.indiv, UINT32_MAX);
    assert VcoFreq(p, input) == input * p.fbdiv / p.indiv;
    Arith.DivDiv(input * p.fbdiv, p.indiv, Divisor(p.outdiv));
  }

  /** The PLL output never exceeds the VCO frequency. */
  lemma OutFreqAtMostVco(p: PllConfig, input: Hertz)
    ensures OutFreq(p, input) <= VcoFreq(p, input)
  {
    Arith.DivLe(VcoFreq(p, input), Divisor(p.outdiv));
  }
}
