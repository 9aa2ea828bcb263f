/** The SPI configuration (`src/ssp/config.rs`): a value built from the defaults by
    field-replacing setters, one of which aborts on a data size outside 4 to 32 bits. */
module SspConfig {
  import opened Common

  /** Frame format (FRF). Only the SPI format is named by the driver; the other codes of
      the chip's enumeration are kept as a number. */
  datatype FrameFormat = Spi | OtherFrameFormat(code: uint8)

  /** Master or slave (MS). */
  datatype Mode = Master | Slave

  /** Clock output phase (CPH). */
  datatype ClockPhase = FirstEdge | SecondEdge

  /** Clock polarity (CPO). */
  datatype ClockPolarity = ActiveHigh | ActiveLow

  /** Slave output drive (SOD). */
  datatype SlaveOutputDrive = Disabled | Enabled

  datatype Config = Config(
    m: uint8,
    n: uint8,
    frameFormat: FrameFormat,
    mode: Mode,
    lsbFirst: bool,
    loopback: bool,
    clockOutPhase: ClockPhase,
    clockPolarity: ClockPolarity,
    dataSize: uint8,
    slaveOutputDrive: SlaveOutputDrive)

  const MIN_DATA_SIZE: uint8 := 4
  const MAX_DATA_SIZE: uint8 := 32

  /** The `assert!`s of `data_size`, each of which aborts the program. */
  datatype ConfigPanic = DataSizeTooSmall | DataSizeTooLarge

  /** `Default`: clock dividers M = 2 and N = 254, SPI frames, master, MSB first, no
      loopback, first-edge phase, active-high polarity, 8-bit data, slave output off. */
  function DefaultConfig(): Config {
    Config(
      m := 2,
      n := 254,
      frameFormat := Spi,
      mode := Master,
      lsbFirst := false,
      loopback := false,
      clockOutPhase := FirstEdge,
      clockPolarity := ActiveHigh,
      dataSize := 8,
      slaveOutputDrive := Disabled)
  }

  // Each setter replaces one field: the result carries the new value, and putting the
  // old value back gives the original configuration.

  function M(c: Config, value: uint8): (r: Config)
    ensures r.m == value && r.(m := c.m) == c
  {
    c.(m := value)
  }

  function N(c: Config, value: uint8): (r: Config)
    ensures r.n == value && r.(n := c.n) == c
  {
    c.(n := value)
  }

  function SetFrameFormat(c: Config, format: FrameFormat): (r: Config)
    ensures r.frameFormat == format && r.(frameFormat := c.frameFormat) == c
  {
    c.(frameFormat := format)
  }

  function SetMode(c: Config, mode: Mode): (r: Config)
    ensures r.mode == mode && r.(mode := c.mode) == c
  {
    c.(mode := mode)
  }

  function LsbFirst(c: Config, first: bool): (r: Config)
    ensures r.lsbFirst == first && r.(lsbFirst := c.lsbFirst) == c
  {
    c.(lsbFirst := first)
  }

  function Loopback(c: Config, enabled: bool): (r: Config)
    ensures r.loopback == enabled && r.(loopback := c.loopback) == c
  {
    c.(loopback := enabled)
  }

  function ClockOutPhase(c: Config, phase: ClockPhase): (r: Config)
    ensures r.clockOutPhase == phase && r.(clockOutPhase := c.clockOutPhase) == c
  {
    c.(clockOutPhase := phase)
  }

  function SetClockPolarity(c: Config, polarity: ClockPolarity): (r: Config)
    ensures r.clockPolarity == polarity && r.(clockPolarity := c.clockPolarity) == c
  {
    c.(clockPolarity := polarity)
  }

  /** `data_size`: aborts unless `4 <= size <= 32`; the lower bound is checked first. */
  function DataSize(c: Config, size: uint8): (r: Result<Config, ConfigPanic>)
    ensures r.Ok? <==> MIN_DATA_SIZE <= size <= MAX_DATA_SIZE
    ensures r.Ok? ==> r.value.dataSize == size && r.value.(dataSize := c.dataSize) == c
    ensures r.Err? ==> r.error == (if size < MIN_DATA_SIZE then DataSizeTooSmall else DataSizeTooLarge)
  {
    if size < MIN_DATA_SIZE then Err(DataSizeTooSmall)
    else if size > MAX_DATA_SIZE then Err(DataSizeTooLarge)
    else Ok(c.(dataSize := size))
  }

  /** The data size of every configuration the builder can produce lies in 4 to 32, so
      the register value `data_size - 1` written by the driver lies in 3 to 31. */
  predicate Buildable(c: Config) {
    MIN_DATA_SIZE <= c.dataSize <= MAX_DATA_SIZE
  }

  /** One step of the builder: any setter applied to a configuration. */
  datatype Setter =
    | SetM(m: uint8)
    | SetN(n: uint8)
    | SetFrame(format: FrameFormat)
    | SetMs(mode: Mode)
    | SetLsbFirst(first: bool)
    | SetLoopback(enabled: bool)
    | SetPhase(phase: ClockPhase)
    | SetPolarity(polarity: ClockPolarity)
    | SetDataSize(size: uint8)

  /** The builder chain `setters` applied from left to right; the first aborting setter
      aborts the chain. */
  function Build(c: Config, setters: seq<Setter>): (r: Result<Config, ConfigPanic>)
    ensures r.Ok? && Buildable(c) ==> Buildable(r.value)
    decreases |setters|
  {
    if |setters| == 0 then Ok(c)
    else
      var step := Apply(c, setters[0]);
      if step.Err? then Err(step.error) else Build(step.value, setters[1..])
  }

  /** A setter the data-size check rejects. */
  predicate Rejected(s: Setter) {
    s.SetDataSize? && !(MIN_DATA_SIZE <= s.size <= MAX_DATA_SIZE)
  }

  /** A chain aborts exactly when one of its setters is a rejected data size. */
  lemma {:induction false} BuildAbortsIffRejected(c: Config, setters: seq<Setter>)
    ensures Build(c, setters).Err? <==> exists k :: 0 <= k < |setters| && Rejected(setters[k])
    decreases |setters|
  {
    if |setters| > 0 {
      var step := Apply(c, setters[0]);
      if step.Ok? {
        BuildAbortsIffRejected(step.value, setters[1..]);
        if exists k :: 0 <= k < |setters| && Rejected(setters[k]) {
          var k :| 0 <= k < |setters| && Rejected(setters[k]);
          assert k > 0 && setters[1..][k - 1] == setters[k];
        }
        if exists k :: 0 <= k < |setters[1..]| && Rejected(setters[1..][k]) {
          var k :| 0 <= k < |setters[1..]| && Rejected(setters[1..][k]);
          assert setters[k + 1] == setters[1..][k];
        }
      }
    }
  }

  function Apply(c: Config, s: Setter): (r: Result<Config, ConfigPanic>)
    ensures r.Ok? && Buildable(c) ==> Buildable(r.value)
    ensures r.Err? <==> Rejected(s)
  {
    match s
    case SetM(v) => Ok(M(c, v))
    case SetN(v) => Ok(N(c, v))
    case SetFrame(f) => Ok(SetFrameFormat(c, f))
    case SetMs(mode) => Ok(SetMode(c, mode))
    case SetLsbFirst(b) => Ok(LsbFirst(c, b))
    case SetLoopback(b) => Ok(Loopback(c, b))
    case SetPhase(p) => Ok(ClockOutPhase(c, p))
    case SetPolarity(p) => Ok(SetClockPolarity(c, p))
    case SetDataSize(size) => DataSize(c, size)
  }

  /** Every configuration built from the defaults has a data size in 4 to 32, so the
      value `data_size - 1` the SPI driver writes to the data-size field does not wrap. */
  lemma BuiltFromDefaultIsBuildable(setters: seq<Setter>)
    ensures Buildable(DefaultConfig())
    ensures Build(DefaultConfig(), setters).Ok? ==>
      var c := Build(DefaultConfig(), setters).value;
      3 <= c.dataSize - 1 < 32
  {
  }

  /** Setting a field twice keeps the last value; setters of different fields commute. */
  lemma SetterLaws(c: Config, a: uint8, b: uint8, mode: Mode, phase: ClockPhase)
    ensures M(M(c, a), b) == M(c, b)
    ensures N(N(c, a), b) == N(c, b)
    ensures M(N(c, a), b) == N(M(c, b), a)
    ensures SetMode(ClockOutPhase(c, phase), mode) == ClockOutPhase(SetMode(c, mode), phase)
    ensures DataSize(c, a).Ok? && DataSize(DataSize(c, a).value, b).Ok? ==>
      DataSize(DataSize(c, a).value, b) == DataSize(c, b)
  {
  }

  /** The field a setter writes, numbered in the order of `Config`. */
  function FieldOf(s: Setter): nat {
    match s
    case SetM(_) => 0
    case SetN(_) => 1
    case SetFrame(_) => 2
    case SetMs(_) => 3
    case SetLsbFirst(_) => 4
    case SetLoopback(_) => 5
    case SetPhase(_) => 6
    case SetPolarity(_) => 7
    case SetDataSize(_) => 8
  }

  /** A chain of two setters: the first one's abort, or the second applied to the first
      one's result. */
  lemma BuildPair(c: Config, s: Setter, t: Setter)
    ensures Build(c, [s, t]) == (if Apply(c, s).Err? then Apply(c, s) else Apply(Apply(c, s).value, t))
  {
    assert [s, t][1..] == [t] && [t][1..] == [];
    var step := Apply(c, s);
    if step.Ok? {
      assert Build(c, [s, t]) == Build(step.value, [t]);
      assert Build(step.value, [t]) == Apply(step.value, t);
    }
  }

  /** Two accepted setters of different fields give the same configuration in either order. */
  lemma ApplyCommutes(c: Config, s: Setter, t: Setter)
    requires FieldOf(s) != FieldOf(t) && !Rejected(s) && !Rejected(t)
    ensures Apply(Apply(c, s).value, t) == Apply(Apply(c, t).value, s)
  {
    ApplyFields(c, s);
    ApplyFields(c, t);
    ApplyFields(Apply(c, s).value, t);
    ApplyFields(Apply(c, t).value, s);
  }

  /** Each field after an accepted setter: the setter's value for its own field, the old
      value for every other field. */
  lemma ApplyFields(c: Config, s: Setter)
    requires !Rejected(s)
    ensures Apply(c, s).Ok?
    ensures Apply(c, s).value.m == (if s.SetM? then s.m else c.m)
    ensures Apply(c, s).value.n == (if s.SetN? then s.n else c.n)
    ensures Apply(c, s).value.frameFormat == (if s.SetFrame? then s.format else c.frameFormat)
    ensures Apply(c, s).value.mode == (if s.SetMs? then s.mode else c.mode)
    ensures Apply(c, s).value.lsbFirst == (if s.SetLsbFirst? then s.first else c.lsbFirst)
    ensures Apply(c, s).value.loopback == (if s.SetLoopback? then s.enabled else c.loopback)
    ensures Apply(c, s).value.clockOutPhase == (if s.SetPhase? then s.phase else c.clockOutPhase)
    ensures Apply(c, s).value.clockPolarity == (if s.SetPolarity? then s.polarity else c.clockPolarity)
    ensures Apply(c, s).value.dataSize == (if s.SetDataSize? then s.size else c.dataSize)
    ensures Apply(c, s).value.slaveOutputDrive == c.slaveOutputDrive
  {
  }

  /** Any two setters of different fields may be chained in either order, with the same
      configuration or the same abort as the result. */
  lemma SettersCommute(c: Config, s: Setter, t: Setter)
    requires FieldOf(s) != FieldOf(t)
    ensures Build(c, [s, t]) == Build(c, [t, s])
  {
    BuildPair(c, s, t);
    BuildPair(c, t, s);
    if !Rejected(s) && !Rejected(t) {
      ApplyCommutes(c, s, t);
    }
  }

  /** A setter followed by another of the same field: the second value wins, unless the
      first one aborts the chain. */
  lemma LastSetterWins(c: Config, s: Setter, t: Setter)
    requires FieldOf(s) == FieldOf(t)
    ensures Build(c, [s, t]) == (if Rejected(s) then Apply(c, s) else Apply(c, t))
  {
    BuildPair(c, s, t);
  }

  /** The defaults pass the data-size check: an 8-bit master sending SPI frames with
      the most significant bit first. */
  lemma DefaultConfigFields()
    ensures var c := DefaultConfig();
      && Buildable(c) && DataSize(c, c.dataSize) == Ok(c)
      && c.mode == Master && c.frameFormat == Spi
      && c.clockOutPhase == FirstEdge && c.clockPolarity == ActiveHigh
      && !c.lsbFirst && !c.loopback && c.slaveOutputDrive == Disabled
      && c.m == 2 && c.n == 254 && c.dataSize == 8
  {
  }
}
