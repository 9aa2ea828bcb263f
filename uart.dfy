/** The UART configuration (`src/uart.rs`): a value built from the defaults, or from a
    baud rate, by field-replacing setters. */
module Uart {
  import opened Common

  /** A rate in bits per second, a `u32` like the crate's `Bps`. */
  type Bps = uint32

  /** Parity selection (PSEL). Only even and odd parity are named by the driver; the
      other codes of the chip's enumeration are kept as a number. */
  datatype Parity = Even | Odd | OtherParity(code: uint8)

  /** Stop bits (SBS). Only one stop bit is named by the driver. */
  datatype StopBits = Stop1 | OtherStopBits(code: uint8)

  /** Word length (WLS). Only 8-bit words are named by the driver. */
  datatype WordLength = Length8 | OtherWordLength(code: uint8)

  /** `None` parity means no parity bit is sent. */
  datatype Config = Config(
    baudrate: Bps,
    parity: Option<Parity>,
    stopBits: StopBits,
    wordLength: WordLength)

  const DEFAULT_BAUDRATE: Bps := 115_200

  /** `Default`: 115200 bps, no parity, one stop bit, 8-bit words. */
  function DefaultConfig(): Config {
    Config(baudrate := DEFAULT_BAUDRATE, parity := None, stopBits := Stop1, wordLength := Length8)
  }

  /** `From<Bps>`: the defaults with the baud rate replaced. */
  function FromBps(baudrate: Bps): (r: Config)
    ensures r.baudrate == baudrate && r.(baudrate := DEFAULT_BAUDRATE) == DefaultConfig()
    ensures r == Baudrate(DefaultConfig(), baudrate)
  {
    DefaultConfig().(baudrate := baudrate)
  }

  // Each setter replaces one field: the result carries the new value, and putting the
  // old value back gives the original configuration.

  function Baudrate(c: Config, baudrate: Bps): (r: Config)
    ensures r.baudrate == baudrate && r.(baudrate := c.baudrate) == c
  {
    c.(baudrate := baudrate)
  }

  function ParityNone(c: Config): (r: Config)
    ensures r.parity == None && r.(parity := c.parity) == c
  {
    c.(parity := None)
  }

  function ParityEven(c: Config): (r: Config)
    ensures r.parity == Some(Even) && r.(parity := c.parity) == c
  {
    c.(parity := Some(Even))
  }

  function ParityOdd(c: Config): (r: Config)
    ensures r.parity == Some(Odd) && r.(parity := c.parity) == c
  {
    c.(parity := Some(Odd))
  }

  function SetStopBits(c: Config, stopBits: StopBits): (r: Config)
    ensures r.stopBits == stopBits && r.(stopBits := c.stopBits) == c
  {
    c.(stopBits := stopBits)
  }

  function SetWordLength(c: Config, wordLength: WordLength): (r: Config)
    ensures r.wordLength == wordLength && r.(wordLength := c.wordLength) == c
  {
    c.(wordLength := wordLength)
  }

  /** The defaults, and a configuration from a baud rate, differ only in the rate. */
  lemma DefaultConfigFields(baudrate: Bps)
    ensures DefaultConfig().baudrate == 115_200 && DefaultConfig().parity == None
    ensures DefaultConfig().stopBits == Stop1 && DefaultConfig().wordLength == Length8
    ensures FromBps(DEFAULT_BAUDRATE) == DefaultConfig()
    ensures FromBps(baudrate).parity == None && FromBps(baudrate).stopBits == Stop1
    ensures FromBps(baudrate).wordLength == Length8
  {
  }

  /** The parity setters override one another: the last one called decides, and
      `parity_none` undoes the others. */
  lemma ParityLastWins(c: Config)
    ensures ParityNone(ParityEven(c)) == ParityNone(c)
    ensures ParityNone(ParityOdd(c)) == ParityNone(c)
    ensures ParityOdd(ParityEven(c)) == ParityOdd(c)
    ensures ParityEven(ParityOdd(c)) == ParityEven(c)
    ensures ParityNone(DefaultConfig()) == DefaultConfig()
  {
  }

  /** Setters of different fields commute, and resetting the rate is the last rate. */
  lemma SetterLaws(c: Config, a: Bps, b: Bps, s: StopBits, w: WordLength)
    ensures Baudrate(Baudrate(c, a), b) == Baudrate(c, b)
    ensures Baudrate(FromBps(a), b) == FromBps(b)
    ensures SetStopBits(SetWordLength(c, w), s) == SetWordLength(SetStopBits(c, s), w)
    ensures ParityEven(Baudrate(c, a)) == Baudrate(ParityEven(c), a)
  {
  }
}
