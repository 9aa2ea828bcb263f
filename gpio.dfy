/** GPIO pin logic (`src/gpio.rs`). A pin is a port letter, a pin number and a mode;
    the source keeps all three in the type, so they are values here and the capability
    of each mode is a predicate that the operations require. The registers a port's pins
    use (the pull-up and pull-down enables, the output latch and the input register) are
    the fields of a `Port` object. */
module Gpio {
  import Common
  import Lib
  import opened Bits

  // ---------------------------------------------------------------------------
  // Modes and capabilities

  datatype Otype = PushPull | OpenDrain

  /** Alternate functions AF0 to AF7. */
  type AfNumber = a: nat | a < 8

  /** The type-state modes; `Input` is the default mode. */
  datatype Mode = Input | Output(otype: Otype) | Alternate(af: AfNumber, otype: Otype)

  /** JTAG/SWD mode. */
  const Debugger: Mode := Alternate(3, PushPull)

  /** Pull setting for an input. */
  datatype Pull = None | Up | Down

  datatype PinState = Low | High

  /** Modes whose input register may be read. */
  predicate Readable(m: Mode) {
    m == Input || m == Output(OpenDrain)
  }

  /** Modes whose pull resistors may be changed. */
  predicate Active(m: Mode) {
    m == Input
  }

  /** Modes that may drive the output latch. */
  predicate IsOutput(m: Mode) {
    m.Output?
  }

  /** Only `Input` is active, and it is also readable; an open-drain output is readable
      but neither active nor a push-pull output; an alternate mode (the debugger pins,
      say) has none of the three capabilities. */
  lemma CapabilityRules(m: Mode)
    ensures Active(m) ==> Readable(m) && !IsOutput(m)
    ensures Readable(m) && IsOutput(m) <==> m == Output(OpenDrain)
    ensures m.Alternate? ==> !Readable(m) && !Active(m) && !IsOutput(m)
    ensures !Readable(Debugger) && !Active(Debugger) && !IsOutput(Debugger)
    ensures !Readable(Output(PushPull))
  {
  }

  // ---------------------------------------------------------------------------
  // Pins

  /** The ports present on the part. */
  type PortLetter = c: char | 'A' <= c <= 'G' witness 'A'

  datatype Pin = Pin(port: PortLetter, index: PinIndex, mode: Mode)

  function PinId(pin: Pin): (id: Common.uint8)
    ensures id < 8
  {
    pin.index as int
  }

  /** `port_id`: the port letter's offset from `A`. */
  function PortId(p: PortLetter): (id: Common.uint8)
    ensures id < 7
  {
    p as int - 'A' as int
  }

  /** Port letter `A` is port 0; the ids are the letters in order. */
  lemma PortIdRoundTrip(p: PortLetter)
    ensures ('A' as int + PortId(p)) as char == p
    ensures PortId('A') == 0 && PortId('G') == 6
  {
  }

  /** Two pins have the same port and pin id exactly when they are the same pin of the
      same port, whatever their modes. */
  lemma PinIdsIdentifyPin(a: Pin, b: Pin)
    ensures PortId(a.port) == PortId(b.port) && PinId(a) == PinId(b)
        <==> a.port == b.port && a.index == b.index
  {
    if PortId(a.port) == PortId(b.port) {
      assert a.port as int == b.port as int;
    }
  }

  /** `split`: one pin per row of the port's pin table, in the table's mode or in the
      default mode `Input`. The table itself is part of the chip description. */
  datatype PinEntry = PinEntry(index: PinIndex, mode: Common.Option<Mode>)

  function SplitPort(port: PortLetter, table: seq<PinEntry>): (parts: seq<Pin>)
    ensures |parts| == |table|
    ensures forall i :: 0 <= i < |table| ==> parts[i].port == port && parts[i].index == table[i].index
    ensures forall i :: 0 <= i < |table| && table[i].mode.None? ==> parts[i].mode == Input
    ensures forall i :: 0 <= i < |table| && table[i].mode.Some? ==> parts[i].mode == table[i].mode.value
  {
    seq(|table|, i requires 0 <= i < |table| => Pin(port, table[i].index, table[i].mode.GetOr(Input)))
  }

  /** Pins split from a table with distinct pin numbers are distinct pins, and a pin left
      in the default mode may have its pulls set and its input read. */
  lemma SplitGivesDistinctPins(port: PortLetter, table: seq<PinEntry>)
    requires forall i, j :: 0 <= i < j < |table| ==> table[i].index != table[j].index
    ensures var parts := SplitPort(port, table);
      forall i, j :: 0 <= i < j < |parts| ==> PinId(parts[i]) != PinId(parts[j])
    ensures var parts := SplitPort(port, table);
      forall i :: 0 <= i < |parts| && table[i].mode.None? ==> Active(parts[i].mode) && Readable(parts[i].mode)
  {
  }

  // ---------------------------------------------------------------------------
  // Debug text

  /** The decimal digit of a number below ten. */
  function Digit(d: nat): char
    requires d < 10
  {
    ('0' as int + d) as char
  }

  function OtypeTypeName(o: Otype): string {
    "pac25_hal::gpio::" + OtypeName(o)
  }

  /** The full type name of a mode as the compiler renders it. */
  function ModeTypeName(m: Mode): string {
    match m
    case Input => "pac25_hal::gpio::Input"
    case Output(o) => "pac25_hal::gpio::Output<" + OtypeTypeName(o) + ">"
    case Alternate(a, o) => "pac25_hal::gpio::Alternate<" + [Digit(a)] + ", " + OtypeTypeName(o) + ">"
  }

  /** The `Debug` format `P{port}{pin}<{mode}>`. */
  function DebugText(pin: Pin): string {
    DebugPrefix(pin) + Lib.StrippedTypeName(ModeTypeName(pin.mode)) + ">"
  }

  /** The text before the mode: `P`, the port letter, the pin number and `<`. */
  function DebugPrefix(pin: Pin): string {
    "P" + [pin.port] + [Digit(pin.index as int)] + "<"
  }

  /** An input pin prints as, for example, `PD4<Input>`. For a generic mode only the last
      piece after `::` of the whole type name is kept, so an output of pin D4 prints as
      `PD4<PushPull>>`: the outer mode name is lost and the brackets do not balance. */
  lemma DebugTextOfModes(pin: Pin)
    ensures pin.mode == Input ==> DebugText(pin) == DebugPrefix(pin) + "Input>"
    ensures pin.mode.Output? || pin.mode.Alternate? ==>
      DebugText(pin) == DebugPrefix(pin) + OtypeName(pin.mode.otype) + ">>"
  {
    match pin.mode {
      case Input => DebugTextInput(pin);
      case Output(o) => DebugTextOutput(pin, o);
      case Alternate(a, o) => DebugTextAlternate(pin, a, o);
    }
  }

  function OtypeName(o: Otype): string {
    if o == PushPull then "PushPull" else "OpenDrain"
  }

  lemma DebugTextInput(pin: Pin)
    requires pin.mode == Input
    ensures DebugText(pin) == DebugPrefix(pin) + "Input>"
  {
    assert ModeTypeName(pin.mode) == "pac25_hal::gpio" + "::" + "Input";
    Lib.NoColonNoDelim("Input");
    Lib.StrippedAfterLastDelim("pac25_hal::gpio", "Input");
  }

  /** The stripped name of a generic mode `outer<args, o>` whose last argument is the
      output type `o`. */
  lemma StrippedGeneric(outer: string, o: Otype)
    ensures Lib.StrippedTypeName(outer + OtypeTypeName(o) + ">") == OtypeName(o) + ">"
  {
    var head := outer + "pac25_hal::gpio";
    var tail := OtypeName(o) + ">";
    assert outer + OtypeTypeName(o) + ">" == head + "::" + tail;
    Lib.NoColonNoDelim(tail);
    Lib.StrippedAfterLastDelim(head, tail);
  }

  lemma DebugTextOutput(pin: Pin, o: Otype)
    requires pin.mode == Output(o)
    ensures DebugText(pin) == DebugPrefix(pin) + OtypeName(o) + ">>"
  {
    StrippedGeneric("pac25_hal::gpio::Output<", o);
  }

  lemma DebugTextAlternate(pin: Pin, a: AfNumber, o: Otype)
    requires pin.mode == Alternate(a, o)
    ensures DebugText(pin) == DebugPrefix(pin) + OtypeName(o) + ">>"
  {
    StrippedGeneric("pac25_hal::gpio::Alternate<" + [Digit(a)] + ", ", o);
  }

  // ---------------------------------------------------------------------------
  // Register bits

  /** The pull-up and pull-down enable registers of one port. */
  datatype PullRegs = PullRegs(puen: bv32, pden: bv32)

  /** The register states after each of the read-modify-writes of
      `set_internal_resistor`: clear the pull-up bit, clear the pull-down bit, then set
      the bit the choice asks for (none for `None`). */
  function PullSteps(regs: PullRegs, n: PinIndex, r: Pull): (steps: seq<PullRegs>)
    ensures |steps| == (if r == None then 2 else 3)
  {
    var s1 := regs.(puen := ClearBit(regs.puen, n));
    var s2 := s1.(pden := ClearBit(s1.pden, n));
    match r
    case Up => [s1, s2, s2.(puen := SetBit(s2.puen, n))]
    case Down => [s1, s2, s2.(pden := SetBit(s2.pden, n))]
    case None => [s1, s2]
  }

  /** The pull registers after `set_internal_resistor(r)` on pin `n`. */
  function ApplyPull(regs: PullRegs, n: PinIndex, r: Pull): PullRegs {
    var steps := PullSteps(regs, n, r);
    steps[|steps| - 1]
  }

  /** The steps of `PullSteps` written out for each choice. */
  lemma PullStepsByCase(regs: PullRegs, n: PinIndex, r: Pull)
    ensures var s2 := PullRegs(ClearBit(regs.puen, n), ClearBit(regs.pden, n));
      && PullSteps(regs, n, r)[..2] == [PullRegs(s2.puen, regs.pden), s2]
      && (r == Up ==> |PullSteps(regs, n, r)| == 3 && ApplyPull(regs, n, r) == PullRegs(SetBit(s2.puen, n), s2.pden))
      && (r == Down ==> |PullSteps(regs, n, r)| == 3 && ApplyPull(regs, n, r) == PullRegs(s2.puen, SetBit(s2.pden, n)))
      && (r == None ==> |PullSteps(regs, n, r)| == 2 && ApplyPull(regs, n, r) == s2)
  {
    var steps := PullSteps(regs, n, r);
    assert steps[..2] == [steps[0], steps[1]];
  }

  /** After `set_internal_resistor(r)` the pull-up bit is set exactly for `Up`, the
      pull-down bit exactly for `Down`, and every other bit of both registers is kept. */
  lemma ApplyPullBits(regs: PullRegs, n: PinIndex, r: Pull)
    ensures var after := ApplyPull(regs, n, r);
      && (BitSet(after.puen, n) <==> r == Up)
      && (BitSet(after.pden, n) <==> r == Down)
      && SameOtherBits(after.puen, regs.puen, n) && SameOtherBits(after.pden, regs.pden, n)
  {
    match r {
      case Up => PullUpBits(regs, n);
      case Down => PullDownBits(regs, n);
      case None => PullNoneBits(regs, n);
    }
  }

  lemma PullUpBits(regs: PullRegs, n: PinIndex)
    ensures var a := ApplyPull(regs, n, Up);
      && BitSet(a.puen, n) && !BitSet(a.pden, n)
      && SameOtherBits(a.puen, regs.puen, n) && SameOtherBits(a.pden, regs.pden, n)
  {
    var pu := ClearBit(regs.puen, n);
    var pu' := SetBit(pu, n);
    var pd := ClearBit(regs.pden, n);
  }

  lemma PullDownBits(regs: PullRegs, n: PinIndex)
    ensures var a := ApplyPull(regs, n, Down);
      && !BitSet(a.puen, n) && BitSet(a.pden, n)
      && SameOtherBits(a.puen, regs.puen, n) && SameOtherBits(a.pden, regs.pden, n)
  {
    var pu := ClearBit(regs.puen, n);
    var pd := ClearBit(regs.pden, n);
    var pd' := SetBit(pd, n);
  }

  lemma PullNoneBits(regs: PullRegs, n: PinIndex)
    ensures var a := ApplyPull(regs, n, None);
      && !BitSet(a.puen, n) && !BitSet(a.pden, n)
      && SameOtherBits(a.puen, regs.puen, n) && SameOtherBits(a.pden, regs.pden, n)
  {
    var pu := ClearBit(regs.puen, n);
    var pd := ClearBit(regs.pden, n);
  }

  /** No state of the sequence, from the first write on, has both pulls of the pin
      enabled, whatever the registers held before. */
  lemma PullNeverBoth(regs: PullRegs, n: PinIndex, r: Pull)
    ensures var steps := PullSteps(regs, n, r);
      forall k :: 0 <= k < |steps| ==> !(BitSet(steps[k].puen, n) && BitSet(steps[k].pden, n))
  {
    var steps := PullSteps(regs, n, r);
    forall k | 0 <= k < |steps|
      ensures !(BitSet(steps[k].puen, n) && BitSet(steps[k].pden, n))
    {
      PullStepSafe(regs, n, r, k);
    }
  }

  lemma PullStepSafe(regs: PullRegs, n: PinIndex, r: Pull, k: nat)
    requires k < |PullSteps(regs, n, r)|
    ensures var s := PullSteps(regs, n, r)[k]; !(BitSet(s.puen, n) && BitSet(s.pden, n))
  {
    if k == 0 {
      ClearedFirst(regs, n, r);
    } else if k == 1 {
      ClearedBoth(regs, n, r);
    } else if r == Up {
      PulledUp(regs, n);
    } else {
      PulledDown(regs, n);
    }
  }

  lemma ClearedFirst(regs: PullRegs, n: PinIndex, r: Pull)
    ensures !BitSet(PullSteps(regs, n, r)[0].puen, n)
  {
  }

  lemma ClearedBoth(regs: PullRegs, n: PinIndex, r: Pull)
    ensures !BitSet(PullSteps(regs, n, r)[1].puen, n) && !BitSet(PullSteps(regs, n, r)[1].pden, n)
  {
  }

  lemma PulledUp(regs: PullRegs, n: PinIndex)
    ensures !BitSet(PullSteps(regs, n, Up)[2].pden, n)
  {
  }

  lemma PulledDown(regs: PullRegs, n: PinIndex)
    ensures !BitSet(PullSteps(regs, n, Down)[2].puen, n)
  {
  }

  /** A pin's pull setting leaves every other pin's pulls as they were. */
  lemma PullOtherPinKept(regs: PullRegs, n: PinIndex, k: PinIndex, r: Pull)
    requires k != n
    ensures BitSet(ApplyPull(regs, n, r).puen, k) <==> BitSet(regs.puen, k)
    ensures BitSet(ApplyPull(regs, n, r).pden, k) <==> BitSet(regs.pden, k)
  {
    ApplyPullBits(regs, n, r);
    OtherPinKept(regs.puen, ApplyPull(regs, n, r).puen, n, k);
    OtherPinKept(regs.pden, ApplyPull(regs, n, r).pden, n, k);
  }

  // ---------------------------------------------------------------------------
  // The port registers

  class Port {
    const letter: PortLetter
    /** Pull-up enables (in the SCC block). */
    var puen: bv32
    /** Pull-down enables (in the SCC block). */
    var pden: bv32
    /** Output latch, changed through the set and clear registers. */
    var out: bv32
    /** Input register, driven by the pads. */
    var inp: bv32
    /** Pull register states after each write, oldest first. */
    ghost var pullHistory: seq<PullRegs>

    constructor (letter: PortLetter, puen: bv32, pden: bv32, out: bv32, inp: bv32)
      ensures this.letter == letter && this.puen == puen && this.pden == pden
      ensures this.out == out && this.inp == inp && pullHistory == []
    {
      this.letter, this.puen, this.pden, this.out, this.inp := letter, puen, pden, out, inp;
      pullHistory := [];
    }

    function Pulls(): PullRegs
      reads this
    {
      PullRegs(puen, pden)
    }

    /** `set_internal_resistor`, for pins in an active mode. */
    method SetInternalResistor(pin: Pin, r: Pull)
      requires pin.port == letter && Active(pin.mode)
      modifies this`puen, this`pden, this`pullHistory
      ensures Pulls() == ApplyPull(old(Pulls()), pin.index, r)
      ensures pullHistory == old(pullHistory) + PullSteps(old(Pulls()), pin.index, r)
    {
      var n := pin.index;
      ghost var h, regs := pullHistory, Pulls();
      PullStepsByCase(regs, n, r);
      puen := ClearBit(puen, n);
      ghost var s1 := Pulls();
      pden := ClearBit(pden, n);
      ghost var s2 := Pulls();
      pullHistory := h + [s1, s2];
      match r {
        case Up =>
          puen := SetBit(puen, n);
          pullHistory := h + [s1, s2, Pulls()];
        case Down =>
          pden := SetBit(pden, n);
          pullHistory := h + [s1, s2, Pulls()];
        case None =>
      }
    }

    /** `internal_resistor`: the same, returning the pin. */
    method InternalResistor(pin: Pin, r: Pull) returns (p: Pin)
      requires pin.port == letter && Active(pin.mode)
      modifies this`puen, this`pden, this`pullHistory
      ensures p == pin
      ensures Pulls() == ApplyPull(old(Pulls()), pin.index, r)
      ensures pullHistory == old(pullHistory) + PullSteps(old(Pulls()), pin.index, r)
    {
      SetInternalResistor(pin, r);
      p := pin;
    }

    /** `internal_pull_up(on)`: `Up` when on, `None` when off. */
    method InternalPullUp(pin: Pin, on: bool) returns (p: Pin)
      requires pin.port == letter && Active(pin.mode)
      modifies this`puen, this`pden, this`pullHistory
      ensures p == pin
      ensures Pulls() == ApplyPull(old(Pulls()), pin.index, if on then Up else None)
      ensures pullHistory == old(pullHistory) + PullSteps(old(Pulls()), pin.index, if on then Up else None)
    {
      if on {
        p := InternalResistor(pin, Up);
      } else {
        p := InternalResistor(pin, None);
      }
    }

    /** `internal_pull_down(on)`: `Down` when on, `None` when off. */
    method InternalPullDown(pin: Pin, on: bool) returns (p: Pin)
      requires pin.port == letter && Active(pin.mode)
      modifies this`puen, this`pden, this`pullHistory
      ensures p == pin
      ensures Pulls() == ApplyPull(old(Pulls()), pin.index, if on then Down else None)
      ensures pullHistory == old(pullHistory) + PullSteps(old(Pulls()), pin.index, if on then Down else None)
    {
      if on {
        p := InternalResistor(pin, Down);
      } else {
        p := InternalResistor(pin, None);
      }
    }

    /** `set_high`: writing the pin's bit to the set register sets it in the latch. */
    method SetHigh(pin: Pin)
      requires pin.port == letter && IsOutput(pin.mode)
      modifies this`out
      ensures out == SetBit(old(out), pin.index)
    {
      out := SetBit(out, pin.index);
    }

    /** `set_low`: writing the pin's bit to the clear register clears it in the latch. */
    method SetLow(pin: Pin)
      requires pin.port == letter && IsOutput(pin.mode)
      modifies this`out
      ensures out == ClearBit(old(out), pin.index)
    {
      out := ClearBit(out, pin.index);
    }

    method SetState(pin: Pin, state: PinState)
      requires pin.port == letter && IsOutput(pin.mode)
      modifies this`out
      ensures BitSet(out, pin.index) <==> state == High
      ensures SameOtherBits(out, old(out), pin.index)
    {
      match state {
        case Low => SetLow(pin);
        case High => SetHigh(pin);
      }
    }

    /** `is_set_low`: the pin's latch bit is clear. */
    function IsSetLow(pin: Pin): bool
      reads this
      requires pin.port == letter && IsOutput(pin.mode)
    {
      !BitSet(out, pin.index)
    }

    function IsSetHigh(pin: Pin): bool
      reads this
      requires pin.port == letter && IsOutput(pin.mode)
    {
      !IsSetLow(pin)
    }

    function GetState(pin: Pin): PinState
      reads this
      requires pin.port == letter && IsOutput(pin.mode)
    {
      if IsSetLow(pin) then Low else High
    }

    /** `toggle`: drives the pin to the opposite of its latched state. */
    method Toggle(pin: Pin)
      requires pin.port == letter && IsOutput(pin.mode)
      modifies this`out
      ensures out == Toggled(old(out), pin.index)
      ensures GetState(pin) != old(GetState(pin))
    {
      if IsSetLow(pin) {
        SetHigh(pin);
      } else {
        SetLow(pin);
      }
    }

    /** `is_low`, for readable modes: the pin's bit of the input register is clear. */
    function IsLow(pin: Pin): bool
      reads this
      requires pin.port == letter && Readable(pin.mode)
    {
      !BitSet(inp, pin.index)
    }

    function IsHigh(pin: Pin): bool
      reads this
      requires pin.port == letter && Readable(pin.mode)
    {
      !IsLow(pin)
    }
  }

  /** The latch read-back: `get_state` is `Low` exactly when the pin's latch bit is clear,
      `is_set_high` is its negation; the input read is `is_high == !is_low`, taken from
      the input register and not the latch. */
  lemma PinReadback(port: Port, pin: Pin)
    requires pin.port == port.letter
    ensures IsOutput(pin.mode) ==>
      (port.GetState(pin) == Low <==> !BitSet(port.out, pin.index))
      && port.IsSetHigh(pin) == BitSet(port.out, pin.index)
    ensures Readable(pin.mode) ==>
      port.IsHigh(pin) == !port.IsLow(pin) && port.IsHigh(pin) == BitSet(port.inp, pin.index)
  {
  }
}
