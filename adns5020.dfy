/**
 * The Avago ADNS-5020 optical mouse sensor driver: bit-banged two-wire
 * transfers (clock and bidirectional data, plus chip select and a reset
 * line), register reads and writes with the direction in bit 7, motion and
 * burst reads accumulating a position, a 225-pixel frame capture, and the
 * power / reset / resolution sequencing.
 */
module Adns5020 {
  import opened Bytes
  import opened Arduino

  // ---------------------------------------------------------------------
  // Registers and timings

  const REG_PRODUCT_ID: Byte := 0x00
  const REG_REVISION_ID: Byte := 0x01
  const REG_MOTION: Byte := 0x02
  const REG_DELTA_X: Byte := 0x03
  const REG_DELTA_Y: Byte := 0x04
  const REG_SQUAL: Byte := 0x05
  const REG_BURST_MODE: Byte := 0x63
  const REG_CONTROL: Byte := 0x0d
  const REG_PIXEL_GRAB: Byte := 0x0b
  const REG_CHIP_RESET: Byte := 0x3a

  /** Every register the driver addresses. */
  const REGISTERS: seq<Byte> := [REG_PRODUCT_ID, REG_REVISION_ID, REG_MOTION, REG_DELTA_X,
    REG_DELTA_Y, REG_SQUAL, REG_BURST_MODE, REG_CONTROL, REG_PIXEL_GRAB, REG_CHIP_RESET]

  const FRAME_LENGTH: nat := 225
  /** Half clock period and the pause around register transfers, in microseconds. */
  const DELAY: nat := 10

  const T_PD: nat := 50000
  const T_WAKEUP: nat := 55000
  const T_SRAD: nat := 4
  const T_BEXIT: nat := 1
  const T_NCS_SCLK: nat := 1
  const T_SCLK_NSC_R: nat := 1
  const T_NCS_SDIO: nat := 1

  /** The product ID an ADNS-5020 reports. */
  const PRODUCT_ID: Byte := 0x12
  /** Written to the chip-reset register to start a soft reset. */
  const RESET_MAGIC: Byte := 0x5a
  /** Control register: the sleep (power-down) bit. */
  const CONTROL_SLEEP: Byte := 0x02
  /** Wake-up time after a soft reset, in milliseconds. */
  const SOFT_RESET_WAIT: nat := 55

  /** The four lines the driver is wired to; all `uint8_t`. */
  datatype Wiring = Wiring(sclk: Pin, sdio: Pin, ncs: Pin, nreset: Pin)

  /** The lines are four different pins. */
  predicate Distinct(w: Wiring)
  {
    w.sclk != w.sdio && w.sclk != w.ncs && w.sclk != w.nreset
    && w.sdio != w.ncs && w.sdio != w.nreset && w.ncs != w.nreset
  }

  // ---------------------------------------------------------------------
  // Register addressing

  /** The address byte of a register read: direction bit 7 clear. */
  function ReadAddress(a: Byte): (r: Byte)
    ensures r < 0x80
    ensures r & 0x80 == 0
    ensures a < 0x80 ==> r == a
  {
    a & 0x7F
  }

  /** The address byte of a register write: direction bit 7 set. */
  function WriteAddress(a: Byte): (r: Byte)
    ensures r >= 0x80
    ensures r & 0x80 == 0x80
    ensures a < 0x80 ==> r as int == a as int + 0x80
  {
    a | 0x80
  }

  /**
   * The registers are ten different addresses below 0x80, so marking the
   * direction in bit 7 never makes two of them, or a read and a write,
   * look alike on the wire.
   */
  lemma RegistersDistinct()
    ensures forall i, j :: 0 <= i < j < |REGISTERS| ==> REGISTERS[i] != REGISTERS[j]
    ensures forall i :: 0 <= i < |REGISTERS| ==> REGISTERS[i] < 0x80
    ensures forall i, j :: 0 <= i < |REGISTERS| && 0 <= j < |REGISTERS| ==>
      ReadAddress(REGISTERS[i]) != WriteAddress(REGISTERS[j])
    ensures forall i, j :: 0 <= i < |REGISTERS| && 0 <= j < |REGISTERS| ==>
      (ReadAddress(REGISTERS[i]) == ReadAddress(REGISTERS[j]) <==> i == j)
    ensures forall i, j :: 0 <= i < |REGISTERS| && 0 <= j < |REGISTERS| ==>
      (WriteAddress(REGISTERS[i]) == WriteAddress(REGISTERS[j]) <==> i == j)
  {
  }

  /** The control-register value selecting a resolution: bit 0 set for 1000 cpi, otherwise 500 cpi. */
  function ControlByte(cpi: int): (r: Byte)
    ensures (r & 0x01 != 0) <==> cpi == 1000
    ensures r & 0xFE == 0
  {
    if cpi == 1000 then 0x01 else 0x00
  }

  /** A pixel as stored in the frame: the data bits of the pixel-grab register, bit 7 cleared. */
  function PixelValue(raw: Byte): (r: Byte)
    ensures r <= 0x7F
    ensures r & 0x7F == raw & 0x7F
  {
    raw & 0x7F
  }

  // ---------------------------------------------------------------------
  // Bytes as `pullbyte` assembles them

  /**
   * The byte `pullbyte` returns for the samples `bits`: for every sample it
   * adds the sampled level and then shifts left, in eight-bit arithmetic.
   */
  function PullValue(bits: seq<bool>): Byte
  {
    if bits == [] then 0
    else (PullValue(bits[..|bits| - 1]) + BitValue(bits[|bits| - 1])) << 1
  }

  /** Adding a bit below a left-shifted byte is the same as or-ing it in. */
  lemma AddBelowShift(x: Byte, high: bool)
    ensures (x << 1) + BitValue(high) == (x << 1) | BitValue(high)
  {
  }

  /**
   * Because the shift comes after the add, `pullbyte` computes the
   * most-significant-first byte of its samples shifted once more: the first
   * sample leaves the byte and bit 0 is always clear.
   */
  lemma {:induction false} PullValueIsShifted(bits: seq<bool>)
    ensures PullValue(bits) == MsbByte(bits) << 1
  {
    if bits != [] {
      var m := |bits| - 1;
      PullValueIsShifted(bits[..m]);
      AddBelowShift(MsbByte(bits[..m]), bits[m]);
    }
  }

  /** Bit 0 of a pulled byte is always 0. */
  lemma PullValueEven(bits: seq<bool>)
    ensures PullValue(bits) & 1 == 0
  {
    PullValueIsShifted(bits);
  }

  /** The first of eight samples does not survive: pulls that differ only there give the same byte. */
  lemma PullValueIgnoresFirst(bits: seq<bool>, other: seq<bool>)
    requires |bits| == 8 && |other| == 8
    requires bits[1..] == other[1..]
    ensures PullValue(bits) == PullValue(other)
  {
    PullValueIsShifted(bits);
    PullValueIsShifted(other);
    MsbByteShiftDropsFirst(bits);
    MsbByteShiftDropsFirst(other);
  }

  /**
   * Looping a pushed byte straight back through `pullbyte` gives the byte
   * shifted left by one, not the byte: push and pull do not round-trip.
   */
  lemma PullOfPush(d: Byte)
    ensures PullValue(MsbBits(d)) == d << 1
  {
    PullValueIsShifted(MsbBits(d));
    MsbRoundTrip(d);
  }

  /** A byte that does not come back: 0x80 loops back as 0. */
  lemma PullOfPushLosesTopBit()
    ensures PullValue(MsbBits(0x80)) == 0
  {
    PullOfPush(0x80);
  }

  /** The byte that read number k of a run of register reads returns. */
  function ByteAt(s: seq<bool>, k: nat): Byte
  {
    PullValue(Octet(s, k))
  }

  // ---------------------------------------------------------------------
  // What the driver does on the lines

  /** One clock cycle of `pushbyte`: clock low, data set, half period, clock high. */
  function PushCycle(w: Wiring): bool -> seq<Event>
  {
    high => [Drive(w.sclk, false), Drive(w.sdio, high), DelayUs(DELAY), Drive(w.sclk, true)]
  }

  /** One clock cycle of `pullbyte`: clock low, data sampled, half period, clock high. */
  function PullCycle(w: Wiring): bool -> seq<Event>
  {
    high => [Drive(w.sclk, false), Sample(w.sdio, high), DelayUs(DELAY), Drive(w.sclk, true)]
  }

  function PushTrace(w: Wiring, d: Byte): seq<Event>
  {
    [SetMode(w.sdio, Output), DelayUs(DELAY)] + PerBit(MsbBits(d), PushCycle(w))
  }

  function PullTrace(w: Wiring, bits: seq<bool>): seq<Event>
  {
    [SetMode(w.sdio, Input), DelayUs(DELAY)] + PerBit(bits, PullCycle(w))
  }

  function ReadRegisterTrace(w: Wiring, a: Byte, bits: seq<bool>): seq<Event>
  {
    PushTrace(w, ReadAddress(a)) + PullTrace(w, bits)
  }

  function WriteRegisterTrace(w: Wiring, a: Byte, v: Byte): seq<Event>
  {
    PushTrace(w, WriteAddress(a)) + [DelayUs(DELAY)] + PushTrace(w, v) + [DelayUs(DELAY)]
  }

  /** Chip select asserted (NCS low). */
  function SelectTrace(w: Wiring): seq<Event>
  {
    [Drive(w.ncs, false), DelayUs(T_NCS_SCLK)]
  }

  /** Chip select released (NCS high). */
  function DeselectTrace(w: Wiring): seq<Event>
  {
    [Drive(w.ncs, true), DelayUs(T_SCLK_NSC_R), DelayUs(T_NCS_SDIO)]
  }

  function HardResetTrace(w: Wiring): seq<Event>
  {
    [Drive(w.nreset, false), DelayUs(T_PD), Drive(w.nreset, true), DelayUs(T_WAKEUP)]
  }

  function SoftResetTrace(w: Wiring): seq<Event>
  {
    WriteRegisterTrace(w, REG_CHIP_RESET, RESET_MAGIC) + [DelayMs(SOFT_RESET_WAIT)]
  }

  /**
   * `enable` on a device whose power flag is `powered` and whose stored
   * resolution is `cpi`: select the chip and, when unpowered, power up,
   * which is a full reset.
   */
  function EnableTrace(w: Wiring, powered: bool, cpi: int): seq<Event>
    decreases if powered then 0 else 1, 1
  {
    if powered then SelectTrace(w) else SelectTrace(w) + ResetTrace(w, true, cpi)
  }

  /** `reset`: enable, hard reset, re-apply the stored resolution, disable. */
  function ResetTrace(w: Wiring, powered: bool, cpi: int): seq<Event>
    decreases if powered then 0 else 1, 3
  {
    EnableTrace(w, powered, cpi) + HardResetTrace(w)
    + ResolutionTrace(w, true, cpi, cpi) + DeselectTrace(w)
  }

  /** `resolution(cpi)` on a device with power flag `powered` and stored resolution `stored`. */
  function ResolutionTrace(w: Wiring, powered: bool, stored: int, cpi: int): seq<Event>
    decreases if powered then 0 else 1, 2
  {
    EnableTrace(w, powered, stored) + WriteRegisterTrace(w, REG_CONTROL, ControlByte(cpi))
    + DeselectTrace(w)
  }

  /** What `powerDown` does on a device with power flag `powered`. */
  function PowerDownTrace(w: Wiring, powered: bool, cpi: int): seq<Event>
  {
    if powered then EnableTrace(w, true, cpi) + WriteRegisterTrace(w, REG_CONTROL, CONTROL_SLEEP) + DeselectTrace(w)
    else []
  }

  /**
   * What the constructor does on the lines: pin directions, reset line
   * high, deselect, then `resolution` with the configured value.
   */
  function SetupTrace(w: Wiring, powered: bool, cpi: int): seq<Event>
  {
    [SetMode(w.sclk, Output), SetMode(w.sdio, Input), SetMode(w.ncs, Output), SetMode(w.nreset, Output),
     Drive(w.nreset, true)]
    + DeselectTrace(w) + ResolutionTrace(w, powered, cpi, cpi)
  }

  /** `readDelta` on stream `s`: motion, delta X, delta Y and quality registers, in that order, inside one enable. */
  function ReadDeltaTrace(w: Wiring, powered: bool, cpi: int, s: seq<bool>): seq<Event>
  {
    EnableTrace(w, powered, cpi)
    + ReadRegisterTrace(w, REG_MOTION, Octet(s, 0)) + ReadRegisterTrace(w, REG_DELTA_X, Octet(s, 1))
    + ReadRegisterTrace(w, REG_DELTA_Y, Octet(s, 2)) + ReadRegisterTrace(w, REG_SQUAL, Octet(s, 3))
    + DeselectTrace(w)
  }

  /**
   * `readBurst` on stream `s`: the motion register, then, only when it is
   * non-zero, the burst address and seven pulled bytes.
   */
  function ReadBurstTrace(w: Wiring, powered: bool, cpi: int, s: seq<bool>): seq<Event>
  {
    EnableTrace(w, powered, cpi) + ReadRegisterTrace(w, REG_MOTION, Octet(s, 0))
    + (if ByteAt(s, 0) != 0 then BurstTrace(w, s) else [])
    + DeselectTrace(w) + [DelayUs(T_BEXIT)]
  }

  /** The burst proper: its address, the address-to-data pause, and seven pulled bytes. */
  function BurstTrace(w: Wiring, s: seq<bool>): seq<Event>
  {
    PushTrace(w, REG_BURST_MODE) + [DelayUs(T_SRAD)]
    + (PullTrace(w, Octet(s, 1)) + PullTrace(w, Octet(s, 2)) + PullTrace(w, Octet(s, 3))
       + PullTrace(w, Octet(s, 4)) + PullTrace(w, Octet(s, 5)) + PullTrace(w, Octet(s, 6))
       + PullTrace(w, Octet(s, 7)))
  }

  /** n successive reads of register `a`, read k returning the k-th eight levels of `s`; a frame capture reads the pixel-grab register. */
  function ReadsTrace(w: Wiring, a: Byte, s: seq<bool>, n: nat): seq<Event>
  {
    if n == 0 then [] else ReadsTrace(w, a, s, n - 1) + ReadRegisterTrace(w, a, Octet(s, n - 1))
  }

  /** `identify`: product and revision registers inside one enable. */
  function IdentifyTrace(w: Wiring, powered: bool, cpi: int, s: seq<bool>): seq<Event>
  {
    EnableTrace(w, powered, cpi)
    + ReadRegisterTrace(w, REG_PRODUCT_ID, Octet(s, 0)) + ReadRegisterTrace(w, REG_REVISION_ID, Octet(s, 1))
    + DeselectTrace(w)
  }

  // ---------------------------------------------------------------------
  // Properties of the transfers

  /**
   * `pushbyte(d)` clocks out eight bits, most significant first: in cycle k
   * the clock goes low, the data line is set to bit `7 - k` of `d`,
   * `(d >> (7 - k)) & 1`, and after a half period the clock goes high.
   */
  lemma PushTraceAt(w: Wiring, d: Byte, k: nat)
    requires k < 8
    ensures |PushTrace(w, d)| == 34
    ensures PushTrace(w, d)[2 + 4 * k .. 6 + 4 * k] ==
      [Drive(w.sclk, false), Drive(w.sdio, Shr(d, 7 - k) & 1 == 1), DelayUs(DELAY), Drive(w.sclk, true)]
  {
    var p := PerBit(MsbBits(d), PushCycle(w));
    assert forall b :: |PushCycle(w)(b)| == 4;
    PerBitAt(MsbBits(d), PushCycle(w), 4, k);
    MsbBitsAt(d, k);
    SliceAfter([SetMode(w.sdio, Output), DelayUs(DELAY)], p, 4 * k, 4 * k + 4);
  }

  /** A push cycle drives the data line once, to the bit's level. */
  lemma PushCycleDrivesData(w: Wiring, high: bool)
    requires w.sclk != w.sdio
    ensures Driven(PushCycle(w)(high), w.sdio) == [high]
  {
    DrivenOf4(Drive(w.sclk, false), Drive(w.sdio, high), DelayUs(DELAY), Drive(w.sclk, true), w.sdio);
  }

  /** A push cycle drives no line but clock and data. */
  lemma PushCycleLeavesPin(w: Wiring, high: bool, pin: Pin)
    requires pin != w.sclk && pin != w.sdio
    ensures Driven(PushCycle(w)(high), pin) == []
  {
    DrivenOf4(Drive(w.sclk, false), Drive(w.sdio, high), DelayUs(DELAY), Drive(w.sclk, true), pin);
  }

  /** A pull cycle drives no line but the clock. */
  lemma PullCycleLeavesPin(w: Wiring, high: bool, pin: Pin)
    requires pin != w.sclk
    ensures Driven(PullCycle(w)(high), pin) == []
  {
    DrivenOf4(Drive(w.sclk, false), Sample(w.sdio, high), DelayUs(DELAY), Drive(w.sclk, true), pin);
  }

  /** With clock and data on different pins, `pushbyte(d)` drives the data line to exactly the eight bits of `d`, most significant first. */
  lemma PushDrivesBits(w: Wiring, d: Byte)
    requires w.sclk != w.sdio
    ensures Driven(PushTrace(w, d), w.sdio) == MsbBits(d)
  {
    PushCycleDrivesData(w, false);
    PushCycleDrivesData(w, true);
    DrivenPerBit(MsbBits(d), PushCycle(w), w.sdio);
    DrivenOf2(SetMode(w.sdio, Output), DelayUs(DELAY), w.sdio);
    DrivenAppend([SetMode(w.sdio, Output), DelayUs(DELAY)], PerBit(MsbBits(d), PushCycle(w)), w.sdio);
  }

  /** `pullbyte` samples the data line once per cycle: the levels it samples are exactly `bits`. */
  lemma PullTraceAt(w: Wiring, bits: seq<bool>, k: nat)
    requires k < |bits|
    ensures |PullTrace(w, bits)| == 2 + 4 * |bits|
    ensures PullTrace(w, bits)[2 + 4 * k .. 6 + 4 * k] ==
      [Drive(w.sclk, false), Sample(w.sdio, bits[k]), DelayUs(DELAY), Drive(w.sclk, true)]
  {
    var p := PerBit(bits, PullCycle(w));
    assert forall b :: |PullCycle(w)(b)| == 4;
    PerBitAt(bits, PullCycle(w), 4, k);
    SliceAfter([SetMode(w.sdio, Input), DelayUs(DELAY)], p, 4 * k, 4 * k + 4);
  }

  /** A pin other than clock and data is never driven by `pushbyte`. */
  lemma PushLeavesPin(w: Wiring, d: Byte, pin: Pin)
    requires pin != w.sclk && pin != w.sdio
    ensures Driven(PushTrace(w, d), pin) == []
  {
    CyclesLeavePin(w, MsbBits(d), pin);
  }

  lemma CyclesLeavePin(w: Wiring, bits: seq<bool>, pin: Pin)
    requires pin != w.sclk && pin != w.sdio
    ensures Driven([SetMode(w.sdio, Output), DelayUs(DELAY)] + PerBit(bits, PushCycle(w)), pin) == []
  {
    PushCycleLeavesPin(w, false, pin);
    PushCycleLeavesPin(w, true, pin);
    UndrivenPerBit(bits, PushCycle(w), pin);
    DrivenOf2(SetMode(w.sdio, Output), DelayUs(DELAY), pin);
    DrivenAppend([SetMode(w.sdio, Output), DelayUs(DELAY)], PerBit(bits, PushCycle(w)), pin);
  }

  /** No pin but the clock is driven by `pullbyte`. */
  lemma PullLeavesPin(w: Wiring, bits: seq<bool>, pin: Pin)
    requires pin != w.sclk
    ensures Driven(PullTrace(w, bits), pin) == []
  {
    PullCycleLeavesPin(w, false, pin);
    PullCycleLeavesPin(w, true, pin);
    UndrivenPerBit(bits, PullCycle(w), pin);
    DrivenOf2(SetMode(w.sdio, Input), DelayUs(DELAY), pin);
    DrivenAppend([SetMode(w.sdio, Input), DelayUs(DELAY)], PerBit(bits, PullCycle(w)), pin);
  }

  /** A register write does not touch the reset line. */
  lemma WriteRegisterLeavesReset(w: Wiring, a: Byte, v: Byte)
    requires Distinct(w)
    ensures Driven(WriteRegisterTrace(w, a, v), w.nreset) == []
  {
    PushLeavesPin(w, WriteAddress(a), w.nreset);
    PushLeavesPin(w, v, w.nreset);
    var p1, p2 := PushTrace(w, WriteAddress(a)), PushTrace(w, v);
    DrivenSnoc(p1, DelayUs(DELAY), w.nreset);
    DrivenAppend(p1 + [DelayUs(DELAY)], p2, w.nreset);
    DrivenSnoc(p1 + [DelayUs(DELAY)] + p2, DelayUs(DELAY), w.nreset);
  }

  /**
   * `enable` pulses the reset line (low, then high) exactly when the device
   * is unpowered; on a powered device it only selects the chip.
   */
  lemma EnableResetsOnlyWhenUnpowered(w: Wiring, powered: bool, cpi: int)
    requires Distinct(w)
    ensures Driven(EnableTrace(w, powered, cpi), w.nreset) == if powered then [] else [false, true]
  {
    var sel := SelectTrace(w);
    SelectLeavesReset(w);
    if !powered {
      PoweredResetPulses(w, cpi);
      DrivenAppend(sel, ResetTrace(w, true, cpi), w.nreset);
    }
  }

  /** A reset of a powered device drives the reset line low and then high, and nothing else on it. */
  lemma PoweredResetPulses(w: Wiring, cpi: int)
    requires Distinct(w)
    ensures Driven(ResetTrace(w, true, cpi), w.nreset) == [false, true]
  {
    var en, hr, res, de := EnableTrace(w, true, cpi), HardResetTrace(w), ResolutionTrace(w, true, cpi, cpi), DeselectTrace(w);
    var pulse := [false, true];
    SelectLeavesReset(w);
    HardResetPulses(w);
    DrivenAppend(en, hr, w.nreset);
    assert [] + pulse == pulse;
    ResolutionLeavesReset(w, cpi, cpi);
    DrivenAppend(en + hr, res, w.nreset);
    assert pulse + [] == pulse;
    DeselectLeavesReset(w);
    DrivenAppend(en + hr + res, de, w.nreset);
  }

  /** The hard-reset pulse: the reset line low, then high. */
  lemma HardResetPulses(w: Wiring)
    ensures Driven(HardResetTrace(w), w.nreset) == [false, true]
  {
    DrivenOf4(Drive(w.nreset, false), DelayUs(T_PD), Drive(w.nreset, true), DelayUs(T_WAKEUP), w.nreset);
  }

  /** Selecting the chip leaves the reset line alone. */
  lemma SelectLeavesReset(w: Wiring)
    requires Distinct(w)
    ensures Driven(SelectTrace(w), w.nreset) == []
  {
    DrivenOf2(Drive(w.ncs, false), DelayUs(T_NCS_SCLK), w.nreset);
  }

  /** Deselecting the chip leaves the reset line alone. */
  lemma DeselectLeavesReset(w: Wiring)
    requires Distinct(w)
    ensures Driven(DeselectTrace(w), w.nreset) == []
  {
    DrivenOf3(Drive(w.ncs, true), DelayUs(T_SCLK_NSC_R), DelayUs(T_NCS_SDIO), w.nreset);
  }

  /** Setting the resolution of a powered device leaves the reset line alone. */
  lemma ResolutionLeavesReset(w: Wiring, stored: int, cpi: int)
    requires Distinct(w)
    ensures Driven(ResolutionTrace(w, true, stored, cpi), w.nreset) == []
  {
    var en, wr, de := EnableTrace(w, true, stored), WriteRegisterTrace(w, REG_CONTROL, ControlByte(cpi)), DeselectTrace(w);
    SelectLeavesReset(w);
    WriteRegisterLeavesReset(w, REG_CONTROL, ControlByte(cpi));
    DeselectLeavesReset(w);
    DrivenAppend(en, wr, w.nreset);
    DrivenAppend(en + wr, de, w.nreset);
  }

  /**
   * The constructor pulses nothing on the reset line: it only raises it.
   * The driver starts powered, so its `resolution` call does not power up.
   */
  lemma SetupLeavesResetHigh(w: Wiring, cpi: int)
    requires Distinct(w)
    ensures Driven(SetupTrace(w, true, cpi), w.nreset) == [true]
  {
    var modes := [SetMode(w.sclk, Output), SetMode(w.sdio, Input), SetMode(w.ncs, Output), SetMode(w.nreset, Output)];
    var pins := [SetMode(w.sclk, Output), SetMode(w.sdio, Input), SetMode(w.ncs, Output), SetMode(w.nreset, Output),
                 Drive(w.nreset, true)];
    assert pins == modes + [Drive(w.nreset, true)];
    DrivenOf4(SetMode(w.sclk, Output), SetMode(w.sdio, Input), SetMode(w.ncs, Output), SetMode(w.nreset, Output), w.nreset);
    DrivenSnoc(modes, Drive(w.nreset, true), w.nreset);
    DeselectLeavesReset(w);
    ResolutionLeavesReset(w, cpi, cpi);
    DrivenJoin(pins, DeselectTrace(w), w.nreset, [true], []);
    DrivenJoin(pins + DeselectTrace(w), ResolutionTrace(w, true, cpi, cpi), w.nreset, [true], []);
  }

  /** Chip select ends low after a select and high after a deselect. */
  lemma SelectLevels(w: Wiring)
    ensures LastDriven(SelectTrace(w), w.ncs) == Some(false)
    ensures LastDriven(DeselectTrace(w), w.ncs) == Some(true)
  {
    var raise := [Drive(w.ncs, true)];
    assert SelectTrace(w)[..1] == [Drive(w.ncs, false)];
    assert LastDriven(raise, w.ncs) == Some(true);
    assert LastDriven(raise + [DelayUs(T_SCLK_NSC_R)], w.ncs) == Some(true) by {
      assert (raise + [DelayUs(T_SCLK_NSC_R)])[..1] == raise;
    }
    assert DeselectTrace(w)[..2] == raise + [DelayUs(T_SCLK_NSC_R)];
  }

  /**
   * `enable` leaves the chip selected only on a powered device. On an
   * unpowered one the power-up reset ends with `disable`, so chip select is
   * left high and the register reads that follow run deselected.
   */
  lemma EnableSelectsOnlyWhenPowered(w: Wiring, powered: bool, cpi: int)
    ensures LastDriven(EnableTrace(w, powered, cpi), w.ncs) == Some(!powered)
  {
    SelectLevels(w);
    if !powered {
      var body := EnableTrace(w, true, cpi) + HardResetTrace(w) + ResolutionTrace(w, true, cpi, cpi);
      LastDrivenAppend(body, DeselectTrace(w), w.ncs);
      LastDrivenAppend(SelectTrace(w), ResetTrace(w, true, cpi), w.ncs);
    }
  }

  // ---------------------------------------------------------------------
  // What the driver sends on the data line

  /** The bits a write of `v` to register `a` sends: the write address, then the value, each most significant bit first. */
  function WriteBits(a: Byte, v: Byte): seq<bool>
  {
    MsbBits(WriteAddress(a)) + MsbBits(v)
  }

  /**
   * What `enable` sends on the data line: nothing on a powered device; on
   * an unpowered one the power-up reset re-applies the stored resolution,
   * writing its control byte.
   */
  function EnableBits(powered: bool, cpi: int): seq<bool>
  {
    if powered then [] else WriteBits(REG_CONTROL, ControlByte(cpi))
  }

  /** `n` copies of `bits`, one after the other. */
  function Repeated(bits: seq<bool>, n: nat): seq<bool>
  {
    if n == 0 then [] else Repeated(bits, n - 1) + bits
  }

  /** Chip select and the reset pulse leave the data line alone. */
  lemma ControlLinesLeaveData(w: Wiring)
    requires Distinct(w)
    ensures Driven(SelectTrace(w), w.sdio) == []
    ensures Driven(DeselectTrace(w), w.sdio) == []
    ensures Driven(HardResetTrace(w), w.sdio) == []
  {
    DrivenOf2(Drive(w.ncs, false), DelayUs(T_NCS_SCLK), w.sdio);
    DrivenOf3(Drive(w.ncs, true), DelayUs(T_SCLK_NSC_R), DelayUs(T_NCS_SDIO), w.sdio);
    DrivenOf4(Drive(w.nreset, false), DelayUs(T_PD), Drive(w.nreset, true), DelayUs(T_WAKEUP), w.sdio);
  }

  /** On the data line a register read sends its read address, which for a register below 0x80 is the register itself, and nothing else. */
  lemma ReadRegisterSends(w: Wiring, a: Byte, bits: seq<bool>)
    requires Distinct(w)
    ensures Driven(ReadRegisterTrace(w, a, bits), w.sdio) == MsbBits(ReadAddress(a))
    ensures a < 0x80 ==> Driven(ReadRegisterTrace(w, a, bits), w.sdio) == MsbBits(a)
  {
    var x := MsbBits(ReadAddress(a));
    PushDrivesBits(w, ReadAddress(a));
    PullLeavesPin(w, bits, w.sdio);
    DrivenAppend(PushTrace(w, ReadAddress(a)), PullTrace(w, bits), w.sdio);
    assert x + [] == x;
  }

  /** On the data line a register write sends the write address, then the value. */
  lemma WriteRegisterSends(w: Wiring, a: Byte, v: Byte)
    requires Distinct(w)
    ensures Driven(WriteRegisterTrace(w, a, v), w.sdio) == WriteBits(a, v)
  {
    var p1, p2 := PushTrace(w, WriteAddress(a)), PushTrace(w, v);
    var x, y := MsbBits(WriteAddress(a)), MsbBits(v);
    PushDrivesBits(w, WriteAddress(a));
    PushDrivesBits(w, v);
    DrivenSnoc(p1, DelayUs(DELAY), w.sdio);
    assert x + [] == x;
    DrivenAppend(p1 + [DelayUs(DELAY)], p2, w.sdio);
    DrivenSnoc(p1 + [DelayUs(DELAY)] + p2, DelayUs(DELAY), w.sdio);
    assert x + y + [] == x + y;
  }

  /** Setting the resolution of a powered device sends one control write, for the new resolution. */
  lemma PoweredResolutionSends(w: Wiring, stored: int, cpi: int)
    requires Distinct(w)
    ensures Driven(ResolutionTrace(w, true, stored, cpi), w.sdio) == WriteBits(REG_CONTROL, ControlByte(cpi))
  {
    var en, wr, de := EnableTrace(w, true, stored), WriteRegisterTrace(w, REG_CONTROL, ControlByte(cpi)), DeselectTrace(w);
    var x := WriteBits(REG_CONTROL, ControlByte(cpi));
    ControlLinesLeaveData(w);
    WriteRegisterSends(w, REG_CONTROL, ControlByte(cpi));
    DrivenAppend(en, wr, w.sdio);
    assert [] + x == x;
    DrivenAppend(en + wr, de, w.sdio);
    assert x + [] == x;
  }

  /** A reset of a powered device re-applies the stored resolution: its only data is that control write. */
  lemma PoweredResetSends(w: Wiring, cpi: int)
    requires Distinct(w)
    ensures Driven(ResetTrace(w, true, cpi), w.sdio) == WriteBits(REG_CONTROL, ControlByte(cpi))
  {
    var en, hr, res, de := EnableTrace(w, true, cpi), HardResetTrace(w), ResolutionTrace(w, true, cpi, cpi), DeselectTrace(w);
    var x := WriteBits(REG_CONTROL, ControlByte(cpi));
    ControlLinesLeaveData(w);
    DrivenAppend(en, hr, w.sdio);
    PoweredResolutionSends(w, cpi, cpi);
    DrivenAppend(en + hr, res, w.sdio);
    assert [] + x == x;
    DrivenAppend(en + hr + res, de, w.sdio);
    assert x + [] == x;
  }

  /** `enable` sends `EnableBits`. */
  lemma EnableSends(w: Wiring, powered: bool, cpi: int)
    requires Distinct(w)
    ensures Driven(EnableTrace(w, powered, cpi), w.sdio) == EnableBits(powered, cpi)
  {
    ControlLinesLeaveData(w);
    if !powered {
      PoweredResetSends(w, cpi);
      DrivenAppend(SelectTrace(w), ResetTrace(w, true, cpi), w.sdio);
      assert [] + WriteBits(REG_CONTROL, ControlByte(cpi)) == WriteBits(REG_CONTROL, ControlByte(cpi));
    }
  }

  /** `resolution(c)` sends what `enable` sends, then the control write for `c`. */
  lemma ResolutionSends(w: Wiring, powered: bool, stored: int, cpi: int)
    requires Distinct(w)
    ensures Driven(ResolutionTrace(w, powered, stored, cpi), w.sdio)
         == EnableBits(powered, stored) + WriteBits(REG_CONTROL, ControlByte(cpi))
  {
    var en, wr, de := EnableTrace(w, powered, stored), WriteRegisterTrace(w, REG_CONTROL, ControlByte(cpi)), DeselectTrace(w);
    var x := EnableBits(powered, stored) + WriteBits(REG_CONTROL, ControlByte(cpi));
    ControlLinesLeaveData(w);
    EnableSends(w, powered, stored);
    WriteRegisterSends(w, REG_CONTROL, ControlByte(cpi));
    DrivenAppend(en, wr, w.sdio);
    DrivenAppend(en + wr, de, w.sdio);
    assert x + [] == x;
  }

  /** `powerDown` writes the sleep bit to the control register when powered, and sends nothing otherwise. */
  lemma PowerDownSends(w: Wiring, powered: bool, cpi: int)
    requires Distinct(w)
    ensures Driven(PowerDownTrace(w, powered, cpi), w.sdio) == if powered then WriteBits(REG_CONTROL, CONTROL_SLEEP) else []
  {
    if powered {
      var en, wr, de := EnableTrace(w, true, cpi), WriteRegisterTrace(w, REG_CONTROL, CONTROL_SLEEP), DeselectTrace(w);
      var x := WriteBits(REG_CONTROL, CONTROL_SLEEP);
      ControlLinesLeaveData(w);
      WriteRegisterSends(w, REG_CONTROL, CONTROL_SLEEP);
      DrivenAppend(en, wr, w.sdio);
      assert [] + x == x;
      DrivenAppend(en + wr, de, w.sdio);
      assert x + [] == x;
    }
  }

  /** `readDelta` addresses the motion, delta X, delta Y and quality registers, in that order, after what `enable` sends. */
  lemma ReadDeltaSends(w: Wiring, powered: bool, cpi: int, s: seq<bool>)
    requires Distinct(w)
    ensures Driven(ReadDeltaTrace(w, powered, cpi, s), w.sdio)
         == EnableBits(powered, cpi) + MsbBits(REG_MOTION) + MsbBits(REG_DELTA_X) + MsbBits(REG_DELTA_Y) + MsbBits(REG_SQUAL)
  {
    var en := EnableTrace(w, powered, cpi);
    var r0, r1 := ReadRegisterTrace(w, REG_MOTION, Octet(s, 0)), ReadRegisterTrace(w, REG_DELTA_X, Octet(s, 1));
    var r2, r3 := ReadRegisterTrace(w, REG_DELTA_Y, Octet(s, 2)), ReadRegisterTrace(w, REG_SQUAL, Octet(s, 3));
    var x := EnableBits(powered, cpi) + MsbBits(REG_MOTION) + MsbBits(REG_DELTA_X) + MsbBits(REG_DELTA_Y) + MsbBits(REG_SQUAL);
    ControlLinesLeaveData(w);
    EnableSends(w, powered, cpi);
    ReadRegisterSends(w, REG_MOTION, Octet(s, 0));
    ReadRegisterSends(w, REG_DELTA_X, Octet(s, 1));
    ReadRegisterSends(w, REG_DELTA_Y, Octet(s, 2));
    ReadRegisterSends(w, REG_SQUAL, Octet(s, 3));
    DrivenAppend(en, r0, w.sdio);
    DrivenAppend(en + r0, r1, w.sdio);
    DrivenAppend(en + r0 + r1, r2, w.sdio);
    DrivenAppend(en + r0 + r1 + r2, r3, w.sdio);
    DrivenAppend(en + r0 + r1 + r2 + r3, DeselectTrace(w), w.sdio);
    assert x + [] == x;
  }

  /** The burst proper sends the burst address and nothing else: the seven bytes are only pulled. */
  lemma BurstSends(w: Wiring, s: seq<bool>)
    requires Distinct(w)
    ensures Driven(BurstTrace(w, s), w.sdio) == MsbBits(REG_BURST_MODE)
  {
    var pulls := PullTrace(w, Octet(s, 1)) + PullTrace(w, Octet(s, 2)) + PullTrace(w, Octet(s, 3))
       + PullTrace(w, Octet(s, 4)) + PullTrace(w, Octet(s, 5)) + PullTrace(w, Octet(s, 6))
       + PullTrace(w, Octet(s, 7));
    var x := MsbBits(REG_BURST_MODE);
    BurstPullsLeaveData(w, s);
    PushDrivesBits(w, REG_BURST_MODE);
    DrivenSnoc(PushTrace(w, REG_BURST_MODE), DelayUs(T_SRAD), w.sdio);
    DrivenAppend(PushTrace(w, REG_BURST_MODE) + [DelayUs(T_SRAD)], pulls, w.sdio);
    assert x + [] + [] == x;
  }

  /** The seven pulled bytes of a burst leave the data line alone. */
  lemma BurstPullsLeaveData(w: Wiring, s: seq<bool>)
    requires Distinct(w)
    ensures Driven(PullTrace(w, Octet(s, 1)) + PullTrace(w, Octet(s, 2)) + PullTrace(w, Octet(s, 3))
       + PullTrace(w, Octet(s, 4)) + PullTrace(w, Octet(s, 5)) + PullTrace(w, Octet(s, 6))
       + PullTrace(w, Octet(s, 7)), w.sdio) == []
  {
    var p1, p2, p3, p4 := PullTrace(w, Octet(s, 1)), PullTrace(w, Octet(s, 2)), PullTrace(w, Octet(s, 3)), PullTrace(w, Octet(s, 4));
    var p5, p6, p7 := PullTrace(w, Octet(s, 5)), PullTrace(w, Octet(s, 6)), PullTrace(w, Octet(s, 7));
    PullLeavesPin(w, Octet(s, 1), w.sdio);
    PullLeavesPin(w, Octet(s, 2), w.sdio);
    DrivenAppend(p1, p2, w.sdio);
    PullLeavesPin(w, Octet(s, 3), w.sdio);
    DrivenAppend(p1 + p2, p3, w.sdio);
    PullLeavesPin(w, Octet(s, 4), w.sdio);
    DrivenAppend(p1 + p2 + p3, p4, w.sdio);
    PullLeavesPin(w, Octet(s, 5), w.sdio);
    DrivenAppend(p1 + p2 + p3 + p4, p5, w.sdio);
    PullLeavesPin(w, Octet(s, 6), w.sdio);
    DrivenAppend(p1 + p2 + p3 + p4 + p5, p6, w.sdio);
    PullLeavesPin(w, Octet(s, 7), w.sdio);
    DrivenAppend(p1 + p2 + p3 + p4 + p5 + p6, p7, w.sdio);
  }

  /** `identify` addresses the product and revision registers, in that order, after what `enable` sends. */
  lemma IdentifySends(w: Wiring, powered: bool, cpi: int, s: seq<bool>)
    requires Distinct(w)
    ensures Driven(IdentifyTrace(w, powered, cpi, s), w.sdio)
         == EnableBits(powered, cpi) + MsbBits(REG_PRODUCT_ID) + MsbBits(REG_REVISION_ID)
  {
    var en := EnableTrace(w, powered, cpi);
    var r0, r1 := ReadRegisterTrace(w, REG_PRODUCT_ID, Octet(s, 0)), ReadRegisterTrace(w, REG_REVISION_ID, Octet(s, 1));
    var x := EnableBits(powered, cpi) + MsbBits(REG_PRODUCT_ID) + MsbBits(REG_REVISION_ID);
    ControlLinesLeaveData(w);
    EnableSends(w, powered, cpi);
    ReadRegisterSends(w, REG_PRODUCT_ID, Octet(s, 0));
    ReadRegisterSends(w, REG_REVISION_ID, Octet(s, 1));
    DrivenAppend(en, r0, w.sdio);
    DrivenAppend(en + r0, r1, w.sdio);
    DrivenAppend(en + r0 + r1, DeselectTrace(w), w.sdio);
    assert x + [] == x;
  }

  /** What n reads of register `a` put on the data line. */
  function ReadsSent(w: Wiring, a: Byte, s: seq<bool>, n: nat): seq<bool>
  {
    Driven(ReadsTrace(w, a, s, n), w.sdio)
  }

  /** n reads of a register below 0x80 address it n times and send nothing else. */
  lemma {:induction false} ReadsSend(w: Wiring, a: Byte, s: seq<bool>, n: nat)
    requires Distinct(w) && a < 0x80
    ensures ReadsSent(w, a, s, n) == Repeated(MsbBits(a), n)
  {
    if n > 0 {
      ReadsSend(w, a, s, n - 1);
      ReadsStep(w, a, s, n - 1, Repeated(MsbBits(a), n - 1));
    }
  }

  /** One more read of register `a` sends its address once more. */
  lemma ReadsStep(w: Wiring, a: Byte, s: seq<bool>, n: nat, sent: seq<bool>)
    requires Distinct(w) && a < 0x80
    requires ReadsSent(w, a, s, n) == sent
    ensures ReadsSent(w, a, s, n + 1) == sent + MsbBits(a)
  {
    ReadRegisterSends(w, a, Octet(s, n));
    DrivenJoin(ReadsTrace(w, a, s, n), ReadRegisterTrace(w, a, Octet(s, n)), w.sdio, sent, MsbBits(a));
  }

  /**
   * `readFrame` writes 1 to the pixel-grab register and then addresses it
   * exactly 225 times for reading.
   */
  lemma ReadFrameSends(w: Wiring, s: seq<bool>)
    requires Distinct(w)
    ensures Driven(WriteRegisterTrace(w, REG_PIXEL_GRAB, 1) + ReadsTrace(w, REG_PIXEL_GRAB, s, FRAME_LENGTH), w.sdio)
         == WriteBits(REG_PIXEL_GRAB, 1) + Repeated(MsbBits(REG_PIXEL_GRAB), FRAME_LENGTH)
  {
    WriteRegisterSends(w, REG_PIXEL_GRAB, 1);
    ReadsSend(w, REG_PIXEL_GRAB, s, FRAME_LENGTH);
    DrivenAppend(WriteRegisterTrace(w, REG_PIXEL_GRAB, 1), ReadsTrace(w, REG_PIXEL_GRAB, s, FRAME_LENGTH), w.sdio);
  }

  /** One iteration of `pushbyte`'s loop: the bit set is the next bit of the byte, tested with the mask. */
  lemma PushStep(t: seq<Event>, w: Wiring, d: Byte, k: nat, i: Byte, before: seq<Event>, after: seq<Event>)
    requires k < 8 && i == Shr(0x80, k)
    requires before == t + PerBit(MsbBits(d)[..k], PushCycle(w))
    requires after == before + [Drive(w.sclk, false)] + [Drive(w.sdio, d & i != 0)] + [DelayUs(DELAY)] + [Drive(w.sclk, true)]
    ensures after == t + PerBit(MsbBits(d)[..k + 1], PushCycle(w))
  {
    var bits := MsbBits(d);
    assert bits[k] == MaskBit(d, k);
    CycleStep(t, bits, k, PushCycle(w),
      [Drive(w.sclk, false)] + [Drive(w.sdio, bits[k])] + [DelayUs(DELAY)] + [Drive(w.sclk, true)]);
  }

  /** The transfer so far followed by the events of cycle k is the transfer one bit longer. */
  lemma CycleStep(t: seq<Event>, bits: seq<bool>, k: nat, cycle: bool -> seq<Event>, events: seq<Event>)
    requires k < |bits| && events == cycle(bits[k])
    ensures t + PerBit(bits[..k], cycle) + events == t + PerBit(bits[..k + 1], cycle)
  {
    PerBitStep(bits, k, cycle);
  }

  /** One iteration of `pullbyte`'s loop: the sample is the next level of the stream. */
  lemma PullStep(t: seq<Event>, w: Wiring, s: seq<bool>, read: seq<bool>, j: nat, high: bool)
    requires read == Take(s, j) && high == Next(Drop(s, j))
    ensures read + [high] == Take(s, j + 1)
    ensures PullValue(read + [high]) == (PullValue(read) + BitValue(high)) << 1
    ensures t + PerBit(read, PullCycle(w))
            + [Drive(w.sclk, false)] + [Sample(w.sdio, high)] + [DelayUs(DELAY)] + [Drive(w.sclk, true)]
         == t + PerBit(read + [high], PullCycle(w))
  {
    var now := Take(s, j + 1);
    TakeStep(s, j);
    assert now[..j] == read && now[j] == high && now[..j + 1] == now;
    CycleStep(t, now, j, PullCycle(w),
      [Drive(w.sclk, false)] + [Sample(w.sdio, high)] + [DelayUs(DELAY)] + [Drive(w.sclk, true)]);
  }

  /** The two set-up events of a transfer followed by its cycles. */
  lemma TransferSplit(t: seq<Event>, mode: Event, cycles: seq<Event>)
    ensures t + [mode] + [DelayUs(DELAY)] + cycles == t + ([mode, DelayUs(DELAY)] + cycles)
  {
  }

  // ---------------------------------------------------------------------
  // The transfers

  // `pushbyte`, `pullbyte`, `readRegister`, `writeRegister`, `disable`,
  // `hardReset` and `softReset` use only the pin numbers, which are fixed
  // at construction; here they take the wiring instead of the driver.

  /** Eight bits of `data`, most significant first, each set while the clock is low. */
  method PushByte(w: Wiring, io: Pins, data: Byte) returns (io': Pins)
    ensures io'.input == io.input
    ensures io'.trace == io.trace + PushTrace(w, data)
  {
    io' := PinMode(io, w.sdio, Output);
    io' := DelayMicroseconds(io', DELAY);
    ghost var t1 := io'.trace;
    ghost var k: nat := 0;
    assert t1 + [] == t1;
    var i: Byte := 0x80;
    while i > 0
      invariant k <= 8 && i == Shr(0x80, k)
      invariant io'.input == io.input
      invariant io'.trace == t1 + PerBit(MsbBits(data)[..k], PushCycle(w))
      decreases 8 - k
    {
      ShrTopZero(k);
      ghost var before := io'.trace;
      io' := DigitalWrite(io', w.sclk, false);
      io' := DigitalWrite(io', w.sdio, data & i != 0);
      io' := DelayMicroseconds(io', DELAY);
      io' := DigitalWrite(io', w.sclk, true);
      PushStep(t1, w, data, k, i, before, io'.trace);
      i := i >> 1;
      k := k + 1;
    }
    ShrTopZero(k);
    assert MsbBits(data)[..8] == MsbBits(data);
    TransferSplit(io.trace, SetMode(w.sdio, Output), PerBit(MsbBits(data), PushCycle(w)));
  }

  /** Eight samples, each added and then shifted in, in eight-bit arithmetic. */
  method PullByte(w: Wiring, io: Pins) returns (res: Byte, io': Pins)
    ensures res == PullValue(Take(io.input, 8))
    ensures io'.input == Drop(io.input, 8)
    ensures io'.trace == io.trace + PullTrace(w, Take(io.input, 8))
  {
    io' := PinMode(io, w.sdio, Input);
    io' := DelayMicroseconds(io', DELAY);
    ghost var t1 := io'.trace;
    ghost var read: seq<bool> := [];
    assert Take(io.input, 0) == [] && Drop(io.input, 0) == io.input && t1 + [] == t1;
    res := 0;
    var i := 0;
    while i < 8
      invariant 0 <= i <= 8 && read == Take(io.input, i)
      invariant res == PullValue(read)
      invariant io'.input == Drop(io.input, i)
      invariant io'.trace == t1 + PerBit(read, PullCycle(w))
    {
      DropDrop(io.input, i, 1);
      io' := DigitalWrite(io', w.sclk, false);
      var r;
      r, io' := DigitalRead(io', w.sdio);
      res := res + BitValue(r);
      res := res << 1;
      io' := DelayMicroseconds(io', DELAY);
      io' := DigitalWrite(io', w.sclk, true);
      PullStep(t1, w, io.input, read, i, r);
      read := read + [r];
      i := i + 1;
    }
    TransferSplit(io.trace, SetMode(w.sdio, Input), PerBit(read, PullCycle(w)));
  }

  method ReadRegister(w: Wiring, io: Pins, address: Byte) returns (data: Byte, io': Pins)
    ensures data == PullValue(Take(io.input, 8))
    ensures io'.input == Drop(io.input, 8)
    ensures io'.trace == io.trace + ReadRegisterTrace(w, address, Take(io.input, 8))
  {
    var a := address & 0x7F;
    io' := PushByte(w, io, a);
    data, io' := PullByte(w, io');
  }

  method WriteRegister(w: Wiring, io: Pins, address: Byte, data: Byte) returns (io': Pins)
    ensures io'.input == io.input
    ensures io'.trace == io.trace + WriteRegisterTrace(w, address, data)
  {
    var a := address | 0x80;
    io' := PushByte(w, io, a);
    io' := DelayMicroseconds(io', DELAY);
    io' := PushByte(w, io', data);
    io' := DelayMicroseconds(io', DELAY);
  }

  /** Chip select released. */
  method Disable(w: Wiring, io: Pins) returns (io': Pins)
    ensures io'.input == io.input
    ensures io'.trace == io.trace + DeselectTrace(w)
  {
    io' := io;
    if w.ncs >= 0 {  // always: the pin number is unsigned
      io' := DigitalWrite(io', w.ncs, true);
      io' := DelayMicroseconds(io', T_SCLK_NSC_R);
      io' := DelayMicroseconds(io', T_NCS_SDIO);
    }
  }

  method SoftReset(w: Wiring, io: Pins) returns (io': Pins)
    ensures io'.input == io.input
    ensures io'.trace == io.trace + SoftResetTrace(w)
  {
    io' := WriteRegister(w, io, REG_CHIP_RESET, RESET_MAGIC);
    io' := Delay(io', SOFT_RESET_WAIT);
  }

  method HardReset(w: Wiring, io: Pins) returns (io': Pins)
    ensures io'.input == io.input
    ensures io'.trace == io.trace + HardResetTrace(w)
  {
    io' := DigitalWrite(io, w.nreset, false);
    io' := DelayMicroseconds(io', T_PD);
    io' := DigitalWrite(io', w.nreset, true);
    io' := DelayMicroseconds(io', T_WAKEUP);
  }

  /**
   * The burst proper, on the stream `s` whose first byte the motion read
   * has taken: the burst address, the address-to-data pause, then seven
   * pulled bytes.
   */
  method BurstBytes(w: Wiring, io: Pins, ghost s: seq<bool>)
      returns (b1: Byte, b2: Byte, b3: Byte, b4: Byte, b5: Byte, b6: Byte, b7: Byte, io': Pins)
    requires io.input == Drop(s, 8)
    ensures b1 == ByteAt(s, 1) && b2 == ByteAt(s, 2) && b3 == ByteAt(s, 3) && b4 == ByteAt(s, 4)
    ensures b5 == ByteAt(s, 5) && b6 == ByteAt(s, 6) && b7 == ByteAt(s, 7)
    ensures io'.input == Drop(s, 64)
    ensures io'.trace == io.trace + BurstTrace(w, s)
  {
    io' := PushByte(w, io, REG_BURST_MODE);
    io' := DelayMicroseconds(io', T_SRAD);
    ghost var u0 := io'.trace;
    b1, io' := PullByte(w, io');
    OctetNext(s, 1);
    b2, io' := PullByte(w, io');
    OctetNext(s, 2);
    b3, io' := PullByte(w, io');
    OctetNext(s, 3);
    b4, io' := PullByte(w, io');
    OctetNext(s, 4);
    b5, io' := PullByte(w, io');
    OctetNext(s, 5);
    b6, io' := PullByte(w, io');
    OctetNext(s, 6);
    b7, io' := PullByte(w, io');
    OctetNext(s, 7);
    ghost var pulls := PullTrace(w, Octet(s, 1)) + PullTrace(w, Octet(s, 2))
      + PullTrace(w, Octet(s, 3)) + PullTrace(w, Octet(s, 4)) + PullTrace(w, Octet(s, 5))
      + PullTrace(w, Octet(s, 6)) + PullTrace(w, Octet(s, 7));
    Append7(u0, PullTrace(w, Octet(s, 1)), PullTrace(w, Octet(s, 2)),
      PullTrace(w, Octet(s, 3)), PullTrace(w, Octet(s, 4)), PullTrace(w, Octet(s, 5)),
      PullTrace(w, Octet(s, 6)), PullTrace(w, Octet(s, 7)));
    Append3(io.trace, PushTrace(w, REG_BURST_MODE), [DelayUs(T_SRAD)], pulls);
  }

  // ---------------------------------------------------------------------
  // The driver

  /**
   * The driver object's state: the pins it is wired to, the registers last
   * read, the captured frame, the scale, the accumulated position, the
   * configured resolution and the power flag.
   */
  datatype Driver = Driver(
    lines: Wiring,
    motion: Byte,       // the motion register; its most significant bit flags motion
    dx: Int8,
    dy: Int8,
    squal: Byte,
    shutterUpper: Byte,
    shutterLower: Byte,
    maxPixel: Byte,
    pixelSum: Byte,
    frame: seq<Byte>,   // the last captured image, one byte per pixel
    factor: int,        // scale applied to each raw delta
    x: int,
    y: int,
    cpi: int,           // re-applied by every reset
    powered: bool)      // cleared by `powerDown`; `enable` powers an unpowered device up

  /**
   * The field assignments of the constructor. Fields it does not set start
   * at 0, as in the statically allocated driver object; `_powered` starts
   * true. Its pin set-up is `Setup`.
   */
  function NewDriver(sclk: Pin, sdio: Pin, ncs: Pin, nreset: Pin, cpi: int): (d: Driver)
    ensures d.lines == Wiring(sclk, sdio, ncs, nreset)
    ensures |d.frame| == FRAME_LENGTH && forall i :: 0 <= i < FRAME_LENGTH ==> d.frame[i] == 0
    ensures d.cpi == cpi && d.powered && d.factor == 1 && d.x == 0 && d.y == 0
    ensures d.motion == 0 && d.dx == 0 && d.dy == 0 && d.squal == 0
    ensures d.shutterUpper == 0 && d.shutterLower == 0 && d.maxPixel == 0 && d.pixelSum == 0
  {
    Driver(Wiring(sclk, sdio, ncs, nreset), 0, 0, 0, 0, 0, 0, 0, 0, Zeros(FRAME_LENGTH), 1, 0, 0, cpi, true)
  }

  function Zeros(n: nat): (r: seq<Byte>)
    ensures |r| == n && forall i :: 0 <= i < n ==> r[i] == 0
  {
    if n == 0 then [] else Zeros(n - 1) + [0]
  }

  /** The rest of the constructor: pin directions, reset line high, deselect, then the configured resolution. */
  method Setup(d: Driver, io: Pins) returns (d': Driver, io': Pins)
    ensures d' == d.(powered := true)
    ensures io'.input == io.input
    ensures io'.trace == io.trace + SetupTrace(d.lines, d.powered, d.cpi)
  {
    var w := d.lines;
    io' := PinMode(io, w.sclk, Output);
    io' := PinMode(io', w.sdio, Input);
    io' := PinMode(io', w.ncs, Output);
    io' := PinMode(io', w.nreset, Output);
    io' := DigitalWrite(io', w.nreset, true);
    ghost var t1 := io'.trace;
    assert t1 == io.trace + [SetMode(w.sclk, Output), SetMode(w.sdio, Input), SetMode(w.ncs, Output),
      SetMode(w.nreset, Output), Drive(w.nreset, true)];
    io' := Disable(w, io');
    d', io' := Resolution(d, io', d.cpi);
    Append3(io.trace, t1[|io.trace|..], DeselectTrace(w), ResolutionTrace(w, d.powered, d.cpi, d.cpi));
  }

  /** Chip select, then power up if the device was powered down. Only the power flag can change. */
  method Enable(d: Driver, io: Pins) returns (d': Driver, io': Pins)
    ensures d' == d.(powered := true)
    ensures io'.input == io.input
    ensures io'.trace == io.trace + EnableTrace(d.lines, d.powered, d.cpi)
    decreases if d.powered then 0 else 1, 1
  {
    var w := d.lines;
    io' := io;
    if w.ncs >= 0 {  // always: the pin number is unsigned
      io' := DigitalWrite(io', w.ncs, false);
      io' := DelayMicroseconds(io', T_NCS_SCLK);
    }
    d' := d;
    if !d.powered {
      d', io' := PowerUp(d, io');
    }
  }

  /** Hard reset (the soft-reset branch is dead: the reset pin is unsigned), then the stored resolution again. */
  method Reset(d: Driver, io: Pins) returns (d': Driver, io': Pins)
    ensures d' == d.(powered := true)
    ensures io'.input == io.input
    ensures io'.trace == io.trace + ResetTrace(d.lines, d.powered, d.cpi)
    decreases if d.powered then 0 else 1, 3
  {
    var w := d.lines;
    d', io' := Enable(d, io);
    if w.nreset < 0 {
      io' := SoftReset(w, io');
      assert false;
    } else {
      io' := HardReset(w, io');
    }
    d', io' := Resolution(d', io', d'.cpi);
    io' := Disable(w, io');
    Append4(io.trace, EnableTrace(w, d.powered, d.cpi), HardResetTrace(w),
      ResolutionTrace(w, true, d.cpi, d.cpi), DeselectTrace(w));
  }

  /** The sleep bit is written only to a powered device; afterwards the device is unpowered. */
  method PowerDown(d: Driver, io: Pins) returns (d': Driver, io': Pins)
    ensures d' == d.(powered := false)
    ensures io'.input == io.input
    ensures io'.trace == io.trace + PowerDownTrace(d.lines, d.powered, d.cpi)
  {
    var w := d.lines;
    io' := io;
    d' := d;
    if d.powered {
      d', io' := Enable(d, io');
      io' := WriteRegister(w, io', REG_CONTROL, CONTROL_SLEEP);
      io' := Disable(w, io');
    }
    d' := d'.(powered := false);
  }

  /** Marked powered first, so the reset's own `enable` does not power up again. */
  method PowerUp(d: Driver, io: Pins) returns (d': Driver, io': Pins)
    ensures d' == d.(powered := true)
    ensures io'.input == io.input
    ensures io'.trace == io.trace + ResetTrace(d.lines, true, d.cpi)
    decreases 1, 0
  {
    d' := d.(powered := true);
    d', io' := Reset(d', io);
  }

  method Resolution(d: Driver, io: Pins, c: int) returns (d': Driver, io': Pins)
    ensures d' == d.(powered := true, cpi := c)
    ensures io'.input == io.input
    ensures io'.trace == io.trace + ResolutionTrace(d.lines, d.powered, d.cpi, c)
    decreases if d.powered then 0 else 1, 2
  {
    var w := d.lines;
    d', io' := Enable(d, io);
    d' := d'.(cpi := c);
    if d'.cpi == 1000 {
      io' := WriteRegister(w, io', REG_CONTROL, 0x01);
    } else {
      io' := WriteRegister(w, io', REG_CONTROL, 0x00);
    }
    io' := Disable(w, io');
    Append3(io.trace, EnableTrace(w, d.powered, d.cpi), WriteRegisterTrace(w, REG_CONTROL, ControlByte(c)),
      DeselectTrace(w));
  }

  function SetDelta(d: Driver, rx: Int8, ry: Int8): (r: Driver)
    ensures r.dx == rx && r.dy == ry
    ensures r.(dx := d.dx, dy := d.dy) == d
  {
    d.(dx := rx, dy := ry)
  }

  /** The position moves by the last delta only when the motion register was non-zero. */
  function UpdatePosition(d: Driver): (r: Driver)
    ensures r.x == d.x + (if d.motion != 0 then d.dx as int else 0)
    ensures r.y == d.y + (if d.motion != 0 then d.dy as int else 0)
    ensures r.(x := d.x, y := d.y) == d
  {
    if d.motion != 0 then d.(x := d.x + d.dx as int, y := d.y + d.dy as int) else d
  }

  /**
   * The driver after `readDelta` on stream `s`: motion, then the deltas
   * scaled by `factor` and stored as `int8_t`, then quality; the position
   * follows the deltas.
   */
  function DeltaState(d: Driver, s: seq<bool>): Driver
  {
    var e := d.(powered := true);
    UpdatePosition(e.(motion := ByteAt(s, 0), dx := ToInt8(e.factor * ByteAt(s, 1) as int),
      dy := ToInt8(e.factor * ByteAt(s, 2) as int), squal := ByteAt(s, 3)))
  }

  method ReadDelta(d: Driver, io: Pins) returns (d': Driver, io': Pins)
    ensures d' == DeltaState(d, io.input)
    ensures io'.input == Drop(io.input, 32)
    ensures io'.trace == io.trace + ReadDeltaTrace(d.lines, d.powered, d.cpi, io.input)
  {
    var w := d.lines;
    var s0 := io.input;
    d', io' := Enable(d, io);
    assert Drop(s0, 8 * 0) == s0;
    var m, b, c, q;
    m, io' := ReadRegister(w, io', REG_MOTION);
    OctetNext(s0, 0);
    b, io' := ReadRegister(w, io', REG_DELTA_X);
    OctetNext(s0, 1);
    c, io' := ReadRegister(w, io', REG_DELTA_Y);
    OctetNext(s0, 2);
    q, io' := ReadRegister(w, io', REG_SQUAL);
    OctetNext(s0, 3);
    d' := d'.(motion := m, dx := ToInt8(d'.factor * b as int), dy := ToInt8(d'.factor * c as int), squal := q);
    d' := UpdatePosition(d');
    io' := Disable(w, io');
    Append6(io.trace, EnableTrace(w, d.powered, d.cpi),
      ReadRegisterTrace(w, REG_MOTION, Octet(s0, 0)), ReadRegisterTrace(w, REG_DELTA_X, Octet(s0, 1)),
      ReadRegisterTrace(w, REG_DELTA_Y, Octet(s0, 2)), ReadRegisterTrace(w, REG_SQUAL, Octet(s0, 3)),
      DeselectTrace(w));
  }

  /**
   * What `readDelta` leaves in the driver: the four registers in their
   * fields, the position moved by the new deltas only when motion is
   * non-zero, and nothing else changed but the power flag.
   */
  lemma DeltaStateFields(d: Driver, s: seq<bool>)
    ensures var r := DeltaState(d, s);
      r.motion == ByteAt(s, 0)
      && r.dx == ToInt8(d.factor * ByteAt(s, 1) as int)
      && r.dy == ToInt8(d.factor * ByteAt(s, 2) as int)
      && r.squal == ByteAt(s, 3)
      && r.x == d.x + (if r.motion != 0 then r.dx as int else 0)
      && r.y == d.y + (if r.motion != 0 then r.dy as int else 0)
      && r == d.(motion := r.motion, dx := r.dx, dy := r.dy, squal := r.squal, x := r.x, y := r.y, powered := true)
  {
  }

  /**
   * The driver after `readBurst` on stream `s`: motion first; only a
   * non-zero motion byte is followed by seven burst bytes, which set the
   * deltas (scaled by `factor` and stored as `int8_t`), quality, shutter
   * and pixel statistics, and move the position. On zero motion the deltas
   * and quality are cleared.
   */
  function BurstState(d: Driver, s: seq<bool>): Driver
  {
    var e := d.(powered := true, motion := ByteAt(s, 0));
    if e.motion != 0 then
      UpdatePosition(e.(dx := ToInt8(e.factor * ByteAt(s, 1) as int), dy := ToInt8(e.factor * ByteAt(s, 2) as int),
        squal := ByteAt(s, 3), shutterUpper := ByteAt(s, 4), shutterLower := ByteAt(s, 5),
        maxPixel := ByteAt(s, 6), pixelSum := ByteAt(s, 7)))
    else e.(dx := 0, dy := 0, squal := 0)
  }

  method ReadBurst(d: Driver, io: Pins) returns (d': Driver, io': Pins)
    ensures d' == BurstState(d, io.input)
    ensures io'.input == Drop(io.input, if ByteAt(io.input, 0) != 0 then 64 else 8)
    ensures io'.trace == io.trace + ReadBurstTrace(d.lines, d.powered, d.cpi, io.input)
  {
    var w := d.lines;
    var s0 := io.input;
    d', io' := Enable(d, io);
    assert Drop(s0, 8 * 0) == s0;
    var m;
    m, io' := ReadRegister(w, io', REG_MOTION);
    d' := d'.(motion := m);
    OctetNext(s0, 0);
    ghost var t2 := io'.trace;
    if m != 0 {
      var b1, b2, b3, b4, b5, b6, b7;
      b1, b2, b3, b4, b5, b6, b7, io' := BurstBytes(w, io', s0);
      d' := d'.(dx := ToInt8(d'.factor * b1 as int), dy := ToInt8(d'.factor * b2 as int), squal := b3,
        shutterUpper := b4, shutterLower := b5, maxPixel := b6, pixelSum := b7);
      d' := UpdatePosition(d');
    } else {
      d' := d'.(dx := 0, dy := 0, squal := 0);
      assert io'.trace == t2 + [];
    }
    ghost var burst := if ByteAt(s0, 0) != 0 then BurstTrace(w, s0) else [];
    io' := Disable(w, io');
    io' := DelayMicroseconds(io', T_BEXIT);
    Append5(io.trace, EnableTrace(w, d.powered, d.cpi), ReadRegisterTrace(w, REG_MOTION, Octet(s0, 0)),
      burst, DeselectTrace(w), [DelayUs(T_BEXIT)]);
  }

  /**
   * What `readBurst` leaves in the driver: on zero motion only the motion,
   * deltas and quality change, all to zero; otherwise the seven burst bytes
   * land in their fields and the position moves by the new deltas.
   */
  lemma BurstStateFields(d: Driver, s: seq<bool>)
    ensures var r := BurstState(d, s);
      r.motion == ByteAt(s, 0)
      && (r.motion == 0 ==> r == d.(motion := 0, dx := 0, dy := 0, squal := 0, powered := true))
      && (r.motion != 0 ==>
        r.dx == ToInt8(d.factor * ByteAt(s, 1) as int)
        && r.dy == ToInt8(d.factor * ByteAt(s, 2) as int)
        && r.squal == ByteAt(s, 3)
        && r.shutterUpper == ByteAt(s, 4) && r.shutterLower == ByteAt(s, 5)
        && r.maxPixel == ByteAt(s, 6) && r.pixelSum == ByteAt(s, 7)
        && r.x == d.x + r.dx as int && r.y == d.y + r.dy as int
        && r == d.(motion := r.motion, dx := r.dx, dy := r.dy, squal := r.squal,
             shutterUpper := r.shutterUpper, shutterLower := r.shutterLower,
             maxPixel := r.maxPixel, pixelSum := r.pixelSum, x := r.x, y := r.y, powered := true))
  {
  }

  /**
   * On a stream whose motion byte is non-zero, a burst read and a delta
   * read that see the same first four bytes leave the same motion, deltas,
   * quality and position; on zero motion neither moves the position.
   */
  lemma BurstAgreesWithDelta(d: Driver, s: seq<bool>)
    ensures var b, r := BurstState(d, s), DeltaState(d, s);
      b.motion == r.motion
      && (b.motion != 0 ==> b.dx == r.dx && b.dy == r.dy && b.squal == r.squal && b.x == r.x && b.y == r.y)
      && (b.motion == 0 ==> b.x == r.x == d.x && b.y == r.y == d.y)
  {
  }
  /**
   * The motion flag is bit 7 of the motion register, the first bit
   * `pullbyte` samples and then shifts out. A motion register of 0x80 reads
   * as 0, so `readBurst` skips the burst: the deltas and quality are cleared
   * and the position stays.
   */
  lemma MotionFlagDropped(d: Driver, s: seq<bool>)
    requires Octet(s, 0) == MsbBits(0x80)
    ensures ByteAt(s, 0) == 0
    ensures var b := BurstState(d, s); b.motion == 0 && b.dx == 0 && b.dy == 0 && b.x == d.x && b.y == d.y
  {
    PullOfPushLosesTopBit();
  }


  /** Pixel grab started, then exactly 225 reads of the pixel register, each stored with bit 7 cleared. */
  method ReadFrame(d: Driver, io: Pins) returns (d': Driver, io': Pins)
    requires |d.frame| == FRAME_LENGTH
    ensures |d'.frame| == FRAME_LENGTH
    ensures forall i :: 0 <= i < FRAME_LENGTH ==> d'.frame[i] == PixelValue(ByteAt(io.input, i))
    ensures forall i :: 0 <= i < FRAME_LENGTH ==> d'.frame[i] <= 0x7F
    ensures d' == d.(frame := d'.frame)
    ensures io'.input == Drop(io.input, 8 * FRAME_LENGTH)
    ensures io'.trace == io.trace + WriteRegisterTrace(d.lines, REG_PIXEL_GRAB, 1)
      + ReadsTrace(d.lines, REG_PIXEL_GRAB, io.input, FRAME_LENGTH)
  {
    io' := WriteRegister(d.lines, io, REG_PIXEL_GRAB, 1);
    var frame;
    frame, io' := GrabPixels(d.lines, io', d.frame);
    d' := d.(frame := frame);
  }

  /** The pixel-grab loop: one register read per pixel, each stored with its top bit cleared. */
  method GrabPixels(w: Wiring, io: Pins, frame0: seq<Byte>) returns (frame: seq<Byte>, io': Pins)
    requires |frame0| == FRAME_LENGTH
    ensures |frame| == FRAME_LENGTH
    ensures forall i :: 0 <= i < FRAME_LENGTH ==> frame[i] == PixelValue(ByteAt(io.input, i))
    ensures io'.input == Drop(io.input, 8 * FRAME_LENGTH)
    ensures io'.trace == io.trace + ReadsTrace(w, REG_PIXEL_GRAB, io.input, FRAME_LENGTH)
  {
    var s0 := io.input;
    frame := frame0;
    io' := io;
    var count := 0;
    assert Drop(s0, 8 * 0) == s0 && io.trace + [] == io.trace;
    while true
      invariant 0 <= count < FRAME_LENGTH && |frame| == FRAME_LENGTH
      invariant StoredPixels(frame, s0, count)
      invariant io'.input == Drop(s0, 8 * count)
      invariant io'.trace == io.trace + ReadsTrace(w, REG_PIXEL_GRAB, s0, count)
      decreases FRAME_LENGTH - count
    {
      ghost var before := io'.trace;
      ghost var previous := frame;
      var data;
      data, io' := ReadRegister(w, io', REG_PIXEL_GRAB);
      frame := frame[count := data & 0x7f];
      PixelStep(io.trace, w, s0, count, previous, frame, data, before, io'.trace);
      OctetNext(s0, count);
      count := count + 1;
      if count == FRAME_LENGTH {
        break;
      }
    }
  }

  /** The first n entries of `frame` hold the first n pixels read from stream `s`, top bit cleared. */
  ghost predicate StoredPixels(frame: seq<Byte>, s: seq<bool>, n: nat)
  {
    n <= |frame| && forall i :: 0 <= i < n ==> frame[i] == PixelValue(ByteAt(s, i))
  }

  /** Reading and storing pixel `count` extends the stored prefix of the frame, and the reads, by one. */
  lemma PixelStep(t: seq<Event>, w: Wiring, s: seq<bool>, count: nat, previous: seq<Byte>, frame: seq<Byte>, data: Byte,
                  before: seq<Event>, after: seq<Event>)
    requires count < |previous| && frame == previous[count := data & 0x7f]
    requires data == PullValue(Take(Drop(s, 8 * count), 8))
    requires StoredPixels(previous, s, count)
    requires before == t + ReadsTrace(w, REG_PIXEL_GRAB, s, count)
    requires after == before + ReadRegisterTrace(w, REG_PIXEL_GRAB, Take(Drop(s, 8 * count), 8))
    ensures StoredPixels(frame, s, count + 1)
    ensures after == t + ReadsTrace(w, REG_PIXEL_GRAB, s, count + 1)
  {
  }

  /** Product and revision registers; the device is recognised exactly when the product ID reads 0x12. */
  method Identify(d: Driver, io: Pins) returns (productId: Byte, revisionId: Byte, known: bool, d': Driver, io': Pins)
    ensures productId == ByteAt(io.input, 0) && revisionId == ByteAt(io.input, 1)
    ensures known <==> productId == PRODUCT_ID
    ensures d' == d.(powered := true)
    ensures io'.input == Drop(io.input, 16)
    ensures io'.trace == io.trace + IdentifyTrace(d.lines, d.powered, d.cpi, io.input)
  {
    var w := d.lines;
    var s0 := io.input;
    d', io' := Enable(d, io);
    assert Drop(s0, 8 * 0) == s0;
    productId, io' := ReadRegister(w, io', REG_PRODUCT_ID);
    OctetNext(s0, 0);
    revisionId, io' := ReadRegister(w, io', REG_REVISION_ID);
    OctetNext(s0, 1);
    known := productId == PRODUCT_ID;
    io' := Disable(w, io');
    Append4(io.trace, EnableTrace(w, d.powered, d.cpi), ReadRegisterTrace(w, REG_PRODUCT_ID, Octet(s0, 0)),
      ReadRegisterTrace(w, REG_REVISION_ID, Octet(s0, 1)), DeselectTrace(w));
  }
}
