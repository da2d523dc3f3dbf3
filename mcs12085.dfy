/**
 * The MCS-12085 optical mouse sensor driver: a clock line and a
 * bidirectional data line, no chip select. A byte goes out or comes in most
 * significant bit first, one clock pulse per bit (25 us low, then 25 us
 * high). A register is read by writing its command byte, pausing 100 us,
 * reading the response byte and pausing 250 us; the response is a signed
 * two's-complement count.
 */
module Mcs12085 {
  import opened Bytes
  import opened Arduino

  /** MCS12085_CYCLE: microseconds of each clock half-period. */
  const CYCLE: nat := 25
  /** Pause between writing a command and reading its response. */
  const WR_PAUSE: nat := 100
  /** Pause between reading a response and the next command. */
  const RW_PAUSE: nat := 250
  /** Command bytes: read the DX and the DY register. */
  const CMD_READ_DX: Byte := 0x02
  const CMD_READ_DY: Byte := 0x03

  /** `convert`: the response byte read as a signed 8-bit count. */
  function Convert(b: Byte): (r: int)
    ensures -128 <= r < 128
    ensures r == if b < 128 then b as int else b as int - 256
    ensures r % 256 == b as int
  {
    if b < 128 then b as int else -(((b ^ 0xFF) as int) + 1)
  }

  /** `Convert` is the same two's-complement reading as a C++ store into `int8_t`. */
  lemma ConvertIsInt8(b: Byte)
    ensures Convert(b) == ToInt8(b as int)
  {
  }

  /** The edges of the two halves of the byte range. */
  lemma ConvertSamples()
    ensures Convert(0) == 0 && Convert(127) == 127
    ensures Convert(128) == -128 && Convert(255) == -1
  {
  }

  // ---------------------------------------------------------------------
  // Event traces of each operation

  function InitTrace(sck: Pin, sdio: Pin): seq<Event>
  {
    [SetMode(sck, Output), Drive(sck, true), SetMode(sdio, Output), Drive(sdio, false)]
  }

  function TickTrace(sck: Pin): seq<Event>
  {
    [Drive(sck, false), DelayUs(CYCLE), Drive(sck, true)]
  }

  function TockTrace(): seq<Event>
  {
    [DelayUs(CYCLE)]
  }

  function ReadBitTrace(sck: Pin, sdio: Pin, high: bool): seq<Event>
  {
    TickTrace(sck) + [Sample(sdio, high)] + TockTrace()
  }

  function WriteBitTrace(sck: Pin, sdio: Pin, high: bool): seq<Event>
  {
    [Drive(sdio, high)] + TickTrace(sck) + TockTrace() + [Drive(sdio, false)]
  }

  function ReadCycle(sck: Pin, sdio: Pin): bool -> seq<Event>
  {
    high => ReadBitTrace(sck, sdio, high)
  }

  function WriteCycle(sck: Pin, sdio: Pin): bool -> seq<Event>
  {
    high => WriteBitTrace(sck, sdio, high)
  }

  /** `read_byte` sampling `bits`: eight read cycles, then the data line back to output, low. */
  function ReadByteTrace(sck: Pin, sdio: Pin, bits: seq<bool>): seq<Event>
  {
    PerBit(bits, ReadCycle(sck, sdio)) + [SetMode(sdio, Output), Drive(sdio, false)]
  }

  /** `write_byte(w)`: eight write cycles, most significant bit first, then the data line to input. */
  function WriteByteTrace(sck: Pin, sdio: Pin, w: Byte): seq<Event>
  {
    PerBit(MsbBits(w), WriteCycle(sck, sdio)) + [SetMode(sdio, Input)]
  }

  /** One command/response cycle (`read_x` / `read_y`) whose response samples are `bits`. */
  function ExchangeTrace(sck: Pin, sdio: Pin, command: Byte, bits: seq<bool>): seq<Event>
  {
    WriteByteTrace(sck, sdio, command) + [DelayUs(WR_PAUSE)]
      + ReadByteTrace(sck, sdio, bits) + [DelayUs(RW_PAUSE)]
  }

  // ---------------------------------------------------------------------
  // What the traces say

  /** Cycle k of `write_byte(w)` is the write cycle for the k-th bit of `w` from the top. */
  lemma WriteByteCycle(sck: Pin, sdio: Pin, w: Byte, k: nat)
    requires k < 8
    ensures |WriteByteTrace(sck, sdio, w)| == 49
    ensures WriteByteTrace(sck, sdio, w)[48] == SetMode(sdio, Input)
    ensures WriteByteTrace(sck, sdio, w)[6 * k .. 6 * k + 6] == WriteBitTrace(sck, sdio, MsbBits(w)[k])
  {
    var cycles := PerBit(MsbBits(w), WriteCycle(sck, sdio));
    PerBitAt(MsbBits(w), WriteCycle(sck, sdio), 6, k);
    assert WriteByteTrace(sck, sdio, w)[6 * k .. 6 * k + 6] == cycles[6 * k .. 6 * k + 6];
  }

  /**
   * `write_byte(w)` takes 49 events: bit k of the transfer (8 cycles of 6
   * events) sets the data line to bit `7 - k` of `w`, pulses the clock low
   * then high, and drives the data line low again; the data line is left
   * as an input.
   */
  lemma WriteByteTraceAt(sck: Pin, sdio: Pin, w: Byte, k: nat)
    requires k < 8
    ensures |WriteByteTrace(sck, sdio, w)| == 49
    ensures WriteByteTrace(sck, sdio, w)[48] == SetMode(sdio, Input)
    ensures WriteByteTrace(sck, sdio, w)[6 * k] == Drive(sdio, Shr(w, 7 - k) & 1 == 1)
    ensures WriteByteTrace(sck, sdio, w)[6 * k + 1] == Drive(sck, false)
    ensures WriteByteTrace(sck, sdio, w)[6 * k + 2] == DelayUs(CYCLE)
    ensures WriteByteTrace(sck, sdio, w)[6 * k + 3] == Drive(sck, true)
    ensures WriteByteTrace(sck, sdio, w)[6 * k + 5] == Drive(sdio, false)
  {
    WriteByteCycle(sck, sdio, w, k);
    var c := WriteByteTrace(sck, sdio, w)[6 * k .. 6 * k + 6];
    MsbBitsAt(w, k);
    assert c[0] == WriteByteTrace(sck, sdio, w)[6 * k];
    assert c[1] == WriteByteTrace(sck, sdio, w)[6 * k + 1];
    assert c[2] == WriteByteTrace(sck, sdio, w)[6 * k + 2];
    assert c[3] == WriteByteTrace(sck, sdio, w)[6 * k + 3];
    assert c[5] == WriteByteTrace(sck, sdio, w)[6 * k + 5];
  }

  /**
   * `read_byte` takes 42 events: read k samples the data line once, between
   * the clock's rising edge and the high half-period, and records bit k of
   * `bits`; afterwards the data line is an output driven low.
   */
  lemma ReadByteTraceAt(sck: Pin, sdio: Pin, bits: seq<bool>, k: nat)
    requires |bits| == 8 && k < 8
    ensures |ReadByteTrace(sck, sdio, bits)| == 42
    ensures ReadByteTrace(sck, sdio, bits)[40..] == [SetMode(sdio, Output), Drive(sdio, false)]
    ensures ReadByteTrace(sck, sdio, bits)[5 * k] == Drive(sck, false)
    ensures ReadByteTrace(sck, sdio, bits)[5 * k + 2] == Drive(sck, true)
    ensures ReadByteTrace(sck, sdio, bits)[5 * k + 3] == Sample(sdio, bits[k])
  {
    var cycles := PerBit(bits, ReadCycle(sck, sdio));
    PerBitAt(bits, ReadCycle(sck, sdio), 5, k);
    var c := cycles[5 * k .. 5 * k + 5];
    assert c == ReadBitTrace(sck, sdio, bits[k]);
    assert c[0] == ReadByteTrace(sck, sdio, bits)[5 * k];
    assert c[2] == ReadByteTrace(sck, sdio, bits)[5 * k + 2];
    assert c[3] == ReadByteTrace(sck, sdio, bits)[5 * k + 3];
  }

  /**
   * Loopback: when the data line presents, to `read_byte`, the eight levels
   * that `write_byte(w)` drives (whatever follows them), the byte read is `w`.
   */
  lemma LoopbackRoundTrip(w: Byte, rest: seq<bool>)
    ensures MsbByte(Take(MsbBits(w) + rest, 8)) == w
  {
    assert Take(MsbBits(w) + rest, 8) == MsbBits(w);
    MsbRoundTrip(w);
  }

  /** And conversely: the levels `write_byte` drives for the byte read back from eight samples are those samples. */
  lemma SamplesRoundTrip(bits: seq<bool>)
    requires |bits| == 8
    ensures MsbBits(MsbByte(bits)) == bits
  {
    MsbBitsOfByte(bits);
  }

  /** After a `tick`, whatever happened before, the clock line is high. */
  lemma ClockHighAfterTick(t: seq<Event>, sck: Pin)
    ensures LastDriven(t + TickTrace(sck), sck) == Some(true)
  {
    LastDrivenAppend(t, TickTrace(sck), sck);
  }

  /** After `init`, the clock line is high (the data line is a different pin). */
  lemma ClockHighAfterInit(t: seq<Event>, sck: Pin, sdio: Pin)
    requires sck != sdio
    ensures LastDriven(t + InitTrace(sck, sdio), sck) == Some(true)
  {
    var clock := [SetMode(sck, Output), Drive(sck, true)];
    var data := [SetMode(sdio, Output), Drive(sdio, false)];
    assert LastDriven(clock, sck) == Some(true);
    LastDrivenAppend(t, clock, sck);
    assert t + InitTrace(sck, sdio) == (t + clock) + data;
    LastDrivenUntouched(t + clock, data, sck);
  }

  /** A write cycle ends with the clock high: the data line it drives last is another pin. */
  lemma ClockHighAfterWriteBit(sck: Pin, sdio: Pin, high: bool)
    requires sck != sdio
    ensures LastDriven(WriteBitTrace(sck, sdio, high), sck) == Some(true)
  {
    var head := [Drive(sdio, high)];
    var tail := TockTrace() + [Drive(sdio, false)];
    assert WriteBitTrace(sck, sdio, high) == (head + TickTrace(sck)) + tail;
    ClockHighAfterTick(head, sck);
    LastDrivenUntouched(head + TickTrace(sck), tail, sck);
  }

  /** A read cycle ends with the clock high. */
  lemma ClockHighAfterReadBit(sck: Pin, sdio: Pin, high: bool)
    ensures LastDriven(ReadBitTrace(sck, sdio, high), sck) == Some(true)
  {
    var tail := [Sample(sdio, high)] + TockTrace();
    ClockHighAfterTick([], sck);
    assert [] + TickTrace(sck) == TickTrace(sck);
    LastDrivenUntouched(TickTrace(sck), tail, sck);
  }

  /** A transfer of at least one bit whose every cycle leaves the clock high leaves it high. */
  lemma ClockHighAfterCycles(t: seq<Event>, bits: seq<bool>, cycle: bool -> seq<Event>, sck: Pin)
    requires bits != []
    requires LastDriven(cycle(bits[|bits| - 1]), sck) == Some(true)
    ensures LastDriven(t + PerBit(bits, cycle), sck) == Some(true)
  {
    var prefix := PerBit(bits[..|bits| - 1], cycle);
    var last := cycle(bits[|bits| - 1]);
    assert PerBit(bits, cycle) == prefix + last;
    LastDrivenAppend(prefix, last, sck);
    LastDrivenAppend(t, prefix + last, sck);
  }

  /** `write_byte` leaves the clock line high (the data line is a different pin). */
  lemma ClockHighAfterWriteByte(t: seq<Event>, sck: Pin, sdio: Pin, w: Byte)
    requires sck != sdio
    ensures LastDriven(t + WriteByteTrace(sck, sdio, w), sck) == Some(true)
  {
    ClockHighAfterWriteBit(sck, sdio, MsbBits(w)[7]);
    var wt := t + PerBit(MsbBits(w), WriteCycle(sck, sdio));
    ClockHighAfterCycles(t, MsbBits(w), WriteCycle(sck, sdio), sck);
    assert t + WriteByteTrace(sck, sdio, w) == wt + [SetMode(sdio, Input)];
    LastDrivenUntouched(wt, [SetMode(sdio, Input)], sck);
  }

  /** `read_byte` leaves the clock line high (the data line is a different pin). */
  lemma ClockHighAfterReadByte(t: seq<Event>, sck: Pin, sdio: Pin, bits: seq<bool>)
    requires sck != sdio && bits != []
    ensures LastDriven(t + ReadByteTrace(sck, sdio, bits), sck) == Some(true)
  {
    ClockHighAfterReadBit(sck, sdio, bits[|bits| - 1]);
    var rt := t + PerBit(bits, ReadCycle(sck, sdio));
    ClockHighAfterCycles(t, bits, ReadCycle(sck, sdio), sck);
    assert t + ReadByteTrace(sck, sdio, bits) == rt + [SetMode(sdio, Output), Drive(sdio, false)];
    LastDrivenUntouched(rt, [SetMode(sdio, Output), Drive(sdio, false)], sck);
  }

  /** One iteration of `write_byte`'s loop: the bit it sends is the next bit of the byte. */
  lemma WriteStep(t: seq<Event>, sck: Pin, sdio: Pin, w0: Byte, j: nat)
    requires j < 8
    ensures t + PerBit(MsbBits(w0)[..j], WriteCycle(sck, sdio)) + WriteBitTrace(sck, sdio, Shl(w0, j) & 0x80 != 0)
         == t + PerBit(MsbBits(w0)[..j + 1], WriteCycle(sck, sdio))
  {
    ShlTopBit(w0, j);
    PerBitStep(MsbBits(w0), j, WriteCycle(sck, sdio));
    assert WriteCycle(sck, sdio)(MsbBits(w0)[j]) == WriteBitTrace(sck, sdio, MsbBits(w0)[j]);
  }

  /**
   * One iteration of `read_byte`'s loop, with `read` the samples taken so
   * far: the new sample is the next level of the stream, and the trace
   * grows by one read cycle.
   */
  lemma ReadStep(t: seq<Event>, sck: Pin, sdio: Pin, s: seq<bool>, read: seq<bool>, j: nat, high: bool)
    requires read == Take(s, j) && high == Next(Drop(s, j))
    ensures read + [high] == Take(s, j + 1)
    ensures t + PerBit(read, ReadCycle(sck, sdio)) + ReadBitTrace(sck, sdio, high)
         == t + PerBit(read + [high], ReadCycle(sck, sdio))
  {
    var now := Take(s, j + 1);
    TakeStep(s, j);
    assert now[..j] == read && now[j] == high;
    PerBitStep(now, j, ReadCycle(sck, sdio));
    assert now[..j + 1] == now;
    assert ReadCycle(sck, sdio)(high) == ReadBitTrace(sck, sdio, high);
  }

  /**
   * The same iteration on the partial byte: a set sample is or-ed in with
   * the current mask, and the mask moves down to the next bit.
   */
  lemma ReadValueStep(read: seq<bool>, high: bool, b: Byte, value: Byte)
    requires b == TopByte(read) && value == Shr(0x80, |read|)
    ensures (if high then b | value else b) == TopByte(read + [high])
    ensures value >> 1 == Shr(0x80, |read + [high]|)
  {
    TopByteSnoc(read, high);
  }

  // ---------------------------------------------------------------------
  // The driver

  class MCS12085 {
    const sck: Pin
    const sdio: Pin

    /** The clock line was last driven high (its idle level). */
    predicate ClockHigh(io: Pins)
    {
      LastDriven(io.trace, sck) == Some(true)
    }

    constructor (sck: Pin, sdio: Pin)
      ensures this.sck == sck && this.sdio == sdio
    {
      this.sck := sck;
      this.sdio := sdio;
    }

    /** Clock pin an output, idle high; data pin an output, low. */
    method Init(io: Pins) returns (io': Pins)
      ensures io'.input == io.input
      ensures io'.trace == io.trace + InitTrace(sck, sdio)
      ensures sck != sdio ==> ClockHigh(io')
    {
      io' := PinMode(io, sck, Output);
      io' := DigitalWrite(io', sck, true);
      io' := PinMode(io', sdio, Output);
      io' := DigitalWrite(io', sdio, false);
      if sck != sdio {
        ClockHighAfterInit(io.trace, sck, sdio);
      }
    }

    /** One clock pulse: low for a half-period, then high again. */
    method Tick(io: Pins) returns (io': Pins)
      ensures io'.input == io.input
      ensures io'.trace == io.trace + TickTrace(sck)
      ensures ClockHigh(io')
    {
      io' := DigitalWrite(io, sck, false);
      io' := DelayMicroseconds(io', CYCLE);
      io' := DigitalWrite(io', sck, true);
      ClockHighAfterTick(io.trace, sck);
    }

    /** The high half-period. */
    method Tock(io: Pins) returns (io': Pins)
      ensures io'.input == io.input
      ensures io'.trace == io.trace + TockTrace()
    {
      io' := DelayMicroseconds(io, CYCLE);
    }

    method ReadBit(io: Pins) returns (r: bool, io': Pins)
      ensures r == Next(io.input)
      ensures io'.input == Drop(io.input, 1)
      ensures io'.trace == io.trace + ReadBitTrace(sck, sdio, r)
    {
      io' := Tick(io);
      r, io' := DigitalRead(io', sdio);
      io' := Tock(io');
    }

    /** Eight bits, most significant first; then the data line back to output, low. */
    method ReadByte(io: Pins) returns (b: Byte, io': Pins)
      ensures b == MsbByte(Take(io.input, 8))
      ensures io'.input == Drop(io.input, 8)
      ensures io'.trace == io.trace + ReadByteTrace(sck, sdio, Take(io.input, 8))
      ensures sck != sdio ==> ClockHigh(io')
    {
      ghost var read: seq<bool> := [];
      var bits := 8;
      var value: Byte := 0x80;
      b := 0;
      io' := io;
      assert Take(io.input, 0) == [] && Drop(io.input, 0) == io.input && io.trace + [] == io.trace;
      while bits > 0
        invariant 0 <= bits <= 8 && |read| == 8 - bits
        invariant read == Take(io.input, |read|)
        invariant value == Shr(0x80, |read|)
        invariant b == TopByte(read)
        invariant io'.input == Drop(io.input, |read|)
        invariant io'.trace == io.trace + PerBit(read, ReadCycle(sck, sdio))
      {
        DropDrop(io.input, |read|, 1);
        var r;
        r, io' := ReadBit(io');
        ReadStep(io.trace, sck, sdio, io.input, read, |read|, r);
        ReadValueStep(read, r, b, value);
        read := read + [r];
        if r {
          b := b | value;
        }
        value := value >> 1;
        bits := bits - 1;
      }
      TopByteIsMsbByte(read);
      io' := PinMode(io', sdio, Output);
      io' := DigitalWrite(io', sdio, false);
      if sck != sdio {
        ClockHighAfterReadByte(io.trace, sck, sdio, Take(io.input, 8));
      }
    }

    /** Set the data line to the bit, pulse the clock, and drive the data line low. */
    method WriteBit(io: Pins, b: Byte) returns (io': Pins)
      ensures io'.input == io.input
      ensures io'.trace == io.trace + WriteBitTrace(sck, sdio, b != 0)
    {
      if b != 0 {
        io' := DigitalWrite(io, sdio, true);
      } else {
        io' := DigitalWrite(io, sdio, false);
      }
      io' := Tick(io');
      io' := Tock(io');
      io' := DigitalWrite(io', sdio, false);
    }

    /** Eight bits of `w`, most significant first; then the data line to input. */
    method WriteByte(io: Pins, w: Byte) returns (io': Pins)
      ensures io'.input == io.input
      ensures io'.trace == io.trace + WriteByteTrace(sck, sdio, w)
      ensures sck != sdio ==> ClockHigh(io')
    {
      var w0 := w;
      var w := w;
      var bits := 8;
      ghost var sent := 0;
      io' := io;
      assert MsbBits(w0)[..0] == [] && io.trace + [] == io.trace;
      while bits > 0
        invariant 0 <= bits <= 8 && sent == 8 - bits
        invariant w == Shl(w0, sent)
        invariant io'.input == io.input
        invariant io'.trace == io.trace + PerBit(MsbBits(w0)[..sent], WriteCycle(sck, sdio))
      {
        WriteStep(io.trace, sck, sdio, w0, sent);
        io' := WriteBit(io', w & 0x80);
        w := w << 1;
        bits := bits - 1;
        sent := sent + 1;
      }
      assert MsbBits(w0)[..8] == MsbBits(w0);
      io' := PinMode(io', sdio, Input);
      if sck != sdio {
        ClockHighAfterWriteByte(io.trace, sck, sdio, w0);
      }
    }

    method WrPause(io: Pins) returns (io': Pins)
      ensures io'.input == io.input
      ensures io'.trace == io.trace + [DelayUs(WR_PAUSE)]
    {
      io' := DelayMicroseconds(io, WR_PAUSE);
    }

    method RwPause(io: Pins) returns (io': Pins)
      ensures io'.input == io.input
      ensures io'.trace == io.trace + [DelayUs(RW_PAUSE)]
    {
      io' := DelayMicroseconds(io, RW_PAUSE);
    }

    /** The change in X since the last read: command 0x02, one response byte, decoded. */
    method ReadX(io: Pins) returns (i: int, io': Pins)
      ensures i == Convert(MsbByte(Take(io.input, 8)))
      ensures io'.input == Drop(io.input, 8)
      ensures io'.trace == io.trace + ExchangeTrace(sck, sdio, CMD_READ_DX, Take(io.input, 8))
    {
      io' := WriteByte(io, CMD_READ_DX);
      io' := WrPause(io');
      var b;
      b, io' := ReadByte(io');
      i := Convert(b);
      io' := RwPause(io');
    }

    /** The change in Y since the last read: command 0x03, one response byte, decoded. */
    method ReadY(io: Pins) returns (i: int, io': Pins)
      ensures i == Convert(MsbByte(Take(io.input, 8)))
      ensures io'.input == Drop(io.input, 8)
      ensures io'.trace == io.trace + ExchangeTrace(sck, sdio, CMD_READ_DY, Take(io.input, 8))
    {
      io' := WriteByte(io, CMD_READ_DY);
      io' := WrPause(io');
      var b;
      b, io' := ReadByte(io');
      i := Convert(b);
      io' := RwPause(io');
    }
  }
}
