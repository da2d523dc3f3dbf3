# Optical mouse sensor drivers of the imob-esp32 sketch

This project models three pieces of bit-level driver logic from the ESP32 sketch.

- **ADNS-5020 optical mouse sensor driver.**
  - It bit-bangs an SPI-like protocol on four lines: clock (SCLK), a bidirectional data line (SDIO), chip select (NCS) and a reset line (NRESET).
  - Bytes are pushed and pulled most significant bit first.
  - A register address carries the read/write direction in bit 7.
  - The driver reads motion deltas one register at a time or as a burst, and accumulates them into a position.
  - It captures a 225-pixel frame.
  - It sequences power-down, power-up, reset and the resolution setting, using a power flag.
- **MCS-12085 optical sensor driver.**
  - It uses a clock and a data line, with no chip select.
  - Bytes are written and read bit-serially, most significant bit first.
  - A command/response exchange reads the DX and DY registers.
  - The response byte is decoded as a two's-complement count.
- **Host sketch.** Two pieces of its logic are modelled:
  - the encoding of an RFID card UID as upper-case hexadecimal into a character buffer (`array_to_string`);
  - the choice of which device holds the shared SPI bus (`spi_select`).

The pins and the clock are replaced by a simulated line, `Arduino.Pins`. It has two parts:

- `input`: the levels the data line presents, consumed one per `digitalRead`.
- `trace`: every `pinMode`, `digitalWrite`, `digitalRead` (with the sampled level), `delayMicroseconds` and `delay`, in order.

Every driver operation is proved against three things:

- a trace function, stating the exact events the operation produces;
- a statement of how much input it consumes;
- where the operation computes something, a function of the bits it read.

Lemmas then state what those traces and values mean:

- which levels each line is driven to;
- which bits are sampled;
- which reset pulses happen;
- which registers are addressed, and in what order;
- how the stored fields change.

For the ADNS-5020, the `*Sends` lemmas state, in terms of `Adns5020.EnableBits`, `Adns5020.WriteBits` and `Adns5020.Repeated`, the whole sequence of bits these operations send on the data line: `readRegister`, `writeRegister`, `enable`, `resolution`, `reset` on a powered device, `powerDown`, `readDelta`, the burst segment of `readBurst`, `identify` and `readFrame`. For example, `readDelta` sends the addresses 0x02, 0x03, 0x04 and 0x05, in that order, and nothing else after what `enable` sends.

For `readBurst` as a whole, the data line is stated only through `Adns5020.ReadBurstTrace` and `Adns5020.BurstSends`. The constructor's set-up and a `reset` of an unpowered device have no data-line lemma of their own.

Files:

- `bytes.dfy` (module `Bytes`): `uint8_t` as `bv8` and `int8_t`, plus bit-order helpers (`MsbBits`, `MsbByte`).
- `arduino.dfy` (module `Arduino`): the simulated line, the trace events and trace lemmas.
- `adns5020.dfy` (module `Adns5020`): the ADNS-5020 driver.
- `mcs12085.dfy` (module `Mcs12085`): the MCS-12085 driver, a class holding its two pins.
- `host.dfy` (module `Host`): `array_to_string` over arrays, and `spi_select` as a class holding `current_spi`.

Notes on how the code was read:

- **`pullbyte` is modelled as written.** It adds the sampled level and only then shifts left. So over eight samples the first sampled bit is shifted out of the byte and bit 0 is always 0.
  - `Adns5020.PullValueIsShifted` proves the consequence: the result is the sampled byte shifted left once.
  - So bytes pushed and pulled by this driver do not round-trip (`Adns5020.PullOfPushLosesTopBit`).
- **The pin fields are `uint8_t`.** Two comparisons are therefore fixed:
  - `_nreset < 0` is always false, so `reset` always takes the hard-reset branch (`Adns5020.Reset` calls `Adns5020.SoftReset` in a branch it proves dead).
  - `_ncs >= 0` is always true, so `enable` and `disable` always drive NCS.
- **Chip select after a power-up.** `enable` on an unpowered device runs `powerUp`, whose `reset` ends with `disable`. So chip select is left high, and the register reads that follow in `readDelta`, `readBurst` and `identify` run with the chip deselected (`Adns5020.EnableSelectsOnlyWhenPowered`). For the same reason, `resolution(c)` on an unpowered device writes its control byte with the chip deselected (`Adns5020.ResolutionTrace` starts with the unpowered `enable`).
- **The motion flag is lost.** The motion flag is bit 7 of the motion register, the first bit `pullbyte` samples, and `pullbyte` shifts it out. A motion register of 0x80 therefore reads as 0, and `readBurst` skips the burst (`Adns5020.MotionFlagDropped`).
- **Statically allocated driver object.** Fields the constructor leaves unset start at zero, as in the sketch's global object; `_powered` starts true.

## Model

| member | source | states |
|---|---|---|
| `Bytes.ToInt8` | test/ADNS5020.h:45-46 | storing an `int` into `int8_t` keeps it modulo 256 and leaves values in [-128, 127] unchanged; every stored `dx`/`dy` is in [-128, 127] |
| `Adns5020.ReadAddress` | src/ADNS5020.cpp:324-329 | a read address has bit 7 clear and equals the register for registers below 0x80 |
| `Adns5020.WriteAddress` | src/ADNS5020.cpp:332-340 | a write address has bit 7 set and is the register plus 0x80 for registers below 0x80 |
| `Adns5020.RegistersDistinct` | test/ADNS5020.h:12-21 | the ten register constants are pairwise distinct and below 0x80; no read address equals a write address; read (and write) addresses coincide exactly when the registers do |
| `Adns5020.ControlByte` | src/ADNS5020.cpp:263-273 | the control byte has bit 0 set if and only if cpi is 1000, and no other bit set |
| `Adns5020.PixelValue` | src/ADNS5020.cpp:175-177 | a stored pixel is at most 0x7F and keeps the low seven bits of the register value |
| `Adns5020.PushByte` | src/ADNS5020.cpp:310-321 | `pushbyte(d)` consumes no input and appends: data line to output, a delay, then one clock cycle per bit of `d`, most significant first |
| `Adns5020.PushTraceAt` | src/ADNS5020.cpp:310-321 | the push trace has 34 events; cycle k drives the clock low, sets the data line to `(d >> (7 - k)) & 1`, waits a half period, then raises the clock |
| `Adns5020.PushDrivesBits` | src/ADNS5020.cpp:310-321 | the levels driven on the data line during a push are exactly the eight bits of `d`, most significant first |
| `Adns5020.PullByte` | src/ADNS5020.cpp:293-308 | `pullbyte` consumes exactly eight input bits, records each sampled level within one clock cycle, and returns the add-then-shift value of those samples |
| `Adns5020.PullTraceAt` | src/ADNS5020.cpp:293-308 | the pull trace has 2 + 4n events; cycle k drives the clock low, samples level k of the data line, waits a half period and raises the clock |
| `Adns5020.PullValueIsShifted` | src/ADNS5020.cpp:299-305 | the add-then-shift value of the samples equals the most-significant-first byte of those samples shifted left once, modulo 256 |
| `Adns5020.PullValueEven` | src/ADNS5020.cpp:299-305 | bit 0 of a pulled byte is always 0 |
| `Adns5020.PullValueIgnoresFirst` | src/ADNS5020.cpp:299-305 | two 8-sample runs that differ only in the first sample pull the same byte: the first sampled bit does not survive |
| `Adns5020.PullOfPush` | src/ADNS5020.cpp:293-321 | pulling the bits a push of `d` drives gives `d << 1`, not `d` |
| `Adns5020.PullOfPushLosesTopBit` | src/ADNS5020.cpp:293-321 | the bits of 0x80 pull back as 0, so push and pull do not round-trip |
| `Adns5020.ReadRegister` | src/ADNS5020.cpp:324-329 | `readRegister(a)` pushes `a & 0x7F` and then pulls one byte, consuming eight input bits and returning the pulled value |
| `Adns5020.WriteRegister` | src/ADNS5020.cpp:332-340 | `writeRegister(a, v)` pushes `a \| 0x80`, waits, pushes `v` and waits, consuming no input |
| `Adns5020.WriteRegisterLeavesReset` | src/ADNS5020.cpp:332-340 | a register write never drives the reset line |
| `Adns5020.Disable` | src/ADNS5020.cpp:227-233 | `disable` raises chip select and waits the two hold times |
| `Adns5020.SoftReset` | src/ADNS5020.cpp:235-238 | `softReset` writes 0x5a to the chip-reset register and waits 55 ms |
| `Adns5020.HardReset` | src/ADNS5020.cpp:241-246 | `hardReset` pulls the reset line low, waits, raises it and waits for wake-up |
| `Adns5020.HardResetPulses` | src/ADNS5020.cpp:241-246 | a hard reset drives the reset line exactly low then high |
| `Adns5020.NewDriver` | src/ADNS5020.cpp:28-50 | the constructed driver holds the four pins and the configured cpi, is powered, has factor 1, position (0, 0), zero registers and a 225-pixel all-zero frame |
| `Adns5020.Setup` | src/ADNS5020.cpp:28-50 | the constructor's pin work sets the four pin directions, raises reset, deselects, then applies the configured resolution; the driver ends powered and otherwise unchanged |
| `Adns5020.SetupLeavesResetHigh` | src/ADNS5020.cpp:38-49 | on a driver that starts powered, the constructor only raises the reset line and never pulses it: its `resolution` call does not power up |
| `Adns5020.Enable` | src/ADNS5020.cpp:214-220 | `enable` selects the chip and, only when unpowered, runs `powerUp`; only the power flag changes, and it ends true |
| `Adns5020.EnableResetsOnlyWhenUnpowered` | src/ADNS5020.cpp:196-220 | `enable` drives the reset line not at all on a powered device and exactly low-then-high on an unpowered one |
| `Adns5020.PoweredResetPulses` | src/ADNS5020.cpp:196-208 | a reset of a powered device drives the reset line exactly low then high, once |
| `Adns5020.ResolutionLeavesReset` | src/ADNS5020.cpp:263-273 | on a powered device, a resolution change never drives the reset line |
| `Adns5020.SelectLevels` | src/ADNS5020.cpp:214-232 | chip select is last driven low by a select and high by a deselect |
| `Adns5020.EnableSelectsOnlyWhenPowered` | src/ADNS5020.cpp:196-220 | after `enable`, chip select was last driven low if and only if the device was powered; on an unpowered one the power-up reset ends deselected |
| `Adns5020.SelectLeavesReset` | src/ADNS5020.cpp:214-217 | selecting the chip never drives the reset line |
| `Adns5020.DeselectLeavesReset` | src/ADNS5020.cpp:227-232 | deselecting the chip never drives the reset line |
| `Adns5020.Reset` | src/ADNS5020.cpp:196-208 | `reset` enables, always hard-resets (the soft-reset branch is unreachable on `uint8_t`), re-applies the stored cpi and disables; only the power flag changes, and it ends true |
| `Adns5020.PowerDown` | src/ADNS5020.cpp:248-255 | `powerDown` writes the sleep bit 0x02 to the control register only if the device is powered; the power flag always ends false and nothing else changes |
| `Adns5020.PowerUp` | src/ADNS5020.cpp:257-260 | `powerUp` sets the power flag before resetting, so the reset runs as on a powered device |
| `Adns5020.Resolution` | src/ADNS5020.cpp:263-273 | `resolution(c)` enables, writes the control byte for `c`, disables and stores `c` as the cpi |
| `Adns5020.SetDelta` | test/ADNS5020.h:99-102 | `setDelta(rx, ry)` sets `dx` and `dy` and changes nothing else |
| `Adns5020.UpdatePosition` | src/ADNS5020.cpp:161-166 | the position grows by (dx, dy) when the motion register is non-zero, and otherwise stays the same; no other field changes |
| `Adns5020.ReadDelta` | src/ADNS5020.cpp:125-134 | `readDelta` reads motion, delta X, delta Y and squal, in that order, inside one enable/disable, consuming 32 input bits |
| `Adns5020.DeltaStateFields` | src/ADNS5020.cpp:125-134 | after `readDelta`: motion and squal are read bytes 0 and 3; dx and dy are factor times read bytes 1 and 2, stored as `int8_t`; the position moves by them only when motion is non-zero; only those fields and the power flag change |
| `Adns5020.BurstBytes` | src/ADNS5020.cpp:140-149 | the burst pushes 0x63, waits 4 us and pulls exactly seven bytes, in order |
| `Adns5020.ReadBurst` | src/ADNS5020.cpp:137-158 | `readBurst` reads the motion register and sends the burst address and pulls seven bytes only when motion is non-zero, consuming 64 or 8 input bits |
| `Adns5020.BurstStateFields` | src/ADNS5020.cpp:137-166 | zero motion: dx, dy and squal become 0 and everything else, including x, y and the four shutter and pixel registers, is unchanged. Non-zero motion: the seven pulled bytes land in dx, dy, squal, shutter upper, shutter lower, max pixel and pixel sum, in that order, and x, y grow by exactly the new dx, dy |
| `Adns5020.BurstAgreesWithDelta` | src/ADNS5020.cpp:125-158 | on the same input a burst read and a delta read agree on motion; on non-zero motion they also agree on dx, dy, squal and the position; on zero motion neither moves the position |
| `Adns5020.MotionFlagDropped` | src/ADNS5020.cpp:137-158 | a motion register of 0x80 (only the motion flag set) reads as 0, so `readBurst` clears the deltas and leaves the position |
| `Adns5020.GrabPixels` | src/ADNS5020.cpp:171-179 | the capture loop performs exactly 225 reads of register 0x0b and stores read k, masked to 7 bits, at index k |
| `Adns5020.ReadFrame` | src/ADNS5020.cpp:169-180 | `readFrame` writes 1 to 0x0b, then performs 225 reads of 0x0b; every frame entry is the masked pixel value, at most 0x7F; nothing but the frame changes |
| `Adns5020.Identify` | src/ADNS5020.cpp:183-193 | `identify` reads the product and revision registers inside one enable; it reports the device known if and only if the product id is 0x12 |
| `Adns5020.ControlLinesLeaveData` | src/ADNS5020.cpp:214-246 | selecting, deselecting and hard-resetting the chip never drive the data line |
| `Adns5020.ReadRegisterSends` | src/ADNS5020.cpp:324-329 | on the data line a register read sends only its read address, which is the register itself for registers below 0x80; the pulled byte is only sampled |
| `Adns5020.WriteRegisterSends` | src/ADNS5020.cpp:332-340 | on the data line a register write sends the write address and then the value, each most significant bit first, and nothing else |
| `Adns5020.PoweredResolutionSends` | src/ADNS5020.cpp:263-273 | on a powered device, setting the resolution sends exactly one control write, for the new resolution |
| `Adns5020.PoweredResetSends` | src/ADNS5020.cpp:196-208 | a reset of a powered device sends only the control write for the stored cpi: the reset re-applies the stored resolution |
| `Adns5020.EnableSends` | src/ADNS5020.cpp:196-220 | `enable` sends nothing on a powered device, and on an unpowered one exactly the control write for the stored cpi |
| `Adns5020.ResolutionSends` | src/ADNS5020.cpp:263-273 | `resolution(c)` sends what `enable` sends and then exactly one control write, for `c` |
| `Adns5020.PowerDownSends` | src/ADNS5020.cpp:248-255 | `powerDown` sends the write of the sleep bit 0x02 to the control register when powered, and nothing when not |
| `Adns5020.ReadDeltaSends` | src/ADNS5020.cpp:125-134 | after what `enable` sends, `readDelta` addresses 0x02, 0x03, 0x04 and 0x05 in that order and sends nothing else |
| `Adns5020.BurstSends` | src/ADNS5020.cpp:140-149 | the burst sends the burst address 0x63 and nothing else |
| `Adns5020.BurstPullsLeaveData` | src/ADNS5020.cpp:140-149 | the seven pulled burst bytes never drive the data line |
| `Adns5020.IdentifySends` | src/ADNS5020.cpp:183-193 | after what `enable` sends, `identify` addresses the product register 0x00 and then the revision register 0x01, and nothing else |
| `Adns5020.ReadsStep` | src/ADNS5020.cpp:171-179 | one more register read appends that register's address, and nothing else, to what the reads so far sent |
| `Adns5020.ReadsSend` | src/ADNS5020.cpp:171-179 | n reads of a register below 0x80 send its address exactly n times and nothing else |
| `Adns5020.ReadFrameSends` | src/ADNS5020.cpp:169-180 | `readFrame` sends the write of 1 to 0x0b and then the address 0x0b exactly 225 times, and nothing else |
| `Mcs12085.Convert` | src/MCS12085.cpp:123-130 | `convert(b)` is in [-128, 127]; it is `b` below 128 and `b - 256` from 128 on, so it is congruent to `b` modulo 256 |
| `Mcs12085.ConvertIsInt8` | src/MCS12085.cpp:123-130 | `convert` is the same two's-complement reading as a store into `int8_t` |
| `Mcs12085.ConvertSamples` | src/MCS12085.cpp:123-130 | convert(0) = 0, convert(127) = 127, convert(128) = -128, convert(255) = -1 |
| `Mcs12085.MCS12085.constructor` | src/MCS12085.cpp:14-17 | the driver holds the clock and data pins it is given |
| `Mcs12085.MCS12085.Init` | src/MCS12085.cpp:21-29 | `init` makes both lines outputs, clock high and data low; afterwards the clock line is high |
| `Mcs12085.MCS12085.Tick` | src/MCS12085.cpp:32-37 | `tick` drives the clock low, waits a half period, and raises it; afterwards the clock line is high |
| `Mcs12085.MCS12085.Tock` | src/MCS12085.cpp:40-43 | `tock` waits one half period |
| `Mcs12085.ClockHighAfterTick` | src/MCS12085.cpp:32-37 | whatever came before, after a tick the clock was last driven high |
| `Mcs12085.ClockHighAfterInit` | src/MCS12085.cpp:21-29 | after `init` the clock was last driven high |
| `Mcs12085.MCS12085.ReadBit` | src/MCS12085.cpp:47-55 | `read_bit` ticks, samples the data line once and tocks, consuming one input bit |
| `Mcs12085.MCS12085.ReadByte` | src/MCS12085.cpp:58-77 | `read_byte` samples 8 bits without changing the data line's direction (it relies on `write_byte` having made data an input) and returns the byte whose most significant bit is the first sample; it then makes data an output and drives it low, consuming 8 input bits; the clock ends high |
| `Mcs12085.ReadByteTraceAt` | src/MCS12085.cpp:58-77 | read cycle k drives the clock low, raises it and samples sample k; the read ends by switching data to output and driving it low |
| `Mcs12085.SamplesRoundTrip` | src/MCS12085.cpp:58-77 | the bits of the byte `read_byte` returns are exactly the eight samples, in order |
| `Mcs12085.MCS12085.WriteBit` | src/MCS12085.cpp:81-94 | `write_bit(b)` drives data to whether `b` is non-zero, ticks, tocks and drives data low |
| `Mcs12085.MCS12085.WriteByte` | src/MCS12085.cpp:97-108 | `write_byte(w)` writes eight bits and then makes data an input; the clock ends high |
| `Mcs12085.WriteByteCycle` | src/MCS12085.cpp:97-108 | the write trace has 49 events; bit k of `w`, most significant first, occupies events 6k to 6k+5; the last event makes data an input |
| `Mcs12085.WriteByteTraceAt` | src/MCS12085.cpp:81-108 | in write cycle k data is set to `(w >> (7 - k)) & 1`, then the clock pulses, then data is driven low |
| `Mcs12085.LoopbackRoundTrip` | src/MCS12085.cpp:58-108 | `read_byte` fed the bits `write_byte(w)` drives returns `w`, for every byte `w` |
| `Mcs12085.ClockHighAfterWriteByte` | src/MCS12085.cpp:97-108 | after `write_byte` the clock was last driven high |
| `Mcs12085.ClockHighAfterReadByte` | src/MCS12085.cpp:58-77 | after `read_byte` the clock was last driven high |
| `Mcs12085.MCS12085.WrPause` | src/MCS12085.cpp:111-114 | `wr_pause` waits 100 us |
| `Mcs12085.MCS12085.RwPause` | src/MCS12085.cpp:117-120 | `rw_pause` waits 250 us |
| `Mcs12085.MCS12085.ReadX` | src/MCS12085.cpp:133-140 | `read_x` writes command 0x02, pauses 100 us, reads exactly one byte, pauses 250 us and returns the converted byte |
| `Mcs12085.MCS12085.ReadY` | src/MCS12085.cpp:143-150 | `read_y` writes command 0x03, pauses 100 us, reads exactly one byte, pauses 250 us and returns the converted byte |
| `Host.HexDigit` | src/main.cpp:77-78 | a nibble's digit is in '0'..'9' or 'A'..'F' |
| `Host.EncodedAt` | src/main.cpp:75-78 | character 2i encodes the high nibble of byte i and character 2i+1 its low nibble |
| `Host.EncodedAlphabet` | src/main.cpp:77-78 | every character of an encoding is in '0'..'9' or 'A'..'F' |
| `Host.EncodedPair` | src/main.cpp:75-78 | decoding the pair at 2i, 2i+1 recovers byte i |
| `Host.EncodedRoundTrip` | src/main.cpp:71-81 | decoding an encoding gives back the bytes |
| `Host.ArrayToString` | src/main.cpp:71-81 | the first 2·len characters become the encoding of the first len bytes, a NUL follows at 2·len, and nothing beyond is written |
| `Host.ShowUid` | src/main.cpp:150-152 | the call with four UID bytes and the 80-character global buffer (src/main.cpp:51): four UID bytes fit the 80-character buffer: eight digits, then a NUL at 8, which decode back to the UID |
| `Host.SelectCalls` | src/main.cpp:53-69 | `spi_select` makes no call if and only if the device already holds the bus, and otherwise begins with `SPI.end()` |
| `Host.SpiBus.constructor` | src/main.cpp:50 | `current_spi` starts at -1, the not-started state |
| `Host.SpiBus.Select` | src/main.cpp:53-69 | afterwards `current_spi` is the selected device, and the calls made are those for the previous holder and the new one |
| `Host.SelectIdempotent` | src/main.cpp:53-69 | selecting the same device twice makes the calls of selecting it once |

## Left out

- The ADNS-5020 driver object and its frame are values handed from call to call (`Adns5020.Driver`), not an object updated in place. So the model does not capture aliasing of the driver object, or the frame array being written in place.
- Pin I/O and timing are modelled as trace events and a supplied input bit stream; elapsed time is not modelled.
  - Pin I/O: `pinMode`, `digitalWrite`, `digitalRead`.
  - Timing: `delayMicroseconds`, `delay`.
  - A read past the end of the supplied stream samples LOW.
- Serial and display output is not modelled: `mousecamOutput`, `printDelta`, `printAll`, `printShort`, `printd3`, and the printing in `identify`. Only the product-id comparison of `identify` is kept.
- Floating point is not modelled: `setTransform`, `transformDx`, `transformDy`, and the `sqrt` distance sum in `loop`.
- `setup` and `loop` of the sketch are not modelled. The SSD1306 display, MFRC522 and LoRa libraries are calls into code that is not part of this model.
  - `SPI.end`, `SPI.begin` and `mfrc522.PCD_Init` appear as `Host.SpiCall` events.
  - The UID bytes are a parameter of `Host.ShowUid`.
- src/MCS12085.h holds declarations only and has nothing to model.
- `Adns5020.SoftReset` is modelled as an operation, but `reset` never reaches it: the `_nreset < 0` test on a `uint8_t` is always false.
- `Adns5020.Setup`: the constructor's field assignments are split out as `Adns5020.NewDriver`, and `Adns5020.Setup` runs on the driver `NewDriver` returns, in the source's order. The pin set-up reads the pins and cpi that the assignments wrote; of the fields, `Setup` itself writes only `_cpi` (to the same value) and `_powered`.
- `Adns5020.UpdatePosition`, `Adns5020.DeltaStateFields`, `Adns5020.BurstStateFields`: `x` and `y` are unbounded; overflow of the source's `int` position is not modelled. The same holds for `factor`; the products `factor * pullbyte()` are truncated to `int8_t` exactly as stored.
- `Host.ArrayToString`: requires that the byte array and the character buffer are different arrays, because they have different element types in the source. Overflow of the `unsigned int` index `i*2` is not modelled.
- `Host.SpiBus.Select`: the SPI pin numbers and which library object is initialised are abstracted into the `Host.SpiCall` events.
