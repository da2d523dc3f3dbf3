/**
 * The host sketch's two small pieces of logic: the hexadecimal encoding of
 * an RFID card's UID into the caller's character buffer, and the selection
 * of which device owns the shared SPI bus.
 */
module Host {
  import opened Bytes

  // ---------------------------------------------------------------------
  // Hexadecimal encoding

  /** The upper four bits of `b`, `(b >> 4) & 0x0F`. */
  function HighNibble(b: Byte): (n: Byte)
    ensures n < 16
  {
    (b >> 4) & 0x0F
  }

  /** The lower four bits of `b`, `(b >> 0) & 0x0F`. */
  function LowNibble(b: Byte): (n: Byte)
    ensures n < 16
  {
    (b >> 0) & 0x0F
  }

  /** A nibble as an upper-case hexadecimal digit: `'0' + n` below ten, `'A' + n - 10` from ten on. */
  function HexDigit(n: Byte): (c: char)
    requires n < 16
    ensures '0' <= c <= '9' || 'A' <= c <= 'F'
  {
    if n < 0xA then ('0' as int + n as int) as char else ('A' as int + n as int - 0xA) as char
  }

  /** The value of an upper-case hexadecimal digit; anything else reads as 0. */
  function HexValue(c: char): Byte
  {
    if '0' <= c <= '9' then (c as int - '0' as int) as Byte
    else if 'A' <= c <= 'F' then (c as int - 'A' as int + 0xA) as Byte
    else 0
  }

  /** What `array_to_string` writes for `bytes`: two digits per byte, high nibble first. */
  function Encoded(bytes: seq<Byte>): (s: seq<char>)
    ensures |s| == 2 * |bytes|
  {
    seq(2 * |bytes|, j requires 0 <= j < 2 * |bytes| =>
      if j % 2 == 0 then HexDigit(HighNibble(bytes[j / 2])) else HexDigit(LowNibble(bytes[j / 2])))
  }

  /** The byte whose upper nibble is `high` and whose lower nibble is `low`. */
  function JoinNibbles(high: Byte, low: Byte): Byte
  {
    (high << 4) | low
  }

  /** Reading a string of digit pairs back into bytes. */
  function Decoded(s: seq<char>): (bytes: seq<Byte>)
    ensures |bytes| == |s| / 2
  {
    seq(|s| / 2, i requires 0 <= i < |s| / 2 => JoinNibbles(HexValue(s[2 * i]), HexValue(s[2 * i + 1])))
  }

  /** Byte i is written as its high digit at 2i and its low digit at 2i + 1. */
  lemma EncodedAt(bytes: seq<Byte>, i: nat)
    requires i < |bytes|
    ensures Encoded(bytes)[2 * i] == HexDigit(HighNibble(bytes[i]))
    ensures Encoded(bytes)[2 * i + 1] == HexDigit(LowNibble(bytes[i]))
  {
    assert (2 * i) % 2 == 0 && (2 * i) / 2 == i;
    assert (2 * i + 1) % 2 == 1 && (2 * i + 1) / 2 == i;
  }

  /** Every digit reads back as the nibble it was written for. */
  lemma HexDigitValue(n: Byte)
    requires n < 16
    ensures HexValue(HexDigit(n)) == n
  {
    if n < 0xA {
      assert HexDigit(n) as int - '0' as int == n as int;
    } else {
      assert HexDigit(n) as int - 'A' as int + 0xA == n as int;
    }
  }

  /** A byte is its two nibbles put back together. */
  lemma NibblesJoin(b: Byte)
    ensures JoinNibbles(HighNibble(b), LowNibble(b)) == b
  {
  }

  /** Every character of an encoding is a hexadecimal digit. */
  lemma EncodedAlphabet(bytes: seq<Byte>, j: nat)
    requires j < |Encoded(bytes)|
    ensures '0' <= Encoded(bytes)[j] <= '9' || 'A' <= Encoded(bytes)[j] <= 'F'
  {
  }

  /** The digit pair at 2i, 2i + 1 decodes to byte i. */
  lemma {:induction false} EncodedPair(bytes: seq<Byte>, i: nat)
    requires i < |bytes|
    ensures JoinNibbles(HexValue(Encoded(bytes)[2 * i]), HexValue(Encoded(bytes)[2 * i + 1])) == bytes[i]
  {
    EncodedAt(bytes, i);
    HexDigitValue(HighNibble(bytes[i]));
    HexDigitValue(LowNibble(bytes[i]));
    NibblesJoin(bytes[i]);
  }

  /** Decoding an encoding gives the bytes back. */
  lemma EncodedRoundTrip(bytes: seq<Byte>)
    ensures Decoded(Encoded(bytes)) == bytes
  {
    var d := Decoded(Encoded(bytes));
    forall i | 0 <= i < |bytes|
      ensures d[i] == bytes[i]
    {
      EncodedPair(bytes, i);
    }
  }

  /**
   * `array_to_string(array, len, buffer)`: the first `2 * len` characters
   * of `buffer` become the encoding of the first `len` bytes of `array`, a
   * NUL follows at index `2 * len`, and nothing beyond it is written. The
   * caller must supply `len` bytes and room for `2 * len + 1` characters.
   */
  method ArrayToString(bytes: array<Byte>, len: nat, buffer: array<char>)
    requires len <= bytes.Length && 2 * len < buffer.Length
    requires bytes as object != buffer as object
    modifies buffer
    ensures buffer[..2 * len] == Encoded(bytes[..len])
    ensures buffer[2 * len] == '\0'
    ensures buffer[2 * len + 1..] == old(buffer[2 * len + 1..])
  {
    ghost var encoded := Encoded(bytes[..len]);
    for i := 0 to len
      invariant forall j :: 0 <= j < 2 * i ==> buffer[j] == encoded[j]
      invariant forall j :: 2 * i <= j < buffer.Length ==> buffer[j] == old(buffer[j])
    {
      var nib1 := (bytes[i] >> 4) & 0x0F;
      var nib2 := (bytes[i] >> 0) & 0x0F;
      EncodedAt(bytes[..len], i);
      buffer[i * 2 + 0] := HexDigit(nib1);
      buffer[i * 2 + 1] := HexDigit(nib2);
    }
    buffer[len * 2] := '\0';
  }

  /** The UID's length at the call site. */
  const UID_LENGTH := 4

  /** The length of the sketch's global `buffer`. */
  const BUFFER_LENGTH := 80

  /**
   * The call in `loop`: four UID bytes into the 80-character global
   * buffer, which holds the eight digits and the NUL.
   */
  method ShowUid(uid: array<Byte>, buffer: array<char>)
    requires UID_LENGTH <= uid.Length && buffer.Length == BUFFER_LENGTH
    requires uid as object != buffer as object
    modifies buffer
    ensures buffer[..2 * UID_LENGTH] == Encoded(uid[..UID_LENGTH])
    ensures buffer[2 * UID_LENGTH] == '\0'
    ensures Decoded(buffer[..2 * UID_LENGTH]) == uid[..UID_LENGTH]
  {
    ArrayToString(uid, UID_LENGTH, buffer);
    EncodedRoundTrip(uid[..UID_LENGTH]);
  }

  // ---------------------------------------------------------------------
  // SPI bus selection

  /** `current_spi` before any device has been selected. */
  const NOT_STARTED := -1

  /** The RFID reader. */
  const RFID := 0

  /** The LoRa radio. */
  const LORA := 1

  /** The library calls `spi_select` makes, in order. */
  datatype SpiCall =
    | SpiEnd                // SPI.end()
    | SpiBegin(device: int) // SPI.begin with the device's pins
    | RfidInit              // mfrc522.PCD_Init()

  /** The calls `spi_select(which)` makes when the bus is held by `current`. */
  function SelectCalls(current: int, which: int): (calls: seq<SpiCall>)
    ensures which == current <==> calls == []
    ensures calls != [] ==> calls[0] == SpiEnd
  {
    if which == current then []
    else if which == RFID then [SpiEnd, SpiBegin(RFID), RfidInit]
    else if which == LORA then [SpiEnd, SpiBegin(LORA)]
    else [SpiEnd]
  }

  /** The global `current_spi` together with the library calls made so far. */
  class SpiBus {
    var current: int
    var calls: seq<SpiCall>

    /** At start-up no device holds the bus and no call has been made. */
    constructor ()
      ensures current == NOT_STARTED && calls == []
    {
      current := NOT_STARTED;
      calls := [];
    }

    /** `spi_select(which)`. */
    method Select(which: int)
      modifies this
      ensures current == which
      ensures calls == old(calls) + SelectCalls(old(current), which)
    {
      if which == current {
        return;
      }
      calls := calls + [SpiEnd];
      if which == RFID {
        calls := calls + [SpiBegin(RFID)];
        calls := calls + [RfidInit];
      } else if which == LORA {
        calls := calls + [SpiBegin(LORA)];
      }
      current := which;
    }
  }

  /** Selecting the same device twice makes the calls of selecting it once and leaves it holding the bus. */
  lemma SelectIdempotent(current: int, which: int)
    ensures SelectCalls(current, which) + SelectCalls(which, which) == SelectCalls(current, which)
  {
    assert SelectCalls(which, which) == [];
  }
}
