/**
 * A simulated Arduino pin interface. The drivers talk to the chips only
 * through `pinMode`, `digitalWrite`, `digitalRead`, `delayMicroseconds` and
 * `delay`; here these append an event to a trace, and `digitalRead` takes
 * the next level from a supplied stream of input bits. Elapsed time is not
 * modelled: a delay is an event carrying its length.
 */
module Arduino {
  import opened Bytes

  /** Pin numbers are `uint8_t` in both drivers. */
  type Pin = Byte

  datatype Option<T> = None | Some(value: T)

  /** `INPUT` / `OUTPUT` for `pinMode`. */
  datatype Direction = Input | Output

  datatype Event =
    | SetMode(pin: Pin, dir: Direction)   // pinMode(pin, dir)
    | Drive(pin: Pin, high: bool)         // digitalWrite(pin, HIGH or LOW)
    | Sample(pin: Pin, high: bool)        // digitalRead(pin), with the level it returned
    | DelayUs(us: nat)                    // delayMicroseconds(us)
    | DelayMs(ms: nat)                    // delay(ms)

  /** The level the next `digitalRead` returns; an exhausted stream reads LOW. */
  function Next(s: seq<bool>): bool
  {
    |s| > 0 && s[0]
  }

  /** The input stream after `n` reads. */
  function Drop(s: seq<bool>, n: nat): (r: seq<bool>)
    ensures |r| == if n <= |s| then |s| - n else 0
  {
    if n <= |s| then s[n..] else []
  }

  /** The levels that `n` reads return, in order. */
  function Take(s: seq<bool>, n: nat): (r: seq<bool>)
    ensures |r| == n
  {
    seq(n, i requires 0 <= i < n => i < |s| && s[i])
  }

  lemma DropDrop(s: seq<bool>, a: nat, b: nat)
    ensures Drop(Drop(s, a), b) == Drop(s, a + b)
  {
  }

  /** Taking one more read extends the levels read so far by the next level. */
  lemma TakeStep(s: seq<bool>, n: nat)
    ensures Take(s, n + 1) == Take(s, n) + [Next(Drop(s, n))]
  {
  }

  /**
   * The events of a bit-serial transfer: one clock cycle per bit, in order,
   * each cycle's events given by `cycle` for that bit's level.
   */
  function PerBit(bits: seq<bool>, cycle: bool -> seq<Event>): seq<Event>
  {
    if bits == [] then []
    else PerBit(bits[..|bits| - 1], cycle) + cycle(bits[|bits| - 1])
  }

  /** One more bit appends one more cycle. */
  lemma PerBitStep(bits: seq<bool>, k: nat, cycle: bool -> seq<Event>)
    requires k < |bits|
    ensures PerBit(bits[..k + 1], cycle) == PerBit(bits[..k], cycle) + cycle(bits[k])
  {
    assert bits[..k + 1][..k] == bits[..k];
  }

  /** Appending segments one after another appends their concatenation. */
  lemma Append3(t: seq<Event>, a: seq<Event>, b: seq<Event>, c: seq<Event>)
    ensures t + a + b + c == t + (a + b + c)
  {
  }

  lemma Append4(t: seq<Event>, a: seq<Event>, b: seq<Event>, c: seq<Event>, d: seq<Event>)
    ensures t + a + b + c + d == t + (a + b + c + d)
  {
  }

  lemma Append5(t: seq<Event>, a: seq<Event>, b: seq<Event>, c: seq<Event>, d: seq<Event>, e: seq<Event>)
    ensures t + a + b + c + d + e == t + (a + b + c + d + e)
  {
  }

  lemma Append6(t: seq<Event>, a: seq<Event>, b: seq<Event>, c: seq<Event>, d: seq<Event>, e: seq<Event>,
                f: seq<Event>)
    ensures t + a + b + c + d + e + f == t + (a + b + c + d + e + f)
  {
  }

  lemma Append7(t: seq<Event>, a: seq<Event>, b: seq<Event>, c: seq<Event>, d: seq<Event>, e: seq<Event>,
                f: seq<Event>, g: seq<Event>)
    ensures t + a + b + c + d + e + f + g == t + (a + b + c + d + e + f + g)
  {
  }

  /** A slice of `p` is the same slice, moved by |h|, of `h + p`. */
  lemma SliceAfter(h: seq<Event>, p: seq<Event>, i: nat, j: nat)
    requires i <= j <= |p|
    ensures (h + p)[|h| + i .. |h| + j] == p[i..j]
  {
  }

  /** With cycles of n events each, a transfer of m bits lasts n * m events and cycle k starts at n * k. */
  lemma {:induction false} PerBitAt(bits: seq<bool>, cycle: bool -> seq<Event>, n: nat, k: nat)
    requires forall b :: |cycle(b)| == n
    requires k < |bits|
    ensures |PerBit(bits, cycle)| == n * |bits|
    ensures n * k + n <= n * |bits|
    ensures PerBit(bits, cycle)[n * k .. n * k + n] == cycle(bits[k])
  {
    var m := |bits| - 1;
    var prefix := bits[..m];
    if k < m {
      PerBitAt(prefix, cycle, n, k);
      assert prefix[k] == bits[k];
    } else {
      PerBitLength(prefix, cycle, n);
    }
    assert n * |bits| == n * m + n;
  }

  lemma {:induction false} PerBitLength(bits: seq<bool>, cycle: bool -> seq<Event>, n: nat)
    requires forall b :: |cycle(b)| == n
    ensures |PerBit(bits, cycle)| == n * |bits|
  {
    if bits != [] {
      PerBitLength(bits[..|bits| - 1], cycle, n);
      assert n * |bits| == n * (|bits| - 1) + n;
    }
  }

  /** The level `pin` was last driven to in trace `t`, if it was driven at all. */
  function LastDriven(t: seq<Event>, pin: Pin): Option<bool>
  {
    if t == [] then None
    else if t[|t| - 1].Drive? && t[|t| - 1].pin == pin then Some(t[|t| - 1].high)
    else LastDriven(t[..|t| - 1], pin)
  }

  /** Whatever came before, a trace segment that drives `pin` decides its level. */
  lemma {:induction false} LastDrivenAppend(t: seq<Event>, u: seq<Event>, pin: Pin)
    requires LastDriven(u, pin).Some?
    ensures LastDriven(t + u, pin) == LastDriven(u, pin)
  {
    var last := u[|u| - 1];
    assert (t + u)[|t + u| - 1] == last;
    if !(last.Drive? && last.pin == pin) {
      assert (t + u)[..|t + u| - 1] == t + u[..|u| - 1];
      LastDrivenAppend(t, u[..|u| - 1], pin);
    }
  }

  /** A segment that never drives `pin` leaves its level as it was. */
  lemma {:induction false} LastDrivenUntouched(t: seq<Event>, u: seq<Event>, pin: Pin)
    requires forall i :: 0 <= i < |u| ==> !(u[i].Drive? && u[i].pin == pin)
    ensures LastDriven(t + u, pin) == LastDriven(t, pin)
  {
    if u != [] {
      assert (t + u)[|t + u| - 1] == u[|u| - 1];
      assert (t + u)[..|t + u| - 1] == t + u[..|u| - 1];
      LastDrivenUntouched(t, u[..|u| - 1], pin);
    } else {
      assert t + u == t;
    }
  }

  /** The level event `e` drives `pin` to, if it drives `pin`. */
  function Level(e: Event, pin: Pin): seq<bool>
  {
    if e.Drive? && e.pin == pin then [e.high] else []
  }

  /** The levels `pin` was driven to in trace `t`, in order. */
  function Driven(t: seq<Event>, pin: Pin): seq<bool>
  {
    if t == [] then [] else Driven(t[..|t| - 1], pin) + Level(t[|t| - 1], pin)
  }

  lemma DrivenSnoc(t: seq<Event>, e: Event, pin: Pin)
    ensures Driven(t + [e], pin) == Driven(t, pin) + Level(e, pin)
  {
    assert (t + [e])[..|t|] == t;
  }

  lemma DrivenOf2(a: Event, b: Event, pin: Pin)
    ensures Driven([a, b], pin) == Level(a, pin) + Level(b, pin)
  {
    DrivenSnoc([], a, pin);
    assert [] + [a] == [a];
    DrivenSnoc([a], b, pin);
    assert [a] + [b] == [a, b];
  }

  lemma DrivenOf3(a: Event, b: Event, c: Event, pin: Pin)
    ensures Driven([a, b, c], pin) == Level(a, pin) + Level(b, pin) + Level(c, pin)
  {
    DrivenOf2(a, b, pin);
    DrivenSnoc([a, b], c, pin);
    assert [a, b] + [c] == [a, b, c];
  }

  lemma DrivenOf4(a: Event, b: Event, c: Event, d: Event, pin: Pin)
    ensures Driven([a, b, c, d], pin) == Level(a, pin) + Level(b, pin) + Level(c, pin) + Level(d, pin)
  {
    DrivenOf3(a, b, c, pin);
    DrivenSnoc([a, b, c], d, pin);
    assert [a, b, c] + [d] == [a, b, c, d];
  }

  lemma {:induction false} DrivenAppend(t: seq<Event>, u: seq<Event>, pin: Pin)
    ensures Driven(t + u, pin) == Driven(t, pin) + Driven(u, pin)
  {
    if u == [] {
      assert t + u == t;
    } else {
      assert (t + u)[|t + u| - 1] == u[|u| - 1];
      assert (t + u)[..|t + u| - 1] == t + u[..|u| - 1];
      DrivenAppend(t, u[..|u| - 1], pin);
    }
  }

  /** The levels driven by two segments, one after the other. */
  lemma DrivenJoin(t: seq<Event>, u: seq<Event>, pin: Pin, x: seq<bool>, y: seq<bool>)
    requires Driven(t, pin) == x && Driven(u, pin) == y
    ensures Driven(t + u, pin) == x + y
  {
    DrivenAppend(t, u, pin);
  }

  /** A transfer whose every cycle drives `pin` once, to the bit's level, drives `pin` to exactly the bits. */
  lemma {:induction false} DrivenPerBit(bits: seq<bool>, cycle: bool -> seq<Event>, pin: Pin)
    requires Driven(cycle(false), pin) == [false] && Driven(cycle(true), pin) == [true]
    ensures Driven(PerBit(bits, cycle), pin) == bits
  {
    if bits != [] {
      var m := |bits| - 1;
      var prefix, b := bits[..m], bits[m];
      assert bits == prefix + [b];
      assert PerBit(bits, cycle) == PerBit(prefix, cycle) + cycle(b);
      DrivenPerBit(prefix, cycle, pin);
      DrivenAppend(PerBit(prefix, cycle), cycle(b), pin);
    }
  }

  /** A transfer whose cycles never drive `pin` leaves it alone. */
  lemma {:induction false} UndrivenPerBit(bits: seq<bool>, cycle: bool -> seq<Event>, pin: Pin)
    requires Driven(cycle(false), pin) == [] && Driven(cycle(true), pin) == []
    ensures Driven(PerBit(bits, cycle), pin) == []
  {
    if bits != [] {
      var m := |bits| - 1;
      var prefix, b := bits[..m], bits[m];
      assert PerBit(bits, cycle) == PerBit(prefix, cycle) + cycle(b);
      UndrivenPerBit(prefix, cycle, pin);
      DrivenAppend(PerBit(prefix, cycle), cycle(b), pin);
    }
  }

  /** The eight levels that read number k of a run of eight-bit reads returns. */
  function Octet(s: seq<bool>, k: nat): (r: seq<bool>)
    ensures |r| == 8
  {
    Take(Drop(s, 8 * k), 8)
  }

  /** After k eight-bit reads the stream has moved on by 8 * k levels. */
  lemma OctetNext(s: seq<bool>, k: nat)
    ensures Drop(Drop(s, 8 * k), 8) == Drop(s, 8 * (k + 1))
  {
    DropDrop(s, 8 * k, 8);
  }

  /**
   * The pins, as the drivers see them: `input` holds the levels the data
   * line will present to successive `digitalRead` calls, `trace` records
   * every call made so far. The drivers hand the pins from call to call as
   * a value: each call takes them as they are and gives them back as they
   * become.
   */
  datatype Pins = Pins(input: seq<bool>, trace: seq<Event>)

  /** `pinMode(pin, dir)`. */
  function PinMode(io: Pins, pin: Pin, dir: Direction): Pins
  {
    io.(trace := io.trace + [SetMode(pin, dir)])
  }

  /** `digitalWrite(pin, high)`. */
  function DigitalWrite(io: Pins, pin: Pin, high: bool): Pins
  {
    io.(trace := io.trace + [Drive(pin, high)])
  }

  /** `delayMicroseconds(us)`. */
  function DelayMicroseconds(io: Pins, us: nat): Pins
  {
    io.(trace := io.trace + [DelayUs(us)])
  }

  /** `delay(ms)`. */
  function Delay(io: Pins, ms: nat): Pins
  {
    io.(trace := io.trace + [DelayMs(ms)])
  }

  /** `digitalRead(pin)`: the next level of the stream, which the read consumes and records. */
  method DigitalRead(io: Pins, pin: Pin) returns (high: bool, io': Pins)
    ensures high == Next(io.input)
    ensures io'.input == Drop(io.input, 1)
    ensures io'.trace == io.trace + [Sample(pin, high)]
  {
    high := Next(io.input);
    io' := Pins(Drop(io.input, 1), io.trace + [Sample(pin, high)]);
  }
}
