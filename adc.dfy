/**
 * Model of adc.c: decoding the ADS1115 conversion register and the
 * conversion-ready counter that pigpio calls on every edge of the ALERT
 * line.  The I2C read result is an input; ReadConversion (the consumer of
 * each reading) is an output value; register programming is outside the
 * model.
 */
module Adc {
  import opened Wrappers

  newtype byte = x: int | 0 <= x < 0x100
  newtype uint32 = x: int | 0 <= x < 0x1_0000_0000

  /** Length of the counting window, in pigpio ticks (microseconds). */
  const WindowTicks: int := 1000000

  // ---------------------------------------------------------------------
  // Sample decoding (ReadConversionRegister)

  /**
   * Conversion of an int to int16_t as the target compiler does it: the
   * one value in [-32768, 32767] congruent to w modulo 2^16.
   */
  function Int16Of(w: int): (v: int)
    ensures -0x8000 <= v < 0x8000
    ensures (w - v) % 0x1_0000 == 0
  {
    var m := w % 0x1_0000;
    if m < 0x8000 then m else m - 0x1_0000
  }

  /**
   * `readBuf[1] << 8 | readBuf[0]`: the low byte fills exactly the bits
   * the shifted high byte leaves clear, so the word is hi * 256 + lo.
   */
  function Word(lo: byte, hi: byte): (w: int)
    ensures 0 <= w < 0x1_0000
    ensures w % 0x100 == lo as int && w / 0x100 == hi as int
  {
    hi as int * 0x100 + lo as int
  }

  /** The register word stored into int16_t `val`: the two's-complement reading of the word. */
  function RawSample(lo: byte, hi: byte): (raw: int)
    ensures raw < 0 <==> hi >= 0x80
    ensures raw == Word(lo, hi) - (if hi >= 0x80 then 0x1_0000 else 0)
  {
    Int16Of(Word(lo, hi))
  }

  /**
   * The value ReadConversionRegister leaves in `val`: negative readings
   * become 0, so the result is in [0, 32767]; a high byte of 0x80 or more
   * gives 0 and any other reading is the word itself.
   */
  function DecodeSample(lo: byte, hi: byte): (val: int)
    ensures 0 <= val < 0x8000
    ensures hi >= 0x80 ==> val == 0
    ensures hi < 0x80 ==> val == hi as int * 256 + lo as int
  {
    var raw := RawSample(lo, hi);
    if raw < 0 then 0 else raw
  }

  /** Every non-negative 16-bit value survives being sent low byte first and decoded. */
  lemma DecodeSampleRoundTrip(v: int)
    requires 0 <= v < 0x8000
    ensures DecodeSample((v % 0x100) as byte, (v / 0x100) as byte) == v
  {
  }

  /** Two readings with the sign bit clear decode alike only when they are the same bytes. */
  lemma DecodeSampleInjective(lo1: byte, hi1: byte, lo2: byte, hi2: byte)
    requires hi1 < 0x80 && hi2 < 0x80
    requires DecodeSample(lo1, hi1) == DecodeSample(lo2, hi2)
    ensures lo1 == lo2 && hi1 == hi2
  {
    var w := Word(lo1, hi1);
    assert w == Word(lo2, hi2);
  }

  /** What `read(fd, readBuf, 2)` produced: an error, or the bytes it transferred. */
  datatype ReadOutcome = ReadFailed | Received(bytes: seq<byte>)

  datatype AdcError = ReadConversionFailed

  /**
   * A read that does not return exactly 2 bytes is fatal (perror and
   * exit); otherwise the value is the decoded sample.
   */
  function DecodeRead(r: ReadOutcome): (res: Result<int, AdcError>)
    ensures res.Failure? <==> !(r.Received? && |r.bytes| == 2)
    ensures res.Success? ==> 0 <= res.value < 0x8000
    ensures res.Success? && r.bytes[1] < 0x80 ==> res.value == Word(r.bytes[0], r.bytes[1])
  {
    if r.Received? && |r.bytes| == 2 then Success(DecodeSample(r.bytes[0], r.bytes[1]))
    else Failure(ReadConversionFailed)
  }

  // ---------------------------------------------------------------------
  // Conversion-ready counter (OnConversionReady)

  /** The globals startTick, conversionCount (an int16_t) and previousTick. */
  datatype Counter = Counter(startTick: uint32, conversionCount: int, previousTick: uint32)

  /** The arguments of ReadConversion(conversionCount, tick - startTick). */
  datatype Reading = Reading(count: int, elapsed: uint32)

  /** The counter after one callback, and the reading it passed on, if any. */
  datatype Transition = Transition(next: Counter, sent: Option<Reading>)

  /** `tick - startTick` in unsigned 32-bit arithmetic: wraps when the tick counter has. */
  function Elapsed(tick: uint32, start: uint32): (e: uint32)
    ensures tick >= start ==> e as int == tick as int - start as int
    ensures tick < start ==> e as int == tick as int + 0x1_0000_0000 - start as int
  {
    ((tick as int - start as int) % 0x1_0000_0000) as uint32
  }

  /**
   * The effect of one OnConversionReady(gpio, level, tick) call.  A
   * falling edge changes nothing and sends nothing.  A rising edge first
   * opens a window if none is open (startTick == 0), then either restarts
   * the window (more than WindowTicks elapsed) or counts one conversion,
   * sends the count and the time since the window start, and records the
   * tick.
   */
  function OnEdge(s: Counter, level: int, tick: uint32): (t: Transition)
    ensures level == 0 ==> t == Transition(s, None)
    ensures level != 0 ==>
      && t.sent.Some?
      && t.next.previousTick == tick
      && t.sent.value == Reading(t.next.conversionCount, Elapsed(tick, t.next.startTick))
      && t.sent.value.elapsed as int <= WindowTicks
      && -0x8000 <= t.next.conversionCount < 0x8000
    ensures level != 0 && s.startTick == 0 ==>
      t.next.startTick == tick && t.next.conversionCount == 1 && t.sent.value.elapsed == 0
    ensures level != 0 && s.startTick != 0 && Elapsed(tick, s.startTick) as int > WindowTicks ==>
      t.next.startTick == tick && t.next.conversionCount == 0 && t.sent.value.elapsed == 0
    ensures level != 0 && s.startTick != 0 && Elapsed(tick, s.startTick) as int <= WindowTicks ==>
      && t.next.startTick == s.startTick
      && t.next.conversionCount == Int16Of(s.conversionCount + 1)
      && t.sent.value.elapsed == Elapsed(tick, s.startTick)
  {
    if level == 0 then Transition(s, None)
    else
      var windowed := if s.startTick == 0 then s.(startTick := tick, conversionCount := 0) else s;
      var counted :=
        if Elapsed(tick, windowed.startTick) as int > WindowTicks
        then windowed.(startTick := tick, conversionCount := 0)
        else windowed.(conversionCount := Int16Of(windowed.conversionCount + 1));
      var next := counted.(previousTick := tick);
      Transition(next, Some(Reading(next.conversionCount, Elapsed(tick, next.startTick))))
  }

  /**
   * One callback as pigpio makes it: level 0 is a falling edge, 1 a rising
   * edge, and 2 a watchdog timeout.  adc.c sets no watchdog, so level 2 does
   * not arise; were it to, the callback would treat it like a rising edge,
   * as it tests only `level == 0`.
   */
  datatype Edge = Edge(level: int, tick: uint32)

  /** The counter after a series of callbacks and the readings they passed on, in order. */
  datatype Trace = Trace(final: Counter, readings: seq<Reading>)

  function Run(s: Counter, edges: seq<Edge>): Trace
    decreases |edges|
  {
    if edges == [] then Trace(s, [])
    else
      var t := OnEdge(s, edges[0].level, edges[0].tick);
      var rest := Run(t.next, edges[1..]);
      Trace(rest.final, (if t.sent.Some? then [t.sent.value] else []) + rest.readings)
  }

  /** The callbacks of `edges` whose level is not 0, in order. */
  function RisingEdges(edges: seq<Edge>): (rs: seq<Edge>)
    ensures forall e <- rs :: e.level != 0
  {
    if edges == [] then []
    else (if edges[0].level != 0 then [edges[0]] else []) + RisingEdges(edges[1..])
  }

  /** Tick of the last rising edge in `edges`, or `otherwise` when there is none. */
  function LastRisingTick(edges: seq<Edge>, otherwise: uint32): uint32
  {
    if edges == [] then otherwise
    else LastRisingTick(edges[1..], if edges[0].level != 0 then edges[0].tick else otherwise)
  }

  /** Every rising edge passes exactly one reading to ReadConversion; falling edges pass none. */
  lemma {:induction false} RunReadsOncePerRisingEdge(s: Counter, edges: seq<Edge>)
    ensures |Run(s, edges).readings| == |RisingEdges(edges)|
    decreases |edges|
  {
    if edges != [] {
      RunReadsOncePerRisingEdge(OnEdge(s, edges[0].level, edges[0].tick).next, edges[1..]);
    }
  }

  /** Every elapsed value passed to ReadConversion lies within the one-second window. */
  lemma {:induction false} RunElapsedWithinWindow(s: Counter, edges: seq<Edge>)
    ensures forall r <- Run(s, edges).readings :: r.elapsed as int <= WindowTicks
    decreases |edges|
  {
    if edges != [] {
      RunElapsedWithinWindow(OnEdge(s, edges[0].level, edges[0].tick).next, edges[1..]);
    }
  }

  /** previousTick always holds the tick of the latest rising edge. */
  lemma {:induction false} RunPreviousTick(s: Counter, edges: seq<Edge>)
    ensures Run(s, edges).final.previousTick == LastRisingTick(edges, s.previousTick)
    decreases |edges|
  {
    if edges != [] {
      var t := OnEdge(s, edges[0].level, edges[0].tick);
      RunPreviousTick(t.next, edges[1..]);
    }
  }

  /** Dropping the falling edges changes neither the final counter nor the readings. */
  lemma {:induction false} RunIgnoresFallingEdges(s: Counter, edges: seq<Edge>)
    ensures Run(s, RisingEdges(edges)) == Run(s, edges)
    decreases |edges|
  {
    if edges != [] {
      var t := OnEdge(s, edges[0].level, edges[0].tick);
      RunIgnoresFallingEdges(t.next, edges[1..]);
      var rest := Run(t.next, edges[1..]);
      if edges[0].level != 0 {
        var rs := RisingEdges(edges);
        assert rs == [edges[0]] + RisingEdges(edges[1..]);
        assert rs[0] == edges[0] && rs[1..] == RisingEdges(edges[1..]);
        assert Run(s, rs) == Trace(rest.final, [t.sent.value] + rest.readings);
      } else {
        assert t.next == s;
        assert RisingEdges(edges) == RisingEdges(edges[1..]);
        assert Run(s, edges) == Trace(rest.final, [] + rest.readings);
        assert [] + rest.readings == rest.readings;
      }
    }
  }

  // ---------------------------------------------------------------------
  // The driver's global state

  /** The globals of adc.c that the conversion path reads and writes. */
  class Ads1115 {
    var readBuf: array<byte>
    var val: int
    var startTick: uint32
    var conversionCount: int
    var previousTick: uint32

    /** readBuf is the 2-byte buffer, val is a clamped sample and the count fits int16_t. */
    ghost predicate Valid()
      reads this
    {
      && readBuf.Length == 2
      && 0 <= val < 0x8000
      && -0x8000 <= conversionCount < 0x8000
    }

    ghost function State(): Counter
      reads this
    {
      Counter(startTick, conversionCount, previousTick)
    }

    /** Globals with static storage start zeroed. */
    constructor ()
      ensures Valid() && fresh(readBuf)
      ensures readBuf[..] == [0, 0] && val == 0
      ensures State() == Counter(0, 0, 0)
    {
      readBuf := new byte[2](_ => 0);
      val := 0;
      startTick := 0;
      conversionCount := 0;
      previousTick := 0;
    }

    /**
     * ReadConversionRegister, given what the I2C read returned: on a
     * 2-byte read, readBuf holds the bytes and val the decoded sample;
     * otherwise the driver exits and the result is the fatal error.
     */
    method ReadConversionRegister(r: ReadOutcome) returns (res: Result<int, AdcError>)
      requires Valid()
      modifies this, readBuf
      ensures Valid() && readBuf == old(readBuf) && State() == old(State())
      ensures res == DecodeRead(r)
      ensures res.Success? ==> readBuf[..] == r.bytes && val == res.value
      ensures res.Failure? ==> val == old(val) && readBuf[..] == old(readBuf[..])
    {
      if !(r.Received? && |r.bytes| == 2) {
        return Failure(ReadConversionFailed);
      }
      readBuf[0] := r.bytes[0];
      readBuf[1] := r.bytes[1];
      var word := Int16Of(readBuf[1] as int * 0x100 + readBuf[0] as int);
      if word < 0 {
        word := 0;
      }
      val := word;
      res := Success(val);
    }

    /**
     * OnConversionReady(gpio, level, tick, data); `sent` is the reading
     * handed to ReadConversion, None when the call returns early.
     */
    method OnConversionReady(level: int, tick: uint32) returns (sent: Option<Reading>)
      requires Valid()
      modifies this
      ensures Valid() && readBuf == old(readBuf) && val == old(val)
      ensures Transition(State(), sent) == OnEdge(old(State()), level, tick)
    {
      if level == 0 {
        return None;
      }
      if startTick == 0 {
        startTick := tick;
        conversionCount := 0;
      }
      if Elapsed(tick, startTick) as int > WindowTicks {
        startTick := tick;
        conversionCount := 0;
      } else {
        conversionCount := Int16Of(conversionCount + 1);
      }
      sent := Some(Reading(conversionCount, Elapsed(tick, startTick)));
      previousTick := tick;
    }
  }
}
