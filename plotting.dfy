/**
 * Model of plotter.c: the three vertex-buffer records, the time and
 * millivolt grid generators, the waveform copy and the uniform-name test.
 * GL calls (glGenBuffers, glBufferData, draws) are outside the model; the
 * buffer names glGenBuffers returns are an input.
 */
module Plotting {
  import opened Geometry

  // ---------------------------------------------------------------------
  // Grid geometry

  /** Fixed pixel height of the millivolt scale (the 500 in generate_millivolts_scale). */
  const MillivoltScaleHeight: int := 500
  /** Fixed number of millivolt ticks. */
  const MillivoltTickCount: nat := 50

  /**
   * NDC coordinate of tick i on an axis `extent` pixels long with ticks
   * every `tickSize` pixels: -1 + i * (tickSize * (2 / extent)).
   */
  function TickOffset(i: nat, tickSize: int, extent: int): real
    requires extent > 0
  {
    -1.0 + (i as real) * ((tickSize as real) * (2.0 / (extent as real)))
  }

  function TickColor(i: nat): Color
  {
    if i % 5 == 0 then Highlight else Minor
  }

  /** Number of vertical ticks across the window; C's `/` on positive ints. */
  function TimeTickCount(windowWidth: int, tickSize: int): int
    requires windowWidth > 0 && tickSize > 0
  {
    windowWidth / tickSize + 1
  }

  /** The vertical segments of the time grid, tick by tick. */
  function TimeTicks(windowWidth: int, tickSize: int): seq<Segment>
    requires windowWidth > 0 && tickSize > 0
  {
    seq(TimeTickCount(windowWidth, tickSize), i requires 0 <= i =>
      var x := TickOffset(i, tickSize, windowWidth);
      Segment(Point(x, -1.0, TickColor(i)), Point(x, 1.0, TickColor(i))))
  }

  /** The horizontal segments of the millivolt grid, tick by tick. */
  function MillivoltTicks(tickSize: int): seq<Segment>
  {
    seq(MillivoltTickCount, i requires 0 <= i =>
      var y := TickOffset(i, tickSize, MillivoltScaleHeight);
      Segment(Point(-1.0, y, TickColor(i)), Point(1.0, y, TickColor(i))))
  }

  /**
   * Layout of the time grid buffer: 2 * (width / tickSize + 1) vertices;
   * vertices 2i and 2i+1 are the bottom and top of a vertical line at
   * x = TickOffset(i), both highlighted exactly when i is a multiple of 5.
   */
  lemma TimeScaleLayout(windowWidth: int, tickSize: int, i: nat)
    requires windowWidth > 0 && tickSize > 0
    requires i < TimeTickCount(windowWidth, tickSize)
    ensures var vs := Flatten(TimeTicks(windowWidth, tickSize));
      && |vs| == 2 * (windowWidth / tickSize + 1)
      && vs[2 * i].x == vs[2 * i + 1].x == TickOffset(i, tickSize, windowWidth)
      && vs[2 * i].y == -1.0 && vs[2 * i + 1].y == 1.0
      && vs[2 * i].color == vs[2 * i + 1].color
      && (vs[2 * i].color == Highlight <==> i % 5 == 0)
      && (i % 5 != 0 ==> vs[2 * i].color == Minor)
  {
    FlattenAt(TimeTicks(windowWidth, tickSize), i);
  }

  /**
   * Layout of the millivolt grid buffer: always 100 vertices; vertices 2i
   * and 2i+1 run from x = -1 to x = +1 at y = TickOffset(i) on the
   * 500-pixel scale, with the same colour rule as the time grid.
   */
  lemma MillivoltScaleLayout(tickSize: int, i: nat)
    requires i < MillivoltTickCount
    ensures var vs := Flatten(MillivoltTicks(tickSize));
      && |vs| == 100
      && vs[2 * i].x == -1.0 && vs[2 * i + 1].x == 1.0
      && vs[2 * i].y == vs[2 * i + 1].y == -1.0 + (i as real) * (tickSize as real) * (2.0 / 500.0)
      && vs[2 * i].color == vs[2 * i + 1].color
      && (vs[2 * i].color == Highlight <==> i % 5 == 0)
      && (i % 5 != 0 ==> vs[2 * i].color == Minor)
  {
    FlattenAt(MillivoltTicks(tickSize), i);
  }

  /** With a positive tick size, ticks start at -1 and move strictly forward. */
  lemma TickOffsetAscending(i: nat, j: nat, tickSize: int, extent: int)
    requires tickSize > 0 && extent > 0 && i < j
    ensures TickOffset(0, tickSize, extent) == -1.0
    ensures TickOffset(i, tickSize, extent) < TickOffset(j, tickSize, extent)
  {
    var step := (tickSize as real) * (2.0 / (extent as real));
    assert step > 0.0;
    assert (j as real) * step - (i as real) * step == ((j - i) as real) * step;
  }

  /** A tick index below width / tickSize + 1 is at most width pixels from the left edge. */
  lemma TickPixelWithinWidth(windowWidth: int, tickSize: int, i: nat)
    requires windowWidth > 0 && tickSize > 0
    requires i <= windowWidth / tickSize
    ensures i * tickSize <= windowWidth
  {
    var q := windowWidth / tickSize;
    assert q * tickSize <= windowWidth;
    assert (q - i) * tickSize >= 0;
  }

  /** Scaling a pixel offset p <= extent by 2 / extent stays within 2 NDC units. */
  lemma ScaledOffsetAtMostTwo(i: real, tickSize: real, extent: real)
    requires extent > 0.0 && 0.0 <= i * tickSize <= extent
    ensures 0.0 <= i * (tickSize * (2.0 / extent)) <= 2.0
  {
    var k := 2.0 / extent;
    assert k > 0.0;
    assert i * (tickSize * k) == (i * tickSize) * k;
    assert (i * tickSize) * k <= extent * k;
    assert extent * k == 2.0;
  }

  /** Every tick of the time grid lies inside the NDC range [-1, 1]. */
  lemma TimeTickInsideNdc(windowWidth: int, tickSize: int, i: nat)
    requires windowWidth > 0 && tickSize > 0
    requires i < TimeTickCount(windowWidth, tickSize)
    ensures -1.0 <= TickOffset(i, tickSize, windowWidth) <= 1.0
  {
    TickPixelWithinWidth(windowWidth, tickSize, i);
    assert (i as real) * (tickSize as real) == (i * tickSize) as real;
    ScaledOffsetAtMostTwo(i as real, tickSize as real, windowWidth as real);
  }

  /** A millivolt tick is on screen exactly when i * tickSize <= 500 pixels. */
  lemma MillivoltTickInsideNdc(tickSize: int, i: nat)
    requires tickSize >= 0
    ensures -1.0 <= TickOffset(i, tickSize, MillivoltScaleHeight)
    ensures TickOffset(i, tickSize, MillivoltScaleHeight) <= 1.0 <==> i * tickSize <= 500
  {
    var it := (i as real) * (tickSize as real);
    assert it == (i * tickSize) as real;
    assert (i as real) * ((tickSize as real) * (2.0 / 500.0)) == it / 250.0;
  }

  /**
   * The configured display: an 800-pixel-wide window with 10-pixel ticks
   * has 81 time ticks, and tick 40 is a highlighted line at x = 0.
   */
  lemma TimeScaleExample()
    ensures TimeTickCount(800, 10) == 81
    ensures TickOffset(40, 10, 800) == 0.0
    ensures TimeTicks(800, 10)[40].from == Point(0.0, -1.0, Highlight)
  {
  }

  // ---------------------------------------------------------------------
  // Waveform data (set_data)

  /** The waveform vertices set_data is meant to produce: pair i of the samples, in black. */
  function WaveformPoints(samples: seq<real>): (ps: seq<Point>)
    ensures |ps| == |samples| / 2
  {
    seq(|samples| / 2, i requires 0 <= i < |samples| / 2 =>
      Point(samples[2 * i], samples[2 * i + 1], Black))
  }

  /** The (x, y) floats a vertex list carries, in order. */
  function Coordinates(ps: seq<Point>): seq<real>
  {
    if ps == [] then []
    else Coordinates(ps[..|ps| - 1]) + [ps[|ps| - 1].x, ps[|ps| - 1].y]
  }

  lemma {:induction false} CoordinatesOfWaveformPrefix(samples: seq<real>, n: nat)
    requires n <= |samples| / 2
    ensures Coordinates(WaveformPoints(samples)[..n]) == samples[..2 * n]
  {
    if n > 0 {
      var ps := WaveformPoints(samples);
      CoordinatesOfWaveformPrefix(samples, n - 1);
      assert ps[..n][..n - 1] == ps[..n - 1];
      assert samples[..2 * n] == samples[..2 * (n - 1)] + [samples[2 * n - 2], samples[2 * n - 1]];
    }
  }

  /**
   * Round trip: reading the (x, y) pairs back out of the waveform buffer
   * gives the input floats (an odd trailing float is dropped), and every
   * vertex is black.
   */
  lemma WaveformRoundTrip(samples: seq<real>)
    ensures Coordinates(WaveformPoints(samples)) == samples[..2 * (|samples| / 2)]
    ensures forall p <- WaveformPoints(samples) :: p.color == Black
  {
    var ps := WaveformPoints(samples);
    CoordinatesOfWaveformPrefix(samples, |ps|);
    assert ps[..|ps|] == ps;
  }

  /** sizeof(float) on the target. */
  const FloatSize: nat := 4

  // ---------------------------------------------------------------------
  // Attribute names

  /** `#define UNIFORM "uniform_"` */
  const UniformPrefix: string := "uniform_"

  /**
   * starts_with(pre, str): false when str is shorter than pre, otherwise
   * whether the first |pre| characters of str equal pre.
   */
  function StartsWith(pre: string, str: string): (r: bool)
    ensures r <==> exists suffix :: str == pre + suffix
  {
    if |str| < |pre| then false
    else
      assert str == str[..|pre|] + str[|pre|..];
      str[..|pre|] == pre
  }

  datatype AttributeKind = Regular | Uniform

  /** How create_attribute looks a name up: names beginning "uniform_" are uniforms. */
  function ClassifyAttribute(name: string): (k: AttributeKind)
    ensures k == Uniform <==> exists rest :: name == UniformPrefix + rest
  {
    if StartsWith(UniformPrefix, name) then Uniform else Regular
  }

  /**
   * The two names setup_plotter registers, "vertex2d" and "v_color", are
   * regular attributes; a name with the prefix, such as "uniform_color"
   * (not a name the program uses), is a uniform.
   */
  lemma SetupAttributesAreRegular()
    ensures ClassifyAttribute("vertex2d") == Regular
    ensures ClassifyAttribute("v_color") == Regular
    ensures ClassifyAttribute("uniform_color") == Uniform
  {
    assert "vertex2d"[0] != UniformPrefix[0];
    assert "v_color"[1] != UniformPrefix[1];
    assert "uniform_color" == UniformPrefix + "color";
  }

  /** The loop of generate_time_scale: writes tick i as vertices 2i and 2i+1 of `a`. */
  method WriteTimeTicks(a: array<Point>, windowWidth: int, tickSize: int)
    requires windowWidth > 0 && tickSize > 0
    requires a.Length == 2 * TimeTickCount(windowWidth, tickSize)
    modifies a
    ensures a[..] == Flatten(TimeTicks(windowWidth, tickSize))
  {
    var pixelWeightX := 2.0 / (windowWidth as real);
    var numOfTicks := windowWidth / tickSize + 1;
    var tickWidth := (tickSize as real) * pixelWeightX;
    ghost var ticks := TimeTicks(windowWidth, tickSize);
    for i := 0 to numOfTicks
      invariant forall k :: 0 <= k < i ==> a[2 * k] == ticks[k].from && a[2 * k + 1] == ticks[k].to
    {
      var x := -1.0 + (i as real) * tickWidth;
      var color := Minor;
      if i % 5 == 0 {
        color := Highlight;
      }
      a[i * 2] := Point(x, -1.0, color);
      a[i * 2 + 1] := Point(x, 1.0, color);
    }
    FlattenFromPairs(a[..], ticks);
  }

  /** The loop of generate_millivolts_scale: writes tick i as vertices 2i and 2i+1 of `a`. */
  method WriteMillivoltTicks(a: array<Point>, tickSize: int)
    requires a.Length == 2 * MillivoltTickCount
    modifies a
    ensures a[..] == Flatten(MillivoltTicks(tickSize))
  {
    var pixelWeightY := 2.0 / 500.0;
    var numOfTicks := 50;
    var tickWidth := (tickSize as real) * pixelWeightY;
    ghost var ticks := MillivoltTicks(tickSize);
    for i := 0 to numOfTicks
      invariant forall k :: 0 <= k < i ==> a[2 * k] == ticks[k].from && a[2 * k + 1] == ticks[k].to
    {
      var y := -1.0 + (i as real) * tickWidth;
      var color := Minor;
      if i % 5 == 0 {
        color := Highlight;
      }
      a[i * 2] := Point(-1.0, y, color);
      a[i * 2 + 1] := Point(1.0, y, color);
    }
    FlattenFromPairs(a[..], ticks);
  }

  // ---------------------------------------------------------------------
  // Buffer records and the plotter

  /** `struct buffer`: a GL buffer name, its byte size, vertex count and CPU-side vertices. */
  class Buffer {
    var address: nat
    var sizeBytes: nat
    var numElements: nat
    var data: array?<Point>

    /** The byte size always matches the vertex count, and a data array holds exactly that many vertices. */
    ghost predicate Valid()
      reads this
    {
      && sizeBytes == numElements * PointSize
      && (data == null ==> numElements == 0)
      && (data != null ==> data.Length == numElements)
    }

    constructor (handle: nat)
      ensures Valid()
      ensures address == handle && sizeBytes == 0 && numElements == 0 && data == null
    {
      address := handle;
      sizeBytes := 0;
      data := null;
      numElements := 0;
    }
  }

  /** The part of `struct plotter` the grid and data code uses. */
  class Plotter {
    var windowWidth: int
    var tickSize: int
    var buffers: seq<Buffer>

    /** Distinct buffer records, each consistent. */
    ghost predicate Valid()
      reads this, buffers
    {
      && (forall i, j :: 0 <= i < j < |buffers| ==> buffers[i] != buffers[j])
      && (forall i :: 0 <= i < |buffers| ==> buffers[i].Valid())
    }

    constructor (windowWidth: int, tickSize: int)
      ensures Valid()
      ensures this.windowWidth == windowWidth && this.tickSize == tickSize && buffers == []
    {
      this.windowWidth := windowWidth;
      this.tickSize := tickSize;
      buffers := [];
    }

    /**
     * create_buffers: one empty record per generated buffer name, record i
     * holding name i, size 0, no vertices and no data.
     */
    method CreateBuffers(handles: seq<nat>)
      modifies this
      ensures Valid()
      ensures windowWidth == old(windowWidth) && tickSize == old(tickSize)
      ensures |buffers| == |handles|
      ensures forall i :: 0 <= i < |buffers| ==>
        && fresh(buffers[i])
        && buffers[i].address == handles[i]
        && buffers[i].sizeBytes == 0 && buffers[i].numElements == 0 && buffers[i].data == null
    {
      var records: seq<Buffer> := [];
      for i := 0 to |handles|
        invariant |records| == i
        invariant unchanged(this)
        invariant forall k, l :: 0 <= k < l < i ==> records[k] != records[l]
        invariant forall k :: 0 <= k < i ==>
          && fresh(records[k])
          && records[k].address == handles[k]
          && records[k].sizeBytes == 0 && records[k].numElements == 0 && records[k].data == null
      {
        var b := new Buffer(handles[i]);
        records := records + [b];
      }
      buffers := records;
    }

    /**
     * generate_time_scale: buffer 0 gets 2 * (width / tickSize + 1)
     * vertices, the flattened vertical ticks of the time grid.
     */
    method GenerateTimeScale()
      requires Valid() && |buffers| >= 1
      requires windowWidth > 0 && tickSize > 0
      modifies buffers[0]
      ensures Valid()
      ensures buffers[0].address == old(buffers[0].address)
      ensures buffers[0].numElements == 2 * (windowWidth / tickSize + 1)
      ensures buffers[0].sizeBytes == buffers[0].numElements * PointSize
      ensures buffers[0].data != null && fresh(buffers[0].data)
      ensures buffers[0].data[..] == Flatten(TimeTicks(windowWidth, tickSize))
    {
      var b := buffers[0];
      var numOfTicks := windowWidth / tickSize + 1;
      b.numElements := numOfTicks * 2;
      b.sizeBytes := numOfTicks * 2 * PointSize;
      var a := new Point[numOfTicks * 2](_ => Origin);
      WriteTimeTicks(a, windowWidth, tickSize);
      b.data := a;
    }

    /**
     * generate_millivolts_scale: buffer 1 always gets 100 vertices, the
     * flattened horizontal ticks of the 50-tick millivolt grid.
     */
    method GenerateMillivoltsScale()
      requires Valid() && |buffers| >= 2
      modifies buffers[1]
      ensures Valid()
      ensures buffers[1].address == old(buffers[1].address)
      ensures buffers[1].numElements == 100
      ensures buffers[1].sizeBytes == 100 * PointSize
      ensures buffers[1].data != null && fresh(buffers[1].data)
      ensures buffers[1].data[..] == Flatten(MillivoltTicks(tickSize))
    {
      var b := buffers[1];
      var numOfTicks := 50;
      b.numElements := numOfTicks * 2;
      b.sizeBytes := numOfTicks * 2 * PointSize;
      var a := new Point[numOfTicks * 2](_ => Origin);
      WriteMillivoltTicks(a, tickSize);
      b.data := a;
    }

    /**
     * set_data as intended: buffer 2 gets one black vertex per (x, y) pair
     * of `samples`.  The source differs in two ways (modelled by
     * SetDataAsWritten): it takes the count from sizeof of the pointer
     * parameter, and its for header has the condition and the increment
     * swapped, so the loop body never runs.
     */
    method SetData(samples: seq<real>)
      requires Valid() && |buffers| >= 3
      modifies buffers[2]
      ensures Valid()
      ensures buffers[2].address == old(buffers[2].address)
      ensures buffers[2].numElements == |samples| / 2
      ensures buffers[2].sizeBytes == buffers[2].numElements * PointSize
      ensures buffers[2].data != null && fresh(buffers[2].data)
      ensures buffers[2].data[..] == WaveformPoints(samples)
    {
      var b := buffers[2];
      var n := |samples| / 2;
      b.numElements := n;
      b.sizeBytes := n * PointSize;
      var a := new Point[n](_ => Origin);
      b.data := a;
      for i := 0 to n
        modifies a
        invariant forall k :: 0 <= k < i ==> a[k] == Point(samples[2 * k], samples[2 * k + 1], Black)
      {
        a[i] := Point(samples[i * 2], samples[i * 2 + 1], Black);
      }
    }

    /**
     * set_data as written, on a target whose pointers are `pointerSize`
     * bytes: the count is sizeof(float *) / sizeof(float) / 2 whatever the
     * data, and the header `for(int i = 0; i++; i < num_elements)` tests
     * `i++`, whose first value is 0, so no pair is copied and the calloc'd
     * vertices stay zero.  For 4- or 8-byte pointers and 4 or more floats
     * this gives fewer vertices than intended, and on a 64-bit target the
     * one vertex kept is (0, 0) instead of the first sample.
     */
    method SetDataAsWritten(pointerSize: nat, samples: seq<real>)
      requires Valid() && |buffers| >= 3
      modifies buffers[2]
      ensures Valid()
      ensures buffers[2].address == old(buffers[2].address)
      ensures buffers[2].numElements == pointerSize / FloatSize / 2
      ensures buffers[2].sizeBytes == buffers[2].numElements * PointSize
      ensures buffers[2].data != null && fresh(buffers[2].data)
      ensures forall v <- buffers[2].data[..] :: v == Origin
      ensures (pointerSize == 4 || pointerSize == 8) && |samples| >= 4 ==>
        buffers[2].numElements < |WaveformPoints(samples)|
      ensures pointerSize == 8 && |samples| >= 2 && samples[0] != 0.0 ==>
        buffers[2].data[0] != WaveformPoints(samples)[0]
    {
      var b := buffers[2];
      var n := pointerSize / FloatSize / 2;
      b.numElements := n;
      b.sizeBytes := n * PointSize;
      var a := new Point[n](_ => Origin);
      b.data := a;
      // First test of the loop condition `i++`: its value is i before the
      // increment.  Were it non-zero the copy body would run; it is 0.
      var i := 0;
      var enter := i != 0;
      i := i + 1;
      if enter {
        assert false;
      }
    }
  }
}
