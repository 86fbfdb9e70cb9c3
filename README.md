# ecg-plot core in Dafny

This project models the two pieces of sequential logic in the ECG strip-chart
plotter:

- **plotter.c**: building the vertex buffers. `create_buffers` starts one empty
  buffer record for each GL buffer name. `generate_time_scale` fills buffer 0
  with vertical GL_LINES ticks across the window. `generate_millivolts_scale`
  fills buffer 1 with 50 horizontal ticks on a fixed 500-pixel scale. Every
  fifth tick is red, and the others use the minor colour. `set_data` is meant
  to copy (x, y) pairs into buffer 2 in black; as written it copies nothing
  (see ## Findings). `starts_with` decides which shader
  names are uniforms.
- **adc.c**: decoding the ADS1115 conversion register, and the
  conversion-ready callback. The register is read low byte first and treated
  as a signed 16-bit value. Negative values are clamped to 0. The callback
  keeps a count of conversions in a one-second window of pigpio ticks, using
  unsigned 32-bit tick arithmetic.

Files:

- `wrappers.dfy`: the Option and Result types.
- `geometry.dfy`: the `struct point` layout from plotter.h. It also holds the
  GL_LINES view of a vertex list. `Flatten` turns segments into vertex pairs,
  and `Lines` reads vertex pairs back as segments.
- `plotting.dfy`:
  - the `Buffer` and `Plotter` classes, whose methods write the vertex arrays
    in place;
  - the tick specifications `TimeTicks` and `MillivoltTicks`;
  - the waveform specification `WaveformPoints`;
  - `StartsWith` and `ClassifyAttribute`.
- `adc.dfy`:
  - the pure decoding functions;
  - the callback's transition function `OnEdge`, and `Run` over a series of
    edges;
  - the `Ads1115` class, which holds the driver's global variables.

Coordinates and colours are exact reals. A `struct point` is 20 bytes (five
4-byte GLfloats). Integer widths are written out explicitly:
- int16_t stores use `Int16Of`, which reduces modulo 2^16;
- the uint32_t subtraction uses `Elapsed`, which reduces modulo 2^32.

In three places the model follows the code where one might expect otherwise:
- The voltage grid always has 50 ticks on a 500-pixel scale. It does not
  derive the tick count from the configured range.
- A non-positive tick size is not rejected. `GenerateTimeScale` requires
  `tickSize > 0`, because the code divides by it. It also requires
  `windowWidth > 0`; the width comes from the monitor's video mode, which
  guarantees it.
- The callback hands `(conversionCount, tick - startTick)` to `ReadConversion`.
  It does not hand over a scaled, timestamped sample.

## Model

| member | source | states |
|---|---|---|
| `Geometry.Flatten` | plotter.c:232-236 | a GL_LINES vertex list has two vertices per segment (num_elements = ticks * 2) |
| `Geometry.FlattenAt` | plotter.c:247-256 | vertex 2i is the first endpoint of segment i and vertex 2i+1 the second |
| `Geometry.LinesOfFlatten` | plotter.c:355 | drawing a flattened buffer with GL_LINES yields exactly the intended segments, in order |
| `Plotting.TimeScaleLayout` | plotter.c:229-256 | the time grid has 2*(width/tickSize+1) vertices (integer division); vertices 2i and 2i+1 share x = -1 + i*tickSize*(2/width), have y = -1 and y = +1, and are red exactly when i % 5 == 0, else the minor colour |
| `Plotting.MillivoltScaleLayout` | plotter.c:267-293 | the millivolt grid always has 100 vertices; tick i runs from x = -1 to x = +1 at y = -1 + i*tickSize*(2/500), with the same colour rule |
| `Plotting.TickOffsetAscending` | plotter.c:229-240 | with a positive tick size, tick 0 is at -1 and tick coordinates strictly increase with i |
| `Plotting.TimeTickInsideNdc` | plotter.c:229-240 | every time tick lies within the NDC range [-1, 1] |
| `Plotting.MillivoltTickInsideNdc` | plotter.c:267-277 | a millivolt tick is at or above -1, and at or below +1 exactly when i*tickSize <= 500 |
| `Plotting.TimeScaleExample` | plotter.c:229-244 | width 800 with 10-pixel ticks gives 81 ticks, and tick 40 is a highlighted line at x = 0 |
| `Plotting.WaveformPoints` | plotter.c:302-313 | the intended waveform has one vertex per (x, y) pair of the input floats |
| `Plotting.WaveformRoundTrip` | plotter.c:307-313 | reading the (x, y) pairs back out of the waveform vertices gives the input floats (without an odd trailing one), and every vertex is black |
| `Plotting.StartsWith` | plotter.c:404-409 | starts_with(pre, str) holds exactly when str is pre followed by some suffix (so it is false when str is shorter) |
| `Plotting.ClassifyAttribute` | plotter.c:179-181 | a name is looked up as a uniform exactly when it begins with "uniform_" |
| `Plotting.SetupAttributesAreRegular` | plotter.c:30-31 | "vertex2d" and "v_color", the names setup_plotter registers, are regular attributes; a name with the "uniform_" prefix (here "uniform_color", not one the program uses) is a uniform |
| `Plotting.Buffer.constructor` | plotter.c:207-210 | a new record holds the given buffer name, size 0, no vertices and no data |
| `Plotting.Plotter.CreateBuffers` | plotter.c:200-213 | record i holds buffer name i with size_bytes 0, num_elements 0 and data NULL; the records are distinct and consistent |
| `Plotting.WriteTimeTicks` | plotter.c:238-260 | the time-grid loop leaves the array equal to the flattened time ticks: vertices 2i and 2i+1 are tick i's bottom and top |
| `Plotting.WriteMillivoltTicks` | plotter.c:276-297 | the millivolt-grid loop leaves the array equal to the flattened millivolt ticks: vertices 2i and 2i+1 are tick i's left and right ends |
| `Plotting.Plotter.GenerateTimeScale` | plotter.c:227-263 | buffer 0 gets num_elements = 2*(width/tickSize+1), size_bytes = num_elements*20 and a fresh array equal to the flattened time ticks; its name and the other buffers are unchanged |
| `Plotting.Plotter.GenerateMillivoltsScale` | plotter.c:265-298 | buffer 1 gets 100 vertices, 2000 bytes and a fresh array equal to the flattened millivolt ticks; its name and the other buffers are unchanged |
| `Plotting.Plotter.SetData` | plotter.c:300-316 | buffer 2 gets |data|/2 vertices, the matching byte size and a fresh array equal to the intended waveform |
| `Plotting.Plotter.SetDataAsWritten` | plotter.c:300-316 | as written, buffer 2 gets sizeof(float *)/8 vertices whatever the data, and the loop condition `i++` first reads 0 so every vertex stays zero; for 4 or more floats that is fewer vertices than intended, and on a 64-bit target vertex 0 is (0, 0) instead of the first sample |
| `Adc.Int16Of` | adc.c:37 | storing into int16_t gives the unique value in [-32768, 32767] congruent to the word modulo 2^16 |
| `Adc.Word` | adc.c:37 | readBuf[1] << 8 \| readBuf[0] is a 16-bit word whose low byte is readBuf[0] and high byte readBuf[1] |
| `Adc.RawSample` | adc.c:37 | the stored value is the two's-complement reading of the word: negative exactly when the high byte is >= 0x80 |
| `Adc.DecodeSample` | adc.c:37-41 | after the clamp, val lies in [0, 32767]; a high byte >= 0x80 gives 0, otherwise val is hi*256 + lo |
| `Adc.DecodeSampleRoundTrip` | adc.c:37-41 | every value in [0, 32767] sent low byte first decodes to itself |
| `Adc.DecodeSampleInjective` | adc.c:37-41 | two readings with the sign bit clear decode to the same value only if their bytes are equal |
| `Adc.DecodeRead` | adc.c:31-41 | a read returning anything but 2 bytes is the fatal error and decodes nothing; a 2-byte read gives a value in [0, 32767] equal to the word when the sign bit is clear |
| `Adc.Elapsed` | adc.c:123 | tick - startTick is the plain difference when tick >= startTick and wraps by 2^32 otherwise |
| `Adc.OnEdge` | adc.c:113-136 | a falling edge changes nothing; the first rising edge opens the window at tick with count 1 and elapsed 0; more than 1,000,000 ticks elapsed resets the window (start = tick, count 0), otherwise the count rises by one (int16 wrap); the reading sent has elapsed <= 1,000,000; previousTick becomes tick |
| `Adc.RunReadsOncePerRisingEdge` | adc.c:115-134 | over any series of callbacks, ReadConversion is called once per rising edge and never for a falling edge |
| `Adc.RunElapsedWithinWindow` | adc.c:123-134 | over any series of callbacks, every elapsed value passed to ReadConversion is within [0, 1,000,000] |
| `Adc.RunPreviousTick` | adc.c:115-135 | after any series of callbacks, previousTick is the tick of the last rising edge (unchanged if there was none) |
| `Adc.RunIgnoresFallingEdges` | adc.c:115 | removing the falling edges from a series changes neither the final globals nor the readings |
| `Adc.Ads1115.constructor` | adc.c:15-19 | the globals start zeroed |
| `Adc.Ads1115.ReadConversionRegister` | adc.c:28-44 | on a 2-byte read, readBuf holds the bytes and val the decoded sample; otherwise the fatal error is returned and val is unchanged; the counter globals are untouched |
| `Adc.Ads1115.OnConversionReady` | adc.c:113-136 | the new globals and the reading passed to ReadConversion are exactly those of OnEdge on the old globals |

## Findings

| source | as written | input that shows it | evidently intended | confidence | as-written member | corrected member |
|---|---|---|---|---|---|---|
| plotter.c:302 | the vertex count is `sizeof(data)/sizeof(data[0])/2`, the size of the pointer parameter, not of the caller's array | the 96-float ECG_SAMPLE gives 0 vertices with 4-byte pointers or 1 with 8-byte pointers, instead of 48 | the number of floats passed, divided by 2 | high, not executed | `Plotting.Plotter.SetDataAsWritten` | `Plotting.Plotter.SetData` (with `Plotting.WaveformRoundTrip`) |
| plotter.c:307 | `for(int i = 0; i++; i < num_elements)`: the condition is `i++`, which tests 0 the first time, so the body never runs | any data, e.g. ECG_SAMPLE starting (123, 3445) on a 64-bit build: vertex 0 stays (0, 0) | `for(i = 0; i < num_elements; i++)` copying each pair | high, not executed | `Plotting.Plotter.SetDataAsWritten` | `Plotting.Plotter.SetData` (with `Plotting.WaveformRoundTrip`) |

## Left out

- Plotting.Plotter.SetDataAsWritten: the `for` loop of set_data is modelled by its first condition test, which reads 0. A loop whose body can never run cannot be stated here without a termination check that only holds vacuously, so the model has no loop there.
- Window, monitor and viewport setup and the key callback (plotter.c:43-87): calls into the windowing library. The 500 in generate_millivolts_scale is taken as a constant. It matches the height computed at plotter.c:69 with the configured values.
- Shader compilation and linking, attribute and uniform location lookup, `render_func`, `on_render` and `free_resources`: opaque OpenGL ES calls. Only the uniform/regular decision from `create_attribute` is modelled.
- `glGenBuffers`: the buffer names it produces are the `handles` input of `CreateBuffers`.
- `get_plotter`: it copies an uninitialised struct. The `Plotter` constructor takes the window width and tick size that the source sets elsewhere.
- All `printf` diagnostics. One of them is also left out for a second reason: the loop in generate_millivolts_scale prints `buffers[0]` entries up to index 99. That reads past the time grid when it has fewer than 100 vertices.
- Memory management: the source never frees the vertex arrays the generators and set_data allocate, and the model does not track allocation.
- `Initialize_ADS1115` and `SetupConversionReadyCallback`: I2C register programming and pigpio callback registration (hardware I/O).
- `ReadConversion`: its definition is not part of this model. It is the `sent` reading returned by `OnConversionReady`.
- The `gpio` and `data` parameters of `OnConversionReady`: the code never uses them.
- The volts-per-step scaling `myfloat = val * VPS`: floating point.
- GLfloat rounding of grid coordinates and colours: the model uses exact reals.
- Adc.Ads1115.ReadConversionRegister: a failed read may already have written some bytes into readBuf before `exit`. The model leaves readBuf unchanged on that path, because the process ends there.
- Concurrency between the pigpio callback thread and the render loop: the source has no synchronisation to model.
- main.c: configuration constants and sample data only.
