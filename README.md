# pico_dht measurement engine in Dafny

This project models the measurement engine of the pico_dht driver for DHT11, DHT12, DHT21 and DHT22
temperature and humidity sensors on the Raspberry Pi Pico. The driver has three parts:

- **Frame validation and decoding** (`frame.dfy`, module `Frame`). A 5-byte frame is accepted when
  byte 4 equals the 8-bit truncated sum of bytes 0 to 3. Its two 16-bit fields are then decoded per model.
  Decoded values are exact integers that count tenths of a unit. Where the driver computes
  `0.1f * x` in `float`, the model has `x`.
- **Timing policy** (`timing.dfy`, module `Timing`). The start pulse lasts 1000 µs or 18000 µs
  depending on the model. The wait budget is the start pulse plus 6000 µs. Elapsed time is the
  wrapping `uint32_t` difference on the microsecond clock.
- **The session** `dht_t` (`driver.dfy`, module `Driver`). This is a class with the struct's fields,
  the 5-byte `data` array and a flag for "state machine enabled", which means a measurement is in
  flight. Its methods are `Init`, `Deinit`, `StartMeasurement` and `FinishMeasurementBlocking`.
  Their C `assert`s become `requires` clauses.

Calls into the Pico SDK are appended, in order, to the session's `ops` log as `HwOp` values. What
the hardware reports back is passed in as parameters:

- the DMA busy flag and the clock readings, one `Sample` per evaluation of the wait condition in `Timing.WaitForTransfer`;
- the busy flag read after the state machine is stopped;
- the bytes the DMA channel stored;
- the values the allocators hand out.

`sensor.dfy` (module `Sensor`) holds the header's types and the byte masks. `scenarios.dfy` holds
two client sessions that are proved from the contracts alone.

Three facts about the code that are easy to misread:

- The DHT22 frame `02 8C 01 11 9A` is rejected, because its data bytes add up to 0xA0
  (`Frame.Dht22Examples`). The frame `02 8C 01 11 A0` decodes to humidity 652 and temperature 273.
  With byte 2 = 0x81 and checksum 0x20, the temperature is −273. For DHT21 and DHT22 the
  temperature's sign bit is bit 7 of byte 2.
- The DHT11 clamp to 0 tests bit 7 of byte 3, the low temperature byte (`dht/dht.c:76`, called with
  `data[3]` at `dht/dht.c:187`).
- The wait ends when elapsed time reaches the budget, not only when it exceeds it (`<` at
  `dht/dht.c:168`).

## Model

| member | source | states |
|---|---|---|
| `Sensor.Low7` | dht/dht.c:80 | `b & 0x7F` is below 128 and, with the sign bit's 128 added back, reconstitutes the byte |
| `Sensor.SignBit` | dht/dht.c:76 | `b & 0x80` is non-zero exactly when the byte is at least 128 (its bitwise form is `Sensor.MasksAreBitwise`) |
| `Sensor.MasksAreBitwise` | dht/dht.c:76-92 | the arithmetic sign-bit and magnitude forms agree with `& 0x80`, `& 0x7F` and `^ 0x80` on 8-bit words |
| `Timing.StartPulseDurationUs` | dht/dht.c:23-25 | the start pulse is 1000 µs exactly for DHT21/DHT22 and 18000 µs exactly for DHT11/DHT12 |
| `Timing.TimeoutUs` | dht/dht.c:167 | the budget is the start pulse plus 6000 µs: 7000 for DHT21/DHT22, 24000 for DHT11/DHT12; it fits a `uint32_t` |
| `Timing.Elapsed` | dht/dht.c:168 | the `uint32_t` difference is the delay that, added to the start reading modulo 2^32, gives the current reading; it is `now - start` without a wrap and `2^32 - start + now` with one |
| `Timing.ElapsedAfterAdvance` | dht/dht.c:168 | for every start reading and every delay below 2^32, elapsed time recovers the delay even when the clock wraps |
| `Timing.KeepWaiting` | dht/dht.c:168 | the loop condition: DMA busy and elapsed time below the budget |
| `Timing.KeepWaitingAfter` | dht/dht.c:168-170 | `d` µs after the start, the loop keeps polling exactly when DMA is busy and `d` is less than the budget |
| `Timing.WaitDeadline` | dht/dht.c:167-170 | at budget − 1 µs a busy transfer keeps the loop polling; at the budget the loop exits, from any start reading |
| `Timing.StaysIdle` | dht/dht.c:168-175 | what the DMA busy flag can read over the wait: once idle, idle at every later sample and at the check after the loop |
| `Timing.WaitForTransfer` | dht/dht.c:168-170 | the busy-wait returns the index of the first sample whose DMA flag is clear or whose elapsed time has reached the budget; every earlier sample kept it polling |
| `Frame.Checksum` | dht/dht.c:179 | the checksum is a byte that is congruent modulo 256 to the sum of data bytes 0 to 3 |
| `Frame.ChecksumOk` | dht/dht.c:180 | a frame is accepted exactly when byte 4 equals the checksum of bytes 0 to 3 |
| `Frame.SingleByteChangeDetected` | dht/dht.c:179-182 | replacing any one of bytes 0 to 3 of an accepted frame with a different value makes the frame fail the check |
| `Frame.DecodeHumidity` | dht/dht.c:102-117 | humidity in tenths is 0..2805 for DHT11/DHT12 and 0..65535 for DHT21/DHT22 |
| `Frame.DecodeTemperature` | dht/dht.c:72-100 | DHT11: 0..2677, and 0 when bit 7 of byte 3 is set; DHT12: ±2677, negative only with that bit set, positive only without it; DHT21/DHT22: ±32767, sign given by bit 7 of byte 2 |
| `Frame.TemperatureSignFlip` | dht/dht.c:83-95 | for DHT12, DHT21 and DHT22, toggling the sign bit negates the decoded temperature |
| `Frame.EncodeFrame` | dht/dht.c:72-117 | the reference encoder the decoders are checked against: it models the sensor's side of the wire, the inverse of the decoders, and every frame it builds passes the checksum test |
| `Frame.DecodeEncode` | dht/dht.c:72-117 | decoding the frame built for any encodable reading gives back its humidity and temperature, for every model |
| `Frame.WideHumidityInjective` | dht/dht.c:109-112 | DHT21/DHT22 humidity is a big-endian 16-bit value: equal humidities come from equal byte pairs |
| `Frame.Dht22Examples` | dht/dht.c:179-188 | the DHT22 worked examples: `02 8C 01 11 9A` is rejected; `02 8C 01 11 A0` gives 652 and 273; byte 2 = 0x81 gives −273 |
| `Frame.NegativeExamples` | dht/dht.c:75-88 | with bit 7 of byte 3 set, DHT11 gives 0 and DHT12 gives the negated magnitude |
| `Driver.Dht.constructor` | dht/include/dht.h:35-44 | a zero-filled `dht_t`: not initialised, no measurement in flight, buffer zero |
| `Driver.Dht.Initialized` | dht/dht.c:139 | the session is initialised exactly when `pio` is not NULL, the test of the asserts in deinit, start and finish |
| `Driver.Dht.Measuring` | dht/dht.c:32-34 | a measurement is in flight exactly when the session is initialised and its state machine is enabled, as `pio_sm_is_enabled` reads it |
| `Driver.Dht.Init` | dht/dht.c:123-136 | the session is initialised and idle, with the given model, block, pin and claimed handles; buffer and start time are zero; the program is added, the SM and DMA channel claimed and the pin set up, in that order |
| `Driver.Dht.Deinit` | dht/dht.c:138-151 | requires an initialised session; aborts and unclaims DMA, disables the SM, leaves the pin hi-z, unclaims the SM and removes the program; the session is uninitialised afterwards |
| `Driver.Dht.StartMeasurement` | dht/dht.c:153-161 | requires an initialised session with no measurement in flight; zeroes all 5 bytes, starts DMA, then the program with the model's start pulse and the 50 µs threshold; records the start time; a measurement is then in flight |
| `Driver.Dht.FinishMeasurementBlocking` | dht/dht.c:163-190 | requires a measurement in flight. The wait stops at the first sample that is not busy or is out of budget. The SM is then disabled and the pin released, whatever the result. The result is TIMEOUT exactly when DMA is still busy, and only then is DMA aborted; a TIMEOUT means the budget was used up with the transfer busy (given that an idle channel stays idle and has stored all 5 bytes). Otherwise it is BAD_CHECKSUM exactly when byte 4 differs from the checksum, and OK otherwise. Each non-null output receives its decoded value only on OK; otherwise it is unchanged |

## Left out

- Sequencer and DMA configuration (`dht_program_init`, `configure_dma_channel`) are SDK call sequences.
  Each is recorded as one `HwOp` (`StartProgram`, `StartDma`).
- The loop-count divisors `dht_start_signal_clocks_per_loop` and
  `dht_pulse_measurement_clocks_per_loop` come from the generated `dht.pio.h`, which is not part of
  this model, so `StartProgram` records the start pulse and threshold in microseconds.
- `get_pio_sm_clocks` rounds a float product that is the identity at the 1 MHz sequencer clock.
  The float clock divider is left out too.
- Floating point: decoders return exact tenths. The rounding of `0.1f * x` in `float` is not modelled.
- `pio_sm_is_enabled` reads bit `sm` of the PIO block's CTRL register. This model keeps that bit
  as the `smEnabled` field.
- The hardware runs concurrently with the driver. The DMA channel's writes into `data` are applied
  at the start of `FinishMeasurementBlocking` from its `received` parameter. Clock readings and busy
  flags are parameters. `tight_loop_contents` does nothing.
- `Driver.Dht.FinishMeasurementBlocking`: requires that some sample ends the wait. The C loop
  relies on the real clock advancing to guarantee this.
- `Driver.Dht.Init`: a freshly claimed state machine is taken to be disabled. The SDK's allocators
  (`pio_add_program`, `pio_claim_unused_sm`, `dma_claim_unused_channel`) and their uniqueness
  across sessions are not modelled. Their results are parameters, and exhaustion (a panic in the
  SDK) is not modelled.
- The assertion `pio == pio0 || pio == pio1` in `dht_init` holds by construction, because
  `PioBlock` has only those two values.
- The example program `dht_example.c` is left out: its print and sleep loop and its float
  Celsius-to-Fahrenheit conversion.
