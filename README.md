# deepcool-ch170 in Dafny

A model of the core of `deepcool-ch170`, a Windows daemon that reads CPU and GPU
telemetry from HWiNFO's shared-memory region and drives the DeepCool CH170 case
display. The daemon sends the display a 64-byte HID output report.

The model has these parts:

- `primitive.dfy`: the byte and word types `u8`, `u16`, `u32` and `u64`.
- `outcomes.dfy`: a `Result` datatype.
- `readings.dfy` (module `Readings`): the telemetry record handed to the encoder, and its temperature unit.
- `ch170_layout.dfy` (module `Ch170Layout`): the protocol constants and the `#[repr(C)]` byte layout of the report. It proves that the named offsets agree with the packed layout and that the report is exactly 64 bytes.
- `ch170.dfy` (module `Ch170`): the display modes, the field encodings and the checksum.
  - The packet update is given as a function `Encoded` on the 64 bytes.
  - The `DisplayPayload` class patches an `array<u8>` in place, and is proved to produce exactly those bytes.
  - The `CH170Display` class holds the payload and the current mode.
- `helpers.dfy` (module `Helpers`): the constant-delay retry loop.
  - The k-th call of the retried operation is a parameter `f(k)`.
  - The method returns the outcome, the number of calls and the delays slept.
- `hwinfo_reader.dfy` (module `HwInfoReader`): the HWiNFO reader.
  - The mapped region is the value `SharedMemory(header, sensorTable, readingTable)`.
  - Entry k of `readingTable` is the record the reading pointer designates after k advances. The pointer starts at the header size plus `sensor_elements_number * sensor_element_size` bytes.
  - `SensorReader.Update` is the imperative sweep. Its loop is proved against `Swept`, a step-by-step specification. `SweptComputes` states what `Swept` stores: for each metric, the value of the last applied reading carrying its (sensor name, label) pair; for the CPU frequency, the mean of the per-core clocks.

Rust `f64` values are exact reals. The conversion `x as f32` written big-endian is a
parameter `f32Be` of every operation that writes a temperature. `f64::round` and the
saturating casts `as u16` and `as u8` are written out. The `u16` checksum accumulator
is written with wrap-around, and `DataBlockSumFitsU16` proves that it never wraps.

Facts about the code that its doc comments or its configuration do not make obvious, all modelled as the code does them:

- After `DisplayPayload::new`, byte 6 (the mode) holds 2, the tag of `DisplayMode::default()`. The payload's derived `Default` takes that default mode, `CpuFrequency`.
- The doc comment of `retry_with_backoff` (src/helpers.rs:5) calls it exponential backoff, but it sleeps the same `delay_secs` after every failed attempt but the last, after which it returns without sleeping.
- The doc comment of `max_retries` (src/helpers.rs:8) calls it the maximum number of retry attempts, but it is the total number of attempts. A budget of 0 still makes one call.
- The reader's own retry wrapper is configured differently: 3 retries, so up to 4 calls, with 5 seconds between calls.

## Model

| member | source | states |
|---|---|---|
| `Readings.Discriminant` | src/sensor_readings.rs:16-22 | Celsius is the byte 0, Fahrenheit the byte 1, each in both directions |
| `Readings.ToStr` | src/sensor_readings.rs:24-31 | a one-letter symbol, "C" exactly for Celsius, "F" exactly for Fahrenheit |
| `Readings.UnitEncodingsInjective` | src/sensor_readings.rs:16-31 | distinct units have distinct symbols and distinct discriminants |
| `Readings.Equals` | src/sensor_readings.rs:1-15 | the derived `PartialEq` holds exactly when the two records are equal |
| `Helpers.AttemptLimit` | src/helpers.rs:27-38 | when every call fails, the number of calls is `max_retries`, and never less than one |
| `Helpers.FirstSuccess` | src/helpers.rs:29-31 | the index of the first successful call below a budget: every earlier call failed; the budget itself when none succeeded |
| `Helpers.RetryTests` | src/helpers.rs:60-96 | the three unit tests hold of the model: success on the first call; success on the third call after two failures; an error after exactly 3 calls; and a budget of 0 makes exactly one call with no sleep |
| `Helpers.RetryWithBackoff` | src/helpers.rs:23-52 | stops at the first success or after the budget; returns that success, or the last error with the budget; exactly one `delay_secs` sleep after each failure but the last |
| `Ch170Layout.LayoutIsSixtyFourBytes` | src/ch_170.rs:108-202 | fields follow in declaration order with no padding; every named offset is the field's start; the data block is 39 bytes; the report is 64 bytes |
| `Ch170.Tag` | src/ch_170.rs:76-82 | every mode byte is 2, 3 or 4 |
| `Ch170.TagInjective` | src/ch_170.rs:76-82 | distinct modes have distinct tags |
| `Ch170.DefaultMode` | src/ch_170.rs:84-88 | the default mode is the one with tag 2 |
| `Ch170.Next` | src/ch_170.rs:91-97 | `next` never keeps the mode, and takes tag 2 to 4, 4 to 3 and 3 to 2 |
| `Ch170.NextCyclesThroughAllModes` | src/ch_170.rs:84-97 | the default is CpuFrequency; `next` goes CpuFrequency, Gpu, CpuFan and back; no mode is its own successor; three steps return to the start |
| `Ch170.IncludesCpu` | src/ch_170.rs:99-105 | a mode shows the CPU group exactly when it does not show the GPU group |
| `Ch170.IncludesGpu` | src/ch_170.rs:103-105 | a mode shows the GPU group exactly when its tag is 4 |
| `Ch170.RoundHalfAwayFromZero` | src/ch_170.rs:147-150 | `f64::round` is within one half of its input, with ties away from zero |
| `Ch170.RoundU16` | src/ch_170.rs:147-150 | `round() as u16`: 0 below zero, 65535 from 65535 up, otherwise the nearest integer |
| `Ch170.RoundU8` | src/ch_170.rs:148 | `round() as u8`: 0 below zero, 255 from 255 up, otherwise the nearest integer |
| `Ch170.Be16` | src/ch_170.rs:116-127 | a `U16<BE>` field is two bytes, high byte first, that read back as the value |
| `Ch170.Patch` | src/ch_170.rs:145-158 | a field write puts its bytes at the field offset and keeps every other byte |
| `Ch170.WithCpuData` | src/ch_170.rs:145-151 | `set_cpu_data` leaves every CPU field holding its encoded metric, and changes no byte outside the CPU fields |
| `Ch170.WithGpuData` | src/ch_170.rs:153-158 | `set_gpu_data` leaves every GPU field holding its encoded metric, and changes no byte outside the GPU fields |
| `Ch170.CpuFieldsDetermineBytes` | src/ch_170.rs:145-151 | the CPU metrics determine every CPU field byte |
| `Ch170.GpuFieldsDetermineBytes` | src/ch_170.rs:153-158 | the GPU metrics determine every GPU field byte |
| `Ch170.ByteSumBound` | src/ch_170.rs:140-143 | a byte sum is at most 255 times the number of bytes |
| `Ch170.AccumulateU16` | src/ch_170.rs:141 | the wrapping `u16` accumulator is the exact byte sum while that sum cannot reach 65536 |
| `Ch170.DataBlockSumFitsU16` | src/ch_170.rs:140-143 | the 39-byte data block never overflows the `u16` accumulator |
| `Ch170.DataChecksum` | src/ch_170.rs:140-143 | the checksum of the data block is its exact byte sum modulo 256 |
| `Ch170.Encoded` | src/ch_170.rs:181-193 | the update sets the mode tag and the shown group's fields; the checksum byte is the data block's sum modulo 256; every other byte is unchanged |
| `Ch170.GpuModeKeepsCpuFields` | src/ch_170.rs:184-190 | in Gpu mode the CPU fields keep their previous bytes |
| `Ch170.CpuModesKeepGpuFields` | src/ch_170.rs:184-190 | in the two CPU modes the GPU fields keep their previous bytes |
| `Ch170.UpdateKeepsFrame` | src/ch_170.rs:171-193 | any payload meeting the update's contract, made from a framed payload, is framed |
| `Ch170.UpdatesAgree` | src/ch_170.rs:181-193 | two payloads meeting the update's contract for the same mode and readings are equal when their inputs agree on the bytes the update keeps |
| `Ch170.EncodedKeepsFrame` | src/ch_170.rs:171-193 | an update keeps the report id, header, a valid mode tag, the unit flag, the zero PSU fields and filler, the terminator and the zero padding |
| `Ch170.EncodedIdempotent` | src/ch_170.rs:181-193 | updating twice with the same mode and readings gives the bytes of updating once |
| `Ch170.EncodedDeterministic` | src/ch_170.rs:181-193 | the result depends only on the bytes the update does not rewrite |
| `Ch170.InitialPayload` | src/ch_170.rs:171-179 | the 64 bytes of `DisplayPayload::new`: report id 16, header 104 1 6 35 1, mode tag 2, unit flag 0, terminator 22, every other byte 0 |
| `Ch170.FirstDefaultUpdateKeepsGpuZero` | src/ch_170.rs:171-193 | the first update after `new` in the default mode writes the CPU fields and the checksum and leaves every GPU field zero |
| `Ch170.DisplayPayload.constructor` | src/ch_170.rs:171-179 | a fresh, framed array holding exactly `InitialPayload()` |
| `Ch170.DisplayPayload.WriteU16` | src/ch_170.rs:147-150 | assigning a `U16<BE>` field patches its two bytes in place |
| `Ch170.DisplayPayload.WriteF32` | src/ch_170.rs:146 | assigning an `F32<BE>` field patches its four bytes in place |
| `Ch170.DisplayPayload.SetCpuData` | src/ch_170.rs:145-151 | the array afterwards holds `WithCpuData` of the array before |
| `Ch170.DisplayPayload.SetGpuData` | src/ch_170.rs:153-158 | the array afterwards holds `WithGpuData` of the array before |
| `Ch170.DisplayPayload.Update` | src/ch_170.rs:181-193 | the array afterwards holds `Encoded` of the array before; the frame set by `new` is preserved |
| `Ch170.CH170Display.constructor` | src/ch_170.rs:31-41 | a fresh, framed payload holding exactly `InitialPayload()`, and the default mode |
| `Ch170.CH170Display.SwitchMode` | src/ch_170.rs:43-46 | the mode becomes its `next` |
| `Ch170.CH170Display.Update` | src/ch_170.rs:48-49 | the payload bytes become `Encoded` for the current mode; the frame is preserved |
| `HwInfoReader.NewReadings` | src/sensor_reader.rs:83-90 | polling period 2000 ms, every metric 0 |
| `HwInfoReader.MetricPairsDistinct` | src/sensor_reader.rs:146-186 | each (sensor name, label) pair feeds at most one metric |
| `HwInfoReader.Contains` | src/sensor_reader.rs:159 | `str::contains` holds exactly when the pattern occurs at some index |
| `HwInfoReader.Dispatch` | src/sensor_reader.rs:146-186 | a reading sets exactly the metric whose pair it carries; a per-core clock adds to the running sum and count, and the CPU frequency becomes their mean; nothing else changes |
| `HwInfoReader.UnrecognisedPairChangesNothing` | src/sensor_reader.rs:146-186 | a reading with an unknown pair that is not a per-core clock changes nothing |
| `HwInfoReader.Step` | src/sensor_reader.rs:139-188 | one pass of the loop body: an out-of-range reading leaves the whole state, pointer included, as it was; an in-range reading advances the pointer by one; the polling period is untouched |
| `HwInfoReader.Iterate` | src/sensor_reader.rs:138-189 | after n passes the pointer has moved at most n readings and the polling period is untouched |
| `HwInfoReader.Swept` | src/sensor_reader.rs:123-192 | the record `update` stores holds the header's polling period; `SweptComputes` states the rest |
| `HwInfoReader.InRangePrefix` | src/sensor_reader.rs:138-142 | the length of the run of readings before the first out-of-range sensor index |
| `HwInfoReader.ProcessComputes` | src/sensor_reader.rs:143-186 | over in-range readings, each metric ends at the last value carrying its pair, and the clock sum and count grow by the per-core clocks met |
| `HwInfoReader.IterateInRange` | src/sensor_reader.rs:138-189 | while every reading so far was in range, the loop has processed exactly those readings, in order |
| `HwInfoReader.IterateFrozen` | src/sensor_reader.rs:140-142 | once the pointer rests on an out-of-range reading, further passes change nothing |
| `HwInfoReader.SweptProcessesApplied` | src/sensor_reader.rs:138-189 | an update as written processes exactly the readings before the first out-of-range sensor index, in order |
| `HwInfoReader.SweptComputes` | src/sensor_reader.rs:123-192 | an update copies the polling period; each metric ends at the last applied value carrying its pair, or its previous value; the CPU frequency is the mean of the applied per-core clocks, or its previous value |
| `HwInfoReader.SweptUnrecognisedKeepsReadings` | src/sensor_reader.rs:130-189 | when no applied reading is recognised, an update only copies the polling period |
| `HwInfoReader.SweptIgnoresReadingsAfterFirstOutOfRange` | src/sensor_reader.rs:138-189 | readings after the first out-of-range sensor index do not affect the result |
| `HwInfoReader.StepSkipping` | src/sensor_reader.rs:139-188 | the corrected loop body: the pointer always advances by one; an out-of-range reading changes nothing else |
| `HwInfoReader.IterateSkipping` | src/sensor_reader.rs:138-189 | after n corrected passes the pointer has moved exactly n readings and the polling period is untouched |
| `HwInfoReader.SweptSkipping` | src/sensor_reader.rs:123-192 | the record the corrected update stores holds the header's polling period; `SweptSkippingComputes` states the rest |
| `HwInfoReader.InRangeReadings` | src/sensor_reader.rs:140-142 | a reading is kept exactly when it is one of the input's readings and its sensor index is in range; nothing is added; all are kept when every index is in range |
| `HwInfoReader.IterateSkippingProcessesInRange` | src/sensor_reader.rs:138-189 | with the pointer advanced past out-of-range readings, the loop processes every in-range reading in order |
| `HwInfoReader.ProcessFromStart` | src/sensor_reader.rs:130-189 | processing in-range readings from the start of an update copies the polling period, leaves each metric at the last value carrying its pair or its previous value, and sets the CPU frequency to the mean of the per-core clocks met or leaves it as it was |
| `HwInfoReader.SweptSkippingProcessesInRange` | src/sensor_reader.rs:138-189 | the corrected update processes exactly the in-range readings among the header's count, in order |
| `HwInfoReader.SweptSkippingComputes` | src/sensor_reader.rs:138-189 | the corrected sweep sets each metric from the last in-range reading carrying its pair, and the CPU frequency to the mean of every in-range per-core clock |
| `HwInfoReader.SweepsAgreeWhenAllInRange` | src/sensor_reader.rs:138-189 | with no out-of-range sensor index, the sweep as written and the corrected sweep store the same record |
| `HwInfoReader.OutOfRangeReadingHidesLaterReadings` | src/sensor_reader.rs:140-142 | one stray reading ahead of Tctl/Tdie leaves the CPU temperature at its previous value; the corrected sweep stores 75.5 |
| `HwInfoReader.OpenViewWithRetry` | src/sensor_reader.rs:230-251 | at most 1 + 3 opens; returns the first success or the last failure; a 5-second sleep after each failure but the last |
| `HwInfoReader.CopySensorDescriptors` | src/sensor_reader.rs:105-112 | the copy holds the first `sensor_elements_number` descriptors, in order |
| `HwInfoReader.SensorReader.constructor` | src/sensor_reader.rs:101-121 | the descriptors copied from the view, and `SensorReadings::new` |
| `HwInfoReader.SensorReader.Update` | src/sensor_reader.rs:123-192 | the record afterwards is `Swept` of the view, the descriptors and the record before |
| `HwInfoReader.SensorReader.UpdateSkippingOutOfRange` | src/sensor_reader.rs:138-189 | the corrected update: the record afterwards is `SweptSkipping` of the view, the descriptors and the record before |
| `HwInfoReader.Connect` | src/sensor_reader.rs:101-121 | at most 1 + 3 opens, every one before the last failed, a 5-second sleep after each of them; an error only after all four opens failed, returned as the last one; otherwise a fresh reader holding the view's descriptors and `SensorReadings::new` |

## Left out

- The HID transport: finding the device (`connect_to_display`, `open_hid_device`), the write, and the reconnect-and-rewrite path of `CH170Display::update`. These are foreign calls. `CH170Display.Update` models only the encoding step.
- The Win32 mapping calls inside `get_hwinfo_shared_memory_view` (`OpenFileMappingW`, `MapViewOfFile`). These are foreign calls. The model receives their outcome, a view or one of the two errors, as the parameter `open`.
- `Drop for SensorReader`, which unmaps the view. This is a foreign call.
- The reconnect branch at the start of `SensorReader::update`. The view pointer is checked non-null when it is mapped and is never reassigned, so the branch cannot run; the modelled view is a value.
- Byte addresses and record sizes in the shared region: the reading records are `repr(C, packed(1))` (src/sensor_reader.rs:26), the sensor descriptors `repr(C, align(1))` (src/sensor_reader.rs:43). The tables are given as the records the pointers read. The code advances by whole records and never consults `reading_element_size`.
- The sizes of the two tables. `SensorTableInBounds` and `ReadingTableInBounds` require the mapping to hold at least as many records as the header announces. The code reads that many records without checking (src/sensor_reader.rs:108-111 and 138-139), so a shorter mapping would be read out of bounds; the model does not describe that case.
- The memory layout of the header. `HWiNFOSharedMemory` (src/sensor_reader.rs:53-67) has no `repr` attribute, so the Rust compiler may order its fields as it likes. Read over HWiNFO's memory, the field values the code sees then depend on that order. The model takes the header as its named fields, as if the layout matched HWiNFO's.
- Decoding of the fixed-size zero-terminated names (`zstr::as_str`). The names are given as the strings they decode to.
- Floating point. NaN, infinities and rounding do not exist in the reals, so the cast of NaN to 0 and the `f32` narrowing are not modelled.
- Logging and tracing, and `thread::sleep`. The sleeps are recorded as a sequence of delays instead.
- `main.rs`, the polling loop and the hardware test. They are outside the core.
- `Helpers.RetryWithBackoff`: the error's context text, "Operation failed after {max_retries} attempts", is modelled as the structured `FailedAfter(maxRetries, cause)`.
- `Readings.SensorReadings`'s derived `Debug` and `Clone`. They have no behaviour worth stating.

## Findings

| source | as written | input that shows it | evidently intended | confidence | as-written member | corrected member |
|---|---|---|---|---|---|---|
| src/sensor_reader.rs:140-142 | `continue` on an out-of-range sensor index skips the pointer advance at line 188. Every later pass reads the same record again, so no later reading is applied. | Two readings under a one-descriptor sensor table: the first has sensor index 1, the second is the Tctl/Tdie reading 75.5. The CPU temperature keeps its previous value. | The out-of-range reading is skipped and the sweep goes on with the next one. | high; not executed | `HwInfoReader.OutOfRangeReadingHidesLaterReadings` | `HwInfoReader.SweptSkippingComputes` |

`SensorReader.Update` models the loop as written. `SensorReader.UpdateSkippingOutOfRange` is the corrected loop, and `SweepsAgreeWhenAllInRange` shows that the two agree whenever every sensor index is in range.
