/**
 * The HWiNFO shared-memory reader (src/sensor_reader.rs). The mapped region
 * is modelled as a value: the header, the sensor-descriptor table that
 * follows it, and the reading table. Entry k of `readingTable` is the record
 * the reading pointer designates after k advances from the table start
 * (header size + sensor_elements_number * sensor_element_size); entry i of
 * `sensorTable` is the i-th descriptor after the header.
 */
module HwInfoReader {
  import opened Primitive
  import opened Outcomes
  import Helpers

  datatype SensorReadingType = None | Temp | Volt | Fan | Current | Power | Clock | Usage | Other

  /** `HWiNFOSharedMemory`, the header of the region. */
  datatype Header = Header(
    signature: u32,
    version: u32,
    revision: u32,
    pollTime: int,
    sensorSectionOffset: u32,
    sensorElementSize: u32,
    sensorElementsNumber: u32,
    readingSectionOffset: u32,
    readingElementSize: u32,
    readingElementsNumber: u32,
    pollingPeriod: u32)

  /** `HWiNFOSensorElement`; the fixed-size zero-terminated names are given as the strings they hold. */
  datatype SensorElement = SensorElement(
    sensorId: u32,
    sensorInst: u32,
    sensorNameOrig: string,
    sensorNameUser: string,
    sensorNameUserUtf8: string)

  /** `HWiNFOReadingElement`; `f64` values are reals. */
  datatype ReadingElement = ReadingElement(
    readingType: SensorReadingType,
    sensorIndex: u32,
    readingId: u32,
    originalLabel: string,
    userLabel: string,
    unit: string,
    value: real,
    minValue: real,
    maxValue: real,
    avgValue: real,
    userLabelUtf8: string,
    unitUtf8: string)

  /** The content of the mapped view at one moment. */
  datatype SharedMemory = SharedMemory(
    header: Header,
    sensorTable: seq<SensorElement>,
    readingTable: seq<ReadingElement>)

  /**
   * The mapping holds as many descriptors as its header announces: the
   * reader dereferences that many records without a check of its own.
   */
  predicate SensorTableInBounds(view: SharedMemory) {
    view.header.sensorElementsNumber <= |view.sensorTable|
  }

  /** Likewise for the reading table walked by each update. */
  predicate ReadingTableInBounds(view: SharedMemory) {
    view.header.readingElementsNumber <= |view.readingTable|
  }

  /** The reader's own `SensorReadings` record (this revision has ten fields). */
  datatype SensorReadings = SensorReadings(
    pollingPeriod: u32,
    cpuTemp: real,
    cpuPower: real,
    cpuUsage: real,
    cpuFreq: real,
    cpuCoolerRpm: real,
    gpuTemp: real,
    gpuPower: real,
    gpuUsage: real,
    gpuFreq: real)

  /** Two records with the same polling period, CPU frequency and eight metrics are equal. */
  lemma SameMetricsSameReadings(r: SensorReadings, r': SensorReadings)
    requires r.pollingPeriod == r'.pollingPeriod && r.cpuFreq == r'.cpuFreq
    requires forall f :: Get(r, f) == Get(r', f)
    ensures r == r'
  {
    assert Get(r, CpuTemp) == Get(r', CpuTemp) && Get(r, CpuPower) == Get(r', CpuPower);
    assert Get(r, CpuUsage) == Get(r', CpuUsage) && Get(r, CpuCoolerRpm) == Get(r', CpuCoolerRpm);
    assert Get(r, GpuTemp) == Get(r', GpuTemp) && Get(r, GpuPower) == Get(r', GpuPower);
    assert Get(r, GpuUsage) == Get(r', GpuUsage) && Get(r, GpuFreq) == Get(r', GpuFreq);
  }

  /** The eight metrics that one exact (sensor name, reading label) pair feeds. */
  datatype Metric = CpuTemp | CpuPower | CpuUsage | CpuCoolerRpm | GpuTemp | GpuPower | GpuUsage | GpuFreq

  function Get(r: SensorReadings, f: Metric): real {
    match f
    case CpuTemp => r.cpuTemp
    case CpuPower => r.cpuPower
    case CpuUsage => r.cpuUsage
    case CpuCoolerRpm => r.cpuCoolerRpm
    case GpuTemp => r.gpuTemp
    case GpuPower => r.gpuPower
    case GpuUsage => r.gpuUsage
    case GpuFreq => r.gpuFreq
  }

  const CPU_ENHANCED_SENSOR := "CPU [#0]: AMD Ryzen 7 9800X3D: Enhanced"
  const CPU_SENSOR := "CPU [#0]: AMD Ryzen 7 9800X3D"
  const MOTHERBOARD_SENSOR := "ASUS ROG STRIX B850-I GAMING WIFI (Nuvoton NCT6701D)"
  const GPU_SENSOR := "GPU [#0]: NVIDIA GeForce RTX 5080: Inno3D GeForce RTX 5080"
  const PERF_CLOCK_MARK := "perf #"

  /** The sensor display name a metric is read from. */
  function SensorOf(f: Metric): string {
    match f
    case CpuTemp => CPU_ENHANCED_SENSOR
    case CpuPower => CPU_ENHANCED_SENSOR
    case CpuUsage => CPU_SENSOR
    case CpuCoolerRpm => MOTHERBOARD_SENSOR
    case GpuTemp => GPU_SENSOR
    case GpuPower => GPU_SENSOR
    case GpuUsage => GPU_SENSOR
    case GpuFreq => GPU_SENSOR
  }

  /** The reading label a metric is read from. */
  function LabelOf(f: Metric): string {
    match f
    case CpuTemp => "CPU (Tctl/Tdie)"
    case CpuPower => "CPU Package Power"
    case CpuUsage => "Total CPU Usage"
    case CpuCoolerRpm => "CPU"
    case GpuTemp => "GPU Temperature"
    case GpuPower => "GPU Power"
    case GpuUsage => "GPU Core Load"
    case GpuFreq => "GPU Clock"
  }

  /** Each (sensor, label) pair feeds at most one metric. */
  lemma MetricPairsDistinct(f: Metric, g: Metric)
    ensures (SensorOf(f), LabelOf(f)) == (SensorOf(g), LabelOf(g)) ==> f == g
  {
  }

  /** `pat` occurs in `s` starting at index `i`. */
  predicate OccursAt(s: string, pat: string, i: int) {
    0 <= i <= |s| - |pat| && s[i..i + |pat|] == pat
  }

  /** A slice of the tail of `s` is the slice of `s` one index further on. */
  lemma TailSlice(s: string, j: nat, n: nat)
    requires 1 <= j && j + n <= |s|
    ensures s[1..][j - 1..j - 1 + n] == s[j..j + n]
  {
    var shifted := s[1..][j - 1..j - 1 + n];
    var direct := s[j..j + n];
    assert forall k :: 0 <= k < n ==> shifted[k] == direct[k];
  }

  /** `str::contains`: `pat` occurs somewhere in `s`. */
  function Contains(s: string, pat: string): (b: bool)
    ensures b <==> exists i :: OccursAt(s, pat, i)
    decreases |s|
  {
    if |s| < |pat| then false
    else if s[..|pat|] == pat then assert OccursAt(s, pat, 0); true
    else
      var b := Contains(s[1..], pat);
      assert forall i :: OccursAt(s[1..], pat, i) ==> OccursAt(s, pat, i + 1) by {
        forall i | OccursAt(s[1..], pat, i) ensures OccursAt(s, pat, i + 1) {
          TailSlice(s, i + 1, |pat|);
        }
      }
      assert forall i :: OccursAt(s, pat, i) ==> OccursAt(s[1..], pat, i - 1) by {
        forall i | OccursAt(s, pat, i) ensures OccursAt(s[1..], pat, i - 1) {
          assert i != 0;
          TailSlice(s, i, |pat|);
        }
      }
      b
  }

  /** A per-core clock reading: under the CPU sensor, a label other than the usage label that contains "perf #". */
  predicate IsPerfClock(sensorName: string, readingLabel: string) {
    sensorName == CPU_SENSOR && readingLabel != LabelOf(CpuUsage) && Contains(readingLabel, PERF_CLOCK_MARK)
  }

  /** `SensorReadings::new`: a polling period of 2000 ms, every metric zero. */
  function NewReadings(): (r: SensorReadings)
    ensures r.pollingPeriod == 2000
    ensures r.cpuFreq == 0.0
    ensures forall f :: Get(r, f) == 0.0
  {
    SensorReadings(2000, 0.0, 0.0, 0.0, 0.0, 0.0, 0.0, 0.0, 0.0, 0.0)
  }

  // ---------------------------------------------------------------------
  // The sweep over the reading table

  /**
   * The loop state of `update`: the reading table index the pointer is at,
   * the running sum and count of per-core clocks, and the record.
   */
  datatype SweepState = SweepState(cursor: nat, freqSum: real, freqCount: nat, readings: SensorReadings)

  /**
   * The `match` on (sensor name, label) for one in-range reading. Its
   * contract is the reference table: a reading feeds exactly the metric
   * whose pair it carries, per-core clocks update the running mean, and
   * nothing else changes.
   */
  function Dispatch(s: SweepState, sensorName: string, readingLabel: string, value: real): (t: SweepState)
    ensures t.cursor == s.cursor && t.readings.pollingPeriod == s.readings.pollingPeriod
    ensures forall f :: (Get(t.readings, f) ==
      if sensorName == SensorOf(f) && readingLabel == LabelOf(f) then value else Get(s.readings, f))
    ensures IsPerfClock(sensorName, readingLabel) ==>
      t.freqSum == s.freqSum + value && t.freqCount == s.freqCount + 1
      && t.readings.cpuFreq == t.freqSum / t.freqCount as real
    ensures !IsPerfClock(sensorName, readingLabel) ==>
      t.freqSum == s.freqSum && t.freqCount == s.freqCount && t.readings.cpuFreq == s.readings.cpuFreq
  {
    var r := s.readings;
    if sensorName == CPU_ENHANCED_SENSOR then
      if readingLabel == "CPU (Tctl/Tdie)" then s.(readings := r.(cpuTemp := value))
      else if readingLabel == "CPU Package Power" then s.(readings := r.(cpuPower := value))
      else s
    else if sensorName == CPU_SENSOR then
      if readingLabel == "Total CPU Usage" then s.(readings := r.(cpuUsage := value))
      else if Contains(readingLabel, PERF_CLOCK_MARK) then
        var sum := s.freqSum + value;
        var count := s.freqCount + 1;
        s.(freqSum := sum, freqCount := count, readings := r.(cpuFreq := sum / count as real))
      else s
    else if sensorName == MOTHERBOARD_SENSOR then
      if readingLabel == "CPU" then s.(readings := r.(cpuCoolerRpm := value)) else s
    else if sensorName == GPU_SENSOR then
      if readingLabel == "GPU Temperature" then s.(readings := r.(gpuTemp := value))
      else if readingLabel == "GPU Power" then s.(readings := r.(gpuPower := value))
      else if readingLabel == "GPU Core Load" then s.(readings := r.(gpuUsage := value))
      else if readingLabel == "GPU Clock" then s.(readings := r.(gpuFreq := value))
      else s
    else s
  }

  /** A reading whose (sensor, label) pair is in neither table leaves the state as it was. */
  lemma UnrecognisedPairChangesNothing(s: SweepState, sensorName: string, readingLabel: string, value: real)
    requires forall f :: !(sensorName == SensorOf(f) && readingLabel == LabelOf(f))
    requires !IsPerfClock(sensorName, readingLabel)
    ensures Dispatch(s, sensorName, readingLabel, value) == s
  {
    var t := Dispatch(s, sensorName, readingLabel, value);
    assert Get(t.readings, CpuTemp) == Get(s.readings, CpuTemp);
    assert Get(t.readings, CpuPower) == Get(s.readings, CpuPower);
    assert Get(t.readings, CpuUsage) == Get(s.readings, CpuUsage);
    assert Get(t.readings, CpuCoolerRpm) == Get(s.readings, CpuCoolerRpm);
    assert Get(t.readings, GpuTemp) == Get(s.readings, GpuTemp);
    assert Get(t.readings, GpuPower) == Get(s.readings, GpuPower);
    assert Get(t.readings, GpuUsage) == Get(s.readings, GpuUsage);
    assert Get(t.readings, GpuFreq) == Get(s.readings, GpuFreq);
  }

  predicate InRange(reading: ReadingElement, sensors: seq<SensorElement>) {
    reading.sensorIndex < |sensors|
  }

  /** Processing of one in-range reading: dispatch on its pair, then advance the pointer. */
  function Advance(s: SweepState, reading: ReadingElement, sensors: seq<SensorElement>): (t: SweepState)
    requires InRange(reading, sensors)
  {
    var d := Dispatch(s, sensors[reading.sensorIndex].sensorNameUserUtf8, reading.userLabelUtf8, reading.value);
    d.(cursor := s.cursor + 1)
  }

  /**
   * One pass of the loop body: an out-of-range sensor index `continue`s
   * before the pointer advance, so the state (pointer included) stays as it was.
   */
  function Step(s: SweepState, table: seq<ReadingElement>, sensors: seq<SensorElement>): (t: SweepState)
    requires s.cursor < |table|
    ensures !InRange(table[s.cursor], sensors) ==> t == s
    ensures InRange(table[s.cursor], sensors) ==> t.cursor == s.cursor + 1
    ensures t.readings.pollingPeriod == s.readings.pollingPeriod
  {
    var reading := table[s.cursor];
    if !InRange(reading, sensors) then s else Advance(s, reading, sensors)
  }

  /** The state after `n` passes of the loop body. */
  function Iterate(table: seq<ReadingElement>, sensors: seq<SensorElement>, s: SweepState, n: nat): (t: SweepState)
    requires s.cursor + n <= |table|
    ensures s.cursor <= t.cursor <= s.cursor + n
    ensures t.readings.pollingPeriod == s.readings.pollingPeriod
  {
    if n == 0 then s else Step(Iterate(table, sensors, s, n - 1), table, sensors)
  }

  /** The state an update starts its sweep in. */
  function SweepStart(view: SharedMemory, previous: SensorReadings): SweepState {
    SweepState(0, 0.0, 0, previous.(pollingPeriod := view.header.pollingPeriod))
  }

  /** The record after `update` reads `view`, starting from `previous`. */
  function Swept(view: SharedMemory, sensors: seq<SensorElement>, previous: SensorReadings): (r: SensorReadings)
    requires ReadingTableInBounds(view)
    ensures r.pollingPeriod == view.header.pollingPeriod
  {
    Iterate(view.readingTable, sensors, SweepStart(view, previous), view.header.readingElementsNumber).readings
  }

  // ---------------------------------------------------------------------
  // What the sweep computes

  /** Length of the longest prefix of `rs` whose sensor indexes are all in range. */
  function InRangePrefix(rs: seq<ReadingElement>, sensors: seq<SensorElement>): (k: nat)
    ensures k <= |rs|
    ensures forall j :: 0 <= j < k ==> InRange(rs[j], sensors)
    ensures k < |rs| ==> !InRange(rs[k], sensors)
  {
    if rs == [] || !InRange(rs[0], sensors) then 0
    else
      var k := InRangePrefix(rs[1..], sensors);
      assert forall j :: 1 <= j < k + 1 ==> rs[j] == rs[1..][j - 1];
      k + 1
  }

  /** The readings a sweep applies: those before the first out-of-range sensor index. */
  function Applied(view: SharedMemory, sensors: seq<SensorElement>): (rs: seq<ReadingElement>)
    requires ReadingTableInBounds(view)
    ensures forall j :: 0 <= j < |rs| ==> InRange(rs[j], sensors)
  {
    var table := view.readingTable[..view.header.readingElementsNumber];
    table[..InRangePrefix(table, sensors)]
  }

  ghost predicate AllInRange(rs: seq<ReadingElement>, sensors: seq<SensorElement>) {
    forall j :: 0 <= j < |rs| ==> InRange(rs[j], sensors)
  }

  /** Advance through every reading of `rs`, in order. */
  function Process(rs: seq<ReadingElement>, sensors: seq<SensorElement>, s: SweepState): (t: SweepState)
    requires AllInRange(rs, sensors)
    ensures t.cursor == s.cursor + |rs|
  {
    if rs == [] then s else Advance(Process(rs[..|rs| - 1], sensors, s), rs[|rs| - 1], sensors)
  }

  /** The sensor name and label of an in-range reading. */
  function PairOf(reading: ReadingElement, sensors: seq<SensorElement>): (string, string)
    requires InRange(reading, sensors)
  {
    (sensors[reading.sensorIndex].sensorNameUserUtf8, reading.userLabelUtf8)
  }

  /** The value of the last reading of `rs` that carries metric `f`'s pair, or `fallback` when none does. */
  function LastValue(rs: seq<ReadingElement>, sensors: seq<SensorElement>, f: Metric, fallback: real): real
    requires AllInRange(rs, sensors)
  {
    if rs == [] then fallback
    else if PairOf(rs[|rs| - 1], sensors) == (SensorOf(f), LabelOf(f)) then rs[|rs| - 1].value
    else LastValue(rs[..|rs| - 1], sensors, f, fallback)
  }

  /** The values of the per-core clock readings of `rs`, in order. */
  function PerfClocks(rs: seq<ReadingElement>, sensors: seq<SensorElement>): seq<real>
    requires AllInRange(rs, sensors)
  {
    if rs == [] then []
    else
      var (name, readingLabel) := PairOf(rs[|rs| - 1], sensors);
      PerfClocks(rs[..|rs| - 1], sensors) + if IsPerfClock(name, readingLabel) then [rs[|rs| - 1].value] else []
  }

  function Sum(xs: seq<real>): real {
    if xs == [] then 0.0 else Sum(xs[..|xs| - 1]) + xs[|xs| - 1]
  }

  function Mean(xs: seq<real>): real
    requires xs != []
  {
    Sum(xs) / |xs| as real
  }

  /**
   * Processing a run of in-range readings: every metric holds the value of
   * the last reading carrying its pair, and the clock accumulators grow by
   * the per-core clocks met, so the frequency is their running mean.
   */
  lemma {:induction false} ProcessComputes(rs: seq<ReadingElement>, sensors: seq<SensorElement>, s: SweepState)
    requires AllInRange(rs, sensors)
    ensures var t := Process(rs, sensors, s);
      && t.readings.pollingPeriod == s.readings.pollingPeriod
      && (forall f :: Get(t.readings, f) == LastValue(rs, sensors, f, Get(s.readings, f)))
      && t.freqSum == s.freqSum + Sum(PerfClocks(rs, sensors))
      && t.freqCount == s.freqCount + |PerfClocks(rs, sensors)|
      && t.readings.cpuFreq ==
           if PerfClocks(rs, sensors) == [] then s.readings.cpuFreq else t.freqSum / t.freqCount as real
  {
    if rs != [] {
      var init := rs[..|rs| - 1];
      ProcessComputes(init, sensors, s);
      var clocks := PerfClocks(init, sensors);
      assert (clocks + [rs[|rs| - 1].value])[..|clocks|] == clocks;
      assert clocks + [] == clocks;
    }
  }

  /** While every reading so far was in range, the loop has processed exactly those readings. */
  lemma {:induction false} IterateInRange(table: seq<ReadingElement>, sensors: seq<SensorElement>, s: SweepState, i: nat)
    requires s.cursor == 0 && i <= |table| && AllInRange(table[..i], sensors)
    ensures Iterate(table, sensors, s, i) == Process(table[..i], sensors, s)
  {
    if i > 0 {
      assert table[..i][..i - 1] == table[..i - 1];
      assert forall j :: 0 <= j < i - 1 ==> table[..i - 1][j] == table[..i][j];
      IterateInRange(table, sensors, s, i - 1);
    }
  }

  /** Once the pointer rests on an out-of-range reading, further passes change nothing. */
  lemma {:induction false} IterateFrozen(table: seq<ReadingElement>, sensors: seq<SensorElement>, s: SweepState, c: nat, i: nat)
    requires c <= i && s.cursor + i <= |table|
    requires Iterate(table, sensors, s, c).cursor == c && c < |table| && !InRange(table[c], sensors)
    ensures Iterate(table, sensors, s, i) == Iterate(table, sensors, s, c)
  {
    if i > c {
      IterateFrozen(table, sensors, s, c, i - 1);
    }
  }

  /**
   * What one update stores: the header's polling period; for each of the
   * eight metrics, the value of the last applied reading carrying its pair
   * (the previous value when there is none); for the CPU frequency, the mean
   * of the applied per-core clocks (the previous value when there is none).
   * A reading is applied when it comes before the first out-of-range sensor
   * index among the header's reading_elements_number readings.
   */
  lemma SweptComputes(view: SharedMemory, sensors: seq<SensorElement>, previous: SensorReadings)
    requires ReadingTableInBounds(view)
    ensures var r := Swept(view, sensors, previous);
      var applied := Applied(view, sensors);
      var clocks := PerfClocks(applied, sensors);
      && r.pollingPeriod == view.header.pollingPeriod
      && (forall f :: Get(r, f) == LastValue(applied, sensors, f, Get(previous, f)))
      && r.cpuFreq == if clocks == [] then previous.cpuFreq else Mean(clocks)
  {
    SweptProcessesApplied(view, sensors, previous);
    ProcessFromStart(Applied(view, sensors), sensors, view, previous);
  }

  /** An update processes exactly the applied readings, in order. */
  lemma SweptProcessesApplied(view: SharedMemory, sensors: seq<SensorElement>, previous: SensorReadings)
    requires ReadingTableInBounds(view)
    ensures Swept(view, sensors, previous) == Process(Applied(view, sensors), sensors, SweepStart(view, previous)).readings
  {
    var n := view.header.readingElementsNumber;
    var table := view.readingTable;
    var start := SweepStart(view, previous);
    var c := InRangePrefix(table[..n], sensors);
    assert table[..c] == Applied(view, sensors);
    IterateInRange(table, sensors, start, c);
    if c < n {
      assert table[c] == table[..n][c];
      IterateFrozen(table, sensors, start, c, n);
    }
  }

  /** An update whose applied readings carry no known pair and no per-core clock only copies the polling period. */
  lemma SweptUnrecognisedKeepsReadings(view: SharedMemory, sensors: seq<SensorElement>, previous: SensorReadings)
    requires ReadingTableInBounds(view)
    requires forall j, f :: 0 <= j < |Applied(view, sensors)| ==>
      PairOf(Applied(view, sensors)[j], sensors) != (SensorOf(f), LabelOf(f))
    requires PerfClocks(Applied(view, sensors), sensors) == []
    ensures Swept(view, sensors, previous) == previous.(pollingPeriod := view.header.pollingPeriod)
  {
    var applied := Applied(view, sensors);
    SweptComputes(view, sensors, previous);
    forall f ensures LastValue(applied, sensors, f, Get(previous, f)) == Get(previous, f) {
      LastValueWithoutMatch(applied, sensors, f, Get(previous, f));
    }
    var expected := previous.(pollingPeriod := view.header.pollingPeriod);
    assert forall f :: Get(expected, f) == Get(previous, f);
    SameMetricsSameReadings(Swept(view, sensors, previous), expected);
  }

  lemma {:induction false} LastValueWithoutMatch(rs: seq<ReadingElement>, sensors: seq<SensorElement>, f: Metric, fallback: real)
    requires AllInRange(rs, sensors)
    requires forall j :: 0 <= j < |rs| ==> PairOf(rs[j], sensors) != (SensorOf(f), LabelOf(f))
    ensures LastValue(rs, sensors, f, fallback) == fallback
  {
    if rs != [] {
      LastValueWithoutMatch(rs[..|rs| - 1], sensors, f, fallback);
    }
  }

  /**
   * Readings from the first out-of-range sensor index on are never applied:
   * two views that agree on the header and on the reading table up to and
   * including that entry yield the same record, whatever follows it.
   */
  lemma SweptIgnoresReadingsAfterFirstOutOfRange(
    view: SharedMemory, other: SharedMemory, sensors: seq<SensorElement>, previous: SensorReadings, c: nat)
    requires ReadingTableInBounds(view) && ReadingTableInBounds(other)
    requires other.header == view.header
    requires c < view.header.readingElementsNumber && !InRange(view.readingTable[c], sensors)
    requires other.readingTable[..c + 1] == view.readingTable[..c + 1]
    ensures Swept(other, sensors, previous) == Swept(view, sensors, previous)
  {
    var n := view.header.readingElementsNumber;
    var k := InRangePrefix(view.readingTable[..n], sensors);
    var k' := InRangePrefix(other.readingTable[..n], sensors);
    assert view.readingTable[..n][c] == view.readingTable[c];
    assert k <= c;
    forall j | 0 <= j <= c ensures other.readingTable[..n][j] == view.readingTable[..n][j] {
      assert other.readingTable[j] == other.readingTable[..c + 1][j];
    }
    assert k' == k;
    assert Applied(other, sensors) == Applied(view, sensors);
    SweptComputes(view, sensors, previous);
    SweptComputes(other, sensors, previous);
    var r := Swept(view, sensors, previous);
    var r' := Swept(other, sensors, previous);
    SameMetricsSameReadings(r, r');
  }

  // ---------------------------------------------------------------------
  // The sweep with the pointer advanced past out-of-range readings

  /**
   * The loop body as evidently intended: a reading whose sensor index is out
   * of range is skipped, and the pointer still moves on to the next reading.
   */
  function StepSkipping(s: SweepState, table: seq<ReadingElement>, sensors: seq<SensorElement>): (t: SweepState)
    requires s.cursor < |table|
    ensures t.cursor == s.cursor + 1
    ensures !InRange(table[s.cursor], sensors) ==> t == s.(cursor := s.cursor + 1)
    ensures t.readings.pollingPeriod == s.readings.pollingPeriod
  {
    var reading := table[s.cursor];
    if !InRange(reading, sensors) then s.(cursor := s.cursor + 1) else Advance(s, reading, sensors)
  }

  function IterateSkipping(table: seq<ReadingElement>, sensors: seq<SensorElement>, s: SweepState, n: nat): (t: SweepState)
    requires s.cursor + n <= |table|
    ensures t.cursor == s.cursor + n
    ensures t.readings.pollingPeriod == s.readings.pollingPeriod
  {
    if n == 0 then s else StepSkipping(IterateSkipping(table, sensors, s, n - 1), table, sensors)
  }

  /** The record `update` would store if every pass advanced the pointer. */
  function SweptSkipping(view: SharedMemory, sensors: seq<SensorElement>, previous: SensorReadings): (r: SensorReadings)
    requires ReadingTableInBounds(view)
    ensures r.pollingPeriod == view.header.pollingPeriod
  {
    IterateSkipping(view.readingTable, sensors, SweepStart(view, previous), view.header.readingElementsNumber).readings
  }

  /** The readings of `rs` whose sensor index is in range, in order. */
  function InRangeReadings(rs: seq<ReadingElement>, sensors: seq<SensorElement>): (qs: seq<ReadingElement>)
    ensures AllInRange(qs, sensors) && |qs| <= |rs|
    ensures (forall j :: 0 <= j < |rs| ==> InRange(rs[j], sensors)) ==> qs == rs
    ensures forall x :: x in qs <==> x in rs && InRange(x, sensors)
  {
    if rs == [] then []
    else
      var init := InRangeReadings(rs[..|rs| - 1], sensors);
      var last := rs[|rs| - 1];
      assert forall j :: 0 <= j < |rs| - 1 ==> rs[..|rs| - 1][j] == rs[j];
      assert rs[..|rs| - 1] + [last] == rs;
      init + if InRange(last, sensors) then [last] else []
  }

  /** The dispatch does not look at the pointer. */
  lemma DispatchIgnoresCursor(s: SweepState, c: nat, sensorName: string, readingLabel: string, value: real)
    ensures Dispatch(s.(cursor := c), sensorName, readingLabel, value) == Dispatch(s, sensorName, readingLabel, value).(cursor := c)
  {
  }

  lemma {:induction false} IterateSkippingProcessesInRange(
    table: seq<ReadingElement>, sensors: seq<SensorElement>, s: SweepState, i: nat)
    requires s.cursor == 0 && i <= |table|
    ensures IterateSkipping(table, sensors, s, i)
      == Process(InRangeReadings(table[..i], sensors), sensors, s).(cursor := i)
  {
    if i > 0 {
      IterateSkippingProcessesInRange(table, sensors, s, i - 1);
      var prefix := table[..i];
      assert prefix[..i - 1] == table[..i - 1];
      var qs := InRangeReadings(table[..i - 1], sensors);
      var reading := table[i - 1];
      assert prefix[i - 1] == reading;
      var p := Process(qs, sensors, s);
      var before := IterateSkipping(table, sensors, s, i - 1);
      assert before == p.(cursor := i - 1);
      if InRange(reading, sensors) {
        assert InRangeReadings(prefix, sensors) == qs + [reading];
        assert (qs + [reading])[..|qs|] == qs;
        assert Process(qs + [reading], sensors, s) == Advance(p, reading, sensors);
        DispatchIgnoresCursor(p, i - 1, PairOf(reading, sensors).0, PairOf(reading, sensors).1, reading.value);
        assert IterateSkipping(table, sensors, s, i) == Advance(before, reading, sensors);
      } else {
        assert InRangeReadings(prefix, sensors) == qs + [] == qs;
        assert IterateSkipping(table, sensors, s, i) == before.(cursor := i);
      }
    }
  }


  /** Processing in-range readings from the start of an update, stated in terms of the record before it. */
  lemma ProcessFromStart(qs: seq<ReadingElement>, sensors: seq<SensorElement>, view: SharedMemory, previous: SensorReadings)
    requires AllInRange(qs, sensors)
    ensures var r := Process(qs, sensors, SweepStart(view, previous)).readings;
      var clocks := PerfClocks(qs, sensors);
      && r.pollingPeriod == view.header.pollingPeriod
      && (forall f :: Get(r, f) == LastValue(qs, sensors, f, Get(previous, f)))
      && r.cpuFreq == if clocks == [] then previous.cpuFreq else Mean(clocks)
  {
    var start := SweepStart(view, previous);
    ProcessComputes(qs, sensors, start);
    assert forall f :: Get(start.readings, f) == Get(previous, f);
  }

  /** The corrected sweep processes the in-range readings among the header's reading_elements_number. */
  lemma SweptSkippingProcessesInRange(view: SharedMemory, sensors: seq<SensorElement>, previous: SensorReadings)
    requires ReadingTableInBounds(view)
    ensures SweptSkipping(view, sensors, previous) == Process(
      InRangeReadings(view.readingTable[..view.header.readingElementsNumber], sensors), sensors, SweepStart(view, previous)).readings
  {
    IterateSkippingProcessesInRange(view.readingTable, sensors, SweepStart(view, previous), view.header.readingElementsNumber);
  }

  /**
   * The corrected sweep applies every in-range reading among the header's
   * reading_elements_number: each metric holds the value of the last one
   * carrying its pair, and the CPU frequency is the mean of their per-core clocks.
   */
  lemma SweptSkippingComputes(view: SharedMemory, sensors: seq<SensorElement>, previous: SensorReadings)
    requires ReadingTableInBounds(view)
    ensures var r := SweptSkipping(view, sensors, previous);
      var applied := InRangeReadings(view.readingTable[..view.header.readingElementsNumber], sensors);
      var clocks := PerfClocks(applied, sensors);
      && r.pollingPeriod == view.header.pollingPeriod
      && (forall f :: Get(r, f) == LastValue(applied, sensors, f, Get(previous, f)))
      && r.cpuFreq == if clocks == [] then previous.cpuFreq else Mean(clocks)
  {
    var applied := InRangeReadings(view.readingTable[..view.header.readingElementsNumber], sensors);
    SweptSkippingProcessesInRange(view, sensors, previous);
    ProcessFromStart(applied, sensors, view, previous);
  }

  /** When no sensor index is out of range, the loop as written and the corrected one agree. */
  lemma SweepsAgreeWhenAllInRange(view: SharedMemory, sensors: seq<SensorElement>, previous: SensorReadings)
    requires ReadingTableInBounds(view)
    requires forall j :: 0 <= j < view.header.readingElementsNumber ==> InRange(view.readingTable[j], sensors)
    ensures Swept(view, sensors, previous) == SweptSkipping(view, sensors, previous)
  {
    var n := view.header.readingElementsNumber;
    var table := view.readingTable[..n];
    assert forall j :: 0 <= j < n ==> table[j] == view.readingTable[j];
    assert InRangeReadings(table, sensors) == table == Applied(view, sensors);
    SweptComputes(view, sensors, previous);
    SweptSkippingComputes(view, sensors, previous);
    var r := Swept(view, sensors, previous);
    var r' := SweptSkipping(view, sensors, previous);
    SameMetricsSameReadings(r, r');
  }

  /**
   * The loop as written: one reading with an out-of-range sensor index in
   * front of the Tctl/Tdie reading hides it, so the CPU temperature keeps its
   * previous value; the corrected sweep picks the reading up.
   */
  lemma OutOfRangeReadingHidesLaterReadings()
    ensures var sensors := [SensorElement(0, 0, "", "", CPU_ENHANCED_SENSOR)];
      var tctl := ReadingElement(Temp, 0, 0, "", "", "", 75.5, 0.0, 0.0, 0.0, LabelOf(CpuTemp), "");
      var stray := tctl.(sensorIndex := 1);
      var header := Header(0, 0, 0, 0, 0, 0, 1, 0, 0, 2, 2000);
      var view := SharedMemory(header, sensors, [stray, tctl]);
      && Swept(view, sensors, NewReadings()).cpuTemp == 0.0
      && SweptSkipping(view, sensors, NewReadings()).cpuTemp == 75.5
  {
    var sensors := [SensorElement(0, 0, "", "", CPU_ENHANCED_SENSOR)];
    var tctl := ReadingElement(Temp, 0, 0, "", "", "", 75.5, 0.0, 0.0, 0.0, LabelOf(CpuTemp), "");
    var stray := tctl.(sensorIndex := 1);
    var header := Header(0, 0, 0, 0, 0, 0, 1, 0, 0, 2, 2000);
    var view := SharedMemory(header, sensors, [stray, tctl]);
    var start := SweepStart(view, NewReadings());
    assert view.readingTable[0] == stray && !InRange(stray, sensors);
    assert Iterate(view.readingTable, sensors, start, 0) == start;
    assert Iterate(view.readingTable, sensors, start, 1) == start;
    assert Iterate(view.readingTable, sensors, start, 2) == start;
    assert IterateSkipping(view.readingTable, sensors, start, 0) == start;
    assert IterateSkipping(view.readingTable, sensors, start, 1) == start.(cursor := 1);
    assert view.readingTable[1] == tctl && InRange(tctl, sensors);
    assert Get(IterateSkipping(view.readingTable, sensors, start, 2).readings, CpuTemp) == 75.5;
  }

  // ---------------------------------------------------------------------
  // Connection

  /** The two ways `get_hwinfo_shared_memory_view` fails. */
  datatype OpenError = FileMappingNotFound | ViewNotMapped

  const OPEN_RETRIES: nat := 3
  const OPEN_RETRY_DELAY_SECS: nat := 5

  /**
   * `get_hwinfo_shared_memory_view_with_retry`. Call k of the open (from 0)
   * yields `open(k)`; `calls` counts the calls and `sleeps` records each
   * delay slept, in seconds. At most 1 + 3 calls; the first success or the
   * last failure is returned; a 5 s sleep follows each failure but the last.
   */
  method OpenViewWithRetry(open: nat -> Result<SharedMemory, OpenError>)
    returns (r: Result<SharedMemory, OpenError>, calls: nat, sleeps: seq<nat>)
    ensures var k := Helpers.FirstSuccess(open, OPEN_RETRIES + 1);
      calls == if k <= OPEN_RETRIES then k + 1 else OPEN_RETRIES + 1
    ensures forall j :: 0 <= j < calls - 1 ==> open(j).Err?
    ensures 1 <= calls && r == open(calls - 1)
    ensures sleeps == seq(calls - 1, _ => OPEN_RETRY_DELAY_SECS)
  {
    var retriesLeft: nat := OPEN_RETRIES;
    calls, sleeps := 0, [];
    while true
      invariant calls + retriesLeft == OPEN_RETRIES
      invariant forall j :: 0 <= j < calls ==> open(j).Err?
      invariant sleeps == seq(calls, _ => OPEN_RETRY_DELAY_SECS)
      decreases retriesLeft
    {
      var outcome := open(calls);
      calls := calls + 1;
      match outcome
      case Ok(view) =>
        r := Ok(view);
        return;
      case Err(err) =>
        if retriesLeft > 0 {
          retriesLeft := retriesLeft - 1;
          sleeps := sleeps + [OPEN_RETRY_DELAY_SECS];
        } else {
          r := Err(err);
          return;
        }
    }
  }

  /** The loop of `SensorReader::new` that copies the sensor descriptors out of the mapping. */
  method CopySensorDescriptors(view: SharedMemory) returns (sensors: seq<SensorElement>)
    requires SensorTableInBounds(view)
    ensures sensors == view.sensorTable[..view.header.sensorElementsNumber]
  {
    var sensorsPtr: nat := 0;
    sensors := [];
    for i := 0 to view.header.sensorElementsNumber
      invariant sensorsPtr == i
      invariant sensors == view.sensorTable[..i]
    {
      var sensor := view.sensorTable[sensorsPtr];
      sensors := sensors + [sensor];
      sensorsPtr := sensorsPtr + 1;
    }
  }

  /** `SensorReader`: the owned copy of the descriptors and the record it keeps up to date. */
  class SensorReader {
    var sensors: seq<SensorElement>
    var readings: SensorReadings

    /** The part of `SensorReader::new` after the view is open. */
    constructor (view: SharedMemory)
      requires SensorTableInBounds(view)
      ensures sensors == view.sensorTable[..view.header.sensorElementsNumber]
      ensures readings == NewReadings()
    {
      var copied := CopySensorDescriptors(view);
      sensors := copied;
      readings := NewReadings();
    }

    /**
     * `SensorReader::update` on the current content of the mapped view:
     * copy the polling period, then walk reading_elements_number readings.
     */
    method Update(view: SharedMemory)
      requires ReadingTableInBounds(view)
      modifies this`readings
      ensures readings == Swept(view, sensors, old(readings))
    {
      ghost var start := SweepStart(view, readings);
      readings := readings.(pollingPeriod := view.header.pollingPeriod);
      var readingPtr: nat := 0;
      var cpuFreqSum := 0.0;
      var cpuFreqCount: nat := 0;
      for i := 0 to view.header.readingElementsNumber
        invariant SweepState(readingPtr, cpuFreqSum, cpuFreqCount, readings)
          == Iterate(view.readingTable, sensors, start, i)
      {
        var reading := view.readingTable[readingPtr];
        if reading.sensorIndex >= |sensors| {
          continue;
        }
        var sensor := sensors[reading.sensorIndex];
        var value := reading.value;
        var readingLabel := reading.userLabelUtf8;
        var name := sensor.sensorNameUserUtf8;
        if name == CPU_ENHANCED_SENSOR {
          if readingLabel == "CPU (Tctl/Tdie)" {
            readings := readings.(cpuTemp := value);
          } else if readingLabel == "CPU Package Power" {
            readings := readings.(cpuPower := value);
          }
        } else if name == CPU_SENSOR {
          if readingLabel == "Total CPU Usage" {
            readings := readings.(cpuUsage := value);
          } else if Contains(readingLabel, PERF_CLOCK_MARK) {
            cpuFreqSum := cpuFreqSum + value;
            cpuFreqCount := cpuFreqCount + 1;
            readings := readings.(cpuFreq := cpuFreqSum / cpuFreqCount as real);
          }
        } else if name == MOTHERBOARD_SENSOR {
          if readingLabel == "CPU" {
            readings := readings.(cpuCoolerRpm := value);
          }
        } else if name == GPU_SENSOR {
          if readingLabel == "GPU Temperature" {
            readings := readings.(gpuTemp := value);
          } else if readingLabel == "GPU Power" {
            readings := readings.(gpuPower := value);
          } else if readingLabel == "GPU Core Load" {
            readings := readings.(gpuUsage := value);
          } else if readingLabel == "GPU Clock" {
            readings := readings.(gpuFreq := value);
          }
        }
        readingPtr := readingPtr + 1;
      }
    }

    /** `update` with the pointer advanced past an out-of-range reading instead of left on it. */
    method UpdateSkippingOutOfRange(view: SharedMemory)
      requires ReadingTableInBounds(view)
      modifies this`readings
      ensures readings == SweptSkipping(view, sensors, old(readings))
    {
      var state := SweepStart(view, readings);
      for i := 0 to view.header.readingElementsNumber
        invariant state == IterateSkipping(view.readingTable, sensors, SweepStart(view, old(readings)), i)
      {
        var reading := view.readingTable[state.cursor];
        if reading.sensorIndex >= |sensors| {
          state := state.(cursor := state.cursor + 1);
          continue;
        }
        var sensor := sensors[reading.sensorIndex];
        state := Dispatch(state, sensor.sensorNameUserUtf8, reading.userLabelUtf8, reading.value);
        state := state.(cursor := state.cursor + 1);
      }
      readings := state.readings;
    }
  }

  /**
   * `SensorReader::new`: open the view through the retry wrapper, then copy
   * the descriptors and start from `SensorReadings::new`.
   */
  method Connect(open: nat -> Result<SharedMemory, OpenError>)
    returns (r: Result<SensorReader, OpenError>, calls: nat, sleeps: seq<nat>)
    requires forall k :: open(k).Ok? ==> SensorTableInBounds(open(k).value)
    ensures 1 <= calls <= OPEN_RETRIES + 1
    ensures r.Err? <==> open(calls - 1).Err?
    ensures forall j :: 0 <= j < calls - 1 ==> open(j).Err?
    ensures r.Err? ==> calls == OPEN_RETRIES + 1 && r.error == open(calls - 1).error
    ensures sleeps == seq(calls - 1, _ => OPEN_RETRY_DELAY_SECS)
    ensures r.Ok? ==> var view := open(calls - 1).value;
      && SensorTableInBounds(view)
      && fresh(r.value) && r.value.readings == NewReadings()
      && r.value.sensors == view.sensorTable[..view.header.sensorElementsNumber]
  {
    var outcome;
    outcome, calls, sleeps := OpenViewWithRetry(open);
    match outcome
    case Err(err) =>
      r := Err(err);
    case Ok(view) =>
      var reader := new SensorReader(view);
      r := Ok(reader);
  }
}
