/**
 * The canonical telemetry record handed to the display encoder, and the
 * temperature unit it carries (src/sensor_readings.rs).
 */
module Readings {
  import opened Primitive

  /** `#[repr(u8)]` enumeration: Celsius = 0, Fahrenheit = 1. */
  datatype TemperatureUnit = Celsius | Fahrenheit

  /** The discriminant of a unit, i.e. the byte `unit as u8` yields. */
  function Discriminant(u: TemperatureUnit): (d: u8)
    ensures d == 0 <==> u == Celsius
    ensures d == 1 <==> u == Fahrenheit
  {
    match u
    case Celsius => 0
    case Fahrenheit => 1
  }

  /** One-letter unit symbol for display. */
  function ToStr(u: TemperatureUnit): (s: string)
    ensures |s| == 1
    ensures s == "C" <==> u == Celsius
    ensures s == "F" <==> u == Fahrenheit
  {
    match u
    case Celsius => "C"
    case Fahrenheit => "F"
  }

  /** Distinct units have distinct symbols and distinct discriminants. */
  lemma UnitEncodingsInjective(u: TemperatureUnit, v: TemperatureUnit)
    ensures ToStr(u) == ToStr(v) <==> u == v
    ensures Discriminant(u) == Discriminant(v) <==> u == v
  {
  }

  /**
   * The record copied from the telemetry source to the display. Rust's `f64`
   * metrics are exact reals here.
   */
  datatype SensorReadings = SensorReadings(
    cpuTemp: real,
    cpuPower: real,
    cpuUsage: real,
    cpuFreq: real,
    cpuCoolerRpm: real,
    gpuTemp: real,
    gpuPower: real,
    gpuUsage: real,
    gpuFreq: real,
    elapsedTimeMs: u64,
    pollingPeriod: u32,
    allTemperatureUnit: TemperatureUnit)

  /** The derived `PartialEq`: two records are equal when all twelve fields are. */
  function Equals(a: SensorReadings, b: SensorReadings): (r: bool)
    ensures r <==> a == b
  {
    && a.cpuTemp == b.cpuTemp
    && a.cpuPower == b.cpuPower
    && a.cpuUsage == b.cpuUsage
    && a.cpuFreq == b.cpuFreq
    && a.cpuCoolerRpm == b.cpuCoolerRpm
    && a.gpuTemp == b.gpuTemp
    && a.gpuPower == b.gpuPower
    && a.gpuUsage == b.gpuUsage
    && a.gpuFreq == b.gpuFreq
    && a.elapsedTimeMs == b.elapsedTimeMs
    && a.pollingPeriod == b.pollingPeriod
    && a.allTemperatureUnit == b.allTemperatureUnit
  }
}
