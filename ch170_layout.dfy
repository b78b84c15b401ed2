/**
 * Byte layout of the CH170 report (src/ch_170.rs, `DisplayPayload` and
 * `DisplayData`): the protocol constants, the offset of every field, and the
 * compile-time assertion that the report is exactly 64 bytes.
 */
module Ch170Layout {
  import opened Primitive

  const DISPLAY_REPORT_ID: u8 := 16
  const DISPLAY_TERMINATOR: u8 := 22
  const DISPLAY_HEADER: seq<u8> := [104, 1, 6, 35, 1]
  const DISPLAY_PAYLOAD_SIZE: nat := 64
  const DISPLAY_PADDING_SIZE: nat := 22
  /** `all_temperature_unit` is a `bool`; `false` (Celsius) is the byte 0. */
  const TEMPERATURE_UNIT_CELSIUS: u8 := 0

  // Byte offsets of the `#[repr(C)]` layout; every field has alignment 1,
  // so fields follow each other without padding. The data block
  // (`DisplayData`) is bytes DATA_START .. DATA_END.
  const REPORT_ID_AT: nat := 0
  const DATA_START: nat := 1
  const HEADER_AT: nat := 1
  const MODE_AT: nat := 6
  const CPU_POWER_AT: nat := 7
  const UNIT_AT: nat := 9
  const CPU_TEMPERATURE_AT: nat := 10
  const CPU_UTILIZATION_AT: nat := 14
  const CPU_FREQUENCY_AT: nat := 15
  const CPU_FAN_AT: nat := 17
  const GPU_POWER_AT: nat := 19
  const GPU_TEMPERATURE_AT: nat := 21
  const GPU_UTILIZATION_AT: nat := 25
  const GPU_FREQUENCY_AT: nat := 26
  const PSU_AT: nat := 28
  const FILLER_AT: nat := 39
  const DATA_END: nat := 40
  const CHECKSUM_AT: nat := 40
  const TERMINATOR_AT: nat := 41
  const PADDING_AT: nat := 42
  const DATA_BLOCK_SIZE: nat := DATA_END - DATA_START

  /** The fields of `DisplayPayload` (with `DisplayData` inlined) in declaration order. */
  datatype Field =
    | ReportId | FixedHeader | Mode
    | CpuPower | TemperatureUnitFlag | CpuTemperature | CpuUtilization | CpuFrequencyField | CpuFanSpeed
    | GpuPower | GpuTemperature | GpuUtilization | GpuFrequency
    | PsuPower1 | PsuTemperature | PsuUtilization | PsuPower2 | PsuFanSpeed
    | DataFiller | Checksum | Terminator | Padding

  /** Size in bytes of each field's type (`u8`/`bool`/mode: 1, `U16<BE>`: 2, `F32<BE>`: 4). */
  function Width(f: Field): nat {
    match f
    case ReportId => 1
    case FixedHeader => 5
    case Mode => 1
    case CpuPower => 2
    case TemperatureUnitFlag => 1
    case CpuTemperature => 4
    case CpuUtilization => 1
    case CpuFrequencyField => 2
    case CpuFanSpeed => 2
    case GpuPower => 2
    case GpuTemperature => 4
    case GpuUtilization => 1
    case GpuFrequency => 2
    case PsuPower1 => 2
    case PsuTemperature => 4
    case PsuUtilization => 1
    case PsuPower2 => 2
    case PsuFanSpeed => 2
    case DataFiller => 1
    case Checksum => 1
    case Terminator => 1
    case Padding => DISPLAY_PADDING_SIZE
  }

  /** Position of a field in declaration order. */
  function Rank(f: Field): nat {
    match f
    case ReportId => 0
    case FixedHeader => 1
    case Mode => 2
    case CpuPower => 3
    case TemperatureUnitFlag => 4
    case CpuTemperature => 5
    case CpuUtilization => 6
    case CpuFrequencyField => 7
    case CpuFanSpeed => 8
    case GpuPower => 9
    case GpuTemperature => 10
    case GpuUtilization => 11
    case GpuFrequency => 12
    case PsuPower1 => 13
    case PsuTemperature => 14
    case PsuUtilization => 15
    case PsuPower2 => 16
    case PsuFanSpeed => 17
    case DataFiller => 18
    case Checksum => 19
    case Terminator => 20
    case Padding => 21
  }

  /** The field declared just before `f`. */
  function Prev(f: Field): (g: Field)
    requires f != ReportId
    ensures Rank(g) + 1 == Rank(f)
  {
    match f
    case FixedHeader => ReportId
    case Mode => FixedHeader
    case CpuPower => Mode
    case TemperatureUnitFlag => CpuPower
    case CpuTemperature => TemperatureUnitFlag
    case CpuUtilization => CpuTemperature
    case CpuFrequencyField => CpuUtilization
    case CpuFanSpeed => CpuFrequencyField
    case GpuPower => CpuFanSpeed
    case GpuTemperature => GpuPower
    case GpuUtilization => GpuTemperature
    case GpuFrequency => GpuUtilization
    case PsuPower1 => GpuFrequency
    case PsuTemperature => PsuPower1
    case PsuUtilization => PsuTemperature
    case PsuPower2 => PsuUtilization
    case PsuFanSpeed => PsuPower2
    case DataFiller => PsuFanSpeed
    case Checksum => DataFiller
    case Terminator => Checksum
    case Padding => Terminator
  }

  /**
   * Offset of a field: `#[repr(C)]` with alignment-1 fields puts each field
   * right after the one declared before it.
   */
  function Start(f: Field): nat
    decreases Rank(f)
  {
    if f == ReportId then 0 else Start(Prev(f)) + Width(Prev(f))
  }

  /**
   * The compile-time size assertion, and the named offsets above agree with
   * the packed layout: the data block is 39 bytes and the whole payload is
   * exactly 64 bytes.
   */
  lemma LayoutIsSixtyFourBytes()
    ensures Start(Padding) + Width(Padding) == DISPLAY_PAYLOAD_SIZE
    ensures Start(FixedHeader) == DATA_START == HEADER_AT
    ensures Start(Mode) == MODE_AT
    ensures Start(CpuPower) == CPU_POWER_AT
    ensures Start(TemperatureUnitFlag) == UNIT_AT
    ensures Start(CpuTemperature) == CPU_TEMPERATURE_AT
    ensures Start(CpuUtilization) == CPU_UTILIZATION_AT
    ensures Start(CpuFrequencyField) == CPU_FREQUENCY_AT
    ensures Start(CpuFanSpeed) == CPU_FAN_AT
    ensures Start(GpuPower) == GPU_POWER_AT
    ensures Start(GpuTemperature) == GPU_TEMPERATURE_AT
    ensures Start(GpuUtilization) == GPU_UTILIZATION_AT
    ensures Start(GpuFrequency) == GPU_FREQUENCY_AT
    ensures Start(PsuPower1) == PSU_AT
    ensures Start(DataFiller) == FILLER_AT
    ensures Start(Checksum) == CHECKSUM_AT == DATA_END == FILLER_AT + 1
    ensures Start(Terminator) == TERMINATOR_AT
    ensures Start(Padding) == PADDING_AT
    ensures DATA_END - DATA_START == DATA_BLOCK_SIZE == 39
  {
    assert Start(ReportId) == 0;
    assert Start(FixedHeader) == 1;
    assert Start(Mode) == 6;
    assert Start(CpuPower) == 7;
    assert Start(TemperatureUnitFlag) == 9;
    assert Start(CpuTemperature) == 10;
    assert Start(CpuUtilization) == 14;
    assert Start(CpuFrequencyField) == 15;
    assert Start(CpuFanSpeed) == 17;
    assert Start(GpuPower) == 19;
    assert Start(GpuTemperature) == 21;
    assert Start(GpuUtilization) == 25;
    assert Start(GpuFrequency) == 26;
    assert Start(PsuPower1) == 28;
    assert Start(PsuTemperature) == 30;
    assert Start(PsuUtilization) == 34;
    assert Start(PsuPower2) == 35;
    assert Start(PsuFanSpeed) == 37;
    assert Start(DataFiller) == 39;
    assert Start(Checksum) == 40;
    assert Start(Terminator) == 41;
    assert Start(Padding) == 42;
  }
}
