/**
 * The CH170 display packet (src/ch_170.rs): a 64-byte HID output report,
 * built once and patched in place on every update, and the three-state
 * display mode that decides which metric group the update rewrites.
 */
module Ch170 {
  import opened Primitive
  import opened Readings
  import opened Ch170Layout

  // ---------------------------------------------------------------------
  // Display modes

  /** `#[repr(u8)]` modes with discriminants 2, 3 and 4. */
  datatype DisplayMode = CpuFrequency | CpuFan | Gpu

  /** The mode byte written into the packet. */
  function Tag(m: DisplayMode): (t: u8)
    ensures 2 <= t <= 4
  {
    match m
    case CpuFrequency => 2
    case CpuFan => 3
    case Gpu => 4
  }

  predicate IsModeTag(b: u8) {
    b == 2 || b == 3 || b == 4
  }

  lemma TagInjective(m: DisplayMode, n: DisplayMode)
    ensures Tag(m) == Tag(n) <==> m == n
  {
  }

  /** `DisplayMode::default()`. */
  function DefaultMode(): (d: DisplayMode)
    ensures Tag(d) == 2
  {
    CpuFrequency
  }

  /** The mode after `next()`: CpuFrequency, Gpu, CpuFan, then CpuFrequency again. */
  function Next(m: DisplayMode): (n: DisplayMode)
    ensures n != m
    ensures Tag(n) == if Tag(m) == 2 then 4 else Tag(m) - 1
  {
    match m
    case CpuFrequency => Gpu
    case Gpu => CpuFan
    case CpuFan => CpuFrequency
  }

  /** Starting from any mode, `next` visits the two other modes and is back after three steps. */
  lemma NextCyclesThroughAllModes(m: DisplayMode)
    ensures Next(m) != m && Next(Next(m)) != m && Next(Next(m)) != Next(m)
    ensures Next(Next(Next(m))) == m
    ensures DefaultMode() == CpuFrequency && Next(DefaultMode()) == Gpu && Next(Gpu) == CpuFan
  {
  }

  /** Whether the mode shows the CPU group; exactly one group is shown in every mode. */
  function IncludesCpu(m: DisplayMode): (b: bool)
    ensures b <==> !IncludesGpu(m)
  {
    m.CpuFrequency? || m.CpuFan?
  }

  function IncludesGpu(m: DisplayMode): (b: bool)
    ensures b <==> Tag(m) == 4
  {
    m.Gpu?
  }

  // ---------------------------------------------------------------------
  // Field encodings

  /** `f64::round`: to the nearest integer, halfway cases away from zero. */
  function RoundHalfAwayFromZero(x: real): (n: int)
    ensures x >= 0.0 ==> n as real - 0.5 <= x < n as real + 0.5
    ensures x < 0.0 ==> n as real - 0.5 < x <= n as real + 0.5
  {
    if x >= 0.0 then (x + 0.5).Floor else -((-x + 0.5).Floor)
  }

  /** `x.round() as u16`: the cast saturates at both ends of the range. */
  function RoundU16(x: real): (v: u16)
    ensures x < 0.0 ==> v == 0
    ensures x >= 65535.0 ==> v == 0xFFFF
    ensures 0.0 <= x < 65535.0 ==> v as real - 0.5 <= x < v as real + 0.5
  {
    var n := RoundHalfAwayFromZero(x);
    if n < 0 then 0 else if n > 0xFFFF then 0xFFFF else n
  }

  /** `x.round() as u8`, saturating likewise. */
  function RoundU8(x: real): (v: u8)
    ensures x < 0.0 ==> v == 0
    ensures x >= 255.0 ==> v == 0xFF
    ensures 0.0 <= x < 255.0 ==> v as real - 0.5 <= x < v as real + 0.5
  {
    var n := RoundHalfAwayFromZero(x);
    if n < 0 then 0 else if n > 0xFF then 0xFF else n
  }

  /** A 16-bit field stored big-endian: high byte first, so the two bytes read back as `v`. */
  function Be16(v: u16): (bs: seq<u8>)
    ensures |bs| == 2
    ensures bs[0] as int * 256 + bs[1] as int == v
  {
    [v / 256, v % 256]
  }

  type Word4 = s: seq<u8> | |s| == 4 witness [0, 0, 0, 0]

  /**
   * The big-endian bytes of `x as f32`. IEEE-754 rounding is not modelled;
   * every operation that writes a temperature receives this conversion as
   * a parameter.
   */
  type F32Encoding = real -> Word4

  /** `p` with `bs` written at offset `at`, every other byte kept. */
  function Patch(p: seq<u8>, at: nat, bs: seq<u8>): (q: seq<u8>)
    requires at + |bs| <= |p|
    ensures |q| == |p|
    ensures forall i :: at <= i < at + |bs| ==> q[i] == bs[i - at]
    ensures forall i :: 0 <= i < |p| && !(at <= i < at + |bs|) ==> q[i] == p[i]
  {
    p[..at] + bs + p[at + |bs|..]
  }

  // ---------------------------------------------------------------------
  // The metric groups

  /** Bytes written by `set_cpu_data` (the unit flag at byte 9 lies between them and is not). */
  predicate InCpuFields(i: int) {
    CPU_POWER_AT <= i < CPU_POWER_AT + 2 || CPU_TEMPERATURE_AT <= i < CPU_FAN_AT + 2
  }

  /** Bytes written by `set_gpu_data`. */
  predicate InGpuFields(i: int) {
    GPU_POWER_AT <= i < GPU_FREQUENCY_AT + 2
  }

  /** The CPU fields of `p` hold the encodings of `r`'s CPU metrics. */
  ghost predicate CpuFieldsHold(p: seq<u8>, r: SensorReadings, f32Be: F32Encoding)
    requires |p| == DISPLAY_PAYLOAD_SIZE
  {
    && p[CPU_POWER_AT..CPU_POWER_AT + 2] == Be16(RoundU16(r.cpuPower))
    && p[CPU_TEMPERATURE_AT..CPU_TEMPERATURE_AT + 4] == f32Be(r.cpuTemp)
    && p[CPU_UTILIZATION_AT] == RoundU8(r.cpuUsage)
    && p[CPU_FREQUENCY_AT..CPU_FREQUENCY_AT + 2] == Be16(RoundU16(r.cpuFreq))
    && p[CPU_FAN_AT..CPU_FAN_AT + 2] == Be16(RoundU16(r.cpuCoolerRpm))
  }

  /** The GPU fields of `p` hold the encodings of `r`'s GPU metrics. */
  ghost predicate GpuFieldsHold(p: seq<u8>, r: SensorReadings, f32Be: F32Encoding)
    requires |p| == DISPLAY_PAYLOAD_SIZE
  {
    && p[GPU_POWER_AT..GPU_POWER_AT + 2] == Be16(RoundU16(r.gpuPower))
    && p[GPU_TEMPERATURE_AT..GPU_TEMPERATURE_AT + 4] == f32Be(r.gpuTemp)
    && p[GPU_UTILIZATION_AT] == RoundU8(r.gpuUsage)
    && p[GPU_FREQUENCY_AT..GPU_FREQUENCY_AT + 2] == Be16(RoundU16(r.gpuFreq))
  }

  /** Two payloads whose CPU fields both hold `r` agree on every CPU byte. */
  lemma CpuFieldsDetermineBytes(p: seq<u8>, q: seq<u8>, r: SensorReadings, f32Be: F32Encoding, i: nat)
    requires |p| == |q| == DISPLAY_PAYLOAD_SIZE
    requires CpuFieldsHold(p, r, f32Be) && CpuFieldsHold(q, r, f32Be)
    requires InCpuFields(i)
    ensures p[i] == q[i]
  {
    if i < CPU_POWER_AT + 2 {
      assert p[i] == p[CPU_POWER_AT..CPU_POWER_AT + 2][i - CPU_POWER_AT];
      assert q[i] == q[CPU_POWER_AT..CPU_POWER_AT + 2][i - CPU_POWER_AT];
    } else if i < CPU_UTILIZATION_AT {
      assert p[i] == p[CPU_TEMPERATURE_AT..CPU_TEMPERATURE_AT + 4][i - CPU_TEMPERATURE_AT];
      assert q[i] == q[CPU_TEMPERATURE_AT..CPU_TEMPERATURE_AT + 4][i - CPU_TEMPERATURE_AT];
    } else if i < CPU_FREQUENCY_AT {
    } else if i < CPU_FAN_AT {
      assert p[i] == p[CPU_FREQUENCY_AT..CPU_FREQUENCY_AT + 2][i - CPU_FREQUENCY_AT];
      assert q[i] == q[CPU_FREQUENCY_AT..CPU_FREQUENCY_AT + 2][i - CPU_FREQUENCY_AT];
    } else {
      assert p[i] == p[CPU_FAN_AT..CPU_FAN_AT + 2][i - CPU_FAN_AT];
      assert q[i] == q[CPU_FAN_AT..CPU_FAN_AT + 2][i - CPU_FAN_AT];
    }
  }

  /** Two payloads whose GPU fields both hold `r` agree on every GPU byte. */
  lemma GpuFieldsDetermineBytes(p: seq<u8>, q: seq<u8>, r: SensorReadings, f32Be: F32Encoding, i: nat)
    requires |p| == |q| == DISPLAY_PAYLOAD_SIZE
    requires GpuFieldsHold(p, r, f32Be) && GpuFieldsHold(q, r, f32Be)
    requires InGpuFields(i)
    ensures p[i] == q[i]
  {
    if i < GPU_TEMPERATURE_AT {
      assert p[i] == p[GPU_POWER_AT..GPU_POWER_AT + 2][i - GPU_POWER_AT];
      assert q[i] == q[GPU_POWER_AT..GPU_POWER_AT + 2][i - GPU_POWER_AT];
    } else if i < GPU_UTILIZATION_AT {
      assert p[i] == p[GPU_TEMPERATURE_AT..GPU_TEMPERATURE_AT + 4][i - GPU_TEMPERATURE_AT];
      assert q[i] == q[GPU_TEMPERATURE_AT..GPU_TEMPERATURE_AT + 4][i - GPU_TEMPERATURE_AT];
    } else if i < GPU_FREQUENCY_AT {
    } else {
      assert p[i] == p[GPU_FREQUENCY_AT..GPU_FREQUENCY_AT + 2][i - GPU_FREQUENCY_AT];
      assert q[i] == q[GPU_FREQUENCY_AT..GPU_FREQUENCY_AT + 2][i - GPU_FREQUENCY_AT];
    }
  }

  /** `set_cpu_data`: temperature, power, utilization, frequency, fan speed, in that order. */
  function WithCpuData(p: seq<u8>, r: SensorReadings, f32Be: F32Encoding): (q: seq<u8>)
    requires |p| == DISPLAY_PAYLOAD_SIZE
    ensures |q| == DISPLAY_PAYLOAD_SIZE
    ensures CpuFieldsHold(q, r, f32Be)
    ensures forall i :: 0 <= i < |p| && !InCpuFields(i) ==> q[i] == p[i]
  {
    var p1 := Patch(p, CPU_TEMPERATURE_AT, f32Be(r.cpuTemp));
    var p2 := Patch(p1, CPU_POWER_AT, Be16(RoundU16(r.cpuPower)));
    var p3 := Patch(p2, CPU_UTILIZATION_AT, [RoundU8(r.cpuUsage)]);
    var p4 := Patch(p3, CPU_FREQUENCY_AT, Be16(RoundU16(r.cpuFreq)));
    Patch(p4, CPU_FAN_AT, Be16(RoundU16(r.cpuCoolerRpm)))
  }

  /** `set_gpu_data`: temperature, power, utilization, frequency, in that order. */
  function WithGpuData(p: seq<u8>, r: SensorReadings, f32Be: F32Encoding): (q: seq<u8>)
    requires |p| == DISPLAY_PAYLOAD_SIZE
    ensures |q| == DISPLAY_PAYLOAD_SIZE
    ensures GpuFieldsHold(q, r, f32Be)
    ensures forall i :: 0 <= i < |p| && !InGpuFields(i) ==> q[i] == p[i]
  {
    var p1 := Patch(p, GPU_TEMPERATURE_AT, f32Be(r.gpuTemp));
    var p2 := Patch(p1, GPU_POWER_AT, Be16(RoundU16(r.gpuPower)));
    var p3 := Patch(p2, GPU_UTILIZATION_AT, [RoundU8(r.gpuUsage)]);
    Patch(p3, GPU_FREQUENCY_AT, Be16(RoundU16(r.gpuFreq)))
  }

  // ---------------------------------------------------------------------
  // Checksum

  /** The exact sum of the bytes. */
  function ByteSum(s: seq<u8>): nat {
    if s == [] then 0 else ByteSum(s[..|s| - 1]) + s[|s| - 1]
  }

  lemma {:induction false} ByteSumBound(s: seq<u8>)
    ensures ByteSum(s) <= 255 * |s|
  {
    if s != [] {
      ByteSumBound(s[..|s| - 1]);
    }
  }

  /**
   * The `u16` accumulator of `iter().map(|&b| b as u16).sum()`, written out
   * with wrap-around; as long as the bytes cannot reach 65536 it is the
   * exact sum.
   */
  function AccumulateU16(s: seq<u8>): (acc: u16)
    ensures 255 * |s| < 0x1_0000 ==> acc == ByteSum(s)
  {
    if s == [] then 0
    else
      var prefix := s[..|s| - 1];
      ByteSumBound(prefix);
      (AccumulateU16(prefix) + s[|s| - 1]) % 0x1_0000
  }

  /** The 39 data-block bytes never overflow the `u16` accumulator (39 * 255 = 9945). */
  lemma DataBlockSumFitsU16(data: seq<u8>)
    requires |data| == DATA_BLOCK_SIZE
    ensures ByteSum(data) < 0x1_0000
    ensures AccumulateU16(data) == ByteSum(data)
  {
    ByteSumBound(data);
  }

  /** `DisplayData::checksum`: the low byte of the data block's sum. */
  function DataChecksum(data: seq<u8>): (c: u8)
    ensures |data| == DATA_BLOCK_SIZE ==> c == ByteSum(data) % 256
  {
    AccumulateU16(data) % 256
  }

  // ---------------------------------------------------------------------
  // The packet

  /**
   * The bytes that `new` sets and `update` never touches: report id, fixed
   * header, a valid mode tag, the Celsius unit flag, the zero PSU fields and
   * filler, the terminator and the zero padding.
   */
  ghost predicate Framed(p: seq<u8>) {
    && |p| == DISPLAY_PAYLOAD_SIZE
    && p[REPORT_ID_AT] == DISPLAY_REPORT_ID
    && p[HEADER_AT..HEADER_AT + 5] == DISPLAY_HEADER
    && IsModeTag(p[MODE_AT])
    && p[UNIT_AT] == TEMPERATURE_UNIT_CELSIUS
    && (forall i :: PSU_AT <= i < DATA_END ==> p[i] == 0)
    && p[TERMINATOR_AT] == DISPLAY_TERMINATOR
    && (forall i :: PADDING_AT <= i < DISPLAY_PAYLOAD_SIZE ==> p[i] == 0)
  }

  /**
   * `DisplayPayload::update` on the payload bytes `p`: set the mode tag,
   * rewrite the group the mode includes, recompute the checksum.
   */
  function Encoded(p: seq<u8>, m: DisplayMode, r: SensorReadings, f32Be: F32Encoding): (q: seq<u8>)
    requires |p| == DISPLAY_PAYLOAD_SIZE
    ensures UpdatedFrom(q, p, m, r, f32Be)
  {
    var tagged := p[MODE_AT := Tag(m)];
    var withCpu := if IncludesCpu(m) then WithCpuData(tagged, r, f32Be) else tagged;
    var withGpu := if IncludesGpu(m) then WithGpuData(withCpu, r, f32Be) else withCpu;
    var q := withGpu[CHECKSUM_AT := DataChecksum(withGpu[DATA_START..DATA_END])];
    assert q[DATA_START..DATA_END] == withGpu[DATA_START..DATA_END];
    q
  }

  /** The bytes an update does not rewrite in mode `m`. */
  predicate KeptBy(m: DisplayMode, i: int) {
    0 <= i < DISPLAY_PAYLOAD_SIZE && i != MODE_AT && i != CHECKSUM_AT
    && !(IncludesCpu(m) && InCpuFields(i)) && !(IncludesGpu(m) && InGpuFields(i))
  }

  /**
   * `q` is an update of `p` for mode `m` and readings `r`: 64 bytes, the
   * mode's tag, the included group holding `r`, the checksum of the data
   * block, and every other byte as in `p`.
   */
  ghost predicate UpdatedFrom(q: seq<u8>, p: seq<u8>, m: DisplayMode, r: SensorReadings, f32Be: F32Encoding)
    requires |p| == DISPLAY_PAYLOAD_SIZE
  {
    && |q| == DISPLAY_PAYLOAD_SIZE
    && q[MODE_AT] == Tag(m)
    && q[CHECKSUM_AT] == ByteSum(q[DATA_START..DATA_END]) % 256
    && (IncludesCpu(m) ==> CpuFieldsHold(q, r, f32Be))
    && (IncludesGpu(m) ==> GpuFieldsHold(q, r, f32Be))
    && (forall i :: KeptBy(m, i) ==> q[i] == p[i])
  }

  /** In Gpu mode an update leaves every CPU field byte as it was. */
  lemma GpuModeKeepsCpuFields(p: seq<u8>, r: SensorReadings, f32Be: F32Encoding)
    requires |p| == DISPLAY_PAYLOAD_SIZE
    ensures forall i :: InCpuFields(i) ==> Encoded(p, Gpu, r, f32Be)[i] == p[i]
  {
  }

  /** In the two CPU modes an update leaves every GPU field byte as it was. */
  lemma CpuModesKeepGpuFields(p: seq<u8>, m: DisplayMode, r: SensorReadings, f32Be: F32Encoding)
    requires |p| == DISPLAY_PAYLOAD_SIZE
    requires m == CpuFrequency || m == CpuFan
    ensures forall i :: InGpuFields(i) ==> Encoded(p, m, r, f32Be)[i] == p[i]
  {
  }

  /** Any update of a framed payload is framed. */
  lemma UpdateKeepsFrame(q: seq<u8>, p: seq<u8>, m: DisplayMode, r: SensorReadings, f32Be: F32Encoding)
    requires Framed(p) && UpdatedFrom(q, p, m, r, f32Be)
    ensures Framed(q)
  {
    forall i | PSU_AT <= i < DATA_END ensures q[i] == 0 {
      assert KeptBy(m, i);
    }
    forall i | PADDING_AT <= i < DISPLAY_PAYLOAD_SIZE ensures q[i] == 0 {
      assert KeptBy(m, i);
    }
    forall i | HEADER_AT <= i < HEADER_AT + 5 ensures q[i] == p[i] {
      assert KeptBy(m, i);
    }
    assert KeptBy(m, REPORT_ID_AT) && KeptBy(m, UNIT_AT) && KeptBy(m, TERMINATOR_AT);
    assert q[HEADER_AT..HEADER_AT + 5] == p[HEADER_AT..HEADER_AT + 5];
  }

  /** An update keeps every byte that `new` fixed. */
  lemma EncodedKeepsFrame(p: seq<u8>, m: DisplayMode, r: SensorReadings, f32Be: F32Encoding)
    requires Framed(p)
    ensures Framed(Encoded(p, m, r, f32Be))
  {
    UpdateKeepsFrame(Encoded(p, m, r, f32Be), p, m, r, f32Be);
  }

  /** Two updates, with the same mode and readings, of payloads that agree on the kept bytes are equal. */
  lemma UpdatesAgree(q: seq<u8>, q': seq<u8>, p: seq<u8>, p': seq<u8>, m: DisplayMode, r: SensorReadings, f32Be: F32Encoding)
    requires |p| == |p'| == DISPLAY_PAYLOAD_SIZE
    requires forall i :: KeptBy(m, i) ==> p[i] == p'[i]
    requires UpdatedFrom(q, p, m, r, f32Be) && UpdatedFrom(q', p', m, r, f32Be)
    ensures q == q'
  {
    forall i | 0 <= i < DISPLAY_PAYLOAD_SIZE && i != CHECKSUM_AT
      ensures q[i] == q'[i]
    {
      if IncludesCpu(m) && InCpuFields(i) {
        CpuFieldsDetermineBytes(q, q', r, f32Be, i);
      } else if IncludesGpu(m) && InGpuFields(i) {
        GpuFieldsDetermineBytes(q, q', r, f32Be, i);
      } else if i != MODE_AT {
        assert KeptBy(m, i);
      }
    }
    assert q[DATA_START..DATA_END] == q'[DATA_START..DATA_END];
  }

  /**
   * Two payloads that differ only in the bytes an update rewrites (mode tag,
   * included group, checksum) encode to the same bytes.
   */
  lemma EncodedDeterministic(p: seq<u8>, p': seq<u8>, m: DisplayMode, r: SensorReadings, f32Be: F32Encoding)
    requires |p| == |p'| == DISPLAY_PAYLOAD_SIZE
    requires forall i :: KeptBy(m, i) ==> p[i] == p'[i]
    ensures Encoded(p, m, r, f32Be) == Encoded(p', m, r, f32Be)
  {
    UpdatesAgree(Encoded(p, m, r, f32Be), Encoded(p', m, r, f32Be), p, p', m, r, f32Be);
  }

  /**
   * The encoding is a function of mode and readings alone: updating twice
   * with the same mode and readings gives the bytes of updating once.
   */
  lemma EncodedIdempotent(p: seq<u8>, m: DisplayMode, r: SensorReadings, f32Be: F32Encoding)
    requires |p| == DISPLAY_PAYLOAD_SIZE
    ensures Encoded(Encoded(p, m, r, f32Be), m, r, f32Be) == Encoded(p, m, r, f32Be)
  {
    EncodedDeterministic(Encoded(p, m, r, f32Be), p, m, r, f32Be);
  }

  /**
   * The bytes of `DisplayPayload::new`: the derived default (all zero, except
   * the mode, whose default is CpuFrequency), then report id, header, unit
   * flag and terminator.
   */
  function InitialPayload(): (p: seq<u8>)
    ensures |p| == DISPLAY_PAYLOAD_SIZE
    ensures p[REPORT_ID_AT] == DISPLAY_REPORT_ID
    ensures p[HEADER_AT..HEADER_AT + 5] == DISPLAY_HEADER
    ensures p[MODE_AT] == Tag(DefaultMode())
    ensures p[UNIT_AT] == TEMPERATURE_UNIT_CELSIUS
    ensures p[TERMINATOR_AT] == DISPLAY_TERMINATOR
    ensures forall i :: MODE_AT < i < DISPLAY_PAYLOAD_SIZE && i != TERMINATOR_AT ==> p[i] == 0
  {
    var p := seq(DISPLAY_PAYLOAD_SIZE, i =>
      if i == REPORT_ID_AT then DISPLAY_REPORT_ID
      else if HEADER_AT <= i < HEADER_AT + 5 then DISPLAY_HEADER[i - HEADER_AT]
      else if i == MODE_AT then Tag(DefaultMode())
      else if i == UNIT_AT then TEMPERATURE_UNIT_CELSIUS
      else if i == TERMINATOR_AT then DISPLAY_TERMINATOR
      else 0);
    assert p[HEADER_AT..HEADER_AT + 5] == DISPLAY_HEADER;
    p
  }

  /**
   * The first update after `new` in the default mode leaves every GPU field
   * zero, and writes the CPU fields and the checksum.
   */
  lemma FirstDefaultUpdateKeepsGpuZero(r: SensorReadings, f32Be: F32Encoding)
    ensures var q := Encoded(InitialPayload(), DefaultMode(), r, f32Be);
      && (forall i :: InGpuFields(i) ==> q[i] == 0)
      && CpuFieldsHold(q, r, f32Be)
      && q[CHECKSUM_AT] == ByteSum(q[DATA_START..DATA_END]) % 256
  {
    CpuModesKeepGpuFields(InitialPayload(), DefaultMode(), r, f32Be);
  }

  /** The 64-byte report, patched in place (`DisplayPayload` with its `DisplayData`). */
  class DisplayPayload {
    var bytes: array<u8>

    ghost predicate Valid()
      reads this, bytes
    {
      bytes.Length == DISPLAY_PAYLOAD_SIZE && Framed(bytes[..])
    }

    /** `DisplayPayload::new`: a fresh array holding `InitialPayload()`. */
    constructor ()
      ensures Valid() && fresh(bytes)
      ensures bytes[..] == InitialPayload()
      ensures bytes[REPORT_ID_AT] == DISPLAY_REPORT_ID
      ensures bytes[HEADER_AT..HEADER_AT + 5] == DISPLAY_HEADER
      ensures bytes[MODE_AT] == Tag(DefaultMode())
      ensures bytes[UNIT_AT] == TEMPERATURE_UNIT_CELSIUS
      ensures bytes[TERMINATOR_AT] == DISPLAY_TERMINATOR
      ensures forall i :: MODE_AT < i < DISPLAY_PAYLOAD_SIZE && i != TERMINATOR_AT ==> bytes[i] == 0
    {
      var fresh_bytes := new u8[DISPLAY_PAYLOAD_SIZE](i => if i == MODE_AT then Tag(DefaultMode()) else 0);
      fresh_bytes[REPORT_ID_AT] := DISPLAY_REPORT_ID;
      fresh_bytes[1] := DISPLAY_HEADER[0];
      fresh_bytes[2] := DISPLAY_HEADER[1];
      fresh_bytes[3] := DISPLAY_HEADER[2];
      fresh_bytes[4] := DISPLAY_HEADER[3];
      fresh_bytes[5] := DISPLAY_HEADER[4];
      fresh_bytes[UNIT_AT] := TEMPERATURE_UNIT_CELSIUS;
      fresh_bytes[TERMINATOR_AT] := DISPLAY_TERMINATOR;
      bytes := fresh_bytes;
      new;
      assert bytes[HEADER_AT..HEADER_AT + 5] == DISPLAY_HEADER;
    }

    /** Assign a big-endian `U16<BE>` field. */
    method WriteU16(at: nat, v: u16)
      requires at + 2 <= bytes.Length
      modifies bytes
      ensures bytes[..] == Patch(old(bytes[..]), at, Be16(v))
    {
      var bs := Be16(v);
      bytes[at], bytes[at + 1] := bs[0], bs[1];
    }

    /** Assign an `F32<BE>` field from its four bytes. */
    method WriteF32(at: nat, w: Word4)
      requires at + 4 <= bytes.Length
      modifies bytes
      ensures bytes[..] == Patch(old(bytes[..]), at, w)
    {
      bytes[at], bytes[at + 1], bytes[at + 2], bytes[at + 3] := w[0], w[1], w[2], w[3];
    }

    /** `DisplayData::set_cpu_data`. */
    method SetCpuData(readings: SensorReadings, f32Be: F32Encoding)
      requires bytes.Length == DISPLAY_PAYLOAD_SIZE
      modifies bytes
      ensures bytes[..] == WithCpuData(old(bytes[..]), readings, f32Be)
    {
      WriteF32(CPU_TEMPERATURE_AT, f32Be(readings.cpuTemp));
      WriteU16(CPU_POWER_AT, RoundU16(readings.cpuPower));
      ghost var before := bytes[..];
      bytes[CPU_UTILIZATION_AT] := RoundU8(readings.cpuUsage);
      assert bytes[..] == Patch(before, CPU_UTILIZATION_AT, [RoundU8(readings.cpuUsage)]);
      WriteU16(CPU_FREQUENCY_AT, RoundU16(readings.cpuFreq));
      WriteU16(CPU_FAN_AT, RoundU16(readings.cpuCoolerRpm));
    }

    /** `DisplayData::set_gpu_data`. */
    method SetGpuData(readings: SensorReadings, f32Be: F32Encoding)
      requires bytes.Length == DISPLAY_PAYLOAD_SIZE
      modifies bytes
      ensures bytes[..] == WithGpuData(old(bytes[..]), readings, f32Be)
    {
      WriteF32(GPU_TEMPERATURE_AT, f32Be(readings.gpuTemp));
      WriteU16(GPU_POWER_AT, RoundU16(readings.gpuPower));
      ghost var before := bytes[..];
      bytes[GPU_UTILIZATION_AT] := RoundU8(readings.gpuUsage);
      assert bytes[..] == Patch(before, GPU_UTILIZATION_AT, [RoundU8(readings.gpuUsage)]);
      WriteU16(GPU_FREQUENCY_AT, RoundU16(readings.gpuFreq));
    }

    /** `DisplayPayload::update`: mode tag, the included group, then the checksum. */
    method Update(mode: DisplayMode, readings: SensorReadings, f32Be: F32Encoding)
      requires Valid()
      modifies bytes
      ensures Valid()
      ensures bytes[..] == Encoded(old(bytes[..]), mode, readings, f32Be)
    {
      bytes[MODE_AT] := Tag(mode);
      if IncludesCpu(mode) {
        SetCpuData(readings, f32Be);
      }
      if IncludesGpu(mode) {
        SetGpuData(readings, f32Be);
      }
      bytes[CHECKSUM_AT] := DataChecksum(bytes[DATA_START..DATA_END]);
      EncodedKeepsFrame(old(bytes[..]), mode, readings, f32Be);
    }
  }

  /**
   * The display: its payload and current mode. The HID device handle and
   * the write to it are not part of this model.
   */
  class CH170Display {
    var payload: DisplayPayload
    var mode: DisplayMode

    ghost predicate Valid()
      reads this, payload, payload.bytes
    {
      payload.Valid()
    }

    /** `CH170Display::new` after the device is open: a fresh payload and the default mode. */
    constructor ()
      ensures Valid() && fresh(payload) && fresh(payload.bytes)
      ensures payload.bytes[..] == InitialPayload()
      ensures mode == DefaultMode()
    {
      payload := new DisplayPayload();
      mode := DefaultMode();
    }

    /** `switch_mode`: advance the mode; the payload is rewritten only by the next update. */
    method SwitchMode()
      modifies this`mode
      ensures mode == Next(old(mode))
    {
      mode := Next(mode);
    }

    /** The encoding step of `CH170Display::update`: patch the payload for the current mode. */
    method Update(readings: SensorReadings, f32Be: F32Encoding)
      requires Valid()
      modifies payload.bytes
      ensures Valid()
      ensures payload.bytes[..] == Encoded(old(payload.bytes[..]), mode, readings, f32Be)
    {
      payload.Update(mode, readings, f32Be);
    }
  }
}
