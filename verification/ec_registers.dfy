/**
 * The EC register map and the conversions between raw register bytes and
 * the values the rest of the program works with: fan duty in percent and
 * fan speed in RPM, and the clamp-and-scale applied before a duty is
 * written back.
 */
module EcRegisters {

  /** Size of the EC register image. */
  const REG_SIZE: int := 0x100

  /** Register offsets inside the image. */
  const REG_CPU_TEMP: int := 0x07
  const REG_GPU_TEMP: int := 0x0A
  const REG_CPU_FAN_DUTY: int := 0xCE
  const REG_CPU_FAN_RPMS_HI: int := 0xD0
  const REG_CPU_FAN_RPMS_LO: int := 0xD1
  const REG_GPU_FAN_DUTY: int := 0xCF
  const REG_GPU_FAN_RPMS_HI: int := 0xD2
  const REG_GPU_FAN_RPMS_LO: int := 0xD3

  /** The EC command that sets a fan's duty, and the port selector of each fan. */
  const CMD_SET_FAN_DUTY: Byte := 0x99
  const CPU_PORT: Byte := 0x01
  const GPU_PORT: Byte := 0x02

  /** The hardware's time base: RPM = RPM_DIVIDEND / raw tachometer count. */
  const RPM_DIVIDEND: int := 2156220

  /** Duty percentages the write path accepts after clamping. */
  const MIN_WRITE_DUTY: int := 10
  const MAX_WRITE_DUTY: int := 100

  /** A register or port byte. */
  type Byte = x: int | 0 <= x < 0x100

  /** Euclidean division facts for a non-negative dividend and positive divisor. */
  lemma DivBounds(a: int, b: int)
    requires a >= 0 && b > 0
    ensures a / b >= 0 && (a / b) * b <= a < (a / b + 1) * b
  {
  }

  /** The two thermal zones, each with its own fan. */
  datatype Zone = Cpu | Gpu

  /** One fan-duty write as ec_io_do sends it: command byte, then port selector, then value. */
  datatype FanCommand = FanCommand(cmd: Byte, port: Byte, value: Byte)

  /**
   * calculate_fan_duty: a raw duty byte as a percentage, truncated.  The
   * source divides in double precision; here it is integer floor division.
   */
  function FanDutyPercent(raw: Byte): (p: int)
    ensures 0 <= p <= 100
    ensures p * 255 <= raw * 100 < (p + 1) * 255
  {
    DivBounds(raw * 100, 255);
    raw * 100 / 255
  }

  /** The raw tachometer count held in a high and a low register byte. */
  function RawRpm(hi: Byte, lo: Byte): (raw: int)
    ensures 0 <= raw < 0x10000
    ensures raw / 256 == hi && raw % 256 == lo
  {
    hi * 256 + lo
  }

  /** calculate_fan_rpms: 0 for a zero count, otherwise the time base divided by the count. */
  function FanRpms(hi: Byte, lo: Byte): (rpm: int)
    ensures RawRpm(hi, lo) == 0 ==> rpm == 0
    ensures RawRpm(hi, lo) > 0 ==>
              rpm * RawRpm(hi, lo) <= RPM_DIVIDEND < (rpm + 1) * RawRpm(hi, lo)
  {
    var raw := RawRpm(hi, lo);
    if raw > 0 then DivBounds(RPM_DIVIDEND, raw); RPM_DIVIDEND / raw else 0
  }

  /** Any nonzero count from two bytes decodes to a speed between 32 and 2156220 RPM. */
  lemma FanRpmsRange(hi: Byte, lo: Byte)
    requires RawRpm(hi, lo) > 0
    ensures 32 <= FanRpms(hi, lo) <= RPM_DIVIDEND
  {
    var raw := RawRpm(hi, lo);
    DivAntitone(RPM_DIVIDEND, raw, 0xFFFF);
    DivAntitone(RPM_DIVIDEND, 1, raw);
    assert RPM_DIVIDEND / 0xFFFF == 32;
  }

  /** A higher tachometer count never reads as a faster fan. */
  lemma FanRpmsAntitone(hi1: Byte, lo1: Byte, hi2: Byte, lo2: Byte)
    requires 0 < RawRpm(hi1, lo1) <= RawRpm(hi2, lo2)
    ensures FanRpms(hi2, lo2) <= FanRpms(hi1, lo1)
  {
    DivAntitone(RPM_DIVIDEND, RawRpm(hi1, lo1), RawRpm(hi2, lo2));
  }

  /** Dividing by a larger divisor never gives a larger quotient. */
  lemma DivAntitone(n: int, a: int, b: int)
    requires n >= 0 && 0 < a <= b
    ensures n / b <= n / a
  {
    var q, p := n / b, n / a;
    DivBounds(n, b);
    DivBounds(n, a);
    MulMonotone(q, a, b);
    assert q * a < (p + 1) * a;
    MulCancel(q, p + 1, a);
  }

  /** A non-negative factor keeps a product from shrinking when the other factor grows. */
  lemma MulMonotone(q: int, a: int, b: int)
    requires q >= 0 && a <= b
    ensures q * a <= q * b
  {
    assert q * b - q * a == q * (b - a);
  }

  /** Dividing both sides of x * a < y * a by a positive a. */
  lemma MulCancel(x: int, y: int, a: int)
    requires a > 0 && x * a < y * a
    ensures x < y
  {
    if x >= y {
      MulMonotone(a, y, x);
    }
  }

  /** Decoding examples: RPM from (0x08, 0x00), duty of raw 128 and 200, and the zero count. */
  lemma DecodeExamples()
    ensures FanRpms(0x08, 0x00) == 1052
    ensures FanRpms(0x00, 0x00) == 0
    ensures FanDutyPercent(128) == 50 && FanDutyPercent(200) == 78 && FanDutyPercent(255) == 100
  {
    assert RawRpm(0x08, 0x00) == 2048;
    assert 1052 * 2048 <= RPM_DIVIDEND < 1053 * 2048;
  }

  /** The duty clamp of ec_write_cpu_fan_duty / ec_write_gpu_fan_duty: the nearest value in [10, 100]. */
  function ClampDuty(duty: int): (c: int)
    ensures MIN_WRITE_DUTY <= c <= MAX_WRITE_DUTY
    ensures MIN_WRITE_DUTY <= duty <= MAX_WRITE_DUTY ==> c == duty
  {
    if duty < MIN_WRITE_DUTY then MIN_WRITE_DUTY
    else if duty > MAX_WRITE_DUTY then MAX_WRITE_DUTY
    else duty
  }

  /** The clamped duty is the point of [10, 100] nearest to the requested one. */
  lemma ClampIsNearest(duty: int, x: int)
    requires MIN_WRITE_DUTY <= x <= MAX_WRITE_DUTY
    ensures var c := ClampDuty(duty);
      (if c <= duty then duty - c else c - duty) <= (if x <= duty then duty - x else x - duty)
  {
  }

  /**
   * The scaling of a clamped duty to the byte sent to the EC, truncated.
   * The source multiplies in double precision; here it is integer floor
   * division.
   */
  function DutyToRaw(duty: int): (raw: Byte)
    requires MIN_WRITE_DUTY <= duty <= MAX_WRITE_DUTY
    ensures 25 <= raw
    ensures raw * 100 <= duty * 255 < (raw + 1) * 100
  {
    DivBounds(duty * 255, 100);
    duty * 255 / 100
  }

  /** The command a duty write for `zone` sends: 0x99, the zone's port selector, the scaled duty. */
  function FanDutyCommand(zone: Zone, duty: int): (c: FanCommand)
    ensures c.cmd == CMD_SET_FAN_DUTY
    ensures c.port == (if zone == Cpu then CPU_PORT else GPU_PORT)
    ensures c.value == DutyToRaw(ClampDuty(duty))
  {
    FanCommand(CMD_SET_FAN_DUTY, if zone.Cpu? then CPU_PORT else GPU_PORT, DutyToRaw(ClampDuty(duty)))
  }

  /**
   * Write then read back: a duty in [10, 100] written to the EC decodes to
   * the same duty or one less, because both directions truncate.
   */
  lemma DecodeAfterWrite(duty: int)
    requires MIN_WRITE_DUTY <= duty <= MAX_WRITE_DUTY
    ensures duty - 1 <= FanDutyPercent(DutyToRaw(duty)) <= duty
  {
    var raw := DutyToRaw(duty);
    var p := FanDutyPercent(DutyToRaw(duty));
    assert raw * 100 <= duty * 255 < raw * 100 + 100;
    assert p * 255 <= raw * 100 < p * 255 + 255;
    assert p * 255 < duty * 255 + 255;
    assert (duty - 1) * 255 < (p + 1) * 255;
  }

  /** Read then write back: re-sending a decoded duty never raises the raw byte. */
  lemma WriteAfterDecode(raw: Byte)
    requires MIN_WRITE_DUTY <= FanDutyPercent(raw)
    ensures DutyToRaw(FanDutyPercent(raw)) <= raw
  {
    var p := FanDutyPercent(raw);
    var r := DutyToRaw(p);
    assert r * 100 <= p * 255 <= raw * 100;
  }

  /** An out-of-range duty is written as the nearest bound. */
  lemma ClampExamples()
    ensures FanDutyCommand(Cpu, 5) == FanCommand(0x99, 0x01, 25)
    ensures FanDutyCommand(Gpu, 250) == FanCommand(0x99, 0x02, 255)
    ensures FanDutyCommand(Cpu, 70) == FanCommand(0x99, 0x01, 178)
  {
  }
}
