/**
  The byte-level formats spoken with the WP6003 air-quality sensor:
  the telemetry frame it notifies (tag 0x0A, big-endian 16-bit fields at
  fixed offsets) and the three command frames written to its command
  characteristic (0xAA time sync, 0xAE notify interval, 0xAB request).
 */
module Protocol {
  import opened Options

  type Byte = b: int | 0 <= b < 256

  /** The C conversion `(uint8_t)x`: reduction modulo 256. */
  function U8(x: int): (b: Byte)
    ensures (x - b) % 256 == 0
    ensures 0 <= x < 256 ==> b == x
  {
    x % 256
  }

  /** The C operator `a % n` on `int`, which truncates toward zero. */
  function CRem(a: int, n: int): (r: int)
    requires n > 0
    ensures 0 <= a ==> 0 <= r < n
    ensures a < 0 ==> -n < r <= 0
    ensures a == n * CQuot(a, n) + r
  {
    if a >= 0 then a % n else -((-a) % n)
  }

  /** The C quotient `a / n`, truncated toward zero. */
  function CQuot(a: int, n: int): int
    requires n > 0
  {
    if a >= 0 then a / n else -((-a) / n)
  }

  /** A big-endian 16-bit field, `high * 256 + low`. */
  function Be16(high: Byte, low: Byte): (v: nat)
    ensures v < 0x1_0000
    ensures v / 256 == high && v % 256 == low
  {
    high * 256 + low
  }

  /** The two bytes of a 16-bit value, high byte first. */
  function Be16Bytes(v: nat): (f: seq<Byte>)
    requires v < 0x1_0000
    ensures |f| == 2 && Be16(f[0], f[1]) == v
  {
    [v / 256, v % 256]
  }

  // ---------------------------------------------------------------------
  // Telemetry frame (sensor to client)

  const TELEMETRY_TAG: Byte := 0x0A
  const TELEMETRY_MIN_LENGTH: nat := 18

  /**
    One decoded reading in fixed point: temperature in tenths of a degree
    Celsius, TVOC and HCHO in thousandths of mg/m3, CO2 in ppm.
   */
  datatype Reading = Reading(tempTenths: nat, tvocMilli: nat, hchoMilli: nat, co2Ppm: nat)

  predicate InRange(r: Reading) {
    r.tempTenths < 0x1_0000 && r.tvocMilli < 0x1_0000 &&
    r.hchoMilli < 0x1_0000 && r.co2Ppm < 0x1_0000
  }

  /**
    Decodes a telemetry frame: a frame whose byte 0 is not the tag is
    dropped; otherwise each quantity is the 16-bit big-endian field at
    offsets 6, 10, 12 and 16.
   */
  function DecodeTelemetry(data: seq<Byte>): (r: Option<Reading>)
    requires |data| >= TELEMETRY_MIN_LENGTH
    ensures r.Some? <==> data[0] == TELEMETRY_TAG
    ensures r.Some? ==> InRange(r.value)
    ensures r.Some? ==> Be16Bytes(r.value.tempTenths) == data[6..8]
    ensures r.Some? ==> Be16Bytes(r.value.tvocMilli) == data[10..12]
    ensures r.Some? ==> Be16Bytes(r.value.hchoMilli) == data[12..14]
    ensures r.Some? ==> Be16Bytes(r.value.co2Ppm) == data[16..18]
  {
    if data[0] != TELEMETRY_TAG then None
    else Some(Reading(Be16(data[6], data[7]), Be16(data[10], data[11]),
                      Be16(data[12], data[13]), Be16(data[16], data[17])))
  }

  /**
    A minimal telemetry frame carrying the reading `r`, with every byte
    the decoder does not look at set to zero.
   */
  function EncodeTelemetry(r: Reading): (f: seq<Byte>)
    requires InRange(r)
    ensures |f| == TELEMETRY_MIN_LENGTH && f[0] == TELEMETRY_TAG
  {
    [TELEMETRY_TAG, 0, 0, 0, 0, 0] + Be16Bytes(r.tempTenths) + [0, 0]
      + Be16Bytes(r.tvocMilli) + Be16Bytes(r.hchoMilli) + [0, 0] + Be16Bytes(r.co2Ppm)
  }

  /** Decoding recovers every reading that fits the frame's fields. */
  lemma DecodeEncodeTelemetry(r: Reading)
    requires InRange(r)
    ensures DecodeTelemetry(EncodeTelemetry(r)) == Some(r)
  {
  }

  /** Decoding looks only at the tag and the four measurement fields. */
  lemma DecodeDependsOnlyOnFields(a: seq<Byte>, b: seq<Byte>)
    requires |a| >= TELEMETRY_MIN_LENGTH && |b| >= TELEMETRY_MIN_LENGTH
    requires a[0] == b[0] && a[6..8] == b[6..8] && a[10..14] == b[10..14] && a[16..18] == b[16..18]
    ensures DecodeTelemetry(a) == DecodeTelemetry(b)
  {
  }

  /** Temperature bytes {0, 250} are 25.0 degrees; CO2 bytes {3, 0xE8} are 1000 ppm. */
  lemma DecodeExample()
    ensures DecodeTelemetry([0x0A, 24, 3, 5, 14, 7, 0, 250, 0, 0, 0, 125, 0, 8, 0, 0, 3, 0xE8])
         == Some(Reading(250, 125, 8, 1000))
  {
  }

  // ---------------------------------------------------------------------
  // Command frames (client to sensor)

  const TIME_SYNC_TAG: Byte := 0xAA
  const NOTIFY_INTERVAL_TAG: Byte := 0xAE
  const REQUEST_NOTIFY_TAG: Byte := 0xAB

  /**
    The commands the client writes to the command characteristic.
    TimeSync carries the wall-clock fields exactly as they go on the wire.
   */
  datatype Command =
    | TimeSync(year: Byte, month: Byte, day: Byte, hour: Byte, minute: Byte, second: Byte)
    | NotifyInterval(first: Byte, second: Byte)
    | RequestNotify

  /** The notify-interval setting the driver sends: one notification a minute. */
  const ONE_MINUTE_CADENCE: Command := NotifyInterval(0x01, 0x01)

  function EncodeCommand(c: Command): (f: seq<Byte>)
    ensures |f| == (match c case TimeSync(_, _, _, _, _, _) => 7 case NotifyInterval(_, _) => 3 case RequestNotify => 1)
    ensures f[0] == (match c case TimeSync(_, _, _, _, _, _) => TIME_SYNC_TAG
                             case NotifyInterval(_, _) => NOTIFY_INTERVAL_TAG
                             case RequestNotify => REQUEST_NOTIFY_TAG)
  {
    match c
    case TimeSync(y, mo, d, h, mi, s) => [TIME_SYNC_TAG, y, mo, d, h, mi, s]
    case NotifyInterval(a, b) => [NOTIFY_INTERVAL_TAG, a, b]
    case RequestNotify => [REQUEST_NOTIFY_TAG]
  }

  /** How the sensor reads a command frame: by its tag and its exact length. */
  function DecodeCommand(f: seq<Byte>): (c: Option<Command>)
    ensures c.Some? ==> |f| > 0
  {
    if |f| == 7 && f[0] == TIME_SYNC_TAG then Some(TimeSync(f[1], f[2], f[3], f[4], f[5], f[6]))
    else if |f| == 3 && f[0] == NOTIFY_INTERVAL_TAG then Some(NotifyInterval(f[1], f[2]))
    else if |f| == 1 && f[0] == REQUEST_NOTIFY_TAG then Some(RequestNotify)
    else None
  }

  lemma DecodeEncodeCommand(c: Command)
    ensures DecodeCommand(EncodeCommand(c)) == Some(c)
  {
  }

  lemma EncodeDecodeCommand(f: seq<Byte>)
    ensures DecodeCommand(f).Some? ==> EncodeCommand(DecodeCommand(f).value) == f
  {
  }

  /**
    The fields of C's `struct tm` as `localtime` fills them: years since
    1900, months from 0, day of the month from 1.
   */
  datatype LocalTime = LocalTime(tmYear: int, tmMon: int, tmMday: int, tmHour: int, tmMin: int, tmSec: int)

  predicate Normalized(t: LocalTime) {
    0 <= t.tmYear && 0 <= t.tmMon < 12 && 1 <= t.tmMday <= 31 &&
    0 <= t.tmHour < 24 && 0 <= t.tmMin < 60 && 0 <= t.tmSec <= 60
  }

  /**
    The time-sync command for a local time: every field is cast to a
    byte as in C. For a normalized time that is the two-digit calendar
    year, the month counted from 1, and the remaining fields unchanged.
   */
  function TimeSyncOf(t: LocalTime): (c: Command)
    ensures c.TimeSync?
    ensures Normalized(t) ==>
      c == TimeSync((1900 + t.tmYear) % 100, t.tmMon + 1, t.tmMday, t.tmHour, t.tmMin, t.tmSec)
    ensures Normalized(t) ==> 1 <= c.month <= 12 && 1 <= c.day <= 31 && c.year < 100
  {
    TimeSync(U8(CRem(t.tmYear, 100)), U8(t.tmMon + 1), U8(t.tmMday),
             U8(t.tmHour), U8(t.tmMin), U8(t.tmSec))
  }

  function TimeSyncFrame(t: LocalTime): (f: seq<Byte>)
    ensures |f| == 7 && f[0] == TIME_SYNC_TAG
    ensures DecodeCommand(f) == Some(TimeSyncOf(t))
  {
    EncodeCommand(TimeSyncOf(t))
  }

  const NOTIFY_INTERVAL_FRAME: seq<Byte> := EncodeCommand(ONE_MINUTE_CADENCE)
  const REQUEST_FRAME: seq<Byte> := EncodeCommand(RequestNotify)

  /** The byte-exact frames: 2024-03-05 14:07:22 and the two constant commands. */
  lemma CommandFrameExamples()
    ensures TimeSyncFrame(LocalTime(124, 2, 5, 14, 7, 22)) == [0xAA, 24, 3, 5, 14, 7, 22]
    ensures NOTIFY_INTERVAL_FRAME == [0xAE, 0x01, 0x01]
    ensures REQUEST_FRAME == [0xAB]
  {
  }

}
