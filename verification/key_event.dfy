/**
 The event codec between the kernel's `input_event` record and the program's `KeyEvent`, and
 the timestamp conversions between `timeval` and `MyTime`.
 */
module KeyEvents {
  import opened Wrappers
  import opened Ints
  import opened KeyCodeTable
  import opened KeyCodes

  // input_event types
  const EV_SYN: u16 := 0x00
  const EV_KEY: u16 := 0x01
  const EV_MSC: u16 := 0x04

  // event codes
  const SYN_REPORT: u16 := 0
  const MSC_SCAN: u16 := 0x04

  // values of an EV_KEY event
  const KEY_RELEASE: i32 := 0
  const KEY_PRESS: i32 := 1
  const KEY_HOLD: i32 := 2

  const NANOS_PER_SEC: int := 1_000_000_000
  const NANOS_PER_MICRO: int := 1_000
  const MICROS_PER_SEC: int := 1_000_000

  /** libc `timeval` on 64-bit Linux: seconds and microseconds, both `i64`. */
  datatype Timeval = Timeval(sec: i64, usec: i64)

  type Seconds = x: int | 0 <= x <= I64_MAX
  type Nanos = x: int | 0 <= x < NANOS_PER_SEC

  /**
   `MyTime`, a `SystemTime`, held as its `Duration` since the Unix epoch: whole seconds and
   the nanoseconds below one second. A `SystemTime` counts seconds in an `i64`.
   */
  datatype MyTime = MyTime(secs: Seconds, nanos: Nanos)

  /** The instant as a count of nanoseconds since the epoch. */
  function TotalNanos(t: MyTime): int
  {
    t.secs * NANOS_PER_SEC + t.nanos
  }

  /**
   `UNIX_EPOCH + Duration::new(tv_sec as u64, tv_usec as u32)` does not panic: the seconds,
   with the whole seconds carried out of the nanosecond part, fit the `i64` of a `SystemTime`.
   */
  predicate Representable(tv: Timeval)
  {
    tv.sec % U64_LIMIT + (tv.usec % U32_LIMIT) / NANOS_PER_SEC <= I64_MAX
  }

  /**
   `From<timeval> for MyTime`. The microsecond field is handed to `Duration::new` as a number
   of NANOseconds, after the `as u64` and `as u32` casts wrap the two fields.
   */
  function TimeFromTimeval(tv: Timeval): (t: MyTime)
    requires Representable(tv)
    ensures TotalNanos(t) == (tv.sec % U64_LIMIT) * NANOS_PER_SEC + tv.usec % U32_LIMIT
  {
    var secs := tv.sec % U64_LIMIT;
    var nanos := tv.usec % U32_LIMIT;
    MyTime(secs + nanos / NANOS_PER_SEC, nanos % NANOS_PER_SEC)
  }

  /** `From<MyTime> for timeval`: `as_secs()` and `subsec_micros()` of the duration since the epoch. */
  function TimevalFromTime(t: MyTime): (tv: Timeval)
    ensures 0 <= tv.usec < MICROS_PER_SEC
    ensures tv.sec * NANOS_PER_SEC <= TotalNanos(t) < tv.sec * NANOS_PER_SEC + NANOS_PER_SEC
    ensures tv.usec == (TotalNanos(t) - tv.sec * NANOS_PER_SEC) / NANOS_PER_MICRO
  {
    Timeval(t.secs, t.nanos / NANOS_PER_MICRO)
  }

  /**
   Decoding then encoding a well-formed timestamp keeps the seconds but divides the
   microseconds by 1000, since they were read as nanoseconds.
   */
  lemma TimevalRoundTrip(tv: Timeval)
    requires 0 <= tv.sec && 0 <= tv.usec < MICROS_PER_SEC
    ensures Representable(tv)
    ensures TimevalFromTime(TimeFromTimeval(tv)) == Timeval(tv.sec, tv.usec / NANOS_PER_MICRO)
  {
  }

  /** Encoding then decoding a time keeps the seconds and turns its microseconds into nanoseconds. */
  lemma TimeRoundTrip(t: MyTime)
    ensures Representable(TimevalFromTime(t))
    ensures TimeFromTimeval(TimevalFromTime(t)) == MyTime(t.secs, t.nanos / NANOS_PER_MICRO)
  {
  }

  /** The time stamps do not survive a round trip: 1.5 s encodes as 1 s 500000 us and decodes as 1.0005 s. */
  lemma TimeRoundTripIsLossy()
    ensures TimeFromTimeval(TimevalFromTime(MyTime(1, 500_000_000))) == MyTime(1, 500_000)
  {
  }

  /** The kernel's `input_event`. */
  datatype InputEvent = InputEvent(time: Timeval, type_: u16, code: u16, value: i32)

  /** The program's view of an input event. */
  datatype KeyEvent =
    | Press(code: KeyCode, repeat: bool, time: MyTime)
    | Release(code: KeyCode, time: MyTime)
    | Sync(value: i32, time: MyTime)
    | Scancode(value: i32, time: MyTime)
    | Unsupported(type_: u16, rawCode: u16, value: i32, time: MyTime)

  /** The raw triples one of the typed arms of the decoder matches. */
  predicate Typed(type_: u16, code: u16, value: i32)
  {
    || (type_ == EV_SYN && code == SYN_REPORT)
    || (type_ == EV_MSC && code == MSC_SCAN)
    || (type_ == EV_KEY && FromRepr(code).Some? && KEY_RELEASE <= value <= KEY_HOLD)
  }

  /** `From<input_event> for KeyEvent`. */
  function Decode(ie: InputEvent): (e: KeyEvent)
    requires Representable(ie.time)
    ensures e.time == TimeFromTimeval(ie.time)
    ensures e.Unsupported? <==> !Typed(ie.type_, ie.code, ie.value)
    ensures e.Unsupported? ==> e.type_ == ie.type_ && e.rawCode == ie.code && e.value == ie.value
  {
    var time := TimeFromTimeval(ie.time);
    if ie.type_ == EV_SYN && ie.code == SYN_REPORT then
      Sync(ie.value, time)
    else if ie.type_ == EV_MSC && ie.code == MSC_SCAN then
      Scancode(ie.value, time)
    else if ie.type_ == EV_KEY then
      match FromRepr(ie.code)
      case Some(code) =>
        if ie.value == KEY_RELEASE then Release(code, time)
        else if ie.value == KEY_PRESS then Press(code, false, time)
        else if ie.value == KEY_HOLD then Press(code, true, time)
        else Unsupported(EV_KEY, ie.code, ie.value, time)
      case None => Unsupported(EV_KEY, ie.code, ie.value, time)
    else
      Unsupported(ie.type_, ie.code, ie.value, time)
  }

  /** `From<KeyEvent> for input_event`. */
  function Encode(e: KeyEvent): (ie: InputEvent)
    ensures ie.time == TimevalFromTime(e.time)
    ensures e.Press? || e.Release? ==> ie.type_ == EV_KEY && ie.code == ToU16(e.code)
    ensures e.Press? ==> ie.value == if e.repeat then KEY_HOLD else KEY_PRESS
    ensures e.Release? ==> ie.value == KEY_RELEASE
    ensures e.Sync? ==> ie.type_ == EV_SYN && ie.code == SYN_REPORT && ie.value == e.value
    ensures e.Scancode? ==> ie.type_ == EV_MSC && ie.code == MSC_SCAN && ie.value == e.value
    ensures e.Unsupported? ==> ie.type_ == e.type_ && ie.code == e.rawCode && ie.value == e.value
  {
    var time := TimevalFromTime(e.time);
    match e
    case Press(code, repeat, _) => InputEvent(time, EV_KEY, ToU16(code), if repeat then KEY_HOLD else KEY_PRESS)
    case Release(code, _) => InputEvent(time, EV_KEY, ToU16(code), KEY_RELEASE)
    case Sync(value, _) => InputEvent(time, EV_SYN, SYN_REPORT, value)
    case Scancode(value, _) => InputEvent(time, EV_MSC, MSC_SCAN, value)
    case Unsupported(type_, code, value, _) => InputEvent(time, type_, code, value)
  }

  /** The decoder's arms, one by one: sync and scan-code records. */
  lemma DecodeSyncAndScan(ie: InputEvent)
    requires Representable(ie.time)
    ensures ie.type_ == EV_SYN && ie.code == SYN_REPORT ==> Decode(ie) == Sync(ie.value, TimeFromTimeval(ie.time))
    ensures ie.type_ == EV_MSC && ie.code == MSC_SCAN ==> Decode(ie) == Scancode(ie.value, TimeFromTimeval(ie.time))
  {
  }

  /** The decoder's arms, one by one: key records with a known code. */
  lemma DecodeKey(ie: InputEvent, k: KeyCode)
    requires Representable(ie.time)
    requires ie.type_ == EV_KEY && ie.code == ToU16(k)
    ensures ie.value == KEY_RELEASE ==> Decode(ie) == Release(k, TimeFromTimeval(ie.time))
    ensures ie.value == KEY_PRESS ==> Decode(ie) == Press(k, false, TimeFromTimeval(ie.time))
    ensures ie.value == KEY_HOLD ==> Decode(ie) == Press(k, true, TimeFromTimeval(ie.time))
  {
    FromReprRoundTrip(k);
  }

  /** Encoding a decoded record gives back its type, code and value; only the time stamp changes. */
  lemma EncodeDecode(ie: InputEvent)
    requires Representable(ie.time)
    ensures Encode(Decode(ie)) == ie.(time := TimevalFromTime(TimeFromTimeval(ie.time)))
  {
  }

  /** `e` with its time stamp as it comes back from a round trip through `timeval`. */
  function WithRoundTripTime(e: KeyEvent): KeyEvent
  {
    e.(time := MyTime(e.time.secs, e.time.nanos / NANOS_PER_MICRO))
  }

  /**
   Decoding an encoded event gives it back, up to the time stamp, except for an `Unsupported`
   event whose raw triple one of the typed arms claims.
   */
  lemma DecodeEncode(e: KeyEvent)
    ensures Representable(Encode(e).time)
    ensures Decode(Encode(e)) == WithRoundTripTime(e) <==> !(e.Unsupported? && Typed(e.type_, e.rawCode, e.value))
  {
    TimeRoundTrip(e.time);
    match e
    case Press(code, _, _) => FromReprRoundTrip(code);
    case Release(code, _) => FromReprRoundTrip(code);
    case Sync(_, _) =>
    case Scancode(_, _) =>
    case Unsupported(_, _, _, _) =>
  }
}
