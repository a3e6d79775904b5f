/**
 * Digit editing of times of day (src/utils.rs).
 *
 * A `DateTime<Local>` is modelled as its calendar day plus the wall-clock
 * fields that chrono's `Timelike` accessors expose.
 */
module Utils {
  import opened Wrappers

  /** Calendar day (days since an epoch) and time of day. */
  datatype DateTime = DateTime(date: int, hour: nat, minute: nat, second: nat, nanosecond: nat)

  const NANOS_PER_SECOND: nat := 1_000_000_000

  /** The position of a date-time on the time line, in nanoseconds. */
  function InstantOf(dt: DateTime): int
  {
    (((dt.date * 24 + dt.hour) * 60 + dt.minute) * 60 + dt.second) * NANOS_PER_SECOND + dt.nanosecond
  }

  /** The wall-clock fields hold values a clock can show (chrono allows a leap second in the nanoseconds). */
  predicate ValidTime(dt: DateTime)
  {
    dt.hour < 24 && dt.minute < 60 && dt.second < 60 && dt.nanosecond < 2 * NANOS_PER_SECOND
  }

  /** `char::to_digit(10)`: only the ASCII digits have a decimal value. */
  function DecimalDigit(c: char): (r: Option<nat>)
    ensures r.Some? <==> '0' <= c <= '9'
    ensures r.Some? ==> r.value < 10 && r.value == c as int - '0' as int
  {
    if '0' <= c <= '9' then Some(c as int - '0' as int) else None
  }

  function Min(a: nat, b: nat): nat
  {
    if a <= b then a else b
  }

  /** Positions 1..6 address the digits of HH:MM:SS from left to right. */
  function FieldAt(dt: DateTime, pos: nat): nat
    requires 1 <= pos <= 6
  {
    if pos <= 2 then dt.hour else if pos <= 4 then dt.minute else dt.second
  }

  /** `dt.with_hour`, `with_minute` or `with_second`, whichever field `pos` addresses. */
  function WithFieldAt(dt: DateTime, pos: nat, v: nat): (r: DateTime)
    requires 1 <= pos <= 6
    ensures FieldAt(r, pos) == v
    ensures r.date == dt.date && r.nanosecond == dt.nanosecond
    ensures pos <= 2 ==> r.minute == dt.minute && r.second == dt.second
    ensures 3 <= pos <= 4 ==> r.hour == dt.hour && r.second == dt.second
    ensures 5 <= pos ==> r.hour == dt.hour && r.minute == dt.minute
  {
    if pos <= 2 then dt.(hour := v) else if pos <= 4 then dt.(minute := v) else dt.(second := v)
  }

  /** The largest value the field at `pos` may take: 23 for the hour, 59 otherwise. */
  function LimitAt(pos: nat): nat
  {
    if 1 <= pos <= 2 then 23 else 59
  }

  /** The number whose tens digit is `d` and whose ones digit is that of `prev`. */
  function WithTens(prev: nat, d: nat): (r: nat)
    requires d < 10
    ensures r / 10 == d && r % 10 == prev % 10
  {
    prev % 10 + d * 10
  }

  /** The number whose ones digit is `d` and whose higher digits are those of `prev`. */
  function WithOnes(prev: nat, d: nat): (r: nat)
    requires d < 10
    ensures r / 10 == prev / 10 && r % 10 == d
  {
    (prev - prev % 10) + d
  }

  /** The guard that refuses a tens digit no clock can show. */
  predicate Refused(pos: nat, digit: nat)
  {
    (pos == 1 && digit >= 3) || (pos % 2 == 1 && digit >= 6)
  }

  /** The calls of `adjust_datetime_digit` that do not reach its `panic!`. */
  predicate AdjustDefined(pos: nat, c: char)
  {
    DecimalDigit(c).None? || 1 <= pos <= 6 || Refused(pos, DecimalDigit(c).value)
  }

  /**
   * `adjust_datetime_digit`: overwrite the digit at `pos` of HH:MM:SS with `c`,
   * clamping the changed field to its limit.
   */
  function AdjustDigit(dt: DateTime, pos: nat, c: char): (r: Option<DateTime>)
    requires AdjustDefined(pos, c)
    ensures r.Some? <==> DecimalDigit(c).Some? && !Refused(pos, DecimalDigit(c).value)
    ensures r.Some? ==> 1 <= pos <= 6 && r.value == WithFieldAt(dt, pos, FieldAt(r.value, pos))
    ensures r.Some? ==> FieldAt(r.value, pos) <= LimitAt(pos)
    ensures r.Some? && pos % 2 == 1 ==>
      FieldAt(r.value, pos) == Min(WithTens(FieldAt(dt, pos), DecimalDigit(c).value), LimitAt(pos))
    ensures r.Some? && pos % 2 == 0 ==>
      FieldAt(r.value, pos) == Min(WithOnes(FieldAt(dt, pos), DecimalDigit(c).value), LimitAt(pos))
  {
    match DecimalDigit(c)
    case None => None
    case Some(digit) =>
      if Refused(pos, digit) then None
      else
        var prev := FieldAt(dt, pos);
        var limit := LimitAt(pos);
        var kept := if pos % 2 == 1 then prev % 10 else prev - prev % 10;
        var placed := if pos % 2 == 1 then digit * 10 else digit;
        Some(WithFieldAt(dt, pos, Min(kept + placed, limit)))
  }

  /** On a valid time every successful edit yields a valid time again. */
  lemma AdjustKeepsValid(dt: DateTime, pos: nat, c: char)
    requires ValidTime(dt) && AdjustDefined(pos, c)
    ensures AdjustDigit(dt, pos, c).Some? ==> ValidTime(AdjustDigit(dt, pos, c).value)
  {
  }

  /** Typing a field's own digit back into it changes nothing when the field holds a valid value. */
  lemma AdjustSameDigitIsIdentity(dt: DateTime, pos: nat, c: char)
    requires ValidTime(dt) && 1 <= pos <= 6
    requires DecimalDigit(c).Some?
    requires DecimalDigit(c).value == if pos % 2 == 1 then FieldAt(dt, pos) / 10 else FieldAt(dt, pos) % 10
    ensures AdjustDigit(dt, pos, c) == Some(dt)
  {
    var prev, d := FieldAt(dt, pos), DecimalDigit(c).value;
    assert prev <= LimitAt(pos);
    if pos % 2 == 1 {
      assert WithTens(prev, d) == prev;
    } else {
      assert WithOnes(prev, d) == prev;
    }
    assert WithFieldAt(dt, pos, prev) == dt;
  }

  /**
   * `datetime_with_zeroed_time`: the same calendar day at 00:00:00.0.
   */
  function ZeroedTime(dt: DateTime): (r: DateTime)
    ensures r.date == dt.date
    ensures r.hour == 0 && r.minute == 0 && r.second == 0 && r.nanosecond == 0
  {
    dt.(hour := 0).(minute := 0).(second := 0).(nanosecond := 0)
  }

  /** The zeroed time is the first instant of its day: no valid time of that day is earlier. */
  lemma ZeroedTimeStartsTheDay(dt: DateTime, other: DateTime)
    requires other.date == dt.date
    ensures InstantOf(ZeroedTime(dt)) <= InstantOf(other)
    ensures InstantOf(ZeroedTime(dt)) == InstantOf(other) <==>
              other.hour == 0 && other.minute == 0 && other.second == 0 && other.nanosecond == 0
  {
    var z := ZeroedTime(dt);
    var ofDay := ((other.hour * 60 + other.minute) * 60 + other.second) * NANOS_PER_SECOND + other.nanosecond;
    assert InstantOf(z) == dt.date * 24 * 60 * 60 * NANOS_PER_SECOND;
    assert InstantOf(other) == InstantOf(z) + ofDay;
  }
}
