/**
 * Trigger-time resolution: `getOneTimeAlarmDate` and `getAlarmDate`.
 *
 * Local wall-clock time is one integer, milliseconds since local midnight
 * at the start of day 0 (1970-01-01, a Thursday). A day number and a
 * millisecond-of-day are recovered from it by Euclidean division, so the
 * model holds for instants before day 0 as well.
 */
module AlarmDates {
  import opened Wrappers

  const MsPerMinute: int := 60_000
  const MsPerHour: int := 3_600_000
  const MsPerDay: int := 86_400_000

  type Instant = int

  function Day(t: Instant): int {
    t / MsPerDay
  }

  function MsOfDay(t: Instant): (ms: int)
    ensures 0 <= ms < MsPerDay
  {
    t % MsPerDay
  }

  function DayStart(day: int): Instant {
    day * MsPerDay
  }

  /** `Calendar.DAY_OF_WEEK - 1`: 0 is Sunday, 6 is Saturday. */
  function Weekday(day: int): (w: int)
    ensures 0 <= w < 7
  {
    (day + 4) % 7
  }

  /** The `time` object of an alarm: `hour` and `minute`, each possibly absent. */
  datatype Time = Time(hour: Option<int>, minute: Option<int>)

  /** A time with an hour that is present and not negative yields a date; any other yields none. */
  predicate Resolvable(t: Time) {
    t.hour.Some? && t.hour.value >= 0
  }

  /**
   * The fields the lenient calendar would otherwise roll over into another
   * date stay in range: hour 0..23, minute 0..59.
   */
  predicate InRange(t: Time) {
    Resolvable(t) ==> t.hour.value <= 23 && (t.minute.Some? ==> 0 <= t.minute.value <= 59)
  }

  /** Milliseconds after midnight of `hour:minute:00.000`, the minute defaulting to 0. */
  function TimeOfDay(t: Time): (ms: int)
    requires Resolvable(t) && InRange(t)
    ensures 0 <= ms < MsPerDay
  {
    t.hour.value * MsPerHour + t.minute.GetOr(0) * MsPerMinute
  }

  lemma DayOf(day: int, ms: int)
    requires 0 <= ms < MsPerDay
    ensures Day(DayStart(day) + ms) == day && MsOfDay(DayStart(day) + ms) == ms
  {
    var t := DayStart(day) + ms;
    var q, r := t / MsPerDay, t % MsPerDay;
    assert t == q * MsPerDay + r;
    assert (q - day) * MsPerDay == ms - r;
  }

  lemma Split(t: Instant)
    ensures t == DayStart(Day(t)) + MsOfDay(t)
  {
  }

  /** `Weekday` advances by one per day, modulo a week. */
  lemma WeekdayAdd(day: int, n: int)
    ensures Weekday(day + n) == (Weekday(day) + n) % 7
  {
    var a := day + 4;
    assert a == 7 * (a / 7) + a % 7;
    assert (a + n) == 7 * (a / 7) + (a % 7 + n);
    ModShift(a % 7 + n, a / 7);
  }

  lemma ModShift(x: int, k: int)
    ensures (x + 7 * k) % 7 == x % 7
  {
    var q, r := (x + 7 * k) / 7, (x + 7 * k) % 7;
    var q', r' := x / 7, x % 7;
    assert x + 7 * k == 7 * q + r;
    assert x == 7 * q' + r';
    assert 7 * (q - q' - k) == r' - r;
  }

  /**
   * `getOneTimeAlarmDate`: today at `hour:minute:00.000`, or tomorrow when
   * that is strictly before now; none when the hour is absent or negative.
   */
  function OneTimeAlarmDate(time: Time, now: Instant): (r: Option<Instant>)
    requires InRange(time)
    ensures r.Some? <==> Resolvable(time)
    ensures r.Some? ==> now <= r.value < now + MsPerDay
    ensures r.Some? ==> MsOfDay(r.value) == TimeOfDay(time)
  {
    if Resolvable(time) then
      var tod := TimeOfDay(time);
      var candidate := DayStart(Day(now)) + tod;
      Split(now);
      DayOf(Day(now), tod);
      DayOf(Day(now) + 1, tod);
      Some(if candidate < now then candidate + MsPerDay else candidate)
    else
      None
  }

  /** The date is today exactly when the requested time of day is not earlier than now's. */
  lemma OneTimeAlarmDateDay(time: Time, now: Instant)
    requires InRange(time) && Resolvable(time)
    ensures Day(OneTimeAlarmDate(time, now).value)
         == if TimeOfDay(time) < MsOfDay(now) then Day(now) + 1 else Day(now)
  {
    var tod := TimeOfDay(time);
    Split(now);
    DayOf(Day(now), tod);
    DayOf(Day(now) + 1, tod);
  }

  /** The one-time date is the earliest instant not before now with the requested time of day. */
  lemma OneTimeAlarmDateIsNext(time: Time, now: Instant, x: Instant)
    requires InRange(time) && Resolvable(time)
    requires now <= x && MsOfDay(x) == TimeOfDay(time)
    ensures OneTimeAlarmDate(time, now).value <= x
  {
    var tod := TimeOfDay(time);
    var candidate := DayStart(Day(now)) + tod;
    Split(now);
    Split(x);
    if Day(x) == Day(now) {
      assert x == candidate;
    } else {
      assert Day(x) > Day(now);
      assert x >= DayStart(Day(now) + 1) + tod;
    }
  }

  /**
   * The days `getAlarmDate` adds to today: forwards to the target weekday,
   * and on the target weekday itself a full week only when today's
   * candidate has already passed.
   */
  function DaysUntil(current: int, target: int, passed: bool): (n: int)
    requires 0 <= current < 7 && 0 <= target < 7
    ensures 0 <= n <= 7
    ensures (current + n) % 7 == target
    ensures n == 0 <==> current == target && !passed
    ensures n == 7 <==> current == target && passed
  {
    if current > target then
      (6 - current) + target + 1
    else if current < target then
      target - current
    else if passed then
      7
    else
      0
  }

  /**
   * `getAlarmDate`: the next `dayOfWeek` (0 = Sunday) at `hour:minute:00.000`;
   * none when the hour is absent or negative.
   */
  function AlarmDate(time: Time, dayOfWeek: int, now: Instant): (r: Option<Instant>)
    requires InRange(time) && 0 <= dayOfWeek < 7
    ensures r.Some? <==> Resolvable(time)
    ensures r.Some? ==> now <= r.value < now + 7 * MsPerDay
    ensures r.Some? ==> Weekday(Day(r.value)) == dayOfWeek && MsOfDay(r.value) == TimeOfDay(time)
  {
    if Resolvable(time) then
      var tod := TimeOfDay(time);
      var candidate := DayStart(Day(now)) + tod;
      var days := DaysUntil(Weekday(Day(now)), dayOfWeek, now > candidate);
      Split(now);
      DayOf(Day(now) + days, tod);
      WeekdayAdd(Day(now), days);
      Some(DayStart(Day(now) + days) + tod)
    else
      None
  }

  /**
   * On the requested weekday the date is today's candidate, or exactly
   * seven days later when now is strictly after that candidate.
   */
  lemma AlarmDateSameWeekday(time: Time, dayOfWeek: int, now: Instant)
    requires InRange(time) && Resolvable(time) && 0 <= dayOfWeek < 7
    requires Weekday(Day(now)) == dayOfWeek
    ensures var candidate := DayStart(Day(now)) + TimeOfDay(time);
            AlarmDate(time, dayOfWeek, now).value
              == if now > candidate then candidate + 7 * MsPerDay else candidate
  {
  }

  /** The weekly date is the earliest instant not before now on that weekday at that time of day. */
  lemma AlarmDateIsNext(time: Time, dayOfWeek: int, now: Instant, x: Instant)
    requires InRange(time) && Resolvable(time) && 0 <= dayOfWeek < 7
    requires now <= x && Weekday(Day(x)) == dayOfWeek && MsOfDay(x) == TimeOfDay(time)
    ensures AlarmDate(time, dayOfWeek, now).value <= x
  {
    var tod := TimeOfDay(time);
    var candidate := DayStart(Day(now)) + tod;
    var n := DaysUntil(Weekday(Day(now)), dayOfWeek, now > candidate);
    Split(now);
    Split(x);
    var k := Day(x) - Day(now);
    assert k >= 0;
    WeekdayAdd(Day(now), k);
    assert x >= DayStart(Day(now) + n) + tod;
  }
}
