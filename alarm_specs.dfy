/**
 * The stored alarm list and what one scheduling pass of `setAlarms` makes
 * of it: the ids it consumes, in order, with the date each resolves to,
 * and the error that stops the pass.
 */
module AlarmSpecs {
  import opened Wrappers
  import opened AlarmDates
  import opened AlarmIds

  /** A zero-based day of the week, 0 = Sunday. */
  type DayIndex = d: int | 0 <= d < 7

  /** The `daysOfWeek` table: day name to `Calendar.DAY_OF_WEEK - 1`. */
  const DaysOfWeek: map<string, DayIndex> := map[
    "sunday" := 0, "monday" := 1, "tuesday" := 2, "wednesday" := 3,
    "thursday" := 4, "friday" := 5, "saturday" := 6]

  /**
   * The table names exactly seven days, each with its own weekday, from 0
   * for "sunday" to 6 for "saturday".
   */
  lemma DaysOfWeekTable()
    ensures |DaysOfWeek.Keys| == 7
    ensures DaysOfWeek["sunday"] == 0 && DaysOfWeek["monday"] == 1 && DaysOfWeek["tuesday"] == 2
    ensures DaysOfWeek["wednesday"] == 3 && DaysOfWeek["thursday"] == 4
    ensures DaysOfWeek["friday"] == 5 && DaysOfWeek["saturday"] == 6
  {
    var s1: set<string> := {"sunday"};
    assert "monday"[0] != "sunday"[0];
    var s2 := s1 + {"monday"};
    assert |"tuesday"| == 7 && |"sunday"| == 6 && |"monday"| == 6;
    var s3 := s2 + {"tuesday"};
    assert |"wednesday"| == 9;
    var s4 := s3 + {"wednesday"};
    assert |"thursday"| == 8;
    var s5 := s4 + {"thursday"};
    assert "friday"[0] != "sunday"[0] && "friday"[0] != "monday"[0] && |"friday"| == 6;
    var s6 := s5 + {"friday"};
    assert "saturday"[0] != "thursday"[0] && |"saturday"| == 8;
    var s7 := s6 + {"saturday"};
    assert DaysOfWeek.Keys == s7;
  }

  /** One alarm of the list: its `type` (default "onetime"), its `time` and its `days`. */
  datatype AlarmSpec = AlarmSpec(kind: Option<string>, time: Option<Time>, days: Option<seq<string>>)

  function TypeOf(spec: AlarmSpec): string {
    spec.kind.GetOr("onetime")
  }

  predicate SpecInRange(spec: AlarmSpec) {
    spec.time.Some? ==> InRange(spec.time.value)
  }

  predicate TimesInRange(specs: seq<AlarmSpec>) {
    forall i :: 0 <= i < |specs| ==> SpecInRange(specs[i])
  }

  /** Why a pass stops: a JSONException for a missing `time` or `days`, a null day index for an unknown day name. */
  datatype SpecError = MissingTime | MissingDays | UnknownDay(name: string)

  /** One id consumed by the pass: the type handed to `setNotification` and the resolved date, if any. */
  datatype Slot = Slot(kind: string, date: Option<Instant>)

  /** The ids consumed, in order (slot k holds id IdSequentialOffset + k), and the error that ended the pass early. */
  datatype Expansion = Expansion(slots: seq<Slot>, error: Option<SpecError>)

  /** The inner loop over the `days` of a "daylist" alarm. */
  function DayListSlots(time: Time, days: seq<string>, now: Instant): Expansion
    requires InRange(time)
    decreases |days|
  {
    if days == [] then
      Expansion([], None)
    else
      var prev := DayListSlots(time, days[..|days| - 1], now);
      var name := days[|days| - 1];
      if prev.error.Some? then
        prev
      else if name !in DaysOfWeek then
        Expansion(prev.slots, Some(UnknownDay(name)))
      else
        Expansion(prev.slots + [Slot("daylist", AlarmDate(time, DaysOfWeek[name], now))], None)
  }

  /** The body of the outer loop for one alarm. */
  function SpecSlots(spec: AlarmSpec, now: Instant): Expansion
    requires SpecInRange(spec)
  {
    if spec.time.None? then
      Expansion([], Some(MissingTime))
    else if TypeOf(spec) == "onetime" then
      Expansion([Slot("onetime", OneTimeAlarmDate(spec.time.value, now))], None)
    else if TypeOf(spec) == "daylist" then
      if spec.days.None? then Expansion([], Some(MissingDays))
      else DayListSlots(spec.time.value, spec.days.value, now)
    else
      Expansion([], None)
  }

  /** The outer loop of `setAlarms` over the alarm list, stopping at the first error. */
  function Expand(specs: seq<AlarmSpec>, now: Instant): Expansion
    requires TimesInRange(specs)
    decreases |specs|
  {
    if specs == [] then
      Expansion([], None)
    else
      var prev := Expand(specs[..|specs| - 1], now);
      if prev.error.Some? then
        prev
      else
        var e := SpecSlots(specs[|specs| - 1], now);
        Expansion(prev.slots + e.slots, e.error)
  }

  // ---------------------------------------------------------------------
  // Reference definitions, stated per alarm rather than per loop step

  /** Ids an alarm takes: one if "onetime", one per listed day if "daylist", none for any other type. */
  function IdsTaken(spec: AlarmSpec): nat {
    if TypeOf(spec) == "onetime" then 1
    else if TypeOf(spec) == "daylist" && spec.days.Some? then |spec.days.value|
    else 0
  }

  function TotalIds(specs: seq<AlarmSpec>): nat {
    if specs == [] then 0 else IdsTaken(specs[0]) + TotalIds(specs[1..])
  }

  predicate HasUnknownDay(days: seq<string>) {
    exists j :: 0 <= j < |days| && days[j] !in DaysOfWeek
  }

  /** An alarm that stops the pass: no `time` (whatever its type), or a "daylist" without `days` or with an unknown day. */
  predicate Malformed(spec: AlarmSpec) {
    || spec.time.None?
    || (TypeOf(spec) == "daylist" && (spec.days.None? || HasUnknownDay(spec.days.value)))
  }

  /** A slot as the resolvers allow it: a known type, and a date within a week from now. */
  predicate SlotInWindow(s: Slot, now: Instant) {
    && (s.kind == "onetime" || s.kind == "daylist")
    && (s.date.Some? ==> now <= s.date.value < now + 7 * MsPerDay)
  }

  // ---------------------------------------------------------------------
  // Properties of the pass

  /**
   * The day list yields one slot per day, in the listed order, for the days
   * before the first unknown name; an unknown name is the error.
   */
  lemma {:induction false} DayListSlotsSpec(time: Time, days: seq<string>, now: Instant)
    requires InRange(time)
    ensures var e := DayListSlots(time, days, now);
      && |e.slots| <= |days|
      && (forall j :: 0 <= j < |e.slots| ==>
            days[j] in DaysOfWeek && 0 <= DaysOfWeek[days[j]] < 7 &&
            e.slots[j] == Slot("daylist", AlarmDate(time, DaysOfWeek[days[j]], now)))
      && (e.error.None? <==> !HasUnknownDay(days))
      && (e.error.None? ==> |e.slots| == |days|)
      && (e.error.Some? ==> |e.slots| < |days| && e.error.value == UnknownDay(days[|e.slots|])
                            && days[|e.slots|] !in DaysOfWeek)
  {
    if days != [] {
      var init := days[..|days| - 1];
      DayListSlotsSpec(time, init, now);
      var prev := DayListSlots(time, init, now);
      assert forall j :: 0 <= j < |init| ==> init[j] == days[j];
      if prev.error.None? && days[|days| - 1] !in DaysOfWeek {
        assert days[|prev.slots|] !in DaysOfWeek;
      }
      if prev.error.Some? {
        assert HasUnknownDay(days) by {
          assert days[|prev.slots|] !in DaysOfWeek;
        }
      }
    }
  }

  /** One step of the outer loop over the list. */
  lemma ExpandStep(specs: seq<AlarmSpec>, i: nat, now: Instant)
    requires TimesInRange(specs) && i < |specs| && Expand(specs[..i], now).error.None?
    ensures Expand(specs[..i + 1], now)
         == Expansion(Expand(specs[..i], now).slots + SpecSlots(specs[i], now).slots, SpecSlots(specs[i], now).error)
  {
    assert specs[..i + 1][..i] == specs[..i];
  }

  /** One step of the inner loop over the days. */
  lemma DayListStep(time: Time, days: seq<string>, j: nat, now: Instant)
    requires InRange(time) && j < |days| && DayListSlots(time, days[..j], now).error.None?
    ensures DayListSlots(time, days[..j + 1], now)
         == if days[j] !in DaysOfWeek then Expansion(DayListSlots(time, days[..j], now).slots, Some(UnknownDay(days[j])))
            else Expansion(DayListSlots(time, days[..j], now).slots + [Slot("daylist", AlarmDate(time, DaysOfWeek[days[j]], now))], None)
  {
    assert days[..j + 1][..j] == days[..j];
  }

  /** Once the day loop has stopped at an unknown name, later days change nothing. */
  lemma {:induction false} DayListAfterError(time: Time, days: seq<string>, j: nat, now: Instant)
    requires InRange(time) && j <= |days|
    requires DayListSlots(time, days[..j], now).error.Some?
    ensures DayListSlots(time, days, now) == DayListSlots(time, days[..j], now)
    decreases |days|
  {
    if j < |days| {
      var init := days[..|days| - 1];
      assert init[..j] == days[..j];
      DayListAfterError(time, init, j, now);
    } else {
      assert days[..j] == days;
    }
  }

  /** Once the pass has stopped, later alarms change nothing. */
  lemma {:induction false} ExpandAfterError(specs: seq<AlarmSpec>, i: nat, now: Instant)
    requires TimesInRange(specs) && i <= |specs|
    requires Expand(specs[..i], now).error.Some?
    ensures Expand(specs, now) == Expand(specs[..i], now)
    decreases |specs|
  {
    if i < |specs| {
      var init := specs[..|specs| - 1];
      assert init[..i] == specs[..i];
      ExpandAfterError(init, i, now);
    } else {
      assert specs[..i] == specs;
    }
  }

  /** The slots of a prefix of the list start the slots of the whole list: ids follow stored order. */
  lemma {:induction false} ExpandPrefix(specs: seq<AlarmSpec>, i: nat, now: Instant)
    requires TimesInRange(specs) && i <= |specs|
    ensures Expand(specs[..i], now).slots <= Expand(specs, now).slots
    decreases |specs|
  {
    if i < |specs| {
      var init := specs[..|specs| - 1];
      assert init[..i] == specs[..i];
      ExpandPrefix(init, i, now);
    } else {
      assert specs[..i] == specs;
    }
  }

  lemma {:induction false} TotalIdsAppend(specs: seq<AlarmSpec>, spec: AlarmSpec)
    ensures TotalIds(specs + [spec]) == TotalIds(specs) + IdsTaken(spec)
    decreases |specs|
  {
    if specs != [] {
      assert (specs + [spec])[1..] == specs[1..] + [spec];
      TotalIdsAppend(specs[1..], spec);
    }
  }

  /**
   * The pass stops exactly when some alarm is malformed, and otherwise
   * consumes one id per "onetime" alarm and one per listed day of a
   * "daylist" alarm, whether or not its date resolves; a pass that stops
   * early has taken no more than that.
   */
  lemma {:induction false} ExpandCount(specs: seq<AlarmSpec>, now: Instant)
    requires TimesInRange(specs)
    ensures Expand(specs, now).error.Some? <==> exists i :: 0 <= i < |specs| && Malformed(specs[i])
    ensures Expand(specs, now).error.None? ==> |Expand(specs, now).slots| == TotalIds(specs)
    ensures |Expand(specs, now).slots| <= TotalIds(specs)
    decreases |specs|
  {
    if specs != [] {
      var init, last := specs[..|specs| - 1], specs[|specs| - 1];
      assert specs == init + [last];
      ExpandCount(init, now);
      TotalIdsAppend(init, last);
      if last.time.Some? && TypeOf(last) == "daylist" && last.days.Some? {
        DayListSlotsSpec(last.time.value, last.days.value, now);
      }
      if Expand(init, now).error.Some? {
        var i :| 0 <= i < |init| && Malformed(init[i]);
        assert Malformed(specs[i]);
      }
    }
  }

  /** Every slot of a pass has a known type and, when resolved, a date in [now, now + 7 days). */
  lemma {:induction false} ExpandInWindow(specs: seq<AlarmSpec>, now: Instant)
    requires TimesInRange(specs)
    ensures forall k :: 0 <= k < |Expand(specs, now).slots| ==> SlotInWindow(Expand(specs, now).slots[k], now)
    decreases |specs|
  {
    if specs != [] {
      var init, last := specs[..|specs| - 1], specs[|specs| - 1];
      ExpandInWindow(init, now);
      if last.time.Some? && TypeOf(last) == "daylist" && last.days.Some? {
        DayListSlotsSpec(last.time.value, last.days.value, now);
      }
    }
  }

  // ---------------------------------------------------------------------
  // The alarm manager: a map from id to trigger instant

  /**
   * The alarm manager after one `setNotification` per slot, in order: slot
   * k goes under id 10020 + k, replacing what that id held; an unresolved
   * slot consumes its id without registering anything.
   */
  function Registered(scheduled: map<int, Instant>, slots: seq<Slot>): map<int, Instant>
    decreases |slots|
  {
    if slots == [] then scheduled
    else
      var prev := Registered(scheduled, slots[..|slots| - 1]);
      var last := slots[|slots| - 1];
      if last.date.Some? then prev[IdSequentialOffset + |slots| - 1 := last.date.value] else prev
  }

  /** Each resolved slot k is registered under id 10020 + k at its date; every other id keeps its instant. */
  lemma {:induction false} RegisteredAt(scheduled: map<int, Instant>, slots: seq<Slot>, id: int)
    ensures var k := id - IdSequentialOffset;
      if 0 <= k < |slots| && slots[k].date.Some? then
        id in Registered(scheduled, slots) && Registered(scheduled, slots)[id] == slots[k].date.value
      else
        (id in Registered(scheduled, slots) <==> id in scheduled)
        && (id in scheduled ==> Registered(scheduled, slots)[id] == scheduled[id])
    decreases |slots|
  {
    if slots != [] {
      RegisteredAt(scheduled, slots[..|slots| - 1], id);
    }
  }

  /** Registering one more slot sets exactly the next sequential id, or nothing when its date is absent. */
  lemma RegisteredAppend(scheduled: map<int, Instant>, slots: seq<Slot>, s: Slot)
    ensures Registered(scheduled, slots + [s])
         == if s.date.Some? then Registered(scheduled, slots)[IdSequentialOffset + |slots| := s.date.value]
            else Registered(scheduled, slots)
  {
    assert (slots + [s])[..|slots|] == slots;
  }

  /**
   * The next cancellation pass, reading the count this pass persists,
   * removes everything the pass registered: cancelling after registering is
   * the same as cancelling alone.
   */
  lemma CancelUndoesRegister(scheduled: map<int, Instant>, slots: seq<Slot>)
    ensures Cancelled(Registered(scheduled, slots), |slots|) == Cancelled(scheduled, |slots|)
  {
    var r := Registered(scheduled, slots);
    forall id
      ensures id in Cancelled(r, |slots|) <==> id in Cancelled(scheduled, |slots|)
      ensures id in Cancelled(r, |slots|) ==> Cancelled(r, |slots|)[id] == Cancelled(scheduled, |slots|)[id]
    {
      RegisteredAt(scheduled, slots, id);
    }
    assert Cancelled(r, |slots|).Keys == Cancelled(scheduled, |slots|).Keys;
  }
}
