/**
 * The plugin as the object Cordova drives: the static result channel
 * (`connectionCallbackContext`, `pendingWakeupResult`) and the platform
 * state its static helpers update in place (the alarm manager, the shared
 * preferences, the boot receiver switch), with one method per operation.
 * Each method is proved against the value-level definitions of the
 * modules it imports, where the properties of the operations are proved.
 */
module Plugin {
  import opened Wrappers
  import opened AlarmDates
  import opened AlarmIds
  import opened AlarmSpecs
  import opened Preferences
  import opened ResultChannel
  import opened Scheduling

  /** The process-wide state of the plugin: its static fields and the platform state its static helpers update. */
  class WakeupPlugin {
    /** `connectionCallbackContext`: the kept callback of the last "bind", if any. */
    var consumer: Option<CallbackId>
    /** `pendingWakeupResult`: the one wakeup extra buffered while nobody is bound. */
    var pending: Option<string>
    /** Every result sent on a kept callback, in order. */
    var sent: seq<Delivery>
    /** The alarm manager: the id of each pending broadcast to its trigger instant. */
    var scheduled: map<int, Instant>
    /** The default shared preferences. */
    var prefs: Prefs
    /** The `WakeupBootReceiver` component setting. */
    var bootReceiverEnabled: bool

    /** The plugin's alarm keys hold what it writes there, and a result is buffered only while nobody is bound. */
    ghost predicate Valid()
      reads this
    {
      ValidPrefs(prefs) && Consistent(ChannelState())
    }

    ghost function ChannelState(): Channel
      reads this
    {
      Channel(consumer, pending, sent)
    }

    ghost function PlatformState(): Platform
      reads this
    {
      Platform(scheduled, prefs, bootReceiverEnabled, sent)
    }

    /**
     * The process as the plugin first sees it: the class is loaded, so both
     * static channel fields hold their initial null, and the alarm manager,
     * the preferences and the boot receiver hold whatever earlier runs left.
     * The object then stands for the whole process: the static fields are
     * its fields, shared by every later operation.
     */
    constructor(prefs0: Prefs, scheduled0: map<int, Instant>, bootReceiverEnabled0: bool)
      requires ValidPrefs(prefs0)
      ensures Valid()
      ensures ChannelState() == Channel(None, None, [])
      ensures PlatformState() == Platform(scheduled0, prefs0, bootReceiverEnabled0, [])
    {
      consumer, pending, sent := None, None, [];
      scheduled, prefs, bootReceiverEnabled := scheduled0, prefs0, bootReceiverEnabled0;
    }

    // -------------------------------------------------------------------
    // The result channel

    /** `cleaPendingWakeupResult` */
    method ClearPendingWakeupResult()
      modifies this`pending
      ensures ChannelState() == AfterClearPending(old(ChannelState()))
    {
      pending := None;
    }

    /** `sendWakeupResult` */
    method SendWakeupResult(extras: Option<string>)
      modifies this`pending, this`sent
      ensures ChannelState() == AfterSendWakeupResult(old(ChannelState()), extras)
    {
      if consumer.Some? {
        ClearPendingWakeupResult();
        sent := sent + [Delivery(consumer.value, Wakeup(extras))];
      } else {
        pending := extras;
      }
    }

    /** `sendStopResult` */
    method SendStopResult(extras: Option<string>)
      modifies this`pending, this`sent
      ensures ChannelState() == AfterSendStopResult(old(ChannelState()), extras)
    {
      ClearPendingWakeupResult();
      if consumer.Some? {
        sent := sent + [Delivery(consumer.value, Stopped(extras))];
      }
    }

    /** `onDestroy` */
    method OnDestroy()
      requires Valid()
      modifies this`consumer
      ensures Valid()
      ensures ChannelState() == AfterDestroy(old(ChannelState()))
    {
      consumer := None;
    }

    /** The "bind" action. */
    method ExecuteBind(cb: CallbackId)
      requires Valid()
      modifies this`consumer, this`pending, this`sent
      ensures Valid()
      ensures ChannelState() == AfterBind(old(ChannelState()), cb)
    {
      consumer := Some(cb);
      if pending.Some? {
        SendWakeupResult(pending);
        ClearPendingWakeupResult();
      }
      sent := sent + [Delivery(cb, BindOk)];
    }

    /** The "stop" action; stopping the playback service is not part of this model. */
    method ExecuteStop()
      requires Valid()
      modifies this`pending
      ensures Valid()
      ensures ChannelState() == AfterClearPending(old(ChannelState()))
    {
      ClearPendingWakeupResult();
    }

    // -------------------------------------------------------------------
    // The alarm manager and the preferences

    /** `setNotification`: register the broadcast under `id`, replacing one with that id, and report it to a bound consumer. */
    method SetNotification(kind: string, date: Option<Instant>, id: int)
      modifies this`scheduled, this`sent
      ensures date.None? ==> scheduled == old(scheduled)
      ensures date.Some? ==> scheduled == old(scheduled)[id := date.value]
      ensures sent == old(sent) + if consumer.Some? && date.Some? then [Delivery(consumer.value, Set(kind, date.value))] else []
    {
      if date.None? {
        return;
      }
      scheduled := scheduled[id := date.value];
      if consumer.Some? {
        sent := sent + [Delivery(consumer.value, Set(kind, date.value))];
      }
    }

    /** `cancelAlarms`: build the id array of the three bands, then cancel each id. */
    method CancelAlarms()
      requires ValidPrefs(prefs)
      modifies this`scheduled
      ensures scheduled == Cancelled(old(scheduled), AlarmsCount(prefs))
    {
      var alarmsCount := AlarmsCount(prefs);
      var ids := CurrentAlarmIds(alarmsCount);
      ghost var before := scheduled;
      for i := 0 to ids.Length
        invariant ids[..] == CancellationIds(alarmsCount)
        invariant forall id :: id in scheduled <==> id in before && id !in ids[..i]
        invariant forall id :: id in scheduled ==> scheduled[id] == before[id]
      {
        assert ids[..i + 1] == ids[..i] + [ids[i]];
        scheduled := scheduled - {ids[i]};
      }
      assert ids[..ids.Length] == ids[..];
      forall id
        ensures id in scheduled <==> id in Cancelled(before, alarmsCount)
      {
        CancelledKeys(before, alarmsCount, id);
      }
      assert scheduled.Keys == Cancelled(before, alarmsCount).Keys;
      assert forall id :: id in scheduled ==> scheduled[id] == Cancelled(before, alarmsCount)[id];
    }

    /** The id array `cancelAlarms` builds: the one-time id, the seven day ids, then `alarmsCount` sequential ids. */
    static method CurrentAlarmIds(alarmsCount: nat) returns (ids: array<int>)
      ensures fresh(ids)
      ensures ids[..] == CancellationIds(alarmsCount)
    {
      ids := new int[1 + 7 + alarmsCount];
      ids[0] := IdOneTimeOffset;
      for i := 1 to 8
        modifies ids
        invariant ids[0] == IdOneTimeOffset
        invariant forall k :: 1 <= k < i ==> ids[k] == IdDayListOffset + k - 1
      {
        ids[i] := IdDayListOffset + i - 1;
      }
      for i := 0 to alarmsCount
        modifies ids
        invariant ids[0] == IdOneTimeOffset
        invariant forall k :: 1 <= k < 8 ==> ids[k] == IdDayListOffset + k - 1
        invariant forall k :: 8 <= k < 8 + i ==> ids[k] == IdSequentialOffset + k - 8
      {
        ids[8 + i] := IdSequentialOffset + i;
      }
      assert ids[..] == CancellationIds(alarmsCount);
    }

    /** `saveAlarmsToPrefs` */
    method SaveAlarmsToPrefs(alarms: seq<AlarmSpec>)
      modifies this`prefs
      ensures prefs == old(prefs)[AlarmsKey := PAlarms(alarms)]
    {
      prefs := prefs[AlarmsKey := PAlarms(alarms)];
    }

    /** `saveOptionsToPrefs`: behind the guard, each of the six keys is put or removed in turn. */
    method SaveOptionsToPrefs(options: Options)
      modifies this`prefs
      ensures prefs == SavedOptions(old(prefs), options)
    {
      if options.streamingUrl.None? && options.ringtone.None? {
        return;
      }
      ghost var p0 := prefs;
      EditPref(StreamingUrlKey, StringValue(options.streamingUrl));
      EditPref(StreamingOnlyWifiKey, BoolValue(options.streamingOnlyWifi));
      EditPref(RingtoneKey, StringValue(options.ringtone));
      EditPref(VolumeKey, IntValue(options.volume));
      EditPref(StreamTypeKey, IntValue(options.streamType));
      EditPref(NotificationTextKey, StringValue(options.notificationText));
      SavedOptionsInSteps(p0, options);
    }

    /** One editor step of `saveOptionsToPrefs`: put the option's value when it is given, remove the key otherwise. */
    method EditPref(key: string, value: Option<PrefValue>)
      modifies this`prefs
      ensures prefs == Put(old(prefs), key, value)
      ensures key in prefs <==> value.Some?
      ensures key in prefs ==> prefs[key] == value.value
      ensures forall k :: k != key ==> (k in prefs <==> k in old(prefs))
      ensures forall k :: k != key && k in prefs ==> prefs[k] == old(prefs)[k]
    {
      if value.Some? {
        prefs := prefs[key := value.value];
      } else {
        prefs := prefs - {key};
      }
    }

    /**
     * `setAlarms`: cancel first if asked, stop at the permission gate, then
     * walk the list, taking the next sequential id for each "onetime" alarm
     * and for each day of a "daylist" alarm, and finally persist the count
     * and switch the boot receiver. A malformed alarm ends the walk with the
     * error it throws.
     */
    method SetAlarms(alarms: seq<AlarmSpec>, cancelFirst: bool, canScheduleExact: bool, now: Instant)
      returns (err: Option<SpecError>)
      requires ValidPrefs(prefs) && TimesInRange(alarms)
      modifies this`scheduled, this`sent, this`prefs, this`bootReceiverEnabled
      ensures ValidPrefs(prefs)
      ensures (err, PlatformState()) == SetAlarmsSpec(old(PlatformState()), consumer, alarms, cancelFirst, canScheduleExact, now)
    {
      if cancelFirst {
        CancelAlarms();
      }
      if |alarms| > 0 && !canScheduleExact {
        return None;
      }
      var offsetAlarm;
      offsetAlarm, err := ScheduleAlarms(alarms, now);
      if err.Some? {
        return err;
      }
      prefs := prefs[AlarmsCountKey := PInt(offsetAlarm - (IdSequentialOffset - 1))];
      bootReceiverEnabled := |alarms| > 0;
    }

    /**
     * The outer loop of `setAlarms`: alarm by alarm, sequential ids from
     * `IdSequentialOffset` on; the first malformed alarm ends the pass and
     * leaves registered what was registered before it. Returns the last id
     * taken.
     */
    method ScheduleAlarms(alarms: seq<AlarmSpec>, now: Instant) returns (offsetAlarm: int, err: Option<SpecError>)
      requires TimesInRange(alarms)
      modifies this`scheduled, this`sent
      ensures var e := Expand(alarms, now);
        && err == e.error && offsetAlarm == IdSequentialOffset - 1 + |e.slots|
        && scheduled == Registered(old(scheduled), e.slots)
        && sent == old(sent) + SetDeliveries(consumer, e.slots)
    {
      ghost var base, sent0 := scheduled, sent;
      ghost var slots: seq<Slot> := [];
      offsetAlarm := IdSequentialOffset - 1;
      var i := 0;
      while i < |alarms|
        invariant 0 <= i <= |alarms|
        invariant Expand(alarms[..i], now) == Expansion(slots, None)
        invariant offsetAlarm == IdSequentialOffset - 1 + |slots|
        invariant scheduled == Registered(base, slots)
        invariant sent == sent0 + SetDeliveries(consumer, slots)
      {
        ExpandStep(alarms, i, now);
        var alarmErr;
        offsetAlarm, alarmErr := ScheduleAlarm(alarms[i], now, offsetAlarm, base, slots, sent0);
        if alarmErr.Some? {
          ExpandAfterError(alarms, i + 1, now);
          return offsetAlarm, alarmErr;
        }
        slots := slots + SpecSlots(alarms[i], now).slots;
        i := i + 1;
      }
      assert alarms[..|alarms|] == alarms;
      return offsetAlarm, None;
    }

    /**
     * The body of the outer loop of `setAlarms` for one alarm: its type
     * (default "onetime"), the check for `time`, then one id for a
     * "onetime" alarm or the day loop for a "daylist" alarm; any other type
     * takes no id. The ghost parameters are the walk so far.
     */
    method ScheduleAlarm(alarm: AlarmSpec, now: Instant, offsetAlarm: int,
                         ghost base: map<int, Instant>, ghost slots: seq<Slot>, ghost sent0: seq<Delivery>)
      returns (offset: int, err: Option<SpecError>)
      requires SpecInRange(alarm)
      requires offsetAlarm == IdSequentialOffset - 1 + |slots|
      requires scheduled == Registered(base, slots) && sent == sent0 + SetDeliveries(consumer, slots)
      modifies this`scheduled, this`sent
      ensures var e := SpecSlots(alarm, now);
        && err == e.error && offset == offsetAlarm + |e.slots|
        && scheduled == Registered(base, slots + e.slots)
        && sent == sent0 + SetDeliveries(consumer, slots + e.slots)
    {
      offset, err := offsetAlarm, None;
      var kind := "onetime";
      if alarm.kind.Some? {
        kind := alarm.kind.value;
      }
      if alarm.time.None? {
        assert slots + [] == slots;
        return offset, Some(MissingTime);
      }
      var time := alarm.time.value;
      if kind == "onetime" {
        var date := OneTimeAlarmDate(time, now);
        NotifyStep(base, sent0, slots, consumer, Slot(kind, date));
        offset := offset + 1;
        SetNotification(kind, date, offset);
      } else if kind == "daylist" {
        if alarm.days.None? {
          assert slots + [] == slots;
          return offset, Some(MissingDays);
        }
        offset, err := SetDayListAlarms(kind, time, alarm.days.value, now, offset, base, slots, sent0);
      } else {
        assert slots + [] == slots;
      }
    }

    /**
     * The inner loop of `setAlarms` over the days of one "daylist" alarm:
     * each known day takes the next id, counted on in `offsetAlarm`; an
     * unknown day name ends the loop with the error its null index raises.
     * The ghost parameters are the walk so far.
     */
    method SetDayListAlarms(kind: string, time: Time, days: seq<string>, now: Instant, offsetAlarm: int,
                            ghost base: map<int, Instant>, ghost slots: seq<Slot>, ghost sent0: seq<Delivery>)
      returns (offset: int, err: Option<SpecError>)
      requires kind == "daylist" && InRange(time)
      requires offsetAlarm == IdSequentialOffset - 1 + |slots|
      requires scheduled == Registered(base, slots) && sent == sent0 + SetDeliveries(consumer, slots)
      modifies this`scheduled, this`sent
      ensures var e := DayListSlots(time, days, now);
        && err == e.error && offset == offsetAlarm + |e.slots|
        && scheduled == Registered(base, slots + e.slots)
        && sent == sent0 + SetDeliveries(consumer, slots + e.slots)
    {
      offset := offsetAlarm;
      ghost var daySlots: seq<Slot> := [];
      assert slots + daySlots == slots;
      var j := 0;
      while j < |days|
        invariant 0 <= j <= |days|
        invariant DayListSlots(time, days[..j], now) == Expansion(daySlots, None)
        invariant offset == offsetAlarm + |daySlots|
        invariant scheduled == Registered(base, slots + daySlots)
        invariant sent == sent0 + SetDeliveries(consumer, slots + daySlots)
      {
        DayListStep(time, days, j, now);
        if days[j] !in DaysOfWeek {
          DayListAfterError(time, days, j + 1, now);
          return offset, Some(UnknownDay(days[j]));
        }
        var date := AlarmDate(time, DaysOfWeek[days[j]], now);
        DayNotifyStep(base, sent0, slots, daySlots, consumer, Slot(kind, date));
        offset := offset + 1;
        SetNotification(kind, date, offset);
        daySlots := daySlots + [Slot(kind, date)];
        j := j + 1;
      }
      assert days[..|days|] == days;
      return offset, None;
    }

    /** `setAlarmsFromPrefs`: re-arm the stored list, cancelling first. */
    method SetAlarmsFromPrefs(canScheduleExact: bool, now: Instant) returns (err: Option<SpecError>)
      requires ValidPrefs(prefs)
      modifies this`scheduled, this`sent, this`prefs, this`bootReceiverEnabled
      ensures ValidPrefs(prefs)
      ensures (err, PlatformState()) == SetAlarmsSpec(old(PlatformState()), consumer, StoredAlarms(old(prefs)), true, canScheduleExact, now)
    {
      var alarms := StoredAlarms(prefs);
      err := SetAlarms(alarms, true, canScheduleExact, now);
    }

    /** `initialize`: a launch with extras that is not a wakeup launch re-arms from the preferences. */
    method Initialize(hasExtras: bool, wakeupLaunch: bool, canScheduleExact: bool, now: Instant)
      requires Valid()
      modifies this`scheduled, this`sent, this`prefs, this`bootReceiverEnabled
      ensures Valid()
      ensures PlatformState() == InitializeSpec(old(PlatformState()), consumer, hasExtras, wakeupLaunch, canScheduleExact, now)
    {
      if hasExtras && !wakeupLaunch {
        var _ := SetAlarmsFromPrefs(canScheduleExact, now);
      }
    }

    /** The "configure" action. */
    method ExecuteConfigure(options: Options) returns (reply: Reply)
      requires Valid()
      modifies this`prefs
      ensures Valid() && reply == Success
      ensures prefs == SavedOptions(old(prefs), options)
    {
      SaveOptionsToPrefs(options);
      SavedOptionsValid(old(prefs), options);
      reply := Success;
    }

    /** The "wakeup" action: clear the pending result, cancel, then save and schedule the new list unless refused. */
    method ExecuteWakeup(alarms: Option<seq<AlarmSpec>>, canScheduleExact: bool, now: Instant) returns (reply: Reply)
      requires Valid() && (alarms.Some? ==> TimesInRange(alarms.value))
      modifies this`pending, this`scheduled, this`sent, this`prefs, this`bootReceiverEnabled
      ensures Valid()
      ensures consumer == old(consumer) && pending == None
      ensures (reply, PlatformState()) == WakeupSpec(old(PlatformState()), consumer, alarms, canScheduleExact, now)
    {
      ClearPendingWakeupResult();
      var list := if alarms.Some? then alarms.value else [];
      CancelAlarms();
      if |list| == 0 || canScheduleExact {
        SaveAlarmsToPrefs(list);
        var err := SetAlarms(list, false, canScheduleExact, now);
        reply := if err.None? then Success else Error(CauseOf(err.value));
      } else {
        reply := Error(PermissionRequired);
      }
    }
  }
}
