# Wakeup timer plugin: the alarm scheduling engine

A Dafny model of the Android side of a Cordova wakeup-timer plugin
(`src/android/WakeupPlugin.java`), with proofs about it. The plugin lets a web
app schedule "onetime" alarms and weekly "daylist" alarms. It resolves each
alarm to a trigger instant and registers it with the alarm manager under an
integer id. It reports each registration and each wakeup to a consumer that may
bind and unbind over time.

The model has five parts.

- **Trigger-time resolution** (`alarm_dates.dfy`): `getOneTimeAlarmDate` and
  `getAlarmDate` over local time.
  - Local time is one integer count of milliseconds since local midnight of
    day 0 (1970-01-01, a Thursday).
  - The day number and millisecond-of-day come from Euclidean division.
  - The weekday is 0 for Sunday through 6 for Saturday, as in
    `Calendar.DAY_OF_WEEK - 1`.
- **Alarm ids** (`alarm_ids.dfy`): the id list that `cancelAlarms` builds.
  - The legacy one-time id is 10000.
  - The legacy per-weekday ids are 10010..10016.
  - The sequential ids are 10020..10020+`alarms_count`-1.
  - A cancellation pass is modelled on the alarm manager (a map from id to
    instant).
- **The scheduling pass** (`alarm_specs.dfy`, `scheduling.dfy`): what
  `setAlarms`, the "wakeup" action and the start-up re-arm do to the platform
  state (the alarm manager, the shared preferences, the boot receiver switch,
  and the results sent).
  - `Expand` is the walk over the alarm list. It yields one slot per sequential
    id taken, in order, and the error that stops the walk early.
  - `Registered` is one `setNotification` per slot.
- **The result channel** (`result_channel.dfy`): the static
  `connectionCallbackContext` and `pendingWakeupResult`, changed by "bind",
  `sendWakeupResult`, `sendStopResult`, `cleaPendingWakeupResult` and
  `onDestroy`.
- **Options persistence** (`preferences.dfy`): `saveOptionsToPrefs` over a
  preference map.

`plugin.dfy` holds the class `WakeupPlugin`. Its fields are the channel and the
platform state. It has one method per operation, and the methods update those
fields in place:

- `cancelAlarms` fills an `int` array in two loops, then cancels id by id;
- `setAlarms` counts `offsetAlarm` up through the alarm loop and the day loop;
- `saveOptionsToPrefs` edits key by key.

Each method is proved against the value-level function of its module
(`Cancelled`, `SetAlarmsSpec`, `WakeupSpec`, `SavedOptions`, the `After*`
channel functions). The properties are proved as lemmas about those functions.

Behaviour of the code worth noting, which the model follows:

- The start-up re-arm (`setAlarmsFromPrefs`) cancels the stored ids first
  (`setAlarms(..., true)`), although a wiped alarm manager holds nothing to
  cancel.
- A malformed alarm stops the pass only when it is reached. The alarms before
  it stay registered, while the list is already saved and `alarms_count` is
  not rewritten (see Findings).
- An alarm without `time` is an error whatever its type, including an
  unrecognised type.
- An unknown day name is not a validation error. It unboxes a null index, and
  the "wakeup" action reports this generic exception as an error (cause
  `UncheckedException`).
- "set" and "stopped" results go only to a bound consumer and are never
  buffered. Only a wakeup result uses the one-slot buffer.
- The "stop" action clears the buffer and sends nothing.

## Model

| member | source | states |
|---|---|---|
| AlarmDates.OneTimeAlarmDate | src/android/WakeupPlugin.java:525-550 | No date exactly when the hour is absent or negative. Otherwise the date has the requested time of day (minute defaulting to 0, second and millisecond 0) and lies in [now, now + 1 day). |
| AlarmDates.OneTimeAlarmDateDay | src/android/WakeupPlugin.java:538-545 | The date is today unless the requested time of day is strictly before now's (`before`), in which case it is tomorrow. |
| AlarmDates.OneTimeAlarmDateIsNext | src/android/WakeupPlugin.java:533-547 | The date is the earliest instant not before now with the requested time of day. |
| AlarmDates.DaysUntil | src/android/WakeupPlugin.java:568-588 | The days added are in 0..7 and land on the target weekday. The count is 0 exactly on the same weekday when today's candidate has not passed, and 7 exactly on the same weekday when it has. |
| AlarmDates.AlarmDate | src/android/WakeupPlugin.java:552-594 | No date exactly when the hour is absent or negative. Otherwise the date falls on the requested weekday at the requested time of day and lies in [now, now + 7 days). |
| AlarmDates.AlarmDateSameWeekday | src/android/WakeupPlugin.java:579-585 | On the requested weekday the date is today's candidate, or that candidate plus 7 days exactly when now is strictly after it (`after`). |
| AlarmDates.AlarmDateIsNext | src/android/WakeupPlugin.java:552-594 | The date is the earliest instant not before now on the requested weekday at the requested time of day. |
| AlarmIds.CancellationIds | src/android/WakeupPlugin.java:490-505 | The array holds exactly 8 + `alarms_count` ids. |
| AlarmIds.CancellationIdsBands | src/android/WakeupPlugin.java:494-505 | An id is in the array exactly when it is 10000, in 10010..10016, or in 10020..10020+`alarms_count`-1. |
| AlarmIds.CancellationIdsIncreasing | src/android/WakeupPlugin.java:494-505 | The ids are strictly increasing, hence pairwise distinct. |
| AlarmIds.LegacyIdsAlwaysCancelled | src/android/WakeupPlugin.java:494-500 | The legacy ids are in the array whatever the count. |
| AlarmIds.Cancelled | src/android/WakeupPlugin.java:513-522 | A cancellation pass only removes entries and leaves every remaining instant as it was. |
| AlarmIds.CancelledKeys | src/android/WakeupPlugin.java:486-523 | An id survives a cancellation pass exactly when it was scheduled and is not in the array. |
| AlarmSpecs.DaysOfWeekTable | src/android/WakeupPlugin.java:52-63 | The `daysOfWeek` table names exactly seven days and maps "sunday".."saturday" to 0..6. |
| AlarmSpecs.DayListSlots | src/android/WakeupPlugin.java:407-423 | The day loop as a function: each known name appends one slot resolved by `getAlarmDate`, and the first unknown name ends it with an error. Its properties are in DayListSlotsSpec. |
| AlarmSpecs.SpecSlots | src/android/WakeupPlugin.java:383-424 | One alarm: the "onetime" default type, the missing-`time` error for any type, one slot for "onetime", the day loop for "daylist" (missing `days` is an error), and nothing for any other type. Its properties are in ExpandCount. |
| AlarmSpecs.Expand | src/android/WakeupPlugin.java:382-425 | The alarm loop as a function: the slots of each alarm in stored order, stopping at the first error. Its properties are in ExpandCount, ExpandPrefix, ExpandAfterError and ExpandInWindow. |
| AlarmSpecs.Registered | src/android/WakeupPlugin.java:405-406 | One `setNotification` per slot, slot k under id 10020 + k (registration at :446-470). Its properties are in RegisteredAt and CancelUndoesRegister. |
| AlarmSpecs.DayListSlotsSpec | src/android/WakeupPlugin.java:407-423 | A daylist takes one id per listed day, in order, each resolved on that day's weekday from the `daysOfWeek` table (:52-63). The walk stops with an error exactly when some day name is unknown, at the first such name. |
| AlarmSpecs.ExpandAfterError | src/android/WakeupPlugin.java:382-425 | Once an alarm has thrown, the alarms after it change nothing. |
| AlarmSpecs.ExpandPrefix | src/android/WakeupPlugin.java:382-425 | The ids of a prefix of the list come first among the ids of the whole list: ids follow stored order. |
| AlarmSpecs.ExpandCount | src/android/WakeupPlugin.java:380-430 | The pass fails exactly when some alarm is malformed. Otherwise it takes one id per "onetime" alarm, one per listed day of a "daylist" alarm, and none for any other type, counting alarms whose date is null. A failed pass takes no more than that. |
| AlarmSpecs.ExpandInWindow | src/android/WakeupPlugin.java:382-425 | Every id taken has a known type and, when its date resolves, a date in [now, now + 7 days). |
| AlarmSpecs.RegisteredAt | src/android/WakeupPlugin.java:446-470 | The k-th slot is registered under id 10020 + k at its date when that date resolves. Every other id keeps what it held. |
| AlarmSpecs.RegisteredAppend | src/android/WakeupPlugin.java:405-406 | One more slot sets exactly the next sequential id, or nothing when its date is null (the id is consumed before the null check at :447-449). |
| AlarmSpecs.CancelUndoesRegister | src/android/WakeupPlugin.java:486-523 | Cancelling with the count of a pass after that pass registered its slots equals cancelling alone. |
| Preferences.AlarmsCount | src/android/WakeupPlugin.java:490 | `alarms_count` with default 0. Its properties are in SetAlarmsOutcome and WakeupOutcome. |
| Preferences.SavedOptions | src/android/WakeupPlugin.java:619-664 | The six option keys replaced as a block behind the guard. Its properties are in SavedOptionsGuard, SavedOptionsPerKey, SavedOptionsKeepsOthers and SavedOptionsIdempotent. |
| Preferences.EditorSteps | src/android/WakeupPlugin.java:624-663 | The six put-or-remove editor steps in source order. It is tied to SavedOptions by SavedOptionsInSteps. |
| Preferences.StoredAlarms | src/android/WakeupPlugin.java:351-362 | The stored list is empty when none is stored, and its times are in range. |
| Preferences.SavedOptionsGuard | src/android/WakeupPlugin.java:619-622 | Without `streamingUrl` or `ringtone` the preferences are unchanged. |
| Preferences.SavedOptionsPerKey | src/android/WakeupPlugin.java:627-661 | Past the guard, each of the six option keys is present exactly when its option is given, and then holds that value with its type. |
| Preferences.SavedOptionsKeepsOthers | src/android/WakeupPlugin.java:619-664 | Every key other than the six option keys is untouched. |
| Preferences.SavedOptionsInSteps | src/android/WakeupPlugin.java:624-663 | The six editor steps, put-or-remove in source order, amount to replacing the six option keys as a block. |
| Preferences.SavedOptionsIdempotent | src/android/WakeupPlugin.java:619-664 | Saving the same options twice equals saving them once. |
| Preferences.SavedOptionsValid | src/android/WakeupPlugin.java:619-664 | Saving options keeps `alarms` and `alarms_count` as they were. |
| ResultChannel.AfterClearPending | src/android/WakeupPlugin.java:332-334 | `cleaPendingWakeupResult` on the channel. Its properties are in OperationsKeepConsistent. |
| ResultChannel.AfterSendWakeupResult | src/android/WakeupPlugin.java:286-308 | `sendWakeupResult` on the channel. Its properties are in BoundDeliversAtOnce, UnboundKeepsLatest and OperationsKeepConsistent. |
| ResultChannel.AfterSendStopResult | src/android/WakeupPlugin.java:310-330 | `sendStopResult` on the channel. Its properties are in StopNeverBuffers. |
| ResultChannel.AfterBind | src/android/WakeupPlugin.java:89-99 | The "bind" action on the channel. Its properties are in BindReplaysOnce and LatestIsReplayed. |
| ResultChannel.AfterDestroy | src/android/WakeupPlugin.java:79-82 | `onDestroy` on the channel. Its properties are in OperationsKeepConsistent. |
| ResultChannel.BoundDeliversAtOnce | src/android/WakeupPlugin.java:286-304 | With a consumer bound, a wakeup result is delivered to it at once and nothing stays pending. |
| ResultChannel.UnboundKeepsLatest | src/android/WakeupPlugin.java:305-307 | With nobody bound, a second wakeup result overwrites the first in the single slot and nothing is sent. |
| ResultChannel.BindReplaysOnce | src/android/WakeupPlugin.java:89-99 | "bind" replays a pending result exactly once before its OK and clears it. A second bind replays nothing. |
| ResultChannel.LatestIsReplayed | src/android/WakeupPlugin.java:286-308 | Two results while unbound, then a bind: only the second reaches the consumer. |
| ResultChannel.StopNeverBuffers | src/android/WakeupPlugin.java:310-330 | A stop result always clears the slot, never buffers, and sends nothing while unbound. |
| ResultChannel.OperationsKeepConsistent | src/android/WakeupPlugin.java:286-334 | Every channel operation keeps a result buffered only while nobody is bound, and only appends to what was sent. |
| Scheduling.SetDeliveries | src/android/WakeupPlugin.java:472-483 | One "set" result per resolved slot, in order, to the bound consumer only. Its properties are in SetDeliveriesTo. |
| Scheduling.SetAlarmsSpec | src/android/WakeupPlugin.java:364-444 | `setAlarms` on the platform state: optional cancel, the permission gate, the walk, then the count and boot receiver on success. Its properties are in SetAlarmsPermissionGate, SetAlarmsOutcome, SetAlarmsRegisters and SetAlarmsCancellable. |
| Scheduling.WakeupSpec | src/android/WakeupPlugin.java:131-152 | The "wakeup" action on the platform state. Its properties are in WakeupOutcome, WakeupKeepsTracked, WakeupIdempotent and WakeupEmptyClears. |
| Scheduling.InitializeSpec | src/android/WakeupPlugin.java:65-76 | `initialize`: the re-arm behind the extras and wakeup guard. Its properties are in InitializeGuard and RestartRearms. |
| Scheduling.SetDeliveriesTo | src/android/WakeupPlugin.java:472-483 | "set" results go only to the bound consumer, and each reports the type and date of a registered slot. |
| Scheduling.SetAlarmsPermissionGate | src/android/WakeupPlugin.java:371-378 | A non-empty list without exact-alarm permission registers nothing. It leaves `alarms_count`, the boot receiver and the results untouched. |
| Scheduling.SetAlarmsOutcome | src/android/WakeupPlugin.java:364-444 | Past the gate, the pass fails exactly when an alarm is malformed. On success `alarms_count` is the number of ids taken and the boot receiver is on exactly when the list is non-empty. On failure neither is rewritten. |
| Scheduling.SetAlarmsRegisters | src/android/WakeupPlugin.java:380-425 | Past the gate, the k-th id taken is 10020 + k, scheduled at that slot's date when it resolves. |
| Scheduling.SetAlarmsScheduled | src/android/WakeupPlugin.java:364-425 | Past the gate, the alarm manager is the (optionally cancelled) one with every slot registered in order. |
| Scheduling.SetAlarmsCancellable | src/android/WakeupPlugin.java:427-431 | After a successful pass, the next cancellation pass (reading the count just written) removes every alarm this pass registered. |
| Scheduling.WakeupOutcome | src/android/WakeupPlugin.java:131-152 | "wakeup" cancels with the old count first. Without permission for a non-empty list it answers a permission error, with only the cancellation done and the stored list unchanged. Otherwise it stores the list and succeeds exactly when no alarm is malformed, with the count and boot receiver of `setAlarms`. |
| Scheduling.CancelledAgain | src/android/WakeupPlugin.java:486-523 | After one cancellation pass over a tracked alarm manager, a second pass removes nothing, whatever its count. |
| Scheduling.WakeupKeepsTracked | src/android/WakeupPlugin.java:131-152 | A "wakeup" that succeeds or is refused for permission leaves every sequential id within reach of the next cancellation pass. |
| Scheduling.WakeupSucceeds | src/android/WakeupPlugin.java:131-152 | A successful "wakeup" leaves the slots of the list registered over the cancelled alarm manager, the list stored, and `alarms_count` equal to the number of slots. |
| Scheduling.WakeupIdempotent | src/android/WakeupPlugin.java:131-152 | A second "wakeup" with the same list succeeds and leaves the alarm manager, the preferences and the boot receiver as the first left them. Cancelling with the count the first call persisted removes exactly what it registered, leaving what cancelling with the old count left. |
| Scheduling.WakeupEmptyClears | src/android/WakeupPlugin.java:131-152 | "wakeup" with an empty or missing list succeeds whatever the permission. It cancels every old id, stores the empty list with count 0 and turns the boot receiver off. |
| Scheduling.RestartRearms | src/android/WakeupPlugin.java:340-349 | After a successful "wakeup", a restart that wipes the alarm manager followed by a re-arming launch registers exactly that pass's alarms and keeps the preferences and the boot receiver. |
| Scheduling.InitializeGuard | src/android/WakeupPlugin.java:71-75 | The start-up re-arm runs only for a launch with extras that is not a wakeup launch. |
| Scheduling.WakeupOrphansAlarm | src/android/WakeupPlugin.java:382-431 | A list [onetime 7:00, daylist without days] registers id 10020 and then throws, leaving `alarms_count` 0. A later "wakeup" with an empty list leaves 10020 scheduled. |
| Scheduling.ValidatedWakeupKeepsTracked | src/android/WakeupPlugin.java:364-444 | With the list checked before any registration, every "wakeup" keeps all sequential ids within reach of the next cancellation pass, and it equals the code as written on every list without a malformed alarm. |
| Plugin.WakeupPlugin.constructor | src/android/WakeupPlugin.java:47-48 | The process state at class load: both static channel fields start null (nobody bound, nothing pending), and the alarm manager, preferences and boot receiver are as earlier runs left them. |
| Plugin.WakeupPlugin.ClearPendingWakeupResult | src/android/WakeupPlugin.java:332-334 | The pending result is dropped and nothing else changes. |
| Plugin.WakeupPlugin.SendWakeupResult | src/android/WakeupPlugin.java:286-308 | The channel becomes `AfterSendWakeupResult` of the old channel. |
| Plugin.WakeupPlugin.SendStopResult | src/android/WakeupPlugin.java:310-330 | The channel becomes `AfterSendStopResult` of the old channel. |
| Plugin.WakeupPlugin.OnDestroy | src/android/WakeupPlugin.java:78-82 | Unbinds the consumer and keeps the channel invariant. |
| Plugin.WakeupPlugin.ExecuteBind | src/android/WakeupPlugin.java:89-99 | The channel becomes `AfterBind` of the old channel, keeping the channel invariant. |
| Plugin.WakeupPlugin.ExecuteStop | src/android/WakeupPlugin.java:153-155 | Clears the pending result, sends nothing, keeps the invariant. |
| Plugin.WakeupPlugin.SetNotification | src/android/WakeupPlugin.java:446-484 | A null date changes nothing. Otherwise the id is scheduled at the date, replacing what it held, and a "set" result goes to a bound consumer. |
| Plugin.WakeupPlugin.CancelAlarms | src/android/WakeupPlugin.java:486-523 | The alarm manager becomes `Cancelled` of the old one with the stored count. |
| Plugin.WakeupPlugin.CurrentAlarmIds | src/android/WakeupPlugin.java:490-505 | The two loops fill a fresh array with exactly `CancellationIds(alarms_count)`. |
| Plugin.WakeupPlugin.SaveAlarmsToPrefs | src/android/WakeupPlugin.java:612-617 | Stores the list under `alarms` and changes no other key. |
| Plugin.WakeupPlugin.SaveOptionsToPrefs | src/android/WakeupPlugin.java:619-664 | The preferences become `SavedOptions` of the old ones. |
| Plugin.WakeupPlugin.EditPref | src/android/WakeupPlugin.java:627-631 | One editor step: the key holds the value when given, is removed otherwise, and every other key is kept. |
| Plugin.WakeupPlugin.SetAlarms | src/android/WakeupPlugin.java:364-444 | The error thrown and the new platform state are `SetAlarmsSpec` of the old state, and the alarm keys stay well-formed. |
| Plugin.WakeupPlugin.ScheduleAlarms | src/android/WakeupPlugin.java:380-425 | The outer loop ends with the error and the last id of `Expand`, having registered and reported its slots in order. |
| Plugin.WakeupPlugin.ScheduleAlarm | src/android/WakeupPlugin.java:383-424 | One alarm takes the ids of `SpecSlots`, from the next free id on, or throws its error. |
| Plugin.WakeupPlugin.SetDayListAlarms | src/android/WakeupPlugin.java:407-423 | The day loop takes the ids of `DayListSlots`, or stops at the first unknown day. |
| Plugin.WakeupPlugin.SetAlarmsFromPrefs | src/android/WakeupPlugin.java:340-349 | Runs `setAlarms` on the stored list with cancelling first. |
| Plugin.WakeupPlugin.Initialize | src/android/WakeupPlugin.java:65-76 | The platform state becomes `InitializeSpec` of the old one. |
| Plugin.WakeupPlugin.ExecuteConfigure | src/android/WakeupPlugin.java:100-103 | Answers success with the preferences `SavedOptions` of the old ones, keeping the invariant. |
| Plugin.WakeupPlugin.ExecuteWakeup | src/android/WakeupPlugin.java:131-152 | Clears the pending result. The reply and the new platform state are `WakeupSpec` of the old state, keeping the invariant. |

## Left out

- Permission and settings actions (`checkAutoStartPrefs`, `openAutoStartPrefs`, the notification-permission actions, `checkAlarmPerm`, `openAppAlarmSettings`, `onRequestPermissionResult`) are Android plumbing. The exact-alarm check is a boolean parameter that stands for both `hasExactAlarmPermission` in "wakeup" and `canScheduleExactAlarms` in `setAlarms`, including their SDK-version conditions.
- The alarm manager calls, `PendingIntent` flags and SDK branches of `setNotification` and `cancelAlarms` are left out. Registration is a map update by id and cancellation a map removal.
- The intent extras (`extra`, `type`, `time`, `day`) carried by each broadcast are not modelled.
- Shared preferences are a map and the boot receiver is a boolean. JSON parsing and serialisation are not modelled: the alarm list is a datatype, and an option present with the wrong JSON type (a `JSONException` from `getString`/`getInt`) is not modelled.
- Time zones, daylight-saving changes and calendar leniency are left out. Local time is an integer number of milliseconds.
- AlarmDates.OneTimeAlarmDate: requires an hour of 0..23 and a minute of 0..59, because a lenient calendar would roll other values into another date.
- AlarmDates.AlarmDate: requires the same range of hour and minute, for the same reason.
- Clock readings: each resolution reads the clock twice, once for `now` and once for the calendar it adjusts (WakeupPlugin.java:530-531, :556-557). `getAlarmDate` also takes today's weekday from the calendar (:568) but the date it adds days to from `now` (:588). A pass therefore reads the clock many times. The model replaces all of these readings with a single `now` for the whole pass, so it does not capture a pass that straddles midnight or a minute boundary.
- `getTimeFromNow` has no caller and is not modelled.
- `stopService` in "stop" and all logging are I/O and are not modelled.
- Concurrency on the static fields is not modelled; every operation is atomic.
- Integers are unbounded. `alarms_count` and the ids do not reach 32-bit limits for any list the plugin can store.
- Plugin.WakeupPlugin.Initialize: an unknown day name in the stored list fails on unboxing a null index, an unchecked exception that `setAlarmsFromPrefs` does not catch, so start-up crashes. The model ends the pass in the state reached at the throw.
- The invalid-action branch of `execute` and its `false` return are not modelled.
- `isConnectionCallbackSet` is a one-line query and is not modelled.

## Findings

| source | as written | input that shows it | evidently intended | confidence | as-written member | corrected member |
|---|---|---|---|---|---|---|
| src/android/WakeupPlugin.java:382-431 | `setAlarms` registers each alarm as it walks the list and writes `alarms_count` only after the loop. An alarm that throws part-way leaves the earlier sequential ids registered while the persisted count stays at its old value, so no later cancellation pass reaches them. | "wakeup" with [onetime at 7:00, daylist at 8:00 without `days`] on an empty state. Id 10020 is registered, the call fails, `alarms_count` is 0, and a following "wakeup" with [] leaves 10020 scheduled. | A malformed list is rejected before anything is registered, so every scheduled sequential id stays below 10020 + `alarms_count` | medium; not executed | Scheduling.WakeupOrphansAlarm | Scheduling.ValidatedWakeupKeepsTracked |

The class `WakeupPlugin` models the code as written. `ValidatedSetAlarmsSpec` and `ValidatedWakeupSpec` are the corrected pass, and the property is proved about them.
