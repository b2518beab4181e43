/**
 * What one call of `setAlarms`, of the "wakeup" action and of the start-up
 * re-arm does to the platform state the plugin touches: the alarm manager,
 * the preferences, the boot receiver switch, and the results sent.
 */
module Scheduling {
  import opened Wrappers
  import opened AlarmDates
  import opened AlarmIds
  import opened AlarmSpecs
  import opened Preferences
  import opened ResultChannel

  /** The alarm manager (id to trigger instant), the preferences, the `WakeupBootReceiver` setting, the results sent. */
  datatype Platform = Platform(
    scheduled: map<int, Instant>,
    prefs: Prefs,
    bootReceiverEnabled: bool,
    sent: seq<Delivery>)

  datatype Cause = PermissionRequired | InvalidJson | UncheckedException

  /** What the call's own callback receives. */
  datatype Reply = Success | Error(cause: Cause)

  /** A missing `time` or `days` is a JSONException; an unknown day name unboxes a null index. */
  function CauseOf(e: SpecError): Cause {
    if e.UnknownDay? then UncheckedException else InvalidJson
  }

  /** The "set" results a pass sends: one per registered alarm, in order, to the bound consumer only. */
  function SetDeliveries(consumer: Option<CallbackId>, slots: seq<Slot>): seq<Delivery>
    decreases |slots|
  {
    if consumer.None? || slots == [] then []
    else
      var last := slots[|slots| - 1];
      SetDeliveries(consumer, slots[..|slots| - 1])
        + if last.date.Some? then [Delivery(consumer.value, Set(last.kind, last.date.value))] else []
  }

  /** `setAlarms(context, alarms, cancelFirst)`; the error is the exception it throws. */
  function SetAlarmsSpec(p: Platform, consumer: Option<CallbackId>, alarms: seq<AlarmSpec>,
                         cancelFirst: bool, canScheduleExact: bool, now: Instant): (Option<SpecError>, Platform)
    requires ValidPrefs(p.prefs) && TimesInRange(alarms)
  {
    var base := if cancelFirst then Cancelled(p.scheduled, AlarmsCount(p.prefs)) else p.scheduled;
    if |alarms| > 0 && !canScheduleExact then
      (None, p.(scheduled := base))
    else
      var e := Expand(alarms, now);
      var registered := p.(scheduled := Registered(base, e.slots), sent := p.sent + SetDeliveries(consumer, e.slots));
      if e.error.Some? then
        (e.error, registered)
      else
        (None, registered.(prefs := p.prefs[AlarmsCountKey := PInt(|e.slots|)], bootReceiverEnabled := |alarms| > 0))
  }

  /** The "wakeup" action, after it has cleared the pending result. */
  function WakeupSpec(p: Platform, consumer: Option<CallbackId>, alarms: Option<seq<AlarmSpec>>,
                      canScheduleExact: bool, now: Instant): (Reply, Platform)
    requires ValidPrefs(p.prefs) && (alarms.Some? ==> TimesInRange(alarms.value))
  {
    var list := alarms.GetOr([]);
    var cancelled := p.(scheduled := Cancelled(p.scheduled, AlarmsCount(p.prefs)));
    if |list| == 0 || canScheduleExact then
      var saved := cancelled.(prefs := p.prefs[AlarmsKey := PAlarms(list)]);
      var (err, q) := SetAlarmsSpec(saved, consumer, list, false, canScheduleExact, now);
      (if err.None? then Success else Error(CauseOf(err.value)), q)
    else
      (Error(PermissionRequired), cancelled)
  }

  /** `initialize`: re-arm from the stored list, cancelling first, only for a launch with extras that is not a wakeup. */
  function InitializeSpec(p: Platform, consumer: Option<CallbackId>, hasExtras: bool, wakeupLaunch: bool,
                          canScheduleExact: bool, now: Instant): Platform
    requires ValidPrefs(p.prefs)
  {
    if hasExtras && !wakeupLaunch then
      SetAlarmsSpec(p, consumer, StoredAlarms(p.prefs), true, canScheduleExact, now).1
    else
      p
  }

  // ---------------------------------------------------------------------
  // Properties of a pass

  lemma SetDeliveriesAppend(consumer: Option<CallbackId>, slots: seq<Slot>, s: Slot)
    ensures SetDeliveries(consumer, slots + [s])
         == SetDeliveries(consumer, slots)
              + if consumer.Some? && s.date.Some? then [Delivery(consumer.value, Set(s.kind, s.date.value))] else []
  {
    assert (slots + [s])[..|slots|] == slots;
  }

  /** One `setNotification` of a pass that has already walked `done`: the next id and the next "set" result. */
  lemma NotifyStep(base: map<int, Instant>, sent0: seq<Delivery>, done: seq<Slot>, consumer: Option<CallbackId>, s: Slot)
    ensures Registered(base, done + [s])
         == if s.date.Some? then Registered(base, done)[IdSequentialOffset + |done| := s.date.value]
            else Registered(base, done)
    ensures sent0 + SetDeliveries(consumer, done + [s])
         == (sent0 + SetDeliveries(consumer, done))
              + if consumer.Some? && s.date.Some? then [Delivery(consumer.value, Set(s.kind, s.date.value))] else []
  {
    RegisteredAppend(base, done, s);
    SetDeliveriesAppend(consumer, done, s);
  }

  /** `NotifyStep` inside the day loop, where the walk so far is the earlier alarms' slots and this alarm's days. */
  lemma DayNotifyStep(base: map<int, Instant>, sent0: seq<Delivery>, slots: seq<Slot>, daySlots: seq<Slot>,
                      consumer: Option<CallbackId>, s: Slot)
    ensures Registered(base, slots + (daySlots + [s]))
         == if s.date.Some? then Registered(base, slots + daySlots)[IdSequentialOffset + |slots| + |daySlots| := s.date.value]
            else Registered(base, slots + daySlots)
    ensures sent0 + SetDeliveries(consumer, slots + (daySlots + [s]))
         == (sent0 + SetDeliveries(consumer, slots + daySlots))
              + if consumer.Some? && s.date.Some? then [Delivery(consumer.value, Set(s.kind, s.date.value))] else []
  {
    assert slots + (daySlots + [s]) == (slots + daySlots) + [s];
    NotifyStep(base, sent0, slots + daySlots, consumer, s);
  }

  /** A "set" result names the type and date of one of the pass's slots. */
  predicate ReportsSlot(d: Delivery, slots: seq<Slot>) {
    d.event.Set? && Slot(d.event.alarmType, Some(d.event.alarmDate)) in slots
  }

  /** Without a bound consumer no "set" result is sent; with one, each reports a resolved slot to it. */
  lemma {:induction false} SetDeliveriesTo(consumer: Option<CallbackId>, slots: seq<Slot>)
    ensures consumer.None? ==> SetDeliveries(consumer, slots) == []
    ensures forall d :: d in SetDeliveries(consumer, slots) ==>
      consumer.Some? && d.to == consumer.value && ReportsSlot(d, slots)
    decreases |slots|
  {
    if consumer.Some? && slots != [] {
      SetDeliveriesTo(consumer, slots[..|slots| - 1]);
    }
  }

  /** Every sequential id in the alarm manager is one the next cancellation pass reaches. */
  predicate Tracked(p: Platform)
    requires ValidPrefs(p.prefs)
  {
    forall id :: id in p.scheduled && id >= IdSequentialOffset ==> id < IdSequentialOffset + AlarmsCount(p.prefs)
  }

  /**
   * `setAlarms` with a non-empty list and no exact-alarm permission
   * registers nothing and leaves `alarms_count`, the boot receiver and the
   * results untouched.
   */
  lemma SetAlarmsPermissionGate(p: Platform, consumer: Option<CallbackId>, alarms: seq<AlarmSpec>,
                                cancelFirst: bool, now: Instant)
    requires ValidPrefs(p.prefs) && TimesInRange(alarms) && |alarms| > 0
    ensures var (err, q) := SetAlarmsSpec(p, consumer, alarms, cancelFirst, false, now);
      && err.None? && q.prefs == p.prefs && q.bootReceiverEnabled == p.bootReceiverEnabled && q.sent == p.sent
      && (forall id :: id in q.scheduled ==> id in p.scheduled && q.scheduled[id] == p.scheduled[id])
  {
  }

  /**
   * Past the gate, `setAlarms` fails exactly when an alarm is malformed.
   * On success it persists the number of ids taken (one per "onetime"
   * alarm, one per listed day, resolved or not) and enables the boot
   * receiver exactly when the list is non-empty; on failure it rewrites
   * neither.
   */
  lemma SetAlarmsOutcome(p: Platform, consumer: Option<CallbackId>, alarms: seq<AlarmSpec>,
                         cancelFirst: bool, canScheduleExact: bool, now: Instant)
    requires ValidPrefs(p.prefs) && TimesInRange(alarms)
    requires |alarms| == 0 || canScheduleExact
    ensures var r := SetAlarmsSpec(p, consumer, alarms, cancelFirst, canScheduleExact, now);
      && ValidPrefs(r.1.prefs)
      && (r.0.Some? <==> exists i :: 0 <= i < |alarms| && Malformed(alarms[i]))
      && (r.0.None? ==> AlarmsCount(r.1.prefs) == TotalIds(alarms) && r.1.bootReceiverEnabled == (|alarms| > 0))
      && (r.0.Some? ==> r.1.prefs == p.prefs && r.1.bootReceiverEnabled == p.bootReceiverEnabled)
      && StoredAlarms(r.1.prefs) == StoredAlarms(p.prefs)
  {
    ExpandCount(alarms, now);
    var e := Expand(alarms, now);
    var r := SetAlarmsSpec(p, consumer, alarms, cancelFirst, canScheduleExact, now);
    assert r.0 == e.error;
    if e.error.None? {
      assert r.1.prefs == p.prefs[AlarmsCountKey := PInt(|e.slots|)];
    } else {
      assert r.1.prefs == p.prefs;
    }
  }

  /** Past the gate, the k-th id the pass takes is 10020 + k, registered at that slot's date when it resolves. */
  lemma SetAlarmsRegisters(p: Platform, consumer: Option<CallbackId>, alarms: seq<AlarmSpec>,
                           cancelFirst: bool, canScheduleExact: bool, now: Instant, k: int)
    requires ValidPrefs(p.prefs) && TimesInRange(alarms)
    requires |alarms| == 0 || canScheduleExact
    requires 0 <= k < |Expand(alarms, now).slots| && Expand(alarms, now).slots[k].date.Some?
    ensures var q := SetAlarmsSpec(p, consumer, alarms, cancelFirst, canScheduleExact, now).1;
      IdSequentialOffset + k in q.scheduled
      && q.scheduled[IdSequentialOffset + k] == Expand(alarms, now).slots[k].date.value
  {
    var slots := Expand(alarms, now).slots;
    var base := if cancelFirst then Cancelled(p.scheduled, AlarmsCount(p.prefs)) else p.scheduled;
    SetAlarmsScheduled(p, consumer, alarms, cancelFirst, canScheduleExact, now);
    RegisteredAt(base, slots, IdSequentialOffset + k);
  }

  lemma SetAlarmsScheduled(p: Platform, consumer: Option<CallbackId>, alarms: seq<AlarmSpec>,
                           cancelFirst: bool, canScheduleExact: bool, now: Instant)
    requires ValidPrefs(p.prefs) && TimesInRange(alarms)
    requires |alarms| == 0 || canScheduleExact
    ensures SetAlarmsSpec(p, consumer, alarms, cancelFirst, canScheduleExact, now).1.scheduled
         == Registered(if cancelFirst then Cancelled(p.scheduled, AlarmsCount(p.prefs)) else p.scheduled,
                       Expand(alarms, now).slots)
  {
  }

  /**
   * After a successful pass, the next cancellation pass (which reads the
   * count just persisted) removes every alarm this pass registered.
   */
  lemma SetAlarmsCancellable(p: Platform, consumer: Option<CallbackId>, alarms: seq<AlarmSpec>,
                             cancelFirst: bool, canScheduleExact: bool, now: Instant)
    requires ValidPrefs(p.prefs) && TimesInRange(alarms)
    requires |alarms| == 0 || canScheduleExact
    requires SetAlarmsSpec(p, consumer, alarms, cancelFirst, canScheduleExact, now).0.None?
    ensures var q := SetAlarmsSpec(p, consumer, alarms, cancelFirst, canScheduleExact, now).1;
      var base := if cancelFirst then Cancelled(p.scheduled, AlarmsCount(p.prefs)) else p.scheduled;
      ValidPrefs(q.prefs) && Cancelled(q.scheduled, AlarmsCount(q.prefs)) == Cancelled(base, AlarmsCount(q.prefs))
  {
    CancelUndoesRegister(if cancelFirst then Cancelled(p.scheduled, AlarmsCount(p.prefs)) else p.scheduled,
                         Expand(alarms, now).slots);
  }

  /**
   * "wakeup" always cancels with the old count first. Without permission
   * for a non-empty list it answers with a permission error and keeps the
   * stored list; otherwise it stores the new list and schedules it.
   */
  lemma WakeupOutcome(p: Platform, consumer: Option<CallbackId>, alarms: Option<seq<AlarmSpec>>,
                      canScheduleExact: bool, now: Instant)
    requires ValidPrefs(p.prefs) && (alarms.Some? ==> TimesInRange(alarms.value))
    ensures var (reply, q) := WakeupSpec(p, consumer, alarms, canScheduleExact, now);
      var list := alarms.GetOr([]);
      var oldIds := CancellationIds(AlarmsCount(p.prefs));
      && ValidPrefs(q.prefs)
      && (forall id :: id in q.scheduled && id in oldIds ==> IdSequentialOffset <= id < IdSequentialOffset + TotalIds(list))
      && (|list| > 0 && !canScheduleExact ==>
            && reply == Error(PermissionRequired)
            && q == p.(scheduled := Cancelled(p.scheduled, AlarmsCount(p.prefs))))
      && (|list| == 0 || canScheduleExact ==>
            && StoredAlarms(q.prefs) == list
            && (reply == Success <==> forall i :: 0 <= i < |list| ==> !Malformed(list[i]))
            && (reply == Success ==> AlarmsCount(q.prefs) == TotalIds(list) && q.bootReceiverEnabled == (|list| > 0))
            && (reply != Success ==> AlarmsCount(q.prefs) == AlarmsCount(p.prefs)
                                     && q.bootReceiverEnabled == p.bootReceiverEnabled))
  {
    var list := alarms.GetOr([]);
    var count := AlarmsCount(p.prefs);
    var slots := Expand(list, now).slots;
    ExpandCount(list, now);
    var q := WakeupSpec(p, consumer, alarms, canScheduleExact, now).1;
    forall id | id in q.scheduled && id in CancellationIds(count)
      ensures IdSequentialOffset <= id < IdSequentialOffset + TotalIds(list)
    {
      CancelledKeys(p.scheduled, count, id);
      if |list| == 0 || canScheduleExact {
        RegisteredAt(Cancelled(p.scheduled, count), slots, id);
      }
    }
  }

  /** After a cancellation pass over a tracked alarm manager, no id of the three bands is left. */
  lemma CancelledTracked(m: map<int, Instant>, count: nat, id: int)
    requires forall id' :: id' in m && id' >= IdSequentialOffset ==> id' < IdSequentialOffset + count
    requires id in Cancelled(m, count)
    ensures id < IdSequentialOffset && !Cancels(count, id)
  {
  }

  /** A second cancellation pass after one over a tracked alarm manager removes nothing, whatever its count. */
  lemma CancelledAgain(m: map<int, Instant>, count: nat, count': nat)
    requires forall id :: id in m && id >= IdSequentialOffset ==> id < IdSequentialOffset + count
    ensures Cancelled(Cancelled(m, count), count') == Cancelled(m, count)
  {
    forall id | id in Cancelled(m, count)
      ensures !Cancels(count', id)
    {
      CancelledTracked(m, count, id);
    }
  }

  /** A "wakeup" that succeeds or is refused for permission keeps every sequential id within reach of the next pass. */
  lemma WakeupKeepsTracked(p: Platform, consumer: Option<CallbackId>, alarms: Option<seq<AlarmSpec>>,
                           canScheduleExact: bool, now: Instant)
    requires ValidPrefs(p.prefs) && (alarms.Some? ==> TimesInRange(alarms.value)) && Tracked(p)
    requires var reply := WakeupSpec(p, consumer, alarms, canScheduleExact, now).0;
      reply == Success || reply == Error(PermissionRequired)
    ensures ValidPrefs(WakeupSpec(p, consumer, alarms, canScheduleExact, now).1.prefs)
    ensures Tracked(WakeupSpec(p, consumer, alarms, canScheduleExact, now).1)
  {
    var list := alarms.GetOr([]);
    var count := AlarmsCount(p.prefs);
    var cancelled := Cancelled(p.scheduled, count);
    var slots := Expand(list, now).slots;
    var q := WakeupSpec(p, consumer, alarms, canScheduleExact, now).1;
    WakeupOutcome(p, consumer, alarms, canScheduleExact, now);
    ExpandCount(list, now);
    if |list| == 0 || canScheduleExact {
      var saved := p.(scheduled := cancelled, prefs := p.prefs[AlarmsKey := PAlarms(list)]);
      SetAlarmsScheduled(saved, consumer, list, false, canScheduleExact, now);
      assert q.scheduled == Registered(cancelled, slots);
      assert AlarmsCount(q.prefs) == |slots|;
      forall id | id in q.scheduled && id >= IdSequentialOffset
        ensures id < IdSequentialOffset + |slots|
      {
        RegisteredAt(cancelled, slots, id);
        if id in cancelled {
          CancelledTracked(p.scheduled, count, id);
        }
      }
    } else {
      forall id | id in q.scheduled && id >= IdSequentialOffset
        ensures false
      {
        CancelledTracked(p.scheduled, count, id);
      }
    }
  }

  /** A successful "wakeup" registers its slots over the cancelled alarm manager and persists their number. */
  lemma WakeupSucceeds(p: Platform, consumer: Option<CallbackId>, alarms: Option<seq<AlarmSpec>>,
                       canScheduleExact: bool, now: Instant)
    requires ValidPrefs(p.prefs) && (alarms.Some? ==> TimesInRange(alarms.value))
    requires WakeupSpec(p, consumer, alarms, canScheduleExact, now).0 == Success
    ensures var q := WakeupSpec(p, consumer, alarms, canScheduleExact, now).1;
      var slots := Expand(alarms.GetOr([]), now).slots;
      && ValidPrefs(q.prefs) && (|alarms.GetOr([])| == 0 || canScheduleExact)
      && q.scheduled == Registered(Cancelled(p.scheduled, AlarmsCount(p.prefs)), slots)
      && AlarmsCount(q.prefs) == |slots| && StoredAlarms(q.prefs) == alarms.GetOr([])
  {
    var list := alarms.GetOr([]);
    WakeupOutcome(p, consumer, alarms, canScheduleExact, now);
    ExpandCount(list, now);
    var saved := p.(scheduled := Cancelled(p.scheduled, AlarmsCount(p.prefs)), prefs := p.prefs[AlarmsKey := PAlarms(list)]);
    SetAlarmsScheduled(saved, consumer, list, false, canScheduleExact, now);
  }

  /**
   * Calling "wakeup" twice with the same list (and clock) leaves the alarm
   * manager, the preferences and the boot receiver as the first call left
   * them: the second cancellation removes exactly what the first
   * registered, and the same ids are registered again.
   */
  lemma WakeupIdempotent(p: Platform, consumer: Option<CallbackId>, alarms: Option<seq<AlarmSpec>>,
                         canScheduleExact: bool, now: Instant)
    requires ValidPrefs(p.prefs) && (alarms.Some? ==> TimesInRange(alarms.value)) && Tracked(p)
    requires WakeupSpec(p, consumer, alarms, canScheduleExact, now).0 == Success
    ensures var q := WakeupSpec(p, consumer, alarms, canScheduleExact, now).1;
      ValidPrefs(q.prefs) &&
      var r := WakeupSpec(q, consumer, alarms, canScheduleExact, now);
      && r.0 == Success
      && r.1.scheduled == q.scheduled && r.1.prefs == q.prefs
      && r.1.bootReceiverEnabled == q.bootReceiverEnabled
      && r.1.sent == q.sent + SetDeliveries(consumer, Expand(alarms.GetOr([]), now).slots)
      && Cancelled(q.scheduled, AlarmsCount(q.prefs)) == Cancelled(p.scheduled, AlarmsCount(p.prefs))
  {
    var list := alarms.GetOr([]);
    var count := AlarmsCount(p.prefs);
    var cancelled := Cancelled(p.scheduled, count);
    var slots := Expand(list, now).slots;
    var q := WakeupSpec(p, consumer, alarms, canScheduleExact, now).1;
    WakeupSucceeds(p, consumer, alarms, canScheduleExact, now);
    // the second call cancels what the first registered ...
    CancelUndoesRegister(cancelled, slots);
    // ... and what the first cancellation left holds no id of any band
    CancelledAgain(p.scheduled, count, |slots|);
    var saved2 := q.(scheduled := Cancelled(q.scheduled, |slots|), prefs := q.prefs[AlarmsKey := PAlarms(list)]);
    SetAlarmsScheduled(saved2, consumer, list, false, canScheduleExact, now);
    assert q.prefs[AlarmsKey := PAlarms(list)][AlarmsCountKey := PInt(|slots|)] == q.prefs;
  }

  /**
   * "wakeup" with an empty or missing list cancels every id of the old
   * passes, stores the empty list with a count of 0 and disables the boot
   * receiver, whatever the permission.
   */
  lemma WakeupEmptyClears(p: Platform, consumer: Option<CallbackId>, alarms: Option<seq<AlarmSpec>>,
                          canScheduleExact: bool, now: Instant)
    requires ValidPrefs(p.prefs) && (alarms == None || alarms == Some([]))
    ensures var (reply, q) := WakeupSpec(p, consumer, alarms, canScheduleExact, now);
      && reply == Success && ValidPrefs(q.prefs)
      && StoredAlarms(q.prefs) == [] && AlarmsCount(q.prefs) == 0 && !q.bootReceiverEnabled
      && q.sent == p.sent
      && (forall id :: id in q.scheduled ==> id in p.scheduled && !Cancels(AlarmsCount(p.prefs), id))
  {
    var cancelled := Cancelled(p.scheduled, AlarmsCount(p.prefs));
    var saved := p.(scheduled := cancelled, prefs := p.prefs[AlarmsKey := PAlarms([])]);
    SetAlarmsScheduled(saved, consumer, [], false, canScheduleExact, now);
  }

  /**
   * After a successful "wakeup", a restart that wipes the alarm manager
   * followed by a re-arming launch (same clock, same permission) registers
   * exactly the alarms of that pass and leaves the preferences and the boot
   * receiver as they were.
   */
  lemma RestartRearms(p: Platform, consumer: Option<CallbackId>, alarms: Option<seq<AlarmSpec>>,
                      canScheduleExact: bool, now: Instant, consumer2: Option<CallbackId>)
    requires ValidPrefs(p.prefs) && (alarms.Some? ==> TimesInRange(alarms.value))
    requires WakeupSpec(p, consumer, alarms, canScheduleExact, now).0 == Success
    ensures var q := WakeupSpec(p, consumer, alarms, canScheduleExact, now).1;
      ValidPrefs(q.prefs) &&
      var r := InitializeSpec(q.(scheduled := map[]), consumer2, true, false, canScheduleExact, now);
      && r.scheduled == Registered(map[], Expand(alarms.GetOr([]), now).slots)
      && r.prefs == q.prefs && r.bootReceiverEnabled == q.bootReceiverEnabled
  {
    var list := alarms.GetOr([]);
    var slots := Expand(list, now).slots;
    WakeupOutcome(p, consumer, alarms, canScheduleExact, now);
    ExpandCount(list, now);
    var q := WakeupSpec(p, consumer, alarms, canScheduleExact, now).1;
    var wiped := q.(scheduled := map[]);
    assert StoredAlarms(wiped.prefs) == list;
    assert Cancelled(map[], AlarmsCount(q.prefs)) == map[];
    SetAlarmsScheduled(wiped, consumer2, list, true, canScheduleExact, now);
    assert AlarmsCount(q.prefs) == |slots|;
    assert q.prefs[AlarmsCountKey := PInt(|slots|)] == q.prefs;
  }

  /** The start-up re-arm runs only for a launch with extras that is not a wakeup launch. */
  lemma InitializeGuard(p: Platform, consumer: Option<CallbackId>, hasExtras: bool, wakeupLaunch: bool,
                        canScheduleExact: bool, now: Instant)
    requires ValidPrefs(p.prefs) && (!hasExtras || wakeupLaunch)
    ensures InitializeSpec(p, consumer, hasExtras, wakeupLaunch, canScheduleExact, now) == p
  {
  }

  // ---------------------------------------------------------------------
  // A pass stopped by a malformed alarm

  /**
   * As written, a pass that throws after registering an earlier alarm
   * keeps that registration but not the count that covers it: a later
   * "wakeup" with an empty list leaves the alarm scheduled.
   */
  lemma WakeupOrphansAlarm()
    ensures var p := Platform(map[], map[], false, []);
      var list := [AlarmSpec(None, Some(Time(Some(7), None)), None),
                   AlarmSpec(Some("daylist"), Some(Time(Some(8), None)), None)];
      TimesInRange(list) &&
      var (reply, q) := WakeupSpec(p, None, Some(list), true, 0);
      && Tracked(p)
      && reply == Error(InvalidJson)
      && ValidPrefs(q.prefs) && IdSequentialOffset in q.scheduled && AlarmsCount(q.prefs) == 0
      && !Tracked(q)
      && IdSequentialOffset in WakeupSpec(q, None, Some([]), true, 0).1.scheduled
  {
    var onetime := AlarmSpec(None, Some(Time(Some(7), None)), None);
    var daylist := AlarmSpec(Some("daylist"), Some(Time(Some(8), None)), None);
    var list := [onetime, daylist];
    var slot := Slot("onetime", Some(7 * MsPerHour));
    assert list[..1] == [onetime] && [onetime][..0] == [];
    assert Expand([onetime], 0) == Expansion([slot], None);
    assert Expand(list, 0) == Expansion([slot], Some(MissingDays));
    var p := Platform(map[], map[], false, []);
    var q := WakeupSpec(p, None, Some(list), true, 0).1;
    var cancelled := Cancelled(map[], 0);
    SetAlarmsScheduled(p.(scheduled := cancelled, prefs := map[AlarmsKey := PAlarms(list)]), None, list, false, true, 0);
    RegisteredAt(cancelled, [slot], IdSequentialOffset);
    assert IdSequentialOffset in q.scheduled;
    var q' := WakeupSpec(q, None, Some([]), true, 0).1;
    SetAlarmsScheduled(q.(scheduled := Cancelled(q.scheduled, 0), prefs := q.prefs[AlarmsKey := PAlarms([])]),
                       None, [], false, true, 0);
    RegisteredAt(Cancelled(q.scheduled, 0), [], IdSequentialOffset);
  }

  /** `setAlarms` as evidently intended: a list holding a malformed alarm is rejected before anything is registered. */
  function ValidatedSetAlarmsSpec(p: Platform, consumer: Option<CallbackId>, alarms: seq<AlarmSpec>,
                                  cancelFirst: bool, canScheduleExact: bool, now: Instant): (Option<SpecError>, Platform)
    requires ValidPrefs(p.prefs) && TimesInRange(alarms)
  {
    var base := if cancelFirst then Cancelled(p.scheduled, AlarmsCount(p.prefs)) else p.scheduled;
    if (|alarms| == 0 || canScheduleExact) && Expand(alarms, now).error.Some? then
      (Expand(alarms, now).error, p.(scheduled := base))
    else
      SetAlarmsSpec(p, consumer, alarms, cancelFirst, canScheduleExact, now)
  }

  /** "wakeup" over the validating `setAlarms`. */
  function ValidatedWakeupSpec(p: Platform, consumer: Option<CallbackId>, alarms: Option<seq<AlarmSpec>>,
                               canScheduleExact: bool, now: Instant): (Reply, Platform)
    requires ValidPrefs(p.prefs) && (alarms.Some? ==> TimesInRange(alarms.value))
  {
    var list := alarms.GetOr([]);
    var cancelled := p.(scheduled := Cancelled(p.scheduled, AlarmsCount(p.prefs)));
    if |list| == 0 || canScheduleExact then
      var saved := cancelled.(prefs := p.prefs[AlarmsKey := PAlarms(list)]);
      var (err, q) := ValidatedSetAlarmsSpec(saved, consumer, list, false, canScheduleExact, now);
      (if err.None? then Success else Error(CauseOf(err.value)), q)
    else
      (Error(PermissionRequired), cancelled)
  }

  /**
   * With validation first, every "wakeup", whatever it answers, keeps every
   * sequential id within reach of the next cancellation pass, and it
   * differs from the code as written only on a list holding a malformed alarm.
   */
  lemma ValidatedWakeupKeepsTracked(p: Platform, consumer: Option<CallbackId>, alarms: Option<seq<AlarmSpec>>,
                                    canScheduleExact: bool, now: Instant)
    requires ValidPrefs(p.prefs) && (alarms.Some? ==> TimesInRange(alarms.value)) && Tracked(p)
    ensures ValidPrefs(ValidatedWakeupSpec(p, consumer, alarms, canScheduleExact, now).1.prefs)
    ensures Tracked(ValidatedWakeupSpec(p, consumer, alarms, canScheduleExact, now).1)
    ensures (forall i :: 0 <= i < |alarms.GetOr([])| ==> !Malformed(alarms.GetOr([])[i]))
        ==> ValidatedWakeupSpec(p, consumer, alarms, canScheduleExact, now) == WakeupSpec(p, consumer, alarms, canScheduleExact, now)
  {
    var list := alarms.GetOr([]);
    var count := AlarmsCount(p.prefs);
    var q := ValidatedWakeupSpec(p, consumer, alarms, canScheduleExact, now).1;
    ExpandCount(list, now);
    if (|list| == 0 || canScheduleExact) && Expand(list, now).error.Some? {
      forall id | id in q.scheduled && id >= IdSequentialOffset
        ensures false
      {
        CancelledTracked(p.scheduled, count, id);
      }
    } else {
      WakeupKeepsTracked(p, consumer, alarms, canScheduleExact, now);
    }
  }
}
