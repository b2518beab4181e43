/**
 * The plugin's shared preferences as a map from key to value: the stored
 * alarm list, `alarms_count`, and the six options `configure` writes.
 */
module Preferences {
  import opened Wrappers
  import opened AlarmSpecs

  /** A preference value; the alarm list is kept as the list itself rather than its JSON text. */
  datatype PrefValue = PString(s: string) | PBool(b: bool) | PInt(i: int) | PAlarms(alarms: seq<AlarmSpec>)

  type Prefs = map<string, PrefValue>

  const AlarmsKey: string := "alarms"
  const AlarmsCountKey: string := "alarms_count"

  const StreamingUrlKey: string := "alarms_streaming_url"
  const StreamingOnlyWifiKey: string := "alarms_streaming_only_wifi"
  const RingtoneKey: string := "alarms_ringtone"
  const VolumeKey: string := "alarms_volume"
  const StreamTypeKey: string := "alarms_stream_type"
  const NotificationTextKey: string := "alarms_notification_text"

  const OptionKeys: set<string> :=
    {StreamingUrlKey, StreamingOnlyWifiKey, RingtoneKey, VolumeKey, StreamTypeKey, NotificationTextKey}

  /** What the plugin itself writes under its two alarm keys. */
  predicate ValidPrefs(p: Prefs) {
    && (AlarmsCountKey in p ==> p[AlarmsCountKey].PInt? && p[AlarmsCountKey].i >= 0)
    && (AlarmsKey in p ==> p[AlarmsKey].PAlarms? && TimesInRange(p[AlarmsKey].alarms))
  }

  /** `prefs.getInt("alarms_count", 0)` */
  function AlarmsCount(p: Prefs): nat
    requires ValidPrefs(p)
  {
    if AlarmsCountKey in p then p[AlarmsCountKey].i else 0
  }

  /** `getAlarmsFromPrefs`: the stored list, empty on first run. */
  function StoredAlarms(p: Prefs): (alarms: seq<AlarmSpec>)
    requires ValidPrefs(p)
    ensures TimesInRange(alarms)
  {
    if AlarmsKey in p then p[AlarmsKey].alarms else []
  }

  /** The `configure` options object: each key present or absent. */
  datatype Options = Options(
    streamingUrl: Option<string>,
    streamingOnlyWifi: Option<bool>,
    ringtone: Option<string>,
    volume: Option<int>,
    streamType: Option<int>,
    notificationText: Option<string>)

  /** The guard of `saveOptionsToPrefs`: nothing is written unless a stream URL or a ringtone is given. */
  predicate HasSound(o: Options) {
    o.streamingUrl.Some? || o.ringtone.Some?
  }

  function StringValue(v: Option<string>): Option<PrefValue> {
    if v.Some? then Some(PString(v.value)) else None
  }

  function BoolValue(v: Option<bool>): Option<PrefValue> {
    if v.Some? then Some(PBool(v.value)) else None
  }

  function IntValue(v: Option<int>): Option<PrefValue> {
    if v.Some? then Some(PInt(v.value)) else None
  }

  /** The value `configure` stores under an option key, when the options carry it. */
  function OptionValue(o: Options, k: string): Option<PrefValue> {
    if k == StreamingUrlKey then StringValue(o.streamingUrl)
    else if k == StreamingOnlyWifiKey then BoolValue(o.streamingOnlyWifi)
    else if k == RingtoneKey then StringValue(o.ringtone)
    else if k == VolumeKey then IntValue(o.volume)
    else if k == StreamTypeKey then IntValue(o.streamType)
    else if k == NotificationTextKey then StringValue(o.notificationText)
    else None
  }

  /** The preference entries for the options that are present. */
  function OptionEntries(o: Options): map<string, PrefValue> {
    map k | k in OptionKeys && OptionValue(o, k).Some? :: OptionValue(o, k).value
  }

  /** The preferences after `saveOptionsToPrefs`: the six option keys replaced as a block, everything else kept. */
  function SavedOptions(p: Prefs, o: Options): Prefs {
    if HasSound(o) then (p - OptionKeys) + OptionEntries(o) else p
  }

  /** The preference keys have pairwise different lengths, hence are pairwise different. */
  lemma OptionKeyLengths()
    ensures |AlarmsKey| == 6 && |AlarmsCountKey| == 12
    ensures |StreamingUrlKey| == 20 && |StreamingOnlyWifiKey| == 26 && |RingtoneKey| == 15
    ensures |VolumeKey| == 13 && |StreamTypeKey| == 18 && |NotificationTextKey| == 24
  {
  }

  /** Each option lands under its own key, typed as `saveOptionsToPrefs` puts it. */
  lemma OptionValueAt(o: Options)
    ensures OptionValue(o, StreamingUrlKey) == StringValue(o.streamingUrl)
    ensures OptionValue(o, StreamingOnlyWifiKey) == BoolValue(o.streamingOnlyWifi)
    ensures OptionValue(o, RingtoneKey) == StringValue(o.ringtone)
    ensures OptionValue(o, VolumeKey) == IntValue(o.volume)
    ensures OptionValue(o, StreamTypeKey) == IntValue(o.streamType)
    ensures OptionValue(o, NotificationTextKey) == StringValue(o.notificationText)
  {
    OptionKeyLengths();
  }

  /** Without a stream URL or a ringtone the preferences are untouched. */
  lemma SavedOptionsGuard(p: Prefs, o: Options)
    requires !HasSound(o)
    ensures SavedOptions(p, o) == p
  {
  }

  /** Behind the guard, each option key holds the given value when present and is removed when absent. */
  lemma SavedOptionsPerKey(p: Prefs, o: Options, k: string)
    requires HasSound(o) && k in OptionKeys
    ensures k in SavedOptions(p, o) <==> OptionValue(o, k).Some?
    ensures k in SavedOptions(p, o) ==> SavedOptions(p, o)[k] == OptionValue(o, k).value
  {
  }

  /** One step of the preference editor: put the value when given, remove the key otherwise. */
  function Put(p: Prefs, k: string, v: Option<PrefValue>): Prefs {
    if v.Some? then p[k := v.value] else p - {k}
  }

  /** An editor step leaves every other key as it was. */
  lemma PutOther(p: Prefs, k: string, v: Option<PrefValue>, other: string)
    requires other != k
    ensures other in Put(p, k, v) <==> other in p
    ensures other in p ==> Put(p, k, v)[other] == p[other]
  {
  }

  /** The six editor steps of `saveOptionsToPrefs`, one key at a time, in source order. */
  function EditorSteps(p: Prefs, o: Options): Prefs {
    var p1 := Put(p, StreamingUrlKey, StringValue(o.streamingUrl));
    var p2 := Put(p1, StreamingOnlyWifiKey, BoolValue(o.streamingOnlyWifi));
    var p3 := Put(p2, RingtoneKey, StringValue(o.ringtone));
    var p4 := Put(p3, VolumeKey, IntValue(o.volume));
    var p5 := Put(p4, StreamTypeKey, IntValue(o.streamType));
    Put(p5, NotificationTextKey, StringValue(o.notificationText))
  }

  /** Behind the guard, the editor steps and the block replacement agree on key `k`. */
  lemma EditorStepsAt(p: Prefs, o: Options, k: string)
    requires HasSound(o)
    ensures k in EditorSteps(p, o) <==> k in SavedOptions(p, o)
    ensures k in EditorSteps(p, o) ==> EditorSteps(p, o)[k] == SavedOptions(p, o)[k]
  {
    if k in OptionKeys {
      EditorStepsAtOption(p, o, k);
    } else {
      EditorStepsAtOther(p, o, k);
    }
  }

  /** A key outside the six option keys passes through all six editor steps unchanged. */
  lemma EditorStepsAtOther(p: Prefs, o: Options, k: string)
    requires HasSound(o) && k !in OptionKeys
    ensures k in EditorSteps(p, o) <==> k in SavedOptions(p, o)
    ensures k in EditorSteps(p, o) ==> EditorSteps(p, o)[k] == SavedOptions(p, o)[k]
  {
    var p1 := Put(p, StreamingUrlKey, StringValue(o.streamingUrl));
    var p2 := Put(p1, StreamingOnlyWifiKey, BoolValue(o.streamingOnlyWifi));
    var p3 := Put(p2, RingtoneKey, StringValue(o.ringtone));
    var p4 := Put(p3, VolumeKey, IntValue(o.volume));
    var p5 := Put(p4, StreamTypeKey, IntValue(o.streamType));
    SavedOptionsKeepsOthers(p, o, k);
    PutOther(p, StreamingUrlKey, StringValue(o.streamingUrl), k);
    PutOther(p1, StreamingOnlyWifiKey, BoolValue(o.streamingOnlyWifi), k);
    PutOther(p2, RingtoneKey, StringValue(o.ringtone), k);
    PutOther(p3, VolumeKey, IntValue(o.volume), k);
    PutOther(p4, StreamTypeKey, IntValue(o.streamType), k);
    PutOther(p5, NotificationTextKey, StringValue(o.notificationText), k);
  }

  /** An option key is settled by its own editor step; the later steps leave it alone. */
  lemma EditorStepsAtOption(p: Prefs, o: Options, k: string)
    requires HasSound(o) && k in OptionKeys
    ensures k in EditorSteps(p, o) <==> k in SavedOptions(p, o)
    ensures k in EditorSteps(p, o) ==> EditorSteps(p, o)[k] == SavedOptions(p, o)[k]
  {
    var p1 := Put(p, StreamingUrlKey, StringValue(o.streamingUrl));
    var p2 := Put(p1, StreamingOnlyWifiKey, BoolValue(o.streamingOnlyWifi));
    var p3 := Put(p2, RingtoneKey, StringValue(o.ringtone));
    var p4 := Put(p3, VolumeKey, IntValue(o.volume));
    var p5 := Put(p4, StreamTypeKey, IntValue(o.streamType));
    OptionKeyLengths();
    OptionValueAt(o);
    SavedOptionsPerKey(p, o, k);
    if k == StreamingUrlKey {
      PutOther(p1, StreamingOnlyWifiKey, BoolValue(o.streamingOnlyWifi), k);
      PutOther(p2, RingtoneKey, StringValue(o.ringtone), k);
      PutOther(p3, VolumeKey, IntValue(o.volume), k);
      PutOther(p4, StreamTypeKey, IntValue(o.streamType), k);
      PutOther(p5, NotificationTextKey, StringValue(o.notificationText), k);
    } else if k == StreamingOnlyWifiKey {
      PutOther(p2, RingtoneKey, StringValue(o.ringtone), k);
      PutOther(p3, VolumeKey, IntValue(o.volume), k);
      PutOther(p4, StreamTypeKey, IntValue(o.streamType), k);
      PutOther(p5, NotificationTextKey, StringValue(o.notificationText), k);
    } else if k == RingtoneKey {
      PutOther(p3, VolumeKey, IntValue(o.volume), k);
      PutOther(p4, StreamTypeKey, IntValue(o.streamType), k);
      PutOther(p5, NotificationTextKey, StringValue(o.notificationText), k);
    } else if k == VolumeKey {
      PutOther(p4, StreamTypeKey, IntValue(o.streamType), k);
      PutOther(p5, NotificationTextKey, StringValue(o.notificationText), k);
    } else if k == StreamTypeKey {
      PutOther(p5, NotificationTextKey, StringValue(o.notificationText), k);
    }
  }

  /** Behind the guard, the six editor steps, one key at a time, replace the option keys as a block. */
  lemma SavedOptionsInSteps(p: Prefs, o: Options)
    requires HasSound(o)
    ensures SavedOptions(p, o) == EditorSteps(p, o)
  {
    forall k
      ensures (k in EditorSteps(p, o) <==> k in SavedOptions(p, o))
      ensures k in EditorSteps(p, o) ==> EditorSteps(p, o)[k] == SavedOptions(p, o)[k]
    {
      EditorStepsAt(p, o, k);
    }
    assert EditorSteps(p, o).Keys == SavedOptions(p, o).Keys;
  }

  /** Keys other than the six option keys, the alarm list and count among them, are untouched. */
  lemma SavedOptionsKeepsOthers(p: Prefs, o: Options, k: string)
    requires k !in OptionKeys
    ensures k in SavedOptions(p, o) <==> k in p
    ensures k in p ==> SavedOptions(p, o)[k] == p[k]
  {
  }

  /** Saving the same options twice is the same as saving them once. */
  lemma SavedOptionsIdempotent(p: Prefs, o: Options)
    ensures SavedOptions(SavedOptions(p, o), o) == SavedOptions(p, o)
  {
    if HasSound(o) {
      var once := SavedOptions(p, o);
      assert OptionEntries(o).Keys <= OptionKeys;
      assert (once - OptionKeys) == (p - OptionKeys);
    }
  }

  /** Saving options keeps the plugin's own alarm keys, so the invariant on them survives. */
  lemma SavedOptionsValid(p: Prefs, o: Options)
    requires ValidPrefs(p)
    ensures ValidPrefs(SavedOptions(p, o))
    ensures AlarmsCount(SavedOptions(p, o)) == AlarmsCount(p)
    ensures StoredAlarms(SavedOptions(p, o)) == StoredAlarms(p)
  {
    SavedOptionsKeepsOthers(p, o, AlarmsKey);
    SavedOptionsKeepsOthers(p, o, AlarmsCountKey);
  }
}
