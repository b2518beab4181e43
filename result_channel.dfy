/**
 * The single-slot result channel: the static `connectionCallbackContext`
 * (the bound consumer, if any) and `pendingWakeupResult` (one buffered
 * wakeup extra), together with the results sent to consumers so far.
 */
module ResultChannel {
  import opened Wrappers
  import opened AlarmDates

  /** A Cordova callback context, by identity. */
  type CallbackId = nat

  /** The plugin results a consumer receives on its kept callback. */
  datatype Event =
    | BindOk                               // the empty OK that answers "bind"
    | Wakeup(extra: Option<string>)        // {"type": "wakeup", "extra": ...}
    | Stopped(extra: Option<string>)       // {"type": "stopped", "extra": ...}
    | Set(alarmType: string, alarmDate: Instant)  // {"type": "set", "alarm_type": ..., "alarm_date": ...}

  datatype Delivery = Delivery(to: CallbackId, event: Event)

  datatype Channel = Channel(consumer: Option<CallbackId>, pending: Option<string>, sent: seq<Delivery>)

  /** A result is buffered only while nobody is bound. */
  predicate Consistent(ch: Channel) {
    ch.consumer.Some? ==> ch.pending.None?
  }

  /** `cleaPendingWakeupResult` */
  function AfterClearPending(ch: Channel): Channel {
    ch.(pending := None)
  }

  /** `sendWakeupResult`: deliver to the bound consumer, or overwrite the one pending slot. */
  function AfterSendWakeupResult(ch: Channel, extras: Option<string>): Channel {
    if ch.consumer.Some? then
      AfterClearPending(ch).(sent := ch.sent + [Delivery(ch.consumer.value, Wakeup(extras))])
    else
      ch.(pending := extras)
  }

  /** `sendStopResult`: always clears the slot, delivers only to a bound consumer. */
  function AfterSendStopResult(ch: Channel, extras: Option<string>): Channel {
    var cleared := AfterClearPending(ch);
    if ch.consumer.Some? then cleared.(sent := ch.sent + [Delivery(ch.consumer.value, Stopped(extras))])
    else cleared
  }

  /** The "bind" action: bind, replay a pending result, clear it, answer OK on the kept callback. */
  function AfterBind(ch: Channel, cb: CallbackId): Channel {
    var bound := ch.(consumer := Some(cb));
    var replayed := if ch.pending.Some? then AfterClearPending(AfterSendWakeupResult(bound, ch.pending)) else bound;
    replayed.(sent := replayed.sent + [Delivery(cb, BindOk)])
  }

  /** `onDestroy` */
  function AfterDestroy(ch: Channel): Channel {
    ch.(consumer := None)
  }

  /** With a consumer bound, a wakeup result is delivered at once and nothing is left pending. */
  lemma BoundDeliversAtOnce(ch: Channel, extras: Option<string>)
    requires ch.consumer.Some?
    ensures AfterSendWakeupResult(ch, extras).pending.None?
    ensures AfterSendWakeupResult(ch, extras).sent == ch.sent + [Delivery(ch.consumer.value, Wakeup(extras))]
  {
  }

  /** With nobody bound, the slot holds only the latest result and nothing is sent. */
  lemma UnboundKeepsLatest(ch: Channel, r1: Option<string>, r2: Option<string>)
    requires ch.consumer.None?
    ensures AfterSendWakeupResult(AfterSendWakeupResult(ch, r1), r2).pending == r2
    ensures AfterSendWakeupResult(AfterSendWakeupResult(ch, r1), r2).sent == ch.sent
  {
  }

  /**
   * Binding replays a pending result exactly once, before the OK, and
   * leaves nothing pending; binding again replays nothing.
   */
  lemma BindReplaysOnce(ch: Channel, cb: CallbackId, cb2: CallbackId)
    ensures var b := AfterBind(ch, cb);
      && b.consumer == Some(cb) && b.pending.None?
      && b.sent == ch.sent + (if ch.pending.Some? then [Delivery(cb, Wakeup(ch.pending))] else []) + [Delivery(cb, BindOk)]
      && AfterBind(b, cb2).sent == b.sent + [Delivery(cb2, BindOk)]
  {
  }

  /** Two results while unbound, then a bind: only the second reaches the consumer. */
  lemma LatestIsReplayed(ch: Channel, r1: string, r2: string, cb: CallbackId)
    requires ch.consumer.None?
    ensures AfterBind(AfterSendWakeupResult(AfterSendWakeupResult(ch, Some(r1)), Some(r2)), cb).sent
         == ch.sent + [Delivery(cb, Wakeup(Some(r2))), Delivery(cb, BindOk)]
  {
  }

  /** A stop result never stays buffered, bound or not. */
  lemma StopNeverBuffers(ch: Channel, extras: Option<string>)
    ensures AfterSendStopResult(ch, extras).pending.None?
    ensures AfterSendStopResult(ch, extras).consumer == ch.consumer
    ensures ch.consumer.None? ==> AfterSendStopResult(ch, extras).sent == ch.sent
  {
  }

  /** Every operation keeps a buffered result only while nobody is bound, and only appends to what was sent. */
  lemma OperationsKeepConsistent(ch: Channel, extras: Option<string>, cb: CallbackId)
    requires Consistent(ch)
    ensures Consistent(AfterClearPending(ch)) && Consistent(AfterSendWakeupResult(ch, extras))
    ensures Consistent(AfterSendStopResult(ch, extras)) && Consistent(AfterBind(ch, cb))
    ensures Consistent(AfterDestroy(ch))
    ensures ch.sent <= AfterSendWakeupResult(ch, extras).sent && ch.sent <= AfterBind(ch, cb).sent
    ensures ch.sent <= AfterSendStopResult(ch, extras).sent
  {
  }
}
