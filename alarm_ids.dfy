/**
 * The three id bands the plugin hands to the alarm manager: the legacy
 * one-time id, the seven legacy per-weekday ids, and the sequential band
 * used by the current format.
 */
module AlarmIds {
  import opened AlarmDates

  const IdOneTimeOffset: int := 10000
  const IdDayListOffset: int := 10010
  const IdSequentialOffset: int := 10020

  /** The ids `cancelAlarms` cancels, in the order it fills its array. */
  function CancellationIds(count: nat): (ids: seq<int>)
    ensures |ids| == 8 + count
  {
    [IdOneTimeOffset]
      + seq(7, d requires 0 <= d < 7 => IdDayListOffset + d)
      + seq(count, k requires 0 <= k < count => IdSequentialOffset + k)
  }

  /** The same set described by bands: what the next cancellation pass reaches. */
  predicate Cancels(count: nat, id: int) {
    || id == IdOneTimeOffset
    || IdDayListOffset <= id < IdDayListOffset + 7
    || IdSequentialOffset <= id < IdSequentialOffset + count
  }

  /** An id is cancelled exactly when it lies in one of the three bands. */
  lemma CancellationIdsBands(count: nat, id: int)
    ensures id in CancellationIds(count) <==> Cancels(count, id)
  {
    var ids := CancellationIds(count);
    if Cancels(count, id) {
      if id == IdOneTimeOffset {
        assert ids[0] == id;
      } else if id < IdDayListOffset + 7 {
        assert ids[1 + id - IdDayListOffset] == id;
      } else {
        assert ids[8 + id - IdSequentialOffset] == id;
      }
    }
  }

  /** The ids are strictly increasing, hence pairwise distinct. */
  lemma CancellationIdsIncreasing(count: nat, i: int, j: int)
    requires 0 <= i < j < 8 + count
    ensures CancellationIds(count)[i] < CancellationIds(count)[j]
  {
  }

  /** The legacy ids are cancelled whatever the count. */
  lemma LegacyIdsAlwaysCancelled(count: nat)
    ensures IdOneTimeOffset in CancellationIds(count)
    ensures forall id :: IdDayListOffset <= id < IdDayListOffset + 7 ==> id in CancellationIds(count)
  {
    forall id | IdDayListOffset <= id < IdDayListOffset + 7
      ensures id in CancellationIds(count)
    {
      CancellationIdsBands(count, id);
    }
    CancellationIdsBands(count, IdOneTimeOffset);
  }

  /** The alarm manager after cancelling every id of a pass that reads `count`. */
  function Cancelled(scheduled: map<int, Instant>, count: nat): (r: map<int, Instant>)
    ensures forall id :: id in r ==> id in scheduled && r[id] == scheduled[id]
  {
    map id | id in scheduled && !Cancels(count, id) :: scheduled[id]
  }

  /** A cancellation pass leaves no cancelled id behind and keeps every other one. */
  lemma CancelledKeys(scheduled: map<int, Instant>, count: nat, id: int)
    ensures id in Cancelled(scheduled, count) <==> id in scheduled && id !in CancellationIds(count)
  {
    CancellationIdsBands(count, id);
  }
}
