/**
 * The reminder scheduler of the React Native app: a key → notification-id
 * registry kept in persistent storage, the notifications the operating
 * system holds, and the rules that decide when the day-before and day-of
 * reminders fire.
 *
 * Dates are local wall-clock milliseconds: the calendar day of `t` is
 * `t / MsPerDay` and its hour is `(t % MsPerDay) / MsPerHour` (no daylight
 * saving); `setDate(getDate() + n)` adds `n` whole days.
 */
module NotificationService {
  import opened Time
  import opened Optional
  import opened Sorting

  /** The hour at which reminders fire. */
  const ReminderHour: int := 8
  /** Mean interval assumed when no record carries one. */
  const DefaultAverageInterval: int := 30
  /** The `daysBefore` default of `scheduleCountdownNotification`. */
  const DefaultDaysBefore: int := 1

  /** `new Date(y, m, d)` of the date's own fields: the start of its day. */
  function Midnight(t: int): int {
    (t / MsPerDay) * MsPerDay
  }

  /** A day starts at a multiple of the day length, at most a day before
      any instant in it. */
  lemma MidnightBounds(t: int)
    ensures Midnight(t) <= t < Midnight(t) + MsPerDay
    ensures Midnight(t) % MsPerDay == 0
  {
  }

  /** `getHours()`. */
  function Hour(t: int): int {
    (t % MsPerDay) / MsPerHour
  }

  /** The hour is one of the 24 of the day, and the instant lies within it. */
  lemma HourBounds(t: int)
    ensures 0 <= Hour(t) < 24
    ensures Midnight(t) + Hour(t) * MsPerHour <= t < Midnight(t) + (Hour(t) + 1) * MsPerHour
  {
  }

  /** `isSameDay`: year, month and day of the month agree. */
  function IsSameDay(a: int, b: int): bool {
    a / MsPerDay == b / MsPerDay
  }

  /** For local dates, the same day means `b` falls in the day that starts
      at `a`'s midnight, and the two midnights agree. */
  lemma SameDayMeaning(a: int, b: int)
    ensures IsSameDay(a, b) <==> Midnight(a) <= b < Midnight(a) + MsPerDay
    ensures IsSameDay(a, b) <==> Midnight(a) == Midnight(b)
  {
  }

  /** `createNotificationTime(base)`: 08:00 on the base day, or on the day
      after when the base day is today and 08:00 has already passed. */
  function NotificationTime(base: int, now: int): int {
    var notificationTime := Midnight(base) + ReminderHour * MsPerHour;
    if IsSameDay(base, now) && Hour(now) >= ReminderHour then notificationTime + MsPerDay else notificationTime
  }

  /** A reminder fires at 08:00: on the base day, or on the next day when
      the base day is today and 08:00 is past. */
  lemma NotificationTimeFacts(base: int, now: int)
    ensures NotificationTime(base, now) % MsPerDay == ReminderHour * MsPerHour
    ensures IsSameDay(base, now) && Hour(now) >= ReminderHour ==>
      NotificationTime(base, now) == Midnight(base) + MsPerDay + ReminderHour * MsPerHour
    ensures !(IsSameDay(base, now) && Hour(now) >= ReminderHour) ==>
      NotificationTime(base, now) == Midnight(base) + ReminderHour * MsPerHour
  {
  }

  /** The day `daysBefore` days ahead of the target's day, at midnight. */
  function DayBefore(targetDate: int, daysBefore: int): int {
    Midnight(targetDate) - daysBefore * MsPerDay
  }

  /** Whether the day-before reminder is scheduled: today is not after the
      reminder day. */
  predicate DayBeforeScheduled(targetDate: int, daysBefore: int, now: int) {
    Midnight(now) <= DayBefore(targetDate, daysBefore)
  }

  /** Whether the day-of reminder is scheduled: the target day is still
      ahead, or it is today and 08:00 has not come. */
  predicate DayOfScheduled(targetDate: int, now: int) {
    Midnight(now) < Midnight(targetDate) || (IsSameDay(Midnight(now), Midnight(targetDate)) && Hour(now) < ReminderHour)
  }

  /** The two conditions in calendar-day numbers: the day-before reminder
      needs `daysBefore` or more days left, the day-of reminder a later day
      or today before 08:00. */
  lemma SchedulingInDays(targetDate: int, daysBefore: int, now: int)
    ensures DayBeforeScheduled(targetDate, daysBefore, now) <==> now / MsPerDay + daysBefore <= targetDate / MsPerDay
    ensures DayOfScheduled(targetDate, now) <==>
      now / MsPerDay < targetDate / MsPerDay || (now / MsPerDay == targetDate / MsPerDay && Hour(now) < ReminderHour)
  {
    var today := now / MsPerDay;
    var target := targetDate / MsPerDay;
    assert Midnight(now) == today * MsPerDay;
    assert DayBefore(targetDate, daysBefore) == (target - daysBefore) * MsPerDay;
    assert Midnight(now) <= DayBefore(targetDate, daysBefore) <==> today <= target - daysBefore;
    assert Midnight(now) < Midnight(targetDate) <==> today < target;
  }

  /** Every reminder that is scheduled fires strictly after `now`. */
  lemma TriggersAfterNow(targetDate: int, daysBefore: int, now: int)
    ensures DayBeforeScheduled(targetDate, daysBefore, now) ==> NotificationTime(DayBefore(targetDate, daysBefore), now) > now
    ensures DayOfScheduled(targetDate, now) ==> NotificationTime(Midnight(targetDate), now) > now
  {
    var today := Midnight(now);
    var b := DayBefore(targetDate, daysBefore);
    assert Midnight(b) == b by {
      assert b == (targetDate / MsPerDay - daysBefore) * MsPerDay;
    }
    if DayBeforeScheduled(targetDate, daysBefore, now) && b != today {
      assert b % MsPerDay == 0 && today % MsPerDay == 0;
      assert b >= today + MsPerDay by {
        assert b == (targetDate / MsPerDay - daysBefore) * MsPerDay;
        assert today == (now / MsPerDay) * MsPerDay;
      }
    }
    var t := Midnight(targetDate);
    assert Midnight(t) == t;
    if DayOfScheduled(targetDate, now) && today < t {
      assert t >= today + MsPerDay by {
        assert t == (targetDate / MsPerDay) * MsPerDay;
        assert today == (now / MsPerDay) * MsPerDay;
      }
    }
  }

  /** `Math.round(total / count)` for a positive count: the integer nearest
      to the quotient, halves rounded up. */
  function RoundHalfUp(total: int, count: int): (r: int)
    requires count > 0
    ensures 2 * count * r - count <= 2 * total < 2 * count * r + count
  {
    (2 * total + count) / (2 * count)
  }

  /** The nearest integer is unique: any `r` within half a unit of the
      quotient is the rounded value. */
  lemma RoundHalfUpUnique(total: int, count: int, r: int)
    requires count > 0
    requires 2 * count * r - count <= 2 * total < 2 * count * r + count
    ensures RoundHalfUp(total, count) == r
  {
    var q := RoundHalfUp(total, count);
    var c2 := 2 * count;
    assert c2 * q - count <= 2 * total < c2 * q + count;
    assert c2 * r - count <= 2 * total < c2 * r + count;
    assert c2 * q < c2 * r + c2;
    assert c2 * r < c2 * q + c2;
    ScaledLess(c2, q, r + 1);
    ScaledLess(c2, r, q + 1);
  }

  /** Cancelling a positive factor from a strict inequality. */
  lemma ScaledLess(c: int, a: int, b: int)
    requires c > 0 && c * a < c * b
    ensures a < b
  {
  }

  /** A record as the screens pass it: its id, its date and the interval to
      the previous record, when one was computed. */
  datatype CountdownRecord = CountdownRecord(id: string, date: int, daysSinceLastRecord: Option<int>)

  /** `if (record.daysSinceLastRecord)`: present and non-zero. */
  predicate Truthy(r: CountdownRecord) {
    r.daysSinceLastRecord.Some? && r.daysSinceLastRecord.value != 0
  }

  /** Sum and number of the truthy intervals. */
  function TruthyTotal(rs: seq<CountdownRecord>): int {
    if rs == [] then 0
    else TruthyTotal(rs[..|rs| - 1]) + (if Truthy(rs[|rs| - 1]) then rs[|rs| - 1].daysSinceLastRecord.value else 0)
  }

  function TruthyCount(rs: seq<CountdownRecord>): (n: nat)
    ensures n <= |rs|
  {
    if rs == [] then 0
    else TruthyCount(rs[..|rs| - 1]) + (if Truthy(rs[|rs| - 1]) then 1 else 0)
  }

  /** The rounded mean of the truthy intervals, or 30 when there are none. */
  function AverageIntervalOf(rs: seq<CountdownRecord>): (avg: int)
    ensures TruthyCount(rs) == 0 ==> avg == DefaultAverageInterval
    ensures TruthyCount(rs) > 0 ==>
      2 * TruthyCount(rs) * avg - TruthyCount(rs) <= 2 * TruthyTotal(rs) < 2 * TruthyCount(rs) * avg + TruthyCount(rs)
  {
    if TruthyCount(rs) > 0 then RoundHalfUp(TruthyTotal(rs), TruthyCount(rs)) else DefaultAverageInterval
  }

  /** When every record carries the same non-zero interval, that interval is
      the average. */
  lemma {:induction false} ConstantIntervalsAverage(rs: seq<CountdownRecord>, k: int)
    requires rs != [] && k != 0
    requires forall i :: 0 <= i < |rs| ==> rs[i].daysSinceLastRecord == Some(k)
    ensures AverageIntervalOf(rs) == k
  {
    ConstantSums(rs, k);
    RoundHalfUpUnique(k * |rs|, |rs|, k);
  }

  lemma {:induction false} ConstantSums(rs: seq<CountdownRecord>, k: int)
    requires k != 0
    requires forall i :: 0 <= i < |rs| ==> rs[i].daysSinceLastRecord == Some(k)
    ensures TruthyCount(rs) == |rs| && TruthyTotal(rs) == k * |rs|
    decreases |rs|
  {
    if rs != [] {
      ConstantSums(rs[..|rs| - 1], k);
    }
  }

  /** The `forEach` accumulator of `updateAllCountdownNotifications`. */
  method AverageInterval(sortedRecords: seq<CountdownRecord>) returns (avgInterval: int)
    ensures avgInterval == AverageIntervalOf(sortedRecords)
  {
    var totalIntervals := 0;
    var intervalCount := 0;
    var i := 0;
    while i < |sortedRecords|
      invariant 0 <= i <= |sortedRecords|
      invariant totalIntervals == TruthyTotal(sortedRecords[..i])
      invariant intervalCount == TruthyCount(sortedRecords[..i])
    {
      assert sortedRecords[..i + 1][..i] == sortedRecords[..i];
      var record := sortedRecords[i];
      if Truthy(record) {
        totalIntervals := totalIntervals + record.daysSinceLastRecord.value;
        intervalCount := intervalCount + 1;
      }
      i := i + 1;
    }
    assert sortedRecords[..i] == sortedRecords;
    avgInterval := if intervalCount > 0 then RoundHalfUp(totalIntervals, intervalCount) else DefaultAverageInterval;
  }

  /** The comparator `dateB - dateA`: newest first. */
  function ByRecordDateDesc(): (CountdownRecord, CountdownRecord) -> bool {
    (a: CountdownRecord, b: CountdownRecord) => a.date >= b.date
  }

  /** `[...records].sort(…)` with that comparator; its first entry is the
      newest record. */
  function SortNewestFirst(records: seq<CountdownRecord>): (sorted: seq<CountdownRecord>)
    ensures multiset(sorted) == multiset(records) && |sorted| == |records|
    ensures SortedBy(sorted, ByRecordDateDesc())
    ensures sorted != [] ==> sorted[0] in records && forall r :: r in records ==> r.date <= sorted[0].date
  {
    var sorted := SortBy(records, ByRecordDateDesc());
    if sorted == [] then sorted
    else
      assert sorted[0] in multiset(records);
      assert forall r :: r in records ==> r in multiset(sorted);
      assert forall j :: 0 < j < |sorted| ==> ByRecordDateDesc()(sorted[0], sorted[j]);
      sorted
  }

  /** The expected date: the newest record's date plus the average interval. */
  function ExpectedDate(records: seq<CountdownRecord>): (expected: int)
    requires records != []
    ensures ToDays(expected - SortNewestFirst(records)[0].date) == AverageIntervalOf(SortNewestFirst(records))
  {
    var lastRecord := SortNewestFirst(records)[0];
    var avg := AverageIntervalOf(SortNewestFirst(records));
    ToDaysOfWholeDays(avg);
    lastRecord.date + avg * MsPerDay
  }

  function DayBeforeKey(eventId: string): string {
    eventId + "_day_before"
  }

  function DayOfKey(eventId: string): string {
    eventId + "_day_of"
  }

  /** The notification ids stored under an event's two registry keys. */
  function ReplacedIds(registry: map<string, nat>, eventId: string): (ids: set<nat>)
    ensures forall id :: id in ids <==>
      (DayBeforeKey(eventId) in registry && registry[DayBeforeKey(eventId)] == id)
      || (DayOfKey(eventId) in registry && registry[DayOfKey(eventId)] == id)
  {
    (if DayBeforeKey(eventId) in registry then {registry[DayBeforeKey(eventId)]} else {})
    + (if DayOfKey(eventId) in registry then {registry[DayOfKey(eventId)]} else {})
  }

  /** The two registry keys of one event never collide. */
  lemma KeysDistinct(eventId: string)
    ensures DayBeforeKey(eventId) != DayOfKey(eventId)
  {
    assert |DayBeforeKey(eventId)| != |DayOfKey(eventId)|;
  }

  /** Removing two keys one after the other removes the pair. */
  lemma RemoveBoth(m: map<string, nat>, a: string, b: string)
    ensures m - {a} - {b} == m - {a, b}
  {
  }

  /** Updating a key of a removed set leaves the rest of the map alone. */
  lemma UpdateInside(m: map<string, nat>, k: string, v: nat, ks: set<string>)
    requires k in ks
    ensures m[k := v] - ks == m - ks
  {
  }

  class NotificationCenter {
    /** The stored `ipredict_notification_ids` record (absent = empty). */
    var registry: map<string, nat>
    /** The notifications the system holds: id → trigger time. */
    var pending: map<nat, int>
    /** The id the system gives the next notification it schedules. */
    var nextOsId: nat

    ghost predicate Valid()
      reads this
    {
      && (forall k :: k in registry ==> registry[k] < nextOsId)
      && (forall id :: id in pending ==> id < nextOsId)
    }

    constructor ()
      ensures Valid() && registry == map[] && pending == map[]
    {
      registry := map[];
      pending := map[];
      nextOsId := 0;
    }

    /** `saveNotificationId`: the key now maps to the id. */
    method SaveNotificationId(key: string, id: nat)
      requires Valid() && id < nextOsId
      modifies this
      ensures Valid()
      ensures registry == old(registry)[key := id]
      ensures pending == old(pending) && nextOsId == old(nextOsId)
    {
      registry := registry[key := id];
    }

    /** `getNotificationId`: the stored id, or null. */
    function GetNotificationId(key: string): (id: Option<nat>)
      reads this
      ensures id.Some? <==> key in registry
      ensures id.Some? ==> id.value == registry[key]
    {
      if key in registry then Some(registry[key]) else None
    }

    /** `Notifications.scheduleNotificationAsync`: the system keeps a new
        notification and returns its fresh id. */
    method ScheduleNotification(trigger: int) returns (id: nat)
      requires Valid()
      modifies this
      ensures Valid()
      ensures id == old(nextOsId) && nextOsId == id + 1
      ensures id !in old(pending)
      ensures pending == old(pending)[id := trigger] && registry == old(registry)
    {
      id := nextOsId;
      pending := pending[id := trigger];
      nextOsId := nextOsId + 1;
    }

    /** `cancelNotification`: a stored id is cancelled with the system and
        its key removed; an unknown key changes nothing. */
    method CancelNotification(key: string)
      requires Valid()
      modifies this
      ensures Valid() && nextOsId == old(nextOsId)
      ensures registry == old(registry) - {key}
      ensures key in old(registry) ==> pending == old(pending) - {old(registry)[key]}
      ensures key !in old(registry) ==> pending == old(pending)
    {
      var notificationId := GetNotificationId(key);
      if notificationId.Some? {
        pending := pending - {notificationId.value};
        registry := registry - {key};
      }
    }

    /** `cancelAllNotifications`: nothing pending, nothing stored. */
    method CancelAllNotifications()
      requires Valid()
      modifies this
      ensures Valid() && nextOsId == old(nextOsId)
      ensures registry == map[] && pending == map[]
    {
      pending := map[];
      registry := map[];
    }

    /** `scheduleCountdownNotification(eventId, targetDate, daysBefore)` with
        the permission outcome and the current time as parameters: without
        permission nothing changes and the answer is false; otherwise both
        old reminders of the event are cancelled and each reminder whose
        condition holds is scheduled at its trigger time and registered. */
    method ScheduleCountdownNotification(eventId: string, targetDate: int, daysBefore: int, now: int, hasPermission: bool)
      returns (ok: bool)
      requires Valid()
      modifies this
      ensures Valid()
      ensures ok == hasPermission
      ensures !hasPermission ==> registry == old(registry) && pending == old(pending) && nextOsId == old(nextOsId)
      ensures hasPermission ==>
        registry - {DayBeforeKey(eventId), DayOfKey(eventId)} == old(registry) - {DayBeforeKey(eventId), DayOfKey(eventId)}
      ensures hasPermission ==> (DayBeforeKey(eventId) in registry <==> DayBeforeScheduled(targetDate, daysBefore, now))
      ensures hasPermission ==> (DayOfKey(eventId) in registry <==> DayOfScheduled(targetDate, now))
      ensures hasPermission && DayBeforeScheduled(targetDate, daysBefore, now) ==>
        registry[DayBeforeKey(eventId)] in pending
        && pending[registry[DayBeforeKey(eventId)]] == NotificationTime(DayBefore(targetDate, daysBefore), now)
      ensures hasPermission && DayOfScheduled(targetDate, now) ==>
        registry[DayOfKey(eventId)] in pending
        && pending[registry[DayOfKey(eventId)]] == NotificationTime(Midnight(targetDate), now)
      ensures hasPermission ==> forall id :: id in pending ==> id in old(pending) || id in registry.Values
      ensures hasPermission ==> forall id :: id in pending && id !in old(pending) ==> old(nextOsId) <= id < nextOsId
      ensures hasPermission ==> forall id :: id in ReplacedIds(old(registry), eventId) ==> id !in pending
      ensures hasPermission ==> forall id :: id in old(pending) && id !in ReplacedIds(old(registry), eventId) ==>
        id in pending && pending[id] == old(pending)[id]
    {
      if !hasPermission {
        return false;
      }
      ghost var keys := {DayBeforeKey(eventId), DayOfKey(eventId)};
      CancelEventReminders(eventId);
      ghost var cancelled := pending;
      var today := Midnight(now);
      var target := Midnight(targetDate);
      var dayBefore := target - daysBefore * MsPerDay;
      if today <= dayBefore {
        var notificationTime := NotificationTime(dayBefore, now);
        UpdateInside(registry, DayBeforeKey(eventId), nextOsId, keys);
        ScheduleReminder(DayBeforeKey(eventId), notificationTime);
        assert registry[DayBeforeKey(eventId)] in registry.Values;
      }
      ghost var newIds := set id | id in pending && id !in old(pending);
      assert forall id :: id in newIds ==> id in registry.Values && id < nextOsId;
      if today < target || (IsSameDay(today, target) && Hour(now) < ReminderHour) {
        var notificationTime := NotificationTime(target, now);
        UpdateInside(registry, DayOfKey(eventId), nextOsId, keys);
        ghost var before := registry;
        ScheduleReminder(DayOfKey(eventId), notificationTime);
        assert registry[DayOfKey(eventId)] in registry.Values;
        forall id | id in newIds ensures id in registry.Values {
          var k :| k in before && before[k] == id;
          assert k != DayOfKey(eventId);
          assert registry[k] == id;
        }
      }
      assert forall id :: id in cancelled ==> id in pending && pending[id] == cancelled[id];
      forall id | id in ReplacedIds(old(registry), eventId) ensures id !in pending {
        assert id < old(nextOsId) && id !in cancelled;
      }
      return true;
    }

    /** The two `cancelNotification` calls that open
        `scheduleCountdownNotification`: the ids stored under the event's
        day-before and day-of keys are cancelled and both keys removed. */
    method CancelEventReminders(eventId: string)
      requires Valid()
      modifies this
      ensures Valid() && nextOsId == old(nextOsId)
      ensures registry == old(registry) - {DayBeforeKey(eventId), DayOfKey(eventId)}
      ensures pending == old(pending) - ReplacedIds(old(registry), eventId)
    {
      KeysDistinct(eventId);
      CancelNotification(DayBeforeKey(eventId));
      CancelNotification(DayOfKey(eventId));
      assert registry == old(registry) - {DayBeforeKey(eventId)} - {DayOfKey(eventId)};
      RemoveBoth(old(registry), DayBeforeKey(eventId), DayOfKey(eventId));
    }

    /** One reminder of `scheduleCountdownNotification`: the system
        schedules it and its id is stored under the key. */
    method ScheduleReminder(key: string, trigger: int)
      requires Valid()
      modifies this
      ensures Valid() && nextOsId == old(nextOsId) + 1
      ensures registry == old(registry)[key := old(nextOsId)]
      ensures pending == old(pending)[old(nextOsId) := trigger]
      ensures forall id :: id in old(pending) ==> id in pending && pending[id] == old(pending)[id]
      ensures forall id :: id in pending ==> id in old(pending) || id == old(nextOsId)
    {
      var id := ScheduleNotification(trigger);
      SaveNotificationId(key, id);
    }

    /** `updateAllCountdownNotifications(records)`: without permission
        nothing changes and the answer is false; otherwise every reminder is
        cancelled and, when there are records, the reminders for the date
        expected after the newest record are scheduled. */
    method UpdateAllCountdownNotifications(records: seq<CountdownRecord>, now: int, hasPermission: bool)
      returns (ok: bool)
      requires Valid()
      modifies this
      ensures Valid()
      ensures ok == hasPermission
      ensures !hasPermission ==> registry == old(registry) && pending == old(pending) && nextOsId == old(nextOsId)
      ensures hasPermission && records == [] ==> registry == map[] && pending == map[]
      ensures hasPermission && records != [] ==>
        var eventId := SortNewestFirst(records)[0].id;
        var expected := ExpectedDate(records);
        && (forall k :: k in registry ==> k == DayBeforeKey(eventId) || k == DayOfKey(eventId))
        && (DayBeforeKey(eventId) in registry <==> DayBeforeScheduled(expected, DefaultDaysBefore, now))
        && (DayOfKey(eventId) in registry <==> DayOfScheduled(expected, now))
      ensures hasPermission && records != [] ==>
        var eventId := SortNewestFirst(records)[0].id;
        var expected := ExpectedDate(records);
        && (DayBeforeKey(eventId) in registry ==>
              registry[DayBeforeKey(eventId)] in pending
              && pending[registry[DayBeforeKey(eventId)]] == NotificationTime(DayBefore(expected, DefaultDaysBefore), now))
        && (DayOfKey(eventId) in registry ==>
              registry[DayOfKey(eventId)] in pending
              && pending[registry[DayOfKey(eventId)]] == NotificationTime(Midnight(expected), now))
      ensures hasPermission ==> pending.Keys == registry.Values
    {
      if !hasPermission {
        return false;
      }
      CancelAllNotifications();
      if records == [] {
        return true;
      }
      var sortedRecords := SortNewestFirst(records);
      var lastRecord := sortedRecords[0];
      var avgInterval := AverageInterval(sortedRecords);
      var expectedDate := lastRecord.date + avgInterval * MsPerDay;
      var _ := ScheduleCountdownNotification(lastRecord.id, expectedDate, DefaultDaysBefore, now, true);
      forall k | k in registry
        ensures k == DayBeforeKey(lastRecord.id) || k == DayOfKey(lastRecord.id)
      {
        assert k !in registry - {DayBeforeKey(lastRecord.id), DayOfKey(lastRecord.id)};
      }
      forall id | id in registry.Values ensures id in pending {
        var k :| k in registry && registry[k] == id;
      }
      return true;
    }
  }
}
