/**
 * The countdown screen's view model: the average cycle over the active
 * type's history, the expected date of the next event, the whole days left
 * until it and the progress through the current cycle.
 *
 * `Calendar.add(DAY_OF_MONTH, n)` is modelled as adding `n` whole days of
 * milliseconds; the date format is a parameter; `Date()` is the parameter
 * `now`.
 */
module Countdown {
  import opened Time
  import opened Intervals
  import opened Entities
  import opened Optional
  import opened Seqs
  import EventDateDao
  import EventTypeRepository
  import Analysis

  /** The `Float` quotient `num / den`, kept exact (a zero `den` stands for
      the IEEE division by zero the JVM performs). */
  datatype Ratio = Ratio(num: int, den: int)

  /** Average cycle before any history is loaded. */
  const InitialAverageCycleDays: int := 28

  /** The expected date of the next event: `avg` days after the last one. */
  function NextEventDate(last: int, avg: int): (next: int)
    ensures ToDays(next - last) == avg
  {
    ToDaysOfWholeDays(avg);
    last + avg * MsPerDay
  }

  /** `TimeUnit.MILLISECONDS.toDays(nextDate.time - today.time)`. */
  function DaysUntil(last: int, avg: int, now: int): int {
    ToDays(NextEventDate(last, avg) - now)
  }

  /** What the screen shows after `updateCountdown`. */
  datatype CountdownDisplay = CountdownDisplay(countdown: int, countdownLabel: string, progress: Ratio)

  const LabelCountdown: string := "倒计时"
  const LabelDueToday: string := "今日到期"
  const LabelOverdue: string := "已过期"

  /** The three branches of `updateCountdown`: days still to go with the
      fraction of the cycle already passed; due today; or overdue by some
      days. The progress is full in the last two. */
  function CountdownOf(last: int, avg: int, now: int): (c: CountdownDisplay)
    ensures c.countdown >= 0
    ensures c.countdownLabel == LabelCountdown <==> DaysUntil(last, avg, now) > 0
    ensures c.countdownLabel == LabelDueToday <==> DaysUntil(last, avg, now) == 0
    ensures c.countdownLabel == LabelOverdue <==> DaysUntil(last, avg, now) < 0
    ensures c.countdown == if DaysUntil(last, avg, now) < 0 then -DaysUntil(last, avg, now) else DaysUntil(last, avg, now)
    ensures c.countdownLabel != LabelCountdown ==> c.progress == Ratio(1, 1)
    ensures c.countdownLabel == LabelCountdown ==> c.progress == Ratio(avg - c.countdown, avg)
  {
    var diffInDays := DaysUntil(last, avg, now);
    if diffInDays > 0 then
      CountdownDisplay(diffInDays, LabelCountdown, Ratio(avg - diffInDays, avg))
    else if diffInDays == 0 then
      CountdownDisplay(0, LabelDueToday, Ratio(1, 1))
    else
      CountdownDisplay(-diffInDays, LabelOverdue, Ratio(1, 1))
  }

  /** When the last event is not in the future, the days left never exceed
      the cycle, so the progress is a fraction between 0 and 1 (and below 1
      while days remain). */
  lemma ProgressIsFraction(last: int, avg: int, now: int)
    requires last <= now && avg > 0
    ensures var p := CountdownOf(last, avg, now).progress;
      p.den > 0 && 0 <= p.num <= p.den
    ensures CountdownOf(last, avg, now).countdownLabel == LabelCountdown ==>
      CountdownOf(last, avg, now).progress.num < CountdownOf(last, avg, now).progress.den
  {
    ToDaysMonotone(NextEventDate(last, avg) - now, avg * MsPerDay);
    ToDaysOfWholeDays(avg);
  }

  /** A countdown of `k` days is shown exactly when `now` lies in the window
      from `k + 1` days to `k` days before the expected date. */
  lemma CountdownWindow(last: int, avg: int, now: int, k: int)
    requires k > 0
    ensures CountdownOf(last, avg, now).countdownLabel == LabelCountdown && CountdownOf(last, avg, now).countdown == k
      <==> k * MsPerDay <= NextEventDate(last, avg) - now < (k + 1) * MsPerDay
  {
    var ms := NextEventDate(last, avg) - now;
    var d := ToDays(ms);
    if d == k {
      assert ms >= 0 by { ToDaysSign(ms); }
    }
    if k * MsPerDay <= ms < (k + 1) * MsPerDay {
      assert ms >= 0;
      assert d * MsPerDay <= ms < (d + 1) * MsPerDay;
    }
  }

  class CountdownViewModel {
    /** `averageCycleDays`, 28 until a history of two or more records is seen. */
    var averageCycleDays: int
    var cycleDays: Option<int>
    var nextEventDate: Option<string>
    var countdown: Option<int>
    var countdownLabel: Option<string>
    var cycleProgress: Option<Ratio>

    constructor ()
      ensures averageCycleDays == InitialAverageCycleDays
      ensures cycleDays == None && nextEventDate == None && countdown == None
      ensures countdownLabel == None && cycleProgress == None
    {
      averageCycleDays := InitialAverageCycleDays;
      cycleDays := None;
      nextEventDate := None;
      countdown := None;
      countdownLabel := None;
      cycleProgress := None;
    }

    /** `updateCountdown(lastEventDate)` at time `now`. */
    method UpdateCountdown(lastEventDate: int, now: int, format: int -> string)
      modifies this
      ensures averageCycleDays == old(averageCycleDays) && cycleDays == old(cycleDays)
      ensures nextEventDate == Some(format(NextEventDate(lastEventDate, averageCycleDays)))
      ensures var c := CountdownOf(lastEventDate, averageCycleDays, now);
        countdown == Some(c.countdown) && countdownLabel == Some(c.countdownLabel) && cycleProgress == Some(c.progress)
    {
      var nextDate := NextEventDate(lastEventDate, averageCycleDays);
      nextEventDate := Some(format(nextDate));
      var diffInDays := ToDays(nextDate - now);
      if diffInDays > 0 {
        countdown := Some(diffInDays);
        countdownLabel := Some(LabelCountdown);
        var daysPassed := averageCycleDays - diffInDays;
        cycleProgress := Some(Ratio(daysPassed, averageCycleDays));
      } else if diffInDays == 0 {
        countdown := Some(0);
        countdownLabel := Some(LabelDueToday);
        cycleProgress := Some(Ratio(1, 1));
      } else {
        countdown := Some(-diffInDays);
        countdownLabel := Some(LabelOverdue);
        cycleProgress := Some(Ratio(1, 1));
      }
    }

    /** The observer of `loadEventDatesByType` on one emission of the
        newest-first list: two or more records reset the average; the newest
        record, when there is one, drives the countdown. */
    method OnEventDatesLoaded(dates: seq<EventDate>, now: int, format: int -> string)
      modifies this
      ensures |dates| >= 2 ==> (averageCycleDays == TruncDiv(SumOfGaps(Timestamps(dates)), |dates| - 1)
        && cycleDays == Some(averageCycleDays))
      ensures |dates| < 2 ==> averageCycleDays == old(averageCycleDays) && cycleDays == old(cycleDays)
      ensures |dates| >= 1 ==> var c := CountdownOf(dates[0].date, averageCycleDays, now);
        && nextEventDate == Some(format(NextEventDate(dates[0].date, averageCycleDays)))
        && countdown == Some(c.countdown) && countdownLabel == Some(c.countdownLabel) && cycleProgress == Some(c.progress)
      ensures |dates| == 0 ==> (nextEventDate == old(nextEventDate) && countdown == old(countdown)
        && countdownLabel == old(countdownLabel) && cycleProgress == old(cycleProgress))
    {
      if |dates| >= 2 {
        averageCycleDays := AverageCycleDays(Timestamps(dates));
        cycleDays := Some(averageCycleDays);
      }
      if |dates| >= 1 {
        UpdateCountdown(dates[0].date, now, format);
      }
    }

    /** `loadEventDatesByType`: the active type's records, newest first, as
        the observer receives them. */
    method LoadEventDatesByType(table: EventDateDao.EventDateTable, eventTypeId: int, now: int, format: int -> string)
      modifies this
      ensures var dates := Analysis.DomainDates(table.GetEventDatesByType(eventTypeId));
        |dates| >= 2 ==> (averageCycleDays == TruncDiv(SumOfGaps(Timestamps(dates)), |dates| - 1)
          && cycleDays == Some(averageCycleDays))
      ensures var dates := Analysis.DomainDates(table.GetEventDatesByType(eventTypeId));
        |dates| < 2 ==> averageCycleDays == old(averageCycleDays) && cycleDays == old(cycleDays)
      ensures var dates := Analysis.DomainDates(table.GetEventDatesByType(eventTypeId));
        |dates| >= 1 ==> var c := CountdownOf(dates[0].date, averageCycleDays, now);
          && nextEventDate == Some(format(NextEventDate(dates[0].date, averageCycleDays)))
          && countdown == Some(c.countdown) && countdownLabel == Some(c.countdownLabel) && cycleProgress == Some(c.progress)
      ensures var dates := Analysis.DomainDates(table.GetEventDatesByType(eventTypeId));
        |dates| == 0 ==> (nextEventDate == old(nextEventDate) && countdown == old(countdown)
          && countdownLabel == old(countdownLabel) && cycleProgress == old(cycleProgress))
    {
      var dates := Analysis.DomainDates(table.GetEventDatesByType(eventTypeId));
      OnEventDatesLoaded(dates, now, format);
      assert dates == Analysis.DomainDates(table.GetEventDatesByType(eventTypeId));
    }

    /** `recordEvent`: a record for `now` under the active type, or under
        type 1 when none is active. */
    method RecordEvent(table: EventDateDao.EventDateTable, types: EventTypeRepository.Repository, now: int)
      requires table.Valid()
      modifies table
      ensures table.Valid()
      ensures var typeId := match types.ActiveEventType()
          case Some(t) => t.id
          case None => DefaultEventTypeId;
        table.lastId == old(table.lastId) + 1
        && table.rows == old(table.rows) + [EventDateEntity(table.lastId, now, "", typeId)]
    {
      var eventTypeId := match types.ActiveEventType()
        case Some(t) => t.id
        case None => DefaultEventTypeId;
      ghost var before := table.rows;
      var id := table.InsertEventDate(NewEventDateEntity(now, eventTypeId));
      FilterAll(before, (x: EventDateEntity) => x.id != id);
    }
  }

  /** The history the countdown averages is date-descending, so the average
      is never negative: the expected date is never before the last record. */
  lemma AverageOfQueryIsNonNegative(table: EventDateDao.EventDateTable, eventTypeId: int)
    requires |table.GetEventDatesByType(eventTypeId)| >= 2
    ensures var ts := Timestamps(Analysis.DomainDates(table.GetEventDatesByType(eventTypeId)));
      TruncDiv(SumOfGaps(ts), |ts| - 1) >= 0
      && NextEventDate(ts[0], TruncDiv(SumOfGaps(ts), |ts| - 1)) >= ts[0]
  {
    var ts := Timestamps(Analysis.DomainDates(table.GetEventDatesByType(eventTypeId)));
    assert Descending(ts);
    AverageBounds(ts);
  }
}
