/**
 * The single-type edition of the countdown screen: the average is taken
 * over every record, there is no "due today" state, and the progress is a
 * percentage.
 */
module CountdownPercent {
  import opened Time
  import opened Intervals
  import opened Entities
  import opened Optional
  import opened Seqs
  import opened Countdown
  import EventDateDao
  import AnalysisAllDates

  /** The two branches of this edition's `updateCountdown`: days still to
      go, zero included, with the percentage of the cycle already passed;
      or overdue by some days, with the percentage at 100. */
  function PercentCountdownOf(last: int, avg: int, now: int): (c: CountdownDisplay)
    ensures c.countdown >= 0
    ensures c.countdownLabel == LabelCountdown <==> DaysUntil(last, avg, now) >= 0
    ensures c.countdownLabel == LabelOverdue <==> DaysUntil(last, avg, now) < 0
    ensures c.countdown == if DaysUntil(last, avg, now) < 0 then -DaysUntil(last, avg, now) else DaysUntil(last, avg, now)
    ensures c.countdownLabel == LabelOverdue ==> c.progress == Ratio(100, 1)
    ensures c.countdownLabel == LabelCountdown ==> c.progress == Ratio(100 * (avg - c.countdown), avg)
  {
    var diffInDays := DaysUntil(last, avg, now);
    if diffInDays >= 0 then
      CountdownDisplay(diffInDays, LabelCountdown, Ratio(100 * (avg - diffInDays), avg))
    else
      CountdownDisplay(-diffInDays, LabelOverdue, Ratio(100, 1))
  }

  /** When the last event is not in the future, the percentage lies between
      0 and 100. */
  lemma PercentInRange(last: int, avg: int, now: int)
    requires last <= now && avg > 0
    ensures var p := PercentCountdownOf(last, avg, now).progress;
      p.den > 0 && 0 <= p.num <= 100 * p.den
  {
    ToDaysMonotone(NextEventDate(last, avg) - now, avg * MsPerDay);
    ToDaysOfWholeDays(avg);
  }

  /** The two editions agree on the day count and, for a positive cycle,
      on the progress up to the factor 100; they differ only in the label
      of the due day. */
  lemma EditionsAgree(last: int, avg: int, now: int)
    requires avg > 0
    ensures PercentCountdownOf(last, avg, now).countdown == CountdownOf(last, avg, now).countdown
    ensures var p := PercentCountdownOf(last, avg, now).progress;
      var q := CountdownOf(last, avg, now).progress;
      p.num * q.den == 100 * q.num * p.den
    ensures DaysUntil(last, avg, now) == 0 ==>
      CountdownOf(last, avg, now).countdownLabel == LabelDueToday
      && PercentCountdownOf(last, avg, now).countdownLabel == LabelCountdown
  {
    var d := DaysUntil(last, avg, now);
    if d == 0 {
      assert PercentCountdownOf(last, avg, now).progress == Ratio(100 * avg, avg);
    }
  }

  class PercentCountdownViewModel {
    var averageCycleDays: int
    var cycleDays: Option<int>
    var nextEventDate: Option<string>
    var countdown: Option<int>
    var countdownLabel: Option<string>
    var cycleProgress: Option<Ratio>

    constructor ()
      ensures averageCycleDays == InitialAverageCycleDays
      ensures cycleDays == None && nextEventDate == None && countdown == None
      ensures countdownLabel == None && cycleProgress == None
    {
      averageCycleDays := InitialAverageCycleDays;
      cycleDays := None;
      nextEventDate := None;
      countdown := None;
      countdownLabel := None;
      cycleProgress := None;
    }

    /** `updateCountdown(lastEventDate)` at time `now`. */
    method UpdateCountdown(lastEventDate: int, now: int, format: int -> string)
      modifies this
      ensures averageCycleDays == old(averageCycleDays) && cycleDays == old(cycleDays)
      ensures nextEventDate == Some(format(NextEventDate(lastEventDate, averageCycleDays)))
      ensures var c := PercentCountdownOf(lastEventDate, averageCycleDays, now);
        countdown == Some(c.countdown) && countdownLabel == Some(c.countdownLabel) && cycleProgress == Some(c.progress)
    {
      var nextDate := NextEventDate(lastEventDate, averageCycleDays);
      nextEventDate := Some(format(nextDate));
      var diffInDays := ToDays(nextDate - now);
      if diffInDays >= 0 {
        countdown := Some(diffInDays);
        countdownLabel := Some(LabelCountdown);
        var daysPassed := averageCycleDays - diffInDays;
        cycleProgress := Some(Ratio(100 * daysPassed, averageCycleDays));
      } else {
        countdown := Some(-diffInDays);
        countdownLabel := Some(LabelOverdue);
        cycleProgress := Some(Ratio(100, 1));
      }
    }

    /** The `map` and observer installed in `init`, on one emission of the
        newest-first list of every record. */
    method OnAllEventDatesChanged(table: EventDateDao.EventDateTable, now: int, format: int -> string)
      modifies this
      ensures var dates := AnalysisAllDates.AllEventDates(table);
        && (|dates| >= 2 ==> (averageCycleDays == TruncDiv(SumOfGaps(Timestamps(dates)), |dates| - 1)
              && cycleDays == Some(averageCycleDays)))
        && (|dates| < 2 ==> averageCycleDays == old(averageCycleDays) && cycleDays == old(cycleDays))
        && (|dates| >= 1 ==> var c := PercentCountdownOf(dates[0].date, averageCycleDays, now);
              && nextEventDate == Some(format(NextEventDate(dates[0].date, averageCycleDays)))
              && countdown == Some(c.countdown) && countdownLabel == Some(c.countdownLabel)
              && cycleProgress == Some(c.progress))
        && (|dates| == 0 ==> (nextEventDate == old(nextEventDate) && countdown == old(countdown)
              && countdownLabel == old(countdownLabel) && cycleProgress == old(cycleProgress)))
    {
      var dates := AnalysisAllDates.AllEventDates(table);
      if |dates| >= 2 {
        averageCycleDays := AverageCycleDays(Timestamps(dates));
        cycleDays := Some(averageCycleDays);
      }
      if |dates| >= 1 {
        UpdateCountdown(dates[0].date, now, format);
      }
    }

    /** `recordEvent`: a record for `now` under the entity's default type. */
    method RecordEvent(table: EventDateDao.EventDateTable, now: int)
      requires table.Valid()
      modifies table
      ensures table.Valid()
      ensures table.lastId == old(table.lastId) + 1
      ensures table.rows == old(table.rows) + [EventDateEntity(table.lastId, now, "", DefaultEventTypeId)]
    {
      ghost var before := table.rows;
      var id := table.InsertEventDate(NewEventDateEntity(now, DefaultEventTypeId));
      FilterAll(before, (x: EventDateEntity) => x.id != id);
    }
  }
}
