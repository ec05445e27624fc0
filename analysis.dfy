/**
 * The analysis screen's view model: the whole-day gaps between successive
 * records of the current event type, and how often each gap occurs.
 */
module Analysis {
  import opened Entities
  import opened Intervals
  import opened Sorting
  import opened Optional
  import EventDateDao
  import EventTypeRepository
  import Seqs

  /** What the screen shows: the gaps, oldest first, and their histogram. */
  datatype AnalysisData = AnalysisData(dayDiffs: seq<int>, frequency: map<int, nat>)

  /** The analysis of a list of records: empty for fewer than two records,
      otherwise the gaps of the records in date order and their counts. */
  function AnalysisOf(dates: seq<EventDate>): (a: AnalysisData)
    ensures |dates| < 2 ==> a.dayDiffs == [] && a.frequency == map[]
    ensures |dates| >= 2 ==> |a.dayDiffs| == |dates| - 1
    ensures forall k :: 0 <= k < |a.dayDiffs| ==> a.dayDiffs[k] >= 0
    ensures forall g :: g in a.frequency <==> g in a.dayDiffs
    ensures forall g :: g in a.frequency ==> a.frequency[g] == multiset(a.dayDiffs)[g]
  {
    if |dates| < 2 then AnalysisData([], map[])
    else
      var sorted := SortAscending(Timestamps(dates));
      DayGapsOfAscending(sorted);
      AnalysisData(DayGaps(sorted), Frequency(DayGaps(sorted)))
  }

  /** The histogram counts every gap once: its counts add up to one less
      than the number of records. */
  lemma AnalysisFrequencyTotal(dates: seq<EventDate>)
    requires |dates| >= 2
    ensures SumValues(AnalysisOf(dates).frequency) == |dates| - 1
  {
    FrequencyTotal(AnalysisOf(dates).dayDiffs);
  }

  /** The analysis depends only on which timestamps are present, not on the
      order in which the query delivers them. */
  lemma AnalysisOrderIndependent(a: seq<EventDate>, b: seq<EventDate>)
    requires multiset(Timestamps(a)) == multiset(Timestamps(b))
    ensures AnalysisOf(a) == AnalysisOf(b)
  {
    assert |Timestamps(a)| == |multiset(Timestamps(a))| == |multiset(Timestamps(b))| == |Timestamps(b)|;
    DayGapsOrderIndependent(Timestamps(a), Timestamps(b));
  }

  /** `updateAnalysisData`: sort by date, one truncated gap per neighbouring
      pair, then `groupingBy { it }.eachCount()`. */
  method UpdateAnalysisData(dates: seq<EventDate>) returns (dayDiffs: seq<int>, frequencyMap: map<int, nat>)
    requires |dates| >= 2
    ensures AnalysisData(dayDiffs, frequencyMap) == AnalysisOf(dates)
  {
    var sortedDates := SortAscending(Timestamps(dates));
    dayDiffs := ComputeDayDiffs(sortedDates);
    frequencyMap := Frequency(dayDiffs);
  }

  /** A date-descending query result in the domain view: the same records,
      still newest first. */
  function DomainDates(rows: seq<EventDateEntity>): (r: seq<EventDate>)
    requires SortedBy(rows, EventDateDao.ByDateDesc())
    ensures forall d :: d in r <==> exists e :: e in rows && d == ToEventDate(e)
    ensures forall i, j :: 0 <= i < j < |r| ==> r[i].date >= r[j].date
  {
    var r := ToEventDates(rows);
    forall d ensures d in r <==> exists e :: e in rows && d == ToEventDate(e) {
      if d in r {
        var i :| 0 <= i < |rows| && r[i] == d;
        assert rows[i] in rows;
      }
      if exists e :: e in rows && d == ToEventDate(e) {
        var e :| e in rows && d == ToEventDate(e);
        var i :| 0 <= i < |rows| && rows[i] == e;
        assert r[i] == d;
      }
    }
    forall i, j | 0 <= i < j < |r| ensures r[i].date >= r[j].date {
      assert EventDateDao.ByDateDesc()(rows[i], rows[j]);
    }
    r
  }

  /** `currentEventDates`: the records of the active type when one is
      active, otherwise every record; newest first either way. */
  function CurrentEventDates(dates: EventDateDao.EventDateTable, types: EventTypeRepository.Repository): (r: seq<EventDate>)
    reads dates, types, types.dao
    ensures forall d :: d in r <==> exists e :: (e in dates.rows && d == ToEventDate(e)
      && (types.ActiveEventType().Some? ==> e.eventTypeId == types.ActiveEventType().value.id))
    ensures forall i, j :: 0 <= i < j < |r| ==> r[i].date >= r[j].date
  {
    match types.ActiveEventType()
    case Some(t) => DomainDates(dates.GetEventDatesByType(t.id))
    case None =>
      var rows := dates.GetAllEventDates();
      Seqs.SameMembers(rows, dates.rows);
      DomainDates(rows)
  }

  class AnalysisViewModel {
    /** `dayDiffData`. */
    var dayDiffData: seq<int>
    /** `cycleFrequencyData`. */
    var cycleFrequencyData: map<int, nat>

    constructor ()
      ensures dayDiffData == [] && cycleFrequencyData == map[]
    {
      dayDiffData := [];
      cycleFrequencyData := map[];
    }

    /** `eventDatesObserver`: at least two records are analysed, fewer clear
        both results. */
    method OnEventDatesChanged(dates: seq<EventDate>)
      modifies this
      ensures AnalysisData(dayDiffData, cycleFrequencyData) == AnalysisOf(dates)
    {
      if |dates| >= 2 {
        dayDiffData, cycleFrequencyData := UpdateAnalysisData(dates);
      } else {
        dayDiffData := [];
        cycleFrequencyData := map[];
      }
    }
  }
}
