/**
 * The single-type edition of the analysis screen: the same analysis,
 * always over every stored record.
 */
module AnalysisAllDates {
  import opened Entities
  import opened Analysis
  import EventDateDao
  import Seqs

  /** `repository.allEventDates`: every record, newest first. */
  function AllEventDates(table: EventDateDao.EventDateTable): (r: seq<EventDate>)
    reads table
    ensures forall d :: d in r <==> exists e :: e in table.rows && d == ToEventDate(e)
    ensures forall i, j :: 0 <= i < j < |r| ==> r[i].date >= r[j].date
  {
    var rows := table.GetAllEventDates();
    Seqs.SameMembers(rows, table.rows);
    DomainDates(rows)
  }

  class AllDatesAnalysisViewModel {
    var dayDiffData: seq<int>
    var cycleFrequencyData: map<int, nat>

    constructor ()
      ensures dayDiffData == [] && cycleFrequencyData == map[]
    {
      dayDiffData := [];
      cycleFrequencyData := map[];
    }

    /** The observer installed in `init`: two or more records are analysed,
        fewer clear both results. */
    method OnAllEventDatesChanged(table: EventDateDao.EventDateTable)
      modifies this
      ensures AnalysisData(dayDiffData, cycleFrequencyData) == AnalysisOf(AllEventDates(table))
    {
      var dates := AllEventDates(table);
      if |dates| >= 2 {
        dayDiffData, cycleFrequencyData := UpdateAnalysisData(dates);
      } else {
        dayDiffData := [];
        cycleFrequencyData := map[];
      }
    }
  }
}
