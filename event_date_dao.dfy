/**
 * The `event_dates` table behind `EventDateDao`: its rows, the key counter
 * of the auto-generated primary key, the queries and the updates.
 */
module EventDateDao {
  import opened Entities
  import opened Sorting
  import opened Seqs
  import opened Optional

  function RowId(): EventDateEntity -> int {
    (e: EventDateEntity) => e.id
  }

  /** `ORDER BY date DESC`. */
  function ByDateDesc(): (EventDateEntity, EventDateEntity) -> bool {
    (a: EventDateEntity, b: EventDateEntity) => a.date >= b.date
  }

  /** `SELECT * FROM event_dates [WHERE …] ORDER BY date DESC` over given rows. */
  function OrderByDateDesc(rows: seq<EventDateEntity>): (r: seq<EventDateEntity>)
    ensures SortedBy(r, ByDateDesc())
    ensures multiset(r) == multiset(rows)
  {
    SortBy(rows, ByDateDesc())
  }

  /** The first row of a date-descending result is the newest one. */
  lemma NewestFirst(rows: seq<EventDateEntity>)
    requires rows != []
    ensures var r := OrderByDateDesc(rows);
      r[0] in rows && forall e :: e in rows ==> e.date <= r[0].date
  {
    var r := OrderByDateDesc(rows);
    assert r[0] in multiset(rows);
    forall e | e in rows ensures e.date <= r[0].date {
      assert e in multiset(r);
      var j :| 0 <= j < |r| && r[j] == e;
      assert j == 0 || ByDateDesc()(r[0], r[j]);
    }
  }

  class EventDateTable {
    /** The stored rows; their order carries no meaning. */
    var rows: seq<EventDateEntity>
    /** The largest key ever handed out (SQLite's AUTOINCREMENT counter). */
    var lastId: int

    ghost predicate Valid()
      reads this
    {
      && UniqueBy(rows, RowId())
      && (forall e :: e in rows ==> e.id <= lastId)
      && lastId >= 0
    }

    constructor ()
      ensures Valid() && rows == [] && lastId == 0
    {
      rows := [];
      lastId := 0;
    }

    /** `getAllEventDates` / `getAllEventDatesSync`: every row, newest first. */
    function GetAllEventDates(): (r: seq<EventDateEntity>)
      reads this
      ensures SortedBy(r, ByDateDesc())
      ensures multiset(r) == multiset(rows)
    {
      OrderByDateDesc(rows)
    }

    /** `getLatestEventDate`: the newest row, or null for an empty table. */
    function GetLatestEventDate(): (r: Option<EventDateEntity>)
      reads this
      ensures r.None? <==> rows == []
      ensures r.Some? ==> r.value in rows && forall e :: e in rows ==> e.date <= r.value.date
    {
      if rows == [] then None
      else
        NewestFirst(rows);
        Some(OrderByDateDesc(rows)[0])
    }

    /** `getEventDatesByType` / `getEventDatesByTypeSync`: exactly the rows of
        that type, newest first. */
    function GetEventDatesByType(eventTypeId: int): (r: seq<EventDateEntity>)
      reads this
      ensures SortedBy(r, ByDateDesc())
      ensures forall e :: e in r <==> e in rows && e.eventTypeId == eventTypeId
    {
      var filtered := Filter(rows, (e: EventDateEntity) => e.eventTypeId == eventTypeId);
      SameMembers(OrderByDateDesc(filtered), filtered);
      OrderByDateDesc(filtered)
    }

    /** `getLatestEventDateByType`: the newest row of that type, or null. */
    function GetLatestEventDateByType(eventTypeId: int): (r: Option<EventDateEntity>)
      reads this
      ensures r.None? <==> forall e :: e in rows ==> e.eventTypeId != eventTypeId
      ensures r.Some? ==> r.value in rows && r.value.eventTypeId == eventTypeId
      ensures r.Some? ==> forall e :: e in rows && e.eventTypeId == eventTypeId ==> e.date <= r.value.date
    {
      var filtered := Filter(rows, (e: EventDateEntity) => e.eventTypeId == eventTypeId);
      if filtered == [] then None
      else
        NewestFirst(filtered);
        Some(OrderByDateDesc(filtered)[0])
    }

    /** `insertEventDate` with `OnConflictStrategy.REPLACE`: id 0 gets a
        fresh key; any other id replaces the row holding that key. No check
        for a second row on the same day is made. */
    method InsertEventDate(e: EventDateEntity) returns (id: int)
      requires Valid()
      modifies this
      ensures Valid()
      ensures e.id == 0 ==> id == old(lastId) + 1 && lastId == id
      ensures e.id != 0 ==> id == e.id
      ensures rows == Filter(old(rows), (x: EventDateEntity) => x.id != id) + [e.(id := id)]
    {
      if e.id == 0 {
        id := lastId + 1;
        lastId := id;
      } else {
        id := e.id;
        if id > lastId {
          lastId := id;
        }
      }
      var kept := Filter(rows, (x: EventDateEntity) => x.id != id);
      FilterUnique(rows, (x: EventDateEntity) => x.id != id, RowId());
      AppendUnique(kept, e.(id := id), RowId());
      rows := kept + [e.(id := id)];
    }

    /** `deleteEventDateById`: only the row with that key goes. */
    method DeleteEventDateById(id: int)
      requires Valid()
      modifies this
      ensures Valid() && lastId == old(lastId)
      ensures rows == Filter(old(rows), (x: EventDateEntity) => x.id != id)
    {
      FilterUnique(rows, (x: EventDateEntity) => x.id != id, RowId());
      rows := Filter(rows, (x: EventDateEntity) => x.id != id);
    }

    /** `deleteEventDate`: Room's `@Delete` finds the row by its primary key. */
    method DeleteEventDate(e: EventDateEntity)
      requires Valid()
      modifies this
      ensures Valid() && lastId == old(lastId)
      ensures rows == Filter(old(rows), (x: EventDateEntity) => x.id != e.id)
    {
      DeleteEventDateById(e.id);
    }

    /** `deleteEventDatesByType`: exactly that type's rows go, the others stay. */
    method DeleteEventDatesByType(eventTypeId: int)
      requires Valid()
      modifies this
      ensures Valid() && lastId == old(lastId)
      ensures rows == Filter(old(rows), (x: EventDateEntity) => x.eventTypeId != eventTypeId)
    {
      FilterUnique(rows, (x: EventDateEntity) => x.eventTypeId != eventTypeId, RowId());
      rows := Filter(rows, (x: EventDateEntity) => x.eventTypeId != eventTypeId);
    }
  }
}
