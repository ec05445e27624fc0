/**
 * The `event_types` table behind `EventTypeDao`: its rows, the key counter
 * of the auto-generated primary key, the queries and the updates, including
 * the two bulk updates of the `isActive` flag.
 */
module EventTypeDao {
  import opened Entities
  import opened Sorting
  import opened Seqs
  import opened Optional
  import opened Text

  function TypeId(): EventTypeEntity -> int {
    (e: EventTypeEntity) => e.id
  }

  /** `ORDER BY name ASC` under SQLite's binary collation. */
  function ByNameAsc(): (EventTypeEntity, EventTypeEntity) -> bool {
    (a: EventTypeEntity, b: EventTypeEntity) => LexLe(a.name, b.name)
  }

  lemma ByNameAscIsTotalPreorder()
    ensures TotalPreorder(ByNameAsc())
  {
    forall a: EventTypeEntity, b: EventTypeEntity
      ensures ByNameAsc()(a, b) || ByNameAsc()(b, a)
    {
      LexLeTotal(a.name, b.name);
    }
    forall a: EventTypeEntity, b: EventTypeEntity, c: EventTypeEntity
      | ByNameAsc()(a, b) && ByNameAsc()(b, c)
      ensures ByNameAsc()(a, c)
    {
      LexLeTransitive(a.name, b.name, c.name);
    }
  }

  /** Every row, `isActive` cleared (`UPDATE event_types SET isActive = 0`). */
  function ClearedRows(rows: seq<EventTypeEntity>): (r: seq<EventTypeEntity>)
    ensures |r| == |rows|
    ensures forall i :: 0 <= i < |r| ==> r[i] == rows[i].(isActive := false)
  {
    seq(|rows|, i requires 0 <= i < |rows| => rows[i].(isActive := false))
  }

  /** `UPDATE event_types SET isActive = 1 WHERE id = :id`. */
  function ActivatedRows(rows: seq<EventTypeEntity>, id: int): (r: seq<EventTypeEntity>)
    ensures |r| == |rows|
    ensures forall i :: 0 <= i < |r| && rows[i].id == id ==> r[i] == rows[i].(isActive := true)
    ensures forall i :: 0 <= i < |r| && rows[i].id != id ==> r[i] == rows[i]
  {
    seq(|rows|, i requires 0 <= i < |rows| => if rows[i].id == id then rows[i].(isActive := true) else rows[i])
  }

  /** Room's `@Update`: the row with the entity's key takes all its fields. */
  function UpdatedRows(rows: seq<EventTypeEntity>, e: EventTypeEntity): (r: seq<EventTypeEntity>)
    ensures |r| == |rows|
    ensures forall i :: 0 <= i < |r| && rows[i].id == e.id ==> r[i] == e
    ensures forall i :: 0 <= i < |r| && rows[i].id != e.id ==> r[i] == rows[i]
  {
    seq(|rows|, i requires 0 <= i < |rows| => if rows[i].id == e.id then e else rows[i])
  }

  /** A row-wise rewrite that keeps every key keeps the keys unique. */
  lemma SameKeysUnique(a: seq<EventTypeEntity>, b: seq<EventTypeEntity>)
    requires UniqueBy(a, TypeId())
    requires |a| == |b| && forall i :: 0 <= i < |a| ==> a[i].id == b[i].id
    ensures UniqueBy(b, TypeId())
    ensures forall y :: y in b ==> exists x :: x in a && x.id == y.id
  {
    forall y | y in b ensures exists x :: x in a && x.id == y.id {
      var i :| 0 <= i < |b| && b[i] == y;
      assert a[i] in a;
    }
  }

  class EventTypeTable {
    /** The stored rows, in the order the model keeps them (rowid order for fresh inserts). */
    var rows: seq<EventTypeEntity>
    /** The largest key ever handed out (SQLite's AUTOINCREMENT counter). */
    var lastId: int

    ghost predicate Valid()
      reads this
    {
      && UniqueBy(rows, TypeId())
      && (forall e :: e in rows ==> e.id <= lastId)
      && lastId >= 0
    }

    constructor ()
      ensures Valid() && rows == [] && lastId == 0
    {
      rows := [];
      lastId := 0;
    }

    /** `getAllEventTypes` / `getAllEventTypesSync`: every row, by name. */
    function GetAllEventTypes(): (r: seq<EventTypeEntity>)
      reads this
      ensures SortedBy(r, ByNameAsc())
      ensures multiset(r) == multiset(rows)
    {
      ByNameAscIsTotalPreorder();
      SortBy(rows, ByNameAsc())
    }

    /** `getActiveEventType`: an active row, or null when none is active. */
    function GetActiveEventType(): (r: Option<EventTypeEntity>)
      reads this
      ensures r.None? <==> forall e :: e in rows ==> !e.isActive
      ensures r.Some? ==> r.value in rows && r.value.isActive
    {
      var active := Filter(rows, (e: EventTypeEntity) => e.isActive);
      if active == [] then None
      else
        assert active[0] in active;
        Some(active[0])
    }

    /** `insertEventType` with `OnConflictStrategy.REPLACE`, returning the
        row id: id 0 gets a fresh key, any other id replaces its row. */
    method InsertEventType(e: EventTypeEntity) returns (id: int)
      requires Valid()
      modifies this
      ensures Valid()
      ensures e.id == 0 ==> id == old(lastId) + 1 && lastId == id
      ensures e.id != 0 ==> id == e.id
      ensures rows == Filter(old(rows), (x: EventTypeEntity) => x.id != id) + [e.(id := id)]
    {
      if e.id == 0 {
        id := lastId + 1;
        lastId := id;
      } else {
        id := e.id;
        if id > lastId {
          lastId := id;
        }
      }
      var kept := Filter(rows, (x: EventTypeEntity) => x.id != id);
      FilterUnique(rows, (x: EventTypeEntity) => x.id != id, TypeId());
      AppendUnique(kept, e.(id := id), TypeId());
      rows := kept + [e.(id := id)];
    }

    /** `updateEventType`: the row with that key takes the new fields; no row
        changes when the key is absent. */
    method UpdateEventType(e: EventTypeEntity)
      requires Valid()
      modifies this
      ensures Valid() && lastId == old(lastId)
      ensures rows == UpdatedRows(old(rows), e)
    {
      var r := UpdatedRows(rows, e);
      SameKeysUnique(rows, r);
      rows := r;
    }

    /** `deleteEventType`: the row with the entity's key goes. */
    method DeleteEventType(e: EventTypeEntity)
      requires Valid()
      modifies this
      ensures Valid() && lastId == old(lastId)
      ensures rows == Filter(old(rows), (x: EventTypeEntity) => x.id != e.id)
    {
      FilterUnique(rows, (x: EventTypeEntity) => x.id != e.id, TypeId());
      rows := Filter(rows, (x: EventTypeEntity) => x.id != e.id);
    }

    /** `clearActiveEventTypes`: no row stays active. */
    method ClearActiveEventTypes()
      requires Valid()
      modifies this
      ensures Valid() && lastId == old(lastId)
      ensures rows == ClearedRows(old(rows))
    {
      var r := ClearedRows(rows);
      SameKeysUnique(rows, r);
      rows := r;
    }

    /** `setActiveEventType`: the row with that key becomes active; the
        others keep their flag. */
    method SetActiveEventType(id: int)
      requires Valid()
      modifies this
      ensures Valid() && lastId == old(lastId)
      ensures rows == ActivatedRows(old(rows), id)
    {
      var r := ActivatedRows(rows, id);
      SameKeysUnique(rows, r);
      rows := r;
    }
  }
}
