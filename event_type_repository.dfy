/**
 * `EventTypeRepository`: the domain view of the `event_types` table, and
 * the switch of the active event type (clear every flag, then set one).
 */
module EventTypeRepository {
  import opened Entities
  import opened EventTypeDao
  import opened Seqs
  import opened Optional
  import Text

  /** `entities.map { EventType(…) }`. */
  function ToEventTypes(rows: seq<EventTypeEntity>): (ts: seq<EventType>)
    ensures |ts| == |rows|
    ensures forall i :: 0 <= i < |rows| ==> ts[i] == ToEventType(rows[i])
  {
    seq(|rows|, i requires 0 <= i < |rows| => ToEventType(rows[i]))
  }

  /** At most one row carries the active flag. */
  predicate AtMostOneActive(rows: seq<EventTypeEntity>) {
    forall i, j :: 0 <= i < j < |rows| && rows[i].isActive ==> !rows[j].isActive
  }

  /** After clearing every flag and setting the one of `id`, a row is active
      exactly when it has that key; nothing else about any row changes, at
      most one row is active, and some row is active exactly when the key
      exists. */
  lemma SwitchActive(rows: seq<EventTypeEntity>, id: int)
    requires UniqueBy(rows, TypeId())
    ensures var r := ActivatedRows(ClearedRows(rows), id);
      && |r| == |rows|
      && (forall i :: 0 <= i < |r| ==> r[i] == rows[i].(isActive := rows[i].id == id))
      && AtMostOneActive(r)
      && ((exists e :: e in r && e.isActive) <==> exists e :: e in rows && e.id == id)
  {
    var r := ActivatedRows(ClearedRows(rows), id);
    assert forall i :: 0 <= i < |r| ==> r[i] == rows[i].(isActive := rows[i].id == id);
    OnlyKeyActive(rows, r, id);
  }

  /** Rows that keep their keys and are active exactly under one key: at
      most one is active, and one is exactly when the key exists. */
  lemma OnlyKeyActive(rows: seq<EventTypeEntity>, r: seq<EventTypeEntity>, id: int)
    requires UniqueBy(rows, TypeId())
    requires |r| == |rows| && forall i :: 0 <= i < |r| ==> r[i] == rows[i].(isActive := rows[i].id == id)
    ensures AtMostOneActive(r)
    ensures (exists e :: e in r && e.isActive) <==> exists e :: e in rows && e.id == id
  {
    forall i, j | 0 <= i < j < |r| && r[i].isActive ensures !r[j].isActive {
      assert TypeId()(rows[i]) != TypeId()(rows[j]);
    }
    if exists e :: e in r && e.isActive {
      var e :| e in r && e.isActive;
      var i :| 0 <= i < |r| && r[i] == e;
      assert rows[i] in rows;
    }
    if exists e :: e in rows && e.id == id {
      var e :| e in rows && e.id == id;
      var i :| 0 <= i < |rows| && rows[i] == e;
      assert r[i] in r;
    }
  }

  class Repository {
    const dao: EventTypeTable

    ghost predicate Valid()
      reads this, dao
    {
      dao.Valid()
    }

    constructor (dao: EventTypeTable)
      requires dao.Valid()
      ensures Valid() && this.dao == dao
    {
      this.dao := dao;
    }

    /** `allEventTypes` / `getAllEventTypesSync`: every type, by name. */
    function AllEventTypes(): (ts: seq<EventType>)
      reads this, dao
      ensures |ts| == |dao.rows|
      ensures forall t :: t in ts <==> ToEventTypeEntity(t) in dao.rows
      ensures forall i, j :: 0 <= i < j < |ts| ==> Text.LexLe(ts[i].name, ts[j].name)
    {
      var sorted := dao.GetAllEventTypes();
      forall i, j | 0 <= i < j < |sorted| ensures Text.LexLe(ToEventTypes(sorted)[i].name, ToEventTypes(sorted)[j].name) {
        assert ByNameAsc()(sorted[i], sorted[j]);
      }
      SameMembers(sorted, dao.rows);
      forall t ensures t in ToEventTypes(sorted) <==> ToEventTypeEntity(t) in sorted {
        if t in ToEventTypes(sorted) {
          var i :| 0 <= i < |sorted| && ToEventTypes(sorted)[i] == t;
          EventTypeMappingRoundTrip(sorted[i], t);
        }
        if ToEventTypeEntity(t) in sorted {
          var i :| 0 <= i < |sorted| && sorted[i] == ToEventTypeEntity(t);
          EventTypeMappingRoundTrip(sorted[i], t);
          assert ToEventTypes(sorted)[i] == t;
        }
      }
      assert |sorted| == |multiset(sorted)| == |multiset(dao.rows)| == |dao.rows|;
      ToEventTypes(sorted)
    }

    /** `activeEventType`: the active type, or null when none is active. */
    function ActiveEventType(): (t: Option<EventType>)
      reads this, dao
      ensures t.None? <==> forall e :: e in dao.rows ==> !e.isActive
      ensures t.Some? ==> t.value.isActive && ToEventTypeEntity(t.value) in dao.rows
    {
      match dao.GetActiveEventType()
      case None => None
      case Some(e) =>
        EventTypeMappingRoundTrip(e, ToEventType(e));
        Some(ToEventType(e))
    }

    /** `insertEventType(name, color)`: a new, inactive type under a fresh key. */
    method InsertEventType(name: string, color: string)
      requires Valid()
      modifies dao
      ensures Valid()
      ensures dao.lastId == old(dao.lastId) + 1
      ensures dao.rows == old(dao.rows) + [EventTypeEntity(dao.lastId, name, false, color)]
    {
      var entity := EventTypeEntity(0, name, false, color);
      ghost var before := dao.rows;
      var id := dao.InsertEventType(entity);
      FilterAll(before, (x: EventTypeEntity) => x.id != id);
    }

    /** `insertEventType(name)`: the colour defaults to black. */
    method InsertEventTypeWithDefaultColor(name: string)
      requires Valid()
      modifies dao
      ensures Valid()
      ensures dao.lastId == old(dao.lastId) + 1
      ensures dao.rows == old(dao.rows) + [EventTypeEntity(dao.lastId, name, false, DefaultColor)]
    {
      InsertEventType(name, DefaultColor);
    }

    /** `setActiveEventType`: afterwards exactly the type with that key is
        active, every other field of every row is kept. */
    method SetActiveEventType(id: int)
      requires Valid()
      modifies dao
      ensures Valid() && dao.lastId == old(dao.lastId)
      ensures |dao.rows| == |old(dao.rows)|
      ensures forall i :: 0 <= i < |dao.rows| ==>
        dao.rows[i] == old(dao.rows)[i].(isActive := old(dao.rows)[i].id == id)
      ensures AtMostOneActive(dao.rows)
    {
      SwitchActive(dao.rows, id);
      dao.ClearActiveEventTypes();
      dao.SetActiveEventType(id);
    }

    /** `deleteEventType`: the row with the type's key goes. */
    method DeleteEventType(t: EventType)
      requires Valid()
      modifies dao
      ensures Valid() && dao.lastId == old(dao.lastId)
      ensures dao.rows == Filter(old(dao.rows), (x: EventTypeEntity) => x.id != t.id)
    {
      dao.DeleteEventType(ToEventTypeEntity(t));
    }

    /** `updateEventType`: the row with the type's key takes its fields. */
    method UpdateEventType(t: EventType)
      requires Valid()
      modifies dao
      ensures Valid() && dao.lastId == old(dao.lastId)
      ensures dao.rows == UpdatedRows(old(dao.rows), ToEventTypeEntity(t))
    {
      dao.UpdateEventType(ToEventTypeEntity(t));
    }

    /** `insertEventType(entity)`: the table's insert, returning the key. */
    method InsertEventTypeEntity(e: EventTypeEntity) returns (id: int)
      requires Valid()
      modifies dao
      ensures Valid()
      ensures e.id == 0 ==> id == old(dao.lastId) + 1 && dao.lastId == id
      ensures e.id != 0 ==> id == e.id
      ensures dao.rows == Filter(old(dao.rows), (x: EventTypeEntity) => x.id != id) + [e.(id := id)]
    {
      id := dao.InsertEventType(e);
    }
  }
}
