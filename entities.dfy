/**
 * The rows of the `event_dates` and `event_types` tables and the domain
 * records the repositories hand to the screens. Dates are milliseconds
 * since the epoch (`Date.time`).
 */
module Entities {

  /** Event type of a row inserted without one (the entity's default). */
  const DefaultEventTypeId: int := 1
  /** Colour of an event type created without one. */
  const DefaultColor: string := "#000000"

  datatype EventDateEntity = EventDateEntity(id: int, date: int, note: string, eventTypeId: int)

  /** `EventDateEntity(date = date, eventTypeId = eventTypeId)`: id 0 asks
      the table to generate a key, the note is empty. */
  function NewEventDateEntity(date: int, eventTypeId: int): (e: EventDateEntity)
    ensures e.id == 0 && e.note == "" && e.date == date && e.eventTypeId == eventTypeId
  {
    EventDateEntity(0, date, "", eventTypeId)
  }

  datatype EventDate = EventDate(id: int, date: int)

  /** The domain view of a row: its id and date. */
  function ToEventDate(e: EventDateEntity): (d: EventDate)
    ensures d.id == e.id && d.date == e.date
  {
    EventDate(e.id, e.date)
  }

  function ToEventDates(rows: seq<EventDateEntity>): (ds: seq<EventDate>)
    ensures |ds| == |rows|
    ensures forall i :: 0 <= i < |rows| ==> ds[i] == ToEventDate(rows[i])
  {
    seq(|rows|, i requires 0 <= i < |rows| => ToEventDate(rows[i]))
  }

  /** The timestamps of a list of dates, in the same order. */
  function Timestamps(ds: seq<EventDate>): (ts: seq<int>)
    ensures |ts| == |ds|
    ensures forall i :: 0 <= i < |ds| ==> ts[i] == ds[i].date
  {
    seq(|ds|, i requires 0 <= i < |ds| => ds[i].date)
  }

  datatype EventTypeEntity = EventTypeEntity(id: int, name: string, isActive: bool, color: string)

  datatype EventType = EventType(id: int, name: string, isActive: bool, color: string)

  function ToEventType(e: EventTypeEntity): (t: EventType)
    ensures t.id == e.id && t.name == e.name && t.isActive == e.isActive && t.color == e.color
  {
    EventType(e.id, e.name, e.isActive, e.color)
  }

  function ToEventTypeEntity(t: EventType): (e: EventTypeEntity)
    ensures e.id == t.id && e.name == t.name && e.isActive == t.isActive && e.color == t.color
  {
    EventTypeEntity(t.id, t.name, t.isActive, t.color)
  }

  /** The two mappings are inverse to each other: no field is lost either way. */
  lemma EventTypeMappingRoundTrip(e: EventTypeEntity, t: EventType)
    ensures ToEventTypeEntity(ToEventType(e)) == e
    ensures ToEventType(ToEventTypeEntity(t)) == t
  {
  }
}
