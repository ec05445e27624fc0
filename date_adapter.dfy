/**
 * The list of recorded dates on the dates screen: each row shows its date
 * and the whole-day interval to the row below it (the next older record),
 * the bottom row is the first record; the diff callback that decides which
 * rows changed; and the guard of the swipe-to-delete gesture.
 */
module DateAdapter {
  import opened Time
  import opened Text
  import opened Optional
  import opened Entities
  import opened Intervals
  import opened Sorting

  /** Text of the row that has no older record below it. */
  const FirstRecordText: string := "首次记录"
  /** `RecyclerView.NO_POSITION`. */
  const NoPosition: int := -1

  /** Kotlin `Long.toInt()`: the low 32 bits, read as a signed integer. */
  function ToInt32(x: int): (r: int)
    ensures IntMin <= r <= IntMax
    ensures (r - x) % 0x1_0000_0000 == 0
    ensures IntMin <= x <= IntMax ==> r == x
  {
    var m := x % 0x1_0000_0000;
    if m > IntMax then m - 0x1_0000_0000 else m
  }

  /** What `bind` writes into a row: the formatted date and the interval text. */
  datatype RowText = RowText(textDate: string, textDayDiff: string)

  /** `onBindViewHolder`: the item below `position`, or null for the last row. */
  function PreviousItem(items: seq<EventDate>, position: int): (r: Option<EventDate>)
    requires 0 <= position < |items|
    ensures r.None? <==> position == |items| - 1
    ensures r.Some? ==> position + 1 < |items| && r.value == items[position + 1]
  {
    if position < |items| - 1 then Some(items[position + 1]) else None
  }

  /** The whole days from the previous record to this one, as `bind` computes
      them: the millisecond gap truncated toward zero, then `toInt()`. */
  function DayDiff(current: EventDate, previous: EventDate): (d: int)
    ensures IntMin <= d <= IntMax
    ensures IntMin <= ToDays(current.date - previous.date) <= IntMax ==> d == ToDays(current.date - previous.date)
  {
    ToInt32(ToDays(current.date - previous.date))
  }

  /** The interval text: "间隔: N 天". */
  function IntervalText(days: int): (t: string)
    ensures |t| > 0 && t[0] == '间'
  {
    "间隔: " + IntToString(days) + " 天"
  }

  /** `DateViewHolder.bind`: the date through the platform formatter, and the
      interval to the previous record, or the first-record text without one. */
  function Bind(eventDate: EventDate, previousDate: Option<EventDate>, format: int -> string): (b: RowText)
    ensures b.textDate == format(eventDate.date)
    ensures previousDate.None? <==> b.textDayDiff == FirstRecordText
    ensures previousDate.Some? ==> b.textDayDiff == IntervalText(DayDiff(eventDate, previousDate.value))
  {
    match previousDate
    case None => RowText(format(eventDate.date), FirstRecordText)
    case Some(p) =>
      var t := IntervalText(DayDiff(eventDate, p));
      assert t[0] != FirstRecordText[0];
      RowText(format(eventDate.date), t)
  }

  /** `onBindViewHolder`: the row at `position` bound against the row below it. */
  function OnBindViewHolder(items: seq<EventDate>, position: int, format: int -> string): (b: RowText)
    requires 0 <= position < |items|
    ensures b.textDate == format(items[position].date)
    ensures b.textDayDiff == FirstRecordText <==> position == |items| - 1
    ensures position < |items| - 1 ==> b.textDayDiff == IntervalText(DayDiff(items[position], items[position + 1]))
  {
    Bind(items[position], PreviousItem(items, position), format)
  }

  /** The interval a row displays, when it displays one. */
  function IntervalAt(items: seq<EventDate>, position: int): (r: Option<int>)
    requires 0 <= position < |items|
    ensures r.None? <==> position == |items| - 1
  {
    match PreviousItem(items, position)
    case None => None
    case Some(p) => Some(DayDiff(items[position], p))
  }

  /** The list is shown newest first; within the 32-bit day range the
      interval of every row but the last is a non-negative number of whole
      days, and exactly the truncated gap to the row below. */
  lemma DescendingIntervalsNonNegative(items: seq<EventDate>, position: int)
    requires forall i, j :: 0 <= i < j < |items| ==> items[i].date >= items[j].date
    requires 0 <= position < |items| - 1
    requires ToDays(items[position].date - items[position + 1].date) <= IntMax
    ensures IntervalAt(items, position).Some?
    ensures IntervalAt(items, position).value >= 0
    ensures IntervalAt(items, position).value == ToDays(items[position].date - items[position + 1].date)
  {
    var gap := items[position].date - items[position + 1].date;
    assert 0 <= gap;
  }

  /** The sequence read backwards. */
  function Reverse<T>(s: seq<T>): (r: seq<T>)
    ensures |r| == |s|
    ensures forall i :: 0 <= i < |s| ==> r[i] == s[|s| - 1 - i]
  {
    seq(|s|, i requires 0 <= i < |s| => s[|s| - 1 - i])
  }

  /** Gap `k` of a sequence of at least two timestamps. */
  lemma DayGapAt(s: seq<int>, k: int)
    requires 0 <= k < |s| - 1
    ensures |DayGaps(s)| == |s| - 1
    ensures DayGaps(s)[k] == ToDays(s[k + 1] - s[k])
  {
  }

  /** Read from the bottom up, the list shows the same gaps as the analysis
      screen: the interval of row p is gap n - 2 - p of the timestamps in
      oldest-first order (within the 32-bit day range). */
  lemma IntervalsAreDayGaps(items: seq<EventDate>, position: int)
    requires 0 <= position < |items| - 1
    requires IntMin <= ToDays(items[position].date - items[position + 1].date) <= IntMax
    ensures |DayGaps(Reverse(Timestamps(items)))| == |items| - 1
    ensures IntervalAt(items, position) == Some(DayGaps(Reverse(Timestamps(items)))[|items| - 2 - position])
  {
    var r := Reverse(Timestamps(items));
    var k := |items| - 2 - position;
    assert r[k] == items[position + 1].date;
    assert r[k + 1] == items[position].date;
    DayGapAt(r, k);
  }

  /** `DateDiffCallback.areItemsTheSame`: the same record. */
  predicate AreItemsTheSame(oldItem: EventDate, newItem: EventDate) {
    oldItem.id == newItem.id
  }

  /** `DateDiffCallback.areContentsTheSame`: the same instant. */
  predicate AreContentsTheSame(oldItem: EventDate, newItem: EventDate) {
    oldItem.date == newItem.date
  }

  /** The two checks together recognise an unchanged row exactly: a row is
      left alone iff it is the same record with the same date. */
  lemma DiffCallbackExact(oldItem: EventDate, newItem: EventDate)
    ensures AreItemsTheSame(oldItem, newItem) && AreContentsTheSame(oldItem, newItem) <==> oldItem == newItem
  {
  }

  /** `SwipeToDeleteCallback.onSwiped`: the record handed to the delete
      action, and none when the holder no longer has an adapter position. */
  function OnSwiped(items: seq<EventDate>, position: int): (r: Option<EventDate>)
    requires position == NoPosition || 0 <= position < |items|
    ensures r.None? <==> position == NoPosition
    ensures r.Some? ==> r.value in items && r.value == items[position]
  {
    if position != NoPosition then Some(items[position]) else None
  }
}
