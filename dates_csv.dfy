/**
 * The CSV export and import of the dates screen for the current event
 * type (`DatesViewModel.exportDataToCsv` / `importDataFromCsv`), and the
 * screen's add and delete actions.
 *
 * A file is its sequence of lines, without line terminators. The
 * `yyyy-MM-dd` formatting and parsing of `SimpleDateFormat` are the
 * parameters `format` and `parse`.
 */
module DatesCsv {
  import opened Time
  import opened Text
  import opened Optional
  import opened Sorting
  import opened Seqs
  import opened Entities
  import EventDateDao
  import EventTypeRepository

  const ExportHeader: string := "序号,日期,间隔天数,事件类型ID"
  const NoDataMessage: string := "没有数据可导出"

  datatype ExportResult = ExportSuccess(lines: seq<string>) | ExportFailure(errorMessage: string)

  /** The type new records go to: the active one, or 1 when none is active. */
  function CurrentEventTypeId(types: EventTypeRepository.Repository): (id: int)
    reads types, types.dao
    ensures types.ActiveEventType().Some? ==> id == types.ActiveEventType().value.id
    ensures types.ActiveEventType().None? ==> id == DefaultEventTypeId
  {
    match types.ActiveEventType()
    case Some(t) => t.id
    case None => DefaultEventTypeId
  }

  /** `addEventDate(date)`: a record of the current type is appended under a
      fresh key. */
  method AddEventDate(table: EventDateDao.EventDateTable, types: EventTypeRepository.Repository, date: int)
    requires table.Valid()
    modifies table
    ensures table.Valid()
    ensures table.lastId == old(table.lastId) + 1
    ensures table.rows == old(table.rows) + [EventDateEntity(table.lastId, date, "", CurrentEventTypeId(types))]
  {
    var eventTypeId := CurrentEventTypeId(types);
    ghost var before := table.rows;
    var id := table.InsertEventDate(NewEventDateEntity(date, eventTypeId));
    FilterAll(before, (x: EventDateEntity) => x.id != id);
  }

  /** `deleteEventDate(eventDate)`: the record with that key goes. */
  method DeleteEventDate(table: EventDateDao.EventDateTable, eventDate: EventDate)
    requires table.Valid()
    modifies table
    ensures table.Valid() && table.lastId == old(table.lastId)
    ensures table.rows == Filter(old(table.rows), (x: EventDateEntity) => x.id != eventDate.id)
  {
    table.DeleteEventDate(EventDateEntity(eventDate.id, eventDate.date, "", DefaultEventTypeId));
  }

  function ByDateAsc(): (EventDate, EventDate) -> bool {
    (a: EventDate, b: EventDate) => a.date <= b.date
  }

  /** `sortedBy { it.date }`: oldest first. */
  function SortByDate(dates: seq<EventDate>): (sorted: seq<EventDate>)
    ensures SortedBy(sorted, ByDateAsc())
    ensures multiset(sorted) == multiset(dates) && |sorted| == |dates|
  {
    SortBy(dates, ByDateAsc())
  }

  /** The interval column: 0 on the first row, otherwise the whole days
      elapsed since the previous row. */
  function DayDiffAt(sorted: seq<EventDate>, i: int): (d: int)
    requires 0 <= i < |sorted| && SortedBy(sorted, ByDateAsc())
    ensures d >= 0
    ensures i == 0 ==> d == 0
    ensures i > 0 ==> d * MsPerDay <= sorted[i].date - sorted[i - 1].date < (d + 1) * MsPerDay
  {
    if i > 0 then
      assert ByDateAsc()(sorted[i - 1], sorted[i]);
      ToDays(sorted[i].date - sorted[i - 1].date)
    else 0
  }

  /** The four fields of data row `i`: number, date, interval, type. */
  function ExportFields(sorted: seq<EventDate>, i: int, eventTypeId: int, format: int -> string): seq<string>
    requires 0 <= i < |sorted| && SortedBy(sorted, ByDateAsc())
  {
    [IntToString(i + 1), format(sorted[i].date), IntToString(DayDiffAt(sorted, i)), IntToString(eventTypeId)]
  }

  /** The exported file: the header, then one row per record, oldest first. */
  function ExportLines(dates: seq<EventDate>, eventTypeId: int, format: int -> string): (lines: seq<string>)
    ensures |lines| == |dates| + 1 && lines[0] == ExportHeader
    ensures forall i :: 0 <= i < |dates| ==>
      lines[i + 1] == Join(ExportFields(SortByDate(dates), i, eventTypeId, format), ',')
  {
    var sorted := SortByDate(dates);
    [ExportHeader] + seq(|sorted|, i requires 0 <= i < |sorted| => Join(ExportFields(sorted, i, eventTypeId, format), ','))
  }

  /** `exportDataToCsv` on the current records and type, which the caller
      supplies (`CurrentEventDates` and `CurrentEventTypeId`): nothing to
      export is an error, otherwise the rows are written one by one. */
  method ExportDataToCsv(dates: seq<EventDate>, eventTypeId: int, format: int -> string) returns (r: ExportResult)
    ensures dates == [] ==> r == ExportFailure(NoDataMessage)
    ensures dates != [] ==> r == ExportSuccess(ExportLines(dates, eventTypeId, format))
  {
    if dates == [] {
      return ExportFailure(NoDataMessage);
    }
    var sortedDates := SortByDate(dates);
    var lines := [ExportHeader];
    var index := 0;
    while index < |sortedDates|
      invariant 0 <= index <= |sortedDates|
      invariant |lines| == index + 1 && lines[0] == ExportHeader
      invariant forall k :: 1 <= k <= index ==> lines[k] == Join(ExportFields(sortedDates, k - 1, eventTypeId, format), ',')
    {
      var dayDiff := if index > 0 then ToDays(sortedDates[index].date - sortedDates[index - 1].date) else 0;
      assert dayDiff == DayDiffAt(sortedDates, index);
      lines := lines + [Join([IntToString(index + 1), format(sortedDates[index].date), IntToString(dayDiff), IntToString(eventTypeId)], ',')];
      index := index + 1;
    }
    ExportLinesMatch(dates, eventTypeId, format, lines);
    return ExportSuccess(lines);
  }

  /** Lines that hold the header and then row k - 1 at each place k are
      the exported file. */
  lemma ExportLinesMatch(dates: seq<EventDate>, eventTypeId: int, format: int -> string, lines: seq<string>)
    requires |lines| == |dates| + 1 && lines[0] == ExportHeader
    requires forall k :: 1 <= k <= |dates| ==> lines[k] == Join(ExportFields(SortByDate(dates), k - 1, eventTypeId, format), ',')
    ensures lines == ExportLines(dates, eventTypeId, format)
  {
    var expected := ExportLines(dates, eventTypeId, format);
    forall k | 1 <= k < |lines| ensures lines[k] == expected[k] {
      assert expected[(k - 1) + 1] == Join(ExportFields(SortByDate(dates), k - 1, eventTypeId, format), ',');
    }
  }

  /** A record the import inserts, with the date text it was read from. */
  datatype ImportedRow = ImportedRow(dateStr: string, date: int, eventTypeId: int)

  /** The import's running state: the three counters, the set of known
      date texts, and the records inserted so far. */
  datatype ImportState = ImportState(imported: nat, duplicates: nat, errors: nat, seen: set<string>, rows: seq<ImportedRow>)

  datatype ImportResult = ImportResult(successCount: nat, errorCount: nat, duplicateCount: nat, errorMessage: Option<string>)

  /** The event-type column: the fourth field when it is present and reads
      as an `Int`, otherwise the current type. */
  function TypeIdField(parts: seq<string>, currentEventTypeId: int): int {
    if |parts| >= 4 then
      match ParseInt(Trim(parts[3]))
      case Some(v) => v
      case None => currentEventTypeId
    else currentEventTypeId
  }

  /** One line after the header: short lines are skipped; a known date text
      is a duplicate; an unreadable date is an error; otherwise the record is
      inserted and its date text becomes known. */
  function ImportLine(st: ImportState, line: string, currentEventTypeId: int, parse: string -> Option<int>): (r: ImportState)
    ensures |Split(line, ',')| < 2 ==> r == st
    ensures |Split(line, ',')| >= 2 ==> r.imported + r.duplicates + r.errors == st.imported + st.duplicates + st.errors + 1
    ensures r.imported + |st.rows| == st.imported + |r.rows|
    ensures |st.rows| <= |r.rows| <= |st.rows| + 1 && r.rows[..|st.rows|] == st.rows
    ensures |r.rows| == |st.rows| ==> r.seen == st.seen
    ensures |r.rows| > |st.rows| ==> (r.rows[|st.rows|].dateStr !in st.seen
      && r.seen == st.seen + {r.rows[|st.rows|].dateStr})
  {
    var parts := Split(line, ',');
    if |parts| < 2 then st
    else
      var dateStr := Trim(parts[1]);
      if dateStr in st.seen then st.(duplicates := st.duplicates + 1)
      else
        match parse(dateStr)
        case None => st.(errors := st.errors + 1)
        case Some(date) =>
          st.(imported := st.imported + 1, seen := st.seen + {dateStr},
              rows := st.rows + [ImportedRow(dateStr, date, TypeIdField(parts, currentEventTypeId))])
  }

  /** The number of lines with at least two fields. */
  function CountedLines(lines: seq<string>): (n: nat)
    ensures n <= |lines|
  {
    if lines == [] then 0
    else CountedLines(lines[..|lines| - 1]) + (if |Split(lines[|lines| - 1], ',')| >= 2 then 1 else 0)
  }

  /** The lines folded in order. Every counted line moves exactly one
      counter, every insert is counted as imported, and no date text is
      inserted twice or when it was known at the start. */
  function ImportLines(st: ImportState, lines: seq<string>, currentEventTypeId: int, parse: string -> Option<int>): (r: ImportState)
    ensures r.imported + r.duplicates + r.errors == st.imported + st.duplicates + st.errors + CountedLines(lines)
    ensures r.imported + |st.rows| == st.imported + |r.rows|
    ensures |st.rows| <= |r.rows| && r.rows[..|st.rows|] == st.rows
    ensures st.seen <= r.seen
    ensures forall k :: |st.rows| <= k < |r.rows| ==> r.rows[k].dateStr !in st.seen && r.rows[k].dateStr in r.seen
    ensures forall j, k :: |st.rows| <= j < k < |r.rows| ==> r.rows[j].dateStr != r.rows[k].dateStr
    decreases |lines|
  {
    if lines == [] then st
    else
      var mid := ImportLines(st, lines[..|lines| - 1], currentEventTypeId, parse);
      var r := ImportLine(mid, lines[|lines| - 1], currentEventTypeId, parse);
      InsertsStayFresh(st, mid, r);
      r
  }

  /** One more step of the fold keeps the inserted rows an extension of
      the initial ones, each with a date text fresh at the start and
      distinct from the others. */
  lemma InsertsStayFresh(st: ImportState, mid: ImportState, r: ImportState)
    requires |st.rows| <= |mid.rows| && mid.rows[..|st.rows|] == st.rows
    requires st.seen <= mid.seen
    requires forall k :: |st.rows| <= k < |mid.rows| ==> mid.rows[k].dateStr !in st.seen && mid.rows[k].dateStr in mid.seen
    requires forall j, k :: |st.rows| <= j < k < |mid.rows| ==> mid.rows[j].dateStr != mid.rows[k].dateStr
    requires |mid.rows| <= |r.rows| <= |mid.rows| + 1 && r.rows[..|mid.rows|] == mid.rows
    requires |r.rows| == |mid.rows| ==> r.seen == mid.seen
    requires |r.rows| > |mid.rows| ==> (r.rows[|mid.rows|].dateStr !in mid.seen
      && r.seen == mid.seen + {r.rows[|mid.rows|].dateStr})
    ensures |st.rows| <= |r.rows| && r.rows[..|st.rows|] == st.rows
    ensures st.seen <= r.seen
    ensures forall k :: |st.rows| <= k < |r.rows| ==> r.rows[k].dateStr !in st.seen && r.rows[k].dateStr in r.seen
    ensures forall j, k :: |st.rows| <= j < k < |r.rows| ==> r.rows[j].dateStr != r.rows[k].dateStr
  {
    assert forall k :: |st.rows| <= k < |mid.rows| ==> r.rows[k] == mid.rows[k];
    assert r.rows[..|st.rows|] == r.rows[..|mid.rows|][..|st.rows|];
  }

  /** The state after reading a whole file against the known date texts:
      the first line is the header and is skipped. */
  function ImportOf(lines: seq<string>, existing: set<string>, currentEventTypeId: int, parse: string -> Option<int>): (r: ImportState)
    ensures r.imported == |r.rows|
    ensures r.imported + r.duplicates + r.errors == if lines == [] then 0 else CountedLines(lines[1..])
    ensures forall k :: 0 <= k < |r.rows| ==> r.rows[k].dateStr !in existing
    ensures forall j, k :: 0 <= j < k < |r.rows| ==> r.rows[j].dateStr != r.rows[k].dateStr
  {
    var init := ImportState(0, 0, 0, existing, []);
    if lines == [] then init else ImportLines(init, lines[1..], currentEventTypeId, parse)
  }

  /** The rows the table receives for the inserted records: fresh keys
      after `lastId`, in order, with an empty note. */
  function NewRows(rows: seq<ImportedRow>, lastId: int): (es: seq<EventDateEntity>)
    ensures |es| == |rows|
    ensures forall k :: 0 <= k < |rows| ==> es[k] == EventDateEntity(lastId + k + 1, rows[k].date, "", rows[k].eventTypeId)
  {
    seq(|rows|, k requires 0 <= k < |rows| => EventDateEntity(lastId + k + 1, rows[k].date, "", rows[k].eventTypeId))
  }

  /** The date texts of every stored record. */
  function ExistingDateSet(table: EventDateDao.EventDateTable, format: int -> string): set<string>
    reads table
  {
    set e | e in table.rows :: format(e.date)
  }

  lemma NewRowsAppend(rows: seq<ImportedRow>, x: ImportedRow, lastId: int)
    ensures NewRows(rows + [x], lastId) == NewRows(rows, lastId) + [EventDateEntity(lastId + |rows| + 1, x.date, "", x.eventTypeId)]
  {
  }

  /** `eventDateRepository.insertEventDate(date, eventTypeId)` for an
      imported record: it lands under the next fresh key. */
  method InsertImported(table: EventDateDao.EventDateTable, rows: seq<ImportedRow>, x: ImportedRow,
                        ghost lastIdBefore: int, ghost before: seq<EventDateEntity>)
    requires table.Valid() && table.lastId == lastIdBefore + |rows|
    requires table.rows == before + NewRows(rows, lastIdBefore)
    modifies table
    ensures table.Valid() && table.lastId == lastIdBefore + |rows| + 1
    ensures table.rows == before + NewRows(rows + [x], lastIdBefore)
  {
    ghost var rowsBefore := table.rows;
    var id := table.InsertEventDate(NewEventDateEntity(x.date, x.eventTypeId));
    FilterAll(rowsBefore, (e: EventDateEntity) => e.id != id);
    ghost var added := EventDateEntity(lastIdBefore + |rows| + 1, x.date, "", x.eventTypeId);
    assert table.rows == rowsBefore + [added];
    NewRowsAppend(rows, x, lastIdBefore);
    AppendAssoc(before, NewRows(rows, lastIdBefore), added);
  }

  lemma AppendAssoc<T>(a: seq<T>, b: seq<T>, x: T)
    ensures a + b + [x] == a + (b + [x])
  {
  }

  /** The body of the read loop for one line, on the live counters, the
      set of known date texts and the table. */
  method ImportCsvLine(line: string, table: EventDateDao.EventDateTable, currentEventTypeId: int,
                       parse: string -> Option<int>, st: ImportState, ghost lastIdBefore: int,
                       ghost before: seq<EventDateEntity>)
    returns (st': ImportState)
    requires table.Valid() && table.lastId == lastIdBefore + |st.rows|
    requires table.rows == before + NewRows(st.rows, lastIdBefore)
    modifies table
    ensures st' == ImportLine(st, line, currentEventTypeId, parse)
    ensures table.Valid() && table.lastId == lastIdBefore + |st'.rows|
    ensures table.rows == before + NewRows(st'.rows, lastIdBefore)
  {
    var parts := Split(line, ',');
    if |parts| < 2 {
      return st;
    }
    var dateStr := Trim(parts[1]);
    if dateStr in st.seen {
      return st.(duplicates := st.duplicates + 1);
    }
    var date := parse(dateStr);
    if date.None? {
      return st.(errors := st.errors + 1);
    }
    var row := ImportedRow(dateStr, date.value, TypeIdField(parts, currentEventTypeId));
    st' := st.(imported := st.imported + 1, seen := st.seen + {dateStr}, rows := st.rows + [row]);
    assert st' == ImportLine(st, line, currentEventTypeId, parse);
    InsertImported(table, st.rows, row, lastIdBefore, before);
  }

  /** `importDataFromCsv` on the file's lines: every record is checked
      against the dates of every stored record and of the lines before it,
      and inserted under its type. */
  method ImportDataFromCsv(lines: seq<string>, table: EventDateDao.EventDateTable, types: EventTypeRepository.Repository,
                           format: int -> string, parse: string -> Option<int>)
    returns (result: ImportResult)
    requires table.Valid()
    modifies table
    ensures table.Valid()
    ensures var st := ImportOf(lines, old(ExistingDateSet(table, format)), CurrentEventTypeId(types), parse);
      && result == ImportResult(st.imported, st.errors, st.duplicates, None)
      && table.lastId == old(table.lastId) + |st.rows|
      && table.rows == old(table.rows) + NewRows(st.rows, old(table.lastId))
  {
    var currentEventTypeId := CurrentEventTypeId(types);
    var existingDateSet := ExistingDateSet(table, format);
    ghost var before := table.rows;
    ghost var lastIdBefore := table.lastId;
    var st := ImportState(0, 0, 0, existingDateSet, []);
    if lines == [] {
      return ImportResult(0, 0, 0, None);
    }
    var data := lines[1..];
    ghost var init := st;
    var i := 0;
    while i < |data|
      invariant 0 <= i <= |data|
      invariant st == ImportLines(init, data[..i], currentEventTypeId, parse)
      invariant table.Valid() && table.lastId == lastIdBefore + |st.rows|
      invariant table.rows == before + NewRows(st.rows, lastIdBefore)
    {
      st := ImportCsvLine(data[i], table, currentEventTypeId, parse, st, lastIdBefore, before);
      ImportLinesStep(init, data, i + 1, currentEventTypeId, parse);
      i := i + 1;
    }
    assert data[..i] == data;
    return ImportResult(st.imported, st.errors, st.duplicates, None);
  }

  /** A formatted date that survives `split(",")` and `trim()`: no comma,
      no whitespace at either end. */
  predicate CleanDateText(s: string) {
    s != [] && ',' !in s && !IsWhitespace(s[0]) && !IsWhitespace(s[|s| - 1])
  }

  /** The record the import makes of exported row `i`. */
  function ReadBack(sorted: seq<EventDate>, i: int, eventTypeId: int, format: int -> string, parse: string -> Option<int>): ImportedRow
    requires 0 <= i < |sorted| && parse(format(sorted[i].date)).Some?
  {
    ImportedRow(format(sorted[i].date), parse(format(sorted[i].date)).value, eventTypeId)
  }

  /** Dates whose texts are clean, parseable and pairwise distinct. */
  predicate ReadableDates(sorted: seq<EventDate>, format: int -> string, parse: string -> Option<int>) {
    && (forall i :: 0 <= i < |sorted| ==> CleanDateText(format(sorted[i].date)) && parse(format(sorted[i].date)).Some?)
    && (forall i, j :: 0 <= i < j < |sorted| ==> format(sorted[i].date) != format(sorted[j].date))
  }

  /** Four comma-free fields joined with commas split back into themselves. */
  lemma SplitJoinFour(a: string, b: string, c: string, d: string)
    requires ',' !in a && ',' !in b && ',' !in c && ',' !in d
    ensures Split(Join([a, b, c, d], ','), ',') == [a, b, c, d]
  {
    var parts := [a, b, c, d];
    assert forall k :: 0 <= k < |parts| ==> ',' !in parts[k] by {
      forall k | 0 <= k < |parts| ensures ',' !in parts[k] {
        if k == 0 { assert parts[k] == a; }
        else if k == 1 { assert parts[k] == b; }
        else if k == 2 { assert parts[k] == c; }
        else { assert parts[k] == d; }
      }
    }
    SplitJoin(parts, ',');
  }

  /** The fields of an exported row come back from `split(",")`, and the
      date and type columns survive `trim()`. */
  lemma ExportedRowFields(sorted: seq<EventDate>, i: int, eventTypeId: int, format: int -> string)
    requires SortedBy(sorted, ByDateAsc()) && 0 <= i < |sorted| && IntMin <= eventTypeId <= IntMax
    requires CleanDateText(format(sorted[i].date))
    ensures var parts := Split(Join(ExportFields(sorted, i, eventTypeId, format), ','), ',');
      && |parts| == 4 && Trim(parts[1]) == format(sorted[i].date)
      && ParseInt(Trim(parts[3])) == Some(eventTypeId)
  {
    var a := IntToString(i + 1);
    var b := format(sorted[i].date);
    var c := IntToString(DayDiffAt(sorted, i));
    var d := IntToString(eventTypeId);
    assert ExportFields(sorted, i, eventTypeId, format) == [a, b, c, d];
    IntToStringClean(i + 1);
    IntToStringClean(DayDiffAt(sorted, i));
    IntToStringClean(eventTypeId);
    SplitJoinFour(a, b, c, d);
    TrimClean(b);
    TrimClean(d);
    ParseIntOfIntToString(eventTypeId);
  }

  /** A line whose date column is new and readable is inserted, with the
      type its fourth column gives. */
  lemma ImportLineInserts(st: ImportState, line: string, currentEventTypeId: int, parse: string -> Option<int>,
                          dateStr: string, eventTypeId: int)
    requires var parts := Split(line, ',');
      |parts| == 4 && Trim(parts[1]) == dateStr && ParseInt(Trim(parts[3])) == Some(eventTypeId)
    requires dateStr !in st.seen && parse(dateStr).Some?
    ensures ImportLine(st, line, currentEventTypeId, parse)
        == st.(imported := st.imported + 1, seen := st.seen + {dateStr},
               rows := st.rows + [ImportedRow(dateStr, parse(dateStr).value, eventTypeId)])
  {
  }

  /** A row written by the export is read back by the import with the same
      date text and type id, whatever the current type. */
  lemma ExportedRowReadsBack(sorted: seq<EventDate>, i: int, eventTypeId: int, format: int -> string,
                             st: ImportState, currentEventTypeId: int, parse: string -> Option<int>)
    requires SortedBy(sorted, ByDateAsc()) && 0 <= i < |sorted| && IntMin <= eventTypeId <= IntMax
    requires CleanDateText(format(sorted[i].date)) && parse(format(sorted[i].date)).Some?
    requires format(sorted[i].date) !in st.seen
    ensures ImportLine(st, Join(ExportFields(sorted, i, eventTypeId, format), ','), currentEventTypeId, parse)
        == st.(imported := st.imported + 1, seen := st.seen + {format(sorted[i].date)},
               rows := st.rows + [ReadBack(sorted, i, eventTypeId, format, parse)])
  {
    ExportedRowFields(sorted, i, eventTypeId, format);
    ImportLineInserts(st, Join(ExportFields(sorted, i, eventTypeId, format), ','), currentEventTypeId, parse,
                      format(sorted[i].date), eventTypeId);
  }

  /** Equal entries at two positions occur at least twice. */
  lemma TwoPositions<T>(s: seq<T>, i: int, j: int)
    requires 0 <= i < j < |s| && s[i] == s[j]
    ensures multiset(s)[s[i]] >= 2
  {
    assert s == s[..j] + s[j..];
    assert s[i] in s[..j];
    assert s[j] in s[j..];
    assert multiset(s)[s[i]] == multiset(s[..j])[s[i]] + multiset(s[j..])[s[i]];
  }

  /** An entry occurring twice sits at two positions. */
  lemma {:induction false} TwoOccurrences<T>(s: seq<T>, x: T)
    requires multiset(s)[x] >= 2
    ensures exists p, q :: 0 <= p < q < |s| && s[p] == x && s[q] == x
    decreases |s|
  {
    assert s == [s[0]] + s[1..];
    assert multiset(s)[x] == multiset([s[0]])[x] + multiset(s[1..])[x];
    if s[0] == x {
      assert x in multiset(s[1..]);
      var q :| 0 <= q < |s[1..]| && s[1..][q] == x;
      assert s[q + 1] == x;
    } else {
      TwoOccurrences(s[1..], x);
      var p, q :| 0 <= p < q < |s[1..]| && s[1..][p] == x && s[1..][q] == x;
      assert s[p + 1] == x && s[q + 1] == x;
    }
  }

  /** Reordering keeps the formatted dates of distinct positions distinct. */
  lemma DistinctTextsPermuted(a: seq<EventDate>, b: seq<EventDate>, format: int -> string)
    requires multiset(a) == multiset(b)
    requires forall i, j :: 0 <= i < j < |a| ==> format(a[i].date) != format(a[j].date)
    ensures forall i, j :: 0 <= i < j < |b| ==> format(b[i].date) != format(b[j].date)
  {
    forall i, j | 0 <= i < j < |b| ensures format(b[i].date) != format(b[j].date) {
      if b[i] == b[j] {
        TwoPositions(b, i, j);
        TwoOccurrences(a, b[i]);
      } else {
        assert b[i] in multiset(a) && b[j] in multiset(a);
        var p :| 0 <= p < |a| && a[p] == b[i];
        var q :| 0 <= q < |a| && a[q] == b[j];
        assert p != q;
      }
    }
  }

  /** Reading one more line of the file extends the fold by one step. */
  lemma ImportLinesStep(st: ImportState, lines: seq<string>, k: int, currentEventTypeId: int, parse: string -> Option<int>)
    requires 0 < k <= |lines|
    ensures ImportLines(st, lines[..k], currentEventTypeId, parse)
      == ImportLine(ImportLines(st, lines[..k - 1], currentEventTypeId, parse), lines[k - 1], currentEventTypeId, parse)
  {
    assert lines[..k][..k - 1] == lines[..k - 1];
  }

  lemma {:induction false} RoundTripPrefix(sorted: seq<EventDate>, data: seq<string>, eventTypeId: int, currentEventTypeId: int,
                                           format: int -> string, parse: string -> Option<int>, k: int)
    requires SortedBy(sorted, ByDateAsc()) && IntMin <= eventTypeId <= IntMax
    requires ReadableDates(sorted, format, parse)
    requires |data| == |sorted| && forall i :: 0 <= i < |sorted| ==> data[i] == Join(ExportFields(sorted, i, eventTypeId, format), ',')
    requires 0 <= k <= |sorted|
    ensures var st := ImportLines(ImportState(0, 0, 0, {}, []), data[..k], currentEventTypeId, parse);
      && st.imported == k && st.duplicates == 0 && st.errors == 0 && |st.rows| == k
      && (forall i :: k <= i < |sorted| ==> format(sorted[i].date) !in st.seen)
      && forall i :: 0 <= i < k ==> st.rows[i] == ReadBack(sorted, i, eventTypeId, format, parse)
    decreases k
  {
    if k > 0 {
      RoundTripPrefix(sorted, data, eventTypeId, currentEventTypeId, format, parse, k - 1);
      var init := ImportState(0, 0, 0, {}, []);
      ImportLinesStep(init, data, k, currentEventTypeId, parse);
      var mid := ImportLines(init, data[..k - 1], currentEventTypeId, parse);
      ExportedRowReadsBack(sorted, k - 1, eventTypeId, format, mid, currentEventTypeId, parse);
      var st := ImportLines(init, data[..k], currentEventTypeId, parse);
      var last := ReadBack(sorted, k - 1, eventTypeId, format, parse);
      assert st.rows == mid.rows + [last];
      forall i | 0 <= i < k
        ensures st.rows[i] == ReadBack(sorted, i, eventTypeId, format, parse)
      {
        if i < k - 1 {
          assert st.rows[i] == mid.rows[i];
        }
      }
    }
  }

  /** An exported file, header included, reads back row by row. */
  lemma RoundTripFile(sorted: seq<EventDate>, header: string, data: seq<string>, eventTypeId: int, currentEventTypeId: int,
                      format: int -> string, parse: string -> Option<int>)
    requires SortedBy(sorted, ByDateAsc()) && IntMin <= eventTypeId <= IntMax
    requires ReadableDates(sorted, format, parse)
    requires |data| == |sorted| && forall i :: 0 <= i < |sorted| ==> data[i] == Join(ExportFields(sorted, i, eventTypeId, format), ',')
    ensures var st := ImportOf([header] + data, {}, currentEventTypeId, parse);
      && st.imported == |sorted| && st.duplicates == 0 && st.errors == 0 && |st.rows| == |sorted|
      && forall i :: 0 <= i < |sorted| ==> st.rows[i] == ReadBack(sorted, i, eventTypeId, format, parse)
  {
    assert ([header] + data)[1..] == data;
    RoundTripPrefix(sorted, data, eventTypeId, currentEventTypeId, format, parse, |sorted|);
    assert data[..|sorted|] == data;
  }

  /** The sorted records keep the clean, parseable and distinct texts. */
  lemma SortedDatesReadable(dates: seq<EventDate>, format: int -> string, parse: string -> Option<int>)
    requires forall d :: d in dates ==> CleanDateText(format(d.date)) && parse(format(d.date)).Some?
    requires forall i, j :: 0 <= i < j < |dates| ==> format(dates[i].date) != format(dates[j].date)
    ensures ReadableDates(SortByDate(dates), format, parse)
  {
    var sorted := SortByDate(dates);
    forall i | 0 <= i < |sorted|
      ensures CleanDateText(format(sorted[i].date)) && parse(format(sorted[i].date)).Some?
    {
      assert sorted[i] in multiset(dates);
    }
    DistinctTextsPermuted(dates, sorted, format);
  }

  /** The exported file is its header followed by one row per record. */
  lemma ExportLinesData(dates: seq<EventDate>, eventTypeId: int, format: int -> string)
    ensures var lines := ExportLines(dates, eventTypeId, format);
      && lines == [lines[0]] + lines[1..] && |lines[1..]| == |SortByDate(dates)|
      && forall i :: 0 <= i < |dates| ==> lines[1..][i] == Join(ExportFields(SortByDate(dates), i, eventTypeId, format), ',')
  {
    var lines := ExportLines(dates, eventTypeId, format);
    assert forall i :: 1 <= i < |lines| ==> lines[1..][i - 1] == lines[i];
  }

  /** Exporting records whose dates format to distinct, clean, parseable
      texts and importing the file into an empty table reads every row
      back, oldest first, with its date text and the exported type id, and
      counts no duplicate and no error. */
  lemma ExportImportRoundTrip(dates: seq<EventDate>, eventTypeId: int, currentEventTypeId: int,
                              format: int -> string, parse: string -> Option<int>)
    requires IntMin <= eventTypeId <= IntMax
    requires forall d :: d in dates ==> CleanDateText(format(d.date)) && parse(format(d.date)).Some?
    requires forall i, j :: 0 <= i < j < |dates| ==> format(dates[i].date) != format(dates[j].date)
    ensures var sorted := SortByDate(dates);
      var st := ImportOf(ExportLines(dates, eventTypeId, format), {}, currentEventTypeId, parse);
      && st.imported == |dates| && st.duplicates == 0 && st.errors == 0 && |st.rows| == |dates|
      && forall i :: 0 <= i < |dates| ==>
        st.rows[i].dateStr == format(sorted[i].date) && st.rows[i].eventTypeId == eventTypeId
        && Some(st.rows[i].date) == parse(format(sorted[i].date))
  {
    var sorted := SortByDate(dates);
    SortedDatesReadable(dates, format, parse);
    var lines := ExportLines(dates, eventTypeId, format);
    ExportLinesData(dates, eventTypeId, format);
    RoundTripFile(sorted, lines[0], lines[1..], eventTypeId, currentEventTypeId, format, parse);
  }
}
