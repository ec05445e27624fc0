/**
 * The CSV export and import across every event type
 * (`DatesViewModel.exportAllEventTypesData` / `importAllEventTypesData`).
 * Each row names its event type; the import maps names to types and
 * creates, once per name, the types it does not know.
 *
 * As in the single-type CSV, a file is its sequence of lines and the
 * `yyyy-MM-dd` formatting and parsing are the parameters `format` and
 * `parse`.
 */
module DatesCsvAll {
  import opened Time
  import opened Text
  import opened Optional
  import opened Sorting
  import opened Seqs
  import opened Entities
  import EventDateDao
  import EventTypeDao
  import EventTypeRepository
  import opened DatesCsv

  const ExportAllHeader: string := "事件类型ID,事件类型名称,日期,间隔天数"
  const NoTypesMessage: string := "没有事件类型可导出"

  /** The colours a type created by the import is given one of. */
  const ColorOptions: seq<string> := [
    "#000000", "#FF5252", "#FF4081", "#E040FB", "#7C4DFF", "#536DFE",
    "#448AFF", "#40C4FF", "#18FFFF", "#64FFDA", "#69F0AE", "#B2FF59",
    "#EEFF41", "#FFFF00", "#FFD740", "#FFAB40", "#FF6E40"]

  // ---------------------------------------------------------------- export

  /** `getEventDatesByTypeSync(id).sortedBy { it.date }`: the stored records
      of that type, oldest first. */
  function TypeDates(table: EventDateDao.EventDateTable, eventTypeId: int): (sorted: seq<EventDate>)
    reads table
    ensures SortedBy(sorted, ByDateAsc())
  {
    SortByDate(ToEventDates(table.GetEventDatesByType(eventTypeId)))
  }

  /** The dates of a type are exactly the stored records of that type. */
  lemma TypeDatesMembers(table: EventDateDao.EventDateTable, eventTypeId: int)
    ensures var sorted := TypeDates(table, eventTypeId);
      && (forall e :: e in table.rows && e.eventTypeId == eventTypeId ==> ToEventDate(e) in sorted)
      && (forall d :: d in sorted ==> exists e :: e in table.rows && e.eventTypeId == eventTypeId && ToEventDate(e) == d)
  {
    var rows := table.GetEventDatesByType(eventTypeId);
    var dates := ToEventDates(rows);
    var sorted := SortByDate(dates);
    forall e | e in table.rows && e.eventTypeId == eventTypeId
      ensures ToEventDate(e) in sorted
    {
      var i :| 0 <= i < |rows| && rows[i] == e;
      assert dates[i] in multiset(sorted);
    }
    forall d | d in sorted
      ensures exists e :: e in table.rows && e.eventTypeId == eventTypeId && ToEventDate(e) == d
    {
      assert d in multiset(dates);
      var i :| 0 <= i < |dates| && dates[i] == d;
      assert rows[i] in rows;
    }
  }

  /** The four fields of a row: type id, type name, date, interval. */
  function AllFields(t: EventType, sorted: seq<EventDate>, i: int, format: int -> string): seq<string>
    requires 0 <= i < |sorted| && SortedBy(sorted, ByDateAsc())
  {
    [IntToString(t.id), t.name, format(sorted[i].date), IntToString(DayDiffAt(sorted, i))]
  }

  /** The rows of one type's block, one per date. */
  function TypeBlock(t: EventType, sorted: seq<EventDate>, format: int -> string): (block: seq<string>)
    requires SortedBy(sorted, ByDateAsc())
    ensures |block| == |sorted|
    ensures forall i :: 0 <= i < |sorted| ==> block[i] == Join(AllFields(t, sorted, i, format), ',')
  {
    seq(|sorted|, i requires 0 <= i < |sorted| => Join(AllFields(t, sorted, i, format), ','))
  }

  /** The data rows of the file: the types' blocks one after another. */
  function AllTypesBlocks(types: seq<EventType>, table: EventDateDao.EventDateTable, format: int -> string): seq<string>
    reads table
  {
    if types == [] then []
    else
      var t := types[|types| - 1];
      AllTypesBlocks(types[..|types| - 1], table, format) + TypeBlock(t, TypeDates(table, t.id), format)
  }

  /** Every stored record of an exported type appears in the file, in the
      row its type's block gives its date. */
  lemma {:induction false} EveryRecordExported(types: seq<EventType>, table: EventDateDao.EventDateTable,
                                               format: int -> string, t: EventType, e: EventDateEntity)
    requires t in types && e in table.rows && e.eventTypeId == t.id
    ensures var sorted := TypeDates(table, t.id);
      exists i :: 0 <= i < |sorted| && sorted[i] == ToEventDate(e)
        && Join(AllFields(t, sorted, i, format), ',') in AllTypesBlocks(types, table, format)
    decreases |types|
  {
    var sorted := TypeDates(table, t.id);
    var last := types[|types| - 1];
    var init := types[..|types| - 1];
    assert types == init + [last];
    if t == last {
      TypeDatesMembers(table, t.id);
      var i :| 0 <= i < |sorted| && sorted[i] == ToEventDate(e);
      var block := TypeBlock(t, sorted, format);
      assert block[i] in block;
    } else {
      assert t in init;
      EveryRecordExported(init, table, format, t, e);
    }
  }

  /** Every data row of the file belongs to an exported type and to one of
      that type's stored records. */
  lemma {:induction false} EveryRowStored(types: seq<EventType>, table: EventDateDao.EventDateTable,
                                          format: int -> string, line: string)
    requires line in AllTypesBlocks(types, table, format)
    ensures exists t, i :: (t in types && 0 <= i < |TypeDates(table, t.id)|
      && line == Join(AllFields(t, TypeDates(table, t.id), i, format), ','))
    decreases |types|
  {
    var last := types[|types| - 1];
    var init := types[..|types| - 1];
    var block := TypeBlock(last, TypeDates(table, last.id), format);
    if line in block {
      var i :| 0 <= i < |block| && block[i] == line;
      assert last in types;
    } else {
      EveryRowStored(init, table, format, line);
      var t, i :| t in init && 0 <= i < |TypeDates(table, t.id)|
        && line == Join(AllFields(t, TypeDates(table, t.id), i, format), ',');
      assert t in types;
    }
  }

  /** The blocks of the first k + 1 types are those of the first k types
      followed by the block of type k. */
  lemma AllTypesBlocksStep(types: seq<EventType>, k: int, table: EventDateDao.EventDateTable, format: int -> string)
    requires 0 <= k < |types|
    ensures AllTypesBlocks(types[..k + 1], table, format)
      == AllTypesBlocks(types[..k], table, format) + TypeBlock(types[k], TypeDates(table, types[k].id), format)
  {
    var next := types[..k + 1];
    assert next[..|next| - 1] == types[..k];
    assert next[|next| - 1] == types[k];
  }

  lemma ConcatStep<T>(lines: seq<T>, head: seq<T>, done: seq<T>, block: seq<T>, whole: seq<T>)
    requires lines == head + done && whole == done + block
    ensures lines + block == head + whole
  {
  }

  /** The inner loop of the export: one row per date of the type. */
  method AppendTypeBlock(lines: seq<string>, eventType: EventType, dates: seq<EventDate>, format: int -> string)
    returns (r: seq<string>)
    requires SortedBy(dates, ByDateAsc())
    ensures r == lines + TypeBlock(eventType, dates, format)
  {
    r := lines;
    var index := 0;
    while index < |dates|
      invariant 0 <= index <= |dates|
      invariant |r| == |lines| + index && r[..|lines|] == lines
      invariant forall j :: 0 <= j < index ==> r[|lines| + j] == Join(AllFields(eventType, dates, j, format), ',')
    {
      var dayDiff := if index > 0 then ToDays(dates[index].date - dates[index - 1].date) else 0;
      r := r + [Join([IntToString(eventType.id), eventType.name, format(dates[index].date), IntToString(dayDiff)], ',')];
      index := index + 1;
    }
  }

  /** The outer loop of the export: each type's block in turn. */
  method ExportAllRows(eventTypes: seq<EventType>, table: EventDateDao.EventDateTable, format: int -> string)
    returns (lines: seq<string>)
    ensures lines == [ExportAllHeader] + AllTypesBlocks(eventTypes, table, format)
  {
    lines := [ExportAllHeader];
    var k := 0;
    while k < |eventTypes|
      invariant 0 <= k <= |eventTypes|
      invariant lines == [ExportAllHeader] + AllTypesBlocks(eventTypes[..k], table, format)
    {
      lines := AppendNextType(lines, eventTypes, k, table, format);
      k := k + 1;
    }
    assert eventTypes[..k] == eventTypes;
  }

  /** One turn of the outer loop: type k's dates, oldest first, appended
      after the rows of the types before it. */
  method AppendNextType(lines: seq<string>, eventTypes: seq<EventType>, k: int, table: EventDateDao.EventDateTable,
                        format: int -> string)
    returns (r: seq<string>)
    requires 0 <= k < |eventTypes|
    requires lines == [ExportAllHeader] + AllTypesBlocks(eventTypes[..k], table, format)
    ensures r == [ExportAllHeader] + AllTypesBlocks(eventTypes[..k + 1], table, format)
  {
    var eventType := eventTypes[k];
    r := AppendTypeBlock(lines, eventType, TypeDates(table, eventType.id), format);
    AllTypesBlocksStep(eventTypes, k, table, format);
    ConcatStep(lines, [ExportAllHeader], AllTypesBlocks(eventTypes[..k], table, format),
               TypeBlock(eventType, TypeDates(table, eventType.id), format), AllTypesBlocks(eventTypes[..k + 1], table, format));
  }

  /** `exportAllEventTypesData`: no type to export is an error; otherwise
      the header, then each type (by name) with its dates, oldest first. */
  method ExportAllEventTypesData(types: EventTypeRepository.Repository, table: EventDateDao.EventDateTable,
                                 format: int -> string)
    returns (r: ExportResult)
    ensures types.AllEventTypes() == [] ==> r == ExportFailure(NoTypesMessage)
    ensures types.AllEventTypes() != [] ==>
      r == ExportSuccess([ExportAllHeader] + AllTypesBlocks(types.AllEventTypes(), table, format))
  {
    var eventTypes := types.AllEventTypes();
    if eventTypes == [] {
      return ExportFailure(NoTypesMessage);
    }
    var lines := ExportAllRows(eventTypes, table, format);
    return ExportSuccess(lines);
  }

  /** A row of the export, read by the import: when the type name holds no
      comma and the date text is clean, the row splits into its four
      fields, the name field trims to the trimmed name, and the date field
      trims to the date text. */
  lemma ExportedAllRowFields(t: EventType, sorted: seq<EventDate>, i: int, format: int -> string)
    requires 0 <= i < |sorted| && SortedBy(sorted, ByDateAsc())
    requires ',' !in t.name && CleanDateText(format(sorted[i].date))
    ensures var parts := Split(Join(AllFields(t, sorted, i, format), ','), ',');
      && parts == AllFields(t, sorted, i, format)
      && Trim(parts[1]) == Trim(t.name) && Trim(parts[2]) == format(sorted[i].date)
  {
    var fields := AllFields(t, sorted, i, format);
    IntToStringClean(t.id);
    IntToStringClean(DayDiffAt(sorted, i));
    SplitJoin(fields, ',');
    TrimClean(fields[2]);
  }

  // ---------------------------------------------------------------- import

  /** `existingEventTypes.associateBy { it.name }`: each name mapped to the
      key of the last type carrying it. */
  function NameMap(types: seq<EventTypeEntity>): map<string, int> {
    if types == [] then map[]
    else
      var last := types[|types| - 1];
      NameMap(types[..|types| - 1])[last.name := last.id]
  }

  /** The map knows exactly the names of the types, and maps each to the
      key of the last type carrying it. */
  lemma {:induction false} NameMapLastWins(types: seq<EventTypeEntity>)
    ensures forall n :: n in NameMap(types) <==> exists e :: e in types && e.name == n
    ensures forall n :: n in NameMap(types) ==> exists i :: (0 <= i < |types| && types[i].name == n
      && types[i].id == NameMap(types)[n] && (forall j :: i < j < |types| ==> types[j].name != n))
    decreases |types|
  {
    if types != [] {
      var init := types[..|types| - 1];
      var last := types[|types| - 1];
      var m := NameMap(init);
      NameMapLastWins(init);
      assert types == init + [last];
      forall n | n in m && n != last.name
        ensures exists i :: (0 <= i < |types| && types[i].name == n && types[i].id == m[n]
          && (forall j :: i < j < |types| ==> types[j].name != n))
      {
        var i :| 0 <= i < |init| && init[i].name == n && init[i].id == m[n]
          && (forall j :: i < j < |init| ==> init[j].name != n);
        assert types[i] == init[i];
      }
      assert types[|types| - 1] == last;
    }
  }

  /** The import's running state: the three counters, the names of the
      types it created in creation order (`newEventTypesCount` is their
      number), the name-to-key cache of those types, the date texts known
      per type key, and the records inserted so far. */
  datatype AllImportState = AllImportState(
    imported: nat, duplicates: nat, errors: nat,
    created: seq<string>, newTypeIds: map<string, int>,
    dateSets: map<int, set<string>>, rows: seq<ImportedRow>)

  /** The known date texts of a type key; a missing key knows none. */
  function DateSet(m: map<int, set<string>>, id: int): set<string> {
    if id in m then m[id] else {}
  }

  /** The key a trimmed type name resolves to: a stored type's, else a
      created type's, else the next key of the type table. */
  function TypeKey(st: AllImportState, name: string, nameMap: map<string, int>, typesLastId: int): int {
    if name in nameMap then nameMap[name]
    else if name in st.newTypeIds then st.newTypeIds[name]
    else typesLastId + |st.created| + 1
  }

  /** The state once the name is resolved: an unknown name is created, with
      no known date text yet. */
  function WithType(st: AllImportState, name: string, nameMap: map<string, int>, typesLastId: int): (r: AllImportState)
    ensures r.imported == st.imported && r.duplicates == st.duplicates && r.errors == st.errors && r.rows == st.rows
    ensures name in nameMap || name in st.newTypeIds ==> r == st
    ensures !(name in nameMap || name in st.newTypeIds) ==> r.created == st.created + [name]
  {
    if name in nameMap || name in st.newTypeIds then st
    else
      var id := TypeKey(st, name, nameMap, typesLastId);
      st.(created := st.created + [name], newTypeIds := st.newTypeIds[name := id], dateSets := st.dateSets[id := {}])
  }

  /** A record of type `id` on `dateStr`: a text known for that type is a
      duplicate; an unreadable one is an error; otherwise the record is
      inserted and its text becomes known for that type. */
  function RecordDate(st: AllImportState, id: int, dateStr: string, parse: string -> Option<int>): (r: AllImportState)
    ensures r.imported + r.duplicates + r.errors == st.imported + st.duplicates + st.errors + 1
    ensures r.imported + |st.rows| == st.imported + |r.rows|
    ensures |st.rows| <= |r.rows| <= |st.rows| + 1 && r.rows[..|st.rows|] == st.rows
    ensures r.created == st.created && r.newTypeIds == st.newTypeIds
    ensures dateStr in DateSet(st.dateSets, id) ==> r.rows == st.rows
    ensures |r.rows| > |st.rows| ==> r.rows[|st.rows|].eventTypeId == id && r.rows[|st.rows|].dateStr == dateStr
  {
    var dates := DateSet(st.dateSets, id);
    var st2 := st.(dateSets := st.dateSets[id := dates]);
    if dateStr in dates then st2.(duplicates := st2.duplicates + 1)
    else
      match parse(dateStr)
      case None => st2.(errors := st2.errors + 1)
      case Some(date) =>
        st2.(imported := st2.imported + 1, dateSets := st2.dateSets[id := dates + {dateStr}],
             rows := st2.rows + [ImportedRow(dateStr, date, id)])
  }

  /** One line after the header: lines with fewer than three fields are
      skipped; otherwise the trimmed second field names the type and the
      trimmed third field is the date text. */
  function ImportAllLine(st: AllImportState, line: string, nameMap: map<string, int>, typesLastId: int,
                         parse: string -> Option<int>): (r: AllImportState)
    ensures |Split(line, ',')| < 3 ==> r == st
    ensures |Split(line, ',')| >= 3 ==> r.imported + r.duplicates + r.errors == st.imported + st.duplicates + st.errors + 1
    ensures r.imported + |st.rows| == st.imported + |r.rows|
    ensures |st.rows| <= |r.rows| && r.rows[..|st.rows|] == st.rows
  {
    var parts := Split(line, ',');
    if |parts| < 3 then st
    else
      var name := Trim(parts[1]);
      RecordDate(WithType(st, name, nameMap, typesLastId), TypeKey(st, name, nameMap, typesLastId), Trim(parts[2]), parse)
  }

  /** The number of lines with at least three fields. */
  function RecordLines(lines: seq<string>): (n: nat)
    ensures n <= |lines|
  {
    if lines == [] then 0
    else RecordLines(lines[..|lines| - 1]) + (if |Split(lines[|lines| - 1], ',')| >= 3 then 1 else 0)
  }

  /** The lines folded in order: every record line moves exactly one
      counter and every insert is counted as imported. */
  function ImportAllLines(st: AllImportState, lines: seq<string>, nameMap: map<string, int>, typesLastId: int,
                          parse: string -> Option<int>): (r: AllImportState)
    ensures r.imported + r.duplicates + r.errors == st.imported + st.duplicates + st.errors + RecordLines(lines)
    ensures r.imported + |st.rows| == st.imported + |r.rows|
    ensures |st.rows| <= |r.rows| && r.rows[..|st.rows|] == st.rows
    decreases |lines|
  {
    if lines == [] then st
    else
      var mid := ImportAllLines(st, lines[..|lines| - 1], nameMap, typesLastId, parse);
      ImportAllLine(mid, lines[|lines| - 1], nameMap, typesLastId, parse)
  }

  /** The state after reading a whole file, the header skipped, from the
      given known date texts per type. */
  function ImportAllOf(lines: seq<string>, existing: map<int, set<string>>, nameMap: map<string, int>, typesLastId: int,
                       parse: string -> Option<int>): (r: AllImportState)
    ensures r.imported == |r.rows|
    ensures r.imported + r.duplicates + r.errors == if lines == [] then 0 else RecordLines(lines[1..])
  {
    var init := AllImportState(0, 0, 0, [], map[], existing, []);
    if lines == [] then init else ImportAllLines(init, lines[1..], nameMap, typesLastId, parse)
  }

  /** The known date texts per type the import starts from, as written:
      the stored records are read without their type, and every date text
      is filed under key 1. */
  function StoredDateSetsAsWritten(rows: seq<EventDateEntity>, format: int -> string): (m: map<int, set<string>>)
    ensures rows == [] ==> m == map[]
    ensures rows != [] ==> m.Keys == {1}
  {
    if rows == [] then map[]
    else
      var m := StoredDateSetsAsWritten(rows[..|rows| - 1], format);
      var e := rows[|rows| - 1];
      m[1 := DateSet(m, 1) + {format(e.date)}]
  }

  /** The known date texts per type, corrected: each stored record's date
      text is filed under its own type, record by record. */
  function StoredDateSets(rows: seq<EventDateEntity>, format: int -> string): map<int, set<string>> {
    if rows == [] then map[]
    else
      var m := StoredDateSets(rows[..|rows| - 1], format);
      var e := rows[|rows| - 1];
      m[e.eventTypeId := DateSet(m, e.eventTypeId) + {format(e.date)}]
  }

  /** Under each type the corrected map knows exactly the date texts of
      that type's stored records, and it has no key without a record. */
  lemma {:induction false} StoredDateSetsFiled(rows: seq<EventDateEntity>, format: int -> string)
    ensures var m := StoredDateSets(rows, format);
      && (forall e :: e in rows ==> format(e.date) in DateSet(m, e.eventTypeId))
      && (forall id, s :: s in DateSet(m, id) ==> exists e :: e in rows && e.eventTypeId == id && format(e.date) == s)
      && (forall id :: id in m ==> exists e :: e in rows && e.eventTypeId == id)
    decreases |rows|
  {
    if rows != [] {
      var init := rows[..|rows| - 1];
      var last := rows[|rows| - 1];
      StoredDateSetsFiled(init, format);
      assert rows == init + [last];
      var m0 := StoredDateSets(init, format);
      var m := StoredDateSets(rows, format);
      forall e | e in rows ensures format(e.date) in DateSet(m, e.eventTypeId) {
        if e != last {
          assert e in init;
        }
      }
      forall id, t | t in DateSet(m, id) ensures exists e :: e in rows && e.eventTypeId == id && format(e.date) == t {
        if id != last.eventTypeId || t != format(last.date) {
          assert t in DateSet(m0, id);
          var e :| e in init && e.eventTypeId == id && format(e.date) == t;
          assert e in rows;
        }
      }
      forall id | id in m ensures exists e :: e in rows && e.eventTypeId == id {
        if id != last.eventTypeId {
          var e :| e in init && e.eventTypeId == id;
          assert e in rows;
        }
      }
    }
  }

  /** The grouping loop of `importAllEventTypesData`, corrected to file each
      stored record under its own type. */
  method GroupExistingDates(existingDates: seq<EventDateEntity>, format: int -> string)
    returns (existingDateMap: map<int, set<string>>)
    ensures existingDateMap == StoredDateSets(existingDates, format)
  {
    existingDateMap := map[];
    for i := 0 to |existingDates|
      invariant existingDateMap == StoredDateSets(existingDates[..i], format)
    {
      var date := existingDates[i];
      var dateStr := format(date.date);
      var dates := DateSet(existingDateMap, date.eventTypeId);
      existingDateMap := existingDateMap[date.eventTypeId := dates + {dateStr}];
      assert existingDates[..i + 1][..i] == existingDates[..i];
    }
    assert existingDates[..|existingDates|] == existingDates;
  }

  /** What the fold keeps true, for the key counter `base` of the type
      table when the import starts and the known texts `existing` it
      started from: created names are distinct, unknown to the stored
      types and cached under consecutive fresh keys; inserted records use
      keys handed out so far and have their texts known; every text known
      at the start for a stored key is still known; and no record repeats
      a text known at the start or another record's type and text. */
  ghost predicate Consistent(st: AllImportState, existing: map<int, set<string>>, nameMap: map<string, int>, base: int) {
    && (forall n :: n in st.newTypeIds <==> n in st.created)
    && (forall k :: 0 <= k < |st.created| ==> (st.created[k] !in nameMap && st.created[k] in st.newTypeIds
          && st.newTypeIds[st.created[k]] == base + k + 1))
    && (forall j, k :: 0 <= j < k < |st.created| ==> st.created[j] != st.created[k])
    && (forall k :: 0 <= k < |st.rows| ==> (st.rows[k].eventTypeId <= base + |st.created|
          && st.rows[k].dateStr in DateSet(st.dateSets, st.rows[k].eventTypeId)
          && st.rows[k].dateStr !in DateSet(existing, st.rows[k].eventTypeId)))
    && (forall id :: id <= base ==> DateSet(existing, id) <= DateSet(st.dateSets, id))
    && (forall j, k :: 0 <= j < k < |st.rows| ==>
          st.rows[j].eventTypeId != st.rows[k].eventTypeId || st.rows[j].dateStr != st.rows[k].dateStr)
  }

  /** The keys of a created name are the fresh ones after `base`. */
  lemma CreatedKeys(st: AllImportState, existing: map<int, set<string>>, nameMap: map<string, int>, base: int, n: string)
    requires Consistent(st, existing, nameMap, base) && n in st.newTypeIds
    ensures base < st.newTypeIds[n] <= base + |st.created|
  {
    var k :| 0 <= k < |st.created| && st.created[k] == n;
  }

  /** Resolving a name keeps the state consistent and yields a key handed
      out so far, fresh after `base` unless a stored type carries the name. */
  lemma WithTypeConsistent(st: AllImportState, name: string, existing: map<int, set<string>>,
                           nameMap: map<string, int>, base: int)
    requires forall n :: n in nameMap ==> nameMap[n] <= base
    requires Consistent(st, existing, nameMap, base)
    ensures var st1 := WithType(st, name, nameMap, base);
      var id := TypeKey(st, name, nameMap, base);
      && Consistent(st1, existing, nameMap, base)
      && id <= base + |st1.created|
      && (name !in nameMap ==> id > base)
  {
    var id := TypeKey(st, name, nameMap, base);
    if name !in nameMap && name in st.newTypeIds {
      CreatedKeys(st, existing, nameMap, base, name);
    } else if name !in nameMap {
      var st1 := WithType(st, name, nameMap, base);
      forall k | 0 <= k < |st.rows|
        ensures st.rows[k].dateStr in DateSet(st1.dateSets, st.rows[k].eventTypeId)
      {
        assert st.rows[k].eventTypeId != id;
      }
      forall id' | id' <= base
        ensures DateSet(existing, id') <= DateSet(st1.dateSets, id')
      {
        assert id' != id;
      }
      forall k | 0 <= k < |st1.created|
        ensures st1.created[k] !in nameMap && st1.created[k] in st1.newTypeIds
          && st1.newTypeIds[st1.created[k]] == base + k + 1
      {
        if k < |st.created| {
          assert st.created[k] != name;
        }
      }
    }
  }

  /** Recording a date under a key handed out so far keeps the state
      consistent, when a key after `base` has no text known at the start. */
  lemma RecordDateConsistent(st: AllImportState, id: int, dateStr: string, existing: map<int, set<string>>,
                             nameMap: map<string, int>, base: int, parse: string -> Option<int>)
    requires Consistent(st, existing, nameMap, base)
    requires id <= base + |st.created|
    requires id > base ==> DateSet(existing, id) == {}
    ensures Consistent(RecordDate(st, id, dateStr, parse), existing, nameMap, base)
  {
    var dates := DateSet(st.dateSets, id);
    var st2 := st.(dateSets := st.dateSets[id := dates]);
    assert forall x :: DateSet(st2.dateSets, x) == DateSet(st.dateSets, x);
    if dateStr !in dates && parse(dateStr).Some? {
      var r := RecordDate(st, id, dateStr, parse);
      assert forall x :: x != id ==> DateSet(r.dateSets, x) == DateSet(st.dateSets, x);
      assert DateSet(r.dateSets, id) == dates + {dateStr};
      assert forall k :: 0 <= k < |st.rows| && st.rows[k].eventTypeId == id ==> st.rows[k].dateStr != dateStr;
      assert id <= base ==> DateSet(existing, id) <= dates;
      assert r.rows == st.rows + [r.rows[|st.rows|]];
    }
  }

  /** One line keeps the fold consistent, as long as the stored types' keys
      and the keys with known texts at the start do not exceed `base`. */
  lemma ImportAllLineConsistent(st: AllImportState, line: string, existing: map<int, set<string>>,
                                nameMap: map<string, int>, base: int, parse: string -> Option<int>)
    requires forall n :: n in nameMap ==> nameMap[n] <= base
    requires forall id :: id in existing ==> id <= base
    requires Consistent(st, existing, nameMap, base)
    ensures Consistent(ImportAllLine(st, line, nameMap, base, parse), existing, nameMap, base)
  {
    var parts := Split(line, ',');
    if |parts| >= 3 {
      var name := Trim(parts[1]);
      var id := TypeKey(st, name, nameMap, base);
      WithTypeConsistent(st, name, existing, nameMap, base);
      RecordDateConsistent(WithType(st, name, nameMap, base), id, Trim(parts[2]), existing, nameMap, base, parse);
    }
  }

  /** The whole fold keeps the state consistent. */
  lemma {:induction false} ImportAllLinesConsistent(st: AllImportState, lines: seq<string>, existing: map<int, set<string>>,
                                                    nameMap: map<string, int>, base: int, parse: string -> Option<int>)
    requires forall n :: n in nameMap ==> nameMap[n] <= base
    requires forall id :: id in existing ==> id <= base
    requires Consistent(st, existing, nameMap, base)
    ensures Consistent(ImportAllLines(st, lines, nameMap, base, parse), existing, nameMap, base)
    decreases |lines|
  {
    if lines != [] {
      ImportAllLinesConsistent(st, lines[..|lines| - 1], existing, nameMap, base, parse);
      var mid := ImportAllLines(st, lines[..|lines| - 1], nameMap, base, parse);
      ImportAllLineConsistent(mid, lines[|lines| - 1], existing, nameMap, base, parse);
    }
  }

  /** With the corrected known texts, importing a file into the stored
      tables creates at most one type per name and only for names no stored
      type carries, never inserts a record whose type already has a stored
      record on that date text, and never inserts two records of one type
      with the same date text. */
  lemma ImportAllNoDuplicates(lines: seq<string>, stored: seq<EventDateEntity>, typeRows: seq<EventTypeEntity>,
                              base: int, format: int -> string, parse: string -> Option<int>)
    requires forall e :: e in typeRows ==> e.id <= base
    requires forall e :: e in stored ==> e.eventTypeId <= base
    ensures var st := ImportAllOf(lines, StoredDateSets(stored, format), NameMap(typeRows), base, parse);
      && (forall k :: 0 <= k < |st.created| ==> forall e :: e in typeRows ==> e.name != st.created[k])
      && (forall j, k :: 0 <= j < k < |st.created| ==> st.created[j] != st.created[k])
      && (forall k :: 0 <= k < |st.rows| ==> forall e :: e in stored && e.eventTypeId == st.rows[k].eventTypeId ==>
            format(e.date) != st.rows[k].dateStr)
      && (forall j, k :: 0 <= j < k < |st.rows| ==>
            st.rows[j].eventTypeId != st.rows[k].eventTypeId || st.rows[j].dateStr != st.rows[k].dateStr)
  {
    var existing := StoredDateSets(stored, format);
    StoredDateSetsFiled(stored, format);
    var nameMap := NameMap(typeRows);
    NameMapLastWins(typeRows);
    forall n | n in nameMap ensures nameMap[n] <= base {
      var i :| 0 <= i < |typeRows| && typeRows[i].name == n && typeRows[i].id == nameMap[n]
        && (forall j :: i < j < |typeRows| ==> typeRows[j].name != n);
      assert typeRows[i] in typeRows;
    }
    forall id | id in existing ensures id <= base {
      var e :| e in stored && e.eventTypeId == id;
    }
    var init := AllImportState(0, 0, 0, [], map[], existing, []);
    assert Consistent(init, existing, nameMap, base);
    if lines != [] {
      ImportAllLinesConsistent(init, lines[1..], existing, nameMap, base, parse);
    }
  }

  /** A file of a header and one row is that row read from the start. */
  lemma OneRowFile(header: string, line: string, existing: map<int, set<string>>, nameMap: map<string, int>,
                   base: int, parse: string -> Option<int>)
    ensures var init := AllImportState(0, 0, 0, [], map[], existing, []);
      ImportAllOf([header, line], existing, nameMap, base, parse) == ImportAllLine(init, line, nameMap, base, parse)
  {
    var init := AllImportState(0, 0, 0, [], map[], existing, []);
    assert [header, line][1..] == [line];
    assert [line][..0] == [];
    assert ImportAllLines(init, [], nameMap, base, parse) == init;
    assert ImportAllLines(init, [line], nameMap, base, parse)
      == ImportAllLine(ImportAllLines(init, [], nameMap, base, parse), line, nameMap, base, parse);
  }

  /** A line whose name and date columns read `name` and `dateStr` records
      that date under the type the name resolves to. */
  lemma ImportAllLineFields(st: AllImportState, line: string, nameMap: map<string, int>, typesLastId: int,
                            parse: string -> Option<int>, name: string, dateStr: string)
    requires |Split(line, ',')| >= 3 && Trim(Split(line, ',')[1]) == name && Trim(Split(line, ',')[2]) == dateStr
    ensures ImportAllLine(st, line, nameMap, typesLastId, parse)
      == RecordDate(WithType(st, name, nameMap, typesLastId), TypeKey(st, name, nameMap, typesLastId), dateStr, parse)
  {
  }

  /** A file whose only row names a stored type records the row's date
      under that type's key. */
  lemma KnownTypeRowFile(header: string, line: string, existing: map<int, set<string>>, nameMap: map<string, int>,
                         base: int, parse: string -> Option<int>, name: string, dateStr: string)
    requires |Split(line, ',')| >= 3 && Trim(Split(line, ',')[1]) == name && Trim(Split(line, ',')[2]) == dateStr
    requires name in nameMap
    ensures ImportAllOf([header, line], existing, nameMap, base, parse)
      == RecordDate(AllImportState(0, 0, 0, [], map[], existing, []), nameMap[name], dateStr, parse)
  {
    var init := AllImportState(0, 0, 0, [], map[], existing, []);
    OneRowFile(header, line, existing, nameMap, base, parse);
    ImportAllLineFields(init, line, nameMap, base, parse, name, dateStr);
  }

  /** A readable date text not yet known for the type is inserted. */
  lemma RecordNewDate(st: AllImportState, id: int, dateStr: string, parse: string -> Option<int>)
    requires id !in st.dateSets && parse(dateStr).Some?
    ensures var r := RecordDate(st, id, dateStr, parse);
      && r.imported == st.imported + 1 && r.duplicates == st.duplicates
      && r.rows == st.rows + [ImportedRow(dateStr, parse(dateStr).value, id)]
  {
  }

  /** A file whose only row names a type with no known dates inserts it. */
  lemma UnknownTypeRowFile(header: string, line: string, existing: map<int, set<string>>, nameMap: map<string, int>,
                           base: int, parse: string -> Option<int>, name: string, dateStr: string)
    requires |Split(line, ',')| >= 3 && Trim(Split(line, ',')[1]) == name && Trim(Split(line, ',')[2]) == dateStr
    requires name in nameMap && nameMap[name] !in existing && parse(dateStr).Some?
    ensures var st := ImportAllOf([header, line], existing, nameMap, base, parse);
      && st.imported == 1 && st.duplicates == 0
      && st.rows == [ImportedRow(dateStr, parse(dateStr).value, nameMap[name])]
  {
    KnownTypeRowFile(header, line, existing, nameMap, base, parse, name, dateStr);
    RecordNewDate(AllImportState(0, 0, 0, [], map[], existing, []), nameMap[name], dateStr, parse);
  }

  /** As written, a stored record of any type but 1 is not recognised: a
      file row naming its type and its date text inserts it a second time. */
  lemma StoredTypeDateReimported(header: string, line: string, stored: seq<EventDateEntity>, e: EventDateEntity,
                                 nameMap: map<string, int>, base: int, format: int -> string,
                                 parse: string -> Option<int>, name: string)
    requires e in stored && e.eventTypeId != 1
    requires |Split(line, ',')| >= 3 && Trim(Split(line, ',')[1]) == name && Trim(Split(line, ',')[2]) == format(e.date)
    requires name in nameMap && nameMap[name] == e.eventTypeId
    requires parse(format(e.date)).Some?
    ensures var st := ImportAllOf([header, line], StoredDateSetsAsWritten(stored, format), nameMap, base, parse);
      && st.imported == 1 && st.duplicates == 0
      && st.rows == [ImportedRow(format(e.date), parse(format(e.date)).value, e.eventTypeId)]
  {
    var existing := StoredDateSetsAsWritten(stored, format);
    assert stored != [];
    assert e.eventTypeId !in existing;
    UnknownTypeRowFile(header, line, existing, nameMap, base, parse, name, format(e.date));
  }

  /** Corrected, the same row counts as a duplicate and nothing is inserted. */
  lemma StoredTypeDateDuplicate(header: string, line: string, stored: seq<EventDateEntity>, e: EventDateEntity,
                                nameMap: map<string, int>, base: int, format: int -> string,
                                parse: string -> Option<int>, name: string)
    requires e in stored
    requires |Split(line, ',')| >= 3 && Trim(Split(line, ',')[1]) == name && Trim(Split(line, ',')[2]) == format(e.date)
    requires name in nameMap && nameMap[name] == e.eventTypeId
    ensures var st := ImportAllOf([header, line], StoredDateSets(stored, format), nameMap, base, parse);
      st.imported == 0 && st.duplicates == 1 && st.rows == []
  {
    var existing := StoredDateSets(stored, format);
    StoredDateSetsFiled(stored, format);
    KnownTypeRowFile(header, line, existing, nameMap, base, parse, name, format(e.date));
    assert format(e.date) in DateSet(existing, e.eventTypeId);
  }

  /** The created type rows: the stored ones first, then one inactive row
      per created name under consecutive keys after `base`, each with one
      of the colour options. */
  ghost predicate CreatedTypeRows(rows: seq<EventTypeEntity>, before: seq<EventTypeEntity>, created: seq<string>, base: int) {
    && |rows| == |before| + |created| && rows[..|before|] == before
    && forall k :: 0 <= k < |created| ==> NewTypeRow(rows[|before| + k], base + k + 1, created[k])
  }

  /** A row the import created: inactive, under the given key and name,
      with one of the colour options. */
  ghost predicate NewTypeRow(row: EventTypeEntity, id: int, name: string) {
    row.id == id && row.name == name && !row.isActive && row.color in ColorOptions
  }

  lemma CreatedTypeRowsAppend(rows: seq<EventTypeEntity>, before: seq<EventTypeEntity>, created: seq<string>,
                              base: int, e: EventTypeEntity)
    requires CreatedTypeRows(rows, before, created, base)
    requires NewTypeRow(e, base + |created| + 1, e.name)
    ensures CreatedTypeRows(rows + [e], before, created + [e.name], base)
  {
    var rows' := rows + [e];
    var created' := created + [e.name];
    assert rows'[..|before|] == rows[..|before|];
    forall k | 0 <= k < |created'|
      ensures NewTypeRow(rows'[|before| + k], base + k + 1, created'[k])
    {
      if k == |created| {
        assert rows'[|before| + k] == e;
      } else {
        assert rows'[|before| + k] == rows[|before| + k];
        assert created'[k] == created[k];
      }
    }
  }

  /** `eventTypeRepository.insertEventType(EventTypeEntity(name, false,
      colorOptions.random()))`: the type lands under the next key. */
  method CreateEventType(types: EventTypeRepository.Repository, name: string,
                         ghost before: seq<EventTypeEntity>, ghost created: seq<string>, ghost base: int)
    returns (id: int)
    requires types.Valid() && types.dao.lastId == base + |created|
    requires CreatedTypeRows(types.dao.rows, before, created, base)
    modifies types.dao
    ensures types.Valid() && types.dao.lastId == base + |created| + 1 && id == types.dao.lastId
    ensures CreatedTypeRows(types.dao.rows, before, created + [name], base)
  {
    assert ColorOptions[0] in ColorOptions;
    var color :| color in ColorOptions;
    ghost var rowsBefore := types.dao.rows;
    id := types.InsertEventTypeEntity(EventTypeEntity(0, name, false, color));
    FilterAll(rowsBefore, (x: EventTypeEntity) => x.id != id);
    CreatedTypeRowsAppend(rowsBefore, before, created, base, EventTypeEntity(id, name, false, color));
  }

  /** The type lookup of one line: a stored type's key, else a created
      type's, else a new type is created. */
  method ResolveEventType(types: EventTypeRepository.Repository, eventTypeName: string, nameMap: map<string, int>,
                          st: AllImportState, ghost base: int, ghost typesBefore: seq<EventTypeEntity>)
    returns (eventTypeId: int, st1: AllImportState)
    requires types.Valid() && types.dao.lastId == base + |st.created|
    requires CreatedTypeRows(types.dao.rows, typesBefore, st.created, base)
    modifies types.dao
    ensures eventTypeId == TypeKey(st, eventTypeName, nameMap, base)
    ensures st1 == WithType(st, eventTypeName, nameMap, base)
    ensures types.Valid() && types.dao.lastId == base + |st1.created|
    ensures CreatedTypeRows(types.dao.rows, typesBefore, st1.created, base)
  {
    st1 := st;
    if eventTypeName in nameMap {
      eventTypeId := nameMap[eventTypeName];
    } else if eventTypeName in st.newTypeIds {
      eventTypeId := st.newTypeIds[eventTypeName];
    } else {
      eventTypeId := CreateEventType(types, eventTypeName, typesBefore, st.created, base);
      st1 := st.(created := st.created + [eventTypeName], newTypeIds := st.newTypeIds[eventTypeName := eventTypeId],
                 dateSets := st.dateSets[eventTypeId := {}]);
    }
  }

  /** The duplicate check and insert of one line, for a resolved type. */
  method RecordEventDate(table: EventDateDao.EventDateTable, eventTypeId: int, dateStr: string,
                         parse: string -> Option<int>, st1: AllImportState,
                         ghost lastIdBefore: int, ghost before: seq<EventDateEntity>)
    returns (st': AllImportState)
    requires table.Valid() && table.lastId == lastIdBefore + |st1.rows|
    requires table.rows == before + NewRows(st1.rows, lastIdBefore)
    modifies table
    ensures st' == RecordDate(st1, eventTypeId, dateStr, parse)
    ensures table.Valid() && table.lastId == lastIdBefore + |st'.rows|
    ensures table.rows == before + NewRows(st'.rows, lastIdBefore)
  {
    var eventDates := DateSet(st1.dateSets, eventTypeId);
    var st2 := st1.(dateSets := st1.dateSets[eventTypeId := eventDates]);
    if dateStr in eventDates {
      return st2.(duplicates := st2.duplicates + 1);
    }
    var date := parse(dateStr);
    if date.None? {
      return st2.(errors := st2.errors + 1);
    }
    var row := ImportedRow(dateStr, date.value, eventTypeId);
    st' := st2.(imported := st2.imported + 1, dateSets := st2.dateSets[eventTypeId := eventDates + {dateStr}],
                rows := st2.rows + [row]);
    assert st' == RecordDate(st1, eventTypeId, dateStr, parse);
    InsertImported(table, st1.rows, row, lastIdBefore, before);
  }

  /** The loop body for one line, on the live state and both tables. */
  method ImportAllCsvLine(line: string, table: EventDateDao.EventDateTable, types: EventTypeRepository.Repository,
                          nameMap: map<string, int>, parse: string -> Option<int>, st: AllImportState,
                          ghost base: int, ghost lastIdBefore: int, ghost before: seq<EventDateEntity>,
                          ghost typesBefore: seq<EventTypeEntity>)
    returns (st': AllImportState)
    requires table.Valid() && table.lastId == lastIdBefore + |st.rows|
    requires table.rows == before + NewRows(st.rows, lastIdBefore)
    requires types.Valid() && types.dao.lastId == base + |st.created|
    requires CreatedTypeRows(types.dao.rows, typesBefore, st.created, base)
    modifies table, types.dao
    ensures st' == ImportAllLine(st, line, nameMap, base, parse)
    ensures table.Valid() && table.lastId == lastIdBefore + |st'.rows|
    ensures table.rows == before + NewRows(st'.rows, lastIdBefore)
    ensures types.Valid() && types.dao.lastId == base + |st'.created|
    ensures CreatedTypeRows(types.dao.rows, typesBefore, st'.created, base)
  {
    var parts := Split(line, ',');
    if |parts| < 3 {
      return st;
    }
    var eventTypeName := Trim(parts[1]);
    var dateStr := Trim(parts[2]);
    var eventTypeId, st1 := ResolveEventType(types, eventTypeName, nameMap, st, base, typesBefore);
    st' := RecordEventDate(table, eventTypeId, dateStr, parse, st1, lastIdBefore, before);
  }

  /** The result message of a completed import. */
  function SuccessMessage(imported: int, newTypes: int): string {
    "成功导入 " + IntToString(imported) + " 条记录，新增 " + IntToString(newTypes) + " 个事件类型"
  }

  /** The reading loop of `importAllEventTypesData` over the data lines. */
  method ImportAllRows(data: seq<string>, table: EventDateDao.EventDateTable, types: EventTypeRepository.Repository,
                       nameMap: map<string, int>, parse: string -> Option<int>, init: AllImportState,
                       ghost base: int, ghost lastIdBefore: int, ghost before: seq<EventDateEntity>,
                       ghost typesBefore: seq<EventTypeEntity>)
    returns (st: AllImportState)
    requires table.Valid() && table.lastId == lastIdBefore + |init.rows|
    requires table.rows == before + NewRows(init.rows, lastIdBefore)
    requires types.Valid() && types.dao.lastId == base + |init.created|
    requires CreatedTypeRows(types.dao.rows, typesBefore, init.created, base)
    modifies table, types.dao
    ensures st == ImportAllLines(init, data, nameMap, base, parse)
    ensures table.Valid() && table.lastId == lastIdBefore + |st.rows|
    ensures table.rows == before + NewRows(st.rows, lastIdBefore)
    ensures types.Valid() && types.dao.lastId == base + |st.created|
    ensures CreatedTypeRows(types.dao.rows, typesBefore, st.created, base)
  {
    st := init;
    var i := 0;
    while i < |data|
      invariant 0 <= i <= |data|
      invariant st == ImportAllLines(init, data[..i], nameMap, base, parse)
      invariant table.Valid() && table.lastId == lastIdBefore + |st.rows|
      invariant table.rows == before + NewRows(st.rows, lastIdBefore)
      invariant types.Valid() && types.dao.lastId == base + |st.created|
      invariant CreatedTypeRows(types.dao.rows, typesBefore, st.created, base)
    {
      st := ImportAllCsvLine(data[i], table, types, nameMap, parse, st, base, lastIdBefore, before, typesBefore);
      assert data[..i + 1][..i] == data[..i];
      i := i + 1;
    }
    assert data[..i] == data;
  }

  /** `importAllEventTypesData` on the file's lines, with the known texts
      per type grouped by each record's own type: the counters, the inserted records and the
      created types are those of the fold; the message reports the records
      imported and the types created. */
  method ImportAllEventTypesData(lines: seq<string>, table: EventDateDao.EventDateTable,
                                 types: EventTypeRepository.Repository, format: int -> string,
                                 parse: string -> Option<int>)
    returns (result: ImportResult)
    requires table.Valid() && types.Valid()
    modifies table, types.dao
    ensures table.Valid() && types.Valid()
    ensures var st := ImportAllOf(lines, StoredDateSets(old(table.rows), format),
                                  NameMap(old(types.dao.GetAllEventTypes())), old(types.dao.lastId), parse);
      && result == ImportResult(st.imported, st.errors, st.duplicates, Some(SuccessMessage(st.imported, |st.created|)))
      && table.lastId == old(table.lastId) + |st.rows|
      && table.rows == old(table.rows) + NewRows(st.rows, old(table.lastId))
      && types.dao.lastId == old(types.dao.lastId) + |st.created|
      && CreatedTypeRows(types.dao.rows, old(types.dao.rows), st.created, old(types.dao.lastId))
  {
    var existingDateMap := GroupExistingDates(table.rows, format);
    var nameMap := NameMap(types.dao.GetAllEventTypes());
    ghost var before := table.rows;
    ghost var lastIdBefore := table.lastId;
    ghost var typesBefore := types.dao.rows;
    ghost var base := types.dao.lastId;
    var st := AllImportState(0, 0, 0, [], map[], existingDateMap, []);
    assert types.dao.rows[..|typesBefore|] == typesBefore;
    if lines == [] {
      return ImportResult(0, 0, 0, Some(SuccessMessage(0, 0)));
    }
    st := ImportAllRows(lines[1..], table, types, nameMap, parse, st, base, lastIdBefore, before, typesBefore);
    return ImportResult(st.imported, st.errors, st.duplicates, Some(SuccessMessage(st.imported, |st.created|)));
  }
}
