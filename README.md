# iPredict, modelled in Dafny

iPredict is a cycle-prediction app. The user records the dates of a
recurring event under one of several event types. The app shows those
dates and the whole-day gaps between them. It counts down to the next
expected date, which is the last date plus the average gap. It draws a
histogram of the gaps and exports and imports the records as CSV. The
Expo/React Native edition adds a theme service, daily reminders and
gradient cards.

This project models the logic of both editions:

- **Storage.** The Room tables `event_dates` and `event_types` are the
  classes `EventDateDao.EventDateTable` and `EventTypeDao.EventTypeTable`.
  Each keeps its rows and the AUTOINCREMENT key counter. The queries are
  functions over the rows. The inserts, updates and deletes are methods.
- **Repository.** `EventTypeRepository.Repository` adds the
  clear-then-set switch of the active type. The entity/domain mappings are
  in `Entities`.
- **Screens.** The view models become classes whose fields are the LiveData
  values they publish:
  - the analysis screen, for one type and for all types: day gaps and
    their frequency;
  - the countdown screen, as the first edition with three labels and a
    0–1 progress, and the percent edition with two labels and a 0–100
    progress;
  - the date list adapter.
- **CSV.** Export and import for one type (`DatesCsv`) and for all types
  (`DatesCsvAll`). The import loops are methods that insert through the
  table classes. Each is proved equal to a fold over the lines, and the
  fold's properties are proved as lemmas, including the export/import
  round trip.
- **TypeScript services.** `ThemeService` is the AsyncStorage-backed
  theme state. `NotificationService` is the reminder registry and its
  08:00 scheduling rules, with the interval average. `GradientCard` holds
  the hex-to-`rgba` conversion and the gradient choice.
- **Shared modules.**
  - `Time` holds the JVM truncating conversions.
  - `Text` holds decimal rendering, `toInt`, `split`, `trim` and
    SQLite's binary collation.
  - `Seqs` holds `WHERE` filtering.
  - `Sorting` holds a sort proved sorted and a permutation.
  - `Intervals` holds the gap and average loops.

Conventions:

- Instants are integer milliseconds since the epoch, in a fixed time zone.
- Date formatting (`SimpleDateFormat("yyyy-MM-dd")`, `toLocaleDateString`)
  and parsing are function parameters.
- The clock (`Date()`, `Calendar.getInstance()`, `new Date()`) is an
  explicit `now` argument.
- Whether notification permission is granted is an argument.
- The floating-point progress is kept as an exact ratio `Ratio(num, den)`.

## Model

| member | source | states |
|---|---|---|
| Time.TruncDiv | app/src/main/java/com/chouchou/ipredict/ui/countdown/CountdownViewModel.kt:87 | Kotlin `Int / Int`: the quotient truncated toward zero, with a remainder of the dividend's sign and below the divisor in size; the quotient is non-negative exactly when the dividend exceeds minus the divisor |
| Time.ToDays | app/src/main/java/com/chouchou/ipredict/ui/countdown/CountdownViewModel.kt:124-125 | `TimeUnit.MILLISECONDS.toDays`: whole days truncated toward zero: a non-negative gap leaves a remainder below one day, a negative gap a non-positive remainder above minus one day |
| Time.ToDaysZero | app/src/main/java/com/chouchou/ipredict/ui/countdown/CountdownViewModel.kt:124-127 | a gap gives zero days exactly when it is shorter than one day in either direction |
| Time.ToDaysSign | app/src/main/java/com/chouchou/ipredict/ui/countdown/CountdownViewModel.kt:127-148 | the day count is positive exactly for gaps of at least a day and negative exactly for gaps of at most minus a day |
| Time.ToDaysOfWholeDays | app/src/main/java/com/chouchou/ipredict/ui/countdown/CountdownViewModel.kt:116-125 | a gap of exactly k days converts back to k |
| Time.ToDaysSuperAdditive | app/src/main/java/com/chouchou/ipredict/ui/countdown/CountdownViewModel.kt:83-85 | for two non-negative gaps the truncated parts add up to at most the truncated sum, and to at least that sum less one day |
| Time.ToDaysMonotone | app/src/main/java/com/chouchou/ipredict/ui/countdown/CountdownViewModel.kt:124-125 | the truncated day count is monotone in the gap |
| Text.IntToString | app/src/main/java/com/chouchou/ipredict/ui/dates/DatesViewModel.kt:126 | the decimal rendering is non-empty and starts with '-' exactly for negative numbers |
| Text.IntToStringClean | app/src/main/java/com/chouchou/ipredict/ui/dates/DatesViewModel.kt:126 | a rendered integer holds no comma and has no whitespace at either end |
| Text.ParseInt | app/src/main/java/com/chouchou/ipredict/ui/dates/DatesViewModel.kt:207-212 | `String.toInt()`: a value exactly for an optionally signed, non-empty ASCII digit string whose signed value lies in the 32-bit range, and then that signed value; `None` stands for the `NumberFormatException` |
| Text.ParseIntOfIntToString | app/src/main/java/com/chouchou/ipredict/ui/dates/DatesViewModel.kt:126-209 | rendering any 32-bit integer and parsing it back gives the integer |
| Text.Split | app/src/main/java/com/chouchou/ipredict/ui/dates/DatesViewModel.kt:192 | `split(",")` yields at least one piece and no piece holds the separator |
| Text.SplitJoin | app/src/main/java/com/chouchou/ipredict/ui/dates/DatesViewModel.kt:126-192 | splitting the join of separator-free pieces gives the pieces back |
| Text.TrimStart | app/src/main/java/com/chouchou/ipredict/ui/dates/DatesViewModel.kt:195 | the result is a suffix of the input that starts with no whitespace, and only whitespace was removed before it |
| Text.TrimEnd | app/src/main/java/com/chouchou/ipredict/ui/dates/DatesViewModel.kt:195 | the result is a prefix of the input that ends with no whitespace, and only whitespace was removed after it |
| Text.Trim | app/src/main/java/com/chouchou/ipredict/ui/dates/DatesViewModel.kt:195 | `trim()`: the result is the slice of the input that starts after its leading whitespace, has no whitespace at either end, and only whitespace lies outside it |
| Text.TrimClean | app/src/main/java/com/chouchou/ipredict/ui/dates/DatesViewModel.kt:195 | a string without whitespace at either end is its own trim |
| Text.LexLeTotal | app/src/main/java/com/chouchou/ipredict/data/db/EventTypeDao.kt:13 | SQLite's binary text order is total |
| Text.LexLeTransitive | app/src/main/java/com/chouchou/ipredict/data/db/EventTypeDao.kt:13 | SQLite's binary text order is transitive |
| Seqs.Filter | app/src/main/java/com/chouchou/ipredict/data/db/EventDateDao.kt:31-38 | a `WHERE` (or the survivors of a `DELETE`) keeps exactly the rows that satisfy the condition, each once at most as often as before |
| Seqs.FilterMultiplicity | app/src/main/java/com/chouchou/ipredict/data/db/EventDateDao.kt:31-38 | a kept row occurs exactly as often as before and a dropped one not at all |
| Seqs.FilterUnique | app/src/main/java/com/chouchou/ipredict/data/db/EventDateDao.kt:24-25 | deleting rows keeps the primary keys unique |
| Seqs.AppendUnique | app/src/main/java/com/chouchou/ipredict/data/db/EventDateDao.kt:18-19 | appending a row with an unused key keeps the primary keys unique |
| Sorting.SortBy | app/src/main/java/com/chouchou/ipredict/ui/dates/DatesViewModel.kt:104 | `sortedBy` / `ORDER BY`: the result is sorted by the order and is a permutation of the input |
| Sorting.SortedIntUnique | app/src/main/java/com/chouchou/ipredict/ui/analysis/AnalysisViewModel.kt:62 | two ascending sequences of the same integers are equal, so sorting fixes the result whatever the input order |
| Entities.NewEventDateEntity | app/src/main/java/com/chouchou/ipredict/data/db/EventDateEntity.kt:10-16 | a new record asks for a generated key (id 0), has an empty note and keeps the given date and type |
| Entities.ToEventDate | app/src/main/java/com/chouchou/ipredict/data/repository/EventDateRepository.kt:15-19 | the domain record keeps the row's id and date |
| Entities.ToEventDates | app/src/main/java/com/chouchou/ipredict/data/repository/EventDateRepository.kt:15-19 | the mapped list has one domain record per row, in order |
| Entities.ToEventType | app/src/main/java/com/chouchou/ipredict/data/repository/EventTypeRepository.kt:12-16 | the domain type keeps id, name, active flag and colour |
| Entities.ToEventTypeEntity | app/src/main/java/com/chouchou/ipredict/data/repository/EventTypeRepository.kt:37-38 | the row built for update and delete keeps id, name, active flag and colour |
| Entities.EventTypeMappingRoundTrip | app/src/main/java/com/chouchou/ipredict/data/repository/EventTypeRepository.kt:12-47 | the entity-to-domain and domain-to-entity mappings are inverse to each other |
| EventDateDao.OrderByDateDesc | app/src/main/java/com/chouchou/ipredict/data/db/EventDateDao.kt:12-13 | `ORDER BY date DESC`: sorted newest first, a permutation of the rows |
| EventDateDao.NewestFirst | app/src/main/java/com/chouchou/ipredict/data/db/EventDateDao.kt:15-16 | the first row of a date-descending result is a stored row with no later date |
| EventDateDao.EventDateTable.constructor | app/src/main/java/com/chouchou/ipredict/data/db/EventDateDao.kt:10-11 | an empty table with its key counter at zero |
| EventDateDao.EventDateTable.GetAllEventDates | app/src/main/java/com/chouchou/ipredict/data/db/EventDateDao.kt:12-13 | every row, newest first |
| EventDateDao.EventDateTable.GetLatestEventDate | app/src/main/java/com/chouchou/ipredict/data/db/EventDateDao.kt:15-16 | null exactly for an empty table, otherwise a stored row with no later date |
| EventDateDao.EventDateTable.GetEventDatesByType | app/src/main/java/com/chouchou/ipredict/data/db/EventDateDao.kt:31-32 | exactly the rows of that type, newest first |
| EventDateDao.EventDateTable.GetLatestEventDateByType | app/src/main/java/com/chouchou/ipredict/data/db/EventDateDao.kt:34-35 | null exactly when no row has that type, otherwise a row of that type with no later date among them |
| EventDateDao.EventDateTable.InsertEventDate | app/src/main/java/com/chouchou/ipredict/data/db/EventDateDao.kt:18-19 | REPLACE insert: id 0 takes the next key, another id replaces the row with that key; keys stay unique; no same-day check |
| EventDateDao.EventDateTable.DeleteEventDateById | app/src/main/java/com/chouchou/ipredict/data/db/EventDateDao.kt:24-25 | only the row with that key goes, the others stay in order |
| EventDateDao.EventDateTable.DeleteEventDate | app/src/main/java/com/chouchou/ipredict/data/db/EventDateDao.kt:21-22 | `@Delete` removes the row by its primary key |
| EventDateDao.EventDateTable.DeleteEventDatesByType | app/src/main/java/com/chouchou/ipredict/data/db/EventDateDao.kt:37-38 | exactly that type's rows go, the others stay in order |
| EventTypeDao.ByNameAscIsTotalPreorder | app/src/main/java/com/chouchou/ipredict/data/db/EventTypeDao.kt:13 | `ORDER BY name ASC` is a total preorder |
| EventTypeDao.ClearedRows | app/src/main/java/com/chouchou/ipredict/data/db/EventTypeDao.kt:28-29 | `SET isActive = 0`: every row, inactive, everything else kept |
| EventTypeDao.ActivatedRows | app/src/main/java/com/chouchou/ipredict/data/db/EventTypeDao.kt:31-32 | `SET isActive = 1 WHERE id = :id`: only rows with that key change, and only their flag |
| EventTypeDao.UpdatedRows | app/src/main/java/com/chouchou/ipredict/data/db/EventTypeDao.kt:22-23 | `@Update`: the row with the entity's key takes all its fields, the others are unchanged |
| EventTypeDao.EventTypeTable.constructor | app/src/main/java/com/chouchou/ipredict/data/db/EventTypeDao.kt:11-12 | an empty table with its key counter at zero |
| EventTypeDao.EventTypeTable.GetAllEventTypes | app/src/main/java/com/chouchou/ipredict/data/db/EventTypeDao.kt:13-14 | every row, sorted by name under the binary collation |
| EventTypeDao.EventTypeTable.GetActiveEventType | app/src/main/java/com/chouchou/ipredict/data/db/EventTypeDao.kt:16-17 | null exactly when no row is active, otherwise an active stored row |
| EventTypeDao.EventTypeTable.InsertEventType | app/src/main/java/com/chouchou/ipredict/data/db/EventTypeDao.kt:19-20 | REPLACE insert returning the row id: id 0 takes the next key, another id replaces its row |
| EventTypeDao.EventTypeTable.UpdateEventType | app/src/main/java/com/chouchou/ipredict/data/db/EventTypeDao.kt:22-23 | the table's rows become the updated rows; keys stay unique |
| EventTypeDao.EventTypeTable.DeleteEventType | app/src/main/java/com/chouchou/ipredict/data/db/EventTypeDao.kt:25-26 | the row with the entity's key goes |
| EventTypeDao.EventTypeTable.ClearActiveEventTypes | app/src/main/java/com/chouchou/ipredict/data/db/EventTypeDao.kt:28-29 | no row stays active |
| EventTypeDao.EventTypeTable.SetActiveEventType | app/src/main/java/com/chouchou/ipredict/data/db/EventTypeDao.kt:31-32 | the row with that key becomes active, the other rows keep their flag |
| EventTypeRepository.ToEventTypes | app/src/main/java/com/chouchou/ipredict/data/repository/EventTypeRepository.kt:12-16 | one domain type per row, in order |
| EventTypeRepository.SwitchActive | app/src/main/java/com/chouchou/ipredict/data/repository/EventTypeRepository.kt:30-33 | clear then set: a row is active exactly when it has the key, nothing else changes, at most one row is active, and one is active exactly when the key exists |
| EventTypeRepository.OnlyKeyActive | app/src/main/java/com/chouchou/ipredict/data/repository/EventTypeRepository.kt:30-33 | with unique keys, flagging exactly the rows of one key leaves at most one active row, and one exactly when the key exists |
| EventTypeRepository.Repository.constructor | app/src/main/java/com/chouchou/ipredict/data/repository/EventTypeRepository.kt:9 | the repository over a table |
| EventTypeRepository.Repository.AllEventTypes | app/src/main/java/com/chouchou/ipredict/data/repository/EventTypeRepository.kt:12-16 | one domain type per stored row, a type is listed exactly when its row is stored, and the types are in name order under the binary collation |
| EventTypeRepository.Repository.ActiveEventType | app/src/main/java/com/chouchou/ipredict/data/repository/EventTypeRepository.kt:19-21 | null exactly when no row is active, otherwise the domain view of an active stored row |
| EventTypeRepository.Repository.InsertEventType | app/src/main/java/com/chouchou/ipredict/data/repository/EventTypeRepository.kt:24-27 | a new inactive type with the name and colour is appended under a fresh key |
| EventTypeRepository.Repository.InsertEventTypeWithDefaultColor | app/src/main/java/com/chouchou/ipredict/data/repository/EventTypeRepository.kt:24-27 | the same, with the colour defaulting to "#000000" |
| EventTypeRepository.Repository.SetActiveEventType | app/src/main/java/com/chouchou/ipredict/data/repository/EventTypeRepository.kt:30-33 | afterwards exactly the rows with that key are active, names and colours kept, at most one active |
| EventTypeRepository.Repository.DeleteEventType | app/src/main/java/com/chouchou/ipredict/data/repository/EventTypeRepository.kt:36-40 | the row with the type's key goes |
| EventTypeRepository.Repository.UpdateEventType | app/src/main/java/com/chouchou/ipredict/data/repository/EventTypeRepository.kt:43-47 | the row with the type's key takes all four of its fields |
| EventTypeRepository.Repository.InsertEventTypeEntity | app/src/main/java/com/chouchou/ipredict/data/repository/EventTypeRepository.kt:55-57 | the table's REPLACE insert, returning the key |
| Intervals.SortAscending | app/src/main/java/com/chouchou/ipredict/ui/analysis/AnalysisViewModel.kt:62 | the dates sorted ascending, a permutation of the input |
| Intervals.ComputeDayDiffs | app/src/main/java/com/chouchou/ipredict/ui/analysis/AnalysisViewModel.kt:65-70 | the loop yields exactly one truncated whole-day gap per neighbouring pair, in order |
| Intervals.DayGapsOfAscending | app/src/main/java/com/chouchou/ipredict/ui/analysis/AnalysisViewModel.kt:62-69 | n >= 2 ascending dates give n - 1 gaps, fewer give none, and no gap is negative |
| Intervals.DayGapsOrderIndependent | app/src/main/java/com/chouchou/ipredict/ui/analysis/AnalysisViewModel.kt:62 | the gaps of the sorted dates do not depend on the input order |
| Intervals.Frequency | app/src/main/java/com/chouchou/ipredict/ui/analysis/AnalysisViewModel.kt:73 | `groupingBy { it }.eachCount()`: keys are exactly the distinct gaps, each mapped to its number of occurrences |
| Intervals.FrequencyTotal | app/src/main/java/com/chouchou/ipredict/ui/analysis/AnalysisViewModel.kt:73 | the counts of the histogram add up to the number of gaps |
| Intervals.AverageCycleDays | app/src/main/java/com/chouchou/ipredict/ui/countdown/CountdownViewModel.kt:80-88 | the accumulator loop yields the truncating integer mean of the truncated gaps of the date-descending list |
| Intervals.SumOfGapsBounds | app/src/main/java/com/chouchou/ipredict/ui/countdown/CountdownViewModel.kt:82-86 | for a date-descending list the summed gaps are non-negative and at most the truncated span |
| Intervals.AverageBounds | app/src/main/java/com/chouchou/ipredict/ui/countdown/CountdownViewModel.kt:87 | the average of a date-descending history is non-negative and at most the span shared out over the gaps |
| Analysis.AnalysisOf | app/src/main/java/com/chouchou/ipredict/ui/analysis/AnalysisViewModel.kt:38-78 | fewer than two dates clear both results; otherwise n - 1 non-negative gaps and a histogram of exactly those gaps with their counts |
| Analysis.AnalysisFrequencyTotal | app/src/main/java/com/chouchou/ipredict/ui/analysis/AnalysisViewModel.kt:73 | the histogram's counts add up to one less than the number of dates |
| Analysis.AnalysisOrderIndependent | app/src/main/java/com/chouchou/ipredict/ui/analysis/AnalysisViewModel.kt:62 | the analysis depends only on which dates are present, not on their order |
| Analysis.UpdateAnalysisData | app/src/main/java/com/chouchou/ipredict/ui/analysis/AnalysisViewModel.kt:60-78 | the sort, gap loop and grouping produce the analysis of the dates |
| Analysis.DomainDates | app/src/main/java/com/chouchou/ipredict/data/repository/EventDateRepository.kt:27-33 | the domain view of a date-descending query holds exactly the rows' records, still newest first |
| Analysis.CurrentEventDates | app/src/main/java/com/chouchou/ipredict/ui/analysis/AnalysisViewModel.kt:31-35 | the active type's records when a type is active, otherwise every record; newest first |
| Analysis.AnalysisViewModel.constructor | app/src/main/java/com/chouchou/ipredict/ui/analysis/AnalysisViewModel.kt:21-25 | both results start empty |
| Analysis.AnalysisViewModel.OnEventDatesChanged | app/src/main/java/com/chouchou/ipredict/ui/analysis/AnalysisViewModel.kt:38-47 | the observer leaves exactly the analysis of the emitted list in both results |
| AnalysisAllDates.AllEventDates | app/app/src/main/java/com/chouchou/ipredict/ui/analysis/AnalysisViewModel.kt:26 | every stored record, newest first, with no type filter |
| AnalysisAllDates.AllDatesAnalysisViewModel.constructor | app/app/src/main/java/com/chouchou/ipredict/ui/analysis/AnalysisViewModel.kt:18-22 | both results start empty |
| AnalysisAllDates.AllDatesAnalysisViewModel.OnAllEventDatesChanged | app/app/src/main/java/com/chouchou/ipredict/ui/analysis/AnalysisViewModel.kt:26-35 | the observer leaves exactly the analysis of every stored record in both results |
| Countdown.NextEventDate | app/src/main/java/com/chouchou/ipredict/ui/countdown/CountdownViewModel.kt:112-117 | the expected date lies exactly `avg` whole days after the last record |
| Countdown.CountdownOf | app/src/main/java/com/chouchou/ipredict/ui/countdown/CountdownViewModel.kt:124-148 | exactly one of three labels by the sign of the truncated day difference; the count is never negative; progress is (avg - days left) / avg while counting down and 1 otherwise |
| Countdown.ProgressIsFraction | app/src/main/java/com/chouchou/ipredict/ui/countdown/CountdownViewModel.kt:133-147 | with a positive cycle and a last record not in the future, progress lies between 0 and 1, below 1 while days remain |
| Countdown.CountdownWindow | app/src/main/java/com/chouchou/ipredict/ui/countdown/CountdownViewModel.kt:124-130 | a countdown of k > 0 days is shown exactly when now lies between k + 1 and k days before the expected date |
| Countdown.CountdownViewModel.constructor | app/src/main/java/com/chouchou/ipredict/ui/countdown/CountdownViewModel.kt:37-58 | the average starts at 28 and nothing is displayed |
| Countdown.CountdownViewModel.UpdateCountdown | app/src/main/java/com/chouchou/ipredict/ui/countdown/CountdownViewModel.kt:107-149 | the expected date is shown formatted, and count, label and progress are those of the three-way rule; the average is untouched |
| Countdown.CountdownViewModel.OnEventDatesLoaded | app/src/main/java/com/chouchou/ipredict/ui/countdown/CountdownViewModel.kt:79-93 | two or more records reset the average to the truncating mean; the newest record, if any, drives the countdown; an empty list leaves the display alone |
| Countdown.CountdownViewModel.LoadEventDatesByType | app/src/main/java/com/chouchou/ipredict/ui/countdown/CountdownViewModel.kt:78-94 | over the records of that type, newest first: two or more reset the average and the cycle days to the truncating mean, fewer leave both alone; the newest record drives the expected date, count, label and progress; no record leaves the display alone |
| Countdown.CountdownViewModel.RecordEvent | app/src/main/java/com/chouchou/ipredict/ui/countdown/CountdownViewModel.kt:97-105 | a record for now is appended under the active type, or type 1 when none is active |
| Countdown.AverageOfQueryIsNonNegative | app/src/main/java/com/chouchou/ipredict/ui/countdown/CountdownViewModel.kt:80-88 | over a type's query result the average is non-negative, so the expected date is never before the last record |
| CountdownPercent.PercentCountdownOf | app/app/src/main/java/com/chouchou/ipredict/ui/countdown/CountdownViewModel.kt:88-107 | two labels only: counting down for a difference of zero or more, overdue below; progress 100 (avg - days left) / avg or 100 |
| CountdownPercent.PercentInRange | app/app/src/main/java/com/chouchou/ipredict/ui/countdown/CountdownViewModel.kt:97-99 | with a positive cycle and a last record not in the future, the percentage lies between 0 and 100 |
| CountdownPercent.EditionsAgree | app/app/src/main/java/com/chouchou/ipredict/ui/countdown/CountdownViewModel.kt:91-107 | the two editions show the same day count and the same progress up to the factor 100, and differ only in the label of the due day |
| CountdownPercent.PercentCountdownViewModel.constructor | app/app/src/main/java/com/chouchou/ipredict/ui/countdown/CountdownViewModel.kt:22-40 | the average starts at 28 and nothing is displayed |
| CountdownPercent.PercentCountdownViewModel.UpdateCountdown | app/app/src/main/java/com/chouchou/ipredict/ui/countdown/CountdownViewModel.kt:71-108 | the expected date is shown formatted, and count, label and percentage are those of the two-way rule |
| CountdownPercent.PercentCountdownViewModel.OnAllEventDatesChanged | app/app/src/main/java/com/chouchou/ipredict/ui/countdown/CountdownViewModel.kt:44-60 | over every stored record: two or more reset the average, the newest one drives the countdown, none leaves the display alone |
| CountdownPercent.PercentCountdownViewModel.RecordEvent | app/app/src/main/java/com/chouchou/ipredict/ui/countdown/CountdownViewModel.kt:64-69 | a record for now is appended under the default type 1 |
| NotificationService.MidnightBounds | services/NotificationService.ts:144-148 | the start of a day is a day boundary at most a day before any instant in that day |
| NotificationService.HourBounds | services/NotificationService.ts:160 | `getHours()` is one of 24 hours and the instant lies within that hour of its day |
| NotificationService.SameDayMeaning | services/NotificationService.ts:117-123 | `isSameDay` holds exactly when the second instant falls in the first one's day, i.e. when the two days start together |
| NotificationService.NotificationTimeFacts | services/NotificationService.ts:155-165 | a trigger is always at 08:00: on the base day, or the next day when the base day is today and 08:00 has passed |
| NotificationService.SchedulingInDays | services/NotificationService.ts:143-193 | the day-before reminder is scheduled exactly when today is at least `daysBefore` days before the target day; the day-of reminder exactly when the target day is later than today, or is today before 08:00 |
| NotificationService.TriggersAfterNow | services/NotificationService.ts:155-193 | every reminder that is scheduled fires strictly after now |
| NotificationService.RoundHalfUp | services/NotificationService.ts:261 | `Math.round(total / count)`: the integer within half a unit of the quotient, halves rounded up |
| NotificationService.RoundHalfUpUnique | services/NotificationService.ts:261 | any integer within half a unit of the quotient (halves up) is the rounded value |
| NotificationService.TruthyCount | services/NotificationService.ts:253-258 | no more intervals are counted than there are records |
| NotificationService.AverageIntervalOf | services/NotificationService.ts:250-262 | 30 when no record has a truthy interval, otherwise the rounded mean of the truthy ones |
| NotificationService.ConstantIntervalsAverage | services/NotificationService.ts:250-262 | when every record carries the same non-zero interval, that interval is the average |
| NotificationService.AverageInterval | services/NotificationService.ts:250-262 | the `forEach` accumulator yields the rounded mean of the truthy intervals, or 30 |
| NotificationService.SortNewestFirst | services/NotificationService.ts:240-247 | a permutation sorted newest first whose first entry is a record with no later date |
| NotificationService.ExpectedDate | services/NotificationService.ts:265-267 | the expected date lies exactly the average interval in whole days after the newest record |
| NotificationService.KeysDistinct | services/NotificationService.ts:140-141 | the day-before and day-of keys of an event never collide |
| NotificationService.NotificationCenter.constructor | services/NotificationService.ts:5-6 | nothing stored and nothing pending |
| NotificationService.NotificationCenter.SaveNotificationId | services/NotificationService.ts:51-65 | the key now maps to the id; nothing else changes |
| NotificationService.NotificationCenter.GetNotificationId | services/NotificationService.ts:68-82 | the stored id of the key, or null exactly when none is stored |
| NotificationService.NotificationCenter.ScheduleNotification | services/NotificationService.ts:172-183 | the system keeps the notification under a fresh id and returns it |
| NotificationService.NotificationCenter.CancelNotification | services/NotificationService.ts:85-104 | a stored id is cancelled with the system and its key removed; an unknown key changes nothing |
| NotificationService.NotificationCenter.CancelAllNotifications | services/NotificationService.ts:107-114 | nothing pending and nothing stored |
| NotificationService.NotificationCenter.ScheduleCountdownNotification | services/NotificationService.ts:126-219 | without permission false and no change; otherwise true, other keys untouched, each reminder registered exactly when its condition holds, pending at its 08:00 trigger, the ids formerly stored under the event's two keys are no longer pending, every other pending notification keeps its trigger, every newly pending id is one the system handed out during the call (at least the old next id and below the new one), and no notification pending that was neither pending before nor registered |
| NotificationService.ReplacedIds | services/NotificationService.ts:140-141 | an id is replaced exactly when it is stored under the event's day-before or day-of key |
| NotificationService.NotificationCenter.CancelEventReminders | services/NotificationService.ts:140-141 | both of the event's keys are removed, the ids stored under them are no longer pending, and every other key and pending notification is unchanged |
| NotificationService.NotificationCenter.ScheduleReminder | services/NotificationService.ts:172-186 | one reminder is scheduled and its fresh id stored under the key; every notification pending before keeps its trigger and the fresh id is the only new one |
| NotificationService.NotificationCenter.UpdateAllCountdownNotifications | services/NotificationService.ts:222-281 | without permission false and nothing changes, the id counter included; otherwise everything is cancelled, only the newest record's two reminders for the expected date can be registered, each exactly when its condition holds and pending at its 08:00 trigger (the day before, and the expected day), and the pending notifications are exactly the registered ones |
| DatesCsv.CurrentEventTypeId | app/src/main/java/com/chouchou/ipredict/ui/dates/DatesViewModel.kt:70 | the active type's id, or 1 when none is active |
| DatesCsv.AddEventDate | app/src/main/java/com/chouchou/ipredict/ui/dates/DatesViewModel.kt:69-74 | a record of the current type is appended under a fresh key |
| DatesCsv.DeleteEventDate | app/src/main/java/com/chouchou/ipredict/ui/dates/DatesViewModel.kt:77-81 | the record with that key goes |
| DatesCsv.SortByDate | app/src/main/java/com/chouchou/ipredict/ui/dates/DatesViewModel.kt:104 | oldest first, a permutation of the records |
| DatesCsv.DayDiffAt | app/src/main/java/com/chouchou/ipredict/ui/dates/DatesViewModel.kt:119-124 | 0 on the first row, otherwise the non-negative whole days since the previous row |
| DatesCsv.ExportLines | app/src/main/java/com/chouchou/ipredict/ui/dates/DatesViewModel.kt:115-127 | the header, then for each record, oldest first, the row number from 1, date, interval and type |
| DatesCsv.ExportDataToCsv | app/src/main/java/com/chouchou/ipredict/ui/dates/DatesViewModel.kt:98-127 | on the records and type id the caller supplies (the view model passes `CurrentEventDates` and `CurrentEventTypeId`): no records fails with "没有数据可导出"; otherwise the written lines are the export lines |
| DatesCsv.ExportLinesMatch | app/src/main/java/com/chouchou/ipredict/ui/dates/DatesViewModel.kt:118-127 | lines holding the header and, at each place k, row k - 1 are the exported file |
| DatesCsv.ExportLinesData | app/src/main/java/com/chouchou/ipredict/ui/dates/DatesViewModel.kt:115-126 | the exported file is its header followed by one data row per record |
| DatesCsv.ImportLine | app/src/main/java/com/chouchou/ipredict/ui/dates/DatesViewModel.kt:192-231 | a line with fewer than two fields changes nothing; any other moves exactly one counter; at most one record is inserted, with a date text not yet known, which then becomes known |
| DatesCsv.CountedLines | app/src/main/java/com/chouchou/ipredict/ui/dates/DatesViewModel.kt:193 | no more lines are counted than there are |
| DatesCsv.ImportLines | app/src/main/java/com/chouchou/ipredict/ui/dates/DatesViewModel.kt:186-233 | the counters grow by the counted lines; every insert is counted; inserted date texts are new and pairwise distinct |
| DatesCsv.ImportOf | app/src/main/java/com/chouchou/ipredict/ui/dates/DatesViewModel.kt:181-235 | the header is skipped; the counters add up to the counted lines; no inserted date text was stored before or repeats another |
| DatesCsv.NewRows | app/src/main/java/com/chouchou/ipredict/ui/dates/DatesViewModel.kt:218 | the inserted records land under consecutive fresh keys with an empty note |
| DatesCsv.NewRowsAppend | app/src/main/java/com/chouchou/ipredict/ui/dates/DatesViewModel.kt:218 | one more insert appends one row under the next key |
| DatesCsv.InsertImported | app/src/main/java/com/chouchou/ipredict/ui/dates/DatesViewModel.kt:218 | `insertEventDate` of an imported record appends it under the next key |
| DatesCsv.InsertsStayFresh | app/src/main/java/com/chouchou/ipredict/ui/dates/DatesViewModel.kt:198-222 | one more step of the fold keeps the inserts an extension, with new, known and distinct date texts |
| DatesCsv.ImportCsvLine | app/src/main/java/com/chouchou/ipredict/ui/dates/DatesViewModel.kt:192-231 | the loop body leaves the state of `ImportLine` and the table with the inserted rows appended |
| DatesCsv.ImportDataFromCsv | app/src/main/java/com/chouchou/ipredict/ui/dates/DatesViewModel.kt:163-236 | the counters and the table are those of the fold against every stored date text and the current type |
| DatesCsv.SplitJoinFour | app/src/main/java/com/chouchou/ipredict/ui/dates/DatesViewModel.kt:126-192 | four comma-free fields joined with commas split back into themselves |
| DatesCsv.ExportedRowFields | app/src/main/java/com/chouchou/ipredict/ui/dates/DatesViewModel.kt:192-209 | an exported row splits into its four fields, and the date and type columns trim to the date text and the type id |
| DatesCsv.ImportLineInserts | app/src/main/java/com/chouchou/ipredict/ui/dates/DatesViewModel.kt:195-222 | a line with a new, readable date text is inserted with the type its fourth column gives |
| DatesCsv.ExportedRowReadsBack | app/src/main/java/com/chouchou/ipredict/ui/dates/DatesViewModel.kt:192-222 | an exported row is read back with the same date text and type id, whatever the current type |
| DatesCsv.DistinctTextsPermuted | app/src/main/java/com/chouchou/ipredict/ui/dates/DatesViewModel.kt:104 | sorting keeps the formatted dates of distinct positions distinct |
| DatesCsv.ImportLinesStep | app/src/main/java/com/chouchou/ipredict/ui/dates/DatesViewModel.kt:186-233 | reading one more line extends the fold by one step |
| DatesCsv.RoundTripPrefix | app/src/main/java/com/chouchou/ipredict/ui/dates/DatesViewModel.kt:186-222 | importing the first k exported rows counts k imports and reads back each row |
| DatesCsv.RoundTripFile | app/src/main/java/com/chouchou/ipredict/ui/dates/DatesViewModel.kt:186-235 | an exported file, header included, reads back row by row |
| DatesCsv.SortedDatesReadable | app/src/main/java/com/chouchou/ipredict/ui/dates/DatesViewModel.kt:104 | sorting keeps date texts clean, readable and distinct |
| DatesCsv.ExportImportRoundTrip | app/src/main/java/com/chouchou/ipredict/ui/dates/DatesViewModel.kt:104-235 | exporting records whose dates format to distinct clean readable texts and importing the file into an empty store counts every record as imported, none as duplicate or error, with the same date texts and type id, oldest first |
| DatesCsvAll.TypeDates | app/src/main/java/com/chouchou/ipredict/ui/dates/DatesViewModel.kt:268-270 | one type's stored records, oldest first |
| DatesCsvAll.TypeDatesMembers | app/src/main/java/com/chouchou/ipredict/ui/dates/DatesViewModel.kt:268-270 | those are exactly the stored records of that type |
| DatesCsvAll.TypeBlock | app/src/main/java/com/chouchou/ipredict/ui/dates/DatesViewModel.kt:273-282 | one row per date: type id, type name, date, interval |
| DatesCsvAll.EveryRecordExported | app/src/main/java/com/chouchou/ipredict/ui/dates/DatesViewModel.kt:266-282 | every stored record of an exported type appears in the file |
| DatesCsvAll.EveryRowStored | app/src/main/java/com/chouchou/ipredict/ui/dates/DatesViewModel.kt:266-282 | every data row of the file belongs to an exported type and one of its stored records |
| DatesCsvAll.AllTypesBlocksStep | app/src/main/java/com/chouchou/ipredict/ui/dates/DatesViewModel.kt:266-283 | the rows of k + 1 types are those of k types followed by type k's block |
| DatesCsvAll.AppendTypeBlock | app/src/main/java/com/chouchou/ipredict/ui/dates/DatesViewModel.kt:273-282 | the inner loop appends exactly the type's block |
| DatesCsvAll.ExportAllRows | app/src/main/java/com/chouchou/ipredict/ui/dates/DatesViewModel.kt:263-283 | the outer loop writes the header then each type's block in turn |
| DatesCsvAll.AppendNextType | app/src/main/java/com/chouchou/ipredict/ui/dates/DatesViewModel.kt:266-283 | one turn of the outer loop appends the next type's block |
| DatesCsvAll.ExportAllEventTypesData | app/src/main/java/com/chouchou/ipredict/ui/dates/DatesViewModel.kt:250-295 | no type fails with "没有事件类型可导出"; otherwise the header and each type's block, types by name |
| DatesCsvAll.ExportedAllRowFields | app/src/main/java/com/chouchou/ipredict/ui/dates/DatesViewModel.kt:345-350 | an exported row splits into its four fields, whose name column trims to the trimmed name and whose date column trims to the date text |
| DatesCsvAll.NameMapLastWins | app/src/main/java/com/chouchou/ipredict/ui/dates/DatesViewModel.kt:334 | `associateBy { it.name }` knows exactly the stored names, each mapped to the key of the last type carrying it |
| DatesCsvAll.WithType | app/src/main/java/com/chouchou/ipredict/ui/dates/DatesViewModel.kt:352-377 | a known name changes nothing; an unknown one is created once and cached, with no known date text |
| DatesCsvAll.RecordDate | app/src/main/java/com/chouchou/ipredict/ui/dates/DatesViewModel.kt:379-396 | exactly one counter moves; a text known for the type inserts nothing; an insert carries the type and text |
| DatesCsvAll.ImportAllLine | app/src/main/java/com/chouchou/ipredict/ui/dates/DatesViewModel.kt:345-401 | fewer than three fields change nothing; any other line moves exactly one counter; every insert is counted |
| DatesCsvAll.RecordLines | app/src/main/java/com/chouchou/ipredict/ui/dates/DatesViewModel.kt:346 | no more lines are counted than there are |
| DatesCsvAll.ImportAllLines | app/src/main/java/com/chouchou/ipredict/ui/dates/DatesViewModel.kt:339-402 | the counters grow by the record lines and every insert is counted |
| DatesCsvAll.ImportAllOf | app/src/main/java/com/chouchou/ipredict/ui/dates/DatesViewModel.kt:321-409 | the header is skipped and the counters add up to the record lines |
| DatesCsvAll.StoredDateSetsAsWritten | app/src/main/java/com/chouchou/ipredict/ui/dates/DatesViewModel.kt:313-319 | as written, every stored date text is filed under key 1 and no other |
| DatesCsvAll.StoredDateSetsFiled | app/src/main/java/com/chouchou/ipredict/ui/dates/DatesViewModel.kt:313-319 | corrected, each type's set holds exactly the date texts of that type's records |
| DatesCsvAll.GroupExistingDates | app/src/main/java/com/chouchou/ipredict/ui/dates/DatesViewModel.kt:313-319 | the grouping loop, corrected, builds those sets |
| DatesCsvAll.CreatedKeys | app/src/main/java/com/chouchou/ipredict/ui/dates/DatesViewModel.kt:361-373 | a created type's key is one of the fresh keys handed out during the import |
| DatesCsvAll.WithTypeConsistent | app/src/main/java/com/chouchou/ipredict/ui/dates/DatesViewModel.kt:352-377 | resolving a name keeps the import's invariant and yields a key handed out so far |
| DatesCsvAll.RecordDateConsistent | app/src/main/java/com/chouchou/ipredict/ui/dates/DatesViewModel.kt:379-393 | recording a date keeps the import's invariant |
| DatesCsvAll.ImportAllLineConsistent | app/src/main/java/com/chouchou/ipredict/ui/dates/DatesViewModel.kt:345-401 | one line keeps the import's invariant |
| DatesCsvAll.ImportAllLinesConsistent | app/src/main/java/com/chouchou/ipredict/ui/dates/DatesViewModel.kt:339-402 | the whole fold keeps the import's invariant |
| DatesCsvAll.ImportAllNoDuplicates | app/src/main/java/com/chouchou/ipredict/ui/dates/DatesViewModel.kt:353-393 | with the corrected grouping: at most one new type per name and only for unknown names, no record repeats a stored record of its type and date, and no two inserts share a type and date |
| DatesCsvAll.OneRowFile | app/src/main/java/com/chouchou/ipredict/ui/dates/DatesViewModel.kt:339-343 | a file of a header and one row is that row read from the start |
| DatesCsvAll.ImportAllLineFields | app/src/main/java/com/chouchou/ipredict/ui/dates/DatesViewModel.kt:345-350 | a line whose columns read a name and a date text records that date under the name's type |
| DatesCsvAll.KnownTypeRowFile | app/src/main/java/com/chouchou/ipredict/ui/dates/DatesViewModel.kt:352-393 | a one-row file naming a stored type records its date under that type's key |
| DatesCsvAll.RecordNewDate | app/src/main/java/com/chouchou/ipredict/ui/dates/DatesViewModel.kt:379-393 | a readable date text for a type with no known texts is inserted |
| DatesCsvAll.UnknownTypeRowFile | app/src/main/java/com/chouchou/ipredict/ui/dates/DatesViewModel.kt:379-393 | a one-row file for a type with no known texts imports the row once |
| DatesCsvAll.StoredTypeDateReimported | app/src/main/java/com/chouchou/ipredict/ui/dates/DatesViewModel.kt:313-319 | as written, a row repeating a stored record of a type other than 1 is inserted again |
| DatesCsvAll.StoredTypeDateDuplicate | app/src/main/java/com/chouchou/ipredict/ui/dates/DatesViewModel.kt:379-384 | corrected, the same row counts as a duplicate and inserts nothing |
| DatesCsvAll.CreatedTypeRowsAppend | app/src/main/java/com/chouchou/ipredict/ui/dates/DatesViewModel.kt:363-370 | one more created row keeps the created rows in key order after the stored ones |
| DatesCsvAll.CreateEventType | app/src/main/java/com/chouchou/ipredict/ui/dates/DatesViewModel.kt:363-370 | a new inactive type with one of the colour options lands under the next key |
| DatesCsvAll.ResolveEventType | app/src/main/java/com/chouchou/ipredict/ui/dates/DatesViewModel.kt:352-377 | the lookup yields the resolved key and state, creating the type when the name is unknown |
| DatesCsvAll.RecordEventDate | app/src/main/java/com/chouchou/ipredict/ui/dates/DatesViewModel.kt:379-396 | the duplicate check and insert leave the state of `RecordDate` and the inserted row appended |
| DatesCsvAll.ImportAllCsvLine | app/src/main/java/com/chouchou/ipredict/ui/dates/DatesViewModel.kt:345-401 | the loop body leaves the state of `ImportAllLine` and both tables updated to match |
| DatesCsvAll.ImportAllRows | app/src/main/java/com/chouchou/ipredict/ui/dates/DatesViewModel.kt:339-402 | the read loop leaves the state of the fold and both tables updated to match |
| DatesCsvAll.ImportAllEventTypesData | app/src/main/java/com/chouchou/ipredict/ui/dates/DatesViewModel.kt:304-410 | the counters, inserted records, created types and message are those of the fold over the corrected grouping |
| DateAdapter.ToInt32 | app/src/main/java/com/chouchou/ipredict/ui/dates/DateAdapter.kt:61 | `toInt()`: within the 32-bit range, congruent to the input modulo 2^32, and the identity on 32-bit values |
| DateAdapter.PreviousItem | app/src/main/java/com/chouchou/ipredict/ui/dates/DateAdapter.kt:40 | the item below, absent exactly for the last row |
| DateAdapter.DayDiff | app/src/main/java/com/chouchou/ipredict/ui/dates/DateAdapter.kt:60-61 | a 32-bit whole-day count, the truncated gap whenever that fits |
| DateAdapter.IntervalText | app/src/main/java/com/chouchou/ipredict/ui/dates/DateAdapter.kt:62 | the interval text starts with "间", so it is never the first-record text |
| DateAdapter.Bind | app/src/main/java/com/chouchou/ipredict/ui/dates/DateAdapter.kt:56-66 | the formatted date, and the first-record text exactly when there is no previous record, the interval text otherwise |
| DateAdapter.OnBindViewHolder | app/src/main/java/com/chouchou/ipredict/ui/dates/DateAdapter.kt:38-43 | row p shows its date, and "首次记录" exactly when it is the last row, otherwise the interval to row p + 1 |
| DateAdapter.IntervalAt | app/src/main/java/com/chouchou/ipredict/ui/dates/DateAdapter.kt:39-42 | a row shows an interval exactly when it is not the last |
| DateAdapter.DescendingIntervalsNonNegative | app/src/main/java/com/chouchou/ipredict/ui/dates/DateAdapter.kt:39-61 | in a newest-first list, every interval shown is the non-negative truncated gap to the row below |
| DateAdapter.IntervalsAreDayGaps | app/src/main/java/com/chouchou/ipredict/ui/dates/DateAdapter.kt:39-61 | read from the bottom up, the list shows the same gaps as the analysis of the dates in that order |
| DateAdapter.DiffCallbackExact | app/src/main/java/com/chouchou/ipredict/ui/dates/DateAdapter.kt:69-77 | same item and same contents together hold exactly for equal records |
| DateAdapter.OnSwiped | app/src/main/java/com/chouchou/ipredict/ui/dates/DateAdapter.kt:123-129 | nothing is deleted exactly at `NO_POSITION`, otherwise the item at that position |
| Gradients.PresetNamed | constants/Gradients.ts:2-59 | a preset exists exactly for the four names, and 'default' gives the default preset |
| GradientCard.IsDark | components/ui/GradientCard.tsx:20-21 | dark exactly when the scheme is 'dark'; a missing scheme counts as light |
| GradientCard.SelectGradient | components/ui/GradientCard.tsx:23-37 | neutral cards take the neutral gradient; warning and primary cards their light or dark variant |
| GradientCard.Slice | components/ui/GradientCard.tsx:43-45 | `slice` within bounds is the substring, and never longer than the string |
| GradientCard.HexDigitValue | components/ui/GradientCard.tsx:43-45 | a hexadecimal digit is worth less than 16 |
| GradientCard.HexPairValue | components/ui/GradientCard.tsx:43-45 | two hexadecimal digits make a byte, the first counting sixteen times |
| GradientCard.HexPrefix | components/ui/GradientCard.tsx:43-45 | the longest prefix of hexadecimal digits |
| GradientCard.ParseIntHex | components/ui/GradientCard.tsx:43-45 | `parseInt(s, 16)`: NaN exactly when no digit follows the prefix, otherwise the signed value of the longest digit run |
| GradientCard.ParseIntHexDigits | components/ui/GradientCard.tsx:43-45 | a run of hexadecimal digits parses to its value |
| GradientCard.NumberText | components/ui/GradientCard.tsx:46 | "NaN" for a missing number, the decimal text otherwise |
| GradientCard.ToRgba | components/ui/GradientCard.tsx:40-49 | colours not starting with '#' pass through; the others become `rgba(...)` of the parsed pairs at 1-2, 3-4 and 5-6 |
| GradientCard.MapColors | components/ui/GradientCard.tsx:40-49 | one converted colour per colour, in order |
| GradientCard.Channel | components/ui/GradientCard.tsx:43-45 | each pair of a `#RRGGBB` colour is a byte |
| GradientCard.HexPairOf | components/ui/GradientCard.tsx:43-45 | each pair of a `#RRGGBB` colour parses to its byte |
| GradientCard.WellFormedToRgba | components/ui/GradientCard.tsx:42-46 | a `#RRGGBB` colour becomes `rgba(r, g, b, opacity)` of its three bytes |
| GradientCard.HexColorToRgba | components/ui/GradientCard.tsx:42-46 | the conversion reads the three bytes of a colour back exactly |
| GradientCard.CardGradientsWellFormed | constants/Gradients.ts:63-88 | every colour of the five card gradients is a well-formed `#RRGGBB` |
| GradientCard.CardColors | components/ui/GradientCard.tsx:14-49 | the colours passed to the gradient, with type 'primary', opacity 0.1 and the light scheme as defaults |
| GradientCard.CardColorsInRange | components/ui/GradientCard.tsx:14-49 | every colour the card shows is the `rgba(...)` of the bytes of the chosen gradient's colour at the same place |
| ThemeService.Loaded | constants/Gradients.ts:61 | on load the store is as left and the default preset is in use |
| ThemeService.PresetNameOf | services/ThemeService.ts:9-17 | the stored name, or 'default' when nothing or the empty string is stored; never empty |
| ThemeService.SetPreset | services/ThemeService.ts:20-44 | the intended switch (corrected half of the Findings row): 'custom' loads the saved theme when there is one; a preset name applies that preset; any other name applies the default and stores 'default'; the custom entry is kept |
| ThemeService.SaveCustom | services/ThemeService.ts:47-58 | the intended save (corrected half of the Findings row): the theme is stored and applied, and 'custom' becomes the stored name |
| ThemeService.StoredNameAccepted | services/ThemeService.ts:20-44 | the name stored after a switch is always one the switch accepts as it is |
| ThemeService.SetPresetIdempotent | services/ThemeService.ts:20-44 | choosing the same preset twice leaves the state of choosing it once |
| ThemeService.InitAfterSetPreset | services/ThemeService.ts:61-68 | re-initialising right after a switch changes nothing |
| ThemeService.InitAfterSave | services/ThemeService.ts:61-68 | re-initialising right after saving a custom theme changes nothing |
| ThemeService.CustomThemeRestored | services/ThemeService.ts:22-27 | a saved custom theme comes back when 'custom' is chosen after any other preset |
| ThemeService.OperationsKeepCoherent | services/ThemeService.ts:20-68 | every operation keeps the theme in use the one the store designates |
| ThemeService.RestartRestoresTheme | services/ThemeService.ts:61-68 | after a restart the theme of a coherent state comes back, and an empty store then holds 'default' |
| ThemeService.SetPresetAsWritten | services/ThemeService.ts:20-44 | as written: the switch succeeds exactly for 'custom' with no custom theme saved, and then agrees with `SetPreset`; every other switch assigns to the read-only imported `CurrentGradients`, throws, answers false and changes nothing |
| ThemeService.SaveCustomAsWritten | services/ThemeService.ts:47-58 | as written: the JSON is stored as `SaveCustom` stores it, then the assignment throws, so the answer is false and neither the theme in use nor the stored name changes |
| ThemeService.InitAsWritten | services/ThemeService.ts:61-68 | as written: start-up leaves the theme in use and the custom entry as they were |
| ThemeService.PresetSwitchFailsAsWritten | services/ThemeService.ts:28-30 | as written, choosing a preset answers false and changes nothing, where the intended switch stores the name and applies the preset |
| ThemeService.CustomThemeLostAsWritten | services/ThemeService.ts:22-27 | as written, choosing 'custom' after saving a custom theme fails and the theme in use stays as it was |
| ThemeService.RestartKeepsDefaultAsWritten | services/ThemeService.ts:61-68 | as written, the default preset stays in use after a restart whatever is stored; with 'blueOcean' stored, the intended restart applies that preset |
| ThemeService.IncoherentAsWritten | services/ThemeService.ts:47-52 | as written, choosing 'custom' before any custom theme is saved and then saving one leaves a state the store does not designate |
| ThemeService.ThemeStore.SetThemePresetAsWritten | services/ThemeService.ts:20-44 | the method's answer and new state are those of `SetPresetAsWritten` |
| ThemeService.ThemeStore.SaveCustomThemeAsWritten | services/ThemeService.ts:47-58 | the method's answer and new state are those of `SaveCustomAsWritten` |
| ThemeService.ThemeStore.InitThemeAsWritten | services/ThemeService.ts:61-68 | the new state is that of `InitAsWritten` |
| ThemeService.ThemeStore.constructor | constants/Gradients.ts:61 | the store as persisted, the default preset in use |
| ThemeService.ThemeStore.GetCurrentThemePresetName | services/ThemeService.ts:9-17 | the stored name, or 'default' |
| ThemeService.ThemeStore.SetThemePreset | services/ThemeService.ts:20-44 | the intended switch: true, and the state becomes `SetPreset` of the old state |
| ThemeService.ThemeStore.SaveCustomTheme | services/ThemeService.ts:47-58 | the intended save: true, and the state becomes `SaveCustom` of the old state |
| ThemeService.ThemeStore.InitTheme | services/ThemeService.ts:61-68 | the intended start-up: the stored name, read back, is applied again through `SetThemePreset` |

## Left out

- **I/O.** File creation, `FileProvider` URIs, file names and the
  reader/writer plumbing are not modelled. The CSV files are sequences of
  lines. Exceptions from I/O and their texts ("文件创建失败", "无法读取文件",
  "导入过程中发生错误") are not modelled either.
- **Concurrency.** Coroutines, `Dispatchers.IO` and LiveData observers are
  not modelled. Each observer callback is a method that takes the list the
  query emits. Observers that are registered with `observeForever` and
  never removed are not modelled.
- **Calendar arithmetic.** `Calendar.add(DAY_OF_MONTH, n)` and JavaScript
  `setDate(getDate() + n)` are modelled as adding n whole days of
  milliseconds. Daylight-saving shifts and time zones are not modelled.
- **Floating point.** Progress values are exact ratios, not `Float`. The
  gradient opacity is carried as its text.
- **Custom theme JSON.** The custom theme's JSON serialisation is not
  modelled: AsyncStorage holds the theme value itself. Storage failures
  are not modelled. The only failure modelled is the throw from assigning
  to the imported `CurrentGradients` (see "## Findings").
- **Preset lookup.** `GradientPresets[name]` can also hit inherited
  JavaScript object keys. Only the four preset names are modelled.
- **`parseInt` precision.** The loss of precision above 2^53 is not
  modelled: hex values are exact integers.
- **New-type colour.** The random colour of a type created by the import is
  an arbitrary choice among the colour options.
- **Notification records.** A `daysSinceLastRecord` that is not a number
  is not modelled. The interval is an optional integer and counts when it
  is non-zero.
- **Notification permission.** The permission request and the iOS
  notification category are not modelled. The permission result is an
  argument.
- **`getAllExistingDates` fallback.** Its fallback that reads the LiveData
  value when the synchronous query throws is not modelled.
- **Commas in names.** Event type names are assumed to hold no comma when
  the all-types export is read back. The import itself splits whatever it
  is given.
- **Unicode digits in `toInt()`.** Kotlin's `String.toInt()` also accepts
  non-ASCII decimal digits. `Text.ParseInt` reads only '0' to '9', the digits
  of the app's own exported fields.
- **Unused gradients.** The `countdown`, `date` and `analytics`
  gradients are unused by the modelled code and not modelled.
- DatesCsv.DayDiffAt: the interval written to the export is the truncated
  gap without the `.toInt()` wrap to 32 bits, so it is exact only for
  gaps within the 32-bit day range.
- Intervals.ComputeDayDiffs: the gaps are not wrapped to 32 bits by
  `.toInt()`.
- Intervals.AverageCycleDays: the gaps and the running `totalDays` are not
  wrapped to 32 bits.
- Countdown.CountdownOf: `diffInDays.toInt()` is not modelled. The day
  difference is the exact truncated count.
- CountdownPercent.PercentCountdownOf: `diffInDays.toInt()` is not
  modelled either.
- SetPreset: states the intended switch. As written, every switch that
  assigns to `CurrentGradients` throws and answers false;
  `ThemeService.SetPresetAsWritten` models that (see "## Findings").
- SaveCustom: states the intended save. As written, the save throws after
  storing the JSON; `ThemeService.SaveCustomAsWritten` models that.
- CustomThemeRestored: holds of the intended switch only. As written,
  choosing 'custom' with a saved theme throws
  (`ThemeService.CustomThemeLostAsWritten`).
- OperationsKeepCoherent: holds of the intended operations only. As
  written, the store can name 'custom' with a saved theme while the default
  stays in use (`ThemeService.IncoherentAsWritten`).
- RestartRestoresTheme: holds of the intended start-up only. As written,
  no stored preset is applied on restart
  (`ThemeService.RestartKeepsDefaultAsWritten`).
- ThemeService.ThemeStore.SetThemePreset, SaveCustomTheme and InitTheme:
  state the intended behaviour. The `AsWritten` methods beside them model
  the code as written.
- Sorting.SortBy: stability is not stated. The contract states sortedness
  and permutation only.

## Findings

| source | as written | input that shows it | evidently intended | confidence | as-written member | corrected member |
|---|---|---|---|---|---|---|
| services/ThemeService.ts:26-50 | `setThemePreset` and `saveCustomTheme` assign to `CurrentGradients`. That name is imported (line 2) from the `export let` at constants/Gradients.ts:61. An imported binding is read-only, and the module transform turns each assignment into a throw, which the `catch` turns into false | `setThemePreset("blueOcean")` on any state: the assignment at line 30 throws, the answer is false, and line 38 never stores the name. `saveCustomTheme(t)`: line 49 stores the JSON, line 50 throws, and 'custom' is never stored | the switch applies the chosen theme and stores its name; the save applies the theme and stores 'custom' | not executed | ThemeService.SetPresetAsWritten, ThemeService.SaveCustomAsWritten, ThemeService.InitAsWritten, ThemeService.PresetSwitchFailsAsWritten, ThemeService.CustomThemeLostAsWritten, ThemeService.RestartKeepsDefaultAsWritten, ThemeService.IncoherentAsWritten, ThemeService.ThemeStore.SetThemePresetAsWritten, ThemeService.ThemeStore.SaveCustomThemeAsWritten, ThemeService.ThemeStore.InitThemeAsWritten | ThemeService.SetPreset, ThemeService.SaveCustom, ThemeService.CustomThemeRestored, ThemeService.OperationsKeepCoherent, ThemeService.RestartRestoresTheme, ThemeService.ThemeStore.SetThemePreset, ThemeService.ThemeStore.SaveCustomTheme, ThemeService.ThemeStore.InitTheme |
| app/src/main/java/com/chouchou/ipredict/ui/dates/DatesViewModel.kt:313-319 | `getAllExistingDates()` returns domain records without their type, and every stored date text is filed under event type 1 | a stored record of type 2 named "B" dated 2024-03-01, then importing a file with the row "2,B,2024-03-01,0" | each stored date is filed under its own type, so the row counts as a duplicate instead of inserting a second record of type 2 on that day | not executed | DatesCsvAll.StoredDateSetsAsWritten, DatesCsvAll.StoredTypeDateReimported | DatesCsvAll.StoredDateSetsFiled, DatesCsvAll.GroupExistingDates, DatesCsvAll.ImportAllNoDuplicates, DatesCsvAll.StoredTypeDateDuplicate |
