# COVID-19 case-count ETL, modelled in Dafny

This project models the core of the COVID-19 ETL script `etl_process.py`. The
script has two stages.

- **Cleaning** (lines 13-32). Drop raw rows whose `ObservationDate` is the text
  "0". Rename `ObservationDate` to `Last Update` and `Country/Region` to
  `Country`. Default an empty `Province/State` to "Unknown" and empty measures
  to 0, and add `Suspected = 0`. Coerce the date text to a timestamp, drop the
  rows that give NaT, and keep only the calendar day.
- **Loading** (lines 58-84). For each cleaned row, look up or insert the
  `dim_location` row keyed by (province, country). Look up or insert the
  `dim_date` row keyed by `full_date`; an insert also stores day, month, year
  and quarter. Then append a `fact_covid` row that refers to both and carries
  the four measures.

The project also models the reconciliation in `test_data.py`. That script
compares the confirmed total of the cleaned CSV with `SUM(confirmed)` in
`fact_covid`.

Files:

- `wrappers.dfy`: an `Option` type.
- `calendar.dfy`: Gregorian calendar days (the values `.dt.date` yields) and
  the quarter formula.
- `cleaning.dfy`: the cleaning stage. Each DataFrame step is a function over a
  sequence of rows. The composed pipeline is proved equal to a row-at-a-time
  reference, `CleanOne`/`CleanRows`. That reference states which rows survive
  and what each surviving row holds.
- `loading.dfy`: the warehouse as a class `Warehouse`. Its fields hold the two
  dimensions (rows plus a natural-key index each) and the fact table. Its
  methods are the lookup, insert and lookup-or-insert operations and the
  loading loop. `Valid()` states the invariants the loop keeps: one row per
  natural key, lookups that agree with the rows, date rows that carry the
  attributes derived from their date, and fact rows that refer to existing
  dimension rows. `Load` is proved against the `Loaded` relation: one fact row
  per cleaned row, in order, each referring to the dimension rows of that
  row's natural keys, with nothing existing changed. The totals are proved
  from that relation.
- `etl.dfy`: the script end to end (`Run`), a load repeated over the same rows,
  and the reconciliation report.

Date parsing (`pd.to_datetime(..., errors='coerce')`) is a parameter of type
`string -> Option<Timestamp>`. `None` stands for NaT.

Where the script's comments and its code differ, the model follows the code.

- The comment on line 13 speaks of dates that are "0" or contain only zeros.
  Line 15 drops only the exact text "0". Other all-zero texts reach the date
  parser, which decides whether they survive.
- Line 26 only fills empty measures with 0, so measures are integers of any
  sign.
- Rows with an empty country are kept. The cleaned CSV then holds an empty
  cell, and the loader keys that location on the empty text.

## Model

| member | source | states |
|---|---|---|
| Calendar.Quarter | etl_process.py:73 | `(month - 1) // 3 + 1` is a quarter in 1..4 whose block of three months contains the month |
| Cleaning.DropZeroDates | etl_process.py:15 | a raw row is kept exactly when its date text is not "0"; never more rows than given |
| Cleaning.DropZeroDatesAppend | etl_process.py:15 | the filter keeps the relative order of rows (distributes over concatenation) |
| Cleaning.Conform | etl_process.py:17-26 | after renaming: empty province becomes "Unknown", empty measures become 0, `Suspected` is 0, other cells are carried over |
| Cleaning.FillDefaults | etl_process.py:17-26 | the column-wise fill applies `Conform` to every row, position by position |
| Cleaning.ParseRow | etl_process.py:30-32 | a row is dropped exactly when its date text parses to NaT; otherwise it keeps its cells and gets the parsed calendar day |
| Cleaning.ParseDates | etl_process.py:30-32 | the cleaned rows are exactly the rows that parse, each with its date replaced by the calendar day |
| Cleaning.Clean | etl_process.py:13-32 | the cleaning stage never adds rows |
| Cleaning.CleanOne | etl_process.py:13-32 | one raw row survives cleaning iff its date text is not "0" and parses; then it carries the parsed day, province or "Unknown", the country cell, measures with empty cells as 0, and `Suspected` 0 |
| Cleaning.CleanRows | etl_process.py:13-32 | a record is in the row-wise cleaning of a table iff it is the cleaning of one of its raw rows |
| Cleaning.CleanIsRowwise | etl_process.py:13-32 | the column-wise pipeline (filter, rename and fill, parse and drop NaT) equals row-at-a-time cleaning |
| Cleaning.CleanRowsAppend | etl_process.py:13-32 | row-wise cleaning distributes over concatenation |
| Cleaning.CleanAppend | etl_process.py:13-32 | cleaning keeps the relative order of the surviving rows |
| Cleaning.CleanMembership | etl_process.py:13-32 | membership in the cleaned table, both directions, and `Suspected` is 0 in every cleaned row |
| Loading.LocationKeyOf | etl_process.py:60 | the `dim_location` natural key of a cleaned row: its province and its country, with an empty cell read back as "" |
| Loading.DateRowOf | etl_process.py:68-74 | the inserted `dim_date` row carries the date, its day, month and year, and the quarter containing its month |
| Loading.LocationRowsUnique | etl_process.py:44-46 | `dim_location` never holds two rows with the same (province, country) |
| Loading.DateRowsUnique | etl_process.py:48-50 | `dim_date` never holds two rows with the same `full_date`, and every quarter is in 1..4 |
| Loading.LookupGivesLoadedIds | etl_process.py:58-84 | after a load, looking up a loaded row's natural keys gives exactly the ids its fact row refers to |
| Loading.SameKeysSameLocations | etl_process.py:60-62 | two consistent `dim_location` states with the same natural keys, one extending the other, hold the same rows |
| Loading.SameKeysSameDates | etl_process.py:65-74 | the same for `dim_date` |
| Loading.SameKeySameLocation | etl_process.py:60-62 | two fact rows loaded from rows with the same (province, country) refer to the same `location_id` |
| Loading.TotalAppend | test_data.py:6 | a sum over two consecutive slices is the sum of the two sums |
| Loading.Reconciliation | test_data.py:5-11 | fact rows carrying the cleaned rows' measures one for one have the cleaned rows' totals |
| Loading.LoadedStep | etl_process.py:58-84 | loading a prefix and then the next row is loading the longer prefix |
| Loading.LoadedTotals | etl_process.py:58-84 | after a load, each measure total of the fact table is the old total plus the cleaned rows' total |
| Loading.Warehouse.constructor | etl_process.py:44-54 | the three tables start empty and consistent |
| Loading.Warehouse.LookupLocation | etl_process.py:60 | the id of the row with the key, or nothing exactly when no row has the key |
| Loading.Warehouse.InsertLocation | etl_process.py:62 | an absent key gets a row under an id not used before; nothing else changes |
| Loading.Warehouse.ResolveLocation | etl_process.py:60-62 | lookup-or-insert: an existing row's id and no change, or a new row under a fresh id; afterwards the key has exactly that row |
| Loading.Warehouse.LookupDate | etl_process.py:66 | the id of the row for the day, or nothing exactly when no row has it |
| Loading.Warehouse.InsertDate | etl_process.py:68-74 | an absent day gets its derived row under an id not used before; nothing else changes |
| Loading.Warehouse.ResolveDate | etl_process.py:65-74 | lookup-or-insert of a day, as for locations; the row's quarter is in 1..4 |
| Loading.Warehouse.InsertFact | etl_process.py:77-84 | appends one fact row referring to existing dimension rows |
| Loading.Warehouse.LoadRow | etl_process.py:59-84 | one iteration of the loop: one fact row appended for the row, referring to the rows of its natural keys |
| Loading.Warehouse.Load | etl_process.py:58-84 | the loop: one fact row per cleaned row in order, old rows kept, dimensions gain exactly the unseen natural keys, totals grow by the cleaned rows' totals |
| Etl.Run | etl_process.py:13-84 | the whole script: the fact table keeps its old rows and gains, in order, one row per cleaned row referring to that row's location and date rows and carrying its measures; on an empty warehouse `SUM(confirmed)` equals the cleaned confirmed total; when at least one row survives cleaning the reconciliation reports integrity, and when none does the fact table stays empty |
| Etl.LoadAgain | etl_process.py:58-84 | loading rows whose natural keys are all present adds no dimension row and changes none; the old fact rows are kept and one fact row loaded from each cleaned row is appended, totals growing by the rows' totals |
| Etl.LoadTwice | etl_process.py:58-86 | running the loader twice on the same rows keeps the old fact rows, appends the rows' facts, then appends an identical copy of them (duplicates, not replacements), so every measure total counts the rows twice |
| Etl.SameRowSameFact | etl_process.py:58-84 | in a consistent warehouse, two fact rows loaded from the same cleaned row are equal |
| Etl.DuplicateLoads | etl_process.py:58-84 | two runs of fact rows loaded from the same cleaned rows are equal, row for row |
| Etl.ReportAsWritten | test_data.py:16-19 | as written: the success message exactly when the totals are equal, and otherwise the "no discrepancy" message, never a discrepancy report |
| Etl.AsWrittenAlwaysClaimsAgreement | test_data.py:16-19 | as written, the printed message says the totals agree whatever they are |
| Etl.Reconcile | test_data.py:16-19 | corrected: the report claims agreement iff the two totals are equal |
| Etl.MidJuneDateRow | etl_process.py:68-74 | 15 June 2020 gets day 15, month 6, year 2020, quarter 2 |

## Left out

- Reading and writing CSV files (lines 11, 35, 56) are not modelled. The cleaned CSV is taken to read back as the cleaned rows, except that an empty country cell is read as "".
- `CSVSource` yields every cell as text, and PostgreSQL converts the measures on insert. The model carries the measures as integers throughout.
- Float and NaN typing of measures is not modelled. pandas holds a column with empty cells as floats; the model uses whole numbers with `Option` for an empty cell.
- The date parser is taken to decide each cell on its own. pandas 2 and later infers one format for the whole column from its first non-null cell, so there a row's survival can depend on other rows, which `CleanIsRowwise` and `CleanOne` do not capture.
- `pd.to_datetime` is a parameter of the model. Its formats, time zones and supported year range are not modelled.
- The database connection, `connection.commit()`, `connection.close()` and transactions (lines 41-42, 86-87) are not modelled. All insertions of a run are seen as one in-memory warehouse.
- Printing progress messages and the row count on line 36 is not modelled.
- Loading.Warehouse.InsertLocation: the new id is only promised to be unused, not to be the maximum plus one that pygrametl chooses, because no property of the script depends on its value.
- Loading.Warehouse.InsertDate: the same, for `date_id`.
- pygrametl's internal lookup caches are not modelled. They change performance, not results.
- The dashboard and charting scripts of the repository are not part of this model.
- The script reads one file with fixed column names and counts no dropped rows, so neither a merge of several files nor a dropped-row count is modelled.
- Etl.Run: the reconciliation report is promised only when cleaning leaves at least one row. On an empty `fact_covid`, `SUM(confirmed)` is NULL, and `abs(csv_total - db_total)` on test_data.py:16 then raises instead of printing a report; the model states that case as an empty fact table.
- The tolerance `abs(csv_total - db_total) < 1` is compared on whole numbers, where it means equality. Floating-point totals are not modelled.

## Findings

| source | as written | input that shows it | evidently intended | confidence | as-written member | corrected member |
|---|---|---|---|---|---|---|
| test_data.py:16-19 | the branch taken when the totals differ prints "Aucun écart détecté dans les données." ("no discrepancy detected") | CSV total 1, SQL total 0 | report the discrepancy when the totals differ | high; not executed | Etl.AsWrittenAlwaysClaimsAgreement | Etl.Reconcile |
