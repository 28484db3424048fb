# DTP ingestion pipeline, modelled in Dafny

This project models the two jobs of a road-traffic-accident (DTP) ingestion
pipeline and proves properties of the models.

- The **download job** (`dtp_download.py`) works out a month window from its
  arguments and today's date. For each configured city and each month of the
  window it asks the statistics API for that month's cards, tags every card
  with the city it came from, and inserts the cards one at a time into the
  buffer table `lbn.dtp_buffer`. Each insert retries with exponential back-off.
- The **processing job** (`dtp_processing.py`) repeatedly selects up to ten
  eligible buffer rows in `id` order. A row is eligible when it is neither
  processed nor flagged. The job decodes each row's payload into items and
  normalises each item's fields (`parse_date`, `parse_time`, `parse_int`,
  `parse_float`). It then inserts one `lbn.dtp_main` row per
  item, keyed by `kart_id`, where a duplicate key is harmless. Finally it sets
  the buffer row's `date_processing`, or on failure its `is_error`.

The database is modelled as values:
- the buffer table is a sequence of rows;
- the main table is a map from `kart_id` to row;
- the database's behaviour is a script of per-operation outcomes (success,
  `OperationalError`, any other exception), consumed in order.

`dtp_processing.py` also defines a helper `safe_join` (lines 56-63) that no
caller uses; `Fields.SafeJoin` models it on its own.

A finished script means every later operation succeeds. Sleeps are recorded as
lists of durations. `json.loads`, `json.dumps`, the HTTP request and the clock
are parameters.

Verified with Dafny 4.11.

## Layout

| file | module | contents |
|---|---|---|
| `wrappers.dfy` | `Wrappers` | `Option` |
| `text.dfy` | `Text` | decimal digits, their values and spelling, `IndexOf` |
| `json.dfy` | `Json` | decoded JSON values, `dict.get`, truthiness, `str()`, iteration |
| `fields.dfy` | `Fields` | the five field normalisers and their lemmas |
| `retry.dfy` | `Retry` | `get_connection` and `insert_single_record`: attempt loops, back-off |
| `buffer.dfy` | `Buffer` | buffer rows, eligibility, batch selection, the two row updates |
| `normalize.dfy` | `Normalize` | payload shapes, item skipping, the 28 columns of a main-table row |
| `processing.dfy` | `Processing` | the batch loop of the processing job as functions on a world value |
| `processing_facts.dfy` | `ProcessingFacts` | lemmas about the batch loop |
| `processor.dfy` | `Processor` | the same loop as a class updated in place, proved equal to `Processing` |
| `download.dfy` | `Download` | date window, month loops, response extraction, insert partition |

## Model

| member | source | states |
|---|---|---|
| Json.Lookup | dtp_processing.py:182 | a dict lookup finds a value exactly when the key is present, and the pair is in the dict |
| Json.Iterate | dtp_download.py:176 | iterating a list yields its items, a string its one-character strings in order, and a dict its keys in order; numbers, booleans and None cannot be iterated |
| Fields.ParseDate | dtp_processing.py:32-36 | a date is returned only for a non-empty string, and it is a real calendar date |
| Fields.SplitDots | dtp_processing.py:32-36 | text made of two dot-free fields, a dot each, and a third field is parsed as those three fields |
| Fields.ParseDateTextSplit | dtp_processing.py:32-36 | accepted text is two dot-free fields and a third, joined by dots, and parses as those fields |
| Fields.ParseDateSound | dtp_processing.py:32-36 | a returned date exists and the text spells it as day, dot, month, dot, year, in the field forms strptime accepts |
| Fields.ParseDateComplete | dtp_processing.py:32-36 | any text spelling an existing date in those field forms is parsed to that date |
| Fields.ParseDateMeaning | dtp_processing.py:32-36 | parse_date gives d exactly when d exists and the text spells d (both directions) |
| Fields.ParseDateMarchFirst | dtp_processing.py:32-36 | "01.03.2024" gives 1 March 2024 |
| Fields.ParseDateRejectsFebruary31 | dtp_processing.py:32-36 | "31.02.2024" is well formed but gives None |
| Fields.FormatDateRoundTrip | dtp_processing.py:32-36 | every valid date written as dd.mm.yyyy is parsed back to itself |
| Fields.ParseTime | dtp_processing.py:38-42 | a time is returned only for a non-empty string, with hour 0-23 and minute 0-59 |
| Fields.SplitColon | dtp_processing.py:38-42 | text made of a colon-free field, a colon and a second field is parsed as those two fields |
| Fields.ParseTimeMeaning | dtp_processing.py:38-42 | parse_time gives t exactly when the text is an hour field, a colon and a minute field spelling t |
| Fields.FormatTimeRoundTrip | dtp_processing.py:38-42 | every valid time written as HH:MM is parsed back to itself |
| Fields.ParseInt | dtp_processing.py:44-48 | None, lists, dicts and unconvertible text give 0; an integer gives itself; a boolean gives 1 or 0; a float is truncated toward zero; text `int()` accepts gives the value `int()` reads |
| Fields.Truncate | dtp_processing.py:46 | `int()` of a float truncates toward zero |
| Fields.StripSpaces | dtp_processing.py:46 | `int()` ignores exactly the surrounding whitespace |
| Fields.IntTextDecimal | dtp_processing.py:46 | `int()` reads back the decimal spelling of every integer, negative ones included |
| Fields.ParseIntRoundTrip | dtp_processing.py:44-48 | parse_int of an integer's spelling, with any surrounding whitespace, is that integer |
| Fields.CommaToDot | dtp_processing.py:52 | the comma replacement keeps the length, leaves no comma, turns each comma into a dot and keeps every other character |
| Fields.ParseFloat | dtp_processing.py:50-54 | None, booleans, lists and dicts give 0.0; a float keeps its value and an integer becomes that real; a string becomes the text to convert, itself with each comma made a dot, so no comma is left |
| Fields.Rendered | dtp_processing.py:60 | the rendered parts are at most as many as the items, and each comes from a non-None item |
| Fields.RenderedAppend | dtp_processing.py:60 | dropping None items keeps the order of the others |
| Fields.JoinSplit | dtp_processing.py:60 | cutting a ", "-joined string at its separators gives back the parts, when no part is empty or has a comma |
| Fields.SafeJoinRoundTrip | dtp_processing.py:56-63 | safe_join of a list keeps exactly the non-None items' strings, in order, when each of them is non-empty and holds no comma |
| Fields.SafeJoin | dtp_processing.py:56-63 | None gives the empty string and any value other than a list gives its `str()`; lists are stated by SafeJoinRoundTrip |
| Retry.Backoff | dtp_processing.py:76 | the n sleeps are 1, 2, 4, ..., 2^(n-1) seconds |
| Retry.ConnectPlan | dtp_processing.py:65-77 | 1 to 3 attempts; stops at the first success; fails only after 3 failures, having slept 1 then 2 seconds; on success it slept 2^k after each failed attempt k |
| Retry.GetConnection | dtp_processing.py:65-77 | the attempt loop returns the connecting attempt and the sleeps that ConnectPlan describes |
| Retry.ConnectFailsIffAllFail | dtp_processing.py:65-77 | get_connection returns None exactly when all three attempts fail |
| Retry.InsertPlan | dtp_download.py:80-121 | 1 to 5 attempts; every attempt before the last hit an OperationalError; True exactly when the last one succeeded; five OperationalErrors sleep 1, 2, 4, 8, 16 seconds (the fifth too) |
| Retry.InsertSingleRecord | dtp_download.py:80-121 | the attempt loop with its early returns gives the result and the sleeps that InsertPlan describes |
| Retry.InsertSucceedsIff | dtp_download.py:80-121 | True exactly when some attempt succeeds and every earlier one hit an OperationalError |
| Buffer.Eligibles | dtp_processing.py:134-135 | the filter keeps exactly the rows with no date_processing and no is_error |
| Buffer.EligiblesIncreasing | dtp_processing.py:136 | filtering keeps ascending id order |
| Buffer.SelectBatch | dtp_processing.py:131-143 | the SELECT of one batch; stated by SelectBatchSpec |
| Buffer.NothingEligibleSelectsNothing | dtp_processing.py:131-143 | a table with no eligible row selects an empty batch |
| Buffer.SelectBatchSpec | dtp_processing.py:131-143 | a batch has at most 10 eligible table rows in ascending id order; it is empty exactly when no row is eligible; it is short only if it holds every eligible row; every eligible row left out has a larger id than every row taken |
| Buffer.MarkProcessed | dtp_processing.py:228-232 | the rows with that id get the timestamp and become ineligible; other rows are untouched; ids and payloads are kept |
| Buffer.MarkError | dtp_processing.py:246-250 | the rows with that id are flagged and become ineligible; other rows are untouched |
| Normalize.CityOrDefault | dtp_processing.py:149 | a non-empty city name is kept; a NULL or empty city becomes "Не указан" |
| Normalize.Classify | dtp_processing.py:162-175 | a dict is one item; text decoding to a dict is one item; text decoding to a list gives its elements; every other payload is malformed (both directions) |
| Normalize.SkipIff | dtp_processing.py:178-185 | an item is skipped exactly when it is not a dict or has no truthy KartId |
| Normalize.BadInfoIff | dtp_processing.py:187-192 | an item fails exactly when it has a KartId and an infoDtp that is present but not a dict |
| Normalize.PlanItem | dtp_processing.py:177-192 | skip, fail or insert for one item; stated by SkipIff, BadInfoIff and InsertedRow |
| Normalize.Normalized | dtp_processing.py:189-214 | the 28 bound values of the INSERT; stated by InsertedRow, KeyOnlyItem and SampleItem |
| Normalize.InsertedRow | dtp_processing.py:182-215 | an inserted row is keyed by the item's truthy KartId, carries the buffer row's region and district, and has valid date and time when present |
| Normalize.KeyOnlyItem | dtp_processing.py:187-215 | an item holding only a key gives zero counts, empty texts, no date or time, zero coordinates, and the city as settlement |
| Normalize.SampleItem | dtp_processing.py:177-215 | the item with KartId K1, date 01.03.2024 and COORD_W "55,7" is inserted under K1 with date 2024-03-01 and coordinate text "55.7" |
| Processing.Connect | dtp_processing.py:65-77 | `get_connection` on the world; stated by ConnectEffect, HealthyConnect and the ConnectPlan rows |
| Processing.Execute | dtp_processing.py:196 | one statement consumes one outcome of the script |
| Processing.ItemStep | dtp_processing.py:177-235 | one item of the loop; stated by ItemStepEffect, SkippedItems, DuplicateKeyIsBenign and NewKeyIsInserted |
| Processing.InsertItem | dtp_processing.py:195-235 | the INSERT, then the UPDATE of the buffer row; stated by InsertItemEffect |
| Processing.ProcessItems | dtp_processing.py:177-235 | the item loop, left at the first exception; stated by ProcessItemsEffect, InsertableItems and InsertThenFail |
| Processing.RecordError | dtp_processing.py:237-253 | the except branch; stated by RecordErrorEffect and HealthyRecordError |
| Processing.ProcessRow | dtp_processing.py:147-260 | one row of the batch; stated by ProcessRowEffect, GoodRow, MalformedRowQuarantined, FailedInsertQuarantines and NoConnectionSkipsRow |
| Processing.ProcessRows | dtp_processing.py:147-260 | the row loop; stated by ProcessRowsEffect and UnusableRowsUnchanged |
| Processing.Job | dtp_processing.py:79-287 | `main`; stated by JobEffect |
| Processing.Batch | dtp_processing.py:121-270 | one turn of the loop goes on, reports the buffer drained, or reports no connection |
| Processing.Run | dtp_processing.py:121-270 | the fuel-bounded loop ends drained, without a connection, or out of fuel |
| ProcessingFacts.ConnectEffect | dtp_processing.py:65-77 | a connection attempt changes neither table nor either counter |
| ProcessingFacts.InsertItemEffect | dtp_processing.py:195-235 | the two statements for an inserted item change only its own buffer row, keep every main-table row, and count no error |
| ProcessingFacts.ItemStepEffect | dtp_processing.py:177-235 | one item changes only its own buffer row, never removes or changes a main-table row, and counts no error |
| ProcessingFacts.ProcessItemsEffect | dtp_processing.py:177-235 | the item loop changes only its own buffer row and never removes or changes a main-table row |
| ProcessingFacts.RecordErrorEffect | dtp_processing.py:237-253 | the except branch adds exactly one error whether or not flagging succeeds, and changes only its own row |
| ProcessingFacts.ProcessRowEffect | dtp_processing.py:147-260 | one row changes no other buffer row and counts at most one error |
| ProcessingFacts.ProcessRowsEffect | dtp_processing.py:147-260 | a batch's rows count at most one error each |
| ProcessingFacts.BatchEffect | dtp_processing.py:121-270 | a turn never un-processes, un-flags or rewrites anything, and counts at most 10 errors |
| ProcessingFacts.RunEffect | dtp_processing.py:121-270 | the loop never un-processes, un-flags or rewrites a row, and never lowers a counter |
| ProcessingFacts.JobEffect | dtp_processing.py:79-287 | a whole run keeps every main-table row, only moves buffer rows out of the eligible set, and keeps ids in order |
| ProcessingFacts.BatchDrained | dtp_processing.py:140-143 | a turn ends the loop as drained only after its select found no eligible row |
| ProcessingFacts.DrainedMeansNothingEligible | dtp_processing.py:140-143 | the loop reports the buffer drained only when no row is eligible |
| ProcessingFacts.EmptyBatchEnds | dtp_processing.py:140-143 | once the connection and the SELECT go through over a buffer with no eligible row, the turn ends the loop as drained |
| ProcessingFacts.HealthyConnect | dtp_processing.py:65-72 | with a database that never fails, the first attempt connects with no sleep |
| ProcessingFacts.SkippedItems | dtp_processing.py:177-185 | skipped items do nothing at all |
| ProcessingFacts.UnusableRowStaysEligible | dtp_processing.py:177-235 | a row with nothing insertable is neither marked nor flagged, so it stays eligible |
| ProcessingFacts.UnusableRowsUnchanged | dtp_processing.py:147-260 | a batch of such rows leaves the tables and the counters as they were |
| ProcessingFacts.StuckBatchNeverEnds | dtp_processing.py:121-270 | when the next batch has only such rows, the loop uses all its turns and leaves the buffer unchanged |
| ProcessingFacts.DuplicateKeyIsBenign | dtp_processing.py:218-222 | an existing key leaves the main table as it was, the row is marked processed and the item counted |
| ProcessingFacts.NewKeyIsInserted | dtp_processing.py:195-235 | a new key adds the normalised row, marks the buffer row and counts the item |
| ProcessingFacts.InsertableItems | dtp_processing.py:177-235 | n insertable items add n to processed_count, put every key in the main table, and mark the row once n > 0 |
| ProcessingFacts.GoodRow | dtp_processing.py:147-260 | a row of n insertable items is counted n times, no error is counted, and it is followed by the half-second pause |
| ProcessingFacts.HealthyRecordError | dtp_processing.py:237-253 | with a database that never fails, the except branch counts the error and flags the row |
| ProcessingFacts.MalformedRowQuarantined | dtp_processing.py:162-253 | a malformed payload flags the row, adds one error and counts nothing processed |
| ProcessingFacts.FailedInsertQuarantines | dtp_processing.py:195-253 | once the row's connection is up, whatever the database does, the first item's INSERT failing for another reason than a duplicate key leaves the main table and processed_count unchanged, counts one error, and flags the row exactly when the error connection and its UPDATE succeed |
| ProcessingFacts.NoConnectionSkipsRow | dtp_processing.py:152-157 | without a connection for the row, the buffer, the main table and both counters are unchanged, so the row stays eligible, and only the connection's back-off sleeps are added |
| ProcessingFacts.InsertThenFail | dtp_processing.py:177-235 | an insertable item followed by a failing one leaves the row marked processed, with one item counted, and the loop failed |
| ProcessingFacts.ProcessedAndFlagged | dtp_processing.py:227-253 | such a row ends up both processed and flagged, and is counted in both counters |
| Processor.Processor.Connect | dtp_processing.py:65-77 | the object's new state and the result are those of Processing.Connect |
| Processor.Processor.Execute | dtp_processing.py:196 | one statement consumes one outcome |
| Processor.Processor.ItemStep | dtp_processing.py:177-235 | the in-place item step leaves the state Processing.ItemStep describes |
| Processor.Processor.InsertItem | dtp_processing.py:195-235 | the INSERT into dtp_main, then the UPDATE of the buffer row, leave the state Processing.InsertItem describes |
| Processor.Processor.ProcessItems | dtp_processing.py:177-235 | the item loop, left at the first exception, matches Processing.ProcessItems |
| Processor.Processor.RecordError | dtp_processing.py:237-253 | the in-place except branch matches Processing.RecordError |
| Processor.Processor.ProcessRow | dtp_processing.py:147-260 | the in-place row body matches Processing.ProcessRow |
| Processor.Processor.ProcessRows | dtp_processing.py:147-260 | the row loop matches Processing.ProcessRows |
| Processor.Processor.Batch | dtp_processing.py:121-270 | one in-place turn of the loop matches Processing.Batch |
| Processor.Processor.Run | dtp_processing.py:121-270 | the fuel-bounded `while` loop matches Processing.Run |
| Processor.Processor.Job | dtp_processing.py:79-287 | `main` run in place matches Processing.Job |
| Download.DefaultWindow | dtp_download.py:48-58 | with no arguments the window ends at the current month and starts exactly five months earlier, in a month 1-12 (wrapping the year) |
| Download.ArgumentsOverrideOwnField | dtp_download.py:60-65 | each argument replaces its own field of the window and leaves the other three alone |
| Download.DateRange | dtp_download.py:48-65 | `get_date_range`; its window is stated by DefaultWindow and ArgumentsOverrideOwnField |
| Download.MonthSpanSpec | dtp_download.py:140 | the month range of a year holds exactly the months lo..hi of that year, in increasing order |
| Download.MonthsBeforeSpec | dtp_download.py:136-140 | the loops visit, up to a year, exactly the window's months of earlier years, in strictly increasing order |
| Download.MonthsSpec | dtp_download.py:136-140 | the loops visit exactly the window's months in strictly increasing order; middle years are visited in full; a start year after the end year visits nothing |
| Download.Months | dtp_download.py:136-140 | the months the two loops visit; stated by MonthsSpec |
| Download.MonthsToFetch | dtp_download.py:136-140 | the nested year and month loops produce Months |
| Download.Extract | dtp_download.py:157-191 | a month adds items only when its tab is non-empty |
| Download.ExtractCases | dtp_download.py:161-173 | a response without data, with undecodable text or without tab adds nothing; a tab list adds its items, or nothing when it is empty |
| Download.MonthRecords | dtp_download.py:157-191 | one month's tagged records and pause; stated by Extract, ExtractCases and Tag |
| Download.Tag | dtp_download.py:176-182 | each item becomes exactly one record carrying the city's name, region_id and district_id and the item's encoding, in order |
| Download.CityProvenance | dtp_download.py:133-182 | every record of a city carries that city and the encoding of an item from one of its months' responses |
| Download.CityCount | dtp_download.py:176-193 | a city yields as many records as its months' responses hold items, and at most one pause per month |
| Download.CityRecords | dtp_download.py:140-193 | the records of one city's months; stated by CityProvenance and CityCount |
| Download.Collected | dtp_download.py:133-193 | the records of every city in order; the loops are proved equal to it by Collect |
| Download.CollectCity | dtp_download.py:140-193 | the month loop for one city gathers CityRecords |
| Download.Collect | dtp_download.py:133-193 | the city and month loops gather Collected |
| Download.InsertAll | dtp_download.py:195-205 | success_count plus the number of failed records equals the number of records, and every failed record is one of them |
| Download.InsertResults | dtp_download.py:199-205 | one result per record |
| Download.InsertResultsSpec | dtp_download.py:199-205 | result i is what `insert_single_record` returns for record i |
| Download.FailedIndices | dtp_download.py:199-205 | the positions of the failed insertions are in range and strictly increasing |
| Download.FailedIndicesSpec | dtp_download.py:199-205 | a position is listed exactly when the insertion there returned False (both directions) |
| Download.RejectedAtFailedIndices | dtp_download.py:199-205 | the records kept back are, one for one and in order, the records at the failed positions |
| Download.InsertAllRejects | dtp_download.py:199-205 | failed_records is the records whose insertion returned False, in their order |
| Download.FailedInOrder | dtp_download.py:199-205 | failed_records holds exactly the records whose insertion failed, in their original order |
| Download.InsertRecords | dtp_download.py:195-205 | the insert loop gives InsertAll's count, failed list and sleeps |
| Download.DownloadRun | dtp_download.py:123-217 | the whole download job; DownloadMain is proved equal to it |
| Download.DownloadMain | dtp_download.py:123-217 | main computes the window, the records and the insert partition, and every collected record is counted or failed |

## How rows end

The model follows the code in each case below.

- A buffer row can end both processed and flagged. The code marks a row
  processed inside the item loop (lines 227-235). So when a row's first item
  is inserted and its second item then fails, the row gets both marks and is
  counted in both counters (`ProcessingFacts.ProcessedAndFlagged`).
- A row with nothing to insert is never marked. When its items are all
  skipped, or its list of items is empty, the row stays eligible. The next
  batch of the same run selects it again. A buffer whose first ten eligible
  rows are of that kind keeps the `while True` loop busy for ever
  (`ProcessingFacts.StuckBatchNeverEnds`). The model therefore gives the
  loop a fuel bound.
- A row with no connection is skipped during the run. It stays eligible, so
  the next batch of the same run selects it again (lines 154-157,
  `ProcessingFacts.NoConnectionSkipsRow`).

## Left out

- Processing.Execute: whether a statement goes through never depends on the
  values it sends. psycopg2 raises `can't adapt type 'dict'` for a dict
  parameter, for example a dict in `District` or in `infoDtp.street`
  (lines 204-214). Outcomes like that, and any type errors in the database,
  come only from the outcome script. So `ProcessingFacts.NewKeyIsInserted`,
  `ProcessingFacts.InsertableItems`, `ProcessingFacts.GoodRow` and
  `ProcessingFacts.ProcessedAndFlagged` hold for items whose columns the
  driver can adapt. An item with a dict-valued column is quarantined in the
  source. In the model that happens only when the script says the INSERT
  fails (`ProcessingFacts.FailedInsertQuarantines`).
- psycopg2 connections, cursors and SQL text are replaced by the two tables
  and the outcome script. Opening a cursor and closing a connection are taken
  never to fail.
- Processing.Connect: a connection attempt and the statements after it each
  consume one outcome. No distinction is made between OperationalError and
  other exceptions here, because `get_connection` treats them alike.
- The unique violation is not scripted. It happens exactly when the key is
  already in the main table, after the INSERT itself went through.
- The preliminary `COUNT(*)` queries (lines 93-112) use no outcomes and are
  taken to succeed. The early return when nothing is eligible is modelled
  (`NothingToDo`). If a COUNT query fails, the code's `to_process` is unbound
  at line 119 and the run ends through the outer handler at line 279. That
  path is not modelled.
- `requests.post`, the timeout and `raise_for_status` are collapsed into one
  `Response` per city and month: a decoded body, or a failed request.
- `json.loads` and `json.dumps` are parameters (`Decoder`, `encode`). So is
  the spelling of floats, lists and dicts inside `str()` (`render`).
- Fields.ParseFloat: the float conversion is floating-point parsing and is not
  modelled. A string result keeps the text handed to `float()`. The fallback
  to 0.0 when that text does not convert is also not modelled. For an integer
  input, the rounding of `float(str(i))` is not modelled either.
- Fields.ParseInt: CPython 3.11 and later refuses to convert text of more
  than 4300 digits (`sys.set_int_max_str_digits`), so there `parse_int`
  gives 0. The model has no digit limit; `Fields.IntText`,
  `Fields.IntTextDecimal` and `Fields.ParseIntRoundTrip` read every length.
  The same limit on `str()` of a large integer is not modelled in
  `Json.PyStr` either.
- Fields.ParseInt: only ASCII digits and ASCII whitespace are modelled.
  Python's `int()` also accepts other Unicode decimal digits and spaces. The
  `int()` of a NaN or infinite float, which raises, has no counterpart in
  Dafny's reals.
- Fields.ParseDate and Fields.ParseTime: only ASCII digits are modelled.
  strptime's regular expressions also accept other Unicode digits.
- JSON dicts are taken to have distinct keys.
- `time.sleep` is recorded as durations, not waited out. The one-second pause
  after each month with data is counted in `Download.Gathered`.
- `datetime.now()` becomes the `nowYear` and `nowMonth` parameters in the
  download job. In the processing job it becomes one `now` timestamp used for
  every `CURRENT_TIMESTAMP` of a run.
- Left out as I/O: logging and `load_dotenv`; the `argparse` parsing (the
  parsed optional integers are the input, `DateArgs`); writing
  `failed_records.json`.
- Processing.Run: the loop gets at most `fuel` turns. A run that has not ended
  by then reports `OutOfFuel`.
