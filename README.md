# Invoice sheet writer and idle supervisor, modelled in Dafny

The application takes an invoice submitted through a web form and writes it
to a Google spreadsheet. It builds one row per line item. Each row has one
cell per header of the worksheet, and the header labels are translated to
field keys by a fixed table. The rows are then appended with
`append_rows`, and tenacity retries that call with exponential backoff. A
background task also shuts the server down once no heartbeat has arrived
for 300 seconds.

The model has five modules, one file each:

- `InvoiceDto` (`invoice_dto.dfy`): the validated record, as datatypes. It
  has the two parties, the fifteen line-item fields and the top-level
  record. It also has the values a cell can hold: a string, an integer, or
  a float kept as its 64-bit pattern, since floats are only copied.
- `ColumnMapping` (`column_mapping.dfy`): the `COLUMN_MAPPING` table.
- `InvoiceRows` (`invoice_rows.dfy`): `create_invoice`. The rows are
  specified by the functions `Cell`, `BuildRow` and `BuildRows`. The method
  `CreateInvoice` is the source's nested loop, proved equal to them.
  `ResolveParty` is the source's if-chain for party headers.
- `RowAppender` (`row_appender.dfy`): `add_invoice_row`. The remote
  worksheet is a class whose `rows` an append extends. The retry loop runs
  over a script of attempt outcomes. `Delay` is tenacity's
  `wait_exponential(multiplier=1, min=4, max=10)`.
- `IdleSupervisor` (`idle_supervisor.dfy`): `last_heartbeat`, the
  `/heartbeat` handler, the `shutdown_checker` loop and `shutdown_server`.
  They are a class with a timestamp, a terminal shut-down flag and a count
  of raised signals.

Points where the code decides something one might read differently:

- Party headers are matched against the full label ("Buyer Address"), not
  by suffix. So each party header reads exactly one field. The
  "only if still empty" tests in the chain can never pass on to another
  field, and an empty address stays empty.
- The wait after the n-th failed attempt is `max(4, min(2^(n-1), 10))`.
  The waits are 4, 4, 4, 8, 10, 10, … so after two failures both waits are
  4. The second one is not 8.
- The idle test is strict: a gap of exactly 300 does not shut down.
- Heartbeats refresh the timestamp even after shutdown has begun. The
  flag only records that the checker has left its loop.

## Model

| member | source | states |
|---|---|---|
| InvoiceDto.ItemGet | sheets/invoice_sheet.py:95 | a key outside the fifteen line-item keys reads as ""; only the eleven float fields give a float value; which field each key reads is stated label by label in InvoiceRows.ItemHeadersReadTheirFields and InvoiceRows.TaxHeadersReadTheirFields |
| InvoiceDto.RecordGet | sheets/invoice_sheet.py:108 | for a key that is not `items` or a party (those hold a list or a dict in the dump), a key other than transaction_id, invoice_number, date reads as ""; transaction_id gives the record's integer id, invoice_number the record's invoice number and date its date |
| InvoiceDto.PartyOf | sheets/invoice_sheet.py:100-105 | `data.get(key, {})` for key seller gives the seller, for key buyer the buyer |
| InvoiceDto.ItemsOf | sheets/invoice_sheet.py:49-53 | a list of items is iterated as it is; any other value gives at most one item, and every item iterated comes from the record |
| ColumnMapping.TableKeys | sheets/invoice_sheet.py:8-34 | the table's values (the field keys) are exactly the fifteen line-item keys, the two party keys and the three record keys: 24 labels onto 20 keys |
| ColumnMapping.MappedKeysAreKnown | sheets/invoice_sheet.py:8-34 | every key in the table is a line-item key, a party key or one of the three record keys, so the last branch of the builder only reads transaction_id, invoice_number or date |
| ColumnMapping.PartyHeadersExactly | sheets/invoice_sheet.py:27-32 | a header maps to a party key if and only if it is one of the six party labels; the Buyer labels map to buyer and the Seller labels to seller |
| InvoiceRows.Cell | sheets/invoice_sheet.py:85-110 | the four-way resolution of one header: a float cell only comes from a line-item header, an integer cell only from Quantity or Transaction ID, and a party header always gives a string |
| InvoiceRows.BuildRow | sheets/invoice_sheet.py:83-110 | a row has exactly one cell per header, and cell j is the cell for header j |
| InvoiceRows.BuildRows | sheets/invoice_sheet.py:80-114 | one row per item, and row i is built from item i, so item order is kept |
| InvoiceRows.ResolveParty | sheets/invoice_sheet.py:96-105 | the source's chain ("", then name, then address only if still empty, then GST only if still empty) yields exactly the one party field the full header label names |
| InvoiceRows.ResolveCell | sheets/invoice_sheet.py:85-108 | the inner loop's branches ("" for an unmapped header, `item.get`, the party chain, `data.get`) give exactly the cell Cell specifies, so each label reads the field the per-label lemmas name |
| InvoiceRows.CreateInvoice | sheets/invoice_sheet.py:46-114 | the nested loop returns BuildRows over the normalised items: as many rows as items, one cell per header, cell (i, j) from item i and header j; absent or false `items` give no rows, a true non-list value gives one row (both cases follow lines 49-53 literally; see "## Left out") |
| InvoiceRows.UnmappedHeaderIsBlank | sheets/invoice_sheet.py:85-87 | a header missing from the table is "" in every row, whatever the record |
| InvoiceRows.ItemHeaderReadsItem | sheets/invoice_sheet.py:92-95 | a header with a line-item key takes row i's value from item i; "Name" gives the item's name, not a party's |
| InvoiceRows.PartyHeaderReadsOneField | sheets/invoice_sheet.py:96-105 | Buyer/Seller Name give the party's name, … Address its address, … GST its GST number, each independently of the others |
| InvoiceRows.ItemHeadersReadTheirFields | sheets/invoice_sheet.py:92-95 | Name, HSN, Quantity, UOM, Rate, Discount, Basic Amount and Taxable Value each read the item's field of that name (name, hsn, quantity, uom, rate, discount, basicAmount, taxableValue) |
| InvoiceRows.TaxHeadersReadTheirFields | sheets/invoice_sheet.py:92-95 | CGST/SGST/CESS Rate read cgstRate/sgstRate/cessRate, CGST/SGST/CESS Amount read cgstAmount/sgstAmount/cessAmount, and Gross Value reads grossValue: no rate and amount are swapped |
| InvoiceRows.RecordHeadersReadTheirFields | sheets/invoice_sheet.py:107-108 | Transaction ID, INVOICE NO and Date read the record's transaction id, invoice number and date, whatever the item |
| InvoiceRows.RecordHeaderSameInEveryRow | sheets/invoice_sheet.py:107-108 | a header with a record key carries the record's own value, the same in every row; "Transaction ID" carries the transaction id, "INVOICE NO" the invoice number and "Date" the date |
| InvoiceRows.BuyerHeadersExample | sheets/invoice_sheet.py:99-105 | buyer (Acme, "", GST123) under the three buyer headers gives ["Acme", "", "GST123"] |
| InvoiceRows.SingleItemExample | sheets/invoice_sheet.py:80-114 | one item Widget x2 at 10.0 and buyer Bob under Name/Quantity/Rate/Buyer Name gives the single row [Widget, 2, 10.0, Bob] |
| RowAppender.Delay | sheets/invoice_sheet.py:116 | each wait lies in [4, 10] and equals 2^(n-1) whenever that lies in [4, 10] |
| RowAppender.DelayMonotone | sheets/invoice_sheet.py:116 | a later failure never waits less than an earlier one |
| RowAppender.DelayCapped | sheets/invoice_sheet.py:116 | from the fifth failure on, every wait is 10 |
| RowAppender.Backoff | sheets/invoice_sheet.py:116 | the waits after n failures are n values, the k-th being Delay(k+1) |
| RowAppender.BackoffSchedule | sheets/invoice_sheet.py:116 | the schedule begins 4, 4, 4, 8, 10, 10 and never decreases |
| RowAppender.FirstSuccess | sheets/invoice_sheet.py:116-118 | the index of the first succeeding attempt: all attempts before it fail, and it succeeds unless it is the end of the script |
| RowAppender.Worksheet.AppendRows | sheets/invoice_sheet.py:118 | a successful append_rows adds exactly the given rows at the end, in order, and returns the response; a failed one leaves the sheet unchanged and raises |
| RowAppender.AddInvoiceRow | sheets/invoice_sheet.py:116-118 | the retry returns the first success's response, after the sheet gained exactly the rows once and the waits were Delay(1..k); if every attempt fails, it re-raises the last error, the sheet is unchanged, and no wait follows the final attempt |
| RowAppender.AppendTwice | sheets/invoice_sheet.py:116-118 | two successful calls with the same rows append them twice (no deduplication) |
| RowAppender.FailTwiceThenSucceed | sheets/invoice_sheet.py:116-118 | two failures, then a success: the third response is returned after waits of 4 and 4, and the rows are appended |
| IdleSupervisor.Supervisor.constructor | views.py:118 | at start, last_heartbeat is the start time and nothing has shut down |
| IdleSupervisor.Supervisor.Heartbeat | views.py:121-125 | sets last_heartbeat to now, changes nothing else, and answers status "alive" |
| IdleSupervisor.Supervisor.ShutdownServer | views.py:141-143 | raises one more SIGTERM |
| IdleSupervisor.Supervisor.Check | views.py:133-138 | fires if and only if the loop is still running and now - last_heartbeat > 300 (strict); firing raises one signal and ends the loop, and a check that does not fire changes nothing |
| IdleSupervisor.HeartbeatThenCheck | views.py:124-133 | after a heartbeat at t, a check at now fires if and only if now - t > 300, so none up to t + 300 does |
| IdleSupervisor.IdleExceeded | views.py:133 | the guard `now - last_heartbeat > 300`, strict, with the IDLE_TIMEOUT of 300 set at views.py line 28 |
| IdleSupervisor.IdleGuardStrict | views.py:133 | a gap of exactly 300 does not exceed the timeout and a gap of 301 does; once exceeded, it stays exceeded at every later time |
| IdleSupervisor.LastBeat | views.py:124-133 | the timestamp the check reads: the start value, or a heartbeat of the trace that has arrived by the check's time |
| IdleSupervisor.IdleAt | views.py:131-133 | whether the k-th check, at start + 10k, finds the gap to that timestamp over 300 |
| IdleSupervisor.ArrivedBy | views.py:124-133 | counts the heartbeats delivered by time t: all of them at or before t, and the next one after t |
| IdleSupervisor.DeliverHeartbeats | views.py:121-125 | every heartbeat that has arrived by now is delivered in order, so last_heartbeat ends as the last of them (or the start value if none) |
| IdleSupervisor.ShutdownChecker | views.py:128-138 | the k-th check happens at start + 10k; the loop stops at the first check whose idle gap exceeds 300, and shutdown_server is then called exactly once; if the fuel runs out first, no check up to it fired and no signal was raised |
| IdleSupervisor.LastBeatIsLatest | views.py:124-133 | with timestamps in time order, the checker compares against the latest heartbeat that has arrived |
| IdleSupervisor.HeartbeatExample | views.py:124-133 | with a heartbeat at t0+50, the check at t0+340 (gap 290) and the one at t0+350 (gap exactly 300) do not fire; the one at t0+360 (gap 310) does |
| IdleSupervisor.IdleAfterLastHeartbeat | views.py:131-138 | once no heartbeat is later than L, every check after L + 300 fires |

## Left out

- The HTTP application is not modelled: FastAPI setup, CORS, the
  request-logging middleware, templates, static files, `lifespan`,
  `run_server` and `run.py`. They are plumbing with no logic of their own.
  `lifespan`'s teardown also calls `shutdown_server`, and that second call
  is not part of this model.
- Authentication, workbook and sheet lookup, and `generate_numeric_id` are
  not modelled. They are remote I/O, and sheets/sheet_helper.py is not part
  of this model. The transaction id is simply a field of the record.
- Pydantic validation and `SheetManager` are a foreign library. The field
  lists are used only as datatypes, and the dumped record is taken as
  already valid. So every line-item key is present, and `item.get`'s
  default is never reached for the fifteen keys.
- `row_values(1)` is replaced by a `headers` parameter. The source reads
  the headers again for each item. The model reads them once per call, so
  a layout that changes during one call is not captured.
- `append_rows` is replaced by the `Worksheet` class and a script of
  attempt outcomes. A failed attempt is taken to leave the sheet
  unchanged.
- RowAppender.AddInvoiceRow: the source retries forever, and the model
  stops after the attempts in its script, re-raising the last error as
  `reraise=True` does. A remote that fails forever is covered only up to
  the script's length.
- Real sleeping, asyncio scheduling, `time.time()` floats and
  `signal.raise_signal` are not modelled. Time is an integer, and a wait is
  a returned number. The concurrency between the heartbeat handler and the
  checker becomes one sequential trace. Heartbeats are listed in arrival
  order, and each is delivered once it and all earlier ones have arrived
  by a check's time. For a trace in time order this is the first check at
  or after its timestamp.
- IdleSupervisor.ShutdownChecker: the source loop has no bound, and the
  model runs at most `fuel` iterations.
- The `Absent` and `Single` cases of `items` follow lines 49-53 of
  sheets/invoice_sheet.py literally, but validation never produces them:
  `model_dump` always emits the `items` key, and `items` is declared a
  sequence of line items. The only true non-list value validation lets
  through is a non-list sequence such as a tuple. Line 53 would wrap the
  whole tuple as one element, and `item.get` at line 95 would then raise.
  That exception is not modelled.
- Float values in line items are 64-bit patterns that are copied, never
  computed with.
