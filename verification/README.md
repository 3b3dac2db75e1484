# Back-office billing core in Dafny

This project models the billing core of a small Swiss back office. It has two parts:

- **Server.** A Hono application on Cloudflare D1 (`src/index.tsx`).
- **Browser.** A single-page client (`public/static/app.js`).

The model covers these operations:

- **Time entries.** Time entries are recorded and updated. The server derives the duration from start and end, rounded to whole minutes. It stores absent or zero values as NULL, following JavaScript's `||`. An explicit `is_billable = 0` survives, following `??`.
- **Numbering.** Invoices and quotes are numbered `RE-<year>-NNN` / `OFF-<year>-NNN`. The number is one more than the count of that year's numbers, zero-padded to at least three digits.
- **Manual invoices.** Invoices are created, updated and deleted with their line items. The server stores the totals the client sends, applies the `|| 8.1` tax-rate default and the `|| 1` quantity default, replaces the items on update and deletes them in cascade.
- **Invoices from time entries.** This is the central operation. It validates the request, selects the customer's billable and unbilled entries among those requested, and builds one line per entry. Each line's rate is the entry's own rate, else the customer's rate, else 0. The invoice is a draft at a fixed 8.1 % rate with the next number. Every requested id is then flagged billed.
- **Browser arithmetic.** This covers the live invoice-form totals, the lines and totals `saveInvoice` sends, the time-entry invoice preview, the VAT calculator and the profit and VAT-owed cards.
- **Browser display and timer.** `formatDuration`, the `HH:MM:SS` timer display, the start/stop/reset timer and the time entry it saves, and the status label tables.

Modules:

- `Wrappers` holds `Option`.
- `Js` holds the JavaScript semantics the code relies on: truthiness, `||` and `??`, `Math.round`, and the truncating `%`.
- `Decimal` holds decimal text and `padStart`.
- `Numbering` holds the number sequence.
- `Store` holds the tables: customers, time entries, invoices and invoice items. It also holds the shared line and tax arithmetic.
- `TimeEntries`, `Invoices` and `FromTime` hold the server handlers.
- `Formatting`, `Timer`, `InvoiceForm`, `Accounting` and `StatusLabels` hold the browser logic.

Modelling conventions:

- Money is exact `real` arithmetic.
- A request field that is absent or `null` is `None`.
- A table is a value:
  - time entries are a sequence in insertion order (see "Ordering" under "## Left out");
  - invoices are a map from row id to row;
  - invoice items are a sequence in insertion order.
- Each handler is a function from the database before the request to the database after it. Where it also returns a value, that value holds what the handler computes: the new invoice's id and number, or the conversion's summary. The echo of the request body in a response is not modelled.
- Values the environment supplies are parameters: the fresh row id, the current year, today's date and the clock (`Date.now()`).

## Model

| member | source | states |
|---|---|---|
| Js.Or | src/index.tsx:146-152 | `a \|\| d` yields the value when it is truthy (present and not the falsy value) and the default otherwise |
| Js.OrNull | src/index.tsx:149-150 | `a \|\| null` is never the falsy value; it is present exactly when the input is truthy, and then it is the input |
| Js.Coalesce | src/index.tsx:151 | `a ?? d` replaces only an absent value, so an explicit 0 is kept |
| Js.OrDiffersFromCoalesce | src/index.tsx:149-151 | `\|\|` and `??` disagree exactly when the value is the falsy value itself and the default differs from it |
| Js.Round | src/index.tsx:137 | `Math.round(n / d)` is the integer nearest to n/d, with halves rounded up: `2dr - d <= 2n < 2dr + d` |
| Js.Rem | public/static/app.js:81 | JavaScript's `%` truncates toward zero: it is smaller than the divisor in magnitude, it takes the sign of the dividend, and together with the truncated quotient it reconstructs the dividend |
| Decimal.NatToString | src/index.tsx:368 | `String(n)` is a non-empty digit string without a leading zero |
| Decimal.ParseNatToString | src/index.tsx:368 | reading back `String(n)` gives n |
| Decimal.NatToStringLength | src/index.tsx:368 | `String(n)` has at most k digits exactly when n < 10^k |
| Decimal.PadStart | src/index.tsx:368 | `padStart(w, f)` never truncates: the result's length is the larger of \|s\| and w, s is its suffix, and every character before it is the fill |
| Decimal.ZeroPadValue | src/index.tsx:368 | zero-padding does not change the value the digits denote |
| Decimal.ZeroPadLength | src/index.tsx:368 | a zero-padded number has exactly the width w iff n < 10^w |
| Numbering.CountInYear | src/index.tsx:363-367 | the count of numbers starting with `<prefix><year>-` (the `LIKE` pattern, taken case-sensitively) never exceeds the number of rows |
| Numbering.Generate | src/index.tsx:368 | the generated number starts with `<prefix><year>-`, has at least three digits after it, and its suffix reads back as count + 1 |
| Numbering.GeneratedSuffixWidth | src/index.tsx:368 | the suffix has exactly three digits iff count + 1 < 1000; from the 1000th number on it grows |
| Numbering.GenerateInjective | src/index.tsx:368 | different counts give different numbers |
| Numbering.FourDigitYear | src/index.tsx:362 | a year between 1000 and 9999 prints as four digits |
| Numbering.InvoiceNumber | src/index.tsx:360-369 | a non-empty supplied number is kept; otherwise the number is `RE-<year>-` followed by the year's count of `RE-` numbers + 1, padded to three digits, and it reads back as that count + 1 |
| Numbering.QuoteNumber | src/index.tsx:647-656 | the same rule for quotes: a supplied number is kept, otherwise the padded `OFF-<year>-` number of count + 1 |
| Numbering.CountAfterInsert | src/index.tsx:363-368 | adding a row raises the year's count by one exactly when the new number is in that year |
| Numbering.SequentialNumbering | src/index.tsx:363-368 | with n - 1 numbers in the year, the next generated number is n, and the one after inserting it is n + 1 |
| Store.ApplyTax | src/index.tsx:531-533 | the tax is `subtotal * rate / 100` and the total is subtotal plus tax |
| Store.SubtotalAppend | src/index.tsx:516-520 | the running subtotal of two line lists is the sum of their subtotals |
| Store.ItemsOfAttach | src/index.tsx:560-577 | the lines inserted under an invoice id are exactly that invoice's new lines and belong to no other invoice |
| Store.ItemsOfWithout | src/index.tsx:476 | `DELETE FROM invoice_items WHERE invoice_id = ?` removes exactly that invoice's lines |
| TimeEntries.SubmittedDuration | src/index.tsx:133-138 | when start and end are both given, the duration is the interval rounded to the nearest minute, and a supplied `duration_minutes` is ignored; otherwise it is the supplied value |
| TimeEntries.Row | src/index.tsx:141-152 | customer, project, rate, duration and notes are stored as given when truthy and as NULL otherwise (`\|\| null`), so no zero is ever stored; the duration is the computed one; the description defaults to empty; start and end are kept; `is_billable` defaults to 1 only when absent |
| TimeEntries.Create | src/index.tsx:128-156 | the insert appends exactly the request's row, unbilled, under the fresh id; it leaves the old rows unchanged and keeps ids unique, and keeps them ascending when the fresh id is above every existing one |
| TimeEntries.Update | src/index.tsx:165-192 | `PUT` rewrites the row with that id from the request, keeps its billed flag, and leaves every other row unchanged |
| TimeEntries.UpdateKeepsBilling | src/index.tsx:179-182 | an update changes no billed flag and no id, so ids stay unique |
| TimeEntries.Unbilled | src/index.tsx:780-787 | an entry is listed iff it is in the table, belongs to the customer, is billable and is not billed; each listed row appears exactly as often as in the table |
| TimeEntries.MarkBilled | src/index.tsx:579-584 | after the update loop, exactly the rows whose id was requested are billed and every other row is unchanged |
| TimeEntries.MarkedAllBilled | src/index.tsx:579-584 | after the loop every entry with a requested id is billed |
| TimeEntries.MarkedNeverUnbilled | src/index.tsx:579-584 | no requested entry appears in an unbilled list after the loop |
| Invoices.StoredLine | src/index.tsx:395-401 | a stored line's quantity is never 0: a falsy quantity becomes 1; price and total default to 0; the description is the sent one or ''; the time entry is the sent id when truthy and NULL otherwise |
| Invoices.StoredInvoice | src/index.tsx:374-385 | the stored rate is never 0 (`tax_rate \|\| 8.1`); subtotal, tax and total are stored as sent; status is the sent one or 'draft' and payment terms the sent ones or '30 Tage'; an empty issue date falls back (today on create, NULL on update); a falsy customer, due date or notes is NULL and a truthy one is stored as sent |
| Invoices.Create | src/index.tsx:356-406 | the new row is under the fresh id with the assigned number; the items are appended under that id only if the request has a non-empty list; time entries and customers are untouched |
| Invoices.CreateNumber | src/index.tsx:360-369 | a truthy supplied number is kept; otherwise the number reads back as the year's invoice count + 1 |
| Invoices.CreateItems | src/index.tsx:389-403 | the new invoice gains the request's lines after any stray lines already under its id; other invoices keep their lines and rows |
| Invoices.CreateAdvancesCount | src/index.tsx:363-369 | creating an invoice with a generated number raises that year's count by one |
| Invoices.Update | src/index.tsx:415-460 | the number is kept and the other columns are rebound; when `items` is present, even empty, the id's lines become exactly the new ones, also for an unknown id; other invoices keep their rows and lines |
| Invoices.Delete | src/index.tsx:471-482 | the invoice and all its lines are gone; other invoices and their lines, and all time entries, are unchanged |
| FromTime.Selected | src/index.tsx:502-508 | an entry is selected iff it is in the table, was requested, belongs to the customer, is billable and is not billed; each selected row appears exactly as often as in the table, however often its id is requested, so `items_count` is the number of qualifying rows |
| FromTime.SelectedIsUnbilledSubset | src/index.tsx:502-508 | the selection equals the customer's unbilled list narrowed to the requested ids |
| FromTime.LineFor | src/index.tsx:516-527 | a line's quantity is the entry's minutes / 60, its total is quantity × rate, and it refers to its entry |
| FromTime.RateFallback | src/index.tsx:518 | the rate is the entry's own rate when it is truthy; otherwise the customer's rate when the customer exists; otherwise 0 |
| FromTime.NewInvoice | src/index.tsx:531-558 | a draft at the fixed 8.1 % for the customer; its number is the generated one, `RE-<year>-` and count + 1 padded to three digits, reading back as count + 1; the subtotal is the sum of the lines; tax is 8.1 % of the subtotal; the total is their sum; issue date and payment terms are the sent ones or today and '30 Tage'; due date and notes are the sent ones or NULL |
| FromTime.Bill | src/index.tsx:543-593 | the success path inserts the invoice under the fresh id, appends its lines, flags every requested id billed, and answers with number, totals and line count |
| FromTime.Convert | src/index.tsx:492-512 | the request is rejected iff the guard fails or nothing qualifies, with the matching message; a rejection changes nothing; otherwise the result is the success path |
| FromTime.BilledItems | src/index.tsx:560-577 | the new invoice's lines are any stray lines already under its id followed by the selected entries' lines in order; other invoices keep their lines |
| FromTime.StoredLinesSumToSubtotal | src/index.tsx:514-533 | the stored lines of the new invoice sum to its stored subtotal |
| FromTime.LinesFromEntries | src/index.tsx:514-529 | line i is built from entry i: it carries the entry's id, `minutes / 60` hours, the entry's non-zero rate or else the customer's, and hours × rate as its total |
| FromTime.RequestedEndBilled | src/index.tsx:579-584 | every requested id ends billed, including ids the filter rejected, and none stays in an unbilled list |
| FromTime.ReplayRejected | src/index.tsx:497-512 | replaying a successful request is rejected with "No billable time entries found" and changes nothing |
| FromTime.TwoEntriesAtCustomerRate | src/index.tsx:514-533 | 90 and 60 minutes at a customer rate of 120 give 300 net, 24.30 tax and 324.30 in total |
| Formatting.FormatDuration | public/static/app.js:79-83 | for a non-negative count, the text `H:MMh` reads back as the same number of minutes |
| Formatting.NegativeDurationText | public/static/app.js:79-83 | a negative count prints both fields negative: -90 gives `-2:-30h` |
| Formatting.TimerDisplay | public/static/app.js:554-560 | the display is at least 8 characters and reads back as the same number of seconds |
| Formatting.ClockFields | public/static/app.js:555-557 | minutes and seconds are below 60 and the three fields add back to the total |
| Timer.Start | public/static/app.js:517-530 | starting is a no-op while running; otherwise it runs with the counted seconds kept, and the start is back-dated by them |
| Timer.Tick | public/static/app.js:526-529 | the tick sets the seconds to the whole seconds since the back-dated start; it changes nothing when stopped |
| Timer.ResumeAddsElapsed | public/static/app.js:520-527 | resuming and then ticking after `elapsed` ms adds `elapsed / 1000` whole seconds |
| Timer.Stop | public/static/app.js:532-571 | stopping keeps the seconds; the save dialog is offered iff the timer was running, counted more than 60 seconds and customers are loaded, and the no-customers error is shown iff the first two hold without customers; the dialog offers at least 1 minute, the floor of the seconds |
| Timer.Reset | public/static/app.js:547-552 | after a reset the timer is stopped at 0, and the dialog or the error was shown iff stopping would show it |
| Timer.StartStopIdempotent | public/static/app.js:517-545 | starting twice is starting once, and a second stop shows neither the dialog nor the error |
| Timer.TimerEntry | public/static/app.js:663-690 | nothing is posted without a customer or a description; otherwise the request carries the customer, the chosen project or NULL, the description, the hourly rate of that customer among the loaded ones (0 when it is not loaded), no notes, the minutes, the end now and the start back-dated by the minutes, and the billable flag as 1/0 |
| Timer.TimerDurationRoundTrip | public/static/app.js:663-687 | the server recomputes exactly the offered minutes from the back-dated start and the end |
| InvoiceForm.FormTotals | public/static/app.js:1232-1252 | the form shows the subtotal of every row, `rate / 100` of it as tax, and their sum |
| InvoiceForm.SavedLines | public/static/app.js:1255-1266 | a line is saved iff it is the line of a kept row (description and positive quantity): every kept row is saved, and every saved line has a description, a positive quantity, total = quantity × price, and comes from a kept row |
| InvoiceForm.SavedLinesAppend | public/static/app.js:1255-1266 | the rows are saved one after another: the lines of two stretches of rows are the first stretch's lines followed by the second's, so two identical kept rows give two lines |
| InvoiceForm.SavedLinesOne | public/static/app.js:1255-1266 | a single row gives exactly its line when it is kept and nothing otherwise |
| InvoiceForm.SavedTotals | public/static/app.js:1255-1270 | the sent subtotal is the sum of the saved lines, with the same tax and total relations |
| InvoiceForm.FormSubtotalSplits | public/static/app.js:1232-1270 | the shown subtotal is the saved subtotal plus the totals of the dropped rows |
| InvoiceForm.FormMatchesSavedWhenAllKept | public/static/app.js:1232-1270 | when no row is dropped, shown and saved totals agree |
| InvoiceForm.FormAndSavedCanDiffer | public/static/app.js:1262-1264 | a priced row without a description counts in the shown total but not in the saved one |
| InvoiceForm.ConsultingExample | public/static/app.js:1255-1270 | 3 × 150 at 8.1 % saves 450 net, 36.45 tax and 486.45 in total |
| InvoiceForm.ServerKeepsSavedLines | src/index.tsx:395-401 | the server's `\|\| 1` / `\|\| 0` defaults store every line `saveInvoice` sends unchanged |
| InvoiceForm.SaveRequest | public/static/app.js:1267-1284 | the body carries the header fields as read, no number, the rate as `parseFloat \|\| 0`, the saved lines as items, their sum as subtotal, and tax and total at that rate |
| InvoiceForm.SavedInvoiceLines | public/static/app.js:1272-1290 | an invoice created from the form holds exactly the saved lines, and they sum to its stored subtotal |
| InvoiceForm.SavedInvoiceTotals | src/index.tsx:381 | the stored total is subtotal plus tax; a non-zero form rate is stored with a consistent tax; a zero rate is stored as 8.1 with tax 0, so a non-empty invoice is stored inconsistent |
| InvoiceForm.PreviewLineTotal | public/static/app.js:1844-1846 | a preview line total is the total of the line the server builds for the entry when the customer has no rate |
| InvoiceForm.PreviewSubtotal | public/static/app.js:1898-1906 | the preview subtotal is the subtotal the server would bill for the checked entries if the customer had no rate |
| InvoiceForm.PreviewTax | public/static/app.js:1908 | the preview's `subtotal * 0.081` equals the server's 8.1 % tax |
| InvoiceForm.PreviewLineMatches | public/static/app.js:1843-1846 | an entry with its own non-zero rate gets the same line total in the preview as on the server |
| InvoiceForm.PreviewMatchesServer | public/static/app.js:1843-1846 | when every checked entry has its own non-zero rate, the preview subtotal is the one the server bills |
| InvoiceForm.PreviewMissesCustomerRate | public/static/app.js:1844 | without its own rate an entry previews at 0, while the server bills the customer's rate: one hour at 120 |
| Accounting.CalculateVat | public/static/app.js:2743-2750 | VAT is `rate / 100` of the amount and the total is the amount plus VAT; an empty field reads as 0 |
| Accounting.VatCalculatorAgrees | public/static/app.js:2743-2750 | for every amount and rate, the calculator shows exactly the VAT and gross that satisfy the tax relation at that rate, zero amounts and rates included |
| Accounting.VatExample | public/static/app.js:2743-2750 | 1000 at 7.7 % gives 77 VAT and 1077 in total |
| Accounting.Profit | public/static/app.js:2526 | profit plus expenses is income, a missing sum read as 0 |
| Accounting.VatOwed | public/static/app.js:2533-2534 | VAT owed is never negative, is at least output minus input VAT, and is either 0 or that difference |
| StatusLabels.ProjectStatusText | public/static/app.js:785-793 | "Unbekannt" exactly for a status outside active/completed/paused/cancelled |
| StatusLabels.InvoiceStatusText | public/static/app.js:1013-1022 | "Unbekannt" exactly for a status outside draft/sent/paid/overdue/cancelled |
| StatusLabels.QuoteStatusText | public/static/app.js:2039-2048 | "Unbekannt" exactly for a status outside draft/sent/accepted/rejected/expired |
| StatusLabels.AccountingStatusText | public/static/app.js:2968-2975 | "Unbekannt" exactly for a status outside draft/confirmed/reconciled |
| StatusLabels.LabelsDistinguishStatuses | public/static/app.js:785-793 | in each table, two known statuses with the same label are the same status |
| StatusLabels.SharedStatusesShareLabels | public/static/app.js:2039-2048 | a status that both invoices and quotes know gets the same label in both |

## Left out

- **Rendering and interaction.** DOM rendering, modals, notifications and event wiring are not modelled. They hold no billing logic, and the model works on the values the fields hold.
- **HTTP layer.** CORS, static files, JSON parsing and the generic 500 error responses are not modelled. A request body is modelled already parsed.
- **JSON coercion.** Ids that arrive as strings are treated as numbers.
- **Writes are not atomic.** The server issues one statement at a time. A failure partway through, or two concurrent requests reading the same count, can leave partial rows or duplicate numbers. The model applies each handler as one step.
- **Other routes.** Customer and project CRUD, quote CRUD beyond numbering, `DELETE /api/time-entries/:id`, the read routes, the accounting and settings routes, and `/api/init-db` are outside the modelled core.
- **Other files.** The debug page and the process-manager config are outside the modelled core.
- **Display formatting.** Currency formatting (`Intl.NumberFormat`), `toFixed` rounding in the form and preview, dates via `toISOString`/`toLocaleDateString`, QR codes and logos are display-only and not modelled.
- **Floating point.** Money is exact `real`, so binary rounding and `NaN` propagation are not modelled. `parseFloat` of an empty field is modelled as NaN, read as 0 by `|| 0`.
- **Ordering.** The model keeps time entries in insertion order; this is row-id order when each fresh id exceeds the existing ones, which `TimeEntries.Create` preserves but does not require. The unbilled-entries route orders by `start_time DESC`, and the model does not. The from-time SELECT (src/index.tsx:502-508) has no `ORDER BY`, so SQLite fixes no order; `FromTime.BilledItems` and `FromTime.LinesFromEntries` state the lines in the model's entry order, which is one order the database may return.
- **Item row ids** are not modelled. Items are identified by their invoice and their position.
- Formatting.FormatDuration: states the read-back only for non-negative minutes. A negative count prints as in `NegativeDurationText`, which is not a readable duration. `null` minutes are not modelled.
- Timer.Tick: assumes the clock does not run behind the recorded start. The browser clock can jump back, which is not modelled.
- Timer.Start: the one-second `setInterval` is not modelled. `Tick` is the callback, applied at whatever times the caller chooses.
- Store.ApplyTax: computes tax on exact reals. The stored values are binary floating point in the source.
- Numbering.CountInYear: counts numbers that start with `<prefix><year>-` case-sensitively. SQLite's `LIKE` ignores ASCII case, so the database also counts a supplied `re-2025-007` as an invoice of 2025; the model does not.
- Invoices.Create: returns the assigned id and number. The source answers `{ id, invoice_number, ...data }`, so a request that carries its own `id` or `invoice_number` field (even `""` or `null`) overwrites those fields in the response. The rows stored are not affected. The time-entry handlers' `{ id, ...data, duration_minutes }` echo is likewise not modelled.
- Timer.TimerEntry: the loaded `currentCustomers` list is modelled as a map from id to customer, and every customer carries a numeric rate. A customer whose `hourly_rate` column is NULL, which the browser would send as `null`, is not modelled.
