# Taxi service log: manual entry, ticket scanner and cycle report

This project is a Dafny model of three screens of a React Native app in which a
taxi driver records services for subscriber companies. Services are grouped
into billing cycles.

- **Manual service entry** (`app/scan-service.tsx`), module `ScanService`:
  - a form of seven text fields;
  - the confirmation guard chain: an active cycle, then the required fields, then the price, then the discount;
  - the record that a confirmation saves;
  - the three store writes it awaits (`addOrUpdateClient`, `recordService`, `addService`), in order;
  - `isProcessing` cleared in `finally`;
  - the cancel handler and the "manual entry" button, which reset or seed the form.
- **Ticket scanner** (`components/TicketScanner.tsx`), module `TicketScanner`:
  - the data-URI check on the image;
  - the cleaning of the extraction service's reply: `trim`, the two fence-stripping regular expressions, `trim` again;
  - the coercion of the parsed reply to a list of entries;
  - the amount guard;
  - the mapping of entries to card-paid services;
  - the confirm and reset handlers.
- **Cycle report** (`app/cycle-report.tsx`), module `CycleReport`:
  - one row per service, in order;
  - the price and discount parsed with `parseFloat(...) || 0`;
  - the final price after the discount;
  - the discount column text;
  - the client column and the optional observations row.

Module `Js` holds the part of JavaScript's runtime that these screens rely on:
- `String.prototype.trim` over the exact ECMAScript white-space set, which is also the `\s` of regular expressions;
- truthiness and `a || b`;
- property reads on parsed JSON values;
- `parseFloat` and `JSON.parse`, each given as a table from input strings to results. A string outside the table is NaN or a syntax error.

The screens' state is kept in classes with the same fields as the React state
hooks, and each handler is a method on it. Calls that leave the screen
(`addService` and the other store writes, the extraction request,
`onServicesExtracted`, `onClose`) are appended to a log field, so the
contracts can say which calls happen and in what order.

Main results:
- the guard chain rejects in a fixed order, with one if-and-only-if per rejection;
- an accepted confirmation saves a record that is trimmed, non-blank and in range (`AcceptedServiceWellFormed`);
- the `if (editCompany.trim())` around the first two writes is always taken;
- a write that throws cuts the write log short at that write;
- a fenced reply is cleaned back to exactly its body, and a fence-free one is only trimmed;
- a non-numeric amount passes the scanner's guard, because `NaN <= 0` is false;
- the report numbers rows from 1 and keeps their order, and each row depends only on its service and its position;
- a discount in [0, 100] keeps the final price between 0 and the price. Every record the manual-entry screen saves falls in that range.

## Model

| member | source | states |
|---|---|---|
| Js.TrimStart | components/TicketScanner.tsx:177 | the greedy leading `\s*` after the opening fence removes a white-space prefix and stops at the first other character |
| Js.TrimEnd | components/TicketScanner.tsx:177 | the `\s*` before the closing fence removes a white-space suffix and leaves a string whose last character is not white space |
| Js.Trim | app/scan-service.tsx:65 | `trim` leaves no white space at either end and is empty exactly when the input is all white space (the blank-field test) |
| Js.TrimIdempotent | app/scan-service.tsx:106-118 | trimming a trimmed field changes nothing |
| Js.TrimPadded | components/TicketScanner.tsx:176-178 | white space on both sides of a string with no white space at its ends is exactly what `trim` removes |
| ScanService.CheckConfirm | app/scan-service.tsx:54-82 | acceptance iff active cycle, all four required fields non-blank, price a non-negative number, discount a number in [0, 100]; each rejection iff the guards before it pass and its own fails, so no cycle is reported before any field is looked at |
| ScanService.SavedService | app/scan-service.tsx:106-118 | the saved record carries the trimmed origin, destination, company and observations of the form, the price, discount and date exactly as typed, payment `Abonado`, and the trimmed company as client name |
| ScanService.ConfirmWrites | app/scan-service.tsx:89-122 | the three writes are client, recurring service, cycle service in that order; the first two carry the trimmed company and route and the raw price and discount of the form, and the last one is the saved record filed under the active cycle |
| ScanService.AcceptedServiceWellFormed | app/scan-service.tsx:65-118 | every record saved by an accepted confirmation has non-blank trimmed text fields, a price that is a non-negative number and a discount in [0, 100] |
| ScanService.CompanyGuardAlwaysTaken | app/scan-service.tsx:89 | the company test before the first two writes always holds once the guards have passed |
| ScanService.ScanServiceScreen.constructor | app/scan-service.tsx:40-50 | the initial state: not processing, nothing extracted, not confirming, every field empty except the discount "0" |
| ScanService.ScanServiceScreen.HandleConfirm | app/scan-service.tsx:54-138 | a rejected confirmation writes nothing and changes no state; an accepted one appends the three writes up to the one that throws, reports success or the failing write, and ends with `isProcessing` false; the form is never changed |
| ScanService.ScanServiceScreen.Save | app/scan-service.tsx:84-137 | the `try`/`finally` block: writes appended in order up to the failing one, `isProcessing` false afterwards |
| ScanService.ScanServiceScreen.HandleCancel | app/scan-service.tsx:140-150 | leaves the form, drops the extracted record, clears every field and puts the discount back to "0" |
| ScanService.ScanServiceScreen.StartManualEntry | app/scan-service.tsx:323-339 | opens the form on an empty record dated today, with empty fields except the date and the discount "0" |
| TicketScanner.StripOpeningFence | components/TicketScanner.tsx:177 | with a leading ```` ```json ```` in any case, removes it and the white space after it; otherwise leaves the text alone |
| TicketScanner.StripClosingFence | components/TicketScanner.tsx:177 | with a trailing ```` ``` ````, removes it and the white space before it; otherwise leaves the text alone |
| TicketScanner.OpeningFenceAnyCase | components/TicketScanner.tsx:177 | the `i` flag of the fence pattern: the opening fence is recognised exactly when the text starts with three backticks and `json` in any mix of upper and lower case |
| TicketScanner.CleanReply | components/TicketScanner.tsx:176-178 | the cleaned text has no white space at either end and is never longer than the reply |
| TicketScanner.CleanReplyFenceFree | components/TicketScanner.tsx:176-178 | a reply with no fences is only trimmed |
| TicketScanner.CleanReplyFenced | components/TicketScanner.tsx:176-178 | a body wrapped in an opening fence, white space and a closing fence is cleaned back to exactly the body |
| TicketScanner.StripOpeningFencePadded | components/TicketScanner.tsx:177 | the opening fence and all the white space after it are removed, up to the first other character |
| TicketScanner.StripClosingFencePadded | components/TicketScanner.tsx:177 | the closing fence and all the white space before it are removed, back to the last other character |
| TicketScanner.FencedReplyTrimmed | components/TicketScanner.tsx:176 | a fenced reply starts and ends with a backtick, so the first `trim` leaves it alone |
| TicketScanner.FencedReplyOpening | components/TicketScanner.tsx:177 | stripping the opening fence of a fenced reply leaves the body, the white space after it and the closing fence |
| TicketScanner.FencedReplyClosing | components/TicketScanner.tsx:177 | stripping the closing fence from what is left leaves the body |
| TicketScanner.CoerceReply | components/TicketScanner.tsx:185-193 | a `services` array is taken verbatim; otherwise an object with a truthy `date` is a one-entry list; the reply is an error exactly when it is `null` or has neither shape, and only objects are ever accepted |
| TicketScanner.CoerceReplyEmpty | components/TicketScanner.tsx:185-193 | coercion yields an empty list exactly when the reply holds an empty `services` array |
| TicketScanner.ScanEntry | components/TicketScanner.tsx:235-244 | each record carries the typed amount, discount "0" and payment `Tarjeta`; each truthy field is copied, each falsy one becomes "" and a falsy date becomes today |
| TicketScanner.ScanEntries | components/TicketScanner.tsx:235-244 | one record per entry, in order, unless some entry is `null` (whose field read throws) |
| TicketScanner.NonNumericAmountAccepted | components/TicketScanner.tsx:230-233 | a non-empty amount that does not parse as a number passes the amount guard |
| TicketScanner.ReadReply | components/TicketScanner.tsx:167-193 | no reply or empty text is a failure of its own; for a non-empty reply, entries come out exactly when the cleaned text parses and coerces, and they are what the coercion gives |
| TicketScanner.TicketScannerScreen.constructor | components/TicketScanner.tsx:36-40 | the initial state: no camera, no image, not processing, no entries, no amount |
| TicketScanner.TicketScannerScreen.ProcessImage | components/TicketScanner.tsx:83-222 | an image without the `data:image` prefix is refused before any request; otherwise exactly one request is made and the outcome is that of the reply; the entries change only on a successful read; `isProcessing` is false at the end |
| TicketScanner.TicketScannerScreen.HandleConfirm | components/TicketScanner.tsx:224-249 | no entries gives `NothingExtracted`, then a missing or non-positive amount gives `AmountMissing`, then a `null` entry gives `EntryUnreadable`; each of these leaves everything unchanged; otherwise the host gets the mapped records and then the close call, and the screen is reset |
| TicketScanner.TicketScannerScreen.HandleReset | components/TicketScanner.tsx:251-256 | drops the image, the entries and the amount and hides the camera |
| CycleReport.DiscountCell | app/cycle-report.tsx:8-17 | the discount column is `-` exactly when the parsed discount is not positive; otherwise it is the discount as typed between `-` and `%` |
| CycleReport.Row | app/cycle-report.tsx:1-25 | a row is numbered index + 1, carries the parsed price and discount and the final price price − price·discount/100, shows `-` for an empty client, and has an observations row exactly when there are observations |
| CycleReport.Rows | app/cycle-report.tsx:1-26 | one row per service, in input order, numbered from 1 |
| CycleReport.RenumberedRows | app/cycle-report.tsx:1-26 | the rows of a run of services that starts at a given position are numbered from that position + 1 |
| CycleReport.RowsAppend | app/cycle-report.tsx:1-26 | each row depends only on its service and its position: splitting the cycle anywhere, the rows of the front part are unchanged by what follows, and the rest are its own rows numbered on from where the front part ends |
| CycleReport.UnparsedCountsAsZero | app/cycle-report.tsx:2-17 | an unparseable discount counts as 0, shows `-` and leaves the final price equal to the price; with an unparseable price as well, the final price is 0 |
| CycleReport.NoDiscountKeepsPrice | app/cycle-report.tsx:4-17 | a row whose parsed discount is 0 shows `-` in the discount column and the price itself as the final price |
| CycleReport.FinalPriceBounds | app/cycle-report.tsx:4-5 | a discount in [0, 100] on a non-negative price gives a final price between 0 and the price |
| CycleReport.PositiveDiscountShownAsTyped | app/cycle-report.tsx:8-17 | since `parseFloat("")` is NaN, a positive discount is always shown as typed and the `'0'` fallback never shows |
| CycleReport.SavedServiceRow | app/cycle-report.tsx:2-5 | a record saved by the manual-entry screen reports its parsed price and discount, a final price between 0 and the price, and the trimmed company as client |

## Left out

- Rendering, styles, `Alert`, `router` and `console`: presentation and side-effect plumbing with no bearing on the data.
- Camera, image picker and permissions (`handleOpenCamera`, `handleTakePicture`, `handlePickImage`): device input. The image they produce is a parameter of `ProcessImage`, and the `capturedImage` they set is not modelled beyond its reset.
- The extraction request: the HTTP call, its request body, the status handling and the classification of error messages. `ProcessImage` takes the reply text as a parameter (`None` for a request or response that fails) and logs the whole image as the request instead of its base64 part.
- `JSON.parse` and `parseFloat` are given as tables, not implemented. JavaScript's prefix parsing of numbers is therefore not modelled; the one fact used about it, that the empty string is NaN, is stated as `EmptyIsNaN`.
- The services, settings, recurring-client and recurring-service contexts are not part of this model. `getActiveCycle` is a parameter, and the three writes are logged calls. Which write throws, if any, is a parameter (`failAt`).
- `new Date()`: today's date is a parameter of `StartManualEntry` and `HandleConfirm`.
- `toLocaleDateString`, `toFixed(2)` and the HTML assembly of the report: formatting. The row keeps the raw date and the unrounded numbers.
- CycleReport: the prices are exact `real`s, an idealisation of JavaScript's double arithmetic. Rounding, infinities and negative zero are not modelled.
- The text-field setters of both screens: each is a plain assignment to the field.
- `clientId` and `clientPhone` of the saved record: always `undefined`, so they are dropped from `Service`.
- ScanService.ScanServiceScreen.HandleConfirm: the intermediate `isProcessing = true` while the writes are awaited is not visible in the contract, only its final value; the disabling of buttons it drives is presentation.
- TicketScanner.TicketScannerScreen.HandleConfirm: `EntryUnreadable` stands for the uncaught `TypeError` that reading `date` of a `null` entry raises; the model ends the handler there with no state change. The render of the entry list reads the same field and would already throw before the confirm button is shown; rendering is not part of this model.
- TicketScanner.TicketScannerScreen.ProcessImage: the alerts that tell a parse failure from a request failure are not modelled; both end as an outcome value with the entries unchanged. The method is one atomic step, while the source awaits the request with the header close button (which calls `handleReset`) still enabled. A reset while the request is pending is not modelled: in the source the late reply refills `extractedData` after the reset.
- Js.LowerAscii: only ASCII letters are case-folded. The `i` flag also folds other characters, but none of them can match the ASCII letters of `json`.
- Js.Prop: property reads are modelled only as object fields. A string's `length` or an array's index keys are never read by these screens.
