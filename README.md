# Media-tracking audit trail and create handlers, modelled in Dafny

This project models the part of the media-buying tracker that carries
logic beyond plain database queries:

- the audit helper (`src/lib/audit.ts`):
  - `computeChanges` is a field-by-field diff of an entity's old and new snapshot over an allow-list of field names. Decimal wrappers are turned into numbers, and fields are compared with strict inequality.
  - `logAudit` makes one best-effort write of an audit record. A failure is swallowed.
- the `POST` handler of `/api/clients`. It validates the name, creates the client with the trimmed name and records an audit CREATE.
- the `POST` handler of `/api/invoices`. It checks the required fields and applies defaults. It then creates the invoice and its allocations in one transaction, records an audit CREATE after the commit, and maps errors to 400 or 500.

Files and modules:

- `js_value.dfy`, module `JsValue`: the JavaScript values the code handles (`undefined`, `null`, booleans, strings, numbers, Prisma decimals) and their truthiness. It also holds `String.prototype.trim` (ECMAScript white space), `String.prototype.includes`, thrown errors, and the outcome of parsing a request body.
- `audit.dfy`, module `Audit`:
  - `Changes` is the declarative specification of `computeChanges`. `ComputeChanges` is the source's `for` loop, proved equal to it. Lemmas state the diff's properties.
  - `AuditLog` is the audit table, whose writes may fail. `LogAudit` is the best-effort append.
- `store.dfy`, modules `Store` and `Http`:
  - `Store.Database` is the Prisma client as the handlers see it. It holds the client, invoice and allocation tables and hands out fresh ids. Any write may fail, and a savepoint/rollback pair gives the interactive transaction.
  - `Http.Response` is the `(status, body)` pair a handler answers with.
- `clients_route.dfy`, module `ClientsRoute`, and `invoices_route.dfy`, module `InvoicesRoute`: the two `POST` handlers.

A store write that may fail is modelled as a nondeterministic choice
(`:| true`) between success and a thrown error. The handlers' contracts
therefore hold for every outcome of every write. They are stated per
response status.

## Model

| member | source | states |
|---|---|---|
| Audit.Normalize | src/lib/audit.ts:57-62 | a decimal-like value becomes the number it holds; every other value passes through unchanged; no decimal survives normalization |
| Audit.DiffOnExtend | src/lib/audit.ts:52-66 | one more iteration of the loop adds the current field to the change set exactly when its normalized values differ, and leaves the rest as it was |
| Audit.Changes | src/lib/audit.ts:46-48 | the specification of the diff: with no previous snapshot the result is undefined, whatever the new snapshot and the field list |
| Audit.ComputeChanges | src/lib/audit.ts:41-70 | the loop returns exactly the specified change set; no previous snapshot gives undefined; a returned set is non-empty; each of its keys is a listed field whose normalized values differ, and its entry is `{old, new}` of the normalized values |
| Audit.ChangedExactlyWhenDiffers | src/lib/audit.ts:64-66 | a listed field is in the result if and only if its normalized old and new values are strictly unequal, and its entry is then the pair of normalized values |
| Audit.OnlyListedFields | src/lib/audit.ts:52-66 | a field outside the allow-list never appears in the result, whatever its values |
| Audit.NeverEmpty | src/lib/audit.ts:69 | the result is never an empty change set: zero differences give undefined |
| Audit.NoDecimalInChanges | src/lib/audit.ts:57-65 | no decimal wrapper appears as the old or new value of an entry |
| Audit.AgreeingSnapshotsNoChanges | src/lib/audit.ts:52-69 | snapshots equal on every listed field give undefined |
| Audit.SingleFieldChange | src/lib/audit.ts:52-69 | snapshots whose normalized values differ in exactly one listed field, decimals included, give a change set holding exactly that field with its normalized old and new value |
| Audit.FieldOrderIrrelevant | src/lib/audit.ts:52-66 | as a mapping, the result depends only on which names are listed, not on their order or repetition |
| Audit.UndefinedIsNotNull | src/lib/audit.ts:64 | strict comparison: an undefined field against a null one is recorded as the change `{old: undefined, new: null}` |
| Audit.EqualDecimalsNoChange | src/lib/audit.ts:57-64 | a decimal against an equal decimal or an equal plain number, on either side, is no change |
| Audit.AmountEditScenario | src/lib/audit.ts:52-69 | an amount going from the number 100 to 150 with unchanged notes yields only the amount entry |
| Audit.SpendEntryAmountEditScenario | src/lib/audit.ts:52-69 | a spend entry whose decimal amount goes from 100 to 150 with unchanged notes yields only the amount entry, recorded as the numbers 100 and 150 |
| Audit.ClientPaidScenario | src/lib/audit.ts:52-69 | marking an MBA paid records the flag, the date (undefined before) and the amount (null before, a decimal after, recorded as a number) |
| Audit.AuditLog.Create | src/lib/audit.ts:24-33 | an audit-table write either appends exactly the given record or fails and leaves the table unchanged |
| Audit.LogAudit | src/lib/audit.ts:15-38 | always returns normally; afterwards the log holds exactly one new record `{entityType, entityId, action, changes (null when omitted), userId, userEmail}` or is unchanged |
| JsValue.Truthy | src/app/api/invoices/route.ts:22 | a value is falsy exactly when it is undefined, null, false, the empty string or 0 |
| JsValue.SkipForward | src/app/api/clients/route.ts:19 | the index where the leading white space of the string ends: everything before it from the start point is white space, and the character at it is not |
| JsValue.SkipBackward | src/app/api/clients/route.ts:19 | the index where the trailing white space of the string begins: everything from it to the end point is white space, and the character before it is not |
| JsValue.Trim | src/app/api/clients/route.ts:19 | the result is a contiguous stretch of the input with only white space around it, and it neither starts nor ends with white space |
| JsValue.TrimEmptyIff | src/app/api/clients/route.ts:10 | a string trims to the empty string if and only if it is all white space |
| JsValue.TrimIdempotent | src/app/api/clients/route.ts:19 | trimming a trimmed name changes nothing |
| JsValue.Includes | src/app/api/invoices/route.ts:74 | the empty string is included in every string, and a string longer than the searched one is never included |
| JsValue.IncludesIff | src/app/api/invoices/route.ts:74 | `includes` holds if and only if the searched string occurs at some index |
| Store.Database.CreateClient | src/app/api/clients/route.ts:17-21 | either one client with the given name and an id no existing client has is appended, or the create fails and nothing is written |
| Store.Database.CreateInvoice | src/app/api/invoices/route.ts:31-42 | either one invoice with the given data and a fresh id is appended, or the create fails and nothing is written |
| Store.Database.CreateManyAllocations | src/app/api/invoices/route.ts:46-54 | either all the given rows are appended, or none is |
| Store.Database.Rollback | src/app/api/invoices/route.ts:30-58 | an aborted transaction restores the invoice and allocation tables to the savepoint and touches nothing else |
| ClientsRoute.ValidName | src/app/api/clients/route.ts:10 | a name passes the guard if and only if it is a string holding a character that is not white space |
| ClientsRoute.Post | src/app/api/clients/route.ts:5-37 | an unparsable body gives 500; an invalid name gives 400 "Client name is required" and no writes; status 201 only for a valid name, with exactly one new client named by the trimmed name, a fresh id, and the audit log holding the CREATE record for it or unchanged; a failed create gives 500 "Failed to create client" and no writes |
| InvoicesRoute.HasRequiredFields | src/app/api/invoices/route.ts:22 | the required-field check passes if and only if vendor, number and date are not falsy and the total is not undefined, so a total of 0 is accepted |
| InvoicesRoute.WithDefaults | src/app/api/invoices/route.ts:33-40 | type, currency, isPaid and notes are kept when truthy, and become "INVOICE", "USD", false and null otherwise; type and currency always end up truthy, and the other columns are copied |
| InvoicesRoute.WithDefaultsIdempotent | src/app/api/invoices/route.ts:33-40 | defaulting already defaulted data changes nothing |
| InvoicesRoute.AllocationRows | src/app/api/invoices/route.ts:47-53 | one row per allocation element, in order, each carrying the new invoice's id |
| InvoicesRoute.AllocationRowsRoundTrip | src/app/api/invoices/route.ts:47-53 | stripping the invoice id from the rows gives back exactly the elements sent |
| InvoicesRoute.RowsFor | src/app/api/invoices/route.ts:45-55 | a committed transaction has written the mapped rows of a non-empty allocations array and no rows when the guard skips `createMany` |
| InvoicesRoute.FailureResponse | src/app/api/invoices/route.ts:68-85 | an Error whose message contains "Unique constraint" gives 400 with the duplicate-invoice message; every other thrown value gives 500 "Failed to create invoice" |
| InvoicesRoute.UniqueViolationIsBadRequest | src/app/api/invoices/route.ts:72-79 | any error message with "Unique constraint" inside is answered with 400 and the duplicate-invoice message |
| InvoicesRoute.Post | src/app/api/invoices/route.ts:5-87 | a 400 "Missing required fields" answer happens if and only if the body lacks a required field, and then nothing is written. Once the fields are present, every non-201 answer is the catch block's answer to some thrown error, so "Unique constraint" gives 400 and anything else 500, and it leaves invoices, allocations and audit log unchanged (all or nothing, and no audit without a commit). An allocations value that throws inside the transaction never yields 201. A 201 answer carries one new invoice with the defaulted data and a fresh id. It also means the request's allocations were all written with that id, or none when the guard skipped them, and that the audit log holds the invoice's CREATE record or is unchanged |

## Left out

- `GET` in `src/app/api/clients/route.ts`, `src/app/api/mbas/route.ts` and the pages: these are bare database queries and presentation.
- Prisma internals are not modelled: how transactions achieve atomicity, how unique constraints are detected, column-type validation, and id and timestamp generation. Each write may fail with an arbitrary thrown value. Ids are natural numbers from a counter, where the source uses opaque strings. The audit record's own `id` and `createdAt` are not modelled.
- Audit.LogAudit: the `console.error` report of a failed write is not modelled, and neither is any other logging.
- `request.json()` parsing is not modelled; a handler receives either the error it threw or the properties it reads. Body shapes map onto that as follows:
  - A `null` body makes the destructuring throw a TypeError, which reaches the catch block. The model expresses it as `Unparsable(error)` with that error.
  - A number, string or boolean body destructures without throwing, and every property reads as undefined. The model expresses it as a request whose values are all `Undefined` (with `allocations := Skipped`), and both handlers answer 400.
  - An `allocations` that is a number, a boolean, or an object without `length` fails the guard `allocations.length > 0`. The source then skips `createMany` and answers 201 with no allocation rows. The model expresses it as `allocations := Skipped`.
  - A non-empty string `allocations`, or an object whose `length` is greater than 0 and that has no `map`, throws a TypeError inside the transaction, and so does an array with a `null` element (at `alloc.mbaId`). The transaction rolls back and the answer is 500. The model expresses it as `allocations := Unmappable(error)`.
  - An array whose elements lack `mbaId` or `amount` is passed on as `Undefined` values, and the store may reject it.
- `NextResponse` construction is not modelled: a response is a status with a message, client or invoice body.
- Numbers are integers, so NaN, `-0` and the rounding of `toNumber()` are not modelled. Dates are the serialized strings the callers pass; `new Date(invoiceDate)` is kept as the value sent.
- Objects other than the decimal wrapper are not modelled, so reference identity of values in a snapshot is not modelled either. A field named `__proto__`, which a plain object assignment would not store as an own key, is not modelled.
- Audit.Changes: the key order of the change set, which follows the order of `fields` and is what `Object.entries` shows on the audit page, is not modelled; the change set is a `map`.
- `async`/`await` scheduling and concurrent requests are not modelled.
