/** `POST /api/invoices`: check the required fields, then, in one
    transaction, create the invoice with its defaults and its allocations;
    after the commit record an audit CREATE and answer 201.  A unique
    constraint violation is a 400, any other thrown error a 500. */
module InvoicesRoute {
  import opened JsValue
  import Audit
  import opened Store
  import opened Http

  const MissingFields := "Missing required fields"
  const DuplicateInvoice := "An invoice with this number already exists for this vendor"
  const CreateFailed := "Failed to create invoice"

  /** One element of the request's `allocations` array. */
  datatype AllocationInput = AllocationInput(mbaId: Value, amount: Value)

  /** The request's `allocations` property, as the handler's guard and
      `map` see it. */
  datatype Allocations =
      /** Skipped by the guard: absent, falsy, empty, or without a positive
          `length` (a number, a boolean, a plain object). */
    | Skipped
      /** An array of elements that `map` reads `mbaId` and `amount` from. */
    | Items(items: seq<AllocationInput>)
      /** Passes the guard but throws inside the transaction: a non-empty
          string, an object whose `length` is greater than 0 and that has no
          `map`, or an array with a null element. */
    | Unmappable(error: Thrown)

  /** The request body's properties that the handler reads. */
  datatype InvoiceRequest = InvoiceRequest(
    kind: Value,
    vendor: Value,
    invoiceNumber: Value,
    invoiceDate: Value,
    totalAmount: Value,
    currency: Value,
    isPaid: Value,
    notes: Value,
    allocations: Allocations)

  /** The guard `!vendor || !invoiceNumber || !invoiceDate || totalAmount ===
      undefined`, negated.  Only an undefined total is missing: a total of 0,
      or even null, passes, while vendor, number and date must be truthy. */
  predicate HasRequiredFields(b: InvoiceRequest)
    ensures HasRequiredFields(b) <==>
      && b.vendor !in {Undefined, Null, Bool(false), Str(""), Num(0)}
      && b.invoiceNumber !in {Undefined, Null, Bool(false), Str(""), Num(0)}
      && b.invoiceDate !in {Undefined, Null, Bool(false), Str(""), Num(0)}
      && b.totalAmount != Undefined
  {
    Truthy(b.vendor) && Truthy(b.invoiceNumber) && Truthy(b.invoiceDate) && b.totalAmount != Undefined
  }

  /** The `data` of the invoice create: `type`, `currency`, `isPaid` and
      `notes` fall back to "INVOICE", "USD", false and null when falsy, and
      are kept as sent otherwise; the other columns are copied. */
  function WithDefaults(b: InvoiceRequest): (d: InvoiceData)
    ensures Truthy(d.kind) && Truthy(d.currency)
    ensures !Truthy(d.isPaid) ==> d.isPaid == Bool(false)
    ensures !Truthy(d.notes) ==> d.notes == Null
    ensures Truthy(b.kind) ==> d.kind == b.kind
    ensures Truthy(b.currency) ==> d.currency == b.currency
    ensures Truthy(b.isPaid) ==> d.isPaid == b.isPaid
    ensures Truthy(b.notes) ==> d.notes == b.notes
    ensures !Truthy(b.kind) ==> d.kind == Str("INVOICE")
    ensures !Truthy(b.currency) ==> d.currency == Str("USD")
    ensures !Truthy(b.isPaid) ==> d.isPaid == Bool(false)
    ensures !Truthy(b.notes) ==> d.notes == Null
    ensures d.vendor == b.vendor && d.invoiceNumber == b.invoiceNumber
    ensures d.invoiceDate == b.invoiceDate && d.totalAmount == b.totalAmount
  {
    InvoiceData(
      kind := if Truthy(b.kind) then b.kind else Str("INVOICE"),
      vendor := b.vendor,
      invoiceNumber := b.invoiceNumber,
      invoiceDate := b.invoiceDate,
      totalAmount := b.totalAmount,
      currency := if Truthy(b.currency) then b.currency else Str("USD"),
      isPaid := if Truthy(b.isPaid) then b.isPaid else Bool(false),
      notes := if Truthy(b.notes) then b.notes else Null)
  }

  /** Applying the defaults to an already defaulted request changes nothing. */
  lemma WithDefaultsIdempotent(b: InvoiceRequest)
    ensures var d := WithDefaults(b);
      WithDefaults(InvoiceRequest(d.kind, d.vendor, d.invoiceNumber, d.invoiceDate, d.totalAmount,
                                  d.currency, d.isPaid, d.notes, b.allocations)) == d
  {
  }

  /** The `allocations.map(...)` of the handler: one row per element, in
      order, each carrying the new invoice's id. */
  function AllocationRows(invoiceId: Id, inputs: seq<AllocationInput>): (rows: seq<AllocationRow>)
    ensures |rows| == |inputs|
    ensures forall i :: 0 <= i < |rows| ==> rows[i].invoiceId == invoiceId
  {
    seq(|inputs|, i requires 0 <= i < |inputs| => AllocationRow(invoiceId, inputs[i].mbaId, inputs[i].amount))
  }

  /** The element a row was made from. */
  function InputOf(row: AllocationRow): AllocationInput
  {
    AllocationInput(row.mbaId, row.amount)
  }

  /** The rows hold exactly the elements sent: stripping the invoice id
      gives the request's list back. */
  lemma AllocationRowsRoundTrip(invoiceId: Id, inputs: seq<AllocationInput>)
    ensures seq(|inputs|, i requires 0 <= i < |inputs| => InputOf(AllocationRows(invoiceId, inputs)[i])) == inputs
  {
  }

  /** The rows a committed transaction has written for a request: none
      unless `allocations` is a non-empty array. */
  function RowsFor(invoiceId: Id, allocations: Allocations): (rows: seq<AllocationRow>)
    ensures allocations.Items? ==> rows == AllocationRows(invoiceId, allocations.items)
    ensures !allocations.Items? ==> rows == []
  {
    if allocations.Items? && |allocations.items| > 0 then AllocationRows(invoiceId, allocations.items) else []
  }

  /** The catch block's answer to a thrown error. */
  function FailureResponse(e: Thrown): (r: Response)
    ensures r.status == 400 <==> e.ErrorObject? && Includes(e.message, "Unique constraint")
    ensures r.status == 400 ==> r.body == Message(DuplicateInvoice)
    ensures r.status != 400 ==> r == Response(500, Message(CreateFailed))
  {
    if e.ErrorObject? && Includes(e.message, "Unique constraint") then
      Response(400, Message(DuplicateInvoice))
    else
      Response(500, Message(CreateFailed))
  }

  /** A Prisma unique-constraint message is answered with the duplicate
      invoice message. */
  lemma UniqueViolationIsBadRequest(prefix: string, suffix: string)
    ensures FailureResponse(ErrorObject(prefix + "Unique constraint" + suffix)) == Response(400, Message(DuplicateInvoice))
  {
    var m := prefix + "Unique constraint" + suffix;
    assert OccursAt(m, "Unique constraint", |prefix|) by {
      assert m[|prefix|..|prefix| + |"Unique constraint"|] == "Unique constraint";
    }
    IncludesIff(m, "Unique constraint");
  }

  method Post(db: Database, request: RequestBody<InvoiceRequest>) returns (resp: Response)
    requires db.Valid()
    modifies db, db.auditLog
    ensures db.Valid()
    ensures db.clients == old(db.clients)
    ensures resp.status in {201, 400, 500}
    ensures request.Unparsable? ==> resp == FailureResponse(request.error)
    ensures request.Json? && !HasRequiredFields(request.value) ==> resp == Response(400, Message(MissingFields))
    ensures resp.body == Message(MissingFields) <==> request.Json? && !HasRequiredFields(request.value)
    ensures request.Json? && HasRequiredFields(request.value) && resp.status != 201 ==>
      exists e :: resp == FailureResponse(e)
    ensures request.Json? && request.value.allocations.Unmappable? && HasRequiredFields(request.value) ==>
      resp.status != 201
    ensures resp.status != 201 ==> resp.body.Message? && resp.body.text in {MissingFields, DuplicateInvoice, CreateFailed}
    ensures resp.status != 201 ==>
      && db.invoices == old(db.invoices) && db.allocations == old(db.allocations)
      && db.auditLog.records == old(db.auditLog.records)
    ensures resp.status == 201 ==>
      && request.Json? && HasRequiredFields(request.value)
      && resp.body.InvoiceJson?
      && var invoice := resp.body.invoice;
      && invoice.data == WithDefaults(request.value)
      && (forall v :: v in old(db.invoices) ==> v.id != invoice.id)
      && db.invoices == old(db.invoices) + [invoice]
      && db.allocations == old(db.allocations) + RowsFor(invoice.id, request.value.allocations)
      && (|| db.auditLog.records == old(db.auditLog.records) + [Audit.AuditRecord(Audit.Invoice, invoice.id, Audit.CREATE, None, None, None)]
          || db.auditLog.records == old(db.auditLog.records))
  {
    if request.Unparsable? {
      return FailureResponse(request.error);
    }
    var body := request.value;
    if !Truthy(body.vendor) || !Truthy(body.invoiceNumber) || !Truthy(body.invoiceDate) || body.totalAmount == Undefined {
      return Response(400, Message(MissingFields));
    }

    // The transaction: the invoice, then its allocations; a failure in
    // either rolls both back.
    var savepoint := db.Mark();
    var created := db.CreateInvoice(WithDefaults(body));
    if created.Err? {
      db.Rollback(savepoint);
      return FailureResponse(created.error);
    }
    var invoice := created.value;
    if body.allocations.Unmappable? {
      db.Rollback(savepoint);
      return FailureResponse(body.allocations.error);
    }
    if body.allocations.Items? && |body.allocations.items| > 0 {
      var outcome := db.CreateManyAllocations(AllocationRows(invoice.id, body.allocations.items));
      if outcome.Fail? {
        db.Rollback(savepoint);
        return FailureResponse(outcome.error);
      }
    }

    // Committed: the audit entry comes after.
    Audit.LogAudit(db.auditLog, Audit.Invoice, invoice.id, Audit.CREATE, None, None, None);
    resp := Response(201, InvoiceJson(invoice));
  }
}
