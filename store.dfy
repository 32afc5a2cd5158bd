/** The Prisma client as the route handlers see it: tables of records, each
    write of which may fail, fresh ids for created rows, interactive
    transactions that roll back on failure, and the audit-log table. */
module Store {
  import opened JsValue
  import Audit

  type Id = Audit.Id

  datatype Client = Client(id: Id, name: string)

  /** The `data` of an invoice create: the columns the handler fills. */
  datatype InvoiceData = InvoiceData(
    kind: Value,
    vendor: Value,
    invoiceNumber: Value,
    invoiceDate: Value,
    totalAmount: Value,
    currency: Value,
    isPaid: Value,
    notes: Value)

  datatype Invoice = Invoice(id: Id, data: InvoiceData)

  datatype AllocationRow = AllocationRow(invoiceId: Id, mbaId: Value, amount: Value)

  /** The invoice-side tables as a transaction found them. */
  datatype Savepoint = Savepoint(invoices: seq<Invoice>, allocations: seq<AllocationRow>)

  class Database {
    var clients: seq<Client>
    var invoices: seq<Invoice>
    var allocations: seq<AllocationRow>
    /** The next id the store hands out; ids are never reused. */
    var nextId: Id
    const auditLog: Audit.AuditLog

    /** Every stored client and invoice has an id below `nextId`. */
    ghost predicate Valid()
      reads this
    {
      && (forall c :: c in clients ==> c.id < nextId)
      && (forall v :: v in invoices ==> v.id < nextId)
    }

    constructor ()
      ensures Valid() && fresh(auditLog)
      ensures clients == [] && invoices == [] && allocations == [] && auditLog.records == []
    {
      clients, invoices, allocations, nextId := [], [], [], 0;
      auditLog := new Audit.AuditLog();
    }

    /** `client.create`: a client with a fresh id, or a failure that writes
        nothing. */
    method CreateClient(name: string) returns (r: Result<Client>)
      requires Valid()
      modifies this
      ensures Valid() && nextId >= old(nextId)
      ensures invoices == old(invoices) && allocations == old(allocations)
      ensures r.Ok? ==> r.value.name == name && clients == old(clients) + [r.value]
      ensures r.Ok? ==> forall c :: c in old(clients) ==> c.id != r.value.id
      ensures r.Err? ==> clients == old(clients)
    {
      var fails: bool :| true;
      if fails {
        var error: Thrown :| true;
        r := Err(error);
      } else {
        var client := Client(nextId, name);
        clients := clients + [client];
        nextId := nextId + 1;
        r := Ok(client);
      }
    }

    /** The state a transaction would roll back to. */
    function Mark(): Savepoint
      reads this
    {
      Savepoint(invoices, allocations)
    }

    /** `tx.invoice.create`: an invoice with a fresh id, or a failure that
        writes nothing (a duplicate vendor and number, a rejected column
        value, a lost connection). */
    method CreateInvoice(data: InvoiceData) returns (r: Result<Invoice>)
      requires Valid()
      modifies this
      ensures Valid() && nextId >= old(nextId)
      ensures clients == old(clients) && allocations == old(allocations)
      ensures r.Ok? ==> r.value.data == data && invoices == old(invoices) + [r.value]
      ensures r.Ok? ==> forall v :: v in old(invoices) ==> v.id != r.value.id
      ensures r.Err? ==> invoices == old(invoices)
    {
      var fails: bool :| true;
      if fails {
        var error: Thrown :| true;
        r := Err(error);
      } else {
        var invoice := Invoice(nextId, data);
        invoices := invoices + [invoice];
        nextId := nextId + 1;
        r := Ok(invoice);
      }
    }

    /** `tx.invoiceAllocation.createMany`: all the rows, or none of them. */
    method CreateManyAllocations(rows: seq<AllocationRow>) returns (outcome: Outcome)
      requires Valid()
      modifies this
      ensures Valid() && nextId == old(nextId)
      ensures clients == old(clients) && invoices == old(invoices)
      ensures outcome.Pass? ==> allocations == old(allocations) + rows
      ensures outcome.Fail? ==> allocations == old(allocations)
    {
      var fails: bool :| true;
      if fails {
        var error: Thrown :| true;
        outcome := Fail(error);
      } else {
        allocations := allocations + rows;
        outcome := Pass;
      }
    }

    /** An aborted transaction: the invoice-side tables return to the
        savepoint; ids already handed out stay used. */
    method Rollback(sp: Savepoint)
      requires Valid()
      requires forall v :: v in sp.invoices ==> v.id < nextId
      modifies this
      ensures Valid() && nextId == old(nextId)
      ensures clients == old(clients)
      ensures invoices == sp.invoices && allocations == sp.allocations
    {
      invoices, allocations := sp.invoices, sp.allocations;
    }
  }
}

/** The `(status, body)` pair a route handler answers with. */
module Http {
  import Store

  datatype Body =
    | Message(text: string)
    | ClientJson(client: Store.Client)
    | InvoiceJson(invoice: Store.Invoice)

  datatype Response = Response(status: int, body: Body)
}
