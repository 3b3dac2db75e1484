/** The rows of the D1 tables the invoicing core reads and writes, and the
    line-item arithmetic shared by the server and the browser. Money is an
    exact rational (`real`); rounding happens only at display time. */
module Store {
  import opened Wrappers

  /** A `customers` row; only the billing rate matters to invoicing. */
  datatype Customer = Customer(companyName: string, hourlyRate: real)

  /** A `time_entries` row. Timestamps are milliseconds since the epoch;
      `isBillable`/`isBilled` are the 0/1 integer flags the SQL compares. */
  datatype TimeEntry = TimeEntry(
    id: nat,
    customerId: Option<nat>,
    projectId: Option<nat>,
    description: string,
    startTime: Option<int>,
    endTime: Option<int>,
    durationMinutes: Option<int>,
    hourlyRate: Option<real>,
    isBillable: int,
    isBilled: int,
    notes: Option<string>)

  /** One invoice line as the handlers build it. */
  datatype LineItem = LineItem(
    timeEntryId: Option<nat>,
    description: string,
    quantity: real,
    unitPrice: real,
    total: real)

  /** An `invoice_items` row: a line attached to an invoice id. */
  datatype InvoiceItem = InvoiceItem(invoiceId: nat, line: LineItem)

  /** An `invoices` row (its id is the key of the invoice table). */
  datatype Invoice = Invoice(
    number: string,
    customerId: Option<nat>,
    issueDate: Option<string>,
    dueDate: Option<string>,
    status: string,
    subtotal: real,
    taxRate: real,
    taxAmount: real,
    totalAmount: real,
    paymentTerms: string,
    notes: Option<string>)

  /** The database state: time entries and invoice items in insertion order. */
  datatype Db = Db(
    customers: map<nat, Customer>,
    entries: seq<TimeEntry>,
    invoices: map<nat, Invoice>,
    items: seq<InvoiceItem>)

  const DefaultTaxRate: real := 8.1
  const DefaultPaymentTerms := "30 Tage"
  const DraftStatus := "draft"

  /** The sum of the line totals, accumulated in order as `reduce` and the
      `subtotal += total` loop do. */
  function Subtotal(lines: seq<LineItem>): real {
    if |lines| == 0 then 0.0 else Subtotal(lines[..|lines| - 1]) + lines[|lines| - 1].total
  }

  lemma {:induction false} SubtotalAppend(a: seq<LineItem>, b: seq<LineItem>)
    ensures Subtotal(a + b) == Subtotal(a) + Subtotal(b)
  {
    if |b| > 0 {
      assert (a + b)[..|a + b| - 1] == a + b[..|b| - 1];
      SubtotalAppend(a, b[..|b| - 1]);
    } else {
      assert a + b == a;
    }
  }

  datatype Totals = Totals(subtotal: real, taxAmount: real, totalAmount: real)

  /** The tax is `ratePercent` percent of the subtotal and the total is the
      subtotal plus the tax. */
  predicate Taxed(t: Totals, ratePercent: real) {
    100.0 * t.taxAmount == t.subtotal * ratePercent && t.totalAmount == t.subtotal + t.taxAmount
  }

  /** `tax = subtotal * (rate / 100)`, `total = subtotal + tax`. */
  function ApplyTax(subtotal: real, ratePercent: real): (t: Totals)
    ensures t.subtotal == subtotal
    ensures Taxed(t, ratePercent)
  {
    var tax := subtotal * (ratePercent / 100.0);
    Totals(subtotal, tax, subtotal + tax)
  }

  /** The lines of one invoice, in insertion order: what `GET /api/invoices/:id`
      returns as `items`. */
  function ItemsOf(items: seq<InvoiceItem>, invoiceId: nat): (r: seq<LineItem>)
    ensures |r| <= |items|
  {
    if |items| == 0 then []
    else
      var last := items[|items| - 1];
      ItemsOf(items[..|items| - 1], invoiceId) + (if last.invoiceId == invoiceId then [last.line] else [])
  }

  lemma {:induction false} ItemsOfAppend(a: seq<InvoiceItem>, b: seq<InvoiceItem>, invoiceId: nat)
    ensures ItemsOf(a + b, invoiceId) == ItemsOf(a, invoiceId) + ItemsOf(b, invoiceId)
  {
    if |b| > 0 {
      assert (a + b)[..|a + b| - 1] == a + b[..|b| - 1];
      ItemsOfAppend(a, b[..|b| - 1], invoiceId);
    } else {
      assert a + b == a;
    }
  }

  /** The rows inserted for `lines` under one invoice id. */
  function Attach(invoiceId: nat, lines: seq<LineItem>): (r: seq<InvoiceItem>)
    ensures |r| == |lines|
    ensures forall i :: 0 <= i < |r| ==> r[i].invoiceId == invoiceId && r[i].line == lines[i]
  {
    seq(|lines|, i requires 0 <= i < |lines| => InvoiceItem(invoiceId, lines[i]))
  }

  /** Attached rows belong to their invoice and to no other. */
  lemma {:induction false} ItemsOfAttach(invoiceId: nat, lines: seq<LineItem>, other: nat)
    ensures ItemsOf(Attach(invoiceId, lines), invoiceId) == lines
    ensures other != invoiceId ==> ItemsOf(Attach(invoiceId, lines), other) == []
  {
    if |lines| > 0 {
      var a := Attach(invoiceId, lines);
      assert a[..|a| - 1] == Attach(invoiceId, lines[..|lines| - 1]);
      ItemsOfAttach(invoiceId, lines[..|lines| - 1], other);
    }
  }

  /** `DELETE FROM invoice_items WHERE invoice_id = ?`. */
  function WithoutInvoice(items: seq<InvoiceItem>, invoiceId: nat): (r: seq<InvoiceItem>)
    ensures forall it :: it in r <==> it in items && it.invoiceId != invoiceId
  {
    if |items| == 0 then []
    else
      var last := items[|items| - 1];
      WithoutInvoice(items[..|items| - 1], invoiceId) + (if last.invoiceId != invoiceId then [last] else [])
  }

  /** Deleting one invoice's rows leaves no line of it and every other
      invoice's lines exactly as they were, order included. */
  lemma {:induction false} ItemsOfWithout(items: seq<InvoiceItem>, invoiceId: nat, other: nat)
    ensures ItemsOf(WithoutInvoice(items, invoiceId), invoiceId) == []
    ensures other != invoiceId ==> ItemsOf(WithoutInvoice(items, invoiceId), other) == ItemsOf(items, other)
  {
    if |items| > 0 {
      var init := items[..|items| - 1];
      var last := items[|items| - 1];
      var tail := if last.invoiceId != invoiceId then [last] else [];
      ItemsOfWithout(init, invoiceId, other);
      ItemsOfAppend(WithoutInvoice(init, invoiceId), tail, invoiceId);
      ItemsOfAppend(WithoutInvoice(init, invoiceId), tail, other);
      if last.invoiceId != invoiceId {
        assert tail[..0] == [];
      }
    }
  }
}
