/** `POST /api/invoices/from-time-entries`: turn a customer's billable,
    not-yet-billed time entries into a draft invoice with one line per entry
    at a fixed 8.1 % tax, then flag every requested entry as billed. */
module FromTime {
  import opened Wrappers
  import opened Store
  import Js
  import Numbering
  import TimeEntries
  import Invoices

  /** The JSON body of the request. */
  datatype FromTimeRequest = FromTimeRequest(
    customerId: Option<nat>,
    timeEntryIds: Option<seq<nat>>,
    issueDate: Option<string>,
    dueDate: Option<string>,
    paymentTerms: Option<string>,
    notes: Option<string>)

  /** The success body: `{id, invoice_number, subtotal, tax_amount,
      total_amount, items_count}`. */
  datatype Summary = Summary(
    id: nat,
    invoiceNumber: string,
    subtotal: real,
    taxAmount: real,
    totalAmount: real,
    itemsCount: nat)

  datatype Response = Ok(summary: Summary) | BadRequest(message: string)

  const FixedTaxRate: real := 8.1
  const MissingInput := "Customer ID and time entry IDs are required"
  const NothingBillable := "No billable time entries found"

  /** The request passes the first guard: a truthy customer id and a
      present, non-empty id list. */
  predicate WellFormed(req: FromTimeRequest) {
    Js.Truthy(req.customerId, 0) && req.timeEntryIds.Some? && |req.timeEntryIds.value| > 0
  }

  /** The SELECT: requested entries of the customer that are billable and
      not billed, in the model's insertion order. Each qualifying row is
      selected exactly as often as it occurs in the table, however often its
      id is requested. */
  function Selected(entries: seq<TimeEntry>, ids: seq<nat>, customer: nat): (r: seq<TimeEntry>)
    ensures |r| <= |entries|
    ensures forall e :: e in r <==> e in entries && e.id in ids && TimeEntries.Billable(e, customer)
    ensures forall e ::
      multiset(r)[e] == if e.id in ids && TimeEntries.Billable(e, customer) then multiset(entries)[e] else 0
  {
    if |entries| == 0 then []
    else
      var last := entries[|entries| - 1];
      assert entries == entries[..|entries| - 1] + [last];
      Selected(entries[..|entries| - 1], ids, customer)
        + (if last.id in ids && TimeEntries.Billable(last, customer) then [last] else [])
  }

  /** The selection is exactly the unbilled-entries list narrowed to the
      requested ids. */
  lemma {:induction false} SelectedIsUnbilledSubset(entries: seq<TimeEntry>, ids: seq<nat>, customer: nat)
    ensures Selected(entries, ids, customer) == Requested(TimeEntries.Unbilled(entries, customer), ids)
  {
    if |entries| > 0 {
      var init := entries[..|entries| - 1];
      var last := entries[|entries| - 1];
      SelectedIsUnbilledSubset(init, ids, customer);
      var tail := if TimeEntries.Billable(last, customer) then [last] else [];
      RequestedAppend(TimeEntries.Unbilled(init, customer), tail, ids);
      if TimeEntries.Billable(last, customer) {
        assert tail[..0] == [];
      }
    }
  }

  /** The entries of `entries` whose id was requested, in order. */
  function Requested(entries: seq<TimeEntry>, ids: seq<nat>): seq<TimeEntry> {
    if |entries| == 0 then []
    else
      var last := entries[|entries| - 1];
      Requested(entries[..|entries| - 1], ids) + (if last.id in ids then [last] else [])
  }

  lemma {:induction false} RequestedAppend(a: seq<TimeEntry>, b: seq<TimeEntry>, ids: seq<nat>)
    ensures Requested(a + b, ids) == Requested(a, ids) + Requested(b, ids)
  {
    if |b| > 0 {
      assert (a + b)[..|a + b| - 1] == a + b[..|b| - 1];
      RequestedAppend(a, b[..|b| - 1], ids);
    } else {
      assert a + b == a;
    }
  }

  /** `c.hourly_rate` from the LEFT JOIN: NULL when the customer row is gone. */
  function CustomerRate(customers: map<nat, Customer>, customer: nat): (r: Option<real>)
    ensures r.Some? <==> customer in customers
    ensures r.Some? ==> r.value == customers[customer].hourlyRate
  {
    if customer in customers then Some(customers[customer].hourlyRate) else None
  }

  /** The line built from one entry: hours = `(duration_minutes || 0) / 60`,
      rate = `entry.hourly_rate || customer_hourly_rate || 0`. */
  function LineFor(e: TimeEntry, customerRate: Option<real>): (l: LineItem)
    ensures l.timeEntryId == Some(e.id) && l.description == e.description
    ensures 60.0 * l.quantity == Js.Or(e.durationMinutes, 0, 0) as real
    ensures l.total == l.quantity * l.unitPrice
  {
    var hours := Js.Or(e.durationMinutes, 0, 0) as real / 60.0;
    var rate := Js.Or(e.hourlyRate, 0.0, Js.Or(customerRate, 0.0, 0.0));
    LineItem(Some(e.id), e.description, hours, rate, hours * rate)
  }

  /** The rate fallback: the entry's own rate when non-zero, else the
      customer's when non-zero, else 0. A zero entry rate falls through. */
  lemma RateFallback(e: TimeEntry, customerRate: Option<real>)
    ensures Js.Truthy(e.hourlyRate, 0.0) ==> LineFor(e, customerRate).unitPrice == e.hourlyRate.value
    ensures !Js.Truthy(e.hourlyRate, 0.0) && customerRate.Some? ==>
      LineFor(e, customerRate).unitPrice == customerRate.value
    ensures !Js.Truthy(e.hourlyRate, 0.0) && customerRate.None? ==> LineFor(e, customerRate).unitPrice == 0.0
  {
  }

  function Lines(entries: seq<TimeEntry>, customerRate: Option<real>): (r: seq<LineItem>)
    ensures |r| == |entries|
    ensures forall i :: 0 <= i < |r| ==> r[i] == LineFor(entries[i], customerRate)
  {
    seq(|entries|, i requires 0 <= i < |entries| => LineFor(entries[i], customerRate))
  }

  /** The invoice row of a well-formed request: a draft at the fixed 8.1 %
      whose totals are those of its lines, numbered after the year's
      existing invoices. */
  function NewInvoice(db: Db, year: nat, today: string, req: FromTimeRequest): (inv: Invoice)
    requires WellFormed(req)
    ensures inv.status == DraftStatus && inv.taxRate == FixedTaxRate
    ensures inv.customerId == Some(req.customerId.value)
    ensures inv.number == Numbering.Generate(Numbering.InvoicePrefix, year, Invoices.InvoiceCountInYear(db.invoices, year))
    ensures Numbering.Parse(Numbering.InvoicePrefix, year, inv.number) == Some(Invoices.InvoiceCountInYear(db.invoices, year) + 1)
    ensures inv.subtotal == Subtotal(BilledLines(db, req))
    ensures 100.0 * inv.taxAmount == inv.subtotal * FixedTaxRate
    ensures inv.totalAmount == inv.subtotal + inv.taxAmount
    // `issue_date || today`, `due_date || null`, `payment_terms || '30 Tage'`, `notes || null`
    ensures inv.issueDate == Some(if Js.Truthy(req.issueDate, "") then req.issueDate.value else today)
    ensures inv.dueDate.Some? <==> Js.Truthy(req.dueDate, "")
    ensures inv.dueDate.Some? ==> inv.dueDate == req.dueDate
    ensures inv.paymentTerms == (if Js.Truthy(req.paymentTerms, "") then req.paymentTerms.value else DefaultPaymentTerms)
    ensures inv.notes.Some? <==> Js.Truthy(req.notes, "")
    ensures inv.notes.Some? ==> inv.notes == req.notes
  {
    var totals := BilledTotals(db, req);
    Invoice(
      NextNumber(db, year),
      Some(req.customerId.value),
      Some(Js.Or(req.issueDate, "", today)),
      Js.OrNull(req.dueDate, ""),
      DraftStatus,
      totals.subtotal,
      FixedTaxRate,
      totals.taxAmount,
      totals.totalAmount,
      Js.Or(req.paymentTerms, "", DefaultPaymentTerms),
      Js.OrNull(req.notes, ""))
  }

  /** The number the conversion assigns: never a supplied one. */
  function NextNumber(db: Db, year: nat): (number: string)
    ensures number == Numbering.Generate(Numbering.InvoicePrefix, year, Invoices.InvoiceCountInYear(db.invoices, year))
    ensures Numbering.Parse(Numbering.InvoicePrefix, year, number) == Some(Invoices.InvoiceCountInYear(db.invoices, year) + 1)
  {
    Numbering.InvoiceNumber(None, year, Invoices.Numbers(db.invoices))
  }

  /** The totals of the request's lines at the fixed rate. */
  function BilledTotals(db: Db, req: FromTimeRequest): (t: Totals)
    requires WellFormed(req)
    ensures t.subtotal == Subtotal(BilledLines(db, req))
    ensures Taxed(t, FixedTaxRate)
  {
    ApplyTax(Subtotal(BilledLines(db, req)), FixedTaxRate)
  }

  /** The success path once the selection is known: the invoice row, its
      lines and the billed flags, and the response summarising them. */
  function Bill(db: Db, newId: nat, year: nat, today: string, req: FromTimeRequest): (res: (Summary, Db))
    requires newId !in db.invoices
    requires WellFormed(req)
    ensures var inv := NewInvoice(db, year, today, req);
      res.0 == Summary(newId, inv.number, inv.subtotal, inv.taxAmount, inv.totalAmount, |BilledLines(db, req)|)
    ensures res.1.customers == db.customers
    ensures res.1.invoices == db.invoices[newId := NewInvoice(db, year, today, req)]
    ensures res.1.entries == TimeEntries.MarkBilled(db.entries, req.timeEntryIds.value)
    ensures res.1.items == db.items + Attach(newId, BilledLines(db, req))
  {
    var inv := NewInvoice(db, year, today, req);
    var lines := BilledLines(db, req);
    var db' := db.(
      invoices := db.invoices[newId := inv],
      items := db.items + Attach(newId, lines),
      entries := TimeEntries.MarkBilled(db.entries, req.timeEntryIds.value));
    (Summary(newId, inv.number, inv.subtotal, inv.taxAmount, inv.totalAmount, |lines|), db')
  }

  /** The lines of a well-formed request: one per selected entry. */
  function BilledLines(db: Db, req: FromTimeRequest): (r: seq<LineItem>)
    requires WellFormed(req)
    ensures |r| == |Selected(db.entries, req.timeEntryIds.value, req.customerId.value)|
  {
    var customer := req.customerId.value;
    Lines(Selected(db.entries, req.timeEntryIds.value, customer), CustomerRate(db.customers, customer))
  }

  /** The whole handler over the database state, with the fresh invoice row
      id, the current year and today's date as parameters. It is rejected
      exactly when the guard fails or nothing requested qualifies, and a
      rejected request changes nothing. */
  function Convert(db: Db, newId: nat, year: nat, today: string, req: FromTimeRequest): (res: (Response, Db))
    requires newId !in db.invoices
    ensures res.0.BadRequest? <==>
      !WellFormed(req) || |Selected(db.entries, req.timeEntryIds.value, req.customerId.value)| == 0
    ensures !WellFormed(req) ==> res == (BadRequest(MissingInput), db)
    ensures WellFormed(req) && |Selected(db.entries, req.timeEntryIds.value, req.customerId.value)| == 0 ==>
      res == (BadRequest(NothingBillable), db)
    ensures res.0.Ok? ==> res == (Ok(Bill(db, newId, year, today, req).0), Bill(db, newId, year, today, req).1)
  {
    if !WellFormed(req) then (BadRequest(MissingInput), db)
    else if |Selected(db.entries, req.timeEntryIds.value, req.customerId.value)| == 0 then
      (BadRequest(NothingBillable), db)
    else
      var (summary, db') := Bill(db, newId, year, today, req);
      (Ok(summary), db')
  }

  /** The new invoice's lines are the qualifying entries' lines, in row
      order, after any stray rows already filed under that id; the lines of
      every other invoice are untouched. */
  lemma BilledItems(db: Db, newId: nat, year: nat, today: string, req: FromTimeRequest, other: nat)
    requires newId !in db.invoices
    requires WellFormed(req)
    ensures var db' := Bill(db, newId, year, today, req).1;
      && ItemsOf(db'.items, newId) == ItemsOf(db.items, newId) + BilledLines(db, req)
      && (other != newId ==> ItemsOf(db'.items, other) == ItemsOf(db.items, other))
  {
    var lines := BilledLines(db, req);
    ItemsOfAppend(db.items, Attach(newId, lines), newId);
    ItemsOfAttach(newId, lines, newId);
    ItemsOfAppend(db.items, Attach(newId, lines), other);
    ItemsOfAttach(newId, lines, other);
  }

  /** With no stray lines under the new id, the invoice's lines sum to its
      stored subtotal. */
  lemma StoredLinesSumToSubtotal(db: Db, newId: nat, year: nat, today: string, req: FromTimeRequest)
    requires newId !in db.invoices
    requires WellFormed(req)
    requires ItemsOf(db.items, newId) == []
    ensures var db' := Bill(db, newId, year, today, req).1;
      Subtotal(ItemsOf(db'.items, newId)) == db'.invoices[newId].subtotal
  {
    BilledItems(db, newId, year, today, req, newId);
    assert [] + BilledLines(db, req) == BilledLines(db, req);
  }

  /** Every line carries `quantity = minutes / 60` of its entry and the
      entry's or customer's rate; its total is their product. The billed
      lines are these lines over the selection. */
  lemma LinesFromEntries(entries: seq<TimeEntry>, customers: map<nat, Customer>, customer: nat, lines: seq<LineItem>)
    requires lines == Lines(entries, CustomerRate(customers, customer))
    ensures |lines| == |entries|
    ensures forall i :: 0 <= i < |lines| ==>
        && lines[i].timeEntryId == Some(entries[i].id)
        && 60.0 * lines[i].quantity == Js.Or(entries[i].durationMinutes, 0, 0) as real
        && lines[i].total == lines[i].quantity * lines[i].unitPrice
        && (Js.Truthy(entries[i].hourlyRate, 0.0) ==> lines[i].unitPrice == entries[i].hourlyRate.value)
        && (!Js.Truthy(entries[i].hourlyRate, 0.0) && customer in customers ==>
              lines[i].unitPrice == customers[customer].hourlyRate)
  {
    forall i | 0 <= i < |lines|
      ensures && lines[i].timeEntryId == Some(entries[i].id)
        && 60.0 * lines[i].quantity == Js.Or(entries[i].durationMinutes, 0, 0) as real
        && lines[i].total == lines[i].quantity * lines[i].unitPrice
        && (Js.Truthy(entries[i].hourlyRate, 0.0) ==> lines[i].unitPrice == entries[i].hourlyRate.value)
        && (!Js.Truthy(entries[i].hourlyRate, 0.0) && customer in customers ==>
              lines[i].unitPrice == customers[customer].hourlyRate)
    {
      LineFacts(entries[i], customers, customer, lines[i]);
    }
  }

  /** One billed line: its entry, hours, total and rate fallback. */
  lemma LineFacts(e: TimeEntry, customers: map<nat, Customer>, customer: nat, l: LineItem)
    requires l == LineFor(e, CustomerRate(customers, customer))
    ensures && l.timeEntryId == Some(e.id)
      && 60.0 * l.quantity == Js.Or(e.durationMinutes, 0, 0) as real
      && l.total == l.quantity * l.unitPrice
      && (Js.Truthy(e.hourlyRate, 0.0) ==> l.unitPrice == e.hourlyRate.value)
      && (!Js.Truthy(e.hourlyRate, 0.0) && customer in customers ==> l.unitPrice == customers[customer].hourlyRate)
  {
    RateFallback(e, CustomerRate(customers, customer));
  }

  /** Every requested id ends billed, including ids the filter excluded, and
      none of them appears in any customer's unbilled list afterwards. */
  lemma RequestedEndBilled(db: Db, newId: nat, year: nat, today: string, req: FromTimeRequest, customer: nat)
    requires newId !in db.invoices
    requires WellFormed(req)
    ensures var db' := Bill(db, newId, year, today, req).1;
      && (forall e :: e in db'.entries && e.id in req.timeEntryIds.value ==> e.isBilled == 1)
      && (forall e :: e in TimeEntries.Unbilled(db'.entries, customer) ==> e.id !in req.timeEntryIds.value)
  {
    TimeEntries.MarkedNeverUnbilled(db.entries, req.timeEntryIds.value, customer);
    TimeEntries.MarkedAllBilled(db.entries, req.timeEntryIds.value);
  }

  /** Replaying a successful request bills nothing twice: it is rejected
      with "No billable time entries found" and changes nothing. */
  lemma ReplayRejected(db: Db, newId: nat, newId2: nat, year: nat, today: string, req: FromTimeRequest)
    requires newId !in db.invoices
    requires WellFormed(req)
    requires newId2 !in Bill(db, newId, year, today, req).1.invoices
    ensures var db' := Bill(db, newId, year, today, req).1;
      Convert(db', newId2, year, today, req) == (BadRequest(NothingBillable), db')
  {
    var db' := Bill(db, newId, year, today, req).1;
    RequestedEndBilled(db, newId, year, today, req, req.customerId.value);
    NothingSelectedOnceBilled(db'.entries, req.timeEntryIds.value, req.customerId.value);
  }

  /** When every requested entry is already billed, nothing is selected. */
  lemma {:induction false} NothingSelectedOnceBilled(entries: seq<TimeEntry>, ids: seq<nat>, customer: nat)
    requires forall e :: e in entries && e.id in ids ==> e.isBilled == 1
    ensures Selected(entries, ids, customer) == []
  {
    if |entries| > 0 {
      assert entries[|entries| - 1] in entries;
      NothingSelectedOnceBilled(entries[..|entries| - 1], ids, customer);
    }
  }

  /** Two unbilled entries of 90 and 60 minutes without their own rate, for
      a customer billing 120 per hour: 300 net, 24.30 tax, 324.30 in all. */
  lemma TwoEntriesAtCustomerRate(a: TimeEntry, b: TimeEntry)
    requires a.durationMinutes == Some(90) && a.hourlyRate.None?
    requires b.durationMinutes == Some(60) && b.hourlyRate.None?
    ensures var t := ApplyTax(Subtotal(Lines([a, b], Some(120.0))), FixedTaxRate);
      t == Totals(300.0, 24.3, 324.3)
  {
    var lines := Lines([a, b], Some(120.0));
    assert lines[0].total == 180.0;
    assert lines[1].total == 120.0;
    assert lines[..1][..0] == [];
    assert lines[..1] == [lines[0]];
    assert Subtotal(lines[..1]) == 180.0;
    assert lines[..|lines| - 1] == lines[..1];
    assert Subtotal(lines) == 300.0;
  }
}
