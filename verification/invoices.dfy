/** The manual invoice handlers: `POST /api/invoices`, `PUT /api/invoices/:id`
    and `DELETE /api/invoices/:id`. The server stores the totals the client
    computed; it recomputes nothing. */
module Invoices {
  import opened Wrappers
  import opened Store
  import Js
  import Numbering

  /** One element of the request's `items` array. */
  datatype ItemRequest = ItemRequest(
    timeEntryId: Option<nat>,
    description: Option<string>,
    quantity: Option<real>,
    unitPrice: Option<real>,
    total: Option<real>)

  /** The JSON body of a create or update request. */
  datatype InvoiceRequest = InvoiceRequest(
    invoiceNumber: Option<string>,
    customerId: Option<nat>,
    issueDate: Option<string>,
    dueDate: Option<string>,
    status: Option<string>,
    subtotal: Option<real>,
    taxRate: Option<real>,
    taxAmount: Option<real>,
    totalAmount: Option<real>,
    paymentTerms: Option<string>,
    notes: Option<string>,
    items: Option<seq<ItemRequest>>)

  /** The stored line: `description || ''`, `quantity || 1`, `unit_price || 0`,
      `total || 0`. A zero quantity is stored as 1 while its total stays 0. */
  function StoredLine(req: ItemRequest): (l: LineItem)
    ensures l.quantity != 0.0
    ensures Js.Truthy(req.quantity, 0.0) ==> l.quantity == req.quantity.value
    ensures !Js.Truthy(req.quantity, 0.0) ==> l.quantity == 1.0
    ensures l.total == req.total.GetOr(0.0)
    ensures l.unitPrice == req.unitPrice.GetOr(0.0)
    // `time_entry_id || null` and `description || ''`
    ensures l.timeEntryId != Some(0)
    ensures l.timeEntryId.Some? <==> Js.Truthy(req.timeEntryId, 0)
    ensures l.timeEntryId.Some? ==> l.timeEntryId == req.timeEntryId
    ensures l.description == req.description.GetOr("")
  {
    LineItem(
      Js.OrNull(req.timeEntryId, 0),
      Js.Or(req.description, "", ""),
      Js.Or(req.quantity, 0.0, 1.0),
      Js.Or(req.unitPrice, 0.0, 0.0),
      Js.Or(req.total, 0.0, 0.0))
  }

  function StoredLines(reqs: seq<ItemRequest>): (r: seq<LineItem>)
    ensures |r| == |reqs|
    ensures forall i :: 0 <= i < |r| ==> r[i] == StoredLine(reqs[i])
  {
    seq(|reqs|, i requires 0 <= i < |reqs| => StoredLine(reqs[i]))
  }

  /** The invoice columns both handlers bind. `issueFallback` is today's date
      on create and NULL on update. */
  function StoredInvoice(number: string, req: InvoiceRequest, issueFallback: Option<string>): (inv: Invoice)
    ensures inv.number == number
    // `tax_rate || 8.1`: a zero rate is replaced by the default
    ensures inv.taxRate != 0.0
    ensures Js.Truthy(req.taxRate, 0.0) ==> inv.taxRate == req.taxRate.value
    ensures !Js.Truthy(req.taxRate, 0.0) ==> inv.taxRate == DefaultTaxRate
    // the client's totals are stored as sent
    ensures inv.subtotal == req.subtotal.GetOr(0.0)
    ensures inv.taxAmount == req.taxAmount.GetOr(0.0)
    ensures inv.totalAmount == req.totalAmount.GetOr(0.0)
    // `status || 'draft'` and `payment_terms || '30 Tage'`
    ensures inv.status != "" && inv.paymentTerms != ""
    ensures inv.status == (if Js.Truthy(req.status, "") then req.status.value else DraftStatus)
    ensures inv.paymentTerms == (if Js.Truthy(req.paymentTerms, "") then req.paymentTerms.value else DefaultPaymentTerms)
    // a missing or empty issue date falls back; `customer_id || null`
    ensures inv.issueDate == (if Js.Truthy(req.issueDate, "") then req.issueDate else issueFallback)
    ensures inv.customerId.Some? <==> Js.Truthy(req.customerId, 0)
    ensures inv.customerId.Some? ==> inv.customerId == req.customerId
    // `due_date || null` and `notes || null`
    ensures inv.dueDate.Some? <==> Js.Truthy(req.dueDate, "")
    ensures inv.dueDate.Some? ==> inv.dueDate == req.dueDate
    ensures inv.notes.Some? <==> Js.Truthy(req.notes, "")
    ensures inv.notes.Some? ==> inv.notes == req.notes
  {
    Invoice(
      number,
      Js.OrNull(req.customerId, 0),
      if Js.Truthy(req.issueDate, "") then req.issueDate else issueFallback,
      Js.OrNull(req.dueDate, ""),
      Js.Or(req.status, "", DraftStatus),
      Js.Or(req.subtotal, 0.0, 0.0),
      Js.Or(req.taxRate, 0.0, DefaultTaxRate),
      Js.Or(req.taxAmount, 0.0, 0.0),
      Js.Or(req.totalAmount, 0.0, 0.0),
      Js.Or(req.paymentTerms, "", DefaultPaymentTerms),
      Js.OrNull(req.notes, ""))
  }

  /** The invoice-number column of the invoice table. */
  function Numbers(invoices: map<nat, Invoice>): (m: map<nat, string>)
    ensures m.Keys == invoices.Keys
    ensures forall id :: id in m ==> m[id] == invoices[id].number
  {
    map id | id in invoices :: invoices[id].number
  }

  /** How many invoices of `year` exist: the count the next number uses. */
  function InvoiceCountInYear(invoices: map<nat, Invoice>, year: nat): nat {
    Numbering.CountInYear(Numbering.InvoicePrefix, year, Numbers(invoices))
  }

  /** The id and number `POST /api/invoices` assigned; the rest of the
      response echoes the request body and is not modelled. */
  datatype Created = Created(id: nat, invoiceNumber: string)

  /** The lines `POST /api/invoices` inserts: none unless `items` is a
      non-empty array. */
  function CreatedLines(req: InvoiceRequest): (r: seq<LineItem>)
    ensures r == if req.items.Some? then StoredLines(req.items.value) else []
  {
    if req.items.Some? && |req.items.value| > 0 then StoredLines(req.items.value) else []
  }

  /** `POST /api/invoices` under the fresh row id `newId`, in year `year` on
      the date `today`. */
  function Create(db: Db, newId: nat, year: nat, today: string, req: InvoiceRequest): (res: (Created, Db))
    requires newId !in db.invoices
    ensures res.0.id == newId
    ensures res.0.invoiceNumber == Numbering.InvoiceNumber(req.invoiceNumber, year, Numbers(db.invoices))
    ensures res.1.invoices == db.invoices[newId := StoredInvoice(res.0.invoiceNumber, req, Some(today))]
    ensures res.1.items == db.items + Attach(newId, CreatedLines(req))
    ensures res.1.entries == db.entries && res.1.customers == db.customers
  {
    var number := Numbering.InvoiceNumber(req.invoiceNumber, year, Numbers(db.invoices));
    var inv := StoredInvoice(number, req, Some(today));
    (Created(newId, number), db.(invoices := db.invoices[newId := inv], items := db.items + Attach(newId, CreatedLines(req))))
  }

  /** A non-empty supplied number is kept; otherwise the number carries one
      more than the count of that year's invoices. */
  lemma CreateNumber(db: Db, newId: nat, year: nat, today: string, req: InvoiceRequest)
    requires newId !in db.invoices
    ensures var number := Create(db, newId, year, today, req).0.invoiceNumber;
      && (Js.Truthy(req.invoiceNumber, "") ==> number == req.invoiceNumber.value)
      && (!Js.Truthy(req.invoiceNumber, "") ==>
            Numbering.Parse(Numbering.InvoicePrefix, year, number) == Some(InvoiceCountInYear(db.invoices, year) + 1))
  {
    var numbers := Numbers(db.invoices);
    var number := Create(db, newId, year, today, req).0.invoiceNumber;
    assert number == Numbering.InvoiceNumber(req.invoiceNumber, year, numbers);
    AssignedNumber(req.invoiceNumber, year, numbers, number);
    assert InvoiceCountInYear(db.invoices, year) == Numbering.CountInYear(Numbering.InvoicePrefix, year, numbers);
  }

  /** The number chosen for a supplied value against a number column. */
  lemma AssignedNumber(supplied: Option<string>, year: nat, numbers: map<nat, string>, number: string)
    requires number == Numbering.InvoiceNumber(supplied, year, numbers)
    ensures Js.Truthy(supplied, "") ==> number == supplied.value
    ensures !Js.Truthy(supplied, "") ==>
      Numbering.Parse(Numbering.InvoicePrefix, year, number) == Some(Numbering.CountInYear(Numbering.InvoicePrefix, year, numbers) + 1)
  {
  }

  /** The new invoice gets the given lines (after any stray rows filed under
      its id) and every other invoice keeps its lines and its row. */
  lemma CreateItems(db: Db, newId: nat, year: nat, today: string, req: InvoiceRequest, other: nat)
    requires newId !in db.invoices
    ensures var db' := Create(db, newId, year, today, req).1;
      && ItemsOf(db'.items, newId) == ItemsOf(db.items, newId) + CreatedLines(req)
      && (other != newId ==> ItemsOf(db'.items, other) == ItemsOf(db.items, other))
      && (other in db.invoices ==> other in db'.invoices && db'.invoices[other] == db.invoices[other])
  {
    ItemsOfAppend(db.items, Attach(newId, CreatedLines(req)), newId);
    ItemsOfAttach(newId, CreatedLines(req), newId);
    ItemsOfAppend(db.items, Attach(newId, CreatedLines(req)), other);
    ItemsOfAttach(newId, CreatedLines(req), other);
  }

  /** Creating an invoice with a generated number raises that year's count
      by one: absent concurrency the N-th invoice of a year carries N. */
  lemma CreateAdvancesCount(db: Db, newId: nat, year: nat, today: string, req: InvoiceRequest)
    requires newId !in db.invoices
    requires !Js.Truthy(req.invoiceNumber, "")
    ensures InvoiceCountInYear(Create(db, newId, year, today, req).1.invoices, year) == InvoiceCountInYear(db.invoices, year) + 1
  {
    var before := Numbers(db.invoices);
    var number := Numbering.InvoiceNumber(req.invoiceNumber, year, before);
    assert Numbering.InYear(Numbering.InvoicePrefix, year, number) by {
      assert number == Numbering.Assign(req.invoiceNumber, Numbering.InvoicePrefix, year, before);
    }
    NumbersInsert(db.invoices, newId, StoredInvoice(number, req, Some(today)));
    Numbering.CountAfterInsert(Numbering.InvoicePrefix, year, before, newId, number);
  }

  /** Storing an invoice row adds its number to the number column. */
  lemma NumbersInsert(invoices: map<nat, Invoice>, id: nat, inv: Invoice)
    ensures Numbers(invoices[id := inv]) == Numbers(invoices)[id := inv.number]
  {
    var after := Numbers(invoices[id := inv]);
    var expected := Numbers(invoices)[id := inv.number];
    assert after.Keys == expected.Keys;
    assert forall k :: k in after ==> after[k] == expected[k];
  }

  /** `PUT /api/invoices/:id`. The number is kept; every other column is
      rebound. When `items` is present (even empty) all lines of that id are
      deleted and the given ones inserted, also when no invoice has that id. */
  function Update(db: Db, id: nat, req: InvoiceRequest): (db': Db)
    ensures db'.invoices.Keys == db.invoices.Keys
    ensures id in db.invoices ==>
      db'.invoices[id] == StoredInvoice(db.invoices[id].number, req, None)
    ensures forall other :: other in db.invoices && other != id ==> db'.invoices[other] == db.invoices[other]
    ensures req.items.Some? ==> ItemsOf(db'.items, id) == StoredLines(req.items.value)
    ensures req.items.None? ==> db'.items == db.items
    ensures forall other :: other != id ==> ItemsOf(db'.items, other) == ItemsOf(db.items, other)
    ensures db'.entries == db.entries && db'.customers == db.customers
  {
    var invoices' :=
      if id in db.invoices then db.invoices[id := StoredInvoice(db.invoices[id].number, req, None)]
      else db.invoices;
    if req.items.None? then db.(invoices := invoices')
    else
      var lines := StoredLines(req.items.value);
      var items' := WithoutInvoice(db.items, id) + Attach(id, lines);
      forall other
        ensures ItemsOf(items', other) == if other == id then lines else ItemsOf(db.items, other)
      {
        ItemsOfAppend(WithoutInvoice(db.items, id), Attach(id, lines), other);
        ItemsOfAttach(id, lines, other);
        ItemsOfWithout(db.items, id, other);
      }
      db.(invoices := invoices', items := items')
  }

  /** `DELETE /api/invoices/:id`: the lines go first, then the invoice. The
      time entries billed through it stay billed. */
  function Delete(db: Db, id: nat): (db': Db)
    ensures id !in db'.invoices && db'.invoices.Keys == db.invoices.Keys - {id}
    ensures forall other :: other in db'.invoices ==> db'.invoices[other] == db.invoices[other]
    ensures ItemsOf(db'.items, id) == []
    ensures forall it :: it in db'.items ==> it.invoiceId != id
    ensures forall other :: other != id ==> ItemsOf(db'.items, other) == ItemsOf(db.items, other)
    ensures db'.entries == db.entries && db'.customers == db.customers
  {
    forall other
      ensures ItemsOf(WithoutInvoice(db.items, id), id) == []
      ensures other != id ==> ItemsOf(WithoutInvoice(db.items, id), other) == ItemsOf(db.items, other)
    {
      ItemsOfWithout(db.items, id, other);
    }
    db.(invoices := db.invoices - {id}, items := WithoutInvoice(db.items, id))
  }
}
