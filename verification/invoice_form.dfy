/** The browser's invoice arithmetic: the live totals of the invoice form
    (`calculateInvoiceTotals`), the items and totals `saveInvoice` sends, and
    the preview of an invoice built from time entries (`updateInvoicePreview`). */
module InvoiceForm {
  import opened Wrappers
  import opened Store
  import Js
  import Invoices
  import FromTime

  /** One `.invoice-item` row of the form. Number fields hold what
      `parseFloat` read; `None` is NaN (an empty or unreadable field). */
  datatype FormRow = FormRow(description: string, quantity: Option<real>, unitPrice: Option<real>)

  /** `parseFloat(field) || 0`. */
  function FieldValue(v: Option<real>): real {
    Js.Or(v, 0.0, 0.0)
  }

  function RowTotal(row: FormRow): real {
    FieldValue(row.quantity) * FieldValue(row.unitPrice)
  }

  /** `saveInvoice` keeps a row iff it has a description and a positive quantity. */
  predicate Kept(row: FormRow) {
    row.description != "" && FieldValue(row.quantity) > 0.0
  }

  /** The item `saveInvoice` builds from a row. */
  function SavedLine(row: FormRow): (l: LineItem)
    ensures l.description == row.description && l.total == l.quantity * l.unitPrice
    ensures l.total == RowTotal(row) && l.timeEntryId.None?
  {
    LineItem(None, row.description, FieldValue(row.quantity), FieldValue(row.unitPrice), RowTotal(row))
  }

  /** The items `saveInvoice` sends: kept rows only, in form order. */
  function SavedLines(rows: seq<FormRow>): (r: seq<LineItem>)
    ensures |r| <= |rows|
    ensures forall l :: l in r ==> l.description != "" && l.quantity > 0.0 && l.total == l.quantity * l.unitPrice
    ensures forall row :: row in rows && Kept(row) ==> SavedLine(row) in r
    ensures forall l :: l in r ==> exists row :: row in rows && Kept(row) && l == SavedLine(row)
  {
    if |rows| == 0 then []
    else
      var last := rows[|rows| - 1];
      SavedLines(rows[..|rows| - 1]) + (if Kept(last) then [SavedLine(last)] else [])
  }

  /** Saving two stretches of rows sends the first stretch's lines, then the
      second's: one line per kept row, duplicates included. */
  lemma {:induction false} SavedLinesAppend(a: seq<FormRow>, b: seq<FormRow>)
    ensures SavedLines(a + b) == SavedLines(a) + SavedLines(b)
  {
    if |b| > 0 {
      assert (a + b)[..|a + b| - 1] == a + b[..|b| - 1];
      SavedLinesAppend(a, b[..|b| - 1]);
    } else {
      assert a + b == a;
    }
  }

  /** One row yields its line exactly when it is kept. */
  lemma SavedLinesOne(row: FormRow)
    ensures SavedLines([row]) == if Kept(row) then [SavedLine(row)] else []
  {
    assert [row][..0] == [];
  }

  /** The rows `saveInvoice` drops. */
  function DroppedRows(rows: seq<FormRow>): seq<FormRow> {
    if |rows| == 0 then []
    else
      var last := rows[|rows| - 1];
      DroppedRows(rows[..|rows| - 1]) + (if Kept(last) then [] else [last])
  }

  /** `calculateInvoiceTotals`' subtotal: every row, kept or not. */
  function FormSubtotal(rows: seq<FormRow>): real {
    if |rows| == 0 then 0.0 else FormSubtotal(rows[..|rows| - 1]) + RowTotal(rows[|rows| - 1])
  }

  /** `calculateInvoiceTotals`: the totals the form shows while editing. */
  function FormTotals(rows: seq<FormRow>, taxRate: Option<real>): (t: Totals)
    ensures t.subtotal == FormSubtotal(rows)
    ensures Taxed(t, FieldValue(taxRate))
  {
    ApplyTax(FormSubtotal(rows), FieldValue(taxRate))
  }

  /** `saveInvoice`: the totals sent with the kept items. */
  function SavedTotals(rows: seq<FormRow>, taxRate: Option<real>): (t: Totals)
    ensures t.subtotal == Subtotal(SavedLines(rows))
    ensures Taxed(t, FieldValue(taxRate))
  {
    ApplyTax(Subtotal(SavedLines(rows)), FieldValue(taxRate))
  }

  /** The shown subtotal is the saved one plus whatever the dropped rows
      contribute. */
  lemma {:induction false} FormSubtotalSplits(rows: seq<FormRow>)
    ensures FormSubtotal(rows) == Subtotal(SavedLines(rows)) + FormSubtotal(DroppedRows(rows))
  {
    if |rows| > 0 {
      var init := rows[..|rows| - 1];
      var last := rows[|rows| - 1];
      FormSubtotalSplits(init);
      var kept := if Kept(last) then [SavedLine(last)] else [];
      SubtotalAppend(SavedLines(init), kept);
      var dropped := if Kept(last) then [] else [last];
      FormSubtotalAppend(DroppedRows(init), dropped);
      assert Subtotal(kept) == if Kept(last) then RowTotal(last) else 0.0 by {
        if Kept(last) { assert kept[..0] == []; }
      }
      assert FormSubtotal(dropped) == if Kept(last) then 0.0 else RowTotal(last) by {
        if !Kept(last) { assert dropped[..0] == []; }
      }
    }
  }

  lemma {:induction false} FormSubtotalAppend(a: seq<FormRow>, b: seq<FormRow>)
    ensures FormSubtotal(a + b) == FormSubtotal(a) + FormSubtotal(b)
  {
    if |b| > 0 {
      assert (a + b)[..|a + b| - 1] == a + b[..|b| - 1];
      FormSubtotalAppend(a, b[..|b| - 1]);
    } else {
      assert a + b == a;
    }
  }

  /** When every row is kept the shown and the saved totals agree. */
  lemma FormMatchesSavedWhenAllKept(rows: seq<FormRow>, taxRate: Option<real>)
    requires forall row :: row in rows ==> Kept(row)
    ensures FormTotals(rows, taxRate) == SavedTotals(rows, taxRate)
  {
    FormSubtotalSplits(rows);
    NoneDropped(rows);
  }

  lemma {:induction false} NoneDropped(rows: seq<FormRow>)
    requires forall row :: row in rows ==> Kept(row)
    ensures DroppedRows(rows) == []
  {
    if |rows| > 0 {
      assert rows[|rows| - 1] in rows;
      NoneDropped(rows[..|rows| - 1]);
    }
  }

  /** They can differ: a priced row without a description is shown in the
      running total but not saved. */
  lemma FormAndSavedCanDiffer()
    ensures var rows := [FormRow("", Some(2.0), Some(50.0))];
      FormTotals(rows, Some(8.1)).subtotal == 100.0 && SavedTotals(rows, Some(8.1)).subtotal == 0.0
  {
    var rows := [FormRow("", Some(2.0), Some(50.0))];
    assert rows[..0] == [];
    assert !Kept(rows[0]) && RowTotal(rows[0]) == 100.0;
    assert FormSubtotal(rows) == FormSubtotal([]) + 100.0;
    assert SavedLines(rows) == SavedLines([]) + [];
  }

  /** Three units at 150 and 8.1 %: 450 net, 36.45 tax, 486.45 in all. */
  lemma ConsultingExample()
    ensures SavedTotals([FormRow("Consulting", Some(3.0), Some(150.0))], Some(8.1)) == Totals(450.0, 36.45, 486.45)
  {
    var rows := [FormRow("Consulting", Some(3.0), Some(150.0))];
    ConsultingSubtotal(rows);
    SavedTotalsOf(rows, Some(8.1), 450.0, 8.1);
    TaxAt81On450();
  }

  lemma ConsultingSubtotal(rows: seq<FormRow>)
    requires rows == [FormRow("Consulting", Some(3.0), Some(150.0))]
    ensures Subtotal(SavedLines(rows)) == 450.0
  {
    var row := rows[0];
    assert FieldValue(row.quantity) == 3.0 && FieldValue(row.unitPrice) == 150.0;
    assert Kept(row) && RowTotal(row) == 450.0;
    assert rows[..0] == [];
    assert SavedLines(rows) == [SavedLine(row)];
    assert [SavedLine(row)][..0] == [];
  }

  /** The saved totals depend on the rows only through their saved subtotal. */
  lemma SavedTotalsOf(rows: seq<FormRow>, taxRate: Option<real>, subtotal: real, rate: real)
    requires Subtotal(SavedLines(rows)) == subtotal && FieldValue(taxRate) == rate
    ensures SavedTotals(rows, taxRate) == ApplyTax(subtotal, rate)
  {
  }

  lemma TaxAt81On450()
    ensures ApplyTax(450.0, 8.1) == Totals(450.0, 36.45, 486.45)
  {
    var t := ApplyTax(450.0, 8.1);
    assert 100.0 * t.taxAmount == 3645.0;
  }

  /** The header fields of the form, sent as read. */
  datatype FormHeader = FormHeader(
    customerId: Option<nat>,
    issueDate: Option<string>,
    dueDate: Option<string>,
    status: Option<string>,
    paymentTerms: Option<string>,
    notes: Option<string>)

  /** The JSON line item `saveInvoice` sends for a saved line. */
  function ItemRequestFor(l: LineItem): Invoices.ItemRequest {
    Invoices.ItemRequest(None, Some(l.description), Some(l.quantity), Some(l.unitPrice), Some(l.total))
  }

  function ItemRequests(lines: seq<LineItem>): (r: seq<Invoices.ItemRequest>)
    ensures |r| == |lines|
    ensures forall i :: 0 <= i < |r| ==> r[i] == ItemRequestFor(lines[i])
  {
    seq(|lines|, i requires 0 <= i < |lines| => ItemRequestFor(lines[i]))
  }

  /** The body `saveInvoice` posts (or puts). */
  function SaveRequest(rows: seq<FormRow>, taxRate: Option<real>, header: FormHeader): (req: Invoices.InvoiceRequest)
    ensures req.items == Some(ItemRequests(SavedLines(rows)))
    ensures req.invoiceNumber.None?
    // the header fields as read, the rate as `parseFloat(...) || 0`
    ensures req.customerId == header.customerId && req.issueDate == header.issueDate && req.dueDate == header.dueDate
    ensures req.status == header.status && req.paymentTerms == header.paymentTerms && req.notes == header.notes
    ensures req.taxRate == Some(FieldValue(taxRate))
    // totals over the saved lines only, taxed at that rate
    ensures req.subtotal.Some? && req.taxAmount.Some? && req.totalAmount.Some?
    ensures req.subtotal.value == Subtotal(SavedLines(rows))
    ensures Taxed(Totals(req.subtotal.value, req.taxAmount.value, req.totalAmount.value), FieldValue(taxRate))
  {
    var totals := SavedTotals(rows, taxRate);
    Invoices.InvoiceRequest(
      None, header.customerId, header.issueDate, header.dueDate, header.status,
      Some(totals.subtotal), Some(FieldValue(taxRate)), Some(totals.taxAmount), Some(totals.totalAmount),
      header.paymentTerms, header.notes, Some(ItemRequests(SavedLines(rows))))
  }

  /** The server's `|| 1` / `|| 0` defaults leave every saved line as the
      browser built it. */
  lemma ServerKeepsSavedLines(rows: seq<FormRow>)
    ensures Invoices.StoredLines(ItemRequests(SavedLines(rows))) == SavedLines(rows)
  {
    var lines := SavedLines(rows);
    var stored := Invoices.StoredLines(ItemRequests(lines));
    forall i | 0 <= i < |lines|
      ensures stored[i] == lines[i]
    {
      assert lines[i] in lines;
    }
  }

  /** End to end: an invoice saved from the form and created by the server
      holds exactly the saved lines, and they sum to its stored subtotal. */
  lemma SavedInvoiceLines(db: Db, newId: nat, year: nat, today: string,
                          rows: seq<FormRow>, taxRate: Option<real>, header: FormHeader)
    requires newId !in db.invoices
    requires ItemsOf(db.items, newId) == []
    ensures var db' := Invoices.Create(db, newId, year, today, SaveRequest(rows, taxRate, header)).1;
      && ItemsOf(db'.items, newId) == SavedLines(rows)
      && db'.invoices[newId].subtotal == Subtotal(ItemsOf(db'.items, newId))
  {
    ServerKeepsSavedLines(rows);
    var req := SaveRequest(rows, taxRate, header);
    Invoices.CreateItems(db, newId, year, today, req, newId);
    assert Invoices.CreatedLines(req) == SavedLines(rows);
    assert [] + SavedLines(rows) == SavedLines(rows);
    assert Js.Or(Some(Subtotal(SavedLines(rows))), 0.0, 0.0) == Subtotal(SavedLines(rows));
  }

  /** The totals of the row the server stores for the form's request, on
      create and on update alike: total is subtotal plus tax, and the tax
      matches the stored rate exactly when the form's rate was not zero. A
      zero rate is stored as 8.1 while the tax stays 0, so a non-empty
      zero-rated invoice is stored inconsistent. */
  lemma SavedInvoiceTotals(number: string, issueFallback: Option<string>,
                           rows: seq<FormRow>, taxRate: Option<real>, header: FormHeader)
    ensures var inv := Invoices.StoredInvoice(number, SaveRequest(rows, taxRate, header), issueFallback);
      && inv.totalAmount == inv.subtotal + inv.taxAmount
      && (FieldValue(taxRate) != 0.0 ==> inv.taxRate == FieldValue(taxRate) && 100.0 * inv.taxAmount == inv.subtotal * inv.taxRate)
      && (FieldValue(taxRate) == 0.0 && inv.subtotal != 0.0 ==>
            inv.taxRate == DefaultTaxRate && 100.0 * inv.taxAmount != inv.subtotal * inv.taxRate)
  {
    StoredFormTotals(number, SaveRequest(rows, taxRate, header), issueFallback, FieldValue(taxRate), SavedTotals(rows, taxRate));
  }

  /** The stored invoice of a request carrying totals consistent with a rate. */
  lemma StoredFormTotals(number: string, req: Invoices.InvoiceRequest, issueFallback: Option<string>, rate: real, t: Totals)
    requires req.taxRate == Some(rate)
    requires req.subtotal == Some(t.subtotal) && req.taxAmount == Some(t.taxAmount) && req.totalAmount == Some(t.totalAmount)
    requires Taxed(t, rate)
    ensures var inv := Invoices.StoredInvoice(number, req, issueFallback);
      && inv.totalAmount == inv.subtotal + inv.taxAmount
      && (rate != 0.0 ==> inv.taxRate == rate && 100.0 * inv.taxAmount == inv.subtotal * inv.taxRate)
      && (rate == 0.0 && inv.subtotal != 0.0 ==>
            inv.taxRate == DefaultTaxRate && 100.0 * inv.taxAmount != inv.subtotal * inv.taxRate)
  {
    var inv := Invoices.StoredInvoice(number, req, issueFallback);
    if rate == 0.0 && inv.subtotal != 0.0 {
      UntaxedIsNotDefaultTaxed(inv.subtotal, inv.taxAmount);
    }
  }

  /** No tax on a non-zero subtotal is not 8.1 % of it. */
  lemma UntaxedIsNotDefaultTaxed(subtotal: real, tax: real)
    requires 100.0 * tax == subtotal * 0.0 && subtotal != 0.0
    ensures 100.0 * tax != subtotal * DefaultTaxRate
  {
    assert tax == 0.0;
  }

  /** One preview line: `(duration_minutes / 60) * (hourly_rate || 0)`,
      where a NULL duration divides as 0. It is the line the server builds
      when the customer has no rate: the preview ignores the customer's. */
  function PreviewLineTotal(e: TimeEntry): (total: real)
    ensures total == FromTime.LineFor(e, None).total
  {
    (Js.Or(e.durationMinutes, 0, 0) as real / 60.0) * Js.Or(e.hourlyRate, 0.0, 0.0)
  }

  /** The preview subtotal: the checked entries' totals added in order. It
      is the subtotal the server would bill without any customer rate. */
  function PreviewSubtotal(checked: seq<TimeEntry>): (subtotal: real)
    ensures subtotal == Subtotal(FromTime.Lines(checked, None))
  {
    if |checked| == 0 then 0.0
    else
      var init := checked[..|checked| - 1];
      assert FromTime.Lines(checked, None)[..|checked| - 1] == FromTime.Lines(init, None);
      PreviewSubtotal(init) + PreviewLineTotal(checked[|checked| - 1])
  }

  /** `subtotal * 0.081`: the preview's tax. */
  function PreviewTax(subtotal: real): (tax: real)
    ensures tax == ApplyTax(subtotal, FromTime.FixedTaxRate).taxAmount
  {
    subtotal * 0.081
  }

  /** Where every checked entry carries its own non-zero rate, the preview
      shows the subtotal the server will bill. */
  lemma {:induction false} PreviewMatchesServer(checked: seq<TimeEntry>, customerRate: Option<real>)
    requires forall e :: e in checked ==> Js.Truthy(e.hourlyRate, 0.0)
    ensures PreviewSubtotal(checked) == Subtotal(FromTime.Lines(checked, customerRate))
  {
    if |checked| > 0 {
      var init := checked[..|checked| - 1];
      var last := checked[|checked| - 1];
      var lines := FromTime.Lines(checked, customerRate);
      assert lines[..|lines| - 1] == FromTime.Lines(init, customerRate);
      assert last in checked;
      PreviewMatchesServer(init, customerRate);
      PreviewLineMatches(last, customerRate);
    }
  }

  /** An entry with its own non-zero rate is priced alike by the preview and
      by the server. */
  lemma PreviewLineMatches(e: TimeEntry, customerRate: Option<real>)
    requires Js.Truthy(e.hourlyRate, 0.0)
    ensures PreviewLineTotal(e) == FromTime.LineFor(e, customerRate).total
  {
  }

  /** Where an entry has no rate of its own the preview shows 0 while the
      server bills the customer's rate: one hour at a customer rate of 120. */
  lemma PreviewMissesCustomerRate(e: TimeEntry)
    requires e.durationMinutes == Some(60) && e.hourlyRate.None?
    ensures PreviewSubtotal([e]) == 0.0
    ensures Subtotal(FromTime.Lines([e], Some(120.0))) == 120.0
  {
    assert [e][..0] == [];
    assert FromTime.Lines([e], Some(120.0))[..0] == [];
  }
}
