/** The accounting view's arithmetic in the browser: the VAT calculator of
    the entry form and the profit and VAT-owed cards of the yearly summary. */
module Accounting {
  import opened Wrappers
  import opened Store
  import Js

  /** `calculateVAT()`: `amount * (vat_rate / 100)` and `amount + vat`, each
      field read with `parseFloat(...) || 0`. */
  function CalculateVat(amount: Option<real>, vatRate: Option<real>): (t: Totals)
    ensures t.subtotal == Js.Or(amount, 0.0, 0.0)
    ensures Taxed(t, Js.Or(vatRate, 0.0, 0.0))
  {
    ApplyTax(Js.Or(amount, 0.0, 0.0), Js.Or(vatRate, 0.0, 0.0))
  }

  /** 1000 at 7.7 % carries 77 VAT and totals 1077. */
  lemma VatExample()
    ensures CalculateVat(Some(1000.0), Some(7.7)) == Totals(1000.0, 77.0, 1077.0)
  {
    assert Js.Or(Some(1000.0), 0.0, 0.0) == 1000.0;
    assert Js.Or(Some(7.7), 0.0, 0.0) == 7.7;
    var t := CalculateVat(Some(1000.0), Some(7.7));
    assert 100.0 * t.taxAmount == 7700.0;
  }

  /** The calculator agrees with every taxed total: entering any net amount
      and rate shows exactly the tax and gross that satisfy the tax relation
      at that rate, such as an invoice's stored tax and total. */
  lemma VatCalculatorAgrees(t: Totals, ratePercent: real)
    requires Taxed(t, ratePercent)
    ensures CalculateVat(Some(t.subtotal), Some(ratePercent)) == t
  {
    // `x || 0` is `x` for every number, zero included
    assert Js.Or(Some(t.subtotal), 0.0, 0.0) == t.subtotal;
    assert Js.Or(Some(ratePercent), 0.0, 0.0) == ratePercent;
    var c := CalculateVat(Some(t.subtotal), Some(ratePercent));
    var product := t.subtotal * ratePercent;
    assert 100.0 * c.taxAmount == product && 100.0 * t.taxAmount == product;
  }

  /** The summary fields the cards read; `None` is a missing group or a NULL
      sum (`summary.income?.total_amount`). */
  datatype YearSummary = YearSummary(
    incomeTotal: Option<real>,
    expenseTotal: Option<real>,
    incomeVat: Option<real>,
    expenseVat: Option<real>)

  /** The net-profit card: income total minus expense total, a missing value
      read as 0. */
  function Profit(s: YearSummary): (p: real)
    ensures p + s.expenseTotal.GetOr(0.0) == s.incomeTotal.GetOr(0.0)
  {
    Js.Or(s.incomeTotal, 0.0, 0.0) - Js.Or(s.expenseTotal, 0.0, 0.0)
  }

  /** The VAT-owed card: `Math.max(0, income vat - expense vat)`, never
      negative, a surplus of input tax showing as 0. */
  function VatOwed(s: YearSummary): (v: real)
    ensures v >= 0.0
    ensures v >= s.incomeVat.GetOr(0.0) - s.expenseVat.GetOr(0.0)
    ensures v == 0.0 || v == s.incomeVat.GetOr(0.0) - s.expenseVat.GetOr(0.0)
  {
    var owed := Js.Or(s.incomeVat, 0.0, 0.0) - Js.Or(s.expenseVat, 0.0, 0.0);
    if owed > 0.0 then owed else 0.0
  }
}
