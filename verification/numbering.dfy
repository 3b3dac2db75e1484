/** Year-scoped document numbers: `RE-<year>-<seq>` for invoices and
    `OFF-<year>-<seq>` for quotes, where `<seq>` is one more than the number
    of existing documents of that year, zero-padded to three digits. */
module Numbering {
  import opened Wrappers
  import opened Decimal

  const InvoicePrefix := "RE-"
  const QuotePrefix := "OFF-"

  /** The fixed head `<prefix><year>-` shared by every number of one year. */
  function YearHead(prefix: string, year: nat): string {
    prefix + NatToString(year) + "-"
  }

  /** The SQL pattern `<prefix><year>-%`, as a case-sensitive prefix test.
      SQLite's `LIKE` ignores ASCII case, so the database also counts a
      supplied `re-2025-007`; the model does not. */
  predicate InYear(prefix: string, year: nat, number: string) {
    YearHead(prefix, year) <= number
  }

  /** `COUNT(*)` of the rows whose number column matches the year pattern. */
  function CountInYear(prefix: string, year: nat, numbers: map<nat, string>): (c: nat)
    ensures c <= |numbers|
  {
    var matching := set id | id in numbers && InYear(prefix, year, numbers[id]);
    assert matching <= numbers.Keys;
    SubsetCardinality(matching, numbers.Keys);
    |matching|
  }

  lemma SubsetCardinality(a: set<nat>, b: set<nat>)
    requires a <= b
    ensures |a| <= |b|
  {
    if a != b {
      var x :| x in b && x !in a;
      SubsetCardinality(a, b - {x});
    }
  }

  /** The sequence number a document of that year would carry, or None when
      the text is not `<prefix><year>-<digits>`. */
  function Parse(prefix: string, year: nat, number: string): Option<nat> {
    var head := YearHead(prefix, year);
    if head <= number && |number| > |head| && IsDigits(number[|head|..])
    then Some(ParseNat(number[|head|..]))
    else None
  }

  /** `${prefix}${year}-${String(count + 1).padStart(3, '0')}`. */
  function Generate(prefix: string, year: nat, count: nat): (r: string)
    ensures InYear(prefix, year, r)
    ensures |r| >= |YearHead(prefix, year)| + 3
    ensures Parse(prefix, year, r) == Some(count + 1)
  {
    var head := YearHead(prefix, year);
    var r := head + ZeroPad(count + 1, 3);
    assert r[|head|..] == ZeroPad(count + 1, 3);
    ZeroPadValue(count + 1, 3);
    r
  }

  /** The suffix is exactly three digits until the thousandth document of a
      year; from then on `padStart` leaves the longer number whole. */
  lemma GeneratedSuffixWidth(prefix: string, year: nat, count: nat)
    ensures |Generate(prefix, year, count)| == |YearHead(prefix, year)| + 3 <==> count + 1 < 1000
  {
    ZeroPadLength(count + 1, 3);
    assert Pow10(3) == 1000;
  }

  /** A year between 1000 and 9999 renders with exactly four digits. */
  lemma FourDigitYear(year: nat)
    requires 1000 <= year <= 9999
    ensures |NatToString(year)| == 4
  {
    NatToStringLength(year, 4);
    NatToStringLength(year, 3);
    assert Pow10(3) == 1000;
  }

  /** Different counts never produce the same number. */
  lemma GenerateInjective(prefix: string, year: nat, c1: nat, c2: nat)
    requires Generate(prefix, year, c1) == Generate(prefix, year, c2)
    ensures c1 == c2
  {
    assert Parse(prefix, year, Generate(prefix, year, c1)) == Some(c1 + 1);
  }

  /** A non-empty client-supplied number wins; otherwise one is generated
      from the count of numbers already issued in that year. */
  function Assign(supplied: Option<string>, prefix: string, year: nat, numbers: map<nat, string>): (r: string)
    ensures supplied.Some? && supplied.value != "" ==> r == supplied.value
    ensures (supplied.None? || supplied.value == "") ==>
      InYear(prefix, year, r) && Parse(prefix, year, r) == Some(CountInYear(prefix, year, numbers) + 1)
    ensures (supplied.None? || supplied.value == "") ==> r == Generate(prefix, year, CountInYear(prefix, year, numbers))
  {
    if supplied.Some? && supplied.value != "" then supplied.value
    else Generate(prefix, year, CountInYear(prefix, year, numbers))
  }

  /** The invoice number chosen by `POST /api/invoices`. */
  function InvoiceNumber(supplied: Option<string>, year: nat, numbers: map<nat, string>): (r: string)
    ensures supplied.Some? && supplied.value != "" ==> r == supplied.value
    ensures (supplied.None? || supplied.value == "") ==>
      Parse(InvoicePrefix, year, r) == Some(CountInYear(InvoicePrefix, year, numbers) + 1)
    ensures (supplied.None? || supplied.value == "") ==> r == Generate(InvoicePrefix, year, CountInYear(InvoicePrefix, year, numbers))
  {
    Assign(supplied, InvoicePrefix, year, numbers)
  }

  /** The quote number chosen by `POST /api/quotes`, counted over the
      quote-number column. */
  function QuoteNumber(supplied: Option<string>, year: nat, numbers: map<nat, string>): (r: string)
    ensures supplied.Some? && supplied.value != "" ==> r == supplied.value
    ensures (supplied.None? || supplied.value == "") ==>
      Parse(QuotePrefix, year, r) == Some(CountInYear(QuotePrefix, year, numbers) + 1)
    ensures (supplied.None? || supplied.value == "") ==> r == Generate(QuotePrefix, year, CountInYear(QuotePrefix, year, numbers))
  {
    Assign(supplied, QuotePrefix, year, numbers)
  }

  /** Issuing one more number of the year under a fresh row id raises that
      year's count by exactly one, so sequentially created documents are
      numbered 1, 2, 3, ... within a year. */
  lemma CountAfterInsert(prefix: string, year: nat, numbers: map<nat, string>, id: nat, number: string)
    requires id !in numbers
    ensures CountInYear(prefix, year, numbers[id := number]) ==
      CountInYear(prefix, year, numbers) + (if InYear(prefix, year, number) then 1 else 0)
  {
    var before := set k | k in numbers && InYear(prefix, year, numbers[k]);
    var m := numbers[id := number];
    var after := set k | k in m && InYear(prefix, year, m[k]);
    if InYear(prefix, year, number) {
      assert after == before + {id};
    } else {
      assert after == before;
    }
  }

  /** The next generated number after `n - 1` documents of a year carries `n`,
      and once stored it makes the following one carry `n + 1`. */
  lemma SequentialNumbering(prefix: string, year: nat, numbers: map<nat, string>, id: nat, n: nat)
    requires id !in numbers
    requires n >= 1 && CountInYear(prefix, year, numbers) == n - 1
    ensures Parse(prefix, year, Assign(None, prefix, year, numbers)) == Some(n)
    ensures Parse(prefix, year, Assign(None, prefix, year, numbers[id := Assign(None, prefix, year, numbers)])) == Some(n + 1)
  {
    CountAfterInsert(prefix, year, numbers, id, Assign(None, prefix, year, numbers));
  }
}
