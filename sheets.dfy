/**
 * The spreadsheet side of a paid request (sheets.py): one row per accrual
 * period with the amount shared evenly and the quarter of the payment and of
 * the period, and the categories sheet read back as the wizard's catalogue.
 */
module Sheets {
  import opened Wrappers
  import opened Strings
  import Grouping

  /** The fields of a paid request that go to the sheet; the amount as the number read back from the ledger. */
  datatype Payment = Payment(
    amount: real, expenseItem: string, expenseGroup: string, partner: string,
    comment: string, period: string, paymentMethod: string)

  /** A spreadsheet cell. */
  datatype Cell = Text(text: string) | Number(value: real) | Whole(n: int)

  /** `(int(date[3:5]) - 1) // 3 + 1`: the quarter of a `dd.mm.yyyy` date, if its month field parses. */
  function Quarter(date: string): (q: Option<int>)
    ensures q.Some? <==> PyInt(Slice(date, 3, 5)).Some?
  {
    match PyInt(Slice(date, 3, 5))
    case None => None
    // floor division by a positive divisor: Dafny's `/` agrees with Python's `//`
    case Some(m) => Some((m - 1) / 3 + 1)
  }

  /** A date whose month field is two digits naming a month falls in the quarter holding that month. */
  lemma QuarterOfMonth(date: string)
    requires |date| >= 5 && AllDigits(date[3..5])
    requires 1 <= NumeralValue(date[3..5]) <= 12
    ensures Quarter(date).Some?
    ensures var q := Quarter(date).value; var m := NumeralValue(date[3..5]);
      1 <= q <= 4 && 3 * (q - 1) < m <= 3 * q
  {
    assert Slice(date, 3, 5) == date[3..5];
  }

  /** The even share of the amount for each of `n` periods. */
  function Share(amount: real, n: nat): real
    requires n > 0
  {
    amount / n as real
  }

  /** The quarter of a date whose month parses (only such dates get a row). */
  function QuarterValue(date: string): int
  {
    match Quarter(date)
    case Some(q) => q
    case None => 0
  }

  /** The row for one period; it is appended only when both quarters parse. */
  function PeriodRow(p: Payment, today: string, share: real, month: string): (row: seq<Cell>)
    ensures |row| == 10
    ensures Quarter(today).Some? && Quarter(month).Some? ==>
      row[8] == Whole(Quarter(today).value) && row[9] == Whole(Quarter(month).value)
  {
    [Text(today), Number(share), Text(p.expenseItem), Text(p.expenseGroup), Text(p.partner),
     Text(p.comment), Text(month), Text(p.paymentMethod),
     Whole(QuarterValue(today)), Whole(QuarterValue(month))]
  }

  /** How many leading periods get their row before a quarter fails to parse. */
  function RowsBeforeFailure(today: string, months: seq<string>): (n: nat)
    ensures n <= |months|
    ensures forall k :: 0 <= k < n ==> Quarter(today).Some? && Quarter(months[k]).Some?
    ensures n < |months| ==> Quarter(today).None? || Quarter(months[n]).None?
  {
    if months == [] || Quarter(today).None? || Quarter(months[0]).None? then 0
    else 1 + RowsBeforeFailure(today, months[1..])
  }

  /** One row per month with `share` as its amount, in order, up to the first month that fails. */
  function RowsFor(p: Payment, today: string, share: real, months: seq<string>): (rows: seq<seq<Cell>>)
    ensures |rows| <= |months|
    ensures |rows| < |months| ==> Quarter(today).None? || Quarter(months[|rows|]).None?
  {
    var n := RowsBeforeFailure(today, months);
    seq(n, k requires 0 <= k < n => PeriodRow(p, today, share, months[k]))
  }

  /** The rows appended for a payment: one per period token, in order, up to the first that fails. */
  function PaymentRows(p: Payment, today: string): (rows: seq<seq<Cell>>)
    ensures |rows| <= |Split(p.period, ' ')|
  {
    var months := Split(p.period, ' ');
    RowsFor(p, today, Share(p.amount, |months|), months)
  }

  /** The total of the amount column over some rows. */
  function AmountTotal(rows: seq<seq<Cell>>): real
  {
    if rows == [] then 0.0
    else
      var last := rows[|rows| - 1];
      AmountTotal(rows[..|rows| - 1]) + (if |last| > 1 && last[1].Number? then last[1].value else 0.0)
  }

  lemma {:induction false} AmountTotalOfShares(rows: seq<seq<Cell>>, share: real, n: nat)
    requires |rows| == n
    requires forall k :: 0 <= k < |rows| ==> |rows[k]| > 1 && rows[k][1] == Number(share)
    ensures AmountTotal(rows) == n as real * share
  {
    if rows != [] {
      AmountTotalOfShares(rows[..|rows| - 1], share, n - 1);
    }
  }

  /** Row k is month k's row, with the share in its amount column and the month in its period column. */
  lemma RowsForRow(p: Payment, today: string, share: real, months: seq<string>, k: nat)
    requires k < |RowsFor(p, today, share, months)|
    ensures |RowsFor(p, today, share, months)| == RowsBeforeFailure(today, months)
    ensures RowsFor(p, today, share, months)[k] == PeriodRow(p, today, share, months[k])
    ensures RowsFor(p, today, share, months)[k][1] == Number(share)
    ensures RowsFor(p, today, share, months)[k][6] == Text(months[k])
  {
    RowsForIndex(p, today, share, months, k);
    PeriodRowColumns(p, today, share, months[k]);
  }

  lemma RowsForIndex(p: Payment, today: string, share: real, months: seq<string>, k: nat)
    requires k < |RowsFor(p, today, share, months)|
    ensures |RowsFor(p, today, share, months)| == RowsBeforeFailure(today, months)
    ensures RowsFor(p, today, share, months)[k] == PeriodRow(p, today, share, months[k])
  {
  }

  /** A row carries the share in its amount column and the month in its period column. */
  lemma PeriodRowColumns(p: Payment, today: string, share: real, month: string)
    ensures PeriodRow(p, today, share, month)[1] == Number(share)
    ensures PeriodRow(p, today, share, month)[6] == Text(month)
  {
  }

  /** Every period gets one row carrying its token, in token order, up to the first that fails. */
  lemma PaymentRowsFollowPeriods(p: Payment, today: string)
    ensures var months := Split(p.period, ' '); var rows := PaymentRows(p, today);
      && |rows| == RowsBeforeFailure(today, months)
      && forall k :: 0 <= k < |rows| ==>
           rows[k] == PeriodRow(p, today, Share(p.amount, |months|), months[k])
           && rows[k][6] == Text(months[k])
  {
    var months := Split(p.period, ' ');
    var share := Share(p.amount, |months|);
    var rows := RowsFor(p, today, share, months);
    forall k | 0 <= k < |rows|
      ensures rows[k] == PeriodRow(p, today, share, months[k]) && rows[k][6] == Text(months[k])
    {
      RowsForRow(p, today, share, months, k);
    }
  }

  /** When every quarter parses, the shares of all rows add up to the whole amount. */
  lemma PaymentRowsShareAmount(p: Payment, today: string)
    requires |PaymentRows(p, today)| == |Split(p.period, ' ')|
    ensures AmountTotal(PaymentRows(p, today)) == p.amount
  {
    var months := Split(p.period, ' ');
    var n := |months|;
    var share := Share(p.amount, n);
    var rows := RowsFor(p, today, share, months);
    forall k | 0 <= k < |rows|
      ensures |rows[k]| > 1 && rows[k][1] == Number(share)
    {
      RowsForRow(p, today, share, months, k);
    }
    AmountTotalOfShares(rows, share, n);
    SharesMakeAmount(AmountTotal(rows), p.amount, share, n);
  }

  /** A month whose quarter parses, reached with every earlier row appended, has its row next. */
  lemma RowsForAt(p: Payment, today: string, share: real, months: seq<string>, i: nat)
    requires i < |months| && i <= |RowsFor(p, today, share, months)|
    requires Quarter(today).Some? && Quarter(months[i]).Some?
    ensures i < |RowsFor(p, today, share, months)|
    ensures RowsFor(p, today, share, months)[i] == PeriodRow(p, today, share, months[i])
  {
  }

  /** A month whose quarter fails, reached with every earlier row appended, ends the rows. */
  lemma RowsForStop(p: Payment, today: string, share: real, months: seq<string>, i: nat)
    requires i < |months| && i <= |RowsFor(p, today, share, months)|
    requires Quarter(today).None? || Quarter(months[i]).None?
    ensures i == |RowsFor(p, today, share, months)|
  {
  }

  lemma PrefixStep<T>(s: seq<T>, i: nat)
    requires i < |s|
    ensures s[..i + 1] == s[..i] + [s[i]]
  {
  }

  /** `n` equal shares of an amount add up to the amount. */
  lemma SharesMakeAmount(total: real, amount: real, share: real, n: nat)
    requires n > 0
    requires share == Share(amount, n)
    requires total == n as real * share
    ensures total == amount
  {
  }

  /** `get_data`'s outcome: the catalogue and the unique categories, or the error it raised. */
  datatype Error = OpenFailed | MissingColumn

  /**
   * The sheets client of one handler call: whether it is authorised, the
   * records sheet's rows, and the catalogue last read from the categories sheet.
   */
  class GoogleSheetsManager {
    var authorized: bool
    var records: seq<seq<Cell>>
    var optionsDict: Option<Grouping.Catalog>
    var items: Option<seq<string>>

    constructor(records: seq<seq<Cell>>)
      ensures !authorized && this.records == records && optionsDict.None? && items.None?
    {
      authorized := false;
      this.records := records;
      optionsDict := None;
      items := None;
    }

    /** Authorisation either succeeds or raises, leaving the client as it was. */
    method InitializeGoogleSheets(authFails: bool) returns (ok: bool)
      modifies this
      ensures ok == !authFails
      ensures authorized == (old(authorized) || !authFails)
      ensures records == old(records) && optionsDict == old(optionsDict) && items == old(items)
    {
      if authFails {
        return false;
      }
      authorized := true;
      ok := true;
    }

    /**
     * Appends the payment's rows. A client that is not authorised or a sheet
     * that does not open is logged and nothing is appended; a period whose
     * quarter does not parse raises, keeping the rows appended before it.
     */
    method AddPaymentToSheet(p: Payment, today: string, openFails: bool) returns (raised: bool)
      modifies this
      ensures authorized == old(authorized) && optionsDict == old(optionsDict) && items == old(items)
      ensures !old(authorized) || openFails ==> records == old(records) && !raised
      ensures old(authorized) && !openFails ==>
        && records == old(records) + PaymentRows(p, today)
        && (raised <==> |PaymentRows(p, today)| < |Split(p.period, ' ')|)
    {
      if !authorized || openFails {
        return false;
      }
      var months := Split(p.period, ' ');
      var totalSum := Share(p.amount, |months|);
      raised := AppendRows(p, today, totalSum, months);
    }

    /** The loop over the period's months: append each month's row until a quarter fails to parse. */
    method AppendRows(p: Payment, today: string, share: real, months: seq<string>) returns (raised: bool)
      modifies this
      ensures authorized == old(authorized) && optionsDict == old(optionsDict) && items == old(items)
      ensures records == old(records) + RowsFor(p, today, share, months)
      ensures raised <==> |RowsFor(p, today, share, months)| < |months|
    {
      ghost var rows := RowsFor(p, today, share, months);
      var i := 0;
      while i < |months|
        invariant 0 <= i <= |rows|
        invariant authorized == old(authorized) && optionsDict == old(optionsDict) && items == old(items)
        invariant records == old(records) + rows[..i]
      {
        var todayQuarter := Quarter(today);
        var monthQuarter := Quarter(months[i]);
        if todayQuarter.None? || monthQuarter.None? {
          RowsForStop(p, today, share, months, i);
          assert rows[..i] == rows;
          return true;
        }
        RowsForAt(p, today, share, months, i);
        var row := PeriodRow(p, today, share, months[i]);
        PrefixStep(rows, i);
        records := records + [row];
        i := i + 1;
      }
      assert rows[..i] == rows;
      raised := false;
    }

    /**
     * Reads the categories sheet into the catalogue and its unique categories
     * and keeps both. An unopened sheet raises, and so does an empty one, which
     * has no category column.
     */
    method GetData(entries: seq<Grouping.Entry>, openFails: bool)
      returns (r: Result<(Grouping.Catalog, seq<string>), Error>)
      modifies this
      ensures authorized == old(authorized) && records == old(records)
      ensures !old(authorized) || openFails ==>
        r == Err(OpenFailed) && optionsDict == old(optionsDict) && items == old(items)
      ensures old(authorized) && !openFails && entries == [] ==>
        r == Err(MissingColumn) && optionsDict == old(optionsDict) && items == old(items)
      ensures old(authorized) && !openFails && entries != [] ==>
        && r == Ok((Grouping.Grouped(entries), Grouping.Unique(Grouping.Categories(entries))))
        && optionsDict == Some(r.value.0) && items == Some(r.value.1)
    {
      if !authorized || openFails {
        return Err(OpenFailed);
      }
      if entries == [] {
        return Err(MissingColumn);
      }
      var uniqueItems := Grouping.Unique(Grouping.Categories(entries));
      var dataStructure := Grouping.Build(entries);
      optionsDict, items := Some(dataStructure), Some(uniqueItems);
      r := Ok((dataStructure, uniqueItems));
    }
  }
}
