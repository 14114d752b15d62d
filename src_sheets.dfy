/**
 * The later spreadsheet client (src/sheets.py): accrual periods given as
 * `MM.YY` become first-of-month dates, the amount is shared evenly and
 * rounded half-up to ten decimal places, and every failure raises.
 */
module SrcSheets {
  import opened Wrappers
  import opened Strings
  import Grouping
  import Sheets

  /** `strptime`'s `%m`: `1[0-2]`, `0[1-9]` or `[1-9]`, covering the whole field. */
  function MonthField(s: string): (m: Option<nat>)
    ensures m.Some? ==> 1 <= m.value <= 12
  {
    if |s| == 2 && s[0] == '1' && '0' <= s[1] <= '2' then Some(10 + DigitValue(s[1]))
    else if |s| == 2 && s[0] == '0' && '1' <= s[1] <= '9' then Some(DigitValue(s[1]))
    else if |s| == 1 && '1' <= s[0] <= '9' then Some(DigitValue(s[0]))
    else None
  }

  /** `strptime`'s `%y`: two digits, 69-99 in the 1900s and 00-68 in the 2000s. */
  function YearField(s: string): (y: Option<nat>)
    ensures y.Some? ==> 1969 <= y.value <= 2068
  {
    if |s| == 2 && AllDigits(s) then
      var v := 10 * DigitValue(s[0]) + DigitValue(s[1]);
      Some(if v < 69 then 2000 + v else 1900 + v)
    else None
  }

  /** A number below 100 as two digits, zero-padded. */
  function Digits2(n: nat): (s: string)
    requires n < 100
    ensures |s| == 2 && AllDigits(s)
  {
    [DigitChar(n / 10), DigitChar(n % 10)]
  }

  /** A number below 10000 as four digits, zero-padded. */
  function Digits4(n: nat): (s: string)
    requires n < 10000
    ensures |s| == 4 && AllDigits(s)
  {
    Digits2(n / 100) + Digits2(n % 100)
  }

  /**
   * `datetime.strptime(f"01.{token}", "%d.%m.%y").strftime("%d.%m.%Y")`: the
   * first day of the token's month as `dd.mm.yyyy`, or `None` where strptime raises.
   */
  function ConvertMonth(token: string): (r: Option<string>)
    ensures r.Some? ==> |token| >= 3 && token[|token| - 3] == '.'
    ensures r.Some? ==> |r.value| == 10 && r.value[..3] == "01." && r.value[5] == '.'
  {
    if |token| < 3 || token[|token| - 3] != '.' then None
    else
      match (MonthField(token[..|token| - 3]), YearField(token[|token| - 2..]))
      case (Some(m), Some(y)) => Some("01." + Digits2(m) + "." + Digits4(y))
      case _ => None
  }

  lemma Digits2Value(n: nat)
    requires n < 100
    ensures NumeralValue(Digits2(n)) == n
  {
    var s := Digits2(n);
    assert s[..1] == [DigitChar(n / 10)];
    assert s[..1][..0] == [];
    assert NumeralValue(s[..1]) == n / 10;
    assert DigitValue(s[1]) == n % 10;
  }

  /** A token `<a>.<b>` with a two-character year splits back into its month and year fields. */
  lemma TokenFields(a: string, b: string)
    requires |b| == 2
    ensures var token := a + "." + b;
      && |token| == |a| + 3 && token[|token| - 3] == '.'
      && token[..|token| - 3] == a && token[|token| - 2..] == b
  {
    var token := a + "." + b;
    assert token[..|token| - 3] == a;
    assert token[|token| - 2..] == b;
  }

  /** `%m` reads a zero-padded month back. */
  lemma PaddedMonthField(month: nat)
    requires 1 <= month <= 12
    ensures MonthField(Digits2(month)) == Some(month)
  {
  }

  /** `%y` reads the last two digits of a year in 1969-2068 back as that year. */
  lemma YearFieldOfDigits(year: nat)
    requires 1969 <= year <= 2068
    ensures YearField(Digits2(year % 100)) == Some(year)
  {
    var s := Digits2(year % 100);
    assert 10 * DigitValue(s[0]) + DigitValue(s[1]) == year % 100;
  }

  /** A zero-padded month and a two-digit year convert to the first of that month in the year `%y` gives. */
  lemma ConvertPaddedMonth(month: nat, year: nat)
    requires 1 <= month <= 12 && 1969 <= year <= 2068
    ensures ConvertMonth(Digits2(month) + "." + Digits2(year % 100))
      == Some("01." + Digits2(month) + "." + Digits4(year))
  {
    TokenFields(Digits2(month), Digits2(year % 100));
    PaddedMonthField(month);
    YearFieldOfDigits(year);
  }

  /** A single-digit month converts the same as its zero-padded form. */
  lemma ConvertShortMonth(month: nat, year: nat)
    requires 1 <= month <= 9 && 1969 <= year <= 2068
    ensures ConvertMonth([DigitChar(month)] + "." + Digits2(year % 100))
      == Some("01." + Digits2(month) + "." + Digits4(year))
  {
    TokenFields([DigitChar(month)], Digits2(year % 100));
    YearFieldOfDigits(year);
  }

  /**
   * Every converted period is a `dd.mm.yyyy` date of the first of a month, so
   * the quarter column of the older client would parse it.
   */
  lemma ConvertedMonthIsDate(token: string)
    requires ConvertMonth(token).Some?
    ensures var d := ConvertMonth(token).value;
      && |d| == 10 && d[..3] == "01." && d[5] == '.'
      && AllDigits(d[3..5]) && 1 <= NumeralValue(d[3..5]) <= 12
      && Sheets.Quarter(d).Some?
  {
    var m := MonthField(token[..|token| - 3]).value;
    var d := ConvertMonth(token).value;
    assert d[3..5] == Digits2(m);
    Digits2Value(m);
    Sheets.QuarterOfMonth(d);
  }

  /** The list comprehension over the period tokens: every token converted, or the first failure raises. */
  function ConvertMonths(tokens: seq<string>): (r: Option<seq<string>>)
    ensures r.Some? <==> forall k :: 0 <= k < |tokens| ==> ConvertMonth(tokens[k]).Some?
    ensures r.Some? ==> |r.value| == |tokens| && forall k :: 0 <= k < |tokens| ==> Some(r.value[k]) == ConvertMonth(tokens[k])
  {
    if tokens == [] then Some([])
    else
      match (ConvertMonth(tokens[0]), ConvertMonths(tokens[1..]))
      case (Some(d), Some(rest)) => Some([d] + rest)
      case _ =>
        assert forall k :: 1 <= k < |tokens| ==> tokens[k] == tokens[1..][k - 1];
        None
  }

  /** Ten decimal places: the quantum of `Decimal('0.0000000001')`. */
  const Scale: real := 10000000000.0

  /** `quantize(Decimal('0.0000000001'), rounding=ROUND_HALF_UP)`: to the nearest quantum, ties away from zero. */
  function RoundHalfUp10(q: real): (r: real)
    ensures 0.0 <= q ==> 0.0 <= r
    ensures q <= 0.0 ==> r <= 0.0
  {
    if q >= 0.0 then (q * Scale + 0.5).Floor as real / Scale
    else -((-q * Scale + 0.5).Floor as real / Scale)
  }

  /** Rounding moves a value by at most half a quantum. */
  lemma RoundingIsClose(q: real)
    ensures -0.5 / Scale <= RoundHalfUp10(q) - q <= 0.5 / Scale
  {
    if q >= 0.0 {
      var f := (q * Scale + 0.5).Floor;
      assert q * Scale - 0.5 < f as real <= q * Scale + 0.5;
    } else {
      var f := (-q * Scale + 0.5).Floor;
      assert -q * Scale - 0.5 < f as real <= -q * Scale + 0.5;
    }
  }

  lemma FloorAboveWhole(f: int)
    ensures (f as real + 0.5).Floor == f
  {
  }

  lemma QuantaScaleBack(f: int)
    ensures f as real / Scale * Scale == f as real
  {
  }

  /** A whole number of quanta rounds to itself. */
  lemma RoundingKeepsQuanta(f: int)
    ensures RoundHalfUp10(f as real / Scale) == f as real / Scale
  {
    if f >= 0 {
      QuantaScaleBack(f);
      FloorAboveWhole(f);
    } else {
      var q := f as real / Scale;
      assert -q == (-f) as real / Scale;
      QuantaScaleBack(-f);
      FloorAboveWhole(-f);
      assert -q * Scale + 0.5 == (-f) as real + 0.5;
    }
  }

  /** A rounded value is a whole number of quanta, so rounding it again changes nothing. */
  lemma RoundingIsIdempotent(q: real)
    ensures RoundHalfUp10(RoundHalfUp10(q)) == RoundHalfUp10(q)
  {
    if q >= 0.0 {
      RoundingKeepsQuanta((q * Scale + 0.5).Floor);
    } else {
      var f := (-q * Scale + 0.5).Floor;
      assert RoundHalfUp10(q) == (-f) as real / Scale;
      RoundingKeepsQuanta(-f);
    }
  }

  /** Rounding is symmetric about zero, and a tie rounds away from it. */
  lemma RoundingTiesAwayFromZero(k: nat)
    ensures RoundHalfUp10((k as real + 0.5) / Scale) == (k + 1) as real / Scale
    ensures RoundHalfUp10(-(k as real + 0.5) / Scale) == -((k + 1) as real / Scale)
  {
    assert (k as real + 0.5) / Scale * Scale + 0.5 == (k + 1) as real;
    assert -(-(k as real + 0.5) / Scale) * Scale + 0.5 == (k + 1) as real;
  }

  /** The share of each of `n` periods: `Decimal(amount) / Decimal(n)`, rounded. */
  function RoundedShare(amount: real, n: nat): real
    requires n > 0
  {
    RoundHalfUp10(amount / n as real)
  }

  /** The eight-column row for one converted period. */
  function PeriodRow(p: Sheets.Payment, today: string, share: real, month: string): (row: seq<Sheets.Cell>)
    ensures |row| == 8
  {
    [Sheets.Text(today), Sheets.Number(share), Sheets.Text(p.expenseItem), Sheets.Text(p.expenseGroup),
     Sheets.Text(p.partner), Sheets.Text(p.comment), Sheets.Text(month), Sheets.Text(p.paymentMethod)]
  }

  function PaymentRows(p: Sheets.Payment, today: string, months: seq<string>): (rows: seq<seq<Sheets.Cell>>)
    requires |months| > 0
    ensures |rows| == |months|
  {
    seq(|months|, k requires 0 <= k < |months| => PeriodRow(p, today, RoundedShare(p.amount, |months|), months[k]))
  }

  lemma PaymentRowAt(p: Sheets.Payment, today: string, months: seq<string>, k: nat)
    requires k < |months|
    ensures PaymentRows(p, today, months)[k] == PeriodRow(p, today, RoundedShare(p.amount, |months|), months[k])
  {
  }

  /** One row per period, in order, each holding its converted date and the same rounded share. */
  lemma PaymentRowsFollowPeriods(p: Sheets.Payment, today: string, months: seq<string>)
    requires |months| > 0
    ensures var rows := PaymentRows(p, today, months);
      forall k :: 0 <= k < |rows| ==>
        rows[k][6] == Sheets.Text(months[k]) && rows[k][1] == Sheets.Number(RoundedShare(p.amount, |months|))
  {
    forall k | 0 <= k < |months|
      ensures PaymentRows(p, today, months)[k][6] == Sheets.Text(months[k])
      ensures PaymentRows(p, today, months)[k][1] == Sheets.Number(RoundedShare(p.amount, |months|))
    {
      PaymentRowAt(p, today, months, k);
    }
  }

  /** Together the rounded shares miss the amount by at most half a quantum per row. */
  lemma PaymentRowsShareAmount(p: Sheets.Payment, today: string, months: seq<string>)
    requires |months| > 0
    ensures var n := |months| as real;
      -n * (0.5 / Scale) <= Sheets.AmountTotal(PaymentRows(p, today, months)) - p.amount <= n * (0.5 / Scale)
  {
    var share := RoundedShare(p.amount, |months|);
    var rows := PaymentRows(p, today, months);
    forall k | 0 <= k < |rows|
      ensures |rows[k]| > 1 && rows[k][1] == Sheets.Number(share)
    {
      PaymentRowAt(p, today, months, k);
    }
    RoundingIsClose(p.amount / |months| as real);
    TotalOfShares(rows, p.amount, share, 0.5 / Scale);
  }

  lemma TotalOfShares(rows: seq<seq<Sheets.Cell>>, amount: real, share: real, b: real)
    requires |rows| > 0
    requires forall k :: 0 <= k < |rows| ==> |rows[k]| > 1 && rows[k][1] == Sheets.Number(share)
    requires -b <= share - amount / |rows| as real <= b
    ensures -(|rows| as real) * b <= Sheets.AmountTotal(rows) - amount <= |rows| as real * b
  {
    Sheets.AmountTotalOfShares(rows, share, |rows|);
    ErrorPerRow(|rows| as real, amount, share, b);
  }

  /** `n` rows each off their exact share by at most `b` are off the amount by at most `n * b` together. */
  lemma ErrorPerRow(n: real, amount: real, share: real, b: real)
    requires n > 0.0
    requires -b <= share - amount / n <= b
    ensures -n * b <= n * share - amount <= n * b
  {
    var e := share - amount / n;
    assert n * share - amount == n * e;
    assert n * (b - e) >= 0.0;
    assert n * (e + b) >= 0.0;
  }

  /** The exceptions the client raises. */
  datatype Error = RuntimeError | ValueError | KeyError

  /**
   * The later sheets client: whether it is authorised, the records sheet's
   * rows, and the catalogue last read from the categories sheet.
   */
  class GoogleSheetsManager {
    var authorized: bool
    var records: seq<seq<Sheets.Cell>>
    var optionsDict: Option<Grouping.Catalog>
    var items: Option<seq<string>>

    constructor(records: seq<seq<Sheets.Cell>>)
      ensures !authorized && this.records == records && optionsDict.None? && items.None?
    {
      authorized := false;
      this.records := records;
      optionsDict := None;
      items := None;
    }

    /** A failed authorisation raises `RuntimeError` and leaves the client as it was. */
    method InitializeGoogleSheets(authFails: bool) returns (error: Option<Error>)
      modifies this
      ensures authFails ==> error == Some(RuntimeError) && authorized == old(authorized)
      ensures !authFails ==> error.None? && authorized
      ensures records == old(records) && optionsDict == old(optionsDict) && items == old(items)
    {
      if authFails {
        return Some(RuntimeError);
      }
      authorized := true;
      error := None;
    }

    /**
     * Appends the payment's rows. A sheet that does not open (or a client not
     * authorised) raises `RuntimeError` and a period token strptime rejects
     * raises `ValueError`, both before any row is appended.
     */
    method AddPaymentToSheet(p: Sheets.Payment, today: string, openFails: bool) returns (error: Option<Error>)
      modifies this
      ensures authorized == old(authorized) && optionsDict == old(optionsDict) && items == old(items)
      ensures !old(authorized) || openFails ==> error == Some(RuntimeError) && records == old(records)
      ensures old(authorized) && !openFails && ConvertMonths(Split(p.period, ' ')).None? ==>
        error == Some(ValueError) && records == old(records)
      ensures old(authorized) && !openFails && ConvertMonths(Split(p.period, ' ')).Some? ==>
        error.None? && records == old(records) + PaymentRows(p, today, ConvertMonths(Split(p.period, ' ')).value)
    {
      if !authorized || openFails {
        return Some(RuntimeError);
      }
      var period := Split(p.period, ' ');
      var converted := ConvertMonths(period);
      if converted.None? {
        return Some(ValueError);
      }
      var months := converted.value;
      var roundedSum := RoundedShare(p.amount, |months|);
      AppendRows(p, today, roundedSum, months);
      error := None;
    }

    /** The loop of `add_payment_to_sheet`: one appended row per converted period, in order. */
    method AppendRows(p: Sheets.Payment, today: string, share: real, months: seq<string>)
      requires |months| > 0 && share == RoundedShare(p.amount, |months|)
      modifies this
      ensures authorized == old(authorized) && optionsDict == old(optionsDict) && items == old(items)
      ensures records == old(records) + PaymentRows(p, today, months)
    {
      ghost var rows := PaymentRows(p, today, months);
      for i := 0 to |months|
        invariant authorized == old(authorized) && optionsDict == old(optionsDict) && items == old(items)
        invariant records == old(records) + rows[..i]
      {
        var row := PeriodRow(p, today, share, months[i]);
        PaymentRowAt(p, today, months, i);
        Sheets.PrefixStep(rows, i);
        records := records + [row];
      }
      assert rows[..|months|] == rows;
    }

    /**
     * Reads the categories sheet into the catalogue and its unique categories
     * and keeps both. A sheet that does not open raises `RuntimeError`; an
     * empty one has no category column and raises `KeyError`.
     */
    method GetData(entries: seq<Grouping.Entry>, openFails: bool)
      returns (r: Result<(Grouping.Catalog, seq<string>), Error>)
      modifies this
      ensures authorized == old(authorized) && records == old(records)
      ensures !old(authorized) || openFails ==>
        r == Err(RuntimeError) && optionsDict == old(optionsDict) && items == old(items)
      ensures old(authorized) && !openFails && entries == [] ==>
        r == Err(KeyError) && optionsDict == old(optionsDict) && items == old(items)
      ensures old(authorized) && !openFails && entries != [] ==>
        && r == Ok((Grouping.Grouped(entries), Grouping.Unique(Grouping.Categories(entries))))
        && optionsDict == Some(r.value.0) && items == Some(r.value.1)
    {
      if !authorized || openFails {
        return Err(RuntimeError);
      }
      if entries == [] {
        return Err(KeyError);
      }
      var uniqueItems := Grouping.Unique(Grouping.Categories(entries));
      var dataStructure := Grouping.Build(entries);
      optionsDict, items := Some(dataStructure), Some(uniqueItems);
      r := Ok((dataStructure, uniqueItems));
    }
  }
}
