/**
 * The `approvals` table and the `ApprovalDB` object in front of it: insertion
 * of a new request, the two-column update, the lookup by id, and the general
 * read and partial update (`get_row_by_id`, `update_row_by_id`) that the
 * handlers call.
 */
module Ledger {
  import opened Wrappers
  import opened Approval
  import Strings
  import Amounts

  /** A value held by a Python dict or an SQL column: None/NULL, an integer, a text. */
  datatype Cell = Null | Int(i: int) | Text(t: string)

  /** A Python dict: its (key, value) pairs in insertion order, which is the order `values()` yields. */
  type Dict = seq<(string, Cell)>

  /** `d.get(key)` */
  function Lookup(d: Dict, key: string): Option<Cell>
  {
    if d == [] then None else if d[0].0 == key then Some(d[0].1) else Lookup(d[1..], key)
  }

  /**
   * `d[key] = v`: a key already present keeps its place and takes the new
   * value, a new key goes last.
   */
  function SetKey(d: Dict, key: string, v: Cell): (r: Dict)
    ensures Lookup(r, key) == Some(v)
    ensures |d| <= |r| <= |d| + 1
  {
    if d == [] then [(key, v)]
    else if d[0].0 == key then [(key, v)] + d[1..]
    else [d[0]] + SetKey(d[1..], key, v)
  }

  /** Setting one key leaves what every other key reads. */
  lemma {:induction false} SetKeyOthers(d: Dict, key: string, v: Cell, other: string)
    requires other != key
    ensures Lookup(SetKey(d, key, v), other) == Lookup(d, other)
  {
    if d != [] && d[0].0 != key {
      SetKeyOthers(d[1..], key, v, other);
    }
  }

  /** Setting a key leaves every entry under another key where it was. */
  lemma {:induction false} SetKeyKeeps(d: Dict, key: string, v: Cell, k: nat)
    requires k < |d| && d[k].0 != key
    ensures k < |SetKey(d, key, v)| && SetKey(d, key, v)[k] == d[k]
  {
    if k > 0 && d[0].0 != key {
      SetKeyKeeps(d[1..], key, v, k - 1);
    }
  }

  /** A key already present is overwritten where it stands. */
  lemma {:induction false} SetKeyAt(d: Dict, key: string, v: Cell, k: nat)
    requires k < |d| && d[k].0 == key
    requires forall j :: 0 <= j < k ==> d[j].0 != key
    ensures SetKey(d, key, v) == d[k := (key, v)]
  {
    if k > 0 {
      assert d[1..][k - 1].0 == key;
      SetKeyAt(d[1..], key, v, k - 1);
      assert [d[0]] + d[1..][k - 1 := (key, v)] == d[k := (key, v)];
    }
  }

  /** A new key is appended. */
  lemma {:induction false} SetKeyNew(d: Dict, key: string, v: Cell)
    requires forall j :: 0 <= j < |d| ==> d[j].0 != key
    ensures SetKey(d, key, v) == d + [(key, v)]
  {
    if d != [] {
      assert d[0].0 != key;
      SetKeyNew(d[1..], key, v);
      assert [d[0]] + (d[1..] + [(key, v)]) == d + [(key, v)];
    }
  }

  /** `list(d.values())` */
  function Values(d: Dict): (vs: seq<Cell>)
    ensures |vs| == |d|
  {
    seq(|d|, k requires 0 <= k < |d| => d[k].1)
  }

  /**
   * The record dict a caller hands to `insert_record`. The insertion sets
   * three of its keys in place, so the caller sees them afterwards.
   */
  class Record {
    var entries: Dict

    constructor (entries: Dict)
      ensures this.entries == entries
    {
      this.entries := entries;
    }
  }

  /** `float(record["amount"])`: a missing key, None or a text that is no number raises (None here). */
  function FloatOf(c: Option<Cell>): (r: Option<real>)
    ensures c.Some? && c.value.Text? ==> (r.Some? <==> Amounts.IsAmountText(c.value.t))
  {
    match c
    case Some(Text(t)) => Amounts.PyFloat(t)
    case Some(Int(i)) => Some(i as real)
    case _ => None
  }

  /** The three assignments `insert_record` makes to the caller's dict before the INSERT. */
  function Completed(d: Dict, needed: int): Dict
  {
    SetKey(SetKey(SetKey(d, "approvals_needed", Int(needed)), "approvals_received", Int(0)),
           "status", Text("Created"))
  }

  /** Completing a dict leaves every other key as it was and makes the three keys read their new values. */
  lemma CompletedReads(d: Dict, needed: int, other: string)
    requires other != "approvals_needed" && other != "approvals_received" && other != "status"
    ensures Lookup(Completed(d, needed), other) == Lookup(d, other)
    ensures Lookup(Completed(d, needed), "approvals_needed") == Some(Int(needed))
    ensures Lookup(Completed(d, needed), "approvals_received") == Some(Int(0))
    ensures Lookup(Completed(d, needed), "status") == Some(Text("Created"))
  {
    var d1 := SetKey(d, "approvals_needed", Int(needed));
    var d2 := SetKey(d1, "approvals_received", Int(0));
    SetKeyOthers(d, "approvals_needed", Int(needed), other);
    SetKeyOthers(d1, "approvals_received", Int(0), other);
    SetKeyOthers(d2, "status", Text("Created"), other);
    SetKeyOthers(d1, "approvals_received", Int(0), "approvals_needed");
    SetKeyOthers(d2, "status", Text("Created"), "approvals_needed");
    SetKeyOthers(d2, "status", Text("Created"), "approvals_received");
  }

  /** Completing a dict leaves the entries under the other keys in their places. */
  lemma CompletedKeeps(d: Dict, needed: int, k: nat)
    requires k < |d| && d[k].0 != "approvals_needed" && d[k].0 != "approvals_received" && d[k].0 != "status"
    ensures |d| <= |Completed(d, needed)| && Completed(d, needed)[k] == d[k]
  {
    var d1 := SetKey(d, "approvals_needed", Int(needed));
    var d2 := SetKey(d1, "approvals_received", Int(0));
    SetKeyKeeps(d, "approvals_needed", Int(needed), k);
    SetKeyKeeps(d1, "approvals_received", Int(0), k);
    SetKeyKeeps(d2, "status", Text("Created"), k);
  }

  /**
   * One row of the table. Columns the SQL may set to NULL are options; the
   * `approved_by` column is the handlers' (the insertion never sets it).
   */
  datatype Row = Row(
    amount: string, expenseItem: string, expenseGroup: string, partner: string,
    period: string, paymentMethod: string, comment: string,
    approvalsNeeded: int, approvalsReceived: Option<int>, status: Option<Status>,
    approvedBy: Option<string>)

  /** The columns `insert_record`'s INSERT names, in the order of its placeholders. */
  const InsertColumns: seq<string> := [
    "amount", "expense_item", "expense_group", "partner", "period", "payment_method",
    "comment", "approvals_needed", "approvals_received", "status"]

  /**
   * The row the INSERT stores when its ten placeholders are bound to `vs` by
   * position. Any other number of values makes sqlite3 raise; so, in this
   * model, does a value whose kind does not fit its column.
   */
  function BindRow(vs: seq<Cell>): (r: Option<Row>)
    ensures r.Some? ==> |vs| == |InsertColumns|
  {
    if |vs| == 10 && (forall k :: 0 <= k < 7 ==> vs[k].Text?) && vs[7].Int? && vs[8].Int?
       && vs[9].Text? && ParseStatus(vs[9].t).Some?
    then Some(Row(vs[0].t, vs[1].t, vs[2].t, vs[3].t, vs[4].t, vs[5].t, vs[6].t,
                  vs[7].i, Some(vs[8].i), ParseStatus(vs[9].t), None))
    else None
  }

  /**
   * A dict whose keys follow the INSERT's columns (the seven data columns
   * alone, or all ten): completing it puts the three derived values in the
   * last three places.
   */
  predicate InColumnOrder(d: Dict)
  {
    (|d| == 7 || |d| == 10) && forall k :: 0 <= k < |d| ==> d[k].0 == InsertColumns[k]
  }

  /** Only the k-th of the INSERT's columns carries the k-th name. */
  lemma ColumnNamed(k: nat)
    requires k < |InsertColumns|
    ensures forall j :: 0 <= j < |InsertColumns| && j != k ==> InsertColumns[j] != InsertColumns[k]
  {
    forall j | 0 <= j < |InsertColumns| && j != k
      ensures InsertColumns[j] != InsertColumns[k]
    {
      assert j in {0, 1, 2, 3, 4, 5, 6, 7, 8, 9} && k in {0, 1, 2, 3, 4, 5, 6, 7, 8, 9};
      assert |InsertColumns[j]| != |InsertColumns[k]| || InsertColumns[j][0] != InsertColumns[k][0];
    }
  }

  lemma CompletedInColumnOrder(d: Dict, needed: int)
    requires InColumnOrder(d)
    ensures Values(Completed(d, needed)) == Values(d)[..7] + [Int(needed), Int(0), Text("Created")]
  {
    var d3 := Completed(d, needed);
    var tail := [("approvals_needed", Int(needed)), ("approvals_received", Int(0)), ("status", Text("Created"))];
    if |d| == 7 {
      CompletedAppends(d, needed);
    } else {
      CompletedInPlace(d, needed);
    }
    assert d3 == d[..7] + tail;
    forall k | 0 <= k < 10
      ensures Values(d3)[k] == (Values(d)[..7] + [Int(needed), Int(0), Text("Created")])[k]
    {
    }
  }

  /** The seven data columns alone: the three derived entries are appended. */
  lemma CompletedAppends(d: Dict, needed: int)
    requires InColumnOrder(d) && |d| == 7
    ensures Completed(d, needed)
         == d + [("approvals_needed", Int(needed)), ("approvals_received", Int(0)), ("status", Text("Created"))]
  {
    var d1 := SetKey(d, "approvals_needed", Int(needed));
    var d2 := SetKey(d1, "approvals_received", Int(0));
    ColumnNamed(7);
    SetKeyNew(d, "approvals_needed", Int(needed));
    ColumnNamed(8);
    SetKeyNew(d1, "approvals_received", Int(0));
    ColumnNamed(9);
    SetKeyNew(d2, "status", Text("Created"));
  }

  /** All ten columns: the three derived entries are overwritten where they stand. */
  lemma CompletedInPlace(d: Dict, needed: int)
    requires InColumnOrder(d) && |d| == 10
    ensures Completed(d, needed)
         == d[..7] + [("approvals_needed", Int(needed)), ("approvals_received", Int(0)), ("status", Text("Created"))]
  {
    var d1 := SetKey(d, "approvals_needed", Int(needed));
    var d2 := SetKey(d1, "approvals_received", Int(0));
    ColumnNamed(7);
    SetKeyAt(d, "approvals_needed", Int(needed), 7);
    assert forall j :: 0 <= j < 10 ==> d1[j].0 == InsertColumns[j];
    ColumnNamed(8);
    SetKeyAt(d1, "approvals_received", Int(0), 8);
    assert forall j :: 0 <= j < 10 ==> d2[j].0 == InsertColumns[j];
    ColumnNamed(9);
    SetKeyAt(d2, "status", Text("Created"), 9);
  }

  /**
   * Positional binding: the k-th value lands in the k-th column named by the
   * INSERT, and `find_by_id` reads it back under that name.
   */
  lemma BoundColumns(id: nat, vs: seq<Cell>, k: nat)
    requires BindRow(vs).Some? && k < |InsertColumns|
    ensures Cells(id, BindRow(vs).value)[k + 1] == (InsertColumns[k], vs[k])
  {
    if k == 9 {
      assert StatusText(ParseStatus(vs[9].t).value) == vs[9].t;
    }
  }

  /** The row `insert_record` stores for a record dict, or None when it raises before storing. */
  function StoredRow(d: Dict): (r: Option<Row>)
    ensures r.Some? ==> FloatOf(Lookup(d, "amount")).Some?
  {
    var amount := FloatOf(Lookup(d, "amount"));
    if amount.None? then None else BindRow(Values(Completed(d, ApprovalsNeeded(amount.value))))
  }

  /** A record dict holding the seven data columns, keys in the INSERT's order. */
  function ColumnEntries(amount: string, expenseItem: string, expenseGroup: string, partner: string,
                         period: string, paymentMethod: string, comment: string): (d: Dict)
    ensures InColumnOrder(d) && |d| == 7
  {
    [("amount", Text(amount)), ("expense_item", Text(expenseItem)), ("expense_group", Text(expenseGroup)),
     ("partner", Text(partner)), ("period", Text(period)), ("payment_method", Text(paymentMethod)),
     ("comment", Text(comment))]
  }

  /** An `update_row_by_id` dict: a present key overwrites its column, an absent key leaves it. */
  datatype Patch = Patch(received: Option<int>, status: Option<Status>, approvedBy: Option<string>)

  /** Two rows of the same request: the seven data columns and approvals_needed agree. */
  predicate SameRequest(a: Row, b: Row)
  {
    && a.amount == b.amount && a.expenseItem == b.expenseItem && a.expenseGroup == b.expenseGroup
    && a.partner == b.partner && a.period == b.period && a.paymentMethod == b.paymentMethod
    && a.comment == b.comment && a.approvalsNeeded == b.approvalsNeeded
  }

  function Patched(r: Row, p: Patch): (r': Row)
  {
    r.(approvalsReceived := if p.received.Some? then p.received else r.approvalsReceived,
       status := if p.status.Some? then p.status else r.status,
       approvedBy := if p.approvedBy.Some? then p.approvedBy else r.approvedBy)
  }

  /** A partial update never touches what the request asks for; an empty one changes nothing. */
  lemma PatchKeepsRequest(r: Row, p: Patch)
    ensures SameRequest(r, Patched(r, p))
    ensures p == Patch(None, None, None) ==> Patched(r, p) == r
  {
  }

  /**
   * `update_record`'s SQL: both columns are always written, and a key missing
   * from `updates` writes NULL.
   */
  function TwoColumnUpdate(r: Row, updates: Patch): (r': Row)
    ensures SameRequest(r, r') && r'.approvedBy == r.approvedBy
  {
    r.(approvalsReceived := updates.received, status := updates.status)
  }

  /** Applying the same patch twice is the same as applying it once. */
  lemma PatchIdempotent(r: Row, p: Patch)
    ensures Patched(Patched(r, p), p) == Patched(r, p)
  {
  }

  /**
   * The two-column update is the partial update of a dict holding both keys;
   * with a key missing it differs from it by writing NULL.
   */
  lemma TwoColumnUpdateIsPatch(r: Row, updates: Patch)
    ensures updates.received.Some? && updates.status.Some? ==>
      TwoColumnUpdate(r, updates) == Patched(r, updates.(approvedBy := None))
    ensures updates.status.None? ==> TwoColumnUpdate(r, updates).status.None?
    ensures updates.received.None? ==> TwoColumnUpdate(r, updates).approvalsReceived.None?
  {
  }

  /** The keys of that dict, in order. */
  const FoundColumns: seq<string> := [
    "id", "amount", "expense_item", "expense_group", "partner", "period", "payment_method",
    "comment", "approvals_needed", "approvals_received", "status"]

  predicate DistinctKeys(d: Dict)
  {
    forall i, j :: 0 <= i < j < |d| ==> d[i].0 != d[j].0
  }

  /** `dict(zip(FoundColumns, row))` for the row with that id. */
  function Cells(id: nat, r: Row): (d: Dict)
    ensures |d| == |FoundColumns|
    ensures forall k :: 0 <= k < |d| ==> d[k].0 == FoundColumns[k]
  {
    [("id", Int(id)), ("amount", Text(r.amount)), ("expense_item", Text(r.expenseItem)),
     ("expense_group", Text(r.expenseGroup)), ("partner", Text(r.partner)),
     ("period", Text(r.period)), ("payment_method", Text(r.paymentMethod)),
     ("comment", Text(r.comment)), ("approvals_needed", Int(r.approvalsNeeded)),
     ("approvals_received", if r.approvalsReceived.Some? then Int(r.approvalsReceived.value) else Null),
     ("status", if r.status.Some? then Text(StatusText(r.status.value)) else Null)]
  }

  lemma {:induction false} LookupAt(d: Dict, k: nat)
    requires k < |d| && DistinctKeys(d)
    ensures Lookup(d, d[k].0) == Some(d[k].1)
  {
    if k > 0 {
      assert d[0].0 != d[k].0;
      assert d[1..][k - 1] == d[k];
      LookupAt(d[1..], k - 1);
    }
  }

  /** Every column of a row can be read back from the dict `find_by_id` builds. */
  lemma {:induction false} CellsRoundTrip(id: nat, r: Row)
    ensures Lookup(Cells(id, r), "id") == Some(Int(id))
    ensures Lookup(Cells(id, r), "amount") == Some(Text(r.amount))
    ensures Lookup(Cells(id, r), "expense_item") == Some(Text(r.expenseItem))
    ensures Lookup(Cells(id, r), "expense_group") == Some(Text(r.expenseGroup))
    ensures Lookup(Cells(id, r), "partner") == Some(Text(r.partner))
    ensures Lookup(Cells(id, r), "period") == Some(Text(r.period))
    ensures Lookup(Cells(id, r), "payment_method") == Some(Text(r.paymentMethod))
    ensures Lookup(Cells(id, r), "comment") == Some(Text(r.comment))
    ensures Lookup(Cells(id, r), "approvals_needed") == Some(Int(r.approvalsNeeded))
    ensures Lookup(Cells(id, r), "approvals_received")
         == Some(if r.approvalsReceived.Some? then Int(r.approvalsReceived.value) else Null)
    ensures Lookup(Cells(id, r), "status")
         == Some(if r.status.Some? then Text(StatusText(r.status.value)) else Null)
  {
    var d := Cells(id, r);
    assert DistinctKeys(d) by {
      forall i, j | 0 <= i < j < |d| ensures d[i].0 != d[j].0 {
        assert d[i].0 == FoundColumns[i] && d[j].0 == FoundColumns[j];
      }
    }
    LookupAt(d, 0); LookupAt(d, 1); LookupAt(d, 2); LookupAt(d, 3);
    LookupAt(d, 4); LookupAt(d, 5); LookupAt(d, 6); LookupAt(d, 7);
    LookupAt(d, 8); LookupAt(d, 9); LookupAt(d, 10);
  }

  /** Why an insertion or update raised. */
  datatype DbError =
    | AmountNotNumber   // float(record["amount"]) raised before anything was written
    | BindingFailure    // the values do not fit the INSERT's ten placeholders
    | StorageFailure    // the statement or the commit failed; the error is logged and re-raised

  /** The `approvals` table behind one `ApprovalDB` object. */
  class ApprovalDB {
    var rows: map<nat, Row>
    /** The id the next insertion receives (SQLite's next rowid). */
    var nextId: nat

    ghost predicate Valid()
      reads this
    {
      1 <= nextId && forall id :: id in rows ==> 1 <= id < nextId
    }

    constructor ()
      ensures Valid() && rows == map[]
    {
      rows, nextId := map[], 1;
    }

    /**
     * `insert_record`: derive approvals_needed from the amount, set the
     * counter to 0 and the status to Created in the caller's dict, then bind
     * the dict's values, in its own order, to the INSERT's placeholders and
     * return the new row's id. A failing statement leaves the table as it
     * was but the dict already completed.
     */
    method InsertRecord(record: Record, storageFails: bool) returns (r: Result<nat, DbError>)
      requires Valid()
      modifies this, record
      ensures Valid()
      ensures FloatOf(Lookup(old(record.entries), "amount")).None? ==>
        r == Err(AmountNotNumber) && rows == old(rows) && record.entries == old(record.entries)
      ensures FloatOf(Lookup(old(record.entries), "amount")).Some? ==>
        record.entries == Completed(old(record.entries),
                                    ApprovalsNeeded(FloatOf(Lookup(old(record.entries), "amount")).value))
      ensures FloatOf(Lookup(old(record.entries), "amount")).Some? && BindRow(Values(record.entries)).None? ==>
        r == Err(BindingFailure) && rows == old(rows)
      ensures FloatOf(Lookup(old(record.entries), "amount")).Some? && BindRow(Values(record.entries)).Some?
              && storageFails ==>
        r == Err(StorageFailure) && rows == old(rows)
      ensures FloatOf(Lookup(old(record.entries), "amount")).Some? && BindRow(Values(record.entries)).Some?
              && !storageFails ==>
        && r.Ok? && r.value !in old(rows)
        && rows == old(rows)[r.value := BindRow(Values(record.entries)).value]
      ensures StoredRow(old(record.entries)).None? || storageFails ==> r.Err? && rows == old(rows)
      ensures StoredRow(old(record.entries)).Some? && !storageFails ==>
        r.Ok? && r.value !in old(rows) && rows == old(rows)[r.value := StoredRow(old(record.entries)).value]
    {
      var amount := FloatOf(Lookup(record.entries, "amount"));
      if amount.None? {
        return Err(AmountNotNumber);
      }
      var needed := if amount.value < Threshold then 1 else 2;
      record.entries := SetKey(record.entries, "approvals_needed", Int(needed));
      record.entries := SetKey(record.entries, "approvals_received", Int(0));
      record.entries := SetKey(record.entries, "status", Text("Created"));
      var row := BindRow(Values(record.entries));
      if row.None? {
        return Err(BindingFailure);
      }
      if storageFails {
        return Err(StorageFailure);
      }
      var id := nextId;
      rows := rows[id := row.value];
      nextId := nextId + 1;
      r := Ok(id);
    }

    /**
     * `update_record`: set approvals_received and status of the row with that
     * id and nothing else; an absent id matches no row.
     */
    method UpdateRecord(id: nat, updates: Patch, storageFails: bool) returns (r: Result<(), DbError>)
      requires Valid()
      modifies this
      ensures Valid() && nextId == old(nextId)
      ensures storageFails ==> r == Err(StorageFailure) && rows == old(rows)
      ensures !storageFails ==> r == Ok(())
      ensures !storageFails ==>
        rows == if id in old(rows) then old(rows)[id := TwoColumnUpdate(old(rows)[id], updates)] else old(rows)
    {
      if storageFails {
        return Err(StorageFailure);
      }
      if id in rows {
        rows := rows[id := TwoColumnUpdate(rows[id], updates)];
      }
      r := Ok(());
    }

    /** `find_by_id`: the row as a dict of its 11 columns, or None when absent or on failure. */
    method FindById(id: nat, storageFails: bool) returns (r: Option<Dict>)
      ensures r.Some? <==> !storageFails && id in rows
      ensures r.Some? ==> r.value == Cells(id, rows[id])
    {
      if storageFails || id !in rows {
        return None;
      }
      r := Some(Cells(id, rows[id]));
    }

    /** `get_row_by_id`: the handlers pass the id as text, read as a decimal numeral. */
    method GetRowById(idText: string) returns (r: Option<Row>)
      ensures r.Some? <==> RowIdOf(idText) in rows
      ensures r.Some? ==> r.value == rows[RowIdOf(idText)]
    {
      var id := RowIdOf(idText);
      if id in rows {
        r := Some(rows[id]);
      } else {
        r := None;
      }
    }

    /** `update_row_by_id`: overwrite the columns the dict names, in that row only. */
    method UpdateRowById(idText: string, patch: Patch)
      requires Valid()
      modifies this
      ensures Valid() && nextId == old(nextId)
      ensures var id := RowIdOf(idText);
        rows == if id in old(rows) then old(rows)[id := Patched(old(rows)[id], patch)] else old(rows)
    {
      var id := RowIdOf(idText);
      if id in rows {
        rows := rows[id := Patched(rows[id], patch)];
      }
    }
  }

  /** Row ids are positive; text that is no numeral names the absent row 0. */
  function RowIdOf(idText: string): (id: nat)
    ensures Strings.ParseNat(idText).Some? ==> id == Strings.ParseNat(idText).value
  {
    match Strings.ParseNat(idText)
    case Some(n) => n
    case None => 0
  }

  /**
   * Insert then find: a record dict in column order is stored, and the dict
   * found under the returned id holds its seven values and the three derived
   * fields.
   */
  method InsertThenFind(db: ApprovalDB, amount: string, expenseItem: string, expenseGroup: string,
                        partner: string, period: string, paymentMethod: string, comment: string)
    returns (found: Option<Dict>)
    requires db.Valid() && Amounts.IsAmountText(amount)
    modifies db
    ensures db.Valid() && found.Some?
    ensures Lookup(found.value, "amount") == Some(Text(amount))
    ensures Lookup(found.value, "expense_item") == Some(Text(expenseItem))
    ensures Lookup(found.value, "expense_group") == Some(Text(expenseGroup))
    ensures Lookup(found.value, "partner") == Some(Text(partner))
    ensures Lookup(found.value, "period") == Some(Text(period))
    ensures Lookup(found.value, "payment_method") == Some(Text(paymentMethod))
    ensures Lookup(found.value, "comment") == Some(Text(comment))
    ensures Lookup(found.value, "approvals_needed") == Some(Int(ApprovalsNeeded(Amounts.AmountValue(amount))))
    ensures Lookup(found.value, "approvals_received") == Some(Int(0))
    ensures Lookup(found.value, "status") == Some(Text("Created"))
  {
    var entries := ColumnEntries(amount, expenseItem, expenseGroup, partner, period, paymentMethod, comment);
    ColumnEntriesStored(amount, expenseItem, expenseGroup, partner, period, paymentMethod, comment);
    var record := new Record(entries);
    var r := db.InsertRecord(record, false);
    found := db.FindById(r.value, false);
    CellsRoundTrip(r.value, db.rows[r.value]);
  }

  /** A dict holding the seven data columns in order is stored as they are, with the derived fields. */
  lemma ColumnEntriesStored(amount: string, expenseItem: string, expenseGroup: string, partner: string,
                            period: string, paymentMethod: string, comment: string)
    requires Amounts.IsAmountText(amount)
    ensures StoredRow(ColumnEntries(amount, expenseItem, expenseGroup, partner, period, paymentMethod, comment))
         == Some(Row(amount, expenseItem, expenseGroup, partner, period, paymentMethod, comment,
                     ApprovalsNeeded(Amounts.AmountValue(amount)), Some(0), Some(Created), None))
  {
    var d := ColumnEntries(amount, expenseItem, expenseGroup, partner, period, paymentMethod, comment);
    assert Lookup(d, "amount") == Some(Text(amount));
    CompletedInColumnOrder(d, ApprovalsNeeded(Amounts.AmountValue(amount)));
  }
}
