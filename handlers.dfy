/**
 * The bot's command and button handlers as methods of one `Bot` object that
 * owns the ledger, the routing table and the list of messages it sent. Each
 * handler is one atomic step; what it writes and sends is stated by the pure
 * functions below, about which the lemmas speak.
 */
module Handlers {
  import opened Wrappers
  import opened Strings
  import opened Approval
  import opened Ledger
  import Callback
  import Amounts

  /** Where a message goes: a department chat, the requester's chat, or back to the clicking user. */
  datatype Recipient = Chat(id: int) | Initiator(chat: string) | Caller

  /** The kinds of plain answers and message edits the handlers produce. */
  datatype Reply =
    | NeedRecordData | InsertFailed
    | NeedId | OnlyOneId | RecordNotFound | RecordRejected(id: string)
    | CallbackFailed | MarkedPaid(id: string)
    | ForwardedToFinance | ReadyToPay | RejectedByFinance(id: string) | RejectedByHead(id: string)

  /** A message, reduced to what it is about and the callback data of its buttons. */
  datatype Note =
    | ApprovalRequest(id: string, approve: string, reject: string)
    | PaymentRequest(id: string, pay: string)
    | RejectionNotice(id: string)
    | Answer(reply: Reply)

  datatype Message = Message(to: Recipient, note: Note)

  /** The seven fields of a submission. */
  datatype Submission = Submission(
    amount: string, expenseItem: string, expenseGroup: string, partner: string,
    comment: string, period: string, paymentMethod: string)

  /**
   * `submit_record_command`'s record dict as written: eleven keys, comment
   * ahead of period and payment_method, and an `approved_by` key the INSERT
   * has no placeholder for.
   */
  function SubmittedEntries(s: Submission, needed: int): (d: Dict)
    ensures |d| == |InsertColumns| + 1
  {
    [("amount", Text(s.amount)), ("expense_item", Text(s.expenseItem)), ("expense_group", Text(s.expenseGroup)),
     ("partner", Text(s.partner)), ("comment", Text(s.comment)), ("period", Text(s.period)),
     ("payment_method", Text(s.paymentMethod)), ("approvals_needed", Int(needed)),
     ("approvals_received", Int(0)), ("status", Text("Not processed")), ("approved_by", Null)]
  }

  /** The same dict with its keys in the INSERT's column order and without `approved_by`. */
  function SubmittedEntriesFixed(s: Submission, needed: int): (d: Dict)
    ensures InColumnOrder(d)
  {
    ColumnEntries(s.amount, s.expenseItem, s.expenseGroup, s.partner, s.period, s.paymentMethod, s.comment)
      + [("approvals_needed", Int(needed)), ("approvals_received", Int(0)), ("status", Text("Not processed"))]
  }

  /** The row a submission is meant to create. */
  function SubmittedRow(s: Submission, needed: int): Row
  {
    Row(s.amount, s.expenseItem, s.expenseGroup, s.partner, s.period, s.paymentMethod, s.comment,
        needed, Some(0), Some(Created), None)
  }

  /**
   * As written the dict never binds: `insert_record` sets its three keys in
   * place, which leaves eleven values for ten placeholders. Without the
   * extra key the comment would still be bound to the period column.
   */
  lemma SubmittedEntriesDoNotBind(s: Submission, needed: int)
    requires Amounts.IsAmountText(s.amount)
    ensures StoredRow(SubmittedEntries(s, needed)).None?
    ensures var vs := Values(Completed(SubmittedEntries(s, needed), ApprovalsNeeded(Amounts.AmountValue(s.amount))));
      |vs| > |InsertColumns| && InsertColumns[4] == "period" && vs[4] == Text(s.comment)
  {
    var d := SubmittedEntries(s, needed);
    var n := ApprovalsNeeded(Amounts.AmountValue(s.amount));
    assert Lookup(d, "amount") == Some(Text(s.amount));
    CompletedKeeps(d, n, 4);
  }

  /** The corrected dict binds, and the stored row is the submission's. */
  lemma SubmittedEntriesFixedBind(s: Submission, needed: int)
    requires Amounts.IsAmountText(s.amount)
    ensures StoredRow(SubmittedEntriesFixed(s, needed))
         == Some(SubmittedRow(s, ApprovalsNeeded(Amounts.AmountValue(s.amount))))
  {
    var d := SubmittedEntriesFixed(s, needed);
    assert Lookup(d, "amount") == Some(Text(s.amount));
    CompletedInColumnOrder(d, ApprovalsNeeded(Amounts.AmountValue(s.amount)));
  }

  /** `create_and_send_approval_message`'s two buttons for `department`. */
  function ApprovalRequestFor(department: string, id: string, initiator: string): Note
  {
    ApprovalRequest(id, Callback.EncodeApproval(department, "approve", id, initiator),
                        Callback.EncodeApproval(department, "reject", id, initiator))
  }

  /** `send_message_to_chats`: the same note to every chat, in order. */
  function ToChats(chats: seq<int>, note: Note): (ms: seq<Message>)
    ensures |ms| == |chats|
    ensures forall k :: 0 <= k < |chats| ==> ms[k] == Message(Chat(chats[k]), note)
  {
    seq(|chats|, k requires 0 <= k < |chats| => Message(Chat(chats[k]), note))
  }

  /** `approved_by_data`: the stored approver list with the new approver appended, if it was non-empty. */
  function ApproverList(previous: Option<string>, user: string): (r: string)
    ensures previous.None? || previous.value == "" ==> r == user
  {
    if previous.Some? && previous.value != "" then previous.value + " " + user else user
  }

  /** Read as a space-separated list, a stored approver list grows by exactly the new approver. */
  lemma ApproverListGrows(previous: string, user: string)
    requires previous != "" && ' ' !in user
    ensures Split(ApproverList(Some(previous), user), ' ') == Split(previous, ' ') + [user]
  {
    assert ApproverList(Some(previous), user) == previous + [' '] + user;
    SplitAppend(previous, user, ' ');
    SplitNoSeparator(user, ' ');
  }

  /** The approved_by write that precedes every decision: only when a list was stored. */
  function WithApprover(row: Row, user: string): (r: Row)
  {
    if row.approvedBy.Some? && row.approvedBy.value != "" then
      row.(approvedBy := Some(ApproverList(row.approvedBy, user)))
    else row
  }

  /** The update dict a decision writes. */
  function PatchOf(d: Decision): Patch
  {
    Patch(Some(d.received), Some(d.status), d.approvedBy)
  }

  /** The table after `outcome` is applied to the row named `idText`. */
  function RowsAfter(rows: map<nat, Row>, idText: string, outcome: Outcome): (r: map<nat, Row>)
    ensures r.Keys == rows.Keys
  {
    var id := RowIdOf(idText);
    if outcome.Write? && id in rows then rows[id := Patched(rows[id], PatchOf(outcome.decision))] else rows
  }

  /** The decision a decoded click leads to, for a request row. */
  function DecisionFor(c: Callback.ApprovalData, row: Row, username: string): Outcome
  {
    Decide(c.department, c.action, Amounts.PyFloat(row.amount), ApproverList(row.approvedBy, "@" + username))
  }

  /** The table after `process_approval` handled the click `data` by `username`. */
  function ApprovalRows(rows: map<nat, Row>, data: string, username: string): (r: map<nat, Row>)
    ensures r.Keys == rows.Keys
    ensures Callback.DecodeApproval(data).None? ==> r == rows
  {
    match Callback.DecodeApproval(data)
    case None => rows
    case Some(c) =>
      var id := RowIdOf(c.id);
      if id !in rows then rows
      else RowsAfter(rows[id := WithApprover(rows[id], "@" + username)], c.id, DecisionFor(c, rows[id], username))
  }

  /** A click never changes what a request asks for: only the counter, status and approver list move. */
  lemma ClickKeepsRequest(rows: map<nat, Row>, data: string, username: string, id: nat)
    requires id in rows
    ensures id in ApprovalRows(rows, data, username)
    ensures SameRequest(rows[id], ApprovalRows(rows, data, username)[id])
  {
  }

  /** The messages a decision sends. */
  function DecisionMessages(c: Callback.ApprovalData, users: string, outcome: Outcome, routing: Routing)
    : (ms: seq<Message>)
    ensures forall k :: 0 <= k < |ms| && ms[k].to.Initiator? ==> ms[k].to.chat == c.initiator
    ensures !outcome.Write? ==> ms == []
  {
    match outcome
    case Write(d) =>
      (match d.notice
       case AskFinance =>
         [Message(Caller, Answer(ForwardedToFinance))]
           + ToChats(routing.finance, ApprovalRequestFor("finance", c.id, c.initiator))
       case PromptPayers =>
         [Message(Caller, Answer(ReadyToPay))]
           + ToChats(routing.payers, PaymentRequest(c.id, Callback.EncodePay(c.id)))
       case TellInitiator =>
         if c.department == "finance" then
           // the notice names approved_by[1], which exists only when the list holds ", "
           [Message(Caller, Answer(RejectedByFinance(c.id)))]
             + (if FirstField(users, ", ") != users then [Message(Initiator(c.initiator), RejectionNotice(c.id))] else [])
         else
           [Message(Caller, Answer(RejectedByHead(c.id))), Message(Initiator(c.initiator), RejectionNotice(c.id))])
    case _ => []
  }

  /** The messages `process_approval` sends for the click `data` by `username`. */
  function ApprovalMessages(rows: map<nat, Row>, data: string, username: string, routing: Routing)
    : (ms: seq<Message>)
    ensures Callback.DecodeApproval(data).None? ==> ms == []
    ensures forall k :: 0 <= k < |ms| && ms[k].to.Initiator? ==>
      ms[k].to.chat == Callback.DecodeApproval(data).value.initiator
  {
    match Callback.DecodeApproval(data)
    case None => []
    case Some(c) =>
      var id := RowIdOf(c.id);
      if id !in rows then [Message(Caller, Answer(RecordNotFound))]
      else DecisionMessages(c, ApproverList(rows[id].approvedBy, "@" + username), DecisionFor(c, rows[id], username), routing)
  }

  /** The table after `process_pay` handled the click `data`. */
  function PayRows(rows: map<nat, Row>, data: string): (r: map<nat, Row>)
    ensures r.Keys == rows.Keys
    ensures forall id :: id in rows ==> SameRequest(rows[id], r[id])
    ensures Callback.DecodePay(data).Some? && RowIdOf(Callback.DecodePay(data).value) in rows ==>
      r[RowIdOf(Callback.DecodePay(data).value)].status == Some(Paid)
  {
    match Callback.DecodePay(data)
    case None => rows
    case Some(idText) =>
      var id := RowIdOf(idText);
      if id in rows then rows[id := Patched(rows[id], Patch(None, Some(Paid), None))] else rows
  }

  /** The table after `/reject_record` with arguments `args`. */
  function RejectCommandRows(rows: map<nat, Row>, args: seq<string>): (r: map<nat, Row>)
    ensures r.Keys == rows.Keys
    ensures forall id :: id in rows ==> SameRequest(rows[id], r[id])
    ensures |args| != 1 ==> r == rows
    ensures |args| == 1 && RowIdOf(args[0]) in rows ==> r[RowIdOf(args[0])].status == Some(Rejected)
  {
    if |args| != 1 then rows
    else
      var id := RowIdOf(args[0]);
      if id in rows then rows[id := Patched(rows[id], Patch(None, Some(Rejected), None))] else rows
  }

  /**
   * The decision never consults the current status: two tables that differ
   * only in the clicked row's status lead to the same messages, and, when the
   * click writes, to the same table.
   */
  lemma StatusNeverConsulted(rows: map<nat, Row>, data: string, username: string, status: Option<Status>, routing: Routing)
    requires Callback.DecodeApproval(data).Some?
    requires RowIdOf(Callback.DecodeApproval(data).value.id) in rows
    ensures var id := RowIdOf(Callback.DecodeApproval(data).value.id);
      var rows' := rows[id := rows[id].(status := status)];
      && ApprovalMessages(rows', data, username, routing) == ApprovalMessages(rows, data, username, routing)
      && (DecisionFor(Callback.DecodeApproval(data).value, rows[id], username).Write? ==>
            ApprovalRows(rows', data, username) == ApprovalRows(rows, data, username))
  {
    var c := Callback.DecodeApproval(data).value;
    var id := RowIdOf(c.id);
    var rows' := rows[id := rows[id].(status := status)];
    assert DecisionFor(c, rows'[id], username) == DecisionFor(c, rows[id], username);
    if DecisionFor(c, rows[id], username).Write? {
      var d := DecisionFor(c, rows[id], username).decision;
      assert Patched(WithApprover(rows'[id], "@" + username), PatchOf(d))
          == Patched(WithApprover(rows[id], "@" + username), PatchOf(d));
    }
  }

  /**
   * A click changes at most the clicked row: the same ids stay in the table
   * and every other row is left as it was.
   */
  lemma OnlyClickedRowChanges(rows: map<nat, Row>, data: string, username: string, k: nat)
    requires k in rows
    requires Callback.DecodeApproval(data).Some? ==> k != RowIdOf(Callback.DecodeApproval(data).value.id)
    ensures ApprovalRows(rows, data, username).Keys == rows.Keys
    ensures ApprovalRows(rows, data, username)[k] == rows[k]
  {
  }

  /**
   * `approved_by` grows by one " @username" entry when a list was stored
   * (unless a finance rejection then keeps only its first entry), and is left
   * as it was when none was.
   */
  lemma ApproverAppended(rows: map<nat, Row>, data: string, username: string)
    requires Callback.DecodeApproval(data).Some?
    requires RowIdOf(Callback.DecodeApproval(data).value.id) in rows
    requires var c := Callback.DecodeApproval(data).value; !(c.department == "finance" && c.action == "reject")
    ensures var id := RowIdOf(Callback.DecodeApproval(data).value.id);
      var before := rows[id].approvedBy;
      ApprovalRows(rows, data, username)[id].approvedBy ==
        if before.Some? && before.value != "" then Some(before.value + " @" + username) else before
  {
    var c := Callback.DecodeApproval(data).value;
    var id := RowIdOf(c.id);
    var before := rows[id].approvedBy;
    if before.Some? && before.value != "" {
      assert before.value + " " + ("@" + username) == before.value + " @" + username;
    }
  }

  /**
   * A request below the threshold approved by the head department is payable
   * with one approval, the payers get its pay button, and that button marks
   * it Paid.
   */
  lemma SmallRequestEndToEnd(rows: map<nat, Row>, id: nat, chat: int, username: string, routing: Routing)
    requires id in rows && Amounts.IsAmountText(rows[id].amount)
    requires Amounts.AmountValue(rows[id].amount) < Threshold
    ensures var data := Callback.EncodeApproval("head", "approve", NatToString(id), IntToString(chat));
      var approved := ApprovalRows(rows, data, username);
      && approved[id].status == Some(Approved) && approved[id].approvalsReceived == Some(1)
      && ApprovalMessages(rows, data, username, routing)
         == [Message(Caller, Answer(ReadyToPay))]
            + ToChats(routing.payers, PaymentRequest(NatToString(id), Callback.EncodePay(NatToString(id))))
      && PayRows(approved, Callback.EncodePay(NatToString(id)))[id].status == Some(Paid)
  {
    var idText := NatToString(id);
    var data := Callback.EncodeApproval("head", "approve", idText, IntToString(chat));
    NamesHoldNoSeparator();
    Callback.PrintedIdsRoundTrip("head", "approve", id, chat);
    var c := Callback.ApprovalData("head", "approve", idText, IntToString(chat));
    assert Callback.DecodeApproval(data) == Some(c);
    assert RowIdOf(idText) == id;
    var o := DecisionFor(c, rows[id], username);
    assert o == Write(Decision(1, Approved, None, PromptPayers));
    var approved := ApprovalRows(rows, data, username);
    assert approved[id] == Patched(WithApprover(rows[id], "@" + username), PatchOf(o.decision));
    assert Callback.DecodePay(Callback.EncodePay(idText)) == Some(idText);
  }

  /**
   * A request at or above the threshold goes from the head department to
   * finance (Pending, one approval, finance gets approval buttons for it); a
   * finance approval then makes it payable with two approvals, a finance
   * rejection rejects it keeping one.
   */
  lemma LargeRequestEndToEnd(rows: map<nat, Row>, id: nat, chat: int, head: string, cfo: string)
    requires id in rows && Amounts.IsAmountText(rows[id].amount)
    requires Amounts.AmountValue(rows[id].amount) >= Threshold
    ensures var idText, init := NatToString(id), IntToString(chat);
      var pending := ApprovalRows(rows, Callback.EncodeApproval("head", "approve", idText, init), head);
      var approved := ApprovalRows(pending, Callback.EncodeApproval("finance", "approve", idText, init), cfo);
      var rejected := ApprovalRows(pending, Callback.EncodeApproval("finance", "reject", idText, init), cfo);
      && pending[id].status == Some(Pending) && pending[id].approvalsReceived == Some(1)
      && approved[id].status == Some(Approved) && approved[id].approvalsReceived == Some(2)
      && rejected[id].status == Some(Rejected) && rejected[id].approvalsReceived == Some(1)
  {
    var idText, init := NatToString(id), IntToString(chat);
    HeadApprovalPends(rows, id, chat, head);
    var pending := ApprovalRows(rows, Callback.EncodeApproval("head", "approve", idText, init), head);
    FinanceApproves(pending, id, chat, cfo);
    FinanceRejects(pending, id, chat, cfo);
  }

  lemma HeadApprovalPends(rows: map<nat, Row>, id: nat, chat: int, head: string)
    requires id in rows && Amounts.IsAmountText(rows[id].amount)
    requires Amounts.AmountValue(rows[id].amount) >= Threshold
    ensures var pending := ApprovalRows(rows, Callback.EncodeApproval("head", "approve", NatToString(id), IntToString(chat)), head);
      && id in pending
      && pending[id].status == Some(Pending) && pending[id].approvalsReceived == Some(1)
  {
    NamesHoldNoSeparator();
    HeadApprovalRoutesByTier(Amounts.AmountValue(rows[id].amount), ApproverList(rows[id].approvedBy, "@" + head));
    ClickWrites(rows, id, chat, "head", "approve", head, Decision(1, Pending, None, AskFinance));
  }

  lemma FinanceApproves(rows: map<nat, Row>, id: nat, chat: int, cfo: string)
    requires id in rows
    ensures var approved := ApprovalRows(rows, Callback.EncodeApproval("finance", "approve", NatToString(id), IntToString(chat)), cfo);
      id in approved && approved[id].status == Some(Approved) && approved[id].approvalsReceived == Some(2)
  {
    NamesHoldNoSeparator();
    FinanceApprovalDecides(Amounts.PyFloat(rows[id].amount), ApproverList(rows[id].approvedBy, "@" + cfo));
    ClickWrites(rows, id, chat, "finance", "approve", cfo, Decision(2, Approved, None, PromptPayers));
  }

  lemma FinanceRejects(rows: map<nat, Row>, id: nat, chat: int, cfo: string)
    requires id in rows
    ensures var rejected := ApprovalRows(rows, Callback.EncodeApproval("finance", "reject", NatToString(id), IntToString(chat)), cfo);
      id in rejected && rejected[id].status == Some(Rejected) && rejected[id].approvalsReceived == Some(1)
  {
    var users := ApproverList(rows[id].approvedBy, "@" + cfo);
    NamesHoldNoSeparator();
    FinanceRejectionDecides(Amounts.PyFloat(rows[id].amount), users);
    ClickWrites(rows, id, chat, "finance", "reject", cfo, Decision(1, Rejected, Some(FirstField(users, ", ")), TellInitiator));
  }

  /** The department and action names the buttons carry hold no separator. */
  lemma NamesHoldNoSeparator()
    ensures '_' !in "head" && '_' !in "finance" && '_' !in "approve" && '_' !in "reject"
  {
  }

  /** A click on a printed id's button that leads to a write patches that row with the decision. */
  lemma ClickWrites(rows: map<nat, Row>, id: nat, chat: int, department: string, action: string, username: string,
                    d: Decision)
    requires id in rows && '_' !in department && '_' !in action
    requires Decide(department, action, Amounts.PyFloat(rows[id].amount), ApproverList(rows[id].approvedBy, "@" + username))
          == Write(d)
    ensures var after := ApprovalRows(rows, Callback.EncodeApproval(department, action, NatToString(id), IntToString(chat)), username);
      && id in after
      && after[id] == Patched(WithApprover(rows[id], "@" + username), PatchOf(d))
      && after[id].status == Some(d.status) && after[id].approvalsReceived == Some(d.received)
  {
    Callback.PrintedIdsRoundTrip(department, action, id, chat);
    assert RowIdOf(NatToString(id)) == id;
  }

  /**
   * There is no terminal state: a head rejection of a request that is
   * already Paid still rejects it and resets the counter.
   */
  lemma PaidRequestCanStillBeRejected(rows: map<nat, Row>, id: nat, chat: int, username: string)
    requires id in rows && rows[id].status == Some(Paid)
    ensures var after := ApprovalRows(rows, Callback.EncodeApproval("head", "reject", NatToString(id), IntToString(chat)), username);
      after[id].status == Some(Rejected) && after[id].approvalsReceived == Some(0)
  {
    NamesHoldNoSeparator();
    Callback.PrintedIdsRoundTrip("head", "reject", id, chat);
    assert RowIdOf(NatToString(id)) == id;
  }

  /** `process_pay` changes nothing but the status of an existing row, to Paid. */
  lemma PayOnlySetsStatus(rows: map<nat, Row>, data: string)
    ensures PayRows(rows, data).Keys == rows.Keys
    ensures forall k :: k in rows ==>
      PayRows(rows, data)[k] == rows[k]
      || (Callback.DecodePay(data).Some? && k == RowIdOf(Callback.DecodePay(data).value)
          && PayRows(rows, data)[k] == rows[k].(status := Some(Paid)))
  {
  }

  /** `/reject_record` changes nothing but the status of the one named, existing row. */
  lemma RejectCommandOnlySetsStatus(rows: map<nat, Row>, args: seq<string>)
    ensures RejectCommandRows(rows, args).Keys == rows.Keys
    ensures |args| != 1 ==> RejectCommandRows(rows, args) == rows
    ensures forall k :: k in rows ==>
      RejectCommandRows(rows, args)[k] == rows[k]
      || (|args| == 1 && k == RowIdOf(args[0]) && RejectCommandRows(rows, args)[k] == rows[k].(status := Some(Rejected)))
  {
  }

  class Bot {
    const db: ApprovalDB
    const routing: Routing
    /** Every message sent, in order. */
    var outbox: seq<Message>
    /** Every record handed to the spreadsheet export, in order. */
    var exported: seq<Row>

    ghost predicate Valid()
      reads this, db
    {
      db.Valid()
    }

    constructor (db: ApprovalDB, routing: Routing)
      requires db.Valid()
      ensures Valid() && this.db == db && this.routing == routing
      ensures outbox == [] && exported == []
    {
      this.db, this.routing := db, routing;
      outbox, exported := [], [];
    }

    /** `send_message_to_chats`: one message per chat, in the order of the chat list. */
    method SendToChats(chats: seq<int>, note: Note)
      modifies this
      ensures outbox == old(outbox) + ToChats(chats, note)
      ensures exported == old(exported)
    {
      var i := 0;
      while i < |chats|
        invariant 0 <= i <= |chats|
        invariant outbox == old(outbox) + ToChats(chats[..i], note)
        invariant exported == old(exported)
      {
        assert ToChats(chats[..i + 1], note) == ToChats(chats[..i], note) + [Message(Chat(chats[i]), note)];
        outbox := outbox + [Message(Chat(chats[i]), note)];
        i := i + 1;
      }
      assert chats[..i] == chats;
    }

    /**
     * The tail of `submit_record_command`: insert the record dict; if that
     * raises, answer the error and stop; otherwise ask the head department
     * to approve the new row.
     */
    method StoreAndAsk(entries: Dict, initiatorChat: int, storageFails: bool) returns (id: Option<nat>)
      requires Valid()
      modifies this, db
      ensures Valid() && exported == old(exported)
      ensures StoredRow(entries).None? || storageFails ==>
        id.None? && db.rows == old(db.rows) && outbox == old(outbox) + [Message(Caller, Answer(InsertFailed))]
      ensures StoredRow(entries).Some? && !storageFails ==>
        && id.Some? && id.value !in old(db.rows)
        && db.rows == old(db.rows)[id.value := StoredRow(entries).value]
        && outbox == old(outbox) + ToChats(routing.head,
             ApprovalRequestFor("head", NatToString(id.value), IntToString(initiatorChat)))
    {
      var record := new Record(entries);
      var r := db.InsertRecord(record, storageFails);
      if r.Err? {
        outbox := outbox + [Message(Caller, Answer(InsertFailed))];
        return None;
      }
      id := Some(r.value);
      SendToChats(routing.head, ApprovalRequestFor("head", NatToString(r.value), IntToString(initiatorChat)));
    }

    /**
     * `submit_record_command` as written, on already parsed fields (None: no
     * arguments). Its record dict never binds to the INSERT, so an accepted
     * amount always ends in the error answer and no row is stored.
     */
    method SubmitRecord(submission: Option<Submission>, initiatorChat: int, storageFails: bool) returns (id: Option<nat>)
      requires Valid()
      modifies this, db
      ensures Valid() && exported == old(exported) && id.None? && db.rows == old(db.rows)
      ensures submission.None? ==> outbox == old(outbox) + [Message(Caller, Answer(NeedRecordData))]
      ensures submission.Some? && !Amounts.IsAmountText(submission.value.amount) ==> outbox == old(outbox)
      ensures submission.Some? && Amounts.IsAmountText(submission.value.amount) ==>
        outbox == old(outbox) + [Message(Caller, Answer(InsertFailed))]
    {
      if submission.None? {
        outbox := outbox + [Message(Caller, Answer(NeedRecordData))];
        return None;
      }
      var s := submission.value;
      var amount := Amounts.PyFloat(s.amount);
      if amount.None? {
        // float() raises before the record dict exists; the error handler takes over
        return None;
      }
      var needed := if amount.value < Threshold then 1 else 2;
      SubmittedEntriesDoNotBind(s, needed);
      id := StoreAndAsk(SubmittedEntries(s, needed), initiatorChat, storageFails);
    }

    /**
     * `submit_record_command` with its record dict in the INSERT's column
     * order: the new row holds the seven fields where they belong, the
     * derived counters and status Created, and the head department is asked.
     */
    method SubmitRecordFixed(submission: Option<Submission>, initiatorChat: int, storageFails: bool)
      returns (id: Option<nat>)
      requires Valid()
      modifies this, db
      ensures Valid() && exported == old(exported)
      ensures submission.None? ==>
        && id.None? && db.rows == old(db.rows)
        && outbox == old(outbox) + [Message(Caller, Answer(NeedRecordData))]
      ensures submission.Some? && !Amounts.IsAmountText(submission.value.amount) ==>
        id.None? && db.rows == old(db.rows) && outbox == old(outbox)
      ensures submission.Some? && Amounts.IsAmountText(submission.value.amount) && storageFails ==>
        id.None? && db.rows == old(db.rows) && outbox == old(outbox) + [Message(Caller, Answer(InsertFailed))]
      ensures submission.Some? && Amounts.IsAmountText(submission.value.amount) && !storageFails ==>
        && id.Some? && id.value !in old(db.rows)
        && db.rows == old(db.rows)[id.value :=
             SubmittedRow(submission.value, ApprovalsNeeded(Amounts.AmountValue(submission.value.amount)))]
        && outbox == old(outbox) + ToChats(routing.head,
             ApprovalRequestFor("head", NatToString(id.value), IntToString(initiatorChat)))
    {
      if submission.None? {
        outbox := outbox + [Message(Caller, Answer(NeedRecordData))];
        return None;
      }
      var s := submission.value;
      var amount := Amounts.PyFloat(s.amount);
      if amount.None? {
        return None;
      }
      var needed := if amount.value < Threshold then 1 else 2;
      SubmittedEntriesFixedBind(s, needed);
      id := StoreAndAsk(SubmittedEntriesFixed(s, needed), initiatorChat, storageFails);
    }

    /** `reject_record_command`: exactly one id; an unknown row is reported, a known one gets status Rejected. */
    method RejectRecordCommand(args: seq<string>)
      requires Valid()
      modifies this, db
      ensures Valid() && exported == old(exported)
      ensures db.rows == RejectCommandRows(old(db.rows), args)
      ensures |args| == 0 ==> outbox == old(outbox) + [Message(Caller, Answer(NeedId))]
      ensures |args| > 1 ==> outbox == old(outbox) + [Message(Caller, Answer(OnlyOneId))]
      ensures |args| == 1 ==> outbox == old(outbox) + [Message(Caller, Answer(
        if RowIdOf(args[0]) in old(db.rows) then RecordRejected(args[0]) else RecordNotFound))]
    {
      if |args| == 0 {
        outbox := outbox + [Message(Caller, Answer(NeedId))];
        return;
      }
      if |args| > 1 {
        outbox := outbox + [Message(Caller, Answer(OnlyOneId))];
        return;
      }
      var rowId := args[0];
      var result := db.GetRowById(rowId);
      if result.None? {
        outbox := outbox + [Message(Caller, Answer(RecordNotFound))];
        return;
      }
      db.UpdateRowById(rowId, Patch(None, Some(Rejected), None));
      outbox := outbox + [Message(Caller, Answer(RecordRejected(rowId)))];
    }

    /**
     * `process_pay`: mark the row Paid and hand the record, as read before
     * the update, to the spreadsheet export.
     */
    method ProcessPay(data: string)
      requires Valid()
      modifies this, db
      ensures Valid()
      ensures db.rows == PayRows(old(db.rows), data)
      ensures match Callback.DecodePay(data)
        case None => outbox == old(outbox) + [Message(Caller, Answer(CallbackFailed))] && exported == old(exported)
        case Some(idText) =>
          if RowIdOf(idText) in old(db.rows) then
            outbox == old(outbox) + [Message(Caller, Answer(MarkedPaid(idText)))]
            && exported == old(exported) + [old(db.rows)[RowIdOf(idText)]]
          else
            outbox == old(outbox) + [Message(Caller, Answer(RecordNotFound))] && exported == old(exported)
    {
      var approvalId := Callback.DecodePay(data);
      if approvalId.None? {
        outbox := outbox + [Message(Caller, Answer(CallbackFailed))];
        return;
      }
      var record := db.GetRowById(approvalId.value);
      if record.None? {
        outbox := outbox + [Message(Caller, Answer(RecordNotFound))];
        return;
      }
      db.UpdateRowById(approvalId.value, Patch(None, Some(Paid), None));
      outbox := outbox + [Message(Caller, Answer(MarkedPaid(approvalId.value)))];
      exported := exported + [record.value];
    }

    /** `reject_payment`: finance keeps one approval and the first listed approver; others reset to 0. */
    method RejectPayment(c: Callback.ApprovalData, users: string)
      requires Valid()
      modifies this, db
      ensures Valid() && exported == old(exported)
      ensures db.rows == RowsAfter(old(db.rows), c.id, Decide(c.department, "reject", None, users))
      ensures outbox == old(outbox) + DecisionMessages(c, users, Decide(c.department, "reject", None, users), routing)
    {
      if c.department == "finance" {
        var approvedBy := FirstField(users, ", ");
        db.UpdateRowById(c.id, Patch(Some(1), Some(Rejected), Some(approvedBy)));
        outbox := outbox + [Message(Caller, Answer(RejectedByFinance(c.id)))];
        if approvedBy != users {
          outbox := outbox + [Message(Initiator(c.initiator), RejectionNotice(c.id))];
        }
        // otherwise approved_by[1] raises after the write, and nothing more is sent
      } else {
        db.UpdateRowById(c.id, Patch(Some(0), Some(Rejected), None));
        outbox := outbox + [Message(Caller, Answer(RejectedByHead(c.id))), Message(Initiator(c.initiator), RejectionNotice(c.id))];
      }
    }

    /** `approve_payment`: head approval branches on the amount; finance approval completes the request. */
    method ApprovePayment(c: Callback.ApprovalData, users: string, amountText: string)
      requires Valid()
      modifies this, db
      ensures Valid() && exported == old(exported)
      ensures var o := Decide(c.department, "approve", Amounts.PyFloat(amountText), users);
        db.rows == RowsAfter(old(db.rows), c.id, o) && outbox == old(outbox) + DecisionMessages(c, users, o, routing)
    {
      if c.department == "head" {
        var amount := Amounts.PyFloat(amountText);
        if amount.None? {
          return;
        }
        if amount.value >= Threshold {
          db.UpdateRowById(c.id, Patch(Some(1), Some(Pending), None));
          outbox := outbox + [Message(Caller, Answer(ForwardedToFinance))];
          SendToChats(routing.finance, ApprovalRequestFor("finance", c.id, c.initiator));
        } else {
          db.UpdateRowById(c.id, Patch(Some(1), Some(Approved), None));
          outbox := outbox + [Message(Caller, Answer(ReadyToPay))];
          SendToChats(routing.payers, PaymentRequest(c.id, Callback.EncodePay(c.id)));
        }
      } else if c.department == "finance" {
        db.UpdateRowById(c.id, Patch(Some(2), Some(Approved), None));
        outbox := outbox + [Message(Caller, Answer(ReadyToPay))];
        SendToChats(routing.payers, PaymentRequest(c.id, Callback.EncodePay(c.id)));
      }
    }

    /**
     * `process_approval` with `handle_head_approval`: decode the click, record
     * the approver, then reject or approve. The current status is never read.
     */
    method ProcessApproval(data: string, username: string)
      requires Valid()
      modifies this, db
      ensures Valid() && exported == old(exported)
      ensures db.rows == ApprovalRows(old(db.rows), data, username)
      ensures outbox == old(outbox) + ApprovalMessages(old(db.rows), data, username, routing)
    {
      var decoded := Callback.DecodeApproval(data);
      if decoded.None? {
        // the split or the unpacking raised; the handler re-raises
        return;
      }
      var c := decoded.value;
      var user := "@" + username;
      var record := db.GetRowById(c.id);
      if record.None? {
        outbox := outbox + [Message(Caller, Answer(RecordNotFound))];
        return;
      }
      var row := record.value;
      var users;
      if row.approvedBy.Some? && row.approvedBy.value != "" {
        users := row.approvedBy.value + " " + user;
        db.UpdateRowById(c.id, Patch(None, None, Some(users)));
      } else {
        users := user;
      }
      assert users == ApproverList(row.approvedBy, user);
      if c.action == "reject" {
        RejectPayment(c, users);
      } else if c.action == "approve" {
        ApprovePayment(c, users, row.amount);
      }
    }
  }
}
