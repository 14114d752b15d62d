/**
 * The approval rules of the expense bot, free of Telegram and storage: the
 * request statuses, the tier threshold, the department routing table and the
 * decision an approve or reject click leads to.
 */
module Approval {
  import opened Wrappers
  import Strings

  /**
   * The statuses a request row can carry. `NotProcessed` is what the submit
   * handler writes into its record; the insertion overwrites it with `Created`.
   */
  datatype Status = NotProcessed | Created | Pending | Approved | Rejected | Paid

  /** The text stored in the `status` column. */
  function StatusText(s: Status): string
  {
    match s
    case NotProcessed => "Not processed"
    case Created => "Created"
    case Pending => "Pending"
    case Approved => "Approved"
    case Rejected => "Rejected"
    case Paid => "Paid"
  }

  /** Reads a `status` column back; text that is no status gives None. */
  function ParseStatus(t: string): (r: Option<Status>)
    ensures r.Some? ==> StatusText(r.value) == t
  {
    if t == "Not processed" then Some(NotProcessed)
    else if t == "Created" then Some(Created)
    else if t == "Pending" then Some(Pending)
    else if t == "Approved" then Some(Approved)
    else if t == "Rejected" then Some(Rejected)
    else if t == "Paid" then Some(Paid)
    else None
  }

  /** Every status is stored under its own spelling and read back as itself. */
  lemma StatusTextRoundTrip(s: Status)
    ensures ParseStatus(StatusText(s)) == Some(s)
  {
  }

  /** Requests of at least this amount need the finance department too. */
  const Threshold: real := 50000.0

  /** The number of approvals a request of `amount` needs, fixed at creation. */
  function ApprovalsNeeded(amount: real): (n: int)
    ensures n == 1 || n == 2
    ensures n == 2 <==> amount >= Threshold
  {
    if amount < Threshold then 1 else 2
  }

  /** The chat ids of each department: the routing table the handlers look up. */
  datatype Routing = Routing(head: seq<int>, finance: seq<int>, payers: seq<int>)

  /** `chat_ids_department`: an unknown department raises a KeyError (None). */
  function ChatIds(routing: Routing, department: string): (r: Option<seq<int>>)
    ensures r.Some? <==> department in {"head", "finance", "payers", "all"}
    ensures department == "all" ==> r == Some(routing.head + routing.finance + routing.payers)
    ensures department == "head" ==> r == Some(routing.head)
    ensures department == "finance" ==> r == Some(routing.finance)
    ensures department == "payers" ==> r == Some(routing.payers)
  {
    if department == "head" then Some(routing.head)
    else if department == "finance" then Some(routing.finance)
    else if department == "payers" then Some(routing.payers)
    else if department == "all" then Some(routing.head + routing.finance + routing.payers)
    else None
  }

  /** Whom a decision tells about it. */
  datatype Notice =
    | AskFinance      // an approval request with buttons goes to the finance chats
    | PromptPayers    // a payment request with a pay button goes to the payers' chats
    | TellInitiator   // the requester hears that the request was rejected

  /** The fields a decision writes, and whom it notifies. */
  datatype Decision = Decision(received: int, status: Status, approvedBy: Option<string>, notice: Notice)

  /** What an approve or reject click does to its request. */
  datatype Outcome =
    | Write(decision: Decision)
    | NoWrite       // an action or department the handlers do not act on
    | AmountError   // the head approval needs float(amount), which raised

  /**
   * The decision for a click by `department` with `action` on a request of
   * `amount` (None when the stored amount is not a number), where
   * `approvedUsers` is the approver list built for this click. The current
   * status of the request is deliberately not an input: the handlers never
   * look at it.
   */
  function Decide(department: string, action: string, amount: Option<real>, approvedUsers: string): (r: Outcome)
    ensures r.Write? <==>
      action == "reject" || (action == "approve" && (department == "finance" || (department == "head" && amount.Some?)))
    ensures r.AmountError? <==> action == "approve" && department == "head" && amount.None?
    ensures r.Write? ==> 0 <= r.decision.received <= 2
    ensures r.Write? ==> (r.decision.status == Rejected <==> action == "reject")
    ensures r.Write? ==> (r.decision.notice == TellInitiator <==> action == "reject")
    ensures r.Write? && r.decision.approvedBy.Some? ==> department == "finance" && action == "reject"
  {
    if action == "reject" then
      if department == "finance" then
        Write(Decision(1, Rejected, Some(Strings.FirstField(approvedUsers, ", ")), TellInitiator))
      else
        Write(Decision(0, Rejected, None, TellInitiator))
    else if action == "approve" then
      if department == "head" then
        if amount.None? then AmountError
        else if amount.value >= Threshold then Write(Decision(1, Pending, None, AskFinance))
        else Write(Decision(1, Approved, None, PromptPayers))
      else if department == "finance" then
        Write(Decision(2, Approved, None, PromptPayers))
      else NoWrite
    else NoWrite
  }

  /** A finance approval always makes the request payable with two approvals. */
  lemma FinanceApprovalDecides(amount: Option<real>, approvedUsers: string)
    ensures Decide("finance", "approve", amount, approvedUsers) == Write(Decision(2, Approved, None, PromptPayers))
  {
  }

  /** A finance rejection keeps one approval and only the first approver. */
  lemma FinanceRejectionDecides(amount: Option<real>, approvedUsers: string)
    ensures Decide("finance", "reject", amount, approvedUsers)
         == Write(Decision(1, Rejected, Some(Strings.FirstField(approvedUsers, ", ")), TellInitiator))
  {
  }

  /** A rejection by any department but finance resets the counter to 0 and keeps the approver list. */
  lemma HeadRejectionDecides(department: string, amount: Option<real>, approvedUsers: string)
    requires department != "finance"
    ensures Decide(department, "reject", amount, approvedUsers) == Write(Decision(0, Rejected, None, TellInitiator))
  {
  }

  /** A department whose buttons the bot sends for a request of `amount`. */
  predicate ButtonsIssuedTo(department: string, amount: real)
  {
    department == "head" || (department == "finance" && ApprovalsNeeded(amount) == 2)
  }

  /**
   * The head tier hands a request to finance exactly when the request needs
   * two approvals; otherwise the head approval alone makes it payable.
   */
  lemma HeadApprovalRoutesByTier(amount: real, approvedUsers: string)
    ensures Decide("head", "approve", Some(amount), approvedUsers).Write?
    ensures var d := Decide("head", "approve", Some(amount), approvedUsers).decision;
      && d.received == 1
      && (d.status == Pending <==> ApprovalsNeeded(amount) == 2)
      && (d.notice == AskFinance <==> ApprovalsNeeded(amount) == 2)
      && (d.status == Approved <==> ApprovalsNeeded(amount) == 1)
      && (d.notice == PromptPayers <==> ApprovalsNeeded(amount) == 1)
  {
  }

  /**
   * Any decision reached through a button the bot issued for the request keeps
   * the received counter within 0..approvals needed, and an approval that makes
   * the request payable has collected every approval it needs.
   */
  lemma IssuedButtonsKeepCounterInRange(department: string, action: string, amount: real, approvedUsers: string)
    requires ButtonsIssuedTo(department, amount)
    ensures var o := Decide(department, action, Some(amount), approvedUsers);
      o.Write? ==> 0 <= o.decision.received <= ApprovalsNeeded(amount)
    ensures var o := Decide(department, action, Some(amount), approvedUsers);
      o.Write? && o.decision.status == Approved ==> o.decision.received == ApprovalsNeeded(amount)
  {
  }

  /**
   * Without that proviso the counter can overshoot: a finance approval of a
   * request below the threshold records two approvals where one is needed.
   */
  lemma FinanceApprovalBelowThresholdOvercounts(approvedUsers: string)
    ensures var o := Decide("finance", "approve", Some(1000.0), approvedUsers);
      o.Write? && o.decision.received == 2 && ApprovalsNeeded(1000.0) == 1
  {
  }

  /** Only "approve" and "reject" write, and an approval only from head or finance. */
  lemma OnlyKnownClicksWrite(department: string, action: string, amount: Option<real>, approvedUsers: string)
    ensures Decide(department, action, amount, approvedUsers).Write? ==>
      action == "reject" || (action == "approve" && department in {"head", "finance"})
    ensures action == "reject" ==> Decide(department, action, amount, approvedUsers).Write?
    ensures action == "approve" && department == "finance" ==> Decide(department, action, amount, approvedUsers).Write?
  {
  }
}
