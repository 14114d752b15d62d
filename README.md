# Expense approval bot — a Dafny model

This project models the core of a Telegram bot that routes expense requests through an approval chain:

1. A requester fills in a request, either through a button-driven dialogue (the wizard) or with the `/submit_record` command.
2. The request is stored as a row of the SQLite `approvals` table.
3. The head of department approves or rejects it.
4. Requests of 50 000 or more also go to the finance department.
5. Approved requests get a "pay" button for the payers.
6. Paying a request marks it Paid and appends it to a Google spreadsheet, one row per accounting month.

The model covers these modules:

- **Wrappers**: the `Option` and `Result` types.
- **Strings**: the Python string operations the code relies on. These are `str.split` with a one-character separator and its inverse `join`, the `int()` of a decimal text, slicing, and printing a number.
- **Amounts**: the amount syntax that the wizard accepts (`^[0-9]+(?:\.[0-9]+)?$`, with ASCII digits only) and its value.
- **Approval**: the request statuses, the 50 000 threshold, the department routing table and the decision that an approve or reject click leads to.
- **Callback**: the `approval_…` and `pay_…` button payloads and how the click handlers split them apart.
- **Ledger**: the `ApprovalDB` object over the `approvals` table. It covers insertion, the two-column update and the lookup by id. It also covers the general read and partial update that the handlers call.
- **Handlers**: the command and button handlers, as the methods of a `Bot` object. The bot owns the ledger, the routing table, the messages it sent and the records it handed to the spreadsheet.
- **Grouping**: the nested catalogue that `get_data` builds from the category sheet, where category maps to group and group maps to a list of partners. Dicts keep insertion order.
- **Conversation**: the data-collection wizard as a `Wizard` object. Each step is a method that returns the next state. It also covers the inline keyboard layout from `create_keyboard` and the assembled command text.
- **Sheets**: `sheets.py`'s `GoogleSheetsManager`, which spreads one payment over its months, plus the quarter columns.
- **SrcSheets**: `src/sheets.py`'s `GoogleSheetsManager`. It converts `mm.yy` months to dates, splits the amount with Decimal ROUND_HALF_UP at ten places and reports errors by raising.

State stays state in the model:

- The ledger is a `class` whose `map` of rows the methods reassign.
- The bot's handlers are methods that append to its outbox.
- The wizard's `user_data` is a `map` field.
- The spreadsheet managers keep their worksheet as a `seq` of rows.

Each method's `ensures` ties the new state to a pure function of the old one, and the lemmas state what the code promises about those functions.

The model follows the code, not the intended design, with two kinds of exception. The first kind is the two bugs recorded under "## Findings": the dropped last keyboard row together with the single-string payment list, and the record dict that never binds to the INSERT. For each, one member models the code as written, and the rest of the model uses the corrected definition. The second kind is the crash sites listed under "## Left out", where the model follows the evident intent instead of the exception the code would raise. These are the not-found reply of `process_pay`, the missing-row check and the undefined `approved_users` in `process_approval`, the IndexError after `reject_payment`'s write, the group names of `input_item`, and the summary of `input_payment_type`. Elsewhere the code differs from the intended design in these ways:

- No handler looks at a request's current status before acting, so no status is terminal. A Paid request can still be rejected (`Handlers.PaidRequestCanStillBeRejected`).
- A finance rejection keeps `approvals_received` at 1 and cuts the approver list to its first entry.
- A head rejection resets the counter to 0.
- A finance approval of a request below the threshold writes 2 approvals (`Approval.FinanceApprovalBelowThresholdOvercounts`).
- There is no per-request locking: each handler is one atomic step of the model.

## Model

| member | source | states |
|---|---|---|
| Strings.NatToString | handlers.py:137-140 | the decimal text of an id is a non-empty digit string without a leading zero |
| Strings.NatToStringValue | handlers.py:137-140 | reading the printed id back as a numeral gives the id |
| Strings.IntToString | handlers.py:137-140 | a printed chat id is digits with an optional leading minus, so it never holds `_` |
| Strings.ParseNat | handlers.py:122 | a text names a row id exactly when it is a non-empty run of decimal digits |
| Strings.ParseNatToString | handlers.py:122 | a printed id parses back to itself |
| Strings.Split | handlers.py:179 | `split` gives at least one field and no field holds the separator |
| Strings.JoinSplit | handlers.py:179 | re-joining the fields of `split` with the separator gives the original text back |
| Strings.SplitJoin | handlers.py:208 | splitting a join of separator-free fields gives exactly those fields |
| Strings.FirstField | handlers.py:243 | `split(', ')[0]` is the longest prefix without `, `: the whole text, or the part before the first `, ` |
| Strings.Slice | sheets.py:70 | `s[3:5]` has the length Python's clamped slicing gives, and its k-th character is the string's character at 3+k |
| Strings.PyInt | sheets.py:70 | `int()` of a plain run of digits is its numeral value |
| Strings.PyIntPadded | sheets.py:70 | blanks around the text and a leading `+` or `-` are accepted, and the value is the signed numeral value of the digits |
| Strings.PyIntOfIntToString | conversation.py:25 | `int(str(i))` is `i` for every integer, so a button's callback data reads back as its index |
| Strings.SplitAppend | handlers.py:217 | splitting text joined at a separator gives the fields of the left part followed by those of the right part |
| Amounts.AmountTextMatchesPattern | conversation.py:52-53 | the amount check accepts a text exactly when it fully matches digits with an optional dot and digits |
| Amounts.AmountValue | db.py:50 | the value of an accepted amount is at least its whole part and below the whole part plus 1 |
| Amounts.FractionBelowOne | db.py:50 | the fractional digits contribute a value in [0, 1) |
| Amounts.DecimalAmount | conversation.py:52-53 | `whole.fraction` is accepted and its value is the whole part plus the fraction digits over 10 to their count |
| Amounts.PyFloat | db.py:50 | `float(amount)` succeeds exactly on accepted amount texts |
| Amounts.WholeAmount | conversation.py:52-53 | every printed whole number is an accepted amount with that value |
| Approval.ParseStatus | db.py:53 | a parsed status column reads back as the text it came from |
| Approval.StatusTextRoundTrip | db.py:53 | every status is stored under its own spelling and parsed back as itself |
| Approval.ApprovalsNeeded | db.py:50 | a request needs 1 or 2 approvals, 2 exactly when its amount is at least 50 000 |
| Approval.Decide | handlers.py:230-292 | a click writes exactly for a reject, a finance approval or a head approval with a readable amount; a head approval without one raises; a written counter is 0..2; the status is Rejected and the requester is told exactly on a reject; only a finance reject rewrites the approver list |
| Approval.FinanceApprovalDecides | handlers.py:285-292 | a finance approval writes Approved with 2 approvals and prompts the payers, whatever the amount |
| Approval.FinanceRejectionDecides | handlers.py:242-249 | a finance rejection writes Rejected with 1 approval and the first ", "-field of the approver list |
| Approval.HeadRejectionDecides | handlers.py:250-255 | a rejection by head (any department but finance) writes Rejected with 0 approvals, leaves the approver list alone and tells the requester |
| Approval.ChatIds | handlers.py:19-27 | the chats of head, finance and payers, all three concatenated for "all", and a KeyError (None) for any other department |
| Approval.HeadApprovalRoutesByTier | handlers.py:258-283 | a head approval records one approval; it makes the request Pending and asks finance exactly when two approvals are needed, and otherwise makes it Approved and prompts the payers |
| Approval.IssuedButtonsKeepCounterInRange | handlers.py:240-292 | for the buttons the bot issues, a written counter stays in 0..approvals needed, and an Approved status comes with every needed approval |
| Approval.FinanceApprovalBelowThresholdOvercounts | handlers.py:285-287 | a finance approval of a request of 1000 writes 2 approvals where 1 is needed |
| Approval.OnlyKnownClicksWrite | handlers.py:230-292 | only "reject", or "approve" from head or finance, writes anything; every reject and every finance approval writes |
| Callback.EncodeApproval | handlers.py:137-140 | the approval payload starts with "approval_" and ends with "_" followed by the initiator |
| Callback.EncodePay | handlers.py:155-156 | the pay payload is "pay_" followed by the id |
| Callback.DecodeApproval | handlers.py:208-211 | the approval payload decodes exactly when `split("_")` gives at least five fields |
| Callback.DecodePay | handlers.py:179-180 | the pay payload decodes exactly when `split("_")` gives at least two fields |
| Callback.EncodeApprovalIsJoin | handlers.py:137-140 | the approval payload is the `_`-join of "approval", department, action, id and initiator |
| Callback.ApprovalRoundTrip | handlers.py:208-211 | an approval payload decodes to the four fields it was built from when none holds `_` |
| Callback.PayRoundTrip | handlers.py:179-180 | a pay payload decodes to its id when the id holds no `_` |
| Callback.PrintedIdsRoundTrip | handlers.py:137-140 | buttons built from a printed row id and chat id always decode back to them, and the id text parses to the id |
| Callback.InitiatorWithUnderscoreIsCut | handlers.py:208-211 | an initiator field holding `_` comes back cut at its first `_` |
| Ledger.SetKey | db.py:51-53 | `d[key] = v` makes the key read v and grows the dict by at most one entry |
| Ledger.SetKeyOthers | db.py:51-53 | setting one key leaves what every other key reads |
| Ledger.SetKeyKeeps | db.py:51-53 | setting one key leaves every entry under another key in its place |
| Ledger.SetKeyAt | db.py:51-53 | a key already present is overwritten where it stands |
| Ledger.SetKeyNew | db.py:51-53 | a new key is appended at the end, which is where `values()` yields it |
| Ledger.Values | db.py:58 | `list(d.values())` has one value per key |
| Ledger.Record.constructor | handlers.py:78-90 | the record dict handed to the insertion holds the given entries in the given order |
| Ledger.FloatOf | db.py:50 | `float(record["amount"])` of a text succeeds exactly when the text is an accepted amount |
| Ledger.CompletedReads | db.py:50-53 | after the three assignments, approvals_needed, approvals_received and status read their new values and every other key reads as before |
| Ledger.CompletedKeeps | db.py:50-53 | the three assignments leave the entries under other keys in their places |
| Ledger.CompletedInColumnOrder | db.py:50-58 | for a dict whose keys follow the INSERT's columns, the bound values are its seven data values followed by the derived needed count, 0 and "Created" |
| Ledger.BindRow | db.py:55-58 | the ten placeholders bind only to exactly ten values |
| Ledger.BoundColumns | db.py:55-58 | binding is positional: the k-th value lands in the k-th column the INSERT names and is found under that name |
| Ledger.StoredRow | db.py:48-58 | a row is stored only when the amount converts to a number |
| Ledger.ColumnEntriesStored | db.py:48-58 | a dict of the seven data columns in column order is stored as those values with the derived needed count, 0 received and status Created |
| Ledger.PatchKeepsRequest | handlers.py:128 | a partial update never changes the seven data columns or approvals_needed, and an empty one changes nothing |
| Ledger.TwoColumnUpdate | db.py:68-74 | `update_record` keeps what the request asks for and the approver list |
| Ledger.PatchIdempotent | handlers.py:128 | writing the same partial update twice equals writing it once |
| Ledger.TwoColumnUpdateIsPatch | db.py:68-74 | `update_record` with both keys is the partial update of those two columns; a missing key writes NULL |
| Ledger.Cells | db.py:89-90 | the found dict has the 11 columns as keys, in table order |
| Ledger.CellsRoundTrip | db.py:81-90 | each of the 11 columns of a row reads back from the found dict under its name |
| Ledger.ApprovalDB.constructor | db.py:10-12 | each database object starts from an empty table (a modelling choice: the file ./approvals.db and what it already holds are outside the model) |
| Ledger.ApprovalDB.InsertRecord | db.py:48-66 | a non-numeric amount raises before anything changes; otherwise the caller's dict gets the three derived keys in place, its values are bound by position, a count or kind mismatch raises, a failing statement stores nothing, and otherwise the bound row is stored under a fresh id |
| Ledger.ApprovalDB.UpdateRecord | db.py:68-79 | only the row with that id changes, and only its counter and status; an absent id changes nothing |
| Ledger.ApprovalDB.FindById | db.py:81-93 | a dict exactly for an existing row when the query succeeds, holding that row's cells |
| Ledger.ApprovalDB.GetRowById | handlers.py:122 | the row named by the id text, or None when there is no such row |
| Ledger.ApprovalDB.UpdateRowById | handlers.py:128 | the named row gets the patched columns and every other row is unchanged |
| Ledger.RowIdOf | handlers.py:122 | a numeral id text names the row with that number |
| Ledger.InsertThenFind | db.py:48-90 | for a dict in column order, the dict found under the new id holds each of the seven given values under its own key, the approvals needed that the amount implies, 0 received and status Created |
| Handlers.SubmittedEntries | handlers.py:78-90 | the handler's record dict has eleven entries, one more than the INSERT has placeholders |
| Handlers.SubmittedEntriesDoNotBind | handlers.py:78-97 | as written, no submission is ever stored: after the insertion completes the dict it holds more values than placeholders, and position 4, the period column, holds the comment |
| Handlers.SubmittedEntriesFixed | handlers.py:78-90 | the corrected dict's keys follow the INSERT's columns |
| Handlers.SubmittedEntriesFixedBind | handlers.py:78-97 | the corrected dict is stored as the submission's row: each field in its own column, the derived approvals needed, 0 received, status Created |
| Handlers.ToChats | handlers.py:168-171 | one message per chat, in the chat list's order, all with the same content |
| Handlers.StatusNeverConsulted | handlers.py:203-237 | two tables that differ only in the clicked row's status give the same messages and, when the click writes, the same table |
| Handlers.OnlyClickedRowChanges | handlers.py:213-227 | an approval click keeps the set of ids and leaves every other row as it was |
| Handlers.ApproverList | handlers.py:215-220 | with no stored list, or an empty one, the list is the clicking user alone |
| Handlers.ApproverListGrows | handlers.py:215-220 | read as a space-separated list, a stored list grows by exactly the clicking user |
| Handlers.RowsAfter | handlers.py:240-292 | applying a decision keeps the set of ids |
| Handlers.ApprovalRows | handlers.py:203-227 | a click keeps the set of ids, and an undecodable one changes nothing |
| Handlers.ClickKeepsRequest | handlers.py:203-292 | a click never changes what a request asks for, only its counter, status and approver list |
| Handlers.DecisionMessages | handlers.py:240-292 | every message to a requester goes to the initiator named by the button, and a click that writes nothing sends nothing |
| Handlers.ApprovalMessages | handlers.py:203-227 | an undecodable click sends nothing, and every requester notice goes to the initiator decoded from the button |
| Handlers.PayRows | handlers.py:174-200 | a pay click keeps the ids and every request's data, and makes the named existing row Paid |
| Handlers.RejectCommandRows | handlers.py:104-130 | `/reject_record` keeps the ids and every request's data, changes nothing without exactly one argument, and makes the named existing row Rejected |
| Handlers.HeadApprovalPends | handlers.py:268-276 | a head approval of a large request makes it Pending with 1 approval |
| Handlers.FinanceApproves | handlers.py:285-292 | a finance approval of any request makes it Approved with 2 approvals |
| Handlers.FinanceRejects | handlers.py:240-249 | a finance rejection of any request makes it Rejected with 1 approval |
| Handlers.ApproverAppended | handlers.py:215-220 | a non-empty stored approver list gets " @username" appended, and an empty or missing one is left as it was |
| Handlers.SmallRequestEndToEnd | handlers.py:277-283 | below the threshold, a head approval makes the request Approved with 1 approval, sends the payers its pay button, and that button marks it Paid |
| Handlers.LargeRequestEndToEnd | handlers.py:268-292 | at or above the threshold, head approval gives Pending with 1; finance approval then gives Approved with 2, and finance rejection gives Rejected with 1 |
| Handlers.ClickWrites | handlers.py:213-227 | a click on the button of a printed row id that leads to a write patches exactly that row: the approver write first, then the decision's columns |
| Handlers.PaidRequestCanStillBeRejected | handlers.py:250-255 | a head rejection of a Paid request still rejects it and resets the counter to 0 |
| Handlers.PayOnlySetsStatus | handlers.py:186-193 | a pay click changes only the status of the named existing row, to Paid |
| Handlers.RejectCommandOnlySetsStatus | handlers.py:109-128 | `/reject_record` changes only the status of the one named existing row, to Rejected, and changes nothing unless given exactly one argument |
| Handlers.Bot.SendToChats | handlers.py:168-171 | the outbox grows by exactly one message per chat, in order |
| Handlers.Bot.StoreAndAsk | handlers.py:92-101 | a dict that does not bind, or a failing statement, stores nothing and answers the error; otherwise the bound row is stored under a fresh id and every head chat gets its approval buttons |
| Handlers.Bot.SubmitRecord | handlers.py:52-101 | as written: without arguments it asks for the data; a bad amount sends nothing; every accepted submission stores nothing and answers the insertion error |
| Handlers.Bot.SubmitRecordFixed | handlers.py:52-101 | with the corrected dict: without arguments it asks for the data; a bad amount sends nothing; a failing statement answers the error; otherwise the submission's row is stored under a fresh id with the derived approvals needed, 0 received and status Created, and every head chat gets its buttons |
| Handlers.Bot.RejectRecordCommand | handlers.py:104-130 | the table after it is the command's reject function, with the matching reply for no id, several ids, an unknown id or a rejected row |
| Handlers.Bot.ProcessPay | handlers.py:174-200 | an undecodable click reports failure; an unknown id is reported; otherwise the row becomes Paid and its record, as read before the update, is exported once |
| Handlers.Bot.RejectPayment | handlers.py:240-255 | the table and messages are those of the reject decision for the department |
| Handlers.Bot.ApprovePayment | handlers.py:258-292 | the table and messages are those of the approve decision for the department and the stored amount |
| Handlers.Bot.ProcessApproval | handlers.py:203-227 | the table and the messages after a click are the approval functions of the click, which the lemmas above characterise |
| Grouping.Grouped | sheets.py:85-96 | the catalogue built from any rows is a well-formed nested dict: no category, or group within a category, is listed twice, and the listed keys are exactly the mapped ones |
| Grouping.Put | sheets.py:90-96 | the dict maps the key to the value; a new key goes last and the order of existing keys is kept |
| Grouping.Unique | sheets.py:82 | the unique categories hold exactly the categories that occur |
| Grouping.GroupedKeys | sheets.py:82-96 | the catalogue's categories are the unique categories in first-appearance order |
| Grouping.GroupedPartners | sheets.py:85-96 | a category holds a group exactly when some row names that pair, and its partner list is those rows' partners in sheet order |
| Grouping.SizeAddEntry | sheets.py:86-96 | adding one sheet row adds exactly one partner to the catalogue |
| Grouping.GroupedSize | sheets.py:85-96 | the catalogue holds exactly one partner entry per sheet row |
| Grouping.AddPartner | sheets.py:93-96 | the group's partner list, or a new empty one, gets the partner appended |
| Grouping.AddRow | sheets.py:86-96 | one loop step files the row under its category and group |
| Grouping.Build | sheets.py:85-96 | the loop builds exactly the catalogue of the sheet's rows |
| Conversation.Buttons | conversation.py:24-25 | one button per item, labelled with the item, whose callback data is the item's index |
| Conversation.Pack | conversation.py:24-31 | the open row is non-empty exactly when there are buttons, and no closed row is empty |
| Conversation.Step | conversation.py:26-31 | the button ends the open row; either no row is closed, or the old open row is closed and the button starts a new one |
| Conversation.PackKeepsButtons | conversation.py:24-31 | the closed rows followed by the open row are exactly the buttons in order, and the open row is empty only for no buttons |
| Conversation.StepAppends | conversation.py:26-31 | one step of the packing loop appends its button after the buttons already packed and leaves the open row non-empty |
| Conversation.PackStepKeepsPacked | conversation.py:26-31 | one step of the packing loop keeps the rows non-empty and within 30 characters, and closes a row only when the next label would not fit |
| Conversation.PackIsWellPacked | conversation.py:24-31 | the closed rows and the open row are well packed |
| Conversation.Layout | conversation.py:21-37 | the intended keyboard is empty exactly for no items and has no empty row |
| Conversation.LayoutKeepsItems | conversation.py:21-37 | the intended keyboard holds every item's button once, in order, and is well packed |
| Conversation.CreateKeyboard | conversation.py:21-37 | as written: the closed rows of the packing only, a well-packed strict prefix of the buttons for any non-empty item list |
| Conversation.SingleItemKeyboardIsEmpty | conversation.py:21-37 | for one item the keyboard as written is empty, while the intended one holds that item's button |
| Conversation.CreateKeyboardFixed | conversation.py:21-37 | the keyboard holds every item's button once, in order, and is well packed |
| Conversation.PyIndex | conversation.py:71 | Python list indexing: defined exactly for -len..len-1, the element itself for a non-negative index, and always an element of the list |
| Conversation.Selected | conversation.py:71 | callback data that is no integer selects nothing, and whatever is selected is an element of the list |
| Conversation.ButtonSelectsItsItem | conversation.py:71 | pressing any button of an item keyboard selects the item it is labelled with |
| Conversation.FinalCommand | conversation.py:155-157 | the final command starts with the sum and ends with the payment type |
| Conversation.FinalCommandIsJoin | conversation.py:155-157 | the final command is the comma join of the first field and the other six fields, each with a leading space |
| Conversation.FinalCommandFields | conversation.py:155-157 | with comma-free answers, splitting the final command on commas gives back the seven fields |
| Conversation.PaymentTypeAsWrittenAddsFields | conversation.py:19 | with the payment list as written, the final command splits into nine fields, not seven |
| Conversation.PaymentLabelJoinsNames | conversation.py:19 | the single payment label is the three payment type names joined with ", " |
| Conversation.PaymentTypesKeepFields | conversation.py:19 | with three separate payment types, every choice keeps the final command at seven fields |
| Conversation.Wizard.constructor | conversation.py:17-18 | the catalogue and the item list are those `get_data` builds from the category rows, and the dialogue starts empty |
| Conversation.Wizard.EnterRecord | conversation.py:40-46 | the dialogue starts by asking for the sum |
| Conversation.Wizard.InputSum | conversation.py:49-64 | a malformed sum ends the dialogue; an accepted one is stored and leads to the item keyboard of every item |
| Conversation.Wizard.InputItem | conversation.py:67-84 | a click outside the list leaves the state unchanged; otherwise the item and its group names are stored and the group keyboard shown |
| Conversation.Wizard.InputGroup | conversation.py:87-104 | a valid group click stores the group and its partner list, drops the group list and shows the partner keyboard; any other click changes nothing |
| Conversation.Wizard.InputPartner | conversation.py:107-120 | a valid partner click stores the partner, drops the partner list and asks for the comment; any other click changes nothing |
| Conversation.Wizard.InputComment | conversation.py:123-133 | the comment is stored and the dates are asked next |
| Conversation.Wizard.InputDates | conversation.py:136-146 | the dates are stored and the payment-type keyboard shown |
| Conversation.Wizard.InputPaymentType | conversation.py:149-175 | a valid choice stores the assembled final command from the stored answers and asks for confirmation |
| Conversation.Wizard.ConfirmCommand | conversation.py:178-195 | a confirmation with a stored command sends it as a `/submit_record` message; anything else sends nothing; the dialogue ends either way |
| Conversation.AnswerKeepsValid | conversation.py:56 | storing a typed answer under a key other than the item and the pending lists keeps every answer a text and the pending group list that of the chosen item |
| Conversation.ChooseItemKeepsValid | conversation.py:74-76 | storing the chosen item with its groups as the pending list keeps the session consistent |
| Conversation.ChooseGroupKeepsValid | conversation.py:94-98 | storing the group and its partners and dropping the group list keeps the session consistent |
| Conversation.ChoosePartnerKeepsValid | conversation.py:113-114 | storing the partner and dropping the partner list keeps the session consistent |
| Sheets.Quarter | sheets.py:70-71 | the quarter of a date exists exactly when `int(date[3:5])` does |
| Sheets.QuarterOfMonth | sheets.py:70-71 | for a two-digit month 1..12 the quarter is 1..4 and contains that month |
| Sheets.PeriodRow | sheets.py:61-72 | one sheet row has the ten columns of the append, the last two being the quarters of today and of the month whenever both parse |
| Sheets.RowsBeforeFailure | sheets.py:60-73 | the rows appended before a quarter computation raises: all months before the first that has no quarter |
| Sheets.RowsFor | sheets.py:60-73 | at most one row per month, and fewer only when a quarter fails to parse, for today or for the first month left out |
| Sheets.PaymentRows | sheets.py:58-73 | at most one row per space-separated period token |
| Sheets.RowsForRow | sheets.py:60-72 | row k of the rows appended is the row for month k, carrying the share and that month |
| Sheets.RowsForAt | sheets.py:60-73 | a month whose quarters parse, reached with every earlier row appended, gets the next row |
| Sheets.RowsForStop | sheets.py:70-71 | a month whose quarter does not parse, reached with every earlier row appended, is where the appended rows end |
| Sheets.SharesMakeAmount | sheets.py:59 | n equal shares of the amount add up to the amount again |
| Sheets.AmountTotalOfShares | sheets.py:59-63 | rows that each carry the same share total to the share times their number |
| Sheets.PaymentRowsFollowPeriods | sheets.py:58-73 | row k is for month k of the period, with the date, the share and the payment's fields |
| Sheets.PaymentRowsShareAmount | sheets.py:58-63 | when every month is appended, the shares add up to the amount exactly |
| Sheets.GoogleSheetsManager.constructor | sheets.py:32-41 | a new manager is unauthorised with no catalogue loaded |
| Sheets.GoogleSheetsManager.InitializeGoogleSheets | sheets.py:43-46 | it succeeds exactly when authorisation does, authorises the manager then, and changes nothing else |
| Sheets.GoogleSheetsManager.AddPaymentToSheet | sheets.py:48-75 | unauthorised or unopened, nothing is appended and nothing raises; otherwise the rows before the first bad month are appended, and it raises exactly when a month was left out |
| Sheets.GoogleSheetsManager.AppendRows | sheets.py:60-73 | the loop appends exactly the rows before the first month whose quarter fails, in order, and raises exactly when it stops early |
| Sheets.GoogleSheetsManager.GetData | sheets.py:77-100 | an unopened sheet raises; an empty sheet raises the missing-column KeyError; otherwise it stores and returns the catalogue and the unique items |
| SrcSheets.MonthField | src/sheets.py:80 | `%m` accepts only months 1..12 |
| SrcSheets.YearField | src/sheets.py:80 | `%y` gives a year in 1969..2068 |
| SrcSheets.Digits2 | src/sheets.py:80 | `%d`/`%m` print two digits |
| SrcSheets.Digits4 | src/sheets.py:80 | `%Y` prints four digits |
| SrcSheets.TokenFields | src/sheets.py:80 | a `<month>.<yy>` token splits back into its month field and its two-character year field at the dot |
| SrcSheets.YearFieldOfDigits | src/sheets.py:80 | `%y` reads the last two digits of a year in 1969..2068 back as that year |
| SrcSheets.ConvertMonth | src/sheets.py:79-82 | a token converts only when it ends in `.yy`, and then to ten characters starting "01." with a dot at position 5 |
| SrcSheets.ConvertPaddedMonth | src/sheets.py:79-82 | `mm.yy` becomes `01.mm.yyyy`, with 00-68 read as 20yy and 69-99 as 19yy |
| SrcSheets.ConvertShortMonth | src/sheets.py:79-82 | a one-digit month `m.yy` is accepted and padded to `01.0m.yyyy` |
| SrcSheets.ConvertedMonthIsDate | src/sheets.py:79-82 | every converted month is a `dd.mm.yyyy` date on the first of the month |
| SrcSheets.ConvertMonths | src/sheets.py:79-82 | the conversion succeeds exactly when every token converts, one date per token in order |
| SrcSheets.RoundHalfUp10 | src/sheets.py:85 | rounding keeps the sign: a negative value never rounds to a positive one, nor the reverse |
| SrcSheets.RoundingIsClose | src/sheets.py:85 | rounding to ten places moves a value by at most half a unit of the last place |
| SrcSheets.RoundingKeepsQuanta | src/sheets.py:85 | a value already on ten places is left as it is |
| SrcSheets.RoundingIsIdempotent | src/sheets.py:85 | rounding twice equals rounding once |
| SrcSheets.RoundingTiesAwayFromZero | src/sheets.py:85 | a half-way value rounds away from zero, for both signs |
| SrcSheets.PaymentRows | src/sheets.py:86-97 | one row per converted month |
| SrcSheets.PaymentRowsFollowPeriods | src/sheets.py:86-97 | row k is for month k, with the date, the rounded share and the payment's fields |
| SrcSheets.PaymentRowsShareAmount | src/sheets.py:83-97 | the rounded shares add up to the amount to within n half-units of the tenth place |
| SrcSheets.TotalOfShares | src/sheets.py:83-97 | rows that each carry the same share, off the exact share by at most b, total to the amount within b per row |
| SrcSheets.GoogleSheetsManager.constructor | src/sheets.py:49-55 | a new manager is unauthorised with no catalogue loaded |
| SrcSheets.GoogleSheetsManager.InitializeGoogleSheets | src/sheets.py:57-64 | a failed authorisation raises RuntimeError and a successful one authorises |
| SrcSheets.GoogleSheetsManager.AddPaymentToSheet | src/sheets.py:66-101 | RuntimeError before any row when the sheet cannot be opened; ValueError and no row when any month fails to parse; otherwise exactly one row per month |
| SrcSheets.GoogleSheetsManager.AppendRows | src/sheets.py:86-97 | the loop appends one row per converted month, in order, and changes nothing else |
| SrcSheets.GoogleSheetsManager.GetData | src/sheets.py:104-133 | RuntimeError when the sheet cannot be opened, KeyError for an empty sheet, otherwise the catalogue and unique items, which are also stored |

## Left out

- Telegram I/O is left out: message texts, `reply_text`, `edit_message_text` and `answer`. Messages are reduced to what they are about and their buttons' callback data.
- The clock is a parameter: `get_today_moscow_time` becomes `today`.
- The Google and SQLite services are left out. Their failures are boolean parameters (`authFails`, `openFails`, `storageFails`), and `get_credentials` is not modelled.
- Logging is not modelled.
- `start_command`, `show_not_processed`, `error_callback` and `stop_dialog` are left out. They only send texts, and the table creation and `find_not_processed_rows` that two of them call are not defined in `db.py`.
- `ApprovalDB`'s connection handling (`_ensure_connected`, `_ensure_cursor`, `connect`, `disconnect`) is I/O and is left out.
- The handlers import `db` from the `db` package, whose `db/__init__.py` builds the object from the package's own `db/db.py`. That file is not part of this model; the ledger follows the top-level `db.py`.
- `db.py` does not define `get_row_by_id`, `update_row_by_id` or the `async with` protocol, although the handlers call them. They are modelled as the read by id and the partial update their call sites imply.
- Concurrency is not modelled: every handler is one atomic step. The interleavings of two clicks on the same request are not modelled.
- Handlers.Bot.SubmitRecord: the argument parsing is not modelled. It reads a regex match that is commented out (`match` is undefined), so the parsed fields are a parameter.
- Handlers.Bot.ProcessPay: an unknown id is modelled as the not-found reply. The code sends that reply through `update.message`, which a button click does not have.
- Handlers.Bot.ProcessApproval: every clicking user is assumed to have a Telegram username. For a user without one, `"@" + username` raises TypeError at handlers.py:212, before anything is read, written or sent; the model always goes on to the approver write and the decision.
- Handlers.Bot.ProcessApproval: a missing row is modelled as the not-found reply. The code reads the row's `approved_by` before its `not record` check.
- Handlers.Bot.ProcessApproval: the undefined `approved_users` at handlers.py:226 is read as `approved_by_data`.
- Handlers.Bot.RejectPayment: the IndexError that `approved_by[1]` raises after the write, when the approver list has no ", ", is modelled as no notice to the requester. Approver lists are joined with " " but split on ", ", so this is the common case.
- Conversation.Wizard.InputSum: the item keyboard is the corrected `Layout` (built by `CreateKeyboardFixed`), which keeps the last row. The code's `create_keyboard` drops that row (see "## Findings"), so the model shows buttons the code leaves out.
- Conversation.Wizard.InputItem: the group keyboard is the corrected `Layout`, not the code's `create_keyboard`, which drops the last row.
- Conversation.Wizard.InputGroup: the partner keyboard is the corrected `Layout`, not the code's `create_keyboard`, which drops the last row.
- Conversation.Wizard.InputDates: the payment keyboard is the corrected `Layout` of three payment types. The code's one-element `payment_types` and `create_keyboard` give an empty keyboard there (`Conversation.SingleItemKeyboardIsEmpty`).
- Conversation.Wizard.InputPaymentType: the choice is read from the three corrected payment types, not from the code's one-element list.
- Conversation.Wizard.InputItem: the group names are the keys of the category's dict. The code indexes `dict.values()` (conversation.py:75, 91), which is not subscriptable.
- Conversation.Wizard.InputPaymentType: the summary shows the chosen payment type. The code reads `user_data['payment_type']` (conversation.py:171), which is never set, so it raises KeyError.
- Conversation.Wizard.constructor: the catalogue is built from the category rows. `create_sheets_service` and a module-level `get_data` are not defined in `sheets.py`.
- Amounts.PyFloat: only the wizard's amount syntax is modelled. `float()`'s signs, exponents, surrounding blanks, `inf` and `nan` are not, so every other text counts as not a number.
- SrcSheets.YearField: only ASCII digits are accepted in the two-digit `%y` field. `strptime` matches it with `\d`, which also takes Unicode decimal digits, so a token such as `1.٢٤` converts in the code and fails here.
- Strings.PyInt: only ASCII digits and the blanks space, tab, newline, carriage return, vertical tab and form feed are modelled. Unicode digits and whitespace, and underscores between digits, which `int()` also accepts, are not.
- Floating-point division and rounding are not modelled: amounts and shares are exact reals.
- SrcSheets.PaymentRowsShareAmount: Decimal's 28-digit context is not modelled, only the final ten-place ROUND_HALF_UP. The bound is therefore stated on exact quotients.
- The spreadsheet formatting calls (`worksheet.format`, `value_input_option`) are left out.
- The SQLite column types of the amount are left out: the ledger keeps the amount as text. `Sheets.Payment` takes the amount as a number.
- Ledger.BindRow: a value whose kind does not fit its column (text for a counter, an unknown status) is treated as a binding failure. SQLite's type affinity would store it anyway; the model's rows only hold well-typed columns.
- `main.py`'s wiring of handlers and `test.py` are not part of this model.

## Findings

| source | as written | input that shows it | evidently intended | confidence | as-written member | corrected member |
|---|---|---|---|---|---|---|
| conversation.py:21-37 | the open row is never appended after the loop, so the last row of buttons is dropped | items `["x"]`: the keyboard is `[]`, and every item list loses its last row | append the open row after the loop, so that every item gets a button | high, not executed | Conversation.CreateKeyboard | Conversation.CreateKeyboardFixed |
| conversation.py:19 | `payment_types` is one string that holds three types separated by commas | choosing it makes the final command split on commas into 9 fields instead of 7 | a list of three payment types | high, not executed | Conversation.PaymentTypeAsWrittenAddsFields | Conversation.PaymentTypesKeepFields |
| handlers.py:78-90, db.py:55-58 | the handler's record dict holds eleven values, with `comment` ahead of `period` and an extra `approved_by`; `insert_record` binds `list(record.values())` by position to ten placeholders | once the commented-out parsing at handlers.py:69-76 is restored, and if the `db` package's own `db/db.py` (not part of this model) binds as db.py:55-58 does: any submission with an accepted amount gives eleven values for ten placeholders, so the INSERT raises and the handler answers the error. As written, the undefined `match` raises NameError at handlers.py:79 first, outside the `try` | a dict with the INSERT's columns in order and no `approved_by`, so that each field lands in its own column | medium, not executed | Handlers.SubmittedEntriesDoNotBind | Handlers.SubmittedEntriesFixedBind |
