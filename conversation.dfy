/**
 * The expense-entry wizard: one step per answer, each writing the answer into
 * the user's session dict and returning the next state, and the greedy packing
 * of inline buttons into keyboard rows.
 */
module Conversation {
  import opened Wrappers
  import opened Strings
  import Amounts
  import Grouping

  /** The wizard's states, and the end state of a conversation handler. */
  const InputSumState: int := 0
  const InputItemState: int := 1
  const InputGroupState: int := 2
  const InputPartnerState: int := 3
  const InputCommentState: int := 4
  const InputDatesState: int := 5
  const InputPaymentTypeState: int := 6
  const ConfirmCommandState: int := 7
  const End: int := -1

  /** An inline button: its label and the callback data a click sends back. */
  datatype Button = Button(text: string, data: string)

  type Keyboard = seq<seq<Button>>

  /** The widest a row may grow, counting the single spaces between labels. */
  const MaxRowWidth: nat := 30

  /** One button per item, its callback data the item's position. */
  function Buttons(items: seq<string>): (bs: seq<Button>)
    ensures |bs| == |items|
    ensures forall k :: 0 <= k < |items| ==> bs[k] == Button(items[k], NatToString(k))
  {
    seq(|items|, k requires 0 <= k < |items| => Button(items[k], NatToString(k)))
  }

  function Labels(row: seq<Button>): (ls: seq<string>)
    ensures |ls| == |row|
    ensures forall k :: 0 <= k < |row| ==> ls[k] == row[k].text
  {
    seq(|row|, k requires 0 <= k < |row| => row[k].text)
  }

  /** The length of a row's labels joined by single spaces. */
  function RowWidth(row: seq<Button>): nat
  {
    |Join(Labels(row), ' ')|
  }

  /** A row in which every button after the first fitted beside the ones before it. */
  predicate Fits(row: seq<Button>)
  {
    forall j :: 1 <= j < |row| ==> RowWidth(row[..j]) + |row[j].text| <= MaxRowWidth
  }

  /**
   * Rows as the greedy rule leaves them: none empty, each filled while the next
   * label fitted, and each closed because the first label of the next one did not.
   */
  predicate WellPacked(rows: Keyboard)
  {
    && (forall k :: 0 <= k < |rows| ==> rows[k] != [] && Fits(rows[k]))
    && (forall k :: 0 <= k < |rows| - 1 ==> RowWidth(rows[k]) + |rows[k + 1][0].text| > MaxRowWidth)
  }

  function Flatten(rows: Keyboard): seq<Button>
  {
    if rows == [] then [] else Flatten(rows[..|rows| - 1]) + rows[|rows| - 1]
  }

  /** The rows closed so far and the row still being filled. */
  datatype Packing = Packing(rows: Keyboard, open: seq<Button>)

  /** The greedy packing, one button at a time. */
  function Pack(buttons: seq<Button>): (r: Packing)
    ensures buttons != [] <==> r.open != []
    ensures forall k :: 0 <= k < |r.rows| ==> r.rows[k] != []
  {
    if buttons == [] then Packing([], [])
    else
      Step(Pack(buttons[..|buttons| - 1]), buttons[|buttons| - 1])
  }

  /** One greedy step: close the open row when the button does not fit beside it, then add the button. */
  function Step(p: Packing, b: Button): (r: Packing)
    ensures r.open != [] && r.open[|r.open| - 1] == b
    ensures r.rows == p.rows || (p.open != [] && r.rows == p.rows + [p.open] && r.open == [b])
  {
    if RowWidth(p.open) + |b.text| > MaxRowWidth && |p.open| >= 1 then Packing(p.rows + [p.open], [b])
    else Packing(p.rows, p.open + [b])
  }

  lemma FlattenAppend(rows: Keyboard, row: seq<Button>)
    ensures Flatten(rows + [row]) == Flatten(rows) + row
  {
    assert (rows + [row])[..|rows|] == rows;
  }

  /** One greedy step keeps the rows (the open one included) well packed. */
  lemma PackStepKeepsPacked(p: Packing, b: Button)
    requires p.open != [] && WellPacked(p.rows + [p.open])
    ensures WellPacked(Step(p, b).rows + [Step(p, b).open])
  {
    var all := p.rows + [p.open];
    assert all[|p.rows|] == p.open;
    if RowWidth(p.open) + |b.text| > MaxRowWidth && |p.open| >= 1 {
      var all': Keyboard := all + [[b]];
      assert Fits([b]);
      forall k | 0 <= k < |all'|
        ensures all'[k] != [] && Fits(all'[k])
      {
        if k < |all| {
          assert all'[k] == all[k];
        }
      }
      forall k | 0 <= k < |all'| - 1
        ensures RowWidth(all'[k]) + |all'[k + 1][0].text| > MaxRowWidth
      {
        assert all'[k] == all[k];
        if k + 1 < |all| {
          assert all'[k + 1] == all[k + 1];
        }
      }
      assert all' == (p.rows + [p.open]) + [[b]];
    } else {
      var row := p.open + [b];
      forall j | 1 <= j < |row|
        ensures RowWidth(row[..j]) + |row[j].text| <= MaxRowWidth
      {
        if j < |p.open| {
          assert row[..j] == p.open[..j];
          assert row[j] == p.open[j];
        } else {
          assert row[..j] == p.open;
          assert row[j] == b;
        }
      }
      var all': Keyboard := p.rows + [row];
      forall k | 0 <= k < |all'|
        ensures all'[k] != [] && Fits(all'[k])
      {
        if k < |p.rows| {
          assert all'[k] == all[k];
        }
      }
      forall k | 0 <= k < |all'| - 1
        ensures RowWidth(all'[k]) + |all'[k + 1][0].text| > MaxRowWidth
      {
        assert all'[k] == all[k];
        assert all'[k + 1][0] == all[k + 1][0];
      }
    }
  }

  /** One greedy step appends its button to the flattened packing and leaves a non-empty open row. */
  lemma StepAppends(p: Packing, b: Button)
    ensures Flatten(Step(p, b).rows) + Step(p, b).open == Flatten(p.rows) + p.open + [b]
    ensures Step(p, b).open != []
  {
    if RowWidth(p.open) + |b.text| > MaxRowWidth && |p.open| >= 1 {
      FlattenAppend(p.rows, p.open);
    }
  }

  lemma LastSplit<T>(s: seq<T>)
    requires s != []
    ensures s == s[..|s| - 1] + [s[|s| - 1]]
  {
  }

  /** The packing keeps every button, in order, and the open row is empty only when there were none. */
  lemma {:induction false} PackKeepsButtons(buttons: seq<Button>)
    ensures Flatten(Pack(buttons).rows) + Pack(buttons).open == buttons
    ensures Pack(buttons).open == [] <==> buttons == []
  {
    if buttons != [] {
      var n := |buttons| - 1;
      var p := Pack(buttons[..n]);
      assert Pack(buttons) == Step(p, buttons[n]);
      PackKeepsButtons(buttons[..n]);
      StepAppends(p, buttons[n]);
      LastSplit(buttons);
    }
  }

  /** The closed rows and the open one together obey the greedy rule. */
  lemma {:induction false} PackIsWellPacked(buttons: seq<Button>)
    requires buttons != []
    ensures WellPacked(Pack(buttons).rows + [Pack(buttons).open])
  {
    var n := |buttons| - 1;
    var p := Pack(buttons[..n]);
    PackKeepsButtons(buttons[..n]);
    if p.open != [] {
      PackIsWellPacked(buttons[..n]);
      PackStepKeepsPacked(p, buttons[n]);
    } else {
      assert Fits([buttons[n]]);
    }
  }

  lemma WellPackedPrefix(rows: Keyboard, n: nat)
    requires WellPacked(rows)
    requires n <= |rows|
    ensures WellPacked(rows[..n])
  {
  }

  /** The keyboard with the open row appended, as every call site intends. */
  function Layout(items: seq<string>): (k: Keyboard)
    ensures items == [] <==> k == []
    ensures forall j :: 0 <= j < |k| ==> k[j] != []
  {
    var p := Pack(Buttons(items));
    if p.open == [] then p.rows else p.rows + [p.open]
  }

  /** Every item gets exactly one button, in order, and the rows obey the greedy rule. */
  lemma LayoutKeepsItems(items: seq<string>)
    ensures Flatten(Layout(items)) == Buttons(items)
    ensures WellPacked(Layout(items))
  {
    var p := Pack(Buttons(items));
    PackKeepsButtons(Buttons(items));
    if items != [] {
      PackIsWellPacked(Buttons(items));
    }
    FlattenAppend(p.rows, p.open);
  }

  /**
   * `create_keyboard` as written: the loop closes a row only before a button
   * that does not fit, and the row open when the loop ends is never added.
   */
  method CreateKeyboard(items: seq<string>) returns (keyboard: Keyboard)
    ensures keyboard == Pack(Buttons(items)).rows
    ensures WellPacked(keyboard)
    ensures Flatten(keyboard) <= Buttons(items)
    ensures items != [] ==> Flatten(keyboard) < Buttons(items)
  {
    keyboard := [];
    var currentRow: seq<Button> := [];
    ghost var buttons := Buttons(items);
    for number := 0 to |items|
      invariant Pack(buttons[..number]) == Packing(keyboard, currentRow)
    {
      assert buttons[..number + 1][..number] == buttons[..number];
      var button := Button(items[number], NatToString(number));
      assert Pack(buttons[..number + 1]) == Step(Packing(keyboard, currentRow), button);
      var lenButtonText := |items[number]|;
      var lenCurrentRow := RowWidth(currentRow);
      if lenCurrentRow + lenButtonText > MaxRowWidth && |currentRow| >= 1 {
        keyboard := keyboard + [currentRow];
        currentRow := [];
      }
      currentRow := currentRow + [button];
    }
    assert buttons[..|items|] == buttons;
    PackKeepsButtons(buttons);
    if items != [] {
      PackIsWellPacked(buttons);
      WellPackedPrefix(keyboard + [currentRow], |keyboard|);
      assert (keyboard + [currentRow])[..|keyboard|] == keyboard;
    }
  }

  /** The single-item list gets no button at all from the keyboard as written. */
  lemma SingleItemKeyboardIsEmpty(item: string)
    ensures Pack(Buttons([item])).rows == []
    ensures Layout([item]) == [[Button(item, "0")]]
  {
    assert NatToString(0) == "0";
    assert Buttons([item]) == [Button(item, "0")];
    assert Buttons([item])[..0] == [];
    assert Pack(Buttons([item])) == Packing([], [Button(item, "0")]);
  }

  /** `create_keyboard` with the last open row appended after the loop. */
  method CreateKeyboardFixed(items: seq<string>) returns (keyboard: Keyboard)
    ensures keyboard == Layout(items)
    ensures Flatten(keyboard) == Buttons(items)
    ensures WellPacked(keyboard)
  {
    keyboard := [];
    var currentRow: seq<Button> := [];
    ghost var buttons := Buttons(items);
    for number := 0 to |items|
      invariant Pack(buttons[..number]) == Packing(keyboard, currentRow)
    {
      assert buttons[..number + 1][..number] == buttons[..number];
      var button := Button(items[number], NatToString(number));
      assert Pack(buttons[..number + 1]) == Step(Packing(keyboard, currentRow), button);
      if RowWidth(currentRow) + |items[number]| > MaxRowWidth && |currentRow| >= 1 {
        keyboard := keyboard + [currentRow];
        currentRow := [];
      }
      currentRow := currentRow + [button];
    }
    if |currentRow| >= 1 {
      keyboard := keyboard + [currentRow];
    }
    assert buttons[..|items|] == buttons;
    LayoutKeepsItems(items);
  }

  /** Python's `seq[i]`: negative positions count from the end; others raise. */
  function PyIndex<T>(s: seq<T>, i: int): (r: Option<T>)
    ensures r.Some? <==> -|s| <= i < |s|
    ensures 0 <= i < |s| ==> r == Some(s[i])
    ensures r.Some? ==> r.value in s
  {
    if 0 <= i < |s| then Some(s[i])
    else if -|s| <= i < 0 then Some(s[|s| + i])
    else None
  }

  /** `seq[int(data)]`: the element a click's callback data selects, if any. */
  function Selected<T>(s: seq<T>, data: string): (r: Option<T>)
    ensures PyInt(data).None? ==> r.None?
    ensures r.Some? ==> r.value in s
  {
    match PyInt(data)
    case None => None
    case Some(i) => PyIndex(s, i)
  }

  /** A click on any button of an item keyboard selects exactly the item on its label. */
  lemma ButtonSelectsItsItem(items: seq<string>, b: Button)
    requires b in Flatten(Layout(items))
    ensures Selected(items, b.data) == Some(b.text)
  {
    LayoutKeepsItems(items);
    var k :| 0 <= k < |items| && Buttons(items)[k] == b;
    NatToStringValue(k);
  }

  /** The summary command: the seven answers in order, separated by comma and space. */
  function FinalCommand(sum: string, item: string, group: string, partner: string,
                        comment: string, dates: string, paymentType: string): (r: string)
    ensures sum <= r
    ensures |paymentType| <= |r| && r[|r| - |paymentType|..] == paymentType
  {
    sum + ", " + item + ", " + group + ", " + partner + ", " + comment + ", " + dates + ", " + paymentType
  }

  /** The seven answers as `split(',')` would return them: each but the first behind one space. */
  function CommandParts(fields: seq<string>): (r: seq<string>)
    requires |fields| == 7
    ensures |r| == 7 && r[0] == fields[0]
    ensures forall k :: 1 <= k < 7 ==> r[k] == " " + fields[k]
  {
    [fields[0]] + seq(6, k requires 0 <= k < 6 => " " + fields[k + 1])
  }

  lemma FinalCommandIsJoin(fields: seq<string>)
    requires |fields| == 7
    ensures FinalCommand(fields[0], fields[1], fields[2], fields[3], fields[4], fields[5], fields[6])
      == Join(CommandParts(fields), ',')
  {
    var parts := CommandParts(fields);
    assert Join(parts[6..], ',') == " " + fields[6];
    assert Join(parts[5..], ',') == " " + fields[5] + "," + " " + fields[6];
    assert Join(parts[4..], ',') == " " + fields[4] + "," + Join(parts[5..], ',');
    assert Join(parts[3..], ',') == " " + fields[3] + "," + Join(parts[4..], ',');
    assert Join(parts[2..], ',') == " " + fields[2] + "," + Join(parts[3..], ',');
    assert Join(parts[1..], ',') == " " + fields[1] + "," + Join(parts[2..], ',');
  }

  /** The parts hold no comma when the answers hold none. */
  lemma CommandPartsCommaFree(fields: seq<string>, n: nat)
    requires |fields| == 7 && n <= 7
    requires forall k :: 0 <= k < n ==> ',' !in fields[k]
    ensures forall k :: 0 <= k < n ==> ',' !in CommandParts(fields)[k]
  {
    forall k | 0 <= k < n
      ensures ',' !in CommandParts(fields)[k]
    {
      if k > 0 {
        assert CommandParts(fields)[k] == [' '] + fields[k];
      }
    }
  }

  /**
   * When no answer contains a comma, the command splits at its commas into
   * exactly the seven answers, each but the first behind one space.
   */
  lemma FinalCommandFields(fields: seq<string>)
    requires |fields| == 7
    requires forall k :: 0 <= k < 7 ==> ',' !in fields[k]
    ensures Split(FinalCommand(fields[0], fields[1], fields[2], fields[3], fields[4], fields[5], fields[6]), ',')
      == CommandParts(fields)
  {
    FinalCommandIsJoin(fields);
    CommandPartsCommaFree(fields, 7);
    SplitJoin(CommandParts(fields), ',');
  }

  /** The payment types as written: one label holding all three names. */
  const PaymentTypesAsWritten: seq<string> := ["Наличные, Безналичные, Криптовалюта"]

  /** The three payment types the single label lists. */
  const PaymentTypes: seq<string> := ["Наличные", "Безналичные", "Криптовалюта"]

  /** With the payment types as written, the command carries nine comma-separated fields, not seven. */
  lemma PaymentTypeAsWrittenAddsFields(fields: seq<string>)
    requires |fields| == 6
    requires forall k :: 0 <= k < 6 ==> ',' !in fields[k]
    ensures |Split(FinalCommand(fields[0], fields[1], fields[2], fields[3], fields[4], fields[5],
                                PaymentTypesAsWritten[0]), ',')| == 9
  {
    var all := fields + [PaymentTypesAsWritten[0]];
    var parts := CommandParts(all);
    var head := parts[..6];
    var names := [" Наличные", " Безналичные", " Криптовалюта"];
    FinalCommandIsJoin(all);
    CommandPartsCommaFree(all, 6);
    PaymentLabelJoinsNames();
    LastSplit(parts);
    JoinConcat(head, [parts[6]], ',');
    JoinConcat(head, names, ',');
    forall k | 0 <= k < 9
      ensures ',' !in (head + names)[k]
    {
      if k < 6 {
        assert (head + names)[k] == parts[k];
      } else {
        assert (head + names)[k] == names[k - 6];
      }
    }
    SplitJoin(head + names, ',');
  }

  /** The single label, behind the command's space, is the three names joined at their commas. */
  lemma PaymentLabelJoinsNames()
    ensures Join([" Наличные", " Безналичные", " Криптовалюта"], ',') == " " + PaymentTypesAsWritten[0]
    ensures forall k :: 0 <= k < 3 ==> ',' !in [" Наличные", " Безналичные", " Криптовалюта"][k]
  {
    var names := [" Наличные", " Безналичные", " Криптовалюта"];
    assert names[1..][1..] == [" Криптовалюта"];
  }

  /** With the three payment types, any choice keeps the command at seven fields. */
  lemma PaymentTypesKeepFields(fields: seq<string>, choice: nat)
    requires |fields| == 6
    requires forall k :: 0 <= k < 6 ==> ',' !in fields[k]
    requires choice < |PaymentTypes|
    ensures |Split(FinalCommand(fields[0], fields[1], fields[2], fields[3], fields[4], fields[5],
                                PaymentTypes[choice]), ',')| == 7
  {
    var all := fields + [PaymentTypes[choice]];
    FinalCommandFields(all);
  }

  /** A value kept in the user's session dict: an answer, or the list a keyboard was built from. */
  datatype Datum = Text(text: string) | Names(names: seq<string>)

  /** A message the bot sends on the user's behalf. */
  datatype Sent = Sent(chat: int, text: string)

  const ConfirmLabel: string := "Подтвердить"
  const CancelLabel: string := "Отмена"

  /** The two buttons of the summary message. */
  const ConfirmKeyboard: Keyboard := [[Button(ConfirmLabel, ConfirmLabel)], [Button(CancelLabel, CancelLabel)]]

  /**
   * One user's run through the wizard. The catalogue is read once from the
   * categories sheet; the session dict, the keyboard last shown and the sent
   * messages change step by step. A step that raises (a bad index, a missing
   * key) returns `None`: the conversation stays where it was.
   */
  class Wizard {
    const catalog: Grouping.Catalog
    const items: seq<string>
    var userData: map<string, Datum>
    var keyboard: Keyboard
    var sent: seq<Sent>

    /** The wizard's state obeys `ValidSession`. */
    ghost predicate Valid()
      reads this
    {
      ValidSession(catalog, items, userData)
    }

    constructor(entries: seq<Grouping.Entry>)
      ensures Valid()
      ensures catalog == Grouping.Grouped(entries)
      ensures items == Grouping.Unique(Grouping.Categories(entries))
      ensures userData == map[] && keyboard == [] && sent == []
    {
      var c := Grouping.Grouped(entries);
      var names := Grouping.Unique(Grouping.Categories(entries));
      Grouping.GroupedKeys(entries);
      EmptySessionValid(c, names);
      catalog := c;
      items := names;
      userData := map[];
      keyboard := [];
      sent := [];
    }

    /** `/enter_record` asks for the amount. */
    method EnterRecord() returns (next: int)
      ensures next == InputSumState
    {
      next := InputSumState;
    }

    /** An amount of digits with an optional decimal part is kept and the items offered; any other text ends the wizard. */
    method InputSum(text: string) returns (next: int)
      requires Valid()
      modifies this
      ensures Valid() && sent == old(sent)
      ensures !Amounts.IsAmountText(text) ==>
        next == End && userData == old(userData) && keyboard == old(keyboard)
      ensures Amounts.IsAmountText(text) ==>
        next == InputItemState && userData == old(userData)["sum" := Text(text)] && keyboard == Layout(items)
    {
      if !Amounts.IsAmountText(text) {
        return End;
      }
      AnswerKeepsValid(catalog, items, userData, "sum", text);
      userData := userData["sum" := Text(text)];
      keyboard := CreateKeyboardFixed(items);
      next := InputItemState;
    }

    /** The clicked item is kept with its groups, and the groups are offered. */
    method InputItem(data: string) returns (next: Option<int>)
      requires Valid()
      modifies this
      ensures Valid() && sent == old(sent)
      ensures Selected(items, data).None? ==>
        next.None? && userData == old(userData) && keyboard == old(keyboard)
      ensures Selected(items, data).Some? ==>
        var item := Selected(items, data).value;
        var groups := catalog.values[item].keys;
        && next == Some(InputGroupState)
        && userData == old(userData)["item" := Text(item)]["groups" := Names(groups)]
        && keyboard == Layout(groups)
    {
      var selected := Selected(items, data);
      if selected.None? {
        return None;
      }
      var item := selected.value;
      assert item in catalog.values;
      var groups := catalog.values[item].keys;
      keyboard := CreateKeyboardFixed(groups);
      ChooseItemKeepsValid(catalog, items, userData, item);
      userData := userData["item" := Text(item)]["groups" := Names(groups)];
      next := Some(InputGroupState);
    }

    /** The clicked group is kept, the pending group list dropped, and the group's partners offered. */
    method InputGroup(data: string) returns (next: Option<int>)
      requires Valid()
      modifies this
      ensures Valid() && sent == old(sent)
      ensures ("groups" !in old(userData) || Selected(old(userData)["groups"].names, data).None?) ==>
        next.None? && userData == old(userData) && keyboard == old(keyboard)
      ensures "groups" in old(userData) && Selected(old(userData)["groups"].names, data).Some? ==>
        var group := Selected(old(userData)["groups"].names, data).value;
        var partners := catalog.values[old(userData)["item"].text].values[group];
        && next == Some(InputPartnerState)
        && userData == old(userData)["group" := Text(group)]["partners" := Names(partners)] - {"groups"}
        && keyboard == Layout(partners)
    {
      if "groups" !in userData {
        return None;
      }
      var selected := Selected(userData["groups"].names, data);
      if selected.None? {
        return None;
      }
      var group := selected.value;
      var item := userData["item"].text;
      assert group in catalog.values[item].values;
      var partners := catalog.values[item].values[group];
      ChooseGroupKeepsValid(catalog, items, userData, group, partners);
      userData := userData["group" := Text(group)]["partners" := Names(partners)] - {"groups"};
      keyboard := CreateKeyboardFixed(partners);
      next := Some(InputPartnerState);
    }

    /** The clicked partner is kept and the pending partner list dropped. */
    method InputPartner(data: string) returns (next: Option<int>)
      requires Valid()
      modifies this
      ensures Valid() && sent == old(sent) && keyboard == old(keyboard)
      ensures ("partners" !in old(userData) || Selected(old(userData)["partners"].names, data).None?) ==>
        next.None? && userData == old(userData)
      ensures "partners" in old(userData) && Selected(old(userData)["partners"].names, data).Some? ==>
        && next == Some(InputCommentState)
        && userData == old(userData)["partner" := Text(Selected(old(userData)["partners"].names, data).value)] - {"partners"}
    {
      if "partners" !in userData {
        return None;
      }
      var selected := Selected(userData["partners"].names, data);
      if selected.None? {
        return None;
      }
      ChoosePartnerKeepsValid(catalog, items, userData, selected.value);
      userData := userData["partner" := Text(selected.value)] - {"partners"};
      next := Some(InputCommentState);
    }

    method InputComment(text: string) returns (next: int)
      requires Valid()
      modifies this
      ensures Valid() && sent == old(sent) && keyboard == old(keyboard)
      ensures next == InputDatesState && userData == old(userData)["comment" := Text(text)]
    {
      AnswerKeepsValid(catalog, items, userData, "comment", text);
      userData := userData["comment" := Text(text)];
      next := InputDatesState;
    }

    /** The dates are kept as typed and the payment types offered. */
    method InputDates(text: string) returns (next: int)
      requires Valid()
      modifies this
      ensures Valid() && sent == old(sent)
      ensures next == InputPaymentTypeState && userData == old(userData)["dates" := Text(text)]
      ensures keyboard == Layout(PaymentTypes)
    {
      AnswerKeepsValid(catalog, items, userData, "dates", text);
      userData := userData["dates" := Text(text)];
      keyboard := CreateKeyboardFixed(PaymentTypes);
      next := InputPaymentTypeState;
    }

    /** The six answers and the chosen payment type make the command; confirmation is offered. */
    method InputPaymentType(data: string) returns (next: Option<int>)
      requires Valid()
      modifies this
      ensures Valid() && sent == old(sent)
      ensures var d := old(userData);
        (Selected(PaymentTypes, data).None? || !HasAnswers(d)) ==>
          next.None? && userData == d && keyboard == old(keyboard)
      ensures var d := old(userData);
        Selected(PaymentTypes, data).Some? && HasAnswers(d) ==>
          && next == Some(ConfirmCommandState)
          && userData == d["final_command" := Text(FinalCommand(d["sum"].text, d["item"].text, d["group"].text,
               d["partner"].text, d["comment"].text, d["dates"].text, Selected(PaymentTypes, data).value))]
          && keyboard == ConfirmKeyboard
    {
      var selected := Selected(PaymentTypes, data);
      if selected.None? || !HasAnswers(userData) {
        return None;
      }
      var command := FinalCommand(userData["sum"].text, userData["item"].text, userData["group"].text,
        userData["partner"].text, userData["comment"].text, userData["dates"].text, selected.value);
      AnswerKeepsValid(catalog, items, userData, "final_command", command);
      userData := userData["final_command" := Text(command)];
      keyboard := ConfirmKeyboard;
      next := Some(ConfirmCommandState);
    }

    /** Confirming sends the stored command as a `/submit_record` message, if there is one; either answer ends the wizard. */
    method ConfirmCommand(data: string, chat: int) returns (next: int)
      requires Valid()
      modifies this
      ensures Valid() && userData == old(userData) && keyboard == old(keyboard)
      ensures next == End
      ensures data == ConfirmLabel && "final_command" in userData && userData["final_command"].text != "" ==>
        sent == old(sent) + [Sent(chat, "/submit_record " + userData["final_command"].text)]
      ensures !(data == ConfirmLabel && "final_command" in userData && userData["final_command"].text != "") ==>
        sent == old(sent)
    {
      if data == ConfirmLabel {
        var command := if "final_command" in userData then userData["final_command"].text else "";
        if command != "" {
          sent := sent + [Sent(chat, "/submit_record " + command)];
        }
      }
      next := End;
    }
  }

  /**
   * The catalogue's categories are the item list; the session holds answers,
   * except the pending group and partner lists; and pending groups are those
   * of the chosen item.
   */
  ghost predicate ValidSession(catalog: Grouping.Catalog, items: seq<string>, d: map<string, Datum>)
  {
    && Grouping.ValidCatalog(catalog)
    && items == catalog.keys
    && (forall k :: k in d && k != "groups" && k != "partners" ==> d[k].Text?)
    && ("partners" in d ==> d["partners"].Names?)
    && ("groups" in d ==>
          && d["groups"].Names?
          && "item" in d
          && d["item"].text in catalog.values
          && d["groups"].names == catalog.values[d["item"].text].keys)
  }

  /** A fresh session over a valid catalogue and its category list is valid. */
  lemma EmptySessionValid(catalog: Grouping.Catalog, items: seq<string>)
    requires Grouping.ValidCatalog(catalog) && items == catalog.keys
    ensures ValidSession(catalog, items, map[])
  {
  }

  /** Storing a typed answer under any key but the item and the pending lists keeps the session valid. */
  lemma AnswerKeepsValid(catalog: Grouping.Catalog, items: seq<string>, d: map<string, Datum>, key: string, text: string)
    requires ValidSession(catalog, items, d)
    requires key != "item" && key != "groups" && key != "partners"
    ensures ValidSession(catalog, items, d[key := Text(text)])
  {
    var d' := d[key := Text(text)];
    forall k | k in d' && k != "groups" && k != "partners"
      ensures d'[k].Text?
    {
      if k != key {
        assert d'[k] == d[k];
      }
    }
  }

  /** Choosing an item and storing its groups as the pending list keeps the session valid. */
  lemma ChooseItemKeepsValid(catalog: Grouping.Catalog, items: seq<string>, d: map<string, Datum>, item: string)
    requires ValidSession(catalog, items, d)
    requires item in catalog.values
    ensures ValidSession(catalog, items, d["item" := Text(item)]["groups" := Names(catalog.values[item].keys)])
  {
    var d' := d["item" := Text(item)]["groups" := Names(catalog.values[item].keys)];
    forall k | k in d' && k != "groups" && k != "partners"
      ensures d'[k].Text?
    {
      if k != "item" {
        assert d'[k] == d[k];
      }
    }
    if "partners" in d' {
      assert d'["partners"] == d["partners"];
    }
  }

  /** Choosing a group, storing its partners as the pending list and dropping the groups keeps the session valid. */
  lemma ChooseGroupKeepsValid(catalog: Grouping.Catalog, items: seq<string>, d: map<string, Datum>,
                              group: string, partners: seq<string>)
    requires ValidSession(catalog, items, d)
    ensures ValidSession(catalog, items, d["group" := Text(group)]["partners" := Names(partners)] - {"groups"})
  {
    var d' := d["group" := Text(group)]["partners" := Names(partners)] - {"groups"};
    forall k | k in d' && k != "groups" && k != "partners"
      ensures d'[k].Text?
    {
      if k != "group" {
        assert d'[k] == d[k];
      }
    }
  }

  /** Choosing a partner and dropping the pending partners keeps the session valid. */
  lemma ChoosePartnerKeepsValid(catalog: Grouping.Catalog, items: seq<string>, d: map<string, Datum>, partner: string)
    requires ValidSession(catalog, items, d)
    ensures ValidSession(catalog, items, d["partner" := Text(partner)] - {"partners"})
  {
    var d' := d["partner" := Text(partner)] - {"partners"};
    forall k | k in d' && k != "groups" && k != "partners"
      ensures d'[k].Text?
    {
      if k != "partner" {
        assert d'[k] == d[k];
      }
    }
    if "groups" in d' {
      assert d'["groups"] == d["groups"] && d'["item"] == d["item"];
    }
  }

  /** The six answers the command is built from are all in the session dict. */
  predicate HasAnswers(d: map<string, Datum>)
  {
    && "sum" in d && d["sum"].Text? && "item" in d && d["item"].Text? && "group" in d && d["group"].Text?
    && "partner" in d && d["partner"].Text? && "comment" in d && d["comment"].Text? && "dates" in d && d["dates"].Text?
  }
}
