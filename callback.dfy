/**
 * The `callback_data` strings carried by the inline buttons, and how the
 * click handlers take them apart again with `split("_")`.
 */
module Callback {
  import opened Wrappers
  import opened Strings

  /** The four fields of an approve/reject button. */
  datatype ApprovalData = ApprovalData(department: string, action: string, id: string, initiator: string)

  /** `approval_{department}_{action}_{id}_{initiator}` */
  function EncodeApproval(department: string, action: string, id: string, initiator: string): (r: string)
    ensures "approval_" <= r
    ensures |initiator| < |r| && r[|r| - |initiator| - 1..] == "_" + initiator
  {
    "approval_" + department + "_" + action + "_" + id + "_" + initiator
  }

  /** `pay_{id}` */
  function EncodePay(id: string): (r: string)
    ensures "pay_" <= r && r[4..] == id
  {
    "pay_" + id
  }

  /**
   * `process_approval`'s parsing: fields 1 and 2 unpack into department and
   * action, fields 3 and 4 are the id and the initiator's chat; fewer than
   * five fields raise, extra fields are ignored and field 0 is never looked at.
   */
  function DecodeApproval(data: string): (r: Option<ApprovalData>)
    ensures r.Some? <==> 5 <= |Split(data, '_')|
  {
    var parts := Split(data, '_');
    if |parts| < 5 then None else Some(ApprovalData(parts[1], parts[2], parts[3], parts[4]))
  }

  /** `process_pay`'s parsing: field 1 is the id; fewer than two fields fail. */
  function DecodePay(data: string): (r: Option<string>)
    ensures r.Some? <==> 2 <= |Split(data, '_')|
  {
    var parts := Split(data, '_');
    if |parts| < 2 then None else Some(parts[1])
  }

  lemma EncodeApprovalIsJoin(department: string, action: string, id: string, initiator: string)
    ensures EncodeApproval(department, action, id, initiator)
         == Join(["approval", department, action, id, initiator], '_')
  {
    var ps := ["approval", department, action, id, initiator];
    assert ps[1..][1..][1..][1..] == [initiator];
    assert ps[1..][1..][1..] == [id, initiator];
    assert ps[1..][1..] == [action, id, initiator];
    assert ps[1..] == [department, action, id, initiator];
    var tail3 := id + "_" + initiator;
    assert Join([id, initiator], '_') == tail3;
    var tail2 := action + "_" + tail3;
    assert Join([action, id, initiator], '_') == tail2;
    var tail1 := department + "_" + tail2;
    assert Join([department, action, id, initiator], '_') == tail1;
    assert Join(ps, '_') == "approval" + "_" + tail1;
  }

  /** An approval button decodes to the fields it was built from when none holds '_'. */
  lemma ApprovalRoundTrip(department: string, action: string, id: string, initiator: string)
    requires '_' !in department && '_' !in action && '_' !in id && '_' !in initiator
    ensures DecodeApproval(EncodeApproval(department, action, id, initiator))
         == Some(ApprovalData(department, action, id, initiator))
  {
    var ps := ["approval", department, action, id, initiator];
    EncodeApprovalIsJoin(department, action, id, initiator);
    SplitJoin(ps, '_');
  }

  /** A pay button decodes to its id when the id holds no '_'. */
  lemma PayRoundTrip(id: string)
    requires '_' !in id
    ensures DecodePay(EncodePay(id)) == Some(id)
  {
    assert EncodePay(id) == Join(["pay", id], '_');
    SplitJoin(["pay", id], '_');
  }

  /** Ids and chat ids printed by `str` never hold '_', so their buttons round-trip. */
  lemma PrintedIdsRoundTrip(department: string, action: string, id: nat, chat: int)
    requires '_' !in department && '_' !in action
    ensures DecodeApproval(EncodeApproval(department, action, NatToString(id), IntToString(chat)))
         == Some(ApprovalData(department, action, NatToString(id), IntToString(chat)))
    ensures DecodePay(EncodePay(NatToString(id))) == Some(NatToString(id))
    ensures ParseNat(NatToString(id)) == Some(id)
  {
    var s, c := NatToString(id), IntToString(chat);
    assert forall k :: 0 <= k < |s| ==> s[k] != '_';
    assert forall k :: 0 <= k < |c| ==> c[k] != '_';
    ApprovalRoundTrip(department, action, s, c);
    PayRoundTrip(s);
    ParseNatToString(id);
  }

  /** An initiator field holding '_' comes back cut at its first '_'. */
  lemma InitiatorWithUnderscoreIsCut()
    ensures DecodeApproval(EncodeApproval("head", "approve", "7", "a_b"))
         == Some(ApprovalData("head", "approve", "7", "a"))
  {
    var fields := ["approval", "head", "approve", "7"];
    var ps := fields + ["a", "b"];
    EncodeApprovalIsJoin("head", "approve", "7", "a_b");
    assert ["approval", "head", "approve", "7", "a_b"] == fields + ["a_b"];
    JoinConcat(fields, ["a_b"], '_');
    JoinConcat(fields, ["a", "b"], '_');
    assert Join(["a", "b"], '_') == "a_b";
    assert ps == ["approval", "head", "approve", "7", "a", "b"];
    SplitJoin(ps, '_');
  }
}
