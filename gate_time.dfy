/** The gate-time resolver shared by the export rows and the security table: which logged
    action stands for the gate-out and the gate-in, and which evidence dates it. */
module GateTime {
  import opened JsText
  import opened ParseInt
  import opened Requests

  /** `item.security_guard_action || []` */
  function Actions(r: LeaveRequest): seq<SecurityAction>
  {
    if r.securityGuardAction.Some? then r.securityGuardAction.value else []
  }

  /** `a.action === kind || a.security_status === kind` */
  predicate IsKind(a: SecurityAction, kind: string)
  {
    a.action == Some(kind) || a.securityStatus == Some(kind)
  }

  /** The index `actions.find` stops at, None when no action has the kind. */
  function FirstOfKind(actions: seq<SecurityAction>, kind: string): (r: Option<nat>)
    ensures r.Some? ==> r.value < |actions| && IsKind(actions[r.value], kind)
    ensures r.Some? ==> forall j :: 0 <= j < r.value ==> !IsKind(actions[j], kind)
    ensures r.None? ==> forall j :: 0 <= j < |actions| ==> !IsKind(actions[j], kind)
  {
    if actions == [] then None
    else if IsKind(actions[0], kind) then Some(0)
    else
      match FirstOfKind(actions[1..], kind)
      case None => None
      case Some(k) => Some(k + 1)
  }

  /** The out slot: the first 'out' action, otherwise `actions[0]` when there is one. */
  function OutSlot(actions: seq<SecurityAction>): Option<SecurityAction>
  {
    match FirstOfKind(actions, "out")
    case Some(i) => Some(actions[i])
    case None => if |actions| > 0 then Some(actions[0]) else None
  }

  /** The in slot: the first 'in' action, otherwise `actions[1]` when there are two. */
  function InSlot(actions: seq<SecurityAction>): Option<SecurityAction>
  {
    match FirstOfKind(actions, "in")
    case Some(i) => Some(actions[i])
    case None => if |actions| > 1 then Some(actions[1]) else None
  }

  /** `action_time || updated_at || updatedAt || created_at || createdAt`, in that order. */
  function TimestampFields(a: SecurityAction): seq<Option<string>>
  {
    [a.actionTime, a.updatedAtSnake, a.updatedAtCamel, a.createdAtSnake, a.createdAtCamel]
  }

  /** `parseInt(_id.substring(0, 8), 16) * 1000` for a 24-character `_id`; None when the id
      is missing, has another length, or its prefix parses to NaN. */
  function IdInstant(a: SecurityAction): Option<int>
  {
    if Truthy(a.id) && |a.id.value| == 24 then
      match ParseIntHex(a.id.value[..8])
      case Some(seconds) => Some(seconds * 1000)
      case None => None
    else None
  }

  /** The evidence an action itself carries: a timestamp field, else its identifier. */
  function ActionStamp(a: SecurityAction): Option<Stamp>
  {
    match FirstTruthy(TimestampFields(a))
    case Some(raw) => Some(Iso(raw))
    case None =>
      match IdInstant(a)
      case Some(ms) => Some(Epoch(ms))
      case None => None
  }

  function SlotStamp(slot: Option<SecurityAction>): Option<Stamp>
  {
    if slot.Some? then ActionStamp(slot.value) else None
  }

  /** What `getOutTime` formats; None is the literal '---'. A slot without evidence falls back
      to the document's `updated_at` when the student is out or back in. */
  function OutStamp(r: LeaveRequest): Option<Stamp>
  {
    var s := SlotStamp(OutSlot(Actions(r)));
    if s.Some? then s
    else if r.securityStatus == "out" || r.securityStatus == "in" then Some(Iso(r.updatedAt))
    else None
  }

  /** What `getInTime` formats; the document fallback applies only once the student is back in. */
  function InStamp(r: LeaveRequest): Option<Stamp>
  {
    var s := SlotStamp(InSlot(Actions(r)));
    if s.Some? then s
    else if r.securityStatus == "in" then Some(Iso(r.updatedAt))
    else None
  }

  // ---------------------------------------------------------------- slot selection

  /** A labelled 'out' action wins: the slot is the first action labelled 'out'. */
  lemma OutSlotLabelled(actions: seq<SecurityAction>, i: nat)
    requires i < |actions| && IsKind(actions[i], "out")
    requires forall j :: 0 <= j < i ==> !IsKind(actions[j], "out")
    ensures OutSlot(actions) == Some(actions[i])
  {
  }

  /** Without a labelled 'out' action the first entry is taken; only an empty history has no out slot. */
  lemma OutSlotUnlabelled(actions: seq<SecurityAction>)
    requires forall j :: 0 <= j < |actions| ==> !IsKind(actions[j], "out")
    ensures OutSlot(actions) == if actions == [] then None else Some(actions[0])
  {
  }

  /** A labelled 'in' action wins: the slot is the first action labelled 'in'. */
  lemma InSlotLabelled(actions: seq<SecurityAction>, i: nat)
    requires i < |actions| && IsKind(actions[i], "in")
    requires forall j :: 0 <= j < i ==> !IsKind(actions[j], "in")
    ensures InSlot(actions) == Some(actions[i])
  {
  }

  /** Without a labelled 'in' action the second entry is taken, and nothing when there is none. */
  lemma InSlotUnlabelled(actions: seq<SecurityAction>)
    requires forall j :: 0 <= j < |actions| ==> !IsKind(actions[j], "in")
    ensures InSlot(actions) == if |actions| < 2 then None else Some(actions[1])
  {
  }

  /** The out slot exists exactly when the history is non-empty. */
  lemma OutSlotPresence(actions: seq<SecurityAction>)
    ensures OutSlot(actions).Some? <==> actions != []
  {
  }

  /** The in slot exists exactly when some action is labelled 'in' or there are two actions. */
  lemma InSlotPresence(actions: seq<SecurityAction>)
    ensures InSlot(actions).Some? <==>
      (|actions| >= 2 || exists j :: 0 <= j < |actions| && IsKind(actions[j], "in"))
  {
  }

  // ---------------------------------------------------------------- evidence of one action

  /** The first truthy timestamp field dates the action, whatever the later fields and the id hold. */
  lemma {:induction false} FieldTier(a: SecurityAction, k: nat)
    requires k < 5 && Truthy(TimestampFields(a)[k])
    requires forall j :: 0 <= j < k ==> !Truthy(TimestampFields(a)[j])
    ensures ActionStamp(a) == Some(Iso(TimestampFields(a)[k].value))
  {
    FirstTruthyAt(TimestampFields(a), k);
  }

  /** With no truthy timestamp field, the identifier's embedded second dates the action. */
  lemma {:induction false} IdTier(a: SecurityAction)
    requires forall j :: 0 <= j < 5 ==> !Truthy(TimestampFields(a)[j])
    ensures ActionStamp(a) == if IdInstant(a).Some? then Some(Epoch(IdInstant(a).value)) else None
  {
    FirstTruthyNone(TimestampFields(a));
  }

  /** An identifier whose first 8 characters are the hex digits of `seconds` dates the action
      at `seconds * 1000` milliseconds. */
  lemma IdTierHexPrefix(a: SecurityAction, seconds: nat, rest: string)
    requires seconds < Pow16(8) && |rest| == 16
    requires a.id == Some(HexDigits(seconds, 8) + rest)
    requires forall j :: 0 <= j < 5 ==> !Truthy(TimestampFields(a)[j])
    ensures ActionStamp(a) == Some(Epoch(seconds * 1000))
  {
    IdTier(a);
    assert a.id.value[..8] == HexDigits(seconds, 8);
    ParseHexDigits(seconds, 8);
  }

  /** An action whose only evidence is `_id` "507f191e810c19729de860ea" is dated
      0x507f191e = 1350506782 seconds after the epoch. */
  lemma ObjectIdExample(a: SecurityAction)
    requires a.id == Some("507f191e810c19729de860ea")
    requires forall j :: 0 <= j < 5 ==> !Truthy(TimestampFields(a)[j])
    ensures ActionStamp(a) == Some(Epoch(1350506782000))
  {
    IdTier(a);
    assert a.id.value[..8] == "507f191e";
    ParseObjectIdPrefix();
  }

  /** Action evidence is never falsy: it is a non-empty string or a Date. */
  lemma ActionStampTruthy(a: SecurityAction)
    ensures ActionStamp(a).Some? ==> StampTruthy(ActionStamp(a).value)
  {
    FirstTruthyIsTruthy(TimestampFields(a));
  }

  // ---------------------------------------------------------------- document fallback

  /** With no action evidence, the out time is the document's `updated_at` iff the status is 'out' or 'in'. */
  lemma OutDocumentFallback(r: LeaveRequest)
    requires SlotStamp(OutSlot(Actions(r))).None?
    ensures OutStamp(r) == if r.securityStatus in {"out", "in"} then Some(Iso(r.updatedAt)) else None
  {
  }

  /** With no action evidence, the in time is the document's `updated_at` iff the status is 'in'. */
  lemma InDocumentFallback(r: LeaveRequest)
    requires SlotStamp(InSlot(Actions(r))).None?
    ensures InStamp(r) == if r.securityStatus == "in" then Some(Iso(r.updatedAt)) else None
  {
  }

  /** A labelled 'out' action with an action time is shown with that time, whatever else is present. */
  lemma LabelledOutActionTime(r: LeaveRequest, i: nat)
    requires i < |Actions(r)| && IsKind(Actions(r)[i], "out")
    requires forall j :: 0 <= j < i ==> !IsKind(Actions(r)[j], "out")
    requires Truthy(Actions(r)[i].actionTime)
    ensures OutStamp(r) == Some(Iso(Actions(r)[i].actionTime.value))
  {
    OutSlotLabelled(Actions(r), i);
    FieldTier(Actions(r)[i], 0);
  }

  /** A pending request without a history resolves neither time. */
  lemma PendingWithoutHistory(r: LeaveRequest)
    requires Actions(r) == [] && r.securityStatus == "pending"
    ensures OutStamp(r).None? && InStamp(r).None?
  {
  }

  /** A request back 'in' with neither an 'in' action nor a second action shows its document update as the in time. */
  lemma InStatusWithoutInAction(r: LeaveRequest)
    requires r.securityStatus == "in" && |Actions(r)| < 2
    requires forall j :: 0 <= j < |Actions(r)| ==> !IsKind(Actions(r)[j], "in")
    ensures InStamp(r) == Some(Iso(r.updatedAt))
  {
    InSlotUnlabelled(Actions(r));
  }

  /** A falsy value reaches `formatTime` only through the document fallback with an empty `updated_at`. */
  lemma FalsyOutStamp(r: LeaveRequest)
    requires OutStamp(r).Some? && !StampTruthy(OutStamp(r).value)
    ensures SlotStamp(OutSlot(Actions(r))).None?
    ensures r.securityStatus in {"out", "in"} && r.updatedAt == "" && OutStamp(r) == Some(Iso(""))
  {
    var slot := OutSlot(Actions(r));
    if slot.Some? {
      ActionStampTruthy(slot.value);
    }
  }

  /** The same for the in time, whose fallback needs status 'in'. */
  lemma FalsyInStamp(r: LeaveRequest)
    requires InStamp(r).Some? && !StampTruthy(InStamp(r).value)
    ensures SlotStamp(InSlot(Actions(r))).None?
    ensures r.securityStatus == "in" && r.updatedAt == "" && InStamp(r) == Some(Iso(""))
  {
    var slot := InSlot(Actions(r));
    if slot.Some? {
      ActionStampTruthy(slot.value);
    }
  }
}
