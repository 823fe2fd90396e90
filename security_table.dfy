/** The security table: which columns it shows, what the gate-log cell says for each request,
    and whether it renders a spinner, an empty notice or the table. */
module SecurityTable {
  import opened JsText
  import opened Requests
  import opened GateTime
  import opened SecurityRequestsHook

  datatype ActionType = Out | In

  datatype Column = StudentDetails | HostelRoom | AppliedDuration | GateLogs | Reason | Action

  function Header(c: Column): string
  {
    match c
    case StudentDetails => "STUDENT DETAILS"
    case HostelRoom => "HOSTEL & ROOM"
    case AppliedDuration => "APPLIED DURATION"
    case GateLogs => "GATE LOGS"
    case Reason => "REASON"
    case Action => "ACTION"
  }

  /** The `columns` memo: three fixed columns, the gate-log column when either gate time is shown,
      the reason column always, and the action column last when there is an action. */
  method Columns(showActualOut: bool, showActualIn: bool, actionType: Option<ActionType>) returns (cols: seq<Column>)
    ensures |cols| == 4 + (if showActualOut || showActualIn then 1 else 0) + (if actionType.Some? then 1 else 0)
    ensures cols[..3] == [StudentDetails, HostelRoom, AppliedDuration]
    ensures GateLogs in cols <==> showActualOut || showActualIn
    ensures (showActualOut || showActualIn) ==> cols[3] == GateLogs
    ensures Reason in cols && cols[|cols| - 1 - (if actionType.Some? then 1 else 0)] == Reason
    ensures Action in cols <==> actionType.Some?
    ensures actionType.Some? ==> cols[|cols| - 1] == Action
    ensures forall i, j :: 0 <= i < j < |cols| ==> cols[i] != cols[j]
  {
    cols := [StudentDetails, HostelRoom, AppliedDuration];
    if showActualOut || showActualIn {
      cols := cols + [GateLogs];
    }
    cols := cols + [Reason];
    if actionType.Some? {
      cols := cols + [Action];
    }
  }

  // ---------------------------------------------------------------- gate-log cell

  /** The table's `formatTime` result; None is `null`, which renders as nothing. Unlike the export,
      a resolved but falsy value gives null, and only an unresolved time gives '---'. */
  function CellTime(s: Option<Stamp>, dj: Dayjs): Option<string>
  {
    match s
    case None => Some("---")
    case Some(t) => if StampTruthy(t) then Some(dj.display(t)) else None
  }

  function TableOutTime(r: LeaveRequest, dj: Dayjs): Option<string>
  {
    CellTime(OutStamp(r), dj)
  }

  function TableInTime(r: LeaveRequest, dj: Dayjs): Option<string>
  {
    CellTime(InStamp(r), dj)
  }

  /** The out time is shown in full when an out action was picked or the request left 'pending'. */
  predicate OutEmphasised(r: LeaveRequest)
  {
    OutSlot(Actions(r)).Some? || r.securityStatus != "pending"
  }

  /** The in time is shown in full when an in action was picked or the student is back 'in'. */
  predicate InEmphasised(r: LeaveRequest)
  {
    InSlot(Actions(r)).Some? || r.securityStatus == "in"
  }

  /** One line of the gate-log cell. */
  datatype GateLine = GateLine(tag: string, text: Option<string>, emphasised: bool)

  function GateLogCell(r: LeaveRequest, showActualOut: bool, showActualIn: bool, dj: Dayjs): seq<GateLine>
  {
    (if showActualOut then [GateLine("OUT", TableOutTime(r, dj), OutEmphasised(r))] else [])
    + (if showActualIn then [GateLine("IN", TableInTime(r, dj), InEmphasised(r))] else [])
  }

  /** The table and the export resolve the same time; they differ only on a falsy value,
      which the table renders as null and the export as '---', and that happens only through
      the document fallback with an empty `updated_at`. */
  lemma TableVersusExportOut(r: LeaveRequest, dj: Dayjs)
    ensures TableOutTime(r, dj).Some? ==> TableOutTime(r, dj).value == ExportTime(OutStamp(r), dj)
    ensures TableOutTime(r, dj).None? <==>
      SlotStamp(OutSlot(Actions(r))).None? && r.securityStatus in {"out", "in"} && r.updatedAt == ""
    ensures TableOutTime(r, dj).None? ==> ExportTime(OutStamp(r), dj) == "---"
  {
    if TableOutTime(r, dj).None? {
      FalsyOutStamp(r);
    }
  }

  /** The same comparison for the in time, whose fallback needs status 'in'. */
  lemma TableVersusExportIn(r: LeaveRequest, dj: Dayjs)
    ensures TableInTime(r, dj).Some? ==> TableInTime(r, dj).value == ExportTime(InStamp(r), dj)
    ensures TableInTime(r, dj).None? <==>
      SlotStamp(InSlot(Actions(r))).None? && r.securityStatus == "in" && r.updatedAt == ""
    ensures TableInTime(r, dj).None? ==> ExportTime(InStamp(r), dj) == "---"
  {
    if TableInTime(r, dj).None? {
      FalsyInStamp(r);
    }
  }

  /** The out time is emphasised exactly when the history is non-empty or the status is not 'pending'. */
  lemma OutEmphasisIff(r: LeaveRequest)
    ensures OutEmphasised(r) <==> Actions(r) != [] || r.securityStatus != "pending"
  {
    OutSlotPresence(Actions(r));
  }

  /** The in time is emphasised exactly when some action is labelled 'in', there are two actions,
      or the status is 'in'. */
  lemma InEmphasisIff(r: LeaveRequest)
    ensures InEmphasised(r) <==>
      |Actions(r)| >= 2 || (exists j :: 0 <= j < |Actions(r)| && IsKind(Actions(r)[j], "in"))
      || r.securityStatus == "in"
  {
    InSlotPresence(Actions(r));
  }

  /** A dimmed out time always reads '---': nothing was picked and the fallback does not apply. */
  lemma DimmedOutIsPlaceholder(r: LeaveRequest, dj: Dayjs)
    requires !OutEmphasised(r)
    ensures TableOutTime(r, dj) == Some("---")
  {
  }

  /** A dimmed in time always reads '---'. */
  lemma DimmedInIsPlaceholder(r: LeaveRequest, dj: Dayjs)
    requires !InEmphasised(r)
    ensures TableInTime(r, dj) == Some("---")
  {
  }

  /** The gate-log cell holds the OUT line iff it is asked for, then the IN line iff it is asked for. */
  lemma GateLogCellLines(r: LeaveRequest, showActualOut: bool, showActualIn: bool, dj: Dayjs)
    ensures var c := GateLogCell(r, showActualOut, showActualIn, dj);
      |c| == (if showActualOut then 1 else 0) + (if showActualIn then 1 else 0)
      && (showActualOut ==> c[0] == GateLine("OUT", TableOutTime(r, dj), OutEmphasised(r)))
      && (showActualIn ==> c[|c| - 1] == GateLine("IN", TableInTime(r, dj), InEmphasised(r)))
  {
  }

  // ---------------------------------------------------------------- action button and render

  /** The action button: its caption is the action type, red for 'out', and a click reports the row's request id. */
  datatype ActionButton = ActionButton(caption: string, red: bool, requestId: string)

  function ActionCell(actionType: ActionType, row: LeaveRequest): (b: ActionButton)
    ensures b.requestId == row.requestId
    ensures b.red <==> actionType == Out
    ensures b.caption == "out" <==> actionType == Out
    ensures b.caption == "in" <==> actionType == In
  {
    ActionButton(if actionType == Out then "out" else "in", actionType == Out, row.requestId)
  }

  datatype View = Spinner | NoRecords | Table(rows: seq<LeaveRequest>, columns: seq<Column>)

  function Render(data: seq<LeaveRequest>, loading: bool, columns: seq<Column>): View
  {
    if loading then Spinner
    else if |data| == 0 then NoRecords
    else Table(data, columns)
  }

  /** The action buttons a rendered view shows, row by row: one per table row when the table
      has the action column, none otherwise. */
  function RowActions(actionType: ActionType, v: View): seq<ActionButton>
  {
    if v.Table? && Action in v.columns then
      seq(|v.rows|, i requires 0 <= i < |v.rows| => ActionCell(actionType, v.rows[i]))
    else []
  }

  /** A rendered table with the action column has one button per request, in order; the i-th
      reports the i-th request's id and is red and captioned 'out' exactly for the out action.
      A spinner, an empty notice or a table without the column has no button. */
  lemma RenderedActions(data: seq<LeaveRequest>, loading: bool, columns: seq<Column>, actionType: ActionType)
    ensures var bs := RowActions(actionType, Render(data, loading, columns));
      |bs| == (if !loading && Action in columns then |data| else 0)
      && forall i :: 0 <= i < |bs| ==>
        bs[i].requestId == data[i].requestId
        && (bs[i].red <==> actionType == Out)
        && (bs[i].caption == "out" <==> actionType == Out)
  {
  }

  /** Loading wins over data; the empty notice needs an empty list; otherwise every row is shown,
      in order. */
  lemma RenderSelection(data: seq<LeaveRequest>, loading: bool, columns: seq<Column>)
    ensures Render(data, loading, columns) == Spinner <==> loading
    ensures Render(data, loading, columns) == NoRecords <==> !loading && data == []
    ensures Render(data, loading, columns).Table? <==> !loading && data != []
    ensures Render(data, loading, columns).Table? ==> Render(data, loading, columns).rows == data
  {
  }
}
