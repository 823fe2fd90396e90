/** The security-requests hook: it holds one generation of leave requests, derives the list
    filtered by a search term and a date window, and exports that list as 9-column rows. */
module SecurityRequestsHook {
  import opened JsText
  import opened Seqs
  import opened Requests
  import opened GateTime

  /** The hook's `dateRange` state; '' is an unset bound. */
  datatype DateRange = DateRange(from: string, to: string)

  /** The argument of `setDateRange`: a bound that is absent leaves the held one as it is. */
  datatype RangePatch = RangePatch(from: Option<string>, to: Option<string>)

  /** `{ ...prev, ...range }` */
  function MergeRange(prev: DateRange, patch: RangePatch): DateRange
  {
    DateRange(if patch.from.Some? then patch.from.value else prev.from,
              if patch.to.Some? then patch.to.value else prev.to)
  }

  // ---------------------------------------------------------------- filtering

  /** The lowered term occurs in the lowered student name or enrollment number. */
  predicate MatchesSearch(item: LeaveRequest, term: string)
  {
    Includes(ToLower(item.studentInfo.name), ToLower(term))
    || Includes(ToLower(item.studentEnrollmentNumber), ToLower(term))
  }

  /** `a.isAfter(b)`: false when either date is invalid. */
  predicate IsAfter(a: Option<int>, b: Option<int>)
  {
    a.Some? && b.Some? && a.value > b.value
  }

  /** `a.isBefore(b)`: false when either date is invalid. */
  predicate IsBefore(a: Option<int>, b: Option<int>)
  {
    a.Some? && b.Some? && a.value < b.value
  }

  /** Shifting an invalid date leaves it invalid. */
  function ShiftDays(dj: Dayjs, t: Option<int>, days: int): Option<int>
  {
    if t.Some? then Some(dj.addDays(t.value, days)) else None
  }

  /** The date window as coded: after the start of the day BEFORE `from`, and before the start
      of the day after `to`. */
  predicate MatchesDate(item: LeaveRequest, range: DateRange, dj: Dayjs)
  {
    var itemDate := dj.parse(item.appliedFrom);
    (range.from == "" || IsAfter(itemDate, ShiftDays(dj, dj.parse(range.from), -1)))
    && (range.to == "" || IsBefore(itemDate, ShiftDays(dj, dj.parse(range.to), 1)))
  }

  predicate Keep(item: LeaveRequest, term: string, range: DateRange, dj: Dayjs)
  {
    MatchesSearch(item, term) && MatchesDate(item, range, dj)
  }

  /** `filteredData` */
  function FilterRequests(data: seq<LeaveRequest>, term: string, range: DateRange, dj: Dayjs): seq<LeaveRequest>
  {
    Filter(data, (item: LeaveRequest) => Keep(item, term, range, dj))
  }

  /** The filtered list is the order-preserving selection of the items that match both the
      search and the date window: increasing source indices, each item taken from `data`. */
  lemma FilteredDataIsSelection(data: seq<LeaveRequest>, term: string, range: DateRange, dj: Dayjs)
    ensures var r := FilterRequests(data, term, range, dj);
      var ks := KeptIndices(data, (item: LeaveRequest) => Keep(item, term, range, dj));
      |r| == |ks|
      && (forall k :: 0 <= k < |ks| ==> ks[k] < |data| && r[k] == data[ks[k]])
      && (forall k, l :: 0 <= k < l < |ks| ==> ks[k] < ks[l])
      && (forall i :: 0 <= i < |data| ==> (i in ks <==> MatchesSearch(data[i], term) && MatchesDate(data[i], range, dj)))
  {
    FilterSelectsKept(data, (item: LeaveRequest) => Keep(item, term, range, dj));
  }

  /** With no term and no bounds nothing is filtered out. */
  lemma {:induction false} NoFilterKeepsAll(data: seq<LeaveRequest>, dj: Dayjs)
    ensures FilterRequests(data, "", DateRange("", ""), dj) == data
  {
    forall i | 0 <= i < |data|
      ensures Keep(data[i], "", DateRange("", ""), dj)
    {
      IncludesTrivial(ToLower(data[i].studentInfo.name));
    }
    FilterAll(data, (item: LeaveRequest) => Keep(item, "", DateRange("", ""), dj));
  }

  /** An empty term matches every item. */
  lemma EmptyTermMatches(item: LeaveRequest)
    ensures MatchesSearch(item, "")
  {
    IncludesTrivial(ToLower(item.studentInfo.name));
  }

  /** A non-empty term matches iff its lowered form occurs in the lowered name or enrollment number. */
  lemma SearchIsSubstring(item: LeaveRequest, term: string)
    ensures MatchesSearch(item, term) <==>
      (exists i :: OccursAt(ToLower(item.studentInfo.name), ToLower(term), i))
      || (exists i :: OccursAt(ToLower(item.studentEnrollmentNumber), ToLower(term), i))
  {
    IncludesIffOccurs(ToLower(item.studentInfo.name), ToLower(term));
    IncludesIffOccurs(ToLower(item.studentEnrollmentNumber), ToLower(term));
  }

  /** Searching for an enrollment number, in any letter case, finds the request that has it. */
  lemma EnrollmentNumberFindsItself(item: LeaveRequest, term: string)
    requires ToLower(term) == ToLower(item.studentEnrollmentNumber)
    ensures MatchesSearch(item, term)
  {
    IncludesTrivial(ToLower(item.studentEnrollmentNumber));
  }

  /** An unset bound imposes no constraint; a set bound compares the item's `applied_from`
      strictly with the start of the neighbouring day, and an item or bound that does not parse
      fails it. Each case is an iff: the window keeps exactly the items inside it. */
  lemma DateWindow(item: LeaveRequest, range: DateRange, dj: Dayjs)
    ensures range.from == "" && range.to == "" ==> MatchesDate(item, range, dj)
    ensures var t, e := dj.parse(item.appliedFrom), dj.parse(range.to);
      range.from == "" && range.to != "" ==>
        (MatchesDate(item, range, dj) <==> t.Some? && e.Some? && t.value < dj.addDays(e.value, 1))
    ensures var t, f := dj.parse(item.appliedFrom), dj.parse(range.from);
      range.from != "" && range.to == "" ==>
        (MatchesDate(item, range, dj) <==> t.Some? && f.Some? && t.value > dj.addDays(f.value, -1))
    ensures var t, f, e := dj.parse(item.appliedFrom), dj.parse(range.from), dj.parse(range.to);
      range.from != "" && range.to != "" ==>
        (MatchesDate(item, range, dj) <==>
          t.Some? && f.Some? && e.Some? && t.value > dj.addDays(f.value, -1) && t.value < dj.addDays(e.value, 1))
  {
  }

  /** The `from` bound admits the day before it: with a calendar whose days are 86400000 ms long,
      a request one hour before the start of `from` is kept. */
  lemma FromBoundAdmitsPreviousDay(item: LeaveRequest, range: DateRange, dj: Dayjs, start: int)
    requires range.from != "" && range.to == ""
    requires dj.parse(range.from) == Some(start)
    requires dj.addDays(start, -1) == start - 86400000
    requires dj.parse(item.appliedFrom) == Some(start - 3600000)
    ensures MatchesDate(item, range, dj)
  {
  }

  /** Setting one bound leaves the other as it was. */
  lemma MergeOneBound(prev: DateRange, value: string)
    ensures MergeRange(prev, RangePatch(Some(value), None)) == DateRange(value, prev.to)
    ensures MergeRange(prev, RangePatch(None, Some(value))) == DateRange(prev.from, value)
  {
  }

  // ---------------------------------------------------------------- export

  const Headers: seq<string> := ["STUDENT DETAILS", "ENROLLMENT NO", "HOSTEL", "ROOM NO",
    "APPLIED FROM", "APPLIED TO", "REASON", "GATE OUT", "GATE IN"]

  /** The export's `formatTime`: a falsy value, or nothing resolved, is '---'. */
  function ExportTime(s: Option<Stamp>, dj: Dayjs): string
  {
    if s.Some? && StampTruthy(s.value) then dj.display(s.value) else "---"
  }

  function ExportRow(item: LeaveRequest, dj: Dayjs): seq<string>
  {
    [ item.studentInfo.name,
      item.studentEnrollmentNumber,
      item.studentInfo.hostelName,
      item.studentInfo.roomNo,
      dj.display(Iso(item.appliedFrom)),
      if Truthy(item.appliedTo) then dj.display(Iso(item.appliedTo.value)) else "N/A",
      if item.reason.Some? then item.reason.value else "",
      ExportTime(OutStamp(item), dj),
      ExportTime(InStamp(item), dj) ]
  }

  function ExportRows(items: seq<LeaveRequest>, dj: Dayjs): seq<seq<string>>
  {
    seq(|items|, i requires 0 <= i < |items| => ExportRow(items[i], dj))
  }

  /** Every row lines up with the 9 headers, row i describes item i, a missing `applied_to`
      is 'N/A', a missing reason is '', and the gate columns are the resolved times. */
  lemma ExportRowShape(items: seq<LeaveRequest>, dj: Dayjs)
    ensures var rows := ExportRows(items, dj);
      |rows| == |items|
      && forall i :: 0 <= i < |items| ==>
        |rows[i]| == |Headers| == 9
        && rows[i][0] == items[i].studentInfo.name
        && rows[i][1] == items[i].studentEnrollmentNumber
        && rows[i][2] == items[i].studentInfo.hostelName
        && rows[i][3] == items[i].studentInfo.roomNo
        && rows[i][4] == dj.display(Iso(items[i].appliedFrom))
        && (Truthy(items[i].appliedTo) ==> rows[i][5] == dj.display(Iso(items[i].appliedTo.value)))
        && (!Truthy(items[i].appliedTo) ==> rows[i][5] == "N/A")
        && (items[i].reason.Some? ==> rows[i][6] == items[i].reason.value)
        && (items[i].reason.None? ==> rows[i][6] == "")
        && rows[i][7] == ExportTime(OutStamp(items[i]), dj)
        && rows[i][8] == ExportTime(InStamp(items[i]), dj)
  {
  }

  /** `${pageName.replace(/\s/g, '_')}_${stamp}` */
  function FileBaseName(pageName: string, stamp: string): string
  {
    ReplaceWhitespace(pageName, '_') + "_" + stamp
  }

  /** The base name keeps the page name's length, with each whitespace character turned into '_'
      and every other character kept, then '_' and the timestamp. */
  lemma FileBaseNameShape(pageName: string, stamp: string)
    ensures var b := FileBaseName(pageName, stamp);
      |b| == |pageName| + 1 + |stamp|
      && (forall i :: 0 <= i < |pageName| ==> !IsWhitespace(b[i]))
      && (forall i :: 0 <= i < |pageName| && IsWhitespace(pageName[i]) ==> b[i] == '_')
      && (forall i :: 0 <= i < |pageName| && !IsWhitespace(pageName[i]) ==> b[i] == pageName[i])
      && b[|pageName|] == '_' && b[|pageName| + 1..] == stamp
  {
    var b := FileBaseName(pageName, stamp);
    assert !IsWhitespace('_');
    assert b[|pageName| + 1..] == stamp;
  }

  datatype ExportFormat = Pdf | Excel
  datatype NoticeKind = Success | Error | Warning
  datatype Notice = Notice(kind: NoticeKind, message: string)

  /** What reaches the file-writing libraries. */
  datatype ExportFile =
    | Workbook(fileName: string, sheetName: string, cells: seq<seq<string>>)
    | Document(fileName: string, title: string, subtitle: string, head: seq<string>, body: seq<seq<string>>)

  /** The result of the injected fetch function: a response (possibly null) or a thrown error. */
  datatype FetchOutcome = Fetched(response: Option<seq<LeaveRequest>>) | FetchFailed

  class SecurityRequests {
    const pageName: string
    const dj: Dayjs
    var data: seq<LeaveRequest>
    var loading: bool
    var searchTerm: string
    var dateRange: DateRange

    constructor(pageName: string, dj: Dayjs)
      ensures this.pageName == pageName && this.dj == dj
      ensures data == [] && loading && searchTerm == "" && dateRange == DateRange("", "")
    {
      this.pageName := pageName;
      this.dj := dj;
      data := [];
      loading := true;
      searchTerm := "";
      dateRange := DateRange("", "");
    }

    /** The list the hook hands out as `data`. */
    function FilteredData(): seq<LeaveRequest>
      reads this
    {
      FilterRequests(data, searchTerm, dateRange, dj)
    }

    /** `fetchData` up to its `await`. */
    method BeginFetch()
      modifies this
      ensures loading
      ensures data == old(data) && searchTerm == old(searchTerm) && dateRange == old(dateRange)
    {
      loading := true;
    }

    /** `fetchData` after its `await`: a response replaces the list (null as []), a failure keeps
        it and raises one error notice; either way loading ends. */
    method CompleteFetch(outcome: FetchOutcome) returns (notices: seq<Notice>)
      modifies this
      ensures !loading
      ensures outcome.Fetched? ==>
        notices == [] && data == (if outcome.response.Some? then outcome.response.value else [])
      ensures outcome.FetchFailed? ==>
        data == old(data) && notices == [Notice(Error, "Failed to load " + pageName)]
      ensures searchTerm == old(searchTerm) && dateRange == old(dateRange)
    {
      notices := [];
      match outcome {
        case Fetched(response) =>
          data := if response.Some? then response.value else [];
        case FetchFailed =>
          notices := [Notice(Error, "Failed to load " + pageName)];
      }
      loading := false;
    }

    method SetSearchTerm(term: string)
      modifies this
      ensures searchTerm == term
      ensures data == old(data) && loading == old(loading) && dateRange == old(dateRange)
    {
      searchTerm := term;
    }

    /** `setDateRange` merges the given bounds into the held range. */
    method SetDateRange(patch: RangePatch)
      modifies this
      ensures dateRange == MergeRange(old(dateRange), patch)
      ensures data == old(data) && loading == old(loading) && searchTerm == old(searchTerm)
    {
      dateRange := MergeRange(dateRange, patch);
    }

    /** `handleExport`: an empty filtered list gives one warning and no file; otherwise exactly one
        file, named after the page and the time `now`, holding the headers and one row per request. */
    method HandleExport(format: ExportFormat, now: int) returns (notices: seq<Notice>, files: seq<ExportFile>)
      ensures FilteredData() == [] ==> notices == [Notice(Warning, "No data to export")] && files == []
      ensures FilteredData() != [] ==>
        var base := FileBaseName(pageName, dj.fileStamp(now));
        var rows := ExportRows(FilteredData(), dj);
        notices == [Notice(Success, pageName + " exported successfully")]
        && files == [if format == Excel then Workbook(base + ".xlsx", "Records", [Headers] + rows)
                     else Document(base + ".pdf", pageName, "Generated on: " + dj.display(Epoch(now)), Headers, rows)]
    {
      var filtered := FilterRequests(data, searchTerm, dateRange, dj);
      if |filtered| == 0 {
        notices := [Notice(Warning, "No data to export")];
        files := [];
        return;
      }
      var rows := ExportRows(filtered, dj);
      var fileName := FileBaseName(pageName, dj.fileStamp(now));
      if format == Excel {
        files := [Workbook(fileName + ".xlsx", "Records", [Headers] + rows)];
      } else {
        files := [Document(fileName + ".pdf", pageName, "Generated on: " + dj.display(Epoch(now)), Headers, rows)];
      }
      notices := [Notice(Success, pageName + " exported successfully")];
    }
  }
}
