# Hostel leave admin: gate-log pipeline and staff screens

This project models the logic of the hostel leave administration front-end. It covers these parts:

- **Security-requests hook** (`SecurityRequestsHook`). It holds the leave requests that the security screens show, together with a search term and a date range. From them it derives a filtered list. It turns that list into nine-column export rows with a file name, or refuses to export an empty list.
- **Gate-time resolver** (`GateTime`). The hook and the security table each contain a copy of it. It picks the "out" and "in" actions from a request's loosely typed guard history. It then dates each one through this fallback chain:
  1. the first non-empty of five timestamp fields;
  2. the second embedded in a 24-character object id, read as hex;
  3. the request's own `updated_at`, when the status allows it;
  4. otherwise `---`.
- **Security table** (`SecurityTable`): column assembly, the gate-log cell with its emphasis, the action button of each row, and the choice between spinner, empty notice and table.
- **Wardens page** (`WardensPage`): loads the senior wardens as staff cards. Its edit, disable, enable and save operations touch only the matching card.
- **Students page** (`StudentsPage`): maps the students response to cards and applies a case-insensitive search.
- **Staff dialogs** (`StaffForm`, `SecurityDialog`, `AdminDialog`, `WardenDialog`): form prefill, single-field change, the create and update payloads, and the title.
- **Warden card helpers** (`WardenCard`): initials, avatar colour, role label, hostel line and offered buttons.
- **Date-range picker** (`DateFilter`): two bounds, reset, and the pair reported to the page.

Three helper modules model the JavaScript built-ins the code relies on:

- `JsText`: truthiness and `||` chains, ASCII `toLowerCase`/`toUpperCase`, `includes`, `indexOf`, first-occurrence `replace`, `trim`, `\s`, `split` and `join`.
- `ParseInt`: `parseInt(s, 16)`, with a hex encoder as its inverse.
- `Seqs`: order-preserving `Array.prototype.filter`, characterised by the indices it keeps.

Dates are kept abstract in a `Dayjs` record of functions, passed as a parameter:

- parsing, with an invalid date as `None`;
- day arithmetic;
- the `DD/MM/YYYY, hh:mm a` display format;
- the file-name stamp.

Instants are integers in milliseconds. The current time in an export is a parameter.

Two facts about the code are worth stating:

- **The `from` bound keeps the previous day after its first instant.** The filter keeps requests strictly after the start of the day *before* `from` (`src/views/admin/components/useSecurityRequests.ts:48`). `SecurityRequestsHook.FromBoundAdmitsPreviousDay` shows a request one hour before `from` is kept.
- **The object-id prefix.** `0x507f191e` is 1350506782, which `ParseInt.ObjectIdPrefixValue` proves. `GateTime.ObjectIdExample` proves that the id `507f191e810c19729de860ea` dates its action at 1350506782000 ms.

## Model

| member | source | states |
|---|---|---|
| SecurityRequestsHook.FilteredDataIsSelection | src/views/admin/components/useSecurityRequests.ts:40-53 | the filtered list keeps the requests matching both the search and the date window, at strictly increasing source indices, and every one of them; nothing is reordered, duplicated or invented |
| SecurityRequestsHook.NoFilterKeepsAll | src/views/admin/components/useSecurityRequests.ts:40-53 | an empty term with no date bounds keeps the whole list |
| SecurityRequestsHook.EmptyTermMatches | src/views/admin/components/useSecurityRequests.ts:42-44 | an empty search term matches every request |
| SecurityRequestsHook.SearchIsSubstring | src/views/admin/components/useSecurityRequests.ts:42-44 | a request matches iff the lowered term occurs at some index of the lowered student name or enrollment number |
| SecurityRequestsHook.EnrollmentNumberFindsItself | src/views/admin/components/useSecurityRequests.ts:44 | searching for a request's enrollment number in any letter case finds it |
| SecurityRequestsHook.DateWindow | src/views/admin/components/useSecurityRequests.ts:46-49 | with both bounds unset every request is kept; for each other combination of set and unset bounds, a request is kept iff its `applied_from` and every set bound parse, it is strictly after `from` minus one day when `from` is set, and strictly before `to` plus one day when `to` is set |
| SecurityRequestsHook.FromBoundAdmitsPreviousDay | src/views/admin/components/useSecurityRequests.ts:48 | a request one hour before the start of the `from` day is still kept |
| SecurityRequestsHook.MergeOneBound | src/views/admin/components/useSecurityRequests.ts:147 | setting only `from` (only `to`) leaves the other bound unchanged |
| SecurityRequestsHook.ExportRowShape | src/views/admin/components/useSecurityRequests.ts:61-112 | one row per filtered request, each with as many cells as the 9 headers, in header order: name, enrollment number, hostel, room, formatted `applied_from`, formatted `applied_to` or N/A when it is missing, the reason or the empty string, and the resolved out and in times |
| SecurityRequestsHook.FileBaseNameShape | src/views/admin/components/useSecurityRequests.ts:114 | the base name is the page name with every whitespace character turned into `_` and every other character kept, then `_` and the timestamp |
| SecurityRequestsHook.SecurityRequests.constructor | src/views/admin/components/useSecurityRequests.ts:18-21 | the hook starts with no data, loading, an empty term and an empty range |
| SecurityRequestsHook.SecurityRequests.BeginFetch | src/views/admin/components/useSecurityRequests.ts:24 | a fetch sets loading and changes nothing else |
| SecurityRequestsHook.SecurityRequests.CompleteFetch | src/views/admin/components/useSecurityRequests.ts:25-33 | a response replaces the data (null as the empty list); a failure keeps the data and raises one error toast naming the page; loading is false after either |
| SecurityRequestsHook.SecurityRequests.SetSearchTerm | src/views/admin/components/useSecurityRequests.ts:146 | only the search term changes |
| SecurityRequestsHook.SecurityRequests.SetDateRange | src/views/admin/components/useSecurityRequests.ts:147 | the range becomes the merge of the old range and the given bounds; nothing else changes |
| SecurityRequestsHook.SecurityRequests.HandleExport | src/views/admin/components/useSecurityRequests.ts:55-141 | an empty filtered list gives exactly one warning and no file; otherwise exactly one workbook or document, named after the page and the time, holding the headers and the rows, and one success toast |
| GateTime.FirstOfKind | src/views/admin/components/useSecurityRequests.ts:67-68 | `find` returns the first action labelled with the kind by `action` or `security_status`, and none only when no action is labelled so |
| GateTime.OutSlotLabelled | src/views/admin/components/useSecurityRequests.ts:67 | the first action labelled 'out' is the out slot |
| GateTime.OutSlotUnlabelled | src/views/admin/components/useSecurityRequests.ts:70 | with no 'out' label the out slot is `actions[0]`, and there is none for an empty history |
| GateTime.InSlotLabelled | src/views/admin/components/useSecurityRequests.ts:68 | the first action labelled 'in' is the in slot |
| GateTime.InSlotUnlabelled | src/views/admin/components/useSecurityRequests.ts:71 | with no 'in' label the in slot is `actions[1]`, and there is none for fewer than two actions |
| GateTime.OutSlotPresence | src/views/admin/components/SecurityTable.tsx:94-101 | the out slot exists iff the history is non-empty |
| GateTime.InSlotPresence | src/views/admin/components/SecurityTable.tsx:94-101 | the in slot exists iff some action is labelled 'in' or there are at least two actions |
| GateTime.FieldTier | src/views/admin/components/useSecurityRequests.ts:77-78 | the first non-empty of `action_time`, `updated_at`, `updatedAt`, `created_at`, `createdAt` dates the action, whatever follows |
| GateTime.IdTier | src/views/admin/components/useSecurityRequests.ts:79-82 | with no timestamp field, the action is dated by its 24-character id's hex prefix times 1000, or not at all |
| GateTime.IdTierHexPrefix | src/views/admin/components/SecurityTable.tsx:113-116 | an id starting with the 8 hex digits of `s` dates the action at `s * 1000` ms |
| GateTime.ObjectIdExample | src/views/admin/components/SecurityTable.tsx:113-116 | id `507f191e810c19729de860ea` dates the action at 1350506782000 ms |
| GateTime.ActionStampTruthy | src/views/admin/components/useSecurityRequests.ts:77-81 | evidence taken from an action is never falsy |
| GateTime.OutDocumentFallback | src/views/admin/components/useSecurityRequests.ts:84-85 | without action evidence the out time is the request's `updated_at` iff the status is 'out' or 'in', otherwise `---` |
| GateTime.InDocumentFallback | src/views/admin/components/useSecurityRequests.ts:97-98 | without action evidence the in time is the request's `updated_at` iff the status is 'in', otherwise `---` |
| GateTime.LabelledOutActionTime | src/views/admin/components/useSecurityRequests.ts:67-78 | a labelled 'out' action with an `action_time` is shown with that time |
| GateTime.PendingWithoutHistory | src/views/admin/components/useSecurityRequests.ts:84-98 | a pending request with no history resolves neither time |
| GateTime.InStatusWithoutInAction | src/views/admin/components/SecurityTable.tsx:136-139 | a request back 'in' with no 'in' action and fewer than two actions shows its `updated_at` as the in time |
| GateTime.FalsyOutStamp | src/views/admin/components/SecurityTable.tsx:118-121 | a falsy out value reaches `formatTime` only through the document fallback with an empty `updated_at` |
| GateTime.FalsyInStamp | src/views/admin/components/SecurityTable.tsx:136-139 | a falsy in value reaches `formatTime` only through the document fallback with an empty `updated_at` and status 'in' |
| SecurityTable.Columns | src/views/admin/components/SecurityTable.tsx:35-207 | student, hostel and applied-duration columns first; gate logs fourth iff either gate flag is set; reason always; action last iff an action type is given; no column twice |
| SecurityTable.TableVersusExportOut | src/views/admin/components/SecurityTable.tsx:104 | the table's out time equals the export's except that the table gives null where the export gives `---` for a falsy value, which happens iff the document fallback meets an empty `updated_at` |
| SecurityTable.TableVersusExportIn | src/views/admin/components/SecurityTable.tsx:104 | the same comparison for the in time, whose fallback needs status 'in' |
| SecurityTable.OutEmphasisIff | src/views/admin/components/SecurityTable.tsx:150 | the out time is emphasised iff the history is non-empty or the status is not 'pending' |
| SecurityTable.InEmphasisIff | src/views/admin/components/SecurityTable.tsx:161 | the in time is emphasised iff there are two actions, an 'in' label, or status 'in' |
| SecurityTable.DimmedOutIsPlaceholder | src/views/admin/components/SecurityTable.tsx:145-154 | a dimmed out time always reads `---` |
| SecurityTable.DimmedInIsPlaceholder | src/views/admin/components/SecurityTable.tsx:156-165 | a dimmed in time always reads `---` |
| SecurityTable.GateLogCellLines | src/views/admin/components/SecurityTable.tsx:143-167 | the gate-log cell has the OUT line iff out is shown and the IN line iff in is shown, in that order, each with its time and emphasis |
| SecurityTable.ActionCell | src/views/admin/components/SecurityTable.tsx:182-203 | the button reports the row's `request_id`; it is red iff the action is 'out', and captioned 'out' iff the action is 'out' and 'in' iff it is 'in' |
| SecurityTable.RenderedActions | src/views/admin/components/SecurityTable.tsx:182-203 | a rendered table with the action column has one button per request, in order, the i-th reporting the i-th request's `request_id`; a spinner, an empty notice or a table without the column has none |
| SecurityTable.RenderSelection | src/views/admin/components/SecurityTable.tsx:216-274 | the spinner shows iff loading, the empty notice iff not loading and no data, and the table iff neither, holding all rows in order |
| WardensPage.SeniorWardensSpec | src/pages/admin/Wardens.tsx:44-54 | the loaded cards are, in API order, the projections of exactly the entries with role `senior_warden` |
| WardensPage.ToStaffDefaults | src/pages/admin/Wardens.tsx:46-54 | a missing `active` reads as true, and the card's hostel is the first hostel id when there is one |
| WardensPage.FindById | src/pages/admin/Wardens.tsx:76-79 | the first card with the id, or none iff no card has it |
| WardensPage.SetActiveTouchesOnlyMatches | src/pages/admin/Wardens.tsx:81-94 | disabling or enabling keeps the length, leaves other cards as they were, and changes only `active` on matching cards |
| WardensPage.SetActiveIdempotent | src/pages/admin/Wardens.tsx:83-92 | disabling (enabling) twice with the same id equals doing it once |
| WardensPage.PatchTouchesOnlyMatches | src/pages/admin/Wardens.tsx:96-103 | on matching cards, each of the seven fields the payload carries is overwritten with its value and each absent field is unchanged; other cards are unchanged |
| WardensPage.EmptyPatchIsIdentity | src/pages/admin/Wardens.tsx:99 | an empty payload changes nothing |
| WardensPage.Wardens.constructor | src/pages/admin/Wardens.tsx:29-32 | the page starts with no cards, not loading, and nothing selected |
| WardensPage.Wardens.BeginLoad | src/pages/admin/Wardens.tsx:39 | loading starts and nothing else changes |
| WardensPage.Wardens.CompleteLoad | src/pages/admin/Wardens.tsx:41-67 | a response sets the cards to the senior wardens unless unmounted; a failure keeps them and raises one error toast with the error's message or the default text; loading ends only while mounted |
| WardensPage.Wardens.HandleEdit | src/pages/admin/Wardens.tsx:76-79 | the selection becomes the first card with the id, or none |
| WardensPage.Wardens.HandleRemove | src/pages/admin/Wardens.tsx:81-87 | a declined confirmation changes nothing; a confirmed one disables the matching cards and raises one success toast |
| WardensPage.Wardens.HandleActivate | src/pages/admin/Wardens.tsx:89-94 | the matching cards are enabled, with one success toast |
| WardensPage.Wardens.HandleSave | src/pages/admin/Wardens.tsx:96-103 | with no selection nothing happens; otherwise the cards with the selected id take the payload and the selection is cleared |
| StudentsPage.MappedStudents | src/pages/admin/Students.tsx:32-37 | one card per entry; its id is `_id` when non-empty and `id` otherwise; name, enrollment number and image are copied |
| StudentsPage.BlankQueryShowsAll | src/pages/admin/Students.tsx:57-60 | an empty or whitespace-only query shows every student |
| StudentsPage.QueryIsSelection | src/pages/admin/Students.tsx:62-69 | any other query keeps, in order, exactly the students whose lowered name or enrollment number contains the lowered, untrimmed query |
| StudentsPage.UntrimmedQuery | src/pages/admin/Students.tsx:62 | the query " ab" does not find a student named "ab" |
| StudentsPage.Students.constructor | src/pages/admin/Students.tsx:17-20 | the page starts with empty lists, an empty query, and loading |
| StudentsPage.Students.BeginFetch | src/pages/admin/Students.tsx:27 | loading starts and nothing else changes |
| StudentsPage.Students.CompleteFetch | src/pages/admin/Students.tsx:28-49 | an array response sets both lists to its cards; any other response empties both; an error leaves both; loading is false after every outcome |
| StudentsPage.Students.SetSearchQuery | src/pages/admin/Students.tsx:19 | only the query changes |
| StudentsPage.Students.ApplySearch | src/pages/admin/Students.tsx:56-70 | after the search effect the shown list is the search result of the list and query |
| StaffForm.WithFieldOnlyNamed | src/views/admin/ManageSecurity/components/SecurityDialog.tsx:43-45 | changing an input sets that field and leaves every other field unchanged |
| SecurityDialog.PrefilledForm | src/views/admin/ManageSecurity/components/SecurityDialog.tsx:28-39 | editing a guard copies its four fields; otherwise all four are empty |
| SecurityDialog.UpdateWithinCreate | src/views/admin/ManageSecurity/components/SecurityDialog.tsx:49-61 | the update payload never carries `emp_id`, carries a field iff the create payload has it non-empty, and with the same value |
| SecurityDialog.CreateCopiesForm | src/views/admin/ManageSecurity/components/SecurityDialog.tsx:49-55 | the create payload carries exactly the four fields, verbatim |
| SecurityDialog.Title | src/views/admin/ManageSecurity/components/SecurityDialog.tsx:65-66 | "Add Security Guard" iff creating, "Edit Security Guard" otherwise |
| SecurityDialog.Dialog.constructor | src/views/admin/ManageSecurity/components/SecurityDialog.tsx:21-26 | the form starts with all four fields empty |
| SecurityDialog.Dialog.Prefill | src/views/admin/ManageSecurity/components/SecurityDialog.tsx:28-39 | the form becomes the prefilled form |
| SecurityDialog.Dialog.HandleChange | src/views/admin/ManageSecurity/components/SecurityDialog.tsx:43-45 | the form gets the named field set and is otherwise unchanged |
| SecurityDialog.Dialog.Submit | src/views/admin/ManageSecurity/components/SecurityDialog.tsx:47-63 | creating submits the create payload; editing assembles, field by field, exactly the update payload |
| AdminDialog.PrefilledForm | src/views/admin/ManageAdmins/components/AdminDialog.tsx:28-39 | editing an admin copies its four fields; otherwise all four are empty |
| AdminDialog.UpdateWithinCreate | src/views/admin/ManageAdmins/components/AdminDialog.tsx:49-61 | the update payload never carries `emp_id`, carries a field iff the create payload has it non-empty, and with the same value |
| AdminDialog.CreateCopiesForm | src/views/admin/ManageAdmins/components/AdminDialog.tsx:49-55 | the create payload carries exactly the four fields, verbatim |
| AdminDialog.Title | src/views/admin/ManageAdmins/components/AdminDialog.tsx:65-66 | "Add Admin" iff creating, "Edit Admin" otherwise |
| AdminDialog.Dialog.constructor | src/views/admin/ManageAdmins/components/AdminDialog.tsx:21-26 | the form starts with all four fields empty |
| AdminDialog.Dialog.Prefill | src/views/admin/ManageAdmins/components/AdminDialog.tsx:28-39 | the form becomes the prefilled form |
| AdminDialog.Dialog.HandleChange | src/views/admin/ManageAdmins/components/AdminDialog.tsx:43-45 | the form gets the named field set and is otherwise unchanged |
| AdminDialog.Dialog.Submit | src/views/admin/ManageAdmins/components/AdminDialog.tsx:47-63 | creating submits the create payload; editing assembles, field by field, exactly the update payload |
| WardenDialog.HostelLabelTiers | src/views/admin/ManageWarden/components/WardenDialog.tsx:24-25 | the label is a non-empty `name`, else a non-empty `hostel_name`, else `hostel_id` |
| WardenDialog.PrefilledForm | src/views/admin/ManageWarden/components/WardenDialog.tsx:57-69 | editing a warden copies name, emp_id, phone and email, with the first hostel or the empty string; otherwise all five fields are empty |
| WardenDialog.UpdateWithinCreate | src/views/admin/ManageWarden/components/WardenDialog.tsx:79-94 | the update payload never carries `emp_id` or `wardenType`; it has a text field iff that field is non-empty, with the create payload's value, and the hostel as a one-element list iff one is chosen |
| WardenDialog.CreateCopiesForm | src/views/admin/ManageWarden/components/WardenDialog.tsx:79-87 | the create payload carries `wardenType` from the role filter and the five fields verbatim |
| WardenDialog.Title | src/views/admin/ManageWarden/components/WardenDialog.tsx:98-101 | starts with "Add " iff creating, labelled by the role filter; editing is labelled by the warden's own role |
| WardenDialog.Dialog.constructor | src/views/admin/ManageWarden/components/WardenDialog.tsx:28-34 | the form starts with all five fields empty |
| WardenDialog.Dialog.Prefill | src/views/admin/ManageWarden/components/WardenDialog.tsx:57-69 | the form becomes the prefilled form |
| WardenDialog.Dialog.HandleChange | src/views/admin/ManageWarden/components/WardenDialog.tsx:73-75 | the form gets the named field set and is otherwise unchanged |
| WardenDialog.Dialog.Submit | src/views/admin/ManageWarden/components/WardenDialog.tsx:77-96 | creating submits the create payload; editing assembles, field by field, exactly the update payload |
| WardenCard.HeadsOfSplit | src/views/admin/ManageWarden/components/WardenCard.tsx:18 | the first characters of the space-separated parts are exactly the word starts of the name; empty parts contribute nothing |
| WardenCard.InitialsSpec | src/views/admin/ManageWarden/components/WardenCard.tsx:17-18 | the initials are the first two word starts, upper-cased, and at most 2 characters |
| WardenCard.InitialsExample | src/views/admin/ManageWarden/components/WardenCard.tsx:17-18 | " a  b c" gives "AB" |
| WardenCard.AvatarIndexInRange | src/views/admin/ManageWarden/components/WardenCard.tsx:20-27 | a non-empty id indexes one of the five colours by its first character's code mod 5; an empty id indexes none |
| WardenCard.RoleLabelFallback | src/views/admin/ManageWarden/components/WardenCard.tsx:12-15 | `senior_warden` is "Senior Warden", `warden` is "Asst. Warden", any other role is shown unchanged |
| WardenCard.StripLeadingPrefix | src/views/admin/ManageWarden/components/WardenCard.tsx:67 | an id starting with `HOSTEL-` loses exactly that prefix |
| WardenCard.HostelTextDash | src/views/admin/ManageWarden/components/WardenCard.tsx:67 | the dash shows iff there is no hostel, a single one that is empty once stripped, or a joined text that is itself a dash; otherwise the joined text shows |
| WardenCard.HostelTextExample | src/views/admin/ManageWarden/components/WardenCard.tsx:67 | ids `HOSTEL-A`, `HOSTEL-B` read "A, B" |
| WardenCard.CardActionsChoice | src/views/admin/ManageWarden/components/WardenCard.tsx:75-103 | an inactive card offers only Reactivate; an active one exactly Edit and Remove |
| DateFilter.FilterTableByDate.constructor | src/views/admin/components/FilterTableByDate.tsx:12 | both bounds start empty |
| DateFilter.FilterTableByDate.HandleDateChange | src/views/admin/components/FilterTableByDate.tsx:14-18 | the chosen bound takes the value, the other stays, and the page is told the new pair |
| DateFilter.FilterTableByDate.HandleReset | src/views/admin/components/FilterTableByDate.tsx:20-27 | both bounds and both inputs are cleared, `hasValue` is false, and the page is told ('', '') |
| JsText.FirstTruthyAt | src/views/admin/components/useSecurityRequests.ts:77 | an `a \|\| b \|\| …` chain yields its first non-empty operand |
| JsText.FirstTruthyNone | src/views/admin/components/useSecurityRequests.ts:77-78 | the chain yields nothing iff no operand is non-empty |
| JsText.IncludesIffOccurs | src/views/admin/components/useSecurityRequests.ts:43-44 | `includes` holds iff the needle occurs at some index |
| JsText.IndexOf | src/views/admin/ManageWarden/components/WardenCard.tsx:67 | the first index at which the needle occurs, or none iff it occurs nowhere |
| JsText.TrimBlank | src/pages/admin/Students.tsx:57 | a string trims to empty iff it is all whitespace |
| JsText.JoinSplit | src/views/admin/ManageWarden/components/WardenCard.tsx:18 | joining the parts of a split with the separator gives the string back |
| JsText.JoinEmpty | src/views/admin/ManageWarden/components/WardenCard.tsx:67 | a join is empty iff there are no parts or one empty part |
| ParseInt.HexRoundTrip | src/views/admin/components/useSecurityRequests.ts:80 | reading back the hex digits of a number gives the number |
| ParseInt.ParseHexDigits | src/views/admin/components/useSecurityRequests.ts:80 | `parseInt(d, 16)` of the digits of a number is that number |
| ParseInt.ObjectIdPrefixValue | src/views/admin/components/SecurityTable.tsx:114 | the hex value of `507f191e` is 1350506782 |
| Seqs.FilterSelectsKept | src/views/admin/components/useSecurityRequests.ts:41 | `filter` yields the elements at the kept indices, which increase strictly and are exactly those whose element satisfies the predicate |

## Left out

- Network services, toasts other than those the modelled handlers raise, `console` output, and `window.confirm`. Confirmation is a boolean argument.
- File writing. The workbook and PDF are modelled as values holding the file name, sheet name or title, headers and rows. Fonts, colours, layout and pagination are not modelled.
- dayjs. Parsing, local-time day arithmetic and both formats are uninterpreted functions of the `Dayjs` record. "Now" is one parameter, although the source calls `dayjs()` twice during a PDF export.
- The applied-duration cell of the table. It formats `applied_to` even when it is missing, which dayjs shows as the current time. Only the gate-log and action cells are modelled among the table's cells.
- Concurrency. The model does not capture overlapping fetches, the order in which React runs effects, or re-renders. Each fetch is split into a begin step and a completion step. The students search effect is a method that the caller runs after a change.
- SecurityRequestsHook.SecurityRequests: `refresh` is the same fetch and is not repeated. The initial fetch on mount is not modelled separately.
- JsText.ToLower, JsText.ToUpper: letters are case-mapped over ASCII only. JavaScript maps all of Unicode.
- WardenCard.AvatarIndex: uses the first character's code point. `charCodeAt` gives the first UTF-16 code unit, which differs for characters outside the Basic Multilingual Plane.
- WardenCard.RoleLabel: a role that names an `Object.prototype` member (such as `constructor`) would find that member instead of falling back. The model treats every unknown role as unknown.
- StudentsPage.ToStudent: each response entry's nested `student` is assumed present. Without it the card's name is `undefined`, and the search would throw.
- WardensPage.Patch: a payload key present with the value `undefined` overwrites the field in JavaScript. The model treats such a key as absent.
- WardenDialog: loading the hostel list when the dialog opens is a network call. Only the label of each hostel is modelled.
- The `open` flag of the dialogs only decides whether they render at all.
- SecurityRequestsHook.MergeRange: a `setDateRange` argument whose key is present with the value `undefined` overwrites the bound in JavaScript, which clears that bound's filter. The model treats such a key as absent, so the old bound is kept.
- GateTime.IdInstant: counts an id's length and takes its 8-character prefix in code points. `_id.length === 24` and `_id.substring(0, 8)` count UTF-16 code units. An id with a character outside the Basic Multilingual Plane is therefore judged differently.
- WardenCard.Initials: takes each part's first code point and keeps the first two code points. `n[0]` and `.slice(0, 2)` take UTF-16 code units, which split a character outside the Basic Multilingual Plane.
