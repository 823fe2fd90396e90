/** The wardens page: it loads the senior wardens as staff cards and edits, disables,
    re-enables and saves them in its own list. */
module WardensPage {
  import opened JsText
  import opened Seqs

  /** A staff card's record. */
  datatype Staff = Staff(id: string, empId: string, name: string, email: string, phone: string,
                         hostel: Option<string>, active: bool)

  /** `Partial<Staff>`: a present field overwrites the card's, an absent one keeps it. */
  datatype StaffPatch = StaffPatch(id: Option<string>, empId: Option<string>, name: Option<string>,
                                   email: Option<string>, phone: Option<string>,
                                   hostel: Option<string>, active: Option<bool>)

  /** A warden as the API lists it; `active` and `hostel_id` may be missing. */
  datatype WardenApi = WardenApi(id: string, wardenId: string, empId: string, name: string,
                                 email: string, phoneNo: string, hostelId: Option<seq<string>>,
                                 role: string, active: Option<bool>)

  /** The load projection of one warden: `active ?? true`, and the first hostel if any. */
  function ToStaff(w: WardenApi): Staff
  {
    Staff(w.id, w.empId, w.name, w.email, w.phoneNo,
          if w.hostelId.Some? && |w.hostelId.value| > 0 then Some(w.hostelId.value[0]) else None,
          if w.active.Some? then w.active.value else true)
  }

  predicate IsSenior(w: WardenApi)
  {
    w.role == "senior_warden"
  }

  function MapToStaff(ws: seq<WardenApi>): seq<Staff>
  {
    seq(|ws|, i requires 0 <= i < |ws| => ToStaff(ws[i]))
  }

  /** The cards the page loads. */
  function SeniorWardens(ws: seq<WardenApi>): seq<Staff>
  {
    MapToStaff(Filter(ws, IsSenior))
  }

  /** The loaded cards are, in API order, the projections of exactly the senior wardens;
      a missing `active` reads as true and the card shows the first hostel. */
  lemma SeniorWardensSpec(ws: seq<WardenApi>)
    ensures var cards := SeniorWardens(ws);
      var ks := KeptIndices(ws, IsSenior);
      |cards| == |ks|
      && (forall k :: 0 <= k < |ks| ==> ks[k] < |ws| && cards[k] == ToStaff(ws[ks[k]]))
      && (forall k, l :: 0 <= k < l < |ks| ==> ks[k] < ks[l])
      && (forall i :: 0 <= i < |ws| ==> (i in ks <==> ws[i].role == "senior_warden"))
  {
    FilterSelectsKept(ws, IsSenior);
  }

  /** `active ?? true`, and `hostel_id?.[0]`. */
  lemma ToStaffDefaults(w: WardenApi)
    ensures w.active.None? ==> ToStaff(w).active
    ensures w.active.Some? ==> ToStaff(w).active == w.active.value
    ensures ToStaff(w).hostel.Some? <==> w.hostelId.Some? && w.hostelId.value != []
    ensures ToStaff(w).hostel.Some? ==> ToStaff(w).hostel.value == w.hostelId.value[0]
  {
  }

  /** `wardens.find(x => x.id === id) ?? null` */
  function FindById(ws: seq<Staff>, id: string): (r: Option<Staff>)
    ensures r.Some? ==>
      exists i :: 0 <= i < |ws| && ws[i] == r.value && ws[i].id == id && forall j :: 0 <= j < i ==> ws[j].id != id
    ensures r.None? <==> forall i :: 0 <= i < |ws| ==> ws[i].id != id
  {
    if ws == [] then None
    else if ws[0].id == id then Some(ws[0])
    else
      var r := FindById(ws[1..], id);
      assert r.Some? ==>
        exists i :: 0 < i < |ws| && ws[i] == r.value && ws[i].id == id && forall j :: 0 <= j < i ==> ws[j].id != id
      by {
        if r.Some? {
          var i :| 0 <= i < |ws| - 1 && ws[1..][i] == r.value && ws[1..][i].id == id
                   && forall j :: 0 <= j < i ==> ws[1..][j].id != id;
          assert ws[i + 1] == r.value;
          assert forall j :: 0 <= j < i + 1 ==> ws[j].id != id by {
            forall j | 0 <= j < i + 1 ensures ws[j].id != id {
              if j > 0 { assert ws[j] == ws[1..][j - 1]; }
            }
          }
        }
      }
      assert r.None? <==> forall i :: 0 <= i < |ws| ==> ws[i].id != id by {
        assert forall i :: 0 < i < |ws| ==> ws[i] == ws[1..][i - 1];
      }
      r
  }

  /** `prev.map(w => w.id === id ? { ...w, active: flag } : w)` */
  function SetActive(ws: seq<Staff>, id: string, flag: bool): seq<Staff>
  {
    seq(|ws|, i requires 0 <= i < |ws| => if ws[i].id == id then ws[i].(active := flag) else ws[i])
  }

  /** `{ ...w, ...payload }` */
  function Patch(w: Staff, p: StaffPatch): Staff
  {
    Staff(if p.id.Some? then p.id.value else w.id,
          if p.empId.Some? then p.empId.value else w.empId,
          if p.name.Some? then p.name.value else w.name,
          if p.email.Some? then p.email.value else w.email,
          if p.phone.Some? then p.phone.value else w.phone,
          if p.hostel.Some? then p.hostel else w.hostel,
          if p.active.Some? then p.active.value else w.active)
  }

  /** `prev.map(w => w.id === id ? { ...w, ...payload } : w)` */
  function PatchMatching(ws: seq<Staff>, id: string, p: StaffPatch): seq<Staff>
  {
    seq(|ws|, i requires 0 <= i < |ws| => if ws[i].id == id then Patch(ws[i], p) else ws[i])
  }

  /** Disabling or enabling keeps the list's length and order, leaves every other card as it was,
      and on a matching card changes the `active` flag and nothing else. */
  lemma SetActiveTouchesOnlyMatches(ws: seq<Staff>, id: string, flag: bool)
    ensures var r := SetActive(ws, id, flag);
      |r| == |ws|
      && (forall i :: 0 <= i < |ws| && ws[i].id != id ==> r[i] == ws[i])
      && (forall i :: 0 <= i < |ws| && ws[i].id == id ==> r[i].active == flag && r[i].(active := ws[i].active) == ws[i])
  {
  }

  /** Disabling (or enabling) the same id twice is the same as doing it once. */
  lemma SetActiveIdempotent(ws: seq<Staff>, id: string, flag: bool)
    ensures SetActive(SetActive(ws, id, flag), id, flag) == SetActive(ws, id, flag)
  {
  }

  /** Saving overwrites, on the matching cards only, exactly the fields the payload carries. */
  lemma PatchTouchesOnlyMatches(ws: seq<Staff>, id: string, p: StaffPatch)
    ensures var r := PatchMatching(ws, id, p);
      |r| == |ws|
      && (forall i :: 0 <= i < |ws| && ws[i].id != id ==> r[i] == ws[i])
      && (forall i :: 0 <= i < |ws| && ws[i].id == id ==>
            (p.name.Some? ==> r[i].name == p.name.value) && (p.name.None? ==> r[i].name == ws[i].name)
            && (p.email.Some? ==> r[i].email == p.email.value) && (p.email.None? ==> r[i].email == ws[i].email)
            && (p.phone.Some? ==> r[i].phone == p.phone.value) && (p.phone.None? ==> r[i].phone == ws[i].phone)
            && (p.id.Some? ==> r[i].id == p.id.value) && (p.id.None? ==> r[i].id == ws[i].id)
            && (p.empId.Some? ==> r[i].empId == p.empId.value) && (p.empId.None? ==> r[i].empId == ws[i].empId)
            && (p.hostel.Some? ==> r[i].hostel == p.hostel) && (p.hostel.None? ==> r[i].hostel == ws[i].hostel)
            && (p.active.Some? ==> r[i].active == p.active.value) && (p.active.None? ==> r[i].active == ws[i].active))
  {
  }

  /** An empty payload changes nothing. */
  lemma EmptyPatchIsIdentity(ws: seq<Staff>, id: string)
    ensures PatchMatching(ws, id, StaffPatch(None, None, None, None, None, None, None)) == ws
  {
  }

  datatype ToastKind = Success | Error
  datatype Toast = Toast(title: string, description: string, kind: ToastKind)

  /** The outcome of `getWardens()`: the listed wardens, or a thrown error whose `message`
      (None when nullish) becomes the toast's text. */
  datatype LoadOutcome = Loaded(wardens: seq<WardenApi>) | LoadFailed(message: Option<string>)

  class Wardens {
    var wardens: seq<Staff>
    var loading: bool
    var selected: Option<Staff>

    constructor()
      ensures wardens == [] && !loading && selected.None?
    {
      wardens := [];
      loading := false;
      selected := None;
    }

    /** `loadWardens` up to its `await`. */
    method BeginLoad()
      modifies this
      ensures loading && wardens == old(wardens) && selected == old(selected)
    {
      loading := true;
    }

    /** `loadWardens` after its `await`. Once unmounted the page's state is left alone, though a
        failure still raises its toast. */
    method CompleteLoad(outcome: LoadOutcome, mounted: bool) returns (toasts: seq<Toast>)
      modifies this
      ensures selected == old(selected)
      ensures outcome.Loaded? ==>
        toasts == [] && wardens == (if mounted then SeniorWardens(outcome.wardens) else old(wardens))
      ensures outcome.LoadFailed? ==>
        wardens == old(wardens)
        && toasts == [Toast("Error", if outcome.message.Some? then outcome.message.value else "Failed to load wardens", Error)]
      ensures loading == (if mounted then false else old(loading))
    {
      toasts := [];
      match outcome {
        case Loaded(api) =>
          if !mounted {
            return;
          }
          wardens := SeniorWardens(api);
        case LoadFailed(message) =>
          toasts := [Toast("Error", if message.Some? then message.value else "Failed to load wardens", Error)];
      }
      if mounted {
        loading := false;
      }
    }

    method HandleEdit(id: string)
      modifies this
      ensures selected == FindById(wardens, id)
      ensures wardens == old(wardens) && loading == old(loading)
    {
      selected := FindById(wardens, id);
    }

    /** A declined confirmation changes nothing; a confirmed one disables the matching cards. */
    method HandleRemove(id: string, confirmed: bool) returns (toasts: seq<Toast>)
      modifies this
      ensures !confirmed ==> wardens == old(wardens) && toasts == []
      ensures confirmed ==>
        wardens == SetActive(old(wardens), id, false)
        && toasts == [Toast("Removed", "Warden disabled", Success)]
      ensures selected == old(selected) && loading == old(loading)
    {
      if !confirmed {
        return [];
      }
      wardens := SetActive(wardens, id, false);
      toasts := [Toast("Removed", "Warden disabled", Success)];
    }

    method HandleActivate(id: string) returns (toasts: seq<Toast>)
      modifies this
      ensures wardens == SetActive(old(wardens), id, true)
      ensures toasts == [Toast("Activated", "Warden enabled", Success)]
      ensures selected == old(selected) && loading == old(loading)
    {
      wardens := SetActive(wardens, id, true);
      toasts := [Toast("Activated", "Warden enabled", Success)];
    }

    /** Without a selection nothing happens; otherwise the cards with the selected id take the
        payload and the selection is cleared. */
    method HandleSave(p: StaffPatch) returns (toasts: seq<Toast>)
      modifies this
      ensures old(selected).None? ==> wardens == old(wardens) && selected.None? && toasts == []
      ensures old(selected).Some? ==>
        wardens == PatchMatching(old(wardens), old(selected).value.id, p)
        && selected.None? && toasts == [Toast("Saved", "Warden updated", Success)]
      ensures loading == old(loading)
    {
      if selected.None? {
        return [];
      }
      wardens := PatchMatching(wardens, selected.value.id, p);
      toasts := [Toast("Saved", "Warden updated", Success)];
      selected := None;
    }
  }
}
