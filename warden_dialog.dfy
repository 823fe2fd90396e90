/** The add/edit dialog for wardens: a five-field form whose hostel is picked from a list. */
module WardenDialog {
  import opened JsText
  import opened StaffForm

  /** A hostel as the hostels endpoint lists it; the label may come from one of three fields. */
  datatype Hostel = Hostel(hostelId: string, name: Option<string>, hostelName: Option<string>)

  /** `h.name || h.hostel_name || h.hostel_id` */
  function HostelLabel(h: Hostel): string
  {
    match FirstTruthy([h.name, h.hostelName])
    case Some(s) => s
    case None => h.hostelId
  }

  /** The label is a non-empty `name`, else a non-empty `hostel_name`, else the id. */
  lemma HostelLabelTiers(h: Hostel)
    ensures Truthy(h.name) ==> HostelLabel(h) == h.name.value
    ensures !Truthy(h.name) && Truthy(h.hostelName) ==> HostelLabel(h) == h.hostelName.value
    ensures !Truthy(h.name) && !Truthy(h.hostelName) ==> HostelLabel(h) == h.hostelId
  {
    var xs := [h.name, h.hostelName];
    if Truthy(h.name) {
      FirstTruthyAt(xs, 0);
    } else if Truthy(h.hostelName) {
      FirstTruthyAt(xs, 1);
    } else {
      FirstTruthyNone(xs);
    }
  }

  datatype WardenRole = SeniorWarden | AsstWarden

  function RoleName(r: WardenRole): string
  {
    if r == SeniorWarden then "senior_warden" else "warden"
  }

  /** The fields of a warden the dialog reads. */
  datatype Warden = Warden(empId: string, name: string, phoneNo: string, email: string,
                           hostelId: Option<seq<string>>, role: WardenRole)

  const Fields: set<string> := {"name", "emp_id", "phone_no", "email", "hostel_id"}

  /** The text fields an update may carry. */
  const Editable: set<string> := {"name", "phone_no", "email"}

  /** The prefill effect: a warden being edited fills the form with its first hostel (or ''),
      anything else clears it. */
  function PrefilledForm(mode: Mode, warden: Option<Warden>): (f: Form)
    ensures f.Keys == Fields
    ensures mode == Edit && warden.Some? ==>
      var w := warden.value;
      f["name"] == w.name && f["emp_id"] == w.empId && f["phone_no"] == w.phoneNo && f["email"] == w.email
      && (w.hostelId.Some? && w.hostelId.value != [] ==> f["hostel_id"] == w.hostelId.value[0])
      && (w.hostelId.None? || w.hostelId.value == [] ==> f["hostel_id"] == "")
    ensures !(mode == Edit && warden.Some?) ==> forall k :: k in f ==> f[k] == ""
  {
    if mode == Edit && warden.Some? then
      var w := warden.value;
      map["name" := w.name, "emp_id" := w.empId, "phone_no" := w.phoneNo, "email" := w.email,
          "hostel_id" := if w.hostelId.Some? && |w.hostelId.value| > 0 then w.hostelId.value[0] else ""]
    else BlankForm(Fields)
  }

  /** The create payload: `wardenType` from the page's role filter, and the five fields verbatim. */
  function CreatePayload(form: Form, roleFilter: WardenRole): Payload
    requires Fields <= form.Keys
  {
    map["wardenType" := Text(RoleName(roleFilter)), "name" := Text(form["name"]),
        "emp_id" := Text(form["emp_id"]), "hostel_id" := Text(form["hostel_id"]),
        "phone_no" := Text(form["phone_no"]), "email" := Text(form["email"])]
  }

  /** The update payload, described field by field: the non-empty text fields, and the hostel as a
      one-element list when one is chosen. */
  function UpdatePayload(form: Form): Payload
    requires Fields <= form.Keys
  {
    var text := map k | k in Editable && form[k] != "" :: Text(form[k]);
    if form["hostel_id"] != "" then text["hostel_id" := TextList([form["hostel_id"]])] else text
  }

  /** The update payload never carries `emp_id` or `wardenType`; it carries a text field exactly
      when the create payload has it non-empty, with the same value, and the hostel as a
      one-element list exactly when one is chosen. */
  lemma UpdateWithinCreate(form: Form, roleFilter: WardenRole)
    requires Fields <= form.Keys
    ensures "emp_id" !in UpdatePayload(form) && "wardenType" !in UpdatePayload(form)
    ensures forall k :: k in Editable ==>
      (k in UpdatePayload(form) <==> CreatePayload(form, roleFilter)[k] != Text(""))
      && (k in UpdatePayload(form) ==> UpdatePayload(form)[k] == CreatePayload(form, roleFilter)[k])
    ensures "hostel_id" in UpdatePayload(form) <==> form["hostel_id"] != ""
    ensures "hostel_id" in UpdatePayload(form) ==>
      CreatePayload(form, roleFilter)["hostel_id"] == Text(form["hostel_id"])
      && UpdatePayload(form)["hostel_id"] == TextList([form["hostel_id"]])
    ensures UpdatePayload(form).Keys <= CreatePayload(form, roleFilter).Keys
  {
  }

  /** The create payload carries the role filter and copies every field of the form. */
  lemma CreateCopiesForm(form: Form, roleFilter: WardenRole)
    requires Fields <= form.Keys
    ensures CreatePayload(form, roleFilter).Keys == Fields + {"wardenType"}
    ensures CreatePayload(form, roleFilter)["wardenType"] == Text(RoleName(roleFilter))
    ensures forall k :: k in Fields ==> CreatePayload(form, roleFilter)[k] == Text(form[k])
  {
  }

  function RoleTitle(isSenior: bool): string
  {
    if isSenior then "Senior Warden" else "Asst. Warden"
  }

  /** Adding is labelled by the page's role filter, editing by the edited warden's own role
      (Asst. Warden when there is none). */
  function Title(mode: Mode, roleFilter: WardenRole, warden: Option<Warden>): (t: string)
    ensures mode == Create ==> t == "Add " + RoleTitle(roleFilter == SeniorWarden)
    ensures mode == Edit ==> t == "Edit " + RoleTitle(warden.Some? && warden.value.role == SeniorWarden)
    ensures "Add " <= t <==> mode == Create
  {
    if mode == Create then "Add " + RoleTitle(roleFilter == SeniorWarden)
    else
      var t := "Edit " + RoleTitle(warden.Some? && warden.value.role == SeniorWarden);
      assert t[0] == 'E';
      t
  }

  class Dialog {
    var form: Form

    constructor()
      ensures form == BlankForm(Fields)
    {
      form := BlankForm(Fields);
    }

    /** Every field of the form has a value. */
    predicate Valid()
      reads this
    {
      Fields <= form.Keys
    }

    method Prefill(mode: Mode, warden: Option<Warden>)
      modifies this
      ensures form == PrefilledForm(mode, warden) && Valid()
    {
      form := PrefilledForm(mode, warden);
    }

    method HandleChange(name: string, value: string)
      modifies this
      requires Valid()
      ensures form == WithField(old(form), name, value) && Valid()
    {
      form := form[name := value];
    }

    /** `handleSubmit`: the create payload, or the update payload assembled field by field. */
    method Submit(mode: Mode, roleFilter: WardenRole) returns (payload: Payload)
      requires Valid()
      ensures mode == Create ==> payload == CreatePayload(form, roleFilter)
      ensures mode == Edit ==> payload == UpdatePayload(form)
    {
      if mode == Create {
        payload := CreatePayload(form, roleFilter);
      } else {
        payload := map[];
        if form["name"] != "" { payload := payload["name" := Text(form["name"])]; }
        if form["phone_no"] != "" { payload := payload["phone_no" := Text(form["phone_no"])]; }
        if form["email"] != "" { payload := payload["email" := Text(form["email"])]; }
        assert payload == map k | k in Editable && form[k] != "" :: Text(form[k]) by {
          assert payload.Keys == (map k | k in Editable && form[k] != "" :: Text(form[k])).Keys;
        }
        if form["hostel_id"] != "" { payload := payload["hostel_id" := TextList([form["hostel_id"]])]; }
      }
    }
  }
}
