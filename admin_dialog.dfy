/** The add/edit dialog for administrators. */
module AdminDialog {
  import opened JsText
  import opened StaffForm

  /** The fields of an admin the dialog reads. */
  datatype Admin = Admin(empId: string, name: string, phoneNo: string, email: string)

  const Fields: set<string> := {"name", "emp_id", "phone_no", "email"}

  /** The fields an update may carry. */
  const Editable: set<string> := {"name", "phone_no", "email"}

  /** The prefill effect: an admin being edited fills the form, anything else clears it. */
  function PrefilledForm(mode: Mode, admin: Option<Admin>): (f: Form)
    ensures f.Keys == Fields
    ensures mode == Edit && admin.Some? ==>
      f["name"] == admin.value.name && f["emp_id"] == admin.value.empId
      && f["phone_no"] == admin.value.phoneNo && f["email"] == admin.value.email
    ensures !(mode == Edit && admin.Some?) ==> forall k :: k in f ==> f[k] == ""
  {
    if mode == Edit && admin.Some? then
      map["name" := admin.value.name, "emp_id" := admin.value.empId,
          "phone_no" := admin.value.phoneNo, "email" := admin.value.email]
    else BlankForm(Fields)
  }

  /** The create payload: the four fields verbatim. */
  function CreatePayload(form: Form): Payload
    requires Fields <= form.Keys
  {
    map["name" := Text(form["name"]), "emp_id" := Text(form["emp_id"]),
        "phone_no" := Text(form["phone_no"]), "email" := Text(form["email"])]
  }

  /** The update payload, described field by field: each editable field that is non-empty. */
  function UpdatePayload(form: Form): Payload
    requires Fields <= form.Keys
  {
    map k | k in Editable && form[k] != "" :: Text(form[k])
  }

  /** The update payload is the create payload without `emp_id` and without empty fields:
      it never carries `emp_id`, and it carries a field exactly when the form's value is non-empty. */
  lemma UpdateWithinCreate(form: Form)
    requires Fields <= form.Keys
    ensures "emp_id" !in UpdatePayload(form)
    ensures forall k :: k in UpdatePayload(form) <==>
      k in CreatePayload(form) && k != "emp_id" && CreatePayload(form)[k] != Text("")
    ensures forall k :: k in UpdatePayload(form) ==> UpdatePayload(form)[k] == CreatePayload(form)[k]
  {
  }

  /** The create payload copies every field of the form. */
  lemma CreateCopiesForm(form: Form)
    requires Fields <= form.Keys
    ensures CreatePayload(form).Keys == Fields
    ensures forall k :: k in Fields ==> CreatePayload(form)[k] == Text(form[k])
  {
  }

  function Title(mode: Mode): (t: string)
    ensures t == "Add Admin" <==> mode == Create
    ensures mode == Edit ==> t == "Edit Admin"
  {
    if mode == Create then "Add Admin" else "Edit Admin"
  }

  class Dialog {
    var form: Form

    constructor()
      ensures form == BlankForm(Fields)
    {
      form := BlankForm(Fields);
    }

    /** Every field of the form has a value. */
    predicate Valid()
      reads this
    {
      Fields <= form.Keys
    }

    method Prefill(mode: Mode, admin: Option<Admin>)
      modifies this
      ensures form == PrefilledForm(mode, admin) && Valid()
    {
      form := PrefilledForm(mode, admin);
    }

    method HandleChange(name: string, value: string)
      modifies this
      requires Valid()
      ensures form == WithField(old(form), name, value) && Valid()
    {
      form := form[name := value];
    }

    /** `handleSubmit`: the create payload, or the update payload assembled field by field. */
    method Submit(mode: Mode) returns (payload: Payload)
      requires Valid()
      ensures mode == Create ==> payload == CreatePayload(form)
      ensures mode == Edit ==> payload == UpdatePayload(form)
    {
      if mode == Create {
        payload := CreatePayload(form);
      } else {
        payload := map[];
        if form["name"] != "" { payload := payload["name" := Text(form["name"])]; }
        if form["phone_no"] != "" { payload := payload["phone_no" := Text(form["phone_no"])]; }
        if form["email"] != "" { payload := payload["email" := Text(form["email"])]; }
        assert payload.Keys == UpdatePayload(form).Keys;
      }
    }
  }
}
