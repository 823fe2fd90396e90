/** The add/edit dialog for security guards. */
module SecurityDialog {
  import opened JsText
  import opened StaffForm

  /** The fields of a guard the dialog reads. */
  datatype SecurityGuard = SecurityGuard(empId: string, name: string, phoneNo: string, email: string)

  const Fields: set<string> := {"name", "emp_id", "phone_no", "email"}

  /** The fields an update may carry. */
  const Editable: set<string> := {"name", "phone_no", "email"}

  /** The prefill effect: a guard being edited fills the form, anything else clears it. */
  function PrefilledForm(mode: Mode, guard: Option<SecurityGuard>): (f: Form)
    ensures f.Keys == Fields
    ensures mode == Edit && guard.Some? ==>
      f["name"] == guard.value.name && f["emp_id"] == guard.value.empId
      && f["phone_no"] == guard.value.phoneNo && f["email"] == guard.value.email
    ensures !(mode == Edit && guard.Some?) ==> forall k :: k in f ==> f[k] == ""
  {
    if mode == Edit && guard.Some? then
      map["name" := guard.value.name, "emp_id" := guard.value.empId,
          "phone_no" := guard.value.phoneNo, "email" := guard.value.email]
    else BlankForm(Fields)
  }

  /** The create payload: the four fields verbatim. */
  function CreatePayload(form: Form): Payload
    requires Fields <= form.Keys
  {
    map["name" := Text(form["name"]), "phone_no" := Text(form["phone_no"]),
        "email" := Text(form["email"]), "emp_id" := Text(form["emp_id"])]
  }

  /** The update payload, described field by field: each editable field that is non-empty. */
  function UpdatePayload(form: Form): Payload
    requires Fields <= form.Keys
  {
    map k | k in Editable && form[k] != "" :: Text(form[k])
  }

  /** The update payload is the create payload without `emp_id` and without empty fields:
      it never carries `emp_id`, and it carries a field exactly when the form's value is non-empty. */
  lemma UpdateWithinCreate(form: Form)
    requires Fields <= form.Keys
    ensures "emp_id" !in UpdatePayload(form)
    ensures forall k :: k in UpdatePayload(form) <==>
      k in CreatePayload(form) && k != "emp_id" && CreatePayload(form)[k] != Text("")
    ensures forall k :: k in UpdatePayload(form) ==> UpdatePayload(form)[k] == CreatePayload(form)[k]
  {
  }

  /** The create payload copies every field of the form. */
  lemma CreateCopiesForm(form: Form)
    requires Fields <= form.Keys
    ensures CreatePayload(form).Keys == Fields
    ensures forall k :: k in Fields ==> CreatePayload(form)[k] == Text(form[k])
  {
  }

  function Title(mode: Mode): (t: string)
    ensures t == "Add Security Guard" <==> mode == Create
    ensures mode == Edit ==> t == "Edit Security Guard"
  {
    if mode == Create then "Add Security Guard" else "Edit Security Guard"
  }

  class Dialog {
    var form: Form

    constructor()
      ensures form == BlankForm(Fields)
    {
      form := BlankForm(Fields);
    }

    /** Every field of the form has a value. */
    predicate Valid()
      reads this
    {
      Fields <= form.Keys
    }

    method Prefill(mode: Mode, guard: Option<SecurityGuard>)
      modifies this
      ensures form == PrefilledForm(mode, guard) && Valid()
    {
      form := PrefilledForm(mode, guard);
    }

    method HandleChange(name: string, value: string)
      modifies this
      requires Valid()
      ensures form == WithField(old(form), name, value) && Valid()
    {
      form := form[name := value];
    }

    /** `handleSubmit`: the create payload, or the update payload assembled field by field. */
    method Submit(mode: Mode) returns (payload: Payload)
      requires Valid()
      ensures mode == Create ==> payload == CreatePayload(form)
      ensures mode == Edit ==> payload == UpdatePayload(form)
    {
      if mode == Create {
        payload := CreatePayload(form);
      } else {
        payload := map[];
        if form["name"] != "" { payload := payload["name" := Text(form["name"])]; }
        if form["phone_no"] != "" { payload := payload["phone_no" := Text(form["phone_no"])]; }
        if form["email"] != "" { payload := payload["email" := Text(form["email"])]; }
        assert payload.Keys == UpdatePayload(form).Keys;
      }
    }
  }
}
