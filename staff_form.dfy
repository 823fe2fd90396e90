/** What the staff dialogs share: their mode, their form (a string-valued object keyed by input
    name) and the payload objects they hand to `onSubmit`. */
module StaffForm {

  datatype Mode = Create | Edit

  /** A form object: input name to value. */
  type Form = map<string, string>

  /** A payload field's value: a string, or a list of strings (`hostel_id: [id]`). */
  datatype PayloadValue = Text(s: string) | TextList(items: seq<string>)

  /** A payload object: field name to value; a field that was never assigned is absent. */
  type Payload = map<string, PayloadValue>

  /** A form whose given fields are all ''. */
  function BlankForm(keys: set<string>): Form
  {
    map k | k in keys :: ""
  }

  /** `setForm(prev => ({ ...prev, [name]: value }))` */
  function WithField(form: Form, name: string, value: string): Form
  {
    form[name := value]
  }

  /** Changing one input sets that field and leaves every other field as it was. */
  lemma WithFieldOnlyNamed(form: Form, name: string, value: string)
    ensures var f := WithField(form, name, value);
      f[name] == value && f.Keys == form.Keys + {name}
      && forall k :: k in form && k != name ==> f[k] == form[k]
  {
  }
}
