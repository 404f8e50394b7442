/** The flat field-name to value mapping kept by the two form pages. */
module Forms {

  type Form = map<string, string>

  /** `{ ...prev, [field]: value }`: the form with one field set. */
  function WithField(form: Form, field: string, value: string): (r: Form)
    ensures r.Keys == form.Keys + {field}
    ensures r[field] == value
    ensures forall g :: g in form && g != field ==> r[g] == form[g]
  {
    form[field := value]
  }

  /** The fields whose value differs between two forms (a field added or removed counts). */
  function ChangedFields(before: Form, after: Form): set<string> {
    (set g | g in before && (g !in after || after[g] != before[g])) + (after.Keys - before.Keys)
  }

  /** An edit changes exactly the edited field, and only when its value is new. */
  lemma EditChangesOneField(form: Form, field: string, value: string)
    ensures ChangedFields(form, WithField(form, field, value)) ==
            if field in form && form[field] == value then {} else {field}
  {
    var after := WithField(form, field, value);
    if field in form && form[field] == value {
      assert after == form;
    } else {
      assert field in ChangedFields(form, after);
    }
  }

  /** A form with every listed field set to the empty string. */
  function Blank(fields: seq<string>): (r: Form)
    ensures r.Keys == set f | f in fields
    ensures forall f :: f in r ==> r[f] == ""
  {
    map f | f in fields :: ""
  }
}
