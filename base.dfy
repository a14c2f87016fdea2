/** Small shared vocabulary: Python's `None`-able values and submitted form data. */
module Base {

  /** A value that may be absent, as Python's `str | None`. */
  datatype Option<+T> = None | Some(value: T)

  /** The dictionary a browser form submits: field name to field text. */
  type FormData = map<string, string>

  /** Python's `form_data.get(key, default)`. */
  function Lookup(form: FormData, key: string, default: string): (v: string)
    ensures key in form ==> v == form[key]
    ensures key !in form ==> v == default
  {
    if key in form then form[key] else default
  }
}
