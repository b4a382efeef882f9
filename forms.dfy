/** What the sign-in and admin forms share: field values and error messages kept by field
    name, the edit that writes one field, the rule that typing into a field clears that
    field's error, and JavaScript's `a || fallback` on an optional message. */
module Forms {
  import opened Wrappers

  /** Values or error messages by field name; a cleared error is the empty string. */
  type Fields = map<string, string>

  /** The value of a field; every form starts with all its fields set to "". */
  function Get(data: Fields, name: string): string {
    if name in data then data[name] else ""
  }

  /** `setFormData({ ...data, [name]: value })`. */
  function Edit(data: Fields, name: string, value: string): (r: Fields)
    ensures Get(r, name) == value
    ensures forall k | k != name :: Get(r, k) == Get(data, k)
  {
    data[name := value]
  }

  /** `if (errors[name]) setErrors({ ...errors, [name]: '' })`. */
  function ClearOnType(errors: Fields, name: string): Fields {
    if name in errors && errors[name] != "" then errors[name := ""] else errors
  }

  /** The error map has no entry: `Object.keys(errors).length === 0`. */
  predicate NoErrors(errors: Fields) {
    errors == map[]
  }

  /** `m || fallback` for a message that may be absent. */
  function Or(m: Option<string>, fallback: string): (r: string)
    ensures m.Some? && m.value != "" ==> r == m.value
    ensures m.None? || m.value == "" ==> r == fallback
  {
    if m.Some? && m.value != "" then m.value else fallback
  }

  /** The error map with the error of one field added when there is one. */
  function Put(errors: Fields, name: string, e: Option<string>): (r: Fields)
    ensures e.None? ==> r == errors
    ensures e.Some? ==> r == errors[name := e.value]
  {
    if e.Some? then errors[name := e.value] else errors
  }

  /** Typing clears the error of the field typed into, keeps its entry, and leaves every
      other field's error as it was. */
  lemma ClearOnlyThatField(errors: Fields, name: string)
    ensures var r := ClearOnType(errors, name);
      && Get(r, name) == ""
      && (name in r <==> name in errors)
      && (forall k | k != name :: (k in r <==> k in errors) && Get(r, k) == Get(errors, k))
  {
  }
}
