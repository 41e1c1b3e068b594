/** What the three form pages share: the error map their validators build and
    the rule that typing in a field clears that field's error. */
module Forms {
  import opened Common

  /** A `{ field: message }` object. A key mapped to `""` is an error that
      was cleared: it is still a key but shows nothing. */
  type Errors = map<string, string>

  /** `if (formErrors[name]) formErrors = { ...formErrors, [name]: '' }`. */
  function ClearFieldError(errors: Errors, name: string): (r: Errors)
    ensures r.Keys == errors.Keys
    ensures name in r ==> r[name] == ""
    ensures forall other | other in errors && other != name :: r[other] == errors[other]
  {
    if name in errors && errors[name] != "" then errors[name := ""] else errors
  }

  /** Clearing is idempotent, and clearing two fields is order-independent. */
  lemma ClearFieldErrorCommutes(errors: Errors, a: string, b: string)
    ensures ClearFieldError(ClearFieldError(errors, a), a) == ClearFieldError(errors, a)
    ensures ClearFieldError(ClearFieldError(errors, a), b) == ClearFieldError(ClearFieldError(errors, b), a)
  {
  }

  /** A `navigate(path, options)` call. */
  datatype Navigation = Navigation(path: string, replace: bool, message: Option<string>)
}
