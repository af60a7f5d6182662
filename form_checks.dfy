/** The field checks the sign-in and sign-up forms share. */
module FormChecks {
  import opened Wrappers
  import opened Text

  /** A value of a form's state dictionary: text, a checkbox state, or a file input (null
      until a file is chosen, `undefined` once a file dialog is closed without a choice). */
  datatype Value = Str(s: string) | Flag(b: bool) | Null | Undefined | Upload(fileName: string)

  /** The target of a change event: the input's `name`, `value`, `checked` state and whether
      its `type` is `checkbox`. */
  datatype Change = Change(name: string, value: string, checked: bool, checkbox: bool)

  /** `type === 'checkbox' ? checked : value`. */
  function ChangedValue(c: Change): (v: Value)
    ensures c.checkbox ==> v == Flag(c.checked)
    ensures !c.checkbox ==> v == Str(c.value)
  {
    if c.checkbox then Flag(c.checked) else Str(c.value)
  }

  const EmailRequired := "Email is required"
  const EmailInvalid := "Email is invalid"
  const PasswordRequired := "Password is required"

  /** The e-mail check of both forms: blank after trimming, otherwise not matching
      `/\S+@\S+\.\S+/`. An address passes exactly when it matches the pattern. */
  function EmailError(email: string): (r: Option<string>)
    ensures r == Some(EmailRequired) <==> IsBlank(email)
    ensures r == Some(EmailInvalid) <==> !IsBlank(email) && !EmailPattern(email)
    ensures r.None? <==> EmailPattern(email)
  {
    if IsBlank(email) then
      BlankIsNoEmail(email);
      Some(EmailRequired)
    else if !EmailPattern(email) then Some(EmailInvalid)
    else None
  }
}
