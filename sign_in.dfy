/**
 * The sign-in form (client/src/components/SignIn.jsx): an e-mail address, a
 * password and a remember-me checkbox, checked before the login request, which
 * carries the role taken from the route.
 */
module SignIn {
  import opened Wrappers
  import opened Text
  import opened Ids
  import opened FormChecks
  import opened UserModel
  import opened Store
  import opened UserRoutes

  const InitialForm: map<string, Value> :=
    map["email" := Str(""), "password" := Str(""), "rememberMe" := Flag(false)]

  /** The two text fields are present and hold text. */
  ghost predicate FormShape(form: map<string, Value>) {
    "email" in form && form["email"].Str? && "password" in form && form["password"].Str?
  }

  /** The error `validateForm` records for field `f`, if any. */
  function FieldError(form: map<string, Value>, f: string): (r: Option<string>)
    requires FormShape(form)
    ensures r.Some? ==> f == "email" || f == "password"
    ensures f == "email" ==> r == EmailError(form["email"].s)
    ensures f == "password" ==> (r.Some? <==> form["password"].s == "")
    ensures r.Some? && f == "password" ==> r.value == PasswordRequired
  {
    if f == "email" then EmailError(form["email"].s)
    else if f == "password" && form["password"].s == "" then Some(PasswordRequired)
    else None
  }

  /** The body `handleSubmit` sends: the form fields and the route's role, job seeker when
      the route has none. */
  datatype LoginData = LoginData(email: string, password: string, rememberMe: bool, role: string)

  function LoginPayload(form: map<string, Value>, role: Option<string>): (d: LoginData)
    requires FormShape(form)
    ensures Truthy(role) ==> d.role == role.value
    ensures !Truthy(role) ==> d.role == "jobseeker"
    ensures d.email == form["email"].s && d.password == form["password"].s
    ensures d.rememberMe <==> "rememberMe" in form && form["rememberMe"] == Flag(true)
  {
    LoginData(form["email"].s, form["password"].s,
              "rememberMe" in form && form["rememberMe"] == Flag(true),
              Or(role, Some("jobseeker")).value)
  }

  /** An employer who signs in through the route without a role is sent as a job seeker and
      refused with the wrong-account-type message, whatever the password. */
  lemma EmployerNeedsEmployerRoute(users: map<Id, User>, id: Id, form: map<string, Value>)
    requires UniqueEmails(users) && FormShape(form)
    requires id in users && users[id].role == Employer && users[id].email == form["email"].s
    ensures var d := LoginPayload(form, None);
      Login(users, d.email, Some(d.password), d.role) == Fail(400, WrongAccountType(Employer))
  {
    assert RoleName(Employer) != "jobseeker";
  }

  /** The error object `validateForm` builds: an entry for each field in error, with its
      message, and nothing else. */
  method FormErrors(form: map<string, Value>) returns (errors: map<string, string>)
    requires FormShape(form)
    ensures forall f :: f in errors <==> FieldError(form, f).Some?
    ensures forall f :: f in errors ==> Some(errors[f]) == FieldError(form, f)
    ensures errors == map[] <==> EmailPattern(form["email"].s) && form["password"].s != ""
  {
    errors := map[];
    var emailError := EmailError(form["email"].s);
    if emailError.Some? {
      errors := errors["email" := emailError.value];
    }
    if form["password"].s == "" {
      errors := errors["password" := PasswordRequired];
    }
    forall f ensures (f in errors <==> FieldError(form, f).Some?)
                  && (f in errors ==> Some(errors[f]) == FieldError(form, f))
    {
      if f != "email" && f != "password" {
        assert f !in errors;
      }
    }
    assert errors == map[] <==> "email" !in errors && "password" !in errors;
  }

  class SignInForm {
    /** The `:role` route parameter. */
    const role: Option<string>
    var formData: map<string, Value>
    var formErrors: map<string, string>

    ghost predicate Valid()
      reads this
    {
      FormShape(formData)
    }

    constructor (role: Option<string>)
      ensures Valid()
      ensures this.role == role && formData == InitialForm && formErrors == map[]
    {
      this.role := role;
      formData := InitialForm;
      formErrors := map[];
    }

    /** `handleChange`: clears the field's error and stores the new value of that field
        alone. */
    method HandleChange(c: Change)
      requires Valid()
      requires c.checkbox ==> c.name != "email" && c.name != "password"
      modifies this`formData, this`formErrors
      ensures Valid()
      ensures formErrors == old(formErrors)[c.name := ""]
      ensures formData == old(formData)[c.name := ChangedValue(c)]
    {
      formErrors := formErrors[c.name := ""];
      formData := formData[c.name := ChangedValue(c)];
    }

    /** `validateForm`: records exactly the field errors and reports whether there are none. */
    method ValidateForm() returns (ok: bool)
      requires Valid()
      modifies this`formErrors
      ensures forall f :: f in formErrors <==> FieldError(formData, f).Some?
      ensures forall f :: f in formErrors ==> Some(formErrors[f]) == FieldError(formData, f)
      ensures ok <==> formErrors == map[]
      ensures ok <==> EmailPattern(formData["email"].s) && formData["password"].s != ""
    {
      var errors := FormErrors(formData);
      formErrors := errors;
      ok := errors == map[];
    }

    /** `handleSubmit`: the login body, when the form passes. */
    method Submit() returns (d: Option<LoginData>)
      requires Valid()
      modifies this`formErrors
      ensures forall f :: f in formErrors <==> FieldError(formData, f).Some?
      ensures forall f :: f in formErrors ==> Some(formErrors[f]) == FieldError(formData, f)
      ensures d.Some? <==> EmailPattern(formData["email"].s) && formData["password"].s != ""
      ensures d.Some? ==> d.value == LoginPayload(formData, role)
    {
      var ok := ValidateForm();
      d := if ok then Some(LoginPayload(formData, role)) else None;
    }
  }
}
