/**
 * The three-step sign-up form (client/src/components/SignUp.jsx): account
 * details, then the job-seeker or employer details, then review. The form
 * keeps one dictionary per section, validates the current step before moving
 * on, and submits a body holding `profile` for a job seeker and `company`
 * otherwise.
 */
module SignUp {
  import opened Wrappers
  import opened Text
  import opened FormChecks
  import opened UserModel
  import opened UserRoutes

  const AccountFields: set<string> := {"firstName", "lastName", "email", "password", "confirmPassword"}
  const SeekerTextFields: set<string> := {"title", "experience", "skills", "educationLevel", "linkedinProfile"}
  const EmployerFields: set<string> :=
    {"companyName", "industry", "companySize", "companyWebsite", "companyDescription", "contactPhone"}

  const InitialAccount: map<string, string> :=
    map["firstName" := "", "lastName" := "", "email" := "", "password" := "", "confirmPassword" := ""]
  const InitialSeeker: map<string, Value> :=
    map["title" := Str(""), "experience" := Str(""), "skills" := Str(""), "educationLevel" := Str(""),
        "resume" := Null, "linkedinProfile" := Str(""), "openToRemote" := Flag(false)]
  const InitialEmployer: map<string, string> :=
    map["companyName" := "", "industry" := "", "companySize" := "", "companyWebsite" := "",
        "companyDescription" := "", "contactPhone" := ""]

  /** Every field the form renders is present, and the job-seeker text fields hold text. */
  ghost predicate FormShape(account: map<string, string>, seeker: map<string, Value>, employer: map<string, string>) {
    && AccountFields <= account.Keys
    && (forall k :: k in SeekerTextFields ==> k in seeker && seeker[k].Str?)
    && EmployerFields <= employer.Keys
  }

  const PasswordTooShort := "Password must be at least 8 characters"
  const ConfirmRequired := "Please confirm your password"
  const PasswordsDiffer := "Passwords do not match"

  const FirstNameRequired := "First name is required"
  const LastNameRequired := "Last name is required"

  /** The password check: required, then at least eight characters. */
  function PasswordError(password: string): (r: Option<string>)
    ensures r == Some(PasswordRequired) <==> password == ""
    ensures r == Some(PasswordTooShort) <==> 0 < |password| < 8
    ensures r.None? <==> |password| >= 8
  {
    if password == "" then Some(PasswordRequired)
    else if |password| < 8 then Some(PasswordTooShort)
    else None
  }

  /** The confirmation check: required, then equal to the password. */
  function ConfirmError(password: string, confirm: string): (r: Option<string>)
    ensures r == Some(ConfirmRequired) <==> confirm == ""
    ensures r == Some(PasswordsDiffer) <==> confirm != "" && confirm != password
    ensures r.None? <==> confirm != "" && confirm == password
  {
    if confirm == "" then Some(ConfirmRequired)
    else if password != confirm then Some(PasswordsDiffer)
    else None
  }

  /** `!value.trim()`: a required text field. */
  function BlankError(value: string, message: string): (r: Option<string>)
    ensures r.Some? <==> IsBlank(value)
    ensures r.Some? ==> r.value == message
  {
    if IsBlank(value) then Some(message) else None
  }

  /** The error step 0 records for field `f`, if any. */
  function AccountError(account: map<string, string>, f: string): (r: Option<string>)
    requires AccountFields <= account.Keys
    ensures r.Some? ==> f in AccountFields
  {
    if f == "firstName" then BlankError(account["firstName"], FirstNameRequired)
    else if f == "lastName" then BlankError(account["lastName"], LastNameRequired)
    else if f == "email" then EmailError(account["email"])
    else if f == "password" then PasswordError(account["password"])
    else if f == "confirmPassword" then ConfirmError(account["password"], account["confirmPassword"])
    else None
  }

  /** The error step 1 records for field `f`, if any: the fields of the chosen account type
      (company size is not trimmed); no checks for any other type. */
  function ProfileError(userType: string, seeker: map<string, Value>, employer: map<string, string>,
                        f: string): (r: Option<string>)
    requires forall k :: k in SeekerTextFields ==> k in seeker && seeker[k].Str?
    requires EmployerFields <= employer.Keys
    ensures r.Some? ==>
      (userType == "jobseeker" && (f == "title" || f == "skills"))
      || (userType == "employer" && (f == "companyName" || f == "industry" || f == "companySize"))
    ensures userType == "employer" && f == "companySize" ==> (r.Some? <==> employer["companySize"] == "")
  {
    if userType == "jobseeker" then
      if f == "title" then BlankError(seeker["title"].s, "Job title is required")
      else if f == "skills" then BlankError(seeker["skills"].s, "Please add at least one skill")
      else None
    else if userType == "employer" then
      if f == "companyName" then BlankError(employer["companyName"], "Company name is required")
      else if f == "industry" then BlankError(employer["industry"], "Industry is required")
      else if f == "companySize" then
        if employer["companySize"] == "" then Some("Company size is required") else None
      else None
    else None
  }

  /** The error `validateStep` records for field `f` at step `step`: the account checks at
      step 0, the profile checks at step 1, none at the review step. */
  function StepError(step: int, userType: string, account: map<string, string>, seeker: map<string, Value>,
                     employer: map<string, string>, f: string): (r: Option<string>)
    requires FormShape(account, seeker, employer)
    ensures r.Some? ==> step == 0 || step == 1
  {
    if step == 0 then AccountError(account, f)
    else if step == 1 then ProfileError(userType, seeker, employer, f)
    else None
  }

  /** The step passes: no field has an error. */
  ghost predicate StepPasses(step: int, userType: string, account: map<string, string>,
                             seeker: map<string, Value>, employer: map<string, string>)
    requires FormShape(account, seeker, employer)
  {
    forall f :: StepError(step, userType, account, seeker, employer, f).None?
  }

  /** The body `handleSubmit` posts to `/auth/register`: the account fields, `userType`, and
      `profile` for a job seeker or `company` for anyone else. */
  datatype SignUpPayload = SignUpPayload(
    account: map<string, string>, userType: string,
    profile: Option<map<string, Value>>, company: Option<map<string, string>>)

  function FormData(account: map<string, string>, userType: string, seeker: map<string, Value>,
                    employer: map<string, string>): (p: SignUpPayload)
    ensures p.profile.Some? <==> userType == "jobseeker"
    ensures p.company.Some? <==> userType != "jobseeker"
    ensures p.profile.None? || p.company.None?
    ensures p.profile.Some? ==> p.profile.value == seeker
    ensures p.company.Some? ==> p.company.value == employer
    ensures p.account == account && p.userType == userType
  {
    if userType == "jobseeker" then SignUpPayload(account, userType, Some(seeker), None)
    else SignUpPayload(account, userType, None, Some(employer))
  }

  /** A JSON property: present or `undefined`. */
  function Lookup(m: map<string, string>, k: string): Option<string> {
    if k in m then Some(m[k]) else None
  }

  function TextOf(m: map<string, Value>, k: string): Option<string> {
    if k in m && m[k].Str? then Some(m[k].s) else None
  }

  /** The payload as the registration route reads it. The route has no use for
      `confirmPassword`, `resume`, `openToRemote` or `contactPhone`. */
  function ToRegisterBody(p: SignUpPayload): (b: RegisterBody)
    ensures b.userType == Some(p.userType) && b.role.None?
    ensures b.profile.Some? <==> p.profile.Some?
    ensures b.company.Some? <==> p.company.Some?
  {
    RegisterBody(
      Lookup(p.account, "firstName"), Lookup(p.account, "lastName"), Lookup(p.account, "email"),
      Lookup(p.account, "password"), Some(p.userType), None,
      match p.profile
      case Some(m) =>
        Some(ProfileInput(TextOf(m, "title"), TextOf(m, "skills"), TextOf(m, "experience"),
                          TextOf(m, "educationLevel"), TextOf(m, "linkedinProfile")))
      case None => None,
      match p.company
      case Some(m) =>
        Some(CompanyInput(Lookup(m, "companyName"), Lookup(m, "industry"), Lookup(m, "companySize"),
                          Lookup(m, "companyWebsite"), Lookup(m, "companyDescription")))
      case None => None)
  }

  /** Account details that pass step 0, sent with a role the server knows, pass every check
      registration makes before it looks for the address. */
  lemma AccountStepPassesServerChecks(account: map<string, string>, userType: string,
                                      seeker: map<string, Value>, employer: map<string, string>)
    requires FormShape(account, seeker, employer)
    requires StepPasses(0, userType, account, seeker, employer)
    requires userType == "jobseeker" || userType == "employer"
    ensures CheckRegistration(ToRegisterBody(FormData(account, userType, seeker, employer))).None?
  {
    var b := ToRegisterBody(FormData(account, userType, seeker, employer));
    assert StepError(0, userType, account, seeker, employer, "firstName").None?;
    assert StepError(0, userType, account, seeker, employer, "lastName").None?;
    assert StepError(0, userType, account, seeker, employer, "email").None?;
    assert StepError(0, userType, account, seeker, employer, "password").None?;
    assert AccountError(account, "firstName").None? && AccountError(account, "lastName").None?;
    assert AccountError(account, "email").None? && AccountError(account, "password").None?;
    EmailPatternShape(account["email"]);
    assert Trim("") == [];
    assert HasRequiredFields(b);
    assert RequestedRole(b) == Some(userType);
    assert userType == RoleName(Jobseeker) || userType == RoleName(Employer);
  }

  /** The contact phone an employer enters while signing up is not stored: the registration
      route copies only five company fields. */
  lemma SignUpDropsContactPhone(account: map<string, string>, seeker: map<string, Value>,
                                employer: map<string, string>, now: int)
    requires CheckRegistration(ToRegisterBody(FormData(account, "employer", seeker, employer))).None?
    ensures RegisteredUser(ToRegisterBody(FormData(account, "employer", seeker, employer)), now).contactPhone == None
    ensures RegisteredUser(ToRegisterBody(FormData(account, "employer", seeker, employer)), now).employer.location == None
  {
  }

  /** `errors.f = message` when the check produced a message. */
  function Record(errors: map<string, string>, f: string, e: Option<string>): (r: map<string, string>)
    ensures forall k :: k in r <==> k in errors || (k == f && e.Some?)
    ensures forall k :: k in r ==> r[k] == (if k == f && e.Some? then e.value else errors[k])
  {
    if e.Some? then errors[f := e.value] else errors
  }

  /** The account part of `validateStep`, one field after another. */
  method AccountErrors(account: map<string, string>) returns (errors: map<string, string>)
    requires AccountFields <= account.Keys
    ensures forall f :: f in errors <==> AccountError(account, f).Some?
    ensures forall f :: f in errors ==> Some(errors[f]) == AccountError(account, f)
  {
    errors := map[];
    errors := Record(errors, "firstName", BlankError(account["firstName"], FirstNameRequired));
    errors := Record(errors, "lastName", BlankError(account["lastName"], LastNameRequired));
    errors := Record(errors, "email", EmailError(account["email"]));
    errors := Record(errors, "password", PasswordError(account["password"]));
    errors := Record(errors, "confirmPassword", ConfirmError(account["password"], account["confirmPassword"]));
    forall f ensures f in errors <==> AccountError(account, f).Some?
      ensures f in errors ==> Some(errors[f]) == AccountError(account, f)
    {
      if f == "firstName" {
        assert f != "lastName" && f != "email" && f != "password" && f != "confirmPassword";
      } else if f == "lastName" {
        assert f != "email" && f != "password" && f != "confirmPassword";
      } else if f == "email" {
        assert f != "password" && f != "confirmPassword";
      } else if f == "password" {
        assert f != "confirmPassword";
      }
    }
  }

  /** The profile part of `validateStep`, one field after another. */
  method ProfileErrors(userType: string, seeker: map<string, Value>, employer: map<string, string>)
    returns (errors: map<string, string>)
    requires forall k :: k in SeekerTextFields ==> k in seeker && seeker[k].Str?
    requires EmployerFields <= employer.Keys
    ensures forall f :: f in errors <==> ProfileError(userType, seeker, employer, f).Some?
    ensures forall f :: f in errors ==> Some(errors[f]) == ProfileError(userType, seeker, employer, f)
  {
    errors := map[];
    if userType == "jobseeker" {
      if IsBlank(seeker["title"].s) { errors := errors["title" := "Job title is required"]; }
      if IsBlank(seeker["skills"].s) { errors := errors["skills" := "Please add at least one skill"]; }
    } else if userType == "employer" {
      if IsBlank(employer["companyName"]) { errors := errors["companyName" := "Company name is required"]; }
      if IsBlank(employer["industry"]) { errors := errors["industry" := "Industry is required"]; }
      if employer["companySize"] == "" { errors := errors["companySize" := "Company size is required"]; }
    }
  }

  class SignUpForm {
    var activeStep: int
    var userType: string
    var account: map<string, string>
    var seeker: map<string, Value>
    var employer: map<string, string>
    var formErrors: map<string, string>

    ghost predicate Valid()
      reads this
    {
      FormShape(account, seeker, employer)
    }

    /** The form opened at `/signup/:role`: step 0, the account type taken from the route
        (job seeker when there is none), every field empty. */
    constructor (role: Option<string>)
      ensures Valid()
      ensures activeStep == 0 && userType == (if Truthy(role) then role.value else "jobseeker")
      ensures account == InitialAccount && seeker == InitialSeeker && employer == InitialEmployer
      ensures formErrors == map[]
    {
      activeStep := 0;
      userType := Or(role, Some("jobseeker")).value;
      account := InitialAccount;
      seeker := InitialSeeker;
      employer := InitialEmployer;
      formErrors := map[];
    }

    /** The account-type radio buttons. */
    method ChooseUserType(t: string)
      modifies this`userType
      ensures userType == t
    {
      userType := t;
    }

    /** `handleChange`: clears the field's error, then stores the value in the account
        dictionary for an account field, otherwise in the dictionary of the current account
        type (a checkbox stores its `checked` state); any other account type stores nothing. */
    method HandleChange(c: Change)
      requires Valid()
      requires c.checkbox ==> c.name !in SeekerTextFields
      modifies this`account, this`seeker, this`employer, this`formErrors
      ensures Valid()
      ensures formErrors == old(formErrors)[c.name := ""]
      ensures c.name in AccountFields ==>
        && account == old(account)[c.name := c.value]
        && seeker == old(seeker) && employer == old(employer)
      ensures c.name !in AccountFields && userType == "jobseeker" ==>
        && seeker == old(seeker)[c.name := ChangedValue(c)]
        && account == old(account) && employer == old(employer)
      ensures c.name !in AccountFields && userType == "employer" ==>
        && employer == old(employer)[c.name := c.value]
        && account == old(account) && seeker == old(seeker)
      ensures c.name !in AccountFields && userType != "jobseeker" && userType != "employer" ==>
        account == old(account) && seeker == old(seeker) && employer == old(employer)
    {
      formErrors := formErrors[c.name := ""];
      if c.name in AccountFields {
        account := account[c.name := c.value];
      } else if userType == "jobseeker" {
        seeker := seeker[c.name := ChangedValue(c)];
      } else if userType == "employer" {
        employer := employer[c.name := c.value];
      }
    }

    /** `handleFileChange`: the first chosen file becomes the resume; a dialog closed without
        a choice leaves `files[0]`, and so the resume, `undefined`. */
    method HandleFileChange(file: Option<string>)
      requires Valid()
      modifies this`seeker
      ensures Valid()
      ensures file.Some? ==> seeker == old(seeker)["resume" := Upload(file.value)]
      ensures file.None? ==> seeker == old(seeker)["resume" := Undefined]
    {
      var resume := if file.Some? then Upload(file.value) else Undefined;
      seeker := seeker["resume" := resume];
    }

    /** `validateStep`: records exactly the errors of the current step and reports whether
        there are none. */
    method ValidateStep() returns (ok: bool)
      requires Valid()
      modifies this`formErrors
      ensures forall f :: f in formErrors <==> StepError(activeStep, userType, account, seeker, employer, f).Some?
      ensures forall f :: f in formErrors ==> Some(formErrors[f]) == StepError(activeStep, userType, account, seeker, employer, f)
      ensures ok <==> StepPasses(activeStep, userType, account, seeker, employer)
      ensures ok <==> formErrors == map[]
    {
      var errors: map<string, string> := map[];
      if activeStep == 0 {
        errors := AccountErrors(account);
      } else if activeStep == 1 {
        errors := ProfileErrors(userType, seeker, employer);
      }
      formErrors := errors;
      ok := |errors| == 0;
      if !ok {
        var f :| f in errors;
        assert StepError(activeStep, userType, account, seeker, employer, f).Some?;
      }
    }

    /** `handleNext`: moves on only when the current step passes. */
    method HandleNext()
      requires Valid()
      modifies this`formErrors, this`activeStep
      ensures StepPasses(old(activeStep), userType, account, seeker, employer) ==> activeStep == old(activeStep) + 1
      ensures !StepPasses(old(activeStep), userType, account, seeker, employer) ==> activeStep == old(activeStep)
      ensures forall f :: f in formErrors <==> StepError(old(activeStep), userType, account, seeker, employer, f).Some?
    {
      var ok := ValidateStep();
      if ok {
        activeStep := activeStep + 1;
      }
    }

    /** `handleBack`: always one step back. */
    method HandleBack()
      modifies this`activeStep
      ensures activeStep == old(activeStep) - 1
    {
      activeStep := activeStep - 1;
    }

    /** `handleSubmit`: validates the current step and, when it passes, yields the body to
        post. */
    method Submit() returns (payload: Option<SignUpPayload>)
      requires Valid()
      modifies this`formErrors
      ensures payload.Some? <==> StepPasses(activeStep, userType, account, seeker, employer)
      ensures payload.Some? ==> payload.value == FormData(account, userType, seeker, employer)
    {
      var ok := ValidateStep();
      payload := if ok then Some(FormData(account, userType, seeker, employer)) else None;
    }
  }
}
