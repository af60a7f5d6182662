/**
 * The account routes (server/routes/users.js): registration, login, the
 * current-user and profile views, the role-whitelisted profile update, and the
 * list of companies taken from employer accounts.
 */
module UserRoutes {
  import opened Wrappers
  import opened Text
  import opened Ids
  import opened UserModel
  import opened Store

  const AllFieldsRequired := "All fields are required"
  const InvalidRole := "Invalid role"
  const UserExists := "User already exists"
  const Registered := "User registered successfully"
  const LoggedIn := "Login successful"
  const InvalidCredentials := "Invalid credentials"
  const UserNotFound := "User not found"
  const ProfileUpdated := "Profile updated successfully"

  /** The message a login with the wrong account type gets: it names the stored role. */
  function WrongAccountType(stored: Role): string {
    "Invalid account type. Please login as a " + RoleName(stored)
  }

  /** The `profile` object a job seeker's registration may carry. */
  datatype ProfileInput = ProfileInput(
    title: Option<string>, skills: Option<string>, experience: Option<string>,
    educationLevel: Option<string>, linkedinProfile: Option<string>)

  /** The `company` object an employer's registration may carry. */
  datatype CompanyInput = CompanyInput(
    companyName: Option<string>, industry: Option<string>, companySize: Option<string>,
    companyWebsite: Option<string>, companyDescription: Option<string>)

  /** The body of `POST /register`. */
  datatype RegisterBody = RegisterBody(
    firstName: Option<string>, lastName: Option<string>, email: Option<string>,
    password: Option<string>, userType: Option<string>, role: Option<string>,
    profile: Option<ProfileInput>, company: Option<CompanyInput>)

  /** The payload of the signed session token. */
  datatype Token = Token(id: Id, role: Role)

  /** What registration, login and `/me` disclose about a user. */
  datatype PublicUser = PublicUser(id: Id, firstName: string, lastName: string, email: string, role: Role)

  /** The reply to a successful registration or login. */
  datatype Session = Session(message: string, token: Token, user: PublicUser)

  /** `/me` and the `user` part of the registration and login replies. */
  function PublicView(id: Id, u: User): (p: PublicUser)
    ensures p.id == id && p.email == u.email && p.role == u.role
    ensures p.firstName == u.firstName && p.lastName == u.lastName
  {
    PublicUser(id, u.firstName, u.lastName, u.email, u.role)
  }

  function SessionFor(message: string, id: Id, u: User): Session {
    Session(message, Token(id, u.role), PublicView(id, u))
  }

  /** `userType || role`: the role a registration asks for. */
  function RequestedRole(b: RegisterBody): Option<string> {
    Or(b.userType, b.role)
  }

  predicate HasRequiredFields(b: RegisterBody) {
    Truthy(b.firstName) && Truthy(b.lastName) && Truthy(b.email) && Truthy(b.password)
    && Truthy(RequestedRole(b))
  }

  /** The checks registration makes before it consults the store, in order: the error
      message, or None when the body passes. A body that passes is one the user schema
      accepts. */
  function CheckRegistration(b: RegisterBody): (r: Option<string>)
    ensures r == Some(AllFieldsRequired) <==> !HasRequiredFields(b)
    ensures r == Some(InvalidRole) <==> HasRequiredFields(b) && ParseRole(RequestedRole(b).value).None?
    ensures r.None? || r == Some(AllFieldsRequired) || r == Some(InvalidRole)
    ensures r.None? ==> forall d: Digest, now: int ::
      NewUser(b.firstName, b.lastName, b.email, d, RequestedRole(b), NoSeekerFields, NoEmployerFields, now).Some?
  {
    if !HasRequiredFields(b) then Some(AllFieldsRequired)
    else if ParseRole(RequestedRole(b).value).None? then Some(InvalidRole)
    else None
  }

  /** The optional fields a registration copies: the job-seeker ones (with `educationLevel`
      stored as `education`) only for a job seeker, the company ones only for an employer. */
  function RegistrationFields(role: Role, b: RegisterBody): (f: (SeekerFields, EmployerFields))
    ensures f.0 != NoSeekerFields ==> role == Jobseeker && b.profile.Some?
    ensures f.1 != NoEmployerFields ==> role == Employer && b.company.Some?
    ensures role == Jobseeker && b.profile.Some? ==>
      var p := b.profile.value;
      f.0 == SeekerFields(p.title, None, p.skills, p.experience, p.educationLevel, None, p.linkedinProfile)
    ensures role == Employer && b.company.Some? ==>
      var c := b.company.value;
      f.1 == EmployerFields(c.companyName, c.industry, c.companySize, c.companyWebsite,
                            c.companyDescription, None)
  {
    if role == Jobseeker && b.profile.Some? then
      var p := b.profile.value;
      (SeekerFields(p.title, None, p.skills, p.experience, p.educationLevel, None, p.linkedinProfile),
       NoEmployerFields)
    else if role == Employer && b.company.Some? then
      var c := b.company.value;
      (NoSeekerFields,
       EmployerFields(c.companyName, c.industry, c.companySize, c.companyWebsite, c.companyDescription, None))
    else (NoSeekerFields, NoEmployerFields)
  }

  /** The document a registration that passed its checks stores. */
  function RegisteredUser(b: RegisterBody, now: int): (u: User)
    requires CheckRegistration(b).None?
    ensures WellFormed(u) && !u.verified && u.createdAt == now
    ensures u.email == b.email.value && u.firstName == b.firstName.value && u.lastName == b.lastName.value
    ensures u.password == Digest(b.password.value)
    ensures RoleName(u.role) == RequestedRole(b).value
    ensures (u.seeker, u.employer) == RegistrationFields(u.role, b)
  {
    var role := ParseRole(RequestedRole(b).value).value;
    var f := RegistrationFields(role, b);
    NewUser(b.firstName, b.lastName, b.email, Digest(b.password.value), RequestedRole(b),
            f.0, f.1, now).value
  }

  /** `POST /register`. */
  method Register(db: Database, b: RegisterBody, now: int) returns (r: Reply<Session>)
    requires db.Valid()
    modifies db
    ensures db.Valid()
    ensures CheckRegistration(b).Some? ==> r == Fail(400, CheckRegistration(b).value) && unchanged(db)
    ensures CheckRegistration(b).None? && EmailTaken(old(db.users), b.email.value) ==>
      r == Fail(400, UserExists) && unchanged(db)
    ensures CheckRegistration(b).None? && !EmailTaken(old(db.users), b.email.value) ==>
      var id := old(db.nextId);
      && id !in old(db.users)
      && db.users == old(db.users)[id := RegisteredUser(b, now)]
      && r == Ok(201, SessionFor(Registered, id, db.users[id]))
      && db.jobs == old(db.jobs) && db.applications == old(db.applications)
      && db.companies == old(db.companies)
  {
    var check := CheckRegistration(b);
    if check.Some? {
      return Fail(400, check.value);
    }
    if EmailTaken(db.users, b.email.value) {
      return Fail(400, UserExists);
    }
    var u := RegisteredUser(b, now);
    var id := db.NewId();
    db.users := db.users[id := u];
    r := Ok(201, SessionFor(Registered, id, u));
  }

  /** The user with this e-mail address, if any. */
  function FindByEmail(users: map<Id, User>, email: string): (r: Option<Id>)
    requires UniqueEmails(users)
    ensures r.Some? <==> EmailTaken(users, email)
    ensures r.Some? ==> r.value in users && users[r.value].email == email
  {
    if EmailTaken(users, email) then
      Some(var id :| id in users && users[id].email == email; id)
    else None
  }

  /** `POST /login`: an unknown address, then a role other than the stored one (before the
      password is looked at), then a wrong password. A body without a password gets past the
      role check only to make the password comparison throw (500). */
  function Login(users: map<Id, User>, email: string, password: Option<string>, role: string): (r: Reply<Session>)
    requires UniqueEmails(users)
    ensures !EmailTaken(users, email) ==> r == Fail(400, InvalidCredentials)
    ensures forall id | id in users && users[id].email == email ::
      && (RoleName(users[id].role) != role ==> r == Fail(400, WrongAccountType(users[id].role)))
      && (RoleName(users[id].role) == role && password.None? ==> r == Fail(500, ServerError))
      && (RoleName(users[id].role) == role && password.Some? && !PasswordMatches(password.value, users[id].password) ==>
            r == Fail(400, InvalidCredentials))
      && (RoleName(users[id].role) == role && password.Some? && PasswordMatches(password.value, users[id].password) ==>
            r == Ok(200, SessionFor(LoggedIn, id, users[id])))
  {
    match FindByEmail(users, email)
    case None => Fail(400, InvalidCredentials)
    case Some(id) =>
      var u := users[id];
      if RoleName(u.role) != role then Fail(400, WrongAccountType(u.role))
      else if password.None? then Fail(500, ServerError)
      else if !PasswordMatches(password.value, u.password) then Fail(400, InvalidCredentials)
      else Ok(200, SessionFor(LoggedIn, id, u))
  }

  /** A login with the wrong account type is refused whatever the password, present or not,
      and the message names the role the account has. */
  lemma LoginRoleCheckedBeforePassword(users: map<Id, User>, id: Id, p1: Option<string>, p2: Option<string>, role: string)
    requires UniqueEmails(users)
    requires id in users && RoleName(users[id].role) != role
    ensures Login(users, users[id].email, p1, role) == Login(users, users[id].email, p2, role)
              == Fail(400, WrongAccountType(users[id].role))
  {
  }

  /** The `GET /profile` reply: the fields of the user's own role. */
  datatype ProfileView =
    | SeekerProfile(id: Id, firstName: string, lastName: string, email: string,
                    title: Option<string>, bio: Option<string>, skills: Option<string>,
                    experience: Option<string>, education: Option<string>,
                    linkedinProfile: Option<string>, contactPhone: Option<string>,
                    resume: Option<string>)
    | EmployerProfile(id: Id, email: string, companyName: Option<string>, industry: Option<string>,
                      companySize: Option<string>, companyWebsite: Option<string>,
                      companyDescription: Option<string>, contactPhone: Option<string>,
                      location: Option<string>)

  /** The profile projection: a job seeker sees the job-seeker fields and an employer the
      company fields; neither sees the password. */
  function ProfileOf(id: Id, u: User): (p: ProfileView)
    ensures p.SeekerProfile? <==> u.role == Jobseeker
    ensures p.id == id && p.email == u.email && p.contactPhone == u.contactPhone
    ensures p.SeekerProfile? ==>
      && p.firstName == u.firstName && p.lastName == u.lastName
      && p.title == u.seeker.title && p.bio == u.seeker.bio && p.skills == u.seeker.skills
      && p.experience == u.seeker.experience && p.education == u.seeker.education
      && p.linkedinProfile == u.seeker.linkedinProfile && p.resume == u.seeker.resume
    ensures p.EmployerProfile? ==>
      && p.companyName == u.employer.companyName && p.industry == u.employer.industry
      && p.companySize == u.employer.companySize && p.companyWebsite == u.employer.companyWebsite
      && p.companyDescription == u.employer.companyDescription && p.location == u.employer.location
  {
    match u.role
    case Jobseeker =>
      SeekerProfile(id, u.firstName, u.lastName, u.email, u.seeker.title, u.seeker.bio,
                    u.seeker.skills, u.seeker.experience, u.seeker.education,
                    u.seeker.linkedinProfile, u.contactPhone, u.seeker.resume)
    case Employer =>
      EmployerProfile(id, u.email, u.employer.companyName, u.employer.industry,
                      u.employer.companySize, u.employer.companyWebsite,
                      u.employer.companyDescription, u.contactPhone, u.employer.location)
  }

  /** The projection depends on nothing but the role and that role's fields: the other
      role's fields, the password, `verified` and `createdAt` never show through. */
  lemma ProfileIgnoresOtherRole(id: Id, u: User, v: User)
    requires u.role == v.role && u.email == v.email && u.contactPhone == v.contactPhone
    requires u.role == Jobseeker ==> u.firstName == v.firstName && u.lastName == v.lastName && u.seeker == v.seeker
    requires u.role == Employer ==> u.employer == v.employer
    ensures ProfileOf(id, u) == ProfileOf(id, v)
  {
  }

  /** `GET /profile`. */
  function GetProfile(users: map<Id, User>, uid: Id): (r: Reply<ProfileView>)
    ensures uid !in users <==> r == Fail(404, UserNotFound)
    ensures uid in users ==> r == Ok(200, ProfileOf(uid, users[uid]))
  {
    if uid in users then Ok(200, ProfileOf(uid, users[uid])) else Fail(404, UserNotFound)
  }

  /** The body of `PUT /profile`; `email`, `password` and `role` may be sent but are never
      read. */
  datatype ProfileUpdate = ProfileUpdate(
    firstName: Option<string>, lastName: Option<string>, title: Option<string>,
    bio: Option<string>, skills: Option<string>, experience: Option<string>,
    education: Option<string>, linkedinProfile: Option<string>, contactPhone: Option<string>,
    companyName: Option<string>, industry: Option<string>, companySize: Option<string>,
    companyWebsite: Option<string>, companyDescription: Option<string>, location: Option<string>,
    email: Option<string>, password: Option<string>, role: Option<string>)

  /** The profile update: for the caller's role only, each whitelisted field takes the
      supplied value when it is truthy. */
  function ApplyProfileUpdate(u: User, b: ProfileUpdate): (v: User)
    ensures v.email == u.email && v.password == u.password && v.role == u.role
    ensures v.createdAt == u.createdAt && v.verified == u.verified
    ensures u.role == Jobseeker ==> v.employer == u.employer
    ensures u.role == Employer ==> v.seeker == u.seeker && v.firstName == u.firstName && v.lastName == u.lastName
    ensures WellFormed(u) ==> WellFormed(v)
    // a job seeker's whitelisted fields take a truthy supplied value and otherwise keep theirs
    ensures u.role == Jobseeker ==>
      && (Truthy(b.firstName) ==> v.firstName == b.firstName.value)
      && (!Truthy(b.firstName) ==> v.firstName == u.firstName)
      && (Truthy(b.lastName) ==> v.lastName == b.lastName.value)
      && (!Truthy(b.lastName) ==> v.lastName == u.lastName)
      && (Truthy(b.title) ==> v.seeker.title == b.title)
      && (!Truthy(b.title) ==> v.seeker.title == u.seeker.title)
      && (Truthy(b.bio) ==> v.seeker.bio == b.bio)
      && (!Truthy(b.bio) ==> v.seeker.bio == u.seeker.bio)
      && (Truthy(b.skills) ==> v.seeker.skills == b.skills)
      && (!Truthy(b.skills) ==> v.seeker.skills == u.seeker.skills)
      && (Truthy(b.experience) ==> v.seeker.experience == b.experience)
      && (!Truthy(b.experience) ==> v.seeker.experience == u.seeker.experience)
      && (Truthy(b.education) ==> v.seeker.education == b.education)
      && (!Truthy(b.education) ==> v.seeker.education == u.seeker.education)
      && (Truthy(b.linkedinProfile) ==> v.seeker.linkedinProfile == b.linkedinProfile)
      && (!Truthy(b.linkedinProfile) ==> v.seeker.linkedinProfile == u.seeker.linkedinProfile)
      && v.seeker.resume == u.seeker.resume
    // an employer's whitelisted fields likewise
    ensures u.role == Employer ==>
      && (Truthy(b.companyName) ==> v.employer.companyName == b.companyName)
      && (!Truthy(b.companyName) ==> v.employer.companyName == u.employer.companyName)
      && (Truthy(b.industry) ==> v.employer.industry == b.industry)
      && (!Truthy(b.industry) ==> v.employer.industry == u.employer.industry)
      && (Truthy(b.companySize) ==> v.employer.companySize == b.companySize)
      && (!Truthy(b.companySize) ==> v.employer.companySize == u.employer.companySize)
      && (Truthy(b.companyWebsite) ==> v.employer.companyWebsite == b.companyWebsite)
      && (!Truthy(b.companyWebsite) ==> v.employer.companyWebsite == u.employer.companyWebsite)
      && (Truthy(b.companyDescription) ==> v.employer.companyDescription == b.companyDescription)
      && (!Truthy(b.companyDescription) ==> v.employer.companyDescription == u.employer.companyDescription)
      && (Truthy(b.location) ==> v.employer.location == b.location)
      && (!Truthy(b.location) ==> v.employer.location == u.employer.location)
    // both roles may change the contact phone
    ensures Truthy(b.contactPhone) ==> v.contactPhone == b.contactPhone
    ensures !Truthy(b.contactPhone) ==> v.contactPhone == u.contactPhone
  {
    match u.role
    case Jobseeker =>
      u.(firstName := OverwriteText(u.firstName, b.firstName),
         lastName := OverwriteText(u.lastName, b.lastName),
         seeker := u.seeker.(title := Overwrite(u.seeker.title, b.title),
                             bio := Overwrite(u.seeker.bio, b.bio),
                             skills := Overwrite(u.seeker.skills, b.skills),
                             experience := Overwrite(u.seeker.experience, b.experience),
                             education := Overwrite(u.seeker.education, b.education),
                             linkedinProfile := Overwrite(u.seeker.linkedinProfile, b.linkedinProfile)),
         contactPhone := Overwrite(u.contactPhone, b.contactPhone))
    case Employer =>
      u.(employer := u.employer.(companyName := Overwrite(u.employer.companyName, b.companyName),
                                 industry := Overwrite(u.employer.industry, b.industry),
                                 companySize := Overwrite(u.employer.companySize, b.companySize),
                                 companyWebsite := Overwrite(u.employer.companyWebsite, b.companyWebsite),
                                 companyDescription := Overwrite(u.employer.companyDescription, b.companyDescription),
                                 location := Overwrite(u.employer.location, b.location)),
         contactPhone := Overwrite(u.contactPhone, b.contactPhone))
  }

  /** An update in which no field is truthy changes nothing: an empty string never clears
      a field. */
  lemma ProfileUpdateFalsyIsNoop(u: User, b: ProfileUpdate)
    requires !Truthy(b.firstName) && !Truthy(b.lastName) && !Truthy(b.title) && !Truthy(b.bio)
    requires !Truthy(b.skills) && !Truthy(b.experience) && !Truthy(b.education)
    requires !Truthy(b.linkedinProfile) && !Truthy(b.contactPhone) && !Truthy(b.companyName)
    requires !Truthy(b.industry) && !Truthy(b.companySize) && !Truthy(b.companyWebsite)
    requires !Truthy(b.companyDescription) && !Truthy(b.location)
    ensures ApplyProfileUpdate(u, b) == u
  {
  }

  /** Sending the same update twice has the effect of sending it once. */
  lemma ProfileUpdateIdempotent(u: User, b: ProfileUpdate)
    ensures ApplyProfileUpdate(ApplyProfileUpdate(u, b), b) == ApplyProfileUpdate(u, b)
  {
  }

  /** `PUT /profile`. */
  method UpdateProfile(db: Database, uid: Id, b: ProfileUpdate) returns (r: Reply<string>)
    requires db.Valid()
    modifies db
    ensures db.Valid()
    ensures uid !in old(db.users) ==> r == Fail(404, UserNotFound) && unchanged(db)
    ensures uid in old(db.users) ==>
      && r == Ok(200, ProfileUpdated)
      && db.users == old(db.users)[uid := ApplyProfileUpdate(old(db.users[uid]), b)]
      && db.jobs == old(db.jobs) && db.applications == old(db.applications)
      && db.companies == old(db.companies) && db.nextId == old(db.nextId)
  {
    if uid !in db.users {
      return Fail(404, UserNotFound);
    }
    db.users := db.users[uid := ApplyProfileUpdate(db.users[uid], b)];
    r := Ok(200, ProfileUpdated);
  }

  /** One entry of `GET /companies`: an employer account's company fields. */
  datatype CompanyCard = CompanyCard(
    id: Id, companyName: Option<string>, industry: Option<string>, companySize: Option<string>,
    companyWebsite: Option<string>, companyDescription: Option<string>, location: Option<string>)

  /** Role employer, with a company name that exists and is not empty. */
  predicate ListsCompany(u: User) {
    u.role == Employer && Truthy(u.employer.companyName)
  }

  function CardOf(id: Id, u: User): CompanyCard {
    CompanyCard(id, u.employer.companyName, u.employer.industry, u.employer.companySize,
                u.employer.companyWebsite, u.employer.companyDescription, u.employer.location)
  }

  /** The identifiers below `n` of the users that list a company, in increasing order: the
      documents `GET /companies` finds, in store order. */
  function ListedIds(users: map<Id, User>, n: nat): (ids: seq<Id>)
    ensures forall id :: id in ids <==> id in users && id < n && ListsCompany(users[id])
    ensures forall i, j :: 0 <= i < j < |ids| ==> ids[i] < ids[j]
  {
    if n == 0 then []
    else if n - 1 in users && ListsCompany(users[n - 1]) then
      var ids := ListedIds(users, n - 1);
      assert forall i :: 0 <= i < |ids| ==> ids[i] < n - 1 by {
        forall i | 0 <= i < |ids| ensures ids[i] < n - 1 { assert ids[i] in ids; }
      }
      ids + [n - 1]
    else ListedIds(users, n - 1)
  }

  /** `GET /companies` over the users with identifiers below `n`: exactly the employers with
      a company name, in store order, each projected to its company fields. */
  function EmployerCompanies(users: map<Id, User>, n: nat): (cards: seq<CompanyCard>)
    ensures forall i :: 0 <= i < |cards| ==>
      cards[i].id in users && ListsCompany(users[cards[i].id]) && cards[i] == CardOf(cards[i].id, users[cards[i].id])
    ensures forall id :: id in users && id < n && ListsCompany(users[id]) ==>
      exists i :: 0 <= i < |cards| && cards[i].id == id
    ensures forall i :: 0 <= i < |cards| ==> cards[i].id < n
    ensures forall i, j :: 0 <= i < j < |cards| ==> cards[i].id < cards[j].id
  {
    var ids := ListedIds(users, n);
    var cards := seq(|ids|, i requires 0 <= i < |ids| => CardOf(ids[i], users[ids[i]]));
    assert forall i :: 0 <= i < |cards| ==> cards[i].id == ids[i];
    assert forall id :: id in users && id < n && ListsCompany(users[id]) ==>
      exists i :: 0 <= i < |cards| && cards[i].id == id by {
      forall id | id in users && id < n && ListsCompany(users[id])
        ensures exists i :: 0 <= i < |cards| && cards[i].id == id
      {
        var i :| 0 <= i < |ids| && ids[i] == id;
        assert cards[i].id == id;
      }
    }
    cards
  }
}
