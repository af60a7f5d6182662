/**
 * The user document (server/models/Users.js): one record type for both job
 * seekers and employers, a role enumeration, required fields, defaults, and a
 * unique e-mail address.
 */
module UserModel {
  import opened Wrappers
  import opened Text
  import opened Ids

  datatype Role = Jobseeker | Employer

  /** The role as it is stored and sent: "jobseeker" or "employer". */
  function RoleName(r: Role): string
  {
    match r
    case Jobseeker => "jobseeker"
    case Employer => "employer"
  }

  /** The schema's `enum`: a string is a role exactly when it names one. */
  function ParseRole(s: string): (r: Option<Role>)
    ensures forall role: Role :: r == Some(role) <==> s == RoleName(role)
  {
    if s == "jobseeker" then Some(Jobseeker)
    else if s == "employer" then Some(Employer)
    else None
  }

  /** A stored password: the one-way digest of the plain text (bcrypt with a salt). The
      model keeps only which plain text it was made from; the plain text itself is never
      stored in a user document, whose password field has this type. */
  datatype Digest = Digest(source: string)

  /** `bcrypt.compare(plain, digest)`. */
  predicate PasswordMatches(plain: string, d: Digest) {
    d == Digest(plain)
  }

  /** The job-seeker fields of a user document. */
  datatype SeekerFields = SeekerFields(
    title: Option<string>, bio: Option<string>, skills: Option<string>,
    experience: Option<string>, education: Option<string>, resume: Option<string>,
    linkedinProfile: Option<string>)

  /** The employer fields of a user document. */
  datatype EmployerFields = EmployerFields(
    companyName: Option<string>, industry: Option<string>, companySize: Option<string>,
    companyWebsite: Option<string>, companyDescription: Option<string>,
    location: Option<string>)

  const NoSeekerFields := SeekerFields(None, None, None, None, None, None, None)
  const NoEmployerFields := EmployerFields(None, None, None, None, None, None)

  /** A stored user. Both groups of optional fields are present on every document,
      whatever the role; `contactPhone` belongs to both roles. */
  datatype User = User(
    firstName: string, lastName: string, email: string, password: Digest, role: Role,
    createdAt: int, verified: bool,
    seeker: SeekerFields, employer: EmployerFields, contactPhone: Option<string>)

  /** The schema's `required` fields hold non-empty strings (a required string rejects ""). */
  predicate WellFormed(u: User) {
    u.firstName != "" && u.lastName != "" && u.email != ""
  }

  /** The unique index on `email`. */
  ghost predicate UniqueEmails(users: map<Id, User>) {
    forall a, b :: a in users && b in users && users[a].email == users[b].email ==> a == b
  }

  ghost predicate UsersValid(users: map<Id, User>) {
    UniqueEmails(users) && forall id :: id in users ==> WellFormed(users[id])
  }

  /** `new Users(data)` followed by validation: the document is refused unless the required
      fields are present and non-empty and the role is one of the enumeration; `createdAt`
      defaults to the creation time and `verified` to false. */
  function NewUser(firstName: Option<string>, lastName: Option<string>, email: Option<string>,
                   password: Digest, role: Option<string>,
                   seeker: SeekerFields, employer: EmployerFields, now: int): (r: Option<User>)
    ensures r.Some? <==>
      Truthy(firstName) && Truthy(lastName) && Truthy(email) && role.Some? && ParseRole(role.value).Some?
    ensures r.Some? ==> WellFormed(r.value) && RoleName(r.value.role) == role.value
    ensures r.Some? ==> r.value.createdAt == now && !r.value.verified
    ensures r.Some? ==> r.value.firstName == firstName.value && r.value.lastName == lastName.value
                        && r.value.email == email.value && r.value.password == password
    ensures r.Some? ==> r.value.seeker == seeker && r.value.employer == employer && r.value.contactPhone == None
  {
    if !(Truthy(firstName) && Truthy(lastName) && Truthy(email) && role.Some?) then None
    else match ParseRole(role.value)
      case None => None
      case Some(rl) =>
        Some(User(firstName.value, lastName.value, email.value, password, rl, now, false,
                  seeker, employer, None))
  }

  /** Whether some stored user has this e-mail address (`Users.findOne({ email })`). */
  predicate EmailTaken(users: map<Id, User>, email: string) {
    exists id :: id in users && users[id].email == email
  }

  /** Adding a user whose e-mail address is not taken keeps the addresses unique. */
  lemma AddKeepsEmailsUnique(users: map<Id, User>, id: Id, u: User)
    requires UniqueEmails(users)
    requires id !in users && !EmailTaken(users, u.email)
    ensures UniqueEmails(users[id := u])
  {
  }
}
