# JobPortal, modelled in Dafny

This project models JobPortal, a job board. Its Express/Mongoose server keeps four
collections: users, jobs, applications and companies. Its React client has sign-up and
sign-in forms, job and company directories and a profile screen.

The server side is modelled as follows:

- `Store.Database` is a class with one map per collection and an identifier counter.
- Every route handler that writes to the store is a method that `modifies` the database.
  These are register, update profile, post a job, apply, change an application's status,
  withdraw, and create, update or delete a company. Each one states its reply and the whole
  new state of every collection, for every branch the handler has.
- Every handler that only reads is a function of the collections.
- Each method keeps the store's invariant: one account per e-mail address, one application
  per job and job seeker, and one company per employer.
- Listings are proved to be permutations of the stored documents, sorted as the handler's
  `sort` asks.

The client side is modelled as follows:

- The forms with state (sign-up, sign-in and the three parts of the profile screen) are
  classes whose handlers are methods over the component's state.
- The filters, labels and text helpers of the directory pages are functions.
- Lemmas connect the two sides. The sign-up form's first step accepts only bodies the
  server's registration check accepts. An employer who signs in through the role-less route
  is always refused. The profile screen's skills field round-trips through `join(', ')` and
  `split(',')`.

Module layout:

| module | models |
|---|---|
| `Ids`, `Wrappers`, `Text`, `Seqs`, `Display` | identifiers, optional JSON fields, the JavaScript string operations used (`trim`, `toLowerCase`, `includes`, `split`, `join`, `startsWith`, the e-mail regular expression, number formatting), filtering, de-duplication, sorting, text shortening |
| `UserModel`, `JobModel`, `ApplicationModel`, `CompanyModel` | the four Mongoose schemas (server/models) |
| `Store` | the collections, the requester resolved by the authentication middleware, replies |
| `UserRoutes`, `JobRoutes`, `ApplicationRoutes`, `CompanyRoutes` | server/routes/*.js |
| `FormChecks`, `SignUp`, `SignIn` | client SignUp.jsx and SignIn.jsx |
| `JobsView`, `CompaniesView`, `ProfileScreen` | client Jobs.jsx, Companies.jsx, Profile.jsx |

Time (`now`) is a parameter in milliseconds. The requester is a parameter. It stands for the
user the authentication middleware resolves from the JWT. The replies the client receives
from the network are parameters too.

## Model

| member | source | states |
|---|---|---|
| UserModel.ParseRole | server/models/Users.js:11 | a role string is accepted exactly when it is the name of one of the two enumerated roles |
| UserModel.NewUser | server/models/Users.js:5-32 | a user document validates iff first name, last name and e-mail are non-empty and the role is in the enumeration; a valid one keeps the given fields, is unverified and is created now, with no contact phone |
| UserModel.AddKeepsEmailsUnique | server/models/Users.js:9 | adding a user whose e-mail no stored user has keeps e-mail addresses unique |
| ApplicationModel.ParseStatus | server/models/Applications.js:14-18 | a status string is accepted exactly when it is one of the four enumerated statuses |
| ApplicationModel.NewApplication | server/models/Applications.js:3-30 | an application validates iff the resume is non-empty; a valid one is pending, applied now, for the given job and job seeker |
| ApplicationModel.AddKeepsOnePerPair | server/routes/jobs.js:83-90 | adding an application for a job/job-seeker pair that has none keeps at most one application per pair |
| JobModel.NewJob | server/models/Jobs.js:4-14 | a job validates iff title, company, location and description are non-empty; a valid one is created now by the given employer with the given expiry |
| CompanyModel.NewCompany | server/models/Companies.js:4-12 | a company validates iff its name is non-empty; a valid one belongs to the given employer and is created now |
| CompanyModel.AddKeepsOnePerEmployer | server/routes/companies.js:18-21 | adding a company for an employer that owns none keeps at most one company per employer |
| Store.DocumentsBelow | server/routes/jobs.js:127 | a find without sort returns exactly the stored documents, in store order |
| UserRoutes.PublicView | server/routes/users.js:72-82 | the user object in a session reply carries id, names, e-mail and role, and never the password |
| UserRoutes.CheckRegistration | server/routes/users.js:13-24 | "All fields are required" iff a required field or the role (`userType`, else `role`) is missing or empty; else "Invalid role" iff the role is not one of the two; a body that passes is always accepted by the user schema |
| UserRoutes.RegistrationFields | server/routes/users.js:45-60 | job-seeker fields (with `educationLevel` stored as `education`) are copied only for a job seeker sending a profile, company fields only for an employer sending a company; nothing else is copied |
| UserRoutes.RegisteredUser | server/routes/users.js:37-63 | the stored user has the body's names, e-mail, requested role and hashed password, is unverified and created now |
| UserRoutes.Register | server/routes/users.js:10-87 | 400 with the check's message and no change; 400 "User already exists" and no change when the e-mail is taken; else exactly one new user under a fresh id, reply 201 with that user's session, other collections unchanged, e-mails stay unique |
| UserRoutes.FindByEmail | server/routes/users.js:95-98 | finds a user iff one has that e-mail, and the one found has it |
| UserRoutes.Login | server/routes/users.js:90-133 | unknown e-mail: "Invalid credentials"; a role other than the stored one: the wrong-account-type message naming the stored role; no password: 500 "Server error", as the password comparison throws; wrong password: "Invalid credentials"; otherwise 200 with that user's session |
| UserRoutes.LoginRoleCheckedBeforePassword | server/routes/users.js:101-109 | with the wrong role the reply does not depend on the password, present or missing |
| UserRoutes.ProfileOf | server/routes/users.js:161-189 | a job seeker's profile shows exactly the job-seeker fields and an employer's exactly the company fields, with id, e-mail and contact phone, never the password |
| UserRoutes.ProfileIgnoresOtherRole | server/routes/users.js:161-189 | the profile depends on nothing but the role and that role's fields |
| UserRoutes.GetProfile | server/routes/users.js:152-196 | 404 "User not found" iff the user does not exist, else 200 with its profile |
| UserRoutes.ApplyProfileUpdate | server/routes/users.js:208-229 | each field the role may change takes the supplied value when it is truthy and keeps its value otherwise (both roles: the contact phone); e-mail, password, role, creation time, verification and resume never change; a job seeker's company fields and an employer's names and job-seeker fields are untouched |
| UserRoutes.ProfileUpdateFalsyIsNoop | server/routes/users.js:208-229 | an update whose every field is missing or empty changes nothing |
| UserRoutes.ProfileUpdateIdempotent | server/routes/users.js:208-229 | applying the same update twice equals applying it once |
| UserRoutes.UpdateProfile | server/routes/users.js:199-238 | 404 and no change for an unknown user; else only that user changes, by the update rule, with reply "Profile updated successfully" |
| UserRoutes.ListedIds | server/routes/users.js:244-255 | exactly the employers whose company name exists and is non-empty, in store order |
| UserRoutes.EmployerCompanies | server/routes/users.js:241-273 | one card per listed employer, each the employer's company fields, in store order, and no others |
| JobRoutes.ExpiryOf | server/routes/jobs.js:26 | a supplied non-zero expiry is kept; otherwise the posting expires 30 days after now |
| JobRoutes.CreateJob | server/routes/jobs.js:9-39 | 403 and no change for a non-employer; 500 and no change when a required job field is missing; else one new job owned by the requester, created now, other collections unchanged |
| JobRoutes.NewerJobIsPreorder | server/routes/jobs.js:44 | "newer first" is a total preorder, so the sort is well defined |
| JobRoutes.ListJobs | server/routes/jobs.js:42-50 | a permutation of the stored jobs, newest first |
| JobRoutes.GetJob | server/routes/jobs.js:53-66 | 404 "Job not found" iff the job does not exist, else 200 with it |
| JobRoutes.Apply | server/routes/jobs.js:69-111 | 403 for a non-job-seeker, 404 for a missing job, 400 for a second application, 500 without a resume, all with no change; else one new pending application, and it is the only one for that job and job seeker |
| JobRoutes.JobApplications | server/routes/jobs.js:114-135 | 404 iff the job is missing; 403 iff the requester is not the employer who posted it; else exactly that job's applications, in store order |
| ApplicationRoutes.NewerApplicationIsPreorder | server/routes/applications.js:18 | "applied later first" is a total preorder |
| ApplicationRoutes.NewestFirst | server/routes/applications.js:16-18 | exactly the stored applications that satisfy the query, each once, most recent first |
| ApplicationRoutes.SeekerApplications | server/routes/applications.js:9-25 | 403 iff the requester is not a job seeker; else exactly their own applications, each once, most recent first |
| ApplicationRoutes.JobsOf | server/routes/applications.js:36 | exactly the jobs the employer posted |
| ApplicationRoutes.EmployerApplications | server/routes/applications.js:28-50 | 403 iff the requester is not an employer; else exactly the applications to their jobs, each once, most recent first |
| ApplicationRoutes.GetApplication | server/routes/applications.js:53-83 | 404 iff the application is missing, 404 iff its job is missing, otherwise the application itself or 403 |
| ApplicationRoutes.GetApplicationAccess | server/routes/applications.js:70-76 | an existing application is shown iff the requester is the job seeker who applied or the employer who posted the job; otherwise the reply is 403 |
| ApplicationRoutes.GetApplicationAsWritten | server/routes/applications.js:53-83 | agrees with the intended handler for employers, and never shows an application to a job seeker |
| ApplicationRoutes.OwnApplicationRefusedAsWritten | server/routes/applications.js:70 | as written, the job seeker who applied is refused their own application, which the intended handler shows |
| ApplicationRoutes.UpdateStatus | server/routes/applications.js:86-127 | 403, 400, 404, 404, 403 in the handler's order, each with no change; succeeds iff all checks pass, and then only that application's status changes, to the requested one |
| ApplicationRoutes.Withdraw | server/routes/applications.js:130-155 | 403 for a non-job-seeker, 404 for a missing application, 403 for someone else's, each with no change; else exactly that application is removed |
| CompanyRoutes.CreateCompany | server/routes/companies.js:8-42 | 403 for a non-employer, 400 when the employer already owns a company, 500 without a name, each with no change; else one new company owned by the requester, and still one per employer |
| CompanyRoutes.ByNameIsPreorder | server/routes/companies.js:47 | ordering by name is a total preorder |
| CompanyRoutes.ListCompanies | server/routes/companies.js:45-53 | a permutation of the stored companies, in ascending name order |
| CompanyRoutes.GetCompany | server/routes/companies.js:56-69 | 404 "Company not found" iff the company does not exist, else 200 with it |
| CompanyRoutes.CompanyOfEmployer | server/routes/companies.js:72-85 | 404 iff the employer owns no company; else a company that employer owns |
| CompanyRoutes.CompanyOfEmployerUnique | server/routes/companies.js:74-78 | with one company per employer, the reply is exactly the employer's company |
| CompanyRoutes.ApplyCompanyUpdate | server/routes/companies.js:104-108 | each non-empty supplied field replaces the stored one; owner and creation time never change; a valid company stays valid |
| CompanyRoutes.CompanyUpdateKeepsFalsyFields | server/routes/companies.js:104-108 | a missing or empty supplied field leaves the stored one as it was |
| CompanyRoutes.CompanyUpdateIdempotent | server/routes/companies.js:104-108 | applying the same update twice equals applying it once |
| CompanyRoutes.UpdateCompany | server/routes/companies.js:88-120 | 404 for a missing company and 403 for anyone but its owner, each with no change; else only that company changes, by the update rule |
| CompanyRoutes.DeleteCompany | server/routes/companies.js:123-143 | 404 for a missing company and 403 for anyone but its owner, each with no change; else exactly that company is removed |
| FormChecks.ChangedValue | client/src/components/SignIn.jsx:50 | a checkbox change stores its checked state, any other input its text |
| FormChecks.EmailError | client/src/components/SignUp.jsx:128-132 | "Email is required" iff the address is blank; "Email is invalid" iff it is not blank and does not match the pattern; no error iff it matches |
| Text.EmailPatternShape | client/src/components/SignIn.jsx:59 | an address the pattern accepts has at least five characters, an '@' and a '.', and is not blank |
| Text.BlankIsNoEmail | client/src/components/SignIn.jsx:57-61 | a blank address never matches the pattern, so the two e-mail messages exclude each other |
| SignUp.PasswordError | client/src/components/SignUp.jsx:134-138 | "Password is required" iff empty, the length message iff shorter than 8, no error iff at least 8 characters |
| SignUp.ConfirmError | client/src/components/SignUp.jsx:140-144 | "Please confirm your password" iff empty, "Passwords do not match" iff present and different, no error iff equal |
| SignUp.BlankError | client/src/components/SignUp.jsx:125-126 | an error, with the given message, iff the value is blank |
| SignUp.AccountError | client/src/components/SignUp.jsx:123-144 | errors are reported only for the five account fields |
| SignUp.ProfileError | client/src/components/SignUp.jsx:145-154 | job seekers are checked on title and skills, employers on company name, industry and size (size only for emptiness) |
| SignUp.StepError | client/src/components/SignUp.jsx:120-159 | only steps 0 and 1 can fail |
| SignUp.Record | client/src/components/SignUp.jsx:121-155 | recording a field's error adds exactly that entry and keeps the rest |
| SignUp.AccountErrors | client/src/components/SignUp.jsx:123-144 | the error map holds exactly the account fields in error, each with its message |
| SignUp.ProfileErrors | client/src/components/SignUp.jsx:145-154 | the error map holds exactly the profile fields in error, each with its message |
| SignUp.FormData | client/src/components/SignUp.jsx:181-185 | the account fields and the user type, with the job-seeker profile for a job seeker and otherwise the company, never both |
| SignUp.ToRegisterBody | client/src/components/SignUp.jsx:181-189 | the registration body carries the form's user type and no separate role, and a profile or a company exactly when the form has one |
| SignUp.AccountStepPassesServerChecks | server/routes/users.js:17-24 | a form whose account step passes, with either user type, is never refused by the server's field and role checks |
| SignUp.SignUpDropsContactPhone | server/routes/users.js:53-60 | an employer registered from the sign-up form has no contact phone and no company location stored |
| SignUp.SignUpForm.constructor | client/src/components/SignUp.jsx:38-83 | the form starts at step 0 with empty sections and no errors; the user type is the route's role, or job seeker |
| SignUp.SignUpForm.ChooseUserType | client/src/components/SignUp.jsx:306 | the user type becomes the chosen one |
| SignUp.SignUpForm.HandleChange | client/src/components/SignUp.jsx:85-111 | clears the field's error; an account field goes to the account section, any other to the section of the current user type, and to none when that is neither |
| SignUp.SignUpForm.HandleFileChange | client/src/components/SignUp.jsx:113-118 | the resume becomes the chosen file, or `undefined` when the dialog is closed without one, and nothing else changes |
| SignUp.SignUpForm.ValidateStep | client/src/components/SignUp.jsx:120-159 | the errors shown are exactly those of the current step, and it passes iff there are none |
| SignUp.SignUpForm.HandleNext | client/src/components/SignUp.jsx:161-165 | advances one step iff the current step passes, and shows that step's errors |
| SignUp.SignUpForm.HandleBack | client/src/components/SignUp.jsx:167-169 | goes back one step |
| SignUp.SignUpForm.Submit | client/src/components/SignUp.jsx:173-197 | sends a body iff the current step passes, and that body is the combined form data |
| SignIn.FieldError | client/src/components/SignIn.jsx:54-69 | only e-mail and password can be in error; e-mail as the shared e-mail rule, password iff empty |
| SignIn.FormErrors | client/src/components/SignIn.jsx:55-65 | the error object holds exactly the fields in error, each with its message, and is empty iff the e-mail matches the pattern and the password is non-empty |
| SignIn.LoginPayload | client/src/components/SignIn.jsx:82-85 | the form's e-mail and password, "remember me" iff its box is ticked, and the route's role, or job seeker without one |
| SignIn.EmployerNeedsEmployerRoute | client/src/components/SignIn.jsx:84 | an employer signing in through the role-less route is refused with the wrong-account-type message whatever the password |
| SignIn.SignInForm.constructor | client/src/components/SignIn.jsx:28-37 | the form starts empty, unchecked and without errors |
| SignIn.SignInForm.HandleChange | client/src/components/SignIn.jsx:39-52 | clears the field's error and stores the new value of that field alone |
| SignIn.SignInForm.ValidateForm | client/src/components/SignIn.jsx:54-69 | the errors are exactly the field errors, and it passes iff the e-mail matches and the password is non-empty |
| SignIn.SignInForm.Submit | client/src/components/SignIn.jsx:73-99 | records exactly the field errors; sends a login body iff the form passes, and that body is the login payload |
| Display.Preview | client/src/components/Jobs.jsx:203-207 | a text within the limit is kept; a longer one becomes its first `limit` characters followed by "..." |
| Display.DescriptionText | client/src/components/Companies.jsx:93-97 | an empty description shows "No description available"; any other its preview |
| Display.WebsiteHref | client/src/components/Companies.jsx:103-107 | the link always starts with "http"; an address starting with "http" is kept, any other gets "https://" in front |
| Display.WebsiteHrefIdempotent | client/src/components/Profile.jsx:250-252 | fixing a link twice equals fixing it once |
| JobsView.DaysSince | client/src/components/Jobs.jsx:83 | the whole number of days elapsed, rounded down |
| JobsView.FilterJobs | client/src/components/Jobs.jsx:36-68 | exactly the jobs matching search, location, salary and date, in their original order |
| JobsView.NoFiltersShowAll | client/src/components/Jobs.jsx:36-68 | with every filter unset all jobs are shown |
| JobsView.SearchIgnoresCase | client/src/components/Jobs.jsx:37-39 | the search result does not depend on the case of the term |
| JobsView.DateWindowsNested | client/src/components/Jobs.jsx:46-65 | a job posted today is within the week, and one within the week is within the month |
| JobsView.Locations | client/src/components/Jobs.jsx:71 | each non-empty job location exactly once |
| JobsView.DaysAgo | client/src/components/Jobs.jsx:80-88 | "Today" iff 0 days, "Yesterday" iff 1, otherwise the number of days followed by " days ago" |
| JobsView.DaysAgoInjective | client/src/components/Jobs.jsx:80-88 | different day counts give different labels |
| JobsView.IntToStringInjective | client/src/components/Jobs.jsx:87 | formatting a whole number loses nothing |
| JobsView.CardDescription | client/src/components/Jobs.jsx:203-207 | "No description available" when empty, the description up to 200 characters, else its first 200 characters and "..." |
| JobsView.ShownRequirements | client/src/components/Jobs.jsx:211-219 | up to three requirements as they are; more become the first three and "..." |
| CompaniesView.FilterCompanies | client/src/components/Companies.jsx:32-37 | exactly the companies whose name or industry contains the term, ignoring case, and of the chosen industry, in order |
| CompaniesView.NoFiltersShowAllListed | client/src/components/Companies.jsx:32-37 | with no term and no industry the page shows every company the server lists |
| CompaniesView.IndustryFilterExact | client/src/components/Companies.jsx:35 | with an industry chosen, every shown company has exactly that industry and matches the term |
| CompaniesView.Industries | client/src/components/Companies.jsx:40 | each non-empty industry exactly once |
| CompaniesView.LocationText | client/src/components/Companies.jsx:88 | the stored location, or "Location not specified" |
| CompaniesView.SizeText | client/src/components/Companies.jsx:89 | the stored size, or "Size not specified" |
| CompaniesView.CompanyDescription | client/src/components/Companies.jsx:93-97 | the placeholder, the description up to 100 characters, or its first 100 characters and "..." |
| CompaniesView.WebsiteLink | client/src/components/Companies.jsx:103-107 | a link iff a website is stored, and it always starts with "http" |
| ProfileScreen.Pieces | client/src/components/Profile.jsx:51 | one trimmed piece per comma-separated part, none containing a comma |
| ProfileScreen.ParseSkills | client/src/components/Profile.jsx:50-53 | every skill is non-empty, comma-free and trimmed; the skills are the non-empty trimmed pieces, in their order and as often as each occurs |
| ProfileScreen.SkillsRoundTrip | client/src/components/Profile.jsx:110 | a list of trimmed, comma-free, non-empty skills, shown joined with ", " and parsed back, is the same list |
| ProfileScreen.ParseSkillsIdempotent | client/src/components/Profile.jsx:50-53 | showing the parsed skills and parsing them again gives the same skills |
| ProfileScreen.Loaded | client/src/components/Profile.jsx:401-409 | the loaded profile's fields overwrite the edited ones and the other edited ones stay |
| ProfileScreen.EditDefaults | client/src/components/Profile.jsx:412-427 | a truthy profile field is kept; a missing or falsy text field becomes "" and a list field []; the other fields are the profile's, then the edited ones |
| ProfileScreen.EffectsAgree | client/src/components/Profile.jsx:401-427 | entering edit mode gives the same state whether or not the profile was loaded first |
| ProfileScreen.StartEditCopy | client/src/components/Profile.jsx:476-488 | a copy of the profile in which each sidebar field is its truthy value or "" |
| ProfileScreen.SaveBody | client/src/components/Profile.jsx:517-528 | the edited profile's fields and, iff a picture was chosen, the placeholder picture address, and no other key |
| ProfileScreen.ProfilePage.constructor | client/src/components/Profile.jsx:721-727 | the page holds the given profile, not in edit mode |
| ProfileScreen.ProfilePage.HandleEditToggle | client/src/components/Profile.jsx:776-778 | edit mode flips |
| ProfileScreen.ProfilePage.HandleUpdateProfile | client/src/components/Profile.jsx:780-793 | on a reply: success, the page shows the reply and leaves edit mode; on failure: the failure message and nothing changes |
| ProfileScreen.ProfileContent.constructor | client/src/components/Profile.jsx:390-399 | the edit state starts as the default empty fields |
| ProfileScreen.ProfileContent.OnProfile | client/src/components/Profile.jsx:401-409 | a loaded profile is merged over the edit state; none leaves it unchanged |
| ProfileScreen.ProfileContent.OnEditMode | client/src/components/Profile.jsx:412-427 | entering edit mode with a profile fills the defaults; otherwise nothing changes |
| ProfileScreen.ProfileContent.HandleInputChange | client/src/components/Profile.jsx:429-434 | only the named field changes, to the new value |
| ProfileScreen.ProfileContent.HandleSkillsChange | client/src/components/Profile.jsx:50-53 | the skills field becomes the parsed skills |
| ProfileScreen.ProfileSidebar.constructor | client/src/components/Profile.jsx:468-473 | nothing edited, no preview, no file, not saving, no error |
| ProfileScreen.ProfileSidebar.HandleStartEdit | client/src/components/Profile.jsx:476-488 | the edit copy is made from the page's profile and edit mode flips; nothing else changes |
| ProfileScreen.ProfileSidebar.HandleCancelEdit | client/src/components/Profile.jsx:490-499 | the edit copy, error and chosen file are dropped, the preview only when the profile has no picture, and edit mode flips |
| ProfileScreen.ProfileSidebar.HandleInputChange | client/src/components/Profile.jsx:501-507 | only the named field of the edit copy changes, to the typed text |
| ProfileScreen.ProfileSidebar.HandleProfilePictureChange | client/src/components/Profile.jsx:509-515 | choosing a file records it and shows its preview; no file changes nothing |
| ProfileScreen.ProfileSidebar.HandleSaveProfile | client/src/components/Profile.jsx:517-542 | sends the save body; on success the page shows the reply and leaves edit mode with no error, on failure the failure message is shown; saving ends either way |

## Left out

- Network, I/O and time: `fetch`/axios calls (client/src/services/api.js), `AuthContext`, navigation, `localStorage` and `Date.now()` are not modelled. The server's reply and the current time are parameters.
- Authentication middleware: the JWT is neither signed nor checked. The requester (`Store.Requester`) is a parameter. Token expiry is not modelled.
- bcrypt: a hash is modelled as `Digest(password)`. The salt and the cost factor are left out.
- `Store.Database.NewId`: ObjectId generation is a counter. Ids are unique, but their timestamp and random parts are not modelled.
- Every handler's `catch` with 500 "Server error" for store failures is not modelled. The model keeps only a login without a password, whose comparison throws, and the store errors the schemas cause: a missing required field makes `save` throw.
- JSON `null` is identified with an absent field. In particular a `null` `companyName` would satisfy `$exists`/`$ne: ''` in `GET /users/companies`, while `UserRoutes.ListedIds` treats it as absent.
- `populate` is not modelled. Replies carry identifiers where the server sends populated documents.
- Listings take a bound `n` on identifiers: they cover the documents below `n`, and `n` is `nextId` in use. The order of documents that tie on the sort key is left unspecified, as MongoDB leaves it.
- Text.ToLower: only ASCII letters are lower-cased. A `char` is a Unicode code point, so strings compare in code-point order, which is the order of MongoDB's byte-wise comparison of UTF-8.
- SignUp.PasswordError, Display.Preview, JobsView.CardDescription, CompaniesView.CompanyDescription: lengths and cuts count code points, while JavaScript's `length` and `substring` count UTF-16 code units. For text outside the Basic Multilingual Plane the limits of 8, 100 and 200 therefore fall elsewhere, and the model never cuts a surrogate pair in half as the client can.
- Text.Trim: the whitespace set is the ASCII set plus no-break space and BOM. The other Unicode space characters `trim` and `\s` also accept are not modelled.
- UserRoutes.Login: the e-mail and the role are taken as present strings; a body that omits either is not modelled.
- JobsView.Locations, CompaniesView.Industries: the options are promised each once, but not in the order of their first appearance that the client keeps.
- JobRoutes.ExpiryOf: `expiresAt` is a millisecond number, not a parsed date string.
- CompanyRoutes.DeleteCompany: the model removes the company. `company.remove()` exists only in Mongoose versions before 7; on newer versions the handler answers 500, which is not modelled.
- Messages-only replies are modelled as the message string. The HTTP framing and JSON serialisation are left out.
- SignUp.SignUpForm.Submit and SignIn.SignInForm.Submit: the error message set in the `catch` when the request fails is left out, because the request is not modelled.
- SignUp.SignUpForm.HandleChange, SignIn.SignInForm.HandleChange: checkbox changes to text fields are excluded by `requires`. No rendered input produces one, and a boolean there would break `trim()` in validation.
- ProfileScreen: `handleJsonArrayChange` (JSON parsing of the education and experience editors) is left out. Education and experience entries are opaque strings.
- ProfileScreen.ProfileSidebar.HandleProfilePictureChange: `URL.createObjectURL` is a parameter (`previewUrl`).
- ProfileScreen.ProfileSidebar.HandleSaveProfile: the `catch` branch is left out, because `onUpdateProfile` never throws. The intermediate `saving = true` is not observable in the model.
- Rendering-only parts are not modelled: `formatDate` and locale formatting, the profile tabs, the job and application lists on the profile screen, and the featured-jobs, home, about, contact and privacy pages.
- Concurrency: interleaved requests, for example two registrations with the same e-mail racing past `findOne`, are not modelled. Each handler runs atomically.

## Findings

| source | as written | input that shows it | evidently intended | confidence | as-written member | corrected member |
|---|---|---|---|---|---|---|
| server/routes/applications.js:70 | `jobseekerId` has been populated (line 57), so `application.jobseekerId.toString()` is the user document's printed form, not its id, and never equals the requester's id | a job seeker reads their own application with `GET /applications/:id`: the reply is 403 "Unauthorized" (500 if the applicant's user was deleted, since `null.toString()` throws) | the job seeker who applied sees their application; compare `application.jobseekerId._id` | medium, not executed | ApplicationRoutes.OwnApplicationRefusedAsWritten | ApplicationRoutes.GetApplicationAccess |
