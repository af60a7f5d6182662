/**
 * The application document (server/models/Applications.js): a job seeker's
 * application to one job, with a status enumeration defaulting to pending.
 */
module ApplicationModel {
  import opened Wrappers
  import opened Text
  import opened Ids

  datatype Status = Pending | Reviewed | Rejected | Accepted

  function StatusName(s: Status): string
  {
    match s
    case Pending => "pending"
    case Reviewed => "reviewed"
    case Rejected => "rejected"
    case Accepted => "accepted"
  }

  /** The schema's `enum`: a string is a status exactly when it names one. */
  function ParseStatus(s: string): (r: Option<Status>)
    ensures forall st: Status :: r == Some(st) <==> s == StatusName(st)
  {
    if s == "pending" then Some(Pending)
    else if s == "reviewed" then Some(Reviewed)
    else if s == "rejected" then Some(Rejected)
    else if s == "accepted" then Some(Accepted)
    else None
  }

  datatype Application = Application(
    jobId: Id, jobseekerId: Id, status: Status, resume: string,
    coverLetter: Option<string>, appliedAt: int)

  /** `resume` is required, so never empty. */
  predicate WellFormed(a: Application) {
    a.resume != ""
  }

  /** At most one application per (job, job seeker) pair. */
  ghost predicate OnePerPair(apps: map<Id, Application>) {
    forall a, b ::
      (a in apps && b in apps && apps[a].jobId == apps[b].jobId
       && apps[a].jobseekerId == apps[b].jobseekerId) ==> a == b
  }

  ghost predicate ApplicationsValid(apps: map<Id, Application>) {
    OnePerPair(apps) && forall id :: id in apps ==> WellFormed(apps[id])
  }

  /** `new Applications({...})` followed by validation: refused when the required `resume` is
      missing or empty; otherwise the status is `pending` and `appliedAt` the creation time. */
  function NewApplication(jobId: Id, jobseekerId: Id, resume: Option<string>,
                          coverLetter: Option<string>, now: int): (r: Option<Application>)
    ensures r.Some? <==> Truthy(resume)
    ensures r.Some? ==> WellFormed(r.value) && r.value.status == Pending && r.value.appliedAt == now
    ensures r.Some? ==> r.value.jobId == jobId && r.value.jobseekerId == jobseekerId
                        && r.value.resume == resume.value && r.value.coverLetter == coverLetter
  {
    if Truthy(resume) then Some(Application(jobId, jobseekerId, Pending, resume.value, coverLetter, now))
    else None
  }

  /** Whether `seeker` already applied to `job`. */
  predicate HasApplied(apps: map<Id, Application>, job: Id, seeker: Id) {
    exists id :: id in apps && apps[id].jobId == job && apps[id].jobseekerId == seeker
  }

  /** Adding an application for a pair that has none keeps one application per pair. */
  lemma AddKeepsOnePerPair(apps: map<Id, Application>, id: Id, a: Application)
    requires OnePerPair(apps)
    requires id !in apps && !HasApplied(apps, a.jobId, a.jobseekerId)
    ensures OnePerPair(apps[id := a])
  {
  }
}
