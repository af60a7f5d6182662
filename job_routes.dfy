/**
 * The job routes (server/routes/jobs.js): posting a job, listing and reading
 * jobs, applying to a job, and an employer's view of one job's applications.
 */
module JobRoutes {
  import opened Wrappers
  import opened Text
  import opened Ids
  import opened Seqs
  import opened UserModel
  import opened JobModel
  import opened ApplicationModel
  import opened Store

  const OnlyEmployersPost := "Only employers can post jobs"
  const JobCreated := "Job created successfully"
  const JobNotFound := "Job not found"
  const OnlyJobseekersApply := "Only jobseekers can apply for jobs"
  const AlreadyApplied := "You have already applied for this job"
  const ApplicationSubmitted := "Application submitted successfully"
  const Unauthorized := "Unauthorized"

  /** The default lifetime of a posting, in milliseconds. */
  const ThirtyDaysMs := 30 * 24 * 60 * 60 * 1000

  /** The body of `POST /jobs`; `expiresAt` is a time in milliseconds. */
  datatype JobBody = JobBody(
    title: Option<string>, company: Option<string>, location: Option<string>,
    description: Option<string>, requirements: seq<string>, salary: Option<string>,
    expiresAt: Option<int>)

  /** `expiresAt || now + 30 days`: an absent (or zero, hence falsy) expiry takes the default. */
  function ExpiryOf(supplied: Option<int>, now: int): (e: int)
    ensures supplied.Some? && supplied.value != 0 ==> e == supplied.value
    ensures supplied.None? || supplied.value == 0 ==> e == now + 2592000000
  {
    if supplied.Some? && supplied.value != 0 then supplied.value else now + ThirtyDaysMs
  }

  /** The four fields the job schema requires. */
  predicate HasJobFields(b: JobBody) {
    Truthy(b.title) && Truthy(b.company) && Truthy(b.location) && Truthy(b.description)
  }

  /** `POST /jobs`: employers only; a body the schema refuses makes the save throw (500). */
  method CreateJob(db: Database, req: Requester, b: JobBody, now: int) returns (r: Reply<Saved<Job>>)
    requires db.Valid()
    modifies db
    ensures db.Valid()
    ensures req.role != Employer ==> r == Fail(403, OnlyEmployersPost) && unchanged(db)
    ensures req.role == Employer && !HasJobFields(b) ==> r == Fail(500, ServerError) && unchanged(db)
    ensures req.role == Employer && HasJobFields(b) ==>
      var id := old(db.nextId);
      && id !in old(db.jobs)
      && r.Ok? && r.code == 201 && r.body.message == JobCreated && r.body.id == id
      && db.jobs == old(db.jobs)[id := r.body.doc]
      && r.body.doc == Job(b.title.value, b.company.value, b.location.value, b.description.value,
                           b.requirements, b.salary, req.id, now, ExpiryOf(b.expiresAt, now))
      && db.users == old(db.users) && db.applications == old(db.applications)
      && db.companies == old(db.companies)
  {
    if req.role != Employer {
      return Fail(403, OnlyEmployersPost);
    }
    var job := NewJob(b.title, b.company, b.location, b.description, b.requirements, b.salary,
                      req.id, ExpiryOf(b.expiresAt, now), now);
    if job.None? {
      return Fail(500, ServerError);
    }
    var id := db.NewId();
    db.jobs := db.jobs[id := job.value];
    r := Ok(201, Saved(JobCreated, id, job.value));
  }

  /** Newest first: `sort({ createdAt: -1 })`. */
  predicate NewerJob(a: (Id, Job), b: (Id, Job)) {
    a.1.createdAt >= b.1.createdAt
  }

  lemma NewerJobIsPreorder()
    ensures TotalPreorder(NewerJob)
  {
  }

  /** `GET /jobs` over the jobs with identifiers below `n`: every job, expired or not,
      newest first. */
  function ListJobs(jobs: map<Id, Job>, n: nat): (r: seq<(Id, Job)>)
    ensures forall d :: d in r <==> d.0 in jobs && d.0 < n && jobs[d.0] == d.1
    ensures multiset(r) == multiset(DocumentsBelow(jobs, n))
    ensures forall i, j :: 0 <= i < j < |r| ==> r[i].1.createdAt >= r[j].1.createdAt
  {
    NewerJobIsPreorder();
    var all := DocumentsBelow(jobs, n);
    var r := Sort(all, NewerJob);
    assert forall d :: d in r <==> d in all by {
      forall d ensures d in r <==> d in all {
        assert d in r <==> d in multiset(r);
        assert d in all <==> d in multiset(all);
      }
    }
    r
  }

  /** `GET /jobs/:id`. */
  function GetJob(jobs: map<Id, Job>, id: Id): (r: Reply<Job>)
    ensures id !in jobs <==> r == Fail(404, JobNotFound)
    ensures id in jobs ==> r == Ok(200, jobs[id])
  {
    if id in jobs then Ok(200, jobs[id]) else Fail(404, JobNotFound)
  }

  /** The body of `POST /jobs/:id/apply`. */
  datatype ApplyBody = ApplyBody(resume: Option<string>, coverLetter: Option<string>)

  /** `POST /jobs/:id/apply`: job seekers only, to a job that exists, once per job; an
      application without a resume makes the save throw (500). */
  method Apply(db: Database, req: Requester, jobId: Id, b: ApplyBody, now: int)
    returns (r: Reply<Saved<Application>>)
    requires db.Valid()
    modifies db
    ensures db.Valid()
    ensures req.role != Jobseeker ==> r == Fail(403, OnlyJobseekersApply) && unchanged(db)
    ensures req.role == Jobseeker && jobId !in old(db.jobs) ==> r == Fail(404, JobNotFound) && unchanged(db)
    ensures req.role == Jobseeker && jobId in old(db.jobs) && HasApplied(old(db.applications), jobId, req.id) ==>
      r == Fail(400, AlreadyApplied) && unchanged(db)
    ensures (req.role == Jobseeker && jobId in old(db.jobs) && !HasApplied(old(db.applications), jobId, req.id)
             && !Truthy(b.resume)) ==> r == Fail(500, ServerError) && unchanged(db)
    ensures (req.role == Jobseeker && jobId in old(db.jobs) && !HasApplied(old(db.applications), jobId, req.id)
             && Truthy(b.resume)) ==>
      var id := old(db.nextId);
      && id !in old(db.applications)
      && r == Ok(201, Saved(ApplicationSubmitted, id,
                            Application(jobId, req.id, Pending, b.resume.value, b.coverLetter, now)))
      && db.applications == old(db.applications)[id := r.body.doc]
      && db.users == old(db.users) && db.jobs == old(db.jobs) && db.companies == old(db.companies)
    // once an application exists, it is the only one for the pair
    ensures r.Ok? ==> forall other ::
      (other in db.applications && db.applications[other].jobId == jobId
       && db.applications[other].jobseekerId == req.id) ==> other == r.body.id
  {
    if req.role != Jobseeker {
      return Fail(403, OnlyJobseekersApply);
    }
    if jobId !in db.jobs {
      return Fail(404, JobNotFound);
    }
    if HasApplied(db.applications, jobId, req.id) {
      return Fail(400, AlreadyApplied);
    }
    var app := NewApplication(jobId, req.id, b.resume, b.coverLetter, now);
    if app.None? {
      return Fail(500, ServerError);
    }
    var id := db.NewId();
    AddKeepsOnePerPair(db.applications, id, app.value);
    db.applications := db.applications[id := app.value];
    r := Ok(201, Saved(ApplicationSubmitted, id, app.value));
  }

  /** `GET /jobs/:id/applications` over the applications with identifiers below `n`: only
      the employer who posted the job sees them, and sees exactly that job's applications,
      in store order. */
  function JobApplications(jobs: map<Id, Job>, apps: map<Id, Application>, n: nat,
                           req: Requester, jobId: Id): (r: Reply<seq<(Id, Application)>>)
    ensures jobId !in jobs <==> r == Fail(404, JobNotFound)
    ensures jobId in jobs && (req.role != Employer || jobs[jobId].employerId != req.id) <==>
      r == Fail(403, Unauthorized)
    ensures r.Ok? ==>
      && r.code == 200
      && (forall d :: d in r.body <==> d.0 in apps && d.0 < n && apps[d.0] == d.1 && d.1.jobId == jobId)
      && (forall i, j :: 0 <= i < j < |r.body| ==> r.body[i].0 < r.body[j].0)
  {
    if jobId !in jobs then Fail(404, JobNotFound)
    else if req.role != Employer || jobs[jobId].employerId != req.id then Fail(403, Unauthorized)
    else
      var all := DocumentsBelow(apps, n);
      var found := Filter(all, (d: (Id, Application)) => d.1.jobId == jobId);
      FilterSorted(all, (d: (Id, Application)) => d.1.jobId == jobId, (a: (Id, Application), b: (Id, Application)) => a.0 < b.0);
      Ok(200, found)
  }
}
