/**
 * The application routes (server/routes/applications.js): a job seeker's own
 * applications, the applications to an employer's jobs, reading one
 * application, changing its status and withdrawing it.
 */
module ApplicationRoutes {
  import opened Wrappers
  import opened Ids
  import opened Seqs
  import opened UserModel
  import opened JobModel
  import opened ApplicationModel
  import opened Store

  const Unauthorized := "Unauthorized"
  const ApplicationNotFound := "Application not found"
  const JobNotFound := "Job not found"
  const OnlyEmployersUpdate := "Only employers can update application status"
  const InvalidStatus := "Invalid status"
  const StatusUpdated := "Application status updated successfully"
  const OnlyJobseekersWithdraw := "Only jobseekers can withdraw applications"
  const Withdrawn := "Application withdrawn successfully"

  /** Most recent first: `sort({ appliedAt: -1 })`. */
  predicate NewerApplication(a: (Id, Application), b: (Id, Application)) {
    a.1.appliedAt >= b.1.appliedAt
  }

  lemma NewerApplicationIsPreorder()
    ensures TotalPreorder(NewerApplication)
  {
  }

  /** Store order: identifiers only grow. */
  predicate EarlierId(a: (Id, Application), b: (Id, Application)) {
    a.0 < b.0
  }

  /** The applications satisfying `p`, each once, most recent first. */
  function NewestFirst(apps: map<Id, Application>, n: nat, p: ((Id, Application)) -> bool)
    : (r: seq<(Id, Application)>)
    ensures forall d :: d in r <==> d.0 in apps && d.0 < n && apps[d.0] == d.1 && p(d)
    ensures NoDuplicates(r)
    ensures forall i, j :: 0 <= i < j < |r| ==> r[i].1.appliedAt >= r[j].1.appliedAt
  {
    NewerApplicationIsPreorder();
    var below := DocumentsBelow(apps, n);
    var found := Filter(below, p);
    var r := Sort(found, NewerApplication);
    FilterSorted(below, p, EarlierId);
    assert NoDuplicates(found) by {
      forall i, j | 0 <= i < j < |found| ensures found[i] != found[j] {
        assert EarlierId(found[i], found[j]);
      }
    }
    PermutationKeepsNoDuplicates(found, r);
    assert forall d :: d in r <==> d in found by {
      forall d ensures d in r <==> d in found {
        assert d in r <==> d in multiset(r);
        assert d in found <==> d in multiset(found);
      }
    }
    r
  }

  /** `GET /applications/jobseeker` over the applications below `n`: job seekers only, and
      exactly their own applications, each once, most recent first. */
  function SeekerApplications(apps: map<Id, Application>, n: nat, req: Requester)
    : (r: Reply<seq<(Id, Application)>>)
    ensures req.role != Jobseeker <==> r == Fail(403, Unauthorized)
    ensures r.Ok? ==>
      && r.code == 200
      && (forall d :: d in r.body <==> d.0 in apps && d.0 < n && apps[d.0] == d.1 && d.1.jobseekerId == req.id)
      && NoDuplicates(r.body)
      && (forall i, j :: 0 <= i < j < |r.body| ==> r.body[i].1.appliedAt >= r.body[j].1.appliedAt)
  {
    if req.role != Jobseeker then Fail(403, Unauthorized)
    else Ok(200, NewestFirst(apps, n, (d: (Id, Application)) => d.1.jobseekerId == req.id))
  }

  /** The identifiers of the jobs below `n` that `employer` posted (`Job.find({ employerId })`). */
  function JobsOf(jobs: map<Id, Job>, n: nat, employer: Id): (ids: seq<Id>)
    ensures forall id :: id in ids <==> id in jobs && id < n && jobs[id].employerId == employer
  {
    var posted := Filter(DocumentsBelow(jobs, n), (d: (Id, Job)) => d.1.employerId == employer);
    var ids := Map(posted, (d: (Id, Job)) => d.0);
    forall id ensures id in ids <==> id in jobs && id < n && jobs[id].employerId == employer {
      if id in ids {
        var i :| 0 <= i < |ids| && ids[i] == id;
        assert posted[i] in posted;
      }
      if id in jobs && id < n && jobs[id].employerId == employer {
        assert (id, jobs[id]) in posted;
        var i :| 0 <= i < |posted| && posted[i] == (id, jobs[id]);
        assert ids[i] == id;
      }
    }
    ids
  }

  /** `GET /applications/employer` over the documents below `n`: employers only, and exactly
      the applications to jobs they posted, each once, most recent first. */
  function EmployerApplications(jobs: map<Id, Job>, apps: map<Id, Application>, n: nat, req: Requester)
    : (r: Reply<seq<(Id, Application)>>)
    ensures req.role != Employer <==> r == Fail(403, Unauthorized)
    ensures r.Ok? ==>
      && r.code == 200
      && (forall d :: d in r.body <==>
            && d.0 in apps && d.0 < n && apps[d.0] == d.1
            && d.1.jobId in jobs && d.1.jobId < n && jobs[d.1.jobId].employerId == req.id)
      && NoDuplicates(r.body)
      && (forall i, j :: 0 <= i < j < |r.body| ==> r.body[i].1.appliedAt >= r.body[j].1.appliedAt)
  {
    if req.role != Employer then Fail(403, Unauthorized)
    else
      var jobIds := JobsOf(jobs, n, req.id);
      Ok(200, NewestFirst(apps, n, (d: (Id, Application)) => d.1.jobId in jobIds))
  }

  /** `GET /applications/:id`: the application must exist and so must its job; a job seeker
      may read only their own application, and an employer only one to a job they posted. */
  function GetApplication(jobs: map<Id, Job>, apps: map<Id, Application>, req: Requester, id: Id)
    : (r: Reply<Application>)
    ensures id !in apps <==> r == Fail(404, ApplicationNotFound)
    ensures id in apps && apps[id].jobId !in jobs <==> r == Fail(404, JobNotFound)
    ensures r.Ok? ==> r == Ok(200, apps[id])
  {
    if id !in apps then Fail(404, ApplicationNotFound)
    else if apps[id].jobId !in jobs then Fail(404, JobNotFound)
    else if req.role == Jobseeker && apps[id].jobseekerId != req.id then Fail(403, Unauthorized)
    else if req.role == Employer && jobs[apps[id].jobId].employerId != req.id then Fail(403, Unauthorized)
    else Ok(200, apps[id])
  }

  /** Reading an application succeeds exactly for its applicant and for the employer who
      posted its job. */
  lemma GetApplicationAccess(jobs: map<Id, Job>, apps: map<Id, Application>, req: Requester, id: Id)
    requires id in apps && apps[id].jobId in jobs
    ensures GetApplication(jobs, apps, req, id).Ok? <==>
      (req.role == Jobseeker && apps[id].jobseekerId == req.id)
      || (req.role == Employer && jobs[apps[id].jobId].employerId == req.id)
    ensures GetApplication(jobs, apps, req, id).Fail? ==> GetApplication(jobs, apps, req, id) == Fail(403, Unauthorized)
  {
  }

  /** `GET /applications/:id` as written. The application is read with its applicant
      populated, so the job-seeker test compares the applicant's user document, turned into
      its printed form, with the requester's identifier string: the two are never equal, and
      a missing applicant makes the conversion throw (status 500). */
  function GetApplicationAsWritten(users: map<Id, User>, jobs: map<Id, Job>, apps: map<Id, Application>,
                                   req: Requester, id: Id): (r: Reply<Application>)
    ensures r.Ok? ==> req.role == Employer && r == GetApplication(jobs, apps, req, id)
    ensures req.role == Employer ==> r == GetApplication(jobs, apps, req, id)
  {
    if id !in apps then Fail(404, ApplicationNotFound)
    else if apps[id].jobId !in jobs then Fail(404, JobNotFound)
    else if req.role == Jobseeker then
      (if apps[id].jobseekerId !in users then Fail(500, ServerError) else Fail(403, Unauthorized))
    else
      assert req.role == Employer;
      if jobs[apps[id].jobId].employerId != req.id then Fail(403, Unauthorized)
      else Ok(200, apps[id])
  }

  /** The discrepancy: a job seeker asking for their own application is refused by the
      handler as written, and served by the intended check. */
  lemma OwnApplicationRefusedAsWritten(users: map<Id, User>, jobs: map<Id, Job>, apps: map<Id, Application>, id: Id)
    requires id in apps && apps[id].jobId in jobs && apps[id].jobseekerId in users
    ensures var req := Requester(apps[id].jobseekerId, Jobseeker);
      && GetApplicationAsWritten(users, jobs, apps, req, id) == Fail(403, Unauthorized)
      && GetApplication(jobs, apps, req, id) == Ok(200, apps[id])
  {
  }

  /** `PATCH /applications/:id/status`: the role first, then the status value, then the
      application, its job and the job's owner; on success only that application's status
      changes, to any of the four values. */
  method UpdateStatus(db: Database, req: Requester, id: Id, status: string) returns (r: Reply<Saved<Application>>)
    requires db.Valid()
    modifies db
    ensures db.Valid()
    ensures req.role != Employer ==> r == Fail(403, OnlyEmployersUpdate) && unchanged(db)
    ensures req.role == Employer && ParseStatus(status).None? ==> r == Fail(400, InvalidStatus) && unchanged(db)
    ensures (req.role == Employer && ParseStatus(status).Some? && id !in old(db.applications)) ==>
      r == Fail(404, ApplicationNotFound) && unchanged(db)
    ensures (req.role == Employer && ParseStatus(status).Some? && id in old(db.applications)
             && old(db.applications[id]).jobId !in old(db.jobs)) ==>
      r == Fail(404, JobNotFound) && unchanged(db)
    ensures (req.role == Employer && ParseStatus(status).Some? && id in old(db.applications)
             && old(db.applications[id]).jobId in old(db.jobs)
             && old(db.jobs[db.applications[id].jobId]).employerId != req.id) ==>
      r == Fail(403, Unauthorized) && unchanged(db)
    ensures r.Ok? ==>
      && id in old(db.applications) && old(db.applications[id]).jobId in old(db.jobs)
      && old(db.jobs[db.applications[id].jobId]).employerId == req.id
      && db.applications == old(db.applications)[id := old(db.applications[id]).(status := ParseStatus(status).value)]
      && r == Ok(200, Saved(StatusUpdated, id, db.applications[id]))
      && StatusName(db.applications[id].status) == status
      && db.users == old(db.users) && db.jobs == old(db.jobs) && db.companies == old(db.companies)
      && db.nextId == old(db.nextId)
    ensures r.Ok? <==>
      req.role == Employer && ParseStatus(status).Some? && id in old(db.applications)
      && old(db.applications[id]).jobId in old(db.jobs) && old(db.jobs[db.applications[id].jobId]).employerId == req.id
  {
    if req.role != Employer {
      return Fail(403, OnlyEmployersUpdate);
    }
    var st := ParseStatus(status);
    if st.None? {
      return Fail(400, InvalidStatus);
    }
    if id !in db.applications {
      return Fail(404, ApplicationNotFound);
    }
    var app := db.applications[id];
    if app.jobId !in db.jobs {
      return Fail(404, JobNotFound);
    }
    if db.jobs[app.jobId].employerId != req.id {
      return Fail(403, Unauthorized);
    }
    var updated := app.(status := st.value);
    db.applications := db.applications[id := updated];
    r := Ok(200, Saved(StatusUpdated, id, updated));
  }

  /** `DELETE /applications/:id`: job seekers only, their own application only; on success
      exactly that application is gone. */
  method Withdraw(db: Database, req: Requester, id: Id) returns (r: Reply<string>)
    requires db.Valid()
    modifies db
    ensures db.Valid()
    ensures req.role != Jobseeker ==> r == Fail(403, OnlyJobseekersWithdraw) && unchanged(db)
    ensures req.role == Jobseeker && id !in old(db.applications) ==> r == Fail(404, ApplicationNotFound) && unchanged(db)
    ensures (req.role == Jobseeker && id in old(db.applications)
             && old(db.applications[id]).jobseekerId != req.id) ==> r == Fail(403, Unauthorized) && unchanged(db)
    ensures (req.role == Jobseeker && id in old(db.applications)
             && old(db.applications[id]).jobseekerId == req.id) ==>
      && r == Ok(200, Withdrawn)
      && db.applications == old(db.applications) - {id}
      && db.users == old(db.users) && db.jobs == old(db.jobs) && db.companies == old(db.companies)
      && db.nextId == old(db.nextId)
  {
    if req.role != Jobseeker {
      return Fail(403, OnlyJobseekersWithdraw);
    }
    if id !in db.applications {
      return Fail(404, ApplicationNotFound);
    }
    if db.applications[id].jobseekerId != req.id {
      return Fail(403, Unauthorized);
    }
    db.applications := db.applications - {id};
    r := Ok(200, Withdrawn);
  }
}
