/** The job document (server/models/Jobs.js). */
module JobModel {
  import opened Wrappers
  import opened Text
  import opened Ids

  datatype Job = Job(
    title: string, company: string, location: string, description: string,
    requirements: seq<string>, salary: Option<string>, employerId: Id,
    createdAt: int, expiresAt: int)

  /** The required string fields are non-empty. */
  predicate WellFormed(j: Job) {
    j.title != "" && j.company != "" && j.location != "" && j.description != ""
  }

  /** `new Job({...})` followed by validation: refused unless title, company, location and
      description are present and non-empty; `createdAt` defaults to the creation time. */
  function NewJob(title: Option<string>, company: Option<string>, location: Option<string>,
                  description: Option<string>, requirements: seq<string>, salary: Option<string>,
                  employerId: Id, expiresAt: int, now: int): (r: Option<Job>)
    ensures r.Some? <==> Truthy(title) && Truthy(company) && Truthy(location) && Truthy(description)
    ensures r.Some? ==> WellFormed(r.value) && r.value.createdAt == now
    ensures r.Some? ==> r.value.employerId == employerId && r.value.expiresAt == expiresAt
  {
    if Truthy(title) && Truthy(company) && Truthy(location) && Truthy(description) then
      Some(Job(title.value, company.value, location.value, description.value, requirements,
               salary, employerId, now, expiresAt))
    else None
  }
}
