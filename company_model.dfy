/** The company document (server/models/Companies.js). */
module CompanyModel {
  import opened Wrappers
  import opened Text
  import opened Ids

  datatype Company = Company(
    name: string, description: Option<string>, logo: Option<string>, website: Option<string>,
    location: Option<string>, employerId: Id, createdAt: int)

  /** The required `name` is non-empty. */
  predicate WellFormed(c: Company) {
    c.name != ""
  }

  /** At most one company per employer, the rule company creation enforces. */
  ghost predicate OnePerEmployer(companies: map<Id, Company>) {
    forall a, b ::
      (a in companies && b in companies && companies[a].employerId == companies[b].employerId) ==> a == b
  }

  ghost predicate CompaniesValid(companies: map<Id, Company>) {
    OnePerEmployer(companies) && forall id :: id in companies ==> WellFormed(companies[id])
  }

  /** `new Company({...})` followed by validation: refused unless `name` is present and
      non-empty; `createdAt` defaults to the creation time. */
  function NewCompany(name: Option<string>, description: Option<string>, logo: Option<string>,
                      website: Option<string>, location: Option<string>,
                      employerId: Id, now: int): (r: Option<Company>)
    ensures r.Some? <==> Truthy(name)
    ensures r.Some? ==> WellFormed(r.value) && r.value.employerId == employerId && r.value.createdAt == now
  {
    if Truthy(name) then Some(Company(name.value, description, logo, website, location, employerId, now))
    else None
  }

  /** Whether `employer` already owns a company (`Company.findOne({ employerId })`). */
  predicate OwnsCompany(companies: map<Id, Company>, employer: Id) {
    exists id :: id in companies && companies[id].employerId == employer
  }

  /** Adding a company for an employer who owns none keeps one company per employer. */
  lemma AddKeepsOnePerEmployer(companies: map<Id, Company>, id: Id, c: Company)
    requires OnePerEmployer(companies)
    requires id !in companies && !OwnsCompany(companies, c.employerId)
    ensures OnePerEmployer(companies[id := c])
  {
  }
}
