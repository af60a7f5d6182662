/**
 * The company-profile routes (server/routes/companies.js): one profile per
 * employer, listed by name, read by identifier or by employer, and updated or
 * deleted only by the employer who owns it.
 */
module CompanyRoutes {
  import opened Wrappers
  import opened Text
  import opened Ids
  import opened Seqs
  import opened UserModel
  import opened CompanyModel
  import opened Store

  const OnlyEmployersCreate := "Only employers can create company profiles"
  const AlreadyHaveCompany := "You already have a company profile"
  const CompanyCreated := "Company profile created successfully"
  const CompanyNotFound := "Company not found"
  const Unauthorized := "Unauthorized"
  const CompanyUpdated := "Company profile updated successfully"
  const CompanyDeleted := "Company profile deleted successfully"

  /** The body of `POST /companies` and `PUT /companies/:id`. */
  datatype CompanyBody = CompanyBody(
    name: Option<string>, description: Option<string>, logo: Option<string>,
    website: Option<string>, location: Option<string>)

  /** `POST /companies`: employers only, one profile each (checked before the body is
      validated); a missing or empty name makes the save throw (500). */
  method CreateCompany(db: Database, req: Requester, b: CompanyBody, now: int) returns (r: Reply<Saved<Company>>)
    requires db.Valid()
    modifies db
    ensures db.Valid()
    ensures req.role != Employer ==> r == Fail(403, OnlyEmployersCreate) && unchanged(db)
    ensures req.role == Employer && OwnsCompany(old(db.companies), req.id) ==>
      r == Fail(400, AlreadyHaveCompany) && unchanged(db)
    ensures (req.role == Employer && !OwnsCompany(old(db.companies), req.id) && !Truthy(b.name)) ==>
      r == Fail(500, ServerError) && unchanged(db)
    ensures (req.role == Employer && !OwnsCompany(old(db.companies), req.id) && Truthy(b.name)) ==>
      var id := old(db.nextId);
      && id !in old(db.companies)
      && r == Ok(201, Saved(CompanyCreated, id,
                            Company(b.name.value, b.description, b.logo, b.website, b.location, req.id, now)))
      && db.companies == old(db.companies)[id := r.body.doc]
      && db.users == old(db.users) && db.jobs == old(db.jobs) && db.applications == old(db.applications)
  {
    if req.role != Employer {
      return Fail(403, OnlyEmployersCreate);
    }
    if OwnsCompany(db.companies, req.id) {
      return Fail(400, AlreadyHaveCompany);
    }
    var c := NewCompany(b.name, b.description, b.logo, b.website, b.location, req.id, now);
    if c.None? {
      return Fail(500, ServerError);
    }
    var id := db.NewId();
    AddKeepsOnePerEmployer(db.companies, id, c.value);
    db.companies := db.companies[id := c.value];
    r := Ok(201, Saved(CompanyCreated, id, c.value));
  }

  /** `sort({ name: 1 })`. */
  predicate ByName(a: (Id, Company), b: (Id, Company)) {
    StrLe(a.1.name, b.1.name)
  }

  lemma ByNameIsPreorder()
    ensures TotalPreorder(ByName)
  {
    forall a: (Id, Company), b: (Id, Company) ensures ByName(a, b) || ByName(b, a) {
      StrLeTotal(a.1.name, b.1.name);
    }
    forall a: (Id, Company), b: (Id, Company), c: (Id, Company) | ByName(a, b) && ByName(b, c)
      ensures ByName(a, c)
    {
      StrLeTransitive(a.1.name, b.1.name, c.1.name);
    }
  }

  /** `GET /companies` over the companies below `n`: all of them, by name ascending. */
  function ListCompanies(companies: map<Id, Company>, n: nat): (r: seq<(Id, Company)>)
    ensures forall d :: d in r <==> d.0 in companies && d.0 < n && companies[d.0] == d.1
    ensures multiset(r) == multiset(DocumentsBelow(companies, n))
    ensures forall i, j :: 0 <= i < j < |r| ==> StrLe(r[i].1.name, r[j].1.name)
  {
    ByNameIsPreorder();
    var all := DocumentsBelow(companies, n);
    var r := Sort(all, ByName);
    assert forall d :: d in r <==> d in all by {
      forall d ensures d in r <==> d in all {
        assert d in r <==> d in multiset(r);
        assert d in all <==> d in multiset(all);
      }
    }
    r
  }

  /** `GET /companies/:id`. */
  function GetCompany(companies: map<Id, Company>, id: Id): (r: Reply<Company>)
    ensures id !in companies <==> r == Fail(404, CompanyNotFound)
    ensures id in companies ==> r == Ok(200, companies[id])
  {
    if id in companies then Ok(200, companies[id]) else Fail(404, CompanyNotFound)
  }

  /** Store order: identifiers only grow. */
  predicate EarlierCompany(a: (Id, Company), b: (Id, Company)) {
    a.0 < b.0
  }

  /** `GET /companies/employer/:employerId` over the companies below `n`: the first company
      (in store order) whose `employerId` is the parameter, or 404 when there is none. */
  function CompanyOfEmployer(companies: map<Id, Company>, n: nat, employer: Id): (r: Reply<(Id, Company)>)
    ensures r == Fail(404, CompanyNotFound) <==>
      !exists id :: id in companies && id < n && companies[id].employerId == employer
    ensures r.Ok? ==>
      && r.code == 200 && r.body.0 in companies && r.body.0 < n && companies[r.body.0] == r.body.1
      && r.body.1.employerId == employer
      && forall id :: id in companies && id < r.body.0 ==> companies[id].employerId != employer
  {
    var all := DocumentsBelow(companies, n);
    var owned := (d: (Id, Company)) => d.1.employerId == employer;
    var found := Filter(all, owned);
    if found == [] then
      assert forall id :: id in companies && id < n ==> (id, companies[id]) in all;
      Fail(404, CompanyNotFound)
    else
      FilterSorted(all, owned, EarlierCompany);
      assert found[0] in found;
      assert forall d :: d in found ==> found[0].0 <= d.0 by {
        forall d | d in found ensures found[0].0 <= d.0 {
          var k :| 0 <= k < |found| && found[k] == d;
          if k > 0 { assert EarlierCompany(found[0], found[k]); }
        }
      }
      assert forall id :: id in companies && id < found[0].0 && companies[id].employerId == employer ==>
        (id, companies[id]) in found;
      Ok(200, found[0])
  }

  /** With one profile per employer, the profile found for an employer is their only one. */
  lemma CompanyOfEmployerUnique(companies: map<Id, Company>, n: nat, employer: Id, id: Id)
    requires OnePerEmployer(companies)
    requires id in companies && id < n && companies[id].employerId == employer
    ensures CompanyOfEmployer(companies, n, employer) == Ok(200, (id, companies[id]))
  {
  }

  /** The field-by-field update: each of the five fields takes the supplied value when it is
      truthy; the owner and the creation time never change. */
  function ApplyCompanyUpdate(c: Company, b: CompanyBody): (d: Company)
    ensures d.employerId == c.employerId && d.createdAt == c.createdAt
    ensures CompanyModel.WellFormed(c) ==> CompanyModel.WellFormed(d)
    ensures Truthy(b.name) ==> d.name == b.name.value
    ensures Truthy(b.description) ==> d.description == b.description
    ensures Truthy(b.logo) ==> d.logo == b.logo
    ensures Truthy(b.website) ==> d.website == b.website
    ensures Truthy(b.location) ==> d.location == b.location
  {
    c.(name := OverwriteText(c.name, b.name),
       description := Overwrite(c.description, b.description),
       logo := Overwrite(c.logo, b.logo),
       website := Overwrite(c.website, b.website),
       location := Overwrite(c.location, b.location))
  }

  /** A field whose supplied value is missing or empty keeps its stored value. */
  lemma CompanyUpdateKeepsFalsyFields(c: Company, b: CompanyBody)
    ensures var d := ApplyCompanyUpdate(c, b);
      && (!Truthy(b.name) ==> d.name == c.name)
      && (!Truthy(b.description) ==> d.description == c.description)
      && (!Truthy(b.logo) ==> d.logo == c.logo)
      && (!Truthy(b.website) ==> d.website == c.website)
      && (!Truthy(b.location) ==> d.location == c.location)
  {
  }

  lemma CompanyUpdateIdempotent(c: Company, b: CompanyBody)
    ensures ApplyCompanyUpdate(ApplyCompanyUpdate(c, b), b) == ApplyCompanyUpdate(c, b)
  {
  }

  /** `PUT /companies/:id`: only the employer who owns the profile may update it. */
  method UpdateCompany(db: Database, req: Requester, id: Id, b: CompanyBody) returns (r: Reply<Saved<Company>>)
    requires db.Valid()
    modifies db
    ensures db.Valid()
    ensures id !in old(db.companies) ==> r == Fail(404, CompanyNotFound) && unchanged(db)
    ensures (id in old(db.companies) && (req.role != Employer || old(db.companies[id]).employerId != req.id)) ==>
      r == Fail(403, Unauthorized) && unchanged(db)
    ensures (id in old(db.companies) && req.role == Employer && old(db.companies[id]).employerId == req.id) ==>
      && db.companies == old(db.companies)[id := ApplyCompanyUpdate(old(db.companies[id]), b)]
      && r == Ok(200, Saved(CompanyUpdated, id, db.companies[id]))
      && db.users == old(db.users) && db.jobs == old(db.jobs) && db.applications == old(db.applications)
      && db.nextId == old(db.nextId)
  {
    if id !in db.companies {
      return Fail(404, CompanyNotFound);
    }
    var c := db.companies[id];
    if req.role != Employer || c.employerId != req.id {
      return Fail(403, Unauthorized);
    }
    var d := ApplyCompanyUpdate(c, b);
    db.companies := db.companies[id := d];
    r := Ok(200, Saved(CompanyUpdated, id, d));
  }

  /** `DELETE /companies/:id`: the same gates as the update; on success exactly that profile
      is gone. */
  method DeleteCompany(db: Database, req: Requester, id: Id) returns (r: Reply<string>)
    requires db.Valid()
    modifies db
    ensures db.Valid()
    ensures id !in old(db.companies) ==> r == Fail(404, CompanyNotFound) && unchanged(db)
    ensures (id in old(db.companies) && (req.role != Employer || old(db.companies[id]).employerId != req.id)) ==>
      r == Fail(403, Unauthorized) && unchanged(db)
    ensures (id in old(db.companies) && req.role == Employer && old(db.companies[id]).employerId == req.id) ==>
      && r == Ok(200, CompanyDeleted)
      && db.companies == old(db.companies) - {id}
      && db.users == old(db.users) && db.jobs == old(db.jobs) && db.applications == old(db.applications)
      && db.nextId == old(db.nextId)
  {
    if id !in db.companies {
      return Fail(404, CompanyNotFound);
    }
    var c := db.companies[id];
    if req.role != Employer || c.employerId != req.id {
      return Fail(403, Unauthorized);
    }
    db.companies := db.companies - {id};
    r := Ok(200, CompanyDeleted);
  }
}
