/**
 * The document store behind the route handlers: one table per collection
 * (users, jobs, applications, companies), each a map from identifier to
 * document, plus the replies the handlers send.
 */
module Store {
  import opened Ids
  import opened UserModel
  import opened JobModel
  import opened ApplicationModel
  import opened CompanyModel

  /** The user the authentication middleware resolved from the request's token. */
  datatype Requester = Requester(id: Id, role: Role)

  /** An HTTP reply: a status code with a body, or a status code with `{ message }`. */
  datatype Reply<+T> = Ok(code: nat, body: T) | Fail(code: nat, message: string)

  /** The message every handler's `catch` sends with status 500. */
  const ServerError := "Server error"

  class Database {
    var users: map<Id, User>
    var jobs: map<Id, Job>
    var applications: map<Id, Application>
    var companies: map<Id, Company>
    /** The next identifier to hand out; every identifier in use is below it. */
    var nextId: nat

    /** What the schemas and the handlers keep true of the stored documents. */
    ghost predicate Valid()
      reads this
    {
      && (forall id :: id in users ==> id < nextId)
      && (forall id :: id in jobs ==> id < nextId)
      && (forall id :: id in applications ==> id < nextId)
      && (forall id :: id in companies ==> id < nextId)
      && UsersValid(users)
      && (forall id :: id in jobs ==> JobModel.WellFormed(jobs[id]))
      && ApplicationsValid(applications)
      && CompaniesValid(companies)
    }

    constructor ()
      ensures Valid()
      ensures users == map[] && jobs == map[] && applications == map[] && companies == map[]
    {
      users, jobs, applications, companies := map[], map[], map[], map[];
      nextId := 0;
    }

    /** A fresh identifier, used by no document of any table. */
    method NewId() returns (id: Id)
      requires Valid()
      modifies this`nextId
      ensures Valid()
      ensures id == old(nextId) && nextId == id + 1
      ensures id !in users && id !in jobs && id !in applications && id !in companies
    {
      id := nextId;
      nextId := nextId + 1;
    }
  }

  /** What a create or an update replies with: `{ message, <document> }`. */
  datatype Saved<+T> = Saved(message: string, id: Id, doc: T)

  /** The documents of `m` with identifiers below `n`, as (identifier, document) pairs in
      increasing identifier order: what a query without `sort` returns (insertion order, as
      identifiers only grow). */
  function DocumentsBelow<T(!new)>(m: map<Id, T>, n: nat): (ds: seq<(Id, T)>)
    ensures forall d :: d in ds <==> d.0 in m && d.0 < n && m[d.0] == d.1
    ensures forall i, j :: 0 <= i < j < |ds| ==> ds[i].0 < ds[j].0
  {
    if n == 0 then []
    else if n - 1 in m then
      var ds := DocumentsBelow(m, n - 1);
      assert forall i :: 0 <= i < |ds| ==> ds[i].0 < n - 1 by {
        forall i | 0 <= i < |ds| ensures ds[i].0 < n - 1 { assert ds[i] in ds; }
      }
      ds + [(n - 1, m[n - 1])]
    else DocumentsBelow(m, n - 1)
  }
}
