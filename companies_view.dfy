/**
 * The company directory page (client/src/components/Companies.jsx): the search
 * box and industry filter over the companies `GET /users/companies` returns, the
 * industry choices and the card's fallbacks, description and website link.
 */
module CompaniesView {
  import opened Wrappers
  import opened Text
  import opened Seqs
  import opened Ids
  import opened UserModel
  import opened UserRoutes
  import opened Display

  /** `company.field?.toLowerCase().includes(term)`: false when the field is missing. */
  predicate FieldContains(field: Option<string>, term: string) {
    field.Some? && Contains(ToLower(field.value), ToLower(term))
  }

  /** The term occurs, ignoring case, in the company name or the industry; an unset industry
      filter matches everything, a set one only that exact industry. */
  predicate CompanyMatches(c: CompanyCard, term: string, industry: string) {
    (FieldContains(c.companyName, term) || FieldContains(c.industry, term))
    && (industry == "" || c.industry == Some(industry))
  }

  /** `filteredCompanies`: the matching cards, in their original order. */
  function FilterCompanies(cards: seq<CompanyCard>, term: string, industry: string): (r: seq<CompanyCard>)
    ensures forall c :: c in r <==> c in cards && CompanyMatches(c, term, industry)
    ensures IsSubsequence(r, cards)
  {
    Filter(cards, c => CompanyMatches(c, term, industry))
  }

  /** With no search term and no industry, the page shows every company the server lists. */
  lemma {:induction false} NoFiltersShowAllListed(users: map<Id, User>, n: nat)
    ensures FilterCompanies(EmployerCompanies(users, n), "", "") == EmployerCompanies(users, n)
  {
    var cards := EmployerCompanies(users, n);
    forall i | 0 <= i < |cards| ensures CompanyMatches(cards[i], "", "") {
      ContainsEmpty(ToLower(cards[i].companyName.value));
    }
    FilterAll(cards, c => CompanyMatches(c, "", ""));
  }

  /** Choosing an industry from the choices keeps only companies of that industry, and every
      shown company matched the search. */
  lemma IndustryFilterExact(cards: seq<CompanyCard>, term: string, industry: string, c: CompanyCard)
    requires industry != "" && c in FilterCompanies(cards, term, industry)
    ensures c.industry == Some(industry)
    ensures FieldContains(c.companyName, term) || FieldContains(c.industry, term)
  {
  }

  /** `industries`: each industry that is present and not empty, once. */
  function Industries(cards: seq<CompanyCard>): (r: seq<string>)
    ensures forall s :: s in r <==> s != "" && exists i :: 0 <= i < |cards| && cards[i].industry == Some(s)
    ensures NoDuplicates(r)
  {
    var present := Filter(cards, (c: CompanyCard) => Truthy(c.industry));
    var names := Map(present, (c: CompanyCard) => if c.industry.Some? then c.industry.value else "");
    forall s | s != "" && exists i :: 0 <= i < |cards| && cards[i].industry == Some(s)
      ensures s in names
    {
      var i :| 0 <= i < |cards| && cards[i].industry == Some(s);
      assert cards[i] in present;
      var k :| 0 <= k < |present| && present[k] == cards[i];
      assert names[k] == s;
    }
    forall s | s in names
      ensures s != "" && exists i :: 0 <= i < |cards| && cards[i].industry == Some(s)
    {
      var k :| 0 <= k < |names| && names[k] == s;
      assert present[k] in cards;
      var i :| 0 <= i < |cards| && cards[i] == present[k];
    }
    Distinct(names)
  }

  /** The location line: the stored location, or the placeholder. */
  function LocationText(c: CompanyCard): (r: string)
    ensures Truthy(c.location) ==> r == c.location.value
    ensures !Truthy(c.location) ==> r == "Location not specified"
    ensures r != ""
  {
    if Truthy(c.location) then c.location.value else "Location not specified"
  }

  /** The size line: the stored size, or the placeholder. */
  function SizeText(c: CompanyCard): (r: string)
    ensures Truthy(c.companySize) ==> r == c.companySize.value
    ensures !Truthy(c.companySize) ==> r == "Size not specified"
    ensures r != ""
  {
    if Truthy(c.companySize) then c.companySize.value else "Size not specified"
  }

  /** The card's description: the first 100 characters and "..." when longer, or the
      placeholder. */
  function CompanyDescription(c: CompanyCard): (r: string)
    ensures !Truthy(c.companyDescription) ==> r == "No description available"
    ensures Truthy(c.companyDescription) && |c.companyDescription.value| <= 100 ==> r == c.companyDescription.value
    ensures Truthy(c.companyDescription) && |c.companyDescription.value| > 100 ==>
      |r| == 103 && r[..100] == c.companyDescription.value[..100] && r[100..] == "..."
  {
    DescriptionText(if c.companyDescription.Some? then c.companyDescription.value else "", 100)
  }

  /** The website link: shown only for a stored, non-empty website, always an http(s)
      address. */
  function WebsiteLink(c: CompanyCard): (r: Option<string>)
    ensures r.Some? <==> Truthy(c.companyWebsite)
    ensures r.Some? ==> StartsWith(r.value, "http") && r.value == WebsiteHref(c.companyWebsite.value)
  {
    if Truthy(c.companyWebsite) then Some(WebsiteHref(c.companyWebsite.value)) else None
  }
}
