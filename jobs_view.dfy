/**
 * The job search page (client/src/components/Jobs.jsx): the search box and the
 * location, salary and date-posted filters over the fetched jobs, the location
 * choices, the "days ago" label and the job card's shortened description and
 * requirement list.
 */
module JobsView {
  import opened Wrappers
  import opened Text
  import opened Seqs
  import opened JobModel
  import opened Display

  /** The page's filter state; an empty string is an unset filter. */
  datatype JobFilters = JobFilters(search: string, location: string, salary: string, datePosted: string)

  const DayMs := 1000 * 60 * 60 * 24

  /** Whole days between `createdAt` and `now`, rounded down. */
  function DaysSince(createdAt: int, now: int): (d: int)
    ensures d * 86400000 <= now - createdAt < (d + 1) * 86400000
  {
    (now - createdAt) / DayMs
  }

  /** The search term occurs, ignoring case, in the title, the company or the description. */
  predicate MatchesSearch(j: Job, term: string) {
    var t := ToLower(term);
    Contains(ToLower(j.title), t) || Contains(ToLower(j.company), t) || Contains(ToLower(j.description), t)
  }

  /** An unset location filter matches everything; otherwise a case-insensitive substring. */
  predicate MatchesLocation(j: Job, location: string) {
    location == "" || Contains(ToLower(j.location), ToLower(location))
  }

  /** An unset salary filter matches everything; otherwise a case-sensitive substring of a
      salary that is present. */
  predicate MatchesSalary(j: Job, salary: string) {
    salary == "" || (j.salary.Some? && Contains(j.salary.value, salary))
  }

  /** 'today', 'week' and 'month' keep jobs under 1, 7 and 30 days old; any other value,
      or none, keeps every job. */
  predicate MatchesDate(j: Job, datePosted: string, now: int) {
    var days := DaysSince(j.createdAt, now);
    if datePosted == "today" then days < 1
    else if datePosted == "week" then days < 7
    else if datePosted == "month" then days < 30
    else true
  }

  predicate JobMatches(j: Job, f: JobFilters, now: int) {
    MatchesSearch(j, f.search) && MatchesLocation(j, f.location) && MatchesSalary(j, f.salary)
    && MatchesDate(j, f.datePosted, now)
  }

  /** `filteredJobs`: the matching jobs, in their original order. */
  function FilterJobs(jobs: seq<Job>, f: JobFilters, now: int): (r: seq<Job>)
    ensures forall j :: j in r <==> j in jobs && JobMatches(j, f, now)
    ensures IsSubsequence(r, jobs)
  {
    Filter(jobs, j => JobMatches(j, f, now))
  }

  /** With every filter unset, the page shows every job. */
  lemma {:induction false} NoFiltersShowAll(jobs: seq<Job>, now: int)
    ensures FilterJobs(jobs, JobFilters("", "", "", ""), now) == jobs
  {
    forall i | 0 <= i < |jobs| ensures JobMatches(jobs[i], JobFilters("", "", "", ""), now) {
      ContainsEmpty(ToLower(jobs[i].title));
    }
    FilterAll(jobs, j => JobMatches(j, JobFilters("", "", "", ""), now));
  }

  /** Lower-casing twice is lower-casing once. */
  lemma ToLowerIdempotent(s: string)
    ensures ToLower(ToLower(s)) == ToLower(s)
  {
  }

  /** The search ignores the case of the term. */
  lemma SearchIgnoresCase(j: Job, term: string)
    ensures MatchesSearch(j, ToLower(term)) <==> MatchesSearch(j, term)
  {
    ToLowerIdempotent(term);
  }

  /** The date windows are nested: posted today implies this week, which implies this month. */
  lemma DateWindowsNested(j: Job, now: int)
    ensures MatchesDate(j, "today", now) ==> MatchesDate(j, "week", now)
    ensures MatchesDate(j, "week", now) ==> MatchesDate(j, "month", now)
  {
  }

  /** `locations`: each non-empty job location once. */
  function Locations(jobs: seq<Job>): (r: seq<string>)
    ensures forall l :: l in r <==> l != "" && exists i :: 0 <= i < |jobs| && jobs[i].location == l
    ensures NoDuplicates(r)
  {
    var all := Map(jobs, (j: Job) => j.location);
    var present := Filter(all, (l: string) => l != "");
    forall l | l != "" && exists i :: 0 <= i < |jobs| && jobs[i].location == l
      ensures l in present
    {
      var i :| 0 <= i < |jobs| && jobs[i].location == l;
      assert all[i] == l;
    }
    Distinct(present)
  }

  /** `getDaysAgo`. */
  function DaysAgo(createdAt: int, now: int): (r: string)
    ensures DaysSince(createdAt, now) == 0 <==> r == "Today"
    ensures DaysSince(createdAt, now) == 1 <==> r == "Yesterday"
    ensures DaysSince(createdAt, now) != 0 && DaysSince(createdAt, now) != 1 ==>
      r == IntToString(DaysSince(createdAt, now)) + " days ago"
  {
    var days := DaysSince(createdAt, now);
    if days == 0 then "Today"
    else if days == 1 then "Yesterday"
    else IntToString(days) + " days ago"
  }

  /** Different day counts get different labels. */
  lemma {:induction false} DaysAgoInjective(c1: int, c2: int, now: int)
    requires DaysAgo(c1, now) == DaysAgo(c2, now)
    ensures DaysSince(c1, now) == DaysSince(c2, now)
  {
    var d1, d2 := DaysSince(c1, now), DaysSince(c2, now);
    if d1 != 0 && d1 != 1 && d2 != 0 && d2 != 1 {
      var s1, s2 := IntToString(d1), IntToString(d2);
      assert s1 + " days ago" == s2 + " days ago";
      assert |s1| == |s2|;
      assert s1 == (s1 + " days ago")[..|s1|] == (s2 + " days ago")[..|s2|] == s2;
      IntToStringInjective(d1, d2);
    }
  }

  /** Formatting a whole number loses nothing. */
  lemma IntToStringInjective(a: int, b: int)
    requires IntToString(a) == IntToString(b)
    ensures a == b
  {
    SignOfIntToString(a);
    SignOfIntToString(b);
    if a < 0 {
      NatToStringInjective(-a, -b);
    } else {
      NatToStringInjective(a, b);
    }
  }

  /** A formatted number starts with a minus sign exactly when it is negative, and the rest
      is the formatted magnitude. */
  lemma SignOfIntToString(n: int)
    ensures n < 0 ==> IntToString(n)[0] == '-' && IntToString(n)[1..] == NatToString(-n)
    ensures n >= 0 ==> IntToString(n) == NatToString(n) && IntToString(n)[0] != '-'
  {
    if n >= 0 {
      assert '0' <= NatToString(n)[0];
    } else {
      assert IntToString(n) == "-" + NatToString(-n);
    }
  }

  lemma NatToStringInjective(a: nat, b: nat)
    requires NatToString(a) == NatToString(b)
    ensures a == b
  {
    NatToStringRoundTrip(a);
    NatToStringRoundTrip(b);
  }

  /** The job card's description: the first 200 characters and "..." when longer. */
  function CardDescription(description: string): (r: string)
    ensures description == "" ==> r == "No description available"
    ensures 0 < |description| <= 200 ==> r == description
    ensures |description| > 200 ==> |r| == 203 && r[..200] == description[..200] && r[200..] == "..."
  {
    DescriptionText(description, 200)
  }

  /** The job card's requirement list: the first three, then "..." when there are more. */
  function ShownRequirements(reqs: seq<string>): (r: seq<string>)
    ensures |reqs| <= 3 ==> r == reqs
    ensures |reqs| > 3 ==> r == reqs[..3] + ["..."]
    ensures |r| <= 4 && (r == [] <==> reqs == [])
  {
    if |reqs| > 3 then reqs[..3] + ["..."] else reqs
  }
}
