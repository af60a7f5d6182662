/** Presentation rules the listing and profile pages share. */
module Display {
  import opened Text

  /** A text cut to `limit` characters with "..." appended when it is longer. */
  function Preview(s: string, limit: nat): (r: string)
    ensures |s| <= limit ==> r == s
    ensures |s| > limit ==> |r| == limit + 3 && r[..limit] == s[..limit] && r[limit..] == "..."
    ensures |r| <= limit + 3
  {
    if |s| > limit then s[..limit] + "..." else s
  }

  /** A description, or the placeholder when there is none. */
  function DescriptionText(d: string, limit: nat): (r: string)
    ensures d == "" ==> r == "No description available"
    ensures d != "" ==> r == Preview(d, limit)
  {
    if d == "" then "No description available" else Preview(d, limit)
  }

  /** The link target for a stored website: unchanged when it starts with "http", otherwise
      with "https://" in front. */
  function WebsiteHref(w: string): (r: string)
    ensures StartsWith(r, "http")
    ensures r == w || r == "https://" + w
    ensures StartsWith(w, "http") <==> r == w
  {
    if StartsWith(w, "http") then w else "https://" + w
  }

  /** A link target is its own link target. */
  lemma WebsiteHrefIdempotent(w: string)
    ensures WebsiteHref(WebsiteHref(w)) == WebsiteHref(w)
  {
  }
}
