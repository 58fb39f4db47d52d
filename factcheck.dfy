/** Fact-checking a legal claim: one DuckDuckGo search per authoritative
    domain, the hrefs among the first `max_results` result anchors that contain
    the domain, placeholders for empty or failed searches, and a confidence
    score that counts every entry. Fetching and HTML parsing are an oracle
    giving each search's outcome. */
module FactCheck {
  import opened Wrappers
  import opened Text
  import Slicing

  const LegalSources: seq<string> := ["indiankanoon.org", "legalaffairs.gov.in", "lawmin.gov.in"]
  const DefaultMaxResults := 3
  const NoLinks := "No relevant links found."
  const FetchError := "Error occurred while fetching results."
  const UnexpectedError := "Unexpected error occurred."
  const NoSources := "No legal sources found."

  /** One search: the hrefs of the `a.result__a` anchors in page order, a
      `requests` exception, or any other exception. */
  datatype SearchOutcome = Links(hrefs: seq<string>) | RequestError | OtherError

  /** What `search_legal_sources` returns: the per-domain results, or the
      `{"error": ...}` dictionary. */
  datatype Sources = Found(results: map<string, seq<string>>) | ErrorDict(error: string)

  /** What `fact_check_legal_claim` returns. */
  datatype Verdict =
    | Checked(claim: string, verifiedSources: map<string, seq<string>>, confidenceScore: int)
    | VerdictError(error: string)

  function SearchUrl(source: string, query: string): string {
    "https://duckduckgo.com/html/?q=" + "site:" + source + " " + query
  }

  /** The inner loop: the hrefs that contain `domain`, in order. */
  function ValidLinks(hrefs: seq<string>, domain: string): (r: seq<string>)
    ensures |r| <= |hrefs|
    ensures forall h :: h in r ==> h in hrefs && Contains(h, domain)
    ensures forall h :: h in hrefs && Contains(h, domain) ==> h in r
  {
    if hrefs == [] then []
    else if Contains(hrefs[0], domain) then [hrefs[0]] + ValidLinks(hrefs[1..], domain)
    else ValidLinks(hrefs[1..], domain)
  }

  /** Filtering keeps exactly the hrefs that contain the domain, with their
      multiplicities and in their order: filtering a concatenation is the
      concatenation of the filtered parts. */
  lemma {:induction false} ValidLinksAppend(a: seq<string>, b: seq<string>, domain: string)
    ensures ValidLinks(a + b, domain) == ValidLinks(a, domain) + ValidLinks(b, domain)
  {
    if a != [] {
      assert (a + b)[0] == a[0];
      assert (a + b)[1..] == a[1..] + b;
      ValidLinksAppend(a[1..], b, domain);
      if Contains(a[0], domain) {
        assert ValidLinks(a + b, domain) == [a[0]] + ValidLinks(a[1..] + b, domain);
      } else {
        assert ValidLinks(a + b, domain) == ValidLinks(a[1..] + b, domain);
      }
    } else {
      assert a + b == b;
    }
  }

  /** The entry recorded for one domain. */
  function EntryFor(domain: string, outcome: SearchOutcome, maxResults: int): (r: seq<string>)
    ensures r != []
    ensures outcome == RequestError ==> r == [FetchError]
    ensures outcome == OtherError ==> r == [UnexpectedError]
    ensures outcome.Links? ==> r == [NoLinks] || forall h :: h in r ==> h in outcome.hrefs && Contains(h, domain)
  {
    match outcome
    case RequestError => [FetchError]
    case OtherError => [UnexpectedError]
    case Links(hrefs) =>
      var valid := ValidLinks(Slicing.PyPrefix(hrefs, maxResults), domain);
      if valid == [] then [NoLinks] else valid
  }

  /** The result dictionary: one entry per legal source, keyed by it. */
  function SourceResults(query: string, maxResults: int, fetch: string -> SearchOutcome)
    : (r: map<string, seq<string>>)
    ensures r.Keys == set d | d in LegalSources
    ensures forall d :: d in r ==> r[d] != []
    ensures forall d :: d in r ==> r[d] == EntryFor(d, fetch(SearchUrl(d, query)), maxResults)
  {
    map d | d in LegalSources :: EntryFor(d, fetch(SearchUrl(d, query)), maxResults)
  }

  /** What `search_legal_sources` returns: the result dictionary, or the
      error dictionary when it is empty, which it never is. */
  function SearchResult(query: string, maxResults: int, fetch: string -> SearchOutcome): (r: Sources)
    ensures r.Found? && r.results == SourceResults(query, maxResults, fetch)
  {
    var results := SourceResults(query, maxResults, fetch);
    assert LegalSources[0] in results;
    if results != map[] then Found(results) else ErrorDict(NoSources)
  }

  /** The inner loop of `search_legal_sources`: collect, in order, the hrefs
      that contain the domain. */
  method KeepLinks(considered: seq<string>, domain: string) returns (valid: seq<string>)
    ensures valid == ValidLinks(considered, domain)
  {
    valid := [];
    for j := 0 to |considered|
      invariant valid == ValidLinks(considered[..j], domain)
    {
      if Contains(considered[j], domain) {
        valid := valid + [considered[j]];
      }
      ValidLinksAppend(considered[..j], [considered[j]], domain);
      assert considered[..j + 1] == considered[..j] + [considered[j]];
    }
    assert considered[..|considered|] == considered;
  }

  /** `search_legal_sources`. */
  method SearchLegalSources(query: string, maxResults: int, fetch: string -> SearchOutcome)
    returns (r: Sources)
    ensures r == SearchResult(query, maxResults, fetch)
    ensures r == Found(SourceResults(query, maxResults, fetch))
    ensures r.results.Keys == set d | d in LegalSources
  {
    var results: map<string, seq<string>> := map[];
    for i := 0 to |LegalSources|
      invariant results.Keys == set d | d in LegalSources[..i]
      invariant forall d :: d in results ==>
        results[d] == EntryFor(d, fetch(SearchUrl(d, query)), maxResults)
    {
      var source := LegalSources[i];
      match fetch(SearchUrl(source, query)) {
        case RequestError =>
          results := results[source := [FetchError]];
        case OtherError =>
          results := results[source := [UnexpectedError]];
        case Links(links) =>
          var valid := KeepLinks(Slicing.PyPrefix(links, maxResults), source);
          results := results[source := if valid != [] then valid else [NoLinks]];
      }
      assert LegalSources[..i + 1] == LegalSources[..i] + [source];
    }
    assert LegalSources[..|LegalSources|] == LegalSources;
    assert results == SourceResults(query, maxResults, fetch);
    assert LegalSources[0] in results;
    r := if results != map[] then Found(results) else ErrorDict(NoSources);
  }

  /** Every entry is a non-empty list; with a non-negative `maxResults` it
      holds at most `max(maxResults, 1)` items: the links that survive the
      truncation and the filter, or one placeholder. */
  lemma EntryBounds(domain: string, outcome: SearchOutcome, maxResults: int)
    requires maxResults >= 0
    ensures 1 <= |EntryFor(domain, outcome, maxResults)| <= if maxResults > 1 then maxResults else 1
  {
  }

  /** The links kept for a domain are exactly those of the first
      `maxResults` hrefs that contain it, in order; so a matching href past
      the cut is never reported. */
  lemma EntryLinks(domain: string, hrefs: seq<string>, maxResults: int)
    requires 0 <= maxResults
    ensures var e := EntryFor(domain, Links(hrefs), maxResults);
      var kept := ValidLinks(hrefs[..Slicing.Min(maxResults, |hrefs|)], domain);
      e == (if kept == [] then [NoLinks] else kept)
  {
  }

  /** `sum(len(links) for links in sources.values())`, the values taken in
      their insertion order, which is the order of `domains`. */
  function TotalLinks(results: map<string, seq<string>>, domains: seq<string>): int {
    if domains == [] then 0
    else (if domains[0] in results then |results[domains[0]]| else 0) + TotalLinks(results, domains[1..])
  }

  /** Summing entries that each hold between `lo` and `hi` items. */
  lemma {:induction false} TotalLinksBounds(results: map<string, seq<string>>, domains: seq<string>, lo: nat, hi: nat)
    requires forall d :: d in domains ==> d in results && lo <= |results[d]| <= hi
    ensures |domains| * lo <= TotalLinks(results, domains) <= |domains| * hi
  {
    if domains != [] {
      assert domains[0] in domains;
      assert forall d :: d in domains[1..] ==> d in domains;
      TotalLinksBounds(results, domains[1..], lo, hi);
      Slicing.MulSucc(|domains| - 1, lo);
      Slicing.MulSucc(|domains| - 1, hi);
    }
  }

  /** `fact_check_legal_claim` with the default of three results per domain. */
  function FactCheckLegalClaim(claim: string, fetch: string -> SearchOutcome): (r: Verdict)
    ensures r.Checked? ==> r.claim == claim && r.verifiedSources == SourceResults(claim, DefaultMaxResults, fetch)
    ensures r.Checked? ==> r.confidenceScore == TotalLinks(r.verifiedSources, LegalSources)
  {
    match SearchResult(claim, DefaultMaxResults, fetch)
    case ErrorDict(e) => VerdictError(e)
    case Found(results) =>
      // unreachable (see FactCheckOutcome); the source returns `sources["error"]`
      // here, which the model has no value for, so the error text is arbitrary
      if "error" in results then VerdictError(NoSources)
      else Checked(claim, results, TotalLinks(results, LegalSources))
  }

  /** The error branch is unreachable: the claim is echoed unchanged, every
      legal source has an entry, and the score counts placeholders too, so it
      lies between 3 and 9. */
  lemma FactCheckOutcome(claim: string, fetch: string -> SearchOutcome)
    ensures var v := FactCheckLegalClaim(claim, fetch);
      && v.Checked?
      && v.claim == claim
      && v.verifiedSources.Keys == set d | d in LegalSources
      && 3 <= v.confidenceScore <= 9
  {
    var results := SourceResults(claim, DefaultMaxResults, fetch);
    assert "error" !in results;
    assert results.Keys == set d | d in LegalSources;
    ScoreBounds(claim, DefaultMaxResults, fetch);
  }

  /** For any non-negative `maxResults` the score is at least the number of
      legal sources and at most that number times `max(maxResults, 1)`. */
  lemma ScoreBounds(query: string, maxResults: int, fetch: string -> SearchOutcome)
    requires maxResults >= 0
    ensures var m := if maxResults > 1 then maxResults else 1;
      3 <= TotalLinks(SourceResults(query, maxResults, fetch), LegalSources) <= 3 * m
  {
    var results := SourceResults(query, maxResults, fetch);
    forall d | d in LegalSources
      ensures 1 <= |results[d]| <= if maxResults > 1 then maxResults else 1
    {
      EntryBounds(d, fetch(SearchUrl(d, query)), maxResults);
    }
    TotalLinksBounds(results, LegalSources, 1, if maxResults > 1 then maxResults else 1);
  }
}
