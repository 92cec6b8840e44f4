/** Two helpers of the phase-two search agent (src/search_agent/real_search.py):
    the search-term string and the search URL. */
module RealSearch {
  import opened Common

  /** The truthy brand, model and storage of a query, in that order. */
  function Terms(query: Record): (terms: seq<string>)
    ensures forall i :: 0 <= i < |terms| ==> terms[i] != ""
    ensures |terms| <= 3
  {
    (if Truthy(Field(query, "brand", "")) then [query["brand"].s] else [])
    + (if Truthy(Field(query, "model", "")) then [query["model"].s] else [])
    + (if Truthy(Field(query, "storage", "")) then [query["storage"].s] else [])
  }

  /** `_optimize_search_terms`: collect the terms, then join them with spaces. */
  method OptimizeSearchTerms(query: Record) returns (s: string)
    ensures s == Join(" ", Terms(query))
  {
    var terms: seq<string> := [];
    if "brand" in query && Truthy(query["brand"]) {
      terms := terms + [query["brand"].s];
    }
    if "model" in query && Truthy(query["model"]) {
      terms := terms + [query["model"].s];
    }
    if "storage" in query && Truthy(query["storage"]) {
      terms := terms + [query["storage"].s];
    }
    assert terms == Terms(query);
    s := Join(" ", terms);
  }

  /** Splitting the search string on spaces gives back the terms, provided the
      terms hold no spaces themselves: none is skipped and none is empty. */
  lemma TermsRoundTrip(query: Record)
    requires Terms(query) != []
    requires forall i :: 0 <= i < |Terms(query)| ==> ' ' !in Terms(query)[i]
    ensures Split(Join(" ", Terms(query)), ' ') == Terms(query)
  {
    SplitJoin(Terms(query), ' ');
  }

  /** Without a brand, model or storage the search string is empty. */
  lemma NoTermsEmpty(query: Record)
    requires !Truthy(Field(query, "brand", "")) && !Truthy(Field(query, "model", ""))
    requires !Truthy(Field(query, "storage", ""))
    ensures Join(" ", Terms(query)) == ""
  {
  }

  /** Keys other than brand, model and storage do not matter. */
  lemma OtherKeysIgnored(query: Record, k: string, v: Value)
    requires k != "brand" && k != "model" && k != "storage"
    ensures Terms(query[k := v]) == Terms(query)
  {
  }

  /** `_build_search_url`: a fixed search path on the site; the query and the
      site configuration are not consulted. */
  function BuildSearchUrl(query: Record, site: string, config: Record): (url: string)
    ensures |url| == |site| + 22
    ensures StartsWith(url, "https://") && url[8..8 + |site|] == site
    ensures url[8 + |site|..] == "/search?q=mock"
  {
    "https://" + site + "/search?q=mock"
  }
}
