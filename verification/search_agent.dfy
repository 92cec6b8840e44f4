/** The search agent stage (`SearchAgent.search` in
    src/search_agent/interface.py). In mock mode it lists the stored results of
    each requested site, in the order the sites are given; in real mode it
    finds nothing. */
module SearchAgent {
  import opened Common

  /** `modules.search_agent`: the `use_mock` flag and `mock_results`, the stored
      result records of each site. */
  datatype SearchConfig = SearchConfig(useMock: Option<bool>, mockResults: map<string, seq<Record>>)

  /** The record built for one stored result of `site`. */
  function Hit(site: string, result: Record): (h: Record)
    ensures h.Keys == {"site", "url", "html_file"}
    ensures h["site"] == Str(site)
    ensures h["url"] == Field(result, "url", "") && h["html_file"] == Field(result, "html_file", "")
  {
    map["site" := Str(site), "url" := Field(result, "url", ""), "html_file" := Field(result, "html_file", "")]
  }

  /** The records built for the stored results of one site, in stored order. */
  function Hits(site: string, results: seq<Record>): seq<Record> {
    if results == [] then [] else Hits(site, results[..|results| - 1]) + [Hit(site, results[|results| - 1])]
  }

  /** One record per stored result, built from that result. */
  lemma {:induction false} HitsMeaning(site: string, results: seq<Record>)
    ensures |Hits(site, results)| == |results|
    ensures forall i :: 0 <= i < |results| ==> Hits(site, results)[i] == Hit(site, results[i])
  {
    if results != [] {
      var prefix := results[..|results| - 1];
      HitsMeaning(site, prefix);
      forall i | 0 <= i < |results|
        ensures Hits(site, results)[i] == Hit(site, results[i])
      {
        if i < |prefix| {
          assert results[i] == prefix[i];
        }
      }
    }
  }

  /** The stored results of one site, or none when the site has no entry. */
  function SiteResults(mockResults: map<string, seq<Record>>, site: string): seq<Record> {
    if site in mockResults then mockResults[site] else []
  }

  /** What mock-mode `search` returns for a list of sites. */
  function SearchResults(mockResults: map<string, seq<Record>>, sites: seq<string>): seq<Record> {
    if sites == [] then []
    else
      var last := sites[|sites| - 1];
      SearchResults(mockResults, sites[..|sites| - 1]) + Hits(last, SiteResults(mockResults, last))
  }

  /** One more stored result of a site adds its record at the end. */
  lemma HitsStep(site: string, stored: seq<Record>, j: nat)
    requires j < |stored|
    ensures Hits(site, stored[..j + 1]) == Hits(site, stored[..j]) + [Hit(site, stored[j])]
  {
    assert stored[..j + 1][..j] == stored[..j];
  }

  /** One more site adds its records at the end. */
  lemma SearchStep(mockResults: map<string, seq<Record>>, sites: seq<string>, i: nat)
    requires i < |sites|
    ensures SearchResults(mockResults, sites[..i + 1])
         == SearchResults(mockResults, sites[..i]) + Hits(sites[i], SiteResults(mockResults, sites[i]))
  {
    assert sites[..i + 1][..i] == sites[..i];
  }

  /** The inner loop of `search`: appends one record per stored result. */
  method AppendHits(results: seq<Record>, site: string, stored: seq<Record>) returns (out: seq<Record>)
    ensures out == results + Hits(site, stored)
  {
    out := results;
    var j := 0;
    while j < |stored|
      invariant 0 <= j <= |stored|
      invariant out == results + Hits(site, stored[..j])
    {
      HitsStep(site, stored, j);
      out := out + [Hit(site, stored[j])];
      j := j + 1;
    }
    assert stored[..|stored|] == stored;
  }

  /** `search`: the query is not consulted in either mode. */
  method Search(config: SearchConfig, query: Record, sites: seq<string>) returns (results: seq<Record>)
    ensures UseMock(config.useMock) ==> results == SearchResults(config.mockResults, sites)
    ensures !UseMock(config.useMock) ==> results == []
  {
    if !UseMock(config.useMock) {
      return [];
    }
    results := [];
    var i := 0;
    while i < |sites|
      invariant 0 <= i <= |sites|
      invariant results == SearchResults(config.mockResults, sites[..i])
    {
      var site := sites[i];
      SearchStep(config.mockResults, sites, i);
      if site in config.mockResults {
        results := AppendHits(results, site, config.mockResults[site]);
      }
      i := i + 1;
    }
    assert sites[..|sites|] == sites;
  }

  /** Searching a concatenation of site lists concatenates the results. */
  lemma {:induction false} SearchAppend(mockResults: map<string, seq<Record>>, a: seq<string>, b: seq<string>)
    ensures SearchResults(mockResults, a + b) == SearchResults(mockResults, a) + SearchResults(mockResults, b)
    decreases |b|
  {
    if b != [] {
      var b' := b[..|b| - 1];
      assert (a + b)[..|a + b| - 1] == a + b';
      SearchAppend(mockResults, a, b');
    } else {
      assert a + b == a;
    }
  }

  /** A site without stored results contributes nothing, wherever it is listed. */
  lemma UnknownSiteContributesNothing(mockResults: map<string, seq<Record>>, a: seq<string>, site: string, b: seq<string>)
    requires site !in mockResults
    ensures SearchResults(mockResults, a + [site] + b) == SearchResults(mockResults, a + b)
  {
    assert SearchResults(mockResults, [site]) == [] by {
      assert [site][..0] == [];
      assert SiteResults(mockResults, site) == [];
    }
    SearchAppend(mockResults, a, [site]);
    SearchAppend(mockResults, a + [site], b);
    SearchAppend(mockResults, a, b);
  }

  /** The number of stored results of the listed sites, repeats counted. */
  function StoredCount(mockResults: map<string, seq<Record>>, sites: seq<string>): nat {
    if sites == [] then 0 else |SiteResults(mockResults, sites[0])| + StoredCount(mockResults, sites[1..])
  }

  /** One result per stored result of each listed site. */
  lemma {:induction false} SearchLength(mockResults: map<string, seq<Record>>, sites: seq<string>)
    ensures |SearchResults(mockResults, sites)| == StoredCount(mockResults, sites)
  {
    if sites != [] {
      HitsMeaning(sites[0], SiteResults(mockResults, sites[0]));
      SearchLength(mockResults, sites[1..]);
      SearchAppend(mockResults, [sites[0]], sites[1..]);
      assert [sites[0]] + sites[1..] == sites;
      assert [sites[0]][..0] == [];
    }
  }

  /** Every result names a listed site and carries exactly the keys site, url
      and html_file. */
  lemma {:induction false} SearchResultShape(mockResults: map<string, seq<Record>>, sites: seq<string>)
    ensures forall r: Record :: r in SearchResults(mockResults, sites) ==>
      r.Keys == {"site", "url", "html_file"} && r["site"].Str? && r["site"].s in sites
  {
    if sites != [] {
      var prefix := sites[..|sites| - 1];
      SearchResultShape(mockResults, prefix);
      var last := sites[|sites| - 1];
      forall r: Record | r in Hits(last, SiteResults(mockResults, last))
        ensures r.Keys == {"site", "url", "html_file"} && r["site"] == Str(last)
      {
        var stored := SiteResults(mockResults, last);
        HitsMeaning(last, stored);
        var i :| 0 <= i < |Hits(last, stored)| && Hits(last, stored)[i] == r;
      }
      forall r: Record | r in SearchResults(mockResults, prefix)
        ensures r["site"].Str? && r["site"].s in sites
      {
        assert r["site"].s in prefix;
      }
    }
  }
}
