/** Site selection (src/site_selector/interface.py): `SiteSelector`, which
    looks the country up in its `sites_by_country` table after making sure the
    table knows India, and the lookups of `MockSiteSelector` and
    `RealSiteSelector`. */
module SiteSelector {
  import opened Common

  /** The sites added for country 'IN' when the table has no entry for it. */
  const IndiaSites: seq<string> := [
    "amazon.in", "flipkart.com", "croma.com", "reliancedigital.in",
    "paytmmall.com", "snapdeal.com", "shopclues.com", "indiamart.com"]

  /** `modules.site_selector`: the `use_mock` flag and `sites_by_country`. */
  datatype SelectorConfig = SelectorConfig(useMock: Option<bool>, sitesByCountry: map<string, seq<string>>)

  /** The table after the constructor's India step. */
  function WithIndiaSites(table: map<string, seq<string>>): (t: map<string, seq<string>>)
    ensures "IN" in t
    ensures "IN" in table ==> t == table
    ensures "IN" !in table ==> t["IN"] == IndiaSites && t.Keys == table.Keys + {"IN"}
    ensures forall c :: c in table ==> c in t && t[c] == table[c]
  {
    if "IN" in table then table else table["IN" := IndiaSites]
  }

  class SiteSelector {
    var useMock: bool
    var sitesByCountry: map<string, seq<string>>

    /** `SiteSelector(config)`: reads the flag (true when absent) and the
        table, then adds the India sites if 'IN' is missing. */
    constructor(config: SelectorConfig)
      ensures useMock == UseMock(config.useMock)
      ensures sitesByCountry == WithIndiaSites(config.sitesByCountry)
    {
      useMock := UseMock(config.useMock);
      sitesByCountry := config.sitesByCountry;
      new;
      if "IN" !in sitesByCountry {
        sitesByCountry := sitesByCountry["IN" := IndiaSites];
      }
    }

    /** `select_sources(country)`: the table entry, `[]` for an unknown
        country, and `[]` in real mode. */
    function SelectSources(country: string): (sites: seq<string>)
      reads this
      ensures !useMock ==> sites == []
      ensures useMock && country in sitesByCountry ==> sites == sitesByCountry[country]
      ensures useMock && country !in sitesByCountry ==> sites == []
    {
      if useMock then (if country in sitesByCountry then sitesByCountry[country] else []) else []
    }
  }

  /** A mock-mode selector built from a table without 'IN' answers India with
      the eight default sites; every country already in the table keeps its
      own list. */
  lemma IndiaAlwaysServed(table: map<string, seq<string>>, country: string)
    ensures "IN" !in table ==> WithIndiaSites(table)["IN"] == IndiaSites && |IndiaSites| == 8
    ensures country in table ==> WithIndiaSites(table)[country] == table[country]
  {
  }

  /** `MockSiteSelector.select_sites` over its parsed `sites` table: the
      category's list, else the country's 'default' list, else `[]`. */
  function MockSelectSites(sites: map<string, map<string, seq<string>>>, country: string, category: string): (r: seq<string>)
    ensures country in sites && category in sites[country] ==> r == sites[country][category]
    ensures country in sites && category !in sites[country] && "default" in sites[country] ==> r == sites[country]["default"]
    ensures country !in sites || (category !in sites[country] && "default" !in sites[country]) ==> r == []
  {
    var countrySites := if country in sites then sites[country] else map[];
    if category in countrySites then countrySites[category]
    else if "default" in countrySites then countrySites["default"]
    else []
  }

  /** The entry of one country in `RealSiteSelector`'s `countries` table: its
      `sites` list, `None` when absent. */
  datatype CountryEntry = CountryEntry(sites: Option<seq<string>>)

  /** `RealSiteSelector.select_sites`: the country's `sites`, or `[]`. */
  function RealSelectSites(countries: map<string, CountryEntry>, country: string, category: string): (r: seq<string>)
    ensures country in countries && countries[country].sites.Some? ==> r == countries[country].sites.value
    ensures country !in countries || countries[country].sites.None? ==> r == []
  {
    if country in countries then countries[country].sites.GetOr([]) else []
  }

  /** The category plays no part in `RealSiteSelector`'s answer. */
  lemma RealIgnoresCategory(countries: map<string, CountryEntry>, country: string, c1: string, c2: string)
    ensures RealSelectSites(countries, country, c1) == RealSelectSites(countries, country, c2)
  {
  }
}
