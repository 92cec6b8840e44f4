/** The extractor stage (src/extractor/interface.py): `Extractor.extract`,
    the site name `MockExtractor` derives from a URL, and
    `RealExtractor.extract_product_data`. */
module Extractor {
  import opened Common

  /** `modules.extractor`: the `use_mock` flag and `mock_extracts`, the stored
      record of each URL. */
  datatype ExtractorConfig = ExtractorConfig(useMock: Option<bool>, mockExtracts: map<string, Record>)

  /** The record returned for a URL without a stored extract. */
  function UnknownProduct(url: string): (r: Record)
    ensures r.Keys == {"productName", "price", "currency", "link"}
    ensures r["link"] == Str(url)
  {
    map["productName" := Str("Unknown Product"), "price" := Str("0"), "currency" := Str("USD"), "link" := Str(url)]
  }

  /** `extract(html, url)`: a copy of the stored extract, the default record
      for an unknown URL, and `NotImplementedError` in real mode. The HTML is
      not consulted. */
  function Extract(config: ExtractorConfig, html: string, url: string): (r: Result<Record>)
    ensures !UseMock(config.useMock) ==> r == Err(NotImplemented)
    ensures UseMock(config.useMock) && url in config.mockExtracts ==> r == Ok(config.mockExtracts[url])
    ensures UseMock(config.useMock) && url !in config.mockExtracts ==> r == Ok(UnknownProduct(url))
  {
    if !UseMock(config.useMock) then Err(NotImplemented)
    else if url !in config.mockExtracts then Ok(UnknownProduct(url))
    else Ok(config.mockExtracts[url])
  }

  /** The default record names an unknown product priced "0" in USD, so the
      validator's price check rejects it. */
  lemma UnknownProductFields(url: string)
    ensures UnknownProduct(url)["productName"] == Str("Unknown Product")
    ensures UnknownProduct(url)["price"] == Str("0") && UnknownProduct(url)["currency"] == Str("USD")
  {
  }

  /** `url.split('/')[2].replace('.', '_')`, or `None` where indexing past
      the parts raises and `MockExtractor` answers `None`. */
  function SiteName(url: string): (name: Option<string>)
    ensures name.Some? ==> '.' !in name.value
    ensures name.None? <==> |Split(url, '/')| < 3
  {
    var parts := Split(url, '/');
    if |parts| < 3 then None else Some(ReplaceChar(parts[2], '.', '_'))
  }

  /** For a URL "scheme//host/path" the site name is the host with its dots
      turned into underscores: "https://amazon.com/x" gives "amazon_com". */
  lemma SiteNameOfUrl(scheme: string, host: string, path: string)
    requires '/' !in scheme && '/' !in host
    ensures SiteName(scheme + "//" + host + "/" + path) == Some(ReplaceChar(host, '.', '_'))
  {
    var url := scheme + "//" + host + "/" + path;
    assert url == scheme + ['/'] + ("" + ['/'] + (host + ['/'] + path));
    SplitAtSeparator(scheme, '/', "" + ['/'] + (host + ['/'] + path));
    SplitAtSeparator("", '/', host + ['/'] + path);
    SplitAtSeparator(host, '/', path);
  }

  /** A URL with no '/' at all has a single part, so there is no site name. */
  lemma NoSlashNoSiteName(url: string)
    requires '/' !in url
    ensures SiteName(url) == None
  {
    SplitNoSeparator(url, '/');
  }

  /** `RealExtractor.extract_product_data`: always `None`. */
  function RealExtractProductData(html: string, url: string): (r: Option<Record>)
    ensures r.None?
  {
    None
  }
}
