/** The helpers of the phase-two extractor (src/extractor/real_extractor.py):
    the per-field extraction stubs, their combination into one result, and
    the normalization that fills required fields with fallbacks. */
module RealExtractor {
  import opened Common

  datatype ExtractionMethod = CssSelector | XPath | Regex | MlModel | Llm | Template

  /** One field's extraction: `value`, `confidence`, `method` (here `via`; absent for the
      generic extractors) and `raw_matches`. */
  datatype FieldResult = FieldResult(value: Value, confidence: real, via: Option<ExtractionMethod>, rawMatches: seq<string>)

  /** `ExtractionResult`: the data and, per field, its confidence, method and
      raw matches. */
  datatype ExtractionResult = ExtractionResult(
    data: Record,
    confidenceScores: map<string, real>,
    extractionMethods: map<string, ExtractionMethod>,
    rawMatches: map<string, seq<string>>)

  /** A site template: named lists of selectors. */
  type SiteTemplate = map<string, seq<string>>

  /** The fields every extraction must carry. */
  const RequiredFields: seq<string> := ["productName", "price", "currency"]

  /** `_extract_product_name`: a fixed CSS-selector answer. */
  function ExtractProductName(html: string, template: SiteTemplate, url: string): FieldResult {
    FieldResult(Str("Mock Product Name"), 0.8, Some(CssSelector), ["Mock Product Name"])
  }

  /** `_extract_price`: a fixed regex answer. */
  function ExtractPrice(html: string, template: SiteTemplate, url: string): FieldResult {
    FieldResult(Str("999"), 0.9, Some(Regex), ["$999.00"])
  }

  /** `_extract_currency`: a fixed regex answer. */
  function ExtractCurrency(html: string, template: SiteTemplate, url: string): FieldResult {
    FieldResult(Str("USD"), 0.95, Some(Regex), ["$"])
  }

  /** What `_extract_with_css_selector`, `_extract_with_xpath`,
      `_extract_with_llm` and `_extract_with_ml_model` all return: no value,
      confidence 0, no matches. */
  function NoMatch(): FieldResult {
    FieldResult(Null, 0.0, None, [])
  }

  function ExtractWithCssSelector(html: string, selectors: seq<string>): FieldResult { NoMatch() }
  function ExtractWithXPath(html: string, expressions: seq<string>): FieldResult { NoMatch() }
  function ExtractWithLlm(html: string, field: string): FieldResult { NoMatch() }
  function ExtractWithMlModel(html: string, field: string): FieldResult { NoMatch() }

  /** The stub that `_extract_with_multiple_methods` calls for a required field. */
  function FieldExtractor(field: string, html: string, template: SiteTemplate, url: string): FieldResult {
    if field == "productName" then ExtractProductName(html, template, url)
    else if field == "price" then ExtractPrice(html, template, url)
    else ExtractCurrency(html, template, url)
  }

  /** `_extract_with_multiple_methods`: each required field from its own
      extractor, then `link` set to the URL. */
  method ExtractWithMultipleMethods(html: string, template: SiteTemplate, url: string) returns (result: ExtractionResult)
    ensures result.data.Keys == {"productName", "price", "currency", "link"}
    ensures result.data["link"] == Str(url)
    ensures forall f :: f in RequiredFields ==>
      var fr := FieldExtractor(f, html, template, url);
      && result.data[f] == fr.value
      && f in result.confidenceScores && result.confidenceScores[f] == fr.confidence
      && f in result.extractionMethods && Some(result.extractionMethods[f]) == fr.via
      && f in result.rawMatches && result.rawMatches[f] == fr.rawMatches
  {
    var data: Record := map[];
    var confidence: map<string, real> := map[];
    var methods: map<string, ExtractionMethod> := map[];
    var raw: map<string, seq<string>> := map[];

    var name := ExtractProductName(html, template, url);
    data := data["productName" := name.value];
    confidence := confidence["productName" := name.confidence];
    methods := methods["productName" := name.via.value];
    raw := raw["productName" := name.rawMatches];

    var price := ExtractPrice(html, template, url);
    data := data["price" := price.value];
    confidence := confidence["price" := price.confidence];
    methods := methods["price" := price.via.value];
    raw := raw["price" := price.rawMatches];

    var currency := ExtractCurrency(html, template, url);
    data := data["currency" := currency.value];
    confidence := confidence["currency" := currency.confidence];
    methods := methods["currency" := currency.via.value];
    raw := raw["currency" := currency.rawMatches];

    data := data["link" := Str(url)];
    result := ExtractionResult(data, confidence, methods, raw);
  }

  /** `_normalize_price` and `_normalize_currency`: `str(value)`. */
  function NormalizeText(v: Value): (s: string)
    ensures v.Str? ==> s == v.s
    ensures v.Null? ==> s == "None"
  {
    Show(v)
  }

  /** `_get_fallback_value`: a value for each required field, '' otherwise. */
  function GetFallbackValue(field: string, url: string): (v: string)
    ensures v != "" <==> field in RequiredFields
  {
    if field == "productName" then "Unknown Product"
    else if field == "price" then "0"
    else if field == "currency" then "USD"
    else ""
  }

  /** A record after the price and currency steps of `_normalize_extracted_data`. */
  function TextFields(data: Record): (d: Record)
    ensures d.Keys == data.Keys
  {
    var withPrice := if "price" in data then data["price" := Str(NormalizeText(data["price"]))] else data;
    if "currency" in withPrice then withPrice["currency" := Str(NormalizeText(withPrice["currency"]))] else withPrice
  }

  /** The value a required field ends with: its value after the text steps
      when truthy, the fallback otherwise. */
  function Required(data: Record, field: string, url: string): Value {
    var d := TextFields(data);
    if field in d && Truthy(d[field]) then d[field] else Str(GetFallbackValue(field, url))
  }

  /** The record after the fallback loop has visited `fields`. */
  function Fill(d: Record, fields: seq<string>, url: string): Record {
    if fields == [] then d
    else
      var d' := Fill(d, fields[..|fields| - 1], url);
      var f := fields[|fields| - 1];
      if f in d' && Truthy(d'[f]) then d' else d'[f := Str(GetFallbackValue(f, url))]
  }

  /** The fallback loop visits one more field. */
  lemma FillStep(d: Record, fields: seq<string>, i: nat, url: string)
    requires i < |fields|
    ensures var d' := Fill(d, fields[..i], url);
      Fill(d, fields[..i + 1], url)
        == if fields[i] in d' && Truthy(d'[fields[i]]) then d' else d'[fields[i] := Str(GetFallbackValue(fields[i], url))]
  {
    assert fields[..i + 1][..i] == fields[..i];
  }

  /** `_normalize_extracted_data`: works on a copy, turns price and currency
      into text, then gives each falsy required field its fallback. */
  method NormalizeExtractedData(data: Record, url: string) returns (normalized: Record)
    ensures normalized == Fill(TextFields(data), RequiredFields, url)
  {
    normalized := data;
    if "price" in normalized {
      normalized := normalized["price" := Str(NormalizeText(normalized["price"]))];
    }
    if "currency" in normalized {
      normalized := normalized["currency" := Str(NormalizeText(normalized["currency"]))];
    }
    ghost var start := normalized;
    assert start == TextFields(data);
    var i := 0;
    while i < |RequiredFields|
      invariant 0 <= i <= |RequiredFields|
      invariant normalized == Fill(start, RequiredFields[..i], url)
    {
      var field := RequiredFields[i];
      FillStep(start, RequiredFields, i, url);
      if !(field in normalized && Truthy(normalized[field])) {
        normalized := normalized[field := Str(GetFallbackValue(field, url))];
      }
      i := i + 1;
    }
    assert RequiredFields[..|RequiredFields|] == RequiredFields;
  }

  /** What the fallback loop leaves: the visited fields gain their fallback
      when falsy, and nothing else changes. */
  lemma {:induction false} FillMeaning(d: Record, fields: seq<string>, url: string)
    ensures Fill(d, fields, url).Keys == d.Keys + set f | f in fields
    ensures forall f :: f in fields ==>
      Fill(d, fields, url)[f] == if f in d && Truthy(d[f]) then d[f] else Str(GetFallbackValue(f, url))
    ensures forall k :: k in d && k !in fields ==> Fill(d, fields, url)[k] == d[k]
  {
    if fields != [] {
      var prefix := fields[..|fields| - 1];
      FillMeaning(d, prefix, url);
      assert forall f :: f in fields <==> f in prefix || f == fields[|fields| - 1];
    }
  }

  lemma RequiredFieldSet()
    ensures (set f | f in RequiredFields) == {"productName", "price", "currency"}
  {
  }

  /** The normalized record: the input's keys plus the three required fields;
      each required field holds its `Required` value; other keys are kept. */
  lemma NormalizedShape(data: Record, url: string)
    ensures var n := Fill(TextFields(data), RequiredFields, url);
      && n.Keys == data.Keys + {"productName", "price", "currency"}
      && (forall f :: f in RequiredFields ==> n[f] == Required(data, f, url))
      && (forall k :: k in data && k !in RequiredFields ==> n[k] == data[k])
  {
    FillMeaning(TextFields(data), RequiredFields, url);
    RequiredFieldSet();
  }

  // ---------------------------------------------------------------------
  // Properties of the normalization

  /** After normalization every required field holds non-empty text. */
  lemma RequiredFieldsFilled(data: Record, url: string, f: string)
    requires f in RequiredFields
    ensures Truthy(Required(data, f, url))
  {
  }

  /** A missing or empty field gets its fallback: "Unknown Product", "0", "USD". */
  lemma MissingFieldFallsBack(data: Record, url: string, f: string)
    requires f in RequiredFields
    requires f !in data || data[f] == Str("")
    ensures Required(data, f, url) == Str(GetFallbackValue(f, url))
  {
  }

  /** A `None` price or currency is turned into the text "None" and kept; a
      `None` product name is replaced by the fallback. */
  lemma NoneHandling(data: Record, url: string)
    ensures "price" in data && data["price"] == Null ==> Required(data, "price", url) == Str("None")
    ensures "currency" in data && data["currency"] == Null ==> Required(data, "currency", url) == Str("None")
    ensures "productName" in data && data["productName"] == Null ==>
      Required(data, "productName", url) == Str("Unknown Product")
  {
  }

  /** The combined extraction already carries every required field, so
      normalizing it keeps its values. */
  lemma ExtractionSurvivesNormalization(url: string, f: string)
    requires f in RequiredFields
    ensures var data := map["productName" := Str("Mock Product Name"), "price" := Str("999"),
                            "currency" := Str("USD"), "link" := Str(url)];
      Required(data, f, url) == data[f]
  {
  }
}
