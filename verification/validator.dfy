/** The validator stage (`Validator` in src/validator/interface.py): does an
    extracted product fit the normalized query? Mock mode first looks the pair
    up in the stored validations, then falls back to a partial match. */
module Validator {
  import opened Common
  import opened Price

  /** One entry of `mock_validations`: its `query`, `product` and `is_valid`
      entries (`None` where absent). */
  datatype ValidationCase = ValidationCase(query: Option<Record>, product: Option<Record>, isValid: Option<bool>)

  /** `modules.validator`: the `use_mock` flag and `mock_validations`. */
  datatype ValidatorConfig = ValidatorConfig(useMock: Option<bool>, validations: seq<ValidationCase>)

  /** An absent `query` or `product` entry is `None`, which equals no dictionary. */
  predicate CaseMatches(c: ValidationCase, query: Record, product: Record) {
    c.query == Some(query) && c.product == Some(product)
  }

  /** The index of the first validation case for this query and product. */
  function FirstMatch(cases: seq<ValidationCase>, query: Record, product: Record): (r: Option<nat>)
    ensures r.Some? ==> r.value < |cases| && CaseMatches(cases[r.value], query, product)
    ensures r.Some? ==> forall j :: 0 <= j < r.value ==> !CaseMatches(cases[j], query, product)
    ensures r.None? ==> forall j :: 0 <= j < |cases| ==> !CaseMatches(cases[j], query, product)
  {
    if cases == [] then None
    else if CaseMatches(cases[0], query, product) then Some(0)
    else match FirstMatch(cases[1..], query, product)
      case None => None
      case Some(i) => Some(i + 1)
  }

  /** A matching case with no matching case before it is the first match. */
  lemma FirstMatchAt(cases: seq<ValidationCase>, query: Record, product: Record, i: nat)
    requires i < |cases| && CaseMatches(cases[i], query, product)
    requires forall j :: 0 <= j < i ==> !CaseMatches(cases[j], query, product)
    ensures FirstMatch(cases, query, product) == Some(i)
  {
  }

  /** The price check of `_partial_match`: `float(product.get('price', '0')) > 0`,
      false when the price is `None` or does not parse. */
  predicate PricePositive(product: Record) {
    match Field(product, "price", "0")
    case Null => false
    case Str(s) => ParsePrice(s).Some? && ParsePrice(s).value > 0.0
  }

  /** `needle` is empty or occurs in `hay`, ignoring case. */
  predicate FoundIn(needle: string, hay: string) {
    needle == "" || Contains(Lower(hay), Lower(needle))
  }

  /** `_partial_match`. Reading brand, model or product name that is `None`
      calls `.lower()` on `None`, which raises `AttributeError`; a `None`
      storage is falsy and skipped. */
  function PartialMatch(query: Record, product: Record): (r: Result<bool>)
    ensures r.Err? <==>
      Field(query, "brand", "").Null? || Field(query, "model", "").Null? || Field(product, "productName", "").Null?
    ensures r.Err? ==> r.error == AttributeError
    ensures r.Ok? ==> (r.value <==>
      var name := Field(product, "productName", "").s;
      && FoundIn(Field(query, "brand", "").s, name)
      && FoundIn(Field(query, "model", "").s, name)
      && (Field(query, "storage", "").Str? ==> FoundIn(Field(query, "storage", "").s, name))
      && PricePositive(product))
  {
    match (Field(query, "brand", ""), Field(query, "model", ""), Field(product, "productName", ""))
    case (Str(b), Str(m), Str(n)) =>
      var brand, model, name := Lower(b), Lower(m), Lower(n);
      if brand != "" && !Contains(name, brand) then Ok(false)
      else if model != "" && !Contains(name, model) then Ok(false)
      else
        var storage := Field(query, "storage", "");
        if Truthy(storage) && !Contains(name, Lower(storage.s)) then Ok(false)
        else Ok(PricePositive(product))
    case _ => Err(AttributeError)
  }

  /** `validate`: the first stored case for the pair decides (`is_valid`
      defaulting to false); without one, the partial match decides. */
  method Validate(config: ValidatorConfig, query: Record, product: Record) returns (r: Result<bool>)
    ensures !UseMock(config.useMock) ==> r == Err(NotImplemented)
    ensures UseMock(config.useMock) ==>
      match FirstMatch(config.validations, query, product)
      case Some(i) => r == Ok(config.validations[i].isValid.GetOr(false))
      case None => r == PartialMatch(query, product)
  {
    if !UseMock(config.useMock) {
      return Err(NotImplemented);
    }
    var cases := config.validations;
    var i := 0;
    while i < |cases|
      invariant 0 <= i <= |cases|
      invariant forall j :: 0 <= j < i ==> !CaseMatches(cases[j], query, product)
    {
      if cases[i].query == Some(query) && cases[i].product == Some(product) {
        FirstMatchAt(cases, query, product, i);
        return Ok(cases[i].isValid.GetOr(false));
      }
      i := i + 1;
    }
    return PartialMatch(query, product);
  }

  // ---------------------------------------------------------------------
  // Properties of the partial match

  /** Lower-casing both sides keeps a prefix a prefix. */
  lemma StartsWithLower(s: string, prefix: string)
    requires StartsWith(s, prefix)
    ensures StartsWith(Lower(s), Lower(prefix))
  {
    assert forall i :: 0 <= i < |prefix| ==> Lower(s)[i] == LowerChar(prefix[i]);
  }

  /** Lower-casing both sides keeps a substring a substring. */
  lemma {:induction false} ContainsLower(hay: string, needle: string)
    requires Contains(hay, needle)
    ensures Contains(Lower(hay), Lower(needle))
    decreases |hay|
  {
    if StartsWith(hay, needle) {
      StartsWithLower(hay, needle);
    } else {
      ContainsLower(hay[1..], needle);
      assert Lower(hay)[1..] == Lower(hay[1..]);
    }
  }

  /** A query term that occurs verbatim in the product name passes its check. */
  lemma VerbatimFound(term: string, name: string)
    requires Contains(name, term)
    ensures FoundIn(term, name)
  {
    ContainsLower(name, term);
  }

  /** The check ignores the case of the query term: lower-casing the brand
      first changes nothing. */
  lemma BrandCaseIgnored(query: Record, product: Record, brand: string)
    ensures PartialMatch(query["brand" := Str(brand)], product)
         == PartialMatch(query["brand" := Str(Lower(brand))], product)
  {
    LowerIdempotent(brand);
  }

  /** A missing brand, model or storage imposes no constraint: dropping one
      from the query never turns a match into a mismatch. */
  lemma DropTermKeepsMatch(query: Record, product: Record, k: string)
    requires k == "brand" || k == "model" || k == "storage"
    requires PartialMatch(query, product) == Ok(true)
    ensures PartialMatch(query - {k}, product) == Ok(true)
  {
  }

  /** An empty query matches every named product with a positive price. */
  lemma EmptyQueryMatches(product: Record)
    requires Field(product, "productName", "").Str?
    ensures PartialMatch(map[], product) == Ok(PricePositive(product))
  {
  }

  /** A product without a price never matches: the default '0' is not positive. */
  lemma MissingPriceFails(query: Record, product: Record)
    requires "price" !in product
    ensures PartialMatch(query, product) != Ok(true)
  {
    ParseZero();
  }
}
