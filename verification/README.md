# priceIQ pipeline stages in Dafny

priceIQ is a price-comparison pipeline. A shopper's query is normalized,
e-commerce sites are selected for the country, each site is searched, product
data is extracted from the pages found, and the extracted offers are validated
against the query, deduplicated and ranked by price. A cache keeps query
results, site data, extracted products and search results for a while.

Every stage reads a `use_mock` flag from its configuration (mock mode when the
flag is absent). In mock mode a stage returns a stored answer when its input
equals a stored input, and otherwise runs a small deterministic fallback. In
real mode it raises `NotImplementedError` or returns an empty answer. This
project models that layer of each stage, together with the in-memory cache and
the helpers of the phase-two extractor and search agent, and proves what each
of them promises.

Python dictionaries are `map<string, Value>`, where a `Value` is text or
`None` (`Common.Record`). A raised exception is the `Err` case of a `Result`:
`NotImplemented`, `TypeError` (comparing `None` with text while sorting) and
`AttributeError` (calling `.lower()` on `None`). A stage's configuration is
passed in already parsed. Reading the clock becomes a `now: real` parameter.
`datetime.now().isoformat()` becomes a `timestamp` parameter. The md5 digest
used in cache keys becomes an arbitrary `digest` function.

Modules, one per source file, plus four shared ones:

- `Common`: values, records, `Option`/`Result`, and the string operations the
  stages use (`get`, `str`, `lower`, `in`, `split`, `join`, `replace`).
- `Sorting`: Python's stable `sorted(xs, key=...)` as an insertion sort by a
  key under a total preorder, with sortedness, permutation and stability
  proved.
- `Price`: `float(price)` as a partial decimal parse.
- `ListsMatching`: `_lists_match`, which the deduplicator and the ranker carry
  in identical copies.
- `Deduplicator`, `Ranker`, `Validator`, `QueryNormalizer`, `Cache`,
  `SearchAgent`, `SiteSelector`, `Extractor`, `RealExtractor` and
  `RealSearch`: one per modelled source file.

The model follows the code where the repository's tests and the code
disagree. tests/test_real_query_normalizer.py expects brand, model and
storage to be extracted from query text. In the code, every attribute
extractor of the query normalizer returns `None`, so the model does the same
(`QueryNormalizer.Unextracted`).

The deduplication key is text joined with `'_'`, and the cache key joins its
parts with `':'`. In both cases two different inputs can produce the same key.
The model keeps these keys as written. It states the collisions as lemmas
(`Deduplicator.KeyCollision`, `Cache.QueryKeyCollision`). It proves only that
two records with the same name and the same currency share a key exactly when
their prices are equal (`Deduplicator.KeySeparates`).

## Model

| member | source | states |
|---|---|---|
| Common.Field | src/deduplicator/interface.py:142 | `d.get(k, default)`: the stored value when the key is present, the default text otherwise |
| Common.UseMock | src/site_selector/interface.py:92 | a stage is in mock mode exactly when its `use_mock` flag is not explicitly false |
| Common.Lower | src/validator/interface.py:137-148 | lower-casing keeps the length and maps each character independently |
| Common.LowerIdempotent | src/validator/interface.py:137-148 | lower-casing twice is lower-casing once |
| Common.ReplaceChar | src/extractor/interface.py:41 | `replace('.', '_')` changes exactly the matching characters and keeps the length |
| Common.Split | src/extractor/interface.py:41 | `split('/')` always yields at least one part |
| Common.SplitJoin | src/search_agent/real_search.py:275 | splitting a joined list on the separator gives the parts back when no part holds the separator |
| Common.JoinInjective | src/search_agent/real_search.py:275 | two separator-free term lists with the same joined text are equal |
| Sorting.Insert | src/ranker/interface.py:148 | inserting one element adds exactly that element to the multiset |
| Sorting.SortBy | src/ranker/interface.py:148 | `sorted` returns a permutation of its input |
| Sorting.SortBySorted | src/ranker/interface.py:148 | under a total preorder the sorted list is non-decreasing in its key |
| Sorting.InsertClass | src/ranker/interface.py:148 | inserting an element puts it ahead of every element it ties with |
| Sorting.SortByStable | src/ranker/interface.py:148 | elements with tied keys keep their input order (Python's sort is stable) |
| Sorting.SortedUnique | src/deduplicator/interface.py:122-125 | two sorted lists that agree on every class of tied keys are equal |
| Price.ParseUnsigned | src/ranker/interface.py:141-145 | an unsigned decimal never parses to a negative value |
| Price.ParsePrice | src/ranker/interface.py:141-145 | `float(price)`, `None` where Python raises `ValueError`; a negative result needs a leading '-' |
| Price.ParseNatText | src/validator/interface.py:151-157 | every written whole number parses back to itself |
| Price.ParseNegated | src/validator/interface.py:151-157 | a '-' prefix negates the parsed value |
| Price.ParseZero | src/validator/interface.py:152-155 | the default price "0" parses to zero |
| ListsMatching.ListsMatch | src/deduplicator/interface.py:107-125 | false when lengths differ; `TypeError` exactly when two or more records are sorted and a name is `None`; true only for lists that are permutations of each other |
| ListsMatching.SortByNameStable | src/deduplicator/interface.py:122-123 | sorting by name keeps each name's records in input order |
| ListsMatching.TieIsSameName | src/deduplicator/interface.py:122-123 | under string order two names tie exactly when they are equal |
| ListsMatching.SameClassesSameSort | src/deduplicator/interface.py:122-125 | lists with the same records per name, in the same order, sort to the same list |
| ListsMatching.SameSortSameClasses | src/deduplicator/interface.py:122-125 | lists that sort to the same list have the same records per name in the same order |
| ListsMatching.ListsMatchMeaning | src/deduplicator/interface.py:118-125 | two lists match exactly when they have the same length and, for every name, the same records in the same order |
| ListsMatching.ListsMatchReflexive | src/ranker/interface.py:118-125 | a list with text names matches itself |
| ListsMatching.SameNameSwapDoesNotMatch | src/ranker/interface.py:121-125 | two different records with one name, listed in opposite orders, do not match |
| Deduplicator.KeysOf | src/deduplicator/interface.py:140-146 | the seen set holds the key of every record visited |
| Deduplicator.BasicDeduplicate | src/deduplicator/interface.py:127-148 | the seen-set loop computes the fallback `Dedup` |
| Deduplicator.Deduplicate | src/deduplicator/interface.py:82-105 | `NotImplemented` in real mode; in mock mode `_lists_match` errors propagate, a matching input returns the stored output (or `[]`), any other input is deduplicated |
| Deduplicator.DedupSubsequence | src/deduplicator/interface.py:137-148 | the fallback's output is a subsequence of its input: order kept, nothing invented |
| Deduplicator.DedupKeys | src/deduplicator/interface.py:140-146 | the output has every input key and no other |
| Deduplicator.AppendFreshKey | src/deduplicator/interface.py:144-146 | adding a record whose key is not yet seen keeps the output's keys distinct |
| Deduplicator.DedupKeysDistinct | src/deduplicator/interface.py:140-146 | no two output records share a key |
| Deduplicator.FirstWithKey | src/deduplicator/interface.py:144-146 | the earliest record with a key carries that key |
| Deduplicator.DedupKeepsFirst | src/deduplicator/interface.py:144-146 | for every key the record kept is the first one with that key in input order |
| Deduplicator.DedupDistinct | src/deduplicator/interface.py:137-148 | input whose keys are already distinct passes through unchanged |
| Deduplicator.DedupIdempotent | src/deduplicator/interface.py:137-148 | deduplicating twice is deduplicating once |
| Deduplicator.DedupLength | src/deduplicator/interface.py:137-148 | the output is no longer than the input and is empty exactly when the input is |
| Deduplicator.BothKeptWhenPriceDiffers | src/deduplicator/interface.py:142 | two records that differ only in price are both kept, whatever the texts |
| Deduplicator.BothKeptWhenCurrencyDiffers | src/deduplicator/interface.py:142 | two records that differ only in currency are both kept, whatever the texts |
| Deduplicator.KeySeparates | src/deduplicator/interface.py:142 | with equal name and currency, equal keys mean equal prices, whatever the texts |
| Deduplicator.KeyCollision | src/deduplicator/interface.py:142-146 | name "a_1" with price "2" and name "a" with price "1_2" share a key, so only the first record survives |
| Ranker.PriceLeTotalPreorder | src/ranker/interface.py:141-148 | the price order, with infinity last, is a total preorder |
| Ranker.BasicRank | src/ranker/interface.py:127-150 | `_basic_rank` is a permutation of its input, and `[]` for no products |
| Ranker.BasicRankSorted | src/ranker/interface.py:141-148 | the ranking is non-decreasing in parsed price |
| Ranker.BasicRankStable | src/ranker/interface.py:148 | products with tied prices keep their input order |
| Ranker.UnparsableLast | src/ranker/interface.py:144-145 | a product whose price does not parse comes after every product whose price does |
| Ranker.MissingPriceIsZero | src/ranker/interface.py:143 | a product without a price is keyed as 0 |
| Ranker.MissingPriceBeforePositive | src/ranker/interface.py:143-148 | a product without a price comes before every positively priced product |
| Ranker.Rank | src/ranker/interface.py:82-105 | `NotImplemented` in real mode; in mock mode errors propagate, a matching input returns the stored output, any other input gets `_basic_rank`, so its result is a permutation sorted cheapest first and stable (BasicRankSorted, BasicRankStable) |
| Validator.FirstMatch | src/validator/interface.py:112-115 | the first validation case equal on query and product; none earlier matches; `None` when no case matches |
| Validator.FirstMatchAt | src/validator/interface.py:112-115 | a matching case preceded by no matching case is the one that decides |
| Validator.PartialMatch | src/validator/interface.py:123-159 | `AttributeError` exactly when brand, model or product name is `None`; otherwise true exactly when each non-empty brand, model and storage occurs case-insensitively in the product name and the price parses to a positive number |
| Validator.Validate | src/validator/interface.py:96-121 | `NotImplemented` in real mode; in mock mode the first matching case decides (`is_valid` defaulting to false), else the partial match |
| Validator.ContainsLower | src/validator/interface.py:140-148 | a substring stays a substring after lower-casing both sides |
| Validator.VerbatimFound | src/validator/interface.py:140-148 | a term occurring verbatim in the product name passes its check |
| Validator.BrandCaseIgnored | src/validator/interface.py:135-141 | lower-casing the brand does not change the outcome |
| Validator.DropTermKeepsMatch | src/validator/interface.py:140-149 | removing a brand, model or storage from a matching query keeps it matching |
| Validator.EmptyQueryMatches | src/validator/interface.py:135-159 | an empty query matches a named product exactly when its price is positive |
| Validator.MissingPriceFails | src/validator/interface.py:151-157 | a product without a price never matches |
| QueryNormalizer.Strip | src/query_normalizer/interface.py:76 | `strip()` returns a slice of the input that neither starts nor ends with white space |
| QueryNormalizer.StripRemovesOnlySpace | src/query_normalizer/interface.py:76 | everything `strip()` removes before and after the slice is white space |
| QueryNormalizer.CollapseDoubleSpace | src/query_normalizer/interface.py:76 | `replace('  ', ' ')` never lengthens the text, keeps the first character and introduces no new character |
| QueryNormalizer.CollapseDropsOnlySpaces | src/query_normalizer/interface.py:76 | the collapse removes spaces and nothing else: the non-space characters stay, in order |
| QueryNormalizer.CollapseLeavesNoDoubleSpace | src/query_normalizer/interface.py:76 | text without three spaces in a row has no double space after the collapse |
| QueryNormalizer.NormalizeTextShape | src/query_normalizer/interface.py:76 | the normalized text holds no comma and is no longer than the stripped query |
| QueryNormalizer.CollapseWithoutDoubleSpace | src/query_normalizer/interface.py:76 | text without a double space is left unchanged |
| QueryNormalizer.OnePassOnly | src/query_normalizer/interface.py:76 | a single pass turns three spaces into two, not one |
| QueryNormalizer.ExtractCategory | src/query_normalizer/interface.py:124-134 | Laptop exactly when a laptop word occurs; Sports exactly when no laptop or phone word but a sports word occurs; Smartphone otherwise |
| QueryNormalizer.ExtractCategoryIgnoresCase | src/query_normalizer/interface.py:126 | the classifier ignores case |
| QueryNormalizer.Unextracted | src/query_normalizer/interface.py:109-164 | every attribute extractor returns `None` |
| QueryNormalizer.BuildAttributes | src/query_normalizer/interface.py:79-105 | the base attributes plus the category's own keys, exactly; text and category filled in, every other attribute `None` |
| QueryNormalizer.NormalizeQuery | src/query_normalizer/interface.py:69-107 | the result has exactly the keys of its category, `normalized` and `category` are set, and every other attribute is `None` |
| QueryNormalizer.MockKey | src/query_normalizer/interface.py:195-208 | mock mode always picks one of the keys laptop, smartphone, sports, samsung |
| QueryNormalizer.NonMockCategory | src/query_normalizer/interface.py:212-240 | laptop words, then sports words, otherwise Smartphone, with no phone test |
| QueryNormalizer.NonMockOutput | src/query_normalizer/interface.py:212-240 | the non-mock result carries its category's keys, the category name, and `None` elsewhere |
| QueryNormalizer.Normalize | src/query_normalizer/interface.py:186-240 | mock mode returns the stored output for the chosen key or `{}`; otherwise exactly the fixed dictionary for the non-mock category |
| QueryNormalizer.MockKeyFollowsCategory | src/query_normalizer/interface.py:195-208 | when a query has no samsung word, or has a laptop, phone or sports word, mock mode picks the output named after the classifier's category; a query whose only keywords are samsung words picks "samsung" |
| QueryNormalizer.NonMockDiffersFromClassifier | src/query_normalizer/interface.py:129-130 | "iphone running shoes" is Smartphone for the classifier but Sports for the non-mock branch |
| Cache.EffectiveTtl | src/cache/interface.py:177-178 | a missing or zero lifetime means the default; any other lifetime is used as given |
| Cache.Purge | src/cache/interface.py:169-170 | the key is gone from both dictionaries |
| Cache.ClearSpec | src/cache/interface.py:209-214 | both dictionaries are emptied, the default lifetime kept |
| Cache.OperationsKeepAligned | src/cache/interface.py:158-216 | every operation keeps the value and expiry dictionaries on the same keys |
| Cache.SetThenGet | src/cache/interface.py:162-183 | a stored value reads back until its expiry time and reads as `None` after it |
| Cache.GetPurgesExpired | src/cache/interface.py:168-171 | reading an expired key answers `None` and removes it from both dictionaries |
| Cache.ExistsAgreesWithGet | src/cache/interface.py:196-207 | `exists` answers whether `get` would find a value, and leaves the same store |
| Cache.DeleteThenGet | src/cache/interface.py:185-194 | a deleted key reads as absent; other keys read as before |
| Cache.SetLeavesOthers | src/cache/interface.py:175-183 | storing one key does not change what another key reads |
| Cache.MockCache.constructor | src/cache/interface.py:156-160 | a new store is empty with the given default lifetime |
| Cache.MockCache.Get | src/cache/interface.py:162-173 | answer and new state are those of the `get` specification, invariant kept |
| Cache.MockCache.Set | src/cache/interface.py:175-183 | succeeds; new state is that of the `set` specification, invariant kept |
| Cache.MockCache.Delete | src/cache/interface.py:185-194 | succeeds even for an absent key; the key is removed from both dictionaries |
| Cache.MockCache.Exists | src/cache/interface.py:196-207 | answer and new state are those of the `exists` specification |
| Cache.MockCache.Clear | src/cache/interface.py:209-216 | succeeds and empties both dictionaries |
| Cache.GenerateKey | src/cache/interface.py:235-238 | every key starts with "priceiq:" |
| Cache.CacheManager.constructor | src/cache/interface.py:225-233 | the manager wraps the given store |
| Cache.CacheManager.CacheQueryResults | src/cache/interface.py:240-260 | stores the results entry under the query key with the given lifetime |
| Cache.CacheManager.GetCachedQueryResults | src/cache/interface.py:262-277 | the `results` field of a live, non-empty entry under the query key, else `None` |
| Cache.CacheManager.CacheSiteData | src/cache/interface.py:279-301 | stores the site entry under the site key |
| Cache.CacheManager.GetCachedSiteData | src/cache/interface.py:303-319 | the `data` field of the live site entry, else `None` |
| Cache.CacheManager.CacheProductData | src/cache/interface.py:321-338 | stores the product entry under the URL key |
| Cache.CacheManager.GetCachedProductData | src/cache/interface.py:340-354 | the `product_data` field of the live product entry, else `None` |
| Cache.CacheManager.CacheSearchResults | src/cache/interface.py:356-376 | stores the search entry under the query and site key |
| Cache.CacheManager.GetCachedSearchResults | src/cache/interface.py:378-393 | the `results` field of the live search entry, else `None` |
| Cache.CacheManager.InvalidateQueryCache | src/cache/interface.py:395-398 | succeeds and removes the query key |
| Cache.CacheManager.InvalidateSiteCache | src/cache/interface.py:400-403 | succeeds and removes the site key |
| Cache.CacheManager.FetchField | src/cache/interface.py:273-277 | the read shared by the four lookups: `get`, then the field of a non-empty entry |
| Cache.CacheManager.CacheStats | src/cache/interface.py:405-412 | the mock statistics count the stored entries |
| Cache.CreateCacheManager | src/cache/interface.py:432-458 | in mock mode a manager over a fresh empty store whose default lifetime is `ttl_default` or 3600 |
| Cache.QueryRoundTrip | src/cache/interface.py:240-277 | cached query results read back unchanged until their lifetime has passed |
| Cache.QueryDefaultLifetime | src/cache/interface.py:240-277 | with the default lifetime of 1800 seconds, query results read back for exactly that long and as `None` afterwards |
| Cache.InvalidatedQueryIsGone | src/cache/interface.py:395-398 | after invalidation the query's results read as `None` |
| Cache.QueryKeyCollision | src/cache/interface.py:235-238 | ("a:b", "c") and ("a", "b:c") produce the same query key |
| SearchAgent.Hit | src/search_agent/interface.py:101-105 | a result carries exactly site, url and html_file; url and html_file default to "" |
| SearchAgent.HitsMeaning | src/search_agent/interface.py:100-105 | one result per stored entry of the site, in stored order, each built from its entry |
| SearchAgent.AppendHits | src/search_agent/interface.py:100-105 | the inner loop appends exactly the site's results to those gathered so far |
| SearchAgent.Search | src/search_agent/interface.py:85-110 | mock mode concatenates the sites' results in order without consulting the query; real mode returns `[]` |
| SearchAgent.SearchAppend | src/search_agent/interface.py:98-105 | searching two site lists one after the other concatenates their results |
| SearchAgent.UnknownSiteContributesNothing | src/search_agent/interface.py:99 | a site without stored results adds nothing wherever it is listed |
| SearchAgent.SearchLength | src/search_agent/interface.py:98-105 | the result count is the sum of the listed sites' stored counts, repeats counted |
| SearchAgent.SearchResultShape | src/search_agent/interface.py:101-105 | every result names a listed site and carries exactly site, url and html_file |
| SiteSelector.WithIndiaSites | src/site_selector/interface.py:95-105 | 'IN' gets the eight default sites only when it is absent; existing entries are untouched |
| SiteSelector.SiteSelector.constructor | src/site_selector/interface.py:79-105 | the flag defaults to mock mode and the table gains the India entry when missing |
| SiteSelector.SiteSelector.SelectSources | src/site_selector/interface.py:107-123 | mock mode looks the country up, `[]` when unknown; real mode returns `[]` |
| SiteSelector.IndiaAlwaysServed | src/site_selector/interface.py:95-105 | a selector built without 'IN' serves India eight sites and leaves other countries as configured |
| SiteSelector.MockSelectSites | src/site_selector/interface.py:41-50 | the category's list, else the country's default list, else `[]` |
| SiteSelector.RealSelectSites | src/site_selector/interface.py:69-70 | the country's `sites`, or `[]` |
| SiteSelector.RealIgnoresCategory | src/site_selector/interface.py:62-70 | the category does not affect the answer |
| Extractor.UnknownProduct | src/extractor/interface.py:116-121 | the default record has exactly productName, price, currency and link, with link the URL |
| Extractor.UnknownProductFields | src/extractor/interface.py:116-121 | the default record is "Unknown Product" priced "0" in USD |
| Extractor.Extract | src/extractor/interface.py:98-126 | `NotImplemented` in real mode; in mock mode the stored extract for a known URL, else the default record |
| Extractor.SiteName | src/extractor/interface.py:41 | the site name holds no '.', and is missing exactly when the URL has fewer than three '/'-separated parts |
| Extractor.SiteNameOfUrl | src/extractor/interface.py:41 | for "scheme//host/path" the site name is the host with dots turned into underscores |
| Extractor.NoSlashNoSiteName | src/extractor/interface.py:39-60 | a URL without '/' has no site name |
| Extractor.RealExtractProductData | src/extractor/interface.py:66-73 | the real extractor always returns `None` |
| RealExtractor.ExtractWithMultipleMethods | src/extractor/real_extractor.py:118-164 | the data holds the three required fields and link = url, each field with its extractor's value, confidence, method and raw matches |
| RealExtractor.NormalizeText | src/extractor/real_extractor.py:399-433 | `str(value)`: text unchanged, `None` becomes "None" |
| RealExtractor.GetFallbackValue | src/extractor/real_extractor.py:502-518 | a non-empty fallback exactly for the three required fields, "" otherwise |
| RealExtractor.TextFields | src/extractor/real_extractor.py:381-389 | the price and currency steps keep the set of keys |
| RealExtractor.NormalizeExtractedData | src/extractor/real_extractor.py:370-397 | the copy-and-fill loop computes the fallback filling of the text-converted record |
| RealExtractor.FillMeaning | src/extractor/real_extractor.py:391-397 | filling adds the visited fields, gives each its value or fallback, and keeps every other key |
| RealExtractor.NormalizedShape | src/extractor/real_extractor.py:381-397 | the result has the input's keys plus the three required fields; other keys are unchanged |
| RealExtractor.RequiredFieldsFilled | src/extractor/real_extractor.py:391-395 | every required field ends up as non-empty text |
| RealExtractor.MissingFieldFallsBack | src/extractor/real_extractor.py:392-395 | a missing or empty required field gets "Unknown Product", "0" or "USD" |
| RealExtractor.NoneHandling | src/extractor/real_extractor.py:384-389 | a `None` price or currency becomes "None" and is kept; a `None` name gets the fallback |
| RealExtractor.ExtractionSurvivesNormalization | src/extractor/real_extractor.py:136-157 | the combined extraction's fields pass normalization unchanged |
| RealSearch.Terms | src/search_agent/real_search.py:267-273 | at most three terms, none empty |
| RealSearch.OptimizeSearchTerms | src/search_agent/real_search.py:250-275 | the search string is the truthy brand, model and storage joined by single spaces |
| RealSearch.TermsRoundTrip | src/search_agent/real_search.py:267-275 | splitting the search string on spaces gives the terms back when they hold no space |
| RealSearch.NoTermsEmpty | src/search_agent/real_search.py:275 | without brand, model and storage the search string is "" |
| RealSearch.OtherKeysIgnored | src/search_agent/real_search.py:267-275 | keys other than brand, model and storage do not affect the terms |
| RealSearch.BuildSearchUrl | src/search_agent/real_search.py:223-248 | "https://" + site + "/search?q=mock", independent of query and configuration |

## Left out

- RedisCache and the Redis branch of `get_cache_stats`: a network client over a library that is not part of this model.
- Cache.CreateCacheManager: requires mock mode, because the Redis branch is not modelled.
- The default `ttl` arguments of the four `cache_*` methods (1800, 3600, 7200 and 1800 seconds): the model's methods take the lifetime as an argument. The defaults are the constants `QueryTtl`, `SiteTtl`, `ProductTtl` and `SearchTtl`, and `Cache.QueryDefaultLifetime` states the query default's effect.
- md5 in `_generate_key` is an arbitrary `digest` function. `time.time()` and `datetime.now()` are parameters.
- YAML and file loading in every constructor, and the file-reading `Mock*` classes (`MockQueryNormalizer`, `MockRanker`, `MockValidator`, `MockDeduplicator`, `MockSearchAgent`, `MockSiteSelector`, `MockExtractor`): configuration is passed in parsed. Of `MockSiteSelector` and `MockExtractor` only the table lookup and the site-name derivation are modelled. The file-existence branch and the fixed record with a float `confidence_score` are not.
- Non-text dictionary values (numbers, floats, nested lists in records): a `Value` is text or `None`. Stored payloads of the cache are kept abstract (`Cache.Payload`).
- SiteSelector.SiteSelector.constructor: Python inserts the India entry into the configuration's own dictionary, so the caller's configuration is changed too. The model builds a new table and does not capture that aliasing.
- Price.ParsePrice: Python's `float` also accepts surrounding white space, `_` between digits, exponents, "inf" and "nan". The model treats these as unparsable. The ranker therefore sorts them last, and the validator rejects them. The model also parses into exact decimal reals, not binary64 floats. So it does not capture overflow (a digit string of 400 digits is `inf` in Python), underflow to 0.0 (a tiny positive fraction is 0.0 in Python and fails the validator's positive-price test), rounding beyond about 17 significant digits (prices that differ only there tie in Python), or non-ASCII Unicode digits, which Python accepts.
- Price.ParseNatText: holds of the exact-real parse. In Python `float(str(n))` is rounded for some `n` above 2**53.
- Ranker.UnparsableLast: in Python a price that overflows to `inf` ties with unparsable prices and keeps its input position among them. In the model it is a finite price and comes before every unparsable one.
- Common.Lower: ASCII letters only. Python lower-cases all of Unicode.
- Ranker `_calculate_score` and all of src/ranker/real_ranker.py: float scoring. `_fallback_ranking` repeats `_basic_rank`.
- src/validator/real_validator.py, src/query_normalizer/real_normalizer.py and src/scraper/: constant stubs, asynchronous browser code and file reads.
- src/search_agent/real_search.py other than `_optimize_search_terms` and `_build_search_url`: asynchronous plumbing and constant stubs.
- `RealExtractor.extract_product_data` (the phase-two class) and its outer wrapping with a timestamp, `_extract_site_from_url` (constant "amazon"), `_get_site_template` and template loading. The numeric confidence map of `ExtractionResult` is kept as `real`.
- src/orchestrator/interface.py: it only wires the stages together and prints.
