/** The query normalizer stage (src/query_normalizer/interface.py): text
    cleanup, a keyword classifier, the category-dependent attribute set of
    `RealQueryNormalizer.normalize_query`, and `QueryNormalizer.normalize`,
    which in mock mode picks a stored output by keyword. */
module QueryNormalizer {
  import opened Common

  // ---------------------------------------------------------------------
  // Text cleanup: `query.strip().replace(',', ' ').replace('  ', ' ')`

  /** The characters `str.strip()` removes: those for which `str.isspace()`
      holds. */
  predicate IsSpace(c: char) {
    ('\t' <= c <= '\r') || ('\U{1C}' <= c <= ' ') || c == '\U{85}' || c == '\U{A0}'
    || c == '\U{1680}' || ('\U{2000}' <= c <= '\U{200A}') || c == '\U{2028}' || c == '\U{2029}'
    || c == '\U{202F}' || c == '\U{205F}' || c == '\U{3000}'
  }

  /** `s.lstrip()`: only leading white space is removed. */
  function TrimStart(s: string): (r: string)
    ensures |r| <= |s| && r == s[|s| - |r|..]
    ensures forall j {:trigger IsSpace(s[j])} :: 0 <= j < |s| - |r| ==> IsSpace(s[j])
    ensures r != [] ==> !IsSpace(r[0])
  {
    if s != [] && IsSpace(s[0]) then TrimStart(s[1..]) else s
  }

  /** `s.rstrip()`: only trailing white space is removed. */
  function TrimEnd(s: string): (r: string)
    ensures |r| <= |s| && r == s[..|r|]
    ensures forall j {:trigger IsSpace(s[j])} :: |r| <= j < |s| ==> IsSpace(s[j])
    ensures r != [] ==> !IsSpace(r[|r| - 1])
  {
    if s != [] && IsSpace(s[|s| - 1]) then TrimEnd(s[..|s| - 1]) else s
  }

  /** `s.strip()`: the piece of `s` after its leading white space, with no
      white space at either end. */
  function Strip(s: string): (r: string)
    ensures |r| <= |s|
    ensures var i := |s| - |TrimStart(s)|; i + |r| <= |s| && r == s[i..i + |r|]
    ensures r != [] ==> !IsSpace(r[0]) && !IsSpace(r[|r| - 1])
  {
    var t := TrimStart(s);
    var r := TrimEnd(t);
    SliceOfSlice(s, |s| - |t|, |r|);
    assert r != [] ==> r[0] == t[0];
    r
  }

  lemma SliceOfSlice(s: string, i: nat, n: nat)
    requires i + n <= |s|
    ensures s[i..][..n] == s[i..i + n]
  {
  }

  /** What `strip` removes is white space: everything before and after the
      stripped piece, so an all-white string strips to "". */
  lemma StripRemovesOnlySpace(s: string)
    ensures var i := |s| - |TrimStart(s)|;
      (forall j {:trigger IsSpace(s[j])} :: 0 <= j < i ==> IsSpace(s[j])) &&
      (forall j {:trigger IsSpace(s[j])} :: i + |Strip(s)| <= j < |s| ==> IsSpace(s[j]))
  {
    var t := TrimStart(s);
    var i := |s| - |t|;
    forall j | i + |Strip(s)| <= j < |s|
      ensures IsSpace(s[j])
    {
      assert t[j - i] == s[j];
      assert IsSpace(t[j - i]);
    }
  }

  /** `s` with every ' ' left out. */
  function DropSpaces(s: string): string {
    if s == [] then [] else (if s[0] == ' ' then [] else [s[0]]) + DropSpaces(s[1..])
  }

  predicate NoDoubleSpace(s: string) {
    forall i :: 0 <= i < |s| - 1 ==> !(s[i] == ' ' && s[i + 1] == ' ')
  }

  predicate NoTripleSpace(s: string) {
    forall i :: 0 <= i < |s| - 2 ==> !(s[i] == ' ' && s[i + 1] == ' ' && s[i + 2] == ' ')
  }

  /** `s.replace('  ', ' ')`: one left-to-right pass that turns each
      non-overlapping pair of spaces into one space. */
  function CollapseDoubleSpace(s: string): (r: string)
    ensures |r| <= |s|
    ensures s != [] ==> r != [] && r[0] == s[0]
    ensures forall i :: 0 <= i < |r| ==> r[i] in s
  {
    if |s| >= 2 && s[0] == ' ' && s[1] == ' ' then " " + CollapseDoubleSpace(s[2..])
    else if s == [] then []
    else [s[0]] + CollapseDoubleSpace(s[1..])
  }

  /** The collapse removes spaces and nothing else. */
  lemma {:induction false} CollapseDropsOnlySpaces(s: string)
    ensures DropSpaces(CollapseDoubleSpace(s)) == DropSpaces(s)
  {
    if |s| >= 2 && s[0] == ' ' && s[1] == ' ' {
      CollapseDropsOnlySpaces(s[2..]);
      assert (" " + CollapseDoubleSpace(s[2..]))[1..] == CollapseDoubleSpace(s[2..]);
      assert s[1..][1..] == s[2..];
    } else if s != [] {
      CollapseDropsOnlySpaces(s[1..]);
      assert ([s[0]] + CollapseDoubleSpace(s[1..]))[1..] == CollapseDoubleSpace(s[1..]);
    }
  }

  /** When no three spaces stand together, the collapse leaves no double space. */
  lemma {:induction false} CollapseLeavesNoDoubleSpace(s: string)
    requires NoTripleSpace(s)
    ensures NoDoubleSpace(CollapseDoubleSpace(s))
  {
    if |s| >= 2 && s[0] == ' ' && s[1] == ' ' {
      assert NoTripleSpace(s[2..]) by {
        forall i | 0 <= i < |s[2..]| - 2
          ensures !(s[2..][i] == ' ' && s[2..][i + 1] == ' ' && s[2..][i + 2] == ' ')
        {
          assert s[2..][i] == s[i + 2];
        }
      }
      CollapseLeavesNoDoubleSpace(s[2..]);
    } else if s != [] {
      assert NoTripleSpace(s[1..]) by {
        forall i | 0 <= i < |s[1..]| - 2
          ensures !(s[1..][i] == ' ' && s[1..][i + 1] == ' ' && s[1..][i + 2] == ' ')
        {
          assert s[1..][i] == s[i + 1];
        }
      }
      CollapseLeavesNoDoubleSpace(s[1..]);
    }
  }

  /** The `normalized` text. */
  function NormalizeText(query: string): string {
    CollapseDoubleSpace(ReplaceChar(Strip(query), ',', ' '))
  }

  /** The normalized text holds no comma and is no longer than the stripped query. */
  lemma NormalizeTextShape(query: string)
    ensures ',' !in NormalizeText(query)
    ensures |NormalizeText(query)| <= |Strip(query)|
  {
    var t := ReplaceChar(Strip(query), ',', ' ');
    assert ',' !in t;
  }

  /** Text without a double space is left alone by the collapse. */
  lemma {:induction false} CollapseWithoutDoubleSpace(s: string)
    requires forall i :: 0 <= i < |s| - 1 ==> !(s[i] == ' ' && s[i + 1] == ' ')
    ensures CollapseDoubleSpace(s) == s
  {
    if s != [] {
      CollapseWithoutDoubleSpace(s[1..]);
      assert [s[0]] + s[1..] == s;
    }
  }

  /** A single pass can leave a double space behind: three spaces become two. */
  lemma OnePassOnly()
    ensures CollapseDoubleSpace("a   b") == "a  b"
  {
    assert "a   b"[1..] == "   b";
    assert "   b"[2..] == " b";
    assert " b"[1..] == "b";
    assert "b"[1..] == [];
    assert CollapseDoubleSpace("b") == "b";
    assert CollapseDoubleSpace(" b") == " b";
    assert CollapseDoubleSpace("   b") == "  b";
  }

  // ---------------------------------------------------------------------
  // Classification

  datatype Category = Smartphone | Laptop | Sports

  function CategoryName(c: Category): string {
    match c
    case Smartphone => "Smartphone"
    case Laptop => "Laptop"
    case Sports => "Sports"
  }

  predicate LaptopWord(ql: string) {
    Contains(ql, "macbook") || Contains(ql, "laptop")
  }

  predicate PhoneWord(ql: string) {
    Contains(ql, "iphone") || Contains(ql, "smartphone") || Contains(ql, "phone")
  }

  predicate SportsWord(ql: string) {
    Contains(ql, "nike") || Contains(ql, "air max") || Contains(ql, "sports")
    || Contains(ql, "shoes") || Contains(ql, "running")
  }

  predicate SamsungWord(ql: string) {
    Contains(ql, "samsung") || Contains(ql, "galaxy")
  }

  /** `_extract_category`: laptop words win over phone words, which win over
      sports words; anything else is a smartphone. */
  function ExtractCategory(query: string): (c: Category)
    ensures c == Laptop <==> LaptopWord(Lower(query))
    ensures c == Sports <==> !LaptopWord(Lower(query)) && !PhoneWord(Lower(query)) && SportsWord(Lower(query))
  {
    var ql := Lower(query);
    if LaptopWord(ql) then Laptop
    else if PhoneWord(ql) then Smartphone
    else if SportsWord(ql) then Sports
    else Smartphone
  }

  /** The classifier ignores case. */
  lemma ExtractCategoryIgnoresCase(query: string)
    ensures ExtractCategory(Lower(query)) == ExtractCategory(query)
  {
    LowerIdempotent(query);
  }

  // ---------------------------------------------------------------------
  // `RealQueryNormalizer.normalize_query`

  /** Each attribute extractor of `RealQueryNormalizer` (brand, model, storage,
      color, screen size, RAM, processor, size and type) returns `None`. */
  function Unextracted(query: string): (v: Value)
    ensures v.Null?
  {
    Null
  }

  /** The keys of `normalize_query`'s result for a category. */
  function KeysFor(c: Category): set<string> {
    {"normalized", "brand", "model", "category"} +
    match c
    case Smartphone => {"storage", "color", "screen_size"}
    case Laptop => {"storage", "ram", "screen_size", "processor"}
    case Sports => {"size", "color", "type"}
  }

  /** The attribute dictionary of `normalize_query` for a normalized text and
      its category: the base attributes, then the category's own ones. */
  method BuildAttributes(normalized: string, category: Category) returns (attrs: Record)
    ensures attrs.Keys == KeysFor(category)
    ensures attrs["normalized"] == Str(normalized)
    ensures attrs["category"] == Str(CategoryName(category))
    ensures forall k :: k in attrs && k != "normalized" && k != "category" ==> attrs[k] == Null
  {
    var none := Unextracted(normalized);
    attrs := map[
      "normalized" := Str(normalized),
      "brand" := none,
      "model" := none,
      "category" := Str(CategoryName(category))];
    match category
    case Smartphone =>
      attrs := attrs["storage" := none];
      attrs := attrs["color" := none];
      attrs := attrs["screen_size" := none];
    case Laptop =>
      attrs := attrs["storage" := none];
      attrs := attrs["ram" := none];
      attrs := attrs["screen_size" := none];
      attrs := attrs["processor" := none];
    case Sports =>
      attrs := attrs["size" := none];
      attrs := attrs["color" := none];
      attrs := attrs["type" := none];
  }

  /** `normalize_query`: the cleaned text, its category, and the attributes. */
  method NormalizeQuery(query: string, country: string) returns (attrs: Record)
    ensures attrs.Keys == KeysFor(ExtractCategory(NormalizeText(query)))
    ensures attrs["normalized"] == Str(NormalizeText(query))
    ensures attrs["category"] == Str(CategoryName(ExtractCategory(NormalizeText(query))))
    ensures forall k :: k in attrs && k != "normalized" && k != "category" ==> attrs[k] == Null
  {
    var normalized := NormalizeText(query);
    var category := ExtractCategory(normalized);
    attrs := BuildAttributes(normalized, category);
  }

  // ---------------------------------------------------------------------
  // `QueryNormalizer.normalize`

  /** `modules.query_normalizer`: the `use_mock` flag and `mock_outputs`. */
  datatype NormalizerConfig = NormalizerConfig(useMock: Option<bool>, mockOutputs: map<string, Record>)

  /** The `mock_outputs` key chosen in mock mode: laptop, then smartphone, then
      sports, then samsung words, with smartphone as the default. */
  function MockKey(query: string): (key: string)
    ensures key in {"laptop", "smartphone", "sports", "samsung"}
  {
    var ql := Lower(query);
    if LaptopWord(ql) then "laptop"
    else if PhoneWord(ql) then "smartphone"
    else if SportsWord(ql) then "sports"
    else if SamsungWord(ql) then "samsung"
    else "smartphone"
  }

  /** The fixed answer of the non-mock branch: laptop words, then sports
      words, else smartphone; there is no phone-word test. */
  function NonMockCategory(query: string): (c: Category)
    ensures c == Laptop <==> LaptopWord(Lower(query))
    ensures c == Sports <==> !LaptopWord(Lower(query)) && SportsWord(Lower(query))
  {
    var ql := Lower(query);
    if LaptopWord(ql) then Laptop
    else if SportsWord(ql) then Sports
    else Smartphone
  }

  /** The non-mock result for a category: every category key set to `None`
      apart from `category`; unlike `normalize_query`, there is no `normalized`. */
  function NonMockOutput(c: Category): (out: Record)
    ensures out.Keys == KeysFor(c) - {"normalized"}
    ensures out["category"] == Str(CategoryName(c))
    ensures forall k :: k in out && k != "category" ==> out[k] == Null
  {
    match c
    case Laptop =>
      map["brand" := Null, "model" := Null, "storage" := Null, "ram" := Null,
          "screen_size" := Null, "processor" := Null, "category" := Str("Laptop")]
    case Sports =>
      map["brand" := Null, "model" := Null, "size" := Null, "color" := Null,
          "type" := Null, "category" := Str("Sports")]
    case Smartphone =>
      map["brand" := Null, "model" := Null, "storage" := Null, "color" := Null,
          "screen_size" := Null, "category" := Str("Smartphone")]
  }

  /** `normalize`: in mock mode a copy of the chosen stored output, or `{}`
      when that key is absent; otherwise the fixed answer for the category. */
  function Normalize(config: NormalizerConfig, query: string): (out: Record)
    ensures UseMock(config.useMock) && MockKey(query) in config.mockOutputs ==>
      out == config.mockOutputs[MockKey(query)]
    ensures UseMock(config.useMock) && MockKey(query) !in config.mockOutputs ==> out == map[]
    ensures !UseMock(config.useMock) ==> out == NonMockOutput(NonMockCategory(query))
    ensures !UseMock(config.useMock) ==> "category" in out && out["category"] == Str(CategoryName(NonMockCategory(query)))
  {
    if UseMock(config.useMock) then
      var key := MockKey(query);
      if key in config.mockOutputs then config.mockOutputs[key] else map[]
    else NonMockOutput(NonMockCategory(query))
  }

  /** The `mock_outputs` key named after a category. */
  function CategoryKey(c: Category): string {
    match c
    case Smartphone => "smartphone"
    case Laptop => "laptop"
    case Sports => "sports"
  }

  /** Mock mode picks the stored output named after the classifier's category,
      except that a query whose only keywords are Samsung words picks "samsung". */
  lemma MockKeyFollowsCategory(query: string)
    ensures var ql := Lower(query);
      !SamsungWord(ql) || LaptopWord(ql) || PhoneWord(ql) || SportsWord(ql) ==>
      MockKey(query) == CategoryKey(ExtractCategory(query))
    ensures var ql := Lower(query);
      SamsungWord(ql) && !LaptopWord(ql) && !PhoneWord(ql) && !SportsWord(ql) ==> MockKey(query) == "samsung"
  {
  }

  const Mixed := "iphone running shoes"

  lemma MixedIsLower(q: string)
    requires q == Mixed
    ensures Lower(q) == q
  {
    forall i | 0 <= i < |q|
      ensures !('A' <= q[i] <= 'Z')
    {
    }
    LowerOfLower(q);
  }

  lemma MixedHasNoLaptopWord(q: string)
    requires q == Mixed
    ensures !LaptopWord(q)
  {
    assert 'm' !in q && 'l' !in q;
    NotContainedWithoutFirst(q, "macbook");
    NotContainedWithoutFirst(q, "laptop");
  }

  lemma MixedHasPhoneWord(q: string)
    requires q == Mixed
    ensures Contains(q, "iphone")
  {
    assert q[0..][..6] == "iphone";
    ContainsAt(q, "iphone", 0);
  }

  lemma MixedHasSportsWord(q: string)
    requires q == Mixed
    ensures Contains(q, "running")
  {
    assert q[7..][..7] == "running";
    ContainsAt(q, "running", 7);
  }

  /** The two branches classify differently: "iphone running shoes" is a
      smartphone to `_extract_category` but sports to non-mock `normalize`. */
  lemma NonMockDiffersFromClassifier()
    ensures ExtractCategory(Mixed) == Smartphone
    ensures NonMockCategory(Mixed) == Sports
  {
    MixedIsLower(Mixed);
    MixedHasNoLaptopWord(Mixed);
    MixedHasPhoneWord(Mixed);
    MixedHasSportsWord(Mixed);
  }
}
