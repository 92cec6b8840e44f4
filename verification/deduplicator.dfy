/** The deduplicator stage (`Deduplicator` in src/deduplicator/interface.py).
    In mock mode it answers from a stored input/output pair when the input
    matches the stored input, and otherwise keeps the first record for each
    text key `name_price_currency`. In real mode it raises. */
module Deduplicator {
  import opened Common
  import opened ListsMatching

  /** The text key `f"{name}_{price}_{currency}"`, missing fields shown as ''. */
  function ProductKey(p: Record): string {
    Show(Field(p, "productName", "")) + "_" + Show(Field(p, "price", "")) + "_" + Show(Field(p, "currency", ""))
  }

  /** The keys of all records of `s`. */
  function KeysOf(s: seq<Record>): (keys: set<string>)
    ensures forall i :: 0 <= i < |s| ==> ProductKey(s[i]) in keys
  {
    if s == [] then {} else KeysOf(s[..|s| - 1]) + {ProductKey(s[|s| - 1])}
  }

  /** What `_basic_deduplicate` returns: each record is kept when no earlier
      record has its key. */
  function Dedup(s: seq<Record>): seq<Record> {
    if s == [] then []
    else
      var prefix := s[..|s| - 1];
      if ProductKey(s[|s| - 1]) in KeysOf(prefix) then Dedup(prefix) else Dedup(prefix) + [s[|s| - 1]]
  }

  /** `_basic_deduplicate`: one pass with a `seen` set of keys. */
  method BasicDeduplicate(products: seq<Record>) returns (unique: seq<Record>)
    ensures unique == Dedup(products)
  {
    var seen: set<string> := {};
    unique := [];
    var i := 0;
    while i < |products|
      invariant 0 <= i <= |products|
      invariant unique == Dedup(products[..i])
      invariant seen == KeysOf(products[..i])
    {
      var key := ProductKey(products[i]);
      assert products[..i + 1][..i] == products[..i];
      if key !in seen {
        seen := seen + {key};
        unique := unique + [products[i]];
      }
      i := i + 1;
    }
    assert products[..|products|] == products;
  }

  /** `deduplicate`, configured by `modules.deduplicator` and its
      `mock_deduplicated_results`. */
  method Deduplicate(config: PairConfig, products: seq<Record>) returns (r: Result<seq<Record>>)
    ensures !UseMock(config.useMock) ==> r == Err(NotImplemented)
    ensures UseMock(config.useMock) ==>
      match ListsMatch(products, config.mockInput.GetOr([]))
      case Err(e) => r == Err(e)
      case Ok(true) => r == Ok(config.mockOutput.GetOr([]))
      case Ok(false) => r == Ok(Dedup(products))
  {
    if !UseMock(config.useMock) {
      return Err(NotImplemented);
    }
    var matched := ListsMatch(products, config.mockInput.GetOr([]));
    match matched
    case Err(e) =>
      r := Err(e);
    case Ok(m) =>
      if m {
        r := Ok(config.mockOutput.GetOr([]));
      } else {
        var unique := BasicDeduplicate(products);
        r := Ok(unique);
      }
  }

  // ---------------------------------------------------------------------
  // Properties of the fallback

  /** `a` is `b` with some records dropped, order kept. */
  predicate Subsequence(a: seq<Record>, b: seq<Record>) {
    if a == [] then true
    else if b == [] then false
    else if a[|a| - 1] == b[|b| - 1] && Subsequence(a[..|a| - 1], b[..|b| - 1]) then true
    else Subsequence(a, b[..|b| - 1])
  }

  /** No two records of `s` share a key. */
  predicate KeysDistinct(s: seq<Record>) {
    forall i, j :: 0 <= i < j < |s| ==> ProductKey(s[i]) != ProductKey(s[j])
  }

  lemma {:induction false} KeysOfMember(s: seq<Record>, k: string)
    requires k in KeysOf(s)
    ensures exists i :: 0 <= i < |s| && ProductKey(s[i]) == k
  {
    if ProductKey(s[|s| - 1]) != k {
      KeysOfMember(s[..|s| - 1], k);
      var i :| 0 <= i < |s| - 1 && ProductKey(s[..|s| - 1][i]) == k;
      assert s[i] == s[..|s| - 1][i];
    }
  }

  /** The fallback drops records and never invents or reorders one. */
  lemma {:induction false} DedupSubsequence(s: seq<Record>)
    ensures Subsequence(Dedup(s), s)
  {
    if s != [] {
      var prefix := s[..|s| - 1];
      DedupSubsequence(prefix);
      var d := Dedup(prefix) + [s[|s| - 1]];
      assert d[..|d| - 1] == Dedup(prefix);
    }
  }

  /** The fallback keeps every key of its input, and only those keys. */
  lemma {:induction false} DedupKeys(s: seq<Record>)
    ensures KeysOf(Dedup(s)) == KeysOf(s)
  {
    if s != [] {
      var prefix := s[..|s| - 1];
      DedupKeys(prefix);
      var d := Dedup(prefix) + [s[|s| - 1]];
      assert d[..|d| - 1] == Dedup(prefix);
    }
  }

  /** Appending a record with a fresh key keeps the keys distinct. */
  lemma AppendFreshKey(d: seq<Record>, x: Record)
    requires KeysDistinct(d) && ProductKey(x) !in KeysOf(d)
    ensures KeysDistinct(d + [x])
  {
    var e := d + [x];
    forall i, j | 0 <= i < j < |e|
      ensures ProductKey(e[i]) != ProductKey(e[j])
    {
      assert e[i] == d[i];
      if j < |d| {
        assert e[j] == d[j];
      }
    }
  }

  /** No two records of the fallback's output share a key. */
  lemma {:induction false} DedupKeysDistinct(s: seq<Record>)
    ensures KeysDistinct(Dedup(s))
  {
    if s != [] {
      var prefix := s[..|s| - 1];
      var x := s[|s| - 1];
      DedupKeysDistinct(prefix);
      if ProductKey(x) !in KeysOf(prefix) {
        DedupKeys(prefix);
        AppendFreshKey(Dedup(prefix), x);
      }
    }
  }

  /** The record with key `k` that appears earliest in `s`. */
  function FirstWithKey(s: seq<Record>, k: string): (p: Record)
    requires k in KeysOf(s)
    ensures ProductKey(p) == k
  {
    if k in KeysOf(s[..|s| - 1]) then FirstWithKey(s[..|s| - 1], k) else s[|s| - 1]
  }

  /** For every key, the record the fallback keeps is the first one in input
      order. */
  lemma {:induction false} DedupKeepsFirst(s: seq<Record>, k: string)
    requires k in KeysOf(s)
    ensures k in KeysOf(Dedup(s))
    ensures FirstWithKey(Dedup(s), k) == FirstWithKey(s, k)
  {
    DedupKeys(s);
    var prefix := s[..|s| - 1];
    var x := s[|s| - 1];
    DedupKeys(prefix);
    if k in KeysOf(prefix) {
      DedupKeepsFirst(prefix, k);
      if ProductKey(x) !in KeysOf(prefix) {
        var d := Dedup(prefix) + [x];
        assert d[..|d| - 1] == Dedup(prefix);
      }
    } else {
      var d := Dedup(prefix) + [x];
      assert d[..|d| - 1] == Dedup(prefix);
    }
  }

  /** In a list with distinct keys, the last key does not occur before it. */
  lemma LastKeyFresh(s: seq<Record>)
    requires s != [] && KeysDistinct(s)
    ensures ProductKey(s[|s| - 1]) !in KeysOf(s[..|s| - 1])
  {
    var prefix := s[..|s| - 1];
    if ProductKey(s[|s| - 1]) in KeysOf(prefix) {
      KeysOfMember(prefix, ProductKey(s[|s| - 1]));
      assert false;
    }
  }

  /** Dropping the last record keeps the keys distinct. */
  lemma PrefixKeysDistinct(s: seq<Record>)
    requires s != [] && KeysDistinct(s)
    ensures KeysDistinct(s[..|s| - 1])
  {
    var prefix := s[..|s| - 1];
    forall i, j | 0 <= i < j < |prefix|
      ensures ProductKey(prefix[i]) != ProductKey(prefix[j])
    {
      assert prefix[i] == s[i] && prefix[j] == s[j];
    }
  }

  /** Input with distinct keys passes through unchanged. */
  lemma {:induction false} DedupDistinct(s: seq<Record>)
    requires KeysDistinct(s)
    ensures Dedup(s) == s
  {
    if s != [] {
      var prefix, x := s[..|s| - 1], s[|s| - 1];
      PrefixKeysDistinct(s);
      DedupDistinct(prefix);
      LastKeyFresh(s);
      assert Dedup(s) == Dedup(prefix) + [x];
      assert prefix + [x] == s;
    }
  }

  /** Running the fallback twice changes nothing more. */
  lemma DedupIdempotent(s: seq<Record>)
    ensures Dedup(Dedup(s)) == Dedup(s)
  {
    DedupKeysDistinct(s);
    DedupDistinct(Dedup(s));
  }

  /** The fallback never grows the list, and empty input gives empty output. */
  lemma {:induction false} DedupLength(s: seq<Record>)
    ensures |Dedup(s)| <= |s|
    ensures s == [] <==> Dedup(s) == []
  {
    if s != [] {
      DedupLength(s[..|s| - 1]);
    }
  }

  /** Two records that differ only in price, or only in currency, are both kept,
      whatever text the fields hold: with the other two fields equal, the keys
      differ. */
  lemma BothKeptWhenPriceDiffers(a: Record, name: string, p1: string, p2: string, cur: string)
    requires p1 != p2
    requires "productName" !in a && "price" !in a && "currency" !in a
    ensures var r1 := a["productName" := Str(name)]["price" := Str(p1)]["currency" := Str(cur)];
            var r2 := a["productName" := Str(name)]["price" := Str(p2)]["currency" := Str(cur)];
            Dedup([r1, r2]) == [r1, r2]
  {
    var r1 := a["productName" := Str(name)]["price" := Str(p1)]["currency" := Str(cur)];
    var r2 := a["productName" := Str(name)]["price" := Str(p2)]["currency" := Str(cur)];
    if ProductKey(r1) == ProductKey(r2) {
      KeySeparates(name, p1, cur, name, p2, cur);
      assert false;
    }
    assert KeysDistinct([r1, r2]);
    DedupDistinct([r1, r2]);
  }

  lemma BothKeptWhenCurrencyDiffers(a: Record, name: string, price: string, c1: string, c2: string)
    requires c1 != c2
    requires "productName" !in a && "price" !in a && "currency" !in a
    ensures var r1 := a["productName" := Str(name)]["price" := Str(price)]["currency" := Str(c1)];
            var r2 := a["productName" := Str(name)]["price" := Str(price)]["currency" := Str(c2)];
            Dedup([r1, r2]) == [r1, r2]
  {
    var r1 := a["productName" := Str(name)]["price" := Str(price)]["currency" := Str(c1)];
    var r2 := a["productName" := Str(name)]["price" := Str(price)]["currency" := Str(c2)];
    assert ProductKey(r1) != ProductKey(r2) by {
      var pre := name + "_" + price + "_";
      assert ProductKey(r1) == pre + c1 && ProductKey(r2) == pre + c2;
      assert (pre + c1)[|pre|..] == c1 && (pre + c2)[|pre|..] == c2;
    }
    assert KeysDistinct([r1, r2]);
    DedupDistinct([r1, r2]);
  }

  /** Two keys with the same name and the same currency are equal only when the
      prices are: the equal lengths fix where the price sits in the key. */
  lemma KeySeparates(n1: string, p1: string, c1: string, n2: string, p2: string, c2: string)
    requires n1 == n2 && c1 == c2
    requires n1 + "_" + p1 + "_" + c1 == n2 + "_" + p2 + "_" + c2
    ensures p1 == p2
  {
    var k := n1 + "_" + p1 + "_" + c1;
    var pre := n1 + "_";
    assert |p1| == |p2|;
    assert k[|pre|..] == p1 + "_" + c1;
    assert k[|pre|..] == p2 + "_" + c2;
    assert p1 == (p1 + "_" + c1)[..|p1|];
    assert p2 == (p2 + "_" + c2)[..|p2|];
  }

  /** The key is plain text joined with '_', so two different records can share
      it: name "a_1" with price "2", and name "a" with price "1_2". The fallback
      keeps only the first of them. */
  lemma KeyCollision()
    ensures var r1 := map["productName" := Str("a_1"), "price" := Str("2")];
            var r2 := map["productName" := Str("a"), "price" := Str("1_2")];
            r1 != r2 && ProductKey(r1) == ProductKey(r2) && Dedup([r1, r2]) == [r1]
  {
    var r1: Record := map["productName" := Str("a_1"), "price" := Str("2")];
    var r2: Record := map["productName" := Str("a"), "price" := Str("1_2")];
    assert r1["productName"] != r2["productName"];
    assert ProductKey(r1) == "a_1_2_";
    assert ProductKey(r2) == "a_1_2_";
    assert [r1, r2][..1] == [r1];
    assert [r1][..0] == [];
    assert KeysOf([r1]) == {ProductKey(r1)};
    assert Dedup([r1]) == [r1];
  }
}
