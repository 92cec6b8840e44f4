/** The ranker stage (`Ranker` in src/ranker/interface.py). In mock mode it
    answers from a stored input/output pair when the input matches the stored
    input, and otherwise sorts the products by price, cheapest first. In real
    mode it raises. */
module Ranker {
  import opened Common
  import opened Sorting
  import opened Price
  import opened ListsMatching

  /** The sort key: a parsed price, or `float('inf')` for a price that does not
      parse. */
  datatype PriceKey = Finite(v: real) | Infinite

  /** `get_price`: `float(product.get('price', '0'))`, with `ValueError` (text
      that does not parse) and `TypeError` (a `None` price) mapped to infinity. */
  function GetPrice(p: Record): PriceKey {
    match Field(p, "price", "0")
    case Null => Infinite
    case Str(s) =>
      match ParsePrice(s)
      case Some(v) => Finite(v)
      case None => Infinite
  }

  /** The order on keys: by value, infinity last and tied with itself. */
  predicate PriceLe(a: PriceKey, b: PriceKey) {
    b.Infinite? || (a.Finite? && a.v <= b.v)
  }

  lemma PriceLeTotalPreorder()
    ensures TotalPreorder(PriceLe)
  {
  }

  /** `_basic_rank`: `[]` for no products, else `sorted(products, key=get_price)`. */
  function BasicRank(products: seq<Record>): (ranked: seq<Record>)
    ensures multiset(ranked) == multiset(products)
    ensures products == [] ==> ranked == []
  {
    if products == [] then [] else SortBy(products, GetPrice, PriceLe)
  }

  /** The ranking is cheapest first. */
  lemma BasicRankSorted(products: seq<Record>)
    ensures forall i, j :: 0 <= i < j < |BasicRank(products)| ==>
      PriceLe(GetPrice(BasicRank(products)[i]), GetPrice(BasicRank(products)[j]))
  {
    PriceLeTotalPreorder();
    SortBySorted(products, GetPrice, PriceLe);
  }

  /** Products whose prices tie keep their input order. */
  lemma BasicRankStable(products: seq<Record>, k: PriceKey)
    ensures Class(BasicRank(products), GetPrice, PriceLe, k) == Class(products, GetPrice, PriceLe, k)
  {
    PriceLeTotalPreorder();
    SortByStable(products, GetPrice, PriceLe, k);
  }

  /** A product whose price does not parse comes after every product whose
      price does. */
  lemma UnparsableLast(products: seq<Record>, i: nat, j: nat)
    requires i < |BasicRank(products)| && j < |BasicRank(products)|
    requires GetPrice(BasicRank(products)[i]).Infinite? && GetPrice(BasicRank(products)[j]).Finite?
    ensures j < i
  {
    BasicRankSorted(products);
  }

  /** A product without a price counts as price 0. */
  lemma MissingPriceIsZero(p: Record)
    requires "price" !in p
    ensures GetPrice(p) == Finite(0.0)
  {
    ParseZero();
  }

  /** So a product without a price comes before every positively priced one. */
  lemma MissingPriceBeforePositive(products: seq<Record>, i: nat, j: nat)
    requires i < |BasicRank(products)| && j < |BasicRank(products)|
    requires "price" !in BasicRank(products)[i]
    requires GetPrice(BasicRank(products)[j]).Finite? && GetPrice(BasicRank(products)[j]).v > 0.0
    ensures i < j
  {
    MissingPriceIsZero(BasicRank(products)[i]);
    BasicRankSorted(products);
  }

  /** `rank`, configured by `modules.ranker` and its `mock_ranked_results`. */
  function Rank(config: PairConfig, products: seq<Record>): (r: Result<seq<Record>>)
    ensures !UseMock(config.useMock) ==> r == Err(NotImplemented)
    ensures UseMock(config.useMock) ==>
      match ListsMatch(products, config.mockInput.GetOr([]))
      case Err(e) => r == Err(e)
      case Ok(true) => r == Ok(config.mockOutput.GetOr([]))
      case Ok(false) => r == Ok(BasicRank(products)) && multiset(r.value) == multiset(products)
  {
    if !UseMock(config.useMock) then Err(NotImplemented)
    else
      match ListsMatch(products, config.mockInput.GetOr([]))
      case Err(e) => Err(e)
      case Ok(m) => if m then Ok(config.mockOutput.GetOr([])) else Ok(BasicRank(products))
  }
}
