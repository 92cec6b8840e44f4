/** `_lists_match`, which the deduplicator and the ranker each carry verbatim:
    two product lists match when they have the same length and are equal
    after a stable sort by `productName` (a missing name sorts as ''). */
module ListsMatching {
  import opened Common
  import opened Sorting

  /** The parsed configuration of a stage that answers from a stored
      input/output pair: its `use_mock` flag and the `input_products` and
      `output_products` entries of its mock results (`None` where absent). */
  datatype PairConfig = PairConfig(
    useMock: Option<bool>,
    mockInput: Option<seq<Record>>,
    mockOutput: Option<seq<Record>>)

  /** Python's `<=` on strings: lexicographic by code point, a proper prefix first. */
  predicate StrLe(a: string, b: string) {
    a == [] || (b != [] && (a[0] < b[0] || (a[0] == b[0] && StrLe(a[1..], b[1..]))))
  }

  lemma StrLeTotal(a: string, b: string)
    ensures StrLe(a, b) || StrLe(b, a)
  {
  }

  lemma StrLeTransitive(a: string, b: string, c: string)
    requires StrLe(a, b) && StrLe(b, c)
    ensures StrLe(a, c)
  {
  }

  lemma {:induction false} StrLeAntisymmetric(a: string, b: string)
    requires StrLe(a, b) && StrLe(b, a)
    ensures a == b
  {
    if a != [] && b != [] {
      StrLeAntisymmetric(a[1..], b[1..]);
      assert a == [a[0]] + a[1..] && b == [b[0]] + b[1..];
    }
  }

  lemma StrLeTotalPreorder()
    ensures TotalPreorder(StrLe)
  {
    forall a, b ensures StrLe(a, b) || StrLe(b, a) {
      StrLeTotal(a, b);
    }
    forall a, b, c | StrLe(a, b) && StrLe(b, c) ensures StrLe(a, c) {
      StrLeTransitive(a, b, c);
    }
  }

  /** The sort key `x.get('productName', '')`; a `None` name is never compared
      (see `ListsMatch`), so its key here is immaterial. */
  function NameKey(r: Record): string {
    match Field(r, "productName", "")
    case Str(s) => s
    case Null => ""
  }

  predicate NamesAreText(l: seq<Record>) {
    forall i :: 0 <= i < |l| ==> Field(l[i], "productName", "") != Null
  }

  function SortByName(l: seq<Record>): seq<Record> {
    SortBy(l, NameKey, StrLe)
  }

  /** `_lists_match(list1, list2)`. Sorting two or more records whose keys
      include `None` makes Python compare `None` and raise `TypeError`. */
  function ListsMatch(list1: seq<Record>, list2: seq<Record>): (r: Result<bool>)
    ensures r.Err? <==> |list1| == |list2| >= 2 && !(NamesAreText(list1) && NamesAreText(list2))
    ensures r.Err? ==> r.error == TypeError
    ensures |list1| != |list2| ==> r == Ok(false)
    ensures r == Ok(true) ==> multiset(list1) == multiset(list2)
  {
    if |list1| != |list2| then Ok(false)
    else if |list1| >= 2 && !(NamesAreText(list1) && NamesAreText(list2)) then Err(TypeError)
    else Ok(SortByName(list1) == SortByName(list2))
  }

  /** With the string order, a class of tied names is exactly the records that
      carry one name. */
  lemma TieIsSameName(a: string, b: string)
    ensures Tie(StrLe, a, b) <==> a == b
  {
    if Tie(StrLe, a, b) {
      StrLeAntisymmetric(a, b);
    }
    if a == b {
      StrLeTotal(a, a);
    }
  }

  /** Sorting by name keeps each name's records in input order. */
  lemma SortByNameStable(l: seq<Record>, name: string)
    ensures Class(SortByName(l), NameKey, StrLe, name) == Class(l, NameKey, StrLe, name)
  {
    StrLeTotalPreorder();
    SortByStable(l, NameKey, StrLe, name);
  }

  /** For every product name, the records carrying it appear in the same
      order in both lists. */
  ghost predicate SameNameOrder(list1: seq<Record>, list2: seq<Record>) {
    forall name :: Class(list1, NameKey, StrLe, name) == Class(list2, NameKey, StrLe, name)
  }

  lemma SameClassesSameSort(list1: seq<Record>, list2: seq<Record>)
    requires SameNameOrder(list1, list2)
    ensures SortByName(list1) == SortByName(list2)
  {
    var s1, s2 := SortByName(list1), SortByName(list2);
    forall name
      ensures Class(s1, NameKey, StrLe, name) == Class(s2, NameKey, StrLe, name)
    {
      SortByNameStable(list1, name);
      SortByNameStable(list2, name);
    }
    StrLeTotalPreorder();
    SortBySorted(list1, NameKey, StrLe);
    SortBySorted(list2, NameKey, StrLe);
    SortedUnique(s1, s2, NameKey, StrLe);
  }

  lemma SameSortSameClasses(list1: seq<Record>, list2: seq<Record>)
    requires SortByName(list1) == SortByName(list2)
    ensures SameNameOrder(list1, list2)
  {
    forall name
      ensures Class(list1, NameKey, StrLe, name) == Class(list2, NameKey, StrLe, name)
    {
      SortByNameStable(list1, name);
      SortByNameStable(list2, name);
    }
  }

  /** What a match means: the same length and, for every product name, the
      records with that name in the same order in both lists. Records with
      different names may be arranged freely. */
  lemma {:induction false} ListsMatchMeaning(list1: seq<Record>, list2: seq<Record>)
    requires ListsMatch(list1, list2).Ok?
    ensures ListsMatch(list1, list2).value <==> |list1| == |list2| && SameNameOrder(list1, list2)
  {
    if |list1| == |list2| {
      if SortByName(list1) == SortByName(list2) {
        SameSortSameClasses(list1, list2);
      }
      if SameNameOrder(list1, list2) {
        SameClassesSameSort(list1, list2);
      }
    }
  }

  /** A list of properly named records matches itself. */
  lemma ListsMatchReflexive(l: seq<Record>)
    requires |l| < 2 || NamesAreText(l)
    ensures ListsMatch(l, l) == Ok(true)
  {
  }

  /** Two records carrying one name form that name's class, in list order. */
  lemma ClassOfPair(a: Record, b: Record, name: string)
    requires NameKey(a) == name && NameKey(b) == name
    ensures Class([a, b], NameKey, StrLe, name) == [a, b]
  {
    TieIsSameName(name, name);
    ClassCons(b, [], NameKey, StrLe, name);
    ClassCons(a, [b], NameKey, StrLe, name);
    assert [a] + [b] == [a, b] && [b] + [] == [b];
  }

  /** Matching is order-sensitive among records that share a name: two
      same-named offers listed in the opposite order do not match. */
  lemma SameNameSwapDoesNotMatch(a: Record, b: Record)
    requires a != b
    requires "productName" in a && "productName" in b
    requires a["productName"].Str? && a["productName"] == b["productName"]
    ensures ListsMatch([a, b], [b, a]) == Ok(false)
  {
    var name := a["productName"].s;
    ClassOfPair(a, b, name);
    ClassOfPair(b, a, name);
    assert [a, b] != [b, a] by {
      assert [a, b][0] != [b, a][0];
    }
    ListsMatchMeaning([a, b], [b, a]);
  }
}
