/** Python's `sorted(xs, key=...)`: a stable sort by a key, specified by an
    insertion sort. Python orders keys with `<`; here the order is a relation
    `le` on keys that must be a total preorder for the sort to mean anything. */
module Sorting {

  ghost predicate TotalPreorder<K(!new)>(le: (K, K) -> bool) {
    && (forall a, b :: le(a, b) || le(b, a))
    && (forall a, b, c :: le(a, b) && le(b, c) ==> le(a, c))
  }

  /** Two keys that neither precedes strictly: they tie. */
  predicate Tie<K>(le: (K, K) -> bool, a: K, b: K) {
    le(a, b) && le(b, a)
  }

  ghost predicate SortedBy<T, K>(s: seq<T>, key: T -> K, le: (K, K) -> bool) {
    forall i, j :: 0 <= i < j < |s| ==> le(key(s[i]), key(s[j]))
  }

  /** Places `x` in front of the first element whose key it does not exceed. */
  function Insert<T, K>(x: T, s: seq<T>, key: T -> K, le: (K, K) -> bool): (r: seq<T>)
    ensures multiset(r) == multiset(s) + multiset{x}
  {
    if s == [] then [x]
    else if le(key(x), key(s[0])) then [x] + s
    else
      assert s == [s[0]] + s[1..];
      [s[0]] + Insert(x, s[1..], key, le)
  }

  function SortBy<T, K>(s: seq<T>, key: T -> K, le: (K, K) -> bool): (r: seq<T>)
    ensures multiset(r) == multiset(s)
  {
    if s == [] then []
    else
      assert s == [s[0]] + s[1..];
      Insert(s[0], SortBy(s[1..], key, le), key, le)
  }

  /** The elements of `s` whose key ties with `k`, in their order in `s`. A sort
      is stable when it leaves every such class as it found it. */
  function Class<T, K>(s: seq<T>, key: T -> K, le: (K, K) -> bool, k: K): seq<T> {
    if s == [] then []
    else (if Tie(le, key(s[0]), k) then [s[0]] else []) + Class(s[1..], key, le, k)
  }

  lemma {:induction false} InsertSorted<T, K(!new)>(x: T, s: seq<T>, key: T -> K, le: (K, K) -> bool)
    requires TotalPreorder(le) && SortedBy(s, key, le)
    ensures SortedBy(Insert(x, s, key, le), key, le)
  {
    if s != [] && !le(key(x), key(s[0])) {
      var r := Insert(x, s[1..], key, le);
      InsertSorted(x, s[1..], key, le);
      forall j | 0 <= j < |r|
        ensures le(key(s[0]), key(r[j]))
      {
        assert r[j] in multiset(r);
        if r[j] != x {
          assert r[j] in multiset(s[1..]);
          var i :| 0 <= i < |s[1..]| && s[1..][i] == r[j];
          assert s[i + 1] == r[j];
        }
      }
    }
  }

  lemma {:induction false} SortBySorted<T, K(!new)>(s: seq<T>, key: T -> K, le: (K, K) -> bool)
    requires TotalPreorder(le)
    ensures SortedBy(SortBy(s, key, le), key, le)
  {
    if s != [] {
      SortBySorted(s[1..], key, le);
      InsertSorted(s[0], SortBy(s[1..], key, le), key, le);
    }
  }

  /** One step of `Class`: the head's contribution, then the tail's class. */
  lemma ClassCons<T, K>(y: T, t: seq<T>, key: T -> K, le: (K, K) -> bool, k: K)
    ensures Class([y] + t, key, le, k) == (if Tie(le, key(y), k) then [y] else []) + Class(t, key, le, k)
  {
    assert ([y] + t)[1..] == t;
  }

  /** Keys out of order cannot both tie with a third. */
  lemma NotBothTied<K(!new)>(le: (K, K) -> bool, a: K, b: K, k: K)
    requires TotalPreorder(le) && !le(a, b)
    ensures !(Tie(le, a, k) && Tie(le, b, k))
  {
  }

  /** Two pieces of which one is empty can be swapped. */
  lemma SwapEmpty<T>(a: seq<T>, b: seq<T>, c: seq<T>)
    requires a == [] || b == []
    ensures a + (b + c) == b + (a + c)
  {
    if a == [] {
      assert a + (b + c) == b + c && b + (a + c) == b + c;
    } else {
      assert a + (b + c) == a + c && b + (a + c) == a + c;
    }
  }

  /** The step of `InsertClass` where `x` moves past the head of `s`: the head's
      contribution and `x`'s cannot both be present, so their order is moot. */
  lemma InsertClassPast<T, K(!new)>(x: T, s: seq<T>, key: T -> K, le: (K, K) -> bool, k: K)
    requires TotalPreorder(le) && s != [] && !le(key(x), key(s[0]))
    requires Class(Insert(x, s[1..], key, le), key, le, k)
          == (if Tie(le, key(x), k) then [x] else []) + Class(s[1..], key, le, k)
    ensures Class(Insert(x, s, key, le), key, le, k)
         == (if Tie(le, key(x), k) then [x] else []) + Class(s, key, le, k)
  {
    var t := Insert(x, s[1..], key, le);
    var cx := if Tie(le, key(x), k) then [x] else [];
    var c0 := if Tie(le, key(s[0]), k) then [s[0]] else [];
    assert Insert(x, s, key, le) == [s[0]] + t;
    ClassCons(s[0], t, key, le, k);
    ClassCons(s[0], s[1..], key, le, k);
    assert [s[0]] + s[1..] == s;
    NotBothTied(le, key(x), key(s[0]), k);
    SwapEmpty(c0, cx, Class(s[1..], key, le, k));
  }

  lemma {:induction false} InsertClass<T, K(!new)>(x: T, s: seq<T>, key: T -> K, le: (K, K) -> bool, k: K)
    requires TotalPreorder(le)
    ensures Class(Insert(x, s, key, le), key, le, k)
         == (if Tie(le, key(x), k) then [x] else []) + Class(s, key, le, k)
  {
    if s == [] {
      ClassCons(x, s, key, le, k);
      assert [x] + s == [x] == Insert(x, s, key, le);
    } else if le(key(x), key(s[0])) {
      ClassCons(x, s, key, le, k);
      assert Insert(x, s, key, le) == [x] + s;
    } else {
      InsertClass(x, s[1..], key, le, k);
      InsertClassPast(x, s, key, le, k);
    }
  }

  /** Sorting keeps every class of tied keys in input order. */
  lemma {:induction false} SortByStable<T, K(!new)>(s: seq<T>, key: T -> K, le: (K, K) -> bool, k: K)
    requires TotalPreorder(le)
    ensures Class(SortBy(s, key, le), key, le, k) == Class(s, key, le, k)
  {
    if s != [] {
      SortByStable(s[1..], key, le, k);
      InsertClass(s[0], SortBy(s[1..], key, le), key, le, k);
    }
  }

  lemma {:induction false} ClassMember<T, K>(s: seq<T>, key: T -> K, le: (K, K) -> bool, k: K, j: nat)
    requires j < |Class(s, key, le, k)|
    ensures exists i :: 0 <= i < |s| && s[i] == Class(s, key, le, k)[j]
    ensures Tie(le, key(Class(s, key, le, k)[j]), k)
  {
    if s != [] {
      if Tie(le, key(s[0]), k) {
        if j > 0 {
          ClassMember(s[1..], key, le, k, j - 1);
          var i :| 0 <= i < |s[1..]| && s[1..][i] == Class(s[1..], key, le, k)[j - 1];
          assert s[i + 1] == Class(s, key, le, k)[j];
        }
      } else {
        ClassMember(s[1..], key, le, k, j);
        var i :| 0 <= i < |s[1..]| && s[1..][i] == Class(s[1..], key, le, k)[j];
        assert s[i + 1] == Class(s, key, le, k)[j];
      }
    }
  }

  lemma ClassOfFirst<T, K(!new)>(s: seq<T>, key: T -> K, le: (K, K) -> bool)
    requires TotalPreorder(le) && s != []
    ensures Class(s, key, le, key(s[0])) != []
  {
    assert le(key(s[0]), key(s[0]));
  }

  /** Two sorted sequences with the same classes are the same sequence: a
      stable sort's output is determined by its classes. */
  lemma {:induction false} SortedUnique<T, K(!new)>(a: seq<T>, b: seq<T>, key: T -> K, le: (K, K) -> bool)
    requires TotalPreorder(le)
    requires SortedBy(a, key, le) && SortedBy(b, key, le)
    requires forall k :: Class(a, key, le, k) == Class(b, key, le, k)
    ensures a == b
    decreases |a| + |b|
  {
    if a == [] && b == [] {
    } else if a == [] {
      ClassOfFirst(b, key, le);
      assert false;
    } else if b == [] {
      ClassOfFirst(a, key, le);
      assert false;
    } else {
      var x, y := a[0], b[0];
      // x's class is non-empty in b, and y comes no later than its first member
      assert Class(b, key, le, key(x)) == Class(a, key, le, key(x)) != [];
      ClassMember(b, key, le, key(x), 0);
      var i :| 0 <= i < |b| && b[i] == Class(b, key, le, key(x))[0];
      assert le(key(y), key(b[i]));
      assert le(key(y), key(x));
      assert Class(a, key, le, key(y)) == Class(b, key, le, key(y)) != [];
      ClassMember(a, key, le, key(y), 0);
      var i' :| 0 <= i' < |a| && a[i'] == Class(a, key, le, key(y))[0];
      assert le(key(x), key(a[i']));
      assert le(key(x), key(y));
      assert x == y by {
        assert Class(a, key, le, key(x))[0] == x;
        assert Class(b, key, le, key(x))[0] == y;
      }
      forall k
        ensures Class(a[1..], key, le, k) == Class(b[1..], key, le, k)
      {
        var p := if Tie(le, key(x), k) then [x] else [];
        assert Class(a, key, le, k) == p + Class(a[1..], key, le, k);
        assert Class(b, key, le, k) == p + Class(b[1..], key, le, k);
        assert Class(a, key, le, k) == Class(b, key, le, k);
        assert Class(a[1..], key, le, k) == Class(a, key, le, k)[|p|..];
        assert Class(b[1..], key, le, k) == Class(b, key, le, k)[|p|..];
      }
      SortedUnique(a[1..], b[1..], key, le);
      assert a == [x] + a[1..] && b == [y] + b[1..];
    }
  }
}
