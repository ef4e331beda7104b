/**
 * `Array.prototype.sort` with a comparator: a stable sort by a key under a
 * total preorder. Insertion places an element after every element whose key
 * is not greater, so equal keys keep their input order.
 */
module Sorting {
  import opened Text

  /** Any two keys are comparable, as a comparator function makes them. */
  ghost predicate Total<K(!new)>(le: (K, K) -> bool) {
    forall a, b :: le(a, b) || le(b, a)
  }

  ghost predicate Transitive<K(!new)>(le: (K, K) -> bool) {
    forall a, b, c :: le(a, b) && le(b, c) ==> le(a, c)
  }

  /** Each key is at most the next one. */
  predicate SortedBy<T, K>(s: seq<T>, key: T -> K, le: (K, K) -> bool) {
    forall i :: 0 < i < |s| ==> le(key(s[i - 1]), key(s[i]))
  }

  function InsertBy<T, K(!new)>(x: T, s: seq<T>, key: T -> K, le: (K, K) -> bool): (r: seq<T>)
    requires Total(le) && SortedBy(s, key, le)
    ensures multiset(r) == multiset(s) + multiset{x}
    ensures |r| == |s| + 1
    ensures SortedBy(r, key, le)
    ensures r[0] == x || (|s| > 0 && r[0] == s[0])
    decreases |s|
  {
    if s == [] then [x]
    else if !le(key(s[0]), key(x)) then
      assert le(key(x), key(s[0]));
      assert [x] + s == [x] + ([s[0]] + s[1..]);
      [x] + s
    else
      var t := InsertBy(x, s[1..], key, le);
      assert s == [s[0]] + s[1..];
      [s[0]] + t
  }

  /** The stable sort of `s` by `key`. */
  function SortBy<T, K(!new)>(s: seq<T>, key: T -> K, le: (K, K) -> bool): (r: seq<T>)
    requires Total(le)
    ensures multiset(r) == multiset(s)
    ensures |r| == |s|
    ensures SortedBy(r, key, le)
    decreases |s|
  {
    if s == [] then []
    else
      assert s == s[..|s| - 1] + [s[|s| - 1]];
      InsertBy(s[|s| - 1], SortBy(s[..|s| - 1], key, le), key, le)
  }

  /** Under a transitive order the first element of a sorted sequence is at most every element. */
  lemma {:induction false} SortedFirstLeast<T, K(!new)>(s: seq<T>, key: T -> K, le: (K, K) -> bool, i: nat)
    requires Total(le) && Transitive(le) && SortedBy(s, key, le) && i < |s|
    ensures le(key(s[0]), key(s[i]))
    ensures le(key(s[i]), key(s[|s| - 1]))
  {
    FirstBelow(s, key, le, i);
    LastAbove(s, key, le, i);
  }

  lemma {:induction false} FirstBelow<T, K(!new)>(s: seq<T>, key: T -> K, le: (K, K) -> bool, i: nat)
    requires Total(le) && Transitive(le) && SortedBy(s, key, le) && i < |s|
    ensures le(key(s[0]), key(s[i]))
    decreases i
  {
    if i > 0 {
      FirstBelow(s, key, le, i - 1);
      var a, b, c := key(s[0]), key(s[i - 1]), key(s[i]);
      assert le(a, b) && le(b, c);
    } else {
      var a := key(s[0]);
      assert le(a, a) || le(a, a);
    }
  }

  lemma {:induction false} LastAbove<T, K(!new)>(s: seq<T>, key: T -> K, le: (K, K) -> bool, i: nat)
    requires Total(le) && Transitive(le) && SortedBy(s, key, le) && i < |s|
    ensures le(key(s[i]), key(s[|s| - 1]))
    decreases |s| - i
  {
    if i < |s| - 1 {
      LastAbove(s, key, le, i + 1);
      var a, b, c := key(s[i]), key(s[i + 1]), key(s[|s| - 1]);
      assert le(a, b) && le(b, c);
    } else {
      var a := key(s[i]);
      assert le(a, a) || le(a, a);
    }
  }

  /** The default `sort()` order on strings is a total preorder. */
  lemma LexLeIsTotalOrder()
    ensures Total(LexLe) && Transitive(LexLe)
  {
    forall a, b ensures LexLe(a, b) || LexLe(b, a) { LexLeTotal(a, b); }
    forall a, b, c | LexLe(a, b) && LexLe(b, c) ensures LexLe(a, c) { LexLeTransitive(a, b, c); }
  }

  function Id(s: string): string { s }

  /** `[a, b].sort()`: the two strings in the default order. */
  function SortPair(a: string, b: string): (r: seq<string>)
  {
    LexLeIsTotalOrder();
    SortBy([a, b], Id, LexLe)
  }

  /** The sorted pair does not depend on the order the strings come in. */
  lemma SortPairSymmetric(a: string, b: string)
    ensures SortPair(a, b) == SortPair(b, a)
    ensures SortPair(a, b) == if LexLe(a, b) then [a, b] else [b, a]
  {
    SortPairIs(a, b);
    SortPairIs(b, a);
    LexLeTotal(a, b);
    if LexLe(a, b) && LexLe(b, a) {
      LexLeAntisymmetric(a, b);
    }
  }

  /** Sorting two strings puts the first in front exactly when it is not greater. */
  lemma SortPairIs(a: string, b: string)
    ensures SortPair(a, b) == if LexLe(a, b) then [a, b] else [b, a]
  {
    LexLeIsTotalOrder();
    SortTwo(a, b, Id, LexLe);
    InsertAfterOne(b, a, Id, LexLe);
  }

  /** Sorting two elements inserts the second into the first alone. */
  lemma SortTwo<T, K(!new)>(a: T, b: T, key: T -> K, le: (K, K) -> bool)
    requires Total(le)
    ensures SortBy([a, b], key, le) == InsertBy(b, [a], key, le)
  {
    assert [a, b][..1] == [a];
    assert [a][..0] == [];
  }

  /** Inserting into a one-element sequence puts the new element behind exactly when the old one is not greater. */
  lemma InsertAfterOne<T, K(!new)>(x: T, a: T, key: T -> K, le: (K, K) -> bool)
    requires Total(le)
    ensures InsertBy(x, [a], key, le) == if le(key(a), key(x)) then [a, x] else [x, a]
  {
    assert [a][1..] == [];
  }

  /** Two sorted arrangements of the same strings are the same sequence: the default order is antisymmetric. */
  lemma {:induction false} SortedStringsUnique(a: seq<string>, b: seq<string>)
    requires SortedBy(a, Id, LexLe) && SortedBy(b, Id, LexLe) && multiset(a) == multiset(b)
    ensures a == b
    decreases |a|
  {
    assert |a| == |multiset(a)| == |multiset(b)| == |b|;
    if a != [] {
      SortedHeads(a, b);
      assert a == [a[0]] + a[1..] && b == [b[0]] + b[1..];
      assert multiset(a[1..]) == multiset(a) - multiset{a[0]} by {
        assert multiset(a) == multiset{a[0]} + multiset(a[1..]);
      }
      assert multiset(b[1..]) == multiset(b) - multiset{b[0]} by {
        assert multiset(b) == multiset{b[0]} + multiset(b[1..]);
      }
      SortedSuffix(a, Id, LexLe);
      SortedSuffix(b, Id, LexLe);
      SortedStringsUnique(a[1..], b[1..]);
    }
  }

  /** Two sorted arrangements of the same non-empty strings start with the same, least, string. */
  lemma SortedHeads(a: seq<string>, b: seq<string>)
    requires SortedBy(a, Id, LexLe) && SortedBy(b, Id, LexLe) && multiset(a) == multiset(b) && |a| > 0 && |b| > 0
    ensures a[0] == b[0]
  {
    LexLeIsTotalOrder();
    assert a[0] in multiset(b) && b[0] in multiset(a);
    var j :| 0 <= j < |b| && b[j] == a[0];
    var i :| 0 <= i < |a| && a[i] == b[0];
    FirstBelow(b, Id, LexLe, j);
    FirstBelow(a, Id, LexLe, i);
    LexLeAntisymmetric(a[0], b[0]);
  }

  /** Dropping the first element keeps a sequence sorted. */
  lemma SortedSuffix<T, K>(s: seq<T>, key: T -> K, le: (K, K) -> bool)
    requires |s| > 0 && SortedBy(s, key, le)
    ensures SortedBy(s[1..], key, le)
  {
    forall i | 0 < i < |s[1..]| ensures le(key(s[1..][i - 1]), key(s[1..][i])) {
      assert s[1..][i - 1] == s[i] && s[1..][i] == s[i + 1];
    }
  }

  /** In a sequence sorted under a transitive order, every earlier key is at most every later one. */
  lemma SortedPairwise<T, K(!new)>(s: seq<T>, key: T -> K, le: (K, K) -> bool, i: nat, j: nat)
    requires Total(le) && Transitive(le) && SortedBy(s, key, le) && i <= j < |s|
    ensures le(key(s[i]), key(s[j]))
  {
    var t := s[i..];
    assert SortedBy(t, key, le) by {
      forall k | 0 < k < |t| ensures le(key(t[k - 1]), key(t[k])) {
        assert t[k - 1] == s[i + k - 1] && t[k] == s[i + k];
      }
    }
    FirstBelow(t, key, le, j - i);
    assert t[0] == s[i] && t[j - i] == s[j];
  }

  /** A prefix of a sorted sequence is sorted. */
  lemma SortedPrefix<T, K>(s: seq<T>, key: T -> K, le: (K, K) -> bool, n: nat)
    requires SortedBy(s, key, le) && n <= |s|
    ensures SortedBy(s[..n], key, le)
  {
    var r := s[..n];
    forall i | 0 < i < |r| ensures le(key(r[i - 1]), key(r[i])) {
      assert r[i - 1] == s[i - 1] && r[i] == s[i];
    }
  }

  /** Cutting a sequence at `n` splits its elements between the two parts. */
  lemma CutMultiset<T>(s: seq<T>, n: nat)
    requires n <= |s|
    ensures multiset(s) == multiset(s[..n]) + multiset(s[n..])
  {
    assert s == s[..n] + s[n..];
  }

  /** Numbers ascending, as `(a, b) => a - b` orders them. */
  function IntLe(a: int, b: int): bool { a <= b }

  /** Numbers descending, as `(a, b) => b - a` orders them. */
  function IntGe(a: int, b: int): bool { a >= b }

  lemma IntOrders()
    ensures Total(IntLe) && Transitive(IntLe) && Total(IntGe) && Transitive(IntGe)
  {
  }
}
