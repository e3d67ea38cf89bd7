/** Ordering of case rows by identifier: pandas' `sort_values` on a string
    column compares Python strings, code point by code point, a proper
    prefix first. */
module Sorting {

  /** Python's `a <= b` on strings. */
  predicate StrLe(a: string, b: string) {
    |a| == 0 || (|b| > 0 && (a[0] < b[0] || (a[0] == b[0] && StrLe(a[1..], b[1..]))))
  }

  lemma {:induction false} StrLeTotal(a: string, b: string)
    ensures StrLe(a, b) || StrLe(b, a)
  {
    if |a| > 0 && |b| > 0 && a[0] == b[0] {
      StrLeTotal(a[1..], b[1..]);
    }
  }

  lemma {:induction false} StrLeTransitive(a: string, b: string, c: string)
    requires StrLe(a, b) && StrLe(b, c)
    ensures StrLe(a, c)
  {
    if |a| > 0 && a[0] == b[0] && b[0] == c[0] {
      StrLeTransitive(a[1..], b[1..], c[1..]);
    }
  }

  /** Every element's key is at most every later element's key. */
  predicate SortedBy<T>(s: seq<T>, key: T -> string) {
    forall i, j :: 0 <= i < j < |s| ==> StrLe(key(s[i]), key(s[j]))
  }

  function Insert<T>(x: T, s: seq<T>, key: T -> string): (r: seq<T>)
    requires SortedBy(s, key)
    ensures SortedBy(r, key)
    ensures |r| == |s| + 1
    ensures multiset(r) == multiset(s) + multiset{x}
  {
    if |s| == 0 then [x]
    else if StrLe(key(x), key(s[0])) then
      assert forall j :: 0 <= j < |s| ==> StrLe(key(x), key(s[j])) by {
        forall j | 0 <= j < |s| ensures StrLe(key(x), key(s[j])) {
          if j > 0 {
            StrLeTransitive(key(x), key(s[0]), key(s[j]));
          }
        }
      }
      ConsSorted(x, s, key);
      [x] + s
    else
      StrLeTotal(key(x), key(s[0]));
      assert s == [s[0]] + s[1..];
      var rest := Insert(x, s[1..], key);
      HeadBoundsTail(s, key);
      LowerBoundPermuted(rest, s[1..], x, key, key(s[0]));
      ConsSorted(s[0], rest, key);
      [s[0]] + rest
  }

  /** A sorted sequence stays sorted under a head whose key bounds all of it. */
  lemma ConsSorted<T>(h: T, s: seq<T>, key: T -> string)
    requires SortedBy(s, key)
    requires forall j :: 0 <= j < |s| ==> StrLe(key(h), key(s[j]))
    ensures SortedBy([h] + s, key)
  {
    forall i, j | 0 <= i < j < |[h] + s| ensures StrLe(key(([h] + s)[i]), key(([h] + s)[j])) {
      assert ([h] + s)[j] == s[j - 1];
      if i > 0 {
        assert ([h] + s)[i] == s[i - 1];
      }
    }
  }

  /** The head of a sorted sequence bounds its tail. */
  lemma HeadBoundsTail<T>(s: seq<T>, key: T -> string)
    requires |s| > 0 && SortedBy(s, key)
    ensures forall j :: 0 <= j < |s[1..]| ==> StrLe(key(s[0]), key(s[1..][j]))
  {
    forall j | 0 <= j < |s[1..]| ensures StrLe(key(s[0]), key(s[1..][j])) {
      assert s[1..][j] == s[j + 1];
    }
  }

  /** A lower bound of every key of `s` and of `x` bounds every key of a
      permutation of `s` plus `x`. */
  lemma LowerBoundPermuted<T>(rest: seq<T>, s: seq<T>, x: T, key: T -> string, lo: string)
    requires multiset(rest) == multiset(s) + multiset{x}
    requires StrLe(lo, key(x)) && forall j :: 0 <= j < |s| ==> StrLe(lo, key(s[j]))
    ensures forall j :: 0 <= j < |rest| ==> StrLe(lo, key(rest[j]))
  {
    forall j | 0 <= j < |rest| ensures StrLe(lo, key(rest[j])) {
      assert rest[j] in multiset(rest);
      if rest[j] != x {
        assert rest[j] in multiset(s);
        var k :| 0 <= k < |s| && s[k] == rest[j];
      }
    }
  }

  /** Rows ordered non-decreasingly by key: a permutation of the input. */
  function SortBy<T>(s: seq<T>, key: T -> string): (r: seq<T>)
    ensures SortedBy(r, key)
    ensures |r| == |s|
    ensures multiset(r) == multiset(s)
  {
    if |s| == 0 then []
    else
      assert s == [s[0]] + s[1..];
      Insert(s[0], SortBy(s[1..], key), key)
  }
}
