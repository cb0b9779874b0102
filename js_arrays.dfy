/**
  The three `Array.prototype` operations the connectors and the `Set` polyfill
  rely on, stated over sequences: `indexOf` (strict equality, -1 when absent),
  `splice(i, 1)` and `filter(el => el !== x)`.
 */
module JsArrays {

  /** `s.indexOf(x)`: the first position holding `x`, or -1. */
  function IndexOf<T(==)>(s: seq<T>, x: T): (i: int)
    ensures -1 <= i < |s|
    ensures i == -1 <==> x !in s
    ensures 0 <= i ==> s[i] == x && x !in s[..i]
  {
    if |s| == 0 then -1
    else if s[0] == x then 0
    else
      var j := IndexOf(s[1..], x);
      if j == -1 then -1
      else
        assert s[..j + 1] == [s[0]] + s[1..][..j];
        j + 1
  }

  /** `s.splice(i, 1)`: the sequence without its element at `i`. */
  function Splice<T>(s: seq<T>, i: nat): (r: seq<T>)
    requires i < |s|
    ensures |r| == |s| - 1
    ensures forall k :: 0 <= k < i ==> r[k] == s[k]
    ensures forall k :: i <= k < |r| ==> r[k] == s[k + 1]
  {
    s[..i] + s[i + 1..]
  }

  /**
    `var index = s.indexOf(x); if (index > -1) s.splice(index, 1);`
    — what a data-channel close does to the peer list.
   */
  function RemoveFirst<T(==)>(s: seq<T>, x: T): (r: seq<T>)
    ensures x !in s ==> r == s
    ensures x in s ==> |r| == |s| - 1
  {
    var index := IndexOf(s, x);
    if index > -1 then Splice(s, index) else s
  }

  /**
    Removing the first occurrence: an absent element leaves the list as it
    is; a present one is taken out at its first position, and the elements
    before and after it keep their order.
   */
  lemma RemoveFirstPosition<T>(s: seq<T>, x: T)
    ensures x !in s ==> RemoveFirst(s, x) == s
    ensures x in s ==> exists i :: 0 <= i < |s| && s[i] == x && x !in s[..i]
                                   && RemoveFirst(s, x) == s[..i] + s[i + 1..]
  {
    var i := IndexOf(s, x);
    if i > -1 {
      assert s[i] == x && x !in s[..i] && RemoveFirst(s, x) == s[..i] + s[i + 1..];
    }
  }

  /** Exactly one copy of a present element leaves the multiset; nothing else changes. */
  lemma RemoveFirstMultiset<T>(s: seq<T>, x: T)
    ensures x in s ==> multiset(RemoveFirst(s, x)) + multiset{x} == multiset(s)
    ensures multiset(RemoveFirst(s, x)) == multiset(s) - multiset{x}
  {
    var i := IndexOf(s, x);
    if i > -1 {
      assert s == s[..i] + [x] + s[i + 1..];
      assert multiset(s) == multiset(s[..i]) + multiset{x} + multiset(s[i + 1..]);
    } else {
      assert multiset(s)[x] == 0;
    }
  }

  /** `s.filter(el => el !== x)`, visiting the elements from the left. */
  function Filter<T(==)>(s: seq<T>, x: T): (r: seq<T>)
    ensures |r| <= |s|
  {
    if |s| == 0 then []
    else (if s[0] != x then [s[0]] else []) + Filter(s[1..], x)
  }

  /** Filtering removes every copy of `x` and keeps every other element with its multiplicity. */
  lemma {:induction false} FilterCounts<T>(s: seq<T>, x: T, y: T)
    ensures multiset(Filter(s, x))[y] == if y == x then 0 else multiset(s)[y]
  {
    if |s| > 0 {
      FilterCounts(s[1..], x, y);
      assert s == [s[0]] + s[1..];
    }
  }

  /** Membership after filtering: exactly the elements of `s` other than `x`. */
  lemma FilterMembership<T>(s: seq<T>, x: T, y: T)
    ensures y in Filter(s, x) <==> y in s && y != x
  {
    FilterCounts(s, x, y);
  }

  /** Filtering distributes over concatenation, so the survivors keep their order. */
  lemma {:induction false} FilterAppend<T>(a: seq<T>, b: seq<T>, x: T)
    ensures Filter(a + b, x) == Filter(a, x) + Filter(b, x)
  {
    if |a| > 0 {
      assert (a + b)[1..] == a[1..] + b;
      FilterAppend(a[1..], b, x);
    } else {
      assert a + b == b;
    }
  }

  /** A sequence without `x` comes through the filter unchanged. */
  lemma {:induction false} FilterAbsent<T>(s: seq<T>, x: T)
    requires x !in s
    ensures Filter(s, x) == s
  {
    if |s| > 0 {
      FilterAbsent(s[1..], x);
    }
  }

  /** No element occurs twice. */
  predicate NoDuplicates<T(==)>(s: seq<T>)
  {
    forall i, j :: 0 <= i < j < |s| ==> s[i] != s[j]
  }

  /** Filtering keeps a sequence free of duplicates. */
  lemma {:induction false} FilterNoDuplicates<T>(s: seq<T>, x: T)
    requires NoDuplicates(s)
    ensures NoDuplicates(Filter(s, x))
  {
    if |s| > 0 {
      FilterNoDuplicates(s[1..], x);
      FilterMembership(s[1..], x, s[0]);
      assert s[0] !in s[1..] by {
        forall k | 0 <= k < |s[1..]| ensures s[1..][k] != s[0] {
          assert s[1..][k] == s[k + 1];
        }
      }
    }
  }
}
