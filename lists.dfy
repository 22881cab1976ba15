/**
 * The array operations the list screens use: `filter`, an order-preserving
 * subsequence relation to state what a filter keeps, and `Array.isArray`.
 */
module Lists {

  /** A state value that should hold an array but may hold anything the server sent. */
  datatype JsArray<T> = Array(items: seq<T>) | NotArray

  /** `s.filter(keep)`. */
  function Filter<T(==,!new)>(s: seq<T>, keep: T -> bool): (r: seq<T>)
    ensures |r| <= |s|
    ensures forall x :: x in r <==> x in s && keep(x)
  {
    if s == [] then []
    else
      assert s == [s[0]] + s[1..];
      if keep(s[0]) then [s[0]] + Filter(s[1..], keep) else Filter(s[1..], keep)
  }

  /** `r` is `s` with some elements left out and the others in their original order. */
  predicate SubseqOf<T(==)>(r: seq<T>, s: seq<T>)
    decreases |s|
  {
    r == [] || (s != [] && ((r[0] == s[0] && SubseqOf(r[1..], s[1..])) || SubseqOf(r, s[1..])))
  }

  /** What a filter keeps stays in its original order. */
  lemma {:induction false} FilterIsSubseq<T(!new)>(s: seq<T>, keep: T -> bool)
    ensures SubseqOf(Filter(s, keep), s)
  {
    if s != [] {
      FilterIsSubseq(s[1..], keep);
    }
  }

  /** A filter whose test every element passes gives back the whole list. */
  lemma {:induction false} FilterKeepsAll<T(!new)>(s: seq<T>, keep: T -> bool)
    requires forall x :: x in s ==> keep(x)
    ensures Filter(s, keep) == s
  {
    if s != [] {
      FilterKeepsAll(s[1..], keep);
    }
  }

  /** Two tests that agree on every element of a list filter it alike. */
  lemma {:induction false} FilterSameTest<T(!new)>(s: seq<T>, keep: T -> bool, keep': T -> bool)
    requires forall x :: x in s ==> keep(x) == keep'(x)
    ensures Filter(s, keep) == Filter(s, keep')
  {
    if s != [] {
      FilterSameTest(s[1..], keep, keep');
    }
  }

  /** A filter keeps every copy of each element that passes, and no copy of one that fails. */
  lemma {:induction false} FilterCounts<T(!new)>(s: seq<T>, keep: T -> bool)
    ensures forall x :: multiset(Filter(s, keep))[x] == if keep(x) then multiset(s)[x] else 0
  {
    if s != [] {
      FilterCounts(s[1..], keep);
      assert s == [s[0]] + s[1..];
    }
  }
}
