/** Array.prototype.filter over immutable sequences, and what it promises:
    the kept elements, in their original order, and nothing else. */
module Filtering {

  /** r can be obtained from s by deleting elements: r's elements occur in s
      in the same relative order. */
  predicate Subsequence<T(==)>(r: seq<T>, s: seq<T>)
    decreases |s|
  {
    if r == [] then true
    else if s == [] then false
    else (r[0] == s[0] && Subsequence(r[1..], s[1..])) || Subsequence(r, s[1..])
  }

  /** The elements of s for which keep holds, left to right. */
  function Filter<T>(s: seq<T>, keep: T -> bool): (r: seq<T>)
    ensures |r| <= |s|
  {
    if s == [] then []
    else (if keep(s[0]) then [s[0]] else []) + Filter(s[1..], keep)
  }

  /** What the filter returns: an order-preserving subsequence of s that
      holds every kept element as often as s does, and nothing else. */
  lemma {:induction false} FilterSpec<T(!new)>(s: seq<T>, keep: T -> bool)
    ensures Subsequence(Filter(s, keep), s)
    ensures forall x :: multiset(Filter(s, keep))[x] == if keep(x) then multiset(s)[x] else 0
  {
    if s != [] {
      var rest := Filter(s[1..], keep);
      FilterSpec(s[1..], keep);
      assert s == [s[0]] + s[1..];
      if keep(s[0]) {
        assert ([s[0]] + rest)[1..] == rest;
      } else {
        assert Filter(s, keep) == rest;
      }
    }
  }

  /** The positions of s whose element is kept. */
  function Positions<T>(s: seq<T>, keep: T -> bool): set<int> {
    set j | 0 <= j < |s| && keep(s[j])
  }

  /** Filtering a concatenation filters each part. */
  lemma {:induction false} FilterAppend<T>(a: seq<T>, b: seq<T>, keep: T -> bool)
    ensures Filter(a + b, keep) == Filter(a, keep) + Filter(b, keep)
  {
    if a == [] {
      assert a + b == b;
    } else {
      var front := if keep(a[0]) then [a[0]] else [];
      assert (a + b)[0] == a[0];
      assert (a + b)[1..] == a[1..] + b;
      FilterAppend(a[1..], b, keep);
      calc {
        Filter(a + b, keep);
        front + Filter(a[1..] + b, keep);
        front + (Filter(a[1..], keep) + Filter(b, keep));
        (front + Filter(a[1..], keep)) + Filter(b, keep);
      }
    }
  }

  /** A kept element s[j] lands in the result right after the kept elements
      of s[..j]: the filter keeps the original order. */
  lemma {:induction false} FilterAt<T>(s: seq<T>, keep: T -> bool, j: int)
    requires 0 <= j < |s| && keep(s[j])
    ensures |Filter(s[..j], keep)| < |Filter(s, keep)|
    ensures Filter(s, keep)[|Filter(s[..j], keep)|] == s[j]
  {
    assert s == s[..j] + ([s[j]] + s[j + 1..]);
    FilterAppend(s[..j], [s[j]] + s[j + 1..], keep);
    FilterAppend([s[j]], s[j + 1..], keep);
    assert [s[j]][1..] == [];
  }

  /** When every element is kept, the filter returns its input. */
  lemma {:induction false} FilterAll<T>(s: seq<T>, keep: T -> bool)
    requires forall i :: 0 <= i < |s| ==> keep(s[i])
    ensures Filter(s, keep) == s
  {
    if s != [] {
      FilterAll(s[1..], keep);
    }
  }

  /** When no element is kept, the filter returns nothing. */
  lemma {:induction false} FilterNone<T>(s: seq<T>, keep: T -> bool)
    requires forall i :: 0 <= i < |s| ==> !keep(s[i])
    ensures Filter(s, keep) == []
  {
    if s != [] {
      FilterNone(s[1..], keep);
    }
  }

  /** The filter returns exactly as many elements as there are positions
      holding a kept element. */
  lemma {:induction false} FilterCard<T>(s: seq<T>, keep: T -> bool)
    ensures |Filter(s, keep)| == |Positions(s, keep)|
    decreases |s|
  {
    if s != [] {
      var n := |s| - 1;
      var init := s[..n];
      assert s == init + [s[n]];
      FilterCard(init, keep);
      FilterAppend(init, [s[n]], keep);
      assert [s[n]][1..] == [];
      PositionsSnoc(init, s[n], keep);
    }
  }

  /** Appending one element adds its position when it is kept. */
  lemma PositionsSnoc<T>(s: seq<T>, x: T, keep: T -> bool)
    ensures Positions(s + [x], keep) ==
            Positions(s, keep) + (if keep(x) then {|s|} else {})
  {
  }

  /** Every element the filter returns is kept and comes from s. */
  lemma FilterMember<T(!new)>(s: seq<T>, keep: T -> bool, k: int)
    requires 0 <= k < |Filter(s, keep)|
    ensures keep(Filter(s, keep)[k])
    ensures Filter(s, keep)[k] in s
  {
    FilterSpec(s, keep);
    assert Filter(s, keep)[k] in multiset(Filter(s, keep));
  }

  /** Filtering a prefix of s gives a prefix of the filtered s. */
  lemma FilterPrefix<T>(s: seq<T>, keep: T -> bool, n: int)
    requires 0 <= n <= |s|
    ensures |Filter(s[..n], keep)| <= |Filter(s, keep)|
    ensures Filter(s[..n], keep) == Filter(s, keep)[..|Filter(s[..n], keep)|]
  {
    assert s == s[..n] + s[n..];
    FilterAppend(s[..n], s[n..], keep);
  }

  /** The filter of a one-element sequence. */
  lemma FilterSingle<T>(x: T, keep: T -> bool)
    ensures Filter([x], keep) == if keep(x) then [x] else []
  {
  }
}
