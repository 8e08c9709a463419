/** Sequence helpers: the list comprehensions of the tool, as functions. */
module Seqs {

  /** Concatenation of nested sequences, outer order first
      (`[i for r in rs for i in r]`). */
  function Flatten<T>(ss: seq<seq<T>>): seq<T>
  {
    if |ss| == 0 then [] else ss[0] + Flatten(ss[1..])
  }

  /** The elements of `s` that satisfy `keep`, each occurrence kept, in
      their original order (`[x for x in s if keep(x)]`). */
  function Select<T>(s: seq<T>, keep: T -> bool): (r: seq<T>)
    ensures |r| <= |s|
    ensures forall k :: 0 <= k < |r| ==> keep(r[k])
    ensures forall k :: 0 <= k < |r| ==> r[k] in s
    ensures forall k :: 0 <= k < |s| && keep(s[k]) ==> s[k] in r
  {
    if |s| == 0 then []
    else (if keep(s[0]) then [s[0]] else []) + Select(s[1..], keep)
  }

  lemma {:induction false} FlattenAppend<T>(a: seq<seq<T>>, b: seq<seq<T>>)
    ensures Flatten(a + b) == Flatten(a) + Flatten(b)
  {
    if |a| == 0 {
      assert a + b == b;
    } else {
      assert (a + b)[0] == a[0];
      assert (a + b)[1..] == a[1..] + b;
      FlattenAppend(a[1..], b);
    }
  }

  lemma {:induction false} SelectAppend<T>(a: seq<T>, b: seq<T>, keep: T -> bool)
    ensures Select(a + b, keep) == Select(a, keep) + Select(b, keep)
  {
    if |a| == 0 {
      assert a + b == b;
    } else {
      assert (a + b)[0] == a[0];
      assert (a + b)[1..] == a[1..] + b;
      SelectAppend(a[1..], b, keep);
    }
  }

  /** Selecting twice is selecting once by the conjunction. */
  lemma {:induction false} SelectSelect<T>(s: seq<T>, p: T -> bool, q: T -> bool, both: T -> bool)
    requires forall x :: both(x) == (p(x) && q(x))
    ensures Select(Select(s, p), q) == Select(s, both)
  {
    if |s| != 0 {
      SelectSelect(s[1..], p, q, both);
      if p(s[0]) {
        assert Select(s, p) == [s[0]] + Select(s[1..], p);
        assert Select(s, p)[1..] == Select(s[1..], p);
      } else {
        assert Select(s, p) == Select(s[1..], p);
      }
    }
  }

  /** Selection depends only on which elements pass, not on how the test is
      written. */
  lemma {:induction false} SelectSamePredicate<T>(s: seq<T>, p: T -> bool, q: T -> bool)
    requires forall x :: p(x) == q(x)
    ensures Select(s, p) == Select(s, q)
  {
    if |s| != 0 {
      SelectSamePredicate(s[1..], p, q);
    }
  }

  /** Nothing is selected when no element passes. */
  lemma {:induction false} SelectNone<T>(s: seq<T>, keep: T -> bool)
    requires forall k :: 0 <= k < |s| ==> !keep(s[k])
    ensures Select(s, keep) == []
  {
    if |s| != 0 {
      SelectNone(s[1..], keep);
    }
  }

  /** Selection keeps every passing occurrence: each passing value occurs in
      the result as often as in the input, and no other value occurs. */
  lemma {:induction false} SelectOccurrences<T(!new)>(s: seq<T>, keep: T -> bool)
    ensures forall x :: multiset(Select(s, keep))[x] == if keep(x) then multiset(s)[x] else 0
  {
    if |s| != 0 {
      SelectOccurrences(s[1..], keep);
      assert s == [s[0]] + s[1..];
    }
  }
}
