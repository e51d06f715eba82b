/** Order-preserving subsequences, used for the validator filter and the startup registrations. */
module Subsequences {

  /** `a` is `b` with some elements removed and the others kept in their order. */
  predicate IsSubsequence<T(==)>(a: seq<T>, b: seq<T>)
    decreases |b|
  {
    if a == [] then true
    else if b == [] then false
    else if a[0] == b[0] then IsSubsequence(a[1..], b[1..])
    else IsSubsequence(a, b[1..])
  }

  /** Dropping the first element of a subsequence leaves a subsequence. */
  lemma {:induction false} SubsequenceTail<T>(a: seq<T>, b: seq<T>)
    requires a != [] && IsSubsequence(a, b)
    ensures IsSubsequence(a[1..], b)
    decreases |b|, 1
  {
    if a[0] == b[0] {
      SubsequenceSkip(a[1..], b[0], b[1..]);
      assert [b[0]] + b[1..] == b;
    } else {
      SubsequenceTail(a, b[1..]);
      SubsequenceSkip(a[1..], b[0], b[1..]);
      assert [b[0]] + b[1..] == b;
    }
  }

  /** One more element in front of the longer sequence keeps a subsequence a subsequence. */
  lemma {:induction false} SubsequenceSkip<T>(a: seq<T>, x: T, c: seq<T>)
    requires IsSubsequence(a, c)
    ensures IsSubsequence(a, [x] + c)
    decreases |c| + 1, 0
  {
    assert ([x] + c)[1..] == c;
    if a != [] && a[0] == x {
      SubsequenceTail(a, c);
    }
  }

  /** An element that may or may not be kept, in front of both sequences. */
  lemma SubsequenceOptional<T>(keep: bool, x: T, a: seq<T>, c: seq<T>)
    requires IsSubsequence(a, c)
    ensures IsSubsequence((if keep then [x] else []) + a, [x] + c)
  {
    if keep {
      assert ([x] + a)[1..] == a && ([x] + c)[1..] == c;
    } else {
      assert [] + a == a;
      SubsequenceSkip(a, x, c);
    }
  }

  /** Two optional elements, two fixed ones, then a pair kept or dropped together: the order of the six is kept. */
  lemma OptionalChainOrder<T>(k1: bool, k2: bool, k3: bool, x1: T, x2: T, x3: T, x4: T, x5: T, x6: T)
    ensures IsSubsequence((if k1 then [x1] else []) + (if k2 then [x2] else []) + [x3, x4]
                            + (if k3 then [x5, x6] else []),
                          [x1, x2, x3, x4, x5, x6])
  {
    var tail := [x3, x4] + (if k3 then [x5, x6] else []);
    FixedThenPairOrder(k3, x3, x4, x5, x6);
    SubsequenceOptional(k2, x2, tail, [x3, x4, x5, x6]);
    assert [x2] + [x3, x4, x5, x6] == [x2, x3, x4, x5, x6];
    SubsequenceOptional(k1, x1, (if k2 then [x2] else []) + tail, [x2, x3, x4, x5, x6]);
    assert [x1] + [x2, x3, x4, x5, x6] == [x1, x2, x3, x4, x5, x6];
    assert (if k1 then [x1] else []) + ((if k2 then [x2] else []) + tail)
        == (if k1 then [x1] else []) + (if k2 then [x2] else []) + [x3, x4] + (if k3 then [x5, x6] else []);
  }

  /** Two fixed elements followed by a pair kept or dropped together: the order of the four is kept. */
  lemma FixedThenPairOrder<T>(k: bool, x3: T, x4: T, x5: T, x6: T)
    ensures IsSubsequence([x3, x4] + (if k then [x5, x6] else []), [x3, x4, x5, x6])
  {
    var pair := if k then [x5, x6] else [];
    assert IsSubsequence(pair, [x5, x6]) by {
      if k {
        assert [x5, x6][1..] == [x6] && [x6][1..] == [];
      }
    }
    SubsequenceOptional(true, x4, pair, [x5, x6]);
    assert [x4] + [x5, x6] == [x4, x5, x6];
    SubsequenceOptional(true, x3, [x4] + pair, [x4, x5, x6]);
    assert [x3] + [x4, x5, x6] == [x3, x4, x5, x6];
    assert [x3] + ([x4] + pair) == [x3, x4] + pair;
  }
}
