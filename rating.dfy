/**
 * The rating aggregator's arithmetic: the `reduce` fold over a movie's ratings and the
 * average stored in `averageRating`.
 */
module Rating {
  import opened Seqs

  /** `s.reduce((acc, r) => r + acc, acc)`: the fold consumes the ratings left to right. */
  function Reduce(acc: int, s: seq<int>): int
    decreases s
  {
    if s == [] then acc else Reduce(s[0] + acc, s[1..])
  }

  /** Folding one more rating into the end adds that rating to the result. */
  lemma {:induction false} ReduceAppend(acc: int, s: seq<int>, x: int)
    decreases s
    ensures Reduce(acc, s + [x]) == Reduce(acc, s) + x
  {
    if s != [] {
      assert (s + [x])[1..] == s[1..] + [x];
      ReduceAppend(s[0] + acc, s[1..], x);
    }
  }

  /** The total of the ratings, taken from the back. */
  function Sum(s: seq<int>): int {
    if s == [] then 0 else Sum(s[..|s| - 1]) + s[|s| - 1]
  }

  /** The total taken from the back is what the left-to-right `reduce` from 0 computes. */
  lemma {:induction false} SumIsReduce(s: seq<int>)
    ensures Sum(s) == Reduce(0, s)
  {
    if s != [] {
      var n := |s| - 1;
      assert s == s[..n] + [s[n]];
      SumIsReduce(s[..n]);
      ReduceAppend(0, s[..n], s[n]);
    }
  }

  /** The stored average: the sum over the count, or 0 when there are no ratings. */
  function Mean(s: seq<int>): (r: real)
    ensures |s| == 0 ==> r == 0.0
    ensures |s| > 0 ==> r * |s| as real == Sum(s) as real
  {
    if |s| == 0 then 0.0 else Sum(s) as real / |s| as real
  }

  lemma {:induction false} SumConcat(a: seq<int>, b: seq<int>)
    ensures Sum(a + b) == Sum(a) + Sum(b)
  {
    if b == [] {
      assert a + b == a;
    } else {
      var b' := b[..|b| - 1];
      assert (a + b)[..|a + b| - 1] == a + b';
      SumConcat(a, b');
    }
  }

  /** Removing one rating takes exactly that rating off the sum. */
  lemma {:induction false} SumSplice(s: seq<int>, i: int)
    requires 0 <= i < |s|
    ensures Sum(Splice(s, i)) == Sum(s) - s[i]
  {
    var a, b := s[..i], s[i + 1..];
    assert Splice(s, i) == a + b;
    assert s == a + ([s[i]] + b);
    SumConcat(a, b);
    SumConcat(a, [s[i]] + b);
    SumConcat([s[i]], b);
    assert [s[i]][..0] == [];
  }

  lemma {:induction false} SumBounds(s: seq<int>, lo: int, hi: int)
    requires forall k :: 0 <= k < |s| ==> lo <= s[k] <= hi
    ensures lo * |s| <= Sum(s) <= hi * |s|
  {
    if s != [] {
      var n := |s| - 1;
      SumBounds(s[..n], lo, hi);
      assert Sum(s) == Sum(s[..n]) + s[n];
      assert lo * |s| == lo * n + lo && hi * |s| == hi * n + hi;
    }
  }

  /** When every rating lies in [lo, hi], so does the average of a non-empty list. */
  lemma {:induction false} MeanBounds(s: seq<int>, lo: int, hi: int)
    requires |s| > 0
    requires forall k :: 0 <= k < |s| ==> lo <= s[k] <= hi
    ensures lo as real <= Mean(s) <= hi as real
  {
    SumBounds(s, lo, hi);
    var n, total := |s| as real, Sum(s) as real;
    assert lo as real * n <= total <= hi as real * n;
    DivisionBounds(total, n, lo as real, hi as real);
  }

  lemma DivisionBounds(total: real, n: real, lo: real, hi: real)
    requires n > 0.0 && lo * n <= total <= hi * n
    ensures lo <= total / n <= hi
  {
    var q := total / n;
    assert total == q * n;
  }

  /** The average times the count gives back the sum, for an empty list too. */
  lemma MeanTimesCount(s: seq<int>)
    ensures Mean(s) * |s| as real == Sum(s) as real
  {
  }

  /**
   * Recomputing after one more rating agrees with updating the previous average
   * incrementally: the eager fold and a running mean give the same stored value.
   */
  lemma {:induction false} MeanAppend(s: seq<int>, x: int)
    ensures Mean(s + [x]) * (|s| + 1) as real == Mean(s) * |s| as real + x as real
  {
    assert (s + [x])[..|s|] == s;
    MeanTimesCount(s);
    MeanTimesCount(s + [x]);
  }

  /** Recomputing after removing one rating agrees with taking it out of the running mean. */
  lemma {:induction false} MeanSplice(s: seq<int>, i: int)
    requires 0 <= i < |s|
    ensures Mean(Splice(s, i)) * (|s| - 1) as real == Mean(s) * |s| as real - s[i] as real
  {
    SumSplice(s, i);
    MeanTimesCount(s);
    MeanTimesCount(Splice(s, i));
  }

  /**
   * Worked averages: three reviews of 5, 3 and 4 stars average 4.0 and 4.5 once the 3 is
   * gone; reviews of 4 and then 2 stars give 4.0, then 3.0, and 2.0 once the 4 is gone.
   */
  lemma ScenarioMeans()
    ensures Mean([5, 3, 4]) == 4.0 && Mean([5, 4]) == 4.5
    ensures Mean([4]) == 4.0 && Mean([4, 2]) == 3.0 && Mean([2]) == 2.0
  {
    assert [4][..0] == [] && [2][..0] == [] && [5][..0] == [];
    assert [4, 2][..1] == [4] && [5, 4][..1] == [5];
    assert [5, 3, 4][..2] == [5, 3] && [5, 3][..1] == [5];
  }
}
