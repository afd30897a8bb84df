/** The two-sample Kolmogorov-Smirnov statistic as a merge walk over sorted
    samples with ties. Arithmetic is exact: rounding is not modelled. */
module KolmogorovSmirnov {

  // --- Empirical distributions ----------------------------------------------------------------

  function AtMost(s: seq<real>, x: real): nat {
    if s == [] then 0
    else AtMost(s[..|s| - 1], x) + if s[|s| - 1] <= x then 1 else 0
  }

  function Ratio(i: nat, n: nat): real
    requires n > 0
  {
    i as real / n as real
  }

  /** The share of the sample that is at most `x`. */
  function Cdf(s: seq<real>, x: real): real
    requires s != []
  {
    Ratio(AtMost(s, x), |s|)
  }

  function Distance(a: real, b: real): real {
    if a < b then b - a else a - b
  }

  function Gap(left: seq<real>, right: seq<real>, x: real): real
    requires left != [] && right != []
  {
    Distance(Cdf(left, x), Cdf(right, x))
  }

  /** `d` is the largest gap between the two distributions, and is attained. */
  ghost predicate IsLargestGap(left: seq<real>, right: seq<real>, d: real)
    requires left != [] && right != []
  {
    (forall x :: Gap(left, right, x) <= d) && (exists x :: Gap(left, right, x) == d)
  }

  lemma {:induction false} AtMostBounds(s: seq<real>, x: real)
    ensures AtMost(s, x) <= |s|
  {
    if s != [] {
      AtMostBounds(s[..|s| - 1], x);
    }
  }

  lemma {:induction false} AtMostGrows(s: seq<real>, x: real, y: real)
    requires x <= y
    ensures AtMost(s, x) <= AtMost(s, y)
  {
    if s != [] {
      AtMostGrows(s[..|s| - 1], x, y);
    }
  }

  lemma RatioGrows(i: nat, j: nat, n: nat)
    requires i <= j && 0 < n
    ensures Ratio(i, n) <= Ratio(j, n) && Ratio(n, n) == 1.0
  {
  }

  /** Where the sample splits at `x`, the count is the splitting index. */
  lemma {:induction false} CutCounts(s: seq<real>, i: nat, x: real)
    requires i <= |s|
    requires (forall k :: 0 <= k < i ==> s[k] <= x) && (forall k :: i <= k < |s| ==> s[k] > x)
    ensures AtMost(s, x) == i
  {
    if s != [] {
      var init := s[..|s| - 1];
      CutCounts(init, if i == |s| then i - 1 else i, x);
    }
  }

  // --- The walk ----------------------------------------------------------------------------------

  predicate Ordered(s: seq<real>) {
    forall i, j :: 0 <= i < j < |s| ==> s[i] <= s[j]
  }

  /** The samples' first `i` and `j` members are those at most `v`. */
  predicate Cut(s: seq<real>, i: nat, v: real) {
    i <= |s| && (forall k :: 0 <= k < i ==> s[k] <= v) && (forall k :: i <= k < |s| ==> s[k] > v)
  }

  /** Between two cuts the gap does not change. */
  lemma FlatBetween(left: seq<real>, right: seq<real>, i: nat, j: nat, v: real, value: real, x: real)
    requires left != [] && right != [] && Ordered(left) && Ordered(right)
    requires Cut(left, i, v) && Cut(right, j, v) && v <= x < value
    requires (i < |left| ==> value <= left[i]) && (j < |right| ==> value <= right[j])
    ensures Gap(left, right, x) == Gap(left, right, v) == Distance(Ratio(i, |left|), Ratio(j, |right|))
  {
    CutCounts(left, i, v);
    CutCounts(right, j, v);
    CutCounts(left, i, x);
    CutCounts(right, j, x);
  }

  /** Once one sample is exhausted the gap only shrinks. */
  lemma ShrinksAfter(left: seq<real>, right: seq<real>, v: real, x: real)
    requires left != [] && right != [] && v <= x
    requires Cut(left, |left|, v) || Cut(right, |right|, v)
    ensures Gap(left, right, x) <= Gap(left, right, v)
  {
    AtMostGrows(left, v, x);
    AtMostGrows(right, v, x);
    AtMostBounds(left, x);
    AtMostBounds(right, x);
    RatioGrows(AtMost(left, v), AtMost(left, x), |left|);
    RatioGrows(AtMost(right, v), AtMost(right, x), |right|);
    RatioGrows(AtMost(left, x), |left|, |left|);
    RatioGrows(AtMost(right, x), |right|, |right|);
    if Cut(left, |left|, v) {
      CutCounts(left, |left|, v);
    } else {
      CutCounts(right, |right|, v);
    }
  }

  /** Steps past every member equal to `value`. */
  method SkipTies(s: seq<real>, start: nat, value: real) returns (i: nat)
    requires Ordered(s) && start <= |s|
    requires (forall k :: 0 <= k < start ==> s[k] <= value) && (forall k :: start <= k < |s| ==> value <= s[k])
    ensures Cut(s, i, value) && start <= i && (start < |s| && s[start] == value ==> start < i)
  {
    i := start;
    while i < |s| && s[i] == value
      invariant start <= i <= |s|
      invariant forall k :: start <= k < i ==> s[k] == value
    {
      i := i + 1;
    }
  }

  /** The largest gap up to `v` is `d`, reached at `at`. */
  ghost predicate LargestUpTo(left: seq<real>, right: seq<real>, v: real, d: real, at: real)
    requires left != [] && right != []
  {
    (forall x :: x <= v ==> Gap(left, right, x) <= d) && Gap(left, right, at) == d
  }

  lemma NothingYet(left: seq<real>, right: seq<real>, v: real)
    requires left != [] && right != [] && Cut(left, 0, v) && Cut(right, 0, v)
    ensures LargestUpTo(left, right, v, 0.0, v)
  {
    forall x | x <= v ensures Gap(left, right, x) == 0.0 {
      CutCounts(left, 0, x);
      CutCounts(right, 0, x);
    }
  }

  lemma Advances(left: seq<real>, right: seq<real>, i: nat, j: nat, v: real, value: real, d: real, at: real)
    requires left != [] && right != [] && Ordered(left) && Ordered(right)
    requires Cut(left, i, v) && Cut(right, j, v) && v < value && LargestUpTo(left, right, v, d, at)
    requires (i < |left| ==> value <= left[i]) && (j < |right| ==> value <= right[j])
    ensures var gap := Gap(left, right, value);
            LargestUpTo(left, right, value, if d < gap then gap else d, if d < gap then value else at)
  {
    forall x | v <= x < value ensures Gap(left, right, x) <= d {
      FlatBetween(left, right, i, j, v, value, x);
    }
  }

  lemma Finishes(left: seq<real>, right: seq<real>, v: real, d: real, at: real)
    requires left != [] && right != [] && LargestUpTo(left, right, v, d, at)
    requires Cut(left, |left|, v) || Cut(right, |right|, v)
    ensures IsLargestGap(left, right, d)
  {
    forall x ensures Gap(left, right, x) <= d {
      if v <= x {
        ShrinksAfter(left, right, v, x);
      }
    }
  }

  lemma CutGap(left: seq<real>, right: seq<real>, i: nat, j: nat, v: real)
    requires left != [] && right != [] && Cut(left, i, v) && Cut(right, j, v)
    ensures Gap(left, right, v) == Distance(Ratio(i, |left|), Ratio(j, |right|))
  {
    CutCounts(left, i, v);
    CutCounts(right, j, v);
  }

  /** The loop stops when one sample is exhausted, and still finds the largest gap. */
  method Walk(left: seq<real>, right: seq<real>) returns (statistic: real)
    requires left != [] && right != [] && Ordered(left) && Ordered(right)
    ensures IsLargestGap(left, right, statistic)
  {
    var i: nat, j: nat := 0, 0;
    statistic := 0.0;
    ghost var v := (if left[0] < right[0] then left[0] else right[0]) - 1.0;
    ghost var at := v;
    NothingYet(left, right, v);
    while i < |left| && j < |right|
      invariant Cut(left, i, v) && Cut(right, j, v)
      invariant LargestUpTo(left, right, v, statistic, at)
      decreases |left| - i + |right| - j
    {
      var value := if left[i] < right[j] then left[i] else right[j];
      Advances(left, right, i, j, v, value, statistic, at);
      i := SkipTies(left, i, value);
      j := SkipTies(right, j, value);
      v := value;
      CutGap(left, right, i, j, v);
      var gap := Distance(Ratio(i, |left|), Ratio(j, |right|));
      if statistic < gap {
        statistic, at := gap, v;
      }
    }
    Finishes(left, right, v, statistic, at);
  }

  // --- Sorting -------------------------------------------------------------------------------------

  function Inserted(s: seq<real>, x: real): seq<real> {
    if s == [] || s[|s| - 1] <= x then s + [x]
    else Inserted(s[..|s| - 1], x) + [s[|s| - 1]]
  }

  function Sorted(s: seq<real>): seq<real> {
    if s == [] then [] else Inserted(Sorted(s[..|s| - 1]), s[|s| - 1])
  }

  lemma SnocOrdered(s: seq<real>, last: real)
    requires Ordered(s) && forall y <- s :: y <= last
    ensures Ordered(s + [last])
  {
    forall i | 0 <= i < |s| ensures s[i] <= last {
      assert s[i] in s;
    }
  }

  lemma {:induction false} InsertedPermutes(s: seq<real>, x: real)
    ensures multiset(Inserted(s, x)) == multiset(s + [x])
  {
    if s != [] && s[|s| - 1] > x {
      InsertedPermutes(s[..|s| - 1], x);
      assert s == s[..|s| - 1] + [s[|s| - 1]];
    }
  }

  lemma {:induction false} InsertedIsOrdered(s: seq<real>, x: real)
    requires Ordered(s)
    ensures Ordered(Inserted(s, x))
  {
    if s == [] {
      return;
    }
    var init, last := s[..|s| - 1], s[|s| - 1];
    assert forall y <- init :: y <= last;
    if last <= x {
      assert forall y <- s :: y in init || y == last;
      SnocOrdered(s, x);
      return;
    }
    InsertedIsOrdered(init, x);
    InsertedPermutes(init, x);
    var r := Inserted(init, x);
    forall y | y in r ensures y <= last {
      assert y in multiset(init + [x]);
    }
    SnocOrdered(r, last);
  }

  lemma {:induction false} SortedIsOrdered(s: seq<real>)
    ensures Ordered(Sorted(s)) && multiset(Sorted(s)) == multiset(s)
  {
    if s != [] {
      var init, last := s[..|s| - 1], s[|s| - 1];
      SortedIsOrdered(init);
      InsertedIsOrdered(Sorted(init), last);
      InsertedPermutes(Sorted(init), last);
      assert s == init + [last];
    }
  }

  lemma {:induction false} AtMostConcat(a: seq<real>, b: seq<real>, x: real)
    ensures AtMost(a + b, x) == AtMost(a, x) + AtMost(b, x)
  {
    if b == [] {
      assert a + b == a;
    } else {
      AtMostConcat(a, b[..|b| - 1], x);
      assert (a + b)[..|a + b| - 1] == a + b[..|b| - 1];
    }
  }

  lemma AtMostWithout(s: seq<real>, j: nat, x: real)
    requires j < |s|
    ensures AtMost(s, x) == AtMost(s[..j] + s[j + 1..], x) + if s[j] <= x then 1 else 0
  {
    assert s == s[..j] + ([s[j]] + s[j + 1..]);
    AtMostConcat(s[..j], [s[j]] + s[j + 1..], x);
    AtMostConcat([s[j]], s[j + 1..], x);
    AtMostConcat(s[..j], s[j + 1..], x);
    assert [s[j]][..0] == [];
  }

  /** A distribution does not depend on the order of its sample. */
  lemma {:induction false} AtMostPermutes(s: seq<real>, t: seq<real>, x: real)
    requires multiset(s) == multiset(t)
    ensures AtMost(s, x) == AtMost(t, x) && |s| == |t|
    decreases |s|
  {
    assert |multiset(s)| == |s| && |multiset(t)| == |t|;
    if s != [] {
      var y := s[|s| - 1];
      assert y in multiset(t);
      var j :| 0 <= j < |t| && t[j] == y;
      MultisetWithout(s, |s| - 1);
      MultisetWithout(t, j);
      AtMostWithout(s, |s| - 1, x);
      AtMostWithout(t, j, x);
      AtMostPermutes(s[..|s| - 1] + s[|s|..], t[..j] + t[j + 1..], x);
    }
  }

  lemma MultisetWithout(s: seq<real>, j: nat)
    requires j < |s|
    ensures multiset(s[..j] + s[j + 1..]) == multiset(s) - multiset{s[j]}
  {
    assert s == s[..j] + [s[j]] + s[j + 1..];
  }

  lemma LargestGapPermutes(left: seq<real>, right: seq<real>, left': seq<real>, right': seq<real>, d: real)
    requires left != [] && right != [] && multiset(left) == multiset(left') && multiset(right) == multiset(right')
    ensures left' != [] && right' != []
    ensures IsLargestGap(left, right, d) <==> IsLargestGap(left', right', d)
  {
    assert |multiset(left)| == |left'| && |multiset(right)| == |right'|;
    forall x ensures Gap(left, right, x) == Gap(left', right', x) {
      AtMostPermutes(left, left', x);
      AtMostPermutes(right, right', x);
    }
  }

  /** The statistic of any two samples, in any order and with any ties. */
  method TwoSample(left: seq<real>, right: seq<real>) returns (statistic: real)
    ensures left == [] || right == [] ==> statistic == 1.0
    ensures left != [] && right != [] ==> IsLargestGap(left, right, statistic)
  {
    if left == [] || right == [] {
      return 1.0;
    }
    SortedIsOrdered(left);
    SortedIsOrdered(right);
    LargestGapPermutes(left, right, Sorted(left), Sorted(right), 0.0);
    statistic := Walk(Sorted(left), Sorted(right));
    LargestGapPermutes(left, right, Sorted(left), Sorted(right), statistic);
  }

  // --- What the statistic is ------------------------------------------------------------------------

  /** There is one largest gap, and swapping the samples does not change it. */
  lemma LargestGapIsUnique(left: seq<real>, right: seq<real>, d: real, e: real)
    requires left != [] && right != [] && IsLargestGap(left, right, d)
    ensures IsLargestGap(right, left, e) <==> d == e
    ensures IsLargestGap(left, right, e) <==> d == e
  {
    assert forall x :: Gap(left, right, x) == Gap(right, left, x);
    var x :| Gap(left, right, x) == d;
    if IsLargestGap(left, right, e) {
      var y :| Gap(left, right, y) == e;
    }
    if IsLargestGap(right, left, e) {
      var y :| Gap(right, left, y) == e;
      assert Gap(right, left, x) == d;
      assert Gap(left, right, y) == e;
    }
    if d == e {
      assert Gap(right, left, x) == d;
      forall y ensures Gap(right, left, y) <= d {
        assert Gap(left, right, y) <= d;
      }
    }
  }

  /** Both samples give every value the same share. */
  ghost predicate SameShares(left: seq<real>, right: seq<real>) {
    forall v :: multiset(left)[v] * |right| == multiset(right)[v] * |left|
  }

  lemma RatiosEqual(i: nat, n: nat, j: nat, m: nat)
    requires n > 0 && m > 0
    ensures Ratio(i, n) == Ratio(j, m) <==> i * m == j * n
  {
    var a, b, c, d := i as real, n as real, j as real, m as real;
    assert (i * m) as real == a * d && (j * n) as real == c * b;
    var x, y := a / b, c / d;
    assert x * b == a && y * d == c;
    CrossMultiplied(x, b, y, d);
  }

  lemma CrossMultiplied(x: real, b: real, y: real, d: real)
    requires b > 0.0 && d > 0.0
    ensures x == y <==> (x * b) * d == (y * d) * b
  {
    var bd := b * d;
    assert bd > 0.0 && (x * b) * d == x * bd && (y * d) * b == y * bd;
    if x * bd == y * bd {
      assert (x - y) * bd == 0.0;
    }
  }

  /** A point just under `v`: no member lies strictly between. */
  lemma {:induction false} JustBelow(s: seq<real>, v: real) returns (x: real)
    ensures x < v && forall y <- s :: !(x < y < v)
  {
    if s == [] {
      return v - 1.0;
    }
    x := JustBelow(s[..|s| - 1], v);
    var last := s[|s| - 1];
    if x < last < v {
      x := last;
    }
    assert forall y <- s :: y in s[..|s| - 1] || y == last;
  }

  /** The highest member that is at most `x`. */
  lemma {:induction false} HighestUpTo(s: seq<real>, x: real) returns (v: real)
    requires AtMost(s, x) > 0
    ensures v in s && v <= x && forall y <- s :: y <= x ==> y <= v
  {
    var init, last := s[..|s| - 1], s[|s| - 1];
    assert forall y <- s :: y in init || y == last;
    if AtMost(init, x) == 0 {
      NoneUpTo(init, x);
      return last;
    }
    v := HighestUpTo(init, x);
    if v < last <= x {
      v := last;
    }
  }

  lemma {:induction false} NoneUpTo(s: seq<real>, x: real)
    requires AtMost(s, x) == 0
    ensures forall y <- s :: x < y
  {
    if s != [] {
      NoneUpTo(s[..|s| - 1], x);
      assert forall y <- s :: y in s[..|s| - 1] || y == s[|s| - 1];
    }
  }

  lemma {:induction false} CountJumps(s: seq<real>, x: real, v: real)
    requires x < v && forall y <- s :: !(x < y < v)
    ensures AtMost(s, v) == AtMost(s, x) + multiset(s)[v]
  {
    if s != [] {
      var init, last := s[..|s| - 1], s[|s| - 1];
      assert s == init + [last] && forall y <- init :: y in s;
      CountJumps(init, x, v);
      assert last in s;
    }
  }

  lemma {:induction false} CountStays(s: seq<real>, v: real, x: real)
    requires v <= x && forall y <- s :: y <= x ==> y <= v
    ensures AtMost(s, x) == AtMost(s, v)
  {
    if s != [] {
      var init, last := s[..|s| - 1], s[|s| - 1];
      assert s == init + [last] && last in s;
      assert forall y <- init :: y in s;
      CountStays(init, v, x);
    }
  }

  lemma Distributes(a: int, p: int, m: int, b: int, q: int, n: int)
    requires a * m == b * n
    ensures (a + p) * m == (b + q) * n <==> p * m == q * n
  {
    assert (a + p) * m == a * m + p * m && (b + q) * n == b * n + q * n;
  }

  lemma {:induction false} SharesAddUp(left: seq<real>, right: seq<real>, x: real)
    requires SameShares(left, right)
    ensures AtMost(left, x) * |right| == AtMost(right, x) * |left|
    decreases AtMost(left + right, x)
  {
    var both := left + right;
    AtMostConcat(left, right, x);
    if AtMost(both, x) > 0 {
      var v := HighestUpTo(both, x);
      var y := JustBelow(both, v);
      assert forall z <- left :: z in both;
      assert forall z <- right :: z in both;
      CountStays(both, v, x);
      CountStays(left, v, x);
      CountStays(right, v, x);
      CountJumps(both, y, v);
      CountJumps(left, y, v);
      CountJumps(right, y, v);
      assert v in multiset(both);
      SharesAddUp(left, right, y);
      Distributes(AtMost(left, y), multiset(left)[v], |right|, AtMost(right, y), multiset(right)[v], |left|);
    }
  }

  lemma SharesAgree(left: seq<real>, right: seq<real>, v: real)
    requires left != [] && right != [] && IsLargestGap(left, right, 0.0)
    ensures multiset(left)[v] * |right| == multiset(right)[v] * |left|
  {
    var both := left + right;
    var x := JustBelow(both, v);
    assert forall z <- left :: z in both;
    assert forall z <- right :: z in both;
    CountJumps(left, x, v);
    CountJumps(right, x, v);
    NoGap(left, right, x);
    NoGap(left, right, v);
    Distributes(AtMost(left, x), multiset(left)[v], |right|, AtMost(right, x), multiset(right)[v], |left|);
  }

  /** The statistic is zero exactly when both samples give every value the same share. */
  lemma ZeroIffSameShares(left: seq<real>, right: seq<real>, d: real)
    requires left != [] && right != [] && IsLargestGap(left, right, d)
    ensures d == 0.0 <==> SameShares(left, right)
  {
    if SameShares(left, right) {
      var x :| Gap(left, right, x) == d;
      SharesAddUp(left, right, x);
      RatiosEqual(AtMost(left, x), |left|, AtMost(right, x), |right|);
    }
    if d == 0.0 {
      forall v ensures multiset(left)[v] * |right| == multiset(right)[v] * |left| {
        SharesAgree(left, right, v);
      }
    }
  }

  lemma NoGap(left: seq<real>, right: seq<real>, x: real)
    requires left != [] && right != [] && IsLargestGap(left, right, 0.0)
    ensures AtMost(left, x) * |right| == AtMost(right, x) * |left|
  {
    assert Gap(left, right, x) <= 0.0;
    RatiosEqual(AtMost(left, x), |left|, AtMost(right, x), |right|);
  }
}
