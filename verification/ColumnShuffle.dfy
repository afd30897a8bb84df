/** The in-place Fisher-Yates shuffle of a sealed batch. The random source is a
    parameter: `draws[i]` is its answer for position `i`, if it gave one. */
module ColumnShuffle {
  import opened Options

  predicate InRange(draws: seq<nat>) {
    forall i :: 0 <= i < |draws| ==> draws[i] <= i
  }

  predicate Distinct<T(==)>(s: seq<T>) {
    forall i, j :: 0 <= i < j < |s| ==> s[i] != s[j]
  }

  function Swapped<T>(s: seq<T>, i: nat, j: nat): (r: seq<T>)
    requires i < |s| && j < |s|
    ensures |r| == |s|
  {
    s[i := s[j]][j := s[i]]
  }

  /** The last drawn position settles first. Position 0 can only draw itself. */
  function Shuffled<T>(s: seq<T>, draws: seq<nat>): (r: seq<T>)
    requires |draws| <= |s| && InRange(draws)
    ensures |r| == |s|
    decreases |draws|
  {
    if draws == [] then s
    else
      var last := |draws| - 1;
      Shuffled(Swapped(s, last, draws[last]), draws[..last])
  }

  lemma SwapPermutes<T>(s: seq<T>, i: nat, j: nat)
    requires i < |s| && j < |s|
    ensures multiset(Swapped(s, i, j)) == multiset(s)
  {
  }

  /** No column is lost or repeated, and a settled position is not touched again. */
  lemma {:induction false} ShufflePermutes<T>(s: seq<T>, draws: seq<nat>)
    requires |draws| <= |s| && InRange(draws)
    ensures multiset(Shuffled(s, draws)) == multiset(s)
    ensures forall k :: |draws| <= k < |s| ==> Shuffled(s, draws)[k] == s[k]
    decreases |draws|
  {
    if draws != [] {
      var last := |draws| - 1;
      SwapPermutes(s, last, draws[last]);
      ShufflePermutes(Swapped(s, last, draws[last]), draws[..last]);
    }
  }

  // --- Each arrangement comes from exactly one sequence of draws -----------------------------

  lemma DropLast<T>(a: seq<T>, b: seq<T>, x: T)
    requires multiset(a + [x]) == multiset(b + [x])
    ensures multiset(a) == multiset(b)
  {
    assert multiset(a) == multiset(a + [x]) - multiset{x};
    assert multiset(b) == multiset(b + [x]) - multiset{x};
  }

  lemma PrefixPermutes<T>(s: seq<T>, t: seq<T>, last: nat, j: nat)
    requires |s| == |t| && j <= last < |s|
    requires multiset(s[..last + 1]) == multiset(t[..last + 1]) && s[j] == t[last]
    ensures multiset(Swapped(s, last, j)[..last]) == multiset(t[..last])
  {
    SwapPermutes(s[..last + 1], last, j);
    assert Swapped(s[..last + 1], last, j) == Swapped(s, last, j)[..last] + [t[last]];
    assert t[..last + 1] == t[..last] + [t[last]];
    DropLast(Swapped(s, last, j)[..last], t[..last], t[last]);
  }

  lemma SuffixSettles<T>(s: seq<T>, t: seq<T>, last: nat, j: nat)
    requires |s| == |t| && j <= last < |s|
    requires s[last + 1..] == t[last + 1..] && s[j] == t[last]
    ensures Swapped(s, last, j)[last..] == t[last..]
  {
    var next := Swapped(s, last, j);
    assert next[last..] == [s[j]] + s[last + 1..];
    assert t[last..] == [t[last]] + t[last + 1..];
  }

  lemma {:induction false} SomeDrawsReach<T>(s: seq<T>, t: seq<T>, n: nat) returns (draws: seq<nat>)
    requires |s| == |t| && n <= |s|
    requires multiset(s[..n]) == multiset(t[..n]) && s[n..] == t[n..]
    ensures |draws| == n && InRange(draws) && Shuffled(s, draws) == t
    decreases n
  {
    if n == 0 {
      return [];
    }
    var j := DrawFor(s, t, n - 1);
    PrefixPermutes(s, t, n - 1, j);
    SuffixSettles(s, t, n - 1, j);
    var rest := SomeDrawsReach(Swapped(s, n - 1, j), t, n - 1);
    draws := rest + [j];
    DrawFirst(s, rest, j);
  }

  lemma DrawFor<T>(s: seq<T>, t: seq<T>, last: nat) returns (j: nat)
    requires last < |s| == |t| && multiset(s[..last + 1]) == multiset(t[..last + 1])
    ensures j <= last && s[j] == t[last]
  {
    assert t[..last + 1][last] == t[last];
    assert t[last] in multiset(s[..last + 1]);
    j :| 0 <= j <= last && s[..last + 1][j] == t[last];
  }

  lemma DrawFirst<T>(s: seq<T>, rest: seq<nat>, j: nat)
    requires j <= |rest| < |s| && InRange(rest)
    ensures InRange(rest + [j]) && Shuffled(s, rest + [j]) == Shuffled(Swapped(s, |rest|, j), rest)
  {
    var draws := rest + [j];
    assert draws[..|rest|] == rest && draws[|rest|] == j;
  }

  lemma LastDrawShows<T>(s: seq<T>, draws: seq<nat>)
    requires 0 < |draws| <= |s| && InRange(draws)
    ensures Shuffled(s, draws)[|draws| - 1] == s[draws[|draws| - 1]]
  {
    var last := |draws| - 1;
    ShufflePermutes(Swapped(s, last, draws[last]), draws[..last]);
  }

  lemma SwapKeepsDistinct<T>(s: seq<T>, i: nat, j: nat)
    requires i < |s| && j < |s| && Distinct(s)
    ensures Distinct(Swapped(s, i, j))
  {
    var r := Swapped(s, i, j);
    forall k, l | 0 <= k < l < |r| ensures r[k] != r[l] {
      assert forall m | 0 <= m < |s| :: r[m] == s[if m == i then j else if m == j then i else m];
    }
  }

  lemma {:induction false} DrawsAreDetermined<T>(s: seq<T>, d: seq<nat>, e: seq<nat>)
    requires Distinct(s) && |d| == |e| <= |s| && InRange(d) && InRange(e)
    requires Shuffled(s, d) == Shuffled(s, e)
    ensures d == e
    decreases |d|
  {
    if d == [] {
      return;
    }
    LastDrawsAgree(s, d, e);
    var last := |d| - 1;
    var d', e', next := d[..last], e[..last], Swapped(s, last, d[last]);
    SwapKeepsDistinct(s, last, d[last]);
    assert Shuffled(next, d') == Shuffled(next, e');
    DrawsAreDetermined(next, d', e');
    assert d == d' + [d[last]] && e == e' + [e[last]];
  }

  lemma LastDrawsAgree<T>(s: seq<T>, d: seq<nat>, e: seq<nat>)
    requires Distinct(s) && 0 < |d| == |e| <= |s| && InRange(d) && InRange(e)
    requires Shuffled(s, d) == Shuffled(s, e)
    ensures d[|d| - 1] == e[|d| - 1]
  {
    LastDrawShows(s, d);
    LastDrawShows(s, e);
  }

  /** With distinct columns, each arrangement of them is reached by exactly one
      sequence of draws, so uniform draws give a uniform arrangement. */
  lemma EveryArrangementOnce<T>(s: seq<T>, t: seq<T>)
    requires Distinct(s) && |s| == |t|
    ensures multiset(t) == multiset(s)
       <==> exists draws :: |draws| == |s| && InRange(draws) && Shuffled(s, draws) == t
    ensures forall d, e ::
              (&& |d| == |e| == |s| && InRange(d) && InRange(e)
               && Shuffled(s, d) == t && Shuffled(s, e) == t) ==> d == e
  {
    if multiset(t) == multiset(s) {
      assert s[..|s|] == s && t[..|s|] == t;
      var draws := SomeDrawsReach(s, t, |s|);
    }
    forall draws | |draws| == |s| && InRange(draws) && Shuffled(s, draws) == t
      ensures multiset(t) == multiset(s)
    {
      ShufflePermutes(s, draws);
    }
    forall d, e | && |d| == |e| == |s| && InRange(d) && InRange(e)
                  && Shuffled(s, d) == t && Shuffled(s, e) == t
      ensures d == e
    {
      DrawsAreDetermined(s, d, e);
    }
  }

  // --- In place -------------------------------------------------------------------------------

  function Draw(draws: seq<Option<nat>>, i: nat): (d: Option<nat>)
    ensures d.Some? ==> d.value <= i
  {
    if i < |draws| && draws[i].Some? && draws[i].value <= i then draws[i] else None
  }

  predicate AnsweredFrom(draws: seq<Option<nat>>, lo: nat, n: nat) {
    forall i :: lo <= i < n ==> Draw(draws, i).Some?
  }

  /** Whether the random source answered every draw made for `n` columns. */
  predicate Answered(draws: seq<Option<nat>>, n: nat) {
    AnsweredFrom(draws, 1, n)
  }

  function Values(draws: seq<Option<nat>>, n: nat): (r: seq<nat>)
    ensures |r| == n && InRange(r)
  {
    seq(n, i requires 0 <= i < n => if Draw(draws, i).Some? then Draw(draws, i).value else 0)
  }

  /** Having settled the positions above `index`, the columns are on the way to `goal`. */
  ghost predicate OnTheWay<T>(goal: seq<T>, columns: seq<T>, draws: seq<Option<nat>>, index: nat) {
    index < |columns| && goal == Shuffled(columns, Values(draws, index + 1))
  }

  lemma StaysOnTheWay<T>(goal: seq<T>, columns: seq<T>, draws: seq<Option<nat>>, index: nat)
    requires 0 < index && OnTheWay(goal, columns, draws, index) && Draw(draws, index).Some?
    ensures OnTheWay(goal, Swapped(columns, index, Draw(draws, index).value), draws, index - 1)
  {
    assert Values(draws, index + 1)[..index] == Values(draws, index);
  }

  lemma KeepsColumns<T>(goal: seq<T>, columns: seq<T>, draws: seq<Option<nat>>, index: nat)
    requires OnTheWay(goal, columns, draws, index)
    ensures multiset(columns) == multiset(goal) && (index == 0 ==> columns == goal)
  {
    ShufflePermutes(columns, Values(draws, index + 1));
    assert index == 0 ==> Values(draws, 1)[..0] == [] && Swapped(columns, 0, 0) == columns;
  }

  method SwapAt<T>(columns: array<T>, i: nat, j: nat)
    requires i < columns.Length && j < columns.Length
    modifies columns
    ensures columns[..] == Swapped(old(columns[..]), i, j)
  {
    columns[i], columns[j] := columns[j], columns[i];
  }

  method ShuffleColumns<T>(columns: array<T>, draws: seq<Option<nat>>) returns (ok: bool)
    modifies columns
    ensures ok <==> Answered(draws, columns.Length)
    ensures ok ==> columns[..] == Shuffled(old(columns[..]), Values(draws, columns.Length))
    ensures multiset(columns[..]) == multiset(old(columns[..]))
  {
    var index := columns.Length - 1;
    if index <= 0 {
      return true;
    }
    ghost var goal := Shuffled(columns[..], Values(draws, columns.Length));
    KeepsColumns(goal, columns[..], draws, index);
    while index > 0
      invariant 0 <= index < columns.Length
      invariant AnsweredFrom(draws, index + 1, columns.Length)
      invariant OnTheWay(goal, columns[..], draws, index)
    {
      var draw := Draw(draws, index);
      if draw.None? {
        KeepsColumns(goal, columns[..], draws, index);
        return false;
      }
      StaysOnTheWay(goal, columns[..], draws, index);
      SwapAt(columns, index, draw.value);
      index := index - 1;
    }
    KeepsColumns(goal, columns[..], draws, 0);
    ok := true;
  }
}
