/** Bundle entries in the byte order of their paths. */
module PathOrder {
  import opened Bytes

  type ObjectId = b: String | |b| == 32 witness Zeros(32)
  datatype Entry = Entry(path: String, objectId: ObjectId, media: String)

  /** Byte-wise lexicographic order. */
  predicate Less(a: String, b: String) {
    b != [] && (a == [] || a[0] < b[0] || (a[0] == b[0] && Less(a[1..], b[1..])))
  }

  lemma {:induction false} NeverLessThanItself(a: String)
    ensures !Less(a, a)
  {
    if a != [] {
      NeverLessThanItself(a[1..]);
    }
  }

  lemma {:induction false} LessTotal(a: String, b: String)
    ensures a == b || Less(a, b) || Less(b, a)
    ensures !(Less(a, b) && Less(b, a)) && (a == b ==> !Less(a, b))
  {
    NeverLessThanItself(a);
    if a != [] && b != [] && a[0] == b[0] {
      LessTotal(a[1..], b[1..]);
      assert a == [a[0]] + a[1..] && b == [b[0]] + b[1..];
    }
  }

  lemma {:induction false} LessTransitive(a: String, b: String, c: String)
    requires Less(a, b) && Less(b, c)
    ensures Less(a, c)
    decreases |a|
  {
    if a != [] && a[0] == b[0] == c[0] {
      LessTransitive(a[1..], b[1..], c[1..]);
    }
  }

  /** The entries by path; a later one replaces an earlier one. */
  function Index(s: seq<Entry>): map<String, Entry> {
    if s == [] then map[]
    else Index(s[..|s| - 1])[s[|s| - 1].path := s[|s| - 1]]
  }

  predicate NoRepeat(s: seq<Entry>) {
    s == [] || (NoRepeat(s[..|s| - 1]) && s[|s| - 1].path !in Index(s[..|s| - 1]))
  }

  /** Each path strictly after the one before. */
  predicate Rising(s: seq<Entry>) {
    |s| <= 1 || (Rising(s[..|s| - 1]) && Less(s[|s| - 2].path, s[|s| - 1].path))
  }

  function Inserted(s: seq<Entry>, e: Entry): (r: seq<Entry>)
    ensures |r| == |s| + 1
  {
    if s == [] || !Less(e.path, s[|s| - 1].path) then s + [e]
    else Inserted(s[..|s| - 1], e) + [s[|s| - 1]]
  }

  function Sorted(s: seq<Entry>): (r: seq<Entry>)
    ensures |r| == |s|
  {
    if s == [] then [] else Inserted(Sorted(s[..|s| - 1]), s[|s| - 1])
  }

  // --- Rising lists --------------------------------------------------------------------------------

  lemma Snoc(s: seq<Entry>, e: Entry)
    ensures (s + [e])[..|s|] == s
    ensures Index(s + [e]) == Index(s)[e.path := e]
    ensures Rising(s + [e]) <==> Rising(s) && (s == [] || Less(s[|s| - 1].path, e.path))
    ensures NoRepeat(s + [e]) <==> NoRepeat(s) && e.path !in Index(s)
  {
    assert (s + [e])[..|s|] == s;
  }

  /** The last path of a rising list is the greatest. */
  lemma {:induction false} LastIsGreatest(s: seq<Entry>, p: String)
    requires s != [] && Rising(s) && p in Index(s)
    ensures p == s[|s| - 1].path || Less(p, s[|s| - 1].path)
  {
    if |s| > 1 && p != s[|s| - 1].path {
      LastIsGreatest(s[..|s| - 1], p);
      if p != s[|s| - 2].path {
        LessTransitive(p, s[|s| - 2].path, s[|s| - 1].path);
      }
    }
  }

  lemma LastIsNew(s: seq<Entry>)
    requires s != [] && Rising(s)
    ensures s[|s| - 1].path !in Index(s[..|s| - 1])
  {
    var init, last := s[..|s| - 1], s[|s| - 1].path;
    if last in Index(init) {
      LastIsGreatest(init, last);
      LessTotal(last, init[|init| - 1].path);
    }
  }

  /** A rising list is determined by its index. */
  lemma {:induction false} RisingIsDetermined(a: seq<Entry>, b: seq<Entry>)
    requires Rising(a) && Rising(b) && Index(a) == Index(b)
    ensures a == b
    decreases |a|
  {
    if a == [] || b == [] {
      RisingHasNoRepeat(a);
      RisingHasNoRepeat(b);
      IndexSize(a);
      IndexSize(b);
      return;
    }
    var x, y := a[|a| - 1], b[|b| - 1];
    var a', b' := a[..|a| - 1], b[..|b| - 1];
    assert x.path in Index(a) && y.path in Index(b);
    LastIsGreatest(a, y.path);
    LastIsGreatest(b, x.path);
    LessTotal(x.path, y.path);
    assert x == Index(a)[x.path] == y;
    LastIsNew(a);
    LastIsNew(b);
    assert Index(a') == Index(a) - {x.path};
    assert Index(b') == Index(b) - {x.path};
    RisingIsDetermined(a', b');
    assert a == a' + [x] && b == b' + [y];
  }

  lemma {:induction false} RisingHasNoRepeat(s: seq<Entry>)
    requires Rising(s)
    ensures NoRepeat(s)
  {
    if s != [] {
      RisingHasNoRepeat(s[..|s| - 1]);
      LastIsNew(s);
    }
  }

  // --- Sorting -------------------------------------------------------------------------------------

  lemma {:induction false} InsertedIndex(s: seq<Entry>, e: Entry)
    ensures Index(Inserted(s, e)).Keys == Index(s).Keys + {e.path}
    ensures e.path !in Index(s) ==> Index(Inserted(s, e)) == Index(s)[e.path := e]
  {
    if s == [] || !Less(e.path, s[|s| - 1].path) {
      Snoc(s, e);
    } else {
      var init, last := s[..|s| - 1], s[|s| - 1];
      InsertedIndex(init, e);
      Snoc(Inserted(init, e), last);
    }
  }

  lemma {:induction false} InsertedRises(s: seq<Entry>, e: Entry)
    requires Rising(s) && e.path !in Index(s)
    ensures Rising(Inserted(s, e))
    ensures s != [] && Less(e.path, s[|s| - 1].path) ==>
              Inserted(s, e)[|s|] == s[|s| - 1]
  {
    if s == [] {
      return;
    }
    var init, last := s[..|s| - 1], s[|s| - 1];
    LessTotal(e.path, last.path);
    if !Less(e.path, last.path) {
      Snoc(s, e);
    } else {
      InsertedRises(init, e);
      var r := Inserted(init, e);
      Snoc(r, last);
    }
  }

  /** Sorting keeps the index of a list without repeats, and makes it rise. */
  lemma {:induction false} SortedRises(s: seq<Entry>)
    requires NoRepeat(s)
    ensures Rising(Sorted(s)) && Index(Sorted(s)) == Index(s)
  {
    if s != [] {
      SortedRises(s[..|s| - 1]);
      InsertedRises(Sorted(s[..|s| - 1]), s[|s| - 1]);
      InsertedIndex(Sorted(s[..|s| - 1]), s[|s| - 1]);
    }
  }

  lemma {:induction false} SortedKeys(s: seq<Entry>)
    ensures Index(Sorted(s)).Keys == Index(s).Keys
  {
    if s != [] {
      SortedKeys(s[..|s| - 1]);
      InsertedIndex(Sorted(s[..|s| - 1]), s[|s| - 1]);
    }
  }

  lemma {:induction false} IndexSize(s: seq<Entry>)
    ensures |Index(s)| <= |s| && (NoRepeat(s) <==> |Index(s)| == |s|)
  {
    if s != [] {
      IndexSize(s[..|s| - 1]);
    }
  }

  /** Sorting yields a rising list exactly when no path repeats. */
  lemma SortedRisesIff(s: seq<Entry>)
    ensures Rising(Sorted(s)) <==> NoRepeat(s)
  {
    if NoRepeat(s) {
      SortedRises(s);
    }
    if Rising(Sorted(s)) {
      RisingHasNoRepeat(Sorted(s));
      SortedKeys(s);
      IndexSize(Sorted(s));
      IndexSize(s);
      assert |Index(s)| == |Index(s).Keys|;
      assert |Index(Sorted(s))| == |Index(Sorted(s)).Keys|;
    }
  }

  // --- Neighbours ----------------------------------------------------------------------------------

  /** No path before the one before it. */
  predicate Ordered(s: seq<Entry>) {
    |s| <= 1 || (Ordered(s[..|s| - 1]) && !Less(s[|s| - 1].path, s[|s| - 2].path))
  }

  lemma {:induction false} InsertedOrdered(s: seq<Entry>, e: Entry)
    requires Ordered(s)
    ensures Ordered(Inserted(s, e))
  {
    if s == [] {
      return;
    }
    var init, last := s[..|s| - 1], s[|s| - 1];
    if !Less(e.path, last.path) {
      assert (s + [e])[..|s|] == s;
    } else {
      InsertedOrdered(init, e);
      var r := Inserted(init, e);
      assert (r + [last])[..|r|] == r;
      LessTotal(last.path, e.path);
      assert r[|r| - 1] == e || (init != [] && r[|r| - 1] == init[|init| - 1]);
    }
  }

  lemma {:induction false} SortedOrdered(s: seq<Entry>)
    ensures Ordered(Sorted(s))
  {
    if s != [] {
      SortedOrdered(s[..|s| - 1]);
      InsertedOrdered(Sorted(s[..|s| - 1]), s[|s| - 1]);
    }
  }

  /** In an ordered list, comparing neighbours finds every repeat. */
  lemma {:induction false} NeighboursTell(s: seq<Entry>)
    requires Ordered(s)
    ensures Rising(s) <==> forall i :: 0 <= i < |s| - 1 ==> s[i].path != s[i + 1].path
  {
    if |s| > 1 {
      var init := s[..|s| - 1];
      NeighboursTell(init);
      LessTotal(s[|s| - 2].path, s[|s| - 1].path);
      if Rising(s) {
        forall i | 0 <= i < |s| - 1 ensures s[i].path != s[i + 1].path {
          if i < |s| - 2 {
            assert init[i] == s[i] && init[i + 1] == s[i + 1];
          }
        }
      }
      if forall i :: 0 <= i < |s| - 1 ==> s[i].path != s[i + 1].path {
        forall i | 0 <= i < |init| - 1 ensures init[i].path != init[i + 1].path {
          assert s[i].path != s[i + 1].path;
        }
      }
    }
  }
}
