/** The image of a list under a function, as a multiset. */
module Images {

  function Image<T, U>(f: T --> U, s: seq<T>): (r: seq<U>)
    requires forall x <- s :: f.requires(x)
    ensures |r| == |s|
  {
    seq(|s|, i requires 0 <= i < |s| => f(s[i]))
  }

  lemma CancelOne<T>(a: multiset<T>, b: multiset<T>, x: T)
    requires a + multiset{x} == b + multiset{x}
    ensures a == b
  {
    assert a == (a + multiset{x}) - multiset{x};
  }

  lemma TakeOut<T, U>(f: T --> U, s: seq<T>, j: nat)
    requires j < |s| && forall x <- s :: f.requires(x)
    ensures var rest := s[..j] + s[j + 1..];
            && multiset(s) == multiset(rest) + multiset{s[j]}
            && (forall x <- rest :: f.requires(x))
            && multiset(Image(f, s)) == multiset(Image(f, rest)) + multiset{f(s[j])}
  {
    var rest := s[..j] + s[j + 1..];
    assert s == s[..j] + [s[j]] + s[j + 1..];
    assert forall x <- rest :: x in s;
    assert Image(f, s) == Image(f, s[..j]) + [f(s[j])] + Image(f, s[j + 1..]);
    assert Image(f, rest) == Image(f, s[..j]) + Image(f, s[j + 1..]);
  }

  /** Rearranging a list rearranges its image. */
  lemma {:induction false} ImagePermutes<T, U>(f: T --> U, a: seq<T>, b: seq<T>)
    requires multiset(a) == multiset(b)
    requires (forall x <- a :: f.requires(x)) && (forall x <- b :: f.requires(x))
    ensures multiset(Image(f, a)) == multiset(Image(f, b))
    decreases |a|
  {
    if a == [] {
      assert |multiset(b)| == |b|;
      return;
    }
    var x := a[|a| - 1];
    assert x in multiset(a) && x in multiset(b);
    var i, j :| 0 <= i < |a| && 0 <= j < |b| && a[i] == b[j] == x;
    TakeOut(f, a, i);
    TakeOut(f, b, j);
    CancelOne(multiset(a[..i] + a[i + 1..]), multiset(b[..j] + b[j + 1..]), x);
    ImagePermutes(f, a[..i] + a[i + 1..], b[..j] + b[j + 1..]);
  }
}
