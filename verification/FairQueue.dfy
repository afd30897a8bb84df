/** Relay work with one bounded line per signed source, served in rotation. */
module FairQueue {
  import opened Options

  /** `x % n` for a sum of two places in a rotation of `n`. */
  function Wrap(x: nat, n: nat): (r: nat)
    requires x < 2 * n
    ensures r < n
  {
    if x < n then x else x - n
  }

  method Remainder(x: nat, n: nat) returns (r: nat)
    requires x < 2 * n
    ensures r == Wrap(x, n)
  {
    r := x % n;
  }

  predicate NoRepeats(order: seq<nat>) {
    forall i, j | 0 <= i < j < |order| :: order[i] != order[j]
  }

  /** The first occurrences, in order. */
  method Distinct(sources: seq<nat>) returns (order: seq<nat>)
    ensures |order| <= |sources| && (sources != [] ==> order != [])
    ensures NoRepeats(order)
    ensures forall s :: s in order <==> s in sources
  {
    order := [];
    for k := 0 to |sources|
      invariant |order| <= k && (k > 0 ==> order != [])
      invariant NoRepeats(order)
      invariant forall s :: s in order <==> s in sources[..k]
    {
      assert sources[..k + 1] == sources[..k] + [sources[k]];
      if sources[k] !in order {
        order := order + [sources[k]];
      }
    }
    assert sources[..|sources|] == sources;
  }

  datatype Queue<C> = Queue(
    capacity: nat, perSource: nat, order: seq<nat>, lines: map<nat, seq<C>>, turn: nat,
    dropped: map<nat, nat>)
  {
    ghost predicate Valid() {
      && order != [] && turn < |order|
      && (forall s :: s in order <==> s in lines)
      && 0 < perSource
      && forall s <- order :: |lines[s]| <= perSource
    }

    /** The shares together fit the configured bound. */
    ghost predicate Bounded() {
      |order| * perSource <= capacity
    }

    /** The first source with work, looking `k` or more places past `start`. */
    function Scan(start: nat, k: nat): (r: Option<nat>)
      requires start < |order| && forall s <- order :: s in lines
      ensures r.Some? ==> r.value in order && lines[r.value] != []
      decreases |order| - k
    {
      if k >= |order| then None
      else
        var source := order[Wrap(start + k, |order|)];
        if lines[source] == [] then Scan(start, k + 1) else Some(source)
    }
  }

  datatype Op<C> = Put(source: nat, cell: C) | Take

  /** Whether a cell offered now is taken. */
  predicate Admits<C>(q: Queue<C>, source: nat) {
    source in q.lines && |q.lines[source]| < q.perSource
  }

  function AfterPut<C>(q: Queue<C>, source: nat, cell: C): Queue<C> {
    if source !in q.lines then q
    else if |q.lines[source]| >= q.perSource then
      q.(dropped := q.dropped[source := (if source in q.dropped then q.dropped[source] else 0) + 1])
    else q.(lines := q.lines[source := q.lines[source] + [cell]])
  }

  function Served<C>(q: Queue<C>): Option<nat>
    requires q.Valid()
  {
    q.Scan(q.turn, 0)
  }

  function AfterTake<C>(q: Queue<C>): Queue<C>
    requires q.Valid()
  {
    var q1 := q.(turn := Wrap(q.turn + 1, |q.order|));
    match Served(q)
    case None => q1
    case Some(source) => q1.(lines := q.lines[source := q.lines[source][1..]])
  }

  function Step<C>(q: Queue<C>, op: Op<C>): Queue<C>
    requires q.Valid()
  {
    match op
    case Put(source, cell) => AfterPut(q, source, cell)
    case Take => AfterTake(q)
  }

  /** The cells one source's line gives out during a run. */
  function Output<C>(q: Queue<C>, ops: seq<Op<C>>, source: nat): seq<C>
    requires q.Valid()
    decreases |ops|
  {
    if ops == [] then []
    else
      StepKeepsValid(q, ops[0]);
      (if ops[0].Take? && Served(q) == Some(source) then [q.lines[source][0]] else [])
      + Output(Step(q, ops[0]), ops[1..], source)
  }

  /** The cells one source's line takes in during a run. */
  function Input<C>(q: Queue<C>, ops: seq<Op<C>>, source: nat): seq<C>
    requires q.Valid()
    decreases |ops|
  {
    if ops == [] then []
    else
      StepKeepsValid(q, ops[0]);
      (if ops[0].Put? && ops[0].source == source && Admits(q, source) then [ops[0].cell] else [])
      + Input(Step(q, ops[0]), ops[1..], source)
  }

  function Run<C>(q: Queue<C>, ops: seq<Op<C>>): (r: Queue<C>)
    requires q.Valid()
    ensures r.Valid() && r.order == q.order && r.capacity == q.capacity && r.perSource == q.perSource
    decreases |ops|
  {
    if ops == [] then q
    else
      StepKeepsValid(q, ops[0]);
      Run(Step(q, ops[0]), ops[1..])
  }

  function Takes<C>(ops: seq<Op<C>>): nat {
    if ops == [] then 0 else (if ops[0].Take? then 1 else 0) + Takes(ops[1..])
  }

  lemma StepKeepsValid<C>(q: Queue<C>, op: Op<C>)
    requires q.Valid()
    ensures Step(q, op).Valid() && Step(q, op).order == q.order
    ensures Step(q, op).capacity == q.capacity && Step(q, op).perSource == q.perSource
  {
  }

  /** Each line is first-in first-out and loses nothing: what it gave out,
      followed by what it holds, is what it held followed by what it took. */
  lemma {:induction false} LineIsFifo<C>(q: Queue<C>, ops: seq<Op<C>>, source: nat)
    requires q.Valid() && source in q.order
    ensures Output(q, ops, source) + Run(q, ops).lines[source]
         == q.lines[source] + Input(q, ops, source)
    decreases |ops|
  {
    if ops != [] {
      StepKeepsValid(q, ops[0]);
      var q' := Step(q, ops[0]);
      LineIsFifo(q', ops[1..], source);
      var out := if ops[0].Take? && Served(q) == Some(source) then [q.lines[source][0]] else [];
      var take := if ops[0].Put? && ops[0].source == source && Admits(q, source) then [ops[0].cell] else [];
      assert out + q'.lines[source] == q.lines[source] + take by { StepIsFifo(q, ops[0], source); }
      Regroup(out, Output(q', ops[1..], source), Run(q', ops[1..]).lines[source],
              q'.lines[source], Input(q', ops[1..], source), q.lines[source], take);
    }
  }

  lemma StepIsFifo<C>(q: Queue<C>, op: Op<C>, source: nat)
    requires q.Valid() && source in q.order
    ensures (if op.Take? && Served(q) == Some(source) then [q.lines[source][0]] else []) + Step(q, op).lines[source]
         == q.lines[source] + (if op.Put? && op.source == source && Admits(q, source) then [op.cell] else [])
  {
  }

  lemma Regroup<C>(a: seq<C>, b: seq<C>, c: seq<C>, d: seq<C>, e: seq<C>, f: seq<C>, g: seq<C>)
    requires b + c == d + e && a + d == f + g
    ensures (a + b) + c == f + (g + e)
  {
    assert (a + b) + c == a + (b + c);
    assert a + (d + e) == (a + d) + e;
  }

  /** How many takes pass before the rotation starts at place `i`. */
  function Distance<C>(q: Queue<C>, i: nat): (d: nat)
    requires q.Valid() && i < |q.order|
    ensures d < |q.order|
  {
    if i >= q.turn then i - q.turn else i + |q.order| - q.turn
  }

  lemma TakeAdvances<C>(q: Queue<C>, i: nat)
    requires q.Valid() && i < |q.order|
    ensures AfterTake(q).Valid()
    ensures Distance(AfterTake(q), i) == if Distance(q, i) == 0 then |q.order| - 1 else Distance(q, i) - 1
    ensures Distance(q, i) == 0 && q.lines[q.order[i]] != [] ==> Served(q) == Some(q.order[i])
    ensures Served(q) != Some(q.order[i]) ==> AfterTake(q).lines[q.order[i]] == q.lines[q.order[i]]
  {
    StepKeepsValid(q, Take);
  }

  /** A line holding more than `p` cells gives out `p + 1` of them within
      distance + 1 + n*p takes, whatever else is offered in between. */
  lemma ServiceBound<C>(q: Queue<C>, ops: seq<Op<C>>, i: nat, p: nat)
    requires q.Valid() && i < |q.order| && p < |q.lines[q.order[i]]|
    requires Takes(ops) >= Distance(q, i) + 1 + |q.order| * p
    ensures |Output(q, ops, q.order[i])| > p
  {
    RoundsAre(|q.order|, p);
    ServedBy(q, ops, i, p, Rounds(|q.order|, p));
  }

  /** `n * p` as a sum. */
  function Rounds(n: nat, p: nat): nat {
    if p == 0 then 0 else Rounds(n, p - 1) + n
  }

  lemma {:induction false} RoundsAre(n: nat, p: nat)
    ensures Rounds(n, p) == n * p
  {
    if p > 0 {
      RoundsAre(n, p - 1);
      OneFewer(n, p);
    }
  }

  lemma {:induction false} ServedBy<C>(q: Queue<C>, ops: seq<Op<C>>, i: nat, p: nat, rounds: nat)
    requires q.Valid() && i < |q.order| && p < |q.lines[q.order[i]]|
    requires rounds == Rounds(|q.order|, p) && Takes(ops) >= Distance(q, i) + 1 + rounds
    ensures |Output(q, ops, q.order[i])| > p
    decreases |ops|
  {
    StepKeepsValid(q, ops[0]);
    var q' := Step(q, ops[0]);
    if ops[0].Put? {
      ServedBy(q', ops[1..], i, p, rounds);
    } else {
      TakeAdvances(q, i);
      if Served(q) != Some(q.order[i]) {
        ServedBy(q', ops[1..], i, p, rounds);
      } else if p > 0 {
        ServedBy(q', ops[1..], i, p - 1, rounds - |q.order|);
      }
    }
  }

  lemma OneFewer(n: nat, p: nat)
    requires p > 0
    ensures n * p == n * (p - 1) + n
  {
  }

  /** The wait bound: the cell with `p` cells ahead of it in its own line leaves
      within n*(p+1) takes, and n*(p+1) never exceeds the queue's capacity. */
  lemma WaitBound<C>(q: Queue<C>, ops: seq<Op<C>>, i: nat, p: nat)
    requires q.Valid() && q.Bounded() && i < |q.order| && p < |q.lines[q.order[i]]|
    requires Takes(ops) >= |q.order| * (p + 1)
    ensures |q.order| * (p + 1) <= q.capacity
    ensures |Output(q, ops, q.order[i])| > p
    ensures Output(q, ops, q.order[i])[p] == q.lines[q.order[i]][p]
  {
    var n, source := |q.order|, q.order[i];
    assert n * (p + 1) == n + n * p;
    ServiceBound(q, ops, i, p);
    LineIsFifo(q, ops, source);
    SamePlace(Output(q, ops, source), Run(q, ops).lines[source], q.lines[source], Input(q, ops, source), p);
    assert |q.lines[source]| <= q.perSource;
    Monotone(n, p + 1, q.perSource);
  }

  lemma SamePlace<C>(a: seq<C>, b: seq<C>, c: seq<C>, d: seq<C>, p: nat)
    requires a + b == c + d && p < |a| && p < |c|
    ensures a[p] == c[p]
  {
    assert (a + b)[p] == a[p] && (c + d)[p] == c[p];
  }

  lemma Monotone(n: nat, a: nat, b: nat)
    requires a <= b
    ensures n * a <= n * b
  {
  }

  // --- Occupancy -----------------------------------------------------------------------

  function Waiting<C>(lines: map<nat, seq<C>>, order: seq<nat>): nat
    requires forall s <- order :: s in lines
  {
    if order == [] then 0 else |lines[order[0]]| + Waiting(lines, order[1..])
  }

  lemma {:induction false} WaitingBound<C>(lines: map<nat, seq<C>>, order: seq<nat>, share: nat)
    requires forall s <- order :: s in lines && |lines[s]| <= share
    ensures Waiting(lines, order) <= |order| * share
  {
    if order != [] {
      WaitingBound(lines, order[1..], share);
      assert |order| * share == (|order| - 1) * share + share;
    }
  }

  /** The queue never holds more cells than its configured capacity. */
  lemma CapacityHolds<C>(q: Queue<C>, ops: seq<Op<C>>)
    requires q.Valid() && q.Bounded()
    ensures Waiting(Run(q, ops).lines, q.order) <= q.capacity
  {
    var r := Run(q, ops);
    WaitingBound(r.lines, r.order, r.perSource);
  }

  lemma {:induction false} NoInput<C>(q: Queue<C>, ops: seq<Op<C>>, source: nat)
    requires q.Valid() && forall op <- ops :: op.Put? ==> op.source != source
    ensures Input(q, ops, source) == []
    decreases |ops|
  {
    if ops != [] {
      StepKeepsValid(q, ops[0]);
      assert ops[0] in ops && forall op <- ops[1..] :: op in ops;
      NoInput(Step(q, ops[0]), ops[1..], source);
    }
  }

  /** Room in a line is used up only by its own source: whatever the others put
      and however much is taken, the line keeps the tail of what it held. */
  lemma FloodIsLocal<C>(q: Queue<C>, ops: seq<Op<C>>, source: nat)
    requires q.Valid() && source in q.order
    requires forall op <- ops :: op.Put? ==> op.source != source
    ensures Output(q, ops, source) + Run(q, ops).lines[source] == q.lines[source]
    ensures Admits(q, source) ==> Admits(Run(q, ops), source)
  {
    NoInput(q, ops, source);
    LineIsFifo(q, ops, source);
    assert q.lines[source] + [] == q.lines[source];
  }

  // --- What others can cost a source ---------------------------------------------------------

  /** One source's own operations: its offers, and the takes. */
  function Restrict<C>(ops: seq<Op<C>>, source: nat): seq<Op<C>> {
    if ops == [] then []
    else if ops[0].Put? && ops[0].source != source then Restrict(ops[1..], source)
    else [ops[0]] + Restrict(ops[1..], source)
  }

  predicate AllAdmitted<C>(q: Queue<C>, ops: seq<Op<C>>, source: nat)
    requires q.Valid()
    decreases |ops|
  {
    ops == []
    || (StepKeepsValid(q, ops[0]);
        (ops[0].Put? && ops[0].source == source ==> Admits(q, source))
        && AllAdmitted(Step(q, ops[0]), ops[1..], source))
  }

  /** The same operations on a line of its own that is served only on its turn, once
      in `n` takes: no offer finds the line full. */
  predicate FitsTurns<C>(share: nat, backlog: nat, distance: nat, n: nat, own: seq<Op<C>>)
    requires distance < n
    decreases |own|
  {
    if own == [] then true
    else if own[0].Put? then backlog < share && FitsTurns(share, backlog + 1, distance, n, own[1..])
    else if distance == 0 then FitsTurns(share, if backlog == 0 then 0 else backlog - 1, n - 1, n, own[1..])
    else FitsTurns(share, backlog, distance - 1, n, own[1..])
  }

  /** A source whose offers fit its turns is never refused, whatever the others do. */
  lemma {:induction false} NeverRefused<C>(q: Queue<C>, ops: seq<Op<C>>, i: nat, backlog: nat)
    requires q.Valid() && i < |q.order| && |q.lines[q.order[i]]| <= backlog
    requires FitsTurns(q.perSource, backlog, Distance(q, i), |q.order|, Restrict(ops, q.order[i]))
    ensures AllAdmitted(q, ops, q.order[i])
    decreases |ops|
  {
    if ops == [] {
      return;
    }
    var source := q.order[i];
    StepKeepsValid(q, ops[0]);
    var q', own := Step(q, ops[0]), Restrict(ops, source);
    assert source in q.order;
    if ops[0].Put? && ops[0].source != source {
      NeverRefused(q', ops[1..], i, backlog);
    } else {
      assert own[0] == ops[0] && own[1..] == Restrict(ops[1..], source);
      if ops[0].Put? {
        NeverRefused(q', ops[1..], i, backlog + 1);
      } else {
        TakeAdvances(q, i);
        ShorterAfterTake(q, i);
        NeverRefused(q', ops[1..], i, if Distance(q, i) == 0 && backlog > 0 then backlog - 1 else backlog);
      }
    }
  }

  lemma ShorterAfterTake<C>(q: Queue<C>, i: nat)
    requires q.Valid() && i < |q.order|
    ensures |AfterTake(q).lines[q.order[i]]|
         == |q.lines[q.order[i]]| - if Served(q) == Some(q.order[i]) then 1 else 0
  {
  }

  // --- And no less ------------------------------------------------------------------------------

  /** One more cell from every other source. */
  function Flood<C>(order: seq<nat>, source: nat, cell: C): seq<Op<C>> {
    if order == [] then []
    else (if order[0] == source then [] else [Put(order[0], cell)]) + Flood(order[1..], source, cell)
  }

  /** Every other source refills its line before each take. */
  function Flooded<C>(order: seq<nat>, source: nat, own: seq<Op<C>>, cell: C): seq<Op<C>> {
    if own == [] then []
    else (if own[0].Take? then Flood(order, source, cell) else []) + [own[0]] + Flooded(order, source, own[1..], cell)
  }

  lemma {:induction false} RestrictConcat<C>(a: seq<Op<C>>, b: seq<Op<C>>, source: nat)
    ensures Restrict(a + b, source) == Restrict(a, source) + Restrict(b, source)
  {
    if a == [] {
      assert a + b == b;
    } else {
      assert (a + b)[1..] == a[1..] + b;
      RestrictConcat(a[1..], b, source);
    }
  }

  lemma {:induction false} FloodIsOthers<C>(order: seq<nat>, source: nat, cell: C)
    ensures Restrict(Flood(order, source, cell), source) == []
    ensures forall op <- Flood(order, source, cell) :: op.Put? && op.source != source
  {
    if order != [] {
      FloodIsOthers(order[1..], source, cell);
      if order[0] != source {
        assert Flood(order, source, cell)[1..] == Flood(order[1..], source, cell);
      } else {
        assert Flood(order, source, cell) == Flood(order[1..], source, cell);
      }
    }
  }

  lemma RestrictParts<C>(others: seq<Op<C>>, op: Op<C>, rest: seq<Op<C>>, source: nat)
    requires Restrict(others, source) == [] && (op.Put? ==> op.source == source)
    ensures Restrict(others + [op] + rest, source) == [op] + Restrict(rest, source)
  {
    assert others + [op] + rest == others + ([op] + rest);
    RestrictConcat(others, [op] + rest, source);
    assert ([op] + rest)[1..] == rest;
  }

  lemma {:induction false} FloodedRestricts<C>(order: seq<nat>, source: nat, own: seq<Op<C>>, cell: C)
    requires forall i | 0 <= i < |own| :: own[i].Put? ==> own[i].source == source
    ensures Restrict(Flooded(order, source, own, cell), source) == own
  {
    if own != [] {
      FloodedRestricts(order, source, own[1..], cell);
      FloodIsOthers(order, source, cell);
      RestrictParts(if own[0].Take? then Flood(order, source, cell) else [], own[0],
                    Flooded(order, source, own[1..], cell), source);
    }
  }

  /** What one refill does: every other line has work, this one is as it was. */
  lemma {:induction false} FloodFills<C>(q: Queue<C>, order: seq<nat>, source: nat, cell: C)
    requires q.Valid() && source in q.order && forall s <- order :: s in q.order
    ensures var r := Run(q, Flood(order, source, cell));
            && r.turn == q.turn && r.lines[source] == q.lines[source]
            && (forall s <- q.order :: q.lines[s] != [] ==> r.lines[s] != [])
            && (forall s <- order :: s != source ==> r.lines[s] != [])
    decreases |order|
  {
    if order != [] {
      var s := order[0];
      assert s in order && forall x <- order[1..] :: x in order;
      if s == source {
        assert Flood(order, source, cell) == Flood(order[1..], source, cell);
        FloodFills(q, order[1..], source, cell);
      } else {
        var put: Op<C> := Put(s, cell);
        StepKeepsValid(q, put);
        assert Flood(order, source, cell)[0] == put;
        assert Flood(order, source, cell)[1..] == Flood(order[1..], source, cell);
        FloodFills(Step(q, put), order[1..], source, cell);
      }
    }
  }

  lemma {:induction false} AdmittedConcat<C>(q: Queue<C>, a: seq<Op<C>>, b: seq<Op<C>>, source: nat)
    requires q.Valid()
    ensures AllAdmitted(q, a + b, source) ==> AllAdmitted(Run(q, a), b, source)
    decreases |a|
  {
    if a == [] {
      assert a + b == b;
    } else {
      StepKeepsValid(q, a[0]);
      assert (a + b)[0] == a[0] && (a + b)[1..] == a[1..] + b;
      AdmittedConcat(Step(q, a[0]), a[1..], b, source);
    }
  }

  lemma AdmittedCons<C>(q: Queue<C>, op: Op<C>, rest: seq<Op<C>>, source: nat)
    requires q.Valid()
    ensures Step(q, op).Valid()
    ensures AllAdmitted(q, [op] + rest, source)
       <==> (op.Put? && op.source == source ==> Admits(q, source)) && AllAdmitted(Step(q, op), rest, source)
  {
    StepKeepsValid(q, op);
    assert ([op] + rest)[1..] == rest;
  }

  /** With every other line filled, a source is served exactly on its turn. */
  lemma OnlyOnItsTurn<C>(q: Queue<C>, i: nat)
    requires q.Valid() && NoRepeats(q.order) && i < |q.order|
    requires forall s <- q.order :: s != q.order[i] ==> q.lines[s] != []
    ensures Served(q) == Some(q.order[i]) <==> Distance(q, i) == 0 && q.lines[q.order[i]] != []
  {
    assert q.order[q.turn] in q.order;
    TakeAdvances(q, i);
  }

  /** Offers that do not fit the turns are refused under a flood. */
  lemma {:induction false} FloodRefuses<C>(q: Queue<C>, own: seq<Op<C>>, i: nat, cell: C)
    requires q.Valid() && NoRepeats(q.order) && i < |q.order|
    requires forall op <- own :: op.Put? ==> op.source == q.order[i]
    requires !FitsTurns(q.perSource, |q.lines[q.order[i]]|, Distance(q, i), |q.order|, own)
    ensures !AllAdmitted(q, Flooded(q.order, q.order[i], own, cell), q.order[i])
    decreases |own|
  {
    var source := q.order[i];
    assert source in q.order && own[0] in own && forall op <- own[1..] :: op in own;
    FloodedParts(q, own, source, cell);
    if own[0].Put? {
      PutGrowsLine(q, own[0], i);
      if Admits(q, source) {
        FloodRefuses(Step(q, own[0]), own[1..], i, cell);
      }
    } else {
      FloodRefills(q, i, cell);
      var r := Run(q, Flood(q.order, source, cell));
      TakeUnderFlood(q, r, i);
      FloodRefuses(AfterTake(r), own[1..], i, cell);
    }
  }

  /** What follows a flooded prefix decides. */
  lemma FloodedParts<C>(q: Queue<C>, own: seq<Op<C>>, source: nat, cell: C)
    requires q.Valid() && own != [] && (own[0].Put? ==> own[0].source == source)
    ensures
      var rest, flood := Flooded(q.order, source, own[1..], cell), Flood(q.order, source, cell);
      if own[0].Put? then
        && Step(q, own[0]).Valid()
        && (AllAdmitted(q, Flooded(q.order, source, own, cell), source) ==>
              Admits(q, source) && AllAdmitted(Step(q, own[0]), rest, source))
      else
        && AfterTake(Run(q, flood)).Valid()
        && (AllAdmitted(q, Flooded(q.order, source, own, cell), source) ==>
              AllAdmitted(AfterTake(Run(q, flood)), rest, source))
  {
    var rest, flood := Flooded(q.order, source, own[1..], cell), Flood(q.order, source, cell);
    if own[0].Put? {
      assert Flooded(q.order, source, own, cell) == [own[0]] + rest;
      AdmittedCons(q, own[0], rest, source);
    } else {
      assert Flooded(q.order, source, own, cell) == flood + ([own[0]] + rest);
      AdmittedConcat(q, flood, [own[0]] + rest, source);
      AdmittedCons(Run(q, flood), Take, rest, source);
    }
  }

  lemma PutGrowsLine<C>(q: Queue<C>, put: Op<C>, i: nat)
    requires q.Valid() && i < |q.order| && put.Put? && put.source == q.order[i]
    ensures
      var q' := Step(q, put);
      && q'.Valid() && q'.order == q.order && q'.perSource == q.perSource && q'.turn == q.turn
      && (Admits(q, put.source) <==> |q.lines[put.source]| < q.perSource)
      && (Admits(q, put.source) ==> |q'.lines[put.source]| == |q.lines[put.source]| + 1)
  {
    assert q.order[i] in q.order;
    StepKeepsValid(q, put);
  }

  /** A queue after a refill: every other line has work, this one is as it was. */
  ghost predicate Refilled<C>(q: Queue<C>, r: Queue<C>, i: nat)
    requires q.Valid() && i < |q.order|
  {
    && r.Valid() && r.order == q.order && r.perSource == q.perSource && r.turn == q.turn
    && r.lines[q.order[i]] == q.lines[q.order[i]]
    && forall s <- q.order :: s != q.order[i] ==> r.lines[s] != []
  }

  lemma FloodRefills<C>(q: Queue<C>, i: nat, cell: C)
    requires q.Valid() && i < |q.order|
    ensures Refilled(q, Run(q, Flood(q.order, q.order[i], cell)), i)
  {
    assert q.order[i] in q.order;
    FloodFills(q, q.order, q.order[i], cell);
  }

  lemma TakeUnderFlood<C>(q: Queue<C>, r: Queue<C>, i: nat)
    requires q.Valid() && NoRepeats(q.order) && i < |q.order| && Refilled(q, r, i)
    ensures
      var r', source, d := AfterTake(r), q.order[i], Distance(q, i);
      && r'.Valid() && r'.order == q.order && r'.perSource == q.perSource
      && Distance(r', i) == (if d == 0 then |q.order| - 1 else d - 1)
      && |r'.lines[source]| == |q.lines[source]| - if d == 0 && q.lines[source] != [] then 1 else 0
  {
    TakeWhenFilled(r, i);
  }

  lemma TakeWhenFilled<C>(r: Queue<C>, i: nat)
    requires r.Valid() && NoRepeats(r.order) && i < |r.order|
    requires forall s <- r.order :: s != r.order[i] ==> r.lines[s] != []
    ensures
      var r', line, d := AfterTake(r), r.lines[r.order[i]], Distance(r, i);
      && r'.Valid() && r'.order == r.order && r'.perSource == r.perSource
      && Distance(r', i) == (if d == 0 then |r.order| - 1 else d - 1)
      && |r'.lines[r.order[i]]| == |line| - if d == 0 && line != [] then 1 else 0
  {
    OnlyOnItsTurn(r, i);
    TakeAdvances(r, i);
    ShorterAfterTake(r, i);
    StepKeepsValid(r, Take);
  }

  /** The exact price of the others: whatever they do, all of a source's offers are
      admitted if and only if they fit its own turns. */
  lemma AdmittedWhateverOthersDoIff<C>(q: Queue<C>, own: seq<Op<C>>, i: nat, cell: C)
    requires q.Valid() && NoRepeats(q.order) && i < |q.order|
    requires forall op <- own :: op.Put? ==> op.source == q.order[i]
    ensures FitsTurns(q.perSource, |q.lines[q.order[i]]|, Distance(q, i), |q.order|, own)
       <==> forall ops | Restrict(ops, q.order[i]) == own :: AllAdmitted(q, ops, q.order[i])
  {
    var source := q.order[i];
    if FitsTurns(q.perSource, |q.lines[source]|, Distance(q, i), |q.order|, own) {
      forall ops | Restrict(ops, source) == own ensures AllAdmitted(q, ops, source) {
        NeverRefused(q, ops, i, |q.lines[source]|);
      }
    } else {
      FloodedRestricts(q.order, source, own, cell);
      FloodRefuses(q, own, i, cell);
    }
  }

  /** At least `n` takes before each offer, counting from `since` takes ago. */
  predicate Spaced<C>(own: seq<Op<C>>, n: nat, since: nat)
    decreases |own|
  {
    if own == [] then true
    else if own[0].Put? then since >= n && Spaced(own[1..], n, 0)
    else Spaced(own[1..], n, since + 1)
  }

  /** In particular a source that offers at most one cell in `n` takes is never refused. */
  lemma {:induction false} SpacedOffersFit<C>(share: nat, backlog: nat, distance: nat, n: nat,
                                              own: seq<Op<C>>, since: nat)
    requires 0 < share && distance < n && Spaced(own, n, since)
    requires backlog == 0 || (backlog == 1 && distance + since < n)
    ensures FitsTurns(share, backlog, distance, n, own)
    decreases |own|
  {
    if own != [] {
      if own[0].Put? {
        SpacedOffersFit(share, backlog + 1, distance, n, own[1..], 0);
      } else if distance == 0 {
        SpacedOffersFit(share, 0, n - 1, n, own[1..], since + 1);
      } else {
        SpacedOffersFit(share, backlog, distance - 1, n, own[1..], since + 1);
      }
    }
  }

  /** Two sources, one place each. */
  function Pair<C>(zero: seq<C>, one: seq<C>, turn: nat): Queue<C> {
    Queue(2, 1, [0, 1], map[0 := zero, 1 := one], turn, map[])
  }

  lemma PairPuts<C>(c: C, one: seq<C>, turn: nat)
    requires |one| <= 1 && turn <= 1
    ensures Pair([], one, turn).Valid() && Pair([c], one, turn).Valid()
    ensures Step(Pair([], one, turn), Put(0, c)) == Pair([c], one, turn)
    ensures Step(Pair([c], [], turn), Put(1, c)) == Pair([c], [c], turn)
  {
    var none: seq<C> := [];
    assert none + [c] == [c];
    assert map[0 := none, 1 := one][0 := [c]] == map[0 := [c], 1 := one];
    assert map[0 := [c], 1 := none][1 := [c]] == map[0 := [c], 1 := [c]];
  }

  lemma PairTakesZero<C>(c: C, one: seq<C>)
    requires |one| <= 1
    ensures Pair([c], one, 0).Valid() && Step(Pair([c], one, 0), Take) == Pair([], one, 1)
  {
    var none: seq<C> := [];
    assert [c][1..] == none;
    assert map[0 := [c], 1 := one][0 := none] == map[0 := none, 1 := one];
  }

  lemma PairTakesOne<C>(c: C)
    ensures Pair([c], [c], 1).Valid() && Step(Pair([c], [c], 1), Take) == Pair([c], [], 0)
    ensures Pair([c], [], 1).Valid() && Step(Pair([c], [], 1), Take) == Pair([], [], 0)
  {
    var none: seq<C> := [];
    assert [c][1..] == none;
    assert map[0 := [c], 1 := [c]][1 := none] == map[0 := [c], 1 := none];
    assert map[0 := [c], 1 := none][0 := none] == map[0 := none, 1 := none];
    var q := Pair([c], none, 1);
    assert q.Scan(1, 0) == q.Scan(1, 1);
  }

  /** Others can cost a source a cell: with one place per line, a second source's
      single cell turns the last of these offers from admitted to refused. */
  lemma OthersCanCostACell<C>(c: C)
    ensures
      var q := Pair([], [], 0);
      && q.Valid()
      && AllAdmitted(q, [Put(0, c)] + ([Take] + ([Put(0, c)] + ([Take] + ([Put(0, c)] + [])))), 0)
      && !AllAdmitted(q, [Put(0, c)] + ([Put(1, c)] + ([Take] + ([Put(0, c)] + ([Take] + ([Put(0, c)] + []))))), 0)
  {
    PairPuts(c, [], 0);
    PairPuts(c, [], 1);
    PairPuts(c, [c], 0);
    PairPuts(c, [c], 1);
    PairTakesZero(c, []);
    PairTakesZero(c, [c]);
    PairTakesOne(c);
    var end: seq<Op<C>> := [];
    var last := [Put(0, c)] + end;
    AdmittedCons(Pair([], [], 0), Put(0, c), [Take] + ([Put(0, c)] + ([Take] + last)), 0);
    AdmittedCons(Pair([c], [], 0), Take, [Put(0, c)] + ([Take] + last), 0);
    AdmittedCons(Pair([], [], 1), Put(0, c), [Take] + last, 0);
    AdmittedCons(Pair([c], [], 1), Take, last, 0);
    AdmittedCons(Pair([], [], 0), Put(0, c), end, 0);
    AdmittedCons(Pair([], [], 0), Put(0, c), [Put(1, c)] + ([Take] + ([Put(0, c)] + ([Take] + last))), 0);
    AdmittedCons(Pair([c], [], 0), Put(1, c), [Take] + ([Put(0, c)] + ([Take] + last)), 0);
    AdmittedCons(Pair([c], [c], 0), Take, [Put(0, c)] + ([Take] + last), 0);
    AdmittedCons(Pair([], [c], 1), Put(0, c), [Take] + last, 0);
    AdmittedCons(Pair([c], [c], 1), Take, last, 0);
    AdmittedCons(Pair([c], [], 0), Put(0, c), end, 0);
  }

  // --- The object ------------------------------------------------------------------------

  class RelayQueue<C> {
    var capacity: nat
    var perSource: nat
    var order: seq<nat>
    var lines: map<nat, seq<C>>
    var turn: nat
    var dropped: map<nat, nat>

    function View(): Queue<C>
      reads this
    {
      Queue(capacity, perSource, order, lines, turn, dropped)
    }

    ghost predicate Valid()
      reads this
    {
      View().Valid()
    }

    /** `sources` may repeat; the share divides by its full length. */
    constructor (capacity: nat, sources: seq<nat>)
      requires sources != [] && capacity / |sources| >= 1
      ensures Valid() && View().Bounded()
      ensures this.capacity == capacity && perSource == capacity / |sources| && turn == 0 && dropped == map[]
      ensures NoRepeats(order)
      ensures forall s :: s in order <==> s in sources
      ensures forall s <- order :: lines[s] == []
    {
      this.capacity, perSource, turn, dropped := capacity, capacity / |sources|, 0, map[];
      var distinct := Distinct(sources);
      order := distinct;
      lines := map s | s in distinct :: [];
      ghost var share := capacity / |sources|;
      assert |distinct| * share <= capacity by {
        Monotone(share, |distinct|, |sources|);
        assert share * |sources| <= capacity;
      }
    }

    method Enqueue(source: nat, cell: C) returns (taken: bool)
      requires Valid()
      modifies this
      ensures Valid()
      ensures taken == Admits(old(View()), source)
      ensures View() == AfterPut(old(View()), source, cell)
    {
      StepKeepsValid(View(), Put(source, cell));
      if source !in lines {
        return false;
      }
      var line := lines[source];
      if |line| >= perSource {
        dropped := dropped[source := (if source in dropped then dropped[source] else 0) + 1];
        return false;
      }
      lines := lines[source := line + [cell]];
      return true;
    }

    /** The rotation's first line with work, from `start` on. */
    method FirstWithWork(start: nat) returns (found: Option<nat>)
      requires Valid() && start < |order|
      ensures found == View().Scan(start, 0)
    {
      for offset := 0 to |order|
        invariant View().Scan(start, 0) == View().Scan(start, offset)
      {
        var place := Remainder(start + offset, |order|);
        var source := order[place];
        if lines[source] != [] {
          return Some(source);
        }
      }
      return None;
    }

    method NextCell() returns (cell: Option<C>)
      requires Valid()
      modifies this
      ensures Valid()
      ensures View() == AfterTake(old(View()))
      ensures cell == match Served(old(View()))
                      case None => None
                      case Some(source) => Some(old(lines[source][0]))
      ensures cell.None? <==> forall s <- old(order) :: old(lines[s]) == []
    {
      EmptyEverywhere(View());
      StepKeepsValid(View(), Take);
      var start := Remainder(turn, |order|);
      var found := FirstWithWork(start);
      turn := Remainder(turn + 1, |order|);
      if found.None? {
        return None;
      }
      var line := lines[found.value];
      cell := Some(line[0]);
      lines := lines[found.value := line[1..]];
    }

    method Len() returns (total: nat)
      requires Valid() && View().Bounded()
      ensures total == Waiting(lines, order) && total <= capacity
    {
      total := 0;
      for i := 0 to |order|
        invariant total + Waiting(lines, order[i..]) == Waiting(lines, order)
      {
        assert order[i..][0] == order[i] && order[i..][1..] == order[i + 1..];
        total := total + |lines[order[i]]|;
      }
      WaitingBound(lines, order, perSource);
    }
  }

  /** Refuses a configuration in which some source would have no share. */
  method NewFairQueue<C>(capacity: int, sources: seq<nat>) returns (q: RelayQueue?<C>)
    ensures q == null <==> capacity < 1 || sources == [] || capacity < |sources|
    ensures q != null ==> fresh(q) && q.Valid() && q.View().Bounded() && q.capacity == capacity
    ensures q != null ==> q.perSource == capacity / |sources|
    ensures q != null ==> NoRepeats(q.order) && forall s :: s in q.order <==> s in sources
    ensures q != null ==> (forall s <- q.order :: q.lines[s] == []) && q.turn == 0 && q.dropped == map[]
  {
    if capacity < 1 || sources == [] {
      return null;
    }
    if capacity / |sources| < 1 {
      return null;
    }
    q := new RelayQueue(capacity, sources);
  }

  lemma {:induction false} ScanMisses<C>(q: Queue<C>, start: nat, k: nat, i: nat)
    requires q.Valid() && start < |q.order| && k <= i < |q.order| && q.Scan(start, k).None?
    ensures q.lines[q.order[Wrap(start + i, |q.order|)]] == []
    decreases i - k
  {
    if k < i { ScanMisses(q, start, k + 1, i); }
  }

  /** The line a scan looks at in its `i`-th step. */
  function LineAt<C>(q: Queue<C>, start: nat, i: nat): seq<C>
    requires q.Valid() && start < |q.order| && i < |q.order|
  {
    q.lines[q.order[Wrap(start + i, |q.order|)]]
  }

  lemma {:induction false} ScanFinds<C>(q: Queue<C>, start: nat, k: nat) returns (j: nat)
    requires q.Valid() && start < |q.order| && q.Scan(start, k).Some?
    ensures k <= j < |q.order| && q.Scan(start, k) == Some(q.order[Wrap(start + j, |q.order|)])
    ensures forall i | k <= i < j :: LineAt(q, start, i) == []
    decreases |q.order| - k
  {
    if LineAt(q, start, k) != [] {
      j := k;
    } else {
      j := ScanFinds(q, start, k + 1);
    }
  }

  /** A take serves the line with work that is nearest in the rotation. */
  lemma ServesNearest<C>(q: Queue<C>) returns (place: nat)
    requires q.Valid() && Served(q).Some?
    ensures place < |q.order| && Served(q) == Some(q.order[place]) && q.lines[q.order[place]] != []
    ensures forall i | 0 <= i < |q.order| && Distance(q, i) < Distance(q, place) :: q.lines[q.order[i]] == []
  {
    var j := ScanFinds(q, q.turn, 0);
    place := Wrap(q.turn + j, |q.order|);
    forall i | 0 <= i < |q.order| && Distance(q, i) < Distance(q, place) ensures q.lines[q.order[i]] == [] {
      assert LineAt(q, q.turn, Distance(q, i)) == [];
    }
  }

  /** The offers of a listed source that found its line full. */
  function Refusals<C>(q: Queue<C>, ops: seq<Op<C>>, source: nat): nat
    requires q.Valid()
    decreases |ops|
  {
    if ops == [] then 0
    else
      StepKeepsValid(q, ops[0]);
      (if ops[0].Put? && ops[0].source == source && source in q.order && |q.lines[source]| == q.perSource then 1 else 0)
      + Refusals(Step(q, ops[0]), ops[1..], source)
  }

  function DroppedOf<C>(q: Queue<C>, source: nat): nat {
    if source in q.dropped then q.dropped[source] else 0
  }

  /** The drop counter of each source is the number of its offers that found its line
      full; unlisted sources are not counted. */
  lemma {:induction false} DropsAreCounted<C>(q: Queue<C>, ops: seq<Op<C>>, source: nat)
    requires q.Valid()
    ensures DroppedOf(Run(q, ops), source) == DroppedOf(q, source) + Refusals(q, ops, source)
    decreases |ops|
  {
    if ops != [] {
      StepKeepsValid(q, ops[0]);
      DropsAreCounted(Step(q, ops[0]), ops[1..], source);
    }
  }

  /** The scan visits every line. */
  lemma EmptyEverywhere<C>(q: Queue<C>)
    requires q.Valid()
    ensures Served(q).None? <==> forall s <- q.order :: q.lines[s] == []
  {
    if Served(q).None? {
      forall s | s in q.order ensures q.lines[s] == [] {
        var j :| 0 <= j < |q.order| && q.order[j] == s;
        ScanMisses(q, q.turn, 0, Distance(q, j));
      }
    }
  }
}
