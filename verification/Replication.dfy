/**
 * Whole runs of replicated counters and registers: replicas act on their own
 * state and take in states of each other, in any order, lost, late or repeated.
 */
module Replication {
  import opened Base
  import opened Codec
  import opened Crdt

  // ------------------------------------------------------------ what a replica has seen

  /** In the order things happened; `Take` merges the state that event `from` left behind. */
  datatype Op<T> = Act(replica: Node, what: T) | Take(replica: Node, from: nat)

  predicate WellFormed<T>(es: seq<Op<T>>) {
    forall i :: 0 <= i < |es| && es[i].Take? ==> es[i].from < i
  }

  function SeenBefore<T>(es: seq<Op<T>>, n: Node, i: nat): set<nat>
    requires WellFormed(es) && i <= |es|
    decreases i, 0
  {
    if i == 0 then {} else if es[i - 1].replica == n then Seen(es, i - 1) else SeenBefore(es, n, i - 1)
  }

  /** The actions whose effect has reached the replica of event `i` by the end of that event. */
  function Seen<T>(es: seq<Op<T>>, i: nat): set<nat>
    requires WellFormed(es) && i < |es|
    decreases i, 1
  {
    SeenBefore(es, es[i].replica, i) +
    match es[i] case Act(_, _) => {i} case Take(_, from) => Seen(es, from)
  }

  lemma {:induction false} SeenIsPast<T>(es: seq<Op<T>>, n: Node, i: nat)
    requires WellFormed(es) && i <= |es|
    ensures forall k :: k in SeenBefore(es, n, i) ==> k < i && es[k].Act?
    ensures i < |es| ==> forall k :: k in Seen(es, i) ==> k <= i && es[k].Act?
    decreases i
  {
    if i > 0 {
      SeenIsPast(es, n, i - 1);
    }
    if i < |es| {
      if i > 0 {
        SeenIsPast(es, es[i].replica, i - 1);
      }
      if es[i].Take? {
        SeenIsPast(es, n, es[i].from);
      }
    }
  }

  /** A replica knows all its own earlier actions. */
  lemma {:induction false} SeesItself<T>(es: seq<Op<T>>, n: Node, i: nat, k: nat)
    requires WellFormed(es) && k < i <= |es| && es[k].Act? && es[k].replica == n
    ensures k in SeenBefore(es, n, i)
    decreases i
  {
    if es[i - 1].replica != n {
      SeesItself(es, n, i - 1, k);
    } else if k < i - 1 {
      SeesItself(es, n, i - 1, k);
    }
  }

  /** Whoever has seen an action of a replica has seen that replica's earlier ones. */
  ghost predicate Closed<T>(es: seq<Op<T>>, s: set<nat>) {
    forall k, m :: k in s && 0 <= m < k < |es| && es[m].Act? && es[m].replica == es[k].replica ==> m in s
  }

  lemma {:induction false} SeenClosed<T>(es: seq<Op<T>>, n: Node, i: nat)
    requires WellFormed(es) && i <= |es|
    ensures Closed(es, SeenBefore(es, n, i))
    ensures i < |es| ==> Closed(es, Seen(es, i))
    decreases i
  {
    if i > 0 {
      SeenClosed(es, n, i - 1);
    }
    if i < |es| {
      if i > 0 {
        SeenClosed(es, es[i].replica, i - 1);
      }
      if es[i].Take? {
        SeenClosed(es, n, es[i].from);
      } else {
        forall m | 0 <= m < i && es[m].Act? && es[m].replica == es[i].replica
          ensures m in SeenBefore(es, es[i].replica, i)
        {
          SeesItself(es, es[i].replica, i, m);
        }
      }
    }
  }

  // ------------------------------------------------------------ counters

  /** A replica raises or lowers its own entry. */
  datatype Step = Step(up: bool, amount: nat)

  type CounterRun = seq<Op<Step>>

  function CountsBefore(es: CounterRun, up: bool, n: Node, i: nat): Counts
    requires WellFormed(es) && i <= |es|
    decreases i, 0
  {
    if i == 0 then map[] else if es[i - 1].replica == n then CountsAt(es, up, i - 1) else CountsBefore(es, up, n, i - 1)
  }

  /** The raising (or the lowering) half of the counter at the replica of event `i`, after it. */
  function CountsAt(es: CounterRun, up: bool, i: nat): Counts
    requires WellFormed(es) && i < |es|
    decreases i, 1
  {
    var c := CountsBefore(es, up, es[i].replica, i);
    match es[i]
    case Act(n, step) => if step.up == up then Incremented(c, n, step.amount) else c
    case Take(_, from) => Merged(c, CountsAt(es, up, from))
  }

  predicate Moves(es: CounterRun, up: bool, n: Node, k: nat) {
    k < |es| && es[k].Act? && es[k].replica == n && es[k].what.up == up
  }

  /** What the actions in `s` among the first `m` add up to for a replica. */
  function SumOf(es: CounterRun, up: bool, n: Node, s: set<nat>, m: nat): nat {
    if m == 0 then 0
    else
      SumOf(es, up, n, s, m - 1) + if m - 1 in s && Moves(es, up, n, m - 1) then es[m - 1].what.amount else 0
  }

  lemma {:induction false} SumAgrees(es: CounterRun, up: bool, n: Node, s: set<nat>, t: set<nat>, m: nat)
    requires forall k: nat :: k < m && Moves(es, up, n, k) ==> (k in s <==> k in t)
    ensures SumOf(es, up, n, s, m) == SumOf(es, up, n, t, m)
  {
    if m > 0 {
      SumAgrees(es, up, n, s, t, m - 1);
    }
  }

  lemma {:induction false} SumGrows(es: CounterRun, up: bool, n: Node, s: set<nat>, t: set<nat>, m: nat)
    requires forall k: nat :: k < m && Moves(es, up, n, k) && k in s ==> k in t
    ensures SumOf(es, up, n, s, m) <= SumOf(es, up, n, t, m)
  {
    if m > 0 {
      SumGrows(es, up, n, s, t, m - 1);
    }
  }

  lemma {:induction false} SumAdds(es: CounterRun, up: bool, n: Node, s: set<nat>, i: nat, m: nat)
    requires i !in s
    ensures SumOf(es, up, n, s + {i}, m) ==
      SumOf(es, up, n, s, m) + if i < m && Moves(es, up, n, i) then es[i].what.amount else 0
  {
    if m > 0 {
      SumAdds(es, up, n, s, i, m - 1);
    }
  }

  /** Of two replicas, one knows all the other knows about any given node. */
  lemma SumOfUnion(es: CounterRun, up: bool, n: Node, s: set<nat>, t: set<nat>, m: nat)
    requires Closed(es, s) && Closed(es, t)
    ensures SumOf(es, up, n, s + t, m) == Max(SumOf(es, up, n, s, m), SumOf(es, up, n, t, m))
  {
    hide SumOf;
    if k: nat :| Moves(es, up, n, k) && k in s && k !in t {
      assert forall j: nat :: j > k && Moves(es, up, n, j) && j in t ==> k in t;
      SumAgrees(es, up, n, s + t, s, m);
      SumGrows(es, up, n, t, s, m);
    } else {
      SumAgrees(es, up, n, s + t, t, m);
      SumGrows(es, up, n, s, t, m);
    }
  }

  ghost predicate Known(es: CounterRun, up: bool, n: Node, s: set<nat>) {
    exists k: nat :: k in s && Moves(es, up, n, k)
  }

  /** The counts are exactly what the actions in `s` amount to, entry by entry. */
  ghost predicate Reflects(es: CounterRun, up: bool, c: Counts, s: set<nat>) {
    forall n :: (n in c <==> Known(es, up, n, s)) && Get(c, n) == Sat(SumOf(es, up, n, s, |es|))
  }

  lemma {:induction false} UnknownIsZero(es: CounterRun, up: bool, n: Node, s: set<nat>, m: nat)
    requires !Known(es, up, n, s)
    ensures SumOf(es, up, n, s, m) == 0
  {
    if m > 0 {
      UnknownIsZero(es, up, n, s, m - 1);
    }
  }

  lemma ReflectsNothing(es: CounterRun, up: bool)
    ensures Reflects(es, up, map[], {})
  {
    hide SumOf;
    forall n ensures SumOf(es, up, n, {}, |es|) == 0 {
      UnknownIsZero(es, up, n, {}, |es|);
    }
  }

  lemma ReflectsAct(es: CounterRun, up: bool, c: Counts, s: set<nat>, i: nat)
    requires Reflects(es, up, c, s) && i < |es| && es[i].Act? && i !in s
    ensures Reflects(es, up,
                     if es[i].what.up == up then Incremented(c, es[i].replica, es[i].what.amount) else c, s + {i})
  {
    hide SumOf;
    var me := es[i].replica;
    var c' := if es[i].what.up == up then Incremented(c, me, es[i].what.amount) else c;
    forall n
      ensures n in c' <==> Known(es, up, n, s + {i})
      ensures Get(c', n) == Sat(SumOf(es, up, n, s + {i}, |es|))
    {
      SumAdds(es, up, n, s, i, |es|);
      assert Known(es, up, n, s + {i}) <==> Known(es, up, n, s) || Moves(es, up, n, i) by {
        if Known(es, up, n, s) {
          var k: nat :| k in s && Moves(es, up, n, k);
          assert k in s + {i};
        }
        if Moves(es, up, n, i) {
          assert i in s + {i};
        }
      }
    }
  }

  lemma ReflectsMerge(es: CounterRun, up: bool, c: Counts, s: set<nat>, d: Counts, t: set<nat>)
    requires Reflects(es, up, c, s) && Reflects(es, up, d, t) && Closed(es, s) && Closed(es, t)
    ensures Reflects(es, up, Merged(c, d), s + t)
  {
    hide SumOf, Closed;
    var m := Merged(c, d);
    forall n
      ensures n in m <==> Known(es, up, n, s + t)
      ensures Get(m, n) == Sat(SumOf(es, up, n, s + t, |es|))
    {
      SumOfUnion(es, up, n, s, t, |es|);
      KnownUnion(es, up, n, s, t);
      assert Get(m, n) == Max(Get(c, n), Get(d, n));
    }
  }

  lemma KnownUnion(es: CounterRun, up: bool, n: Node, s: set<nat>, t: set<nat>)
    ensures Known(es, up, n, s + t) <==> Known(es, up, n, s) || Known(es, up, n, t)
  {
    if k: nat :| k in s && Moves(es, up, n, k) {
      assert k in s + t;
    }
    if k: nat :| k in t && Moves(es, up, n, k) {
      assert k in s + t;
    }
  }

  /** At every moment of every run, a replica's counter is exactly what it has seen. */
  lemma {:induction false} CountsReflect(es: CounterRun, up: bool, n: Node, i: nat)
    requires WellFormed(es) && i <= |es|
    ensures Reflects(es, up, CountsBefore(es, up, n, i), SeenBefore(es, n, i))
    ensures i < |es| ==> Reflects(es, up, CountsAt(es, up, i), Seen(es, i))
    decreases i
  {
    hide Reflects, Closed;
    ReflectsNothing(es, up);
    if i > 0 {
      CountsReflect(es, up, n, i - 1);
    }
    if i < |es| {
      var me := es[i].replica;
      if i > 0 {
        CountsReflect(es, up, me, i - 1);
      }
      SeenIsPast(es, me, i);
      if es[i].Act? {
        ReflectsAct(es, up, CountsBefore(es, up, me, i), SeenBefore(es, me, i), i);
      } else {
        var from := es[i].from;
        CountsReflect(es, up, n, from);
        SeenClosed(es, me, i);
        SeenClosed(es, me, from);
        ReflectsMerge(es, up, CountsBefore(es, up, me, i), SeenBefore(es, me, i),
          CountsAt(es, up, from), Seen(es, from));
      }
    }
  }

  /** Replicas that have seen the same actions are equal, however the news reached them. */
  lemma CountersConverge(es: CounterRun, i: nat, k: nat)
    requires WellFormed(es) && i < |es| && k < |es| && Seen(es, i) == Seen(es, k)
    ensures forall up :: CountsAt(es, up, i) == CountsAt(es, up, k)
  {
    hide CountsAt, Seen, SumOf, Known;
    forall up ensures CountsAt(es, up, i) == CountsAt(es, up, k) {
      CountsReflect(es, up, es[i].replica, i);
      CountsReflect(es, up, es[k].replica, k);
      ReflectedIsUnique(es, up, CountsAt(es, up, i), CountsAt(es, up, k), Seen(es, i));
    }
  }

  lemma ReflectedIsUnique(es: CounterRun, up: bool, c: Counts, d: Counts, s: set<nat>)
    requires Reflects(es, up, c, s) && Reflects(es, up, d, s)
    ensures c == d
  {
    hide SumOf, Known;
    forall n | n in c ensures n in d && c[n] == d[n] {
      assert Get(c, n) == Get(d, n);
    }
    assert forall n :: n in d ==> n in c;
  }

  // ---- totals

  /** What all actions in `s` among the first `m` really add up to. */
  function TrueSum(es: CounterRun, up: bool, s: set<nat>, m: nat): nat
    requires m <= |es|
  {
    if m == 0 then 0
    else
      TrueSum(es, up, s, m - 1) +
      if m - 1 in s && es[m - 1].Act? && es[m - 1].what.up == up then es[m - 1].what.amount else 0
  }

  /** The counts as they would be without saturation. */
  function TrueCounts(es: CounterRun, up: bool, s: set<nat>, m: nat): Counts
    requires m <= |es|
  {
    if m == 0 then map[]
    else
      var c := TrueCounts(es, up, s, m - 1);
      if m - 1 in s && es[m - 1].Act? && es[m - 1].what.up == up then
        c[es[m - 1].replica := Get(c, es[m - 1].replica) + es[m - 1].what.amount]
      else c
  }

  lemma {:induction false} TrueCountsTotal(es: CounterRun, up: bool, s: set<nat>, m: nat)
    requires m <= |es|
    ensures Total(TrueCounts(es, up, s, m)) == TrueSum(es, up, s, m)
  {
    if m > 0 {
      TrueCountsTotal(es, up, s, m - 1);
      var c := TrueCounts(es, up, s, m - 1);
      var e := es[m - 1];
      if e.Act? {
        TotalUpdate(c, e.replica, Get(c, e.replica) + e.what.amount);
      }
    }
  }

  lemma {:induction false} TrueCountsEntries(es: CounterRun, up: bool, s: set<nat>, m: nat, n: Node)
    requires m <= |es|
    ensures Get(TrueCounts(es, up, s, m), n) == SumOf(es, up, n, s, m)
    ensures n in TrueCounts(es, up, s, m) <==> exists k: nat :: k < m && k in s && Moves(es, up, n, k)
  {
    if m > 0 {
      TrueCountsEntries(es, up, s, m - 1, n);
      if k: nat :| k < m && k in s && Moves(es, up, n, k) && k == m - 1 {
      }
    }
  }

  /** Saturating the entries first does not change the saturated total. */
  lemma {:induction false} SaturateEntries(c: Counts, d: Counts)
    requires c.Keys == d.Keys && forall n :: n in c ==> c[n] == Sat(d[n])
    ensures Sat(Total(c)) == Sat(Total(d))
    decreases |c|
  {
    if c != map[] {
      var n :| n in c;
      TotalPick(c, n);
      TotalPick(d, n);
      SaturateEntries(c - {n}, d - {n});
    }
  }

  /**
   * The total a replica reports is the true total of the actions it has seen, cut off at
   * 2^64 - 1: saturating every entry and every sum on the way loses nothing else.
   */
  lemma TotalIsTrue(es: CounterRun, up: bool, i: nat)
    requires WellFormed(es) && i < |es|
    ensures Sat(Total(CountsAt(es, up, i))) == Sat(TrueSum(es, up, Seen(es, i), |es|))
  {
    hide CountsAt, Seen, SumOf, TrueCounts, TrueSum, Total;
    var s := Seen(es, i);
    var c, d := CountsAt(es, up, i), TrueCounts(es, up, s, |es|);
    CountsReflect(es, up, es[i].replica, i);
    TrueCountsTotal(es, up, s, |es|);
    forall n ensures n in c <==> n in d {
      TrueCountsEntries(es, up, s, |es|, n);
    }
    forall n | n in c ensures c[n] == Sat(d[n]) {
      TrueCountsEntries(es, up, s, |es|, n);
      assert Get(c, n) == Sat(SumOf(es, up, n, s, |es|));
    }
    SaturateEntries(c, d);
  }

  ghost predicate AllSeen(es: CounterRun, i: nat)
    requires WellFormed(es) && i < |es|
  {
    forall k :: 0 <= k < |es| && es[k].Act? ==> k in Seen(es, i)
  }

  /** What all actions of the run add up to. */
  function GrandTotal(es: CounterRun, up: bool, m: nat): nat
    requires m <= |es|
  {
    if m == 0 then 0
    else GrandTotal(es, up, m - 1) + if es[m - 1].Act? && es[m - 1].what.up == up then es[m - 1].what.amount else 0
  }

  lemma {:induction false} TrueSumAll(es: CounterRun, up: bool, s: set<nat>, m: nat)
    requires m <= |es| && forall k :: 0 <= k < m && es[k].Act? ==> k in s
    ensures TrueSum(es, up, s, m) == GrandTotal(es, up, m)
  {
    if m > 0 {
      TrueSumAll(es, up, s, m - 1);
    }
  }

  /** With everything delivered, an up-down counter is right unless a half that saturated shows. */
  lemma DeliveredValue(es: CounterRun, i: nat)
    requires WellFormed(es) && i < |es| && AllSeen(es, i)
    ensures
      var p, n := GrandTotal(es, true, |es|), GrandTotal(es, false, |es|);
      var value := Clamp(Sat(Total(CountsAt(es, true, i))) - Sat(Total(CountsAt(es, false, i))));
      && Sat(Total(CountsAt(es, true, i))) == Sat(p) && Sat(Total(CountsAt(es, false, i))) == Sat(n)
      && (value == Clamp(p - n) <==>
            || (p <= MAX_U64 && n <= MAX_U64)
            || (p > MAX_U64 && n <= MAX_U64 - MAX_I64)
            || (n > MAX_U64 && p <= MAX_U64 + MIN_I64)
            || p == n)
  {
    hide CountsAt, Seen, TrueSum, Total, GrandTotal;
    forall up ensures Sat(Total(CountsAt(es, up, i))) == Sat(GrandTotal(es, up, |es|)) {
      TotalIsTrue(es, up, i);
      TrueSumAll(es, up, Seen(es, i), |es|);
    }
    ClampedDifference(GrandTotal(es, true, |es|), GrandTotal(es, false, |es|));
    hide Clamp, Sat;
  }

  /** Node 0 raises by the largest entry; node 1 raises by one, lowers by the largest, and is taken in. */
  const ONE_TOO_MANY: CounterRun := [
    Act([0], Step(true, MAX_U64)), Act([1], Step(true, 1)), Act([1], Step(false, MAX_U64)), Take([0], 2)
  ]

  /** Everything has arrived, the true value is one, and the replica reads zero. */
  lemma OneIsLost()
    ensures WellFormed(ONE_TOO_MANY) && AllSeen(ONE_TOO_MANY, 3)
    ensures GrandTotal(ONE_TOO_MANY, true, 4) - GrandTotal(ONE_TOO_MANY, false, 4) == 1
    ensures Clamp(Sat(Total(CountsAt(ONE_TOO_MANY, true, 3))) - Sat(Total(CountsAt(ONE_TOO_MANY, false, 3)))) == 0
  {
    var es := ONE_TOO_MANY;
    assert 1 in Seen(es, 1);
    SeesItself(es, [1], 2, 1);
    assert {1, 2} <= Seen(es, 2);
    SeesItself(es, [0], 3, 0);
    assert {0, 1, 2} <= Seen(es, 3);
    assert GrandTotal(es, true, 1) == MAX_U64 && GrandTotal(es, false, 1) == 0;
    assert GrandTotal(es, true, 2) == MAX_U64 + 1 && GrandTotal(es, false, 2) == 0;
    assert GrandTotal(es, true, 3) == MAX_U64 + 1 && GrandTotal(es, false, 3) == MAX_U64;
    hide Seen, CountsAt, Total;
    DeliveredValue(es, 3);
  }

  // ------------------------------------------------------------ registers

  type RegisterRun = seq<Op<Register>>

  function Written(was: Option<Register>, r: Register): Register {
    match was case Some(o) => Later(o, r) case None => r
  }

  function RegisterBefore(es: RegisterRun, n: Node, i: nat): Option<Register>
    requires WellFormed(es) && i <= |es|
    decreases i, 0
  {
    if i == 0 then None
    else if es[i - 1].replica == n then RegisterAt(es, i - 1)
    else RegisterBefore(es, n, i - 1)
  }

  /** A replica's first write creates its register; taking in nothing changes nothing. */
  function RegisterAt(es: RegisterRun, i: nat): Option<Register>
    requires WellFormed(es) && i < |es|
    decreases i, 1
  {
    var r := RegisterBefore(es, es[i].replica, i);
    match es[i]
    case Act(_, w) => Some(Written(r, w))
    case Take(_, from) => match RegisterAt(es, from) case Some(w) => Some(Written(r, w)) case None => r
  }

  /** The state is one of the writes seen, and none of them is later. */
  ghost predicate Latest(es: RegisterRun, r: Option<Register>, s: set<nat>) {
    match r
    case None => s == {}
    case Some(w) =>
      && (exists k: nat :: k in s && k < |es| && es[k].Act? && es[k].what == w)
      && (forall k: nat :: k in s && k < |es| && es[k].Act? ==> !es[k].what.After(w))
  }

  lemma LatestOfTwo(es: RegisterRun, r: Option<Register>, s: set<nat>, w: Register, t: set<nat>)
    requires Latest(es, r, s) && Latest(es, Some(w), t)
    ensures Latest(es, Some(Written(r, w)), s + t)
  {
    var u := Written(r, w);
    assert exists k: nat :: k in s + t && k < |es| && es[k].Act? && es[k].what == u by {
      if r.Some? && u == r.value {
        var k: nat :| k in s && k < |es| && es[k].Act? && es[k].what == u;
        assert k in s + t;
      } else {
        var k: nat :| k in t && k < |es| && es[k].Act? && es[k].what == u;
        assert k in s + t;
      }
    }
    forall k: nat | k in s + t && k < |es| && es[k].Act? ensures !es[k].what.After(u) {
      if r.Some? {
        NotAfterEither(es[k].what, r.value, w);
      }
    }
  }

  lemma NotAfterEither(x: Register, a: Register, b: Register)
    requires !x.After(a) || !x.After(b)
    ensures !x.After(Later(a, b))
  {
    RegistersOrdered(a, b);
    RegistersOrdered(x, a);
    RegistersOrdered(x, b);
    if b.After(a) && x.After(b) {
      AfterTransitive(x, b, a);
    }
    if !b.After(a) && x.After(a) && a.After(b) {
      AfterTransitive(x, a, b);
    }
    hide Less;
  }

  lemma {:induction false} RegisterIsLatest(es: RegisterRun, n: Node, i: nat)
    requires WellFormed(es) && i <= |es|
    ensures Latest(es, RegisterBefore(es, n, i), SeenBefore(es, n, i))
    ensures i < |es| ==> Latest(es, RegisterAt(es, i), Seen(es, i))
    decreases i
  {
    if i > 0 {
      RegisterIsLatest(es, n, i - 1);
    }
    if i < |es| {
      var me := es[i].replica;
      if i > 0 {
        RegisterIsLatest(es, me, i - 1);
      }
      var r, s := RegisterBefore(es, me, i), SeenBefore(es, me, i);
      if es[i].Act? {
        OneWrite(es, i);
        hide Latest;
        LatestOfTwo(es, r, s, es[i].what, {i});
      } else {
        RegisterIsLatest(es, n, es[i].from);
        if RegisterAt(es, es[i].from).Some? {
          LatestOfTwo(es, r, s, RegisterAt(es, es[i].from).value, Seen(es, es[i].from));
        } else {
          assert s + {} == s;
        }
      }
    }
  }

  lemma OneWrite(es: RegisterRun, i: nat)
    requires i < |es| && es[i].Act?
    ensures Latest(es, Some(es[i].what), {i})
  {
    RegistersOrdered(es[i].what, es[i].what);
    assert i in {i};
  }

  /**
   * At every moment of every run a replica holds a write that has reached it, and every write that has reached
   * it has a smaller timestamp, or the same one from a node that is no greater in byte order.
   */
  lemma HoldsTheLatest(es: RegisterRun, i: nat, k: nat)
    requires WellFormed(es) && i < |es| && k in Seen(es, i)
    ensures k <= i && es[k].Act? && RegisterAt(es, i).Some?
    ensures exists m :: m in Seen(es, i) && m <= i && es[m].Act? && es[m].what == RegisterAt(es, i).value
    ensures var w, x := RegisterAt(es, i).value, es[k].what;
      x.ts < w.ts || (x.ts == w.ts && (x.node == w.node || Less(x.node, w.node)))
  {
    hide RegisterAt, Seen, Less;
    RegisterIsLatest(es, es[i].replica, i);
    SeenIsPast(es, es[i].replica, i);
    LessTotal(es[k].what.node, RegisterAt(es, i).value.node);
  }

  /** Writes under the same timestamp and node carry the same value. */
  ghost predicate Determined(writes: set<Register>) {
    forall a, b :: a in writes && b in writes && a.SameKey(b) ==> a == b
  }

  ghost predicate WritesFrom(es: RegisterRun, writes: set<Register>) {
    forall k :: 0 <= k < |es| && es[k].Act? ==> es[k].what in writes
  }

  ghost predicate Agrees(es: RegisterRun) {
    WellFormed(es) ==>
      forall i: nat, k: nat :: i < |es| && k < |es| && Seen(es, i) == Seen(es, k) ==>
        RegisterAt(es, i) == RegisterAt(es, k)
  }

  /**
   * Last-writer-wins converges, exactly: in every run over these writes, replicas that
   * have seen the same writes hold the same register, if and only if timestamp and node
   * determine the value.
   */
  lemma RegistersConverge(writes: set<Register>)
    ensures (forall es: RegisterRun :: WritesFrom(es, writes) ==> Agrees(es)) <==> Determined(writes)
  {
    if Determined(writes) {
      forall es: RegisterRun | WritesFrom(es, writes) ensures Agrees(es) {
        if WellFormed(es) {
          forall i: nat, k: nat | i < |es| && k < |es| && Seen(es, i) == Seen(es, k)
            ensures RegisterAt(es, i) == RegisterAt(es, k)
          {
            SameSeenSameRegister(es, writes, i, k);
          }
        }
      }
    } else {
      var a, b :| a in writes && b in writes && a.SameKey(b) && a != b;
      var es := TieRun(a, b);
      TieDiverges(a, b);
      assert WritesFrom(es, writes) && !Agrees(es);
    }
  }

  lemma SameSeenSameRegister(es: RegisterRun, writes: set<Register>, i: nat, k: nat)
    requires Determined(writes) && WritesFrom(es, writes)
    requires WellFormed(es) && i < |es| && k < |es| && Seen(es, i) == Seen(es, k)
    ensures RegisterAt(es, i) == RegisterAt(es, k)
  {
    hide RegisterAt, Seen;
    RegisterIsLatest(es, es[i].replica, i);
    RegisterIsLatest(es, es[k].replica, k);
    var r, q := RegisterAt(es, i), RegisterAt(es, k);
    if r.Some? && q.Some? {
      RegistersOrdered(r.value, q.value);
    }
  }

  /** Two replicas write under the same key and exchange what they wrote. */
  function TieRun(a: Register, b: Register): RegisterRun {
    [Act([0], a), Act([1], b), Take([0], 1), Take([1], 0)]
  }

  lemma TieDiverges(a: Register, b: Register)
    requires a.SameKey(b) && a != b
    ensures var es := TieRun(a, b);
      WellFormed(es) && Seen(es, 2) == Seen(es, 3) && RegisterAt(es, 2) != RegisterAt(es, 3)
  {
    var es := TieRun(a, b);
    RegistersOrdered(a, b);
    RegistersOrdered(b, a);
    hide Less;
    assert es[0].replica != es[1].replica;
    assert Seen(es, 0) == {0} by { assert SeenBefore(es, [0], 0) == {}; }
    assert SeenBefore(es, [1], 1) == SeenBefore(es, [1], 0) == {};
    assert Seen(es, 1) == {1};
    assert SeenBefore(es, [0], 2) == SeenBefore(es, [0], 1) == {0};
    assert Seen(es, 2) == {0, 1};
    assert SeenBefore(es, [1], 3) == SeenBefore(es, [1], 2) == {1};
    assert Seen(es, 3) == {0, 1};
    assert RegisterAt(es, 0) == Some(a);
    assert RegisterBefore(es, [1], 1) == RegisterBefore(es, [1], 0);
    assert RegisterAt(es, 1) == Some(b);
    assert RegisterBefore(es, [0], 2) == RegisterBefore(es, [0], 1) == Some(a);
    assert RegisterAt(es, 2) == Some(Later(a, b));
    assert RegisterBefore(es, [1], 3) == RegisterBefore(es, [1], 2) == Some(b);
    assert RegisterAt(es, 3) == Some(Later(b, a));
  }
}
