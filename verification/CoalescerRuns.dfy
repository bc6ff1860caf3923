/**
 * Whole runs of the coalescer without new calls, without wake-ups out of the blue, and
 * without launches that fail for a leader whose own query was not aboard: each of them
 * ends, and where it ends every call has been answered.
 */
module CoalescerRuns {
  import opened Base
  import opened Coalescer
  import opened CoalescerSafety

  ghost predicate Turns(s: State, s': State, c: Config) {
    exists t :: t in s.awake && s' == LoopHead(s, t, c)
  }

  ghost predicate Lands(s: State, s': State) {
    exists t, result ::
      && t in s.leading && FullResult(s.leading[t], result)
      && (result.Some? || Carries(s.leading[t], t))
      && s' == Land(s, t, result)
  }

  /** A turn of a call's loop, or a launch landing that brings something. */
  ghost predicate Advances(s: State, s': State, c: Config) {
    Turns(s, s', c) || Lands(s, s')
  }

  lemma AdvanceKeeps(s: State, s': State, c: Config)
    requires Inv(s, c) && c.Sound() && Advances(s, s', c)
    ensures Inv(s', c) && Below(Rank(s'), Rank(s))
  {
    hide Inv, LoopHead, Land, FullResult, Carries, Rank, Below;
    if Turns(s, s', c) {
      var t :| t in s.awake && s' == LoopHead(s, t, c);
      LoopHeadKeeps(s, t, c);
      LoopHeadProgress(s, t, c);
    } else {
      var t, result :|
        && t in s.leading && FullResult(s.leading[t], result)
        && (result.Some? || Carries(s.leading[t], t))
        && s' == Land(s, t, result);
      LandKeeps(s, t, result, c);
      LandProgress(s, t, result, c);
    }
  }

  lemma RankIsBounded(s: State)
    requires Placed(s)
    ensures Rank(s).0 >= 0 && Rank(s).1 >= 0 && Rank(s).2 >= 0 && Rank(s).3 >= 0
  {
    assert s.answers.Keys <= s.requests.Keys;
    FewerKeys(s.answers.Keys, s.requests.Keys);
    assert |s.answers| == |s.answers.Keys| && |s.requests| == |s.requests.Keys|;
  }

  lemma FewerKeys(a: set<Ticket>, b: set<Ticket>)
    requires a <= b
    ensures |a| <= |b|
  {
    assert b == a + (b - a);
    assert |b| == |a| + |b - a|;
  }

  lemma PlacedIn(s: State, c: Config)
    requires Inv(s, c)
    ensures Placed(s) && Led(s, c)
  {
  }

  /** No endless sequence of states goes on and on this way. */
  lemma {:induction false} NeverEndless(f: nat -> State, c: Config, i: nat)
    requires c.Sound() && Inv(f(i), c)
    requires forall k: nat :: Advances(f(k), f(k + 1), c)
    ensures false
    decreases Rank(f(i)).0, Rank(f(i)).1, Rank(f(i)).2, Rank(f(i)).3
  {
    hide Inv, Advances, Rank, Placed;
    assert Advances(f(i), f(i + 1), c);
    AdvanceKeeps(f(i), f(i + 1), c);
    PlacedIn(f(i), c);
    PlacedIn(f(i + 1), c);
    RankIsBounded(f(i));
    RankIsBounded(f(i + 1));
    NeverEndless(f, c, i + 1);
  }

  /** Every run that goes on from a reachable state comes to an end. */
  lemma EveryRunEnds(tr: seq<State>, c: Config, f: nat -> State)
    requires Run(tr, c) && c.Sound() && f(0) == tr[|tr| - 1]
    ensures exists k: nat :: !Advances(f(k), f(k + 1), c)
  {
    RunKeeps(tr, c, |tr| - 1);
    hide Inv, Run, Advances, Rank;
    if forall k: nat :: Advances(f(k), f(k + 1), c) {
      NeverEndless(f, c, 0);
    }
  }

  /** A state from which it cannot go on has answered every call. */
  lemma StuckIsDone(tr: seq<State>, c: Config, s: State, t: Ticket)
    requires Run(tr, c) && c.Sound() && s == tr[|tr| - 1]
    requires forall s' :: !Advances(s, s', c)
    ensures t in s.requests <==> t in s.answers
  {
    RunKeeps(tr, c, |tr| - 1);
    PlacedIn(s, c);
    hide Inv, Run, Advances;
    if u :| u in s.awake {
      SomeTurn(s, c, u);
    }
    if u :| u in s.leading {
      SomeLanding(s, c, u);
    }
    NobodyLeads(s, c);
  }

  lemma SomeTurn(s: State, c: Config, u: Ticket)
    requires u in s.awake
    ensures exists s' :: Advances(s, s', c)
  {
    hide LoopHead;
    assert Turns(s, LoopHead(s, u, c), c);
    assert Advances(s, LoopHead(s, u, c), c);
  }

  lemma SomeLanding(s: State, c: Config, u: Ticket)
    requires u in s.leading
    ensures exists s' :: Advances(s, s', c)
  {
    hide Land;
    var result := SomeResult(s.leading[u]);
    assert Lands(s, Land(s, u, result));
    assert Advances(s, Land(s, u, result), c);
  }

  lemma NobodyLeads(s: State, c: Config)
    requires Led(s, c) && Placed(s) && s.awake == {} && s.leading == map[]
    ensures forall t :: t in s.requests <==> t in s.answers
  {
    assert s.asleep == {};
  }

  /** A launch can always succeed. */
  ghost function SomeResult(f: Flight): (r: Option<Rows>)
    ensures r.Some? && FullResult(f, r)
  {
    var n := |f.batch| * f.geometry.k;
    Some(Rows(seq(n, _ => 0), Zeroes(n)))
  }

  ghost function Zeroes(n: nat): (r: seq<F32>)
    ensures |r| == n
  {
    seq(n, _ => 0.0)
  }
}
