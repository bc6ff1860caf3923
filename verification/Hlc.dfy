/**
 * Hybrid logical clocks: any number of nodes stamping local events and received
 * messages, their physical clocks free to stand still or run backwards.
 */
module Hlc {
  import opened Base

  /** The logical part is a 32-bit counter. */
  datatype Stamp = Stamp(physical: nat, logical: nat) {
    predicate Before(that: Stamp) {
      physical < that.physical || (physical == that.physical && logical < that.logical)
    }
  }

  const ZERO := Stamp(0, 0)

  /** One more, in 32 bits. */
  function Bump(logical: nat): nat { (logical + 1) % TWO_32 }

  function LocalStamp(s: Stamp, pt: nat): Stamp {
    if pt > s.physical then Stamp(pt, 0) else Stamp(s.physical, Bump(s.logical))
  }

  function MergedStamp(s: Stamp, remote: Stamp, pt: nat): Stamp {
    var top := Max(Max(pt, s.physical), remote.physical);
    Stamp(top,
          if top == s.physical && top == remote.physical then Bump(Max(s.logical, remote.logical))
          else if top == s.physical then Bump(s.logical)
          else if top == remote.physical then Bump(remote.logical)
          else 0)
  }

  /** `t` comes after all of `before`, is no earlier than the reading `pt`, and no smaller stamp is both. */
  ghost predicate LeastAfter(t: Stamp, before: set<Stamp>, pt: nat) {
    && pt <= t.physical && (forall s :: s in before ==> s.Before(t))
    && forall u: Stamp :: pt <= u.physical && (forall s :: s in before ==> s.Before(u)) ==> t == u || t.Before(u)
  }

  class Clock {
    var physical: nat
    var logical: nat

    ghost function State(): Stamp
      reads this
    {
      Stamp(physical, logical)
    }

    constructor ()
      ensures State() == ZERO
    {
      physical, logical := 0, 0;
    }

    /** Stamp a local event; `pt` is the reading of the physical clock. */
    method Now(pt: nat) returns (t: Stamp)
      modifies this
      ensures t == State() == LocalStamp(old(State()), pt)
      ensures pt > old(physical) ==> t == Stamp(pt, 0)
      ensures old(logical) < TWO_32 && !LocalWraps(old(State()), pt) ==>
        LeastAfter(t, {old(State())}, pt)
    {
      if pt > physical {
        physical, logical := pt, 0;
      } else {
        logical := (logical + 1) % TWO_32;
      }
      return Stamp(physical, logical);
    }

    /** Stamp the receipt of a remote stamp. */
    method Update(remote: Stamp, pt: nat) returns (t: Stamp)
      modifies this
      ensures t == State() == MergedStamp(old(State()), remote, pt)
      ensures pt > old(physical) && pt > remote.physical ==> t == Stamp(pt, 0)
      ensures old(logical) < TWO_32 && remote.logical < TWO_32 && !MergeWraps(old(State()), remote, pt) ==>
        LeastAfter(t, {old(State()), remote}, pt)
    {
      var top := pt;
      if physical > top {
        top := physical;
      }
      if remote.physical > top {
        top := remote.physical;
      }
      if top == physical && top == remote.physical {
        if remote.logical > logical {
          logical := remote.logical;
        }
        logical := (logical + 1) % TWO_32;
      } else if top == physical {
        logical := (logical + 1) % TWO_32;
      } else if top == remote.physical {
        logical := (remote.logical + 1) % TWO_32;
      } else {
        logical := 0;
      }
      physical := top;
      return Stamp(physical, logical);
    }
  }

  // ------------------------------------------------------------ one call

  /** The counter that this call counts up is at its end. */
  predicate LocalWraps(s: Stamp, pt: nat) {
    pt <= s.physical && s.logical == TWO_32 - 1
  }

  predicate MergeWraps(s: Stamp, remote: Stamp, pt: nat) {
    var top := Max(Max(pt, s.physical), remote.physical);
    || (top == s.physical && s.logical == TWO_32 - 1)
    || (top == remote.physical && remote.logical == TWO_32 - 1)
  }

  /** A stamp is the least one that does its job; where the counter is at its end it starts over. */
  lemma LocalIsLeast(s: Stamp, pt: nat)
    requires s.logical < TWO_32
    ensures if LocalWraps(s, pt) then LocalStamp(s, pt) == Stamp(s.physical, 0)
            else LeastAfter(LocalStamp(s, pt), {s}, pt)
  {
  }

  lemma MergedIsLeast(s: Stamp, remote: Stamp, pt: nat)
    requires s.logical < TWO_32 && remote.logical < TWO_32
    ensures if MergeWraps(s, remote, pt) then MergedStamp(s, remote, pt) == Stamp(Max(s.physical, remote.physical), 0)
            else LeastAfter(MergedStamp(s, remote, pt), {s, remote}, pt)
  {
  }

  lemma LocalAdvances(s: Stamp, pt: nat)
    requires s.logical < TWO_32
    ensures s.Before(LocalStamp(s, pt)) <==> !LocalWraps(s, pt)
    ensures pt <= LocalStamp(s, pt).physical && LocalStamp(s, pt).logical < TWO_32
  {
  }

  lemma MergeAdvances(s: Stamp, remote: Stamp, pt: nat)
    requires s.logical < TWO_32 && remote.logical < TWO_32
    ensures var t := MergedStamp(s, remote, pt);
      && (s.Before(t) && remote.Before(t) <==> !MergeWraps(s, remote, pt))
      && pt <= t.physical && t.logical < TWO_32
  {
  }

  // ------------------------------------------------------------ whole runs

  type Node = nat

  /** In the order things happened; a receipt names the earlier event whose stamp it carries. */
  datatype Event = Local(node: Node, pt: nat) | Receive(node: Node, pt: nat, from: nat)

  predicate WellFormed(es: seq<Event>) {
    forall i :: 0 <= i < |es| && es[i].Receive? ==> es[i].from < i
  }

  /** A node's clock just before event `i`. */
  function ClockAt(es: seq<Event>, n: Node, i: nat): Stamp
    requires WellFormed(es) && i <= |es|
    decreases i, 0
  {
    if i == 0 then ZERO else if es[i - 1].node == n then StampAt(es, i - 1) else ClockAt(es, n, i - 1)
  }

  /** The stamp that event `i` gets. */
  function StampAt(es: seq<Event>, i: nat): Stamp
    requires WellFormed(es) && i < |es|
    decreases i, 1
  {
    match es[i]
    case Local(n, pt) => LocalStamp(ClockAt(es, n, i), pt)
    case Receive(n, pt, from) => MergedStamp(ClockAt(es, n, i), StampAt(es, from), pt)
  }

  /** Same node and earlier, or the sending of what is received. */
  predicate Direct(es: seq<Event>, i: nat, k: nat) {
    i < k < |es| && (es[i].node == es[k].node || (es[k].Receive? && es[k].from == i))
  }

  ghost predicate HappensBefore(es: seq<Event>, i: nat, k: nat)
    decreases k
  {
    Direct(es, i, k) || exists m: nat :: m < k && HappensBefore(es, i, m) && Direct(es, m, k)
  }

  /** Event `i` needs a counter beyond its 32 bits. */
  predicate Wraps(es: seq<Event>, i: nat)
    requires WellFormed(es) && i < |es|
  {
    match es[i]
    case Local(n, pt) => LocalWraps(ClockAt(es, n, i), pt)
    case Receive(n, pt, from) => MergeWraps(ClockAt(es, n, i), StampAt(es, from), pt)
  }

  predicate NeverWraps(es: seq<Event>)
    requires WellFormed(es)
  {
    forall i :: 0 <= i < |es| ==> !Wraps(es, i)
  }

  /** The latest event of the node before `i`, if any. */
  lemma {:induction false} ClockComesFrom(es: seq<Event>, n: Node, i: nat) returns (k: int)
    requires WellFormed(es) && i <= |es|
    ensures -1 <= k < i
    ensures if k == -1 then ClockAt(es, n, i) == ZERO && forall m :: 0 <= m < i ==> es[m].node != n
            else es[k].node == n && ClockAt(es, n, i) == StampAt(es, k) && forall m :: k < m < i ==> es[m].node != n
    decreases i
  {
    hide StampAt;
    if i == 0 {
      k := -1;
    } else if es[i - 1].node == n {
      k := i - 1;
    } else {
      k := ClockComesFrom(es, n, i - 1);
    }
  }

  lemma {:induction false} LogicalFits(es: seq<Event>, i: nat)
    requires WellFormed(es) && i < |es|
    ensures StampAt(es, i).logical < TWO_32
    ensures ClockAt(es, es[i].node, i).logical < TWO_32
    decreases i
  {
    var k := ClockComesFrom(es, es[i].node, i);
    if k >= 0 {
      LogicalFits(es, k);
    }
    if es[i].Receive? {
      LogicalFits(es, es[i].from);
    }
    hide ClockAt;
  }

  /** An event that does not wrap comes after its node's clock, and after what it received. */
  lemma EventAdvances(es: seq<Event>, i: nat)
    requires WellFormed(es) && i < |es|
    ensures var c, t := ClockAt(es, es[i].node, i), StampAt(es, i);
      !Wraps(es, i) <==> c.Before(t) && (es[i].Receive? ==> StampAt(es, es[i].from).Before(t))
  {
    LogicalFits(es, i);
    hide ClockAt;
    match es[i]
    case Local(n, pt) => LocalAdvances(ClockAt(es, n, i), pt);
    case Receive(n, pt, from) =>
      LogicalFits(es, from);
      MergeAdvances(ClockAt(es, n, i), StampAt(es, from), pt);
  }

  /** In every run an event gets the least stamp after its node's clock and what it received. */
  lemma StampIsLeast(es: seq<Event>, i: nat)
    requires WellFormed(es) && i < |es| && !Wraps(es, i)
    ensures var before := {ClockAt(es, es[i].node, i)} + if es[i].Receive? then {StampAt(es, es[i].from)} else {};
      LeastAfter(StampAt(es, i), before, es[i].pt)
  {
    LogicalFits(es, i);
    hide ClockAt;
    match es[i]
    case Local(n, pt) => LocalIsLeast(ClockAt(es, n, i), pt);
    case Receive(n, pt, from) =>
      LogicalFits(es, from);
      MergedIsLeast(ClockAt(es, n, i), StampAt(es, from), pt);
  }

  lemma {:induction false} NodeAdvances(es: seq<Event>, i: nat, k: nat)
    requires WellFormed(es) && NeverWraps(es) && i < k < |es| && es[i].node == es[k].node
    ensures StampAt(es, i).Before(StampAt(es, k))
    decreases k
  {
    hide StampAt, ClockAt, Wraps;
    var p := ClockComesFrom(es, es[k].node, k);
    EventAdvances(es, k);
    if p > i {
      NodeAdvances(es, i, p);
    }
  }

  lemma {:induction false} CausalityHolds(es: seq<Event>, i: nat, k: nat)
    requires WellFormed(es) && NeverWraps(es) && HappensBefore(es, i, k)
    ensures i < k < |es| && StampAt(es, i).Before(StampAt(es, k))
    decreases k
  {
    hide StampAt, ClockAt, Wraps;
    if Direct(es, i, k) {
      DirectAdvances(es, i, k);
    } else {
      var m: nat :| m < k && HappensBefore(es, i, m) && Direct(es, m, k);
      CausalityHolds(es, i, m);
      DirectAdvances(es, m, k);
    }
  }

  lemma DirectAdvances(es: seq<Event>, i: nat, k: nat)
    requires WellFormed(es) && NeverWraps(es) && Direct(es, i, k)
    ensures StampAt(es, i).Before(StampAt(es, k))
  {
    hide StampAt, ClockAt, Wraps;
    if es[i].node == es[k].node {
      NodeAdvances(es, i, k);
    } else {
      EventAdvances(es, k);
    }
  }

  /** Where a counter wraps, an event is stamped no later than one that happened before it. */
  lemma WrapBreaksCausality(es: seq<Event>, k: nat) returns (i: nat)
    requires WellFormed(es) && k < |es| && Wraps(es, k)
    ensures i < k && Direct(es, i, k) && !StampAt(es, i).Before(StampAt(es, k))
  {
    EventAdvances(es, k);
    var p := ClockComesFrom(es, es[k].node, k);
    var t := StampAt(es, k);
    if es[k].Receive? && !StampAt(es, es[k].from).Before(t) {
      i := es[k].from;
    } else if p >= 0 {
      i := p;
    } else {
      ZeroNeverWraps(es, k);
      assert false;
    }
  }

  /** A clock that has not stamped anything is not what makes an event wrap. */
  lemma ZeroNeverWraps(es: seq<Event>, k: nat)
    requires WellFormed(es) && k < |es| && ClockAt(es, es[k].node, k) == ZERO
    requires Wraps(es, k)
    ensures es[k].Receive? && !StampAt(es, es[k].from).Before(StampAt(es, k))
  {
    if es[k].Receive? {
      LogicalFits(es, es[k].from);
    }
    hide ClockAt;
  }

  /**
   * Causality, exactly: in a run of any number of nodes and messages, whatever
   * happened before gets a smaller stamp, if and only if no counter wraps.
   */
  lemma Causality(es: seq<Event>)
    requires WellFormed(es)
    ensures (forall i: nat, k: nat :: HappensBefore(es, i, k) ==> i < k < |es| && StampAt(es, i).Before(StampAt(es, k)))
       <==> NeverWraps(es)
  {
    hide StampAt, ClockAt, Wraps, Direct;
    if NeverWraps(es) {
      forall i: nat, k: nat | HappensBefore(es, i, k)
        ensures i < k < |es| && StampAt(es, i).Before(StampAt(es, k))
      {
        CausalityHolds(es, i, k);
      }
    } else {
      var k :| 0 <= k < |es| && Wraps(es, k);
      var i := WrapBreaksCausality(es, k);
      assert HappensBefore(es, i, k);
    }
  }

  /** A counter counts events at most: a run has to be longer than 2^32 - 1 events to wrap one. */
  lemma {:induction false} LogicalCounts(es: seq<Event>, i: nat)
    requires WellFormed(es) && i < |es|
    ensures StampAt(es, i).logical <= i + 1 && ClockAt(es, es[i].node, i).logical <= i
    decreases i
  {
    var k := ClockComesFrom(es, es[i].node, i);
    if k >= 0 {
      LogicalCounts(es, k);
    }
    if es[i].Receive? {
      LogicalCounts(es, es[i].from);
    }
    hide ClockAt, Bump;
    BumpCounts();
  }

  lemma BumpCounts()
    ensures forall n: nat :: Bump(n) <= n + 1
  {
  }

  lemma ShortRunsNeverWrap(es: seq<Event>)
    requires WellFormed(es) && |es| < TWO_32
    ensures NeverWraps(es)
  {
    forall i | 0 <= i < |es| ensures !Wraps(es, i) {
      LogicalCounts(es, i);
      if es[i].Receive? {
        LogicalCounts(es, es[i].from);
      }
      hide ClockAt, StampAt;
    }
  }

  /** The largest reading any node has taken up to event `i`. */
  function LargestReading(es: seq<Event>, i: nat): nat
    requires i < |es|
  {
    if i == 0 then es[0].pt else Max(LargestReading(es, i - 1), es[i].pt)
  }

  /** Stamps keep up with the node's own clock and never run ahead of every clock read so far. */
  lemma {:induction false} PhysicalIsRead(es: seq<Event>, i: nat)
    requires WellFormed(es) && i < |es|
    ensures es[i].pt <= StampAt(es, i).physical <= LargestReading(es, i)
    decreases i
  {
    var k := ClockComesFrom(es, es[i].node, i);
    if k >= 0 {
      PhysicalIsRead(es, k);
      ReadingsGrow(es, k, i);
    }
    if es[i].Receive? {
      PhysicalIsRead(es, es[i].from);
      ReadingsGrow(es, es[i].from, i);
    }
    hide ClockAt;
  }

  lemma {:induction false} ReadingsGrow(es: seq<Event>, k: nat, i: nat)
    requires k <= i < |es|
    ensures LargestReading(es, k) <= LargestReading(es, i) && es[i].pt <= LargestReading(es, i)
    decreases i
  {
    if k < i {
      ReadingsGrow(es, k, i - 1);
    }
  }
}
