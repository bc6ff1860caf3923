/**
 * The atomic bit mask that hands out the GPU search slots (at most 32, one bit
 * each). A launch walks the slots in order with one fetch-or per slot, keeps
 * the first whose bit was clear, and clears that bit when it is done. Each
 * atomic operation is one step; launches interleave freely between them.
 */
module SlotMask {

  type Tid = nat

  /** A slot number, or 32 for a walk that has passed every slot. */
  type Slot = i: bv6 | i <= 32

  function BitOf(i: Slot): bv32
    requires i < 32
  {
    1 << i
  }

  function Both(a: bv32, b: bv32): bv32 { a & b }

  function Either(a: bv32, b: bv32): bv32 { a | b }

  function Less(a: bv32, b: bv32): bv32 { a & !b }

  predicate IsSet(mask: bv32, i: Slot)
    requires i < 32
  {
    Both(mask, BitOf(i)) != 0
  }

  function SetBit(mask: bv32, i: Slot): bv32
    requires i < 32
  {
    Either(mask, BitOf(i))
  }

  function ClearBit(mask: bv32, i: Slot): bv32
    requires i < 32
  {
    Less(mask, BitOf(i))
  }

  lemma BitsAreApart(i: Slot, j: Slot)
    requires i < 32 && j < 32
    ensures BitOf(i) != 0 && (i != j ==> Both(BitOf(i), BitOf(j)) == 0)
  {
  }

  lemma EitherElsewhere(m: bv32, b: bv32, c: bv32)
    ensures Both(Either(m, b), b) == b
    ensures Both(b, c) == 0 ==> Both(Either(m, b), c) == Both(m, c)
  {
  }

  lemma LessElsewhere(m: bv32, b: bv32, c: bv32)
    ensures Both(Less(m, b), b) == 0
    ensures Both(b, c) == 0 ==> Both(Less(m, b), c) == Both(m, c)
  {
  }

  /** Setting one bit leaves the others alone. */
  lemma AfterSet(mask: bv32, i: Slot, j: Slot)
    requires i < 32 && j < 32
    ensures IsSet(SetBit(mask, i), j) <==> i == j || IsSet(mask, j)
  {
    hide BitOf, Both, Either;
    BitsAreApart(i, j);
    EitherElsewhere(mask, BitOf(i), BitOf(j));
  }

  /** So does clearing one. */
  lemma AfterClear(mask: bv32, i: Slot, j: Slot)
    requires i < 32 && j < 32
    ensures IsSet(ClearBit(mask, i), j) <==> i != j && IsSet(mask, j)
  {
    hide BitOf, Both, Less;
    BitsAreApart(i, j);
    LessElsewhere(mask, BitOf(i), BitOf(j));
  }

  /** Where each launch is: walking the slots, or using the slot it claimed. */
  datatype State = State(mask: bv32, walking: map<Tid, Slot>, holding: map<Tid, Slot>)

  const INITIAL := State(0, map[], map[])

  ghost predicate Begin(s: State, s': State, t: Tid) {
    t !in s.walking && t !in s.holding && s' == s.(walking := s.walking[t := 0])
  }

  /** One fetch-or: the slot is ours if its bit was clear before. */
  ghost predicate Probe(s: State, s': State, t: Tid, slots: Slot) {
    && t in s.walking && s.walking[t] < slots
    && var i := s.walking[t];
       var q := s.(mask := SetBit(s.mask, i));
       s' == if IsSet(s.mask, i) then q.(walking := s.walking[t := i + 1])
             else q.(walking := s.walking - {t}, holding := s.holding[t := i])
  }

  /** All slots were busy: the launch goes elsewhere. */
  ghost predicate GiveUp(s: State, s': State, t: Tid, slots: Slot) {
    t in s.walking && s.walking[t] >= slots && s' == s.(walking := s.walking - {t})
  }

  ghost predicate Release(s: State, s': State, t: Tid) {
    && t in s.holding && s.holding[t] < 32
    && s' == s.(mask := ClearBit(s.mask, s.holding[t]), holding := s.holding - {t})
  }

  ghost predicate Next(s: State, s': State, slots: Slot) {
    exists t :: Begin(s, s', t) || Probe(s, s', t, slots) || GiveUp(s, s', t, slots) || Release(s, s', t)
  }

  ghost predicate Run(tr: seq<State>, slots: Slot) {
    |tr| > 0 && tr[0] == INITIAL && forall i :: 0 < i < |tr| ==> Next(tr[i - 1], tr[i], slots)
  }

  ghost predicate Holds(s: State, t: Tid, i: Slot) {
    t in s.holding && s.holding[t] == i
  }

  /** A bit is set exactly while one launch, and only one, holds its slot. */
  ghost predicate Inv(s: State, slots: Slot) {
    && (forall t :: t in s.holding ==> s.holding[t] < slots && IsSet(s.mask, s.holding[t]) && t !in s.walking)
    && (forall t, u :: t in s.holding && u in s.holding && s.holding[t] == s.holding[u] ==> t == u)
    && (forall i: Slot :: i < 32 && IsSet(s.mask, i) ==> exists t :: Holds(s, t, i))
  }

  lemma BitsAfterProbe(mask: bv32, i: Slot)
    requires i < 32
    ensures forall j: Slot :: j < 32 ==> (IsSet(SetBit(mask, i), j) <==> i == j || IsSet(mask, j))
  {
    hide IsSet, SetBit;
    forall j: Slot | j < 32 ensures IsSet(SetBit(mask, i), j) <==> i == j || IsSet(mask, j) {
      AfterSet(mask, i, j);
    }
  }

  lemma ProbeKeeps(s: State, s': State, t: Tid, slots: Slot)
    requires Inv(s, slots) && Probe(s, s', t, slots)
    ensures Inv(s', slots)
  {
    hide IsSet, SetBit, Inv;
    if IsSet(s.mask, s.walking[t]) {
      ProbeMisses(s, s', t, slots);
    } else {
      ProbeClaims(s, s', t, slots);
    }
  }

  lemma ProbeMisses(s: State, s': State, t: Tid, slots: Slot)
    requires Inv(s, slots) && Probe(s, s', t, slots) && IsSet(s.mask, s.walking[t])
    ensures Inv(s', slots)
  {
    hide IsSet, SetBit;
    BitsAfterProbe(s.mask, s.walking[t]);
    assert s'.holding == s.holding;
    assert forall u, j :: Holds(s, u, j) ==> Holds(s', u, j);
  }

  lemma ProbeClaims(s: State, s': State, t: Tid, slots: Slot)
    requires Inv(s, slots) && Probe(s, s', t, slots) && !IsSet(s.mask, s.walking[t])
    ensures Inv(s', slots)
  {
    hide IsSet, SetBit;
    BitsAfterProbe(s.mask, s.walking[t]);
    assert Holds(s', t, s.walking[t]);
    assert forall u, j :: Holds(s, u, j) ==> Holds(s', u, j);
  }

  lemma ReleaseKeeps(s: State, s': State, t: Tid, slots: Slot)
    requires Inv(s, slots) && Release(s, s', t)
    ensures Inv(s', slots)
  {
    hide IsSet, ClearBit;
    var i := s.holding[t];
    forall j: Slot | j < 32
      ensures IsSet(s'.mask, j) <==> i != j && IsSet(s.mask, j)
    {
      AfterClear(s.mask, i, j);
    }
    forall j: Slot | j < 32 && IsSet(s'.mask, j) ensures exists u :: Holds(s', u, j) {
      var u :| Holds(s, u, j);
      assert Holds(s', u, j);
    }
  }

  lemma OtherStepsKeep(s: State, s': State, t: Tid, slots: Slot)
    requires Inv(s, slots) && (Begin(s, s', t) || GiveUp(s, s', t, slots))
    ensures Inv(s', slots)
  {
    hide IsSet;
    forall j: Slot | j < 32 && IsSet(s'.mask, j) ensures exists u :: Holds(s', u, j) {
      var u :| Holds(s, u, j);
      assert Holds(s', u, j);
    }
  }

  lemma {:induction false} RunKeeps(tr: seq<State>, slots: Slot, n: nat)
    requires Run(tr, slots) && n < |tr|
    ensures Inv(tr[n], slots)
  {
    if n > 0 {
      RunKeeps(tr, slots, n - 1);
      var s, s' := tr[n - 1], tr[n];
      hide Inv, IsSet;
      var t :| Begin(s, s', t) || Probe(s, s', t, slots) || GiveUp(s, s', t, slots) || Release(s, s', t);
      if Probe(s, s', t, slots) {
        ProbeKeeps(s, s', t, slots);
      } else if Release(s, s', t) {
        ReleaseKeeps(s, s', t, slots);
      } else {
        OtherStepsKeep(s, s', t, slots);
      }
    } else {
      NothingSet();
    }
  }

  lemma NothingSet()
    ensures forall i: Slot :: i < 32 ==> !IsSet(0, i)
  {
  }

  /**
   * No two launches ever use the same slot's buffers, a slot in use is a real
   * one, and its bit is set for exactly as long as it is in use: a slot that
   * nobody holds can be claimed again.
   */
  lemma SlotsAreExclusive(tr: seq<State>, slots: Slot, n: nat)
    requires Run(tr, slots) && n < |tr|
    ensures var s := tr[n];
      && (forall t, u :: t in s.holding && u in s.holding && t != u ==> s.holding[t] != s.holding[u])
      && (forall t :: t in s.holding ==> s.holding[t] < slots)
      && (forall i: Slot :: i < 32 ==> (IsSet(s.mask, i) <==> exists t :: Holds(s, t, i)))
  {
    RunKeeps(tr, slots, n);
    hide IsSet;
  }

  /** What one step does to a launch on its walk: nothing, begin it, or take it past a slot in use. */
  lemma WalkStep(s: State, s': State, slots: Slot, t: Tid, j: Slot)
    requires Next(s, s', slots) && t in s'.walking && j < s'.walking[t]
    ensures t in s.walking && (j < s.walking[t] || (j < 32 && IsSet(s.mask, j)))
  {
    hide IsSet, SetBit, ClearBit, Begin, Probe, GiveUp, Release;
    var u :| Begin(s, s', u) || Probe(s, s', u, slots) || GiveUp(s, s', u, slots) || Release(s, s', u);
    if Probe(s, s', u, slots) {
      ProbeWalks(s, s', u, slots, t, j);
    } else {
      OthersWalk(s, s', u, slots, t, j);
    }
  }

  lemma ProbeWalks(s: State, s': State, u: Tid, slots: Slot, t: Tid, j: Slot)
    requires Probe(s, s', u, slots) && t in s'.walking && j < s'.walking[t]
    ensures t in s.walking && (j < s.walking[t] || (j < 32 && IsSet(s.mask, j)))
  {
    hide IsSet, SetBit;
    NextSlot(j, s.walking[u]);
  }

  lemma OthersWalk(s: State, s': State, u: Tid, slots: Slot, t: Tid, j: Slot)
    requires Begin(s, s', u) || GiveUp(s, s', u, slots) || Release(s, s', u)
    requires t in s'.walking && j < s'.walking[t]
    ensures t in s.walking && j < s.walking[t]
  {
    hide ClearBit;
  }

  lemma NextSlot(j: Slot, i: Slot)
    requires i < 32
    ensures j < i + 1 ==> j < i || j == i
  {
  }

  lemma SomeoneHolds(s: State, slots: Slot, t: Tid, j: Slot)
    requires Inv(s, slots) && t in s.walking && j < 32 && IsSet(s.mask, j)
    ensures HeldByOther(s, t, j)
  {
    hide IsSet;
    var u :| Holds(s, u, j);
  }

  ghost predicate HeldByOther(s: State, t: Tid, j: Slot) {
    exists u :: u != t && Holds(s, u, j)
  }

  /** The launch is on its walk all the time from state `m` to state `n`. */
  ghost predicate WalksOn(tr: seq<State>, t: Tid, m: nat, n: nat) {
    n < |tr| && forall k :: m <= k <= n ==> t in tr[k].walking
  }

  lemma WalksOnStill(tr: seq<State>, t: Tid, m: nat, n: nat)
    requires m <= n < |tr| && t in tr[n].walking && (m < n ==> WalksOn(tr, t, m, n - 1))
    ensures WalksOn(tr, t, m, n)
  {
  }

  lemma StepOf(tr: seq<State>, slots: Slot, n: nat)
    requires Run(tr, slots) && 0 < n < |tr|
    ensures Next(tr[n - 1], tr[n], slots)
  {
    hide Next;
  }

  /**
   * No slot is passed over: a launch that has walked past slot `j` found its bit set on the way,
   * so one that gives up found every slot in use.
   */
  lemma {:induction false} PassedWasBusy(tr: seq<State>, slots: Slot, n: nat, t: Tid, j: Slot) returns (m: nat)
    requires Run(tr, slots) && n < |tr| && t in tr[n].walking && j < tr[n].walking[t]
    ensures m < n && j < 32 && IsSet(tr[m].mask, j) && HeldByOther(tr[m], t, j) && WalksOn(tr, t, m, n)
  {
    assert n > 0;
    StepOf(tr, slots, n);
    hide IsSet, Run, Next, Inv, Holds, HeldByOther, WalksOn;
    WalkStep(tr[n - 1], tr[n], slots, t, j);
    if j < tr[n - 1].walking[t] {
      m := PassedWasBusy(tr, slots, n - 1, t, j);
    } else {
      m := n - 1;
      RunKeeps(tr, slots, m);
      SomeoneHolds(tr[m], slots, t, j);
      WalksOnStill(tr, t, m, m);
    }
    WalksOnStill(tr, t, m, n);
  }

  /**
   * The mask word. Its methods are the atomic operations; `at` says where every launch
   * is, and each method is the step of that name, so that runs of calls are runs of steps.
   */
  class Mask {
    var word: bv32
    const slots: Slot
    ghost var at: State

    ghost predicate Valid()
      reads this
    {
      at.mask == word && Inv(at, slots)
    }

    constructor (slots: Slot)
      ensures Valid() && word == 0 && at == INITIAL && this.slots == slots
    {
      word, at := 0, INITIAL;
      this.slots := slots;
      new;
      NothingSet();
    }

    /** A launch starts walking. */
    ghost method Enter(t: Tid)
      requires Valid() && t !in at.walking && t !in at.holding
      modifies this`at
      ensures Valid() && Begin(old(at), at, t)
    {
      hide IsSet, Inv;
      ghost var was := at;
      at := was.(walking := was.walking[t := 0]);
      OtherStepsKeep(was, at, t, slots);
    }

    /** Try to take slot `i`; the bit was clear exactly if it is now ours. */
    method Claim(i: Slot, ghost t: Tid) returns (won: bool)
      requires Valid() && t in at.walking && at.walking[t] == i < slots
      modifies this
      ensures Valid() && Probe(old(at), at, t, slots)
      ensures (won <==> Holds(at, t, i)) && (won <==> !IsSet(old(word), i))
      ensures forall j: Slot :: j < 32 ==> (IsSet(word, j) <==> j == i || IsSet(old(word), j))
    {
      hide IsSet, SetBit, Inv;
      ghost var was := at;
      NotYetHolding(was, t, slots);
      won := !IsSet(word, i);
      BitsAfterProbe(word, i);
      word := SetBit(word, i);
      at := was.(mask := word);
      at := if won then at.(walking := was.walking - {t}, holding := was.holding[t := i])
            else at.(walking := was.walking[t := i + 1]);
      ProbeKeeps(was, at, t, slots);
    }

    /** A launch is done with its slot. */
    method Free(i: Slot, ghost t: Tid)
      requires Valid() && Holds(at, t, i) && i < 32
      modifies this
      ensures Valid() && Release(old(at), at, t)
      ensures forall j: Slot :: j < 32 ==> (IsSet(word, j) <==> j != i && IsSet(old(word), j))
    {
      hide IsSet, ClearBit, Inv;
      ghost var was, before := at, word;
      word := ClearBit(word, i);
      forall j: Slot | j < 32 ensures IsSet(word, j) <==> i != j && IsSet(before, j) {
        AfterClear(before, i, j);
      }
      at := was.(mask := word, holding := was.holding - {t});
      ReleaseKeeps(was, at, t, slots);
    }

    /** Every slot was busy. */
    ghost method Leave(t: Tid)
      requires Valid() && t in at.walking && at.walking[t] >= slots
      modifies this`at
      ensures Valid() && GiveUp(old(at), at, t, slots)
    {
      hide IsSet, Inv;
      ghost var was := at;
      at := was.(walking := was.walking - {t});
      OtherStepsKeep(was, at, t, slots);
    }
  }

  lemma NotYetHolding(s: State, t: Tid, slots: Slot)
    requires Inv(s, slots) && t in s.walking
    ensures t !in s.holding
  {
    hide IsSet;
  }
}
