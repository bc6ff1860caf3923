/**
 * Keeping the best few of a list of scored ids: the bounded heap, and what becomes of
 * the choice when every entry is offered twice.
 */
module Shortlist {
  import opened Arena

  // ------------------------------------------------------------ keeping the best few

  datatype Scored = Scored(score: real, id: Id)

  /** `best` is a choice of the `cap` highest-scored of `all`. */
  ghost predicate TopOf(best: seq<Scored>, all: seq<Scored>, cap: nat) {
    && multiset(best) <= multiset(all)
    && |best| == (if |all| < cap then |all| else cap)
    && forall c, d :: c in multiset(all) - multiset(best) && d in best ==> c.score <= d.score
  }

  predicate LeastAt(best: seq<Scored>, i: nat) {
    i < |best| && forall k :: 0 <= k < |best| ==> best[i].score <= best[k].score
  }

  /** What the heap keeps on top. */
  method Least(best: seq<Scored>) returns (i: nat)
    requires best != []
    ensures LeastAt(best, i)
  {
    i := 0;
    for k := 1 to |best|
      invariant i < |best| && forall j :: 0 <= j < k ==> best[i].score <= best[j].score
    {
      if best[k].score < best[i].score {
        i := k;
      }
    }
  }

  function Without(best: seq<Scored>, i: nat): seq<Scored>
    requires i < |best|
  {
    best[..i] + best[i + 1..]
  }

  lemma WithoutIs(best: seq<Scored>, i: nat)
    requires i < |best|
    ensures multiset(Without(best, i)) == multiset(best) - multiset{best[i]} && |Without(best, i)| == |best| - 1
  {
    assert best == best[..i] + [best[i]] + best[i + 1..];
  }

  lemma TopNone(cap: nat)
    ensures TopOf([], [], cap)
  {
  }

  /** There is room. */
  lemma TopGrows(best: seq<Scored>, all: seq<Scored>, cap: nat, c: Scored)
    requires TopOf(best, all, cap) && |best| < cap
    ensures TopOf(best + [c], all + [c], cap)
  {
    assert multiset(all) == multiset(best) by {
      FullSubset(best, all);
    }
    assert multiset(all + [c]) - multiset(best + [c]) == multiset{};
  }

  lemma FullSubset(best: seq<Scored>, all: seq<Scored>)
    requires multiset(best) <= multiset(all) && |best| == |all|
    ensures multiset(best) == multiset(all)
  {
    var rest := multiset(all) - multiset(best);
    assert |rest| == |multiset(all)| - |multiset(best)|;
    assert |multiset(all)| == |all| && |multiset(best)| == |best|;
    assert multiset(all) == multiset(best) + rest;
  }

  /** The newcomer is no better than any kept. */
  lemma TopSkips(best: seq<Scored>, all: seq<Scored>, cap: nat, c: Scored)
    requires TopOf(best, all, cap) && |best| == cap && forall d :: d in best ==> c.score <= d.score
    ensures TopOf(best, all + [c], cap)
  {
    assert multiset(all + [c]) == multiset(all) + multiset{c};
    forall e, d | e in multiset(all + [c]) - multiset(best) && d in best ensures e.score <= d.score {
      if e != c {
        assert e in multiset(all) - multiset(best);
      }
    }
    assert |best| <= |all| by {
      assert |multiset(best)| <= |multiset(all)|;
    }
  }

  /** The newcomer comes in, and a least element goes. */
  lemma TopSwaps(best: seq<Scored>, all: seq<Scored>, cap: nat, c: Scored, i: nat)
    requires TopOf(best, all, cap) && |best| == cap && LeastAt(best + [c], i)
    ensures TopOf(Without(best + [c], i), all + [c], cap)
  {
    var wide := best + [c];
    var kept := Without(wide, i);
    WithoutIs(wide, i);
    assert multiset(wide) == multiset(best) + multiset{c} && multiset(all + [c]) == multiset(all) + multiset{c};
    forall e, d | e in multiset(all + [c]) - multiset(kept) && d in kept ensures e.score <= d.score {
      assert d in multiset(kept) && d in multiset(wide) && d in wide;
      var least := wide[i];
      assert least.score <= d.score by {
        var k :| 0 <= k < |wide| && wide[k] == d;
      }
      if e != least {
        assert e in multiset(all) - multiset(best);
        SwapOrder(best, all, cap, c, i, e, d);
      }
    }
    assert |best| <= |all| by {
      assert |multiset(best)| <= |multiset(all)|;
    }
  }

  lemma SwapOrder(best: seq<Scored>, all: seq<Scored>, cap: nat, c: Scored, i: nat, e: Scored, d: Scored)
    requires TopOf(best, all, cap) && LeastAt(best + [c], i) && d in Without(best + [c], i)
    requires e in multiset(all) - multiset(best)
    requires best != []
    ensures e.score <= d.score
  {
    var wide := best + [c];
    if i == |best| {
      assert Without(wide, i) == best;
    } else if d !in best {
      assert d in wide;
      assert wide[i] == best[i] && wide[|best|] == c;
      assert best[i] in best;
    }
  }

  /** Push, and pop the least if that is one too many. */
  method Push(best: seq<Scored>, cap: nat, c: Scored, ghost all: seq<Scored>) returns (best': seq<Scored>)
    requires TopOf(best, all, cap)
    ensures TopOf(best', all + [c], cap)
  {
    hide TopOf, LeastAt, Without;
    TopSize(best, all, cap);
    best' := best + [c];
    if |best'| <= cap {
      TopGrows(best, all, cap, c);
      return;
    }
    if cap == 0 {
      TopOfNothing(all, c);
      return [];
    }
    var i := Least(best');
    TopSwaps(best, all, cap, c, i);
    LeastInside(best', i);
    best' := Without(best', i);
  }

  /** Putting the newcomer in the place of the least is pushing it and popping the least. */
  lemma TopReplaces(best: seq<Scored>, all: seq<Scored>, cap: nat, c: Scored, i: nat)
    requires TopOf(best, all, cap) && |best| == cap && LeastAt(best, i) && c.score > best[i].score
    ensures TopOf(Without(best, i) + [c], all + [c], cap)
  {
    hide TopOf;
    LeastStays(best, c, i);
    hide LeastAt, Without;
    TopSwaps(best, all, cap, c, i);
    WithoutThen(best, c, i);
  }

  lemma LeastStays(best: seq<Scored>, c: Scored, i: nat)
    requires LeastAt(best, i) && c.score > best[i].score
    ensures i < |best| && LeastAt(best + [c], i)
  {
  }

  lemma WithoutThen(best: seq<Scored>, c: Scored, i: nat)
    requires i < |best|
    ensures Without(best + [c], i) == Without(best, i) + [c]
  {
  }

  lemma TopDeclines(best: seq<Scored>, all: seq<Scored>, cap: nat, c: Scored, i: nat)
    requires TopOf(best, all, cap) && |best| == cap && LeastAt(best, i) && c.score <= best[i].score
    ensures TopOf(best, all + [c], cap)
  {
    hide TopOf;
    TopSkips(best, all, cap, c);
  }

  /** Replace the least if the newcomer beats it. */
  method Replace(best: seq<Scored>, cap: nat, c: Scored, ghost all: seq<Scored>) returns (best': seq<Scored>)
    requires TopOf(best, all, cap)
    ensures TopOf(best', all + [c], cap)
  {
    hide TopOf, LeastAt, Without;
    TopSize(best, all, cap);
    if |best| < cap {
      TopGrows(best, all, cap, c);
      return best + [c];
    }
    if best == [] {
      TopOfNothing(all, c);
      return [];
    }
    var i := Least(best);
    LeastInside(best, i);
    if c.score > best[i].score {
      TopReplaces(best, all, cap, c, i);
      return Without(best, i) + [c];
    }
    TopDeclines(best, all, cap, c, i);
    return best;
  }

  lemma LeastInside(best: seq<Scored>, i: nat)
    requires LeastAt(best, i)
    ensures i < |best|
  {
  }

  lemma TopSize(best: seq<Scored>, all: seq<Scored>, cap: nat)
    requires TopOf(best, all, cap)
    ensures |best| == if |all| < cap then |all| else cap
    ensures forall c :: c in best ==> c in all
  {
    forall c | c in best ensures c in all {
      assert c in multiset(best) && c in multiset(all);
    }
  }

  lemma TopOfNothing(all: seq<Scored>, c: Scored)
    ensures TopOf([], all + [c], 0)
  {
  }

  // ------------------------------------------------------------ each id once

  function Twice(s: seq<Scored>): seq<Scored> { s + s }

  ghost predicate DistinctIds(s: seq<Scored>) {
    forall i, k :: 0 <= i < k < |s| ==> s[i].id != s[k].id
  }

  /** The entries of a map, each once. */
  ghost predicate Entries(s: seq<Scored>, f: map<Id, real>) {
    DistinctIds(s) && (forall c :: c in s ==> c.id in f && f[c.id] == c.score) && |s| == |f|
  }

  lemma EntriesCover(all: seq<Scored>, f: map<Id, real>, id: Id)
    requires Entries(all, f) && id in f
    ensures Scored(f[id], id) in all
  {
    var ids := set c | c in all :: c.id;
    DistinctCount(all);
    assert ids <= f.Keys && |ids| == |f.Keys|;
    SameSize(ids, f.Keys);
    var c :| c in all && c.id == id;
  }

  lemma SameSize(a: set<Id>, b: set<Id>)
    requires a <= b && |a| == |b|
    ensures a == b
  {
    assert |b - a| == |b| - |a|;
  }

  lemma {:induction false} DistinctCount(s: seq<Scored>)
    requires DistinctIds(s)
    ensures |set c | c in s :: c.id| == |s|
    decreases |s|
  {
    var ids := set c | c in s :: c.id;
    if s != [] {
      var p := s[..|s| - 1];
      var last := s[|s| - 1];
      DistinctCount(p);
      assert s == p + [last];
      var before := set c | c in p :: c.id;
      assert last.id !in before;
      assert ids == before + {last.id};
    }
  }

  lemma TopDistinct(top: seq<Scored>, all: seq<Scored>, cap: nat)
    requires TopOf(top, all, cap) && DistinctIds(all)
    ensures DistinctIds(top)
  {
    forall i, j | 0 <= i < j < |top| ensures top[i].id != top[j].id {
      if top[i].id == top[j].id {
        assert top[i] in multiset(top) && top[i] in multiset(all) && top[j] in multiset(top) && top[j] in multiset(all);
        var a :| 0 <= a < |all| && all[a] == top[i];
        var b :| 0 <= b < |all| && all[b] == top[j];
        assert a == b;
        TwiceIn(top, i, j);
        OnceIn(all, a);
      }
    }
  }

  lemma TwiceIn(s: seq<Scored>, i: nat, j: nat)
    requires i < j < |s| && s[i] == s[j]
    ensures multiset(s)[s[i]] >= 2
  {
    assert s == s[..j] + [s[j]] + s[j + 1..];
    assert s[i] in s[..j];
  }

  lemma OnceIn(s: seq<Scored>, a: nat)
    requires a < |s| && DistinctIds(s)
    ensures multiset(s)[s[a]] == 1
  {
    assert s == s[..a] + [s[a]] + s[a + 1..];
    assert s[a] !in s[..a] && s[a] !in s[a + 1..];
  }

  // ------------------------------------------------------------ the best entries of a map

  /** `kept` is a choice of the `cap` highest entries of `m`. */
  ghost predicate TopSet(kept: set<Id>, m: map<Id, real>, cap: nat) {
    && kept <= m.Keys
    && |kept| == (if |m| < cap then |m| else cap)
    && forall a, b :: a in m && a !in kept && b in kept ==> m[a] <= m[b]
  }

  function IdsOf(s: seq<Scored>): set<Id> {
    set c | c in s :: c.id
  }

  /** A choice among a map's entries, each once, is a choice of the map. */
  lemma TopIsTopSet(best: seq<Scored>, all: seq<Scored>, cap: nat, m: map<Id, real>)
    requires Entries(all, m) && TopOf(best, all, cap)
    ensures TopSet(IdsOf(best), m, cap)
  {
    TopDistinct(best, all, cap);
    DistinctCount(best);
    TopSize(best, all, cap);
    var kept := IdsOf(best);
    forall a, b | a in m && a !in kept && b in kept ensures m[a] <= m[b] {
      EntriesCover(all, m, a);
      var d :| d in best && d.id == b;
      assert Scored(m[a], a) !in best;
      assert Scored(m[a], a) in multiset(all) - multiset(best) && d in all;
    }
  }

  /** A list that has every entry of a map and nothing else, each id once, lists its entries. */
  lemma ListsAll(s: seq<Scored>, m: map<Id, real>)
    requires DistinctIds(s)
    requires forall c :: c in s ==> c.id in m && m[c.id] == c.score
    requires forall id :: id in m ==> Scored(m[id], id) in s
    ensures Entries(s, m)
  {
    DistinctCount(s);
    assert IdsOf(s) == m.Keys;
  }

  // ------------------------------------------------------------ every entry offered twice

  /** The room in which entries offered twice cannot crowd out one another. */
  predicate RoomForTwo(n: nat, cap: nat) {
    cap <= 1 || 2 * n <= cap + 1
  }

  /** How often a kept entry occurs, and that it is the map's. */
  ghost predicate FromTwice(b: multiset<Scored>, m: map<Id, real>) {
    forall c :: c in b ==> b[c] <= 2 && c.id in m && m[c.id] == c.score
  }

  ghost function IdsIn(b: multiset<Scored>): set<Id> {
    set c | c in b :: c.id
  }

  lemma OneIdLess(b: multiset<Scored>, m: map<Id, real>, c: Scored)
    requires FromTwice(b, m) && c in b
    ensures FromTwice(b[c := 0], m) && IdsIn(b[c := 0]) == IdsIn(b) - {c.id} && |IdsIn(b[c := 0])| == |IdsIn(b)| - 1
    ensures |b[c := 0]| == |b| - b[c]
  {
    var b' := b[c := 0];
    forall id ensures id in IdsIn(b') <==> id in IdsIn(b) && id != c.id {
      if d :| d in b && d.id == id && id != c.id {
        assert d in b';
      }
    }
    assert c.id in IdsIn(b);
  }

  /** At most two of each: the ids are at least half as many. */
  lemma {:induction false} TwoOfEach(b: multiset<Scored>, m: map<Id, real>)
    requires FromTwice(b, m)
    ensures |b| <= 2 * |IdsIn(b)|
    decreases |b|
  {
    if b != multiset{} {
      var c :| c in b;
      OneIdLess(b, m, c);
      TwoOfEach(b[c := 0], m);
    }
  }

  /** Two of each but one: the ids are no more than that. */
  lemma {:induction false} TwoOfEachButOne(b: multiset<Scored>, m: map<Id, real>)
    requires FromTwice(b, m) && forall c, d :: c in b && d in b && b[c] == 1 && b[d] == 1 ==> c == d
    ensures 2 * |IdsIn(b)| <= |b| + 1
    decreases |b|
  {
    if b != multiset{} {
      var c :| c in b;
      OneIdLess(b, m, c);
      TwoOfEachButOne(b[c := 0], m);
      if b[c] == 1 {
        TwoOfEachExactly(b[c := 0], m);
      }
    }
  }

  lemma {:induction false} TwoOfEachExactly(b: multiset<Scored>, m: map<Id, real>)
    requires FromTwice(b, m) && forall c :: c in b ==> b[c] == 2
    ensures 2 * |IdsIn(b)| == |b|
    decreases |b|
  {
    if b != multiset{} {
      var c :| c in b;
      OneIdLess(b, m, c);
      TwoOfEachExactly(b[c := 0], m);
    }
  }

  lemma KeptTwice(best: seq<Scored>, s: seq<Scored>, cap: nat, m: map<Id, real>)
    requires Entries(s, m) && TopOf(best, Twice(s), cap)
    ensures FromTwice(multiset(best), m) && IdsIn(multiset(best)) == IdsOf(best) && IdsOf(best) <= m.Keys
    ensures |best| == if 2 * |m| < cap then 2 * |m| else cap
  {
    forall c | c in multiset(best) ensures multiset(best)[c] <= 2 && c.id in m && m[c.id] == c.score {
      assert multiset(best)[c] <= multiset(Twice(s))[c] == 2 * multiset(s)[c];
      assert c in multiset(s);
      var i :| 0 <= i < |s| && s[i] == c;
      OnceIn(s, i);
    }
    forall id ensures id in IdsIn(multiset(best)) <==> id in IdsOf(best) {
      if c :| c in best && c.id == id {
        assert c in multiset(best);
      }
    }
  }

  /** What was not kept is no better, however often it was offered. */
  lemma LeftOutIsWorse(best: seq<Scored>, s: seq<Scored>, cap: nat, m: map<Id, real>, a: Id, b: Id)
    requires Entries(s, m) && TopOf(best, Twice(s), cap) && a in m && b in IdsOf(best) && b in m
    requires multiset(best)[Scored(m[a], a)] < 2
    ensures m[a] <= m[b]
  {
    var c := Scored(m[a], a);
    EntriesCover(s, m, a);
    var i :| 0 <= i < |s| && s[i] == c;
    OnceIn(s, i);
    assert multiset(Twice(s))[c] == 2;
    assert c in multiset(Twice(s)) - multiset(best);
    var d :| d in best && d.id == b;
    KeptTwice(best, s, cap, m);
    assert d in multiset(best);
  }

  /** With room for two, a choice of the doubled list still is one of the map. */
  lemma TwiceKeeps(best: seq<Scored>, s: seq<Scored>, cap: nat, m: map<Id, real>)
    requires Entries(s, m) && TopOf(best, Twice(s), cap) && RoomForTwo(|m|, cap)
    ensures TopSet(IdsOf(best), m, cap)
  {
    KeptTwice(best, s, cap, m);
    TwoOfEach(multiset(best), m);
    var kept := IdsOf(best);
    NoMoreIds(kept, m.Keys);
    FewIds(best);
    forall a, b | a in m && a !in kept && b in kept ensures m[a] <= m[b] {
      assert Scored(m[a], a) !in best;
      LeftOutIsWorse(best, s, cap, m, a, b);
    }
  }

  lemma NoMoreIds(a: set<Id>, b: set<Id>)
    requires a <= b
    ensures |a| <= |b|
  {
    assert |b - a| == |b| - |a|;
  }

  lemma FewIds(best: seq<Scored>)
    ensures |best| == 1 ==> |IdsOf(best)| == 1
    ensures |best| == 0 ==> |IdsOf(best)| == 0
  {
    if |best| == 1 {
      assert best[0] in best;
      assert IdsOf(best) == {best[0].id};
    }
  }

  ghost predicate AllDiffer(m: map<Id, real>) {
    forall a, b :: a in m && b in m && a != b ==> m[a] != m[b]
  }

  /** Without it, and without ties, the doubled list crowds out all but the better half of the room. */
  lemma TwiceDrops(best: seq<Scored>, s: seq<Scored>, cap: nat, m: map<Id, real>)
    requires Entries(s, m) && TopOf(best, Twice(s), cap) && !RoomForTwo(|m|, cap) && AllDiffer(m)
    ensures TopSet(IdsOf(best), m, (cap + 1) / 2) && !TopSet(IdsOf(best), m, cap)
  {
    KeptTwice(best, s, cap, m);
    var b, kept := multiset(best), IdsOf(best);
    forall c, d | c in b && d in b && b[c] == 1 && b[d] == 1 ensures c == d {
      assert c in best && d in best && c.id in kept && d.id in kept;
      LeftOutIsWorse(best, s, cap, m, c.id, d.id);
      LeftOutIsWorse(best, s, cap, m, d.id, c.id);
    }
    TwoOfEachButOne(b, m);
    TwoOfEach(b, m);
    forall e, d | e in m && e !in kept && d in kept ensures m[e] <= m[d] {
      assert Scored(m[e], e) !in best;
      LeftOutIsWorse(best, s, cap, m, e, d);
    }
  }

  /** There always is a choice. */
  lemma {:induction false} TopExists(all: seq<Scored>, cap: nat) returns (best: seq<Scored>)
    ensures TopOf(best, all, cap)
    decreases |all|
  {
    if all == [] {
      TopNone(cap);
      best := [];
    } else {
      var rest, c := all[..|all| - 1], all[|all| - 1];
      assert all == rest + [c];
      best := TopExists(rest, cap);
      TopSize(best, rest, cap);
      if |best| < cap {
        TopGrows(best, rest, cap, c);
        best := best + [c];
      } else if cap == 0 {
        TopOfNothing(rest, c);
      } else {
        var i := LeastExists(best + [c]);
        TopSwaps(best, rest, cap, c, i);
        best := Without(best + [c], i);
      }
    }
  }

  lemma {:induction false} LeastExists(s: seq<Scored>) returns (i: nat)
    requires s != []
    ensures LeastAt(s, i)
    decreases |s|
  {
    i := |s| - 1;
    if |s| > 1 {
      var k := LeastExists(s[..|s| - 1]);
      if s[k].score < s[i].score {
        i := k;
      }
    }
  }

  /** A choice of the doubled list that has the fewest ids: half as many entries, each twice, less one if need be. */
  lemma FewestIds(s: seq<Scored>, cap: nat, m: map<Id, real>) returns (best: seq<Scored>)
    requires Entries(s, m) && !RoomForTwo(|m|, cap)
    ensures TopOf(best, Twice(s), cap) && 2 * |IdsOf(best)| <= cap + 1
  {
    hide TopOf, Entries, IdsOf, LeastAt, Without, DistinctIds;
    var half := (cap + 1) / 2;
    EntriesCount(s, m);
    var h := TopExists(s, half);
    TopSize(h, s, half);
    IdsOfTop(h, s, half, m);
    if cap == 2 * half {
      best := h + h;
      SameIds(h, h);
      DoubledTop(h, s, half);
    } else {
      var i := LeastExists(h);
      LeastInside(h, i);
      best := h + Without(h, i);
      WithoutIn(h, i);
      SameIds(h, Without(h, i));
      DoubledLessOne(h, s, half, i);
    }
  }

  lemma EntriesCount(s: seq<Scored>, m: map<Id, real>)
    requires Entries(s, m)
    ensures |s| == |m| && DistinctIds(s)
  {
  }

  lemma IdsOfTop(h: seq<Scored>, s: seq<Scored>, cap: nat, m: map<Id, real>)
    requires TopOf(h, s, cap) && Entries(s, m)
    ensures |IdsOf(h)| == |h|
  {
    TopDistinct(h, s, cap);
    DistinctCount(h);
  }

  lemma SameIds(h: seq<Scored>, g: seq<Scored>)
    requires forall c :: c in g ==> c in h
    ensures IdsOf(h + g) == IdsOf(h)
  {
  }

  lemma WithoutIn(best: seq<Scored>, i: nat)
    requires i < |best|
    ensures forall c :: c in Without(best, i) ==> c in best
  {
  }

  lemma DoubledTop(h: seq<Scored>, s: seq<Scored>, half: nat)
    requires TopOf(h, s, half) && half <= |s|
    ensures TopOf(h + h, Twice(s), 2 * half)
  {
    assert multiset(h + h) == multiset(h) + multiset(h) && multiset(Twice(s)) == multiset(s) + multiset(s);
    forall c, d | c in multiset(Twice(s)) - multiset(h + h) && d in h + h ensures c.score <= d.score {
      assert c in multiset(s) - multiset(h) && d in h;
    }
  }

  lemma DoubledLessOne(h: seq<Scored>, s: seq<Scored>, half: nat, i: nat)
    requires TopOf(h, s, half) && half <= |s| && LeastAt(h, i)
    ensures TopOf(h + Without(h, i), Twice(s), 2 * half - 1)
  {
    WithoutIs(h, i);
    var best := h + Without(h, i);
    assert multiset(best) == multiset(h) + (multiset(h) - multiset{h[i]}) && multiset(Twice(s)) ==
      multiset(s) + multiset(s);
    assert h[i] in multiset(h);
    forall c, d | c in multiset(Twice(s)) - multiset(best) && d in best ensures c.score <= d.score {
      assert d in multiset(h) && d in h;
      var k :| 0 <= k < |h| && h[k] == d;
      if c != h[i] {
        assert c in multiset(s) - multiset(h);
      }
    }
  }

  /** Room for two is exactly what makes every choice of the doubled list one of the map. */
  lemma TwiceIsSafeIff(s: seq<Scored>, cap: nat, m: map<Id, real>)
    requires Entries(s, m)
    ensures (forall best :: TopOf(best, Twice(s), cap) ==> TopSet(IdsOf(best), m, cap)) <==> RoomForTwo(|m|, cap)
  {
    hide TopOf, Entries, TopSet, Twice;
    if RoomForTwo(|m|, cap) {
      forall best | TopOf(best, Twice(s), cap) ensures TopSet(IdsOf(best), m, cap) {
        TwiceKeeps(best, s, cap, m);
      }
    } else {
      var best := FewestIds(s, cap, m);
      TooFewIds(IdsOf(best), m, cap);
    }
  }

  lemma TooFewIds(kept: set<Id>, m: map<Id, real>, cap: nat)
    requires !RoomForTwo(|m|, cap) && 2 * |kept| <= cap + 1
    ensures !TopSet(kept, m, cap)
  {
  }
}
