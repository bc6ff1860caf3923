/**
 * Glob patterns over raw bytes, as used by ACL key patterns and the KEYS command.
 *
 * `Matches` is the textbook recursive meaning of a pattern. `GlobMatch` is the
 * server's iterative matcher, which remembers only the most recent star.
 */
module Glob {
  import opened Base

  const STAR: byte := 42
  const QUESTION: byte := 63
  const OPEN: byte := 91
  const CLOSE: byte := 93
  const BACKSLASH: byte := 92
  const CARET: byte := 94
  const DASH: byte := 45

  // ---------------------------------------------------------------- classes

  /** One member of a `[...]` class: a single byte, or an inclusive range. */
  datatype Item = Single(c: byte) | Range(lo: byte, hi: byte) {
    predicate Has(x: byte) {
      match this
      case Single(c) => x == c
      case Range(lo, hi) => lo <= x <= hi
    }
  }

  predicate AnyHas(items: seq<Item>, x: byte) {
    exists i :: 0 <= i < |items| && items[i].Has(x)
  }

  /** A class as a set description, independent of any byte being tested. */
  datatype Class = Class(negate: bool, items: seq<Item>, next: nat) {
    predicate Accepts(x: byte) {
      AnyHas(items, x) != negate
    }
  }

  /** The class member at `j` (an escape, a range in either order, or a plain byte) and where it ends. */
  function ItemAt(pat: bytes, j: nat): (r: (Item, nat))
    requires j < |pat|
    ensures j < r.1 <= |pat|
  {
    if pat[j] == BACKSLASH && j + 1 < |pat| then (Single(pat[j + 1]), j + 2)
    else if j + 2 < |pat| && pat[j + 1] == DASH && pat[j + 2] != CLOSE then
      (if pat[j] <= pat[j + 2] then Range(pat[j], pat[j + 2]) else Range(pat[j + 2], pat[j]), j + 3)
    else (Single(pat[j]), j + 1)
  }

  /**
   * The members from `j` up to the closing bracket and the index of that
   * bracket; None if the pattern ends first. A `]` in first position is an
   * ordinary member.
   */
  function ParseItems(pat: bytes, j: nat, first: bool): (r: Option<(seq<Item>, nat)>)
    ensures r.Some? ==> j <= r.value.1 < |pat|
    decreases |pat| - j
  {
    if j >= |pat| then None
    else if pat[j] == CLOSE && !first then Some(([], j))
    else
      var (item, k) := ItemAt(pat, j);
      match ParseItems(pat, k, false)
      case None => None
      case Some((items, end)) => Some(([item] + items, end))
  }

  /** The class opened by the bracket at `start`, if it is terminated. */
  function ParseClass(pat: bytes, start: nat): (r: Option<Class>)
    requires start < |pat|
    ensures r.Some? ==> start < r.value.next <= |pat|
  {
    var negate := start + 1 < |pat| && pat[start + 1] == CARET;
    match ParseItems(pat, if negate then start + 2 else start + 1, true)
    case None => None
    case Some((items, end)) => Some(Class(negate, items, end + 1))
  }

  lemma MoreItems(seen: seq<Item>, item: Item, rest: seq<Item>, c: byte)
    ensures AnyHas(seen + [item], c) <==> AnyHas(seen, c) || item.Has(c)
    ensures seen + ([item] + rest) == (seen + [item]) + rest
  {
    var all := seen + [item];
    if item.Has(c) {
      assert all[|seen|].Has(c);
    }
    if AnyHas(seen, c) {
      var i :| 0 <= i < |seen| && seen[i].Has(c);
      assert all[i].Has(c);
    }
  }

  /** `seen` followed by what is parsed from `j` is the whole class body from `j0`. */
  ghost predicate BodySplit(pat: bytes, j0: nat, seen: seq<Item>, j: nat, first: bool) {
    ParseItems(pat, j0, true) ==
    match ParseItems(pat, j, first)
    case None => None
    case Some((items, end)) => Some((seen + items, end))
  }

  lemma NextItem(pat: bytes, j0: nat, seen: seq<Item>, j: nat, first: bool, c: byte)
    requires BodySplit(pat, j0, seen, j, first)
    requires j < |pat| && (pat[j] != CLOSE || first)
    ensures var (item, k) := ItemAt(pat, j);
            && BodySplit(pat, j0, seen + [item], k, false)
            && (AnyHas(seen + [item], c) <==> AnyHas(seen, c) || item.Has(c))
  {
    var (item, k) := ItemAt(pat, j);
    var rest := match ParseItems(pat, k, false) case None => [] case Some((items, _)) => items;
    MoreItems(seen, item, rest, c);
  }

  /** Tests `c` against the class at `start` in one pass over the pattern. */
  method ClassMatch(pat: bytes, start: nat, c: byte) returns (r: Option<(bool, nat)>)
    requires start < |pat|
    ensures r == match ParseClass(pat, start)
                 case None => None
                 case Some(k) => Some((k.Accepts(c), k.next))
  {
    var j := start + 1;
    var negate := j < |pat| && pat[j] == CARET;
    if negate {
      j := j + 1;
    }
    ghost var j0 := j;
    ghost var seen: seq<Item> := [];
    var matched := false;
    var first := true;
    assert BodySplit(pat, j0, seen, j, first) by {
      assert forall items: seq<Item> :: seen + items == items;
    }
    while j < |pat| && (pat[j] != CLOSE || first)
      invariant start < j
      invariant matched == AnyHas(seen, c)
      invariant BodySplit(pat, j0, seen, j, first)
      decreases |pat| - j
    {
      NextItem(pat, j0, seen, j, first, c);
      seen := seen + [ItemAt(pat, j).0];
      first := false;
      if pat[j] == BACKSLASH && j + 1 < |pat| {
        matched := matched || pat[j + 1] == c;
        j := j + 2;
      } else if j + 2 < |pat| && pat[j + 1] == DASH && pat[j + 2] != CLOSE {
        var lo, hi := pat[j], pat[j + 2];
        if lo > hi {
          lo, hi := hi, lo;
        }
        matched := matched || lo <= c <= hi;
        j := j + 3;
      } else {
        matched := matched || pat[j] == c;
        j := j + 1;
      }
    }
    if j >= |pat| {
      return None;
    }
    assert seen + [] == seen;
    return Some((matched != negate, j + 1));
  }

  // ------------------------------------------------------- meaning of a pattern

  /** Does the token at `p` (not a star) accept the byte `c`? */
  predicate Accepts(pat: bytes, p: nat, c: byte)
    requires p < |pat|
  {
    if pat[p] == QUESTION then true
    else if pat[p] == OPEN then
      match ParseClass(pat, p)
      case Some(k) => k.Accepts(c)
      case None => c == OPEN
    else if pat[p] == BACKSLASH && p + 1 < |pat| then c == pat[p + 1]
    else c == pat[p]
  }

  /** Where the token after the one at `p` starts. */
  function After(pat: bytes, p: nat): (q: nat)
    requires p < |pat|
    ensures p < q <= |pat|
  {
    if pat[p] == OPEN then
      match ParseClass(pat, p)
      case Some(k) => k.next
      case None => p + 1
    else if pat[p] == BACKSLASH && p + 1 < |pat| then p + 2
    else p + 1
  }

  /**
   * The pattern from `p` matches the subject from `i`: a star absorbs nothing
   * or one byte and stays, every other token consumes exactly one byte it
   * accepts.
   */
  predicate Matches(pat: bytes, p: nat, s: bytes, i: nat)
    requires p <= |pat| && i <= |s|
    decreases |pat| - p, |s| - i
  {
    if p == |pat| then i == |s|
    else if pat[p] == STAR then Matches(pat, p + 1, s, i) || (i < |s| && Matches(pat, p, s, i + 1))
    else i < |s| && Accepts(pat, p, s[i]) && Matches(pat, After(pat, p), s, i + 1)
  }

  /** The pattern from `p` matches from `i` or from somewhere later in the subject. */
  ghost predicate MatchesFrom(pat: bytes, p: nat, s: bytes, i: nat)
    requires p <= |pat|
  {
    exists j: nat :: i <= j <= |s| && Matches(pat, p, s, j)
  }

  /** A star absorbs any run of bytes, including none. */
  lemma {:induction false} StarAbsorbs(pat: bytes, p: nat, s: bytes, i: nat)
    requires p < |pat| && pat[p] == STAR && i <= |s|
    ensures Matches(pat, p, s, i) <==> MatchesFrom(pat, p + 1, s, i)
    decreases |s| - i
  {
    if i < |s| {
      StarAbsorbs(pat, p, s, i + 1);
    }
  }

  /** The pattern index reached from `p` after `k` one-byte tokens, if no star intervenes. */
  function Walk(pat: bytes, p: nat, k: nat): (r: Option<nat>)
    requires p <= |pat|
    ensures r.Some? ==> p <= r.value <= |pat|
    decreases k
  {
    if k == 0 then Some(p)
    else if p == |pat| || pat[p] == STAR then None
    else Walk(pat, After(pat, p), k - 1)
  }

  lemma {:induction false} WalkSnoc(pat: bytes, p: nat, k: nat)
    requires p <= |pat|
    requires Walk(pat, p, k).Some?
    ensures var q := Walk(pat, p, k).value;
            Walk(pat, p, k + 1) == if q == |pat| || pat[q] == STAR then None else Some(After(pat, q))
    decreases k
  {
    if k > 0 {
      WalkSnoc(pat, After(pat, p), k - 1);
    }
  }

  /** Whoever matches after a walk of one-byte tokens has spent one byte per token. */
  lemma {:induction false} WalkConsumes(pat: bytes, p: nat, k: nat, s: bytes, j: nat)
    requires p <= |pat| && j <= |s|
    requires Walk(pat, p, k).Some? && Matches(pat, p, s, j)
    ensures j + k <= |s| && Matches(pat, Walk(pat, p, k).value, s, j + k)
    decreases k
  {
    if k > 0 {
      WalkConsumes(pat, After(pat, p), k - 1, s, j + 1);
    }
  }

  /**
   * Why remembering one star is enough: once the tokens after a star have been
   * consumed greedily up to another star, any later restart of the first star
   * could only have reached the second one at or after the same place.
   */
  lemma LatestStarSuffices(pat: bytes, sp: nat, si: nat, k: nat, s: bytes)
    requires sp <= |pat| && si + k <= |s|
    requires Walk(pat, sp, k).Some?
    requires var q := Walk(pat, sp, k).value; q < |pat| && pat[q] == STAR
    requires MatchesFrom(pat, sp, s, si)
    ensures MatchesFrom(pat, Walk(pat, sp, k).value + 1, s, si + k)
  {
    var j: nat :| si <= j <= |s| && Matches(pat, sp, s, j);
    WalkConsumes(pat, sp, k, s, j);
    StarAbsorbs(pat, Walk(pat, sp, k).value, s, j + k);
  }

  /** A run of stars means the same as one star. */
  lemma StarRun(pat: bytes, p: nat, s: bytes, i: nat)
    requires p < |pat| && pat[p] == STAR && i <= |s|
    ensures MatchesFrom(pat, p, s, i) <==> MatchesFrom(pat, p + 1, s, i)
  {
    if MatchesFrom(pat, p, s, i) {
      var j: nat :| i <= j <= |s| && Matches(pat, p, s, j);
      StarAbsorbs(pat, p, s, j);
    }
    if MatchesFrom(pat, p + 1, s, i) {
      StarAbsorbs(pat, p, s, i);
    }
  }

  // ------------------------------------------------------------ the matcher

  lemma BudgetDrops(a: int, b: int, n: nat, i: int, j: int)
    requires a < b && 0 <= i && j <= n
    ensures a * (n + 1) + n - i < b * (n + 1) + n - j
  {
    assert a * (n + 1) <= (b - 1) * (n + 1) == b * (n + 1) - (n + 1);
  }

  /** The remembered star: the pattern index after it, and the subject index it resumes from. */
  type Star = Option<(nat, nat)>

  /**
   * The state the matcher may be in: one byte was consumed per token since the
   * remembered star, and the subject matches iff the current attempt succeeds
   * or the star absorbs more.
   */
  ghost predicate Track(pat: bytes, p: nat, s: bytes, i: nat, star: Star)
  {
    && p <= |pat| && i <= |s|
    && (star.Some? ==>
          var (sp, si) := star.value;
          && sp < |pat| && pat[sp] != STAR && si <= i
          && Walk(pat, sp, i - si) == Some(p))
    && (Matches(pat, 0, s, 0) <==>
        || Matches(pat, p, s, i)
        || (star.Some? && MatchesFrom(pat, star.value.0, s, star.value.1 + 1)))
  }

  /** How far the remembered star still has to go. */
  function Slack(s: bytes, star: Star): (r: int) {
    match star
    case None => |s| + 1
    case Some((_, si)) => |s| - si
  }

  /** What is left of the iteration budget: one full pass per remaining star position. */
  function Budget(s: bytes, i: int, star: Star): (r: int) {
    Slack(s, star) * (|s| + 1) + |s| - i
  }

  lemma Advance(pat: bytes, p: nat, s: bytes, i: nat, star: Star)
    requires Track(pat, p, s, i, star)
    requires p < |pat| && i < |s| && pat[p] != STAR && Accepts(pat, p, s[i])
    ensures Track(pat, After(pat, p), s, i + 1, star)
  {
    if star.Some? {
      WalkSnoc(pat, star.value.0, i - star.value.1);
    }
  }

  lemma Retreat(pat: bytes, p: nat, s: bytes, i: nat, star: Star)
    requires Track(pat, p, s, i, star) && i < |s|
    requires p < |pat| ==> pat[p] != STAR && !Accepts(pat, p, s[i])
    ensures star.None? ==> !Matches(pat, 0, s, 0)
    ensures star.Some? ==> var (sp, si) := star.value;
              && Track(pat, sp, s, si + 1, Some((sp, si + 1)))
              && Budget(s, si + 1, Some((sp, si + 1))) < Budget(s, i, star)
  {
    if star.Some? {
      var (sp, si) := star.value;
      assert MatchesFrom(pat, sp, s, si + 1) <==>
             Matches(pat, sp, s, si + 1) || MatchesFrom(pat, sp, s, si + 2);
      BudgetDrops(|s| - si - 1, |s| - si, |s|, si + 1, i);
    }
  }

  /** At a new star the old one no longer matters. */
  lemma OldStarSubsumed(pat: bytes, p: nat, s: bytes, i: nat, star: Star)
    requires Track(pat, p, s, i, star) && i < |s| && p < |pat| && pat[p] == STAR
    ensures star.Some? ==> star.value.1 < i
    ensures Matches(pat, 0, s, 0) <==> MatchesFrom(pat, p + 1, s, i)
  {
    StarAbsorbs(pat, p, s, i);
    if star.Some? {
      var (sp, si) := star.value;
      if MatchesFrom(pat, sp, s, si + 1) {
        assert MatchesFrom(pat, sp, s, si);
        LatestStarSuffices(pat, sp, si, i - si, s);
      }
    }
  }

  /** Meeting a star at (p, i), with `q` the first index after its run of stars. */
  lemma MeetStar(pat: bytes, p: nat, q: nat, s: bytes, i: nat, star: Star)
    requires Track(pat, p, s, i, star) && i < |s|
    requires p < q <= |pat| && pat[p] == STAR && (q < |pat| ==> pat[q] != STAR)
    requires MatchesFrom(pat, p + 1, s, i) <==> MatchesFrom(pat, q, s, i)
    ensures q == |pat| ==> Matches(pat, 0, s, 0)
    ensures q < |pat| ==> Track(pat, q, s, i, Some((q, i)))
    ensures Budget(s, i, Some((q, i))) < Budget(s, i, star)
  {
    OldStarSubsumed(pat, p, s, i, star);
    if q == |pat| {
      assert Matches(pat, q, s, |s|);
    }
    assert MatchesFrom(pat, q, s, i) <==> Matches(pat, q, s, i) || MatchesFrom(pat, q, s, i + 1);
    BudgetDrops(Slack(s, Some((q, i))), Slack(s, star), |s|, i, i);
  }

  /** Only stars match the empty rest of the subject. */
  lemma {:induction false} AtEnd(pat: bytes, p: nat, s: bytes)
    requires p <= |pat|
    ensures Matches(pat, p, s, |s|) <==> forall q :: p <= q < |pat| ==> pat[q] == STAR
    decreases |pat| - p
  {
    if p < |pat| && pat[p] == STAR {
      AtEnd(pat, p + 1, s);
    }
  }

  /** At the end of the subject the remembered star has nothing more to offer. */
  lemma StarSpent(pat: bytes, p: nat, s: bytes, star: Star)
    requires Track(pat, p, s, |s|, star)
    ensures Matches(pat, 0, s, 0) <==> Matches(pat, p, s, |s|)
  {
    if star.Some? {
      var (sp, si) := star.value;
      if MatchesFrom(pat, sp, s, si + 1) {
        var j: nat :| si + 1 <= j <= |s| && Matches(pat, sp, s, j);
        WalkConsumes(pat, sp, |s| - si, s, j);
      }
    }
  }

  /** One byte against the item at `p`, which is no star: where the pattern goes on if it accepts. */
  method Consume(pat: bytes, p: nat, b: byte) returns (next: Option<nat>)
    requires p < |pat| && pat[p] != STAR
    ensures next == if Accepts(pat, p, b) then Some(After(pat, p)) else None
  {
    if pat[p] == QUESTION {
      return Some(p + 1);
    } else if pat[p] == OPEN {
      var m := ClassMatch(pat, p, b);
      if m.Some? {
        return if m.value.0 then Some(m.value.1) else None;
      }
      return if b == OPEN then Some(p + 1) else None;
    } else if pat[p] == BACKSLASH && p + 1 < |pat| {
      return if pat[p + 1] == b then Some(p + 2) else None;
    }
    return if pat[p] == b then Some(p + 1) else None;
  }

  /**
   * The iterative matcher. `iterations` counts turns of the outer loop, so the
   * second clause bounds the backtracking: quadratic in the subject, whatever
   * the pattern.
   */
  method GlobMatch(pat: bytes, s: bytes) returns (ok: bool, ghost iterations: nat)
    ensures ok <==> Matches(pat, 0, s, 0)
    ensures iterations <= (|s| + 2) * (|s| + 1)
  {
    var p: nat, i: nat := 0, 0;
    var star: Star := None;
    iterations := 0;
    while i < |s|
      invariant Track(pat, p, s, i, star)
      invariant iterations + Budget(s, i, star) <= (|s| + 2) * (|s| + 1)
      invariant 0 <= Slack(s, star)
      decreases Budget(s, i, star)
    {
      assert 0 <= Slack(s, star) * (|s| + 1);
      iterations := iterations + 1;
      if p < |pat| {
        if pat[p] == STAR {
          ghost var p0 := p;
          p := p + 1;
          while p < |pat| && pat[p] == STAR
            invariant p0 < p <= |pat|
            invariant MatchesFrom(pat, p0 + 1, s, i) <==> MatchesFrom(pat, p, s, i)
          {
            StarRun(pat, p, s, i);
            p := p + 1;
          }
          MeetStar(pat, p0, p, s, i, star);
          if p == |pat| {
            return true, iterations;
          }
          star := Some((p, i));
          continue;
        }
        var next := Consume(pat, p, s[i]);
        if next.Some? {
          Advance(pat, p, s, i, star);
          p, i := next.value, i + 1;
          continue;
        }
      }
      Retreat(pat, p, s, i, star);
      match star {
        case Some((sp, si)) =>
          p, i := sp, si + 1;
          star := Some((sp, si + 1));
        case None =>
          return false, iterations;
      }
    }
    assert 0 <= Slack(s, star) * (|s| + 1);
    StarSpent(pat, p, s, star);
    AtEnd(pat, p, s);
    ghost var p0 := p;
    while p < |pat| && pat[p] == STAR
      invariant p0 <= p <= |pat|
      invariant forall q :: p0 <= q < p ==> pat[q] == STAR
    {
      p := p + 1;
    }
    return p == |pat|, iterations;
  }
}
