/**
 * What the spellings of a pattern mean. A pattern built from plain bytes, escapes, `?`, `*`
 * and classes matches exactly the strings that can be cut into one piece for each part.
 */
module GlobMeaning {
  import opened Base
  import Glob

  /** A class member: one byte, plain or escaped, or a range between two bytes in either order. */
  datatype Member = Plain(b: byte) | Escaped(b: byte) | Between(x: byte, y: byte)

  datatype Part =
    | Byte(b: byte)
    | EscapedByte(b: byte)
    | AnyByte
    | AnyRun
    | OneOf(members: seq<Member>)
    | NoneOf(members: seq<Member>)

  // ------------------------------------------------------------ meaning

  predicate Covers(m: Member, c: byte) {
    match m
    case Plain(b) => c == b
    case Escaped(b) => c == b
    case Between(x, y) => x <= c <= y || y <= c <= x
  }

  predicate Covered(ms: seq<Member>, c: byte) {
    exists m :: m in ms && Covers(m, c)
  }

  /** The part matches this piece of the string. */
  predicate Fits(t: Part, piece: bytes) {
    match t
    case Byte(b) => piece == [b]
    case EscapedByte(b) => piece == [b]
    case AnyByte => |piece| == 1
    case AnyRun => true
    case OneOf(ms) => |piece| == 1 && Covered(ms, piece[0])
    case NoneOf(ms) => |piece| == 1 && !Covered(ms, piece[0])
  }

  /** The string is a piece for each part, in order. */
  ghost predicate Means(parts: seq<Part>, s: bytes) {
    if parts == [] then s == []
    else exists k :: 0 <= k <= |s| && Fits(parts[0], s[..k]) && Means(parts[1..], s[k..])
  }

  // ------------------------------------------------------------ spelling

  function SpellMember(m: Member): bytes {
    match m
    case Plain(b) => [b]
    case Escaped(b) => ['\\' as int, b]
    case Between(x, y) => [x, '-' as int, y]
  }

  function SpellMembers(ms: seq<Member>): bytes {
    if ms == [] then [] else SpellMember(ms[0]) + SpellMembers(ms[1..])
  }

  function SpellPart(t: Part): bytes {
    match t
    case Byte(b) => [b]
    case EscapedByte(b) => ['\\' as int, b]
    case AnyByte => ['?' as int]
    case AnyRun => ['*' as int]
    case OneOf(ms) => ['[' as int] + SpellMembers(ms) + [']' as int]
    case NoneOf(ms) => ['[' as int, '^' as int] + SpellMembers(ms) + [']' as int]
  }

  function Spell(parts: seq<Part>): bytes {
    if parts == [] then [] else SpellPart(parts[0]) + Spell(parts[1..])
  }

  /** A backslash stands only for escaping, and a closing bracket only in front of the other members. */
  predicate WritableMember(m: Member, first: bool) {
    match m
    case Plain(b) => b != '\\' as int && (b == ']' as int ==> first)
    case Escaped(b) => true
    case Between(x, y) => x != '\\' as int && (x == ']' as int ==> first) && y != ']' as int
  }

  /** A plain byte in front of a dash opens a range, unless the dash is the last member. */
  predicate OpensRange(ms: seq<Member>) {
    |ms| >= 2 && ms[0].Plain? && Head(ms[1]) == '-' as int && (|ms| > 2 || ms[1].Between?)
  }

  function Head(m: Member): byte {
    match m
    case Plain(b) => b
    case Escaped(b) => '\\' as int
    case Between(x, y) => x
  }

  predicate WritableMembers(ms: seq<Member>, first: bool) {
    ms == [] || (WritableMember(ms[0], first) && !OpensRange(ms) && WritableMembers(ms[1..], false))
  }

  predicate Writable(t: Part) {
    match t
    case Byte(b) => b != '*' as int && b != '?' as int && b != '[' as int && b != '\\' as int
    case OneOf(ms) => ms != [] && Head(ms[0]) != '^' as int && WritableMembers(ms, true)
    case NoneOf(ms) => ms != [] && WritableMembers(ms, true)
    case _ => true
  }

  // ------------------------------------------------------------ reading a spelling

  /** The text stands in the pattern at `p`. */
  ghost predicate At(pat: bytes, p: nat, text: bytes) {
    p + |text| <= |pat| && pat[p..p + |text|] == text
  }

  lemma AtSplits(pat: bytes, p: nat, a: bytes, b: bytes)
    requires At(pat, p, a + b)
    ensures At(pat, p, a) && At(pat, p + |a|, b)
  {
    var both := pat[p..p + |a + b|];
    assert both[..|a|] == a && both[|a|..] == b;
  }

  function ItemOf(m: Member): Glob.Item {
    match m
    case Plain(b) => Glob.Single(b)
    case Escaped(b) => Glob.Single(b)
    case Between(x, y) => if x <= y then Glob.Range(x, y) else Glob.Range(y, x)
  }

  function ItemsOf(ms: seq<Member>): (r: seq<Glob.Item>)
    ensures |r| == |ms| && forall i :: 0 <= i < |ms| ==> r[i] == ItemOf(ms[i])
  {
    if ms == [] then [] else [ItemOf(ms[0])] + ItemsOf(ms[1..])
  }

  lemma WritableFirst(ms: seq<Member>, first: bool)
    requires ms != [] && WritableMembers(ms, first)
    ensures WritableMember(ms[0], first) && !OpensRange(ms) && WritableMembers(ms[1..], false)
  {
  }

  lemma ItemReads(pat: bytes, j: nat, m: Member, first: bool)
    requires WritableMember(m, first) && At(pat, j, SpellMember(m))
    requires m.Plain? ==> !(j + 2 < |pat| && pat[j + 1] == Glob.DASH && pat[j + 2] != Glob.CLOSE)
    ensures j < |pat| && pat[j] == Head(m) && Glob.ItemAt(pat, j) == (ItemOf(m), j + |SpellMember(m)|)
  {
    var text := pat[j..j + |SpellMember(m)|];
    assert pat[j] == text[0];
    match m
    case Plain(b) =>
    case Escaped(b) => assert pat[j + 1] == text[1];
    case Between(x, y) => assert pat[j + 1] == text[1] && pat[j + 2] == text[2];
  }

  lemma MemberReads(pat: bytes, j: nat, ms: seq<Member>, first: bool)
    requires ms != [] && WritableMembers(ms, first) && At(pat, j, SpellMembers(ms) + [']' as int])
    ensures j < |pat| && pat[j] == Head(ms[0]) && Glob.ItemAt(pat, j) == (ItemOf(ms[0]), j + |SpellMember(ms[0])|)
    ensures At(pat, j + |SpellMember(ms[0])|, SpellMembers(ms[1..]) + [']' as int])
  {
    WritableFirst(ms, first);
    var text, rest := SpellMember(ms[0]), SpellMembers(ms[1..]) + [']' as int];
    assert SpellMembers(ms) + [']' as int] == text + rest;
    AtSplits(pat, j, text, rest);
    if ms[0].Plain? {
      NoRangeAfter(ms);
      NextBytes(pat, j + 1, rest);
    }
    hide At, WritableMembers, WritableMember, OpensRange, SpellMembers, Glob.ItemAt, SpellMember;
    ItemReads(pat, j, ms[0], first);
  }

  lemma NextBytes(pat: bytes, p: nat, text: bytes)
    requires At(pat, p, text) && text != []
    ensures pat[p] == text[0] && (|text| >= 2 ==> pat[p + 1] == text[1])
  {
    assert text[0] == pat[p..p + |text|][0];
    assert |text| >= 2 ==> text[1] == pat[p..p + |text|][1];
  }

  /** After a plain member comes the bracket, or what opens no range with it. */
  lemma NoRangeAfter(ms: seq<Member>)
    requires ms != [] && ms[0].Plain? && !OpensRange(ms)
    ensures var rest := SpellMembers(ms[1..]) + [']' as int];
      rest[0] == '-' as int ==> |rest| >= 2 && rest[1] == ']' as int
  {
    if |ms| >= 2 {
      var next := ms[1..];
      assert SpellMembers(next)[0] == Head(next[0]);
      if |ms| == 2 {
        assert SpellMembers(next[1..]) == [];
        assert SpellMembers(next) == SpellMember(next[0]);
      }
    }
  }

  lemma {:induction false} MembersRead(pat: bytes, j: nat, ms: seq<Member>, first: bool)
    requires WritableMembers(ms, first) && (first ==> ms != []) && At(pat, j, SpellMembers(ms) + [']' as int])
    ensures Glob.ParseItems(pat, j, first) == Some((ItemsOf(ms), j + |SpellMembers(ms)|))
    decreases |ms|
  {
    if ms == [] {
      assert pat[j] == Glob.CLOSE;
    } else {
      MemberReads(pat, j, ms, first);
      MembersRead(pat, j + |SpellMember(ms[0])|, ms[1..], false);
      assert !first ==> pat[j] != Glob.CLOSE;
      assert [ItemOf(ms[0])] + ItemsOf(ms[1..]) == ItemsOf(ms);
    }
  }

  lemma ItemsCover(ms: seq<Member>, c: byte)
    ensures Glob.AnyHas(ItemsOf(ms), c) <==> Covered(ms, c)
  {
    if m :| m in ms && Covers(m, c) {
      var i :| 0 <= i < |ms| && ms[i] == m;
      assert ItemsOf(ms)[i].Has(c);
    }
    if Glob.AnyHas(ItemsOf(ms), c) {
      var i :| 0 <= i < |ms| && ItemsOf(ms)[i].Has(c);
      assert ms[i] in ms && Covers(ms[i], c);
    }
  }

  lemma ClassReads(pat: bytes, p: nat, ms: seq<Member>, negate: bool)
    requires ms != [] && WritableMembers(ms, true) && (!negate ==> Head(ms[0]) != '^' as int)
    requires At(pat, p, SpellPart(if negate then NoneOf(ms) else OneOf(ms)))
    ensures pat[p] == Glob.OPEN
    ensures Glob.ParseClass(pat, p) ==
      Some(Glob.Class(negate, ItemsOf(ms), p + |SpellPart(if negate then NoneOf(ms) else OneOf(ms))|))
  {
    hide SpellMembers, SpellMember, WritableMembers, ItemsOf, Glob.ItemAt, Glob.ParseItems;
    var opening: bytes := if negate then ['[' as int, '^' as int] else ['[' as int];
    var body := SpellMembers(ms) + [']' as int];
    assert SpellPart(if negate then NoneOf(ms) else OneOf(ms)) == opening + body;
    AtSplits(pat, p, opening, body);
    assert forall i :: 0 <= i < |opening| ==> pat[p + i] == opening[i];
    MemberReads(pat, p + |opening|, ms, true);
    MembersRead(pat, p + |opening|, ms, true);
  }

  /** A part that is no star takes one byte that fits it. */
  lemma PartReads(pat: bytes, p: nat, t: Part, c: byte)
    requires Writable(t) && !t.AnyRun? && At(pat, p, SpellPart(t))
    ensures p < |pat| && pat[p] != Glob.STAR && Glob.After(pat, p) == p + |SpellPart(t)|
    ensures Glob.Accepts(pat, p, c) <==> Fits(t, [c])
  {
    hide SpellMembers, WritableMembers, ItemsOf, Glob.AnyHas;
    var text := SpellPart(t);
    assert forall i :: 0 <= i < |text| ==> pat[p + i] == text[i];
    match t
    case OneOf(ms) =>
      ClassReads(pat, p, ms, false);
      ItemsCover(ms, c);
    case NoneOf(ms) =>
      ClassReads(pat, p, ms, true);
      ItemsCover(ms, c);
    case _ =>
  }

  lemma OneByteFits(t: Part, rest: seq<Part>, s: bytes)
    requires !t.AnyRun?
    ensures Means([t] + rest, s) <==> s != [] && Fits(t, [s[0]]) && Means(rest, s[1..])
  {
    var parts := [t] + rest;
    assert parts[1..] == rest;
    if s != [] && Fits(t, [s[0]]) && Means(rest, s[1..]) {
      assert s[..1] == [s[0]];
    }
    if Means(parts, s) {
      var k :| 0 <= k <= |s| && Fits(parts[0], s[..k]) && Means(parts[1..], s[k..]);
      assert |s[..k]| == 1;
      assert s[..1] == [s[0]];
    }
  }

  lemma RunFits(rest: seq<Part>, s: bytes)
    ensures Means([AnyRun] + rest, s) <==> exists k :: 0 <= k <= |s| && Means(rest, s[k..])
  {
    var parts := [AnyRun] + rest;
    assert parts[1..] == rest;
    if k :| 0 <= k <= |s| && Means(rest, s[k..]) {
      assert Fits(parts[0], s[..k]) && Means(parts[1..], s[k..]);
    }
  }

  lemma {:induction false} SpellingMatches(pat: bytes, p: nat, parts: seq<Part>, s: bytes, i: nat)
    requires (forall t :: t in parts ==> Writable(t)) && i <= |s|
    requires p + |Spell(parts)| == |pat| && At(pat, p, Spell(parts))
    ensures Glob.Matches(pat, p, s, i) <==> Means(parts, s[i..])
    decreases |parts|
  {
    hide SpellPart, Writable, Fits, Means;
    if parts == [] {
      EmptyMeans(s[i..]);
    } else {
      var t, rest := parts[0], parts[1..];
      assert parts == [t] + rest;
      AtSplits(pat, p, SpellPart(t), Spell(rest));
      var q := p + |SpellPart(t)|;
      if t.AnyRun? {
        StarIs(pat, p);
        forall j: nat | i <= j <= |s| ensures Glob.Matches(pat, q, s, j) <==> Means(rest, s[i..][j - i..]) {
          SpellingMatches(pat, q, rest, s, j);
          assert s[i..][j - i..] == s[j..];
        }
        Glob.StarAbsorbs(pat, p, s, i);
        RunFits(rest, s[i..]);
        RunIs(pat, q, rest, s, i);
      } else {
        var c := if i < |s| then s[i] else 0;
        PartReads(pat, p, t, c);
        OneByteFits(t, rest, s[i..]);
        if i < |s| {
          SpellingMatches(pat, q, rest, s, i + 1);
          assert s[i..][1..] == s[i + 1..];
        }
      }
    }
  }

  lemma EmptyMeans(s: bytes)
    ensures Means([], s) <==> s == []
  {
  }

  lemma StarIs(pat: bytes, p: nat)
    requires At(pat, p, SpellPart(AnyRun))
    ensures p < |pat| && pat[p] == Glob.STAR && |SpellPart(AnyRun)| == 1
  {
    assert pat[p] == pat[p..p + 1][0];
  }

  lemma RunIs(pat: bytes, q: nat, rest: seq<Part>, s: bytes, i: nat)
    requires q <= |pat| && i <= |s|
    requires forall j: nat :: i <= j <= |s| ==> (Glob.Matches(pat, q, s, j) <==> Means(rest, s[i..][j - i..]))
    ensures Glob.MatchesFrom(pat, q, s, i) <==> exists k :: 0 <= k <= |s[i..]| && Means(rest, s[i..][k..])
  {
    hide Means, Glob.Matches;
    if k :| 0 <= k <= |s[i..]| && Means(rest, s[i..][k..]) {
      assert i <= i + k <= |s| && (i + k) - i == k;
      assert Glob.Matches(pat, q, s, i + k);
    }
  }

  /**
   * A spelled pattern matches exactly what its parts mean: a byte itself (escaped or not), `?`
   * any one byte, `*` any run, a class one byte that is among its members or, negated, is not.
   */
  lemma PatternMeans(parts: seq<Part>, s: bytes)
    requires forall t :: t in parts ==> Writable(t)
    ensures Glob.Matches(Spell(parts), 0, s, 0) <==> Means(parts, s)
  {
    hide Spell, Means, Glob.Matches, Writable;
    assert Spell(parts)[0..|Spell(parts)|] == Spell(parts);
    SpellingMatches(Spell(parts), 0, parts, s, 0);
    assert s[0..] == s;
  }

  // ------------------------------------------------------------ what is no spelling of these

  /** A bracket that nothing closes is itself; so is a backslash at the end. */
  lemma Unclosed(pat: bytes, p: nat, c: byte)
    requires p < |pat|
    requires || (pat[p] == '[' as int && forall q :: p + 1 < q < |pat| ==> pat[q] != ']' as int)
             || (pat[p] == '\\' as int && p + 1 == |pat|)
    ensures Glob.After(pat, p) == p + 1
    ensures Glob.Accepts(pat, p, c) <==> c == pat[p]
  {
    if pat[p] == Glob.OPEN {
      var negate := p + 1 < |pat| && pat[p + 1] == Glob.CARET;
      NothingCloses(pat, if negate then p + 2 else p + 1, true);
    }
  }

  lemma {:induction false} NothingCloses(pat: bytes, j: nat, first: bool)
    requires forall q :: (if first then j + 1 else j) <= q < |pat| ==> pat[q] != ']' as int
    ensures Glob.ParseItems(pat, j, first).None?
    decreases |pat| - j
  {
    if j < |pat| && !(pat[j] == Glob.CLOSE && !first) {
      NothingCloses(pat, Glob.ItemAt(pat, j).1, false);
    }
  }
}
