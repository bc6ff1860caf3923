/**
 * Saving the user table and loading it back, exactly: which tables come back. Lines are
 * read with a carriage return before the line feed taken as part of the line end, so a
 * saved line that ends in one loses its last byte.
 */
module AclRoundTrip {
  import opened Base
  import opened Text
  import opened Acl
  import opened AclText
  import Resp

  const CR := Resp.CR

  // ------------------------------------------------------------ lines without their last byte

  predicate EndsInCr(s: bytes) { s != [] && s[|s| - 1] == CR }

  function LessLast(s: bytes): bytes
    requires s != []
  {
    s[..|s| - 1]
  }

  /** What line reading makes of a saved line in front of a line feed, or leaves of the last one. */
  ghost predicate ReadAs(line: bytes, u: User) {
    line == DumpLine(u) || line == Resp.WithoutCr(DumpLine(u))
  }

  lemma {:induction false} JoinLast(parts: seq<bytes>, last: bytes, sep: byte)
    requires last != []
    ensures var j := Join(parts + [last], sep);
      j != [] && j[|j| - 1] == last[|last| - 1] && LessLast(j) == Join(parts + [LessLast(last)], sep)
    decreases |parts|
  {
    if parts == [] {
      assert parts + [last] == [last] && parts + [LessLast(last)] == [LessLast(last)];
    } else {
      JoinLast(parts[1..], last, sep);
      JoinHead(parts, last, sep);
      JoinHead(parts, LessLast(last), sep);
      var j := Join(parts[1..] + [last], sep);
      assert LessLast(parts[0] + [sep] + j) == parts[0] + [sep] + LessLast(j);
    }
  }

  lemma JoinHead(parts: seq<bytes>, last: bytes, sep: byte)
    requires parts != []
    ensures Join(parts + [last], sep) == parts[0] + [sep] + Join(parts[1..] + [last], sep)
  {
    assert (parts + [last])[1..] == parts[1..] + [last];
  }

  lemma RulesEnd(u: User)
    requires u.rules != []
    ensures SavedTokens(u) == SavedTokens(u.(rules := u.rules[..|u.rules| - 1])) + [RuleToken(u.rules[|u.rules| - 1])]
  {
    hide RuleToken;
    var n := |u.rules| - 1;
    var v := u.(rules := u.rules[..n]);
    RuleTokensSnoc(u.rules[..n], u.rules[n]);
    assert u.rules == u.rules[..n] + [u.rules[n]];
    SameHead(u, v);
    hide PasswordToken, RuleTokens, PatternTokens;
    LastInTwo([RESET, PasswordToken(u)], [if u.enabled then ON else OFF], PatternTokens(u.patterns),
      RuleTokens(v.rules), RuleToken(u.rules[n]));
  }

  lemma PatternsEnd(u: User)
    requires u.rules == [] && u.patterns != []
    ensures SavedTokens(u) ==
      SavedTokens(u.(patterns := u.patterns[..|u.patterns| - 1])) + [[TILDE] + u.patterns[|u.patterns| - 1]]
  {
    var n := |u.patterns| - 1;
    var v := u.(patterns := u.patterns[..n]);
    PatternTokensSnoc(u.patterns[..n], u.patterns[n]);
    assert u.patterns == u.patterns[..n] + [u.patterns[n]];
    SameHead(u, v);
    assert RuleTokens([]) == [];
    hide PasswordToken, RuleTokens, PatternTokens;
    var head, sw := [RESET, PasswordToken(u)], [if u.enabled then ON else OFF];
    var some, last := PatternTokens(v.patterns), [TILDE] + u.patterns[n];
    LastInTwo(head, sw, [], some, last);
    assert [] + (some + [last]) == (some + [last]) + [] && [] + some == some + [];
  }

  lemma NothingEnds(u: User)
    requires u.rules == [] && u.patterns == []
    ensures SavedTokens(u) == [RESET, PasswordToken(u)] + [if u.enabled then ON else OFF]
  {
    hide PasswordToken;
  }

  lemma LastInTwo(a: seq<bytes>, b: seq<bytes>, c: seq<bytes>, d: seq<bytes>, last: bytes)
    ensures a + (b + (c + (d + [last]))) == (a + (b + (c + d))) + [last]
  {
  }

  lemma RuleTokensSnoc(rules: seq<Rule>, r: Rule)
    ensures RuleTokens(rules + [r]) == RuleTokens(rules) + [RuleToken(r)]
  {
    hide RuleToken;
  }

  lemma PatternTokensSnoc(ps: seq<bytes>, p: bytes)
    ensures PatternTokens(ps + [p]) == PatternTokens(ps) + [[TILDE] + p]
  {
  }

  lemma SameHead(u: User, v: User)
    requires u.password == v.password && u.enabled == v.enabled
    ensures PasswordToken(u) == PasswordToken(v)
  {
  }

  // ------------------------------------------------------------ a line that loses its last byte

  /** A command that has lost the carriage return it ended in. */
  ghost predicate ShortRule(r: Rule, r': Rule) {
    EndsInCr(CommandOf(r)) && CommandOf(r') == LessLast(CommandOf(r)) && r' != r
  }

  /** Another user: one whose last rule is short, or, without rules, whose last pattern is. */
  ghost predicate Short(u: User, v: User) {
    && v.name == u.name && v != u
    && var n := |u.rules|;
       |v.rules| == n && (n > 0 ==> v.rules[..n - 1] == u.rules[..n - 1] && ShortRule(u.rules[n - 1], v.rules[n - 1]))
  }

  /** A pattern or a command that ends in a carriage return comes back shorter, or not at all. */
  lemma LostByte(u: User, rest: seq<bytes>, last: bytes, secret: Secret) returns (from: User)
    requires WellFormedUser(u) && SavedTokens(u) == rest + [last] && EndsInCr(last)
    ensures SavedTokens(from) == rest && from.name == u.name && WellFormedUser(from)
    ensures Lacks(u, SPACE) ==> Lacks(from, SPACE)
    ensures var r := ApplyToken(from, u.name, LessLast(last), secret);
      r.Ok? ==> Short(u, r.value)
  {
    hide ApplyToken, SavedTokens, WellFormedRule, RuleToken, CommandOf, ShortRule;
    if u.rules != [] {
      RulesEnd(u);
      var n := |u.rules| - 1;
      from := u.(rules := u.rules[..n]);
      SameEnd(SavedTokens(from), RuleToken(u.rules[n]), rest, last);
      LostRule(from, u.name, u.rules[n], secret);
      var r := ApplyToken(from, u.name, LessLast(last), secret);
      if r.Ok? {
        var r' :| ShortRule(u.rules[n], r') && r.value == from.(rules := from.rules + [r']);
        ShortAtEnd(u, r.value, r');
      }
    } else if u.patterns != [] {
      PatternsEnd(u);
      var n := |u.patterns| - 1;
      var p := u.patterns[n];
      from := u.(patterns := u.patterns[..n]);
      SameEnd(SavedTokens(from), [TILDE] + p, rest, last);
      assert p != [] && LessLast([TILDE] + p) == [TILDE] + LessLast(p);
      PatternApplies(from, u.name, LessLast(p), secret);
      assert (from.patterns + [LessLast(p)])[n] != u.patterns[n];
    } else {
      NothingEnds(u);
      SameEnd([RESET, PasswordToken(u)], if u.enabled then ON else OFF, rest, last);
      from := u;
    }
  }

  lemma ShortAtEnd(u: User, v: User, r: Rule)
    requires u.rules != [] && ShortRule(u.rules[|u.rules| - 1], r)
    requires v == u.(rules := u.rules[..|u.rules| - 1] + [r])
    ensures Short(u, v)
  {
    hide CommandOf, EndsInCr;
    var n := |u.rules| - 1;
    assert v.rules[..n] == u.rules[..n] && v.rules[n] == r;
  }

  lemma SameEnd(a: seq<bytes>, x: bytes, b: seq<bytes>, y: bytes)
    requires a + [x] == b + [y]
    ensures a == b && x == y
  {
    assert (a + [x])[|a|] == x && (b + [y])[|b|] == y;
    assert (a + [x])[..|a|] == a && (b + [y])[..|b|] == b;
  }

  lemma LostRule(from: User, name: Name, r: Rule, secret: Secret)
    requires WellFormedRule(r) && EndsInCr(RuleToken(r))
    ensures var a := ApplyToken(from, name, LessLast(RuleToken(r)), secret);
      a.Ok? ==>
        && a.value.name == from.name
        && exists r' :: ShortRule(r, r') && a.value == from.(rules := from.rules + [r'])
  {
    hide ApplyToken, ParseRule, Lower;
    match r
    case AllowCmd(c) => LostCommand(from, name, PLUS, c, secret);
    case DenyCmd(c) => LostCommand(from, name, MINUS, c, secret);
    case AllowCat(c) => CategoryEnd(c, PLUS);
    case DenyCat(c) => CategoryEnd(c, MINUS);
  }

  lemma CategoryEnd(c: Category, sign: byte)
    ensures !EndsInCr([sign, AT] + CategoryName(c))
  {
    CategoryLetters(c);
    hide CategoryName;
  }

  lemma LostCommand(from: User, name: Name, sign: byte, c: bytes, secret: Secret)
    requires (sign == PLUS || sign == MINUS) && c != [] && c[0] != AT && NoLowerCase(c) && EndsInCr([sign] + Lower(c))
    ensures EndsInCr(c)
    ensures var a := ApplyToken(from, name, LessLast([sign] + Lower(c)), secret);
      var short := LessLast(c);
      a.Ok? ==> a.value == from.(rules := from.rules + [if sign == PLUS then AllowCmd(short) else DenyCmd(short)])
  {
    var short := LessLast(c);
    hide ApplyToken, Lower, ParseRule;
    assert ([sign] + Lower(c))[|c|] == Lower(c)[|c| - 1] == LowerByte(c[|c| - 1]);
    assert Lower(short) == LessLast(Lower(c));
    assert LessLast([sign] + Lower(c)) == [sign] + Lower(short);
    SignApplies(from, name, sign, Lower(short), secret);
    if short != [] {
      CommandReadsBack(short);
    }
    hide ApplyToken, Lower;
  }

  /** Without its last byte a saved line loads as another user, or not at all. */
  lemma ShorterLine(users: Users, u: User, k: nat, h: Hasher)
    requires WellFormedUser(u) && Clean(u) && EndsInCr(DumpLine(u))
    ensures var r := LoadLine(users, LessLast(DumpLine(u)), k, h);
      r.Ok? ==> exists v: User :: Short(u, v) && r.value == users[u.name := v]
  {
    hide DumpLine, SavedTokens, WellFormedUser, Lacks, Split, SetTokens, Join, ApplyToken, Short;
    LineSplits(u);
    var toks := SavedTokens(u);
    TokensAreSome(u);
    var rest, last := toks[..|toks| - 1], toks[|toks| - 1];
    assert toks == rest + [last] && [u.name] + toks == ([u.name] + rest) + [last];
    JoinLast([u.name] + rest, last, SPACE);
    var t := LessLast(last);
    var at := |rest|;
    var from := LostByte(u, rest, last, h(k, at, if t == [] then [] else t[1..]));
    ShorterSplits(u, rest, last);
    var line := LessLast(DumpLine(u));
    assert Split(line, SPACE)[1..] == rest + [t];
    var was := UserOr(users, u.name);
    TokensInTwo(was, u.name, rest, [t], k, 0, h);
    SavedTokensRebuild(from, was, k, h);
    OneToken(from, u.name, t, k, at, h);
  }

  lemma TokensAreSome(u: User)
    ensures SavedTokens(u) != [] && forall i :: 0 <= i < |SavedTokens(u)| ==> SavedTokens(u)[i] != []
  {
    hide Lower, CategoryName, EncodeHex;
  }

  lemma ShorterSplits(u: User, rest: seq<bytes>, last: bytes)
    requires Lacks(u, SPACE) && SavedTokens(u) == rest + [last] && last != []
    ensures Split(Join([u.name] + rest + [LessLast(last)], SPACE), SPACE) == [u.name] + (rest + [LessLast(last)])
  {
    SavedTokensLack(u, SPACE);
    hide SavedTokens, Lacks;
    var parts := [u.name] + rest + [LessLast(last)];
    assert [u.name] + SavedTokens(u) == [u.name] + rest + [last];
    LessLastFree([u.name] + rest, last, SPACE);
    SplitJoin(parts, SPACE);
    assert parts == [u.name] + (rest + [LessLast(last)]);
  }

  lemma LessLastFree(parts: seq<bytes>, last: bytes, sep: byte)
    requires Free(parts + [last], sep) && last != []
    ensures Free(parts + [LessLast(last)], sep)
  {
    assert (parts + [last])[|parts|] == last;
    forall i | 0 <= i < |parts| ensures sep !in parts[i] {
      assert (parts + [last])[i] == parts[i];
    }
  }

  // ------------------------------------------------------------ the whole text

  /** What a user becomes by way of its line: itself if the line was read whole. */
  ghost predicate Becomes(line: bytes, u: User, v: User) {
    v.name == u.name && if line == DumpLine(u) then v == u else Short(u, v)
  }

  /** A line as it is read puts one user of its name into the table: the saved one only if the line is whole. */
  lemma LineReads(users: Users, u: User, line: bytes, k: nat, h: Hasher)
    requires WellFormedUser(u) && Clean(u) && ReadAs(line, u)
    ensures var r := LoadLine(users, line, k, h);
      r.Ok? ==> exists v: User :: Becomes(line, u, v) && r.value == users[u.name := v]
  {
    hide DumpLine, LoadLine, WellFormedUser, ShortRule;
    if line == DumpLine(u) {
      LineLoads(users, u, k, h);
      assert Becomes(line, u, u);
    } else {
      ShorterLine(users, u, k, h);
      var r := LoadLine(users, line, k, h);
      if r.Ok? {
        var v: User :| Short(u, v) && r.value == users[u.name := v];
        assert Becomes(line, u, v);
      }
    }
  }

  lemma {:induction false} LinesRead(order: seq<Name>, users: Users, lines: seq<bytes>, acc: Users, k: nat, h: Hasher)
    requires |lines| == |order| && Distinct(order) && WellFormed(users)
    requires forall i :: 0 <= i < |order| ==>
      order[i] in users && Clean(users[order[i]]) && ReadAs(lines[i], users[order[i]])
    ensures var r := LoadLines(acc, lines, k, h);
      r.Ok? ==>
        && (forall n :: n in acc && n !in order ==> n in r.value && r.value[n] == acc[n])
        && (forall i :: 0 <= i < |order| ==>
              order[i] in r.value && Becomes(lines[i], users[order[i]], r.value[order[i]]))
    decreases |order|
  {
    hide LoadLine, DumpLine, ReadAs, Clean, WellFormedUser, Becomes;
    if order != [] && LoadLine(acc, lines[0], k, h).Ok? {
      var n := order[0];
      LineReads(acc, users[n], lines[0], k, h);
      var v: User :| Becomes(lines[0], users[n], v) && LoadLine(acc, lines[0], k, h).value == acc[n := v];
      assert order == [n] + order[1..] && n !in order[1..];
      LinesRead(order[1..], users, lines[1..], acc[n := v], k + 1, h);
      var r := LoadLines(acc, lines, k, h);
      if r.Ok? {
        forall i | 0 <= i < |order|
          ensures order[i] in r.value && Becomes(lines[i], users[order[i]], r.value[order[i]])
        {
          if i > 0 {
            assert order[1..][i - 1] == order[i] && lines[1..][i - 1] == lines[i];
          }
        }
      }
    }
  }

  lemma {:induction false} StripAt(pieces: seq<bytes>, i: nat)
    requires i < |pieces|
    ensures |StripReturns(pieces)| == |pieces|
    ensures StripReturns(pieces)[i] == if i < |pieces| - 1 then Resp.WithoutCr(pieces[i]) else pieces[i]
    decreases |pieces|
  {
    hide Resp.WithoutCr;
    if |pieces| > 1 {
      if i > 0 {
        StripAt(pieces[1..], i - 1);
      } else {
        StripAt(pieces[1..], 0);
      }
    }
  }

  lemma StrippedIsNotBlank(line: bytes)
    requires RESET[0] in line
    ensures !Blank(Resp.WithoutCr(line)) && !Blank(line)
  {
    hide Blank;
    PrintedIsNotBlank(line, RESET[0]);
    if line[|line| - 1] == CR {
      assert line == LessLast(line) + [CR];
    }
    PrintedIsNotBlank(Resp.WithoutCr(line), RESET[0]);
  }

  /** The lines as they are read from the saved text. */
  lemma LinesOf(order: seq<Name>, users: Users)
    requires Lists(order, users) && AllClean(users) && DEFAULT in users
    ensures var lines := NotBlank(StripReturns(Split(Join(DumpLines(order, users), LF), LF)));
      && lines == StripReturns(DumpLines(order, users)) && |lines| == |order|
      && forall i :: 0 <= i < |order| ==> ReadAs(lines[i], users[order[i]])
  {
    var saved := DumpLines(order, users);
    hide DumpLine, Blank, DumpLines, Split, StripReturns, NotBlank, Resp.WithoutCr, Distinct;
    assert order != [];
    forall i | 0 <= i < |order|
      ensures LF !in saved[i] && saved[i] == DumpLine(users[order[i]]) && RESET[0] in saved[i]
    {
      assert order[i] in order;
      DumpLinesAre(order, users, i);
      LineLacksLf(users[order[i]]);
      LineIsNotBlank(users[order[i]]);
    }
    SplitJoin(saved, LF);
    forall i | 0 <= i < |order|
      ensures |StripReturns(saved)| ==
        |order| && ReadAs(StripReturns(saved)[i], users[order[i]]) && !Blank(StripReturns(saved)[i])
    {
      StripAt(saved, i);
      StrippedIsNotBlank(saved[i]);
    }
    NotBlankKeeps(StripReturns(saved));
  }

  /** Whatever a table of clean users loads as, each user has become itself or lost a byte. */
  lemma TableReads(order: seq<Name>, users: Users, h: Hasher)
    requires WellFormed(users) && Lists(order, users) && DEFAULT in users && AllClean(users)
    ensures var lines := StripReturns(DumpLines(order, users));
      && |lines| == |order|
      && var r := Load(Join(DumpLines(order, users), LF), h);
         r.Ok? ==> forall i :: 0 <= i < |order| ==>
           order[i] in users && order[i] in r.value && Becomes(lines[i], users[order[i]], r.value[order[i]])
  {
    hide DumpLine, DumpLines, Split, StripReturns, NotBlank, LoadLines, Resp.WithoutCr, WellFormed, Clean, ReadAs,
      Becomes, Join;
    LinesOf(order, users);
    var lines := StripReturns(DumpLines(order, users));
    forall j | 0 <= j < |order| ensures order[j] in users && Clean(users[order[j]]) {
      assert order[j] in order;
    }
    LinesRead(order, users, lines, map[], 0, h);
  }

  /** A table of clean users with a line that ends in a carriage return does not come back. */
  lemma ReturnsAreLost(order: seq<Name>, users: Users, h: Hasher, i: nat)
    requires WellFormed(users) && Lists(order, users) && DEFAULT in users && AllClean(users)
    requires i < |order| - 1 && Resp.WithoutCr(DumpLines(order, users)[i]) != DumpLines(order, users)[i]
    ensures Load(Join(DumpLines(order, users), LF), h) != Ok(users)
  {
    hide DumpLine, DumpLines, StripReturns, Load, Resp.WithoutCr, WellFormed, Clean, Join;
    TableReads(order, users, h);
    DumpLinesAre(order, users, i);
    StripAt(DumpLines(order, users), i);
  }

  /** The round trip of a table whose commands are printed as they read. */
  lemma PlainRoundTrip(order: seq<Name>, users: Users, h: Hasher)
    requires WellFormed(users) && Lists(order, users) && DEFAULT in users
    ensures Load(Join(DumpLines(order, users), LF), h) == Ok(users) <==>
      AllClean(users) && NoReturns(DumpLines(order, users))
  {
    hide Load, DumpLines, WellFormed, AllClean, Resp.WithoutCr;
    var text := Join(DumpLines(order, users), LF);
    if Load(text, h) == Ok(users) {
      LoadedAreClean(text, h);
      forall i | 0 <= i < |DumpLines(order, users)| - 1
        ensures Resp.WithoutCr(DumpLines(order, users)[i]) == DumpLines(order, users)[i]
      {
        if Resp.WithoutCr(DumpLines(order, users)[i]) != DumpLines(order, users)[i] {
          ReturnsAreLost(order, users, h, i);
        }
      }
    } else if AllClean(users) && NoReturns(DumpLines(order, users)) {
      CleanUsersLoad(order, users, h);
    }
  }

  // ------------------------------------------------------------ commands in any script

  /** What lower-casing does to a text, as far as the table depends on it. */
  ghost predicate Cased(s: bytes, t: bytes) {
    && (s != [] ==> t != [] && (s[0] != AT ==> t[0] != AT))
    && (forall i :: 0 <= i < |t| ==> !(65 <= t[i] <= 90))
    && (forall b :: b in {SPACE, LF, CR} ==> multiset(t)[b] == multiset(s)[b])
    && ((forall i :: 0 <= i < |s| ==> s[i] < 128) ==> t == Lower(s))
  }

  ghost predicate LowerCases(lc: Casing) { forall s :: Cased(s, lc(s)) }

  lemma LowerCounts(t: bytes, b: byte)
    requires b < 65
    ensures multiset(Lower(t))[b] == multiset(t)[b]
    decreases |t|
  {
    if t != [] {
      LowerCounts(t[1..], b);
      assert t == [t[0]] + t[1..];
      assert Lower(t) == [LowerByte(t[0])] + Lower(t[1..]);
      hide Lower;
    }
  }

  lemma LowerIsCased(s: bytes)
    ensures Cased(s, Lower(s))
  {
    forall b | b in {SPACE, LF, CR} ensures multiset(Lower(s))[b] == multiset(s)[b] {
      LowerCounts(s, b);
    }
    LowerIsSmall(s);
    hide Lower;
  }

  lemma LowerIsSmall(s: bytes)
    ensures var t := Lower(s);
      && (s != [] ==> t != [] && (s[0] != AT ==> t[0] != AT))
      && (forall i :: 0 <= i < |t| ==> !(65 <= t[i] <= 90))
  {
    var t := Lower(s);
    hide Lower;
    forall i | 0 <= i < |t| ensures !(65 <= t[i] <= 90) {
      assert t[i] == LowerByte(s[i]);
    }
    if s != [] {
      assert t[0] == LowerByte(s[0]);
    }
  }

  /** ASCII lower-casing, for one, is a lower-casing. */
  lemma AsciiLowerCases()
    ensures LowerCases((s: bytes) => Lower(s))
  {
    hide Lower, Cased;
    forall s ensures Cased(s, Lower(s)) {
      LowerIsCased(s);
    }
  }

  /** Every command is in the case in which it reads back. */
  ghost predicate Steady(u: User, lc: Casing) {
    forall i :: 0 <= i < |u.rules| ==> PrintedRule(u.rules[i], lc) == u.rules[i]
  }

  ghost predicate AllSteady(users: Users, lc: Casing) { forall n :: n in users ==> Steady(users[n], lc) }

  lemma LowerUpper(t: bytes)
    requires forall i :: 0 <= i < |t| ==> !(65 <= t[i] <= 90)
    ensures Lower(Upper(t)) == t
  {
    var u := Upper(t);
    var l := Lower(u);
    hide Lower, Upper;
    forall i | 0 <= i < |t| ensures l[i] == t[i] {
      assert u[i] == UpperByte(t[i]) && l[i] == LowerByte(u[i]);
    }
  }

  /** What is printed for a command is its sign and its lower case. */
  lemma PrintsLowerCase(r: Rule, lc: Casing)
    requires LowerCases(lc)
    ensures RuleToken(PrintedRule(r, lc)) ==
      match r
      case AllowCmd(c) => [PLUS] + lc(c)
      case DenyCmd(c) => [MINUS] + lc(c)
      case AllowCat(c) => [PLUS, AT] + CategoryName(c)
      case DenyCat(c) => [MINUS, AT] + CategoryName(c)
  {
    hide CategoryName, Lower, Upper;
    if r.AllowCmd? || r.DenyCmd? {
      var c := CommandOf(r);
      assert Cased(c, lc(c));
      LowerUpper(lc(c));
    }
  }

  /** An ASCII command is always printed as it reads. */
  lemma AsciiIsSteady(r: Rule, lc: Casing)
    requires LowerCases(lc) && WellFormedRule(r)
    requires forall i :: 0 <= i < |CommandOf(r)| ==> CommandOf(r)[i] < 128
    ensures PrintedRule(r, lc) == r
  {
    hide Lower, Upper;
    if r.AllowCmd? || r.DenyCmd? {
      var c := CommandOf(r);
      assert Cased(c, lc(c));
      UpperLower(c);
    }
  }

  lemma {:induction false} UpperCounts(t: bytes, b: byte)
    requires b < 65
    ensures multiset(Upper(t))[b] == multiset(t)[b]
    decreases |t|
  {
    if t != [] {
      UpperCounts(t[1..], b);
      assert t == [t[0]] + t[1..];
      assert Upper(t) == [UpperByte(t[0])] + Upper(t[1..]);
    }
  }

  lemma PrintedFits(r: Rule, lc: Casing)
    requires LowerCases(lc) && WellFormedRule(r)
    ensures WellFormedRule(PrintedRule(r, lc))
    ensures forall b :: b in {SPACE, LF, CR} ==>
      multiset(CommandOf(PrintedRule(r, lc)))[b] == multiset(CommandOf(r))[b]
  {
    hide Lower, Upper;
    if r.AllowCmd? || r.DenyCmd? {
      var c := CommandOf(r);
      assert Cased(c, lc(c));
      UpperHasNoLower(lc(c));
      assert Upper(lc(c))[0] == UpperByte(lc(c)[0]);
      forall b | b in {SPACE, LF, CR} ensures multiset(Upper(lc(c)))[b] == multiset(c)[b] {
        UpperCounts(lc(c), b);
      }
    }
  }

  lemma PrintedUserFits(u: User, lc: Casing)
    requires LowerCases(lc) && WellFormedUser(u)
    ensures WellFormedUser(PrintedUser(u, lc)) && PrintedUser(u, lc).name == u.name
    ensures Clean(PrintedUser(u, lc)) <==> Clean(u)
  {
    hide LowerCases, WellFormedRule, PrintedRule, CommandOf;
    var v := PrintedUser(u, lc);
    forall i | 0 <= i < |u.rules|
      ensures WellFormedRule(v.rules[i])
      ensures forall b :: b in {SPACE, LF} ==> (b in CommandOf(v.rules[i]) <==> b in CommandOf(u.rules[i]))
    {
      PrintedFits(u.rules[i], lc);
      forall b | b in {SPACE, LF} ensures b in CommandOf(v.rules[i]) <==> b in CommandOf(u.rules[i]) {
        assert b in multiset(CommandOf(v.rules[i])) <==> b in multiset(CommandOf(u.rules[i]));
      }
    }
  }

  lemma PrintedTableFits(order: seq<Name>, users: Users, lc: Casing)
    requires LowerCases(lc) && WellFormed(users) && Lists(order, users)
    ensures var p := PrintedTable(users, lc);
      WellFormed(p) && Lists(order, p) && (AllClean(p) <==> AllClean(users)) && p.Keys == users.Keys
  {
    hide LowerCases, WellFormedUser, Clean, PrintedUser, Distinct;
    forall n | n in users
      ensures WellFormedUser(PrintedUser(users[n], lc)) && PrintedUser(users[n], lc).name == n
      ensures Clean(PrintedUser(users[n], lc)) <==> Clean(users[n])
    {
      PrintedUserFits(users[n], lc);
    }
    var p := PrintedTable(users, lc);
    assert forall n :: n in p <==> n in users;
    assert forall n :: n in users ==> p[n] == PrintedUser(users[n], lc);
  }

  lemma SteadyPrints(u: User, lc: Casing)
    ensures PrintedUser(u, lc) == u <==> Steady(u, lc)
  {
    hide PrintedRule;
    var v := PrintedUser(u, lc);
    if Steady(u, lc) {
      assert v.rules == u.rules;
    }
  }

  lemma SteadyTablePrints(users: Users, lc: Casing)
    ensures PrintedTable(users, lc) == users <==> AllSteady(users, lc)
  {
    hide PrintedUser, Steady;
    forall n | n in users ensures PrintedUser(users[n], lc) == users[n] <==> Steady(users[n], lc) {
      SteadyPrints(users[n], lc);
    }
    var p := PrintedTable(users, lc);
    assert p.Keys == users.Keys;
    assert forall n :: n in users ==> p[n] == PrintedUser(users[n], lc);
  }

  /** A user printed as another does not become the first again, whether its line is whole or not. */
  lemma UnsteadyIsLost(u: User, line: bytes, v: User, lc: Casing)
    requires LowerCases(lc) && WellFormedUser(u) && !Steady(u, lc) && Becomes(line, PrintedUser(u, lc), v)
    ensures v != u
  {
    hide LowerCases, WellFormedRule, PrintedRule, CommandOf, DumpLine;
    var p := PrintedUser(u, lc);
    var i :| 0 <= i < |u.rules| && p.rules[i] != u.rules[i];
    var n := |u.rules| - 1;
    if Short(p, v) {
      if i < n {
        assert p.rules[..n][i] == p.rules[i] && v.rules[..n][i] == v.rules[i];
      } else {
        PrintedFits(u.rules[n], lc);
        LessLastCounts(CommandOf(p.rules[n]));
        assert CR in {SPACE, LF, CR};
      }
    }
  }

  lemma LessLastCounts(s: bytes)
    ensures EndsInCr(s) ==> multiset(LessLast(s))[CR] == multiset(s)[CR] - 1
  {
    if EndsInCr(s) {
      assert s == LessLast(s) + [CR];
    }
  }

  lemma UnsteadyTableIsLost(order: seq<Name>, users: Users, lc: Casing, h: Hasher)
    requires LowerCases(lc) && WellFormed(users) && Lists(order, users) && DEFAULT in users
    requires AllClean(users) && !AllSteady(users, lc)
    ensures Load(Join(DumpLines(order, PrintedTable(users, lc)), LF), h) != Ok(users)
  {
    PrintedTableFits(order, users, lc);
    hide LowerCases, WellFormedUser, Clean, PrintedUser, Distinct, Steady, Load, DumpLines, StripReturns, Becomes, Join;
    var p := PrintedTable(users, lc);
    TableReads(order, p, h);
    var n :| n in users && !Steady(users[n], lc);
    assert n in order;
    var i :| 0 <= i < |order| && order[i] == n;
    var r := Load(Join(DumpLines(order, p), LF), h);
    if r.Ok? {
      assert p[n] == PrintedUser(users[n], lc);
      UnsteadyIsLost(users[n], StripReturns(DumpLines(order, p))[i], r.value[n], lc);
    }
  }

  /**
   * The round trip, exactly: a table comes back if and only if it has the default user, no
   * name, pattern or command contains a blank or a line end, every command is in the case
   * in which it reads back, and no saved line but the last ends in a carriage return.
   */
  lemma DumpRoundTrip(order: seq<Name>, users: Users, lc: Casing, h: Hasher)
    requires WellFormed(users) && LowerCases(lc) && Lists(order, users)
    ensures forall n :: n in order ==> n in PrintedTable(users, lc)
    ensures Load(Join(DumpLines(order, PrintedTable(users, lc)), LF), h) == Ok(users) <==>
      && DEFAULT in users && AllClean(users) && AllSteady(users, lc)
      && NoReturns(DumpLines(order, PrintedTable(users, lc)))
  {
    PrintedTableFits(order, users, lc);
    hide DumpLines, WellFormed, AllClean, AllSteady, NoReturns, PrintedTable, LowerCases, LoadLines, Join, Split;
    var p := PrintedTable(users, lc);
    var text := Join(DumpLines(order, p), LF);
    if DEFAULT in users {
      hide Load;
      SteadyTablePrints(users, lc);
      if Load(text, h) == Ok(users) {
        LoadedAreClean(text, h);
        if !AllSteady(users, lc) {
          UnsteadyTableIsLost(order, users, lc, h);
        }
      }
      if AllSteady(users, lc) {
        PlainRoundTrip(order, users, h);
      }
    }
  }

  // ------------------------------------------------------------ tables that do not come back

  function Only(u: User): Users { map[u.name := u] }

  /** A pattern of one blank. */
  lemma BlankIsLost(lc: Casing, h: Hasher)
    requires LowerCases(lc)
    ensures var users := Only(NewRestricted(DEFAULT).(patterns := [[SPACE]]));
      Load(Join(DumpLines([DEFAULT], PrintedTable(users, lc)), LF), h) != Ok(users)
  {
    hide LowerCases, Load, Join, DumpLines, NoReturns, PrintedTable;
    var users := Only(NewRestricted(DEFAULT).(patterns := [[SPACE]]));
    assert SPACE in users[DEFAULT].patterns[0];
    assert !Clean(users[DEFAULT]);
    DumpRoundTrip([DEFAULT], users, lc, h);
  }

  /** E with an acute accent, in UTF-8, and its lower case. */
  const ACCENT: bytes := [0xC3, 0x89]
  const ACCENT_LOWER: bytes := [0xC3, 0xA9]

  /** A command outside ASCII, in upper case, as an administrator may name one. */
  lemma AccentIsLost(lc: Casing, h: Hasher)
    requires LowerCases(lc) && lc(ACCENT) == ACCENT_LOWER
    ensures var users := Only(NewRestricted(DEFAULT).(rules := [AllowCmd(ACCENT)]));
      WellFormed(users) && Load(Join(DumpLines([DEFAULT], PrintedTable(users, lc)), LF), h) != Ok(users)
  {
    hide LowerCases, Load, Join, DumpLines, NoReturns, PrintedTable;
    var users := Only(NewRestricted(DEFAULT).(rules := [AllowCmd(ACCENT)]));
    assert Upper(ACCENT_LOWER)[1] == 0xA9;
    assert PrintedRule(AllowCmd(ACCENT), lc) != AllowCmd(ACCENT);
    assert users[DEFAULT].rules[0] == AllowCmd(ACCENT);
    assert !Steady(users[DEFAULT], lc);
    DumpRoundTrip([DEFAULT], users, lc, h);
  }
}
