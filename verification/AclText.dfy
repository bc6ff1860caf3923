/**
 * Saving the access-control table and loading it back.
 */
module AclText {
  import opened Base
  import opened Text
  import opened Acl
  import Resp

  // ------------------------------------------------------------ what can be saved

  /** Commands come in upper case, are not empty and do not look like a category. */
  predicate WellFormedRule(r: Rule) {
    match r
    case AllowCmd(c) => c != [] && c[0] != AT && NoLowerCase(c)
    case DenyCmd(c) => c != [] && c[0] != AT && NoLowerCase(c)
    case _ => true
  }

  predicate WellFormedUser(u: User) {
    forall i :: 0 <= i < |u.rules| ==> WellFormedRule(u.rules[i])
  }

  ghost predicate WellFormed(users: Users) {
    forall n :: n in users ==> users[n].name == n && WellFormedUser(users[n])
  }

  function CommandOf(r: Rule): bytes {
    match r case AllowCmd(c) => c case DenyCmd(c) => c case _ => []
  }

  /** A byte occurs in none of the texts a user carries. */
  predicate Lacks(u: User, b: byte) {
    && b !in u.name
    && (forall i :: 0 <= i < |u.patterns| ==> b !in u.patterns[i])
    && (forall i :: 0 <= i < |u.rules| ==> b !in CommandOf(u.rules[i]))
  }

  /** Names, patterns and commands without blanks and line ends. */
  predicate Clean(u: User) { Lacks(u, SPACE) && Lacks(u, LF) }

  ghost predicate AllClean(users: Users) {
    forall n :: n in users ==> Clean(users[n])
  }

  // ------------------------------------------------------------ single tokens

  lemma {:induction false} HexReadsBack(s: bytes)
    ensures DecodeHex(EncodeHex(s)) == Some(s)
    ensures forall i :: 0 <= i < |EncodeHex(s)| ==> IsHex(EncodeHex(s)[i])
    decreases |s|
  {
    if s != [] {
      HexReadsBack(s[1..]);
      var e := EncodeHex(s);
      assert e[2..] == EncodeHex(s[1..]);
      HexDigitsReadBack(s[0]);
      assert s == [s[0]] + s[1..];
    }
  }

  lemma HexDigitsReadBack(b: byte)
    ensures HexByte(HexDigit(b / 16), HexDigit(b % 16)) == Some(b)
    ensures IsHex(HexDigit(b / 16)) && IsHex(HexDigit(b % 16))
  {
  }

  lemma HexLacks(s: bytes, b: byte)
    requires !IsHex(b)
    ensures b !in EncodeHex(s)
  {
    HexReadsBack(s);
  }

  lemma HashedReadsBack(s: Secret)
    ensures ParseHashed(EncodeHex(s.salt) + [COLON] + EncodeHex(s.hash)) == Some(s)
  {
    var a, b := EncodeHex(s.salt), EncodeHex(s.hash);
    HexLacks(s.salt, COLON);
    HexLacks(s.hash, COLON);
    HexReadsBack(s.salt);
    HexReadsBack(s.hash);
    hide EncodeHex, DecodeHex;
    var parts := [a, b];
    assert parts[1..] == [b];
    assert Join(parts, COLON) == a + [COLON] + Join([b], COLON);
    SplitJoin(parts, COLON);
  }

  lemma CategoryReadsBack(c: Category)
    ensures ParseCategory(CategoryName(c)) == Some(c)
    ensures SPACE !in CategoryName(c) && LF !in CategoryName(c)
  {
    NameIsLowerCase(c);
    hide Lower;
    if c.All? || c.Read? || c.Write? || c.Admin? || c.Dangerous? {
      EarlyCategories(c);
    } else {
      LateCategories(c);
    }
  }

  predicate AllLetters(s: bytes) { forall i :: 0 <= i < |s| ==> 97 <= s[i] <= 122 }

  lemma NameIsLowerCase(c: Category)
    ensures Lower(CategoryName(c)) == CategoryName(c)
    ensures SPACE !in CategoryName(c) && LF !in CategoryName(c)
  {
    CategoryLetters(c);
    hide CategoryName;
    assert Lower(CategoryName(c)) == CategoryName(c);
  }

  lemma CategoryLetters(c: Category)
    ensures AllLetters(CategoryName(c))
  {
  }

  lemma EarlyCategories(c: Category)
    requires c.All? || c.Read? || c.Write? || c.Admin? || c.Dangerous?
    requires Lower(CategoryName(c)) == CategoryName(c)
    ensures ParseCategory(CategoryName(c)) == Some(c)
  {
    hide Lower;
  }

  lemma LateCategories(c: Category)
    requires !(c.All? || c.Read? || c.Write? || c.Admin? || c.Dangerous?)
    requires Lower(CategoryName(c)) == CategoryName(c)
    ensures ParseCategory(CategoryName(c)) == Some(c)
  {
    hide Lower;
  }

  /** A token that does not start with a letter is none of the words. */
  lemma NotAWord(t: bytes)
    requires t != [] && t[0] < 65
    ensures Lower(t) != ON && Lower(t) != OFF && Lower(t) != NOPASS && Lower(t) != RESETPASS && Lower(t) != ALLKEYS
    ensures Lower(t) != RESETKEYS && Lower(t) != ALLCOMMANDS && Lower(t) != NOCOMMANDS && Lower(t) != RESET
  {
    assert Lower(t)[0] == t[0];
  }

  lemma WordsApply(u: User, name: Name, secret: Secret)
    ensures ApplyToken(u, name, ON, secret) == Ok(u.(enabled := true))
    ensures ApplyToken(u, name, OFF, secret) == Ok(u.(enabled := false))
    ensures ApplyToken(u, name, NOPASS, secret) == Ok(u.(password := None))
    ensures ApplyToken(u, name, RESET, secret) == Ok(NewRestricted(name))
  {
    assert Lower(ON) == ON && Lower(OFF) == OFF && Lower(NOPASS) == NOPASS && Lower(RESET) == RESET;
  }

  lemma PasswordApplies(u: User, v: User, name: Name, secret: Secret)
    ensures ApplyToken(u, name, PasswordToken(v), secret) == Ok(u.(password := v.password))
  {
    hide Lower, ParseHashed, EncodeHex;
    if v.password.Some? {
      var s := v.password.value;
      var t := PasswordToken(v);
      NotAWord(t);
      HashedReadsBack(s);
      assert t == [HASH] + (EncodeHex(s.salt) + [COLON] + EncodeHex(s.hash));
    } else {
      hide ApplyToken;
      WordsApply(u, name, secret);
    }
  }

  lemma PatternApplies(u: User, name: Name, p: bytes, secret: Secret)
    ensures ApplyToken(u, name, [TILDE] + p, secret) == Ok(u.(patterns := u.patterns + [p]))
  {
    // The tilde comes after the letters.
    assert Lower([TILDE] + p)[0] == TILDE;
    assert ([TILDE] + p)[1..] == p;
  }

  /** A signed token is a rule. */
  lemma SignApplies(u: User, name: Name, sign: byte, rest: bytes, secret: Secret)
    requires sign == PLUS || sign == MINUS
    ensures ApplyToken(u, name, [sign] + rest, secret) ==
      match ParseRule(rest, sign == PLUS)
      case Ok(r) => Ok(u.(rules := u.rules + [r]))
      case Err(e) => Err(e)
  {
    hide ParseRule, Lower;
    NotAWord([sign] + rest);
    assert ([sign] + rest)[1..] == rest;
  }

  lemma CategoryRuleReads(c: Category)
    ensures forall allow :: ParseRule([AT] + CategoryName(c), allow) == Ok(if allow then AllowCat(c) else DenyCat(c))
  {
    hide ParseCategory, CategoryName;
    CategoryReadsBack(c);
    assert ([AT] + CategoryName(c))[1..] == CategoryName(c);
  }

  lemma RuleApplies(u: User, name: Name, r: Rule, secret: Secret)
    requires WellFormedRule(r)
    ensures ApplyToken(u, name, RuleToken(r), secret) == Ok(u.(rules := u.rules + [r]))
  {
    hide ApplyToken, ParseRule, CategoryName, Lower;
    match r
    case AllowCmd(c) => SignApplies(u, name, PLUS, Lower(c), secret); CommandReadsBack(c);
    case DenyCmd(c) => SignApplies(u, name, MINUS, Lower(c), secret); CommandReadsBack(c);
    case AllowCat(c) =>
      SignApplies(u, name, PLUS, [AT] + CategoryName(c), secret);
      CategoryRuleReads(c);
      assert RuleToken(r) == [PLUS] + ([AT] + CategoryName(c));
    case DenyCat(c) =>
      SignApplies(u, name, MINUS, [AT] + CategoryName(c), secret);
      CategoryRuleReads(c);
      assert RuleToken(r) == [MINUS] + ([AT] + CategoryName(c));
  }

  lemma CommandReadsBack(c: bytes)
    requires c != [] && c[0] != AT && NoLowerCase(c)
    ensures forall allow :: ParseRule(Lower(c), allow) == Ok(if allow then AllowCmd(c) else DenyCmd(c))
  {
    UpperLower(c);
    assert Lower(c)[0] == LowerByte(c[0]);
  }

  // ------------------------------------------------------------ token lists

  lemma {:induction false} TokensInTwo(u: User, name: Name, a: seq<bytes>, b: seq<bytes>, line: nat, at: nat, h: Hasher)
    ensures SetTokens(u, name, a + b, line, at, h) ==
      match SetTokens(u, name, a, line, at, h)
      case Ok(u') => SetTokens(u', name, b, line, at + |a|, h)
      case Err(e) => Err(e)
    decreases |a|
  {
    hide ApplyToken;
    if a == [] {
      assert a + b == b;
    } else {
      assert (a + b)[1..] == a[1..] + b;
      var t := a[0];
      match ApplyToken(u, name, t, h(line, at, if t == [] then [] else t[1..]))
      case Ok(u') => TokensInTwo(u', name, a[1..], b, line, at + 1, h);
      case Err(_) =>
    }
  }

  /** One accepted token in front of the others. */
  lemma TokenThen(u: User, u': User, name: Name, t: bytes, rest: seq<bytes>, line: nat, at: nat, h: Hasher)
    requires ApplyToken(u, name, t, h(line, at, if t == [] then [] else t[1..])) == Ok(u')
    ensures SetTokens(u, name, [t] + rest, line, at, h) == SetTokens(u', name, rest, line, at + 1, h)
  {
    hide ApplyToken;
    assert ([t] + rest)[1..] == rest;
  }

  lemma MoreRules(u: User, first: seq<Rule>, rest: seq<Rule>)
    ensures var u' := u.(rules := u.rules + first);
      u'.(rules := u'.rules + rest) == u.(rules := u.rules + (first + rest))
  {
    assert (u.rules + first) + rest == u.rules + (first + rest);
  }

  lemma MorePatterns(u: User, first: seq<bytes>, rest: seq<bytes>)
    ensures var u' := u.(patterns := u.patterns + first);
      u'.(patterns := u'.patterns + rest) == u.(patterns := u.patterns + (first + rest))
  {
    assert (u.patterns + first) + rest == u.patterns + (first + rest);
  }

  lemma {:induction false} PatternsApply(u: User, name: Name, ps: seq<bytes>, line: nat, at: nat, h: Hasher)
    ensures SetTokens(u, name, PatternTokens(ps), line, at, h) == Ok(u.(patterns := u.patterns + ps))
    decreases |ps|
  {
    hide ApplyToken;
    if ps == [] {
      assert u.patterns + ps == u.patterns;
    } else {
      var t, rest := [TILDE] + ps[0], ps[1..];
      var u' := u.(patterns := u.patterns + [ps[0]]);
      assert PatternTokens(ps) == [t] + PatternTokens(rest);
      hide SetTokens, PatternTokens;
      PatternApplies(u, name, ps[0], h(line, at, t[1..]));
      TokenThen(u, u', name, t, PatternTokens(rest), line, at, h);
      PatternsApply(u', name, rest, line, at + 1, h);
      MorePatterns(u, [ps[0]], rest);
      assert [ps[0]] + rest == ps;
    }
  }

  lemma {:induction false} RulesApply(u: User, name: Name, rules: seq<Rule>, line: nat, at: nat, h: Hasher)
    requires forall i :: 0 <= i < |rules| ==> WellFormedRule(rules[i])
    ensures SetTokens(u, name, RuleTokens(rules), line, at, h) == Ok(u.(rules := u.rules + rules))
    decreases |rules|
  {
    hide ApplyToken, WellFormedRule, RuleToken;
    if rules == [] {
      assert u.rules + rules == u.rules;
    } else {
      var t, rest := RuleToken(rules[0]), rules[1..];
      var u' := u.(rules := u.rules + [rules[0]]);
      assert RuleTokens(rules) == [t] + RuleTokens(rest);
      hide SetTokens, RuleTokens;
      RuleApplies(u, name, rules[0], h(line, at, if t == [] then [] else t[1..]));
      TokenThen(u, u', name, t, RuleTokens(rest), line, at, h);
      RulesApply(u', name, rest, line, at + 1, h);
      MoreRules(u, [rules[0]], rest);
      assert [rules[0]] + rest == rules;
    }
  }

  /** The tokens of a saved line, behind the name. */
  function SavedTokens(u: User): seq<bytes> {
    [RESET, PasswordToken(u)] + ([if u.enabled then ON else OFF] + (PatternTokens(u.patterns) + RuleTokens(u.rules)))
  }

  lemma OneToken(u: User, name: Name, t: bytes, line: nat, at: nat, h: Hasher)
    ensures SetTokens(u, name, [t], line, at, h) == ApplyToken(u, name, t, h(line, at, if t == [] then [] else t[1..]))
  {
    hide ApplyToken;
    assert [t][1..] == [];
  }

  /** They rebuild the user from any starting point. */
  lemma SavedTokensRebuild(u: User, from: User, line: nat, h: Hasher)
    requires WellFormedUser(u)
    ensures SetTokens(from, u.name, SavedTokens(u), line, 0, h) == Ok(u)
  {
    hide ApplyToken, PasswordToken, PatternTokens, RuleTokens, WellFormedRule, SetTokens;
    var pw, sw := PasswordToken(u), if u.enabled then ON else OFF;
    var ps, rs := PatternTokens(u.patterns), RuleTokens(u.rules);
    var u1 := NewRestricted(u.name);
    var u2 := u1.(password := u.password);
    var u3 := u2.(enabled := u.enabled);
    var u4 := u3.(patterns := u3.patterns + u.patterns);
    assert SavedTokens(u) == [RESET] + ([pw] + ([sw] + (ps + rs)));
    TokensInTwo(from, u.name, [RESET], [pw] + ([sw] + (ps + rs)), line, 0, h);
    OneToken(from, u.name, RESET, line, 0, h);
    WordsApply(from, u.name, h(line, 0, RESET[1..]));
    TokensInTwo(u1, u.name, [pw], [sw] + (ps + rs), line, 1, h);
    OneToken(u1, u.name, pw, line, 1, h);
    PasswordApplies(u1, u, u.name, h(line, 1, if pw == [] then [] else pw[1..]));
    TokensInTwo(u2, u.name, [sw], ps + rs, line, 2, h);
    OneToken(u2, u.name, sw, line, 2, h);
    WordsApply(u2, u.name, h(line, 2, sw[1..]));
    TokensInTwo(u3, u.name, ps, rs, line, 3, h);
    PatternsApply(u3, u.name, u.patterns, line, 3, h);
    RulesApply(u4, u.name, u.rules, line, 3 + |ps|, h);
    assert u3.patterns == [] && u4.rules == [];
    assert [] + u.patterns == u.patterns && [] + u.rules == u.rules;
  }

  // ------------------------------------------------------------ a saved line

  lemma {:induction false} WithoutAppend(a: seq<bytes>, b: seq<bytes>, t: bytes)
    ensures Without(a + b, t) == Without(a, t) + Without(b, t)
    decreases |a|
  {
    if a == [] {
      assert a + b == b;
    } else {
      assert (a + b)[1..] == a[1..] + b;
      WithoutAppend(a[1..], b, t);
    }
  }

  lemma {:induction false} WithoutNone(a: seq<bytes>, t: bytes)
    requires forall i :: 0 <= i < |a| ==> a[i] != t
    ensures Without(a, t) == a
    decreases |a|
  {
    if a != [] {
      WithoutNone(a[1..], t);
    }
  }

  /** The tokens of a description are its tokens again once joined and split, less the password word. */
  lemma DescriptionSplits(u: User)
    requires Lacks(u, SPACE)
    ensures Without(Split(Describe(u), SPACE), NOPASS)
         == [if u.enabled then ON else OFF] + (PatternTokens(u.patterns) + RuleTokens(u.rules))
  {
    hide Split, Join, PatternTokens, RuleTokens, Lacks, Without;
    var sw: seq<bytes> := [if u.enabled then ON else OFF];
    var np: seq<bytes> := if u.password.None? then [NOPASS] else [];
    var ps, rs := PatternTokens(u.patterns), RuleTokens(u.rules);
    TokensLack(u, SPACE);
    FreeTogether(sw, np, ps, rs, SPACE);
    SplitJoin(sw + np + ps + rs, SPACE);
    PrintedAreNotWords(u);
    WithoutSwitch(sw, np, ps, rs);
  }

  lemma FreeTogether(a: seq<bytes>, b: seq<bytes>, c: seq<bytes>, d: seq<bytes>, sep: byte)
    requires Free(a, sep) && Free(b, sep) && Free(c, sep) && Free(d, sep)
    ensures Free(a + b + c + d, sep)
  {
  }

  lemma WithoutSwitch(sw: seq<bytes>, np: seq<bytes>, ps: seq<bytes>, rs: seq<bytes>)
    requires sw == [ON] || sw == [OFF]
    requires np == [] || np == [NOPASS]
    requires forall i :: 0 <= i < |ps| ==> ps[i] != NOPASS
    requires forall i :: 0 <= i < |rs| ==> rs[i] != NOPASS
    ensures Without(sw + np + ps + rs, NOPASS) == sw + (ps + rs)
  {
    assert |ON| != |NOPASS| && |OFF| != |NOPASS|;
    assert np != [] ==> np[1..] == [];
    WithoutMiddle(sw, np, ps, rs, NOPASS);
  }

  lemma WithoutMiddle(a: seq<bytes>, b: seq<bytes>, c: seq<bytes>, d: seq<bytes>, t: bytes)
    requires forall i :: 0 <= i < |a| ==> a[i] != t
    requires forall i :: 0 <= i < |c| ==> c[i] != t
    requires forall i :: 0 <= i < |d| ==> d[i] != t
    requires Without(b, t) == []
    ensures Without(a + b + c + d, t) == a + (c + d)
  {
    hide Without;
    WithoutNone(a, t);
    WithoutNone(c, t);
    WithoutNone(d, t);
    WithoutAppend(a + b + c, d, t);
    WithoutAppend(a + b, c, t);
    WithoutAppend(a, b, t);
  }

  lemma PrintedAreNotWords(u: User)
    ensures forall i :: 0 <= i < |u.patterns| ==> PatternTokens(u.patterns)[i] != NOPASS
    ensures forall i :: 0 <= i < |u.rules| ==> RuleTokens(u.rules)[i] != NOPASS
  {
    forall i | 0 <= i < |u.patterns| ensures PatternTokens(u.patterns)[i] != NOPASS {
      assert PatternTokens(u.patterns)[i][0] == TILDE;
    }
    forall i | 0 <= i < |u.rules| ensures RuleTokens(u.rules)[i] != NOPASS {
      assert RuleToken(u.rules[i])[0] == PLUS || RuleToken(u.rules[i])[0] == MINUS;
    }
  }

  /** Printing brings in no blanks and no line ends of its own. */
  lemma TokensLack(u: User, b: byte)
    requires Lacks(u, b) && (b == SPACE || b == LF)
    ensures Free(PatternTokens(u.patterns), b) && Free(RuleTokens(u.rules), b)
    ensures b !in PasswordToken(u) && b !in ON && b !in OFF && b !in NOPASS && b !in RESET
  {
    forall i | 0 <= i < |u.rules| ensures b !in RuleToken(u.rules[i]) {
      RuleTokenLacks(u.rules[i], b);
    }
    hide RuleToken;
    if u.password.Some? {
      HexLacks(u.password.value.salt, b);
      HexLacks(u.password.value.hash, b);
      hide EncodeHex;
    }
  }

  lemma RuleTokenLacks(r: Rule, b: byte)
    requires b !in CommandOf(r) && (b == SPACE || b == LF)
    ensures b !in RuleToken(r)
  {
    match r
    case AllowCmd(c) => CaseKeepsOut(c, b);
    case DenyCmd(c) => CaseKeepsOut(c, b);
    case AllowCat(c) => CategoryReadsBack(c); hide CategoryName;
    case DenyCat(c) => CategoryReadsBack(c); hide CategoryName;
  }

  lemma SavedTokensLack(u: User, b: byte)
    requires Lacks(u, b) && (b == SPACE || b == LF)
    ensures Free([u.name] + SavedTokens(u), b)
  {
    TokensLack(u, b);
    hide PasswordToken, PatternTokens, RuleTokens;
  }

  lemma LineSplits(u: User)
    requires Lacks(u, SPACE)
    ensures Split(DumpLine(u), SPACE) == [u.name] + SavedTokens(u)
    ensures DumpLine(u) == Join([u.name] + SavedTokens(u), SPACE)
  {
    hide Describe, Without, PasswordToken, PatternTokens, RuleTokens;
    DescriptionSplits(u);
    SavedTokensLack(u, SPACE);
    hide Free, Lacks;
    var tail := Without(Split(Describe(u), SPACE), NOPASS);
    assert [u.name, RESET, PasswordToken(u)] + tail == [u.name] + SavedTokens(u);
    SplitJoin([u.name] + SavedTokens(u), SPACE);
  }

  /** Loading a saved line puts exactly that user into the table. */
  lemma LineLoads(users: Users, u: User, k: nat, h: Hasher)
    requires WellFormedUser(u) && Lacks(u, SPACE)
    ensures LoadLine(users, DumpLine(u), k, h) == Ok(users[u.name := u])
  {
    hide DumpLine, SavedTokens, WellFormedUser, Lacks, Split, SetTokens;
    LineSplits(u);
    var parts := [u.name] + SavedTokens(u);
    assert parts[1..] == SavedTokens(u);
    SavedTokensRebuild(u, UserOr(users, u.name), k, h);
  }

  // ------------------------------------------------------------ the whole text

  /** Text with a printing ASCII character is not blank. */
  lemma {:induction false} TrimStartKeeps(s: bytes, b: byte)
    requires b in s && 33 <= b <= 127
    ensures b in Resp.TrimStart(s)
    decreases |s|
  {
    var w := Resp.BlankAtStart(s);
    if w > 0 {
      assert s == s[..w] + s[w..];
      TrimStartKeeps(s[w..], b);
    }
  }

  lemma {:induction false} TrimEndKeeps(s: bytes, b: byte)
    requires b in s && 33 <= b <= 127
    ensures b in Resp.TrimEnd(s)
    decreases |s|
  {
    var w := Resp.BlankAtEnd(s);
    if w > 0 {
      assert s == s[..|s| - w] + s[|s| - w..];
      TrimEndKeeps(s[..|s| - w], b);
    }
  }

  lemma LineIsNotBlank(u: User)
    requires Lacks(u, SPACE)
    ensures !Blank(DumpLine(u)) && RESET[0] in DumpLine(u)
  {
    LineSplits(u);
    var b := RESET[0];
    var parts := [u.name] + SavedTokens(u);
    assert parts[1] == RESET;
    hide DumpLine, SavedTokens;
    JoinContains(parts, 1, SPACE, b);
    PrintedIsNotBlank(DumpLine(u), b);
  }

  lemma PrintedIsNotBlank(line: bytes, b: byte)
    requires b in line && 33 <= b <= 127
    ensures !Blank(line)
  {
    TrimStartKeeps(line, b);
    TrimEndKeeps(Resp.TrimStart(line), b);
  }

  lemma {:induction false} JoinContains(parts: seq<bytes>, i: nat, sep: byte, b: byte)
    requires i < |parts| && b in parts[i]
    ensures b in Join(parts, sep)
    decreases |parts|
  {
    if |parts| > 1 && i > 0 {
      JoinContains(parts[1..], i - 1, sep, b);
    }
  }

  lemma LineLacksLf(u: User)
    requires Clean(u)
    ensures LF !in DumpLine(u)
  {
    LineSplits(u);
    SavedTokensLack(u, LF);
    hide DumpLine, SavedTokens;
    JoinKeepsOut([u.name] + SavedTokens(u), SPACE, LF);
  }

  lemma {:induction false} NotBlankKeeps(lines: seq<bytes>)
    requires forall i :: 0 <= i < |lines| ==> !Blank(lines[i])
    ensures NotBlank(lines) == lines
    decreases |lines|
  {
    hide Blank;
    if lines != [] {
      NotBlankKeeps(lines[1..]);
    }
  }

  /** No line but the last ends in a carriage return. */
  predicate NoReturns(lines: seq<bytes>) {
    forall i :: 0 <= i < |lines| - 1 ==> Resp.WithoutCr(lines[i]) == lines[i]
  }

  lemma {:induction false} StripKeeps(lines: seq<bytes>)
    requires NoReturns(lines)
    ensures StripReturns(lines) == lines
    decreases |lines|
  {
    hide Resp.WithoutCr;
    if |lines| > 1 {
      StripKeeps(lines[1..]);
    }
  }

  ghost predicate Distinct(order: seq<Name>) {
    forall i, k :: 0 <= i < k < |order| ==> order[i] != order[k]
  }

  /** Every user once, in any order. */
  ghost predicate Lists(order: seq<Name>, users: Users) {
    Distinct(order) && forall n :: n in order <==> n in users
  }

  function Restricted(users: Users, names: seq<Name>): Users {
    map n | n in users && n in names :: users[n]
  }

  lemma LineThen(users: Users, users': Users, line: bytes, rest: seq<bytes>, k: nat, h: Hasher)
    requires LoadLine(users, line, k, h) == Ok(users')
    ensures LoadLines(users, [line] + rest, k, h) == LoadLines(users', rest, k + 1, h)
  {
    hide LoadLine;
    assert ([line] + rest)[1..] == rest;
  }

  lemma MoreUsers(order: seq<Name>, users: Users, acc: Users)
    requires order != [] && order[0] in users
    ensures acc[order[0] := users[order[0]]] + Restricted(users, order[1..]) == acc + Restricted(users, order)
  {
    assert order == [order[0]] + order[1..];
  }

  lemma {:induction false} LinesLoad(order: seq<Name>, users: Users, acc: Users, k: nat, h: Hasher)
    requires WellFormed(users) && forall n :: n in order ==> n in users && Lacks(users[n], SPACE)
    ensures LoadLines(acc, DumpLines(order, users), k, h) == Ok(acc + Restricted(users, order))
    decreases |order|
  {
    hide LoadLine, DumpLine, Lacks, WellFormedUser;
    if order == [] {
      assert acc + Restricted(users, order) == acc;
    } else {
      var n := order[0];
      assert n in order;
      assert DumpLines(order, users) == [DumpLine(users[n])] + DumpLines(order[1..], users);
      hide LoadLines, DumpLines, Restricted;
      LineLoads(acc, users[n], k, h);
      LineThen(acc, acc[n := users[n]], DumpLine(users[n]), DumpLines(order[1..], users), k, h);
      LinesLoad(order[1..], users, acc[n := users[n]], k + 1, h);
      MoreUsers(order, users, acc);
    }
  }

  lemma {:induction false} DumpLinesAre(order: seq<Name>, users: Users, i: nat)
    requires i < |order| && forall n :: n in order ==> n in users
    ensures DumpLines(order, users)[i] == DumpLine(users[order[i]])
    decreases |order|
  {
    hide DumpLine;
    if i > 0 {
      DumpLinesAre(order[1..], users, i - 1);
    }
  }

  /** Clean users come back exactly as they were saved. */
  lemma CleanUsersLoad(order: seq<Name>, users: Users, h: Hasher)
    requires WellFormed(users) && Lists(order, users) && DEFAULT in users && AllClean(users)
    requires NoReturns(DumpLines(order, users))
    ensures Load(Join(DumpLines(order, users), LF), h) == Ok(users)
  {
    hide WellFormed, NoReturns, Restricted, LoadLines, DumpLine;
    var lines := DumpLines(order, users);
    assert order != [] && lines != [];
    forall i | 0 <= i < |lines| ensures LF !in lines[i] && !Blank(lines[i]) {
      DumpLinesAre(order, users, i);
      assert order[i] in order;
      LineLacksLf(users[order[i]]);
      LineIsNotBlank(users[order[i]]);
    }
    hide Blank;
    SplitJoin(lines, LF);
    StripKeeps(lines);
    NotBlankKeeps(lines);
    LinesLoad(order, users, map[], 0, h);
    WholeTable(order, users);
  }

  lemma WholeTable(order: seq<Name>, users: Users)
    requires forall n :: n in order <==> n in users
    ensures map[] + Restricted(users, order) == users
  {
  }

  // ------------------------------------------------------------ what can come out of a text

  lemma TokenKeepsClean(u: User, name: Name, t: bytes, secret: Secret, b: byte)
    requires Lacks(u, b) && b !in name && b !in t && (b == SPACE || b == LF)
    requires ApplyToken(u, name, t, secret).Ok?
    ensures Lacks(ApplyToken(u, name, t, secret).value, b)
  {
    hide ApplyToken, Lacks, RulesShape, PatternsShape;
    TokenShape(u, name, t, secret);
    var u' := ApplyToken(u, name, t, secret).value;
    if RulesShape(u, u', t) {
      RulesKeepClean(u, u', t, b);
    } else if PatternsShape(u, u', t) {
      PatternsKeepClean(u, u', t, b);
    } else {
      ResetIsClean(name, b);
    }
  }

  lemma ResetIsClean(name: Name, b: byte)
    requires b !in name
    ensures Lacks(NewRestricted(name), b)
  {
  }

  lemma RulesKeepClean(u: User, u': User, t: bytes, b: byte)
    requires Lacks(u, b) && b !in t && b < 65 && RulesShape(u, u', t)
    ensures Lacks(u', b)
  {
    hide ParseRule;
    if t != [] && ParseRule(t[1..], t[0] == PLUS).Ok? {
      assert t == [t[0]] + t[1..];
      RuleKeepsClean(u, t[1..], t[0] == PLUS, b);
    }
  }

  lemma PatternsKeepClean(u: User, u': User, t: bytes, b: byte)
    requires Lacks(u, b) && b !in t && b != STAR && PatternsShape(u, u', t)
    ensures Lacks(u', b)
  {
    if t != [] {
      assert t == [t[0]] + t[1..];
    }
  }

  /** What a token can do to the texts a user carries. */
  ghost predicate Shape(u: User, u': User, name: Name, t: bytes) {
    u' == NewRestricted(name) || RulesShape(u, u', t) || PatternsShape(u, u', t)
  }

  ghost predicate RulesShape(u: User, u': User, t: bytes) {
    && u'.name == u.name && u'.patterns == u.patterns
    && (u'.rules == u.rules || u'.rules == [] || u'.rules == [AllowCat(All)] ||
        (t != [] && ParseRule(t[1..], t[0] == PLUS).Ok? &&
         u'.rules == u.rules + [ParseRule(t[1..], t[0] == PLUS).value]))
  }

  ghost predicate PatternsShape(u: User, u': User, t: bytes) {
    && u'.name == u.name && u'.rules == u.rules
    && (u'.patterns == [] || u'.patterns == [[STAR]] || (t != [] && u'.patterns == u.patterns + [t[1..]]))
  }

  lemma TokenShape(u: User, name: Name, t: bytes, secret: Secret)
    requires ApplyToken(u, name, t, secret).Ok?
    ensures Shape(u, ApplyToken(u, name, t, secret).value, name, t)
  {
    hide Lower, ApplyWord, ApplyPrefixed, Shape;
    WordShape(u, name, Lower(t), t);
    PrefixShape(u, name, t, secret);
  }

  /** The words that touch no rule and no pattern. */
  ghost predicate SwitchEffect(u: User, u': User) {
    u' == u.(enabled := u'.enabled) || u' == u.(password := u'.password)
  }

  /** The words that empty or open one of the two lists. */
  ghost predicate ListEffect(u: User, u': User) {
    || u' == u.(patterns := [[STAR]]) || u' == u.(patterns := [])
    || u' == u.(rules := [AllowCat(All)]) || u' == u.(rules := [])
  }

  lemma WordEffect(u: User, name: Name, word: bytes)
    requires ApplyWord(u, name, word).Some?
    ensures var u' := ApplyWord(u, name, word).value;
      SwitchEffect(u, u') || ListEffect(u, u') || u' == NewRestricted(name)
  {
    hide NewRestricted;
  }

  lemma SwitchShape(u: User, u': User, t: bytes)
    requires SwitchEffect(u, u')
    ensures RulesShape(u, u', t)
  {
    hide ParseRule;
  }

  lemma ListShape(u: User, u': User, t: bytes)
    requires ListEffect(u, u')
    ensures RulesShape(u, u', t) || PatternsShape(u, u', t)
  {
    hide ParseRule;
  }

  lemma WordShape(u: User, name: Name, word: bytes, t: bytes)
    ensures ApplyWord(u, name, word).Some? ==> Shape(u, ApplyWord(u, name, word).value, name, t)
  {
    hide ApplyWord, NewRestricted, RulesShape, PatternsShape, SwitchEffect, ListEffect;
    if ApplyWord(u, name, word).Some? {
      WordEffect(u, name, word);
      var u' := ApplyWord(u, name, word).value;
      if SwitchEffect(u, u') {
        SwitchShape(u, u', t);
      } else if ListEffect(u, u') {
        ListShape(u, u', t);
      }
    }
  }

  lemma PrefixShape(u: User, name: Name, t: bytes, secret: Secret)
    ensures ApplyPrefixed(u, t, secret).Ok? ==> Shape(u, ApplyPrefixed(u, t, secret).value, name, t)
  {
    hide ParseHashed, ParseRule;
  }

  lemma RuleKeepsClean(u: User, rest: bytes, allow: bool, b: byte)
    requires Lacks(u, b) && b !in rest && b < 65 && ParseRule(rest, allow).Ok?
    ensures Lacks(u.(rules := u.rules + [ParseRule(rest, allow).value]), b)
  {
    CaseKeepsOut(rest, b);
    hide ParseCategory, Upper;
  }

  lemma {:induction false} TokensKeepClean(u: User, name: Name, tokens: seq<bytes>, line: nat, at: nat, h: Hasher,
                                           b: byte)
    requires Lacks(u, b) && b !in name && Free(tokens, b) && (b == SPACE || b == LF)
    requires SetTokens(u, name, tokens, line, at, h).Ok?
    ensures Lacks(SetTokens(u, name, tokens, line, at, h).value, b)
    decreases |tokens|
  {
    hide ApplyToken, Lacks;
    if tokens != [] {
      var t := tokens[0];
      var s := h(line, at, if t == [] then [] else t[1..]);
      TokenKeepsClean(u, name, t, s, b);
      TokensKeepClean(ApplyToken(u, name, t, s).value, name, tokens[1..], line, at + 1, h, b);
    }
  }

  lemma LineKeepsClean(users: Users, line: bytes, k: nat, h: Hasher)
    requires AllClean(users) && LF !in line && LoadLine(users, line, k, h).Ok?
    ensures AllClean(LoadLine(users, line, k, h).value)
  {
    hide SetTokens, Split;
    var parts := Split(line, SPACE);
    SplitIsFree(line, SPACE);
    SplitKeepsOut(line, SPACE, LF);
    var u := UserOr(users, parts[0]);
    assert SPACE !in parts[0] && LF !in parts[0];
    assert Clean(u);
    TokensKeepClean(u, parts[0], parts[1..], k, 0, h, SPACE);
    TokensKeepClean(u, parts[0], parts[1..], k, 0, h, LF);
    hide Lacks;
  }

  lemma {:induction false} LinesKeepClean(users: Users, lines: seq<bytes>, k: nat, h: Hasher)
    requires AllClean(users) && Free(lines, LF) && LoadLines(users, lines, k, h).Ok?
    ensures AllClean(LoadLines(users, lines, k, h).value)
    decreases |lines|
  {
    hide LoadLine, AllClean;
    if lines != [] {
      LineKeepsClean(users, lines[0], k, h);
      LinesKeepClean(LoadLine(users, lines[0], k, h).value, lines[1..], k + 1, h);
    }
  }

  lemma {:induction false} StripKeepsFree(pieces: seq<bytes>, b: byte)
    requires Free(pieces, b)
    ensures Free(StripReturns(pieces), b)
    decreases |pieces|
  {
    if |pieces| > 1 {
      StripKeepsFree(pieces[1..], b);
    }
  }

  lemma {:induction false} NotBlankKeepsFree(lines: seq<bytes>, b: byte)
    requires Free(lines, b)
    ensures Free(NotBlank(lines), b)
    decreases |lines|
  {
    hide Blank;
    if lines != [] {
      NotBlankKeepsFree(lines[1..], b);
    }
  }

  /** Nothing but clean users can be loaded, from any text at all. */
  lemma LoadedAreClean(text: bytes, h: Hasher)
    requires Load(text, h).Ok?
    ensures AllClean(Load(text, h).value)
  {
    hide Split, StripReturns, NotBlank, LoadLines, Clean;
    SplitIsFree(text, LF);
    StripKeepsFree(Split(text, LF), LF);
    NotBlankKeepsFree(StripReturns(Split(text, LF)), LF);
    LinesKeepClean(map[], NotBlank(StripReturns(Split(text, LF))), 0, h);
  }
}
