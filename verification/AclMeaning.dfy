/**
 * What a list of `ACL SETUSER` tokens grants: who may log in, which commands may be run and
 * which keys touched afterwards is read off the tokens themselves, in their own spelling.
 */
module AclMeaning {
  import opened Base
  import opened Text
  import opened Acl
  import Glob
  import Resp

  // ------------------------------------------------------------ spelling

  /** The token is the word, in any letter case. */
  predicate Says(t: bytes, word: string) {
    |t| == |word| && forall i :: 0 <= i < |t| ==> Letter(t[i], word[i])
  }

  predicate Letter(b: byte, c: char) {
    b == c as int || ('a' <= c <= 'z' && b == c as int - 32)
  }

  /** The command, in capitals, that the text names. */
  predicate Capitals(text: bytes, cmd: bytes) {
    |text| == |cmd| && forall i :: 0 <= i < |text| ==> cmd[i] == if 97 <= text[i] <= 122 then text[i] - 32 else text[i]
  }

  predicate NamesCategory(s: bytes, c: Category) {
    match c
    case All => Says(s, "all") || Says(s, "*")
    case Read => Says(s, "read")
    case Write => Says(s, "write")
    case Admin => Says(s, "admin")
    case Dangerous => Says(s, "dangerous")
    case PubSub => Says(s, "pubsub")
    case Vector => Says(s, "vector")
    case TimeSeries => Says(s, "timeseries")
    case Memory => Says(s, "memory") || Says(s, "rag")
    case Table => Says(s, "table")
    case Reduce => Says(s, "reduce")
    case Connection => Says(s, "connection")
  }

  lemma SaysLower(t: bytes, word: string, w: bytes)
    requires |word| == |w| && forall i :: 0 <= i < |w| ==> word[i] as int == w[i] && !('A' <= word[i] <= 'Z')
    ensures Says(t, word) <==> Lower(t) == w
  {
    if Says(t, word) {
      forall i | 0 <= i < |t| ensures Lower(t)[i] == w[i] {
        assert Letter(t[i], word[i]);
      }
    }
    if Lower(t) == w {
      forall i | 0 <= i < |t| ensures Letter(t[i], word[i]) {
        assert Lower(t)[i] == w[i];
      }
    }
  }

  lemma SwitchWords(t: bytes)
    ensures Says(t, "on") <==> Lower(t) == ON
    ensures Says(t, "off") <==> Lower(t) == OFF
    ensures Says(t, "nopass") <==> Lower(t) == NOPASS
    ensures Says(t, "resetpass") <==> Lower(t) == RESETPASS
    ensures Says(t, "reset") <==> Lower(t) == RESET
  {
    hide Says, Lower;
    SaysLower(t, "on", ON);
    SaysLower(t, "off", OFF);
    SaysLower(t, "nopass", NOPASS);
    SaysLower(t, "resetpass", RESETPASS);
    SaysLower(t, "reset", RESET);
  }

  lemma ListWords(t: bytes)
    ensures Says(t, "allkeys") <==> Lower(t) == ALLKEYS
    ensures Says(t, "resetkeys") <==> Lower(t) == RESETKEYS
    ensures Says(t, "allcommands") <==> Lower(t) == ALLCOMMANDS
    ensures Says(t, "nocommands") <==> Lower(t) == NOCOMMANDS
  {
    hide Says, Lower;
    SaysLower(t, "allkeys", ALLKEYS);
    SaysLower(t, "resetkeys", RESETKEYS);
    SaysLower(t, "allcommands", ALLCOMMANDS);
    SaysLower(t, "nocommands", NOCOMMANDS);
  }

  lemma CategoryWords(s: bytes)
    ensures Says(s, "all") <==> Lower(s) == CAT_ALL
    ensures Says(s, "*") <==> Lower(s) == [STAR]
    ensures Says(s, "read") <==> Lower(s) == CAT_READ
    ensures Says(s, "write") <==> Lower(s) == CAT_WRITE
    ensures Says(s, "admin") <==> Lower(s) == CAT_ADMIN
    ensures Says(s, "dangerous") <==> Lower(s) == CAT_DANGEROUS
    ensures Says(s, "pubsub") <==> Lower(s) == CAT_PUBSUB
  {
    hide Says, Lower;
    SaysLower(s, "all", CAT_ALL);
    SaysLower(s, "*", [STAR]);
    SaysLower(s, "read", CAT_READ);
    SaysLower(s, "write", CAT_WRITE);
    SaysLower(s, "admin", CAT_ADMIN);
    SaysLower(s, "dangerous", CAT_DANGEROUS);
    SaysLower(s, "pubsub", CAT_PUBSUB);
  }

  lemma MoreCategoryWords(s: bytes)
    ensures Says(s, "vector") <==> Lower(s) == CAT_VECTOR
    ensures Says(s, "timeseries") <==> Lower(s) == CAT_TIMESERIES
    ensures Says(s, "memory") <==> Lower(s) == CAT_MEMORY
    ensures Says(s, "rag") <==> Lower(s) == CAT_RAG
    ensures Says(s, "table") <==> Lower(s) == CAT_TABLE
    ensures Says(s, "reduce") <==> Lower(s) == CAT_REDUCE
    ensures Says(s, "connection") <==> Lower(s) == CAT_CONNECTION
  {
    hide Says, Lower;
    SaysLower(s, "vector", CAT_VECTOR);
    SaysLower(s, "timeseries", CAT_TIMESERIES);
    SaysLower(s, "memory", CAT_MEMORY);
    SaysLower(s, "rag", CAT_RAG);
    SaysLower(s, "table", CAT_TABLE);
    SaysLower(s, "reduce", CAT_REDUCE);
    SaysLower(s, "connection", CAT_CONNECTION);
  }

  /** A text names at most one category, and it is the one that is read. */
  lemma CategoryIsNamed(s: bytes, c: Category)
    ensures ParseCategory(s) == Some(c) <==> NamesCategory(s, c)
  {
    hide Says, Lower;
    CategoryWords(s);
    MoreCategoryWords(s);
  }

  /** These commands are open to every enabled user. */
  lemma FreeCommands(cmd: bytes)
    ensures AlwaysFree(cmd) <==> exists w :: w in {"AUTH", "HELLO", "QUIT", "PING", "RESET"} && Spells(cmd, w)
  {
    SpellsIs(cmd, "AUTH", CMD_AUTH);
    SpellsIs(cmd, "HELLO", CMD_HELLO);
    SpellsIs(cmd, "QUIT", CMD_QUIT);
    SpellsIs(cmd, "PING", CMD_PING);
    SpellsIs(cmd, "RESET", CMD_RESET);
    hide Spells;
  }

  predicate Spells(t: bytes, word: string) {
    |t| == |word| && forall i :: 0 <= i < |t| ==> t[i] == word[i] as int
  }

  lemma SpellsIs(t: bytes, word: string, w: bytes)
    requires |word| == |w| && forall i :: 0 <= i < |w| ==> word[i] as int == w[i]
    ensures Spells(t, word) <==> t == w
  {
  }

  // ------------------------------------------------------------ one token

  /** The rest of a signed token is about this command. */
  predicate Names(rest: bytes, cmd: bytes, cats: seq<Category>) {
    if rest != [] && rest[0] == '@' as int then
      NamesCategory(rest[1..], All) || exists c :: c in cats && NamesCategory(rest[1..], c)
    else Capitals(rest, cmd)
  }

  predicate Signed(t: bytes) { t != [] && (t[0] == '+' as int || t[0] == '-' as int) }

  /** The token settles whether this command may be run. */
  predicate Settles(t: bytes, cmd: bytes, cats: seq<Category>) {
    || Says(t, "allcommands") || Says(t, "nocommands") || Says(t, "reset")
    || (Signed(t) && Names(t[1..], cmd, cats))
  }

  predicate Grants(t: bytes) { Says(t, "allcommands") || (t != [] && t[0] == '+' as int) }

  predicate OpensKey(t: bytes, key: bytes) {
    Says(t, "allkeys") || (t != [] && t[0] == '~' as int && Glob.Matches(t[1..], 0, key, 0))
  }

  predicate ClosesKeys(t: bytes) { Says(t, "resetkeys") || Says(t, "reset") }

  predicate TurnsOff(t: bytes) { Says(t, "off") || Says(t, "reset") }

  /** The token sets the password, or takes it away. */
  predicate SetsPassword(t: bytes) {
    || Says(t, "nopass") || Says(t, "resetpass") || Says(t, "reset")
    || (t != [] && (t[0] == '#' as int || t[0] == '>' as int))
  }

  predicate IsWord(t: bytes) {
    || Says(t, "on") || Says(t, "off") || Says(t, "nopass") || Says(t, "resetpass") || Says(t, "allkeys")
    || Says(t, "resetkeys") || Says(t, "allcommands") || Says(t, "nocommands") || Says(t, "reset")
  }

  /** The token is one the command knows. */
  predicate Known(t: bytes) {
    IsWord(t) || (t != [] && KnownPrefix(t[0], t[1..]))
  }

  predicate KnownPrefix(first: byte, rest: bytes) {
    || first == '>' as int || first == '~' as int
    || (first == '#' as int && ParseHashed(rest).Some?)
    || ((first == '+' as int || first == '-' as int) && rest != []
        && (rest[0] == '@' as int ==> exists c :: NamesCategory(rest[1..], c)))
  }

  lemma RuleMeans(rest: bytes, allow: bool, cmd: bytes, cats: seq<Category>)
    ensures ParseRule(rest, allow).Ok? <==>
      rest != [] && (rest[0] == '@' as int ==> exists c :: NamesCategory(rest[1..], c))
    ensures ParseRule(rest, allow).Ok? ==>
      && Allows(ParseRule(rest, allow).value) == allow
      && (Applies(ParseRule(rest, allow).value, cmd, cats) <==> Names(rest, cmd, cats))
  {
    hide ParseCategory, NamesCategory;
    if rest != [] && rest[0] == AT {
      forall c: Category ensures ParseCategory(rest[1..]) == Some(c) <==> NamesCategory(rest[1..], c) {
        CategoryIsNamed(rest[1..], c);
      }
    } else {
      CapitalsUpper(rest, cmd);
    }
  }

  lemma CapitalsUpper(text: bytes, cmd: bytes)
    ensures Capitals(text, cmd) <==> Upper(text) == cmd
  {
  }

  /** No word starts like the other tokens. */
  lemma WordsStartWithLetters(t: bytes)
    requires t != [] && (t[0] == HASH || t[0] == GREATER || t[0] == TILDE || t[0] == PLUS || t[0] == MINUS)
    ensures !IsWord(t)
  {
  }

  lemma WordApplies(u: User, name: Name, t: bytes)
    ensures ApplyWord(u, name, Lower(t)).Some? <==> IsWord(t)
  {
    hide Says, Lower;
    SwitchWords(t);
    ListWords(t);
  }

  /** A token is accepted exactly if it is known. */
  lemma KnownIsAccepted(u: User, name: Name, t: bytes, secret: Secret)
    ensures ApplyToken(u, name, t, secret).Ok? <==> Known(t)
  {
    hide ApplyWord, IsWord, ParseRule, ParseHashed, NamesCategory, Lower;
    WordApplies(u, name, t);
    if t != [] {
      RuleMeans(t[1..], t[0] == PLUS, [], []);
    }
  }

  /** What the token says about running the command, touching the key, and being switched on. */
  ghost function AboutCommand(t: bytes, cmd: bytes, cats: seq<Category>): Option<bool> {
    if Settles(t, cmd, cats) then Some(Grants(t)) else None
  }

  ghost function AboutKey(t: bytes, key: bytes): Option<bool> {
    if OpensKey(t, key) then Some(true) else if ClosesKeys(t) then Some(false) else None
  }

  ghost function AboutSwitch(t: bytes): Option<bool> {
    if Says(t, "on") then Some(true) else if TurnsOff(t) then Some(false) else None
  }

  /** The password a token leaves; `secret` is the hash of a clear-text one. */
  ghost function PasswordBy(t: bytes, secret: Secret): Option<Secret> {
    if Says(t, "nopass") || t == [] then None
    else if t[0] == '#' as int then ParseHashed(t[1..])
    else if t[0] == '>' as int then Some(secret)
    else Some(Hashed(Repeat(0, 16), Repeat(255, 32)))
  }

  ghost function Or(said: Option<bool>, before: bool): bool {
    if said.Some? then said.value else before
  }

  /** The one difference a known token makes. */
  lemma TokenCommands(u: User, name: Name, t: bytes, secret: Secret, cmd: bytes, cats: seq<Category>)
    requires ApplyToken(u, name, t, secret).Ok?
    ensures var v := ApplyToken(u, name, t, secret).value;
      LastWordAllows(v.rules, cmd, cats) <==> Or(AboutCommand(t, cmd, cats), LastWordAllows(u.rules, cmd, cats))
  {
    hide Says, Lower, ParseRule, ParseHashed, LastWordAllows, Names, Applies, Allows;
    SwitchWords(t);
    ListWords(t);
    NoRules(cmd, cats);
    AllCommands(cmd, cats);
    if t != [] {
      RuleMeans(t[1..], t[0] == PLUS, cmd, cats);
      if Signed(t) {
        WordsStartWithLetters(t);
        WordApplies(u, name, t);
        var r := ParseRule(t[1..], t[0] == PLUS).value;
        OneMoreRule(u.rules, r, cmd, cats);
      }
      if t[0] == PLUS {
        WordsStartWithLetters(t);
      }
    }
  }

  lemma NoRules(cmd: bytes, cats: seq<Category>)
    ensures !LastWordAllows([], cmd, cats)
  {
  }

  lemma AllCommands(cmd: bytes, cats: seq<Category>)
    ensures LastWordAllows([AllowCat(All)], cmd, cats)
  {
    assert FinalWord([AllowCat(All)], 0, cmd, cats);
  }

  lemma TokenKeys(u: User, name: Name, t: bytes, secret: Secret, key: bytes)
    requires ApplyToken(u, name, t, secret).Ok?
    ensures var v := ApplyToken(u, name, t, secret).value;
      MayTouch(v, key) <==> Or(AboutKey(t, key), MayTouch(u, key))
  {
    var v := ApplyToken(u, name, t, secret).value;
    hide Says, Lower, ParseRule, ParseHashed, Glob.Matches;
    SwitchWords(t);
    ListWords(t);
    if t != [] && t[0] == TILDE {
      WordsStartWithLetters(t);
      WordApplies(u, name, t);
      OnePatternMore(u, v, t[1..], key);
    } else if Says(t, "allkeys") {
      SuperuserMayAll(name, [], [], key);
      SameKeys(Superuser(name), v, key);
    } else if ClosesKeys(t) {
    } else {
      SameKeys(u, v, key);
    }
  }

  lemma SameKeys(u: User, v: User, key: bytes)
    requires u.patterns == v.patterns
    ensures MayTouch(u, key) <==> MayTouch(v, key)
  {
  }

  lemma OnePatternMore(u: User, v: User, p: bytes, key: bytes)
    requires v.patterns == u.patterns + [p]
    ensures MayTouch(v, key) <==> MayTouch(u, key) || Glob.Matches(p, 0, key, 0)
  {
    hide Glob.Matches;
    if Glob.Matches(p, 0, key, 0) {
      assert v.patterns[|u.patterns|] == p;
    }
    if MayTouch(u, key) {
      var i :| 0 <= i < |u.patterns| && Glob.Matches(u.patterns[i], 0, key, 0);
      assert v.patterns[i] == u.patterns[i];
    }
  }

  lemma TokenSwitch(u: User, name: Name, t: bytes, secret: Secret)
    requires ApplyToken(u, name, t, secret).Ok?
    ensures ApplyToken(u, name, t, secret).value.enabled == Or(AboutSwitch(t), u.enabled)
  {
    hide Says, Lower, ParseRule, ParseHashed;
    SwitchWords(t);
    ListWords(t);
  }

  lemma TokenPassword(u: User, name: Name, t: bytes, secret: Secret)
    requires ApplyToken(u, name, t, secret).Ok?
    ensures ApplyToken(u, name, t, secret).value.password ==
      if SetsPassword(t) then PasswordBy(t, secret) else u.password
  {
    if t != [] && (t[0] == HASH || t[0] == GREATER) {
      WordsStartWithLetters(t);
      WordApplies(u, name, t);
    }
    hide Says, Lower, ParseRule, ParseHashed, Repeat;
    SwitchWords(t);
    ListWords(t);
  }

  // ------------------------------------------------------------ token lists

  /** The last token that says anything says yes; if none does, it stays as it was. */
  ghost predicate Decided(before: bool, about: bytes -> Option<bool>, tokens: seq<bytes>) {
    || (before && forall k :: 0 <= k < |tokens| ==> about(tokens[k]).None?)
    || exists i :: LastYes(about, tokens, i)
  }

  ghost predicate LastYes(about: bytes -> Option<bool>, tokens: seq<bytes>, i: int) {
    && 0 <= i < |tokens| && about(tokens[i]) == Some(true)
    && forall k :: i < k < |tokens| ==> about(tokens[k]).None?
  }

  lemma FirstDecides(before: bool, about: bytes -> Option<bool>, tokens: seq<bytes>)
    requires tokens != []
    ensures Decided(before, about, tokens) <==> Decided(Or(about(tokens[0]), before), about, tokens[1..])
  {
    var rest := tokens[1..];
    assert tokens == [tokens[0]] + rest;
    forall i | 0 <= i < |rest| ensures LastYes(about, rest, i) <==> LastYes(about, tokens, i + 1) {
      LaterYes(about, tokens, i);
    }
    if (forall k :: 0 <= k < |rest| ==> about(rest[k]).None?) && about(tokens[0]) == Some(true) {
      assert LastYes(about, tokens, 0);
    }
    if i :| LastYes(about, tokens, i) {
      if i > 0 {
        assert LastYes(about, rest, i - 1);
      } else {
        assert forall k :: 0 <= k < |rest| ==> rest[k] == tokens[k + 1];
      }
    }
    if i :| LastYes(about, rest, i) {
      assert LastYes(about, tokens, i + 1);
    }
    if before && forall k :: 0 <= k < |tokens| ==> about(tokens[k]).None? {
      assert forall k :: 0 <= k < |rest| ==> rest[k] == tokens[k + 1];
    }
    if before && about(tokens[0]).None? && forall k :: 0 <= k < |rest| ==> about(rest[k]).None? {
      assert forall k :: 0 <= k < |tokens| ==> tokens[k] == if k == 0 then tokens[0] else rest[k - 1];
    }
  }

  lemma LaterYes(about: bytes -> Option<bool>, tokens: seq<bytes>, i: nat)
    requires i < |tokens| - 1
    ensures LastYes(about, tokens[1..], i) <==> LastYes(about, tokens, i + 1)
  {
    var rest := tokens[1..];
    assert forall k :: 0 <= k < |rest| ==> rest[k] == tokens[k + 1];
    assert forall k :: 0 < k < |tokens| ==> tokens[k] == rest[k - 1];
  }

  /** Whether a command is allowed after a list of tokens is what the last token about it says. */
  lemma {:induction false} TokensDecideCommands(u: User, name: Name, tokens: seq<bytes>, line: nat, at: nat, h: Hasher,
                                                cmd: bytes, cats: seq<Category>)
    requires SetTokens(u, name, tokens, line, at, h).Ok?
    ensures LastWordAllows(SetTokens(u, name, tokens, line, at, h).value.rules, cmd, cats) <==>
      Decided(LastWordAllows(u.rules, cmd, cats), t => AboutCommand(t, cmd, cats), tokens)
    decreases |tokens|
  {
    hide ApplyToken, LastWordAllows, AboutCommand, Decided;
    var about := t => AboutCommand(t, cmd, cats);
    if tokens == [] {
      NothingSaid(LastWordAllows(u.rules, cmd, cats), about);
    } else {
      var t := tokens[0];
      var secret := h(line, at, if t == [] then [] else t[1..]);
      var u' := ApplyToken(u, name, t, secret).value;
      TokenCommands(u, name, t, secret, cmd, cats);
      TokensDecideCommands(u', name, tokens[1..], line, at + 1, h, cmd, cats);
      FirstDecides(LastWordAllows(u.rules, cmd, cats), about, tokens);
    }
  }

  lemma NothingSaid(before: bool, about: bytes -> Option<bool>)
    ensures Decided(before, about, []) <==> before
  {
  }

  lemma {:induction false} TokensDecideKeys(u: User, name: Name, tokens: seq<bytes>, line: nat, at: nat, h: Hasher,
                                            key: bytes)
    requires SetTokens(u, name, tokens, line, at, h).Ok?
    ensures MayTouch(SetTokens(u, name, tokens, line, at, h).value, key) <==>
      Decided(MayTouch(u, key), t => AboutKey(t, key), tokens)
    decreases |tokens|
  {
    hide ApplyToken, MayTouch, AboutKey, Decided;
    var about := t => AboutKey(t, key);
    if tokens == [] {
      NothingSaid(MayTouch(u, key), about);
    } else {
      var t := tokens[0];
      var secret := h(line, at, if t == [] then [] else t[1..]);
      TokenKeys(u, name, t, secret, key);
      TokensDecideKeys(ApplyToken(u, name, t, secret).value, name, tokens[1..], line, at + 1, h, key);
      FirstDecides(MayTouch(u, key), about, tokens);
    }
  }

  lemma {:induction false} TokensDecideSwitch(u: User, name: Name, tokens: seq<bytes>, line: nat, at: nat, h: Hasher)
    requires SetTokens(u, name, tokens, line, at, h).Ok?
    ensures SetTokens(u, name, tokens, line, at, h).value.enabled <==>
      Decided(u.enabled, t => AboutSwitch(t), tokens)
    decreases |tokens|
  {
    hide ApplyToken, AboutSwitch, Decided;
    var about := t => AboutSwitch(t);
    if tokens == [] {
      NothingSaid(u.enabled, about);
    } else {
      var t := tokens[0];
      var secret := h(line, at, if t == [] then [] else t[1..]);
      TokenSwitch(u, name, t, secret);
      TokensDecideSwitch(ApplyToken(u, name, t, secret).value, name, tokens[1..], line, at + 1, h);
      FirstDecides(u.enabled, about, tokens);
    }
  }

  /** The last token about the password decides it. */
  lemma {:induction false} TokensDecidePassword(u: User, name: Name, tokens: seq<bytes>, line: nat, at: nat, h: Hasher,
                                                i: int)
    requires SetTokens(u, name, tokens, line, at, h).Ok?
    requires -1 <= i < |tokens| && (i >= 0 ==> SetsPassword(tokens[i]))
    requires forall k :: i < k < |tokens| ==> !SetsPassword(tokens[k])
    ensures SetTokens(u, name, tokens, line, at, h).value.password ==
      if i < 0 then u.password
      else PasswordBy(tokens[i], h(line, at + i, if tokens[i] == [] then [] else tokens[i][1..]))
    decreases |tokens|
  {
    hide ApplyToken, SetsPassword, PasswordBy;
    if tokens != [] {
      var t := tokens[0];
      var secret := h(line, at, if t == [] then [] else t[1..]);
      TokenPassword(u, name, t, secret);
      assert tokens == [t] + tokens[1..];
      TokensDecidePassword(ApplyToken(u, name, t, secret).value, name, tokens[1..], line, at + 1, h,
                           if i > 0 then i - 1 else -1);
    }
  }

  lemma {:induction false} AllKnown(u: User, name: Name, tokens: seq<bytes>, line: nat, at: nat, h: Hasher)
    ensures SetTokens(u, name, tokens, line, at, h).Ok? <==> forall k :: 0 <= k < |tokens| ==> Known(tokens[k])
    decreases |tokens|
  {
    hide ApplyToken, Known;
    if tokens != [] {
      var t := tokens[0];
      var secret := h(line, at, if t == [] then [] else t[1..]);
      KnownIsAccepted(u, name, t, secret);
      assert tokens == [t] + tokens[1..];
      if ApplyToken(u, name, t, secret).Ok? {
        AllKnown(ApplyToken(u, name, t, secret).value, name, tokens[1..], line, at + 1, h);
      }
    }
  }

  /**
   * `ACL SETUSER` grants what its tokens say: it takes a list exactly if it knows every token,
   * leaves everyone else alone, and then a command is allowed, a key open, and the user on
   * according to the last token about it. A user that is new starts off, without commands or keys.
   */
  lemma SetUserMeans(users: Users, name: Name, tokens: seq<bytes>, line: nat, h: Hasher, cmd: bytes,
                     cats: seq<Category>, key: bytes)
    ensures SetUserIn(users, name, tokens, line, h).Ok? <==> forall k :: 0 <= k < |tokens| ==> Known(tokens[k])
    ensures SetUserIn(users, name, tokens, line, h).Ok? ==>
      var users' := SetUserIn(users, name, tokens, line, h).value;
      var commandBefore := name in users && LastWordAllows(users[name].rules, cmd, cats);
      var keyBefore := name in users && MayTouch(users[name], key);
      && users'.Keys == users.Keys + {name}
      && (forall n :: n in users && n != name ==> users'[n] == users[n])
      && (users'[name].enabled <==>
            Decided(name in users && users[name].enabled, t => AboutSwitch(t), tokens))
      && (MayRun(users'[name], cmd, cats) <==>
            && users'[name].enabled
            && (AlwaysFree(cmd) || Decided(commandBefore, t => AboutCommand(t, cmd, cats), tokens)))
      && (MayTouch(users'[name], key) <==> Decided(keyBefore, t => AboutKey(t, key), tokens))
  {
    var u := UserOr(users, name);
    AllKnown(u, name, tokens, line, 0, h);
    NoRules(cmd, cats);
    assert name !in users ==> !MayTouch(u, key) && !u.enabled && u.rules == [];
    hide SetTokens, Known, LastWordAllows, MayTouch, Decided, AboutSwitch, AboutKey, AboutCommand, AlwaysFree;
    if SetUserIn(users, name, tokens, line, h).Ok? {
      TokensDecideCommands(u, name, tokens, line, 0, h, cmd, cats);
      TokensDecideKeys(u, name, tokens, line, 0, h, key);
      TokensDecideSwitch(u, name, tokens, line, 0, h);
    }
  }

  // ------------------------------------------------------------ hashes

  const HEX := "0123456789abcdef"

  /** A hash is saved as two digits of base 16 a byte, the high one first. */
  lemma {:induction false} HexDigits(s: bytes, i: nat)
    requires i < |s|
    ensures |EncodeHex(s)| == 2 * |s|
    ensures EncodeHex(s)[2 * i] == HEX[s[i] / 16] as int && EncodeHex(s)[2 * i + 1] == HEX[s[i] % 16] as int
  {
    if |s| > 1 {
      HexDigits(s[1..], if i > 0 then i - 1 else 0);
    }
    DigitIs(s[0] / 16);
    DigitIs(s[0] % 16);
  }

  lemma DigitIs(n: nat)
    requires n < 16
    ensures HexDigit(n) == HEX[n] as int
  {
  }

  // ------------------------------------------------------------ a text of many lines

  /** The users that the lines of a text describe, one after the other. */
  ghost function Staged(text: bytes, h: Hasher): Result<Users, Error> {
    LoadLines(map[], NotBlank(StripReturns(Split(text, LF))), 0, h)
  }

  lemma {:induction false} SplitTwo(a: bytes, sep: byte, b: bytes)
    ensures Split(a + [sep] + b, sep) == Split(a, sep) + Split(b, sep)
    decreases |a|
  {
    var all := a + [sep] + b;
    if a == [] {
      assert all[1..] == b;
    } else {
      assert all[1..] == a[1..] + [sep] + b;
      SplitTwo(a[1..], sep, b);
    }
  }

  /** Every piece but the last one is a whole line. */
  function Ended(pieces: seq<bytes>): seq<bytes> {
    if pieces == [] then [] else [Resp.WithoutCr(pieces[0])] + Ended(pieces[1..])
  }

  lemma {:induction false} StripTwo(p: seq<bytes>, q: seq<bytes>)
    requires q != []
    ensures StripReturns(p + q) == Ended(p) + StripReturns(q)
    decreases |p|
  {
    if p == [] {
      assert p + q == q;
    } else {
      assert (p + q)[1..] == p[1..] + q;
      StripTwo(p[1..], q);
    }
  }

  lemma {:induction false} NotBlankTwo(p: seq<bytes>, q: seq<bytes>)
    ensures NotBlank(p + q) == NotBlank(p) + NotBlank(q)
    decreases |p|
  {
    if p == [] {
      assert p + q == q;
    } else {
      assert (p + q)[1..] == p[1..] + q;
      NotBlankTwo(p[1..], q);
    }
  }

  /** The lines of two texts, one below the other. */
  lemma LinesTwo(a: bytes, b: bytes)
    ensures NotBlank(StripReturns(Split(a + [LF] + b, LF))) ==
      NotBlank(Ended(Split(a, LF))) + NotBlank(StripReturns(Split(b, LF)))
  {
    SplitTwo(a, LF, b);
    StripTwo(Split(a, LF), Split(b, LF));
    NotBlankTwo(Ended(Split(a, LF)), StripReturns(Split(b, LF)));
  }

  lemma OnePiece(line: bytes)
    requires LF !in line
    ensures Split(line, LF) == [line] && StripReturns(Split(line, LF)) == [line]
  {
    SplitPrefix(line, [], LF);
    assert line + [] == line;
  }

  lemma {:induction false} LinesThen(users: Users, p: seq<bytes>, q: seq<bytes>, k: nat, h: Hasher)
    ensures LoadLines(users, p + q, k, h) ==
      match LoadLines(users, p, k, h)
      case Ok(users') => LoadLines(users', q, k + |p|, h)
      case Err(e) => Err(e)
    decreases |p|
  {
    hide LoadLine;
    if p == [] {
      assert p + q == q;
    } else {
      assert (p + q)[1..] == p[1..] + q;
      match LoadLine(users, p[0], k, h)
      case Ok(users') => LinesThen(users', p[1..], q, k + 1, h);
      case Err(_) =>
    }
  }

  lemma OneLine(users: Users, line: bytes, k: nat, h: Hasher)
    ensures LoadLines(users, [line], k, h) == SetUserIn(users, Split(line, SPACE)[0], Split(line, SPACE)[1..], k, h)
  {
    hide SetUserIn, Split;
    assert [line][1..] == [];
  }

  lemma LinesBefore(a: bytes, line: bytes) returns (before: seq<bytes>)
    requires LF !in line && !Blank(line)
    ensures NotBlank(StripReturns(Split(a + [LF], LF))) == before
    ensures NotBlank(StripReturns(Split(a + [LF] + line, LF))) == before + [line]
  {
    LinesTwo(a, line);
    LinesTwo(a, []);
    OnePiece(line);
    OnePiece([]);
    assert a + [LF] + [] == a + [LF];
    before := NotBlank(Ended(Split(a, LF)));
    EmptyIsBlank();
    OneIsKept(line);
    hide Split, StripReturns, NotBlank, Ended, Blank;
    assert before + [] == before;
  }

  lemma OneIsKept(line: bytes)
    requires !Blank(line)
    ensures NotBlank([line]) == [line]
  {
    hide Blank;
    assert [line][1..] == [];
  }

  /** The first word of a line is the user, the others are tokens; later lines see what earlier ones did. */
  lemma LastLineApplies(a: bytes, line: bytes, h: Hasher)
    requires LF !in line && !Blank(line)
    ensures Staged(a + [LF] + line, h) ==
      match Staged(a + [LF], h)
      case Ok(users) =>
        var k := |NotBlank(StripReturns(Split(a + [LF], LF)))|;
        SetUserIn(users, Split(line, SPACE)[0], Split(line, SPACE)[1..], k, h)
      case Err(e) => Err(e)
  {
    hide Split, StripReturns, NotBlank, SetUserIn, Blank, LoadLines;
    var before := LinesBefore(a, line);
    LinesThen(map[], before, [line], 0, h);
    match LoadLines(map[], before, 0, h)
    case Ok(users) => OneLine(users, line, |before|, h);
    case Err(_) =>
  }

  lemma EmptyIsBlank()
    ensures Blank([]) && NotBlank([[]]) == []
  {
  }

  /** White space of ASCII. */
  predicate AllWhite(s: bytes) {
    forall i :: 0 <= i < |s| ==> s[i] == ' ' as int || '\t' as int <= s[i] <= '\r' as int
  }

  lemma {:induction false} WhiteIsBlank(s: bytes)
    requires AllWhite(s)
    ensures Blank(s)
    decreases |s|
  {
    if s == [] {
      EmptyIsBlank();
    } else {
      WhiteIsBlank(s[1..]);
    }
  }

  /** A line of white space changes nothing. */
  lemma BlankLinesAreSkipped(a: bytes, blank: bytes, b: bytes, h: Hasher)
    requires LF !in blank && AllWhite(blank)
    ensures Load(a + [LF] + blank + [LF] + b, h) == Load(a + [LF] + b, h)
  {
    var rest := blank + [LF] + b;
    assert a + [LF] + blank + [LF] + b == a + [LF] + rest;
    LinesTwo(a, rest);
    LinesTwo(a, b);
    LinesTwo(blank, b);
    OnePiece(blank);
    WhiteEnds(blank);
    hide Split, StripReturns, NotBlank, Ended, LoadLines;
    NoneBefore(NotBlank(StripReturns(Split(b, LF))));
  }

  lemma NoneBefore(lines: seq<bytes>)
    ensures [] + lines == lines
  {
  }

  lemma WhiteEnds(blank: bytes)
    requires AllWhite(blank)
    ensures NotBlank(Ended([blank])) == []
  {
    var line: bytes := Resp.WithoutCr(blank);
    WhiteIsBlank(line);
    hide Blank;
    assert Ended([blank]) == [line];
    assert [line][1..] == [];
  }
}
