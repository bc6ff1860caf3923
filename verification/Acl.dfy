/**
 * Users, their permissions, the rule tokens that change them, and the text an
 * access-control table is saved as and loaded from. All text is UTF-8 bytes.
 */
module Acl {
  import opened Base
  import opened Text
  import Glob
  import Codec
  import Resp

  const ON: bytes := ['o' as int, 'n' as int]
  const OFF: bytes := ['o' as int, 'f' as int, 'f' as int]
  const NOPASS: bytes := ['n' as int, 'o' as int, 'p' as int, 'a' as int, 's' as int, 's' as int]
  const RESETPASS: bytes := ['r' as int, 'e' as int, 's' as int, 'e' as int, 't' as int, 'p' as int, 'a' as int,
    's' as int, 's' as int]
  const ALLKEYS: bytes := ['a' as int, 'l' as int, 'l' as int, 'k' as int, 'e' as int, 'y' as int, 's' as int]
  const RESETKEYS: bytes := ['r' as int, 'e' as int, 's' as int, 'e' as int, 't' as int, 'k' as int, 'e' as int,
    'y' as int, 's' as int]
  const ALLCOMMANDS: bytes := ['a' as int, 'l' as int, 'l' as int, 'c' as int, 'o' as int, 'm' as int, 'm' as int,
    'a' as int, 'n' as int, 'd' as int, 's' as int]
  const NOCOMMANDS: bytes := ['n' as int, 'o' as int, 'c' as int, 'o' as int, 'm' as int, 'm' as int, 'a' as int,
    'n' as int, 'd' as int, 's' as int]
  const RESET: bytes := ['r' as int, 'e' as int, 's' as int, 'e' as int, 't' as int]
  const DEFAULT: bytes := ['d' as int, 'e' as int, 'f' as int, 'a' as int, 'u' as int, 'l' as int, 't' as int]

  const CMD_AUTH: bytes := ['A' as int, 'U' as int, 'T' as int, 'H' as int]
  const CMD_HELLO: bytes := ['H' as int, 'E' as int, 'L' as int, 'L' as int, 'O' as int]
  const CMD_QUIT: bytes := ['Q' as int, 'U' as int, 'I' as int, 'T' as int]
  const CMD_PING: bytes := ['P' as int, 'I' as int, 'N' as int, 'G' as int]
  const CMD_RESET: bytes := ['R' as int, 'E' as int, 'S' as int, 'E' as int, 'T' as int]

  const CAT_ALL: bytes := ['a' as int, 'l' as int, 'l' as int]
  const CAT_READ: bytes := ['r' as int, 'e' as int, 'a' as int, 'd' as int]
  const CAT_WRITE: bytes := ['w' as int, 'r' as int, 'i' as int, 't' as int, 'e' as int]
  const CAT_ADMIN: bytes := ['a' as int, 'd' as int, 'm' as int, 'i' as int, 'n' as int]
  const CAT_DANGEROUS: bytes := ['d' as int, 'a' as int, 'n' as int, 'g' as int, 'e' as int, 'r' as int, 'o' as int,
    'u' as int, 's' as int]
  const CAT_PUBSUB: bytes := ['p' as int, 'u' as int, 'b' as int, 's' as int, 'u' as int, 'b' as int]
  const CAT_VECTOR: bytes := ['v' as int, 'e' as int, 'c' as int, 't' as int, 'o' as int, 'r' as int]
  const CAT_TIMESERIES: bytes := ['t' as int, 'i' as int, 'm' as int, 'e' as int, 's' as int, 'e' as int, 'r' as int,
    'i' as int, 'e' as int, 's' as int]
  const CAT_MEMORY: bytes := ['m' as int, 'e' as int, 'm' as int, 'o' as int, 'r' as int, 'y' as int]
  const CAT_TABLE: bytes := ['t' as int, 'a' as int, 'b' as int, 'l' as int, 'e' as int]
  const CAT_REDUCE: bytes := ['r' as int, 'e' as int, 'd' as int, 'u' as int, 'c' as int, 'e' as int]
  const CAT_CONNECTION: bytes := ['c' as int, 'o' as int, 'n' as int, 'n' as int, 'e' as int, 'c' as int, 't' as int,
    'i' as int, 'o' as int, 'n' as int]
  const CAT_RAG: bytes := ['r' as int, 'a' as int, 'g' as int]

  const SPACE: byte := 32
  const LF: byte := 10
  const CR: byte := 13
  const HASH: byte := '#' as int
  const GREATER: byte := '>' as int
  const TILDE: byte := '~' as int
  const PLUS: byte := '+' as int
  const MINUS: byte := '-' as int
  const AT: byte := '@' as int
  const COLON: byte := ':' as int
  const STAR: byte := '*' as int

  // ------------------------------------------------------------ users

  datatype Category =
    All | Read | Write | Admin | Dangerous | PubSub | Vector | TimeSeries | Memory | Table | Reduce | Connection

  datatype Rule =
    | AllowCmd(cmd: bytes)
    | DenyCmd(cmd: bytes)
    | AllowCat(cat: Category)
    | DenyCat(cat: Category)

  /** A salted password hash. */
  datatype Hashed = Hashed(salt: bytes, hash: bytes)

  type Secret = h: Hashed | |h.salt| == 16 && |h.hash| == 32 witness NO_SECRET

  function Repeat(b: byte, n: nat): (r: bytes)
    ensures |r| == n
  {
    if n == 0 then [] else [b] + Repeat(b, n - 1)
  }

  /** Matches no password. */
  const NO_SECRET := Hashed(Repeat(0, 16), Repeat(255, 32))

  type Name = bytes

  /** `password` None lets any password in; rules are in the order given. */
  datatype User = User(
    name: Name,
    password: Option<Secret>,
    enabled: bool,
    rules: seq<Rule>,
    patterns: seq<bytes>
  )

  type Users = map<Name, User>

  function NewRestricted(name: Name): User { User(name, Some(NO_SECRET), false, [], []) }

  function Superuser(name: Name): User { User(name, None, true, [AllowCat(All)], [[STAR]]) }

  // ------------------------------------------------------------ permissions

  predicate Applies(r: Rule, cmd: bytes, cats: seq<Category>) {
    match r
    case AllowCmd(c) => c == cmd
    case DenyCmd(c) => c == cmd
    case AllowCat(c) => c == All || c in cats
    case DenyCat(c) => c == All || c in cats
  }

  predicate Allows(r: Rule) { r.AllowCmd? || r.AllowCat? }

  predicate AlwaysFree(cmd: bytes) {
    cmd == CMD_AUTH || cmd == CMD_HELLO || cmd == CMD_QUIT || cmd == CMD_PING || cmd == CMD_RESET
  }

  /** Some rule allows the command and no later rule says anything about it. */
  ghost predicate LastWordAllows(rules: seq<Rule>, cmd: bytes, cats: seq<Category>) {
    exists i :: FinalWord(rules, i, cmd, cats) && Allows(rules[i])
  }

  ghost predicate FinalWord(rules: seq<Rule>, i: int, cmd: bytes, cats: seq<Category>) {
    && 0 <= i < |rules| && Applies(rules[i], cmd, cats)
    && forall k :: i < k < |rules| ==> !Applies(rules[k], cmd, cats)
  }

  ghost predicate MayRun(u: User, cmd: bytes, cats: seq<Category>) {
    u.enabled && (AlwaysFree(cmd) || LastWordAllows(u.rules, cmd, cats))
  }

  ghost predicate MayTouch(u: User, key: bytes) {
    exists i :: 0 <= i < |u.patterns| && Glob.Matches(u.patterns[i], 0, key, 0)
  }

  method CanCommand(u: User, cmd: bytes, cats: seq<Category>) returns (ok: bool)
    ensures ok <==> MayRun(u, cmd, cats)
  {
    if !u.enabled {
      return false;
    }
    if AlwaysFree(cmd) {
      return true;
    }
    hide Applies, Allows;
    var allowed := false;
    for i := 0 to |u.rules|
      invariant allowed <==> LastWordAllows(u.rules[..i], cmd, cats)
    {
      ghost var before := u.rules[..i];
      assert u.rules[..i + 1] == before + [u.rules[i]];
      OneMoreRule(before, u.rules[i], cmd, cats);
      if Applies(u.rules[i], cmd, cats) {
        allowed := Allows(u.rules[i]);
      }
    }
    assert u.rules[..|u.rules|] == u.rules;
    return allowed;
  }

  lemma OneMoreRule(rules: seq<Rule>, r: Rule, cmd: bytes, cats: seq<Category>)
    ensures LastWordAllows(rules + [r], cmd, cats) <==>
      if Applies(r, cmd, cats) then Allows(r) else LastWordAllows(rules, cmd, cats)
  {
    hide Applies, Allows;
    var n := |rules|;
    var all := rules + [r];
    assert all[n] == r;
    if Applies(r, cmd, cats) {
      assert FinalWord(all, n, cmd, cats);
      assert forall i :: FinalWord(all, i, cmd, cats) ==> i == n;
    } else {
      forall i ensures FinalWord(all, i, cmd, cats) <==> FinalWord(rules, i, cmd, cats) {
        assert 0 <= i < n ==> forall k :: i <= k < n ==> all[k] == rules[k];
      }
      assert forall i :: 0 <= i < n ==> all[i] == rules[i];
    }
  }

  method CanKey(u: User, key: bytes) returns (ok: bool)
    ensures ok <==> MayTouch(u, key)
  {
    for i := 0 to |u.patterns|
      invariant forall k :: 0 <= k < i ==> !Glob.Matches(u.patterns[k], 0, key, 0)
    {
      var hit, _ := Glob.GlobMatch(u.patterns[i], key);
      if hit {
        return true;
      }
    }
    return false;
  }

  lemma SuperuserMayAll(name: Name, cmd: bytes, cats: seq<Category>, key: bytes)
    ensures MayRun(Superuser(name), cmd, cats) && MayTouch(Superuser(name), key)
  {
    var u := Superuser(name);
    assert FinalWord(u.rules, 0, cmd, cats) && Allows(u.rules[0]);
    Glob.StarAbsorbs([STAR], 0, key, 0);
    assert Glob.Matches([STAR], 1, key, |key|);
    assert Glob.MatchesFrom([STAR], 1, key, 0);
    assert Glob.Matches(u.patterns[0], 0, key, 0);
  }

  // ------------------------------------------------------------ tokens

  datatype Error = BadHash | UnknownCategory | EmptyCommand | Syntax | NoDefault

  function CategoryName(c: Category): bytes {
    match c
    case All => CAT_ALL
    case Read => CAT_READ
    case Write => CAT_WRITE
    case Admin => CAT_ADMIN
    case Dangerous => CAT_DANGEROUS
    case PubSub => CAT_PUBSUB
    case Vector => CAT_VECTOR
    case TimeSeries => CAT_TIMESERIES
    case Memory => CAT_MEMORY
    case Table => CAT_TABLE
    case Reduce => CAT_REDUCE
    case Connection => CAT_CONNECTION
  }

  function ParseCategory(s: bytes): Option<Category> {
    var l := Lower(s);
    if l == CAT_ALL || l == [STAR] then Some(All)
    else if l == CAT_READ then Some(Read)
    else if l == CAT_WRITE then Some(Write)
    else if l == CAT_ADMIN then Some(Admin)
    else if l == CAT_DANGEROUS then Some(Dangerous)
    else if l == CAT_PUBSUB then Some(PubSub)
    else if l == CAT_VECTOR then Some(Vector)
    else if l == CAT_TIMESERIES then Some(TimeSeries)
    else if l == CAT_TABLE then Some(Table)
    else if l == CAT_REDUCE then Some(Reduce)
    else if l == CAT_CONNECTION then Some(Connection)
    else if l == CAT_MEMORY || l == CAT_RAG then Some(Memory)
    else None
  }

  function ParseRule(rest: bytes, allow: bool): Result<Rule, Error> {
    if rest != [] && rest[0] == AT then
      match ParseCategory(rest[1..])
      case Some(c) => Ok(if allow then AllowCat(c) else DenyCat(c))
      case None => Err(UnknownCategory)
    else if rest == [] then Err(EmptyCommand)
    else Ok(if allow then AllowCmd(Upper(rest)) else DenyCmd(Upper(rest)))
  }

  predicate IsHex(b: byte) { 48 <= b <= 57 || 97 <= b <= 102 || 65 <= b <= 70 }

  function HexValue(b: byte): nat
    requires IsHex(b)
  {
    if b <= 57 then b - 48 else if b >= 97 then b - 87 else b - 55
  }

  /** Two characters of base 16; a plus sign may stand for the first. */
  function HexByte(a: byte, b: byte): Option<byte> {
    if IsHex(a) && IsHex(b) then Some(16 * HexValue(a) + HexValue(b))
    else if a == PLUS && IsHex(b) then Some(HexValue(b))
    else None
  }

  function DecodeHex(s: bytes): Option<bytes> {
    if s == [] then Some([])
    else if |s| == 1 then None
    else match HexByte(s[0], s[1])
      case None => None
      case Some(x) => match DecodeHex(s[2..]) case Some(r) => Some([x] + r) case None => None
  }

  function HexDigit(n: nat): byte
    requires n < 16
  {
    if n < 10 then 48 + n else 87 + n
  }

  function EncodeHex(s: bytes): bytes {
    if s == [] then [] else [HexDigit(s[0] / 16), HexDigit(s[0] % 16)] + EncodeHex(s[1..])
  }

  function ParseHashed(raw: bytes): Option<Secret> {
    var parts := Split(raw, COLON);
    if |parts| < 2 then None
    else
      match DecodeHex(parts[0])
      case None => None
      case Some(salt) =>
        match DecodeHex(Join(parts[1..], COLON))
        case None => None
        case Some(hash) => if |salt| == 16 && |hash| == 32 then Some(Hashed(salt, hash)) else None
  }

  /** What hashing a password token gives depends on a fresh random salt: one per place in the input. */
  type Hasher = (nat, nat, bytes) -> Secret

  /** One token of `ACL SETUSER` for the user called `name`. */
  function ApplyToken(u: User, name: Name, t: bytes, secret: Secret): Result<User, Error> {
    match ApplyWord(u, name, Lower(t))
    case Some(v) => Ok(v)
    case None => ApplyPrefixed(u, t, secret)
  }

  /** The whole words, in any letter case. */
  function ApplyWord(u: User, name: Name, word: bytes): Option<User> {
    if word == ON then Some(u.(enabled := true))
    else if word == OFF then Some(u.(enabled := false))
    else if word == NOPASS then Some(u.(password := None))
    else if word == RESETPASS then Some(u.(password := Some(NO_SECRET)))
    else if word == ALLKEYS then Some(u.(patterns := [[STAR]]))
    else if word == RESETKEYS then Some(u.(patterns := []))
    else if word == ALLCOMMANDS then Some(u.(rules := [AllowCat(All)]))
    else if word == NOCOMMANDS then Some(u.(rules := []))
    else if word == RESET then Some(NewRestricted(name))
    else None
  }

  /** The tokens told by their first byte. */
  function ApplyPrefixed(u: User, t: bytes, secret: Secret): Result<User, Error> {
    if t == [] then Err(Syntax)
    else if t[0] == HASH then
      (match ParseHashed(t[1..]) case Some(s) => Ok(u.(password := Some(s))) case None => Err(BadHash))
    else if t[0] == GREATER then Ok(u.(password := Some(secret)))
    else if t[0] == TILDE then Ok(u.(patterns := u.patterns + [t[1..]]))
    else if t[0] == PLUS || t[0] == MINUS then
      (match ParseRule(t[1..], t[0] == PLUS) case Ok(r) => Ok(u.(rules := u.rules + [r])) case Err(e) => Err(e))
    else Err(Syntax)
  }

  function SetTokens(u: User, name: Name, tokens: seq<bytes>, line: nat, at: nat, h: Hasher): Result<User, Error>
    decreases |tokens|
  {
    if tokens == [] then Ok(u)
    else
      var t := tokens[0];
      match ApplyToken(u, name, t, h(line, at, if t == [] then [] else t[1..]))
      case Ok(u') => SetTokens(u', name, tokens[1..], line, at + 1, h)
      case Err(e) => Err(e)
  }

  function UserOr(users: Users, name: Name): User {
    if name in users then users[name] else NewRestricted(name)
  }

  /** All tokens, or nothing. */
  function SetUserIn(users: Users, name: Name, tokens: seq<bytes>, line: nat, h: Hasher): Result<Users, Error> {
    match SetTokens(UserOr(users, name), name, tokens, line, 0, h)
    case Ok(u) => Ok(users[name := u])
    case Err(e) => Err(e)
  }

  // ------------------------------------------------------------ the printed form

  function PasswordToken(u: User): bytes {
    match u.password
    case None => NOPASS
    case Some(s) => [HASH] + EncodeHex(s.salt) + [COLON] + EncodeHex(s.hash)
  }

  function RuleToken(r: Rule): bytes {
    match r
    case AllowCmd(c) => [PLUS] + Lower(c)
    case DenyCmd(c) => [MINUS] + Lower(c)
    case AllowCat(c) => [PLUS, AT] + CategoryName(c)
    case DenyCat(c) => [MINUS, AT] + CategoryName(c)
  }

  /** Unicode lower-casing of text. */
  type Casing = bytes -> bytes

  /**
   * A rule as it reads once printed: the table prints commands in lower case by `lc`
   * and reads them in ASCII upper case. `RuleToken` of it is the printed token.
   */
  function PrintedRule(r: Rule, lc: Casing): Rule {
    match r
    case AllowCmd(c) => AllowCmd(Upper(lc(c)))
    case DenyCmd(c) => DenyCmd(Upper(lc(c)))
    case _ => r
  }

  function PrintedUser(u: User, lc: Casing): (v: User)
    ensures |v.rules| == |u.rules| && forall i :: 0 <= i < |u.rules| ==> v.rules[i] == PrintedRule(u.rules[i], lc)
  {
    u.(rules := seq(|u.rules|, i requires 0 <= i < |u.rules| => PrintedRule(u.rules[i], lc)))
  }

  function PrintedTable(users: Users, lc: Casing): Users {
    map n | n in users :: PrintedUser(users[n], lc)
  }

  function PatternTokens(ps: seq<bytes>): (r: seq<bytes>)
    ensures |r| == |ps| && forall i :: 0 <= i < |ps| ==> r[i] == [TILDE] + ps[i]
  {
    if ps == [] then [] else [[TILDE] + ps[0]] + PatternTokens(ps[1..])
  }

  function RuleTokens(rules: seq<Rule>): (r: seq<bytes>)
    ensures |r| == |rules| && forall i :: 0 <= i < |rules| ==> r[i] == RuleToken(rules[i])
  {
    if rules == [] then [] else [RuleToken(rules[0])] + RuleTokens(rules[1..])
  }

  function Describe(u: User): bytes {
    Join([if u.enabled then ON else OFF] + (if u.password.None? then [NOPASS] else [])
         + PatternTokens(u.patterns) + RuleTokens(u.rules), SPACE)
  }

  function Without(tokens: seq<bytes>, t: bytes): seq<bytes> {
    if tokens == [] then [] else (if tokens[0] == t then [] else [tokens[0]]) + Without(tokens[1..], t)
  }

  /** A user as one line of the saved table. */
  function DumpLine(u: User): bytes {
    Join([u.name, RESET, PasswordToken(u)] + Without(Split(Describe(u), SPACE), NOPASS), SPACE)
  }

  function DumpLines(order: seq<Name>, users: Users): (r: seq<bytes>)
    requires forall n :: n in order ==> n in users
    ensures |r| == |order|
  {
    if order == [] then [] else [DumpLine(users[order[0]])] + DumpLines(order[1..], users)
  }

  // ------------------------------------------------------------ loading

  /** A carriage return in front of a line feed belongs to the line end. */
  function StripReturns(pieces: seq<bytes>): seq<bytes> {
    if |pieces| <= 1 then pieces else [Resp.WithoutCr(pieces[0])] + StripReturns(pieces[1..])
  }

  predicate Blank(line: bytes) { Resp.TrimEnd(Resp.TrimStart(line)) == [] }

  function NotBlank(lines: seq<bytes>): seq<bytes> {
    if lines == [] then [] else (if Blank(lines[0]) then [] else [lines[0]]) + NotBlank(lines[1..])
  }

  function LoadLine(users: Users, line: bytes, k: nat, h: Hasher): Result<Users, Error> {
    var parts := Split(line, SPACE);
    SetUserIn(users, parts[0], parts[1..], k, h)
  }

  function LoadLines(users: Users, lines: seq<bytes>, k: nat, h: Hasher): Result<Users, Error>
    decreases |lines|
  {
    if lines == [] then Ok(users)
    else match LoadLine(users, lines[0], k, h)
      case Ok(users') => LoadLines(users', lines[1..], k + 1, h)
      case Err(e) => Err(e)
  }

  /** The table a text describes; it must have the default user. */
  function Load(text: bytes, h: Hasher): Result<Users, Error> {
    match LoadLines(map[], NotBlank(StripReturns(Split(text, LF))), 0, h)
    case Err(e) => Err(e)
    case Ok(users) => if DEFAULT in users then Ok(users) else Err(NoDefault)
  }
}
