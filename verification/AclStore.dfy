/**
 * The access-control store: its state, the operations on it, and the latch that
 * lets the server skip the permission gate.
 */
module AclStore {
  import opened Base
  import opened Text
  import opened Acl
  import opened AclText
  import Codec

  /**
   * While the latch is off, nobody exists but the unrestricted default user, and no
   * password is required.
   */
  ghost predicate LatchSound(users: Users, requirepass: bool, strict: bool) {
    !strict ==> users == map[DEFAULT := Superuser(DEFAULT)] && !requirepass
  }

  ghost predicate Fit(users: Users, requirepass: bool, strict: bool) {
    WellFormed(users) && DEFAULT in users && LatchSound(users, requirepass, strict)
  }

  class Store {
    var users: Users
    const requirepass: bool
    var strict: bool

    ghost predicate Valid()
      reads this
    {
      Fit(users, requirepass, strict)
    }

    /** `pass` is the hashed server password, if one is set. */
    constructor (pass: Option<Secret>)
      ensures Valid() && requirepass == pass.Some? && strict == requirepass
      ensures users == map[DEFAULT := Superuser(DEFAULT).(password := pass)]
    {
      users := map[DEFAULT := Superuser(DEFAULT).(password := pass)];
      requirepass := pass.Some?;
      strict := pass.Some?;
    }

    method NeedsPermissionCheck() returns (r: bool)
      ensures r == strict
    {
      return strict;
    }

    /** `ACL SETUSER`: every token is taken, or nothing changes. */
    method SetUser(name: Name, tokens: seq<bytes>, h: Hasher) returns (r: Result<(), Error>)
      requires Valid()
      modifies this`users, this`strict
      ensures Valid()
      ensures match SetUserIn(old(users), name, tokens, 0, h)
        case Ok(users') => r == Ok(()) && users == users' && strict
        case Err(e) => r == Err(e) && users == old(users) && strict == old(strict)
    {
      hide ApplyToken, WellFormedUser;
      var u := if name in users then users[name] else NewRestricted(name);
      ghost var start := u;
      for i := 0 to |tokens|
        invariant SetTokens(start, name, tokens, 0, 0, h) == SetTokens(u, name, tokens[i..], 0, i, h)
      {
        var t := tokens[i];
        var step := ApplyToken(u, name, t, h(0, i, if t == [] then [] else t[1..]));
        assert tokens[i..][0] == t && tokens[i..][1..] == tokens[i + 1..];
        match step {
          case Ok(next) => u := next;
          case Err(e) => return Err(e);
        }
      }
      assert SetTokens(u, name, [], 0, |tokens|, h) == Ok(u);
      SetUserFits(users, name, tokens, 0, h);
      users := users[name := u];
      strict := true;
      return Ok(());
    }

    /** `ACL DELUSER`; the default user stays. */
    method DelUser(name: Name) returns (removed: bool)
      requires Valid()
      modifies this`users, this`strict
      ensures Valid()
      ensures removed == (name != DEFAULT && name in old(users))
      ensures users == (if removed then old(users) - {name} else old(users))
      ensures strict == (old(strict) || removed)
    {
      if name == DEFAULT {
        return false;
      }
      removed := name in users;
      if removed {
        users := users - {name};
        strict := true;
      }
    }

    /** `ACL SAVE`: one line a user, commands in lower case by `lc`, the lines sorted. */
    method Dump(lc: Casing) returns (text: bytes)
      requires Valid()
      ensures exists order :: SavedAs(text, order, PrintedTable(users, lc))
    {
      hide Codec.Less, Place, Listed, ByLine, SavedAs, DumpLines, Join;
      var shown := PrintedTable(users, lc);
      var names: seq<Name> := [];
      var rest := shown.Keys;
      NoneListed(shown);
      while rest != {}
        invariant rest <= shown.Keys && Listed(names, shown.Keys - rest) && ByLine(names, shown) && AllIn(names, shown)
        decreases |rest|
      {
        var n :| n in rest;
        PlaceLists(names, shown.Keys - rest, n, shown);
        PlaceSorts(names, n, shown);
        names := Place(names, n, shown);
        assert shown.Keys - (rest - {n}) == (shown.Keys - rest) + {n};
        rest := rest - {n};
      }
      assert shown.Keys - {} == shown.Keys;
      text := Join(DumpLines(names, shown), LF);
      SavedWhenSorted(names, shown);
    }

    /** `ACL LOAD`: the whole table is replaced, or nothing changes. */
    method LoadText(text: bytes, h: Hasher) returns (r: Result<nat, Error>)
      requires Valid()
      modifies this`users, this`strict
      ensures Valid()
      ensures match Load(text, h)
        case Ok(loaded) => r == Ok(|NotBlank(StripReturns(Split(text, LF)))|) && users == loaded && strict
        case Err(e) => r == Err(e) && users == old(users) && strict == old(strict)
    {
      hide LoadLine, WellFormedUser;
      var lines := NotBlank(StripReturns(Split(text, LF)));
      var staged: Users := map[];
      for i := 0 to |lines|
        invariant LoadLines(map[], lines, 0, h) == LoadLines(staged, lines[i..], i, h)
      {
        assert lines[i..][0] == lines[i] && lines[i..][1..] == lines[i + 1..];
        var next := LoadLine(staged, lines[i], i, h);
        match next {
          case Ok(users') => staged := users';
          case Err(e) => return Err(e);
        }
      }
      assert LoadLines(staged, [], |lines|, h) == Ok(staged);
      if DEFAULT !in staged {
        return Err(NoDefault);
      }
      LinesFit(map[], lines, 0, h);
      users := staged;
      strict := true;
      return Ok(|lines|);
    }

    method May(name: Name, cmd: bytes, cats: seq<Category>, keys: seq<bytes>) returns (ok: bool)
      requires Valid()
      ensures ok <==> Permitted(users, name, cmd, cats, keys)
    {
      if name !in users {
        return false;
      }
      ok := CanCommand(users[name], cmd, cats);
      if !ok {
        return;
      }
      for i := 0 to |keys|
        invariant forall k :: 0 <= k < i ==> MayTouch(users[name], keys[k])
      {
        ok := CanKey(users[name], keys[i]);
        if !ok {
          return;
        }
      }
      return true;
    }
  }

  /** The text is the lines of all users, each once, sorted. */
  ghost predicate SavedAs(text: bytes, order: seq<Name>, users: Users) {
    && Lists(order, users) && text == Join(DumpLines(order, users), LF)
    && forall i, k :: 0 <= i < k < |order| ==>
         !Codec.Less(DumpLines(order, users)[k], DumpLines(order, users)[i])
  }

  /** What the permission gate decides. */
  ghost predicate Permitted(users: Users, name: Name, cmd: bytes, cats: seq<Category>, keys: seq<bytes>) {
    && name in users && MayRun(users[name], cmd, cats)
    && forall i :: 0 <= i < |keys| ==> MayTouch(users[name], keys[i])
  }

  /**
   * Skipping the gate is sound: in every state the operations can reach, as long as the
   * latch is off the gate would let the default user do everything, and nobody else exists.
   */
  lemma SkippingIsSound(users: Users, requirepass: bool, name: Name, cmd: bytes, cats: seq<Category>, keys: seq<bytes>)
    requires Fit(users, requirepass, false) && name in users
    ensures name == DEFAULT && !requirepass && Permitted(users, name, cmd, cats, keys)
  {
    forall i | 0 <= i < |keys| ensures MayTouch(Superuser(DEFAULT), keys[i]) {
      SuperuserMayAll(DEFAULT, cmd, cats, keys[i]);
    }
    SuperuserMayAll(DEFAULT, cmd, cats, []);
    hide MayRun, MayTouch, Superuser;
  }

  // ------------------------------------------------------------ tokens keep users well formed

  lemma RuleFits(rest: bytes, allow: bool)
    requires ParseRule(rest, allow).Ok?
    ensures WellFormedRule(ParseRule(rest, allow).value)
  {
    UpperHasNoLower(rest);
    hide ParseCategory;
    if rest != [] {
      assert Upper(rest)[0] == UpperByte(rest[0]);
    }
  }

  lemma TokenFits(u: User, name: Name, t: bytes, secret: Secret)
    requires WellFormedUser(u) && u.name == name && ApplyToken(u, name, t, secret).Ok?
    ensures var u' := ApplyToken(u, name, t, secret).value; WellFormedUser(u') && u'.name == name
  {
    hide ApplyToken, ParseRule;
    TokenShape(u, name, t, secret);
    if t != [] && ParseRule(t[1..], t[0] == PLUS).Ok? {
      RuleFits(t[1..], t[0] == PLUS);
    }
    hide WellFormedRule;
  }

  lemma {:induction false} TokensFit(u: User, name: Name, tokens: seq<bytes>, line: nat, at: nat, h: Hasher)
    requires WellFormedUser(u) && u.name == name && SetTokens(u, name, tokens, line, at, h).Ok?
    ensures var u' := SetTokens(u, name, tokens, line, at, h).value; WellFormedUser(u') && u'.name == name
    decreases |tokens|
  {
    hide ApplyToken, WellFormedUser;
    if tokens != [] {
      var t := tokens[0];
      var s := h(line, at, if t == [] then [] else t[1..]);
      TokenFits(u, name, t, s);
      TokensFit(ApplyToken(u, name, t, s).value, name, tokens[1..], line, at + 1, h);
    }
  }

  lemma SetUserFits(users: Users, name: Name, tokens: seq<bytes>, line: nat, h: Hasher)
    requires WellFormed(users) && SetUserIn(users, name, tokens, line, h).Ok?
    ensures WellFormed(SetUserIn(users, name, tokens, line, h).value)
  {
    TokensFit(UserOr(users, name), name, tokens, line, 0, h);
    hide SetTokens;
  }

  lemma {:induction false} LinesFit(users: Users, lines: seq<bytes>, k: nat, h: Hasher)
    requires WellFormed(users) && LoadLines(users, lines, k, h).Ok?
    ensures WellFormed(LoadLines(users, lines, k, h).value)
    decreases |lines|
  {
    hide SetUserIn, WellFormed, Split;
    if lines != [] {
      var parts := Split(lines[0], SPACE);
      SetUserFits(users, parts[0], parts[1..], k, h);
      LinesFit(LoadLine(users, lines[0], k, h).value, lines[1..], k + 1, h);
    }
  }

  // ------------------------------------------------------------ sorting users by their line

  ghost predicate Listed(names: seq<Name>, keys: set<Name>) {
    Distinct(names) && forall n :: n in names <==> n in keys
  }

  ghost predicate AllIn(names: seq<Name>, users: Users) { forall n :: n in names ==> n in users }

  ghost predicate ByLine(names: seq<Name>, users: Users) {
    && (forall n :: n in names ==> n in users)
    && forall i, k :: 0 <= i < k < |names| ==> !Codec.Less(DumpLine(users[names[k]]), DumpLine(users[names[i]]))
  }

  lemma NoneListed(users: Users)
    ensures Listed([], users.Keys - users.Keys) && ByLine([], users)
  {
  }

  lemma SavedWhenSorted(order: seq<Name>, users: Users)
    requires Listed(order, users.Keys) && ByLine(order, users)
    ensures AllIn(order, users) && SavedAs(Join(DumpLines(order, users), LF), order, users)
  {
    hide DumpLine, DumpLines, Codec.Less, Join;
    forall i, k | 0 <= i < k < |order|
      ensures !Codec.Less(DumpLines(order, users)[k], DumpLines(order, users)[i])
    {
      DumpLinesAre(order, users, i);
      DumpLinesAre(order, users, k);
    }
  }

  /** Insert a name where its line belongs. */
  function Place(names: seq<Name>, n: Name, users: Users): seq<Name>
    requires n in users && forall m :: m in names ==> m in users
  {
    if names == [] || Codec.Less(DumpLine(users[n]), DumpLine(users[names[0]])) then [n] + names
    else [names[0]] + Place(names[1..], n, users)
  }

  lemma {:induction false} PlaceHas(names: seq<Name>, n: Name, users: Users, m: Name)
    requires n in users && forall k :: k in names ==> k in users
    ensures m in Place(names, n, users) <==> m == n || m in names
    decreases |names|
  {
    hide DumpLine, Codec.Less;
    if !(names == [] || Codec.Less(DumpLine(users[n]), DumpLine(users[names[0]]))) {
      PlaceHas(names[1..], n, users, m);
      assert names == [names[0]] + names[1..];
    }
  }

  lemma {:induction false} PlaceDistinct(names: seq<Name>, n: Name, users: Users)
    requires n in users && forall k :: k in names ==> k in users
    requires Distinct(names) && n !in names
    ensures Distinct(Place(names, n, users))
    decreases |names|
  {
    hide DumpLine, Codec.Less;
    if !(names == [] || Codec.Less(DumpLine(users[n]), DumpLine(users[names[0]]))) {
      PlaceDistinct(names[1..], n, users);
      PlaceHas(names[1..], n, users, names[0]);
      var tail := Place(names[1..], n, users);
      assert names[0] !in tail;
    }
  }

  lemma PlaceLists(names: seq<Name>, keys: set<Name>, n: Name, users: Users)
    requires Listed(names, keys) && keys <= users.Keys && n in users && n !in keys
    ensures forall k :: k in names ==> k in users
    ensures Listed(Place(names, n, users), keys + {n})
  {
    hide DumpLine, Codec.Less, Place;
    PlaceDistinct(names, n, users);
    forall m ensures m in Place(names, n, users) <==> m in keys + {n} {
      PlaceHas(names, n, users, m);
    }
  }

  lemma {:induction false} PlaceSorts(names: seq<Name>, n: Name, users: Users)
    requires n in users && ByLine(names, users)
    ensures ByLine(Place(names, n, users), users) && AllIn(Place(names, n, users), users)
    decreases |names|
  {
    hide DumpLine, Codec.Less;
    if names == [] {
    } else if Codec.Less(DumpLine(users[n]), DumpLine(users[names[0]])) {
      forall k | 0 <= k < |names| ensures !Codec.Less(DumpLine(users[names[k]]), DumpLine(users[n])) {
        if Codec.Less(DumpLine(users[names[k]]), DumpLine(users[n])) {
          Codec.LessTransitive(DumpLine(users[names[k]]), DumpLine(users[n]), DumpLine(users[names[0]]));
          Codec.LessIrreflexive(DumpLine(users[names[0]]));
        }
      }
    } else {
      var tail := Place(names[1..], n, users);
      PlaceSorts(names[1..], n, users);
      forall k | 0 <= k < |tail| ensures !Codec.Less(DumpLine(users[tail[k]]), DumpLine(users[names[0]])) {
        PlaceHas(names[1..], n, users, tail[k]);
        if tail[k] != n {
          var j :| 0 <= j < |names[1..]| && names[1..][j] == tail[k];
          assert names[j + 1] == tail[k];
        }
      }
    }
  }
}
