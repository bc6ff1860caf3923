/**
 * Owner-scoped recall: candidates from the requester's own vectors and from
 * keyword postings, two bounded selections, and the final ranked list.
 * Scores are exact reals.
 */
module Recall {
  import opened Base
  import opened Arena
  import opened MemoryIndex
  import opened Shortlist

  // ------------------------------------------------------------ who may see what

  function OwnerOf(x: Index, owner: Name): Option<nat> {
    if owner in x.ownerIds then Some(x.ownerIds[owner]) else None
  }

  predicate InWindow(validFrom: nat, validTo: nat, at: nat) {
    (validFrom == 0 || validFrom <= at) && (validTo == 0 || validTo > at)
  }

  /** The salience of a record the scope may see at `at`. */
  function Visible(x: Index, scope: Name, at: nat, id: Id): Option<real> {
    if id !in x.recs then None
    else
      var r := x.recs[id];
      var owned := OwnerOf(x, scope) == Some(r.owner) || OwnerOf(x, []) == Some(r.owner);
      if owned && InWindow(r.validFrom, r.validTo, at) then Some(r.sal) else None
  }

  /** In terms of the stored metadata: the record is the scope's own or nobody's, and valid at `at`. */
  predicate MaySee(m: Meta, scope: Name, at: nat) {
    (m.owner == [] || m.owner == scope) && InWindow(m.validFrom, m.validTo, at)
  }

  /** Index and metadata say the same about visibility. */
  lemma VisibleIs(x: Index, rs: Records, vdim: nat, unit: Vector -> Vector, scope: Name, at: nat, id: Id)
    requires Agrees(x, rs, vdim, unit)
    ensures Visible(x, scope, at, id).Some? <==> id in rs.metas && MaySee(rs.metas[id], scope, at)
    ensures Visible(x, scope, at, id).Some? ==> Visible(x, scope, at, id).value == rs.metas[id].salience
  {
    hide ArenasAgree;
    if id in rs.metas {
      assert InfoMatches(x.owners, x.recs[id], rs.metas[id]);
    }
  }

  // ------------------------------------------------------------ the semantic stage

  /** Cosine of normalized vectors. */
  type Similarity = (Vector, Vector) -> real

  /** What the first `n` rows of an arena offer: positive cosine, and visible. */
  function Offers(a: Arena, n: nat, x: Index, scope: Name, at: nat, q: Vector, sim: Similarity): seq<Scored>
    requires n <= |a.ids|
  {
    if n == 0 then []
    else
      var id := a.ids[n - 1];
      var cos := sim(q, RowIn(a, id));
      Offers(a, n - 1, x, scope, at, q, sim) +
      if cos > 0.0 && Visible(x, scope, at, id).Some? then [Scored(cos, id)] else []
  }

  function RowIn(a: Arena, id: Id): Vector { if id in a.rows then a.rows[id] else [] }

  function ArenaFor(x: Index, owner: Name): Option<Arena> {
    if owner in x.ownerIds && x.ownerIds[owner] in x.arenas then Some(x.arenas[x.ownerIds[owner]]) else None
  }

  function OffersOf(a: Option<Arena>, x: Index, scope: Name, at: nat, q: Vector, sim: Similarity): seq<Scored> {
    match a
    case None => []
    case Some(b) => if b.dim != |q| then [] else Offers(b, |b.ids|, x, scope, at, q, sim)
  }

  /** The requester's own arena, then the one that is everybody's. */
  function Candidates(x: Index, scope: Name, at: nat, q: Vector, sim: Similarity): seq<Scored> {
    OffersOf(ArenaFor(x, scope), x, scope, at, q, sim) + OffersOf(ArenaFor(x, []), x, scope, at, q, sim)
  }

  function ScopedCount(x: Index, scope: Name): nat {
    (match ArenaFor(x, scope) case Some(a) => |a.ids| case None => 0) +
    (match ArenaFor(x, []) case Some(a) => |a.ids| case None => 0)
  }

  lemma OffersNone(a: Arena, x: Index, scope: Name, at: nat, q: Vector, sim: Similarity)
    ensures Offers(a, 0, x, scope, at, q, sim) == []
  {
  }

  /** The candidates seen so far. */
  ghost function Seen(before: seq<Scored>, a: Arena, n: nat, x: Index, scope: Name, at: nat, q: Vector,
                      sim: Similarity): seq<Scored>
    requires n <= |a.ids|
  {
    before + Offers(a, n, x, scope, at, q, sim)
  }

  lemma SeenNext(before: seq<Scored>, a: Arena, i: nat, x: Index, scope: Name, at: nat, q: Vector, sim: Similarity)
    requires i < |a.ids|
    ensures var id := a.ids[i]; var c := Scored(sim(q, RowIn(a, id)), id);
      var all := Seen(before, a, i, x, scope, at, q, sim);
      Seen(before, a, i + 1, x, scope, at, q, sim) ==
        if c.score > 0.0 && Visible(x, scope, at, id).Some? then all + [c] else all
  {
    hide Visible;
    var s := Offers(a, i, x, scope, at, q, sim);
    var c := Scored(sim(q, RowIn(a, a.ids[i])), a.ids[i]);
    assert before + (s + [c]) == (before + s) + [c];
    assert s + [] == s;
  }

  lemma SeenEnds(before: seq<Scored>, a: Arena, x: Index, scope: Name, at: nat, q: Vector, sim: Similarity)
    ensures Seen(before, a, 0, x, scope, at, q, sim) == before
    ensures before + OffersOf(Some(a), x, scope, at, q, sim) ==
      if a.dim != |q| then before else Seen(before, a, |a.ids|, x, scope, at, q, sim)
  {
    OffersNone(a, x, scope, at, q, sim);
    hide Offers;
    assert before + [] == before;
  }

  /** One candidate: skipped if it cannot get in, else kept if it may be seen. */
  method Offer(x: Index, scope: Name, at: nat, cap: nat, best: seq<Scored>, c: Scored, ghost all: seq<Scored>)
    returns (best': seq<Scored>)
    requires TopOf(best, all, cap)
    ensures TopOf(best', if c.score > 0.0 && Visible(x, scope, at, c.id).Some? then all + [c] else all, cap)
  {
    hide TopOf, Visible, LeastAt;
    best' := best;
    if c.score > 0.0 {
      if |best| == cap && best != [] {
        var w := Least(best);
        LeastInside(best, w);
        if c.score <= best[w].score {
          TopDeclines(best, all, cap, c, w);
          return;
        }
      }
      if Visible(x, scope, at, c.id).Some? {
        best' := Push(best, cap, c, all);
      }
    }
  }

  /** Scan one arena into the bounded heap. */
  method ScanArena(a: Arena, x: Index, scope: Name, at: nat, q: Vector, sim: Similarity, cap: nat, best: seq<Scored>,
                   ghost before: seq<Scored>)
    returns (best': seq<Scored>)
    requires TopOf(best, before, cap)
    ensures TopOf(best', before + OffersOf(Some(a), x, scope, at, q, sim), cap)
  {
    best' := best;
    SeenEnds(before, a, x, scope, at, q, sim);
    hide TopOf, Visible, RowIn, Seen, OffersOf;
    if a.dim != |q| {
      return;
    }
    for i := 0 to |a.ids|
      invariant TopOf(best', Seen(before, a, i, x, scope, at, q, sim), cap)
    {
      SeenNext(before, a, i, x, scope, at, q, sim);
      var id := a.ids[i];
      ghost var seen := Seen(before, a, i, x, scope, at, q, sim);
      best' := Offer(x, scope, at, cap, best', Scored(sim(q, RowIn(a, id)), id), seen);
    }
  }

  /** The exact search: a choice of the 3k best of the scope's own candidates. */
  method ExactSearch(x: Index, scope: Name, at: nat, q: Vector, sim: Similarity, k: nat) returns (best: seq<Scored>)
    ensures TopOf(best, Candidates(x, scope, at, q, sim), 3 * k)
  {
    hide TopOf, OffersOf;
    best := [];
    TopNone(3 * k);
    var own, shared := ArenaFor(x, scope), ArenaFor(x, []);
    OffersOfNone(x, scope, at, q, sim);
    ghost var first := OffersOf(own, x, scope, at, q, sim);
    assert [] + first == first && first + [] == first;
    if own.Some? {
      best := ScanArena(own.value, x, scope, at, q, sim, 3 * k, best, []);
    }
    if shared.Some? {
      best := ScanArena(shared.value, x, scope, at, q, sim, 3 * k, best, first);
    }
  }

  lemma OffersOfNone(x: Index, scope: Name, at: nat, q: Vector, sim: Similarity)
    ensures OffersOf(None, x, scope, at, q, sim) == []
  {
  }

  // ---- other owners

  lemma InsertElsewhere(x: Index, id: Id, m: Meta, row: Option<Vector>, scope: Name, at: nat, q: Vector,
                        sim: Similarity)
    requires Interning(x.owners, x.ownerIds) && (forall o :: o in x.arenas ==> o < |x.owners|)
    requires m.owner != scope && m.owner != [] && id !in x.recs
    requires forall r :: r in x.recs ==> x.recs[r].owner < |x.owners|
    requires forall owner, a :: owner in {scope, []} && ArenaFor(x, owner) == Some(a) ==> id !in a.ids
    ensures Candidates(Inserted(x, id, m, row), scope, at, q, sim) == Candidates(x, scope, at, q, sim)
    ensures ScopedCount(Inserted(x, id, m, row), scope) == ScopedCount(x, scope)
  {
    var y := Inserted(x, id, m, row);
    hide Pushed;
    SameArena(x, id, m, row, scope);
    SameArena(x, id, m, row, []);
    forall r | r != id ensures Visible(y, scope, at, r) == Visible(x, scope, at, r) {
      SameVisible(x, id, m, row, scope, at, r);
    }
    hide Inserted, Visible;
    if ArenaFor(x, scope).Some? {
      var a := ArenaFor(x, scope).value;
      assert scope in {scope, []};
      SameOffers(a, |a.ids|, x, y, scope, at, q, sim);
    }
    if ArenaFor(x, []).Some? {
      var a := ArenaFor(x, []).value;
      assert [] in {scope, []};
      SameOffers(a, |a.ids|, x, y, scope, at, q, sim);
    }
  }

  /** Storing or dropping another owner's memory changes nothing this scope's search is made of. */
  lemma OthersDoNotMatter(x: Index, rs: Records, vdim: nat, unit: Vector -> Vector, id: Id, m: Meta,
                          row: Option<Vector>,
                          scope: Name, at: nat, q: Vector, sim: Similarity)
    requires Agrees(x, rs, vdim, unit) && m.owner != scope && m.owner != []
    ensures id !in rs.metas ==>
      && Candidates(Inserted(x, id, m, row), scope, at, q, sim) == Candidates(x, scope, at, q, sim)
      && ScopedCount(Inserted(x, id, m, row), scope) == ScopedCount(x, scope)
    ensures id in rs.metas && rs.metas[id].owner == m.owner ==>
      && Candidates(Dropped(x, id), scope, at, q, sim) == Candidates(x, scope, at, q, sim)
      && ScopedCount(Dropped(x, id), scope) == ScopedCount(x, scope)
  {
    ArenaIdsOwned(x, rs, vdim, unit, scope);
    ArenaIdsOwned(x, rs, vdim, unit, []);
    RecsOwned(x, rs, vdim, unit);
    hide Candidates, ScopedCount, Inserted, Dropped, ArenaFor;
    if id !in rs.metas {
      InsertElsewhere(x, id, m, row, scope, at, q, sim);
    } else if rs.metas[id].owner == m.owner {
      DropElsewhere(x, rs, vdim, unit, id, scope, at, q, sim);
    }
  }

  lemma RecsOwned(x: Index, rs: Records, vdim: nat, unit: Vector -> Vector)
    requires Agrees(x, rs, vdim, unit)
    ensures Interning(x.owners, x.ownerIds) && (forall o :: o in x.arenas ==> o < |x.owners|)
    ensures forall r :: r in x.recs <==> r in rs.metas
    ensures forall r :: r in x.recs ==> x.recs[r].owner < |x.owners| && x.owners[x.recs[r].owner] == rs.metas[r].owner
  {
    forall r | r in x.recs ensures x.recs[r].owner < |x.owners| && x.owners[x.recs[r].owner] == rs.metas[r].owner {
      assert InfoMatches(x.owners, x.recs[r], rs.metas[r]);
    }
    hide ArenaAgrees;
  }

  lemma ArenaIdsOwned(x: Index, rs: Records, vdim: nat, unit: Vector -> Vector, owner: Name)
    requires Agrees(x, rs, vdim, unit)
    ensures ArenaFor(x, owner).Some? ==>
      forall id :: id in ArenaFor(x, owner).value.ids ==> id in rs.metas && rs.metas[id].owner == owner
  {
    if ArenaFor(x, owner).Some? {
      var o := x.ownerIds[owner];
      assert ArenaAgrees(ArenaOf(x.arenas, o), x.owners[o], rs.metas, rs.vectors, vdim, unit);
    }
  }

  lemma DropElsewhere(x: Index, rs: Records, vdim: nat, unit: Vector -> Vector, id: Id, scope: Name, at: nat,
                      q: Vector, sim: Similarity)
    requires Agrees(x, rs, vdim, unit) && id in rs.metas && rs.metas[id].owner != scope && rs.metas[id].owner != []
    ensures Candidates(Dropped(x, id), scope, at, q, sim) == Candidates(x, scope, at, q, sim)
    ensures ScopedCount(Dropped(x, id), scope) == ScopedCount(x, scope)
  {
    hide Agrees;
    ArenaIdsOwned(x, rs, vdim, unit, scope);
    ArenaIdsOwned(x, rs, vdim, unit, []);
    RecsOwned(x, rs, vdim, unit);
    var y := Dropped(x, id);
    DroppedArena(x, id, scope);
    DroppedArena(x, id, []);
    forall r | r != id ensures Visible(y, scope, at, r) == Visible(x, scope, at, r) {
      DroppedVisible(x, id, scope, at, r);
    }
    hide Dropped, Visible, Interning;
    if ArenaFor(x, scope).Some? {
      var a := ArenaFor(x, scope).value;
      ApartFrom(a.ids, rs.metas, id, scope);
      SameOffers(a, |a.ids|, x, y, scope, at, q, sim);
    }
    if ArenaFor(x, []).Some? {
      var a := ArenaFor(x, []).value;
      ApartFrom(a.ids, rs.metas, id, []);
      SameOffers(a, |a.ids|, x, y, scope, at, q, sim);
    }
  }

  lemma ApartFrom(ids: seq<Id>, metas: map<Id, Meta>, id: Id, owner: Name)
    requires id in metas && metas[id].owner != owner
    requires forall k :: k in ids ==> k in metas && metas[k].owner == owner
    ensures forall i :: 0 <= i < |ids| ==> ids[i] != id
  {
  }

  lemma DroppedArena(x: Index, id: Id, owner: Name)
    requires Interning(x.owners, x.ownerIds) && id in x.recs && x.recs[id].owner < |x.owners|
    requires x.owners[x.recs[id].owner] != owner
    ensures ArenaFor(Dropped(x, id), owner) == ArenaFor(x, owner)
  {
    hide Removed;
  }

  lemma DroppedVisible(x: Index, id: Id, scope: Name, at: nat, r: Id)
    requires r != id
    ensures Visible(Dropped(x, id), scope, at, r) == Visible(x, scope, at, r)
  {
    hide Removed;
  }

  lemma SameArena(x: Index, id: Id, m: Meta, row: Option<Vector>, owner: Name)
    requires Interning(x.owners, x.ownerIds) && (forall o :: o in x.arenas ==> o < |x.owners|) && m.owner != owner
    ensures ArenaFor(Inserted(x, id, m, row), owner) == ArenaFor(x, owner)
  {
    hide Pushed;
  }

  lemma SameVisible(x: Index, id: Id, m: Meta, row: Option<Vector>, scope: Name, at: nat, r: Id)
    requires Interning(x.owners, x.ownerIds) && m.owner != scope && m.owner != [] && r != id
    requires forall k :: k in x.recs ==> x.recs[k].owner < |x.owners|
    ensures Visible(Inserted(x, id, m, row), scope, at, r) == Visible(x, scope, at, r)
  {
    hide Pushed;
  }

  lemma {:induction false} SameOffers(a: Arena, n: nat, x: Index, y: Index, scope: Name, at: nat, q: Vector,
                                      sim: Similarity)
    requires n <= |a.ids|
    requires forall i :: 0 <= i < n ==> Visible(y, scope, at, a.ids[i]) == Visible(x, scope, at, a.ids[i])
    ensures Offers(a, n, y, scope, at, q, sim) == Offers(a, n, x, scope, at, q, sim)
  {
    hide Visible;
    if n > 0 {
      SameOffers(a, n - 1, x, y, scope, at, q, sim);
    }
  }

  // ---- each record once

  lemma {:induction false} OffersFromIds(a: Arena, n: nat, x: Index, scope: Name, at: nat, q: Vector, sim: Similarity)
    requires n <= |a.ids| && WellFormed(a)
    ensures DistinctIds(Offers(a, n, x, scope, at, q, sim))
    ensures forall c :: c in Offers(a, n, x, scope, at, q, sim) ==>
      && c.score > 0.0 && Visible(x, scope, at, c.id).Some? && c.score == sim(q, RowIn(a, c.id))
      && exists i :: 0 <= i < n && a.ids[i] == c.id
  {
    hide Visible, RowIn;
    if n > 0 {
      OffersFromIds(a, n - 1, x, scope, at, q, sim);
      var s := Offers(a, n - 1, x, scope, at, q, sim);
      forall i | 0 <= i < |s| ensures s[i].id != a.ids[n - 1] {
        assert s[i] in s;
      }
    }
  }

  lemma {:induction false} OffersHas(a: Arena, n: nat, x: Index, scope: Name, at: nat, q: Vector, sim: Similarity,
                                     i: nat)
    requires i < n <= |a.ids| && sim(q, RowIn(a, a.ids[i])) > 0.0 && Visible(x, scope, at, a.ids[i]).Some?
    ensures Scored(sim(q, RowIn(a, a.ids[i])), a.ids[i]) in Offers(a, n, x, scope, at, q, sim)
  {
    hide Visible, RowIn;
    if i < n - 1 {
      OffersHas(a, n - 1, x, scope, at, q, sim, i);
    }
  }

  /**
   * The records the exact search is for, with the cosine of each one's own stored vector:
   * visible to the scope at `at`, as wide as the query, and of positive cosine.
   */
  ghost function Matches(rs: Records, scope: Name, at: nat, q: Vector, sim: Similarity, vdim: nat,
                         unit: Vector -> Vector): map<Id, real> {
    map id | id in rs.metas && IsMatch(rs, scope, at, q, sim, vdim, unit, id) :: sim(q, unit(rs.vectors[id]))
  }

  ghost predicate IsMatch(rs: Records, scope: Name, at: nat, q: Vector, sim: Similarity, vdim: nat,
                          unit: Vector -> Vector, id: Id) {
    && id in rs.metas && id in rs.vectors && MaySee(rs.metas[id], scope, at)
    && |q| == vdim && sim(q, unit(rs.vectors[id])) > 0.0
  }

  /** `s` lists one owner's matches, each once. */
  ghost predicate ListsOwned(s: seq<Scored>, m: map<Id, real>, metas: map<Id, Meta>, owner: Name) {
    && DistinctIds(s)
    && (forall c :: c in s ==> c.id in m && m[c.id] == c.score && c.id in metas && metas[c.id].owner == owner)
    && (forall id :: id in m && id in metas && metas[id].owner == owner ==> Scored(m[id], id) in s)
  }

  /** An arena a scope may search offers exactly its owner's matches. */
  lemma OwnOffers(x: Index, rs: Records, vdim: nat, unit: Vector -> Vector, owner: Name, scope: Name, at: nat,
                  q: Vector, sim: Similarity)
    requires Agrees(x, rs, vdim, unit) && (owner == scope || owner == [])
    ensures ListsOwned(OffersOf(ArenaFor(x, owner), x, scope, at, q, sim),
                       Matches(rs, scope, at, q, sim, vdim, unit), rs.metas, owner)
  {
    hide Agrees, ArenaAgrees, ArenaFor, Matches, ListsOwned, IsMatch, OffersOf;
    if ArenaFor(x, owner).Some? {
      var a := ArenaFor(x, owner).value;
      ArenaForIs(x, rs, vdim, unit, owner);
      if a.dim == |q| {
        ArenaLists(a, x, rs, vdim, unit, owner, scope, at, q, sim);
      } else {
        OtherWidth(a, rs, vdim, unit, owner, scope, at, q, sim);
      }
      OffersOfArena(a, x, scope, at, q, sim);
    } else {
      NoArena(x, rs, vdim, unit, owner, scope, at, q, sim);
      OffersOfNone(x, scope, at, q, sim);
    }
  }

  lemma OffersOfArena(a: Arena, x: Index, scope: Name, at: nat, q: Vector, sim: Similarity)
    ensures OffersOf(Some(a), x, scope, at, q, sim) == if a.dim ==
      |q| then Offers(a, |a.ids|, x, scope, at, q, sim) else []
  {
    hide Offers;
  }

  lemma ArenaForIs(x: Index, rs: Records, vdim: nat, unit: Vector -> Vector, owner: Name)
    requires Agrees(x, rs, vdim, unit) && ArenaFor(x, owner).Some?
    ensures ArenaAgrees(ArenaFor(x, owner).value, owner, rs.metas, rs.vectors, vdim, unit)
  {
    hide ArenaAgrees, RecsAgree;
    var o := x.ownerIds[owner];
    assert x.owners[o] == owner && ArenaOf(x.arenas, o) == x.arenas[o];
  }

  /** A record's vector is in its owner's arena. */
  lemma UnownedVectors(x: Index, rs: Records, vdim: nat, unit: Vector -> Vector, owner: Name)
    requires Agrees(x, rs, vdim, unit) && ArenaFor(x, owner).None?
    ensures forall id :: id in rs.metas && id in rs.vectors ==> rs.metas[id].owner != owner
  {
    forall id | id in rs.metas && id in rs.vectors ensures rs.metas[id].owner != owner {
      assert InfoMatches(x.owners, x.recs[id], rs.metas[id]);
      if owner in x.ownerIds {
        var o := x.ownerIds[owner];
        assert ArenaAgrees(ArenaOf(x.arenas, o), owner, rs.metas, rs.vectors, vdim, unit);
        assert ArenaOf(x.arenas, o) == EMPTY;
      }
    }
  }

  lemma NoArena(x: Index, rs: Records, vdim: nat, unit: Vector -> Vector, owner: Name, scope: Name, at: nat, q: Vector,
                sim: Similarity)
    requires Agrees(x, rs, vdim, unit) && ArenaFor(x, owner).None?
    ensures ListsOwned([], Matches(rs, scope, at, q, sim, vdim, unit), rs.metas, owner)
  {
    hide MaySee, Agrees;
    UnownedVectors(x, rs, vdim, unit, owner);
  }

  lemma OtherWidth(a: Arena, rs: Records, vdim: nat, unit: Vector -> Vector, owner: Name, scope: Name, at: nat,
                   q: Vector, sim: Similarity)
    requires ArenaAgrees(a, owner, rs.metas, rs.vectors, vdim, unit) && a.dim != |q|
    ensures ListsOwned([], Matches(rs, scope, at, q, sim, vdim, unit), rs.metas, owner)
  {
    hide MaySee;
    forall id | id in rs.metas && id in rs.vectors && |q| == vdim ensures rs.metas[id].owner != owner {
      assert id in a.rows ==> id in a.ids;
    }
  }

  lemma ArenaLists(a: Arena, x: Index, rs: Records, vdim: nat, unit: Vector -> Vector, owner: Name, scope: Name,
                   at: nat, q: Vector, sim: Similarity)
    requires Agrees(x, rs, vdim, unit) && ArenaAgrees(a, owner, rs.metas, rs.vectors, vdim, unit)
    requires a.dim == |q| && (owner == scope || owner == [])
    ensures ListsOwned(Offers(a, |a.ids|, x, scope, at, q, sim),
                       Matches(rs, scope, at, q, sim, vdim, unit), rs.metas, owner)
  {
    hide Agrees, Visible, MaySee, Offers, Matches, IsMatch, DistinctIds;
    var s, m := Offers(a, |a.ids|, x, scope, at, q, sim), Matches(rs, scope, at, q, sim, vdim, unit);
    OffersFromIds(a, |a.ids|, x, scope, at, q, sim);
    forall c | c in s ensures c.id in m && m[c.id] == c.score && c.id in rs.metas && rs.metas[c.id].owner == owner {
      var i :| 0 <= i < |a.ids| && a.ids[i] == c.id;
      OfferIsMatch(a, x, rs, vdim, unit, owner, scope, at, q, sim, i);
    }
    forall id | id in m && id in rs.metas && rs.metas[id].owner == owner ensures Scored(m[id], id) in s {
      MatchIsOffered(a, x, rs, vdim, unit, owner, scope, at, q, sim, id);
    }
  }

  lemma OfferIsMatch(a: Arena, x: Index, rs: Records, vdim: nat, unit: Vector -> Vector, owner: Name, scope: Name,
                     at: nat,
                     q: Vector, sim: Similarity, i: nat)
    requires Agrees(x, rs, vdim, unit) && ArenaAgrees(a, owner, rs.metas, rs.vectors, vdim, unit)
    requires a.dim == |q| && i < |a.ids| && sim(q, RowIn(a, a.ids[i])) > 0.0 && Visible(x, scope, at, a.ids[i]).Some?
    ensures var id, m := a.ids[i], Matches(rs, scope, at, q, sim, vdim, unit);
      id in m && m[id] == sim(q, RowIn(a, id)) && id in rs.metas && rs.metas[id].owner == owner
  {
    hide Agrees, Visible, MaySee;
    VisibleIs(x, rs, vdim, unit, scope, at, a.ids[i]);
    assert a.ids[i] in a.ids;
  }

  lemma MatchIsOffered(a: Arena, x: Index, rs: Records, vdim: nat, unit: Vector -> Vector, owner: Name, scope: Name,
                       at: nat,
                       q: Vector, sim: Similarity, id: Id)
    requires Agrees(x, rs, vdim, unit) && ArenaAgrees(a, owner, rs.metas, rs.vectors, vdim, unit)
    requires id in Matches(rs, scope, at, q, sim, vdim, unit) && id in rs.metas && rs.metas[id].owner == owner
    ensures Scored(Matches(rs, scope, at, q, sim, vdim, unit)[id], id) in Offers(a, |a.ids|, x, scope, at, q, sim)
  {
    hide Agrees, Visible, MaySee, Offers;
    VisibleIs(x, rs, vdim, unit, scope, at, id);
    assert id in a.rows && id in a.ids;
    var i :| 0 <= i < |a.ids| && a.ids[i] == id;
    OffersHas(a, |a.ids|, x, scope, at, q, sim, i);
  }

  /**
   * The candidates are exactly the matching records, scored by the cosine of their own stored
   * vectors. A scope with a name offers each once. The empty scope is its own legacy scope:
   * both arenas are the same one, and each record is offered twice.
   */
  lemma CandidatesAre(x: Index, rs: Records, vdim: nat, unit: Vector -> Vector, scope: Name, at: nat, q: Vector,
                      sim: Similarity)
    requires Agrees(x, rs, vdim, unit)
    ensures var m := Matches(rs, scope, at, q, sim, vdim, unit);
      if scope != [] then Entries(Candidates(x, scope, at, q, sim), m)
      else
        var s := OffersOf(ArenaFor(x, []), x, [], at, q, sim);
        Entries(s, m) && Candidates(x, [], at, q, sim) == Twice(s)
  {
    OwnOffers(x, rs, vdim, unit, scope, scope, at, q, sim);
    OwnOffers(x, rs, vdim, unit, [], scope, at, q, sim);
    MatchesOwned(rs, scope, at, q, sim, vdim, unit);
    hide Agrees, OffersOf, ArenaFor, Matches;
    var m := Matches(rs, scope, at, q, sim, vdim, unit);
    var a, b := OffersOf(ArenaFor(x, scope), x, scope, at, q, sim), OffersOf(ArenaFor(x, []), x, scope, at, q, sim);
    if scope != [] {
      TwoOwners(a, b, m, rs.metas, scope);
    } else {
      OneOwner(a, m, rs.metas);
    }
  }

  lemma MatchesOwned(rs: Records, scope: Name, at: nat, q: Vector, sim: Similarity, vdim: nat, unit: Vector -> Vector)
    ensures forall id :: id in Matches(rs, scope, at, q, sim, vdim, unit) ==>
      id in rs.metas && (rs.metas[id].owner == scope || rs.metas[id].owner == [])
  {
    hide InWindow;
  }

  lemma TwoOwners(a: seq<Scored>, b: seq<Scored>, m: map<Id, real>, metas: map<Id, Meta>, scope: Name)
    requires ListsOwned(a, m, metas, scope) && ListsOwned(b, m, metas, []) && scope != []
    requires forall id :: id in m ==> id in metas && (metas[id].owner == scope || metas[id].owner == [])
    ensures Entries(a + b, m)
  {
    forall i, k | 0 <= i < |a| && 0 <= k < |b| ensures a[i].id != b[k].id {
      assert a[i] in a && b[k] in b;
    }
    hide Entries;
    ListsAll(a + b, m);
  }

  lemma OneOwner(a: seq<Scored>, m: map<Id, real>, metas: map<Id, Meta>)
    requires ListsOwned(a, m, metas, []) && forall id :: id in m ==> id in metas && metas[id].owner == []
    ensures Entries(a, m)
  {
    hide Entries, DistinctIds;
    ListsAll(a, m);
  }

  /** Whether the exact search is sure to keep a best choice of the matching records. */
  predicate Dependable(scope: Name, matches: nat, k: nat) {
    scope != [] || k == 0 || 2 * matches <= 3 * k + 1
  }

  /** Any choice among the candidates is then a choice of the matching records. */
  lemma KeptAreBest(x: Index, rs: Records, vdim: nat, unit: Vector -> Vector, scope: Name, at: nat, q: Vector,
                    sim: Similarity,
                    best: seq<Scored>, k: nat)
    requires Agrees(x, rs, vdim, unit) && TopOf(best, Candidates(x, scope, at, q, sim), 3 * k)
    requires Dependable(scope, |Matches(rs, scope, at, q, sim, vdim, unit)|, k)
    ensures TopSet(IdsOf(best), Matches(rs, scope, at, q, sim, vdim, unit), 3 * k)
  {
    hide Agrees, Candidates, OffersOf, Matches, TopOf, Entries, TopSet;
    CandidatesAre(x, rs, vdim, unit, scope, at, q, sim);
    var m := Matches(rs, scope, at, q, sim, vdim, unit);
    if scope != [] {
      TopIsTopSet(best, Candidates(x, scope, at, q, sim), 3 * k, m);
    } else {
      TwiceKeeps(best, OffersOf(ArenaFor(x, []), x, [], at, q, sim), 3 * k, m);
    }
  }

  /**
   * And only then: for the empty scope this is the exact condition, and without ties it decides every single
   * search.
   */
  lemma EmptyScopeIsExact(x: Index, rs: Records, vdim: nat, unit: Vector -> Vector, at: nat, q: Vector,
                          sim: Similarity, k: nat)
    requires Agrees(x, rs, vdim, unit)
    ensures var m := Matches(rs, [], at, q, sim, vdim, unit);
      && ((forall best :: TopOf(best, Candidates(x, [], at, q, sim), 3 * k) ==> TopSet(IdsOf(best), m, 3 * k))
          <==> Dependable([], |m|, k))
      && (AllDiffer(m) ==> forall best :: TopOf(best, Candidates(x, [], at, q, sim), 3 * k) ==>
            (TopSet(IdsOf(best), m, 3 * k) <==> Dependable([], |m|, k)))
  {
    hide Agrees, Candidates, OffersOf, Matches, TopOf, Entries, TopSet, AllDiffer;
    CandidatesAre(x, rs, vdim, unit, [], at, q, sim);
    var m := Matches(rs, [], at, q, sim, vdim, unit);
    var s := OffersOf(ArenaFor(x, []), x, [], at, q, sim);
    TwiceIsSafeIff(s, 3 * k, m);
    if AllDiffer(m) {
      forall best | TopOf(best, Twice(s), 3 * k) ensures TopSet(IdsOf(best), m, 3 * k) <==> Dependable([], |m|, k) {
        if Dependable([], |m|, k) {
          TwiceKeeps(best, s, 3 * k, m);
        } else {
          TwiceDrops(best, s, 3 * k, m);
        }
      }
    }
  }

  // ---- an empty scope that loses a record

  const QUERY: Vector := [1.0, 0.0]
  const FIRST: Vector := [0.96, 0.28]
  const SECOND: Vector := [0.8, 0.6]
  const THIRD: Vector := [0.6, 0.8]
  const LEGACY := Meta([], 0, 1.0, [], 0, 0, [])

  function Inner(u: Vector, v: Vector): real {
    if |u| == 2 && |v| == 2 then u[0] * v[0] + u[1] * v[1] else 0.0
  }

  function AsIs(v: Vector): Vector { v }

  function ThreeRecords(): Records {
    Stored(Stored(Stored(NOTHING, 1, [], LEGACY, FIRST, []), 2, [], LEGACY, SECOND, []), 3, [], LEGACY, THIRD, [])
  }

  function ThreeIndexed(): Index {
    Inserted(Inserted(Inserted(NO_INDEX, 1, LEGACY, Some(FIRST)), 2, LEGACY, Some(SECOND)), 3, LEGACY, Some(THIRD))
  }

  lemma ThreeAgree()
    ensures Agrees(ThreeIndexed(), ThreeRecords(), 2, AsIs)
  {
    hide Agrees, Inserted, Scaling;
    NothingAgrees();
    var rs1 := Stored(NOTHING, 1, [], LEGACY, FIRST, []);
    var rs2 := Stored(rs1, 2, [], LEGACY, SECOND, []);
    var x1 := Inserted(NO_INDEX, 1, LEGACY, Some(FIRST));
    var x2 := Inserted(x1, 2, LEGACY, Some(SECOND));
    InsertAgrees(NO_INDEX, NOTHING, 2, AsIs, 1, [], LEGACY, FIRST, []);
    InsertAgrees(x1, rs1, 2, AsIs, 2, [], LEGACY, SECOND, []);
    InsertAgrees(x2, rs2, 2, AsIs, 3, [], LEGACY, THIRD, []);
  }

  lemma NothingAgrees()
    ensures Agrees(NO_INDEX, NOTHING, 2, AsIs) && Scaling(AsIs)
  {
  }

  lemma ThreeMatches()
    ensures Matches(ThreeRecords(), [], 1, QUERY, Inner, 2, AsIs) == map[1 := 0.96, 2 := 0.8, 3 := 0.6]
  {
    var rs := ThreeRecords();
    assert rs.metas == map[1 := LEGACY, 2 := LEGACY, 3 := LEGACY];
    assert rs.vectors == map[1 := FIRST, 2 := SECOND, 3 := THIRD];
    assert Inner(QUERY, FIRST) == 0.96 && Inner(QUERY, SECOND) == 0.8 && Inner(QUERY, THIRD) == 0.6;
  }

  /** Three places and three matching records, but the third is crowded out by a second copy of the first. */
  lemma EmptyScopeLosesARecord()
    ensures var m := Matches(ThreeRecords(), [], 1, QUERY, Inner, 2, AsIs);
      && m.Keys == {1, 2, 3}
      && forall best :: TopOf(best, Candidates(ThreeIndexed(), [], 1, QUERY, Inner), 3) ==> IdsOf(best) == {1, 2}
  {
    ThreeAgree();
    ThreeMatches();
    hide Agrees, Candidates, OffersOf, Matches, ThreeIndexed, ThreeRecords, Entries, TopOf, IdsOf;
    var x, rs := ThreeIndexed(), ThreeRecords();
    var m := Matches(rs, [], 1, QUERY, Inner, 2, AsIs);
    CandidatesAre(x, rs, 2, AsIs, [], 1, QUERY, Inner);
    assert |m| == 3;
    forall best | TopOf(best, Candidates(x, [], 1, QUERY, Inner), 3) ensures IdsOf(best) == {1, 2} {
      TwiceDrops(best, OffersOf(ArenaFor(x, []), x, [], 1, QUERY, Inner), 3, m);
      BetterTwo(IdsOf(best));
    }
  }

  lemma HigherFirst(kept: set<Id>, m: map<Id, real>, cap: nat, a: Id, b: Id)
    requires TopSet(kept, m, cap) && a in m && b in m && m[b] < m[a]
    ensures b in kept ==> a in kept
  {
  }

  lemma BetterTwo(kept: set<Id>)
    requires TopSet(kept, map[1 := 0.96, 2 := 0.8, 3 := 0.6], 2)
    ensures kept == {1, 2}
  {
    var m: map<Id, real> := map[1 := 0.96, 2 := 0.8, 3 := 0.6];
    var all: set<Id> := {1, 2, 3};
    assert kept <= all && |all| == 3 && |m| == 3;
    HigherFirst(kept, m, 2, 1, 3);
    HigherFirst(kept, m, 2, 2, 3);
    assert kept != all;
    assert kept <= {1, 2};
    SameSize(kept, {1, 2});
  }

  // ------------------------------------------------------------ fusing with keywords

  /** The records that carry a query token, and what one match adds before salience. */
  datatype Posting = Posting(ids: seq<Id>, weight: real)

  type Fused = map<Id, real>

  function Boost(sal: real): real { 0.5 + 0.5 * sal }

  function Weighted(similarity: real, sal: real): real { similarity * Boost(sal) }

  /** A semantic hit counts by similarity, if it is more than none, scaled by salience. */
  function Admitted(f: Fused, x: Index, scope: Name, at: nat, id: Id, similarity: real): Fused {
    match Visible(x, scope, at, id)
    case Some(sal) => if similarity > 0.5 then f[id := Weighted(similarity, sal)] else f
    case None => f
  }

  function KeywordAdd(w: real, sal: real): real { w * 0.8 * Boost(sal) }

  /** What the first `n` tokens add to a record. */
  function KeywordSum(ps: seq<Posting>, n: nat, id: Id, sal: real): real
    requires n <= |ps|
  {
    if n == 0 then 0.0
    else KeywordSum(ps, n - 1, id, sal) + if id in ps[n - 1].ids then KeywordAdd(ps[n - 1].weight, sal) else 0.0
  }

  ghost predicate Matched(ps: seq<Posting>, n: nat, id: Id) {
    exists i :: 0 <= i < n && i < |ps| && id in ps[i].ids
  }

  /** The pool after `n` tokens: semantic hits and visible keyword matches, with summed scores. */
  ghost predicate Pooled(f: Fused, sem: Fused, x: Index, scope: Name, at: nat, ps: seq<Posting>, n: nat)
    requires n <= |ps|
  {
    forall id :: PooledAt(f, sem, x, scope, at, ps, n, id)
  }

  ghost predicate PooledAt(f: Fused, sem: Fused, x: Index, scope: Name, at: nat, ps: seq<Posting>, n: nat, id: Id)
    requires n <= |ps|
  {
    var v := Visible(x, scope, at, id);
    && (id in f <==> id in sem || (v.Some? && Matched(ps, n, id)))
    && (id in f ==>
          f[id] == (if id in sem then sem[id] else 0.0) + if v.Some? then KeywordSum(ps, n, id, v.value) else 0.0)
  }

  ghost predicate NoRepeats(ids: seq<Id>) {
    forall i, k :: 0 <= i < k < |ids| ==> ids[i] != ids[k]
  }

  /** The keyword stage. */
  method AddKeywords(sem: Fused, x: Index, scope: Name, at: nat, ps: seq<Posting>, ghost toks: seq<Token>,
                     ghost rs: Records)
    returns (f: Fused)
    requires PostingsOf(ps, toks, rs)
    requires forall id :: id in sem ==> Visible(x, scope, at, id).Some?
    ensures Pooled(f, sem, x, scope, at, ps, |ps|)
  {
    hide Visible, KeywordAdd, NoRepeats;
    f := sem;
    for t := 0 to |ps|
      invariant Pooled(f, sem, x, scope, at, ps, t)
    {
      ghost var before := f;
      hide Pooled;
      f := AddToken(f, x, scope, at, ps[t]);
      TokenPools(before, f, sem, x, scope, at, ps, t);
    }
  }

  /** One token: every visible record under it gets the token's weight. */
  method AddToken(f: Fused, x: Index, scope: Name, at: nat, p: Posting) returns (f': Fused)
    requires NoRepeats(p.ids)
    ensures forall id :: TokenAt(f, f', x, scope, at, p, |p.ids|, id)
  {
    hide Visible, KeywordAdd;
    f' := f;
    for i := 0 to |p.ids|
      invariant forall id :: TokenAt(f, f', x, scope, at, p, i, id)
    {
      var id := p.ids[i];
      assert p.ids[..i + 1] == p.ids[..i] + [id];
      assert id !in p.ids[..i];
      var v := Visible(x, scope, at, id);
      ghost var was := f';
      assert TokenAt(f, was, x, scope, at, p, i, id);
      match v {
        case None =>
        case Some(sal) =>
          var add := KeywordAdd(p.weight, sal);
          f' := f'[id := if id in f' then f'[id] + add else add];
      }
      ghost var next := i + 1;
      forall k ensures TokenAt(f, f', x, scope, at, p, next, k) {
        assert TokenAt(f, was, x, scope, at, p, i, k);
      }
    }
    assert p.ids[..|p.ids|] == p.ids;
  }

  /** What the first `i` records of one token did to `id`. */
  ghost predicate TokenAt(f: Fused, f': Fused, x: Index, scope: Name, at: nat, p: Posting, i: nat, id: Id)
    requires i <= |p.ids|
  {
    var v := Visible(x, scope, at, id);
    if v.Some? && id in p.ids[..i] then
      id in f' && f'[id] == (if id in f then f[id] else 0.0) + KeywordAdd(p.weight, v.value)
    else (id in f' <==> id in f) && (id in f ==> f'[id] == f[id])
  }

  lemma TokenPools(f: Fused, f': Fused, sem: Fused, x: Index, scope: Name, at: nat, ps: seq<Posting>, t: nat)
    requires t < |ps| && Pooled(f, sem, x, scope, at, ps, t)
    requires forall id :: TokenAt(f, f', x, scope, at, ps[t], |ps[t].ids|, id)
    requires forall id :: id in sem ==> Visible(x, scope, at, id).Some?
    ensures Pooled(f', sem, x, scope, at, ps, t + 1)
  {
    hide Visible, KeywordAdd;
    assert ps[t].ids[..|ps[t].ids|] == ps[t].ids;
    var next := t + 1;
    forall id ensures PooledAt(f', sem, x, scope, at, ps, next, id) {
      assert TokenAt(f, f', x, scope, at, ps[t], |ps[t].ids|, id);
      assert PooledAt(f, sem, x, scope, at, ps, t, id);
      MatchedNext(ps, t, id);
      if !Matched(ps, t, id) && Visible(x, scope, at, id).Some? {
        UnmatchedSum(ps, t, id, Visible(x, scope, at, id).value);
      }
    }
  }

  lemma MatchedNext(ps: seq<Posting>, t: nat, id: Id)
    requires t < |ps|
    ensures Matched(ps, t + 1, id) <==> Matched(ps, t, id) || id in ps[t].ids
  {
    if id in ps[t].ids {
      assert t < t + 1;
    }
  }

  lemma {:induction false} UnmatchedSum(ps: seq<Posting>, n: nat, id: Id, sal: real)
    requires n <= |ps| && !Matched(ps, n, id)
    ensures KeywordSum(ps, n, id, sal) == 0.0
  {
    if n > 0 {
      MatchedNext(ps, n - 1, id);
      UnmatchedSum(ps, n - 1, id, sal);
    }
  }

  // ------------------------------------------------------------ the ranked list

  datatype Hit = Hit(id: Id, text: Text, score: real, meta: Meta)

  ghost predicate Descending(s: seq<Scored>) {
    forall i, k :: 0 <= i < k < |s| ==> s[i].score >= s[k].score
  }

  /** The best of the pool through a bounded heap, then sorted. */
  method SelectBest(f: Fused, cap: nat) returns (top: seq<Scored>, ghost all: seq<Scored>)
    ensures Entries(all, f) && TopOf(top, all, cap) && Descending(top)
  {
    hide TopOf;
    var heap: seq<Scored> := [];
    all := [];
    TopNone(cap);
    var rest := f.Keys;
    while rest != {}
      invariant rest <= f.Keys && TopOf(heap, all, cap) && DistinctIds(all) && |all| + |rest| == |f.Keys|
      invariant forall c :: c in all ==> c.id in f && f[c.id] == c.score && c.id !in rest
      decreases |rest|
    {
      var id :| id in rest;
      heap := Replace(heap, cap, Scored(f[id], id), all);
      all := all + [Scored(f[id], id)];
      rest := rest - {id};
    }
    assert |f.Keys| == |f|;
    top := Sort(heap);
    TopReordered(heap, top, all, cap);
  }

  lemma TopReordered(best: seq<Scored>, best': seq<Scored>, all: seq<Scored>, cap: nat)
    requires TopOf(best, all, cap) && multiset(best') == multiset(best)
    ensures TopOf(best', all, cap)
  {
    assert |best| == |multiset(best)| == |multiset(best')| == |best'|;
    forall c, d | c in multiset(all) - multiset(best') && d in best' ensures c.score <= d.score {
      assert d in multiset(best') && d in multiset(best) && d in best;
    }
  }

  /** Sort by falling score. */
  method Sort(s: seq<Scored>) returns (r: seq<Scored>)
    ensures multiset(r) == multiset(s) && Descending(r)
  {
    r := [];
    hide Descending, Placed;
    NothingDescends();
    for i := 0 to |s|
      invariant multiset(r) == multiset(s[..i]) && Descending(r)
    {
      assert s[..i + 1] == s[..i] + [s[i]];
      var j := 0;
      while j < |r| && r[j].score >= s[i].score
        invariant j <= |r| && forall k :: 0 <= k < j ==> r[k].score >= s[i].score
      {
        j := j + 1;
      }
      InsertSorts(r, s[i], j);
      PlacedHas(r, s[i], j);
      r := Placed(r, s[i], j);
    }
    assert s[..|s|] == s;
  }

  lemma NothingDescends()
    ensures Descending([])
  {
  }

  lemma InsertSorts(r: seq<Scored>, c: Scored, j: nat)
    requires Descending(r) && j <= |r|
    requires (forall k :: 0 <= k < j ==> r[k].score >= c.score) && (j < |r| ==> r[j].score < c.score)
    ensures Descending(Placed(r, c, j))
  {
    SplitDescends(r, j, c);
    hide Descending;
    JoinDescends(r[..j], c, r[j..]);
  }

  function Placed(r: seq<Scored>, c: Scored, j: nat): seq<Scored>
    requires j <= |r|
  {
    r[..j] + [c] + r[j..]
  }

  lemma PlacedHas(r: seq<Scored>, c: Scored, j: nat)
    requires j <= |r|
    ensures multiset(Placed(r, c, j)) == multiset(r) + multiset{c}
  {
    assert r == r[..j] + r[j..];
  }

  lemma SplitDescends(r: seq<Scored>, j: nat, c: Scored)
    requires Descending(r) && j <= |r| && (j < |r| ==> r[j].score < c.score)
    ensures Descending(r[..j]) && Descending(r[j..])
    ensures forall i :: 0 <= i < |r[j..]| ==> c.score >= r[j..][i].score
  {
    var b := r[j..];
    forall i | 0 <= i < |b| ensures c.score >= b[i].score {
      assert b[i] == r[j + i];
      assert i == 0 || r[j].score >= r[j + i].score;
    }
  }

  lemma JoinDescends(a: seq<Scored>, c: Scored, b: seq<Scored>)
    requires Descending(a) && Descending(b)
    requires forall i :: 0 <= i < |a| ==> a[i].score >= c.score
    requires forall i :: 0 <= i < |b| ==> c.score >= b[i].score
    ensures Descending(a + [c] + b)
  {
    var n := a + [c] + b;
    forall i, k | 0 <= i < k < |n| ensures n[i].score >= n[k].score {
      if i < |a| {
        assert n[i] == a[i];
      }
      if k > |a| {
        assert n[k] == b[k - |a| - 1];
      }
    }
  }

  /** The first `k` of the selection, with their texts; what is not visible any more is passed over. */
  method Materialize(top: seq<Scored>, k: nat, rs: Records, scope: Name, at: nat) returns (out: seq<Hit>)
    requires forall c :: c in top ==> c.id in rs.metas && c.id in rs.texts && MaySee(rs.metas[c.id], scope, at)
    ensures |out| == if |top| < k then |top| else k
    ensures forall i :: 0 <= i < |out| ==>
      out[i] == Hit(top[i].id, rs.texts[top[i].id], top[i].score, rs.metas[top[i].id])
  {
    out := [];
    for i := 0 to |top|
      invariant |out| == (if i < k then i else k)
      invariant forall j :: 0 <= j < |out| ==>
        out[j] == Hit(top[j].id, rs.texts[top[j].id], top[j].score, rs.metas[top[j].id])
    {
      if |out| == k {
        break;
      }
      var s := top[i];
      assert s in top;
      if s.id in rs.texts && s.id in rs.metas {
        var m := rs.metas[s.id];
        if (m.owner == [] || m.owner == scope) && InWindow(m.validFrom, m.validTo, at) {
          out := out + [Hit(s.id, rs.texts[s.id], s.score, m)];
        }
      }
    }
  }

  /**
   * What recall promises of its list: sorted, without repetition, only records the scope may
   * see at `at`, as many as the pool and `k` allow, and nothing left out of the pool beats
   * anything returned.
   */
  ghost predicate Ranked(out: seq<Hit>, pool: Fused, k: nat, rs: Records, scope: Name, at: nat) {
    && |out| == (if |pool| < k then |pool| else k)
    && (forall i, j :: 0 <= i < j < |out| ==> out[i].id != out[j].id && out[i].score >= out[j].score)
    && (forall i :: 0 <= i < |out| ==> HitFits(out[i], pool, rs, scope, at))
    && (forall id :: id in pool ==> InList(out, id) || forall i :: 0 <= i < |out| ==> pool[id] <= out[i].score)
  }

  ghost predicate HitFits(h: Hit, pool: Fused, rs: Records, scope: Name, at: nat) {
    && h.id in pool && h.score == pool[h.id]
    && h.id in rs.metas && h.meta == rs.metas[h.id] && h.id in rs.texts && h.text == rs.texts[h.id]
    && MaySee(h.meta, scope, at)
  }

  ghost predicate InList(out: seq<Hit>, id: Id) {
    exists i :: 0 <= i < |out| && out[i].id == id
  }

  lemma SelectionRanks(top: seq<Scored>, all: seq<Scored>, pool: Fused, k: nat, out: seq<Hit>, rs: Records,
                       scope: Name, at: nat)
    requires Entries(all, pool) && TopOf(top, all, 3 * k) && Descending(top)
    requires |out| == (if |top| < k then |top| else k)
    requires forall c :: c in top ==> c.id in rs.metas && c.id in rs.texts && MaySee(rs.metas[c.id], scope, at)
    requires forall i :: 0 <= i < |out| ==>
      out[i] == Hit(top[i].id, rs.texts[top[i].id], top[i].score, rs.metas[top[i].id])
    ensures Ranked(out, pool, k, rs, scope, at)
  {
    TopSize(top, all, 3 * k);
    TopDistinct(top, all, 3 * k);
    forall i | 0 <= i < |out| ensures HitFits(out[i], pool, rs, scope, at) {
      assert top[i] in top && top[i] in all;
    }
    forall id | id in pool ensures InList(out, id) || forall i :: 0 <= i < |out| ==> pool[id] <= out[i].score {
      var c := Scored(pool[id], id);
      EntriesCover(all, pool, id);
      if c in top {
        var j :| 0 <= j < |top| && top[j] == c;
        if j < |out| {
          assert out[j].id == id;
        }
      } else {
        assert c in multiset(all) - multiset(top);
        forall i | 0 <= i < |out| ensures pool[id] <= out[i].score {
          assert top[i] in top;
        }
      }
    }
  }

  // ------------------------------------------------------------ the pipeline

  /** Everything in the pool is visible to the scope. */
  ghost predicate AllVisible(f: Fused, x: Index, scope: Name, at: nat) {
    forall id :: id in f ==> Visible(x, scope, at, id).Some?
  }

  function Salience(x: Index, scope: Name, at: nat, id: Id): real {
    match Visible(x, scope, at, id) case Some(sal) => sal case None => 0.0
  }

  ghost predicate HasSimilarity(found: seq<(Id, real)>, n: nat, id: Id) {
    exists i :: 0 <= i < n && i < |found| && found[i].0 == id && found[i].1 > 0.5
  }

  ghost predicate ScoredBy(found: seq<(Id, real)>, n: nat, id: Id, score: real, sal: real) {
    exists i :: 0 <= i < n && i < |found| && found[i].0 == id && found[i].1 > 0.5 && score == Weighted(found[i].1, sal)
  }

  /** The semantic hits: similar enough, visible, and scored by similarity and salience. */
  ghost predicate AdmittedFrom(f: Fused, found: seq<(Id, real)>, n: nat, x: Index, scope: Name, at: nat) {
    && (forall id :: id in f <==> HasSimilarity(found, n, id) && Visible(x, scope, at, id).Some?)
    && (forall id :: id in f ==> ScoredBy(found, n, id, f[id], Salience(x, scope, at, id)))
  }

  method AdmitAll(found: seq<(Id, real)>, x: Index, scope: Name, at: nat) returns (f: Fused)
    ensures AdmittedFrom(f, found, |found|, x, scope, at)
  {
    f := map[];
    for n := 0 to |found|
      invariant AdmittedFrom(f, found, n, x, scope, at)
    {
      AdmitNext(f, found, n, x, scope, at);
      f := Admitted(f, x, scope, at, found[n].0, found[n].1);
    }
  }

  lemma AdmitNext(f: Fused, found: seq<(Id, real)>, n: nat, x: Index, scope: Name, at: nat)
    requires n < |found| && AdmittedFrom(f, found, n, x, scope, at)
    ensures AdmittedFrom(Admitted(f, x, scope, at, found[n].0, found[n].1), found, n + 1, x, scope, at)
  {
    hide Visible, Boost;
    var g := Admitted(f, x, scope, at, found[n].0, found[n].1);
    forall id
      ensures id in g <==> HasSimilarity(found, n + 1, id) && Visible(x, scope, at, id).Some?
      ensures id in g ==> ScoredBy(found, n + 1, id, g[id], Salience(x, scope, at, id))
    {
      assert HasSimilarity(found, n + 1, id) <==>
        HasSimilarity(found, n, id) || (found[n].0 == id && found[n].1 > 0.5) by {
        if found[n].0 == id && found[n].1 > 0.5 {
          assert n < n + 1;
        }
      }
      if id in g && id in f && g[id] == f[id] {
        assert ScoredBy(found, n, id, f[id], Salience(x, scope, at, id));
      } else if id in g {
        assert found[n].0 == id && found[n].1 > 0.5 && g[id] == Weighted(found[n].1, Salience(x, scope, at, id));
      }
    }
  }

  /** The semantic part of the pool: kept records, scored by the cosine and the salience stored for each. */
  ghost predicate SemanticPart(sem: Fused, kept: set<Id>, m: map<Id, real>, rs: Records) {
    && sem.Keys == kept <= m.Keys
    && forall id :: id in sem ==> id in rs.metas && sem[id] == Weighted(ToSimilarity(m[id]), rs.metas[id].salience)
  }

  /** `m` is what the index shows of the records in it. */
  ghost predicate Shown(m: map<Id, real>, x: Index, rs: Records, scope: Name, at: nat) {
    forall id :: id in m ==> m[id] > 0.0 && id in rs.metas && Visible(x, scope, at, id) == Some(rs.metas[id].salience)
  }

  lemma MatchesShown(x: Index, rs: Records, vdim: nat, unit: Vector -> Vector, scope: Name, at: nat, q: Vector,
                     sim: Similarity)
    requires Agrees(x, rs, vdim, unit)
    ensures Shown(Matches(rs, scope, at, q, sim, vdim, unit), x, rs, scope, at)
  {
    hide Agrees, Visible, MaySee;
    forall id | id in Matches(rs, scope, at, q, sim, vdim, unit)
      ensures id in rs.metas && Visible(x, scope, at, id) == Some(rs.metas[id].salience)
    {
      VisibleIs(x, rs, vdim, unit, scope, at, id);
    }
  }

  lemma {:induction false} KeptAreSemantic(sem: Fused, best: seq<Scored>, m: map<Id, real>, x: Index, rs: Records,
                                           scope: Name, at: nat)
    requires AdmittedFrom(sem, Similarities(best), |best|, x, scope, at) && Shown(m, x, rs, scope, at)
    requires forall c :: c in best ==> c.id in m && m[c.id] == c.score
    ensures SemanticPart(sem, IdsOf(best), m, rs)
  {
    hide Visible, Weighted, ToSimilarity, AdmittedFrom, Similarities;
    forall id ensures id in sem <==> id in IdsOf(best) {
      KeptId(sem, best, m, x, rs, scope, at, id);
    }
    forall id | id in sem ensures id in m && sem[id] == Weighted(ToSimilarity(m[id]), rs.metas[id].salience) {
      KeptScore(sem, best, m, x, rs, scope, at, id);
    }
  }

  lemma {:induction false} KeptId(sem: Fused, best: seq<Scored>, m: map<Id, real>, x: Index, rs: Records, scope: Name,
                                  at: nat, id: Id)
    requires AdmittedFrom(sem, Similarities(best), |best|, x, scope, at) && Shown(m, x, rs, scope, at)
    requires forall c :: c in best ==> c.id in m && m[c.id] == c.score
    ensures id in sem <==> id in IdsOf(best)
  {
    hide Visible, Weighted, ScoredBy;
    var found := Similarities(best);
    assert id in sem <==> HasSimilarity(found, |best|, id) && Visible(x, scope, at, id).Some?;
    if i :| 0 <= i < |best| && best[i].id == id {
      assert best[i] in best;
      assert found[i].0 == id && found[i].1 > 0.5;
    }
    if c :| c in best && c.id == id {
      var i :| 0 <= i < |best| && best[i] == c;
      assert found[i].0 == id && found[i].1 > 0.5;
    }
  }

  lemma {:induction false} KeptScore(sem: Fused, best: seq<Scored>, m: map<Id, real>, x: Index, rs: Records,
                                     scope: Name, at: nat, id: Id)
    requires AdmittedFrom(sem, Similarities(best), |best|, x, scope, at) && Shown(m, x, rs, scope, at)
    requires forall c :: c in best ==> c.id in m && m[c.id] == c.score
    requires id in sem
    ensures id in m && id in rs.metas && sem[id] == Weighted(ToSimilarity(m[id]), rs.metas[id].salience)
  {
    hide Visible, Weighted, ToSimilarity, HasSimilarity;
    var found := Similarities(best);
    assert ScoredBy(found, |best|, id, sem[id], Salience(x, scope, at, id));
    var i :| 0 <= i < |found| && found[i].0 == id && sem[id] == Weighted(found[i].1, Salience(x, scope, at, id));
    assert best[i] in best;
  }

  /** `ps` is the scan of the stored postings under each query token. */
  ghost predicate PostingsOf(ps: seq<Posting>, toks: seq<Token>, rs: Records) {
    && |ps| == |toks|
    && forall i :: 0 <= i < |ps| ==>
         && NoRepeats(ps[i].ids)
         && forall id :: id in ps[i].ids <==> (toks[i], id) in rs.postings
  }

  ghost predicate Mentions(rs: Records, toks: seq<Token>, id: Id) {
    exists i :: 0 <= i < |toks| && (toks[i], id) in rs.postings
  }

  function PoolScore(sem: Fused, ps: seq<Posting>, id: Id, sal: real): real {
    (if id in sem then sem[id] else 0.0) + KeywordSum(ps, |ps|, id, sal)
  }

  /** The pool: the semantic part, and every record the scope may see that has a query token; scores add up. */
  ghost predicate PoolIs(pool: Fused, sem: Fused, rs: Records, scope: Name, at: nat, toks: seq<Token>,
                         ps: seq<Posting>) {
    forall id ::
      && (id in pool <==> id in sem || (id in rs.metas && MaySee(rs.metas[id], scope, at) && Mentions(rs, toks, id)))
      && (id in pool ==> id in rs.metas && pool[id] == PoolScore(sem, ps, id, rs.metas[id].salience))
  }

  lemma PoolOfRecords(pool: Fused, sem: Fused, x: Index, rs: Records, vdim: nat, unit: Vector -> Vector, scope: Name,
                      at: nat,
                      toks: seq<Token>, ps: seq<Posting>)
    requires Agrees(x, rs, vdim, unit) && PostingsOf(ps, toks, rs)
    requires Pooled(pool, sem, x, scope, at, ps, |ps|) && AllVisible(sem, x, scope, at)
    ensures PoolIs(pool, sem, rs, scope, at, toks, ps)
  {
    hide Agrees, Visible, MaySee, KeywordSum;
    forall id
      ensures id in pool <==> id in sem || (id in rs.metas && MaySee(rs.metas[id], scope, at) && Mentions(rs, toks, id))
      ensures id in pool ==> id in rs.metas && pool[id] == PoolScore(sem, ps, id, rs.metas[id].salience)
    {
      VisibleIs(x, rs, vdim, unit, scope, at, id);
      assert PooledAt(pool, sem, x, scope, at, ps, |ps|, id);
      MatchedMentions(ps, toks, rs, id);
    }
  }

  lemma MatchedMentions(ps: seq<Posting>, toks: seq<Token>, rs: Records, id: Id)
    requires PostingsOf(ps, toks, rs)
    ensures Matched(ps, |ps|, id) <==> Mentions(rs, toks, id)
  {
    hide NoRepeats;
    if i :| 0 <= i < |toks| && (toks[i], id) in rs.postings {
      assert id in ps[i].ids;
    }
    if i :| 0 <= i < |ps| && id in ps[i].ids {
      assert (toks[i], id) in rs.postings;
    }
  }

  /** The vectors a scope's exact search would go over; the empty scope counts its own twice. */
  lemma ScopedCountIs(x: Index, rs: Records, vdim: nat, unit: Vector -> Vector, scope: Name)
    requires Agrees(x, rs, vdim, unit)
    ensures var own, shared := OwnedVectors(rs, scope), OwnedVectors(rs, []);
      ScopedCount(x, scope) == |own| + |shared| && (scope != [] ==> own !! shared)
  {
    ArenaCount(x, rs, vdim, unit, scope);
    ArenaCount(x, rs, vdim, unit, []);
    hide Agrees, ArenaFor;
  }

  ghost function OwnedVectors(rs: Records, owner: Name): set<Id> {
    set id | id in rs.metas && id in rs.vectors && rs.metas[id].owner == owner
  }

  lemma ArenaCount(x: Index, rs: Records, vdim: nat, unit: Vector -> Vector, owner: Name)
    requires Agrees(x, rs, vdim, unit)
    ensures |OwnedVectors(rs, owner)| == match ArenaFor(x, owner) case Some(a) => |a.ids| case None => 0
  {
    if ArenaFor(x, owner).Some? {
      var a := ArenaFor(x, owner).value;
      ArenaForIs(x, rs, vdim, unit, owner);
      hide Agrees, ArenaFor;
      assert OwnedVectors(rs, owner) == Elements(a.ids);
      DistinctSize(a.ids);
    } else {
      UnownedVectors(x, rs, vdim, unit, owner);
      assert OwnedVectors(rs, owner) == {};
    }
  }

  ghost function Elements(ids: seq<Id>): set<Id> {
    set id | id in ids
  }

  lemma {:induction false} DistinctSize(ids: seq<Id>)
    requires forall i, k :: 0 <= i < k < |ids| ==> ids[i] != ids[k]
    ensures |Elements(ids)| == |ids|
    decreases |ids|
  {
    if ids == [] {
      assert Elements(ids) == {};
    } else {
      var n := |ids| - 1;
      DistinctSize(ids[..n]);
      ElementsSnoc(ids[..n], ids[n]);
      assert ids == ids[..n] + [ids[n]];
      hide Elements;
    }
  }

  lemma ElementsSnoc(ids: seq<Id>, last: Id)
    requires last !in ids
    ensures |Elements(ids + [last])| == |Elements(ids)| + 1
  {
    assert Elements(ids + [last]) == Elements(ids) + {last};
  }

  /**
   * An answer to a recall: `best` is what the exact search kept, `sem` the semantic part of
   * the pool made from it, `pool` everything the answer was chosen from.
   */
  ghost predicate Recalled(out: seq<Hit>, best: seq<Scored>, sem: Fused, pool: Fused, x: Index, rs: Records,
                           scope: Name, q: Vector, k: nat, at: nat, sim: Similarity, exactMax: nat,
                           near: seq<(Id, real)>, ps: seq<Posting>, toks: seq<Token>, vdim: nat,
                           unit: Vector -> Vector) {
    && Ranked(out, pool, k, rs, scope, at)
    && PoolIs(pool, sem, rs, scope, at, toks, ps)
    && (0 < ScopedCount(x, scope) <= exactMax ==> Searched(best, sem, x, rs, scope, q, k, at, sim, vdim, unit))
    && (ScopedCount(x, scope) > exactMax ==> NearPart(sem, near, rs, scope, at))
    && (ScopedCount(x, scope) == 0 ==> sem == map[])
  }

  /** The approximate search's part: what it found that is similar enough and visible, as stored. */
  ghost predicate NearPart(sem: Fused, near: seq<(Id, real)>, rs: Records, scope: Name, at: nat) {
    var found := FromDistances(near);
    forall id ::
      && (id in sem <==> HasSimilarity(found, |found|, id) && id in rs.metas && MaySee(rs.metas[id], scope, at))
      && (id in sem ==> ScoredBy(found, |found|, id, sem[id], rs.metas[id].salience))
  }

  lemma NearKeeps(x: Index, rs: Records, vdim: nat, unit: Vector -> Vector, scope: Name, at: nat, sem: Fused,
                  near: seq<(Id, real)>)
    requires Agrees(x, rs, vdim, unit) && AdmittedFrom(sem, FromDistances(near), |near|, x, scope, at)
    ensures NearPart(sem, near, rs, scope, at)
  {
    hide Agrees, Visible, FromDistances, HasSimilarity, ScoredBy, MaySee;
    forall id
      ensures id in sem <==>
        HasSimilarity(FromDistances(near), |near|, id) && id in rs.metas && MaySee(rs.metas[id], scope, at)
      ensures id in sem ==> ScoredBy(FromDistances(near), |near|, id, sem[id], rs.metas[id].salience)
    {
      VisibleIs(x, rs, vdim, unit, scope, at, id);
    }
  }

  /** The exact search's part: a best set of 3k matching records, wherever that can be relied on. */
  ghost predicate Searched(best: seq<Scored>, sem: Fused, x: Index, rs: Records, scope: Name, q: Vector, k: nat,
                           at: nat, sim: Similarity, vdim: nat, unit: Vector -> Vector) {
    var m := Matches(rs, scope, at, q, sim, vdim, unit);
    && TopOf(best, Candidates(x, scope, at, q, sim), 3 * k)
    && SemanticPart(sem, IdsOf(best), m, rs)
    && (Dependable(scope, |m|, k) ==> TopSet(sem.Keys, m, 3 * k))
  }

  /**
   * Recall as of `at`, for a query already scaled to unit length; `sim` is the inner product.
   * `near` is what the approximate index would return for a scope too big to search exactly;
   * `ps` is the scan of the stored postings under each query token.
   */
  method RecallAt(x: Index, rs: Records, scope: Name, q: Vector, k: nat, at: nat, sim: Similarity, exactMax: nat,
                  near: seq<(Id, real)>, ps: seq<Posting>, ghost toks: seq<Token>, ghost vdim: nat,
                  ghost unit: Vector -> Vector)
    returns (out: seq<Hit>)
    requires Agrees(x, rs, vdim, unit) && (forall id :: id in rs.texts <==> id in rs.metas)
    requires PostingsOf(ps, toks, rs)
    ensures exists best, sem, pool ::
      Recalled(out, best, sem, pool, x, rs, scope, q, k, at, sim, exactMax, near, ps, toks, vdim, unit)
  {
    hide Agrees, Visible, TopOf, TopSet, Candidates, Matches, Pooled, PoolIs, Ranked, PostingsOf, NoRepeats,
      AdmittedFrom, SemanticPart, ScopedCount, Similarities, FromDistances, Entries, IdsOf, Dependable, Searched,
      NearPart;
    var found: seq<(Id, real)> := [];
    ghost var best: seq<Scored> := [];
    var n := ScopedCount(x, scope);
    if 0 < n <= exactMax {
      var heap := ExactSearch(x, scope, at, q, sim, k);
      best := heap;
      found := Similarities(heap);
    } else if n > 0 {
      found := FromDistances(near);
    }
    var sem := AdmitAll(found, x, scope, at);
    AdmittedVisible(sem, found, x, scope, at);
    if 0 < n <= exactMax {
      SearchKeeps(x, rs, vdim, unit, scope, at, q, sim, best, k, sem);
    } else if n > 0 {
      NearKeeps(x, rs, vdim, unit, scope, at, sem, near);
    }
    var pool := AddKeywords(sem, x, scope, at, ps, toks, rs);
    var top, all := SelectBest(pool, 3 * k);
    PoolVisible(pool, sem, x, rs, vdim, unit, scope, at, ps, top, all, 3 * k);
    PoolOfRecords(pool, sem, x, rs, vdim, unit, scope, at, toks, ps);
    out := Materialize(top, k, rs, scope, at);
    SelectionRanks(top, all, pool, k, out, rs, scope, at);
    assert Recalled(out, best, sem, pool, x, rs, scope, q, k, at, sim, exactMax, near, ps, toks, vdim, unit);
  }

  lemma SearchKeeps(x: Index, rs: Records, vdim: nat, unit: Vector -> Vector, scope: Name, at: nat, q: Vector,
                    sim: Similarity,
                    best: seq<Scored>, k: nat, sem: Fused)
    requires Agrees(x, rs, vdim, unit) && TopOf(best, Candidates(x, scope, at, q, sim), 3 * k)
    requires AdmittedFrom(sem, Similarities(best), |best|, x, scope, at)
    ensures Searched(best, sem, x, rs, scope, q, k, at, sim, vdim, unit)
  {
    hide Agrees, Visible, TopOf, TopSet, Candidates, Matches, AdmittedFrom, Similarities, Dependable, Shown;
    var m := Matches(rs, scope, at, q, sim, vdim, unit);
    MatchesShown(x, rs, vdim, unit, scope, at, q, sim);
    CandidatesMatch(x, rs, vdim, unit, scope, at, q, sim);
    TopSize(best, Candidates(x, scope, at, q, sim), 3 * k);
    KeptAreSemantic(sem, best, m, x, rs, scope, at);
    if Dependable(scope, |m|, k) {
      KeptAreBest(x, rs, vdim, unit, scope, at, q, sim, best, k);
    }
  }

  lemma CandidatesMatch(x: Index, rs: Records, vdim: nat, unit: Vector -> Vector, scope: Name, at: nat, q: Vector,
                        sim: Similarity)
    requires Agrees(x, rs, vdim, unit)
    ensures forall c :: c in Candidates(x, scope, at, q, sim) ==>
      c.id in Matches(rs, scope, at, q, sim, vdim, unit) && Matches(rs, scope, at, q, sim, vdim, unit)[c.id] == c.score
  {
    hide Agrees, Candidates, Matches, OffersOf, ArenaFor, DistinctIds;
    CandidatesAre(x, rs, vdim, unit, scope, at, q, sim);
  }

  lemma AdmittedVisible(f: Fused, found: seq<(Id, real)>, x: Index, scope: Name, at: nat)
    requires AdmittedFrom(f, found, |found|, x, scope, at)
    ensures AllVisible(f, x, scope, at)
    ensures found == [] ==> f == map[]
  {
    hide Visible;
  }

  function ToSimilarity(cos: real): real { (1.0 + cos) / 2.0 }

  /** Cosine to similarity. */
  function Similarities(best: seq<Scored>): (r: seq<(Id, real)>)
    ensures |r| == |best| && forall i :: 0 <= i < |r| ==> r[i] == (best[i].id, ToSimilarity(best[i].score))
  {
    if best == [] then []
    else Similarities(best[..|best| - 1]) + [(best[|best| - 1].id, ToSimilarity(best[|best| - 1].score))]
  }

  /** Distance to similarity. */
  function FromDistances(near: seq<(Id, real)>): (r: seq<(Id, real)>)
    ensures |r| == |near|
  {
    if near == [] then []
    else FromDistances(near[..|near| - 1]) + [(near[|near| - 1].0, 1.0 - near[|near| - 1].1 / 2.0)]
  }

  lemma PoolVisible(pool: Fused, sem: Fused, x: Index, rs: Records, vdim: nat, unit: Vector -> Vector, scope: Name,
                    at: nat,
                    ps: seq<Posting>, top: seq<Scored>, all: seq<Scored>, cap: nat)
    requires Agrees(x, rs, vdim, unit) && (forall id :: id in rs.texts <==> id in rs.metas)
    requires Pooled(pool, sem, x, scope, at, ps, |ps|) && AllVisible(sem, x, scope, at)
    requires Entries(all, pool) && TopOf(top, all, cap)
    ensures forall c :: c in top ==> c.id in rs.metas && c.id in rs.texts && MaySee(rs.metas[c.id], scope, at)
  {
    hide Agrees, Visible, TopOf, MaySee;
    TopSize(top, all, cap);
    forall c | c in top ensures c.id in rs.metas && c.id in rs.texts && MaySee(rs.metas[c.id], scope, at) {
      assert PooledAt(pool, sem, x, scope, at, ps, |ps|, c.id);
      VisibleIs(x, rs, vdim, unit, scope, at, c.id);
    }
  }
}
