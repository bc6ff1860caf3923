/**
 * Long-term memory: the stored records and the mirrors of them that are kept in
 * memory (live count, record index, per-owner arenas, keyword postings).
 */
module MemoryIndex {
  import opened Base
  import opened Arena

  type Name = bytes
  type Text = bytes
  type Token = bytes

  // ------------------------------------------------------------ stored records

  /** A validity window ends at `validTo`; 0 leaves an end open. An empty owner is visible to all. */
  datatype Meta = Meta(
    source: bytes,
    created: nat,
    salience: real,
    lineage: bytes,
    validFrom: nat,
    validTo: nat,
    owner: Name
  )

  /** The key families the engine and the vector index hold. */
  datatype Records = Records(
    texts: map<Id, Text>,
    metas: map<Id, Meta>,
    vectors: map<Id, Vector>,
    postings: set<(Token, Id)>
  )

  const NOTHING := Records(map[], map[], map[], {})

  function Marks(toks: seq<Token>, id: Id): set<(Token, Id)> {
    set t | t in toks :: (t, id)
  }

  function Stored(rs: Records, id: Id, text: Text, meta: Meta, v: Vector, toks: seq<Token>): Records {
    Records(rs.texts[id := text], rs.metas[id := meta], rs.vectors[id := v], rs.postings + Marks(toks, id))
  }

  function Forgotten(rs: Records, id: Id, toks: seq<Token>): Records {
    Records(rs.texts - {id}, rs.metas - {id}, rs.vectors - {id}, rs.postings - Marks(toks, id))
  }

  function WithMeta(rs: Records, id: Id, meta: Meta): Records {
    rs.(metas := rs.metas[id := meta])
  }

  // ------------------------------------------------------------ the record index

  datatype RecInfo = RecInfo(sal: real, owner: nat, validFrom: nat, validTo: nat)

  /** Owners are numbered in the order they are first met. */
  datatype Index = Index(
    owners: seq<Name>,
    ownerIds: map<Name, nat>,
    recs: map<Id, RecInfo>,
    arenas: map<nat, Arena>
  )

  const NO_INDEX := Index([], map[], map[], map[])

  function ArenaOf(arenas: map<nat, Arena>, o: nat): Arena {
    if o in arenas then arenas[o] else EMPTY
  }

  function Interned(x: Index, owner: Name): Index {
    if owner in x.ownerIds then x
    else x.(owners := x.owners + [owner], ownerIds := x.ownerIds[owner := |x.owners|])
  }

  function OwnerId(x: Index, owner: Name): nat {
    if owner in x.ownerIds then x.ownerIds[owner] else |x.owners|
  }

  /** `row` is the normalized vector, if the record has one. */
  function Inserted(x: Index, id: Id, m: Meta, row: Option<Vector>): Index {
    var o := OwnerId(x, m.owner);
    var y := Interned(x, m.owner);
    var z := y.(recs := y.recs[id := RecInfo(m.salience, o, m.validFrom, m.validTo)]);
    match row
    case None => z
    case Some(u) => z.(arenas := z.arenas[o := Pushed(ArenaOf(z.arenas, o), id, u)])
  }

  function Dropped(x: Index, id: Id): Index {
    if id !in x.recs then x
    else
      var o := x.recs[id].owner;
      var y := x.(recs := x.recs - {id});
      if o in x.arenas then y.(arenas := x.arenas[o := Removed(x.arenas[o], id)]) else y
  }

  ghost predicate Scaling(unit: Vector -> Vector) {
    forall v :: |unit(v)| == |v|
  }

  /** The row an arena gets for a record's vector, if it has one. */
  function RowOf(unit: Vector -> Vector, vector: Option<Vector>): Option<Vector> {
    match vector case Some(v) => Some(unit(v)) case None => None
  }

  class RecIndex {
    var owners: seq<Name>
    var ownerIds: map<Name, nat>
    var recs: map<Id, RecInfo>
    var arenas: map<nat, ScopeArena>
    /** What the arenas hold. */
    ghost var views: map<nat, Arena>
    ghost var Repr: set<ScopeArena>
    /** Scaling to unit length. */
    const unit: Vector -> Vector

    /** Every owner has an arena of its own, which holds what `views` says. */
    ghost predicate Valid()
      reads this`arenas, this`views, this`Repr, Repr
    {
      && Scaling(unit) && views.Keys == arenas.Keys
      && (forall o :: o in arenas ==>
            && arenas[o] in Repr && arenas[o].unit == unit
            && arenas[o].Valid() && arenas[o].View() == views[o])
      && (forall o, p :: o in arenas && p in arenas && arenas[o] == arenas[p] ==> o == p)
    }

    ghost function State(): Index
      reads this
    {
      Index(owners, ownerIds, recs, views)
    }

    constructor (unit: Vector -> Vector)
      requires Scaling(unit)
      ensures Valid() && State() == NO_INDEX && Repr == {} && this.unit == unit
    {
      owners, ownerIds, recs, arenas := [], map[], map[], map[];
      views, Repr, this.unit := map[], {}, unit;
    }

    method Intern(owner: Name) returns (i: nat)
      modifies this`owners, this`ownerIds
      ensures State() == Interned(old(State()), owner) && i == OwnerId(old(State()), owner)
    {
      if owner in ownerIds {
        return ownerIds[owner];
      }
      i := |owners|;
      owners := owners + [owner];
      ownerIds := ownerIds[owner := i];
    }

    method Insert(id: Id, m: Meta, vector: Option<Vector>)
      requires Valid()
      modifies this, Repr
      ensures Valid() && fresh(Repr - old(Repr))
      ensures State() == Inserted(old(State()), id, m, RowOf(unit, vector))
    {
      hide Pushed, Valid;
      var o := Intern(m.owner);
      recs := recs[id := RecInfo(m.salience, o, m.validFrom, m.validTo)];
      if vector.Some? {
        Open(o);
        Push(o, id, vector.value);
      }
    }

    /** An owner's arena is made when it is first needed. */
    method Open(o: nat)
      requires Valid()
      modifies this`arenas, this`views, this`Repr
      ensures Valid() && o in views && fresh(Repr - old(Repr))
      ensures views == if o in old(views) then old(views) else old(views)[o := EMPTY]
    {
      if o !in arenas {
        hide Scaling, EMPTY;
        NewArena(o);
      }
    }

    method NewArena(o: nat)
      requires Valid() && o !in arenas
      modifies this`arenas, this`views, this`Repr
      ensures Valid() && fresh(Repr - old(Repr)) && views == old(views)[o := EMPTY]
    {
      hide Valid, Scaling, ScopeArena.View, ScopeArena.Valid;
      UnitScales();
      var a := new ScopeArena(unit);
      Adopt(o, a);
    }

    lemma UnitScales()
      requires Valid()
      ensures Scaling(unit) && forall v :: |unit(v)| == |v|
    {
    }

    method Adopt(o: nat, a: ScopeArena)
      requires Valid() && o !in arenas && a !in Repr
      requires a.Valid() && a.View() == EMPTY && a.unit == unit
      modifies this`arenas, this`views, this`Repr
      ensures Valid() && Repr == old(Repr) + {a} && views == old(views)[o := EMPTY]
    {
      hide Scaling, ScopeArena.View, ScopeArena.Valid;
      arenas := arenas[o := a];
      views := views[o := EMPTY];
      Repr := Repr + {a};
    }

    method Push(o: nat, id: Id, v: Vector)
      requires Valid() && o in views
      modifies this`views, Repr
      ensures Valid() && views == old(views)[o := Pushed(old(views)[o], id, unit(v))]
    {
      hide Pushed, Scaling, ScopeArena.View, ScopeArena.Valid;
      arenas[o].Push(id, v);
      views := views[o := arenas[o].View()];
    }

    /** The index as a reader finds it, rows sliced out of the arenas' buffers. */
    method Read() returns (x: Index)
      requires Valid()
      ensures x == State()
    {
      hide ScopeArena.Valid, ScopeArena.View, Scaling;
      var seen: map<nat, Arena> := map[];
      var rest := arenas.Keys;
      while rest != {}
        invariant rest <= arenas.Keys && seen.Keys == arenas.Keys - rest
        invariant forall o :: o in seen ==> o in views && seen[o] == views[o]
        decreases |rest|
      {
        var o :| o in rest;
        var a := arenas[o].Read();
        seen, rest := seen[o := a], rest - {o};
      }
      assert seen == views;
      x := Index(owners, ownerIds, recs, seen);
    }

    method Remove(id: Id)
      requires Valid()
      modifies this`recs, this`views, Repr
      ensures Valid() && State() == Dropped(old(State()), id)
    {
      hide Removed, Valid;
      if id in recs {
        var o := recs[id].owner;
        recs := recs - {id};
        RemoveFrom(o, id);
      }
    }

    method RemoveFrom(o: nat, id: Id)
      requires Valid()
      modifies this`views, Repr
      ensures Valid()
      ensures views == if o in old(views) then old(views)[o := Removed(old(views)[o], id)] else old(views)
    {
      hide Removed, Scaling, ScopeArena.View, ScopeArena.Valid;
      if o in arenas {
        arenas[o].Remove(id);
        views := views[o := arenas[o].View()];
      }
    }
  }

  // ------------------------------------------------------------ what the mirrors promise

  ghost predicate Interning(owners: seq<Name>, ownerIds: map<Name, nat>) {
    && (forall i :: 0 <= i < |owners| ==> owners[i] in ownerIds && ownerIds[owners[i]] == i)
    && (forall o :: o in ownerIds ==> ownerIds[o] < |owners| && owners[ownerIds[o]] == o)
  }

  ghost predicate InfoMatches(owners: seq<Name>, info: RecInfo, m: Meta) {
    && info.owner < |owners| && owners[info.owner] == m.owner
    && info.sal == m.salience && info.validFrom == m.validFrom && info.validTo == m.validTo
  }

  /** The record index says of every live record what its metadata says. */
  ghost predicate RecsAgree(owners: seq<Name>, recs: map<Id, RecInfo>, metas: map<Id, Meta>) {
    && (forall id :: id in recs <==> id in metas)
    && (forall id :: id in metas ==> InfoMatches(owners, recs[id], metas[id]))
  }

  /** An arena holds the normalized vector of exactly its owner's records. */
  ghost predicate ArenaAgrees(a: Arena, owner: Name, metas: map<Id, Meta>, vectors: map<Id, Vector>, vdim: nat,
                              unit: Vector -> Vector) {
    && WellFormed(a) && (a.dim == 0 ==> a.ids == []) && (a.dim == 0 || a.dim == vdim)
    && (forall id :: id in a.rows <==> id in metas && id in vectors && metas[id].owner == owner)
    && (forall id :: id in a.rows ==> a.rows[id] == unit(vectors[id]))
  }

  ghost predicate ArenasAgree(owners: seq<Name>, arenas: map<nat, Arena>, metas: map<Id, Meta>,
                              vectors: map<Id, Vector>, vdim: nat, unit: Vector -> Vector) {
    && (forall o :: o in arenas ==> o < |owners|)
    && (forall i :: 0 <= i < |owners| ==> ArenaAgrees(ArenaOf(arenas, i), owners[i], metas, vectors, vdim, unit))
  }

  ghost predicate Agrees(x: Index, rs: Records, vdim: nat, unit: Vector -> Vector) {
    && Interning(x.owners, x.ownerIds) && RecsAgree(x.owners, x.recs, rs.metas)
    && ArenasAgree(x.owners, x.arenas, rs.metas, rs.vectors, vdim, unit)
  }

  /** The three families hold the same records, and postings are exactly the live texts' tokens. */
  ghost predicate Whole(rs: Records, vdim: nat, tokens: Text -> seq<Token>) {
    && (forall id :: id in rs.texts <==> id in rs.metas)
    && (forall id :: id in rs.texts <==> id in rs.vectors)
    && (forall id :: id in rs.vectors ==> rs.vectors[id] != [] && |rs.vectors[id]| == vdim)
    && (forall t, id :: (t, id) in rs.postings <==> id in rs.texts && t in tokens(rs.texts[id]))
  }

  // ------------------------------------------------------------ new owners

  lemma EmptyAgrees(owner: Name, metas: map<Id, Meta>, vectors: map<Id, Vector>, vdim: nat, unit: Vector -> Vector)
    requires forall id :: id in metas ==> metas[id].owner != owner
    ensures ArenaAgrees(EMPTY, owner, metas, vectors, vdim, unit)
  {
  }

  /** Owners not numbered yet own nothing. */
  lemma UnknownOwnsNothing(owners: seq<Name>, ownerIds: map<Name, nat>, recs: map<Id, RecInfo>, metas: map<Id, Meta>,
                           owner: Name)
    requires Interning(owners, ownerIds) && RecsAgree(owners, recs, metas) && owner !in ownerIds
    ensures forall id :: id in metas ==> metas[id].owner != owner
  {
    forall id | id in metas ensures metas[id].owner != owner {
      assert InfoMatches(owners, recs[id], metas[id]);
    }
  }

  /** Interning keeps numbers and names apart, and old numbers their meaning. */
  lemma InternKeeps(x: Index, rs: Records, vdim: nat, unit: Vector -> Vector, owner: Name)
    requires Agrees(x, rs, vdim, unit)
    ensures var y := Interned(x, owner);
      && Agrees(y, rs, vdim, unit) && owner in y.ownerIds && y.ownerIds[owner] == OwnerId(x, owner)
  {
    var y := Interned(x, owner);
    hide ArenaAgrees;
    if owner !in x.ownerIds {
      UnknownOwnsNothing(x.owners, x.ownerIds, x.recs, rs.metas, owner);
      EmptyAgrees(owner, rs.metas, rs.vectors, vdim, unit);
      forall i | 0 <= i < |y.owners|
        ensures ArenaAgrees(ArenaOf(y.arenas, i), y.owners[i], rs.metas, rs.vectors, vdim, unit)
      {
        assert i < |x.owners| ==> ArenaAgrees(ArenaOf(x.arenas, i), x.owners[i], rs.metas, rs.vectors, vdim, unit);
      }
    }
  }

  // ------------------------------------------------------------ new records

  lemma PushAgrees(a: Arena, owner: Name, metas: map<Id, Meta>, vectors: map<Id, Vector>, vdim: nat,
                   unit: Vector -> Vector, id: Id, m: Meta, v: Vector)
    requires ArenaAgrees(a, owner, metas, vectors, vdim, unit) && Scaling(unit)
    requires id !in metas && v != [] && |v| == vdim
    ensures
      var b := if m.owner == owner then Pushed(a, id, unit(v)) else a;
      ArenaAgrees(b, owner, metas[id := m], vectors[id := v], vdim, unit)
  {
    assert |unit(v)| == |v|;
    if m.owner == owner {
      PushedWellFormed(a, id, unit(v));
    }
    hide WellFormed;
  }

  lemma InsertArenas(owners: seq<Name>, ownerIds: map<Name, nat>, arenas: map<nat, Arena>, metas: map<Id, Meta>,
                     vectors: map<Id, Vector>, vdim: nat, unit: Vector -> Vector, id: Id, m: Meta, v: Vector)
    requires Interning(owners, ownerIds) && ArenasAgree(owners, arenas, metas, vectors, vdim, unit) && Scaling(unit)
    requires m.owner in ownerIds && id !in metas && v != [] && |v| == vdim
    ensures var o := ownerIds[m.owner];
      var a := Pushed(ArenaOf(arenas, o), id, unit(v));
      ArenasAgree(owners, arenas[o := a], metas[id := m], vectors[id := v], vdim, unit)
  {
    hide ArenaAgrees, Pushed, Scaling;
    var o := ownerIds[m.owner];
    var arenas' := arenas[o := Pushed(ArenaOf(arenas, o), id, unit(v))];
    forall i | 0 <= i < |owners|
      ensures ArenaAgrees(ArenaOf(arenas', i), owners[i], metas[id := m], vectors[id := v], vdim, unit)
    {
      PushAgrees(ArenaOf(arenas, i), owners[i], metas, vectors, vdim, unit, id, m, v);
      assert owners[i] == m.owner <==> i == o;
    }
  }

  lemma InsertRecs(owners: seq<Name>, recs: map<Id, RecInfo>, metas: map<Id, Meta>, id: Id, m: Meta, o: nat)
    requires RecsAgree(owners, recs, metas) && o < |owners| && owners[o] == m.owner
    ensures RecsAgree(owners, recs[id := RecInfo(m.salience, o, m.validFrom, m.validTo)], metas[id := m])
  {
  }

  /** A fresh record goes into the records and into the index. */
  lemma InsertAgrees(x: Index, rs: Records, vdim: nat, unit: Vector -> Vector, id: Id, text: Text, m: Meta, v: Vector,
                     toks: seq<Token>)
    requires Agrees(x, rs, vdim, unit) && Scaling(unit) && id !in rs.metas && v != [] && |v| == vdim
    ensures Agrees(Inserted(x, id, m, Some(unit(v))), Stored(rs, id, text, m, v, toks), vdim, unit)
  {
    InternKeeps(x, rs, vdim, unit, m.owner);
    var o := OwnerId(x, m.owner);
    var y := Interned(x, m.owner);
    hide Interned, OwnerId, Pushed, Marks, Scaling, RecsAgree, ArenasAgree;
    InsertRecs(y.owners, y.recs, rs.metas, id, m, o);
    InsertArenas(y.owners, y.ownerIds, y.arenas, rs.metas, rs.vectors, vdim, unit, id, m, v);
  }

  // ------------------------------------------------------------ records that go

  lemma RemoveAgrees(a: Arena, owner: Name, metas: map<Id, Meta>, vectors: map<Id, Vector>, vdim: nat,
                     unit: Vector -> Vector, id: Id)
    requires ArenaAgrees(a, owner, metas, vectors, vdim, unit)
    ensures
      var b := if id in metas && metas[id].owner == owner then Removed(a, id) else a;
      ArenaAgrees(b, owner, metas - {id}, vectors - {id}, vdim, unit)
  {
    if id in metas && metas[id].owner == owner {
      RemovedWellFormed(a, id);
      if a.ids == [] {
        RemovedFromNothing(a, id);
      }
    }
    hide WellFormed, SwapRemove;
  }

  lemma RemovedFromNothing(a: Arena, id: Id)
    requires a.ids == [] && WellFormed(a)
    ensures Removed(a, id) == a
  {
    assert id in a.rows ==> id in a.ids;
  }

  lemma EmptyRemoved(id: Id)
    ensures Removed(EMPTY, id) == EMPTY
  {
  }

  lemma DropArenas(owners: seq<Name>, ownerIds: map<Name, nat>, arenas: map<nat, Arena>, metas: map<Id, Meta>,
                   vectors: map<Id, Vector>,
                   vdim: nat, unit: Vector -> Vector, id: Id)
    requires Interning(owners, ownerIds) && ArenasAgree(owners, arenas, metas, vectors, vdim, unit)
    requires id in metas && metas[id].owner in ownerIds
    ensures var o := ownerIds[metas[id].owner];
      ArenasAgree(owners, if o in arenas then arenas[o := Removed(arenas[o], id)] else arenas, metas - {id},
        vectors - {id}, vdim, unit)
  {
    hide ArenaAgrees, Removed;
    var o := ownerIds[metas[id].owner];
    var arenas' := if o in arenas then arenas[o := Removed(arenas[o], id)] else arenas;
    EmptyRemoved(id);
    forall i | 0 <= i < |owners|
      ensures ArenaAgrees(ArenaOf(arenas', i), owners[i], metas - {id}, vectors - {id}, vdim, unit)
    {
      RemoveAgrees(ArenaOf(arenas, i), owners[i], metas, vectors, vdim, unit, id);
      assert owners[i] == metas[id].owner <==> i == o;
    }
  }

  lemma DropRecs(owners: seq<Name>, recs: map<Id, RecInfo>, metas: map<Id, Meta>, id: Id)
    requires RecsAgree(owners, recs, metas)
    ensures RecsAgree(owners, recs - {id}, metas - {id})
  {
  }

  /** A record leaves the records and the index together. */
  lemma DropAgrees(x: Index, rs: Records, vdim: nat, unit: Vector -> Vector, id: Id, toks: seq<Token>)
    requires Agrees(x, rs, vdim, unit) && id in rs.metas
    ensures Agrees(Dropped(x, id), Forgotten(rs, id, toks), vdim, unit)
  {
    assert InfoMatches(x.owners, x.recs[id], rs.metas[id]);
    hide ArenasAgree, Removed, Marks;
    DropRecs(x.owners, x.recs, rs.metas, id);
    hide RecsAgree;
    DropArenas(x.owners, x.ownerIds, x.arenas, rs.metas, rs.vectors, vdim, unit, id);
  }

  // ------------------------------------------------------------ changed metadata

  function Adjusted(x: Index, id: Id, m: Meta): Index {
    if id in x.recs then
      x.(recs := x.recs[id := x.recs[id].(sal := m.salience, validFrom := m.validFrom, validTo := m.validTo)])
    else x
  }

  lemma MetaArenas(owners: seq<Name>, arenas: map<nat, Arena>, metas: map<Id, Meta>, vectors: map<Id, Vector>,
                   vdim: nat, unit: Vector -> Vector, id: Id, m: Meta)
    requires ArenasAgree(owners, arenas, metas, vectors, vdim, unit)
    requires id in metas && m.owner == metas[id].owner
    ensures ArenasAgree(owners, arenas, metas[id := m], vectors, vdim, unit)
  {
    hide WellFormed;
    forall i | 0 <= i < |owners|
      ensures ArenaAgrees(ArenaOf(arenas, i), owners[i], metas[id := m], vectors, vdim, unit)
    {
      assert ArenaAgrees(ArenaOf(arenas, i), owners[i], metas, vectors, vdim, unit);
    }
  }

  /** Rewriting metadata under the same owner changes the one entry of the index. */
  lemma MetaAgrees(x: Index, rs: Records, vdim: nat, unit: Vector -> Vector, id: Id, m: Meta)
    requires Agrees(x, rs, vdim, unit) && id in rs.metas && m.owner == rs.metas[id].owner
    ensures Agrees(Adjusted(x, id, m), WithMeta(rs, id, m), vdim, unit)
  {
    assert InfoMatches(x.owners, x.recs[id], rs.metas[id]);
    hide ArenasAgree;
    MetaArenas(x.owners, x.arenas, rs.metas, rs.vectors, vdim, unit, id, m);
  }

  /** Two indexes say the same of a record, up to the number of its owner. */
  ghost predicate SameRecord(x: Index, y: Index, id: Id) {
    && id in x.recs && id in y.recs
    && x.recs[id].owner < |x.owners| && y.recs[id].owner < |y.owners|
    && x.owners[x.recs[id].owner] == y.owners[y.recs[id].owner]
    && x.recs[id].(owner := 0) == y.recs[id].(owner := 0)
  }

  lemma SameKeys(x: Index, y: Index, rs: Records)
    requires RecsAgree(x.owners, x.recs, rs.metas) && RecsAgree(y.owners, y.recs, rs.metas)
    ensures x.recs.Keys == y.recs.Keys
  {
    hide InfoMatches;
  }

  lemma SameInfo(x: Index, y: Index, rs: Records, id: Id)
    requires RecsAgree(x.owners, x.recs, rs.metas) && RecsAgree(y.owners, y.recs, rs.metas) && id in x.recs
    ensures SameRecord(x, y, id)
  {
    assert InfoMatches(x.owners, x.recs[id], rs.metas[id]) && InfoMatches(y.owners, y.recs[id], rs.metas[id]);
  }

  lemma ArenaIs(x: Index, rs: Records, vdim: nat, unit: Vector -> Vector, o: Name)
    requires Agrees(x, rs, vdim, unit) && o in x.ownerIds
    ensures ArenaAgrees(ArenaOf(x.arenas, x.ownerIds[o]), o, rs.metas, rs.vectors, vdim, unit)
  {
    hide ArenaAgrees, RecsAgree, ArenaOf;
  }

  lemma SameRows(a: Arena, b: Arena, owner: Name, metas: map<Id, Meta>, vectors: map<Id, Vector>, vdim: nat,
                 unit: Vector -> Vector)
    requires ArenaAgrees(a, owner, metas, vectors, vdim, unit) && ArenaAgrees(b, owner, metas, vectors, vdim, unit)
    ensures a.rows == b.rows
  {
    hide WellFormed;
  }

  lemma NoRows(a: Arena, owner: Name, metas: map<Id, Meta>, vectors: map<Id, Vector>, vdim: nat, unit: Vector -> Vector)
    requires ArenaAgrees(a, owner, metas, vectors, vdim, unit) && forall id :: id in metas ==> metas[id].owner != owner
    ensures a.rows == map[]
  {
    hide WellFormed;
  }

  /**
   * Whatever order records were scanned or written in, two indexes that agree with the
   * same records say the same of every record and hold the same vectors for every owner;
   * only the numbering of owners and the order inside arenas may differ.
   */
  lemma IndexIsDetermined(x: Index, y: Index, rs: Records, vdim: nat, unit: Vector -> Vector)
    requires Agrees(x, rs, vdim, unit) && Agrees(y, rs, vdim, unit)
    ensures x.recs.Keys == y.recs.Keys
    ensures forall id :: id in x.recs ==> SameRecord(x, y, id)
    ensures forall o :: o in x.ownerIds && o in y.ownerIds ==>
      ArenaOf(x.arenas, x.ownerIds[o]).rows == ArenaOf(y.arenas, y.ownerIds[o]).rows
    ensures forall o :: o in x.ownerIds && o !in y.ownerIds ==> ArenaOf(x.arenas, x.ownerIds[o]).rows == map[]
  {
    hide ArenaAgrees, InfoMatches, ArenasAgree, RecsAgree, Interning, ArenaOf;
    SameKeys(x, y, rs);
    forall id | id in x.recs ensures SameRecord(x, y, id) {
      SameInfo(x, y, rs, id);
    }
    forall o | o in x.ownerIds && o in y.ownerIds
      ensures ArenaOf(x.arenas, x.ownerIds[o]).rows == ArenaOf(y.arenas, y.ownerIds[o]).rows
    {
      ArenaIs(x, rs, vdim, unit, o);
      ArenaIs(y, rs, vdim, unit, o);
      SameRows(ArenaOf(x.arenas, x.ownerIds[o]), ArenaOf(y.arenas, y.ownerIds[o]), o, rs.metas, rs.vectors, vdim, unit);
    }
    forall o | o in x.ownerIds && o !in y.ownerIds ensures ArenaOf(x.arenas, x.ownerIds[o]).rows == map[] {
      UnknownOwnsNothing(y.owners, y.ownerIds, y.recs, rs.metas, o);
      ArenaIs(x, rs, vdim, unit, o);
      NoRows(ArenaOf(x.arenas, x.ownerIds[o]), o, rs.metas, rs.vectors, vdim, unit);
    }
  }
}
