/**
 * The long-term memory operations. Each changes stored records and mirrors
 * together, so that at every point between operations the mirrors are what a
 * scan of the records would rebuild.
 */
module Memory {
  import opened Base
  import opened Arena
  import opened MemoryIndex
  import opened RecallMeaning
  import Recall
  import Shortlist

  datatype Refused = BadVector | NotFound | NotOwner

  /** Everything agrees: records, dimension, id counter, live count and index. */
  ghost predicate Kept(rs: Records, x: Index, vdim: nat, nextId: nat, count: nat, unit: Vector -> Vector,
                       tokens: Text -> seq<Token>) {
    && Scaling(unit) && Whole(rs, vdim, tokens) && Agrees(x, rs, vdim, unit)
    && count == |rs.texts|
    && forall id :: id in rs.texts ==> id < nextId
  }

  function Clamp01(r: real): real { if r < 0.0 then 0.0 else if r > 1.0 then 1.0 else r }

  lemma AnswerMeans(out: seq<Recall.Hit>, best: seq<Shortlist.Scored>, sem: Recall.Fused, pool: Recall.Fused, x: Index,
                    rs: Records, scope: Name, q: Vector, k: nat, at: nat, sim: Recall.Similarity, exactMax: nat,
                    near: seq<(Id, real)>, ps: seq<Recall.Posting>, toks: seq<Token>, vdim: nat,
                    unit: Vector -> Vector)
    requires Recall.Recalled(out, best, sem, pool, x, rs, scope, q, k, at, sim, exactMax, near, ps, toks, vdim, unit)
    ensures forall i :: 0 <= i < |out| ==>
      var h := out[i];
      && h.id in rs.metas && h.meta == rs.metas[h.id] && h.id in rs.texts && h.text == rs.texts[h.id]
      && Open(h.meta, scope, at)
    ensures |out| < k ==> forall id, i ::
      id in rs.metas && 0 <= i < |toks| && (toks[i], id) in rs.postings && Open(rs.metas[id], scope, at) ==>
        Listed(out, id)
    ensures |out| < k && scope != [] && 0 < Recall.ScopedCount(x, scope) <= exactMax ==> forall id ::
      id in rs.metas && id in rs.vectors && |q| == vdim && sim(q, unit(rs.vectors[id])) > 0.0 &&
      Open(rs.metas[id], scope, at) ==>
        Listed(out, id)
  {
    hide Recall.Ranked, Recall.PoolIs, Recall.Searched, Recall.NearPart, Recall.ScopedCount;
    forall i | 0 <= i < |out|
      ensures
        var h := out[i];
        && h.id in rs.metas && h.meta == rs.metas[h.id] && h.id in rs.texts && h.text == rs.texts[h.id]
        && Open(h.meta, scope, at)
    {
      HitsAreOpen(out, pool, k, rs, scope, at, i);
    }
    forall id, i |
      |out| < k && id in rs.metas && 0 <= i < |toks| && (toks[i], id) in rs.postings && Open(rs.metas[id], scope, at)
      ensures Listed(out, id)
    {
      NothingWithATokenIsMissing(out, sem, pool, rs, scope, k, at, ps, toks, id, i);
    }
    forall id |
      |out| < k && scope != [] && 0 < Recall.ScopedCount(x, scope) <= exactMax &&
      id in rs.metas && id in rs.vectors && |q| == vdim && sim(q, unit(rs.vectors[id])) > 0.0 &&
      Open(rs.metas[id], scope, at)
      ensures Listed(out, id)
    {
      NothingSimilarIsMissing(out, best, sem, pool, x, rs, scope, q, k, at, sim, ps, toks, vdim, unit, id);
    }
  }

  /** The postings stored under each token, with the weight of a match. */
  ghost predicate LookedUp(ps: seq<Recall.Posting>, toks: seq<Token>, rs: Records, count: nat,
                           weigh: (nat, nat) -> real) {
    && Recall.PostingsOf(ps, toks, rs)
    && forall i :: 0 <= i < |ps| ==> ps[i].weight == weigh(count, |ps[i].ids|)
  }

  class LongTermMemory {
    var texts: map<Id, Text>
    var metas: map<Id, Meta>
    var vectors: map<Id, Vector>
    var postings: set<(Token, Id)>
    /** Width of the vector index; 0 until its first vector. */
    var vdim: nat
    var nextId: Id
    var count: nat
    var idx: RecIndex
    /** Scaling to unit length, and splitting text into search tokens. */
    const unit: Vector -> Vector
    const tokens: Text -> seq<Token>

    ghost function Stores(): Records
      reads this
    {
      Records(texts, metas, vectors, postings)
    }

    ghost predicate Valid()
      reads this, idx, idx.Repr
    {
      idx.Valid() && idx.unit == unit && Kept(Stores(), idx.State(), vdim, nextId, count, unit, tokens)
    }

    constructor (unit: Vector -> Vector, tokens: Text -> seq<Token>)
      requires Scaling(unit)
      ensures Valid() && Stores() == NOTHING && fresh(idx) && fresh(idx.Repr)
    {
      texts, metas, vectors, postings, vdim, nextId, count := map[], map[], map[], {}, 0, 1, 0;
      idx := new RecIndex(unit);
      this.unit, this.tokens := unit, tokens;
      new;
      EmptyKept(unit, tokens);
    }

    /** Store a memory under a new id, or refuse its vector and change nothing. */
    method Store(text: Text, v: Vector, source: bytes, salience: real, lineage: bytes, validFrom: nat, validTo: nat,
                 owner: Name, now: nat)
      returns (r: Result<Id, Refused>)
      requires Valid()
      modifies this, idx, idx.Repr
      ensures Valid() && idx == old(idx) && fresh(idx.Repr - old(idx.Repr))
      ensures if v == [] || (old(vdim) != 0 && |v| != old(vdim)) then r == Err(BadVector) && Stores() == old(Stores())
        else
          && r == Ok(old(nextId)) && r.value !in old(texts)
          && Stores() == Stored(old(Stores()), r.value, text,
               Meta(source, now, salience, lineage, if validFrom == 0 then now else validFrom, validTo, owner),
               v, tokens(text))
      ensures r.Ok? ==>
        && texts == old(texts)[r.value := text] && vectors == old(vectors)[r.value := v]
        && metas.Keys == old(metas).Keys + {r.value}
        && (forall k :: k in old(metas) && k != r.value ==> metas[k] == old(metas)[k])
        && (forall t, k :: (t, k) in postings <==> (t, k) in old(postings) || (k == r.value && t in tokens(text)))
      ensures r.Ok? ==>
        var m := metas[r.value];
        && m.source == source && m.created == now && m.salience == salience && m.lineage == lineage
        && m.validTo == validTo && m.owner == owner && (validFrom != 0 ==> m.validFrom == validFrom)
        && (validFrom == 0 ==> m.validFrom == now)
    {
      hide Kept, Inserted;
      if v == [] || (vdim != 0 && |v| != vdim) {
        return Err(BadVector);
      }
      var vf := if validFrom == 0 then now else validFrom;
      var id := Enter(text, v, Meta(source, now, salience, lineage, vf, validTo, owner));
      return Ok(id);
    }

    /** Write an accepted memory to every family and every mirror. */
    method Enter(text: Text, v: Vector, m: Meta) returns (id: Id)
      requires Valid() && v != [] && (vdim == 0 || |v| == vdim)
      modifies this, idx, idx.Repr
      ensures Valid() && idx == old(idx) && fresh(idx.Repr - old(idx.Repr))
      ensures id == old(nextId) && id !in old(texts)
      ensures Stores() == Stored(old(Stores()), id, text, m, v, tokens(text))
    {
      hide RecIndex.Valid, Kept, Inserted, Stored;
      id := nextId;
      StoreKeeps(Stores(), idx.State(), vdim, id, count, unit, tokens, text, m, v);
      Write(id, text, v, m);
      idx.Insert(id, m, Some(v));
    }

    method Write(id: Id, text: Text, v: Vector, m: Meta)
      modifies this`texts, this`metas, this`vectors, this`postings, this`vdim, this`nextId, this`count
      ensures Stores() == Stored(old(Stores()), id, text, m, v, tokens(text))
      ensures vdim == |v| && nextId == old(nextId) + 1 && count == old(count) + 1
    {
      hide Marks;
      nextId := nextId + 1;
      texts := texts[id := text];
      metas := metas[id := m];
      vectors := vectors[id := v];
      vdim := |v|;
      Post(tokens(text), id);
      count := count + 1;
    }

    /** Index a text under each of its tokens. */
    method Post(toks: seq<Token>, id: Id)
      modifies this`postings
      ensures postings == old(postings) + Marks(toks, id)
    {
      hide Marks;
      MarksNone(id);
      for i := 0 to |toks|
        invariant postings == old(postings) + Marks(toks[..i], id)
      {
        MarksOne(toks, i, id);
        postings := postings + {(toks[i], id)};
      }
      assert toks[..|toks|] == toks;
    }

    method Unpost(toks: seq<Token>, id: Id)
      modifies this`postings
      ensures postings == old(postings) - Marks(toks, id)
    {
      hide Marks;
      MarksNone(id);
      for i := 0 to |toks|
        invariant postings == old(postings) - Marks(toks[..i], id)
      {
        MarksOne(toks, i, id);
        postings := postings - {(toks[i], id)};
      }
      assert toks[..|toks|] == toks;
    }

    method Get(id: Id) returns (r: Option<(Text, Meta)>)
      requires Valid()
      ensures r == if id in metas then Some((texts[id], metas[id])) else None
      ensures id in metas <==> id in texts
    {
      KeptFamilies(Stores(), idx.State(), vdim, nextId, count, unit, tokens);
      hide Kept;
      return if id in texts && id in metas then Some((texts[id], metas[id])) else None;
    }

    /** End a memory's validity; unknown ids are passed over. */
    method Invalidate(id: Id, at: nat)
      requires Valid()
      modifies this`metas, idx
      ensures Valid() && idx == old(idx)
      ensures Stores() ==
        if id in old(metas) then WithMeta(old(Stores()), id, old(metas)[id].(validTo := at)) else old(Stores())
      ensures metas.Keys == old(metas).Keys && forall k :: k in metas ==>
        metas[k] == if k == id then old(metas)[k].(validTo := at) else old(metas)[k]
    {
      hide RecIndex.Valid, Kept;
      var rec := Get(id);
      if rec.Some? {
        var m := rec.value.1.(validTo := at);
        MetaKeeps(Stores(), idx.State(), vdim, nextId, count, unit, tokens, id, m);
        metas := metas[id := m];
        if id in idx.recs {
          idx.recs := idx.recs[id := idx.recs[id].(validTo := at)];
        }
      }
    }

    /** The same, for the owner only. */
    method InvalidateScoped(id: Id, at: nat, requester: Name) returns (r: Result<(), Refused>)
      requires Valid()
      modifies this`metas, idx
      ensures Valid() && idx == old(idx)
      ensures if id !in old(metas) then r == Err(NotFound) && Stores() == old(Stores())
        else if old(metas)[id].owner != requester then r == Err(NotOwner) && Stores() == old(Stores())
        else r == Ok(()) && Stores() == WithMeta(old(Stores()), id, old(metas)[id].(validTo := at))
    {
      hide Kept;
      var rec := Get(id);
      if rec.None? {
        return Err(NotFound);
      }
      if rec.value.1.owner != requester {
        return Err(NotOwner);
      }
      Invalidate(id, at);
      return Ok(());
    }

    /** Raise or lower a memory's salience, within 0 and 1. */
    method Touch(id: Id, delta: real)
      requires Valid()
      modifies this`metas, idx
      ensures Valid() && idx == old(idx)
      ensures Stores() ==
        if id in old(metas) then
          WithMeta(old(Stores()), id, old(metas)[id].(salience := Clamp01(old(metas)[id].salience + delta)))
        else old(Stores())
      ensures metas.Keys == old(metas).Keys && forall k :: k in metas ==>
        && metas[k] == old(metas)[k].(salience := metas[k].salience)
        && var s := old(metas)[k].salience + if k == id then delta else 0.0;
           if k != id || 0.0 <= s <= 1.0 then metas[k].salience == s
           else metas[k].salience == if s < 0.0 then 0.0 else 1.0
    {
      hide RecIndex.Valid, Kept;
      var rec := Get(id);
      if rec.Some? {
        var m := rec.value.1.(salience := Clamp01(rec.value.1.salience + delta));
        MetaKeeps(Stores(), idx.State(), vdim, nextId, count, unit, tokens, id, m);
        metas := metas[id := m];
        if id in idx.recs {
          idx.recs := idx.recs[id := idx.recs[id].(sal := m.salience)];
        }
      }
    }

    /** Remove every trace of a memory. */
    method Forget(id: Id)
      requires Valid()
      modifies this, idx, idx.Repr
      ensures Valid() && idx == old(idx) && fresh(idx.Repr - old(idx.Repr))
      ensures Stores() ==
        if id in old(metas) then Forgotten(old(Stores()), id, tokens(old(texts)[id])) else old(Stores())
      ensures count == |texts| && id !in texts
      ensures id in old(metas) ==>
        && texts == old(texts) - {id} && metas == old(metas) - {id} && vectors == old(vectors) - {id}
        && forall t, k :: (t, k) in postings <==>
             (t, k) in old(postings) && !(k == id && t in tokens(old(texts)[id]))
    {
      hide Kept;
      var existed := Get(id);
      if existed.Some? {
        ForgetPresent(id, existed.value.0);
      } else {
        ForgetAbsent(id);
      }
      KeptCount(Stores(), idx.State(), vdim, nextId, count, unit, tokens);
    }

    method ForgetPresent(id: Id, text: Text)
      requires Valid() && id in texts && text == texts[id]
      modifies this, idx, idx.Repr
      ensures Valid() && idx == old(idx) && fresh(idx.Repr - old(idx.Repr))
      ensures Stores() == Forgotten(old(Stores()), id, tokens(text)) && id !in texts
    {
      hide RecIndex.Valid, Kept, Marks, Dropped;
      ForgetKeeps(Stores(), idx.State(), vdim, nextId, count, unit, tokens, id);
      Unpost(tokens(text), id);
      vectors := vectors - {id};
      texts := texts - {id};
      metas := metas - {id};
      if count != 0 {
        count := count - 1;
      }
      idx.Remove(id);
    }

    /** Deleting keys that are not there. */
    method ForgetAbsent(id: Id)
      requires Valid() && id !in metas
      modifies this
      ensures Valid() && idx == old(idx) && Stores() == old(Stores()) && id !in texts
    {
      hide Kept, Marks;
      ForgetNothing(Stores(), idx.State(), vdim, nextId, count, unit, tokens, id);
      vectors := vectors - {id};
      texts := texts - {id};
      metas := metas - {id};
    }

    method ForgetScoped(id: Id, requester: Name) returns (r: Result<(), Refused>)
      requires Valid()
      modifies this, idx, idx.Repr
      ensures Valid() && idx == old(idx) && fresh(idx.Repr - old(idx.Repr))
      ensures if id !in old(metas) then r == Err(NotFound) && Stores() == old(Stores())
        else if old(metas)[id].owner != requester then r == Err(NotOwner) && Stores() == old(Stores())
        else r == Ok(()) && Stores() == Forgotten(old(Stores()), id, tokens(old(texts)[id]))
    {
      hide Kept;
      var rec := Get(id);
      if rec.None? {
        return Err(NotFound);
      }
      if rec.value.1.owner != requester {
        return Err(NotOwner);
      }
      Forget(id);
      return Ok(());
    }

    // ---------------------------------------------------------- recall

    /** The records stored under a token, in some order. */
    method Lookup(tok: Token) returns (ids: seq<Id>)
      ensures Recall.NoRepeats(ids) && forall id :: id in ids <==> (tok, id) in postings
    {
      ids := [];
      var rest := postings;
      while rest != {}
        invariant rest <= postings && Recall.NoRepeats(ids)
        invariant forall id :: id in ids <==> (tok, id) in postings - rest
        decreases |rest|
      {
        var p :| p in rest;
        rest := rest - {p};
        if p.0 == tok {
          ids := ids + [p.1];
        }
      }
    }

    /** One lookup a query token; a match weighs by how many records there are and how many match. */
    method Scans(toks: seq<Token>, weigh: (nat, nat) -> real) returns (ps: seq<Recall.Posting>)
      ensures LookedUp(ps, toks, Stores(), count, weigh)
    {
      ps := [];
      for i := 0 to |toks|
        invariant |ps| == i
        invariant forall k :: 0 <= k < i ==> Recall.NoRepeats(ps[k].ids)
        invariant forall k, id :: 0 <= k < i ==> (id in ps[k].ids <==> (toks[k], id) in postings)
        invariant forall k :: 0 <= k < i ==> ps[k].weight == weigh(count, |ps[k].ids|)
      {
        hide Recall.NoRepeats;
        var ids := Lookup(toks[i]);
        ps := ps + [Recall.Posting(ids, weigh(count, |ids|))];
      }
    }

    /** `out` is an answer over what is stored now, to the query's own tokens and its scaled vector. */
    ghost predicate Reply(out: seq<Recall.Hit>, ps: seq<Recall.Posting>, best: seq<Shortlist.Scored>, sem: Recall.Fused,
                          pool: Recall.Fused, scope: Name, query: Text, q: Vector, k: nat, at: nat,
                          sim: Recall.Similarity, exactMax: nat, near: seq<(Id, real)>, weigh: (nat, nat) -> real)
      reads this, idx
    {
      && LookedUp(ps, tokens(query), Stores(), count, weigh)
      && Recall.Recalled(out, best, sem, pool, idx.State(), Stores(), scope, unit(q), k, at, sim, exactMax, near, ps,
                         tokens(query), vdim, unit)
      && forall i :: 0 <= i < |out| ==>
           ScoreIs(out[i], ps, sem, Recall.ScopedCount(idx.State(), scope) <= exactMax, Stores(), unit(q), sim, near,
                   unit)
    }

    /**
     * Recall as of `at`, over the records and mirrors as they stand. `sim` is the inner
     * product, `near` what the approximate index returns for a scope too big to search.
     */
    method RecallScoped(scope: Name, query: Text, q: Vector, k: nat, at: nat, sim: Recall.Similarity, exactMax: nat,
                        near: seq<(Id, real)>, weigh: (nat, nat) -> real)
      returns (out: seq<Recall.Hit>)
      requires Valid()
      ensures exists ps, best, sem, pool ::
        Reply(out, ps, best, sem, pool, scope, query, q, k, at, sim, exactMax, near, weigh)
      ensures forall i :: 0 <= i < |out| ==>
        var h := out[i];
        && h.id in metas && h.meta == metas[h.id] && h.id in texts && h.text == texts[h.id]
        && (h.meta.owner == scope || h.meta.owner == [])
        && (h.meta.validFrom == 0 || h.meta.validFrom <= at) && (h.meta.validTo == 0 || at < h.meta.validTo)
      ensures |out| < k ==> forall id, i ::
        id in metas && 0 <= i < |tokens(query)| && (tokens(query)[i], id) in postings &&
        (metas[id].owner == scope || metas[id].owner == []) &&
        (metas[id].validFrom == 0 || metas[id].validFrom <= at) &&
        (metas[id].validTo == 0 || at < metas[id].validTo) ==>
          Listed(out, id)
      ensures |out| < k && scope != [] && 0 < Recall.ScopedCount(idx.State(), scope) <= exactMax ==> forall id ::
        id in metas && id in vectors && |q| == vdim && sim(unit(q), unit(vectors[id])) > 0.0 &&
        (metas[id].owner == scope || metas[id].owner == []) &&
        (metas[id].validFrom == 0 || metas[id].validFrom <= at) &&
        (metas[id].validTo == 0 || at < metas[id].validTo) ==>
          Listed(out, id)
    {
      hide Kept, Agrees, RecIndex.Valid, Recall.Recalled, Recall.PostingsOf, ScoreIs, Recall.ScopedCount;
      KeptFamilies(Stores(), idx.State(), vdim, nextId, count, unit, tokens);
      KeptAgrees(Stores(), idx.State(), vdim, nextId, count, unit, tokens);
      var x := ReadIndex();
      var toks := tokens(query);
      var ps := Scans(toks, weigh);
      out := Recall.RecallAt(x, Records(texts, metas, vectors, postings), scope, unit(q), k, at, sim, exactMax, near,
                             ps, toks, vdim, unit);
      ghost var best, sem, pool :|
        Recall.Recalled(out, best, sem, pool, x, Stores(), scope, unit(q), k, at, sim, exactMax, near, ps, toks,
                        vdim, unit);
      ghost var rs := Stores();
      ghost var exact := Recall.ScopedCount(x, scope) <= exactMax;
      forall i | 0 <= i < |out| ensures ScoreIs(out[i], ps, sem, exact, rs, unit(q), sim, near, unit) {
        ScoresAre(out, best, sem, pool, x, rs, scope, unit(q), k, at, sim, exactMax, near, ps, toks, vdim, unit, i);
      }
      assert Reply(out, ps, best, sem, pool, scope, query, q, k, at, sim, exactMax, near, weigh);
      AnswerMeans(out, best, sem, pool, x, rs, scope, unit(q), k, at, sim, exactMax, near, ps, toks, vdim, unit);
      assert |unit(q)| == |q|;
    }

    /**
     * A record whose validity is ended at `t` is not recalled at or after that time, by
     * anybody, while a recall that looks back to before it still finds it.
     */
    method InvalidateTakesEffect(id: Id, t: nat, scope: Name, query: Text, q: Vector, k: nat, early: nat, late: nat,
                                 sim: Recall.Similarity, exactMax: nat, near: seq<(Id, real)>,
                                 weigh: (nat, nat) -> real)
      returns (before: seq<Recall.Hit>, after: seq<Recall.Hit>)
      requires Valid() && 0 < t <= late && early < t
      modifies this`metas, idx
      ensures Valid() && idx == old(idx)
      ensures forall i :: 0 <= i < |after| ==> after[i].id != id
      ensures |before| < k && id in old(metas) ==>
        var m := old(metas)[id];
        forall i ::
          0 <= i < |tokens(query)| && (tokens(query)[i], id) in old(postings) &&
          (m.owner == scope || m.owner == []) && (m.validFrom == 0 || m.validFrom <= early) ==>
            Listed(before, id)
    {
      hide Kept, RecIndex.Valid, Reply;
      Invalidate(id, t);
      before := RecallScoped(scope, query, q, k, early, sim, exactMax, near, weigh);
      after := RecallScoped(scope, query, q, k, late, sim, exactMax, near, weigh);
    }

    method ReadIndex() returns (x: Index)
      requires Valid()
      ensures x == idx.State()
    {
      x := idx.Read();
    }

    /** Rebuild every mirror from the records. */
    method Reload()
      requires Valid()
      modifies this`vdim, this`nextId, this`count, this`idx
      ensures Valid() && fresh(idx) && fresh(idx.Repr) && Stores() == old(Stores()) && count == old(count)
      ensures forall id :: id in texts ==> id < nextId
      ensures texts != map[] ==> nextId - 1 in texts
    {
      hide RecIndex.Valid, Kept, Agrees, Whole, Scaling;
      ghost var x, wasDim := idx.State(), vdim;
      KeptCount(Stores(), x, vdim, nextId, count, unit, tokens);
      if vectors == map[] {
        vdim := 0;
      } else {
        var some :| some in vectors;
        vdim := |vectors[some]|;
      }
      ReloadedDim(Stores(), x, wasDim, nextId, count, unit, tokens, vdim);
      var max, n, rebuilt := Scan();
      nextId, count, idx := max + 1, n, rebuilt;
      ScanKeeps(Stores(), idx.State(), vdim, nextId, unit, tokens);
    }

    /** One pass over the stored records: the largest id, their number, and a new index. */
    method Scan() returns (max: Id, n: nat, x: RecIndex)
      requires Scaling(unit) && Whole(Stores(), vdim, tokens)
      ensures fresh(x) && fresh(x.Repr) && x.Valid() && x.unit == unit && n == |texts|
      ensures Largest(max, texts.Keys)
      ensures Agrees(x.State(), Stores(), vdim, unit)
    {
      hide Agrees, Inserted, Whole, Scaling, Passed, Largest;
      max, n := 0, 0;
      x := new RecIndex(unit);
      var metas, vectors, rest := this.metas, this.vectors, texts.Keys;
      ghost var rs, seen: set<Id> := Stores(), {};
      ScanBegins(rs, vdim, unit);
      while rest != {}
        invariant fresh(x) && fresh(x.Repr) && x.Valid() && x.unit == unit
        invariant Passed(x.State(), rs, seen, rest, max, n, vdim, unit)
        decreases |rest|
      {
        var id :| id in rest;
        ScanNext(x.State(), rs, seen, rest, max, n, vdim, unit, tokens, id);
        if id > max {
          max := id;
        }
        n := n + 1;
        x.Insert(id, metas[id], Some(vectors[id]));
        rest := rest - {id};
        seen := seen + {id};
      }
      ScanEnds(x.State(), rs, seen, max, n, vdim, unit, tokens);
    }
  }

  // ------------------------------------------------------------ scanning

  function Among<T>(m: map<Id, T>, ids: set<Id>): map<Id, T> {
    map id | id in m && id in ids :: m[id]
  }

  /** The records the scan has passed. */
  ghost function Scanned(metas: map<Id, Meta>, vectors: map<Id, Vector>, seen: set<Id>): Records {
    Records(map[], Among(metas, seen), Among(vectors, seen), {})
  }

  ghost predicate Partition(seen: set<Id>, rest: set<Id>, all: set<Id>) {
    forall id :: (id in all <==> id in seen || id in rest) && !(id in seen && id in rest)
  }

  ghost predicate Largest(max: Id, ids: set<Id>) {
    (forall id :: id in ids ==> id <= max) && if ids == {} then max == 0 else max in ids
  }

  /** The scan has passed `seen`, not `rest`, with this maximum, count and index. */
  ghost predicate Passed(x: Index, rs: Records, seen: set<Id>, rest: set<Id>, max: Id, n: nat, vdim: nat,
                         unit: Vector -> Vector) {
    && Partition(seen, rest, rs.texts.Keys) && n == |seen|
    && Largest(max, seen)
    && Agrees(x, Scanned(rs.metas, rs.vectors, seen), vdim, unit)
  }

  lemma ScanBegins(rs: Records, vdim: nat, unit: Vector -> Vector)
    ensures Passed(NO_INDEX, rs, {}, rs.texts.Keys, 0, 0, vdim, unit)
  {
    NothingScanned(rs.metas, rs.vectors, vdim, unit);
    hide Agrees;
  }

  lemma ScanNext(x: Index, rs: Records, seen: set<Id>, rest: set<Id>, max: Id, n: nat, vdim: nat,
                 unit: Vector -> Vector,
                 tokens: Text -> seq<Token>, id: Id)
    requires Passed(x, rs, seen, rest, max, n, vdim, unit) && id in rest && Whole(rs, vdim, tokens) && Scaling(unit)
    ensures id in rs.metas && id in rs.vectors
    ensures Passed(Inserted(x, id, rs.metas[id], Some(unit(rs.vectors[id]))), rs, seen + {id}, rest - {id},
                   if id > max then id else max, n + 1, vdim, unit)
  {
    hide Agrees, Inserted, Scanned, Whole, Scaling, Partition, Largest;
    ScanTakes(seen, rest, rs.texts.Keys, max, id);
    WholeHas(rs, vdim, tokens, id);
    ScanOne(x, rs.metas, rs.vectors, seen, vdim, unit, id);
  }

  lemma ScanEnds(x: Index, rs: Records, seen: set<Id>, max: Id, n: nat, vdim: nat, unit: Vector -> Vector,
                 tokens: Text -> seq<Token>)
    requires Passed(x, rs, seen, {}, max, n, vdim, unit) && Whole(rs, vdim, tokens)
    ensures n == |rs.texts| && Largest(max, rs.texts.Keys) && Agrees(x, rs, vdim, unit)
  {
    hide Agrees, Scanned, Whole, Partition, Largest;
    ScanDone(seen, rs.texts.Keys);
    AllScanned(rs, vdim, tokens, x, unit);
  }

  lemma ScanTakes(seen: set<Id>, rest: set<Id>, all: set<Id>, max: Id, id: Id)
    requires Partition(seen, rest, all) && Largest(max, seen) && id in rest
    ensures id in all && id !in seen && Partition(seen + {id}, rest - {id}, all)
    ensures Largest(if id > max then id else max, seen + {id})
    ensures |seen + {id}| == |seen| + 1
  {
  }

  lemma ScanDone(seen: set<Id>, all: set<Id>)
    requires Partition(seen, {}, all)
    ensures seen == all
  {
  }

  lemma NothingScanned(metas: map<Id, Meta>, vectors: map<Id, Vector>, vdim: nat, unit: Vector -> Vector)
    ensures Agrees(NO_INDEX, Scanned(metas, vectors, {}), vdim, unit)
  {
  }

  lemma WholeHas(rs: Records, vdim: nat, tokens: Text -> seq<Token>, id: Id)
    requires Whole(rs, vdim, tokens) && id in rs.texts
    ensures id in rs.metas && id in rs.vectors && rs.vectors[id] != [] && |rs.vectors[id]| == vdim
  {
  }

  /** Agreement looks at metadata and vectors only. */
  lemma AgreesSame(x: Index, rs: Records, rs': Records, vdim: nat, unit: Vector -> Vector)
    requires Agrees(x, rs, vdim, unit) && rs'.metas == rs.metas && rs'.vectors == rs.vectors
    ensures Agrees(x, rs', vdim, unit)
  {
    hide Interning, RecsAgree, ArenasAgree;
  }

  lemma AmongGrows<T>(m: map<Id, T>, seen: set<Id>, id: Id)
    requires id in m && id !in seen
    ensures Among(m, seen)[id := m[id]] == Among(m, seen + {id}) && id !in Among(m, seen)
  {
  }

  lemma AmongAll<T>(m: map<Id, T>, ids: set<Id>)
    requires forall id :: id in m <==> id in ids
    ensures Among(m, ids) == m
  {
  }

  lemma ScanOne(x: Index, metas: map<Id, Meta>, vectors: map<Id, Vector>, seen: set<Id>, vdim: nat,
                unit: Vector -> Vector, id: Id)
    requires Agrees(x, Scanned(metas, vectors, seen), vdim, unit) && Scaling(unit)
    requires id in metas && id in vectors && id !in seen && vectors[id] != [] && |vectors[id]| == vdim
    ensures Agrees(Inserted(x, id, metas[id], Some(unit(vectors[id]))),
                   Scanned(metas, vectors, seen + {id}), vdim, unit)
  {
    hide Agrees, Inserted, Among, Scaling;
    var rs := Scanned(metas, vectors, seen);
    AmongGrows(metas, seen, id);
    AmongGrows(vectors, seen, id);
    InsertAgrees(x, rs, vdim, unit, id, [], metas[id], vectors[id], []);
    AgreesSame(Inserted(x, id, metas[id], Some(unit(vectors[id]))), Stored(rs, id, [], metas[id], vectors[id], []),
               Scanned(metas, vectors, seen + {id}), vdim, unit);
  }

  lemma AllScanned(rs: Records, vdim: nat, tokens: Text -> seq<Token>, x: Index, unit: Vector -> Vector)
    requires Whole(rs, vdim, tokens) && Agrees(x, Scanned(rs.metas, rs.vectors, rs.texts.Keys), vdim, unit)
    ensures Agrees(x, rs, vdim, unit) && |rs.texts| == |rs.texts.Keys|
  {
    WholeFamilies(rs, vdim, tokens);
    hide Whole, Agrees, Among;
    AmongAll(rs.metas, rs.texts.Keys);
    AmongAll(rs.vectors, rs.texts.Keys);
    AgreesSame(x, Scanned(rs.metas, rs.vectors, rs.texts.Keys), rs, vdim, unit);
  }

  // ------------------------------------------------------------ what the operations keep

  lemma EmptyKept(unit: Vector -> Vector, tokens: Text -> seq<Token>)
    requires Scaling(unit)
    ensures Kept(NOTHING, NO_INDEX, 0, 1, 0, unit, tokens)
  {
  }

  lemma KeptFamilies(rs: Records, x: Index, vdim: nat, nextId: nat, count: nat, unit: Vector -> Vector,
                     tokens: Text -> seq<Token>)
    requires Kept(rs, x, vdim, nextId, count, unit, tokens)
    ensures forall id :: id in rs.texts <==> id in rs.metas
    ensures forall id :: id in rs.texts <==> id in rs.vectors
    ensures Scaling(unit) && Whole(rs, vdim, tokens)
  {
    hide Agrees;
  }

  lemma KeptAgrees(rs: Records, x: Index, vdim: nat, nextId: nat, count: nat, unit: Vector -> Vector,
                   tokens: Text -> seq<Token>)
    requires Kept(rs, x, vdim, nextId, count, unit, tokens)
    ensures Agrees(x, rs, vdim, unit)
  {
    hide Agrees, Whole;
  }

  lemma KeptCount(rs: Records, x: Index, vdim: nat, nextId: nat, count: nat, unit: Vector -> Vector,
                  tokens: Text -> seq<Token>)
    requires Kept(rs, x, vdim, nextId, count, unit, tokens)
    ensures count == |rs.texts|
  {
  }

  lemma MarksNone(id: Id)
    ensures Marks([], id) == {}
  {
  }

  lemma MarksOne(toks: seq<Token>, i: nat, id: Id)
    requires i < |toks|
    ensures Marks(toks[..i + 1], id) == Marks(toks[..i], id) + {(toks[i], id)}
  {
    assert toks[..i + 1] == toks[..i] + [toks[i]];
  }

  lemma StoreWhole(rs: Records, was: nat, tokens: Text -> seq<Token>, id: Id, text: Text, m: Meta, v: Vector)
    requires Whole(rs, was, tokens) && id !in rs.texts && v != [] && (was == 0 || |v| == was)
    ensures Whole(Stored(rs, id, text, m, v, tokens(text)), |v|, tokens)
  {
    var rs' := Stored(rs, id, text, m, v, tokens(text));
    forall t, k ensures (t, k) in rs'.postings <==> k in rs'.texts && t in tokens(rs'.texts[k]) {
      assert (t, k) in Marks(tokens(text), id) <==> k == id && t in tokens(text);
    }
  }

  /** Before the first vector nothing is stored, so the dimension may be chosen. */
  lemma DimensionChosen(x: Index, rs: Records, was: nat, now: nat, unit: Vector -> Vector, tokens: Text -> seq<Token>)
    requires Agrees(x, rs, was, unit) && Whole(rs, was, tokens) && (was == now || was == 0)
    ensures Agrees(x, rs, now, unit) && Whole(rs, now, tokens)
  {
    if was != now {
      WholeDim(rs, was, now, tokens);
      hide WellFormed, Whole;
      forall i | 0 <= i < |x.owners|
        ensures ArenaAgrees(ArenaOf(x.arenas, i), x.owners[i], rs.metas, rs.vectors, now, unit)
      {
        assert ArenaAgrees(ArenaOf(x.arenas, i), x.owners[i], rs.metas, rs.vectors, was, unit);
      }
    }
  }

  lemma WholeDim(rs: Records, was: nat, now: nat, tokens: Text -> seq<Token>)
    requires Whole(rs, was, tokens) && (was == 0 || rs.vectors == map[])
    ensures Whole(rs, now, tokens)
  {
  }

  lemma WholeFamilies(rs: Records, vdim: nat, tokens: Text -> seq<Token>)
    requires Whole(rs, vdim, tokens)
    ensures forall id :: id in rs.texts <==> id in rs.metas
    ensures forall id :: id in rs.texts <==> id in rs.vectors
  {
  }

  lemma CountGrows(texts: map<Id, Text>, id: Id, text: Text)
    requires id !in texts
    ensures |texts[id := text]| == |texts| + 1
  {
    assert texts[id := text].Keys == texts.Keys + {id};
    assert |texts[id := text]| == |texts[id := text].Keys| && |texts| == |texts.Keys|;
  }

  lemma CountShrinks(texts: map<Id, Text>, id: Id)
    requires id in texts
    ensures |texts - {id}| == |texts| - 1
  {
    assert (texts - {id}).Keys == texts.Keys - {id};
    assert |texts - {id}| == |(texts - {id}).Keys| && |texts| == |texts.Keys|;
  }

  lemma StoreKeeps(rs: Records, x: Index, was: nat, id: Id, count: nat, unit: Vector -> Vector,
                   tokens: Text -> seq<Token>, text: Text, m: Meta, v: Vector)
    requires Kept(rs, x, was, id, count, unit, tokens) && v != [] && (was == 0 || |v| == was)
    ensures id !in rs.texts
    ensures Kept(Stored(rs, id, text, m, v, tokens(text)),
                 Inserted(x, id, m, Some(unit(v))), |v|, id + 1, count + 1, unit, tokens)
  {
    hide Agrees, Whole, Inserted, Scaling, Marks;
    DimensionChosen(x, rs, was, |v|, unit, tokens);
    StoreWhole(rs, was, tokens, id, text, m, v);
    WholeFamilies(rs, was, tokens);
    InsertAgrees(x, rs, |v|, unit, id, text, m, v, tokens(text));
    CountGrows(rs.texts, id, text);
  }

  lemma MetaWhole(rs: Records, vdim: nat, tokens: Text -> seq<Token>, id: Id, m: Meta)
    requires Whole(rs, vdim, tokens) && id in rs.metas
    ensures Whole(WithMeta(rs, id, m), vdim, tokens)
  {
  }

  lemma MetaKeeps(rs: Records, x: Index, vdim: nat, nextId: nat, count: nat, unit: Vector -> Vector,
                  tokens: Text -> seq<Token>, id: Id, m: Meta)
    requires Kept(rs, x, vdim, nextId, count, unit, tokens) && id in rs.metas && m.owner == rs.metas[id].owner
    ensures Kept(WithMeta(rs, id, m), Adjusted(x, id, m), vdim, nextId, count, unit, tokens)
    ensures id in x.recs && InfoMatches(x.owners, x.recs[id], rs.metas[id])
  {
    hide Agrees, Whole, Scaling, Adjusted;
    MetaAgrees(x, rs, vdim, unit, id, m);
    MetaWhole(rs, vdim, tokens, id, m);
    AgreesInfo(x, rs, vdim, unit, id);
  }

  lemma AgreesInfo(x: Index, rs: Records, vdim: nat, unit: Vector -> Vector, id: Id)
    requires Agrees(x, rs, vdim, unit) && id in rs.metas
    ensures id in x.recs && InfoMatches(x.owners, x.recs[id], rs.metas[id])
  {
    hide ArenasAgree, Interning;
  }

  lemma ForgetWhole(rs: Records, vdim: nat, tokens: Text -> seq<Token>, id: Id)
    requires Whole(rs, vdim, tokens) && id in rs.texts
    ensures Whole(Forgotten(rs, id, tokens(rs.texts[id])), vdim, tokens)
  {
    var toks := tokens(rs.texts[id]);
    var rs' := Forgotten(rs, id, toks);
    forall t, k ensures (t, k) in rs'.postings <==> k in rs'.texts && t in tokens(rs'.texts[k]) {
      assert (t, k) in Marks(toks, id) <==> k == id && t in toks;
    }
  }

  lemma ForgetKeeps(rs: Records, x: Index, vdim: nat, nextId: nat, count: nat, unit: Vector -> Vector,
                    tokens: Text -> seq<Token>, id: Id)
    requires Kept(rs, x, vdim, nextId, count, unit, tokens) && id in rs.texts
    ensures count > 0
    ensures Kept(Forgotten(rs, id, tokens(rs.texts[id])), Dropped(x, id), vdim, nextId, count - 1, unit, tokens)
  {
    hide Agrees, Whole, Dropped, Scaling, Marks;
    ForgetWhole(rs, vdim, tokens, id);
    WholeFamilies(rs, vdim, tokens);
    DropAgrees(x, rs, vdim, unit, id, tokens(rs.texts[id]));
    CountShrinks(rs.texts, id);
  }

  /** Forgetting what is not there removes nothing. */
  lemma ForgetNothing(rs: Records, x: Index, vdim: nat, nextId: nat, count: nat, unit: Vector -> Vector,
                      tokens: Text -> seq<Token>, id: Id)
    requires Kept(rs, x, vdim, nextId, count, unit, tokens) && id !in rs.metas
    ensures Records(rs.texts - {id}, rs.metas - {id}, rs.vectors - {id}, rs.postings) == rs
  {
    hide Agrees, Whole, Scaling;
    WholeFamilies(rs, vdim, tokens);
    hide Kept;
    RemoveAbsent(rs.texts, id);
    RemoveAbsent(rs.metas, id);
    RemoveAbsent(rs.vectors, id);
  }

  lemma RemoveAbsent<T>(m: map<Id, T>, id: Id)
    requires id !in m
    ensures m - {id} == m
  {
  }

  /** The dimension found on reloading is the one in use, if any vector is stored. */
  lemma ReloadedDim(rs: Records, x: Index, was: nat, nextId: nat, count: nat, unit: Vector -> Vector,
                    tokens: Text -> seq<Token>, now: nat)
    requires Kept(rs, x, was, nextId, count, unit, tokens)
    requires if rs.vectors == map[] then now == 0 else exists id :: id in rs.vectors && now == |rs.vectors[id]|
    ensures Whole(rs, now, tokens) && Scaling(unit)
  {
    hide Agrees, Scaling;
    if rs.vectors == map[] {
      WholeDim(rs, was, now, tokens);
    }
  }

  lemma ScanKeeps(rs: Records, y: Index, vdim: nat, nextId: nat, unit: Vector -> Vector, tokens: Text -> seq<Token>)
    requires Scaling(unit) && Whole(rs, vdim, tokens) && Agrees(y, rs, vdim, unit)
    requires forall id :: id in rs.texts ==> id < nextId
    ensures Kept(rs, y, vdim, nextId, |rs.texts|, unit, tokens)
  {
  }
}
