/**
 * What an answer to a recall means to the one who asked: who sees what and when,
 * what is sure to be listed, and how a score comes about.
 */
module RecallMeaning {
  import opened Base
  import opened Arena
  import opened MemoryIndex
  import opened Shortlist
  import opened Recall

  // ------------------------------------------------------------ scores

  /** The weights of the query tokens a record carries, added up. */
  function Carried(ps: seq<Posting>, id: Id): real {
    if ps == [] then 0.0
    else Carried(ps[..|ps| - 1], id) + if id in ps[|ps| - 1].ids then ps[|ps| - 1].weight else 0.0
  }

  lemma {:induction false} KeywordsCount(ps: seq<Posting>, n: nat, id: Id, sal: real)
    requires n <= |ps|
    ensures KeywordSum(ps, n, id, sal) == (1.0 + sal) / 2.0 * (0.8 * Carried(ps[..n], id))
    decreases n
  {
    if n > 0 {
      KeywordsCount(ps, n - 1, id, sal);
      assert ps[..n][..n - 1] == ps[..n - 1] && ps[..n][n - 1] == ps[n - 1];
      var c, w := Carried(ps[..n - 1], id), ps[n - 1].weight;
      Spread((1.0 + sal) / 2.0, 0.8 * c, 0.8 * w);
      assert KeywordAdd(w, sal) == (1.0 + sal) / 2.0 * (0.8 * w);
    }
  }

  lemma Spread(a: real, b: real, c: real)
    ensures a * (b + c) == a * b + a * c
  {
  }

  /** A score is similarity and four fifths of the carried weights, halved by no salience and whole at salience one. */
  ghost predicate ScoredAs(score: real, sal: real, similarity: real, carried: real) {
    score == (1.0 + sal) / 2.0 * (similarity + 0.8 * carried)
  }

  /** The similarity that counts for a record: none, or more than a half. */
  ghost predicate Counts(sem: Fused, id: Id, sal: real, similarity: real) {
    if id in sem then similarity > 0.5 && sem[id] == (1.0 + sal) / 2.0 * similarity else similarity == 0.0
  }

  lemma PoolScores(sem: Fused, ps: seq<Posting>, id: Id, sal: real, similarity: real)
    requires Counts(sem, id, sal, similarity)
    ensures ScoredAs(PoolScore(sem, ps, id, sal), sal, similarity, Carried(ps, id))
  {
    KeywordsCount(ps, |ps|, id, sal);
    assert ps[..|ps|] == ps;
    Spread((1.0 + sal) / 2.0, similarity, 0.8 * Carried(ps, id));
  }

  /** In the exact search the similarity of a listed record is (1 + cosine) / 2, of its own scaled vector. */
  lemma SemanticCounts(sem: Fused, kept: set<Id>, rs: Records, scope: Name, at: nat, q: Vector, sim: Similarity,
                       vdim: nat, unit: Vector -> Vector, id: Id)
    requires SemanticPart(sem, kept, Matches(rs, scope, at, q, sim, vdim, unit), rs) && id in sem
    ensures id in rs.metas && id in rs.vectors
    ensures Counts(sem, id, rs.metas[id].salience, (1.0 + sim(q, unit(rs.vectors[id]))) / 2.0)
  {
    hide MaySee;
    var cos := sim(q, unit(rs.vectors[id]));
    assert sem[id] == Weighted(ToSimilarity(cos), rs.metas[id].salience);
    assert ToSimilarity(cos) == (1.0 + cos) / 2.0;
    Halves((1.0 + cos) / 2.0, rs.metas[id].salience);
  }

  lemma Halves(s: real, sal: real)
    ensures s * (0.5 + 0.5 * sal) == (1.0 + sal) / 2.0 * s
  {
  }

  /** In the approximate one it is 1 minus half the distance some result gave. */
  lemma NearCounts(sem: Fused, near: seq<(Id, real)>, rs: Records, scope: Name, at: nat, id: Id) returns (i: nat)
    requires NearPart(sem, near, rs, scope, at) && id in sem
    ensures id in rs.metas && i < |near| && near[i].0 == id
    ensures Counts(sem, id, rs.metas[id].salience, 1.0 - near[i].1 / 2.0)
  {
    var found := FromDistances(near);
    assert ScoredBy(found, |found|, id, sem[id], rs.metas[id].salience);
    i :| 0 <= i < |found| && found[i].0 == id && found[i].1 > 0.5 &&
         sem[id] == Weighted(found[i].1, rs.metas[id].salience);
    DistanceAt(near, i);
    Halves(found[i].1, rs.metas[id].salience);
  }

  lemma {:induction false} DistanceAt(near: seq<(Id, real)>, i: nat)
    requires i < |near|
    ensures FromDistances(near)[i] == (near[i].0, 1.0 - near[i].1 / 2.0)
    decreases |near|
  {
    if i < |near| - 1 {
      DistanceAt(near[..|near| - 1], i);
    }
  }

  /** How a hit's score comes about, in a memory of these records. */
  ghost predicate ScoreIs(h: Hit, ps: seq<Posting>, sem: Fused, exact: bool, rs: Records, q: Vector, sim: Similarity,
                          near: seq<(Id, real)>, unit: Vector -> Vector) {
    if h.id !in sem then ScoredAs(h.score, h.meta.salience, 0.0, Carried(ps, h.id))
    else if exact then
      && h.id in rs.vectors
      && ScoredAs(h.score, h.meta.salience, (1.0 + sim(q, unit(rs.vectors[h.id]))) / 2.0, Carried(ps, h.id))
    else
      exists i :: 0 <= i < |near| && near[i].0 == h.id &&
        ScoredAs(h.score, h.meta.salience, 1.0 - near[i].1 / 2.0, Carried(ps, h.id))
  }

  lemma HitScore(h: Hit, pool: Fused, sem: Fused, rs: Records, scope: Name, at: nat, toks: seq<Token>,
                 ps: seq<Posting>)
    requires PoolIs(pool, sem, rs, scope, at, toks, ps) && HitFits(h, pool, rs, scope, at)
    ensures h.score == PoolScore(sem, ps, h.id, h.meta.salience) && h.id in rs.metas && h.meta == rs.metas[h.id]
  {
    hide MaySee, PoolScore;
  }

  lemma PlainScore(h: Hit, ps: seq<Posting>, sem: Fused, exact: bool, rs: Records, q: Vector, sim: Similarity,
                   near: seq<(Id, real)>, unit: Vector -> Vector)
    requires h.id !in sem && h.score == PoolScore(sem, ps, h.id, h.meta.salience)
    ensures ScoreIs(h, ps, sem, exact, rs, q, sim, near, unit)
  {
    NoneCounts(sem, h.id, h.meta.salience);
    PoolScores(sem, ps, h.id, h.meta.salience, 0.0);
    hide ScoredAs, Carried, PoolScore;
  }

  lemma ExactScore(h: Hit, ps: seq<Posting>, sem: Fused, kept: set<Id>, rs: Records, scope: Name, at: nat, q: Vector,
                   sim: Similarity, near: seq<(Id, real)>, vdim: nat, unit: Vector -> Vector)
    requires h.id in sem && h.score == PoolScore(sem, ps, h.id, h.meta.salience)
    requires h.id in rs.metas && h.meta == rs.metas[h.id]
    requires SemanticPart(sem, kept, Matches(rs, scope, at, q, sim, vdim, unit), rs)
    ensures ScoreIs(h, ps, sem, true, rs, q, sim, near, unit)
  {
    SemanticCounts(sem, kept, rs, scope, at, q, sim, vdim, unit, h.id);
    PoolScores(sem, ps, h.id, h.meta.salience, (1.0 + sim(q, unit(rs.vectors[h.id]))) / 2.0);
    hide ScoredAs, Carried, PoolScore, SemanticPart, Matches, Counts;
  }

  lemma NearScore(h: Hit, ps: seq<Posting>, sem: Fused, rs: Records, scope: Name, at: nat, q: Vector,
                  sim: Similarity, near: seq<(Id, real)>, unit: Vector -> Vector)
    requires h.id in sem && h.score == PoolScore(sem, ps, h.id, h.meta.salience)
    requires h.id in rs.metas && h.meta == rs.metas[h.id] && NearPart(sem, near, rs, scope, at)
    ensures ScoreIs(h, ps, sem, false, rs, q, sim, near, unit)
  {
    hide ScoredAs, Carried, PoolScore, NearPart, Counts;
    var j := NearCounts(sem, near, rs, scope, at, h.id);
    PoolScores(sem, ps, h.id, h.meta.salience, 1.0 - near[j].1 / 2.0);
  }

  lemma ScoresAre(out: seq<Hit>, best: seq<Scored>, sem: Fused, pool: Fused, x: Index, rs: Records, scope: Name,
                  q: Vector, k: nat, at: nat, sim: Similarity, exactMax: nat, near: seq<(Id, real)>, ps: seq<Posting>,
                  toks: seq<Token>, vdim: nat, unit: Vector -> Vector, i: nat)
    requires i < |out|
    requires Recalled(out, best, sem, pool, x, rs, scope, q, k, at, sim, exactMax, near, ps, toks, vdim, unit)
    ensures ScoreIs(out[i], ps, sem, ScopedCount(x, scope) <= exactMax, rs, q, sim, near, unit)
  {
    hide ScopedCount, ScoreIs, HitFits, PoolScore, NearPart, PoolIs, SemanticPart, Matches, TopOf, TopSet;
    var h := out[i];
    assert HitFits(h, pool, rs, scope, at);
    HitScore(h, pool, sem, rs, scope, at, toks, ps);
    if h.id !in sem {
      PlainScore(h, ps, sem, ScopedCount(x, scope) <= exactMax, rs, q, sim, near, unit);
    } else if ScopedCount(x, scope) <= exactMax {
      ExactScore(h, ps, sem, IdsOf(best), rs, scope, at, q, sim, near, vdim, unit);
    } else {
      NearScore(h, ps, sem, rs, scope, at, q, sim, near, unit);
    }
  }

  lemma NoneCounts(sem: Fused, id: Id, sal: real)
    requires id !in sem
    ensures Counts(sem, id, sal, 0.0)
  {
  }

  // ------------------------------------------------------------ who sees what, and when

  /** The owner's or nobody's, and valid then. */
  ghost predicate Open(m: Meta, scope: Name, at: nat) {
    && (m.owner == scope || m.owner == [])
    && (m.validFrom == 0 || m.validFrom <= at) && (m.validTo == 0 || at < m.validTo)
  }

  ghost predicate Listed(out: seq<Hit>, id: Id) {
    exists j :: 0 <= j < |out| && out[j].id == id
  }

  /** Every hit is a stored record, the asker's own or nobody's, and valid at the time asked for. */
  lemma HitsAreOpen(out: seq<Hit>, pool: Fused, k: nat, rs: Records, scope: Name, at: nat, i: nat)
    requires Ranked(out, pool, k, rs, scope, at) && i < |out|
    ensures var h := out[i];
      && h.id in rs.metas && h.meta == rs.metas[h.id] && h.id in rs.texts && h.text == rs.texts[h.id]
      && Open(h.meta, scope, at)
  {
    assert HitFits(out[i], pool, rs, scope, at);
  }

  /** A list shorter than asked for leaves out nothing visible that has a query token. */
  lemma NothingWithATokenIsMissing(out: seq<Hit>, sem: Fused, pool: Fused, rs: Records, scope: Name, k: nat, at: nat,
                                   ps: seq<Posting>, toks: seq<Token>, id: Id, i: nat)
    requires Ranked(out, pool, k, rs, scope, at) && PoolIs(pool, sem, rs, scope, at, toks, ps) && |out| < k
    requires id in rs.metas && i < |toks| && (toks[i], id) in rs.postings
    requires Open(rs.metas[id], scope, at)
    ensures Listed(out, id)
  {
    TokensPool(pool, sem, rs, scope, at, toks, ps, id, i);
    ShortIsWhole(out, pool, k, rs, scope, at, id);
  }

  /** And, for a named scope searched exactly, nothing visible of positive cosine. */
  lemma NothingSimilarIsMissing(out: seq<Hit>, best: seq<Scored>, sem: Fused, pool: Fused, x: Index, rs: Records,
                                scope: Name, q: Vector, k: nat, at: nat, sim: Similarity, ps: seq<Posting>,
                                toks: seq<Token>, vdim: nat, unit: Vector -> Vector, id: Id)
    requires Ranked(out, pool, k, rs, scope, at) && PoolIs(pool, sem, rs, scope, at, toks, ps) && |out| < k
    requires Searched(best, sem, x, rs, scope, q, k, at, sim, vdim, unit) && scope != []
    requires id in rs.metas && id in rs.vectors && |q| == vdim && sim(q, unit(rs.vectors[id])) > 0.0
    requires Open(rs.metas[id], scope, at)
    ensures Listed(out, id)
  {
    hide Searched, PoolIs;
    SimilarsPool(pool, best, sem, x, rs, scope, at, toks, ps, q, k, sim, vdim, unit, id);
    ShortIsWhole(out, pool, k, rs, scope, at, id);
  }

  /** A list shorter than asked for is the whole pool. */
  lemma ShortIsWhole(out: seq<Hit>, pool: Fused, k: nat, rs: Records, scope: Name, at: nat, id: Id)
    requires Ranked(out, pool, k, rs, scope, at) && |out| < k && id in pool
    ensures InList(out, id)
  {
    hide MaySee;
    if !InList(out, id) {
      var ids := set i | 0 <= i < |out| :: out[i].id;
      HitIds(out, |out|);
      assert ids <= pool.Keys - {id} by {
        forall x | x in ids ensures x in pool.Keys - {id} {
          var i :| 0 <= i < |out| && out[i].id == x;
          assert HitFits(out[i], pool, rs, scope, at);
        }
      }
      Smaller(ids, pool.Keys - {id});
    }
  }

  lemma {:induction false} HitIds(out: seq<Hit>, n: nat)
    requires n <= |out| && forall i, j :: 0 <= i < j < |out| ==> out[i].id != out[j].id
    ensures |set i | 0 <= i < n :: out[i].id| == n
    decreases n
  {
    if n > 0 {
      HitIds(out, n - 1);
      var was := set i | 0 <= i < n - 1 :: out[i].id;
      assert (set i | 0 <= i < n :: out[i].id) == was + {out[n - 1].id};
      assert out[n - 1].id !in was;
    }
  }

  lemma {:induction false} Smaller(a: set<Id>, b: set<Id>)
    requires a <= b
    ensures |a| <= |b|
    decreases |a|
  {
    if a != {} {
      var x :| x in a;
      Smaller(a - {x}, b - {x});
    }
  }

  /** A visible record with a token of the query is in the pool. */
  lemma TokensPool(pool: Fused, sem: Fused, rs: Records, scope: Name, at: nat, toks: seq<Token>, ps: seq<Posting>,
                   id: Id, i: nat)
    requires PoolIs(pool, sem, rs, scope, at, toks, ps) && id in rs.metas && i < |toks| && (toks[i], id) in rs.postings
    requires Open(rs.metas[id], scope, at)
    ensures id in pool
  {
    assert Mentions(rs, toks, id);
  }

  /** So is one of positive cosine, if a search that can be relied on had room for all. */
  lemma SimilarsPool(pool: Fused, best: seq<Scored>, sem: Fused, x: Index, rs: Records, scope: Name, at: nat,
                     toks: seq<Token>, ps: seq<Posting>, q: Vector, k: nat, sim: Similarity, vdim: nat,
                     unit: Vector -> Vector, id: Id)
    requires PoolIs(pool, sem, rs, scope, at, toks, ps) && |pool| < k && scope != []
    requires Searched(best, sem, x, rs, scope, q, k, at, sim, vdim, unit)
    requires id in rs.metas && id in rs.vectors && |q| == vdim && sim(q, unit(rs.vectors[id])) > 0.0
    requires Open(rs.metas[id], scope, at)
    ensures id in pool
  {
    var m := Matches(rs, scope, at, q, sim, vdim, unit);
    assert IsMatch(rs, scope, at, q, sim, vdim, unit, id);
    assert id in m;
    hide IsMatch, MaySee, Matches, PoolScore, TopOf, SemanticPart;
    assert sem.Keys <= pool.Keys;
    Smaller(sem.Keys, pool.Keys);
    if id !in sem {
      assert |sem.Keys| == |m|;
      Smaller(sem.Keys + {id}, m.Keys);
    }
  }
}
