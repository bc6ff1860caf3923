/**
 * Graph memory: typed edges kept under two byte keys each, and breadth-first
 * traversal over them.
 */
module Graph {
  import opened Base
  import opened Codec

  type Id = n: nat | n < TWO_64 witness 0

  /** The byte-keyed store the engine provides. */
  type Store = map<bytes, bytes>

  const COLON: byte := 58

  /** Big-endian, so that key order is numeric order. */
  function Be(n: nat, w: nat): (r: bytes)
    ensures |r| == w
  {
    if w == 0 then [] else Be(n / 256, w - 1) + [n % 256]
  }

  function FromBe(b: bytes): nat {
    if b == [] then 0 else FromBe(b[..|b| - 1]) * 256 + b[|b| - 1]
  }

  lemma {:induction false} BeReadsBack(n: nat, w: nat)
    requires n < Pow256(w)
    ensures FromBe(Be(n, w)) == n
  {
    if w > 0 {
      BeReadsBack(n / 256, w - 1);
      assert Be(n, w)[..w - 1] == Be(n / 256, w - 1);
    }
  }

  lemma IdReadsBack(id: Id)
    ensures FromBe(Be(id, 8)) == id
  {
    Widths();
    BeReadsBack(id, 8);
  }

  /** mem:edge: and mem:redge: */
  const FORWARD: bytes := [109, 101, 109, 58, 101, 100, 103, 101, 58]
  const BACKWARD: bytes := [109, 101, 109, 58, 114, 101, 100, 103, 101, 58]

  /** A family prefix, one end of the edge, the relation, the other end. */
  function EdgeKey(family: bytes, near: Id, rel: bytes, far: Id): bytes {
    family + Be(near, 8) + [COLON] + rel + [COLON] + Be(far, 8)
  }

  /** Everything of a family at one end; with a relation, the keys that continue with it. */
  function ScanPrefix(family: bytes, near: Id, rel: bytes): bytes {
    family + Be(near, 8) + [COLON] + if rel == [] then [] else rel + [COLON]
  }

  datatype Neighbor = Neighbor(id: nat, rel: bytes, weight: bytes)

  /** What an entry under the prefix says; entries with an empty relation are passed over. */
  function Decoded(family: bytes, key: bytes, value: bytes): Option<Neighbor> {
    var start := |family| + 9;
    if |key| < 8 then None
    else
      var end := |key| - 9;
      if end <= start then None
      else Some(Neighbor(FromBe(key[|key| - 8..]), key[start..end], value))
  }

  // ------------------------------------------------------------ keys are unambiguous

  lemma KeyParts(family: bytes, near: Id, rel: bytes, far: Id)
    ensures var k := EdgeKey(family, near, rel, far); var n := |family|;
      && |k| == n + 18 + |rel|
      && k[..n] == family && k[n..n + 8] == Be(near, 8)
      && k[n + 9..|k| - 9] == rel && k[|k| - 8..] == Be(far, 8)
  {
    hide Be;
    var a, b := Be(near, 8), Be(far, 8);
    var k := EdgeKey(family, near, rel, far);
    assert k == family + (a + [COLON] + rel + [COLON] + b);
    assert k == (family + a + [COLON]) + (rel + [COLON] + b);
    assert k == (family + a + [COLON] + rel + [COLON]) + b;
  }

  /** The decoded entry is the edge that was stored. */
  lemma KeyDecodes(family: bytes, near: Id, rel: bytes, far: Id, value: bytes)
    ensures Decoded(family, EdgeKey(family, near, rel, far), value) ==
      if rel == [] then None else Some(Neighbor(far, rel, value))
  {
    KeyParts(family, near, rel, far);
    IdReadsBack(far);
    hide EdgeKey, FromBe, Be;
  }

  lemma KeyInjective(family: bytes, a: Id, r: bytes, b: Id, a': Id, r': bytes, b': Id)
    requires EdgeKey(family, a, r, b) == EdgeKey(family, a', r', b')
    ensures a == a' && r == r' && b == b'
  {
    KeyParts(family, a, r, b);
    KeyParts(family, a', r', b');
    IdReadsBack(a);
    IdReadsBack(a');
    IdReadsBack(b);
    IdReadsBack(b');
    hide EdgeKey, FromBe, Be;
  }

  /**
   * What a query selects: all relations; or the relation itself, those that continue it
   * with a colon, and those after which it runs on into the bytes of the far end.
   */
  predicate Selects(query: bytes, rel: bytes, far: Id) {
    query == [] || rel == query || Continues(query, rel) || Spills(query, rel, far)
  }

  predicate Continues(query: bytes, rel: bytes) { StartsWith(rel, query + [COLON]) }

  predicate Spills(query: bytes, rel: bytes, far: Id) {
    |rel| < |query| && StartsWith(rel + [COLON] + Be(far, 8), query + [COLON])
  }

  /** Only a query with a colon runs on. */
  lemma NoColonNoSpill(query: bytes, rel: bytes, far: Id)
    requires COLON !in query
    ensures !Spills(query, rel, far)
  {
    hide Be;
    var t, p := rel + [COLON] + Be(far, 8), query + [COLON];
    if |rel| < |query| {
      assert query[|rel|] in query;
      assert t[|rel|] == COLON && p[|rel|] == query[|rel|];
      assert |p| <= |t| ==> t[..|p|][|rel|] == t[|rel|];
    }
  }

  predicate StartsWith(s: bytes, prefix: bytes) { |prefix| <= |s| && s[..|prefix|] == prefix }

  lemma ScanFinds(family: bytes, near: Id, query: bytes, near': Id, rel: bytes, far: Id)
    ensures StartsWith(EdgeKey(family, near', rel, far), ScanPrefix(family, near, query))
       <==> near == near' && Selects(query, rel, far)
  {
    hide Be;
    var n := |family|;
    var k := EdgeKey(family, near', rel, far);
    var p := ScanPrefix(family, near, query);
    KeyParts(family, near', rel, far);
    IdReadsBack(near);
    IdReadsBack(near');
    var head := family + Be(near, 8) + [COLON];
    var tail := rel + [COLON] + Be(far, 8);
    assert k == (family + Be(near', 8) + [COLON]) + tail;
    if StartsWith(k, p) {
      assert k[..|p|][n..n + 8] == k[n..n + 8];
      assert p[n..n + 8] == Be(near, 8);
      assert near == near';
    }
    if near == near' {
      assert k == head + tail;
      if query == [] {
        assert k[..|p|] == head;
      } else {
        assert p == head + (query + [COLON]);
        PrefixBehindHead(head, tail, query + [COLON]);
        RelationPrefix(rel, query, far);
      }
    }
  }

  lemma PrefixBehindHead(head: bytes, tail: bytes, q: bytes)
    ensures StartsWith(head + tail, head + q) <==> StartsWith(tail, q)
  {
    if StartsWith(head + tail, head + q) {
      assert tail[..|q|] == (head + tail)[|head|..|head| + |q|];
      assert (head + q)[|head|..] == q;
    }
    if StartsWith(tail, q) {
      assert (head + tail)[..|head| + |q|] == head + tail[..|q|];
    }
  }

  lemma RelationPrefix(rel: bytes, query: bytes, far: Id)
    requires query != []
    ensures StartsWith(rel + [COLON] + Be(far, 8), query + [COLON]) <==> Selects(query, rel, far)
  {
    hide Be;
    var t := rel + [COLON] + Be(far, 8);
    var p := query + [COLON];
    if |query| <= |rel| {
      assert t[..|query| + 1] == (rel + [COLON])[..|query| + 1];
      if |query| == |rel| {
        assert (rel + [COLON])[..|query| + 1] == rel + [COLON];
        assert p[..|query|] == query && (rel + [COLON])[..|query|] == rel;
      } else {
        assert (rel + [COLON])[..|query| + 1] == rel[..|query| + 1];
      }
    }
  }

  // ------------------------------------------------------------ the graph behind the keys

  datatype Edge = Edge(from: Id, rel: bytes, to: Id)

  /** Edges with their weights (four bytes each). */
  type Edges = map<Edge, bytes>

  /** The store holds each edge under both keys, and nothing else in the two families. */
  ghost predicate Stores(store: Store, es: Edges) {
    && (forall e :: e in es ==>
         && EdgeKey(FORWARD, e.from, e.rel, e.to) in store && store[EdgeKey(FORWARD, e.from, e.rel, e.to)] == es[e]
         && EdgeKey(BACKWARD, e.to, e.rel, e.from) in store && store[EdgeKey(BACKWARD, e.to, e.rel, e.from)] == es[e])
    && (forall k :: k in store && StartsWith(k, FORWARD) ==>
          exists e :: e in es && k == EdgeKey(FORWARD, e.from, e.rel, e.to))
    && (forall k :: k in store && StartsWith(k, BACKWARD) ==>
          exists e :: e in es && k == EdgeKey(BACKWARD, e.to, e.rel, e.from))
  }

  class GraphMemory {
    var store: Store
    ghost var edges: Edges

    ghost predicate Valid()
      reads this
    {
      Stores(store, edges)
    }

    /** Create or replace an edge: two writes. */
    method Link(from: Id, to: Id, rel: bytes, weight: bytes)
      requires Valid()
      modifies this
      ensures Valid() && edges == old(edges)[Edge(from, rel, to) := weight]
      ensures SameElsewhere(old(store), store)
    {
      ghost var was := store;
      store := store[EdgeKey(FORWARD, from, rel, to) := weight];
      store := store[EdgeKey(BACKWARD, to, rel, from) := weight];
      LinkStores(was, edges, Edge(from, rel, to), weight);
      OnlyEdgeKeys(was, Edge(from, rel, to), weight);
      edges := edges[Edge(from, rel, to) := weight];
    }

    method Unlink(from: Id, to: Id, rel: bytes)
      requires Valid()
      modifies this
      ensures Valid() && edges == old(edges) - {Edge(from, rel, to)}
      ensures SameElsewhere(old(store), store)
    {
      ghost var was := store;
      store := store - {EdgeKey(FORWARD, from, rel, to)};
      store := store - {EdgeKey(BACKWARD, to, rel, from)};
      UnlinkStores(was, edges, Edge(from, rel, to));
      OnlyEdgeKeys(was, Edge(from, rel, to), []);
      edges := edges - {Edge(from, rel, to)};
    }

    /** Outgoing edges of `from`, for one relation or for all, each once and in key order. */
    method Neighbors(from: Id, rel: bytes) returns (r: seq<Neighbor>)
      requires Valid()
      ensures Departures(edges, from, rel, r)
    {
      ghost var ks;
      r, ks := Scan(FORWARD, from, rel);
      hide Decoded, ScanPrefix, Less, Stores, Outgoing, ForwardKey;
      forall n ensures n in r <==> Outgoing(edges, from, rel, n) {
        ForwardScan(store, edges, from, rel, n);
      }
      forall i | 0 <= i < |r| ensures ForwardKey(from, r[i], ks[i]) {
        ForwardEntry(store, edges, from, rel, ks[i], r[i]);
      }
      ForwardOrder(from, r, ks);
    }

    /** Edges arriving at `to`, likewise. */
    method Incoming(to: Id, rel: bytes) returns (r: seq<Neighbor>)
      requires Valid()
      ensures Arrivals(edges, to, rel, r)
    {
      ghost var ks;
      r, ks := Scan(BACKWARD, to, rel);
      hide Decoded, ScanPrefix, Less, Stores, Arriving, BackwardKey;
      forall n ensures n in r <==> Arriving(edges, to, rel, n) {
        BackwardScan(store, edges, to, rel, n);
      }
      forall i | 0 <= i < |r| ensures BackwardKey(to, r[i], ks[i]) {
        BackwardEntry(store, edges, to, rel, ks[i], r[i]);
      }
      BackwardOrder(to, r, ks);
    }

    /** A prefix scan in key order, each entry decoded; `ks` are the keys of the entries listed. */
    method Scan(family: bytes, near: Id, rel: bytes) returns (r: seq<Neighbor>, ghost ks: seq<bytes>)
      ensures |ks| == |r| && forall i :: 0 <= i < |r| ==> Entry(store, family, near, rel, ks[i], r[i])
      ensures Ascending(ks)
      ensures forall n :: n in r <==> Scanned(store, family, near, rel, n)
    {
      hide Decoded, ScanPrefix, StartsWith, Less, Ascending, Entry, Listing, Ordering;
      var prefix := ScanPrefix(family, near, rel);
      var under := set k | k in store && StartsWith(k, prefix);
      var keys := SortKeys(under);
      ListingStarts(store, family, near, rel, keys);
      r, ks := [], [];
      for i := 0 to |keys|
        invariant Listing(store, family, near, rel, keys, i, r, ks)
      {
        ListingGoes(store, family, near, rel, under, keys, i, r, ks);
        var d := Decoded(family, keys[i], store[keys[i]]);
        if d.Some? {
          r, ks := r + [d.value], ks + [keys[i]];
        }
      }
      ListingEnds(store, family, near, rel, under, keys, r, ks);
    }

    /** Breadth first from `start`, at most `maxDepth` edges deep. */
    method Traverse(start: Id, maxDepth: nat, rel: bytes) returns (order: seq<Id>)
      requires Valid()
      ensures Traversed(edges, rel, start, maxDepth, order)
    {
      var seen: set<Id> := {start};
      order := [start];
      var q: seq<(Id, nat)> := [(start, 0)];
      ghost var depths: seq<nat> := [0];
      ghost var h := 0;
      ghost var all := Everyone(edges, start);
      SearchStarts(edges, rel, start, maxDepth);
      hide Search, Outgoing, Everyone, Stores, Departures;
      while q != []
        invariant Search(edges, rel, start, order, depths, maxDepth, h)
        invariant seen <= all && Holds(seen, order)
        invariant Queued(q, order, depths, h)
        decreases all - seen, |q|
      {
        var (cur, depth) := q[0];
        QueueHead(q, order, depths, h);
        q := q[1..];
        if depth < maxDepth {
          var ns := Neighbors(cur, rel);
          DeparturesAre(edges, cur, rel, ns);
          order, q, seen, depths := Expand(ns, cur, depth, order, q, seen, edges, rel, start, maxDepth, depths, h);
        }
        SearchGoesOn(edges, rel, start, order, depths, maxDepth, h);
        h := h + 1;
      }
      SearchEnds(edges, rel, start, order, depths, maxDepth);
    }
  }

  ghost predicate Holds(seen: set<Id>, order: seq<Id>) {
    forall n :: n in seen <==> n in order
  }

  /** The inner loop: neighbors not seen before go to the end of the order and of the queue. */
  method Expand(ns: seq<Neighbor>, cur: Id, depth: nat, was: seq<Id>, wasQ: seq<(Id, nat)>, wasSeen: set<Id>,
                ghost es: Edges, ghost rel: bytes, ghost start: Id, ghost maxDepth: nat,
                ghost wasDepths: seq<nat>, ghost h: nat)
    returns (order: seq<Id>, q: seq<(Id, nat)>, seen: set<Id>, ghost depths: seq<nat>)
    requires forall n :: n in ns <==> Outgoing(es, cur, rel, n)
    requires Search(es, rel, start, was, wasDepths, maxDepth, h)
    requires h < |was| == |wasDepths| && was[h] == cur && wasDepths[h] == depth < maxDepth
    requires Holds(wasSeen, was) && wasSeen <= Everyone(es, start) && Queued(wasQ, was, wasDepths, h + 1)
    ensures Search(es, rel, start, order, depths, maxDepth, h)
    ensures h < |order| == |depths| && order[h] == cur && depths[h] == depth
    ensures Holds(seen, order) && seen <= Everyone(es, start) && Queued(q, order, depths, h + 1)
    ensures wasSeen < seen || (seen == wasSeen && |q| == |wasQ|)
    ensures forall n :: Outgoing(es, cur, rel, n) ==> n.id in order
  {
    hide Search, Outgoing, Everyone;
    order, q, seen, depths := was, wasQ, wasSeen, wasDepths;
    for i := 0 to |ns|
      invariant Search(es, rel, start, order, depths, maxDepth, h)
      invariant h < |order| == |depths| && order[h] == cur && depths[h] == depth
      invariant Holds(seen, order) && seen <= Everyone(es, start) && Queued(q, order, depths, h + 1)
      invariant wasSeen < seen || (seen == wasSeen && |q| == |wasQ|)
      invariant forall j :: 0 <= j < i ==> ns[j].id in order
    {
      var n := ns[i];
      assert n in ns;
      NeighborKnown(es, cur, rel, n, start);
      if n.id !in seen {
        SearchFinds(es, rel, start, order, depths, maxDepth, h, n);
        QueueGrows(q, order, depths, h + 1, n.id, depth + 1);
        order := order + [n.id];
        depths := depths + [depth + 1];
        q := q + [(n.id, depth + 1)];
        seen := seen + {n.id};
      }
    }
    forall n | Outgoing(es, cur, rel, n) ensures n.id in order {
      assert n in ns;
    }
  }

  // ------------------------------------------------------------ breadth-first search

  ghost predicate Hop(es: Edges, rel: bytes, u: Id, v: Id) {
    exists n :: Outgoing(es, u, rel, n) && n.id == v
  }

  /** Reachable over at most `d` edges. */
  ghost predicate Within(es: Edges, rel: bytes, start: Id, v: Id, d: nat)
    decreases d
  {
    if d == 0 then v == start
    else Within(es, rel, start, v, d - 1) || exists u :: Within(es, rel, start, u, d - 1) && Hop(es, rel, u, v)
  }

  /** Exactly the nodes within `maxDepth` edges, each once, and no node before a nearer one. */
  ghost predicate Traversed(es: Edges, rel: bytes, start: Id, maxDepth: nat, order: seq<Id>) {
    && (forall i, k :: 0 <= i < k < |order| ==> order[i] != order[k])
    && (forall v: Id :: v in order <==> Within(es, rel, start, v, maxDepth))
    && (forall i, k, d: nat :: 0 <= i < k < |order| && Within(es, rel, start, order[k], d) ==>
          Within(es, rel, start, order[i], d))
  }

  /** The nodes found so far with their depths; the first `h` have been expanded. */
  ghost predicate Search(es: Edges, rel: bytes, start: Id, order: seq<Id>, depths: seq<nat>, maxDepth: nat, h: nat) {
    && |depths| == |order| && h <= |order| && |order| > 0 && order[0] == start && depths[0] == 0
    && (forall i, k :: 0 <= i < k < |order| ==> order[i] != order[k])
    && (forall i :: 0 <= i < |order| ==> depths[i] <= maxDepth && Within(es, rel, start, order[i], depths[i]))
    && (forall i, k :: 0 <= i < k < |order| ==> depths[i] <= depths[k])
    && (h < |order| ==> forall i :: 0 <= i < |order| ==> depths[i] <= depths[h] + 1)
    && (forall i, v :: 0 <= i < h && depths[i] < maxDepth && Hop(es, rel, order[i], v) ==>
          FoundBy(order, depths, v, depths[i] + 1))
  }

  ghost predicate FoundBy(order: seq<Id>, depths: seq<nat>, v: Id, d: nat) {
    exists k :: 0 <= k < |order| && k < |depths| && order[k] == v && depths[k] <= d
  }

  /** The queue is what has been found and not expanded, with depths. */
  ghost predicate Queued(q: seq<(Id, nat)>, order: seq<Id>, depths: seq<nat>, h: nat) {
    && h + |q| == |order| == |depths|
    && forall i :: 0 <= i < |q| ==> q[i] == (order[h + i], depths[h + i])
  }

  lemma QueueHead(q: seq<(Id, nat)>, order: seq<Id>, depths: seq<nat>, h: nat)
    requires Queued(q, order, depths, h) && q != []
    ensures h < |order| && q[0] == (order[h], depths[h]) && Queued(q[1..], order, depths, h + 1)
  {
  }

  lemma QueueGrows(q: seq<(Id, nat)>, order: seq<Id>, depths: seq<nat>, h: nat, v: Id, d: nat)
    requires Queued(q, order, depths, h)
    ensures Queued(q + [(v, d)], order + [v], depths + [d], h)
  {
  }

  ghost function Everyone(es: Edges, start: Id): set<Id> {
    (set e | e in es :: e.to) + {start}
  }

  lemma NeighborKnown(es: Edges, u: Id, rel: bytes, n: Neighbor, start: Id)
    requires Outgoing(es, u, rel, n)
    ensures n.id < TWO_64 && n.id in Everyone(es, start)
  {
    assert Edge(u, n.rel, n.id) in es;
  }

  lemma SearchStarts(es: Edges, rel: bytes, start: Id, maxDepth: nat)
    ensures Search(es, rel, start, [start], [0], maxDepth, 0)
  {
  }

  lemma SearchFinds(es: Edges, rel: bytes, start: Id, order: seq<Id>, depths: seq<nat>, maxDepth: nat, h: nat,
                    n: Neighbor)
    requires Search(es, rel, start, order, depths, maxDepth, h) && h < |order| && depths[h] < maxDepth
    requires Outgoing(es, order[h], rel, n) && n.id !in order
    ensures n.id < TWO_64 && Search(es, rel, start, order + [n.id], depths + [depths[h] + 1], maxDepth, h)
  {
    hide Outgoing;
    assert n.id < TWO_64 by {
      NeighborKnown(es, order[h], rel, n, start);
    }
    var d := depths[h] + 1;
    var o', d' := order + [n.id], depths + [d];
    assert Hop(es, rel, order[h], n.id);
    assert Within(es, rel, start, n.id, d);
    hide Within, Hop;
    forall i, v | 0 <= i < h && d'[i] < maxDepth && Hop(es, rel, o'[i], v) ensures FoundBy(o', d', v, d'[i] + 1) {
      assert FoundBy(order, depths, v, depths[i] + 1);
      var k :| 0 <= k < |order| && order[k] == v && depths[k] <= depths[i] + 1;
      assert o'[k] == v && d'[k] == depths[k];
    }
  }

  lemma SearchGoesOn(es: Edges, rel: bytes, start: Id, order: seq<Id>, depths: seq<nat>, maxDepth: nat, h: nat)
    requires Search(es, rel, start, order, depths, maxDepth, h) && h < |order|
    requires depths[h] >= maxDepth || forall n :: Outgoing(es, order[h], rel, n) ==> n.id in order
    ensures Search(es, rel, start, order, depths, maxDepth, h + 1)
  {
    hide Outgoing, Within;
    forall v | depths[h] < maxDepth && Hop(es, rel, order[h], v) ensures FoundBy(order, depths, v, depths[h] + 1) {
      var n :| Outgoing(es, order[h], rel, n) && n.id == v;
      var k :| 0 <= k < |order| && order[k] == v;
    }
    hide Hop;
  }

  /** Everything within `d` edges was found at depth `d` or less. */
  lemma {:induction false} SearchComplete(es: Edges, rel: bytes, start: Id, order: seq<Id>, depths: seq<nat>,
                                          maxDepth: nat, v: Id, d: nat)
    requires Search(es, rel, start, order, depths, maxDepth, |order|) && d <= maxDepth
    requires Within(es, rel, start, v, d)
    ensures FoundBy(order, depths, v, d)
    decreases d
  {
    hide Hop;
    if d == 0 {
      assert order[0] == v;
    } else if Within(es, rel, start, v, d - 1) {
      SearchComplete(es, rel, start, order, depths, maxDepth, v, d - 1);
    } else {
      var u :| Within(es, rel, start, u, d - 1) && Hop(es, rel, u, v);
      SearchComplete(es, rel, start, order, depths, maxDepth, u, d - 1);
      var k :| 0 <= k < |order| && order[k] == u && depths[k] <= d - 1;
      assert FoundBy(order, depths, v, depths[k] + 1);
    }
  }

  lemma {:induction false} WithinGrows(es: Edges, rel: bytes, start: Id, v: Id, d: nat, more: nat)
    requires Within(es, rel, start, v, d) && d <= more
    ensures Within(es, rel, start, v, more)
    decreases more
  {
    hide Hop;
    if d < more {
      WithinGrows(es, rel, start, v, d, more - 1);
    }
  }

  lemma SearchEnds(es: Edges, rel: bytes, start: Id, order: seq<Id>, depths: seq<nat>, maxDepth: nat)
    requires Search(es, rel, start, order, depths, maxDepth, |order|)
    ensures Traversed(es, rel, start, maxDepth, order)
  {
    hide Hop, Within;
    forall v: Id ensures v in order <==> Within(es, rel, start, v, maxDepth) {
      if v in order {
        var k :| 0 <= k < |order| && order[k] == v;
        WithinGrows(es, rel, start, v, depths[k], maxDepth);
      }
      if Within(es, rel, start, v, maxDepth) {
        SearchComplete(es, rel, start, order, depths, maxDepth, v, maxDepth);
      }
    }
    forall i, k, d: nat | 0 <= i < k < |order| && Within(es, rel, start, order[k], d)
      ensures Within(es, rel, start, order[i], d)
    {
      if d <= maxDepth {
        SearchComplete(es, rel, start, order, depths, maxDepth, order[k], d);
        var j :| 0 <= j < |order| && order[j] == order[k] && depths[j] <= d;
        assert j == k;
        WithinGrows(es, rel, start, order[i], depths[i], d);
      } else {
        WithinGrows(es, rel, start, order[i], depths[i], d);
      }
    }
  }

  /** An edge of the graph a query selects, seen from its source. */
  ghost predicate Outgoing(es: Edges, from: Id, rel: bytes, n: Neighbor) {
    && n.id < TWO_64 && n.rel != [] && Selects(rel, n.rel, n.id)
    && Edge(from, n.rel, n.id) in es && es[Edge(from, n.rel, n.id)] == n.weight
  }

  ghost predicate Arriving(es: Edges, to: Id, rel: bytes, n: Neighbor) {
    && n.id < TWO_64 && n.rel != [] && Selects(rel, n.rel, n.id)
    && Edge(n.id, n.rel, to) in es && es[Edge(n.id, n.rel, to)] == n.weight
  }

  // ------------------------------------------------------------ each edge once, in key order

  ghost predicate Ascending(ks: seq<bytes>) { forall i, k :: 0 <= i < k < |ks| ==> Less(ks[i], ks[k]) }

  ghost predicate ForwardKey(from: Id, n: Neighbor, k: bytes) {
    n.id < TWO_64 && k == EdgeKey(FORWARD, from, n.rel, n.id)
  }

  ghost predicate BackwardKey(to: Id, n: Neighbor, k: bytes) {
    n.id < TWO_64 && k == EdgeKey(BACKWARD, to, n.rel, n.id)
  }

  /** Its key comes first. */
  ghost predicate Before(family: bytes, near: Id, m: Neighbor, n: Neighbor) {
    && m.id < TWO_64 && n.id < TWO_64
    && Less(EdgeKey(family, near, m.rel, m.id), EdgeKey(family, near, n.rel, n.id))
  }

  ghost predicate Rising(family: bytes, near: Id, r: seq<Neighbor>) {
    forall i, k :: 0 <= i < k < |r| ==> Before(family, near, r[i], r[k])
  }

  /** The selected outgoing edges, each once, in the order of their keys. */
  ghost predicate Departures(es: Edges, from: Id, rel: bytes, r: seq<Neighbor>) {
    && (forall n :: n in r <==> Outgoing(es, from, rel, n))
    && Rising(FORWARD, from, r)
  }

  ghost predicate Arrivals(es: Edges, to: Id, rel: bytes, r: seq<Neighbor>) {
    && (forall n :: n in r <==> Arriving(es, to, rel, n))
    && Rising(BACKWARD, to, r)
  }

  lemma DeparturesAre(es: Edges, from: Id, rel: bytes, r: seq<Neighbor>)
    requires Departures(es, from, rel, r)
    ensures forall n :: n in r <==> Outgoing(es, from, rel, n)
  {
    hide Outgoing, EdgeKey, Less;
  }

  lemma ForwardOrder(from: Id, r: seq<Neighbor>, ks: seq<bytes>)
    requires |ks| == |r| && Ascending(ks) && forall i :: 0 <= i < |r| ==> ForwardKey(from, r[i], ks[i])
    ensures Rising(FORWARD, from, r)
  {
    hide EdgeKey, Less;
    forall i, k | 0 <= i < k < |r| ensures ForwardKey(from, r[i], ks[i]) && ForwardKey(from, r[k], ks[k]) {
    }
  }

  lemma BackwardOrder(to: Id, r: seq<Neighbor>, ks: seq<bytes>)
    requires |ks| == |r| && Ascending(ks) && forall i :: 0 <= i < |r| ==> BackwardKey(to, r[i], ks[i])
    ensures Rising(BACKWARD, to, r)
  {
    hide EdgeKey, Less;
    forall i, k | 0 <= i < k < |r| ensures BackwardKey(to, r[i], ks[i]) && BackwardKey(to, r[k], ks[k]) {
    }
  }

  /** After `i` keys: `r` is what they say, from the keys `ks`. */
  ghost predicate Listing(store: Store, family: bytes, near: Id, rel: bytes, keys: seq<bytes>, i: nat,
                          r: seq<Neighbor>, ks: seq<bytes>) {
    && i <= |keys| && |ks| == |r|
    && (forall j :: 0 <= j < |r| ==> Entry(store, family, near, rel, ks[j], r[j]))
    && Ascending(ks) && (forall j :: 0 <= j < |ks| ==> ks[j] in keys[..i])
    && forall k, n :: k in keys[..i] && Entry(store, family, near, rel, k, n) ==> n in r
  }

  lemma ListingStarts(store: Store, family: bytes, near: Id, rel: bytes, keys: seq<bytes>)
    ensures Listing(store, family, near, rel, keys, 0, [], [])
  {
    hide Entry, Less;
  }

  lemma ListingGoes(store: Store, family: bytes, near: Id, rel: bytes, under: set<bytes>, keys: seq<bytes>, i: nat,
                    r: seq<Neighbor>, ks: seq<bytes>)
    requires Ordering(keys, under)
    requires forall k :: k in under <==> k in store && StartsWith(k, ScanPrefix(family, near, rel))
    requires i < |keys| && Listing(store, family, near, rel, keys, i, r, ks)
    ensures keys[i] in store
    ensures match Decoded(family, keys[i], store[keys[i]])
      case Some(n) => Listing(store, family, near, rel, keys, i + 1, r + [n], ks + [keys[i]])
      case None => Listing(store, family, near, rel, keys, i + 1, r, ks)
  {
    hide Less, Ascending, Decoded, ScanPrefix, StartsWith;
    OrderedAfter(keys, under, ks, i);
    hide Ordering;
    assert keys[i] in keys && keys[i] in under by {
      InOrdering(keys, under, i);
    }
    assert keys[..i + 1] == keys[..i] + [keys[i]];
  }

  lemma InOrdering(keys: seq<bytes>, under: set<bytes>, i: nat)
    requires Ordering(keys, under) && i < |keys|
    ensures keys[i] in under
  {
    hide Less;
    assert keys[i] in keys;
  }

  lemma ListingEnds(store: Store, family: bytes, near: Id, rel: bytes, under: set<bytes>, keys: seq<bytes>,
                    r: seq<Neighbor>, ks: seq<bytes>)
    requires Ordering(keys, under)
    requires forall k :: k in under <==> k in store && StartsWith(k, ScanPrefix(family, near, rel))
    requires Listing(store, family, near, rel, keys, |keys|, r, ks)
    ensures |ks| == |r| && forall i :: 0 <= i < |r| ==> Entry(store, family, near, rel, ks[i], r[i])
    ensures Ascending(ks)
    ensures forall n :: n in r <==> Scanned(store, family, near, rel, n)
  {
    hide Less, Ascending, Decoded, ScanPrefix, StartsWith;
    assert keys[..|keys|] == keys;
    forall n ensures n in r <==> Scanned(store, family, near, rel, n) {
      if n in r {
        var j :| 0 <= j < |r| && r[j] == n;
        assert Entry(store, family, near, rel, ks[j], n);
      }
      if Scanned(store, family, near, rel, n) {
        var k :| Entry(store, family, near, rel, k, n);
        assert k in under && k in keys;
      }
    }
  }

  lemma OrderedAfter(keys: seq<bytes>, under: set<bytes>, ks: seq<bytes>, i: nat)
    requires Ordering(keys, under) && i < |keys|
    requires Ascending(ks) && forall j :: 0 <= j < |ks| ==> ks[j] in keys[..i]
    ensures Ascending(ks + [keys[i]])
  {
    hide Less;
    forall j | 0 <= j < |ks| ensures Less(ks[j], keys[i]) {
      var p :| 0 <= p < |keys[..i]| && keys[..i][p] == ks[j];
      assert keys[p] == ks[j];
    }
  }

  /** A list in strict key order names nothing twice. */
  lemma ListedOnce(family: bytes, near: Id, r: seq<Neighbor>, n: Neighbor)
    requires Rising(family, near, r)
    ensures multiset(r)[n] == if n in r then 1 else 0
  {
    hide EdgeKey, Less;
    forall i, k | 0 <= i < k < |r| ensures r[i] != r[k] {
      assert Before(family, near, r[i], r[k]);
      LessTotal(EdgeKey(family, near, r[i].rel, r[i].id), EdgeKey(family, near, r[i].rel, r[i].id));
    }
    CountsOnce(r, n);
  }

  lemma {:induction false} CountsOnce(r: seq<Neighbor>, n: Neighbor)
    requires forall i, k :: 0 <= i < k < |r| ==> r[i] != r[k]
    ensures multiset(r)[n] == if n in r then 1 else 0
    decreases |r|
  {
    if r != [] {
      var m := |r| - 1;
      CountsOnce(r[..m], n);
      assert r == r[..m] + [r[m]];
      assert n in r <==> n in r[..m] || n == r[m];
      if n in r[..m] {
        var i :| 0 <= i < m && r[i] == n;
      }
    }
  }

  /**
   * The two lists show an edge from its two ends: as often in one as in the other,
   * exactly unless the query runs on into the bytes of one end and not of the other;
   * a query without a colon never does.
   */
  lemma MirrorImages(es: Edges, e: Edge, query: bytes, r: seq<Neighbor>, s: seq<Neighbor>)
    requires e in es && e.rel != []
    requires Departures(es, e.from, query, r) && Arrivals(es, e.to, query, s)
    ensures multiset(r)[Neighbor(e.to, e.rel, es[e])] == multiset(s)[Neighbor(e.from, e.rel, es[e])] <==>
      (query == [] || e.rel == query || Continues(query, e.rel) ||
       Spills(query, e.rel, e.to) == Spills(query, e.rel, e.from))
    ensures COLON !in query ==>
      multiset(r)[Neighbor(e.to, e.rel, es[e])] == multiset(s)[Neighbor(e.from, e.rel, es[e])]
  {
    var n, m := Neighbor(e.to, e.rel, es[e]), Neighbor(e.from, e.rel, es[e]);
    ListedOnce(FORWARD, e.from, r, n);
    ListedOnce(BACKWARD, e.to, s, m);
    assert n in r <==> Outgoing(es, e.from, query, n);
    assert m in s <==> Arriving(es, e.to, query, m);
    if COLON !in query {
      NoColonNoSpill(query, e.rel, e.to);
      NoColonNoSpill(query, e.rel, e.from);
    }
    hide Departures, Arrivals, Continues, Spills;
  }

  /**
   * A query for one relation lists edges of that relation only, exactly as long as no edge
   * of the node has a relation that continues the query's with a colon, or that the query
   * runs over; without a colon in it, it runs over none.
   */
  lemma QueryIsExact(es: Edges, from: Id, query: bytes, r: seq<Neighbor>)
    requires query != [] && Departures(es, from, query, r)
    ensures (forall n :: n in r ==> n.rel == query) <==>
      forall e :: e in es && e.from == from && e.rel != [] ==> !Continues(query, e.rel) && !Spills(query, e.rel, e.to)
    ensures COLON !in query ==> forall e: Edge :: e in es ==> !Spills(query, e.rel, e.to)
  {
    hide Spills;
    if forall n :: n in r ==> n.rel == query {
      forall e | e in es && e.from == from && e.rel != []
        ensures !Continues(query, e.rel) && !Spills(query, e.rel, e.to)
      {
        if Continues(query, e.rel) || Spills(query, e.rel, e.to) {
          assert Outgoing(es, from, query, Neighbor(e.to, e.rel, es[e]));
          SpilledIsShorter(query, e.rel, e.to);
        }
      }
    } else {
      var n :| n in r && n.rel != query;
      assert Outgoing(es, from, query, n);
      assert Edge(from, n.rel, n.id) in es;
    }
    if COLON !in query {
      forall e: Edge | e in es ensures !Spills(query, e.rel, e.to) {
        NoColonNoSpill(query, e.rel, e.to);
      }
    }
  }

  /** Relation `a:b` and query `a`: the edge is listed, though its relation is another. */
  lemma ColonIsListed(weight: bytes, r: seq<Neighbor>)
    requires Departures(map[Edge(1, [97, COLON, 98], 2) := weight], 1, [97], r)
    ensures Neighbor(2, [97, COLON, 98], weight) in r
  {
    hide Be, Rising;
    assert [97, COLON, 98][..2] == [97] + [COLON];
    assert Continues([97], [97, COLON, 98]);
    assert Outgoing(map[Edge(1, [97, COLON, 98], 2) := weight], 1, [97], Neighbor(2, [97, COLON, 98], weight));
  }

  /** A node whose number begins with the byte of a colon. */
  const FAR: Id := 0x3A00_0000_0000_0000

  /** Relation `a` and query `a:`: the query runs on into the number of the far end. */
  lemma SpillIsListed(weight: bytes, r: seq<Neighbor>)
    requires Departures(map[Edge(1, [97], FAR) := weight], 1, [97, COLON], r)
    ensures Neighbor(FAR, [97], weight) in r
  {
    hide Rising;
    FarBytes();
    hide Be;
    var t := [97] + [COLON] + Be(FAR, 8);
    assert t[..3] == [97, COLON] + [COLON];
    assert Spills([97, COLON], [97], FAR);
    assert Outgoing(map[Edge(1, [97], FAR) := weight], 1, [97, COLON], Neighbor(FAR, [97], weight));
  }

  lemma FarBytes()
    ensures Be(FAR, 8)[0] == COLON
  {
    assert Be(58, 1) == [58];
    assert Be(0x3A00, 2)[0] == 58;
    assert Be(0x3A_0000, 3)[0] == 58;
    assert Be(0x3A00_0000, 4)[0] == 58;
    assert Be(0x3A_0000_0000, 5)[0] == 58;
    assert Be(0x3A00_0000_0000, 6)[0] == 58;
    assert Be(0x3A_0000_0000_0000, 7)[0] == 58;
  }

  lemma SpilledIsShorter(query: bytes, rel: bytes, far: Id)
    ensures Spills(query, rel, far) ==> |rel| < |query|
    ensures Continues(query, rel) ==> |rel| > |query|
  {
    hide Be;
  }

  /** One entry of the store under the prefix, and what it says. */
  ghost predicate Entry(store: Store, family: bytes, near: Id, rel: bytes, k: bytes, n: Neighbor) {
    k in store && StartsWith(k, ScanPrefix(family, near, rel)) && Decoded(family, k, store[k]) == Some(n)
  }

  ghost predicate Scanned(store: Store, family: bytes, near: Id, rel: bytes, n: Neighbor) {
    exists k :: Entry(store, family, near, rel, k, n)
  }

  lemma PrefixHasFamily(family: bytes, near: Id, rel: bytes, k: bytes)
    requires StartsWith(k, ScanPrefix(family, near, rel))
    ensures StartsWith(k, family)
  {
    hide Be;
    var p := ScanPrefix(family, near, rel);
    assert p[..|family|] == family;
    assert k[..|p|][..|family|] == k[..|family|];
  }

  /** An entry under a forward prefix is the key of an edge the query selects. */
  lemma ForwardEntry(store: Store, es: Edges, from: Id, rel: bytes, k: bytes, n: Neighbor)
    requires Stores(store, es) && Entry(store, FORWARD, from, rel, k, n)
    ensures Outgoing(es, from, rel, n) && ForwardKey(from, n, k)
  {
    hide EdgeKey, Decoded, ScanPrefix, Selects;
    PrefixHasFamily(FORWARD, from, rel, k);
    var e :| e in es && k == EdgeKey(FORWARD, e.from, e.rel, e.to);
    ScanFinds(FORWARD, from, rel, e.from, e.rel, e.to);
    KeyDecodes(FORWARD, e.from, e.rel, e.to, store[k]);
  }

  lemma BackwardEntry(store: Store, es: Edges, to: Id, rel: bytes, k: bytes, n: Neighbor)
    requires Stores(store, es) && Entry(store, BACKWARD, to, rel, k, n)
    ensures Arriving(es, to, rel, n) && BackwardKey(to, n, k)
  {
    hide EdgeKey, Decoded, ScanPrefix, Selects;
    PrefixHasFamily(BACKWARD, to, rel, k);
    var e :| e in es && k == EdgeKey(BACKWARD, e.to, e.rel, e.from);
    ScanFinds(BACKWARD, to, rel, e.to, e.rel, e.from);
    KeyDecodes(BACKWARD, e.to, e.rel, e.from, store[k]);
  }

  lemma ForwardScan(store: Store, es: Edges, from: Id, rel: bytes, n: Neighbor)
    requires Stores(store, es)
    ensures Scanned(store, FORWARD, from, rel, n) <==> Outgoing(es, from, rel, n)
  {
    hide EdgeKey, Decoded, ScanPrefix, Selects;
    if Scanned(store, FORWARD, from, rel, n) {
      var k :| Entry(store, FORWARD, from, rel, k, n);
      ForwardEntry(store, es, from, rel, k, n);
    }
    if Outgoing(es, from, rel, n) {
      var e := Edge(from, n.rel, n.id);
      var k := EdgeKey(FORWARD, e.from, e.rel, e.to);
      ScanFinds(FORWARD, from, rel, e.from, e.rel, e.to);
      KeyDecodes(FORWARD, e.from, e.rel, e.to, store[k]);
      assert Entry(store, FORWARD, from, rel, k, n);
    }
  }

  lemma BackwardScan(store: Store, es: Edges, to: Id, rel: bytes, n: Neighbor)
    requires Stores(store, es)
    ensures Scanned(store, BACKWARD, to, rel, n) <==> Arriving(es, to, rel, n)
  {
    hide EdgeKey, Decoded, ScanPrefix, Selects;
    if Scanned(store, BACKWARD, to, rel, n) {
      var k :| Entry(store, BACKWARD, to, rel, k, n);
      BackwardEntry(store, es, to, rel, k, n);
    }
    if Arriving(es, to, rel, n) {
      var e := Edge(n.id, n.rel, to);
      var k := EdgeKey(BACKWARD, e.to, e.rel, e.from);
      ScanFinds(BACKWARD, to, rel, e.to, e.rel, e.from);
      KeyDecodes(BACKWARD, e.to, e.rel, e.from, store[k]);
      assert Entry(store, BACKWARD, to, rel, k, n);
    }
  }

  /** No key is in both families. */
  lemma FamiliesApart(a: Id, r: bytes, b: Id, c: Id, s: bytes, d: Id)
    ensures EdgeKey(FORWARD, a, r, b) != EdgeKey(BACKWARD, c, s, d)
    ensures StartsWith(EdgeKey(FORWARD, a, r, b), FORWARD) && !StartsWith(EdgeKey(FORWARD, a, r, b), BACKWARD)
    ensures StartsWith(EdgeKey(BACKWARD, c, s, d), BACKWARD) && !StartsWith(EdgeKey(BACKWARD, c, s, d), FORWARD)
  {
    hide Be;
    KeyParts(FORWARD, a, r, b);
    KeyParts(BACKWARD, c, s, d);
    var f, g := EdgeKey(FORWARD, a, r, b), EdgeKey(BACKWARD, c, s, d);
    hide EdgeKey;
    assert f[4] == FORWARD[4] by { assert f[..9][4] == FORWARD[4]; }
    assert g[4] == BACKWARD[4] by { assert g[..10][4] == BACKWARD[4]; }
    assert f[..10][4] == f[4] && g[..9][4] == g[4];
  }

  /** Whatever else is kept in the store is left alone. */
  ghost predicate SameElsewhere(store: Store, store': Store) {
    forall k :: !StartsWith(k, FORWARD) && !StartsWith(k, BACKWARD) ==>
      (k in store' <==> k in store) && (k in store ==> store'[k] == store[k])
  }

  lemma OnlyEdgeKeys(store: Store, e: Edge, w: bytes)
    ensures var f, b := EdgeKey(FORWARD, e.from, e.rel, e.to), EdgeKey(BACKWARD, e.to, e.rel, e.from);
      SameElsewhere(store, store[f := w][b := w]) && SameElsewhere(store, store - {f} - {b})
  {
    hide EdgeKey, StartsWith;
    FamiliesApart(e.from, e.rel, e.to, e.to, e.rel, e.from);
  }

  lemma LinkStores(store: Store, es: Edges, e: Edge, w: bytes)
    requires Stores(store, es)
    ensures
      Stores(store[EdgeKey(FORWARD, e.from, e.rel, e.to) := w][EdgeKey(BACKWARD, e.to, e.rel, e.from) := w], es[e := w])
  {
    hide EdgeKey, StartsWith;
    var s' := store[EdgeKey(FORWARD, e.from, e.rel, e.to) := w][EdgeKey(BACKWARD, e.to, e.rel, e.from) := w];
    var es' := es[e := w];
    FamiliesApart(e.from, e.rel, e.to, e.to, e.rel, e.from);
    forall d | d in es'
      ensures EdgeKey(FORWARD, d.from, d.rel, d.to) in s' && s'[EdgeKey(FORWARD, d.from, d.rel, d.to)] == es'[d]
      ensures EdgeKey(BACKWARD, d.to, d.rel, d.from) in s' && s'[EdgeKey(BACKWARD, d.to, d.rel, d.from)] == es'[d]
    {
      FamiliesApart(d.from, d.rel, d.to, e.to, e.rel, e.from);
      FamiliesApart(e.from, e.rel, e.to, d.to, d.rel, d.from);
      if EdgeKey(FORWARD, d.from, d.rel, d.to) == EdgeKey(FORWARD, e.from, e.rel, e.to) {
        KeyInjective(FORWARD, d.from, d.rel, d.to, e.from, e.rel, e.to);
      }
      if EdgeKey(BACKWARD, d.to, d.rel, d.from) == EdgeKey(BACKWARD, e.to, e.rel, e.from) {
        KeyInjective(BACKWARD, d.to, d.rel, d.from, e.to, e.rel, e.from);
      }
    }
    forall k | k in s' && StartsWith(k, FORWARD)
      ensures exists d :: d in es' && k == EdgeKey(FORWARD, d.from, d.rel, d.to)
    {
      if k == EdgeKey(FORWARD, e.from, e.rel, e.to) {
        assert e in es';
      } else {
        var d :| d in es && k == EdgeKey(FORWARD, d.from, d.rel, d.to);
        assert d in es';
      }
    }
    forall k | k in s' && StartsWith(k, BACKWARD)
      ensures exists d :: d in es' && k == EdgeKey(BACKWARD, d.to, d.rel, d.from)
    {
      if k == EdgeKey(BACKWARD, e.to, e.rel, e.from) {
        assert e in es';
      } else {
        var d :| d in es && k == EdgeKey(BACKWARD, d.to, d.rel, d.from);
        assert d in es';
      }
    }
  }

  lemma UnlinkStores(store: Store, es: Edges, e: Edge)
    requires Stores(store, es)
    ensures Stores(store - {EdgeKey(FORWARD, e.from, e.rel, e.to)} - {EdgeKey(BACKWARD, e.to, e.rel, e.from)}, es - {e})
  {
    hide EdgeKey, StartsWith;
    var s' := store - {EdgeKey(FORWARD, e.from, e.rel, e.to)} - {EdgeKey(BACKWARD, e.to, e.rel, e.from)};
    var es' := es - {e};
    forall d | d in es'
      ensures EdgeKey(FORWARD, d.from, d.rel, d.to) in s' && EdgeKey(BACKWARD, d.to, d.rel, d.from) in s'
    {
      FamiliesApart(d.from, d.rel, d.to, e.to, e.rel, e.from);
      FamiliesApart(e.from, e.rel, e.to, d.to, d.rel, d.from);
      if EdgeKey(FORWARD, d.from, d.rel, d.to) == EdgeKey(FORWARD, e.from, e.rel, e.to) {
        KeyInjective(FORWARD, d.from, d.rel, d.to, e.from, e.rel, e.to);
      }
      if EdgeKey(BACKWARD, d.to, d.rel, d.from) == EdgeKey(BACKWARD, e.to, e.rel, e.from) {
        KeyInjective(BACKWARD, d.to, d.rel, d.from, e.to, e.rel, e.from);
      }
    }
    forall k | k in s' && StartsWith(k, FORWARD)
      ensures exists d :: d in es' && k == EdgeKey(FORWARD, d.from, d.rel, d.to)
    {
      var d :| d in es && k == EdgeKey(FORWARD, d.from, d.rel, d.to);
      assert d in es';
    }
    forall k | k in s' && StartsWith(k, BACKWARD)
      ensures exists d :: d in es' && k == EdgeKey(BACKWARD, d.to, d.rel, d.from)
    {
      var d :| d in es && k == EdgeKey(BACKWARD, d.to, d.rel, d.from);
      assert d in es';
    }
  }
}
