/**
 * Graph memory in its own terms: edges of a relation, and paths along them. Relations are
 * plain names here, without a colon; what a colon does is told beside the queries.
 */
module GraphPaths {
  import opened Base
  import opened Codec
  import opened Graph

  ghost predicate PlainNames(es: Edges, query: bytes) {
    COLON !in query && forall e: Edge :: e in es ==> COLON !in e.rel
  }

  /** An edge that the query is about; edges with an empty relation are never shown. */
  predicate Wanted(query: bytes, e: Edge) {
    e.rel != [] && (query == [] || e.rel == query)
  }

  lemma PlainSelects(query: bytes, rel: bytes, far: Id)
    requires COLON !in query && COLON !in rel
    ensures Selects(query, rel, far) <==> query == [] || rel == query
  {
    NoColonNoSpill(query, rel, far);
    hide Spills;
    if |query| < |rel| {
      assert rel[|query|] in rel;
      assert rel[..|query| + 1][|query|] == rel[|query|] && (query + [COLON])[|query|] == COLON;
    }
  }

  /** A node's list is exactly its wanted edges with their weights. */
  lemma DeparturesAreWanted(es: Edges, from: Id, query: bytes, r: seq<Neighbor>, e: Edge)
    requires PlainNames(es, query) && Departures(es, from, query, r)
    ensures e in es && e.from == from && Wanted(query, e) ==> Neighbor(e.to, e.rel, es[e]) in r
    ensures forall n :: n in r ==>
      n.id < TWO_64 && var d := Edge(from, n.rel, n.id); d in es && Wanted(query, d) && n.weight == es[d]
  {
    DeparturesAre(es, from, query, r);
    hide Departures, Selects;
    if e in es && e.from == from && Wanted(query, e) {
      PlainSelects(query, e.rel, e.to);
      assert Outgoing(es, from, query, Neighbor(e.to, e.rel, es[e]));
    }
    forall n | n in r
      ensures n.id < TWO_64 && var d := Edge(from, n.rel, n.id); d in es && Wanted(query, d) && n.weight == es[d]
    {
      assert Outgoing(es, from, query, n);
      PlainSelects(query, n.rel, n.id);
    }
  }

  lemma ArrivalsAreWanted(es: Edges, to: Id, query: bytes, r: seq<Neighbor>, e: Edge)
    requires PlainNames(es, query) && Arrivals(es, to, query, r)
    ensures e in es && e.to == to && Wanted(query, e) ==> Neighbor(e.from, e.rel, es[e]) in r
    ensures forall n :: n in r ==>
      n.id < TWO_64 && var d := Edge(n.id, n.rel, to); d in es && Wanted(query, d) && n.weight == es[d]
  {
    assert forall n :: n in r <==> Arriving(es, to, query, n) by {
      hide Arriving, Rising;
    }
    hide Arrivals, Selects;
    if e in es && e.to == to && Wanted(query, e) {
      PlainSelects(query, e.rel, e.from);
      assert Arriving(es, to, query, Neighbor(e.from, e.rel, es[e]));
    }
    forall n | n in r
      ensures n.id < TWO_64 && var d := Edge(n.id, n.rel, to); d in es && Wanted(query, d) && n.weight == es[d]
    {
      assert Arriving(es, to, query, n);
      PlainSelects(query, n.rel, n.id);
    }
  }

  // ------------------------------------------------------------ paths

  ghost predicate Joined(es: Edges, query: bytes, u: Id, v: Id) {
    exists e: Edge :: e in es && e.from == u && e.to == v && Wanted(query, e)
  }

  /** From node to node along wanted edges. */
  ghost predicate Path(es: Edges, query: bytes, nodes: seq<Id>) {
    nodes != [] && forall i :: 0 < i < |nodes| ==> Joined(es, query, nodes[i - 1], nodes[i])
  }

  lemma JoinedIsHop(es: Edges, query: bytes, u: Id, v: Id)
    requires PlainNames(es, query)
    ensures Hop(es, query, u, v) <==> Joined(es, query, u, v)
  {
    hide Selects;
    if Hop(es, query, u, v) {
      var n :| Outgoing(es, u, query, n) && n.id == v;
      PlainSelects(query, n.rel, n.id);
      assert Edge(u, n.rel, n.id) in es;
    }
    if Joined(es, query, u, v) {
      var e: Edge :| e in es && e.from == u && e.to == v && Wanted(query, e);
      PlainSelects(query, e.rel, e.to);
      assert Outgoing(es, u, query, Neighbor(v, e.rel, es[e]));
    }
  }

  lemma {:induction false} WithinIsPath(es: Edges, query: bytes, start: Id, v: Id, d: nat) returns (nodes: seq<Id>)
    requires PlainNames(es, query) && Within(es, query, start, v, d)
    ensures Path(es, query, nodes) && nodes[0] == start && nodes[|nodes| - 1] == v && |nodes| <= d + 1
    decreases d
  {
    hide Hop, Joined, PlainNames;
    if d == 0 {
      nodes := [start];
    } else if Within(es, query, start, v, d - 1) {
      nodes := WithinIsPath(es, query, start, v, d - 1);
    } else {
      var u :| Within(es, query, start, u, d - 1) && Hop(es, query, u, v);
      nodes := WithinIsPath(es, query, start, u, d - 1);
      JoinedIsHop(es, query, u, v);
      nodes := nodes + [v];
    }
  }

  lemma {:induction false} PathIsWithin(es: Edges, query: bytes, nodes: seq<Id>, d: nat)
    requires PlainNames(es, query) && Path(es, query, nodes) && |nodes| <= d + 1
    ensures Within(es, query, nodes[0], nodes[|nodes| - 1], d)
    decreases d
  {
    hide Hop, Joined, PlainNames;
    if |nodes| <= d {
      PathIsWithin(es, query, nodes, d - 1);
    } else if d > 0 {
      var last := |nodes| - 1;
      PathIsWithin(es, query, nodes[..last], d - 1);
      JoinedIsHop(es, query, nodes[last - 1], nodes[last]);
    }
  }

  ghost predicate Reached(es: Edges, query: bytes, start: Id, v: Id, hops: nat) {
    exists nodes ::
      Path(es, query, nodes) && nodes[0] == start && nodes[|nodes| - 1] == v && |nodes| <= hops + 1
  }

  lemma ReachedIsWithin(es: Edges, query: bytes, start: Id, v: Id, d: nat)
    requires PlainNames(es, query)
    ensures Reached(es, query, start, v, d) <==> Within(es, query, start, v, d)
  {
    hide PlainNames, Joined, Within;
    if Within(es, query, start, v, d) {
      var nodes := WithinIsPath(es, query, start, v, d);
    }
    if Reached(es, query, start, v, d) {
      var nodes :|
        Path(es, query, nodes) && nodes[0] == start && nodes[|nodes| - 1] == v && |nodes| <= d + 1;
      PathIsWithin(es, query, nodes, d);
    }
  }

  /**
   * A traversal lists exactly the nodes that a path of at most `maxDepth` wanted edges leads to
   * from the start, each once, and whoever is listed earlier is no farther away.
   */
  lemma TraversalFollowsPaths(es: Edges, query: bytes, start: Id, maxDepth: nat, order: seq<Id>)
    requires PlainNames(es, query) && Traversed(es, query, start, maxDepth, order)
    ensures forall v: Id :: v in order <==> Reached(es, query, start, v, maxDepth)
    ensures forall i, k :: 0 <= i < k < |order| ==> order[i] != order[k]
    ensures forall i, k, d: nat :: 0 <= i < k < |order| && Reached(es, query, start, order[k], d) ==>
      Reached(es, query, start, order[i], d)
  {
    forall v: Id, d: nat ensures Reached(es, query, start, v, d) <==> Within(es, query, start, v, d) {
      ReachedIsWithin(es, query, start, v, d);
    }
    hide PlainNames, Reached, Within;
  }

  // ------------------------------------------------------------ keys

  lemma {:induction false} LessBehind(a: bytes, x: bytes, y: bytes)
    ensures Less(a + x, a + y) <==> Less(x, y)
    decreases |a|
  {
    if a == [] {
      assert a + x == x && a + y == y;
    } else {
      assert (a + x)[1..] == a[1..] + x && (a + y)[1..] == a[1..] + y;
      LessBehind(a[1..], x, y);
    }
  }

  lemma {:induction false} LessInFront(x: bytes, y: bytes, i: byte, j: byte)
    requires |x| == |y|
    ensures Less(x + [i], y + [j]) <==> Less(x, y) || (x == y && i < j)
    decreases |x|
  {
    if x != [] {
      assert (x + [i])[1..] == x[1..] + [i] && (y + [j])[1..] == y[1..] + [j];
      LessInFront(x[1..], y[1..], i, j);
      assert x == [x[0]] + x[1..] && y == [y[0]] + y[1..];
    }
  }

  /** The byte order of numbers is their numeric order. */
  lemma {:induction false} BeOrders(a: nat, b: nat, w: nat)
    requires a < Pow256(w) && b < Pow256(w)
    ensures Less(Be(a, w), Be(b, w)) <==> a < b
    decreases w
  {
    if w > 0 {
      BeOrders(a / 256, b / 256, w - 1);
      LessInFront(Be(a / 256, w - 1), Be(b / 256, w - 1), a % 256, b % 256);
      BeReadsBack(a / 256, w - 1);
      BeReadsBack(b / 256, w - 1);
      hide Less, Be;
      assert a == 256 * (a / 256) + a % 256 && b == 256 * (b / 256) + b % 256;
    }
  }

  /** Edges of one relation are listed by the number of their far end. */
  lemma ListedByNumber(es: Edges, from: Id, query: bytes, r: seq<Neighbor>, i: nat, k: nat)
    requires Departures(es, from, query, r) && i < k < |r| && r[i].rel == r[k].rel
    ensures r[i].id < r[k].id
  {
    assert Before(FORWARD, from, r[i], r[k]) by {
      hide Before, Outgoing;
    }
    var head := FORWARD + Be(from, 8) + [COLON] + r[i].rel + [COLON];
    assert EdgeKey(FORWARD, from, r[i].rel, r[i].id) == head + Be(r[i].id, 8);
    assert EdgeKey(FORWARD, from, r[k].rel, r[k].id) == head + Be(r[k].id, 8);
    hide Departures, Less, Be, EdgeKey;
    LessBehind(head, Be(r[i].id, 8), Be(r[k].id, 8));
    Widths();
    BeOrders(r[i].id, r[k].id, 8);
  }

  predicate Spells(t: bytes, word: string) {
    |t| == |word| && forall i :: 0 <= i < |t| ==> t[i] == word[i] as int
  }

  /** An edge from 1 to 258, byte by byte, in the two families. */
  lemma KnownKeys(rel: bytes)
    ensures Spells(FORWARD, "mem:edge:") && Spells(BACKWARD, "mem:redge:")
    ensures EdgeKey(FORWARD, 1, rel, 258) ==
      FORWARD + [0, 0, 0, 0, 0, 0, 0, 1] + [58] + rel + [58] + [0, 0, 0, 0, 0, 0, 1, 2]
    ensures EdgeKey(BACKWARD, 258, rel, 1) ==
      BACKWARD + [0, 0, 0, 0, 0, 0, 1, 2] + [58] + rel + [58] + [0, 0, 0, 0, 0, 0, 0, 1]
  {
    assert Be(0, 1) == [0];
    assert Be(0, 2) == [0, 0];
    assert Be(0, 3) == [0, 0, 0];
    assert Be(0, 4) == [0, 0, 0, 0];
    assert Be(0, 5) == [0, 0, 0, 0, 0];
    assert Be(0, 6) == [0, 0, 0, 0, 0, 0];
    assert Be(0, 7) == [0, 0, 0, 0, 0, 0, 0];
    assert Be(1, 7) == [0, 0, 0, 0, 0, 0, 1];
    assert Be(1, 8) == [0, 0, 0, 0, 0, 0, 0, 1];
    assert Be(258, 8) == [0, 0, 0, 0, 0, 0, 1, 2];
  }
}
