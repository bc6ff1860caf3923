/**
 * What the query coalescer guarantees in every interleaving: no query is lost
 * or served twice, launches stay within the leader limit, nobody sleeps
 * forever, and every answer belongs to the query it is returned for.
 */
module CoalescerSafety {
  import opened Base
  import opened Coalescer

  // ------------------------------------------------------------ the invariant

  type Book = map<Ticket, Request>

  /** Distinct requests, exactly as they were submitted. */
  ghost predicate AllKnown(book: Book, rs: seq<Request>) {
    Distinct(rs) && forall r :: r in rs ==> r.ticket in book && book[r.ticket] == r
  }

  ghost predicate GoodFlight(book: Book, f: Flight, dim: nat) {
    && f.batch != []
    && AllKnown(book, f.batch)
    && (forall r :: r in f.batch ==> r.geometry == f.geometry)
    && f == FlightOf(f.batch, f.geometry, dim)
  }

  ghost predicate GoodFlights(book: Book, leading: map<Ticket, Flight>, dim: nat) {
    forall t :: t in leading ==> GoodFlight(book, leading[t], dim)
  }

  ghost predicate GoodBook(book: Book, next: Ticket) {
    forall t :: t in book ==> t < next && book[t].ticket == t
  }

  ghost predicate GoodRequests(s: State, dim: nat) {
    AllKnown(s.requests, s.pending) && GoodFlights(s.requests, s.leading, dim) && GoodBook(s.requests, s.next)
  }

  lemma KnownDistinct(book: Book, rs: seq<Request>)
    requires AllKnown(book, rs)
    ensures Distinct(rs)
  {
  }

  lemma KnownAppended(book: Book, a: seq<Request>, b: seq<Request>)
    requires AllKnown(book, a) && AllKnown(book, b) && Tickets(a) !! Tickets(b)
    ensures AllKnown(book, a + b)
  {
    hide Distinct, Tickets;
    Appended(a, b);
  }

  lemma KnownGrows(book: Book, rs: seq<Request>, r: Request)
    requires AllKnown(book, rs) && r.ticket !in book
    ensures AllKnown(book[r.ticket := r], rs)
  {
  }

  /** `riding` is the passenger list of the launches in flight. */
  ghost predicate GoodRiding(riding: map<Ticket, Ticket>, leading: map<Ticket, Flight>) {
    && (forall t :: t in riding ==> riding[t] in leading && Carries(leading[riding[t]], t))
    && (forall l, t :: l in leading && Carries(leading[l], t) ==> t in riding && riding[t] == l)
  }

  ghost predicate Carries(f: Flight, t: Ticket) {
    t in Tickets(f.batch)
  }

  /** Every call is in one place. */
  ghost predicate Placed(s: State) {
    forall t ::
      && (t in s.awake ==> t !in s.asleep && t !in s.leading && t !in s.answers)
      && (t in s.asleep ==> t !in s.leading && t !in s.answers)
      && (t in s.leading ==> t !in s.answers)
      && (t in s.requests <==> s.Unanswered(t) || t in s.answers)
  }

  ghost predicate Queued(s: State, t: Ticket) {
    t in Tickets(s.pending)
  }

  /** Every unanswered query is queued, in flight, or ready, and in only one of these. */
  ghost predicate Conserved(s: State) {
    forall t ::
      && (Queued(s, t) ==> t !in s.riding && t !in s.ready)
      && (t in s.riding ==> t !in s.ready)
      && (s.Unanswered(t) <==> Queued(s, t) || t in s.riding || t in s.ready)
  }

  ghost predicate Led(s: State, c: Config) {
    && s.leaders == |s.leading| <= c.maxLeaders
    && (s.asleep != {} ==> s.leaders > 0)
  }

  /** `rows` is the row of a landed launch that carried this very query. */
  ghost predicate Served(log: seq<Landed>, r: Request, rows: Rows, dim: nat) {
    exists j, i :: 0 <= j < |log| && 0 <= i < |log[j].flight.batch| && RowFor(log[j], i, r, rows, dim)
  }

  ghost predicate RowFor(l: Landed, i: nat, r: Request, rows: Rows, dim: nat) {
    && i < |l.flight.batch| && l.flight.batch[i] == r
    && l.flight == FlightOf(l.flight.batch, r.geometry, dim)
    && l.result.Some? && l.result.value.Row(i, r.geometry.k) == Some(rows)
  }

  /** Results waiting to be picked up belong to the queries they are filed under. */
  ghost predicate RoutedReady(book: Book, ready: map<Ticket, Rows>, log: seq<Landed>, dim: nat) {
    forall t :: t in ready ==> t in book && Served(log, book[t], ready[t], dim)
  }

  /** So do the results that were returned. */
  ghost predicate RoutedAnswers(book: Book, answers: map<Ticket, Option<Rows>>, log: seq<Landed>, dim: nat) {
    forall t :: t in answers && answers[t].Some? ==> t in book && Served(log, book[t], answers[t].value, dim)
  }

  ghost predicate Routed(s: State, dim: nat) {
    RoutedReady(s.requests, s.ready, s.log, dim) && RoutedAnswers(s.requests, s.answers, s.log, dim)
  }

  ghost predicate Inv(s: State, c: Config) {
    && GoodRequests(s, c.dim) && GoodRiding(s.riding, s.leading)
    && Placed(s) && Conserved(s) && Led(s, c) && Routed(s, c.dim)
  }

  // ------------------------------------------------------------------- submit

  lemma SingleKnown(book: Book, r: Request)
    requires r.ticket in book && book[r.ticket] == r
    ensures AllKnown(book, [r]) && Tickets([r]) == {r.ticket}
  {
  }

  lemma SubmitRequests(s: State, qI8: seq<I8>, qF32: seq<F32>, g: Geometry, c: Config)
    requires GoodRequests(s, c.dim) && !Queued(s, s.next)
    ensures GoodRequests(Submit(s, qI8, qF32, g), c.dim)
  {
    hide AllKnown, FlightOf;
    var r := Request(s.next, qI8, qF32, g);
    var s' := Submit(s, qI8, qF32, g);
    KnownGrows(s.requests, s.pending, r);
    SingleKnown(s'.requests, r);
    KnownAppended(s'.requests, s.pending, [r]);
    forall t | t in s'.leading ensures GoodFlight(s'.requests, s'.leading[t], c.dim) {
      KnownGrows(s.requests, s.leading[t].batch, r);
    }
  }

  lemma SubmitPlaces(s: State, qI8: seq<I8>, qF32: seq<F32>, g: Geometry, c: Config)
    requires Placed(s) && Conserved(s) && s.next !in s.requests
    ensures var s' := Submit(s, qI8, qF32, g); Placed(s') && Conserved(s')
    ensures !Queued(s, s.next)
  {
    hide Tickets;
    var r := Request(s.next, qI8, qF32, g);
    SingleKnown(map[r.ticket := r], r);
    Appended(s.pending, [r]);
    var s' := Submit(s, qI8, qF32, g);
    assert forall t :: Queued(s', t) <==> Queued(s, t) || t == s.next;
  }

  // ---------------------------------------------------------------- loop head

  lemma ReturnPlaces(s: State, t: Ticket, c: Config)
    requires Placed(s) && Conserved(s) && t in s.awake && t in s.ready
    ensures var s' := LoopHead(s, t, c); Placed(s') && Conserved(s')
  {
    hide Tickets;
    var s' := LoopHead(s, t, c);
    assert forall u :: Queued(s', u) <==> Queued(s, u);
  }

  /** Whoever is about to sleep has its query in flight, so somebody is leading. */
  lemma SleeperIsServed(s: State, t: Ticket, c: Config)
    requires GoodRiding(s.riding, s.leading) && Conserved(s) && Led(s, c) && c.Sound() && t in s.awake && t !in s.ready
    requires s.leaders >= c.maxLeaders || s.pending == []
    ensures s.leaders > 0
  {
    if s.pending == [] {
      assert !Queued(s, t);
      assert s.riding[t] in s.leading;
      assert |s.leading.Keys| > 0;
    }
  }

  lemma SleepPlaces(s: State, t: Ticket, c: Config)
    requires Placed(s) && Conserved(s) && t in s.awake && t !in s.ready
    requires s.leaders >= c.maxLeaders || s.pending == []
    ensures var s' := LoopHead(s, t, c); Placed(s') && Conserved(s')
  {
    hide Tickets;
    var s' := LoopHead(s, t, c);
    assert forall u :: Queued(s', u) <==> Queued(s, u);
  }

  lemma LeadPlaces(s: State, t: Ticket, c: Config)
    requires Distinct(s.pending) && Placed(s) && Conserved(s)
    requires t in s.awake && t !in s.ready && s.leaders < c.maxLeaders && s.pending != []
    ensures var s' := LoopHead(s, t, c); Placed(s') && Conserved(s')
  {
    hide Tickets, FlightOf;
    var s' := LoopHead(s, t, c);
    var g := s.pending[0].geometry;
    SplitPartitions(s.pending, g, c.cap);
    var batch := Split(s.pending, g, c.cap).0;
    forall u
      ensures Queued(s, u) <==> Queued(s', u) || u in Tickets(batch)
      ensures Queued(s', u) ==> u !in Tickets(batch)
      ensures u in s'.riding <==> u in s.riding || u in Tickets(batch)
    {
    }
  }

  lemma LeadRequests(s: State, t: Ticket, c: Config)
    requires GoodRequests(s, c.dim) && c.Sound()
    requires t in s.awake && t !in s.ready && s.leaders < c.maxLeaders && s.pending != []
    ensures GoodRequests(LoopHead(s, t, c), c.dim)
  {
    hide Tickets, FlightOf;
    var g := s.pending[0].geometry;
    SplitPartitions(s.pending, g, c.cap);
    SplitMembers(s.pending, g, c.cap);
    FlightBatch(Split(s.pending, g, c.cap).0, g, c.dim);
    HeadRides(s.pending, c.cap);
    hide Split, Distinct;
  }

  /** A new launch departs with passengers that were in no other. */
  lemma Boarding(riding: map<Ticket, Ticket>, leading: map<Ticket, Flight>, t: Ticket, f: Flight)
    requires GoodRiding(riding, leading) && t !in leading
    requires forall u :: Carries(f, u) ==> u !in riding
    ensures GoodRiding(riding + Aboard(f.batch, t), leading[t := f])
  {
    hide Carries;
    forall u ensures Carries(f, u) <==> u in Aboard(f.batch, t) {
      CarriesTicket(f, u);
    }
    hide Aboard;
    AboardLeader(f.batch, t);
  }

  lemma CarriesTicket(f: Flight, t: Ticket)
    ensures Carries(f, t) <==> t in Tickets(f.batch)
  {
  }

  lemma AboardLeader(batch: seq<Request>, t: Ticket)
    ensures forall u :: u in Aboard(batch, t) ==> Aboard(batch, t)[u] == t
  {
  }

  lemma LeadRiding(s: State, t: Ticket, c: Config)
    requires Distinct(s.pending) && GoodRiding(s.riding, s.leading) && Placed(s) && Conserved(s)
    requires t in s.awake && t !in s.ready && s.leaders < c.maxLeaders && s.pending != []
    ensures GoodRiding(LoopHead(s, t, c).riding, LoopHead(s, t, c).leading)
  {
    hide Tickets, FlightOf, GoodRiding, Aboard;
    var g := s.pending[0].geometry;
    SplitPartitions(s.pending, g, c.cap);
    var batch := Split(s.pending, g, c.cap).0;
    FlightBatch(batch, g, c.dim);
    forall u | u in Tickets(batch) ensures u !in s.riding {
      assert Queued(s, u);
    }
    Boarding(s.riding, s.leading, t, FlightOf(batch, g, c.dim));
  }

  lemma FlightBatch(batch: seq<Request>, g: Geometry, dim: nat)
    ensures FlightOf(batch, g, dim).batch == batch && FlightOf(batch, g, dim).geometry == g
  {
  }

  lemma FlightCounts(leading: map<Ticket, Flight>, t: Ticket, f: Flight)
    requires t !in leading
    ensures |leading[t := f]| == |leading| + 1
  {
    assert leading[t := f].Keys == leading.Keys + {t};
    assert |leading[t := f]| == |leading[t := f].Keys| && |leading| == |leading.Keys|;
  }

  lemma LoopHeadLed(s: State, t: Ticket, c: Config)
    requires Inv(s, c) && c.Sound() && t in s.awake
    ensures Led(LoopHead(s, t, c), c)
  {
    hide Tickets, FlightOf, GoodRequests, Routed, GoodRiding, Conserved, Split, Aboard;
    AwakeIsFree(s, t);
    hide Placed;
    if t !in s.ready {
      if s.leaders >= c.maxLeaders || s.pending == [] {
        SleeperIsServed(s, t, c);
      } else {
        var g := s.pending[0].geometry;
        FlightCounts(s.leading, t, FlightOf(Split(s.pending, g, c.cap).0, g, c.dim));
      }
    }
  }

  lemma AwakeIsFree(s: State, t: Ticket)
    requires Placed(s) && t in s.awake
    ensures t !in s.leading
  {
  }

  lemma LoopHeadRouted(s: State, t: Ticket, c: Config)
    requires Routed(s, c.dim) && t in s.awake
    ensures Routed(LoopHead(s, t, c), c.dim)
  {
    hide Served, FlightOf, Split;
  }

  lemma LoopHeadKeeps(s: State, t: Ticket, c: Config)
    requires Inv(s, c) && c.Sound() && t in s.awake
    ensures Inv(LoopHead(s, t, c), c)
  {
    hide FlightOf, Split, Tickets, Led, RoutedReady, RoutedAnswers, GoodRiding, GoodFlights, GoodBook, AllKnown,
      Placed, Conserved;
    LoopHeadLed(s, t, c);
    LoopHeadRouted(s, t, c);
    if t in s.ready {
      ReturnPlaces(s, t, c);
    } else if s.leaders >= c.maxLeaders || s.pending == [] {
      SleepPlaces(s, t, c);
    } else {
      KnownDistinct(s.requests, s.pending);
      LeadPlaces(s, t, c);
      LeadRequests(s, t, c);
      LeadRiding(s, t, c);
    }
  }

  // -------------------------------------------------------------------- land

  lemma {:induction false} OthersFacts(batch: seq<Request>, me: Ticket)
    requires Distinct(batch)
    ensures Tickets(Others(batch, me)) == Tickets(batch) - {me}
    ensures Distinct(Others(batch, me))
    ensures forall r :: r in Others(batch, me) ==> r in batch
    decreases |batch|
  {
    if batch != [] {
      OthersFacts(batch[1..], me);
      var rest := Others(batch[1..], me);
      if batch[0].ticket != me {
        assert ([batch[0]] + rest)[1..] == rest;
      } else {
        assert [] + rest == rest;
      }
    }
  }

  lemma FullRow(all: Rows, n: nat, k: nat, i: nat)
    requires |all.ids| == |all.dists| == n * k && i < n
    ensures all.Row(i, k).Some?
  {
    RowBounds(i, n, k);
  }

  lemma RowBounds(i: nat, n: nat, k: nat)
    requires i < n
    ensures i * k + k <= n * k
  {
    assert (i + 1) * k <= n * k;
  }

  /** A full result reaches everyone else in the batch, with the row of their own position. */
  lemma {:induction false} DeliverFacts(ready: map<Ticket, Rows>, batch: seq<Request>, i: nat, k: nat, all: Rows,
                                        me: Ticket)
    requires i <= |batch| && Distinct(batch[i..])
    requires |all.ids| == |all.dists| == |batch| * k
    ensures var r := Deliver(ready, batch, i, k, all, me);
      && r.Keys == ready.Keys + (Tickets(batch[i..]) - {me})
      && (forall t :: t in ready && t !in Tickets(batch[i..]) ==> r[t] == ready[t])
      && (forall t :: t in Tickets(batch[i..]) && t != me ==>
            exists j :: i <= j < |batch| && batch[j].ticket == t && all.Row(j, k) == Some(r[t]))
    decreases |batch| - i
  {
    if i < |batch| {
      FullRow(all, |batch|, k, i);
      var row := all.Row(i, k).value;
      var next := if batch[i].ticket == me then ready else ready[batch[i].ticket := row];
      assert batch[i..][1..] == batch[i + 1..] && batch[i..][0] == batch[i];
      DeliverFacts(next, batch, i + 1, k, all, me);
      var r := Deliver(next, batch, i + 1, k, all, me);
      if batch[i].ticket != me {
        assert r[batch[i].ticket] == row;
        assert all.Row(i, k) == Some(row);
      }
    }
  }

  lemma {:induction false} MineFacts(batch: seq<Request>, i: nat, k: nat, all: Rows, me: Ticket)
    requires i <= |batch| && me in Tickets(batch[i..])
    requires |all.ids| == |all.dists| == |batch| * k
    ensures exists j :: i <= j < |batch| && batch[j].ticket == me && all.Row(j, k) == Mine(batch, i, k, all, me)
    ensures Mine(batch, i, k, all, me).Some?
    decreases |batch| - i
  {
    FullRow(all, |batch|, k, i);
    if batch[i].ticket != me {
      assert batch[i..][1..] == batch[i + 1..] && batch[i..][0] == batch[i];
      MineFacts(batch, i + 1, k, all, me);
    }
  }

  lemma ServedStays(log: seq<Landed>, l: Landed, r: Request, rows: Rows, dim: nat)
    requires Served(log, r, rows, dim)
    ensures Served(log + [l], r, rows, dim)
  {
    var j, i :| 0 <= j < |log| && 0 <= i < |log[j].flight.batch| && RowFor(log[j], i, r, rows, dim);
    assert (log + [l])[j] == log[j];
  }

  lemma ServedNow(log: seq<Landed>, l: Landed, i: nat, r: Request, rows: Rows, dim: nat)
    requires RowFor(l, i, r, rows, dim)
    ensures Served(log + [l], r, rows, dim)
  {
    assert (log + [l])[|log|] == l;
  }

  lemma LandRequests(s: State, t: Ticket, result: Option<Rows>, c: Config)
    requires GoodRequests(s, c.dim) && t in s.leading
    requires forall u :: u in Tickets(s.leading[t].batch) ==> !Queued(s, u)
    ensures GoodRequests(Land(s, t, result), c.dim)
  {
    hide Tickets, FlightOf, Deliver, Mine;
    var batch := s.leading[t].batch;
    if result.None? {
      OthersFacts(batch, t);
      KnownAppended(s.requests, s.pending, Others(batch, t));
    }
  }

  /** A launch lands and its passengers get off. */
  lemma Alighting(riding: map<Ticket, Ticket>, leading: map<Ticket, Flight>, t: Ticket)
    requires GoodRiding(riding, leading) && t in leading
    ensures GoodRiding(riding - Tickets(leading[t].batch), leading - {t})
  {
    hide Tickets, Carries;
    CarriesIs(leading);
    forall u | u in riding - Tickets(leading[t].batch)
      ensures riding[u] in leading - {t} && Carries(leading[riding[u]], u)
    {
      RiderCarried(riding, leading, u);
    }
    forall l, u | l in leading - {t} && Carries(leading[l], u)
      ensures u in riding - Tickets(leading[t].batch) && riding[u] == l
    {
      OneCarrier(riding, leading, l, t, u);
    }
  }

  lemma CarriesIs(leading: map<Ticket, Flight>)
    ensures forall l, u :: l in leading ==> (Carries(leading[l], u) <==> u in Tickets(leading[l].batch))
  {
  }

  lemma RiderCarried(riding: map<Ticket, Ticket>, leading: map<Ticket, Flight>, u: Ticket)
    requires GoodRiding(riding, leading) && u in riding
    ensures riding[u] in leading && u in Tickets(leading[riding[u]].batch)
  {
    hide Tickets;
  }

  lemma OneCarrier(riding: map<Ticket, Ticket>, leading: map<Ticket, Flight>, l: Ticket, t: Ticket, u: Ticket)
    requires GoodRiding(riding, leading) && l in leading && t in leading && l != t && Carries(leading[l], u)
    ensures u in riding && riding[u] == l && u !in Tickets(leading[t].batch)
  {
    hide Tickets;
    assert Carries(leading[t], u) == (u in Tickets(leading[t].batch));
  }

  lemma LandRiding(s: State, t: Ticket, result: Option<Rows>)
    requires GoodRiding(s.riding, s.leading) && t in s.leading
    ensures GoodRiding(Land(s, t, result).riding, Land(s, t, result).leading)
  {
    hide Tickets, Deliver, Mine, Others, GoodRiding;
    Alighting(s.riding, s.leading, t);
  }

  lemma LandPlaced(s: State, t: Ticket, result: Option<Rows>)
    requires Placed(s) && t in s.leading
    ensures Placed(Land(s, t, result))
  {
    hide Tickets, Deliver, Mine, Others;
  }

  lemma RidersAreApart(s: State, t: Ticket, u: Ticket)
    requires Conserved(s) && GoodRiding(s.riding, s.leading) && t in s.leading && u in Tickets(s.leading[t].batch)
    ensures u in s.riding && u !in s.ready && !Queued(s, u)
  {
    hide Tickets;
    assert Carries(s.leading[t], u);
  }

  /** The passengers move from `riding` to `ready` or back to the queue; the leader leaves if it was one of them. */
  lemma LandKeepsApart(s: State, s': State, t: Ticket, batch: set<Ticket>, ok: bool)
    requires Conserved(s) && t in s.leading && t !in s.answers
    requires forall u :: u in batch ==> u in s.riding && u !in s.ready && !Queued(s, u)
    requires forall u :: u in s'.ready <==> u in s.ready || (ok && u in batch && u != t)
    requires forall u :: Queued(s', u) <==> Queued(s, u) || (!ok && u in batch && u != t)
    requires forall u :: u in s'.riding <==> u in s.riding && u !in batch
    requires forall u :: s'.Unanswered(u) <==> s.Unanswered(u) && !(u == t && t in batch)
    ensures Conserved(s')
  {
    hide Tickets;
  }

  lemma LandUnanswered(s: State, t: Ticket, result: Option<Rows>)
    requires Placed(s) && t in s.leading
    ensures t !in s.answers
    ensures forall u :: Land(s, t, result).Unanswered(u) <==>
      s.Unanswered(u) && !(u == t && t in Tickets(s.leading[t].batch))
  {
    hide Tickets, Deliver, Mine, Others;
  }

  lemma LandConserved(s: State, t: Ticket, result: Option<Rows>)
    requires Placed(s) && Conserved(s) && GoodRiding(s.riding, s.leading) && t in s.leading
    requires FullResult(s.leading[t], result)
    requires Distinct(s.leading[t].batch)
    ensures Conserved(Land(s, t, result))
  {
    var s' := Land(s, t, result);
    var f := s.leading[t];
    if result.Some? {
      assert f.batch[0..] == f.batch;
      DeliverFacts(s.ready, f.batch, 0, f.geometry.k, result.value, t);
    } else {
      OthersFacts(f.batch, t);
      Appended(s.pending, Others(f.batch, t));
    }
    LandUnanswered(s, t, result);
    hide Tickets, Deliver, Mine, Others, Distinct, FullResult, Placed, Conserved, GoodRiding;
    forall u
      ensures u in s'.ready <==> u in s.ready || (result.Some? && u in Tickets(f.batch) && u != t)
      ensures Queued(s', u) <==> Queued(s, u) || (result.None? && u in Tickets(f.batch) && u != t)
      ensures u in s'.riding <==> u in s.riding && u !in Tickets(f.batch)
      ensures u in Tickets(f.batch) ==> u in s.riding && u !in s.ready && !Queued(s, u)
    {
      if u in Tickets(f.batch) {
        RidersAreApart(s, t, u);
      }
    }
    LandKeepsApart(s, s', t, Tickets(f.batch), result.Some?);
  }

  lemma LandLed(s: State, t: Ticket, result: Option<Rows>, c: Config)
    requires Led(s, c) && t in s.leading
    ensures Led(Land(s, t, result), c)
  {
    hide Tickets, Deliver, Mine, Others;
    assert Land(s, t, result).leading.Keys == s.leading.Keys - {t};
  }

  lemma LandReady(s: State, t: Ticket, result: Option<Rows>, c: Config)
    requires RoutedReady(s.requests, s.ready, s.log, c.dim)
    requires t in s.leading && FullResult(s.leading[t], result)
    requires GoodFlight(s.requests, s.leading[t], c.dim)
    ensures var s' := Land(s, t, result); RoutedReady(s'.requests, s'.ready, s'.log, c.dim)
  {
    hide Served, FlightOf, Tickets, Mine, Others, Deliver, GoodFlight, FullResult;
    var s' := Land(s, t, result);
    forall u | u in s'.ready ensures u in s'.requests && Served(s'.log, s'.requests[u], s'.ready[u], c.dim) {
      if result.None? {
        ServedStays(s.log, Landed(s.leading[t], t, result), s.requests[u], s.ready[u], c.dim);
      } else {
        LandedRow(s, t, result, c, u);
      }
    }
  }

  lemma LandedRow(s: State, t: Ticket, result: Option<Rows>, c: Config, u: Ticket)
    requires RoutedReady(s.requests, s.ready, s.log, c.dim)
    requires t in s.leading && FullResult(s.leading[t], result) && result.Some?
    requires GoodFlight(s.requests, s.leading[t], c.dim)
    requires var f := s.leading[t]; u in Deliver(s.ready, f.batch, 0, f.geometry.k, result.value, t)
    ensures var f := s.leading[t];
      && u in s.requests
      && Served(s.log + [Landed(f, t, result)], s.requests[u],
                Deliver(s.ready, f.batch, 0, f.geometry.k, result.value, t)[u], c.dim)
  {
    hide Served, FlightOf, Tickets, Deliver, AllKnown;
    var f := s.leading[t];
    KnownDistinct(s.requests, f.batch);
    assert f.batch[0..] == f.batch;
    DeliverFacts(s.ready, f.batch, 0, f.geometry.k, result.value, t);
    var ready := Deliver(s.ready, f.batch, 0, f.geometry.k, result.value, t);
    if u in Tickets(f.batch) && u != t {
      var j :| 0 <= j < |f.batch| && f.batch[j].ticket == u && result.value.Row(j, f.geometry.k) == Some(ready[u]);
      BatchRow(s, f, t, j, result, c.dim, ready[u]);
      ServedNow(s.log, Landed(f, t, result), j, s.requests[u], ready[u], c.dim);
    } else {
      assert u in s.ready && ready[u] == s.ready[u] by {
        if u == t && t in Tickets(f.batch) {
          DeliverElse(s.ready, f.batch, 0, f.geometry.k, result.value, t, t);
        }
      }
      ServedStays(s.log, Landed(f, t, result), s.requests[u], s.ready[u], c.dim);
    }
  }

  /** Row `j` of a landed launch serves the request at position `j` of its batch. */
  lemma BatchRow(s: State, f: Flight, t: Ticket, j: nat, result: Option<Rows>, dim: nat, rows: Rows)
    requires GoodFlight(s.requests, f, dim) && j < |f.batch|
    requires result.Some? && result.value.Row(j, f.geometry.k) == Some(rows)
    ensures f.batch[j].ticket in s.requests
    ensures RowFor(Landed(f, t, result), j, s.requests[f.batch[j].ticket], rows, dim)
  {
    hide FlightOf, Distinct;
    assert f.batch[j] in f.batch;
  }

  lemma LandAnswers(s: State, t: Ticket, result: Option<Rows>, c: Config)
    requires RoutedAnswers(s.requests, s.answers, s.log, c.dim)
    requires t in s.leading && FullResult(s.leading[t], result)
    requires GoodFlight(s.requests, s.leading[t], c.dim)
    ensures var s' := Land(s, t, result); RoutedAnswers(s'.requests, s'.answers, s'.log, c.dim)
  {
    hide Served, FlightOf, Tickets, Deliver, Others, Distinct;
    var s' := Land(s, t, result);
    var f := s.leading[t];
    forall u | u in s'.answers && s'.answers[u].Some?
      ensures u in s'.requests && Served(s'.log, s'.requests[u], s'.answers[u].value, c.dim)
    {
      if u == t && t in Tickets(f.batch) {
        assert f.batch[0..] == f.batch;
        MineFacts(f.batch, 0, f.geometry.k, result.value, t);
        var j :| 0 <= j < |f.batch| && f.batch[j].ticket == t && result.value.Row(j, f.geometry.k) == s'.answers[t];
        BatchRow(s, f, t, j, result, c.dim, s'.answers[t].value);
        ServedNow(s.log, Landed(f, t, result), j, s.requests[t], s'.answers[t].value, c.dim);
      } else {
        ServedStays(s.log, Landed(f, t, result), s.requests[u], s.answers[u].value, c.dim);
      }
    }
  }

  lemma LandKeeps(s: State, t: Ticket, result: Option<Rows>, c: Config)
    requires Inv(s, c) && t in s.leading && FullResult(s.leading[t], result)
    ensures Inv(Land(s, t, result), c)
  {
    hide Tickets, FlightOf, Served, Land, FullResult, AllKnown, Placed, Led, RoutedReady, RoutedAnswers;
    forall u | u in Tickets(s.leading[t].batch) ensures !Queued(s, u) {
      assert Carries(s.leading[t], u);
      assert u in s.riding;
    }
    assert GoodFlight(s.requests, s.leading[t], c.dim);
    KnownDistinct(s.requests, s.leading[t].batch);
    hide GoodFlight, GoodFlights, GoodRiding, Conserved, GoodBook, Distinct;
    LandRequests(s, t, result, c);
    LandRiding(s, t, result);
    LandPlaced(s, t, result);
    LandConserved(s, t, result);
    LandLed(s, t, result, c);
    LandReady(s, t, result, c);
    LandAnswers(s, t, result, c);
  }

  // ---------------------------------------------------------------- all runs

  lemma SubmitKeeps(s: State, qI8: seq<I8>, qF32: seq<F32>, g: Geometry, c: Config)
    requires Inv(s, c)
    ensures Inv(Submit(s, qI8, qF32, g), c)
  {
    hide Tickets, FlightOf, Served, AllKnown, GoodFlights, GoodRiding, Placed, Conserved, Led;
    assert s.next !in s.requests;
    SubmitLed(s, qI8, qF32, g, c);
    SubmitPlaces(s, qI8, qF32, g, c);
    SubmitRequests(s, qI8, qF32, g, c);
  }

  lemma SubmitLed(s: State, qI8: seq<I8>, qF32: seq<F32>, g: Geometry, c: Config)
    requires Led(s, c)
    ensures Led(Submit(s, qI8, qF32, g), c)
  {
  }

  lemma StirKeeps(s: State, t: Ticket, c: Config)
    requires Inv(s, c) && t in s.asleep
    ensures Inv(Stir(s, t), c)
  {
    hide Tickets, Served, AllKnown, GoodFlights, GoodBook, GoodRiding, RoutedReady, RoutedAnswers;
    assert forall u :: Queued(Stir(s, t), u) <==> Queued(s, u);
  }

  lemma NextKeeps(s: State, s': State, c: Config)
    requires Inv(s, c) && c.Sound() && Next(s, s', c)
    ensures Inv(s', c)
  {
    hide Inv, Submit, LoopHead, Land, Stir, FullResult;
    if qI8, qF32, g :| s' == Submit(s, qI8, qF32, g) {
      SubmitKeeps(s, qI8, qF32, g, c);
    } else if t :| t in s.awake && s' == LoopHead(s, t, c) {
      LoopHeadKeeps(s, t, c);
    } else if t, result :| t in s.leading && FullResult(s.leading[t], result) && s' == Land(s, t, result) {
      LandKeeps(s, t, result, c);
    } else {
      var t :| t in s.asleep && s' == Stir(s, t);
      StirKeeps(s, t, c);
    }
  }

  lemma {:induction false} RunKeeps(tr: seq<State>, c: Config, i: nat)
    requires Run(tr, c) && c.Sound() && i < |tr|
    ensures Inv(tr[i], c)
  {
    if i > 0 {
      RunKeeps(tr, c, i - 1);
      NextKeeps(tr[i - 1], tr[i], c);
    }
  }

  // ---------------------------------------------------- what callers can rely on

  ghost predicate OnePlace(s: State, t: Ticket) {
    var queued, flying, waiting := Queued(s, t), t in s.riding, t in s.ready;
    && (s.Unanswered(t) <==> t !in s.answers)
    && (s.Unanswered(t) <==> queued || flying || waiting)
    && !(queued && flying) && !(queued && waiting) && !(flying && waiting)
  }

  lemma InOnePlace(s: State, t: Ticket)
    requires Placed(s) && Conserved(s) && t in s.requests
    ensures OnePlace(s, t)
  {
    hide Tickets;
  }

  lemma InOneLaunch(s: State, t: Ticket)
    requires GoodRiding(s.riding, s.leading)
    ensures t in s.riding <==> exists l :: l in s.leading && Carries(s.leading[l], t)
    ensures forall l, l' ::
      l in s.leading && l' in s.leading && Carries(s.leading[l], t) && Carries(s.leading[l'], t) ==> l == l'
  {
    hide Carries;
  }

  /**
   * In every interleaving each unanswered query is queued, in exactly one
   * launch in flight, or has its result waiting, and in only one of these; an
   * answered one is nowhere. At most `maxLeaders` launches are in flight.
   */
  lemma NothingLostOrDoubled(tr: seq<State>, c: Config, i: nat, t: Ticket)
    requires Run(tr, c) && c.Sound() && i < |tr| && t in tr[i].requests
    ensures var s := tr[i];
      && OnePlace(s, t)
      && (t in s.riding <==> exists l :: l in s.leading && Carries(s.leading[l], t))
      && (forall l, l' ::
            l in s.leading && l' in s.leading && Carries(s.leading[l], t) && Carries(s.leading[l'], t) ==> l == l')
      && s.leaders == |s.leading| <= c.maxLeaders
  {
    RunKeeps(tr, c, i);
    hide Run, OnePlace, Carries, GoodRequests, GoodRiding, Placed, Conserved, Routed;
    InOnePlace(tr[i], t);
    InOneLaunch(tr[i], t);
  }

  lemma SomeoneCanStep(s: State, c: Config, t: Ticket)
    requires Led(s, c) && s.Unanswered(t)
    ensures t in s.asleep ==> s.leaders > 0 && s.leading.Keys != {}
    ensures exists s' :: Next(s, s', c) && s'.requests == s.requests
  {
    if t in s.awake {
      SelfStep(s, c, t);
    } else if t in s.leading {
      LandStep(s, c, t);
    } else {
      assert s.leading.Keys != {};
      var l :| l in s.leading.Keys;
      LandStep(s, c, l);
    }
  }

  lemma SelfStep(s: State, c: Config, t: Ticket)
    requires t in s.awake
    ensures exists s' :: Next(s, s', c) && s'.requests == s.requests
  {
    assert LoopHead(s, t, c).requests == s.requests;
    hide LoopHead;
    assert Next(s, LoopHead(s, t, c), c);
  }

  lemma LandStep(s: State, c: Config, l: Ticket)
    requires l in s.leading
    ensures exists s' :: Next(s, s', c) && s'.requests == s.requests
  {
    assert Land(s, l, None).requests == s.requests;
    hide Land;
    assert FullResult(s.leading[l], None);
    assert Next(s, Land(s, l, None), c);
  }

  /** Nobody sleeps unless a launch is in flight that will wake everyone, so some thread can always step. */
  lemma NobodySleepsForever(tr: seq<State>, c: Config, i: nat, t: Ticket)
    requires Run(tr, c) && c.Sound() && i < |tr| && tr[i].Unanswered(t)
    ensures t in tr[i].asleep ==> tr[i].leaders > 0 && tr[i].leading.Keys != {}
    ensures exists s' :: Next(tr[i], s', c) && s'.requests == tr[i].requests
  {
    RunKeeps(tr, c, i);
    hide Run, Next, GoodRequests, GoodRiding, Conserved, Routed, Placed;
    SomeoneCanStep(tr[i], c, t);
  }

  /** `rows` is row `row` of `l`, which ran with the parameters of `r` and carried its query there. */
  ghost predicate OwnRow(l: Landed, row: nat, r: Request, rows: Rows, dim: nat) {
    && l.flight.geometry == r.geometry && row < |l.flight.batch|
    && OwnQuery(l.flight, row * dim, r, dim) && OwnResult(l.result, row * r.geometry.k, r.geometry.k, rows)
  }

  /** The buffers hold the query from `lo` on. */
  ghost predicate OwnQuery(f: Flight, lo: int, r: Request, dim: nat) {
    && 0 <= lo && lo + dim <= |f.qI8|
    && (forall x :: 0 <= x < dim ==> f.qI8[lo + x] == if x < |r.qI8| then r.qI8[x] else 0)
    && if exists q :: q in f.batch && |q.qF32| < dim then f.qF32 == []
       else dim <= |r.qF32| && lo + dim <= |f.qF32| && f.qF32[lo..lo + dim] == r.qF32[..dim]
  }

  /** The launch returned these rows from `q` on. */
  ghost predicate OwnResult(result: Option<Rows>, q: int, k: nat, rows: Rows) {
    && result.Some? && 0 <= q && q + k <= |result.value.ids| && q + k <= |result.value.dists|
    && rows == Rows(result.value.ids[q..q + k], result.value.dists[q..q + k])
  }

  lemma RowIsResult(result: Rows, row: nat, k: nat, rows: Rows)
    requires result.Row(row, k) == Some(rows)
    ensures OwnResult(Some(result), row * k, k, rows)
  {
  }

  lemma CarriedRow(batch: seq<Request>, g: Geometry, dim: nat, row: nat, lo: nat)
    requires row < |batch| && lo == row * dim
    ensures OwnQuery(FlightOf(batch, g, dim), lo, batch[row], dim)
  {
    hide Flatten, Fit;
    FlattenRow(RowsI8(batch, dim), dim, row, lo);
    if AllExact(batch, dim) {
      assert batch[row] in batch;
      FlattenRow(RowsF32(batch, dim), dim, row, lo);
    }
  }

  lemma RowIsOwn(l: Landed, row: nat, r: Request, rows: Rows, dim: nat)
    requires RowFor(l, row, r, rows, dim)
    ensures OwnRow(l, row, r, rows, dim)
  {
    hide Fit, FlightOf, OwnQuery, OwnResult, Rows.Row;
    FlightBatch(l.flight.batch, r.geometry, dim);
    CarriedRow(l.flight.batch, r.geometry, dim, row, row * dim);
    RowIsResult(l.result.value, row, r.geometry.k, rows);
  }

  /**
   * Every answer is the k-wide row of a landed launch that ran with the call's
   * own parameters and carried, at that row, the call's own query fitted to
   * the index dimension (and its exact query, if exact queries went along).
   */
  lemma AnswersAreOwn(tr: seq<State>, c: Config, i: nat, t: Ticket) returns (j: nat, row: nat)
    requires Run(tr, c) && c.Sound() && i < |tr|
    requires t in tr[i].answers && tr[i].answers[t].Some?
    ensures t in tr[i].requests && tr[i].requests[t].ticket == t && j < |tr[i].log|
    ensures OwnRow(tr[i].log[j], row, tr[i].requests[t], tr[i].answers[t].value, c.dim)
  {
    RunKeeps(tr, c, i);
    hide Run, AllKnown, GoodFlights, RoutedReady, GoodRiding, Conserved, Placed, Led, RowFor, OwnRow;
    var s := tr[i];
    var r := s.requests[t];
    assert Served(s.log, r, s.answers[t].value, c.dim);
    j, row :|
      && 0 <= j < |s.log| && 0 <= row < |s.log[j].flight.batch|
      && RowFor(s.log[j], row, r, s.answers[t].value, c.dim);
    RowIsOwn(s.log[j], row, r, s.answers[t].value, c.dim);
  }

  // --------------------------------------------------------------- termination

  /** Calls still out, queries not yet served, queries not yet launched, threads awake. */
  ghost function Rank(s: State): (int, int, int, int) {
    (|s.requests| - |s.answers|, |s.pending| + |s.riding|, |s.pending|, |s.awake|)
  }

  ghost predicate Below(a: (int, int, int, int), b: (int, int, int, int)) {
    || a.0 < b.0
    || (a.0 == b.0 && a.1 < b.1)
    || (a.0 == b.0 && a.1 == b.1 && a.2 < b.2)
    || (a.0 == b.0 && a.1 == b.1 && a.2 == b.2 && a.3 < b.3)
  }

  lemma {:induction false} TicketCount(rs: seq<Request>)
    requires Distinct(rs)
    ensures |Tickets(rs)| == |rs|
  {
    if rs != [] {
      TicketCount(rs[1..]);
    }
  }

  lemma AnswerCounts(answers: map<Ticket, Option<Rows>>, t: Ticket, a: Option<Rows>)
    requires t !in answers
    ensures |answers[t := a]| == |answers| + 1
  {
    assert answers[t := a].Keys == answers.Keys + {t};
  }

  lemma UnionCount(a: set<Ticket>, b: set<Ticket>)
    requires forall u :: u in b ==> u !in a
    ensures |a + b| == |a| + |b|
  {
    assert a !! b;
  }

  lemma BoardedCount(riding: map<Ticket, Ticket>, batch: seq<Request>, t: Ticket)
    requires Distinct(batch) && forall u :: u in Tickets(batch) ==> u !in riding
    ensures |riding + Aboard(batch, t)| == |riding| + |batch|
  {
    hide Tickets;
    TicketCount(batch);
    assert Aboard(batch, t).Keys == Tickets(batch);
    assert (riding + Aboard(batch, t)).Keys == riding.Keys + Tickets(batch);
    UnionCount(riding.Keys, Tickets(batch));
    assert |riding + Aboard(batch, t)| == |(riding + Aboard(batch, t)).Keys| && |riding| == |riding.Keys|;
  }

  /** Splitting the queue loses and doubles nothing. */
  lemma SplitCounts(queue: seq<Request>, g: Geometry, cap: nat)
    requires Distinct(queue)
    ensures var (batch, keep) := Split(queue, g, cap); |batch| + |keep| == |queue|
  {
    hide Tickets, Split;
    SplitPartitions(queue, g, cap);
    var (batch, keep) := Split(queue, g, cap);
    TicketCount(queue);
    TicketCount(batch);
    TicketCount(keep);
    UnionCount(Tickets(batch), Tickets(keep));
  }

  lemma LeadRank(s: State, t: Ticket, c: Config)
    requires Distinct(s.pending) && c.Sound()
    requires forall u :: u in Tickets(s.pending) ==> u !in s.riding
    requires t in s.awake && t !in s.ready && s.leaders < c.maxLeaders && s.pending != []
    ensures Below(Rank(LoopHead(s, t, c)), Rank(s))
  {
    hide Tickets, FlightOf, Split, Aboard;
    var g := s.pending[0].geometry;
    var batch := Split(s.pending, g, c.cap).0;
    SplitPartitions(s.pending, g, c.cap);
    HeadRides(s.pending, c.cap);
    SplitCounts(s.pending, g, c.cap);
    hide Distinct;
    assert forall u :: u in Tickets(batch) ==> u in Tickets(s.pending);
    BoardedCount(s.riding, batch, t);
  }

  /** Every turn of a loop brings the calls closer to their answers. */
  lemma LoopHeadProgress(s: State, t: Ticket, c: Config)
    requires Inv(s, c) && c.Sound() && t in s.awake
    ensures Below(Rank(LoopHead(s, t, c)), Rank(s))
  {
    hide Tickets, FlightOf, GoodFlights, GoodRiding, RoutedReady, RoutedAnswers, Split;
    if t in s.ready {
      AnswerCounts(s.answers, t, Some(s.ready[t]));
    } else if s.leaders >= c.maxLeaders || s.pending == [] {
      assert |s.awake - {t}| == |s.awake| - 1;
    } else {
      KnownDistinct(s.requests, s.pending);
      forall u | u in Tickets(s.pending) ensures u !in s.riding {
        assert Queued(s, u);
      }
      LeadRank(s, t, c);
    }
  }

  /**
   * So does every landing, except one that failed for a leader whose own query
   * was not aboard.
   */
  lemma LandProgress(s: State, t: Ticket, result: Option<Rows>, c: Config)
    requires Inv(s, c) && t in s.leading && FullResult(s.leading[t], result)
    requires result.Some? || Carries(s.leading[t], t)
    ensures Below(Rank(Land(s, t, result)), Rank(s))
  {
    hide Tickets, AllKnown, RoutedReady, RoutedAnswers, Conserved, GoodBook, FullResult, GoodRiding, FlightOf;
    var f := s.leading[t];
    if Carries(f, t) {
      LandAnswersLeader(s, t, result);
    } else {
      TicketOf(f.batch, 0);
      FirstPassenger(s, t);
      LandFreesPassengers(s, t, result, f.batch[0].ticket);
    }
  }

  lemma FirstPassenger(s: State, t: Ticket)
    requires GoodRiding(s.riding, s.leading) && t in s.leading && s.leading[t].batch != []
    ensures s.leading[t].batch[0].ticket in s.riding
  {
    TicketOf(s.leading[t].batch, 0);
    assert Carries(s.leading[t], s.leading[t].batch[0].ticket);
  }

  lemma LandAnswersLeader(s: State, t: Ticket, result: Option<Rows>)
    requires t in s.leading && Carries(s.leading[t], t) && t !in s.answers
    ensures Rank(Land(s, t, result)).0 < Rank(s).0
  {
    hide Tickets, Deliver, Mine, Others;
    AnswerCounts(s.answers, t, Land(s, t, result).answers[t]);
  }

  lemma LandFreesPassengers(s: State, t: Ticket, result: Option<Rows>, u: Ticket)
    requires t in s.leading && !Carries(s.leading[t], t) && result.Some?
    requires u in Tickets(s.leading[t].batch) && u in s.riding
    ensures Below(Rank(Land(s, t, result)), Rank(s))
  {
    hide Tickets, Deliver, Mine, Others;
    var keys := Land(s, t, result).riding.Keys;
    assert keys <= s.riding.Keys && u !in keys;
    SmallerSet(keys, s.riding.Keys);
  }

  lemma SmallerSet(a: set<Ticket>, b: set<Ticket>)
    requires a < b
    ensures |a| < |b|
  {
    assert b == a + (b - a);
    assert |b| == |a| + |b - a|;
  }

  // ------------------------------------------- what a short launch result would do

  /**
   * The full-result condition is needed exactly: after a successful launch of
   * any size, the follower at position `i` is still accounted for if and only
   * if the result reaches row `i`. A shorter result would strand it: neither
   * queued, nor in flight, nor ready, yet unanswered.
   */
  lemma FollowerKeptIffRowCame(s: State, t: Ticket, all: Rows, c: Config, i: nat)
    requires Inv(s, c) && t in s.leading && i < |s.leading[t].batch| && s.leading[t].batch[i].ticket != t
    ensures var f, s' := s.leading[t], Land(s, t, Some(all));
      var u, reach := f.batch[i].ticket, i * f.geometry.k + f.geometry.k;
      && s'.Unanswered(u)
      && (Queued(s', u) || u in s'.riding || u in s'.ready <==> reach <= |all.ids| && reach <= |all.dists|)
  {
    var f := s.leading[t];
    var u := f.batch[i].ticket;
    FollowerBefore(s, t, c, i);
    hide Inv, Tickets, FlightOf, Mine, Deliver, Distinct, Land, Queued, State.Unanswered, Rows.Row;
    FollowerAfter(s, t, all, u);
    RowReached(all, i, f.geometry.k);
    DeliverAt(s.ready, f.batch, 0, i, f.geometry.k, all, t);
  }

  lemma RowReached(all: Rows, i: nat, k: nat)
    ensures all.Row(i, k).Some? <==> i * k + k <= |all.ids| && i * k + k <= |all.dists|
  {
  }

  /** Before the landing a follower is in flight and in no other place. */
  lemma FollowerBefore(s: State, t: Ticket, c: Config, i: nat)
    requires Inv(s, c) && t in s.leading && i < |s.leading[t].batch|
    ensures var batch := s.leading[t].batch; var u := batch[i].ticket;
      && u in Tickets(batch) && !Queued(s, u) && s.Unanswered(u)
      && batch[0..] == batch && Distinct(batch) && forall v :: v in Tickets(batch) ==> v !in s.ready
  {
    hide Tickets, FlightOf, GoodBook, RoutedReady, RoutedAnswers, AllKnown, Placed, Led;
    KnownDistinct(s.requests, s.leading[t].batch);
    TicketOf(s.leading[t].batch, i);
    PassengersAreNotReady(s, t);
  }

  /** A successful landing puts nobody in the queue and answers only its leader. */
  lemma FollowerAfter(s: State, t: Ticket, all: Rows, u: Ticket)
    requires t in s.leading && u in Tickets(s.leading[t].batch) && u != t && !Queued(s, u) && s.Unanswered(u)
    ensures var f, s' := s.leading[t], Land(s, t, Some(all));
      && s'.Unanswered(u) && !Queued(s', u) && u !in s'.riding
      && s'.ready == Deliver(s.ready, f.batch, 0, f.geometry.k, all, t)
  {
    hide Tickets, Mine, Deliver;
  }

  /** A query in flight is not queued, not ready and not answered. */
  lemma PassengersAreNotReady(s: State, t: Ticket)
    requires GoodRiding(s.riding, s.leading) && Conserved(s) && t in s.leading
    ensures forall u :: u in Tickets(s.leading[t].batch) ==>
      u !in s.ready && !Queued(s, u) && s.Unanswered(u) && u in s.riding
  {
    hide Tickets;
    forall u | u in Tickets(s.leading[t].batch)
      ensures u !in s.ready && !Queued(s, u) && s.Unanswered(u) && u in s.riding
    {
      assert Carries(s.leading[t], u);
    }
  }
}
