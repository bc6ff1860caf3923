/**
 * What becomes of every call, read off the log of landed launches alone: who is sent to
 * the fallback path, and whose row came from which launch.
 */
module CoalescerFates {
  import opened Base
  import opened Coalescer
  import opened CoalescerSafety

  /** The launch failed under a leader whose own query was aboard. */
  ghost predicate FailedUnder(l: Landed, t: Ticket) {
    l.leader == t && Carries(l.flight, t) && l.result.None?
  }

  /** The launch succeeded with the query of `t` aboard. */
  ghost predicate Brought(l: Landed, t: Ticket) {
    Carries(l.flight, t) && l.result.Some?
  }

  ghost predicate SomeFailedUnder(log: seq<Landed>, t: Ticket) {
    exists j :: 0 <= j < |log| && FailedUnder(log[j], t)
  }

  /** Its row was returned, or waits for a follower. */
  ghost predicate HasRow(s: State, l: Landed, t: Ticket) {
    (t in s.answers && s.answers[t].Some?) || (l.leader != t && t in s.ready)
  }

  ghost predicate SentBack(s: State, t: Ticket) {
    t in s.answers && s.answers[t].None?
  }

  /** Exactly the leaders of failed launches that carried their own query are sent to the fallback path. */
  ghost predicate Fallbacks(s: State) {
    forall t :: SentBack(s, t) <==> SomeFailedUnder(s.log, t)
  }

  /** Everyone aboard a successful launch got a row. */
  ghost predicate Arrived(s: State) {
    forall j, t :: 0 <= j < |s.log| && Brought(s.log[j], t) ==> HasRow(s, s.log[j], t)
  }

  /** No query was aboard two successful launches. */
  ghost predicate Once(log: seq<Landed>) {
    forall j, j', t :: 0 <= j < j' < |log| && Brought(log[j], t) ==> !Brought(log[j'], t)
  }

  ghost predicate GoodLog(book: Book, log: seq<Landed>, dim: nat) {
    forall j :: 0 <= j < |log| ==> GoodFlight(book, log[j].flight, dim)
  }

  ghost predicate Fates(s: State, dim: nat) {
    Fallbacks(s) && Arrived(s) && Once(s.log) && GoodLog(s.requests, s.log, dim)
  }

  // ------------------------------------------------------------- the log alone

  lemma LaterFailure(log: seq<Landed>, l: Landed, t: Ticket)
    ensures SomeFailedUnder(log + [l], t) <==> SomeFailedUnder(log, t) || FailedUnder(l, t)
  {
    hide FailedUnder;
    var log' := log + [l];
    if j :| 0 <= j < |log| && FailedUnder(log[j], t) {
      assert log'[j] == log[j];
    }
    assert log'[|log|] == l;
  }

  lemma GoodLogStays(book: Book, r: Request, log: seq<Landed>, dim: nat)
    requires GoodLog(book, log, dim) && r.ticket !in book
    ensures GoodLog(book[r.ticket := r], log, dim)
  {
    hide FlightOf, AllKnown;
    forall j | 0 <= j < |log| ensures GoodFlight(book[r.ticket := r], log[j].flight, dim) {
      KnownGrows(book, log[j].flight.batch, r);
    }
  }

  // ----------------------------------------------------------------- the steps

  lemma SubmitFates(s: State, qI8: seq<I8>, qF32: seq<F32>, g: Geometry, c: Config)
    requires Inv(s, c) && Fates(s, c.dim)
    ensures Fates(Submit(s, qI8, qF32, g), c.dim)
  {
    hide GoodFlight, AllKnown, GoodFlights, GoodRiding, Placed, Conserved, Led, Routed, FailedUnder, Brought;
    assert s.next !in s.requests;
    GoodLogStays(s.requests, Request(s.next, qI8, qF32, g), s.log, c.dim);
    hide GoodLog;
    forall t ensures SentBack(Submit(s, qI8, qF32, g), t) <==> SentBack(s, t) {
    }
  }

  /** A turn at the head of the loop at most hands over a waiting result. */
  lemma LoopHeadDoes(s: State, t: Ticket, c: Config)
    ensures var s' := LoopHead(s, t, c);
      && s'.log == s.log && s'.requests == s.requests
      && ((s'.answers == s.answers && s'.ready == s.ready)
          || (t in s.ready && s'.answers == s.answers[t := Some(s.ready[t])] && s'.ready == s.ready - {t}))
  {
    hide Split, FlightOf, Aboard;
  }

  lemma LoopHeadFates(s: State, t: Ticket, c: Config)
    requires Placed(s) && Fates(s, c.dim) && t in s.awake
    ensures Fates(LoopHead(s, t, c), c.dim)
  {
    var s' := LoopHead(s, t, c);
    LoopHeadDoes(s, t, c);
    assert t !in s.answers;
    hide LoopHead, Placed, GoodLog, Brought, SomeFailedUnder, Once;
    forall u ensures SentBack(s', u) <==> SentBack(s, u) {
    }
    forall j, u | 0 <= j < |s.log| && Brought(s.log[j], u) ensures HasRow(s', s.log[j], u) {
      assert HasRow(s, s.log[j], u);
    }
  }

  lemma StirFates(s: State, t: Ticket, c: Config)
    requires Fates(s, c.dim) && t in s.asleep
    ensures Fates(Stir(s, t), c.dim)
  {
    hide GoodFlight, FailedUnder, Brought, SomeFailedUnder, GoodLog;
    forall u ensures SentBack(Stir(s, t), u) <==> SentBack(s, u) {
    }
  }

  /** What a landing does to answers and waiting results. */
  lemma LandDoes(s: State, t: Ticket, result: Option<Rows>)
    requires t in s.leading && FullResult(s.leading[t], result) && Distinct(s.leading[t].batch)
    ensures var s', f := Land(s, t, result), s.leading[t];
      && s'.log == s.log + [Landed(f, t, result)] && s'.requests == s.requests
      && s'.answers.Keys == s.answers.Keys + (if Carries(f, t) then {t} else {})
      && (forall u :: u in s.answers && u != t ==> s'.answers[u] == s.answers[u])
      && (Carries(f, t) ==> (s'.answers[t].Some? <==> result.Some?))
      && (forall u :: u in s.ready ==> u in s'.ready)
      && (result.Some? ==> forall u :: Carries(f, u) && u != t ==> u in s'.ready)
  {
    hide Tickets, Deliver, Mine, Others, Distinct;
    var f := s.leading[t];
    assert f.batch[0..] == f.batch;
    if result.Some? {
      DeliverFacts(s.ready, f.batch, 0, f.geometry.k, result.value, t);
      if Carries(f, t) {
        MineFacts(f.batch, 0, f.geometry.k, result.value, t);
      }
    }
  }

  lemma LandFallbacks(s: State, t: Ticket, result: Option<Rows>)
    requires t in s.leading && FullResult(s.leading[t], result) && Distinct(s.leading[t].batch)
    requires Fallbacks(s) && t !in s.answers
    ensures Fallbacks(Land(s, t, result))
  {
    LandDoes(s, t, result);
    hide Land, FullResult, Distinct, SomeFailedUnder, Carries;
    var s' := Land(s, t, result);
    forall u ensures SentBack(s', u) <==> SomeFailedUnder(s'.log, u) {
      LaterFailure(s.log, Landed(s.leading[t], t, result), u);
      assert SentBack(s, u) <==> SomeFailedUnder(s.log, u);
    }
  }

  lemma LandArrived(s: State, t: Ticket, result: Option<Rows>)
    requires t in s.leading && FullResult(s.leading[t], result) && Distinct(s.leading[t].batch)
    requires Arrived(s) && t !in s.answers
    ensures Arrived(Land(s, t, result))
  {
    LandDoes(s, t, result);
    hide Land, FullResult, Distinct, Carries;
    var s' := Land(s, t, result);
    forall j, u | 0 <= j < |s'.log| && Brought(s'.log[j], u) ensures HasRow(s', s'.log[j], u) {
      if j < |s.log| {
        assert s'.log[j] == s.log[j];
        assert HasRow(s, s.log[j], u);
      } else {
        assert s'.log[j] == Landed(s.leading[t], t, result);
      }
    }
  }

  lemma LandOnce(s: State, t: Ticket, result: Option<Rows>)
    requires Arrived(s) && Once(s.log) && t in s.leading
    requires Placed(s) && forall u :: Carries(s.leading[t], u) ==> u !in s.ready && s.Unanswered(u)
    ensures Once(s.log + [Landed(s.leading[t], t, result)])
  {
    hide Carries;
    var l := Landed(s.leading[t], t, result);
    var log' := s.log + [l];
    forall j, j', u | 0 <= j < j' < |log'| && Brought(log'[j], u) ensures !Brought(log'[j'], u) {
      assert log'[j] == s.log[j];
      if j' < |s.log| {
        assert log'[j'] == s.log[j'];
      } else {
        assert HasRow(s, s.log[j], u);
      }
    }
  }

  lemma LandFates(s: State, t: Ticket, result: Option<Rows>, c: Config)
    requires Inv(s, c) && Fates(s, c.dim) && t in s.leading && FullResult(s.leading[t], result)
    ensures Fates(Land(s, t, result), c.dim)
  {
    hide GoodBook, Led, Routed, GoodRiding, FlightOf, Conserved, Land, FullResult, Distinct, Tickets, Fallbacks,
      Arrived, Once;
    var f := s.leading[t];
    assert GoodFlight(s.requests, f, c.dim);
    PassengersAreNotReady(s, t);
    forall u | Carries(f, u) ensures u !in s.ready && s.Unanswered(u) {
      CarriesTicket(f, u);
    }
    assert t !in s.answers;
    LandFallbacks(s, t, result);
    LandArrived(s, t, result);
    LandOnce(s, t, result);
    LandDoes(s, t, result);
  }

  lemma NextFates(s: State, s': State, c: Config)
    requires Inv(s, c) && Fates(s, c.dim) && c.Sound() && Next(s, s', c)
    ensures Fates(s', c.dim)
  {
    InvPlaced(s, c);
    hide Inv, Fates, Placed, Submit, LoopHead, Land, Stir, FullResult;
    if qI8, qF32, g :| s' == Submit(s, qI8, qF32, g) {
      SubmitFates(s, qI8, qF32, g, c);
    } else if t :| t in s.awake && s' == LoopHead(s, t, c) {
      LoopHeadFates(s, t, c);
    } else if t, result :| t in s.leading && FullResult(s.leading[t], result) && s' == Land(s, t, result) {
      LandFates(s, t, result, c);
    } else {
      var t :| t in s.asleep && s' == Stir(s, t);
      StirFates(s, t, c);
    }
  }

  lemma InvPlaced(s: State, c: Config)
    requires Inv(s, c)
    ensures Placed(s) && GoodBook(s.requests, s.next) && Routed(s, c.dim)
  {
  }

  lemma {:induction false} RunFates(tr: seq<State>, c: Config, i: nat)
    requires Run(tr, c) && c.Sound() && i < |tr|
    ensures Fates(tr[i], c.dim)
  {
    hide Inv, Next;
    if i == 0 {
      assert tr[0] == INITIAL;
    } else {
      RunFates(tr, c, i - 1);
      RunKeeps(tr, c, i - 1);
      hide Fates;
      NextFates(tr[i - 1], tr[i], c);
    }
  }

  // ------------------------------------------------------------------- results

  /**
   * In every interleaving a call is sent to the fallback path if and only if it led a launch
   * that carried its own query and failed.
   */
  lemma FallbackIffOwnLaunchFailed(tr: seq<State>, c: Config, i: nat, t: Ticket)
    requires Run(tr, c) && c.Sound() && i < |tr|
    ensures t in tr[i].answers && tr[i].answers[t].None? <==>
      exists j ::
        && 0 <= j < |tr[i].log| && tr[i].log[j].leader == t
        && t in Tickets(tr[i].log[j].flight.batch) && tr[i].log[j].result.None?
  {
    RunFates(tr, c, i);
    hide Run, Tickets, Arrived, Once, GoodLog;
    var s := tr[i];
    assert SentBack(s, t) <==> SomeFailedUnder(s.log, t);
    forall j | 0 <= j < |s.log|
      ensures FailedUnder(s.log[j], t) <==>
        s.log[j].leader == t && t in Tickets(s.log[j].flight.batch) && s.log[j].result.None?
    {
    }
  }

  /** The row that the call returned, or that waits for it. */
  ghost predicate Holds(s: State, t: Ticket, rows: Rows) {
    (t in s.answers && s.answers[t] == Some(rows)) || (t in s.ready && s.ready[t] == rows)
  }

  lemma RoutedHolds(s: State, t: Ticket, rows: Rows, dim: nat)
    requires Routed(s, dim) && Holds(s, t, rows)
    ensures t in s.requests && Served(s.log, s.requests[t], rows, dim)
  {
    hide Served;
  }

  lemma {:induction false} SamePosition(rs: seq<Request>, i: nat, j: nat)
    requires Distinct(rs) && i < |rs| && j < |rs| && rs[i].ticket == rs[j].ticket
    ensures i == j
  {
    if i > 0 && j > 0 {
      SamePosition(rs[1..], i - 1, j - 1);
    } else if i > 0 {
      TicketOf(rs[1..], i - 1);
    } else if j > 0 {
      TicketOf(rs[1..], j - 1);
    }
  }

  /** Whatever a passenger of a successful launch holds is the row of its own position. */
  lemma HeldRow(s: State, dim: nat, j: nat, row: nat, rows: Rows)
    requires GoodBook(s.requests, s.next) && Routed(s, dim) && Once(s.log) && GoodLog(s.requests, s.log, dim)
    requires j < |s.log| && s.log[j].result.Some? && row < |s.log[j].flight.batch|
    requires Holds(s, s.log[j].flight.batch[row].ticket, rows)
    ensures s.log[j].result.value.Row(row, s.log[j].flight.geometry.k) == Some(rows)
  {
    hide FlightOf, Routed, GoodBook, Rows.Row, Once, Distinct, Tickets, Served;
    var l := s.log[j];
    var u := l.flight.batch[row].ticket;
    assert GoodFlight(s.requests, l.flight, dim);
    assert l.flight.batch[row] in l.flight.batch;
    var r := s.requests[u];
    RoutedHolds(s, u, rows, dim);
    var j', row' := WhichRow(s.log, r, rows, dim);
    TicketOf(l.flight.batch, row);
    TicketOf(s.log[j'].flight.batch, row');
    assert Brought(l, u) && Brought(s.log[j'], u);
    OnlyOne(s.log, j, j', u);
    SamePosition(l.flight.batch, row, row');
  }

  lemma WhichRow(log: seq<Landed>, r: Request, rows: Rows, dim: nat) returns (j: nat, row: nat)
    requires Served(log, r, rows, dim)
    ensures j < |log| && row < |log[j].flight.batch| && log[j].flight.batch[row] == r
    ensures log[j].result.Some? && log[j].result.value.Row(row, r.geometry.k) == Some(rows)
  {
    hide FlightOf, Rows.Row;
    j, row :| 0 <= j < |log| && 0 <= row < |log[j].flight.batch| && RowFor(log[j], row, r, rows, dim);
  }

  lemma OnlyOne(log: seq<Landed>, j: nat, j': nat, t: Ticket)
    requires Once(log) && j < |log| && j' < |log| && Brought(log[j], t) && Brought(log[j'], t)
    ensures j == j'
  {
    hide Brought;
  }

  /**
   * A launch that succeeds serves everyone aboard, in every interleaving: the call at position
   * `row` of its batch gets the k ids and distances from `row * k` on. The leader has returned
   * with its own; the row of anyone else was returned or waits. No other successful launch ever
   * carries the same query.
   */
  lemma PassengersGetTheirRows(tr: seq<State>, c: Config, i: nat, j: nat, row: nat) returns (rows: Rows)
    requires Run(tr, c) && c.Sound() && i < |tr| && j < |tr[i].log|
    requires tr[i].log[j].result.Some? && row < |tr[i].log[j].flight.batch|
    ensures var s, l := tr[i], tr[i].log[j];
      var u := l.flight.batch[row].ticket;
      && ((u in s.answers && s.answers[u] == Some(rows))
          || (u != l.leader && u !in s.answers && u in s.ready && s.ready[u] == rows))
      && OwnResult(l.result, row * l.flight.geometry.k, l.flight.geometry.k, rows)
      && (forall j' :: 0 <= j' < |s.log| && j' != j && s.log[j'].result.Some? ==> u !in Tickets(s.log[j'].flight.batch))
  {
    RunFates(tr, c, i);
    RunKeeps(tr, c, i);
    InvPlaced(tr[i], c);
    hide Run, Inv, Fallbacks, Once, GoodLog, Routed, Placed, GoodBook, Tickets, OwnResult, Rows.Row;
    var s, l := tr[i], tr[i].log[j];
    var u := l.flight.batch[row].ticket;
    TicketOf(l.flight.batch, row);
    assert Brought(l, u);
    assert HasRow(s, l, u);
    rows := if u in s.answers && s.answers[u].Some? then s.answers[u].value else s.ready[u];
    WaitingIsUnanswered(s, c, u);
    HeldRow(s, c.dim, j, row, rows);
    RowIsResult(l.result.value, row, l.flight.geometry.k, rows);
    forall j' | 0 <= j' < |s.log| && j' != j && s.log[j'].result.Some? ensures u !in Tickets(s.log[j'].flight.batch) {
      if u in Tickets(s.log[j'].flight.batch) {
        OnlyOne(s.log, j, j', u);
      }
    }
  }

  lemma WaitingIsUnanswered(s: State, c: Config, u: Ticket)
    requires Inv(s, c)
    ensures u in s.ready ==> u !in s.answers
  {
    hide GoodRequests, GoodRiding, Led, Routed, Queued;
  }
}
