/**
 * The group-commit batcher for single-query GPU searches. Threads queue their
 * query, then lead a launch for a batch of compatible queries, ride in someone
 * else's launch, or sleep on a condition variable until a launch lands.
 *
 * Every section that holds the coalescer lock is one step; launches run with
 * the lock released, several at a time. A thread is named by its ticket.
 */
module Coalescer {
  import opened Base

  type Ticket = nat
  type I8 = x: int | -128 <= x < 128
  /** Exact query components and distances are only carried, never computed with. */
  type F32 = real

  /** The launch parameters that a batch must agree on. */
  datatype Geometry = Geometry(k: nat, itopk: nat, iters: nat, entry: nat)

  datatype Request = Request(ticket: Ticket, qI8: seq<I8>, qF32: seq<F32>, geometry: Geometry)

  /** A k-wide result: neighbour ids and their distances. */
  datatype Rows = Rows(ids: seq<int>, dists: seq<F32>) {
    /** Row `i` of a launch result, if the result reaches that far. */
    function Row(i: nat, k: nat): (r: Option<Rows>) {
      if i * k + k > |ids| || i * k + k > |dists| then None
      else Some(Rows(ids[i * k..i * k + k], dists[i * k..i * k + k]))
    }
  }

  // -------------------------------------------------------------- the batch

  function Tickets(rs: seq<Request>): set<Ticket> {
    if rs == [] then {} else {rs[0].ticket} + Tickets(rs[1..])
  }

  ghost predicate Distinct(rs: seq<Request>) {
    rs != [] ==> rs[0].ticket !in Tickets(rs[1..]) && Distinct(rs[1..])
  }

  lemma {:induction false} TicketOf(rs: seq<Request>, i: nat)
    requires i < |rs|
    ensures rs[i].ticket in Tickets(rs)
  {
    if i > 0 {
      TicketOf(rs[1..], i - 1);
    }
  }

  lemma {:induction false} WhoseTicket(rs: seq<Request>, t: Ticket) returns (i: nat)
    requires t in Tickets(rs)
    ensures i < |rs| && rs[i].ticket == t
  {
    if rs[0].ticket == t {
      i := 0;
    } else {
      i := WhoseTicket(rs[1..], t);
      i := i + 1;
    }
  }

  lemma {:induction false} Appended(a: seq<Request>, b: seq<Request>)
    ensures Tickets(a + b) == Tickets(a) + Tickets(b)
    ensures Distinct(a) && Distinct(b) && Tickets(a) !! Tickets(b) ==> Distinct(a + b)
    decreases |a|
  {
    if a == [] {
      assert a + b == b;
    } else {
      assert (a + b)[1..] == a[1..] + b;
      Appended(a[1..], b);
    }
  }

  /** Queue order is kept; the first `cap` requests of geometry `g` form the batch. */
  function Split(queue: seq<Request>, g: Geometry, cap: nat): (r: (seq<Request>, seq<Request>))
    ensures |r.0| <= cap && |r.0| + |r.1| == |queue|
    decreases |queue|
  {
    if queue == [] then ([], [])
    else if cap > 0 && queue[0].geometry == g then
      var (batch, keep) := Split(queue[1..], g, cap - 1);
      ([queue[0]] + batch, keep)
    else
      var (batch, keep) := Split(queue[1..], g, cap);
      (batch, [queue[0]] + keep)
  }

  /** The batch and what stays queued share the old queue between them. */
  lemma {:induction false} SplitPartitions(queue: seq<Request>, g: Geometry, cap: nat)
    requires Distinct(queue)
    ensures var (batch, keep) := Split(queue, g, cap);
      && Distinct(batch) && Distinct(keep)
      && Tickets(batch) !! Tickets(keep) && Tickets(batch) + Tickets(keep) == Tickets(queue)
    decreases |queue|
  {
    if queue != [] {
      var rest := queue[1..];
      if cap > 0 && queue[0].geometry == g {
        SplitPartitions(rest, g, cap - 1);
        assert ([queue[0]] + Split(rest, g, cap - 1).0)[1..] == Split(rest, g, cap - 1).0;
      } else {
        SplitPartitions(rest, g, cap);
        assert ([queue[0]] + Split(rest, g, cap).1)[1..] == Split(rest, g, cap).1;
      }
    }
  }

  /**
   * Nothing is invented, the batch agrees on `g`, and a request of that geometry stays queued only if the batch
   * is full.
   */
  lemma {:induction false} SplitMembers(queue: seq<Request>, g: Geometry, cap: nat)
    ensures var (batch, keep) := Split(queue, g, cap);
      && (forall r :: r in batch ==> r in queue && r.geometry == g)
      && (forall r :: r in keep ==> r in queue)
      && (|batch| < cap ==> forall r :: r in keep ==> r.geometry != g)
    decreases |queue|
  {
    if queue != [] {
      SplitMembers(queue[1..], g, if cap > 0 && queue[0].geometry == g then cap - 1 else cap);
    }
  }

  /** The oldest request always rides in the launch it sets the geometry for. */
  lemma HeadRides(queue: seq<Request>, cap: nat)
    requires queue != [] && cap > 0
    ensures var batch := Split(queue, queue[0].geometry, cap).0; batch != [] && batch[0] == queue[0]
  {
  }

  /** The requests of geometry `g`, in queue order. */
  ghost function OfShape(queue: seq<Request>, g: Geometry): seq<Request> {
    if queue == [] then []
    else (if queue[0].geometry == g then [queue[0]] else []) + OfShape(queue[1..], g)
  }

  /** The requests of any other geometry, in queue order. */
  ghost function OffShape(queue: seq<Request>, g: Geometry): seq<Request> {
    if queue == [] then []
    else (if queue[0].geometry == g then [] else [queue[0]]) + OffShape(queue[1..], g)
  }

  /**
   * The batch is the oldest `cap` requests of the geometry, oldest first; what stays has the same
   * requests of other geometries in the same order, and the younger ones of this one.
   */
  lemma {:induction false} SplitTakesOldest(queue: seq<Request>, g: Geometry, cap: nat)
    ensures var (batch, keep), shape := Split(queue, g, cap), OfShape(queue, g);
      && batch == shape[..if cap < |shape| then cap else |shape|]
      && OffShape(keep, g) == OffShape(queue, g)
      && OfShape(keep, g) == shape[|batch|..]
    decreases |queue|
  {
    if queue != [] {
      var rest, shape := queue[1..], OfShape(queue[1..], g);
      var taken := cap > 0 && queue[0].geometry == g;
      SplitTakesOldest(rest, g, if taken then cap - 1 else cap);
      var (batch, keep) := Split(rest, g, if taken then cap - 1 else cap);
      if queue[0].geometry == g {
        assert OfShape(queue, g) == [queue[0]] + shape;
        assert OffShape(queue, g) == OffShape(rest, g);
      } else {
        assert OfShape(queue, g) == shape;
      }
      if !taken {
        assert ([queue[0]] + keep)[1..] == keep;
        if queue[0].geometry == g {
          assert batch == [] && OfShape(keep, g) == shape;
          assert OffShape([queue[0]] + keep, g) == OffShape(keep, g);
        } else {
          assert OfShape([queue[0]] + keep, g) == OfShape(keep, g);
        }
      }
    }
  }

  // -------------------------------------------------------- the query buffers

  /** A query cut or zero-padded to the index dimension. */
  function Fit(q: seq<I8>, dim: nat): (r: seq<I8>)
    ensures |r| == dim
    ensures forall i :: 0 <= i < dim ==> r[i] == if i < |q| then q[i] else 0
  {
    if |q| >= dim then q[..dim] else q + seq(dim - |q|, _ => 0)
  }

  predicate AllExact(batch: seq<Request>, dim: nat) {
    forall r :: r in batch ==> |r.qF32| >= dim
  }

  ghost predicate AllWide<T(!new)>(rows: seq<seq<T>>, dim: nat) {
    forall row :: row in rows ==> |row| == dim
  }

  function Flatten<T>(rows: seq<seq<T>>): seq<T> {
    if rows == [] then [] else Flatten(rows[..|rows| - 1]) + rows[|rows| - 1]
  }

  lemma {:induction false} FlattenLength<T(!new)>(rows: seq<seq<T>>, dim: nat)
    requires AllWide(rows, dim)
    ensures |Flatten(rows)| == |rows| * dim
    decreases |rows|
  {
    if rows != [] {
      var n := |rows| - 1;
      FlattenLength(rows[..n], dim);
      assert rows[n] in rows;
      OneRowMore(n, dim);
    }
  }

  lemma OneRowMore(n: nat, dim: nat)
    ensures (n + 1) * dim == n * dim + dim
  {
  }

  lemma {:induction false} FlattenRow<T(!new)>(rows: seq<seq<T>>, dim: nat, i: nat, lo: nat)
    requires AllWide(rows, dim) && i < |rows| && lo == i * dim
    ensures lo + dim <= |Flatten(rows)| && Flatten(rows)[lo..lo + dim] == rows[i]
    decreases |rows|
  {
    var n := |rows| - 1;
    var front := Flatten(rows[..n]);
    FlattenLength(rows[..n], dim);
    assert rows[n] in rows && |rows[n]| == dim;
    if i < n {
      FlattenRow(rows[..n], dim, i, lo);
      assert (front + rows[n])[lo..lo + dim] == front[lo..lo + dim];
    } else {
      assert lo == |front|;
      assert (front + rows[n])[lo..lo + dim] == rows[n];
    }
  }

  lemma FlattenSnoc<T>(rows: seq<seq<T>>, i: nat)
    requires i < |rows|
    ensures Flatten(rows[..i + 1]) == Flatten(rows[..i]) + rows[i]
  {
    assert rows[..i + 1][..i] == rows[..i];
  }

  function RowsI8(batch: seq<Request>, dim: nat): (rows: seq<seq<I8>>)
    ensures |rows| == |batch| && AllWide(rows, dim)
  {
    seq(|batch|, i requires 0 <= i < |batch| => Fit(batch[i].qI8, dim))
  }

  function RowsF32(batch: seq<Request>, dim: nat): (rows: seq<seq<F32>>)
    requires AllExact(batch, dim)
    ensures |rows| == |batch| && AllWide(rows, dim)
  {
    assert forall i :: 0 <= i < |batch| ==> batch[i] in batch;
    seq(|batch|, i requires 0 <= i < |batch| => batch[i].qF32[..dim])
  }

  /** The first `n` rows of the buffers. */
  function FirstI8(batch: seq<Request>, dim: nat, n: nat): seq<I8>
    requires n <= |batch|
  {
    Flatten(RowsI8(batch[..n], dim))
  }

  function FirstF32(batch: seq<Request>, dim: nat, n: nat): seq<F32>
    requires n <= |batch| && AllExact(batch, dim)
  {
    assert forall r :: r in batch[..n] ==> r in batch;
    Flatten(RowsF32(batch[..n], dim))
  }

  lemma NextRowI8(batch: seq<Request>, dim: nat, i: nat)
    requires i < |batch|
    ensures FirstI8(batch, dim, i + 1) == FirstI8(batch, dim, i) + Fit(batch[i].qI8, dim)
  {
    var rows := RowsI8(batch[..i + 1], dim);
    FlattenSnoc(rows, i);
    assert rows[..i] == RowsI8(batch[..i], dim) && rows[..i + 1] == rows;
  }

  lemma NextRowF32(batch: seq<Request>, dim: nat, i: nat)
    requires i < |batch| && AllExact(batch, dim)
    ensures dim <= |batch[i].qF32| && FirstF32(batch, dim, i + 1) == FirstF32(batch, dim, i) + batch[i].qF32[..dim]
  {
    assert batch[i] in batch;
    var rows := RowsF32(batch[..i + 1], dim);
    FlattenSnoc(rows, i);
    assert rows[..i] == RowsF32(batch[..i], dim) && rows[..i + 1] == rows;
  }

  lemma RowsEnd(batch: seq<Request>, dim: nat)
    ensures FirstI8(batch, dim, 0) == [] && FirstI8(batch, dim, |batch|) == Flatten(RowsI8(batch, dim))
    ensures AllExact(batch, dim) ==>
      FirstF32(batch, dim, 0) == [] && FirstF32(batch, dim, |batch|) == Flatten(RowsF32(batch, dim))
  {
    assert batch[..|batch|] == batch;
  }

  /** A query padded or cut to `dim`. */
  method Pad(q: seq<I8>, dim: nat) returns (row: seq<I8>)
    ensures row == Fit(q, dim)
  {
    var take := if dim < |q| then dim else |q|;
    row := q[..take] + seq(dim - take, _ => 0);
  }

  /**
   * Lay the batch out row by row, padding each so that later rows do not
   * shift; exact queries go along only if every member has one.
   */
  method BuildQueries(batch: seq<Request>, dim: nat) returns (qI8: seq<I8>, qF32: seq<F32>)
    ensures qI8 == Flatten(RowsI8(batch, dim))
    ensures qF32 == if AllExact(batch, dim) then Flatten(RowsF32(batch, dim)) else []
  {
    qI8, qF32 := [], [];
    var exact := forall r | r in batch :: |r.qF32| >= dim;
    assert exact == AllExact(batch, dim);
    RowsEnd(batch, dim);
    hide Flatten, RowsI8, RowsF32, AllExact, FirstI8, FirstF32, Fit;
    var i := 0;
    while i < |batch|
      invariant 0 <= i <= |batch|
      invariant qI8 == FirstI8(batch, dim, i)
      invariant qF32 == if exact then FirstF32(batch, dim, i) else []
    {
      var row := Pad(batch[i].qI8, dim);
      NextRowI8(batch, dim, i);
      qI8 := qI8 + row;
      if exact {
        NextRowF32(batch, dim, i);
        qF32 := qF32 + batch[i].qF32[..dim];
      }
      i := i + 1;
    }
  }

  // ------------------------------------------------------------- the protocol

  /** A batch in flight, with the buffers built for its launch. */
  datatype Flight = Flight(batch: seq<Request>, geometry: Geometry, qI8: seq<I8>, qF32: seq<F32>)

  /** A launch that has landed, and whose it was; None means the device failed. */
  datatype Landed = Landed(flight: Flight, leader: Ticket, result: Option<Rows>)

  /**
   * The locked state (`pending`, `ready`, `next`, `leaders`), where every
   * calling thread is, and what happened: `riding` says in whose launch a
   * request is, `answers` what each call returned (None sends the caller to the
   * fallback path), `requests` what was asked, `log` every landed launch.
   */
  datatype State = State(
    pending: seq<Request>,
    ready: map<Ticket, Rows>,
    next: Ticket,
    leaders: nat,
    awake: set<Ticket>,
    asleep: set<Ticket>,
    leading: map<Ticket, Flight>,
    riding: map<Ticket, Ticket>,
    answers: map<Ticket, Option<Rows>>,
    requests: map<Ticket, Request>,
    log: seq<Landed>
  ) {
    /** A call that has not returned. */
    predicate Unanswered(t: Ticket) { t in awake || t in asleep || t in leading }
  }

  const INITIAL := State([], map[], 0, 0, {}, {}, map[], map[], map[], map[], [])

  /** Fixed at index upload: leaders allowed at once, batch width, dimension. */
  datatype Config = Config(maxLeaders: nat, cap: nat, dim: nat) {
    predicate Sound() { maxLeaders > 0 && cap > 0 }
  }

  function FlightOf(batch: seq<Request>, g: Geometry, dim: nat): Flight {
    Flight(batch, g, Flatten(RowsI8(batch, dim)),
           if AllExact(batch, dim) then Flatten(RowsF32(batch, dim)) else [])
  }

  function Aboard(batch: seq<Request>, leader: Ticket): map<Ticket, Ticket> {
    map t | t in Tickets(batch) :: leader
  }

  /** A call arrives: its query joins the queue under a fresh ticket. */
  function Submit(s: State, qI8: seq<I8>, qF32: seq<F32>, g: Geometry): State {
    var r := Request(s.next, qI8, qF32, g);
    s.(pending := s.pending + [r], next := s.next + 1, awake := s.awake + {s.next},
       requests := s.requests[s.next := r])
  }

  /** Ticket `t` at the head of its loop with the lock: return, sleep, or lead a launch. */
  function LoopHead(s: State, t: Ticket, c: Config): State {
    var q := s.(awake := s.awake - {t});
    if t in s.ready then
      q.(ready := s.ready - {t}, answers := s.answers[t := Some(s.ready[t])])
    else if s.leaders >= c.maxLeaders || s.pending == [] then
      q.(asleep := s.asleep + {t})
    else
      var g := s.pending[0].geometry;
      var (batch, keep) := Split(s.pending, g, c.cap);
      q.(pending := keep, leaders := s.leaders + 1,
         leading := s.leading[t := FlightOf(batch, g, c.dim)],
         riding := s.riding + Aboard(batch, t))
  }

  /** Rows of a result, in batch order, for everyone but `me`; stops where the result ends. */
  function Deliver(ready: map<Ticket, Rows>, batch: seq<Request>, i: nat, k: nat, all: Rows,
                   me: Ticket): map<Ticket, Rows>
    decreases |batch| - i
  {
    if i >= |batch| then ready
    else match all.Row(i, k)
      case None => ready
      case Some(row) =>
        Deliver(if batch[i].ticket == me then ready else ready[batch[i].ticket := row], batch, i + 1, k, all, me)
  }

  /** The leader's own row, if its query was in the batch and the result reaches it. */
  function Mine(batch: seq<Request>, i: nat, k: nat, all: Rows, me: Ticket): Option<Rows>
    decreases |batch| - i
  {
    if i >= |batch| then None
    else match all.Row(i, k)
      case None => None
      case Some(row) => if batch[i].ticket == me then Some(row) else Mine(batch, i + 1, k, all, me)
  }

  function Others(batch: seq<Request>, me: Ticket): seq<Request> {
    if batch == [] then []
    else (if batch[0].ticket == me then [] else [batch[0]]) + Others(batch[1..], me)
  }

  /**
   * The launch of leader `t` is over: hand out the rows, or queue the others
   * again if it failed; wake everyone; return if the own query was aboard.
   */
  function Land(s: State, t: Ticket, result: Option<Rows>): State
    requires t in s.leading
  {
    var f := s.leading[t];
    var q := s.(leaders := if s.leaders > 0 then s.leaders - 1 else 0,
                leading := s.leading - {t},
                riding := s.riding - Tickets(f.batch),
                ready := match result
                         case Some(all) => Deliver(s.ready, f.batch, 0, f.geometry.k, all, t)
                         case None => s.ready,
                pending := if result.Some? then s.pending else s.pending + Others(f.batch, t),
                asleep := {},
                log := s.log + [Landed(f, t, result)]);
    if t in Tickets(f.batch) then
      q.(awake := s.awake + s.asleep,
         answers := s.answers[t := if result.Some? then Mine(f.batch, 0, f.geometry.k, result.value, t) else None])
    else
      q.(awake := s.awake + s.asleep + {t})
  }

  /** A sleeping thread wakes without being notified. */
  function Stir(s: State, t: Ticket): State {
    s.(asleep := s.asleep - {t}, awake := s.awake + {t})
  }

  /** What a launch of `n` queries returns: failure, or `k` ids and distances for every query. */
  predicate FullResult(f: Flight, result: Option<Rows>) {
    result.Some? ==> |result.value.ids| == |result.value.dists| == |f.batch| * f.geometry.k
  }

  ghost predicate Next(s: State, s': State, c: Config) {
    || (exists qI8, qF32, g :: s' == Submit(s, qI8, qF32, g))
    || (exists t :: t in s.awake && s' == LoopHead(s, t, c))
    || (exists t, result :: t in s.leading && FullResult(s.leading[t], result) && s' == Land(s, t, result))
    || (exists t :: t in s.asleep && s' == Stir(s, t))
  }

  ghost predicate Run(tr: seq<State>, c: Config) {
    |tr| > 0 && tr[0] == INITIAL && forall i :: 0 < i < |tr| ==> Next(tr[i - 1], tr[i], c)
  }

  // ------------------------------------------------------------ the shared object

  /** What a turn of a caller's loop decided. */
  datatype Outcome =
    | Return(rows: Rows)
    | Wait
    | Lead(batch: seq<Request>, geometry: Geometry, qI8: seq<I8>, qF32: seq<F32>)

  /** `batch` and `keep` are what the first `i` requests of the queue went to. */
  ghost predicate Parted(queue: seq<Request>, g: Geometry, cap: nat, i: nat, batch: seq<Request>, keep: seq<Request>) {
    && i <= |queue| && |batch| <= cap
    && var (more, stay) := Split(queue[i..], g, cap - |batch|);
       Split(queue, g, cap) == (batch + more, keep + stay)
  }

  lemma PartedEnds(queue: seq<Request>, g: Geometry, cap: nat)
    ensures Parted(queue, g, cap, 0, [], [])
    ensures forall batch, keep :: Parted(queue, g, cap, |queue|, batch, keep) ==> Split(queue, g, cap) == (batch, keep)
  {
    assert queue[0..] == queue && queue[|queue|..] == [];
    var (batch, keep) := Split(queue, g, cap);
    assert [] + batch == batch && [] + keep == keep;
    forall batch, keep | Parted(queue, g, cap, |queue|, batch, keep) ensures Split(queue, g, cap) == (batch, keep) {
      assert batch + [] == batch && keep + [] == keep;
    }
  }

  lemma PartedNext(queue: seq<Request>, g: Geometry, cap: nat, i: nat, batch: seq<Request>, keep: seq<Request>)
    requires Parted(queue, g, cap, i, batch, keep) && i < |queue|
    ensures if |batch| < cap && queue[i].geometry == g then Parted(queue, g, cap, i + 1, batch + [queue[i]], keep)
            else Parted(queue, g, cap, i + 1, batch, keep + [queue[i]])
  {
    var q := queue[i];
    assert queue[i..][1..] == queue[i + 1..] && queue[i..][0] == q;
    var taken := if |batch| < cap && q.geometry == g then 1 else 0;
    var (more, stay) := Split(queue[i + 1..], g, cap - |batch| - taken);
    assert batch + ([q] + more) == (batch + [q]) + more;
    assert keep + ([q] + stay) == (keep + [q]) + stay;
  }

  /** Move the first `cap` requests of geometry `g` out of the queue. */
  method DrainBatch(queue: seq<Request>, g: Geometry, cap: nat) returns (batch: seq<Request>, keep: seq<Request>)
    ensures (batch, keep) == Split(queue, g, cap)
  {
    hide Split, Parted;
    batch, keep := [], [];
    PartedEnds(queue, g, cap);
    var i := 0;
    while i < |queue|
      invariant 0 <= i <= |queue| && Parted(queue, g, cap, i, batch, keep)
    {
      PartedNext(queue, g, cap, i, batch, keep);
      if |batch| < cap && queue[i].geometry == g {
        batch := batch + [queue[i]];
      } else {
        keep := keep + [queue[i]];
      }
      i := i + 1;
    }
  }

  /** Rows `0..i` have been handed out. */
  ghost predicate Dealt(ready: map<Ticket, Rows>, ready': map<Ticket, Rows>, mine: Option<Rows>,
                        batch: seq<Request>, i: nat, k: nat, all: Rows, me: Ticket) {
    && i <= |batch| && Distinct(batch[i..])
    && Deliver(ready, batch, 0, k, all, me) == Deliver(ready', batch, i, k, all, me)
    && (mine.None? ==> Mine(batch, 0, k, all, me) == Mine(batch, i, k, all, me))
    && (mine.Some? ==> mine == Mine(batch, 0, k, all, me) && me !in Tickets(batch[i..]))
  }

  lemma DealtNothing(ready: map<Ticket, Rows>, batch: seq<Request>, k: nat, all: Rows, me: Ticket)
    requires Distinct(batch)
    ensures Dealt(ready, ready, None, batch, 0, k, all, me)
  {
    assert batch[0..] == batch;
  }

  lemma DealtNext(ready: map<Ticket, Rows>, ready': map<Ticket, Rows>, mine: Option<Rows>,
                  batch: seq<Request>, i: nat, k: nat, all: Rows, me: Ticket, row: Rows)
    requires Dealt(ready, ready', mine, batch, i, k, all, me) && i < |batch| && all.Row(i, k) == Some(row)
    ensures if batch[i].ticket == me then Dealt(ready, ready', Some(row), batch, i + 1, k, all, me)
            else Dealt(ready, ready'[batch[i].ticket := row], mine, batch, i + 1, k, all, me)
  {
    hide Rows.Row;
    assert batch[i..][1..] == batch[i + 1..] && batch[i..][0] == batch[i];
  }

  lemma DealtAll(ready: map<Ticket, Rows>, ready': map<Ticket, Rows>, mine: Option<Rows>,
                 batch: seq<Request>, i: nat, k: nat, all: Rows, me: Ticket)
    requires Dealt(ready, ready', mine, batch, i, k, all, me) && (i == |batch| || all.Row(i, k).None?)
    ensures ready' == Deliver(ready, batch, 0, k, all, me) && mine == Mine(batch, 0, k, all, me)
  {
    hide Rows.Row;
  }

  /** One caller of the batch has been handed its row, if there was one. */
  ghost predicate Handed(ready: map<Ticket, Rows>, ready': map<Ticket, Rows>, mine: Option<Rows>,
                         u: Ticket, row: Option<Rows>, me: Ticket) {
    if u == me then mine == row
    else if row.Some? then u in ready' && ready'[u] == row.value
    else Untouched(ready, ready', u)
  }

  ghost predicate Untouched(ready: map<Ticket, Rows>, ready': map<Ticket, Rows>, u: Ticket) {
    (u in ready' <==> u in ready) && (u in ready ==> ready'[u] == ready[u])
  }

  /** Every caller of the batch was handed the row of its own position, and nobody else anything. */
  ghost predicate AllHanded(ready: map<Ticket, Rows>, ready': map<Ticket, Rows>, mine: Option<Rows>,
                         batch: seq<Request>, k: nat, all: Rows, me: Ticket) {
    && (forall i :: 0 <= i < |batch| ==> Handed(ready, ready', mine, batch[i].ticket, all.Row(i, k), me))
    && (forall u :: u !in Tickets(batch) || u == me ==> Untouched(ready, ready', u))
  }

  /** Row `j` exists whenever a later one does. */
  lemma RowsAreContiguous(all: Rows, j: nat, i: nat, k: nat)
    requires j <= i && all.Row(i, k).Some?
    ensures all.Row(j, k).Some?
  {
    assert j * k + k <= i * k + k;
  }

  lemma {:induction false} MineAt(batch: seq<Request>, from: nat, i: nat, k: nat, all: Rows)
    requires from <= i < |batch| && Distinct(batch[from..])
    ensures Mine(batch, from, k, all, batch[i].ticket) == all.Row(i, k)
    decreases |batch| - from
  {
    assert batch[from..][1..] == batch[from + 1..] && batch[from..][0] == batch[from];
    if all.Row(i, k).Some? {
      RowsAreContiguous(all, from, i, k);
    }
    if from < i {
      TicketOf(batch[from + 1..], i - from - 1);
      MineAt(batch, from + 1, i, k, all);
    }
  }

  /** The rows go to the callers of the batch and to nobody else. */
  lemma {:induction false} DeliverElse(ready: map<Ticket, Rows>, batch: seq<Request>, from: nat, k: nat, all: Rows,
                                       me: Ticket, u: Ticket)
    requires u == me || forall i :: from <= i < |batch| ==> batch[i].ticket != u
    ensures Untouched(ready, Deliver(ready, batch, from, k, all, me), u)
    decreases |batch| - from
  {
    if from < |batch| && all.Row(from, k).Some? {
      DeliverElse(if batch[from].ticket == me then ready else ready[batch[from].ticket := all.Row(from, k).value],
                  batch, from + 1, k, all, me, u);
    }
  }

  lemma {:induction false} DeliverAt(ready: map<Ticket, Rows>, batch: seq<Request>, from: nat, i: nat, k: nat,
                                     all: Rows, me: Ticket)
    requires from <= i < |batch| && Distinct(batch[from..]) && batch[i].ticket != me
    ensures Handed(ready, Deliver(ready, batch, from, k, all, me), None, batch[i].ticket, all.Row(i, k), me)
    decreases |batch| - from
  {
    assert batch[from..][1..] == batch[from + 1..] && batch[from..][0] == batch[from];
    if all.Row(i, k).Some? {
      RowsAreContiguous(all, from, i, k);
    }
    if all.Row(from, k).Some? {
      var next := if batch[from].ticket == me then ready else ready[batch[from].ticket := all.Row(from, k).value];
      if from < i {
        TicketOf(batch[from + 1..], i - from - 1);
        DeliverAt(next, batch, from + 1, i, k, all, me);
      } else {
        forall j | from + 1 <= j < |batch| ensures batch[j].ticket != batch[i].ticket {
          TicketOf(batch[from + 1..], j - from - 1);
        }
        DeliverElse(next, batch, from + 1, k, all, me, batch[i].ticket);
      }
    }
  }

  lemma AllServed(ready: map<Ticket, Rows>, batch: seq<Request>, k: nat, all: Rows, me: Ticket)
    requires Distinct(batch)
    ensures AllHanded(ready, Deliver(ready, batch, 0, k, all, me), Mine(batch, 0, k, all, me), batch, k, all, me)
  {
    hide Deliver, Mine, Distinct, Rows.Row;
    assert batch[0..] == batch;
    var ready', mine := Deliver(ready, batch, 0, k, all, me), Mine(batch, 0, k, all, me);
    forall i | 0 <= i < |batch| ensures Handed(ready, ready', mine, batch[i].ticket, all.Row(i, k), me) {
      if batch[i].ticket == me {
        MineAt(batch, 0, i, k, all);
      } else {
        DeliverAt(ready, batch, 0, i, k, all, me);
      }
    }
    forall u | u !in Tickets(batch) || u == me ensures Untouched(ready, ready', u) {
      forall i | 0 <= i < |batch| ensures batch[i].ticket in Tickets(batch) {
        TicketOf(batch, i);
      }
      DeliverElse(ready, batch, 0, k, all, me, u);
    }
  }

  /** Cut the launch result into rows, stopping where it ends. */
  method HandOut(ready: map<Ticket, Rows>, batch: seq<Request>, k: nat, all: Rows, me: Ticket)
    returns (ready': map<Ticket, Rows>, mine: Option<Rows>)
    requires Distinct(batch)
    ensures ready' == Deliver(ready, batch, 0, k, all, me)
    ensures mine == Mine(batch, 0, k, all, me)
    ensures AllHanded(ready, ready', mine, batch, k, all, me)
  {
    ready', mine := ready, None;
    AllServed(ready, batch, k, all, me);
    DealtNothing(ready, batch, k, all, me);
    hide Dealt, AllHanded, Deliver, Mine, Distinct, Tickets, Rows.Row;
    var i := 0;
    while i < |batch| && all.Row(i, k).Some?
      invariant 0 <= i <= |batch| && Dealt(ready, ready', mine, batch, i, k, all, me)
      decreases |batch| - i
    {
      var row := all.Row(i, k).value;
      DealtNext(ready, ready', mine, batch, i, k, all, me, row);
      if batch[i].ticket == me {
        mine := Some(row);
      } else {
        ready' := ready'[batch[i].ticket := row];
      }
      i := i + 1;
    }
    DealtAll(ready, ready', mine, batch, i, k, all, me);
  }

  /** The queue, with the batch but for the request of `me` behind it. */
  ghost predicate BackInQueue(queue: seq<Request>, queue': seq<Request>, batch: seq<Request>, me: Ticket) {
    && queue <= queue'
    && forall r :: r in queue'[|queue|..] <==> r in batch && r.ticket != me
  }

  lemma {:induction false} OthersAre(batch: seq<Request>, me: Ticket)
    ensures forall r :: r in Others(batch, me) <==> r in batch && r.ticket != me
  {
    if batch != [] {
      OthersAre(batch[1..], me);
      assert forall r :: r in batch <==> r == batch[0] || r in batch[1..];
    }
  }

  method Requeue(queue: seq<Request>, batch: seq<Request>, me: Ticket) returns (r: seq<Request>)
    ensures r == queue + Others(batch, me)
    ensures BackInQueue(queue, r, batch, me)
  {
    OthersAre(batch, me);
    r := queue;
    var i := 0;
    while i < |batch|
      invariant 0 <= i <= |batch|
      invariant r + Others(batch[i..], me) == queue + Others(batch, me)
    {
      assert batch[i..][1..] == batch[i + 1..] && batch[i..][0] == batch[i];
      if batch[i].ticket != me {
        assert r + ([batch[i]] + Others(batch[i + 1..], me)) == (r + [batch[i]]) + Others(batch[i + 1..], me);
        r := r + [batch[i]];
      }
      i := i + 1;
    }
  }

  /**
   * `pending`, `ready`, `next` and `leaders` are the state under the lock; the
   * ghost fields say where the calls are. Each method is one locked section.
   */
  class QueryCoalescer {
    const config: Config
    var pending: seq<Request>
    var ready: map<Ticket, Rows>
    var next: Ticket
    var leaders: nat
    ghost var awake: set<Ticket>
    ghost var asleep: set<Ticket>
    ghost var leading: map<Ticket, Flight>
    ghost var riding: map<Ticket, Ticket>
    ghost var answers: map<Ticket, Option<Rows>>
    ghost var requests: map<Ticket, Request>
    ghost var log: seq<Landed>

    ghost function Now(): State
      reads this
    {
      State(pending, ready, next, leaders, awake, asleep, leading, riding, answers, requests, log)
    }

    constructor (config: Config)
      ensures Now() == INITIAL && this.config == config
    {
      this.config := config;
      pending, ready, next, leaders := [], map[], 0, 0;
      awake, asleep, leading, riding := {}, {}, map[], map[];
      answers, requests, log := map[], map[], [];
    }

    /** A search call queues its query. */
    method Enqueue(qI8: seq<I8>, qF32: seq<F32>, g: Geometry) returns (ticket: Ticket)
      modifies this
      ensures Now() == Submit(old(Now()), qI8, qF32, g) && ticket == old(next)
    {
      ticket := next;
      next := next + 1;
      var r := Request(ticket, qI8, qF32, g);
      pending := pending + [r];
      awake, requests := awake + {ticket}, requests[ticket := r];
    }

    /** The head of the call's loop. */
    method Turn(t: Ticket) returns (outcome: Outcome)
      requires t in awake
      modifies this
      ensures Now() == LoopHead(old(Now()), t, config)
      ensures outcome.Return? <==> t in old(ready)
      ensures outcome.Return? ==> outcome.rows == old(ready)[t] && t in answers && answers[t] == Some(outcome.rows)
      ensures outcome.Wait? <==> t !in old(ready) && (old(leaders) >= config.maxLeaders || old(pending) == [])
      ensures outcome.Wait? ==> t in asleep
      ensures outcome.Lead? ==>
        && outcome.geometry == old(pending)[0].geometry
        && var shape := OfShape(old(pending), outcome.geometry);
           outcome.batch == shape[..if config.cap < |shape| then config.cap else |shape|]
      ensures outcome.Lead? ==>
        t in leading && leading[t] == Flight(outcome.batch, outcome.geometry, outcome.qI8, outcome.qF32)
    {
      hide Split, Flatten, AllExact, RowsI8, RowsF32, Aboard, OfShape;
      awake := awake - {t};
      if t in ready {
        outcome := Return(ready[t]);
        answers := answers[t := Some(ready[t])];
        ready := ready - {t};
      } else if leaders >= config.maxLeaders || pending == [] {
        outcome := Wait;
        asleep := asleep + {t};
      } else {
        outcome := TakeLead(t);
      }
    }

    /** Drain a batch from the queue and prepare its launch. */
    method TakeLead(t: Ticket) returns (outcome: Outcome)
      requires pending != []
      modifies this`pending, this`leaders, this`leading, this`riding
      ensures var g := old(pending)[0].geometry;
        var (batch, keep) := Split(old(pending), g, config.cap);
        && pending == keep && leaders == old(leaders) + 1
        && leading == old(leading)[t := FlightOf(batch, g, config.dim)] && riding == old(riding) + Aboard(batch, t)
      ensures outcome.Lead? && t in leading && leading[t] ==
        Flight(outcome.batch, outcome.geometry, outcome.qI8, outcome.qF32)
      ensures outcome.geometry == old(pending)[0].geometry
      ensures var shape := OfShape(old(pending), outcome.geometry);
        outcome.batch == shape[..if config.cap < |shape| then config.cap else |shape|]
    {
      hide Split, Flatten, AllExact, RowsI8, RowsF32, Aboard, OfShape, OffShape;
      SplitTakesOldest(pending, pending[0].geometry, config.cap);
      var g := pending[0].geometry;
      var batch, keep := DrainBatch(pending, g, config.cap);
      pending := keep;
      var qI8, qF32 := BuildQueries(batch, config.dim);
      leaders := leaders + 1;
      Boards(t, Flight(batch, g, qI8, qF32));
      outcome := Lead(batch, g, qI8, qF32);
    }

    /** The leader takes its batch into flight. */
    ghost method Boards(t: Ticket, f: Flight)
      modifies this`leading, this`riding
      ensures leading == old(leading)[t := f] && riding == old(riding) + Aboard(f.batch, t)
    {
      hide Aboard;
      leading, riding := leading[t := f], riding + Aboard(f.batch, t);
    }

    /**
     * The launch returned: `answered` is false only for a leader whose own
     * query was not aboard, which goes round its loop again.
     */
    method AfterLaunch(t: Ticket, batch: seq<Request>, g: Geometry, result: Option<Rows>)
      returns (answered: bool, mine: Option<Rows>)
      requires t in leading && leading[t].batch == batch && leading[t].geometry == g
      requires Distinct(batch) && leaders > 0
      modifies this
      ensures Now() == Land(old(Now()), t, result)
      ensures answered <==> exists r :: r in batch && r.ticket == t
      ensures answered ==> t in answers && answers[t] == mine
      ensures log == old(log) + [Landed(old(leading)[t], t, result)]
      ensures leaders == old(leaders) - 1 && asleep == {}
      ensures result.None? ==> mine.None? && ready == old(ready) && BackInQueue(old(pending), pending, batch, t)
      ensures result.Some? ==>
        pending == old(pending) && AllHanded(old(ready), ready, mine, batch, g.k, result.value, t)
    {
      hide Tickets, Deliver, Mine, Others, Distinct, AllHanded, BackInQueue;
      leaders := leaders - 1;
      mine := None;
      match result {
        case Some(all) =>
          ready, mine := HandOut(ready, batch, g.k, all, t);
        case None =>
          pending := Requeue(pending, batch, t);
      }
      answered := exists r :: r in batch && r.ticket == t;
      Boarded(batch, t);
      Notified(t, result, answered, mine);
    }

    /** Everyone asleep is woken, and the leader leaves with its answer or goes round again. */
    ghost method Notified(t: Ticket, result: Option<Rows>, answered: bool, mine: Option<Rows>)
      requires t in leading
      modifies this`awake, this`asleep, this`leading, this`riding, this`answers, this`log
      ensures leading == old(leading) - {t} && riding == old(riding) - Tickets(old(leading)[t].batch)
      ensures log == old(log) + [Landed(old(leading)[t], t, result)]
      ensures asleep == {} && awake == if answered then old(awake) + old(asleep) else old(awake) + old(asleep) + {t}
      ensures answers == if answered then old(answers)[t := mine] else old(answers)
    {
      hide Tickets;
      log, leading, riding := log + [Landed(leading[t], t, result)], leading - {t}, riding - Tickets(leading[t].batch);
      awake, asleep := if answered then awake + asleep else awake + asleep + {t}, {};
      if answered {
        answers := answers[t := mine];
      }
    }
  }

  lemma Boarded(batch: seq<Request>, t: Ticket)
    ensures (exists r :: r in batch && r.ticket == t) <==> t in Tickets(batch)
  {
    if r :| r in batch && r.ticket == t {
      var i :| 0 <= i < |batch| && batch[i] == r;
      TicketOf(batch, i);
    }
    if t in Tickets(batch) {
      var i := WhoseTicket(batch, t);
      assert batch[i] in batch;
    }
  }
}
