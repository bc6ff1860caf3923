/**
 * What every run of the event loop keeps: bytes written are a prefix of the
 * replies, commands run once and in arrival order, a session has one holder,
 * and stale completions and events touch nobody.
 */
module EventLoopSafety {
  import opened Base
  import opened Resp
  import opened Chunks
  import opened Intake
  import opened EventLoop

  // ------------------------------------------------------------ the invariant, piece by piece

  /** The history of a socket makes sense by itself, whoever holds the connection. */
  ghost predicate History(s: Sock) {
    && s.written <= Produced(s.said)
    && Executed(s.said) <= Drain(s.received).cmds
    && Chained(s.born, s.said)
    && s.session == LastSession(s.born, s.said)
  }

  /** The input received is what ran, then `todo`, then the unparsed rest. */
  ghost predicate Accounted(s: Sock, todo: seq<Args>, rest: bytes) {
    Took(s.received, Executed(s.said) + todo, rest)
  }

  /** After a batch that ended like this, the rest of the input still counts. */
  ghost predicate AccountedAfter(s: Sock, end: Option<End>, rest: bytes) {
    match end
    case None => Accounted(s, [], rest)
    case Some(Continue) => Accounted(s, [], rest)
    case Some(Subscribe(cmds)) => Accounted(s, cmds, rest)
    case _ => true
  }

  /** A connection in the loop's hands: everything said is written or pending. */
  ghost predicate Active(c: Conn, s: Sock) {
    && c.wpos <= |c.wbuf|
    && !c.muted
    && c.st == Some(s.session)
    && Produced(s.said) == s.written + c.Pending()
    && ((c.closing && c.ended.None?) || AccountedAfter(s, c.ended, c.rbuf))
  }

  /** A batch of the connection is out: the loop holds no input and no reply of it, only earlier output. */
  ghost predicate Paused(c: Conn, j: Job, s: Sock) {
    && c.wpos <= |c.wbuf|
    && c.st.None? && !c.closing && c.ended.None?
    && c.rbuf == []
    && c.muted == j.direct
    && (j.direct ==> c.Pending() == [])
    && Produced(s.said) == s.written + (c.Pending() + j.out)
  }

  ghost predicate JobInput(j: Job, s: Sock) {
    && j.st == s.session
    && match j.end
       case None => Accounted(s, j.todo, j.rbuf)
       case Some(e) => AccountedAfter(s, j.end, j.rbuf)
  }

  ghost predicate HandedOk(h: Handed, s: Sock) {
    && h.st == s.session
    && Produced(s.said) == s.written + h.out
    && (!h.sync ==> Accounted(s, h.cmds, h.rbuf))
  }

  ghost predicate ConnOk(c: Conn, slot: nat, jobs: map<JobId, Job>, socks: map<Sid, Sock>) {
    && c.sid in socks
    && var s := socks[c.sid];
       && !s.shut
       && if c.st.Some? then s.owner == Slot(slot) && Active(c, s)
          else
            && s.owner.Batch? && s.owner.job in jobs
            && var j := jobs[s.owner.job];
               j.slot == slot && j.gen == c.gen && Paused(c, j, s)
  }

  ghost predicate JobOk(j: Job, id: JobId, conns: seq<Option<Conn>>, gens: seq<Gen>, socks: map<Sid, Sock>) {
    && j.sid in socks
    && var s := socks[j.sid];
       && s.owner == Batch(id)
       && JobInput(j, s)
       && j.slot < |conns| == |gens|
       && j.gen <= gens[j.slot]
       && (j.gen < gens[j.slot] ==> s.shut)
       && (j.gen == gens[j.slot] ==>
             conns[j.slot].Some? && conns[j.slot].value.sid == j.sid && conns[j.slot].value.st.None?)
  }

  ghost predicate Slots(w: World) {
    && |w.conns| == |w.gens|
    && (forall i :: 0 <= i < |w.conns| && w.conns[i].Some? ==> w.conns[i].value.gen == w.gens[i])
    && (forall i :: 0 <= i < |w.free| ==> w.free[i] < |w.conns| && w.conns[w.free[i]].None?)
    && (forall i, k :: 0 <= i < k < |w.free| ==> w.free[i] != w.free[k])
    && (forall i :: 0 <= i < |w.conns| && w.conns[i].None? ==> i in w.free)
  }

  ghost predicate Conns(w: World) {
    forall i :: 0 <= i < |w.conns| && w.conns[i].Some? ==> ConnOk(w.conns[i].value, i, w.jobs, w.socks)
  }

  ghost predicate Jobs(w: World) {
    forall id :: id in w.jobs ==> JobOk(w.jobs[id], id, w.conns, w.gens, w.socks)
  }

  ghost predicate Handeds(w: World) {
    forall sid :: sid in w.dedicated ==>
      sid in w.socks && w.socks[sid].owner == Dedicated && HandedOk(w.dedicated[sid], w.socks[sid])
  }

  ghost predicate Histories(w: World) {
    forall sid :: sid in w.socks ==> History(w.socks[sid])
  }

  /** The completion list holds every delivered batch once. */
  ghost predicate Done(done: seq<JobId>, jobs: map<JobId, Job>) {
    && (forall i :: 0 <= i < |done| ==> done[i] in jobs && jobs[done[i]].back && jobs[done[i]].end.Some?)
    && (forall i, k :: 0 <= i < k < |done| ==> done[i] != done[k])
    && (forall id :: id in jobs && jobs[id].back ==> id in done)
  }

  ghost predicate Inv(w: World) {
    Slots(w) && Conns(w) && Jobs(w) && Handeds(w) && Histories(w) && Done(w.done, w.jobs)
  }

  // ------------------------------------------------------------ histories

  lemma ProducedSnoc(said: seq<Event>, e: Event)
    ensures Produced(said + [e]) == Produced(said) + e.reply
    ensures Executed(said + [e]) == Executed(said) + match e case Ran(cmds, _, _, _, _) => cmds case Refused(_) => []
  {
    assert (said + [e])[..|said|] == said;
  }

  lemma ChainedSnoc(born: Session, said: seq<Event>, e: Event)
    requires Chained(born, said) && (e.Ran? ==> e.before == LastSession(born, said))
    ensures Chained(born, said + [e])
    ensures LastSession(born, said + [e]) == if e.Ran? then e.after else LastSession(born, said)
  {
    assert (said + [e])[..|said|] == said;
  }

  /** What ran is found in the input as long as it is followed by something accounted for. */
  lemma RanArrived(s: Sock, ran: seq<Args>, todo: seq<Args>, rest: bytes)
    requires Accounted(s, todo, rest) && ran <= todo
    ensures Executed(s.said) + ran <= Drain(s.received).cmds
  {
    hide Took, Drain, Executed;
    TookSplits(s.received, Executed(s.said) + todo, rest);
    assert todo == ran + todo[|ran|..];
    assert Executed(s.said) + todo + Drain(rest).cmds == (Executed(s.said) + ran) + (todo[|ran|..] + Drain(rest).cmds);
  }

  /** A socket after a batch ran for it. */
  function AfterRun(s: Sock, o: Outcome): Sock {
    s.(said := s.said + [Ran(o.ran, s.session, o.after, o.reply, o.end)], session := o.after)
  }

  lemma RunKeepsHistory(s: Sock, o: Outcome, todo: seq<Args>, rest: bytes)
    requires History(s) && Accounted(s, todo, rest) && Allowed(todo, o)
    ensures History(AfterRun(s, o))
    ensures AccountedAfter(AfterRun(s, o), Some(o.end), rest)
    ensures Produced(AfterRun(s, o).said) == Produced(s.said) + o.reply
  {
    hide Took, Drain, Executed, Produced, Chained, LastSession;
    var e := Ran(o.ran, s.session, o.after, o.reply, o.end);
    ProducedSnoc(s.said, e);
    ChainedSnoc(s.born, s.said, e);
    RanArrived(s, o.ran, todo, rest);
    assert Executed(s.said) + o.ran + [] == Executed(s.said) + o.ran;
    if o.end.Subscribe? {
      assert (Executed(s.said) + o.ran) + o.end.rest == Executed(s.said) + (o.ran + o.end.rest);
    }
  }

  lemma RefusalKeepsHistory(s: Sock, reply: bytes)
    requires History(s)
    ensures var t := s.(said := s.said + [Refused(reply)]);
      History(t) && Produced(t.said) == Produced(s.said) + reply && Executed(t.said) == Executed(s.said)
  {
    hide Drain, Executed, Produced, Chained, LastSession;
    ProducedSnoc(s.said, Refused(reply));
    ChainedSnoc(s.born, s.said, Refused(reply));
    assert Executed(s.said) + [] == Executed(s.said);
  }

  function AfterRead(s: Sock, n: nat): Sock
    requires n <= |s.inbox|
  {
    s.(inbox := s.inbox[n..], received := s.received + s.inbox[..n])
  }

  lemma ReadKeepsHistory(s: Sock, n: nat)
    requires History(s) && n <= |s.inbox|
    ensures History(AfterRead(s, n))
  {
    hide Drain, Executed, Produced, Chained, LastSession;
    DrainGrows(s.received, s.inbox[..n]);
  }

  lemma ReadKeepsAccount(s: Sock, n: nat, end: Option<End>, rest: bytes)
    requires n <= |s.inbox| && AccountedAfter(s, end, rest)
    ensures AccountedAfter(AfterRead(s, n), end, rest + s.inbox[..n])
  {
    hide Took, Executed;
    match end
    case None => TookMore(s.received, Executed(s.said) + [], rest, s.inbox[..n]);
    case Some(Continue) => TookMore(s.received, Executed(s.said) + [], rest, s.inbox[..n]);
    case Some(Subscribe(cmds)) => TookMore(s.received, Executed(s.said) + cmds, rest, s.inbox[..n]);
    case _ =>
  }

  /** Parsing splits the buffer into commands to run and a new rest. */
  lemma ParseKeepsAccount(s: Sock, rest: bytes)
    requires Accounted(s, [], rest)
    ensures Accounted(s, Drain(rest).cmds, Drain(rest).rest)
  {
    hide Took, Drain, Executed;
    assert Executed(s.said) + [] == Executed(s.said);
    TookAll(rest);
    TookThen(s.received, Executed(s.said), rest, Drain(rest).cmds, Drain(rest).rest);
  }

  function AfterSend(s: Sock, out: bytes, n: nat): Sock
    requires n <= |out| && n <= s.room
  {
    s.(written := s.written + out[..n], room := s.room - n)
  }

  lemma SendKeepsHistory(s: Sock, out: bytes, n: nat)
    requires History(s) && n <= |out| && n <= s.room && Produced(s.said) == s.written + out
    ensures History(AfterSend(s, out, n))
    ensures Produced(s.said) == AfterSend(s, out, n).written + out[n..]
  {
    hide Drain, Executed, Produced, Chained, LastSession;
    assert out == out[..n] + out[n..];
    assert s.written + out == (s.written + out[..n]) + out[n..];
  }

  // ------------------------------------------------------------ one connection

  /** Acts leave identity, ownership and liveness of the connection alone. */
  ghost predicate SameFrame(c: Conn, s: Sock, c': Conn, s': Sock) {
    && c'.sid == c.sid && c'.gen == c.gen && c'.st.Some? == c.st.Some?
    && s'.owner == s.owner && s'.shut == s.shut
  }

  lemma ActKeepsFrame(c: Conn, s: Sock, a: Act)
    requires CanAct(c, s, a)
    ensures SameFrame(c, s, ConnAfter(c, s, a), SockAfter(c, s, a))
  {
    hide Drain;
  }

  lemma ActKeepsActive(c: Conn, s: Sock, a: Act)
    requires History(s) && Active(c, s) && CanAct(c, s, a)
    ensures History(SockAfter(c, s, a)) && Active(ConnAfter(c, s, a), SockAfter(c, s, a))
  {
    hide Drain, History, AccountedAfter, Produced, Conn.Pending;
    match a
    case Fetch(n) =>
      ReadKeepsHistory(s, n);
      if !(c.closing && c.ended.None?) {
        ReadKeepsAccount(s, n, c.ended, c.rbuf);
      }
      PendingSame(c, ConnAfter(c, s, a));
    case Remember(_) =>
      PendingSame(c, ConnAfter(c, s, a));
    case Overflow(reply) =>
      RefusalKeepsHistory(s, reply);
      PendingGrows(c, s.written, reply);
      PendingSame(c.(wbuf := c.wbuf + reply), ConnAfter(c, s, a));
    case Refuse(reply) =>
      RefusalKeepsHistory(s, reply);
      PendingGrows(c, s.written, reply);
      PendingSame(c.(wbuf := c.wbuf + reply), ConnAfter(c, s, a));
    case Skip =>
      SkipKeeps(c, s);
      PendingSame(c, ConnAfter(c, s, a));
    case RunInline(o) =>
      RunKeepsActive(c, s, o);
    case Resolve =>
      ResolveKeeps(c, s);
      PendingSame(c, ConnAfter(c, s, a));
    case Send(n) =>
      SendKeepsHistory(s, c.Pending(), n);
      PendingMoves(c, n);
      SendKeepsAccount(s, c.Pending(), n, c.ended, c.rbuf);
    case Compact =>
      PendingMoves(c, 0);
  }

  lemma PendingMoves(c: Conn, n: nat)
    requires c.wpos <= |c.wbuf| && n <= |c.Pending()|
    ensures c.wpos + n <= |c.wbuf| && c.(wpos := c.wpos + n).Pending() == c.Pending()[n..]
    ensures c.(wbuf := c.Pending(), wpos := 0).Pending() == c.Pending()
  {
  }

  lemma PendingSame(c: Conn, c': Conn)
    requires c'.wbuf == c.wbuf && c'.wpos == c.wpos
    ensures c'.Pending() == c.Pending()
  {
  }

  lemma PendingGrows(c: Conn, written: bytes, reply: bytes)
    requires c.wpos <= |c.wbuf|
    ensures c.(wbuf := c.wbuf + reply).Pending() == c.Pending() + reply
    ensures written + (c.Pending() + reply) == (written + c.Pending()) + reply
  {
    assert (c.wbuf + reply)[c.wpos..] == c.wbuf[c.wpos..] + reply;
  }

  lemma SendKeepsAccount(s: Sock, out: bytes, n: nat, end: Option<End>, rest: bytes)
    requires n <= |out| && n <= s.room
    ensures AccountedAfter(AfterSend(s, out, n), end, rest) == AccountedAfter(s, end, rest)
  {
    hide Took, Executed;
  }

  lemma SkipKeeps(c: Conn, s: Sock)
    requires !c.closing && c.ended.None? && Drain(c.rbuf).cmds == [] && AccountedAfter(s, None, c.rbuf)
    ensures AccountedAfter(s, None, Drain(c.rbuf).rest)
  {
    hide Drain, Took, Executed;
    ParseKeepsAccount(s, c.rbuf);
  }

  lemma RunKeepsActive(c: Conn, s: Sock, o: Outcome)
    requires History(s) && Active(c, s) && CanAct(c, s, RunInline(o))
    ensures History(SockAfter(c, s, RunInline(o)))
    ensures Active(ConnAfter(c, s, RunInline(o)), SockAfter(c, s, RunInline(o)))
  {
    hide Drain, History, Produced, Accounted;
    ParseKeepsAccount(s, c.rbuf);
    RunKeepsHistory(s, o, Drain(c.rbuf).cmds, Drain(c.rbuf).rest);
    PendingGrows(c, s.written, o.reply);
  }

  lemma ResolveKeeps(c: Conn, s: Sock)
    requires c.ended.Some? && AccountedAfter(s, c.ended, c.rbuf)
    ensures (c.closing || c.ended != Some(Continue)) || AccountedAfter(s, None, c.rbuf)
  {
    hide Took, Executed;
  }

  lemma ActKeepsPaused(c: Conn, j: Job, s: Sock, a: Act)
    requires History(s) && Paused(c, j, s) && CanAct(c, s, a)
    ensures History(SockAfter(c, s, a)) && Paused(ConnAfter(c, s, a), j, SockAfter(c, s, a))
  {
    hide Drain, History, Produced, Conn.Pending;
    match a
    case Send(n) =>
      SendPaused(s, c.Pending(), j.out, n);
      PendingMoves(c, n);
    case Remember(_) =>
      PendingSame(c, ConnAfter(c, s, a));
    case Compact =>
      PendingMoves(c, 0);
  }

  lemma SendPaused(s: Sock, out: bytes, later: bytes, n: nat)
    requires History(s) && n <= |out| && n <= s.room && Produced(s.said) == s.written + (out + later)
    ensures History(AfterSend(s, out, n))
    ensures Produced(s.said) == AfterSend(s, out, n).written + (out[n..] + later)
  {
    hide Drain, Executed, Produced, Chained, LastSession;
    assert out == out[..n] + out[n..];
    assert s.written + (out + later) == (s.written + out[..n]) + (out[n..] + later);
  }

  lemma ActKeepsInput(c: Conn, j: Job, s: Sock, a: Act)
    requires c.st.None? && CanAct(c, s, a) && JobInput(j, s)
    ensures JobInput(j, SockAfter(c, s, a))
  {
    hide Took, Drain, Executed;
  }

  // ------------------------------------------------------------ one batch on the pool

  lemma WorkKeepsFrame(j: Job, s: Sock, k: Work)
    requires CanWork(j, s, k)
    ensures var j', s' := JobAfter(j, s, k), SockWorked(j, s, k);
      && j'.sid == j.sid && j'.slot == j.slot && j'.gen == j.gen && j'.direct == j.direct
      && s'.owner == s.owner && s'.shut == s.shut
      && (j'.back <==> k.Deliver?) && (j'.back ==> j'.end.Some?)
  {
    hide Drain;
  }

  /** The input side of a batch is kept, whether or not its connection is still there. */
  lemma WorkKeepsInput(j: Job, s: Sock, k: Work)
    requires JobInput(j, s) && CanWork(j, s, k)
    requires k.Exec? ==> History(s)
    ensures JobInput(JobAfter(j, s, k), SockWorked(j, s, k))
  {
    hide Drain, Accounted, History, Produced, Executed;
    match k
    case Exec(o) => RunKeepsHistory(s, o, j.todo, j.rbuf);
    case Reply(n) => SendKeepsAccount(s, j.out, n, j.end, j.rbuf);
    case Listen(n) => ReadKeepsAccount(s, n, j.end, j.rbuf);
    case Parse => ParseKeepsAccount(s, j.rbuf);
    case _ =>
  }

  lemma WorkKeepsPaused(c: Conn, j: Job, s: Sock, k: Work)
    requires History(s) && Paused(c, j, s) && JobInput(j, s) && CanWork(j, s, k)
    ensures History(SockWorked(j, s, k)) && Paused(c, JobAfter(j, s, k), SockWorked(j, s, k))
  {
    hide Drain, History, Produced, Accounted;
    match k
    case Exec(o) =>
      RunKeepsHistory(s, o, j.todo, j.rbuf);
      assert (s.written + (c.Pending() + j.out)) + o.reply == s.written + (c.Pending() + (j.out + o.reply));
    case Reply(n) =>
      assert c.Pending() + j.out == j.out;
      SendKeepsHistory(s, j.out, n);
      assert c.Pending() + j.out[n..] == j.out[n..];
    case Listen(n) => ReadKeepsHistory(s, n);
    case _ =>
  }

  /** A batch whose connection is gone writes nothing and still runs on its own session. */
  lemma StaleWorkKeepsHistory(j: Job, s: Sock, k: Work)
    requires History(s) && s.shut && JobInput(j, s) && CanWork(j, s, k)
    ensures History(SockWorked(j, s, k))
  {
    hide Drain, History, Produced, Accounted;
    match k
    case Exec(o) => RunKeepsHistory(s, o, j.todo, j.rbuf);
    case Listen(n) => ReadKeepsHistory(s, n);
    case _ =>
  }

  // ------------------------------------------------------------ steps of the whole

  lemma ConnOf(w: World, slot: nat)
    requires Conns(w) && w.Live(slot)
    ensures ConnOk(w.conns[slot].value, slot, w.jobs, w.socks)
  {
  }

  lemma JobOf(w: World, id: JobId)
    requires Jobs(w) && id in w.jobs
    ensures JobOk(w.jobs[id], id, w.conns, w.gens, w.socks)
  {
  }

  lemma LoopKeeps(w: World, slot: nat, a: Act)
    requires Inv(w) && CanStep(w, Loop(slot, a))
    ensures Inv(Apply(w, Loop(slot, a)))
  {
    hide History, Active, Paused, JobInput, HandedOk, CanAct, ConnAfter, SockAfter, Done, Conns;
    var w' := Apply(w, Loop(slot, a));
    var c := w.conns[slot].value;
    var s := w.socks[c.sid];
    ConnOf(w, slot);
    assert ConnOk(c, slot, w.jobs, w.socks);
    ActKeepsFrame(c, s, a);
    if c.st.Some? {
      ActKeepsActive(c, s, a);
    } else {
      ActKeepsPaused(c, w.jobs[s.owner.job], s, a);
    }
    forall id | id in w.jobs && w.jobs[id].sid == c.sid
      ensures c.st.None? && JobInput(w.jobs[id], SockAfter(c, s, a))
    {
      assert JobOk(w.jobs[id], id, w.conns, w.gens, w.socks);
      ActKeepsInput(c, w.jobs[id], s, a);
    }
    LoopKeepsConns(w, slot, a);
    LoopKeepsJobs(w, slot, a);
    assert Handeds(w');
  }

  lemma LoopKeepsConns(w: World, slot: nat, a: Act)
    requires Inv(w) && CanStep(w, Loop(slot, a))
    requires var c := w.conns[slot].value; var s := w.socks[c.sid];
      var c', s' := ConnAfter(c, s, a), SockAfter(c, s, a);
      SameFrame(c, s, c', s') &&
      if c.st.Some? then Active(c', s') else Paused(c', w.jobs[s.owner.job], s')
    ensures Conns(Apply(w, Loop(slot, a)))
  {
    hide History, Active, Paused, JobInput, HandedOk, CanAct, ConnAfter, SockAfter, Done, Slots, Jobs, Handeds,
      Histories;
    var w' := Apply(w, Loop(slot, a));
    var c := w.conns[slot].value;
    assert ConnOk(c, slot, w.jobs, w.socks);
    forall i | 0 <= i < |w'.conns| && w'.conns[i].Some?
      ensures ConnOk(w'.conns[i].value, i, w'.jobs, w'.socks)
    {
      if i != slot {
        assert ConnOk(w.conns[i].value, i, w.jobs, w.socks);
      }
    }
  }

  lemma LoopKeepsJobs(w: World, slot: nat, a: Act)
    requires Inv(w) && CanStep(w, Loop(slot, a))
    requires var c := w.conns[slot].value; var s := w.socks[c.sid];
      SameFrame(c, s, ConnAfter(c, s, a), SockAfter(c, s, a))
    requires forall id :: id in w.jobs && w.jobs[id].sid == w.conns[slot].value.sid ==>
      JobInput(w.jobs[id], SockAfter(w.conns[slot].value, w.socks[w.conns[slot].value.sid], a))
    ensures Jobs(Apply(w, Loop(slot, a)))
  {
    hide History, Active, Paused, JobInput, HandedOk, CanAct, ConnAfter, SockAfter, Done, Slots, Conns, Handeds,
      Histories;
    var w' := Apply(w, Loop(slot, a));
    forall id | id in w'.jobs ensures JobOk(w'.jobs[id], id, w'.conns, w'.gens, w'.socks) {
      assert JobOk(w.jobs[id], id, w.conns, w.gens, w.socks);
    }
  }

  /** What the kernel and the client do to a socket touches nothing the invariant speaks of. */
  lemma OutsideKeeps(w: World, sid: Sid, inbox: bytes, room: nat, fin: bool)
    requires Inv(w) && CanStep(w, Outside(sid, inbox, room, fin))
    ensures Inv(Apply(w, Outside(sid, inbox, room, fin)))
  {
    hide History, Active, Paused, JobInput, HandedOk, Done;
    var w' := Apply(w, Outside(sid, inbox, room, fin));
    var s := w.socks[sid];
    OutsideKeepsSock(s, inbox, room, fin);
    forall i | 0 <= i < |w'.conns| && w'.conns[i].Some?
      ensures ConnOk(w'.conns[i].value, i, w'.jobs, w'.socks)
    {
      assert ConnOk(w.conns[i].value, i, w.jobs, w.socks);
      var c := w.conns[i].value;
      if c.sid == sid && c.st.Some? {
        OutsideKeepsActive(c, s, inbox, room, fin);
      } else if c.sid == sid {
        OutsideKeepsPaused(c, w.jobs[s.owner.job], s, inbox, room, fin);
      }
    }
    forall id | id in w'.jobs ensures JobOk(w'.jobs[id], id, w'.conns, w'.gens, w'.socks) {
      assert JobOk(w.jobs[id], id, w.conns, w.gens, w.socks);
      OutsideKeepsInput(w.jobs[id], s, inbox, room, fin);
    }
    if sid in w.dedicated {
      OutsideKeepsHanded(w.dedicated[sid], s, inbox, room, fin);
    }
  }

  lemma OutsideKeepsSock(s: Sock, inbox: bytes, room: nat, fin: bool)
    requires History(s)
    ensures History(s.(inbox := inbox, room := room, fin := fin))
  {
    hide Drain, Produced, Executed, Chained, LastSession;
  }

  lemma OutsideKeepsActive(c: Conn, s: Sock, inbox: bytes, room: nat, fin: bool)
    requires Active(c, s)
    ensures Active(c, s.(inbox := inbox, room := room, fin := fin))
  {
    hide Took, Produced, Executed;
  }

  lemma OutsideKeepsPaused(c: Conn, j: Job, s: Sock, inbox: bytes, room: nat, fin: bool)
    requires Paused(c, j, s)
    ensures Paused(c, j, s.(inbox := inbox, room := room, fin := fin))
  {
    hide Produced;
  }

  lemma OutsideKeepsInput(j: Job, s: Sock, inbox: bytes, room: nat, fin: bool)
    ensures JobInput(j, s.(inbox := inbox, room := room, fin := fin)) == JobInput(j, s)
  {
    hide Took, Executed;
  }

  lemma OutsideKeepsHanded(h: Handed, s: Sock, inbox: bytes, room: nat, fin: bool)
    requires HandedOk(h, s)
    ensures HandedOk(h, s.(inbox := inbox, room := room, fin := fin))
  {
    hide Took, Produced, Executed;
  }

  lemma PoolKeeps(w: World, id: JobId, k: Work)
    requires Inv(w) && CanStep(w, Pool(id, k))
    ensures Inv(Apply(w, Pool(id, k)))
  {
    PoolFrame(w, id, k);
    PoolKeepsPaused(w, id, k);
    hide History, Paused, JobInput, JobOk, CanWork, JobAfter, SockWorked, Slots, Conns, Jobs, Handeds, Histories, Done;
    PoolKeepsConns(w, id, k);
    PoolKeepsJobs(w, id, k);
    PoolKeepsDone(w, id, k);
    PoolKeepsRest(w, id, k);
  }

  /** What a pool thread leaves alone, in its batch and on the socket. */
  lemma PoolFrame(w: World, id: JobId, k: Work)
    requires Jobs(w) && Histories(w) && CanStep(w, Pool(id, k))
    ensures var j := w.jobs[id]; var s := w.socks[j.sid];
      var j', s' := JobAfter(j, s, k), SockWorked(j, s, k);
      && JobOk(j, id, w.conns, w.gens, w.socks)
      && j'.slot == j.slot && j'.gen == j.gen && j'.sid == j.sid && s'.owner == s.owner && s'.shut == s.shut
      && (j'.back <==> k.Deliver?) && (j'.back ==> j'.end.Some?) && JobInput(j', s')
  {
    hide History, JobInput, CanWork, JobAfter, SockWorked;
    var j := w.jobs[id];
    assert JobOk(j, id, w.conns, w.gens, w.socks);
    WorkKeepsFrame(j, w.socks[j.sid], k);
    WorkKeepsInput(j, w.socks[j.sid], k);
  }

  lemma PoolKeepsRest(w: World, id: JobId, k: Work)
    requires Slots(w) && Handeds(w) && Histories(w) && CanStep(w, Pool(id, k))
    requires var j := w.jobs[id]; var s := w.socks[j.sid];
      s.owner.Batch? && SockWorked(j, s, k).owner == s.owner && History(SockWorked(j, s, k))
    ensures var w' := Apply(w, Pool(id, k)); Slots(w') && Handeds(w') && Histories(w')
  {
    hide History, HandedOk, CanWork, JobAfter, SockWorked;
  }

  lemma PoolKeepsPaused(w: World, id: JobId, k: Work)
    requires Inv(w) && CanStep(w, Pool(id, k))
    ensures var j := w.jobs[id]; var s := w.socks[j.sid];
      && History(SockWorked(j, s, k))
      && (j.gen == w.gens[j.slot] ==> Paused(w.conns[j.slot].value, JobAfter(j, s, k), SockWorked(j, s, k)))
  {
    hide History, Active, Paused, JobInput, HandedOk, CanWork, JobAfter, SockWorked, Done;
    var j := w.jobs[id];
    var s := w.socks[j.sid];
    assert JobOk(j, id, w.conns, w.gens, w.socks);
    if j.gen == w.gens[j.slot] {
      assert ConnOk(w.conns[j.slot].value, j.slot, w.jobs, w.socks);
      WorkKeepsPaused(w.conns[j.slot].value, j, s, k);
    } else {
      StaleWorkKeepsHistory(j, s, k);
    }
  }

  lemma PoolKeepsConns(w: World, id: JobId, k: Work)
    requires Inv(w) && CanStep(w, Pool(id, k))
    requires var j := w.jobs[id]; var s := w.socks[j.sid];
      var j', s' := JobAfter(j, s, k), SockWorked(j, s, k);
      && JobOk(j, id, w.conns, w.gens, w.socks)
      && j'.slot == j.slot && j'.gen == j.gen && s'.owner == s.owner && s'.shut == s.shut
      && (j.gen == w.gens[j.slot] ==> Paused(w.conns[j.slot].value, j', s'))
    ensures Conns(Apply(w, Pool(id, k)))
  {
    hide History, Active, Paused, JobInput, HandedOk, CanWork, JobAfter, SockWorked, Done, Jobs, Handeds, Histories;
    var w' := Apply(w, Pool(id, k));
    forall i | 0 <= i < |w'.conns| && w'.conns[i].Some?
      ensures ConnOk(w'.conns[i].value, i, w'.jobs, w'.socks)
    {
      assert ConnOk(w.conns[i].value, i, w.jobs, w.socks);
    }
  }

  lemma PoolKeepsJobs(w: World, id: JobId, k: Work)
    requires Inv(w) && CanStep(w, Pool(id, k))
    requires var j := w.jobs[id]; var s := w.socks[j.sid];
      var j', s' := JobAfter(j, s, k), SockWorked(j, s, k);
      && j'.slot == j.slot && j'.gen == j.gen && j'.sid == j.sid && s'.owner == s.owner && s'.shut == s.shut
      && JobInput(j', s')
    ensures Jobs(Apply(w, Pool(id, k)))
  {
    hide History, Active, Paused, JobInput, HandedOk, CanWork, JobAfter, SockWorked, Done, Slots, Conns, Handeds,
      Histories;
    var w' := Apply(w, Pool(id, k));
    assert JobOk(w.jobs[id], id, w.conns, w.gens, w.socks);
    forall k | k in w'.jobs ensures JobOk(w'.jobs[k], k, w'.conns, w'.gens, w'.socks) {
      assert JobOk(w.jobs[k], k, w.conns, w.gens, w.socks);
    }
  }

  lemma PoolKeepsDone(w: World, id: JobId, k: Work)
    requires Done(w.done, w.jobs) && CanStep(w, Pool(id, k))
    requires var j' := JobAfter(w.jobs[id], w.socks[w.jobs[id].sid], k);
      (j'.back <==> k.Deliver?) && (j'.back ==> j'.end.Some?)
    ensures var w' := Apply(w, Pool(id, k)); Done(w'.done, w'.jobs)
  {
    hide JobAfter, SockWorked;
    assert !w.jobs[id].back;
    assert k.Deliver? ==> id in (w.done + [id]);
  }

  /** The slot a new connection gets is empty, and its generation is new to every batch still out. */
  lemma RegisterKeeps(w: World, sid: Sid, session: Session)
    requires Inv(w) && CanStep(w, Step.Register(sid, session))
    ensures Inv(Apply(w, Step.Register(sid, session)))
  {
    hide Done;
    var w' := Registered(w, sid, session);
    RegisterKeepsConns(w, sid, session);
    RegisterKeepsRest(w, sid, session);
    RegisterKeepsSlots(w, sid, session);
  }

  lemma RegisterKeepsSlots(w: World, sid: Sid, session: Session)
    requires Slots(w)
    ensures Slots(Registered(w, sid, session))
  {
    var w' := Registered(w, sid, session);
    var n := |w.free|;
    if n > 0 {
      forall i | 0 <= i < |w'.conns| && w'.conns[i].None? ensures i in w'.free {
        var k :| 0 <= k < n && w.free[k] == i;
        assert w'.free[k] == i;
      }
    }
  }

  lemma RegisterKeepsConns(w: World, sid: Sid, session: Session)
    requires Slots(w) && Conns(w) && sid !in w.socks
    ensures Conns(Registered(w, sid, session))
    ensures Histories(w) ==> Histories(Registered(w, sid, session))
  {
    hide History, ConnOk, FreshSock, FreshConn;
    var w' := Registered(w, sid, session);
    FreshIsFine(sid, session);
    forall i | 0 <= i < |w'.conns| && w'.conns[i].Some?
      ensures ConnOk(w'.conns[i].value, i, w'.jobs, w'.socks)
    {
      if i < |w.conns| && w.conns[i].Some? {
        assert w'.conns[i] == w.conns[i];
        OldConnStaysOk(w.conns[i].value, i, w.jobs, w.socks, sid, w'.socks[sid]);
      } else {
        NewConnIsOk(sid, w'.gens[i], i, session, w.jobs, w.socks);
      }
    }
  }

  lemma FreshIsFine(sid: Sid, session: Session)
    ensures forall slot: nat :: History(FreshSock(slot, session))
  {
    forall slot: nat ensures History(FreshSock(slot, session)) {
      FreshIsActive(FreshSock(slot, session));
    }
  }

  lemma OldConnStaysOk(c: Conn, slot: nat, jobs: map<JobId, Job>, socks: map<Sid, Sock>, sid: Sid, s: Sock)
    requires ConnOk(c, slot, jobs, socks) && sid !in socks
    ensures ConnOk(c, slot, jobs, socks[sid := s])
  {
    hide Active, Paused;
  }

  lemma NewConnIsOk(sid: Sid, gen: Gen, slot: nat, session: Session, jobs: map<JobId, Job>, socks: map<Sid, Sock>)
    ensures ConnOk(FreshConn(sid, gen, session), slot, jobs, socks[sid := FreshSock(slot, session)])
  {
    FreshIsActive(FreshSock(slot, session));
    hide Active;
  }

  lemma FreshIsActive(s: Sock)
    requires s.received == [] && s.said == [] && s.written == [] && s.session == s.born
    ensures History(s)
    ensures forall sid: Sid, gen: Gen ::
      Active(Conn(sid, gen, [], [], 0, Some(s.session), false, false, false, None), s)
  {
    hide Drain;
  }

  lemma RegisterKeepsRest(w: World, sid: Sid, session: Session)
    requires Inv(w) && sid !in w.socks
    ensures var w' := Registered(w, sid, session); Jobs(w') && Handeds(w')
  {
    hide History, Active, Paused, JobInput, HandedOk, Done;
    var w' := Registered(w, sid, session);
    forall id | id in w'.jobs ensures JobOk(w'.jobs[id], id, w'.conns, w'.gens, w'.socks) {
      assert JobOk(w.jobs[id], id, w.conns, w.gens, w.socks);
    }
  }

  lemma ReleaseKeepsSlots(w: World, slot: nat)
    requires Slots(w) && w.Live(slot)
    ensures Slots(Released(w, slot))
  {
    var w' := Released(w, slot);
    forall i | 0 <= i < |w'.conns| && w'.conns[i].None? ensures i in w'.free {
      if i != slot {
        var k :| 0 <= k < |w.free| && w.free[k] == i;
        assert w'.free[k] == i;
      } else {
        assert w'.free[|w.free|] == slot;
      }
    }
  }

  /** Once a slot is released its socket belongs to `owner`; every other connection is as it was. */
  function Relinquished(w: World, slot: nat, s': Sock): World
    requires Linked(w, slot)
  {
    Released(w, slot).(socks := w.socks[w.conns[slot].value.sid := s'])
  }

  lemma ReleaseKeepsConns(w: World, slot: nat, s': Sock)
    requires Slots(w) && Conns(w) && Linked(w, slot)
    ensures Conns(Relinquished(w, slot, s'))
  {
    hide History, Active, Paused;
    var w' := Relinquished(w, slot, s');
    assert ConnOk(w.conns[slot].value, slot, w.jobs, w.socks);
    forall i | 0 <= i < |w'.conns| && w'.conns[i].Some?
      ensures ConnOk(w'.conns[i].value, i, w'.jobs, w'.socks)
    {
      assert ConnOk(w.conns[i].value, i, w.jobs, w.socks);
    }
  }

  /** A batch still out for the released slot is stale from now on, and its socket must be shut. */
  lemma ReleaseKeepsJobs(w: World, slot: nat, s': Sock)
    requires Slots(w) && Conns(w) && Jobs(w) && Linked(w, slot)
    requires var s := w.socks[w.conns[slot].value.sid];
      s.owner.Batch? ==> s' == s.(shut := true)
    ensures Jobs(Relinquished(w, slot, s'))
  {
    hide History, Active, Paused, Took, Executed;
    var w' := Relinquished(w, slot, s');
    var c := w.conns[slot].value;
    assert ConnOk(c, slot, w.jobs, w.socks);
    forall id | id in w'.jobs ensures JobOk(w'.jobs[id], id, w'.conns, w'.gens, w'.socks) {
      assert JobOk(w.jobs[id], id, w.conns, w.gens, w.socks);
      if w.jobs[id].sid == c.sid {
        assert w.jobs[id].slot == slot;
      }
    }
  }

  lemma CloseKeeps(w: World, slot: nat)
    requires Inv(w) && CanStep(w, Step.Close(slot))
    ensures Inv(Apply(w, Step.Close(slot)))
  {
    hide History, HandedOk, Active, Paused, JobOk, Done;
    var w' := Closed(w, slot);
    var c := w.conns[slot].value;
    assert ConnOk(c, slot, w.jobs, w.socks);
    var s' := w'.socks[c.sid];
    ReleaseKeepsSlots(w, slot);
    ReleaseKeepsConns(w, slot, s');
    ReleaseKeepsJobs(w, slot, s');
    ShutKeepsHistory(w.socks[c.sid], s'.owner);
    assert w' == Relinquished(w, slot, s');
  }

  lemma ShutKeepsHistory(s: Sock, owner: Owner)
    requires History(s)
    ensures History(s.(shut := true, owner := owner)) && History(s.(owner := owner))
  {
    hide Drain, Produced, Executed, Chained, LastSession;
  }

  lemma HandOffKeeps(w: World, slot: nat)
    requires Inv(w) && CanStep(w, Step.HandOff(slot))
    ensures Inv(Apply(w, Step.HandOff(slot)))
  {
    hide History, HandedOk, Active, Paused, Done, JobOk;
    var w' := HandedOff(w, slot);
    var c := w.conns[slot].value;
    assert ConnOk(c, slot, w.jobs, w.socks);
    var s' := w'.socks[c.sid];
    ReleaseKeepsSlots(w, slot);
    ReleaseKeepsConns(w, slot, s');
    ReleaseKeepsJobs(w, slot, s');
    HandOffKeepsItself(c, w.socks[c.sid], w'.dedicated[c.sid]);
    ShutKeepsHistory(w.socks[c.sid], Dedicated);
    var r := Relinquished(w, slot, s');
    assert w'.conns == r.conns && w'.jobs == r.jobs && w'.socks == r.socks && w'.gens == r.gens && w'.free == r.free;
  }

  /** Nothing said, taken or buffered is lost on the way to the dedicated thread. */
  lemma HandOffKeepsItself(c: Conn, s: Sock, h: Handed)
    requires Active(c, s) && c.ended.Some? && c.st.Some?
    requires h ==
      Handed(c.st.value, c.Pending(),
             match c.ended case Some(Subscribe(rest)) => rest case _ => [], c.rbuf, c.ended == Some(ReplSync))
    requires c.ended.value.Subscribe? || c.ended.value.ReplSync?
    ensures HandedOk(h, s.(owner := Dedicated))
  {
    hide Took, Produced, Executed;
  }

  // ---- submitting a batch

  lemma SubmitKeeps(w: World, slot: nat, id: JobId)
    requires Inv(w) && CanStep(w, Step.Submit(slot, id))
    ensures Inv(Apply(w, Step.Submit(slot, id)))
  {
    var w' := Submitted(w, slot, id);
    var c := w.conns[slot].value;
    SubmitOwner(w, slot, id);
    hide History, HandedOk, Active, Paused, JobOk, Done, Slots, Conns, Jobs, Handeds, Histories;
    SubmitKeepsPaused(c, w.socks[c.sid], id, w'.jobs[id], w'.conns[slot].value);
    SubmitKeepsConns(w, slot, id);
    SubmitKeepsJobs(w, slot, id);
    SubmitKeepsDone(w.done, w.jobs, id, w'.jobs[id]);
    SubmitKeepsRest(w, slot, id);
  }

  lemma SubmitOwner(w: World, slot: nat, id: JobId)
    requires Slots(w) && Conns(w) && CanSubmit(w, slot, id)
    ensures var c := w.conns[slot].value; w.socks[c.sid].owner == Slot(slot) && Active(c, w.socks[c.sid])
  {
    hide Active, Paused;
    ConnOf(w, slot);
  }

  lemma SubmitKeepsRest(w: World, slot: nat, id: JobId)
    requires Slots(w) && Handeds(w) && Histories(w) && CanSubmit(w, slot, id)
    requires w.socks[w.conns[slot].value.sid].owner == Slot(slot)
    ensures var w' := Submitted(w, slot, id); Slots(w') && Handeds(w') && Histories(w')
  {
    hide History, HandedOk, Drain;
    ShutKeepsHistory(w.socks[w.conns[slot].value.sid], Batch(id));
  }

  lemma SubmitKeepsDone(done: seq<JobId>, jobs: map<JobId, Job>, id: JobId, j: Job)
    requires Done(done, jobs) && id !in jobs && !j.back
    ensures Done(done, jobs[id := j])
  {
  }

  /** The batch takes the session, the input and its commands; the loop keeps only earlier output. */
  lemma SubmitKeepsPaused(c: Conn, s: Sock, id: JobId, j: Job, c': Conn)
    requires Active(c, s) && c.Ready() && c.ended.None?
    requires var d := Drain(c.rbuf); var direct := c.Pending() == [];
      && c' == c.(st := None, rbuf := [], muted := c.muted || direct)
      && j == Job(c.sid, j.slot, c.gen, c.st.value, d.cmds, d.rest, [], direct, None, false, false)
    ensures Paused(c', j, s.(owner := Batch(id))) && JobInput(j, s.(owner := Batch(id)))
  {
    hide Took, Drain, Produced, Executed;
    ParseKeepsAccount(s, c.rbuf);
    assert c'.Pending() == c.Pending();
    assert c.Pending() + [] == c.Pending();
  }

  lemma SubmitKeepsConns(w: World, slot: nat, id: JobId)
    requires Slots(w) && Conns(w) && CanSubmit(w, slot, id)
    requires var w' := Submitted(w, slot, id); var c := w.conns[slot].value;
      Paused(w'.conns[slot].value, w'.jobs[id], w'.socks[c.sid])
    ensures Conns(Submitted(w, slot, id))
  {
    hide History, Active, Paused, Drain;
    var w' := Submitted(w, slot, id);
    ConnOf(w, slot);
    forall i | 0 <= i < |w'.conns| && w'.conns[i].Some?
      ensures ConnOk(w'.conns[i].value, i, w'.jobs, w'.socks)
    {
      ConnOf(w, i);
      assert i == slot ==> Paused(w'.conns[i].value, w'.jobs[id], w'.socks[w'.conns[i].value.sid]);
    }
  }

  lemma SubmitKeepsJobs(w: World, slot: nat, id: JobId)
    requires Slots(w) && Conns(w) && Jobs(w) && CanSubmit(w, slot, id)
    requires var w' := Submitted(w, slot, id); JobInput(w'.jobs[id], w'.socks[w.conns[slot].value.sid])
    ensures Jobs(Submitted(w, slot, id))
  {
    hide History, Active, Paused, Drain, JobInput;
    var w' := Submitted(w, slot, id);
    ConnOf(w, slot);
    forall k | k in w'.jobs ensures JobOk(w'.jobs[k], k, w'.conns, w'.gens, w'.socks) {
      if k != id {
        assert JobOk(w.jobs[k], k, w.conns, w.gens, w.socks);
      }
    }
  }

  // ---- a batch coming back

  lemma CompleteKeeps(w: World)
    requires Inv(w) && CanStep(w, Step.Complete)
    ensures Inv(Apply(w, Step.Complete))
  {
    hide History, HandedOk, Active, Paused, JobInput, Done, Conns, Jobs;
    var w' := Completed(w);
    var id := w.done[0];
    var j := w.jobs[id];
    JobOf(w, id);
    forall owner ensures History(w.socks[j.sid].(owner := owner)) {
      ShutKeepsHistory(w.socks[j.sid], owner);
    }
    CompleteKeepsDone(w.done, w.jobs);
    if w.Current(j.slot, j.gen) {
      ConnOf(w, j.slot);
      RestoreKeeps(w.conns[j.slot].value, j, w.socks[j.sid]);
    }
    CompleteKeepsConns(w);
    CompleteKeepsJobs(w);
    CompleteKeepsRest(w);
  }

  lemma CompleteKeepsRest(w: World)
    requires Slots(w) && Handeds(w) && Histories(w) && CanStep(w, Step.Complete)
    requires JobOk(w.jobs[w.done[0]], w.done[0], w.conns, w.gens, w.socks)
    requires forall owner :: History(w.socks[w.jobs[w.done[0]].sid].(owner := owner))
    ensures var w' := Completed(w); Slots(w') && Handeds(w') && Histories(w')
  {
    hide History, HandedOk, JobInput;
  }

  lemma CompleteKeepsDone(done: seq<JobId>, jobs: map<JobId, Job>)
    requires Done(done, jobs) && done != []
    ensures Done(done[1..], jobs - {done[0]})
  {
    forall id | id in jobs - {done[0]} && jobs[id].back ensures id in done[1..] {
      var k :| 0 <= k < |done| && done[k] == id;
      assert done[1..][k - 1] == id;
    }
  }

  /** The debug assertion of the program holds: the loop read nothing while the batch was out. */
  lemma RestoreKeeps(c: Conn, j: Job, s: Sock)
    requires Paused(c, j, s) && JobInput(j, s) && j.end.Some?
    ensures c.rbuf == [] && Active(Restored(c, j), s.(owner := Slot(j.slot)))
  {
    hide Took, Produced, Executed;
    PendingGrows(c, s.written, j.out);
    PendingSame(c.(wbuf := c.wbuf + j.out), Restored(c, j));
    hide Conn.Pending;
    assert !Restored(c, j).ended.None?;
  }

  lemma CompleteKeepsConns(w: World)
    requires Slots(w) && Conns(w) && CanStep(w, Step.Complete)
    requires var j := w.jobs[w.done[0]];
      && JobOk(j, w.done[0], w.conns, w.gens, w.socks)
      && (w.Current(j.slot, j.gen) ==>
            Active(Restored(w.conns[j.slot].value, j), w.socks[j.sid].(owner := Slot(j.slot))))
    ensures Conns(Completed(w))
  {
    hide History, Active, Paused, JobInput;
    var w' := Completed(w);
    var j := w.jobs[w.done[0]];
    forall i | 0 <= i < |w'.conns| && w'.conns[i].Some?
      ensures ConnOk(w'.conns[i].value, i, w'.jobs, w'.socks)
    {
      ConnOf(w, i);
    }
  }

  lemma CompleteKeepsJobs(w: World)
    requires Slots(w) && Jobs(w) && CanStep(w, Step.Complete)
    ensures Jobs(Completed(w))
  {
    hide History, Active, Paused, Took, Executed;
    var w' := Completed(w);
    var id := w.done[0];
    JobOf(w, id);
    forall k | k in w'.jobs ensures JobOk(w'.jobs[k], k, w'.conns, w'.gens, w'.socks) {
      JobOf(w, k);
      assert w.jobs[k].sid != w.jobs[id].sid;
    }
  }

  // ---- dedicated threads

  /** A socket on a dedicated thread is neither in a slot nor out with a batch. */
  lemma DedicatedStaysApart(w: World, sid: Sid, s': Sock)
    requires Slots(w) && Conns(w) && Jobs(w) && sid in w.socks && w.socks[sid].owner == Dedicated
    ensures var w' := w.(socks := w.socks[sid := s']); Conns(w') && Jobs(w')
  {
    hide History, Active, Paused, JobInput;
    var w' := w.(socks := w.socks[sid := s']);
    forall i | 0 <= i < |w'.conns| && w'.conns[i].Some?
      ensures ConnOk(w'.conns[i].value, i, w'.jobs, w'.socks)
    {
      ConnOf(w, i);
    }
    forall k | k in w'.jobs ensures JobOk(w'.jobs[k], k, w'.conns, w'.gens, w'.socks) {
      assert JobOk(w.jobs[k], k, w.conns, w.gens, w.socks);
    }
  }

  /** What sending on does to one dedicated connection and its socket. */
  lemma ForwardKeepsItself(h: Handed, s: Sock, n: nat)
    requires HandedOk(h, s) && History(s) && n <= |h.out| && n <= s.room
    ensures var s' := s.(written := s.written + h.out[..n], room := s.room - n);
      HandedOk(h.(out := h.out[n..]), s') && History(s') && s'.owner == s.owner
  {
    SendKeepsHistory(s, h.out, n);
    hide Took, Produced, Executed, History;
    assert s.written + h.out == (s.written + h.out[..n]) + h.out[n..];
  }

  lemma ForwardKeeps(w: World, sid: Sid, n: nat)
    requires Inv(w) && CanStep(w, Step.Forward(sid, n))
    ensures Inv(Apply(w, Step.Forward(sid, n)))
  {
    hide History, Active, Paused, JobOk, Done, ConnOk, HandedOk;
    var w' := Apply(w, Step.Forward(sid, n));
    ForwardKeepsItself(w.dedicated[sid], w.socks[sid], n);
    DedicatedStaysApart(w, sid, w'.socks[sid]);
    assert w'.conns == w.conns && w'.gens == w.gens && w'.jobs == w.jobs;
  }

  lemma RetireKeeps(w: World, sid: Sid)
    requires Inv(w) && CanStep(w, Step.Retire(sid))
    ensures Inv(Apply(w, Step.Retire(sid)))
  {
    hide History, Active, Paused, JobOk, Done, ConnOk, HandedOk;
    var w' := Apply(w, Step.Retire(sid));
    DedicatedStaysApart(w, sid, w'.socks[sid]);
    ShutKeepsHistory(w.socks[sid], Nobody);
    assert w'.conns == w.conns && w'.gens == w.gens && w'.jobs == w.jobs;
  }

  // ------------------------------------------------------------ whole runs

  lemma StepKeeps(w: World, step: Step)
    requires Inv(w) && CanStep(w, step)
    ensures Inv(Apply(w, step))
  {
    hide Inv, CanStep, Apply;
    match step
    case Outside(sid, inbox, room, fin) => OutsideKeeps(w, sid, inbox, room, fin);
    case Register(sid, session) => RegisterKeeps(w, sid, session);
    case Loop(slot, a) => LoopKeeps(w, slot, a);
    case Submit(slot, id) => SubmitKeeps(w, slot, id);
    case Pool(id, k) => PoolKeeps(w, id, k);
    case Complete => CompleteKeeps(w);
    case HandOff(slot) => HandOffKeeps(w, slot);
    case Close(slot) => CloseKeeps(w, slot);
    case Forward(sid, n) => ForwardKeeps(w, sid, n);
    case Retire(sid) => RetireKeeps(w, sid);
  }

  lemma {:induction false} RunKeeps(w: World, steps: seq<Step>, w': World)
    requires Inv(w) && Reaches(w, steps, w')
    ensures Inv(w')
    decreases |steps|
  {
    hide Inv, CanStep, Apply;
    if steps != [] {
      StepKeeps(w, steps[0]);
      RunKeeps(Apply(w, steps[0]), steps[1..], w');
    }
  }

  lemma ReachableKeeps(w: World)
    requires Reach(EMPTY, w)
    ensures Inv(w)
  {
    hide Apply, CanStep;
    var steps :| Reaches(EMPTY, steps, w);
    RunKeeps(EMPTY, steps, w);
  }

  // ------------------------------------------------------------ histories only grow

  ghost predicate Grown(s: Sock, s': Sock) {
    s.received <= s'.received && s.said <= s'.said && s.written <= s'.written
  }

  lemma ActGrows(c: Conn, s: Sock, a: Act)
    ensures Grown(s, SockAfter(c, s, a))
  {
    hide Conn.Pending;
  }

  lemma WorkGrows(j: Job, s: Sock, k: Work)
    ensures Grown(s, SockWorked(j, s, k))
  {
  }

  /** No step takes back what was received, said or written. */
  lemma StepGrows(w: World, step: Step, sid: Sid)
    requires CanStep(w, step) && sid in w.socks
    ensures sid in Apply(w, step).socks && Grown(w.socks[sid], Apply(w, step).socks[sid])
  {
    hide CanAct, CanWork, ConnAfter, JobAfter, SockAfter, SockWorked, Drain, Conn.Pending;
    match step
    case Loop(slot, a) => ActGrows(w.conns[slot].value, w.socks[w.conns[slot].value.sid], a);
    case Pool(id, k) => WorkGrows(w.jobs[id], w.socks[w.jobs[id].sid], k);
    case _ =>
  }

  lemma {:induction false} RunGrows(w: World, steps: seq<Step>, w': World, sid: Sid)
    requires Reaches(w, steps, w') && sid in w.socks
    ensures sid in w'.socks && Grown(w.socks[sid], w'.socks[sid])
    decreases |steps|
  {
    hide CanStep, Apply;
    if steps != [] {
      StepGrows(w, steps[0], sid);
      RunGrows(Apply(w, steps[0]), steps[1..], w', sid);
    }
  }

  lemma ReachGrows(w: World, w': World, sid: Sid)
    requires Reach(w, w') && sid in w.socks
    ensures sid in w'.socks && Grown(w.socks[sid], w'.socks[sid])
  {
    hide Reaches, Grown;
    var steps :| Reaches(w, steps, w');
    RunGrows(w, steps, w', sid);
  }

  /**
   * In every interleaving: what a client was sent is a prefix of the replies to
   * its own connection; the commands executed are a prefix of those it sent,
   * in order; and every batch started from the session the one before left.
   */
  lemma RepliesInOrder(w: World, sid: Sid)
    requires Reach(EMPTY, w) && sid in w.socks
    ensures var s := w.socks[sid];
      && s.written <= Produced(s.said)
      && Executed(s.said) <= Drain(s.received).cmds
      && Chained(s.born, s.said)
  {
    hide Reach, Slots, Conns, Jobs, Handeds, Done;
    ReachableKeeps(w);
  }

  /** The places a session can be: a slot, a batch on the pool, a dedicated thread. */
  ghost predicate Holds(w: World, o: Owner, sid: Sid) {
    match o
    case Slot(i) => w.Live(i) && w.conns[i].value.sid == sid && w.conns[i].value.st.Some?
    case Batch(id) => id in w.jobs && w.jobs[id].sid == sid
    case Dedicated => sid in w.dedicated
    case Nobody => false
  }

  /** A session is never in two places, and its holder has the state the last batch left. */
  lemma OneHolder(w: World, sid: Sid, a: Owner, b: Owner)
    requires Reach(EMPTY, w) && Holds(w, a, sid) && Holds(w, b, sid)
    ensures a == b && sid in w.socks
    ensures var last := LastSession(w.socks[sid].born, w.socks[sid].said);
      match a
      case Slot(i) => w.conns[i].value.st == Some(last)
      case Batch(id) => w.jobs[id].st == last
      case Dedicated => w.dedicated[sid].st == last
      case Nobody => true
  {
    hide Reach, Accounted, Produced, Drain, Executed, Chained, LastSession;
    ReachableKeeps(w);
    HolderOwns(w, a, sid);
    HolderOwns(w, b, sid);
    assert History(w.socks[sid]);
  }

  lemma HolderOwns(w: World, o: Owner, sid: Sid)
    requires Inv(w) && Holds(w, o, sid)
    ensures sid in w.socks && w.socks[sid].owner == o
    ensures match o
      case Slot(i) => w.conns[i].value.st == Some(w.socks[sid].session)
      case Batch(id) => w.jobs[id].st == w.socks[sid].session
      case Dedicated => w.dedicated[sid].st == w.socks[sid].session
      case Nobody => true
  {
    hide Accounted, Produced, History, Done;
    match o
    case Slot(i) => ConnOf(w, i);
    case Batch(id) => assert JobOk(w.jobs[id], id, w.conns, w.gens, w.socks);
    case _ =>
  }

  /** A finished batch only ever reaches the connection it was taken from. */
  lemma CompletionFindsItsOwn(w: World, id: JobId)
    requires Reach(EMPTY, w) && id in w.jobs && w.Current(w.jobs[id].slot, w.jobs[id].gen)
    ensures var j := w.jobs[id]; var c := w.conns[j.slot].value;
      c.sid == j.sid && c.st.None? && c.rbuf == [] && !c.closing
  {
    hide Reach, Accounted, Produced, History, Done;
    ReachableKeeps(w);
    assert JobOk(w.jobs[id], id, w.conns, w.gens, w.socks);
    ConnOf(w, w.jobs[id].slot);
  }

  /** And one whose connection is gone changes no slot, whoever has moved in. */
  lemma StaleCompletionIsDropped(w: World)
    requires Reach(EMPTY, w) && CanStep(w, Step.Complete)
    requires var j := w.jobs[w.done[0]]; !w.Current(j.slot, j.gen)
    ensures var w' := Apply(w, Step.Complete); var j := w.jobs[w.done[0]];
      && w'.conns == w.conns && w'.gens == w.gens && w'.free == w.free
      && w.socks[j.sid].shut
      && forall sid :: sid in w.socks ==>
           w'.socks[sid].written == w.socks[sid].written && w'.socks[sid].said == w.socks[sid].said
  {
    hide Reach, Accounted, Produced, History, Done;
    ReachableKeeps(w);
    var id := w.done[0];
    assert JobOk(w.jobs[id], id, w.conns, w.gens, w.socks);
  }

  /**
   * Nothing is lost or said twice while a connection lasts: the replies are
   * exactly those written followed by those pending, and, unless it is closing,
   * the commands received are those executed followed by those still buffered.
   */
  lemma NothingLost(w: World, slot: nat)
    requires Reach(EMPTY, w) && w.Live(slot) && w.conns[slot].value.st.Some?
    requires w.conns[slot].value.ended.None?
    ensures var c := w.conns[slot].value;
      && c.sid in w.socks
      && var s := w.socks[c.sid];
         && Produced(s.said) == s.written + c.Pending()
         && (!c.closing ==> Drain(s.received).cmds == Executed(s.said) + Drain(c.rbuf).cmds)
  {
    hide Reach, Produced, History, Done, Took, Drain, Executed;
    ReachableKeeps(w);
    ConnOf(w, slot);
    var c := w.conns[slot].value;
    var s := w.socks[c.sid];
    if !c.closing {
      assert Executed(s.said) + [] == Executed(s.said);
      TookSplits(s.received, Executed(s.said), c.rbuf);
    }
  }

  /** The same for a connection that moved to a dedicated thread to subscribe. */
  lemma NothingLostInHandOff(w: World, sid: Sid)
    requires Reach(EMPTY, w) && sid in w.dedicated
    ensures sid in w.socks
    ensures var h, s := w.dedicated[sid], w.socks[sid];
      && Produced(s.said) == s.written + h.out
      && (!h.sync ==> Drain(s.received).cmds == Executed(s.said) + h.cmds + Drain(h.rbuf).cmds)
  {
    hide Reach, Produced, History, Done, Took, Drain, Executed;
    ReachableKeeps(w);
    var h, s := w.dedicated[sid], w.socks[sid];
    if !h.sync {
      TookSplits(s.received, Executed(s.said) + h.cmds, h.rbuf);
    }
  }

  /**
   * Closing a connection that is not closing already loses exactly what it still
   * holds: all commands received have run and all replies are written if and only
   * if no complete command is buffered and no output pends.
   */
  lemma CloseLosesWhatIsHeld(w: World, slot: nat)
    requires Reach(EMPTY, w) && w.Live(slot) && w.conns[slot].value.st.Some?
    requires w.conns[slot].value.ended.None? && !w.conns[slot].value.closing
    ensures Linked(w, slot)
    ensures var c := w.conns[slot].value; var s := Closed(w, slot).socks[c.sid];
      && (Executed(s.said) == Drain(s.received).cmds <==> Drain(c.rbuf).cmds == [])
      && (s.written == Produced(s.said) <==> c.Pending() == [])
  {
    hide Reach, Produced, Drain, Executed, Conn.Pending;
    NothingLost(w, slot);
    var c := w.conns[slot].value;
    var s := w.socks[c.sid];
    assert |Executed(s.said) + Drain(c.rbuf).cmds| == |Executed(s.said)| + |Drain(c.rbuf).cmds|;
    assert |s.written + c.Pending()| == |s.written| + |c.Pending()|;
    if Drain(c.rbuf).cmds == [] {
      assert Executed(s.said) + [] == Executed(s.said);
    }
    if c.Pending() == [] {
      assert s.written + [] == s.written;
    }
  }
}
