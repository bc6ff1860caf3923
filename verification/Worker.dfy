/**
 * The worker's handlers, as loops over its slots. Each one is a run of steps of
 * the event-loop model, touches one connection only, ends (though flushing,
 * resuming, reading and processing call each other), and leaves the connection
 * attended: no complete command waits in a connection that is ready for it, and
 * no input waits in the kernel with nobody due to read it.
 */
module Worker {
  import opened Base
  import opened Resp
  import opened Chunks
  import opened EventLoop
  import opened EventLoopSafety

  // ------------------------------------------------------------ what handlers leave behind

  /** No complete command, and no malformed one, waits in a ready connection. */
  ghost predicate Quiet(c: Conn) {
    c.Ready() ==> Drain(c.rbuf).cmds == [] && Drain(c.rbuf).error.None?
  }

  /** Unread input is noted where resuming will find it, or the connection is closing. */
  ghost predicate Heard(c: Conn, inbox: bytes) {
    || c.closing
    || inbox == []
    || (c.st.None? && (c.muted || c.moreToRead))
    || (c.st.Some? && c.moreToRead && !c.Ready())
  }

  /** All output is with the kernel, or the kernel takes no more for now. */
  ghost predicate Flushed(c: Conn, room: nat) {
    c.Pending() == [] || room == 0
  }

  /** Between events, every batch that came back has been acted on and nothing runnable waits. */
  ghost predicate Settled(w: World) {
    forall i :: 0 <= i < |w.conns| && w.conns[i].Some? ==> w.conns[i].value.ended.None? && Quiet(w.conns[i].value)
  }

  /** Only the connection in `slot`, its socket and new batches may differ. */
  ghost predicate Only(w: World, w': World, slot: nat) {
    && |w'.conns| == |w.conns| && |w'.gens| == |w.gens|
    && (forall i :: 0 <= i < |w.conns| && i != slot ==> w'.conns[i] == w.conns[i])
    && (forall i :: 0 <= i < |w.gens| && i != slot ==> w'.gens[i] == w.gens[i])
    && w'.done == w.done
    && (forall id :: id in w.jobs ==> id in w'.jobs && w'.jobs[id] == w.jobs[id])
    && (w'.Live(slot) ==>
          && w.Live(slot)
          && w'.conns[slot].value.sid == w.conns[slot].value.sid
          && w'.conns[slot].value.gen == w.conns[slot].value.gen)
    && (forall sid :: sid in w.socks ==>
          && sid in w'.socks
          && ((w.Live(slot) && w.conns[slot].value.sid == sid) || w'.socks[sid] == w.socks[sid]))
  }

  ghost predicate Moved(w: World, w': World, slot: nat) {
    Inv(w') && Reach(w, w') && Only(w, w', slot)
  }

  lemma {:induction false} ReachesThen(a: World, first: seq<Step>, b: World, step: Step)
    requires Reaches(a, first, b) && CanStep(b, step)
    ensures Reaches(a, first + [step], Apply(b, step))
    decreases |first|
  {
    hide CanStep, Apply;
    if first == [] {
      assert [step][1..] == [];
      assert first + [step] == [step];
    } else {
      ReachesThen(Apply(a, first[0]), first[1..], b, step);
      assert (first + [step])[1..] == first[1..] + [step];
    }
  }

  lemma ReachThen(a: World, b: World, step: Step)
    requires Reach(a, b) && CanStep(b, step)
    ensures Reach(a, Apply(b, step))
  {
    hide CanStep, Apply, Reaches;
    var first :| Reaches(a, first, b);
    ReachesThen(a, first, b, step);
  }

  lemma ReachHere(w: World)
    ensures Reach(w, w)
  {
    assert Reaches(w, [], w);
  }

  lemma MovedNot(w: World, slot: nat)
    requires Inv(w)
    ensures Moved(w, w, slot)
  {
    hide Inv, Reach;
    ReachHere(w);
  }

  lemma {:induction false} ReachesOn(a: World, first: seq<Step>, b: World, onward: seq<Step>, c: World)
    requires Reaches(a, first, b) && Reaches(b, onward, c)
    ensures Reaches(a, first + onward, c)
    decreases |first|
  {
    hide CanStep, Apply;
    if first == [] {
      assert first + onward == onward;
    } else {
      ReachesOn(Apply(a, first[0]), first[1..], b, onward, c);
      assert (first + onward)[1..] == first[1..] + onward;
    }
  }

  lemma ReachOn(a: World, b: World, c: World)
    requires Reach(a, b) && Reach(b, c)
    ensures Reach(a, c)
  {
    hide Reaches;
    var first :| Reaches(a, first, b);
    var onward :| Reaches(b, onward, c);
    ReachesOn(a, first, b, onward, c);
  }

  lemma OnlyOn(a: World, b: World, c: World, slot: nat)
    requires Only(a, b, slot) && Only(b, c, slot)
    ensures Only(a, c, slot)
  {
  }

  lemma MovedOn(a: World, b: World, c: World, slot: nat)
    requires Moved(a, b, slot) && Moved(b, c, slot)
    ensures Moved(a, c, slot)
  {
    hide Inv, Reach, Only;
    ReachOn(a, b, c);
    OnlyOn(a, b, c, slot);
  }

  /** Steps of the loop on one slot. */
  ghost predicate At(step: Step, slot: nat) {
    match step
    case Loop(i, _) => i == slot
    case Submit(i, _) => i == slot
    case HandOff(i) => i == slot
    case Close(i) => i == slot
    case _ => false
  }

  lemma StepMoves(w: World, step: Step, slot: nat)
    requires Inv(w) && CanStep(w, step) && At(step, slot)
    ensures Moved(w, Apply(w, step), slot)
  {
    StepKeeps(w, step);
    ReachHere(w);
    ReachThen(w, w, step);
    hide Reach;
    StepIsLocal(w, step, slot);
  }

  lemma StepIsLocal(w: World, step: Step, slot: nat)
    requires |w.conns| == |w.gens| && CanStep(w, step) && At(step, slot)
    ensures Only(w, Apply(w, step), slot)
  {
    hide Drain, Reaches, Inv;
    match step
    case Loop(i, a) =>
      var c := w.conns[slot].value;
      ActKeepsFrame(c, w.socks[c.sid], a);
      hide ConnAfter, SockAfter, CanAct;
    case _ =>
  }

  lemma LinkedAt(w: World, slot: nat)
    requires Inv(w) && w.Live(slot)
    ensures Linked(w, slot)
    ensures |w.gens| == |w.conns| && w.conns[slot].value.gen == w.gens[slot]
    ensures w.conns[slot].value.wpos <= |w.conns[slot].value.wbuf|
    ensures w.conns[slot].value.st.Some? ==> w.socks[w.conns[slot].value.sid].session == w.conns[slot].value.st.value
    ensures w.conns[slot].value.st.None? ==>
      !w.conns[slot].value.closing && w.conns[slot].value.rbuf == [] && w.conns[slot].value.ended.None?
  {
    hide History, JobOk, HandedOk, Done, AccountedAfter;
    ConnOf(w, slot);
  }

  /** Characters of ASCII as bytes. */
  function Text(s: string): bytes {
    seq(|s|, i requires 0 <= i < |s| => s[i] as int % 256)
  }

  /** What the parser complains of. */
  function Complaint(e: Resp.Error): string {
    match e
    case TooBigLine => "too big inline request"
    case BadArrayHeader => "bad array header"
    case InvalidMultibulkLength => "invalid multibulk length"
    case ExpectedBulk => "expected bulk string"
    case BadBulkLen => "bad bulk len"
    case InvalidBulkLength => "invalid bulk length"
    case NotTerminated => "bulk string not terminated by CRLF"
  }

  /** The error reply to input that is malformed or too long: one line, the same in either dialect. */
  function Refusal(buf: bytes, overflow: bool): bytes {
    var why := if overflow then "query buffer limit exceeded"
               else match Drain(buf).error case Some(e) => Complaint(e) case None => "";
    Text("-ERR Protocol error: " + why + "\r\n")
  }

  const VACANT := Conn(0, 0, [], [], 0, None, false, false, false, None)

  /** The connection in a slot; an empty slot reads as a vacant one. */
  function ConnAt(w: World, slot: nat): Conn {
    if w.Live(slot) then w.conns[slot].value else VACANT
  }

  /** What waits unread in the kernel for the connection in a slot. */
  function InboxAt(w: World, slot: nat): bytes {
    if Linked(w, slot) then w.socks[w.conns[slot].value.sid].inbox else []
  }

  /** How much output the kernel would take for it. */
  function RoomAt(w: World, slot: nat): nat {
    if Linked(w, slot) then w.socks[w.conns[slot].value.sid].room else 0
  }

  /** Whether the client has closed its side of it. */
  function FinAt(w: World, slot: nat): bool {
    Linked(w, slot) && w.socks[w.conns[slot].value.sid].fin
  }

  lemma SeenAt(w: World, slot: nat)
    requires Inv(w) && w.Live(slot)
    ensures Linked(w, slot)
    ensures ConnAt(w, slot) == w.conns[slot].value
    ensures InboxAt(w, slot) == w.socks[w.conns[slot].value.sid].inbox
    ensures RoomAt(w, slot) == w.socks[w.conns[slot].value.sid].room
    ensures FinAt(w, slot) == w.socks[w.conns[slot].value.sid].fin
  {
    LinkedAt(w, slot);
    hide Inv;
  }

  /** The world after the connection in a slot, and its socket, changed. */
  ghost function With(w: World, slot: nat, c: Conn, s: Sock): World
    requires slot < |w.conns|
  {
    w.(conns := w.conns[slot := Some(c)], socks := w.socks[c.sid := s])
  }

  lemma LoopMoves(w: World, slot: nat, a: Act, c: Conn, s: Sock)
    requires Inv(w) && Linked(w, slot) && c == w.conns[slot].value && s == w.socks[c.sid] && CanAct(c, s, a)
    ensures var c', s' := ConnAfter(c, s, a), SockAfter(c, s, a);
      var w' := With(w, slot, c', s');
      && Moved(w, w', slot) && Inv(w') && w'.Live(slot)
      && ConnAt(w', slot) == c' && InboxAt(w', slot) == s'.inbox && RoomAt(w', slot) == s'.room
      && FinAt(w', slot) == s'.fin
  {
    ActKeepsFrame(c, s, a);
    hide Inv, Moved, CanAct, ConnAfter, SockAfter;
    StepMoves(w, Loop(slot, a), slot);
    MovedValid(w, Apply(w, Loop(slot, a)), slot);
  }

  lemma FetchIs(c: Conn, s: Sock, n: nat)
    requires c.st.Some? && n <= |s.inbox|
    ensures CanAct(c, s, Fetch(n))
    ensures ConnAfter(c, s, Fetch(n)) == c.(rbuf := c.rbuf + s.inbox[..n])
    ensures SockAfter(c, s, Fetch(n)) == s.(inbox := s.inbox[n..], received := s.received + s.inbox[..n])
    ensures (c.rbuf + s.inbox[..n]) + s.inbox[n..] == c.rbuf + s.inbox
  {
    assert s.inbox == s.inbox[..n] + s.inbox[n..];
  }

  lemma SendIs(c: Conn, s: Sock, n: nat)
    requires n <= |c.Pending()| && n <= s.room
    ensures CanAct(c, s, Send(n))
    ensures ConnAfter(c, s, Send(n)) == ConnSent(c, n) && SockAfter(c, s, Send(n)) == SockSent(c, s, n)
  {
  }

  // ------------------------------------------------------------ what becomes of input and output

  /** On this socket input may have been taken, and nothing else happened. */
  ghost predicate ReadOnly(w: World, w': World, sid: Sid) {
    && sid in w.socks && sid in w'.socks
    && var s, s' := w.socks[sid], w'.socks[sid];
       && s' == s.(inbox := s'.inbox, received := s'.received)
       && s'.received + s'.inbox == s.received + s.inbox
  }

  /** Nothing was said for this socket, and nothing written to it. */
  ghost predicate Untouched(w: World, w': World, sid: Sid) {
    && sid in w.socks && sid in w'.socks
    && w'.socks[sid].said == w.socks[sid].said && w'.socks[sid].written == w.socks[sid].written
  }

  /** Something was. */
  ghost predicate Stirred(w: World, w': World, sid: Sid) {
    && sid in w.socks && sid in w'.socks
    && |w.socks[sid].said| + |w.socks[sid].written| < |w'.socks[sid].said| + |w'.socks[sid].written|
  }

  /** The connection was closed, its input not run and its output not written. */
  ghost predicate Cut(w: World, w': World, slot: nat) {
    && w.Live(slot) && !w'.Live(slot)
    && Untouched(w, w', w.conns[slot].value.sid) && w'.socks[w.conns[slot].value.sid].shut
  }

  /**
   * Reading from here on meets the end of the stream before a limit stops it: the
   * limit on what is buffered, or the lower one for a connection held back.
   */
  predicate EndAhead(c: Conn, inbox: bytes, fin: bool) {
    && fin
    && if c.Ready() then inbox == [] || |c.rbuf| + |inbox| <= QUERY_BUFFER_LIMIT
       else |c.rbuf| + |inbox| <= PAUSED_INPUT_LIMIT
  }

  /** Held back, nothing wrong and nothing over: it keeps its place, and its output waits. */
  ghost predicate HeldBack(w: World, w': World, slot: nat) {
    && w'.Live(slot)
    && var c, c' := ConnAt(w, slot), ConnAt(w', slot);
       && c' == c.(rbuf := c'.rbuf, moreToRead := c'.moreToRead, ended := None)
       && c'.Pending() == c.Pending()
       && RoomAt(w', slot) == RoomAt(w, slot) && Untouched(w, w', c.sid)
  }

  /**
   * What a call that reads does with the connection. `failed`: a `read` of the call's
   * own reading loop failed; `broken`: a later system call did.
   */
  ghost predicate ReadOutcome(w: World, w': World, slot: nat, failed: bool, broken: bool) {
    var c := ConnAt(w, slot);
    var over := EndAhead(c, InboxAt(w, slot), FinAt(w, slot));
    && (failed ==> Cut(w, w', slot))
    && (!broken ==> (Cut(w, w', slot) <==> failed || over))
    && (over && !failed ==> Cut(w, w', slot) && AllReceived(w, w', c.sid))
    && (!c.Ready() && |c.rbuf| <= QUERY_BUFFER_LIMIT && !over && !failed ==> HeldBack(w, w', slot))
  }

  /** Everything the client had sent was taken from the kernel. */
  ghost predicate AllReceived(w: World, w': World, sid: Sid) {
    && sid in w.socks && sid in w'.socks
    && w'.socks[sid].received == w.socks[sid].received + w.socks[sid].inbox
  }

  /** Output that can be written and will not be: the connection is held back by it, and input is due. */
  predicate Unsent(c: Conn, inbox: bytes, room: nat, fin: bool) {
    && c.moreToRead && !c.Ready() && |c.rbuf| <= QUERY_BUFFER_LIMIT
    && c.Pending() != [] && room > 0
    && !EndAhead(c, inbox, fin)
  }

  /** Closing, with all its output gone: nothing keeps it any more. */
  ghost predicate Lingers(w: World, slot: nat) {
    w.Live(slot) && w.conns[slot].value.closing && w.conns[slot].value.Pending() == []
  }

  /** Reading finds the connection held back and leaves it so. */
  predicate StaysHeld(c: Conn, inbox: bytes, fin: bool, failed: bool) {
    && c.st.Some? && !c.Ready() && |c.rbuf| <= QUERY_BUFFER_LIMIT
    && !EndAhead(c, inbox, fin) && !failed
  }

  /** A connection lingers afterwards only if it did before, input was due, and reading left it held back. */
  ghost predicate LingersOnlyHeld(w: World, w': World, slot: nat, due: bool, failed: bool) {
    Lingers(w', slot) <==>
      Lingers(w, slot) && due && StaysHeld(ConnAt(w, slot), InboxAt(w, slot), FinAt(w, slot), failed)
  }

  /** What left the connection's output is what the socket was written. */
  ghost predicate Conveyed(w: World, w': World, slot: nat) {
    && w.Live(slot) && w'.Live(slot)
    && var sid := w.conns[slot].value.sid;
       && w'.conns[slot].value.sid == sid && sid in w.socks && sid in w'.socks
       && w'.socks[sid].written + w'.conns[slot].value.Pending() == w.socks[sid].written + w.conns[slot].value.Pending()
  }

  /** Everything that pended was written. */
  ghost predicate Delivered(w: World, w': World, slot: nat) {
    && w.Live(slot)
    && var sid := w.conns[slot].value.sid;
       && sid in w.socks && sid in w'.socks
       && w'.socks[sid].written == w.socks[sid].written + w.conns[slot].value.Pending()
  }

  /** After these a connection takes no more commands: an error reply, QUIT, or a batch that failed. */
  predicate Fatal(e: Event) {
    e.Refused? || e.end.Quit? || e.end.Failed?
  }

  /** After these it belongs to a thread of its own. */
  predicate Parting(e: Event) {
    e.Ran? && (e.end.Subscribe? || e.end.ReplSync?)
  }

  ghost predicate SaidFatal(said: seq<Event>) { exists k :: 0 <= k < |said| && Fatal(said[k]) }

  ghost predicate SaidParting(said: seq<Event>) { exists k :: 0 <= k < |said| && Parting(said[k]) }

  /**
   * A connection is not dropped without cause: it is told to close only after something fatal, and it is
   * gone only because the client closed its side, or it was closing and everything said to it was
   * written, or a dedicated thread has it. `end` is how the batch ended that is acted upon, if any.
   */
  ghost predicate Fair(w: World, w': World, slot: nat, end: Option<End>) {
    w.Live(slot) ==>
      var c := w.conns[slot].value;
      && c.sid in w'.socks
      && var s := w'.socks[c.sid];
         var closing := c.closing || end == Some(Quit) || end == Some(Failed) || SaidFatal(s.said);
         if w'.Live(slot) then w'.conns[slot].value.closing ==> closing
         else
           || (s.shut && s.fin)
           || (s.shut && closing && s.written == Produced(s.said))
           || (s.owner == Dedicated &&
                 ((end.Some? && (end.value.Subscribe? || end.value.ReplSync?)) || SaidParting(s.said)))
  }

  lemma SaidGrows(said: seq<Event>, said': seq<Event>)
    requires said <= said'
    ensures SaidFatal(said) ==> SaidFatal(said')
    ensures SaidParting(said) ==> SaidParting(said')
  {
    if k :| 0 <= k < |said| && Fatal(said[k]) {
      assert Fatal(said'[k]);
    }
    if k :| 0 <= k < |said| && Parting(said[k]) {
      assert Parting(said'[k]);
    }
  }

  /** Nobody touches the socket of a connection that is gone. */
  lemma GoneStays(b: World, c: World, slot: nat, sid: Sid)
    requires Moved(b, c, slot) && !b.Live(slot) && sid in b.socks
    ensures !c.Live(slot) && sid in c.socks && c.socks[sid] == b.socks[sid]
  {
    hide Inv, Reach;
  }

  lemma FairOn(a: World, b: World, c: World, slot: nat, end: Option<End>)
    requires Inv(a) && Moved(a, b, slot) && Moved(b, c, slot)
    requires Fair(a, b, slot, end) && Fair(b, c, slot, None)
    ensures Fair(a, c, slot, end)
  {
    hide Inv, Moved, SaidFatal, SaidParting, Produced;
    if a.Live(slot) {
      LinkedAt(a, slot);
      var sid := a.conns[slot].value.sid;
      MovedGrows(a, b, slot, sid);
      if b.Live(slot) {
        MovedSame(a, b, slot);
        MovedGrows(b, c, slot, sid);
        SaidGrows(b.socks[sid].said, c.socks[sid].said);
      } else {
        GoneStays(b, c, slot, sid);
      }
    }
  }

  /** Still there, and closing only if it was before. */
  lemma FairStill(w: World, w': World, slot: nat, end: Option<End>)
    requires Inv(w) && Moved(w, w', slot)
    requires w.Live(slot) ==> w'.Live(slot)
    requires w.Live(slot) && w'.conns[slot].value.closing ==>
      w.conns[slot].value.closing || end == Some(Quit) || end == Some(Failed)
    ensures Fair(w, w', slot, end)
  {
    hide Inv, Moved, SaidFatal, SaidParting, Produced;
    if w.Live(slot) {
      LinkedAt(w, slot);
      MovedGrows(w, w', slot, w.conns[slot].value.sid);
    }
  }

  ghost predicate EndRecorded(said: seq<Event>, end: End) {
    said != [] && said[|said| - 1].Ran? && said[|said| - 1].end == end
  }

  /** An error reply is reason enough to close. */
  lemma FairRefusal(w: World, w': World, slot: nat)
    requires w.Live(slot) && w'.Live(slot) && w.conns[slot].value.sid in w'.socks
    requires var said := w'.socks[w.conns[slot].value.sid].said; said != [] && said[|said| - 1].Refused?
    ensures Fair(w, w', slot, None)
  {
    var said := w'.socks[w.conns[slot].value.sid].said;
    assert Fatal(said[|said| - 1]);
    hide Produced, SaidParting;
  }

  /** So is the end of the client's side. */
  lemma FairGone(w: World, v: World, w': World, slot: nat, failed: bool)
    requires ReadPart(w, v, slot) && Linked(w, slot) && Linked(v, slot) && Cut(v, w', slot)
    requires var sid := ConnAt(v, slot).sid; sid in w'.socks && w'.socks[sid].fin == v.socks[sid].fin
    requires !failed ==> EndAhead(ConnAt(w, slot), InboxAt(w, slot), FinAt(w, slot))
    ensures !failed ==> Fair(w, w', slot, None)
  {
    hide Produced, SaidParting, SaidFatal, Conn.Pending;
  }

  /** The end acted upon is the one recorded. */
  lemma FairRecorded(w: World, w': World, slot: nat, end: End)
    requires Inv(w) && Moved(w, w', slot) && Fair(w, w', slot, Some(end))
    requires w.Live(slot) && w.conns[slot].value.sid in w.socks
    requires EndRecorded(w.socks[w.conns[slot].value.sid].said, end)
    ensures Fair(w, w', slot, None)
  {
    hide Inv, Moved, Produced;
    var sid := w.conns[slot].value.sid;
    var said := w.socks[sid].said;
    MovedGrows(w, w', slot, sid);
    assert Fatal(said[|said| - 1]) ==> SaidFatal(said);
    assert Parting(said[|said| - 1]) ==> SaidParting(said);
    hide SaidFatal, SaidParting;
    SaidGrows(said, w'.socks[sid].said);
  }

  /** A closing connection whose output is gone may go. */
  lemma FairClose(w: World, w': World, slot: nat)
    requires Inv(w) && w.Live(slot) && w.conns[slot].value.closing && w.conns[slot].value.Pending() == []
    requires Cut(w, w', slot)
    ensures Fair(w, w', slot, None)
  {
    LinkedAt(w, slot);
    ConnOf(w, slot);
    hide Inv, SaidFatal, SaidParting, Produced, AccountedAfter, Conn.Pending;
  }

  lemma ConveyedOn(a: World, b: World, c: World, slot: nat)
    requires Conveyed(a, b, slot) && Conveyed(b, c, slot)
    ensures Conveyed(a, c, slot)
  {
    hide Conn.Pending;
  }

  lemma ConveyedNot(w: World, slot: nat)
    requires Linked(w, slot)
    ensures Conveyed(w, w, slot)
  {
    hide Conn.Pending;
  }

  lemma ClosedDelivers(w: World, v: World, w': World, slot: nat)
    requires Conveyed(w, v, slot) && v.conns[slot].value.Pending() == [] && Cut(v, w', slot)
    ensures Delivered(w, w', slot)
  {
    hide Conn.Pending;
  }

  lemma DeliveredAlike(w: World, v: World, w': World, slot: nat)
    requires w.Live(slot) && v.Live(slot) && v.socks == w.socks
    requires ConnAt(v, slot).sid == ConnAt(w, slot).sid && ConnAt(v, slot).Pending() == ConnAt(w, slot).Pending()
    ensures Delivered(v, w', slot) <==> Delivered(w, w', slot)
  {
    hide Conn.Pending;
  }

  lemma PendingIsNotDelivered(w: World, v: World, w': World, slot: nat)
    requires Conveyed(w, v, slot) && v.conns[slot].value.Pending() != [] && w'.socks == v.socks
    ensures !Delivered(w, w', slot)
  {
    hide Conn.Pending;
    var sid := w.conns[slot].value.sid;
    assert |v.socks[sid].written + v.conns[slot].value.Pending()| > |v.socks[sid].written|;
  }

  lemma ReadOnlyOn(a: World, b: World, c: World, sid: Sid)
    requires ReadOnly(a, b, sid) && ReadOnly(b, c, sid)
    ensures ReadOnly(a, c, sid)
  {
  }

  lemma ReadOnlyTouchesNot(w: World, w': World, sid: Sid)
    requires ReadOnly(w, w', sid)
    ensures Untouched(w, w', sid)
  {
  }

  lemma MovedGrows(w: World, w': World, slot: nat, sid: Sid)
    requires Moved(w, w', slot) && sid in w.socks
    ensures sid in w'.socks && Grown(w.socks[sid], w'.socks[sid])
  {
    hide Inv, Only, Reach;
    ReachGrows(w, w', sid);
  }

  lemma StirredOn(a: World, b: World, c: World, slot: nat, sid: Sid)
    requires Moved(a, b, slot) && Moved(b, c, slot) && sid in a.socks
    requires Stirred(a, b, sid) || Stirred(b, c, sid)
    ensures Stirred(a, c, sid)
  {
    hide Moved;
    MovedGrows(a, b, slot, sid);
    MovedGrows(b, c, slot, sid);
  }

  /** If all of a run touched nothing, neither did its second half. */
  lemma CutOn(a: World, b: World, c: World, slot: nat)
    requires Moved(a, b, slot) && Moved(b, c, slot) && Linked(a, slot) && b.Live(slot) && Cut(a, c, slot)
    ensures Cut(b, c, slot)
  {
    MovedSame(a, b, slot);
    hide Moved, Grown;
    var sid := a.conns[slot].value.sid;
    MovedGrows(a, b, slot, sid);
    MovedGrows(b, c, slot, sid);
    Sandwiched(a.socks[sid], b.socks[sid], c.socks[sid]);
  }

  lemma Sandwiched(a: Sock, b: Sock, c: Sock)
    requires Grown(a, b) && Grown(b, c) && c.said == a.said && c.written == a.written
    ensures c.said == b.said && c.written == b.written
  {
  }

  lemma MovedSame(w: World, w': World, slot: nat)
    requires Moved(w, w', slot) && w'.Live(slot)
    ensures w.Live(slot) && w'.conns[slot].value.sid == w.conns[slot].value.sid
  {
    hide Inv, Reach;
  }

  lemma StirredIsNotCut(w: World, w': World, slot: nat)
    requires w.Live(slot) && Stirred(w, w', w.conns[slot].value.sid)
    ensures !Cut(w, w', slot)
  {
  }

  /** Still there and not closing, unless it was before, or something was said. */
  ghost predicate Going(w: World, u: World, slot: nat) {
    w.Live(slot) ==>
      || Stirred(w, u, w.conns[slot].value.sid)
      || (u.Live(slot) && (u.conns[slot].value.closing ==> w.conns[slot].value.closing))
  }

  /** The measure the handlers share has not grown. */
  ghost predicate NotMore(w: World, u: World, slot: nat) {
    || Load(u, slot) < Load(w, slot)
    || (Load(u, slot) == Load(w, slot) &&
        (Open(u, slot) < Open(w, slot) ||
         (Open(u, slot) == Open(w, slot) && Owing(u, slot) <= Owing(w, slot))))
  }

  /** How one turn of `Process` went: another follows, the loop is over, or the connection is another's. */
  datatype Turning = Again | Over | Left

  /** What a turn after which the connection is still `Process`'s has done. */
  ghost predicate Turned(v: World, u: World, slot: nat) {
    && NotMore(v, u, slot)
    && (Stirred(v, u, ConnAt(v, slot).sid) || (u.Live(slot) && !ConnAt(u, slot).closing))
    && (Heard(ConnAt(v, slot), InboxAt(v, slot)) ==> Heard(ConnAt(u, slot), InboxAt(u, slot)))
  }

  /** Between two batches of `Process`. */
  ghost predicate Processing(w: World, u: World, slot: nat) {
    && Moved(w, u, slot) && ConnAt(u, slot).ended.None?
    && NotMore(w, u, slot) && Going(w, u, slot) && Fair(w, u, slot, None)
    && (Heard(ConnAt(w, slot), InboxAt(w, slot)) ==> Heard(ConnAt(u, slot), InboxAt(u, slot)))
  }

  lemma ProcessingStarts(w: World, slot: nat)
    requires Inv(w) && ConnAt(w, slot).ended.None?
    ensures Processing(w, w, slot)
  {
    hide Inv, Stirred, Moved, Heard, Load, Open, Owing, Fair;
    MovedNot(w, slot);
    FairStill(w, w, slot, None);
  }

  lemma ProcessingFair(w: World, v: World, u: World, slot: nat)
    requires Inv(w) && Processing(w, v, slot) && Moved(v, u, slot) && Fair(v, u, slot, None)
    ensures Fair(w, u, slot, None)
  {
    hide Inv, Moved, NotMore, Going, Heard, Fair;
    FairOn(w, v, u, slot, None);
  }

  lemma ProcessingShows(w: World, u: World, slot: nat)
    requires Processing(w, u, slot)
    ensures ConnAt(u, slot).ended.None?
  {
    hide Moved, NotMore, Going, Heard;
  }

  lemma ProcessingDecreases(w: World, u: World, slot: nat)
    requires Processing(w, u, slot)
    ensures
      || Load(u, slot) < Load(w, slot)
      || (Load(u, slot) == Load(w, slot) &&
          (Open(u, slot) < Open(w, slot) ||
           (Open(u, slot) == Open(w, slot) && Owing(u, slot) <= Owing(w, slot))))
  {
    hide Moved, Going, Heard, Load, Open, Owing;
  }

  lemma ShorterIsLess(v: World, u: World, slot: nat)
    requires Load(u, slot) < Load(v, slot)
    ensures NotMore(v, u, slot)
  {
    hide Load, Open, Owing;
  }

  lemma ClosingIsLess(v: World, u: World, slot: nat)
    requires !ConnAt(v, slot).closing && ConnAt(u, slot).closing
    requires ConnAt(u, slot).rbuf == ConnAt(v, slot).rbuf && InboxAt(u, slot) == InboxAt(v, slot)
    ensures NotMore(v, u, slot)
  {
    hide ConnAt, InboxAt, Conn.Pending;
  }

  lemma RestIsLess(v: World, u: World, slot: nat)
    requires ConnAt(u, slot) == ConnAt(v, slot).(rbuf := Drain(ConnAt(v, slot).rbuf).rest)
    requires InboxAt(u, slot) == InboxAt(v, slot)
    ensures NotMore(v, u, slot)
  {
    RestIsShorter(ConnAt(v, slot).rbuf);
    SamePending(ConnAt(v, slot), ConnAt(u, slot));
    hide ConnAt, InboxAt, Conn.Pending, Drain;
  }

  lemma LessOn(w: World, v: World, u: World, slot: nat)
    requires NotMore(w, v, slot) && NotMore(v, u, slot)
    ensures NotMore(w, u, slot)
  {
    hide Load, Open, Owing;
  }

  lemma ClosedIsHeard(w: World, slot: nat)
    requires !w.Live(slot) || ConnAt(w, slot).closing
    ensures Heard(ConnAt(w, slot), InboxAt(w, slot))
  {
    hide Conn.Pending;
  }

  /** Something was said, and then it need not go on. */
  lemma ProcessingStirs(w: World, v: World, u: World, slot: nat)
    requires Inv(w) && Processing(w, v, slot) && Moved(v, u, slot) && v.Live(slot)
    requires Stirred(v, u, ConnAt(v, slot).sid)
    ensures Moved(w, u, slot) && Going(w, u, slot) && !Cut(w, u, slot)
  {
    hide Inv, Stirred, Moved, Cut, Heard, Load, Open, Owing, NotMore;
    MovedOn(w, v, u, slot);
    MovedSame(w, v, slot);
    LinkedAt(w, slot);
    StirredOn(w, v, u, slot, ConnAt(w, slot).sid);
    StirredIsNotCut(w, u, slot);
  }

  lemma ProcessingGoes(w: World, v: World, u: World, slot: nat)
    requires Inv(w) && Processing(w, v, slot) && Moved(v, u, slot) && v.Live(slot)
    requires Turned(v, u, slot) && ConnAt(u, slot).ended.None? && Fair(v, u, slot, None)
    ensures Processing(w, u, slot)
  {
    hide Inv, Stirred, Moved, Cut, Heard, Load, Open, Owing, NotMore, Fair;
    ProcessingFair(w, v, u, slot);
    if Stirred(v, u, ConnAt(v, slot).sid) {
      ProcessingStirs(w, v, u, slot);
    }
    MovedOn(w, v, u, slot);
    LessOn(w, v, u, slot);
  }

  lemma ProcessingEnds(w: World, u: World, x: World, slot: nat)
    requires Inv(w) && Processing(w, u, slot) && Moved(u, x, slot)
    requires Heard(ConnAt(u, slot), InboxAt(u, slot)) ==> Heard(ConnAt(x, slot), InboxAt(x, slot))
    ensures Moved(w, x, slot)
    ensures Heard(ConnAt(w, slot), InboxAt(w, slot)) ==> Heard(ConnAt(x, slot), InboxAt(x, slot))
    ensures Cut(w, x, slot) && !ConnAt(w, slot).closing ==> !ConnAt(u, slot).closing && Cut(u, x, slot)
  {
    hide Inv, Stirred, Moved, Cut, Heard, Load, Open, Owing, NotMore;
    MovedOn(w, u, x, slot);
    if w.Live(slot) {
      LinkedAt(w, slot);
      var sid := w.conns[slot].value.sid;
      if Stirred(w, u, sid) {
        StirredOn(w, u, x, slot, sid);
        StirredIsNotCut(w, x, slot);
      } else if Cut(w, x, slot) {
        CutOn(w, u, x, slot);
      }
    } else {
      NotCut(w, x, slot);
    }
  }

  lemma NotCut(w: World, w': World, slot: nat)
    requires w.Live(slot) ==> w'.Live(slot)
    ensures !Cut(w, w', slot)
  {
  }

  // ------------------------------------------------------------ the reading loop

  /** What reading leaves: the same connection and socket, but for the bytes that moved. */
  ghost predicate ReadPart(w: World, v: World, slot: nat) {
    && w.Live(slot) && v.Live(slot)
    && var c, c' := ConnAt(w, slot), ConnAt(v, slot);
       && c' == c.(rbuf := c'.rbuf, moreToRead := c'.moreToRead)
       && c'.Pending() == c.Pending() && |c.rbuf| <= |c'.rbuf|
       && Load(v, slot) == Load(w, slot)
       && RoomAt(v, slot) == RoomAt(w, slot) && FinAt(v, slot) == FinAt(w, slot)
       && ReadOnly(w, v, c.sid)
       && (!c.Ready() && |c.rbuf| <= QUERY_BUFFER_LIMIT ==> |c'.rbuf| <= QUERY_BUFFER_LIMIT)
  }

  /** Between two reads: no limit is passed, unless it was before the first. */
  ghost predicate Reading(w: World, v: World, slot: nat) {
    && ReadPart(w, v, slot)
    && !ConnAt(v, slot).moreToRead
    && (|ConnAt(v, slot).rbuf| <= QUERY_BUFFER_LIMIT || InboxAt(v, slot) == InboxAt(w, slot))
  }

  lemma ReadingStarts(w: World, v: World, slot: nat)
    requires Inv(w) && w.Live(slot) && v.Live(slot) && v.socks == w.socks
    requires ConnAt(v, slot) == ConnAt(w, slot).(moreToRead := false)
    ensures Reading(w, v, slot)
  {
    LinkedAt(w, slot);
    SamePending(ConnAt(w, slot), ConnAt(v, slot));
    hide Inv, Conn.Pending;
  }

  lemma ReadingShows(w: World, v: World, slot: nat)
    requires Reading(w, v, slot)
    ensures ConnAt(v, slot).st == ConnAt(w, slot).st && ConnAt(v, slot).ended == ConnAt(w, slot).ended
    ensures ConnAt(v, slot).Ready() == ConnAt(w, slot).Ready()
  {
    hide Conn.Pending;
  }

  lemma ReadingPauses(w: World, v: World, x: World, slot: nat)
    requires Reading(w, v, slot) && ConnAt(v, slot).st.Some? && !ConnAt(v, slot).Ready()
    requires |ConnAt(v, slot).rbuf| > PAUSED_INPUT_LIMIT
    requires Linked(v, slot) && x.Live(slot) && x.socks == v.socks
    requires ConnAt(x, slot) == ConnAt(v, slot).(moreToRead := true)
    ensures ReadPart(w, x, slot) && !EndAhead(ConnAt(w, slot), InboxAt(w, slot), FinAt(w, slot))
    ensures Heard(ConnAt(x, slot), InboxAt(x, slot))
  {
    SamePending(ConnAt(v, slot), ConnAt(x, slot));
    hide Conn.Pending;
  }

  lemma ReadingGoes(w: World, v: World, x: World, slot: nat, got: Got)
    requires Reading(w, v, slot) && ReadLeft(v, x, slot, got) && x.Live(slot)
    requires ConnAt(v, slot).Ready() || |ConnAt(v, slot).rbuf| <= PAUSED_INPUT_LIMIT
    ensures ReadPart(w, x, slot)
    ensures got.Blocked? || (got.Bytes? && |ConnAt(x, slot).rbuf| > QUERY_BUFFER_LIMIT) ==>
      !EndAhead(ConnAt(w, slot), InboxAt(w, slot), FinAt(w, slot))
    ensures got.Ended? ==>
      EndAhead(ConnAt(w, slot), InboxAt(w, slot), FinAt(w, slot)) && InboxAt(x, slot) == []
    ensures got.Blocked? ==> Heard(ConnAt(x, slot), InboxAt(x, slot))
    ensures got.Bytes? ==> |InboxAt(x, slot)| < |InboxAt(v, slot)|
    ensures got.Bytes? && |ConnAt(x, slot).rbuf| <= QUERY_BUFFER_LIMIT ==> Reading(w, x, slot)
  {
    ReadingAdds(w, v, x, slot, got);
    hide Conn.Pending, Moved, InboxAt, RoomAt, FinAt, ReadOnly, ConnAt;
  }

  lemma ReadingAdds(w: World, v: World, x: World, slot: nat, got: Got)
    requires ReadPart(w, v, slot) && ReadLeft(v, x, slot, got) && x.Live(slot)
    requires ConnAt(v, slot).Ready() || |ConnAt(v, slot).rbuf| <= PAUSED_INPUT_LIMIT
    ensures ReadPart(w, x, slot) && |InboxAt(x, slot)| <= |InboxAt(v, slot)|
  {
    SamePending(ConnAt(v, slot), ConnAt(x, slot));
    hide Conn.Pending, Moved, InboxAt, RoomAt, FinAt, ReadOnly, ConnAt;
    ReadOnlyOn(w, v, x, ConnAt(w, slot).sid);
    assert |ConnAt(x, slot).rbuf + InboxAt(x, slot)| == |ConnAt(v, slot).rbuf + InboxAt(v, slot)|;
  }

  lemma ReadMoves(w: World, w': World, slot: nat, got: Got)
    requires ReadLeft(w, w', slot, got)
    ensures Moved(w, w', slot)
  {
    hide Moved, ReadOnly;
  }

  lemma PartShows(w: World, v: World, slot: nat)
    requires ReadPart(w, v, slot)
    ensures var c, c' := ConnAt(w, slot), ConnAt(v, slot);
      && c' == c.(rbuf := c'.rbuf, moreToRead := c'.moreToRead) && |c.rbuf| <= |c'.rbuf|
      && c'.Ready() == c.Ready() && Open(v, slot) == Open(w, slot) && Owing(v, slot) == Owing(w, slot)
      && Load(v, slot) == Load(w, slot) && c'.Pending() == c.Pending() && RoomAt(v, slot) == RoomAt(w, slot)
      && (!c.Ready() && |c.rbuf| <= QUERY_BUFFER_LIMIT ==> |c'.rbuf| <= QUERY_BUFFER_LIMIT)
  {
    hide Conn.Pending, ReadOnly, RoomAt, FinAt, InboxAt;
  }

  lemma GoneOutcome(w: World, v: World, x: World, slot: nat, failed: bool)
    requires ReadPart(w, v, slot) && Linked(w, slot) && Linked(v, slot) && Cut(v, x, slot)
    requires var sid := ConnAt(v, slot).sid;
      sid in v.socks && sid in x.socks && x.socks[sid].received == v.socks[sid].received
    requires failed || (EndAhead(ConnAt(w, slot), InboxAt(w, slot), FinAt(w, slot)) && InboxAt(v, slot) == [])
    ensures ReadOutcome(w, x, slot, failed, false)
  {
    hide EndAhead, Conn.Pending, HeldBack, Conn.Ready;
    CutAfterReading(w, v, x, slot);
    hide Cut;
  }

  lemma RunOutcome(w: World, v: World, x: World, slot: nat, broken: bool)
    requires ReadPart(w, v, slot) && Linked(w, slot) && Moved(w, v, slot) && Moved(v, x, slot)
    requires !EndAhead(ConnAt(w, slot), InboxAt(w, slot), FinAt(w, slot))
    requires ConnAt(v, slot).Ready() || |ConnAt(v, slot).rbuf| > QUERY_BUFFER_LIMIT
    requires !broken ==> !Cut(v, x, slot)
    ensures ReadOutcome(w, x, slot, false, broken)
  {
    PartShows(w, v, slot);
    hide EndAhead, Conn.Pending, HeldBack, Moved, Conn.Ready, ReadOnly, AllReceived, Cut;
    if Cut(w, x, slot) {
      CutOn(w, v, x, slot);
    }
  }

  lemma HeldOutcome(w: World, v: World, slot: nat)
    requires ReadPart(w, v, slot) && ConnAt(w, slot).ended.None?
    requires !EndAhead(ConnAt(w, slot), InboxAt(w, slot), FinAt(w, slot))
    requires !ConnAt(v, slot).Ready() && |ConnAt(v, slot).rbuf| <= QUERY_BUFFER_LIMIT && ConnAt(w, slot).st.Some?
    ensures ReadOutcome(w, v, slot, false, false)
    ensures Quiet(ConnAt(v, slot)) && LingersOnlyHeld(w, v, slot, true, false)
  {
    PartShows(w, v, slot);
    ReadOnlyTouchesNot(w, v, ConnAt(w, slot).sid);
    NotCut(w, v, slot);
    hide EndAhead, Conn.Pending, Cut, AllReceived, Untouched, Drain;
  }

  lemma ClosingIsHeard(c: Conn, inbox: bytes)
    requires c.closing
    ensures Heard(c, inbox)
  {
    hide Conn.Pending;
  }

  /** A ready connection has heard everything only if nothing waits; and then it has in any state. */
  lemma ReadyHears(c: Conn, inbox: bytes)
    requires c.Ready()
    ensures Heard(c, inbox) ==> forall c' :: Heard(c', inbox)
  {
    hide Conn.Pending;
  }

  lemma NotedIsHeard(w: World, x: World, slot: nat)
    requires ConnAt(w, slot).st.None? && ConnAt(x, slot) == ConnAt(w, slot).(moreToRead := true)
    ensures Heard(ConnAt(x, slot), InboxAt(x, slot)) && Quiet(ConnAt(x, slot)) && !ConnAt(w, slot).Ready()
  {
    hide Drain, Conn.Pending, InboxAt, ConnAt;
  }

  /** The outcome is the same whether the batch just back was marked as ended or not. */
  lemma OutcomeUnmarked(v: World, u: World, x: World, slot: nat, failed: bool, broken: bool)
    requires Linked(v, slot) && u.Live(slot) && u.socks == v.socks
    requires ConnAt(u, slot) == ConnAt(v, slot).(ended := None) && ReadOutcome(u, x, slot, failed, broken)
    ensures ReadOutcome(v, x, slot, failed, broken)
  {
    SamePending(ConnAt(v, slot), ConnAt(u, slot));
    hide Conn.Pending;
  }

  /**
   * What becomes of a connection whose batch has come back (`v`). If it goes on and
   * input is due, it is read from; and output stays unwritten although the socket
   * would take it exactly if it is held back by that output, input is due, and
   * reading neither fails nor meets the end of the stream.
   */
  ghost predicate Answered(v: World, x: World, slot: nat, failed: bool, broken: bool) {
    var r := ConnAt(v, slot);
    && (r.ended == Some(Continue) && r.moreToRead ==> ReadOutcome(v, x, slot, failed, broken))
    && (!Flushed(ConnAt(x, slot), RoomAt(x, slot)) <==>
          && r.ended == Some(Continue) && !failed
          && Unsent(r, InboxAt(v, slot), RoomAt(v, slot), FinAt(v, slot)))
    && LingersOnlyHeld(v, x, slot, r.ended == Some(Continue) && r.moreToRead, failed)
  }

  lemma AnsweredNow(v: World, x: World, slot: nat, broken: bool)
    requires ConnAt(v, slot).ended != Some(Continue) && Flushed(ConnAt(x, slot), RoomAt(x, slot))
    requires !Lingers(x, slot)
    ensures Answered(v, x, slot, false, broken)
  {
    hide ReadOutcome, Unsent, Flushed;
  }

  lemma AnsweredThen(v: World, u: World, x: World, slot: nat, failed: bool, broken: bool)
    requires Linked(v, slot) && u.Live(slot) && u.socks == v.socks
    requires ConnAt(v, slot).ended == Some(Continue) && ConnAt(u, slot) == ConnAt(v, slot).(ended := None)
    requires var c := ConnAt(u, slot);
      && ((c.moreToRead && !c.Ready() && |c.rbuf| <= QUERY_BUFFER_LIMIT) ||
          Flushed(ConnAt(x, slot), RoomAt(x, slot)))
      && if c.moreToRead then ReadOutcome(u, x, slot, failed, broken) else !failed
    requires LingersOnlyHeld(u, x, slot, ConnAt(u, slot).moreToRead, failed)
    ensures Answered(v, x, slot, failed, broken)
  {
    UnsentIff(u, x, slot, failed, broken);
    if ConnAt(u, slot).moreToRead {
      OutcomeUnmarked(v, u, x, slot, failed, broken);
    }
    SamePending(ConnAt(v, slot), ConnAt(u, slot));
    hide ReadOutcome, Flushed, Conn.Pending;
  }

  lemma UnsentIff(u: World, x: World, slot: nat, failed: bool, broken: bool)
    requires u.Live(slot)
    requires var c := ConnAt(u, slot);
      && ((c.moreToRead && !c.Ready() && |c.rbuf| <= QUERY_BUFFER_LIMIT) ||
          Flushed(ConnAt(x, slot), RoomAt(x, slot)))
      && if c.moreToRead then ReadOutcome(u, x, slot, failed, broken) else !failed
    ensures var c := ConnAt(u, slot);
      !Flushed(ConnAt(x, slot), RoomAt(x, slot)) <==>
        !failed && Unsent(c, InboxAt(u, slot), RoomAt(u, slot), FinAt(u, slot))
  {
    hide EndAhead, AllReceived, Untouched, Conn.Ready;
  }

  /** Reading, then closing. */
  lemma CutAfterReading(w: World, v: World, w': World, slot: nat)
    requires w.Live(slot) && ReadOnly(w, v, w.conns[slot].value.sid)
    requires v.Live(slot) && v.conns[slot].value.sid == w.conns[slot].value.sid && Cut(v, w', slot)
    ensures Cut(w, w', slot)
  {
  }

  // ------------------------------------------------------------ why the handlers end

  /** Input not yet parsed, in the kernel or buffered. */
  function Load(w: World, slot: nat): nat {
    |InboxAt(w, slot)| + |ConnAt(w, slot).rbuf|
  }

  function Open(w: World, slot: nat): nat {
    if ConnAt(w, slot).closing then 0 else 1
  }

  function Owing(w: World, slot: nat): nat {
    |ConnAt(w, slot).Pending()|
  }

  /** What one call of `read` on a socket can come back with. */
  datatype Got = Bytes | Blocked | Ended | Errored

  /** The most one call of `read` takes. */
  const READ_SIZE := 64 * 1024

  /** What one call of `write` can. */
  datatype Put = Took(n: nat) | Full | Broken

  /** Polls a pool thread waits for the next command, and reads it makes, before handing back. */
  const OWNED_WAITS := 6
  const OWNED_READS := 8

  /** What a read leaves: bytes only move from the kernel to the buffer, and only if it says so. */
  ghost predicate ReadLeft(w: World, w': World, slot: nat, got: Got) {
    && Moved(w, w', slot)
    && var c, c' := ConnAt(w, slot), ConnAt(w', slot);
       && c' == c.(rbuf := c'.rbuf)
       && c'.rbuf + InboxAt(w', slot) == c.rbuf + InboxAt(w, slot)
       && |c'.rbuf| <= |c.rbuf| + READ_SIZE
       && RoomAt(w', slot) == RoomAt(w, slot) && FinAt(w', slot) == FinAt(w, slot)
       && ReadOnly(w, w', c.sid)
       && (got.Bytes? ==> |InboxAt(w', slot)| < |InboxAt(w, slot)|)
       && (!got.Bytes? ==> w' == w)
       && (got.Blocked? || got.Ended? ==> InboxAt(w', slot) == [] && FinAt(w, slot) == got.Ended?)
  }

  /** What a write leaves: the front of the pending output gone, and only if it says so. */
  ghost predicate WriteLeft(w: World, w': World, slot: nat, put: Put) {
    && Moved(w, w', slot)
    && var c, c' := ConnAt(w, slot), ConnAt(w', slot);
       && (put.Took? ==>
             && 0 < put.n <= |c.Pending()|
             && c' == c.(wpos := c.wpos + put.n)
             && c'.Pending() == c.Pending()[put.n..])
       && InboxAt(w', slot) == InboxAt(w, slot)
       && (put.Took? ==> Stirred(w, w', c.sid) && Conveyed(w, w', slot))
       && (!put.Took? ==> w' == w)
       && (put.Full? ==> RoomAt(w', slot) == 0)
  }

  lemma FetchLeaves(w: World, slot: nat, n: nat)
    requires Inv(w) && w.Live(slot) && w.conns[slot].value.sid in w.socks
    requires var c := w.conns[slot].value; c.st.Some? && 0 < n <= |w.socks[c.sid].inbox| && n <= READ_SIZE
    ensures var c := w.conns[slot].value; var s := w.socks[c.sid];
      var c' := c.(rbuf := c.rbuf + s.inbox[..n]);
      var s' := s.(inbox := s.inbox[n..], received := s.received + s.inbox[..n]);
      var w' := With(w, slot, c', s');
      Inv(w') && w'.Live(slot) && ReadLeft(w, w', slot, Bytes)
  {
    var c := w.conns[slot].value;
    var s := w.socks[c.sid];
    hide Inv, Moved, Conn.Pending, CanAct, ConnAfter, SockAfter;
    FetchIs(c, s, n);
    SeenAt(w, slot);
    ReceivedOnly(w, slot, n);
    hide Inv, Moved, Conn.Pending, ConnAt, InboxAt, RoomAt, FinAt, CanAct, ConnAfter, SockAfter, With, ReadOnly;
    LoopMoves(w, slot, Fetch(n), c, s);
  }

  lemma ReceivedOnly(w: World, slot: nat, n: nat)
    requires Linked(w, slot) && n <= |w.socks[w.conns[slot].value.sid].inbox|
    ensures var c := w.conns[slot].value; var s := w.socks[c.sid];
      var c' := c.(rbuf := c.rbuf + s.inbox[..n]);
      var s' := s.(inbox := s.inbox[n..], received := s.received + s.inbox[..n]);
      ReadOnly(w, With(w, slot, c', s'), c.sid)
  {
    var s := w.socks[w.conns[slot].value.sid];
    assert (s.received + s.inbox[..n]) + s.inbox[n..] == s.received + s.inbox;
  }

  /** The connection and its socket after `n` bytes went out. */
  ghost function ConnSent(c: Conn, n: nat): Conn { c.(wpos := c.wpos + n) }

  ghost function SockSent(c: Conn, s: Sock, n: nat): Sock
    requires n <= |c.Pending()| && n <= s.room
  {
    s.(written := s.written + c.Pending()[..n], room := s.room - n)
  }

  lemma SendMoves(w: World, slot: nat, n: nat, c: Conn, s: Sock)
    requires Inv(w) && Linked(w, slot) && c == w.conns[slot].value && s == w.socks[c.sid]
    requires n <= |c.Pending()| && n <= s.room
    ensures var w' := With(w, slot, ConnSent(c, n), SockSent(c, s, n));
      && Moved(w, w', slot) && Inv(w') && w'.Live(slot)
      && ConnAt(w', slot) == ConnSent(c, n) && InboxAt(w', slot) == s.inbox
  {
    SendIs(c, s, n);
    assert SockSent(c, s, n).inbox == s.inbox;
    hide *;
    LoopMoves(w, slot, Send(n), c, s);
  }

  lemma SendLeaves(w: World, slot: nat, n: nat, c: Conn, s: Sock)
    requires Inv(w) && Linked(w, slot) && c == w.conns[slot].value && s == w.socks[c.sid]
    requires 0 < n <= |c.Pending()| && n <= s.room
    ensures var w' := With(w, slot, ConnSent(c, n), SockSent(c, s, n));
      Inv(w') && w'.Live(slot) && WriteLeft(w, w', slot, Took(n))
  {
    SeenAt(w, slot);
    LinkedAt(w, slot);
    SendMoves(w, slot, n, c, s);
    SendStirs(w, slot, n, c, s);
    WrittenIs(w, With(w, slot, ConnSent(c, n), SockSent(c, s, n)), slot, n, c);
    hide *;
  }

  lemma SendStirs(w: World, slot: nat, n: nat, c: Conn, s: Sock)
    requires Linked(w, slot) && c == w.conns[slot].value && s == w.socks[c.sid]
    requires 0 < n <= |c.Pending()| && n <= s.room
    requires c.wpos <= |c.wbuf|
    ensures Stirred(w, With(w, slot, ConnSent(c, n), SockSent(c, s, n)), c.sid)
    ensures Conveyed(w, With(w, slot, ConnSent(c, n), SockSent(c, s, n)), slot)
  {
    PendingMoves(c, n);
    hide Conn.Pending;
    var out := c.Pending();
    assert (s.written + out[..n]) + out[n..] == s.written + out;
  }

  lemma WrittenIs(w: World, w': World, slot: nat, n: nat, c: Conn)
    requires Moved(w, w', slot) && ConnAt(w, slot) == c && ConnAt(w', slot) == ConnSent(c, n)
    requires InboxAt(w', slot) == InboxAt(w, slot)
    requires c.wpos <= |c.wbuf| && 0 < n <= |c.Pending()| && Stirred(w, w', c.sid) && Conveyed(w, w', slot)
    ensures WriteLeft(w, w', slot, Took(n))
  {
    hide Moved, Conn.Pending, ConnAt, InboxAt, RoomAt, Stirred, Conveyed;
    PendingMoves(c, n);
  }

  lemma NothingRead(w: World, slot: nat)
    requires Inv(w) && w.Live(slot)
    ensures ReadLeft(w, w, slot, Errored) && Linked(w, slot)
    ensures var s := w.socks[w.conns[slot].value.sid];
      s.inbox == [] ==> ReadLeft(w, w, slot, if s.fin then Ended else Blocked)
  {
    SeenAt(w, slot);
    MovedNot(w, slot);
    hide Inv, Moved;
  }

  lemma NothingWritten(w: World, slot: nat)
    requires Inv(w) && w.Live(slot)
    ensures WriteLeft(w, w, slot, Broken) && ConnAt(w, slot) == w.conns[slot].value
    ensures Linked(w, slot) && (w.socks[w.conns[slot].value.sid].room == 0 ==> WriteLeft(w, w, slot, Full))
  {
    SeenAt(w, slot);
    MovedNot(w, slot);
    hide Inv, Moved;
  }

  /** Every batch out has a name below `next`. */
  ghost predicate Named(jobs: map<JobId, Job>, next: JobId) {
    forall id :: id in jobs ==> id < next
  }

  class IoWorker {
    var conns: seq<Option<Conn>>
    var gens: seq<Gen>
    var free: seq<nat>
    var jobs: map<JobId, Job>
    var done: seq<JobId>
    var dedicated: map<Sid, Handed>
    var socks: map<Sid, Sock>
    /** Names for batches; every one given out so far is smaller. */
    var nextJob: JobId

    ghost function W(): World
      reads this
    {
      World(conns, gens, free, jobs, done, dedicated, socks)
    }

    ghost predicate Valid()
      reads this
    {
      Inv(W()) && Named(jobs, nextJob)
    }

    constructor ()
      ensures Valid() && W() == EMPTY && Settled(W())
    {
      conns, gens, free, jobs, done, dedicated, socks, nextJob := [], [], [], map[], [], map[], map[], 0;
    }

    predicate Live(slot: nat)
      reads this
    {
      slot < |conns| && conns[slot].Some?
    }

    /** The connection in a slot and its socket change, and nothing else. */
    method Change(slot: nat, c: Conn, s: Sock)
      requires slot < |conns|
      modifies this`conns, this`socks
      ensures W() == With(old(W()), slot, c, s)
    {
      conns := conns[slot := Some(c)];
      socks := socks[c.sid := s];
    }

    // ---------------------------------------------------------- one system call each

    /** `read`: some of what waits, nothing yet, or the end of the stream or an error. */
    method ReadSome(slot: nat) returns (got: Got)
      requires Valid() && Live(slot) && conns[slot].value.st.Some?
      modifies this`conns, this`socks
      ensures Valid() && Live(slot) && ReadLeft(old(W()), W(), slot, got)
    {
      ghost var w := W();
      NothingRead(w, slot);
      hide Inv, ReadLeft, With, Named;
      var c := conns[slot].value;
      var s := socks[c.sid];
      var failed: bool := *;
      if failed {
        return Errored;
      }
      if s.inbox == [] {
        return if s.fin then Ended else Blocked;
      }
      var some: int := *;
      var n: nat := if 0 < some <= READ_SIZE && some <= |s.inbox| then some else 1;
      Receive(slot, n);
      return Bytes;
    }

    /** `n` bytes move from the kernel to the connection. */
    method Receive(slot: nat, n: nat)
      requires Valid() && Linked(W(), slot) && conns[slot].value.st.Some?
      requires 0 < n <= |socks[conns[slot].value.sid].inbox| && n <= READ_SIZE
      modifies this`conns, this`socks
      ensures Valid() && Live(slot) && ReadLeft(old(W()), W(), slot, Bytes)
    {
      hide Inv, ReadLeft, With, Named;
      FetchLeaves(W(), slot, n);
      var c := conns[slot].value;
      var s := socks[c.sid];
      Change(slot, c.(rbuf := c.rbuf + s.inbox[..n]), s.(inbox := s.inbox[n..], received := s.received + s.inbox[..n]));
    }

    /** `write`: part of the pending output, nothing because the socket is full, or an error. */
    method SendSome(slot: nat) returns (put: Put)
      requires Valid() && Live(slot) && ConnAt(W(), slot).Pending() != []
      modifies this`conns, this`socks
      ensures Valid() && Live(slot) && WriteLeft(old(W()), W(), slot, put)
    {
      ghost var w := W();
      NothingWritten(w, slot);
      hide Inv, WriteLeft, With, Named, ConnAt, Conn.Pending;
      var c := conns[slot].value;
      var s := socks[c.sid];
      var failed: bool := *;
      if failed {
        return Broken;
      }
      if s.room == 0 {
        return Full;
      }
      var some: int := *;
      var n: nat := if 0 < some <= s.room && some <= |c.Pending()| then some else 1;
      Transmit(slot, n);
      return Took(n);
    }

    /** `n` bytes of pending output move to the kernel. */
    method Transmit(slot: nat, n: nat)
      requires Valid() && Linked(W(), slot)
      requires 0 < n <= |conns[slot].value.Pending()| && n <= socks[conns[slot].value.sid].room
      modifies this`conns, this`socks
      ensures Valid() && Live(slot) && WriteLeft(old(W()), W(), slot, Took(n))
    {
      hide Inv, WriteLeft, With, Named, Conn.Pending;
      var c := conns[slot].value;
      var s := socks[c.sid];
      SendLeaves(W(), slot, n, c, s);
      Change(slot, c.(wpos := c.wpos + n), s.(written := s.written + c.Pending()[..n], room := s.room - n));
    }

    /** Give back the memory of output already written. */
    method Tidy(slot: nat)
      requires Valid() && Live(slot)
      modifies this`conns
      ensures Valid() && Moved(old(W()), W(), slot) && Live(slot)
      ensures ConnAt(W(), slot) == old(ConnAt(W(), slot)).(wbuf := old(ConnAt(W(), slot)).Pending(), wpos := 0)
      ensures ConnAt(W(), slot).Pending() == old(ConnAt(W(), slot)).Pending()
      ensures InboxAt(W(), slot) == old(InboxAt(W(), slot)) && RoomAt(W(), slot) == old(RoomAt(W(), slot))
    {
      ghost var w := W();
      hide Inv, Moved;
      LinkedAt(w, slot);
      var c := conns[slot].value;
      PendingMoves(c, 0);
      conns := conns[slot := Some(c.(wbuf := c.Pending(), wpos := 0))];
      Unchanged(w, slot);
      StepMoves(w, Loop(slot, Compact), slot);
      MovedValid(w, W(), slot);
    }

    method Note(slot: nat, more: bool)
      requires Valid() && Live(slot)
      modifies this`conns
      ensures Valid() && Moved(old(W()), W(), slot) && Live(slot)
      ensures ConnAt(W(), slot) == old(ConnAt(W(), slot)).(moreToRead := more)
      ensures InboxAt(W(), slot) == old(InboxAt(W(), slot)) && RoomAt(W(), slot) == old(RoomAt(W(), slot))
    {
      ghost var w := W();
      hide Inv, Moved, Conn.Pending;
      LinkedAt(w, slot);
      conns := conns[slot := Some(conns[slot].value.(moreToRead := more))];
      Unchanged(w, slot);
      StepMoves(w, Loop(slot, Remember(more)), slot);
      MovedValid(w, W(), slot);
    }

    /** Answer input that is malformed or too long, and stop listening. */
    method Reject(slot: nat, overflow: bool)
      requires Valid() && Live(slot) && ConnAt(W(), slot).ended.None? && ConnAt(W(), slot).st.Some?
      requires if overflow then |ConnAt(W(), slot).rbuf| > QUERY_BUFFER_LIMIT
               else ConnAt(W(), slot).Ready() && Unparsable(ConnAt(W(), slot).rbuf)
      modifies this`conns, this`socks
      ensures Valid() && Moved(old(W()), W(), slot) && Live(slot)
      ensures ConnAt(W(), slot).closing && ConnAt(W(), slot).ended.None?
      ensures ConnAt(W(), slot).wpos == old(ConnAt(W(), slot)).wpos
      ensures ConnAt(W(), slot).wbuf ==
        old(ConnAt(W(), slot)).wbuf + Refusal(old(ConnAt(W(), slot)).rbuf, overflow)
      ensures Stirred(old(W()), W(), ConnAt(old(W()), slot).sid) && Fair(old(W()), W(), slot, None)
      ensures InboxAt(W(), slot) == old(InboxAt(W(), slot)) && RoomAt(W(), slot) == old(RoomAt(W(), slot))
      ensures if overflow then ConnAt(W(), slot).rbuf == [] else ConnAt(W(), slot).rbuf == old(ConnAt(W(), slot).rbuf)
    {
      ghost var w := W();
      hide Inv, Moved, Conn.Pending, Unparsable, Refusal;
      LinkedAt(w, slot);
      var c := conns[slot].value;
      var s := socks[c.sid];
      var reply := Refusal(c.rbuf, overflow);
      var kept := if overflow then [] else c.rbuf;
      conns := conns[slot := Some(c.(wbuf := c.wbuf + reply, closing := true, rbuf := kept))];
      socks := socks[c.sid := s.(said := s.said + [Refused(reply)])];
      var a := if overflow then Overflow(reply) else Refuse(reply);
      StepMoves(w, Loop(slot, a), slot);
      MovedValid(w, W(), slot);
      FairRefusal(w, W(), slot);
    }

    /** Only empty commands were complete: they are dropped. */
    method DropEmpty(slot: nat, rest: bytes)
      requires Valid() && Live(slot) && ConnAt(W(), slot).ended.None? && ConnAt(W(), slot).Ready()
      requires Drain(ConnAt(W(), slot).rbuf).cmds == [] && Drain(ConnAt(W(), slot).rbuf).error.None?
      requires rest == Drain(ConnAt(W(), slot).rbuf).rest
      modifies this`conns
      ensures Valid() && Moved(old(W()), W(), slot) && Live(slot)
      ensures ConnAt(W(), slot) == old(ConnAt(W(), slot)).(rbuf := rest) && Quiet(ConnAt(W(), slot))
      ensures InboxAt(W(), slot) == old(InboxAt(W(), slot)) && RoomAt(W(), slot) == old(RoomAt(W(), slot))
    {
      ghost var w := W();
      hide Inv, Moved, Conn.Pending, Drain;
      LinkedAt(w, slot);
      conns := conns[slot := Some(conns[slot].value.(rbuf := rest))];
      Unchanged(w, slot);
      DrainTwice(ConnAt(w, slot).rbuf);
      StepMoves(w, Loop(slot, Skip), slot);
      MovedValid(w, W(), slot);
    }

    /** Run a batch on the worker itself. */
    method RunHere(slot: nat, cmds: seq<Args>, rest: bytes) returns (end: End)
      requires Valid() && Live(slot) && ConnAt(W(), slot).ended.None? && ConnAt(W(), slot).Ready()
      requires cmds != [] && cmds == Drain(ConnAt(W(), slot).rbuf).cmds && rest == Drain(ConnAt(W(), slot).rbuf).rest
      modifies this`conns, this`socks
      ensures Valid() && Moved(old(W()), W(), slot) && Live(slot)
      ensures ConnAt(W(), slot).ended == Some(end) && ConnAt(W(), slot).st.Some?
      ensures ConnAt(W(), slot).rbuf == rest && !ConnAt(W(), slot).closing
      ensures ConnAt(W(), slot).moreToRead == old(ConnAt(W(), slot).moreToRead)
      ensures InboxAt(W(), slot) == old(InboxAt(W(), slot)) && RoomAt(W(), slot) == old(RoomAt(W(), slot))
      ensures Load(W(), slot) < old(Load(W(), slot)) && Stirred(old(W()), W(), ConnAt(old(W()), slot).sid)
      ensures ConnAt(W(), slot).sid in socks && EndRecorded(socks[ConnAt(W(), slot).sid].said, end)
    {
      ghost var w := W();
      hide Inv, Moved, Conn.Pending, Drain;
      LinkedAt(w, slot);
      var c := conns[slot].value;
      var s := socks[c.sid];
      var o := RunBatch(c.st.value, cmds);
      DrainShrinks(c.rbuf);
      var c' := c.(rbuf := rest, st := Some(o.after), wbuf := c.wbuf + o.reply, ended := Some(o.end));
      conns := conns[slot := Some(c')];
      var e := Ran(o.ran, s.session, o.after, o.reply, o.end);
      socks := socks[c.sid := s.(said := s.said + [e], session := o.after)];
      StepMoves(w, Loop(slot, RunInline(o)), slot);
      MovedValid(w, W(), slot);
      return o.end;
    }

    /** Send a batch, with the session and the unparsed input, to the pool. */
    method SubmitBatch(slot: nat, cmds: seq<Args>, rest: bytes)
      requires Valid() && Live(slot) && ConnAt(W(), slot).ended.None? && ConnAt(W(), slot).Ready()
      requires cmds != [] && cmds == Drain(ConnAt(W(), slot).rbuf).cmds && rest == Drain(ConnAt(W(), slot).rbuf).rest
      modifies this`conns, this`socks, this`jobs, this`nextJob
      ensures Valid() && Moved(old(W()), W(), slot) && Live(slot)
      ensures ConnAt(W(), slot).st.None? && ConnAt(W(), slot).ended.None? && ConnAt(W(), slot).rbuf == []
      ensures !ConnAt(W(), slot).closing
      ensures InboxAt(W(), slot) == old(InboxAt(W(), slot)) && RoomAt(W(), slot) == old(RoomAt(W(), slot))
      ensures Load(W(), slot) < old(Load(W(), slot))
    {
      ghost var w := W();
      hide Inv, Moved, Drain;
      LinkedAt(w, slot);
      var c := conns[slot].value;
      var direct := c.Pending() == [];
      DrainShrinks(c.rbuf);
      conns := conns[slot := Some(c.(st := None, rbuf := [], muted := c.muted || direct))];
      jobs := jobs[nextJob := Job(c.sid, slot, c.gen, c.st.value, cmds, rest, [], direct, None, false, false)];
      socks := socks[c.sid := socks[c.sid].(owner := Batch(nextJob))];
      StepMoves(w, Submit(slot, nextJob), slot);
      MovedValid(w, W(), slot);
      nextJob := nextJob + 1;
    }

    /** Take a connection out of its slot, and shut the socket. */
    method CloseSlot(slot: nat)
      requires Valid() && Live(slot)
      modifies this`conns, this`gens, this`free, this`socks
      ensures Valid() && Moved(old(W()), W(), slot) && !Live(slot) && Cut(old(W()), W(), slot)
      ensures var sid := ConnAt(old(W()), slot).sid;
        && sid in old(socks) && sid in socks && socks[sid].received == old(socks)[sid].received
        && socks[sid].fin == old(socks)[sid].fin
    {
      ghost var w := W();
      hide Inv, Moved, Conn.Pending;
      LinkedAt(w, slot);
      var c := conns[slot].value;
      var s := socks[c.sid];
      conns, gens, free := conns[slot := None], gens[slot := gens[slot] + 1], free + [slot];
      socks := socks[c.sid := s.(shut := true, owner := if s.owner == Slot(slot) then Nobody else s.owner)];
      StepMoves(w, Step.Close(slot), slot);
      MovedValid(w, W(), slot);
    }

    /** Take a connection out of its slot, open, for a thread of its own. */
    method HandOff(slot: nat)
      requires Valid() && Live(slot) && ConnAt(W(), slot).st.Some?
      requires ConnAt(W(), slot).ended.Some?
      requires ConnAt(W(), slot).ended.value.Subscribe? || ConnAt(W(), slot).ended.value.ReplSync?
      modifies this`conns, this`gens, this`free, this`socks, this`dedicated
      ensures Valid() && Moved(old(W()), W(), slot) && !Live(slot)
      ensures ConnAt(old(W()), slot).sid in dedicated
      ensures var c, sid := old(ConnAt(W(), slot)), ConnAt(old(W()), slot).sid; var h := dedicated[sid];
        && dedicated == old(dedicated)[sid := h]
        && h.st == c.st.value && h.out == c.Pending() && h.rbuf == c.rbuf
        && (h.sync <==> c.ended.value.ReplSync?)
        && h.cmds == (if c.ended.value.Subscribe? then c.ended.value.rest else [])
        && sid in old(socks) && sid in socks && socks[sid] == old(socks)[sid].(owner := Dedicated)
      ensures Fair(old(W()), W(), slot, ConnAt(old(W()), slot).ended)
    {
      ghost var w := W();
      hide Inv, Moved, Conn.Pending;
      LinkedAt(w, slot);
      var c := conns[slot].value;
      var cmds := match c.ended case Some(Subscribe(rest)) => rest case _ => [];
      conns, gens, free := conns[slot := None], gens[slot := gens[slot] + 1], free + [slot];
      dedicated := dedicated[c.sid := Handed(c.st.value, c.Pending(), cmds, c.rbuf, c.ended == Some(ReplSync))];
      socks := socks[c.sid := socks[c.sid].(owner := Dedicated)];
      StepMoves(w, Step.HandOff(slot), slot);
      MovedValid(w, W(), slot);
    }

    // ---------------------------------------------------------- the loops

    /**
     * Write until done or the socket is full; close when a closing connection is
     * done; resume the input of one that was held back by its output. `broken`: a
     * system call failed, and the connection was closed for it.
     */
    method Flush(slot: nat) returns (broken: bool)
      requires Valid() && ConnAt(W(), slot).ended.None?
      modifies this
      ensures Valid() && Moved(old(W()), W(), slot) && ConnAt(W(), slot).ended.None?
      ensures Flushed(ConnAt(W(), slot), RoomAt(W(), slot))
      ensures Quiet(old(ConnAt(W(), slot))) ==> Quiet(ConnAt(W(), slot))
      ensures Heard(old(ConnAt(W(), slot)), old(InboxAt(W(), slot))) ==> Heard(ConnAt(W(), slot), InboxAt(W(), slot))
      ensures old(ConnAt(W(), slot)).closing ==> !Live(slot) || ConnAt(W(), slot).closing
      ensures !broken && !old(ConnAt(W(), slot)).closing ==> !Cut(old(W()), W(), slot)
      ensures !Lingers(W(), slot) && (broken ==> !Live(slot))
      ensures !broken && old(Live(slot)) && old(ConnAt(W(), slot)).closing ==>
                (!Live(slot) <==> Delivered(old(W()), W(), slot))
      ensures !broken ==> Fair(old(W()), W(), slot, None)
      decreases Load(W(), slot), Open(W(), slot), Owing(W(), slot), 0
    {
      ghost var w := W();
      hide Inv, Moved, Drain, Conn.Pending, Cut, Stirred, Conveyed, Delivered, Fair;
      MovedNot(w, slot);
      broken := false;
      if !Live(slot) {
        NotCut(w, w, slot);
        FairStill(w, w, slot, None);
        return;
      }
      LinkedAt(w, slot);
      var backpressured := |conns[slot].value.Pending()| > OUTPUT_HIGH_WATER;
      broken := Drained(slot);
      ghost var v := W();
      if broken {
        CloseSlot(slot);
        MovedOn(w, v, W(), slot);
        return;
      }
      if conns[slot].value.Pending() == [] && conns[slot].value.closing {
        CloseSlot(slot);
        MovedOn(w, v, W(), slot);
        ClosedDelivers(w, v, W(), slot);
        FairStill(w, v, slot, None);
        FairClose(v, W(), slot);
        FairOn(w, v, W(), slot, None);
        return;
      }
      if conns[slot].value.Pending() != [] {
        PendingIsNotDelivered(w, v, v, slot);
      }
      if conns[slot].value.Pending() == [] || conns[slot].value.wpos > 0x10_0000 {
        Tidy(slot);
        MovedOn(w, v, W(), slot);
        if conns[slot].value.Pending() != [] {
          PendingIsNotDelivered(w, v, W(), slot);
        }
        if Stirred(w, v, ConnAt(w, slot).sid) {
          StirredOn(w, v, W(), slot, ConnAt(w, slot).sid);
        }
        v := W();
      }
      NotCut(w, v, slot);
      FairStill(w, v, slot, None);
      if backpressured && conns[slot].value.Ready() {
        assert Owing(v, slot) < Owing(w, slot);
        var failed: bool;
        failed, broken := Resume(slot);
        broken := failed || broken;
        MovedOn(w, v, W(), slot);
        if !broken {
          FairOn(w, v, W(), slot, None);
        }
        StirredOn(w, v, W(), slot, ConnAt(w, slot).sid);
        StirredIsNotCut(w, W(), slot);
      }
    }

    /** The writing part of a flush. */
    method Drained(slot: nat) returns (failed: bool)
      requires Valid() && Live(slot)
      modifies this`conns, this`socks
      ensures Valid() && Moved(old(W()), W(), slot) && Live(slot)
      ensures ConnAt(W(), slot) == old(ConnAt(W(), slot)).(wpos := ConnAt(W(), slot).wpos)
      ensures InboxAt(W(), slot) == old(InboxAt(W(), slot))
      ensures Owing(W(), slot) <= old(Owing(W(), slot))
      ensures Owing(W(), slot) < old(Owing(W(), slot)) ==> Stirred(old(W()), W(), ConnAt(old(W()), slot).sid)
      ensures !failed ==> Flushed(ConnAt(W(), slot), RoomAt(W(), slot))
      ensures Conveyed(old(W()), W(), slot)
    {
      ghost var w := W();
      hide Inv, Moved, Conn.Pending, Stirred, Conveyed;
      MovedNot(w, slot);
      LinkedAt(w, slot);
      ConveyedNot(w, slot);
      failed := false;
      while conns[slot].value.Pending() != []
        invariant Valid() && Moved(w, W(), slot) && Live(slot)
        invariant ConnAt(W(), slot) == ConnAt(w, slot).(wpos := ConnAt(W(), slot).wpos)
        invariant InboxAt(W(), slot) == InboxAt(w, slot)
        invariant Owing(W(), slot) <= Owing(w, slot)
        invariant W() == w || Stirred(w, W(), ConnAt(w, slot).sid)
        invariant Conveyed(w, W(), slot)
        decreases Owing(W(), slot)
      {
        ghost var v := W();
        var put := SendSome(slot);
        MovedOn(w, v, W(), slot);
        if !put.Took? {
          return put.Broken?;
        }
        ConveyedOn(w, v, W(), slot);
        StirredOn(w, v, W(), slot, ConnAt(w, slot).sid);
      }
    }

    /** A connection that was held back can take commands again. */
    method Resume(slot: nat) returns (failed: bool, broken: bool)
      requires Valid() && ConnAt(W(), slot).ended.None?
      modifies this
      ensures Valid() && Moved(old(W()), W(), slot) && ConnAt(W(), slot).ended.None?
      ensures Quiet(ConnAt(W(), slot))
      ensures old(ConnAt(W(), slot)).moreToRead || Heard(old(ConnAt(W(), slot)), old(InboxAt(W(), slot))) ==>
                Heard(ConnAt(W(), slot), InboxAt(W(), slot))
      ensures (old(ConnAt(W(), slot)).moreToRead && !old(ConnAt(W(), slot)).Ready() &&
               |old(ConnAt(W(), slot)).rbuf| <= QUERY_BUFFER_LIMIT) ||
              Flushed(ConnAt(W(), slot), RoomAt(W(), slot))
      ensures old(ConnAt(W(), slot)).moreToRead && old(ConnAt(W(), slot)).st.Some? ==>
                ReadOutcome(old(W()), W(), slot, failed, broken)
      ensures !old(ConnAt(W(), slot)).moreToRead ==> !failed
      ensures failed || broken ==> !Live(slot)
      ensures LingersOnlyHeld(old(W()), W(), slot, old(ConnAt(W(), slot)).moreToRead, failed)
      ensures !failed && !broken ==> Fair(old(W()), W(), slot, None)
      decreases Load(W(), slot), Open(W(), slot), Owing(W(), slot), 4
    {
      hide Inv, Moved, Drain, Conn.Pending, ReadOutcome, Fair;
      failed := false;
      if Live(slot) && conns[slot].value.moreToRead {
        failed, broken := Readable(slot);
      } else {
        broken := Process(slot);
      }
    }

    /** Read until the socket has no more, the buffer is full, or the client is gone; then run what can run. */
    method Readable(slot: nat) returns (failed: bool, broken: bool)
      requires Valid() && ConnAt(W(), slot).ended.None?
      modifies this
      ensures Valid() && Moved(old(W()), W(), slot) && ConnAt(W(), slot).ended.None?
      ensures Quiet(ConnAt(W(), slot)) && Heard(ConnAt(W(), slot), InboxAt(W(), slot))
      ensures (!old(ConnAt(W(), slot)).Ready() && |old(ConnAt(W(), slot)).rbuf| <= QUERY_BUFFER_LIMIT) ||
              Flushed(ConnAt(W(), slot), RoomAt(W(), slot))
      ensures old(ConnAt(W(), slot)).st.Some? ==> ReadOutcome(old(W()), W(), slot, failed, broken)
      ensures Flushed(old(ConnAt(W(), slot)), old(RoomAt(W(), slot))) ==> Flushed(ConnAt(W(), slot), RoomAt(W(), slot))
      ensures failed || broken ==> !Live(slot)
      ensures LingersOnlyHeld(old(W()), W(), slot, true, failed)
      ensures !failed && !broken ==> Fair(old(W()), W(), slot, None)
      decreases Load(W(), slot), Open(W(), slot), Owing(W(), slot), 3
    {
      ghost var w := W();
      hide Inv, Moved, Drain, Conn.Pending, ReadOutcome, Cut, HeldBack, ReadPart, Heard, EndAhead, Fair;
      MovedNot(w, slot);
      failed, broken := false, false;
      if !Live(slot) {
        FairStill(w, w, slot, None);
        VacantIsQuiet();
        return;
      }
      if conns[slot].value.st.None? {
        Note(slot, true);
        NotedIsHeard(w, W(), slot);
        SamePending(ConnAt(w, slot), ConnAt(W(), slot));
        LinkedAt(w, slot);
        FairStill(w, W(), slot, None);
        return;
      }
      LinkedAt(w, slot);
      var gone: bool;
      gone, failed := ReadAll(slot);
      ghost var v := W();
      PartShows(w, v, slot);
      LinkedAt(v, slot);
      FairStill(w, v, slot, None);
      if gone {
        CloseSlot(slot);
        MovedOn(w, v, W(), slot);
        GoneOutcome(w, v, W(), slot, failed);
        FairGone(w, v, W(), slot, failed);
        VacantIsQuiet();
        return;
      }
      if |conns[slot].value.rbuf| > QUERY_BUFFER_LIMIT {
        Reject(slot, true);
        MovedOn(w, v, W(), slot);
        ghost var u := W();
        ClosingIsHeard(ConnAt(u, slot), InboxAt(u, slot));
        broken := Flush(slot);
        MovedOn(w, u, W(), slot);
        MovedOn(v, u, W(), slot);
        StirredOn(v, u, W(), slot, ConnAt(v, slot).sid);
        StirredIsNotCut(v, W(), slot);
        RunOutcome(w, v, W(), slot, broken);
        if !broken {
          FairOn(v, u, W(), slot, None);
          FairOn(w, v, W(), slot, None);
        }
        return;
      }
      if conns[slot].value.Ready() {
        broken := Process(slot);
        MovedOn(w, v, W(), slot);
        RunOutcome(w, v, W(), slot, broken);
        if !broken {
          FairOn(w, v, W(), slot, None);
        }
      } else {
        HeldOutcome(w, v, slot);
      }
    }

    /** The reading part: the output side is left as it is. */
    method ReadAll(slot: nat) returns (gone: bool, failed: bool)
      requires Valid() && Live(slot) && ConnAt(W(), slot).ended.None? && ConnAt(W(), slot).st.Some?
      modifies this`conns, this`socks
      ensures Valid() && Moved(old(W()), W(), slot) && Live(slot)
      ensures ReadPart(old(W()), W(), slot)
      ensures gone <==>
        failed || EndAhead(old(ConnAt(W(), slot)), old(InboxAt(W(), slot)), old(FinAt(W(), slot)))
      ensures gone && !failed ==> InboxAt(W(), slot) == []
      ensures !gone && |ConnAt(W(), slot).rbuf| <= QUERY_BUFFER_LIMIT ==> Heard(ConnAt(W(), slot), InboxAt(W(), slot))
    {
      ghost var w := W();
      hide Inv, Moved, Conn.Pending, ReadLeft, ReadPart, Reading, EndAhead;
      Note(slot, false);
      ReadingStarts(w, W(), slot);
      gone, failed := false, false;
      while true
        invariant Valid() && Moved(w, W(), slot) && Live(slot) && !gone && !failed
        invariant Reading(w, W(), slot)
        decreases |InboxAt(W(), slot)|
      {
        ghost var v := W();
        ReadingShows(w, v, slot);
        LinkedAt(v, slot);
        if !conns[slot].value.Ready() && |conns[slot].value.rbuf| > PAUSED_INPUT_LIMIT {
          Note(slot, true);
          MovedOn(w, v, W(), slot);
          ReadingPauses(w, v, W(), slot);
          return;
        }
        var got := ReadSome(slot);
        ReadMoves(v, W(), slot, got);
        MovedOn(w, v, W(), slot);
        ReadingGoes(w, v, W(), slot, got);
        match got {
          case Errored => return true, true;
          case Ended => return true, false;
          case Blocked => return;
          case Bytes =>
            if |conns[slot].value.rbuf| > QUERY_BUFFER_LIMIT {
              return;
            }
        }
      }
    }

    /** Run every complete command, here or on the pool, then flush. */
    method Process(slot: nat) returns (broken: bool)
      requires Valid() && ConnAt(W(), slot).ended.None?
      modifies this
      ensures Valid() && Moved(old(W()), W(), slot) && ConnAt(W(), slot).ended.None?
      ensures Quiet(ConnAt(W(), slot)) && Flushed(ConnAt(W(), slot), RoomAt(W(), slot))
      ensures Heard(old(ConnAt(W(), slot)), old(InboxAt(W(), slot))) ==> Heard(ConnAt(W(), slot), InboxAt(W(), slot))
      ensures !broken && !old(ConnAt(W(), slot)).closing ==> !Cut(old(W()), W(), slot)
      ensures !Lingers(W(), slot) && (broken ==> !Live(slot))
      ensures !broken ==> Fair(old(W()), W(), slot, None)
      decreases Load(W(), slot), Open(W(), slot), Owing(W(), slot), 2
    {
      ghost var w := W();
      hide Inv, Moved, Drain, Conn.Pending, Stirred, Cut, Heard, Flushed, Processing, NotMore, Turned;
      hide Load, Open, Owing, Fair;
      ProcessingStarts(w, slot);
      broken := false;
      var turn := Again;
      while turn.Again? && Live(slot) && conns[slot].value.Ready()
        invariant Valid() && Processing(w, W(), slot) && (turn.Again? || turn.Over?)
        invariant turn.Over? ==> Quiet(ConnAt(W(), slot))
        decreases turn.Again?, Load(W(), slot)
      {
        ghost var v := W();
        ProcessingShows(w, v, slot);
        ProcessingDecreases(w, v, slot);
        turn, broken := Turn(slot);
        if turn.Left? {
          ProcessingStirs(w, v, W(), slot);
          if !broken {
            ProcessingFair(w, v, W(), slot);
          }
          return;
        }
        ProcessingGoes(w, v, W(), slot);
      }
      ghost var u := W();
      ProcessingShows(w, u, slot);
      ProcessingDecreases(w, u, slot);
      broken := Flush(slot);
      ProcessingEnds(w, u, W(), slot);
      if !broken {
        ProcessingFair(w, u, W(), slot);
      }
    }

    /** One turn of the loop: what is complete is run here, or goes to the pool. */
    method Turn(slot: nat) returns (turn: Turning, broken: bool)
      requires Valid() && Live(slot) && ConnAt(W(), slot).ended.None? && ConnAt(W(), slot).Ready()
      modifies this
      ensures Valid() && Moved(old(W()), W(), slot) && ConnAt(W(), slot).ended.None?
      ensures turn.Left? ==> Stirred(old(W()), W(), ConnAt(old(W()), slot).sid)
      ensures turn.Left? ==> Heard(ConnAt(W(), slot), InboxAt(W(), slot)) && Quiet(ConnAt(W(), slot))
      ensures turn.Left? ==> Flushed(ConnAt(W(), slot), RoomAt(W(), slot)) && !Lingers(W(), slot)
      ensures broken ==> turn.Left? && !Live(slot)
      ensures !turn.Left? ==> Turned(old(W()), W(), slot)
      ensures turn.Again? ==> Load(W(), slot) < Load(old(W()), slot)
      ensures turn.Over? ==> Quiet(ConnAt(W(), slot))
      ensures !broken ==> Fair(old(W()), W(), slot, None)
      decreases Load(W(), slot), Open(W(), slot), Owing(W(), slot), 1
    {
      ghost var v := W();
      hide Inv, Moved, Drain, Conn.Pending, Stirred, Heard, Flushed, NotMore, Load, Open, Owing, Fair;
      broken := false;
      ReadyHears(ConnAt(v, slot), InboxAt(v, slot));
      var r, rest := ParseCommands(conns[slot].value.rbuf);
      if r.Err? {
        Reject(slot, false);
        ClosingIsHeard(ConnAt(W(), slot), InboxAt(W(), slot));
        ClosingIsLess(v, W(), slot);
        return Over, false;
      }
      var cmds := r.value;
      if cmds == [] {
        DropEmpty(slot, rest);
        RestIsLess(v, W(), slot);
        FairStill(v, W(), slot, None);
        return Over, false;
      }
      var inline: bool := *;
      if !inline {
        SubmitBatch(slot, cmds, rest);
        ShorterIsLess(v, W(), slot);
        FairStill(v, W(), slot, None);
        return Over, false;
      }
      var stays: bool;
      stays, broken := RunAndFinish(slot, cmds, rest);
      if !stays {
        ClosedIsHeard(W(), slot);
        return Left, broken;
      }
      ShorterIsLess(v, W(), slot);
      turn := Again;
    }

    /** Run a batch here and act on how it ended. */
    method RunAndFinish(slot: nat, cmds: seq<Args>, rest: bytes) returns (stays: bool, broken: bool)
      requires Valid() && Live(slot) && ConnAt(W(), slot).ended.None? && ConnAt(W(), slot).Ready()
      requires cmds != [] && cmds == Drain(ConnAt(W(), slot).rbuf).cmds && rest == Drain(ConnAt(W(), slot).rbuf).rest
      modifies this
      ensures Valid() && Moved(old(W()), W(), slot) && ConnAt(W(), slot).ended.None?
      ensures stays ==> Live(slot) && Load(W(), slot) < old(Load(W(), slot)) && !broken
      ensures stays ==>
        Heard(old(ConnAt(W(), slot)), old(InboxAt(W(), slot))) ==> Heard(ConnAt(W(), slot), InboxAt(W(), slot))
      ensures !stays ==> !Live(slot) || ConnAt(W(), slot).closing
      ensures !stays ==> Flushed(ConnAt(W(), slot), RoomAt(W(), slot))
      ensures Stirred(old(W()), W(), ConnAt(old(W()), slot).sid)
      ensures (!stays ==> !Lingers(W(), slot)) && (broken ==> !stays && !Live(slot))
      ensures !broken ==> Fair(old(W()), W(), slot, None)
      decreases Load(W(), slot), Open(W(), slot), Owing(W(), slot), 0
    {
      ghost var w := W();
      hide Inv, Moved, Drain, Conn.Pending, Stirred, Fair, EndRecorded;
      LinkedAt(w, slot);
      var end := RunHere(slot, cmds, rest);
      ghost var v := W();
      FairStill(w, v, slot, None);
      stays, broken := FinishBatch(slot, end);
      MovedOn(w, v, W(), slot);
      StirredOn(w, v, W(), slot, ConnAt(w, slot).sid);
      if !broken {
        FairRecorded(v, W(), slot, end);
        FairOn(w, v, W(), slot, None);
      }
    }

    /** Act on how a batch ended; true if the connection goes on. */
    method FinishBatch(slot: nat, end: End) returns (stays: bool, broken: bool)
      requires Valid() && Live(slot) && ConnAt(W(), slot).ended == Some(end) && ConnAt(W(), slot).st.Some?
      modifies this
      ensures Valid() && Moved(old(W()), W(), slot) && ConnAt(W(), slot).ended.None?
      ensures stays <==> end.Continue?
      ensures stays ==>
        && Live(slot) && ConnAt(W(), slot) == old(ConnAt(W(), slot)).(ended := None)
        && InboxAt(W(), slot) == old(InboxAt(W(), slot)) && RoomAt(W(), slot) == old(RoomAt(W(), slot))
        && socks == old(socks) && !broken
      ensures !stays ==> !Live(slot) || ConnAt(W(), slot).closing
      ensures !stays ==> Flushed(ConnAt(W(), slot), RoomAt(W(), slot))
      ensures end.Subscribe? || end.ReplSync? ==> !Live(slot) && ConnAt(old(W()), slot).sid in dedicated
      ensures (!stays ==> !Lingers(W(), slot)) && (broken ==> !stays && !Live(slot))
      ensures (end.Quit? || end.Failed?) && !broken ==> (!Live(slot) <==> Delivered(old(W()), W(), slot))
      ensures !broken ==> Fair(old(W()), W(), slot, Some(end))
      decreases Load(W(), slot), Open(W(), slot), Owing(W(), slot), 1
    {
      ghost var w := W();
      hide Inv, Moved, Conn.Pending, Fair;
      broken := false;
      if end.Subscribe? || end.ReplSync? {
        HandOff(slot);
        return false, false;
      }
      Settle(slot);
      FairStill(w, W(), slot, Some(end));
      if !end.Continue? {
        ghost var v := W();
        broken := Flush(slot);
        MovedOn(w, v, W(), slot);
        DeliveredAlike(w, v, W(), slot);
        if !broken {
          FairOn(w, v, W(), slot, Some(end));
        }
      }
      stays := end.Continue?;
    }

    method Settle(slot: nat)
      requires Valid() && Live(slot) && ConnAt(W(), slot).st.Some? && ConnAt(W(), slot).ended.Some?
      requires !ConnAt(W(), slot).ended.value.Subscribe? && !ConnAt(W(), slot).ended.value.ReplSync?
      modifies this`conns
      ensures Valid() && Moved(old(W()), W(), slot) && Live(slot)
      ensures var c := old(ConnAt(W(), slot));
        ConnAt(W(), slot) == c.(ended := None, closing := c.closing || !c.ended.value.Continue?)
      ensures InboxAt(W(), slot) == old(InboxAt(W(), slot)) && RoomAt(W(), slot) == old(RoomAt(W(), slot))
      ensures ConnAt(W(), slot).Pending() == old(ConnAt(W(), slot)).Pending()
    {
      ghost var w := W();
      hide Inv, Moved, Conn.Pending;
      LinkedAt(w, slot);
      var c := conns[slot].value;
      conns := conns[slot := Some(c.(ended := None, closing := c.closing || c.ended != Some(Continue)))];
      SamePending(c, conns[slot].value);
      Unchanged(w, slot);
      StepMoves(w, Loop(slot, Resolve), slot);
      MovedValid(w, W(), slot);
    }

    // ---------------------------------------------------------- events

    /** A new stream: the slot freed last, or a new one, under a generation no batch still carries. */
    method Register(sid: Sid, session: Session) returns (slot: nat, failed: bool, broken: bool)
      requires Valid() && Settled(W()) && sid !in socks
      modifies this
      ensures Valid() && Reach(old(W()), W()) && Settled(W())
      ensures !old(Live(slot)) && Newest(old(W()), W(), slot)
      ensures Heard(ConnAt(W(), slot), InboxAt(W(), slot))
      ensures Live(slot) ==> ConnAt(W(), slot).sid == sid
      ensures !failed && !broken ==> Fair(Registered(old(W()), sid, session), W(), slot, None)
    {
      ghost var w := W();
      hide Inv, Moved, Drain, Conn.Pending, Reach, CanStep, Only, Registered, Quiet, Newest, Fair;
      slot := Place(sid, session);
      ghost var v := W();
      PlacedIsSettled(w, sid, session, slot);
      failed, broken := Readable(slot);
      MovedReach(w, v, W(), slot);
      SettledOn(v, W(), slot);
      MovedOnly(v, W(), slot);
      RegisteredJobs(w, sid, session);
      PlacedIsFresh(w, v, W(), slot);
    }

    method Place(sid: Sid, session: Session) returns (slot: nat)
      requires Valid() && sid !in socks
      modifies this`conns, this`gens, this`free, this`socks
      ensures Valid() && Reach(old(W()), W()) && W() == Registered(old(W()), sid, session)
      ensures slot == if |old(free)| > 0 then old(free)[|old(free)| - 1] else |old(conns)|
      ensures Live(slot) && ConnAt(W(), slot).sid == sid && ConnAt(W(), slot).ended.None? && ConnAt(W(), slot).st.Some?
    {
      ghost var w := W();
      hide Inv, Reach;
      FreeSlots(w);
      if |free| > 0 {
        slot := free[|free| - 1];
        free := free[..|free| - 1];
      } else {
        slot := |conns|;
        conns, gens := conns + [None], gens + [0];
      }
      var gen := gens[slot];
      conns := conns[slot := Some(Conn(sid, gen, [], [], 0, Some(session), false, false, false, None))];
      socks := socks[sid := Sock([], 0, false, false, Slot(slot), session, session, [], [], [])];
      assert W() == Registered(w, sid, session);
      RegisterReaches(w, sid, session);
    }

    /** An epoll event; one that names an old generation is ignored. */
    method ConnEvent(token: nat, readable: bool, writable: bool) returns (failed: bool, broken: bool)
      requires Valid() && Settled(W())
      modifies this
      ensures Valid() && Reach(old(W()), W()) && Settled(W())
      ensures var (slot, gen) := Untoken(token);
        if !old(W()).Current(slot, gen) then W() == old(W())
        else
          && OthersSame(old(W()), W(), slot)
          && (readable ==> Heard(ConnAt(W(), slot), InboxAt(W(), slot)))
          && (writable ==> Flushed(ConnAt(W(), slot), RoomAt(W(), slot)) && !Lingers(W(), slot))
          && (Lingers(W(), slot) ==> Lingers(old(W()), slot))
          && (!failed && !broken ==> Fair(old(W()), W(), slot, None))
          && (readable && !writable && ConnAt(old(W()), slot).st.Some? ==>
                ReadOutcome(old(W()), W(), slot, failed, broken))
          && (Heard(old(ConnAt(W(), Untoken(token).0)), old(InboxAt(W(), Untoken(token).0))) ==>
                Heard(ConnAt(W(), slot), InboxAt(W(), slot)))
    {
      ghost var w := W();
      hide Inv, Moved, Drain, Conn.Pending, Reach, Untoken, ReadOutcome, Fair;
      var (slot, gen) := Untoken(token);
      ReachHere(w);
      failed, broken := false, false;
      if !Live(slot) || conns[slot].value.gen != gen {
        return;
      }
      SettledAt(w, slot);
      SettledAll(w, slot);
      MovedNot(w, slot);
      FairStill(w, w, slot, None);
      if writable {
        broken := Flush(slot);
      }
      ghost var v := W();
      if readable && Live(slot) {
        failed, broken := Readable(slot);
        MovedOn(w, v, W(), slot);
        if !failed && !broken {
          FairOn(w, v, W(), slot, None);
        }
      }
      MovedReach(w, w, W(), slot);
      SettledOn(w, W(), slot);
      OthersOf(w, W(), slot);
    }

    /** The oldest completion. */
    method TakeCompletion() returns (failed: bool, broken: bool)
      requires Valid() && Settled(W()) && done != []
      modifies this
      ensures Valid() && Reach(old(W()), W()) && Settled(W()) && done == old(done)[1..]
      ensures CanStep(old(W()), Complete)
      ensures var j := old(jobs)[old(done)[0]];
        if !old(W()).Current(j.slot, j.gen) then conns == old(conns) && gens == old(gens)
        else
          && OthersSame(old(W()), W(), j.slot)
          && (Heard(old(ConnAt(W(), jobs[done[0]].slot)), old(InboxAt(W(), jobs[done[0]].slot))) ==>
                Heard(ConnAt(W(), j.slot), InboxAt(W(), j.slot)))
          && Answered(Completed(old(W())), W(), j.slot, failed, broken)
          && (!failed && !broken ==> Fair(Completed(old(W())), W(), j.slot, j.end))
      ensures old(jobs).Keys - {old(done)[0]} <= jobs.Keys
      ensures forall id :: id in old(jobs) && id != old(done)[0] ==> jobs[id] == old(jobs)[id]
    {
      ghost var w := W();
      hide Inv, Moved, Drain, Conn.Pending, Reach, CanStep, OthersSame, Answered, ReadOutcome, Unsent, Fair;
      DoneOf(w);
      CompleteReaches(w);
      failed, broken := false, false;
      var id := done[0];
      var j := jobs[id];
      var live := Live(j.slot) && conns[j.slot].value.gen == j.gen;
      assert live == w.Current(j.slot, j.gen);
      TakeBack();
      ghost var v := W();
      assert v.jobs == w.jobs - {id};
      if live {
        var slot := j.slot;
        CompletedSettles(w, slot);
        MovedNot(v, slot);
        LinkedAt(v, slot);
        var stays: bool;
        stays, broken := FinishBatch(slot, j.end.value);
        ghost var u := W();
        if stays {
          SamePending(Restored(ConnAt(w, slot), j), ConnAt(u, slot));
          failed, broken := Resume(slot);
          MovedOn(v, u, W(), slot);
          AnsweredThen(v, u, W(), slot, failed, broken);
          if !failed && !broken {
            FairOn(v, u, W(), slot, j.end);
          }
        } else {
          AnsweredNow(v, W(), slot, broken);
        }
        SettledOn(v, W(), slot);
        MovedReach(w, v, W(), slot);
        MovedJobs(v, W(), slot);
        OthersOf(v, W(), slot);
        OthersOn(w, v, W(), slot);
      } else {
        StaleSettles(w);
      }
    }

    /** Put a completion's session, replies and input back, if its connection is still there. */
    method TakeBack()
      requires Valid() && done != []
      modifies this`conns, this`socks, this`jobs, this`done
      ensures CanStep(old(W()), Complete) && Valid() && W() == Completed(old(W()))
    {
      ghost var w := W();
      hide Inv, Drain, Conn.Pending;
      DoneOf(w);
      var id := done[0];
      var j := jobs[id];
      done, jobs := done[1..], jobs - {id};
      if Live(j.slot) && conns[j.slot].value.gen == j.gen {
        var c := conns[j.slot].value;
        c := c.(st := Some(j.st), wbuf := c.wbuf + j.out, rbuf := j.rbuf, ended := j.end);
        if c.muted {
          c := c.(muted := false, moreToRead := true);
        }
        if j.eof {
          c := c.(closing := true);
        }
        conns := conns[j.slot := Some(c)];
        socks := socks[j.sid := socks[j.sid].(owner := Slot(j.slot))];
      } else {
        socks := socks[j.sid := socks[j.sid].(owner := Nobody)];
      }
      assert W() == Completed(w);
      CompleteReaches(w);
    }

    /** Every batch that has come back. */
    method Completions()
      requires Valid() && Settled(W())
      modifies this
      ensures Valid() && Reach(old(W()), W()) && Settled(W()) && done == []
      ensures forall i :: !Awaited(old(W()), i) ==> ConnAt(W(), i) == ConnAt(old(W()), i)
    {
      ghost var w := W();
      hide Inv, Reach, Settled, Awaited, ConnAt, OthersSame, StillOut;
      ReachHere(w);
      OutAtFirst(w);
      while done != []
        invariant Valid() && Reach(w, W()) && Settled(W()) && StillOut(w, W())
        invariant forall i :: !Awaited(w, i) ==> ConnAt(W(), i) == ConnAt(w, i)
        decreases |done|
      {
        ghost var v := W();
        var failed, broken := TakeCompletion();
        ReachOn(w, v, W());
        StillOutThen(w, v, W());
      }
    }

    // ---------------------------------------------------------- a pool thread

    /**
     * Run a batch on a pool thread. With the socket at hand, write the replies and go on
     * with the client's next batches while they come promptly; then hand everything back.
     */
    method RunOwned(id: JobId) returns (broken: bool)
      requires Valid() && id in jobs && !jobs[id].back && jobs[id].end.None?
      modifies this`jobs, this`socks, this`done
      ensures Valid() && Worked(old(W()), W(), id) && done == old(done) + [id] && id in jobs
      ensures jobs[id].back && jobs[id].end.Some?
      ensures Batches(W(), id) >= Batches(old(W()), id) + 1
      ensures !old(jobs[id]).direct ==> Batches(W(), id) == Batches(old(W()), id) + 1
      ensures old(jobs[id]).direct && !broken ==> jobs[id].out == [] || RoomOf(W(), id) == 0
    {
      ghost var w := W();
      hide Inv, Worked, Drain;
      WorkedNot(w, id);
      while true
        invariant Valid() && Worked(w, W(), id) && done == old(done)
        invariant id in jobs && !jobs[id].back && jobs[id].end.None?
        invariant jobs[id].direct == w.jobs[id].direct
        invariant Batches(W(), id) >= Batches(w, id)
        invariant !w.jobs[id].direct ==> Batches(W(), id) == Batches(w, id)
        decreases JobLoad(W(), id)
      {
        ghost var u := W();
        var end := Execute(id);
        WorkedOn(w, u, W(), id);
        broken := false;
        if !jobs[id].direct {
          break;
        }
        u := W();
        broken := WriteReplies(id);
        WorkedOn(w, u, W(), id);
        WorkedGrows(u, W(), id);
        if jobs[id].out != [] || !end.Continue? || |jobs[id].rbuf| > QUERY_BUFFER_LIMIT {
          break;
        }
        u := W();
        var more := NextBatch(id);
        WorkedOn(w, u, W(), id);
        WorkedGrows(u, W(), id);
        if !more {
          break;
        }
      }
      ghost var u := W();
      Handover(id);
      WorkedOn(w, u, W(), id);
    }

    method Execute(id: JobId) returns (end: End)
      requires Valid() && id in jobs && !jobs[id].back && jobs[id].end.None?
      modifies this`jobs, this`socks
      ensures Valid() && Worked(old(W()), W(), id) && id in jobs
      ensures jobs[id].end == Some(end) && !jobs[id].back
      ensures jobs[id].direct == old(jobs[id]).direct && jobs[id].rbuf == old(jobs[id]).rbuf
      ensures JobLoad(W(), id) == JobLoad(old(W()), id) && Batches(W(), id) == Batches(old(W()), id) + 1
    {
      ghost var w := W();
      hide Inv, Worked;
      JobLinked(w, id);
      var j := jobs[id];
      var s := socks[j.sid];
      var o := RunBatch(j.st, j.todo);
      jobs := jobs[id := j.(todo := [], st := o.after, out := j.out + o.reply, end := Some(o.end))];
      var e := Ran(o.ran, s.session, o.after, o.reply, o.end);
      socks := socks[j.sid := s.(said := s.said + [e], session := o.after)];
      WorkMoves(w, id, Exec(o));
      return o.end;
    }

    /** Write straight to the socket, as far as it takes the replies. */
    method WriteReplies(id: JobId) returns (broken: bool)
      requires Valid() && id in jobs && !jobs[id].back && jobs[id].end.Some? && jobs[id].direct
      modifies this`jobs, this`socks
      ensures Valid() && Worked(old(W()), W(), id) && id in jobs
      ensures jobs[id] == old(jobs[id]).(out := jobs[id].out)
      ensures JobLoad(W(), id) == JobLoad(old(W()), id)
      ensures !broken ==> jobs[id].out == [] || RoomOf(W(), id) == 0
    {
      ghost var w := W();
      hide Inv, Worked;
      WorkedNot(w, id);
      broken := false;
      while jobs[id].out != []
        invariant Valid() && Worked(w, W(), id) && id in jobs
        invariant jobs[id] == w.jobs[id].(out := jobs[id].out)
        invariant JobLoad(W(), id) == JobLoad(w, id)
        decreases |jobs[id].out|
      {
        ghost var v := W();
        var put := WriteSome(id);
        WorkedOn(w, v, W(), id);
        if !put.Took? {
          return put.Broken?;
        }
      }
    }

    method WriteSome(id: JobId) returns (put: Put)
      requires Valid() && id in jobs && !jobs[id].back && jobs[id].end.Some? && jobs[id].direct && jobs[id].out != []
      modifies this`jobs, this`socks
      ensures Valid() && Worked(old(W()), W(), id) && id in jobs
      ensures jobs[id] == old(jobs[id]).(out := jobs[id].out)
      ensures JobLoad(W(), id) == JobLoad(old(W()), id)
      ensures put.Took? ==> |jobs[id].out| < |old(jobs[id]).out|
      ensures put.Full? ==> RoomOf(W(), id) == 0
      ensures !put.Took? ==> W() == old(W())
    {
      ghost var w := W();
      hide Inv, Worked;
      JobLinked(w, id);
      WorkedNot(w, id);
      var j := jobs[id];
      var s := socks[j.sid];
      var failed: bool := *;
      if failed || s.shut {
        return Broken;
      }
      if s.room == 0 {
        return Full;
      }
      var some: int := *;
      var n: nat := if 0 < some <= s.room && some <= |j.out| then some else 1;
      jobs := jobs[id := j.(out := j.out[n..])];
      socks := socks[j.sid := s.(written := s.written + j.out[..n], room := s.room - n)];
      WorkMoves(w, id, Work.Reply(n));
      return Took(n);
    }

    /** Wait a little for the client's next commands. */
    method NextBatch(id: JobId) returns (more: bool)
      requires Valid() && id in jobs && !jobs[id].back && jobs[id].direct
      requires jobs[id].end == Some(Continue) && jobs[id].out == []
      modifies this`jobs, this`socks
      ensures Valid() && Worked(old(W()), W(), id) && id in jobs && !jobs[id].back
      ensures jobs[id].direct && jobs[id].out == []
      ensures jobs[id].end == if more then None else Some(Continue)
      ensures more ==> JobLoad(W(), id) < JobLoad(old(W()), id) && jobs[id].todo != []
    {
      ghost var w := W();
      hide Inv, Worked, Drain;
      WorkedNot(w, id);
      var waits, tries := 0, 0;
      while true
        invariant Valid() && Worked(w, W(), id) && id in jobs && !jobs[id].back && jobs[id].direct
        invariant jobs[id].end == Some(Continue) && jobs[id].out == []
        invariant JobLoad(W(), id) <= JobLoad(w, id) && 0 <= waits <= OWNED_WAITS && 0 <= tries <= OWNED_READS
        decreases OWNED_WAITS - waits + OWNED_READS - tries
      {
        ghost var v := W();
        more := ParseMore(id);
        WorkedOn(w, v, W(), id);
        if more {
          return;
        }
        var backlogged: bool := *;
        if Unparsable(jobs[id].rbuf) || jobs[id].eof || waits == OWNED_WAITS || tries == OWNED_READS || backlogged {
          return;
        }
        var quiet: bool := *;
        if quiet {
          waits := waits + 1;
        } else {
          tries := tries + 1;
          v := W();
          ListenAll(id);
          WorkedOn(w, v, W(), id);
        }
      }
    }

    /** Take what is complete out of the buffer; malformed input is left for the loop to report. */
    method ParseMore(id: JobId) returns (more: bool)
      requires Valid() && id in jobs && !jobs[id].back && jobs[id].direct
      requires jobs[id].end == Some(Continue) && jobs[id].out == []
      modifies this`jobs
      ensures Valid() && Worked(old(W()), W(), id) && id in jobs && !jobs[id].back
      ensures jobs[id].direct && jobs[id].out == []
      ensures jobs[id].end == if more then None else Some(Continue)
      ensures JobLoad(W(), id) <= JobLoad(old(W()), id)
      ensures more ==> JobLoad(W(), id) < JobLoad(old(W()), id) && jobs[id].todo != []
    {
      ghost var w := W();
      hide Inv, Worked, Drain;
      JobLinked(w, id);
      WorkedNot(w, id);
      var j := jobs[id];
      DrainShrinks(j.rbuf);
      RestIsShorter(j.rbuf);
      var r, rest := ParseCommands(j.rbuf);
      if r.Err? {
        return false;
      }
      more := r.value != [];
      jobs := jobs[id := if more then j.(rbuf := rest, todo := r.value, end := None) else j.(rbuf := rest)];
      SocketKept(w, id);
      WorkMoves(w, id, Parse);
    }

    /** Everything the client has sent so far. */
    method ListenAll(id: JobId)
      requires Valid() && id in jobs && !jobs[id].back && jobs[id].direct && jobs[id].end == Some(Continue)
      modifies this`jobs, this`socks
      ensures Valid() && Worked(old(W()), W(), id) && id in jobs
      ensures jobs[id] == old(jobs[id]).(rbuf := jobs[id].rbuf, eof := jobs[id].eof)
      ensures JobLoad(W(), id) == JobLoad(old(W()), id)
    {
      ghost var w := W();
      hide Inv, Worked;
      WorkedNot(w, id);
      var going := true;
      while going
        invariant Valid() && Worked(w, W(), id) && id in jobs
        invariant jobs[id] == w.jobs[id].(rbuf := jobs[id].rbuf, eof := jobs[id].eof)
        invariant JobLoad(W(), id) == JobLoad(w, id)
        decreases |InboxOf(W(), id)|, going
      {
        ghost var v := W();
        going := ListenSome(id);
        WorkedOn(w, v, W(), id);
        if |jobs[id].rbuf| > QUERY_BUFFER_LIMIT {
          return;
        }
      }
    }

    /** One `read`; false when there is no more to be had for now. */
    method ListenSome(id: JobId) returns (going: bool)
      requires Valid() && id in jobs && !jobs[id].back && jobs[id].direct && jobs[id].end == Some(Continue)
      modifies this`jobs, this`socks
      ensures Valid() && Worked(old(W()), W(), id) && id in jobs
      ensures jobs[id] == old(jobs[id]).(rbuf := jobs[id].rbuf, eof := jobs[id].eof)
      ensures JobLoad(W(), id) == JobLoad(old(W()), id)
      ensures |InboxOf(W(), id)| <= |InboxOf(old(W()), id)|
      ensures going ==> |InboxOf(W(), id)| < |InboxOf(old(W()), id)|
    {
      ghost var w := W();
      hide Inv, Worked;
      JobLinked(w, id);
      WorkedNot(w, id);
      var j := jobs[id];
      var s := socks[j.sid];
      var failed: bool := *;
      if failed || (s.inbox == [] && (s.fin || s.shut)) {
        jobs := jobs[id := j.(eof := true)];
        SocketKept(w, id);
        WorkMoves(w, id, HangUp);
        return false;
      }
      if s.inbox == [] {
        return false;
      }
      var some: int := *;
      var n: nat := if 0 < some <= READ_SIZE && some <= |s.inbox| then some else 1;
      jobs := jobs[id := j.(rbuf := j.rbuf + s.inbox[..n])];
      socks := socks[j.sid := s.(inbox := s.inbox[n..], received := s.received + s.inbox[..n])];
      WorkMoves(w, id, Listen(n));
      return n == READ_SIZE;
    }

    method Handover(id: JobId)
      requires Valid() && id in jobs && !jobs[id].back && jobs[id].end.Some?
      modifies this`jobs, this`done
      ensures Valid() && Worked(old(W()), W(), id) && done == old(done) + [id] && id in jobs
      ensures jobs[id] == old(jobs[id]).(back := true)
      ensures RoomOf(W(), id) == RoomOf(old(W()), id) && Batches(W(), id) == Batches(old(W()), id)
    {
      ghost var w := W();
      hide Inv, Worked;
      JobLinked(w, id);
      jobs := jobs[id := jobs[id].(back := true)];
      done := done + [id];
      SocketKept(w, id);
      WorkMoves(w, id, Deliver);
    }
  }

  lemma MovedValid(w: World, w': World, slot: nat)
    requires Moved(w, w', slot)
    ensures Inv(w')
  {
    hide Inv, Reach, Only;
  }

  /** A step that leaves the sockets alone writes a socket back as it was. */
  lemma Unchanged(w: World, slot: nat)
    requires Linked(w, slot)
    ensures w.socks[w.conns[slot].value.sid := w.socks[w.conns[slot].value.sid]] == w.socks
  {
  }

  lemma {:induction false} DrainShrinks(buf: bytes)
    ensures Drain(buf).cmds != [] ==> |Drain(buf).rest| < |buf|
    decreases |buf|
  {
    hide ParseFrame;
    FrameBounds(buf);
  }

  /** What is left after draining has nothing to drain. */
  lemma {:induction false} DrainTwice(buf: bytes)
    ensures Drain(Drain(buf).rest) == Drained([], Drain(buf).rest, Drain(buf).error)
    decreases |buf|
  {
    hide ParseFrame;
    FrameBounds(buf);
    match ParseFrame(buf)
    case Command(_, used) => DrainTwice(buf[used..]);
    case _ =>
  }

  /** Any reply text. */
  method AnyBytes() returns (r: bytes)
  {
    r := *;
  }

  /** Executing a batch: any outcome it may have. */
  method RunBatch(st: Session, cmds: seq<Args>) returns (o: Outcome)
    ensures Allowed(cmds, o)
  {
    var after: Session := *;
    var reply := AnyBytes();
    var how: int := *;
    var some: int := *;
    var n: nat := if 0 <= some <= |cmds| then some else 0;
    assert cmds[..n] + cmds[n..] == cmds;
    o := match how
      case 0 => Outcome(cmds[..n], after, reply, Quit)
      case 1 => Outcome(cmds[..n], after, reply, Failed)
      case 2 => Outcome(cmds[..n], after, reply, Subscribe(cmds[n..]))
      case 3 => Outcome(cmds[..n], after, reply, ReplSync)
      case _ => Outcome(cmds, after, reply, Continue);
  }

  lemma SamePending(c: Conn, c': Conn)
    ensures c'.wbuf == c.wbuf && c'.wpos == c.wpos ==> c'.Pending() == c.Pending()
  {
  }

  lemma RestIsShorter(buf: bytes)
    ensures |Drain(buf).rest| <= |buf|
  {
  }

  // ------------------------------------------------------------ event tokens

  /** The generation in the upper half, the slot in the lower. */
  function Token(slot: nat, gen: Gen): nat
    requires slot < TWO_32
  {
    gen * TWO_32 + slot
  }

  function Untoken(t: nat): (nat, Gen) {
    (t % TWO_32, t / TWO_32)
  }

  lemma TokenRoundTrip(slot: nat, gen: Gen)
    requires slot < TWO_32
    ensures Untoken(Token(slot, gen)) == (slot, gen)
    ensures gen < TWO_32 <==> Token(slot, gen) < TWO_64
  {
    assert (gen * TWO_32 + slot) / TWO_32 == gen;
  }

  // ------------------------------------------------------------ from one handler to the next

  /** Every connection but the one in `slot` is as it was, to the worker and to the kernel. */
  ghost predicate OthersSame(w: World, w': World, slot: nat) {
    forall i :: i != slot ==>
      ConnAt(w', i) == ConnAt(w, i) && InboxAt(w', i) == InboxAt(w, i) && RoomAt(w', i) == RoomAt(w, i)
  }

  lemma OthersOn(a: World, b: World, c: World, slot: nat)
    requires OthersSame(a, b, slot) && OthersSame(b, c, slot)
    ensures OthersSame(a, c, slot)
  {
    hide ConnAt, InboxAt, RoomAt;
    forall i | i != slot
      ensures ConnAt(c, i) == ConnAt(a, i) && InboxAt(c, i) == InboxAt(a, i) && RoomAt(c, i) == RoomAt(a, i)
    {
      assert ConnAt(b, i) == ConnAt(a, i);
      assert ConnAt(c, i) == ConnAt(b, i);
    }
  }

  lemma OthersOf(w: World, w': World, slot: nat)
    requires Inv(w) && Moved(w, w', slot)
    ensures OthersSame(w, w', slot)
  {
    hide Reach;
    assert Only(w, w', slot) && Conns(w);
    hide Slots, Jobs, Handeds, Histories, Done, Active, Paused, Inv;
    forall i | i != slot
      ensures ConnAt(w', i) == ConnAt(w, i) && InboxAt(w', i) == InboxAt(w, i) && RoomAt(w', i) == RoomAt(w, i)
    {
      if w.Live(i) {
        ConnOf(w, i);
        if w.Live(slot) {
          ConnOf(w, slot);
        }
      }
    }
  }

  lemma MovedReach(w: World, v: World, w': World, slot: nat)
    requires Reach(w, v) && Moved(v, w', slot)
    ensures Reach(w, w') && Inv(w') && w'.done == v.done
  {
    hide Inv, Reach;
    ReachOn(w, v, w');
  }

  lemma MovedJobs(v: World, w': World, slot: nat)
    requires Moved(v, w', slot)
    ensures v.jobs.Keys <= w'.jobs.Keys && forall id :: id in v.jobs ==> w'.jobs[id] == v.jobs[id]
  {
    hide Inv, Reach;
  }

  lemma MovedOnly(v: World, w': World, slot: nat)
    requires Moved(v, w', slot)
    ensures Only(v, w', slot)
  {
    hide Inv, Reach, Only;
  }

  lemma SettledAt(w: World, slot: nat)
    requires Settled(w)
    ensures ConnAt(w, slot).ended.None? && Quiet(ConnAt(w, slot))
  {
    hide Drain;
  }

  /** A batch of the connection in the slot has come back. */
  ghost predicate Awaited(w: World, slot: nat) {
    exists k :: 0 <= k < |w.done| && w.done[k] in w.jobs && w.jobs[w.done[k]].slot == slot
  }

  /** The completions not yet taken are the last ones, as they came. */
  ghost predicate StillOut(w: World, v: World) {
    && |v.done| <= |w.done| && v.done == w.done[|w.done| - |v.done|..]
    && (forall k :: 0 <= k < |v.done| ==>
          v.done[k] in w.jobs && v.done[k] in v.jobs && v.jobs[v.done[k]] == w.jobs[v.done[k]])
  }

  lemma OutAtFirst(w: World)
    requires Inv(w)
    ensures StillOut(w, w)
  {
    hide Slots, Conns, Jobs, Handeds, Histories;
  }

  lemma StillOutThen(w: World, v: World, u: World)
    requires Inv(v) && StillOut(w, v) && v.done != [] && u.done == v.done[1..]
    requires v.jobs.Keys - {v.done[0]} <= u.jobs.Keys
    requires forall id :: id in v.jobs && id != v.done[0] ==> u.jobs[id] == v.jobs[id]
    requires var j := v.jobs[v.done[0]];
      if v.Current(j.slot, j.gen) then OthersSame(v, u, j.slot) else u.conns == v.conns
    ensures StillOut(w, u)
    ensures forall i :: !Awaited(w, i) ==> ConnAt(u, i) == ConnAt(v, i)
  {
    hide Slots, Conns, Jobs, Handeds, Histories;
    var n := |w.done| - |v.done|;
    assert v.done[0] == w.done[n];
    forall i | !Awaited(w, i) ensures ConnAt(u, i) == ConnAt(v, i) {
      assert w.jobs[w.done[n]].slot != i;
    }
  }

  /** Settled but for the connection in `slot`. */
  ghost predicate SettledBut(w: World, slot: nat) {
    forall i :: i != slot ==> ConnAt(w, i).ended.None? && Quiet(ConnAt(w, i))
  }

  lemma SettledOn(w: World, w': World, slot: nat)
    requires SettledBut(w, slot) && Moved(w, w', slot)
    requires ConnAt(w', slot).ended.None? && Quiet(ConnAt(w', slot))
    ensures Settled(w')
  {
    hide Inv, Reach, Quiet;
    forall i | 0 <= i < |w'.conns| && w'.conns[i].Some?
      ensures w'.conns[i].value.ended.None? && Quiet(w'.conns[i].value)
    {
      assert w'.conns[i].value == ConnAt(w', i);
      assert i != slot ==> ConnAt(w', i) == ConnAt(w, i);
    }
  }

  lemma SettledAll(w: World, slot: nat)
    requires Settled(w)
    ensures SettledBut(w, slot)
  {
    hide Drain;
  }

  lemma FreeSlots(w: World)
    requires Inv(w)
    ensures |w.gens| == |w.conns|
    ensures forall i :: 0 <= i < |w.free| ==> w.free[i] < |w.conns| && w.conns[w.free[i]].None?
  {
    hide Conns, Jobs, Handeds, Histories, Done;
  }

  lemma PlacedIsSettled(w: World, sid: Sid, session: Session, slot: nat)
    requires Inv(w) && Settled(w)
    requires slot == if |w.free| > 0 then w.free[|w.free| - 1] else |w.conns|
    ensures SettledBut(Registered(w, sid, session), slot)
    ensures slot >= |w.conns| || w.conns[slot].None?
  {
    FreeSlots(w);
    hide Inv, Quiet;
    var v := Registered(w, sid, session);
    forall i | i != slot ensures ConnAt(v, i).ended.None? && Quiet(ConnAt(v, i)) {
      VacantIsQuiet();
      assert ConnAt(v, i) == ConnAt(w, i);
    }
  }

  lemma VacantIsQuiet()
    ensures VACANT.ended.None? && Quiet(VACANT) && Heard(VACANT, [])
  {
  }

  lemma RegisterReaches(w: World, sid: Sid, session: Session)
    requires Inv(w) && sid !in w.socks
    ensures Inv(Registered(w, sid, session)) && Reach(w, Registered(w, sid, session))
  {
    hide Inv, Reach, Registered;
    StepKeeps(w, Step.Register(sid, session));
    ReachHere(w);
    ReachThen(w, w, Step.Register(sid, session));
  }

  /** Whatever batch is still out for the slot, the connection now in it is of a later generation. */
  ghost predicate Newest(w: World, w': World, slot: nat) {
    forall id :: id in w.jobs && w.jobs[id].slot == slot && w'.Live(slot) ==> w.jobs[id].gen < ConnAt(w', slot).gen
  }

  lemma PlacedIsFresh(w: World, v: World, w': World, slot: nat)
    requires Inv(v) && v.Live(slot) && v.conns[slot].value.st.Some? && Only(v, w', slot) && w.jobs == v.jobs
    ensures Newest(w, w', slot)
    ensures w'.Live(slot) ==> ConnAt(w', slot).sid == ConnAt(v, slot).sid
  {
    hide Conns, Handeds, Histories, Done, JobInput;
    forall id | id in v.jobs && v.jobs[id].slot == slot ensures v.jobs[id].gen < v.conns[slot].value.gen {
      JobOf(v, id);
    }
  }

  lemma RegisteredJobs(w: World, sid: Sid, session: Session)
    ensures Registered(w, sid, session).jobs == w.jobs
  {
  }

  lemma CompleteReaches(w: World)
    requires Inv(w) && w.done != []
    ensures CanStep(w, Complete) && Inv(Completed(w)) && Reach(w, Completed(w))
  {
    hide Inv, Reach, Completed;
    DoneOf(w);
    StepKeeps(w, Complete);
    ReachHere(w);
    ReachThen(w, w, Complete);
  }

  lemma DoneOf(w: World)
    requires Inv(w) && w.done != []
    ensures CanStep(w, Complete) && w.done[0] in w.jobs && w.jobs[w.done[0]].end.Some?
  {
    hide Slots, Conns, Handeds, Histories, JobInput;
    assert w.done[0] in w.jobs && w.jobs[w.done[0]].end.Some?;
    JobOf(w, w.done[0]);
  }

  lemma OldestJob(w: World)
    requires Inv(w) && CanStep(w, Complete)
    ensures JobOk(w.jobs[w.done[0]], w.done[0], w.conns, w.gens, w.socks)
  {
    hide Conns, Handeds, Histories, Done, JobOk;
    JobOf(w, w.done[0]);
  }

  lemma RestoredIsSame(c: Conn, j: Job)
    ensures Restored(c, j).sid == c.sid && Restored(c, j).gen == c.gen
  {
  }

  /** Restoring a connection leaves every other one alone, and its socket to the kernel. */
  lemma CompletedSock(w: World, slot: nat)
    requires w.done != [] && w.done[0] in w.jobs && w.jobs[w.done[0]].sid in w.socks
    requires JobOk(w.jobs[w.done[0]], w.done[0], w.conns, w.gens, w.socks)
    requires var j := w.jobs[w.done[0]]; j.slot == slot && w.Current(j.slot, j.gen) && j.gen == w.gens[slot]
    ensures var v := Completed(w); var j := w.jobs[w.done[0]];
      && v.Live(slot) && ConnAt(v, slot) == Restored(ConnAt(w, slot), j)
      && InboxAt(v, slot) == InboxAt(w, slot) && RoomAt(v, slot) == RoomAt(w, slot)
      && OthersSame(w, v, slot)
  {
    var j := w.jobs[w.done[0]];
    RestoredIsSame(w.conns[slot].value, j);
    hide JobInput, Restored;
    assert w.conns[slot].value.sid == j.sid;
  }

  lemma CompletedSettles(w: World, slot: nat)
    requires Inv(w) && Settled(w) && CanStep(w, Complete)
    requires var j := w.jobs[w.done[0]]; j.slot == slot && w.Current(j.slot, j.gen)
    ensures var v := Completed(w); var j := w.jobs[w.done[0]];
      && SettledBut(v, slot) && v.Live(slot)
      && ConnAt(v, slot) == Restored(ConnAt(w, slot), j)
      && InboxAt(v, slot) == InboxAt(w, slot) && RoomAt(v, slot) == RoomAt(w, slot)
      && OthersSame(w, v, slot)
  {
    hide Inv, Quiet, JobOk, Restored, Settled;
    OldestJob(w);
    LinkedAt(w, slot);
    CompletedSock(w, slot);
    hide Completed;
    forall i | i != slot ensures ConnAt(Completed(w), i).ended.None? && Quiet(ConnAt(Completed(w), i)) {
      SettledOrVacant(w, i);
      assert ConnAt(Completed(w), i) == ConnAt(w, i);
    }
  }

  lemma SettledOrVacant(w: World, i: nat)
    requires Settled(w)
    ensures ConnAt(w, i).ended.None? && Quiet(ConnAt(w, i))
  {
    hide Drain;
  }

  lemma StaleSettles(w: World)
    requires Settled(w) && CanStep(w, Complete)
    requires var j := w.jobs[w.done[0]]; !w.Current(j.slot, j.gen)
    ensures Settled(Completed(w)) && Completed(w).conns == w.conns && Completed(w).gens == w.gens
  {
    hide Quiet;
  }

  // ------------------------------------------------------------ a pool thread's share

  predicate Bound(w: World, id: JobId) { id in w.jobs && w.jobs[id].sid in w.socks }

  function InboxOf(w: World, id: JobId): bytes {
    if Bound(w, id) then w.socks[w.jobs[id].sid].inbox else []
  }

  function RoomOf(w: World, id: JobId): nat {
    if Bound(w, id) then w.socks[w.jobs[id].sid].room else 0
  }

  /** How many batches and refusals the connection has seen. */
  function Batches(w: World, id: JobId): nat {
    if Bound(w, id) then |w.socks[w.jobs[id].sid].said| else 0
  }

  function JobLoad(w: World, id: JobId): nat {
    if Bound(w, id) then |w.socks[w.jobs[id].sid].inbox| + |w.jobs[id].rbuf| else 0
  }

  /** The pool thread touched its own batch and its own socket. */
  ghost predicate OnlyJob(w: World, w': World, id: JobId) {
    && w'.conns == w.conns && w'.gens == w.gens && w'.free == w.free && w'.dedicated == w.dedicated
    && w.done <= w'.done
    && id in w.jobs && id in w'.jobs && w'.jobs[id].sid == w.jobs[id].sid
    && (forall k :: k in w.jobs <==> k in w'.jobs)
    && (forall k :: k in w.jobs && k != id ==> w'.jobs[k] == w.jobs[k])
    && (forall sid :: sid in w.socks && sid != w.jobs[id].sid ==> sid in w'.socks && w'.socks[sid] == w.socks[sid])
  }

  ghost predicate Worked(w: World, w': World, id: JobId) {
    Inv(w') && Reach(w, w') && OnlyJob(w, w', id)
  }

  lemma WorkedNot(w: World, id: JobId)
    requires Inv(w) && id in w.jobs
    ensures Worked(w, w, id)
  {
    hide Inv, Reach;
    ReachHere(w);
  }

  lemma OnlyJobOn(a: World, b: World, c: World, id: JobId)
    requires OnlyJob(a, b, id) && OnlyJob(b, c, id)
    ensures OnlyJob(a, c, id)
  {
  }

  lemma WorkedOn(a: World, b: World, c: World, id: JobId)
    requires Worked(a, b, id) && Worked(b, c, id)
    ensures Worked(a, c, id)
  {
    hide Inv, Reach, OnlyJob;
    ReachOn(a, b, c);
    OnlyJobOn(a, b, c, id);
  }

  lemma WorkedGrows(w: World, w': World, id: JobId)
    requires Worked(w, w', id)
    ensures Batches(w, id) <= Batches(w', id)
  {
    hide Inv, Reach;
    if Bound(w, id) {
      ReachGrows(w, w', w.jobs[id].sid);
    }
  }

  lemma WorkMoves(w: World, id: JobId, k: Work)
    requires Inv(w) && CanStep(w, Step.Pool(id, k))
    ensures Worked(w, Apply(w, Step.Pool(id, k)), id) && Inv(Apply(w, Step.Pool(id, k)))
  {
    hide Inv, Reach;
    StepKeeps(w, Step.Pool(id, k));
    ReachHere(w);
    ReachThen(w, w, Step.Pool(id, k));
    WorkIsLocal(w, id, k);
  }

  lemma WorkIsLocal(w: World, id: JobId, k: Work)
    requires CanStep(w, Step.Pool(id, k))
    ensures OnlyJob(w, Apply(w, Step.Pool(id, k)), id)
  {
    WorkKeepsFrame(w.jobs[id], w.socks[w.jobs[id].sid], k);
    hide JobAfter, SockWorked, CanWork;
  }

  lemma JobLinked(w: World, id: JobId)
    requires Inv(w) && id in w.jobs
    ensures w.jobs[id].sid in w.socks && w.socks[w.jobs[id].sid].session == w.jobs[id].st
  {
    hide Slots, Conns, Handeds, Histories, Done, Accounted;
    JobOf(w, id);
  }

  lemma SocketKept(w: World, id: JobId)
    requires Bound(w, id)
    ensures w.socks[w.jobs[id].sid := w.socks[w.jobs[id].sid]] == w.socks
  {
  }
}
