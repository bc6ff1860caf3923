/**
 * One epoll worker and everything its connections pass through: the worker's
 * slots, batches out on the blocking pool, completions on their way back,
 * connections handed to dedicated threads, and the sockets.
 *
 * A step is what one thread does between two points where another may run.
 * Sockets, pool threads and clients move in any order. Executing a batch is
 * left open: it may run any prefix of its commands that its outcome allows,
 * reply anything and leave any session state. Every socket carries the history
 * the theorems are about.
 */
module EventLoop {
  import opened Base
  import opened Resp
  import opened Chunks

  type Sid = nat
  type Gen = nat
  type JobId = nat

  /** What a connection remembers between batches (dialect, user, transaction, ...). */
  type Session(==, 0, !new)

  const OUTPUT_HIGH_WATER := 8 * 1024 * 1024
  const PAUSED_INPUT_LIMIT := 16 * 1024 * 1024
  const QUERY_BUFFER_LIMIT := 1024 * 1024 * 1024

  // ------------------------------------------------------------ executing a batch

  datatype End = Continue | Quit | Failed | Subscribe(rest: seq<Args>) | ReplSync

  /** The commands that ran, the session left behind, the replies, and how the batch ended. */
  datatype Outcome = Outcome(ran: seq<Args>, after: Session, reply: bytes, end: End)

  ghost predicate Allowed(cmds: seq<Args>, o: Outcome) {
    match o.end
    case Continue => o.ran == cmds
    case Subscribe(rest) => o.ran + rest == cmds
    case _ => o.ran <= cmds
  }

  // ------------------------------------------------------------ sockets and history

  /** A batch that ran, or a protocol error that was answered. */
  datatype Event =
    | Ran(cmds: seq<Args>, before: Session, after: Session, reply: bytes, end: End)
    | Refused(reply: bytes)

  /** Who holds the session of a connection. */
  datatype Owner = Slot(slot: nat) | Batch(job: JobId) | Dedicated | Nobody

  /**
   * `inbox` waits unread in the kernel, `room` bytes of output would be taken
   * without blocking, `fin` says the client closed its side and `shut` that the
   * server closed it. The rest is history: bytes `received` and `written`, and
   * everything the server did for the connection.
   */
  datatype Sock = Sock(
    inbox: bytes,
    room: nat,
    fin: bool,
    shut: bool,
    owner: Owner,
    born: Session,
    session: Session,
    received: bytes,
    said: seq<Event>,
    written: bytes
  )

  function Executed(said: seq<Event>): seq<Args> {
    if said == [] then []
    else Executed(said[..|said| - 1]) + match said[|said| - 1] case Ran(cmds, _, _, _, _) => cmds case Refused(_) => []
  }

  function Produced(said: seq<Event>): bytes {
    if said == [] then [] else Produced(said[..|said| - 1]) + said[|said| - 1].reply
  }

  function LastSession(born: Session, said: seq<Event>): Session {
    if said == [] then born
    else match said[|said| - 1]
      case Ran(_, _, after, _, _) => after
      case Refused(_) => LastSession(born, said[..|said| - 1])
  }

  /** Every batch started from the session the one before it left. */
  predicate Chained(born: Session, said: seq<Event>) {
    said == [] ||
    (Chained(born, said[..|said| - 1]) &&
     match said[|said| - 1]
     case Ran(_, before, _, _, _) => before == LastSession(born, said[..|said| - 1])
     case Refused(_) => true)
  }

  // ------------------------------------------------------------ the worker's state

  /**
   * `ended` is how the last batch ended, until the worker has acted on it;
   * in the program it is the argument passed to `finish_batch`.
   */
  datatype Conn = Conn(
    sid: Sid,
    gen: Gen,
    rbuf: bytes,
    wbuf: bytes,
    wpos: nat,
    st: Option<Session>,
    closing: bool,
    moreToRead: bool,
    muted: bool,
    ended: Option<End>
  ) {
    function Pending(): bytes { if wpos <= |wbuf| then wbuf[wpos..] else [] }

    predicate Ready() { st.Some? && !closing && |Pending()| <= OUTPUT_HIGH_WATER }
  }

  /**
   * A batch out on the pool. `end` is None while `todo` still has to run;
   * `back` says the completion is on the worker's list.
   */
  datatype Job = Job(
    sid: Sid,
    slot: nat,
    gen: Gen,
    st: Session,
    todo: seq<Args>,
    rbuf: bytes,
    out: bytes,
    direct: bool,
    end: Option<End>,
    eof: bool,
    back: bool
  )

  /** A connection on its own thread; `cmds` are to be run in subscribe mode. */
  datatype Handed = Handed(st: Session, out: bytes, cmds: seq<Args>, rbuf: bytes, sync: bool)

  datatype World = World(
    conns: seq<Option<Conn>>,
    gens: seq<Gen>,
    free: seq<nat>,
    jobs: map<JobId, Job>,
    done: seq<JobId>,
    dedicated: map<Sid, Handed>,
    socks: map<Sid, Sock>
  ) {
    predicate Live(slot: nat) { slot < |conns| && conns[slot].Some? }

    /** The connection an event or completion of this generation is for is still there. */
    predicate Current(slot: nat, gen: Gen) { Live(slot) && conns[slot].value.gen == gen }
  }

  const EMPTY := World([], [], [], map[], [], map[], map[])

  // ------------------------------------------------- what the worker does with one connection

  datatype Act =
    | Fetch(n: nat)
    | Remember(more: bool)
    | Overflow(reply: bytes)
    | Refuse(reply: bytes)
    | Skip
    | RunInline(o: Outcome)
    | Resolve
    | Send(n: nat)
    | Compact

  predicate Unparsable(buf: bytes) { Drain(buf).cmds == [] && Drain(buf).error.Some? }

  ghost predicate CanAct(c: Conn, s: Sock, a: Act) {
    match a
    case Fetch(n) => c.st.Some? && n <= |s.inbox|
    case Remember(_) => true
    case Overflow(_) => c.st.Some? && c.ended.None? && |c.rbuf| > QUERY_BUFFER_LIMIT
    case Refuse(_) => c.Ready() && c.ended.None? && Unparsable(c.rbuf)
    case Skip => c.Ready() && c.ended.None? && Drain(c.rbuf).cmds == [] && !Unparsable(c.rbuf)
    case RunInline(o) => c.Ready() && c.ended.None? && Drain(c.rbuf).cmds != [] && Allowed(Drain(c.rbuf).cmds, o)
    case Resolve => c.st.Some? && (c.ended == Some(Continue) || c.ended == Some(Quit) || c.ended == Some(Failed))
    case Send(n) => n <= |c.Pending()| && n <= s.room
    case Compact => true
  }

  function ConnAfter(c: Conn, s: Sock, a: Act): Conn {
    match a
    case Fetch(n) => if n <= |s.inbox| then c.(rbuf := c.rbuf + s.inbox[..n]) else c
    case Remember(more) => c.(moreToRead := more)
    case Overflow(reply) => c.(wbuf := c.wbuf + reply, closing := true, rbuf := [])
    case Refuse(reply) => c.(wbuf := c.wbuf + reply, closing := true)
    case Skip => c.(rbuf := Drain(c.rbuf).rest)
    case RunInline(o) =>
      c.(rbuf := Drain(c.rbuf).rest, st := Some(o.after), wbuf := c.wbuf + o.reply, ended := Some(o.end))
    case Resolve => c.(ended := None, closing := c.closing || c.ended != Some(Continue))
    case Send(n) => c.(wpos := c.wpos + n)
    case Compact => c.(wbuf := c.Pending(), wpos := 0)
  }

  function SockAfter(c: Conn, s: Sock, a: Act): Sock {
    match a
    case Fetch(n) => if n <= |s.inbox| then s.(inbox := s.inbox[n..], received := s.received + s.inbox[..n]) else s
    case Overflow(reply) => s.(said := s.said + [Refused(reply)])
    case Refuse(reply) => s.(said := s.said + [Refused(reply)])
    case RunInline(o) => s.(said := s.said + [Ran(o.ran, s.session, o.after, o.reply, o.end)], session := o.after)
    case Send(n) =>
      if n <= |c.Pending()| && n <= s.room then s.(written := s.written + c.Pending()[..n], room := s.room - n) else s
    case _ => s
  }

  // ------------------------------------------------- what a pool thread does with its batch

  datatype Work =
    | Exec(o: Outcome)
    | Reply(n: nat)
    | Listen(n: nat)
    | HangUp
    | Parse
    | Deliver

  ghost predicate CanWork(j: Job, s: Sock, k: Work) {
    !j.back &&
    match k
    case Exec(o) => j.end.None? && Allowed(j.todo, o)
    case Reply(n) => j.end.Some? && j.direct && !s.shut && n <= |j.out| && n <= s.room
    case Listen(n) => j.end == Some(Continue) && j.direct && n <= |s.inbox|
    case HangUp => j.end == Some(Continue) && j.direct
    case Parse => j.end == Some(Continue) && j.direct && j.out == [] && !Unparsable(j.rbuf)
    case Deliver => j.end.Some?
  }

  function JobAfter(j: Job, s: Sock, k: Work): Job {
    match k
    case Exec(o) => j.(todo := [], st := o.after, out := j.out + o.reply, end := Some(o.end))
    case Reply(n) => if n <= |j.out| then j.(out := j.out[n..]) else j
    case Listen(n) => if n <= |s.inbox| then j.(rbuf := j.rbuf + s.inbox[..n]) else j
    case HangUp => j.(eof := true)
    case Parse =>
      var d := Drain(j.rbuf);
      if d.cmds == [] then j.(rbuf := d.rest) else j.(rbuf := d.rest, todo := d.cmds, end := None)
    case Deliver => j.(back := true)
  }

  function SockWorked(j: Job, s: Sock, k: Work): Sock {
    match k
    case Exec(o) => s.(said := s.said + [Ran(o.ran, s.session, o.after, o.reply, o.end)], session := o.after)
    case Reply(n) =>
      if n <= |j.out| && n <= s.room then s.(written := s.written + j.out[..n], room := s.room - n) else s
    case Listen(n) => if n <= |s.inbox| then s.(inbox := s.inbox[n..], received := s.received + s.inbox[..n]) else s
    case _ => s
  }

  // ------------------------------------------------------------ steps of the whole

  datatype Step =
    | Outside(sid: Sid, inbox: bytes, room: nat, fin: bool)
    | Register(sid: Sid, session: Session)
    | Loop(slot: nat, act: Act)
    | Submit(slot: nat, id: JobId)
    | Pool(id: JobId, work: Work)
    | Complete
    | HandOff(slot: nat)
    | Close(slot: nat)
    | Forward(sid: Sid, n: nat)
    | Retire(sid: Sid)

  /** The parts of the world a slot's connection is made of are there. */
  predicate Linked(w: World, slot: nat) { w.Live(slot) && w.conns[slot].value.sid in w.socks }

  ghost predicate CanSubmit(w: World, slot: nat, id: JobId) {
    && Linked(w, slot) && id !in w.jobs
    && var c := w.conns[slot].value;
       c.Ready() && c.ended.None? && Drain(c.rbuf).cmds != []
  }

  ghost predicate CanHandOff(w: World, slot: nat) {
    && Linked(w, slot)
    && var c := w.conns[slot].value;
       c.st.Some? && c.ended.Some? && (c.ended.value.Subscribe? || c.ended.value.ReplSync?)
  }

  ghost predicate CanStep(w: World, step: Step) {
    match step
    case Outside(sid, _, _, _) => sid in w.socks
    case Register(sid, _) => sid !in w.socks
    case Loop(slot, a) => Linked(w, slot) && var c := w.conns[slot].value; CanAct(c, w.socks[c.sid], a)
    case Submit(slot, id) => CanSubmit(w, slot, id)
    case Pool(id, k) => id in w.jobs && w.jobs[id].sid in w.socks && CanWork(w.jobs[id], w.socks[w.jobs[id].sid], k)
    case Complete =>
      w.done != [] && w.done[0] in w.jobs && w.jobs[w.done[0]].sid in w.socks && w.jobs[w.done[0]].end.Some?
    case HandOff(slot) => CanHandOff(w, slot)
    case Close(slot) => Linked(w, slot)
    case Forward(sid, n) =>
      sid in w.dedicated && sid in w.socks && n <= |w.dedicated[sid].out| && n <= w.socks[sid].room
    case Retire(sid) => sid in w.dedicated && sid in w.socks
  }

  function FreshSock(slot: nat, session: Session): Sock {
    Sock([], 0, false, false, Slot(slot), session, session, [], [], [])
  }

  function FreshConn(sid: Sid, gen: Gen, session: Session): Conn {
    Conn(sid, gen, [], [], 0, Some(session), false, false, false, None)
  }

  /** A new connection takes the slot freed last, or a new one, under that slot's generation. */
  function Registered(w: World, sid: Sid, session: Session): World {
    var n := |w.free|;
    if n > 0 && w.free[n - 1] < |w.conns| && w.free[n - 1] < |w.gens| then
      var slot := w.free[n - 1];
      w.(free := w.free[..n - 1],
         conns := w.conns[slot := Some(FreshConn(sid, w.gens[slot], session))],
         socks := w.socks[sid := FreshSock(slot, session)])
    else
      w.(conns := w.conns + [Some(FreshConn(sid, 0, session))], gens := w.gens + [0],
         socks := w.socks[sid := FreshSock(|w.conns|, session)])
  }

  /** Take a connection out of its slot; whatever names the old generation is stale from now on. */
  function Released(w: World, slot: nat): World
    requires slot < |w.conns|
  {
    w.(conns := w.conns[slot := None],
       gens := if slot < |w.gens| then w.gens[slot := w.gens[slot] + 1] else w.gens,
       free := w.free + [slot])
  }

  function Closed(w: World, slot: nat): World
    requires Linked(w, slot)
  {
    var sid := w.conns[slot].value.sid;
    var s := w.socks[sid];
    var owner := if s.owner == Slot(slot) then Nobody else s.owner;
    Released(w, slot).(socks := w.socks[sid := s.(shut := true, owner := owner)])
  }

  function Submitted(w: World, slot: nat, id: JobId): World
    requires Linked(w, slot) && w.conns[slot].value.st.Some?
  {
    var c := w.conns[slot].value;
    var d := Drain(c.rbuf);
    var direct := c.Pending() == [];
    w.(conns := w.conns[slot := Some(c.(st := None, rbuf := [], muted := c.muted || direct))],
       jobs := w.jobs[id := Job(c.sid, slot, c.gen, c.st.value, d.cmds, d.rest, [], direct, None, false, false)],
       socks := w.socks[c.sid := w.socks[c.sid].(owner := Batch(id))])
  }

  /** The connection gets its session, its replies and the bytes read meanwhile back. */
  function Restored(c: Conn, j: Job): Conn {
    c.(st := Some(j.st), wbuf := c.wbuf + j.out, rbuf := j.rbuf, ended := j.end,
       muted := false, moreToRead := c.moreToRead || c.muted, closing := c.closing || j.eof)
  }

  /** The oldest completion; for a slot that has moved on it is dropped. */
  function Completed(w: World): World
    requires w.done != [] && w.done[0] in w.jobs && w.jobs[w.done[0]].sid in w.socks
  {
    var id := w.done[0];
    var j := w.jobs[id];
    var v := w.(done := w.done[1..], jobs := w.jobs - {id});
    if w.Current(j.slot, j.gen) then
      v.(conns := w.conns[j.slot := Some(Restored(w.conns[j.slot].value, j))],
         socks := w.socks[j.sid := w.socks[j.sid].(owner := Slot(j.slot))])
    else
      v.(socks := w.socks[j.sid := w.socks[j.sid].(owner := Nobody)])
  }

  /** To a dedicated thread, with everything not yet written, run or parsed. */
  function HandedOff(w: World, slot: nat): World
    requires Linked(w, slot) && w.conns[slot].value.st.Some?
  {
    var c := w.conns[slot].value;
    var cmds := match c.ended case Some(Subscribe(rest)) => rest case _ => [];
    Released(w, slot).(
      dedicated := w.dedicated[c.sid := Handed(c.st.value, c.Pending(), cmds, c.rbuf, c.ended == Some(ReplSync))],
      socks := w.socks[c.sid := w.socks[c.sid].(owner := Dedicated)])
  }

  function Apply(w: World, step: Step): World
    requires CanStep(w, step)
  {
    match step
    case Outside(sid, inbox, room, fin) =>
      w.(socks := w.socks[sid := w.socks[sid].(inbox := inbox, room := room, fin := fin)])
    case Register(sid, session) => Registered(w, sid, session)
    case Loop(slot, a) =>
      var c := w.conns[slot].value;
      var s := w.socks[c.sid];
      w.(conns := w.conns[slot := Some(ConnAfter(c, s, a))], socks := w.socks[c.sid := SockAfter(c, s, a)])
    case Submit(slot, id) => Submitted(w, slot, id)
    case Pool(id, k) =>
      var j := w.jobs[id];
      var s := w.socks[j.sid];
      w.(jobs := w.jobs[id := JobAfter(j, s, k)],
         socks := w.socks[j.sid := SockWorked(j, s, k)],
         done := if k.Deliver? then w.done + [id] else w.done)
    case Complete => Completed(w)
    case HandOff(slot) => HandedOff(w, slot)
    case Close(slot) => Closed(w, slot)
    case Forward(sid, n) =>
      var h := w.dedicated[sid];
      var s := w.socks[sid];
      w.(dedicated := w.dedicated[sid := h.(out := h.out[n..])],
         socks := w.socks[sid := s.(written := s.written + h.out[..n], room := s.room - n)])
    case Retire(sid) =>
      w.(dedicated := w.dedicated - {sid}, socks := w.socks[sid := w.socks[sid].(owner := Nobody)])
  }

  /** Any interleaving of worker, pool threads, dedicated threads and clients. */
  ghost predicate Reaches(w: World, steps: seq<Step>, w': World)
    decreases |steps|
  {
    if steps == [] then w == w'
    else
      && CanStep(w, steps[0])
      && Reaches(Apply(w, steps[0]), steps[1..], w')
  }

  ghost predicate Reach(w: World, w': World) {
    exists steps :: Reaches(w, steps, w')
  }
}
