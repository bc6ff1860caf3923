/**
 * Where the loop does not do what its callers would like, at concrete inputs: a client
 * that sends a command and closes its side, and a client that reads too slowly. The
 * exact conditions are the contracts of `Worker.IoWorker.Readable` (`ReadOutcome`)
 * and `Worker.IoWorker.TakeCompletion` (`Answered`).
 */
module HalfClose {
  import opened Base
  import opened Resp
  import opened Chunks
  import opened EventLoop
  import opened EventLoopSafety
  import opened Inline
  import opened Worker

  /** `PING`, and the line that says it. */
  const NAME: bytes := [80, 73, 78, 71]
  const PING: bytes := NAME + [CR, LF]

  lemma PingLine()
    ensures LineEnd(PING, 0) == Ok(Some(5))
  {
    assert Newline(PING, 5) == Some(5);
    assert Newline(PING, 4) == Some(5);
    assert Newline(PING, 3) == Some(5);
    assert Newline(PING, 2) == Some(5);
    assert Newline(PING, 1) == Some(5);
  }

  lemma PingDrains()
    ensures Drain(PING) == Drained([[NAME]], [], None)
  {
    PingLine();
    assert WithoutCr(PING[..5]) == NAME;
    WordAlone(NAME);
    assert ParseFrame(PING) == Command([NAME], 6);
    assert PING[6..] == [];
    hide Words;
    assert Drain([]) == Drained([], [], None);
  }

  // ------------------------------------------------------------ runs with one connection

  /** One connection, its socket, and the batch it may have out. */
  function Lonely(c: Conn, s: Sock, jobs: map<JobId, Job>, done: seq<JobId>): World {
    World([Some(c)], [0], [], jobs, done, map[], map[0 := s])
  }

  lemma First(st: Session)
    ensures Reach(EMPTY, Lonely(FreshConn(0, 0, st), FreshSock(0, st), map[], []))
  {
    ReachHere(EMPTY);
    ReachThen(EMPTY, EMPTY, Step.Register(0, st));
    hide Reach;
    assert Registered(EMPTY, 0, st) == Lonely(FreshConn(0, 0, st), FreshSock(0, st), map[], []);
  }

  lemma ThenOutside(c: Conn, s: Sock, jobs: map<JobId, Job>, done: seq<JobId>, inbox: bytes, room: nat, fin: bool)
    requires Reach(EMPTY, Lonely(c, s, jobs, done))
    ensures Reach(EMPTY, Lonely(c, s.(inbox := inbox, room := room, fin := fin), jobs, done))
  {
    hide Reach;
    var w := Lonely(c, s, jobs, done);
    ReachThen(EMPTY, w, Step.Outside(0, inbox, room, fin));
    assert w.socks[0 := s.(inbox := inbox, room := room, fin := fin)] ==
           map[0 := s.(inbox := inbox, room := room, fin := fin)];
  }

  lemma ThenLoop(c: Conn, s: Sock, jobs: map<JobId, Job>, done: seq<JobId>, a: Act)
    requires Reach(EMPTY, Lonely(c, s, jobs, done)) && c.sid == 0 && CanAct(c, s, a)
    ensures Reach(EMPTY, Lonely(ConnAfter(c, s, a), SockAfter(c, s, a), jobs, done))
  {
    hide Reach, CanAct, ConnAfter, SockAfter;
    var w := Lonely(c, s, jobs, done);
    ReachThen(EMPTY, w, Step.Loop(0, a));
    assert w.socks[0 := SockAfter(c, s, a)] == map[0 := SockAfter(c, s, a)];
    assert w.conns[0 := Some(ConnAfter(c, s, a))] == [Some(ConnAfter(c, s, a))];
  }

  lemma ThenPool(c: Conn, s: Sock, j: Job, k: Work)
    requires Reach(EMPTY, Lonely(c, s, map[0 := j], [])) && j.sid == 0 && CanWork(j, s, k)
    ensures Reach(EMPTY, Lonely(c, SockWorked(j, s, k), map[0 := JobAfter(j, s, k)], if k.Deliver? then [0] else []))
  {
    hide Reach, CanWork, JobAfter, SockWorked;
    var w := Lonely(c, s, map[0 := j], []);
    ReachThen(EMPTY, w, Step.Pool(0, k));
    assert w.socks[0 := SockWorked(j, s, k)] == map[0 := SockWorked(j, s, k)];
    assert w.jobs[0 := JobAfter(j, s, k)] == map[0 := JobAfter(j, s, k)];
    assert w.done + [0] == [0];
    assert Apply(w, Step.Pool(0, k)) ==
      Lonely(c, SockWorked(j, s, k), map[0 := JobAfter(j, s, k)], if k.Deliver? then [0] else []);
  }

  // ------------------------------------------------------------ a half-close loses what was sent

  /**
   * A client sends `text` and closes its side; the worker reads it, meets the end of
   * the stream and closes. All was received, and nothing of it was run or answered.
   */
  lemma HalfCloseLoses(st: Session, text: bytes) returns (w: World)
    ensures Reach(EMPTY, w) && 0 in w.socks
    ensures var s := w.socks[0];
      s.received == text && s.shut && s.said == [] && s.written == [] && Executed(s.said) == []
  {
    hide Reach, Drain;
    First(st);
    var c0, s0 := FreshConn(0, 0, st), FreshSock(0, st);
    ThenOutside(c0, s0, map[], [], text, 0, true);
    var s1 := s0.(inbox := text, room := 0, fin := true);
    var a := Fetch(|text|);
    ThenLoop(c0, s1, map[], [], a);
    var v := Lonely(ConnAfter(c0, s1, a), SockAfter(c0, s1, a), map[], []);
    ReachThen(EMPTY, v, Step.Close(0));
    w := Closed(v, 0);
    assert [] + text[..|text|] == text;
  }

  /** `PING` and a half-close: the command arrived complete, and never ran. */
  lemma PingIsLost(st: Session) returns (w: World)
    ensures Reach(EMPTY, w) && 0 in w.socks && w.socks[0].shut
    ensures Drain(w.socks[0].received).cmds == [[NAME]] && Executed(w.socks[0].said) == []
    ensures EndAhead(FreshConn(0, 0, st), PING, true)
  {
    PingDrains();
    w := HalfCloseLoses(st, PING);
    hide Drain, Reach, Executed;
  }

  // ------------------------------------------------------------ output that stays unwritten

  /** The batch that runs while another reply is still pending. */
  function Batched(st: Session, out: bytes): Job {
    Job(0, 0, 0, st, [[NAME]], [], out, false, None, false, false)
  }

  /** What has happened to the socket when the first reply is written: one batch ran. */
  function SockThen(st: Session, inbox: bytes, room: nat, owner: Owner, received: bytes, written: bytes): Sock {
    Sock(inbox, room, false, false, owner, st, st, received, [Ran([[NAME]], st, st, [0], Continue)], written)
  }

  function ConnThen(st: Option<Session>, rbuf: bytes, wpos: nat, more: bool, ended: Option<End>): Conn {
    Conn(0, 0, rbuf, [0], wpos, st, false, more, false, ended)
  }

  /** The first `PING` runs on the worker; its reply finds the socket full. */
  lemma FirstBatch(st: Session)
    ensures Reach(EMPTY, Lonely(ConnThen(Some(st), [], 0, false, None),
                                SockThen(st, [], 0, Slot(0), PING, []), map[], []))
  {
    hide Reach, Drain;
    PingDrains();
    First(st);
    var c0, s0 := FreshConn(0, 0, st), FreshSock(0, st);
    ThenOutside(c0, s0, map[], [], PING, 0, false);
    var s1 := s0.(inbox := PING);
    ThenLoop(c0, s1, map[], [], Fetch(6));
    assert PING[..6] == PING && PING[6..] == [];
    var c1, s2 := c0.(rbuf := PING), s1.(inbox := [], received := PING);
    assert ConnAfter(c0, s1, Fetch(6)) == c1 && SockAfter(c0, s1, Fetch(6)) == s2;
    var o := Outcome([[NAME]], st, [0], Continue);
    ThenLoop(c1, s2, map[], [], RunInline(o));
    var c2, s3 := ConnThen(Some(st), [], 0, false, Some(Continue)), SockThen(st, [], 0, Slot(0), PING, []);
    assert ConnAfter(c1, s2, RunInline(o)) == c2 && SockAfter(c1, s2, RunInline(o)) == s3;
    ThenLoop(c2, s3, map[], [], Resolve);
  }

  /** The second goes to the pool, without the socket. */
  lemma SecondBatch(st: Session)
    ensures Reach(EMPTY, Lonely(ConnThen(None, [], 0, false, None),
                                SockThen(st, [], 0, Batch(0), PING + PING, []), map[0 := Batched(st, [])], []))
  {
    hide Reach, Drain;
    PingDrains();
    FirstBatch(st);
    var c0, s0 := ConnThen(Some(st), [], 0, false, None), SockThen(st, [], 0, Slot(0), PING, []);
    ThenOutside(c0, s0, map[], [], PING, 0, false);
    var s1 := SockThen(st, PING, 0, Slot(0), PING, []);
    ThenLoop(c0, s1, map[], [], Fetch(6));
    assert PING[..6] == PING && PING[6..] == [];
    var c1, s2 := ConnThen(Some(st), PING, 0, false, None), SockThen(st, [], 0, Slot(0), PING + PING, []);
    assert ConnAfter(c0, s1, Fetch(6)) == c1 && SockAfter(c0, s1, Fetch(6)) == s2;
    var w := Lonely(c1, s2, map[], []);
    ReachThen(EMPTY, w, Step.Submit(0, 0));
    assert s2.(owner := Batch(0)) == SockThen(st, [], 0, Batch(0), PING + PING, []);
    assert w.socks[0 := s2.(owner := Batch(0))] == map[0 := s2.(owner := Batch(0))];
    assert map[][0 := Batched(st, [])] == map[0 := Batched(st, [])];
    assert Submitted(w, 0, 0) == Lonely(ConnThen(None, [], 0, false, None),
      SockThen(st, [], 0, Batch(0), PING + PING, []), map[0 := Batched(st, [])], []);
  }

  /** Meanwhile the client sends a third, and reads the first reply; nothing pends any more. */
  lemma Meanwhile(st: Session)
    ensures Reach(EMPTY, Lonely(ConnThen(None, [], 1, true, None),
                                SockThen(st, PING, 1, Batch(0), PING + PING, [0]), map[0 := Batched(st, [])], []))
  {
    hide Reach, Drain;
    SecondBatch(st);
    var jobs := map[0 := Batched(st, [])];
    var c0, s0 := ConnThen(None, [], 0, false, None), SockThen(st, [], 0, Batch(0), PING + PING, []);
    ThenOutside(c0, s0, jobs, [], PING, 2, false);
    var s1 := SockThen(st, PING, 2, Batch(0), PING + PING, []);
    ThenLoop(c0, s1, jobs, [], Remember(true));
    var c1 := ConnThen(None, [], 0, true, None);
    ThenLoop(c1, s1, jobs, [], Send(1));
    assert [] + c1.Pending()[..1] == [0];
    assert SockAfter(c1, s1, Send(1)) == SockThen(st, PING, 1, Batch(0), PING + PING, [0]);
  }

  /**
   * The second batch comes back with a reply above the high-water mark. The socket would
   * take some of it, and the worker, which has acted on all that came before, will not
   * write any: only a failing read makes a difference.
   */
  lemma OutputStays(st: Session, reply: bytes) returns (w: World)
    requires |reply| > OUTPUT_HIGH_WATER
    ensures Reach(EMPTY, w) && Settled(w) && CanStep(w, Complete)
    ensures w.Current(w.jobs[w.done[0]].slot, w.jobs[w.done[0]].gen)
    ensures RoomAt(Completed(w), 0) > 0 && ConnAt(Completed(w), 0).Pending() == reply
    ensures forall x, broken :: Answered(Completed(w), x, 0, false, broken) ==>
      !Flushed(ConnAt(x, 0), RoomAt(x, 0))
  {
    hide Reach, Drain;
    Meanwhile(st);
    var c, s0 := ConnThen(None, [], 1, true, None), SockThen(st, PING, 1, Batch(0), PING + PING, [0]);
    var o := Outcome([[NAME]], st, reply, Continue);
    ThenPool(c, s0, Batched(st, []), Exec(o));
    var j, s1 := JobAfter(Batched(st, []), s0, Exec(o)), SockWorked(Batched(st, []), s0, Exec(o));
    ThenPool(c, s1, j, Deliver);
    w := Lonely(c, s1, map[0 := j.(back := true)], [0]);
    assert [] + reply == reply;
    var r := Restored(c, j.(back := true));
    assert r.Pending() == reply;
    assert ConnAt(Completed(w), 0) == r && Unsent(r, PING, 1, false);
  }
}
