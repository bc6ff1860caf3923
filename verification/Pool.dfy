/**
 * The blocking pool: a job queue served by threads that are started on demand,
 * park on a condition variable when idle and retire after a quiet timeout.
 *
 * Every section of code that holds the queue lock is one step. Between steps
 * any other thread may run, parked threads may time out or wake spuriously, and
 * the condition variable wakes an arbitrary waiter.
 */
module Pool {

  type Job = nat
  type Tid = nat

  /**
   * The lock-protected queue, and where every thread of the pool is:
   * `starting` was spawned and has not taken the lock yet, `parked` waits on
   * the condition variable, `woken` left it and waits for the lock, `running`
   * executes a job. `submitted` and `started` record all jobs ever queued and
   * ever handed to a thread, in order.
   */
  datatype State = State(
    jobs: seq<Job>,
    idle: nat,
    threads: nat,
    starting: set<Tid>,
    parked: set<Tid>,
    woken: set<Tid>,
    running: map<Tid, Job>,
    submitted: seq<Job>,
    started: seq<Job>
  ) {
    ghost function Live(): set<Tid> { starting + parked + woken + running.Keys }
  }

  const INITIAL := State([], 0, 0, {}, {}, {}, map[], [], [])

  // ---------------------------------------------------------------- the steps

  /** Queue a job, then wake a waiter, start a thread, or leave it to whoever gets free. */
  ghost predicate Submit(s: State, s': State, job: Job, max: nat) {
    var q := s.(jobs := s.jobs + [job], submitted := s.submitted + [job]);
    if s.idle > |s.jobs| then
      if s.parked == {} then s' == q
      else exists t :: t in s.parked && s' == q.(parked := s.parked - {t}, woken := s.woken + {t})
    else if s.threads < max then
      exists t :: t !in s.Live() && s' == q.(threads := s.threads + 1, starting := s.starting + {t})
    else s' == q
  }

  /** The head of the worker's loop, lock held: take the oldest job or go to sleep. */
  function LoopHead(s: State, t: Tid): State {
    if s.jobs != [] then
      s.(jobs := s.jobs[1..], running := s.running[t := s.jobs[0]], started := s.started + [s.jobs[0]])
    else
      s.(idle := s.idle + 1, parked := s.parked + {t})
  }

  /** A fresh thread takes the lock for the first time. */
  ghost predicate Enter(s: State, s': State, t: Tid) {
    t in s.starting && s' == LoopHead(s.(starting := s.starting - {t}), t)
  }

  /** A thread returns from its job and takes the lock again. */
  ghost predicate Finish(s: State, s': State, t: Tid) {
    t in s.running && s' == LoopHead(s.(running := s.running - {t}), t)
  }

  /** A parked thread leaves the condition variable by itself: timeout or spurious wake-up. */
  ghost predicate Stir(s: State, s': State, t: Tid) {
    t in s.parked && s' == s.(parked := s.parked - {t}, woken := s.woken + {t})
  }

  /** A woken thread gets the lock back: it retires if it timed out and nothing is queued. */
  ghost predicate Resume(s: State, s': State, t: Tid, timedOut: bool) {
    && t in s.woken && 0 < s.idle
    && var q := s.(idle := s.idle - 1, woken := s.woken - {t});
       if timedOut && s.jobs == [] then 0 < s.threads && s' == q.(threads := s.threads - 1)
       else s' == LoopHead(q, t)
  }

  ghost predicate ThreadStep(s: State, s': State, t: Tid) {
    Enter(s, s', t) || Finish(s, s', t) || Stir(s, s', t) || Resume(s, s', t, true) || Resume(s, s', t, false)
  }

  ghost predicate Next(s: State, s': State, max: nat) {
    (exists job :: Submit(s, s', job, max)) || (exists t :: ThreadStep(s, s', t))
  }

  /** Any interleaving of any length. */
  ghost predicate Run(tr: seq<State>, max: nat) {
    |tr| > 0 && tr[0] == INITIAL && forall i :: 0 < i < |tr| ==> Next(tr[i - 1], tr[i], max)
  }

  // ------------------------------------------------------------ the invariant

  /** A thread is in one place at a time. */
  ghost predicate Apart(s: State) {
    forall t ::
      && (t in s.starting ==> t !in s.parked && t !in s.woken && t !in s.running)
      && (t in s.parked ==> t !in s.woken && t !in s.running)
      && (t in s.woken ==> t !in s.running)
  }

  /** The counters tell the truth about the threads, give or take `spare` threads holding the lock. */
  ghost predicate Counted(s: State, max: nat, spare: nat) {
    && s.idle == |s.parked| + |s.woken|
    && s.threads == |s.starting| + |s.parked| + |s.woken| + |s.running.Keys| + spare <= max
  }

  /** Every queued job has an awake thread coming for it, or the pool is full and nobody sleeps. */
  ghost predicate Covered(s: State, max: nat, spare: nat) {
    && (s.parked != {} ==> |s.jobs| <= |s.woken| + spare)
    && (|s.jobs| <= |s.woken| + |s.starting| + spare || s.threads == max)
  }

  ghost predicate Ordered(s: State) {
    s.submitted == s.started + s.jobs
  }

  ghost predicate Inv(s: State, max: nat) {
    Apart(s) && Counted(s, max, 0) && Covered(s, max, 0) && Ordered(s)
  }

  lemma SubmitOrdered(s: State, s': State, job: Job, max: nat)
    requires Ordered(s) && Submit(s, s', job, max)
    ensures Ordered(s')
  {
    assert s'.jobs == s.jobs + [job] && s'.submitted == s.submitted + [job] && s'.started == s.started;
    assert s.submitted + [job] == s.started + (s.jobs + [job]);
  }

  /** Queueing with thread `t` as the one woken or started. */
  lemma SubmitBy(s: State, s': State, job: Job, max: nat, t: Tid)
    requires
      var q := s.(jobs := s.jobs + [job], submitted := s.submitted + [job]);
      if s.idle > |s.jobs| then
        if s.parked == {} then s' == q
        else t in s.parked && s' == q.(parked := s.parked - {t}, woken := s.woken + {t})
      else if s.threads < max then
        t !in s.Live() && s' == q.(threads := s.threads + 1, starting := s.starting + {t})
      else s' == q
    ensures Submit(s, s', job, max)
  {
  }

  lemma SubmitKeeps(s: State, s': State, job: Job, max: nat)
    requires Inv(s, max) && Submit(s, s', job, max)
    ensures Inv(s', max)
  {
    SubmitOrdered(s, s', job, max);
    var q := s.(jobs := s.jobs + [job], submitted := s.submitted + [job]);
    if s.idle > |s.jobs| && s.parked != {} {
      var t :| t in s.parked && s' == q.(parked := s.parked - {t}, woken := s.woken + {t});
      OneLess(s.parked, t);
      OneMore(s.woken, t);
    } else if s.idle <= |s.jobs| && s.threads < max {
      var t :| t !in s.Live() && s' == q.(threads := s.threads + 1, starting := s.starting + {t});
      OneMore(s.starting, t);
    }
  }

  lemma LoopHeadOrdered(s: State, t: Tid)
    requires Ordered(s)
    ensures Ordered(LoopHead(s, t))
  {
    if s.jobs != [] {
      assert s.started + s.jobs == (s.started + [s.jobs[0]]) + s.jobs[1..];
    }
  }

  lemma OneMore(s: set<Tid>, t: Tid)
    requires t !in s
    ensures |s + {t}| == |s| + 1
  {
  }

  lemma OneLess(s: set<Tid>, t: Tid)
    requires t in s
    ensures |s - {t}| == |s| - 1
  {
  }

  lemma KeysAfterStart(running: map<Tid, Job>, t: Tid, job: Job)
    requires t !in running
    ensures running[t := job].Keys == running.Keys + {t}
  {
  }

  lemma KeysAfterFinish(running: map<Tid, Job>, t: Tid)
    ensures (running - {t}).Keys == running.Keys - {t}
  {
  }

  lemma LoopHeadApart(s: State, t: Tid)
    requires Apart(s) && t !in s.Live()
    ensures Apart(LoopHead(s, t))
  {
  }

  /** One thread holds the lock at the loop head. */
  lemma LoopHeadKeeps(s: State, t: Tid, max: nat)
    requires Apart(s) && t !in s.Live()
    requires Counted(s, max, 1) && Covered(s, max, 1) && Ordered(s)
    ensures Inv(LoopHead(s, t), max)
  {
    LoopHeadOrdered(s, t);
    LoopHeadApart(s, t);
    if s.jobs != [] {
      TakeCounts(s, t, max);
    } else {
      ParkCounts(s, t, max);
    }
    hide LoopHead, Apart, Ordered, Counted, Covered, State.Live;
  }

  lemma TakeCounts(s: State, t: Tid, max: nat)
    requires t !in s.running && s.jobs != [] && Counted(s, max, 1) && Covered(s, max, 1)
    ensures Counted(LoopHead(s, t), max, 0) && Covered(LoopHead(s, t), max, 0)
  {
    KeysAfterStart(s.running, t, s.jobs[0]);
    OneMore(s.running.Keys, t);
  }

  lemma ParkCounts(s: State, t: Tid, max: nat)
    requires t !in s.parked && s.jobs == [] && Counted(s, max, 1) && Covered(s, max, 1)
    ensures Counted(LoopHead(s, t), max, 0) && Covered(LoopHead(s, t), max, 0)
  {
    OneMore(s.parked, t);
  }

  lemma EnterKeeps(s: State, t: Tid, max: nat)
    requires Inv(s, max) && t in s.starting
    ensures Inv(LoopHead(s.(starting := s.starting - {t}), t), max)
  {
    hide LoopHead, Inv;
    OneLess(s.starting, t);
    LeaveStarting(s, t, max);
    LoopHeadKeeps(s.(starting := s.starting - {t}), t, max);
  }

  lemma LeaveStarting(s: State, t: Tid, max: nat)
    requires Inv(s, max) && t in s.starting && |s.starting - {t}| == |s.starting| - 1
    ensures var q := s.(starting := s.starting - {t});
      Apart(q) && t !in q.Live() && Counted(q, max, 1) && Covered(q, max, 1) && Ordered(q)
  {
  }

  lemma LeaveRunning(s: State, t: Tid, max: nat)
    requires Inv(s, max) && t in s.running
    ensures var q := s.(running := s.running - {t});
      Apart(q) && t !in q.Live() && Counted(q, max, 1) && Covered(q, max, 1) && Ordered(q)
  {
    KeysAfterFinish(s.running, t);
    OneLess(s.running.Keys, t);
  }

  lemma LeaveWoken(s: State, t: Tid, max: nat)
    requires Inv(s, max) && t in s.woken && 0 < s.idle
    ensures var q := s.(idle := s.idle - 1, woken := s.woken - {t});
      && Apart(q) && t !in q.Live() && Counted(q, max, 1) && Ordered(q)
      && Covered(q, max, 1)
  {
    OneLess(s.woken, t);
  }

  lemma StirKeeps(s: State, s': State, t: Tid, max: nat)
    requires Inv(s, max) && Stir(s, s', t)
    ensures Inv(s', max)
  {
    OneLess(s.parked, t);
    OneMore(s.woken, t);
  }

  lemma RetireKeeps(s: State, t: Tid, max: nat)
    requires Inv(s, max) && t in s.woken && 0 < s.idle && s.jobs == [] && 0 < s.threads
    ensures Inv(s.(idle := s.idle - 1, woken := s.woken - {t}, threads := s.threads - 1), max)
  {
    OneLess(s.woken, t);
  }

  lemma ThreadStepKeeps(s: State, s': State, t: Tid, max: nat)
    requires Inv(s, max) && ThreadStep(s, s', t)
    ensures Inv(s', max)
  {
    hide Inv, LoopHead, Apart, Counted, Covered, Ordered, State.Live;
    if Enter(s, s', t) {
      EnterKeeps(s, t, max);
    } else if Finish(s, s', t) {
      LeaveRunning(s, t, max);
      LoopHeadKeeps(s.(running := s.running - {t}), t, max);
    } else if Stir(s, s', t) {
      StirKeeps(s, s', t, max);
    } else if s.jobs != [] || !Resume(s, s', t, true) {
      LeaveWoken(s, t, max);
      LoopHeadKeeps(s.(idle := s.idle - 1, woken := s.woken - {t}), t, max);
    } else {
      RetireKeeps(s, t, max);
    }
  }

  lemma {:induction false} RunKeeps(tr: seq<State>, max: nat, i: nat)
    requires Run(tr, max) && i < |tr|
    ensures Inv(tr[i], max)
  {
    if i > 0 {
      RunKeeps(tr, max, i - 1);
      var s, s' := tr[i - 1], tr[i];
      if job :| Submit(s, s', job, max) {
        SubmitKeeps(s, s', job, max);
      } else {
        var t :| ThreadStep(s, s', t);
        ThreadStepKeeps(s, s', t, max);
      }
    }
  }

  // ------------------------------------------------------- what the pool promises

  /**
   * Work conservation in every interleaving: a thread sleeps un-notified only
   * while every queued job has its own woken thread; beyond that, jobs exceed
   * the woken and starting threads only when the pool is at its limit; and a
   * non-empty queue always has a thread that is not asleep.
   */
  lemma WorkConserving(tr: seq<State>, max: nat, i: nat)
    requires Run(tr, max) && i < |tr| && 0 < max
    ensures var s := tr[i];
      && s.threads <= max
      && (s.parked != {} ==> |s.jobs| <= |s.woken|)
      && (|s.jobs| > |s.woken| + |s.starting| ==> s.threads == max && s.parked == {})
      && (s.jobs != [] ==> exists t :: t in s.Live() && t !in s.parked)
  {
    RunKeeps(tr, max, i);
    var s := tr[i];
    if s.jobs != [] {
      if s.woken != {} {
        var t :| t in s.woken;
        assert t in s.Live();
      } else if s.starting != {} {
        var t :| t in s.starting;
        assert t in s.Live();
      } else {
        assert s.running.Keys != {};
        var t :| t in s.running.Keys;
        assert t in s.Live();
      }
    }
  }

  /**
   * Jobs are started in submission order, each at most once, none lost: what
   * was started followed by what is queued is exactly what was submitted.
   */
  lemma StartedOnceInOrder(tr: seq<State>, max: nat, i: nat)
    requires Run(tr, max) && i < |tr|
    ensures tr[i].started + tr[i].jobs == tr[i].submitted
  {
    RunKeeps(tr, max, i);
  }

  /**
   * While jobs wait, whichever awake thread next gets the lock starts the
   * oldest one: no step of a thread that is not asleep is wasted, and no such
   * thread retires.
   */
  lemma AwakeThreadsTakeWork(tr: seq<State>, max: nat, i: nat, s': State, t: Tid)
    requires Run(tr, max) && i < |tr|
    requires tr[i].jobs != [] && ThreadStep(tr[i], s', t) && t !in tr[i].parked
    ensures t in s'.running && s'.running[t] == tr[i].jobs[0]
    ensures s'.jobs == tr[i].jobs[1..] && s'.threads == tr[i].threads
  {
    RunKeeps(tr, max, i);
  }

  /** Every awake thread can take its next step: the pool cannot get stuck. */
  lemma AwakeThreadsCanStep(tr: seq<State>, max: nat, i: nat, t: Tid)
    requires Run(tr, max) && i < |tr| && t in tr[i].Live() && t !in tr[i].parked
    ensures exists s' :: ThreadStep(tr[i], s', t)
  {
    RunKeeps(tr, max, i);
    var s := tr[i];
    if t in s.starting {
      assert Enter(s, LoopHead(s.(starting := s.starting - {t}), t), t);
      assert ThreadStep(s, LoopHead(s.(starting := s.starting - {t}), t), t);
    } else if t in s.woken {
      assert |s.woken| > 0;
      var s' := LoopHead(s.(idle := s.idle - 1, woken := s.woken - {t}), t);
      assert Resume(s, s', t, false);
      assert ThreadStep(s, s', t);
    } else {
      assert Finish(s, LoopHead(s.(running := s.running - {t}), t), t);
      assert ThreadStep(s, LoopHead(s.(running := s.running - {t}), t), t);
    }
  }

  /** A thread leaves the pool only when the queue is empty. */
  lemma RetiresOnlyWhenIdle(s: State, s': State, max: nat)
    requires Next(s, s', max) && s'.threads < s.threads
    ensures s.jobs == [] && s'.jobs == []
  {
    if job :| Submit(s, s', job, max) {
      SubmitNeverShrinks(s, s', job, max);
    } else {
      var t :| ThreadStep(s, s', t);
    }
  }

  lemma SubmitNeverShrinks(s: State, s': State, job: Job, max: nat)
    requires Submit(s, s', job, max)
    ensures s'.threads >= s.threads
  {
  }

  // ------------------------------------------------------------- the pool itself

  /**
   * The shared queue. `jobs`, `idle` and `threads` are its real fields; the
   * ghost fields say where the threads are. Each method is one locked section.
   */
  class BlockingPool {
    const max: nat
    var jobs: seq<Job>
    var idle: nat
    var threads: nat
    ghost var starting: set<Tid>
    ghost var parked: set<Tid>
    ghost var woken: set<Tid>
    ghost var running: map<Tid, Job>
    ghost var submitted: seq<Job>
    ghost var started: seq<Job>

    ghost function Now(): State
      reads this
    {
      State(jobs, idle, threads, starting, parked, woken, running, submitted, started)
    }

    constructor (max: nat)
      ensures Now() == INITIAL && this.max == max
    {
      this.max := max;
      jobs, idle, threads := [], 0, 0;
      starting, parked, woken, running := {}, {}, {}, map[];
      submitted, started := [], [];
    }

    /** `spawned` is true when the caller must start a thread running `Work`. */
    method SubmitJob(job: Job) returns (spawned: bool)
      requires Inv(Now(), max)
      modifies this
      ensures Submit(old(Now()), Now(), job, max) && Inv(Now(), max)
      ensures spawned <==> threads == old(threads) + 1
      ensures spawned <==> old(idle) <= |old(jobs)| && old(threads) < max
      ensures old(idle) > |old(jobs)| && old(parked) != {} ==>
        exists t :: t in old(parked) && parked == old(parked) - {t} && woken == old(woken) + {t}
    {
      hide Inv, Submit, State.Live;
      ghost var s := Now();
      spawned := false;
      jobs, submitted := jobs + [job], submitted + [job];
      ghost var t: Tid := 0;
      if idle > |jobs| - 1 {
        if parked != {} {
          t :| t in parked;
          parked, woken := parked - {t}, woken + {t};
        }
      } else if threads < max {
        t := Fresh(s.Live());
        threads, starting := threads + 1, starting + {t};
        spawned := true;
      }
      SubmitBy(s, Now(), job, max, t);
      SubmitKeeps(s, Now(), job, max);
    }

    /** The loop head of `Work`; `Some(job)` is to be run with the lock released. */
    method TakeOrPark(ghost t: Tid) returns (job: seq<Job>)
      modifies this
      ensures Now() == LoopHead(old(Now()), t)
      ensures job == if old(jobs) == [] then [] else [old(jobs)[0]]
    {
      if jobs != [] {
        job := [jobs[0]];
        running, started := running[t := jobs[0]], started + [jobs[0]];
        jobs := jobs[1..];
      } else {
        job := [];
        idle, parked := idle + 1, parked + {t};
      }
    }

    /** A new thread enters its loop. */
    method WorkEnter(ghost t: Tid) returns (job: seq<Job>)
      requires Inv(Now(), max) && t in starting
      modifies this
      ensures Enter(old(Now()), Now(), t) && Inv(Now(), max)
      ensures job == if old(jobs) == [] then [] else [old(jobs)[0]]
    {
      ghost var s := Now();
      starting := starting - {t};
      job := TakeOrPark(t);
      ThreadStepKeeps(s, Now(), t, max);
    }

    /** A thread is done with its job and goes round its loop. */
    method WorkAgain(ghost t: Tid) returns (job: seq<Job>)
      requires Inv(Now(), max) && t in running
      modifies this
      ensures Finish(old(Now()), Now(), t) && Inv(Now(), max)
      ensures job == if old(jobs) == [] then [] else [old(jobs)[0]]
    {
      ghost var s := Now();
      running := running - {t};
      job := TakeOrPark(t);
      ThreadStepKeeps(s, Now(), t, max);
    }

    /** A thread comes back from the timed wait; `retired` means it exits. */
    method WorkWoken(ghost t: Tid, timedOut: bool) returns (retired: bool, job: seq<Job>)
      requires Inv(Now(), max) && t in woken
      modifies this
      ensures Resume(old(Now()), Now(), t, timedOut) && Inv(Now(), max)
      ensures retired <==> timedOut && old(jobs) == []
      ensures job == if old(jobs) == [] then [] else [old(jobs)[0]]
      ensures threads == if retired then old(threads) - 1 else old(threads)
    {
      ghost var s := Now();
      assert |woken| > 0;
      idle, woken := idle - 1, woken - {t};
      if timedOut && jobs == [] {
        threads := threads - 1;
        retired, job := true, [];
      } else {
        retired := false;
        job := TakeOrPark(t);
      }
      assert Resume(s, Now(), t, timedOut);
      ThreadStepKeeps(s, Now(), t, max);
    }
  }

  /** A number above every thread id in use. */
  ghost function Fresh(used: set<Tid>): (t: Tid)
    ensures forall u :: u in used ==> u < t
  {
    if used == {} then 0
    else
      var u :| u in used;
      var t := Fresh(used - {u});
      assert forall v :: v in used ==> v == u || v in used - {u};
      if u < t then t else u + 1
  }
}
