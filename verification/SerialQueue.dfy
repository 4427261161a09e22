// The session serial queue of app::WorkerPool over core::JobQueue.
//
// A session's jobs wait in its own queue. What travels through the shared queue is the session's
// "execution right"; whoever holds it runs up to BATCH jobs, then either gives it up or goes to the
// back of the shared queue. Every step below is one critical section (or one job body) of the source,
// and the machine takes them in any order, for any number of sessions, submitters and workers.

/** What one critical section under a session's sq_mutex does to that session's queue and flag. */
module SerialQueueOps {
  type JobId = nat

  const BATCH: nat := 16

  datatype SessionQueue = SessionQueue(jobs: seq<JobId>, scheduled: bool)

  /** submit, first section: append; the submitter has to schedule iff nobody holds the right. */
  function Enqueue(q: SessionQueue, job: JobId): (SessionQueue, bool) {
    (SessionQueue(q.jobs + [job], true), !q.scheduled)
  }

  function BatchSize(n: nat): nat { if n < BATCH then n else BATCH }

  /** drain, first section: move the oldest jobs, at most BATCH of them, into the batch. */
  function Take(q: SessionQueue): (SessionQueue, seq<JobId>) {
    var n := BatchSize(|q.jobs|);
    (q.(jobs := q.jobs[n..]), q.jobs[..n])
  }

  /** drain, second section: the flag goes down only if nothing arrived meanwhile. */
  function Recheck(q: SessionQueue): (SessionQueue, bool) {
    if q.jobs == [] then (q.(scheduled := false), false) else (q, true)
  }

  /** The clean-up after a refused push. */
  function Unschedule(q: SessionQueue): SessionQueue { q.(scheduled := false) }
}

/** The objects of the source, one method per critical section. */
module SerialQueueObjects {
  import opened SerialQueueOps

  class Session {
    var serialQueue: seq<JobId>
    var sqScheduled: bool

    constructor ()
      ensures View() == SessionQueue([], false)
    {
      serialQueue, sqScheduled := [], false;
    }

    function View(): SessionQueue
      reads this
    {
      SessionQueue(serialQueue, sqScheduled)
    }

    method EnqueueJob(job: JobId) returns (needSchedule: bool)
      modifies this
      ensures (View(), needSchedule) == Enqueue(old(View()), job)
      ensures serialQueue == old(serialQueue) + [job] && sqScheduled && needSchedule == !old(sqScheduled)
    {
      serialQueue := serialQueue + [job];
      needSchedule := false;
      if !sqScheduled {
        sqScheduled := true;
        needSchedule := true;
      }
    }

    method TakeBatch() returns (batch: seq<JobId>)
      modifies this
      ensures (View(), batch) == Take(old(View()))
      ensures batch + serialQueue == old(serialQueue) && sqScheduled == old(sqScheduled)
      ensures |batch| <= BATCH && (serialQueue != [] ==> |batch| == BATCH)
    {
      batch := [];
      while |batch| < BATCH && serialQueue != []
        invariant sqScheduled == old(sqScheduled)
        invariant |batch| <= BATCH && batch + serialQueue == old(serialQueue)
        decreases |serialQueue|
      {
        batch := batch + [serialQueue[0]];
        serialQueue := serialQueue[1..];
      }
      assert old(serialQueue)[..|batch|] == batch && old(serialQueue)[|batch|..] == serialQueue;
    }

    method RecheckQueue() returns (more: bool)
      modifies this
      ensures (View(), more) == Recheck(old(View()))
      ensures more == (old(serialQueue) != []) && serialQueue == old(serialQueue)
      ensures sqScheduled == (old(sqScheduled) && more)
    {
      more := serialQueue != [];
      if !more {
        sqScheduled := false;
      }
    }

    method ClearScheduled()
      modifies this
      ensures View() == Unschedule(old(View())) && !sqScheduled && serialQueue == old(serialQueue)
    {
      sqScheduled := false;
    }
  }

  datatype PopResult<T> = Job(job: T) | WouldBlock | Finished

  /** core::JobQueue. A stopped queue takes nothing new and still hands out what it has. */
  class JobQueue<T> {
    var jobs: seq<T>
    var stopped: bool

    constructor ()
      ensures jobs == [] && !stopped
    {
      jobs, stopped := [], false;
    }

    method Push(job: T) returns (accepted: bool)
      modifies this
      ensures accepted == !old(stopped) && stopped == old(stopped)
      ensures jobs == if accepted then old(jobs) + [job] else old(jobs)
    {
      if stopped { return false; }
      jobs := jobs + [job];
      return true;
    }

    /** One look at the queue under its mutex; the blocking pop repeats it while WouldBlock. */
    method TryPop() returns (r: PopResult<T>)
      modifies this
      ensures stopped == old(stopped)
      ensures old(jobs) != [] ==> r == Job(old(jobs)[0]) && jobs == old(jobs)[1..]
      ensures old(jobs) == [] ==> jobs == [] && r == if old(stopped) then Finished else WouldBlock
    {
      if jobs == [] {
        return if stopped then Finished else WouldBlock;
      }
      r := Job(jobs[0]);
      jobs := jobs[1..];
    }

    method Stop()
      modifies this
      ensures stopped && jobs == old(jobs)
    {
      stopped := true;
    }
  }
}

/** All interleavings of submitters, workers and stop. */
module SerialQueueMachine {
  import opened DistinctLists
  import opened SerialQueueOps

  type Sid = nat

  /** Where a worker is between two critical sections of drain_serial_queue. */
  datatype Worker =
    | Idle
    | Popped(sid: Sid)                        // right popped, batch not taken yet
    | Running(sid: Sid, rest: seq<JobId>)     // jobs of the batch still to run, oldest first
    | Requeueing(sid: Sid)                    // jobs arrived, the right goes back to the shared queue
    | Refused(sid: Sid)                       // the shared queue had stopped

  /** A submit call that won the flag and has not returned yet. */
  datatype Submitter = Carrying(sid: Sid, index: nat) | Rejected(sid: Sid, index: nat)

  datatype State = State(
    sessions: map<Sid, SessionQueue>,
    shared: seq<Sid>,
    stopped: bool,
    workers: seq<Worker>,
    submitters: map<nat, Submitter>,
    pushed: map<Sid, seq<JobId>>,   // history: jobs in the order submit appended them
    ran: map<Sid, seq<JobId>>)      // history: jobs in the order they were run

  datatype Step =
    | Submit(t: nat, sid: Sid, job: JobId)
    | Publish(t: nat)
    | Withdraw(t: nat)
    | Pick(w: nat)
    | TakeJobs(w: nat)
    | RunJob(w: nat)
    | Settle(w: nat)
    | Requeue(w: nat)
    | Abandon(w: nat)
    | Stop

  ghost predicate Enabled(s: State, step: Step) {
    match step
    case Submit(t, sid, _) => t !in s.submitters && sid in s.sessions && sid in s.pushed
    case Publish(t) => t in s.submitters && s.submitters[t].Carrying?
    case Withdraw(t) => t in s.submitters && s.submitters[t].Rejected? && s.submitters[t].sid in s.sessions
    case Pick(w) => w < |s.workers| && s.workers[w].Idle? && s.shared != []
    case TakeJobs(w) => w < |s.workers| && s.workers[w].Popped? && s.workers[w].sid in s.sessions
    case RunJob(w) =>
      w < |s.workers| && s.workers[w].Running? && s.workers[w].rest != [] && s.workers[w].sid in s.ran
    case Settle(w) =>
      w < |s.workers| && s.workers[w].Running? && s.workers[w].rest == [] && s.workers[w].sid in s.sessions
    case Requeue(w) => w < |s.workers| && s.workers[w].Requeueing?
    case Abandon(w) => w < |s.workers| && s.workers[w].Refused? && s.workers[w].sid in s.sessions
    case Stop => true
  }

  ghost function Next(s: State, step: Step): State
    requires Enabled(s, step)
  {
    match step
    case Submit(t, sid, job) =>
      var (q, need) := Enqueue(s.sessions[sid], job);
      s.(sessions := s.sessions[sid := q],
         pushed := s.pushed[sid := s.pushed[sid] + [job]],
         submitters := if need then s.submitters[t := Carrying(sid, |s.pushed[sid]|)] else s.submitters)
    case Publish(t) =>
      var sub := s.submitters[t];
      if s.stopped then s.(submitters := s.submitters[t := Rejected(sub.sid, sub.index)])
      else s.(shared := s.shared + [sub.sid], submitters := s.submitters - {t})
    case Withdraw(t) =>
      var sid := s.submitters[t].sid;
      s.(sessions := s.sessions[sid := Unschedule(s.sessions[sid])], submitters := s.submitters - {t})
    case Pick(w) =>
      s.(shared := s.shared[1..], workers := s.workers[w := Popped(s.shared[0])])
    case TakeJobs(w) =>
      var sid := s.workers[w].sid;
      var (q, batch) := Take(s.sessions[sid]);
      s.(sessions := s.sessions[sid := q], workers := s.workers[w := Running(sid, batch)])
    case RunJob(w) =>
      var sid := s.workers[w].sid;
      var rest := s.workers[w].rest;
      s.(ran := s.ran[sid := s.ran[sid] + [rest[0]]], workers := s.workers[w := Running(sid, rest[1..])])
    case Settle(w) =>
      var sid := s.workers[w].sid;
      var (q, more) := Recheck(s.sessions[sid]);
      s.(sessions := s.sessions[sid := q], workers := s.workers[w := if more then Requeueing(sid) else Idle])
    case Requeue(w) =>
      var sid := s.workers[w].sid;
      if s.stopped then s.(workers := s.workers[w := Refused(sid)])
      else s.(shared := s.shared + [sid], workers := s.workers[w := Idle])
    case Abandon(w) =>
      var sid := s.workers[w].sid;
      s.(sessions := s.sessions[sid := Unschedule(s.sessions[sid])], workers := s.workers[w := Idle])
    case Stop => s.(stopped := true)
  }

  // ---- The invariant ---------------------------------------------------------------------------

  /** Where an execution right can be. Nothing here makes it unique: that is the theorem. */
  datatype Place = Shared(i: nat) | AtWorker(w: nat) | InHand(t: nat)

  ghost predicate At(s: State, p: Place, sid: Sid) {
    match p
    case Shared(i) => i < |s.shared| && s.shared[i] == sid
    case AtWorker(w) => w < |s.workers| && !s.workers[w].Idle? && s.workers[w].sid == sid
    case InHand(t) => t in s.submitters && s.submitters[t].sid == sid
  }

  ghost predicate RightsUnique(s: State) {
    forall p, q, sid :: At(s, p, sid) && At(s, q, sid) ==> p == q
  }

  /** The flag is up exactly when the session's right is somewhere. */
  ghost predicate FlagMeansRight(s: State) {
    && (forall p, sid :: At(s, p, sid) ==> sid in s.sessions && s.sessions[sid].scheduled)
    && (forall sid :: sid in s.sessions && s.sessions[sid].scheduled ==> exists p :: At(s, p, sid))
  }

  ghost predicate Draining(s: State, w: nat, sid: Sid) {
    w < |s.workers| && s.workers[w].Running? && s.workers[w].sid == sid
  }

  /** Pushed jobs are, in order: the run ones, the rest of the running batch, the queued ones. */
  ghost predicate Ordered(s: State) {
    && s.pushed.Keys == s.sessions.Keys && s.ran.Keys == s.sessions.Keys
    && (forall w: nat, sid :: Draining(s, w, sid) && sid in s.sessions ==>
          s.pushed[sid] == s.ran[sid] + s.workers[w].rest + s.sessions[sid].jobs)
    && (forall sid :: sid in s.sessions && (forall w: nat :: !Draining(s, w, sid)) ==>
          s.pushed[sid] == s.ran[sid] + s.sessions[sid].jobs)
  }

  /** A queue with work and no right, or a refusal in progress, is possible only after stop. */
  ghost predicate StrandedOnlyAfterStop(s: State) {
    && (forall sid :: sid in s.sessions && s.sessions[sid].jobs != [] && !s.sessions[sid].scheduled ==> s.stopped)
    && (forall w :: 0 <= w < |s.workers| && s.workers[w].Refused? ==> s.stopped)
    && (forall t :: t in s.submitters && s.submitters[t].Rejected? ==> s.stopped)
  }

  ghost predicate BatchesBounded(s: State) {
    forall w :: 0 <= w < |s.workers| && s.workers[w].Running? ==> |s.workers[w].rest| <= BATCH
  }

  ghost predicate CarriedJobQueued(s: State, sub: Submitter) {
    sub.sid in s.sessions && sub.sid in s.pushed && sub.sid in s.ran &&
    |s.ran[sub.sid]| <= sub.index < |s.pushed[sub.sid]|
  }

  /** The job a submitter won the flag with is still queued: nobody else can have taken it. */
  ghost predicate CarriedJobsQueued(s: State) {
    forall t :: t in s.submitters ==> CarriedJobQueued(s, s.submitters[t])
  }

  ghost predicate Inv(s: State) {
    && RightsUnique(s) && FlagMeansRight(s) && Ordered(s)
    && StrandedOnlyAfterStop(s) && BatchesBounded(s) && CarriedJobsQueued(s)
  }

  ghost predicate Init(s: State) {
    && s.shared == [] && !s.stopped && s.submitters == map[]
    && (forall w :: 0 <= w < |s.workers| ==> s.workers[w].Idle?)
    && s.pushed.Keys == s.sessions.Keys && s.ran.Keys == s.sessions.Keys
    && (forall sid :: sid in s.sessions ==>
          s.sessions[sid] == SessionQueue([], false) && s.pushed[sid] == [] && s.ran[sid] == [])
  }

  lemma InitInv(s: State)
    requires Init(s)
    ensures Inv(s)
  {
  }

  /** Where the right now at p was before the step. */
  ghost function Before(s: State, step: Step, p: Place): Place
    requires Enabled(s, step)
  {
    match step
    case Publish(t) => if !s.stopped && p == Shared(|s.shared|) then InHand(t) else p
    case Requeue(w) => if !s.stopped && p == Shared(|s.shared|) then AtWorker(w) else p
    case Pick(w) => if p == AtWorker(w) then Shared(0) else if p.Shared? then Shared(p.i + 1) else p
    case _ => p
  }

  /** A step moves rights or drops them; only a submit that found the flag down makes one. */
  lemma RightsOnlyMove(s: State, step: Step, p: Place, sid: Sid)
    requires Enabled(s, step)
    requires At(Next(s, step), p, sid)
    ensures At(s, Before(s, step, p), sid)
      || (step.Submit? && sid == step.sid && p == InHand(step.t) && !s.sessions[sid].scheduled)
  {
  }

  lemma StepRightsUnique(s: State, step: Step)
    requires Inv(s) && Enabled(s, step)
    ensures RightsUnique(Next(s, step))
  {
    var s' := Next(s, step);
    forall p, q, sid | At(s', p, sid) && At(s', q, sid)
      ensures p == q
    {
      RightsOnlyMove(s, step, p, sid);
      RightsOnlyMove(s, step, q, sid);
    }
  }

  /** The forward direction: where a right at p goes. */
  ghost function After(s: State, step: Step, p: Place): Place
    requires Enabled(s, step)
  {
    match step
    case Publish(t) => if !s.stopped && p == InHand(t) then Shared(|s.shared|) else p
    case Requeue(w) => if !s.stopped && p == AtWorker(w) then Shared(|s.shared|) else p
    case Pick(w) => if p == Shared(0) then AtWorker(w) else if p.Shared? && p.i > 0 then Shared(p.i - 1) else p
    case _ => p
  }

  /** A right is dropped only by the section that lowers the session's flag. */
  lemma RightsStay(s: State, step: Step, p: Place, sid: Sid)
    requires Enabled(s, step) && At(s, p, sid)
    requires sid in s.sessions && sid in Next(s, step).sessions && Next(s, step).sessions[sid].scheduled
    requires RightsUnique(s)
    ensures At(Next(s, step), After(s, step, p), sid)
  {
    match step
    case Withdraw(t) => assert At(s, InHand(t), s.submitters[t].sid);
    case Settle(w) => assert At(s, AtWorker(w), s.workers[w].sid);
    case Abandon(w) => assert At(s, AtWorker(w), s.workers[w].sid);
    case _ =>
  }

  lemma RightKeepsFlag(s: State, step: Step, p: Place, sid: Sid)
    requires RightsUnique(s) && FlagMeansRight(s) && Enabled(s, step)
    requires At(Next(s, step), p, sid)
    ensures sid in Next(s, step).sessions && Next(s, step).sessions[sid].scheduled
  {
    RightsOnlyMove(s, step, p, sid);
    match step
    case Withdraw(t) => assert At(s, InHand(t), s.submitters[t].sid);
    case Settle(w) => assert At(s, AtWorker(w), s.workers[w].sid);
    case Abandon(w) => assert At(s, AtWorker(w), s.workers[w].sid);
    case _ =>
  }

  lemma FlagKeepsRight(s: State, step: Step, sid: Sid)
    requires RightsUnique(s) && FlagMeansRight(s) && Enabled(s, step)
    requires sid in Next(s, step).sessions && Next(s, step).sessions[sid].scheduled
    ensures exists p :: At(Next(s, step), p, sid)
  {
    if sid in s.sessions && s.sessions[sid].scheduled {
      var p :| At(s, p, sid);
      RightsStay(s, step, p, sid);
    } else {
      assert At(Next(s, step), InHand(step.t), sid);
    }
  }

  lemma StepFlagMeansRight(s: State, step: Step)
    requires RightsUnique(s) && FlagMeansRight(s) && Enabled(s, step)
    ensures FlagMeansRight(Next(s, step))
  {
    var s' := Next(s, step);
    forall p, sid | At(s', p, sid)
      ensures sid in s'.sessions && s'.sessions[sid].scheduled
    {
      RightKeepsFlag(s, step, p, sid);
    }
    forall sid | sid in s'.sessions && s'.sessions[sid].scheduled
      ensures exists p :: At(s', p, sid)
    {
      FlagKeepsRight(s, step, sid);
    }
  }

  /** Jobs of sid popped into a batch and not run yet. */
  ghost predicate QueueEquation(s: State, sid: Sid, rest: seq<JobId>) {
    sid in s.sessions && sid in s.pushed && sid in s.ran &&
    s.pushed[sid] == s.ran[sid] + rest + s.sessions[sid].jobs
  }

  lemma DrainerUnique(s: State, w: nat, v: nat, sid: Sid)
    requires RightsUnique(s)
    requires At(s, AtWorker(w), sid) && At(s, AtWorker(v), sid)
    ensures w == v
  {
    assert AtWorker(w) == AtWorker(v);
  }

  lemma SplitJobs(pushed: seq<JobId>, ran: seq<JobId>, jobs: seq<JobId>, n: nat)
    requires pushed == ran + jobs && n <= |jobs|
    ensures pushed == ran + jobs[..n] + jobs[n..]
  {
    assert jobs == jobs[..n] + jobs[n..];
  }

  lemma PoppedNotDraining(s: State, v: nat, sid: Sid, u: nat)
    requires RightsUnique(s) && v < |s.workers| && s.workers[v] == Popped(sid)
    ensures !Draining(s, u, sid)
  {
    if Draining(s, u, sid) { DrainerUnique(s, u, v, sid); }
  }

  lemma TakeKeepsOrder(s: State, v: nat, sid: Sid, w: nat)
    requires RightsUnique(s) && Ordered(s) && Enabled(s, TakeJobs(v)) && sid in s.sessions
    requires Draining(Next(s, TakeJobs(v)), w, sid)
    ensures QueueEquation(Next(s, TakeJobs(v)), sid, Next(s, TakeJobs(v)).workers[w].rest)
  {
    if s.workers[v].sid == sid {
      forall u: nat ensures !Draining(s, u, sid) { PoppedNotDraining(s, v, sid, u); }
      if w != v { assert Draining(s, w, sid); }
      var jobs := s.sessions[sid].jobs;
      SplitJobs(s.pushed[sid], s.ran[sid], jobs, BatchSize(|jobs|));
    } else {
      assert Draining(s, w, sid);
    }
  }

  lemma RunKeepsOrder(s: State, v: nat, sid: Sid, w: nat)
    requires RightsUnique(s) && Ordered(s) && Enabled(s, RunJob(v)) && sid in s.sessions
    requires Draining(Next(s, RunJob(v)), w, sid)
    ensures QueueEquation(Next(s, RunJob(v)), sid, Next(s, RunJob(v)).workers[w].rest)
  {
    assert Draining(s, w, sid);
    if s.workers[v].sid == sid {
      DrainerUnique(s, w, v, sid);
      assert s.workers[v].rest == [s.workers[v].rest[0]] + s.workers[v].rest[1..];
    }
  }

  lemma DrainingEquation(s: State, step: Step, sid: Sid, w: nat)
    requires RightsUnique(s) && Ordered(s) && Enabled(s, step) && sid in s.sessions
    requires Draining(Next(s, step), w, sid)
    ensures QueueEquation(Next(s, step), sid, Next(s, step).workers[w].rest)
  {
    match step
    case TakeJobs(v) => TakeKeepsOrder(s, v, sid, w);
    case RunJob(v) => RunKeepsOrder(s, v, sid, w);
    case _ => assert Draining(s, w, sid);
  }

  /** A drain ends only by settling, and then its batch has been run. */
  lemma DrainEnds(s: State, step: Step, v: nat, sid: Sid)
    requires Enabled(s, step) && Draining(s, v, sid) && !Draining(Next(s, step), v, sid)
    ensures step == Settle(v) && s.workers[v].rest == []
  {
  }

  lemma SettledEquation(s: State, step: Step, sid: Sid, v: nat)
    requires Ordered(s) && Enabled(s, step) && sid in s.sessions
    requires Draining(s, v, sid) && !Draining(Next(s, step), v, sid)
    ensures QueueEquation(Next(s, step), sid, [])
  {
    DrainEnds(s, step, v, sid);
    assert QueueEquation(s, sid, []);
  }

  lemma RestingEquation(s: State, step: Step, sid: Sid)
    requires Ordered(s) && Enabled(s, step) && sid in s.sessions
    requires forall w: nat :: !Draining(Next(s, step), w, sid)
    ensures QueueEquation(Next(s, step), sid, [])
  {
    if v: nat :| Draining(s, v, sid) {
      SettledEquation(s, step, sid, v);
    } else {
      NoDrainStarts(s, step, sid);
      assert QueueEquation(s, sid, []);
      StepEquation(s, step, sid);
    }
  }

  lemma NoDrainStarts(s: State, step: Step, sid: Sid)
    requires Enabled(s, step)
    requires forall w: nat :: !Draining(s, w, sid) && !Draining(Next(s, step), w, sid)
    ensures (step.TakeJobs? || step.RunJob?) ==> s.workers[step.w].sid != sid
  {
    if step.TakeJobs? || step.RunJob? {
      assert !Draining(s, step.w, sid) && !Draining(Next(s, step), step.w, sid);
    }
  }

  lemma StepEquation(s: State, step: Step, sid: Sid)
    requires Enabled(s, step) && QueueEquation(s, sid, [])
    requires (step.TakeJobs? || step.RunJob?) ==> s.workers[step.w].sid != sid
    ensures QueueEquation(Next(s, step), sid, [])
  {
  }

  lemma NewSessionsAreOld(s: State, step: Step)
    requires Enabled(s, step) && s.pushed.Keys == s.sessions.Keys && s.ran.Keys == s.sessions.Keys
    ensures var s' := Next(s, step);
            s'.sessions.Keys == s.sessions.Keys && s'.pushed.Keys == s.sessions.Keys && s'.ran.Keys == s.sessions.Keys
  {
  }

  lemma StepOrdered(s: State, step: Step)
    requires RightsUnique(s) && Ordered(s) && Enabled(s, step)
    ensures Ordered(Next(s, step))
  {
    NewSessionsAreOld(s, step);
    forall w: nat, sid | Draining(Next(s, step), w, sid) && sid in s.sessions
      ensures QueueEquation(Next(s, step), sid, Next(s, step).workers[w].rest)
    {
      DrainingEquation(s, step, sid, w);
    }
    forall sid | sid in s.sessions && forall w: nat :: !Draining(Next(s, step), w, sid)
      ensures QueueEquation(Next(s, step), sid, [])
    {
      RestingEquation(s, step, sid);
    }
  }

  lemma RanWithinPushed(s: State, sid: Sid)
    requires Ordered(s) && sid in s.sessions
    ensures |s.ran[sid]| + |s.sessions[sid].jobs| <= |s.pushed[sid]|
    ensures s.ran[sid] <= s.pushed[sid]
  {
    if w: nat :| Draining(s, w, sid) {
      assert s.pushed[sid] == s.ran[sid] + (s.workers[w].rest + s.sessions[sid].jobs);
    } else {
      assert s.pushed[sid] == s.ran[sid] + s.sessions[sid].jobs;
    }
  }

  lemma StepStranded(s: State, step: Step, sid: Sid)
    requires Enabled(s, step) && StrandedOnlyAfterStop(s)
    requires sid in Next(s, step).sessions
    ensures var s' := Next(s, step);
            s'.sessions[sid].jobs != [] && !s'.sessions[sid].scheduled ==> s'.stopped
  {
    assert sid in s.sessions;
  }

  lemma StepStrandedOnlyAfterStop(s: State, step: Step)
    requires Enabled(s, step) && StrandedOnlyAfterStop(s)
    ensures StrandedOnlyAfterStop(Next(s, step))
  {
    forall sid | sid in Next(s, step).sessions
      ensures var s' := Next(s, step); s'.sessions[sid].jobs != [] && !s'.sessions[sid].scheduled ==> s'.stopped
    {
      StepStranded(s, step, sid);
    }
  }

  lemma StepBatchesBounded(s: State, step: Step)
    requires Enabled(s, step) && BatchesBounded(s)
    ensures BatchesBounded(Next(s, step))
  {
  }

  lemma OthersLeaveCarriedJob(s: State, step: Step, t: nat)
    requires Enabled(s, step) && RightsUnique(s)
    requires t in s.submitters && CarriedJobQueued(s, s.submitters[t])
    ensures CarriedJobQueued(Next(s, step), s.submitters[t])
  {
    var sid := s.submitters[t].sid;
    assert At(s, InHand(t), sid);
    if step.RunJob? && s.workers[step.w].sid == sid {
      assert At(s, AtWorker(step.w), sid);
      assert false;
    }
  }

  lemma StepCarriedJobsQueued(s: State, step: Step)
    requires Enabled(s, step) && RightsUnique(s) && Ordered(s) && CarriedJobsQueued(s)
    ensures CarriedJobsQueued(Next(s, step))
  {
    var s' := Next(s, step);
    forall t | t in s'.submitters
      ensures CarriedJobQueued(s', s'.submitters[t])
    {
      if t in s.submitters {
        OthersLeaveCarriedJob(s, step, t);
      } else {
        RanWithinPushed(s, step.sid);
      }
    }
  }

  lemma StepInv(s: State, step: Step)
    requires Inv(s) && Enabled(s, step)
    ensures Inv(Next(s, step))
  {
    StepRightsUnique(s, step);
    StepFlagMeansRight(s, step);
    StepOrdered(s, step);
    StepStrandedOnlyAfterStop(s, step);
    StepBatchesBounded(s, step);
    StepCarriedJobsQueued(s, step);
  }

  // ---- Whole runs ------------------------------------------------------------------------------

  ghost predicate IsRun(states: seq<State>, steps: seq<Step>) {
    && |states| == |steps| + 1
    && forall i :: 0 <= i < |steps| ==> Enabled(states[i], steps[i]) && states[i + 1] == Next(states[i], steps[i])
  }

  lemma {:induction false} RunInv(states: seq<State>, steps: seq<Step>, n: nat)
    requires IsRun(states, steps) && Inv(states[0]) && n < |states|
    ensures Inv(states[n])
  {
    if n > 0 {
      RunInv(states, steps, n - 1);
      StepInv(states[n - 1], steps[n - 1]);
    }
  }

  /** In every reachable state a session has at most one right, and the flag says whether it has one. */
  lemma AtMostOneRight(states: seq<State>, steps: seq<Step>, n: nat, sid: Sid)
    requires IsRun(states, steps) && Init(states[0]) && n < |states| && sid in states[n].sessions
    ensures forall p, q :: At(states[n], p, sid) && At(states[n], q, sid) ==> p == q
    ensures states[n].sessions[sid].scheduled <==> exists p :: At(states[n], p, sid)
  {
    InitInv(states[0]);
    RunInv(states, steps, n);
  }

  /** Jobs of one session run in push order, none twice, none skipped, and never two at a time. */
  lemma RunsInPushOrder(states: seq<State>, steps: seq<Step>, n: nat, sid: Sid)
    requires IsRun(states, steps) && Init(states[0]) && n < |states| && sid in states[n].sessions
    ensures sid in states[n].ran && sid in states[n].pushed && states[n].ran[sid] <= states[n].pushed[sid]
    ensures forall v: nat, w: nat :: Draining(states[n], v, sid) && Draining(states[n], w, sid) ==> v == w
  {
    InitInv(states[0]);
    RunInv(states, steps, n);
    RanWithinPushed(states[n], sid);
    forall v: nat, w: nat | Draining(states[n], v, sid) && Draining(states[n], w, sid)
      ensures v == w
    {
      DrainerUnique(states[n], v, w, sid);
    }
  }

  /** Before stop, a session whose right is gone has run every job it was given. */
  lemma NothingLostBeforeStop(states: seq<State>, steps: seq<Step>, n: nat, sid: Sid)
    requires IsRun(states, steps) && Init(states[0]) && n < |states| && sid in states[n].sessions
    requires !states[n].stopped && !states[n].sessions[sid].scheduled
    ensures sid in states[n].ran && sid in states[n].pushed && states[n].ran[sid] == states[n].pushed[sid]
  {
    InitInv(states[0]);
    RunInv(states, steps, n);
    forall w: nat
      ensures !Draining(states[n], w, sid)
    {
      assert Draining(states[n], w, sid) ==> At(states[n], AtWorker(w), sid);
    }
  }

  // ---- After stop ------------------------------------------------------------------------------

  /** The queue has stopped and the session's right is neither queued nor able to take a batch. */
  ghost predicate Dead(s: State, sid: Sid) {
    s.stopped && forall p :: At(s, p, sid) ==> p.InHand? || (p.AtWorker? && s.workers[p.w].Refused?)
  }

  lemma StepDead(s: State, step: Step, sid: Sid)
    requires Dead(s, sid) && Enabled(s, step) && sid in s.ran
    ensures Dead(Next(s, step), sid)
    ensures sid in Next(s, step).ran && Next(s, step).ran[sid] == s.ran[sid]
  {
    var s' := Next(s, step);
    forall p | At(s', p, sid)
      ensures p.InHand? || (p.AtWorker? && s'.workers[p.w].Refused?)
    {
      RightsOnlyMove(s, step, p, sid);
    }
    assert forall w: nat :: step == RunJob(w) && s.workers[w].sid == sid ==> At(s, AtWorker(w), sid);
  }

  lemma {:induction false} DeadForever(states: seq<State>, steps: seq<Step>, n: nat, sid: Sid)
    requires IsRun(states, steps) && n < |states| && Dead(states[0], sid) && sid in states[0].ran
    ensures Dead(states[n], sid) && sid in states[n].ran && states[n].ran[sid] == states[0].ran[sid]
  {
    if n > 0 {
      DeadForever(states, steps, n - 1, sid);
      StepDead(states[n - 1], steps[n - 1], sid);
    }
  }

  /** submit's promise for `false`: the refused job is not run, neither so far nor later. */
  lemma RefusedJobNeverRuns(states: seq<State>, steps: seq<Step>, t: nat, n: nat)
    requires IsRun(states, steps) && Inv(states[0]) && n < |states|
    requires t in states[0].submitters && states[0].submitters[t].Rejected?
    ensures var sub := states[0].submitters[t];
            sub.sid in states[n].ran && |states[n].ran[sub.sid]| <= sub.index
  {
    var sid := states[0].submitters[t].sid;
    assert At(states[0], InHand(t), sid);
    assert Dead(states[0], sid);
    DeadForever(states, steps, n, sid);
  }

  /** Handing a right to the shared queue succeeds iff it has not stopped; else the session is done for. */
  lemma HandOver(s: State, step: Step)
    requires Inv(s) && Enabled(s, step) && (step.Publish? || step.Requeue?)
    ensures var sid := if step.Publish? then s.submitters[step.t].sid else s.workers[step.w].sid;
            ((exists i :: At(Next(s, step), Shared(i), sid)) <==> !s.stopped)
            && (Dead(Next(s, step), sid) <==> s.stopped)
  {
    var sid := if step.Publish? then s.submitters[step.t].sid else s.workers[step.w].sid;
    var here := if step.Publish? then InHand(step.t) else AtWorker(step.w);
    var s' := Next(s, step);
    assert At(s, here, sid);
    if s.stopped {
      StepRightsUnique(s, step);
      assert At(s', here, sid);
    } else {
      assert At(s', Shared(|s.shared|), sid);
    }
  }

  const OneSession: State :=
    State(map[7 := SessionQueue([], false)], [], false, [Idle], map[], map[7 := []], map[7 := []])

  /** Job 100 is being drained when job 101 is accepted (the flag was up) and the queue stops. */
  const StopDuringDrain: State :=
    State(map[7 := SessionQueue([101], true)], [], true, [Running(7, [100])], map[], map[7 := [100, 101]], map[7 := []])

  const FirstJobQueued: State :=
    State(map[7 := SessionQueue([100], true)], [7], false, [Idle], map[], map[7 := [100]], map[7 := []])

  lemma ReachFirstJobQueued()
    ensures var s1 := Next(OneSession, Submit(0, 7, 100));
            Enabled(s1, Publish(0)) && Next(s1, Publish(0)) == FirstJobQueued
  {
    var s1 := Next(OneSession, Submit(0, 7, 100));
    assert [] + [100] == [100];
    assert s1.submitters == map[0 := Carrying(7, 0)];
    assert Next(s1, Publish(0)).submitters == map[];
  }

  lemma ReachFirstBatch()
    ensures var s3 := Next(FirstJobQueued, Pick(0));
            Enabled(s3, TakeJobs(0)) &&
            Next(s3, TakeJobs(0)) == FirstJobQueued.(sessions := map[7 := SessionQueue([], true)], shared := [],
                                                     workers := [Running(7, [100])])
  {
    assert [100][..1] == [100] && [100][1..] == [] && [7][1..] == [];
  }

  lemma ReachStopDuringDrain() returns (states: seq<State>, steps: seq<Step>)
    ensures IsRun(states, steps) && states[0] == OneSession && states[|steps|] == StopDuringDrain
  {
    ReachFirstJobQueued();
    ReachFirstBatch();
    var s1 := Next(OneSession, Submit(0, 7, 100));
    var s3 := Next(FirstJobQueued, Pick(0));
    var s4 := Next(s3, TakeJobs(0));
    assert [] + [101] == [101] && [100] + [101] == [100, 101];
    var s5 := Next(s4, Submit(1, 7, 101));
    var s6 := Next(s5, Stop);
    assert s6 == StopDuringDrain;
    states := [OneSession, s1, FirstJobQueued, s3, s4, s5, s6];
    steps := [Submit(0, 7, 100), Publish(0), Pick(0), TakeJobs(0), Submit(1, 7, 101), Stop];
  }

  /** From there the accepted job 101 is stranded: the session dies having run only job 100. */
  lemma AcceptedJobLostAfterStop() returns (states: seq<State>, steps: seq<Step>)
    ensures Init(OneSession)
    ensures IsRun(states, steps) && states[0] == StopDuringDrain
    ensures var last := states[|steps|];
            last.ran == map[7 := [100]] && last.pushed == map[7 := [100, 101]] && Dead(last, 7)
  {
    var s1 := Next(StopDuringDrain, RunJob(0));
    assert [100][1..] == [] && [] + [[100][0]] == [100];
    assert s1.workers == [Running(7, [])];
    var s2 := Next(s1, Settle(0));
    assert s2.workers == [Requeueing(7)];
    var s3 := Next(s2, Requeue(0));
    assert s3.workers == [Refused(7)];
    var s4 := Next(s3, Abandon(0));
    assert s4.workers == [Idle] && s4.ran == map[7 := [100]];
    states := [StopDuringDrain, s1, s2, s3, s4];
    steps := [RunJob(0), Settle(0), Requeue(0), Abandon(0)];
  }

  // ---- Bounded waiting -------------------------------------------------------------------------

  /** Jobs a worker may still run before it next looks at the shared queue. */
  function Debt(w: Worker): nat {
    match w
    case Popped(_) => BATCH
    case Running(_, rest) => |rest|
    case _ => 0
  }

  function TotalDebt(ws: seq<Worker>): nat {
    if ws == [] then 0 else TotalDebt(ws[..|ws| - 1]) + Debt(ws[|ws| - 1])
  }

  lemma {:induction false} DebtOfUpdate(ws: seq<Worker>, w: nat, x: Worker)
    requires w < |ws|
    ensures TotalDebt(ws[w := x]) + Debt(ws[w]) == TotalDebt(ws) + Debt(x)
  {
    var last := |ws| - 1;
    if w == last {
      assert ws[w := x][..last] == ws[..last];
    } else {
      assert ws[w := x][..last] == ws[..last][w := x];
      DebtOfUpdate(ws[..last], w, x);
    }
  }

  lemma {:induction false} DebtBound(ws: seq<Worker>)
    requires forall i :: 0 <= i < |ws| && ws[i].Running? ==> |ws[i].rest| <= BATCH
    ensures TotalDebt(ws) <= BATCH * |ws|
  {
    if ws != [] { DebtBound(ws[..|ws| - 1]); }
  }

  function JobsRun(steps: seq<Step>): nat {
    if steps == [] then 0
    else JobsRun(steps[..|steps| - 1]) + if steps[|steps| - 1].RunJob? then 1 else 0
  }

  function Picks(steps: seq<Step>): nat {
    if steps == [] then 0
    else Picks(steps[..|steps| - 1]) + if steps[|steps| - 1].Pick? then 1 else 0
  }

  /** Each pick trades one queue position for one batch, each job run pays one unit of it. */
  lemma StepDebt(s: State, step: Step)
    requires Enabled(s, step)
    ensures var s' := Next(s, step);
            TotalDebt(s'.workers) + (if step.RunJob? then 1 else 0)
              <= TotalDebt(s.workers) + (if step.Pick? then BATCH else 0)
    ensures |Next(s, step).workers| == |s.workers|
  {
    match step
    case Pick(w) => DebtOfUpdate(s.workers, w, Next(s, step).workers[w]);
    case TakeJobs(w) => DebtOfUpdate(s.workers, w, Next(s, step).workers[w]);
    case RunJob(w) => DebtOfUpdate(s.workers, w, Next(s, step).workers[w]);
    case Settle(w) => DebtOfUpdate(s.workers, w, Next(s, step).workers[w]);
    case Requeue(w) => DebtOfUpdate(s.workers, w, Next(s, step).workers[w]);
    case Abandon(w) => DebtOfUpdate(s.workers, w, Next(s, step).workers[w]);
    case _ =>
  }

  lemma {:induction false} RunDebt(states: seq<State>, steps: seq<Step>)
    requires IsRun(states, steps)
    ensures TotalDebt(states[|steps|].workers) + JobsRun(steps) <= TotalDebt(states[0].workers) + BATCH * Picks(steps)
  {
    var n := |steps|;
    if n > 0 {
      RunDebt(states[..n], steps[..n - 1]);
      StepDebt(states[n - 1], steps[n - 1]);
    }
  }

  lemma StepQueuePosition(s: State, step: Step, i: nat, sid: Sid)
    requires Enabled(s, step) && At(s, Shared(i), sid) && (step.Pick? ==> i > 0)
    ensures At(Next(s, step), Shared(if step.Pick? then i - 1 else i), sid)
  {
  }

  /** The right k places back in the shared queue is still queued, Picks(steps) places further on. */
  lemma {:induction false} QueuePosition(states: seq<State>, steps: seq<Step>, k: nat)
    requires IsRun(states, steps) && k < |states[0].shared| && Picks(steps) <= k
    ensures At(states[|steps|], Shared(k - Picks(steps)), states[0].shared[k])
  {
    var n := |steps|;
    if n > 0 {
      var earlier := states[..n];
      assert IsRun(earlier, steps[..n - 1]) && earlier[n - 1] == states[n - 1];
      QueuePosition(earlier, steps[..n - 1], k);
      StepQueuePosition(states[n - 1], steps[n - 1], k - Picks(steps[..n - 1]), states[0].shared[k]);
    }
  }

  /** However others submit, a right with k rights ahead waits for at most 16 * (k + workers) jobs. */
  lemma BoundedWait(states: seq<State>, steps: seq<Step>, k: nat)
    requires IsRun(states, steps) && Inv(states[0]) && k < |states[0].shared|
    requires Picks(steps) <= k                       // that right has not been picked up yet
    ensures JobsRun(steps) <= 16 * (k + |states[0].workers|)
    ensures At(states[|steps|], Shared(k - Picks(steps)), states[0].shared[k])
  {
    RunDebt(states, steps);
    DebtBound(states[0].workers);
    QueuePosition(states, steps, k);
  }

  /** Batches taken for sid in a run. */
  ghost function Takes(states: seq<State>, steps: seq<Step>, sid: Sid): nat
    requires IsRun(states, steps)
  {
    var n := |steps|;
    if n == 0 then 0
    else
      var last := steps[n - 1];
      Takes(states[..n], steps[..n - 1], sid)
      + if last.TakeJobs? && states[n - 1].workers[last.w].sid == sid then 1 else 0
  }

  /** Jobs of sid that have left its serial queue. */
  function Taken(s: State, sid: Sid): int
    requires sid in s.pushed && sid in s.sessions
  {
    |s.pushed[sid]| - |s.sessions[sid].jobs|
  }

  lemma StepTaken(s: State, step: Step, sid: Sid)
    requires Enabled(s, step) && sid in s.sessions && sid in s.pushed
    ensures var s' := Next(s, step);
            && sid in s'.sessions && sid in s'.pushed && s.pushed[sid] <= s'.pushed[sid]
            && Taken(s', sid) == Taken(s, sid) +
                 if step.TakeJobs? && s.workers[step.w].sid == sid then BatchSize(|s.sessions[sid].jobs|) else 0
  {
  }

  lemma {:induction false} TakenAfter(states: seq<State>, steps: seq<Step>, sid: Sid, total: int)
    requires IsRun(states, steps) && sid in states[0].sessions && sid in states[0].pushed
    requires total <= |states[0].pushed[sid]|
    ensures sid in states[|steps|].sessions && sid in states[|steps|].pushed
    ensures states[0].pushed[sid] <= states[|steps|].pushed[sid]
    ensures var reached := Taken(states[0], sid) + 16 * Takes(states, steps, sid);
            Taken(states[|steps|], sid) >= if reached < total then reached else total
  {
    var n := |steps|;
    if n > 0 {
      var earlier := states[..n];
      assert IsRun(earlier, steps[..n - 1]) && earlier[n - 1] == states[n - 1];
      TakenAfter(earlier, steps[..n - 1], sid, total);
      StepTaken(states[n - 1], steps[n - 1], sid);
    }
  }

  /** No worker has jobs of sid that it has taken and not run. */
  ghost predicate NoneInHand(s: State, sid: Sid) {
    forall w: nat :: Draining(s, w, sid) ==> s.workers[w].rest == []
  }

  /** Then everything taken has been run. */
  lemma TakenIsRun(states: seq<State>, steps: seq<Step>, sid: Sid)
    requires IsRun(states, steps) && Inv(states[0]) && sid in states[|steps|].sessions
    ensures var s := states[|steps|];
            && sid in s.ran && sid in s.pushed && s.ran[sid] <= s.pushed[sid] && Taken(s, sid) <= |s.pushed[sid]|
            && (NoneInHand(s, sid) ==> |s.ran[sid]| == Taken(s, sid))
  {
    RunInv(states, steps, |steps|);
    var s := states[|steps|];
    RanWithinPushed(s, sid);
    if w: nat :| Draining(s, w, sid) {
      assert s.pushed[sid] == s.ran[sid] + s.workers[w].rest + s.sessions[sid].jobs;
    }
  }

  /** What is queued is the end of what was pushed. */
  lemma QueuedIsPushed(s: State, sid: Sid, i: nat)
    requires Inv(s) && sid in s.sessions && i < |s.sessions[sid].jobs|
    ensures sid in s.pushed && sid in s.ran && 0 <= Taken(s, sid) && Taken(s, sid) + i < |s.pushed[sid]|
    ensures s.pushed[sid][Taken(s, sid) + i] == s.sessions[sid].jobs[i]
  {
    RanWithinPushed(s, sid);
    if w: nat :| Draining(s, w, sid) {
      assert s.pushed[sid] == (s.ran[sid] + s.workers[w].rest) + s.sessions[sid].jobs;
    } else {
      assert s.pushed[sid] == s.ran[sid] + s.sessions[sid].jobs;
    }
  }

  lemma EnoughBatches(i: nat, takes: nat)
    requires takes >= i / 16 + 1
    ensures 16 * takes > i
  {
  }

  /** The job at index i of a serial queue is taken in one of the session's next i / 16 + 1 batches; and when the
      last of these has been worked off, that job has run, at its own place. */
  lemma BoundedBatches(states: seq<State>, steps: seq<Step>, sid: Sid, i: nat)
    requires IsRun(states, steps) && Inv(states[0]) && sid in states[0].sessions && i < |states[0].sessions[sid].jobs|
    requires Takes(states, steps, sid) >= i / 16 + 1
    ensures var from, last := states[0], states[|steps|];
            && sid in from.pushed && sid in last.sessions && sid in last.pushed && sid in last.ran
            && 0 <= Taken(from, sid) && Taken(from, sid) + i < Taken(last, sid) <= |last.pushed[sid]|
            && last.pushed[sid][Taken(from, sid) + i] == from.sessions[sid].jobs[i]
            && (NoneInHand(last, sid) ==>
                  Taken(from, sid) + i < |last.ran[sid]|
                  && last.ran[sid][Taken(from, sid) + i] == from.sessions[sid].jobs[i])
  {
    QueuedIsPushed(states[0], sid, i);
    EnoughBatches(i, Takes(states, steps, sid));
    TakenAfter(states, steps, sid, Taken(states[0], sid) + i + 1);
    TakenIsRun(states, steps, sid);
  }

  // ---- Every right is given up -------------------------------------------------------------------

  /** The right is on its way to a batch that has not been taken yet. */
  ghost predicate Waits(s: State, p: Place) {
    match p
    case Shared(_) => true
    case AtWorker(w) => w < |s.workers| && (s.workers[w].Popped? || s.workers[w].Requeueing?)
    case InHand(t) => t in s.submitters && s.submitters[t].Carrying?
  }

  /** Such a right has something to take. */
  ghost predicate HasWork(s: State) {
    forall p, sid :: At(s, p, sid) && Waits(s, p) && sid in s.sessions ==> s.sessions[sid].jobs != []
  }

  lemma WorkStays(s: State, step: Step, p: Place, sid: Sid)
    requires RightsUnique(s) && HasWork(s) && Enabled(s, step)
    requires At(Next(s, step), p, sid) && Waits(Next(s, step), p) && sid in Next(s, step).sessions
    ensures Next(s, step).sessions[sid].jobs != []
  {
    RightsOnlyMove(s, step, p, sid);
    if step.TakeJobs? && s.workers[step.w].sid == sid {
      assert At(s, AtWorker(step.w), sid);
    }
  }

  lemma StepHasWork(s: State, step: Step)
    requires RightsUnique(s) && HasWork(s) && Enabled(s, step)
    ensures HasWork(Next(s, step))
  {
    forall p, sid | At(Next(s, step), p, sid) && Waits(Next(s, step), p) && sid in Next(s, step).sessions
      ensures Next(s, step).sessions[sid].jobs != []
    {
      WorkStays(s, step, p, sid);
    }
  }

  lemma {:induction false} RunHasWork(states: seq<State>, steps: seq<Step>, n: nat)
    requires IsRun(states, steps) && Init(states[0]) && n < |states|
    ensures Inv(states[n]) && HasWork(states[n])
  {
    if n == 0 {
      InitInv(states[0]);
    } else {
      RunHasWork(states, steps, n - 1);
      StepInv(states[n - 1], steps[n - 1]);
      StepHasWork(states[n - 1], steps[n - 1]);
    }
  }

  /** A drain gives the right up exactly if the serial queue is empty when it looks again. */
  lemma SettleGivesUpIff(s: State, w: nat)
    requires Inv(s) && Enabled(s, Settle(w))
    ensures var sid, s' := s.workers[w].sid, Next(s, Settle(w));
            && ((exists p :: At(s', p, sid)) <==> s.sessions[sid].jobs != [])
            && s'.sessions[sid].jobs == s.sessions[sid].jobs
            && (s'.sessions[sid].scheduled <==> s.sessions[sid].jobs != [])
  {
    var sid, s' := s.workers[w].sid, Next(s, Settle(w));
    assert At(s, AtWorker(w), sid);
    StepInv(s, Settle(w));
    if s.sessions[sid].jobs != [] {
      assert At(s', AtWorker(w), sid);
    } else if p :| At(s', p, sid) {
      RightsOnlyMove(s, Settle(w), p, sid);
    }
  }

  /** The moves a right still has ahead of it where it is, apart from those for the jobs that are queued. */
  function Ahead(s: State, p: Place): nat {
    match p
    case Shared(_) => 1
    case AtWorker(w) =>
      if w >= |s.workers| then 0
      else (match s.workers[w]
            case Idle => 0
            case Popped(_) => 0
            case Running(_, rest) => |rest| + 3
            case Requeueing(_) => 2
            case Refused(_) => 1)
    case InHand(t) => if t in s.submitters && s.submitters[t].Carrying? then 2 else 1
  }

  /** At most five moves per queued job, one of them to run it. */
  ghost function Left(s: State, sid: Sid): nat {
    if sid in s.sessions && exists p :: At(s, p, sid) then
      var p :| At(s, p, sid);
      Ahead(s, p) + 5 * |s.sessions[sid].jobs|
    else 0
  }

  lemma LeftAt(s: State, p: Place, sid: Sid)
    requires RightsUnique(s) && At(s, p, sid) && sid in s.sessions
    ensures Left(s, sid) == Ahead(s, p) + 5 * |s.sessions[sid].jobs|
  {
  }

  lemma NothingLeftIff(s: State, sid: Sid)
    requires Inv(s) && HasWork(s) && sid in s.sessions
    ensures Left(s, sid) == 0 <==> forall p :: !At(s, p, sid)
  {
    if p :| At(s, p, sid) {
      LeftAt(s, p, sid);
      assert Waits(s, p) || Ahead(s, p) > 0;
    }
  }

  /** A step that some thread takes with a right it holds, or to pick one up. */
  predicate IsMove(step: Step) {
    !step.Submit? && !step.Stop?
  }

  function MovedPlace(step: Step): Place
    requires IsMove(step)
  {
    match step
    case Publish(t) => InHand(t)
    case Withdraw(t) => InHand(t)
    case Pick(_) => Shared(0)
    case TakeJobs(w) => AtWorker(w)
    case RunJob(w) => AtWorker(w)
    case Settle(w) => AtWorker(w)
    case Requeue(w) => AtWorker(w)
    case Abandon(w) => AtWorker(w)
  }

  ghost function Mover(s: State, step: Step): (sid: Sid)
    requires Enabled(s, step) && IsMove(step)
    ensures At(s, MovedPlace(step), sid)
  {
    match MovedPlace(step)
    case Shared(_) => s.shared[0]
    case AtWorker(w) => s.workers[w].sid
    case InHand(t) => s.submitters[t].sid
  }

  lemma MoveCosts(s: State, step: Step, sid: Sid)
    requires Inv(s) && HasWork(s) && Enabled(s, step) && IsMove(step) && sid == Mover(s, step) && sid in s.sessions
    ensures Left(Next(s, step), sid) < Left(s, sid)
  {
    var s', here := Next(s, step), MovedPlace(step);
    StepInv(s, step);
    LeftAt(s, here, sid);
    NothingLeftIff(s, sid);
    if p :| At(s', p, sid) {
      RightsOnlyMove(s, step, p, sid);
      assert Before(s, step, p) == here;
      LeftAt(s', p, sid);
      CostAfter(s, step, p, sid);
    }
  }

  /** Where a right goes it has fewer moves ahead of it, counting five for each job it leaves queued. */
  lemma CostAfter(s: State, step: Step, p: Place, sid: Sid)
    requires Enabled(s, step) && IsMove(step) && sid == Mover(s, step) && sid in s.sessions
    requires At(Next(s, step), p, sid) && Before(s, step, p) == MovedPlace(step)
    requires Waits(s, MovedPlace(step)) ==> s.sessions[sid].jobs != []
    ensures sid in Next(s, step).sessions
    ensures Ahead(Next(s, step), p) + 5 * |Next(s, step).sessions[sid].jobs|
              < Ahead(s, MovedPlace(step)) + 5 * |s.sessions[sid].jobs|
  {
  }

  /** A step with somebody else's right leaves this one where it is, or one place further on in the shared queue. */
  lemma OtherStays(s: State, step: Step, p: Place, sid: Sid)
    requires RightsUnique(s) && Enabled(s, step) && sid in s.sessions && At(s, p, sid)
    requires (step.Submit? ==> step.sid != sid) && (IsMove(step) ==> sid != Mover(s, step))
    ensures var s', p' := Next(s, step), After(s, step, p);
            At(s', p', sid) && Ahead(s', p') == Ahead(s, p) && sid in s'.sessions && s'.sessions[sid] == s.sessions[sid]
  {
  }

  lemma NoneAppears(s: State, step: Step, p: Place, sid: Sid)
    requires Enabled(s, step) && (forall q :: !At(s, q, sid)) && (step.Submit? ==> step.sid != sid)
    ensures !At(Next(s, step), p, sid)
  {
    if At(Next(s, step), p, sid) {
      RightsOnlyMove(s, step, p, sid);
    }
  }

  lemma OthersCostNothing(s: State, step: Step, sid: Sid)
    requires Inv(s) && Enabled(s, step) && sid in s.sessions
    requires (step.Submit? ==> step.sid != sid) && (IsMove(step) ==> sid != Mover(s, step))
    ensures Left(Next(s, step), sid) == Left(s, sid)
  {
    StepRightsUnique(s, step);
    if p :| At(s, p, sid) {
      OtherStays(s, step, p, sid);
      LeftAt(s, p, sid);
      LeftAt(Next(s, step), After(s, step, p), sid);
    } else {
      forall p
        ensures !At(Next(s, step), p, sid)
      {
        NoneAppears(s, step, p, sid);
      }
    }
  }

  function Sum(a: seq<nat>, n: nat): nat
    requires n <= |a|
  {
    if n == 0 then 0 else Sum(a, n - 1) + a[n - 1]
  }

  /** One of the summands gets smaller, and none larger. */
  lemma {:induction false} SumShrinks(a: seq<nat>, b: seq<nat>, n: nat, hit: nat)
    requires n <= |a| == |b|
    requires forall k :: 0 <= k < n ==> b[k] + (if k == hit then 1 else 0) <= a[k]
    ensures Sum(b, n) + (if hit < n then 1 else 0) <= Sum(a, n)
  {
    if n > 0 {
      SumShrinks(a, b, n - 1, hit);
    }
  }

  lemma {:induction false} SummandWithin(a: seq<nat>, n: nat, k: nat)
    requires k < n <= |a|
    ensures a[k] <= Sum(a, n)
  {
    if k < n - 1 {
      SummandWithin(a, n - 1, k);
    }
  }

  ghost function LeftOf(s: State, order: seq<Sid>): (lefts: seq<nat>)
    ensures |lefts| == |order|
  {
    seq(|order|, k requires 0 <= k < |order| => Left(s, order[k]))
  }

  /** All these sessions together. */
  ghost function TotalLeft(s: State, order: seq<Sid>): nat {
    Sum(LeftOf(s, order), |order|)
  }

  ghost predicate Lists(order: seq<Sid>, s: State) {
    Distinct(order) && forall sid :: sid in s.sessions <==> sid in order
  }

  /** Which of them the step moves; past the end if it moves none. */
  lemma Hit(s: State, step: Step, order: seq<Sid>) returns (hit: nat)
    requires Inv(s) && Enabled(s, step) && Lists(order, s)
    ensures if IsMove(step) then hit < |order| && order[hit] == Mover(s, step) else hit == |order|
  {
    if IsMove(step) {
      assert At(s, MovedPlace(step), Mover(s, step));
      hit :| 0 <= hit < |order| && order[hit] == Mover(s, step);
    } else {
      hit := |order|;
    }
  }

  lemma StepCosts(s: State, step: Step, sid: Sid)
    requires Inv(s) && HasWork(s) && Enabled(s, step) && !step.Submit? && sid in s.sessions
    ensures Left(Next(s, step), sid) + (if IsMove(step) && Mover(s, step) == sid then 1 else 0) <= Left(s, sid)
  {
    if IsMove(step) && Mover(s, step) == sid {
      MoveCosts(s, step, sid);
    } else {
      OthersCostNothing(s, step, sid);
    }
  }

  lemma MoveCostsOne(s: State, step: Step, order: seq<Sid>)
    requires Inv(s) && HasWork(s) && Enabled(s, step) && !step.Submit? && Lists(order, s)
    ensures TotalLeft(Next(s, step), order) + (if IsMove(step) then 1 else 0) <= TotalLeft(s, order)
  {
    var hit := Hit(s, step, order);
    var a, b := LeftOf(s, order), LeftOf(Next(s, step), order);
    forall k | 0 <= k < |order|
      ensures b[k] + (if k == hit then 1 else 0) <= a[k]
    {
      assert order[k] in order;
      StepCosts(s, step, order[k]);
    }
    SumShrinks(a, b, |order|, hit);
  }

  function MovesMade(steps: seq<Step>, n: nat): nat
    requires n <= |steps|
  {
    if n == 0 then 0 else MovesMade(steps, n - 1) + if IsMove(steps[n - 1]) then 1 else 0
  }

  lemma {:induction false} MovesAreBounded(states: seq<State>, steps: seq<Step>, order: seq<Sid>, n: nat)
    requires IsRun(states, steps) && Inv(states[0]) && HasWork(states[0]) && Lists(order, states[0]) && n <= |steps|
    requires forall i :: 0 <= i < n ==> !steps[i].Submit?
    ensures Inv(states[n]) && HasWork(states[n]) && Lists(order, states[n])
    ensures MovesMade(steps, n) + TotalLeft(states[n], order) <= TotalLeft(states[0], order)
  {
    if n > 0 {
      MovesAreBounded(states, steps, order, n - 1);
      var s, step := states[n - 1], steps[n - 1];
      StepInv(s, step);
      StepHasWork(s, step);
      NewSessionsAreOld(s, step);
      MoveCostsOne(s, step, order);
    }
  }

  lemma NobodyHasOne(s: State, order: seq<Sid>, sid: Sid)
    requires Inv(s) && HasWork(s) && Lists(order, s) && TotalLeft(s, order) == 0 && sid in s.sessions
    ensures !s.sessions[sid].scheduled && forall p :: !At(s, p, sid)
  {
    var k :| 0 <= k < |order| && order[k] == sid;
    SummandWithin(LeftOf(s, order), |order|, k);
    NothingLeftIff(s, sid);
  }

  /** After the last submit the rights make only so many moves, five for each job queued and at most twenty more for
      each right; then nobody has one, and every flag is down. */
  lemma EveryRightIsGivenUp(states: seq<State>, steps: seq<Step>, order: seq<Sid>, n: nat)
    requires IsRun(states, steps) && Inv(states[0]) && HasWork(states[0]) && Lists(order, states[0]) && n <= |steps|
    requires forall i :: 0 <= i < n ==> !steps[i].Submit?
    ensures MovesMade(steps, n) <= TotalLeft(states[0], order)
    ensures MovesMade(steps, n) == TotalLeft(states[0], order) ==>
              forall sid :: sid in states[n].sessions ==>
                !states[n].sessions[sid].scheduled && forall p :: !At(states[n], p, sid)
  {
    MovesAreBounded(states, steps, order, n);
    if MovesMade(steps, n) == TotalLeft(states[0], order) {
      forall sid | sid in states[n].sessions
        ensures !states[n].sessions[sid].scheduled && forall p :: !At(states[n], p, sid)
      {
        NobodyHasOne(states[n], order, sid);
      }
    }
  }

  lemma LeftIsSmall(s: State, sid: Sid)
    requires Inv(s) && sid in s.sessions
    ensures Left(s, sid) <= 5 * |s.sessions[sid].jobs| + BATCH + 3
  {
    if p :| At(s, p, sid) {
      LeftAt(s, p, sid);
    }
  }

  /** Nor can they get stuck before: while there is a right, somebody can move one. */
  lemma SomebodyCanMove(s: State, p: Place, sid: Sid) returns (step: Step)
    requires Inv(s) && s.workers != [] && At(s, p, sid)
    ensures IsMove(step) && Enabled(s, step)
  {
    match p
    case InHand(t) => step := if s.submitters[t].Carrying? then Publish(t) else Withdraw(t);
    case AtWorker(w) => step := NextOf(s, w);
    case Shared(_) =>
      if s.workers[0].Idle? {
        step := Pick(0);
      } else {
        assert At(s, AtWorker(0), s.workers[0].sid);
        step := NextOf(s, 0);
      }
  }

  lemma NextOf(s: State, w: nat) returns (step: Step)
    requires Inv(s) && w < |s.workers| && !s.workers[w].Idle?
    ensures IsMove(step) && Enabled(s, step)
  {
    assert At(s, AtWorker(w), s.workers[w].sid);
    match s.workers[w]
    case Popped(_) => step := TakeJobs(w);
    case Running(_, rest) => step := if rest == [] then Settle(w) else RunJob(w);
    case Requeueing(_) => step := Requeue(w);
    case Refused(_) => step := Abandon(w);
  }
}
