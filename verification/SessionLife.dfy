// Session lifetime: io_count, closing, the gone-job and the roster hold.
//
// io_count counts everybody who may still touch a session: the kernel, an I/O worker handling a
// completion, a queued frame job, the execution right, the roster entry, the gone-job, a lookup.
// A session goes away when it is closing and the count is zero, and whoever brought it there tries.
// A lookup reads closing and raises the count as two steps: it may be closed, and lose its last owner, in between,
// but not be removed, because removing needs the mutex the lookup holds.
// Every step below is one atomic operation or one lock-protected block of the source.
// The runs are those before WorkerPool::stop, so no submit is refused.

module SessionLife {
  import opened Wrappers

  type Pid = nat                       // player id; 0 means "has not entered"

  datatype Job = EnterJob(pid: Pid) | FrameJob | GoneJob

  /** Where the job that holds the execution right is in its body. */
  datatype Running =
    | NoJob
    | EnterBegun(pid: Pid)      // nothing done yet
    | EnterInserted(pid: Pid)   // in the roster
    | EnterNamed                // player_id set
    | EnterHeld                 // the roster's hold taken
    | EnterUndo                 // closing was seen
    | EnterUndone               // out of the roster again, its hold not returned yet
    | FrameBody                 // an ordinary handler, or the rest of an enter
    | GoneBegun
    | GoneLeft                  // out of the roster, its hold not returned yet
    | GoneTail

  /** Which thread won closing.exchange. */
  datatype By = Acceptor | Handler | Runner | Bystander

  /** Marked: closing is set. Holding: the gone-job's hold is taken. Posted: the gone-job is submitted.
      Cleared: the gone-job has tried to leave the roster. */
  datatype Closing = Open | Marked(who: By) | Holding(who: By) | Posted | Cleared

  /** The chain of receives. Parsing, FrameInHand and Posting are the one worker that handles the last one. */
  datatype Recv = InKernel | Parsing | FrameInHand | Posting | NoRecv

  datatype Right = NoRight | Claimed | Live

  datatype Session = Session(
    ioCount: int,
    closing: Closing,
    inMap: bool,
    enders: nat,              // threads on their way into try_remove_session
    looking: bool,            // a lookup holds the table's mutex and has read closing as false
    recv: Recv,
    sends: nat,               // sends in the kernel
    bystanders: nat,          // threads with a hold of their own that are not in a call of interest
    postingBystanders: nat,   // of those, the ones inside post_send
    runnerPosting: bool,      // the running job is inside post_send
    queue: seq<Job>,
    right: Right,
    endingRights: nat,        // rights given up, their hold not returned yet
    running: Running,
    playerId: Pid,
    entry: Option<Pid>,       // under which id the roster has this session
    taken: nat,               // roster holds taken
    given: nat)               // roster holds returned

  /** Accepted, first receive posted. */
  function Accepted(): Session {
    Session(1, Open, true, 0, false, InKernel, 0, 0, 0, false, [], NoRight, 0, NoJob, 0, None, 0, 0)
  }

  /** Accepted, but the port association or the first receive failed: the accept thread closes it. */
  function Stillborn(): Session {
    Accepted().(ioCount := 0, closing := Marked(Acceptor), recv := NoRecv)
  }

  /** The number of those who may still touch the session. */
  function Holds(s: Session): int {
    RecvHolds(s.recv) + s.sends + s.bystanders + 2 * s.postingBystanders + (if s.runnerPosting then 1 else 0)
    + |s.queue| + (if s.running.NoJob? then 0 else 1) + (if s.right.Live? then 1 else 0) + s.endingRights
    + s.taken - s.given + CloserHolds(s.closing)
  }

  function RecvHolds(r: Recv): int {
    match r case InKernel => 1 case Parsing => 1 case FrameInHand => 2 case Posting => 2 case NoRecv => 0
  }

  /** A bystander is counted here while it closes; the others are counted where they are. */
  function CloserHolds(c: Closing): int {
    match c
    case Marked(who) => if who == Bystander then 1 else 0
    case Holding(who) => if who == Bystander then 2 else 1
    case _ => 0
  }

  predicate IsClosing(s: Session) {
    !s.closing.Open?
  }

  /** The thread is not inside close_session. */
  predicate Free(s: Session, who: By) {
    !((s.closing.Marked? || s.closing.Holding?) && s.closing.who == who)
  }

  predicate RunnerFree(s: Session) {
    !s.running.NoJob? && !s.runnerPosting && Free(s, Runner)
  }

  /** release_io: whoever brings the count to zero goes on to try_remove_session. */
  function Drop(s: Session): Session {
    s.(ioCount := s.ioCount - 1, enders := s.enders + if s.ioCount == 1 then 1 else 0)
  }

  function Submit(s: Session, job: Job): Session {
    s.(queue := s.queue + [job], right := if s.right.NoRight? then Claimed else s.right)
  }

  function Begin(job: Job): Running {
    match job case EnterJob(pid) => EnterBegun(pid) case FrameJob => FrameBody case GoneJob => GoneBegun
  }

  /** Steps of the threads around the session: I/O workers, closers, lookups, submitters. */
  datatype IoStep =
    // the worker on the receive chain
    | RecvCompletes | TakeFrame | PushFrame(job: Job) | StartRepost | RepostIssued | RepostFails | HandlerGivesUp
    // sends
    | SendCompletes | StartSend(who: By) | SendIssued(who: By) | SendFails(who: By)
    // closing
    | Close(who: By) | CloseHold | CloseSubmit
    // holds taken and returned; a lookup reads closing first and raises the count later
    | LookAt | LookAway | AcquireFromMap | AcquireFromRoster | AcquireRight | ReleaseRight | Release | TryRemove

  /** Steps of the execution right and of the job it runs. */
  datatype JobStep =
    | StartJob | EndJob | EndRight
    // handle_enter
    | EnterRejects | EnterInserts | EnterNames | EnterHolds | EnterChecks | EnterUndoes | EnterReleases
    // on_session_gone
    | GoneLeaves | GoneReleases

  datatype Step = Io(io: IoStep) | Job(job: JobStep)

  predicate IoEnabled(s: Session, step: IoStep) {
    match step
    case RecvCompletes => s.recv.InKernel?
    case TakeFrame => s.recv.Parsing? && Free(s, Handler)
    case PushFrame(job) => s.recv.FrameInHand? && !job.GoneJob?
    case StartRepost => s.recv.Parsing? && Free(s, Handler)
    case RepostIssued => s.recv.Posting?
    case RepostFails => s.recv.Posting?
    case HandlerGivesUp => s.recv.Parsing? && Free(s, Handler) && IsClosing(s)
    case SendCompletes => s.sends > 0
    case StartSend(who) => if who == Runner then RunnerFree(s) else who == Bystander && s.bystanders > 0
    case SendIssued(who) => if who == Runner then s.runnerPosting else who == Bystander && s.postingBystanders > 0
    case SendFails(who) => if who == Runner then s.runnerPosting else who == Bystander && s.postingBystanders > 0
    case Close(who) =>
      !IsClosing(s) && (match who
        case Acceptor => false
        case Handler => s.recv.Parsing?
        case Runner => RunnerFree(s)
        case Bystander => s.bystanders > 0)
    case CloseHold => s.closing.Marked?
    case CloseSubmit => s.closing.Holding?
    case LookAt => s.inMap && !IsClosing(s) && !s.looking
    case LookAway => s.looking
    case AcquireFromMap => s.looking
    case AcquireFromRoster => s.entry.Some?
    case AcquireRight => s.right.Claimed?
    case ReleaseRight => s.endingRights > 0
    case Release => s.bystanders > 0
    case TryRemove => s.enders > 0 && !s.looking      // it needs the mutex
  }

  function IoNext(s: Session, step: IoStep): Session
    requires IoEnabled(s, step)
  {
    match step
    case RecvCompletes => s.(recv := Parsing)
    case TakeFrame => s.(recv := FrameInHand, ioCount := s.ioCount + 1)
    case PushFrame(job) => Submit(s, job).(recv := Parsing)
    case StartRepost => s.(recv := Posting, ioCount := s.ioCount + 1)
    case RepostIssued => s.(recv := InKernel, bystanders := s.bystanders + 1)
    case RepostFails => s.(recv := Parsing, ioCount := s.ioCount - 1)
    case HandlerGivesUp => s.(recv := NoRecv, bystanders := s.bystanders + 1)
    case SendCompletes => s.(sends := s.sends - 1, bystanders := s.bystanders + 1)
    case StartSend(who) =>
      if who == Runner then s.(runnerPosting := true, ioCount := s.ioCount + 1)
      else s.(bystanders := s.bystanders - 1, postingBystanders := s.postingBystanders + 1, ioCount := s.ioCount + 1)
    case SendIssued(who) =>
      if who == Runner then s.(runnerPosting := false, sends := s.sends + 1)
      else s.(bystanders := s.bystanders + 1, postingBystanders := s.postingBystanders - 1, sends := s.sends + 1)
    case SendFails(who) =>
      if who == Runner then s.(runnerPosting := false, ioCount := s.ioCount - 1)
      else s.(bystanders := s.bystanders + 1, postingBystanders := s.postingBystanders - 1, ioCount := s.ioCount - 1)
    case Close(who) =>
      s.(closing := Marked(who), bystanders := s.bystanders - if who == Bystander then 1 else 0)
    case CloseHold => s.(closing := Holding(s.closing.who), ioCount := s.ioCount + 1)
    case CloseSubmit =>
      Submit(s, GoneJob).(closing := Posted,
        bystanders := s.bystanders + (if s.closing.who == Bystander then 1 else 0),
        enders := s.enders + (if s.closing.who == Acceptor then 1 else 0))
    case LookAt => s.(looking := true)
    case LookAway => s.(looking := false)
    case AcquireFromMap => s.(looking := false, ioCount := s.ioCount + 1, bystanders := s.bystanders + 1)
    case AcquireFromRoster => s.(ioCount := s.ioCount + 1, bystanders := s.bystanders + 1)
    case AcquireRight => s.(right := Live, ioCount := s.ioCount + 1)
    case ReleaseRight => Drop(s.(endingRights := s.endingRights - 1))
    case Release => Drop(s.(bystanders := s.bystanders - 1))
    case TryRemove => s.(enders := s.enders - 1, inMap := s.inMap && !(IsClosing(s) && s.ioCount == 0))
  }

  predicate JobEnabled(s: Session, step: JobStep) {
    match step
    case StartJob => s.right.Live? && s.running.NoJob? && s.queue != []
    case EndRight => s.right.Live? && s.running.NoJob? && s.queue == []
    case EndJob => RunnerFree(s) && (s.running.FrameBody? || s.running.GoneTail?)
    case EnterRejects => RunnerFree(s) && s.running.EnterBegun?
    case EnterInserts => RunnerFree(s) && s.running.EnterBegun? && s.running.pid != 0 && s.playerId == 0
    case EnterNames => RunnerFree(s) && s.running.EnterInserted?
    case EnterHolds => RunnerFree(s) && s.running.EnterNamed?
    case EnterChecks => RunnerFree(s) && s.running.EnterHeld?
    case EnterUndoes => RunnerFree(s) && s.running.EnterUndo?
    case EnterReleases => RunnerFree(s) && s.running.EnterUndone?
    case GoneLeaves => RunnerFree(s) && s.running.GoneBegun?
    case GoneReleases => RunnerFree(s) && s.running.GoneLeft?
  }

  /** leave() takes the entry out iff the roster has it under that player id for that session. */
  function JobNext(s: Session, step: JobStep): Session
    requires JobEnabled(s, step)
  {
    match step
    case StartJob => s.(queue := s.queue[1..], running := Begin(s.queue[0]))
    case EndRight => s.(right := NoRight, endingRights := s.endingRights + 1)
    case EndJob => Drop(s.(running := NoJob))
    case EnterRejects => s.(running := FrameBody)
    case EnterInserts => s.(running := EnterInserted(s.running.pid), entry := Some(s.running.pid))
    case EnterNames => s.(running := EnterNamed, playerId := s.running.pid)
    case EnterHolds => s.(running := EnterHeld, ioCount := s.ioCount + 1, taken := s.taken + 1)
    case EnterChecks => s.(running := if IsClosing(s) then EnterUndo else FrameBody)
    case EnterUndoes =>
      if s.entry == Some(s.playerId) then s.(running := EnterUndone, entry := None) else s.(running := FrameBody)
    case EnterReleases => Drop(s.(running := FrameBody, given := s.given + 1))
    case GoneLeaves =>
      if s.playerId != 0 && s.entry == Some(s.playerId)
      then s.(running := GoneLeft, entry := None, closing := Cleared)
      else s.(running := GoneTail, closing := Cleared)
    case GoneReleases => Drop(s.(running := GoneTail, given := s.given + 1))
  }

  predicate Enabled(s: Session, step: Step) {
    match step case Io(io) => IoEnabled(s, io) case Job(job) => JobEnabled(s, job)
  }

  function Next(s: Session, step: Step): Session
    requires Enabled(s, step)
  {
    match step case Io(io) => IoNext(s, io) case Job(job) => JobNext(s, job)
  }

  // ---- The invariant -----------------------------------------------------------------------------

  /** io_count is exactly the number of owners. */
  ghost predicate Counted(s: Session) {
    s.ioCount == Holds(s)
  }

  /** Whoever is inside a call still has the hold that call relies on. */
  ghost predicate CallersHold(s: Session) {
    && (!Free(s, Handler) ==> s.recv.Parsing?)
    && (!Free(s, Runner) ==> !s.running.NoJob?)
    && (s.runnerPosting ==> !s.running.NoJob?)
    && (s.closing.Marked? && s.closing.who == Acceptor ==> s == Stillborn())
  }

  /** Jobs run under the right only, and waiting jobs have one. */
  ghost predicate RightHeld(s: Session) {
    && (s.right.Claimed? ==> s.queue != [] && s.running.NoJob?)
    && (!s.running.NoJob? ==> s.right.Live?)
    && (s.right.NoRight? ==> s.queue == [])
  }

  /** While a session is open its receive chain is alive. */
  ghost predicate Receiving(s: Session) {
    !IsClosing(s) ==> !s.recv.NoRecv?
  }

  function GoneJobs(queue: seq<Job>): nat {
    multiset(queue)[GoneJob]
  }

  /** The gone-job is submitted once. */
  ghost predicate OneGone(s: Session) {
    && GoneJobs(s.queue) + (if s.running.GoneBegun? then 1 else 0) == (if s.closing.Posted? then 1 else 0)
    && (s.running.GoneLeft? || s.running.GoneTail? ==> s.closing.Cleared?)
  }

  predicate Entering(r: Running) {
    r.EnterInserted? || r.EnterNamed? || r.EnterHeld? || r.EnterUndo?
  }

  predicate IdentityOf(s: Session, pid: Pid) {
    s.playerId == pid || s.running == EnterInserted(pid)
  }

  /** The roster has a session under its own identity. */
  ghost predicate Identified(s: Session) {
    && (s.entry.Some? ==> s.entry.value != 0 && IdentityOf(s, s.entry.value))
    && (s.running.EnterInserted? ==> s.entry == Some(s.running.pid) && s.playerId == 0)
    && (s.running.EnterNamed? || s.running.EnterHeld? || s.running.EnterUndo? ==> s.entry == Some(s.playerId))
    && (s.running.EnterUndone? || s.running.GoneLeft? ==> s.entry.None?)
  }

  /** A roster entry holds its session, from shortly after it is made until shortly after it is gone. */
  ghost predicate RosterHolds(s: Session) {
    && s.taken == (if s.playerId == 0 || s.running.EnterNamed? then 0 else 1)
    && s.taken - s.given == (if s.running.EnterUndone? || s.running.GoneLeft?
                                || (s.entry.Some? && !s.running.EnterInserted? && !s.running.EnterNamed?)
                             then 1 else 0)
    && (s.running.EnterUndone? || s.running.GoneLeft? || s.running.EnterUndo? ==> IsClosing(s))
  }

  /** Once the gone-job has passed, only an Enter that is going to see closing can own an entry. */
  ghost predicate ClearedOut(s: Session) {
    s.closing.Cleared? && !Entering(s.running) ==> s.entry.None?
  }

  /** Removal waits for the count, and a session that may go has somebody coming to remove it. */
  ghost predicate Removable(s: Session) {
    && (!s.inMap ==> s.ioCount == 0 && IsClosing(s) && !s.looking)
    && (s.inMap && IsClosing(s) && s.ioCount == 0 ==> s.enders > 0 || s == Stillborn())
  }

  ghost predicate Inv(s: Session) {
    && Counted(s) && CallersHold(s) && RightHeld(s) && Receiving(s) && OneGone(s)
    && Identified(s) && RosterHolds(s) && ClearedOut(s) && Removable(s)
  }

  lemma AcceptedInv()
    ensures Inv(Accepted())
  {
    assert GoneJobs([]) == 0;
    assert Holds(Accepted()) == 1;
  }

  lemma StillbornInv()
    ensures Inv(Stillborn())
  {
    var s := Stillborn();
    assert GoneJobs([]) == 0 && Counted(s);
    assert CallersHold(s) && RightHeld(s) && Receiving(s);
  }

  lemma SubmitCounted(s: Session, step: IoStep)
    requires IoEnabled(s, step) && Counted(s) && (step.PushFrame? || step.CloseSubmit?)
    ensures Counted(IoNext(s, step))
  {
  }

  predicate Sends(step: IoStep) {
    step.SendCompletes? || step.StartSend? || step.SendIssued? || step.SendFails?
  }

  lemma SendCounted(s: Session, step: IoStep)
    requires IoEnabled(s, step) && Counted(s) && Sends(step)
    ensures Counted(IoNext(s, step))
  {
  }

  lemma OthersCounted(s: Session, step: IoStep)
    requires IoEnabled(s, step) && Counted(s) && !step.PushFrame? && !step.CloseSubmit? && !Sends(step)
    ensures Counted(IoNext(s, step))
  {
  }

  lemma IoCounted(s: Session, step: IoStep)
    requires IoEnabled(s, step) && Counted(s)
    ensures Counted(IoNext(s, step))
  {
    if step.PushFrame? || step.CloseSubmit? {
      SubmitCounted(s, step);
    } else if Sends(step) {
      SendCounted(s, step);
    } else {
      OthersCounted(s, step);
    }
  }

  lemma JobCounted(s: Session, step: JobStep)
    requires JobEnabled(s, step) && Counted(s) && OneGone(s)
    ensures Counted(JobNext(s, step))
  {
  }

  /** What threads outside the execution right leave alone. */
  lemma IoFrame(s: Session, step: IoStep)
    requires IoEnabled(s, step)
    ensures var t := IoNext(s, step);
            t.running == s.running && t.entry == s.entry && t.playerId == s.playerId
            && t.taken == s.taken && t.given == s.given && (IsClosing(s) ==> IsClosing(t))
            && (t.closing.Cleared? <==> s.closing.Cleared?)
  {
  }

  lemma IoCallersHold(s: Session, step: IoStep)
    requires IoEnabled(s, step) && CallersHold(s)
    ensures CallersHold(IoNext(s, step))
  {
  }

  lemma JobCallersHold(s: Session, step: JobStep)
    requires JobEnabled(s, step) && CallersHold(s)
    ensures CallersHold(JobNext(s, step))
  {
  }

  lemma IoRightHeld(s: Session, step: IoStep)
    requires IoEnabled(s, step) && RightHeld(s)
    ensures RightHeld(IoNext(s, step))
  {
  }

  lemma JobRightHeld(s: Session, step: JobStep)
    requires JobEnabled(s, step) && RightHeld(s)
    ensures RightHeld(JobNext(s, step))
  {
  }

  lemma IoReceiving(s: Session, step: IoStep)
    requires IoEnabled(s, step) && Receiving(s)
    ensures Receiving(IoNext(s, step))
  {
  }

  lemma JobReceiving(s: Session, step: JobStep)
    requires JobEnabled(s, step) && Receiving(s)
    ensures Receiving(JobNext(s, step))
  {
  }

  lemma SubmitGone(queue: seq<Job>, job: Job)
    ensures GoneJobs(queue + [job]) == GoneJobs(queue) + if job.GoneJob? then 1 else 0
  {
  }

  lemma TakeGone(queue: seq<Job>)
    requires queue != []
    ensures GoneJobs(queue) == GoneJobs(queue[1..]) + if queue[0].GoneJob? then 1 else 0
  {
    assert queue == [queue[0]] + queue[1..];
  }

  lemma IoOneGone(s: Session, step: IoStep)
    requires IoEnabled(s, step) && OneGone(s)
    ensures OneGone(IoNext(s, step))
  {
    if step.PushFrame? {
      SubmitGone(s.queue, step.job);
    } else if step.CloseSubmit? {
      SubmitGone(s.queue, GoneJob);
    }
  }

  lemma JobOneGone(s: Session, step: JobStep)
    requires JobEnabled(s, step) && OneGone(s)
    ensures OneGone(JobNext(s, step))
  {
    if step.StartJob? {
      TakeGone(s.queue);
    }
  }

  lemma JobIdentified(s: Session, step: JobStep)
    requires JobEnabled(s, step) && Identified(s)
    ensures Identified(JobNext(s, step))
  {
  }

  lemma JobRosterHolds(s: Session, step: JobStep)
    requires JobEnabled(s, step) && Identified(s) && RosterHolds(s) && OneGone(s)
    ensures RosterHolds(JobNext(s, step))
  {
  }

  lemma JobClearedOut(s: Session, step: JobStep)
    requires JobEnabled(s, step) && ClearedOut(s) && Identified(s) && OneGone(s)
    ensures ClearedOut(JobNext(s, step))
  {
  }

  /** Every step but try_remove_session is taken by somebody who is counted, or by a lookup that keeps others from
      removing the session. */
  lemma ActorsAreCounted(s: Session, step: IoStep)
    requires Inv(s) && IoEnabled(s, step) && !step.TryRemove?
    ensures s.ioCount > 0 || s == Stillborn() || (s.inMap && (!IsClosing(s) || s.looking))
  {
  }

  lemma RunnerIsCounted(s: Session, step: JobStep)
    requires Inv(s) && JobEnabled(s, step)
    ensures s.ioCount > 0
  {
  }

  lemma IoRemovable(s: Session, step: IoStep)
    requires Inv(s) && IoEnabled(s, step)
    ensures Removable(IoNext(s, step))
  {
    if !step.TryRemove? {
      ActorsAreCounted(s, step);
    }
  }

  lemma JobRemovable(s: Session, step: JobStep)
    requires Inv(s) && JobEnabled(s, step)
    ensures Removable(JobNext(s, step))
  {
    RunnerIsCounted(s, step);
  }

  lemma IoInv(s: Session, step: IoStep)
    requires Inv(s) && IoEnabled(s, step)
    ensures Inv(IoNext(s, step))
  {
    IoCounted(s, step);
    IoFrame(s, step);
    IoCallersHold(s, step);
    IoRightHeld(s, step);
    IoReceiving(s, step);
    IoOneGone(s, step);
    IoRemovable(s, step);
  }

  lemma JobInv(s: Session, step: JobStep)
    requires Inv(s) && JobEnabled(s, step)
    ensures Inv(JobNext(s, step))
  {
    JobCounted(s, step);
    JobCallersHold(s, step);
    JobRightHeld(s, step);
    JobReceiving(s, step);
    JobOneGone(s, step);
    JobIdentified(s, step);
    JobRosterHolds(s, step);
    JobClearedOut(s, step);
    JobRemovable(s, step);
  }

  lemma StepInv(s: Session, step: Step)
    requires Inv(s) && Enabled(s, step)
    ensures Inv(Next(s, step))
  {
    match step
    case Io(io) => IoInv(s, io);
    case Job(job) => JobInv(s, job);
  }

  predicate Inserts(step: Step) {
    step == Job(EnterInserts)
  }

  /** The steps that call leave(). */
  predicate Leaves(s: Session, step: Step) {
    step == Job(EnterUndoes) || (step == Job(GoneLeaves) && s.playerId != 0)
  }

  /** How the roster entry moves: in by enter, out by leave, and nothing else touches it. */
  lemma EntryNext(s: Session, step: Step)
    requires Inv(s) && Enabled(s, step)
    ensures Inserts(step) ==> s.entry.None? && Next(s, step).entry == Some(s.running.pid)
    ensures Leaves(s, step) && s.entry == Some(s.playerId) ==> Next(s, step).entry.None?
    ensures !Inserts(step) && !(Leaves(s, step) && s.entry == Some(s.playerId)) ==> Next(s, step).entry == s.entry
  {
    if step.Io? {
      IoFrame(s, step.io);
    }
  }

  // ---- What the invariant means for one session ---------------------------------------------------

  predicate IsTryRemove(step: Step) {
    step.Io? && step.io.TryRemove?
  }

  /** Nobody but a late try_remove_session, which does not find it, has anything to do with a removed session. */
  lemma RemovedIsUntouched(s: Session, step: Step)
    requires Inv(s) && !s.inMap && Enabled(s, step)
    ensures IsTryRemove(step) && Next(s, step) == s.(enders := s.enders - 1)
  {
    match step
    case Io(io) => if !io.TryRemove? { ActorsAreCounted(s, io); }
    case Job(job) => RunnerIsCounted(s, job);
  }

  /** A session is removed only after its gone-job has run, with its queue empty and everything returned. */
  lemma RemovedIsComplete(s: Session)
    requires Inv(s) && !s.inMap
    ensures s.closing.Cleared? && s.queue == [] && s.running.NoJob? && s.entry.None? && Holds(s) == 0
    ensures s.taken == s.given <= 1
  {
  }

  /** A closing session nobody holds is removed, or somebody is about to remove it. */
  lemma NoLeak(s: Session)
    requires Inv(s) && IsClosing(s) && s.ioCount == 0 && s.enders == 0 && !s.closing.Marked?
    ensures !s.inMap
  {
  }

  /** Once the gone-job has passed and the queue is drained, the roster is rid of the session, for every
      order of close, gone-job and Enter, and its hold has come back as often as it was taken. */
  lemma DrainedLeavesNothing(s: Session)
    requires Inv(s) && s.closing.Cleared? && s.queue == [] && s.running.NoJob?
    ensures s.entry.None? && s.taken == s.given <= 1
  {
  }

  /** A roster entry never points at a removed session, so a lookup may take a hold through it. */
  lemma EntryIsAlive(s: Session)
    requires Inv(s) && s.entry.Some?
    ensures s.inMap && s.ioCount > 0
  {
  }

  // ---- A closing session goes -----------------------------------------------------------------------

  /** The steps that begin something new for a session; all others only finish what is under way. */
  predicate Starts(step: Step) {
    step.Io? && (step.io.TakeFrame? || step.io.StartRepost? || step.io.StartSend? || step.io.AcquireFromRoster?)
  }

  function RunningLeft(r: Running): nat {
    match r
    case NoJob => 0
    case FrameBody => 2
    case GoneTail => 2
    case EnterUndone => 4
    case GoneLeft => 4
    case EnterUndo => 5
    case GoneBegun => 5
    case EnterHeld => 6
    case EnterNamed => 7
    case EnterInserted(_) => 8
    case EnterBegun(_) => 9
  }

  function RecvLeft(r: Recv): nat {
    match r case NoRecv => 0 case Parsing => 3 case InKernel => 4 case Posting => 7 case FrameInHand => 18
  }

  function CloseLeft(c: Closing): nat {
    match c case Marked(_) => 20 case Holding(_) => 19 case _ => 0
  }

  function RightLeft(r: Right): nat {
    match r case NoRight => 0 case Live => 3 case Claimed => 4
  }

  /** A bound on the steps that finish what is under way. */
  function Left(s: Session): nat {
    s.enders + 2 * s.bystanders + 3 * s.sends + 6 * s.postingBystanders + (if s.runnerPosting then 4 else 0)
    + (if s.looking then 3 else 0) + 10 * |s.queue| + RightLeft(s.right) + 2 * s.endingRights
    + RunningLeft(s.running) + RecvLeft(s.recv) + CloseLeft(s.closing)
  }

  lemma SubmitFinishes(s: Session, step: IoStep)
    requires IoEnabled(s, step) && IsClosing(s) && (step.PushFrame? || step.CloseSubmit?)
    ensures Left(IoNext(s, step)) < Left(s)
  {
  }

  lemma OthersFinish(s: Session, step: IoStep)
    requires IoEnabled(s, step) && IsClosing(s) && !Starts(Io(step)) && !step.PushFrame? && !step.CloseSubmit?
    ensures Left(IoNext(s, step)) < Left(s)
  {
  }

  lemma IoFinishes(s: Session, step: IoStep)
    requires IoEnabled(s, step) && IsClosing(s) && !Starts(Io(step))
    ensures Left(IoNext(s, step)) < Left(s)
  {
    if step.PushFrame? || step.CloseSubmit? {
      SubmitFinishes(s, step);
    } else {
      OthersFinish(s, step);
    }
  }

  lemma JobFinishes(s: Session, step: JobStep)
    requires JobEnabled(s, step) && IsClosing(s) && Inv(s)
    ensures Left(JobNext(s, step)) < Left(s)
  {
  }

  lemma StaysClosing(s: Session, step: Step)
    requires Enabled(s, step) && IsClosing(s) && Inv(s)
    ensures IsClosing(Next(s, step))
  {
    if step.Io? {
      IoFrame(s, step.io);
    }
  }

  lemma ClosingNext(s: Session, step: Step)
    requires Enabled(s, step) && Inv(s)
    ensures IsClosing(Next(s, step)) <==> IsClosing(s) || (step.Io? && step.io.Close?)
    ensures step.Io? && step.io.Close? ==> !IsClosing(s)
  {
    if IsClosing(s) {
      StaysClosing(s, step);
    }
  }

  /** How much is under way is bounded by the count. */
  lemma LeftIsSmall(s: Session)
    requires Inv(s)
    ensures Left(s) <= 10 * s.ioCount + s.enders + 27
  {
  }

  /** What the job that holds the right does next. */
  function RunnerStep(s: Session): Step {
    if s.runnerPosting then Io(SendIssued(Runner))
    else
      match s.running
      case NoJob => if s.queue != [] then Job(StartJob) else Job(EndRight)
      case FrameBody => Job(EndJob)
      case GoneTail => Job(EndJob)
      case EnterBegun(_) => Job(EnterRejects)
      case EnterInserted(_) => Job(EnterNames)
      case EnterNamed => Job(EnterHolds)
      case EnterHeld => Job(EnterChecks)
      case EnterUndo => Job(EnterUndoes)
      case EnterUndone => Job(EnterReleases)
      case GoneBegun => Job(GoneLeaves)
      case GoneLeft => Job(GoneReleases)
  }

  /** A step that can be taken as long as a closing session is there. */
  function StepOf(s: Session): Step {
    if s.closing.Marked? then Io(CloseHold)
    else if s.closing.Holding? then Io(CloseSubmit)
    else if s.looking then Io(LookAway)
    else if s.right.Claimed? then Io(AcquireRight)
    else if s.right.Live? then RunnerStep(s)
    else if s.endingRights > 0 then Io(ReleaseRight)
    else if s.sends > 0 then Io(SendCompletes)
    else if s.postingBystanders > 0 then Io(SendIssued(Bystander))
    else if s.bystanders > 0 then Io(Release)
    else
      match s.recv
      case InKernel => Io(RecvCompletes)
      case Parsing => Io(HandlerGivesUp)
      case FrameInHand => Io(PushFrame(FrameJob))
      case Posting => Io(RepostFails)
      case NoRecv => Io(TryRemove)
  }

  lemma NeverStuck(s: Session)
    requires Inv(s) && IsClosing(s) && s.inMap
    ensures Enabled(s, StepOf(s)) && !Starts(StepOf(s)) && !Inserts(StepOf(s))
  {
  }
}

/** All sessions, the roster they share, and the notifications sent from inside its critical sections. */
module SessionWorld {
  import opened SessionLife
  import opened Wrappers

  type Sid = nat

  datatype Note = Note(pid: Pid, entered: bool)

  datatype World = World(sessions: map<Sid, Session>, roster: map<Pid, Sid>, log: seq<Note>)

  datatype WorldStep = Accept(sid: Sid, posted: bool) | Act(sid: Sid, step: Step)

  const Empty := World(map[], map[], [])

  predicate WorldEnabled(w: World, step: WorldStep) {
    match step
    case Accept(sid, _) => sid !in w.sessions
    case Act(sid, act) =>
      sid in w.sessions && Enabled(w.sessions[sid], act)
      && (Inserts(act) ==> w.sessions[sid].running.pid !in w.roster)    // emplace succeeds
  }

  /** EntryTable::leave, as the roster sees it: only the session that entered may leave. */
  function Leave(w: World, pid: Pid, sid: Sid): World {
    if pid in w.roster && w.roster[pid] == sid
    then w.(roster := w.roster - {pid}, log := w.log + [Note(pid, false)]) else w
  }

  function RosterNext(w: World, sid: Sid, step: Step): World
    requires WorldEnabled(w, Act(sid, step))
  {
    var s := w.sessions[sid];
    if Inserts(step) then
      w.(roster := w.roster[s.running.pid := sid], log := w.log + [Note(s.running.pid, true)])
    else if Leaves(s, step) then Leave(w, s.playerId, sid)
    else w
  }

  function WorldNext(w: World, step: WorldStep): World
    requires WorldEnabled(w, step)
  {
    match step
    case Accept(sid, posted) => w.(sessions := w.sessions[sid := if posted then Accepted() else Stillborn()])
    case Act(sid, act) => RosterNext(w, sid, act).(sessions := w.sessions[sid := Next(w.sessions[sid], act)])
  }

  ghost predicate IsRun(ws: seq<World>, steps: seq<WorldStep>) {
    && |ws| == |steps| + 1 && ws[0] == Empty
    && forall i :: 0 <= i < |steps| ==> WorldEnabled(ws[i], steps[i]) && ws[i + 1] == WorldNext(ws[i], steps[i])
  }

  // ---- Notifications -----------------------------------------------------------------------------

  /** What the receiver of the notifications believes. */
  function Inside(log: seq<Note>, pid: Pid): bool {
    if log == [] then false
    else if log[|log| - 1].pid == pid then log[|log| - 1].entered
    else Inside(log[..|log| - 1], pid)
  }

  ghost predicate Alternates(log: seq<Note>) {
    log == [] || (Alternates(log[..|log| - 1])
      && log[|log| - 1].entered == !Inside(log[..|log| - 1], log[|log| - 1].pid))
  }

  /** One player's notifications, in order. */
  function NotesOf(log: seq<Note>, pid: Pid): seq<bool> {
    if log == [] then []
    else NotesOf(log[..|log| - 1], pid) + (if log[|log| - 1].pid == pid then [log[|log| - 1].entered] else [])
  }

  lemma {:induction false} NotesAlternate(log: seq<Note>, pid: Pid)
    requires Alternates(log)
    ensures forall k :: 0 <= k < |NotesOf(log, pid)| ==> NotesOf(log, pid)[k] == (k % 2 == 0)
    ensures Inside(log, pid) <==> |NotesOf(log, pid)| % 2 == 1
  {
    if log != [] {
      NotesAlternate(log[..|log| - 1], pid);
    }
  }

  // ---- Invariant ---------------------------------------------------------------------------------

  function Entries(w: World): map<Sid, Option<Pid>> {
    map sid | sid in w.sessions :: w.sessions[sid].entry
  }

  /** The roster and the sessions agree on who has entered. */
  ghost predicate Agree(entries: map<Sid, Option<Pid>>, roster: map<Pid, Sid>) {
    && (forall pid :: pid in roster ==> roster[pid] in entries && entries[roster[pid]] == Some(pid))
    && (forall sid :: sid in entries && entries[sid].Some? ==>
          entries[sid].value in roster && roster[entries[sid].value] == sid)
  }

  ghost predicate Told(w: World) {
    Alternates(w.log) && forall pid :: Inside(w.log, pid) <==> pid in w.roster
  }

  lemma LogOne(log: seq<Note>, n: Note)
    ensures (log + [n])[..|log + [n]| - 1] == log
    ensures forall pid :: Inside(log + [n], pid) <==> if pid == n.pid then n.entered else Inside(log, pid)
    ensures Alternates(log) && n.entered == !Inside(log, n.pid) ==> Alternates(log + [n])
  {
    assert (log + [n])[..|log + [n]| - 1] == log;
  }

  lemma StepTold(w: World, step: WorldStep)
    requires WorldEnabled(w, step) && Told(w)
    ensures Told(WorldNext(w, step))
  {
    if step.Act? {
      var s := w.sessions[step.sid];
      if Inserts(step.step) {
        LogOne(w.log, Note(s.running.pid, true));
      } else if Leaves(s, step.step) {
        LogOne(w.log, Note(s.playerId, false));
      }
    }
  }

  lemma EntriesNext(w: World, sid: Sid, step: Step)
    requires WorldEnabled(w, Act(sid, step))
    ensures Entries(WorldNext(w, Act(sid, step))) == Entries(w)[sid := Next(w.sessions[sid], step).entry]
  {
  }

  lemma EnterAgrees(entries: map<Sid, Option<Pid>>, roster: map<Pid, Sid>, sid: Sid, pid: Pid)
    requires Agree(entries, roster) && sid in entries && entries[sid].None? && pid !in roster
    ensures Agree(entries[sid := Some(pid)], roster[pid := sid])
  {
  }

  lemma LeaveAgrees(entries: map<Sid, Option<Pid>>, roster: map<Pid, Sid>, sid: Sid, pid: Pid)
    requires Agree(entries, roster) && sid in entries
    ensures pid in roster && roster[pid] == sid <==> entries[sid] == Some(pid)
    ensures entries[sid] == Some(pid) ==> Agree(entries[sid := None], roster - {pid})
  {
  }

  lemma StepAgree(w: World, sid: Sid, step: Step)
    requires WorldEnabled(w, Act(sid, step)) && Inv(w.sessions[sid]) && Agree(Entries(w), w.roster)
    ensures var w' := WorldNext(w, Act(sid, step)); Agree(Entries(w'), w'.roster)
  {
    var s := w.sessions[sid];
    EntryNext(s, step);
    EntriesNext(w, sid, step);
    if Inserts(step) {
      EnterAgrees(Entries(w), w.roster, sid, s.running.pid);
    } else {
      LeaveAgrees(Entries(w), w.roster, sid, s.playerId);
      assert Entries(w)[sid := s.entry] == Entries(w);
    }
  }

  lemma StepSessionInv(w: World, step: WorldStep, sid: Sid)
    requires WorldEnabled(w, step) && (sid in w.sessions ==> Inv(w.sessions[sid]))
    ensures sid in WorldNext(w, step).sessions ==> Inv(WorldNext(w, step).sessions[sid])
  {
    if step.sid == sid {
      match step
      case Accept(_, posted) => if posted { AcceptedInv(); } else { StillbornInv(); }
      case Act(_, act) => StepInv(w.sessions[sid], act);
    }
  }

  /** Every session keeps its invariant, whatever the others do. */
  lemma {:induction false} RunInv(ws: seq<World>, steps: seq<WorldStep>, k: nat, sid: Sid)
    requires IsRun(ws, steps) && k < |ws| && sid in ws[k].sessions
    ensures Inv(ws[k].sessions[sid])
  {
    if k > 0 {
      if sid in ws[k - 1].sessions {
        RunInv(ws, steps, k - 1, sid);
      }
      StepSessionInv(ws[k - 1], steps[k - 1], sid);
    }
  }

  lemma {:induction false} RunAgree(ws: seq<World>, steps: seq<WorldStep>, k: nat)
    requires IsRun(ws, steps) && k < |ws|
    ensures Agree(Entries(ws[k]), ws[k].roster)
  {
    if k > 0 {
      var step := steps[k - 1];
      RunAgree(ws, steps, k - 1);
      if step.Act? {
        RunInv(ws, steps, k - 1, step.sid);
        StepAgree(ws[k - 1], step.sid, step.step);
      } else {
        assert Entries(ws[k]) == Entries(ws[k - 1])[step.sid := None];
      }
    }
  }

  lemma {:induction false} RunTold(ws: seq<World>, steps: seq<WorldStep>, k: nat)
    requires IsRun(ws, steps) && k < |ws|
    ensures Told(ws[k])
  {
    if k > 0 {
      RunTold(ws, steps, k - 1);
      StepTold(ws[k - 1], steps[k - 1]);
    }
  }

  // ---- Main results, for every run -----------------------------------------------------------------

  /** io_count is the number of owners, in every session, at every moment. */
  lemma CountIsExact(ws: seq<World>, steps: seq<WorldStep>, k: nat, sid: Sid)
    requires IsRun(ws, steps) && k < |ws| && sid in ws[k].sessions
    ensures ws[k].sessions[sid].ioCount == Holds(ws[k].sessions[sid])
  {
    RunInv(ws, steps, k, sid);
  }

  /** A session is removed once, complete, and nothing ever touches it again. */
  lemma {:induction false} RemovedForGood(ws: seq<World>, steps: seq<WorldStep>, i: nat, j: nat, sid: Sid)
    requires IsRun(ws, steps) && i <= j < |ws| && sid in ws[i].sessions && !ws[i].sessions[sid].inMap
    ensures sid in ws[j].sessions
    ensures ws[j].sessions[sid] == ws[i].sessions[sid].(enders := ws[j].sessions[sid].enders)
    ensures ws[i].sessions[sid].closing.Cleared? && Holds(ws[i].sessions[sid]) == 0
  {
    RunInv(ws, steps, i, sid);
    RemovedIsComplete(ws[i].sessions[sid]);
    if i < j {
      RemovedForGood(ws, steps, i, j - 1, sid);
      RunInv(ws, steps, j - 1, sid);
      var step := steps[j - 1];
      if step.sid == sid {
        RemovedIsUntouched(ws[j - 1].sessions[sid], step.step);
      }
    }
  }

  /** Nothing leaks: closing, unowned, and nobody on the way to remove it means already removed. */
  lemma NothingLeaks(ws: seq<World>, steps: seq<WorldStep>, k: nat, sid: Sid)
    requires IsRun(ws, steps) && k < |ws| && sid in ws[k].sessions
    requires var s := ws[k].sessions[sid];
             IsClosing(s) && Holds(s) == 0 && s.enders == 0 && s.closing != Marked(Acceptor)
    ensures !ws[k].sessions[sid].inMap
  {
    RunInv(ws, steps, k, sid);
    NoLeak(ws[k].sessions[sid]);
  }

  /** Every roster entry points at a session that exists, so a lookup never takes a hold on a dead one. */
  lemma RosterPointsAtLiveSessions(ws: seq<World>, steps: seq<WorldStep>, k: nat, pid: Pid)
    requires IsRun(ws, steps) && k < |ws| && pid in ws[k].roster
    ensures var sid := ws[k].roster[pid];
            sid in ws[k].sessions && ws[k].sessions[sid].inMap && ws[k].sessions[sid].ioCount > 0
  {
    RunAgree(ws, steps, k);
    var sid := ws[k].roster[pid];
    RunInv(ws, steps, k, sid);
    EntryIsAlive(ws[k].sessions[sid]);
  }

  /** A session whose gone-job has run and whose queue is drained owns no roster entry. */
  lemma GoneSessionIsOut(ws: seq<World>, steps: seq<WorldStep>, k: nat, sid: Sid)
    requires IsRun(ws, steps) && k < |ws| && sid in ws[k].sessions
    requires var s := ws[k].sessions[sid]; s.closing.Cleared? && s.queue == [] && s.running.NoJob?
    ensures forall pid :: pid in ws[k].roster ==> ws[k].roster[pid] != sid
    ensures ws[k].sessions[sid].taken == ws[k].sessions[sid].given <= 1
  {
    RunAgree(ws, steps, k);
    RunInv(ws, steps, k, sid);
    DrainedLeavesNothing(ws[k].sessions[sid]);
  }

  /** Per player, enter and leave notifications alternate, whichever sessions they came from,
      and the last one says whether the player is in the roster. */
  lemma NotificationsAlternate(ws: seq<World>, steps: seq<WorldStep>, k: nat, pid: Pid)
    requires IsRun(ws, steps) && k < |ws|
    ensures forall n :: 0 <= n < |NotesOf(ws[k].log, pid)| ==> NotesOf(ws[k].log, pid)[n] == (n % 2 == 0)
    ensures pid in ws[k].roster <==> |NotesOf(ws[k].log, pid)| % 2 == 1
  {
    RunTold(ws, steps, k);
    NotesAlternate(ws[k].log, pid);
  }

  // ---- Closing, and what follows from it --------------------------------------------------------------

  predicate Of(step: WorldStep, sid: Sid) {
    step.Act? && step.sid == sid
  }

  /** A close_session on it that went first, or an accept that could not post the first receive. */
  predicate Closes(step: WorldStep, sid: Sid) {
    step == Accept(sid, false) || (Of(step, sid) && step.step.Io? && step.step.io.Close?)
  }

  lemma ClosesNext(w: World, step: WorldStep, sid: Sid)
    requires WorldEnabled(w, step) && (sid in w.sessions ==> Inv(w.sessions[sid]))
    requires sid in WorldNext(w, step).sessions
    ensures IsClosing(WorldNext(w, step).sessions[sid])
            <==> Closes(step, sid) || (sid in w.sessions && IsClosing(w.sessions[sid]))
    ensures Closes(step, sid) ==> sid !in w.sessions || !IsClosing(w.sessions[sid])
  {
    if Of(step, sid) {
      ClosingNext(w.sessions[sid], step.step);
    }
  }

  lemma {:induction false} SessionsStay(ws: seq<World>, steps: seq<WorldStep>, i: nat, k: nat, sid: Sid)
    requires IsRun(ws, steps) && i <= k < |ws| && sid in ws[i].sessions
    ensures sid in ws[k].sessions
  {
    if i < k {
      SessionsStay(ws, steps, i, k - 1, sid);
    }
  }

  lemma NothingBefore(ws: seq<World>, steps: seq<WorldStep>, k: nat, sid: Sid)
    requires IsRun(ws, steps) && k < |ws| && sid !in ws[k].sessions
    ensures forall i: nat :: i < k ==> !Closes(steps[i], sid) && !Of(steps[i], sid)
  {
    forall i: nat | i < k
      ensures !Closes(steps[i], sid) && !Of(steps[i], sid)
    {
      if Closes(steps[i], sid) || Of(steps[i], sid) {
        assert sid in ws[i + 1].sessions;
        SessionsStay(ws, steps, i + 1, k, sid);
      }
    }
  }

  /** A session is closing exactly if somebody has closed it. */
  lemma {:induction false} ClosingIffClosed(ws: seq<World>, steps: seq<WorldStep>, k: nat, sid: Sid)
    requires IsRun(ws, steps) && k < |ws| && sid in ws[k].sessions
    ensures IsClosing(ws[k].sessions[sid]) <==> exists i: nat :: i < k && Closes(steps[i], sid)
  {
    if k > 0 {
      var p: nat := k - 1;
      if sid in ws[p].sessions {
        ClosingIffClosed(ws, steps, p, sid);
        RunInv(ws, steps, p, sid);
      } else {
        NothingBefore(ws, steps, p, sid);
      }
      ClosesNext(ws[p], steps[p], sid);
    }
  }

  /** However many threads call close_session, one of them closes it, once. */
  lemma ClosedOnce(ws: seq<World>, steps: seq<WorldStep>, i: nat, j: nat, sid: Sid)
    requires IsRun(ws, steps) && i < j < |steps| && Closes(steps[i], sid)
    ensures !Closes(steps[j], sid)
  {
    assert sid in ws[i + 1].sessions;
    SessionsStay(ws, steps, i + 1, j, sid);
    ClosingIffClosed(ws, steps, j, sid);
    RunInv(ws, steps, j, sid);
    SessionsStay(ws, steps, j, j + 1, sid);
    ClosesNext(ws[j], steps[j], sid);
  }

  lemma StaysClosed(ws: seq<World>, steps: seq<WorldStep>, i: nat, k: nat, sid: Sid)
    requires IsRun(ws, steps) && i <= k < |ws| && sid in ws[i].sessions && IsClosing(ws[i].sessions[sid])
    ensures sid in ws[k].sessions && IsClosing(ws[k].sessions[sid]) && Inv(ws[k].sessions[sid])
  {
    SessionsStay(ws, steps, i, k, sid);
    ClosingIffClosed(ws, steps, i, sid);
    ClosingIffClosed(ws, steps, k, sid);
    RunInv(ws, steps, k, sid);
  }

  /** How many of these are set from i to k. */
  function CountSet(own: seq<bool>, i: nat, k: nat): nat
    requires i <= k <= |own|
  {
    if i == k then 0 else CountSet(own, i, k - 1) + if own[k - 1] then 1 else 0
  }

  lemma {:induction false} Descent(left: seq<nat>, own: seq<bool>, i: nat, k: nat)
    requires i <= k < |left| == |own| + 1
    requires forall j :: i <= j < k ==> left[j + 1] + (if own[j] then 1 else 0) <= left[j]
    ensures left[k] + CountSet(own, i, k) <= left[i]
  {
    if i < k {
      Descent(left, own, i, k - 1);
      var p := k - 1;
      assert left[p + 1] + (if own[p] then 1 else 0) <= left[p];
    }
  }

  /** How many of the steps from i to k are the session's. */
  function Acts(steps: seq<WorldStep>, i: nat, k: nat, sid: Sid): nat
    requires i <= k <= |steps|
  {
    CountSet(seq(|steps|, j requires 0 <= j < |steps| => Of(steps[j], sid)), i, k)
  }

  /** What is left at a state, nothing while the session is not there yet. */
  function LeftAt(w: World, sid: Sid): nat {
    if sid in w.sessions then Left(w.sessions[sid]) else 0
  }

  lemma FinishesNext(w: World, step: WorldStep, sid: Sid)
    requires WorldEnabled(w, step) && sid in w.sessions && Inv(w.sessions[sid]) && IsClosing(w.sessions[sid])
    requires Of(step, sid) ==> !Starts(step.step)
    ensures sid in WorldNext(w, step).sessions && IsClosing(WorldNext(w, step).sessions[sid])
    ensures Left(WorldNext(w, step).sessions[sid]) + (if Of(step, sid) then 1 else 0) <= Left(w.sessions[sid])
  {
    if Of(step, sid) {
      StaysClosing(w.sessions[sid], step.step);
      match step.step
      case Io(io) => IoFinishes(w.sessions[sid], io);
      case Job(job) => JobFinishes(w.sessions[sid], job);
    }
  }

  /** None of the steps from i to k starts anything new for the session. */
  ghost predicate NoneStart(steps: seq<WorldStep>, i: nat, k: nat, sid: Sid)
    requires i <= k <= |steps|
  {
    forall j: nat :: i <= j < k && Of(steps[j], sid) ==> !Starts(steps[j].step)
  }

  lemma OneStepLess(ws: seq<World>, steps: seq<WorldStep>, i: nat, j: nat, sid: Sid)
    requires IsRun(ws, steps) && i <= j < |steps| && sid in ws[i].sessions && IsClosing(ws[i].sessions[sid])
    requires Of(steps[j], sid) ==> !Starts(steps[j].step)
    ensures LeftAt(ws[j + 1], sid) + (if Of(steps[j], sid) then 1 else 0) <= LeftAt(ws[j], sid)
  {
    StaysClosed(ws, steps, i, j, sid);
    FinishesNext(ws[j], steps[j], sid);
  }

  lemma StepsAreBounded(ws: seq<World>, steps: seq<WorldStep>, i: nat, k: nat, sid: Sid)
    requires IsRun(ws, steps) && i <= k < |ws| && sid in ws[i].sessions && IsClosing(ws[i].sessions[sid])
    requires NoneStart(steps, i, k, sid)
    ensures Acts(steps, i, k, sid) + LeftAt(ws[k], sid) <= LeftAt(ws[i], sid)
  {
    var left := seq(|ws|, j requires 0 <= j < |ws| => LeftAt(ws[j], sid));
    var own := seq(|steps|, j requires 0 <= j < |steps| => Of(steps[j], sid));
    forall j: nat | i <= j < k
      ensures left[j + 1] + (if own[j] then 1 else 0) <= left[j]
    {
      OneStepLess(ws, steps, i, j, sid);
    }
    Descent(left, own, i, k);
  }

  /** A closed session goes: once nobody starts anything new for it, only so many steps are left, ten for each
      hold on it and a few more; until it is removed one of them can always be taken; and when they have all
      been taken it is gone. */
  lemma ClosingSessionGoes(ws: seq<World>, steps: seq<WorldStep>, i: nat, k: nat, sid: Sid)
    requires IsRun(ws, steps) && i <= k < |ws| && sid in ws[i].sessions && IsClosing(ws[i].sessions[sid])
    requires NoneStart(steps, i, k, sid)
    ensures sid in ws[k].sessions
    ensures Acts(steps, i, k, sid) <= 10 * ws[i].sessions[sid].ioCount + ws[i].sessions[sid].enders + 27
    ensures ws[k].sessions[sid].inMap ==>
              WorldEnabled(ws[k], Act(sid, StepOf(ws[k].sessions[sid]))) && !Starts(StepOf(ws[k].sessions[sid]))
              && Acts(steps, i, k, sid) < 10 * ws[i].sessions[sid].ioCount + ws[i].sessions[sid].enders + 27
  {
    RunInv(ws, steps, i, sid);
    LeftIsSmall(ws[i].sessions[sid]);
    StepsAreBounded(ws, steps, i, k, sid);
    StaysClosed(ws, steps, i, k, sid);
    if ws[k].sessions[sid].inMap {
      NeverStuck(ws[k].sessions[sid]);
      FinishesNext(ws[k], Act(sid, StepOf(ws[k].sessions[sid])), sid);
    }
  }

  // ---- Order ------------------------------------------------------------------------------------------

  /** What a step submits for a session. */
  function SubmittedBy(step: WorldStep, sid: Sid): seq<Job> {
    if !Of(step, sid) then []
    else if step.step.Io? && step.step.io.PushFrame? then [step.step.io.job]
    else if step.step.Io? && step.step.io.CloseSubmit? then [GoneJob]
    else []
  }

  /** What a step to w makes the session's right begin to run. */
  function BegunBy(step: WorldStep, w: World, sid: Sid): seq<Running> {
    if Of(step, sid) && step.step == Job(StartJob) && sid in w.sessions then [w.sessions[sid].running] else []
  }

  function Submitted(steps: seq<WorldStep>, k: nat, sid: Sid): seq<Job>
    requires k <= |steps|
  {
    if k == 0 then [] else Submitted(steps, k - 1, sid) + SubmittedBy(steps[k - 1], sid)
  }

  function Begun(ws: seq<World>, steps: seq<WorldStep>, k: nat, sid: Sid): seq<Running>
    requires k <= |steps| < |ws|
  {
    if k == 0 then [] else Begun(ws, steps, k - 1, sid) + BegunBy(steps[k - 1], ws[k], sid)
  }

  function Begins(jobs: seq<Job>): seq<Running> {
    seq(|jobs|, n requires 0 <= n < |jobs| => Begin(jobs[n]))
  }

  lemma BeginsSplit(a: seq<Job>, b: seq<Job>)
    ensures Begins(a + b) == Begins(a) + Begins(b)
  {
  }

  function QueueOf(w: World, sid: Sid): seq<Job> {
    if sid in w.sessions then w.sessions[sid].queue else []
  }

  lemma StartTakesFirst(w: World, step: WorldStep, sid: Sid)
    requires WorldEnabled(w, step) && Of(step, sid) && step.step == Job(StartJob)
    ensures Begins(QueueOf(w, sid)) == BegunBy(step, WorldNext(w, step), sid) + Begins(QueueOf(WorldNext(w, step), sid))
  {
    var queue := w.sessions[sid].queue;
    assert queue == [queue[0]] + queue[1..];
    BeginsSplit([queue[0]], queue[1..]);
  }

  lemma QueueNext(w: World, step: WorldStep, sid: Sid)
    requires WorldEnabled(w, step) && !(Of(step, sid) && step.step == Job(StartJob))
    ensures QueueOf(w, sid) + SubmittedBy(step, sid) == QueueOf(WorldNext(w, step), sid)
  {
  }

  lemma OneStepInOrder(w: World, step: WorldStep, sid: Sid)
    requires WorldEnabled(w, step)
    ensures Begins(QueueOf(w, sid)) + Begins(SubmittedBy(step, sid))
      == BegunBy(step, WorldNext(w, step), sid) + Begins(QueueOf(WorldNext(w, step), sid))
  {
    if Of(step, sid) && step.step == Job(StartJob) {
      StartTakesFirst(w, step, sid);
    } else {
      QueueNext(w, step, sid);
      BeginsSplit(QueueOf(w, sid), SubmittedBy(step, sid));
    }
  }

  lemma Regroup(a: seq<Running>, b: seq<Running>, c: seq<Running>, d: seq<Running>, e: seq<Running>, f: seq<Running>)
    requires a == b + c && c + d == e + f
    ensures a + d == (b + e) + f
  {
    assert a + d == b + (c + d);
  }

  /** A session's jobs are begun in the order they were submitted, each once. */
  lemma {:induction false} JobsBeginInOrder(ws: seq<World>, steps: seq<WorldStep>, k: nat, sid: Sid)
    requires IsRun(ws, steps) && k < |ws|
    ensures Begins(Submitted(steps, k, sid)) == Begun(ws, steps, k, sid) + Begins(QueueOf(ws[k], sid))
  {
    if k > 0 {
      var p: nat := k - 1;
      JobsBeginInOrder(ws, steps, p, sid);
      OneStepInOrder(ws[p], steps[p], sid);
      BeginsSplit(Submitted(steps, p, sid), SubmittedBy(steps[p], sid));
      Regroup(Begins(Submitted(steps, p, sid)), Begun(ws, steps, p, sid), Begins(QueueOf(ws[p], sid)),
              Begins(SubmittedBy(steps[p], sid)), BegunBy(steps[p], ws[k], sid), Begins(QueueOf(ws[k], sid)));
    }
  }
}

/** The objects of net::IocpServer, one method per critical section. */
module SessionObjects {
  class Session {
    const id: nat
    var ioCount: int
    var closing: bool
    var lastRecvMs: Tick

    constructor (id: nat, now: Tick)
      ensures this.id == id && ioCount == 0 && !closing && lastRecvMs == now
    {
      this.id := id;
      ioCount, closing, lastRecvMs := 0, false, now;
    }
  }

  type Tick = t: nat | t < 0x1_0000_0000_0000_0000

  const MAX_IDLE_MS: nat := 0x7FFF_FFFF * 1000      // idle_timeout_sec is a positive int

  /** now - last in 64-bit unsigned arithmetic, as the sweep computes it. */
  function Silence(now: Tick, last: Tick): Tick {
    (now - last) % 0x1_0000_0000_0000_0000
  }

  /** The sweep reads the clock once, before its loop. It judges a session by how long it has been silent
      exactly if that session has not received anything after the clock was read. */
  lemma SilenceIsRightIffNotNewer(now: Tick, last: Tick, limit: nat)
    requires 0 < limit <= MAX_IDLE_MS && now < 0x8000_0000_0000_0000 && last < 0x8000_0000_0000_0000
    ensures (Silence(now, last) >= limit <==> last + limit <= now) <==> last <= now
  {
    if last <= now {
      assert Silence(now, last) == now - last;
    } else {
      assert Silence(now, last) == now - last + 0x1_0000_0000_0000_0000;
    }
  }

  /** A message that arrives one tick after the sweep read the clock makes its session look idle. */
  lemma FreshMessageLooksIdle()
    ensures Silence(1_000_000, 1_000_001) >= 90_000
  {
    SilenceIsRightIffNotNewer(1_000_000, 1_000_001, 90_000);
  }

  class IocpServer {
    var sessions: set<Session>

    constructor ()
      ensures sessions == {}
    {
      sessions := {};
    }

    /** The map is looked at first: a pointer that is not in it may be dead and is not followed. */
    method TryRemoveSession(s: Session)
      modifies `sessions
      ensures sessions == old(sessions) - if s in old(sessions) && s.closing && s.ioCount == 0 then {s} else {}
    {
      if s !in sessions {
        return;
      }
      if !s.closing || s.ioCount != 0 {
        return;
      }
      sessions := sessions - {s};
    }

    method ReleaseIo(s: Session)
      requires s in sessions && s.ioCount > 0
      modifies `sessions, s`ioCount
      ensures s.ioCount == old(s.ioCount) - 1
      ensures s !in sessions <==> s.ioCount == 0 && s.closing
      ensures sessions - {s} == old(sessions) - {s}
    {
      s.ioCount := s.ioCount - 1;
      if s.ioCount != 0 {
        return;
      }
      TryRemoveSession(s);
    }

    /** close_session up to the submit: exactly one caller ever gets to post the gone-job. */
    method MarkClosing(s: Session) returns (first: bool)
      modifies s`closing, s`ioCount
      ensures s.closing && first == !old(s.closing)
      ensures s.ioCount == old(s.ioCount) + if first then 1 else 0
    {
      first := !s.closing;
      s.closing := true;
      if first {
        s.ioCount := s.ioCount + 1;
      }
    }

    /** The locked part of close_by_id. A hold is taken iff there is something left to close. */
    method PickForClose(id: nat) returns (target: Session?, alreadyClosing: bool)
      requires forall a, b :: a in sessions && b in sessions && a.id == b.id ==> a == b
      modifies sessions`ioCount
      ensures target == null <==> forall s :: s in sessions ==> s.id != id
      ensures target != null ==> target in sessions && target.id == id && alreadyClosing == target.closing
      ensures forall s :: s in sessions ==>
        s.ioCount == old(s.ioCount) + if s == target && !s.closing then 1 else 0
    {
      target, alreadyClosing := null, false;
      var left := sessions;
      while left != {} && target == null
        invariant left <= sessions && !alreadyClosing
        invariant target == null ==> forall s :: s in sessions - left ==> s.id != id
        invariant target != null ==> target in sessions && target.id == id
        decreases left
      {
        var s :| s in left;
        left := left - {s};
        if s.id == id {
          target := s;
        }
      }
      if target == null {
        return;
      }
      if target.closing {
        alreadyClosing := true;
      } else {
        target.ioCount := target.ioCount + 1;
      }
    }

    /** The locked part of a sweep: the idle sessions, each with a hold of its own. */
    method CollectIdle(now: Tick, limit: nat) returns (doomed: set<Session>)
      modifies sessions`ioCount
      ensures doomed
        == set s | s in sessions && !s.closing && (now - s.lastRecvMs) % 0x1_0000_0000_0000_0000 >= limit
      ensures forall s :: s in sessions ==> s.ioCount == old(s.ioCount) + if s in doomed then 1 else 0
    {
      doomed := {};
      var left := sessions;
      while left != {}
        invariant left <= sessions
        invariant doomed
          == set s | s in sessions - left && !s.closing && (now - s.lastRecvMs) % 0x1_0000_0000_0000_0000 >= limit
        invariant forall s :: s in sessions ==> s.ioCount == old(s.ioCount) + if s in doomed then 1 else 0
        decreases left
      {
        var s :| s in left;
        left := left - {s};
        if s.closing || Silence(now, s.lastRecvMs) < limit {
          continue;
        }
        s.ioCount := s.ioCount + 1;
        doomed := doomed + {s};
      }
    }
  }
}
