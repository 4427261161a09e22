// The send double buffer (net/session.h SendBuffer, net/iocp_server.cpp send_chunks and post_send).
//
// Whatever is queued goes to back. The one thread that holds the right to issue takes back over as front
// and gives it to the kernel; while it does, others only append to back. Two sends on one socket at once
// could overtake each other, so there must never be a second holder.

/** The locked blocks, as functions of the buffer. */
module SendBuffers {
  import opened Wire

  const MAX_QUEUE: nat := 0x10_0000          // 1 MiB, for back alone

  datatype Buffer = Buffer(front: seq<Byte>, back: seq<Byte>, sent: nat, sending: bool, streak: nat)

  const NoBytes := Buffer([], [], 0, false, 0)

  predicate Overflows(b: Buffer, message: seq<Byte>) {
    |b.back| + |message| > MAX_QUEUE
  }

  /** send_chunks: the message is queued whole or dropped whole. */
  function Queue(b: Buffer, message: seq<Byte>): Buffer {
    if Overflows(b, message) then b.(streak := b.streak + 1)
    else b.(back := b.back + message, streak := 0, sending := true)
  }

  /** post_send: front is refilled from back when it has gone out; with nothing to send the right is given up. */
  function Refill(b: Buffer): Buffer {
    if b.sent >= |b.front| then b.(front := b.back, back := [], sent := 0) else b
  }

  function Take(b: Buffer): Buffer {
    var r := Refill(b);
    if r.front == [] then r.(sending := false) else r
  }

  /** Bytes queued and not reported sent. */
  function Unsent(b: Buffer): seq<Byte> {
    if b.sent <= |b.front| then b.front[b.sent..] + b.back else b.back
  }

  lemma QueueAppends(b: Buffer, message: seq<Byte>)
    requires b.sent <= |b.front| && !Overflows(b, message)
    ensures Unsent(Queue(b, message)) == Unsent(b) + message
  {
  }

  lemma TakeKeepsUnsent(b: Buffer)
    ensures Unsent(Take(b)) == Unsent(b)
    ensures !Take(b).sending ==> !b.sending || Unsent(b) == []
    ensures Take(b).front != [] ==> Take(b).sent < |Take(b).front| && Take(b).sending == b.sending
  {
  }
}

/** The buffer as an object. */
module SendObjects {
  import opened SendBuffers
  import opened Wire

  class SendBuffer {
    var front: seq<Byte>
    var back: seq<Byte>
    var sent: nat
    var sending: bool
    var overflowStreak: nat

    constructor ()
      ensures View() == NoBytes
    {
      front, back, sent, sending, overflowStreak := [], [], 0, false, 0;
    }

    function View(): Buffer
      reads this
    {
      Buffer(front, back, sent, sending, overflowStreak)
    }

    /** The chunks one after the other, under the one lock of SendChunks. */
    method Append(chunks: seq<seq<Byte>>)
      modifies `back
      ensures back == old(back) + Flat(chunks, |chunks|)
    {
      ghost var was := back;
      for i := 0 to |chunks|
        invariant back == was + Flat(chunks, i)
      {
        back := back + chunks[i];
      }
    }

    /** All chunks of a message go in under one lock, so no other message can come between them. Nothing is
        offered when the session is closing or there is no byte to send. */
    method SendChunks(closing: bool, chunks: seq<seq<Byte>>)
      returns (needPost: bool, overflowed: bool, streak: nat)
      modifies this
      ensures closing || |Flat(chunks, |chunks|)| == 0 ==> View() == old(View()) && !needPost && !overflowed
      ensures !closing && |Flat(chunks, |chunks|)| > 0 ==> View() == Queue(old(View()), Flat(chunks, |chunks|))
      ensures overflowed <==> !closing && |Flat(chunks, |chunks|)| > 0
                              && |old(back)| + |Flat(chunks, |chunks|)| > 0x10_0000
      ensures !closing && |Flat(chunks, |chunks|)| > 0 && !overflowed ==>
                back == old(back) + Flat(chunks, |chunks|) && front == old(front) && sent == old(sent)
                && sending && overflowStreak == 0 && needPost == !old(sending)
      ensures overflowed ==>
                back == old(back) && front == old(front) && sent == old(sent) && sending == old(sending)
                && overflowStreak == old(overflowStreak) + 1 == streak && !needPost
    {
      needPost, overflowed, streak := false, false, 0;
      if |chunks| == 0 || closing {
        return;
      }
      var total := TotalLength(chunks);
      if total == 0 {
        return;
      }
      if |back| + total > MAX_QUEUE {
        overflowStreak := overflowStreak + 1;
        streak := overflowStreak;
        overflowed := true;
      } else {
        overflowStreak := 0;
        Append(chunks);
        if !sending {
          sending := true;
          needPost := true;
        }
      }
    }

    /** post_send up to the issue. */
    method TakeBatch() returns (batch: seq<Byte>)
      requires sent <= |front|
      modifies this
      ensures View() == Take(old(View()))
      ensures sent <= |front| && batch == front[sent..]
      ensures old(sent) < |old(front)| ==> batch == old(front)[old(sent)..] && back == old(back)
      ensures old(sent) == |old(front)| ==> batch == old(back) && back == []
      ensures sending == (old(sending) && batch != []) && overflowStreak == old(overflowStreak)
    {
      if sent >= |front| {
        front := back;
        back := [];
        sent := 0;
      }
      if front == [] {
        sending := false;
        return [];
      }
      return front[sent..];
    }

    method Complete(transferred: nat)
      modifies this
      ensures View() == old(View()).(sent := old(sent) + transferred)
    {
      sent := sent + transferred;
    }

    method GiveUp()
      modifies this
      ensures View() == old(View()).(sending := false)
    {
      sending := false;
    }
  }

  method TotalLength(chunks: seq<seq<Byte>>) returns (total: nat)
    ensures total == |Flat(chunks, |chunks|)|
  {
    total := 0;
    for i := 0 to |chunks|
      invariant total == |Flat(chunks, i)|
    {
      total := total + |chunks[i]|;
    }
  }

  /** The first n chunks of a message. */
  function Flat(chunks: seq<seq<Byte>>, n: nat): seq<Byte>
    requires n <= |chunks|
  {
    if n == 0 then [] else Flat(chunks, n - 1) + chunks[n - 1]
  }
}

/** Any number of senders, the worker on the completions, and the kernel, in any order. */
module SendMachine {
  import opened SendBuffers
  import opened Wire

  /** An offered message and whether it was queued. */
  datatype Offer = Offer(message: seq<Byte>, queued: bool)

  /** The counters say how many threads are at each point between two locked blocks. */
  datatype State = State(
    buf: Buffer,
    claimed: nat,          // has set sending, has not entered post_send
    resuming: nat,         // has taken a completion, has not entered post_send
    posting: nat,          // has its batch, has not called WSASend
    inKernel: nat,         // sends issued and not completed
    failing: nat,          // WSASend failed, sending not taken back yet
    stuck: nat,            // a send completed with an error; the session is being closed
    batch: seq<Byte>,      // what the last holder gave, or is about to give, to the kernel
    kickers: nat,          // saw the streak at the limit, have not closed the session yet
    wire: seq<Byte>,       // bytes the kernel has reported sent
    offers: seq<Offer>,
    failed: bool,
    kicks: nat)

  predicate Initial(s: State) {
    && s.buf == NoBytes && s.claimed == s.resuming == s.posting == s.inKernel == s.failing == s.stuck == 0
    && s.wire == [] && s.offers == [] && s.kickers == s.kicks == 0 && !s.failed
  }

  datatype Step =
    | Send(message: seq<Byte>)
    | Kick
    | PostClaimed
    | PostResuming
    | Issue(ok: bool)
    | GiveUp
    | Completed(transferred: nat)
    | CompletedWithError

  predicate Enabled(s: State, step: Step) {
    match step
    case Send(message) => message != []
    case Kick => s.kickers > 0
    case PostClaimed => s.claimed > 0
    case PostResuming => s.resuming > 0
    case Issue(_) => s.posting > 0
    case GiveUp => s.failing > 0
    case Completed(transferred) => s.inKernel > 0 && transferred <= |s.batch|
    case CompletedWithError => s.inKernel > 0
  }

  function Posted(s: State): State {
    var b := Take(s.buf);
    if b.front == [] then s.(buf := b)
    else s.(buf := b, posting := s.posting + 1, batch := if b.sent <= |b.front| then b.front[b.sent..] else [])
  }

  function Next(s: State, step: Step, limit: nat): State
    requires Enabled(s, step)
  {
    match step
    case Send(message) =>
      var queued := !Overflows(s.buf, message);
      var b := Queue(s.buf, message);
      s.(buf := b,
         offers := s.offers + [Offer(message, queued)],
         claimed := s.claimed + (if queued && !s.buf.sending then 1 else 0),
         kickers := s.kickers + (if !queued && limit > 0 && b.streak == limit then 1 else 0))
    case Kick => s.(kickers := s.kickers - 1, kicks := s.kicks + 1)
    case PostClaimed => Posted(s.(claimed := s.claimed - 1))
    case PostResuming => Posted(s.(resuming := s.resuming - 1))
    case Issue(ok) =>
      if ok then s.(posting := s.posting - 1, inKernel := s.inKernel + 1)
      else s.(posting := s.posting - 1, failing := s.failing + 1)
    case GiveUp => s.(failing := s.failing - 1, buf := s.buf.(sending := false), failed := true)
    case Completed(transferred) =>
      s.(inKernel := s.inKernel - 1, resuming := s.resuming + 1, wire := s.wire + s.batch[..transferred],
         buf := s.buf.(sent := s.buf.sent + transferred))
    case CompletedWithError => s.(inKernel := s.inKernel - 1, stuck := s.stuck + 1, failed := true)
  }

  ghost predicate IsRun(states: seq<State>, steps: seq<Step>, limit: nat) {
    && |states| == |steps| + 1 && Initial(states[0])
    && forall i :: 0 <= i < |steps| ==>
         Enabled(states[i], steps[i]) && states[i + 1] == Next(states[i], steps[i], limit)
  }

  // ---- What the history amounts to ---------------------------------------------------------------

  /** The bytes of the queued ones among the first n offers, in order. */
  function Accepted(offers: seq<Offer>, n: nat): seq<Byte>
    requires n <= |offers|
  {
    if n == 0 then []
    else Accepted(offers, n - 1) + if offers[n - 1].queued then offers[n - 1].message else []
  }

  /** How many of the last offers before n were dropped in a row. */
  function DropsBefore(offers: seq<Offer>, n: nat): nat
    requires n <= |offers|
  {
    if n == 0 || offers[n - 1].queued then 0 else DropsBefore(offers, n - 1) + 1
  }

  /** How many rows of dropped offers have reached the limit. */
  function LongRows(offers: seq<Offer>, n: nat, limit: nat): nat
    requires n <= |offers|
  {
    if n == 0 then 0
    else LongRows(offers, n - 1, limit) + if limit > 0 && DropsBefore(offers, n) == limit then 1 else 0
  }

  lemma {:induction false} HistoryPrefix(offers: seq<Offer>, more: Offer, n: nat, limit: nat)
    requires n <= |offers|
    ensures Accepted(offers + [more], n) == Accepted(offers, n)
    ensures DropsBefore(offers + [more], n) == DropsBefore(offers, n)
    ensures LongRows(offers + [more], n, limit) == LongRows(offers, n, limit)
  {
    if n > 0 {
      HistoryPrefix(offers, more, n - 1, limit);
    }
  }

  // ---- Invariant ---------------------------------------------------------------------------------

  /** Those with the right to issue, or on the way to give it back. */
  function Working(s: State): nat {
    s.claimed + s.resuming + s.posting + s.inKernel + s.failing
  }

  /** One thread, or the kernel, has the right, exactly while sending is set. */
  ghost predicate OneHolder(s: State) {
    if s.buf.sending then Working(s) + s.stuck == 1 else Working(s) + s.stuck == 0
  }

  /** Front is not touched while it is being given away. */
  ghost predicate BatchStands(s: State) {
    && s.buf.sent <= |s.buf.front|
    && (s.posting + s.inKernel > 0 ==> s.batch == s.buf.front[s.buf.sent..] && s.batch != [])
  }

  ghost predicate Bounded(s: State) {
    |s.buf.back| <= MAX_QUEUE && |s.buf.front| <= MAX_QUEUE
  }

  ghost predicate Conserved(s: State) {
    s.wire + Unsent(s.buf) == Accepted(s.offers, |s.offers|)
  }

  ghost predicate NotForgotten(s: State) {
    !s.failed && Unsent(s.buf) != [] ==> s.buf.sending
  }

  ghost predicate KicksAreRows(s: State, limit: nat) {
    && s.buf.streak == DropsBefore(s.offers, |s.offers|)
    && s.kicks + s.kickers == LongRows(s.offers, |s.offers|, limit)
  }

  lemma StepOneHolder(s: State, step: Step, limit: nat)
    requires Enabled(s, step) && OneHolder(s)
    ensures OneHolder(Next(s, step, limit))
  {
  }

  lemma StepBatchStands(s: State, step: Step, limit: nat)
    requires Enabled(s, step) && OneHolder(s) && BatchStands(s)
    ensures BatchStands(Next(s, step, limit))
  {
    TakeKeepsUnsent(s.buf);
  }

  lemma StepBounded(s: State, step: Step, limit: nat)
    requires Enabled(s, step) && Bounded(s)
    ensures Bounded(Next(s, step, limit))
  {
  }

  lemma SendConserves(s: State, message: seq<Byte>, limit: nat)
    requires message != [] && BatchStands(s) && Conserved(s)
    ensures Conserved(Next(s, Send(message), limit))
  {
    var offer := Offer(message, !Overflows(s.buf, message));
    HistoryPrefix(s.offers, offer, |s.offers|, limit);
    if offer.queued {
      QueueAppends(s.buf, message);
      assert s.wire + (Unsent(s.buf) + message) == (s.wire + Unsent(s.buf)) + message;
    }
  }

  lemma SentMovesToWire(wire: seq<Byte>, front: seq<Byte>, back: seq<Byte>, sent: nat, n: nat)
    requires sent + n <= |front|
    ensures (wire + front[sent..][..n]) + (front[sent + n..] + back) == wire + (front[sent..] + back)
  {
    assert front[sent..] == front[sent..][..n] + front[sent + n..];
  }

  lemma CompletionConserves(s: State, n: nat, limit: nat)
    requires Enabled(s, Completed(n)) && BatchStands(s) && Conserved(s)
    ensures Conserved(Next(s, Completed(n), limit))
  {
    SentMovesToWire(s.wire, s.buf.front, s.buf.back, s.buf.sent, n);
  }

  lemma StepConserved(s: State, step: Step, limit: nat)
    requires Enabled(s, step) && BatchStands(s) && Conserved(s)
    ensures Conserved(Next(s, step, limit))
  {
    match step
    case Send(message) => SendConserves(s, message, limit);
    case Completed(n) => CompletionConserves(s, n, limit);
    case PostClaimed => TakeKeepsUnsent(s.buf);
    case PostResuming => TakeKeepsUnsent(s.buf);
    case _ =>
      assert Unsent(Next(s, step, limit).buf) == Unsent(s.buf);
  }

  lemma StepNotForgotten(s: State, step: Step, limit: nat)
    requires Enabled(s, step) && OneHolder(s) && BatchStands(s) && NotForgotten(s)
    ensures NotForgotten(Next(s, step, limit))
  {
    TakeKeepsUnsent(s.buf);
  }

  lemma StepKicksAreRows(s: State, step: Step, limit: nat)
    requires Enabled(s, step) && KicksAreRows(s, limit)
    ensures KicksAreRows(Next(s, step, limit), limit)
  {
    if step.Send? {
      HistoryPrefix(s.offers, Offer(step.message, !Overflows(s.buf, step.message)), |s.offers|, limit);
    }
  }

  ghost predicate Inv(s: State, limit: nat) {
    && OneHolder(s) && BatchStands(s) && Bounded(s) && Conserved(s) && NotForgotten(s) && KicksAreRows(s, limit)
  }

  lemma StepInv(s: State, step: Step, limit: nat)
    requires Enabled(s, step) && Inv(s, limit)
    ensures Inv(Next(s, step, limit), limit)
  {
    StepOneHolder(s, step, limit);
    StepBatchStands(s, step, limit);
    StepBounded(s, step, limit);
    StepConserved(s, step, limit);
    StepNotForgotten(s, step, limit);
    StepKicksAreRows(s, step, limit);
  }

  lemma InitInv(s: State, limit: nat)
    requires Initial(s)
    ensures Inv(s, limit)
  {
  }

  lemma {:induction false} RunInv(states: seq<State>, steps: seq<Step>, limit: nat, k: nat)
    requires IsRun(states, steps, limit) && k < |states|
    ensures Inv(states[k], limit)
  {
    if k > 0 {
      RunInv(states, steps, limit, k - 1);
      StepInv(states[k - 1], steps[k - 1], limit);
    } else {
      InitInv(states[0], limit);
    }
  }

  lemma {:induction false} OffersStay(states: seq<State>, steps: seq<Step>, limit: nat, i: nat, k: nat)
    requires IsRun(states, steps, limit) && i <= k < |states|
    ensures states[i].offers <= states[k].offers
  {
    if i < k {
      OffersStay(states, steps, limit, i, k - 1);
    }
  }

  // ---- Main results --------------------------------------------------------------------------------

  /** On the wire, then unsent in front, then back: always exactly the queued messages, in order, whole. */
  lemma StreamIsTheQueuedMessages(states: seq<State>, steps: seq<Step>, limit: nat, k: nat)
    requires IsRun(states, steps, limit) && k < |states|
    ensures var s := states[k];
            && s.buf.sent <= |s.buf.front|
            && s.wire + s.buf.front[s.buf.sent..] + s.buf.back == Accepted(s.offers, |s.offers|)
  {
    RunInv(states, steps, limit, k);
    var s := states[k];
    assert s.wire + Unsent(s.buf) == s.wire + s.buf.front[s.buf.sent..] + s.buf.back;
  }

  /** A message is queued exactly if back has room for the whole of it when it is offered. */
  lemma QueuedIffItFits(states: seq<State>, steps: seq<Step>, limit: nat, i: nat, k: nat)
    requires IsRun(states, steps, limit) && i < k < |states| && steps[i].Send?
    ensures |states[i].offers| < |states[k].offers|
    ensures var offer := states[k].offers[|states[i].offers|];
            && offer.message == steps[i].message
            && (offer.queued <==> |states[i].buf.back| + |offer.message| <= 0x10_0000)
  {
    OffersStay(states, steps, limit, i + 1, k);
    assert states[i + 1].offers[|states[i].offers|].message == steps[i].message;
  }

  predicate GivenAway(s: State) {
    s.buf.sent < |s.buf.front| && s.batch == s.buf.front[s.buf.sent..]
  }

  /** Never two sends outstanding, and what the kernel reads from does not change under it. */
  lemma OneSendAtATime(states: seq<State>, steps: seq<Step>, limit: nat, k: nat)
    requires IsRun(states, steps, limit) && k < |states|
    ensures states[k].inKernel <= 1 && states[k].posting + states[k].inKernel <= 1
    ensures states[k].inKernel == 1 ==> GivenAway(states[k])
  {
    RunInv(states, steps, limit, k);
  }

  /** Memory per session: each of the two buffers stays within the limit. */
  lemma BuffersAreBounded(states: seq<State>, steps: seq<Step>, limit: nat, k: nat)
    requires IsRun(states, steps, limit) && k < |states|
    ensures |states[k].buf.front| + |states[k].buf.back| <= 2 * MAX_QUEUE && |states[k].buf.back| <= MAX_QUEUE
  {
    RunInv(states, steps, limit, k);
  }

  /** Without a send failure, unsent bytes always have somebody working on them; so once nobody is,
      everything queued has gone out. */
  lemma QuietMeansSent(states: seq<State>, steps: seq<Step>, limit: nat, k: nat)
    requires IsRun(states, steps, limit) && k < |states| && !states[k].failed
    ensures Unsent(states[k].buf) != [] ==> Working(states[k]) == 1
    ensures !states[k].buf.sending ==> states[k].wire == Accepted(states[k].offers, |states[k].offers|)
  {
    RunInv(states, steps, limit, k);
    NoStuckWithoutFailure(states, steps, limit, k);
  }

  lemma {:induction false} NoStuckWithoutFailure(states: seq<State>, steps: seq<Step>, limit: nat, k: nat)
    requires IsRun(states, steps, limit) && k < |states| && !states[k].failed
    ensures states[k].stuck == 0
  {
    if k > 0 {
      NoStuckWithoutFailure(states, steps, limit, k - 1);
    }
  }

  /** A row of dropped messages that reaches the limit closes the session once, however long it gets and
      however many senders are in it. */
  lemma EachLongRowKicksOnce(states: seq<State>, steps: seq<Step>, limit: nat, k: nat)
    requires IsRun(states, steps, limit) && k < |states|
    ensures states[k].kicks + states[k].kickers == LongRows(states[k].offers, |states[k].offers|, limit)
  {
    RunInv(states, steps, limit, k);
  }
}
