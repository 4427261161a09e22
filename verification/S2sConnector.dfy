// net::S2sConnector: one village's link to the session server.
//
// One thread owns all of this state. What makes it hard is not other threads but re-entrancy: a
// completion callback may call force_disconnect, which runs at once, fails every pending request and
// so runs further callbacks, all inside the loop that was handing out completions. UserCode below is
// the arbitrary code behind a callback; it may tear the connection down any number of times.
// The kernel is the set of I/Os issued and not completed; it may complete them in any order.

module S2sConnector {
  import opened Wire

  type ReqId = nat          // one request() call, hence one on_done

  const MAX_SEQ: nat := 0xFFFF_FFFF

  datatype Result = Ok | Timeout | Disconnected | Stopped

  datatype IoOp = Connect | Recv | Send

  datatype Pending = Pending(onDone: ReqId, deadline: nat)

  datatype Command =
    | Request(id: ReqId, body: seq<Byte>, deadline: nat)
    | Notify(body: seq<Byte>)
    | Respond(seqNo: nat, body: seq<Byte>)
    | ForceDisconnect

  /** header_encode and the body: the frame with this number. The codec is handed in. */
  type Codec = (nat, seq<Byte>) -> seq<Byte>

  /** What ends a wait for the completion port: a wake-up, or a completion with its outcome. */
  datatype Event = Woken | Completed(op: IoOp, ok: bool, transferred: nat, frames: seq<InFrame>)

  /** What a turn of the thread's loop meets: an event, the time, and how an attempt to connect would go. */
  datatype Turn = Turn(event: Event, now: nat, due: bool, prepared: bool, tick: bool)

  /** The callbacks that are not an on_done. */
  datatype Call = Up | Down | Asked | Tick

  /** A frame as the sizer cuts it and the classifier sees it. */
  datatype InFrame = Reply(seqNo: nat) | PeerRequest | Dropped | Violation

  // ---- The ledger: where each request taken from the command queue is ---------------------------

  /** InTable: pending under that number. InHand: moved out of the table, on_done not called yet.
      Done: on_done has been called, with that result. Lost: its number was still in use. */
  datatype Where = InTable(seqNo: nat) | InHand | Done(result: Result) | Lost

  type Ledger = map<ReqId, Where>

  /** The table and the ledger say the same. */
  ghost predicate Matches(pending: map<nat, Pending>, w: Ledger) {
    && (forall s :: s in pending ==> pending[s].onDone in w && w[pending[s].onDone] == InTable(s))
    && (forall id :: id in w && w[id].InTable? ==> w[id].seqNo in pending && pending[w[id].seqNo].onDone == id)
  }

  /** All table entries completed with r, everything else as it was. */
  ghost function FailTable(w: Ledger, r: Result): Ledger {
    map id | id in w :: if w[id].InTable? then Done(r) else w[id]
  }

  /** Table entries completed with r, except those still to do, which are in hand. */
  ghost function PartlyFailed(w: Ledger, r: Result, toDo: set<nat>): Ledger {
    map id | id in w ::
      if w[id].InTable? then if w[id].seqNo in toDo then InHand else Done(r) else w[id]
  }

  lemma SwapOutTable(pending: map<nat, Pending>, w: Ledger, r: Result)
    requires Matches(pending, w)
    ensures Matches(map[], PartlyFailed(w, r, pending.Keys))
  {
  }

  lemma FailOne(pending: map<nat, Pending>, w: Ledger, r: Result, toDo: set<nat>, s: nat)
    requires Matches(pending, w) && s in toDo && s in pending
    ensures var id := pending[s].onDone;
            id in w && PartlyFailed(w, r, toDo)[id] == InHand
            && PartlyFailed(w, r, toDo)[id := Done(r)] == PartlyFailed(w, r, toDo - {s})
  {
    var id := pending[s].onDone;
    forall x | x in w
      ensures PartlyFailed(w, r, toDo)[id := Done(r)][x] == PartlyFailed(w, r, toDo - {s})[x]
    {
    }
  }

  lemma AllFailed(w: Ledger, r: Result)
    ensures PartlyFailed(w, r, {}) == FailTable(w, r)
  {
  }

  /** Who is told what when a connection goes: exactly the requests in the table, and the reason given. */
  lemma FailTableMeans(w: Ledger, r: Result)
    ensures FailTable(w, r).Keys == w.Keys
    ensures forall id :: id in w && w[id].InTable? ==> FailTable(w, r)[id] == Done(r)
    ensures forall id :: id in w && !w[id].InTable? ==> FailTable(w, r)[id] == w[id]
  {
  }

  ghost predicate Quiet(w: Ledger) {
    forall id :: id in w ==> !w[id].InHand?
  }

  /** Once an on_done has been called, nothing that happens later changes how it was called. */
  ghost predicate Evolves(w: Ledger, w': Ledger) {
    forall id :: id in w ==> id in w' && (w[id].Done? || w[id].Lost? ==> w'[id] == w[id])
  }

  predicate Due(pending: map<nat, Pending>, s: nat, now: nat) {
    s in pending && pending[s].deadline <= now
  }

  /** Entries whose deadline has come completed with Timeout, except those in toDo. */
  ghost function Expiring(w: Ledger, pending: map<nat, Pending>, now: nat, toDo: set<ReqId>): Ledger {
    map id | id in w ::
      if w[id].InTable? && Due(pending, w[id].seqNo, now)
      then if id in toDo then InHand else Done(Timeout) else w[id]
  }

  /** Once all of them have been told: exactly the requests whose deadline has come have timed out. */
  lemma ExpiringMeans(w: Ledger, pending: map<nat, Pending>, now: nat, s: nat)
    requires Matches(pending, w) && s in pending
    ensures var id := pending[s].onDone;
            Expiring(w, pending, now, {})[id] == if pending[s].deadline <= now then Done(Timeout) else InTable(s)
  {
  }

  function Alive(pending: map<nat, Pending>, now: nat): map<nat, Pending> {
    map s | s in pending && pending[s].deadline > now :: pending[s]
  }

  lemma ExpiredQuiet(w: Ledger, pending: map<nat, Pending>, now: nat)
    requires Quiet(w)
    ensures Quiet(Expiring(w, pending, now, {})) && Quiet(FailTable(Expiring(w, pending, now, {}), Disconnected))
  {
  }

  lemma ExpireOne(w: Ledger, pending: map<nat, Pending>, now: nat, toDo: set<ReqId>, id: ReqId)
    requires id in toDo && id in w && w[id].InTable? && Due(pending, w[id].seqNo, now)
    ensures Expiring(w, pending, now, toDo)[id] == InHand
    ensures Expiring(w, pending, now, toDo)[id := Done(Timeout)] == Expiring(w, pending, now, toDo - {id})
  {
  }

  lemma DisconnectCommutes(w: Ledger, id: ReqId, r: Result)
    requires id in w && w[id] == InHand
    ensures FailTable(w, Disconnected)[id] == InHand
    ensures FailTable(w, Disconnected)[id := Done(r)] == FailTable(w[id := Done(r)], Disconnected)
  {
  }

  /** Table entries whose number some frame answers completed with Ok. */
  ghost function Answered(w: Ledger, frames: seq<InFrame>): Ledger {
    map id | id in w :: if w[id].InTable? && Reply(w[id].seqNo) in frames then Done(Ok) else w[id]
  }

  lemma AnsweredMeans(w: Ledger, frames: seq<InFrame>)
    ensures Answered(w, frames).Keys == w.Keys
    ensures forall id :: id in w && w[id].InTable? && Reply(w[id].seqNo) in frames ==>
              Answered(w, frames)[id] == Done(Ok)
    ensures forall id :: id in w && !(w[id].InTable? && Reply(w[id].seqNo) in frames) ==>
              Answered(w, frames)[id] == w[id]
  {
  }

  function Unanswered(pending: map<nat, Pending>, frames: seq<InFrame>): map<nat, Pending> {
    map s | s in pending && Reply(s) !in frames :: pending[s]
  }

  /** What one frame does to the ledger and to the table. */
  ghost function AfterFrame(w: Ledger, pending: map<nat, Pending>, f: InFrame): Ledger {
    if f.Reply? && f.seqNo in pending then w[pending[f.seqNo].onDone := Done(Ok)] else w
  }

  function TableAfterFrame(pending: map<nat, Pending>, f: InFrame): map<nat, Pending> {
    if f.Reply? && f.seqNo in pending then pending - {f.seqNo} else pending
  }

  lemma AnswerOne(pending: map<nat, Pending>, w: Ledger, frames: seq<InFrame>, f: InFrame)
    requires Matches(pending, w)
    ensures AfterFrame(Answered(w, frames), Unanswered(pending, frames), f) == Answered(w, frames + [f])
    ensures TableAfterFrame(Unanswered(pending, frames), f) == Unanswered(pending, frames + [f])
  {
  }

  lemma AnswerNone(pending: map<nat, Pending>, w: Ledger)
    ensures Answered(w, []) == w && Unanswered(pending, []) == pending
  {
  }

  lemma AnsweredEvolves(w: Ledger, frames: seq<InFrame>)
    ensures Evolves(w, Answered(w, frames)) && Evolves(w, FailTable(Answered(w, frames), Disconnected))
    ensures Answered(w, frames).Keys == FailTable(Answered(w, frames), Disconnected).Keys == w.Keys
  {
  }

  lemma FailingEvolves(w: Ledger, r: Result)
    ensures Evolves(w, FailTable(w, r)) && FailTable(w, r).Keys == w.Keys
  {
  }

  lemma ExpiringEvolves(w: Ledger, pending: map<nat, Pending>, now: nat)
    ensures Evolves(w, Expiring(w, pending, now, {}))
    ensures Evolves(w, FailTable(Expiring(w, pending, now, {}), Disconnected))
    ensures Expiring(w, pending, now, {}).Keys == FailTable(Expiring(w, pending, now, {}), Disconnected).Keys == w.Keys
  {
  }

  /** The first pass of the sweep takes exactly the expired entries out of the table. */
  lemma SplitExpired(w: Ledger, pending: map<nat, Pending>, now: nat, ids: set<ReqId>)
    requires Matches(pending, w) && Quiet(w)
    requires ids == set s | s in pending && pending[s].deadline <= now :: pending[s].onDone
    ensures Matches(Alive(pending, now), Expiring(w, pending, now, ids))
    ensures NoneLost(w) ==> NoneLost(Expiring(w, pending, now, ids))
    ensures forall id :: id in ids ==> id in w && w[id].InTable? && Due(pending, w[id].seqNo, now)
  {
  }

  function RequestIds(batch: seq<Command>): set<ReqId> {
    if batch == [] then {}
    else RequestIds(batch[..|batch| - 1]) + match batch[|batch| - 1] case Request(id, _, _) => {id} case _ => {}
  }

  ghost predicate Fresh(batch: seq<Command>, used: set<ReqId>) {
    batch == [] || (Fresh(batch[..|batch| - 1], used)
      && match batch[|batch| - 1]
         case Request(id, _, _) => id !in used + RequestIds(batch[..|batch| - 1])
         case _ => true)
  }

  function AllIds(script: seq<seq<Command>>): set<ReqId> {
    if script == [] then {} else AllIds(script[..|script| - 1]) + RequestIds(script[|script| - 1])
  }

  /** Every request() call is its own on_done, across all batches. */
  ghost predicate AllFresh(script: seq<seq<Command>>) {
    script == [] || (AllFresh(script[..|script| - 1])
      && Fresh(script[|script| - 1], AllIds(script[..|script| - 1])))
  }

  /** Each request's callback has been called, with exactly one result; or lost, if numbers ran out. */
  ghost predicate AllCompleted(w: Ledger, overran: bool) {
    forall id :: id in w ==> w[id].Done? || (overran && w[id].Lost?)
  }

  lemma NothingOpen(w: Ledger, overran: bool)
    requires Matches(map[], w) && Quiet(w) && (overran || NoneLost(w))
    ensures AllCompleted(w, overran)
  {
  }

  lemma {:induction false} AllFreshPrefix(script: seq<seq<Command>>, i: nat)
    requires AllFresh(script) && i < |script|
    ensures Fresh(script[i], AllIds(script[..i]))
    ensures AllIds(script[..i + 1]) == AllIds(script[..i]) + RequestIds(script[i])
  {
    assert script[..i + 1][..i] == script[..i];
    if i < |script| - 1 {
      var init := script[..|script| - 1];
      AllFreshPrefix(init, i);
      assert init[..i] == script[..i] && init[..i + 1] == script[..i + 1];
    }
  }

  /** The next number after the first n commands, all handled while connected. */
  function SeqAfter(batch: seq<Command>, n: nat, first: nat): nat
    requires n <= |batch|
  {
    if n == 0 then first
    else if batch[n - 1].Request? then NextSeq(SeqAfter(batch, n - 1, first))
    else SeqAfter(batch, n - 1, first)
  }

  /** What a command puts on the connection: a request under its own number, a notification under 0. */
  function FrameOf(encode: Codec, cmd: Command, seqNo: nat): seq<Byte> {
    match cmd
    case Request(_, body, _) => encode(seqNo, body)
    case Notify(body) => encode(0, body)
    case Respond(answered, body) => encode(answered, body)
    case ForceDisconnect => []
  }

  function FramesOf(encode: Codec, batch: seq<Command>, n: nat, first: nat): seq<Byte>
    requires n <= |batch|
  {
    if n == 0 then []
    else FramesOf(encode, batch, n - 1, first) + FrameOf(encode, batch[n - 1], SeqAfter(batch, n - 1, first))
  }

  /** The requests among the first n commands, entered under their numbers with their deadlines. */
  function Entering(pending: map<nat, Pending>, batch: seq<Command>, n: nat, first: nat): map<nat, Pending>
    requires n <= |batch|
  {
    if n == 0 then pending
    else
      var before := Entering(pending, batch, n - 1, first);
      match batch[n - 1]
      case Request(id, _, deadline) => Emplace(before, SeqAfter(batch, n - 1, first), Pending(id, deadline))
      case _ => before
  }

  function Asks(frames: seq<InFrame>, n: nat): seq<Call>
    requires n <= |frames|
  {
    if n == 0 then [] else Asks(frames, n - 1) + if frames[n - 1].PeerRequest? then [Asked] else []
  }

  lemma {:induction false} AsksPrefix(frames: seq<InFrame>, more: seq<InFrame>, n: nat)
    requires n <= |frames|
    ensures Asks(frames + more, n) == Asks(frames, n)
  {
    if n > 0 {
      AsksPrefix(frames, more, n - 1);
    }
  }

  function NextSeq(s: nat): nat {
    if s >= MAX_SEQ then 1 else s + 1       // u32 increment that skips 0, the number of notifications
  }

  ghost function Count(kernel: map<IoOp, nat>): int {
    (if Connect in kernel then 1 else 0) + (if Recv in kernel then 1 else 0) + (if Send in kernel then 1 else 0)
  }

  /** Pending numbers are below the next one until a connection has used all 2^32 - 1 of them. */
  ghost predicate Numbers(nextSeq: nat, issued: nat, pending: map<nat, Pending>, overran: bool) {
    && 1 <= nextSeq <= MAX_SEQ && 0 !in pending && (issued >= MAX_SEQ ==> overran)
    && (issued < MAX_SEQ ==> nextSeq == issued + 1 && forall s :: s in pending ==> s <= issued)
  }

  ghost predicate NoneLost(w: Ledger) {
    forall id :: id in w ==> !w[id].Lost?
  }

  /** I/Os are counted exactly and tagged so that a completion is recognised as current or stale. */
  ghost predicate Ios(kernel: map<IoOp, nat>, outstanding: int, tags: map<IoOp, nat>, generation: nat,
                      attempt: nat, active: bool) {
    && outstanding == Count(kernel)
    && forall op :: op in kernel ==>
         op in tags && if active then kernel[op] == attempt && tags[op] == generation else tags[op] < generation
  }

  /** unordered_map::emplace does nothing when the key is taken. */
  function Emplace(pending: map<nat, Pending>, s: nat, p: Pending): map<nat, Pending> {
    if s in pending then pending else pending[s := p]
  }

  /** Where a request goes when it is given number s: lost when the number is still in use. */
  ghost function Enter(w: Ledger, pending: map<nat, Pending>, s: nat, id: ReqId): Ledger {
    w[id := if s in pending then Lost else InTable(s)]
  }

  lemma EnterTable(pending: map<nat, Pending>, w: Ledger, s: nat, id: ReqId, deadline: nat)
    requires Matches(pending, w) && id !in w && Quiet(w)
    ensures Matches(Emplace(pending, s, Pending(id, deadline)), Enter(w, pending, s, id))
    ensures Quiet(Enter(w, pending, s, id))
    ensures NoneLost(w) && s !in pending ==> NoneLost(Enter(w, pending, s, id))
    ensures Enter(w, pending, s, id).Keys == w.Keys + {id}
    ensures Evolves(w, Enter(w, pending, s, id))
  {
  }

  lemma LeaveTable(pending: map<nat, Pending>, w: Ledger, s: nat)
    requires Matches(pending, w) && s in pending
    ensures Matches(pending - {s}, w[pending[s].onDone := InHand])
  {
  }

  /** Numbering one more request keeps the table below the next number, or uses the numbers up. */
  lemma NumberOne(nextSeq: nat, issued: nat, pending: map<nat, Pending>, overran: bool, p: Pending)
    requires Numbers(nextSeq, issued, pending, overran)
    ensures Numbers(NextSeq(nextSeq), issued + 1, Emplace(pending, nextSeq, p), overran || issued + 1 >= MAX_SEQ)
    ensures !overran ==> nextSeq !in pending
  {
  }

  lemma CountZero(kernel: map<IoOp, nat>)
    ensures Count(kernel) == 0 <==> kernel == map[]
  {
    if Count(kernel) == 0 {
      forall op ensures op !in kernel {
        match op case Connect => case Recv => case Send =>
      }
    }
  }

  lemma CountLess(kernel: map<IoOp, nat>, op: IoOp)
    requires op in kernel
    ensures Count(kernel - {op}) == Count(kernel) - 1
  {
  }

  lemma {:induction false} FreshPrefix(batch: seq<Command>, used: set<ReqId>, i: nat)
    requires Fresh(batch, used) && i < |batch|
    ensures batch[i].Request? ==> batch[i].id !in used + RequestIds(batch[..i])
    ensures RequestIds(batch[..i + 1]) == RequestIds(batch[..i]) + if batch[i].Request? then {batch[i].id} else {}
  {
    assert batch[..i + 1][..i] == batch[..i];
    if i < |batch| - 1 {
      var init := batch[..|batch| - 1];
      FreshPrefix(init, used, i);
      assert init[..i] == batch[..i] && init[..i + 1] == batch[..i + 1];
    }
  }

  datatype SendBuffers = SendBuffers(front: seq<Byte>, back: seq<Byte>, sent: nat, pending: bool)

  /** Bytes queued and not reported sent. */
  ghost function Unsent(b: SendBuffers): seq<Byte> {
    if b.sent <= |b.front| then b.front[b.sent..] + b.back else b.back
  }

  lemma UnsentGrows(b: SendBuffers, u: seq<Byte>, done: seq<Byte>, bytes: seq<Byte>)
    requires Unsent(b) == u + done
    ensures Unsent(b.(back := b.back + bytes)) == u + (done + bytes)
  {
    assert Unsent(b.(back := b.back + bytes)) == Unsent(b) + bytes;
  }

  const NoBytes := SendBuffers([], [], 0, false)

  class Connector {
    const encode: Codec
    var connected: bool
    var connecting: bool
    var generation: nat
    var pending: map<nat, Pending>
    var nextSeq: nat
    var outstandingIo: int
    var tags: map<IoOp, nat>             // the generation field of each of the three I/O contexts
    var inbox: seq<InFrame>              // frames received and not dispatched yet
    var send: SendBuffers

    var attempt: nat                     // the environment: connection attempts so far,
    var kernel: map<IoOp, nat>           // and I/Os issued and not completed, with the attempt they belong to

    ghost var ledger: Ledger
    ghost var issued: nat                // requests registered on this connection
    ghost var overran: bool              // some connection has registered 2^32 - 1 requests
    ghost var forced: nat                // how often a callback has called force_disconnect
    ghost var refusals: nat              // how often the kernel has refused an I/O
    ghost var calls: seq<Call>           // the other callbacks, in order
    ghost var taken: nat                 // completions taken from the kernel

    ghost predicate Active()
      reads this
    {
      connected || connecting
    }

    /** Nothing of a connection is left behind. */
    ghost predicate Reset()
      reads this
    {
      nextSeq == 1 && issued == 0 && inbox == [] && send == NoBytes
    }

    /** Holds wherever user code may run. */
    ghost predicate Core()
      reads this
    {
      && !(connected && connecting) && (!connected ==> pending == map[]) && (connecting ==> Reset())
      && Matches(pending, ledger) && Numbers(nextSeq, issued, pending, overran) && (overran || NoneLost(ledger))
      && Ios(kernel, outstandingIo, tags, generation, attempt, Active())
      && (connecting ==> Recv !in kernel && Send !in kernel)
      && (connected ==> Connect !in kernel && (!send.pending ==> Send !in kernel))
    }

    /** Holds between events of the thread's loop. */
    ghost predicate Valid()
      reads this
    {
      Core() && (!connected ==> Reset()) && inbox == [] && Quiet(ledger)
    }

    /** While connected, a receive is posted, and a send wherever the flag says that one is. */
    ghost predicate UnderWay()
      reads this
    {
      connected ==> Recv in kernel && (send.pending ==> Send in kernel)
    }

    /** Fields no callback changes. */
    twostate predicate Kept()
      reads this
    {
      && overran == old(overran) && attempt == old(attempt) && kernel == old(kernel)
      && outstandingIo == old(outstandingIo) && tags == old(tags) && refusals == old(refusals)
      && taken == old(taken)
      && old(generation) <= generation && old(forced) <= forced
    }

    /** The connection is as it was, with p pending. */
    twostate predicate Undisturbed(p: map<nat, Pending>)
      reads this
    {
      && connected == old(connected) && connecting == old(connecting) && pending == p
      && nextSeq == old(nextSeq) && issued == old(issued) && inbox == old(inbox) && send == old(send)
    }

    /** Callback code has torn the connection down if there was one and the generation moved. */
    twostate predicate Torn()
      reads this
    {
      old(Active()) && generation != old(generation)
    }

    /** What arbitrary callback code leaves behind, starting from the ledger w and the table p. */
    twostate predicate AfterUserCode(w: Ledger, p: map<nat, Pending>, c: seq<Call>)
      reads this
    {
      && Kept() && forced - old(forced) == generation - old(generation)
      && calls == c + (if Torn() && old(connected) then [Down] else [])
      && (if Torn() then !Active() && pending == map[] && Reset() else Undisturbed(p))
      && ledger == if Torn() then FailTable(w, Disconnected) else w
    }

    constructor (encode: Codec)
      ensures Valid() && !Active() && ledger == map[] && kernel == map[] && !overran && this.encode == encode
    {
      this.encode := encode;
      forced, refusals, calls, taken := 0, 0, [], 0;
      connected, connecting, generation, pending, nextSeq := false, false, 0, map[], 1;
      outstandingIo, tags, inbox, send := 0, map[Connect := 0, Recv := 0, Send := 0], [], NoBytes;
      ledger, issued, overran := map[], 0, false;
      attempt, kernel := 0, map[];
    }

    // ---- Callbacks and teardown ----------------------------------------------------------------

    /** Whatever runs behind a callback: it may call force_disconnect, any number of times. */
    method UserCode()
      requires Core()
      modifies this
      ensures Core() && AfterUserCode(old(ledger), old(pending), old(calls))
      decreases Active(), 2
    {
      var times: nat := *;
      while times > 0
        invariant Core() && AfterUserCode(old(ledger), old(pending), old(calls))
        invariant Active() ==> old(Active())
      {
        TeardownConnection(Disconnected);
        forced := forced + 1;
        times := times - 1;
      }
    }

    /** Calls one request's on_done. That this has not happened before is the precondition. */
    method Complete(id: ReqId, r: Result)
      requires Core() && id in ledger && ledger[id] == InHand
      modifies this
      ensures Core() && AfterUserCode(old(ledger)[id := Done(r)], old(pending), old(calls))
      decreases Active(), 3
    {
      ledger := ledger[id := Done(r)];
      UserCode();
    }

    /** The swap in fail_all_pending: re-entrant code finds the table empty. */
    method SwapOutPending(ghost reason: Result) returns (doomed: map<nat, Pending>)
      requires !Active() && Matches(pending, ledger) && Numbers(nextSeq, issued, pending, overran)
      requires (overran || NoneLost(ledger)) && Ios(kernel, outstandingIo, tags, generation, attempt, false)
      modifies `pending, `ledger
      ensures Core() && pending == map[] && doomed == old(pending)
      ensures ledger == PartlyFailed(old(ledger), reason, doomed.Keys)
    {
      doomed := pending;
      pending := map[];
      SwapOutTable(doomed, ledger, reason);
      ledger := PartlyFailed(ledger, reason, doomed.Keys);
    }

    /** fail_all_pending: every entry's on_done is called, once, in any order. */
    method FailAllPending(reason: Result)
      requires !Active() && Matches(pending, ledger) && Numbers(nextSeq, issued, pending, overran)
      requires (overran || NoneLost(ledger)) && Ios(kernel, outstandingIo, tags, generation, attempt, false)
      modifies this
      ensures Core() && Kept() && !Active() && pending == map[] && ledger == FailTable(old(ledger), reason)
      ensures nextSeq == old(nextSeq) && issued == old(issued) && inbox == old(inbox) && send == old(send)
      ensures forced - old(forced) == generation - old(generation) && calls == old(calls)
      decreases Active(), 4
    {
      var doomed := SwapOutPending(reason);
      var left := doomed.Keys;
      label Swapped:
      while left != {}
        invariant Core() && Kept@Swapped() && Undisturbed@Swapped(map[])
        invariant forced - old(forced) == generation - old(generation) && calls == old(calls)
        invariant left <= doomed.Keys && ledger == PartlyFailed(old(ledger), reason, left)
        decreases left
      {
        var s :| s in left;
        FailOne(doomed, old(ledger), reason, left, s);
        left := left - {s};
        Complete(doomed[s].onDone, reason);
      }
      AllFailed(old(ledger), reason);
    }

    /** The numbering restarts and the unsent bytes go: they belonged to the dead connection. */
    method ClearConnection()
      requires Core() && !Active() && inbox == []
      modifies `nextSeq, `issued, `send
      ensures Core() && Reset()
    {
      nextSeq := 1;
      issued := 0;
      send := NoBytes;
    }

    method FailAndClear(reason: Result)
      requires !Active() && inbox == [] && Matches(pending, ledger) && Numbers(nextSeq, issued, pending, overran)
      requires (overran || NoneLost(ledger)) && Ios(kernel, outstandingIo, tags, generation, attempt, false)
      modifies this
      ensures Core() && Kept() && !Active() && pending == map[] && Reset() && ledger == FailTable(old(ledger), reason)
      ensures forced - old(forced) == generation - old(generation) && calls == old(calls)
      decreases Active(), 5
    {
      FailAllPending(reason);
      ClearConnection();
    }

    /** teardown_connection. Raising the generation first is what makes a nested call harmless. */
    method TeardownConnection(reason: Result)
      requires Core()
      modifies this
      ensures Core() && Kept() && generation - old(generation) == forced - old(forced) + 1
      ensures calls == old(calls) + if old(connected) then [Down] else []
      ensures if old(Active()) then !Active() && pending == map[] && Reset() else Undisturbed(old(pending))
      ensures ledger == if old(Active()) then FailTable(old(ledger), reason) else old(ledger)
      decreases Active(), 1
    {
      generation := generation + 1;
      if !connected && !connecting {
        return;
      }
      var wasConnected := connected;
      connected, connecting := false, false;
      inbox := [];
      FailAndClear(reason);
      if wasConnected {
        calls := calls + [Down];
        UserCode();           // on_disconnected
      }
    }

    // ---- Commands --------------------------------------------------------------------------------

    /** encode_and_queue. */
    method QueueSend(seqNo: nat, body: seq<Byte>)
      requires Valid() && connected
      modifies `send
      ensures Valid() && send == old(send).(back := old(send).back + encode(seqNo, body))
    {
      send := send.(back := send.back + encode(seqNo, body));
    }

    /** handle_request_command while connected: number the request and enter it in the table. */
    method RegisterRequest(id: ReqId, deadline: nat)
      requires Valid() && id !in ledger && connected
      modifies `nextSeq, `issued, `overran, `pending, `ledger
      ensures Valid() && nextSeq == NextSeq(old(nextSeq))
      ensures pending == Emplace(old(pending), old(nextSeq), Pending(id, deadline))
      ensures ledger == Enter(old(ledger), old(pending), old(nextSeq), id)
      ensures !overran ==> old(nextSeq) !in old(pending)
    {
      EnterTable(pending, ledger, nextSeq, id, deadline);
      NumberOne(nextSeq, issued, pending, overran, Pending(id, deadline));
      ledger := Enter(ledger, pending, nextSeq, id);
      pending := Emplace(pending, nextSeq, Pending(id, deadline));
      nextSeq := NextSeq(nextSeq);
      issued := issued + 1;
      overran := overran || issued >= MAX_SEQ;
    }

    /** handle_request_command while not connected: refused at once, never queued. */
    method RefuseRequest(id: ReqId)
      requires Valid() && id !in ledger && !connected
      modifies this
      ensures Valid() && AfterUserCode(old(ledger)[id := Done(Disconnected)], old(pending), old(calls))
    {
      ledger := ledger[id := InHand];
      Complete(id, Disconnected);
    }

    method HandleCommand(cmd: Command)
      requires Valid() && (cmd.Request? ==> cmd.id !in ledger)
      modifies this
      ensures Valid() && Evolves(old(ledger), ledger)
      ensures ledger.Keys == old(ledger).Keys + if cmd.Request? then {cmd.id} else {}
      ensures Active() ==> old(Active())
      ensures cmd.Request? && old(connected) ==>
        && ledger == Enter(old(ledger), old(pending), old(nextSeq), cmd.id) && nextSeq == NextSeq(old(nextSeq))
        && pending == Emplace(old(pending), old(nextSeq), Pending(cmd.id, cmd.deadline))
        && connected && generation == old(generation)
        && send == old(send).(back := old(send).back + encode(old(nextSeq), cmd.body))
      ensures cmd.Request? && !old(connected) ==> ledger[cmd.id] == Done(Disconnected)
      ensures connected ==> old(connected)
      ensures cmd.Notify? || cmd.Respond? ==>
        && ledger == old(ledger) && pending == old(pending) && nextSeq == old(nextSeq)
        && connected == old(connected) && generation == old(generation)
        && send == if !connected then old(send)
                   else old(send).(back := old(send).back + encode(if cmd.Notify? then 0 else cmd.seqNo, cmd.body))
      ensures cmd.ForceDisconnect? ==>
        !Active() && ledger == FailTable(old(ledger), Disconnected) && generation > old(generation)
      ensures !connected && old(connected) ==> generation > old(generation)
      ensures generation >= old(generation) && taken == old(taken)
      ensures kernel == old(kernel) && outstandingIo == old(outstandingIo)
      ensures connected ==> send.pending == old(send).pending
    {
      match cmd
      case Request(id, body, deadline) =>
        if connected {
          var seqNo := nextSeq;
          RegisterRequest(id, deadline);
          QueueSend(seqNo, body);
        } else {
          RefuseRequest(id);
        }
      case Notify(body) =>
        if connected {
          QueueSend(0, body);
        }
      case Respond(seqNo, body) =>
        if connected {
          QueueSend(seqNo, body);
        }
      case ForceDisconnect =>
        TeardownConnection(Disconnected);
    }

    /** The connection has queued and entered the first n commands, starting from u unsent and the table p. */
    ghost predicate Carried(u: seq<Byte>, p: map<nat, Pending>, batch: seq<Command>, n: nat, first: nat)
      reads this
      requires n <= |batch|
    {
      && connected && Unsent(send) == u + FramesOf(encode, batch, n, first)
      && pending == Entering(p, batch, n, first) && nextSeq == SeqAfter(batch, n, first)
    }

    /** Each of these requests has been told that there is no connection, or is in the table of one; if there was
        one at first, its number may have been in use. */
    ghost predicate TakenIn(ids: set<ReqId>, first: bool)
      reads this
    {
      forall id :: id in ids ==>
        id in ledger && (ledger[id] == Done(Disconnected) || (first && ledger[id].Lost?)
                         || (connected && ledger[id].InTable?))
    }

    method HandleNext(batch: seq<Command>, i: nat, ghost u: seq<Byte>, ghost p: map<nat, Pending>, ghost first: nat,
                      ghost ids: set<ReqId>, ghost atFirst: bool)
      requires Valid() && i < |batch| && (batch[i].Request? ==> batch[i].id !in ledger)
      requires TakenIn(ids, atFirst) && (connected ==> atFirst)
      modifies this
      ensures Valid() && Evolves(old(ledger), ledger)
      ensures ledger.Keys == old(ledger).Keys + if batch[i].Request? then {batch[i].id} else {}
      ensures (Active() ==> old(Active())) && (connected ==> old(connected))
      ensures generation >= old(generation) && (!connected && old(connected) ==> generation > old(generation))
      ensures taken == old(taken) && outstandingIo == old(outstandingIo)
      ensures kernel == old(kernel) && (connected ==> send.pending == old(send).pending)
      ensures old(Carried(u, p, batch, i, first)) && generation == old(generation) ==>
        Carried(u, p, batch, i + 1, first)
      ensures TakenIn(ids + if batch[i].Request? then {batch[i].id} else {}, atFirst)
    {
      ghost var buffers := send;
      HandleCommand(batch[i]);
      if old(Carried(u, p, batch, i, first)) && generation == old(generation) {
        UnsentGrows(buffers, u, FramesOf(encode, batch, i, first),
                    FrameOf(encode, batch[i], SeqAfter(batch, i, first)));
      }
    }

    method HandleAll(batch: seq<Command>)
      requires Valid() && Fresh(batch, ledger.Keys)
      modifies this
      ensures Valid() && Evolves(old(ledger), ledger)
      ensures ledger.Keys == old(ledger).Keys + RequestIds(batch)
      ensures (Active() ==> old(Active())) && (connected ==> old(connected))
      ensures old(generation) <= generation && taken == old(taken) && outstandingIo == old(outstandingIo)
      ensures kernel == old(kernel) && (connected ==> send.pending == old(send).pending)
      ensures old(connected) && generation == old(generation) ==>
        Carried(Unsent(old(send)), old(pending), batch, |batch|, old(nextSeq))
      ensures TakenIn(RequestIds(batch), old(connected))
    {
      assert batch[..0] == [];
      for i := 0 to |batch|
        invariant Valid() && Evolves(old(ledger), ledger)
        invariant ledger.Keys == old(ledger).Keys + RequestIds(batch[..i])
        invariant (Active() ==> old(Active())) && (connected ==> old(connected))
        invariant old(generation) <= generation && taken == old(taken) && outstandingIo == old(outstandingIo)
        invariant kernel == old(kernel) && (connected ==> send.pending == old(send).pending)
        invariant old(connected) && generation == old(generation) ==>
          Carried(Unsent(old(send)), old(pending), batch, i, old(nextSeq))
        invariant TakenIn(RequestIds(batch[..i]), old(connected))
      {
        FreshPrefix(batch, old(ledger).Keys, i);
        HandleNext(batch, i, Unsent(old(send)), old(pending), old(nextSeq), RequestIds(batch[..i]), old(connected));
      }
      assert batch[..|batch|] == batch;
    }

    /** drain_commands, on the batch it has swapped out of the command queue. While the connection stands, each
        request is entered with its deadline, and every frame is queued, in order, with a send under way for it; a
        request of a batch that ends without a connection has been told so. */
    method DrainCommands(batch: seq<Command>)
      requires Valid() && Fresh(batch, ledger.Keys)
      modifies this
      ensures Valid() && Evolves(old(ledger), ledger)
      ensures ledger.Keys == old(ledger).Keys + RequestIds(batch)
      ensures Active() ==> old(Active())
      ensures old(connected) && generation == old(generation) ==>
        && connected && Unsent(send) == Unsent(old(send)) + FramesOf(encode, batch, |batch|, old(nextSeq))
        && pending == Entering(old(pending), batch, |batch|, old(nextSeq))
      ensures TakenIn(RequestIds(batch), old(connected))
      ensures taken == old(taken)
      ensures !old(connected) ==> outstandingIo == old(outstandingIo) && kernel == old(kernel)
      ensures old(UnderWay()) ==> UnderWay()
      ensures connected && !send.pending ==> Unsent(send) == []
    {
      HandleAll(batch);
      MaybeKickSend();
    }

    // ---- I/O -------------------------------------------------------------------------------------

    /** Hands a context to the kernel. It must be free: this is what "no context is reused early" means. */
    method Issue(op: IoOp) returns (accepted: bool)
      requires Core() && Active() && op !in kernel
      requires op == if connecting then Connect else op
      requires connected ==> op != Connect && (op == Send ==> send.pending)
      modifies `tags, `outstandingIo, `kernel, `refusals
      ensures Core() && tags == old(tags)[op := generation]
      ensures kernel == if accepted then old(kernel)[op := attempt] else old(kernel)
      ensures refusals == old(refusals) + if accepted then 0 else 1
    {
      tags := tags[op := generation];
      outstandingIo := outstandingIo + 1;
      accepted := *;
      if accepted {
        kernel := kernel[op := attempt];
      } else {
        outstandingIo := outstandingIo - 1;
        refusals := refusals + 1;
      }
    }

    method PostSend() returns (ok: bool)
      requires Valid() && connected && send.pending && Send !in kernel
      modifies `send, `tags, `outstandingIo, `kernel, `refusals
      ensures Valid() && Unsent(send) == Unsent(old(send))
      ensures refusals == old(refusals) + if ok then 0 else 1
      ensures (Send in kernel <==> ok && send.pending) && kernel - {Send} == old(kernel)
      ensures ok && !send.pending ==> send == NoBytes
      ensures !ok ==> !send.pending
    {
      if send.sent >= |send.front| {
        send := SendBuffers(send.back, [], 0, send.pending);
      }
      if send.front == [] {
        send := send.(pending := false);
        return true;
      }
      ok := Issue(Send);
      if !ok {
        send := send.(pending := false);
      }
    }

    method MaybeKickSend()
      requires Valid()
      modifies this
      ensures Valid() && Evolves(old(ledger), ledger) && ledger.Keys == old(ledger).Keys
      ensures connected && !send.pending ==> send.front == [] && send.back == []
      ensures connected ==> Unsent(send) == Unsent(old(send)) && pending == old(pending)
      ensures connected <==> old(connected) && refusals == old(refusals)
      ensures !old(connected) ==> outstandingIo == old(outstandingIo) && kernel == old(kernel)
      ensures old(UnderWay()) ==> UnderWay()
      ensures generation == old(generation) <==> refusals == old(refusals)
      ensures generation == old(generation) ==> calls == old(calls) && forced == old(forced)
      ensures generation >= old(generation)
      ensures ledger == if connected == old(connected) then old(ledger) else FailTable(old(ledger), Disconnected)
      ensures (Active() ==> old(Active())) && taken == old(taken)
    {
      if !connected || send.pending {
        return;
      }
      if send.back == [] && send.front == [] {
        return;
      }
      send := send.(pending := true);
      var ok := PostSend();
      if !ok {
        TeardownConnection(Disconnected);
      }
    }

    /** post_recv. It fails when the kernel refuses, or when the buffer has no room. */
    method PostRecv() returns (ok: bool)
      requires Valid() && connected && Recv !in kernel
      modifies `tags, `outstandingIo, `kernel, `refusals
      ensures Valid() && (Recv in kernel <==> ok) && kernel - {Recv} == old(kernel)
      ensures refusals == old(refusals) + if ok then 0 else 1
    {
      ok := Issue(Recv);
    }

    // ---- Received frames -------------------------------------------------------------------------

    /** The reply branch of dispatch_frame: erase first, call back second. */
    method AcceptReply(seqNo: nat)
      requires Core() && Quiet(ledger) && connected && seqNo in pending
      modifies this
      ensures Core() && Quiet(ledger)
      ensures AfterUserCode(old(ledger)[old(pending)[seqNo].onDone := Done(Ok)], old(pending) - {seqNo}, old(calls))
    {
      var p := pending[seqNo];
      LeaveTable(pending, ledger, seqNo);
      pending := pending - {seqNo};
      ledger := ledger[p.onDone := InHand];
      Complete(p.onDone, Ok);
    }

    method DispatchFrame(f: InFrame)
      requires Core() && Quiet(ledger) && connected
      modifies this
      ensures Core() && Quiet(ledger)
      ensures AfterUserCode(AfterFrame(old(ledger), old(pending), f), TableAfterFrame(old(pending), f),
                            old(calls) + if f.PeerRequest? then [Asked] else [])
      ensures f.Reply? && f.seqNo in old(pending) ==> ledger[old(pending)[f.seqNo].onDone] == Done(Ok)
    {
      match f
      case Reply(seqNo) =>
        if seqNo in pending {
          AcceptReply(seqNo);
        }                        // else a stray number: counted, nothing more
      case PeerRequest =>
        calls := calls + [Asked];
        UserCode();              // on_request_
      case _ =>
    }

    /** One more frame, after these have been handled, starting from that ledger, that table and those calls. */
    method HandleFrame(f: InFrame, ghost w: Ledger, ghost table: map<nat, Pending>, ghost c: seq<Call>,
                       ghost handled: seq<InFrame>)
      requires Core() && Quiet(ledger) && connected && Matches(table, w)
      requires ledger == Answered(w, handled) && pending == Unanswered(table, handled)
      requires calls == c + Asks(handled, |handled|)
      modifies this
      ensures Core() && Quiet(ledger)
      ensures AfterUserCode(Answered(w, handled + [f]), Unanswered(table, handled + [f]),
                            c + Asks(handled + [f], |handled| + 1))
    {
      AnswerOne(table, w, handled, f);
      AsksPrefix(handled, [f], |handled|);
      assert c + Asks(handled, |handled|) + (if f.PeerRequest? then [Asked] else [])
          == c + Asks(handled + [f], |handled| + 1);
      DispatchFrame(f);
    }

    /** The thread's own teardown of a connection. */
    method EndConnection()
      requires Core() && Quiet(ledger) && connected
      modifies this
      ensures Valid() && !Active() && Kept() && ledger == FailTable(old(ledger), Disconnected)
      ensures calls == old(calls) + [Down] && generation - old(generation) == forced - old(forced) + 1
    {
      TeardownConnection(Disconnected);
    }

    method ConsumeInbox()
      requires Core() && Quiet(ledger) && connected
      modifies `inbox
      ensures Valid()
    {
      inbox := [];
    }

    /** drain_recv_frames. It stops at a violation, and as soon as a callback has torn the connection down. */
    method DrainRecvFrames() returns (ghost handled: seq<InFrame>, ghost violated: bool)
      requires Core() && Quiet(ledger) && connected
      modifies this
      ensures Valid() && Kept() && handled <= old(inbox) && Violation !in handled
      ensures if Torn() then !Active() && ledger == FailTable(Answered(old(ledger), handled), Disconnected)
              else connected && handled == old(inbox) && ledger == Answered(old(ledger), handled)
      ensures generation - old(generation) == forced - old(forced) + if violated then 1 else 0
      ensures violated ==> |handled| < |old(inbox)| && old(inbox)[|handled|] == Violation
      ensures calls == old(calls) + Asks(handled, |handled|) + if Torn() then [Down] else []
      ensures connected ==> send == old(send)
    {
      var readPos := 0;
      handled, violated := [], false;
      AnswerNone(pending, ledger);
      while readPos < |inbox|
        invariant Core() && Quiet(ledger) && connected && Kept()
        invariant generation == old(generation) && forced == old(forced) && send == old(send)
        invariant readPos <= |inbox| && inbox == old(inbox) && handled == inbox[..readPos]
        invariant Violation !in handled && !violated
        invariant ledger == Answered(old(ledger), handled) && pending == Unanswered(old(pending), handled)
        invariant calls == old(calls) + Asks(handled, |handled|)
      {
        var frame, myGeneration := inbox[readPos], generation;
        if frame == Violation {
          violated := true;
          EndConnection();
          return;
        }
        ghost var before := handled;
        handled, readPos := handled + [frame], readPos + 1;
        assert handled == inbox[..readPos];
        HandleFrame(frame, old(ledger), old(pending), old(calls), before);
        if generation != myGeneration {
          return;
        }
      }
      ConsumeInbox();
    }

    /** The connection is torn down by the thread itself exactly if the receive failed, a violation was reached, or the
        kernel refused the next receive; by a callback whenever that forces it. */
    method OnRecv(ok: bool, frames: seq<InFrame>) returns (ghost handled: seq<InFrame>, ghost own: bool)
      requires Valid() && connected && Recv !in kernel
      modifies this
      ensures Valid() && Evolves(old(ledger), ledger) && ledger.Keys == old(ledger).Keys
      ensures Active() ==> ok && Recv in kernel && ledger == Answered(old(ledger), frames)
      ensures connected ==> send == old(send) && kernel - {Recv} == old(kernel)
      ensures handled <= frames && Violation !in handled && taken == old(taken)
      ensures !Active() ==> ledger == FailTable(Answered(old(ledger), handled), Disconnected)
      ensures !ok ==> handled == []
      ensures ok && forced == old(forced) && handled != frames ==> frames[|handled|] == Violation
      ensures (Active() <==> generation == old(generation)) && generation >= old(generation)
      ensures generation - old(generation) == forced - old(forced) + if own then 1 else 0
      ensures own ==> !ok || Violation in frames || refusals > old(refusals)
      ensures !ok || refusals > old(refusals) ==> own
      ensures calls == old(calls) + Asks(handled, |handled|) + if Active() then [] else [Down]
    {
      handled, own := [], false;
      if !ok {
        own := true;
        AnswerNone(pending, ledger);
        FailingEvolves(ledger, Disconnected);
        TeardownConnection(Disconnected);
        return;
      }
      inbox := inbox + frames;
      assert inbox == frames;
      var before := generation;
      handled, own := DrainRecvFrames();
      assert own ==> frames[|handled|] == Violation;
      AnsweredEvolves(old(ledger), handled);
      if generation == before {
        own := Rearm();
      }
    }

    /** The next receive, or the end of the connection. */
    method Rearm() returns (ghost own: bool)
      requires Valid() && connected && Recv !in kernel
      modifies this
      ensures Valid() && taken == old(taken) && refusals == old(refusals) + if own then 1 else 0
      ensures if own then !Active() && ledger == FailTable(old(ledger), Disconnected) && calls == old(calls) + [Down]
              else connected && Recv in kernel && ledger == old(ledger) && calls == old(calls)
      ensures connected ==> send == old(send) && kernel - {Recv} == old(kernel)
      ensures generation - old(generation) == forced - old(forced) + if own then 1 else 0
      ensures generation >= old(generation) && (own <==> generation != old(generation))
    {
      var posted := PostRecv();
      own := !posted;
      if !posted {
        TeardownConnection(Disconnected);
      }
    }

    method Advance(transferred: nat)
      requires Valid() && connected && Send !in kernel && send.sent + transferred <= |send.front|
      modifies `send
      ensures Valid() && send == old(send).(sent := old(send).sent + transferred)
      ensures Unsent(old(send)) == old(send).front[old(send).sent..][..transferred] + Unsent(send)
    {
      send := send.(sent := send.sent + transferred);
    }

    method OnSend(ok: bool, transferred: nat)
      requires Valid() && connected && send.pending && Send !in kernel
      requires send.sent + transferred <= |send.front|
      modifies this
      ensures Valid() && Evolves(old(ledger), ledger) && ledger.Keys == old(ledger).Keys
      ensures connected <==> ok && refusals == old(refusals)
      ensures connected ==> ledger == old(ledger) && calls == old(calls) && generation == old(generation)
      ensures !connected ==> !Active() && calls == old(calls) + [Down] && ledger == FailTable(old(ledger), Disconnected)
      ensures taken == old(taken)
      ensures connected ==> (send.pending ==> Send in kernel) && kernel - {Send} == old(kernel)
      ensures connected && !send.pending ==> Unsent(send) == []
      ensures connected ==> Unsent(old(send)) == old(send).front[old(send).sent..][..transferred] + Unsent(send)
    {
      if !ok {
        TeardownConnection(Disconnected);
        return;
      }
      Advance(transferred);
      var posted := PostSend();
      if !posted {
        TeardownConnection(Disconnected);
      }
    }

    // ---- Connecting ------------------------------------------------------------------------------

    /** begin_connect; prepared: socket, bind, association and address have all succeeded. */
    method BeginConnect(prepared: bool)
      requires Valid() && !Active() && kernel == map[]
      modifies `attempt, `tags, `connecting, `outstandingIo, `kernel, `refusals
      ensures Valid() && (connecting <==> kernel == map[Connect := attempt])
      ensures connecting <==> prepared && refusals == old(refusals)
      ensures attempt == old(attempt) + if prepared then 1 else 0
    {
      if !prepared {
        return;
      }
      attempt := attempt + 1;
      tags := tags[Connect := generation];
      connecting := true;
      var issued := Issue(Connect);
      if !issued {
        connecting := false;
      }
    }

    /** on_connect_io_complete. A connection whose first receive is refused goes down without ever having been up. */
    method OnConnect(ok: bool)
      requires Valid() && connecting && kernel == map[]
      modifies this
      ensures Valid() && ledger == old(ledger) && attempt == old(attempt)
      ensures connected ==> ok && Recv in kernel && nextSeq == 1 && send == NoBytes
      ensures connected <==> ok && refusals == old(refusals) && forced == old(forced)
      ensures !connecting && (ok && !connected ==> generation > old(generation))
      ensures calls == old(calls) + if !ok then [] else if refusals > old(refusals) then [Down]
                                    else if connected then [Up] else [Up, Down]
      ensures taken == old(taken)
    {
      connecting := false;
      if !ok {
        return;
      }
      connected := true;
      var posted := PostRecv();
      if !posted {
        TeardownConnection(Disconnected);
        return;
      }
      CallUp();
    }

    /** on_connected_. */
    method CallUp()
      requires Valid() && connected && pending == map[] && nextSeq == 1
      modifies this
      ensures Valid() && ledger == old(ledger) && Kept() && !connecting
      ensures calls == old(calls) + if connected then [Up] else [Up, Down]
      ensures (connected <==> forced == old(forced)) && (connected ==> nextSeq == 1 && send == old(send))
      ensures generation - old(generation) == forced - old(forced)
    {
      assert FailTable(ledger, Disconnected) == ledger;
      assert old(calls) + [Up] + [Down] == old(calls) + [Up, Down];
      calls := calls + [Up];
      UserCode();
    }

    /** maybe_reconnect: no I/O context is prepared anew while the kernel still owes a completion for it. */
    method MaybeReconnect(due: bool, prepared: bool)
      requires Valid()
      modifies `attempt, `tags, `connecting, `outstandingIo, `kernel, `refusals
      ensures Valid() && (attempt != old(attempt) ==> old(kernel) == map[] && !old(Active()))
      ensures old(kernel) != map[] ==> tags == old(tags)
      ensures old(Active()) ==> kernel == old(kernel)
      ensures attempt == old(attempt) + if !old(Active()) && due && old(kernel) == map[] && prepared then 1 else 0
      ensures connecting <==> old(connecting) || (attempt != old(attempt) && refusals == old(refusals))
    {
      if connected || connecting {
        return;
      }
      if !due {
        return;
      }
      CountZero(kernel);
      if outstandingIo != 0 {
        return;
      }
      BeginConnect(prepared);
    }

    // ---- Completions -------------------------------------------------------------------------------

    /** handle_completion, up to the switch: the count goes down before the tag is looked at. */
    method TakeCompletion(op: IoOp) returns (current: bool)
      requires Valid() && op in kernel
      modifies `outstandingIo, `kernel, `taken
      ensures Valid() && kernel == old(kernel) - {op} && outstandingIo == old(outstandingIo) - 1
      ensures current <==> Active() && old(kernel)[op] == attempt
      ensures current ==> (connecting <==> op == Connect) && (op == Send ==> send.pending)
      ensures taken == old(taken) + 1
    {
      CountLess(kernel, op);
      current := tags[op] == generation;
      outstandingIo := outstandingIo - 1;
      kernel := kernel - {op};
      taken := taken + 1;
    }

    /** The kernel may say this next. */
    ghost predicate Possible(e: Event)
      reads this
    {
      e.Completed? && e.op in kernel && (e.op == Send && connected ==> send.sent + e.transferred <= |send.front|)
    }

    method HandleCompletion(e: Event) returns (acted: bool)
      requires Valid() && Possible(e)
      modifies this
      ensures Valid() && Evolves(old(ledger), ledger) && ledger.Keys == old(ledger).Keys
      ensures acted <==> old(Active() && kernel[e.op] == attempt)
      ensures !acted ==> ledger == old(ledger) && kernel == old(kernel) - {e.op} && !Active() && calls == old(calls)
      ensures acted && Active() ==> ledger == if e.op == Recv then Answered(old(ledger), e.frames) else old(ledger)
      ensures acted && e.op == Connect ==> (connected <==> e.ok && refusals == old(refusals) && forced == old(forced))
      ensures acted && e.op == Send ==> (connected <==> e.ok && refusals == old(refusals))
      ensures old(UnderWay()) ==> UnderWay()
      ensures acted && e.op == Recv && e.ok && Violation !in e.frames ==>
        connected || refusals > old(refusals) || forced > old(forced)
      ensures taken == old(taken) + 1
    {
      acted := TakeCompletion(e.op);
      CountZero(kernel);
      if !acted {
        return;
      }
      match e.op
      case Connect => OnConnect(e.ok);
      case Recv =>
        ghost var handled, own;
        handled, own := OnRecv(e.ok, e.frames);
      case Send => OnSend(e.ok, e.transferred);
    }

    // ---- Timeouts --------------------------------------------------------------------------------

    /** The first pass of sweep_timeouts: expired entries leave the table, no callback runs. */
    method TakeExpired(now: nat) returns (expired: set<ReqId>)
      requires Valid()
      modifies `pending, `ledger
      ensures Core() && pending == Alive(old(pending), now)
      ensures expired == set s | s in old(pending) && old(pending)[s].deadline <= now :: old(pending)[s].onDone
      ensures ledger == Expiring(old(ledger), old(pending), now, expired)
    {
      expired := set s | s in pending && pending[s].deadline <= now :: pending[s].onDone;
      SplitExpired(ledger, pending, now, expired);
      ledger := Expiring(ledger, pending, now, expired);
      pending := Alive(pending, now);
    }

    /** The second pass: the expired requests are completed, outside the table. */
    method CompleteExpired(expired: set<ReqId>, ghost w0: Ledger, ghost p0: map<nat, Pending>, now: nat)
      requires Core() && ledger == Expiring(w0, p0, now, expired)
      requires forall id :: id in expired ==> id in w0 && w0[id].InTable? && Due(p0, w0[id].seqNo, now)
      modifies this
      ensures Core() && AfterUserCode(Expiring(w0, p0, now, {}), old(pending), old(calls))
    {
      var left := expired;
      ghost var w := ledger;
      while left != {}
        invariant Core() && left <= expired && w == Expiring(w0, p0, now, left)
        invariant AfterUserCode(w, old(pending), old(calls))
        decreases left
      {
        var id :| id in left;
        ExpireOne(w0, p0, now, left, id);
        DisconnectCommutes(w, id, Timeout);
        left := left - {id};
        w := w[id := Done(Timeout)];
        Complete(id, Timeout);
      }
    }

    /** sweep_timeouts: exactly the expired requests time out, even when one of them tears all down. */
    method SweepTimeouts(now: nat)
      requires Valid()
      modifies this
      ensures Valid()
      ensures AfterUserCode(Expiring(old(ledger), old(pending), now, {}), Alive(old(pending), now), old(calls))
    {
      SplitExpired(ledger, pending, now, set s | s in pending && pending[s].deadline <= now :: pending[s].onDone);
      ExpiredQuiet(ledger, pending, now);
      var expired := TakeExpired(now);
      CompleteExpired(expired, old(ledger), old(pending), now);
    }

    // ---- The thread ------------------------------------------------------------------------------

    /** One wait for the completion port. */
    method Await(e: Event)
      requires Valid()
      modifies this
      ensures Valid() && Evolves(old(ledger), ledger) && ledger.Keys == old(ledger).Keys
      ensures Active() ==> old(Active())
      ensures taken == old(taken) + if old(Possible(e)) then 1 else 0
      ensures old(UnderWay()) ==> UnderWay()
      ensures !old(Active()) ==> kernel == if old(Possible(e)) then old(kernel) - {e.op} else old(kernel)
    {
      if e.Completed? && e.op in kernel && (e.op == Send && connected ==> send.sent + e.transferred <= |send.front|) {
        var acted := HandleCompletion(e);
      }
    }

    /** What a turn does about the time: the timeout sweep, the reconnect gate, the tick. */
    method Housekeeping(t: Turn)
      requires Valid()
      modifies this
      ensures Valid() && Evolves(old(ledger), ledger) && ledger.Keys == old(ledger).Keys
      ensures forall s :: s in pending ==> pending[s].deadline > t.now
      ensures attempt > old(attempt) ==> old(kernel) == map[] && t.due && t.prepared
      ensures !old(Active()) && old(kernel) == map[] && t.due && t.prepared ==> attempt == old(attempt) + 1
      ensures |calls| >= |old(calls)| && taken == old(taken)
      ensures (old(UnderWay()) ==> UnderWay()) && (connected ==> old(connected) && send == old(send))
      ensures t.tick ==> Tick in calls[|old(calls)|..]
    {
      ExpiringEvolves(ledger, pending, t.now);
      SweepTimeouts(t.now);
      MaybeReconnect(t.due, t.prepared);
      if t.tick {
        CallTick();
      }
    }

    /** on_tick_. */
    method CallTick()
      requires Valid()
      modifies this
      ensures Valid() && Evolves(old(ledger), ledger) && ledger.Keys == old(ledger).Keys
      ensures (pending == old(pending) || pending == map[]) && attempt == old(attempt) && taken == old(taken)
      ensures kernel == old(kernel) && (connected ==> old(connected) && send == old(send))
      ensures |calls| > |old(calls)| && calls[|old(calls)|] == Tick && calls[..|old(calls)|] == old(calls)
    {
      FailingEvolves(ledger, Disconnected);
      calls := calls + [Tick];
      UserCode();
    }

    /** One turn of thread_main's loop. Whatever it leaves unsent has a send under way. */
    method Round(batch: seq<Command>, t: Turn)
      requires Valid() && Fresh(batch, ledger.Keys)
      modifies this
      ensures Valid() && Evolves(old(ledger), ledger)
      ensures ledger.Keys == old(ledger).Keys + RequestIds(batch)
      ensures forall s :: s in pending ==> pending[s].deadline > t.now
      ensures taken == old(taken) + if old(Possible(t.event)) then 1 else 0
      ensures (old(UnderWay()) ==> UnderWay()) && (connected && !send.pending ==> Unsent(send) == [])
    {
      Await(t.event);
      DrainCommands(batch);
      Housekeeping(t);
    }

    /** shutdown_cleanup: at most ten completions are waited for, then the last commands are refused. */
    method ShutdownCleanup(batch: seq<Command>, events: nat -> Event) returns (waited: nat)
      requires Valid() && Fresh(batch, ledger.Keys)
      modifies this
      ensures Valid() && !Active() && Evolves(old(ledger), ledger)
      ensures ledger.Keys == old(ledger).Keys + RequestIds(batch)
      ensures AllCompleted(ledger, overran)
      ensures forall id :: id in old(ledger) && old(ledger)[id].InTable? ==> ledger[id] == Done(Stopped)
      ensures forall id :: id in RequestIds(batch) ==> ledger[id] == Done(Disconnected)
      ensures waited <= 10 && (outstandingIo == 0 || waited == 10)
      ensures forall i: nat :: i < waited && events(i).Completed? ==> events(i).op !in kernel
    {
      FailingEvolves(ledger, Stopped);
      TeardownConnection(Stopped);
      ghost var w := ledger;
      waited := AwaitLast(events);
      DrainCommands(batch);
      NothingOpen(ledger, overran);
      assert forall id :: id in old(ledger) && old(ledger)[id].InTable? ==> w[id] == Done(Stopped);
    }

    method AwaitLast(events: nat -> Event) returns (waited: nat)
      requires Valid() && !Active()
      modifies this
      ensures Valid() && !Active() && Evolves(old(ledger), ledger) && ledger.Keys == old(ledger).Keys
      ensures waited <= 10 && (outstandingIo == 0 || waited == 10)
      ensures forall i: nat :: i < waited && events(i).Completed? ==> events(i).op !in kernel
    {
      waited := 0;
      while outstandingIo > 0 && waited < 10
        decreases 10 - waited
        invariant Valid() && !Active() && Evolves(old(ledger), ledger) && ledger.Keys == old(ledger).Keys
        invariant waited <= 10
        invariant forall i: nat :: i < waited && events(i).Completed? ==> events(i).op !in kernel
      {
        Await(events(waited));
        waited := waited + 1;
      }
    }

    /** thread_main, from start to stop. The batches are whatever was submitted before each drain; turns, events and
        prepared are what the kernel and the clock bring. */
    method ThreadMain(script: seq<seq<Command>>, prepared: bool, turns: nat -> Turn, events: nat -> Event)
      requires Valid() && !Active() && kernel == map[] && ledger == map[]
      requires AllFresh(script) && script != []
      modifies this
      ensures Valid() && !Active()
      ensures ledger.Keys == AllIds(script) && AllCompleted(ledger, overran)
    {
      BeginConnect(prepared);
      var last := |script| - 1;
      assert script[..0] == [];
      for i := 0 to last
        invariant Valid() && UnderWay() && ledger.Keys == AllIds(script[..i])
      {
        AllFreshPrefix(script, i);
        Round(script[i], turns(i));
      }
      var waited := ShutdownCleanup(script[last], events);
    }
  }
}
