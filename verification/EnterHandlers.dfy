// handle_enter and on_session_gone (app/frame_router.cpp), the two jobs that put a session into the roster
// and take it out, as they run against a roster other sessions are changing at the same time.
//
// Both run under the session's execution right, so player_id belongs to whichever of them is running.
// closing does not: any thread may set it between two lines. SessionLife.dfy has all the interleavings;
// here are the handlers' own branches and the order of their effects.

module EnterHandlers {
  import opened Roster

  datatype ResultCode = OkCode | InvalidArg | Busy

  /** Reservations handed over by the session server, and the drain switch. */
  class Reservations {
    var until: map<Pid, nat>
    var draining: bool

    constructor ()
      ensures until == map[] && !draining
    {
      until, draining := map[], false;
    }

    method Add(pid: Pid, expireAt: nat)
      modifies this
      ensures until == old(until)[pid := expireAt] && draining == old(draining)
    {
      until := until[pid := expireAt];
    }

    /** A reservation is good once, whether or not it was still valid. */
    method Consume(pid: Pid, now: nat) returns (valid: bool)
      modifies `until
      ensures valid == (pid in old(until) && old(until)[pid] > now) && until == old(until) - {pid}
    {
      if pid !in until {
        assert until - {pid} == until;
        return false;
      }
      valid := until[pid] > now;
      until := until - {pid};
    }
  }

  /** What the two handlers use of a session. holds is the part of io_count the roster accounts for. */
  class GameSession {
    const id: Sid
    var playerId: Pid
    var closing: bool
    var holds: int

    constructor (id: Sid)
      ensures this.id == id && playerId == 0 && !closing && holds == 0
    {
      this.id := id;
      playerId, closing, holds := 0, false, 0;
    }

    /** Other threads may close the session at any time; nobody reopens it. */
    method MaybeClosed()
      modifies `closing
      ensures old(closing) ==> closing
    {
      var closed: bool := *;
      closing := closing || closed;
    }
  }

  predicate HasEntry(entered: Entered, s: Sid) {
    exists pid :: pid in entered && entered[pid].session == s
  }

  predicate EnteredAs(entered: Entered, pid: Pid, s: Sid) {
    pid in entered && entered[pid].session == s
  }

  /** The session's entry, if it has one, is under its own player id, and the roster holds it exactly then. */
  ghost predicate Settled(entered: Entered, s: Sid, playerId: Pid, holds: int) {
    && (forall pid :: EnteredAs(entered, pid, s) ==> pid == playerId && pid != 0)
    && holds == if EnteredAs(entered, playerId, s) then 1 else 0
  }

  /** The entries of one session. */
  function EntriesOf(entered: Entered, s: Sid): Entered {
    map pid | pid in entered && entered[pid].session == s :: entered[pid]
  }

  lemma SameEntries(a: Entered, b: Entered, s: Sid, pid: Pid)
    requires EntriesOf(a, s) == EntriesOf(b, s)
    ensures EnteredAs(a, pid, s) <==> EnteredAs(b, pid, s)
  {
    assert EnteredAs(a, pid, s) <==> pid in EntriesOf(a, s);
    assert EnteredAs(b, pid, s) <==> pid in EntriesOf(b, s);
  }

  lemma SettledStays(a: Entered, b: Entered, s: Sid, playerId: Pid, holds: int)
    requires EntriesOf(a, s) == EntriesOf(b, s) && Settled(a, s, playerId, holds)
    ensures Settled(b, s, playerId, holds)
  {
    SameEntries(a, b, s, playerId);
    forall pid | EnteredAs(b, pid, s)
      ensures pid == playerId && pid != 0
    {
      SameEntries(a, b, s, pid);
    }
  }

  /** What other sessions do to the roster meanwhile: any number of enters, leaves and moves of their own. */
  method Others(table: EntryTable, s: Sid)
    requires table.Valid()
    modifies table
    ensures table.Valid() && EntriesOf(table.entered, s) == EntriesOf(old(table.entered), s)
  {
    var n: nat := *;
    while n > 0
      invariant table.Valid() && EntriesOf(table.entered, s) == EntriesOf(old(table.entered), s)
    {
      OtherStep(table, s);
      n := n - 1;
    }
  }

  method OtherStep(table: EntryTable, s: Sid)
    requires table.Valid()
    modifies table
    ensures table.Valid() && EntriesOf(table.entered, s) == EntriesOf(old(table.entered), s)
  {
    var pid: Pid, other: Sid, zone: Zone := *, *, *;
    if other == s {
      return;
    }
    if {
      case !HasEntry(table.entered, other) =>
        var inserted := table.Enter(pid, other);
      case true =>
        var left := table.Leave(pid, other);
      case pid in table.entered && table.entered[pid].session == other =>
        var moved := table.MoveZone(pid, other, zone);
    }
  }

  /** The last branch of handle_enter: in the roster already; named, held, and out again exactly if closing
      is seen set. */
  method FinishEnter(table: EntryTable, s: GameSession, pid: Pid) returns (ghost seen: bool)
    requires table.Valid() && EnteredAs(table.entered, pid, s.id) && pid != 0 && s.holds == 0
    modifies table, s
    ensures table.Valid() && s.playerId == pid && Settled(table.entered, s.id, pid, s.holds)
    ensures EnteredAs(table.entered, pid, s.id) <==> !seen
    ensures (old(s.closing) ==> seen) && (seen ==> s.closing)
  {
    s.playerId := pid;
    ghost var was := table.entered;
    Others(table, s.id);
    SameEntries(was, table.entered, s.id, pid);
    s.holds := s.holds + 1;
    s.MaybeClosed();
    seen := s.closing;
    if s.closing {
      var r := table.Leave(pid, s.id);
      if r.ok {
        s.holds := s.holds - 1;
      }
    }
    s.MaybeClosed();
  }

  /** handle_enter. found is the roster as enter found it, at once if enter was not reached. Every refusal
      leaves the session and its entries as they were; a reservation that was asked for is used up. */
  method HandleEnter(table: EntryTable, reserved: Reservations, s: GameSession, pid: Pid, now: nat)
    returns (result: ResultCode, acked: Pid, ghost found: Entered)
    requires table.Valid() && Settled(table.entered, s.id, s.playerId, s.holds)
    modifies table, reserved, s
    ensures table.Valid() && Settled(table.entered, s.id, s.playerId, s.holds)
    ensures EntriesOf(found, s.id) == EntriesOf(old(table.entered), s.id)
    ensures result.Busy? <==> pid != 0 && old(s.playerId) == 0 && old(reserved.draining)
    ensures result.OkCode? <==> pid != 0 && old(s.playerId) == 0 && !old(reserved.draining)
                                && pid in old(reserved.until) && old(reserved.until)[pid] > now && pid !in found
    ensures !result.OkCode? ==> table.entered == found
    ensures reserved.draining == old(reserved.draining)
    ensures reserved.until == if pid != 0 && old(s.playerId) == 0 && !old(reserved.draining)
                              then old(reserved.until) - {pid} else old(reserved.until)
    ensures acked == if result.OkCode? then pid else 0
    ensures s.playerId == if result.OkCode? then pid else old(s.playerId)
    ensures result.OkCode? && old(s.closing) ==> !EnteredAs(table.entered, pid, s.id)
    ensures result.OkCode? && !s.closing ==> EnteredAs(table.entered, pid, s.id)
    ensures !result.OkCode? ==> s.holds == old(s.holds) && s.closing == old(s.closing)
  {
    found := table.entered;
    if pid == 0 {
      return InvalidArg, 0, found;
    }
    if s.playerId != 0 {
      return InvalidArg, 0, found;
    }
    if reserved.draining {
      return Busy, 0, found;
    }
    var valid := reserved.Consume(pid, now);
    if !valid {
      return InvalidArg, 0, found;
    }
    Others(table, s.id);
    SettledStays(old(table.entered), table.entered, s.id, 0, s.holds);
    NoEntryOfOurs(table.entered, s.id, s.holds);
    found := table.entered;
    var inserted := table.Enter(pid, s.id);
    if !inserted {
      return InvalidArg, 0, found;
    }
    ghost var seen := FinishEnter(table, s, pid);
    return OkCode, pid, found;
  }

  lemma NoEntryOfOurs(entered: Entered, s: Sid, holds: int)
    requires Settled(entered, s, 0, holds)
    ensures holds == 0 && forall q :: q in entered ==> entered[q].session != s
  {
    forall q | q in entered
      ensures entered[q].session != s
    {
      assert EnteredAs(entered, q, s) ==> q == 0 && q != 0;
    }
  }

  /** on_session_gone's job: whatever entry the session has goes, and its hold with it, once. */
  method OnSessionGone(table: EntryTable, s: GameSession)
    requires table.Valid() && Settled(table.entered, s.id, s.playerId, s.holds)
    modifies table, s`holds
    ensures table.Valid() && s.holds == 0 && Settled(table.entered, s.id, s.playerId, 0)
    ensures forall pid :: !EnteredAs(table.entered, pid, s.id)
  {
    Others(table, s.id);
    SettledStays(old(table.entered), table.entered, s.id, s.playerId, s.holds);
    var pid := s.playerId;
    if pid != 0 {
      var r := table.Leave(pid, s.id);
      if r.ok {
        s.holds := s.holds - 1;
      }
    }
  }
}
