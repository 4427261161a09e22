// app::EntryTable: who has entered, and which sessions are in which zone.
//
// The zone index exists so that a broadcast does not scan the roster. It has to say exactly what the roster
// says, through every enter, leave and move, with buckets kept by swap-and-pop.

module Roster {
  import opened DistinctLists

  type Pid = nat
  type Sid = nat             // a session; the source keeps its id and a pointer to it
  type Zone = nat

  datatype Entry = Entry(session: Sid, zone: Zone, inZone: bool)

  type Entered = map<Pid, Entry>
  type Index = map<Zone, seq<Sid>>

  datatype Note = Note(pid: Pid, entered: bool)

  // ---- Buckets -------------------------------------------------------------------------------------

  /** The element at i makes way for the last one. */
  function SwapPop(b: seq<Sid>, i: nat): seq<Sid>
    requires i < |b|
  {
    b[i := b[|b| - 1]][..|b| - 1]
  }

  lemma SwapPopRemoves(b: seq<Sid>, i: nat)
    requires i < |b| && Distinct(b)
    ensures Distinct(SwapPop(b, i)) && Members(SwapPop(b, i)) == Members(b) - {b[i]}
  {
    var p := SwapPop(b, i);
    forall s | s in Members(b) - {b[i]}
      ensures s in Members(p)
    {
      var k :| 0 <= k < |b| && b[k] == s;
      assert k != i;
      assert p[if k == |b| - 1 then i else k] == s;
    }
  }

  // ---- Roster and index agree ----------------------------------------------------------------------

  predicate IsIn(e: Entry, z: Zone) {
    e.inZone && e.zone == z
  }

  /** The sessions the roster has in a zone. */
  function InZone(entered: Entered, z: Zone): set<Sid> {
    set pid | pid in entered && IsIn(entered[pid], z) :: entered[pid].session
  }

  function PlayersIn(entered: Entered, z: Zone): set<Pid> {
    set pid | pid in entered && IsIn(entered[pid], z)
  }

  /** No session has entered twice. */
  ghost predicate OneEntryEach(entered: Entered) {
    forall p, q :: p in entered && q in entered && entered[p].session == entered[q].session ==> p == q
  }

  /** A zone's bucket: there iff somebody is in the zone, and then each of them in it exactly once. */
  ghost predicate BucketOk(entered: Entered, index: Index, z: Zone) {
    if z in index then index[z] != [] && Distinct(index[z]) && Members(index[z]) == InZone(entered, z)
    else InZone(entered, z) == {}
  }

  ghost predicate Agree(entered: Entered, index: Index) {
    forall z: Zone :: BucketOk(entered, index, z)
  }

  function Bucket(index: Index, z: Zone): seq<Sid> {
    if z in index then index[z] else []
  }

  /** push_back; the bucket is made if it is not there. */
  function Added(index: Index, z: Zone, s: Sid): Index {
    index[z := Bucket(index, z) + [s]]
  }

  /** A bucket that has become empty goes. */
  function Stored(index: Index, z: Zone, b: seq<Sid>): Index {
    if b == [] then index - {z} else index[z := b]
  }

  lemma InZoneWith(entered: Entered, pid: Pid, e: Entry, z: Zone)
    requires OneEntryEach(entered) && (forall q :: q in entered && q != pid ==> entered[q].session != e.session)
    requires pid in entered ==> entered[pid].session == e.session
    ensures InZone(entered[pid := e], z) == if IsIn(e, z) then InZone(entered, z) + {e.session}
                                            else InZone(entered, z) - {e.session}
  {
    var after := entered[pid := e];
    forall s | s in InZone(entered, z) && s != e.session
      ensures s in InZone(after, z)
    {
      var q :| q in entered && IsIn(entered[q], z) && entered[q].session == s;
      assert q in after && IsIn(after[q], z);
    }
    if IsIn(e, z) {
      assert pid in after && after[pid].session == e.session;
    }
  }

  lemma InZoneWithout(entered: Entered, pid: Pid, z: Zone)
    requires OneEntryEach(entered) && pid in entered
    ensures InZone(entered - {pid}, z) == InZone(entered, z) - {entered[pid].session}
  {
    var after := entered - {pid};
    forall s | s in InZone(entered, z) && s != entered[pid].session
      ensures s in InZone(after, z)
    {
      var q :| q in entered && IsIn(entered[q], z) && entered[q].session == s;
      assert q in after && IsIn(after[q], z);
    }
  }

  lemma OneMoreInZone(entered: Entered, pid: Pid, z: Zone)
    requires OneEntryEach(entered) && pid in entered && IsIn(entered[pid], z)
    ensures InZone(entered, z) == InZone(entered - {pid}, z) + {entered[pid].session}
    ensures entered[pid].session !in InZone(entered - {pid}, z)
    ensures PlayersIn(entered, z) == PlayersIn(entered - {pid}, z) + {pid} && pid !in PlayersIn(entered - {pid}, z)
  {
    InZoneWithout(entered, pid, z);
    assert entered[pid].session in InZone(entered, z);
  }

  lemma NoMoreInZone(entered: Entered, pid: Pid, z: Zone)
    requires OneEntryEach(entered) && pid in entered && !IsIn(entered[pid], z)
    ensures InZone(entered, z) == InZone(entered - {pid}, z) && PlayersIn(entered, z) == PlayersIn(entered - {pid}, z)
  {
    InZoneWithout(entered, pid, z);
    NotInZone(entered, pid, z);
  }

  /** The sessions in a zone are as many as the entries in it. */
  lemma {:induction false} OnePlayerPerSession(entered: Entered, z: Zone)
    requires OneEntryEach(entered)
    ensures |InZone(entered, z)| == |PlayersIn(entered, z)|
    decreases entered.Keys
  {
    if pid :| pid in entered {
      OnePlayerPerSession(entered - {pid}, z);
      if IsIn(entered[pid], z) {
        OneMoreInZone(entered, pid, z);
      } else {
        NoMoreInZone(entered, pid, z);
      }
    } else {
      assert InZone(entered, z) == {} && PlayersIn(entered, z) == {};
    }
  }

  lemma NotInZone(entered: Entered, pid: Pid, z: Zone)
    requires OneEntryEach(entered) && pid in entered && !IsIn(entered[pid], z)
    ensures entered[pid].session !in InZone(entered, z)
  {
  }

  // ---- The steps keep the agreement ------------------------------------------------------------------

  /** Where a session is in its bucket. */
  ghost predicate At(index: Index, z: Zone, s: Sid, i: nat) {
    z in index && i < |index[z]| && index[z][i] == s
  }

  lemma FoundInBucket(entered: Entered, index: Index, pid: Pid)
    requires Agree(entered, index) && pid in entered && entered[pid].inZone
    ensures entered[pid].zone in index && entered[pid].session in Members(index[entered[pid].zone])
  {
    var e := entered[pid];
    assert BucketOk(entered, index, e.zone);
    assert e.session in InZone(entered, e.zone);
  }

  lemma LeaveAgrees(entered: Entered, index: Index, pid: Pid, i: nat)
    requires Agree(entered, index) && OneEntryEach(entered) && pid in entered
    requires entered[pid].inZone ==> At(index, entered[pid].zone, entered[pid].session, i)
    ensures OneEntryEach(entered - {pid})
    ensures Agree(entered - {pid},
                  if entered[pid].inZone then Stored(index, entered[pid].zone, SwapPop(index[entered[pid].zone], i))
                  else index)
  {
    var e, after := entered[pid], entered - {pid};
    var index' := if e.inZone then Stored(index, e.zone, SwapPop(index[e.zone], i)) else index;
    forall z: Zone
      ensures BucketOk(after, index', z)
    {
      assert BucketOk(entered, index, z);
      InZoneWithout(entered, pid, z);
      if IsIn(e, z) {
        SwapPopRemoves(index[z], i);
        assert SwapPop(index[z], i) == [] ==> Members(SwapPop(index[z], i)) == {};
      } else {
        NotInZone(entered, pid, z);
      }
    }
  }

  lemma EnterAgrees(entered: Entered, index: Index, pid: Pid, s: Sid)
    requires Agree(entered, index) && OneEntryEach(entered) && pid !in entered
    requires forall q :: q in entered ==> entered[q].session != s
    ensures Agree(entered[pid := Entry(s, 0, false)], index) && OneEntryEach(entered[pid := Entry(s, 0, false)])
  {
    var e := Entry(s, 0, false);
    var after := entered[pid := e];
    forall z: Zone
      ensures BucketOk(after, index, z)
    {
      assert BucketOk(entered, index, z);
      InZoneWith(entered, pid, e, z);
      assert s !in InZone(entered, z);
    }
  }

  /** A move of a session that is in no bucket. */
  lemma PlaceAgrees(entered: Entered, index: Index, pid: Pid, to: Zone)
    requires Agree(entered, index) && OneEntryEach(entered) && pid in entered && !entered[pid].inZone
    ensures var e := Entry(entered[pid].session, to, true);
            Agree(entered[pid := e], Added(index, to, e.session)) && OneEntryEach(entered[pid := e])
  {
    var e := Entry(entered[pid].session, to, true);
    var after, index' := entered[pid := e], Added(index, to, e.session);
    forall z: Zone
      ensures BucketOk(after, index', z)
    {
      assert BucketOk(entered, index, z);
      InZoneWith(entered, pid, e, z);
      NotInZone(entered, pid, z);
      if z == to {
        assert Members([]) == {};
        PushAdds(Bucket(index, z), e.session);
      }
    }
  }

  /** Out of the bucket, still in the roster. */
  lemma DisplaceAgrees(entered: Entered, index: Index, pid: Pid, i: nat)
    requires Agree(entered, index) && OneEntryEach(entered) && pid in entered && entered[pid].inZone
    requires At(index, entered[pid].zone, entered[pid].session, i)
    ensures var e := entered[pid];
            var out := e.(inZone := false);
            Agree(entered[pid := out], Stored(index, e.zone, SwapPop(index[e.zone], i)))
            && OneEntryEach(entered[pid := out])
  {
    var e := entered[pid];
    var out := e.(inZone := false);
    var after, index' := entered[pid := out], Stored(index, e.zone, SwapPop(index[e.zone], i));
    forall z: Zone
      ensures BucketOk(after, index', z)
    {
      assert BucketOk(entered, index, z);
      InZoneWith(entered, pid, out, z);
      if z == e.zone {
        SwapPopRemoves(index[z], i);
        assert SwapPop(index[z], i) == [] ==> Members(SwapPop(index[z], i)) == {};
      } else {
        NotInZone(entered, pid, z);
      }
    }
  }

  datatype LeaveResult = LeaveResult(ok: bool, hadZone: bool, zone: Zone)

  datatype MoveResult = MoveResult(ok: bool, hadPrev: bool, prevZone: Zone)

  class EntryTable {
    var entered: Entered
    var zoneIndex: Index
    var notes: seq<Note>            // what the notifier has been told

    ghost predicate Valid()
      reads this
    {
      Agree(entered, zoneIndex) && OneEntryEach(entered)
    }

    constructor ()
      ensures Valid() && entered == map[] && zoneIndex == map[] && notes == []
    {
      entered, zoneIndex, notes := map[], map[], [];
      assert forall z: Zone :: InZone(map[], z) == {};
    }

    /** erase_from_bucket, for a session that is in it. */
    method EraseFromBucket(z: Zone, s: Sid) returns (ghost i: nat)
      requires z in zoneIndex && s in Members(zoneIndex[z])
      modifies `zoneIndex
      ensures At(old(zoneIndex), z, s, i) && zoneIndex == Stored(old(zoneIndex), z, SwapPop(old(zoneIndex)[z], i))
    {
      var bucket := zoneIndex[z];
      var k := 0;
      while bucket[k] != s
        invariant k < |bucket| && s !in bucket[..k]
        decreases |bucket| - k
      {
        k := k + 1;
        assert k < |bucket|;
      }
      bucket := bucket[k := bucket[|bucket| - 1]];
      bucket := bucket[..|bucket| - 1];
      i := k;
      if bucket == [] {
        zoneIndex := zoneIndex - {z};
      } else {
        zoneIndex := zoneIndex[z := bucket];
      }
    }

    /** The session has not entered under another id: its handler refuses a second Enter. */
    method Enter(pid: Pid, s: Sid) returns (inserted: bool)
      requires Valid() && forall q :: q in entered ==> entered[q].session != s
      modifies this
      ensures Valid() && inserted == (pid !in old(entered)) && zoneIndex == old(zoneIndex)
      ensures entered == if inserted then old(entered)[pid := Entry(s, 0, false)] else old(entered)
      ensures notes == old(notes) + if inserted then [Note(pid, true)] else []
    {
      inserted := pid !in entered;
      if inserted {
        EnterAgrees(entered, zoneIndex, pid, s);
        entered := entered[pid := Entry(s, 0, false)];
        notes := notes + [Note(pid, true)];
      }
    }

    /** Only the session that entered may leave. */
    method Leave(pid: Pid, s: Sid) returns (r: LeaveResult)
      requires Valid()
      modifies this
      ensures Valid() && r.ok == (pid in old(entered) && old(entered)[pid].session == s)
      ensures r.ok ==> r.hadZone == old(entered)[pid].inZone && (r.hadZone ==> r.zone == old(entered)[pid].zone)
      ensures entered == if r.ok then old(entered) - {pid} else old(entered)
      ensures notes == old(notes) + if r.ok then [Note(pid, false)] else []
      ensures !r.ok ==> zoneIndex == old(zoneIndex)
    {
      r := LeaveResult(false, false, 0);
      if pid !in entered || entered[pid].session != s {
        return;
      }
      r := LeaveResult(true, false, 0);
      ghost var i: nat := 0;
      ghost var was := zoneIndex;
      if entered[pid].inZone {
        r := LeaveResult(true, true, entered[pid].zone);
        FoundInBucket(entered, zoneIndex, pid);
        i := EraseFromBucket(entered[pid].zone, s);
      }
      LeaveAgrees(entered, was, pid, i);
      entered := entered - {pid};
      notes := notes + [Note(pid, false)];
    }

    /** The entry under the session's player id, if any, is that session's. */
    method MoveZone(pid: Pid, s: Sid, to: Zone) returns (r: MoveResult)
      requires Valid() && (pid in entered ==> entered[pid].session == s)
      modifies `entered, `zoneIndex
      ensures Valid() && r.ok == (pid in old(entered))
      ensures entered == if r.ok then old(entered)[pid := Entry(s, to, true)] else old(entered)
      ensures r.ok ==> r.hadPrev == old(entered)[pid].inZone && (r.hadPrev ==> r.prevZone == old(entered)[pid].zone)
      ensures !r.ok ==> zoneIndex == old(zoneIndex)
    {
      r := MoveResult(false, false, 0);
      if pid !in entered {
        return;
      }
      var e := entered[pid];
      r := MoveResult(true, false, 0);
      if e.inZone {
        r := MoveResult(true, true, e.zone);
        FoundInBucket(entered, zoneIndex, pid);
        ghost var was := zoneIndex;
        ghost var i := EraseFromBucket(e.zone, s);
        DisplaceAgrees(entered, was, pid, i);
        entered := entered[pid := e.(inZone := false)];
      }
      PlaceAgrees(entered, zoneIndex, pid, to);
      zoneIndex := zoneIndex[to := (if to in zoneIndex then zoneIndex[to] else []) + [s]];
      entered := entered[pid := Entry(s, to, true)];
    }

    /** zone_size, from the index, is the number of entries in the zone. */
    method ZoneSize(z: Zone) returns (n: nat)
      requires Valid()
      ensures n == |PlayersIn(entered, z)|
    {
      assert BucketOk(entered, zoneIndex, z);
      OnePlayerPerSession(entered, z);
      if z !in zoneIndex {
        return 0;
      }
      DistinctSize(zoneIndex[z]);
      return |zoneIndex[z]|;
    }

    /** snapshot_zone: each session in the zone once, and nobody else. */
    method SnapshotZone(z: Zone) returns (out: seq<Sid>)
      requires Valid()
      ensures Distinct(out) && Members(out) == InZone(entered, z)
    {
      assert BucketOk(entered, zoneIndex, z);
      if z !in zoneIndex {
        return [];
      }
      out := [];
      for i := 0 to |zoneIndex[z]|
        invariant out == zoneIndex[z][..i]
      {
        out := out + [zoneIndex[z][i]];
      }
      assert out == zoneIndex[z];
    }
  }
}
