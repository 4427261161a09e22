// Replication of a village's entered players to the session server's connection table.
//
// The village sends PlayerEnter and PlayerLeave from inside the roster's critical sections and, after
// every Register, the whole set as FullSync chunks, cut while the roster is locked. The session server
// applies what arrives, in order, to a table it shares between all villages.

/** encode_full_sync and decode_full_sync (proto/s2s_packet.h). */
module FullSyncCodec {
  import opened Wire
  import opened Wrappers

  const SERVER_RECV_BODY_CAP: nat := 4092
  const MAX_PER_CHUNK: nat := (SERVER_RECV_BODY_CAP - 6) / 8

  datatype FullSync = FullSync(chunkIdx: nat, chunkTotal: nat, ids: seq<nat>)

  ghost predicate Fits(m: FullSync) {
    m.chunkIdx < U16 && m.chunkTotal < U16 && |m.ids| < U16 && forall i :: 0 <= i < |m.ids| ==> m.ids[i] < U64
  }

  /** The first n ids on the wire. */
  function IdBytes(ids: seq<nat>, n: nat): (bytes: seq<Byte>)
    requires n <= |ids|
    ensures |bytes| == 8 * n
  {
    if n == 0 then [] else IdBytes(ids, n - 1) + ToBytes(ids[n - 1], 8)
  }

  /** The n-th group of eight bytes. */
  function IdAt(bytes: seq<Byte>, n: nat): seq<Byte>
    requires 8 * n + 8 <= |bytes|
  {
    bytes[8 * n..8 * n + 8]
  }

  function IdsOf(bytes: seq<Byte>, n: nat): (ids: seq<nat>)
    requires 8 * n <= |bytes|
    ensures |ids| == n
  {
    if n == 0 then [] else IdsOf(bytes, n - 1) + [FromBytes(IdAt(bytes, n - 1))]
  }

  function Encoded(m: FullSync): seq<Byte> {
    ToBytes(m.chunkIdx, 2) + ToBytes(m.chunkTotal, 2) + ToBytes(|m.ids|, 2) + IdBytes(m.ids, |m.ids|)
  }

  function Decoded(data: seq<Byte>): Option<FullSync> {
    if |data| < 6 then None
    else if 6 + 8 * FromBytes(data[4..6]) != |data| then None
    else Some(FullSync(FromBytes(data[..2]), FromBytes(data[2..4]), IdsOf(data[6..], FromBytes(data[4..6]))))
  }

  lemma EightReadBack(n: nat)
    requires n < U64
    ensures FromBytes(ToBytes(n, 8)) == n
  {
    Widths();
    ReadsBack(n, 8);
  }

  lemma TwoReadBack(n: nat)
    requires n < U16
    ensures FromBytes(ToBytes(n, 2)) == n
  {
    Widths();
    ReadsBack(n, 2);
  }

  lemma {:induction false} IdBytesAt(ids: seq<nat>, n: nat, i: nat)
    requires i < n <= |ids|
    ensures IdAt(IdBytes(ids, n), i) == ToBytes(ids[i], 8)
  {
    if i < n - 1 {
      IdBytesAt(ids, n - 1, i);
      assert IdAt(IdBytes(ids, n), i) == IdAt(IdBytes(ids, n - 1), i);
    }
  }

  lemma {:induction false} IdsReadBack(ids: seq<nat>, n: nat)
    requires n <= |ids| && forall i :: 0 <= i < |ids| ==> ids[i] < U64
    ensures IdsOf(IdBytes(ids, |ids|), n) == ids[..n]
  {
    if n > 0 {
      IdsReadBack(ids, n - 1);
      IdBytesAt(ids, |ids|, n - 1);
      EightReadBack(ids[n - 1]);
      assert ids[..n] == ids[..n - 1] + [ids[n - 1]];
    }
  }

  lemma {:induction false} IdsWriteBack(bytes: seq<Byte>, n: nat)
    requires 8 * n <= |bytes|
    ensures forall i :: 0 <= i < n ==> IdsOf(bytes, n)[i] < U64
    ensures IdBytes(IdsOf(bytes, n), n) == bytes[..8 * n]
  {
    if n > 0 {
      IdsWriteBack(bytes, n - 1);
      Widths();
      WritesBack(IdAt(bytes, n - 1));
      PrefixBytes(IdsOf(bytes, n - 1), FromBytes(IdAt(bytes, n - 1)), n - 1);
      assert bytes[..8 * n] == bytes[..8 * (n - 1)] + IdAt(bytes, n - 1);
    }
  }

  lemma {:induction false} PrefixBytes(ids: seq<nat>, more: nat, n: nat)
    requires n <= |ids|
    ensures IdBytes(ids + [more], n) == IdBytes(ids, n)
  {
    if n > 0 {
      PrefixBytes(ids, more, n - 1);
    }
  }

  /** A chunk is read back as it was sent. */
  lemma DecodeEncode(m: FullSync)
    requires Fits(m)
    ensures Decoded(Encoded(m)) == Some(m)
  {
    var data := Encoded(m);
    TwoReadBack(m.chunkIdx);
    TwoReadBack(m.chunkTotal);
    TwoReadBack(|m.ids|);
    IdsReadBack(m.ids, |m.ids|);
    assert m.ids[..|m.ids|] == m.ids;
    assert data[..2] == ToBytes(m.chunkIdx, 2) && data[2..4] == ToBytes(m.chunkTotal, 2);
    assert data[4..6] == ToBytes(|m.ids|, 2) && data[6..] == IdBytes(m.ids, |m.ids|);
  }

  /** What is accepted is the encoding of what it is read as: no two bodies mean the same chunk. */
  lemma EncodeDecode(data: seq<Byte>)
    requires Decoded(data).Some?
    ensures Fits(Decoded(data).value) && Encoded(Decoded(data).value) == data
  {
    var count := FromBytes(data[4..6]);
    TwoWriteBack(data[..2]);
    TwoWriteBack(data[2..4]);
    TwoWriteBack(data[4..6]);
    IdsWriteBack(data[6..], count);
    assert data[6..][..8 * count] == data[6..];
    Fields(data);
  }

  lemma Fields(data: seq<Byte>)
    requires |data| >= 6
    ensures data[..2] + data[2..4] + data[4..6] + data[6..] == data
  {
  }

  lemma TwoWriteBack(bytes: seq<Byte>)
    requires |bytes| == 2
    ensures FromBytes(bytes) < U16 && ToBytes(FromBytes(bytes), 2) == bytes
  {
    Widths();
    WritesBack(bytes);
  }

  /** A full chunk still fits the session server's receive cap, and one more player would not. */
  lemma ChunkFitsCap(m: FullSync)
    requires |m.ids| < U16
    ensures |Encoded(m)| <= SERVER_RECV_BODY_CAP <==> |m.ids| <= MAX_PER_CHUNK
    ensures |Encoded(m)| <= 4092 <==> |m.ids| <= 510
  {
  }

  method WriteHead(body: array<Byte>, m: FullSync)
    requires Fits(m) && body.Length >= 6
    modifies body
    ensures body[..6] == ToBytes(m.chunkIdx, 2) + ToBytes(m.chunkTotal, 2) + ToBytes(|m.ids|, 2)
  {
    assert body[..0] == [];
    WriteU16(body, 0, m.chunkIdx);
    WriteU16(body, 2, m.chunkTotal);
    WriteU16(body, 4, |m.ids|);
  }

  method WriteIds(body: array<Byte>, ids: seq<nat>)
    requires body.Length == 6 + |ids| * 8 && forall i :: 0 <= i < |ids| ==> ids[i] < U64
    modifies body
    ensures body[..] == old(body[..6]) + IdBytes(ids, |ids|)
  {
    ghost var done := body[..6];
    ghost var head := done;
    for i := 0 to |ids|
      invariant done == head + IdBytes(ids, i) && body[..6 + 8 * i] == done
    {
      WriteU64(body, 6 + i * 8, ids[i]);
      assert 6 + 8 * (i + 1) == 6 + i * 8 + 8;
      done := done + ToBytes(ids[i], 8);
    }
    assert body[..6 + 8 * |ids|] == body[..];
  }

  method Encode(m: FullSync) returns (body: array<Byte>)
    requires Fits(m) && |m.ids| <= MAX_PER_CHUNK
    ensures fresh(body) && body[..] == Encoded(m)
  {
    body := new Byte[6 + |m.ids| * 8](_ => 0);
    WriteHead(body, m);
    WriteIds(body, m.ids);
  }

  /** Where the fields of an accepted body are: three 16-bit numbers, most significant byte first, then the ids. */
  lemma DecodedLayout(data: seq<Byte>)
    ensures Decoded(data).Some?
       <==> |data| >= 6 && |data| == 6 + 8 * (256 * data[4] as nat + data[5])
    ensures Decoded(data).Some? ==>
              var m := Decoded(data).value;
              && m.chunkIdx == 256 * data[0] as nat + data[1] && m.chunkTotal == 256 * data[2] as nat + data[3]
              && |m.ids| == 256 * data[4] as nat + data[5]
    ensures Decoded(data).Some? ==>
              forall i :: 0 <= i < |Decoded(data).value.ids| ==>
                Decoded(data).value.ids[i] == FromBytes(data[6 + 8 * i..14 + 8 * i])
  {
    if |data| >= 6 {
      Unfold(data[..2]);
      Unfold(data[2..4]);
      Unfold(data[4..6]);
      if Decoded(data).Some? {
        var count := FromBytes(data[4..6]);
        forall i: nat | i < count
          ensures Decoded(data).value.ids[i] == FromBytes(data[6 + 8 * i..14 + 8 * i])
        {
          IdOfGroup(data[6..], count, i);
          assert IdAt(data[6..], i) == data[6 + 8 * i..14 + 8 * i];
        }
      }
    }
  }

  lemma {:induction false} IdOfGroup(bytes: seq<Byte>, n: nat, i: nat)
    requires i < n && 8 * n <= |bytes|
    ensures IdsOf(bytes, n)[i] == FromBytes(IdAt(bytes, i))
  {
    if i < n - 1 {
      IdOfGroup(bytes, n - 1, i);
    }
  }

  method Decode(data: seq<Byte>) returns (r: Option<FullSync>)
    ensures r == Decoded(data)
    ensures r.Some? <==> |data| >= 6 && |data| == 6 + 8 * (256 * data[4] as nat + data[5])
    ensures r.Some? ==> r.value.chunkIdx == 256 * data[0] as nat + data[1]
                        && r.value.chunkTotal == 256 * data[2] as nat + data[3]
  {
    DecodedLayout(data);
    if |data| < 6 {
      return None;
    }
    var chunkIdx := ReadU16(data[..2]);
    var chunkTotal := ReadU16(data[2..4]);
    var count := ReadU16(data[4..6]);
    if 6 + count * 8 != |data| {
      return None;
    }
    var ids := [];
    var rest := data[6..];
    for i := 0 to count
      invariant ids == IdsOf(rest, i)
    {
      ids := ids + [ReadU64(IdAt(rest, i))];
    }
    return Some(FullSync(chunkIdx, chunkTotal, ids));
  }
}

/** The connection table of session::Registry: which server each player is on. */
module ConnectionTable {
  type Pid = nat
  type ServerId = nat
  type Table = map<Pid, ServerId>

  function Owned(t: Table, server: ServerId): set<Pid> {
    set pid | pid in t && t[pid] == server
  }

  function Without(t: Table, server: ServerId): Table {
    map pid | pid in t && t[pid] != server :: t[pid]
  }

  predicate Conflict(t: Table, server: ServerId, pid: Pid) {
    pid in t && t[pid] != server
  }

  /** The first n ids claimed for the server, except those somebody else owns. */
  function Claim(t: Table, server: ServerId, ids: seq<Pid>, n: nat): Table
    requires n <= |ids|
  {
    if n == 0 then t
    else if Conflict(t, server, ids[n - 1]) then Claim(t, server, ids, n - 1)
    else Claim(t, server, ids, n - 1)[ids[n - 1] := server]
  }

  /** Claiming changes nothing but the claimed players, and never takes a player from another server. */
  lemma {:induction false} ClaimMeans(t: Table, server: ServerId, ids: seq<Pid>, n: nat)
    requires n <= |ids|
    ensures forall pid :: pid in Claim(t, server, ids, n) <==> pid in t || pid in ids[..n]
    ensures forall pid :: pid in t && t[pid] != server ==> Claim(t, server, ids, n)[pid] == t[pid]
    ensures forall pid :: pid in t && t[pid] == server ==> Claim(t, server, ids, n)[pid] == server
    ensures forall pid :: pid in ids[..n] && pid !in t ==> Claim(t, server, ids, n)[pid] == server
    ensures forall pid :: Conflict(Claim(t, server, ids, n), server, pid) <==> Conflict(t, server, pid)
  {
    if n > 0 {
      ClaimMeans(t, server, ids, n - 1);
      assert ids[..n] == ids[..n - 1] + [ids[n - 1]];
    }
  }

  /** full_sync_replace: the first chunk clears the server's own entries; nobody else's are overwritten. */
  function Replaced(t: Table, server: ServerId, firstChunk: bool, ids: seq<Pid>): Table {
    Claim(if firstChunk then Without(t, server) else t, server, ids, |ids|)
  }

  /** Those of the first n ids that somebody else owns, in order. */
  function Conflicts(t: Table, server: ServerId, ids: seq<Pid>, n: nat): seq<Pid>
    requires n <= |ids|
  {
    if n == 0 then []
    else Conflicts(t, server, ids, n - 1) + if Conflict(t, server, ids[n - 1]) then [ids[n - 1]] else []
  }

  lemma {:induction false} ConflictsMean(t: Table, server: ServerId, ids: seq<Pid>, n: nat)
    requires n <= |ids|
    ensures forall pid :: pid in Conflicts(t, server, ids, n) <==> pid in ids[..n] && pid in t && t[pid] != server
  {
    if n > 0 {
      ConflictsMean(t, server, ids, n - 1);
      assert ids[..n] == ids[..n - 1] + [ids[n - 1]];
    }
  }

  /** How many of the first n ids the server already has when their turn comes. */
  function Reclaims(t: Table, server: ServerId, ids: seq<Pid>, n: nat): nat
    requires n <= |ids|
  {
    if n == 0 then 0
    else Reclaims(t, server, ids, n - 1)
         + (if ids[n - 1] in Owned(Claim(t, server, ids, n - 1), server) then 1 else 0)
  }

  /** Each of the first n ids that nobody else has is new to the server, also among these ids. */
  ghost predicate ClaimsAnew(t: Table, server: ServerId, ids: seq<Pid>, n: nat)
    requires n <= |ids|
  {
    forall i :: 0 <= i < n && !Conflict(t, server, ids[i]) ==> ids[i] !in Owned(t, server) && ids[i] !in ids[..i]
  }

  lemma {:induction false} ReclaimsNothingIff(t: Table, server: ServerId, ids: seq<Pid>, n: nat)
    requires n <= |ids|
    ensures Reclaims(t, server, ids, n) == 0 <==> ClaimsAnew(t, server, ids, n)
  {
    if n > 0 {
      ReclaimsNothingIff(t, server, ids, n - 1);
      ClaimMeans(t, server, ids, n - 1);
    }
  }

  class Connections {
    var table: Table
    var added: nat
    var removed: nat
    var overwritten: nat     // not counted by the source: player_entered over an existing entry, and re-claims

    constructor ()
      ensures table == map[] && added == removed == overwritten == 0
    {
      table, added, removed, overwritten := map[], 0, 0, 0;
    }

    /** The counters' balance; without the overwrites it would not hold. */
    ghost predicate Balanced()
      reads this
    {
      added == removed + overwritten + |table|
    }

    /** The balance registry.h promises. */
    ghost predicate BalancedAsPromised()
      reads this
    {
      added == removed + |table|
    }

    method PlayerEntered(pid: Pid, server: ServerId)
      requires Balanced()
      modifies this
      ensures Balanced() && table == old(table)[pid := server]
      ensures added == old(added) + 1 && removed == old(removed)
      ensures overwritten == old(overwritten) + if pid in old(table) then 1 else 0
      ensures BalancedAsPromised() <==> old(BalancedAsPromised()) && pid !in old(table)
    {
      if pid in table {
        overwritten := overwritten + 1;
      }
      table := table[pid := server];
      added := added + 1;
    }

    method Erase(pid: Pid)
      requires Balanced() && pid in table
      modifies this
      ensures Balanced() && table == old(table) - {pid}
      ensures added == old(added) && removed == old(removed) + 1 && overwritten == old(overwritten)
    {
      RemoveOne(table, pid);
      table := table - {pid};
      removed := removed + 1;
    }

    method PlayerLeft(pid: Pid, server: ServerId) returns (found: bool)
      requires Balanced()
      modifies this
      ensures Balanced() && found == (pid in old(table) && old(table)[pid] == server)
      ensures table == (if found then old(table) - {pid} else old(table))
      ensures added == old(added) && removed == old(removed) + if found then 1 else 0
      ensures BalancedAsPromised() <==> old(BalancedAsPromised())
    {
      if pid !in table || table[pid] != server {
        return false;
      }
      Erase(pid);
      return true;
    }

    /** drop_server_connections, and the first half of full_sync_replace. */
    method DropServer(server: ServerId) returns (count: nat)
      requires Balanced()
      modifies this
      ensures Balanced() && table == Without(old(table), server) && count == |Owned(old(table), server)|
      ensures removed == old(removed) + count && added == old(added) && overwritten == old(overwritten)
      ensures BalancedAsPromised() <==> old(BalancedAsPromised())
    {
      count := 0;
      var left := table.Keys;
      ghost var was, gone: set<Pid> := table, {};
      while left != {}
        invariant Balanced() && added == old(added) && removed == old(removed) + count && count == |gone|
        invariant overwritten == old(overwritten)
        invariant left <= was.Keys && table == was - gone && gone <= Owned(was, server) && gone !! left
        invariant forall pid :: pid in Owned(was, server) && pid !in left ==> pid in gone
        decreases left
      {
        var pid :| pid in left;
        left := left - {pid};
        if table[pid] == server {
          Erase(pid);
          count := count + 1;
          gone := gone + {pid};
        }
      }
      assert gone == Owned(was, server);
    }

    /** The second half of full_sync_replace. */
    method ClaimAll(server: ServerId, ids: seq<Pid>) returns (conflicts: seq<Pid>)
      requires Balanced()
      modifies this
      ensures Balanced() && table == Claim(old(table), server, ids, |ids|)
      ensures conflicts == Conflicts(old(table), server, ids, |ids|)
      ensures overwritten == old(overwritten) + Reclaims(old(table), server, ids, |ids|)
    {
      conflicts := [];
      for i := 0 to |ids|
        invariant Balanced() && table == Claim(old(table), server, ids, i)
        invariant conflicts == Conflicts(old(table), server, ids, i)
        invariant overwritten == old(overwritten) + Reclaims(old(table), server, ids, i)
      {
        var pid := ids[i];
        ClaimMeans(old(table), server, ids, i);
        if pid in table && table[pid] != server {
          conflicts := conflicts + [pid];
        } else {
          PlayerEntered(pid, server);
        }
      }
    }

    method FullSyncReplace(server: ServerId, firstChunk: bool, ids: seq<Pid>) returns (conflicts: seq<Pid>)
      requires Balanced()
      modifies this
      ensures Balanced() && table == Replaced(old(table), server, firstChunk, ids)
      ensures conflicts == Conflicts(old(table), server, ids, |ids|)
      ensures forall pid :: pid in conflicts <==> pid in ids && pid in old(table) && old(table)[pid] != server
      ensures var base := if firstChunk then Without(old(table), server) else old(table);
              && overwritten == old(overwritten) + Reclaims(base, server, ids, |ids|)
              && (BalancedAsPromised() <==> old(BalancedAsPromised()) && ClaimsAnew(base, server, ids, |ids|))
    {
      if firstChunk {
        var dropped := DropServer(server);
      }
      SameConflicts(old(table), table, server, ids, |ids|);
      ReclaimsNothingIff(table, server, ids, |ids|);
      ConflictsMean(old(table), server, ids, |ids|);
      conflicts := ClaimAll(server, ids);
    }
  }

  /** A player who enters a second village before the first one's PlayerLeave has arrived: two added, none removed,
      one left. */
  method EnteredTwice() returns (c: Connections)
    ensures fresh(c) && c.table == map[7 := 2] && c.added == 2 && c.removed == 0
    ensures !c.BalancedAsPromised()
  {
    c := new Connections();
    c.PlayerEntered(7, 1);
    c.PlayerEntered(7, 2);
  }

  lemma RemoveOne(t: Table, pid: Pid)
    requires pid in t
    ensures |t - {pid}| == |t| - 1
  {
    assert (t - {pid}).Keys == t.Keys - {pid};
  }

  lemma {:induction false} SameConflicts(t: Table, u: Table, server: ServerId, ids: seq<Pid>, n: nat)
    requires n <= |ids| && forall pid :: Conflict(t, server, pid) <==> Conflict(u, server, pid)
    ensures Conflicts(t, server, ids, n) == Conflicts(u, server, ids, n)
  {
    if n > 0 {
      SameConflicts(t, u, server, ids, n - 1);
    }
  }
}

/** Cutting the roster snapshot into chunks (S2sLink::send_full_sync) and what applying them does. */
module FullSyncChunks {
  import opened ConnectionTable
  import opened DistinctLists
  import opened Products
  import FullSyncCodec

  datatype Msg =
    | Entered(pid: Pid)
    | Left(pid: Pid)
    | Chunk(idx: nat, total: nat, ids: seq<Pid>)

  const INDEXES: nat := 0x1_0000          // chunk_idx and chunk_total are 16 bits wide

  /** The configured maximum may only lower the limit the receive buffer sets. */
  function EffectiveMax(configured: nat): (max: nat)
    ensures 0 < max <= FullSyncCodec.MAX_PER_CHUNK
    ensures 0 < configured <= FullSyncCodec.MAX_PER_CHUNK ==> max == configured
    ensures configured == 0 || configured > FullSyncCodec.MAX_PER_CHUNK ==> max == FullSyncCodec.MAX_PER_CHUNK
  {
    if configured == 0 || configured > FullSyncCodec.MAX_PER_CHUNK then FullSyncCodec.MAX_PER_CHUNK else configured
  }

  /** An empty roster still sends one chunk. */
  function Total(n: nat, max: nat): (total: nat)
    requires max > 0
    ensures total > 0
  {
    if n == 0 then 1 else (n + max - 1) / max
  }

  function End(n: nat, max: nat, i: nat): (end: nat)
    ensures end <= n
  {
    if i * max <= n then i * max else n
  }

  function ChunkAt(ids: seq<Pid>, max: nat, i: nat): Msg
    requires max > 0 && i < Total(|ids|, max)
  {
    StartsInside(|ids|, max, i);
    Chunk(i % INDEXES, Total(|ids|, max) % INDEXES, ids[i * max..End(|ids|, max, i + 1)])
  }

  /** The first n chunks. */
  function Chunks(ids: seq<Pid>, max: nat, n: nat): (chunks: seq<Msg>)
    requires max > 0 && n <= Total(|ids|, max)
    ensures |chunks| == n
  {
    if n == 0 then [] else Chunks(ids, max, n - 1) + [ChunkAt(ids, max, n - 1)]
  }

  lemma {:induction false} AllAreChunks(ids: seq<Pid>, max: nat, n: nat)
    requires max > 0 && n <= Total(|ids|, max)
    ensures forall i :: 0 <= i < n ==> Chunks(ids, max, n)[i].Chunk?
  {
    if n > 0 {
      AllAreChunks(ids, max, n - 1);
    }
  }

  lemma StartsInside(n: nat, max: nat, i: nat)
    requires max > 0 && i < Total(n, max)
    ensures i * max <= End(n, max, i + 1) && (n > 0 ==> i * max < n)
  {
    if n > 0 {
      var total := Total(n, max);
      assert (total - 1) * max < n by {
        assert total * max <= n + max - 1;
        assert total * max == (total - 1) * max + max;
      }
      ProductMonotone(i, total - 1, max);
    }
    assert (i + 1) * max == i * max + max;
  }

  lemma LastEndsAtEnd(n: nat, max: nat)
    requires max > 0
    ensures End(n, max, Total(n, max)) == n
  {
    var total := Total(n, max);
    if n > 0 {
      var q, r := (n + max - 1) / max, (n + max - 1) % max;
      assert q * max + r == n + max - 1;
      assert total * max >= n;
    }
  }

  /** The ids of the first n chunks, one after the other. */
  function Joined(chunks: seq<Msg>, n: nat): seq<Pid>
    requires n <= |chunks|
  {
    if n == 0 then []
    else Joined(chunks, n - 1) + match chunks[n - 1] case Chunk(_, _, ids) => ids case _ => []
  }

  lemma {:induction false} JoinedPrefix(chunks: seq<Msg>, more: seq<Msg>, n: nat)
    requires n <= |chunks|
    ensures Joined(chunks + more, n) == Joined(chunks, n)
  {
    if n > 0 {
      JoinedPrefix(chunks, more, n - 1);
    }
  }

  lemma {:induction false} ChunksJoin(ids: seq<Pid>, max: nat, n: nat)
    requires max > 0 && n <= Total(|ids|, max)
    ensures Joined(Chunks(ids, max, n), n) == ids[..End(|ids|, max, n)]
  {
    if n > 0 {
      ChunksJoin(ids, max, n - 1);
      JoinedPrefix(Chunks(ids, max, n - 1), [ChunkAt(ids, max, n - 1)], n - 1);
      StartsInside(|ids|, max, n - 1);
      assert (n - 1) * max == End(|ids|, max, n - 1);
    }
  }

  lemma {:induction false} ChunkIs(ids: seq<Pid>, max: nat, n: nat, i: nat)
    requires max > 0 && i < n <= Total(|ids|, max)
    ensures Chunks(ids, max, n)[i] == ChunkAt(ids, max, i)
  {
    if i < n - 1 {
      ChunkIs(ids, max, n - 1, i);
    }
  }

  lemma IsCut(ids: seq<Pid>, max: nat, i: nat)
    requires max > 0 && i < Total(|ids|, max)
    ensures var m := ChunkAt(ids, max, i);
            && m.idx == i % 0x1_0000 && m.total == Total(|ids|, max) % 0x1_0000 && |m.ids| <= max
            && (i + 1 < Total(|ids|, max) ==> |m.ids| == max) && (|ids| > 0 ==> m.ids != [])
  {
    StartsInside(|ids|, max, i);
    assert (i + 1) * max == i * max + max;
    if i + 1 < Total(|ids|, max) {
      StartsInside(|ids|, max, i + 1);
    }
  }

  /** How a snapshot is cut: in order and completely, every chunk full but the last, numbered from 0 in 16 bits. */
  lemma ChunksAreTheSnapshot(ids: seq<Pid>, max: nat)
    requires max > 0
    ensures var total := Total(|ids|, max); var chunks := Chunks(ids, max, total);
            && Joined(chunks, total) == ids
            && (if ids == [] then total == 1 else (total - 1) * max < |ids| <= total * max)
            && forall i :: 0 <= i < total ==>
                 chunks[i].Chunk? && chunks[i].idx == i % 0x1_0000 && chunks[i].total == total % 0x1_0000
                 && |chunks[i].ids| <= max && (i + 1 < total ==> |chunks[i].ids| == max)
  {
    var total := Total(|ids|, max);
    ChunksJoin(ids, max, total);
    LastEndsAtEnd(|ids|, max);
    StartsInside(|ids|, max, total - 1);
    forall i: nat | i < total
      ensures Chunks(ids, max, total)[i] == ChunkAt(ids, max, i)
    {
      ChunkIs(ids, max, total, i);
    }
    forall i: nat | i < total
      ensures var m := ChunkAt(ids, max, i);
              && m.idx == i % 0x1_0000 && m.total == total % 0x1_0000
              && |m.ids| <= max && (i + 1 < total ==> |m.ids| == max)
    {
      IsCut(ids, max, i);
    }
  }

  // ---- What messages do ----------------------------------------------------------------------------

  function Apply(t: Table, me: ServerId, m: Msg): Table {
    match m
    case Entered(pid) => t[pid := me]
    case Left(pid) => if pid in t && t[pid] == me then t - {pid} else t
    case Chunk(idx, _, ids) => Replaced(t, me, idx == 0, ids)
  }

  /** The table after the first n messages. */
  function Replay(t: Table, me: ServerId, ch: seq<Msg>, n: nat): Table
    requires n <= |ch|
  {
    if n == 0 then t else Apply(Replay(t, me, ch, n - 1), me, ch[n - 1])
  }

  /** No other server has one of these players. */
  predicate Uncontested(t: Table, me: ServerId, ours: set<Pid>) {
    forall pid :: pid in ours && pid in t ==> t[pid] == me
  }

  function Players(m: Msg): set<Pid> {
    match m
    case Entered(pid) => {pid}
    case Left(pid) => {pid}
    case Chunk(_, _, ids) => set pid | pid in ids
  }

  /** What a message does to the set of this server's players. */
  function Effect(s: set<Pid>, m: Msg): set<Pid> {
    match m
    case Entered(pid) => s + {pid}
    case Left(pid) => s - {pid}
    case Chunk(idx, _, _) => (if idx == 0 then {} else s) + Players(m)
  }

  function EffectAll(s: set<Pid>, ch: seq<Msg>, n: nat): set<Pid>
    requires n <= |ch|
  {
    if n == 0 then s else Effect(EffectAll(s, ch, n - 1), ch[n - 1])
  }

  lemma ApplyIsEffect(t: Table, me: ServerId, m: Msg, ours: set<Pid>)
    requires Uncontested(t, me, ours) && Players(m) <= ours
    ensures Uncontested(Apply(t, me, m), me, ours)
    ensures Owned(Apply(t, me, m), me) == Effect(Owned(t, me), m)
  {
    if m.Chunk? {
      var base := if m.idx == 0 then Without(t, me) else t;
      ClaimMeans(base, me, m.ids, |m.ids|);
      assert m.ids[..|m.ids|] == m.ids;
      assert forall pid :: pid in m.ids ==> pid in Players(m);
    }
  }

  lemma {:induction false} ReplayIsEffect(t: Table, me: ServerId, ch: seq<Msg>, n: nat, ours: set<Pid>)
    requires n <= |ch| && Uncontested(t, me, ours)
    requires forall i :: 0 <= i < |ch| ==> Players(ch[i]) <= ours
    ensures Uncontested(Replay(t, me, ch, n), me, ours)
    ensures Owned(Replay(t, me, ch, n), me) == EffectAll(Owned(t, me), ch, n)
  {
    if n > 0 {
      ReplayIsEffect(t, me, ch, n - 1, ours);
      ApplyIsEffect(Replay(t, me, ch, n - 1), me, ch[n - 1], ours);
    }
  }

  // ---- What becomes of one player, whoever has it ----------------------------------------------------

  /** The message decides whether the server has this player, unless somebody else does. */
  predicate Settles(m: Msg, pid: Pid) {
    match m
    case Entered(p) => p == pid
    case Left(p) => p == pid
    case Chunk(idx, _, ids) => idx == 0 || pid in ids
  }

  predicate Brings(m: Msg, pid: Pid) {
    match m
    case Entered(p) => p == pid
    case Left(_) => false
    case Chunk(_, _, ids) => pid in ids
  }

  /** The last of the first n messages to settle this player brings it. */
  ghost predicate BroughtLast(ch: seq<Msg>, n: nat, pid: Pid)
    requires n <= |ch|
  {
    exists i :: 0 <= i < n && Brings(ch[i], pid) && forall j :: i < j < n ==> !Settles(ch[j], pid)
  }

  ghost predicate Untouched(ch: seq<Msg>, n: nat, pid: Pid)
    requires n <= |ch|
  {
    forall i :: 0 <= i < n ==> !Settles(ch[i], pid)
  }

  /** Only a PlayerEnter takes a player from somebody else. */
  ghost predicate Winnable(t: Table, me: ServerId, ch: seq<Msg>, n: nat, pid: Pid)
    requires n <= |ch|
  {
    Conflict(t, me, pid) ==> exists i :: 0 <= i < n && ch[i] == Entered(pid)
  }

  /** Read off the table and the messages: the server has this player after the first n of them. */
  ghost predicate EndsUpMine(t: Table, me: ServerId, ch: seq<Msg>, n: nat, pid: Pid)
    requires n <= |ch|
  {
    Winnable(t, me, ch, n, pid) && (BroughtLast(ch, n, pid) || (Untouched(ch, n, pid) && pid in Owned(t, me)))
  }

  lemma ApplyMeans(t: Table, me: ServerId, m: Msg, pid: Pid)
    ensures Conflict(Apply(t, me, m), me, pid) <==> Conflict(t, me, pid) && m != Entered(pid)
    ensures pid in Owned(Apply(t, me, m), me) <==>
              !Conflict(Apply(t, me, m), me, pid)
              && (Brings(m, pid) || (!Settles(m, pid) && pid in Owned(t, me)))
  {
    if m.Chunk? {
      ClaimMeans(if m.idx == 0 then Without(t, me) else t, me, m.ids, |m.ids|);
      assert m.ids[..|m.ids|] == m.ids;
    }
  }

  lemma OneMoreMessage(ch: seq<Msg>, n: nat, pid: Pid)
    requires n < |ch|
    ensures Untouched(ch, n + 1, pid) <==> Untouched(ch, n, pid) && !Settles(ch[n], pid)
    ensures BroughtLast(ch, n + 1, pid) <==> Brings(ch[n], pid) || (BroughtLast(ch, n, pid) && !Settles(ch[n], pid))
  {
    if BroughtLast(ch, n, pid) && !Settles(ch[n], pid) {
      var i :| 0 <= i < n && Brings(ch[i], pid) && forall j :: i < j < n ==> !Settles(ch[j], pid);
      assert forall j :: i < j < n + 1 ==> !Settles(ch[j], pid);
    }
  }

  /** Replaying decides each player by the last message about it, and leaves those that others have alone. */
  lemma {:induction false} ReplayMeans(t: Table, me: ServerId, ch: seq<Msg>, n: nat, pid: Pid)
    requires n <= |ch|
    ensures Conflict(Replay(t, me, ch, n), me, pid) <==> !Winnable(t, me, ch, n, pid)
    ensures pid in Owned(Replay(t, me, ch, n), me) <==> EndsUpMine(t, me, ch, n, pid)
  {
    if n > 0 {
      ReplayMeans(t, me, ch, n - 1, pid);
      ApplyMeans(Replay(t, me, ch, n - 1), me, ch[n - 1], pid);
      OneMoreMessage(ch, n - 1, pid);
    }
  }

  /** Chunks have their effect on the players nobody else has, and none on the others. */
  lemma {:induction false} ChunksReplayed(t: Table, me: ServerId, ch: seq<Msg>, n: nat, pid: Pid)
    requires n <= |ch| && forall i :: 0 <= i < n ==> ch[i].Chunk?
    ensures Conflict(Replay(t, me, ch, n), me, pid) <==> Conflict(t, me, pid)
    ensures pid in Owned(Replay(t, me, ch, n), me) <==>
              !Conflict(t, me, pid) && pid in EffectAll(Owned(t, me), ch, n)
  {
    if n > 0 {
      ChunksReplayed(t, me, ch, n - 1, pid);
      ApplyMeans(Replay(t, me, ch, n - 1), me, ch[n - 1], pid);
    }
  }

  lemma {:induction false} ReplayPrefix(t: Table, me: ServerId, a: seq<Msg>, b: seq<Msg>, n: nat)
    requires n <= |a|
    ensures Replay(t, me, a + b, n) == Replay(t, me, a, n)
  {
    if n > 0 {
      ReplayPrefix(t, me, a, b, n - 1);
    }
  }

  lemma {:induction false} ReplayConcat(t: Table, me: ServerId, a: seq<Msg>, b: seq<Msg>, n: nat)
    requires n <= |b|
    ensures Replay(t, me, a + b, |a| + n) == Replay(Replay(t, me, a, |a|), me, b, n)
  {
    if n > 0 {
      ReplayConcat(t, me, a, b, n - 1);
    } else {
      ReplayPrefix(t, me, a, b, |a|);
    }
  }

  lemma {:induction false} EffectPrefix(s: set<Pid>, a: seq<Msg>, b: seq<Msg>, n: nat)
    requires n <= |a|
    ensures EffectAll(s, a + b, n) == EffectAll(s, a, n)
  {
    if n > 0 {
      EffectPrefix(s, a, b, n - 1);
    }
  }

  lemma {:induction false} EffectConcat(s: set<Pid>, a: seq<Msg>, b: seq<Msg>, n: nat)
    requires n <= |b|
    ensures EffectAll(s, a + b, |a| + n) == EffectAll(EffectAll(s, a, |a|), b, n)
  {
    if n > 0 {
      EffectConcat(s, a, b, n - 1);
    } else {
      EffectPrefix(s, a, b, |a|);
    }
  }

  lemma EffectHead(s: set<Pid>, ch: seq<Msg>)
    requires ch != []
    ensures EffectAll(s, ch, |ch|) == EffectAll(Effect(s, ch[0]), ch[1..], |ch| - 1)
  {
    assert ch == [ch[0]] + ch[1..];
    assert EffectAll(s, [ch[0]], 1) == Effect(EffectAll(s, [ch[0]], 0), ch[0]);
    EffectConcat(s, [ch[0]], ch[1..], |ch| - 1);
  }

  // ---- What the chunks of a snapshot amount to -------------------------------------------------------

  /** The chunk whose index was last 0 at or before chunk n - 1. */
  function LastReset(n: nat): nat
    requires n > 0
  {
    (n - 1) / INDEXES * INDEXES
  }

  ghost function Range(ids: seq<Pid>, a: nat, b: nat): set<Pid>
    requires b <= |ids|
  {
    set k | a <= k < b :: ids[k]
  }

  lemma ChunkPlayers(ids: seq<Pid>, max: nat, i: nat)
    requires max > 0 && i < Total(|ids|, max)
    ensures Players(ChunkAt(ids, max, i)) == Range(ids, i * max, End(|ids|, max, i + 1))
  {
    StartsInside(|ids|, max, i);
    var a, b := i * max, End(|ids|, max, i + 1);
    forall pid
      ensures pid in ids[a..b] <==> pid in Range(ids, a, b)
    {
      if pid in Range(ids, a, b) {
        var k :| a <= k < b && ids[k] == pid;
        assert ids[a..b][k - a] == pid;
      }
    }
  }

  lemma JoinRanges(ids: seq<Pid>, a: nat, b: nat, c: nat)
    requires a <= b <= c <= |ids|
    ensures Range(ids, a, b) + Range(ids, b, c) == Range(ids, a, c)
  {
    forall pid | pid in Range(ids, a, c)
      ensures pid in Range(ids, a, b) + Range(ids, b, c)
    {
      var k :| a <= k < c && ids[k] == pid;
      assert k < b || b <= k;
    }
  }

  lemma ResetStep(n: nat)
    requires n > 0
    ensures LastReset(n) <= n - 1
    ensures if (n - 1) % INDEXES == 0 then LastReset(n) == n - 1 else n > 1 && LastReset(n) == LastReset(n - 1)
  {
  }

  lemma OneMoreChunk(s: set<Pid>, ids: seq<Pid>, max: nat, n: nat)
    requires max > 0 && 0 < n <= Total(|ids|, max)
    ensures EffectAll(s, Chunks(ids, max, n), n)
      == Effect(EffectAll(s, Chunks(ids, max, n - 1), n - 1), ChunkAt(ids, max, n - 1))
  {
    EffectPrefix(s, Chunks(ids, max, n - 1), [ChunkAt(ids, max, n - 1)], n - 1);
  }

  /** The players in chunks i to j - 1. */
  ghost function Sent(ids: seq<Pid>, max: nat, i: nat, j: nat): set<Pid> {
    Range(ids, i * max, End(|ids|, max, j))
  }

  lemma SentOneMore(ids: seq<Pid>, max: nat, i: nat, j: nat)
    requires max > 0 && i <= j < Total(|ids|, max)
    ensures Players(ChunkAt(ids, max, j)) == Sent(ids, max, j, j + 1)
    ensures i < j ==> Sent(ids, max, i, j) + Sent(ids, max, j, j + 1) == Sent(ids, max, i, j + 1)
  {
    StartsInside(|ids|, max, j);
    ChunkPlayers(ids, max, j);
    if i < j {
      ProductMonotone(i, j, max);
      JoinRanges(ids, i * max, j * max, End(|ids|, max, j + 1));
    }
  }

  /** Whatever was there before, the first n chunks leave exactly what was sent since the last index 0. */
  lemma {:induction false} ChunksEffect(s: set<Pid>, ids: seq<Pid>, max: nat, n: nat)
    requires max > 0 && 0 < n <= Total(|ids|, max)
    ensures EffectAll(s, Chunks(ids, max, n), n) == Sent(ids, max, LastReset(n), n)
  {
    OneMoreChunk(s, ids, max, n);
    ResetStep(n);
    SentOneMore(ids, max, LastReset(n), n - 1);
    if (n - 1) % INDEXES != 0 {
      ChunksEffect(s, ids, max, n - 1);
      ResetStep(n - 1);
    }
  }

  /** A FullSync replaces the set by the snapshot, exactly if its chunks can all be numbered. */
  lemma FullSyncIsExactIff(s: set<Pid>, ids: seq<Pid>, max: nat)
    requires max > 0 && Distinct(ids)
    ensures EffectAll(s, Chunks(ids, max, Total(|ids|, max)), Total(|ids|, max)) == (set pid | pid in ids)
       <==> Total(|ids|, max) <= INDEXES
  {
    var total := Total(|ids|, max);
    ChunksEffect(s, ids, max, total);
    LastEndsAtEnd(|ids|, max);
    assert Range(ids, 0, |ids|) == set pid | pid in ids;
    if total <= INDEXES {
      assert LastReset(total) == 0;
    } else {
      assert LastReset(total) >= INDEXES;
      ProductMonotone(1, LastReset(total), max);
      assert ids[0] in set pid | pid in ids;
      assert ids[0] !in Range(ids, LastReset(total) * max, |ids|);
    }
  }

  /** The table a chunk's players are claimed in. */
  function BaseOf(t: Table, me: ServerId, idx: nat): Table {
    if idx == 0 then Without(t, me) else t
  }

  /** The first n chunks have not given the server a player of a later one. */
  lemma NotYetClaimed(t: Table, me: ServerId, ids: seq<Pid>, max: nat, n: nat, k: nat)
    requires max > 0 && Distinct(ids) && 0 < n < Total(|ids|, max) <= INDEXES && n * max <= k < |ids|
    ensures ids[k] !in Owned(Replay(t, me, Chunks(ids, max, n), n), me)
  {
    AllAreChunks(ids, max, n);
    ChunksReplayed(t, me, Chunks(ids, max, n), n, ids[k]);
    ChunksEffect(Owned(t, me), ids, max, n);
    assert LastReset(n) == 0 && End(|ids|, max, n) <= n * max;
    assert ids[k] !in Range(ids, 0, End(|ids|, max, n));
  }

  lemma SliceIsDistinct(ids: seq<Pid>, a: nat, b: nat, i: nat)
    requires Distinct(ids) && a <= b <= |ids| && i < b - a
    ensures ids[a..b][i] !in ids[a..b][..i]
  {
  }

  /** One FullSync on its own never counts a player twice, whatever the table held: the promised balance survives it. */
  lemma FullSyncClaimsAnew(t: Table, me: ServerId, ids: seq<Pid>, max: nat, n: nat)
    requires max > 0 && Distinct(ids) && n < Total(|ids|, max) <= INDEXES
    ensures var chunk := ChunkAt(ids, max, n);
            ClaimsAnew(BaseOf(Replay(t, me, Chunks(ids, max, n), n), me, chunk.idx), me, chunk.ids, |chunk.ids|)
  {
    var chunk := ChunkAt(ids, max, n);
    var base := BaseOf(Replay(t, me, Chunks(ids, max, n), n), me, chunk.idx);
    StartsInside(|ids|, max, n);
    var a, b := n * max, End(|ids|, max, n + 1);
    forall i | 0 <= i < |chunk.ids|
      ensures chunk.ids[i] !in Owned(base, me) && chunk.ids[i] !in chunk.ids[..i]
    {
      SliceIsDistinct(ids, a, b, i);
      if n > 0 {
        NotYetClaimed(t, me, ids, max, n, a + i);
      }
    }
  }

  /** With one player per chunk and 65537 players, the last chunk has index 0 again, and only its player is left. */
  lemma OneChunkTooMany(s: set<Pid>) returns (ids: seq<Pid>)
    ensures Distinct(ids) && |ids| == Total(|ids|, 1) == INDEXES + 1
    ensures EffectAll(s, Chunks(ids, 1, INDEXES + 1), INDEXES + 1) == {ids[INDEXES]}
  {
    ids := seq(INDEXES + 1, i => i);
    ChunksEffect(s, ids, 1, INDEXES + 1);
    assert Sent(ids, 1, INDEXES, INDEXES + 1) == Range(ids, INDEXES, INDEXES + 1);
  }
}

/** The village, the link and the session server, in any interleaving. */
module Replication {
  import opened ConnectionTable
  import opened DistinctLists
  import opened FullSyncChunks

  /** cmds: the connector's command queue. wire: sent on this connection and not taken yet. registered: the session
      server has an entry for this connection, with id me; without one it ignores the messages.
      synced: a FullSync has been queued and nothing has come in its way since. */
  datatype State = State(
    entered: set<Pid>,
    connected: bool,
    registered: bool,
    me: ServerId,
    synced: bool,
    cmds: seq<Msg>,
    wire: seq<Msg>,
    table: Table)

  datatype Step =
    | Enter(pid: Pid)                    // EntryTable::enter, with its notification
    | Leave(pid: Pid)
    | FullSync(order: seq<Pid>)          // on_register_ack, under the roster's lock
    | Drain                              // one command leaves the queue
    | Deliver                            // the session server takes one message
    | Elsewhere(table: Table)            // whatever else happens to the session server's table
    | Register(id: ServerId)             // a new entry, a revived one, or the one it has
    | Unregister
    | SweptAway                          // an orphan's grace is over, though its link may be up
    | TakenOver                          // another connection from the same address revived the entry
    | LinkUp
    | LinkLost

  /** ours: the players of this village. max: players per chunk. */
  datatype Setting = Setting(ours: set<Pid>, max: nat)

  ghost predicate Enabled(c: Setting, s: State, step: Step) {
    match step
    case Enter(pid) => pid in c.ours && pid !in s.entered
    case Leave(pid) => pid in s.entered
    case FullSync(order) =>
      Distinct(order) && (set pid | pid in order) == s.entered
    case Drain => s.cmds != []
    case Deliver => s.wire != []
    case Elsewhere(_) => true
    case Register(_) => s.connected
    case Unregister => s.registered
    case SweptAway => true
    case TakenOver => s.registered
    case LinkUp => !s.connected
    case LinkLost => s.connected
  }

  /** A FullSync can do its work: it arrives at an entry of its own, its chunks can be numbered, and no player of
      this village is somebody else's in the table. */
  predicate CanSync(c: Setting, s: State, order: seq<Pid>)
    requires c.max > 0
  {
    s.connected && s.registered && Total(|order|, c.max) <= INDEXES && Uncontested(s.table, s.me, c.ours)
  }

  /** The table changes for others only. */
  predicate Undisturbed(c: Setting, s: State, table: Table) {
    Uncontested(table, s.me, c.ours) && Owned(table, s.me) == Owned(s.table, s.me)
  }

  function Dropped(s: State): State {
    s.(registered := false, synced := false, table := Without(s.table, s.me))
  }

  function Next(c: Setting, s: State, step: Step): State
    requires c.max > 0 && Enabled(c, s, step)
  {
    match step
    case Enter(pid) => s.(entered := s.entered + {pid}, cmds := s.cmds + [Entered(pid)])
    case Leave(pid) => s.(entered := s.entered - {pid}, cmds := s.cmds + [Left(pid)])
    case FullSync(order) =>
      s.(cmds := s.cmds + Chunks(order, c.max, Total(|order|, c.max)), synced := CanSync(c, s, order))
    case Drain => s.(cmds := s.cmds[1..], wire := if s.connected then s.wire + [s.cmds[0]] else s.wire)
    case Deliver =>
      s.(wire := s.wire[1..], table := if s.registered then Apply(s.table, s.me, s.wire[0]) else s.table)
    case Elsewhere(table) => s.(table := table, synced := s.synced && Undisturbed(c, s, table))
    case Register(id) => s.(registered := true, me := id, synced := s.synced && id == s.me)
    case Unregister => Dropped(s)
    case SweptAway => Dropped(s)
    case TakenOver => s.(registered := false, synced := false)
    case LinkUp => s.(connected := true)
    case LinkLost => s.(connected := false, registered := false, synced := false, wire := [])
  }

  /** Players may have entered, and the table may be in any state, before the link first comes up. */
  predicate Initial(c: Setting, s: State) {
    s.entered <= c.ours && !s.connected && !s.registered && !s.synced && s.cmds == s.wire == []
  }

  ghost predicate IsRun(c: Setting, states: seq<State>, steps: seq<Step>) {
    && |states| == |steps| + 1 && c.max > 0
    && Initial(c, states[0])
    && forall i :: 0 <= i < |steps| ==>
         Enabled(c, states[i], steps[i]) && states[i + 1] == Next(c, states[i], steps[i])
  }

  // ---- When a FullSync is in force ------------------------------------------------------------------

  predicate Starts(c: Setting, s: State, step: Step)
    requires c.max > 0
  {
    step.FullSync? && CanSync(c, s, step.order)
  }

  /** The link or the entry is lost, somebody else claims one of this village's players or changes its set, or
      another FullSync goes out that cannot do its work. */
  predicate Breaks(c: Setting, s: State, step: Step)
    requires c.max > 0
  {
    match step
    case FullSync(order) => !CanSync(c, s, order)
    case Elsewhere(table) => !Undisturbed(c, s, table)
    case Register(id) => id != s.me
    case Unregister => true
    case SweptAway => true
    case TakenOver => true
    case LinkLost => true
    case _ => false
  }

  ghost predicate InForce(c: Setting, states: seq<State>, steps: seq<Step>, i: nat, k: nat)
    requires IsRun(c, states, steps) && i < k < |states|
  {
    Starts(c, states[i], steps[i]) && forall j :: i < j < k ==> !Breaks(c, states[j], steps[j])
  }

  lemma OneStepLonger(c: Setting, states: seq<State>, steps: seq<Step>, i: nat, k: nat)
    requires IsRun(c, states, steps) && i < k && k + 1 < |states|
    ensures InForce(c, states, steps, i, k + 1) <==> InForce(c, states, steps, i, k) && !Breaks(c, states[k], steps[k])
  {
  }

  /** The flag is up exactly while a FullSync that could do its work has been followed by nothing that breaks it. */
  lemma {:induction false} SyncedIff(c: Setting, states: seq<State>, steps: seq<Step>, k: nat)
    requires IsRun(c, states, steps) && k < |states|
    ensures states[k].synced <==> exists i :: 0 <= i < k && InForce(c, states, steps, i, k)
  {
    if k > 0 {
      SyncedIff(c, states, steps, k - 1);
      var s, step := states[k - 1], steps[k - 1];
      assert states[k].synced == (Starts(c, s, step) || (s.synced && !Breaks(c, s, step)));
      assert InForce(c, states, steps, k - 1, k) == Starts(c, s, step);
      forall i | 0 <= i < k - 1
        ensures InForce(c, states, steps, i, k) <==> InForce(c, states, steps, i, k - 1) && !Breaks(c, s, step)
      {
        OneStepLonger(c, states, steps, i, k - 1);
      }
      if s.synced && !Breaks(c, s, step) {
        var i :| 0 <= i < k - 1 && InForce(c, states, steps, i, k - 1);
        assert InForce(c, states, steps, i, k);
      }
    }
  }

  // ---- Invariant ------------------------------------------------------------------------------------

  ghost predicate Ours(c: Setting, ch: seq<Msg>) {
    forall i :: 0 <= i < |ch| ==> Players(ch[i]) <= c.ours
  }

  ghost predicate Shape(c: Setting, s: State) {
    && s.entered <= c.ours && Ours(c, s.wire + s.cmds)
    && (!s.connected ==> s.wire == [] && !s.registered)
    && (s.synced ==> s.registered && Uncontested(s.table, s.me, c.ours))
  }

  /** What the server will own once everything in flight is applied. */
  function Pending(s: State): set<Pid> {
    EffectAll(Owned(s.table, s.me), s.wire + s.cmds, |s.wire + s.cmds|)
  }

  ghost predicate InStep(s: State) {
    s.synced ==> Pending(s) == s.entered
  }

  lemma ChunksAreOurs(c: Setting, order: seq<Pid>, n: nat)
    requires c.max > 0 && n <= Total(|order|, c.max) && (set pid | pid in order) <= c.ours
    ensures Ours(c, Chunks(order, c.max, n))
  {
    if n > 0 {
      ChunksAreOurs(c, order, n - 1);
      ChunkPlayers(order, c.max, n - 1);
      assert Range(order, (n - 1) * c.max, End(|order|, c.max, n)) <= set pid | pid in order;
    }
  }

  lemma OursConcat(c: Setting, a: seq<Msg>, b: seq<Msg>)
    requires Ours(c, a) && Ours(c, b)
    ensures Ours(c, a + b)
  {
  }

  lemma Append(c: Setting, s: State, more: seq<Msg>, s': State)
    requires Ours(c, s.wire + s.cmds) && Ours(c, more)
    requires s'.wire == s.wire && s'.cmds == s.cmds + more && s'.table == s.table && s'.me == s.me
    ensures Ours(c, s'.wire + s'.cmds)
    ensures Pending(s') == EffectAll(Pending(s), more, |more|)
  {
    var ch := s.wire + s.cmds;
    assert s'.wire + s'.cmds == ch + more;
    OursConcat(c, ch, more);
    EffectConcat(Owned(s.table, s.me), ch, more, |more|);
  }

  lemma StepNotify(c: Setting, s: State, step: Step)
    requires c.max > 0 && Shape(c, s) && InStep(s) && Enabled(c, s, step)
    requires step.Enter? || step.Leave?
    ensures var s' := Next(c, s, step); Shape(c, s') && InStep(s')
  {
    var m := if step.Enter? then Entered(step.pid) else Left(step.pid);
    Append(c, s, [m], Next(c, s, step));
    assert EffectAll(Pending(s), [m], 1) == Effect(EffectAll(Pending(s), [m], 0), m);
  }

  lemma StepFullSync(c: Setting, s: State, order: seq<Pid>)
    requires c.max > 0 && Shape(c, s) && Enabled(c, s, FullSync(order))
    ensures var s' := Next(c, s, FullSync(order)); Shape(c, s') && InStep(s')
  {
    var total := Total(|order|, c.max);
    ChunksAreOurs(c, order, total);
    Append(c, s, Chunks(order, c.max, total), Next(c, s, FullSync(order)));
    FullSyncIsExactIff(Pending(s), order, c.max);
  }

  lemma StepDrain(c: Setting, s: State)
    requires c.max > 0 && Shape(c, s) && InStep(s) && Enabled(c, s, Drain)
    ensures var s' := Next(c, s, Drain); Shape(c, s') && InStep(s')
  {
    var s' := Next(c, s, Drain);
    if s.connected {
      assert s'.wire + s'.cmds == s.wire + s.cmds;
    } else {
      assert s'.wire + s'.cmds == (s.wire + s.cmds)[1..];
    }
  }

  lemma StepDeliver(c: Setting, s: State)
    requires c.max > 0 && Shape(c, s) && InStep(s) && Enabled(c, s, Deliver)
    ensures var s' := Next(c, s, Deliver); Shape(c, s') && InStep(s')
  {
    var s' := Next(c, s, Deliver);
    var ch := s.wire + s.cmds;
    assert s'.wire + s'.cmds == ch[1..] && ch[0] == s.wire[0];
    if s.synced {
      EffectHead(Owned(s.table, s.me), ch);
      assert Players(ch[0]) <= c.ours;
      ApplyIsEffect(s.table, s.me, ch[0], c.ours);
    }
  }

  lemma StepInStep(c: Setting, s: State, step: Step)
    requires c.max > 0 && Shape(c, s) && InStep(s) && Enabled(c, s, step)
    ensures var s' := Next(c, s, step); Shape(c, s') && InStep(s')
  {
    match step
    case Enter(_) => StepNotify(c, s, step);
    case Leave(_) => StepNotify(c, s, step);
    case FullSync(order) => StepFullSync(c, s, order);
    case Drain => StepDrain(c, s);
    case Deliver => StepDeliver(c, s);
    case LinkLost => assert [] + s.cmds == (s.wire + s.cmds)[|s.wire|..];
    case _ =>
  }

  // ---- Main results ---------------------------------------------------------------------------------

  /** While a FullSync is in force, replaying what is in flight over the session server's table gives exactly the
      village's entered set. */
  lemma {:induction false} ReplayGivesEntered(c: Setting, states: seq<State>, steps: seq<Step>, k: nat)
    requires IsRun(c, states, steps) && k < |states|
    ensures Shape(c, states[k]) && InStep(states[k])
    ensures var s := states[k]; var ch := s.wire + s.cmds;
            s.synced ==> Owned(Replay(s.table, s.me, ch, |ch|), s.me) == s.entered
  {
    if k > 0 {
      ReplayGivesEntered(c, states, steps, k - 1);
      StepInStep(c, states[k - 1], steps[k - 1]);
    }
    var s := states[k];
    if s.synced {
      ReplayIsEffect(s.table, s.me, s.wire + s.cmds, |s.wire + s.cmds|, c.ours);
    }
  }

  /** Then, when nothing is in flight, the two sides agree. */
  lemma QuietLinkAgrees(c: Setting, states: seq<State>, steps: seq<Step>, i: nat, k: nat)
    requires IsRun(c, states, steps) && i < k < |states| && InForce(c, states, steps, i, k)
    requires states[k].wire == states[k].cmds == []
    ensures Owned(states[k].table, states[k].me) == states[k].entered
  {
    SyncedIff(c, states, steps, k);
    ReplayGivesEntered(c, states, steps, k);
    assert states[k].wire + states[k].cmds == [];
  }

  // ---- When the two sides agree, in every state -------------------------------------------------------

  function InFlight(s: State): seq<Msg> {
    s.wire + s.cmds
  }

  /** What the session server will have of this village once everything in flight has arrived. */
  function Arriving(s: State): set<Pid> {
    if s.registered then Owned(Replay(s.table, s.me, InFlight(s), |InFlight(s)|), s.me) else Owned(s.table, s.me)
  }

  predicate Agrees(s: State) {
    Arriving(s) == s.entered
  }

  /** With this table and this id, each player in the village, and no other, ends up as the village's. */
  ghost predicate Serves(s: State, table: Table, id: ServerId) {
    forall pid :: pid in s.entered <==> EndsUpMine(table, id, InFlight(s), |InFlight(s)|, pid)
  }

  /** No player in the village is somebody else's, unless its PlayerEnter is still under way. */
  ghost predicate NoneTaken(s: State) {
    forall pid :: pid in s.entered ==> Winnable(s.table, s.me, InFlight(s), |InFlight(s)|, pid)
  }

  /** Which steps an agreement survives. */
  ghost predicate Survives(c: Setting, s: State, step: Step)
    requires c.max > 0
  {
    match step
    case Enter(_) => s.registered
    case Leave(_) => s.registered
    case FullSync(order) => s.registered ==> Total(|order|, c.max) <= INDEXES
    case Drain => true
    case Deliver => true
    case Elsewhere(table) => if s.registered then Serves(s, table, s.me) else Owned(table, s.me) == s.entered
    case Register(id) => Serves(s, s.table, id)
    case Unregister => s.entered == {}
    case SweptAway => s.entered == {}
    case TakenOver => Owned(s.table, s.me) == s.entered
    case LinkUp => true
    case LinkLost => Owned(s.table, s.me) == s.entered
  }

  lemma ServesMeans(s: State, table: Table, id: ServerId)
    ensures Serves(s, table, id) <==> Owned(Replay(table, id, InFlight(s), |InFlight(s)|), id) == s.entered
  {
    var after := Owned(Replay(table, id, InFlight(s), |InFlight(s)|), id);
    forall pid
      ensures pid in after <==> EndsUpMine(table, id, InFlight(s), |InFlight(s)|, pid)
    {
      ReplayMeans(table, id, InFlight(s), |InFlight(s)|, pid);
    }
  }

  lemma NotifyAgrees(c: Setting, s: State, step: Step)
    requires c.max > 0 && Enabled(c, s, step) && Agrees(s) && (step.Enter? || step.Leave?)
    ensures Agrees(Next(c, s, step)) <==> s.registered
  {
    var s' := Next(c, s, step);
    var m := if step.Enter? then Entered(step.pid) else Left(step.pid);
    var ch := InFlight(s);
    if s.registered {
      assert InFlight(s') == ch + [m];
      var t := Replay(s.table, s.me, ch, |ch|);
      ReplayConcat(s.table, s.me, ch, [m], 1);
      assert Replay(t, s.me, [m], 1) == Apply(Replay(t, s.me, [m], 0), s.me, m);
      assert Arriving(s') == Owned(Apply(t, s.me, m), s.me);
    } else {
      assert step.pid in s'.entered <==> step.pid !in s.entered;
    }
  }

  lemma MoveAgrees(c: Setting, s: State, step: Step)
    requires c.max > 0 && Shape(c, s) && Enabled(c, s, step) && (step.Drain? || step.Deliver?)
    ensures Arriving(Next(c, s, step)) == Arriving(s)
  {
    var s', ch := Next(c, s, step), InFlight(s);
    if s.registered {
      if step.Drain? {
        assert InFlight(s') == ch;
      } else {
        assert ch == [ch[0]] + InFlight(s') && ch[0] == s.wire[0];
        ReplayConcat(s.table, s.me, [ch[0]], InFlight(s'), |InFlight(s')|);
        assert Replay(s.table, s.me, [ch[0]], 1) == Apply(Replay(s.table, s.me, [ch[0]], 0), s.me, ch[0]);
      }
    }
  }

  /** The chunks of a snapshot bring nobody who is not in it. */
  lemma ChunksStayInside(s: set<Pid>, ids: seq<Pid>, max: nat)
    requires max > 0
    ensures EffectAll(s, Chunks(ids, max, Total(|ids|, max)), Total(|ids|, max)) <= set pid | pid in ids
  {
    var total := Total(|ids|, max);
    ChunksEffect(s, ids, max, total);
  }

  /** Whatever the table held and whether or not the two sides agreed: a FullSync to an entry of this connection makes
      them agree exactly if its chunks can be numbered and no player in the village is taken. */
  lemma FullSyncAgreesIff(c: Setting, s: State, order: seq<Pid>)
    requires c.max > 0 && Enabled(c, s, FullSync(order)) && s.registered
    ensures Agrees(Next(c, s, FullSync(order))) <==> Total(|order|, c.max) <= INDEXES && NoneTaken(s)
  {
    var s', ch, total := Next(c, s, FullSync(order)), InFlight(s), Total(|order|, c.max);
    var chunks := Chunks(order, c.max, total);
    var t := Replay(s.table, s.me, ch, |ch|);
    assert InFlight(s') == ch + chunks;
    ReplayConcat(s.table, s.me, ch, chunks, total);
    AllAreChunks(order, c.max, total);
    var brought := EffectAll(Owned(t, s.me), chunks, total);
    FullSyncIsExactIff(Owned(t, s.me), order, c.max);
    ChunksStayInside(Owned(t, s.me), order, c.max);
    forall pid
      ensures pid in Arriving(s') <==> Winnable(s.table, s.me, ch, |ch|, pid) && pid in brought
    {
      ReplayMeans(s.table, s.me, ch, |ch|, pid);
      ChunksReplayed(t, s.me, chunks, total, pid);
    }
  }

  lemma AgreedMeansNoneTaken(s: State)
    requires s.registered && Agrees(s)
    ensures NoneTaken(s)
  {
    ServesMeans(s, s.table, s.me);
  }

  /** From every state in which the two sides agree, each step leaves them agreeing exactly as Survives says. */
  lemma AgreementSurvivesIff(c: Setting, s: State, step: Step)
    requires c.max > 0 && Shape(c, s) && Enabled(c, s, step) && Agrees(s)
    ensures Agrees(Next(c, s, step)) <==> Survives(c, s, step)
  {
    match step
    case Enter(_) => NotifyAgrees(c, s, step);
    case Leave(_) => NotifyAgrees(c, s, step);
    case FullSync(order) =>
      if s.registered {
        AgreedMeansNoneTaken(s);
        FullSyncAgreesIff(c, s, order);
      }
    case Drain => MoveAgrees(c, s, step);
    case Deliver => MoveAgrees(c, s, step);
    case Elsewhere(table) => ServesMeans(s, table, s.me);
    case Register(id) => ServesMeans(s, s.table, id);
    case Unregister => assert Owned(Without(s.table, s.me), s.me) == {};
    case SweptAway => assert Owned(Without(s.table, s.me), s.me) == {};
    case _ =>
  }

  lemma NextAgreesIff(c: Setting, states: seq<State>, steps: seq<Step>, k: nat)
    requires IsRun(c, states, steps) && k < |steps| && Agrees(states[k])
    ensures Agrees(states[k + 1]) <==> Survives(c, states[k], steps[k])
  {
    ReplayGivesEntered(c, states, steps, k);
    AgreementSurvivesIff(c, states[k], steps[k]);
  }

  /** A property that one state hands to the next exactly if the step allows it. */
  lemma {:induction false} HandedOn(holds: seq<bool>, allowed: seq<bool>, i: nat, k: nat)
    requires |holds| == |allowed| + 1 && i <= k < |holds| && holds[i]
    requires forall j {:trigger allowed[j]} :: i <= j < k && holds[j] ==> (holds[j + 1] <==> allowed[j])
    ensures (forall j :: i <= j <= k ==> holds[j]) <==> forall j :: i <= j < k ==> allowed[j]
  {
    if i < k {
      HandedOn(holds, allowed, i, k - 1);
      assert holds[k - 1] ==> (holds[k - 1 + 1] <==> allowed[k - 1]);
    }
  }

  ghost function AgreeAt(states: seq<State>): seq<bool> {
    seq(|states|, j requires 0 <= j < |states| => Agrees(states[j]))
  }

  ghost function SurviveAt(c: Setting, states: seq<State>, steps: seq<Step>): seq<bool>
    requires IsRun(c, states, steps)
  {
    seq(|steps|, j requires 0 <= j < |steps| => Survives(c, states[j], steps[j]))
  }

  /** Once they agree, they go on agreeing exactly as long as every step is one an agreement survives. */
  lemma AgreesThroughoutIff(c: Setting, states: seq<State>, steps: seq<Step>, i: nat, k: nat)
    requires IsRun(c, states, steps) && i <= k < |states| && Agrees(states[i])
    ensures (forall j :: i <= j <= k ==> Agrees(states[j])) <==>
              forall j :: i <= j < k ==> Survives(c, states[j], steps[j])
  {
    var holds, allowed := AgreeAt(states), SurviveAt(c, states, steps);
    forall j | i <= j < k && holds[j]
      ensures holds[j + 1] <==> allowed[j]
    {
      NextAgreesIff(c, states, steps, j);
    }
    HandedOn(holds, allowed, i, k);
    assert forall j :: i <= j <= k ==> holds[j] == Agrees(states[j]);
    assert forall j :: i <= j < k ==> allowed[j] == Survives(c, states[j], steps[j]);
  }

  /** While a FullSync is in force they agree, and the next step ends that exactly if it is not one to survive. */
  lemma InForceAgreesIff(c: Setting, states: seq<State>, steps: seq<Step>, i: nat, k: nat)
    requires IsRun(c, states, steps) && i < k < |steps| && InForce(c, states, steps, i, k)
    ensures Agrees(states[k]) && (Agrees(states[k + 1]) <==> Survives(c, states[k], steps[k]))
  {
    SyncedIff(c, states, steps, k);
    ReplayGivesEntered(c, states, steps, k);
    NextAgreesIff(c, states, steps, k);
  }

  /** An empty village registers and synchronizes, and then player 7 enters. Everything has arrived. */
  lemma SyncedVillage() returns (c: Setting, states: seq<State>, steps: seq<Step>)
    ensures IsRun(c, states, steps) && |steps| == 8 && InForce(c, states, steps, 2, 8)
    ensures states[8] == State({7}, true, true, 1, true, [], [], map[7 := 1])
  {
    c := Setting({7}, 510);
    states, steps := EmptyVillage(c);
    var s6 := Next(c, states[5], Enter(7));
    var s7 := Next(c, s6, Drain);
    steps := steps + [Enter(7), Drain, Deliver];
    states := states + [s6, s7, Next(c, s7, Deliver)];
  }

  lemma EmptyVillage(c: Setting) returns (states: seq<State>, steps: seq<Step>)
    requires c == Setting({7}, 510)
    ensures IsRun(c, states, steps) && |steps| == 5 && Starts(c, states[2], steps[2])
    ensures steps[3] == Drain && steps[4] == Deliver && states[5] == State({}, true, true, 1, true, [], [], map[])
  {
    steps := [LinkUp, Register(1), FullSync([]), Drain, Deliver];
    var s0 := State({}, false, false, 0, false, [], [], map[]);
    var s1 := Next(c, s0, steps[0]);
    var s2 := Next(c, s1, steps[1]);
    assert Chunks([], 510, 1) == Chunks([], 510, 0) + [ChunkAt([], 510, 0)] == [Chunk(0, 1, [])];
    var s3 := Next(c, s2, steps[2]);
    assert s3 == State({}, true, true, 1, true, [Chunk(0, 1, [])], [], map[]);
    var s4 := Next(c, s3, steps[3]);
    states := [s0, s1, s2, s3, s4, Next(c, s4, steps[4])];
  }

  /** The village unregisters with the player still inside: the link stays up, everything sent has arrived, and the
      session server knows no player of the village. */
  lemma UnregisteredPlayersAreUnknown() returns (c: Setting, states: seq<State>, steps: seq<Step>)
    ensures IsRun(c, states, steps) && |steps| == 9 && steps[8] == Unregister
    ensures InForce(c, states, steps, 2, 8)
    ensures var s := states[9]; s.connected && s.wire == s.cmds == [] && s.entered == {7} && Owned(s.table, s.me) == {}
  {
    var states8, steps8;
    c, states8, steps8 := SyncedVillage();
    steps := steps8 + [Unregister];
    states := states8 + [Next(c, states8[8], Unregister)];
  }
}

/** The village's side as an object (S2sLink). */
module VillageLink {
  import opened ConnectionTable
  import opened FullSyncChunks
  import opened Wire
  import opened Wrappers
  import FullSyncCodec

  /** A chunk as it is encoded. */
  function OnTheWire(m: Msg): FullSyncCodec.FullSync
    requires m.Chunk?
  {
    FullSyncCodec.FullSync(m.idx, m.total, m.ids)
  }

  /** Every chunk of a snapshot, whatever maximum is configured, can be encoded, stays within what the session
      server receives, and is read there as it was cut. */
  lemma ChunkArrivesAsCut(ids: seq<Pid>, chunkMax: nat, i: nat)
    requires i < Total(|ids|, EffectiveMax(chunkMax)) && forall k :: 0 <= k < |ids| ==> ids[k] < U64
    ensures var m := OnTheWire(ChunkAt(ids, EffectiveMax(chunkMax), i));
            && |m.ids| <= FullSyncCodec.MAX_PER_CHUNK && FullSyncCodec.Fits(m)
            && |FullSyncCodec.Encoded(m)| <= FullSyncCodec.SERVER_RECV_BODY_CAP
            && FullSyncCodec.Decoded(FullSyncCodec.Encoded(m)) == Some(m)
  {
    var max := EffectiveMax(chunkMax);
    StartsInside(|ids|, max, i);
    assert (i + 1) * max == i * max + max;
    var m := OnTheWire(ChunkAt(ids, max, i));
    FullSyncCodec.ChunkFitsCap(m);
    FullSyncCodec.DecodeEncode(m);
  }

  class S2sLink {
    const chunkMax: nat              // fullsync_chunk_max, 0 for the derived limit
    var started: bool
    var commands: seq<Msg>           // the connector's queue

    constructor (chunkMax: nat)
      ensures this.chunkMax == chunkMax && !started && commands == []
    {
      this.chunkMax := chunkMax;
      started, commands := false, [];
    }

    method NotifyPlayerEnter(pid: Pid)
      modifies `commands
      ensures commands == old(commands) + if started then [Entered(pid)] else []
    {
      if !started {
        return;
      }
      commands := commands + [Entered(pid)];
    }

    method NotifyPlayerLeave(pid: Pid)
      modifies `commands
      ensures commands == old(commands) + if started then [Left(pid)] else []
    {
      if !started {
        return;
      }
      commands := commands + [Left(pid)];
    }

    method QueueChunk(snapshot: seq<Pid>, max: nat, total: nat, i: nat)
      requires max > 0 && i < total == Total(|snapshot|, max)
      modifies `commands
      ensures commands == old(commands) + [ChunkAt(snapshot, max, i)]
    {
      StartsInside(|snapshot|, max, i);
      var begin := i * max;
      var end := if begin + max < |snapshot| then begin + max else |snapshot|;
      assert (i + 1) * max == begin + max;
      commands := commands + [Chunk(i % INDEXES, total % INDEXES, snapshot[begin..end])];
    }

    method QueueChunks(snapshot: seq<Pid>, max: nat)
      requires max > 0
      modifies `commands
      ensures commands == old(commands) + Chunks(snapshot, max, Total(|snapshot|, max))
    {
      var total := if snapshot == [] then 1 else (|snapshot| + max - 1) / max;
      for i := 0 to total
        invariant total == Total(|snapshot|, max)
        invariant commands == old(commands) + Chunks(snapshot, max, i)
      {
        QueueChunk(snapshot, max, total, i);
      }
    }

    /** The snapshot is queued in one go: in order and completely, one chunk if it is empty. */
    method SendFullSync(snapshot: seq<Pid>)
      modifies `commands
      ensures !started ==> commands == old(commands)
      ensures started ==>
        var max := EffectiveMax(chunkMax);
        var chunks := Chunks(snapshot, max, Total(|snapshot|, max));
        commands == old(commands) + chunks && Joined(chunks, |chunks|) == snapshot && chunks != []
    {
      if !started {
        return;
      }
      var max := EffectiveMax(chunkMax);
      ChunksAreTheSnapshot(snapshot, max);
      QueueChunks(snapshot, max);
    }
  }
}
