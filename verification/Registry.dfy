// session::Registry: the village servers, the reservations made for logins, and who is connected where.
// Every method runs under the router's mutex, so one call is one step.

module Assignment {
  import opened Products
  import opened Wrappers

  type Pid = nat
  type ServerId = nat
  type NetId = nat
  type LinkId = nat
  type U32 = n: nat | n < 0x1_0000_0000

  const U64: nat := 0x1_0000_0000_0000_0000

  /** orphanedAt 0 means in order. link is the village's session, which the entry holds. */
  datatype Entry = Entry(
    serverId: ServerId,
    netId: NetId,
    link: Option<LinkId>,
    host: string,
    port: nat,
    capacity: U32,
    current: U32,
    lastHeartbeat: nat,
    orphanedAt: nat,
    draining: bool)

  datatype Reservation = Reservation(serverId: ServerId, expireAt: nat, issueId: nat)

  type Reservations = map<Pid, Reservation>

  /** The reservations for a server that have not expired. */
  function ValidFor(r: Reservations, server: ServerId, now: nat): set<Pid> {
    set pid | pid in r && r[pid].serverId == server && r[pid].expireAt > now
  }

  function Load(e: Entry, r: Reservations, now: nat): nat {
    e.current + |ValidFor(r, e.serverId, now)|
  }

  predicate Eligible(e: Entry) {
    e.orphanedAt == 0 && e.capacity != 0 && !e.draining
  }

  // ---- Comparing loads ---------------------------------------------------------------------------

  /** a is the better choice: a smaller exact ratio, and at equal ratios the smaller server id. */
  predicate Better(a: Entry, la: nat, b: Entry, lb: nat) {
    la * b.capacity < lb * a.capacity || (la * b.capacity == lb * a.capacity && a.serverId < b.serverId)
  }

  /** The comparison the source makes, in 64-bit unsigned arithmetic. */
  predicate BetterU64(a: Entry, la: nat, b: Entry, lb: nat) {
    var lhs, rhs := la * b.capacity % U64, lb * a.capacity % U64;
    lhs < rhs || (lhs == rhs && a.serverId < b.serverId)
  }

  lemma ProductFits(load: nat, capacity: U32)
    requires load <= 0x1_0000_0001
    ensures load * capacity < U64
  {
    ProductMonotone(load, 0x1_0000_0001, capacity);
    assert 0x1_0000_0001 * capacity <= 0x1_0000_0001 * 0xFFFF_FFFF < U64;
  }

  /** A cross product fits 64 bits for every capacity exactly if the load is at most 2^32 + 1. */
  lemma CrossProductFitsIff(load: nat)
    ensures (forall capacity: U32 :: load * capacity < U64) <==> load <= 0x1_0000_0001
  {
    if load <= 0x1_0000_0001 {
      forall capacity: U32
        ensures load * capacity < U64
      {
        ProductFits(load, capacity);
      }
    } else {
      var capacity: U32 := 0xFFFF_FFFF;
      ProductMonotone(0x1_0000_0002, load, capacity);
      assert load * capacity >= 0x1_0000_0002 * 0xFFFF_FFFF >= U64;
    }
  }

  lemma NoOverflow(a: Entry, la: nat, b: Entry, lb: nat)
    requires la <= 0x1_0000_0001 && lb <= 0x1_0000_0001
    ensures BetterU64(a, la, b, lb) <==> Better(a, la, b, lb)
  {
    ProductFits(la, b.capacity);
    ProductFits(lb, a.capacity);
    SmallStays(la * b.capacity);
    SmallStays(lb * a.capacity);
  }

  lemma SmallStays(x: nat)
    requires x < U64
    ensures x % U64 == x
  {
  }

  lemma CancelCapacity(x: nat, y: nat, c: nat)
    requires c > 0 && x * c <= y * c
    ensures x <= y
    ensures x * c < y * c ==> x < y
  {
  }

  /** x/cx <= y/cy and y/cy <= z/cz give x/cx <= z/cz, strictly if one of them is strict. */
  lemma RatioTransitive(x: nat, cx: nat, y: nat, cy: nat, z: nat, cz: nat)
    requires cx > 0 && cy > 0 && cz > 0 && x * cy <= y * cx && y * cz <= z * cy
    ensures x * cz <= z * cx
    ensures x * cy < y * cx || y * cz < z * cy ==> x * cz < z * cx
  {
    ProductMonotone(x * cy, y * cx, cz);
    ProductMonotone(y * cz, z * cy, cx);
    assert (x * cz) * cy == (x * cy) * cz && (z * cx) * cy == (z * cy) * cx && (y * cx) * cz == (y * cz) * cx;
    if x * cy < y * cx {
      StrictProduct(x * cy, y * cx, cz);
    }
    if y * cz < z * cy {
      StrictProduct(y * cz, z * cy, cx);
    }
    CancelCapacity(x * cz, z * cx, cy);
  }

  lemma StrictProduct(a: nat, b: nat, c: nat)
    requires a < b && c > 0
    ensures a * c < b * c
  {
  }

  lemma BetterTransitive(a: Entry, la: nat, b: Entry, lb: nat, c: Entry, lc: nat)
    requires a.capacity > 0 && b.capacity > 0 && c.capacity > 0
    requires Better(a, la, b, lb) && Better(b, lb, c, lc)
    ensures Better(a, la, c, lc)
  {
    RatioTransitive(la, a.capacity, lb, b.capacity, lc, c.capacity);
  }

  lemma BetterTotal(a: Entry, la: nat, b: Entry, lb: nat)
    requires a.serverId != b.serverId
    ensures Better(a, la, b, lb) <==> !Better(b, lb, a, la)
  {
  }

  // ---- The choice --------------------------------------------------------------------------------

  ghost predicate UniqueIds(entries: seq<Entry>) {
    && (forall i, j :: 0 <= i < j < |entries| ==> entries[i].serverId != entries[j].serverId)
    && (forall i, j :: 0 <= i < j < |entries| ==> entries[i].netId != entries[j].netId)
  }

  /** Entry i is eligible and better than every other eligible entry. */
  ghost predicate IsBest(entries: seq<Entry>, r: Reservations, now: nat, i: nat)
    requires i < |entries|
  {
    && Eligible(entries[i])
    && forall j :: 0 <= j < |entries| && j != i && Eligible(entries[j]) ==>
         Better(entries[i], Load(entries[i], r, now), entries[j], Load(entries[j], r, now))
  }

  /** In plain terms: entry i is in order, and against any other one in order its exact ratio of players and unexpired
      reservations to capacity is smaller, or the same with a smaller server id. */
  lemma BestMeans(entries: seq<Entry>, r: Reservations, now: nat, i: nat, j: nat)
    requires i < |entries| && j < |entries| && i != j && IsBest(entries, r, now, i)
    requires entries[j].orphanedAt == 0 && entries[j].capacity != 0 && !entries[j].draining
    ensures entries[i].orphanedAt == 0 && entries[i].capacity != 0 && !entries[i].draining
    ensures var a, b := entries[i], entries[j];
            var la := a.current + |set pid | pid in r && r[pid].serverId == a.serverId && r[pid].expireAt > now|;
            var lb := b.current + |set pid | pid in r && r[pid].serverId == b.serverId && r[pid].expireAt > now|;
            la * b.capacity < lb * a.capacity || (la * b.capacity == lb * a.capacity && a.serverId < b.serverId)
  {
    assert ValidFor(r, entries[i].serverId, now)
        == set pid | pid in r && r[pid].serverId == entries[i].serverId && r[pid].expireAt > now;
    assert ValidFor(r, entries[j].serverId, now)
        == set pid | pid in r && r[pid].serverId == entries[j].serverId && r[pid].expireAt > now;
  }

  ghost predicate LoadsFit(entries: seq<Entry>, r: Reservations, now: nat) {
    forall i :: 0 <= i < |entries| ==> Load(entries[i], r, now) <= 0x1_0000_0001
  }

  /** The same entries in any other order give the same choice. */
  lemma ChoiceIgnoresOrder(a: seq<Entry>, b: seq<Entry>, r: Reservations, now: nat, i: nat, j: nat)
    requires UniqueIds(a) && UniqueIds(b) && (forall e :: e in a <==> e in b)
    requires i < |a| && j < |b| && IsBest(a, r, now, i) && IsBest(b, r, now, j)
    ensures a[i] == b[j]
  {
    if a[i] != b[j] {
      assert b[j] in a && a[i] in b;
      var k :| 0 <= k < |a| && a[k] == b[j];
      var m :| 0 <= m < |b| && b[m] == a[i];
      assert Better(a[i], Load(a[i], r, now), a[k], Load(a[k], r, now));
      assert Better(b[j], Load(b[j], r, now), b[m], Load(b[m], r, now));
      assert a[i].serverId != a[k].serverId;
      BetterTotal(a[i], Load(a[i], r, now), b[j], Load(b[j], r, now));
    }
  }

  /** valid_reservations, the counting loop. */
  method CountValid(r: Reservations, server: ServerId, now: nat) returns (count: nat)
    ensures count == |ValidFor(r, server, now)|
    ensures count == |set pid | pid in r && r[pid].serverId == server && r[pid].expireAt > now|
  {
    count := 0;
    var left := r.Keys;
    ghost var seen: set<Pid> := {};
    while left != {}
      invariant left <= r.Keys && count == |seen| && seen !! left
      invariant seen == set pid | pid in ValidFor(r, server, now) && pid !in left
      decreases left
    {
      var pid :| pid in left;
      left := left - {pid};
      if r[pid].serverId == server && r[pid].expireAt > now {
        count := count + 1;
        seen := seen + {pid};
      }
    }
    assert seen == ValidFor(r, server, now);
    assert seen == set pid | pid in r && r[pid].serverId == server && r[pid].expireAt > now;
  }

  /** Best among the first n: none eligible, or one better than all other eligible ones. */
  ghost predicate BestUpTo(entries: seq<Entry>, r: Reservations, now: nat, n: nat, best: Option<nat>)
    requires n <= |entries|
  {
    match best
    case None => forall j :: 0 <= j < n ==> !Eligible(entries[j])
    case Some(i) =>
      && i < n && Eligible(entries[i])
      && forall j :: 0 <= j < n && j != i && Eligible(entries[j]) ==>
           Better(entries[i], Load(entries[i], r, now), entries[j], Load(entries[j], r, now))
  }

  lemma NewBest(entries: seq<Entry>, r: Reservations, now: nat, n: nat, best: nat)
    requires n < |entries| && best < n && BestUpTo(entries, r, now, n, Some(best)) && Eligible(entries[n])
    requires Better(entries[n], Load(entries[n], r, now), entries[best], Load(entries[best], r, now))
    ensures BestUpTo(entries, r, now, n + 1, Some(n))
  {
    forall j | 0 <= j < n && j != best && Eligible(entries[j])
      ensures Better(entries[n], Load(entries[n], r, now), entries[j], Load(entries[j], r, now))
    {
      BetterTransitive(entries[n], Load(entries[n], r, now), entries[best], Load(entries[best], r, now),
                       entries[j], Load(entries[j], r, now));
    }
  }

  lemma OldBest(entries: seq<Entry>, r: Reservations, now: nat, n: nat, best: nat)
    requires n < |entries| && best < n && BestUpTo(entries, r, now, n, Some(best)) && UniqueIds(entries)
    requires !Better(entries[n], Load(entries[n], r, now), entries[best], Load(entries[best], r, now))
    ensures BestUpTo(entries, r, now, n + 1, Some(best))
  {
    BetterTotal(entries[n], Load(entries[n], r, now), entries[best], Load(entries[best], r, now));
  }

  /** The selection loop of assign. Without overflow it finds the best server; there is one iff any is eligible. */
  method Choose(entries: seq<Entry>, r: Reservations, now: nat) returns (best: Option<nat>)
    requires UniqueIds(entries)
    ensures best.Some? ==> best.value < |entries| && Eligible(entries[best.value])
    ensures best.None? <==> forall j :: 0 <= j < |entries| ==> !Eligible(entries[j])
    ensures best.None? <==> forall j :: 0 <= j < |entries| ==>
              entries[j].orphanedAt != 0 || entries[j].capacity == 0 || entries[j].draining
    ensures best.Some? && LoadsFit(entries, r, now) ==> IsBest(entries, r, now, best.value)
  {
    best := None;
    var bestLoad := 0;
    for n := 0 to |entries|
      invariant best.Some? ==> best.value < n && Eligible(entries[best.value])
      invariant best.None? <==> forall j :: 0 <= j < n ==> !Eligible(entries[j])
      invariant best.Some? ==> bestLoad == Load(entries[best.value], r, now)
      invariant LoadsFit(entries, r, now) ==> BestUpTo(entries, r, now, n, best)
    {
      var e := entries[n];
      if e.orphanedAt != 0 || e.capacity == 0 || e.draining {
        continue;
      }
      var valid := CountValid(r, e.serverId, now);
      var load := e.current + valid;
      if best.None? {
        best, bestLoad := Some(n), load;
        continue;
      }
      var b := entries[best.value];
      if LoadsFit(entries, r, now) {
        NoOverflow(e, load, b, bestLoad);
        if Better(e, load, b, bestLoad) {
          NewBest(entries, r, now, n, best.value);
        } else {
          OldBest(entries, r, now, n, best.value);
        }
      }
      var lhs := load * b.capacity % U64;
      var rhs := bestLoad * e.capacity % U64;
      if lhs < rhs || (lhs == rhs && e.serverId < b.serverId) {
        best, bestLoad := Some(n), load;
      }
    }
  }
}

/** What the operations do to the list of servers. */
module ServerList {
  import opened Assignment
  import opened Wrappers

  /** The first entry of that connection from position i on, or the length. */
  function IndexOfNet(entries: seq<Entry>, netId: NetId, i: nat): (k: nat)
    requires i <= |entries|
    ensures i <= k <= |entries| && (k < |entries| ==> entries[k].netId == netId)
    ensures forall j :: i <= j < k ==> entries[j].netId != netId
    decreases |entries| - i
  {
    if i == |entries| || entries[i].netId == netId then i else IndexOfNet(entries, netId, i + 1)
  }

  predicate IsFirst(entries: seq<Entry>, serverId: ServerId, i: nat, j: nat)
    requires j < |entries|
  {
    i <= j && entries[j].serverId == serverId && forall m :: i <= m < j ==> entries[m].serverId != serverId
  }

  /** The link of the first entry of that server from position i on. */
  function LinkFor(entries: seq<Entry>, serverId: ServerId, i: nat): (link: Option<LinkId>)
    requires i <= |entries|
    ensures (forall j :: i <= j < |entries| ==> entries[j].serverId != serverId) ==> link == None
    ensures forall j :: i <= j < |entries| && IsFirst(entries, serverId, i, j) ==> link == entries[j].link
    decreases |entries| - i
  {
    if i == |entries| then None
    else if entries[i].serverId == serverId then entries[i].link
    else LinkFor(entries, serverId, i + 1)
  }

  lemma NetIsAt(entries: seq<Entry>, netId: NetId, at: nat)
    requires UniqueIds(entries) && at < |entries| && entries[at].netId == netId
    ensures IndexOfNet(entries, netId, 0) == at
  {
    var k := IndexOfNet(entries, netId, 0);
    assert k <= at && entries[k].netId == netId;
  }

  /** An entry that keeps its connection keeps its place. */
  lemma SameIndex(entries: seq<Entry>, netId: NetId, e: Entry)
    requires IndexOfNet(entries, netId, 0) < |entries| && e.netId == netId
    ensures IndexOfNet(entries[IndexOfNet(entries, netId, 0) := e], netId, 0) == IndexOfNet(entries, netId, 0)
  {
    var i := IndexOfNet(entries, netId, 0);
    var after := entries[i := e];
    assert after[i].netId == netId;
    assert forall j :: 0 <= j < i ==> after[j] == entries[j];
  }

  lemma RemovedIsUnknown(entries: seq<Entry>, i: nat)
    requires UniqueIds(entries) && i < |entries|
    ensures !Known(Without(entries, i), entries[i].netId)
  {
    var w := Without(entries, i);
    forall k | 0 <= k < |w|
      ensures w[k].netId != entries[i].netId
    {
      assert w[k] == entries[if k < i then k else k + 1];
    }
  }

  predicate Known(entries: seq<Entry>, netId: NetId) {
    IndexOfNet(entries, netId, 0) < |entries|
  }

  /** There is an entry for that connection, with no link in it. */
  predicate FreeLink(entries: seq<Entry>, netId: NetId) {
    Known(entries, netId) && entries[IndexOfNet(entries, netId, 0)].link.None?
  }

  predicate HoldsLink(entries: seq<Entry>, netId: NetId, link: LinkId) {
    Known(entries, netId) && entries[IndexOfNet(entries, netId, 0)].link == Some(link)
  }

  predicate Revivable(e: Entry, host: string, port: nat) {
    e.orphanedAt != 0 && e.host == host && e.port == port
  }

  /** Among the orphans of that address, the one orphaned last; the earlier one of two. */
  ghost predicate LatestOrphan(entries: seq<Entry>, host: string, port: nat, n: nat, k: Option<nat>)
    requires n <= |entries|
  {
    match k
    case None => forall j :: 0 <= j < n ==> !Revivable(entries[j], host, port)
    case Some(i) =>
      && i < n && Revivable(entries[i], host, port)
      && forall j :: 0 <= j < n && Revivable(entries[j], host, port) ==>
           entries[j].orphanedAt < entries[i].orphanedAt || (entries[j].orphanedAt == entries[i].orphanedAt && i <= j)
  }

  /** An entry says what its village said when it registered; one that was there before keeps its id and its mode. */
  predicate Says(e: Entry, netId: NetId, host: string, port: nat, capacity: U32, current: U32, now: nat) {
    && e.netId == netId && e.host == host && e.port == port && e.capacity == capacity && e.current == current
    && e.lastHeartbeat == now && e.orphanedAt == 0
  }

  function Refreshed(e: Entry, netId: NetId, host: string, port: nat, capacity: U32, current: U32, now: nat): Entry {
    e.(netId := netId, host := host, port := port, capacity := capacity, current := current,
       lastHeartbeat := now, orphanedAt := 0)
  }

  /** How many of the first n entries hold a link. */
  function Held(entries: seq<Entry>, n: nat): nat
    requires n <= |entries|
  {
    if n == 0 then 0 else Held(entries, n - 1) + if entries[n - 1].link.Some? then 1 else 0
  }

  function LinksHeld(entries: seq<Entry>): nat {
    Held(entries, |entries|)
  }

  function Bit(link: Option<LinkId>): nat {
    if link.Some? then 1 else 0
  }

  lemma {:induction false} HeldUpdate(entries: seq<Entry>, i: nat, e: Entry, n: nat)
    requires i < |entries| && n <= |entries|
    ensures Held(entries[i := e], n) == Held(entries, n) + if i < n then Bit(e.link) - Bit(entries[i].link) else 0
  {
    if n > 0 {
      HeldUpdate(entries, i, e, n - 1);
    }
  }

  lemma {:induction false} HeldAppend(entries: seq<Entry>, more: seq<Entry>, n: nat)
    requires n <= |more|
    ensures Held(entries + more, |entries| + n) == LinksHeld(entries) + Held(more, n)
  {
    if n > 0 {
      HeldAppend(entries, more, n - 1);
    } else {
      HeldPrefix(entries, more, |entries|);
    }
  }

  lemma {:induction false} HeldPrefix(entries: seq<Entry>, more: seq<Entry>, n: nat)
    requires n <= |entries|
    ensures Held(entries + more, n) == Held(entries, n)
  {
    if n > 0 {
      HeldPrefix(entries, more, n - 1);
    }
  }

  lemma {:induction false} NoneHeld(entries: seq<Entry>, n: nat)
    requires n <= |entries| && forall i :: 0 <= i < n ==> entries[i].link.None?
    ensures Held(entries, n) == 0
  {
    if n > 0 {
      NoneHeld(entries, n - 1);
    }
  }

  function Without(entries: seq<Entry>, i: nat): seq<Entry>
    requires i < |entries|
  {
    entries[..i] + entries[i + 1..]
  }

  lemma HeldRemove(entries: seq<Entry>, i: nat)
    requires i < |entries|
    ensures LinksHeld(Without(entries, i)) == LinksHeld(entries) - Bit(entries[i].link)
  {
    var a, e, b := entries[..i], [entries[i]], entries[i + 1..];
    assert entries == a + (e + b);
    HeldAppend(a, b, |b|);
    HeldAppend(a, e + b, |e + b|);
    HeldAppend(e, b, |b|);
    assert Held(e, 1) == Held(e, 0) + Bit(entries[i].link);
  }

  ghost predicate Numbered(entries: seq<Entry>, next: ServerId) {
    next > 0 && forall i :: 0 <= i < |entries| ==> 0 < entries[i].serverId < next
  }

  lemma UniqueUpdate(entries: seq<Entry>, i: nat, e: Entry)
    requires UniqueIds(entries) && i < |entries| && e.serverId == entries[i].serverId
    requires forall j :: 0 <= j < |entries| && j != i ==> entries[j].netId != e.netId
    ensures UniqueIds(entries[i := e])
  {
  }

  lemma UniqueRemove(entries: seq<Entry>, i: nat)
    requires UniqueIds(entries) && i < |entries|
    ensures UniqueIds(Without(entries, i))
  {
  }

  function ServerIds(entries: seq<Entry>): set<ServerId> {
    set i | 0 <= i < |entries| :: entries[i].serverId
  }

  lemma ServerIdsRemove(entries: seq<Entry>, i: nat)
    requires UniqueIds(entries) && i < |entries|
    ensures ServerIds(Without(entries, i)) == ServerIds(entries) - {entries[i].serverId}
  {
    var w := Without(entries, i);
    forall id | id in ServerIds(entries) - {entries[i].serverId}
      ensures id in ServerIds(w)
    {
      var k :| 0 <= k < |entries| && entries[k].serverId == id;
      assert w[if k < i then k else k - 1].serverId == id;
    }
    forall id | id in ServerIds(w)
      ensures id in ServerIds(entries) - {entries[i].serverId}
    {
      var k :| 0 <= k < |w| && w[k].serverId == id;
      assert w[k] == entries[if k < i then k else k + 1];
    }
  }
}

/** The tables themselves. */
module RegistryTables {
  import opened Assignment
  import opened Wrappers
  import opened ServerList
  import ConnectionTable

  datatype RegisterResult = RegisterResult(serverId: ServerId, ok: bool, needLink: bool, stale: Option<LinkId>)

  datatype Assigned = Assigned(serverId: ServerId, host: string, port: nat, issueId: nat)

  /** Which reservation each issue number was given out for. */
  type Issues = map<nat, (Pid, ServerId)>

  /** A reservation carries the number of the very assign that made it, and no number is used twice. */
  ghost predicate IssuedOk(r: Reservations, issues: Issues, next: nat) {
    && (forall id :: id in issues ==> id < next)
    && (forall pid :: pid in r ==> r[pid].issueId in issues && issues[r[pid].issueId] == (pid, r[pid].serverId))
  }

  /** Nobody is connected to a server that is not registered. */
  ghost predicate Tracked(t: ConnectionTable.Table, entries: seq<Entry>) {
    forall pid :: pid in t ==> t[pid] in ServerIds(entries)
  }

  predicate Issued(r: Reservations, pid: Pid, issueId: nat) {
    pid in r && r[pid].issueId == issueId
  }

  function MarkOrphan(e: Entry, timeout: nat, now: nat): Entry {
    if e.orphanedAt == 0 && e.lastHeartbeat + timeout < now then e.(orphanedAt := now) else e
  }

  function MarkOrphans(entries: seq<Entry>, timeout: nat, now: nat): seq<Entry> {
    seq(|entries|, i requires 0 <= i < |entries| => MarkOrphan(entries[i], timeout, now))
  }

  function Unexpired(r: Reservations, now: nat): Reservations {
    map pid | pid in r && r[pid].expireAt > now :: r[pid]
  }

  predicate Overdue(e: Entry, grace: nat, now: nat) {
    e.orphanedAt != 0 && e.orphanedAt + grace < now
  }

  lemma AppendOk(entries: seq<Entry>, e: Entry, next: ServerId, t: ConnectionTable.Table)
    requires UniqueIds(entries) && Numbered(entries, next) && Tracked(t, entries)
    requires e.serverId == next && !Known(entries, e.netId)
    ensures UniqueIds(entries + [e]) && Numbered(entries + [e], next + 1) && Tracked(t, entries + [e])
    ensures LinksHeld(entries + [e]) == LinksHeld(entries) + Bit(e.link)
  {
    HeldAppend(entries, [e], 1);
    assert Held([e], 1) == Held([e], 0) + Bit(e.link);
    forall id | id in ServerIds(entries)
      ensures id in ServerIds(entries + [e])
    {
      var k :| 0 <= k < |entries| && entries[k].serverId == id;
      assert (entries + [e])[k].serverId == id;
    }
  }

  /** Judging health changes orphan times and nothing else. */
  lemma {:induction false} MarkedHeld(entries: seq<Entry>, timeout: nat, now: nat, n: nat)
    requires n <= |entries|
    ensures Held(MarkOrphans(entries, timeout, now), n) == Held(entries, n)
  {
    if n > 0 {
      MarkedHeld(entries, timeout, now, n - 1);
    }
  }

  lemma MarkedOk(entries: seq<Entry>, timeout: nat, now: nat, next: ServerId, t: ConnectionTable.Table)
    requires UniqueIds(entries) && Numbered(entries, next) && Tracked(t, entries)
    ensures var m := MarkOrphans(entries, timeout, now);
            UniqueIds(m) && Numbered(m, next) && Tracked(t, m) && LinksHeld(m) == LinksHeld(entries)
  {
    MarkedHeld(entries, timeout, now, |entries|);
    var m := MarkOrphans(entries, timeout, now);
    forall id | id in ServerIds(entries)
      ensures id in ServerIds(m)
    {
      var k :| 0 <= k < |entries| && entries[k].serverId == id;
      assert m[k].serverId == id;
    }
  }

  lemma IssueNew(r: Reservations, issues: Issues, next: nat, pid: Pid, serverId: ServerId, expireAt: nat)
    requires IssuedOk(r, issues, next)
    ensures IssuedOk(r[pid := Reservation(serverId, expireAt, next)], issues[next := (pid, serverId)], next + 1)
    ensures next !in issues
  {
  }

  function ExpiredOf(r: Reservations, now: nat): set<Pid> {
    set pid | pid in r && r[pid].expireAt <= now
  }

  class Registry {
    const capacityLimit: nat
    const healthPeriodMs: U32
    const healthFailCount: U32
    const orphanGraceMs: nat
    const unregisterGraceMs: nat
    const connections: ConnectionTable.Connections
    var entries: seq<Entry>
    var reservations: Reservations
    var graceUntil: map<NetId, nat>
    var nextServerId: ServerId
    var nextIssueId: nat
    var issued: nat
    var overwritten: nat
    var expired: nat
    var revoked: nat
    ghost var issues: Issues

    ghost predicate ServersOk()
      reads this
    {
      UniqueIds(entries) && Numbered(entries, nextServerId) && |entries| <= capacityLimit
    }

    /** Every reservation ends in exactly one of the four ways. */
    ghost predicate ReservationsOk()
      reads this
    {
      && issued == overwritten + expired + revoked + |reservations|
      && IssuedOk(reservations, issues, nextIssueId)
    }

    ghost predicate ConnectionsOk()
      reads this, connections
    {
      connections.Balanced() && Tracked(connections.table, entries)
    }

    ghost predicate Valid()
      reads this, connections
    {
      ServersOk() && ReservationsOk() && ConnectionsOk()
    }

    constructor (capacityLimit: nat, healthPeriodMs: U32, healthFailCount: U32, orphanGraceMs: nat,
                 unregisterGraceMs: nat)
      ensures Valid() && entries == [] && reservations == map[] && connections.table == map[] && fresh(connections)
    {
      this.capacityLimit, this.healthPeriodMs, this.healthFailCount := capacityLimit, healthPeriodMs, healthFailCount;
      this.orphanGraceMs, this.unregisterGraceMs := orphanGraceMs, unregisterGraceMs;
      connections := new ConnectionTable.Connections();
      entries, reservations, graceUntil := [], map[], map[];
      nextServerId, nextIssueId := 1, 1;
      issued, overwritten, expired, revoked, issues := 0, 0, 0, 0, map[];
    }

    method FindByNet(netId: NetId) returns (k: nat)
      ensures k == IndexOfNet(entries, netId, 0)
    {
      k := 0;
      while k < |entries| && entries[k].netId != netId
        invariant k <= |entries| && IndexOfNet(entries, netId, k) == IndexOfNet(entries, netId, 0)
      {
        k := k + 1;
      }
    }

    method FindOrphan(host: string, port: nat) returns (best: Option<nat>)
      ensures LatestOrphan(entries, host, port, |entries|, best)
      ensures best.None? <==> forall e :: e in entries ==> e.orphanedAt == 0 || e.host != host || e.port != port
      ensures best.Some? ==> forall e :: e in entries && e.orphanedAt != 0 && e.host == host && e.port == port ==>
                               e.orphanedAt <= entries[best.value].orphanedAt
    {
      best := None;
      for i := 0 to |entries|
        invariant LatestOrphan(entries, host, port, i, best)
      {
        var e := entries[i];
        if e.orphanedAt == 0 || e.host != host || e.port != port {
          continue;
        }
        if best.None? || e.orphanedAt > entries[best.value].orphanedAt {
          best := Some(i);
        }
      }
    }

    /** Replaces one entry by one with the same server id. */
    method SetEntry(i: nat, e: Entry)
      requires Valid() && i < |entries| && e.serverId == entries[i].serverId
      requires forall j :: 0 <= j < |entries| && j != i ==> entries[j].netId != e.netId
      modifies `entries
      ensures Valid() && entries == old(entries)[i := e]
      ensures LinksHeld(entries) == LinksHeld(old(entries)) + Bit(e.link) - Bit(old(entries)[i].link)
    {
      UniqueUpdate(entries, i, e);
      HeldUpdate(entries, i, e, |entries|);
      ghost var was := entries;
      entries := entries[i := e];
      assert ServerIds(entries) == ServerIds(was) by {
        assert forall k :: 0 <= k < |was| ==> entries[k].serverId == was[k].serverId;
      }
    }

    method AddEntry(e: Entry)
      requires Valid() && e.serverId == nextServerId && |entries| < capacityLimit && !Known(entries, e.netId)
      modifies `entries, `nextServerId
      ensures Valid() && entries == old(entries) + [e] && nextServerId == old(nextServerId) + 1
      ensures LinksHeld(entries) == LinksHeld(old(entries)) + Bit(e.link)
    {
      AppendOk(entries, e, nextServerId, connections.table);
      entries := entries + [e];
      nextServerId := nextServerId + 1;
    }

    /** Entry at is the one registered, and says so; all others are as they were. */
    static ghost predicate RegisteredAt(before: seq<Entry>, after: seq<Entry>, at: nat, netId: NetId, host: string,
                                        port: nat, capacity: U32, current: U32, now: nat) {
      && at <= |before| && |after| == (if at == |before| then at + 1 else |before|)
      && Says(after[at], netId, host, port, capacity, current, now)
      && (at < |before| ==> after[at].serverId == before[at].serverId && after[at].draining == before[at].draining)
      && (at == |before| ==> !after[at].draining)
      && forall j :: 0 <= j < |before| && j != at ==> after[j] == before[j]
    }

    /** Matching 1: the same connection again. */
    method Refresh(i: nat, netId: NetId, host: string, port: nat, capacity: U32, current: U32, now: nat)
      returns (r: RegisterResult)
      requires Valid() && i < |entries| && i == IndexOfNet(entries, netId, 0)
      modifies `entries
      ensures Valid() && LinksHeld(entries) == LinksHeld(old(entries)) && IndexOfNet(entries, netId, 0) == i
      ensures r == RegisterResult(old(entries)[i].serverId, true, false, None)
      ensures entries == old(entries)[i := Refreshed(old(entries)[i], netId, host, port, capacity, current, now)]
      ensures RegisteredAt(old(entries), entries, i, netId, host, port, capacity, current, now)
    {
      var e := entries[i];
      SameIndex(entries, netId, Refreshed(e, netId, host, port, capacity, current, now));
      SetEntry(i, Refreshed(e, netId, host, port, capacity, current, now));
      return RegisterResult(e.serverId, true, false, None);
    }

    /** Matching 2: a village that came back on a new connection. Its old link, if any, is detached. */
    method Revive(i: nat, netId: NetId, host: string, port: nat, capacity: U32, current: U32, now: nat)
      returns (r: RegisterResult)
      requires Valid() && i < |entries| && !Known(entries, netId)
      modifies `entries
      ensures Valid() && LinksHeld(entries) + Bit(r.stale) == LinksHeld(old(entries))
      ensures r == RegisterResult(old(entries)[i].serverId, true, true, old(entries)[i].link)
      ensures entries == old(entries)[i := Refreshed(old(entries)[i], netId, host, port, capacity, current, now)
                                           .(link := None)]
      ensures FreeLink(entries, netId) && IndexOfNet(entries, netId, 0) == i
      ensures RegisteredAt(old(entries), entries, i, netId, host, port, capacity, current, now)
    {
      var e := entries[i];
      SetEntry(i, Refreshed(e, netId, host, port, capacity, current, now).(link := None));
      NetIsAt(entries, netId, i);
      return RegisterResult(e.serverId, true, true, e.link);
    }

    /** Matching 3: a new server, if there is room. */
    method AddServer(netId: NetId, host: string, port: nat, capacity: U32, current: U32, now: nat)
      returns (r: RegisterResult)
      requires Valid() && !Known(entries, netId)
      modifies `entries, `nextServerId
      ensures Valid() && LinksHeld(entries) == LinksHeld(old(entries))
      ensures if |old(entries)| >= capacityLimit
              then entries == old(entries) && r == RegisterResult(0, false, false, None)
              else r == RegisterResult(old(nextServerId), true, true, None) && FreeLink(entries, netId)
                   && entries == old(entries)
                      + [Entry(old(nextServerId), netId, None, host, port, capacity, current, now, 0, false)]
      ensures r.ok ==> IndexOfNet(entries, netId, 0) == |old(entries)|
                       && RegisteredAt(old(entries), entries, |old(entries)|, netId, host, port, capacity, current, now)
    {
      if |entries| >= capacityLimit {
        return RegisterResult(0, false, false, None);
      }
      var e := Entry(nextServerId, netId, None, host, port, capacity, current, now, 0, false);
      AddEntry(e);
      NetIsAt(entries, netId, |entries| - 1);
      return RegisterResult(e.serverId, true, true, None);
    }

    /** register_server: the same connection, a village that came back, or a new one. at is the entry it got. */
    method RegisterServer(netId: NetId, host: string, port: nat, capacity: U32, current: U32, now: nat)
      returns (r: RegisterResult, at: nat)
      requires Valid()
      modifies `entries, `nextServerId
      ensures Valid() && LinksHeld(entries) + Bit(r.stale) == LinksHeld(old(entries))
      ensures r.needLink ==> FreeLink(entries, netId)
      ensures r.ok ==> Known(entries, netId) && IndexOfNet(entries, netId, 0) == at
                       && RegisteredAt(old(entries), entries, at, netId, host, port, capacity, current, now)
                       && entries[at].serverId == r.serverId
      ensures Known(old(entries), netId) ==>
        at == IndexOfNet(old(entries), netId, 0) && r == RegisterResult(old(entries)[at].serverId, true, false, None)
        && entries == old(entries)[at := Refreshed(old(entries)[at], netId, host, port, capacity, current, now)]
      ensures !Known(old(entries), netId) && !LatestOrphan(old(entries), host, port, |old(entries)|, None) ==>
        LatestOrphan(old(entries), host, port, |old(entries)|, Some(at))
        && r == RegisterResult(old(entries)[at].serverId, true, true, old(entries)[at].link)
        && entries == old(entries)[at := Refreshed(old(entries)[at], netId, host, port, capacity, current, now)
                                           .(link := None)]
      ensures !Known(old(entries), netId) && LatestOrphan(old(entries), host, port, |old(entries)|, None) ==>
        if |old(entries)| >= capacityLimit
        then entries == old(entries) && r == RegisterResult(0, false, false, None)
        else r == RegisterResult(old(nextServerId), true, true, None)
             && entries == old(entries)
                + [Entry(old(nextServerId), netId, None, host, port, capacity, current, now, 0, false)]
    {
      at := FindByNet(netId);
      if at < |entries| {
        r := Refresh(at, netId, host, port, capacity, current, now);
        return;
      }
      var orphan := FindOrphan(host, port);
      if orphan.Some? {
        at := orphan.value;
        r := Revive(at, netId, host, port, capacity, current, now);
      } else {
        at := |entries|;
        r := AddServer(netId, host, port, capacity, current, now);
      }
    }

    /** Refuses to cover a link that is already there. */
    method AttachLink(netId: NetId, link: LinkId) returns (ok: bool)
      requires Valid()
      modifies `entries
      ensures Valid() && ok == FreeLink(old(entries), netId)
      ensures LinksHeld(entries) == LinksHeld(old(entries)) + if ok then 1 else 0
      ensures !ok ==> entries == old(entries)
      ensures ok ==> HoldsLink(entries, netId, link)
      ensures ok ==> var i := IndexOfNet(old(entries), netId, 0);
                     entries == old(entries)[i := old(entries)[i].(link := Some(link))]
    {
      var k := FindByNet(netId);
      if k == |entries| {
        return false;
      }
      if entries[k].link.Some? {
        return false;
      }
      SameIndex(entries, netId, entries[k].(link := Some(link)));
      SetEntry(k, entries[k].(link := Some(link)));
      return true;
    }

    /** register_server and attach_link in one critical section. The source's attach-failed branch is dead: the
        entry that asks for a link has none. */
    method RegisterAndAttach(netId: NetId, host: string, port: nat, capacity: U32, current: U32, now: nat, link: LinkId)
      returns (r: RegisterResult, at: nat)
      requires Valid()
      modifies `entries, `nextServerId
      ensures Valid()
      ensures LinksHeld(entries) + Bit(r.stale) == LinksHeld(old(entries)) + if r.needLink then 1 else 0
      ensures r.needLink ==> HoldsLink(entries, netId, link)
      ensures r.ok ==> Known(entries, netId)
                       && RegisteredAt(old(entries), entries, at, netId, host, port, capacity, current, now)
                       && entries[at].serverId == r.serverId
                       && entries[at].link == if r.needLink then Some(link)
                                              else if at < |old(entries)| then old(entries)[at].link else None
      ensures !r.ok ==> entries == old(entries) && !Known(old(entries), netId) && |entries| >= capacityLimit
                        && LatestOrphan(old(entries), host, port, |old(entries)|, None)
      ensures r.needLink <==> r.ok && !Known(old(entries), netId)
    {
      r, at := RegisterServer(netId, host, port, capacity, current, now);
      if r.needLink {
        var attached := AttachLink(netId, link);
        assert attached;
      }
    }

    method Heartbeat(netId: NetId, current: U32, now: nat) returns (known: bool)
      requires Valid()
      modifies `entries
      ensures Valid() && known == Known(old(entries), netId) && LinksHeld(entries) == LinksHeld(old(entries))
      ensures !known ==> entries == old(entries)
      ensures known ==> var i := IndexOfNet(old(entries), netId, 0);
                        entries == old(entries)[i := old(entries)[i].(current := current, lastHeartbeat := now,
                                                                      orphanedAt := 0)]
    {
      var k := FindByNet(netId);
      if k == |entries| {
        return false;
      }
      SetEntry(k, entries[k].(current := current, lastHeartbeat := now, orphanedAt := 0));
      return true;
    }

    /** Takes an entry out together with its server's connections. */
    method RemoveEntry(i: nat)
      requires Valid() && i < |entries|
      modifies `entries, connections
      ensures Valid() && entries == Without(old(entries), i)
      ensures connections.table == ConnectionTable.Without(old(connections.table), old(entries)[i].serverId)
      ensures LinksHeld(entries) == LinksHeld(old(entries)) - Bit(old(entries)[i].link)
    {
      UniqueRemove(entries, i);
      HeldRemove(entries, i);
      ServerIdsRemove(entries, i);
      var dropped := connections.DropServer(entries[i].serverId);
      entries := Without(entries, i);
    }

    /** The leave grace is set whether or not the connection is registered. */
    method Unregister(netId: NetId, now: nat) returns (link: Option<LinkId>)
      requires Valid()
      modifies `entries, `graceUntil, connections
      ensures Valid() && LinksHeld(entries) + Bit(link) == LinksHeld(old(entries))
      ensures graceUntil == old(graceUntil)[netId := now + unregisterGraceMs] && !Known(entries, netId)
      ensures !Known(old(entries), netId) ==>
        link.None? && entries == old(entries) && connections.table == old(connections.table)
      ensures Known(old(entries), netId) ==>
        var i := IndexOfNet(old(entries), netId, 0);
        link == old(entries)[i].link && entries == Without(old(entries), i)
        && connections.table == ConnectionTable.Without(old(connections.table), old(entries)[i].serverId)
    {
      graceUntil := graceUntil[netId := now + unregisterGraceMs];
      var k := FindByNet(netId);
      if k == |entries| {
        return None;
      }
      link := entries[k].link;
      RemovedIsUnknown(entries, k);
      RemoveEntry(k);
    }

    /** The time an entry was first judged dead is kept. */
    method OnLinkDown(netId: NetId, now: nat) returns (link: Option<LinkId>)
      requires Valid()
      modifies `entries
      ensures Valid() && LinksHeld(entries) + Bit(link) == LinksHeld(old(entries))
      ensures Known(old(entries), netId) ==> FreeLink(entries, netId)
      ensures !Known(old(entries), netId) ==> link.None? && entries == old(entries)
      ensures Known(old(entries), netId) ==>
        var i := IndexOfNet(old(entries), netId, 0);
        var e := old(entries)[i];
        link == e.link
        && entries == old(entries)[i := e.(link := None, orphanedAt := if e.orphanedAt == 0 then now else e.orphanedAt)]
    {
      var k := FindByNet(netId);
      if k == |entries| {
        return None;
      }
      var e := entries[k];
      link := e.link;
      SameIndex(entries, netId, e.(link := None, orphanedAt := if e.orphanedAt == 0 then now else e.orphanedAt));
      SetEntry(k, e.(link := None, orphanedAt := if e.orphanedAt == 0 then now else e.orphanedAt));
    }

    // ---- Assignment and reservations ---------------------------------------------------------------

    /** health_period_ms * health_fail_count. Two 32-bit settings, multiplied in 64 bits, where they always fit. */
    function HealthTimeout(): nat {
      healthPeriodMs * healthFailCount
    }

    /** assign's first loop. Links stay where they are. */
    method JudgeHealth(now: nat)
      requires Valid()
      modifies `entries
      ensures |entries| == |old(entries)| && forall i :: 0 <= i < |entries| ==>
        var e := old(entries)[i];
        entries[i] == if e.orphanedAt == 0 && e.lastHeartbeat + healthPeriodMs * healthFailCount < now
                      then e.(orphanedAt := now) else e
      ensures Valid() && entries == MarkOrphans(old(entries), HealthTimeout(), now)
      ensures LinksHeld(entries) == LinksHeld(old(entries))
    {
      MarkedOk(entries, HealthTimeout(), now, nextServerId, connections.table);
      entries := JudgeAll(entries, HealthTimeout(), now);
    }

    /** The reservation of an assignment; an earlier one of the same player is overwritten. */
    method Reserve(pid: Pid, serverId: ServerId, expireAt: nat) returns (issueId: nat)
      requires Valid()
      modifies `reservations, `nextIssueId, `issued, `overwritten, `issues
      ensures Valid() && issueId == old(nextIssueId) && issueId !in old(issues) && nextIssueId == issueId + 1
      ensures reservations == old(reservations)[pid := Reservation(serverId, expireAt, issueId)]
      ensures issues == old(issues)[issueId := (pid, serverId)]
    {
      issueId := nextIssueId;
      IssueNew(reservations, issues, nextIssueId, pid, serverId, expireAt);
      GrowBy(reservations, pid, Reservation(serverId, expireAt, issueId));
      if pid in reservations {
        overwritten := overwritten + 1;
      }
      reservations := reservations[pid := Reservation(serverId, expireAt, issueId)];
      issues := issues[issueId := (pid, serverId)];
      nextIssueId := nextIssueId + 1;
      issued := issued + 1;
    }

    /** assign after the health check. */
    method Place(pid: Pid, expireAt: nat, now: nat) returns (a: Option<Assigned>, ghost at: nat)
      requires Valid()
      modifies `reservations, `nextIssueId, `issued, `overwritten, `issues
      ensures Valid() && Placed(entries, old(reservations), reservations, pid, expireAt, now, a, at)
      ensures a.None? ==> issues == old(issues) && nextIssueId == old(nextIssueId)
      ensures a.Some? ==> a.value.issueId == old(nextIssueId) && nextIssueId == old(nextIssueId) + 1
                          && a.value.issueId !in old(issues)
                          && issues == old(issues)[a.value.issueId := (pid, a.value.serverId)]
    {
      at := 0;
      var best := Choose(entries, reservations, now);
      if best.None? {
        return None, at;
      }
      at := best.value;
      var e := entries[best.value];
      var issueId := Reserve(pid, e.serverId, expireAt);
      return Some(Assigned(e.serverId, e.host, e.port, issueId)), at;
    }

    /** assign: the best server that is in order now, and a reservation there. */
    method Assign(pid: Pid, expireMs: nat, now: nat) returns (a: Option<Assigned>, ghost at: nat)
      requires Valid()
      modifies `entries, `reservations, `nextIssueId, `issued, `overwritten, `issues
      ensures Valid() && entries == MarkOrphans(old(entries), HealthTimeout(), now)
      ensures LinksHeld(entries) == LinksHeld(old(entries))
      ensures Placed(entries, old(reservations), reservations, pid, now + expireMs, now, a, at)
      ensures a.None? ==> issues == old(issues) && nextIssueId == old(nextIssueId)
      ensures a.Some? ==> a.value.issueId == old(nextIssueId) && nextIssueId == old(nextIssueId) + 1
                          && a.value.issueId !in old(issues)
                          && issues == old(issues)[a.value.issueId := (pid, a.value.serverId)]
    {
      JudgeHealth(now);
      a, at := Place(pid, now + expireMs, now);
    }

    /** Removes the reservation made by that very assign, and no other. */
    method Revoke(pid: Pid, issueId: nat) returns (ok: bool)
      requires Valid()
      modifies `reservations, `revoked
      ensures Valid() && ok == (pid in old(reservations) && old(reservations)[pid].issueId == issueId)
      ensures reservations == if ok then old(reservations) - {pid} else old(reservations)
      ensures ok ==> issueId in issues && issues[issueId] == (pid, old(reservations)[pid].serverId)
    {
      if pid !in reservations || reservations[pid].issueId != issueId {
        return false;
      }
      ShrinkBy(reservations, pid);
      reservations := reservations - {pid};
      revoked := revoked + 1;
      return true;
    }

    /** The first loop of sweep. */
    method ExpireReservations(now: nat) returns (count: nat)
      requires Valid()
      modifies `reservations, `expired
      ensures Valid() && reservations == Unexpired(old(reservations), now) && expired == old(expired) + count
    {
      var kept: Reservations;
      kept, count := DropExpired(reservations, now);
      reservations := kept;
      expired := expired + count;
    }

    // ---- What the router needs of these -------------------------------------------------------------

    /** assign, seen by the reservations alone, and the link of the server chosen. */
    method AssignFor(pid: Pid, expireMs: nat, now: nat)
      returns (a: Option<Assigned>, link: Option<LinkId>, ghost at: nat)
      requires Valid()
      modifies `entries, `reservations, `nextIssueId, `issued, `overwritten, `issues
      ensures Valid() && LinksHeld(entries) == LinksHeld(old(entries))
      ensures entries == MarkOrphans(old(entries), HealthTimeout(), now)
      ensures Chosen(entries, old(reservations), now, a, at)
      ensures a.None? ==>
        reservations == old(reservations) && issues == old(issues) && nextIssueId == old(nextIssueId)
      ensures a.Some? ==>
        reservations == old(reservations)[pid := Reservation(a.value.serverId, now + expireMs, a.value.issueId)]
      ensures a.Some? ==> a.value.issueId == old(nextIssueId) && nextIssueId == old(nextIssueId) + 1
                          && a.value.issueId !in old(issues)
                          && issues == old(issues)[a.value.issueId := (pid, a.value.serverId)]
      ensures link == if a.None? then None else LinkFor(entries, a.value.serverId, 0)
    {
      a, at := Assign(pid, expireMs, now);
      link := None;
      if a.Some? {
        link := LinkOf(a.value.serverId);
      }
    }

    /** unregister, seen by the link holds alone. */
    method Leave(netId: NetId, now: nat) returns (returned: nat)
      requires Valid()
      modifies `entries, `graceUntil, connections
      ensures Valid() && LinksHeld(entries) + returned == LinksHeld(old(entries)) && !Known(entries, netId)
      ensures graceUntil == old(graceUntil)[netId := now + unregisterGraceMs]
      ensures var i := IndexOfNet(old(entries), netId, 0);
              if i == |old(entries)| then entries == old(entries) && connections.table == old(connections.table)
              else entries == old(entries)[..i] + old(entries)[i + 1..]
                   && connections.table == ConnectionTable.Without(old(connections.table), old(entries)[i].serverId)
    {
      var link := Unregister(netId, now);
      return if link.Some? then 1 else 0;
    }

    /** The entry of that connection has lost its link; the time it was first judged dead stands. */
    static ghost predicate Orphaned(before: seq<Entry>, after: seq<Entry>, netId: NetId, now: nat) {
      var i := IndexOfNet(before, netId, 0);
      if i == |before| then after == before
      else
        var e := before[i];
        after == before[i := e.(link := None, orphanedAt := if e.orphanedAt == 0 then now else e.orphanedAt)]
    }

    /** on_link_down, seen by the link holds alone. */
    method LoseLink(netId: NetId, now: nat) returns (returned: nat)
      requires Valid()
      modifies `entries
      ensures Valid() && LinksHeld(entries) + returned == LinksHeld(old(entries))
      ensures Known(old(entries), netId) ==> FreeLink(entries, netId)
      ensures Orphaned(old(entries), entries, netId, now)
    {
      var link := OnLinkDown(netId, now);
      return if link.Some? then 1 else 0;
    }

    /** A village refused a reservation: it is taken back, and a village that says it is draining is believed. */
    method Refused(pid: Pid, issueId: nat, serverId: ServerId, draining: bool) returns (revoked: bool)
      requires Valid()
      modifies `entries, `reservations, `revoked
      ensures Valid() && LinksHeld(entries) == LinksHeld(old(entries))
      ensures revoked == Issued(old(reservations), pid, issueId)
      ensures reservations == if revoked then old(reservations) - {pid} else old(reservations)
      ensures revoked ==> issueId in issues && issues[issueId] == (pid, old(reservations)[pid].serverId)
      ensures if draining then DrainingSet(old(entries), entries, serverId, true) else entries == old(entries)
    {
      revoked := Revoke(pid, issueId);
      if draining {
        var found := SetDraining(serverId, true);
      }
    }

    // ---- Sweep and shutdown ------------------------------------------------------------------------

    /** One turn of sweep's second loop, at position i. */
    method SweepOne(i: nat, now: nat) returns (removed: bool, stale: seq<LinkId>)
      requires Valid() && i < |entries|
      modifies `entries, connections
      ensures Valid() && removed == Overdue(old(entries)[i], orphanGraceMs, now)
      ensures removed == (old(entries)[i].orphanedAt != 0 && old(entries)[i].orphanedAt + orphanGraceMs < now)
      ensures stale == if removed && old(entries)[i].link.Some? then [old(entries)[i].link.value] else []
      ensures LinksHeld(entries) + |stale| == LinksHeld(old(entries))
      ensures entries == if removed then Without(old(entries), i) else old(entries)
      ensures connections.table == if removed
                                   then ConnectionTable.Without(old(connections.table), old(entries)[i].serverId)
                                   else old(connections.table)
    {
      var e := entries[i];
      removed, stale := false, [];
      if e.orphanedAt != 0 && e.orphanedAt + orphanGraceMs < now {
        removed := true;
        if e.link.Some? {
          stale := [e.link.value];
        }
        RemoveEntry(i);
      }
    }

    /** The same, with the place of this turn in the sweep. */
    method SweepNext(i: nat, now: nat, before: seq<LinkId>, ghost was: seq<Entry>, ghost t: ConnectionTable.Table,
                     ghost k: nat)
      returns (i': nat, staleLinks: seq<LinkId>)
      requires Valid() && i < |entries|
      requires SweptUpTo(was, t, orphanGraceMs, now, k, entries, i, before, connections.table)
      modifies `entries, connections
      ensures Valid() && LinksHeld(entries) + |staleLinks| == LinksHeld(old(entries)) + |before|
      ensures SweptUpTo(was, t, orphanGraceMs, now, k + 1, entries, i', staleLinks, connections.table)
    {
      SweptNext(was, t, orphanGraceMs, now, k, entries, i, before, connections.table);
      var removed, stale := SweepOne(i, now);
      return if removed then i else i + 1, before + stale;
    }

    /** The second loop of sweep: overdue orphans go, with their connections; their links are handed back. */
    method SweepEntries(now: nat) returns (staleLinks: seq<LinkId>)
      requires Valid()
      modifies `entries, connections
      ensures Valid() && LinksHeld(entries) + |staleLinks| == LinksHeld(old(entries))
      ensures Swept(old(entries), old(connections.table), orphanGraceMs, now, entries, staleLinks, connections.table)
    {
      staleLinks := [];
      var i: nat := 0;
      ghost var k: nat, was, t := 0, entries, connections.table;
      SweptStart(was, t, orphanGraceMs, now);
      while i < |entries|
        invariant Valid() && LinksHeld(entries) + |staleLinks| == LinksHeld(was)
        invariant SweptUpTo(was, t, orphanGraceMs, now, k, entries, i, staleLinks, connections.table)
        decreases |was| - k
      {
        SweptBound(was, t, orphanGraceMs, now, k, entries, i, staleLinks, connections.table);
        i, staleLinks := SweepNext(i, now, staleLinks, was, t, k);
        k := k + 1;
      }
      SweptBound(was, t, orphanGraceMs, now, k, entries, i, staleLinks, connections.table);
    }

    method DropGrace(now: nat)
      requires Valid()
      modifies `graceUntil
      ensures Valid()
      ensures graceUntil == map id | id in old(graceUntil) && old(graceUntil)[id] > now :: old(graceUntil)[id]
    {
      graceUntil := map id | id in graceUntil && graceUntil[id] > now :: graceUntil[id];
    }

    method Sweep(now: nat) returns (expiredNow: nat, staleLinks: seq<LinkId>)
      requires Valid()
      modifies `reservations, `expired, `entries, `graceUntil, connections
      ensures Valid() && reservations == Unexpired(old(reservations), now) && expired == old(expired) + expiredNow
      ensures Swept(old(entries), old(connections.table), orphanGraceMs, now, entries, staleLinks, connections.table)
      ensures LinksHeld(entries) + |staleLinks| == LinksHeld(old(entries))
      ensures graceUntil == map id | id in old(graceUntil) && old(graceUntil)[id] > now :: old(graceUntil)[id]
    {
      expiredNow := ExpireReservations(now);
      staleLinks := SweepEntries(now);
      DropGrace(now);
    }

    /** The first n entries have lost their links, and nothing else has changed. */
    static ghost predicate Detached(before: seq<Entry>, after: seq<Entry>, n: nat) {
      && |after| == |before|
      && forall i :: 0 <= i < |after| ==> after[i] == if i < n then before[i].(link := None) else before[i]
    }

    method DetachAt(i: nat, ghost was: seq<Entry>) returns (n: nat)
      requires Valid() && i < |entries| && Detached(was, entries, i)
      modifies `entries
      ensures Valid() && Detached(was, entries, i + 1)
      ensures LinksHeld(entries) + n == LinksHeld(old(entries))
    {
      if entries[i].link.None? {
        return 0;
      }
      SetEntry(i, entries[i].(link := None));
      return 1;
    }

    /** detach_all, at shutdown. */
    method DetachAll() returns (count: nat)
      requires Valid()
      modifies `entries
      ensures Valid() && LinksHeld(entries) == 0 && count == LinksHeld(old(entries))
      ensures Detached(old(entries), entries, |entries|)
    {
      count := 0;
      for i := 0 to |entries|
        invariant Valid() && Detached(old(entries), entries, i)
        invariant count + LinksHeld(entries) == LinksHeld(old(entries))
      {
        var n := DetachAt(i, old(entries));
        count := count + n;
      }
      NoneHeld(entries, |entries|);
    }

    // ---- Connections -------------------------------------------------------------------------------

    method PlayerEntered(pid: Pid, serverId: ServerId)
      requires Valid() && serverId in ServerIds(entries)
      modifies connections
      ensures Valid() && connections.table == old(connections.table)[pid := serverId]
    {
      connections.PlayerEntered(pid, serverId);
    }

    method PlayerLeft(pid: Pid, serverId: ServerId) returns (found: bool)
      requires Valid()
      modifies connections
      ensures Valid() && found == (pid in old(connections.table) && old(connections.table)[pid] == serverId)
      ensures connections.table == if found then old(connections.table) - {pid} else old(connections.table)
    {
      found := connections.PlayerLeft(pid, serverId);
    }

    /** full_sync_replace on the connection table. */
    method FullSyncReplace(serverId: ServerId, firstChunk: bool, ids: seq<Pid>) returns (conflicts: seq<Pid>)
      requires Valid() && serverId in ServerIds(entries)
      modifies connections
      ensures Valid()
      ensures connections.table == ConnectionTable.Replaced(old(connections.table), serverId, firstChunk, ids)
      ensures conflicts == ConnectionTable.Conflicts(old(connections.table), serverId, ids, |ids|)
    {
      var base := if firstChunk then ConnectionTable.Without(connections.table, serverId) else connections.table;
      ConnectionTable.ClaimMeans(base, serverId, ids, |ids|);
      conflicts := connections.FullSyncReplace(serverId, firstChunk, ids);
    }

    /** link_of: no link, or no such server. */
    method LinkOf(serverId: ServerId) returns (link: Option<LinkId>)
      ensures link == LinkFor(entries, serverId, 0)
    {
      var i := 0;
      while i < |entries|
        invariant i <= |entries| && LinkFor(entries, serverId, i) == LinkFor(entries, serverId, 0)
      {
        if entries[i].serverId == serverId {
          return entries[i].link;
        }
        i := i + 1;
      }
      return None;
    }

    /** That server is marked, every other entry stays. */
    static ghost predicate DrainingSet(before: seq<Entry>, after: seq<Entry>, serverId: ServerId, draining: bool) {
      && |after| == |before|
      && forall i :: 0 <= i < |after| ==>
           after[i] == if before[i].serverId == serverId then before[i].(draining := draining) else before[i]
    }

    method SetDraining(serverId: ServerId, draining: bool) returns (found: bool)
      requires Valid()
      modifies `entries
      ensures Valid() && LinksHeld(entries) == LinksHeld(old(entries)) && found == (serverId in ServerIds(old(entries)))
      ensures DrainingSet(old(entries), entries, serverId, draining)
    {
      for i := 0 to |entries|
        invariant forall j :: 0 <= j < i ==> entries[j].serverId != serverId
        invariant entries == old(entries)
      {
        if entries[i].serverId == serverId {
          assert entries[i].serverId in ServerIds(entries);
          SetEntry(i, entries[i].(draining := draining));
          return true;
        }
      }
      return false;
    }

    /** server_id_of: 0 for a connection that is not registered. */
    method ServerIdOf(netId: NetId) returns (id: ServerId)
      requires Valid()
      ensures id != 0 <==> Known(entries, netId)
      ensures id != 0 ==> id == entries[IndexOfNet(entries, netId, 0)].serverId && id in ServerIds(entries)
    {
      var k := FindByNet(netId);
      id := if k < |entries| then entries[k].serverId else 0;
      assert k < |entries| ==> entries[k].serverId in ServerIds(entries);
    }
  }

  /** Refused exactly if no server is in order; otherwise at is one that is, the best if the products fit, and the
      player is sent there. */
  ghost predicate Chosen(entries: seq<Entry>, r: Reservations, now: nat, a: Option<Assigned>, at: nat) {
    match a
    case None => forall j :: 0 <= j < |entries| ==> !Eligible(entries[j])
    case Some(c) =>
      && at < |entries| && Eligible(entries[at])
      && c.serverId == entries[at].serverId && c.host == entries[at].host && c.port == entries[at].port
      && (LoadsFit(entries, r, now) ==> IsBest(entries, r, now, at))
  }

  /** What assign leaves: no reservation if no server is eligible, else one at the chosen server. */
  ghost predicate Placed(entries: seq<Entry>, r: Reservations, r': Reservations, pid: Pid, expireAt: nat, now: nat,
                         a: Option<Assigned>, at: nat) {
    && Chosen(entries, r, now, a, at)
    && r' == if a.None? then r else r[pid := Reservation(a.value.serverId, expireAt, a.value.issueId)]
  }

  method JudgeAll(entries: seq<Entry>, timeout: nat, now: nat) returns (judged: seq<Entry>)
    ensures judged == MarkOrphans(entries, timeout, now)
  {
    judged := entries;
    for i := 0 to |entries|
      invariant |judged| == |entries|
      invariant forall j :: 0 <= j < i ==> judged[j] == MarkOrphan(entries[j], timeout, now)
      invariant forall j :: i <= j < |entries| ==> judged[j] == entries[j]
    {
      if judged[i].orphanedAt == 0 && judged[i].lastHeartbeat + timeout < now {
        judged := judged[i := judged[i].(orphanedAt := now)];
      }
    }
  }

  method DropExpired(r: Reservations, now: nat) returns (kept: Reservations, count: nat)
    ensures kept == Unexpired(r, now) && |kept| + count == |r|
    ensures forall pid :: pid in kept <==> pid in r && r[pid].expireAt > now
    ensures forall pid :: pid in kept ==> kept[pid] == r[pid]
  {
    kept, count := r, 0;
    var left := r.Keys;
    ghost var gone: set<Pid> := {};
    while left != {}
      invariant left <= r.Keys && kept == r - gone && gone <= ExpiredOf(r, now) && gone !! left && count == |gone|
      invariant forall pid :: pid in ExpiredOf(r, now) && pid !in left ==> pid in gone
      decreases left
    {
      var pid :| pid in left;
      left := left - {pid};
      if kept[pid].expireAt <= now {
        kept := kept - {pid};
        count := count + 1;
        gone := gone + {pid};
      }
    }
    assert gone == ExpiredOf(r, now);
    SplitSize(r, gone);
  }

  lemma SplitSize(r: Reservations, gone: set<Pid>)
    requires gone <= r.Keys
    ensures |r - gone| + |gone| == |r|
  {
    assert (r - gone).Keys == r.Keys - gone;
  }

  // ---- What a sweep does to the list ---------------------------------------------------------------

  /** The first n entries without the overdue ones. */
  function Live(entries: seq<Entry>, grace: nat, now: nat, n: nat): seq<Entry>
    requires n <= |entries|
  {
    if n == 0 then []
    else Live(entries, grace, now, n - 1) + if Overdue(entries[n - 1], grace, now) then [] else [entries[n - 1]]
  }

  /** The links of the overdue ones among the first n. */
  function StaleLinks(entries: seq<Entry>, grace: nat, now: nat, n: nat): seq<LinkId>
    requires n <= |entries|
  {
    if n == 0 then []
    else StaleLinks(entries, grace, now, n - 1)
         + if Overdue(entries[n - 1], grace, now) && entries[n - 1].link.Some? then [entries[n - 1].link.value] else []
  }

  function DeadServers(entries: seq<Entry>, grace: nat, now: nat, n: nat): set<ServerId>
    requires n <= |entries|
  {
    if n == 0 then {}
    else DeadServers(entries, grace, now, n - 1)
         + if Overdue(entries[n - 1], grace, now) then {entries[n - 1].serverId} else {}
  }

  function Surviving(t: ConnectionTable.Table, dead: set<ServerId>): ConnectionTable.Table {
    map pid | pid in t && t[pid] !in dead :: t[pid]
  }

  lemma SurviveOneMore(t: ConnectionTable.Table, dead: set<ServerId>, server: ServerId)
    ensures ConnectionTable.Without(Surviving(t, dead), server) == Surviving(t, dead + {server})
    ensures Surviving(t, {}) == t
  {
  }

  /** A whole sweep: the live entries in their order, the links of the others, their connections gone. */
  ghost predicate Swept(was: seq<Entry>, t: ConnectionTable.Table, grace: nat, now: nat,
                        entries: seq<Entry>, stale: seq<LinkId>, table: ConnectionTable.Table) {
    && entries == Live(was, grace, now, |was|) && stale == StaleLinks(was, grace, now, |was|)
    && table == Surviving(t, DeadServers(was, grace, now, |was|))
  }

  /** The same with k entries looked at, the next of them at position i. */
  ghost predicate SweptUpTo(was: seq<Entry>, t: ConnectionTable.Table, grace: nat, now: nat, k: nat,
                            entries: seq<Entry>, i: nat, stale: seq<LinkId>, table: ConnectionTable.Table) {
    && k <= |was| && i == |Live(was, grace, now, k)| && entries == Live(was, grace, now, k) + was[k..]
    && stale == StaleLinks(was, grace, now, k) && table == Surviving(t, DeadServers(was, grace, now, k))
  }

  lemma SweptStart(was: seq<Entry>, t: ConnectionTable.Table, grace: nat, now: nat)
    ensures SweptUpTo(was, t, grace, now, 0, was, 0, [], t)
  {
    SurviveOneMore(t, {}, 0);
    assert [] + was[0..] == was;
  }

  lemma SweptBound(was: seq<Entry>, t: ConnectionTable.Table, grace: nat, now: nat, k: nat,
                   entries: seq<Entry>, i: nat, stale: seq<LinkId>, table: ConnectionTable.Table)
    requires SweptUpTo(was, t, grace, now, k, entries, i, stale, table)
    ensures i < |entries| ==> k < |was|
    ensures i >= |entries| ==> Swept(was, t, grace, now, entries, stale, table)
  {
    if i >= |entries| {
      assert was[k..] == [];
    }
  }

  lemma SweptNext(was: seq<Entry>, t: ConnectionTable.Table, grace: nat, now: nat, k: nat,
                  entries: seq<Entry>, i: nat, stale: seq<LinkId>, table: ConnectionTable.Table)
    requires SweptUpTo(was, t, grace, now, k, entries, i, stale, table) && i < |entries|
    ensures k < |was| && entries[i] == was[k]
    ensures !Overdue(was[k], grace, now) ==> SweptUpTo(was, t, grace, now, k + 1, entries, i + 1, stale + [], table)
    ensures Overdue(was[k], grace, now) ==>
      SweptUpTo(was, t, grace, now, k + 1, Without(entries, i), i,
                stale + if was[k].link.Some? then [was[k].link.value] else [],
                ConnectionTable.Without(table, was[k].serverId))
  {
    SkipOne(Live(was, grace, now, k), was, k);
    SurviveOneMore(t, DeadServers(was, grace, now, k), was[k].serverId);
    assert stale + [] == stale;
  }

  lemma SkipOne(done: seq<Entry>, entries: seq<Entry>, k: nat)
    requires k < |entries|
    ensures (done + entries[k..])[|done|] == entries[k]
    ensures Without(done + entries[k..], |done|) == done + entries[k + 1..]
    ensures done + entries[k..] == (done + [entries[k]]) + entries[k + 1..]
  {
    assert entries[k..] == [entries[k]] + entries[k + 1..];
  }

  lemma GrowBy(r: Reservations, pid: Pid, v: Reservation)
    ensures |r[pid := v]| == |r| + if pid in r then 0 else 1
  {
    assert r[pid := v].Keys == r.Keys + {pid};
  }

  lemma ShrinkBy(r: Reservations, pid: Pid)
    requires pid in r
    ensures |r - {pid}| == |r| - 1
  {
    assert (r - {pid}).Keys == r.Keys - {pid};
  }
}
