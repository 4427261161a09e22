// session::Router: the requests it has outstanding towards the villages, and the link holds it keeps.
// Each handler's critical section is one method.

/** Reserve and Kick requests waiting for their reply. */
module RouterRequests {
  import opened Wrappers

  type LinkId = nat
  type Pid = nat

  /** A request is found by the connection it went out on and its number there. */
  type Key = (LinkId, nat)

  const SEQS: nat := 0x1_0000_0000           // seq is 32 bits wide

  datatype PendingReserve = PendingReserve(sentMs: nat, pid: Pid, serverId: nat, issueId: nat)

  datatype PendingKick = PendingKick(sentMs: nat, pid: Pid, serverId: nat)

  /** The counters a request can end in. */
  datatype ReserveTotals = ReserveTotals(sent: nat, ok: nat, rejected: nat, unsupported: nat, timeout: nat,
                                         linkDown: nat, stop: nat)

  datatype KickTotals = KickTotals(sent: nat, acked: nat, notFound: nat, timeout: nat, linkDown: nat, stop: nat)

  type Reserves = map<Key, PendingReserve>
  type Kicks = map<Key, PendingKick>

  /** pending_, keyed by connection and number together, and its counters. */
  datatype Table = Table(nextSeq: map<LinkId, nat>, reserves: Reserves, kicks: Kicks,
                         reserve: ReserveTotals, kick: KickTotals)

  datatype Reply = AckOk | Rejected | Unsupported

  datatype Ending = TimedOut | LinkDown | Stopped

  datatype Request = Reserve(reserve: PendingReserve) | Kick(kick: PendingKick) | SetMode

  /** A request sent: the n-th on its connection since the connection's numbering last started. */
  datatype Asked = Asked(link: LinkId, epoch: nat, n: nat, what: Request)

  datatype Kind = OfReserve | OfKick | OfSetMode

  function KindOf(what: Request): Kind {
    match what case Reserve(_) => OfReserve case Kick(_) => OfKick case SetMode => OfSetMode
  }

  /** The numbers given out. log: every request ever sent; its place there is its identity. used: how many numbers
      a connection has given out since its numbering last started. epochs: how often its numbering was dropped. */
  datatype Book = Book(log: seq<Asked>, used: map<LinkId, nat>, epochs: map<LinkId, nat>)

  /** Which request is which. reserves, kicks: the request behind each pending one. lostReserves, lostKicks: how
      many pending requests had their number given out again. */
  datatype Trace = Trace(book: Book, reserves: map<Key, nat>, kicks: map<Key, nat>, lostReserves: nat, lostKicks: nat)

  function NextSeq(nextSeq: map<LinkId, nat>, link: LinkId): nat {
    if link in nextSeq then nextSeq[link] else 1
  }

  function Epoch(b: Book, link: LinkId): nat {
    if link in b.epochs then b.epochs[link] else 0
  }

  function Used(b: Book, link: LinkId): nat {
    if link in b.used then b.used[link] else 0
  }

  /** What waits for a reply of this kind. A SetMode takes a number but waits for nothing. */
  function Waiting(t: Trace, kind: Kind): map<Key, nat> {
    match kind case OfReserve => t.reserves case OfKick => t.kicks case OfSetMode => map[]
  }

  /** This request went out under that number, in that epoch. */
  predicate On(a: Asked, k: Key, epoch: nat, kind: Kind) {
    a.link == k.0 && a.epoch == epoch && KindOf(a.what) == kind && a.n % SEQS == k.1
  }

  /** The last request of this kind to be given that number in that epoch. */
  ghost predicate LastOn(log: seq<Asked>, k: Key, epoch: nat, kind: Kind, token: nat) {
    && token < |log| && On(log[token], k, epoch, kind)
    && forall u :: token < u < |log| ==> !On(log[u], k, epoch, kind)
  }

  ghost predicate Follows(b: Book, waiting: map<Key, nat>, kind: Kind, k: Key) {
    k in waiting ==> LastOn(b.log, k, Epoch(b, k.0), kind, waiting[k])
  }

  ghost predicate Followed(b: Book, waiting: map<Key, nat>, kind: Kind) {
    forall k :: Follows(b, waiting, kind, k)
  }

  predicate Logged(b: Book, a: Asked) {
    a.epoch <= Epoch(b, a.link) && (a.epoch == Epoch(b, a.link) ==> 0 < a.n <= Used(b, a.link))
  }

  predicate Before(a: Asked, c: Asked) {
    a.link == c.link && a.epoch == c.epoch ==> a.n < c.n
  }

  ghost predicate BookOk(b: Book) {
    && (forall u :: 0 <= u < |b.log| ==> Logged(b, b.log[u]))
    && (forall u, v :: 0 <= u < v < |b.log| ==> Before(b.log[u], b.log[v]))
  }

  /** The 32-bit counter is the count of numbers given out, cut to its width. */
  predicate Counts(nextSeq: map<LinkId, nat>, b: Book, link: LinkId) {
    NextSeq(nextSeq, link) == (Used(b, link) + 1) % SEQS
  }

  ghost predicate Numbered(nextSeq: map<LinkId, nat>, b: Book) {
    forall link :: Counts(nextSeq, b, link)
  }

  ghost predicate Traced(nextSeq: map<LinkId, nat>, t: Trace) {
    && Numbered(nextSeq, t.book) && BookOk(t.book)
    && Followed(t.book, t.reserves, OfReserve) && Followed(t.book, t.kicks, OfKick)
  }

  ghost predicate Covered(reserves: Reserves, kicks: Kicks, t: Trace) {
    t.reserves.Keys == reserves.Keys && t.kicks.Keys == kicks.Keys
  }

  /** What is pending is what was sent. */
  predicate Carries(reserves: Reserves, kicks: Kicks, t: Trace, k: Key) {
    && (k in reserves && k in t.reserves ==>
          t.reserves[k] < |t.book.log| && t.book.log[t.reserves[k]].what == Reserve(reserves[k]))
    && (k in kicks && k in t.kicks ==>
          t.kicks[k] < |t.book.log| && t.book.log[t.kicks[k]].what == Kick(kicks[k]))
  }

  ghost predicate Carried(reserves: Reserves, kicks: Kicks, t: Trace) {
    forall k :: Carries(reserves, kicks, t, k)
  }

  predicate Apart(kicks: Kicks, k: Key, m: Key) {
    k in kicks && m in kicks && k.0 == m.0 && kicks[k].pid == kicks[m].pid ==> k == m
  }

  ghost predicate OneKickEach(kicks: Kicks) {
    forall k, m :: Apart(kicks, k, m)
  }

  ghost predicate AllKicked(kicks: Kicks, link: LinkId, players: seq<Pid>, n: nat)
    requires n <= |players|
  {
    forall i :: 0 <= i < n ==> HasKick(kicks, link, players[i])
  }

  predicate HasKick(kicks: Kicks, link: LinkId, pid: Pid) {
    exists k :: k in kicks && k.0 == link && kicks[k].pid == pid
  }

  // ---- What the operations do ----------------------------------------------------------------------

  function Bumped(nextSeq: map<LinkId, nat>, link: LinkId): map<LinkId, nat> {
    nextSeq[link := (NextSeq(nextSeq, link) + 1) % SEQS]
  }

  function Noted(b: Book, link: LinkId, what: Request): Book {
    var n := Used(b, link) + 1;
    b.(log := b.log + [Asked(link, Epoch(b, link), n, what)], used := b.used[link := n])
  }

  /** The next number goes to this request. */
  function Sent(t: Trace, link: LinkId, what: Request): Trace {
    var k := (link, (Used(t.book, link) + 1) % SEQS);
    var token := |t.book.log|;
    var t' := t.(book := Noted(t.book, link, what));
    match what
    case Reserve(_) =>
      t'.(reserves := t.reserves[k := token], lostReserves := t.lostReserves + (if k in t.reserves then 1 else 0))
    case Kick(_) =>
      t'.(kicks := t.kicks[k := token], lostKicks := t.lostKicks + (if k in t.kicks then 1 else 0))
    case SetMode => t'
  }

  function Ended(t: Trace, reserves: set<Key>, kicks: set<Key>): Trace {
    t.(reserves := t.reserves - reserves, kicks := t.kicks - kicks)
  }

  function ReserveAnswered(t: Trace, k: Key): Trace {
    if k in t.reserves then t.(reserves := t.reserves - {k}) else t
  }

  function KickAnswered(t: Trace, k: Key): Trace {
    if k in t.kicks then t.(kicks := t.kicks - {k}) else t
  }

  function KeysOf<V>(m: map<Key, V>, link: LinkId): set<Key> {
    set k | k in m && k.0 == link
  }

  /** A connection that is gone takes its numbering with it. */
  function Restarted(b: Book, link: LinkId): Book {
    b.(used := b.used - {link}, epochs := b.epochs[link := Epoch(b, link) + 1])
  }

  function NewEpoch(t: Trace, link: LinkId): Trace {
    t.(book := Restarted(t.book, link), reserves := t.reserves - KeysOf(t.reserves, link),
       kicks := t.kicks - KeysOf(t.kicks, link))
  }

  /** At shutdown every connection's does. */
  function AllRestarted(b: Book): Book {
    b.(used := map[], epochs := map link | link in b.epochs.Keys + b.used.Keys :: Epoch(b, link) + 1)
  }

  function NewEpochs(t: Trace): Trace {
    t.(book := AllRestarted(t.book), reserves := map[], kicks := map[])
  }

  lemma NotedOk(b: Book, link: LinkId, what: Request)
    requires BookOk(b)
    ensures BookOk(Noted(b, link, what))
  {
    var b' := Noted(b, link, what);
    forall u | 0 <= u < |b.log|
      ensures Logged(b', b'.log[u]) && Before(b'.log[u], b'.log[|b.log|])
    {
      assert Logged(b, b.log[u]);
    }
  }

  lemma CutTwice(u: nat)
    ensures (u % SEQS + 1) % SEQS == (u + 1) % SEQS
  {
  }

  lemma NotedNumbered(nextSeq: map<LinkId, nat>, b: Book, link: LinkId, what: Request)
    requires Numbered(nextSeq, b)
    ensures Numbered(Bumped(nextSeq, link), Noted(b, link, what))
  {
    CutTwice(Used(b, link) + 1);
    forall l
      ensures Counts(Bumped(nextSeq, link), Noted(b, link, what), l)
    {
      assert Counts(nextSeq, b, l);
    }
  }

  lemma StillLast(log: seq<Asked>, a: Asked, k: Key, epoch: nat, kind: Kind, token: nat)
    requires LastOn(log, k, epoch, kind, token) && !On(a, k, epoch, kind)
    ensures LastOn(log + [a], k, epoch, kind, token)
  {
  }

  lemma SentFollowed(t: Trace, link: LinkId, what: Request, kind: Kind)
    requires Followed(t.book, Waiting(t, kind), kind)
    ensures Followed(Sent(t, link, what).book, Waiting(Sent(t, link, what), kind), kind)
  {
    var t' := Sent(t, link, what);
    var a := t'.book.log[|t.book.log|];
    forall k
      ensures Follows(t'.book, Waiting(t', kind), kind, k)
    {
      assert Follows(t.book, Waiting(t, kind), kind, k);
      if k in Waiting(t', kind) && !On(a, k, Epoch(t.book, k.0), kind) {
        StillLast(t.book.log, a, k, Epoch(t.book, k.0), kind, Waiting(t, kind)[k]);
      }
    }
  }

  lemma SendOk(nextSeq: map<LinkId, nat>, t: Trace, link: LinkId, what: Request)
    requires Traced(nextSeq, t)
    ensures Traced(Bumped(nextSeq, link), Sent(t, link, what))
  {
    NotedNumbered(nextSeq, t.book, link, what);
    NotedOk(t.book, link, what);
    SentFollowed(t, link, what, OfReserve);
    SentFollowed(t, link, what, OfKick);
  }

  lemma FewerFollowed(b: Book, waiting: map<Key, nat>, kind: Kind, gone: set<Key>)
    requires Followed(b, waiting, kind)
    ensures Followed(b, waiting - gone, kind)
  {
    forall k
      ensures Follows(b, waiting - gone, kind, k)
    {
      assert Follows(b, waiting, kind, k);
    }
  }

  lemma EndOk(nextSeq: map<LinkId, nat>, t: Trace, reserves: set<Key>, kicks: set<Key>)
    requires Traced(nextSeq, t)
    ensures Traced(nextSeq, Ended(t, reserves, kicks))
  {
    FewerFollowed(t.book, t.reserves, OfReserve, reserves);
    FewerFollowed(t.book, t.kicks, OfKick, kicks);
  }

  /** The numbering of these connections starts again. */
  ghost predicate Restarts(b: Book, b': Book, links: iset<LinkId>) {
    && b'.log == b.log
    && (forall l :: Epoch(b', l) == Epoch(b, l) + (if l in links then 1 else 0))
    && (forall l :: Used(b', l) == if l in links then 0 else Used(b, l))
  }

  lemma RestartOk(b: Book, b': Book, links: iset<LinkId>)
    requires BookOk(b) && Restarts(b, b', links)
    ensures BookOk(b')
  {
    forall u | 0 <= u < |b'.log|
      ensures Logged(b', b'.log[u])
    {
      assert Logged(b, b.log[u]);
    }
  }

  lemma RestartFollowed(b: Book, b': Book, links: iset<LinkId>, waiting: map<Key, nat>, left: map<Key, nat>, kind: Kind)
    requires Followed(b, waiting, kind) && Restarts(b, b', links)
    requires forall k :: k in left ==> k.0 !in links && k in waiting && left[k] == waiting[k]
    ensures Followed(b', left, kind)
  {
    forall k
      ensures Follows(b', left, kind, k)
    {
      assert Follows(b, waiting, kind, k);
    }
  }

  lemma DropOk(nextSeq: map<LinkId, nat>, t: Trace, link: LinkId)
    requires Traced(nextSeq, t)
    ensures Traced(nextSeq - {link}, NewEpoch(t, link))
  {
    var t' := NewEpoch(t, link);
    RestartOk(t.book, t'.book, iset{link});
    RestartFollowed(t.book, t'.book, iset{link}, t.reserves, t'.reserves, OfReserve);
    RestartFollowed(t.book, t'.book, iset{link}, t.kicks, t'.kicks, OfKick);
    forall l
      ensures Counts(nextSeq - {link}, t'.book, l)
    {
      assert Counts(nextSeq, t.book, l);
    }
  }

  lemma DropAllOk(nextSeq: map<LinkId, nat>, t: Trace)
    requires Traced(nextSeq, t)
    ensures Traced(map[], NewEpochs(t))
  {
    RestartOk(t.book, AllRestarted(t.book), iset l | l in t.book.epochs.Keys + t.book.used.Keys);
  }

  function WithReserve(tb: Table, link: LinkId, p: PendingReserve): Table {
    tb.(nextSeq := Bumped(tb.nextSeq, link), reserves := tb.reserves[(link, NextSeq(tb.nextSeq, link)) := p],
        reserve := tb.reserve.(sent := tb.reserve.sent + 1))
  }

  function WithKick(tb: Table, link: LinkId, p: PendingKick): Table {
    tb.(nextSeq := Bumped(tb.nextSeq, link), kicks := tb.kicks[(link, NextSeq(tb.nextSeq, link)) := p],
        kick := tb.kick.(sent := tb.kick.sent + 1))
  }

  /** A SetMode takes a number and is not entered. */
  function WithSetMode(tb: Table, link: LinkId): Table {
    tb.(nextSeq := Bumped(tb.nextSeq, link))
  }

  function KickEnsured(tb: Table, link: LinkId, p: PendingKick): Table {
    if HasKick(tb.kicks, link, p.pid) then tb else WithKick(tb, link, p)
  }

  function KicksEnsured(tb: Table, link: LinkId, players: seq<Pid>, serverId: nat, now: nat, n: nat): Table
    requires n <= |players|
  {
    if n == 0 then tb
    else
      var before := KicksEnsured(tb, link, players, serverId, now, n - 1);
      KickEnsured(before, link, PendingKick(now, players[n - 1], serverId))
  }

  function CountReply(r: ReserveTotals, reply: Reply): ReserveTotals {
    match reply
    case AckOk => r.(ok := r.ok + 1)
    case Rejected => r.(rejected := r.rejected + 1)
    case Unsupported => r.(unsupported := r.unsupported + 1)
  }

  function ReserveReplied(tb: Table, k: Key, reply: Reply): Table {
    if k in tb.reserves then tb.(reserves := tb.reserves - {k}, reserve := CountReply(tb.reserve, reply)) else tb
  }

  function KickReplied(tb: Table, k: Key, kicked: bool): Table {
    if k !in tb.kicks then tb
    else tb.(kicks := tb.kicks - {k},
             kick := if kicked then tb.kick.(acked := tb.kick.acked + 1)
                     else tb.kick.(notFound := tb.kick.notFound + 1))
  }

  /** Requests that end without a reply. */
  function EndAll(tb: Table, reserves: set<Key>, kicks: set<Key>, how: Ending): Table {
    var r, k := |reserves * tb.reserves.Keys|, |kicks * tb.kicks.Keys|;
    tb.(reserves := tb.reserves - reserves, kicks := tb.kicks - kicks,
        reserve := match how
                   case TimedOut => tb.reserve.(timeout := tb.reserve.timeout + r)
                   case LinkDown => tb.reserve.(linkDown := tb.reserve.linkDown + r)
                   case Stopped => tb.reserve.(stop := tb.reserve.stop + r),
        kick := match how
                case TimedOut => tb.kick.(timeout := tb.kick.timeout + k)
                case LinkDown => tb.kick.(linkDown := tb.kick.linkDown + k)
                case Stopped => tb.kick.(stop := tb.kick.stop + k))
  }

  function OverdueReserves(tb: Table, timeout: nat, now: nat): set<Key> {
    set k | k in tb.reserves && tb.reserves[k].sentMs + timeout < now
  }

  function OverdueKicks(tb: Table, timeout: nat, now: nat): set<Key> {
    set k | k in tb.kicks && tb.kicks[k].sentMs + timeout < now
  }

  function Expired(tb: Table, timeout: nat, now: nat): Table {
    EndAll(tb, OverdueReserves(tb, timeout, now), OverdueKicks(tb, timeout, now), TimedOut)
  }

  function LinkDropped(tb: Table, link: LinkId): Table {
    EndAll(tb, KeysOf(tb.reserves, link), KeysOf(tb.kicks, link), LinkDown).(nextSeq := tb.nextSeq - {link})
  }

  function AllStopped(tb: Table): Table {
    EndAll(tb, tb.reserves.Keys, tb.kicks.Keys, Stopped).(nextSeq := map[])
  }

  // ---- The books balance ---------------------------------------------------------------------------

  function ReservesEnded(r: ReserveTotals): nat {
    r.ok + r.rejected + r.unsupported + r.timeout + r.linkDown + r.stop
  }

  function KicksEnded(k: KickTotals): nat {
    k.acked + k.notFound + k.timeout + k.linkDown + k.stop
  }

  /** Every request sent has ended in exactly one way, or is pending, or lost its number to another one. */
  predicate ReservesBalance(r: ReserveTotals, pending: nat, lost: nat) {
    r.sent == ReservesEnded(r) + pending + lost
  }

  predicate KicksBalance(k: KickTotals, pending: nat, lost: nat) {
    k.sent == KicksEnded(k) + pending + lost
  }

  ghost predicate Balanced(tb: Table, t: Trace) {
    ReservesBalance(tb.reserve, |tb.reserves|, t.lostReserves) && KicksBalance(tb.kick, |tb.kicks|, t.lostKicks)
  }

  ghost predicate Ok(tb: Table, t: Trace) {
    && Balanced(tb, t) && Traced(tb.nextSeq, t)
    && Covered(tb.reserves, tb.kicks, t) && Carried(tb.reserves, tb.kicks, t)
  }

  predicate NoReserves(r: ReserveTotals) {
    r.sent == r.ok == r.rejected == r.unsupported == r.timeout == r.linkDown == r.stop == 0
  }

  predicate NoKicks(k: KickTotals) {
    k.sent == k.acked == k.notFound == k.timeout == k.linkDown == k.stop == 0
  }

  predicate Nothing(tb: Table, t: Trace) {
    && tb.nextSeq == map[] && tb.reserves == map[] && tb.kicks == map[] && NoReserves(tb.reserve) && NoKicks(tb.kick)
    && t == Trace(Book([], map[], map[]), map[], map[], 0, 0)
  }

  lemma NothingTraced(tb: Table, t: Trace)
    requires Nothing(tb, t)
    ensures Traced(tb.nextSeq, t) && Covered(tb.reserves, tb.kicks, t) && Carried(tb.reserves, tb.kicks, t)
  {
  }

  lemma NothingBalanced(tb: Table, t: Trace)
    requires Nothing(tb, t)
    ensures Balanced(tb, t)
  {
  }

  lemma NothingOk(tb: Table, t: Trace)
    requires Nothing(tb, t)
    ensures Ok(tb, t)
  {
    NothingTraced(tb, t);
    NothingBalanced(tb, t);
  }

  lemma Grow<K, V>(m: map<K, V>, k: K, v: V)
    ensures |m[k := v]| == |m| + (if k in m then 0 else 1)
  {
    assert m[k := v].Keys == m.Keys + {k};
  }

  lemma Shrink<K, V>(m: map<K, V>, gone: set<K>)
    ensures |m - gone| + |gone * m.Keys| == |m|
  {
    assert (m - gone).Keys == m.Keys - gone;
    assert (m.Keys - gone) + (gone * m.Keys) == m.Keys;
  }

  lemma ShrinkByOne<K, V>(m: map<K, V>, k: K)
    ensures |m - {k}| == |m| - (if k in m then 1 else 0)
  {
    Shrink(m, {k});
    assert {k} * m.Keys == if k in m then {k} else {};
  }

  lemma EndBalanced(tb: Table, t: Trace, reserves: set<Key>, kicks: set<Key>, how: Ending)
    requires Balanced(tb, t)
    ensures Balanced(EndAll(tb, reserves, kicks, how), t)
  {
    Shrink(tb.reserves, reserves);
    Shrink(tb.kicks, kicks);
  }

  lemma SendReserveCovered(tb: Table, t: Trace, link: LinkId, p: PendingReserve)
    requires Covered(tb.reserves, tb.kicks, t) && NextSeq(tb.nextSeq, link) == (Used(t.book, link) + 1) % SEQS
    ensures Covered(WithReserve(tb, link, p).reserves, tb.kicks, Sent(t, link, Reserve(p)))
  {
  }

  lemma SendKickCovered(tb: Table, t: Trace, link: LinkId, p: PendingKick)
    requires Covered(tb.reserves, tb.kicks, t) && NextSeq(tb.nextSeq, link) == (Used(t.book, link) + 1) % SEQS
    ensures Covered(tb.reserves, WithKick(tb, link, p).kicks, Sent(t, link, Kick(p)))
  {
  }

  lemma SendReserveCarried(tb: Table, t: Trace, link: LinkId, p: PendingReserve)
    requires Carried(tb.reserves, tb.kicks, t) && NextSeq(tb.nextSeq, link) == (Used(t.book, link) + 1) % SEQS
    ensures Carried(WithReserve(tb, link, p).reserves, tb.kicks, Sent(t, link, Reserve(p)))
  {
    var tb', t' := WithReserve(tb, link, p), Sent(t, link, Reserve(p));
    forall k
      ensures Carries(tb'.reserves, tb.kicks, t', k)
    {
      assert Carries(tb.reserves, tb.kicks, t, k);
    }
  }

  lemma SendKickCarried(tb: Table, t: Trace, link: LinkId, p: PendingKick)
    requires Carried(tb.reserves, tb.kicks, t) && NextSeq(tb.nextSeq, link) == (Used(t.book, link) + 1) % SEQS
    ensures Carried(tb.reserves, WithKick(tb, link, p).kicks, Sent(t, link, Kick(p)))
  {
    var tb', t' := WithKick(tb, link, p), Sent(t, link, Kick(p));
    forall k
      ensures Carries(tb.reserves, tb'.kicks, t', k)
    {
      assert Carries(tb.reserves, tb.kicks, t, k);
    }
  }

  lemma SetModeCarried(reserves: Reserves, kicks: Kicks, t: Trace, link: LinkId)
    requires Carried(reserves, kicks, t)
    ensures Carried(reserves, kicks, Sent(t, link, SetMode))
  {
    var t' := Sent(t, link, SetMode);
    forall k
      ensures Carries(reserves, kicks, t', k)
    {
      assert Carries(reserves, kicks, t, k);
    }
  }

  /** Taking entries out keeps the rest. */
  lemma FewerCarried(reserves: Reserves, kicks: Kicks, t: Trace, reserves': Reserves, kicks': Kicks, t': Trace)
    requires Carried(reserves, kicks, t) && t'.book.log == t.book.log
    requires reserves'.Items <= reserves.Items && kicks'.Items <= kicks.Items
    requires t'.reserves.Items <= t.reserves.Items && t'.kicks.Items <= t.kicks.Items
    ensures Carried(reserves', kicks', t')
  {
    forall k
      ensures Carries(reserves', kicks', t', k)
    {
      assert Carries(reserves, kicks, t, k);
      assert k in reserves' ==> (k, reserves'[k]) in reserves'.Items;
      assert k in kicks' ==> (k, kicks'[k]) in kicks'.Items;
      assert k in t'.reserves ==> (k, t'.reserves[k]) in t'.reserves.Items;
      assert k in t'.kicks ==> (k, t'.kicks[k]) in t'.kicks.Items;
    }
  }

  lemma SendReserveBalanced(tb: Table, t: Trace, link: LinkId, p: PendingReserve)
    requires Balanced(tb, t) && Covered(tb.reserves, tb.kicks, t)
    requires NextSeq(tb.nextSeq, link) == (Used(t.book, link) + 1) % SEQS
    ensures Balanced(WithReserve(tb, link, p), Sent(t, link, Reserve(p)))
  {
    Grow(tb.reserves, (link, NextSeq(tb.nextSeq, link)), p);
  }

  lemma SendKickBalanced(tb: Table, t: Trace, link: LinkId, p: PendingKick)
    requires Balanced(tb, t) && Covered(tb.reserves, tb.kicks, t)
    requires NextSeq(tb.nextSeq, link) == (Used(t.book, link) + 1) % SEQS
    ensures Balanced(WithKick(tb, link, p), Sent(t, link, Kick(p)))
  {
    Grow(tb.kicks, (link, NextSeq(tb.nextSeq, link)), p);
  }

  /** The number the table takes is the one the trace says. */
  lemma NextNumber(nextSeq: map<LinkId, nat>, t: Trace, link: LinkId)
    requires Numbered(nextSeq, t.book)
    ensures NextSeq(nextSeq, link) == (Used(t.book, link) + 1) % SEQS
  {
    assert Counts(nextSeq, t.book, link);
  }

  lemma SendReserveOk(tb: Table, t: Trace, link: LinkId, p: PendingReserve)
    requires Ok(tb, t)
    ensures Ok(WithReserve(tb, link, p), Sent(t, link, Reserve(p)))
  {
    NextNumber(tb.nextSeq, t, link);
    SendReserveCovered(tb, t, link, p);
    SendReserveCarried(tb, t, link, p);
    SendReserveBalanced(tb, t, link, p);
    SendOk(tb.nextSeq, t, link, Reserve(p));
  }

  lemma SendKickOk(tb: Table, t: Trace, link: LinkId, p: PendingKick)
    requires Ok(tb, t)
    ensures Ok(WithKick(tb, link, p), Sent(t, link, Kick(p)))
  {
    NextNumber(tb.nextSeq, t, link);
    SendKickCovered(tb, t, link, p);
    SendKickCarried(tb, t, link, p);
    SendKickBalanced(tb, t, link, p);
    SendOk(tb.nextSeq, t, link, Kick(p));
  }

  lemma SetModeOk(tb: Table, t: Trace, link: LinkId)
    requires Ok(tb, t)
    ensures Ok(WithSetMode(tb, link), Sent(t, link, SetMode))
  {
    SetModeCarried(tb.reserves, tb.kicks, t, link);
    SendOk(tb.nextSeq, t, link, SetMode);
  }

  lemma ReserveReplyBalanced(tb: Table, t: Trace, k: Key, reply: Reply)
    requires Balanced(tb, t)
    ensures Balanced(ReserveReplied(tb, k, reply), t)
  {
    ShrinkByOne(tb.reserves, k);
  }

  lemma KickReplyBalanced(tb: Table, t: Trace, k: Key, kicked: bool)
    requires Balanced(tb, t)
    ensures Balanced(KickReplied(tb, k, kicked), t)
  {
    ShrinkByOne(tb.kicks, k);
  }

  lemma EndCovered(reserves: Reserves, kicks: Kicks, t: Trace, goneReserves: set<Key>, goneKicks: set<Key>)
    requires Covered(reserves, kicks, t)
    requires Carried(reserves, kicks, t)
    ensures Covered(reserves - goneReserves, kicks - goneKicks, Ended(t, goneReserves, goneKicks))
    ensures Carried(reserves - goneReserves, kicks - goneKicks, Ended(t, goneReserves, goneKicks))
  {
    FewerCarried(reserves, kicks, t, reserves - goneReserves, kicks - goneKicks, Ended(t, goneReserves, goneKicks));
  }

  lemma ReserveReplyOk(tb: Table, t: Trace, k: Key, reply: Reply)
    requires Ok(tb, t)
    ensures Ok(ReserveReplied(tb, k, reply), ReserveAnswered(t, k))
  {
    if k in tb.reserves {
      ReserveReplyBalanced(tb, t, k, reply);
      FewerCarried(tb.reserves, tb.kicks, t, tb.reserves - {k}, tb.kicks, ReserveAnswered(t, k));
      FewerFollowed(t.book, t.reserves, OfReserve, {k});
    }
  }

  lemma KickReplyOk(tb: Table, t: Trace, k: Key, kicked: bool)
    requires Ok(tb, t)
    ensures Ok(KickReplied(tb, k, kicked), KickAnswered(t, k))
  {
    if k in tb.kicks {
      KickReplyBalanced(tb, t, k, kicked);
      FewerCarried(tb.reserves, tb.kicks, t, tb.reserves, tb.kicks - {k}, KickAnswered(t, k));
      FewerFollowed(t.book, t.kicks, OfKick, {k});
    }
  }

  lemma EndAllOk(tb: Table, t: Trace, reserves: set<Key>, kicks: set<Key>, how: Ending)
    requires Ok(tb, t)
    ensures Ok(EndAll(tb, reserves, kicks, how), Ended(t, reserves, kicks))
  {
    var after := EndAll(tb, reserves, kicks, how);
    EndBalanced(tb, t, reserves, kicks, how);
    EndCovered(tb.reserves, tb.kicks, t, reserves, kicks);
    assert after.reserves == tb.reserves - reserves && after.kicks == tb.kicks - kicks;
    EndOk(tb.nextSeq, t, reserves, kicks);
  }

  lemma DropCovered(reserves: Reserves, kicks: Kicks, t: Trace, link: LinkId)
    requires Covered(reserves, kicks, t) && Carried(reserves, kicks, t)
    ensures Covered(reserves - KeysOf(reserves, link), kicks - KeysOf(kicks, link), NewEpoch(t, link))
    ensures Carried(reserves - KeysOf(reserves, link), kicks - KeysOf(kicks, link), NewEpoch(t, link))
  {
    FewerCarried(reserves, kicks, t, reserves - KeysOf(reserves, link), kicks - KeysOf(kicks, link), NewEpoch(t, link));
  }

  lemma LinkDroppedOk(tb: Table, t: Trace, link: LinkId)
    requires Ok(tb, t)
    ensures Ok(LinkDropped(tb, link), NewEpoch(t, link))
  {
    EndBalanced(tb, t, KeysOf(tb.reserves, link), KeysOf(tb.kicks, link), LinkDown);
    DropCovered(tb.reserves, tb.kicks, t, link);
    DropOk(tb.nextSeq, t, link);
  }

  lemma AllStoppedOk(tb: Table, t: Trace)
    requires Ok(tb, t)
    ensures Ok(AllStopped(tb), NewEpochs(t)) && AllStopped(tb).reserves == map[] && AllStopped(tb).kicks == map[]
  {
    EndBalanced(tb, t, tb.reserves.Keys, tb.kicks.Keys, Stopped);
    assert tb.reserves - tb.reserves.Keys == map[] && tb.kicks - tb.kicks.Keys == map[];
    DropAllOk(tb.nextSeq, t);
  }

  /** While a connection has numbers left, those of its pending requests are below the next one. */
  lemma NumbersBelow(nextSeq: map<LinkId, nat>, t: Trace, k: Key)
    requires Traced(nextSeq, t) && Used(t.book, k.0) + 1 < SEQS && (k in t.reserves || k in t.kicks)
    ensures 0 < k.1 < NextSeq(nextSeq, k.0)
  {
    NextNumber(nextSeq, t, k.0);
    var kind := if k in t.reserves then OfReserve else OfKick;
    assert Follows(t.book, Waiting(t, kind), kind, k);
    assert Logged(t.book, t.book.log[Waiting(t, kind)[k]]);
  }

  /** So the next one is free, and giving it out costs no request its number. */
  lemma NumberIsFree(nextSeq: map<LinkId, nat>, t: Trace, link: LinkId, what: Request)
    requires Traced(nextSeq, t) && Used(t.book, link) + 1 < SEQS
    ensures (link, NextSeq(nextSeq, link)) !in t.reserves && (link, NextSeq(nextSeq, link)) !in t.kicks
    ensures Sent(t, link, what).lostReserves == t.lostReserves && Sent(t, link, what).lostKicks == t.lostKicks
  {
    NextNumber(nextSeq, t, link);
    var k := (link, NextSeq(nextSeq, link));
    if k in t.reserves || k in t.kicks {
      NumbersBelow(nextSeq, t, k);
    }
  }

  lemma NewKick(kicks: Kicks, k: Key, p: PendingKick)
    requires OneKickEach(kicks) && !HasKick(kicks, k.0, p.pid)
    ensures OneKickEach(kicks[k := p])
  {
    var kicks' := kicks[k := p];
    forall m, n
      ensures Apart(kicks', m, n)
    {
      assert Apart(kicks, m, n);
    }
  }

  /** The numbers on one connection are below its next one. */
  ghost predicate Below(tb: Table, link: LinkId) {
    forall k :: k in tb.kicks && k.0 == link ==> k.1 < NextSeq(tb.nextSeq, link)
  }

  lemma EnsureOne(tb: Table, link: LinkId, p: PendingKick)
    requires Below(tb, link) && NextSeq(tb.nextSeq, link) + 1 < SEQS
    ensures var after := KickEnsured(tb, link, p);
            && Below(after, link) && NextSeq(after.nextSeq, link) <= NextSeq(tb.nextSeq, link) + 1
            && HasKick(after.kicks, link, p.pid)
            && forall pid :: HasKick(tb.kicks, link, pid) ==> HasKick(after.kicks, link, pid)
  {
    var k := (link, NextSeq(tb.nextSeq, link));
    var after := KickEnsured(tb, link, p);
    if !HasKick(tb.kicks, link, p.pid) {
      assert k in after.kicks && after.kicks[k].pid == p.pid;
      forall pid | HasKick(tb.kicks, link, pid)
        ensures HasKick(after.kicks, link, pid)
      {
        var m :| m in tb.kicks && m.0 == link && tb.kicks[m].pid == pid;
        assert m in after.kicks && after.kicks[m].pid == pid;
      }
    }
  }

  lemma {:induction false} KicksStayBelow(tb: Table, link: LinkId, players: seq<Pid>, serverId: nat, now: nat, n: nat)
    requires n <= |players| && Below(tb, link) && NextSeq(tb.nextSeq, link) + n < SEQS
    ensures var after := KicksEnsured(tb, link, players, serverId, now, n);
            Below(after, link) && NextSeq(after.nextSeq, link) <= NextSeq(tb.nextSeq, link) + n
  {
    if n > 0 {
      KicksStayBelow(tb, link, players, serverId, now, n - 1);
      var before := KicksEnsured(tb, link, players, serverId, now, n - 1);
      EnsureOne(before, link, PendingKick(now, players[n - 1], serverId));
    }
  }

  /** After a FullSync every player it conflicts on has a kick under way, if the numbers last. */
  lemma {:induction false} ConflictsAreKicked(tb: Table, link: LinkId, players: seq<Pid>, serverId: nat, now: nat,
                                              n: nat)
    requires n <= |players| && Below(tb, link) && NextSeq(tb.nextSeq, link) + n < SEQS
    ensures AllKicked(KicksEnsured(tb, link, players, serverId, now, n).kicks, link, players, n)
  {
    if n > 0 {
      ConflictsAreKicked(tb, link, players, serverId, now, n - 1);
      KicksStayBelow(tb, link, players, serverId, now, n - 1);
      var before := KicksEnsured(tb, link, players, serverId, now, n - 1);
      EnsureOne(before, link, PendingKick(now, players[n - 1], serverId));
    }
  }

  lemma OkIsBelow(tb: Table, t: Trace, link: LinkId)
    requires Covered(tb.reserves, tb.kicks, t) && Traced(tb.nextSeq, t) && Used(t.book, link) + 1 < SEQS
    ensures Below(tb, link)
  {
    forall k | k in tb.kicks && k.0 == link
      ensures k.1 < NextSeq(tb.nextSeq, link)
    {
      NumbersBelow(tb.nextSeq, t, k);
    }
  }

  lemma FewerKicks(kicks: Kicks, gone: set<Key>)
    requires OneKickEach(kicks)
    ensures OneKickEach(kicks - gone)
  {
    var kicks' := kicks - gone;
    forall m, n
      ensures Apart(kicks', m, n)
    {
      assert Apart(kicks, m, n);
    }
  }

  // ---- The tables as an object -----------------------------------------------------------------------

  class Requests {
    const timeoutMs: nat
    var table: Table
    ghost var trace: Trace

    ghost predicate Valid()
      reads this
    {
      OneKickEach(table.kicks) && Ok(table, trace)
    }

    constructor (timeoutMs: nat)
      ensures Valid() && this.timeoutMs == timeoutMs && table.reserve.sent == table.kick.sent == 0
      ensures trace == Trace(Book([], map[], map[]), map[], map[], 0, 0)
    {
      this.timeoutMs := timeoutMs;
      table := Table(map[], map[], map[], ReserveTotals(0, 0, 0, 0, 0, 0, 0), KickTotals(0, 0, 0, 0, 0, 0));
      trace := Trace(Book([], map[], map[]), map[], map[], 0, 0);
      new;
      NothingOk(table, trace);
    }

    method SendReserve(link: LinkId, p: PendingReserve)
      requires Valid()
      modifies this
      ensures Valid() && table == WithReserve(old(table), link, p) && trace == Sent(old(trace), link, Reserve(p))
      ensures var k := (link, NextSeq(old(table).nextSeq, link));
              k in table.reserves && table.reserves[k] == p && table.reserve.sent == old(table).reserve.sent + 1
    {
      SendReserveOk(table, trace, link, p);
      trace := Sent(trace, link, Reserve(p));
      table := WithReserve(table, link, p);
    }

    /** At most one kick of a player is under way on a connection. */
    method SendKick(link: LinkId, p: PendingKick)
      requires Valid() && !HasKick(table.kicks, link, p.pid)
      modifies this
      ensures Valid() && table == WithKick(old(table), link, p) && trace == Sent(old(trace), link, Kick(p))
      ensures var k := (link, NextSeq(old(table).nextSeq, link));
              k in table.kicks && table.kicks[k] == p && table.kick.sent == old(table).kick.sent + 1
    {
      SendKickOk(table, trace, link, p);
      NewKick(table.kicks, (link, NextSeq(table.nextSeq, link)), p);
      trace := Sent(trace, link, Kick(p));
      table := WithKick(table, link, p);
    }

    /** request_set_mode takes a number and does not wait. */
    method SendSetMode(link: LinkId) returns (seqNo: nat)
      requires Valid()
      modifies this
      ensures Valid() && table == WithSetMode(old(table), link) && trace == Sent(old(trace), link, SetMode)
      ensures seqNo == NextSeq(old(table).nextSeq, link)
    {
      SetModeOk(table, trace, link);
      seqNo := NextSeq(table.nextSeq, link);
      trace := Sent(trace, link, SetMode);
      table := WithSetMode(table, link);
    }

    /** has_pending_kick, the scan. */
    method FindKick(link: LinkId, pid: Pid) returns (found: bool)
      ensures found == HasKick(table.kicks, link, pid)
    {
      var left := table.kicks.Keys;
      while left != {}
        invariant left <= table.kicks.Keys
        invariant forall k :: k in table.kicks && k !in left ==> !(k.0 == link && table.kicks[k].pid == pid)
        decreases left
      {
        var k :| k in left;
        if k.0 == link && table.kicks[k].pid == pid {
          return true;
        }
        left := left - {k};
      }
      return false;
    }

    /** Sends a kick unless one is under way. */
    method EnsureKick(link: LinkId, p: PendingKick)
      requires Valid()
      modifies this
      ensures Valid() && table == KickEnsured(old(table), link, p)
    {
      var pending := FindKick(link, p.pid);
      if !pending {
        SendKick(link, p);
      }
    }

    /** One after another, for each of these players; all of them have a kick under way then, if the numbers last. */
    method EnsureKicks(link: LinkId, players: seq<Pid>, serverId: nat, now: nat)
      requires Valid()
      modifies this
      ensures Valid() && table == KicksEnsured(old(table), link, players, serverId, now, |players|)
      ensures Used(old(trace).book, link) + 1 + |players| < SEQS ==> AllKicked(table.kicks, link, players, |players|)
    {
      if Used(trace.book, link) + 1 + |players| < SEQS {
        OkIsBelow(table, trace, link);
        NextNumber(table.nextSeq, trace, link);
        ConflictsAreKicked(table, link, players, serverId, now, |players|);
      }
      for i := 0 to |players|
        invariant Valid() && table == KicksEnsured(old(table), link, players, serverId, now, i)
      {
        EnsureKick(link, PendingKick(now, players[i], serverId));
      }
    }

    /** A reply to a Reserve. One that nothing waits for is ignored. */
    method OnReserveReply(link: LinkId, seqNo: nat, reply: Reply) returns (matched: Option<PendingReserve>)
      requires Valid()
      modifies this
      ensures Valid() && table == ReserveReplied(old(table), (link, seqNo), reply)
      ensures matched == if (link, seqNo) in old(table).reserves then Some(old(table).reserves[(link, seqNo)]) else None
      ensures table.reserves == old(table).reserves - {(link, seqNo)} && table.kicks == old(table).kicks
      ensures matched.Some? ==> table.reserve == match reply
        case AckOk => old(table).reserve.(ok := old(table).reserve.ok + 1)
        case Rejected => old(table).reserve.(rejected := old(table).reserve.rejected + 1)
        case Unsupported => old(table).reserve.(unsupported := old(table).reserve.unsupported + 1)
      ensures trace == ReserveAnswered(old(trace), (link, seqNo))
    {
      var k := (link, seqNo);
      ReserveReplyOk(table, trace, k, reply);
      trace := ReserveAnswered(trace, k);
      if k !in table.reserves {
        return None;
      }
      matched := Some(table.reserves[k]);
      table := ReserveReplied(table, k, reply);
    }

    method OnKickReply(link: LinkId, seqNo: nat, kicked: bool) returns (matched: Option<PendingKick>)
      requires Valid()
      modifies this
      ensures Valid() && table == KickReplied(old(table), (link, seqNo), kicked)
      ensures matched == if (link, seqNo) in old(table).kicks then Some(old(table).kicks[(link, seqNo)]) else None
      ensures table.kicks == old(table).kicks - {(link, seqNo)} && table.reserves == old(table).reserves
      ensures matched.Some? ==> table.kick == if kicked then old(table).kick.(acked := old(table).kick.acked + 1)
                                              else old(table).kick.(notFound := old(table).kick.notFound + 1)
      ensures trace == KickAnswered(old(trace), (link, seqNo))
    {
      var k := (link, seqNo);
      KickReplyOk(table, trace, k, kicked);
      trace := KickAnswered(trace, k);
      if k !in table.kicks {
        return None;
      }
      matched := Some(table.kicks[k]);
      FewerKicks(table.kicks, {k});
      table := KickReplied(table, k, kicked);
    }

    /** on_sweep: requests whose time is up. The numbering of a connection survives, so a late reply finds nothing. */
    method Expire(now: nat)
      requires Valid()
      modifies this
      ensures Valid() && table == Expired(old(table), timeoutMs, now)
      ensures forall k :: k in table.reserves <==>
                k in old(table).reserves && old(table).reserves[k].sentMs + timeoutMs >= now
      ensures forall k :: k in table.kicks <==> k in old(table).kicks && old(table).kicks[k].sentMs + timeoutMs >= now
      ensures table.reserve == old(table).reserve.(timeout := table.reserve.timeout)
              && table.kick == old(table).kick.(timeout := table.kick.timeout) && table.nextSeq == old(table).nextSeq
      ensures trace == Ended(old(trace), OverdueReserves(old(table), timeoutMs, now),
                             OverdueKicks(old(table), timeoutMs, now))
    {
      var reserves, kicks := OverdueReserves(table, timeoutMs, now), OverdueKicks(table, timeoutMs, now);
      EndAllOk(table, trace, reserves, kicks, TimedOut);
      FewerKicks(table.kicks, kicks);
      trace := Ended(trace, reserves, kicks);
      table := EndAll(table, reserves, kicks, TimedOut);
    }

    /** on_s2s_gone: the connection's requests fail and its numbering goes. */
    method DropLink(link: LinkId)
      requires Valid()
      modifies this
      ensures Valid() && table == LinkDropped(old(table), link) && trace == NewEpoch(old(trace), link)
      ensures forall k :: k in table.reserves <==> k in old(table).reserves && k.0 != link
      ensures forall k :: k in table.kicks <==> k in old(table).kicks && k.0 != link
      ensures table.reserve == old(table).reserve.(linkDown := table.reserve.linkDown)
              && table.kick == old(table).kick.(linkDown := table.kick.linkDown)
              && table.nextSeq == old(table).nextSeq - {link}
    {
      LinkDroppedOk(table, trace, link);
      FewerKicks(table.kicks, KeysOf(table.kicks, link));
      trace := NewEpoch(trace, link);
      table := LinkDropped(table, link);
    }

    /** shutdown: whatever is left has failed. After it every request sent is accounted for. */
    method Stop()
      requires Valid()
      modifies this
      ensures Valid() && table == AllStopped(old(table)) && table.reserves == map[] && table.kicks == map[]
      ensures trace == NewEpochs(old(trace)) && table.nextSeq == map[]
      ensures table.reserve == old(table).reserve.(stop := table.reserve.stop)
              && table.kick == old(table).kick.(stop := table.kick.stop)
      ensures table.reserve.sent == ReservesEnded(table.reserve) + trace.lostReserves
      ensures table.kick.sent == KicksEnded(table.kick) + trace.lostKicks
    {
      AllStoppedOk(table, trace);
      trace := NewEpochs(trace);
      table := AllStopped(table);
    }
  }

}

/** Requests and replies in any order, over whole runs. */
module LateReplies {
  import opened RouterRequests

  datatype State = State(table: Table, trace: Trace)

  datatype Step =
    | AskReserve(link: LinkId, reserve: PendingReserve)
    | AskKick(link: LinkId, kick: PendingKick)
    | AskSetMode(link: LinkId)
    | AnswerReserve(k: Key, reply: Reply)
    | AnswerKick(k: Key, kicked: bool)
    | Sweep(timeout: nat, now: nat)
    | LinkGone(link: LinkId)
    | Shutdown
    | Elsewhere                  // nothing is asked or answered

  function Next(st: State, step: Step): State {
    var State(tb, t) := st;
    match step
    case AskReserve(link, p) => State(WithReserve(tb, link, p), Sent(t, link, Reserve(p)))
    case AskKick(link, p) => State(WithKick(tb, link, p), Sent(t, link, Kick(p)))
    case AskSetMode(link) => State(WithSetMode(tb, link), Sent(t, link, SetMode))
    case AnswerReserve(k, reply) => State(ReserveReplied(tb, k, reply), ReserveAnswered(t, k))
    case AnswerKick(k, kicked) => State(KickReplied(tb, k, kicked), KickAnswered(t, k))
    case Sweep(timeout, now) =>
      State(Expired(tb, timeout, now), Ended(t, OverdueReserves(tb, timeout, now), OverdueKicks(tb, timeout, now)))
    case LinkGone(link) => State(LinkDropped(tb, link), NewEpoch(t, link))
    case Shutdown => State(AllStopped(tb), NewEpochs(t))
    case Elsewhere => st
  }

  ghost predicate IsRun(states: seq<State>, steps: seq<Step>) {
    && |states| == |steps| + 1 && Nothing(states[0].table, states[0].trace)
    && forall i :: 0 <= i < |steps| ==> states[i + 1] == Next(states[i], steps[i])
  }

  lemma StepOk(st: State, step: Step)
    requires Ok(st.table, st.trace)
    ensures Ok(Next(st, step).table, Next(st, step).trace)
  {
    var State(tb, t) := st;
    match step
    case AskReserve(link, p) => SendReserveOk(tb, t, link, p);
    case AskKick(link, p) => SendKickOk(tb, t, link, p);
    case AskSetMode(link) => SetModeOk(tb, t, link);
    case AnswerReserve(k, reply) => ReserveReplyOk(tb, t, k, reply);
    case AnswerKick(k, kicked) => KickReplyOk(tb, t, k, kicked);
    case Sweep(timeout, now) =>
      EndAllOk(tb, t, OverdueReserves(tb, timeout, now), OverdueKicks(tb, timeout, now), TimedOut);
    case LinkGone(link) => LinkDroppedOk(tb, t, link);
    case Shutdown => AllStoppedOk(tb, t);
    case Elsewhere =>
  }

  /** Every request sent is at all times ended in one way, pending, or has lost its number. */
  lemma {:induction false} RunOk(states: seq<State>, steps: seq<Step>, k: nat)
    requires IsRun(states, steps) && k < |states|
    ensures Ok(states[k].table, states[k].trace)
  {
    if k == 0 {
      NothingOk(states[0].table, states[0].trace);
    } else {
      RunOk(states, steps, k - 1);
      StepOk(states[k - 1], steps[k - 1]);
    }
  }

  lemma {:induction false} LogGrows(states: seq<State>, steps: seq<Step>, i: nat, j: nat)
    requires IsRun(states, steps) && i <= j < |states|
    ensures states[i].trace.book.log <= states[j].trace.book.log
  {
    if i < j {
      LogGrows(states, steps, i, j - 1);
    }
  }

  // ---- What a late reply finds ----------------------------------------------------------------------

  /** The number a request went out under, which its reply brings back. */
  function KeyOf(a: Asked): Key {
    (a.link, a.n % SEQS)
  }

  /** Another request of the kind has had the number since, in the same epoch. */
  ghost predicate NumberReused(log: seq<Asked>, token: nat)
    requires token < |log|
  {
    var a := log[token];
    exists u :: token < u < |log| && On(log[u], KeyOf(a), a.epoch, KindOf(a.what))
  }

  /** Some request waits under the number of this one. */
  predicate Awaited(st: State, a: Asked) {
    KeyOf(a) in Waiting(st.trace, KindOf(a.what))
  }

  function Holder(st: State, a: Asked): nat
    requires Awaited(st, a)
  {
    Waiting(st.trace, KindOf(a.what))[KeyOf(a)]
  }

  /** The request a reply is matched to at some later moment is the one it answers exactly if the numbering still
      stands and the number has not been given out again. */
  lemma ReplyMatchesIff(states: seq<State>, steps: seq<Step>, i: nat, j: nat, token: nat)
    requires IsRun(states, steps) && i <= j < |states| && token < |states[i].trace.book.log|
    requires Awaited(states[j], states[i].trace.book.log[token])
    ensures var a := states[i].trace.book.log[token];
            var b := states[j].trace.book;
            && token < |b.log| && b.log[token] == a
            && (Holder(states[j], a) == token <==> Epoch(b, a.link) == a.epoch && !NumberReused(b.log, token))
  {
    LogGrows(states, steps, i, j);
    RunOk(states, steps, j);
    var a := states[i].trace.book.log[token];
    assert Follows(states[j].trace.book, Waiting(states[j].trace, KindOf(a.what)), KindOf(a.what), KeyOf(a));
  }

  /** That takes 2^32 numbers on the connection. */
  lemma NumberStaysUnique(b: Book, token: nat)
    requires BookOk(b) && token < |b.log| && b.log[token].epoch == Epoch(b, b.log[token].link)
    requires Used(b, b.log[token].link) < b.log[token].n + SEQS
    ensures !NumberReused(b.log, token)
  {
    var a := b.log[token];
    forall u | token < u < |b.log|
      ensures !On(b.log[u], KeyOf(a), a.epoch, KindOf(a.what))
    {
      assert Before(a, b.log[u]) && Logged(b, b.log[u]);
    }
  }

  /** While fewer than 2^32 numbers have been given out on the connection since, a reply finds the request it answers
      pending, or nothing; another one exactly if the connection's numbering has started again. */
  lemma ReplyFindsItsOwnRequest(states: seq<State>, steps: seq<Step>, i: nat, j: nat, token: nat)
    requires IsRun(states, steps) && i <= j < |states| && token < |states[i].trace.book.log|
    requires var a := states[i].trace.book.log[token];
             Awaited(states[j], a) && Used(states[j].trace.book, a.link) < a.n + SEQS
    ensures var a := states[i].trace.book.log[token];
            Holder(states[j], a) == token <==> Epoch(states[j].trace.book, a.link) == a.epoch
  {
    ReplyMatchesIff(states, steps, i, j, token);
    RunOk(states, steps, j);
    var a, b := states[i].trace.book.log[token], states[j].trace.book;
    if Epoch(b, a.link) == a.epoch {
      NumberStaysUnique(b, token);
    }
  }

  /** So what the handler of the reply gets to see is what was asked then. */
  lemma LateReplySeesWhatWasAsked(states: seq<State>, steps: seq<Step>, i: nat, j: nat, token: nat)
    requires IsRun(states, steps) && i <= j < |states| && token < |states[i].trace.book.log|
    requires var a := states[i].trace.book.log[token];
             Epoch(states[j].trace.book, a.link) == a.epoch && Used(states[j].trace.book, a.link) < a.n + SEQS
    ensures var a, tb := states[i].trace.book.log[token], states[j].table;
            && (a.what.Reserve? && KeyOf(a) in tb.reserves ==> tb.reserves[KeyOf(a)] == a.what.reserve)
            && (a.what.Kick? && KeyOf(a) in tb.kicks ==> tb.kicks[KeyOf(a)] == a.what.kick)
  {
    RunOk(states, steps, j);
    var a := states[i].trace.book.log[token];
    if Awaited(states[j], a) {
      ReplyFindsItsOwnRequest(states, steps, i, j, token);
      LogGrows(states, steps, i, j);
      assert Carries(states[j].table.reserves, states[j].table.kicks, states[j].trace, KeyOf(a));
    }
  }

  /** Until then no request loses its number either. */
  lemma {:induction false} NothingIsLost(states: seq<State>, steps: seq<Step>, k: nat)
    requires IsRun(states, steps) && k < |states|
    requires forall i, link :: 0 <= i < k ==> Used(states[i].trace.book, link) + 1 < SEQS
    ensures states[k].trace.lostReserves == states[k].trace.lostKicks == 0
  {
    if k > 0 {
      NothingIsLost(states, steps, k - 1);
      RunOk(states, steps, k - 1);
      var State(tb, t) := states[k - 1];
      match steps[k - 1]
      case AskReserve(link, p) => NumberIsFree(tb.nextSeq, t, link, Reserve(p));
      case AskKick(link, p) => NumberIsFree(tb.nextSeq, t, link, Kick(p));
      case _ =>
    }
  }

  // ---- Inputs at which a reply is taken for another's -----------------------------------------------

  const KICK_7 := PendingKick(0, 7, 1)
  const KICK_8 := PendingKick(0, 8, 1)

  /** The kick of player 7 was request 0, and its reply would be taken for one to a later kick, of player 8. */
  predicate TakenForAnother(st: State, a: Asked, later: nat) {
    && a.what == Kick(KICK_7) && |st.trace.book.log| > 0 && st.trace.book.log[0] == a
    && Awaited(st, a) && Holder(st, a) == later > 0
    && KeyOf(a) in st.table.kicks && st.table.kicks[KeyOf(a)] == KICK_8
  }

  lemma FirstKick() returns (states: seq<State>, steps: seq<Step>)
    ensures |steps| == 1 && |states| == 2 && states[1].trace.book.log == [Asked(5, 0, 1, Kick(KICK_7))]
    ensures Used(states[1].trace.book, 5) == 1 && Epoch(states[1].trace.book, 5) == 0
    ensures IsRun(states, steps)
  {
    steps := [AskKick(5, KICK_7)];
    var s0 := State(Table(map[], map[], map[], ReserveTotals(0, 0, 0, 0, 0, 0, 0), KickTotals(0, 0, 0, 0, 0, 0)),
                    Trace(Book([], map[], map[]), map[], map[], 0, 0));
    states := [s0, Next(s0, steps[0])];
  }

  lemma OneMore(states: seq<State>, steps: seq<Step>, step: Step)
    requires IsRun(states, steps)
    ensures IsRun(states + [Next(states[|steps|], step)], steps + [step])
  {
  }

  /** Kick 7, then the connection is gone. */
  lemma KickThenGone() returns (states: seq<State>, steps: seq<Step>)
    ensures IsRun(states, steps) && |steps| == 2 && |states| == 3 && steps[1] == LinkGone(5)
    ensures states[2].trace.book.log == [Asked(5, 0, 1, Kick(KICK_7))] && Used(states[2].trace.book, 5) == 0
  {
    var one, kick := FirstKick();
    OneMore(one, kick, LinkGone(5));
    steps := kick + [LinkGone(5)];
    states := one + [Next(one[1], LinkGone(5))];
  }

  lemma ThenKick(states: seq<State>, steps: seq<Step>, a: Asked) returns (states': seq<State>, steps': seq<Step>)
    requires IsRun(states, steps) && a == Asked(5, 0, 1, Kick(KICK_7))
    requires var b := states[|steps|].trace.book; |b.log| > 0 && b.log[0] == a && (Used(b, 5) + 1) % SEQS == 1
    ensures IsRun(states', steps') && states' == states + [Next(states[|steps|], AskKick(5, KICK_8))]
    ensures steps' == steps + [AskKick(5, KICK_8)]
    ensures TakenForAnother(states'[|steps'|], a, |states[|steps|].trace.book.log|)
  {
    var last := states[|steps|];
    RunOk(states, steps, |steps|);
    NextNumber(last.table.nextSeq, last.trace, 5);
    steps' := steps + [AskKick(5, KICK_8)];
    states' := states + [Next(last, AskKick(5, KICK_8))];
  }

  /** After the connection was reported gone its numbers start again, so request 1 has the number of request 0. */
  lemma ReplyAcrossEpochsCanMatchAnother() returns (states: seq<State>, steps: seq<Step>)
    ensures IsRun(states, steps) && |steps| == 3 && steps[1] == LinkGone(5)
    ensures TakenForAnother(states[3], Asked(5, 0, 1, Kick(KICK_7)), 1)
  {
    var gone, first := KickThenGone();
    assert |gone[2].trace.book.log| == 1 && (Used(gone[2].trace.book, 5) + 1) % SEQS == 1;
    states, steps := ThenKick(gone, first, Asked(5, 0, 1, Kick(KICK_7)));
    assert |steps| == 3 && |gone| == 3;
  }

  lemma {:induction false} KickThenModes(m: nat) returns (states: seq<State>, steps: seq<Step>)
    ensures |steps| == m + 1 && IsRun(states, steps)
    ensures var b := states[m + 1].trace.book;
            && |b.log| == m + 1 && b.log[0] == Asked(5, 0, 1, Kick(KICK_7))
            && Used(b, 5) == m + 1 && Epoch(b, 5) == 0
  {
    if m == 0 {
      states, steps := FirstKick();
    } else {
      states, steps := KickThenModes(m - 1);
      states := states + [Next(states[m], AskSetMode(5))];
      steps := steps + [AskSetMode(5)];
    }
  }

  /** 2^32 requests later the number comes round again. */
  lemma ReplyAfterAllNumbersCanMatchAnother() returns (states: seq<State>, steps: seq<Step>)
    ensures IsRun(states, steps) && TakenForAnother(states[|steps|], Asked(5, 0, 1, Kick(KICK_7)), SEQS)
    ensures Epoch(states[|steps|].trace.book, 5) == 0
  {
    states, steps := KickThenModes(SEQS - 1);
    states, steps := ThenKick(states, steps, Asked(5, 0, 1, Kick(KICK_7)));
  }
}

/** The router over the registry: every handler's critical section. */
module SessionRouter {
  import opened Assignment
  import opened Wrappers
  import opened ServerList
  import opened RegistryTables
  import ConnectionTable
  import R = RouterRequests

  /** Link holds taken, returned (unregister, gone, stale revive, stale sweep), and left over at shutdown. */
  datatype Holds = Holds(acquired: nat, unregister: nat, gone: nat, revive: nat, sweep: nat, leftover: nat)

  function Returned(h: Holds): nat {
    h.unregister + h.gone + h.revive + h.sweep
  }

  datatype Login = Busy | NoServer | Granted(place: Assigned)

  datatype ReserveAnswer = Accepted | Refused(draining: bool) | NotSupported

  function Asked(pid: Pid, place: Assigned, now: nat): R.PendingReserve {
    R.PendingReserve(now, pid, place.serverId, place.issueId)
  }

  function PlaceOf(r: Login): Option<Assigned> {
    if r.Granted? then Some(r.place) else None
  }

  function LoginOf(a: Option<Assigned>): Login {
    if a.None? then NoServer else Granted(a.value)
  }

  /** An assignment's reservation and number, as those of the login. */
  lemma GrantedAsAssigned(a: Option<Assigned>, pid: Pid, expireAt: nat, before: Reservations, after: Reservations,
                          issues: Issues, issues': Issues, next: nat, next': nat)
    requires a.None? ==> after == before && issues' == issues && next' == next
    requires a.Some? ==>
      && after == before[pid := Reservation(a.value.serverId, expireAt, a.value.issueId)]
      && a.value.issueId == next && next' == next + 1 && next !in issues
      && issues' == issues[next := (pid, a.value.serverId)]
    ensures var r := LoginOf(a);
            && PlaceOf(r) == a && !r.Busy? && after == AfterLogin(before, pid, r, expireAt)
            && if r.Granted? then r.place.issueId == next && next' == next + 1 && next !in issues
                                  && issues' == issues[next := (pid, r.place.serverId)]
               else next' == next && issues' == issues
  {
  }

  lemma SamePlace(entries: seq<Entry>, r: Reservations, now: nat, a: Option<Assigned>, b: Option<Assigned>, at: nat)
    requires a == b && Chosen(entries, r, now, a, at)
    ensures Chosen(entries, r, now, b, at)
  {
  }

  /** The link the player is connected through, if it is alive. */
  function LiveLinkOf(entries: seq<Entry>, t: ConnectionTable.Table, pid: Pid): Option<LinkId> {
    if pid in t then LinkFor(entries, t[pid], 0) else None
  }

  /** A granted login has a reservation; any other changes nothing. */
  function AfterLogin(r: Reservations, pid: Pid, login: Login, expireAt: nat): Reservations {
    if login.Granted? then r[pid := Reservation(login.place.serverId, expireAt, login.place.issueId)] else r
  }

  function ReplyOf(answer: ReserveAnswer): R.Reply {
    match answer case Accepted => R.AckOk case Refused(_) => R.Rejected case NotSupported => R.Unsupported
  }

  /** Only a refusal takes a reservation back, and only one with the number the request was made for. */
  function AfterAnswer(r: Reservations, pending: R.Reserves, k: R.Key, answer: ReserveAnswer): Reservations {
    if answer.Refused? && k in pending && Issued(r, pending[k].pid, pending[k].issueId)
    then r - {pending[k].pid} else r
  }

  class Router {
    const registry: Registry
    const requests: R.Requests
    const reserveExpireMs: nat
    var holds: Holds

    /** Every link hold taken has been returned in one of four ways, is in an entry, or was left at shutdown. */
    ghost predicate HoldsOk()
      reads this, registry
    {
      holds.acquired == Returned(holds) + holds.leftover + LinksHeld(registry.entries)
    }

    ghost predicate Valid()
      reads this, registry, registry.connections, requests
    {
      registry.Valid() && requests.Valid() && HoldsOk()
    }

    constructor (capacityLimit: nat, healthPeriodMs: U32, healthFailCount: U32, orphanGraceMs: nat,
                 unregisterGraceMs: nat, requestTimeoutMs: nat, reserveExpireMs: nat)
      ensures Valid() && registry.entries == [] && holds == Holds(0, 0, 0, 0, 0, 0)
      ensures requests.table.reserve.sent == requests.table.kick.sent == 0 && requests.trace.book.log == []
    {
      registry := new Registry(capacityLimit, healthPeriodMs, healthFailCount, orphanGraceMs, unregisterGraceMs);
      requests := new R.Requests(requestTimeoutMs);
      this.reserveExpireMs := reserveExpireMs;
      holds := Holds(0, 0, 0, 0, 0, 0);
    }

    // ---- Registration and links ---------------------------------------------------------------------

    /** handle_register after the version check. */
    method HandleRegister(netId: NetId, host: string, port: nat, capacity: U32, current: U32, now: nat)
      returns (r: RegisterResult, at: nat)
      requires Valid()
      modifies this, registry
      ensures Valid() && holds == old(holds).(acquired := old(holds).acquired + (if r.needLink then 1 else 0),
                                              revive := old(holds).revive + Bit(r.stale))
      ensures r.ok ==>
        && Known(registry.entries, netId)
        && Registry.RegisteredAt(old(registry.entries), registry.entries, at, netId, host, port, capacity, current, now)
        && registry.entries[at].serverId == r.serverId
      ensures !r.ok ==> registry.entries == old(registry.entries) && |registry.entries| >= registry.capacityLimit
      ensures r.needLink ==> HoldsLink(registry.entries, netId, netId)
      ensures r.needLink <==> r.ok && !Known(old(registry.entries), netId)
    {
      r, at := registry.RegisterAndAttach(netId, host, port, capacity, current, now, netId);
      CountHolds(r);
    }

    method CountHolds(r: RegisterResult)
      modifies `holds
      ensures holds == old(holds).(acquired := old(holds).acquired + (if r.needLink then 1 else 0),
                                   revive := old(holds).revive + Bit(r.stale))
    {
      if r.needLink {
        holds := holds.(acquired := holds.acquired + 1);
      }
      if r.stale.Some? {
        holds := holds.(revive := holds.revive + 1);
      }
    }

    method OnUnregister(netId: NetId, now: nat)
      requires Valid()
      modifies this, registry, registry.connections
      ensures Valid() && !Known(registry.entries, netId)
      ensures holds == old(holds).(unregister := holds.unregister)
      ensures registry.graceUntil == old(registry.graceUntil)[netId := now + registry.unregisterGraceMs]
      ensures var i := IndexOfNet(old(registry.entries), netId, 0);
              if i == |old(registry.entries)| then
                registry.entries == old(registry.entries)
                && registry.connections.table == old(registry.connections.table)
              else
                registry.entries == old(registry.entries)[..i] + old(registry.entries)[i + 1..]
                && registry.connections.table
                   == ConnectionTable.Without(old(registry.connections.table), old(registry.entries)[i].serverId)
    {
      var returned := registry.Leave(netId, now);
      holds := holds.(unregister := holds.unregister + returned);
    }

    /** on_s2s_gone: the link is returned, the entry stays as an orphan, the connection's requests fail. */
    method OnGone(netId: NetId, now: nat)
      requires Valid()
      modifies this, registry, requests
      ensures Valid() && holds == old(holds).(gone := holds.gone)
      ensures requests.table == R.LinkDropped(old(requests.table), netId)
      ensures Known(old(registry.entries), netId) ==> FreeLink(registry.entries, netId)
      ensures Registry.Orphaned(old(registry.entries), registry.entries, netId, now)
    {
      var returned := registry.LoseLink(netId, now);
      requests.DropLink(netId);
      holds := holds.(gone := holds.gone + returned);
    }

    method OnSweep(now: nat)
      requires Valid()
      modifies this, registry, registry.connections, requests
      ensures Valid() && holds == old(holds).(sweep := holds.sweep)
      ensures requests.table
        == R.Expired(old(requests.table), requests.timeoutMs, now)
      ensures registry.reservations == Unexpired(old(registry.reservations), now)
      ensures registry.entries == Live(old(registry.entries), registry.orphanGraceMs, now, |old(registry.entries)|)
      ensures registry.connections.table
        == Surviving(old(registry.connections.table),
                     DeadServers(old(registry.entries), registry.orphanGraceMs, now, |old(registry.entries)|))
    {
      var expired, stale := registry.Sweep(now);
      requests.Expire(now);
      holds := holds.(sweep := holds.sweep + |stale|);
    }

    /** shutdown. Afterwards nothing is open in either book. */
    method Shutdown()
      requires Valid()
      modifies this, registry, requests
      ensures Valid() && requests.table.reserves == map[] && requests.table.kicks == map[]
      ensures holds == old(holds).(leftover := holds.leftover) && holds.acquired == Returned(holds) + holds.leftover
      ensures Registry.Detached(old(registry.entries), registry.entries, |registry.entries|)
    {
      var count := registry.DetachAll();
      requests.Stop();
      holds := holds.(leftover := holds.leftover + count);
    }

    // ---- Logins ---------------------------------------------------------------------------------------

    /** The first half of handle_session_login: the live link the player is connected through, if any. */
    method LiveLink(pid: Pid) returns (link: Option<LinkId>)
      ensures link == LiveLinkOf(registry.entries, registry.connections.table, pid)
    {
      if pid !in registry.connections.table {
        return None;
      }
      link := registry.LinkOf(registry.connections.table[pid]);
    }

    /** A granted login takes the next issue number, one that no assign has had before; any other takes none. */
    ghost predicate Numbering(issues: Issues, next: nat, pid: Pid, r: Login)
      reads registry
    {
      if r.Granted? then
        && r.place.issueId == next && registry.nextIssueId == next + 1 && next !in issues
        && registry.issues == issues[next := (pid, r.place.serverId)]
      else registry.nextIssueId == next && registry.issues == issues
    }

    /** The second half: a server, a reservation there, and a Reserve to it if it has a link. */
    method Grant(pid: Pid, now: nat) returns (r: Login, ghost at: nat)
      requires registry.Valid() && requests.Valid()
      modifies registry, requests
      ensures registry.Valid() && requests.Valid() && LinksHeld(registry.entries) == LinksHeld(old(registry.entries))
      ensures !r.Busy? && registry.reservations == AfterLogin(old(registry.reservations), pid, r, now + reserveExpireMs)
      ensures Numbering(old(registry.issues), old(registry.nextIssueId), pid, r)
      ensures requests.table == AfterGrant(old(requests.table), registry.entries, pid, r, now)
      ensures registry.entries == MarkOrphans(old(registry.entries), registry.HealthTimeout(), now)
      ensures Chosen(registry.entries, old(registry.reservations), now, PlaceOf(r), at)
    {
      var link;
      r, link, at := PlacePlayer(pid, now);
      Ask(link, pid, PlaceOf(r), now);
    }

    /** What a login does to the registry. */
    method PlacePlayer(pid: Pid, now: nat) returns (r: Login, link: Option<LinkId>, ghost at: nat)
      requires registry.Valid()
      modifies registry
      ensures registry.Valid() && LinksHeld(registry.entries) == LinksHeld(old(registry.entries))
      ensures !r.Busy? && registry.reservations == AfterLogin(old(registry.reservations), pid, r, now + reserveExpireMs)
      ensures Numbering(old(registry.issues), old(registry.nextIssueId), pid, r)
      ensures registry.entries == MarkOrphans(old(registry.entries), registry.HealthTimeout(), now)
      ensures Chosen(registry.entries, old(registry.reservations), now, PlaceOf(r), at)
      ensures link == if r.Granted? then LinkFor(registry.entries, r.place.serverId, 0) else None
    {
      var a;
      a, link, at := registry.AssignFor(pid, reserveExpireMs, now);
      r := LoginOf(a);
      GrantedAsAssigned(a, pid, now + reserveExpireMs, old(registry.reservations), registry.reservations,
                        old(registry.issues), registry.issues, old(registry.nextIssueId), registry.nextIssueId);
      SamePlace(registry.entries, old(registry.reservations), now, a, PlaceOf(r), at);
    }

    /** A Reserve over the server's link, if there is one. */
    method Ask(link: Option<LinkId>, pid: Pid, a: Option<Assigned>, now: nat)
      requires requests.Valid() && (link.Some? ==> a.Some?)
      modifies requests
      ensures requests.Valid()
      ensures requests.table
        == if link.None? then old(requests.table)
           else R.WithReserve(old(requests.table), link.value,
                              R.PendingReserve(now, pid, a.value.serverId, a.value.issueId))
    {
      if link.Some? {
        requests.SendReserve(link.value, Asked(pid, a.value, now));
      }
    }

    /** handle_session_login. A player connected through a live link, and nobody else, is busy, and has a kick
        under way there. */
    method HandleLogin(pid: Pid, now: nat) returns (r: Login, ghost at: nat)
      requires Valid()
      modifies registry, requests
      ensures Valid() && registry.reservations == AfterLogin(old(registry.reservations), pid, r, now + reserveExpireMs)
      ensures Numbering(old(registry.issues), old(registry.nextIssueId), pid, r)
      ensures var live := LiveLinkOf(old(registry.entries), registry.connections.table, pid);
              && r.Busy? == live.Some?
              && (live.Some? ==>
                    registry.entries == old(registry.entries) && R.HasKick(requests.table.kicks, live.value, pid)
                    && requests.table == R.KickEnsured(old(requests.table), live.value,
                                                       R.PendingKick(now, pid, registry.connections.table[pid])))
              && (live.None? ==>
                    registry.entries == MarkOrphans(old(registry.entries), registry.HealthTimeout(), now)
                    && Chosen(registry.entries, old(registry.reservations), now, PlaceOf(r), at)
                    && requests.table == AfterGrant(old(requests.table), registry.entries, pid, r, now))
    {
      at := 0;
      var live := LiveLink(pid);
      if live.Some? {
        requests.EnsureKick(live.value, R.PendingKick(now, pid, registry.connections.table[pid]));
        return Busy, at;
      }
      r, at := Grant(pid, now);
    }

    /** A granted login sends a Reserve over the server's link, if it has one. */
    function AfterGrant(tb: R.Table, entries: seq<Entry>, pid: Pid, r: Login, now: nat): R.Table {
      if !r.Granted? then tb
      else
        var link := LinkFor(entries, r.place.serverId, 0);
        if link.None? then tb else R.WithReserve(tb, link.value, Asked(pid, r.place, now))
    }

    /** request_set_mode. A server with a link is told, under a number of its own; nothing waits for the answer. */
    method RequestSetMode(serverId: ServerId, draining: bool) returns (known: bool)
      requires Valid()
      modifies registry`entries, requests
      ensures Valid() && known == (serverId in ServerIds(old(registry.entries)))
      ensures Registry.DrainingSet(old(registry.entries), registry.entries, serverId, draining)
      ensures var link := LinkFor(registry.entries, serverId, 0);
              requests.table == if known && link.Some? then R.WithSetMode(old(requests.table), link.value)
                                else old(requests.table)
    {
      known := registry.SetDraining(serverId, draining);
      if known {
        Tell(serverId);
      }
    }

    method Tell(serverId: ServerId)
      requires requests.Valid()
      modifies requests
      ensures var link := LinkFor(registry.entries, serverId, 0);
              requests.Valid() && requests.table == if link.Some? then R.WithSetMode(old(requests.table), link.value)
                                                    else old(requests.table)
    {
      var link := registry.LinkOf(serverId);
      if link.Some? {
        var seqNo := requests.SendSetMode(link.value);
      }
    }

    // ---- Replies ---------------------------------------------------------------------------------------

    /** ReserveAck and Unsupported. Only a refusal takes a reservation back, and only the one it answers. */
    method OnReserveReply(link: LinkId, seqNo: nat, answer: ReserveAnswer)
      requires registry.Valid() && requests.Valid()
      modifies registry, requests
      ensures registry.Valid() && requests.Valid() && LinksHeld(registry.entries) == LinksHeld(old(registry.entries))
      ensures requests.table == R.ReserveReplied(old(requests.table), (link, seqNo),
                                                 match answer
                                                 case Accepted => R.AckOk
                                                 case Refused(_) => R.Rejected
                                                 case NotSupported => R.Unsupported)
      ensures registry.reservations
        == AfterAnswer(old(registry.reservations), old(requests.table).reserves, (link, seqNo), answer)
      ensures if (link, seqNo) in old(requests.table).reserves && answer.Refused? && answer.draining
              then Registry.DrainingSet(old(registry.entries), registry.entries,
                                        old(requests.table).reserves[(link, seqNo)].serverId, true)
              else registry.entries == old(registry.entries)
    {
      var matched := requests.OnReserveReply(link, seqNo, ReplyOf(answer));
      TakeBack(matched, answer);
    }

    /** A refusal takes back the reservation the request was made for; a village that says it is draining is
        believed. */
    method TakeBack(matched: Option<R.PendingReserve>, answer: ReserveAnswer)
      requires registry.Valid()
      modifies registry
      ensures registry.Valid() && LinksHeld(registry.entries) == LinksHeld(old(registry.entries))
      ensures registry.reservations
        == if answer.Refused? && matched.Some?
              && Issued(old(registry.reservations), matched.value.pid, matched.value.issueId)
           then old(registry.reservations) - {matched.value.pid} else old(registry.reservations)
      ensures if matched.Some? && answer.Refused? && answer.draining
              then Registry.DrainingSet(old(registry.entries), registry.entries, matched.value.serverId, true)
              else registry.entries == old(registry.entries)
    {
      if matched.Some? && answer.Refused? {
        var p := matched.value;
        var revoked := registry.Refused(p.pid, p.issueId, p.serverId, answer.draining);
      }
    }

    /** KickAck. NotFound clears the player's connection if it is still that server's. */
    method OnKickReply(link: LinkId, seqNo: nat, kicked: bool)
      requires registry.Valid() && requests.Valid()
      modifies registry.connections, requests
      ensures registry.Valid() && requests.Valid()
      ensures requests.table == R.KickReplied(old(requests.table), (link, seqNo), kicked)
      ensures registry.connections.table
        == AfterKick(old(registry.connections.table), old(requests.table).kicks, (link, seqNo), kicked)
      ensures forall pid :: pid in registry.connections.table <==>
        pid in old(registry.connections.table)
        && !(!kicked && (link, seqNo) in old(requests.table).kicks
             && pid == old(requests.table).kicks[(link, seqNo)].pid
             && old(registry.connections.table)[pid] == old(requests.table).kicks[(link, seqNo)].serverId)
    {
      var matched := requests.OnKickReply(link, seqNo, kicked);
      if matched.Some? && !kicked {
        var found := registry.PlayerLeft(matched.value.pid, matched.value.serverId);
      }
    }

    function AfterKick(t: ConnectionTable.Table, pending: R.Kicks, k: R.Key, kicked: bool): ConnectionTable.Table {
      if !kicked && k in pending && pending[k].pid in t && t[pending[k].pid] == pending[k].serverId
      then t - {pending[k].pid} else t
    }

    /** FullSync of a registered connection: every conflicting player has a kick under way on it, while the
        connection has numbers left. */
    method OnFullSync(link: NetId, firstChunk: bool, ids: seq<Pid>, now: nat) returns (conflicts: seq<Pid>)
      requires Valid()
      modifies registry.connections, requests
      ensures Valid()
      ensures !Known(registry.entries, link) ==>
        conflicts == [] && registry.connections.table == old(registry.connections.table)
        && requests.table == old(requests.table)
      ensures Known(registry.entries, link) ==>
        var server := registry.entries[IndexOfNet(registry.entries, link, 0)].serverId;
        && registry.connections.table
           == ConnectionTable.Replaced(old(registry.connections.table), server, firstChunk, ids)
        && conflicts == ConnectionTable.Conflicts(old(registry.connections.table), server, ids, |ids|)
        && requests.table == R.KicksEnsured(old(requests.table), link, conflicts, server, now, |conflicts|)
      ensures Known(registry.entries, link) && R.Used(old(requests.trace).book, link) + 1 + |conflicts| < R.SEQS ==>
        R.AllKicked(requests.table.kicks, link, conflicts, |conflicts|)
    {
      var server := registry.ServerIdOf(link);
      conflicts := [];
      if server == 0 {
        return;
      }
      conflicts := registry.FullSyncReplace(server, firstChunk, ids);
      requests.EnsureKicks(link, conflicts, server, now);
    }
  }
}

/** Logins, replies, sweeps and lost links over whole runs: what a late refusal takes back. */
module LateRefusals {
  import opened Assignment
  import opened RegistryTables
  import opened SessionRouter
  import opened Wrappers
  import L = LateReplies
  import R = RouterRequests

  /** The router's books: requests under way, reservations, and the next issue number. */
  datatype Books = Books(requests: L.State, reservations: Reservations, nextIssue: nat)

  datatype Step =
    | Login(pid: R.Pid, place: Assigned, link: Option<R.LinkId>, expireAt: nat, now: nat)  // one that is granted
    | Answer(k: R.Key, answer: ReserveAnswer)
    | Sweep(timeout: nat, now: nat)
    | Other(step: L.Step)                            // whatever else happens to the requests

  predicate Enabled(b: Books, step: Step) {
    && (step.Login? ==> step.place.issueId == b.nextIssue)
    && (step.Other? ==> !step.step.AskReserve? && !step.step.AnswerReserve? && !step.step.Sweep?)
  }

  /** What the requests see of a step. A server without a link is sent nothing. */
  function Seen(step: Step): L.Step {
    match step
    case Login(pid, place, link, _, now) =>
      if link.Some? then L.AskReserve(link.value, Asked(pid, place, now)) else L.Elsewhere
    case Answer(k, answer) => L.AnswerReserve(k, ReplyOf(answer))
    case Sweep(timeout, now) => L.Sweep(timeout, now)
    case Other(other) => other
  }

  function Next(b: Books, step: Step): Books {
    var requests := L.Next(b.requests, Seen(step));
    match step
    case Login(pid, place, _, expireAt, _) =>
      Books(requests, AfterLogin(b.reservations, pid, Granted(place), expireAt), b.nextIssue + 1)
    case Answer(k, answer) =>
      Books(requests, AfterAnswer(b.reservations, b.requests.table.reserves, k, answer), b.nextIssue)
    case Sweep(_, now) => Books(requests, Unexpired(b.reservations, now), b.nextIssue)
    case Other(_) => b.(requests := requests)
  }

  ghost predicate IsRun(books: seq<Books>, steps: seq<Step>) {
    && |books| == |steps| + 1
    && R.Nothing(books[0].requests.table, books[0].requests.trace) && books[0].reservations == map[]
    && forall i :: 0 <= i < |steps| ==> Enabled(books[i], steps[i]) && books[i + 1] == Next(books[i], steps[i])
  }

  function RequestsOf(books: seq<Books>): (states: seq<L.State>)
    ensures |states| == |books| && forall i :: 0 <= i < |books| ==> states[i] == books[i].requests
  {
    seq(|books|, i requires 0 <= i < |books| => books[i].requests)
  }

  function SeenBy(steps: seq<Step>): (seen: seq<L.Step>)
    ensures |seen| == |steps| && forall i :: 0 <= i < |steps| ==> seen[i] == Seen(steps[i])
  {
    seq(|steps|, i requires 0 <= i < |steps| => Seen(steps[i]))
  }

  /** The requests alone go through one of their runs. */
  lemma RequestsRun(books: seq<Books>, steps: seq<Step>)
    requires IsRun(books, steps)
    ensures L.IsRun(RequestsOf(books), SeenBy(steps))
  {
    var states, seen := RequestsOf(books), SeenBy(steps);
    forall i | 0 <= i < |seen|
      ensures states[i + 1] == L.Next(states[i], seen[i])
    {
      assert books[i + 1] == Next(books[i], steps[i]);
    }
  }

  // ---- Which reservation is which --------------------------------------------------------------------

  /** The player's reservation is the one with this number. */
  predicate Has(b: Books, pid: R.Pid, issueId: nat) {
    pid in b.reservations && b.reservations[pid].issueId == issueId
  }

  lemma {:induction false} NumbersGrow(books: seq<Books>, steps: seq<Step>, i: nat, k: nat)
    requires IsRun(books, steps) && i <= k < |books|
    ensures books[i].nextIssue <= books[k].nextIssue
  {
    if i < k {
      NumbersGrow(books, steps, i, k - 1);
      assert books[k] == Next(books[k - 1], steps[k - 1]);
    }
  }

  /** From right after step i until state k, the player has had the very reservation step i made. */
  ghost predicate Stands(books: seq<Books>, steps: seq<Step>, i: nat, k: nat)
    requires IsRun(books, steps) && i < k < |books| && steps[i].Login?
  {
    var l := steps[i];
    forall m :: i < m <= k ==>
      l.pid in books[m].reservations
      && books[m].reservations[l.pid] == Reservation(l.place.serverId, l.expireAt, l.place.issueId)
  }

  lemma LoginIsNumbered(books: seq<Books>, steps: seq<Step>, i: nat)
    requires IsRun(books, steps) && i < |steps| && steps[i].Login?
    ensures var l := steps[i];
            && l.place.issueId < books[i + 1].nextIssue && l.pid in books[i + 1].reservations
            && books[i + 1].reservations[l.pid] == Reservation(l.place.serverId, l.expireAt, l.place.issueId)
  {
    assert Enabled(books[i], steps[i]) && books[i + 1] == Next(books[i], steps[i]);
  }

  /** No step makes a reservation with an old number. */
  lemma NumberIsKept(b: Books, step: Step, pid: R.Pid, issueId: nat)
    requires Enabled(b, step) && issueId < b.nextIssue && Has(Next(b, step), pid, issueId)
    ensures Has(b, pid, issueId) && Next(b, step).reservations[pid] == b.reservations[pid]
  {
  }

  lemma StandsOneMore(books: seq<Books>, steps: seq<Step>, i: nat, k: nat)
    requires IsRun(books, steps) && i < k && k + 1 < |books| && steps[i].Login?
    ensures var l := steps[i];
            Stands(books, steps, i, k + 1) <==>
              Stands(books, steps, i, k) && l.pid in books[k + 1].reservations
              && books[k + 1].reservations[l.pid] == Reservation(l.place.serverId, l.expireAt, l.place.issueId)
  {
  }

  lemma StillNames(books: seq<Books>, steps: seq<Step>, i: nat, k: nat)
    requires IsRun(books, steps) && i < k && k + 1 < |books| && steps[i].Login?
    requires steps[i].place.issueId < books[k].nextIssue
    requires Has(books[k], steps[i].pid, steps[i].place.issueId) ==> Stands(books, steps, i, k)
    ensures Has(books[k + 1], steps[i].pid, steps[i].place.issueId) ==> Stands(books, steps, i, k + 1)
  {
    if Has(books[k + 1], steps[i].pid, steps[i].place.issueId) {
      NumberIsKept(books[k], steps[k], steps[i].pid, steps[i].place.issueId);
      StandsOneMore(books, steps, i, k);
    }
  }

  lemma StandsAtFirst(books: seq<Books>, steps: seq<Step>, i: nat)
    requires IsRun(books, steps) && i < |steps| && steps[i].Login?
    ensures Stands(books, steps, i, i + 1)
  {
    LoginIsNumbered(books, steps, i);
  }

  lemma NumberIsOld(books: seq<Books>, steps: seq<Step>, i: nat, k: nat)
    requires IsRun(books, steps) && i < k < |books| && steps[i].Login?
    ensures steps[i].place.issueId < books[k].nextIssue
  {
    LoginIsNumbered(books, steps, i);
    NumbersGrow(books, steps, i + 1, k);
  }

  lemma {:induction false} NumberNamesIt(books: seq<Books>, steps: seq<Step>, i: nat, k: nat)
    requires IsRun(books, steps) && i < k < |books| && steps[i].Login?
    ensures Has(books[k], steps[i].pid, steps[i].place.issueId) ==> Stands(books, steps, i, k)
  {
    if i + 1 == k {
      StandsAtFirst(books, steps, i);
    } else {
      NumberNamesIt(books, steps, i, k - 1);
      NumberIsOld(books, steps, i, k - 1);
      StillNames(books, steps, i, k - 1);
    }
  }

  /** A reservation with the number of a login is the one that login made, never taken out or replaced since. */
  lemma NumberNamesTheLogin(books: seq<Books>, steps: seq<Step>, i: nat, k: nat)
    requires IsRun(books, steps) && i < k < |books| && steps[i].Login?
    ensures Has(books[k], steps[i].pid, steps[i].place.issueId) <==> Stands(books, steps, i, k)
  {
    NumberNamesIt(books, steps, i, k);
  }

  // ---- Main result -----------------------------------------------------------------------------------

  /** The request that login i sent: the last in the log right after it. */
  function RequestOf(books: seq<Books>, steps: seq<Step>, i: nat): R.Asked
    requires IsRun(books, steps) && i < |steps| && steps[i].Login? && steps[i].link.Some?
  {
    var b, link := books[i].requests.trace.book, steps[i].link.value;
    R.Asked(link, R.Epoch(b, link), R.Used(b, link) + 1,
            R.Reserve(Asked(steps[i].pid, steps[i].place, steps[i].now)))
  }

  lemma RequestIsLogged(books: seq<Books>, steps: seq<Step>, i: nat)
    requires IsRun(books, steps) && i < |steps| && steps[i].Login? && steps[i].link.Some?
    ensures var token := |books[i].requests.trace.book.log|; var log := books[i + 1].requests.trace.book.log;
            token < |log| && log[token] == RequestOf(books, steps, i)
  {
    assert books[i + 1] == Next(books[i], steps[i]);
  }

  /** A refusal that arrives late answers login i. While the connection's numbering stands and fewer than 2^32 numbers
      have been given out on it since, it takes back the reservation that login made if that still stands and the
      request is still pending; otherwise it takes back nothing, however many logins of the player came between. */
  lemma RefusalTakesBackItsOwn(books: seq<Books>, steps: seq<Step>, i: nat, j: nat, draining: bool)
    requires IsRun(books, steps) && i < j < |steps| && steps[i].Login? && steps[i].link.Some?
    requires var a, b := RequestOf(books, steps, i), books[j].requests.trace.book;
             && steps[j] == Answer(L.KeyOf(a), Refused(draining))
             && R.Epoch(b, a.link) == a.epoch && R.Used(b, a.link) < a.n + R.SEQS
    ensures var before := books[j].reservations;
            var pending := L.KeyOf(RequestOf(books, steps, i)) in books[j].requests.table.reserves;
            books[j + 1].reservations
              == if pending && Stands(books, steps, i, j) then before - {steps[i].pid} else before
  {
    var states, seen := RequestsOf(books), SeenBy(steps);
    RequestsRun(books, steps);
    RequestIsLogged(books, steps, i);
    L.LateReplySeesWhatWasAsked(states, seen, i + 1, j, |books[i].requests.trace.book.log|);
    NumberNamesTheLogin(books, steps, i, j);
    assert books[j + 1] == Next(books[j], steps[j]);
  }
}
