// Trades between two sessions (world/trade.h and the trade handlers of app/frame_router.cpp).
//
// Each session points at its current trade. A handler loads that pointer without a lock, finds the other
// party through the roster, locks both sessions and then looks again whether its own pointer is still the
// same. Only that locked block changes anything, so it is the unit of interleaving here. The two pointers
// of a trade are not symmetric: clearing a trade nulls the peer's pointer whatever it points at by then.

/** The trade itself, as a value. */
module TradeValues {
  type Sid = nat
  type U32 = n: nat | n < 0x1_0000_0000

  const MAX_COUNT: nat := 1_000_000

  datatype Slot = Slot(item: U32, count: U32)

  datatype Trade = Trade(a: Sid, b: Sid, aSlot: Slot, bSlot: Slot, aConfirm: bool, bConfirm: bool, open: bool)

  datatype Side = Asker | Asked

  function NewTrade(a: Sid, b: Sid): Trade {
    Trade(a, b, Slot(0, 0), Slot(0, 0), false, false, false)
  }

  predicate Has(t: Trade, s: Sid) {
    s == t.a || s == t.b
  }

  /** The source compares with a first, so a session cannot be both sides by this rule. */
  function SideOf(t: Trade, s: Sid): Side {
    if s == t.a then Asker else Asked
  }

  function PeerOf(t: Trade, s: Sid): Sid {
    if s == t.a then t.b else t.a
  }

  /** The low 32 bits of a session id, which is what clients see. */
  function Sid32(s: Sid): U32 {
    s % 0x1_0000_0000
  }

  /** Taking an item down has one shape. */
  function Normal(item: U32, count: U32): Slot {
    Slot(if count == 0 then 0 else item, count)
  }

  predicate SlotOk(s: Slot) {
    s.count <= MAX_COUNT && (s.count == 0 ==> s.item == 0)
  }

  /** Any slot change takes back both confirmations. */
  function WithSlot(t: Trade, side: Side, slot: Slot): Trade {
    match side
    case Asker => t.(aSlot := slot, aConfirm := false, bConfirm := false)
    case Asked => t.(bSlot := slot, aConfirm := false, bConfirm := false)
  }

  function WithConfirm(t: Trade, side: Side, on: bool): Trade {
    match side
    case Asker => t.(aConfirm := on)
    case Asked => t.(bConfirm := on)
  }

  predicate Confirmed(t: Trade, side: Side) {
    match side case Asker => t.aConfirm case Asked => t.bConfirm
  }

  predicate BothConfirmed(t: Trade) {
    t.aConfirm && t.bConfirm
  }

  function Slots(t: Trade): (Slot, Slot) {
    (t.aSlot, t.bSlot)
  }
}

/** The objects of the source; the methods are the locked blocks of the handlers. */
module TradeObjects {
  import opened TradeValues

  class Session {
    const id: Sid
    var trade: TradeObject?

    constructor (id: Sid)
      ensures this.id == id && trade == null
    {
      this.id := id;
      trade := null;
    }
  }

  class TradeObject {
    const a: Session
    const b: Session
    var aItem: U32
    var aCount: U32
    var bItem: U32
    var bCount: U32
    var aConfirm: bool
    var bConfirm: bool
    var open: bool

    constructor (a: Session, b: Session)
      ensures this.a == a && this.b == b && View() == NewTrade(a.id, b.id)
      ensures aCount == 0 && bCount == 0 && !aConfirm && !bConfirm && !open
    {
      this.a, this.b := a, b;
      aItem, aCount, bItem, bCount := 0, 0, 0, 0;
      aConfirm, bConfirm, open := false, false, false;
    }

    function View(): Trade
      reads this
    {
      Trade(a.id, b.id, Slot(aItem, aCount), Slot(bItem, bCount), aConfirm, bConfirm, open)
    }

    method ResetConfirm()
      modifies this
      ensures View() == old(View()).(aConfirm := false, bConfirm := false)
    {
      aConfirm, bConfirm := false, false;
    }
  }

  /** handle_trade_req, under both locks. */
  method Create(session: Session, peer: Session) returns (t: TradeObject?)
    requires session != peer
    modifies session`trade, peer`trade
    ensures t != null <==> old(session.trade) == null && old(peer.trade) == null
    ensures t == null ==> session.trade == old(session.trade) && peer.trade == old(peer.trade)
    ensures t != null ==> fresh(t) && session.trade == t && peer.trade == t
                          && t.a == session && t.b == peer && t.View() == NewTrade(session.id, peer.id)
  {
    t := null;
    if session.trade == null && peer.trade == null {
      t := new TradeObject(session, peer);
      session.trade := t;
      peer.trade := t;
    }
  }

  datatype Reply = Refused | Opened | Declined

  /** handle_trade_answer, under both locks. Only the invited side may answer, and only to its own inviter. */
  method Answer(session: Session, peer: Session, t: TradeObject, from: U32, accept: bool) returns (r: Reply)
    modifies session`trade, peer`trade, t
    ensures r == Refused <==>
      !(old(session.trade) == t && !old(t.open) && t.b == session && Sid32(t.a.id) == from)
    ensures r != Refused ==> r == if accept then Opened else Declined
    ensures t.View() == if r == Opened then old(t.View()).(open := true) else old(t.View())
    ensures if r == Declined then session.trade == null && peer.trade == null
            else session.trade == old(session.trade) && peer.trade == old(peer.trade)
  {
    r := Refused;
    if session.trade == t && !t.open && t.b == session && Sid32(t.a.id) == from {
      if accept {
        t.open := true;
        r := Opened;
      } else {
        session.trade := null;
        peer.trade := null;
        r := Declined;
      }
    }
  }

  /** handle_trade_set_item: the limit before the locks, the rest under both of them. */
  method SetItem(session: Session, t: TradeObject, item: U32, count: U32) returns (ok: bool)
    requires session == t.a || session == t.b
    requires t.a != t.b && t.a.id != t.b.id
    modifies t
    ensures ok == (count <= MAX_COUNT && session.trade == t && old(t.open))
    ensures !ok ==> t.View() == old(t.View())
    ensures ok ==> t.open && !t.aConfirm && !t.bConfirm
    ensures ok && session == t.a ==> t.aItem == (if count == 0 then 0 else item) && t.aCount == count
                                     && t.bItem == old(t.bItem) && t.bCount == old(t.bCount)
    ensures ok && session == t.b ==> t.bItem == (if count == 0 then 0 else item) && t.bCount == count
                                     && t.aItem == old(t.aItem) && t.aCount == old(t.aCount)
    ensures ok ==> t.View() == WithSlot(old(t.View()), SideOf(old(t.View()), session.id), Normal(item, count))
  {
    ok := false;
    if count > MAX_COUNT {
      return;
    }
    var put := item;
    if count == 0 {
      put := 0;
    }
    if session.trade == t && t.open {
      if session == t.a {
        t.aItem, t.aCount := put, count;
      } else {
        t.bItem, t.bCount := put, count;
      }
      t.ResetConfirm();
      ok := true;
    }
  }

  /** handle_trade_confirm, under both locks. When both have confirmed, both pointers go. */
  method Confirm(session: Session, peer: Session, t: TradeObject, on: bool) returns (ok: bool, both: bool)
    requires session == t.a || session == t.b
    requires t.a != t.b && t.a.id != t.b.id
    modifies session`trade, peer`trade, t
    ensures ok == (old(session.trade) == t && old(t.open))
    ensures t.aConfirm == if ok && session == t.a then on else old(t.aConfirm)
    ensures t.bConfirm == if ok && session == t.b then on else old(t.bConfirm)
    ensures both == (ok && t.aConfirm && t.bConfirm)
    ensures t.View()
      == if ok then WithConfirm(old(t.View()), SideOf(old(t.View()), session.id), on) else old(t.View())
    ensures if both then session.trade == null && peer.trade == null
            else session.trade == old(session.trade) && peer.trade == old(peer.trade)
  {
    ok, both := false, false;
    if session.trade == t && t.open {
      ok := true;
      if session == t.a {
        t.aConfirm := on;
      } else {
        t.bConfirm := on;
      }
      both := t.aConfirm && t.bConfirm;
      if both {
        session.trade := null;
        peer.trade := null;
      }
    }
  }

  /** clear_trade, under the locks it takes: only the own pointer is looked at again. */
  method Clear(session: Session, peer: Session?, t: TradeObject) returns (cleared: bool)
    modifies session`trade
    modifies if peer == null then {} else {peer}
    ensures cleared == (old(session.trade) == t)
    ensures cleared ==> session.trade == null && (peer != null ==> peer.trade == null)
    ensures !cleared ==> session.trade == old(session.trade) && (peer != null ==> peer.trade == old(peer.trade))
  {
    cleared := session.trade == t;
    if cleared {
      session.trade := null;
      if peer != null {
        peer.trade := null;
      }
    }
  }
}

/** Any number of sessions and trades, the locked blocks in any order. */
module TradeMachine {
  import opened TradeValues

  type TradeId = nat

  /** What is handed to the database. */
  datatype Order = Order(trade: TradeId, a: Sid, b: Sid, slots: (Slot, Slot))

  datatype State = State(
    current: map<Sid, TradeId>,          // the sessions whose trade pointer is not null
    trades: seq<Trade>,                  // every trade ever made
    settled: seq<Order>)

  const NoTrades := State(map[], [], [])

  /** t is the pointer a session loaded before it took the locks; it may be stale. */
  datatype Step =
    | Create(a: Sid, b: Sid)
    | Answer(s: Sid, t: TradeId, from: U32, accept: bool)
    | SetItem(s: Sid, t: TradeId, item: U32, count: U32)
    | Confirm(s: Sid, t: TradeId, on: bool)
    | ClearBoth(s: Sid, t: TradeId)      // the peer was found
    | ClearOwn(s: Sid, t: TradeId)       // the peer has left the roster

  predicate Enabled(st: State, step: Step) {
    match step
    case Create(a, b) => a != b
    case Answer(s, t, _, _) => t < |st.trades| && Has(st.trades[t], s)
    case SetItem(s, t, _, _) => t < |st.trades| && Has(st.trades[t], s)
    case Confirm(s, t, _) => t < |st.trades| && Has(st.trades[t], s)
    case ClearBoth(s, t) => t < |st.trades| && Has(st.trades[t], s)
    case ClearOwn(s, t) => t < |st.trades| && Has(st.trades[t], s)
  }

  predicate PointsAt(st: State, s: Sid, t: TradeId) {
    s in st.current && st.current[s] == t
  }

  /** The second look under the locks, and for SetItem the limit. */
  predicate Goes(st: State, step: Step)
    requires Enabled(st, step)
  {
    match step
    case Create(a, b) => a !in st.current && b !in st.current
    case Answer(s, t, from, _) =>
      PointsAt(st, s, t) && !st.trades[t].open && st.trades[t].b == s && Sid32(st.trades[t].a) == from
    case SetItem(s, t, _, count) => count <= MAX_COUNT && PointsAt(st, s, t) && st.trades[t].open
    case Confirm(s, t, _) => PointsAt(st, s, t) && st.trades[t].open
    case ClearBoth(s, t) => PointsAt(st, s, t)
    case ClearOwn(s, t) => PointsAt(st, s, t)
  }

  function OrderOf(t: TradeId, trade: Trade): Order {
    Order(t, trade.a, trade.b, Slots(trade))
  }

  function Next(st: State, step: Step): State
    requires Enabled(st, step)
  {
    if !Goes(st, step) then st else
    match step
    case Create(a, b) =>
      st.(trades := st.trades + [NewTrade(a, b)], current := st.current[a := |st.trades|][b := |st.trades|])
    case Answer(s, t, _, accept) =>
      if accept then st.(trades := st.trades[t := st.trades[t].(open := true)])
      else st.(current := st.current - {s, PeerOf(st.trades[t], s)})
    case SetItem(s, t, item, count) =>
      st.(trades := st.trades[t := WithSlot(st.trades[t], SideOf(st.trades[t], s), Normal(item, count))])
    case Confirm(s, t, on) =>
      var trade := WithConfirm(st.trades[t], SideOf(st.trades[t], s), on);
      var st' := st.(trades := st.trades[t := trade]);
      if BothConfirmed(trade)
      then st'.(current := st.current - {s, PeerOf(trade, s)}, settled := st.settled + [OrderOf(t, trade)])
      else st'
    case ClearBoth(s, t) => st.(current := st.current - {s, PeerOf(st.trades[t], s)})
    case ClearOwn(s, t) => st.(current := st.current - {s})
  }

  ghost predicate IsRun(states: seq<State>, steps: seq<Step>) {
    && |states| == |steps| + 1 && states[0] == NoTrades
    && forall i :: 0 <= i < |steps| ==> Enabled(states[i], steps[i]) && states[i + 1] == Next(states[i], steps[i])
  }

  // ---- Invariant ---------------------------------------------------------------------------------

  ghost predicate Known(st: State) {
    && (forall s :: s in st.current ==> st.current[s] < |st.trades| && Has(st.trades[st.current[s]], s))
    && (forall t :: 0 <= t < |st.trades| ==> st.trades[t].a != st.trades[t].b)
  }

  /** Items are put up and confirmed only in an accepted trade, and within the limit. */
  predicate TradeOk(t: Trade) {
    && SlotOk(t.aSlot) && SlotOk(t.bSlot)
    && (t.aConfirm || t.bConfirm || Slots(t) != (Slot(0, 0), Slot(0, 0)) ==> t.open)
  }

  ghost predicate WellFormed(st: State) {
    forall t :: 0 <= t < |st.trades| ==> TradeOk(st.trades[t])
  }

  predicate IsOrderOf(o: Order, trades: seq<Trade>) {
    o.trade < |trades| && o == OrderOf(o.trade, trades[o.trade])
  }

  /** A settled trade is nobody's current trade, so it stays as it was when it was handed over. */
  ghost predicate SettledAreOver(st: State) {
    && (forall i :: 0 <= i < |st.settled| ==> IsOrderOf(st.settled[i], st.trades))
    && (forall i, s :: 0 <= i < |st.settled| && s in st.current ==> st.current[s] != st.settled[i].trade)
  }

  ghost predicate SettledOnce(st: State) {
    forall i, j :: 0 <= i < j < |st.settled| ==> st.settled[i].trade != st.settled[j].trade
  }

  lemma StepKnown(st: State, step: Step)
    requires Known(st) && Enabled(st, step)
    ensures Known(Next(st, step))
  {
  }

  lemma StepWellFormed(st: State, step: Step)
    requires WellFormed(st) && Enabled(st, step)
    ensures WellFormed(Next(st, step))
  {
  }

  lemma StepSettledAreOver(st: State, step: Step)
    requires Known(st) && SettledAreOver(st) && Enabled(st, step)
    ensures SettledAreOver(Next(st, step))
  {
  }

  lemma StepSettledOnce(st: State, step: Step)
    requires SettledAreOver(st) && SettledOnce(st) && Enabled(st, step)
    ensures SettledOnce(Next(st, step))
  {
  }

  lemma {:induction false} RunInv(states: seq<State>, steps: seq<Step>, k: nat)
    requires IsRun(states, steps) && k < |states|
    ensures Known(states[k]) && WellFormed(states[k]) && SettledAreOver(states[k]) && SettledOnce(states[k])
  {
    if k > 0 {
      RunInv(states, steps, k - 1);
      StepKnown(states[k - 1], steps[k - 1]);
      StepWellFormed(states[k - 1], steps[k - 1]);
      StepSettledAreOver(states[k - 1], steps[k - 1]);
      StepSettledOnce(states[k - 1], steps[k - 1]);
    }
  }

  // ---- History -------------------------------------------------------------------------------------

  /** Step i is a confirm in trade t by session s, still current for it and open. */
  ghost predicate Confirms(states: seq<State>, steps: seq<Step>, i: nat, t: TradeId, s: Sid)
    requires IsRun(states, steps) && i < |steps|
  {
    && steps[i].Confirm? && steps[i].s == s && steps[i].t == t
    && PointsAt(states[i], s, t) && t < |states[i].trades| && states[i].trades[t].open
  }

  /** Step i puts something up, or takes it down, in trade t for session s. */
  ghost predicate PutsUp(states: seq<State>, steps: seq<Step>, i: nat, t: TradeId, s: Sid)
    requires IsRun(states, steps) && i < |steps|
  {
    && steps[i].SetItem? && steps[i].s == s && steps[i].t == t && steps[i].count <= MAX_COUNT
    && PointsAt(states[i], s, t) && t < |states[i].trades| && states[i].trades[t].open
  }

  /** Step i switches s's confirmation on; until state k s has not toggled it and nobody has put anything up. */
  ghost predicate Stands(states: seq<State>, steps: seq<Step>, i: nat, k: nat, t: TradeId, s: Sid)
    requires IsRun(states, steps) && k < |states|
  {
    && i < k && Confirms(states, steps, i, t, s) && steps[i].on
    && (forall j: nat :: i < j < k ==> !Confirms(states, steps, j, t, s))
    && (forall j: nat, r :: i < j < k ==> !PutsUp(states, steps, j, t, r))
  }

  ghost predicate StandsAt(states: seq<State>, steps: seq<Step>, k: nat, t: TradeId, s: Sid)
    requires IsRun(states, steps) && k < |states|
  {
    exists i: nat :: Stands(states, steps, i, k, t, s)
  }

  /** Step i is the last before state k that puts anything up in trade t for s, and it put up slot. */
  ghost predicate PutLast(states: seq<State>, steps: seq<Step>, i: nat, k: nat, t: TradeId, s: Sid, slot: Slot)
    requires IsRun(states, steps) && k < |states|
  {
    && i < k && PutsUp(states, steps, i, t, s)
    && slot.count == steps[i].count && slot.item == (if steps[i].count == 0 then 0 else steps[i].item)
    && forall j: nat :: i < j < k ==> !PutsUp(states, steps, j, t, s)
  }

  /** slot is what s put up last in trade t before state k, nothing if it never did. */
  ghost predicate LastPutUp(states: seq<State>, steps: seq<Step>, k: nat, t: TradeId, s: Sid, slot: Slot)
    requires IsRun(states, steps) && k < |states|
  {
    || (exists i: nat :: PutLast(states, steps, i, k, t, s, slot))
    || (slot == Slot(0, 0) && forall j: nat :: j < k ==> !PutsUp(states, steps, j, t, s))
  }

  function Party(t: Trade, side: Side): Sid {
    match side case Asker => t.a case Asked => t.b
  }

  function SlotOf(t: Trade, side: Side): Slot {
    match side case Asker => t.aSlot case Asked => t.bSlot
  }

  lemma {:induction false} SameParties(states: seq<State>, steps: seq<Step>, i: nat, k: nat, t: TradeId)
    requires IsRun(states, steps) && i <= k < |states| && t < |states[i].trades|
    ensures t < |states[k].trades|
    ensures states[k].trades[t].a == states[i].trades[t].a && states[k].trades[t].b == states[i].trades[t].b
  {
    if i < k {
      SameParties(states, steps, i, k - 1, t);
    }
  }

  /** Nothing has happened in a trade that is not there yet. */
  lemma NothingYet(states: seq<State>, steps: seq<Step>, k: nat, t: TradeId)
    requires IsRun(states, steps) && k < |states| && |states[k].trades| <= t
    ensures forall i: nat, s :: i < k ==> !Confirms(states, steps, i, t, s) && !PutsUp(states, steps, i, t, s)
  {
    forall i: nat, s | i < k
      ensures !Confirms(states, steps, i, t, s) && !PutsUp(states, steps, i, t, s)
    {
      if t < |states[i].trades| {
        SameParties(states, steps, i, k, t);
      }
    }
  }

  lemma OneMoreStep(states: seq<State>, steps: seq<Step>, k: nat, t: TradeId, side: Side)
    requires IsRun(states, steps) && k < |steps| && t < |states[k].trades| && Known(states[k])
    ensures t < |states[k + 1].trades| && Party(states[k + 1].trades[t], side) == Party(states[k].trades[t], side)
    ensures var was, after, s := states[k].trades[t], states[k + 1].trades[t], Party(states[k].trades[t], side);
            && SlotOf(after, side) == (if PutsUp(states, steps, k, t, s)
                                       then Normal(steps[k].item, steps[k].count) else SlotOf(was, side))
            && Confirmed(after, side) == (if Confirms(states, steps, k, t, s) then steps[k].on
                                          else Confirmed(was, side) && !PutsUp(states, steps, k, t, was.a)
                                               && !PutsUp(states, steps, k, t, was.b))
  {
  }

  lemma PartiesPutUp(states: seq<State>, steps: seq<Step>, i: nat, t: TradeId, s: Sid)
    requires IsRun(states, steps) && i < |steps| && PutsUp(states, steps, i, t, s)
    ensures s == states[i].trades[t].a || s == states[i].trades[t].b
  {
    assert Enabled(states[i], steps[i]);
  }

  lemma PutLastOn(states: seq<State>, steps: seq<Step>, k: nat, t: TradeId, s: Sid, slot: Slot)
    requires IsRun(states, steps) && k < |steps| && LastPutUp(states, steps, k, t, s, slot)
    ensures LastPutUp(states, steps, k + 1, t, s,
                      if PutsUp(states, steps, k, t, s) then Normal(steps[k].item, steps[k].count) else slot)
  {
    if PutsUp(states, steps, k, t, s) {
      assert PutLast(states, steps, k, k + 1, t, s, Normal(steps[k].item, steps[k].count));
    } else if i: nat :| PutLast(states, steps, i, k, t, s, slot) {
      assert PutLast(states, steps, i, k + 1, t, s, slot);
    }
  }

  lemma NewTradeIsEmpty(st: State, step: Step, t: TradeId)
    requires Enabled(st, step) && |st.trades| <= t < |Next(st, step).trades|
    ensures Next(st, step).trades[t].aSlot == Next(st, step).trades[t].bSlot == Slot(0, 0)
    ensures !Next(st, step).trades[t].aConfirm && !Next(st, step).trades[t].bConfirm
  {
  }

  lemma {:induction false} SideSlot(states: seq<State>, steps: seq<Step>, k: nat, t: TradeId, side: Side)
    requires IsRun(states, steps) && k < |states| && t < |states[k].trades|
    ensures LastPutUp(states, steps, k, t, Party(states[k].trades[t], side), SlotOf(states[k].trades[t], side))
  {
    var p: nat := k - 1;
    var s := Party(states[k].trades[t], side);
    if |states[p].trades| <= t {
      NothingYet(states, steps, p, t);
      NewTradeIsEmpty(states[p], steps[p], t);
    } else {
      SideSlot(states, steps, p, t, side);
      RunInv(states, steps, p);
      OneMoreStep(states, steps, p, t, side);
      PutLastOn(states, steps, p, t, s, SlotOf(states[p].trades[t], side));
    }
  }

  lemma {:induction false} SideConfirmed(states: seq<State>, steps: seq<Step>, k: nat, t: TradeId, side: Side)
    requires IsRun(states, steps) && k < |states| && t < |states[k].trades|
    ensures Confirmed(states[k].trades[t], side)
            <==> StandsAt(states, steps, k, t, Party(states[k].trades[t], side))
  {
    var p: nat := k - 1;
    if |states[p].trades| <= t {
      NothingYet(states, steps, p, t);
      NewTradeIsEmpty(states[p], steps[p], t);
      assert forall s :: !Confirms(states, steps, p, t, s);
    } else {
      SideConfirmed(states, steps, p, t, side);
      RunInv(states, steps, p);
      OneMoreStep(states, steps, p, t, side);
      StandsOn(states, steps, p, t, Party(states[k].trades[t], side));
    }
  }

  /** What stands after one more step. */
  lemma StandsOn(states: seq<State>, steps: seq<Step>, k: nat, t: TradeId, s: Sid)
    requires IsRun(states, steps) && k < |steps| && t < |states[k].trades|
    ensures StandsAt(states, steps, k + 1, t, s)
            <==> if Confirms(states, steps, k, t, s) then steps[k].on
                 else StandsAt(states, steps, k, t, s)
                      && !PutsUp(states, steps, k, t, states[k].trades[t].a)
                      && !PutsUp(states, steps, k, t, states[k].trades[t].b)
  {
    var after := k + 1;
    if i: nat :| Stands(states, steps, i, after, t, s) && i < k {
      assert Stands(states, steps, i, k, t, s);
    }
    if Confirms(states, steps, k, t, s) && steps[k].on {
      assert Stands(states, steps, k, k + 1, t, s);
    }
    forall r | PutsUp(states, steps, k, t, r)
      ensures r == states[k].trades[t].a || r == states[k].trades[t].b
    {
      PartiesPutUp(states, steps, k, t, r);
    }
    if i: nat :| Stands(states, steps, i, k, t, s) {
      if !Confirms(states, steps, k, t, s) && !(exists r :: PutsUp(states, steps, k, t, r)) {
        assert Stands(states, steps, i, k + 1, t, s);
      }
    }
  }

  /** Whose is whose: each side's slot is what that very session put up last. */
  lemma SlotsAreLastPutUp(states: seq<State>, steps: seq<Step>, k: nat, t: TradeId)
    requires IsRun(states, steps) && k < |states| && t < |states[k].trades|
    ensures var trade := states[k].trades[t];
            && LastPutUp(states, steps, k, t, trade.a, trade.aSlot)
            && LastPutUp(states, steps, k, t, trade.b, trade.bSlot)
  {
    SideSlot(states, steps, k, t, Asker);
    SideSlot(states, steps, k, t, Asked);
  }

  /** A confirmation is up exactly while the session's latest toggle was on and no slot has been set since. */
  lemma ConfirmedIffStands(states: seq<State>, steps: seq<Step>, k: nat, t: TradeId)
    requires IsRun(states, steps) && k < |states| && t < |states[k].trades|
    ensures var trade := states[k].trades[t];
            && (trade.aConfirm <==> StandsAt(states, steps, k, t, trade.a))
            && (trade.bConfirm <==> StandsAt(states, steps, k, t, trade.b))
  {
    SideConfirmed(states, steps, k, t, Asker);
    SideConfirmed(states, steps, k, t, Asked);
  }

  /** The invited side accepts, naming its inviter, while the trade is still current for it. */
  ghost predicate Accepts(st: State, step: Step, t: TradeId) {
    && step.Answer? && step.t == t && step.accept && t < |st.trades|
    && step.s == st.trades[t].b && step.from == Sid32(st.trades[t].a) && PointsAt(st, step.s, t)
  }

  lemma OpensOn(st: State, step: Step, t: TradeId)
    requires Enabled(st, step) && t < |Next(st, step).trades|
    ensures Next(st, step).trades[t].open <==> (t < |st.trades| && st.trades[t].open) || Accepts(st, step, t)
  {
  }

  /** A trade is open exactly if the invited side has accepted it. */
  lemma {:induction false} OpenIffAccepted(states: seq<State>, steps: seq<Step>, k: nat, t: TradeId)
    requires IsRun(states, steps) && k < |states| && t < |states[k].trades|
    ensures states[k].trades[t].open <==> exists i: nat :: i < k && Accepts(states[i], steps[i], t)
  {
    var p: nat := k - 1;
    OpensOn(states[p], steps[p], t);
    if t < |states[p].trades| {
      OpenIffAccepted(states, steps, p, t);
    } else {
      forall i: nat | i < p
        ensures !Accepts(states[i], steps[i], t)
      {
        if t < |states[i].trades| {
          SameParties(states, steps, i, p, t);
        }
      }
    }
  }

  /** The step makes trade t for s and another session, both free until then. */
  ghost predicate Makes(st: State, step: Step, t: TradeId, s: Sid) {
    && step.Create? && t == |st.trades| && (s == step.a || s == step.b)
    && step.a !in st.current && step.b !in st.current
  }

  /** The step, by a session the trade is still current for, ends that trade for s. */
  ghost predicate Frees(st: State, step: Step, s: Sid)
    requires Enabled(st, step)
  {
    && !step.Create? && PointsAt(st, step.s, step.t)
    && var trade := st.trades[step.t];
       match step
       case Create(_, _) => false
       case Answer(r, _, from, accept) =>
         !accept && !trade.open && r == trade.b && from == Sid32(trade.a) && (s == trade.a || s == trade.b)
       case SetItem(_, _, _, _) => false
       case Confirm(r, _, on) =>
         on && trade.open && (if r == trade.a then trade.bConfirm else trade.aConfirm)
         && (s == trade.a || s == trade.b)
       case ClearBoth(_, _) => s == trade.a || s == trade.b
       case ClearOwn(r, _) => s == r
  }

  /** Step i put s into trade t, and nothing until state k has ended a trade for s. */
  ghost predicate InTradeSince(states: seq<State>, steps: seq<Step>, i: nat, k: nat, t: TradeId, s: Sid)
    requires IsRun(states, steps) && k < |states|
  {
    && i < k && Makes(states[i], steps[i], t, s)
    && forall j: nat :: i < j < k ==> !Frees(states[j], steps[j], s)
  }

  lemma PointsOn(st: State, step: Step, t: TradeId, s: Sid)
    requires Known(st) && Enabled(st, step)
    ensures PointsAt(Next(st, step), s, t)
            <==> Makes(st, step, t, s) || (PointsAt(st, s, t) && !Frees(st, step, s))
  {
  }

  /** A session's trade pointer: from the request that made the trade for it to the first decline, settlement
      or clearing that takes it out, and at no other time. */
  lemma {:induction false} PointsIffInTrade(states: seq<State>, steps: seq<Step>, k: nat, t: TradeId, s: Sid)
    requires IsRun(states, steps) && k < |states|
    ensures PointsAt(states[k], s, t) <==> exists i: nat :: InTradeSince(states, steps, i, k, t, s)
  {
    if k > 0 {
      var p: nat := k - 1;
      PointsIffInTrade(states, steps, p, t, s);
      RunInv(states, steps, p);
      PointsOn(states[p], steps[p], t, s);
      if Makes(states[p], steps[p], t, s) {
        assert InTradeSince(states, steps, p, k, t, s);
      } else if i: nat :| InTradeSince(states, steps, i, k, t, s) {
        assert InTradeSince(states, steps, i, p, t, s);
      } else if i: nat :| InTradeSince(states, steps, i, p, t, s) {
        assert InTradeSince(states, steps, i, k, t, s) <==> !Frees(states[p], steps[p], s);
      }
    }
  }

  /** A trade's asker and asked are those of the request that made it. */
  lemma {:induction false} MadeByRequest(states: seq<State>, steps: seq<Step>, k: nat, t: TradeId) returns (i: nat)
    requires IsRun(states, steps) && k < |states| && t < |states[k].trades|
    ensures i < k && Makes(states[i], steps[i], t, states[k].trades[t].a)
    ensures steps[i] == Create(states[k].trades[t].a, states[k].trades[t].b)
  {
    i := k - 1;
    if t < |states[i].trades| {
      SameParties(states, steps, i, k, t);
      i := MadeByRequest(states, steps, i, t);
    }
  }

  // ---- Main results --------------------------------------------------------------------------------

  /** No trade is ever handed to the database twice. */
  lemma SettlesAtMostOnce(states: seq<State>, steps: seq<Step>, k: nat, i: nat, j: nat)
    requires IsRun(states, steps) && k < |states| && i < j < |states[k].settled|
    ensures states[k].settled[i].trade != states[k].settled[j].trade
  {
    RunInv(states, steps, k);
  }

  /** Which confirmations and which acceptance a settlement at step k rests on. */
  datatype Grounds = Grounds(asker: nat, asked: nat, acceptance: nat)

  /** A step hands a trade over exactly when it is the confirm of one party, in a trade still current for it
      and open, and the other party's confirmation is up. */
  lemma SettlesIff(st: State, step: Step)
    requires Known(st) && Enabled(st, step)
    ensures Next(st, step).settled != st.settled
            <==> step.Confirm? && step.on && PointsAt(st, step.s, step.t) && st.trades[step.t].open
                 && if step.s == st.trades[step.t].a then st.trades[step.t].bConfirm else st.trades[step.t].aConfirm
    ensures Next(st, step).settled != st.settled ==>
              Next(st, step).settled == st.settled + [OrderOf(step.t, Next(st, step).trades[step.t])]
              && BothConfirmed(Next(st, step).trades[step.t])
  {
  }

  /** The order a settlement hands over rests on a confirmation of each of its own two parties, after which
      nobody put anything up, and before both the invited side had accepted. */
  lemma SettlesWhatBothConfirmed(states: seq<State>, steps: seq<Step>, k: nat) returns (g: Grounds)
    requires IsRun(states, steps) && k < |steps| && states[k + 1].settled != states[k].settled
    ensures |states[k + 1].settled| == |states[k].settled| + 1
    ensures var o := states[k + 1].settled[|states[k].settled|];
            && g.acceptance < g.asker && g.acceptance < g.asked
            && Stands(states, steps, g.asker, k + 1, o.trade, o.a)
            && Stands(states, steps, g.asked, k + 1, o.trade, o.b)
            && Accepts(states[g.acceptance], steps[g.acceptance], o.trade)
  {
    RunInv(states, steps, k);
    SettlesIff(states[k], steps[k]);
    var t := steps[k].t;
    ConfirmedIffStands(states, steps, k + 1, t);
    var asker: nat :| Stands(states, steps, asker, k + 1, t, states[k + 1].trades[t].a);
    var asked: nat :| Stands(states, steps, asked, k + 1, t, states[k + 1].trades[t].b);
    var first := if asker < asked then asker else asked;
    OpenIffAccepted(states, steps, first, t);
    var acceptance: nat :| acceptance < first && Accepts(states[acceptance], steps[acceptance], t);
    g := Grounds(asker, asked, acceptance);
  }

  /** What an order takes from each party is what that very party put up last. */
  lemma SettledSlotsAreTheirOwn(states: seq<State>, steps: seq<Step>, k: nat, i: nat)
    requires IsRun(states, steps) && k < |states| && i < |states[k].settled|
    ensures var o := states[k].settled[i];
            && LastPutUp(states, steps, k, o.trade, o.a, o.slots.0)
            && LastPutUp(states, steps, k, o.trade, o.b, o.slots.1)
  {
    RunInv(states, steps, k);
    assert IsOrderOf(states[k].settled[i], states[k].trades);
    SlotsAreLastPutUp(states, steps, k, states[k].settled[i].trade);
  }

  /** What is settled is within the limits and names two different sessions. */
  lemma SettledOrdersAreValid(states: seq<State>, steps: seq<Step>, k: nat, i: nat)
    requires IsRun(states, steps) && k < |states| && i < |states[k].settled|
    ensures var o := states[k].settled[i];
            && o.a != o.b && SlotOk(o.slots.0) && SlotOk(o.slots.1)
            && o.slots.0.count <= 1_000_000 && o.slots.1.count <= 1_000_000
  {
    RunInv(states, steps, k);
  }

  // ---- Do the two pointers of a trade agree? ------------------------------------------------------

  function Peer(st: State, s: Sid): Sid
    requires s in st.current && st.current[s] < |st.trades|
  {
    PeerOf(st.trades[st.current[s]], s)
  }

  /** The other party points at the same trade. */
  predicate Matched(st: State, s: Sid)
    requires s in st.current && st.current[s] < |st.trades|
  {
    PointsAt(st, Peer(st, s), st.current[s])
  }

  ghost predicate Symmetric(st: State)
    requires Known(st)
  {
    forall s :: s in st.current ==> Matched(st, s)
  }

  /** A session clears its trade after its partner has left the roster, and was not too late. */
  predicate LeavesPeerBehind(st: State, step: Step)
    requires Enabled(st, step)
  {
    step.ClearOwn? && Goes(st, step)
  }

  /** Taking out a session and its partner takes out nobody else's partner. */
  lemma PairsAreDisjoint(st: State, r: Sid, s: Sid)
    requires Known(st) && Symmetric(st) && r in st.current && s in st.current && s != r && s != Peer(st, r)
    ensures Peer(st, s) != r && Peer(st, s) != Peer(st, r)
  {
    assert Matched(st, r) && Matched(st, s);
  }

  lemma PartiesStay(st: State, step: Step, t: TradeId, s: Sid)
    requires Enabled(st, step) && t < |st.trades|
    ensures t < |Next(st, step).trades| && PeerOf(Next(st, step).trades[t], s) == PeerOf(st.trades[t], s)
  {
  }

  /** What a step other than Create takes out is one session with its partner, or nobody. */
  lemma TakesOutPairs(st: State, step: Step)
    requires Known(st) && Enabled(st, step) && !LeavesPeerBehind(st, step) && !(step.Create? && Goes(st, step))
    ensures Next(st, step).current == st.current
            || (!step.Create? && step.s in st.current
                && Next(st, step).current == st.current - {step.s, Peer(st, step.s)})
  {
  }

  lemma RemovalKeepsMatched(st: State, after: State, r: Sid, s: Sid)
    requires Known(st) && Symmetric(st) && r in st.current
    requires after.current == st.current - {r, Peer(st, r)} && s in after.current
    requires st.current[s] < |after.trades|
    requires PeerOf(after.trades[st.current[s]], s) == Peer(st, s)
    ensures Matched(after, s)
  {
    PairsAreDisjoint(st, r, s);
    assert Matched(st, s);
  }

  lemma CreateKeepsMatched(st: State, a: Sid, b: Sid, s: Sid)
    requires Known(st) && Symmetric(st) && Enabled(st, Create(a, b)) && Goes(st, Create(a, b))
    requires Known(Next(st, Create(a, b))) && s in Next(st, Create(a, b)).current
    ensures Matched(Next(st, Create(a, b)), s)
  {
    if s in st.current {
      assert Matched(st, s);
    }
  }

  lemma StaysMatched(st: State, step: Step, s: Sid)
    requires Known(st) && Symmetric(st) && Enabled(st, step) && !LeavesPeerBehind(st, step)
    requires Known(Next(st, step)) && s in Next(st, step).current
    ensures Matched(Next(st, step), s)
  {
    if step.Create? && Goes(st, step) {
      CreateKeepsMatched(st, step.a, step.b, s);
    } else {
      var after := Next(st, step);
      TakesOutPairs(st, step);
      PartiesStay(st, step, st.current[s], s);
      if after.current == st.current {
        assert Matched(st, s);
      } else {
        RemovalKeepsMatched(st, after, step.s, s);
      }
    }
  }

  lemma LeavingBreaks(st: State, step: Step)
    requires Known(st) && Symmetric(st) && Enabled(st, step) && LeavesPeerBehind(st, step)
    requires Known(Next(st, step))
    ensures !Symmetric(Next(st, step))
  {
    assert Matched(st, step.s);
    assert !Matched(Next(st, step), PeerOf(st.trades[step.t], step.s));
  }

  /** Of all the locked blocks exactly this one breaks the agreement of the pointers. */
  lemma AgreementBreaksIff(st: State, step: Step)
    requires Known(st) && Symmetric(st) && Enabled(st, step)
    ensures Known(Next(st, step))
    ensures Symmetric(Next(st, step)) <==> !LeavesPeerBehind(st, step)
  {
    StepKnown(st, step);
    if LeavesPeerBehind(st, step) {
      LeavingBreaks(st, step);
    } else {
      forall s | s in Next(st, step).current ensures Matched(Next(st, step), s) {
        StaysMatched(st, step, s);
      }
    }
  }

  /** Until a session first clears a trade whose other party has left the roster, all pointers agree. */
  lemma {:induction false} PointersAgree(states: seq<State>, steps: seq<Step>, k: nat)
    requires IsRun(states, steps) && k < |states|
    requires forall i :: 0 <= i < k ==> !LeavesPeerBehind(states[i], steps[i])
    ensures Known(states[k]) && Symmetric(states[k])
  {
    if k > 0 {
      PointersAgree(states, steps, k - 1);
      AgreementBreaksIff(states[k - 1], steps[k - 1]);
    }
  }

  /** Once broken it can cost a third session: 3 is in a trade its partner has been cleared from. */
  lemma PointersCanDisagree() returns (states: seq<State>, steps: seq<Step>)
    ensures IsRun(states, steps)
    ensures var last := states[|states| - 1];
            PointsAt(last, 3, 1) && |last.trades| == 2 && PeerOf(last.trades[1], 3) == 2 && 2 !in last.current
  {
    steps := [Create(1, 2), ClearOwn(2, 0), Create(2, 3), ClearBoth(1, 0)];
    var s1 := Next(NoTrades, steps[0]);
    var s2 := Next(s1, steps[1]);
    var s3 := Next(s2, steps[2]);
    var s4 := Next(s3, steps[3]);
    states := [NoTrades, s1, s2, s3, s4];
  }
}
