// core::MpscQueue: Vyukov's queue of many producers and one consumer.
//
// A push is two atomic steps. The exchange on head fixes the value's place in the order; the store
// into the previous node's `next` makes it reachable. Between the two the list has a gap. Any number
// of producers can be between their two steps, and the consumer can pop at any moment.

/** The queue as its callers see it: an order fixed by the exchanges, and who has not linked yet. */
module MpscSpec {
  /** exchanged: values in exchange order; unlinked: their indices whose producer is between the two
      steps; consumed: how many have been popped. */
  datatype Queue<T> = Queue(exchanged: seq<T>, unlinked: set<nat>, consumed: nat)

  ghost predicate Consistent<T>(q: Queue<T>) {
    q.consumed <= |q.exchanged| && forall k :: k in q.unlinked ==> q.consumed <= k < |q.exchanged|
  }

  function Exchange<T>(q: Queue<T>, v: T): Queue<T> {
    q.(exchanged := q.exchanged + [v], unlinked := q.unlinked + {|q.exchanged|})
  }

  function Link<T>(q: Queue<T>, k: nat): Queue<T> {
    q.(unlinked := q.unlinked - {k})
  }

  predicate CanPop<T>(q: Queue<T>) {
    q.consumed < |q.exchanged| && q.consumed !in q.unlinked
  }

  function Pop<T>(q: Queue<T>): Queue<T> {
    if CanPop(q) then q.(consumed := q.consumed + 1) else q
  }

  datatype Step<T> = DoExchange(v: T) | DoLink(k: nat) | DoPop

  ghost predicate Enabled<T>(q: Queue<T>, step: Step<T>) {
    step.DoLink? ==> step.k in q.unlinked
  }

  function Next<T>(q: Queue<T>, step: Step<T>): Queue<T> {
    match step
    case DoExchange(v) => Exchange(q, v)
    case DoLink(k) => Link(q, k)
    case DoPop => Pop(q)
  }

  /** The queue after a run from empty. */
  function After<T>(steps: seq<Step<T>>): Queue<T> {
    if steps == [] then Queue([], {}, 0) else Next(After(steps[..|steps| - 1]), steps[|steps| - 1])
  }

  ghost predicate IsRun<T>(steps: seq<Step<T>>) {
    steps == [] || (IsRun(steps[..|steps| - 1]) && Enabled(After(steps[..|steps| - 1]), steps[|steps| - 1]))
  }

  /** Everything pop handed out in a run, in order. */
  function Popped<T>(steps: seq<Step<T>>): seq<T> {
    if steps == [] then []
    else
      var before := After(steps[..|steps| - 1]);
      Popped(steps[..|steps| - 1])
      + if steps[|steps| - 1].DoPop? && CanPop(before) then [before.exchanged[before.consumed]] else []
  }

  function ExchangedBy<T>(steps: seq<Step<T>>): seq<T> {
    if steps == [] then []
    else ExchangedBy(steps[..|steps| - 1]) + match steps[|steps| - 1] case DoExchange(v) => [v] case _ => []
  }

  lemma {:induction false} RunShape<T>(steps: seq<Step<T>>)
    requires IsRun(steps)
    ensures Consistent(After(steps)) && After(steps).exchanged == ExchangedBy(steps)
    ensures Popped(steps) == ExchangedBy(steps)[..After(steps).consumed]
  {
    if steps != [] { RunShape(steps[..|steps| - 1]); }
  }

  /** Values come out in exchange order, each at most once; and pop finds nothing only when all of
      them are out or the oldest one left has a producer that has not linked it. */
  lemma PopsInExchangeOrder<T>(steps: seq<Step<T>>)
    requires IsRun(steps)
    ensures Popped(steps) <= ExchangedBy(steps)
    ensures !CanPop(After(steps)) <==>
              Popped(steps) == ExchangedBy(steps) || |Popped(steps)| in After(steps).unlinked
  {
    RunShape(steps);
  }

  lemma {:induction false} PrefixIsRun<T>(steps: seq<Step<T>>, n: nat)
    requires IsRun(steps) && n <= |steps|
    ensures IsRun(steps[..n])
  {
    if n < |steps| {
      assert steps[..|steps| - 1][..n] == steps[..n];
      PrefixIsRun(steps[..|steps| - 1], n);
    } else {
      assert steps[..n] == steps;
    }
  }

  /** Nobody but its own producer closes a gap: the claim a producer links under stays good. */
  lemma ClaimStable<T>(q: Queue<T>, step: Step<T>, k: nat)
    requires Consistent(q) && Enabled(q, step) && k in q.unlinked && step != DoLink(k)
    ensures k in Next(q, step).unlinked && Next(q, step).consumed <= k
  {
  }
}

module MpscHeap {
  import opened MpscSpec

  class Node<T(0)> {
    var next: Node?<T>
    var value: T
    ghost const place: nat    // its position in the exchange order, 0 for the stub

    constructor (v: T, ghost place: nat)
      ensures next == null && value == v && this.place == place
    {
      next, value := null, v;
      this.place := place;
    }

    constructor Stub()
      ensures next == null && place == 0
    {
      next, value := null, *;
      place := 0;
    }
  }

  lemma SliceOneMore<T>(s: seq<T>, i: nat, j: nat)
    requires i < j <= |s|
    ensures s[i..j] == s[i..j - 1] + [s[j - 1]]
  {
  }

  class MpscQueue<T(0)> {
    var head: Node<T>     // producers exchange this
    var tail: Node<T>     // the consumer's own

    ghost var nodes: seq<Node<T>>   // every node ever: the stub, then one per exchange, in exchange order
    ghost var abs: Queue<T>

    ghost predicate Shape()
      reads this, nodes
    {
      && |nodes| == |abs.exchanged| + 1
      && Consistent(abs)
      && tail == nodes[abs.consumed]
      && head == nodes[|nodes| - 1]
      && (forall i :: 0 <= i < |nodes| ==> nodes[i].place == i)
      && (forall i {:trigger nodes[i]} :: 0 < i < |nodes| ==> nodes[i].value == abs.exchanged[i - 1])
      && (forall i {:trigger nodes[i].next} :: abs.consumed <= i < |abs.exchanged| ==>
            nodes[i].next == if i in abs.unlinked then null else nodes[i + 1])
      && head.next == null
    }

    /** Nodes pop has freed. */
    ghost function Deleted(): seq<Node<T>>
      reads this
    {
      if abs.consumed <= |nodes| then nodes[..abs.consumed] else nodes
    }

    /** Neither node of an open gap has been freed: not the one to be written, nor the one it gets. */
    lemma GapIsLive(k: nat)
      requires Shape() && k in abs.unlinked
      ensures k + 1 < |nodes| && nodes[k] !in Deleted() && nodes[k + 1] !in Deleted()
    {
      assert forall i :: 0 <= i < abs.consumed ==> nodes[i].place == i;
    }

    constructor ()
      ensures Shape() && abs == Queue([], {}, 0) && fresh(nodes)
    {
      var stub := new Node<T>.Stub();
      head, tail := stub, stub;
      nodes, abs := [stub], Queue([], {}, 0);
    }

    /** push, first step: the node is made and exchanged for the old head, which the producer keeps. */
    method PushExchange(v: T) returns (n: Node<T>, prev: Node<T>, ghost k: nat)
      requires Shape()
      modifies this
      ensures Shape() && abs == Exchange(old(abs), v) && k == |old(abs).exchanged|
      ensures nodes == old(nodes) + [n] && fresh(n)
      ensures prev == nodes[k] && n == nodes[k + 1]
    {
      k := |abs.exchanged|;
      n := new Node<T>(v, k + 1);
      prev := head;
      head := n;
      nodes := nodes + [n];
      abs := Exchange(abs, v);
      forall i | abs.consumed <= i < k
        ensures nodes[i].next == if i in abs.unlinked then null else nodes[i + 1]
      {
        assert nodes[i] == old(nodes[i]) && nodes[i].next == old(nodes[i].next);
      }
    }

    /** push, second step, by the producer that got prev and n from the exchange. The node it writes
        has not been deleted, however many pops and pushes came between. */
    method PushLink(prev: Node<T>, n: Node<T>, ghost k: nat)
      requires Shape() && k in abs.unlinked && prev == nodes[k] && n == nodes[k + 1]
      modifies `abs, prev`next
      ensures Shape() && abs == Link(old(abs), k) && nodes == old(nodes)
      ensures prev !in old(Deleted()) && prev !in Deleted()
    {
      prev.next := n;
      abs := Link(abs, k);
      forall i | abs.consumed <= i < |abs.exchanged|
        ensures nodes[i].next == if i in abs.unlinked then null else nodes[i + 1]
      {
        if i != k {
          assert nodes[i] != prev && nodes[i].next == old(nodes[i].next);
        }
      }
    }

    /** pop. The node it frees is the old tail, and no producer still has to write to it. */
    method TryPop() returns (ok: bool, out: T)
      requires Shape()
      modifies `tail, `abs
      ensures Shape() && abs == MpscSpec.Pop(old(abs)) && nodes == old(nodes)
      ensures ok == CanPop(old(abs))
      ensures ok ==> out == old(abs).exchanged[old(abs).consumed]
      ensures ok ==> Deleted() == old(Deleted()) + [old(tail)]
    {
      var t := tail;
      var next := t.next;
      assert t == nodes[abs.consumed] && t.next == nodes[abs.consumed].next;
      if next == null {
        ok, out := false, *;
      } else {
        ok, out := true, next.value;
        tail := next;
        abs := abs.(consumed := abs.consumed + 1);
        forall i | abs.consumed <= i < |abs.exchanged|
          ensures nodes[i].next == if i in abs.unlinked then null else nodes[i + 1]
        {
          assert nodes[i].next == old(nodes[i].next);
        }
      }
    }

    /** The destructor's loop, run when no push is under way: it hands out everything that is left. */
    method Drain() returns (rest: seq<T>)
      requires Shape() && abs.unlinked == {}
      modifies `tail, `abs
      ensures Shape() && abs == old(abs).(consumed := |old(abs).exchanged|)
      ensures rest == old(abs).exchanged[old(abs).consumed..]
      ensures tail == nodes[|nodes| - 1]
    {
      ghost var all, start := abs.exchanged, abs.consumed;
      rest := [];
      var more := true;
      while more
        invariant Shape() && nodes == old(nodes)
        invariant start <= abs.consumed <= |all| && abs == MpscSpec.Queue(all, {}, abs.consumed)
        invariant rest == all[start..abs.consumed] && (!more ==> abs.consumed == |all|)
        decreases |all| - abs.consumed, more
      {
        var v;
        more, v := TryPop();
        if more {
          SliceOneMore(all, start, abs.consumed);
          rest := rest + [v];
        }
      }
    }
  }

  /** A whole push by one producer with nobody in between. */
  method Push<T(0)>(q: MpscQueue<T>, v: T)
    requires q.Shape()
    modifies q, q.nodes
    ensures q.Shape() && q.abs == Link(Exchange(old(q.abs), v), |old(q.abs).exchanged|)
  {
    var n, prev, k := q.PushExchange(v);
    q.PushLink(prev, n, k);
  }

  /** What the producers between their two steps hold: the node to write, and the node to put there. */
  type Claims<!T(0)> = map<nat, (Node<T>, Node<T>)>

  ghost predicate Held<T(0)>(q: MpscQueue<T>, claims: Claims<T>)
    reads q
  {
    && claims.Keys == q.abs.unlinked
    && forall k :: k in claims ==> k + 1 < |q.nodes| && claims[k] == (q.nodes[k], q.nodes[k + 1])
  }

  method Perform<T(0)>(q: MpscQueue<T>, claims: Claims<T>, count: nat, step: Step<T>)
    returns (claims': Claims<T>, count': nat, out: seq<T>)
    requires q.Shape() && Held(q, claims) && count == |q.abs.exchanged| && Enabled(q.abs, step)
    modifies q, q.nodes
    ensures q.Shape() && Held(q, claims') && count' == |q.abs.exchanged| && q.abs == MpscSpec.Next(old(q.abs), step)
    ensures old(q.nodes) <= q.nodes && forall i :: |old(q.nodes)| <= i < |q.nodes| ==> fresh(q.nodes[i])
    ensures out == if step.DoPop? && CanPop(old(q.abs)) then [old(q.abs).exchanged[old(q.abs).consumed]] else []
  {
    claims', count', out := claims, count, [];
    match step
    case DoExchange(v) =>
      var n, prev, k := q.PushExchange(v);
      claims', count' := claims[count := (prev, n)], count + 1;
    case DoLink(k) =>
      assert claims[k] == (q.nodes[k], q.nodes[k + 1]);
      var (prev, n) := claims[k];
      q.PushLink(prev, n, k);
      claims' := claims - {k};
    case DoPop =>
      var ok, v := q.TryPop();
      out := if ok then [v] else [];
  }

  /** Any number of producers and the consumer, step by step in any order, from a new queue: the nodes always stand
      for the queue of the specification, and what comes out is what comes out there. */
  method Interleave<T(0)>(schedule: seq<Step<T>>) returns (q: MpscQueue<T>, popped: seq<T>)
    requires IsRun(schedule)
    ensures fresh(q) && q.Shape() && q.abs == After(schedule)
    ensures popped == Popped(schedule) <= ExchangedBy(schedule)
  {
    q := new MpscQueue<T>();
    var claims, count := map[], 0;
    popped := [];
    for i := 0 to |schedule|
      invariant q.Shape() && fresh(q) && forall j :: 0 <= j < |q.nodes| ==> fresh(q.nodes[j])
      invariant q.abs == After(schedule[..i]) && popped == Popped(schedule[..i])
      invariant Held(q, claims) && count == |q.abs.exchanged|
    {
      PrefixIsRun(schedule, i + 1);
      assert schedule[..i + 1][..i] == schedule[..i] && schedule[..i + 1][i] == schedule[i];
      var out: seq<T>;
      claims, count, out := Perform(q, claims, count, schedule[i]);
      popped := popped + out;
    }
    assert schedule[..|schedule|] == schedule;
    PopsInExchangeOrder(schedule);
  }
}
