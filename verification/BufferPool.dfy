// core::BufferPool: the frame buffers behind the receive path, lent and returned as a free list.

module BufferPool {
  import opened DistinctLists
  import opened Products
  import opened Wrappers

  /** A buffer is the index of its piece of the one storage block. */
  type Buffer = nat

  function All(capacity: nat): set<Buffer> {
    if capacity == 0 then {} else All(capacity - 1) + {capacity - 1}
  }

  lemma {:induction false} AllMeans(capacity: nat)
    ensures |All(capacity)| == capacity && forall b: Buffer :: b in All(capacity) <==> b < capacity
  {
    if capacity > 0 {
      AllMeans(capacity - 1);
    }
  }

  /** Every buffer is either free, once, or lent. */
  ghost predicate Partition(free: seq<Buffer>, lent: set<Buffer>, capacity: nat) {
    Distinct(free) && Members(free) + lent == All(capacity) && Members(free) !! lent
  }

  /** Buffer b is the bytes of the storage from here on, size of them. */
  function Offset(size: nat, b: Buffer): nat {
    b * size
  }

  /** One of the two buffers ends before the other begins. */
  predicate Apart(size: nat, a: Buffer, b: Buffer) {
    Offset(size, a) + size <= Offset(size, b) || Offset(size, b) + size <= Offset(size, a)
  }

  lemma BuffersDoNotOverlap(size: nat, a: Buffer, b: Buffer)
    requires a != b
    ensures Apart(size, a, b)
  {
    if a < b {
      ProductMonotone(a + 1, b, size);
    } else {
      ProductMonotone(b + 1, a, size);
    }
  }

  lemma BufferIsInside(size: nat, capacity: nat, b: Buffer)
    requires b < capacity
    ensures Offset(size, b) + size <= Offset(size, capacity)
  {
    ProductMonotone(b + 1, capacity, size);
  }

  lemma PopLends(free: seq<Buffer>, lent: set<Buffer>, capacity: nat)
    requires Partition(free, lent, capacity) && free != []
    ensures var last := free[|free| - 1];
            last !in lent && last in All(capacity) && Partition(free[..|free| - 1], lent + {last}, capacity)
  {
    assert free[|free| - 1] in Members(free);
    PopRemoves(free);
  }

  lemma PushReturns(free: seq<Buffer>, lent: set<Buffer>, capacity: nat, b: Buffer)
    requires Partition(free, lent, capacity) && b in lent
    ensures Partition(free + [b], lent - {b}, capacity)
  {
    PushAdds(free, b);
  }

  /** What is not free is lent. */
  lemma LentCount(free: seq<Buffer>, lent: set<Buffer>, capacity: nat)
    requires Partition(free, lent, capacity)
    ensures |free| + |lent| == capacity
  {
    DistinctSize(free);
    AllMeans(capacity);
    assert |Members(free) + lent| == |Members(free)| + |lent|;
  }

  class Pool {
    const bufferSize: nat
    const capacity: nat
    var free: seq<Buffer>
    var acquired: nat
    var failed: nat
    var peak: nat
    ghost var lent: set<Buffer>

    ghost predicate Valid()
      reads this
    {
      Partition(free, lent, capacity) && |lent| <= peak <= capacity
    }

    constructor (bufferSize: nat, capacity: nat)
      ensures Valid() && this.bufferSize == bufferSize && this.capacity == capacity && lent == {} && peak == 0
    {
      this.bufferSize, this.capacity := bufferSize, capacity;
      free, acquired, failed, peak, lent := [], 0, 0, 0, {};
      new;
      for i := 0 to capacity
        invariant |free| == i && (forall k :: 0 <= k < i ==> free[k] == k)
        invariant lent == {} && peak == 0
      {
        free := free + [i];
      }
      AllMeans(capacity);
      assert Members(free) == All(capacity) by {
        forall b | b in All(capacity)
          ensures b in Members(free)
        {
          assert free[b] == b;
        }
      }
    }

    /** Takes the buffer returned last. */
    method PopFree() returns (b: Buffer)
      requires Valid() && free != []
      modifies `free, `lent
      ensures Partition(free, lent, capacity) && |free| + |lent| == capacity
      ensures b < capacity && b !in old(lent) && lent == old(lent) + {b}
    {
      PopLends(free, lent, capacity);
      AllMeans(capacity);
      b := free[|free| - 1];
      free := free[..|free| - 1];
      lent := lent + {b};
      LentCount(free, lent, capacity);
    }

    /** Refused exactly if every buffer is lent; otherwise a buffer nobody has, inside the storage and with no byte in
        common with a lent one. */
    method Acquire() returns (b: Option<Buffer>)
      requires Valid()
      modifies this
      ensures Valid() && (b.None? <==> |old(lent)| == capacity)
      ensures b.Some? ==> b.value < capacity && b.value !in old(lent) && lent == old(lent) + {b.value}
      ensures b.Some? ==> Offset(bufferSize, b.value) + bufferSize <= Offset(bufferSize, capacity)
      ensures b.Some? ==> forall other :: other in old(lent) ==> Apart(bufferSize, b.value, other)
      ensures b.None? ==> lent == old(lent) && failed == old(failed) + 1 && peak == old(peak)
      ensures b.Some? ==> peak == if |lent| > old(peak) then |lent| else old(peak)
      ensures acquired == old(acquired) + (if b.Some? then 1 else 0) && (b.Some? ==> failed == old(failed))
    {
      LentCount(free, lent, capacity);
      if free == [] {
        failed := failed + 1;
        return None;
      }
      var taken := PopFree();
      acquired := acquired + 1;
      var used := capacity - |free|;
      if used > peak {
        peak := used;
      }
      BufferIsInside(bufferSize, capacity, taken);
      forall other | other in old(lent)
        ensures Apart(bufferSize, taken, other)
      {
        BuffersDoNotOverlap(bufferSize, taken, other);
      }
      return Some(taken);
    }

    method Release(b: Buffer)
      requires Valid() && b in lent
      modifies `free, `lent
      ensures Valid() && lent == old(lent) - {b}
    {
      PushReturns(free, lent, capacity, b);
      LentCount(free, lent, capacity);
      free := free + [b];
      lent := lent - {b};
    }
  }
}
