// What several of the models share.

module Wrappers {
  datatype Option<T> = None | Some(value: T)
}

module Products {
  lemma ProductMonotone(a: nat, b: nat, c: nat)
    requires a <= b
    ensures a * c <= b * c
  {
  }
}

/** Lists without repetition. */
module DistinctLists {
  ghost predicate Distinct(b: seq<nat>) {
    forall i, j :: 0 <= i < j < |b| ==> b[i] != b[j]
  }

  function Members(b: seq<nat>): set<nat> {
    set i | 0 <= i < |b| :: b[i]
  }

  lemma PushAdds(b: seq<nat>, s: nat)
    requires Distinct(b) && s !in Members(b)
    ensures Distinct(b + [s]) && Members(b + [s]) == Members(b) + {s}
  {
    var p := b + [s];
    forall x | x in Members(b) + {s}
      ensures x in Members(p)
    {
      if x != s {
        var k :| 0 <= k < |b| && b[k] == x;
        assert p[k] == x;
      } else {
        assert p[|b|] == s;
      }
    }
  }

  lemma PopRemoves(b: seq<nat>)
    requires Distinct(b) && b != []
    ensures var init, last := b[..|b| - 1], b[|b| - 1];
            Distinct(init) && last !in Members(init) && Members(b) == Members(init) + {last}
  {
    var init, last := b[..|b| - 1], b[|b| - 1];
    assert b == init + [last];
    PushAdds(init, last);
  }

  lemma {:induction false} DistinctSize(b: seq<nat>)
    requires Distinct(b)
    ensures |Members(b)| == |b|
  {
    if b != [] {
      DistinctSize(b[..|b| - 1]);
      PopRemoves(b);
    } else {
      assert Members(b) == {};
    }
  }
}
