/**
 Queues indexed by distance from a base number: slot k holds, in order of arrival, what is
 meant for the base plus k. Missing slots are empty.
 */
module Slotting {

  function Slot<T>(q: seq<seq<T>>, k: nat): seq<T> {
    if k < |q| then q[k] else []
  }

  function Push<T>(q: seq<seq<T>>, k: nat, m: T): seq<seq<T>>
    decreases k
  {
    if k == 0 then [Slot(q, 0) + [m]] + Drop(q, 1)
    else [Slot(q, 0)] + Push(Drop(q, 1), k - 1, m)
  }

  function Drop<T>(q: seq<seq<T>>, n: nat): seq<seq<T>> {
    if n <= |q| then q[n..] else []
  }

  lemma {:induction false} PushAt<T>(q: seq<seq<T>>, k: nat, m: T, j: nat)
    ensures Slot(Push(q, k, m), j) == Slot(q, j) + if j == k then [m] else []
    decreases k
  {
    if k > 0 && j > 0 {
      PushAt(Drop(q, 1), k - 1, m, j - 1);
    }
  }

  lemma {:induction false} PushWithin<T>(q: seq<seq<T>>, k: nat, m: T)
    requires k < |q|
    ensures Push(q, k, m) == q[k := q[k] + [m]]
    decreases k
  {
    if k > 0 {
      PushWithin(Drop(q, 1), k - 1, m);
    }
  }

  lemma {:induction false} PushPadded<T>(q: seq<seq<T>>, k: nat, m: T)
    requires |q| <= k
    ensures Push(q + [[]], k, m) == Push(q, k, m)
    decreases k
  {
    if k > 0 {
      if |q| > 0 {
        assert Drop(q + [[]], 1) == Drop(q, 1) + [[]];
        PushPadded(Drop(q, 1), k - 1, m);
      } else {
        assert Drop(q + [[]], 1) == Drop(q, 1);
      }
    } else {
      assert Drop(q + [[]], 1) == Drop(q, 1);
    }
  }

  lemma DropAt<T>(q: seq<seq<T>>, n: nat, j: nat)
    ensures Slot(Drop(q, n), j) == Slot(q, n + j)
  {
  }
}
